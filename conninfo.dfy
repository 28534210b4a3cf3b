/**
 * The libpq connection strings the service builds from its environment:
 * `get_direct_connection_string` (PGDIRECT_*) for the listener and
 * `get_pool_connection_string` (PGBOUNCER_*) for every other query.
 */
module ConnInfo {
  import opened Wrappers
  import opened Json

  /** The environment: a variable is set when it is a key (an empty value is still set). */
  type Environment = map<string, string>

  datatype ConfigError = VariablesNotSet

  const Suffixes: seq<string> := ["DB", "USER", "PASSWORD", "HOST", "PORT"]
  const Labels: seq<string> := ["dbname", "user", "password", "host", "port"]
  const DirectPrefix: string := "PGDIRECT_"
  const PoolPrefix: string := "PGBOUNCER_"

  function VariableName(prefix: string, i: nat): string
    requires i < 5
  {
    prefix + Suffixes[i]
  }

  predicate AllSet(prefix: string, env: Environment) {
    && VariableName(prefix, 0) in env && VariableName(prefix, 1) in env
    && VariableName(prefix, 2) in env && VariableName(prefix, 3) in env
    && VariableName(prefix, 4) in env
  }

  /**
   * Both builders: fail when any of the five variables is unset, otherwise
   * write "dbname=D user=U password=P host=H port=O".
   */
  function ConnectionString(prefix: string, env: Environment): (r: Result<string, ConfigError>)
    ensures r.Ok? <==> AllSet(prefix, env)
  {
    var db, user, password, host, port := VariableName(prefix, 0), VariableName(prefix, 1),
      VariableName(prefix, 2), VariableName(prefix, 3), VariableName(prefix, 4);
    if db !in env || user !in env || password !in env || host !in env || port !in env then
      Err(VariablesNotSet)
    else
      Ok("dbname=" + env[db] + " user=" + env[user] + " password=" + env[password]
         + " host=" + env[host] + " port=" + env[port])
  }

  function DirectConnectionString(env: Environment): Result<string, ConfigError> {
    ConnectionString(DirectPrefix, env)
  }

  function PoolConnectionString(env: Environment): Result<string, ConfigError> {
    ConnectionString(PoolPrefix, env)
  }

  /** The five values, in field order. */
  function Values(prefix: string, env: Environment): (vs: seq<string>)
    requires AllSet(prefix, env)
    ensures |vs| == 5 && forall i :: 0 <= i < 5 ==> vs[i] == env[VariableName(prefix, i)]
  {
    [env[VariableName(prefix, 0)], env[VariableName(prefix, 1)], env[VariableName(prefix, 2)],
     env[VariableName(prefix, 3)], env[VariableName(prefix, 4)]]
  }

  /** Only the five variables matter. */
  lemma ConnectionStringDependsOnlyOnFields(prefix: string, env1: Environment, env2: Environment)
    requires forall i :: 0 <= i < 5 ==>
      (VariableName(prefix, i) in env1 <==> VariableName(prefix, i) in env2) &&
      (VariableName(prefix, i) in env1 ==> env1[VariableName(prefix, i)] == env2[VariableName(prefix, i)])
    ensures ConnectionString(prefix, env1) == ConnectionString(prefix, env2)
  {
    if AllSet(prefix, env1) {
      assert Values(prefix, env1) == Values(prefix, env2);
    }
  }

  // ------------------------------------------------------- reading it back

  /** Splits `s` at every occurrence of `sep`. */
  function Split(s: string, sep: char): (parts: seq<string>)
    ensures |parts| > 0
  {
    if |s| == 0 then [""]
    else
      var rest := Split(s[1..], sep);
      if s[0] == sep then [""] + rest else [[s[0]] + rest[0]] + rest[1..]
  }

  lemma {:induction false} SplitPlain(p: string, sep: char)
    requires sep !in p
    ensures Split(p, sep) == [p]
  {
    if |p| > 0 {
      SplitPlain(p[1..], sep);
      assert [p[0]] + p[1..] == p;
    }
  }

  lemma {:induction false} SplitAtSeparator(p: string, sep: char, t: string)
    requires sep !in p
    ensures Split(p + [sep] + t, sep) == [p] + Split(t, sep)
  {
    var s := p + [sep] + t;
    if |p| == 0 {
      assert s[1..] == t;
    } else {
      assert s[1..] == p[1..] + [sep] + t;
      SplitAtSeparator(p[1..], sep, t);
      assert [p[0]] + p[1..] == p;
    }
  }

  /** Joining pieces that do not contain the separator and splitting again gives the pieces. */
  lemma {:induction false} SplitJoin(parts: seq<string>, sep: char)
    requires |parts| > 0
    requires forall i :: 0 <= i < |parts| ==> sep !in parts[i]
    ensures Split(Join(parts, [sep]), sep) == parts
  {
    if |parts| == 1 {
      SplitPlain(parts[0], sep);
    } else {
      SplitJoin(parts[1..], sep);
      SplitAtSeparator(parts[0], sep, Join(parts[1..], [sep]));
      assert [parts[0]] + parts[1..] == parts;
    }
  }

  /**
   * A space-separated reading of a keyword/value string with these five
   * keywords: split at every space, then strip each keyword and its `=`.
   * It is not all of libpq's grammar, which also splits at other blanks,
   * skips blanks after `=`, and honours quotes and backslash escapes.
   */
  function Parse(s: string): (r: Option<seq<string>>)
    ensures r.Some? ==> |r.value| == 5
  {
    var parts := Split(s, ' ');
    if |parts| == 5 && forall i :: 0 <= i < 5 ==> HasLabel(parts[i], Labels[i]) then
      Some(seq(5, i requires 0 <= i < 5 => parts[i][|Labels[i]| + 1..]))
    else None
  }

  predicate HasLabel(part: string, keyword: string) {
    |part| > |keyword| && part[..|keyword| + 1] == keyword + "="
  }

  /** The five keyword/value assignments, in field order. */
  function Assignments(vs: seq<string>): (parts: seq<string>)
    requires |vs| == 5
    ensures |parts| == 5 && forall i :: 0 <= i < 5 ==> parts[i] == Labels[i] + "=" + vs[i]
  {
    seq(5, i requires 0 <= i < 5 => Labels[i] + "=" + vs[i])
  }

  lemma StringIsJoinedAssignments(prefix: string, env: Environment)
    requires AllSet(prefix, env)
    ensures ConnectionString(prefix, env) == Ok(Join(Assignments(Values(prefix, env)), " "))
  {
    var vs := Values(prefix, env);
    var p := Assignments(vs);
    JoinFive(p);
    var a0 := "dbname=" + vs[0];
    assert a0 == p[0];
    Glue(a0, " user=", vs[1], p[1]);
    var a1 := a0 + " user=" + vs[1];
    Glue(a1, " password=", vs[2], p[2]);
    var a2 := a1 + " password=" + vs[2];
    Glue(a2, " host=", vs[3], p[3]);
    var a3 := a2 + " host=" + vs[3];
    Glue(a3, " port=", vs[4], p[4]);
  }

  /** One field step of the concatenation: appending " keyword=" and a value appends " " and its assignment. */
  lemma Glue(acc: string, lead: string, v: string, part: string)
    requires lead + v == " " + part
    ensures acc + lead + v == acc + " " + part
  {
    assert acc + lead + v == acc + (lead + v);
    assert acc + " " + part == acc + (" " + part);
  }

  lemma {:induction false} JoinFive(p: seq<string>)
    requires |p| == 5
    ensures Join(p, " ") == p[0] + " " + p[1] + " " + p[2] + " " + p[3] + " " + p[4]
  {
    assert Join(p[4..], " ") == p[4];
    assert Join(p[3..], " ") == p[3] + " " + p[4] by { assert p[3..][1..] == p[4..]; }
    assert Join(p[2..], " ") == p[2] + " " + p[3] + " " + p[4] by { assert p[2..][1..] == p[3..]; }
    assert Join(p[1..], " ") == p[1] + " " + p[2] + " " + p[3] + " " + p[4] by { assert p[1..][1..] == p[2..]; }
  }

  lemma ParseAssignments(vs: seq<string>)
    requires |vs| == 5 && forall i :: 0 <= i < 5 ==> ' ' !in vs[i]
    ensures Parse(Join(Assignments(vs), " ")) == Some(vs)
  {
    var parts := Assignments(vs);
    forall i | 0 <= i < 5 ensures ' ' !in parts[i] {
      assert ' ' !in Labels[i];
    }
    SplitJoin(parts, ' ');
    assert [' '] == " ";
    assert Split(Join(parts, " "), ' ') == parts;
    forall i | 0 <= i < 5 ensures HasLabel(parts[i], Labels[i]) && parts[i][|Labels[i]| + 1..] == vs[i] {
      assert parts[i][..|Labels[i]| + 1] == Labels[i] + "=";
    }
    var read := seq(5, i requires 0 <= i < 5 => parts[i][|Labels[i]| + 1..]);
    assert read == vs;
  }

  /** When no value contains a space, the space-separated reading gives back exactly the five values. */
  lemma ParseConnectionString(prefix: string, env: Environment)
    requires AllSet(prefix, env)
    requires forall i :: 0 <= i < 5 ==> ' ' !in env[VariableName(prefix, i)]
    ensures ConnectionString(prefix, env).Ok?
    ensures Parse(ConnectionString(prefix, env).value) == Some(Values(prefix, env))
  {
    StringIsJoinedAssignments(prefix, env);
    ParseAssignments(Values(prefix, env));
  }

  /**
   * Values are written without libpq's quoting, so a space inside one is
   * indistinguishable from a field boundary: a user "u password=x" with
   * password "p" gives the same string as user "u" with password "x password=p".
   */
  lemma SpaceInValueIsAmbiguous(prefix: string, env1: Environment, env2: Environment)
    requires AllSet(prefix, env1) && AllSet(prefix, env2)
    requires env1[VariableName(prefix, 0)] == env2[VariableName(prefix, 0)]
    requires env1[VariableName(prefix, 3)] == env2[VariableName(prefix, 3)]
    requires env1[VariableName(prefix, 4)] == env2[VariableName(prefix, 4)]
    requires env1[VariableName(prefix, 1)] + " password=" + env1[VariableName(prefix, 2)]
          == env2[VariableName(prefix, 1)] + " password=" + env2[VariableName(prefix, 2)]
    ensures ConnectionString(prefix, env1) == ConnectionString(prefix, env2)
  {
    var u1, w1 := env1[VariableName(prefix, 1)], env1[VariableName(prefix, 2)];
    var u2, w2 := env2[VariableName(prefix, 1)], env2[VariableName(prefix, 2)];
    var head := "dbname=" + env1[VariableName(prefix, 0)] + " user=";
    assert head + u1 + " password=" + w1 == head + (u1 + " password=" + w1);
    assert head + u2 + " password=" + w2 == head + (u2 + " password=" + w2);
  }
}

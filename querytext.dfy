/**
 * The request-side string helpers of the routes: the ILIKE search pattern,
 * the filter-keyword-to-time-clause table (the current one comparing epoch
 * seconds, the older one reading the stamp as a Windows FILETIME), and the
 * splice that adds a time clause to a query only when the clause is non-empty.
 */
module QueryText {
  import opened Wrappers
  import opened Numbers

  // ------------------------------------------------------------ search pattern

  /** `build_search_pattern`: the value wrapped in `%` on both sides. */
  function SearchPattern(v: string): (p: string)
    ensures |p| == |v| + 2 && p[0] == '%' && p[|p| - 1] == '%'
  {
    "%" + v + "%"
  }

  /** Takes a pattern apart again. */
  function PatternValue(p: string): Option<string> {
    if |p| >= 2 && p[0] == '%' && p[|p| - 1] == '%' then Some(p[1..|p| - 1]) else None
  }

  lemma PatternRoundTrip(v: string)
    ensures PatternValue(SearchPattern(v)) == Some(v)
  {
    assert SearchPattern(v)[1..|v| + 1] == v;
  }

  lemma SearchPatternInjective(v: string, w: string)
    requires SearchPattern(v) == SearchPattern(w)
    ensures v == w
  {
    PatternRoundTrip(v);
    PatternRoundTrip(w);
  }

  // ------------------------------------------------------------ time clauses

  /** The interval a filter keyword stands for; any other value, or none, stands for none. */
  function Interval(filter: Option<string>): (r: Option<string>)
    ensures r.Some? <==> filter == Some("day") || filter == Some("week") || filter == Some("month")
  {
    if filter == Some("day") then Some("24 hours")
    else if filter == Some("week") then Some("7 days")
    else if filter == Some("month") then Some("1 month")
    else None
  }

  const EpochClauseHead: string := "i.time_stamp >= extract(epoch from now() - interval '"
  const EpochClauseTail: string := "')"
  const FileTimeClauseHead: string :=
    "to_timestamp((i.time_stamp - " + FileTimeOffsetText + ") / " + TicksPerSecondText + ".0) >= now() - interval '"
  const FileTimeOffsetText: string := "116444736000000000"
  const TicksPerSecondText: string := "10000000"
  const FileTimeClauseTail: string := "'"

  /** `get_time_clause` of the current routes: stamps are Unix seconds. */
  function TimeClause(filter: Option<string>): string {
    match Interval(filter)
    case None => ""
    case Some(iv) => EpochClauseHead + iv + EpochClauseTail
  }

  /** `getTimeClause` of the older routes: stamps are 100-ns ticks since 1601. */
  function LegacyTimeClause(filter: Option<string>): string {
    match Interval(filter)
    case None => ""
    case Some(iv) => FileTimeClauseHead + iv + FileTimeClauseTail
  }

  /** The keyword a non-empty clause was made from. */
  function ClauseKeyword(clause: string, head: string, tail: string): Option<string> {
    if clause == head + "24 hours" + tail then Some("day")
    else if clause == head + "7 days" + tail then Some("week")
    else if clause == head + "1 month" + tail then Some("month")
    else None
  }

  /** Exactly the three keywords select a clause, in both tables. */
  lemma TimeClauseEmptyIff(filter: Option<string>)
    ensures TimeClause(filter) == "" <==> Interval(filter).None?
    ensures LegacyTimeClause(filter) == "" <==> Interval(filter).None?
  {
    if Interval(filter).Some? {
      assert |TimeClause(filter)| > 0;
      assert |LegacyTimeClause(filter)| > 0;
    }
  }

  lemma HeadTailIntervals(head: string, tail: string, a: string, b: string)
    requires head + a + tail == head + b + tail
    ensures a == b
  {
    var s := head + a + tail;
    assert |a| == |b|;
    assert a == s[|head|..|head| + |a|];
    assert b == (head + b + tail)[|head|..|head| + |b|];
  }

  /** Each keyword has its own clause, and the keyword can be read back from it. */
  lemma TimeClauseRoundTrip(filter: Option<string>)
    requires Interval(filter).Some?
    ensures ClauseKeyword(TimeClause(filter), EpochClauseHead, EpochClauseTail) == filter
    ensures ClauseKeyword(LegacyTimeClause(filter), FileTimeClauseHead, FileTimeClauseTail) == filter
  {
    forall head, tail, a: string, b: string | head + a + tail == head + b + tail
      ensures a == b
    {
      HeadTailIntervals(head, tail, a, b);
    }
    assert "24 hours" != "7 days" && "24 hours" != "1 month" && "7 days" != "1 month";
  }

  /** Distinct keywords give distinct clauses. */
  lemma TimeClauseInjective(f: Option<string>, g: Option<string>)
    requires Interval(f).Some? && Interval(g).Some?
    requires TimeClause(f) == TimeClause(g)
    ensures f == g
  {
    TimeClauseRoundTrip(f);
    TimeClauseRoundTrip(g);
  }

  // ------------------------------------------------------------ FILETIME

  /** Ticks of 100 ns in a second, and from 1601-01-01 to 1970-01-01. */
  const TicksPerSecond: int := 10000000
  const FileTimeUnixOffset: int := 116444736000000000

  /**
   * The two numbers in the older clause's text are the decimal digits of these
   * constants, and the offset is the 369 years from 1601 to 1970, 89 of them
   * leap years, in ticks.
   */
  lemma FileTimeClauseConstants()
    ensures FileTimeOffsetText == NatString(FileTimeUnixOffset) && TicksPerSecondText == NatString(TicksPerSecond)
    ensures FileTimeUnixOffset == ((1970 - 1601) * 365 + 89) * 86400 * TicksPerSecond
  {
    OffsetDigits();
    TicksDigits();
  }

  /** The first 5 digits of the offset. */
  lemma OffsetDigits5()
    ensures NatString(11644) == "11644"
  {
    assert NatString(1) == "1";
    NatStringStep(1, 1); assert NatString(11) == "11";
    NatStringStep(11, 6); assert NatString(116) == "116";
    NatStringStep(116, 4); assert NatString(1164) == "1164";
    NatStringStep(1164, 4); assert NatString(11644) == "11644";
  }

  /** The first 10 digits of the offset. */
  lemma OffsetDigits10()
    ensures NatString(1164447360) == "1164447360"
  {
    OffsetDigits5();
    NatStringStep(11644, 4); assert NatString(116444) == "116444";
    NatStringStep(116444, 7); assert NatString(1164447) == "1164447";
    NatStringStep(1164447, 3); assert NatString(11644473) == "11644473";
    NatStringStep(11644473, 6); assert NatString(116444736) == "116444736";
    NatStringStep(116444736, 0); assert NatString(1164447360) == "1164447360";
  }

  /** The first 14 digits of the offset. */
  lemma OffsetDigits14()
    ensures NatString(11644473600000) == "11644473600000"
  {
    OffsetDigits10();
    NatStringStep(1164447360, 0); assert NatString(11644473600) == "11644473600";
    NatStringStep(11644473600, 0); assert NatString(116444736000) == "116444736000";
    NatStringStep(116444736000, 0); assert NatString(1164447360000) == "1164447360000";
    NatStringStep(1164447360000, 0); assert NatString(11644473600000) == "11644473600000";
  }

  lemma OffsetDigits()
    ensures NatString(FileTimeUnixOffset) == "116444736000000000"
  {
    OffsetDigits14();
    NatStringStep(11644473600000, 0); assert NatString(116444736000000) == "116444736000000";
    NatStringStep(116444736000000, 0); assert NatString(1164447360000000) == "1164447360000000";
    NatStringStep(1164447360000000, 0); assert NatString(11644473600000000) == "11644473600000000";
    NatStringStep(11644473600000000, 0); assert NatString(116444736000000000) == "116444736000000000";
  }

  lemma TicksDigits()
    ensures NatString(TicksPerSecond) == "10000000"
  {
    assert NatString(1) == "1";
    NatStringStep(1, 0); assert NatString(10) == "10";
    NatStringStep(10, 0); assert NatString(100) == "100";
    NatStringStep(100, 0); assert NatString(1000) == "1000";
    NatStringStep(1000, 0); assert NatString(10000) == "10000";
    NatStringStep(10000, 0); assert NatString(100000) == "100000";
    NatStringStep(100000, 0); assert NatString(1000000) == "1000000";
    NatStringStep(1000000, 0); assert NatString(10000000) == "10000000";
  }

  /** Appending a digit to a positive number appends its character. */
  lemma NatStringStep(n: nat, d: nat)
    requires n > 0 && d < 10
    ensures NatString(n * 10 + d) == NatString(n) + [DigitChar(d)]
  {
  }

  /** The clause's conversion of a stamp to Unix seconds, divided as a real by `10000000.0`. */
  function FileTimeSeconds(ticks: int): real {
    (ticks - FileTimeUnixOffset) as real / TicksPerSecond as real
  }

  /** The stamp of a Unix second plus `sub` ticks converts back to that second and fraction. */
  lemma FileTimeRoundTrip(seconds: int, sub: int)
    requires 0 <= sub < TicksPerSecond
    ensures FileTimeSeconds(seconds * TicksPerSecond + FileTimeUnixOffset + sub)
         == seconds as real + sub as real / TicksPerSecond as real
    ensures FileTimeSeconds(seconds * TicksPerSecond + FileTimeUnixOffset + sub).Floor == seconds
  {
  }

  /**
   * The clause's comparison keeps a stamp exactly when it is at or after the
   * FILETIME of the cutoff second.
   */
  lemma FileTimeCutoff(ticks: int, cutoff: int)
    ensures FileTimeSeconds(ticks) >= cutoff as real <==> ticks >= cutoff * TicksPerSecond + FileTimeUnixOffset
  {
  }

  // ------------------------------------------------------------ the splice

  /**
   * A query with an optional clause: `base`, then `lead + clause + trail` only
   * when the clause is non-empty, then `rest`.
   */
  function Splice(base: string, lead: string, clause: string, trail: string, rest: string): (q: string)
    ensures clause == "" ==> q == base + rest
    ensures clause != "" ==> q == base + lead + clause + trail + rest
  {
    if clause == "" then base + rest else base + lead + clause + trail + rest
  }

  /** The splice is injective in its clause: different clauses give different queries. */
  lemma SpliceInjective(base: string, lead: string, c1: string, c2: string, trail: string, rest: string)
    requires Splice(base, lead, c1, trail, rest) == Splice(base, lead, c2, trail, rest)
    ensures c1 == c2
  {
    var q := Splice(base, lead, c1, trail, rest);
    if c1 != "" && c2 != "" {
      var k := |base| + |lead|;
      assert |c1| == |c2|;
      assert c1 == q[k..k + |c1|];
      assert c2 == Splice(base, lead, c2, trail, rest)[k..k + |c2|];
    }
  }

  /**
   * The clause sits right after `base + lead` in a spliced query, so a
   * non-empty clause is always visible in the text.
   */
  lemma SpliceContains(base: string, lead: string, clause: string, trail: string, rest: string)
    requires clause != ""
    ensures var q := Splice(base, lead, clause, trail, rest);
            q[..|base|] == base && q[|base| + |lead|..|base| + |lead| + |clause|] == clause
  {
  }

  /**
   * The `+=` form of the splice: start from the base, append the clause with
   * its joiners if there is one, then append the rest.
   */
  method AppendClause(base: string, lead: string, clause: string, trail: string, rest: string) returns (query: string)
    ensures query == Splice(base, lead, clause, trail, rest)
  {
    query := base;
    if clause != "" {
      query := query + lead + clause + trail;
    }
    query := query + rest;
  }
}

/**
 * The document model of nlohmann::ordered_json as the service uses it:
 * objects keep their members in insertion order, and `dump` writes either
 * the compact form or the form indented by four spaces per level.
 */
module Json {
  import opened Wrappers
  import opened Numbers

  datatype Json =
    | JNull
    | JBool(b: bool)
    | JInt(i: int)            // number_integer and number_unsigned
    | JFloat(text: string)    // number_float, kept as the text it is written as
    | JString(s: string)
    | JArray(items: seq<Json>)
    | JObject(members: seq<Member>)

  datatype Member = Member(key: string, value: Json)

  function Keys(ms: seq<Member>): (ks: seq<string>)
    ensures |ks| == |ms| && forall i :: 0 <= i < |ms| ==> ks[i] == ms[i].key
  {
    if |ms| == 0 then [] else [ms[0].key] + Keys(ms[1..])
  }

  /** The value stored under `key`, if the object has that member. */
  function Find(ms: seq<Member>, key: string): (r: Option<Json>)
    ensures r.Some? <==> key in Keys(ms)
    ensures r.Some? ==> exists i :: 0 <= i < |ms| && ms[i] == Member(key, r.value)
  {
    if |ms| == 0 then None
    else if ms[0].key == key then Some(ms[0].value)
    else Find(ms[1..], key)
  }

  // ------------------------------------------------------------ string escaping

  function HexDigit(d: nat): (c: char)
    requires d < 16
  {
    if d < 10 then DigitChar(d) else ('a' as int + (d - 10)) as char
  }

  function HexValue(c: char): Option<nat> {
    if '0' <= c <= '9' then Some(c as int - '0' as int)
    else if 'a' <= c <= 'f' then Some(c as int - 'a' as int + 10)
    else None
  }

  lemma HexRoundTrip(d: nat)
    requires d < 16
    ensures HexValue(HexDigit(d)) == Some(d)
  {
  }

  /**
   * How `dump` writes one character of a string (with ensure_ascii off):
   * quote and backslash are escaped, the five control characters with a
   * short form use it, every other control character becomes \u00xx.
   */
  function EscapeChar(c: char): string {
    if c == '"' then "\\\""
    else if c == '\\' then "\\\\"
    else if c == '\U{08}' then "\\b"
    else if c == '\t' then "\\t"
    else if c == '\n' then "\\n"
    else if c == '\U{0C}' then "\\f"
    else if c == '\r' then "\\r"
    else if (c as int) < 0x20 then "\\u00" + [HexDigit(c as int / 16), HexDigit(c as int % 16)]
    else [c]
  }

  function Escape(s: string): string {
    if |s| == 0 then "" else EscapeChar(s[0]) + Escape(s[1..])
  }

  /** Reads back the body of a JSON string literal; None if it is not well formed. */
  function Unescape(t: string): Option<string>
    decreases |t|
  {
    if |t| == 0 then Some("")
    else if t[0] == '\\' then
      if |t| < 2 then None
      else
        var e := t[1];
        var short :=
          if e == '"' then Some('"') else if e == '\\' then Some('\\')
          else if e == 'b' then Some('\U{08}') else if e == 't' then Some('\t')
          else if e == 'n' then Some('\n') else if e == 'f' then Some('\U{0C}')
          else if e == 'r' then Some('\r') else None;
        if short.Some? then
          match Unescape(t[2..])
          case Some(rest) => Some([short.value] + rest)
          case None => None
        else if e == 'u' && |t| >= 6 && t[2] == '0' && t[3] == '0'
                && HexValue(t[4]).Some? && HexValue(t[5]).Some? then
          var code := HexValue(t[4]).value * 16 + HexValue(t[5]).value;
          match Unescape(t[6..])
          case Some(rest) => Some([code as char] + rest)
          case None => None
        else None
    else if t[0] == '"' || (t[0] as int) < 0x20 then None
    else
      match Unescape(t[1..])
      case Some(rest) => Some([t[0]] + rest)
      case None => None
  }

  lemma UnescapeChar(c: char, t: string)
    ensures Unescape(EscapeChar(c) + t) ==
      match Unescape(t) case Some(rest) => Some([c] + rest) case None => None
  {
    var u := EscapeChar(c) + t;
    if (c as int) < 0x20 && c != '\U{08}' && c != '\t' && c != '\n' && c != '\U{0C}' && c != '\r' {
      HexRoundTrip(c as int / 16);
      HexRoundTrip(c as int % 16);
      assert u[6..] == t;
    } else if c == '"' || c == '\\' || c == '\U{08}' || c == '\t' || c == '\n' || c == '\U{0C}' || c == '\r' {
      assert u[2..] == t;
    } else {
      assert u[1..] == t;
    }
  }

  /** What `dump` writes inside the quotes of a string reads back as that string. */
  lemma {:induction false} EscapeRoundTrip(s: string)
    ensures Unescape(Escape(s)) == Some(s)
  {
    if |s| > 0 {
      EscapeRoundTrip(s[1..]);
      UnescapeChar(s[0], Escape(s[1..]));
      assert [s[0]] + s[1..] == s;
    }
  }

  // ------------------------------------------------------------------ dump

  function Join(parts: seq<string>, sep: string): string {
    if |parts| == 0 then ""
    else if |parts| == 1 then parts[0]
    else parts[0] + sep + Join(parts[1..], sep)
  }

  function Spaces(n: nat): (r: string)
    ensures |r| == n && forall i :: 0 <= i < n ==> r[i] == ' '
  {
    if n == 0 then "" else " " + Spaces(n - 1)
  }

  function Quoted(s: string): string { "\"" + Escape(s) + "\"" }

  function Scalar(j: Json): string
    requires !j.JArray? && !j.JObject?
  {
    match j
    case JNull => "null"
    case JBool(b) => if b then "true" else "false"
    case JInt(i) => DecimalString(i)
    case JFloat(text) => text
    case JString(s) => Quoted(s)
  }

  /** `dump(4)` of a value written at indentation `level`. */
  function Pretty(j: Json, level: nat): string
    decreases j
  {
    match j
    case JArray(items) =>
      if |items| == 0 then "[]"
      else
        var parts := seq(|items|, i requires 0 <= i < |items| =>
          Spaces(level + 4) + Pretty(items[i], level + 4));
        "[\n" + Join(parts, ",\n") + "\n" + Spaces(level) + "]"
    case JObject(ms) =>
      if |ms| == 0 then "{}"
      else
        var parts := seq(|ms|, i requires 0 <= i < |ms| =>
          Spaces(level + 4) + Quoted(ms[i].key) + ": " + Pretty(ms[i].value, level + 4));
        "{\n" + Join(parts, ",\n") + "\n" + Spaces(level) + "}"
    case _ => Scalar(j)
  }

  /** `dump()` with no indentation. */
  function Compact(j: Json): string
    decreases j
  {
    match j
    case JArray(items) =>
      "[" + Join(seq(|items|, i requires 0 <= i < |items| => Compact(items[i])), ",") + "]"
    case JObject(ms) =>
      "{" + Join(seq(|ms|, i requires 0 <= i < |ms| =>
        Quoted(ms[i].key) + ":" + Compact(ms[i].value)), ",") + "}"
    case _ => Scalar(j)
  }

  function DumpIndented(j: Json): string { Pretty(j, 0) }
}

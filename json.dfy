/**
 * JSON values as JavaScript sees them after `JSON.parse`, and `JSON.stringify`.
 * A number is carried as the text JavaScript prints for it (`String(n)`), so that
 * printing needs no floating-point formatting and `0` is recognisably falsy.
 */
module Json {
  import opened Wrappers
  import opened Text

  datatype Json =
    | JNull
    | JBool(b: bool)
    | JNum(repr: string)    // the text `String(n)` prints for the parsed number: "0" for `-0` or `0.0`, "1.5" for `1.50`
    | JStr(s: string)
    | JArr(items: seq<Json>)
    | JObj(members: seq<Member>)

  /** One own property of an object, in property order. */
  datatype Member = Member(key: string, value: Json)

  /** `JSON.parse`: the text of a reply becomes a value, or the call throws (None). */
  type Parser = string -> Option<Json>

  /** The parser maps the two literals the service falls back to onto the empty values. */
  predicate ParsesEmptyLiterals(parse: Parser) {
    parse("{}") == Some(JObj([])) && parse("[]") == Some(JArr([]))
  }

  /** `Object.keys(o)`. */
  function Keys(members: seq<Member>): (ks: seq<string>)
    ensures |ks| == |members|
    ensures forall i :: 0 <= i < |members| ==> ks[i] == members[i].key
  {
    seq(|members|, i requires 0 <= i < |members| => members[i].key)
  }

  /** `o[key]` on an object: the first member with that key, or `undefined`. */
  function Lookup(members: seq<Member>, key: string): (r: Option<Json>)
    ensures r.Some? <==> key in Keys(members)
    ensures r.Some? ==> exists i :: 0 <= i < |members| && members[i] == Member(key, r.value)
  {
    if |members| == 0 then None
    else if members[0].key == key then Some(members[0].value)
    else Lookup(members[1..], key)
  }

  /** `v.key` on any value: only objects have own properties. */
  function Get(v: Json, key: string): Option<Json> {
    if v.JObj? then Lookup(v.members, key) else None
  }

  /** JavaScript falsiness of a property read (`undefined`, `null`, `false`, `0`, `""`). */
  predicate Falsy(v: Option<Json>) {
    v.None? || v.value == JNull || v.value == JBool(false) || v.value == JNum("0") || v.value == JStr("")
  }

  // ------------------------------------------------------------ JSON.stringify

  const Hex := "0123456789abcdef"

  /** The escape `JSON.stringify` writes for one character of a string. */
  function EscapeChar(c: char): (r: string)
    ensures |r| > 0
  {
    if c == '"' then "\\\""
    else if c == '\\' then "\\\\"
    else if c == '\U{8}' then "\\b"
    else if c == '\U{C}' then "\\f"
    else if c == '\n' then "\\n"
    else if c == '\r' then "\\r"
    else if c == '\t' then "\\t"
    else if c < ' ' then "\\u00" + [Hex[c as int / 16], Hex[c as int % 16]]
    else [c]
  }

  function Escape(s: string): string {
    if s == [] then "" else EscapeChar(s[0]) + Escape(s[1..])
  }

  /** A string literal as `JSON.stringify` writes it. */
  function Quote(s: string): string {
    "\"" + Escape(s) + "\""
  }

  /** `JSON.stringify(v)` without indentation. */
  function Stringify(v: Json): string
    decreases v
  {
    match v
    case JNull => "null"
    case JBool(b) => if b then "true" else "false"
    case JNum(repr) => repr
    case JStr(s) => Quote(s)
    case JArr(items) =>
      "[" + Join(seq(|items|, i requires 0 <= i < |items| => Stringify(items[i])), ",") + "]"
    case JObj(ms) =>
      "{" + Join(seq(|ms|, i requires 0 <= i < |ms| => StringifyMember(ms[i], v)), ",") + "}"
  }

  function StringifyMember(m: Member, ghost owner: Json): string
    requires m.value < owner
    decreases owner, 0
  {
    Quote(m.key) + ":" + Stringify(m.value)
  }

  // ------------------------------------------------------- reading escapes back

  function HexValue(c: char): Option<nat> {
    if '0' <= c <= '9' then Some(c as int - '0' as int)
    else if 'a' <= c <= 'f' then Some(c as int - 'a' as int + 10)
    else if 'A' <= c <= 'F' then Some(c as int - 'A' as int + 10)
    else None
  }

  /** Reads the body of a JSON string literal back (the inverse of Escape). */
  function Unescape(s: string): Option<string>
    decreases |s|
  {
    if s == [] then Some("")
    else if s[0] == '"' then None
    else if s[0] != '\\' then
      match Unescape(s[1..]) case Some(t) => Some([s[0]] + t) case None => None
    else if |s| < 2 then None
    else
      var e := s[1];
      if e == 'u' then
        if |s| < 6 || HexValue(s[2]).None? || HexValue(s[3]).None? || HexValue(s[4]).None? || HexValue(s[5]).None? then None
        else
          var code := ((HexValue(s[2]).value * 16 + HexValue(s[3]).value) * 16 + HexValue(s[4]).value) * 16 + HexValue(s[5]).value;
          if 0xD800 <= code < 0xE000 then None
          else match Unescape(s[6..]) case Some(t) => Some([code as char] + t) case None => None
      else
        var c := if e == '"' then Some('"') else if e == '\\' then Some('\\') else if e == '/' then Some('/')
                 else if e == 'b' then Some('\U{8}') else if e == 'f' then Some('\U{C}')
                 else if e == 'n' then Some('\n') else if e == 'r' then Some('\r')
                 else if e == 't' then Some('\t') else None;
        if c.None? then None
        else match Unescape(s[2..]) case Some(t) => Some([c.value] + t) case None => None
  }

  /** One escaped character followed by more escaped text reads back as that character first. */
  lemma UnescapeStep(c: char, rest: string)
    ensures Unescape(EscapeChar(c) + rest) == match Unescape(rest) case Some(t) => Some([c] + t) case None => None
  {
    var s := EscapeChar(c) + rest;
    if c == '"' || c == '\\' || c == '\U{8}' || c == '\U{C}' || c == '\n' || c == '\r' || c == '\t' {
      assert s[2..] == rest;
    } else if c < ' ' {
      var hi, lo := c as int / 16, c as int % 16;
      assert hi == 0 || hi == 1;
      assert HexValue(Hex[hi]) == Some(hi);
      assert HexValue(Hex[lo]) == Some(lo);
      assert s[6..] == rest;
    } else {
      assert s[1..] == rest;
    }
  }

  /** Every string survives escaping: `JSON.stringify` loses no character of a string. */
  lemma {:induction false} EscapeRoundTrip(s: string)
    ensures Unescape(Escape(s)) == Some(s)
  {
    if s != [] {
      EscapeRoundTrip(s[1..]);
      UnescapeStep(s[0], Escape(s[1..]));
      assert [s[0]] + s[1..] == s;
    }
  }

  /** A string with no quote, backslash or control character is printed between quotes unchanged. */
  lemma {:induction false} QuotePlain(s: string)
    requires forall i :: 0 <= i < |s| ==> s[i] != '"' && s[i] != '\\' && s[i] >= ' '
    ensures Quote(s) == "\"" + s + "\""
  {
    EscapePlain(s);
  }

  lemma {:induction false} EscapePlain(s: string)
    requires forall i :: 0 <= i < |s| ==> s[i] != '"' && s[i] != '\\' && s[i] >= ' '
    ensures Escape(s) == s
  {
    if s != [] {
      EscapePlain(s[1..]);
      assert [s[0]] + s[1..] == s;
    }
  }
}

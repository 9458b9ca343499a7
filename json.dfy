/**
 * JSON documents as the gateway builds and sends them, and their text form as
 * Python's `json.dumps` writes it with its default settings: items separated by
 * ", ", keys by ": ", keys kept in insertion order, and every character outside
 * printable ASCII escaped (`ensure_ascii`).
 */
module Json {
  import opened Wrappers

  /** A JSON value. Objects keep their members in insertion order, as a Python dict does. */
  datatype JsonValue =
    | JNull
    | JBool(b: bool)
    | JInt(i: int)
    | JStr(s: string)
    | JArr(items: seq<JsonValue>)
    | JObj(fields: seq<(string, JsonValue)>)

  /** Python's truth value of a decoded JSON value (`if not value`). */
  predicate Truthy(v: JsonValue) {
    match v
    case JNull => false
    case JBool(b) => b
    case JInt(i) => i != 0
    case JStr(s) => s != ""
    case JArr(items) => items != []
    case JObj(fields) => fields != []
  }

  /** The keys of an object's members. */
  function Keys(fields: seq<(string, JsonValue)>): (ks: set<string>)
    ensures forall i :: 0 <= i < |fields| ==> fields[i].0 in ks
    ensures forall k :: k in ks ==> exists i :: 0 <= i < |fields| && fields[i].0 == k
  {
    set i | 0 <= i < |fields| :: fields[i].0
  }

  /** Looks a key up in an object's members; a later member with the same key wins, as in a dict. */
  function Get(fields: seq<(string, JsonValue)>, key: string): (r: Option<JsonValue>)
    ensures r.Some? <==> key in Keys(fields)
    ensures r.Some? ==> (key, r.value) in fields
  {
    if fields == [] then None
    else if fields[|fields| - 1].0 == key then Some(fields[|fields| - 1].1)
    else
      assert Keys(fields) == Keys(fields[..|fields| - 1]) + {fields[|fields| - 1].0};
      Get(fields[..|fields| - 1], key)
  }

  /** The key and the member of a one-member object. */
  lemma GetOfSingle(k: string, v: JsonValue)
    ensures Keys([(k, v)]) == {k}
    ensures Get([(k, v)], k) == Some(v)
  {
    var fields := [(k, v)];
    assert fields[0].0 == k;
    assert forall k' :: k' in Keys(fields) ==> k' == k;
  }

  /** The keys and the members of a two-member object with distinct keys. */
  lemma GetOfPair(k1: string, v1: JsonValue, k2: string, v2: JsonValue)
    requires k1 != k2
    ensures Keys([(k1, v1), (k2, v2)]) == {k1, k2}
    ensures Get([(k1, v1), (k2, v2)], k1) == Some(v1)
    ensures Get([(k1, v1), (k2, v2)], k2) == Some(v2)
  {
    var fields := [(k1, v1), (k2, v2)];
    assert fields[..1] == [(k1, v1)];
    assert fields[0].0 == k1 && fields[1].0 == k2;
    assert forall k :: k in Keys(fields) ==> k == k1 || k == k2;
  }

  // ---------------------------------------------------------------- characters

  predicate IsPrintable(c: char) {
    ' ' <= c <= '~'
  }

  /** Every character is printable ASCII, so the text encodes to UTF-8 byte for byte and holds no line break. */
  predicate AllPrintable(s: string) {
    forall i :: 0 <= i < |s| ==> IsPrintable(s[i])
  }

  function DigitChar(d: nat): (c: char)
    requires d < 10
    ensures '0' <= c <= '9'
  {
    ('0' as int + d) as char
  }

  /** A lower-case hexadecimal digit, as Python's `{0:04x}` writes it. */
  function HexChar(d: nat): (c: char)
    requires d < 16
    ensures IsPrintable(c)
  {
    if d < 10 then DigitChar(d) else ('a' as int + d - 10) as char
  }

  /** The value of one hexadecimal digit of either case, as a JSON decoder reads it. */
  function HexValue(c: char): (r: Option<nat>)
    ensures r.Some? ==> r.value < 16
  {
    if '0' <= c <= '9' then Some(c as int - '0' as int)
    else if 'a' <= c <= 'f' then Some(c as int - 'a' as int + 10)
    else if 'A' <= c <= 'F' then Some(c as int - 'A' as int + 10)
    else None
  }

  lemma HexValueOfHexChar(d: nat)
    requires d < 16
    ensures HexValue(HexChar(d)) == Some(d)
  {
  }

  /** Decimal text of a natural number, without leading zeros. */
  function NatToString(n: nat): (r: string)
    ensures |r| > 0
    ensures forall i :: 0 <= i < |r| ==> '0' <= r[i] <= '9'
  {
    if n < 10 then [DigitChar(n)] else NatToString(n / 10) + [DigitChar(n % 10)]
  }

  /** Decimal text of an integer, as Python's `repr` of an int writes it. */
  function IntToString(i: int): (r: string)
    ensures AllPrintable(r)
  {
    if i < 0 then "-" + NatToString(-i) else NatToString(i)
  }

  // ---------------------------------------------------------------- escaping

  /** Four lower-case hexadecimal digits of a 16-bit code unit. */
  function Hex4(n: nat): (r: string)
    requires n < 0x10000
    ensures |r| == 4 && AllPrintable(r)
  {
    [HexChar(n / 0x1000), HexChar(n / 0x100 % 0x10), HexChar(n / 0x10 % 0x10), HexChar(n % 0x10)]
  }

  /** Reads four hexadecimal digits of either case. */
  function ParseHex4(h: string): (r: Option<nat>)
    requires |h| == 4
    ensures r.Some? ==> r.value < 0x10000
  {
    match (HexValue(h[0]), HexValue(h[1]), HexValue(h[2]), HexValue(h[3]))
    case (Some(a), Some(b), Some(c), Some(d)) => Some(a * 0x1000 + b * 0x100 + c * 0x10 + d)
    case _ => None
  }

  lemma ParseHex4OfHex4(n: nat)
    requires n < 0x10000
    ensures ParseHex4(Hex4(n)) == Some(n)
  {
    var a, b, c, d := n / 0x1000, n / 0x100 % 0x10, n / 0x10 % 0x10, n % 0x10;
    HexValueOfHexChar(a);
    HexValueOfHexChar(b);
    HexValueOfHexChar(c);
    HexValueOfHexChar(d);
    assert n / 0x1000 == n / 0x100 / 0x10;
    assert n / 0x100 == n / 0x10 / 0x10;
    assert n == n / 0x10 * 0x10 + d;
    assert n / 0x10 == n / 0x100 * 0x10 + c;
    assert n / 0x100 == a * 0x10 + b;
    assert a * 0x1000 + b * 0x100 + c * 0x10 + d == n;
  }

  /** The escape `json.dumps` writes for one character of a string (ensure_ascii). */
  function EscapeChar(c: char): (r: string)
    ensures |r| > 0 && AllPrintable(r)
  {
    if c == '"' then "\\\""
    else if c == '\\' then "\\\\"
    else if c == '\n' then "\\n"
    else if c == '\r' then "\\r"
    else if c == '\t' then "\\t"
    else if c as int == 0x08 then "\\b"
    else if c as int == 0x0C then "\\f"
    else if IsPrintable(c) then [c]
    else if c as int < 0x10000 then "\\u" + Hex4(c as int)
    else
      // a code point beyond the basic plane is written as a UTF-16 surrogate pair
      var n := c as int - 0x10000;
      "\\u" + Hex4(0xD800 + n / 0x400) + "\\u" + Hex4(0xDC00 + n % 0x400)
  }

  function EscapeString(s: string): (r: string)
    ensures AllPrintable(r)
  {
    if s == [] then [] else EscapeChar(s[0]) + EscapeString(s[1..])
  }

  /** A JSON string literal. */
  function Quote(s: string): (r: string)
    ensures AllPrintable(r)
  {
    "\"" + EscapeString(s) + "\""
  }

  /** A printable character other than a quote or a backslash is written as itself. */
  predicate IsPlain(c: char) {
    IsPrintable(c) && c != '"' && c != '\\'
  }

  lemma {:induction false} EscapePlain(s: string)
    requires forall i :: 0 <= i < |s| ==> IsPlain(s[i])
    ensures EscapeString(s) == s
  {
    if s != [] {
      EscapePlain(s[1..]);
      assert [s[0]] + s[1..] == s;
    }
  }

  /** Text with no quote, backslash or unprintable character is quoted as it stands. */
  lemma QuotePlain(s: string)
    requires forall i :: 0 <= i < |s| ==> IsPlain(s[i])
    ensures Quote(s) == "\"" + s + "\""
  {
    EscapePlain(s);
  }

  // ---------------------------------------------------------------- decoding string literals

  /** The character a two-character escape `\x` stands for. */
  function ShortEscape(c: char): Option<char> {
    if c == '"' then Some('"')
    else if c == '\\' then Some('\\')
    else if c == '/' then Some('/')
    else if c == 'b' then Some(0x08 as char)
    else if c == 'f' then Some(0x0C as char)
    else if c == 'n' then Some('\n')
    else if c == 'r' then Some('\r')
    else if c == 't' then Some('\t')
    else None
  }

  function Cons(c: char, rest: Option<string>): Option<string> {
    if rest.Some? then Some([c] + rest.value) else None
  }

  /**
   * Decodes the body of a JSON string literal as a JSON decoder does; fails on a bare
   * quote, a raw control character, an unknown escape, or a surrogate that is not part
   * of a pair (no Dafny character stands for one).
   */
  function Unescape(s: string): Option<string>
    decreases |s|
  {
    if s == [] then Some([])
    else if s[0] == '\\' then
      if |s| >= 2 && ShortEscape(s[1]).Some? then Cons(ShortEscape(s[1]).value, Unescape(s[2..]))
      else if |s| >= 6 && s[1] == 'u' then
        match ParseHex4(s[2..6])
        case None => None
        case Some(hi) =>
          if 0xD800 <= hi < 0xDC00 then
            if |s| >= 12 && s[6] == '\\' && s[7] == 'u' then
              match ParseHex4(s[8..12])
              case None => None
              case Some(lo) =>
                if 0xDC00 <= lo < 0xE000 then
                  Cons((0x10000 + (hi - 0xD800) * 0x400 + (lo - 0xDC00)) as char, Unescape(s[12..]))
                else None
            else None
          else if 0xDC00 <= hi < 0xE000 then None
          else Cons(hi as char, Unescape(s[6..]))
      else None
    else if s[0] == '"' || s[0] < ' ' then None
    else Cons(s[0], Unescape(s[1..]))
  }

  /** Decodes a whole JSON string literal, quotes included. */
  function Unquote(t: string): Option<string> {
    if |t| >= 2 && t[0] == '"' && t[|t| - 1] == '"' then Unescape(t[1..|t| - 1]) else None
  }

  lemma UnescapeBasicPlane(c: char, rest: string)
    requires !IsPrintable(c) && c as int < 0x10000
    requires c != '\n' && c != '\r' && c != '\t' && c as int != 0x08 && c as int != 0x0C
    ensures Unescape(EscapeChar(c) + rest) == Cons(c, Unescape(rest))
  {
    var s := EscapeChar(c) + rest;
    assert s[1] == 'u';
    assert s[2..6] == Hex4(c as int);
    ParseHex4OfHex4(c as int);
    assert s[6..] == rest;
  }

  /** The two halves of a surrogate pair hold the high and low ten bits of the code point's offset from the basic plane. */
  lemma SurrogateHalves(n: nat)
    requires n < 0x100000
    ensures n / 0x400 < 0x400 && n % 0x400 < 0x400
    ensures n / 0x400 * 0x400 + n % 0x400 == n
  {
  }

  /** Two `\\uXXXX` escapes that form a surrogate pair decode to the one character they encode. */
  lemma UnescapePair(hi: nat, lo: nat, rest: string)
    requires 0xD800 <= hi < 0xDC00 && 0xDC00 <= lo < 0xE000
    ensures Unescape("\\u" + Hex4(hi) + "\\u" + Hex4(lo) + rest) ==
      Cons((0x10000 + (hi - 0xD800) * 0x400 + (lo - 0xDC00)) as char, Unescape(rest))
  {
    var s := "\\u" + Hex4(hi) + "\\u" + Hex4(lo) + rest;
    assert s[2..6] == Hex4(hi);
    ParseHex4OfHex4(hi);
    assert s[8..12] == Hex4(lo);
    ParseHex4OfHex4(lo);
    assert s[12..] == rest;
  }

  lemma UnescapeSurrogatePair(c: char, rest: string)
    requires c as int >= 0x10000
    ensures Unescape(EscapeChar(c) + rest) == Cons(c, Unescape(rest))
  {
    var n := c as int - 0x10000;
    var hi, lo := 0xD800 + n / 0x400, 0xDC00 + n % 0x400;
    assert 0xD800 <= hi < 0xDC00 && 0xDC00 <= lo < 0xE000 && 0x10000 + (hi - 0xD800) * 0x400 + (lo - 0xDC00) == c as int by {
      SurrogateHalves(n);
    }
    assert EscapeChar(c) == "\\u" + Hex4(hi) + "\\u" + Hex4(lo);
    UnescapePair(hi, lo, rest);
  }

  lemma UnescapeEscapeChar(c: char, rest: string)
    ensures Unescape(EscapeChar(c) + rest) == Cons(c, Unescape(rest))
  {
    var s := EscapeChar(c) + rest;
    if c == '"' || c == '\\' || c == '\n' || c == '\r' || c == '\t' || c as int == 0x08 || c as int == 0x0C {
      assert s[2..] == rest;
    } else if IsPrintable(c) {
      assert s[1..] == rest;
    } else if c as int < 0x10000 {
      UnescapeBasicPlane(c, rest);
    } else {
      UnescapeSurrogatePair(c, rest);
    }
  }

  /** Escaping loses nothing: the decoder recovers every string exactly. */
  lemma {:induction false} UnescapeEscapeString(s: string)
    ensures Unescape(EscapeString(s)) == Some(s)
  {
    if s != [] {
      UnescapeEscapeString(s[1..]);
      UnescapeEscapeChar(s[0], EscapeString(s[1..]));
      assert [s[0]] + s[1..] == s;
    }
  }

  lemma UnquoteQuote(s: string)
    ensures Unquote(Quote(s)) == Some(s)
  {
    var t := Quote(s);
    assert t[1..|t| - 1] == EscapeString(s);
    UnescapeEscapeString(s);
  }

  /** Quoting is injective: two strings with the same literal are the same string. */
  lemma QuoteInjective(s1: string, s2: string)
    ensures Quote(s1) == Quote(s2) <==> s1 == s2
  {
    if Quote(s1) == Quote(s2) {
      UnquoteQuote(s1);
      UnquoteQuote(s2);
    }
  }

  // ---------------------------------------------------------------- serialization

  /** The items of a list or the members of an object, separated as `json.dumps` separates them. */
  function Join(parts: seq<string>, sep: string): (r: string)
    ensures AllPrintable(sep) && (forall i :: 0 <= i < |parts| ==> AllPrintable(parts[i])) ==> AllPrintable(r)
  {
    if parts == [] then ""
    else if |parts| == 1 then parts[0]
    else parts[0] + sep + Join(parts[1..], sep)
  }

  /** `json.dumps(v)`; the text is printable ASCII, so it never holds a line break. */
  function Serialize(v: JsonValue): (r: string)
    ensures AllPrintable(r)
    decreases v
  {
    match v
    case JNull => "null"
    case JBool(b) => if b then "true" else "false"
    case JInt(i) => IntToString(i)
    case JStr(s) => Quote(s)
    case JArr(items) =>
      "[" + Join(seq(|items|, i requires 0 <= i < |items| => Serialize(items[i])), ", ") + "]"
    case JObj(fields) =>
      "{" + Join(seq(|fields|, i requires 0 <= i < |fields| => Member(fields[i].0, fields[i].1, v)), ", ") + "}"
  }

  /** One `"key": value` member of an object. */
  function Member(key: string, value: JsonValue, ghost parent: JsonValue): (r: string)
    requires value < parent
    ensures AllPrintable(r)
    decreases parent, 0
  {
    Quote(key) + ": " + Serialize(value)
  }


  /** The text of an object with one member. */
  lemma SerializeObject1(k: string, v: JsonValue)
    ensures Serialize(JObj([(k, v)])) == "{" + Quote(k) + ": " + Serialize(v) + "}"
  {
    var o := JObj([(k, v)]);
    var parts := seq(1, i requires 0 <= i < 1 => Member(o.fields[i].0, o.fields[i].1, o));
    assert parts == [Member(o.fields[0].0, o.fields[0].1, o)];
  }

  lemma AppendAssoc(a: string, b: string, c: string)
    ensures a + (b + c) == a + b + c
  {
  }

  /** The text of an object with two members, separated by ", ". */
  lemma SerializeObject2(k1: string, v1: JsonValue, k2: string, v2: JsonValue)
    ensures Serialize(JObj([(k1, v1), (k2, v2)])) ==
      "{" + (Quote(k1) + ": " + Serialize(v1)) + ", " + (Quote(k2) + ": " + Serialize(v2)) + "}"
  {
    var o := JObj([(k1, v1), (k2, v2)]);
    var parts := seq(2, i requires 0 <= i < 2 => Member(o.fields[i].0, o.fields[i].1, o));
    var m1, m2 := Member(o.fields[0].0, o.fields[0].1, o), Member(o.fields[1].0, o.fields[1].1, o);
    assert parts == [m1, m2];
    assert parts[1..] == [m2];
    assert Join(parts, ", ") == m1 + ", " + m2;
    AppendAssoc("{", m1 + ", ", m2);
    AppendAssoc("{", m1, ", ");
  }
}

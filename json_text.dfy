/** The text `encoding/json` writes for a JSON value, without insignificant
    whitespace. Strings are escaped as `json.Marshal` does by default:
    quotation mark and backslash are escaped with a backslash; newline,
    carriage return and tab get their short escapes; every other control
    character, and `<`, `>` and `&`, become `\u00XX` with lower-case hex
    digits (Go releases before 1.22 write backspace and form feed this way
    too; later ones give them short escapes); U+2028 and U+2029 become
    backslash-u-2028 and backslash-u-2029. */
module JsonText {
  import opened Wrappers
  import opened Blocks
  import opened BlockJson

  const HexDigits: string := "0123456789abcdef"

  /** Characters written as `\u00XX`. */
  predicate IsHexEscaped(c: char) {
    (c < ' ' && c != '\n' && c != '\r' && c != '\t') || c == '<' || c == '>' || c == '&'
  }

  /** Characters that are written as themselves. */
  predicate IsVerbatim(c: char) {
    c != '"' && c != '\\' && c != '\n' && c != '\r' && c != '\t' && !IsHexEscaped(c)
    && c != '\U{2028}' && c != '\U{2029}'
  }

  function EscapeChar(c: char): (e: string)
    ensures |e| > 0
  {
    if IsVerbatim(c) then [c]
    else if c == '"' then "\\\""
    else if c == '\\' then "\\\\"
    else if c == '\n' then "\\n"
    else if c == '\r' then "\\r"
    else if c == '\t' then "\\t"
    else if IsHexEscaped(c) then "\\u00" + [HexDigits[c as int / 16], HexDigits[c as int % 16]]
    else "\\u202" + [HexDigits[c as int % 16]]
  }

  /** The body of a JSON string literal for `s`. */
  function Escape(s: string): string
    decreases |s|
  {
    if |s| == 0 then "" else EscapeChar(s[0]) + Escape(s[1..])
  }

  function Quote(s: string): string {
    "\"" + Escape(s) + "\""
  }

  function Serialize(j: Json): string
    decreases j
  {
    match j
    case JString(s) => Quote(s)
    case JArray(items) => "[" + SerializeItems(items) + "]"
    case JObject(ms) => "{" + SerializeMembers(ms) + "}"
  }

  /** Array elements separated by commas. */
  function SerializeItems(items: seq<Json>): string
    decreases items
  {
    if |items| == 0 then ""
    else if |items| == 1 then Serialize(items[0])
    else Serialize(items[0]) + "," + SerializeItems(items[1..])
  }

  /** Object members separated by commas. */
  function SerializeMembers(ms: seq<Member>): string
    decreases ms
  {
    if |ms| == 0 then ""
    else if |ms| == 1 then SerializeMember(ms[0])
    else SerializeMember(ms[0]) + "," + SerializeMembers(ms[1..])
  }

  /** A member; its key is a struct tag name, which needs no escaping. */
  function SerializeMember(m: Member): string
    decreases m
  {
    "\"" + m.key + "\":" + Serialize(m.value)
  }

  /** `json.Marshal` of a response, a block and a field. */
  function Marshal(r: Response): string {
    Serialize(ResponseToJson(r))
  }

  function MarshalBlock(b: Block): string {
    Serialize(BlockToJson(b))
  }

  function MarshalField(f: BlockField): string {
    Serialize(FieldToJson(f))
  }

  // ---------------------------------------------------------------------------
  // Reading an escaped string body back

  function HexValue(c: char): Option<nat> {
    if '0' <= c <= '9' then Some(c as int - '0' as int)
    else if 'a' <= c <= 'f' then Some(c as int - 'a' as int + 10)
    else if 'A' <= c <= 'F' then Some(c as int - 'A' as int + 10)
    else None
  }

  /** The code unit written by four hex digits. */
  function Hex4(h: string): Option<nat>
    requires |h| == 4
  {
    match (HexValue(h[0]), HexValue(h[1]), HexValue(h[2]), HexValue(h[3]))
    case (Some(a), Some(b), Some(c), Some(d)) => Some(a * 4096 + b * 256 + c * 16 + d)
    case _ => None
  }

  /** The character a one-letter escape stands for, as RFC 8259 section 7
      lists them. */
  function ShortEscape(c: char): Option<char> {
    if c == '"' || c == '\\' || c == '/' then Some(c)
    else if c == 'n' then Some('\n')
    else if c == 'r' then Some('\r')
    else if c == 't' then Some('\t')
    else if c == 'b' then Some(8 as char)
    else if c == 'f' then Some(12 as char)
    else None
  }

  function Prepend(c: char, r: Option<string>): Option<string> {
    match r
    case Some(s) => Some([c] + s)
    case None => None
  }

  /** Decode the body of a JSON string literal; a raw quotation mark or
      control character, or a malformed escape, is refused. Surrogate
      pairs are not decoded. */
  function Unescape(e: string): Option<string>
    decreases |e|
  {
    if |e| == 0 then Some("")
    else if e[0] == '"' || e[0] < ' ' then None
    else if e[0] != '\\' then Prepend(e[0], Unescape(e[1..]))
    else if |e| < 2 then None
    else if e[1] == 'u' then
      if |e| < 6 then None
      else
        match Hex4(e[2..6])
        case Some(u) =>
          if u < 0xD800 || 0xE000 <= u < 0x1_0000 then Prepend(u as char, Unescape(e[6..])) else None
        case None => None
    else
      match ShortEscape(e[1])
      case Some(c) => Prepend(c, Unescape(e[2..]))
      case None => None
  }

  lemma HexDigitValue(k: nat)
    requires k < 16
    ensures HexValue(HexDigits[k]) == Some(k)
  {
  }

  lemma UnescapeChar(c: char, rest: string)
    ensures Unescape(EscapeChar(c) + rest) == Prepend(c, Unescape(rest))
  {
    if c == '"' || c == '\\' || c == '\n' || c == '\r' || c == '\t' {
      UnescapeShort(c, rest);
    } else if IsHexEscaped(c) {
      UnescapeHex(c, rest);
    } else if c == '\U{2028}' || c == '\U{2029}' {
      UnescapeSeparator(c, rest);
    } else {
      var e := EscapeChar(c) + rest;
      assert e[1..] == rest;
    }
  }

  lemma UnescapeShort(c: char, rest: string)
    requires c == '"' || c == '\\' || c == '\n' || c == '\r' || c == '\t'
    ensures Unescape(EscapeChar(c) + rest) == Prepend(c, Unescape(rest))
  {
    var e := EscapeChar(c) + rest;
    assert e[2..] == rest;
  }

  lemma UnescapeHex(c: char, rest: string)
    requires IsHexEscaped(c)
    ensures Unescape(EscapeChar(c) + rest) == Prepend(c, Unescape(rest))
  {
    var e := EscapeChar(c) + rest;
    var hi, lo := c as int / 16, c as int % 16;
    HexDigitValue(hi);
    HexDigitValue(lo);
    assert e[2..6] == ['0', '0', HexDigits[hi], HexDigits[lo]];
    assert Hex4(e[2..6]) == Some(c as int);
    assert e[6..] == rest;
  }

  lemma UnescapeSeparator(c: char, rest: string)
    requires c == '\U{2028}' || c == '\U{2029}'
    ensures Unescape(EscapeChar(c) + rest) == Prepend(c, Unescape(rest))
  {
    var e := EscapeChar(c) + rest;
    var lo := c as int % 16;
    HexDigitValue(lo);
    assert e[2..6] == ['2', '0', '2', HexDigits[lo]];
    assert Hex4(e[2..6]) == Some(c as int);
    assert e[6..] == rest;
  }

  /** Escaping loses nothing: decoding the escaped body gives the string. */
  lemma {:induction false} UnescapeEscape(s: string)
    ensures Unescape(Escape(s)) == Some(s)
    decreases |s|
  {
    if |s| > 0 {
      UnescapeEscape(s[1..]);
      UnescapeChar(s[0], Escape(s[1..]));
      assert s == [s[0]] + s[1..];
    }
  }

  /** Text with no character that needs escaping. */
  predicate Verbatim(s: string) {
    forall i :: 0 <= i < |s| ==> IsVerbatim(s[i])
  }

  /** Text without characters that need escaping is written as it is. */
  lemma {:induction false} EscapeVerbatim(s: string)
    requires Verbatim(s)
    ensures Escape(s) == s
    decreases |s|
  {
    if |s| > 0 {
      EscapeVerbatim(s[1..]);
      assert s == [s[0]] + s[1..];
    }
  }
  lemma QuoteVerbatim(s: string)
    requires Verbatim(s)
    ensures Quote(s) == "\"" + s + "\""
  {
    EscapeVerbatim(s);
  }

  lemma ObjectOfOne(k: string, v: Json)
    ensures Serialize(JObject([Member(k, v)])) == "{\"" + k + "\":" + Serialize(v) + "}"
  {
    var m := Member(k, v);
    assert SerializeMembers([m]) == "\"" + k + "\":" + Serialize(v);
  }

  lemma ObjectOfTwo(k0: string, v0: Json, k1: string, v1: Json)
    ensures Serialize(JObject([Member(k0, v0), Member(k1, v1)]))
         == "{\"" + k0 + "\":" + Serialize(v0) + ",\"" + k1 + "\":" + Serialize(v1) + "}"
  {
    var ms := [Member(k0, v0), Member(k1, v1)];
    assert ms[1..] == [ms[1]];
    assert SerializeMembers(ms) == SerializeMember(ms[0]) + "," + SerializeMember(ms[1]);
    assert "{" + "\"" == "{\"";
    assert "," + "\"" == ",\"";
    Regroup("{", "\"", k0, "\":", Serialize(v0), ",", k1, Serialize(v1), "}");
  }

  lemma ArrayText(items: seq<Json>)
    ensures Serialize(JArray(items)) == "[" + SerializeItems(items) + "]"
  {
  }

  /** Regrouping the pieces of a two-member object. */
  lemma Regroup(open: string, q: string, k0: string, c: string, s0: string, comma: string,
                k1: string, s1: string, close: string)
    ensures open + ((q + k0 + c + s0) + comma + (q + k1 + c + s1)) + close
         == (open + q) + k0 + c + s0 + (comma + q) + k1 + c + s1 + close
  {
  }

  /** The text of a text element or field: its type, then its text. */
  lemma TextElementText(t: BlockText)
    ensures Serialize(TextToJson(t))
         == "{\"type\":" + Quote(t.textType) + ",\"text\":" + Quote(t.text) + "}"
  {
    ObjectOfTwo("type", JString(t.textType), "text", JString(t.text));
  }
}

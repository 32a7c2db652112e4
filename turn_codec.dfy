/**
 * How one chat turn is stored in a Redis list: `JSON.stringify({ role, content })`
 * on the way in, `JSON.parse(item)` on the way out. The encoder follows the
 * string-quoting rules of `JSON.stringify`; the decoder reads exactly the
 * layout the encoder writes, which is every layout `addMessage` stores.
 */
module TurnCodec {
  import opened Wrappers

  datatype Turn = Turn(role: string, content: string)

  // ---------------------------------------------------------------------
  // Quoting a string
  // ---------------------------------------------------------------------

  function HexDigit(n: nat): char
    requires n < 16
  {
    "0123456789abcdef"[n]
  }

  function HexValue(c: char): Option<nat> {
    if '0' <= c <= '9' then Some(c as int - '0' as int)
    else if 'a' <= c <= 'f' then Some(c as int - 'a' as int + 10)
    else if 'A' <= c <= 'F' then Some(c as int - 'A' as int + 10)
    else None
  }

  lemma HexRoundTrip(n: nat)
    requires n < 16
    ensures HexValue(HexDigit(n)) == Some(n)
  {
  }

  /** How `JSON.stringify` writes one character inside quotes. */
  function EscapeChar(c: char): string {
    if c == '"' then "\\\""
    else if c == '\\' then "\\\\"
    else if c as int == 0x08 then "\\b"
    else if c == '\t' then "\\t"
    else if c == '\n' then "\\n"
    else if c as int == 0x0C then "\\f"
    else if c == '\r' then "\\r"
    else if c as int < 0x20 then "\\u00" + [HexDigit(c as int / 16), HexDigit(c as int % 16)]
    else [c]
  }

  function Escape(s: string): string {
    if s == [] then [] else EscapeChar(s[0]) + Escape(s[1..])
  }

  // ---------------------------------------------------------------------
  // Reading a quoted string back
  // ---------------------------------------------------------------------

  /** The character an escape sequence (after its backslash) stands for, and how many characters it used. */
  function Unescape(u: string): (r: Option<(char, nat)>)
    ensures r.Some? ==> 1 <= r.value.1 <= |u|
  {
    if u == [] then None
    else if u[0] == '"' || u[0] == '\\' || u[0] == '/' then Some((u[0], 1))
    else if u[0] == 'b' then Some((0x08 as char, 1))
    else if u[0] == 'f' then Some((0x0C as char, 1))
    else if u[0] == 'n' then Some(('\n', 1))
    else if u[0] == 'r' then Some(('\r', 1))
    else if u[0] == 't' then Some(('\t', 1))
    else if u[0] == 'u' && |u| >= 5 then
      match (HexValue(u[1]), HexValue(u[2]), HexValue(u[3]), HexValue(u[4]))
      case (Some(a), Some(b), Some(c), Some(d)) =>
        var v := ((a * 16 + b) * 16 + c) * 16 + d;
        // a lone surrogate half is not a Dafny character
        if v < 0xD800 || (0xDFFF < v < 0x110000) then Some((v as char, 5)) else None
      case _ => None
    else None
  }

  /**
   * Reads the body of a JSON string up to its closing quote: the text it
   * stands for and what follows the quote.
   */
  function ParseQuoted(t: string): (r: Option<(string, string)>)
    ensures r.Some? ==> |r.value.1| < |t|
    decreases |t|
  {
    if t == [] then None
    else if t[0] == '"' then Some(([], t[1..]))
    else if t[0] as int < 0x20 then None
    else if t[0] == '\\' then
      match Unescape(t[1..])
      case None => None
      case Some((c, n)) =>
        match ParseQuoted(t[1 + n..])
        case None => None
        case Some((v, rest)) => Some(([c] + v, rest))
    else
      match ParseQuoted(t[1..])
      case None => None
      case Some((v, rest)) => Some(([t[0]] + v, rest))
  }

  /** A control character without a short escape is written `\u00XY`. */
  predicate NeedsHexEscape(c: char) {
    c as int < 0x20 && !(c as int == 0x08 || c == '\t' || c == '\n' || c as int == 0x0C || c == '\r')
  }

  lemma ParseAfterHex(c: char, t: string, v: string, rest: string)
    requires NeedsHexEscape(c) && ParseQuoted(t) == Some((v, rest))
    ensures ParseQuoted(EscapeChar(c) + t) == Some(([c] + v, rest))
  {
    var e := EscapeChar(c);
    var u := (e + t)[1..];
    var hi, lo := c as int / 16, c as int % 16;
    HexRoundTrip(hi);
    HexRoundTrip(lo);
    assert u[..5] == ['u', '0', '0', HexDigit(hi), HexDigit(lo)];
    assert Unescape(u) == Some((c, 5));
    assert (e + t)[6..] == t;
  }

  lemma ParseAfterShort(c: char, t: string, v: string, rest: string)
    requires !NeedsHexEscape(c) && |EscapeChar(c)| == 2 && ParseQuoted(t) == Some((v, rest))
    ensures ParseQuoted(EscapeChar(c) + t) == Some(([c] + v, rest))
  {
    var e := EscapeChar(c);
    var u := (e + t)[1..];
    assert Unescape(u) == Some((c, 1));
    assert (e + t)[2..] == t;
  }

  /** Reading one escaped character and then a quoted rest reads that character in front of the rest. */
  lemma ParseAfterChar(c: char, t: string, v: string, rest: string)
    requires ParseQuoted(t) == Some((v, rest))
    ensures ParseQuoted(EscapeChar(c) + t) == Some(([c] + v, rest))
  {
    if NeedsHexEscape(c) {
      ParseAfterHex(c, t, v, rest);
    } else if |EscapeChar(c)| == 2 {
      ParseAfterShort(c, t, v, rest);
    } else {
      assert (EscapeChar(c) + t)[1..] == t;
    }
  }

  lemma EscapeConsThen(s: string, q: string)
    requires s != []
    ensures Escape(s) + q == EscapeChar(s[0]) + (Escape(s[1..]) + q)
  {
  }

  /** The quoted form of any string reads back as that string, leaving what follows the closing quote. */
  lemma {:induction false} ParseEscaped(s: string, rest: string)
    ensures ParseQuoted(Escape(s) + ("\"" + rest)) == Some((s, rest))
  {
    var q := "\"" + rest;
    if s == [] {
      assert Escape(s) + q == q;
    } else {
      ParseEscaped(s[1..], rest);
      ParseAfterChar(s[0], Escape(s[1..]) + q, s[1..], rest);
      EscapeConsThen(s, q);
      assert [s[0]] + s[1..] == s;
    }
  }

  // ---------------------------------------------------------------------
  // A whole turn
  // ---------------------------------------------------------------------

  const RolePrefix := "{\"role\":\""
  const ContentPrefix := ",\"content\":\""

  /** `JSON.stringify({ role, content })`. */
  function EncodeTurn(t: Turn): string {
    RolePrefix + Escape(t.role) + "\"" + ContentPrefix + Escape(t.content) + "\"}"
  }

  /**
   * `JSON.parse(item)` for the exact layout `EncodeTurn` writes; None for any
   * other text, including JSON that `JSON.parse` would read, such as the two
   * fields in the other order or with spaces between the tokens.
   */
  function DecodeTurn(item: string): Option<Turn> {
    if |item| < |RolePrefix| || item[..|RolePrefix|] != RolePrefix then None
    else
      match ParseQuoted(item[|RolePrefix|..])
      case None => None
      case Some((role, r1)) =>
        if |r1| < |ContentPrefix| || r1[..|ContentPrefix|] != ContentPrefix then None
        else
          match ParseQuoted(r1[|ContentPrefix|..])
          case None => None
          case Some((content, r2)) => if r2 == "}" then Some(Turn(role, content)) else None
  }

  /** The decoder accepts a role prefix, a quoted role, a content prefix, a quoted content and the closing brace. */
  lemma DecodeShape(a: string, b: string, role: string, content: string)
    requires ParseQuoted(a) == Some((role, ContentPrefix + b))
    requires ParseQuoted(b) == Some((content, "}"))
    ensures DecodeTurn(RolePrefix + a) == Some(Turn(role, content))
  {
    var item := RolePrefix + a;
    assert item[..|RolePrefix|] == RolePrefix;
    assert item[|RolePrefix|..] == a;
    var r1 := ContentPrefix + b;
    assert r1[..|ContentPrefix|] == ContentPrefix;
    assert r1[|ContentPrefix|..] == b;
  }

  lemma EncodeLayout(t: Turn)
    ensures EncodeTurn(t) == RolePrefix + (Escape(t.role) + ("\"" + (ContentPrefix + (Escape(t.content) + ("\"" + "}")))))
  {
    assert "\"}" == "\"" + "}";
  }

  /** Every stored turn reads back as the turn that was stored. */
  lemma DecodeEncode(t: Turn)
    ensures DecodeTurn(EncodeTurn(t)) == Some(t)
  {
    var b := Escape(t.content) + ("\"" + "}");
    var a := Escape(t.role) + ("\"" + (ContentPrefix + b));
    EncodeLayout(t);
    ParseEscaped(t.role, ContentPrefix + b);
    ParseEscaped(t.content, "}");
    DecodeShape(a, b, t.role, t.content);
  }
}

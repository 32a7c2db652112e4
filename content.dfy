/**
 * What the language model returns and how the core turns it into text.
 * A chat model's `content` is either a string or an array of parts; the
 * core normalises it in two ways: the inline `map`/`join` of `AiService`
 * and the `parseContent` helper shared by `AiService` and `DailyFactService`.
 */
module Content {
  import opened Text

  /**
   * A JavaScript value as far as the normalisers look at it: `JNull` stands
   * for `null` and `undefined`, `JScalar` for a number or boolean together
   * with its `String(...)` form.
   */
  datatype Json =
    | JString(s: string)
    | JArray(items: seq<Json>)
    | JObject(fields: map<string, Json>)
    | JNull
    | JScalar(shown: string)

  /** How `Array.prototype.join` writes one element: `null`/`undefined` as `''`, anything else as `String(v)`. */
  function JoinString(v: Json): string
    decreases v, 1
  {
    match v
    case JString(s) => s
    case JNull => ""
    case JScalar(shown) => shown
    case JObject(_) => "[object Object]"
    case JArray(items) => JoinElements(items, v)
  }

  /** `String(array)`, that is `array.join(',')`. */
  function JoinElements(items: seq<Json>, ghost whole: Json): string
    requires forall i :: 0 <= i < |items| ==> items[i] < whole
    decreases whole, 0, |items|
  {
    if items == [] then ""
    else if |items| == 1 then JoinString(items[0])
    else JoinString(items[0]) + "," + JoinElements(items[1..], whole)
  }

  /** A part as the model client declares it: a string or an object. */
  predicate IsPart(c: Json) {
    c.JString? || c.JObject?
  }

  /** The type of a model message's `content`: a string or an array of parts. */
  type MessageContent = c: Json | c.JString? || (c.JArray? && forall i :: 0 <= i < |c.items| ==> IsPart(c.items[i]))
    witness JString("")

  /** One call of the model: its content, or the exception it threw. */
  datatype Generation = Generated(content: MessageContent) | Failed(message: string)

  /** The language model, as an oracle from prompt to generation. */
  type Model = string -> Generation

  // ---------------------------------------------------------------------
  // parseContent
  // ---------------------------------------------------------------------

  /** One array element in `parseContent`: a string, the `text` of an object (cast, then written by `join`), or `''`. */
  function PartText(c: Json): string {
    match c
    case JString(s) => s
    case JObject(fields) => if "text" in fields then JoinString(fields["text"]) else ""
    case _ => ""
  }

  /** The elements' texts concatenated (`.map(...).join('')`). */
  function ConcatParts(items: seq<Json>): string {
    if items == [] then "" else PartText(items[0]) + ConcatParts(items[1..])
  }

  /** `parseContent(content: unknown)`: a string as is, an array as its parts' texts, anything else `''`. */
  function ParseContent(v: Json): string {
    match v
    case JString(s) => s
    case JArray(items) => ConcatParts(items)
    case _ => ""
  }

  /** The parts of an array contribute their texts in order: `parseContent` distributes over concatenation. */
  lemma {:induction false} ParseContentAppend(a: seq<Json>, b: seq<Json>)
    ensures ParseContent(JArray(a + b)) == ParseContent(JArray(a)) + ParseContent(JArray(b))
  {
    ConcatPartsAppend(a, b);
  }

  lemma {:induction false} ConcatPartsAppend(a: seq<Json>, b: seq<Json>)
    ensures ConcatParts(a + b) == ConcatParts(a) + ConcatParts(b)
  {
    if a == [] {
      assert a + b == b;
    } else {
      var rest := a[1..] + b;
      assert (a + b)[0] == a[0] && (a + b)[1..] == rest;
      ConcatPartsAppend(a[1..], b);
      var p := PartText(a[0]);
      assert ConcatParts(a + b) == p + ConcatParts(rest);
      assert p + (ConcatParts(a[1..]) + ConcatParts(b)) == (p + ConcatParts(a[1..])) + ConcatParts(b);
    }
  }

  /** An array of strings alone normalises to their concatenation. */
  lemma {:induction false} ParseContentStrings(ss: seq<string>)
    ensures ParseContent(JArray(seq(|ss|, i requires 0 <= i < |ss| => JString(ss[i])))) == Join(ss, "")
  {
    var items := seq(|ss|, i requires 0 <= i < |ss| => JString(ss[i]));
    if |ss| == 1 {
      assert ConcatParts(items) == PartText(items[0]) + ConcatParts(items[1..]);
    } else if |ss| > 1 {
      ParseContentStrings(ss[1..]);
      assert items[1..] == seq(|ss[1..]|, i requires 0 <= i < |ss[1..]| => JString(ss[1..][i]));
      assert ConcatParts(items) == ss[0] + ConcatParts(items[1..]);
    }
  }

  // ---------------------------------------------------------------------
  // The inline normaliser of AiService
  // ---------------------------------------------------------------------

  /** One part in the inline normaliser: a string, or the `text` of an object when it is a string, else `''`. */
  function InlinePartText(c: Json): string
    requires IsPart(c)
  {
    match c
    case JString(s) => s
    case JObject(fields) =>
      if "text" in fields && fields["text"].JString? then fields["text"].s else ""
  }

  /** `typeof content === 'string' ? content : content.map(...).join(sep)`. */
  function JoinParts(c: MessageContent, sep: string): string {
    match c
    case JString(s) => s
    case JArray(items) => Join(seq(|items|, i requires 0 <= i < |items| => InlinePartText(items[i])), sep)
  }

  /** Every element is a part, and every object part's `text`, when present, is a string. */
  predicate StringTexts(items: seq<Json>) {
    forall i :: 0 <= i < |items| ==>
      IsPart(items[i]) && (items[i].JObject? && "text" in items[i].fields ==> items[i].fields["text"].JString?)
  }

  /**
   * With `''` as the separator the inline normaliser and `parseContent` agree
   * on every content whose object parts carry string texts.
   */
  lemma {:induction false} JoinPartsAgrees(c: MessageContent)
    requires c.JArray? ==> StringTexts(c.items)
    ensures JoinParts(c, "") == ParseContent(c)
  {
    if c.JArray? {
      JoinTextsIsConcat(c.items);
    }
  }

  /** They differ on an object part whose `text` is a number: `parseContent` writes it out, the inline form drops it. */
  lemma NumericTextDiffers()
    ensures JoinParts(JArray([JObject(map["text" := JScalar("5")])]), "") == ""
    ensures ParseContent(JArray([JObject(map["text" := JScalar("5")])])) == "5"
  {
    var items := [JObject(map["text" := JScalar("5")])];
    assert ConcatParts(items) == PartText(items[0]) + ConcatParts(items[1..]);
  }

  lemma {:induction false} JoinTextsIsConcat(items: seq<Json>)
    requires StringTexts(items)
    ensures Join(seq(|items|, i requires 0 <= i < |items| => InlinePartText(items[i])), "") == ConcatParts(items)
  {
    var texts := seq(|items|, i requires 0 <= i < |items| => InlinePartText(items[i]));
    if |items| == 1 {
      assert ConcatParts(items[1..]) == "";
      assert InlinePartText(items[0]) == PartText(items[0]);
    } else if |items| > 1 {
      assert StringTexts(items[1..]) by {
        forall i | 0 <= i < |items[1..]| ensures items[1..][i] == items[i + 1] {}
      }
      JoinTextsIsConcat(items[1..]);
      assert texts[1..] == seq(|items[1..]|, i requires 0 <= i < |items[1..]| => InlinePartText(items[1..][i]));
      assert InlinePartText(items[0]) == PartText(items[0]);
    }
  }
}

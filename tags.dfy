/**
 * The tag protocol of the model's output: `rawText.match(/<t>([\s\S]*?)<\/t>/)`
 * for the tags `reply`, `react`, `memory` (chat) and `topic`, `content`
 * (daily fact), with the fallbacks applied when a tag is missing.
 */
module Tags {
  import opened Wrappers
  import opened Text

  function OpenTag(name: string): string { "<" + name + ">" }
  function CloseTag(name: string): string { "</" + name + ">" }

  /**
   * Where the regular expression matches: the first opening tag, then the
   * first closing tag after it. Returns the start of the opening tag and the
   * start of the closing tag.
   */
  function MatchSpan(s: string, open: string, close: string): (r: Option<(nat, nat)>)
    ensures r.Some? ==> r.value.0 + |open| <= r.value.1 <= |s|
  {
    IndexOfSpec(s, open, 0);
    match IndexOf(s, open, 0)
    case None => None
    case Some(i) =>
      IndexOfSpec(s, close, i + |open|);
      match IndexOf(s, close, i + |open|)
      case None => None
      case Some(j) => Some((i, j))
  }

  /** The regular expression can match starting at `i` and ending its lazy group at `j`. */
  ghost predicate CanMatch(s: string, open: string, close: string, i: int, j: int) {
    OccursAt(s, open, i) && i + |open| <= j && OccursAt(s, close, j)
  }

  /**
   * The match a backtracking engine reports for `open([\s\S]*?)close`: the
   * leftmost start that can match at all, and from it the shortest group.
   */
  ghost predicate LeftmostLazy(s: string, open: string, close: string, i: int, j: int) {
    && CanMatch(s, open, close, i, j)
    && (forall j' :: i + |open| <= j' < j ==> !OccursAt(s, close, j'))
    && (forall i', j' :: i' < i && OccursAt(s, open, i') && OccursAt(s, close, j') ==> j' < i' + |open|)
  }

  /** `MatchSpan` finds exactly the regular expression's match, and finds nothing only when there is none. */
  lemma MatchSpanIsLeftmostLazy(s: string, open: string, close: string)
    ensures MatchSpan(s, open, close).Some? ==>
      LeftmostLazy(s, open, close, MatchSpan(s, open, close).value.0, MatchSpan(s, open, close).value.1)
    ensures MatchSpan(s, open, close).None? ==>
      forall i, j :: !CanMatch(s, open, close, i, j)
  {
    IndexOfSpec(s, open, 0);
    match IndexOf(s, open, 0)
    case None =>
    case Some(i) =>
      IndexOfSpec(s, close, i + |open|);
  }

  /** There is only one leftmost-lazy match, so the regular expression's result is determined. */
  lemma LeftmostLazyUnique(s: string, open: string, close: string, i1: int, j1: int, i2: int, j2: int)
    requires LeftmostLazy(s, open, close, i1, j1) && LeftmostLazy(s, open, close, i2, j2)
    ensures i1 == i2 && j1 == j2
  {
  }

  /** The capture group `match[1]` of `/<name>([\s\S]*?)<\/name>/`, untrimmed, or None when it does not match. */
  function ExtractTag(s: string, name: string): (r: Option<string>)
  {
    match MatchSpan(s, OpenTag(name), CloseTag(name))
    case None => None
    case Some((i, j)) => Some(s[i + |OpenTag(name)|..j])
  }

  /** `indexOf` returns a position once the pattern occurs there and nowhere before it. */
  lemma IndexOfAt(s: string, pat: string, from: nat, i: nat)
    requires from <= i && OccursAt(s, pat, i)
    requires forall k :: from <= k < i ==> !OccursAt(s, pat, k)
    ensures IndexOf(s, pat, from) == Some(i)
    decreases i - from
  {
    if from < i {
      assert !OccursAt(s, pat, from);
      assert from + |pat| <= |s|;
      IndexOfAt(s, pat, from + 1, i);
    } else {
      assert s[from..from + |pat|] == pat;
    }
  }

  /** A tag, which starts with `<`, cannot occur at a position holding another character. */
  lemma NoTagAt(s: string, name: string, k: int, closing: bool)
    requires 0 <= k < |s| && s[k] != '<'
    ensures !OccursAt(s, if closing then CloseTag(name) else OpenTag(name), k)
  {
    var pat := if closing then CloseTag(name) else OpenTag(name);
    assert pat[0] == '<';
  }

  /** A text without `<` holds no tag. */
  lemma NoTagWithoutLt(s: string, name: string)
    requires '<' !in s
    ensures ExtractTag(s, name).None?
  {
    forall k | 0 <= k < |s| ensures !OccursAt(s, OpenTag(name), k) {
      NoTagAt(s, name, k, false);
    }
    IndexOfSpec(s, OpenTag(name), 0);
  }

  /** A pattern does not occur where one of its characters is contradicted. */
  lemma Mismatch(s: string, pat: string, k: int, d: nat)
    requires 0 <= k && d < |pat| && k + d < |s| && s[k + d] != pat[d]
    ensures !OccursAt(s, pat, k)
  {
  }

  /** Whether a pattern occurs at `k` depends only on the text it would cover. */
  lemma OccursInPrefix(x: string, y: string, pat: string, k: int)
    requires 0 <= k && k + |pat| <= |x|
    ensures OccursAt(x + y, pat, k) == OccursAt(x, pat, k)
  {
    assert (x + y)[k..k + |pat|] == x[k..k + |pat|];
  }

  lemma OccursAtSplice(x: string, pat: string, y: string)
    ensures OccursAt(x + pat + y, pat, |x|)
  {
    assert (x + pat + y)[|x|..|x| + |pat|] == pat;
  }

  /** No closing tag starts inside text without `<`. */
  lemma NoCloseInside(a: string, inner: string, rest: string, name: string, k: int)
    requires '<' !in inner && |a| <= k < |a| + |inner|
    ensures !OccursAt(a + inner + rest, CloseTag(name), k)
  {
    assert (a + inner + rest)[k] == inner[k - |a|];
    NoTagAt(a + inner + rest, name, k, true);
  }

  /** The opening tag is first found where it is put, when it does not start earlier. */
  lemma OpenFound(pre: string, open: string, rest: string)
    requires forall k :: 0 <= k < |pre| ==> !OccursAt(pre + open, open, k)
    ensures IndexOf(pre + open + rest, open, 0) == Some(|pre|)
  {
    var s := pre + open + rest;
    OccursAtSplice(pre, open, rest);
    forall k | 0 <= k < |pre| ensures !OccursAt(s, open, k) {
      OccursInPrefix(pre + open, rest, open, k);
    }
    IndexOfAt(s, open, 0, |pre|);
  }

  /** From the start of text without `<`, the first closing tag is the one right after it. */
  lemma CloseFound(a: string, inner: string, name: string, post: string)
    requires '<' !in inner
    ensures IndexOf(a + inner + CloseTag(name) + post, CloseTag(name), |a|) == Some(|a| + |inner|)
  {
    var s := a + inner + CloseTag(name) + post;
    OccursAtSplice(a + inner, CloseTag(name), post);
    forall k | |a| <= k < |a| + |inner| ensures !OccursAt(s, CloseTag(name), k) {
      assert s == a + inner + (CloseTag(name) + post);
      NoCloseInside(a, inner, CloseTag(name) + post, name, k);
    }
    IndexOfAt(s, CloseTag(name), |a|, |a| + |inner|);
  }

  lemma MatchSpanAt(s: string, open: string, close: string, i: nat, j: nat)
    requires IndexOf(s, open, 0) == Some(i)
    requires IndexOf(s, close, i + |open|) == Some(j)
    ensures MatchSpan(s, open, close) == Some((i, j))
  {
  }

  /** The capture group runs from the end of the first opening tag to the first closing tag after it. */
  lemma ExtractAt(s: string, name: string, i: nat, j: nat)
    requires IndexOf(s, OpenTag(name), 0) == Some(i)
    requires IndexOf(s, CloseTag(name), i + |OpenTag(name)|) == Some(j)
    requires i + |OpenTag(name)| <= j <= |s|
    ensures ExtractTag(s, name) == Some(s[i + |OpenTag(name)|..j])
  {
    MatchSpanAt(s, OpenTag(name), CloseTag(name), i, j);
  }

  lemma MiddleSlice(a: string, inner: string, c: string, d: string)
    ensures (a + inner + c + d)[|a|..|a| + |inner|] == inner
  {
    assert a + inner + c + d == a + inner + (c + d);
  }

  /**
   * A tag wrapped around text without `<` is found there, provided the
   * opening tag does not start anywhere in front of it.
   */
  lemma ExtractTagSkipping(pre: string, name: string, inner: string, post: string)
    requires '<' !in inner
    requires forall k :: 0 <= k < |pre| ==> !OccursAt(pre + OpenTag(name), OpenTag(name), k)
    ensures ExtractTag(pre + OpenTag(name) + inner + CloseTag(name) + post, name) == Some(inner)
  {
    var open, close := OpenTag(name), CloseTag(name);
    assert pre + open + inner + close + post == pre + open + (inner + close + post);
    OpenFound(pre, open, inner + close + post);
    CloseFound(pre + open, inner, name, post);
    MiddleSlice(pre + open, inner, close, post);
    ExtractAt(pre + open + inner + close + post, name, |pre|, |pre| + |open| + |inner|);
  }

  /** A tag wrapped around text without `<` is found there, whatever text without `<` precedes it. */
  lemma ExtractTagAfter(pre: string, name: string, inner: string, post: string)
    requires '<' !in pre && '<' !in inner
    ensures ExtractTag(pre + OpenTag(name) + inner + CloseTag(name) + post, name) == Some(inner)
  {
    forall k | 0 <= k < |pre| ensures !OccursAt(pre + OpenTag(name), OpenTag(name), k) {
      assert (pre + OpenTag(name))[k] == pre[k];
      NoTagAt(pre + OpenTag(name), name, k, false);
    }
    ExtractTagSkipping(pre, name, inner, post);
  }

  // ---------------------------------------------------------------------
  // The chat reply: reply, react and memory with their fallbacks
  // ---------------------------------------------------------------------

  /** The memory value meaning "persist nothing this turn". */
  const IgnoreSentinel := "IGNORE"

  datatype ChatTags = ChatTags(reply: string, react: string, memory: string)

  /**
   * The tags of a chat answer: each trimmed; a missing reply falls back to the
   * whole raw text, a missing react to `''`, a missing memory to `'IGNORE'`.
   */
  function ParseChatTags(raw: string): (r: ChatTags)
    ensures ExtractTag(raw, "reply").Some? ==> r.reply == Trim(ExtractTag(raw, "reply").value)
    ensures ExtractTag(raw, "reply").None? ==> r.reply == raw
    ensures ExtractTag(raw, "react").Some? ==> r.react == Trim(ExtractTag(raw, "react").value)
    ensures ExtractTag(raw, "react").None? ==> r.react == ""
    ensures ExtractTag(raw, "memory").Some? ==> r.memory == Trim(ExtractTag(raw, "memory").value)
    ensures ExtractTag(raw, "memory").None? ==> r.memory == IgnoreSentinel
  {
    var reply := ExtractTag(raw, "reply");
    var memory := ExtractTag(raw, "memory");
    var react := ExtractTag(raw, "react");
    ChatTags(
      if reply.Some? then Trim(reply.value) else raw,
      if react.Some? then Trim(react.value) else "",
      if memory.Some? then Trim(memory.value) else IgnoreSentinel)
  }

  /** A raw text without any `<` has no tags: the reply is the raw text, no reaction, nothing remembered. */
  lemma UntaggedFallbacks(raw: string)
    requires '<' !in raw
    ensures ParseChatTags(raw) == ChatTags(raw, "", IgnoreSentinel)
  {
    NoTagWithoutLt(raw, "reply");
    NoTagWithoutLt(raw, "react");
    NoTagWithoutLt(raw, "memory");
  }

  // ---------------------------------------------------------------------
  // The daily fact: topic and content, both required
  // ---------------------------------------------------------------------

  datatype Fact = Fact(topic: string, content: string)

  /** Both tags trimmed, or None as soon as either tag is missing. */
  function ParseFactTags(raw: string): (r: Option<Fact>)
    ensures r.None? <==> ExtractTag(raw, "topic").None? || ExtractTag(raw, "content").None?
    ensures r.Some? ==> r.value.topic == Trim(ExtractTag(raw, "topic").value)
    ensures r.Some? ==> r.value.content == Trim(ExtractTag(raw, "content").value)
  {
    var topicMatch := ExtractTag(raw, "topic");
    var contentMatch := ExtractTag(raw, "content");
    if topicMatch.None? || contentMatch.None? then None
    else Some(Fact(Trim(topicMatch.value), Trim(contentMatch.value)))
  }
}

/**
 * The short-term tier: `RedisService` over a Redis server. A user's chat
 * buffer is the list `chat_history:<userId>`, capped at the 20 newest turns
 * and expiring an hour after the last write; the daily-fact topics are the
 * list `daily_facts_topics`, newest first, capped at 50.
 */
module Redis {
  import opened Wrappers
  import opened Text
  import opened TurnCodec

  // ---------------------------------------------------------------------
  // Redis index ranges
  // ---------------------------------------------------------------------

  function Max(a: int, b: int): int { if a >= b then a else b }
  function Min(a: int, b: int): int { if a <= b then a else b }

  /**
   * The elements `LRANGE`/`LTRIM key start stop` select: negative indexes
   * count from the end, `start` is clamped at 0, `stop` at the last index,
   * and an empty range selects nothing.
   */
  function Slice(l: seq<string>, start: int, stop: int): (r: seq<string>)
    ensures |r| <= |l|
  {
    var n := |l|;
    var s := if start < 0 then Max(0, n + start) else start;
    var e := if stop < 0 then n + stop else Min(stop, n - 1);
    if s > e || s >= n then [] else l[s..e + 1]
  }

  /** `LRANGE key 0 -1` is the whole list. */
  lemma SliceAll(l: seq<string>)
    ensures Slice(l, 0, -1) == l
  {
  }

  /** `LTRIM key -n -1` keeps the newest `n` elements. */
  lemma SliceLast(l: seq<string>, n: nat)
    requires n >= 1
    ensures Slice(l, -(n as int), -1) == l[|l| - Min(n, |l|)..]
  {
  }

  /** `LTRIM key 0 n-1` keeps the oldest `n` elements. */
  lemma SliceFirst(l: seq<string>, n: nat)
    requires n >= 1
    ensures Slice(l, 0, n - 1) == l[..Min(n, |l|)]
  {
  }

  // ---------------------------------------------------------------------
  // The server
  // ---------------------------------------------------------------------

  /** The part of a Redis server the core uses: list keys and their time to live in seconds. */
  class RedisStore {
    var lists: map<string, seq<string>>
    var ttl: map<string, nat>

    constructor ()
      ensures lists == map[] && ttl == map[]
    {
      lists := map[];
      ttl := map[];
    }

    /** A missing key reads as the empty list. */
    function ListAt(key: string): seq<string>
      reads this
    {
      if key in lists then lists[key] else []
    }

    /** `LRANGE key start stop`. */
    function LRange(key: string, start: int, stop: int): seq<string>
      reads this
    {
      Slice(ListAt(key), start, stop)
    }

    /** `RPUSH key v` appends, creating the list when needed. */
    method RPush(key: string, v: string)
      modifies this
      ensures lists == old(lists)[key := old(ListAt(key)) + [v]]
      ensures ttl == old(ttl)
    {
      lists := lists[key := ListAt(key) + [v]];
    }

    /** `LPUSH key v` prepends, creating the list when needed. */
    method LPush(key: string, v: string)
      modifies this
      ensures lists == old(lists)[key := [v] + old(ListAt(key))]
      ensures ttl == old(ttl)
    {
      lists := lists[key := [v] + ListAt(key)];
    }

    /** `LTRIM key start stop` keeps the selected range; a list trimmed to nothing is deleted with its expiry. */
    method LTrim(key: string, start: int, stop: int)
      modifies this
      ensures Slice(old(ListAt(key)), start, stop) == [] ==>
        lists == old(lists) - {key} && ttl == old(ttl) - {key}
      ensures Slice(old(ListAt(key)), start, stop) != [] ==>
        lists == old(lists)[key := Slice(old(ListAt(key)), start, stop)] && ttl == old(ttl)
    {
      var kept := Slice(ListAt(key), start, stop);
      if kept == [] {
        lists := lists - {key};
        ttl := ttl - {key};
      } else {
        lists := lists[key := kept];
      }
    }

    /** `EXPIRE key seconds` on an existing key; on a missing key it does nothing. */
    method Expire(key: string, seconds: nat)
      modifies this
      ensures lists == old(lists)
      ensures key in old(lists) ==> ttl == old(ttl)[key := seconds]
      ensures key !in old(lists) ==> ttl == old(ttl)
    {
      if key in lists {
        ttl := ttl[key := seconds];
      }
    }
  }

  // ---------------------------------------------------------------------
  // The chat buffer
  // ---------------------------------------------------------------------

  const ChatPrefix := "chat_history:"
  const FactKey := "daily_facts_topics"
  const HistoryLimit: nat := 20
  const HistoryTtl: nat := 3600
  const MaxCharLength: nat := 800
  const TruncationMarker := "...(truncated)"
  const FactLimit: nat := 50
  const NoTopics := "Chưa có chủ đề nào"

  function ChatKey(userId: string): string { ChatPrefix + userId }

  predicate IsChatKey(key: string) {
    |ChatPrefix| <= |key| && key[..|ChatPrefix|] == ChatPrefix
  }

  /** Each user has a buffer of their own, and no buffer is the topic list. */
  lemma ChatKeysDistinct(u: string, v: string)
    ensures ChatKey(u) == ChatKey(v) <==> u == v
    ensures IsChatKey(ChatKey(u)) && !IsChatKey(FactKey)
  {
    if ChatKey(u) == ChatKey(v) {
      assert u == ChatKey(u)[|ChatPrefix|..];
      assert v == ChatKey(v)[|ChatPrefix|..];
    }
    assert ChatKey(u)[..|ChatPrefix|] == ChatPrefix;
    assert FactKey[0] != ChatPrefix[0];
  }

  datatype Role = UserRole | ModelRole

  function RoleName(role: Role): string {
    match role
    case UserRole => "user"
    case ModelRole => "model"
  }

  /** The content actually stored: more than 800 characters are cut to 800 and marked `...(truncated)`. */
  function SafeContent(content: string): (r: string)
    ensures |r| <= MaxCharLength + |TruncationMarker|
    ensures |content| <= MaxCharLength ==> r == content
    ensures |content| > MaxCharLength ==>
      |r| == MaxCharLength + |TruncationMarker| && r[..MaxCharLength] == content[..MaxCharLength]
        && r[MaxCharLength..] == TruncationMarker
  {
    if |content| > MaxCharLength then content[..MaxCharLength] + TruncationMarker else content
  }

  /** Truncating a stored content again changes nothing. */
  lemma SafeContentIdempotent(content: string)
    ensures SafeContent(SafeContent(content)) == SafeContent(content)
  {
    if |content| > MaxCharLength {
      var r := SafeContent(content);
      assert r[..MaxCharLength] == content[..MaxCharLength];
    }
  }

  /** The buffer after `RPUSH` of one entry and `LTRIM key -20 -1`. */
  function PushBounded(l: seq<string>, entry: string): seq<string> {
    Slice(l + [entry], -(HistoryLimit as int), -1)
  }

  /**
   * The buffer keeps the 20 newest entries: the new one last, the older ones
   * in order, the oldest dropped only once 20 are stored.
   */
  lemma PushBoundedKeepsNewest(l: seq<string>, entry: string)
    ensures 1 <= |PushBounded(l, entry)| <= HistoryLimit
    ensures |l| < HistoryLimit ==> PushBounded(l, entry) == l + [entry]
    ensures |l| >= HistoryLimit ==> PushBounded(l, entry) == l[|l| - (HistoryLimit - 1)..] + [entry]
  {
    SliceLast(l + [entry], HistoryLimit);
    if |l| >= HistoryLimit {
      assert (l + [entry])[|l| + 1 - HistoryLimit..] == l[|l| - (HistoryLimit - 1)..] + [entry];
    } else {
      assert (l + [entry])[0..] == l + [entry];
    }
  }

  lemma SliceElements(l: seq<string>, start: int, stop: int)
    ensures forall x :: x in Slice(l, start, stop) ==> x in l
  {
  }

  /** The turns of every entry of a list, or None once one of them is not in the layout `EncodeTurn` writes. */
  function DecodeAll(items: seq<string>): (r: Option<seq<Turn>>)
    ensures r.Some? ==> |r.value| == |items|
  {
    if items == [] then Some([])
    else
      match (DecodeTurn(items[0]), DecodeAll(items[1..]))
      case (Some(t), Some(ts)) => Some([t] + ts)
      case _ => None
  }

  /** A list decodes exactly when each of its entries does. */
  lemma {:induction false} DecodeAllIff(items: seq<string>)
    ensures DecodeAll(items).Some? <==> forall i :: 0 <= i < |items| ==> DecodeTurn(items[i]).Some?
  {
    if items != [] {
      DecodeAllIff(items[1..]);
      assert forall i :: 1 <= i < |items| ==> items[i] == items[1..][i - 1];
    }
  }

  /** Every entry of a list is in the layout `EncodeTurn` writes. */
  predicate AllDecode(items: seq<string>) {
    forall i :: 0 <= i < |items| ==> DecodeTurn(items[i]).Some?
  }

  /** Every chat buffer among the keys holds only readable turns. */
  predicate ChatBuffersDecode(lists: map<string, seq<string>>) {
    forall key | key in lists && IsChatKey(key) :: AllDecode(lists[key])
  }

  /** Writing a readable buffer, or writing any list under a key that is no chat key, keeps every chat buffer readable. */
  lemma ChatBuffersUpdate(lists: map<string, seq<string>>, key: string, l: seq<string>)
    requires ChatBuffersDecode(lists)
    requires IsChatKey(key) ==> AllDecode(l)
    ensures ChatBuffersDecode(lists[key := l])
  {
  }

  /** The buffer stays readable when a readable entry is pushed. */
  lemma PushBoundedDecodes(l: seq<string>, entry: string)
    requires AllDecode(l) && DecodeTurn(entry).Some?
    ensures AllDecode(PushBounded(l, entry))
  {
    var r := PushBounded(l, entry);
    SliceElements(l + [entry], -(HistoryLimit as int), -1);
    forall i | 0 <= i < |r| ensures DecodeTurn(r[i]).Some? {
      assert r[i] in l + [entry];
      if r[i] != entry {
        var j :| 0 <= j < |l| && l[j] == r[i];
      }
    }
  }

  function Encoded(ts: seq<Turn>): seq<string> {
    seq(|ts|, i requires 0 <= i < |ts| => EncodeTurn(ts[i]))
  }

  /** A list of stored turns decodes back to those turns. */
  lemma {:induction false} DecodeAllEncoded(ts: seq<Turn>)
    ensures DecodeAll(Encoded(ts)) == Some(ts)
  {
    if ts != [] {
      DecodeAllEncoded(ts[1..]);
      assert Encoded(ts)[1..] == Encoded(ts[1..]);
      DecodeEncode(ts[0]);
      assert [ts[0]] + ts[1..] == ts;
    }
  }

  /** One line of the rendered history: `User: …` for the user's turns, `Bot: …` for every other role. */
  function Line(t: Turn): string {
    (if t.role == "user" then "User" else "Bot") + ": " + t.content
  }

  function Lines(ts: seq<Turn>): seq<string> {
    seq(|ts|, i requires 0 <= i < |ts| => Line(ts[i]))
  }

  /** `getRecentHistory`'s text for a stored list, or None for a list holding an entry not in the layout `EncodeTurn` writes. */
  function RenderHistory(items: seq<string>): Option<string> {
    match DecodeAll(items)
    case None => None
    case Some(ts) => Some(Join(Lines(ts), "\n"))
  }

  /** A buffer written by `addMessage` renders as its turns' lines, one per line. */
  lemma RenderEncoded(ts: seq<Turn>)
    ensures RenderHistory(Encoded(ts)) == Some(Join(Lines(ts), "\n"))
  {
    DecodeAllEncoded(ts);
  }

  /** Every element of a list shows up in its join. */
  lemma {:induction false} JoinContains(parts: seq<string>, sep: string, i: nat)
    requires i < |parts|
    ensures Contains(Join(parts, sep), parts[i])
  {
    if |parts| == 1 {
      ContainsInfix([], parts[0], []);
      assert [] + parts[0] + [] == parts[0];
    } else if i == 0 {
      ContainsInfix([], parts[0], sep + Join(parts[1..], sep));
      assert [] + parts[0] + (sep + Join(parts[1..], sep)) == Join(parts, sep);
    } else {
      JoinContains(parts[1..], sep, i - 1);
      assert parts[1..][i - 1] == parts[i];
      ContainsAfter(parts[0] + sep, Join(parts[1..], sep), parts[i]);
    }
  }

  /** `getFactHistory`'s text for the stored topics. */
  function FactHistoryText(topics: seq<string>): (r: string)
    ensures topics == [] ==> r == NoTopics
    ensures forall i :: 0 <= i < |topics| ==> Contains(r, topics[i])
  {
    if |topics| > 0 then
      var r := Join(topics, ", ");
      assert forall i :: 0 <= i < |topics| ==> Contains(r, topics[i]) by {
        forall i | 0 <= i < |topics| ensures Contains(r, topics[i]) {
          JoinContains(topics, ", ", i);
        }
      }
      r
    else NoTopics
  }

  /** The topic list after `LPUSH` of a topic and `LTRIM key 0 49`. */
  function PushTopic(topics: seq<string>, topic: string): seq<string> {
    Slice([topic] + topics, 0, FactLimit - 1)
  }

  /** The topic list keeps the 50 newest topics, newest first. */
  lemma PushTopicKeepsNewest(topics: seq<string>, topic: string)
    ensures 1 <= |PushTopic(topics, topic)| <= FactLimit
    ensures PushTopic(topics, topic)[0] == topic
    ensures PushTopic(topics, topic)[1..] == topics[..Min(FactLimit - 1, |topics|)]
  {
    SliceFirst([topic] + topics, FactLimit);
    assert ([topic] + topics)[..Min(FactLimit, |topics| + 1)][1..] == topics[..Min(FactLimit - 1, |topics|)];
  }

  // ---------------------------------------------------------------------
  // The service
  // ---------------------------------------------------------------------

  class RedisService {
    const store: RedisStore

    constructor (store: RedisStore)
      ensures this.store == store
    {
      this.store := store;
    }

    /** Every entry of every chat buffer is in the layout `EncodeTurn` writes. */
    predicate Valid()
      reads this, store
    {
      ChatBuffersDecode(store.lists)
    }

    /**
     * `addMessage`: the truncated turn is appended to the user's buffer, the
     * buffer cut to its 20 newest entries and its expiry set to an hour.
     */
    method AddMessage(userId: string, role: Role, content: string)
      requires Valid()
      modifies store
      ensures Valid()
      ensures store.lists == old(store.lists)[ChatKey(userId) :=
        PushBounded(old(store.ListAt(ChatKey(userId))), EncodeTurn(Turn(RoleName(role), SafeContent(content))))]
      ensures store.ttl == old(store.ttl)[ChatKey(userId) := HistoryTtl]
    {
      var key := ChatKey(userId);
      var msg := EncodeTurn(Turn(RoleName(role), SafeContent(content)));
      ghost var before := store.ListAt(key);
      store.RPush(key, msg);
      PushBoundedKeepsNewest(before, msg);
      store.LTrim(key, -(HistoryLimit as int), -1);
      store.Expire(key, HistoryTtl);
      DecodeEncode(Turn(RoleName(role), SafeContent(content)));
      assert AllDecode(before);
      PushBoundedDecodes(before, msg);
      ChatBuffersUpdate(old(store.lists), key, PushBounded(before, msg));
    }

    /** `getRecentHistory`: the user's buffer, one `User: …`/`Bot: …` line per turn; None for an entry not in the layout `EncodeTurn` writes. */
    method GetRecentHistory(userId: string) returns (r: Option<string>)
      requires Valid()
      ensures r == RenderHistory(store.ListAt(ChatKey(userId)))
      ensures r.Some?
    {
      var raw := store.LRange(ChatKey(userId), 0, -1);
      SliceAll(store.ListAt(ChatKey(userId)));
      assert AllDecode(raw);
      DecodeAllIff(raw);
      r := RenderHistory(raw);
    }

    /** `addFactTopic`: the topic goes first in the topic list, which keeps its 50 newest. */
    method AddFactTopic(topic: string)
      requires Valid()
      modifies store
      ensures Valid()
      ensures store.lists == old(store.lists)[FactKey := PushTopic(old(store.ListAt(FactKey)), topic)]
      ensures store.ttl == old(store.ttl)
    {
      ghost var before := store.ListAt(FactKey);
      store.LPush(FactKey, topic);
      PushTopicKeepsNewest(before, topic);
      store.LTrim(FactKey, 0, FactLimit - 1);
      ChatKeysDistinct("", "");
      ChatBuffersUpdate(old(store.lists), FactKey, PushTopic(before, topic));
    }

    /** `getFactHistory`: the stored topics joined with `, `, or a fixed notice when there are none. */
    method GetFactHistory() returns (r: string)
      ensures r == FactHistoryText(store.ListAt(FactKey))
    {
      var raw := store.LRange(FactKey, 0, -1);
      SliceAll(store.ListAt(FactKey));
      r := if |raw| > 0 then Join(raw, ", ") else NoTopics;
    }
  }
}

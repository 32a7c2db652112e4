/**
 * `DailyFactService`: the configured channel list, one fact a day from the
 * fact model with the topics already used kept out of it, and its delivery:
 * the topic is recorded first, then the content goes to every channel in
 * list order.
 */
module DailyFact {
  import opened Wrappers
  import opened Text
  import opened Tags
  import opened Content
  import opened Prompts
  import opened Redis
  import opened Seqs

  // ---------------------------------------------------------------------
  // The channel list
  // ---------------------------------------------------------------------

  /** `.map((id) => id.trim()).filter((id) => id.length > 0)`. */
  function Cleaned(parts: seq<string>): seq<string> {
    if parts == [] then [] else Keep(parts[0]) + Cleaned(parts[1..])
  }

  /** One part: its trimmed form, or nothing when that is empty. */
  function Keep(part: string): seq<string> {
    if Trim(part) != [] then [Trim(part)] else []
  }

  /** `DAILY_FACT_CHANNELS` split at commas, each part trimmed, empty parts dropped (an unset variable is `''`). */
  function ParseChannels(setting: string): seq<string> {
    Cleaned(Split(setting, ','))
  }

  lemma KeepMember(part: string, x: string)
    ensures x in Keep(part) <==> x != [] && Trim(part) == x
  {
  }

  /** Some part of the list trims to `x` exactly when the first does or some later one does. */
  lemma TrimsToCons(parts: seq<string>, x: string)
    requires parts != []
    ensures (exists i :: 0 <= i < |parts| && Trim(parts[i]) == x) <==>
      Trim(parts[0]) == x || exists i :: 0 <= i < |parts[1..]| && Trim(parts[1..][i]) == x
  {
    if exists i :: 0 <= i < |parts| && Trim(parts[i]) == x {
      var i :| 0 <= i < |parts| && Trim(parts[i]) == x;
      if i > 0 { assert parts[1..][i - 1] == parts[i]; }
    }
    if exists i :: 0 <= i < |parts[1..]| && Trim(parts[1..][i]) == x {
      var i :| 0 <= i < |parts[1..]| && Trim(parts[1..][i]) == x;
      assert parts[i + 1] == parts[1..][i];
    }
  }

  /** A channel is listed exactly when it is the non-empty trimmed form of some part. */
  lemma {:induction false} CleanedMembers(parts: seq<string>, x: string)
    ensures x in Cleaned(parts) <==> x != [] && exists i :: 0 <= i < |parts| && Trim(parts[i]) == x
  {
    if parts != [] {
      CleanedMembers(parts[1..], x);
      KeepMember(parts[0], x);
      TrimsToCons(parts, x);
    }
  }

  /** What the parsed list holds: non-empty, trimmed, comma-free IDs. */
  predicate IsChannelId(id: string) {
    id != [] && IsTrimmed(id) && ',' !in id
  }

  /** Trimming keeps a comma-free part comma-free. */
  lemma TrimNoComma(part: string)
    requires ',' !in part
    ensures ',' !in Trim(part)
  {
    var k := TrimIsMiddle(part);
    forall c | c in Trim(part) ensures c in part {
      var m :| 0 <= m < |Trim(part)| && Trim(part)[m] == c;
      assert part[k + m] == c;
    }
  }

  lemma {:induction false} CleanedShape(parts: seq<string>)
    requires forall i :: 0 <= i < |parts| ==> ',' !in parts[i]
    ensures forall j :: 0 <= j < |Cleaned(parts)| ==> IsChannelId(Cleaned(parts)[j])
  {
    if parts != [] {
      assert forall i :: 0 <= i < |parts[1..]| ==> ',' !in parts[1..][i] by {
        forall i | 0 <= i < |parts[1..]| ensures parts[1..][i] == parts[i + 1] {}
      }
      CleanedShape(parts[1..]);
      TrimNoComma(parts[0]);
    }
  }

  /** Every parsed entry is a non-empty, trimmed ID without commas. */
  lemma ChannelsShape(setting: string)
    ensures forall j :: 0 <= j < |ParseChannels(setting)| ==> IsChannelId(ParseChannels(setting)[j])
  {
    SplitPartsFree(setting, ',');
    CleanedShape(Split(setting, ','));
  }

  /** A clean ID is kept as it is. */
  lemma KeepClean(id: string)
    requires IsChannelId(id)
    ensures Keep(id) == [id]
  {
    TrimOfTrimmed(id);
  }

  lemma ChannelIdsTail(ids: seq<string>)
    requires ids != [] && forall i :: 0 <= i < |ids| ==> IsChannelId(ids[i])
    ensures forall i :: 0 <= i < |ids[1..]| ==> IsChannelId(ids[1..][i])
  {
    forall i | 0 <= i < |ids[1..]| ensures ids[1..][i] == ids[i + 1] {}
  }

  /** Entries that are already clean pass through unchanged. */
  lemma {:induction false} CleanedOfClean(ids: seq<string>)
    requires forall i :: 0 <= i < |ids| ==> IsChannelId(ids[i])
    ensures Cleaned(ids) == ids
  {
    if ids != [] {
      KeepClean(ids[0]);
      ChannelIdsTail(ids);
      CleanedOfClean(ids[1..]);
      HeadTail(ids);
    }
  }

  /** Writing a list of IDs with commas between them and parsing it back gives the list. */
  lemma ChannelsRoundTrip(ids: seq<string>)
    requires forall i :: 0 <= i < |ids| ==> IsChannelId(ids[i])
    ensures ParseChannels(Join(ids, ",")) == ids
  {
    if ids == [] {
      SplitNoSep("", ',');
      assert Cleaned([""]) == [] + Cleaned([]);
    } else {
      assert forall i :: 0 <= i < |ids| ==> ',' !in ids[i] by {
        forall i | 0 <= i < |ids| ensures ',' !in ids[i] { assert IsChannelId(ids[i]); }
      }
      SplitJoin(ids, ',');
      CleanedOfClean(ids);
    }
  }

  lemma KeepPadded(a: string)
    requires IsChannelId(a)
    ensures Keep(" " + a + " ") == [a]
  {
    TrimPadded(" ", a, " ");
    TrimOfTrimmed(a);
  }

  lemma KeepBlank()
    ensures Keep(" ") == []
  {
    TrimEmptyIff(" ");
  }

  /** Cleaning a list with one part in front cleans that part and then the rest. */
  lemma CleanedCons(part: string, rest: seq<string>)
    ensures Cleaned([part] + rest) == Keep(part) + Cleaned(rest)
  {
    assert ([part] + rest)[1..] == rest;
  }

  /** A blank part contributes nothing, and spaces around an ID are dropped. */
  lemma CleanedSkips(a: string, rest: seq<string>)
    requires IsChannelId(a)
    ensures Cleaned([" " + a + " "] + ([" "] + rest)) == [a] + Cleaned(rest)
  {
    KeepPadded(a);
    KeepBlank();
    CleanedCons(" ", rest);
    CleanedCons(" " + a + " ", [" "] + rest);
    assert [] + Cleaned(rest) == Cleaned(rest);
  }

  lemma SampleLayout(a: string, b: string)
    ensures " " + a + " , ," + b == (" " + a + " ") + [','] + (" " + [','] + b)
  {
  }

  lemma SplitSample(a: string, b: string)
    requires ',' !in a && ',' !in b
    ensures Split(" " + a + " , ," + b, ',') == [" " + a + " "] + ([" "] + [b])
  {
    SampleLayout(a, b);
    assert ',' !in " " + a + " ";
    SplitPrefix(" " + a + " ", " " + [','] + b, ',');
    SplitPrefix(" ", b, ',');
    SplitNoSep(b, ',');
  }

  /** `" a , ,b"` lists `a` and `b`: spaces around an ID and empty entries are dropped. */
  lemma ChannelsSkipBlanks(a: string, b: string)
    requires IsChannelId(a) && IsChannelId(b)
    ensures ParseChannels(" " + a + " , ," + b) == [a, b]
  {
    SplitSample(a, b);
    CleanedSkips(a, [b]);
    KeepClean(b);
    CleanedCons(b, []);
    assert [b] + [] == [b];
  }

  // ---------------------------------------------------------------------
  // generateUniqueFact
  // ---------------------------------------------------------------------

  /**
   * The fact for a topic history: None when the model call throws or either
   * tag is missing, otherwise both trimmed tag texts.
   */
  function FactFor(factModel: Model, pastTopics: string): (r: Option<Fact>)
    ensures factModel(DailyPrompt(pastTopics)).Failed? ==> r.None?
    ensures factModel(DailyPrompt(pastTopics)).Generated? ==>
      var raw := ParseContent(factModel(DailyPrompt(pastTopics)).content);
      && (r.None? <==> ExtractTag(raw, "topic").None? || ExtractTag(raw, "content").None?)
      && (r.Some? ==> r.value == Fact(Trim(ExtractTag(raw, "topic").value), Trim(ExtractTag(raw, "content").value)))
  {
    match factModel(DailyPrompt(pastTopics))
    case Failed(_) => None
    case Generated(c) => ParseFactTags(ParseContent(c))
  }

  /** Text found in the bracketed part is found in the whole. */
  lemma ContainsBracketed(a: string, p: string, b: string, x: string)
    requires Contains(p, x)
    ensures Contains(a + "[ " + p + " ]" + b, x)
  {
    ContainsIff(p, x);
    var k :| OccursAt(p, x, k);
    var w := a + "[ " + p + " ]" + b;
    var at := |a| + 2 + k;
    assert w[at..at + |x|] == p[k..k + |x|];
    assert OccursAt(w, x, at);
    ContainsIff(w, x);
  }

  /** The prompt asks the model to avoid the listed topics: every stored topic is inside the brackets. */
  lemma PastTopicsInPrompt(topics: seq<string>, i: nat)
    requires i < |topics|
    ensures Contains(DailyPrompt(FactHistoryText(topics)), topics[i])
  {
    ContainsBracketed(DailyIntro, FactHistoryText(topics), DailyOutro, topics[i]);
  }

  // ---------------------------------------------------------------------
  // The service
  // ---------------------------------------------------------------------

  /** What the service does that the outside world sees, in order. */
  datatype Event = TopicRecorded(topic: string) | Broadcast(channelId: string, content: string)

  /** One send of `content` per channel, in list order. */
  function Broadcasts(channels: seq<string>, content: string): (r: seq<Event>)
    ensures |r| == |channels|
    ensures forall i :: 0 <= i < |channels| ==> r[i] == Broadcast(channels[i], content)
  {
    seq(|channels|, i requires 0 <= i < |channels| => Broadcast(channels[i], content))
  }

  /** Each channel gets exactly as many sends as it has entries in the list. */
  lemma {:induction false} BroadcastsCount(channels: seq<string>, content: string, c: string)
    ensures multiset(Broadcasts(channels, content))[Broadcast(c, content)] == multiset(channels)[c]
  {
    if channels != [] {
      var n := |channels| - 1;
      BroadcastsCount(channels[..n], content, c);
      assert channels == channels[..n] + [channels[n]];
      assert Broadcasts(channels, content) == Broadcasts(channels[..n], content) + [Broadcast(channels[n], content)];
    }
  }

  class DailyFactService {
    const targetChannels: seq<string>
    const redis: RedisService
    const factModel: Model
    /** The topic recordings and channel sends so far. */
    var events: seq<Event>

    constructor (channelsSetting: string, redis: RedisService, factModel: Model)
      ensures targetChannels == ParseChannels(channelsSetting)
      ensures this.redis == redis && this.factModel == factModel && events == []
    {
      targetChannels := ParseChannels(channelsSetting);
      this.redis := redis;
      this.factModel := factModel;
      events := [];
    }

    /** `generateUniqueFact`: the fact for the stored topic history. */
    method GenerateUniqueFact() returns (r: Option<Fact>)
      ensures r == FactFor(factModel, FactHistoryText(redis.store.ListAt(FactKey)))
    {
      var pastTopics := redis.GetFactHistory();
      var prompt := DailyPrompt(pastTopics);
      match factModel(prompt)
      case Failed(_) =>
        r := None;
      case Generated(c) =>
        var rawText := ParseContent(c);
        r := ParseFactTags(rawText);
    }

    /**
     * `handleDailyFact`: without channels nothing happens; without a fact
     * nothing is recorded or sent; otherwise the topic is recorded and then
     * the content is sent to each channel in turn.
     */
    method HandleDailyFact()
      requires redis.Valid()
      modifies this, redis.store
      ensures redis.Valid()
      ensures var fact := FactFor(factModel, FactHistoryText(old(redis.store.ListAt(FactKey))));
        if targetChannels == [] || fact.None? then
          events == old(events) && redis.store.lists == old(redis.store.lists)
        else
          && events == old(events) + [TopicRecorded(fact.value.topic)] + Broadcasts(targetChannels, fact.value.content)
          && redis.store.lists == old(redis.store.lists)[FactKey := PushTopic(old(redis.store.ListAt(FactKey)), fact.value.topic)]
      ensures redis.store.ttl == old(redis.store.ttl)
    {
      if |targetChannels| == 0 {
        return;
      }
      var factData := GenerateUniqueFact();
      if factData.None? {
        return;
      }
      redis.AddFactTopic(factData.value.topic);
      events := events + [TopicRecorded(factData.value.topic)];
      SendToAll(factData.value.content);
    }

    /** The content goes to each channel in turn, in list order. */
    method SendToAll(content: string)
      modifies this`events
      ensures events == old(events) + Broadcasts(targetChannels, content)
    {
      ghost var before := events;
      for i := 0 to |targetChannels|
        invariant events == before + Broadcasts(targetChannels[..i], content)
      {
        events := events + [Broadcast(targetChannels[i], content)];
        assert targetChannels[..i + 1] == targetChannels[..i] + [targetChannels[i]];
      }
      assert targetChannels[..|targetChannels|] == targetChannels;
    }
  }
}

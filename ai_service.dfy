/**
 * The tiered memory engine of `AiService`: three vector-store collections
 * (user profiles and personas, long-term memories, server knowledge), the
 * Redis chat buffer, and the two chat models. Each store update is given as
 * a transition function on the collection's documents; the class methods
 * perform it with the store's own operations and are proved to end in it.
 */
module Ai {
  import opened Wrappers
  import opened Text
  import opened Tags
  import opened Content
  import opened VectorStore
  import opened Prompts
  import opened TurnCodec
  import opened Redis
  import opened Seqs

  // ---------------------------------------------------------------------
  // Constants
  // ---------------------------------------------------------------------

  const DefaultPersona := "Mặc định (Thân thiện)"
  const SummaryPrefix := "[SUMMARY OF PAST CONVERSATIONS]: "
  const UpdatedNotice := "✅ Database Updated!"
  const ForumFallback := "Chủ đề này làm tui lú quá bro... 🤐"
  const DefaultServerQuery := "info"
  /** A user's memories are compacted once a read of at most `SummaryReadLimit` of them returns this many. */
  const SummaryThreshold: nat := 50
  const SummaryReadLimit: nat := 100
  const ServerDocsK: nat := 3
  const HistoryDocsK: nat := 5

  // ---------------------------------------------------------------------
  // Records and filters
  // ---------------------------------------------------------------------

  /** `{ userId }`. */
  function ByUser(userId: string): Filter { Eq("userId", MStr(userId)) }

  /** `{ $and: [{ userId }, { type: 'user_persona' }] }`. */
  function PersonaFilter(userId: string): Filter {
    And([ByUser(userId), Eq("type", MStr("user_persona"))])
  }

  /** `{ guildId }`. */
  function ByGuild(guildId: string): Filter { Eq("guildId", MStr(guildId)) }

  /** The records the service writes, without their timestamps. */
  function ProfileDoc(userId: string, content: string): Doc {
    Doc(content, map["userId" := MStr(userId), "type" := MStr("user_profile")])
  }

  function PersonaDoc(userId: string, content: string): Doc {
    Doc(content, map["userId" := MStr(userId), "type" := MStr("user_persona")])
  }

  function ServerDoc(guildId: string, content: string): Doc {
    Doc(content, map["guildId" := MStr(guildId), "type" := MStr("server_knowledge_base")])
  }

  function MemoryDoc(userId: string, content: string): Doc {
    Doc(content, map["userId" := MStr(userId)])
  }

  function SummaryDoc(userId: string, summary: string): Doc {
    Doc(SummaryPrefix + summary, map["userId" := MStr(userId), "isSummary" := MBool(true)])
  }

  function Contents(ds: seq<Doc>): seq<string> {
    seq(|ds|, i requires 0 <= i < |ds| => ds[i].content)
  }

  lemma MatchingOne(d: Doc, f: Filter)
    ensures Matching([d], f) == if Matches(d, f) then [d] else []
  {
  }

  /** A persona record is a record of its user. */
  lemma PersonaIsUsers(u: string)
    ensures forall d :: Matches(d, PersonaFilter(u)) ==> Matches(d, ByUser(u))
  {
    forall d | Matches(d, PersonaFilter(u)) ensures Matches(d, ByUser(u)) {
      assert Matches(d, PersonaFilter(u).clauses[0]);
    }
  }

  /** No record belongs to two users. */
  lemma UsersDisjoint(u: string, v: string)
    requires u != v
    ensures forall d :: !(Matches(d, ByUser(v)) && Matches(d, ByUser(u)))
    ensures forall d :: !(Matches(d, PersonaFilter(v)) && Matches(d, ByUser(u)))
    ensures forall d :: !(Matches(d, PersonaFilter(v)) && Matches(d, PersonaFilter(u)))
  {
    PersonaIsUsers(u);
    PersonaIsUsers(v);
  }

  // ---------------------------------------------------------------------
  // At most one persona per user
  // ---------------------------------------------------------------------

  ghost predicate AtMostOnePersona(docs: seq<Doc>) {
    forall u :: |Matching(docs, PersonaFilter(u))| <= 1
  }

  /** Appending a record that is no persona keeps every user's personas. */
  lemma AppendNoPersona(docs: seq<Doc>, d: Doc)
    requires !Matches(d, Eq("type", MStr("user_persona")))
    ensures forall u :: Matching(docs + [d], PersonaFilter(u)) == Matching(docs, PersonaFilter(u))
  {
    forall u ensures Matching(docs + [d], PersonaFilter(u)) == Matching(docs, PersonaFilter(u)) {
      MatchingAppend(docs, [d], PersonaFilter(u));
      MatchingOne(d, PersonaFilter(u));
      assert !Matches(d, PersonaFilter(u)) by {
        assert !Matches(d, PersonaFilter(u).clauses[1]);
      }
    }
  }

  /** Deleting by any filter keeps at most one persona per user. */
  lemma WithoutKeepsOnePersona(docs: seq<Doc>, f: Filter)
    requires AtMostOnePersona(docs)
    ensures AtMostOnePersona(Without(docs, f))
  {
    forall u ensures |Matching(Without(docs, f), PersonaFilter(u))| <= 1 {
      WithoutShrinks(docs, f, PersonaFilter(u));
    }
  }

  // ---------------------------------------------------------------------
  // syncUserProfile
  // ---------------------------------------------------------------------

  datatype Synced = Synced(docs: seq<Doc>, profile: string)

  /**
   * The profile collection and the returned profile after `syncUserProfile`,
   * given what the lookup `similaritySearch('lookup', 1, { userId })` found.
   */
  function SyncedProfiles(docs: seq<Doc>, userId: string, live: string, found: seq<Doc>): Synced {
    if found == [] then Synced(docs + [ProfileDoc(userId, live)], live)
    else if found[0].content != live then Synced(Without(docs, ByUser(userId)) + [ProfileDoc(userId, live)], live)
    else Synced(docs, found[0].content)
  }

  /** Whichever branch runs, the profile handed on to the prompt is the live one. */
  lemma SyncReturnsLive(docs: seq<Doc>, userId: string, live: string, found: seq<Doc>)
    ensures SyncedProfiles(docs, userId, live, found).profile == live
  {
  }

  /** A user without records gets exactly one record, the live profile. */
  lemma SyncNewUser(docs: seq<Doc>, userId: string, live: string, found: seq<Doc>)
    requires IsSearchResult(docs, ByUser(userId), 1, found)
    requires Matching(docs, ByUser(userId)) == []
    ensures SyncedProfiles(docs, userId, live, found).docs == docs + [ProfileDoc(userId, live)]
    ensures Matching(SyncedProfiles(docs, userId, live, found).docs, ByUser(userId)) == [ProfileDoc(userId, live)]
  {
    MatchingAppend(docs, [ProfileDoc(userId, live)], ByUser(userId));
    MatchingOne(ProfileDoc(userId, live), ByUser(userId));
  }

  /** When the record found holds the live profile, nothing is written. */
  lemma SyncUnchanged(docs: seq<Doc>, userId: string, live: string, found: seq<Doc>)
    requires found != [] && found[0].content == live
    ensures SyncedProfiles(docs, userId, live, found) == Synced(docs, live)
  {
  }

  /**
   * When the record found differs, every record of the user goes, personas
   * included, and the live profile is the user's only record; other users
   * keep theirs.
   */
  lemma SyncChanged(docs: seq<Doc>, userId: string, live: string, found: seq<Doc>, other: string)
    requires found != [] && found[0].content != live
    ensures var after := SyncedProfiles(docs, userId, live, found).docs;
      && Matching(after, ByUser(userId)) == [ProfileDoc(userId, live)]
      && Matching(after, PersonaFilter(userId)) == []
      && (other != userId ==> Matching(after, ByUser(other)) == Matching(docs, ByUser(other)))
  {
    var kept := Without(docs, ByUser(userId));
    var p := ProfileDoc(userId, live);
    MatchingAppend(kept, [p], ByUser(userId));
    MatchingOne(p, ByUser(userId));
    WithoutRemoves(docs, ByUser(userId), ByUser(userId));
    MatchingAppend(kept, [p], PersonaFilter(userId));
    MatchingOne(p, PersonaFilter(userId));
    assert !Matches(p, PersonaFilter(userId)) by {
      assert !Matches(p, PersonaFilter(userId).clauses[1]);
    }
    PersonaIsUsers(userId);
    WithoutRemoves(docs, ByUser(userId), PersonaFilter(userId));
    if other != userId {
      UsersDisjoint(userId, other);
      WithoutKeeps(docs, ByUser(userId), ByUser(other));
      MatchingAppend(kept, [p], ByUser(other));
      MatchingOne(p, ByUser(other));
    }
  }

  /**
   * The lookup filters on `userId` alone, so it can return the user's persona:
   * a persona record alone in the store is found, and when its text differs
   * from the live profile the sync deletes it.
   */
  lemma SyncMayReadPersona(userId: string, persona: string, live: string)
    requires persona != live
    ensures IsSearchResult([PersonaDoc(userId, persona)], ByUser(userId), 1, [PersonaDoc(userId, persona)])
    ensures SyncedProfiles([PersonaDoc(userId, persona)], userId, live, [PersonaDoc(userId, persona)]).docs
      == [ProfileDoc(userId, live)]
  {
    var d := PersonaDoc(userId, persona);
    MatchingOne(d, ByUser(userId));
    MatchingOne(d, ByUser(userId));
    assert Without([d], ByUser(userId)) == [] + Without([], ByUser(userId));
  }

  /** The sync keeps at most one persona per user. */
  lemma SyncKeepsOnePersona(docs: seq<Doc>, userId: string, live: string, found: seq<Doc>)
    requires AtMostOnePersona(docs)
    ensures AtMostOnePersona(SyncedProfiles(docs, userId, live, found).docs)
  {
    var p := ProfileDoc(userId, live);
    if found == [] {
      AppendNoPersona(docs, p);
    } else if found[0].content != live {
      WithoutKeepsOnePersona(docs, ByUser(userId));
      AppendNoPersona(Without(docs, ByUser(userId)), p);
    }
  }

  // ---------------------------------------------------------------------
  // analyzeAndSetPersona, getPersona
  // ---------------------------------------------------------------------

  /** The profile collection after the persona of `userId` is replaced. */
  function PersonaSet(docs: seq<Doc>, userId: string, persona: string): seq<Doc> {
    Without(docs, PersonaFilter(userId)) + [PersonaDoc(userId, persona)]
  }

  /**
   * After a persona write the user has exactly that one persona, every other
   * record (their profile included) is still there, and other users'
   * personas are untouched.
   */
  lemma PersonaSetReplaces(docs: seq<Doc>, userId: string, persona: string, other: string)
    ensures Matching(PersonaSet(docs, userId, persona), PersonaFilter(userId)) == [PersonaDoc(userId, persona)]
    ensures forall d :: d in docs && !Matches(d, PersonaFilter(userId)) ==> d in PersonaSet(docs, userId, persona)
    ensures other != userId ==>
      Matching(PersonaSet(docs, userId, persona), PersonaFilter(other)) == Matching(docs, PersonaFilter(other))
  {
    var kept := Without(docs, PersonaFilter(userId));
    var p := PersonaDoc(userId, persona);
    MatchingAppend(kept, [p], PersonaFilter(userId));
    MatchingOne(p, PersonaFilter(userId));
    WithoutRemoves(docs, PersonaFilter(userId), PersonaFilter(userId));
    forall d | d in docs && !Matches(d, PersonaFilter(userId)) ensures d in PersonaSet(docs, userId, persona) {
      InWithout(docs, PersonaFilter(userId), d);
    }
    if other != userId {
      UsersDisjoint(other, userId);
      WithoutKeeps(docs, PersonaFilter(userId), PersonaFilter(other));
      MatchingAppend(kept, [p], PersonaFilter(other));
      MatchingOne(p, PersonaFilter(other));
    }
  }

  lemma PersonaSetKeepsOnePersona(docs: seq<Doc>, userId: string, persona: string)
    requires AtMostOnePersona(docs)
    ensures AtMostOnePersona(PersonaSet(docs, userId, persona))
  {
    forall u ensures |Matching(PersonaSet(docs, userId, persona), PersonaFilter(u))| <= 1 {
      PersonaSetReplaces(docs, userId, persona, u);
    }
  }

  /** What `getPersona` returns for a collection with at most one persona per user. */
  function StoredPersona(docs: seq<Doc>, userId: string): Option<string> {
    var ps := Matching(docs, PersonaFilter(userId));
    if ps == [] then None else Some(ps[0].content)
  }

  /** Reading a persona straight after writing it gives it back. */
  lemma PersonaReadBack(docs: seq<Doc>, userId: string, persona: string)
    ensures StoredPersona(PersonaSet(docs, userId, persona), userId) == Some(persona)
  {
    PersonaSetReplaces(docs, userId, persona, userId);
  }

  /** `currentPersona ? currentPersona : 'Mặc định (Thân thiện)'`: no persona and the empty persona both fall back. */
  function PersonaContext(persona: Option<string>): (r: string)
    ensures r != []
    ensures persona.Some? && persona.value != [] ==> r == persona.value
    ensures persona.None? || persona.value == [] ==> r == DefaultPersona
  {
    if persona.Some? && persona.value != [] then persona.value else DefaultPersona
  }

  // ---------------------------------------------------------------------
  // refreshServerMemory
  // ---------------------------------------------------------------------

  function ServerRefreshed(docs: seq<Doc>, guildId: string, cleanText: string): seq<Doc> {
    Without(docs, ByGuild(guildId)) + [ServerDoc(guildId, cleanText)]
  }

  /** After a refresh the guild has exactly the one new record and other guilds keep theirs. */
  lemma ServerRefreshReplaces(docs: seq<Doc>, guildId: string, cleanText: string, other: string)
    ensures Matching(ServerRefreshed(docs, guildId, cleanText), ByGuild(guildId)) == [ServerDoc(guildId, cleanText)]
    ensures other != guildId ==>
      Matching(ServerRefreshed(docs, guildId, cleanText), ByGuild(other)) == Matching(docs, ByGuild(other))
  {
    var kept := Without(docs, ByGuild(guildId));
    var d := ServerDoc(guildId, cleanText);
    MatchingAppend(kept, [d], ByGuild(guildId));
    MatchingOne(d, ByGuild(guildId));
    WithoutRemoves(docs, ByGuild(guildId), ByGuild(guildId));
    if other != guildId {
      WithoutKeeps(docs, ByGuild(guildId), ByGuild(other));
      MatchingAppend(kept, [d], ByGuild(other));
      MatchingOne(d, ByGuild(other));
    }
  }

  // ---------------------------------------------------------------------
  // handleHistory, checkAndSummarizeHistory
  // ---------------------------------------------------------------------

  /** `memoryTag.includes('IGNORE')`: any occurrence, not just the exact word, suppresses the write. */
  predicate Ignored(memoryTag: string) {
    Contains(memoryTag, IgnoreSentinel)
  }

  /** The memory collection after the memory write of `handleHistory` (before any compaction). */
  function MemoryWritten(docs: seq<Doc>, userId: string, memoryTag: string): seq<Doc> {
    if Ignored(memoryTag) then docs else docs + [MemoryDoc(userId, memoryTag)]
  }

  /** An ignored memory writes nothing; any other adds exactly one record of the user holding it. */
  lemma MemoryWriteCases(docs: seq<Doc>, userId: string, memoryTag: string)
    ensures Ignored(memoryTag) ==> MemoryWritten(docs, userId, memoryTag) == docs
    ensures !Ignored(memoryTag) ==>
      Matching(MemoryWritten(docs, userId, memoryTag), ByUser(userId))
        == Matching(docs, ByUser(userId)) + [MemoryDoc(userId, memoryTag)]
  {
    if !Ignored(memoryTag) {
      MatchingAppend(docs, [MemoryDoc(userId, memoryTag)], ByUser(userId));
      MatchingOne(MemoryDoc(userId, memoryTag), ByUser(userId));
    }
  }

  /** The substring test also drops memories that merely mention the word. */
  lemma IgnoreIsSubstring()
    ensures Ignored("User is IGNORED by friends")
  {
    ContainsInfix("User is ", IgnoreSentinel, "D by friends");
    assert "User is " + IgnoreSentinel + "D by friends" == "User is IGNORED by friends";
  }

  /** The memories the read returned, one per line. */
  function FullHistory(found: seq<Doc>): string {
    Join(Contents(found), "\n")
  }

  /** The summary text: the compaction model's content, joined without separator. */
  function SummaryOf(c: MessageContent): string {
    JoinParts(c, "")
  }

  /**
   * The memory collection after `checkAndSummarizeHistory`, given what the
   * read of at most 100 of the user's records found: with 50 or more, and when
   * the model answers, every record of the user is replaced by one summary;
   * otherwise (a model error is caught) nothing changes.
   */
  function Compacted(docs: seq<Doc>, userId: string, found: seq<Doc>, model: Model): seq<Doc> {
    if |found| < SummaryThreshold then docs
    else
      match model(SummarizeHistory(FullHistory(found)))
      case Failed(_) => docs
      case Generated(c) => Without(docs, ByUser(userId)) + [SummaryDoc(userId, SummaryOf(c))]
  }

  /** The capped read reaches the threshold exactly when the user has at least 50 records. */
  lemma ThresholdIff(docs: seq<Doc>, userId: string, found: seq<Doc>)
    requires IsSearchResult(docs, ByUser(userId), SummaryReadLimit, found)
    ensures |found| >= SummaryThreshold <==> |Matching(docs, ByUser(userId))| >= SummaryThreshold
  {
  }

  /**
   * A compaction that runs leaves the user exactly one record, the summary
   * marked `isSummary`, and leaves other users' records alone; one that does
   * not run changes nothing.
   */
  lemma CompactionCases(docs: seq<Doc>, userId: string, found: seq<Doc>, model: Model, other: string)
    ensures |found| < SummaryThreshold ==> Compacted(docs, userId, found, model) == docs
    ensures |found| >= SummaryThreshold && model(SummarizeHistory(FullHistory(found))).Generated? ==>
      Matching(Compacted(docs, userId, found, model), ByUser(userId))
        == [SummaryDoc(userId, SummaryOf(model(SummarizeHistory(FullHistory(found))).content))]
    ensures other != userId ==>
      Matching(Compacted(docs, userId, found, model), ByUser(other)) == Matching(docs, ByUser(other))
  {
    if |found| >= SummaryThreshold && model(SummarizeHistory(FullHistory(found))).Generated? {
      var s := SummaryDoc(userId, SummaryOf(model(SummarizeHistory(FullHistory(found))).content));
      var kept := Without(docs, ByUser(userId));
      MatchingAppend(kept, [s], ByUser(userId));
      MatchingOne(s, ByUser(userId));
      WithoutRemoves(docs, ByUser(userId), ByUser(userId));
      if other != userId {
        UsersDisjoint(userId, other);
        WithoutKeeps(docs, ByUser(userId), ByUser(other));
        MatchingAppend(kept, [s], ByUser(other));
        MatchingOne(s, ByUser(other));
      }
    }
  }

  /**
   * The read is capped at 100 but the delete is not: with more than 100
   * records, the ones the summary never saw are deleted as well.
   */
  lemma CompactionDropsUnread(docs: seq<Doc>, userId: string, found: seq<Doc>, model: Model)
    requires IsSearchResult(docs, ByUser(userId), SummaryReadLimit, found)
    requires |Matching(docs, ByUser(userId))| > SummaryReadLimit
    requires model(SummarizeHistory(FullHistory(found))).Generated?
    ensures |found| == SummaryReadLimit
    ensures |Matching(Compacted(docs, userId, found, model), ByUser(userId))| == 1
  {
    CompactionCases(docs, userId, found, model, userId);
  }

  // ---------------------------------------------------------------------
  // Query and context selection
  // ---------------------------------------------------------------------

  /** The rewrite prompt `optimizeQuery` actually sends (not `AiPrompts.optimizeQuery`). */
  function RewritePrompt(query: string): string {
    "Rewrite for Vector Search. Keywords ONLY. Query: \"" + query + "\""
  }

  /** `optimized.trim() || query`: the trimmed rewrite, or the original query when nothing but whitespace came back. */
  function OptimizedOrOriginal(optimized: string, query: string): (r: string)
    ensures AllSpace(optimized) ==> r == query
    ensures !AllSpace(optimized) ==> r == Trim(optimized) && r != []
  {
    TrimEmptyIff(optimized);
    if Trim(optimized) != [] then Trim(optimized) else query
  }

  /** `searchParam || 'info'`. */
  function ServerQuery(searchParam: string): (r: string)
    ensures r != []
    ensures searchParam != [] ==> r == searchParam
  {
    if searchParam != [] then searchParam else DefaultServerQuery
  }

  /** The server search falls back to `info` only for an empty message whose rewrite is blank. */
  lemma ServerQueryFallback(optimized: string, query: string)
    ensures ServerQuery(OptimizedOrOriginal(optimized, query)) == DefaultServerQuery
      <== AllSpace(optimized) && query == []
    ensures query != [] ==> OptimizedOrOriginal(optimized, query) != []
  {
  }

  datatype ChatReply = ChatReply(react: string, content: string)

  /** The reply `chatAI` hands back for the model's raw text. */
  function ReplyOf(raw: string): (r: ChatReply)
    ensures r.content == ParseChatTags(raw).reply && r.react == ParseChatTags(raw).react
  {
    var tags := ParseChatTags(raw);
    ChatReply(tags.react, tags.reply)
  }

  // ---------------------------------------------------------------------
  // generateForumComment
  // ---------------------------------------------------------------------

  datatype Tone = Roast | Deep | Friendly

  /** The exact strings `roast` and `deep` pick their tone; every other string, the friendly one. */
  function ToneOf(tone: string): Tone {
    if tone == "roast" then Roast else if tone == "deep" then Deep else Friendly
  }

  const RoastInstruction := "CỰC KỲ CỢT NHÃ, hài hước, khịa (roast) người viết bài một cách vui vẻ. Đừng nghiêm túc, hãy nhây và bựa."
  const DeepInstruction := "ĐÚNG CHẤT TÂM SỰ (deep talk), vô cùng đồng cảm, an ủi nhẹ nhàng, sâu sắc, thấu hiểu cảm xúc của người viết. Giọng điệu ấm áp."
  const FriendlyInstruction := "Bình thường, thân thiện, lịch sự, như một người bạn đang trò chuyện rôm rả."

  function Instruction(t: Tone): string {
    match t
    case Roast => RoastInstruction
    case Deep => DeepInstruction
    case Friendly => FriendlyInstruction
  }

  /** The tone line of the forum prompt (`toneInstruction`). */
  function ToneInstruction(tone: string): string {
    Instruction(ToneOf(tone))
  }

  /** The three instructions differ, already in length. */
  lemma InstructionsDiffer(t: Tone, u: Tone)
    requires t != u
    ensures Instruction(t) != Instruction(u)
  {
    assert |RoastInstruction| == 104 && |DeepInstruction| == 125 && |FriendlyInstruction| == 75;
  }

  /** Two tone strings get the same instruction exactly when they pick the same tone. */
  lemma ToneInstructionIff(a: string, b: string)
    ensures ToneInstruction(a) == ToneInstruction(b) <==> ToneOf(a) == ToneOf(b)
  {
    if ToneOf(a) != ToneOf(b) {
      InstructionsDiffer(ToneOf(a), ToneOf(b));
    }
  }

  const ForumIntro := "\n    Role: Bạn là AnhPan - Đồng Hành Server trên Discord.\n    \n    Tình huống: Một người dùng vừa đăng một bài tâm sự/chia sẻ vào kênh Forum.\n    Người này có tính cách/đặc điểm: "
  const ForumTitleLabel := "\n    \n    Tiêu đề bài viết: "
  const ForumContentLabel := "\n    Nội dung bài viết: "
  const ForumRules := "\n    \n    Nhiệm vụ: Viết MỘT BÌNH LUẬN (Comment) ngắn gọn để đáp lại bài viết này.\n    \n    🛑 NGÔN NGỮ BẮT BUỘC (CỰC KỲ QUAN TRỌNG):\n    Xác định ngôn ngữ của \"Tiêu đề\" và \"Nội dung bài viết\". BẠN BẮT BUỘC PHẢI BÌNH LUẬN BẰNG CHÍNH NGÔN NGỮ ĐÓ.\n\n    🛑 THÁI ĐỘ BẮT BUỘC:\n    "
  const ForumOutro := "\n    \n    🛑 LUẬT CẤM LẢM NHẢM (STRICT RULE):\n    BẠN PHẢI BẮT ĐẦU CÂU BÌNH LUẬN NGAY LẬP TỨC. \n    TUYỆT ĐỐI KHÔNG sử dụng các câu mào đầu, không giải thích ngôn ngữ, không dùng các cụm từ như: \"Since the post is in English...\", \"Dưới đây là...\", \"Here is my response:\", v.v. CHỈ OUTPUT ĐÚNG NỘI DUNG BÌNH LUẬN CỦA BẠN.\n    - TUYỆT ĐỐI KHÔNG dùng ngoặc kép bọc câu trả lời.\n    "

  function Quote(s: string): string { "\"" + s + "\"" }

  /** The prompt of `generateForumComment`. */
  function ForumPrompt(title: string, content: string, persona: string, tone: string): string {
    ForumIntro + persona + ForumTitleLabel + Quote(title) + ForumContentLabel + Quote(content)
      + ForumRules + ToneInstruction(tone) + ForumOutro
  }

  lemma ThreeInfixes(a: string, x: string, b: string, y: string, c: string, z: string, d: string)
    ensures Contains(a + x + b + y + c + z + d, x)
    ensures Contains(a + x + b + y + c + z + d, y)
    ensures Contains(a + x + b + y + c + z + d, z)
  {
    var p := a + x + b + y + c + z + d;
    assert p == a + x + (b + y + c + z + d);
    ContainsInfix(a, x, b + y + c + z + d);
    assert p == (a + x + b) + y + (c + z + d);
    ContainsInfix(a + x + b, y, c + z + d);
    assert p == (a + x + b + y + c) + z + d;
    ContainsInfix(a + x + b + y + c, z, d);
  }

  /** The forum prompt quotes the title and the post and carries the instruction of the chosen tone. */
  lemma ForumPromptCarries(title: string, content: string, persona: string, tone: string)
    ensures Contains(ForumPrompt(title, content, persona, tone), Quote(title))
    ensures Contains(ForumPrompt(title, content, persona, tone), Quote(content))
    ensures Contains(ForumPrompt(title, content, persona, tone), ToneInstruction(tone))
  {
    ThreeInfixes(ForumIntro + persona + ForumTitleLabel, Quote(title), ForumContentLabel, Quote(content),
      ForumRules, ToneInstruction(tone), ForumOutro);
  }

  /** `generateForumComment`: the model's text trimmed, or a fixed apology when the call throws. */
  function ForumComment(model: Model, title: string, content: string, persona: string, tone: string): (r: string)
    ensures model(ForumPrompt(title, content, persona, tone)).Failed? ==> r == ForumFallback
    ensures model(ForumPrompt(title, content, persona, tone)).Generated? ==>
      r == Trim(ParseContent(model(ForumPrompt(title, content, persona, tone)).content))
  {
    match model(ForumPrompt(title, content, persona, tone))
    case Failed(_) => ForumFallback
    case Generated(c) => Trim(ParseContent(c))
  }

  /** A forum comment never starts or ends with whitespace, fallback included. */
  lemma ForumCommentTrimmed(model: Model, title: string, content: string, persona: string, tone: string)
    ensures IsTrimmed(ForumComment(model, title, content, persona, tone))
  {
  }

  // ---------------------------------------------------------------------
  // What one chat exchange leaves behind
  // ---------------------------------------------------------------------

  /**
   * The memory collection after `handleHistory`: nothing for an ignored
   * memory; otherwise the memory is added and the compaction check runs on
   * what its read `found`.
   */
  function HistoryHandled(docs: seq<Doc>, userId: string, memoryTag: string, found: seq<Doc>, model: Model): seq<Doc> {
    if Ignored(memoryTag) then docs
    else Compacted(MemoryWritten(docs, userId, memoryTag), userId, found, model)
  }

  /** The user's buffer after the exchange: the user's turn, then the bot's, each truncated. */
  function ExchangeBuffer(l: seq<string>, userMessage: string, reply: string): seq<string> {
    PushBounded(PushBounded(l, EncodeTurn(Turn("user", SafeContent(userMessage)))),
      EncodeTurn(Turn("model", SafeContent(reply))))
  }

  /** Two bounded pushes leave the two entries last, in order. */
  lemma PushTwiceKeepsBoth(l: seq<string>, a: string, b: string)
    ensures var r := PushBounded(PushBounded(l, a), b);
      2 <= |r| <= HistoryLimit && r[|r| - 2] == a && r[|r| - 1] == b
  {
    var l1 := PushBounded(l, a);
    PushBoundedKeepsNewest(l, a);
    PushBoundedKeepsNewest(l1, b);
    assert l1[|l1| - 1] == a;
  }

  /**
   * However full the buffer was, it ends with the exchange just made, it
   * never grows past 20 entries, and the two turns read back as stored.
   */
  lemma ExchangeKept(l: seq<string>, userMessage: string, reply: string)
    ensures var b := ExchangeBuffer(l, userMessage, reply);
      && 2 <= |b| <= HistoryLimit
      && DecodeTurn(b[|b| - 2]) == Some(Turn("user", SafeContent(userMessage)))
      && DecodeTurn(b[|b| - 1]) == Some(Turn("model", SafeContent(reply)))
  {
    TurnsKept(l, Turn("user", SafeContent(userMessage)), Turn("model", SafeContent(reply)));
  }

  lemma TurnsKept(l: seq<string>, tu: Turn, tm: Turn)
    ensures var b := PushBounded(PushBounded(l, EncodeTurn(tu)), EncodeTurn(tm));
      && 2 <= |b| <= HistoryLimit && DecodeTurn(b[|b| - 2]) == Some(tu) && DecodeTurn(b[|b| - 1]) == Some(tm)
  {
    PushTwiceKeepsBoth(l, EncodeTurn(tu), EncodeTurn(tm));
    DecodeEncode(tu);
    DecodeEncode(tm);
  }

  /**
   * The main prompt `chatAI` sends: the profile, the persona (or its
   * default), the server records separated by `---` lines, the short-term
   * history, the memories one per line, and the message.
   */
  function ChatPrompt(userProfile: string, persona: Option<string>, serverDocs: seq<Doc>, shortTermHistory: string,
                      historyDocs: seq<Doc>, userMessage: string): string {
    MainChat(ChatContext(userProfile, PersonaContext(persona), Join(Contents(serverDocs), "\n---\n"),
      shortTermHistory, Join(Contents(historyDocs), "\n"), userMessage))
  }

  /** The prompt holds its context block right after the fixed introduction, and ends with the answer skeleton. */
  lemma ChatPromptLayout(userProfile: string, persona: Option<string>, serverDocs: seq<Doc>, shortTermHistory: string,
                         historyDocs: seq<Doc>, userMessage: string)
    ensures var d := ChatContext(userProfile, PersonaContext(persona), Join(Contents(serverDocs), "\n---\n"),
      shortTermHistory, Join(Contents(historyDocs), "\n"), userMessage);
      var p := ChatPrompt(userProfile, persona, serverDocs, shortTermHistory, historyDocs, userMessage);
      OccursAt(p, ContextBlock(d), |MainIntro|) && |p| >= |Skeleton| && p[|p| - |Skeleton|..] == Skeleton
  {
    MainChatLayout(ChatContext(userProfile, PersonaContext(persona), Join(Contents(serverDocs), "\n---\n"),
      shortTermHistory, Join(Contents(historyDocs), "\n"), userMessage));
  }

  // ---------------------------------------------------------------------
  // cleanAndSummarize and optimizeQuery
  // ---------------------------------------------------------------------

  /**
   * `cleanAndSummarize`: the model's answer to the cleaning prompt, parts
   * joined by newlines and trimmed; a model error is passed on.
   */
  function CleanedText(model: Model, rawText: string): (r: Result<string>)
    ensures r.Failure? <==> model(Prompts.CleanAndSummarize(rawText)).Failed?
    ensures r.Failure? ==> r.error == model(Prompts.CleanAndSummarize(rawText)).message
    ensures r.Success? ==> IsTrimmed(r.value)
  {
    match model(Prompts.CleanAndSummarize(rawText))
    case Failed(e) => Failure(e)
    case Generated(c) => Success(Trim(JoinParts(c, "\n")))
  }

  /** A plain string answer is cleaned to that answer, trimmed. */
  lemma CleanedTextOfString(model: Model, rawText: string, answer: string)
    requires model(Prompts.CleanAndSummarize(rawText)) == Generated(JString(answer))
    ensures CleanedText(model, rawText) == Success(Trim(answer))
  {
  }

  /**
   * `optimizeQuery`: the trimmed rewrite, or the query itself when the
   * rewrite is blank; a model error is passed on.
   */
  function QueryRewrite(summaryModel: Model, query: string): (r: Result<string>)
    ensures r.Failure? <==> summaryModel(RewritePrompt(query)).Failed?
    ensures r.Failure? ==> r.error == summaryModel(RewritePrompt(query)).message
    ensures r.Success? ==> r.value == query || (r.value != [] && IsTrimmed(r.value))
    ensures r.Success? && query != [] ==> r.value != []
  {
    match summaryModel(RewritePrompt(query))
    case Failed(e) => Failure(e)
    case Generated(c) => Success(OptimizedOrOriginal(JoinParts(c, ""), query))
  }

  /** A blank rewrite falls back to the query itself. */
  lemma QueryRewriteBlank(summaryModel: Model, query: string, answer: string)
    requires summaryModel(RewritePrompt(query)) == Generated(JString(answer)) && AllSpace(answer)
    ensures QueryRewrite(summaryModel, query) == Success(query)
  {
  }

  // ---------------------------------------------------------------------
  // The service
  // ---------------------------------------------------------------------

  class AiService {
    /** The chat model (`GOOGLE_MODEL`), also used to clean, to summarise and for personas. */
    const model: Model
    /** The rewrite model (`SUMMARY_GOOGLE_MODEL`), used only by `optimizeQuery`. */
    const summaryModel: Model
    const profileStore: Collection
    const historyStore: Collection
    const serverInfoStore: Collection
    const redis: RedisService

    /** Three distinct collections, at most one persona per user, and readable chat buffers. */
    ghost predicate Valid()
      reads this, profileStore, redis, redis.store
    {
      && profileStore != historyStore && profileStore != serverInfoStore && historyStore != serverInfoStore
      && AtMostOnePersona(profileStore.docs)
      && redis.Valid()
    }

    constructor (model: Model, summaryModel: Model, profileStore: Collection, historyStore: Collection,
                 serverInfoStore: Collection, redis: RedisService)
      requires profileStore != historyStore && profileStore != serverInfoStore && historyStore != serverInfoStore
      requires AtMostOnePersona(profileStore.docs) && redis.Valid()
      ensures Valid()
      ensures this.model == model && this.summaryModel == summaryModel && this.redis == redis
      ensures this.profileStore == profileStore && this.historyStore == historyStore
      ensures this.serverInfoStore == serverInfoStore
    {
      this.model := model;
      this.summaryModel := summaryModel;
      this.profileStore := profileStore;
      this.historyStore := historyStore;
      this.serverInfoStore := serverInfoStore;
      this.redis := redis;
    }

    /** `refreshServerMemory`: the guild's knowledge is replaced by the cleaned text. */
    method RefreshServerMemory(guildId: string, cleanText: string) returns (r: string)
      requires Valid()
      modifies serverInfoStore
      ensures Valid()
      ensures serverInfoStore.docs == ServerRefreshed(old(serverInfoStore.docs), guildId, cleanText)
      ensures r == UpdatedNotice
    {
      serverInfoStore.Delete(ByGuild(guildId));
      serverInfoStore.AddDocuments([ServerDoc(guildId, cleanText)]);
      r := UpdatedNotice;
    }

    /** `saveProfileToDb`: one more profile record for the user. */
    method SaveProfileToDb(userId: string, content: string)
      requires Valid()
      modifies profileStore
      ensures Valid()
      ensures profileStore.docs == old(profileStore.docs) + [ProfileDoc(userId, content)]
    {
      AppendNoPersona(profileStore.docs, ProfileDoc(userId, content));
      profileStore.AddDocuments([ProfileDoc(userId, content)]);
    }

    /**
     * `syncUserProfile`: `found` is what the lookup returned; the collection
     * and the returned profile are those `SyncedProfiles` describes.
     */
    method SyncUserProfile(userId: string, liveProfile: string) returns (profile: string, ghost found: seq<Doc>)
      requires Valid()
      modifies profileStore
      ensures Valid()
      ensures IsSearchResult(old(profileStore.docs), ByUser(userId), 1, found)
      ensures Synced(profileStore.docs, profile) == SyncedProfiles(old(profileStore.docs), userId, liveProfile, found)
    {
      var existing := profileStore.SimilaritySearch("lookup", 1, ByUser(userId));
      found := existing;
      if |existing| == 0 {
        SaveProfileToDb(userId, liveProfile);
        profile := liveProfile;
        return;
      }
      var stored := existing[0].content;
      if stored != liveProfile {
        WithoutKeepsOnePersona(profileStore.docs, ByUser(userId));
        profileStore.Delete(ByUser(userId));
        SaveProfileToDb(userId, liveProfile);
        profile := liveProfile;
        return;
      }
      profile := stored;
    }

    /** `getPersona`: with at most one persona per user the search is determined, and finds the stored persona. */
    method GetPersona(userId: string) returns (r: Option<string>)
      requires Valid()
      ensures r == StoredPersona(profileStore.docs, userId)
    {
      var docs := profileStore.SimilaritySearch("user-persona", 1, PersonaFilter(userId));
      SearchEmptyIff(profileStore.docs, PersonaFilter(userId), 1, docs);
      if |docs| > 0 {
        var ps := Matching(profileStore.docs, PersonaFilter(userId));
        assert |ps| == 1;
        SearchSingle(profileStore.docs, PersonaFilter(userId), 1, docs, ps[0]);
        r := Some(docs[0].content);
      } else {
        r := None;
      }
    }

    /**
     * `analyzeAndSetPersona`: the model's persona text (untrimmed) replaces
     * the user's persona and is returned; a model error is passed on before
     * anything is written.
     */
    method AnalyzeAndSetPersona(targetUserId: string, targetUserName: string, rawInput: string) returns (r: Result<string>)
      requires Valid()
      modifies profileStore
      ensures Valid()
      ensures model(AnalyzePersona(targetUserName, rawInput)).Failed? ==>
        r == Failure(model(AnalyzePersona(targetUserName, rawInput)).message) && profileStore.docs == old(profileStore.docs)
      ensures model(AnalyzePersona(targetUserName, rawInput)).Generated? ==>
        var persona := JoinParts(model(AnalyzePersona(targetUserName, rawInput)).content, "");
        r == Success(persona) && profileStore.docs == PersonaSet(old(profileStore.docs), targetUserId, persona)
    {
      match model(AnalyzePersona(targetUserName, rawInput))
      case Failed(e) =>
        r := Failure(e);
      case Generated(c) =>
        var personaData := JoinParts(c, "");
        PersonaSetKeepsOnePersona(profileStore.docs, targetUserId, personaData);
        profileStore.Delete(PersonaFilter(targetUserId));
        profileStore.AddDocuments([PersonaDoc(targetUserId, personaData)]);
        r := Success(personaData);
    }

    /** `checkAndSummarizeHistory`: `found` is what the capped read returned. */
    method CheckAndSummarizeHistory(userId: string) returns (ghost found: seq<Doc>)
      requires Valid()
      modifies historyStore
      ensures Valid()
      ensures IsSearchResult(old(historyStore.docs), ByUser(userId), SummaryReadLimit, found)
      ensures historyStore.docs == Compacted(old(historyStore.docs), userId, found, model)
    {
      var docs := historyStore.SimilaritySearch("history", SummaryReadLimit, ByUser(userId));
      found := docs;
      if |docs| >= SummaryThreshold {
        var fullHistory := FullHistory(docs);
        match model(SummarizeHistory(fullHistory))
        case Failed(_) =>
        case Generated(c) =>
          var summary := SummaryOf(c);
          historyStore.Delete(ByUser(userId));
          historyStore.AddDocuments([SummaryDoc(userId, summary)]);
      }
    }

    /** `handleHistory`: an ignored memory writes nothing; otherwise it is stored and the compaction check runs. */
    method HandleHistory(userId: string, userQuery: string, botReply: string, memoryTag: string)
      returns (ghost found: seq<Doc>)
      requires Valid()
      modifies historyStore
      ensures Valid()
      ensures !Ignored(memoryTag) ==>
        IsSearchResult(MemoryWritten(old(historyStore.docs), userId, memoryTag), ByUser(userId), SummaryReadLimit, found)
      ensures historyStore.docs == HistoryHandled(old(historyStore.docs), userId, memoryTag, found, model)
    {
      found := [];
      if Ignored(memoryTag) {
        return;
      }
      historyStore.AddDocuments([MemoryDoc(userId, memoryTag)]);
      found := CheckAndSummarizeHistory(userId);
    }

    /** The two turns of an exchange go to the user's buffer, then the memory is handled. */
    method StoreExchange(userId: string, userMessage: string, tags: ChatTags) returns (ghost memoryRead: seq<Doc>)
      requires Valid()
      modifies historyStore, redis.store
      ensures Valid()
      ensures redis.store.lists == old(redis.store.lists)[ChatKey(userId) :=
        ExchangeBuffer(old(redis.store.ListAt(ChatKey(userId))), userMessage, tags.reply)]
      ensures redis.store.ttl == old(redis.store.ttl)[ChatKey(userId) := HistoryTtl]
      ensures !Ignored(tags.memory) ==>
        IsSearchResult(MemoryWritten(old(historyStore.docs), userId, tags.memory), ByUser(userId), SummaryReadLimit, memoryRead)
      ensures historyStore.docs == HistoryHandled(old(historyStore.docs), userId, tags.memory, memoryRead, model)
    {
      var key := ChatKey(userId);
      ghost var l0, m0 := redis.store.ListAt(key), redis.store.lists;
      ghost var l1 := PushBounded(l0, EncodeTurn(Turn("user", SafeContent(userMessage))));
      redis.AddMessage(userId, UserRole, userMessage);
      assert redis.store.ListAt(key) == l1;
      redis.AddMessage(userId, ModelRole, tags.reply);
      UpdateTwice(m0, key, l1, ExchangeBuffer(l0, userMessage, tags.reply));
      memoryRead := HandleHistory(userId, userMessage, tags.reply, tags.memory);
    }

    /** The main prompt of `chatAI` from the current stores; the searches and the buffer's text are exposed as ghost outputs. */
    method BuildPrompt(userId: string, userProfile: string, userMessage: string, searchParam: string)
      returns (prompt: string, ghost serverDocs: seq<Doc>, ghost historyDocs: seq<Doc>, ghost shortTermHistory: string)
      requires Valid()
      ensures IsSearchResult(serverInfoStore.docs, Everything, ServerDocsK, serverDocs)
      ensures IsSearchResult(historyStore.docs, ByUser(userId), HistoryDocsK, historyDocs)
      ensures RenderHistory(redis.store.ListAt(ChatKey(userId))) == Some(shortTermHistory)
      ensures prompt == ChatPrompt(userProfile, StoredPersona(profileStore.docs, userId), serverDocs,
        shortTermHistory, historyDocs, userMessage)
    {
      var currentPersona := GetPersona(userId);
      var history := redis.GetRecentHistory(userId);
      shortTermHistory := history.value;
      var sDocs := serverInfoStore.SimilaritySearch(ServerQuery(searchParam), ServerDocsK, Everything);
      var hDocs := historyStore.SimilaritySearch(userMessage, HistoryDocsK, ByUser(userId));
      serverDocs, historyDocs := sDocs, hDocs;
      prompt := ChatPrompt(userProfile, currentPersona, sDocs, history.value, hDocs, userMessage);
    }

    /**
     * The part of `chatAI` after the query rewrite: the prompt from the
     * current stores, the chat model's call and, when it answers, the
     * exchange written to the buffer and the long-term memory.
     */
    method Respond(userId: string, userProfile: string, userMessage: string, searchParam: string)
      returns (r: Result<ChatReply>, ghost serverDocs: seq<Doc>, ghost historyDocs: seq<Doc>,
               ghost shortTermHistory: string, ghost prompt: string, ghost memoryRead: seq<Doc>)
      requires Valid()
      modifies historyStore, redis.store
      ensures Valid()
      ensures IsSearchResult(serverInfoStore.docs, Everything, ServerDocsK, serverDocs)
      ensures IsSearchResult(old(historyStore.docs), ByUser(userId), HistoryDocsK, historyDocs)
      ensures RenderHistory(old(redis.store.ListAt(ChatKey(userId)))) == Some(shortTermHistory)
      ensures prompt == ChatPrompt(userProfile, StoredPersona(profileStore.docs, userId), serverDocs,
        shortTermHistory, historyDocs, userMessage)
      ensures model(prompt).Failed? ==>
        && r == Failure(model(prompt).message)
        && historyStore.docs == old(historyStore.docs)
        && redis.store.lists == old(redis.store.lists) && redis.store.ttl == old(redis.store.ttl)
      ensures model(prompt).Generated? ==>
        var raw := JoinParts(model(prompt).content, "");
        var memory := ParseChatTags(raw).memory;
        && r == Success(ReplyOf(raw))
        && redis.store.lists == old(redis.store.lists)[ChatKey(userId) :=
             ExchangeBuffer(old(redis.store.ListAt(ChatKey(userId))), userMessage, ReplyOf(raw).content)]
        && redis.store.ttl == old(redis.store.ttl)[ChatKey(userId) := HistoryTtl]
        && (!Ignored(memory) ==>
             IsSearchResult(MemoryWritten(old(historyStore.docs), userId, memory), ByUser(userId), SummaryReadLimit, memoryRead))
        && historyStore.docs == HistoryHandled(old(historyStore.docs), userId, memory, memoryRead, model)
    {
      memoryRead := [];
      var finalPrompt;
      finalPrompt, serverDocs, historyDocs, shortTermHistory := BuildPrompt(userId, userProfile, userMessage, searchParam);
      prompt := finalPrompt;
      match model(finalPrompt)
      case Failed(e) =>
        r := Failure(e);
      case Generated(c) =>
        var tags := ParseChatTags(JoinParts(c, ""));
        memoryRead := StoreExchange(userId, userMessage, tags);
        r := Success(ChatReply(tags.react, tags.reply));
    }

    /**
     * `chatAI`. The ghost outputs expose the nondeterministic choices: the
     * profile lookup, the two context searches, the compaction read, and the
     * prompt they determine. The sync always runs; a rewrite error stops the
     * call there, a chat-model error before anything else is written.
     */
    method ChatAI(userId: string, liveProfile: string, userMessage: string)
      returns (r: Result<ChatReply>, ghost lookup: seq<Doc>, ghost serverDocs: seq<Doc>,
               ghost historyDocs: seq<Doc>, ghost shortTermHistory: string, ghost prompt: string,
               ghost memoryRead: seq<Doc>)
      requires Valid()
      modifies profileStore, historyStore, redis.store
      ensures Valid()
      ensures IsSearchResult(old(profileStore.docs), ByUser(userId), 1, lookup)
      ensures profileStore.docs == SyncedProfiles(old(profileStore.docs), userId, liveProfile, lookup).docs
      ensures QueryRewrite(summaryModel, userMessage).Failure? ==>
        && r == Failure(QueryRewrite(summaryModel, userMessage).error)
        && historyStore.docs == old(historyStore.docs)
        && redis.store.lists == old(redis.store.lists) && redis.store.ttl == old(redis.store.ttl)
      ensures QueryRewrite(summaryModel, userMessage).Success? ==>
        && IsSearchResult(serverInfoStore.docs, Everything, ServerDocsK, serverDocs)
        && IsSearchResult(old(historyStore.docs), ByUser(userId), HistoryDocsK, historyDocs)
        && RenderHistory(old(redis.store.ListAt(ChatKey(userId)))) == Some(shortTermHistory)
        && prompt == ChatPrompt(liveProfile, StoredPersona(profileStore.docs, userId), serverDocs,
             shortTermHistory, historyDocs, userMessage)
      ensures QueryRewrite(summaryModel, userMessage).Success? && model(prompt).Failed? ==>
        && r == Failure(model(prompt).message)
        && historyStore.docs == old(historyStore.docs)
        && redis.store.lists == old(redis.store.lists) && redis.store.ttl == old(redis.store.ttl)
      ensures QueryRewrite(summaryModel, userMessage).Success? && model(prompt).Generated? ==>
        var raw := JoinParts(model(prompt).content, "");
        var memory := ParseChatTags(raw).memory;
        && r == Success(ReplyOf(raw))
        && redis.store.lists == old(redis.store.lists)[ChatKey(userId) :=
             ExchangeBuffer(old(redis.store.ListAt(ChatKey(userId))), userMessage, ReplyOf(raw).content)]
        && redis.store.ttl == old(redis.store.ttl)[ChatKey(userId) := HistoryTtl]
        && (!Ignored(memory) ==>
             IsSearchResult(MemoryWritten(old(historyStore.docs), userId, memory), ByUser(userId), SummaryReadLimit, memoryRead))
        && historyStore.docs == HistoryHandled(old(historyStore.docs), userId, memory, memoryRead, model)
      ensures r.Success? ==>
        redis.store.ListAt(ChatKey(userId))
          == ExchangeBuffer(old(redis.store.ListAt(ChatKey(userId))), userMessage, r.value.content)
    {
      serverDocs, historyDocs, shortTermHistory, prompt, memoryRead := [], [], "", "", [];
      var userProfile;
      userProfile, lookup := SyncUserProfile(userId, liveProfile);
      SyncReturnsLive(old(profileStore.docs), userId, liveProfile, lookup);
      var optimized := QueryRewrite(summaryModel, userMessage);
      if optimized.Failure? {
        r := Failure(optimized.error);
        return;
      }
      r, serverDocs, historyDocs, shortTermHistory, prompt, memoryRead := Respond(userId, userProfile, userMessage, optimized.value);
    }
  }
}

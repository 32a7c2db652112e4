/**
 * The part of `BotService` that decides what reaches the AI engine: the
 * admission gate of `/chat` and of natural chat (length limits, the set of
 * users with a request in flight, mention stripping and the default query),
 * the live profile handed to `chatAI`, and the `/setinfo` crawl that picks
 * rule and info channels and feeds their text to the server memory.
 * Discord is reduced to the actions the handlers emit.
 */
module Bot {
  import opened Wrappers
  import opened Text
  import opened Tags
  import opened VectorStore
  import opened Redis
  import opened Ai
  import opened Seqs

  // ---------------------------------------------------------------------
  // Texts
  // ---------------------------------------------------------------------

  const TooLongText := "Đọc mỏi mắt quá, hỏi ngắn gọn lại xíu đi! "
  const BusyText := "Từ từ, đang gõ câu trước chưa xong, nói nhanh quá lú não!"
  const DefaultQuery := "Alo có gì không vậy??"
  const OopsText := "Đang lỗi lú não xíu, tí thử lại nha"
  const NoPermissionText := "❌ Bạn không có quyền dùng lệnh này."
  const ServerOnlyText := "❌ Command only works in Server!"
  const CrawlingText := "🕵️ Crawling server info..."
  const OptimizingText := "🧠 Optimizing data with AI..."
  const UpdatingText := "💾 Updating Database..."

  /** The system-error text shown to administrators. */
  function ErrorText(message: string): string {
    "❌ **[LỖI HỆ THỐNG]:**\n```" + message + "```"
  }

  /** What a handler does on Discord, in order. */
  datatype Action =
    | Reply(text: string, ephemeral: bool)
    | DeferReply
    | EditReply(text: string)
    | FollowUp(text: string)
    | React(emoji: string)

  // ---------------------------------------------------------------------
  // The admission gate
  // ---------------------------------------------------------------------

  const ChatQueryLimit: nat := 800
  const NaturalQueryLimit: nat := 400

  datatype Admission = TooLong | Busy | Admitted

  /** The length check comes first, then the in-flight check. */
  function Admit(query: string, limit: nat, processing: set<string>, userId: string): Admission {
    if |query| > limit then TooLong
    else if userId in processing then Busy
    else Admitted
  }

  /** A request is let through exactly when it is short enough and the user has none in flight. */
  lemma AdmitIff(query: string, limit: nat, processing: set<string>, userId: string)
    ensures Admit(query, limit, processing, userId) == Admitted <==> |query| <= limit && userId !in processing
    ensures Admit(query, limit, processing, userId) == TooLong <==> |query| > limit
  {
  }

  /** An over-long query is turned away as too long even when the user is also busy. */
  lemma LengthBeforeBusy(query: string, limit: nat, processing: set<string>, userId: string)
    requires |query| > limit && userId in processing
    ensures Admit(query, limit, processing, userId) == TooLong
  {
  }

  /** Marking the user for the call and unmarking them afterwards leaves the set as it was. */
  lemma InFlightRestored(processing: set<string>, userId: string)
    requires userId !in processing
    ensures (processing + {userId}) - {userId} == processing
    ensures userId in processing + {userId}
  {
  }

  // ---------------------------------------------------------------------
  // Mentions and the natural-chat query
  // ---------------------------------------------------------------------

  function Mention(botId: string): string { "<@" + botId + ">" }
  function BangMention(botId: string): string { "<@!" + botId + ">" }

  /** A Discord ID: a non-empty run of digits. */
  predicate IsSnowflake(id: string) {
    id != [] && forall i :: 0 <= i < |id| ==> '0' <= id[i] <= '9'
  }

  /**
   * `replace(new RegExp('<@!?' + botId + '>', 'g'), '')`: scanning from the
   * left, each match (the `!` form tried first) is dropped and scanning
   * resumes after it; removed text is not scanned again.
   */
  function RemoveMentions(s: string, botId: string): (r: string)
    ensures |r| <= |s|
    decreases |s|
  {
    if s == [] then []
    else if OccursAt(s, BangMention(botId), 0) then RemoveMentions(s[|BangMention(botId)|..], botId)
    else if OccursAt(s, Mention(botId), 0) then RemoveMentions(s[|Mention(botId)|..], botId)
    else [s[0]] + RemoveMentions(s[1..], botId)
  }

  /** Text before the first `<` is kept as it is. */
  lemma {:induction false} RemoveMentionsPlain(a: string, b: string, botId: string)
    requires '<' !in a
    ensures RemoveMentions(a + b, botId) == a + RemoveMentions(b, botId)
  {
    if a != [] {
      var s := a + b;
      assert s[0] == a[0];
      Mismatch(s, BangMention(botId), 0, 0);
      Mismatch(s, Mention(botId), 0, 0);
      assert s[1..] == a[1..] + b;
      RemoveMentionsPlain(a[1..], b, botId);
      assert [a[0]] + a[1..] == a;
    } else {
      assert a + b == b;
    }
  }

  /** A mention at the front goes, whatever follows it. */
  lemma RemoveLeadingMention(b: string, botId: string)
    requires IsSnowflake(botId)
    ensures RemoveMentions(Mention(botId) + b, botId) == RemoveMentions(b, botId)
  {
    var s := Mention(botId) + b;
    assert s[2] == botId[0];
    Mismatch(s, BangMention(botId), 0, 2);
    assert s[..|Mention(botId)|] == Mention(botId);
    assert s[|Mention(botId)|..] == b;
  }

  lemma RemoveLeadingBangMention(b: string, botId: string)
    ensures RemoveMentions(BangMention(botId) + b, botId) == RemoveMentions(b, botId)
  {
    var s := BangMention(botId) + b;
    assert s[..|BangMention(botId)|] == BangMention(botId);
    assert s[|BangMention(botId)|..] == b;
  }

  /** One mention of the bot, in either form, inside plain text is removed and nothing else is. */
  lemma MentionStripped(a: string, b: string, botId: string, bang: bool)
    requires IsSnowflake(botId) && '<' !in a && '<' !in b
    ensures RemoveMentions(a + (if bang then BangMention(botId) else Mention(botId)) + b, botId) == a + b
  {
    var m := if bang then BangMention(botId) else Mention(botId);
    assert a + m + b == a + (m + b);
    RemoveMentionsPlain(a, m + b, botId);
    if bang { RemoveLeadingBangMention(b, botId); } else { RemoveLeadingMention(b, botId); }
    RemoveMentionsPlain(b, [], botId);
    assert b + [] == b;
    assert RemoveMentions([], botId) == [];
  }

  /** Removal is one pass: a mention split by another one is rejoined and survives. */
  lemma NestedMentionSurvives()
    ensures RemoveMentions("<@<@1>1>", "1") == "<@1>"
  {
    var s := "<@<@1>1>";
    Mismatch(s, BangMention("1"), 0, 2);
    Mismatch(s, Mention("1"), 0, 2);
    assert s[1..] == "@<@1>1>";
    Mismatch(s[1..], BangMention("1"), 0, 0);
    Mismatch(s[1..], Mention("1"), 0, 0);
    assert s[1..][1..] == Mention("1") + "1>";
    RemoveLeadingMention("1>", "1");
    RemoveMentionsPlain("1>", [], "1");
    assert "1>" + [] == "1>";
  }

  /** The natural-chat query: mentions of the bot removed, trimmed, and a greeting when nothing is left. */
  function NaturalQuery(content: string, botId: string): (r: string)
    ensures r != [] && IsTrimmed(r)
    ensures Trim(RemoveMentions(content, botId)) != [] ==> r == Trim(RemoveMentions(content, botId))
    ensures AllSpace(RemoveMentions(content, botId)) ==> r == DefaultQuery
  {
    TrimEmptyIff(RemoveMentions(content, botId));
    var q := Trim(RemoveMentions(content, botId));
    if q != [] then q else DefaultQuery
  }

  /** A message that is only the bot's mention becomes the greeting. */
  lemma MentionOnlyGreets(botId: string)
    requires IsSnowflake(botId)
    ensures NaturalQuery(Mention(botId), botId) == DefaultQuery
  {
    MentionStripped([], [], botId, false);
    assert [] + Mention(botId) + [] == Mention(botId);
  }

  // ---------------------------------------------------------------------
  // The live profile
  // ---------------------------------------------------------------------

  /** The guild member behind a request: display name and role names. */
  datatype Member = Member(displayName: string, roles: seq<string>)

  function RoleType(isAdmin: bool): string {
    if isAdmin then "[ADMIN SERVER]" else "[USER THƯỜNG]"
  }

  /** The role names other than `@everyone`, in order. */
  function NamedRoles(roles: seq<string>): seq<string> {
    if roles == [] then []
    else (if roles[0] != "@everyone" then [roles[0]] else []) + NamedRoles(roles[1..])
  }

  /** `roles || 'None'`. */
  function RolesText(roles: seq<string>): string {
    var joined := Join(NamedRoles(roles), ", ");
    if joined == [] then "None" else joined
  }

  /** The first line of every profile. */
  function RoleLine(isAdmin: bool): string {
    "Role Context: " + RoleType(isAdmin)
  }

  function ProfileHeader(isAdmin: bool, userId: string, username: string): string {
    RoleLine(isAdmin) + ("\nUser ID: " + userId + "\nUsername: " + username)
  }

  /** The two lines a guild member adds. */
  function MemberLines(m: Member): string {
    "\nDisplay Name: " + m.displayName + "\nRoles: " + RolesText(m.roles)
  }

  /** The live profile: three fixed lines, then the display name and roles when there is a member. */
  function LiveProfile(isAdmin: bool, userId: string, username: string, member: Option<Member>): string {
    match member
    case None => ProfileHeader(isAdmin, userId, username)
    case Some(m) => ProfileHeader(isAdmin, userId, username) + MemberLines(m)
  }

  /** The `liveProfile +=` steps of the handlers. */
  method BuildLiveProfile(isAdmin: bool, userId: string, username: string, member: Option<Member>) returns (liveProfile: string)
    ensures liveProfile == LiveProfile(isAdmin, userId, username, member)
  {
    var roleType := RoleType(isAdmin);
    liveProfile := "Role Context: " + roleType + "\nUser ID: " + userId + "\nUsername: " + username;
    assert liveProfile == ProfileHeader(isAdmin, userId, username);
    if member.Some? {
      var roles := Join(NamedRoles(member.value.roles), ", ");
      ghost var header := liveProfile;
      liveProfile := liveProfile + "\nDisplay Name: " + member.value.displayName;
      liveProfile := liveProfile + "\nRoles: " + (if roles != [] then roles else "None");
      assert liveProfile == header + MemberLines(member.value);
    }
  }

  /** Every profile starts with the role line, then the ID and the username; without a member that is all. */
  lemma LiveProfileStarts(isAdmin: bool, userId: string, username: string, member: Option<Member>)
    ensures var p := LiveProfile(isAdmin, userId, username, member);
      var h := ProfileHeader(isAdmin, userId, username);
      |h| <= |p| && p[..|h|] == h && (member.None? ==> p == h)
    ensures var h := ProfileHeader(isAdmin, userId, username);
      h[..|RoleLine(isAdmin)|] == RoleLine(isAdmin)
  {
    var h := ProfileHeader(isAdmin, userId, username);
    PrefixOfAppend(RoleLine(isAdmin), "\nUser ID: " + userId + "\nUsername: " + username);
    if member.Some? {
      PrefixOfAppend(h, MemberLines(member.value));
    }
  }

  /** A role is listed exactly when the member has it and it is not `@everyone`. */
  lemma {:induction false} NamedRolesIff(roles: seq<string>, x: string)
    ensures x in NamedRoles(roles) <==> x in roles && x != "@everyone"
  {
    if roles != [] {
      NamedRolesIff(roles[1..], x);
      assert roles == [roles[0]] + roles[1..];
    }
  }

  /** Every listed role shows up in the roles line; a member with only `@everyone` gets `None`. */
  lemma RolesTextCases(roles: seq<string>)
    ensures forall i :: 0 <= i < |NamedRoles(roles)| && NamedRoles(roles) != [""] ==> Contains(RolesText(roles), NamedRoles(roles)[i])
    ensures (forall i :: 0 <= i < |roles| ==> roles[i] == "@everyone") ==> RolesText(roles) == "None"
  {
    forall i | 0 <= i < |NamedRoles(roles)| && NamedRoles(roles) != [""]
      ensures Contains(RolesText(roles), NamedRoles(roles)[i])
    {
      JoinContains(NamedRoles(roles), ", ", i);
      if Join(NamedRoles(roles), ", ") == [] {
        JoinEmpty(NamedRoles(roles), ", ");
      }
    }
    if forall i :: 0 <= i < |roles| ==> roles[i] == "@everyone" {
      if NamedRoles(roles) != [] {
        NamedRolesIff(roles, NamedRoles(roles)[0]);
      }
    }
  }

  /** A join with a non-empty separator is empty only for no parts or one empty part. */
  lemma JoinEmpty(parts: seq<string>, sep: string)
    requires sep != [] && Join(parts, sep) == []
    ensures parts == [] || parts == [""]
  {
  }

  // ---------------------------------------------------------------------
  // The /setinfo crawl
  // ---------------------------------------------------------------------

  const Keywords: seq<string> := ["luật", "rule", "info", "thông-báo", "guide", "hướng-dẫn"]

  /** A guild channel: its name, whether it is a text channel, and the text of its last 50 messages (None when the fetch fails). */
  datatype GuildChannel = GuildChannel(name: string, isText: bool, messages: Option<string>)

  datatype Guild = Guild(id: string, name: string, description: Option<string>, channels: seq<GuildChannel>)

  /** Text channels whose lower-cased name contains one of the keywords. */
  predicate IsCrawled(c: GuildChannel) {
    c.isText && exists i :: 0 <= i < |Keywords| && Contains(ToLower(c.name), Keywords[i])
  }

  function Crawled(cs: seq<GuildChannel>): seq<GuildChannel> {
    if cs == [] then []
    else (if IsCrawled(cs[0]) then [cs[0]] else []) + Crawled(cs[1..])
  }

  /** A channel is crawled exactly when it is in the guild and passes the keyword filter. */
  lemma {:induction false} CrawledIff(cs: seq<GuildChannel>, c: GuildChannel)
    ensures c in Crawled(cs) <==> c in cs && IsCrawled(c)
  {
    if cs != [] {
      CrawledIff(cs[1..], c);
      assert cs == [cs[0]] + cs[1..];
    }
  }

  /** Case does not matter: a text channel named `RULES` is crawled; no voice channel is. */
  lemma CrawlExamples(name: string)
    ensures IsCrawled(GuildChannel("RULES", true, None))
    ensures !IsCrawled(GuildChannel(name, false, None))
  {
    assert ToLower("RULES") == "rule" + "s";
    ContainsInfix([], "rule", "s");
    assert [] + "rule" + "s" == "rule" + "s";
    assert Keywords[1] == "rule";
  }

  /** Every keyword is already lower-case, so a name written in the keyword's own case can match it. */
  lemma KeywordsLower()
    ensures forall i :: 0 <= i < |Keywords| ==> ToLower(Keywords[i]) == Keywords[i]
  {
    forall i | 0 <= i < |Keywords| ensures ToLower(Keywords[i]) == Keywords[i] {
      ToLowerOfLower(Keywords[i]);
    }
  }

  /** The filter sees only the lower-cased name: lower-casing a channel's name does not change whether it is crawled. */
  lemma CrawlCaseBlind(c: GuildChannel)
    ensures IsCrawled(c) <==> IsCrawled(c.(name := ToLower(c.name)))
  {
    ToLowerIdempotent(c.name);
  }

  /** `SERVER: <name> | Desc: <description or N/A>` and a blank line. */
  function ServerHeader(g: Guild): string {
    "SERVER: " + g.name + " | Desc: "
      + (if g.description.Some? && g.description.value != [] then g.description.value else "N/A") + "\n\n"
  }

  function ChannelHeader(c: GuildChannel): string {
    "--- CHANNEL: " + c.name + " ---\n"
  }

  /** A channel's part of the raw data: its header, then its text and a blank line when the fetch succeeded. */
  function Section(c: GuildChannel): string {
    ChannelHeader(c) + (if c.messages.Some? then c.messages.value + "\n\n" else "")
  }

  function Sections(cs: seq<GuildChannel>): string {
    if cs == [] then [] else Sections(cs[..|cs| - 1]) + Section(cs[|cs| - 1])
  }

  /** The raw data sent to be cleaned. */
  function RawData(g: Guild): string {
    ServerHeader(g) + Sections(Crawled(g.channels))
  }

  lemma {:induction false} SectionsAppend(a: seq<GuildChannel>, b: seq<GuildChannel>)
    ensures Sections(a + b) == Sections(a) + Sections(b)
    decreases |b|
  {
    if b == [] {
      assert a + b == a;
    } else {
      var n := |b| - 1;
      SectionsAppend(a, b[..n]);
      assert (a + b)[..|a + b| - 1] == a + b[..n];
      assert (a + b)[|a + b| - 1] == b[n];
      calc {
        Sections(a + b);
        Sections(a + b[..n]) + Section(b[n]);
        (Sections(a) + Sections(b[..n])) + Section(b[n]);
        Sections(a) + (Sections(b[..n]) + Section(b[n]));
      }
    }
  }

  lemma SectionsSnoc(a: seq<GuildChannel>, c: GuildChannel)
    ensures Sections(a + [c]) == Sections(a) + Section(c)
  {
    assert (a + [c])[..|a|] == a;
  }

  /** The raw data of the channels around one of them. */
  lemma SectionsAt(cs: seq<GuildChannel>, i: nat)
    requires i < |cs|
    ensures Sections(cs) == Sections(cs[..i]) + Section(cs[i]) + Sections(cs[i + 1..])
  {
    var a, b := cs[..i], cs[i + 1..];
    AroundIndex(cs, i);
    SectionsAppend(a + [cs[i]], b);
    SectionsSnoc(a, cs[i]);
  }

  lemma NestedInfix(h: string, a: string, c: string, t: string, b: string)
    ensures Contains(h + (a + (c + t) + b), c)
  {
    assert h + (a + (c + t) + b) == (h + a) + c + (t + b);
    ContainsInfix(h + a, c, t + b);
  }

  /** Whatever precedes them, the sections hold every channel's header. */
  lemma SectionsNameChannel(h: string, cs: seq<GuildChannel>, i: nat)
    requires i < |cs|
    ensures Contains(h + Sections(cs), ChannelHeader(cs[i]))
  {
    SectionsAt(cs, i);
    var tail := if cs[i].messages.Some? then cs[i].messages.value + "\n\n" else "";
    assert Section(cs[i]) == ChannelHeader(cs[i]) + tail;
    NestedInfix(h, Sections(cs[..i]), ChannelHeader(cs[i]), tail, Sections(cs[i + 1..]));
  }

  /** Every crawled channel's header is in the raw data, failed fetches included. */
  lemma RawDataNamesChannel(g: Guild, i: nat)
    requires i < |Crawled(g.channels)|
    ensures Contains(RawData(g), ChannelHeader(Crawled(g.channels)[i]))
  {
    SectionsNameChannel(ServerHeader(g), Crawled(g.channels), i);
  }

  /** One turn of the crawl loop appends the channel's header and, when fetched, its text. */
  lemma RawDataStep(h: string, cs: seq<GuildChannel>, i: nat)
    requires i < |cs|
    ensures cs[i].messages.Some? ==>
      h + Sections(cs[..i + 1]) == h + Sections(cs[..i]) + ChannelHeader(cs[i]) + (cs[i].messages.value + "\n\n")
    ensures cs[i].messages.None? ==>
      h + Sections(cs[..i + 1]) == h + Sections(cs[..i]) + ChannelHeader(cs[i])
  {
    assert cs[..i + 1][..i] == cs[..i];
  }

  /** The `rawData +=` loop over the crawled channels. */
  method CollectRawData(g: Guild) returns (rawData: string)
    ensures rawData == RawData(g)
  {
    rawData := ServerHeader(g);
    var channels := Crawled(g.channels);
    for i := 0 to |channels|
      invariant rawData == ServerHeader(g) + Sections(channels[..i])
    {
      RawDataStep(ServerHeader(g), channels, i);
      rawData := rawData + ChannelHeader(channels[i]);
      if channels[i].messages.Some? {
        rawData := rawData + (channels[i].messages.value + "\n\n");
      }
    }
    assert channels[..|channels|] == channels;
  }

  // ---------------------------------------------------------------------
  // What the handlers post
  // ---------------------------------------------------------------------

  /** After `/chat` is deferred: the reply when non-empty; on an error the details for admins, an apology for others. */
  function ChatActions(r: Result<ChatReply>, isAdmin: bool): seq<Action> {
    match r
    case Success(reply) => if reply.content != [] then [EditReply(reply.content)] else []
    case Failure(e) => [EditReply(if isAdmin then ErrorText(e) else OopsText)]
  }

  /** Natural chat: the reply and the reaction when non-empty; on an error the details for admins, nothing for others. */
  function NaturalActions(r: Result<ChatReply>, isAdmin: bool): seq<Action> {
    match r
    case Success(reply) =>
      (if reply.content != [] then [Reply(reply.content, false)] else [])
        + (if reply.react != [] then [React(reply.react)] else [])
    case Failure(e) => if isAdmin then [Reply(ErrorText(e), false)] else []
  }

  /** Different errors give different system-error texts. */
  lemma ErrorTextInjective(e1: string, e2: string)
    requires ErrorText(e1) == ErrorText(e2)
    ensures e1 == e2
  {
    var p := "❌ **[LỖI HỆ THỐNG]:**\n```";
    assert |e1| == |e2|;
    assert ErrorText(e1)[|p|..|p| + |e1|] == e1;
    assert ErrorText(e2)[|p|..|p| + |e2|] == e2;
  }

  /** Error details reach administrators only: what anyone else sees does not depend on the error. */
  lemma ErrorsHiddenFromUsers(e1: string, e2: string)
    ensures ChatActions(Failure(e1), false) == ChatActions(Failure(e2), false)
    ensures NaturalActions(Failure(e1), false) == []
    ensures e1 != e2 ==> ChatActions(Failure(e1), true) != ChatActions(Failure(e2), true)
  {
    if e1 != e2 && ErrorText(e1) == ErrorText(e2) {
      ErrorTextInjective(e1, e2);
      assert false;
    }
    if e1 != e2 {
      assert ChatActions(Failure(e1), true)[0] != ChatActions(Failure(e2), true)[0];
    }
  }

  /** A successful natural-chat answer posts at most a reply and a reaction, in that order, and never an error. */
  lemma NaturalSuccessShape(reply: ChatReply, isAdmin: bool)
    ensures var acts := NaturalActions(Success(reply), isAdmin);
      |acts| <= 2
      && (reply.content != [] <==> Reply(reply.content, false) in acts)
      && (reply.react != [] <==> React(reply.react) in acts)
  {
  }

  // ---------------------------------------------------------------------
  // The handlers
  // ---------------------------------------------------------------------

  /** A Discord message as natural chat sees it; `mentionsBot` is `message.mentions.has(botId)`. */
  datatype Message = Message(
    authorId: string, authorName: string, authorIsBot: bool, content: string,
    mentionsBot: bool, isAdmin: bool, member: Option<Member>)

  /** Natural chat answers only a human who mentions the bot or replies to it, once the bot is logged in. */
  predicate Addressed(m: Message, botId: Option<string>, isReplyToBot: bool) {
    !m.authorIsBot && botId.Some? && (m.mentionsBot || isReplyToBot)
  }

  class BotService {
    /** Users with a request in flight. */
    var processingUsers: set<string>
    /** The actions posted so far. */
    var outbox: seq<Action>
    const ai: AiService

    constructor (ai: AiService)
      ensures this.ai == ai && processingUsers == {} && outbox == []
    {
      this.ai := ai;
      processingUsers := {};
      outbox := [];
    }

    /** `chatAI`, with the part of its contract the handlers rely on. */
    method AskAi(userId: string, liveProfile: string, query: string)
      returns (r: Result<ChatReply>, ghost lookup: seq<Doc>)
      requires ai.Valid()
      modifies ai.profileStore, ai.historyStore, ai.redis.store
      ensures ai.Valid()
      ensures IsSearchResult(old(ai.profileStore.docs), ByUser(userId), 1, lookup)
      ensures ai.profileStore.docs == SyncedProfiles(old(ai.profileStore.docs), userId, liveProfile, lookup).docs
      ensures r.Success? ==>
        ai.redis.store.ListAt(ChatKey(userId))
          == ExchangeBuffer(old(ai.redis.store.ListAt(ChatKey(userId))), query, r.value.content)
    {
      ghost var serverDocs, historyDocs, shortTerm, prompt, memoryRead;
      r, lookup, serverDocs, historyDocs, shortTerm, prompt, memoryRead := ai.ChatAI(userId, liveProfile, query);
    }

    /**
     * The admitted part of `/chat`: the user is marked as in flight, the
     * reply deferred, `chatAI` called with the live profile, the outcome
     * posted, and the mark removed again (`finally`).
     */
    method ServeChat(userId: string, username: string, isAdmin: bool, member: Option<Member>, query: string)
      returns (ghost result: Result<ChatReply>, ghost lookup: seq<Doc>)
      requires ai.Valid() && userId !in processingUsers
      modifies this, ai.profileStore, ai.historyStore, ai.redis.store
      ensures ai.Valid()
      ensures unchanged(this`processingUsers)
      ensures outbox == old(outbox) + [DeferReply] + ChatActions(result, isAdmin)
      ensures IsSearchResult(old(ai.profileStore.docs), ByUser(userId), 1, lookup)
      ensures ai.profileStore.docs
        == SyncedProfiles(old(ai.profileStore.docs), userId, LiveProfile(isAdmin, userId, username, member), lookup).docs
      ensures result.Success? ==>
        ai.redis.store.ListAt(ChatKey(userId))
          == ExchangeBuffer(old(ai.redis.store.ListAt(ChatKey(userId))), query, result.value.content)
    {
      InFlightRestored(processingUsers, userId);
      processingUsers := processingUsers + {userId};
      outbox := outbox + [DeferReply];
      ghost var deferred := outbox;
      var liveProfile := BuildLiveProfile(isAdmin, userId, username, member);
      var r;
      r, lookup := AskAi(userId, liveProfile, query);
      result := r;
      if r.Success? && r.value.content != [] {
        outbox := outbox + [EditReply(r.value.content)];
      }
      processingUsers := processingUsers - {userId};
      if r.Failure? {
        outbox := outbox + [EditReply(if isAdmin then ErrorText(r.error) else OopsText)];
      }
      assert outbox == deferred + ChatActions(r, isAdmin);
    }

    /** `/chat`: the gate with the longer limit, then `ServeChat`; `result` is what `chatAI` returned. */
    method HandleChat(userId: string, username: string, isAdmin: bool, member: Option<Member>, query: string)
      returns (ghost result: Result<ChatReply>, ghost lookup: seq<Doc>)
      requires ai.Valid()
      modifies this, ai.profileStore, ai.historyStore, ai.redis.store
      ensures ai.Valid()
      ensures unchanged(this`processingUsers)
      ensures Admit(query, ChatQueryLimit, old(processingUsers), userId) == TooLong ==>
        outbox == old(outbox) + [Reply(TooLongText, true)]
        && unchanged(ai.profileStore, ai.historyStore, ai.redis.store)
      ensures Admit(query, ChatQueryLimit, old(processingUsers), userId) == Busy ==>
        outbox == old(outbox) + [Reply(BusyText, true)]
        && unchanged(ai.profileStore, ai.historyStore, ai.redis.store)
      ensures Admit(query, ChatQueryLimit, old(processingUsers), userId) == Admitted ==>
        && outbox == old(outbox) + [DeferReply] + ChatActions(result, isAdmin)
        && IsSearchResult(old(ai.profileStore.docs), ByUser(userId), 1, lookup)
        && ai.profileStore.docs
             == SyncedProfiles(old(ai.profileStore.docs), userId, LiveProfile(isAdmin, userId, username, member), lookup).docs
        && (result.Success? ==>
              ai.redis.store.ListAt(ChatKey(userId))
                == ExchangeBuffer(old(ai.redis.store.ListAt(ChatKey(userId))), query, result.value.content))
    {
      result, lookup := Failure(""), [];
      match Admit(query, ChatQueryLimit, processingUsers, userId)
      case TooLong =>
        outbox := outbox + [Reply(TooLongText, true)];
      case Busy =>
        outbox := outbox + [Reply(BusyText, true)];
      case Admitted =>
        result, lookup := ServeChat(userId, username, isAdmin, member, query);
    }

    /** Posting the outcome of natural chat in the channel. */
    method PostNatural(r: Result<ChatReply>, isAdmin: bool)
      modifies this
      ensures unchanged(this`processingUsers)
      ensures outbox == old(outbox) + NaturalActions(r, isAdmin)
    {
      match r {
        case Success(response) =>
          if response.content != [] {
            outbox := outbox + [Reply(response.content, false)];
          }
          if response.react != [] {
            outbox := outbox + [React(response.react)];
          }
        case Failure(e) =>
          if isAdmin {
            outbox := outbox + [Reply(ErrorText(e), false)];
          }
      }
    }

    /**
     * The admitted part of natural chat: as `ServeChat`, without the
     * deferral; replies are posted in the channel.
     */
    method ServeNatural(m: Message, query: string)
      returns (ghost result: Result<ChatReply>, ghost lookup: seq<Doc>)
      requires ai.Valid() && m.authorId !in processingUsers
      modifies this, ai.profileStore, ai.historyStore, ai.redis.store
      ensures ai.Valid()
      ensures unchanged(this`processingUsers)
      ensures outbox == old(outbox) + NaturalActions(result, m.isAdmin)
      ensures IsSearchResult(old(ai.profileStore.docs), ByUser(m.authorId), 1, lookup)
      ensures ai.profileStore.docs == SyncedProfiles(old(ai.profileStore.docs), m.authorId,
        LiveProfile(m.isAdmin, m.authorId, m.authorName, m.member), lookup).docs
      ensures result.Success? ==>
        ai.redis.store.ListAt(ChatKey(m.authorId))
          == ExchangeBuffer(old(ai.redis.store.ListAt(ChatKey(m.authorId))), query, result.value.content)
    {
      var userId := m.authorId;
      InFlightRestored(processingUsers, userId);
      processingUsers := processingUsers + {userId};
      var liveProfile := BuildLiveProfile(m.isAdmin, userId, m.authorName, m.member);
      var r;
      r, lookup := AskAi(userId, liveProfile, query);
      result := r;
      PostNatural(r, m.isAdmin);
      processingUsers := processingUsers - {userId};
    }

    /**
     * Natural chat: ignored unless addressed; then the query is derived and
     * the gate applied with the shorter limit before `ServeNatural`; `result`
     * is what `chatAI` returned. The typing indicator is not modelled.
     */
    method HandleNaturalChat(m: Message, botId: Option<string>, isReplyToBot: bool)
      returns (ghost result: Result<ChatReply>, ghost lookup: seq<Doc>)
      requires ai.Valid()
      modifies this, ai.profileStore, ai.historyStore, ai.redis.store
      ensures ai.Valid()
      ensures unchanged(this`processingUsers)
      ensures !Addressed(m, botId, isReplyToBot) ==>
        outbox == old(outbox) && unchanged(ai.profileStore, ai.historyStore, ai.redis.store)
      ensures Addressed(m, botId, isReplyToBot) ==>
        var query := NaturalQuery(m.content, botId.value);
        match Admit(query, NaturalQueryLimit, old(processingUsers), m.authorId)
        case TooLong =>
          outbox == old(outbox) + [Reply(TooLongText, false)]
          && unchanged(ai.profileStore, ai.historyStore, ai.redis.store)
        case Busy =>
          outbox == old(outbox) + [Reply(BusyText, false)]
          && unchanged(ai.profileStore, ai.historyStore, ai.redis.store)
        case Admitted =>
          && outbox == old(outbox) + NaturalActions(result, m.isAdmin)
          && IsSearchResult(old(ai.profileStore.docs), ByUser(m.authorId), 1, lookup)
          && ai.profileStore.docs == SyncedProfiles(old(ai.profileStore.docs), m.authorId,
               LiveProfile(m.isAdmin, m.authorId, m.authorName, m.member), lookup).docs
          && (result.Success? ==>
                ai.redis.store.ListAt(ChatKey(m.authorId))
                  == ExchangeBuffer(old(ai.redis.store.ListAt(ChatKey(m.authorId))), query, result.value.content))
    {
      result, lookup := Failure(""), [];
      if m.authorIsBot || botId.None? || (!m.mentionsBot && !isReplyToBot) {
        return;
      }
      var query := NaturalQuery(m.content, botId.value);
      match Admit(query, NaturalQueryLimit, processingUsers, m.authorId)
      case TooLong =>
        outbox := outbox + [Reply(TooLongText, false)];
      case Busy =>
        outbox := outbox + [Reply(BusyText, false)];
      case Admitted =>
        result, lookup := ServeNatural(m, query);
    }

    /**
     * `/setinfo`: administrators only, in a server only; the crawl, the
     * cleaning and the refresh of the guild's server memory. A cleaning error
     * is shown to the administrator and nothing is stored.
     */
    method HandleSetInfo(isAdmin: bool, guild: Option<Guild>)
      requires ai.Valid()
      modifies this, ai.serverInfoStore
      ensures ai.Valid()
      ensures unchanged(this`processingUsers)
      ensures !isAdmin ==> outbox == old(outbox) + [Reply(NoPermissionText, true)] && unchanged(ai.serverInfoStore)
      ensures isAdmin && guild.None? ==> outbox == old(outbox) + [Reply(ServerOnlyText, true)] && unchanged(ai.serverInfoStore)
      ensures isAdmin && guild.Some? ==>
        var steps := old(outbox) + [DeferReply, EditReply(CrawlingText), EditReply(OptimizingText)];
        match CleanedText(ai.model, RawData(guild.value))
        case Failure(e) =>
          outbox == steps + [EditReply(ErrorText(e))] && unchanged(ai.serverInfoStore)
        case Success(cleanText) =>
          && outbox == steps + [FollowUp(UpdatingText), FollowUp(UpdatedNotice)]
          && ai.serverInfoStore.docs == ServerRefreshed(old(ai.serverInfoStore.docs), guild.value.id, cleanText)
    {
      if !isAdmin {
        outbox := outbox + [Reply(NoPermissionText, true)];
        return;
      }
      if guild.None? {
        outbox := outbox + [Reply(ServerOnlyText, true)];
        return;
      }
      RefreshFromGuild(guild.value);
    }

    /** The `/setinfo` crawl of a guild, after the permission and server checks. */
    method RefreshFromGuild(g: Guild)
      requires ai.Valid()
      modifies this`outbox, ai.serverInfoStore
      ensures ai.Valid()
      ensures
        var steps := old(outbox) + [DeferReply, EditReply(CrawlingText), EditReply(OptimizingText)];
        match CleanedText(ai.model, RawData(g))
        case Failure(e) =>
          outbox == steps + [EditReply(ErrorText(e))] && unchanged(ai.serverInfoStore)
        case Success(cleanText) =>
          && outbox == steps + [FollowUp(UpdatingText), FollowUp(UpdatedNotice)]
          && ai.serverInfoStore.docs == ServerRefreshed(old(ai.serverInfoStore.docs), g.id, cleanText)
    {
      ghost var before := outbox;
      outbox := outbox + [DeferReply];
      outbox := outbox + [EditReply(CrawlingText)];
      var rawData := CollectRawData(g);
      outbox := outbox + [EditReply(OptimizingText)];
      assert outbox == before + [DeferReply, EditReply(CrawlingText), EditReply(OptimizingText)];
      PostSummary(g.id, CleanedText(ai.model, rawData));
    }

    /** The cleaned text replaces the guild's server record; a failed clean-up only reports the error. */
    method PostSummary(guildId: string, cleaned: Result<string>)
      requires ai.Valid()
      modifies this`outbox, ai.serverInfoStore
      ensures ai.Valid()
      ensures
        match cleaned
        case Failure(e) =>
          outbox == old(outbox) + [EditReply(ErrorText(e))] && unchanged(ai.serverInfoStore)
        case Success(cleanText) =>
          && outbox == old(outbox) + [FollowUp(UpdatingText), FollowUp(UpdatedNotice)]
          && ai.serverInfoStore.docs == ServerRefreshed(old(ai.serverInfoStore.docs), guildId, cleanText)
    {
      match cleaned {
        case Failure(e) =>
          outbox := outbox + [EditReply(ErrorText(e))];
        case Success(optimizedText) =>
          outbox := outbox + [FollowUp(UpdatingText)];
          var notice := ai.RefreshServerMemory(guildId, optimizedText);
          outbox := outbox + [FollowUp(notice)];
      }
    }
  }
}

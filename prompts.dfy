/**
 * The prompt builders of `AiPrompts`: each is a fixed template with its
 * arguments spliced in. The answer skeleton that closes the main chat prompt
 * is given as a function of its three fields, so that the tag protocol can
 * be stated about answers that follow it.
 */
module Prompts {
  import opened Wrappers
  import opened Text
  import opened Tags

  // ---------------------------------------------------------------------
  // Fixed parts of the templates
  // ---------------------------------------------------------------------

  const DailyIntro := "\n    Role: Bạn là một Bot Discord thông thái, chuyên chia sẻ kiến thức (Fact/Tips) mỗi ngày.\n    \n    Nhiệm vụ: Tạo ra MỘT bài viết chia sẻ kiến thức cực kỳ thú vị, ngẫu nhiên (Kiến thức phải thực tế, hấp dãn).\n    \n    🛑 ĐIỀU KIỆN TỐI QUAN TRỌNG CHỐNG TRÙNG LẶP 🛑\n    BẠN TUYỆT ĐỐI KHÔNG ĐƯỢC VIẾT VỀ CÁC CHỦ ĐỀ SAU (Đây là những bài đã đăng rồi):\n    "
  const DailyOutro := "\n\n    Yêu cầu bài viết:\n    - Độ dài: TỐI ĐA 1800 ký tự. ĐÂY LÀ QUY TẮC BẮT BUỘC.\n    - Đối tượng đọc: Viết sao cho cực kỳ DỄ HIỂU với mọi lứa tuổi (từ trẻ em, Gen Z đến người lớn tuổi). Tuyệt đối tránh dùng từ ngữ hàn lâm, khô khan. Nếu có thuật ngữ chuyên ngành, PHẢI giải thích bằng ví dụ đời thường gần gũi.\n    - Giọng văn: Lôi cuốn, hài hước một chút, chém gió tự nhiên. nhưng vẫn chuyên nghiệp\n    - Trình bày: Hạn chế dùng emoji. In đậm các từ khóa hoặc câu chốt quan trọng. Chia thành các đoạn văn ngắn (2-3 câu/đoạn) để dễ đọc trên giao diện Discord.\n    \n    OUTPUT FORMAT (Strict XML):\n    <topic>Viết ngắn gọn 3-5 chữ về chủ đề bài này</topic>\n    <content>Nội dung bài viết chi tiết ở đây (chắc chắn phải dưới 1800 ký tự)...</content>\n    "
  const CleanPrefix := "Task: Clean and summarize RAW DATA into structured Vietnamese docs. Remove spam.\nDATA: "
  const OptimizeLead := "Extract Vector Search keywords ONLY. Query: "
  const SummarizeLead := "Summarize user facts and core context from this history into one concise Vietnamese paragraph. Ignore small talk.\n"
  const PersonaLead := "Extract persona for "
  const PersonaTail := ". Output short Vietnamese summary (e.g., \"Giới tính: Nam. Bot gọi User: Đại Ca. Tone: Cục súc.\")."
  const MainIntro := "Role: Discord Assistant - Created by It's Russell. \nDefault pronouns: Mình (bot) - Bạn (user), UNLESS [Persona] overrides.\nTone & Behavior: Natural, human-like. NEVER say \"theo dữ liệu...\", \"theo thông tin...\" or \"vì bạn có tính cách...\". Adapt implicitly. If recalling facts, naturally say \"mình nhớ là...\".\nToxic Filter: If [Req] contains severe toxic words in vietnamese or English (fuck, chó đẻ, cc, etc.), playfully roast them or gently refuse. Do not fulfill malicious requests.\n\n[Context]\n"
  const MainRules := "\n\n[Rules]\n1. Answer concisely in Vietnamese following the Persona.\n2. Output strict XML.\n3. <memory> tag: Write a short summary of NEW user facts. Put \"IGNORE\" if no new facts, if user uses toxicity, claims facts about others, or forces fake bot personas.\n4. <react> tag: ONLY output ONE emoji if the user's message is HIGHLY emotional (truly sad, extremely funny, very angry, or deeply serious). For normal, casual, or informational chat, YOU MUST LEAVE THIS TAG COMPLETELY EMPTY. Do not spam reactions.\n\n"

  // ---------------------------------------------------------------------
  // The builders
  // ---------------------------------------------------------------------

  /** `dailyPrompt(pastTopics)`. */
  function DailyPrompt(pastTopics: string): string {
    DailyIntro + "[ " + pastTopics + " ]" + DailyOutro
  }

  /** `cleanAndSummarize(rawText)`. */
  function CleanAndSummarize(rawText: string): string {
    CleanPrefix + rawText
  }

  /** `optimizeQuery(query)`; `AiService` builds its own rewrite prompt instead of this one. */
  function OptimizeQuery(query: string): string {
    OptimizeLead + "\"" + query + "\""
  }

  /** `summarizeHistory(fullHistory)`. */
  function SummarizeHistory(fullHistory: string): string {
    SummarizeLead + "HISTORY:\n" + fullHistory
  }

  /** `analyzePersona(targetUserName, rawInput)`. */
  function AnalyzePersona(targetUserName: string, rawInput: string): string {
    PersonaLead + "\"" + targetUserName + "\" from: \"" + rawInput + "\"" + PersonaTail
  }

  /** The six inputs of `mainChat`. */
  datatype ChatContext = ChatContext(
    userProfile: string,
    personaContext: string,
    serverContext: string,
    shortTermHistory: string,
    historyContext: string,
    userMessage: string)

  /** The `[Context]` and `[Req]` lines: the six inputs, each behind its label, in this order. */
  function ContextBlock(d: ChatContext): string {
    "User: " + d.userProfile
      + "\nPersona: " + d.personaContext
      + "\nServer: " + d.serverContext
      + "\nShort-term: " + d.shortTermHistory
      + "\nLong-term: " + d.historyContext
      + "\n\n[Req]: " + d.userMessage
  }

  /** An answer laid out the way the main chat prompt asks for. */
  function Answer(reply: string, react: string, memory: string): string {
    "<reply>\n" + reply + "\n</reply>\n<react>\n" + react + "\n</react>\n<memory>\n" + memory + "\n</memory>"
  }

  const Skeleton := Answer(ResponsePlaceholder, ReactPlaceholder, MemoryPlaceholder)

  /** `mainChat(data)`. */
  function MainChat(d: ChatContext): string {
    MainIntro + ContextBlock(d) + MainRules + Skeleton
  }

  // ---------------------------------------------------------------------
  // Where the arguments go
  // ---------------------------------------------------------------------

  /** Text placed between two others occurs right after the first. */
  lemma OccursBetween(a: string, x: string, b: string)
    ensures OccursAt(a + x + b, x, |a|)
  {
    assert (a + x + b)[|a|..|a| + |x|] == x;
  }

  /** The cleaning prompt is its fixed instruction followed by the raw data, which can be read back off it. */
  lemma CleanAndSummarizeLayout(rawText: string, other: string)
    ensures CleanAndSummarize(rawText)[..|CleanPrefix|] == CleanPrefix
    ensures CleanAndSummarize(rawText)[|CleanPrefix|..] == rawText
    ensures CleanAndSummarize(rawText) == CleanAndSummarize(other) <==> rawText == other
  {
    assert CleanAndSummarize(other)[|CleanPrefix|..] == other;
  }

  /** The compaction prompt ends with `HISTORY:` on a line of its own followed by the history. */
  lemma SummarizeHistoryLayout(fullHistory: string)
    ensures var p := SummarizeHistory(fullHistory);
      |p| >= |fullHistory| + 9 && p[|p| - |fullHistory| - 9..] == "HISTORY:\n" + fullHistory
  {
    var p := SummarizeHistory(fullHistory);
    assert p == SummarizeLead + ("HISTORY:\n" + fullHistory);
  }

  /** The past topics sit between `[ ` and ` ]`, and different topic histories give different prompts. */
  lemma DailyPromptLayout(pastTopics: string, other: string)
    ensures OccursAt(DailyPrompt(pastTopics), "[ " + pastTopics + " ]", |DailyIntro|)
    ensures DailyPrompt(pastTopics) == DailyPrompt(other) <==> pastTopics == other
  {
    Bracketed(DailyIntro, DailyOutro, pastTopics, other);
  }

  lemma Bracketed(intro: string, outro: string, x: string, y: string)
    ensures OccursAt(intro + "[ " + x + " ]" + outro, "[ " + x + " ]", |intro|)
    ensures intro + "[ " + x + " ]" + outro == intro + "[ " + y + " ]" + outro <==> x == y
  {
    assert intro + "[ " + x + " ]" + outro == intro + ("[ " + x + " ]") + outro;
    assert intro + "[ " + y + " ]" + outro == intro + ("[ " + y + " ]") + outro;
    OccursBetween(intro, "[ " + x + " ]", outro);
    InfixCancel(intro, "[ " + x + " ]", "[ " + y + " ]", outro);
    InfixCancel("[ ", x, y, " ]");
  }

  /** Equal texts with equal surroundings have equal middles. */
  lemma InfixCancel(a: string, x: string, y: string, b: string)
    ensures a + x + b == a + y + b <==> x == y
  {
    if a + x + b == a + y + b {
      assert |x| == |y|;
      assert x == (a + x + b)[|a|..|a| + |x|];
      assert y == (a + y + b)[|a|..|a| + |y|];
    }
  }

  /** The persona prompt quotes both the user's name and the raw description. */
  lemma AnalyzePersonaQuotes(targetUserName: string, rawInput: string)
    ensures Contains(AnalyzePersona(targetUserName, rawInput), "\"" + targetUserName + "\"")
    ensures Contains(AnalyzePersona(targetUserName, rawInput), "\"" + rawInput + "\"")
  {
    var p := AnalyzePersona(targetUserName, rawInput);
    var name := "\"" + targetUserName + "\"";
    var input := "\"" + rawInput + "\"";
    assert p == PersonaLead + name + (" from: " + input + PersonaTail);
    ContainsInfix(PersonaLead, name, " from: " + input + PersonaTail);
    assert p == (PersonaLead + name + " from: ") + input + PersonaTail;
    ContainsInfix(PersonaLead + name + " from: ", input, PersonaTail);
  }

  /** The query of `optimizeQuery` closes the prompt, in double quotes. */
  lemma OptimizeQueryLayout(query: string)
    ensures var p := OptimizeQuery(query);
      |p| >= |query| + 2 && p[|p| - |query| - 2..] == "\"" + query + "\""
  {
    var p := OptimizeQuery(query);
    assert p == OptimizeLead + ("\"" + query + "\"");
  }

  /**
   * The main chat prompt shows its six inputs, each behind its label, in the
   * order User, Persona, Server, Short-term, Long-term, Req, and closes with
   * the answer skeleton.
   */
  lemma MainChatLayout(d: ChatContext)
    ensures OccursAt(MainChat(d), ContextBlock(d), |MainIntro|)
    ensures var p := MainChat(d); |p| >= |Skeleton| && p[|p| - |Skeleton|..] == Skeleton
  {
    Framed(MainIntro, ContextBlock(d), MainRules, Skeleton);
  }

  lemma Framed(a: string, x: string, b: string, c: string)
    ensures OccursAt(a + x + b + c, x, |a|)
    ensures var p := a + x + b + c; |p| >= |c| && p[|p| - |c|..] == c
  {
    assert a + x + b + c == a + x + (b + c);
    OccursBetween(a, x, b + c);
    assert a + x + b + c == (a + x + b) + c;
  }

  // ---------------------------------------------------------------------
  // The answer protocol
  // ---------------------------------------------------------------------

  function ReplyPart(reply: string): string { "<reply>\n" + reply + "\n</reply>\n" }
  function ReactPart(react: string): string { "<react>\n" + react + "\n</react>\n" }

  lemma NoReactOpenInReply(reply: string)
    requires '<' !in reply
    ensures forall k :: 0 <= k < |ReplyPart(reply)| ==> !OccursAt(ReplyPart(reply) + OpenTag("react"), OpenTag("react"), k)
  {
    var pat := OpenTag("react");
    var t := ReplyPart(reply) + pat;
    var n := |reply|;
    assert t == "<reply>\n" + reply + ("\n</reply>\n" + pat);
    forall k | 0 <= k < |ReplyPart(reply)| ensures !OccursAt(t, pat, k) {
      if k == 0 {
        Mismatch(t, pat, 0, 3);
      } else if k < 8 {
        Mismatch(t, pat, k, 0);
      } else if k < 8 + n {
        assert t[k] == reply[k - 8];
        Mismatch(t, pat, k, 0);
      } else if k == 9 + n {
        Mismatch(t, pat, k, 1);
      } else {
        Mismatch(t, pat, k, 0);
      }
    }
  }

  lemma NoMemoryOpenBefore(reply: string, react: string)
    requires '<' !in reply && '<' !in react
    ensures var pre := ReplyPart(reply) + ReactPart(react);
      forall k :: 0 <= k < |pre| ==> !OccursAt(pre + OpenTag("memory"), OpenTag("memory"), k)
  {
    var pat := OpenTag("memory");
    var pre := ReplyPart(reply) + ReactPart(react);
    var t := pre + pat;
    var n, m := |reply|, |react|;
    assert t == "<reply>\n" + reply + "\n</reply>\n<react>\n" + react + ("\n</react>\n" + pat);
    forall k | 0 <= k < |pre| ensures !OccursAt(t, pat, k) {
      if k < 8 {
        if k == 0 { Mismatch(t, pat, k, 1); } else { Mismatch(t, pat, k, 0); }
      } else if k < 8 + n {
        assert t[k] == reply[k - 8];
        Mismatch(t, pat, k, 0);
      } else if k < 26 + n {
        if k == 9 + n || k == 18 + n { Mismatch(t, pat, k, 1); } else { Mismatch(t, pat, k, 0); }
      } else if k < 26 + n + m {
        assert t[k] == react[k - 26 - n];
        Mismatch(t, pat, k, 0);
      } else {
        if k == 27 + n + m { Mismatch(t, pat, k, 1); } else { Mismatch(t, pat, k, 0); }
      }
    }
  }

  lemma ReplyFirst(reply: string, tail: string)
    ensures "<reply>\n" + reply + ("\n</reply>" + tail) == [] + OpenTag("reply") + ("\n" + reply + "\n") + CloseTag("reply") + tail
  {
  }

  /** `<reply>` of a laid-out answer is found around the first field. */
  lemma AnswerReply(reply: string, react: string, memory: string)
    requires '<' !in reply
    ensures ExtractTag(Answer(reply, react, memory), "reply") == Some("\n" + reply + "\n")
  {
    var after := "\n<react>\n" + react + "\n</react>\n<memory>\n" + memory + "\n</memory>";
    assert Answer(reply, react, memory) == "<reply>\n" + reply + ("\n</reply>" + after);
    ReplyFirst(reply, after);
    ExtractTagAfter([], "reply", "\n" + reply + "\n", after);
  }

  /** `<react>` of a laid-out answer is found around the second field. */
  lemma AnswerReact(reply: string, react: string, memory: string)
    requires '<' !in reply && '<' !in react
    ensures ExtractTag(Answer(reply, react, memory), "react") == Some("\n" + react + "\n")
  {
    var after := "\n<memory>\n" + memory + "\n</memory>";
    assert Answer(reply, react, memory) == ReplyPart(reply) + OpenTag("react") + ("\n" + react + "\n") + CloseTag("react") + after;
    NoReactOpenInReply(reply);
    ExtractTagSkipping(ReplyPart(reply), "react", "\n" + react + "\n", after);
  }

  /** `<memory>` of a laid-out answer is found around the third field. */
  lemma AnswerMemory(reply: string, react: string, memory: string)
    requires '<' !in reply && '<' !in react && '<' !in memory
    ensures ExtractTag(Answer(reply, react, memory), "memory") == Some("\n" + memory + "\n")
  {
    var pre := ReplyPart(reply) + ReactPart(react);
    assert Answer(reply, react, memory) == pre + OpenTag("memory") + ("\n" + memory + "\n") + CloseTag("memory") + [];
    NoMemoryOpenBefore(reply, react);
    ExtractTagSkipping(pre, "memory", "\n" + memory + "\n", []);
  }

  /**
   * An answer laid out as the main chat prompt asks, with no `<` inside its
   * fields, yields its three fields, trimmed.
   */
  lemma AnswerParses(reply: string, react: string, memory: string)
    requires '<' !in reply && '<' !in react && '<' !in memory
    ensures ParseChatTags(Answer(reply, react, memory)) == ChatTags(Trim(reply), Trim(react), Trim(memory))
  {
    AnswerReply(reply, react, memory);
    AnswerReact(reply, react, memory);
    AnswerMemory(reply, react, memory);
    assert AllSpace("\n");
    TrimPadded("\n", reply, "\n");
    TrimPadded("\n", react, "\n");
    TrimPadded("\n", memory, "\n");
  }

  const ResponsePlaceholder := "(response)"
  const ReactPlaceholder := "(emoji or empty)"
  const MemoryPlaceholder := "(summary or IGNORE)"

  lemma PlaceholdersTrimmed()
    ensures '<' !in ResponsePlaceholder && '<' !in ReactPlaceholder && '<' !in MemoryPlaceholder
    ensures Trim(ResponsePlaceholder) == ResponsePlaceholder
    ensures Trim(ReactPlaceholder) == ReactPlaceholder
    ensures Trim(MemoryPlaceholder) == MemoryPlaceholder
  {
    ResponseTrimmed();
    ReactTrimmed();
    MemoryTrimmed();
  }

  lemma ResponseTrimmed()
    ensures '<' !in ResponsePlaceholder && Trim(ResponsePlaceholder) == ResponsePlaceholder
  {
    TrimOfTrimmed(ResponsePlaceholder);
  }

  lemma ReactTrimmed()
    ensures '<' !in ReactPlaceholder && Trim(ReactPlaceholder) == ReactPlaceholder
  {
    TrimOfTrimmed(ReactPlaceholder);
  }

  lemma MemoryTrimmed()
    ensures '<' !in MemoryPlaceholder && Trim(MemoryPlaceholder) == MemoryPlaceholder
  {
    TrimOfTrimmed(MemoryPlaceholder);
  }

  lemma MemoryPlaceholderIgnored()
    ensures Contains(MemoryPlaceholder, IgnoreSentinel)
  {
    ContainsInfix("(summary or ", IgnoreSentinel, ")");
    assert "(summary or " + IgnoreSentinel + ")" == MemoryPlaceholder;
  }

  /** A model that echoes the skeleton unchanged gets its placeholders back, and its memory field says `IGNORE`. */
  lemma SkeletonEcho(raw: string)
    requires raw == Skeleton
    ensures ParseChatTags(raw) == ChatTags(ResponsePlaceholder, ReactPlaceholder, MemoryPlaceholder)
    ensures Contains(ParseChatTags(raw).memory, IgnoreSentinel)
  {
    PlaceholdersTrimmed();
    AnswerParses(ResponsePlaceholder, ReactPlaceholder, MemoryPlaceholder);
    MemoryPlaceholderIgnored();
  }
}

# Tiered memory of a Discord chat bot, in Dafny

The bot answers Discord users with a language model. Each answer is built
from several memories:

- **Short-term:** a Redis list per user, holding the last 20 turns of chat.
- **Long-term:** three Chroma vector collections.
  - `profile` holds the user profile and persona records.
  - `history` holds facts remembered about users, which are compacted into a summary at 50.
  - `server-info` holds one knowledge record per guild.
- **Live profile:** a profile built from the Discord member on every request.

The model covers five parts:

- `AiService`: profile sync, query rewrite, prompt assembly, tag parsing, memory write and compaction, personas, server refresh, forum comments.
- `RedisService`: the turn buffer and the daily-fact topic list.
- `DailyFactService`: the channel list, the unique-fact generation and the broadcast.
- `AiPrompts`: the prompt builders.
- The parts of `BotService` that decide what happens to a request: the admission gate (length limit, one request in flight per user), `/chat`, natural chat and `/setinfo`.

Each stateful service is a Dafny `class` whose fields are its stores:

- A Chroma collection is `VectorStore.Collection` with a `seq<Doc>`.
- The Redis server is `Redis.RedisStore` with a map of lists and a map of expiries.
- The bot keeps its in-flight set and an outbox of Discord actions.

Every method is proved against a specification function on those values:

- `SyncedProfiles`, `PersonaSet`, `Compacted` and `HistoryHandled` for the memory tiers;
- `PushBounded` and `PushTopic` for the Redis lists;
- `ChatPrompt` for the main prompt;
- `ChatActions` and `NaturalActions` for what the bot posts.

Lemmas then prove what the system promises about those functions. The model is built from:

- **The language models:** `Content.Model`, a total function from prompt to `Generated(content)` or `Failed(message)`. A thrown model error is a `Failed` value that is passed on as the `Failure` of a `Result`.
- **Similarity search:** a nondeterministic choice of `min(k, n)` of the `n` matching documents (`VectorStore.IsSearchResult`), because embeddings are not modelled.
- **The Redis entries:** real `JSON.stringify` strings (`TurnCodec`), with a decoder for the shape written.
- **Strings:** `seq<char>`, one character per Unicode scalar value. A character outside the Basic Multilingual Plane is one character here, where JavaScript counts two UTF-16 code units.

Modules, in dependency order:

- `Wrappers`: `Option`, `Result`.
- `Seqs`: small sequence lemmas.
- `Text`: `trim`, `split`, `join`, `indexOf`, `includes`, `toLowerCase`.
- `Tags`: the `/<tag>([\s\S]*?)<\/tag>/` extraction.
- `Content`: model-message content and its normalisers.
- `VectorStore`
- `Prompts`
- `TurnCodec`
- `Redis`
- `Ai`
- `DailyFact`
- `Bot`

Where the code and the system's own description differ, the model follows the code:

- **Query rewrite:** `optimizeQuery` sends its own rewrite prompt (`ai.service.ts:155`), not `AiPrompts.optimizeQuery`. `Prompts.OptimizeQuery` models the unused builder, and `Ai.RewritePrompt` models the prompt that is actually sent.
- **Profile lookup and delete:** both filter by `{ userId }` alone, so the lookup can return the user's persona record as their "profile". When that happens, the sync deletes the persona (`Ai.SyncMayReadPersona`).
- **`parseContent` and the inline normaliser differ:** `parseContent` writes the `text` field of an object part even when it is not a string. The inline normaliser used by the other operations drops such a part (`Content.NumericTextDiffers`).
- **Compaction deletes every memory:** it deletes all of the user's memories, not only the 100 it read (`Ai.CompactionDropsUnread`).
- **`IGNORE` is a substring test:** any memory text containing `IGNORE` is dropped (`Ai.IgnoreIsSubstring`).
- **An empty persona counts as missing:** it falls back to the default persona, as in JavaScript truthiness (`Ai.PersonaContext`).

## Model

| member | source | states |
|---|---|---|
| Text.Trim | src/ai/ai.service.ts:87 | the result neither starts nor ends with whitespace |
| Text.TrimStart | src/ai/ai.service.ts:87 | the result is a suffix of the input, only whitespace was dropped, and it does not start with whitespace |
| Text.TrimEnd | src/ai/ai.service.ts:87 | the result is a prefix of the input, only whitespace was dropped, and it does not end with whitespace |
| Text.TrimIsMiddle | src/ai/ai.service.ts:87 | `trim` keeps a middle part of the string with only whitespace on either side |
| Text.TrimOfTrimmed | src/ai/ai.service.ts:87 | a string with no whitespace at either end is left unchanged by `trim` |
| Text.TrimIdempotent | src/ai/ai.service.ts:171 | trimming twice is trimming once |
| Text.TrimEmptyIff | src/ai/ai.service.ts:171 | a string trims to empty exactly when it is all whitespace (the `trim() \|\| query` fallback condition) |
| Text.TrimStartSpacePrefix | src/ai/ai.service.ts:87 | leading whitespace does not change `trimStart` |
| Text.TrimStartAppend | src/ai/ai.service.ts:87 | text appended after a non-blank string survives `trimStart` unchanged |
| Text.TrimEndSpaceSuffix | src/ai/ai.service.ts:87 | trailing whitespace does not change `trimEnd` |
| Text.AllSpaceTrimStart | src/ai/ai.service.ts:87 | an all-whitespace string trims to nothing |
| Text.TrimPadded | src/ai/ai.service.ts:87 | whitespace padding on both sides does not change `trim` |
| Text.Join | src/ai/ai.service.ts:191-193 | joining no parts gives the empty string; joining one part gives that part |
| Text.Split | src/ai/daily-fact.service.ts:24-25 | `split` always yields at least one part |
| Text.SplitPartsFree | src/ai/daily-fact.service.ts:24-25 | no part of a split contains the separator |
| Text.JoinSplit | src/ai/daily-fact.service.ts:24-25 | joining the parts of a split with the separator gives back the input |
| Text.SplitJoin | src/ai/daily-fact.service.ts:24-25 | splitting a join of separator-free parts gives back the parts |
| Text.SplitNoSep | src/ai/daily-fact.service.ts:24-25 | a string without the separator splits into itself |
| Text.SplitPrefix | src/ai/daily-fact.service.ts:24-25 | a separator-free head is the first part, followed by the parts of the rest |
| Text.IndexOfSpec | src/ai/ai.service.ts:254 | `indexOf` returns the first occurrence at or after the start index, and returns none only when there is no occurrence |
| Text.ContainsIff | src/ai/ai.service.ts:254 | `includes` holds exactly when the pattern occurs at some index |
| Text.ContainsInfix | src/ai/ai.service.ts:254 | a string contains every one of its infixes |
| Text.ContainsAfter | src/ai/ai.service.ts:254 | putting text in front of a string keeps every substring it contains |
| Text.IndexOf | src/ai/ai.service.ts:224-226 | defines `indexOf` from a start index; `IndexOfSpec` proves it is the first occurrence and none exactly when there is none |
| Text.Contains | src/ai/ai.service.ts:254 | defines `includes` as a search from index 0; `ContainsIff` proves it holds exactly when the pattern occurs somewhere |
| Text.LowerChar | src/bot/bot.service.ts:375 | defines the one-character case map used by `toLowerCase`: ASCII, Latin-1 and the Vietnamese capitals, every other character unchanged |
| Text.ToLower | src/bot/bot.service.ts:375 | defines `toLowerCase` as the character map `LowerChar` applied to each character, keeping the length; `ToLowerIdempotent` and `ToLowerOfLower` prove its properties |
| Text.LowerCharIdempotent | src/bot/bot.service.ts:375 | a lower-cased character is unchanged by lower-casing again |
| Text.ToLowerIdempotent | src/bot/bot.service.ts:375 | lower-casing twice is lower-casing once |
| Text.ToLowerOfLower | src/bot/bot.service.ts:375 | a string whose every character is already lower-case is left unchanged |
| Tags.MatchSpan | src/ai/ai.service.ts:224-226 | a found span lies inside the text, and its opening tag fits before the closing tag |
| Tags.MatchSpanIsLeftmostLazy | src/ai/ai.service.ts:224-226 | the span found is exactly the regular expression's leftmost, lazy match, and no span is found only when there is no match |
| Tags.LeftmostLazyUnique | src/ai/ai.service.ts:224-226 | the leftmost lazy match is unique, so the capture group is determined |
| Tags.ExtractTag | src/ai/ai.service.ts:224-226 | defines the capture group of `/<name>([\s\S]*?)<\/name>/` through the span found; `MatchSpanIsLeftmostLazy` and `ExtractAt` prove it is the regular expression's match |
| Tags.IndexOfAt | src/ai/ai.service.ts:224-226 | `indexOf` returns a position where the pattern occurs and does not occur earlier |
| Tags.NoTagWithoutLt | src/ai/ai.service.ts:228-230 | text without `<` holds no tag |
| Tags.ExtractAt | src/ai/ai.service.ts:224-226 | the capture group runs from the end of the first opening tag to the first closing tag after it |
| Tags.ExtractTagSkipping | src/ai/ai.service.ts:224-226 | a tag wrapped around `<`-free text is extracted as that text when no earlier opening tag exists |
| Tags.ExtractTagAfter | src/ai/ai.service.ts:224-226 | a tag wrapped around `<`-free text, after `<`-free text, is extracted as that text |
| Tags.ParseChatTags | src/ai/ai.service.ts:224-230 | each of reply, react and memory is its tag's trimmed capture group; a missing tag falls back to the raw text, `''` or `IGNORE` respectively |
| Tags.UntaggedFallbacks | src/ai/ai.service.ts:228-230 | an answer without `<` gives the raw text as reply, no reaction and `IGNORE` |
| Tags.ParseFactTags | src/ai/daily-fact.service.ts:65-76 | a fact exists exactly when both the topic and content tags match; each field is its tag's capture group, trimmed |
| Content.ParseContentAppend | src/ai/ai.service.ts:428-442 | `parseContent` of a part array distributes over concatenation of the array |
| Content.ParseContentStrings | src/ai/ai.service.ts:428-442 | an array of strings normalises to their concatenation |
| Content.JoinPartsAgrees | src/ai/ai.service.ts:213-222 | when every `text` field is a string, the inline normaliser and `parseContent` give the same text |
| Content.NumericTextDiffers | src/ai/ai.service.ts:428-442 | an object part with a numeric `text` field is written out by `parseContent` and dropped by the inline normaliser |
| Content.JoinTextsIsConcat | src/ai/ai.service.ts:160-169 | joining the parts with `''` is their concatenation |
| Content.PartText | src/ai/ai.service.ts:433-438 | defines one array element in `parseContent`: a string as is, an object's `text` written out by `join`, anything else `''` |
| Content.ParseContent | src/ai/ai.service.ts:428-442 | defines `parseContent` (also `daily-fact.service.ts:37-51`, the same code): a string as is, an array as its parts' texts concatenated, anything else `''`; `ParseContentAppend` and `ParseContentStrings` prove its properties |
| Content.InlinePartText | src/ai/ai.service.ts:217-221 | defines one part in the inline normaliser over a string or object part, the only parts the source accepts without throwing |
| Content.JoinParts | src/ai/ai.service.ts:213-222 | defines the inline normaliser with its separator (`'\n'` at 76-85, `''` at 160-169 and 213-222); `JoinPartsAgrees` and `NumericTextDiffers` relate it to `parseContent` |
| VectorStore.InMatching | src/ai/ai.service.ts:195-199 | a document is among the matches exactly when it is stored and matches |
| VectorStore.InWithout | src/ai/ai.service.ts:93 | a document survives `delete({filter})` exactly when it is stored and does not match |
| VectorStore.MatchingAppend | src/ai/ai.service.ts:98-107 | the matches of appended documents are the old matches followed by the new ones |
| VectorStore.WithoutAppend | src/ai/ai.service.ts:93 | a delete acts on each part of the store independently |
| VectorStore.DeletePartitions | src/ai/ai.service.ts:93 | the deleted and the kept documents together are the whole store, as a multiset |
| VectorStore.WithoutRemoves | src/ai/ai.service.ts:93 | after deleting by a filter, no document matches any filter narrower than it |
| VectorStore.WithoutKeeps | src/ai/ai.service.ts:93 | a delete leaves alone the documents of a disjoint filter |
| VectorStore.WithoutIdempotent | src/ai/ai.service.ts:93 | deleting twice by a filter is deleting once |
| VectorStore.WithoutShrinks | src/ai/ai.service.ts:93 | a delete never adds matches of any filter |
| VectorStore.SearchResultExists | src/ai/ai.service.ts:187-190 | some search answer always exists, e.g. the first `min(k, n)` matches |
| VectorStore.SearchResultMatches | src/ai/ai.service.ts:195-199 | every document a search returns is stored and matches its filter |
| VectorStore.SearchEmptyIff | src/ai/ai.service.ts:115-117 | a search with `k >= 1` is empty exactly when nothing matches |
| VectorStore.SearchSingle | src/ai/ai.service.ts:313-328 | when exactly one document matches, a search with `k >= 1` returns exactly that document |
| VectorStore.Collection.constructor | src/ai/ai.service.ts:55-67 | a new collection is empty |
| VectorStore.Collection.AddDocuments | src/ai/ai.service.ts:98-107 | `addDocuments` appends the documents |
| VectorStore.Collection.Delete | src/ai/ai.service.ts:93 | `delete({filter})` leaves exactly the non-matching documents, in order |
| VectorStore.Collection.SimilaritySearch | src/ai/ai.service.ts:187-190 | the answer is `min(k, n)` of the matching documents, each at most as often as stored |
| Prompts.CleanAndSummarizeLayout | src/ai/ai.prompts.ts:22-23 | the cleaning prompt is its fixed instruction followed by the raw data, and different data gives different prompts |
| Prompts.SummarizeHistoryLayout | src/ai/ai.prompts.ts:28-29 | the compaction prompt ends with a `HISTORY:` line followed by the history |
| Prompts.DailyPromptLayout | src/ai/ai.prompts.ts:2-21 | the past topics sit between `[ ` and ` ]`, and different topic histories give different prompts |
| Prompts.AnalyzePersonaQuotes | src/ai/ai.prompts.ts:31-32 | the persona prompt contains both the quoted user name and the quoted raw description |
| Prompts.OptimizeQueryLayout | src/ai/ai.prompts.ts:25-26 | the unused rewrite builder ends with the query in double quotes |
| Prompts.MainChatLayout | src/ai/ai.prompts.ts:34-69 | the main prompt has the six context fields, labelled and in order, right after its introduction, and ends with the answer skeleton |
| Prompts.AnswerReply | src/ai/ai.prompts.ts:61-69 | in an answer laid out as the skeleton asks, `<reply>` is found around the first field |
| Prompts.AnswerReact | src/ai/ai.prompts.ts:61-69 | in such an answer, `<react>` is found around the second field |
| Prompts.AnswerMemory | src/ai/ai.prompts.ts:61-69 | in such an answer, `<memory>` is found around the third field |
| Prompts.AnswerParses | src/ai/ai.prompts.ts:61-69 | an answer in the skeleton's layout with `<`-free fields parses back to those fields, trimmed |
| Prompts.PlaceholdersTrimmed | src/ai/ai.prompts.ts:61-69 | the skeleton's placeholders have no surrounding whitespace |
| Prompts.MemoryPlaceholderIgnored | src/ai/ai.prompts.ts:61-69 | the memory placeholder contains `IGNORE` |
| Prompts.SkeletonEcho | src/ai/ai.prompts.ts:61-69 | a model that echoes the skeleton gets its placeholders back, and nothing is remembered |
| Prompts.DailyPrompt | src/ai/ai.prompts.ts:2-21 | defines the fact prompt around the past topics; `DailyPromptLayout` proves where they sit |
| Prompts.CleanAndSummarize | src/ai/ai.prompts.ts:22-23 | defines the cleaning prompt; `CleanAndSummarizeLayout` proves its layout |
| Prompts.OptimizeQuery | src/ai/ai.prompts.ts:25-26 | defines the unused rewrite builder; `OptimizeQueryLayout` proves its layout |
| Prompts.SummarizeHistory | src/ai/ai.prompts.ts:28-29 | defines the compaction prompt; `SummarizeHistoryLayout` proves its layout |
| Prompts.AnalyzePersona | src/ai/ai.prompts.ts:31-32 | defines the persona prompt; `AnalyzePersonaQuotes` proves what it quotes |
| Prompts.MainChat | src/ai/ai.prompts.ts:34-69 | defines the main chat prompt; `MainChatLayout` proves its fields and skeleton |
| TurnCodec.HexRoundTrip | src/ai/redis.service.ts:35 | a hex digit reads back as its value |
| TurnCodec.ParseQuoted | src/ai/redis.service.ts:48 | a successful read of a quoted string consumes at least its closing quote |
| TurnCodec.ParseEscaped | src/ai/redis.service.ts:35 | every string's `JSON.stringify` quoting reads back as that string, leaving what follows the closing quote |
| TurnCodec.DecodeEncode | src/ai/redis.service.ts:35 | every stored turn, `JSON.stringify({role, content})`, is read back by `JSON.parse` as that turn |
| TurnCodec.EncodeTurn | src/ai/redis.service.ts:35 | defines `JSON.stringify({ role, content })` with its escapes; `DecodeEncode` proves it reads back |
| TurnCodec.DecodeTurn | src/ai/redis.service.ts:51 | defines `JSON.parse` for the layout `EncodeTurn` writes, none for any other text; `DecodeEncode` proves it inverts `EncodeTurn` |
| Redis.Slice | src/ai/redis.service.ts:38-39 | `LRANGE`/`LTRIM` with negative indices select a contiguous range of the list |
| Redis.SliceAll | src/ai/redis.service.ts:48 | `LRANGE key 0 -1` is the whole list |
| Redis.SliceLast | src/ai/redis.service.ts:39 | `LTRIM key -n -1` keeps the newest `n` elements |
| Redis.SliceFirst | src/ai/redis.service.ts:59 | `LTRIM key 0 n-1` keeps the oldest `n` elements |
| Redis.RedisStore.constructor | src/ai/redis.service.ts:9-15 | a new server has no keys |
| Redis.RedisStore.RPush | src/ai/redis.service.ts:38 | `RPUSH` appends to the list, creating it when missing, and changes nothing else |
| Redis.RedisStore.LPush | src/ai/redis.service.ts:58 | `LPUSH` prepends to the list, creating it when missing, and changes nothing else |
| Redis.RedisStore.LTrim | src/ai/redis.service.ts:39 | `LTRIM` keeps the selected range; a list trimmed to nothing is deleted with its expiry |
| Redis.RedisStore.Expire | src/ai/redis.service.ts:40 | `EXPIRE` sets the expiry of an existing key, and of no other key |
| Redis.ChatKeysDistinct | src/ai/redis.service.ts:26 | different users have different chat buffers, and no chat buffer is the topic list |
| Redis.SafeContent | src/ai/redis.service.ts:27-33 | content of up to 800 characters is stored as it is; longer content keeps its first 800 characters followed by the truncation mark |
| Redis.SafeContentIdempotent | src/ai/redis.service.ts:27-33 | truncating stored content again changes nothing |
| Redis.PushBoundedKeepsNewest | src/ai/redis.service.ts:38-39 | after a push, the buffer holds at most 20 entries: the new entry last, preceded by the newest of the old ones |
| Redis.PushBounded | src/ai/redis.service.ts:38-39 | defines the buffer after `RPUSH` and `LTRIM key -20 -1`; `PushBoundedKeepsNewest` proves its bound and order |
| Redis.DecodeAll | src/ai/redis.service.ts:48-54 | a decoded list has one turn per entry |
| Redis.DecodeAllIff | src/ai/redis.service.ts:48-54 | a list decodes exactly when each of its entries does |
| Redis.ChatBuffersUpdate | src/ai/redis.service.ts:38-40 | writing a readable buffer, or writing under a key that is not a chat key, keeps every chat buffer readable |
| Redis.PushBoundedDecodes | src/ai/redis.service.ts:38-39 | pushing a readable entry keeps the buffer readable |
| Redis.DecodeAllEncoded | src/ai/redis.service.ts:35 | a list of stored turns decodes back to those turns |
| Redis.RenderEncoded | src/ai/redis.service.ts:45-55 | a buffer written by `addMessage` renders as one `User:`/`Bot:` line per turn, joined by newlines |
| Redis.RenderHistory | src/ai/redis.service.ts:45-55 | defines `getRecentHistory`'s text for a stored list; `RenderEncoded` proves what a buffer written by `addMessage` renders as |
| Redis.JoinContains | src/ai/redis.service.ts:67 | every element of a list occurs in its join |
| Redis.FactHistoryText | src/ai/redis.service.ts:64-68 | defines the text of `getFactHistory`, the topics joined by `, `; the `ensures` prove that no topics gives the fixed notice and that every stored topic appears in the text |
| Redis.PushTopicKeepsNewest | src/ai/redis.service.ts:56-62 | the topic list keeps the 50 newest topics, newest first |
| Redis.PushTopic | src/ai/redis.service.ts:56-62 | defines the topic list after `LPUSH` and `LTRIM key 0 49`; `PushTopicKeepsNewest` proves its bound and order |
| Redis.RedisService.constructor | src/ai/redis.service.ts:9-15 | the service works on the given Redis server |
| Redis.RedisService.AddMessage | src/ai/redis.service.ts:21-43 | the encoded turn with truncated content is pushed to the user's buffer, trimmed to 20 entries, with expiry 3600 seconds; no other key changes and every buffer stays readable |
| Redis.RedisService.GetRecentHistory | src/ai/redis.service.ts:45-55 | returns the rendered lines of the user's buffer; none only for a buffer holding an entry not in the layout `addMessage` writes, which a valid service never has |
| Redis.RedisService.AddFactTopic | src/ai/redis.service.ts:56-62 | the topic goes to the front of the topic list, which keeps its 50 newest; chat buffers are untouched |
| Redis.RedisService.GetFactHistory | src/ai/redis.service.ts:64-68 | returns the text of the stored topic list |
| Ai.PersonaIsUsers | src/ai/ai.service.ts:316-321 | a persona record matches the user's `{ userId }` filter too |
| Ai.UsersDisjoint | src/ai/ai.service.ts:130 | no record matches the filters of two different users, persona filters included |
| Ai.AppendNoPersona | src/ai/ai.service.ts:141-152 | appending a record that is not a persona changes no user's personas |
| Ai.WithoutKeepsOnePersona | src/ai/ai.service.ts:130 | deleting by any filter keeps at most one persona per user |
| Ai.SyncReturnsLive | src/ai/ai.service.ts:111-139 | whichever branch the sync takes, the profile handed to the prompt is the live one |
| Ai.SyncNewUser | src/ai/ai.service.ts:119-123 | a user without records gets exactly one record, holding the live profile |
| Ai.SyncUnchanged | src/ai/ai.service.ts:125-127 | when the record found holds the live profile, nothing is written |
| Ai.SyncChanged | src/ai/ai.service.ts:129-138 | a changed profile deletes all of the user's records and leaves exactly the live profile for them, keeping every other user's |
| Ai.SyncMayReadPersona | src/ai/ai.service.ts:115-130 | a user with only a persona record can have that persona read as the profile and deleted |
| Ai.SyncKeepsOnePersona | src/ai/ai.service.ts:111-139 | the sync keeps at most one persona per user |
| Ai.SyncedProfiles | src/ai/ai.service.ts:111-139 | defines the profile store and the returned profile for each branch of `syncUserProfile`; the `Sync…` lemmas prove its cases |
| Ai.PersonaSetReplaces | src/ai/ai.service.ts:329-378 | after a persona is set, the user has exactly the new persona, other records survive, and other users' personas are unchanged |
| Ai.PersonaSetKeepsOnePersona | src/ai/ai.service.ts:329-378 | setting a persona keeps at most one persona per user |
| Ai.PersonaReadBack | src/ai/ai.service.ts:313-328 | reading a persona straight after setting it returns it |
| Ai.PersonaSet | src/ai/ai.service.ts:355-377 | defines the profile store after a persona is replaced; `PersonaSetReplaces` proves what it keeps and replaces |
| Ai.StoredPersona | src/ai/ai.service.ts:313-328 | defines what `getPersona` returns; `PersonaReadBack` proves it returns a persona just set |
| Ai.PersonaContext | src/ai/ai.service.ts:182-184 | a non-empty persona is used as it is; no persona or an empty one gives the default persona |
| Ai.ServerRefreshReplaces | src/ai/ai.service.ts:90-109 | after a refresh the guild has exactly the one new record, and other guilds keep theirs |
| Ai.ServerRefreshed | src/ai/ai.service.ts:90-109 | defines the server store after a refresh; `ServerRefreshReplaces` proves the guild has exactly the new record |
| Ai.MemoryWriteCases | src/ai/ai.service.ts:248-268 | a memory containing `IGNORE` writes nothing; any other memory adds exactly one record of the user holding it |
| Ai.IgnoreIsSubstring | src/ai/ai.service.ts:254 | a memory that merely contains the word `IGNORE` is dropped too |
| Ai.MemoryWritten | src/ai/ai.service.ts:248-265 | defines the memory store after the write of `handleHistory`; `MemoryWriteCases` proves its two cases |
| Ai.ThresholdIff | src/ai/ai.service.ts:271-275 | the capped read reaches 50 exactly when the user has at least 50 memories |
| Ai.CompactionCases | src/ai/ai.service.ts:269-312 | below the threshold nothing changes; when it runs, a successful summary replaces all of the user's memories with one summary record; other users always keep theirs |
| Ai.CompactionDropsUnread | src/ai/ai.service.ts:295 | with more than 100 memories, compaction also deletes memories the summary never read, leaving one record |
| Ai.Compacted | src/ai/ai.service.ts:269-312 | defines the memory store after `checkAndSummarizeHistory`; `CompactionCases` and `CompactionDropsUnread` prove its cases |
| Ai.HistoryHandled | src/ai/ai.service.ts:248-268 | defines the memory store after `handleHistory` with its compaction; `MemoryWriteCases` and `CompactionCases` prove its parts |
| Ai.OptimizedOrOriginal | src/ai/ai.service.ts:171 | a blank rewrite falls back to the query; otherwise the trimmed, non-empty rewrite is used |
| Ai.ServerQuery | src/ai/ai.service.ts:188 | the server search term is never empty, and is the rewrite whenever that is non-empty |
| Ai.ServerQueryFallback | src/ai/ai.service.ts:171-188 | the `info` fallback happens only for an empty message whose rewrite is blank |
| Ai.ReplyOf | src/ai/ai.service.ts:243-246 | what `chatAI` returns is the parsed reply and reaction of the raw answer |
| Ai.InstructionsDiffer | src/ai/ai.service.ts:385-395 | the three tone instructions are distinct |
| Ai.ToneInstructionIff | src/ai/ai.service.ts:385-395 | two tone strings get the same instruction exactly when they pick the same tone |
| Ai.ToneOf | src/ai/ai.service.ts:385-395 | defines which tone a string picks: exactly `roast` and `deep` pick theirs, every other string the friendly one |
| Ai.ToneInstruction | src/ai/ai.service.ts:385-395 | defines `toneInstruction`; `ToneInstructionIff` proves two strings share it exactly when they pick the same tone |
| Ai.ForumPromptCarries | src/ai/ai.service.ts:397-418 | the forum prompt contains the quoted title, the quoted post and the chosen tone's instruction |
| Ai.ForumPrompt | src/ai/ai.service.ts:397-418 | defines the forum prompt; `ForumPromptCarries` proves what it contains |
| Ai.ForumComment | src/ai/ai.service.ts:379-427 | a model error gives the fixed fallback; otherwise the model's text, trimmed |
| Ai.ForumCommentTrimmed | src/ai/ai.service.ts:420-426 | a forum comment never starts or ends with whitespace, fallback included |
| Ai.PushTwiceKeepsBoth | src/ai/ai.service.ts:232-237 | two bounded pushes leave the two entries last, in order |
| Ai.ExchangeKept | src/ai/ai.service.ts:232-237 | after an exchange, the buffer ends with the user's turn and then the bot's, both truncated, and holds at most 20 entries |
| Ai.TurnsKept | src/ai/ai.service.ts:232-237 | the last two turns of the buffer decode as the exchange's two turns |
| Ai.ChatPromptLayout | src/ai/ai.service.ts:202-209 | the chat prompt carries the profile, the persona or default, the server and history contexts, the short-term history and the message, in order, and ends with the skeleton |
| Ai.ChatPrompt | src/ai/ai.service.ts:202-209 | defines the prompt `chatAI` sends; `ChatPromptLayout` proves its fields and their order |
| Ai.CleanedText | src/ai/ai.service.ts:70-88 | a model error is passed on; otherwise the text is trimmed |
| Ai.CleanedTextOfString | src/ai/ai.service.ts:76-87 | a plain string answer is cleaned to that answer, trimmed |
| Ai.QueryRewrite | src/ai/ai.service.ts:154-172 | a model error is passed on; otherwise the result is the query itself or a non-empty trimmed rewrite, and never empty for a non-empty query |
| Ai.QueryRewriteBlank | src/ai/ai.service.ts:171 | a blank rewrite gives back the query |
| Ai.RewritePrompt | src/ai/ai.service.ts:155 | defines the rewrite prompt `optimizeQuery` sends |
| Ai.AiService.constructor | src/ai/ai.service.ts:22-68 | the service starts valid over the given models, three distinct collections and Redis |
| Ai.AiService.RefreshServerMemory | src/ai/ai.service.ts:90-109 | the guild's knowledge is replaced by the cleaned text, and the result is the success notice |
| Ai.AiService.SaveProfileToDb | src/ai/ai.service.ts:141-152 | exactly one profile record of the user is appended |
| Ai.AiService.SyncUserProfile | src/ai/ai.service.ts:111-139 | the lookup is a `k = 1` search by user; the new profile store and the returned profile are `SyncedProfiles` of it |
| Ai.AiService.GetPersona | src/ai/ai.service.ts:313-328 | returns the user's stored persona, and none when there is none |
| Ai.AiService.AnalyzeAndSetPersona | src/ai/ai.service.ts:329-378 | a model error changes nothing and is passed on; otherwise the model's untrimmed text replaces the user's persona and is returned |
| Ai.AiService.CheckAndSummarizeHistory | src/ai/ai.service.ts:269-312 | the capped read is a `k = 100` search by user, and the memory store becomes `Compacted` of it |
| Ai.AiService.HandleHistory | src/ai/ai.service.ts:248-268 | an ignored memory writes nothing; otherwise the memory record is added and compaction runs |
| Ai.AiService.StoreExchange | src/ai/ai.service.ts:232-241 | the user's buffer gets both turns with a one-hour expiry, then the memory is handled |
| Ai.AiService.BuildPrompt | src/ai/ai.service.ts:181-209 | the prompt is `ChatPrompt` of the stored persona, a `k = 3` server search, a `k = 5` history search and the rendered buffer |
| Ai.AiService.Respond | src/ai/ai.service.ts:181-246 | a model error changes no store; otherwise the tags are parsed, the exchange is stored, and the reply is returned |
| Ai.AiService.ChatAI | src/ai/ai.service.ts:174-247 | the profile sync always happens; a rewrite error is passed on before the prompt; otherwise the prompt is built from the stores and a model answer is stored and returned as its parsed reply and reaction |
| DailyFact.CleanedMembers | src/ai/daily-fact.service.ts:24-27 | an ID is listed exactly when it is the non-empty trimmed form of some part |
| DailyFact.ChannelsShape | src/ai/daily-fact.service.ts:22-27 | every parsed channel ID is non-empty, trimmed and comma-free |
| DailyFact.CleanedOfClean | src/ai/daily-fact.service.ts:24-27 | IDs that are already clean pass through unchanged |
| DailyFact.ChannelsRoundTrip | src/ai/daily-fact.service.ts:22-27 | writing clean IDs with commas and parsing them back gives the list |
| DailyFact.CleanedSkips | src/ai/daily-fact.service.ts:24-27 | a blank part contributes nothing, and spaces around an ID are dropped |
| DailyFact.ChannelsSkipBlanks | src/ai/daily-fact.service.ts:22-27 | `" a , ,b"` lists exactly `a` and `b` |
| DailyFact.ParseChannels | src/ai/daily-fact.service.ts:22-27 | defines the target channels of the setting; `ChannelsShape`, `CleanedMembers` and `ChannelsRoundTrip` prove its properties |
| DailyFact.FactFor | src/ai/daily-fact.service.ts:53-81 | a model error gives no fact; otherwise the fact is the parsed topic and content tags of the answer |
| DailyFact.PastTopicsInPrompt | src/ai/daily-fact.service.ts:57-63 | every stored topic appears inside the prompt's brackets |
| DailyFact.Broadcasts | src/ai/daily-fact.service.ts:96-98 | one send per listed channel, in list order, each carrying the content |
| DailyFact.BroadcastsCount | src/ai/daily-fact.service.ts:96-98 | each channel receives exactly as many sends as it has entries in the list |
| DailyFact.DailyFactService.constructor | src/ai/daily-fact.service.ts:16-36 | the target channels are the parsed `DAILY_FACT_CHANNELS` setting |
| DailyFact.DailyFactService.GenerateUniqueFact | src/ai/daily-fact.service.ts:53-81 | returns the fact for the stored topic history |
| DailyFact.DailyFactService.HandleDailyFact | src/ai/daily-fact.service.ts:84-101 | without channels or without a fact nothing is recorded or sent; otherwise the topic is pushed to the topic list, then the content is sent to every channel |
| DailyFact.DailyFactService.SendToAll | src/ai/daily-fact.service.ts:96-98 | the content goes to each channel in turn, in list order |
| Bot.AdmitIff | src/bot/bot.service.ts:126-143 | a request is let through exactly when it is within the limit and the user has none in flight; it is too long exactly when over the limit |
| Bot.LengthBeforeBusy | src/bot/bot.service.ts:285-295 | an over-long query is refused as too long even when the user is also busy |
| Bot.Admit | src/bot/bot.service.ts:126-143 | defines the gate, length check first; `AdmitIff` proves when each outcome happens |
| Bot.InFlightRestored | src/bot/bot.service.ts:143-171 | marking the user in flight and unmarking afterwards restores the in-flight set |
| Bot.RemoveMentions | src/bot/bot.service.ts:278-279 | removing mentions never lengthens the text |
| Bot.RemoveMentionsPlain | src/bot/bot.service.ts:278-279 | text before the first `<` is kept as it is |
| Bot.RemoveLeadingMention | src/bot/bot.service.ts:278-279 | a leading `<@id>` is removed, whatever follows it |
| Bot.RemoveLeadingBangMention | src/bot/bot.service.ts:278-279 | a leading `<@!id>` is removed, whatever follows it |
| Bot.MentionStripped | src/bot/bot.service.ts:278-279 | one mention of the bot, in either form, inside plain text is removed, and nothing else is |
| Bot.NestedMentionSurvives | src/bot/bot.service.ts:278-279 | the removal is one pass, so a mention that mentions split apart rejoin into survives |
| Bot.NaturalQuery | src/bot/bot.service.ts:278-281 | the query is non-empty and trimmed: the trimmed text without mentions, or the greeting when that text is blank |
| Bot.MentionOnlyGreets | src/bot/bot.service.ts:278-281 | a message that only mentions the bot becomes the greeting |
| Bot.BuildLiveProfile | src/bot/bot.service.ts:148-159 | the built profile is `LiveProfile` of the role, the IDs and the member |
| Bot.LiveProfileStarts | src/bot/bot.service.ts:313-323 | every profile starts with the role line, the ID and the username; without a member, that is all |
| Bot.LiveProfile | src/bot/bot.service.ts:148-159 | defines the live profile text; `LiveProfileStarts` proves how it starts |
| Bot.NamedRolesIff | src/bot/bot.service.ts:153-156 | a role is listed exactly when the member has it and it is not `@everyone` |
| Bot.RolesTextCases | src/bot/bot.service.ts:153-158 | every listed role appears in the roles line; a member with only `@everyone` gets `None` |
| Bot.NamedRoles | src/bot/bot.service.ts:153-156 | defines the role list without `@everyone`; `NamedRolesIff` proves which roles it lists |
| Bot.RolesText | src/bot/bot.service.ts:156-158 | defines `roles \|\| 'None'`; `RolesTextCases` proves its cases |
| Bot.CrawledIff | src/bot/bot.service.ts:364-376 | a channel is crawled exactly when it is a text channel whose lower-cased name contains a keyword |
| Bot.CrawlExamples | src/bot/bot.service.ts:372-376 | a text channel named `RULES` is crawled, and no voice channel is |
| Bot.KeywordsLower | src/bot/bot.service.ts:364-371 | every keyword of the crawl is its own lower-case form |
| Bot.CrawlCaseBlind | src/bot/bot.service.ts:372-376 | lower-casing a channel's name does not change whether it is crawled |
| Bot.IsCrawled | src/bot/bot.service.ts:364-376 | defines the keyword filter of `/setinfo` |
| Bot.Crawled | src/bot/bot.service.ts:372-376 | defines the crawled channels in guild order; `CrawledIff` proves exactly which are kept |
| Bot.SectionsAt | src/bot/bot.service.ts:378-405 | the raw data is the sections before a channel, that channel's section, then the sections after it |
| Bot.RawDataNamesChannel | src/bot/bot.service.ts:362-405 | every crawled channel's header is in the raw data, failed fetches included |
| Bot.RawDataStep | src/bot/bot.service.ts:380-404 | one loop step appends the channel header and, when the fetch succeeded, its text and a blank line |
| Bot.CollectRawData | src/bot/bot.service.ts:362-405 | the loop builds exactly `RawData` of the guild |
| Bot.RawData | src/bot/bot.service.ts:362-405 | defines the raw data of a guild; `CollectRawData` proves the loop builds it and `RawDataNamesChannel` what it names |
| Bot.ErrorTextInjective | src/bot/bot.service.ts:237 | different errors give different system-error texts |
| Bot.ErrorText | src/bot/bot.service.ts:237 | defines the system-error text; `ErrorTextInjective` proves it tells errors apart |
| Bot.ErrorsHiddenFromUsers | src/bot/bot.service.ts:234-251 | what non-admins see never depends on the error; natural chat shows them nothing, and admins see which error it was |
| Bot.NaturalSuccessShape | src/bot/bot.service.ts:325-340 | a successful natural-chat answer posts at most two actions: the reply exactly when it is non-empty, the reaction exactly when it is non-empty |
| Bot.ChatActions | src/bot/bot.service.ts:161-168 | defines what `/chat` posts after deferring, its error branch at 234-251; `ErrorsHiddenFromUsers` proves what non-admins see |
| Bot.NaturalActions | src/bot/bot.service.ts:325-351 | defines what natural chat posts; `NaturalSuccessShape` and `ErrorsHiddenFromUsers` prove its cases |
| Bot.Addressed | src/bot/bot.service.ts:255-276 | defines which messages natural chat answers: human authors who mention or reply to the bot, once it is logged in |
| Bot.BotService.constructor | src/bot/bot.service.ts:18-34 | the bot starts with nobody in flight and nothing posted |
| Bot.BotService.AskAi | src/bot/bot.service.ts:161-165 | the call to `chatAI`, with the part of its contract the handlers use |
| Bot.BotService.ServeChat | src/bot/bot.service.ts:145-168 | defers, then posts `ChatActions` of the `chatAI` outcome for the live profile |
| Bot.BotService.HandleChat | src/bot/bot.service.ts:123-172 | too long or busy gives the ephemeral refusal and no AI call; an admitted request is served, and the in-flight set is restored afterwards |
| Bot.BotService.PostNatural | src/bot/bot.service.ts:325-351 | posts `NaturalActions` of the outcome |
| Bot.BotService.ServeNatural | src/bot/bot.service.ts:309-351 | asks `chatAI` with the live profile and posts `NaturalActions` of its outcome |
| Bot.BotService.HandleNaturalChat | src/bot/bot.service.ts:254-356 | an unaddressed message changes nothing; an addressed one goes through the 400-character gate with the mention-stripped query, and the in-flight set is restored |
| Bot.BotService.HandleSetInfo | src/bot/bot.service.ts:174-194 | non-admins and direct messages get their ephemeral refusal and no change; otherwise the guild is crawled and refreshed |
| Bot.BotService.RefreshFromGuild | src/bot/bot.service.ts:358-418 | the crawled raw data is cleaned, and the guild's server record replaced, with the progress messages in order |
| Bot.BotService.PostSummary | src/bot/bot.service.ts:410-417 | the cleaned text replaces the guild's record and the notice is posted; a clean-up error is only reported |

## Left out

- Discord I/O is not modelled: the gateway, login, slash-command registration, `sendTyping` and its interval, and fetching members and replied-to messages. The handlers take the member, the reply-to-bot flag and the channels' fetched text as parameters.
- `broadcastMessage` is not modelled: a send is an event in `DailyFactService.events`, and Discord's failure to deliver is not represented.
- The network clients of Chroma, Gemini and Redis are not modelled: each store is a value held by a class, and each model is a function parameter.
- Embeddings, similarity ranking and model temperature are not modelled: a search may return any admissible set of matches.
- Timestamps (`updatedAt`, `createdAt`), the cron schedule and the Redis expiry clock are not modelled: records carry no time, and an expiry is stored as its number of seconds.
- Concurrency is not modelled: the fire-and-forget `addMessage` and `handleHistory` calls run in sequence before `chatAI` returns.
- Errors thrown by the stores are not modelled: every Chroma call (`addDocuments`, `similaritySearch`, `delete`) and every Redis call succeeds, so the `try`/`catch` around deletes has no effect in the model. In the source an `addDocuments` or `similaritySearch` failure (`ai.service.ts:98`, `:115`, `:142`, `:187`, `:195`, `:318`, `:366`) propagates to the calling command's error reply, and the one at `:259` is only logged (`.catch(console.error)` at `:239-241`). A failed add after a delete loses the deleted records: the compaction at `:295-297`, caught at `:309`, leaves the user with neither memories nor a summary; the persona replacement at `:357-366` leaves no persona; the server refresh at `:93-98` leaves the guild with no knowledge. `Ai.PersonaSetReplaces`, `Ai.CompactionCases` and `Ai.ServerRefreshReplaces` hold only under this assumption.
- Console and `Logger` output is not modelled.
- The `/setuser` and `/fsetuser` commands (`bot.service.ts:196-233`) are not modelled; `getPersona` and `analyzeAndSetPersona`, which they call, are.
- Embed formatting and the message filter of the `/setinfo` crawl are not modelled: each channel's fetched text is an abstract `Option<string>`.
- A failed reaction in natural chat is not modelled: the reaction is posted as an action and cannot fail.
- Characters outside the Basic Multilingual Plane count as one character, not as two UTF-16 code units, for the length limits and for truncation.
- NestJS wiring, configuration lookup and the DTOs are not modelled.
- Model answers whose content array holds a part that is neither a string nor an object (null, a number, a boolean) are not modelled: the type `Content.MessageContent` excludes them. The inline normalisers (`ai.service.ts:82`, `:166`, `:219`, `:290`, `:348`) throw a `TypeError` at `'text' in c` for such a part.
- `TurnCodec.DecodeTurn`: reads only the exact layout `EncodeTurn` writes, not every JSON text. Every entry `addMessage` stores has that layout (`TurnCodec.DecodeEncode`). Other writers of the chat keys are not modelled.
- `Text.ToLower`: lower-cases only ASCII, Latin-1 and the Vietnamese capitals, and never lengthens a string (unlike `'İ'` in JavaScript). The six crawl keywords are lower-case ASCII and Vietnamese, so each is its own lower-case form (`Bot.KeywordsLower`), and the filter depends only on the lower-cased name (`Bot.CrawlCaseBlind`).
- `Bot.BotService.AskAi`: states only the profile sync and the shape of a successful reply. The handlers rely on nothing more, and `Ai.AiService.ChatAI` states the whole contract.
- `VectorStore.Collection.SimilaritySearch`: does not state which matches are returned, because ranking depends on embeddings.

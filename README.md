# ArchGPT conversation core in Dafny

ArchGPT is a Minecraft server plugin for AI-driven NPC conversations. A player
right-clicks an NPC to start a conversation. Each chat message then becomes a
request to a language-model back end:
- the gateway ("MCP") back end, a JSON request carrying a context-derived
  system text and the conversation history;
- the direct chat-completions back end, with the API key sent as a bearer
  credential.

The reply is trimmed, translated when the player's locale is not English, and
appended to the player's stored history together with the player's message.

This project models the sequential logic of that conversation and proves
properties of it:

- `java_strings.dfy`, `json.dfy`, `wrappers.dfy` hold the pieces of Java and
  Gson the core relies on:
  - `String.trim`, `isBlank`, `equalsIgnoreCase`, decimal rendering;
  - null as `Option`, exceptions as `Result`;
  - a JSON element tree and `getAsString`.
- `history.dfy`: a history turn `{role, content}`. The history list is a class
  (`TurnList`), because the plugin appends to the very list object it keeps
  per player.
- `game.dfy`: players, NPCs and the mutable `Location` with `clone()`.
- `chat_request_handler.dfy`:
  - building the gateway request and the direct chat-completion request;
  - the two reply extractors and the API-key check;
  - the status and fallback branching, and the translation rule.
  - `ProcessMcpRequest` covers the whole of `processMCPRequest` as one
    sequential step. It trims the reply, evicts over the cap and appends in
    place.
- `npc_conversation_manager.dfy`: the per-player state machine, a class whose
  map fields the methods update:
  - starting, ending and cancelling a conversation;
  - the length and cooldown gates;
  - the commit of a reply;
  - system-message and greeting construction.

  Client methods run the three sequential steps end to end: a message, the
  request, then the reply arriving.
- `archgpt_config.dfy`:
  - the w/d/h/m duration grammar with its game-time conversion and Java
    `long` overflow behaviour;
  - the listener-priority parse;
  - knowledge compilation from a string, list or nested section;
  - NPC prompt combination;
  - the debug-mode flag.
- `npc_to_player_message_event.dfy`, `player_to_npc_message_event.dfy`: the
  event objects, which keep a private copy of the NPC location and hand out a
  new copy on every read.

The model follows the code as written, including these behaviours:
- Eviction of the two oldest turns can remove the system turn.
- Only the gateway system text is capped at 6000 characters.
- A direct request repeats the stored system turn after the synthesized one.
- The cancel phrase is compared untrimmed.
- A translation that fails asynchronously yields the hiccup reply, not the
  untranslated text.
- A gateway body that does not parse, is not a JSON object, or whose `output`
  is not text ends in the hiccup reply, not the "trouble" sentence. Only a
  missing `output` gives the "trouble" sentence.

## Model

| member | source | states |
|---|---|---|
| JavaStrings.Trim | src/main/java/me/xidentified/archgpt/ChatRequestHandler.java:148-152 | the trimmed text has no trimmable character (code point up to U+0020) at either end, is no longer than the input, and is empty exactly when the input is all trimmable |
| JavaStrings.TrimOfPadded | src/main/java/me/xidentified/archgpt/ChatRequestHandler.java:149 | trim removes exactly the padding around an already trimmed string |
| JavaStrings.TrimIdempotent | src/main/java/me/xidentified/archgpt/ChatRequestHandler.java:149 | trimming twice equals trimming once |
| JavaStrings.ToUpper | src/main/java/me/xidentified/archgpt/ArchGPTConfig.java:160 | upper-casing keeps the length and maps every character (ASCII letters only) |
| JavaStrings.NatToStringRoundTrip | src/main/java/me/xidentified/archgpt/NPCConversationManager.java:83 | the decimal rendering of a number concatenated into the greeting reads back as that number |
| Json.AsString | src/main/java/me/xidentified/archgpt/ChatRequestHandler.java:193-196 | getAsString: a JSON string gives its text; JSON null and objects raise (None) |
| ChatRequestHandler.ContextText | src/main/java/me/xidentified/archgpt/ChatRequestHandler.java:191-198 | the context text exists exactly when every present field is convertible to a string, and starts with "Context -> " |
| ChatRequestHandler.ContextTextOfStrings | src/main/java/me/xidentified/archgpt/ChatRequestHandler.java:191-196 | for every combination of present and absent text fields, each present field adds its label, the value and a bar separator, in the order environment, player, npc, knowledge, and each absent field adds nothing; with none present the text is "Context -> " |
| ChatRequestHandler.CapSystemText | src/main/java/me/xidentified/archgpt/ChatRequestHandler.java:198-203 | the capped text is a prefix of the text, at most 6000 characters, unchanged when short and exactly 6000 long otherwise |
| ChatRequestHandler.GatewayHistoryShape | src/main/java/me/xidentified/archgpt/ChatRequestHandler.java:209-234 | the gateway history is never empty, begins with a system turn, ends with the whole stored history, and is one longer exactly when the stored history did not start with a "system" role (any case) |
| ChatRequestHandler.McpRequestCarriesHistory | src/main/java/me/xidentified/archgpt/ChatRequestHandler.java:236-246 | a built gateway request always carries a non-empty conversation_history whose first role is "system"; when the stored history has no system head, the prepended text is at most 6000 characters and a prefix of the context text; the request type is sent by name |
| ChatRequestHandler.BuildGatewayHistory | src/main/java/me/xidentified/archgpt/ChatRequestHandler.java:209-234 | the copying loops produce exactly the gateway history |
| ChatRequestHandler.BuildMcpRequest | src/main/java/me/xidentified/archgpt/ChatRequestHandler.java:180-249 | buildMCPRequest yields the gateway request over the capped context text, or the failure of a non-string context field |
| ChatRequestHandler.Instruction | src/main/java/me/xidentified/archgpt/ChatRequestHandler.java:262-266 | the instruction piece is present exactly when the default prompt is non-null and not blank, and is then "Instruction: ", the prompt and a bar separator |
| ChatRequestHandler.DirectMessagesShape | src/main/java/me/xidentified/archgpt/ChatRequestHandler.java:251-298 | a direct request holds the stored history length plus two messages: the system turn (instruction, guidelines, context), every stored turn in order, then the user message; model and max tokens come from the settings |
| ChatRequestHandler.DirectRequestRepeatsSystemTurn | src/main/java/me/xidentified/archgpt/ChatRequestHandler.java:275-288 | a stored history starting with a system turn gives a request with two system turns in front |
| ChatRequestHandler.DirectSystemTextUncapped | src/main/java/me/xidentified/archgpt/ChatRequestHandler.java:260-278 | a context text over 6000 characters gives a direct system text over 6000 characters, where the gateway cap cuts it to 6000 |
| ChatRequestHandler.BuildOpenAiChatRequestBody | src/main/java/me/xidentified/archgpt/ChatRequestHandler.java:251-298 | the mapping loop produces exactly the direct request |
| ChatRequestHandler.BearerHeaderIsCredentials | src/main/java/me/xidentified/archgpt/ChatRequestHandler.java:331 | an API key of base64 token characters gives an Authorization value of the credentials form of section 2.1 of RFC 6750 |
| ChatRequestHandler.ExtractOpenAiResponseText | src/main/java/me/xidentified/archgpt/ChatRequestHandler.java:300-320 | the direct reply is the fallback sentence or a trimmed text |
| ChatRequestHandler.OpenAiReplyOfEnvelope | src/main/java/me/xidentified/archgpt/ChatRequestHandler.java:302-311 | when the first choice's message has text content, that text comes back trimmed, whatever further members the body, the choice and the message carry and whatever choices follow |
| ChatRequestHandler.OpenAiReplyFallbacks | src/main/java/me/xidentified/archgpt/ChatRequestHandler.java:302-319 | no JSON body, any body that is not an object, a missing choices member, a choices member that is not an array, or an empty one all give exactly "I'm having trouble processing that right now." |
| ChatRequestHandler.OpenAiChoiceFallbacks | src/main/java/me/xidentified/archgpt/ChatRequestHandler.java:306-319 | a first choice that is not an object, has no message, or whose message is not an object gives the fallback sentence |
| ChatRequestHandler.OpenAiMessageFallbacks | src/main/java/me/xidentified/archgpt/ChatRequestHandler.java:309-319 | a message without content, or whose content is not text (null, an object, an array not holding exactly one text), gives the fallback sentence |
| ChatRequestHandler.GatewayReply | src/main/java/me/xidentified/archgpt/ChatRequestHandler.java:83-86 | a gateway reply is the fallback sentence or trimmed, and every failure is a malformed response |
| ChatRequestHandler.GatewayReplyOfOutput | src/main/java/me/xidentified/archgpt/ChatRequestHandler.java:336-339 | a text output field comes back trimmed; a null output raises |
| ChatRequestHandler.GatewayReplyFallbacks | src/main/java/me/xidentified/archgpt/ChatRequestHandler.java:336-343 | without an output field the fallback sentence comes back; a body that is not JSON, and any JSON value that is not an object, raises |
| ChatRequestHandler.DirectModeCredential | src/main/java/me/xidentified/archgpt/ChatRequestHandler.java:322-331 | in direct mode nothing is sent exactly when the key is null or blank, and then the failure is the missing credential; otherwise the header is "Bearer " + key |
| ChatRequestHandler.DirectOutboundShape | src/main/java/me/xidentified/archgpt/ChatRequestHandler.java:91-95 | with a key and a text context, direct mode posts to the chat-completions URL with the bearer header, the configured model and limit, and the system turn, stored turns and user message |
| ChatRequestHandler.LangCode | src/main/java/me/xidentified/archgpt/ChatRequestHandler.java:126-128 | the language code is two characters: the locale's first two when it has at least two, and "en" when it is null or shorter |
| ChatRequestHandler.LocalizedCases | src/main/java/me/xidentified/archgpt/ChatRequestHandler.java:124-139 | translation is attempted exactly when the code is not "en" in any case; otherwise, and when it yields null, the text passes unchanged; a translation value replaces the text |
| ChatRequestHandler.UpperCaseEnglishNotTranslated | src/main/java/me/xidentified/archgpt/ChatRequestHandler.java:130 | the locale "EN_us" is not translated |
| ChatRequestHandler.FailuresGiveHiccup | src/main/java/me/xidentified/archgpt/ChatRequestHandler.java:83-145 | a missing key in direct mode, a status other than 200, a transport failure and a gateway body that raises all end in the hiccup reply |
| ChatRequestHandler.FinalText | src/main/java/me/xidentified/archgpt/ChatRequestHandler.java:148-152 | the final reply is never empty and is trimmed; it is the trimmed reply whenever that is non-empty, else "..." |
| ChatRequestHandler.FinalTextIdempotent | src/main/java/me/xidentified/archgpt/ChatRequestHandler.java:148-152 | post-processing a post-processed reply changes nothing |
| ChatRequestHandler.AppendPair | src/main/java/me/xidentified/archgpt/ChatRequestHandler.java:158-175 | the new history length is the old one (when over twice the cap) or two more, and ends with the user message and the assistant reply |
| ChatRequestHandler.AppendPairKeeps | src/main/java/me/xidentified/archgpt/ChatRequestHandler.java:161-175 | within the cap all old turns stay in front; over it exactly the two oldest are gone |
| ChatRequestHandler.AppendPairBounded | src/main/java/me/xidentified/archgpt/ChatRequestHandler.java:161-175 | a history of at most 2·MAX+2 turns stays within 2·MAX+2 |
| ChatRequestHandler.EvictionDropsSystemTurn | src/main/java/me/xidentified/archgpt/ChatRequestHandler.java:161-163 | eviction can remove the system turn at the head of the history |
| ChatRequestHandler.ProcessMcpRequest | src/main/java/me/xidentified/archgpt/ChatRequestHandler.java:38-178 | no context: nothing sent and no result; otherwise the request for the configured back end is sent; a greeting returns the final text and leaves the history alone; a conversation appends to the given list (a new one when null) and returns text and list; a cap of 0 with a one-turn history throws |
| ChatRequestHandler.RecordExchange | src/main/java/me/xidentified/archgpt/ChatRequestHandler.java:161-173 | the in-place eviction and two appends leave the list equal to the appended history |
| NpcConversationManager.CreateSystemMessage | src/main/java/me/xidentified/archgpt/NPCConversationManager.java:48-66 | the system message has role "system", content starting "You are " + NPC name and ending with the combined context |
| NpcConversationManager.GreetingPromptSource | src/main/java/me/xidentified/archgpt/NPCConversationManager.java:72-75 | an unconfigured NPC greets with the loaded default prompt; a configured one with its combined prompt, unless both the default entry and its own entry are blank, when the loaded default prompt is used |
| NpcConversationManager.GateCases | src/main/java/me/xidentified/archgpt/NPCConversationManager.java:105-123 | a message is admitted exactly when long enough and outside the cooldown window; too short is rejected first; after an accepted message every message within the window is dropped |
| NpcConversationManager.NpcConversationManager.PlayerInConversation | src/main/java/me/xidentified/archgpt/NPCConversationManager.java:332-334 | under the invariant, a player is in conversation exactly when a history is stored |
| NpcConversationManager.NpcConversationManager.StartConversation | src/main/java/me/xidentified/archgpt/NPCConversationManager.java:152-172 | the player maps to the NPC, has a new history of exactly the system message and is active, overwriting earlier entries; the timeout is armed (and the call completes) exactly when the end phrase is configured |
| NpcConversationManager.NpcConversationManager.EndConversation | src/main/java/me/xidentified/archgpt/NPCConversationManager.java:175-194 | history, active marker and timeout of the player are removed; the NPC binding and cooldowns stay |
| NpcConversationManager.NpcConversationManager.HandleCancelCommand | src/main/java/me/xidentified/archgpt/NPCConversationManager.java:196-203 | returns true and ends the conversation exactly when the message equals the configured phrase (default "cancel") ignoring case; otherwise nothing changes |
| NpcConversationManager.NpcConversationManager.GetGreeting | src/main/java/me/xidentified/archgpt/NPCConversationManager.java:69-92 | a GREETING call with null history whose message is exactly the selected prompt (rendered "null" when absent), a newline, and the greeting instruction with the player's name and the token limit: it starts with the first two, ends with the third and is as long as the three together |
| NpcConversationManager.NpcConversationManager.ProcessPlayerMessage | src/main/java/me/xidentified/archgpt/NPCConversationManager.java:94-150 | too short or within the cooldown: nothing changes; admitted: the cooldown is set to now, and a CONVERSATION request with the stored history follows (none without an NPC) |
| NpcConversationManager.NpcConversationManager.ProcessNpcResponse | src/main/java/me/xidentified/archgpt/NPCConversationManager.java:218-270 | a conversation reply for an active player replaces the history with the reply's list and resets the timeout; anything else changes nothing |
| NpcConversationManager.CancelPhraseUntrimmed | src/main/java/me/xidentified/archgpt/NPCConversationManager.java:197 | "CaNcEl" matches "cancel"; " cancel" and "cancel " do not |
| NpcConversationManager.EndConversationTwice | src/main/java/me/xidentified/archgpt/NPCConversationManager.java:175-194 | ending twice leaves the same state as ending once |
| NpcConversationManager.SecondMessageWithinCooldown | src/main/java/me/xidentified/archgpt/NPCConversationManager.java:115-123 | a second message inside the cooldown window is dropped and the cooldown keeps the first time |
| NpcConversationManager.ReplyAfterTeardownIsDiscarded | src/main/java/me/xidentified/archgpt/NPCConversationManager.java:222 | a reply arriving after the conversation ended is not committed and nothing is restored |
| NpcConversationManager.OpenFirstTurn | src/main/java/me/xidentified/archgpt/NPCConversationManager.java:132-147 | the first admitted message after a start requests over the stored one-turn history list |
| NpcConversationManager.DirectReplyToFirstMessage | src/main/java/me/xidentified/archgpt/ChatRequestHandler.java:91-175 | a direct-mode reply to a one-turn history sends three messages and leaves the list as system, user, trimmed non-empty assistant reply |
| NpcConversationManager.DirectFirstTurn | src/main/java/me/xidentified/archgpt/NPCConversationManager.java:143-149 | end to end in direct mode: two system turns and the message are sent, and the stored history becomes system, user, assistant |
| ArchGptConfig.TakeGroup | src/main/java/me/xidentified/archgpt/ArchGPTConfig.java:200 | an optional group "(\d+)unit" is either absent (text unchanged) or a digit run and its unit in front of the rest |
| ArchGptConfig.MatchDuration | src/main/java/me/xidentified/archgpt/ArchGPTConfig.java:200-203 | a match yields well-formed parts that render back to exactly the input |
| ArchGptConfig.MatchRendered | src/main/java/me/xidentified/archgpt/ArchGPTConfig.java:200-203 | every text of the grammar's shape (w, d, h, m optional, in order, whitespace between) is matched, with its own groups |
| ArchGptConfig.NormalizeKeepsText | src/main/java/me/xidentified/archgpt/ArchGPTConfig.java:200 | moving whitespace past absent groups keeps the text and the groups |
| ArchGptConfig.AcceptedHaveShape | src/main/java/me/xidentified/archgpt/ArchGPTConfig.java:203-215 | every text not rejected as malformed has the grammar's shape |
| ArchGptConfig.OutOfOrderRejected | src/main/java/me/xidentified/archgpt/ArchGPTConfig.java:200-215 | "5m3w" is rejected as malformed |
| ArchGptConfig.WrapLong | src/main/java/me/xidentified/archgpt/ArchGPTConfig.java:212-213 | long multiplication wraps: the result is in the signed 64-bit range and congruent to the exact value modulo 2^64 |
| ArchGptConfig.WrapLongInRange | src/main/java/me/xidentified/archgpt/ArchGPTConfig.java:212-213 | wrapping leaves values in range unchanged |
| ArchGptConfig.DurationMinutes | src/main/java/me/xidentified/archgpt/ArchGPTConfig.java:210-213 | the Duration arithmetic fails only by arithmetic overflow |
| ArchGptConfig.DurationOf | src/main/java/me/xidentified/archgpt/ArchGPTConfig.java:204-213 | matched groups never give a format error; the result is the out-of-range failure exactly when some group exceeds Long.MAX_VALUE |
| ArchGptConfig.ParseMinecraftDuration | src/main/java/me/xidentified/archgpt/ArchGPTConfig.java:199-216 | the format error is raised exactly when the text does not match |
| ArchGptConfig.ParseRendered | src/main/java/me/xidentified/archgpt/ArchGPTConfig.java:199-216 | parsing a text of the grammar's shape is the arithmetic on its own groups |
| ArchGptConfig.SmallDurationMinutes | src/main/java/me/xidentified/archgpt/ArchGPTConfig.java:210-213 | below 10^14 the arithmetic gives minutes + 60·hours + 20·days + 140·weeks |
| ArchGptConfig.SmallDurationOf | src/main/java/me/xidentified/archgpt/ArchGPTConfig.java:204-213 | below 10^14 the groups give their total minutes |
| ArchGptConfig.DurationTotal | src/main/java/me/xidentified/archgpt/ArchGPTConfig.java:199-214 | a duration text with groups below 10^14 denotes minutes + 60·hours + 20·days + 140·weeks minutes |
| ArchGptConfig.PriorityNamed | src/main/java/me/xidentified/archgpt/ArchGPTConfig.java:160 | valueOf finds the constant with exactly that name, and only it |
| ArchGptConfig.ParsePriority | src/main/java/me/xidentified/archgpt/ArchGPTConfig.java:157-165 | null gives LOWEST; a text whose trim, upper-cased, is the name of a priority selects that priority; any other text gives LOWEST |
| ArchGptConfig.ParsePriorityOfSpelling | src/main/java/me/xidentified/archgpt/ArchGPTConfig.java:157-165 | any case spelling of a constant's name, padded with trimmable characters, parses to that constant |
| ArchGptConfig.ParsePriorityOfLowerName | src/main/java/me/xidentified/archgpt/ArchGPTConfig.java:157-165 | the lower-case name of every constant parses to it |
| ArchGptConfig.AppendItems | src/main/java/me/xidentified/archgpt/ArchGPTConfig.java:147-149 | the item loop appends one "- item" line per element, null rendered "null" |
| ArchGptConfig.AppendSection | src/main/java/me/xidentified/archgpt/ArchGPTConfig.java:134-155 | the recursive builder produces exactly the section text |
| ArchGptConfig.CompileKnowledge | src/main/java/me/xidentified/archgpt/ArchGPTConfig.java:95-132 | absent or null gives ""; a string its trim; a list its non-null items joined by newlines, trimmed; a section its flattening, trimmed |
| ArchGptConfig.JoinNonNullIsJoin | src/main/java/me/xidentified/archgpt/ArchGPTConfig.java:111-118 | with non-empty items the list case is the present items joined by single newlines, empty exactly when none is present |
| ArchGptConfig.EmptyFirstItemLeavesNoNewLine | src/main/java/me/xidentified/archgpt/ArchGPTConfig.java:114 | an empty first item leaves the builder empty, so no newline precedes the next |
| ArchGptConfig.ScalarLines | src/main/java/me/xidentified/archgpt/ArchGPTConfig.java:150-153 | one line per scalar entry, in order: the i-th line is the i-th key, ": " and its value |
| ArchGptConfig.ScalarSectionLines | src/main/java/me/xidentified/archgpt/ArchGPTConfig.java:136-153 | a section of scalars flattens to its "key: value" lines joined by newlines, non-empty when the section is |
| ArchGptConfig.JoinLinesSnoc | src/main/java/me/xidentified/archgpt/ArchGPTConfig.java:151-152 | appending a line puts one newline before it unless the text was empty |
| ArchGptConfig.SectionTextPrefix | src/main/java/me/xidentified/archgpt/ArchGPTConfig.java:134-155 | appending a section's entries only extends the builder's text |
| ArchGptConfig.NestedSectionBlankLine | src/main/java/me/xidentified/archgpt/ArchGPTConfig.java:138-152 | for any builder, depth and non-empty nested section, the text continues with a newline when the builder was non-empty, the key upper-cased, ":", a newline, and then an empty line before the first entry |
| ArchGptConfig.ListEntryLines | src/main/java/me/xidentified/archgpt/ArchGPTConfig.java:142-149 | a list entry writes "key:", a newline and one "- item" line per element |
| ArchGptConfig.ItemLinesUnindented | src/main/java/me/xidentified/archgpt/ArchGPTConfig.java:147-149 | with the empty indent the item lines are the bullet lines appended |
| ArchGptConfig.GetNpcPrompt | src/main/java/me/xidentified/archgpt/ArchGPTConfig.java:172-196 | null exactly for an unconfigured NPC; otherwise the default prompt, alone exactly when the NPC prompt is empty, else followed by " " + NPC prompt |
| ArchGptConfig.GetNpcPromptBlank | src/main/java/me/xidentified/archgpt/ArchGPTConfig.java:184-187 | a configured NPC's combined prompt is blank exactly when both the default prompt and the NPC's own prompt are blank |
| ArchGptConfig.ArchGptConfig.ToggleDebugMode | src/main/java/me/xidentified/archgpt/ArchGPTConfig.java:218-219 | the debug flag is negated |
| ArchGptConfig.ToggleTwice | src/main/java/me/xidentified/archgpt/ArchGPTConfig.java:218-219 | toggling twice restores the flag |
| Game.Location.Clone | src/main/java/me/xidentified/archgpt/events/NPCToPlayerMessageEvent.java:25 | clone is a new object with the same field values |
| NpcToPlayerMessageEvent.NpcToPlayerMessageEvent.constructor | src/main/java/me/xidentified/archgpt/events/NPCToPlayerMessageEvent.java:21-26 | stores the arguments; a null location stays null, a non-null one is stored as a new value-equal copy |
| NpcToPlayerMessageEvent.NpcToPlayerMessageEvent.GetNpcLocation | src/main/java/me/xidentified/archgpt/events/NPCToPlayerMessageEvent.java:40-42 | null when none was stored, else a new object equal in value to the stored one |
| NpcToPlayerMessageEvent.ReportsArguments | src/main/java/me/xidentified/archgpt/events/NPCToPlayerMessageEvent.java:21-42 | the getters report the constructor's player, message and NPC name; the location comes back as a distinct value-equal copy, or null |
| NpcToPlayerMessageEvent.LocationIsSnapshot | src/main/java/me/xidentified/archgpt/events/NPCToPlayerMessageEvent.java:25-42 | moving the caller's location after construction, or a location the getter returned, does not change what the event reports |
| PlayerToNpcMessageEvent.PlayerToNpcMessageEvent.constructor | src/main/java/me/xidentified/archgpt/events/PlayerToNPCMessageEvent.java:20-25 | stores the arguments; a null location stays null, a non-null one is stored as a new value-equal copy |
| PlayerToNpcMessageEvent.PlayerToNpcMessageEvent.GetNpcLocation | src/main/java/me/xidentified/archgpt/events/PlayerToNPCMessageEvent.java:39-41 | null when none was stored, else a new object equal in value to the stored one |
| PlayerToNpcMessageEvent.ReportsArguments | src/main/java/me/xidentified/archgpt/events/PlayerToNPCMessageEvent.java:20-41 | the getters report the constructor's player, message and NPC name; the location comes back as a distinct value-equal copy, or null |
| PlayerToNpcMessageEvent.LocationIsSnapshot | src/main/java/me/xidentified/archgpt/events/PlayerToNPCMessageEvent.java:24-41 | moving the caller's location after construction, or a location the getter returned, does not change what the event reports |

## Left out

- HTTP transport: `HttpClient.send`, request builders and `URI.create` failures. The exchange (a status and a parsed body, or an I/O failure) is a parameter of `ProcessMcpRequest`.
- Concurrency: the futures are modelled as one sequential step, and the per-player semaphore, scheduler hops and `synchronized` blocks are left out. So are interleavings, such as two replies in flight for one player.
- Context gathering (`ContextManager`) is external code: its result is a parameter, with `None` for a failure. That failure occurs before the hiccup handler is attached, so the model returns no result.
- Translation (`TranslationService`, `LocaleUtils`) is external code: the locale and the translation outcome are parameters.
- Presentation: holograms, the thinking animation, chat messages and the `Messages` texts.
- `ConversationUtils` is external code: the combined context is a parameter of `StartConversation`.
- `MemoryContext`'s conversation summary and `ConversationDAO` persistence are left out. They do not change the modelled maps.
- The `ConversationTimeoutManager` internals are not shown. A timeout is a map entry counting resets since it was armed; a reset for a player without an armed timeout arms one.
- PlaceholderAPI substitution in `getNpcPrompt`.
- Configuration I/O: `loadConfig`, `saveDefaultConfig`, the `saveConfig` call and logger level of `toggleDebugMode`, and the console banner. Loaded values are the fields of `Settings` and `ConfigFile`.
- `ArchGPTConstants.MAX_CONVERSATION_STATE_SIZE` is external: it is the `maxConversationStateSize` setting.
- Event dispatch plumbing (`HandlerList`, `getHandlers`).
- Location coordinates are `real` rather than IEEE doubles.
- JavaStrings.ToUpper: only ASCII letters are case-mapped, so locale-sensitive and non-ASCII case mapping are not modelled. The same holds for `EqualsIgnoreCase`.
- Lengths count Unicode scalar values, not UTF-16 code units: the message length gate, the 6000-character cap of `CapSystemText` and the two-character prefix of `LangCode`, all of which Java counts in UTF-16 code units.
- An `npcs.<name>` key may hold a section or another non-string value, which `getString` renders through its `toString()` text. The model's `npcPrompts` map holds strings only, so it cannot represent such a value.
- NpcConversationManager.NpcConversationManager.ProcessPlayerMessage:
  - clock values are unbounded integers, so the long subtraction cannot wrap;
  - without a bound NPC the source throws at `npc.getName()`; the model returns `MissingNpc`, after the cooldown was set as in the source.
- NpcConversationManager.NpcConversationManager.StartConversation: when the end phrase is missing, the source throws from `requireNonNull`. The model returns `false`, with the three map updates done and the timeout not armed.
- History turns are always well-formed `{role, content}` pairs, so the direct builder's failure on a turn without a role is not modelled.

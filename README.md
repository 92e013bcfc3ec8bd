# Chat client core, modelled in Dafny

The system is a browser chat client. It talks to several large-language-model
providers (zhipu, openai, claude, tongyi, wenxin, spark, doubao), or to a
user-configured n8n workflow webhook. A small backend sells a 30-day "Pro"
subscription through WeChat Pay. The repository holds two generations of the
client. The newer one lives under `frontend/`, the older one under `src/`.

This project models the logic at the heart of both clients and the payment
state machine of the backend:

- the state reducers (`appReducer`) of both clients, over conversations and messages;
- the chat-turn handlers: `handleSend`, `handleClear`, `handleStartEdit`,
  `handleCancelEdit` and `handleResend` of the newer client, and `handleSend`
  and `handleClear` of the older one;
- the request shaping and dispatch of every provider adapter (`callModelAPI`,
  `callAPI`, `callOpenAIAPI`, `callAnthropicAPI`);
- the two streaming readers of server-sent events;
- the n8n webhook call (`callN8NWebhook`);
- the tag extractor (`parseAIResponse`), the title generator (`generateTitle`)
  and the prompt template (`parseTemplate`, `extractVariables`);
- the payment service: order creation, the WeChat callback and the subscription check.

The network, the clock, the database and `fetch` are parameters: a reply,
a clock reading or an id is an argument of the operation that would
have obtained it. The modules are listed below.

- `wrappers.dfy` (`Wrappers`), `strs.dfy` (`Strs`): `Option`/`Result`, and the
  JavaScript string helpers the source relies on (`trim`, `indexOf`, `split('\n')`, `join`).
- `chat_types.dfy` (`ChatTypes`), `http_types.dfy` (`Http`): the records of both
  clients, and what goes over the wire.
- `conversation_list.dfy` (`ConversationList`), `app_reducer.dfy` (`AppReducer`),
  `legacy_reducer.dfy` (`LegacyReducer`): the two reducers.
- `response_parser.dfy`, `prompt_template.dfy`, `title_generator.dfy`: the three
  text utilities. Each regular expression is written out as a scan.
- `sse_stream.dfy` (`SseStream`): `readSSEStream`. It is an imperative loop,
  specified by a function on the concatenated text.
- `providers.dfy` (`Providers`): the adapters and the dispatchers of both `apiService.ts` files.
- `legacy_api.dfy` (`LegacyApi`): `src/utils/api.ts`, with its own streaming loop.
- `n8n_service.dfy` (`N8NService`): the webhook request, the header loop and the reply cascade.
- `chat_turn.dfy` (`ChatTurn`), `legacy_turn.dfy` (`LegacyTurn`): the handlers.
  The app context is a class whose `Dispatch` runs the reducer. Each handler is a
  method proved to dispatch a given list of actions. Lemmas then state what that
  list does to the conversation.
- `payment_service.dfy` (`PaymentService`): a `PaymentStore` class holding the
  orders and users tables. Its methods are proved against effect functions on maps.

## Model

| member | source | states |
|---|---|---|
| ChatTypes.NonSystem | frontend/src/components/MessageInput.tsx:112 | the filtered list has no system message, and is the input itself when the input has none |
| ChatTypes.NonSystemAppend | frontend/src/components/MessageInput.tsx:112 | filtering distributes over concatenation |
| ChatTypes.NonSystemSubsequence | frontend/src/components/MessageInput.tsx:112 | a message survives the filter exactly when it is in the list and is not a system message |
| Strs.Trim | frontend/src/components/MessageInput.tsx:48 | the result is the input with a whitespace-only prefix and suffix cut off, starts and ends with a non-blank character, and is empty exactly for all-whitespace input |
| Http.Or | frontend/src/utils/apiService.ts:99 | `a \|\| b` on strings: one of the two, and empty only when both are |
| Http.BearerHeaders | frontend/src/utils/apiService.ts:90-93 | exactly the content type and an `Authorization: Bearer <key>` header |
| Http.AnthropicHeaders | frontend/src/utils/apiService.ts:244-248 | exactly the content type, `x-api-key` and `anthropic-version: 2023-06-01` |
| ConversationList.MapWhere | frontend/src/contexts/AppContext.tsx:54-60 | the same length; conversations with the id are transformed, the others kept |
| ConversationList.MapMessagesWhere | frontend/src/contexts/AppContext.tsx:90-106 | the same length; messages with the id are transformed, the others kept |
| ConversationList.Without | frontend/src/contexts/AppContext.tsx:47 | a conversation is kept exactly when its id differs; nothing changes when no conversation has the id |
| ConversationList.WithoutAppend | frontend/src/contexts/AppContext.tsx:47 | the deletion filter distributes over concatenation |
| ConversationList.FirstOtherId | frontend/src/contexts/AppContext.tsx:48-51 | the new selection is the first truthy id other than the deleted one, or none when no such id exists |
| ConversationList.FindMessage | frontend/src/contexts/AppContext.tsx:142-143 | `findIndex`: the first index holding the id, or none exactly when no message has it |
| ConversationList.KeepThrough | frontend/src/contexts/AppContext.tsx:139-151 | with the message present, the messages up to and including it are kept and the conversation is stamped; otherwise it is unchanged |
| ConversationList.KeepThroughEndsAtMessage | frontend/src/contexts/AppContext.tsx:142-150 | the kept list is a non-empty prefix whose last message is the first one with the id |
| ConversationList.StopStreaming | frontend/src/contexts/AppContext.tsx:236-244 | loaded conversations keep their fields and message count, and no loaded message is streaming |
| ConversationList.Quiet | frontend/src/contexts/AppContext.tsx:239-242 | every message is kept with its streaming flag cleared |
| AppReducer.InitialState | frontend/src/contexts/AppContext.tsx:6-33 | no conversation, nothing selected, zhipu with its built-in key, webhook mode off, dark theme, no user, not Pro |
| AppReducer.Reduce | frontend/src/contexts/AppContext.tsx:35-297 | `appReducer`; each case is stated by the reducer lemmas below, from `AddConversationAppends` to `LoadStateNormalises` |
| AppReducer.Load | frontend/src/contexts/AppContext.tsx:233-292 | LOAD_STATE; stated field by field by `LoadStateNormalises`, with the API config repair by `RepairApiConfig` |
| AppReducer.RepairApiConfig | frontend/src/contexts/AppContext.tsx:246-267 | a loaded API config always ends up with a provider and a zhipu key; a loaded provider and saved keys are kept |
| AppReducer.AddConversationAppends | frontend/src/contexts/AppContext.tsx:37-42 | ADD_CONVERSATION appends the conversation, selects it and changes nothing else |
| AppReducer.DeleteConversationRemoves | frontend/src/contexts/AppContext.tsx:44-52 | DELETE_CONVERSATION keeps exactly the conversations with other ids; the selection moves to the first other conversation only when the deleted one was selected |
| AppReducer.UpdateConversationReplaces | frontend/src/contexts/AppContext.tsx:54-60 | UPDATE_CONVERSATION replaces the conversations with the payload's id and keeps the rest |
| AppReducer.TogglePinTwice | frontend/src/contexts/AppContext.tsx:62-68 | TOGGLE_PIN_CONVERSATION flips the pin of the target, and doing it twice restores the state |
| AppReducer.AddMessageTargetsOne | frontend/src/contexts/AppContext.tsx:76-88 | ADD_MESSAGE appends to the target conversations and stamps them; all else is unchanged |
| AppReducer.UpdateMessageChangesContentOnly | frontend/src/contexts/AppContext.tsx:90-106 | UPDATE_MESSAGE changes only the content of the matching messages of the target, keeping count and order, and stamps the target's `updatedAt` with every other field of it kept |
| AppReducer.SetStreamingChangesFlagOnly | frontend/src/contexts/AppContext.tsx:108-124 | SET_MESSAGE_STREAMING changes only the streaming flag of the matching messages of the target, keeping count and order, and stamps the target's `updatedAt` with every other field of it kept |
| AppReducer.TitleRespectsManualRename | frontend/src/contexts/AppContext.tsx:126-134 | UPDATE_CONVERSATION_TITLE renames and stamps the target only when it was not renamed by hand |
| AppReducer.DeleteMessagesAfterKeepsPrefix | frontend/src/contexts/AppContext.tsx:136-152 | DELETE_MESSAGES_AFTER keeps the prefix ending at the first message with the id, or leaves the target alone without one |
| AppReducer.ClearEmptiesTarget | frontend/src/contexts/AppContext.tsx:154-162 | CLEAR_CONVERSATION empties the target, lifts its manual-rename mark and keeps its name; the others are unchanged |
| AppReducer.TogglesAreInvolutions | frontend/src/contexts/AppContext.tsx:195-217 | each panel toggle changes the state, and applying it twice restores the state |
| AppReducer.UnhandledActionIsIdentity | frontend/src/contexts/AppContext.tsx:294-295 | an action without a case leaves the state unchanged |
| AppReducer.ProStatusFollowsUser | frontend/src/contexts/AppContext.tsx:219-231 | SET_USER derives the Pro flag from the user; SET_PRO_STATUS keeps the user's own flag in step |
| AppReducer.LoadStateNormalises | frontend/src/contexts/AppContext.tsx:233-292 | LOAD_STATE clears the selection; loaded conversations are kept with every streaming flag cleared; the API config is exactly `RepairApiConfig` of the loaded one; the webhook settings default when missing; the prompt config, theme, the four panel flags and the message being edited each take the loaded value or keep the current one |
| LegacyReducer.InitialState | src/contexts/AppContext.tsx:5-16 | no conversation, nothing selected, no API config, the default user template |
| LegacyReducer.Reduce | src/contexts/AppContext.tsx:18-130 | `appReducer` of the older client; each case is stated by the reducer lemmas below |
| LegacyReducer.AddConversationAppends | src/contexts/AppContext.tsx:20-25 | ADD_CONVERSATION appends and selects the conversation |
| LegacyReducer.DeleteConversationRemoves | src/contexts/AppContext.tsx:27-35 | DELETE_CONVERSATION keeps exactly the conversations with other ids; when the deleted one was selected, the selection becomes the first other conversation's id, or none; otherwise it is kept; nothing else changes |
| LegacyReducer.UpdateConversationReplaces | src/contexts/AppContext.tsx:37-43 | UPDATE_CONVERSATION replaces the matching conversations and keeps the rest |
| LegacyReducer.MessageActionsTargetOne | src/contexts/AppContext.tsx:51-81 | both actions change no field of the state but the conversation list; ADD_MESSAGE appends only to the target; UPDATE_MESSAGE changes only the matching messages' content, keeping count, and stamps the target's `updatedAt` with its other fields kept |
| LegacyReducer.ClearEmptiesTargetOnly | src/contexts/AppContext.tsx:83-89 | CLEAR_CONVERSATION empties only the target and keeps its manual-rename mark |
| LegacyReducer.LoadStateOverlays | src/contexts/AppContext.tsx:121-125 | LOAD_STATE: for each of the seven fields, the payload's value when it has one, otherwise the state's; an empty payload changes nothing |
| LegacyReducer.TogglesAndUnhandled | src/contexts/AppContext.tsx:109-128 | the two toggles are involutions; declared actions without a case leave the state unchanged |
| ResponseParser.FirstSpan | frontend/src/utils/responseParser.ts:6-7 | the inner bounds lie between an opening and a closing tag within the text; there are none exactly when no closed span exists |
| ResponseParser.FirstSpanIsLeftmostLazy | frontend/src/utils/responseParser.ts:6-7 | the span starts at the first opening tag and ends at the first closing tag after it, and those two occurrences determine it |
| ResponseParser.InnerHasNoClose | frontend/src/utils/responseParser.ts:6-7 | the lazy inner text holds no closing tag |
| ResponseParser.Field | frontend/src/utils/responseParser.ts:6-10 | trimmed, contained in the content and free of the closing tag; "" without a closed span |
| ResponseParser.TrimmedInnerHasNoClose | frontend/src/utils/responseParser.ts:9-10 | trimming the inner text cannot bring a closing tag into it |
| ResponseParser.TrimKeepsAbsent | frontend/src/utils/responseParser.ts:9-10 | what a string does not contain, its trimmed form does not contain either |
| ResponseParser.ParseTagged | frontend/src/utils/responseParser.ts:5-21 | both fields trimmed and taken from the content; the thinking chain holds no closing tag and needs a closed span; without closed spans the result is an empty chain and the whole trimmed content |
| ResponseParser.ParseAIResponse | frontend/src/utils/responseParser.ts:5-21 | both fields trimmed and taken from the content, and the thinking chain holds no closing thinking tag |
| ResponseParser.ParseLegacyAIResponse | src/utils/responseParser.ts:5-21 | the older client's tags: both fields trimmed and taken from the content, and the thinking chain holds no closing tag |
| ResponseParser.ClosedSpansGiveFields | frontend/src/utils/responseParser.ts:6-20 | with both spans closed and one non-empty, the fields are their trimmed inner texts |
| ResponseParser.UnclosedTagGivesEmptyField | frontend/src/utils/responseParser.ts:6-10 | an opening tag with no closing tag after it gives an empty field |
| ResponseParser.BothEmptyFallsBack | frontend/src/utils/responseParser.ts:13-18 | when both fields are empty the answer is the whole trimmed content |
| ResponseParser.OneFieldNoFallback | frontend/src/utils/responseParser.ts:9-20 | with exactly one non-empty field, thinking-only or answer-only, there is no fallback: each field is its own capture |
| ResponseParser.TrimIdempotent | frontend/src/utils/responseParser.ts:15 | trimming twice is trimming once |
| ResponseParser.ReparseWithoutSpans | frontend/src/utils/responseParser.ts:13-18 | content without closed spans parses to its trimmed self, and parsing that answer again gives the same pair |
| PromptTemplate.WordRun | src/utils/promptTemplate.ts:12 | the length of the run of `\w` characters a text starts with |
| PromptTemplate.Placeholder | src/utils/promptTemplate.ts:12 | a recognised `{{name}}` has a non-empty word name and is followed by `}}` |
| PromptTemplate.NoPlaceholderAtFront | src/utils/promptTemplate.ts:12 | when none is recognised, no `{{name}}` starts the text |
| PromptTemplate.RunOfPlaceholder | src/utils/promptTemplate.ts:12 | a placeholder's name is exactly the word run after its `{{` |
| PromptTemplate.Names | src/utils/promptTemplate.ts:20-25 | `extractVariables`: every listed name is a word name |
| PromptTemplate.UnboundNamesLeaveTemplate | src/utils/promptTemplate.ts:12-15 | when no placeholder name has a value, own or inherited from `Object.prototype`, the template is returned unchanged |
| PromptTemplate.UnboundStep | src/utils/promptTemplate.ts:12-15 | one scan step over an unbound template copies what it scans |
| PromptTemplate.PlaceholderStep | src/utils/promptTemplate.ts:12-15 | one scan step over a leading unbound placeholder copies it |
| PromptTemplate.LiteralStep | src/utils/promptTemplate.ts:12-15 | one scan step over a character that starts no placeholder copies it |
| PromptTemplate.NoVariablesIdentity | src/utils/promptTemplate.ts:8-18 | with no variables, a template naming no inherited property is returned unchanged |
| PromptTemplate.NoPlaceholderNoNames | src/utils/promptTemplate.ts:20-22 | a template with no placeholder has no names |
| PromptTemplate.SinglePass | src/utils/promptTemplate.ts:12-15 | a placeholder whose name has a value, own or inherited, is replaced by it verbatim, and the value is never scanned again |
| PromptTemplate.PlaceholderOfName | src/utils/promptTemplate.ts:12 | `{{n}}` followed by anything is read as the placeholder `n` |
| PromptTemplate.UnboundPlaceholderKept | src/utils/promptTemplate.ts:12-15 | a placeholder whose name has no own or inherited value is kept verbatim |
| PromptTemplate.NamesOfPlaceholderFirst | src/utils/promptTemplate.ts:21-24 | a leading placeholder's name is listed first, then the names of the rest |
| PromptTemplate.InheritedText | src/utils/promptTemplate.ts:13-14 | the text an inherited value prints as; only `__proto__` gives `[object Object]` |
| PromptTemplate.Lookup | src/utils/promptTemplate.ts:13 | `variables[varName]`: an own value wins; without one, a value exists exactly for the inherited names, and it is their printed text |
| PromptTemplate.Parse | src/utils/promptTemplate.ts:8-18 | `parseTemplate`; its behaviour is stated by `SinglePass`, `UnboundPlaceholderKept`, `UnboundNamesLeaveTemplate` and `InheritedPlaceholderReplaced` |
| PromptTemplate.InheritedPlaceholderReplaced | src/utils/promptTemplate.ts:12-15 | `{{constructor}}` is replaced by the text of the `Object` function even when the variables have no such property of their own |
| TitleGenerator.Run | frontend/src/utils/titleGenerator.ts:18 | how far a greedy character-class run reaches: every character before it is in the class, the next one is not |
| TitleGenerator.LazyClose | frontend/src/utils/titleGenerator.ts:19-22 | the lazy match stops at the first closing delimiter and crosses no line terminator unless the pattern is dot-all; a dot-all miss means no delimiter follows |
| TitleGenerator.DropHeadings | frontend/src/utils/titleGenerator.ts:18 | never longer than its input; text without `#` is unchanged |
| TitleGenerator.Unwrap | frontend/src/utils/titleGenerator.ts:19-21 | never longer than its input; text without the delimiter's first character is unchanged |
| TitleGenerator.DropFences | frontend/src/utils/titleGenerator.ts:22 | never longer than its input; text without two adjacent backticks is unchanged |
| TitleGenerator.DropLinks | frontend/src/utils/titleGenerator.ts:23 | never longer than its input; text without `[` is unchanged |
| TitleGenerator.NewlinesToSpaces | frontend/src/utils/titleGenerator.ts:24 | the result holds no newline and is never longer; text without a newline is unchanged |
| TitleGenerator.DropTrailingPunct | frontend/src/utils/titleGenerator.ts:44 | the result is a prefix that does not end in closing punctuation, and only such punctuation is dropped |
| TitleGenerator.LastSpace | frontend/src/utils/titleGenerator.ts:32 | `lastIndexOf(' ')`: the last space, or none exactly when there is no space |
| TitleGenerator.Source | frontend/src/utils/titleGenerator.ts:9-14 | the trimmed user message, unless it is shorter than three characters and a reply is given |
| TitleGenerator.CleanAsWritten | frontend/src/utils/titleGenerator.ts:17-25 | the markdown passes in the source's order give trimmed text |
| TitleGenerator.Clean | frontend/src/utils/titleGenerator.ts:17-25 | the passes with fences dropped before inline code give trimmed text without a newline |
| TitleGenerator.Cut | frontend/src/utils/titleGenerator.ts:28-36 | at most 20 characters and a prefix of the text; the whole text when it fits; more than 10 characters when it is cut |
| TitleGenerator.Finish | frontend/src/utils/titleGenerator.ts:38-46 | never empty and trimmed; the default title or no longer than its input; a trimmed title not ending in closing punctuation is kept as it is |
| TitleGenerator.DefaultTitleKept | frontend/src/utils/titleGenerator.ts:40-46 | the default title survives the punctuation cut and the trim |
| TitleGenerator.GenerateTitleAsWritten | frontend/src/utils/titleGenerator.ts:7-47 | `generateTitle` as written: never empty, trimmed, at most 20 characters |
| TitleGenerator.GenerateTitle | frontend/src/utils/titleGenerator.ts:7-47 | the corrected `generateTitle`: never empty, trimmed, at most 20 characters |
| TitleGenerator.PlainTextIsOwnTitle | frontend/src/utils/titleGenerator.ts:7-47 | a short plain message without closing punctuation is its own title |
| TitleGenerator.PlainTextIsClean | frontend/src/utils/titleGenerator.ts:17-25 | the markdown passes leave trimmed plain text alone |
| TitleGenerator.InlineLeavesNoBacktickPair | frontend/src/utils/titleGenerator.ts:21 | after the inline-code pass no two backticks are adjacent |
| TitleGenerator.SpanHasNoBacktick | frontend/src/utils/titleGenerator.ts:21 | the inner text of a backtick span holds no backtick |
| TitleGenerator.FencePassNeverFires | frontend/src/utils/titleGenerator.ts:21-22 | in the source's order the fenced-block pass never changes anything |
| TitleGenerator.FencedBlockDropped | frontend/src/utils/titleGenerator.ts:22 | in the intended order a fenced block and all its contents are dropped |
| TitleGenerator.FenceClosesAfterBody | frontend/src/utils/titleGenerator.ts:22 | the lazy fence match stops at the first closing fence |
| TitleGenerator.PrefixPassesIdentity | frontend/src/utils/titleGenerator.ts:18-20 | the heading, bold and italic passes leave text without `#` and `*` alone |
| TitleGenerator.LaterPassesIdentity | frontend/src/utils/titleGenerator.ts:22-25 | the fence, link and newline passes and the trim leave trimmed plain text alone |
| TitleGenerator.FenceTitleAsWritten | frontend/src/utils/titleGenerator.ts:17-25 | as written, the message "```a```" gets the title "a" |
| TitleGenerator.FenceTitle | frontend/src/utils/titleGenerator.ts:17-46 | in the intended order the same message gets the default title |
| TitleGenerator.EmptyCleanGivesDefault | frontend/src/utils/titleGenerator.ts:38-46 | a message the passes wipe out gets the default title |
| SseStream.ReadSSEStream | frontend/src/utils/apiService.ts:18-57 | an unreadable body throws with no call; otherwise the result and the `onChunk` calls are those of reading the concatenated text, whatever the chunking |
| SseStream.ReadLines | frontend/src/utils/apiService.ts:37-54 | the inner line loop computes the line-by-line reading function and reports "[DONE]" |
| SseStream.RunStopped | frontend/src/utils/apiService.ts:41-43 | once "[DONE]" has been seen, later lines change nothing |
| SseStream.ChunkStep | frontend/src/utils/apiService.ts:30-35 | reading one more chunk reads the complete lines it finishes, from where the earlier chunks left off |
| SseStream.DoneIgnoresRest | frontend/src/utils/apiService.ts:41-43 | after the early return the later chunks would leave the read as it was |
| SseStream.ConcatSplit | frontend/src/utils/apiService.ts:33 | the decoded text of the chunks splits at any chunk boundary |
| SseStream.CallsFormPrefixChain | frontend/src/utils/apiService.ts:47-49 | every `onChunk` argument extends the earlier ones, and the returned text is the last argument, or "" without one |
| SseStream.RunKeepsPrefixChain | frontend/src/utils/apiService.ts:47-49 | reading lines keeps that chain |
| SseStream.StepKeepsPrefixChain | frontend/src/utils/apiService.ts:47-49 | one line keeps that chain |
| SseStream.UnterminatedLineIgnored | frontend/src/utils/apiService.ts:31-35 | a final line without its newline stays in the buffer and is never read |
| SseStream.IgnoredLineRemovable | frontend/src/utils/apiService.ts:38-53 | a line that is not a "data: " line, or gives no delta, can be removed without changing the read |
| SseStream.DoneLineEndsRead | frontend/src/utils/apiService.ts:41-43 | a "[DONE]" line ends the read: the text and calls are those before it, whatever follows |
| SseStream.DeltaLineAppends | frontend/src/utils/apiService.ts:44-50 | a delta line appends its delta and passes the new total to `onChunk`, unless "[DONE]" came earlier |
| SseStream.Classify | frontend/src/utils/apiService.ts:38-52 | how one complete line is read: not a "data: " line, "[DONE]", or a delta; `IgnoredLineRemovable`, `DoneLineEndsRead` and `DeltaLineAppends` state what each kind does |
| SseStream.Step | frontend/src/utils/apiService.ts:41-50 | one line applied to the total and the `onChunk` calls; `RunOne` and `StepKeepsPrefixChain` state it |
| SseStream.Run | frontend/src/utils/apiService.ts:37-54 | the lines read in order; `RunAppend`, `RunSnoc` and `RunStopped` state how it composes and stops, and `ReadLines` computes it |
| SseStream.ReadText | frontend/src/utils/apiService.ts:30-56 | what the reader makes of the whole decoded body; `ChunkStep`, `UnterminatedLineIgnored` and `CallsFormPrefixChain` state it |
| Providers.ParseRole | frontend/src/utils/apiService.ts:153-156 | a role read back from a wire name is the role written with that name |
| Providers.FirstSystem | frontend/src/utils/apiService.ts:74 | the text of the first system message, or none exactly when there is no system message |
| Providers.AllRolesRoundTrip | frontend/src/utils/apiService.ts:153-156 | the three-role wire list reads back to the original roles and texts |
| Providers.TwoRolesRoundTrip | frontend/src/utils/apiService.ts:66-71 | without system messages, the two-role wire list reads back to the original |
| Providers.TwoRolesNoSystem | frontend/src/utils/apiService.ts:66-71 | the two-role mapping never writes "system" |
| Providers.ZhipuShape | frontend/src/utils/apiService.ts:66-86 | the non-system messages in order, preceded by the first system message exactly when there is one, as the only "system" entry |
| Providers.ZhipuRequest | frontend/src/utils/apiService.ts:62-137 | the glm-4 request with bearer headers and the caller's stream flag; its message list is stated by `ZhipuShape` |
| Providers.OpenAIRequest | frontend/src/utils/apiService.ts:150-210 | the gpt-3.5-turbo request; `AllRolesProviders` states that it keeps every message with its role |
| Providers.TongyiRequest | frontend/src/utils/apiService.ts:264-290 | the qwen-turbo request; `AllRolesProviders` states that it keeps every message with its role |
| Providers.WenxinRequest | frontend/src/utils/apiService.ts:300-325 | the key travels as the `access_token` query parameter; `SystemFreeShape` states its message list |
| Providers.DoubaoRequest | frontend/src/utils/apiService.ts:345-365 | the doubao request; `AllRolesProviders` states that it keeps every message with its role |
| Providers.RequestFor | frontend/src/utils/apiService.ts:405-431 | the request each provider with an adapter sends; `CallModelAPI`, `ChoicesCall` and `AdapterCall` state that it is the one sent |
| Providers.SystemFreeShape | frontend/src/utils/apiService.ts:224-230 | claude and wenxin send no "system" entry, and the other messages in order |
| Providers.ZhipuMessages | frontend/src/utils/apiService.ts:66-86 | the messages zhipu sends; `ZhipuShape` states their shape |
| Providers.ClaudeMessages | frontend/src/utils/apiService.ts:224-230 | the messages claude sends; `SystemFreeShape` states their shape |
| Providers.WenxinMessages | frontend/src/utils/apiService.ts:305-310 | the messages wenxin sends; `SystemFreeShape` states their shape |
| Providers.Extract | frontend/src/utils/apiService.ts:103 | where each adapter reads the reply text (also lines 258, 294 and 330); `Unary` states that an OK JSON reply returns it |
| Providers.ClaudeRequest | frontend/src/utils/apiService.ts:224-250 | the first system message's text goes to `system`, with `max_tokens` 1024 |
| Providers.AllRolesProviders | frontend/src/utils/apiService.ts:153-156 | openai, tongyi and doubao keep every message in order with its role |
| Providers.FailureText | frontend/src/utils/apiService.ts:97-100 | never empty; an unparsable body gives the status text, else the fixed text |
| Providers.Unary | frontend/src/utils/apiService.ts:97-103 | an OK reply with a JSON body returns the field read; a non-OK reply throws the failure text |
| Providers.Streamed | frontend/src/utils/apiService.ts:139-144 | `onChunk` is called only for a readable OK body, whose result and calls are those of the SSE reader on the concatenated chunks |
| Providers.Caught | frontend/src/utils/apiService.ts:442-450 | a returned text succeeds; an `Error` fails with its own message; anything else fails with a fixed message |
| Providers.ApiKey | frontend/src/utils/apiService.ts:389 | a saved key wins; empty exactly when neither a saved nor a legacy key exists |
| Providers.CallModelAPI | frontend/src/utils/apiService.ts:382-451 | no key, or an unknown provider: fails without sending; spark fails without sending; otherwise exactly one request for the provider, streaming only for zhipu and openai with a callback, and only then is `onChunk` called |
| Providers.ChoicesCall | frontend/src/utils/apiService.ts:407-416 | one request is sent, and `onChunk` is called only when streaming was asked for |
| Providers.AdapterCall | frontend/src/utils/apiService.ts:417-431 | one request is sent and `onChunk` is never called |
| Providers.OnChunkIgnoredElsewhere | frontend/src/utils/apiService.ts:402-431 | providers other than zhipu and openai ignore the callback |
| Providers.StreamedCallIsReaderResult | frontend/src/utils/apiService.ts:407-416 | a streamed call returns what the SSE reader returns on the reply body, and that is the last text passed to `onChunk` |
| Providers.StreamedChunks | frontend/src/utils/apiService.ts:139-144 | a readable streamed body settles with the reader's text, the last `onChunk` argument |
| Providers.StreamingCall | frontend/src/utils/apiService.ts:407-416 | a streaming provider called with a callback sends one streaming request and settles as the streamed read of its reply |
| Providers.MissingFieldGivesEmpty | frontend/src/utils/apiService.ts:103 | a reply without the field an adapter reads gives "" rather than an error |
| Providers.LegacyCallModelAPI | src/utils/apiService.ts:255-292 | the older dispatcher: the same key rule and adapters, never calling `onChunk` |
| Providers.LegacyIsNonStreaming | src/utils/apiService.ts:255-292 | the older dispatcher behaves as the newer one called without a callback |
| LegacyApi.SystemTextEmpty | src/utils/api.ts:18-31 | no system entry is sent exactly when there is no system message, or a single one with empty text |
| LegacyApi.SystemText | src/utils/api.ts:18-22 | the system texts joined with a blank line; `SystemTextEmpty` states when it is empty |
| LegacyApi.OpenAIMessages | src/utils/api.ts:18-31 | the wire list; stated by `OpenAIMessagesShape` |
| LegacyApi.LineEvent | src/utils/api.ts:65-80 | how one line is read; `AnthropicCountsOnlyContentDeltas` and `RunLinesConsistent` state what it lets through |
| LegacyApi.StepLine | src/utils/api.ts:65-80 | one line applied to the full text and the deltas; `RunLinesSingle` states it |
| LegacyApi.RunLines | src/utils/api.ts:64-82 | the lines of one chunk read in order; `RunLinesStopped`, `RunLinesAppend`, `RunLinesConsistent` and `ReadChunkLines` state it |
| LegacyApi.RunChunks | src/utils/api.ts:57-85 | the whole stream, each chunk split by itself; `RunChunksConsistent`, `RunChunksPair` and `ReadStream` state it |
| LegacyApi.OpenAIMessagesShape | src/utils/api.ts:18-31 | the merged system text leads when non-empty and is the only "system" entry; the rest is the conversation in order |
| LegacyApi.NoSystemWired | src/utils/api.ts:23-31 | a list without system messages is sent without a "system" entry, at the same length |
| LegacyApi.OpenAIRequest | src/utils/api.ts:33-44 | the configured endpoint, a bearer header with the key, and `stream` exactly when a callback is given |
| LegacyApi.AnthropicMessagesBody | src/utils/api.ts:103-120 | `system` is the merged system text exactly when that text is non-empty, with `max_tokens` 1024 |
| LegacyApi.AnthropicRequestAsWritten | src/utils/api.ts:109-130 | as written, the body never asks for a stream |
| LegacyApi.AnthropicRequest | src/utils/api.ts:109-130 | the corrected request asks for a stream exactly when a callback is given |
| LegacyApi.AnthropicStreamNeverRequested | src/utils/api.ts:109-116 | the two requests differ only in the stream flag, and only when a callback is given |
| LegacyApi.NonBlank | src/utils/api.ts:62 | the lines kept are lines of the input with a non-blank character, and every such line is kept |
| LegacyApi.RunLinesStopped | src/utils/api.ts:67-69 | after "[DONE]" later lines change nothing |
| LegacyApi.RunLinesAppend | src/utils/api.ts:64-82 | reading two line lists in turn is reading their concatenation |
| LegacyApi.RunChunksStopped | src/utils/api.ts:67-69 | once stopped, later chunks change nothing |
| LegacyApi.RunLinesConsistent | src/utils/api.ts:73-77 | reading lines keeps the text equal to the concatenation of non-empty deltas |
| LegacyApi.RunChunksFromConsistent | src/utils/api.ts:57-85 | reading chunks keeps the same invariant |
| LegacyApi.RunChunksConsistent | src/utils/api.ts:73-77 | the returned text is the concatenation of the deltas passed to `onChunk`, none of them empty |
| LegacyApi.ReadStream | src/utils/api.ts:51-85 | the streaming loop computes the chunk-reading function, with that invariant |
| LegacyApi.ReadChunkLines | src/utils/api.ts:64-82 | the loop over one chunk's lines computes the line-reading function and reports "[DONE]" |
| LegacyApi.SplitLineIsLost | src/utils/api.ts:61-62 | a line split across two reads is lost: "data: AB\n" yields a delta in one read and nothing in two |
| LegacyApi.FailureText | src/utils/api.ts:46-49 | never empty; an unparsable body gives the status text, else the fixed text |
| LegacyApi.Settle | src/utils/api.ts:46-90 | deltas are passed on only with a callback; with a callback and a readable OK body the result and deltas are those of the stream loop |
| LegacyApi.CallOpenAIAPI | src/utils/api.ts:8-91 | a missing endpoint or key throws before any request; otherwise exactly the OpenAI request is sent, and deltas come only with a callback |
| LegacyApi.AnthropicCountsOnlyContentDeltas | src/utils/api.ts:156-163 | only `content_block_delta` events with non-empty text add to an Anthropic stream |
| LegacyApi.AnthropicDelta | src/utils/api.ts:157-163 | the text of a `content_block_delta` event, nothing for any other event; `AnthropicCountsOnlyContentDeltas` states it |
| LegacyApi.AnthropicCall | src/utils/api.ts:93-177 | the missing-configuration guard, then one request sent and its reply settled; deltas only when a callback was given |
| LegacyApi.CallAnthropicAPI | src/utils/api.ts:93-177 | `callAnthropicAPI` as written: a missing endpoint or key throws before any request; otherwise exactly the as-written request, without `stream`, is sent, and deltas come only with a callback |
| LegacyApi.CallAnthropicAPICorrected | src/utils/api.ts:93-177 | the corrected call of Findings row 2: the same guards; the request asks for a stream exactly with a callback; without a callback it is the call as written |
| LegacyApi.CallAPI | src/utils/api.ts:179-194 | openai goes to its adapter and anthropic to the call as written; custom and any other format throw their own messages |
| LegacyApi.StreamedReadIsDeltaConcat | src/utils/api.ts:42 | streaming is asked for exactly with a callback to the OpenAI adapter and never by the Anthropic one, and a streamed result is the concatenation of the deltas passed to `onChunk` |
| N8NService.LastUserIndex | frontend/src/utils/n8nService.ts:23-24 | the position of the last user message, or none exactly when there is no user message |
| N8NService.LastUserContent | frontend/src/utils/n8nService.ts:23-24 | the last user message's content, or ""; `WebhookTurnSendsInput` states that a turn sends its new message |
| N8NService.History | frontend/src/utils/n8nService.ts:27-32 | the non-system messages in order, reduced to role and content, none of them a system entry |
| N8NService.BaseHeaders | frontend/src/utils/n8nService.ts:42-51 | the content type, plus `Authorization` and `X-API-Key` exactly when a non-blank key is configured |
| N8NService.Headers | frontend/src/utils/n8nService.ts:42-58 | the base headers with the custom ones written over them; stated by `BuildHeaders`, `AuthHeadersOnlyWithKey` and `CustomHeadersWin` |
| N8NService.MethodOf | frontend/src/utils/n8nService.ts:62 | never empty: POST for an absent or empty setting, the setting otherwise |
| N8NService.RequestFor | frontend/src/utils/n8nService.ts:17-78 | no request exactly for a blank URL; otherwise the URL, method and headers as configured |
| N8NService.BuildHeaders | frontend/src/utils/n8nService.ts:42-58 | the header loop gives the base headers with every custom header written over them |
| N8NService.MoveHeader | frontend/src/utils/n8nService.ts:54-58 | one iteration of the header loop keeps its invariant |
| N8NService.Answer | frontend/src/utils/n8nService.ts:89-109 | the raw text when the body is not a JSON object; otherwise one of `text`, `content`, `message` or the re-serialised JSON |
| N8NService.Caught | frontend/src/utils/n8nService.ts:110-119 | always an `Error`; an `Error` that is not a network failure passes through unchanged |
| N8NService.Outcome | frontend/src/utils/n8nService.ts:80-119 | the call returns exactly for an OK response with a readable body, and every failure is an `Error` |
| N8NService.CallWebhook | frontend/src/utils/n8nService.ts:13-120 | a blank URL throws before any request; otherwise the request is sent and the call settles on the reply |
| N8NService.NoRequestWithoutUrl | frontend/src/utils/n8nService.ts:17-19 | no request is made exactly when every URL character is whitespace |
| N8NService.AuthHeadersOnlyWithKey | frontend/src/utils/n8nService.ts:46-51 | both key headers are present exactly when a non-blank key is configured, carrying the key |
| N8NService.CustomHeadersWin | frontend/src/utils/n8nService.ts:53-58 | every custom header is sent with its own value, overriding a base header of the same name |
| N8NService.BodyOrQuery | frontend/src/utils/n8nService.ts:35-39 | POST or no method sends the JSON body; GET sends the query; never both |
| N8NService.WebhookTurnSendsInput | frontend/src/utils/n8nService.ts:23-32 | for the list a chat turn sends, `userMessage` is the user's text and the history ends with it |
| N8NService.NonSystemOfNonSystem | frontend/src/utils/n8nService.ts:27-28 | dropping system messages twice drops nothing more |
| N8NService.NonSystemAppendOne | frontend/src/utils/n8nService.ts:27-28 | a non-system message survives at the end |
| N8NService.AnswerPriority | frontend/src/utils/n8nService.ts:95-105 | a truthy `text` wins, then `content`, then `message`, then the re-serialised JSON |
| N8NService.CaughtIdempotent | frontend/src/utils/n8nService.ts:110-119 | passing an error through the outer catch twice is passing it once |
| N8NService.MissingCharNotContained | frontend/src/utils/n8nService.ts:113 | a string lacking a character of the pattern does not contain the pattern |
| N8NService.StatusFailureReported | frontend/src/utils/n8nService.ts:83-86 | a non-OK response throws the status and the body text (or the status text) |
| N8NService.StatusError | frontend/src/utils/n8nService.ts:85 | the status message; `StatusFailureReported` states how it surfaces |
| N8NService.Field | frontend/src/utils/n8nService.ts:95-103 | a string property, empty when missing; `AnswerPriority` states the order in which `text`, `content` and `message` are tried |
| N8NService.IsNetworkError | frontend/src/utils/n8nService.ts:113 | the network-error test; `Caught` states that an `Error` failing it is passed through unchanged |
| N8NService.FailuresAreErrors | frontend/src/utils/n8nService.ts:17-119 | every way the call fails surfaces as an `Error` |
| ChatTurn.ApiKeyFor | frontend/src/components/MessageInput.tsx:28-39 | the saved key, else the built-in zhipu key for zhipu; empty exactly when neither applies |
| ChatTurn.N8NConfigValid | frontend/src/components/MessageInput.tsx:42-44 | valid exactly in webhook mode with a URL holding a non-blank character |
| ChatTurn.FindConversation | frontend/src/components/MessageInput.tsx:17 | the first conversation with the id, or none exactly when no conversation has it |
| ChatTurn.CurrentForSend | frontend/src/components/MessageInput.tsx:16-18 | nothing without a truthy selection; otherwise the selected conversation when present |
| ChatTurn.CurrentForList | frontend/src/components/MessageList.tsx:24-26 | the selected conversation when present, nothing without a selection |
| ChatTurn.IdsDiffer | frontend/src/components/MessageInput.tsx:82 | a user id never equals an assistant id; assistant ids made at different clock readings differ |
| ChatTurn.UserId | frontend/src/components/MessageInput.tsx:82 | the user message id; `IdsDiffer` states it never clashes with an assistant id |
| ChatTurn.AssistantId | frontend/src/components/MessageInput.tsx:118 | the assistant message id; `IdsDiffer` states that ids made at different clock readings differ |
| ChatTurn.SystemPrefix | frontend/src/components/MessageInput.tsx:101-109 | the system prompt as one leading message exactly when it has a non-blank character |
| ChatTurn.PlanSend | frontend/src/components/MessageInput.tsx:46-91 | ignored exactly for blank input or while loading; alerted exactly when the mode's configuration is missing; otherwise a turn in the current or a new conversation with the trimmed input and an empty placeholder |
| ChatTurn.SendToModel | frontend/src/components/MessageInput.tsx:98-115 | outside webhook mode the list is the system prompt, the earlier non-system messages, then the user message |
| ChatTurn.SendCallToModel | frontend/src/components/MessageInput.tsx:147-154 | outside webhook mode the call goes to the model with that list |
| ChatTurn.SendToWebhook | frontend/src/components/MessageInput.tsx:147-150 | in webhook mode the webhook gets the earlier non-system messages and the user message, no system prompt |
| ChatTurn.SendCall | frontend/src/components/MessageInput.tsx:98-154 | the call a turn makes; stated by `SendToModel`, `SendCallToModel` and `SendToWebhook` |
| ChatTurn.OutgoingHistory | frontend/src/components/MessageInput.tsx:112-115 | system messages ahead of a filtered history drop out of a second filter |
| ChatTurn.HistoryThenUser | frontend/src/components/MessageInput.tsx:112-115 | a filtered history followed by the user message passes a second filter unchanged |
| ChatTurn.TitleStep | frontend/src/components/MessageInput.tsx:132-133 | a title action exactly when the conversation had no non-system message and was not renamed by hand |
| ChatTurn.StreamTimer | frontend/src/components/MessageInput.tsx:169-178 | a timer only after a reply, switching streaming off after max(30 ms per character, 1 s) |
| ChatTurn.TitleOfAsWritten | frontend/src/components/MessageInput.tsx:182-183 | the title a reply gives, as the source computes it: non-empty and at most 20 characters |
| ChatTurn.TitleOf | frontend/src/components/MessageInput.tsx:182-183 | the title a reply gives with the corrected cleaning: non-empty, at most 20 characters and trimmed |
| ChatTurn.Closing | frontend/src/components/MessageInput.tsx:158-206 | the actions after the call; `SendSucceeds`, `SendFails`, `SendFailureLostAsWritten` and `ClosingTargets` state their effect |
| ChatTurn.SendSteps | frontend/src/components/MessageInput.tsx:46-206 | the corrected turn's actions; stated by `SendSucceeds`, `SendFails` and `SendLeavesOthers` |
| ChatTurn.SendStepsAsWritten | frontend/src/components/MessageInput.tsx:46-206 | the turn's actions as written; stated by `SuccessAlike`, `SendSucceeds` and `SendFailureLostAsWritten` |
| ChatTurn.SuccessAlike | frontend/src/components/MessageInput.tsx:158-192 | on success the as-written and corrected turns dispatch the same actions |
| ChatTurn.ChatSession.constructor | frontend/src/contexts/AppContext.tsx:307 | the session starts in the given state with no dispatch |
| ChatTurn.ChatSession.Dispatch | frontend/src/contexts/AppContext.tsx:307 | the new state is the reducer applied to the old one, and the action is logged |
| ChatTurn.ChatSession.Run | frontend/src/contexts/AppContext.tsx:307 | dispatching a list of steps replays them in order |
| ChatTurn.ChatSession.HandleSend | frontend/src/components/MessageInput.tsx:46-213 | `handleSend` as written: nothing is dispatched unless the guards pass; otherwise the state is the replay of the as-written actions, with the error sent to the later-clock id and the title from `GenerateTitleAsWritten`; the timer starts only after a reply |
| ChatTurn.ChatSession.HandleSendCorrected | frontend/src/components/MessageInput.tsx:46-213 | the corrected handler of Findings rows 1 and 3: the same guards and timer; the error goes into the placeholder and the title is cleaned with fenced blocks dropped |
| ChatTurn.ChatSession.HandleClear | frontend/src/components/MessageInput.tsx:215-220 | CLEAR_CONVERSATION of the current conversation only with one and the user's confirmation; otherwise nothing |
| ChatTurn.OpeningStart | frontend/src/components/MessageInput.tsx:67-79 | a new conversation is appended and selected before the turn's messages are added |
| ChatTurn.ReplayAppend | frontend/src/contexts/AppContext.tsx:307 | replaying two lists is replaying their concatenation |
| ChatTurn.OpeningAppends | frontend/src/components/MessageInput.tsx:88-143 | the opening actions append the user message and a streaming placeholder to the target only |
| ChatTurn.ReduceTargets | frontend/src/contexts/AppContext.tsx:76-134 | a message action aimed at one conversation keeps the list's ids and every other conversation |
| ChatTurn.ReplayTargets | frontend/src/contexts/AppContext.tsx:76-134 | so does a list of such actions |
| ChatTurn.TitleStepEffect | frontend/src/components/MessageInput.tsx:182-192 | the title step touches no message and renames only a conversation not renamed by hand |
| ChatTurn.SendSucceeds | frontend/src/components/MessageInput.tsx:88-192 | after a reply the conversation holds the user message and the placeholder with the reply, still streaming until the timer fires, retitled on a first round |
| ChatTurn.SendFails | frontend/src/components/MessageInput.tsx:193-206 | the corrected error path: the placeholder shows the error text |
| ChatTurn.SendFailureLostAsWritten | frontend/src/components/MessageInput.tsx:193-206 | as written, the error goes to an id made from the later clock reading, so the placeholder stays empty and streaming |
| ChatTurn.SendLeavesOthers | frontend/src/components/MessageInput.tsx:46-213 | a turn changes only conversations with its id, and selects a new conversation; every other field is kept |
| ChatTurn.OpeningLeavesOthers | frontend/src/components/MessageInput.tsx:67-143 | the same for the opening actions |
| ChatTurn.Kept | frontend/src/components/MessageList.tsx:188-191 | the messages through the first with the id, that one carrying the edit; nothing when no message has the id |
| ChatTurn.PlanResend | frontend/src/components/MessageList.tsx:178-247 | no resend exactly without a current conversation or key, while resending, or for a blank edit; otherwise the kept history is sent to the model behind the system prompt, even in webhook mode |
| ChatTurn.EditBox.constructor | frontend/src/components/MessageList.tsx:18-19 | no message is being edited and the edit text is empty |
| ChatTurn.EditBox.HandleStartEdit | frontend/src/components/MessageList.tsx:146-149 | only a user message can be edited; its text becomes the edit text |
| ChatTurn.EditBox.HandleCancelEdit | frontend/src/components/MessageList.tsx:160-163 | the edit state is cleared |
| ChatTurn.EditBox.HandleResend | frontend/src/components/MessageList.tsx:178-292 | nothing happens unless the guards pass; otherwise the resend's actions are replayed and the edit state is cleared, whatever the outcome |
| ChatTurn.EditBox.RunResend | frontend/src/components/MessageList.tsx:193-288 | the dispatches of a resend that passed the guards |
| ChatTurn.SameIdsSameFind | frontend/src/components/MessageList.tsx:188 | lists with the same ids in the same order have the same first match |
| ChatTurn.EditThenCut | frontend/src/components/MessageList.tsx:194-210 | the edit followed by the cut leaves exactly the kept history |
| ChatTurn.ResendSucceeds | frontend/src/components/MessageList.tsx:228-267 | after a reply the conversation is the kept history ending in the edited message, then the placeholder with the reply, no longer streaming |
| ChatTurn.ResendFailureLeavesPlaceholder | frontend/src/components/MessageList.tsx:268-288 | after a failure the error is appended after the placeholder, which stays empty and streaming |
| ChatTurn.ResendOfMissingMessage | frontend/src/components/MessageList.tsx:188-191 | resending an id the conversation lacks sends no history, only the system prompt |
| ChatTurn.ResendSteps | frontend/src/components/MessageList.tsx:228-288 | the resend's actions; stated by `ResendSucceeds` and `ResendFailureLeavesPlaceholder` |
| ChatTurn.ResendOpening | frontend/src/components/MessageList.tsx:193-240 | the edit, the cut and the placeholder; `ResendOpened` states the state they leave |
| ChatTurn.ResendClosing | frontend/src/components/MessageList.tsx:249-288 | the reply into the placeholder, or the error appended; `ResendSucceeds` and `ResendFailureLeavesPlaceholder` state it |
| ChatTurn.ResendError | frontend/src/components/MessageList.tsx:276-287 | the error message appended after a failed resend; `ResendFailureLeavesPlaceholder` states where it lands |
| LegacyTurn.Current | src/components/MessageInput.tsx:15-16 | the first conversation with the selected id, or none |
| LegacyTurn.TemplateVars | src/components/MessageInput.tsx:49-53 | the template variables; `DefaultTemplateFills` states how `user_input` is used |
| LegacyTurn.PlanSend | src/components/MessageInput.tsx:26-75 | ignored exactly for blank input, no current conversation, no API config or while loading; otherwise the stored message holds the trimmed input and the sent copy the filled template |
| LegacyTurn.OutgoingEndsWithUser | src/components/MessageInput.tsx:56-75 | the outgoing list ends with the templated user message, after the earlier non-system messages |
| LegacyTurn.DefaultTemplateSendsInput | src/components/MessageInput.tsx:49-53 | with the default template the text sent is the trimmed input |
| LegacyTurn.DefaultTemplateFills | src/utils/promptTemplate.ts:8-18 | the default template is replaced by the value of `user_input` |
| LegacyTurn.ChunkContentsGrow | src/components/MessageInput.tsx:95-105 | each update's text is a prefix of every later one, and the last is all deltas joined |
| LegacyTurn.ChunkAt | src/components/MessageInput.tsx:95-105 | each update carries the deltas joined up to it |
| LegacyTurn.ChunkSteps | src/components/MessageInput.tsx:95-105 | one update per delta; stated by `ChunkContentsGrow`, `ChunkAt` and `ChunksFill` |
| LegacyTurn.SendSteps | src/components/MessageInput.tsx:38-120 | the corrected turn's actions; stated by `LegacySendSucceeds` and `LegacySendFails` |
| LegacyTurn.SendStepsAsWritten | src/components/MessageInput.tsx:38-120 | the turn's actions as written; stated by `LegacySendSucceeds` and `LegacyErrorLostAsWritten` |
| LegacyTurn.ConcatPrefix | src/components/MessageInput.tsx:101-104 | the deltas joined up to one point are a prefix of those joined up to a later point |
| LegacyTurn.LegacySession.constructor | src/contexts/AppContext.tsx:140 | the session starts in the given state with no dispatch |
| LegacyTurn.LegacySession.Dispatch | src/contexts/AppContext.tsx:140 | the new state is the reducer applied to the old one |
| LegacyTurn.LegacySession.Run | src/contexts/AppContext.tsx:140 | dispatching a list of steps replays them in order |
| LegacyTurn.LegacySession.StreamDeltas | src/components/MessageInput.tsx:95-105 | the `onChunk` callback dispatches the chunk updates and returns the deltas joined |
| LegacyTurn.LegacySession.HandleSend | src/components/MessageInput.tsx:26-127 | `handleSend` as written: nothing is dispatched unless the guards pass; otherwise the state is the replay of the as-written actions, with a failed call's error sent to the later-clock id |
| LegacyTurn.LegacySession.HandleSendCorrected | src/components/MessageInput.tsx:26-127 | the corrected handler of Findings row 4: the same guards; a failed call's error goes into the placeholder |
| LegacyTurn.LegacySession.RunTurn | src/components/MessageInput.tsx:38-120 | the dispatches of a turn that passed the guards: the two messages, one update per delta, then the error update addressed to the given target |
| LegacyTurn.LegacySession.OpenAndStream | src/components/MessageInput.tsx:38-106 | the two messages, then one update per delta |
| LegacyTurn.LegacySession.HandleClear | src/components/MessageInput.tsx:129-134 | CLEAR_CONVERSATION of the current conversation only with one and the user's confirmation |
| LegacyTurn.ReplayAppend | src/contexts/AppContext.tsx:140 | replaying two lists is replaying their concatenation |
| LegacyTurn.Opened | src/components/MessageInput.tsx:38-89 | the opening actions append the user message and the placeholder |
| LegacyTurn.ChunksFill | src/components/MessageInput.tsx:95-105 | after the first k updates the placeholder holds the first k deltas joined |
| LegacyTurn.Streamed | src/components/MessageInput.tsx:38-106 | after all updates the placeholder holds every delta joined |
| LegacyTurn.LegacySendSucceeds | src/components/MessageInput.tsx:38-106 | after a successful call the conversation gains the user message and the placeholder holding the streamed text |
| LegacyTurn.LegacySendFails | src/components/MessageInput.tsx:107-120 | the corrected error path: the placeholder shows the error text |
| LegacyTurn.LegacyErrorLostAsWritten | src/components/MessageInput.tsx:107-120 | as written, the error goes to an id made from the later clock reading, so the placeholder keeps only the streamed text |
| PaymentService.Coalesce | backend/src/models/order.model.ts:57-67 | `value \|\| null` then `COALESCE`: the new value unless it is absent or empty |
| PaymentService.ApplyStatus | backend/src/models/order.model.ts:47-74 | the status is set, `paid_at` stamped exactly on paid, `wechat_order_id` and `wechat_transaction_id` each coalesced with the stored value, every other column kept |
| PaymentService.SetPro | backend/src/models/user.model.ts:47-60 | only the user with the id changes, and only in Pro flag and expiry; an unknown id changes nothing |
| PaymentService.FindByWechatOrderId | backend/src/models/order.model.ts:41-45 | an order with that provider id, or none exactly when no order has it |
| PaymentService.QrCode | backend/src/services/payment.service.ts:54-71 | a URL ending in the provider order id in the sandbox; a failure outside it |
| PaymentService.NewOrder | backend/src/services/payment.service.ts:24-32 | a new order for the user and amount, expiring thirty days on, with no provider id and not paid |
| PaymentService.CreateOrderEffect | backend/src/services/payment.service.ts:19-47 | the order is inserted whatever happens; in the sandbox it gets its provider id and the QR code is returned, otherwise the call fails |
| PaymentService.CallbackStatus | backend/src/services/payment.service.ts:85 | paid exactly for result code SUCCESS, failed otherwise |
| PaymentService.CallbackEffect | backend/src/services/payment.service.ts:76-110 | the tables keep their keys and the orders stay well keyed |
| PaymentService.SubscriptionEffect | backend/src/services/payment.service.ts:122-142 | an unknown user fails and changes nothing; a reported expiry is never in the past; a known user whose expiry has not passed gets the stored `is_pro` and `pro_expires_at` back with the table unchanged |
| PaymentService.PaymentStore.constructor | backend/src/services/payment.service.ts:15 | the store holds the given well-keyed tables |
| PaymentService.PaymentStore.CreateOrder | backend/src/services/payment.service.ts:19-47 | the tables become those of the creation effect and the users are unchanged |
| PaymentService.PaymentStore.HandleWechatCallback | backend/src/services/payment.service.ts:76-110 | the tables become those of the callback effect |
| PaymentService.PaymentStore.GetSubscriptionStatus | backend/src/services/payment.service.ts:122-142 | the users become those of the subscription effect and the orders are unchanged |
| PaymentService.CreateKeepsWellKeyed | backend/src/services/payment.service.ts:28-41 | order creation keeps every order under its own id with its own provider id |
| PaymentService.QrCodeNamesOrder | backend/src/services/payment.service.ts:37-38 | stripping the QR URL and the provider prefix gives back the order id |
| PaymentService.FailedCreationIsUnpayable | backend/src/services/payment.service.ts:37-41 | an order whose QR code failed has no provider id, so no callback finds it |
| PaymentService.UnknownOrderChangesNothing | backend/src/services/payment.service.ts:88-91 | a callback for an unknown provider order fails and changes nothing |
| PaymentService.PaidOrderChangesNothing | backend/src/services/payment.service.ts:93-96 | a callback for a paid order succeeds and changes nothing |
| PaymentService.CallbackUpdatesOrder | backend/src/services/payment.service.ts:98-109 | a pending or failed order becomes exactly `ApplyStatus` of the stored order with the callback's status, trade number and transaction id; on payment its user becomes Pro until the order's expiry; the set of orders and every other order and user are unchanged |
| PaymentService.CallbackIdempotent | backend/src/services/payment.service.ts:93-96 | delivering the same callback twice has the effect of delivering it once |
| PaymentService.ExpiredProIsDowngraded | backend/src/services/payment.service.ts:131-136 | an expired Pro user is downgraded and reported as not Pro with no expiry |
| PaymentService.SubscriptionCheckIdempotent | backend/src/services/payment.service.ts:122-142 | checking twice answers the same and changes nothing more |
| PaymentService.PaidOrderGrantsThirtyDays | backend/src/services/payment.service.ts:19-142 | an order created in the sandbox and paid makes its user Pro, expiring thirty days after creation, at any check within that window |

## Left out

- Rendering, scrolling, focus, `alert`, `confirm`, the clipboard and the loading flags are not modelled. The confirmation of `handleClear` is a parameter.
- `Date.now()` and the locale date and time strings are parameters. A turn reads the clock once before its awaited call (`now`) and once after it (`later`). Every per-chunk update is stamped with `later`.
- The timer of `handleSend` is returned as a value (a delay and an action). Its firing is not modelled.
- `fetch`, `response.json()`, `response.text()` and the body reader are parameters. The replies they give are data, and a reply stands for everything the network would have done.
- `TextDecoder` is not modelled: chunks are already-decoded strings.
- `JSON.parse`, `JSON.stringify` and `URLSearchParams` are modelled by their results. Parsed fields are strings, so a truthy non-string JSON field is not modelled.
- String lengths count characters, not UTF-16 code units. This matters for the 20-character title cut and for the timer delay.
- `console` output is not modelled.
- The older `callAPI` reads `config.format`, `config.endpoint` and `config.apiKey`, which the older app state's API config does not declare. The model gives `callAPI` its own config record.
- The older client's `userPromptTemplate` may be missing from a loaded state. The model assumes it is a string.
- PromptTemplate.InheritedText: an inherited method prints as V8 prints a built-in function. The model does not cover other engines' text, or a variables object whose own property is `undefined`.
- `getProviderDisplayName` of both `apiService.ts` files is not modelled, as it only names providers for display.
- Saving the state to `localStorage` is not modelled. Loading it is modelled as the LOAD_STATE payload.
- Concurrency is not modelled. Two sends cannot interleave, and a handler runs to completion between its dispatches.
- PaymentService.CreateOrderEffect: the database picks the new order's id. It is the parameter `newId`, assumed not yet used. The inserted row is assumed to be 'pending', the column default. A failed insert and `updated_at` are not modelled.
- PaymentService: thirty days is taken as 30 × 86 400 000 ms. Calendar effects of `setDate` are not modelled.
- PaymentService.PaymentStore.constructor: it requires the tables to be well keyed, with every order under its own id and its provider id being `ORDER_` plus that id. The source maintains this but never checks it.
- Signature verification of the WeChat callback is commented out in the source, so it is not modelled.
- `getOrderStatus` is not modelled, as it is a plain lookup.
- The authentication routes, controllers and the rest of the backend are not part of this model.

## Findings

| source | as written | input that shows it | evidently intended | confidence | as-written member | corrected member |
|---|---|---|---|---|---|---|
| frontend/src/utils/titleGenerator.ts:21-22 | the inline-code pass runs before the fenced-block pass, so it consumes the backticks and the fence pass never fires | user message "```a```" gives the title "a" | a fenced block is dropped as a whole, so "```a```" gets the default title | not executed | TitleGenerator.FenceTitleAsWritten | TitleGenerator.FenceTitle |
| src/utils/api.ts:109-116 | the Anthropic request body has no `stream` field, yet line 137 reads the reply as a stream when a callback is given | any call with a callback | `stream: true` whenever the reply is read as a stream | not executed | LegacyApi.AnthropicStreamNeverRequested | LegacyApi.AnthropicRequest |
| frontend/src/components/MessageInput.tsx:193-206 | the error goes to `msg-${Date.now()}-assistant`, read again after the awaited call | a call that fails 1 ms or more after it started | the error replaces the placeholder's text | not executed | ChatTurn.SendFailureLostAsWritten | ChatTurn.SendFails |
| src/components/MessageInput.tsx:107-120 | the same: the error is written to an id made from a later clock reading | a call that fails 1 ms or more after it started | the error replaces the placeholder's text | not executed | LegacyTurn.LegacyErrorLostAsWritten | LegacyTurn.LegacySendFails |

# Chat handler of the Freemason Terminal worker, in Dafny

This project models `ChatHandler`, the class in `worker/chat.ts`. The terminal's backend sends each user message through it, and it proves properties of that model. One turn of the handler:

- builds the opening request: a system prompt that shows the current knowledge list, the last five history entries and the user's message;
- sends that request to a chat-completion endpoint, either streamed (when a chunk callback is given) or blocking;
- in the streamed case, concatenates the text deltas, forwards each delta to the callback with its knowledge markers stripped and its edges trimmed, and assembles tool calls from their fragments, one slot per array position;
- extracts `[ADD_KNOWLEDGE:...]` markers from the model's text into the knowledge list (an insertion-ordered set of trimmed payloads) and removes them from the text shown to the user;
- when the model asked for tools, runs every call and turns each failure into an `{ error }` payload without aborting the batch. It then asks the model a second time with the tool results and returns that answer.

Modules, one file each:

- `wrappers.dfy`: `Option` and `Result`.
- `text.dfy`: the JavaScript string operations the handler uses. These are `trim` with its whitespace set, `join`, and the decimal rendering inside a template literal.
- `knowledge.dfy`: the global regular expression `\[ADD_KNOWLEDGE:([^\]]+)\]`, modelled as a left-to-right scanner. It also holds `stripKnowledgeTags`, and `parseKnowledge` as a loop over a list that behaves as an insertion-ordered set.
- `tools.dfy`: `executeToolCalls`, including its `try`/`catch` around `JSON.parse` and the tool call.
- `stream.dfy`: the `for await` loop of `handleStreamResponse` as a method. It is proved against functions of the chunks received so far: the full text, the callback's arguments, and each slot's id, name and arguments.
- `messages.dfy`: `buildConversationMessages`, and the request `generateToolResponse` sends.
- `turn.dfy`:
  - the outcome of a streamed turn and of a blocking turn, as functions;
  - the class `ChatHandler`, with its `model` field, `updateModel` and `processMessage`;
  - lemmas relating the two paths.

The endpoint, JSON parsing, the tool registry, `JSON.stringify` and `Date.now()` are not part of this model. They enter as functions held in an `Env` value, so every statement holds for all of them.

## Model

| member | source | states |
|---|---|---|
| `Text.TrimStartShape` | worker/chat.ts:55 | The leading part `trim` removes is all whitespace. What is left is a suffix of the input that does not start with whitespace. |
| `Text.TrimEndShape` | worker/chat.ts:55 | The trailing part `trim` removes is all whitespace. What is left is a prefix of the input that does not end with whitespace. |
| `Text.TrimShape` | worker/chat.ts:55 | `s.trim()` is an infix of `s` that neither starts nor ends with whitespace. |
| `Text.TrimIdempotent` | worker/chat.ts:55 | Trimming twice is trimming once. |
| `Text.TrimUntouched` | worker/chat.ts:55 | A string with no whitespace at either end is left unchanged by `trim`. |
| `Text.JoinContains` | worker/chat.ts:163 | Every element of `knowledge` occurs in `knowledge.join(', ')` at a known offset. |
| `Text.NatToString` | worker/chat.ts:77 | The decimal rendering of a number is a non-empty string of digits. |
| `Text.NatToStringRoundTrip` | worker/chat.ts:77 | Reading the decimal rendering back gives the number, so the rendering is injective. |
| `Knowledge.RunLength` | worker/chat.ts:5 | The greedy `[^\]]+` run stops exactly at the first `]` or at the end of the text. |
| `Knowledge.MatchAt` | worker/chat.ts:5 | A match spans more than the opening and stays inside the text. |
| `Knowledge.MatchAtShape` | worker/chat.ts:5 | A match is the opening, a non-empty payload free of `]`, then `]`. The payload is what the capture group returns. |
| `Knowledge.MatchAtMarker` | worker/chat.ts:5 | Conversely, every well-formed marker at the start of a text matches, whatever follows it. |
| `Knowledge.MatchAtExtend` | worker/chat.ts:5 | Text appended after a match does not change the match. |
| `Knowledge.MatchAtMismatch` | worker/chat.ts:5 | A position whose text departs from the opening starts no match. |
| `Knowledge.Scan` | worker/chat.ts:48 | Every match the global scan yields carries a well-formed payload. |
| `Knowledge.ScanRender` | worker/chat.ts:5 | The scan loses no text: its plain characters and matched markers, written back in order, give the input. |
| `Knowledge.ScanSizes` | worker/chat.ts:55 | The text left after removal, plus 17 characters for every payload found, never exceeds the input. Every removed marker is at least 17 characters long. |
| `Knowledge.ScanBracketFree` | worker/chat.ts:55 | Text without `[` passes through unchanged and adds no payload. |
| `Knowledge.ScanMarker` | worker/chat.ts:48 | A marker followed by more text is scanned as one match. |
| `Knowledge.ScanMarkerFront` | worker/chat.ts:48-55 | Removing a leading marker leaves the rest of the text, and its payload comes first. |
| `Knowledge.NoMarkerScan` | worker/chat.ts:48-55 | A text holds no match exactly when the scan reports no payload. Such text is left unchanged by removal. |
| `Knowledge.RemoveTagsChanges` | worker/chat.ts:55 | `content.replace(KNOWLEDGE_REGEX, '')` changes the text exactly when the text holds a marker. |
| `Knowledge.NoMarkerPrefix` | worker/chat.ts:5 | A prefix of marker-free text is marker-free. |
| `Knowledge.NoMarkerInfix` | worker/chat.ts:5 | Any infix of marker-free text is marker-free. |
| `Knowledge.StripMarkerFree` | worker/chat.ts:54-56 | On marker-free text, `stripKnowledgeTags` only trims, and no payload is found. |
| `Knowledge.NoMarkerTrim` | worker/chat.ts:55 | Trimming cannot create a marker. |
| `Knowledge.StripIdempotentWhenClean` | worker/chat.ts:54-56 | When removal leaves no marker behind, stripping is idempotent. |
| `Knowledge.StripNotIdempotent` | worker/chat.ts:54-56 | Removal can join two pieces of text into a new marker. For `"[ADD_" + marker(x) + "KNOWLEDGE:y]"`, stripping finds `x` and leaves `"[ADD_KNOWLEDGE:y]"`. A second strip removes that, leaves `""` and finds `y`. |
| `Knowledge.BrokenOpening` | worker/chat.ts:5 | `"[ADD_"` directly followed by `[` is kept as plain text, and scanning resumes at that `[`. |
| `Knowledge.MarkerAlone` | worker/chat.ts:54-56 | A lone marker strips to `""` and yields exactly its payload. |
| `Knowledge.StripAndMergeExample` | worker/chat.ts:46-56 | A sentence followed by the same marker twice strips to the trimmed sentence. The knowledge becomes the single trimmed payload. |
| `Knowledge.RepeatedPayloadMerged` | worker/chat.ts:49-52 | A payload captured twice is recorded once. |
| `Knowledge.TrimAllClean` | worker/chat.ts:50 | An item recorded from a capture (`match[1].trim()`) is the part of the capture between its leading and trailing whitespace. It starts and ends with no whitespace, and trimming it again leaves it unchanged. |
| `Knowledge.AddAllShape` | worker/chat.ts:47-52 | After the `add` calls, the set holds exactly the old elements plus the added ones. The old elements stay in front, unchanged. Every appended element is new and comes from the added list. |
| `Knowledge.AddAllNoDup` | worker/chat.ts:47-52 | `add` never creates a duplicate. |
| `Knowledge.AddAllDistinct` | worker/chat.ts:47 | `new Set(list)` gives a duplicate-free list back unchanged. |
| `Knowledge.AddAllOrder` | worker/chat.ts:49-52 | Appended elements come in the order of their first occurrence among the added payloads. |
| `Knowledge.MergeKnowledgeProperties` | worker/chat.ts:46-53 | `parseKnowledge` returns a duplicate-free list whose elements are exactly the current items and the trimmed payloads. The deduplicated current items come first. |
| `Knowledge.MergeKeepsDistinctKnowledge` | worker/chat.ts:47 | Current knowledge that is already duplicate-free is kept as it is, in front. |
| `Knowledge.MergeMarkerFree` | worker/chat.ts:48-51 | Marker-free text adds nothing: the result is the current knowledge, deduplicated. |
| `Knowledge.ParseKnowledge` | worker/chat.ts:46-53 | The loops seed the set with the current knowledge, then add each trimmed capture. The result equals the merge function, is duplicate-free and holds exactly the current items and the payloads. |
| `Tools.FailureMessageShape` | worker/chat.ts:134 | The error text starts with `"Failed to execute "` followed by the tool's name. It ends with the error's message, or with `"Unknown error"` for a thrown value that is not an `Error`. |
| `Tools.Execute` | worker/chat.ts:124-136 | A call keeps its id and name. When parsing and the tool both succeed, it carries the parsed arguments and the tool's result. Otherwise it carries `{}` and an error payload built from what was thrown. |
| `Tools.ExecuteToolCalls` | worker/chat.ts:122-139 | There is exactly one resolved call per request, in the same order, each being that request executed. |
| `Tools.EmptyArgumentsResolveToEmptyObject` | worker/chat.ts:126 | A call with empty argument text resolves with `{}` as its arguments, whether it succeeds or fails. |
| `Tools.FailureIsolated` | worker/chat.ts:123-137 | A failing call yields its error payload and leaves every other call's result as it would be alone. |
| `Stream.MaxWidthIsMaximum` | worker/chat.ts:73-81 | No chunk's `tool_calls` array is longer than the slot count, and some chunk reaches it. |
| `Stream.MaxWidthBound` | worker/chat.ts:73-81 | A width no chunk exceeds bounds the slot count. |
| `Stream.FullTextAppend` | worker/chat.ts:64-71 | The full text of a stream is the full text of its two halves, however it is split. |
| `Stream.EmittedAppend` | worker/chat.ts:64-71 | The callback's arguments for a stream are those of its two halves, however it is split. |
| `Stream.SlotNameAppend` | worker/chat.ts:82 | A slot's name is the in-order concatenation of the name fragments at its position. |
| `Stream.SlotArgsAppend` | worker/chat.ts:83 | A slot's argument text is the in-order concatenation of the argument fragments at its position. |
| `Stream.MaxWidthAppend` | worker/chat.ts:75 | Slots are never removed. |
| `Stream.SlotIdStable` | worker/chat.ts:75-81 | Later chunks never change a slot's id. |
| `Stream.SlotIdFromFirstFragment` | worker/chat.ts:75-77 | Slot `i` takes its id from the first chunk whose array reaches position `i`. That is the fragment's id if truthy, otherwise `tool_<ms>_<i>` with the clock reading at that chunk. |
| `Stream.SlotCreated` | worker/chat.ts:75-77 | The chunk that first reaches position `i` creates slot `i` with the id its fragment gives. |
| `Stream.SlotIdNonEmpty` | worker/chat.ts:77 | Every slot has a non-empty id. |
| `Stream.FallbackIdInjective` | worker/chat.ts:77 | Generated ids differ whenever the clock readings or the positions differ. |
| `Stream.SlotTextBeyondWidth` | worker/chat.ts:79 | Before a slot exists, no name or argument text has been collected for it, so a new slot starts empty. |
| `Stream.SlotAfter` | worker/chat.ts:74-83 | After a chunk, a slot it reaches is the old slot (or a new one with the id the fragment gives) with the chunk's name and argument fragments appended. |
| `Stream.SlotUntouched` | worker/chat.ts:73 | A chunk leaves the slots beyond its array length unchanged. |
| `Stream.MergeFragments` | worker/chat.ts:72-85 | The inner loop over `delta.tool_calls` turns the slots of the chunks so far into the slots after this chunk. |
| `Stream.Accumulate` | worker/chat.ts:64-86 | The outer loop ends with `fullContent`, the callback's arguments and `accumulatedToolCalls` equal to the full text, the emitted list and the slots of the whole stream. |
| `Stream.TwoChunksWidth` | worker/chat.ts:73-81 | Two chunks give as many slots as the longer of their arrays. |
| `Stream.TwoChunksText` | worker/chat.ts:82-83 | Over two chunks, a slot's name and argument text are the two chunks' fragments at its position, concatenated. |
| `Stream.TwoChunksId` | worker/chat.ts:75-77 | A slot created by the first of two chunks takes its id from that chunk. |
| `Stream.SeparateCallsShareSlotZero` | worker/chat.ts:73-83 | Two calls sent in separate one-element arrays share slot 0. The second id is dropped and the names run together. |
| `Stream.InterleavedCallsCollapse` | worker/chat.ts:73-83 | Interleaved fragments of two calls, each in its own one-element array, collapse into one call. Its name and arguments are the two calls' texts run together, under a generated id. |
| `Stream.FourSingleChunks` | worker/chat.ts:73-83 | Four chunks with one fragment each fill slot 0 alone, with all their text concatenated. |
| `Stream.OneSlot` | worker/chat.ts:73-83 | A stream whose every array has one entry fills slot 0 only, under the first fragment's id. |
| `Stream.FourNames` | worker/chat.ts:82-83 | Over four chunks, slot 0's name and arguments are the four fragments concatenated. |
| `Stream.SideBySideCallsKeepSlots` | worker/chat.ts:73-83 | Calls that share one `tool_calls` array get one slot each, with their own ids, names and arguments. |
| `Stream.TwoSlots` | worker/chat.ts:73-83 | Two chunks, the first with two fragments, give two slots, each with its own id and text. |
| `Stream.TwoTextChunksEmitted` | worker/chat.ts:68-70 | Two text deltas each reach the callback, stripped on their own. |
| `Stream.TwoTextChunksText` | worker/chat.ts:68-69 | The full text of two text deltas is their concatenation. |
| `Stream.TrimmedDeltas` | worker/chat.ts:68-70 | Each delta is trimmed on its own before it reaches the callback. For words with clean edges and no `[`, `w1 + " "` then `w2` (say `"Hello "` then `"world"`) arrive as `w1` and `w2`, while the full text is `w1 + " " + w2`. |
| `Stream.SplitMarkerLeaks` | worker/chat.ts:70 | A marker split as `"["` and `"ADD_KNOWLEDGE:p]"` reaches the callback unstripped, as those two strings. |
| `Stream.SplitMarkerRecorded` | worker/chat.ts:87-88 | The same split marker is still recorded from the full text, and the final text strips to `""`. |
| `Messages.Window` | worker/chat.ts:186 | `history.slice(-n)` has `n` entries, or all of them when there are fewer. |
| `Messages.WindowAt` | worker/chat.ts:186 | The window's entries are the last entries of the history, in order. |
| `Messages.Relay` | worker/chat.ts:186-189 | The relayed history has one message per entry. |
| `Messages.RelayAt` | worker/chat.ts:186-189 | Each entry is relayed with its own role and content, at its own position. |
| `Messages.KnowledgeLineInPrompt` | worker/chat.ts:163-168 | The `CURRENT KNOWLEDGE: [...]` line sits in the system prompt right after the persona introduction. |
| `Messages.KnowledgeInLine` | worker/chat.ts:163 | Every known item appears in the knowledge line, after the header. |
| `Messages.PromptListsKnowledge` | worker/chat.ts:163-168 | Every known item appears in the system prompt, at an offset fixed by the items before it. |
| `Messages.OpeningLayout` | worker/chat.ts:164-191 | The opening request is the system prompt, then the last five history entries (all of them when fewer) in their order with role and content, then the user's message. |
| `Messages.OldHistoryIgnored` | worker/chat.ts:186 | History older than the last five entries never reaches the model. |
| `Messages.Replies` | worker/chat.ts:153-157 | There is one tool message per result. |
| `Messages.ReplyAt` | worker/chat.ts:153-157 | The tool message at position `i` carries the stringified `i`-th result and `openAiToolCalls[i]?.id \|\| result.id`. |
| `Messages.FollowUpLayout` | worker/chat.ts:148-152 | The follow-up request has the fixed instruction first, then the last three history entries in order, the user's message, and the assistant message carrying the calls. |
| `Messages.FollowUpRepliesLayout` | worker/chat.ts:153-157 | The follow-up request ends with one tool message per result, in order. |
| `Messages.RepliesAnswerCalls` | worker/chat.ts:122-157 | When the results come from executing the calls, each tool message answers the call at its own position, under that call's id. |
| `Messages.ReplyIdFallsBack` | worker/chat.ts:156 | A position without a call, or whose call has an empty id, uses the result's id. |
| `Turn.FollowUpAnswer` | worker/chat.ts:160 | `generateToolResponse` returns the follow-up message's text when it is non-empty, otherwise the fixed fallback. It is never empty. |
| `Turn.ChatHandler.constructor` | worker/chat.ts:9-15 | The handler keeps the gateway address, the key and the model it is given. |
| `Turn.ChatHandler.UpdateModel` | worker/chat.ts:193-195 | Later turns use the new model, and nothing else changes. |
| `Turn.ChatHandler.ProcessMessage` | worker/chat.ts:16-45 | With a callback, the result is the streamed turn for the handler's current model, and the callback receives the streamed turn's emitted texts. Without one, the result is the blocking turn and the callback is never called. |
| `Turn.ChatHandler.HandleStreamResponse` | worker/chat.ts:57-95 | The streamed path returns the outcome function of the chunks received, and calls the callback with the emitted list. |
| `Turn.ChatHandler.HandleNonStreamResponse` | worker/chat.ts:96-121 | The blocking path returns the outcome function of the message received. |
| `Turn.MissingReplyApologises` | worker/chat.ts:102-105 | Without a message, the turn returns the apology and the knowledge exactly as given. |
| `Turn.BlockingKnowledge` | worker/chat.ts:106-120 | A blocking turn's knowledge is duplicate-free and keeps duplicate-free prior knowledge in front. Without tools it adds exactly the reply's trimmed payloads. With tools it adds the follow-up answer's payloads as well. |
| `Turn.StreamKnowledge` | worker/chat.ts:87 | A streamed turn's knowledge is duplicate-free, keeps duplicate-free prior knowledge in front, and adds exactly the trimmed payloads of the full streamed text. |
| `Turn.EmptyToolCallsStillFollowUp` | worker/chat.ts:108-120 | An empty `tool_calls` array is truthy: the blocking turn still asks the model again with no tool messages, and returns that answer stripped. |
| `Turn.StreamAgreesWithBlocking` | worker/chat.ts:87-110 | Without tool calls, a stream and a blocking reply with the same text give the same turn. |
| `Turn.StreamToolCalls` | worker/chat.ts:89-92 | A streamed turn with slots executes every slot, in order, under the slot's non-empty id, its name and its argument text. |
| `Turn.FollowUpAnswerTreatment` | worker/chat.ts:87-120 | A stream returns the follow-up answer as it is and never scans it for markers. A blocking turn strips it and records its payloads on top of the reply's. |
| `Turn.MarkerInFollowUpAnswer` | worker/chat.ts:118-119 | A follow-up answer that is only a marker strips to `""`, and its payload is recorded. |

## Behaviours worth knowing

The model follows `worker/chat.ts` as written. The behaviours below follow from that code. Some work against what the code itself sets out to do. Each is proved about the model:

- **Streamed tool calls are keyed by array position.** Each streamed fragment carries an `index` naming the call it belongs to. The loop at `worker/chat.ts:73-83` never reads it; it keys slots by the fragment's position inside the chunk's `tool_calls` array. Two calls whose fragments arrive in separate one-element arrays, with indices 0 and 1, therefore merge into slot 0, with their names and arguments joined. See `Stream.SeparateCallsShareSlotZero` and `Stream.InterleavedCallsCollapse`. `Stream.SideBySideCallsKeepSlots` shows that calls sharing one array keep their own slots.
- **Every slot is executed.** Nothing checks for a name before execution (`worker/chat.ts:89-90`). A slot that received no name fragment is sent to the tool registry with the empty name; see `Turn.StreamToolCalls`.
- **Stripping is not idempotent.** Removing one marker can join the text around it into another marker. A second pass then removes more and finds a new payload; see `Knowledge.StripNotIdempotent`. Stripping is idempotent when nothing marker-like remains after removal; see `Knowledge.StripIdempotentWhenClean`.
- **A streamed follow-up answer is neither stripped nor scanned.** The system prompt tells the model that the user must not see the `[ADD_KNOWLEDGE:...]` tags (`worker/chat.ts:184`). After tool calls, the streamed path still returns the follow-up answer as it is. It records only the first response's payloads (`worker/chat.ts:91-92`). The blocking path strips that answer and records its payloads (`worker/chat.ts:118-120`). See `Turn.FollowUpAnswerTreatment` and `Turn.MarkerInFollowUpAnswer`.
- **Markers split across deltas reach the callback.** Each delta is stripped on its own (`worker/chat.ts:70`). A marker split over two deltas therefore reaches the callback intact, although the final content drops it and records its payload. See `Stream.SplitMarkerLeaks` and `Stream.SplitMarkerRecorded`.
- **Each delta is trimmed on its own.** `stripKnowledgeTags` trims as well as removing markers (`worker/chat.ts:55`), and it runs on every delta (`worker/chat.ts:70`). Whitespace at the edges of a delta therefore never reaches the callback. The words of `"Hello "` then `"world"` arrive with no space between them, although the final content keeps it; see `Stream.TrimmedDeltas`.
- **An empty `tool_calls` array counts as present.** In the blocking path `[]` is truthy (`worker/chat.ts:108`). The handler then asks the model again with no tool messages and returns that answer; see `Turn.EmptyToolCallsStillFollowUp`.
- **The apology path does not deduplicate.** Every other path returns knowledge that has passed through `new Set` (`worker/chat.ts:47`). When the blocking reply has no message, the caller's list is returned as it was passed in, duplicates included (`worker/chat.ts:104`); see `Turn.MissingReplyApologises`.

## Left out

- The OpenAI client and the network. The constructor keeps the gateway address and key as fields. Requests are built as values, and responses come from functions in `Env`. Upstream failures, which the handler does not catch, are not modelled: the endpoint functions are total.
- `getToolDefinitions` and `executeTool`: `worker/tools.ts` is not part of this model. Offering the tool definitions is a flag on the request, and the executor is a function parameter that may fail with a thrown value.
- `JSON.parse` and `JSON.stringify` are function parameters. JSON numbers are integers; floating point is left out.
- `Promise.all` runs the calls concurrently (`worker/chat.ts:123`). Here they run in order, against an `Executor` that is a pure function of the tool's name and arguments. This is a modelling assumption. A stateful tool, or one whose outcome depends on the order in which concurrent calls land, is not covered. `Tools.FailureIsolated` ("as it would be alone") rests on the same assumption.
- `Turn.ChatHandler.ProcessMessage` reads `model` once and uses that value for the whole turn. The source reads `this.model` separately for the opening request (`worker/chat.ts:30`, `:39`, after `await getToolDefinitions()`) and for the follow-up request (`worker/chat.ts:147`, after the stream loop and `await this.executeToolCalls`). A concurrent `updateModel` landing during one of those awaits would send the later request to the new model. Interleaving with other calls on the same handler is not modelled.
- The `onChunk` callback is a flag. Its calls are modelled as the list of strings passed to it, returned beside the result.
- `Date.now()` is a `Clock` parameter, read as `clock(chunk, position)` when a slot is created.
- The persona text of the system prompt is abbreviated to two placeholder constants around the knowledge line. Only the line's position and contents are modelled.
- Strings are sequences of Unicode scalar values, not UTF-16 code units. `trim` removes the ECMAScript whitespace and line-terminator characters.
- The `type: 'function'` field of accumulated calls, and each fragment's `index`, are not modelled. The loop never reads `index`.
- The accumulated calls are values, so aliasing between the array handed to `executeToolCalls` and the one sent in the follow-up request is not modelled. Neither is modified after the loop.
- `Messages.Window`: `history.slice(-n)` is modelled only for the positive `n` the handler uses (5 and 3).
- Presentation markers (`[PUZZLE:...]`, `[IMAGE:...]`, `[SYMBOL:...]`) pass through as plain text. Rendering them is the terminal's business.

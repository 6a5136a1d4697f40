# hr: a verified model of the compression proxy

`hr` sits between a model client and a provider. It rewrites request bodies so that long tool
output is replaced by a short token `<<ccr:HASH>>`, keeps the original text in a local store, and
answers the model itself when the model asks for the text back. This project models the six
parts of `hr` where that can go wrong and proves what each is for.

- **Request rewriter** (`src/compression.rs`). A request body is JSON text. It goes through four
  stages: tool normalisation, live-zone compression, injection of the retrieve tool, injection
  of `prompt_cache_key`. Each stage plans replacements of ranges of the current text and splices
  them. `Json` keeps the concrete tree of a body (blanks, spelling of strings and numbers, order
  of members), `JsonParser` reads text into it and is proved to be the inverse of rendering, and
  `JsonEdits` proves that splicing planned ranges is editing the tree. `LiveZone`, `Tools`,
  `Injections` and `Rewriting` say which edits each stage makes; `SlotPlanner`, `ToolPlanner`,
  `Injections` and `Rewriter` hold the loops that plan ranges and splice text, proved against
  them. `StageFacts`, `Preservation`, `FrozenPrefix`, `Reversal`, `Idempotence` and `Outputs` state
  what the rewriter as a whole achieves; `AddedTool`, `AdornedTwice`, `Fixpoints` and
  `RewrittenAgain` settle when a second pass with provider metadata changes something. `Utf8` and
  `WireBytes` carry it all from texts to the bytes on the wire. `Spellings`, `TextReadings`,
  `LiveTokens`, `ToolReadings` and `ToolOrder` say what the functions that read a body find in it,
  without them: which spellings denote which text, which tokens are planned, how tools are ordered.
- **Content store and expander** (`src/ccr.rs`): `Ccr`.
- **Event-stream framing and telemetry** (`src/sse.rs`): `SseFraming`, `SseTelemetry`, with
  `LineReadings` and `StreamUsage` for what lines and events are read as. Framing
  follows section 9.2.6 of the WHATWG HTML Living Standard with the deviations of the code: a
  lone CR ends no line, and only LF LF and CR LF CR LF end an event.
- **Continuation loop** (`src/proxy.rs`): `Continuation`; `Answers` says what the requests tell
  the model.
- **Session state** (`src/session.rs`): `PrefixTracker`, `StickyBetas` over `Recency`;
  `SessionHistory`, `EstimateReadings` and `BetaHeaders` say what they hold after any history and
  what they read from a request. `SessionPrefix` joins tracker and rewriter: what a response confirmed as cached is sent
  unchanged in the next request.
- **Batch contexts and base64url** (`src/proxy.rs`): `BatchContexts` over `Recency`, `Base64Url`.

What other libraries or the outside world provide enters as a parameter: the content hash, the
digest of the tool sort key, the cache-key derivation, the rewriting of number tokens, the answer
to a retrieval, the behaviour of the upstream, the outcome of each store write, and the clock.
Nothing is assumed of them except what a lemma states: `GoodNumbers` (rewriting a number token
gives a number token and settles after one step), `GoodKeys` and `QuietKeys` (a cache key is not
empty, needs no escaping and holds no `<<ccr:`), `GoodHash` (24 lower-case hex digits),
`CollisionFree` (no two texts of a run share a hash), `AnswersNormal` (the answer to a retrieval is a
JSON value with its keys in order and its numbers as they are written).

Some behaviours are not what one would expect; they are kept, with their exact conditions and an
input for each.

- `src/compression.rs:1552-1555` and `:1629-1632` look for the closing brace right behind the
  first character of the body. With blanks in front of an empty root object the injected cache
  key gets a leading comma and the output is no JSON. `Rewriter.OutputParses` shows that this is
  the only case; `Outputs.BlankBreaks` is the body ` {}`.
- A `prompt_cache_key` that is `null`, or repeated, is left alone, so the request ends up without
  a usable key (`Outputs.OutputKeyed`; `Injections.NullKeyStays`, `Injections.RepeatedKeyStays`).
- With provider metadata the retrieve tool is added after the tools have been normalised. A
  second pass moves it when another tool sorts behind it and no breakpoint pins the order, and
  places a breakpoint on it when an Anthropic request has none yet, alone or in a batch
  (`Fixpoints.FixedPoints`; `RewrittenAgain.MovedAgain`, `RewrittenAgain.CachedAgain`,
  `RewrittenAgain.BatchCachedAgain`).
- The framer drops one CR at the end of every line, so an event whose data or name ends in CR does
  not survive (`SseFraming.RoundTripExact`; `SseFraming.TrailingCrIsLost`).
- Private retrieval calls reach the client exactly when the response of the last round holds
  private calls only: after a failed continuation, at the round limit, or in several choices
  (`Continuation.PrivateLeft`; `Continuation.FailureShows`, `Continuation.LimitShows`,
  `Continuation.ChoicesShow`).

## Model

| member | source | states |
|---|---|---|
| JsonParser.ParseSound | src/compression.rs:195-200 | whatever body is accepted is, character for character, the rendering of the well-formed tree it was read as |
| JsonParser.ParseComplete | src/compression.rs:195-200 | rendering a well-formed tree and reading it gives the same tree, so no text has two trees |
| Json.DecodeEncode | src/compression.rs:1011-1011 | a text written as a JSON string token reads back as that text, for every text |
| Json.DecodeBytes | src/compression.rs:577-590 | a string token is never shorter in bytes than the text it denotes |
| Spellings.DecodeExactly | src/compression.rs:621-634 | a string token is read as a text if and only if it is made of spellings of its characters, in any mixture: raw, the two-character escapes, four hexadecimal digits of either case, surrogate pairs |
| Spellings.ShortestWritten | src/compression.rs:1011-1011 | the writer picks the shortest spelling of every character, with lower-case digits |
| Spellings.NumberExactly | src/compression.rs:195-200 | a token is a number if and only if section 6 of RFC 8259 builds it from sign, integer, fraction and exponent |
| Spellings.ScalarExactly | src/compression.rs:195-200 | what is neither text nor list nor object is one of the three literals or such a number |
| Spellings.WsExactly | src/compression.rs:195-200 | the blanks between tokens are the four of section 2 of RFC 8259 |
| Values.CanonKeeps | src/compression.rs:1276-1297 | re-serialising a value keeps its meaning, is well-formed, and settles after one step |
| Splice.ApplyReplacements | src/compression.rs:434-461 | the in-place sort and the moving cursor give the text with every range replaced, when no two ranges overlap; the slice is left sorted by start |
| Splice.SplicedLength | src/compression.rs:434-461 | the output is exactly the input minus what was cut plus what was pasted |
| Splice.SplicedInside | src/compression.rs:1440-1490 | ranges planned inside a segment and shifted by its offset edit that segment and nothing around it |
| Splice.SplicedEncoded | src/compression.rs:434-461 | splicing commutes with encoding characters, so what holds of texts holds of their UTF-8 bytes at the corresponding byte offsets |
| JsonEdits.RepsInOrder | src/compression.rs:434-461 | ranges of edits planned in document order are pairwise disjoint, in bounds and already sorted, so the overlap assertion cannot fire |
| JsonEdits.SpliceIsEdit | src/compression.rs:434-461 | splicing the ranges of planned edits into the rendered text renders the edited tree, nested offsets, commas and empty containers included |
| JsonEdits.SpliceBody | src/compression.rs:434-461 | the same for a whole body with blanks around its root |
| JsonEdits.EditedElsewhere | src/compression.rs:430-461 | a subtree beside every edit is the same before and after |
| LiveZone.PlannedSlots | src/compression.rs:528-967 | for every shape each candidate is one whole string token of tool output or of opted-in user text, and no token is planned twice |
| LiveZone.SlotsAboveFloor | src/compression.rs:545-649 | every candidate lies in the live zone of its shape, and in an Anthropic request behind every message that carries a cache breakpoint |
| LiveZone.PinnedFloor | src/compression.rs:545-556 | a message is below the Anthropic floor if and only if it is below the session's floor or a breakpoint stands at or behind it |
| LiveTokens.ChatExactly | src/compression.rs:734-805 | a path of a chat request is planned if and only if it is the string `content` of the last tool message above the floor that neither carries a retrieval name nor answers a retrieval call, or opted-in text of the last user message |
| LiveTokens.ResponsesExactly | src/compression.rs:887-967 | a path of a Responses request is planned if and only if it is the string `output` of an output item at or above the shifted floor whose `call_id` no `function_call` with a retrieval name carries |
| LiveTokens.AnthropicExactly | src/compression.rs:528-656 | a path of an Anthropic request is planned if and only if it is the text of a tool result, or opted-in user text, in a block without breakpoint of a message at or above the floor and behind every breakpoint |
| LiveTokens.BatchExactly | src/compression.rs:670-704 | a path of a batch is planned if and only if it is such a token in the `params` of one of its requests |
| SlotPlanner.PlanBlock | src/compression.rs:571-649 | the loop body over content blocks pushes exactly the range and text of each compressible string of the block, nested parts included |
| SlotPlanner.PlanMessage | src/compression.rs:556-649 | string content or each block of a message is pushed as a slot at its place in the body |
| SlotPlanner.PlanAnthropicSegment | src/compression.rs:528-656 | appends to the slots those of every message at or above the larger of session floor and breakpoint floor |
| SlotPlanner.PlanAnthropicBatches | src/compression.rs:670-704 | plans every params object of a batch at its own offset and tags its slots with the index of the entry |
| SlotPlanner.LatestMessages | src/compression.rs:734-775 | the single backward scan finds the last live tool result and the last user message at or above the floor |
| SlotPlanner.PlanUserContent | src/compression.rs:810-861 | string content gives one slot and part lists one per text part |
| SlotPlanner.PlanOpenAiChat | src/compression.rs:716-805 | the tool slot comes first, then those of the user message when opted in, and no others |
| SlotPlanner.PlanOpenAiResponses | src/compression.rs:887-967 | one slot per string output above the floor shifted past the instructions, retrieval outputs excluded |
| SlotPlanner.PlanSlots | src/compression.rs:249-270 | every shape's planner pushes exactly its candidates, with exact ranges and texts, in planning order |
| ToolPlanner.InteriorExact | src/compression.rs:1306-1309 | on a text that starts at its brace the emptiness test is right about whether the object has members |
| ToolPlanner.CanonicalizedToolPiece | src/compression.rs:1329-1361 | cutting and pasting the schema in the tool's text gives the text of the tool with only its schema canonical |
| ToolReadings.SchemaExactly | src/compression.rs:1329-1361 | where the schema of a tool is: `input_schema`, or `parameters` in `function`, or `parameters` itself, told from its members alone |
| ToolReadings.SchemaCanonical | src/compression.rs:1276-1297 | in the normalised tool the schema has no blanks, ascending keys and shortest spellings, means what it meant, and equals that of any tool whose schema means the same |
| ToolPlanner.AppendCacheControlToPiece | src/compression.rs:1365-1380 | the string insertion adds the breakpoint as last member of an object, with a comma exactly when one is needed, and leaves other texts alone |
| ToolPlanner.ReorderedBytes | src/compression.rs:1221-1258 | the array assembled from reordered slices is the compact rendering of the final tools |
| ToolPlanner.PlanToolsNormalization | src/compression.rs:1187-1322 | both paths plan exactly the ranges of the tree edits of normalisation |
| Tools.NormalizedTools | src/compression.rs:1187-1322 | reordered or left in place, the list becomes the same sequence of tools, breakpoint included, and nothing else in the request changes |
| ToolOrder.OrderExactly | src/compression.rs:1221-1229 | tools are put in the order of their keys, those with the same key as they came |
| ToolOrder.ToolsExactly | src/compression.rs:1187-1322 | the normalised list: as it came when a tool holds a breakpoint, else in that order; each tool with its schema canonical and nothing else changed; `"cache_control":{"type":"ephemeral"}` written into the last tool exactly when the request is an Anthropic one without breakpoint anywhere |
| ToolOrder.ToolsAbsent | src/compression.rs:1193-1201 | a request without a non-empty list of tools of its own, or with two, is left alone |
| Tools.NormalizeTwice | src/compression.rs:1187-1322 | normalising a normalised request plans nothing |
| Tools.PermutedTools | src/compression.rs:1217-1258 | arrival order of the tools does not matter when equal sort keys mean equal tools and no breakpoint pins the order |
| ToolReadings.SortKeyExactly | src/compression.rs:1385-1399 | a tool sorts by its name, else by that of its function, else by a digest of what it means |
| ToolReadings.BelowExactly | src/compression.rs:1221-1229 | one key is below another if it is a proper prefix of it or smaller at the first place where they differ |
| ToolReadings.CacheControlExactly | src/compression.rs:1766-1800 | a breakpoint is set if and only if some tool, the system prompt or one of its blocks, or the content of a message or one of its blocks has a `cache_control` member |
| Tools.SortedIndicesArrange | src/compression.rs:1221-1229 | sorting indices by key is sorting tools stably, and an index moves exactly when the list changes |
| Injections.SegmentInsertionExact | src/compression.rs:1545-1568 | where and what is inserted for a new member, for every segment: right except that an empty object behind blanks gets a comma |
| Injections.PlanToolAppend | src/compression.rs:1498-1570 | appends to a `tools` array, creates the member, or leaves any other `tools` alone, at the right offset |
| Injections.ToolAppendOnce | src/compression.rs:1498-1514 | after the tool has been appended a second attempt recognises it and plans nothing |
| ToolReadings.AnnouncesExactly | src/compression.rs:1403-1430 | which tools count as the retrieve tool, for each shape: by the name, alone or behind a double underscore, at the place the shape has it |
| ToolReadings.RetrieveExactly | src/compression.rs:1715-1760 | what the injected tool says in each shape, member by member |
| ToolReadings.DerivedKeyExactly | src/compression.rs:1650-1704 | the cache key comes from the model name, the system prompt of the shape and the tools, in this order: `instructions`, else the first system item of `input`, else that of `messages` |
| Injections.PlanPromptCacheKey | src/compression.rs:1584-1644 | plans one insertion, one in-place replacement, or nothing, with the exact text in every case |
| Injections.KeyedBodyParses | src/compression.rs:1584-1644 | the injected body is JSON if and only if the emptiness test was not misled by leading blanks |
| Injections.KeyPresent | src/compression.rs:1584-1644 | the injected text is JSON with a usable key if and only if the emptiness test was not misled and the body is an object that had a key, or whose key is neither `null` nor repeated |
| Injections.NullKeyStays | src/compression.rs:1606-1612 | a body whose key is `null` comes out as it went in, without a usable key |
| Injections.RepeatedKeyStays | src/compression.rs:1606-1612 | so does a body that repeats an empty key |
| Injections.BlankThenEmpty | src/compression.rs:1622-1644 | the body ` {}` with a key injected is no JSON |
| Rewriting.MetadataPlanned | src/compression.rs:1088-1136 | normalisation edits of one request or of all entries of a batch never overlap |
| Rewriting.PicksDistinct | src/compression.rs:274-287 | no token is compressed twice in one pass |
| Rewriting.TokensSorted | src/compression.rs:434-461 | distinct string tokens planned in any order become, once sorted, edits in document order with disjoint ranges |
| Rewriter.SpliceStage | src/compression.rs:226-231 | splicing the ranges of any planned stage gives the text of the edited tree |
| Rewriter.PlanMetadata | src/compression.rs:1088-1136 | the metadata planner yields the ranges of its edits for single requests and for every batch entry |
| Rewriter.CompressSlot | src/compression.rs:977-1027 | a slot is replaced only past the gate and after a store write that worked; the store then holds its text |
| Rewriter.CompressSlots | src/compression.rs:274-287 | the loop leaves the store, ranges, hashes and batch indices of gating and storing the candidates in order |
| Rewriter.PlanRetrieve | src/compression.rs:1403-1490 | the tool goes into the one request, or into exactly the batch entries that were compressed |
| Rewriter.CompressJsonRequest | src/compression.rs:177-388 | the rewriter on text equals the four stages of tree edits on the parsed body, output, hashes and store alike; other bodies and `n > 1` pass unchanged |
| Rewriter.RootStays | src/compression.rs:177-388 | no stage before the last empties the root object or fills an empty one |
| Rewriter.OutputParses | src/compression.rs:177-388 | the output is JSON, with no repeated key the input did not have, if and only if no cache key has to go into an empty root behind leading blanks |
| Outputs.OutputKeyed | src/compression.rs:326-352 | where a key is due, the final text is JSON with a usable key if and only if the client's body can be given one and is no empty object behind blanks |
| Outputs.KeySent | src/compression.rs:326-352 | the key in the final text is the client's own, or the one derived from the request as it is sent, retrieve tool included |
| Outputs.BlankBreaks | src/compression.rs:326-352 | the rewriter turns ` {}` into a text that is no JSON when a key is due |
| StageFacts.StagesWf | src/compression.rs:226-348 | the body after every stage is well-formed JSON |
| StageFacts.StagesTidy | src/compression.rs:226-348 | no stage introduces a duplicate key anywhere in the body |
| Preservation.Untouched | src/compression.rs:283-348 | any position outside `tools` and the cache key and beside the compressed tokens keeps its subtree and its characters through all four stages |
| Preservation.OnlySlots | src/compression.rs:274-287 | every compressed token was live tool output or opted-in user text above the floor |
| FrozenPrefix.FrozenVerbatim | src/compression.rs:545-649 | for every shape, authentication mode and store, each message or item below its floor is in the output at the same index with the same characters |
| FrozenPrefix.LiveNormalized | src/compression.rs:226-270 | normalising tools first does not move the live zone |
| Resemblance.SameSlots | src/compression.rs:249-270 | replacing candidate strings and adding or changing tools does not change which tokens are candidates |
| Utf8.DecodeExactly | src/compression.rs:198-200 | a text is read from exactly the bytes it is written as, and from well-formed bytes only |
| Utf8.EncodedLength | src/compression.rs:977-985 | the byte counts of the gate and of the savings are lengths of encoded texts |
| WireBytes.OutputBytes | src/compression.rs:226-357 | the bytes of a rewritten request come from those of the request by four splices at the byte positions of the planned ranges |
| WireBytes.CompressRequestBytes | src/compression.rs:177-388 | the rewriter on bytes is the rewriter on the text they spell |
| WireBytes.Bypassed | src/compression.rs:195-222 | a body that is no UTF-8, no JSON or asks for several choices leaves byte for byte as it came, and nothing is stored |
| AddedTool.AddedSettles | src/compression.rs:1214-1318 | in a normalised request an added retrieve tool needs no further normalising if and only if a breakpoint pins the order or no tool sorts behind it, and no breakpoint is left to place |
| Fixpoints.FixedPoints | src/compression.rs:212-374 | with provider metadata and writes that succeed, the output of any shape is a fixed point of the rewriter if and only if every request that gets the retrieve tool has it already or keeps it where it was put, or it is the body that is no JSON |
| Fixpoints.NormalExactly | src/compression.rs:1088-1136 | a rewritten body, single or batch, needs normalising again if and only if some request got a tool that is to be moved or cached |
| Fixpoints.BatchExactly | src/compression.rs:1106-1136 | a rewritten batch needs it if and only if the params of some compressed entry do |
| Fixpoints.ReceiversExactly | src/compression.rs:283-327 | which requests get the tool, read from the client's body: entries with a text that passes the gate, or a single request with one or with a marker |
| RewrittenAgain.MovedAgain | src/compression.rs:1217-1258 | a chat request with a tool `z` and a marker is changed by the second pass, which moves the added tool |
| RewrittenAgain.CachedAgain | src/compression.rs:1299-1318 | an Anthropic request without tools is changed by the second pass, which caches the added tool |
| RewrittenAgain.BatchCachedAgain | src/compression.rs:1106-1136 | so is a batch whose one entry has no tools and a tool result of 512 bytes |
| Idempotence.RewriteTwice | src/compression.rs:359-374 | without provider metadata and with writes that succeed, the output of the rewriter is a fixed point of it, for every body and shape, whatever the store holds by then |
| Reversal.GateExact | src/compression.rs:977-1010 | the gate passes exactly texts of at least 512 bytes that do not contain `<<ccr:`, so the token comparison never rejects one |
| TextReadings.MarkerExactly | src/compression.rs:1076-1086 | a request counts as marked if and only if some string value in it, at any depth and not a key, holds `<<ccr:` |
| TextReadings.ChoicesExactly | src/compression.rs:204-211 | a body passes for several choices if and only if it is a chat request whose `n` is an unsigned 64-bit number above one |
| TextReadings.CompressExactly | src/compression.rs:112-158 | a text is replaced by its marker if and only if it holds more than blanks, is long enough and was stored; its hash is reported even when the write failed |
| TextReadings.EstimateExactly | src/compression.rs:390-400 | the token estimate is the least number that is at least one, the number of words, and a quarter of the characters |
| Reversal.SlotsSave | src/compression.rs:977-1027 | compression removes at least 480 bytes for every token it replaces |
| Reversal.MarkersResolve | src/compression.rs:112-158 | over any run of texts and requests without hash collisions, every marker ever handed out resolves at the end to exactly its text |
| Outputs.HandedOut | src/compression.rs:112-158 | the markers handed out are that of a text which was stored, or those of the hashes a rewritten body reports |
| Outputs.TokenDelivered | src/ccr.rs:59-94 | in the body that is sent, expanding a compressed token against the store gives the text the client sent there, with one hit and no miss |
| Outputs.BodyRestores | src/ccr.rs:59-94 | with all tokens of the body that is sent expanded, every part outside `tools` and an injected key means what it meant in the client's body |
| Reversal.EditedTwice | src/compression.rs:434-461 | replacing the same tokens again forgets the first replacement |
| Ccr.CcrStore.Put | src/ccr.rs:145-174 | a hash already present keeps its text and reports no change, a new one is added, a failed write changes nothing |
| Ccr.DecompressText | src/ccr.rs:59-94 | the loop over leftmost matches gives the expansion, its hits, misses and missing hashes |
| Ccr.NoStraddle | src/ccr.rs:12-13 | no match can begin inside text without an opener and run into a marker behind it |
| TextReadings.MatchExactly | src/ccr.rs:12-13 | a text begins with a match if and only if it begins with `<<ccr:`, 24 to 64 hexadecimal digits of either case and `>>` |
| TextReadings.SearchExactly | src/ccr.rs:59-94 | the next match is a marker behind a gap in which none begins; without one no marker begins anywhere |
| Ccr.ExpandUndoes | src/ccr.rs:59-94 | gaps interleaved with markers of stored payloads expand to the gaps interleaved with the payloads, verbatim even where a payload holds markers; hits equals the number of markers |
| Reversal.CompressUndone | src/compression.rs:112-158 | a stored text expands to the original against the store left behind if and only if the store had no other text under its hash; anything else is returned as it is and the store stays |
| SseFraming.FindDoubleNewline | src/sse.rs:118-135 | finds the first of both terminator forms and its length |
| LineReadings.EndExactly | src/sse.rs:118-135 | a block ends where the first two line feeds, or two pairs of carriage return and line feed, begin |
| SseFraming.ParseEventBlock | src/sse.rs:139-175 | the line loop reads a block as the field-by-field definition does; comment and empty blocks give no event |
| LineReadings.BlockExactly | src/sse.rs:139-175 | a block is an event if and only if one of its lines is a `data` field: the data are those values joined by line feeds, the name the last `event` value that is UTF-8; fields are cut at the first colon and lose one space |
| LineReadings.SplitExactly | src/sse.rs:139-147 | a block is cut at its line feeds: no line holds one, and joined by them the lines are the block |
| SseFraming.SseFramer.Push | src/sse.rs:83-88 | appends the chunk and touches nothing else |
| SseFraming.SseFramer.NextEvent | src/sse.rs:97-113 | returns the first complete event, skips comment blocks in front of it, keeps the rest, and notes the end sentinel |
| SseFraming.SseFramer.Feed | src/sse.rs:190-204 | pushing chunk by chunk and draining after each gives the events, residue and end flag of the whole stream |
| SseFraming.TerminatorStays | src/sse.rs:118-135 | a terminator found in a prefix is the first one of every extension |
| SseFraming.DrainConcat | src/sse.rs:97-113 | draining a prefix and going on with the rest is draining the whole |
| SseFraming.ChunkingInvariance | src/sse.rs:190-204 | every division of a stream into chunks yields the same events and the same residue |
| SseFraming.StreamRead | src/sse.rs:97-175 | framing a written stream yields its events in order as they arrive; comments between them leave no trace, with LF or CR LF |
| SseFraming.RoundTripExact | src/sse.rs:139-175 | a written event comes back with an empty buffer if and only if no line of it ends in a CR the framer would drop and its name is UTF-8 without line feed |
| SseFraming.TrailingCrIsLost | src/sse.rs:139-175 | data that consists of one CR comes back empty, with LF and with CR LF |
| SseFraming.RoundTrip | src/sse.rs:97-175 | any list of such events with comments anywhere between them survives the stream |
| SseTelemetry.SseStreamState.AbsorbUsage | src/sse.rs:365-381 | each counter becomes its maximum with the usage seen |
| SseTelemetry.SseStreamState.EmitFinal | src/sse.rs:383-462 | the first call reports unless all counters are zero; later calls do nothing |
| SseTelemetry.SseStreamState.Apply | src/sse.rs:243-350 | each event acts as the signal its provider shape gives it: counters, status, service tier, retrieval call seen |
| SseTelemetry.LastStatus | src/sse.rs:270-300 | the status recorded for a Responses stream is the one its events announce last, and there is none if and only if none announces one |
| SseTelemetry.RunSseStateMachine | src/sse.rs:190-204 | reports, status, service tiers and retrieval calls of a stream depend only on its bytes, not on the chunks they came in |
| StreamUsage.ArrivalExactly | src/sse.rs:243-262 | an event has a value if and only if its data is no end sentinel and is the UTF-8 form of a JSON text |
| StreamUsage.UsageReported | src/sse.rs:243-462 | each reported counter is the greatest value its own members take in the usage objects, found at their places for each provider, up to the first terminal event; cache write, hit rate and estimates follow from the counters |
| StreamUsage.StreamReported | src/sse.rs:190-462 | the same said of the bytes of a stream in whatever chunks |
| StreamUsage.RecordsExactly | src/sse.rs:243-350 | a stream records the service tiers its terminal events name, in order, the number of events that show a retrieval call, and the status of its last terminal event |
| StreamUsage.StatusExactly | src/sse.rs:276-292 | which type, or event name without one, announces which status |
| StreamUsage.TierExactly | src/sse.rs:304-311 | the service tier is that of the response object, else that of the event, and a name outside the vocabulary counts as `other` |
| StreamUsage.DetectedExactly | src/sse.rs:467-515 | an event counts as a retrieval call if and only if a call it opens carries a retrieval name at the place of its provider |
| TextReadings.CountExactly | src/sse.rs:517-530 | a counter member counts if and only if it is an unsigned 64-bit number |
| SseTelemetry.ReportedOnce | src/sse.rs:383-462 | a stream reports the peak of the usages up to its first terminal event, at most once, whatever follows, and nothing without a terminal event |
| SseTelemetry.PeakBounds | src/sse.rs:365-381 | the reported counters are no smaller than those of any usage counted |
| SseTelemetry.PeakLeast | src/sse.rs:365-381 | and no larger than any bound of all of them |
| SseTelemetry.OrderIrrelevant | src/sse.rs:243-350 | reordering the events before the first terminal one, and anything after it, changes no report |
| Continuation.StripBlocks | src/proxy.rs:1660-1687 | the loop keeps, in order, all blocks but private calls and counts what the guard needs |
| Continuation.EditChoices | src/proxy.rs:1689-1729 | the in-place loop leaves every choice stripped at its position and tallies removed and remaining calls |
| Continuation.StripCalls | src/proxy.rs:1660-1740 | both arms return the stripped response, or nothing when no private or no other call is there |
| Continuation.StripKeepsClient | src/proxy.rs:1660-1740 | a stripped response shows exactly the client calls, in order, at least one of them, and no private call |
| Continuation.StripOnce | src/proxy.rs:1660-1740 | a stripped response has nothing left to strip |
| Continuation.StripElsewhere | src/proxy.rs:1660-1740 | other members stay, no choice moves, and a choice is rewritten as a text turn only when stripping emptied it |
| Answers.StrippedExactly | src/proxy.rs:1660-1687 | a stripped message shows every block but the private calls, texts and foreign calls alike, in order |
| Continuation.RunCcrContinuation | src/proxy.rs:1462-1577 | the loop returns the response, the changed flag and the requests of the protocol, for every upstream |
| Continuation.ContinuationBodies | src/proxy.rs:1471-1577 | at most three requests are sent; the k-th is the original with its messages followed by the k turns answered so far, each of private calls only; unchanged means the initial response |
| Continuation.OnlyMessagesChange | src/proxy.rs:1540-1541 | every member of a continuation request but `messages` is as the client sent it |
| Continuation.TurnAnswered | src/proxy.rs:1519-1538 | in every turn each tool call of the assistant has exactly one result, same id, same place |
| Answers.PrivateExactly | src/proxy.rs:813-856 | a call is private if and only if it has a retrieval name and arguments, for OpenAI spelled as JSON in a string, whose `hash` is a text |
| Answers.CallsExactly | src/proxy.rs:1622-1648 | the calls of a response are the `tool_use` blocks, or the `tool_calls` of every choice, in order |
| Answers.SentTruly | src/proxy.rs:1462-1577 | the messages of every request sent are the original ones and one turn per response: what the model said and called, and for each call a result under its id whose text reads as JSON and means what the store answers to exactly its hash and query |
| Continuation.NeverMixed | src/proxy.rs:1480-1577 | the response returned never shows private calls beside client calls |
| Continuation.PrivateLeft | src/proxy.rs:1480-1577 | private calls reach the client if and only if the response of the last round, found from the initial response and the answers alone, holds private calls and no other; that round then failed, stands at the limit, or has several choices |
| Continuation.ReturnsLast | src/proxy.rs:1480-1577 | the client gets the response of the last round, stripped, whatever was sent in between |
| Continuation.FailureShows | src/proxy.rs:1543-1563 | a retrieval call whose continuation fails is returned to the client |
| Continuation.LimitShows | src/proxy.rs:1480-1481 | an upstream that asks four times has its fourth call returned |
| Continuation.ChoicesShow | src/proxy.rs:1486-1496 | a retrieval call in one of two choices is returned whatever the upstream would answer |
| Recency.BoundedIsTail | src/session.rs:192-208 | a bounded list in order of last use is the end of the unbounded one, without repeated keys |
| Recency.ListedExactly | src/session.rs:192-208 | a key is listed if and only if fewer than the capacity of other keys were used since, and then with its last value |
| StickyBetas.BetaTracker.StickyBetas | src/session.rs:177-209 | the session moves to the back with its tokens merged, the list stays unique and within capacity, and the merged header value is returned |
| StickyBetas.MergeMeaning | src/session.rs:196-200 | a merge keeps the stored tokens as its beginning, repeats none in any casing, covers both sides and invents none |
| StickyBetas.TrackHolds | src/session.rs:177-209 | after any history the list holds at most 1000 distinct sessions, each with exactly its tokens since it entered |
| StickyBetas.KeepsPlace | src/session.rs:205-207 | a session is still listed if and only if at most 999 distinct others were touched since its last use |
| StickyBetas.ReplyIsUnion | src/session.rs:177-209 | after any history the header returned is the first-seen-order union of every token the session sent since it entered the list and those it sends now |
| BetaHeaders.TokensExactly | src/session.rs:183-189 | a header is read as exactly its pieces between commas, trimmed, the blank ones left out, in order |
| BetaHeaders.BlanksExactly | src/session.rs:187-187 | what trimming takes for blanks: the characters Unicode calls white space |
| BetaHeaders.CasingExactly | src/session.rs:197-199 | which tokens count as the same: those that differ in the case of ASCII letters only |
| BetaHeaders.JoinedRead | src/session.rs:203-203 | a header written from trimmed, non-empty tokens without comma is read back as those tokens |
| BetaHeaders.ReplyRead | src/session.rs:177-209 | after any history the returned header, read as a header, holds the first-seen-order union of every token the session sent since it entered and now |
| StickyBetas.HeldIsUnion | src/session.rs:177-209 | a session that stayed listed holds the first-seen-order union of every token it sent since it entered |
| BatchContexts.BatchContextStore.RecordBatchContext | src/proxy.rs:314-347 | replaces the entry of the batch, drops expired ones, keeps ids unique and at most 10000; a body without contexts changes nothing |
| BatchContexts.ParamsExactly | src/proxy.rs:314-328 | the contexts of a batch map an id to the params of the last request that carries both, and no other id to anything |
| BatchContexts.BatchContextStore.BatchContext | src/proxy.rs:349-361 | drops expired entries and returns the contexts of the batch |
| BatchContexts.StoreIsKept | src/proxy.rs:314-361 | in every reachable state the store is the unexpired end of the history of records |
| BatchContexts.LookupExactly | src/proxy.rs:314-361 | after any history a lookup returns the contexts last recorded for the batch if and only if that was less than a day ago and at most 9999 other batches were recorded since |
| PrefixTracker.CountFrozen | src/session.rs:155-164 | the walk over estimates with saturating addition returns the floor |
| PrefixTracker.FloorExact | src/session.rs:148-168 | the floor is the greatest number of leading messages whose saturating sum fits the cached tokens |
| PrefixTracker.FloorMonotone | src/session.rs:148-168 | more cached tokens never freeze fewer messages |
| PrefixTracker.SessionTrackers.FrozenMessageCount | src/session.rs:109-120 | sweeps, keeps the session alive, and answers its floor or zero |
| PrefixTracker.SessionTrackers.UpdateFromResponse | src/session.rs:127-169 | records the confirmed tokens and the new floor of one session and no other |
| PrefixTracker.FloorRemembered | src/session.rs:109-169 | whatever other sessions do, a session asked within its time to live gets the floor of its last response, zero below 1024 tokens |
| PrefixTracker.FloorForgotten | src/session.rs:211-223 | a session idle for the time to live plus one sweep interval has no floor |
| SessionHistory.FloorExactly | src/session.rs:109-223 | after any history of all sessions, one that asks is handed the floor of its last answer if and only if no sweep since found it unused for over ten minutes, a sweep being an operation a minute or more after the last one; otherwise zero |
| EstimateReadings.RequestExactly | src/session.rs:275-423 | which characters of a request are counted, block by block and item by item, at three and a half to a token with an overhead of twenty, and which estimate stands for which message or item |
| PrefixTracker.PrefixAligned | src/session.rs:341-387 | the planner shifts its floor by exactly the entries the estimator synthesises for `instructions` |
| PrefixTracker.MessagesAligned | src/session.rs:275-387 | between turns a message or item is below the planner's floor if and only if the request sent before, up to it, fits the cached tokens, or a breakpoint freezes it; for chat, Anthropic and (with equal `instructions`) Responses requests |
| SessionPrefix.CachedVerbatim | src/proxy.rs:1206-1280 | after a response with enough cached tokens and whatever other sessions do, the next request within the time to live sends at the same index, with the same characters, each message the cached tokens cover |
| Base64Url.DecodeBase64Url | src/proxy.rs:2500-2531 | the bit-buffer loop returns the whole bytes of the symbols before the padding, or nothing on a foreign symbol; the buffer never holds more than six bits at a loop head |
| Base64Url.DecodeEncode | src/proxy.rs:2500-2531 | the decoder inverts the encoder of section 5 of RFC 4648 on all bytes, in either alphabet, padded or not |
| Base64Url.AlphabetExactly | src/proxy.rs:2500-2531 | which byte stands for which six bits: the alphabets of sections 4 and 5 of RFC 4648 together |

## Left out

- Rewriter.CompressJsonRequest: works on texts and positions in characters; `WireBytes` carries input, output and every splice over to bytes.
- Rewriter.CompressSlots: the store is an insert-once map whose failing writes are scripted by a list; SQLite is not modelled.
- Continuation.RunCcrContinuation: the request body is an object or `null`, as the program aborts on anything else.
- SseTelemetry.SseStreamState.EmitFinal: a hit-rate sample is the pair of its operands instead of a floating-point quotient.
- SseTelemetry.SseStreamState.Apply: log lines are not modelled; the count of streamed characters does not wrap.
- Ccr.DecompressText: the regular-expression engine is replaced by a leftmost matcher for the one pattern in use.
- StickyBetas.BetaTracker.StickyBetas: a session key stands for the pair of provider and session id, there and in `PrefixTracker`.
- Views that the JSON library would also accept from an array of field values: such a view counts as failed.
- The recursion limit and number range of the JSON library, and the way it writes numbers.
- Skip reasons, labels, byte and token counts of results, logging and statistics.
- How session ids are derived from headers and bodies, and the cache-key digest.
- HTTP and WebSocket transport, routing, headers, timeouts, rate limits, the retrieval endpoints and search in stored texts.
- The command line.

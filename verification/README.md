# The router service, modelled and proved

This project models the parts of the router service in which streams are translated, channels
are scheduled and small stores are kept, and the admin login lockout, and proves what each
promises over all inputs and all runs. Classes carry the fields of the original objects and
their methods change them in place. Each method is tied to a specification function on values,
and the properties are lemmas about those functions. Where a property can be stated without the
code's own steps, the lemma compares the code with an independent reference: a client that reads
the events, a text cut at its tags, a history of calls.

`dafny verify dfyconfig.toml` checks everything.

## What is proved

**Streams to Anthropic clients** (`ThinkSplitter`, `AnthropicEmitter`, `AnthropicConvert`,
`AnthropicEvents`, `AnthropicLaws`, `AnthropicOrder`). The converter is split into its two concerns:
the incremental `<think>` splitter with its six characters of lookback, and the block bookkeeping.
The class puts them together again and is proved against both. However a text T is cut into
fragments, the splitter reads T cut at its first `<think>` and at the first `</think>` after it
that arrives within one fragment, and drops at most whitespace directly before `<think>`; how much
of it is kept is stated exactly. The block bookkeeping is judged by a client that follows the event
grammar and collects blocks. For every chunk sequence of at least one chunk, that client accepts
every event, ends with a complete message, and holds the text, the thinking, each tool's id, name
and arguments in a block of its own, the stop reason and the token counts. There is one thinking
block if `<think>` was completed and none otherwise, with the text before the tag before it and the
text after it behind it. What text stands before a tool block, and which streams send a delta to a
block that is not the open one of its kind, is stated exactly as well.

**Streams to Responses clients** (`ResponsesEvents`, `ResponsesConvert`, `ResponsesLaws`,
`ResponsesLife`). Over every run, with an upstream that ends or fails at any point, exactly one
`response.completed` is sent, it is the last event, every `done` event and the completion repeat
exactly the deltas sent before, and the completion is the response one would collect directly from
the chunks. The life cycle (`response.created` first, every item announced, extended, closed once,
all closed at completion) is kept if and only if a condition on the chunks holds. Output indexes
agree with positions in the final output if and only if the tool indexes are aligned.

**Two stages** (`NormalizeStream`, `NormalizeIndexes`, `RoundTrip`). An Anthropic message stream sent through the
normaliser, the Responses converter and the controller's closing rule says what the message said,
and its tool calls are announced under the right output index if and only if a condition on the
blocks before them holds. Through the normaliser and the Anthropic converter the stop reasons come
back unchanged.

**Requests** (`RequestConvert`, `RequestLaws`). Grouping tool calls loses nothing, keeps the order,
and is the only grouping with maximal runs. Through both translations everything the input items
say, read off the items alone, arrives in its order and under its roles, if and only if no item but
the user's contains an image; otherwise exactly those images are missing. Tool uses and tool results
share an id exactly when the items they stand for share a call id.

**Scheduling** (`ChannelOrder`, `ChannelSelector`, `ChannelSelectorLaws`, `ChannelSelectorHistory`,
`UpstreamCaller`). A declarative specification of `select`, in any state and, told from the calls
alone, after any history; exact fairness of weighted round-robin;
independence of list order; failure counts and cooldowns as functions of the history; and a retry
loop that explores every channel before it repeats one and descends one priority tier with every
retry, among the channels left, and leaves the selector with records that can be read off its trace.

**Stores** (`CallLogBuffer`, `CallLogLaws`, `CallLogPayloads`, `RateLimiter`, `SdkClients`, `RingBuffer`). Calls that
interleave with a flush lose no call-log field if and only if no step drops what is held for the
id, and that is spelled out step by step; what each payload asks for is told from the history; the
in-memory limiter is a sliding-window limit; the
client pool is exactly LRU; the ring buffer holds exactly the last records.

**Lockout** (`AuthService`). The record and the outcome of every attempt are told from the history,
and wrong passwords that get verified are bounded by elapsed time.

## Where the code does less than one might expect

These are proved as they are, with the exact condition, and with an input that shows it wherever
lemmas are named beside the condition.

- Whitespace before `<think>` is dropped if and only if the lookback buffer holds nothing else of
  the text before the tag: `ThinkSplitter.BeforeTag`, `LeadingSpaceDropped`, `CuttingDecides`.
- A `</think>` torn across fragments is not recognised: `ThinkSplitter.CloseRecognisedIffWhole`,
  `TornCloseMissed`.
- A stream without any chunk is closed without having been started, and a failure before the finish
  leaves an Anthropic client with an open message: `AnthropicLaws.CompleteExactly`,
  `AnthropicStreamBroken`, with `EmptyStream` and `OpenMessageLeft`.
- Deltas that arrive after another block has started go to a block that is not the open one of
  their kind: `AnthropicLaws.StrayExactly`, `ThoughtInToolBlock`, `FragmentToClosedBlock`.
- Up to six characters received before a tool call come after its block, unless `<think>` has
  been completed by then: `AnthropicOrder.TextBeforeTool`, `ToolOvertakesText`.
- Items are left open, or closed twice, or extended after their end, and a stream without chunks
  has no `response.created`: `ResponsesLife.LifeExactly`, with `NeverCreated`, `ToolNeverClosed`,
  `TextCutOff`, `TextAfterFinish` and `FinishedTwice`.
- A tool call announced before any text shares output index 0 with the text:
  `ResponsesLaws.OutputIndexExact`, `ToolBeforeTextCollides`.
- The ordinary message, text and then a tool call, gets a wrong output index through both stages:
  `NormalizeIndexes.TwoStageIndexes`, `TextThenToolMisplaced`.
- A failed flush loses the fields of an id that was created again meanwhile:
  `CallLogLaws.NothingLostExactly`, `FailedFlushLosesRecreated`. A status that is no number would
  lose the whole batch (`BadStatusLosesBatch`); the callers in the repository all pass integers.
- Images in items of the assistant, the system or the developer are dropped:
  `RequestLaws.NothingDroppedExactly`, `ImageDropped`.
- A retry can skip a channel of the first tier that has not been tried, since the tier is counted
  among the channels left: `UpstreamCaller.UpstreamCallWithRetry`, `RetrySkipsUntried`.
- When all channels are excluded, `select` sorts the caller's own list in place: the contract of
  `ChannelSelector.Selector.SelectChannel` says so, in both directions.

`services/router-service/docs/anthropic-protocol-flow.md:198` says the lookback buffer is flushed
when it holds more than 7 characters. The code (anthropic_convert.py:431-436) already does so at
7, and keeps the last 6; the model follows the code.

## Model

A missing string is modelled as the empty string and a missing object as None, since the code
tests for truth. Generated ids (`uuid4`) are fresh numbers. Times are inputs.

| member | source | states |
|---|---|---|
| `ThinkSplitter.SplitterIsFaithful` | services/router-service/src/services/anthropic_convert.py:413-478 | For every cutting of T: without `<think>` the buffer is the last min(6, length of T) characters and plain text ++ buffer = T; afterwards T is cut at its first `<think>` and at the first whole `</think>` after it, and only whitespace directly before `<think>` is missing |
| `ThinkSplitter.LookbackSuffices` | services/router-service/src/services/anthropic_convert.py:421-436 | Six characters of lookback are enough: the first `<think>` of the whole text is found in the buffer, at the right place, although earlier text has been emitted |
| `ThinkSplitter.WholeClosesOccur` | services/router-service/src/services/anthropic_convert.py:440-441 | The reference closing positions, those that arrive within one fragment, are occurrences of `</think>` in the whole text |
| `ThinkSplitter.NoTagConserves` | services/router-service/src/services/anthropic_convert.py:413-478 | A text without `<think>` comes out as plain text to the last character, in every cutting, once the buffer is flushed |
| `ThinkSplitter.CloseRecognisedIffWhole` | services/router-service/src/services/anthropic_convert.py:439-449 | The first `</think>` after `<think>` ends the thinking text if and only if it arrives within one fragment, and then exactly the rest is plain text |
| `ThinkSplitter.TornCloseMissed` | services/router-service/src/services/anthropic_convert.py:439-449 | An input whose torn closing tag is read as thinking text |
| `ThinkSplitter.NeverClosed` | services/router-service/src/services/anthropic_convert.py:447-449 | Without a closing tag everything after `<think>` is thinking text and nothing follows |
| `ThinkSplitter.AfterTag` | services/router-service/src/services/anthropic_convert.py:439-453 | What follows `<think>` is thinking text up to the first closing tag that arrives within one fragment, if there is one, and what follows that tag is plain text |
| `ThinkSplitter.BeforeTag` | services/router-service/src/services/anthropic_convert.py:418-436 | The text before `<think>` is kept whole if and only if the lookback buffer, when the tag is completed, holds none of it or something besides whitespace; otherwise exactly the part held is dropped |
| `ThinkSplitter.BeforeIsKept` | services/router-service/src/services/anthropic_convert.py:418-436 | For every cutting the text kept before `<think>` is the prefix of the original text that the fragments alone determine |
| `ThinkSplitter.LeadingSpaceDropped` | services/router-service/src/services/anthropic_convert.py:424-426 | An input that loses its leading space |
| `ThinkSplitter.CuttingDecides` | services/router-service/src/services/anthropic_convert.py:424-426 | One text, two cuttings: six spaces before `<think>` kept by one and dropped by the other |
| `Text.WhitespaceIs` | services/router-service/src/services/anthropic_convert.py:425 | Which characters `strip` removes, one by one |
| `ThinkSplitter.ChunkingIndependence` | services/router-service/src/services/anthropic_convert.py:413-478 | Two cuttings of one text agree on the text before `<think>` if and only if both keep the same part, and on the thinking text and the text after it if and only if the same closing tag is the first that neither tears; without a tag they always agree |
| `ThinkSplitter.PiecesAreWhole` | services/router-service/src/services/anthropic_convert.py:421-454 | What one fragment adds is let out in as few pieces as there are changes of kind, none of them empty |
| `AnthropicConvert.SplitTurn` | services/router-service/src/services/anthropic_convert.py:418-456 | One turn of the loop does a part of the split and leaves the rest to be split; the mode advances or the text is used up, so the loop terminates although an idle turn rebuilds the text from the buffer |
| `AnthropicConvert.AnthropicStreamConverter.EmitMessageStart` | services/router-service/src/services/anthropic_convert.py:312-335 | `message_start` with the prompt tokens, if known, then a ping; the stream counts as started |
| `AnthropicConvert.AnthropicStreamConverter.EmitBlockStart` | services/router-service/src/services/anthropic_convert.py:337-372 | A block of the given type is open at the current index, and only the block fields change |
| `AnthropicConvert.AnthropicStreamConverter.EmitBlockStop` | services/router-service/src/services/anthropic_convert.py:374-382 | The current index is closed and the next index is one higher |
| `AnthropicConvert.AnthropicStreamConverter.EmitPlainText` | services/router-service/src/services/anthropic_convert.py:463-470 | Text goes to an open text block; any other open block is closed first |
| `AnthropicConvert.AnthropicStreamConverter.StartThinkingBlock` | services/router-service/src/services/anthropic_convert.py:458-461 | A thinking block is opened after closing whatever was open |
| `AnthropicConvert.AnthropicStreamConverter.ProcessIdle` | services/router-service/src/services/anthropic_convert.py:419-437 | The idle branch of the loop: new splitter state, text still to do, and the events of the pieces it produced |
| `AnthropicConvert.AnthropicStreamConverter.ProcessThinking` | services/router-service/src/services/anthropic_convert.py:439-449 | The thinking branch of the loop, likewise |
| `AnthropicConvert.AnthropicStreamConverter.ProcessText` | services/router-service/src/services/anthropic_convert.py:413-456 | The loop terminates, and its state and events are those of splitting the whole fragment |
| `AnthropicConvert.AnthropicStreamConverter.FlushThinkBuffer` | services/router-service/src/services/anthropic_convert.py:472-478 | What is buffered while idle is emitted as plain text, once |
| `AnthropicConvert.AnthropicStreamConverter.EmitFinish` | services/router-service/src/services/anthropic_convert.py:399-411 | Flush, close the open block, `message_delta` with stop reason and output tokens, `message_stop`; nothing is emitted afterwards |
| `AnthropicConvert.AnthropicStreamConverter.ConvertToolCall` | services/router-service/src/services/anthropic_convert.py:518-534 | A new tool index gets a block of its own, with the id received or a fresh one; arguments go to the block of their tool |
| `AnthropicConvert.AnthropicStreamConverter.ConvertToolCalls` | services/router-service/src/services/anthropic_convert.py:515-534 | All tool deltas of a chunk, in order |
| `AnthropicConvert.AnthropicStreamConverter.ConvertChoice` | services/router-service/src/services/anthropic_convert.py:505-541 | State and events of the first choice: text, tools and finish, in this order |
| `AnthropicConvert.AnthropicStreamConverter.ConvertChunk` | services/router-service/src/services/anthropic_convert.py:480-541 | State and events after one chunk: usage, start, text, tools and finish, in this order; nothing after the finish |
| `AnthropicConvert.StreamAnthropicSse` | services/router-service/src/controllers/messages.py:373-404 | All events of a stream, with the closing rule for streams that end without a finish reason, and none when the upstream fails |
| `AnthropicEmitter.PlainHeard` | services/router-service/src/services/anthropic_convert.py:463-470 | A client in step stays in step and has read exactly this text more; no tool block changes |
| `AnthropicEmitter.PieceHeard` | services/router-service/src/services/anthropic_convert.py:413-470 | Likewise for every piece; a thought goes astray exactly when the open block is not a thinking block |
| `AnthropicEmitter.Injective` | services/router-service/src/services/anthropic_convert.py:524-531 | The map from tool index to block index is injective |
| `AnthropicEmitter.ToolAdded` | services/router-service/src/services/anthropic_convert.py:524-531 | A new tool gets a block behind all others, and all earlier tools keep theirs |
| `AnthropicEmitter.CallHeard` | services/router-service/src/services/anthropic_convert.py:391-397 | A tool delta adds its arguments to its own block and disturbs no text; it goes to a block no longer open exactly when another block was started in between |
| `AnthropicEmitter.BodyUnderstood` | services/router-service/src/services/anthropic_convert.py:374-397 | From the first event on a client understands every well-nested body: all text, all thinking, every tool in its own block |
| `AnthropicLaws.LexShape` | services/router-service/src/services/anthropic_convert.py:480-541 | For every chunk list: one start, then exactly the text and tool operations of the chunks up to the first that finishes, then flush and finish |
| `AnthropicLaws.PiecesNested` | services/router-service/src/services/anthropic_convert.py:439-449 | State "thinking" implies an open block: thoughts and closing tags come only between an opening tag and its closing tag |
| `AnthropicLaws.BodyProjects` | services/router-service/src/services/anthropic_convert.py:509-534 | The operations carry exactly the pieces of the splitter and the tool deltas received, in order |
| `AnthropicLaws.AnthropicStreamMeaning` | services/router-service/src/services/anthropic_convert.py:374-541 | For every stream of at least one chunk, however odd: the client accepts every event, ends with a complete message, and holds the text and thinking the splitter must read, every tool's id, name and arguments in its own block, the prompt tokens of the first chunk and the completion tokens last reported; the stop reason is `tool_use` iff the ending finish reason is `tool_calls`, `max_tokens` iff it is `length` or `max_tokens`, and `end_turn` otherwise |
| `AnthropicLaws.StopTellsWhy` | services/router-service/src/services/anthropic_convert.py:19-25 | The table of stop reasons, in both directions, on the chunk that ended the stream |
| `AnthropicLaws.AnthropicStreamBroken` | services/router-service/src/controllers/messages.py:392-404 | An upstream failure before the finish leaves a well-formed but open message with everything sent so far |
| `AnthropicLaws.CompleteExactly` | services/router-service/src/controllers/messages.py:392-404 | The client gets a complete message if and only if a chunk arrived and no failure came before the finish; it rejects the stream if and only if there was no chunk and no failure |
| `AnthropicLaws.PlainStreamSurvives` | services/router-service/src/services/anthropic_convert.py:463-541 | End to end: a stream without `<think>` reaches the client as text to the last character |
| `AnthropicLaws.ThinkingStreamSurvives` | services/router-service/src/services/anthropic_convert.py:413-541 | End to end, for every stream with a `<think>`: the client holds as thinking what follows it up to the first closing tag that is not torn, or to the end if there is none, and as text the rest, with exactly the kept part of the text before the tag |
| `AnthropicLaws.UntornStreamSurvives` | services/router-service/src/services/anthropic_convert.py:413-541 | The same where the very first `</think>` after the tag is not torn |
| `AnthropicLaws.OpenMessageLeft` | services/router-service/src/controllers/messages.py:392-404 | A stream that fails after one chunk and leaves the message open |
| `AnthropicLaws.TrackBody` | services/router-service/src/services/anthropic_convert.py:391-397 | From the chunks alone: whether anything has gone astray, which tool's fragments may arrive next, and whether the thinking block is still the open one |
| `AnthropicLaws.StrayExactly` | services/router-service/src/services/anthropic_convert.py:391-397 | Over every stream, ending or failing, some delta misses the open block of its kind if and only if thinking text arrives after a tool started within its `<think>`, or a fragment of a tool after text was emitted or another tool has started |
| `AnthropicLaws.ThoughtInToolBlock` | services/router-service/src/services/anthropic_convert.py:447-448 | A stream whose thinking text is sent into the block of a tool |
| `AnthropicLaws.FragmentToClosedBlock` | services/router-service/src/services/anthropic_convert.py:391-397 | A stream whose tool fragment is sent to a closed block |
| `AnthropicEvents.ClosedStays` | services/router-service/src/services/anthropic_convert.py:374-397 | Whatever events follow, the text and thinking of closed blocks stay as they are |
| `AnthropicOrder.TextBeforeTool` | services/router-service/src/services/anthropic_convert.py:431-534 | The blocks before a tool block hold the text let out before the tool started; that is all the text received by then if and only if there was none or `<think>` had been completed |
| `AnthropicOrder.ToolOvertakesText` | services/router-service/src/services/anthropic_convert.py:431-534 | A stream whose first three characters come after the tool call that followed them |
| `AnthropicOrder.ThinkingPlaced` | services/router-service/src/services/anthropic_convert.py:423-470 | There is exactly one thinking block if `<think>` was completed and none otherwise; the blocks before it hold the text before the tag, those after it the text after |
| `ResponsesEvents.ServedByLast` | services/router-service/src/services/responses_convert.py:367-413 | A client that has been served received exactly one `response.completed`, as the last event |
| `ResponsesConvert.ResponsesStreamConverter.EmitTextDelta` | services/router-service/src/services/responses_convert.py:253-284 | The first text opens the message item and its part; the text is remembered whole |
| `ResponsesConvert.ResponsesStreamConverter.EmitTextDone` | services/router-service/src/services/responses_convert.py:286-312 | The three closing events of the text repeat the text remembered |
| `ResponsesConvert.ResponsesStreamConverter.EmitToolAdded` | services/router-service/src/services/responses_convert.py:314-331 | A tool call is entered last, with an output index that counts the text only if it has started |
| `ResponsesConvert.ResponsesStreamConverter.EmitToolArgsDelta` | services/router-service/src/services/responses_convert.py:333-342 | The delta is added to the tool's arguments and sent under its ids |
| `ResponsesConvert.ResponsesStreamConverter.EmitToolsDone` | services/router-service/src/services/responses_convert.py:344-365 | The closing events of the given tools, in the given order, repeat their arguments |
| `ResponsesConvert.ResponsesStreamConverter.EmitCompleted` | services/router-service/src/services/responses_convert.py:367-413 | The completion lists the text if any, then the tool calls in order of first appearance, or an empty message if there is nothing |
| `ResponsesConvert.ResponsesStreamConverter.ConvertToolCall` | services/router-service/src/services/responses_convert.py:463-476 | One tool delta: announced once, arguments accumulated |
| `ResponsesConvert.ResponsesStreamConverter.ConvertToolCalls` | services/router-service/src/services/responses_convert.py:461-476 | All tool deltas of a chunk, in order |
| `ResponsesConvert.ResponsesStreamConverter.ConvertChoiceChunk` | services/router-service/src/services/responses_convert.py:449-487 | Text, tools, and on a finish reason the closing of all items, with the completion deferred |
| `ResponsesConvert.ResponsesStreamConverter.ConvertUsageChunk` | services/router-service/src/services/responses_convert.py:435-447 | A chunk without choices completes a pending finish, or closes everything if it brings usage |
| `ResponsesConvert.ResponsesStreamConverter.CloseItems` | services/router-service/src/services/responses_convert.py:481-484 | Text first, then the tools in ascending order |
| `ResponsesConvert.ResponsesStreamConverter.ConvertChunk` | services/router-service/src/services/responses_convert.py:415-487 | State and events after one chunk; every started tool keeps its entry; nothing after completion |
| `ResponsesConvert.StreamResponsesSse` | services/router-service/src/controllers/responses.py:205-242 | All events of a run, with the closing rules for streams that end early and for upstream failures |
| `ResponsesLaws.TextClosingAccepted` | services/router-service/src/services/responses_convert.py:286-312 | The closing text events repeat exactly the deltas before them |
| `ResponsesLaws.ToolsClosingAccepted` | services/router-service/src/services/responses_convert.py:344-365 | The closing tool events repeat exactly the deltas before them, for any order of tools |
| `ResponsesLaws.CompleteServes` | services/router-service/src/services/responses_convert.py:367-413 | The completion lists exactly what a client has collected |
| `ResponsesLaws.RunInStep` | services/router-service/src/services/responses_convert.py:415-487 | After every chunk of every run a client is in step with the converter or has been served |
| `ResponsesLaws.ServedOnce` | services/router-service/src/controllers/responses.py:205-242 | Over every run, failing or not, exactly one completion is sent, as the last event, and every `done` event and the completion equal the concatenation of the deltas before them |
| `ResponsesLaws.RunReflects` | services/router-service/src/services/responses_convert.py:415-487 | After every run the converter's state is what the chunks consumed say: text, tools in order, ids, arguments, usage, finish reason |
| `ResponsesLaws.ResponsesStreamMeaning` | services/router-service/src/controllers/responses.py:211-242 | Over every run the one completion is the response collected directly from the chunks |
| `ResponsesLaws.TextBeforeIsText` | services/router-service/src/services/responses_convert.py:316 | A tool announced after the text counts it only if there is text |
| `ResponsesLaws.OutputIndexExact` | services/router-service/src/services/responses_convert.py:314-331 | Every tool call is announced under its position in the final output if and only if the tool indexes are aligned with it |
| `ResponsesLaws.ToolBeforeTextCollides` | services/router-service/src/services/responses_convert.py:264-316 | A concrete stream in which a tool call and the text share output index 0 |
| `ResponsesLife.BroughtLate` | services/router-service/src/services/responses_convert.py:453-476 | Whatever is announced or added once an item is closed breaks the life cycle or leaves an item open |
| `ResponsesLife.ClosedTwice` | services/router-service/src/services/responses_convert.py:479-485 | Closing everything once more when something is closed already breaks the life cycle |
| `ResponsesLife.AllTracked` | services/router-service/src/services/responses_convert.py:415-487 | After every run: all items open, or all closed, or the life cycle beyond repair, as the chunks alone tell |
| `ResponsesLife.LifeExactly` | services/router-service/src/controllers/responses.py:205-242 | Over every run, ending or failing: `response.created` first, every item announced, extended and closed once in this order, and nothing open at completion, if and only if there was a chunk and the chunks meet a stated condition on finish reasons, usage and late items |
| `ResponsesLife.CreatedFirst` | services/router-service/src/services/responses_convert.py:431-433 | `response.created` comes first if and only if there was a chunk |
| `ResponsesLife.ClosedAscending` | services/router-service/src/services/responses_convert.py:479-485 | On a finish reason every tool is closed, by ascending index |
| `ResponsesLife.NeverCreated` | services/router-service/src/controllers/responses.py:227-233 | Without a chunk the completion follows no `response.created` |
| `ResponsesLife.ToolNeverClosed` | services/router-service/src/controllers/responses.py:227-242 | A tool call without a finish reason is never closed, whether the upstream ends or fails |
| `ResponsesLife.TextCutOff` | services/router-service/src/controllers/responses.py:227-242 | Text without a finish reason is closed when the upstream ends, and not when it fails |
| `ResponsesLife.TextAfterFinish` | services/router-service/src/services/responses_convert.py:454-458 | Text after the finish reason goes to an item already closed |
| `ResponsesLife.FinishedTwice` | services/router-service/src/services/responses_convert.py:479-485 | A second finish reason closes the same item again |
| `NormalizeStream.NormalizeEvents` | services/router-service/src/services/anthropic_backend.py:323-402 | The chunks yielded for an upstream event stream, with the running token counters |
| `NormalizeStream.NoiseIgnored` | services/router-service/src/services/anthropic_backend.py:330-402 | Events of other types, deltas of other types and a start without usage do not matter, wherever they occur |
| `NormalizeStream.TurnCarried` | services/router-service/src/services/anthropic_backend.py:330-402 | A whole message keeps its text fragments, its tool deltas and its usage; its finish reason is `tool_calls` iff the stop reason is `tool_use`, `length` iff it is `max_tokens`, and `stop` otherwise |
| `NormalizeStream.CountsReported` | services/router-service/src/services/anthropic_backend.py:327-339 | After any events the counters are the counts most recently reported |
| `NormalizeStream.UsagePassedOn` | services/router-service/src/services/anthropic_backend.py:388-402 | After any events, a message_delta passes on the counts most recently reported, its own included, and their sum |
| `RoundTrip.TurnConsumed` | services/router-service/src/services/anthropic_backend.py:323-402 | All chunks of a message count for the Anthropic converter, and the last one ends the stream with its finish reason |
| `RoundTrip.StopReasonRoundTrip` | services/router-service/src/services/anthropic_convert.py:19-25 | Through normaliser, Anthropic converter and closing rule the stop reasons `end_turn`, `max_tokens` and `tool_use` come back unchanged, any other as `end_turn`, and the output tokens too |
| `NormalizeStream.CallsCollected` | services/router-service/src/services/anthropic_backend.py:360-386 | The tool deltas of a message collect into one call for each tool_use block, in order, with all its argument fragments |
| `NormalizeStream.TwoStageMeaning` | services/router-service/src/controllers/responses.py:211-242 | A well-formed message stream through normaliser, Responses converter and closing rule ends in one completion with the message's calls, text, status and usage |
| `NormalizeIndexes.TextBeforeTool` | services/router-service/src/services/responses_convert.py:316 | Through both stages, text counts for a tool block if and only if a block before it brought some |
| `NormalizeIndexes.TwoStageIndexes` | services/router-service/src/services/responses_convert.py:314-331 | Through both stages, every tool block is announced under its position in the final output if and only if, without any text, no other block stands before it, and with text, exactly one does and it is empty |
| `NormalizeIndexes.TextThenToolMisplaced` | services/router-service/src/services/anthropic_backend.py:371-386 | The ordinary message, text and then a tool call: announced under index 2, at position 1 |
| `RequestConvert.ResponsesToOpenai` | services/router-service/src/services/responses_convert.py:46-102 | Messages for instructions and input, with pending tool calls grouped |
| `RequestConvert.ConvertItems` | services/router-service/src/services/responses_convert.py:60-102 | The loop over the items keeps: messages and pending calls together are the grouping of the items so far |
| `RequestConvert.GroupedFaithful` | services/router-service/src/services/responses_convert.py:57-102 | Taking the tool-call messages apart gives back the recognised items in order, and each is a maximal run of calls |
| `RequestConvert.GroupingUnique` | services/router-service/src/services/responses_convert.py:57-102 | No other message list with maximal runs says the same |
| `RequestConvert.OpenaiToAnthropic` | services/router-service/src/services/anthropic_backend.py:140-223 | System texts and Anthropic messages for a message list |
| `RequestConvert.CallingSaid` | services/router-service/src/services/anthropic_backend.py:172-195 | An assistant message says its content, then its tool calls in order |
| `RequestConvert.MessagesSaid` | services/router-service/src/services/anthropic_backend.py:148-223 | For any messages, taking calling messages apart and converting every atom on its own gives the blocks that are sent, and the system texts, in order |
| `RequestConvert.TranslationKeepsOrder` | services/router-service/src/services/anthropic_backend.py:148-223 | Through both stages the blocks sent are those the second stage makes of each recognised item on its own, in order and under the same roles; the system texts likewise |
| `RequestLaws.MessagesArrive` | services/router-service/src/services/anthropic_backend.py:148-223 | For any messages: what is sent, empty texts aside, is what the messages hold, read off their parts, in order and under their roles, without images of system and assistant messages; the system texts are those of the system messages |
| `RequestLaws.InputArrives` | services/router-service/src/services/anthropic_backend.py:148-223 | Through both stages: what is sent or instructed is what the input items say, read off the items alone, but for images in items that are not the user's |
| `RequestLaws.NothingDroppedExactly` | services/router-service/src/services/anthropic_backend.py:150-178 | Everything the input says is sent or instructed if and only if no item of the system, the developer or the assistant contains an image |
| `RequestLaws.ImageDropped` | services/router-service/src/services/anthropic_backend.py:150-178 | One item that is one image, under each role: it arrives for the user only |
| `RequestLaws.CallsFindAnswers` | services/router-service/src/services/responses_convert.py:68-90 | Through both stages tool uses carry the call ids of the call items and tool results those of the answers, in order; two of them have the same id iff their items have |
| `RequestLaws.MessagesAreSent` | services/router-service/src/services/anthropic_backend.py:148-223 | Every message but the system's is sent as one message, in order and under its role, even if it says nothing, and no assistant message has an empty list of blocks |
| `RequestLaws.ListExactly` | services/router-service/src/services/responses_convert.py:17-43 | Content is passed on as a list iff it is one with an image or with two recognised parts or more; otherwise as a string |
| `ChannelOrder.SortChannels` | services/router-service/src/services/channel_selector.py:93 | Sorted by descending priority and then slug, and a permutation |
| `ChannelOrder.SortedUnique` | services/router-service/src/services/channel_selector.py:93 | If slugs identify channels, a sorted list is determined by its elements |
| `ChannelSelector.Tier` | services/router-service/src/services/channel_selector.py:93-101 | The tier is not empty and holds only candidates of the target priority |
| `ChannelSelector.PickByWeight` | services/router-service/src/services/channel_selector.py:109-115 | The cumulative walk finds the entry of the weight-expanded list, and the final return is never reached |
| `ChannelSelector.ExpandAt` | services/router-service/src/services/channel_selector.py:109-113 | A counter within the weight range of a channel stands for that channel |
| `ChannelSelector.Selector.SelectChannel` | services/router-service/src/services/channel_selector.py:49-115 | Outcome, counter and, when the candidates are the caller's list, the sorted list left behind |
| `ChannelSelector.Selector.ReportFailure` | services/router-service/src/services/channel_selector.py:117-125 | Cooldown, count and, at the threshold, the long cooldown; nothing else changes |
| `ChannelSelector.Selector.ReportSuccess` | services/router-service/src/services/channel_selector.py:138-142 | All three records of the channel are cleared, and no other channel's |
| `ChannelSelector.Selector.UpdateHealthCache` | services/router-service/src/services/channel_selector.py:144-145 | The health data is replaced, nothing else |
| `ChannelSelector.Selector.IsChannelAvailable` | services/router-service/src/services/channel_selector.py:147-154 | True exactly when the channel is not cooling |
| `ChannelSelectorLaws.TargetRank` | services/router-service/src/services/channel_selector.py:95-98 | Exactly min(retry_tier, distinct priorities - 1) distinct priorities lie above the chosen one |
| `ChannelSelectorLaws.SelectSpecification` | services/router-service/src/services/channel_selector.py:49-115 | In any state: when it raises and with which error, exactly; an available channel if there is one; excluded or rate-limited channels only if all are excluded; the priority rank of the choice among the candidates |
| `ChannelSelectorLaws.OrderIrrelevant` | services/router-service/src/services/channel_selector.py:65-115 | If slugs identify channels, permuting the channel list changes neither outcome nor state |
| `ChannelSelectorLaws.PicksInOrder` | services/router-service/src/services/channel_selector.py:103-113 | While the tier stays fixed, successive picks for a model walk round the weight-expanded list, whatever is called in between |
| `ChannelSelectorLaws.Rotation` | services/router-service/src/services/channel_selector.py:103-113 | A full round from any counter value is a rotation of that list |
| `ChannelSelectorLaws.ExpandCount` | services/router-service/src/services/channel_selector.py:103 | A channel stands in the expanded list max(weight, 1) times for each listing |
| `ChannelSelectorLaws.RoundIsFair` | services/router-service/src/services/channel_selector.py:93-115 | Any W selects for a model with a fixed tier of total weight W return each channel exactly max(weight, 1) times for each listing |
| `ChannelSelectorLaws.FailuresRecorded` | services/router-service/src/services/channel_selector.py:117-142 | After any history: the count is the failures since the last success, the cooldown runs from the last failure, and a channel is disabled exactly at the threshold, until the long cooldown after the last failure |
| `ChannelSelectorLaws.CoolingExactly` | services/router-service/src/services/channel_selector.py:147-154 | Whether a channel is cooling, from the history alone, in both directions |
| `ChannelSelectorHistory.SelectAfterHistory` | services/router-service/src/services/channel_selector.py:49-115 | After any history of calls: when it raises and with which error, exactly; otherwise the channel is one of the pool (usable by the reports and the health data of that history; else merely open; else any) and lies on the tier asked for |
| `ChannelSelectorHistory.UsableFirst` | services/router-service/src/services/channel_selector.py:65-75 | If some channel is not excluded, not limited, not cooling or disabled by its failures since its last success, and not `unhealthy` in the last health data, such a channel is returned |
| `ChannelSelectorHistory.TierAfterHistory` | services/router-service/src/services/channel_selector.py:65-101 | The round-robin goes round exactly the channels of the pool on that tier, each as often as it is listed |
| `ChannelSelectorHistory.SlugLeIs` | services/router-service/src/services/channel_selector.py:93 | Slugs are compared as strings: a prefix first, otherwise by the first difference |
| `ChannelSelectorHistory.SortedBy` | services/router-service/src/services/channel_selector.py:93 | Higher priorities first, and slugs in their order within one priority |
| `ChannelSelectorHistory.SortIsStable` | services/router-service/src/services/channel_selector.py:93 | The sort is stable |
| `UpstreamCaller.RetryChoice` | services/router-service/src/services/upstream.py:84-92 | The next channel is one of the model's, and a tried one only if all have been tried; otherwise none is left that is not rate-limited |
| `UpstreamCaller.ChoiceDescends` | services/router-service/src/services/channel_selector.py:93-101 | What `select` returns lies on the tier asked for: that many distinct priorities above it among the candidates, or all the others |
| `UpstreamCaller.ResolveTarget` | services/router-service/src/services/upstream.py:74-115 | The next channel for a retry, on the tier asked for, or the reason why there is none |
| `UpstreamCaller.Report` | services/router-service/src/services/upstream_caller.py:61-73 | A named channel is reported once for each dispatch, as success or failure |
| `UpstreamCaller.RecordsReported` | services/router-service/src/services/upstream_caller.py:61-73 | The records after a trace, read off the trace: a channel whose last response was a success has none; after an error it cools from that error, its count is that of the errors since its last success, on top of the count before the call if there was none, and it is disabled from the threshold on |
| `UpstreamCaller.RetriesExactly` | services/router-service/src/services/retry_policy.py:5-28 | Errors without a status, with status 429 and with status 500 to 599 are retried, no others |
| `UpstreamCaller.ExploresSnoc` | services/router-service/src/services/upstream_caller.py:43-82 | One more dispatch keeps the order of exploration and the tried set |
| `UpstreamCaller.UpstreamCallWithRetry` | services/router-service/src/services/upstream_caller.py:43-98 | The first dispatch goes to the given channel; a channel is repeated only after every channel of the model; the k-th retry goes to a channel with k distinct priorities above it among the candidates then left, or to the last tier; at most max_retries + 1 dispatches; none after a success or a non-retryable status; the result is the last dispatch's; giving up early has a reason; the selector's records are those read off the trace |
| `UpstreamCaller.RetrySkipsUntried` | services/router-service/src/services/upstream_caller.py:77-81 | Two channels on the first tier, one on the second: the first retry goes to the second tier, past an untried channel |
| `CallLogBuffer.Buffer.Record` | services/router-service/src/services/calllog_buffer.py:50-59 | A fresh entry replaces or extends the buffer; a full buffer first drops its oldest entry |
| `CallLogBuffer.Buffer.Update` | services/router-service/src/services/calllog_buffer.py:61-71 | Fields are merged into the entry, which is created if missing; billing is noted once cost and status 200 are known |
| `CallLogBuffer.Buffer.BeginFlush` | services/router-service/src/services/calllog_buffer.py:98-120 | The dictionary is swapped out; one payload for each entry, in order; the batch is dropped without a gateway, or when a status cannot be compared with a number |
| `CallLogBuffer.Buffer.EndFlush` | services/router-service/src/services/calllog_buffer.py:122-134 | On success the batch is delivered; on failure each entry is merged back unless spent or re-created |
| `CallLogLaws.StepValid` | services/router-service/src/services/calllog_buffer.py:50-134 | Every step keeps both dictionaries consistent |
| `CallLogLaws.BatchDelivers` | services/router-service/src/services/calllog_buffer.py:105-116 | A batch delivers for each id exactly the fields it held |
| `CallLogLaws.MergedAt` | services/router-service/src/services/calllog_buffer.py:124-134 | Merging back, seen from one id: put back with one more retry, or left alone |
| `CallLogLaws.StepIsHeld` | services/router-service/src/services/calllog_buffer.py:50-134 | Every step of the whole buffer, seen from one id, moves what is held for it between buffered, in flight and delivered |
| `CallLogLaws.NothingLost` | services/router-service/src/services/calllog_buffer.py:50-134 | Over any interleaving of calls and flushes that drops nothing held for an id: fields delivered, in flight and buffered, merged in this order, are all the fields ever passed |
| `CallLogLaws.NothingLostExactly` | services/router-service/src/services/calllog_buffer.py:50-134 | For calls that each pass something of their own: everything is accounted for if and only if no step dropped what was held for the id |
| `CallLogLaws.ResendBounded` | services/router-service/src/services/calllog_buffer.py:124-134 | In every run an entry is sent again at most `max_retries` times: its count is the number of failed flushes it was part of |
| `CallLogLaws.FailedFlushLosesRecreated` | services/router-service/src/services/calllog_buffer.py:128-129 | A concrete run in which a failed flush loses fields although retries remain |
| `CallLogLaws.BadStatusLosesBatch` | services/router-service/src/services/calllog_buffer.py:99-111 | A concrete run in which one bad status loses the other entries of the batch |
| `CallLogPayloads.UpdateBills` | services/router-service/src/services/calllog_buffer.py:67-71 | An update sets the billing mark iff the merged fields have a positive cost and status 200, and never takes it back |
| `CallLogPayloads.PaidRecorded` | services/router-service/src/services/calllog_buffer.py:50-134 | Over any history the mark of an entry says whether an update paid for it since it was created |
| `CallLogPayloads.FlushSends` | services/router-service/src/services/calllog_buffer.py:105-116 | Over any history a flush sends one payload for each entry, oldest first, with all its fields: `complete` iff the call was paid for and has a status, `update` iff it was not and the status is 200 or more, else `create` |
| `CallLogPayloads.SentExactly` | services/router-service/src/services/calllog_buffer.py:98-122 | A batch reaches the gateway iff there is a gateway, something to send, and every status is missing, None or a number |
| `CallLogPayloads.RecordKeys` | services/router-service/src/services/calllog_buffer.py:50-59 | A new entry goes to the end; a full buffer first drops the entry at the front and no other |
| `CallLogPayloads.UpdateKeys` | services/router-service/src/services/calllog_buffer.py:61-66 | An update moves no entry; a new one goes to the end |
| `CallLogPayloads.MergeKeys` | services/router-service/src/services/calllog_buffer.py:124-129 | After a failed flush the entries with retries left that were not re-created come back at the end, in their order |
| `RateLimiter.InMemoryRateLimiter.Check` | services/router-service/src/services/rate_limiter.py:35-40 | Accepts below the limit and renews the expiry; a rejected check changes nothing |
| `RateLimiter.CounterIsChain` | services/router-service/src/services/rate_limiter.py:31-40 | The counter is the length of the unbroken chain of accepts, each less than 60 seconds before the next lookup |
| `RateLimiter.AcceptedExactly` | services/router-service/src/services/rate_limiter.py:35-40 | A check is accepted iff that chain is shorter than its limit |
| `RateLimiter.WindowWithinChain` | services/router-service/src/services/rate_limiter.py:31-40 | Within a window of 60 seconds the chain never breaks |
| `RateLimiter.SlidingWindow` | services/router-service/src/services/rate_limiter.py:27-43 | With a constant limit every half-open window of 60 seconds of any run contains at most `limit` accepted checks |
| `SdkClients.SdkClientPool.GetOpenai` | services/router-service/src/services/sdk_clients.py:21-31 | The request on the OpenAI pool; the other pool is untouched |
| `SdkClients.SdkClientPool.GetAnthropic` | services/router-service/src/services/sdk_clients.py:33-43 | The request on the Anthropic pool; the other pool is untouched |
| `SdkClients.PoolIsLru` | services/router-service/src/services/sdk_clients.py:18-43 | After any history a pool holds exactly the max_size most recently requested distinct keys, in recency order |
| `SdkClients.ClientKept` | services/router-service/src/services/sdk_clients.py:24-26 | A key that stays cached keeps its client |
| `SdkClients.ReusedExactly` | services/router-service/src/services/sdk_clients.py:21-43 | A request returns the same client as the one before if and only if fewer than max_size other keys were requested in between |
| `SdkClients.ClientsDistinct` | services/router-service/src/services/sdk_clients.py:21-43 | Two keys never share a client |
| `RingBuffer.RingBufferHandler.Emit` | services/router-service/src/common/observability.py:108-113 | The record gets the next number; the oldest falls out of a full buffer |
| `RingBuffer.RingBufferHandler.Snapshot` | services/router-service/src/common/observability.py:115-150 | One page of the matching entries, newest first, with total and latest number |
| `RingBuffer.BufferIsLast` | services/router-service/src/common/observability.py:102-113 | The buffer is exactly the last `capacity` records ever emitted, numbered from 1 |
| `RingBuffer.FilterIs` | services/router-service/src/common/observability.py:129-145 | Exactly the entries that match every filter |
| `RingBuffer.ReversedIs` | services/router-service/src/common/observability.py:146 | Newest first |
| `RingBuffer.PollingComplete` | services/router-service/src/common/observability.py:129-130 | A reader that polls from the last number seen misses nothing if and only if at most `capacity` records came since |
| `RingBuffer.PagesPartition` | services/router-service/src/common/observability.py:147-149 | Pages 1, 2, ... of one snapshot are disjoint and put together give its beginning |
| `RingBuffer.LevelsAre` | services/router-service/src/common/observability.py:153-161 | A level admits the levels of at least its severity; an unknown one admits all five |
| `RingBuffer.ShownExactly` | services/router-service/src/common/observability.py:129-145 | Which entries a snapshot shows, by number, severity and the other filters |
| `RingBuffer.NewestFirst` | services/router-service/src/common/observability.py:146 | The numbers of the entries shown descend |
| `RingBuffer.SliceIs` | services/router-service/src/common/observability.py:148-149 | What a page holds, whatever its bounds, negative ones counting from the end |
| `AuthService.AdminUser.TryLogin` | services/admin-service/src/services/auth_service.py:66-113 | Locked attempts change nothing; wrong passwords count and lock from the fifth on; success clears both fields |
| `AuthService.RecordExactly` | services/admin-service/src/services/auth_service.py:74-113 | The record counts the wrong passwords since the last success and is locked for an hour from the last of them from the fifth on; a success clears both |
| `AuthService.OutcomeExactly` | services/admin-service/src/services/auth_service.py:66-113 | An attempt is turned away iff five wrong passwords came since the last success and the hour after the last is not over; otherwise the password decides, then the status |
| `AuthService.WrongsSpaced` | services/admin-service/src/services/auth_service.py:66-113 | The count is kept when a lock expires: after the free failures every verified wrong password comes at least an hour after the one before |
| `AuthService.LockoutBound` | services/admin-service/src/services/auth_service.py:66-113 | In any stretch without success, wrong passwords verified within time D number at most the free ones plus floor(D / 1 hour) |
| `AuthService.FreshBound` | services/admin-service/src/services/auth_service.py:30-113 | From count 0: at most 5 + floor(D / 1 hour) |

## Left out

- HTTP clients, FastAPI wiring, SQLAlchemy, Redis and its Lua scripts: I/O. The gateway and the upstream are inputs that succeed or fail.
- JSON and SSE text: events are abstract values, tool arguments stay strings, and an image URL stays one string (the split of data URLs is per image and moves nothing).
- Ids made by `uuid4` are fresh numbers, and clock readings are inputs that never decrease.
- The extra message, audit and cost records that the stream controllers keep for logging (`collected_content`, `stream_usage`), and client cancellation in the middle of a stream.
- The regex-based think handling of non-streaming responses: it has a different meaning (case-insensitive, every occurrence) and nothing is claimed about it.
- `compute_cost`, circuit breakers, HMAC signing, admin CRUD, schemas and migrations: finite tables or plumbing with few invariants.
- ChannelSelector.Selector.SelectChannel: the two lock sections of one call are taken as one step, so a concurrent report between them is not modelled; logging is not modelled.
- UpstreamCaller.UpstreamCallWithRetry: the selector is not used by other requests during the loop, the channel list stays the same, the account limiter that is consulted after a success only answers yes or no, which the original ignores, and is not modelled, and neither is the configuration without channels (`model_providers`).
- UpstreamCaller.ResolveTarget: the checks of address and key are one input that says whether the channel is usable.
- CallLogBuffer.Buffer.Record: a buffer size of 0 makes the original raise on an empty buffer; the model records the entry.
- CallLogBuffer.Buffer.Update: entries are values, since no entry is ever reachable from two dictionaries; a cost that cannot be compared with a number makes the original raise after the same change of state; the exception itself is not modelled.
- CallLogBuffer.Buffer.BeginFlush: task cancellation in `stop` is not modelled; a flush that has begun ends with an answer of the gateway.
- CallLogLaws.ResendBounded: the count is taken along the history, but whether an entry is in flight or buffered is read off the state.
- CallLogLaws.NothingLostExactly: the direction from "all accounted for" to "nothing dropped" needs calls that each pass a key of their own; two calls that pass the same fields cannot be told apart by what arrives.
- RateLimiter.InMemoryRateLimiter.Check: eviction by capacity (50000 keys) is not modelled, so the window bound is about runs below that capacity.
- SdkClients.SdkClientPool.GetOpenai: closing evicted clients is not modelled, as the original does not close them; `close_all` is left out.
- RingBuffer.RingBufferHandler.Snapshot: the filters on time and text are one arbitrary predicate, and a level is given in upper case (the original folds it first).
- AuthService.AdminUser.TryLogin: attempts on one account follow each other; concurrent logins, unknown e-mail addresses and token issue are left out.
- RequestConvert.OpenaiToAnthropic: message list and system texts only; content is text or a list of parts, so a user message without content is not modelled; tools, tool choice and sampling parameters are copied one by one and left out.
- NormalizeStream.TwoStageMeaning: thinking text appears as the normaliser passes it on, with `<think>` before every fragment and no closing tag.

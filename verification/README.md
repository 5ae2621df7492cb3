# Fuse sidecar: a verified model

The sidecar answers an OpenAI-compatible streaming chat request by a fixed protocol. It asks a primary
model first; a tool call turn is replayed to the client as it is, a final turn is put to a panel of
other models, a judge compares their answers, and the primary writes the final answer with the
comparison before it. Most failures on the way fall back to the first answer. This project models one such
request from its bytes in to its bytes out, with the stores that record it, and proves what must hold
over every upstream behaviour, every pattern of sink failures and every interleaving of the threads.

## Layout

| files | what they model |
|---|---|
| `Wrappers`, `Sorting`, `Text`, `Trimming`, `Providers` | shared vocabulary: sequences, Go's byte strings, usage, deltas, requests |
| `Sinks`, `Utf8` | the client's sink and the two stateful wrappers on it, and the head of the answer |
| `Transport`, `SseStandard`, `Streams`, `OpenAI`, `Anthropic`, `AnthropicEvents`, `StreamedMessages` | reading event streams, against the standard, and driving a sink from them |
| `SseWriting`, `SseReading`, `Codecs`, `Heartbeat`, `ClientStream`, `ClientReading` | writing the client's stream beside a heartbeat goroutine, over writes that may fail, and reading it back |
| `Panel`, `Judge`, `Handoff`, `Pipeline` | the run: fan-out, judge, handoff, fallbacks |
| `RunTheorems`, `RunTrace`, `RunSchedules`, `RunCausality`, `RunUsage`, `RunRequests`, `RunTools`, `Fallback` | what every run does to its sink and asks of its upstreams, what it can know of its sink, and when it falls back |
| `AnthropicRequest`, `AnthropicReadBack` | request translation, what a request says read back from its fields, and the shared cache prefix |
| `Metrics`, `Quoting`, `Histograms`, `StatusRing`, `Snapshots` | the series keys and the bounded stores |
| `Configuration`, `Accounting`, `SeriesAccounting`, `Server` | validation, hot reload, the handler, the books of concurrent requests |

## How the model is built

Code that changes state in place is a class with methods, proved against a function of the old state;
what the source promises is then proved about that function. A sink has a *schedule*, a function that
says which of its calls succeed, so that a statement over all schedules is one over all patterns of
failures. A provider's stream is a *script*, the deltas it would send and how it would end; the two
stream parsers are proved to drive a sink exactly as their script says. A sink that answers by what it
has been handed, as the adapter to the client's stream does, follows one schedule in a run, which
`RunCausality` constructs, so that a statement over all schedules is also one over all such sinks.
Goroutines are step machines over plain states, and their theorems quantify over every sequence of
enabled steps. Upstreams answer by an arbitrary function of the provider, the phase of the run and the
request.

`Pipeline.Pipeline.Run` performs a run against a refusing sink and under any panel schedule;
`Pipeline.RunOutcome` is what it is proved to compute, and the theorems of `RunTheorems`, `RunUsage`,
`RunTools`, `Fallback`, `ClientStream` and `Server` are about it. Most of them reason about final turns by
one principle, `RunTheorems.FinalTurnInduction`: what the notes, the panel and the judge keep, and what
follows of it however the turn ends, holds of every final turn. `Pipeline.Answers` states the one thing
the source asks of a provider's first answer: a nil error comes with a response
(internal/fusion/pipeline.go:129).

## Where the code and its own words differ

The model follows the code. In each case the condition under which the words hold is proved, or the
difference is part of the statement.

- `head` is said to return valid UTF-8 (internal/fusion/pipeline.go:385). It may end in a lead byte
  without its continuation; `Utf8.HeadOfUtf8Content` gives the exact condition, `Utf8.HeadMayDangle` an answer.
- The final call is said to share the speculative call's cached prefix (internal/fusion/handoff.go:8-15).
  With caching on it shares the marked messages exactly when the conversation ends with something other
  than a system message (`AnthropicRequest.TrailingSystemLosesPrefix` is one that does not); it always shares the
  system text, and never the tools, which are stripped (internal/fusion/pipeline.go:218-219).
- A panel with too few answers is said to fall back (README.md:119-120). The code first tops it up with
  the speculative answer, and degrades only when that one is empty (internal/fusion/pipeline.go:154-166).
- Any failure along the fusion path is said to fall back to the speculative answer (README.md:30-32). A
  final stream that breaks after its first content does not; `Fallback.EveryTurnIsAnswered` shows that on
  a sink that takes everything no other answered turn fails, `Fallback.BrokenMidstreamFails` such a turn.
- A fallback is said to stream the speculative answer (README.md:30-32). The gate before it looks at
  content only (internal/fusion/pipeline.go:411-416), so tool call pieces of a broken final stream may
  stand before that answer; `RunTools.ToolPiecesOfATurn` says exactly which,
  `Fallback.DegradedTurnMayCarryTools` shows such a turn.
- A panel member that is retried loses the usage of its first attempt (internal/fusion/panel.go:130);
  `RunUsage.UsageConservation` says how much is missing.
- A degraded decision carries no panel details, although a panel ran (internal/fusion/pipeline.go:197).
- A provider with an empty ID registers under the name "openai" (internal/providers/openai.go:32-62) and
  may take that name from the provider it belongs to; `Configuration.EveryOrderResolves` says when.
- The histogram's comment calls its buffer a ring and not a sliding window
  (internal/obs/metrics.go:59). It is a sliding window.
- Streamed and buffered Anthropic answers differ when a block of another kind carries text or argument
  JSON, and when the pieces of a tool's arguments do not join to their buffered form, as when nothing is
  sent for an empty object; `Anthropic.StreamedAgreesWithBuffered` gives the exact condition,
  `Anthropic.OtherBlockDiffers` and `Anthropic.EmptyInputDiffers` a stream of each sort.

## Model

| member | source | states |
|---|---|---|
| Sinks.AttemptShape | internal/providers/provider.go:31-43 | calls on a sink that may refuse any of them are a run of successes, at most one refusal, and nothing after it |
| Sinks.CountingSink.Delta | internal/fusion/pipeline.go:367-379 | the delta reaches the inner sink unchanged, `bytes` stays the length of all content offered and `buf` its first 512 bytes |
| Sinks.CountingSink.Done | internal/fusion/pipeline.go:381-383 | Done reaches the inner sink and neither count moves |
| Sinks.CountingSink.Head | internal/fusion/pipeline.go:386-400 | the longest prefix of at most 200 bytes of everything offered, not just of the 512 kept, that does not end in a continuation byte |
| Utf8.HeadOfUtf8Content | internal/fusion/pipeline.go:385-400 | for UTF-8 content the head is UTF-8 exactly when the last byte within the limit is ASCII, and otherwise UTF-8 followed by one lead byte |
| Utf8.HeadMayDangle | internal/fusion/pipeline.go:385-400 | a two-byte answer whose head is not UTF-8 |
| Sinks.ContentGate.Delta | internal/fusion/pipeline.go:411-416 | `sawContent` holds exactly when content was offered through the gate, accepted or not |
| Sinks.ContentGate.Done | internal/fusion/pipeline.go:418-420 | Done is handed on and leaves `sawContent` alone |
| Sinks.ContentGate.Drive | internal/providers/provider.go:19-43 | a stream stops at the first refused delta, calls Done only at a proper end and nothing after it; its usage is returned only if the end was reached, and it fails exactly when a call was refused or the stream itself broke |
| Sinks.ResultReturns | internal/providers/provider.go:19-43 | the same of the result alone, under every schedule |
| Transport.ScanSSE | internal/providers/transport.go:92-134 | the handler sees the dispatched events in order, up to and including the first it rejects; an oversized line or a read error surfaces only when it rejects none |
| Transport.CleanEndIsBlank | internal/providers/transport.go:92-134 | a body that ends cleanly is read as if a blank line followed: the event pending at the end is dispatched |
| Transport.BrokenEndDrops | internal/providers/transport.go:92-134 | one that breaks off loses just that event, and no other |
| Transport.ScanFails | internal/providers/transport.go:92-134 | the scan fails exactly when the read did or some line has 1 MiB or more, and on such a line as one too long |
| Trimming.TrimSpaceTakes | internal/providers/transport.go:117-124 | trimming takes pieces of white space, as Unicode has it, off both ends and leaves none there |
| SseStandard.TrimMatchesStandard | internal/providers/transport.go:117-124 | white-space trimming reads a field value as section 9.2.6 of the HTML standard does exactly when the value has at most one leading space and no other white space around it |
| SseStandard.ScanMatchesStandard | internal/providers/transport.go:92-134 | on BOM-free streams of such values ending in a blank line, with carriage returns only in front of line feeds, lines under 1 MiB and no bare `event` or `data` line without a colon, the scanner dispatches exactly the events of the HTML standard: names reset, data lines joined, comments ignored |
| SseStandard.PlainLinesMatchStandard | internal/providers/transport.go:111-125 | a line keeps the scanner's state in step with the standard's, whatever came before, exactly when it is such a line |
| SseStandard.OneLineDecides | internal/providers/transport.go:92-134 | behind a fixed plain beginning, any line under 1 MiB makes scanner and standard dispatch the same events exactly when it is such a line |
| SseStandard.BareDataParts | internal/providers/transport.go:117-124 | a bare `data` line: an event of the standard, none of the scanner |
| Streams.ParseStream | internal/providers/transport.go:92-134 | scanning a body and driving a sink from a handler amounts to the body's script, whatever the sink refuses |
| OpenAI.ParseOpenAIStream | internal/providers/openai.go:285-332 | the sink sees the deltas of the stream's script up to the first refusal, and Done only at the end of the stream with the last finish reason heard; usage and error as the script's end says |
| OpenAI.OpenAIStreamTells | internal/providers/openai.go:207-332 | of any stream at all: up to its end, the terminator or an event that does not decode, every choice is told in order, text, reasoning and each tool call piece under its own index, id, name and arguments; a stream that ends well ends with the last reason any choice named and the last usage any chunk counted, field for field; any other with its failure |
| Anthropic.ParseAnthropicStream | internal/providers/anthropic.go:460-513 | the same of the Anthropic stream |
| AnthropicEvents.AnthropicStreamTells | internal/providers/anthropic.go:460-559 | of any stream at all: the events before `message_stop`, or before a block event that does not decode, are heard; the deltas are what each shows, a tool's block opening, text or arguments under the block's index; a stream that ends well ends with the last stop reason named, read by the table below, and the last counts given, each from its own event; any other with its failure |
| Anthropic.ToCompletionResponse | internal/providers/anthropic.go:388-424 | the text blocks joined; one call for each tool_use block, in order, with its id, name and input; `end_turn` and `stop_sequence` read as `stop`, `max_tokens` as `length`, `tool_use` as `tool_calls`, anything else as it is; and the counts of the message, each in its own field |
| Anthropic.BufferedTold | internal/providers/anthropic.go:388-456 | the same of the function the method is proved to compute |
| Anthropic.StreamedMessageEnds | internal/providers/anthropic.go:426-513 | the stream of any message, however cut up, ends under the same table of reasons and with the same counts |
| Anthropic.NoiseIsIgnored | internal/providers/anthropic.go:460-513 | pings, block stops, unknown events and undecodable usage change nothing that a stream amounts to |
| Anthropic.OneBlockAgainstBuffered | internal/providers/anthropic.go:388-414 | one block heard in pieces never shows less than the same block taken whole, and shows the same exactly when it agrees |
| Anthropic.BlocksAddUp | internal/providers/anthropic.go:515-559 | the deltas of any number of blocks, however cut up, add up to the text and, regrouped by index, to the calls of the blocks heard |
| Anthropic.StreamedAgreesWithBuffered | internal/providers/anthropic.go:388-559 | streamed and buffered forms of any message have the same finish reason and usage, and the same content and tool calls in block order exactly when the pieces of every tool's arguments join to their buffered form and no block of another kind carries text or argument JSON |
| StreamedMessages.SomeStreamTells | internal/providers/anthropic.go:457-559 | for every message, however it is cut up and closed, there are a codec and a body whose events tell of it |
| Anthropic.EmptyInputDiffers | internal/providers/anthropic.go:388-559 | a tool call with `{}` buffered and nothing streamed: the two forms differ |
| Anthropic.OtherBlockDiffers | internal/providers/anthropic.go:388-559 | a `server_tool_use` block with argument JSON: the two forms differ |
| SseWriting.SSEWriter.WriteFrame | internal/server/stream.go:179-207 | a frame is written whole or not at all, and not once the writer is closed, which is no error |
| SseWriting.SSEWriter.WriteChunk | internal/server/stream.go:82-100 | one chunk frame carrying the delta and the finish reason |
| SseWriting.SSEWriter.SendFinish | internal/server/stream.go:122-128 | the finish chunk, then the terminator only if the chunk went out |
| SseWriting.FramesInSight | internal/server/stream.go:55-207 | the bytes of every kind of frame, line by line |
| SseWriting.PayloadsInSight | internal/server/stream.go:82-128 | what the client is told of a tool call piece, `function` exactly if it names an id, and of the end |
| SseWriting.SseSink.Delta | internal/server/stream.go:218-232 | one delta becomes at most one frame, none for reasoning that is switched off, and fails exactly when that write does |
| SseWriting.SseSink.Done | internal/server/stream.go:234-236 | Done becomes the finish chunk and the terminator |
| SseReading.FramesReadBack | internal/server/stream.go:55-207 | a reader of whole frames dispatches one event per frame, in order and with its data unchanged, and none for a heartbeat, up to the first frame with a line of 1 MiB or more, where it fails; without one it ends as the body does |
| SseReading.RoundTrip | internal/server/stream.go:82-128 | the stream of any one-field deltas and a finish reason, with or without role chunk and with heartbeats anywhere, is read back by the OpenAI parser as exactly those deltas, reasoning erased exactly when switched off, then one Done with that reason; or, if some frame has a line of 1 MiB or more, as a front of those deltas and a failure |
| Codecs.SomeCodecIsLawful | internal/server/types.go:63-102 | the laws asked of the JSON codec can be met, so the theorems that ask for them speak of something |
| Heartbeat.WholeFramesInOrder | internal/server/stream.go:55-78 | in every interleaving of request and heartbeat, the wire is a concatenation of whole frames whenever the lock is free, with the request's own frames in program order; after Close the heartbeat goroutine is finished |
| Heartbeat.ClosedIsFinal | internal/server/stream.go:154-163 | nothing is written once `closed` is set |
| Heartbeat.ClosingTerminates | internal/server/stream.go:154-163 | after `closed` is set no run goes on for more than a bounded number of steps, whatever the ticker does |
| Heartbeat.AlwaysAStep | internal/server/stream.go:55-78 | no deadlock between the lock, the stop channel and the done channel |
| Heartbeat.StreamSurvivesHeartbeats | internal/server/stream.go:55-163 | over every interleaving, the finished stream of a request is read back as exactly its deltas and reason, or as a front of them and a failure if one of its own frames has a line of 1 MiB or more |
| Panel.FanOutIsDeterministic | internal/fusion/panel.go:53-134 | in every interleaving of the launching loop and the member goroutines the results on return are the sequential ones, slot by slot, and so are the calls made |
| Panel.StepsDecrease | internal/fusion/panel.go:53-98 | every step of the fan-out is progress |
| Panel.SomeStep | internal/fusion/panel.go:53-98 | the fan-out can go on until it is finished: the wait group never blocks for good |
| Panel.PanelRequestsAreBare | internal/fusion/panel.go:102-134 | every panel call is a slot's first or second, goes to that slot's provider and model with the conversation and the endpoint's own temperature, and carries no tools; a second call may use at least 8192 tokens |
| Panel.Job.Result | internal/fusion/panel.go:102-134 | a slot holds its own endpoint, one attempt per call made, at most two, and none exactly when the provider is unregistered |
| Panel.FanOutAccounts | internal/fusion/panel.go:102-134 | of the results and the log alone: an unregistered slot has made no call; any other made a first, and a second exactly when the first answered with an empty text; its attempts are the calls it made, and it shows the reply or error of the last one |
| Panel.RunPanel | internal/fusion/panel.go:53-98 | under any scheduler, of the results and the log: one result for each slot, in order; two attempts exactly when the slot's first call answered with an empty text, one for any other registered provider; each shows the reply of its last call; and the log is made of just these calls |
| Panel.SummarizePanel | internal/fusion/panel.go:142-152 | the members with a text and no error on one side, the others on the other |
| Panel.SummaryLosesNothing | internal/fusion/panel.go:142-152 | each member is on exactly one side, with the usable ones exactly if it answered with a text and without an error |
| Panel.SummaryKeepsOrder | internal/fusion/panel.go:142-152 | both sides are the members picked by that test, in order |
| Judge.JudgeOutputIsOutermostObject | internal/fusion/judge.go:158-179 | for every text, trimming fences and white space never matters: what is unmarshalled is the text from the first opening brace to the last closing one, and it is rejected exactly when there is none or it does not unmarshal |
| Judge.LastUserContent | internal/fusion/judge.go:147-154 | the content of a user message that has any, with none like it behind it, or nothing if there is none |
| Judge.RunJudge | internal/fusion/judge.go:72-131 | the first call asks the judge's provider for its own model at its own temperature, without tools and in JSON: a system turn, and a user turn that holds the last user content and, one behind the other, every heading and whole answer; a second call differs in the system turn alone, which goes on longer; calls, usage, analysis and error are those of the judge's outcome |
| Judge.JudgeAsksTwiceAtMost | internal/fusion/judge.go:72-131 | a registered judge is asked, and asked once more, strictly, exactly when its first answer came and was not readable; the analysis is what its last answer reads as, there is an error, of its last call, exactly when there is none, and the usage is the sum over the calls; an unregistered judge is never asked |
| Judge.JudgeCompares | internal/fusion/judge.go:82-131 | every call of the judge, in every outcome, asks just that |
| Judge.BuildJudgeUserPrompt | internal/fusion/judge.go:134-145 | the last user message that has content, then one section per answer |
| Judge.JudgeReadsEveryAnswer | internal/fusion/judge.go:134-145 | every answer to be compared stands whole in the prompt, under the heading of its position, behind the answers before it |
| Judge.PromptShowsAll | internal/fusion/judge.go:134-154 | the last user message that has content stands in the prompt, and behind it, in order and without overlap, every heading and whole answer |
| Judge.HeadingsDiffer | internal/fusion/judge.go:140-143 | headings at different positions differ, whatever endpoints they name, as long as UTF-8 can encode their letters |
| Handoff.BuildHandoffMessages | internal/fusion/handoff.go:16-48 | a fresh slice: the conversation with its last message marked, an assistant turn that ends with the whole analysis behind a fixed introduction, and a user turn that is not empty; the caller's slice keeps its elements |
| Handoff.HandoffCarriesOver | internal/fusion/handoff.go:16-48 | the same of the messages a run sends |
| Pipeline.EmitBuffered | internal/fusion/pipeline.go:293-324 | content, each call's head and arguments, then Done, up to the first refusal |
| Pipeline.Pipeline.FinalStream | internal/fusion/pipeline.go:204-241 | fusion on success, degradation exactly when no content was handed to the client, a midstream failure otherwise; the usage of the stream is kept in all three |
| Pipeline.Pipeline.DegradeWithSpeculative | internal/fusion/pipeline.go:189-200 | the speculative answer replayed under the reason given, or a failure with that reason marked |
| Pipeline.Pipeline.AddPanelUsage | internal/fusion/pipeline.go:146-150 | adds up the usage of every member that has a response |
| Pipeline.SnapshotsTell | internal/fusion/pipeline.go:326-352 | what a decision shows of a member is that member's own endpoint, attempts, success, error, text and usage |
| Pipeline.Pipeline.Run | internal/fusion/pipeline.go:94-183 | for every upstream behaviour, sink schedule and panel schedule: the calls on the sink, the decision as stamped on return, the error and the exchanges are those of the run's outcome |
| RunTheorems.SinkProtocol | internal/fusion/pipeline.go:94-241 | nil error exactly when exactly one Done succeeded, and then it is the last call; failed exactly on an error; the decision shows the run's reason, panel, analysis and usage, the length and the head of what was offered; content delivered is the speculative text on tool call and degraded turns, the final text on fusion turns, a prefix of one of them on failed turns |
| RunTheorems.WholeAnswer | internal/providers/provider.go:31-43 | a whole answer attempted on a fresh sink is finished exactly when every call is accepted, and otherwise leaves a prefix and no Done |
| RunTrace.TraceOfARun | internal/fusion/pipeline.go:94-324 | all that a run does to its sink, call after call: which notes in which order, if notes are wanted; then the replayed first answer, or the final call's stream, or what came of that stream, a note and the first answer |
| RunTrace.ReplayToldInFull | internal/fusion/pipeline.go:293-324 | a replayed answer tells the text first, then pieces that regroup to its calls, and ends with its reason, or `stop` if it has none, and its usage |
| RunTheorems.AfterStreamDelivers | internal/fusion/pipeline.go:221-240 | whichever way the final call goes, the client holds the final text, the speculative text, or a prefix of one, never a mixture |
| RunTheorems.ToolCallsSurvive | internal/fusion/pipeline.go:132-137 | on tool call turns the client's deltas, regrouped by index with arguments joined, are the speculative response's calls: same ids, names and arguments |
| RunTools.ToolPiecesOfATurn | internal/fusion/pipeline.go:132-137 | on a turn that calls no tools the client holds exactly the tool call pieces of the first deltas of the final call: all of them on fusion turns, only such as came before any content on degraded ones, all that was sent where the sink took every call; on any other turn pieces of the speculative calls |
| RunTheorems.PanelStageReports | internal/fusion/pipeline.go:138-241 | a final turn is fused or breaks midstream with panel and analysis to show, or is degraded or fails to be emitted under one of three reasons each, with neither |
| RunTheorems.EveryRunReports | internal/fusion/pipeline.go:116-137 | a run whose primary is missing, whose first call fails, or whose tool calls cannot be replayed fails under its own reason and with that error; a replayed one is a tool call turn; any other is reported as a final turn |
| Fallback.StreamedInFull | internal/fusion/pipeline.go:221-240 | on a sink that takes everything a stream fails exactly when its upstream does, with all its content handed on |
| Fallback.EveryTurnIsAnswered | internal/fusion/pipeline.go:131-241 | on such a sink, once the speculative call has answered: a turn that calls tools is replayed without any other call; any other turn is fused exactly when the final call ended properly, fails exactly when that call broke after content, and otherwise falls back under the reason of the layer that gave way |
| Fallback.BrokenMidstreamFails | internal/fusion/pipeline.go:225-240 | a turn with a speculative answer that fails all the same |
| Fallback.DegradedTurnMayCarryTools | internal/fusion/pipeline.go:225-240 | a degraded turn whose client holds a piece of the broken final stream's tool call before the speculative answer |
| RunUsage.PanelBalanced | internal/fusion/panel.go:114-133 | what a panel's exchanges used is what its results report plus the first attempts that were overwritten |
| RunUsage.JudgeBalanced | internal/fusion/judge.go:103-131 | the judge loses no usage |
| RunUsage.UsageConservation | internal/fusion/pipeline.go:108-182 | over every run and in any order of exchanges, in each of the five counts: usage received is usage reported plus that of the first attempts of retried members, the promoted speculative answer counted once |
| RunUsage.EveryExchangeIsSound | internal/fusion/pipeline.go:116-219 | the speculative call comes first and asks what the client asked; every call goes to its endpoint's own provider and asks for its model; panel and final calls carry no tools; the judge is asked as above, about answers with a text, at least one of them if the panel minimum is positive; the final call hands the conversation over with an analysis |
| RunRequests.FinalCallCarriesVerdict | internal/fusion/pipeline.go:166-219 | whenever a final call is made, the last two calls are one of the run's own judge and the final call with the analysis read from just that answer; fused turns and those that broke midstream show that analysis, all others none |
| RunUsage.NothingToCompareMeans | internal/fusion/pipeline.go:154-160 | there is nothing to compare exactly when fewer members than the minimum answered with a text and the speculative answer has none |
| AnthropicRequest.SplitSystem | internal/providers/anthropic.go:358-370 | the non-empty system texts, and the other messages in order |
| AnthropicRequest.CacheBreakpointIndex | internal/providers/anthropic.go:265-273 | the last flagged message, or else the last message |
| AnthropicRequest.MarkCachePrefix | internal/providers/anthropic.go:285-300 | in place, only the last block of one message changes, and only its marker |
| AnthropicReadBack.BuildAnthropicRequest | internal/providers/anthropic.go:158-260 | a request is built exactly when all in it can be asked, and it says what was asked, message by message and field by field, as the two rows below spell out |
| AnthropicReadBack.BuiltSays | internal/providers/anthropic.go:158-384 | read back from the built request: one message for each spoken one, in order and in its role; its text in a text block, if an assistant has any; one tool_use block for each call with its id, name and arguments, `{}` for blank ones; a tool's result under the id of its call; the cache marker on the last block of the last flagged message, or of the last one, if caching is on, and nowhere else; the non-empty system texts joined by blank lines; each tool with its own name, description and schema; the tool choice in the API's words; the limit given or 8192; model, sampling parameters, stop sequences and stream flag as given |
| AnthropicReadBack.BuiltWhenAskable | internal/providers/anthropic.go:158-384 | there is a request exactly when every role is known, the tool choice is one the API has, every argument text that is sent is JSON and, unless the choice is to use no tools, every tool is a function whose schema is |
| AnthropicRequest.CachePrefixShared | internal/providers/anthropic.go:158-370 | if the speculative request can be built, so can the final one: same model and system text, no tools, at most one marker each; with caching on its messages are the speculative ones, marker included, followed by two unmarked turns, exactly when the conversation does not end with a system message and is not empty |
| AnthropicRequest.TrailingSystemLosesPrefix | internal/providers/anthropic.go:265-300 | a user message and then a system message: the prefix is not shared |
| AnthropicRequest.TurnSharesPrefix | internal/fusion/pipeline.go:213-219 | the same of the two requests a pipeline run actually makes |
| Metrics.BuildSeriesKey | internal/obs/metrics.go:129-143 | the key is the name and the sorted, quoted pairs; a trailing odd label is dropped |
| Metrics.KeysInSight | internal/obs/metrics.go:129-143 | the keys for no, one and two labels, letter by letter |
| Metrics.KeySplits | internal/obs/metrics.go:146-152 | a key splits into its name and its label text |
| Metrics.SeriesKeysAreCanonical | internal/obs/metrics.go:129-152 | keys are equal exactly when names are equal and labels are equal as multisets, and splitting recovers both parts |
| Quoting.GoQuoteIsSelfDelimiting | internal/obs/metrics.go:139 | the quoting of %q, escapes and all and whatever counts as printable, has the one property the keys rely on: no quoted text begins another |
| Quoting.EscapesInSight | internal/obs/metrics.go:139 | the escapes of the quote, the backslash and the control characters that have one, and printable ASCII as it is |
| Quoting.ControlsInSight | internal/obs/metrics.go:139 | the other control characters as two hexadecimal digits |
| Histograms.SeriesHoldsLast | internal/obs/metrics.go:49-64 | after any number of samples a series holds exactly the last min(n, 1024), in order |
| Histograms.WindowIsLast | internal/obs/metrics.go:49-64 | a window is the last 1024 samples of a history, or all of them |
| Histograms.Summarize | internal/obs/metrics.go:86-108 | count, sum and percentiles of a window: the 50th, 90th and 99th percentile are members of it at their floor ranks, in ascending order |
| Histograms.RanksAreWhole | internal/obs/metrics.go:86-108 | these ranks are (n-1) times 50, 90 and 99 hundredths, rounded down |
| Histograms.Store.Add | internal/obs/metrics.go:42-46 | one counter grows by n, everything else stays |
| Histograms.Store.Observe | internal/obs/metrics.go:49-64 | one series' history grows by one sample, and the buffer stays its window |
| Histograms.Store.Render | internal/obs/metrics.go:72-111 | every series in key order, each histogram line true of the last 1024 samples ever observed; rendering changes nothing |
| StatusRing.Ring.Push | internal/obs/metrics.go:173-181 | the history grows by one; the ring holds its tail at every capacity, wrapped or not |
| StatusRing.Ring.Recent | internal/obs/metrics.go:184-197 | the newest min(n, pushes, capacity) entries, newest first, all of them for n not positive |
| StatusRing.LatestIsReversedTail | internal/obs/metrics.go:184-197 | that is the reverse of the last entries pushed |
| Snapshots.TopIsTail | internal/obs/snapshot.go:111-130 | the greatest names of a directory are the tail of its sorted listing |
| Snapshots.SnapshotWriter.Write | internal/obs/snapshot.go:83-107 | afterwards the directory is the retention greatest names ever written; without retention nothing is written |
| Snapshots.SnapshotWriter.Prune | internal/obs/snapshot.go:111-130 | deletes all but the retention greatest names |
| Snapshots.PruningKeepsTheNewest | internal/obs/snapshot.go:83-130 | in every interleaving of concurrent writers no prune removes one of the retention greatest names written so far, and at quiescence the directory is exactly those |
| Snapshots.NamesSortByTime | internal/obs/snapshot.go:87-89 | for the years 0000 to 9999 names sort as their times do, whatever the request IDs |
| Snapshots.NameLayout | internal/obs/snapshot.go:87-89 | a name is the time in 25 letters, the request ID and `.json` |
| Snapshots.NamesTellApart | internal/obs/snapshot.go:87-89 | two times or two request IDs never share a name |
| Configuration.Config.ApplyDefaults | internal/config/config.go:135-157 | zero values take their defaults, in every model, and nothing else changes |
| Configuration.DefaultedHasDefaults | internal/config/config.go:135-157 | each default with its own constant, and everything that was set as it was |
| Configuration.Config.Validate | internal/config/config.go:169-228 | there is no complaint exactly when the configuration is acceptable |
| Configuration.Config.ValidateModel | internal/config/config.go:198-241 | a model draws no complaint exactly when its endpoints are known, its panel is not empty, its minimum is within it and its timeout is at least a second |
| Configuration.AcceptableIsSensible | internal/config/config.go:169-241 | acceptable spelled out: an address, a log level out of four in any case, some provider and some model, the key of every provider named and set, and each model as above |
| Configuration.LowerFolds | internal/config/config.go:169-228 | lower-casing an ASCII text folds each letter and nothing else |
| Configuration.BuildRegistry | internal/providers/factory.go:20-52 | the registrations in whatever order the map yields them; there are any exactly when every provider has a key, and a base URL unless it is one of the two built in |
| Configuration.ProviderIsBuiltFor | internal/providers/factory.go:20-52 | each provider is built of its own ID, kind, key and base URL |
| Configuration.EveryOrderResolves | internal/providers/factory.go:20-52 | in every map order each non-empty ID resolves to the provider built for it, exactly when no empty ID clashes with "openai" |
| Configuration.Load | internal/config/config.go:103-133 | configuration and registry of an attempt, or nothing if any part of it fails |
| Configuration.LiveState.Reload | cmd/fuse-sidecar/main.go:90-107 | a reload that fails anywhere keeps the old pair, one that succeeds swaps both |
| Configuration.AlwaysPublished | internal/server/server.go:22-93 | after any history of reloads the live pair comes out of one and the same load |
| Configuration.RequestsSeeResolvedModels | internal/server/server.go:68-93 | after any such history the defaults are in, every model is valid and its endpoints resolve to the providers built for their IDs, unless an empty ID clashes with "openai" |
| Server.ValidatedRunsAreServed | internal/fusion/pipeline.go:116-166 | in a run of such a model the "not registered" exits are unreachable: its log begins with the speculative call, and after a final answer holds the first call of every panel member and, if there is anything to compare, the judge's; everything asked is sound |
| Server.RunsBeginWithTheClient | internal/server/server.go:313-324 | the first exchange of a run puts the client's own conversation, tools, tool choice and sampling parameters to the primary, the endpoint's settings before the client's |
| RunSchedules.RunIsScheduled | internal/server/server.go:202-206 | the k-th call of a run succeeds exactly when the sink's k-th call does, and no failure is without a reason, so the default reason is never used |
| RunCausality.RunIsCausal | internal/fusion/pipeline.go:94-241 | under two schedules that agree on the first k calls a run does the same up to and including call k, and all the same if it ends before: nothing depends on what a later call returns |
| RunCausality.FollowedReacts | internal/providers/provider.go:31-43 | for every sink that answers by what it has been handed there is a schedule under which a run sees just its answers |
| RunCausality.OneOutcome | internal/providers/provider.go:31-43 | under all schedules that bear out such a sink's answers a run comes to the same |
| ClientStream.SomeScheduleIsObserved | internal/server/stream.go:211-236 | every pattern of failing writes is borne out by some schedule of the adapter |
| ClientStream.OneRunOn | internal/server/server.go:172-186 | a run on the adapter has one outcome on every writer, which is that of every schedule the writer bears out |
| ClientStream.ServeRun | internal/server/server.go:172-212 | performs that run and leaves on the wire the role chunk, its calls, each given up at its first failing write, and after a failed run the error event and the terminator; decision and error are the run's |
| ClientStream.ServeStream | internal/server/stream.go:55-128 | on a writer any of whose writes may fail a list of calls leaves the role chunk, each call up to its first failing write, and after a failed run the error event and the terminator, both tried; then the writer is closed |
| ClientStream.NoDoneWritten | internal/server/stream.go:122-128 | a Done that failed left no terminator on the wire |
| ClientStream.ExactlyOneDone | internal/server/server.go:172-212 | of the run on any writer, under any pattern of failing writes and wherever heartbeats fall, the client reads nothing after [DONE], and reads it at all exactly when no line is 1 MiB or longer and the terminator was written, which a run without an error guarantees |
| ClientStream.OneDoneDespiteHeartbeats | internal/server/server.go:172-212 | the same over every interleaving of the request, failed or not, with the heartbeat goroutine |
| ClientStream.ResponseSaysDoneOnce | internal/server/server.go:172-212 | the same of the response a handler leaves behind |
| ClientReading.ClientReadsTheAnswer | internal/server/server.go:172-201 | from end to end: if every write succeeds and no line is too long, the client of a run without an error reads exactly its answer, the speculative text or the final call's, with every tool call piece handed on, and then one Done with the run's reason |
| ClientReading.FailureIsTold | internal/server/server.go:188-212 | on such a writer a failed run ends with the error event, its message in it, and the terminator |
| ClientReading.RoleComesFirst | internal/server/server.go:172-186 | with progress on, the first payload is the assistant's role; with it off there is none before the run |
| Accounting.IncrementAdds | internal/obs/metrics.go:37-46 | an increment raises its own name's total over all label sets by its amount, and no other name's |
| Accounting.MovesAreBooked | internal/server/server.go:169-253 | each handler step counts and pushes exactly what the request's new standing calls for |
| Accounting.LedgerHolds | internal/server/server.go:169-290 | in every reachable state each metric's total is the sum of what the requests added, and each request has pushed its own records |
| Accounting.RequestAccounting | internal/server/server.go:169-290 | requests counted are those counted out as tool call, fusion, degraded or failed, those in flight, and those without a stream; each finished run pushed exactly one record, under its own id, model, decision, reason, panel, usage and head, and it says failed exactly when the run returned an error |
| Accounting.TokenTotals | internal/server/server.go:270-283 | each token metric totals its own count over the recorded runs: prompt, completion, cache read and cache creation tokens |
| SeriesAccounting.SeriesAddUp | internal/server/server.go:169-290 | not only totals: over any number of concurrent requests in any interleaving, the series of each metric for each label set is the sum of what the requests counted under just those labels |
| SeriesAccounting.MetricNames | internal/server/server.go:169-290 | the names of the nine metrics |
| Accounting.ConclusionIsBooked | internal/server/server.go:188-253 | a handler whose run has returned ends counted in exactly the totals its end calls for |
| Accounting.ConclusionIsRecorded | internal/server/server.go:188-290 | ... having pushed exactly one record |
| Server.Server.Settle | internal/server/server.go:188-253 | the tail of the handler takes the store, the ring and the snapshot directory where its steps lead |
| Server.Server.HandleChatCompletions | internal/server/server.go:145-253 | a refused request leaves no trace, one without a stream is only counted, any other runs on one published pair, leaves on its response the whole stream of its run on that writer, under its own id and model, closed, counters, latency sample and ring as its run and its steps say, and one snapshot under its own name |

## Left out

- Integers are unbounded: Go's 64-bit wrap-around of token counts, counters and byte counts is not modelled.
- Strings are byte strings, one character a byte. JSON is a codec with laws (`SseWriting.Lawful`): that `json.Marshal` replaces invalid UTF-8 and compacts raw JSON is not modelled, nor are the codec's internals or the lenient string lists of the judge's reply.
- A failed write leaves nothing on the wire; partial writes are not modelled.
- Streams.ParseStream: scans the whole body before it drives the sink. The calls on the sink are the same, since the handler influences the scan only by stopping it, which `Transport.ScanSSE` states; the time at which they happen is not modelled.
- ClientStream.ServeRun: performs the run under the schedule the adapter comes to follow on this writer, and writes its calls once it has ended. `ClientStream.OneRunOn` makes that the run on the adapter; the time at which frames are written is not modelled, and the heartbeat runs in `Heartbeat`.
- Anthropic.StreamedAgreesWithBuffered: the pieces of a text block join to its text, and its deltas are text deltas; a stream that tells of another text is not one of the message.
- StreamedMessages.SomeStreamTells: the stream has at most 10^n events, for any n that leaves the number of an event room on a line of 1 MiB.
- RunTheorems.SinkProtocol: leaves out a speculative call that returns neither a response nor an error, which the source takes for impossible.
- Quoting.GoQuoteIsSelfDelimiting: which characters beyond ASCII are printable is a parameter, and not Go's table.
- Histograms.Summarize: samples are reals and ranks exact; floating point rounding and the text format of the rendering are not modelled.
- Snapshots.PruningKeepsTheNewest: listing the directory is one step, and every removal succeeds; directories among the files, write errors and files not written by a writer are not modelled.
- Histograms.Store.Add: stands for one atomic step under the store's lock; interleavings of whole steps are covered by `Accounting`.
- Server.Server.HandleChatCompletions: the heartbeat beside it is that of `Heartbeat`, and what it adds to the stream is said by `ClientStream.OneDoneDespiteHeartbeats`; request IDs, times and latencies are parameters, logging is left out.
- Configuration.RequestsSeeResolvedModels: the environment does not change between validation and building the registry; headers, log directory and path expansion are not modelled.
- Heartbeat.WholeFramesInOrder: the goroutine starts with the machine; a role chunk sent before it is among the early frames.
- HTTP transport, authentication, response headers, cancellation and timeouts: a timeout is one of the errors an upstream may return.
- The wording of prompts, progress notes and errors, and the health, model list and status handlers.
- Building OpenAI requests and reading buffered OpenAI responses, and which models take `max_completion_tokens`: copies of the request's fields, and of the first choice's.

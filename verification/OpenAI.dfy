/** The OpenAI chat-completions stream (internal/providers/openai.go:207-332). */
module OpenAI {
  import opened Wrappers
  import opened Seqs
  import opened Providers
  import opened Sinks
  import opened Transport
  import opened Streams

  datatype ChunkUsage = ChunkUsage(promptTokens: int, completionTokens: int, totalTokens: int, cachedTokens: int)
  {
    /** prompt_tokens includes the cached ones, so they are taken out again. */
    function ToUsage(): Usage {
      var uncached := promptTokens - cachedTokens;
      Usage(if uncached < 0 then 0 else uncached, completionTokens, totalTokens, cachedTokens, 0)
    }
  }

  datatype StreamToolCall = StreamToolCall(index: int, id: string, kind: string, name: string, arguments: string)

  datatype StreamDelta = StreamDelta(
    role: string, content: string, reasoningContent: string, toolCalls: seq<StreamToolCall>)

  datatype StreamChoice = StreamChoice(index: int, delta: StreamDelta, finishReason: Option<string>)

  /** One decoded stream chunk. */
  datatype Chunk = Chunk(choices: seq<StreamChoice>, usage: Option<ChunkUsage>)

  /** JSON decoding of a chunk; None stands for an unmarshalling error. */
  type Decoder = string -> Option<Chunk>

  /** The variables the handler closure captures. */
  datatype Captured = Captured(finish: string, usage: Usage)

  function ToolCallDeltas(tcs: seq<StreamToolCall>): seq<Delta> {
    if tcs == [] then []
    else [ToolDelta(ToolCallDelta(tcs[0].index, tcs[0].id, tcs[0].name, tcs[0].arguments))] + ToolCallDeltas(tcs[1..])
  }

  function ChoiceDeltas(d: StreamDelta): seq<Delta> {
    (if d.content != "" then [ContentDelta(d.content)] else [])
    + (if d.reasoningContent != "" then [ReasoningDelta(d.reasoningContent)] else [])
    + ToolCallDeltas(d.toolCalls)
  }

  function ChunkDeltas(choices: seq<StreamChoice>): seq<Delta> {
    if choices == [] then [] else ChoiceDeltas(choices[0].delta) + ChunkDeltas(choices[1..])
  }

  /** The last non-empty finish reason. */
  function FinishAfter(finish: string, choices: seq<StreamChoice>): string
    decreases |choices|
  {
    if choices == [] then finish
    else
      var r := choices[0].finishReason;
      FinishAfter(if r.Some? && r.value != "" then r.value else finish, choices[1..])
  }

  function HandleChunk(decode: Decoder, c: Captured, ev: SseEvent): Reaction<Captured> {
    if ev.data == "[DONE]" then Reaction([], StreamDone)
    else
      match decode(ev.data)
      case None => Reaction([], Fail(BadPayload))
      case Some(chunk) =>
        var usage := if chunk.usage.Some? then chunk.usage.value.ToUsage() else c.usage;
        Reaction(ChunkDeltas(chunk.choices), Go(Captured(FinishAfter(c.finish, chunk.choices), usage)))
  }

  function Handler(decode: Decoder): (Captured, SseEvent) -> Reaction<Captured> {
    (c, ev) => HandleChunk(decode, c, ev)
  }

  const START := Captured("", NO_USAGE)
  const CLOSE: Closing<Captured> := (c: Captured) => (c.finish, c.usage)

  /** The script an OpenAI stream body amounts to. */
  function StreamScript(decode: Decoder, body: Body): Script {
    BodyScript(Handler(decode), CLOSE, START, body)
  }

  method ParseOpenAIStream(decode: Decoder, body: Body, gate: ContentGate)
    returns (usage: Usage, err: Option<Failure>)
    requires gate.Valid()
    modifies gate, gate.inner, gate.inner.inner
    ensures gate.Valid()
    ensures var s, at := StreamScript(decode, body), |old(gate.inner.inner.trace)|;
            && gate.inner.inner.trace == old(gate.inner.inner.trace)
               + Attempt(gate.inner.inner.accepts, at, ScriptCalls(s))
            && (usage, err) == StreamResult(s, gate.inner.inner.accepts, at)
  {
    usage, err := ParseStream(Handler(decode), CLOSE, START, body, gate);
  }

  // ---------- What a stream tells ----------

  /** The counts; prompt tokens exclude the cached ones, and are never negative. */
  predicate UsageShown(c: ChunkUsage, u: Usage) {
    && u.promptTokens == (if c.promptTokens >= c.cachedTokens then c.promptTokens - c.cachedTokens else 0)
    && u.cacheReadTokens == c.cachedTokens && u.cacheCreationTokens == 0
    && u.completionTokens == c.completionTokens && u.totalTokens == c.totalTokens
  }

  /** The text, the reasoning and each tool call of a choice, those there are, in this order. */
  predicate ChoiceShown(d: StreamDelta, ds: seq<Delta>) {
    var texts := (if |d.content| > 0 then [Delta(d.content, "", None)] else [])
                 + (if |d.reasoningContent| > 0 then [Delta("", d.reasoningContent, None)] else []);
    && |ds| == |texts| + |d.toolCalls| && ds[..|texts|] == texts
    && forall k :: 0 <= k < |d.toolCalls| ==> CallShown(d.toolCalls[k], ds[|texts| + k])
  }

  predicate CallShown(tc: StreamToolCall, d: Delta) {
    && d.content == "" && d.reasoning == "" && d.toolCall.Some?
    && d.toolCall.value.index == tc.index && d.toolCall.value.id == tc.id
    && d.toolCall.value.functionName == tc.name && d.toolCall.value.argumentsPartial == tc.arguments
  }

  lemma {:induction false} CallsShown(tcs: seq<StreamToolCall>)
    ensures |ToolCallDeltas(tcs)| == |tcs|
    ensures forall k :: 0 <= k < |tcs| ==> CallShown(tcs[k], ToolCallDeltas(tcs)[k])
  {
    if tcs != [] {
      CallsShown(tcs[1..]);
    }
  }

  lemma ChoiceIsShown(d: StreamDelta)
    ensures ChoiceShown(d, ChoiceDeltas(d))
  {
    CallsShown(d.toolCalls);
  }

  function ChoicesOf(c: Chunk): seq<StreamChoice> { c.choices }

  function DeltasOfChoice(c: StreamChoice): seq<Delta> { ChoiceDeltas(c.delta) }

  predicate Names(c: StreamChoice) { c.finishReason.Some? && |c.finishReason.value| > 0 }

  /** The last finish reason named, or none at all. */
  ghost predicate LastNamed(choices: seq<StreamChoice>, reason: string) {
    || (exists k :: 0 <= k < |choices| && Names(choices[k]) && reason == choices[k].finishReason.value
                    && forall j :: k < j < |choices| ==> !Names(choices[j]))
    || (reason == "" && forall j :: 0 <= j < |choices| ==> !Names(choices[j]))
  }

  /** The last counts given, or none at all. */
  ghost predicate LastCounted(chunks: seq<Chunk>, usage: Usage) {
    || (exists k :: 0 <= k < |chunks| && chunks[k].usage.Some? && UsageShown(chunks[k].usage.value, usage)
                    && forall j :: k < j < |chunks| ==> chunks[j].usage.None?)
    || (usage == NO_USAGE && forall j :: 0 <= j < |chunks| ==> chunks[j].usage.None?)
  }

  /** What the handler has captured by the end of some chunks. */
  function CapturedAfter(chunks: seq<Chunk>): Captured {
    if chunks == [] then START
    else
      var (c, last) := (CapturedAfter(chunks[..|chunks| - 1]), chunks[|chunks| - 1]);
      Captured(FinishAfter(c.finish, last.choices),
               if last.usage.Some? then last.usage.value.ToUsage() else c.usage)
  }

  lemma {:induction false} FinishAfterNames(before: seq<StreamChoice>, finish: string, more: seq<StreamChoice>)
    requires LastNamed(before, finish)
    ensures LastNamed(before + more, FinishAfter(finish, more))
    decreases |more|
  {
    if more == [] {
      assert before + more == before;
    } else {
      var r := more[0].finishReason;
      var next := if r.Some? && r.value != "" then r.value else finish;
      assert LastNamed(before + [more[0]], next) by {
        assert forall k :: 0 <= k < |before| ==> (before + [more[0]])[k] == before[k];
        assert (before + [more[0]])[|before|] == more[0];
      }
      FinishAfterNames(before + [more[0]], next, more[1..]);
      assert before + [more[0]] + more[1..] == before + more;
    }
  }

  lemma {:induction false} CapturedTells(chunks: seq<Chunk>)
    ensures LastNamed(Flatten(ChoicesOf, chunks), CapturedAfter(chunks).finish)
    ensures LastCounted(chunks, CapturedAfter(chunks).usage)
  {
    if chunks != [] {
      var (front, last) := (chunks[..|chunks| - 1], chunks[|chunks| - 1]);
      assert chunks == front + [last];
      CapturedTells(front);
      FinishAfterNames(Flatten(ChoicesOf, front), CapturedAfter(front).finish, last.choices);
      FlattenAppend(ChoicesOf, front, [last]);
      FlattenOne(ChoicesOf, last);
    }
  }

  /** The events of some chunks, each decoding to its own. */
  predicate Decodes(decode: Decoder, events: seq<SseEvent>, chunks: seq<Chunk>) {
    && |events| == |chunks|
    && forall k :: 0 <= k < |events| ==> events[k].data != "[DONE]" && decode(events[k].data) == Some(chunks[k])
  }

  /** Where a stream is read no further: its own end, the terminator, or an event that does not decode. */
  predicate StopsAt(decode: Decoder, tail: seq<SseEvent>) {
    tail != [] ==> tail[0].data == "[DONE]" || decode(tail[0].data).None?
  }

  /** A proper end is the body's own, or the terminator, whatever follows it. */
  predicate EndsWell(tail: seq<SseEvent>, ending: Option<Failure>) {
    if tail == [] then ending.None? else tail[0].data == "[DONE]"
  }

  function EndAt(tail: seq<SseEvent>, ending: Option<Failure>, c: Captured): ScriptEnd {
    if tail == [] then EndOf(CLOSE, c, ending)
    else if tail[0].data == "[DONE]" then EndOf(CLOSE, c, None)
    else Broken(BadPayload)
  }

  function Told(chunks: seq<Chunk>): seq<Delta> { Flatten(DeltasOfChoice, Flatten(ChoicesOf, chunks)) }

  lemma {:induction false} ChunkDeltasTold(choices: seq<StreamChoice>)
    ensures ChunkDeltas(choices) == Flatten(DeltasOfChoice, choices)
  {
    if choices != [] {
      ChunkDeltasTold(choices[1..]);
    }
  }

  lemma ToldFirst(c: Chunk, rest: seq<Chunk>)
    ensures Told([c] + rest) == ChunkDeltas(c.choices) + Told(rest)
  {
    assert ([c] + rest)[1..] == rest;
    FlattenAppend(DeltasOfChoice, c.choices, Flatten(ChoicesOf, rest));
    ChunkDeltasTold(c.choices);
  }

  lemma {:induction false} ScriptOfChunks(decode: Decoder, before: seq<Chunk>, events: seq<SseEvent>,
                                          chunks: seq<Chunk>, tail: seq<SseEvent>, ending: Option<Failure>)
    requires Decodes(decode, events, chunks) && StopsAt(decode, tail)
    ensures ScriptOf(Handler(decode), CLOSE, CapturedAfter(before), events + tail, ending)
         == Script(Told(chunks), EndAt(tail, ending, CapturedAfter(before + chunks)))
    decreases |chunks|
  {
    if chunks == [] {
      assert events + tail == tail && before + chunks == before;
      NothingMore(decode, CapturedAfter(before), tail, ending);
    } else {
      var (chunk, rest, later) := (chunks[0], chunks[1..], events[1..]);
      NextCaptured(before, chunk);
      LaterDecode(decode, events, chunks);
      HeadFirst(events, tail);
      FirstMoved(before, chunks);
      ScriptOfChunks(decode, before + [chunk], later, rest, tail, ending);
      FirstChunk(decode, CapturedAfter(before), events[0], chunk, later + tail, ending, rest,
                 EndAt(tail, ending, CapturedAfter(before + chunks)));
    }
  }

  lemma NothingMore(decode: Decoder, c: Captured, tail: seq<SseEvent>, ending: Option<Failure>)
    requires StopsAt(decode, tail)
    ensures ScriptOf(Handler(decode), CLOSE, c, tail, ending) == Script([], EndAt(tail, ending, c))
  {
    if tail != [] {
      assert Handler(decode)(c, tail[0]) == HandleChunk(decode, c, tail[0]);
    }
  }

  lemma NextCaptured(before: seq<Chunk>, chunk: Chunk)
    ensures var c := CapturedAfter(before);
            CapturedAfter(before + [chunk])
            == Captured(FinishAfter(c.finish, chunk.choices),
                        if chunk.usage.Some? then chunk.usage.value.ToUsage() else c.usage)
  {
    assert (before + [chunk])[..|before|] == before;
  }

  lemma LaterDecode(decode: Decoder, events: seq<SseEvent>, chunks: seq<Chunk>)
    requires chunks != [] && Decodes(decode, events, chunks)
    ensures events[0].data != "[DONE]" && decode(events[0].data) == Some(chunks[0])
    ensures Decodes(decode, events[1..], chunks[1..])
  {
  }

  /** One chunk in front of a stream that is read as the others tell. */
  lemma FirstChunk(decode: Decoder, c: Captured, ev: SseEvent, chunk: Chunk, later: seq<SseEvent>,
                   ending: Option<Failure>, rest: seq<Chunk>, end: ScriptEnd)
    requires ev.data != "[DONE]" && decode(ev.data) == Some(chunk)
    requires var usage := if chunk.usage.Some? then chunk.usage.value.ToUsage() else c.usage;
             ScriptOf(Handler(decode), CLOSE, Captured(FinishAfter(c.finish, chunk.choices), usage), later, ending)
             == Script(Told(rest), end)
    ensures ScriptOf(Handler(decode), CLOSE, c, [ev] + later, ending) == Script(Told([chunk] + rest), end)
  {
    assert ([ev] + later)[1..] == later;
    assert Handler(decode)(c, ev) == HandleChunk(decode, c, ev);
    ToldFirst(chunk, rest);
  }

  /** Any stream, up to where it is read no further: what its choices show, choice after choice; then, if
      it ends well, the last finish reason named and the last counts given; otherwise the failure. */
  lemma OpenAIStreamTells(decode: Decoder, events: seq<SseEvent>, chunks: seq<Chunk>, tail: seq<SseEvent>,
                          ending: Option<Failure>)
    requires Decodes(decode, events, chunks) && StopsAt(decode, tail)
    ensures var s, choices := ScriptOf(Handler(decode), CLOSE, START, events + tail, ending),
                              Flatten(ChoicesOf, chunks);
            && s.deltas == Flatten(DeltasOfChoice, choices)
            && (forall c :: c in choices ==> ChoiceShown(c.delta, DeltasOfChoice(c)))
            && (EndsWell(tail, ending) <==> s.end.Finished?)
            && (s.end.Finished? ==> LastNamed(choices, s.end.reason) && LastCounted(chunks, s.end.usage))
            && (s.end.Broken? ==> s.end.failure == if tail == [] then ending.value else BadPayload)
  {
    ScriptOfChunks(decode, [], events, chunks, tail, ending);
    assert [] + chunks == chunks;
    CapturedTells(chunks);
    forall c | c in Flatten(ChoicesOf, chunks) ensures ChoiceShown(c.delta, DeltasOfChoice(c)) {
      ChoiceIsShown(c.delta);
    }
  }
}

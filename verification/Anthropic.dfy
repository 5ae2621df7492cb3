/** The Anthropic Messages API: buffered responses and streams
    (internal/providers/anthropic.go:388-559). */
module Anthropic {
  import opened Wrappers
  import opened Seqs
  import opened Providers
  import opened Sinks
  import opened Transport
  import opened Streams

  datatype AnthropicUsage = AnthropicUsage(
    inputTokens: int, outputTokens: int, cacheCreationInputTokens: int, cacheReadInputTokens: int)
  {
    function ToUsage(): Usage {
      Usage(inputTokens, outputTokens,
            inputTokens + outputTokens + cacheReadInputTokens + cacheCreationInputTokens,
            cacheReadInputTokens, cacheCreationInputTokens)
    }
  }

  const ZERO_USAGE := AnthropicUsage(0, 0, 0, 0)

  function MapStopReason(s: string): string {
    if s == "end_turn" then "stop"
    else if s == "max_tokens" then "length"
    else if s == "tool_use" then "tool_calls"
    else if s == "stop_sequence" then "stop"
    else s
  }

  // ---------- The buffered form ----------

  /** A response content block; its kind is the JSON "type". */
  datatype Block = Block(kind: string, text: string, id: string, name: string, input: string)

  datatype AnthropicMessage = AnthropicMessage(
    content: seq<Block>, stopReason: string, usage: Option<AnthropicUsage>)

  /** What a block adds to the buffered text and calls. */
  function TextOf(b: Block): string { if b.kind == "text" then b.text else "" }
  function CallsOf(b: Block): seq<ToolCall> { if b.kind == "tool_use" then [CallOf(b)] else [] }

  /** The text of the first n blocks. */
  function TextUpTo(blocks: seq<Block>, n: nat): string
    requires n <= |blocks|
  {
    if n == 0 then "" else TextUpTo(blocks, n - 1) + TextOf(blocks[n - 1])
  }

  function CallOf(b: Block): ToolCall {
    ToolCall(b.id, "function", b.name, b.input)
  }

  /** The tool calls among the first n blocks. */
  function CallsUpTo(blocks: seq<Block>, n: nat): seq<ToolCall>
    requires n <= |blocks|
  {
    if n == 0 then []
    else CallsUpTo(blocks, n - 1) + CallsOf(blocks[n - 1])
  }

  function Buffered(m: AnthropicMessage): CompletionResponse {
    CompletionResponse(
      TextUpTo(m.content, |m.content|), CallsUpTo(m.content, |m.content|), MapStopReason(m.stopReason),
      if m.usage.Some? then m.usage.value.ToUsage() else NO_USAGE)
  }

  /** The reason a client of the other API is given. */
  predicate ReasonTold(stopReason: string, finishReason: string) {
    && (stopReason == "end_turn" || stopReason == "stop_sequence" ==> finishReason == "stop")
    && (stopReason == "max_tokens" ==> finishReason == "length")
    && (stopReason == "tool_use" ==> finishReason == "tool_calls")
    && (stopReason !in ["end_turn", "stop_sequence", "max_tokens", "tool_use"] ==> finishReason == stopReason)
  }

  /** The counts, each under its own name; input excludes what came from the cache or went into it. */
  predicate UsageTold(u: AnthropicUsage, t: Usage) {
    && t.promptTokens == u.inputTokens && t.completionTokens == u.outputTokens
    && t.cacheReadTokens == u.cacheReadInputTokens && t.cacheCreationTokens == u.cacheCreationInputTokens
    && t.totalTokens == u.inputTokens + u.outputTokens + u.cacheReadInputTokens + u.cacheCreationInputTokens
  }

  predicate IsTextBlock(b: Block) { b.kind == "text" }

  predicate IsToolBlock(b: Block) { b.kind == "tool_use" }

  function TextsOf(bs: seq<Block>): seq<string> {
    seq(|bs|, i requires 0 <= i < |bs| => bs[i].text)
  }

  /** The text blocks joined, the tool blocks as calls in their order, the reason and the counts. */
  ghost predicate MessageTold(m: AnthropicMessage, r: CompletionResponse) {
    && ReasonTold(m.stopReason, r.finishReason)
    && (m.usage.Some? ==> UsageTold(m.usage.value, r.usage)) && (m.usage.None? ==> r.usage == NO_USAGE)
    && BlocksTold(m.content, r.content, r.toolCalls)
  }

  ghost predicate BlocksTold(blocks: seq<Block>, text: string, calls: seq<ToolCall>) {
    TextTold(blocks, text) && ToolsTold(blocks, calls)
  }

  ghost predicate TextTold(blocks: seq<Block>, text: string) {
    exists texts: seq<Block>, at: seq<nat> :: Picks(texts, blocks, IsTextBlock, at) && text == Concat(TextsOf(texts))
  }

  ghost predicate ToolsTold(blocks: seq<Block>, calls: seq<ToolCall>) {
    exists tools: seq<Block>, at: seq<nat> :: Picks(tools, blocks, IsToolBlock, at) && CallsTold(tools, calls)
  }

  /** A call for each block, under its own id and name and with its own arguments. */
  predicate CallsTold(tools: seq<Block>, calls: seq<ToolCall>) {
    && |calls| == |tools|
    && forall k :: 0 <= k < |calls| ==>
         calls[k].id == tools[k].id && calls[k].name == tools[k].name && calls[k].arguments == tools[k].input
         && calls[k].kind == "function"
  }

  lemma {:induction false} BlocksToldUpTo(blocks: seq<Block>, n: nat)
    requires n <= |blocks|
    ensures BlocksTold(blocks[..n], TextUpTo(blocks, n), CallsUpTo(blocks, n))
  {
    if n == 0 {
      PicksNothing(IsTextBlock);
      PicksNothing(IsToolBlock);
      assert TextsOf([]) == [];
    } else {
      BlocksToldUpTo(blocks, n - 1);
      assert blocks[..n] == blocks[..n - 1] + [blocks[n - 1]];
      OneBlockTold(blocks[..n - 1], TextUpTo(blocks, n - 1), CallsUpTo(blocks, n - 1), blocks[n - 1]);
    }
  }

  lemma OneBlockTold(blocks: seq<Block>, text: string, calls: seq<ToolCall>, b: Block)
    requires BlocksTold(blocks, text, calls)
    ensures BlocksTold(blocks + [b], text + TextOf(b), calls + CallsOf(b))
  {
    OneTextTold(blocks, text, b);
    OneCallTold(blocks, calls, b);
  }

  lemma OneTextTold(blocks: seq<Block>, text: string, b: Block)
    requires TextTold(blocks, text)
    ensures TextTold(blocks + [b], text + TextOf(b))
  {
    var texts, at :| Picks(texts, blocks, IsTextBlock, at) && text == Concat(TextsOf(texts));
    var at' := PicksOn(texts, blocks, IsTextBlock, at, b);
    TextGrows(texts, b);
  }

  lemma OneCallTold(blocks: seq<Block>, calls: seq<ToolCall>, b: Block)
    requires ToolsTold(blocks, calls)
    ensures ToolsTold(blocks + [b], calls + CallsOf(b))
  {
    var tools, at :| Picks(tools, blocks, IsToolBlock, at) && CallsTold(tools, calls);
    var at' := PicksOn(tools, blocks, IsToolBlock, at, b);
    assert CallsTold(tools + (if IsToolBlock(b) then [b] else []), calls + CallsOf(b));
  }

  lemma TextGrows(texts: seq<Block>, b: Block)
    ensures Concat(TextsOf(texts + (if IsTextBlock(b) then [b] else []))) == Concat(TextsOf(texts)) + TextOf(b)
  {
    if IsTextBlock(b) {
      assert TextsOf(texts + [b]) == TextsOf(texts) + [b.text];
      FlattenAppend(Self<char>, TextsOf(texts), [b.text]);
      FlattenOne(Self<char>, b.text);
    } else {
      assert texts + [] == texts;
    }
  }

  lemma BufferedTold(m: AnthropicMessage)
    ensures MessageTold(m, Buffered(m))
  {
    BlocksToldUpTo(m.content, |m.content|);
    assert m.content[..|m.content|] == m.content;
  }

  method ToCompletionResponse(m: AnthropicMessage) returns (out: CompletionResponse)
    ensures out == Buffered(m) && MessageTold(m, out)
  {
    var content, toolCalls := "", [];
    for i := 0 to |m.content|
      invariant content == TextUpTo(m.content, i) && toolCalls == CallsUpTo(m.content, i)
    {
      var b := m.content[i];
      if b.kind == "text" {
        content := content + b.text;
      } else if b.kind == "tool_use" {
        toolCalls := toolCalls + [CallOf(b)];
      }
    }
    var usage := NO_USAGE;
    if m.usage.Some? {
      usage := m.usage.value.ToUsage();
    }
    out := CompletionResponse(content, toolCalls, MapStopReason(m.stopReason), usage);
    BufferedTold(m);
  }

  // ---------- The stream handler ----------

  datatype BlockHead = BlockHead(kind: string, id: string, name: string)
  datatype BlockPiece = BlockPiece(kind: string, text: string, partialJSON: string)
  datatype MessageTail = MessageTail(stopReason: string, outputTokens: int)

  /** JSON decoding of each kind of event payload; None stands for an unmarshalling error. */
  datatype Codec = Codec(
    messageStart: string -> Option<AnthropicUsage>,
    blockStart: string -> Option<(int, BlockHead)>,
    blockDelta: string -> Option<(int, BlockPiece)>,
    messageDelta: string -> Option<MessageTail>)

  datatype Captured = Captured(stopReason: string, usage: AnthropicUsage)

  function HandleBlockStart(index: int, head: BlockHead): seq<Delta> {
    if head.kind != "tool_use" then []
    else [ToolDelta(ToolCallDelta(index, head.id, head.name, ""))]
  }

  function HandleBlockDelta(index: int, p: BlockPiece): seq<Delta> {
    if p.kind == "text_delta" then (if p.text != "" then [ContentDelta(p.text)] else [])
    else if p.kind == "input_json_delta" then
      (if p.partialJSON != "" then [ToolDelta(ToolCallDelta(index, "", "", p.partialJSON))] else [])
    else []
  }

  function AfterStart(c: Captured, u: AnthropicUsage): Captured {
    c.(usage := AnthropicUsage(u.inputTokens, c.usage.outputTokens, u.cacheCreationInputTokens, u.cacheReadInputTokens))
  }

  function AfterTail(c: Captured, t: MessageTail): Captured {
    Captured(if t.stopReason != "" then t.stopReason else c.stopReason,
             if t.outputTokens > 0 then c.usage.(outputTokens := t.outputTokens) else c.usage)
  }

  function HandleEvent(codec: Codec, c: Captured, ev: SseEvent): Reaction<Captured> {
    match ev.event
    case "message_start" =>
      var u := codec.messageStart(ev.data);
      Reaction([], Go(if u.Some? then AfterStart(c, u.value) else c))
    case "content_block_start" =>
      (match codec.blockStart(ev.data)
       case None => Reaction([], Fail(BadPayload))
       case Some((i, head)) => Reaction(HandleBlockStart(i, head), Go(c)))
    case "content_block_delta" =>
      (match codec.blockDelta(ev.data)
       case None => Reaction([], Fail(BadPayload))
       case Some((i, piece)) => Reaction(HandleBlockDelta(i, piece), Go(c)))
    case "message_delta" =>
      var t := codec.messageDelta(ev.data);
      Reaction([], Go(if t.Some? then AfterTail(c, t.value) else c))
    case "message_stop" => Reaction([], StreamDone)
    case _ => Reaction([], Go(c))
  }

  function Handler(codec: Codec): (Captured, SseEvent) -> Reaction<Captured> {
    (c, ev) => HandleEvent(codec, c, ev)
  }

  const START := Captured("", ZERO_USAGE)
  const CLOSE: Closing<Captured> := (c: Captured) => (MapStopReason(c.stopReason), c.usage.ToUsage())

  /** The script an Anthropic stream body amounts to. */
  function StreamScript(codec: Codec, body: Body): Script {
    BodyScript(Handler(codec), CLOSE, START, body)
  }

  method ParseAnthropicStream(codec: Codec, body: Body, gate: ContentGate)
    returns (usage: Usage, err: Option<Failure>)
    requires gate.Valid()
    modifies gate, gate.inner, gate.inner.inner
    ensures gate.Valid()
    ensures var s, at := StreamScript(codec, body), |old(gate.inner.inner.trace)|;
            && gate.inner.inner.trace == old(gate.inner.inner.trace)
               + Attempt(gate.inner.inner.accepts, at, ScriptCalls(s))
            && (usage, err) == StreamResult(s, gate.inner.inner.accepts, at)
  {
    usage, err := ParseStream(Handler(codec), CLOSE, START, body, gate);
  }

  // ---------- How a message is streamed ----------

  /** What an event of a stream says, payload decoded. */
  datatype Meaning =
    | Noise
    | Start(usage: AnthropicUsage)
    | Opens(index: int, head: BlockHead)
    | Adds(index: int, piece: BlockPiece)
    | Tail(tail: MessageTail)
    | Stop
    | Garbled

  function Decode(codec: Codec, ev: SseEvent): Meaning {
    match ev.event
    case "message_start" =>
      var u := codec.messageStart(ev.data);
      if u.Some? then Start(u.value) else Noise
    case "content_block_start" =>
      var o := codec.blockStart(ev.data);
      if o.Some? then Opens(o.value.0, o.value.1) else Garbled
    case "content_block_delta" =>
      var a := codec.blockDelta(ev.data);
      if a.Some? then Adds(a.value.0, a.value.1) else Garbled
    case "message_delta" =>
      var t := codec.messageDelta(ev.data);
      if t.Some? then Tail(t.value) else Noise
    case "message_stop" => Stop
    case _ => Noise  // pings, block stops and anything unknown
  }

  function Meanings(codec: Codec, events: seq<SseEvent>): seq<Meaning> {
    if events == [] then []
    else
      var m := Decode(codec, events[0]);
      (if m.Noise? then [] else [m]) + Meanings(codec, events[1..])
  }

  function PieceOf(deltaKind: string, part: string): BlockPiece {
    if deltaKind == "text_delta" then BlockPiece(deltaKind, part, "")
    else BlockPiece(deltaKind, "", part)
  }

  function Additions(index: int, deltaKind: string, parts: seq<string>): (ms: seq<Meaning>) {
    if parts == [] then [] else [Adds(index, PieceOf(deltaKind, parts[0]))] + Additions(index, deltaKind, parts[1..])
  }

  /** The pieces a block was cut into, and the kind of delta that carries them. The pieces of a text
      join to it; what is sent of a tool's arguments need not be their buffered form. */
  datatype Cut = Cut(deltaKind: string, parts: seq<string>)

  predicate CutOf(b: Block, c: Cut) {
    && (b.kind == "text" ==> c.deltaKind == "text_delta" && Concat(c.parts) == b.text)
    && (b.kind == "tool_use" ==> c.deltaKind == "input_json_delta")
  }

  function BlockStream(index: int, b: Block, c: Cut): seq<Meaning> {
    [Opens(index, BlockHead(b.kind, b.id, b.name))] + Additions(index, c.deltaKind, c.parts)
  }

  function BlocksStream(blocks: seq<Block>, cuts: seq<Cut>, n: nat): seq<Meaning>
    requires n <= |blocks| && n <= |cuts|
  {
    if n == 0 then [] else BlocksStream(blocks, cuts, n - 1) + BlockStream(n - 1, blocks[n - 1], cuts[n - 1])
  }

  function Tails(ts: seq<MessageTail>): seq<Meaning> {
    if ts == [] then [] else [Tail(ts[0])] + Tails(ts[1..])
  }

  function AfterTails(c: Captured, ts: seq<MessageTail>): Captured
    decreases |ts|
  {
    if ts == [] then c else AfterTails(AfterTail(c, ts[0]), ts[1..])
  }

  /** The events that stream a message: its usage, its blocks in order, the closing deltas, the stop. */
  function MessageStream(m: AnthropicMessage, cuts: seq<Cut>, tails: seq<MessageTail>): seq<Meaning>
    requires |cuts| == |m.content|
  {
    [Start(UsageOf(m))] + BlocksStream(m.content, cuts, |cuts|) + Tails(tails) + [Stop]
  }

  function UsageOf(m: AnthropicMessage): AnthropicUsage {
    if m.usage.Some? then m.usage.value else ZERO_USAGE
  }

  /** The cuts and closing deltas tell of this message and no other. */
  predicate Tells(m: AnthropicMessage, cuts: seq<Cut>, tails: seq<MessageTail>) {
    && |cuts| == |m.content|
    && (forall i :: 0 <= i < |cuts| ==> CutOf(m.content[i], cuts[i]))
    && AfterTails(START, tails) == Captured(m.stopReason, ZERO_USAGE.(outputTokens := UsageOf(m).outputTokens))
  }

  /** The pieces of a tool's arguments join to their buffered form, and those of a block of another kind
      say nothing the handler listens to. */
  predicate Agrees(b: Block, c: Cut) {
    if b.kind == "text" then true
    else if b.kind == "tool_use" then Concat(c.parts) == b.input
    else c.deltaKind == "text_delta" || c.deltaKind == "input_json_delta" ==> Concat(c.parts) == ""
  }

  // ---------- Noise is ignored ----------

  function MeaningScript(c: Captured, ms: seq<Meaning>, ending: Option<Failure>): Script
    decreases |ms|
  {
    if ms == [] then Script([], EndOf(CLOSE, c, ending))
    else
      match ms[0]
      case Noise => MeaningScript(c, ms[1..], ending)
      case Start(u) => MeaningScript(AfterStart(c, u), ms[1..], ending)
      case Opens(i, head) => Prepend(HandleBlockStart(i, head), MeaningScript(c, ms[1..], ending))
      case Adds(i, piece) => Prepend(HandleBlockDelta(i, piece), MeaningScript(c, ms[1..], ending))
      case Tail(t) => MeaningScript(AfterTail(c, t), ms[1..], ending)
      case Stop => Script([], EndOf(CLOSE, c, None))
      case Garbled => Script([], Broken(BadPayload))
  }

  /** What the handler makes of a meaning. */
  function ReactionTo(c: Captured, m: Meaning): Reaction<Captured> {
    match m
    case Noise => Reaction([], Go(c))
    case Start(u) => Reaction([], Go(AfterStart(c, u)))
    case Opens(i, head) => Reaction(HandleBlockStart(i, head), Go(c))
    case Adds(i, piece) => Reaction(HandleBlockDelta(i, piece), Go(c))
    case Tail(t) => Reaction([], Go(AfterTail(c, t)))
    case Stop => Reaction([], StreamDone)
    case Garbled => Reaction([], Fail(BadPayload))
  }

  /** Only the meanings matter: pings, block stops, unknown events and undecodable usage are skipped. */
  lemma {:induction false} NoiseIsIgnored(codec: Codec, c: Captured, events: seq<SseEvent>, ending: Option<Failure>)
    ensures ScriptOf(Handler(codec), CLOSE, c, events, ending) == MeaningScript(c, Meanings(codec, events), ending)
    decreases |events|
  {
    if events != [] {
      var (ev, rest) := (events[0], events[1..]);
      var m := Decode(codec, ev);
      var r := ReactionTo(c, m);
      assert Handler(codec)(c, ev) == r;
      if r.next.Go? {
        NoiseIsIgnored(codec, r.next.captured, rest, ending);
      }
      OneMeaning(c, m, Meanings(codec, rest), ending);
    }
  }

  function MeaningsAfter(c: Captured, next: Next<Captured>, others: seq<Meaning>, ending: Option<Failure>): Script {
    match next
    case Go(t) => MeaningScript(t, others, ending)
    case StreamDone => Script([], EndOf(CLOSE, c, None))
    case Fail(e) => Script([], Broken(e))
  }

  lemma OneMeaning(c: Captured, m: Meaning, others: seq<Meaning>, ending: Option<Failure>)
    ensures var r := ReactionTo(c, m);
            MeaningScript(c, (if m.Noise? then [] else [m]) + others, ending)
            == Prepend(r.deltas, MeaningsAfter(c, r.next, others, ending))
  {
    var r := ReactionTo(c, m);
    if m.Noise? {
      assert [] + others == others;
    } else {
      assert ([m] + others)[1..] == others;
    }
  }

  // ---------- Streamed and buffered forms agree ----------

  function DeltasOfMeaning(m: Meaning): seq<Delta> {
    match m
    case Opens(i, head) => HandleBlockStart(i, head)
    case Adds(i, piece) => HandleBlockDelta(i, piece)
    case _ => []
  }

  function DeltasOf(ms: seq<Meaning>): seq<Delta> { Flatten(DeltasOfMeaning, ms) }

  lemma {:induction false} ScriptOfBlocks(c: Captured, a: seq<Meaning>, b: seq<Meaning>, ending: Option<Failure>)
    requires forall k :: 0 <= k < |a| ==> a[k].Opens? || a[k].Adds?
    ensures MeaningScript(c, a + b, ending) == Prepend(DeltasOf(a), MeaningScript(c, b, ending))
  {
    if a == [] {
      assert a + b == b;
    } else {
      var rest := a[1..];
      assert a + b == [a[0]] + (rest + b);
      ScriptOfBlocks(c, rest, b, ending);
      var ds := if a[0].Opens? then HandleBlockStart(a[0].index, a[0].head)
                else HandleBlockDelta(a[0].index, a[0].piece);
      PrependTwice(ds, DeltasOf(rest), MeaningScript(c, b, ending));
    }
  }

  lemma {:induction false} ScriptOfTails(c: Captured, ts: seq<MessageTail>, b: seq<Meaning>, ending: Option<Failure>)
    ensures MeaningScript(c, Tails(ts) + b, ending) == MeaningScript(AfterTails(c, ts), b, ending)
    decreases |ts|
  {
    if ts == [] {
      assert Tails(ts) + b == b;
    } else {
      assert Tails(ts) + b == [Tail(ts[0])] + (Tails(ts[1..]) + b);
      ScriptOfTails(AfterTail(c, ts[0]), ts[1..], b, ending);
    }
  }

  /** Closing deltas touch the stop reason and the output tokens, nothing else. */
  lemma {:induction false} TailsAreLocal(c: Captured, d: Captured, ts: seq<MessageTail>)
    requires c.stopReason == d.stopReason && c.usage.outputTokens == d.usage.outputTokens
    ensures var (x, y) := (AfterTails(c, ts), AfterTails(d, ts));
            x.stopReason == y.stopReason && x.usage == c.usage.(outputTokens := y.usage.outputTokens)
    decreases |ts|
  {
    if ts != [] {
      TailsAreLocal(AfterTail(c, ts[0]), AfterTail(d, ts[0]), ts[1..]);
    }
  }

  /** Whether the stream shows a tool call at this block. */
  predicate ShowsCall(b: Block, c: Cut) {
    b.kind == "tool_use" || HeardArguments(c) != ""
  }

  function ShownCall(b: Block, c: Cut): BuiltCall {
    if b.kind == "tool_use" then BuiltCall(b.id, b.name, HeardArguments(c))
    else BuiltCall("", "", HeardArguments(c))
  }

  /** The calls the first n blocks show, under their block indices. */
  function ShownUpTo(blocks: seq<Block>, cuts: seq<Cut>, n: nat): (calls: map<int, BuiltCall>)
    requires n <= |blocks| && n <= |cuts|
    ensures forall i :: i in calls <==> 0 <= i < n && ShowsCall(blocks[i], cuts[i])
    ensures forall i :: i in calls ==> calls[i] == ShownCall(blocks[i], cuts[i])
  {
    if n == 0 then map[]
    else
      var before := ShownUpTo(blocks, cuts, n - 1);
      if ShowsCall(blocks[n - 1], cuts[n - 1]) then before[n - 1 := ShownCall(blocks[n - 1], cuts[n - 1])] else before
  }

  /** The calls after more argument text for one index. */
  function WithArguments(calls: map<int, BuiltCall>, index: int, more: string): map<int, BuiltCall> {
    if more == "" then calls
    else
      var sofar := if index in calls then calls[index] else EMPTY_CALL;
      calls[index := sofar.(arguments := sofar.arguments + more)]
  }

  lemma WithArgumentsTwice(calls: map<int, BuiltCall>, index: int, a: string, b: string)
    ensures WithArguments(WithArguments(calls, index, a), index, b) == WithArguments(calls, index, a + b)
  {
    var sofar := if index in calls then calls[index] else EMPTY_CALL;
    assert sofar.arguments + a + b == sofar.arguments + (a + b);
    if a == "" {
      assert a + b == b;
    } else if b == "" {
      assert a + b == a;
    }
  }

  function HeardArguments(c: Cut): string {
    if c.deltaKind == "input_json_delta" then Concat(c.parts) else ""
  }

  function HeardText(c: Cut): string {
    if c.deltaKind == "text_delta" then Concat(c.parts) else ""
  }

  /** Pieces for one block add up, whatever they were cut into. */
  lemma {:induction false} AdditionsAddUp(index: int, c: Cut, calls: map<int, BuiltCall>)
    ensures var ds := DeltasOf(Additions(index, c.deltaKind, c.parts));
            && ContentOf(ds) == HeardText(c)
            && Regroup(ToolDeltasOf(ds), calls) == WithArguments(calls, index, HeardArguments(c))
    decreases |c.parts|
  {
    if c.parts != [] {
      var rest := Cut(c.deltaKind, c.parts[1..]);
      var first := HandleBlockDelta(index, PieceOf(c.deltaKind, c.parts[0]));
      var others := DeltasOf(Additions(index, c.deltaKind, rest.parts));
      assert DeltasOf(Additions(index, c.deltaKind, c.parts)) == first + others;
      DeltasAppend(first, others);
      RegroupAppend(ToolDeltasOf(first), ToolDeltasOf(others), calls);
      FirstAddition(index, c.deltaKind, c.parts[0], calls);
      var mid := Regroup(ToolDeltasOf(first), calls);
      AdditionsAddUp(index, rest, mid);
      if c.deltaKind == "input_json_delta" {
        WithArgumentsTwice(calls, index, c.parts[0], Concat(rest.parts));
      }
    }
  }

  lemma FirstAddition(index: int, kind: string, part: string, calls: map<int, BuiltCall>)
    ensures var ds := HandleBlockDelta(index, PieceOf(kind, part));
            && ContentOf(ds) == (if kind == "text_delta" then part else "")
            && Regroup(ToolDeltasOf(ds), calls)
               == WithArguments(calls, index, if kind == "input_json_delta" then part else "")
  {
    var ds := HandleBlockDelta(index, PieceOf(kind, part));
    if ds != [] {
      DeltasOne(ds[0]);
      assert ToolDeltasOf(ds) != [] ==> ToolDeltasOf(ds)[1..] == [];
    }
  }

  lemma BlockOpens(index: int, b: Block, calls: map<int, BuiltCall>)
    requires index !in calls
    ensures var ds := HandleBlockStart(index, BlockHead(b.kind, b.id, b.name));
            && ContentOf(ds) == ""
            && Regroup(ToolDeltasOf(ds), calls)
               == if b.kind == "tool_use" then calls[index := BuiltCall(b.id, b.name, "")] else calls
  {
    if b.kind == "tool_use" {
      var d := ToolCallDelta(index, b.id, b.name, "");
      DeltasOne(ToolDelta(d));
      assert [d][1..] == [];
    }
  }

  lemma OneBlockAddsUp(index: int, b: Block, c: Cut, calls: map<int, BuiltCall>)
    requires index !in calls
    ensures var ds := DeltasOf(BlockStream(index, b, c));
            && ContentOf(ds) == HeardText(c)
            && Regroup(ToolDeltasOf(ds), calls) == if ShowsCall(b, c) then calls[index := ShownCall(b, c)] else calls
  {
    var head := HandleBlockStart(index, BlockHead(b.kind, b.id, b.name));
    var others := DeltasOf(Additions(index, c.deltaKind, c.parts));
    assert DeltasOf(BlockStream(index, b, c)) == head + others;
    DeltasAppend(head, others);
    RegroupAppend(ToolDeltasOf(head), ToolDeltasOf(others), calls);
    BlockOpens(index, b, calls);
    var begun := Regroup(ToolDeltasOf(head), calls);
    AdditionsAddUp(index, c, begun);
    ShownAtOnce(index, b, c, calls, begun);
  }

  lemma ShownAtOnce(index: int, b: Block, c: Cut, calls: map<int, BuiltCall>, begun: map<int, BuiltCall>)
    requires index !in calls
    requires begun == if b.kind == "tool_use" then calls[index := BuiltCall(b.id, b.name, "")] else calls
    ensures WithArguments(begun, index, HeardArguments(c))
         == if ShowsCall(b, c) then calls[index := ShownCall(b, c)] else calls
  {
    assert "" + HeardArguments(c) == HeardArguments(c);
  }

  /** The text heard from the first n blocks. */
  function HeardUpTo(blocks: seq<Block>, cuts: seq<Cut>, n: nat): string
    requires n <= |blocks| && n <= |cuts|
  {
    if n == 0 then "" else HeardUpTo(blocks, cuts, n - 1) + HeardText(cuts[n - 1])
  }

  lemma TwoBatches(a: seq<Delta>, b: seq<Delta>, calls: map<int, BuiltCall>)
    ensures ContentOf(a + b) == ContentOf(a) + ContentOf(b)
    ensures Regroup(ToolDeltasOf(a + b), calls) == Regroup(ToolDeltasOf(b), Regroup(ToolDeltasOf(a), calls))
  {
    DeltasAppend(a, b);
    RegroupAppend(ToolDeltasOf(a), ToolDeltasOf(b), calls);
  }

  lemma BlocksStep(blocks: seq<Block>, cuts: seq<Cut>, n: nat)
    requires n < |blocks| && n < |cuts|
    ensures DeltasOf(BlocksStream(blocks, cuts, n + 1))
         == DeltasOf(BlocksStream(blocks, cuts, n)) + DeltasOf(BlockStream(n, blocks[n], cuts[n]))
  {
    FlattenAppend(DeltasOfMeaning, BlocksStream(blocks, cuts, n), BlockStream(n, blocks[n], cuts[n]));
  }

  lemma {:induction false} BlocksAddUp(blocks: seq<Block>, cuts: seq<Cut>, n: nat)
    requires n <= |blocks| && n <= |cuts|
    ensures ContentOf(DeltasOf(BlocksStream(blocks, cuts, n))) == HeardUpTo(blocks, cuts, n)
    ensures Regroup(ToolDeltasOf(DeltasOf(BlocksStream(blocks, cuts, n))), map[]) == ShownUpTo(blocks, cuts, n)
  {
    if n > 0 {
      var k := n - 1;
      BlocksAddUp(blocks, cuts, k);
      BlocksStep(blocks, cuts, k);
      var shown := ShownUpTo(blocks, cuts, k);
      assert k !in shown;
      OneBlockAddsUp(k, blocks[k], cuts[k], shown);
      TwoBatches(DeltasOf(BlocksStream(blocks, cuts, k)), DeltasOf(BlockStream(k, blocks[k], cuts[k])), map[]);
    }
  }

  /** Calls read off in index order. */
  function InOrder(calls: map<int, BuiltCall>, n: nat): seq<BuiltCall> {
    if n == 0 then [] else InOrder(calls, n - 1) + (if n - 1 in calls then [calls[n - 1]] else [])
  }

  function BuiltCalls(tcs: seq<ToolCall>): (r: seq<BuiltCall>)
    ensures |r| == |tcs|
  {
    seq(|tcs|, i requires 0 <= i < |tcs| => BuiltCall(tcs[i].id, tcs[i].name, tcs[i].arguments))
  }

  predicate AgreeUpTo(blocks: seq<Block>, cuts: seq<Cut>, n: nat): (agree: bool)
    requires n <= |blocks| && n <= |cuts|
    ensures agree <==> forall i :: 0 <= i < n ==> Agrees(blocks[i], cuts[i])
  {
    n == 0 || (AgreeUpTo(blocks, cuts, n - 1) && Agrees(blocks[n - 1], cuts[n - 1]))
  }

  /** The streamed text and calls never fall short of the buffered ones; they are the same if all agreed,
      and otherwise there is more of them, or as many calls but not the same. */
  predicate Compares(heard: string, text: string, shown: seq<BuiltCall>, calls: seq<ToolCall>, agree: bool) {
    && |heard| >= |text| && |shown| >= |calls|
    && if agree then heard == text && shown == BuiltCalls(calls)
       else |heard| > |text| || |shown| > |calls| || shown != BuiltCalls(calls)
  }

  /** What compares piece by piece compares as a whole. */
  lemma ComparesOn(h: string, t: string, s: seq<BuiltCall>, c: seq<ToolCall>, a: bool,
                   h': string, t': string, s': seq<BuiltCall>, c': seq<ToolCall>, a': bool)
    requires Compares(h, t, s, c, a) && Compares(h', t', s', c', a')
    ensures Compares(h + h', t + t', s + s', c + c', a && a')
  {
    assert BuiltCalls(c + c') == BuiltCalls(c) + BuiltCalls(c');
    if |s| == |c| && |s'| == |c'| {
      assert (s + s')[..|s|] == s && (s + s')[|s|..] == s';
      assert (BuiltCalls(c) + BuiltCalls(c'))[..|s|] == BuiltCalls(c);
      assert (BuiltCalls(c) + BuiltCalls(c'))[|s|..] == BuiltCalls(c');
    }
  }

  function ShownCalls(b: Block, c: Cut): seq<BuiltCall> { if ShowsCall(b, c) then [ShownCall(b, c)] else [] }

  /** One block heard in pieces against the same block taken whole. */
  lemma OneBlockAgainstBuffered(b: Block, c: Cut)
    requires CutOf(b, c)
    ensures Compares(HeardText(c), TextOf(b), ShownCalls(b, c), CallsOf(b), Agrees(b, c))
  {
    if b.kind == "tool_use" {
      assert ShownCalls(b, c)[0].arguments == Concat(c.parts);
      assert BuiltCalls(CallsOf(b))[0].arguments == b.input;
    }
  }

  /** The first n blocks streamed compare with the same blocks buffered. */
  predicate ComparesUpTo(blocks: seq<Block>, cuts: seq<Cut>, all: map<int, BuiltCall>, n: nat)
    requires n <= |blocks| == |cuts|
  {
    Compares(HeardUpTo(blocks, cuts, n), TextUpTo(blocks, n), InOrder(all, n), CallsUpTo(blocks, n),
             AgreeUpTo(blocks, cuts, n))
  }

  lemma ComparesNext(blocks: seq<Block>, cuts: seq<Cut>, all: map<int, BuiltCall>, k: nat)
    requires k < |blocks| == |cuts| && all == ShownUpTo(blocks, cuts, |blocks|)
    requires CutOf(blocks[k], cuts[k]) && ComparesUpTo(blocks, cuts, all, k)
    ensures ComparesUpTo(blocks, cuts, all, k + 1)
  {
    var (b, c) := (blocks[k], cuts[k]);
    OneBlockAgainstBuffered(b, c);
    assert k in all <==> ShowsCall(b, c);
    ComparesOn(HeardUpTo(blocks, cuts, k), TextUpTo(blocks, k), InOrder(all, k), CallsUpTo(blocks, k),
               AgreeUpTo(blocks, cuts, k), HeardText(c), TextOf(b), ShownCalls(b, c), CallsOf(b), Agrees(b, c));
  }

  lemma {:induction false} ShownAgainstBuffered(blocks: seq<Block>, cuts: seq<Cut>, all: map<int, BuiltCall>, n: nat)
    requires n <= |blocks| == |cuts| && all == ShownUpTo(blocks, cuts, |blocks|)
    requires forall i :: 0 <= i < |cuts| ==> CutOf(blocks[i], cuts[i])
    ensures ComparesUpTo(blocks, cuts, all, n)
  {
    if n == 0 {
      NothingCompares(blocks, cuts, all);
    } else {
      ShownAgainstBuffered(blocks, cuts, all, n - 1);
      ComparesNext(blocks, cuts, all, n - 1);
    }
  }

  lemma NothingCompares(blocks: seq<Block>, cuts: seq<Cut>, all: map<int, BuiltCall>)
    requires |blocks| == |cuts|
    ensures ComparesUpTo(blocks, cuts, all, 0)
  {
  }

  lemma StreamParts(m: AnthropicMessage, cuts: seq<Cut>, tails: seq<MessageTail>, ms: seq<Meaning>)
    returns (rest: seq<Meaning>)
    requires |cuts| == |m.content| && MessageStream(m, cuts, tails) <= ms
    ensures ms[0] == Start(UsageOf(m)) && rest != [] && rest[0] == Stop
    ensures ms[1..] == BlocksStream(m.content, cuts, |cuts|) + (Tails(tails) + rest)
  {
    var whole := MessageStream(m, cuts, tails);
    rest := [Stop] + ms[|whole|..];
    assert ms == whole + ms[|whole|..];
    assert whole == [Start(UsageOf(m))] + (BlocksStream(m.content, cuts, |cuts|) + Tails(tails) + [Stop]);
  }

  /** The blocks turn into deltas, the closing events into captured state. */
  lemma ScriptBeforeStop(m: AnthropicMessage, cuts: seq<Cut>, tails: seq<MessageTail>, ms: seq<Meaning>,
                         rest: seq<Meaning>, ending: Option<Failure>)
    requires |cuts| == |m.content| && ms != [] && ms[0] == Start(UsageOf(m))
    requires ms[1..] == BlocksStream(m.content, cuts, |cuts|) + (Tails(tails) + rest)
    ensures MeaningScript(START, ms, ending)
         == Prepend(DeltasOf(BlocksStream(m.content, cuts, |cuts|)),
                    MeaningScript(AfterTails(AfterStart(START, UsageOf(m)), tails), rest, ending))
  {
    var c := AfterStart(START, UsageOf(m));
    OnlyBlockEvents(m.content, cuts, |cuts|);
    ScriptOfBlocks(c, BlocksStream(m.content, cuts, |cuts|), Tails(tails) + rest, ending);
    ScriptOfTails(c, tails, rest, ending);
  }

  /** The script of a streamed message: the deltas of its blocks, then its end. */
  lemma ScriptOfMessage(m: AnthropicMessage, cuts: seq<Cut>, tails: seq<MessageTail>, ms: seq<Meaning>,
                        ending: Option<Failure>)
    requires |cuts| == |m.content| && MessageStream(m, cuts, tails) <= ms
    requires AfterTails(START, tails) == Captured(m.stopReason, ZERO_USAGE.(outputTokens := UsageOf(m).outputTokens))
    ensures MeaningScript(START, ms, ending)
         == Script(DeltasOf(BlocksStream(m.content, cuts, |cuts|)),
                   Finished(MapStopReason(m.stopReason), UsageOf(m).ToUsage()))
  {
    var rest := StreamParts(m, cuts, tails, ms);
    ScriptBeforeStop(m, cuts, tails, ms, rest, ending);
    TailsAreLocal(AfterStart(START, UsageOf(m)), START, tails);
    StopsHere(m, rest, ending);
    PrependToEnd(DeltasOf(BlocksStream(m.content, cuts, |cuts|)),
                 Finished(MapStopReason(m.stopReason), UsageOf(m).ToUsage()));
  }

  lemma PrependToEnd(ds: seq<Delta>, end: ScriptEnd)
    ensures Prepend(ds, Script([], end)) == Script(ds, end)
  {
    assert ds + [] == ds;
  }

  lemma StopsHere(m: AnthropicMessage, rest: seq<Meaning>, ending: Option<Failure>)
    requires rest != [] && rest[0] == Stop
    ensures MeaningScript(Captured(m.stopReason, UsageOf(m)), rest, ending)
         == Script([], Finished(MapStopReason(m.stopReason), UsageOf(m).ToUsage()))
  {
  }

  /** The streamed form has the content and the tool calls of the buffered one, in block order. */
  predicate SameAnswer(s: Script, r: CompletionResponse, n: nat) {
    ContentOf(s.deltas) == r.content && InOrder(Regroup(ToolDeltasOf(s.deltas), map[]), n) == BuiltCalls(r.toolCalls)
  }

  /** For every message, however its text is cut up, whatever is sent of its tools' arguments, and whatever
      noise surrounds it: the stream ends with the finish reason and usage of the buffered response; and
      its content and tool calls (in block order) are those of the buffered response exactly when the
      pieces of every tool's arguments join to their buffered form and no block of another kind carries
      text or argument JSON of its own. */
  lemma StreamedAgreesWithBuffered(codec: Codec, m: AnthropicMessage, cuts: seq<Cut>, tails: seq<MessageTail>,
                                   body: Body)
    requires Tells(m, cuts, tails)
    requires MessageStream(m, cuts, tails) <= Meanings(codec, Dispatched(body))
    ensures var s, r := StreamScript(codec, body), Buffered(m);
            && s.end == Finished(r.finishReason, r.usage)
            && (forall i :: i in Regroup(ToolDeltasOf(s.deltas), map[]) ==> 0 <= i < |m.content|)
            && (SameAnswer(s, r, |m.content|) <==> forall i :: 0 <= i < |cuts| ==> Agrees(m.content[i], cuts[i]))
  {
    NoiseIsIgnored(codec, START, Dispatched(body), Ending(body));
    ScriptOfMessage(m, cuts, tails, Meanings(codec, Dispatched(body)), Ending(body));
    BlocksAddUp(m.content, cuts, |cuts|);
    ShownAgainstBuffered(m.content, cuts, ShownUpTo(m.content, cuts, |cuts|), |cuts|);
  }

  /** The stream ends with the message's own reason and counts. */
  lemma StreamedMessageEnds(codec: Codec, m: AnthropicMessage, cuts: seq<Cut>, tails: seq<MessageTail>, body: Body)
    requires Tells(m, cuts, tails)
    requires MessageStream(m, cuts, tails) <= Meanings(codec, Dispatched(body))
    ensures var end := StreamScript(codec, body).end;
            end.Finished? && ReasonTold(m.stopReason, end.reason) && UsageTold(UsageOf(m), end.usage)
  {
    StreamedAgreesWithBuffered(codec, m, cuts, tails, body);
    BufferedTold(m);
  }

  /** A message of one block, streamed in one way or another. */
  function OneBlock(b: Block): AnthropicMessage { AnthropicMessage([b], "tool_use", None) }

  /** A tool without arguments, streamed without a piece, is heard with none, not with {}. */
  lemma EmptyInputDiffers(codec: Codec, id: string, name: string, body: Body)
    requires var m := OneBlock(Block("tool_use", "", id, name, "{}"));
             MessageStream(m, [Cut("input_json_delta", [])], [MessageTail("tool_use", 0)])
             <= Meanings(codec, Dispatched(body))
    ensures var m := OneBlock(Block("tool_use", "", id, name, "{}"));
            !SameAnswer(StreamScript(codec, body), Buffered(m), 1)
  {
    var (m, cut) := (OneBlock(Block("tool_use", "", id, name, "{}")), Cut("input_json_delta", []));
    assert [MessageTail("tool_use", 0)][1..] == [];
    assert !Agrees(m.content[0], [cut][0]);
    StreamedAgreesWithBuffered(codec, m, [cut], [MessageTail("tool_use", 0)], body);
  }

  /** A block of another kind whose arguments are streamed shows a call the buffered form has not. */
  lemma OtherBlockDiffers(codec: Codec, id: string, name: string, body: Body)
    requires var m := OneBlock(Block("server_tool_use", "", id, name, "{}"));
             MessageStream(m, [Cut("input_json_delta", ["{}"])], [MessageTail("tool_use", 0)])
             <= Meanings(codec, Dispatched(body))
    ensures var m := OneBlock(Block("server_tool_use", "", id, name, "{}"));
            !SameAnswer(StreamScript(codec, body), Buffered(m), 1)
  {
    var (m, cut) := (OneBlock(Block("server_tool_use", "", id, name, "{}")), Cut("input_json_delta", ["{}"]));
    assert [MessageTail("tool_use", 0)][1..] == [];
    FlattenOne(Self<char>, "{}");
    assert !Agrees(m.content[0], [cut][0]);
    StreamedAgreesWithBuffered(codec, m, [cut], [MessageTail("tool_use", 0)], body);
  }

  lemma {:induction false} OnlyBlockEvents(blocks: seq<Block>, cuts: seq<Cut>, n: nat)
    requires n <= |blocks| && n <= |cuts|
    ensures forall k :: 0 <= k < |BlocksStream(blocks, cuts, n)| ==>
              BlocksStream(blocks, cuts, n)[k].Opens? || BlocksStream(blocks, cuts, n)[k].Adds?
  {
    if n > 0 {
      OnlyBlockEvents(blocks, cuts, n - 1);
      OnlyAdditions(n - 1, cuts[n - 1].deltaKind, cuts[n - 1].parts);
    }
  }

  lemma {:induction false} OnlyAdditions(index: int, kind: string, parts: seq<string>)
    ensures forall k :: 0 <= k < |Additions(index, kind, parts)| ==> Additions(index, kind, parts)[k].Adds?
  {
    if parts != [] {
      OnlyAdditions(index, kind, parts[1..]);
    }
  }
}

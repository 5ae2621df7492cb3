/** Writing the client's stream (internal/server/stream.go), and reading it back. */
module SseWriting {
  import opened Wrappers
  import opened Seqs
  import opened Text
  import opened Providers
  import opened Sinks
  import opened Transport
  import opened OpenAI

  /** One chunk of the client's stream (internal/server/types.go:63-102). */
  datatype StreamChunk = StreamChunk(id: string, kind: string, created: int, model: string,
                                     choices: seq<StreamChoice>)

  /** JSON encoding on the server's side and decoding on the client's. */
  datatype Codec = Codec(encode: StreamChunk -> string, encodeError: string -> string, decode: string -> Option<Chunk>)

  /** What the wire format relies on: a chunk decodes to what was encoded, and JSON objects are
      written on one line. The fields a reader does not look at are dropped by decoding. */
  ghost predicate Lawful(codec: Codec) {
    && (forall k :: codec.decode(codec.encode(k)) == Some(Chunk(k.choices, None)))
    && (forall k :: OneLineObject(codec.encode(k)))
    && (forall msg :: OneLineObject(codec.encodeError(msg)))
  }

  predicate OneLineObject(s: string) {
    |s| >= 2 && s[0] == '{' && s[|s| - 1] == '}' && Without(s, '\n') && Without(s, '\r')
  }

  // ---------- Frames ----------

  /** Seconds since 1970, as time.Now().Unix() gives them. */
  type UnixTime = t: nat | t < 0x8000_0000_0000_0000

  /** The units written under the lock. */
  datatype Frame = ChunkFrame(chunk: StreamChunk) | DoneFrame | ErrorFrame(message: string) | PingFrame(time: UnixTime)

  function FirstLines(codec: Codec, f: Frame): seq<string> {
    match f
    case ChunkFrame(c) => ["data: " + codec.encode(c)]
    case DoneFrame => ["data: [DONE]"]
    case ErrorFrame(msg) => ["event: error", "data: " + codec.encodeError(msg)]
    case PingFrame(t) => [": ping " + Decimal(t)]
  }

  /** The lines of a frame; the last one is blank. */
  function FrameLines(codec: Codec, f: Frame): seq<string> {
    FirstLines(codec, f) + [""]
  }

  function LineBytes(line: string): string { line + "\n" }

  function FrameBytes(codec: Codec, f: Frame): string {
    Flatten(LineBytes, FrameLines(codec, f))
  }

  /** What each frame looks like on the wire. */
  lemma FramesInSight(codec: Codec, c: StreamChunk, message: string, t: UnixTime)
    ensures FrameBytes(codec, ChunkFrame(c)) == "data: " + codec.encode(c) + "\n" + "\n"
    ensures FrameBytes(codec, DoneFrame) == "data: [DONE]" + "\n" + "\n"
    ensures FrameBytes(codec, ErrorFrame(message))
         == "event: error" + "\n" + ("data: " + codec.encodeError(message) + "\n" + "\n")
    ensures FrameBytes(codec, PingFrame(t)) == ": ping " + Decimal(t) + "\n" + "\n"
  {
    OneLineFrame("data: " + codec.encode(c));
    OneLineFrame("data: [DONE]");
    OneLineFrame("data: " + codec.encodeError(message));
    OneLineFrame(": ping " + Decimal(t));
    var (a, rest) := ("event: error", ["data: " + codec.encodeError(message)] + [""]);
    assert FrameLines(codec, ErrorFrame(message)) == [a] + rest;
    FlattenAppend(LineBytes, [a], rest);
    FlattenOne(LineBytes, a);
  }

  lemma OneLineFrame(line: string)
    ensures Flatten(LineBytes, [line] + [""]) == line + "\n" + "\n"
  {
    FlattenAppend(LineBytes, [line], [""]);
    FlattenOne(LineBytes, line);
    FlattenOne(LineBytes, "");
    assert "" + "\n" == "\n";
  }

  function Wire(codec: Codec, frames: seq<Frame>): string {
    if frames == [] then "" else FrameBytes(codec, frames[0]) + Wire(codec, frames[1..])
  }

  lemma {:induction false} WireAppend(codec: Codec, a: seq<Frame>, b: seq<Frame>)
    ensures Wire(codec, a + b) == Wire(codec, a) + Wire(codec, b)
  {
    if a == [] {
      assert a + b == b;
    } else {
      var rest := a[1..];
      assert a + b == [a[0]] + (rest + b);
      WireAppend(codec, rest, b);
    }
  }

  predicate FrameFits(codec: Codec, f: Frame) {
    forall k :: 0 <= k < |FirstLines(codec, f)| ==> |FirstLines(codec, f)[k]| < MAX_LINE
  }

  ghost predicate AllFit(codec: Codec, frames: seq<Frame>) {
    forall k :: 0 <= k < |frames| ==> FrameFits(codec, frames[k])
  }

  /** The frames before the first one that is too long for a reader's lines. */
  function Fitting(codec: Codec, frames: seq<Frame>): seq<Frame> {
    if frames == [] || !FrameFits(codec, frames[0]) then [] else [frames[0]] + Fitting(codec, frames[1..])
  }

  lemma ShortFramesFit(codec: Codec, f: Frame)
    requires f.DoneFrame? || f.PingFrame?
    ensures FrameFits(codec, f)
  {
    if f.PingFrame? {
      assert Pow10(10) == 10000000000 by { assert Pow10(5) == 100000; }
      assert Pow10(15) == 100000 * Pow10(10) && Pow10(19) == 10000 * Pow10(15);
      DecimalFits(f.time, 19);
    }
  }

  function UnlessPing(f: Frame): seq<Frame> {
    if f.PingFrame? then [] else [f]
  }

  /** The frames without the heartbeats. */
  function DropPings(frames: seq<Frame>): seq<Frame> { Flatten(UnlessPing, frames) }

  // ---------- The writer ----------

  /** What one write tells the client; ids and times are left open. */
  datatype Payload = Says(delta: StreamDelta, finish: Option<string>) | SaysDone

  const NO_DELTA := StreamDelta("", "", "", [])

  predicate Carries(f: Frame, p: Payload) {
    match p
    case Says(d, fin) => f.ChunkFrame? && f.chunk.choices == [StreamChoice(0, d, fin)]
    case SaysDone => f.DoneFrame?
  }

  ghost predicate CarriesAll(fs: seq<Frame>, ps: seq<Payload>) {
    |fs| == |ps| && forall k :: 0 <= k < |fs| ==> Carries(fs[k], ps[k])
  }

  function ToolCallChunk(d: ToolCallDelta): StreamDelta {
    NO_DELTA.(toolCalls := [StreamToolCall(d.index, d.id, if d.id != "" then "function" else "",
                                           d.functionName, d.argumentsPartial)])
  }

  /** What a sink call has to tell the client. */
  function PayloadsOf(call: Call, emitReasoning: bool): seq<Payload> {
    match call
    case Emit(d) =>
      if d.content != "" then [Says(NO_DELTA.(content := d.content), None)]
      else if d.reasoning != "" then (if emitReasoning then [Says(NO_DELTA.(reasoningContent := d.reasoning), None)]
                                      else [])
      else if d.toolCall.Some? then [Says(ToolCallChunk(d.toolCall.value), None)]
      else []
    case Finish(reason) => [Says(NO_DELTA, Some(reason)), SaysDone]
  }

  /** What the client is told of a tool call piece, which is a function's exactly if it opens the call, and
      of the end. */
  lemma PayloadsInSight(d: ToolCallDelta, reason: string, emitReasoning: bool)
    ensures var kind := if |d.id| > 0 then "function" else "";
            PayloadsOf(Emit(Delta("", "", Some(d))), emitReasoning)
            == [Says(StreamDelta("", "", "", [StreamToolCall(d.index, d.id, kind, d.functionName, d.argumentsPartial)]),
                     None)]
    ensures PayloadsOf(Finish(reason), emitReasoning)
         == [Says(StreamDelta("", "", "", []), Some(reason)), SaysDone]
  {
  }

  /** How many of n writes succeed before the first failure. */
  function Written(accepts: Schedule, at: nat, n: nat): (k: nat)
    ensures k <= n
    decreases n
  {
    if n == 0 || !accepts(at) then 0 else 1 + Written(accepts, at + 1, n - 1)
  }

  /** How many writes are tried: the first failure is the last. */
  function Tried(accepts: Schedule, at: nat, n: nat): nat {
    var k := Written(accepts, at, n);
    if k < n then k + 1 else n
  }

  /** The stream writer. A write succeeds whole or leaves nothing, as its schedule says. */
  class SSEWriter {
    const codec: Codec
    const id: string
    const model: string
    const accepts: Schedule
    const clock: nat -> int
    var wire: string
    var writes: nat
    var closed: bool
    ghost var frames: seq<Frame>

    /** The wire holds the frames, and every chunk among them is this stream's. */
    ghost predicate Valid()
      reads this
    {
      wire == Wire(codec, frames) && forall k :: 0 <= k < |frames| ==> Ours(frames[k])
    }

    predicate Ours(f: Frame) {
      f.ChunkFrame? ==> f.chunk.id == id && f.chunk.kind == "chat.completion.chunk" && f.chunk.model == model
    }

    constructor (codec: Codec, id: string, model: string, accepts: Schedule, clock: nat -> int)
      ensures Valid() && frames == [] && !closed && writes == 0
      ensures this.codec == codec && this.accepts == accepts && this.id == id && this.model == model
    {
      this.codec, this.id, this.model, this.accepts, this.clock := codec, id, model, accepts, clock;
      wire, writes, closed := "", 0, false;
      frames := [];
    }

    /** Writes one frame unless the writer is closed; a closed writer reports no error. */
    method WriteFrame(f: Frame) returns (ok: bool)
      requires Valid() && Ours(f)
      modifies this
      ensures Valid() && closed == old(closed)
      ensures frames == old(frames) + (if !closed && ok then [f] else [])
      ensures ok == (closed || accepts(old(writes)))
      ensures writes == old(writes) + (if closed then 0 else 1)
    {
      if closed {
        return true;
      }
      ok := accepts(writes);
      writes := writes + 1;
      if ok {
        wire := wire + FrameBytes(codec, f);
        WireAppend(codec, frames, [f]);
        assert [f][1..] == [];
        assert Wire(codec, [f]) == FrameBytes(codec, f);
        frames := frames + [f];
      }
    }

    method WriteChunk(delta: StreamDelta, finish: Option<string>) returns (ok: bool)
      requires Valid()
      modifies this
      ensures Valid() && closed == old(closed)
      ensures |frames| == |old(frames)| + (if !closed && ok then 1 else 0) && old(frames) <= frames
      ensures !closed && ok ==> Carries(frames[|frames| - 1], Says(delta, finish))
      ensures ok == (closed || accepts(old(writes)))
      ensures writes == old(writes) + (if closed then 0 else 1)
    {
      var chunk := StreamChunk(id, "chat.completion.chunk", clock(writes), model, [StreamChoice(0, delta, finish)]);
      ok := WriteFrame(ChunkFrame(chunk));
    }

    method SendFinish(reason: string) returns (ok: bool)
      requires Valid()
      modifies this
      ensures Valid() && closed == old(closed)
      ensures var ps := if closed then [] else PayloadsOf(Finish(reason), true);
              var n := Written(accepts, old(writes), |ps|);
              && old(frames) <= frames && CarriesAll(frames[|old(frames)|..], ps[..n])
              && ok == (n == |ps|) && writes == old(writes) + Tried(accepts, old(writes), |ps|)
    {
      ok := WriteChunk(NO_DELTA, Some(reason));
      if ok {
        ok := WriteFrame(DoneFrame);
      }
    }

    method Close()
      requires Valid()
      modifies this
      ensures Valid() && closed && frames == old(frames)
    {
      closed := true;
    }
  }

  /** The adapter from provider deltas to the stream writer. */
  class SseSink {
    const sse: SSEWriter
    const emitReasoning: bool

    constructor (sse: SSEWriter, emitReasoning: bool)
      ensures this.sse == sse && this.emitReasoning == emitReasoning
    {
      this.sse, this.emitReasoning := sse, emitReasoning;
    }

    /** One delta becomes at most one frame, and the call fails exactly when that write does. */
    method Delta(d: Delta) returns (ok: bool)
      requires sse.Valid()
      modifies sse
      ensures sse.Valid() && sse.closed == old(sse.closed)
      ensures var ps := if sse.closed then [] else PayloadsOf(Emit(d), emitReasoning);
              var n := Written(sse.accepts, old(sse.writes), |ps|);
              && old(sse.frames) <= sse.frames && CarriesAll(sse.frames[|old(sse.frames)|..], ps[..n])
              && ok == (n == |ps|) && sse.writes == old(sse.writes) + Tried(sse.accepts, old(sse.writes), |ps|)
    {
      if d.content != "" {
        ok := sse.WriteChunk(NO_DELTA.(content := d.content), None);
      } else if d.reasoning != "" {
        if !emitReasoning {
          return true;
        }
        ok := sse.WriteChunk(NO_DELTA.(reasoningContent := d.reasoning), None);
      } else if d.toolCall.Some? {
        ok := sse.WriteChunk(ToolCallChunk(d.toolCall.value), None);
      } else {
        ok := true;
      }
    }

    method Done(reason: string) returns (ok: bool)
      requires sse.Valid()
      modifies sse
      ensures sse.Valid() && sse.closed == old(sse.closed)
      ensures var ps := if sse.closed then [] else PayloadsOf(Finish(reason), emitReasoning);
              var n := Written(sse.accepts, old(sse.writes), |ps|);
              && old(sse.frames) <= sse.frames && CarriesAll(sse.frames[|old(sse.frames)|..], ps[..n])
              && ok == (n == |ps|) && sse.writes == old(sse.writes) + Tried(sse.accepts, old(sse.writes), |ps|)
    {
      ok := sse.SendFinish(reason);
    }
  }
}

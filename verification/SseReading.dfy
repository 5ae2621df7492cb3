/** Reading the client's stream back (internal/server/stream.go, internal/providers/transport.go:92-134,
    internal/providers/openai.go:285-332). */
module SseReading {
  import opened Wrappers
  import opened Seqs
  import opened Text
  import opened Providers
  import opened Sinks
  import opened Transport
  import opened SseStandard
  import opened Streams
  import opened OpenAI
  import opened SseWriting

  // ---------- Reading frames back ----------

  /** The event a frame is read as; heartbeats are none. */
  function EventOf(codec: Codec, f: Frame): seq<SseEvent> {
    match f
    case ChunkFrame(c) => [SseEvent("", codec.encode(c))]
    case DoneFrame => [SseEvent("", "[DONE]")]
    case ErrorFrame(msg) => [SseEvent("error", codec.encodeError(msg))]
    case PingFrame(_) => []
  }

  function EventsOf(codec: Codec, frames: seq<Frame>): seq<SseEvent> {
    if frames == [] then [] else EventOf(codec, frames[0]) + EventsOf(codec, frames[1..])
  }

  function WireLines(codec: Codec, frames: seq<Frame>): seq<string> {
    if frames == [] then [] else FrameLines(codec, frames[0]) + WireLines(codec, frames[1..])
  }

  predicate CleanLine(line: string) {
    Without(line, '\n') && Without(line, '\r')
  }

  lemma CleanConcat(a: string, b: string)
    requires Without(a, '\n') && Without(a, '\r') && Without(b, '\n') && Without(b, '\r')
    ensures Without(a + b, '\n') && Without(a + b, '\r')
  {
  }

  lemma FrameLinesClean(codec: Codec, f: Frame)
    requires Lawful(codec)
    ensures forall k :: 0 <= k < |FrameLines(codec, f)| ==> CleanLine(FrameLines(codec, f)[k])
  {
    match f
    case ChunkFrame(c) =>
      assert OneLineObject(codec.encode(c));
      CleanConcat("data: ", codec.encode(c));
    case DoneFrame =>
    case ErrorFrame(msg) =>
      assert OneLineObject(codec.encodeError(msg));
      CleanConcat("data: ", codec.encodeError(msg));
    case PingFrame(t) => CleanConcat(": ping ", Decimal(t));
  }

  lemma ReadLine(line: string, others: string, text: string, lines: seq<string>)
    requires Without(line, '\n') && RawLines(others + text) == lines
    ensures RawLines(LineBytes(line) + others + text) == [line] + lines
  {
    assert LineBytes(line) + others + text == line + "\n" + (others + text);
    RawLinesCons(line, others + text);
  }

  /** Lines written with their newlines in front of a text are read back as those lines. */
  lemma {:induction false} ReadBack(lines: seq<string>, text: string)
    requires forall k :: 0 <= k < |lines| ==> CleanLine(lines[k])
    ensures RawLines(Flatten(LineBytes, lines) + text) == lines + RawLines(text)
  {
    if lines == [] {
      assert Flatten(LineBytes, lines) + text == text;
    } else {
      var (line, rest) := (lines[0], lines[1..]);
      assert CleanLine(line);
      ReadBack(rest, text);
      assert Flatten(LineBytes, lines) == LineBytes(line) + Flatten(LineBytes, rest);
      ReadLine(line, Flatten(LineBytes, rest), text, rest + RawLines(text));
      HeadFirst(lines, RawLines(text));
    }
  }

  lemma {:induction false} WireReadsBack(codec: Codec, frames: seq<Frame>)
    requires Lawful(codec)
    ensures RawLines(Wire(codec, frames)) == WireLines(codec, frames)
    ensures forall k :: 0 <= k < |WireLines(codec, frames)| ==> CleanLine(WireLines(codec, frames)[k])
  {
    if frames != [] {
      FrameLinesClean(codec, frames[0]);
      WireReadsBack(codec, frames[1..]);
      ReadBack(FrameLines(codec, frames[0]), Wire(codec, frames[1..]));
    }
  }

  /** Clean lines that fit are scanned as they are, in front of any others. */
  lemma {:induction false} CleanLinesScan(lines: seq<string>, others: seq<string>)
    requires Fits(lines) && forall k :: 0 <= k < |lines| ==> CleanLine(lines[k])
    ensures Lines(lines + others) == lines + Lines(others)
    ensures Fits(lines + others) <==> Fits(others)
  {
    if lines == [] {
      assert lines + others == others;
    } else {
      var rest := lines[1..];
      assert Fits(rest) by { assert forall k :: 0 <= k < |rest| ==> rest[k] == lines[k + 1]; }
      CleanLinesScan(rest, others);
      assert lines + others == [lines[0]] + (rest + others);
      FitsTail(lines + others);
      assert DropCR(lines[0]) == lines[0];
    }
  }

  lemma OneSpaceTrimmed(text: string)
    requires text != "" && text[0] == ' ' && SpaceAtFront(text[1..]) == 0 && SpaceAtEnd(text[1..]) == 0
    ensures TrimSpace(text) == text[1..]
  {
    assert OneSpaceLess(text) == text[1..];
    TrimMatchesStandard(text);
  }

  lemma DataLineKind(payload: string)
    ensures Classify("data: " + payload) == DataLine(" " + payload)
  {
    assert "data: " + payload == "data:" + (" " + payload);
    ValueLineKind(" " + payload);
  }

  predicate Bracketed(payload: string) {
    && |payload| >= 2
    && (payload[0] == '{' || payload[0] == '[')
    && (payload[|payload| - 1] == '}' || payload[|payload| - 1] == ']')
  }

  /** A payload without white space at its ends survives the trimming of its line. */
  lemma FirstDataAbsorbed(name: string, line: string, value: string, payload: string)
    requires Classify(line) == DataLine(value) && TrimSpace(value) == payload
    ensures Absorb(Pending(name, []), line) == Pending(name, [payload])
  {
    assert [] + [payload] == [payload];
  }

  lemma PayloadTrimmed(text: string, payload: string)
    requires Bracketed(payload) && text == " " + payload
    ensures TrimSpace(text) == payload
  {
    assert text[1..] == payload && SpaceAtFront(payload) == 0 && SpaceAtEnd(payload) == 0;
    OneSpaceTrimmed(text);
  }

  lemma FrameDispatches(codec: Codec, f: Frame, lines: seq<string>, ending: Option<Failure>)
    requires Lawful(codec)
    ensures Upcoming(NOTHING_PENDING, FrameLines(codec, f) + lines, ending)
         == EventOf(codec, f) + Upcoming(NOTHING_PENDING, lines, ending)
  {
    match f
    case ChunkFrame(c) =>
      assert OneLineObject(codec.encode(c));
      DataFrame(codec.encode(c), lines, ending);
    case DoneFrame =>
      assert "data: " + "[DONE]" == "data: [DONE]";
      DataFrame("[DONE]", lines, ending);
    case ErrorFrame(msg) =>
      assert OneLineObject(codec.encodeError(msg));
      NameOfErrors();
      NamedFrame("error", codec.encodeError(msg), lines, ending);
    case PingFrame(t) =>
      var line := ": ping " + Decimal(t);
      assert line[0] == ':' && Absorb(NOTHING_PENDING, line) == NOTHING_PENDING;
      TwoLines(line, lines, ending);
  }

  /** One line and a blank one dispatch what that line leaves pending. */
  lemma TwoLines(line: string, lines: seq<string>, ending: Option<Failure>)
    requires line != ""
    ensures Upcoming(NOTHING_PENDING, [line] + [""] + lines, ending)
         == Flush(Absorb(NOTHING_PENDING, line)) + Upcoming(NOTHING_PENDING, lines, ending)
  {
    var all := [line] + [""] + lines;
    assert all[1..] == [""] + lines && all[1..][1..] == lines;
  }

  lemma DataFrame(payload: string, lines: seq<string>, ending: Option<Failure>)
    requires Bracketed(payload)
    ensures Upcoming(NOTHING_PENDING, ["data: " + payload] + [""] + lines, ending)
         == [SseEvent("", payload)] + Upcoming(NOTHING_PENDING, lines, ending)
  {
    DataLineKind(payload);
    PayloadTrimmed(" " + payload, payload);
    FirstDataAbsorbed("", "data: " + payload, " " + payload, payload);
    TwoLines("data: " + payload, lines, ending);
  }

  /** A name that survives the trimming of its line. */
  predicate Trimmed(name: string) {
    name != "" && SpaceAtFront(name) == 0 && SpaceAtEnd(name) == 0
  }

  lemma NameOfErrors()
    ensures Trimmed("error") && "event: " + "error" == "event: error"
  {
  }

  lemma NamedFrame(name: string, payload: string, lines: seq<string>, ending: Option<Failure>)
    requires Trimmed(name) && Bracketed(payload)
    ensures Upcoming(NOTHING_PENDING, ["event: " + name, "data: " + payload] + [""] + lines, ending)
         == [SseEvent(name, payload)] + Upcoming(NOTHING_PENDING, lines, ending)
  {
    var (a, b) := ("event: " + name, "data: " + payload);
    NameLineRead(name);
    DataLineKind(payload);
    PayloadTrimmed(" " + payload, payload);
    FirstDataAbsorbed(name, b, " " + payload, payload);
    ThreeLines(a, b, lines, ending);
  }

  lemma ThreeLines(a: string, b: string, lines: seq<string>, ending: Option<Failure>)
    requires a != "" && b != ""
    ensures Upcoming(NOTHING_PENDING, [a, b] + [""] + lines, ending)
         == Flush(Absorb(Absorb(NOTHING_PENDING, a), b)) + Upcoming(NOTHING_PENDING, lines, ending)
  {
    var all := [a, b] + [""] + lines;
    var rest := [b] + [""] + lines;
    assert all[1..] == rest && rest[1..] == [""] + lines && rest[1..][1..] == lines;
    assert Upcoming(NOTHING_PENDING, all, ending) == Upcoming(Absorb(NOTHING_PENDING, a), rest, ending);
  }

  lemma NameLineRead(name: string)
    requires Trimmed(name)
    ensures Absorb(NOTHING_PENDING, "event: " + name) == Pending(name, [])
  {
    var text := " " + name;
    assert text[1..] == name && "event: " + name == "event:" + text;
    NameLineKind(text);
    OneSpaceTrimmed(text);
  }

  /** A frame that fits is scanned whole. */
  lemma FittingFrameScans(codec: Codec, f: Frame, others: seq<string>)
    requires Lawful(codec) && FrameFits(codec, f)
    ensures Lines(FrameLines(codec, f) + others) == FrameLines(codec, f) + Lines(others)
    ensures Fits(FrameLines(codec, f) + others) <==> Fits(others)
  {
    FrameLinesClean(codec, f);
    CleanLinesScan(FrameLines(codec, f), others);
  }

  /** A frame that does not fit stops the scan before anything of it is dispatched. */
  lemma LongFrameStops(codec: Codec, f: Frame, others: seq<string>, failure: Failure)
    requires Lawful(codec) && !FrameFits(codec, f)
    ensures Upcoming(NOTHING_PENDING, Lines(FrameLines(codec, f) + others), Some(failure)) == []
    ensures !Fits(FrameLines(codec, f) + others)
  {
    match f
    case ChunkFrame(c) => LongLineStops("data: " + codec.encode(c), [""] + others, failure);
    case ErrorFrame(m) => LongPayloadStops("data: " + codec.encodeError(m), [""] + others, failure);
    case _ => ShortFramesFit(codec, f);
  }

  lemma LongLineStops(line: string, others: seq<string>, failure: Failure)
    requires |line| >= MAX_LINE
    ensures Lines([line] + others) == [] && !Fits([line] + others)
    ensures forall p :: Upcoming(p, Lines([line] + others), Some(failure)) == []
  {
    assert ([line] + others)[0] == line;
  }

  /** A name is pending then, but no event. */
  lemma LongPayloadStops(line: string, others: seq<string>, failure: Failure)
    requires |line| >= MAX_LINE
    ensures Upcoming(NOTHING_PENDING, Lines(["event: error", line] + others), Some(failure)) == []
    ensures !Fits(["event: error", line] + others)
  {
    var name, raw := "event: error", ["event: error", line] + others;
    assert raw[0] == name && raw[1..] == [line] + others && DropCR(name) == name;
    LongLineStops(line, others, failure);
    assert raw[1] == line && Lines(raw) == [name] + [];
    assert [name][1..] == [];
  }

  lemma {:induction false} WireDispatches(codec: Codec, frames: seq<Frame>, failure: Option<Failure>)
    requires Lawful(codec)
    ensures var raw := WireLines(codec, frames);
            var ending := if Fits(raw) then failure else Some(LineTooLong);
            && (Fits(raw) <==> AllFit(codec, frames))
            && Upcoming(NOTHING_PENDING, Lines(raw), ending) == EventsOf(codec, Fitting(codec, frames))
  {
    if frames != [] {
      var f, rest := frames[0], frames[1..];
      var others := WireLines(codec, rest);
      AllFitTail(codec, frames);
      if FrameFits(codec, f) {
        WireDispatches(codec, rest, failure);
        FittingFrameScans(codec, f, others);
        FrameDispatches(codec, f, Lines(others), if Fits(others) then failure else Some(LineTooLong));
      } else {
        LongFrameStops(codec, f, others, LineTooLong);
      }
    }
  }

  lemma AllFitTail(codec: Codec, frames: seq<Frame>)
    requires frames != []
    ensures AllFit(codec, frames) <==> FrameFits(codec, frames[0]) && AllFit(codec, frames[1..])
  {
    assert frames == [frames[0]] + frames[1..];
  }

  lemma {:induction false} FittingAll(codec: Codec, frames: seq<Frame>)
    ensures Fitting(codec, frames) <= frames
    ensures AllFit(codec, frames) <==> Fitting(codec, frames) == frames
  {
    if frames != [] {
      AllFitTail(codec, frames);
      FittingAll(codec, frames[1..]);
      assert frames == [frames[0]] + frames[1..];
    }
  }

  /** A reader of whole frames dispatches one event per frame, heartbeats aside, in order, up to the
      first frame with a line too long for it, and then fails; there is none such exactly when it ends
      as the body does. */
  lemma FramesReadBack(codec: Codec, frames: seq<Frame>, failure: Option<Failure>)
    requires Lawful(codec)
    ensures Dispatched(Body(Wire(codec, frames), failure)) == EventsOf(codec, Fitting(codec, frames))
    ensures Ending(Body(Wire(codec, frames), failure)) == if AllFit(codec, frames) then failure else Some(LineTooLong)
    ensures AllFit(codec, frames) <==> Fitting(codec, frames) == frames
  {
    WireReadsBack(codec, frames);
    WireDispatches(codec, frames, failure);
    FittingAll(codec, frames);
  }

  // ---------- The round trip ----------

  /** What a client makes of a list of payloads. */
  function PayloadScript(c: OpenAI.Captured, ps: seq<Payload>, ending: Option<Failure>): Script
    decreases |ps|
  {
    if ps == [] then Script([], EndOf(OpenAI.CLOSE, c, ending))
    else
      match ps[0]
      case SaysDone => Script([], EndOf(OpenAI.CLOSE, c, None))
      case Says(d, fin) =>
        Prepend(ChoiceDeltas(d),
                PayloadScript(c.(finish := if fin.Some? && fin.value != "" then fin.value else c.finish), ps[1..],
                              ending))
  }

  lemma ChunkRead(codec: Codec, c: OpenAI.Captured, f: Frame, p: Payload)
    requires Lawful(codec) && p.Says? && Carries(f, p)
    ensures EventOf(codec, f) == [SseEvent("", codec.encode(f.chunk))]
    ensures OpenAI.HandleChunk(codec.decode, c, SseEvent("", codec.encode(f.chunk)))
         == Reaction(ChoiceDeltas(p.delta),
                     Go(c.(finish := if p.finish.Some? && p.finish.value != "" then p.finish.value else c.finish)))
  {
    var payload := codec.encode(f.chunk);
    assert OneLineObject(payload) && payload != "[DONE]";
    assert codec.decode(payload) == Some(Chunk(f.chunk.choices, None));
    var choices := f.chunk.choices;
    assert choices[1..] == [];
    assert ChunkDeltas(choices) == ChoiceDeltas(p.delta) + [] == ChoiceDeltas(p.delta);
    assert FinishAfter(c.finish, choices)
        == FinishAfter(if p.finish.Some? && p.finish.value != "" then p.finish.value else c.finish, []);
  }

  lemma {:induction false} ScriptOfFrames(codec: Codec, c: OpenAI.Captured, frames: seq<Frame>, ps: seq<Payload>,
                                          ending: Option<Failure>)
    requires Lawful(codec) && CarriesAll(DropPings(frames), ps)
    ensures ScriptOf(OpenAI.Handler(codec.decode), OpenAI.CLOSE, c, EventsOf(codec, frames), ending)
         == PayloadScript(c, ps, ending)
    decreases |frames|
  {
    if frames != [] {
      var f, rest := frames[0], frames[1..];
      if f.PingFrame? {
        assert EventsOf(codec, frames) == EventsOf(codec, rest);
        assert DropPings(frames) == DropPings(rest);
        ScriptOfFrames(codec, c, rest, ps, ending);
      } else {
        FirstPayload(frames, ps);
        var handle := OpenAI.Handler(codec.decode);
        var evs := EventsOf(codec, frames);
        match ps[0]
        case SaysDone =>
          assert evs[0] == SseEvent("", "[DONE]");
          assert handle(c, evs[0]) == Reaction([], StreamDone);
        case Says(_, _) =>
          ChunkRead(codec, c, f, ps[0]);
          assert evs[0] == SseEvent("", codec.encode(f.chunk)) && evs[1..] == EventsOf(codec, rest);
          var r := handle(c, evs[0]);
          assert r == OpenAI.HandleChunk(codec.decode, c, evs[0]);
          ScriptOfFrames(codec, r.next.captured, rest, ps[1..], ending);
      }
    }
  }

  lemma FirstPayload(frames: seq<Frame>, ps: seq<Payload>)
    requires frames != [] && !frames[0].PingFrame? && CarriesAll(DropPings(frames), ps)
    ensures ps != [] && Carries(frames[0], ps[0]) && CarriesAll(DropPings(frames[1..]), ps[1..])
  {
    var kept := DropPings(frames);
    assert kept == [frames[0]] + DropPings(frames[1..]);
    forall k | 0 <= k < |kept| - 1 ensures Carries(DropPings(frames[1..])[k], ps[1..][k]) {
      assert Carries(kept[k + 1], ps[k + 1]);
    }
  }

  /** The deltas the client gets to see. */
  function Visible(ds: seq<Delta>, emitReasoning: bool): seq<Delta> {
    if ds == [] then []
    else (if ds[0].reasoning != "" && !emitReasoning then [] else [ds[0]]) + Visible(ds[1..], emitReasoning)
  }

  function DeltaPayloads(ds: seq<Delta>, emitReasoning: bool): seq<Payload> {
    if ds == [] then [] else PayloadsOf(Emit(ds[0]), emitReasoning) + DeltaPayloads(ds[1..], emitReasoning)
  }

  /** The payloads of a whole stream: an optional role chunk, the deltas, the finish and the terminator. */
  function StreamPayloads(roleStart: bool, ds: seq<Delta>, reason: string, emitReasoning: bool): seq<Payload> {
    (if roleStart then [Says(NO_DELTA.(role := "assistant"), None)] else [])
    + (DeltaPayloads(ds, emitReasoning) + PayloadsOf(Finish(reason), emitReasoning))
  }

  lemma OneDelta(d: Delta, emitReasoning: bool)
    requires OneField(d)
    ensures var ps := PayloadsOf(Emit(d), emitReasoning);
            if d.reasoning != "" && !emitReasoning then ps == []
            else |ps| == 1 && ps[0].Says? && ps[0].finish.None? && ChoiceDeltas(ps[0].delta) == [d]
  {
    if d.toolCall.Some? {
      var tcs := ToolCallChunk(d.toolCall.value).toolCalls;
      assert tcs[1..] == [];
      assert ToolCallDeltas(tcs) == [ToolDelta(d.toolCall.value)] + [];
    } else {
      assert ToolCallDeltas([]) == [];
    }
  }

  lemma {:induction false} ScriptOfDeltas(c: OpenAI.Captured, ds: seq<Delta>, emitReasoning: bool, rest: seq<Payload>,
                                          ending: Option<Failure>)
    requires forall k :: 0 <= k < |ds| ==> OneField(ds[k])
    ensures PayloadScript(c, DeltaPayloads(ds, emitReasoning) + rest, ending)
         == Prepend(Visible(ds, emitReasoning), PayloadScript(c, rest, ending))
    decreases |ds|
  {
    if ds == [] {
      assert DeltaPayloads(ds, emitReasoning) + rest == rest;
    } else {
      var (d, later) := (ds[0], ds[1..]);
      var others := DeltaPayloads(later, emitReasoning) + rest;
      assert DeltaPayloads(ds, emitReasoning) + rest == PayloadsOf(Emit(d), emitReasoning) + others;
      ScriptOfDeltas(c, later, emitReasoning, rest, ending);
      ScriptOfDelta(c, d, emitReasoning, others, ending);
      VisibleCons(d, later, emitReasoning, PayloadScript(c, rest, ending));
      assert ds == [d] + later;
    }
  }

  lemma VisibleCons(d: Delta, later: seq<Delta>, emitReasoning: bool, s: Script)
    ensures Prepend(Visible([d], emitReasoning), Prepend(Visible(later, emitReasoning), s))
         == Prepend(Visible([d] + later, emitReasoning), s)
  {
    PrependTwice(Visible([d], emitReasoning), Visible(later, emitReasoning), s);
    assert [d][1..] == [] && ([d] + later)[1..] == later;
  }

  lemma ScriptOfDelta(c: OpenAI.Captured, d: Delta, emitReasoning: bool, others: seq<Payload>, ending: Option<Failure>)
    requires OneField(d)
    ensures PayloadScript(c, PayloadsOf(Emit(d), emitReasoning) + others, ending)
         == Prepend(Visible([d], emitReasoning), PayloadScript(c, others, ending))
  {
    var first := PayloadsOf(Emit(d), emitReasoning);
    OneDelta(d, emitReasoning);
    VisibleOne(d, emitReasoning);
    if first == [] {
      assert first + others == others;
    } else {
      OneSaid(c, first[0], others, ending);
      assert first == [first[0]];
    }
  }

  lemma VisibleOne(d: Delta, emitReasoning: bool)
    ensures Visible([d], emitReasoning) == if d.reasoning != "" && !emitReasoning then [] else [d]
  {
    assert [d][1..] == [];
  }

  lemma OneSaid(c: OpenAI.Captured, p: Payload, others: seq<Payload>, ending: Option<Failure>)
    requires p.Says? && p.finish.None?
    ensures PayloadScript(c, [p] + others, ending) == Prepend(ChoiceDeltas(p.delta), PayloadScript(c, others, ending))
  {
    assert ([p] + others)[1..] == others;
  }

  lemma ScriptOfEnd(reason: string, emitReasoning: bool, ending: Option<Failure>)
    ensures PayloadScript(OpenAI.START, PayloadsOf(Finish(reason), emitReasoning), ending)
         == Script([], Finished(reason, NO_USAGE))
  {
    var ps := PayloadsOf(Finish(reason), emitReasoning);
    assert ps[1..] == [SaysDone];
    assert ChoiceDeltas(NO_DELTA) == [];
  }

  lemma ScriptOfStream(roleStart: bool, ds: seq<Delta>, reason: string, emitReasoning: bool, ending: Option<Failure>)
    requires forall k :: 0 <= k < |ds| ==> OneField(ds[k])
    ensures PayloadScript(OpenAI.START, StreamPayloads(roleStart, ds, reason, emitReasoning), ending)
         == Script(Visible(ds, emitReasoning), Finished(reason, NO_USAGE))
  {
    var ps := StreamPayloads(roleStart, ds, reason, emitReasoning);
    var tail := PayloadsOf(Finish(reason), emitReasoning);
    ScriptOfDeltas(OpenAI.START, ds, emitReasoning, tail, ending);
    ScriptOfEnd(reason, emitReasoning, ending);
    var body := DeltaPayloads(ds, emitReasoning) + tail;
    if roleStart {
      assert ps[1..] == body;
      assert ChoiceDeltas(NO_DELTA.(role := "assistant")) == [];
    } else {
      assert ps == body;
    }
    assert Visible(ds, emitReasoning) + [] == Visible(ds, emitReasoning);
  }

  // ---------- What is read of a stream that breaks off ----------

  function SaidDeltas(p: Payload): seq<Delta> {
    match p
    case Says(d, _) => ChoiceDeltas(d)
    case SaysDone => []
  }

  predicate AllSays(ps: seq<Payload>) {
    forall k :: 0 <= k < |ps| ==> ps[k].Says?
  }

  /** The terminator, and nothing else like it before. */
  predicate SaysDoneLast(ps: seq<Payload>) {
    ps != [] && ps[|ps| - 1].SaysDone? && AllSays(ps[..|ps| - 1])
  }

  /** Without the terminator a broken body is read as what was said, and as broken. */
  lemma {:induction false} ScriptOfBrokenBody(c: OpenAI.Captured, ps: seq<Payload>, e: Failure)
    requires AllSays(ps)
    ensures PayloadScript(c, ps, Some(e)) == Script(Flatten(SaidDeltas, ps), Broken(e))
    decreases |ps|
  {
    if ps != [] {
      var fin := ps[0].finish;
      ScriptOfBrokenBody(c.(finish := if fin.Some? && fin.value != "" then fin.value else c.finish), ps[1..], e);
    }
  }

  lemma {:induction false} DeltasOfWholeBody(c: OpenAI.Captured, ps: seq<Payload>, ending: Option<Failure>)
    requires AllSays(ps)
    ensures PayloadScript(c, ps + [SaysDone], ending).deltas == Flatten(SaidDeltas, ps)
    decreases |ps|
  {
    if ps == [] {
      assert ps + [SaysDone] == [SaysDone];
    } else {
      var fin := ps[0].finish;
      assert ps + [SaysDone] == [ps[0]] + (ps[1..] + [SaysDone]);
      DeltasOfWholeBody(c.(finish := if fin.Some? && fin.value != "" then fin.value else c.finish), ps[1..], ending);
    }
  }

  lemma {:induction false} DeltaPayloadsSay(ds: seq<Delta>, emitReasoning: bool)
    ensures AllSays(DeltaPayloads(ds, emitReasoning))
  {
    if ds != [] {
      DeltaPayloadsSay(ds[1..], emitReasoning);
    }
  }

  /** The first frame that does not fit is no heartbeat, and stands behind those that are read. */
  lemma {:induction false} FittingBreaksOff(codec: Codec, frames: seq<Frame>)
    requires !AllFit(codec, frames)
    ensures var fit := Fitting(codec, frames);
            fit <= frames && DropPings(fit) <= DropPings(frames) && |DropPings(fit)| < |DropPings(frames)|
  {
    var f, rest := frames[0], frames[1..];
    AllFitTail(codec, frames);
    if FrameFits(codec, f) {
      FittingBreaksOff(codec, rest);
      assert Fitting(codec, frames)[1..] == Fitting(codec, rest);
      assert frames == [f] + rest;
    } else if f.PingFrame? {
      ShortFramesFit(codec, f);
    }
  }

  /** A stream read up to a point before its terminator. */
  lemma ScriptOfFront(ps: seq<Payload>, n: nat, ds: seq<Delta>, ending: Option<Failure>, e: Failure)
    requires n < |ps| && SaysDoneLast(ps)
    requires PayloadScript(OpenAI.START, ps, ending).deltas == ds
    ensures PayloadScript(OpenAI.START, ps[..n], Some(e)).end == Broken(e)
    ensures PayloadScript(OpenAI.START, ps[..n], Some(e)).deltas <= ds
  {
    var front := ps[..|ps| - 1];
    assert ps == front + [SaysDone];
    assert ps[..n] == front[..n] && front == front[..n] + front[n..];
    ScriptOfBrokenBody(OpenAI.START, ps[..n], e);
    DeltasOfWholeBody(OpenAI.START, front, ending);
    FlattenAppend(SaidDeltas, front[..n], front[n..]);
  }

  lemma StreamPayloadsEnd(roleStart: bool, ds: seq<Delta>, reason: string, emitReasoning: bool)
    ensures SaysDoneLast(StreamPayloads(roleStart, ds, reason, emitReasoning))
  {
    DeltaPayloadsSay(ds, emitReasoning);
  }

  /** For every list of one-field deltas and every finish reason: whatever the chunk ids and times,
      wherever heartbeats fall between the frames, with or without the role chunk and however the body
      ends, reading the stream back yields exactly those deltas in order (reasoning erased exactly
      when it is switched off), then one Done with the same reason; unless a frame has a line too long
      for the reader, which then fails there, having read a front of those deltas and no Done. */
  lemma RoundTrip(codec: Codec, frames: seq<Frame>, roleStart: bool, ds: seq<Delta>, reason: string,
                  emitReasoning: bool, failure: Option<Failure>)
    requires Lawful(codec) && forall k :: 0 <= k < |ds| ==> OneField(ds[k])
    requires CarriesAll(DropPings(frames), StreamPayloads(roleStart, ds, reason, emitReasoning))
    ensures var s := OpenAI.StreamScript(codec.decode, Body(Wire(codec, frames), failure));
            if AllFit(codec, frames) then s == Script(Visible(ds, emitReasoning), Finished(reason, NO_USAGE))
            else s.end == Broken(LineTooLong) && s.deltas <= Visible(ds, emitReasoning)
  {
    ScriptOfStream(roleStart, ds, reason, emitReasoning, failure);
    StreamPayloadsEnd(roleStart, ds, reason, emitReasoning);
    ReadsAs(codec, frames, StreamPayloads(roleStart, ds, reason, emitReasoning), Visible(ds, emitReasoning),
            Finished(reason, NO_USAGE), failure);
  }

  /** Frames that carry payloads ending in the terminator are read as those payloads, or broken off. */
  lemma ReadsAs(codec: Codec, frames: seq<Frame>, ps: seq<Payload>, ds: seq<Delta>, end: ScriptEnd,
                failure: Option<Failure>)
    requires Lawful(codec) && CarriesAll(DropPings(frames), ps)
    requires SaysDoneLast(ps)
    requires PayloadScript(OpenAI.START, ps, failure) == Script(ds, end)
    ensures var s := OpenAI.StreamScript(codec.decode, Body(Wire(codec, frames), failure));
            if AllFit(codec, frames) then s == Script(ds, end) else s.end == Broken(LineTooLong) && s.deltas <= ds
  {
    ScriptOfWire(codec, frames, failure);
    if AllFit(codec, frames) {
      ScriptOfFrames(codec, OpenAI.START, frames, ps, failure);
    } else {
      BrokenOff(codec, frames, ps, ds, failure);
    }
  }

  lemma ScriptOfWire(codec: Codec, frames: seq<Frame>, failure: Option<Failure>)
    requires Lawful(codec)
    ensures OpenAI.StreamScript(codec.decode, Body(Wire(codec, frames), failure))
         == ScriptOf(OpenAI.Handler(codec.decode), OpenAI.CLOSE, OpenAI.START, EventsOf(codec, Fitting(codec, frames)),
                     if AllFit(codec, frames) then failure else Some(LineTooLong))
    ensures AllFit(codec, frames) <==> Fitting(codec, frames) == frames
  {
    FramesReadBack(codec, frames, failure);
  }

  /** A stream with a frame that does not fit. */
  lemma BrokenOff(codec: Codec, frames: seq<Frame>, ps: seq<Payload>, ds: seq<Delta>, ending: Option<Failure>)
    requires Lawful(codec) && CarriesAll(DropPings(frames), ps) && !AllFit(codec, frames)
    requires SaysDoneLast(ps)
    requires PayloadScript(OpenAI.START, ps, ending).deltas == ds
    ensures var s := ScriptOf(OpenAI.Handler(codec.decode), OpenAI.CLOSE, OpenAI.START,
                              EventsOf(codec, Fitting(codec, frames)), Some(LineTooLong));
            s.end == Broken(LineTooLong) && s.deltas <= ds
  {
    var fit := Fitting(codec, frames);
    FittingBreaksOff(codec, frames);
    var n := |DropPings(fit)|;
    assert DropPings(fit) == DropPings(frames)[..n];
    ScriptOfFrames(codec, OpenAI.START, fit, ps[..n], Some(LineTooLong));
    ScriptOfFront(ps, n, ds, ending, LineTooLong);
  }

  /** Heartbeats always fit. */
  lemma {:induction false} PingsDoNotMatter(codec: Codec, frames: seq<Frame>)
    ensures AllFit(codec, DropPings(frames)) <==> AllFit(codec, frames)
  {
    if frames != [] {
      PingsDoNotMatter(codec, frames[1..]);
      AllFitTail(codec, frames);
      if frames[0].PingFrame? {
        ShortFramesFit(codec, frames[0]);
        assert DropPings(frames) == DropPings(frames[1..]);
      } else {
        AllFitTail(codec, DropPings(frames));
        assert DropPings(frames)[1..] == DropPings(frames[1..]);
      }
    }
  }
}

/** What a client reads of a whole request when every write succeeds (internal/server/server.go:172-201,
    internal/server/stream.go:55-236, internal/providers/openai.go:285-332). */
module ClientReading {
  import opened Wrappers
  import opened Seqs
  import opened Providers
  import opened Sinks
  import opened Transport
  import OpenAI
  import opened Pipeline
  import opened RunTheorems
  import opened RunCausality
  import opened SseWriting
  import opened SseReading
  import opened ClientStream

  // ---------- A writer that never fails ----------

  ghost predicate NeverFails(writer: Schedule) {
    forall n: nat :: writer(n)
  }

  lemma {:induction false} AllWritten(writer: Schedule, at: nat, n: nat)
    requires NeverFails(writer)
    ensures Written(writer, at, n) == n
    decreases n
  {
    if n > 0 {
      AllWritten(writer, at + 1, n - 1);
    }
  }

  lemma WholeCallWritten(writer: Schedule, at: nat, emitReasoning: bool, call: Call)
    requires NeverFails(writer)
    ensures Wrote(writer, at, emitReasoning, call) == PayloadsOf(call, emitReasoning)
    ensures GotThrough(writer, at, emitReasoning, call)
  {
    AllWritten(writer, at, |PayloadsOf(call, emitReasoning)|);
  }

  lemma {:induction false} AllGotThrough(writer: Schedule, at: nat, emitReasoning: bool, evs: seq<Event>)
    requires NeverFails(writer) && Observed(writer, at, emitReasoning, evs)
    ensures forall k :: 0 <= k < |evs| ==> evs[k].ok
    decreases |evs|
  {
    if evs != [] {
      WholeCallWritten(writer, at, emitReasoning, evs[0].call);
      AllGotThrough(writer, Next(writer, at, emitReasoning, evs[0].call), emitReasoning, evs[1..]);
      assert evs == [evs[0]] + evs[1..];
    }
  }

  lemma {:induction false} DeltasWritten(writer: Schedule, at: nat, emitReasoning: bool, ds: seq<Delta>, reason: string)
    requires NeverFails(writer)
    ensures WirePayloads(writer, at, emitReasoning, Emits(ds) + [Finish(reason)])
         == DeltaPayloads(ds, emitReasoning) + PayloadsOf(Finish(reason), emitReasoning)
    decreases |ds|
  {
    var calls := Emits(ds) + [Finish(reason)];
    WholeCallWritten(writer, at, emitReasoning, calls[0]);
    if ds == [] {
      assert calls == [Finish(reason)] && calls[1..] == [];
    } else {
      assert calls[1..] == Emits(ds[1..]) + [Finish(reason)];
      DeltasWritten(writer, Next(writer, at, emitReasoning, calls[0]), emitReasoning, ds[1..], reason);
    }
  }

  lemma WholeStreamWritten(writer: Schedule, emitReasoning: bool, evs: seq<Event>, ds: seq<Delta>, reason: string)
    requires NeverFails(writer) && CallsOf(evs) == Emits(ds) + [Finish(reason)]
    ensures OwnPayloads(writer, emitReasoning, evs) == StreamPayloads(emitReasoning, ds, reason, emitReasoning)
  {
    AllWritten(writer, 0, |RolePayload(emitReasoning)|);
    DeltasWritten(writer, RunFrom(emitReasoning), emitReasoning, ds, reason);
  }

  // ---------- A finished run, read back ----------

  function DeltasIn(evs: seq<Event>): (ds: seq<Delta>)
    requires forall k :: 0 <= k < |evs| ==> evs[k].call.Emit?
    ensures |ds| == |evs|
  {
    seq(|evs|, i requires 0 <= i < |evs| => evs[i].call.delta)
  }

  lemma {:induction false} NoFinishNoDone(evs: seq<Event>)
    requires Finishes(evs) == [] && forall k :: 0 <= k < |evs| ==> evs[k].ok
    ensures forall k :: 0 <= k < |evs| ==> evs[k].call.Emit?
  {
    if evs != [] {
      assert FinishOf(evs[0]) == [] && Finishes(evs[1..]) == [];
      NoFinishNoDone(evs[1..]);
      assert evs == [evs[0]] + evs[1..];
    }
  }

  /** A finished list of successful calls is some deltas and one Done. */
  lemma FinishedCalls(evs: seq<Event>, text: string) returns (ds: seq<Delta>, reason: string)
    requires RunTheorems.Finished(evs, text) && forall k :: 0 <= k < |evs| ==> evs[k].ok
    ensures CallsOf(evs) == Emits(ds) + [Finish(reason)] && Finishes(evs) == [reason]
    ensures evs == Ok(Emits(ds)) + [Event(Finish(reason), true)]
  {
    var (front, last) := (evs[..|evs| - 1], evs[|evs| - 1]);
    assert evs == front + [last];
    NoFinishNoDone(front);
    ds, reason := DeltasIn(front), last.call.reason;
    CallsOfAppend(front, last);
    assert CallsOf(front) == Emits(ds);
    assert front == Ok(Emits(ds));
    FlattenAppend(FinishOf, front, [last]);
    FlattenOne(FinishOf, last);
  }

  lemma DeliveredDeltas(ds: seq<Delta>, reason: string)
    ensures Delivered(Ok(Emits(ds)) + [Event(Finish(reason), true)]) == ContentOf(ds)
    ensures DeliveredTools(Ok(Emits(ds)) + [Event(Finish(reason), true)]) == ToolDeltasOf(ds)
  {
    EmitsDeliver(ds);
    ViewsAppend(Ok(Emits(ds)), [Event(Finish(reason), true)]);
    ViewsOne(Event(Finish(reason), true));
  }

  predicate OneFieldEach(ds: seq<Delta>) {
    forall k :: 0 <= k < |ds| ==> OneField(ds[k])
  }

  /** Reasoning carries no content and no calls, so hiding it hides none. */
  lemma {:induction false} HiddenIsNoContent(ds: seq<Delta>, emitReasoning: bool)
    requires OneFieldEach(ds)
    ensures ContentOf(Visible(ds, emitReasoning)) == ContentOf(ds)
    ensures ToolDeltasOf(Visible(ds, emitReasoning)) == ToolDeltasOf(ds)
  {
    if ds != [] {
      HiddenIsNoContent(ds[1..], emitReasoning);
      if ds[0].reasoning == "" || emitReasoning {
        assert Visible(ds, emitReasoning)[1..] == Visible(ds[1..], emitReasoning);
      } else {
        assert Visible(ds, emitReasoning) == Visible(ds[1..], emitReasoning);
      }
    }
  }

  lemma ServedRead(codec: Codec, frames: seq<Frame>, writer: Schedule, emitReasoning: bool, evs: seq<Event>,
                   ds: seq<Delta>, reason: string, failure: Option<Failure>)
    requires Lawful(codec) && NeverFails(writer) && AllFit(codec, frames) && OneFieldEach(ds)
    requires CallsOf(evs) == Emits(ds) + [Finish(reason)]
    requires Serves(frames, writer, emitReasoning, evs, false)
    ensures OpenAI.StreamScript(codec.decode, Body(Wire(codec, frames), failure))
         == Script(Visible(ds, emitReasoning), Finished(reason, NO_USAGE))
  {
    var ps := OwnPayloads(writer, emitReasoning, evs);
    var message: string :| ServesSaying(frames, writer, emitReasoning, evs, false, message);
    var own: seq<Frame> :|
      ServedBy(DropPings(frames), own, message, ps, writer, TailAt(writer, emitReasoning, evs), false);
    assert own + [] == own;
    WholeStreamWritten(writer, emitReasoning, evs, ds, reason);
    RoundTrip(codec, frames, emitReasoning, ds, reason, emitReasoning, failure);
  }

  /** What a client makes of a whole answer: its text, its tool call pieces, and then one Done. */
  ghost predicate ReadsAnswer(s: Script, text: string, pieces: seq<ToolCallDelta>, reason: string) {
    ContentOf(s.deltas) == text && ToolDeltasOf(s.deltas) == pieces && s.end == Finished(reason, NO_USAGE)
  }

  /** The reason a finished run gives: the last thing its sink was told. */
  function GivenReason(evs: seq<Event>): string {
    if evs != [] && evs[|evs| - 1].call.Finish? then evs[|evs| - 1].call.reason else ""
  }

  /** From end to end: when every write succeeds, every delta of the run keeps to one field and no line is
      too long, the client of a run without an error reads exactly its answer, whatever reasoning was left
      out and wherever heartbeats fell: the speculative text on tool call and degraded turns, the final
      call's on fused ones; every tool call piece the run handed on; and then one Done, with the reason
      the run gave. */
  lemma ClientReadsTheAnswer(w: World, model: Model, base: CompletionRequest, writer: Schedule, codec: Codec,
                             frames: seq<Frame>, failure: Option<Failure>)
    requires Answers(w, model, base) && Lawful(codec) && NeverFails(writer) && AllFit(codec, frames)
    requires ServesRun(frames, w, model, base, writer)
    requires var o := RunOn(w, model, base, writer);
             && o.ruling.err.None?
             && forall e :: e in o.stage.evs && e.call.Emit? ==> OneField(e.call.delta)
    ensures var o := RunOn(w, model, base, writer);
            var text := if o.ruling.kind == DecisionFusion then FinalText(w, o) else SpeculativeText(w, model, base);
            ReadsAnswer(OpenAI.StreamScript(codec.decode, Body(Wire(codec, frames), failure)), text,
                        DeliveredTools(o.stage.evs), GivenReason(o.stage.evs))
  {
    var o := RunOn(w, model, base, writer);
    var text := if o.ruling.kind == DecisionFusion then FinalText(w, o) else SpeculativeText(w, model, base);
    SomeScheduleIsObserved(w, model, base, writer);
    SinkProtocol(w, ScheduleOn(w, model, base, writer), 0, model, base);
    FinishedRead(w.emitProgress, o.stage.evs, text, writer, codec, frames, failure);
  }

  lemma FinishedRead(emitReasoning: bool, evs: seq<Event>, text: string, writer: Schedule, codec: Codec,
                     frames: seq<Frame>, failure: Option<Failure>)
    requires Lawful(codec) && NeverFails(writer) && AllFit(codec, frames)
    requires Observed(writer, RunFrom(emitReasoning), emitReasoning, evs) && RunTheorems.Finished(evs, text)
    requires Serves(frames, writer, emitReasoning, evs, false)
    requires forall e :: e in evs && e.call.Emit? ==> OneField(e.call.delta)
    ensures ReadsAnswer(OpenAI.StreamScript(codec.decode, Body(Wire(codec, frames), failure)), text,
                        DeliveredTools(evs), GivenReason(evs))
  {
    AllGotThrough(writer, RunFrom(emitReasoning), emitReasoning, evs);
    var ds, reason := FinishedCalls(evs, text);
    forall k | 0 <= k < |ds| ensures OneField(ds[k]) {
      assert evs[k] == Event(Emit(ds[k]), true) && evs[k] in evs;
    }
    ServedRead(codec, frames, writer, emitReasoning, evs, ds, reason, failure);
    HiddenIsNoContent(ds, emitReasoning);
    DeliveredDeltas(ds, reason);
  }

  // ---------- A failed run, read back ----------

  /** When every write succeeds, the client of a failed run is told so: an error event and the terminator
      come last, behind all the rest. */
  lemma FailureIsTold(codec: Codec, frames: seq<Frame>, writer: Schedule, emitReasoning: bool, evs: seq<Event>,
                      message: string, failure: Option<Failure>)
    returns (before: seq<SseEvent>)
    requires Lawful(codec) && NeverFails(writer) && AllFit(codec, frames)
    requires ServesSaying(frames, writer, emitReasoning, evs, true, message)
    ensures Dispatched(Body(Wire(codec, frames), failure))
         == before + [SseEvent("error", codec.encodeError(message)), SseEvent("", "[DONE]")]
  {
    var own := OwnAndTail(frames, writer, emitReasoning, evs, message);
    before := EventsOf(codec, own);
    FramesReadBack(codec, frames, failure);
    PingsAreNoEvents(codec, frames);
    TailRead(codec, own, message);
  }

  lemma OwnAndTail(frames: seq<Frame>, writer: Schedule, emitReasoning: bool, evs: seq<Event>, message: string)
    returns (own: seq<Frame>)
    requires NeverFails(writer) && ServesSaying(frames, writer, emitReasoning, evs, true, message)
    ensures DropPings(frames) == own + ([ErrorFrame(message)] + [DoneFrame])
  {
    var at := TailAt(writer, emitReasoning, evs);
    own :| ServedBy(DropPings(frames), own, message, OwnPayloads(writer, emitReasoning, evs), writer, at, true);
    assert writer(at) && writer(at + 1);
  }

  lemma TailRead(codec: Codec, own: seq<Frame>, message: string)
    ensures EventsOf(codec, own + ([ErrorFrame(message)] + [DoneFrame]))
         == EventsOf(codec, own) + [SseEvent("error", codec.encodeError(message)), SseEvent("", "[DONE]")]
  {
    EventsAppend(codec, own, [ErrorFrame(message)] + [DoneFrame]);
    EventsAppend(codec, [ErrorFrame(message)], [DoneFrame]);
    OneFrameRead(codec, ErrorFrame(message));
    OneFrameRead(codec, DoneFrame);
  }

  lemma OneFrameRead(codec: Codec, f: Frame)
    ensures EventsOf(codec, [f]) == EventOf(codec, f)
  {
    assert [f][1..] == [];
  }

  /** With progress on, the first thing a client is told is whose turn it is. */
  lemma RoleComesFirst(writer: Schedule, evs: seq<Event>)
    requires writer(0)
    ensures var ps := OwnPayloads(writer, true, evs);
            |ps| > 0 && ps[0] == Says(OpenAI.StreamDelta("assistant", "", "", []), None)
    ensures |OwnPayloads(writer, false, [])| == 0
  {
  }
}

/** The client's whole stream: a run's calls through the adapter and the writer, and the error tail
    (internal/server/server.go:182-201, internal/server/stream.go). */
module ClientStream {
  import opened Wrappers
  import opened Providers
  import opened Sinks
  import opened Transport
  import Panel
  import opened Pipeline
  import opened RunTheorems
  import opened RunCausality
  import opened SseWriting
  import opened SseReading
  import Heartbeat

  // ---------- What a run leaves on the wire ----------

  /** What is written of one call, which is given up at its first failing write. */
  function Wrote(writer: Schedule, at: nat, emitReasoning: bool, call: Call): seq<Payload> {
    var ps := PayloadsOf(call, emitReasoning);
    ps[..Written(writer, at, |ps|)]
  }

  /** The number of the first write after it. */
  function Next(writer: Schedule, at: nat, emitReasoning: bool, call: Call): nat {
    at + Tried(writer, at, |PayloadsOf(call, emitReasoning)|)
  }

  /** Whether all its writes succeed. */
  predicate GotThrough(writer: Schedule, at: nat, emitReasoning: bool, call: Call) {
    var n := |PayloadsOf(call, emitReasoning)|;
    Written(writer, at, n) == n
  }

  /** What is written of some calls. */
  function WirePayloads(writer: Schedule, at: nat, emitReasoning: bool, calls: seq<Call>): seq<Payload>
    decreases |calls|
  {
    if calls == [] then []
    else
      Wrote(writer, at, emitReasoning, calls[0])
      + WirePayloads(writer, Next(writer, at, emitReasoning, calls[0]), emitReasoning, calls[1..])
  }

  function WritesAfter(writer: Schedule, at: nat, emitReasoning: bool, calls: seq<Call>): nat
    decreases |calls|
  {
    if calls == [] then at
    else WritesAfter(writer, Next(writer, at, emitReasoning, calls[0]), emitReasoning, calls[1..])
  }

  /** Each call succeeded exactly when all its writes did. */
  predicate Observed(writer: Schedule, at: nat, emitReasoning: bool, evs: seq<Event>)
    decreases |evs|
  {
    evs == [] ||
    (&& evs[0].ok == GotThrough(writer, at, emitReasoning, evs[0].call)
     && Observed(writer, Next(writer, at, emitReasoning, evs[0].call), emitReasoning, evs[1..]))
  }

  function RolePayload(roleStart: bool): seq<Payload> {
    if roleStart then [Says(NO_DELTA.(role := "assistant"), None)] else []
  }

  function RoleWritten(writer: Schedule, emitReasoning: bool): seq<Payload> {
    var role := RolePayload(emitReasoning);
    role[..Written(writer, 0, |role|)]
  }

  /** The number of the first write of the run itself. */
  function RunFrom(emitReasoning: bool): nat { |RolePayload(emitReasoning)| }

  /** The first write after the run. */
  function TailAt(writer: Schedule, emitReasoning: bool, evs: seq<Event>): nat {
    WritesAfter(writer, RunFrom(emitReasoning), emitReasoning, CallsOf(evs))
  }

  function IfWritten(written: bool, f: Frame): seq<Frame> { if written then [f] else [] }

  /** After a failed run the error event and the terminator are tried, whatever becomes of them. */
  function ErrorTail(writer: Schedule, at: nat, failed: bool, message: string): seq<Frame> {
    if failed then IfWritten(writer(at), ErrorFrame(message)) + IfWritten(writer(at + 1), DoneFrame) else []
  }

  function OwnPayloads(writer: Schedule, emitReasoning: bool, evs: seq<Event>): seq<Payload> {
    RoleWritten(writer, emitReasoning) + WirePayloads(writer, RunFrom(emitReasoning), emitReasoning, CallsOf(evs))
  }

  /** The run's own frames, then the error tail. */
  ghost predicate ServedBy(all: seq<Frame>, own: seq<Frame>, message: string, ps: seq<Payload>, writer: Schedule,
                           at: nat, failed: bool)
  {
    CarriesAll(own, ps) && all == own + ErrorTail(writer, at, failed, message)
  }

  /** The frames of a request on a writer whose writes may fail: role chunk, the run's calls, and after
      a failed run the error event and the terminator. Heartbeats may stand anywhere between them. */
  ghost predicate Serves(frames: seq<Frame>, writer: Schedule, emitReasoning: bool, evs: seq<Event>, failed: bool) {
    exists message: string :: ServesSaying(frames, writer, emitReasoning, evs, failed, message)
  }

  /** ... where the error event, if there is one, says this. */
  ghost predicate ServesSaying(frames: seq<Frame>, writer: Schedule, emitReasoning: bool, evs: seq<Event>,
                               failed: bool, message: string)
  {
    exists own: seq<Frame> ::
      ServedBy(DropPings(frames), own, message, OwnPayloads(writer, emitReasoning, evs), writer,
               TailAt(writer, emitReasoning, evs), failed)
  }

  // ---------- A run on a writer ----------

  /** The adapter answers by what it has been handed: where the writer stands is settled by the calls
      before, and a call succeeds when all its own writes do. */
  function Adapter(writer: Schedule, from: nat, emitReasoning: bool): Reaction {
    calls =>
      calls != [] ==>
        var before, last := calls[..|calls| - 1], calls[|calls| - 1];
        GotThrough(writer, WritesAfter(writer, from, emitReasoning, before), emitReasoning, last)
  }

  /** Event lists grow at the end for a reaction and at the front for a writer. */
  lemma {:induction false} ObservedReacts(writer: Schedule, from: nat, emitReasoning: bool, evs: seq<Event>)
    ensures Observed(writer, from, emitReasoning, evs) <==> Reacts(Adapter(writer, from, emitReasoning), evs)
    decreases |evs|
  {
    if evs != [] {
      var front, last := evs[..|evs| - 1], evs[|evs| - 1];
      assert evs == front + [last];
      ObservedReacts(writer, from, emitReasoning, front);
      ObservedAppend(writer, from, emitReasoning, front, last);
      ReactsAppend(Adapter(writer, from, emitReasoning), front, last);
      LastCall(writer, from, emitReasoning, CallsOf(front), last.call);
    }
  }

  lemma LastCall(writer: Schedule, from: nat, emitReasoning: bool, before: seq<Call>, last: Call)
    ensures Adapter(writer, from, emitReasoning)(before + [last])
         == GotThrough(writer, WritesAfter(writer, from, emitReasoning, before), emitReasoning, last)
  {
    var calls := before + [last];
    assert calls[..|calls| - 1] == before;
  }

  function AdapterOf(w: World, writer: Schedule): Reaction {
    Adapter(writer, RunFrom(w.emitProgress), w.emitProgress)
  }

  /** What the adapter on a writer comes to return to the calls of a run. */
  function ScheduleOn(w: World, model: Model, base: CompletionRequest, writer: Schedule): Schedule
    requires Answers(w, model, base)
  {
    Followed(RunsOf(w, model, base), AdapterOf(w, writer))
  }

  /** A run whose sink is the adapter on a writer. */
  function RunOn(w: World, model: Model, base: CompletionRequest, writer: Schedule): Outcome
    requires Answers(w, model, base)
  {
    RunOutcome(w, ScheduleOn(w, model, base, writer), 0, model, base)
  }

  /** The writer bears out what a run under this schedule sees. */
  predicate BorneOut(w: World, model: Model, base: CompletionRequest, writer: Schedule, accepts: Schedule)
    requires Answers(w, model, base)
  {
    Observed(writer, RunFrom(w.emitProgress), w.emitProgress, RunOutcome(w, accepts, 0, model, base).stage.evs)
  }

  /** What a run comes to on a writer, whatever schedule it is that the writer bears out. */
  ghost predicate IsRunOn(o: Outcome, w: World, model: Model, base: CompletionRequest, writer: Schedule) {
    && Answers(w, model, base)
    && forall accepts :: BorneOut(w, model, base, writer, accepts) ==> o == RunOutcome(w, accepts, 0, model, base)
  }

  lemma BorneOutReacts(w: World, model: Model, base: CompletionRequest, writer: Schedule, accepts: Schedule)
    requires Answers(w, model, base)
    ensures RunsOf(w, model, base)(accepts) == RunOutcome(w, accepts, 0, model, base)
    ensures BorneOut(w, model, base, writer, accepts)
       <==> Reacts(AdapterOf(w, writer), RunsOf(w, model, base)(accepts).stage.evs)
  {
    ObservedReacts(writer, RunFrom(w.emitProgress), w.emitProgress, RunsOf(w, model, base)(accepts).stage.evs);
  }

  /** Every writer bears out some schedule. */
  lemma SomeScheduleIsObserved(w: World, model: Model, base: CompletionRequest, writer: Schedule)
    requires Answers(w, model, base)
    ensures BorneOut(w, model, base, writer, ScheduleOn(w, model, base, writer))
  {
    RunsAreCausal(w, model, base);
    FollowedReacts(RunsOf(w, model, base), AdapterOf(w, writer));
    BorneOutReacts(w, model, base, writer, ScheduleOn(w, model, base, writer));
  }

  lemma OneOutcomeBorneOut(w: World, model: Model, base: CompletionRequest, writer: Schedule, accepts: Schedule)
    requires Answers(w, model, base) && BorneOut(w, model, base, writer, accepts)
    ensures RunOutcome(w, accepts, 0, model, base) == RunOn(w, model, base, writer)
  {
    var own := ScheduleOn(w, model, base, writer);
    SomeScheduleIsObserved(w, model, base, writer);
    BorneOutReacts(w, model, base, writer, accepts);
    BorneOutReacts(w, model, base, writer, own);
    RunsAreCausal(w, model, base);
    OneOutcome(RunsOf(w, model, base), AdapterOf(w, writer), accepts, own);
  }

  /** Under every schedule that a writer bears out a run comes to the same, and there is such a schedule. */
  lemma OneRunOn(w: World, model: Model, base: CompletionRequest, writer: Schedule, o: Outcome)
    requires Answers(w, model, base)
    ensures IsRunOn(o, w, model, base, writer) <==> o == RunOn(w, model, base, writer)
  {
    SomeScheduleIsObserved(w, model, base, writer);
    forall accepts | BorneOut(w, model, base, writer, accepts)
      ensures RunOutcome(w, accepts, 0, model, base) == RunOn(w, model, base, writer)
    {
      OneOutcomeBorneOut(w, model, base, writer, accepts);
    }
  }

  /** The writer settles which of some calls succeed. */
  lemma {:induction false} ObservedOnce(writer: Schedule, at: nat, emitReasoning: bool, evs: seq<Event>,
                                        evs': seq<Event>)
    requires Observed(writer, at, emitReasoning, evs) && Observed(writer, at, emitReasoning, evs')
    requires CallsOf(evs) == CallsOf(evs')
    ensures evs == evs'
    decreases |evs|
  {
    assert |evs| == |evs'|;
    if evs != [] {
      var calls := CallsOf(evs);
      assert calls[0] == evs[0].call == evs'[0].call;
      assert CallsOf(evs[1..]) == calls[1..] == CallsOf(evs'[1..]);
      ObservedOnce(writer, Next(writer, at, emitReasoning, calls[0]), emitReasoning, evs[1..], evs'[1..]);
      assert evs == [evs[0]] + evs[1..] && evs' == [evs'[0]] + evs'[1..];
    }
  }

  // ---------- One [DONE], and it comes last ----------

  lemma WriteOne(writer: Schedule, at: nat, emitReasoning: bool, c: Call)
    ensures WirePayloads(writer, at, emitReasoning, [c]) == Wrote(writer, at, emitReasoning, c)
    ensures WritesAfter(writer, at, emitReasoning, [c]) == Next(writer, at, emitReasoning, c)
  {
    assert [c][1..] == [];
  }

  lemma {:induction false} WirePayloadsAppend(writer: Schedule, at: nat, emitReasoning: bool, a: seq<Call>, c: Call)
    ensures WirePayloads(writer, at, emitReasoning, a + [c])
         == WirePayloads(writer, at, emitReasoning, a)
            + Wrote(writer, WritesAfter(writer, at, emitReasoning, a), emitReasoning, c)
    decreases |a|
  {
    var all := a + [c];
    if a == [] {
      assert all == [c];
      WriteOne(writer, at, emitReasoning, c);
    } else {
      assert all[0] == a[0] && all[1..] == a[1..] + [c];
      WirePayloadsAppend(writer, Next(writer, at, emitReasoning, a[0]), emitReasoning, a[1..], c);
    }
  }

  lemma {:induction false} WritesAfterAppend(writer: Schedule, at: nat, emitReasoning: bool, a: seq<Call>, c: Call)
    ensures WritesAfter(writer, at, emitReasoning, a + [c])
         == Next(writer, WritesAfter(writer, at, emitReasoning, a), emitReasoning, c)
    decreases |a|
  {
    var all := a + [c];
    if a == [] {
      assert all == [c];
      WriteOne(writer, at, emitReasoning, c);
    } else {
      assert all[0] == a[0] && all[1..] == a[1..] + [c];
      WritesAfterAppend(writer, Next(writer, at, emitReasoning, a[0]), emitReasoning, a[1..], c);
    }
  }

  lemma {:induction false} ObservedAppend(writer: Schedule, at: nat, emitReasoning: bool, a: seq<Event>, e: Event)
    ensures Observed(writer, at, emitReasoning, a + [e])
       <==> Observed(writer, at, emitReasoning, a)
            && e.ok == GotThrough(writer, WritesAfter(writer, at, emitReasoning, CallsOf(a)), emitReasoning, e.call)
    decreases |a|
  {
    if a == [] {
      assert a + [e] == [e] && [e][1..] == [];
    } else {
      var rest := a[1..];
      assert a + [e] == [a[0]] + (rest + [e]);
      assert CallsOf(a)[1..] == CallsOf(rest);
      ObservedAppend(writer, Next(writer, at, emitReasoning, a[0].call), emitReasoning, rest, e);
    }
  }

  /** The terminator comes second in a Done, after the finish chunk, so it is written exactly by a Done
      that succeeds. */
  lemma WroteDone(writer: Schedule, at: nat, emitReasoning: bool, call: Call)
    ensures var ps := Wrote(writer, at, emitReasoning, call);
            if call.Finish? && GotThrough(writer, at, emitReasoning, call) then
              |ps| == 2 && ps[0].Says? && ps[1].SaysDone?
            else AllSays(ps)
  {
  }

  /** Without a Done that succeeded the terminator is not written. */
  lemma {:induction false} NoDoneWritten(writer: Schedule, at: nat, emitReasoning: bool, evs: seq<Event>)
    requires Observed(writer, at, emitReasoning, evs) && Finishes(evs) == []
    ensures AllSays(WirePayloads(writer, at, emitReasoning, CallsOf(evs)))
    decreases |evs|
  {
    if evs != [] {
      var (e, rest) := (evs[0], evs[1..]);
      assert !(e.call.Finish? && e.ok) && Finishes(rest) == [];
      WroteDone(writer, at, emitReasoning, e.call);
      NoDoneWritten(writer, Next(writer, at, emitReasoning, e.call), emitReasoning, rest);
      assert CallsOf(evs)[0] == e.call && CallsOf(evs)[1..] == CallsOf(rest);
      SaysBehind(Wrote(writer, at, emitReasoning, e.call),
                 WirePayloads(writer, Next(writer, at, emitReasoning, e.call), emitReasoning, CallsOf(rest)));
    }
  }

  lemma SaysBehind(a: seq<Payload>, b: seq<Payload>)
    requires AllSays(a) && AllSays(b)
    ensures AllSays(a + b)
  {
  }

  lemma SaysDoneBehind(a: seq<Payload>, b: seq<Payload>)
    requires AllSays(a) && SaysDoneLast(b)
    ensures SaysDoneLast(a + b)
  {
    assert (a + b)[..|a + b| - 1] == a + b[..|b| - 1];
  }

  lemma OneDoneWritten(writer: Schedule, at: nat, emitReasoning: bool, front: seq<Event>, last: Event)
    requires Observed(writer, at, emitReasoning, front + [last])
    requires last.ok && last.call.Finish? && Finishes(front) == []
    ensures SaysDoneLast(WirePayloads(writer, at, emitReasoning, CallsOf(front) + [last.call]))
  {
    var mid := WritesAfter(writer, at, emitReasoning, CallsOf(front));
    ObservedAppend(writer, at, emitReasoning, front, last);
    NoDoneWritten(writer, at, emitReasoning, front);
    WirePayloadsAppend(writer, at, emitReasoning, CallsOf(front), last.call);
    WroteDone(writer, mid, emitReasoning, last.call);
    SaysDoneBehind(WirePayloads(writer, at, emitReasoning, CallsOf(front)),
                   Wrote(writer, mid, emitReasoning, last.call));
  }

  /** Only the last frame can be the terminator, and `done` says whether it is. */
  ghost predicate DoneAtMostLast(frames: seq<Frame>, done: bool) {
    && (forall k :: 0 <= k < |frames| - 1 ==> !frames[k].DoneFrame?)
    && (done <==> frames != [] && frames[|frames| - 1].DoneFrame?)
  }

  /** A frame is the terminator exactly when its payload is, and no payload is a heartbeat. */
  lemma OwnFramesSay(own: seq<Frame>, ps: seq<Payload>)
    requires CarriesAll(own, ps)
    ensures |own| == |ps|
    ensures forall k :: 0 <= k < |own| ==> (own[k].DoneFrame? <==> ps[k].SaysDone?) && !own[k].PingFrame?
  {
    forall k | 0 <= k < |own| ensures (own[k].DoneFrame? <==> ps[k].SaysDone?) && !own[k].PingFrame? {
      assert Carries(own[k], ps[k]);
    }
  }

  /** The terminator was written: by a Done that succeeded, or after a failed run. */
  predicate Terminated(writer: Schedule, emitReasoning: bool, evs: seq<Event>, failed: bool) {
    failed ==> writer(TailAt(writer, emitReasoning, evs) + 1)
  }

  /** What the sink protocol says of a run's events. */
  ghost predicate EndsOnce(evs: seq<Event>, failed: bool) {
    if failed then Finishes(evs) == []
    else evs != [] && evs[|evs| - 1].ok && evs[|evs| - 1].call.Finish? && Finishes(evs[..|evs| - 1]) == []
  }

  /** The terminator comes last in what a run without an error wrote, and not at all otherwise. */
  ghost predicate EndsAsSaid(ps: seq<Payload>, failed: bool) {
    if failed then AllSays(ps) else SaysDoneLast(ps)
  }

  lemma OwnPayloadsEnd(writer: Schedule, emitReasoning: bool, evs: seq<Event>, failed: bool)
    requires Observed(writer, RunFrom(emitReasoning), emitReasoning, evs) && EndsOnce(evs, failed)
    ensures EndsAsSaid(OwnPayloads(writer, emitReasoning, evs), failed)
  {
    var sent := RoleWritten(writer, emitReasoning);
    if failed {
      NoDoneWritten(writer, RunFrom(emitReasoning), emitReasoning, evs);
      SaysBehind(sent, WirePayloads(writer, RunFrom(emitReasoning), emitReasoning, CallsOf(evs)));
    } else {
      var front, last := evs[..|evs| - 1], evs[|evs| - 1];
      assert evs == front + [last];
      CallsOfAppend(front, last);
      OneDoneWritten(writer, RunFrom(emitReasoning), emitReasoning, front, last);
      SaysDoneBehind(sent, WirePayloads(writer, RunFrom(emitReasoning), emitReasoning, CallsOf(evs)));
    }
  }

  lemma TailedEnds(all: seq<Frame>, own: seq<Frame>, message: string, ps: seq<Payload>, writer: Schedule, at: nat,
                   failed: bool, done: bool)
    requires ServedBy(all, own, message, ps, writer, at, failed) && EndsAsSaid(ps, failed)
    requires done <==> (failed ==> writer(at + 1))
    ensures DoneAtMostLast(all, done)
  {
    OwnFramesSay(own, ps);
    assert own + [] == own;
  }

  lemma {:induction false} EventsAppend(codec: Codec, a: seq<Frame>, b: seq<Frame>)
    ensures EventsOf(codec, a + b) == EventsOf(codec, a) + EventsOf(codec, b)
  {
    if a == [] {
      assert a + b == b;
    } else {
      var rest := a[1..];
      assert a + b == [a[0]] + (rest + b);
      EventsAppend(codec, rest, b);
    }
  }

  lemma {:induction false} PingsAreNoEvents(codec: Codec, frames: seq<Frame>)
    ensures EventsOf(codec, DropPings(frames)) == EventsOf(codec, frames)
  {
    if frames != [] {
      PingsAreNoEvents(codec, frames[1..]);
      EventsAppend(codec, UnlessPing(frames[0]), DropPings(frames[1..]));
      if !frames[0].PingFrame? {
        assert [frames[0]][1..] == [];
      }
    }
  }

  /** Frames that are not the terminator are read as other data. */
  lemma {:induction false} ChunksSayNoDone(codec: Codec, frames: seq<Frame>)
    requires Lawful(codec) && forall k :: 0 <= k < |frames| ==> !frames[k].DoneFrame?
    ensures forall k :: 0 <= k < |EventsOf(codec, frames)| ==> EventsOf(codec, frames)[k].data != "[DONE]"
  {
    if frames != [] {
      ChunksSayNoDone(codec, frames[1..]);
      match frames[0]
      case ChunkFrame(c) => assert OneLineObject(codec.encode(c));
      case ErrorFrame(m) => assert OneLineObject(codec.encodeError(m));
      case PingFrame(_) =>
    }
  }

  /** Nothing but the last event can be [DONE], and `done` says whether it is. */
  ghost predicate ReadsDoneAtMostLast(evs: seq<SseEvent>, done: bool) {
    && (forall k :: 0 <= k < |evs| - 1 ==> evs[k].data != "[DONE]")
    && (done <==> evs != [] && evs[|evs| - 1] == SseEvent("", "[DONE]"))
    && (!done && evs != [] ==> evs[|evs| - 1].data != "[DONE]")
  }

  lemma FramesReadDone(codec: Codec, frames: seq<Frame>, done: bool)
    requires Lawful(codec) && DoneAtMostLast(frames, done)
    ensures ReadsDoneAtMostLast(EventsOf(codec, frames), done)
  {
    if done {
      var front := frames[..|frames| - 1];
      assert frames == front + [DoneFrame];
      forall k | 0 <= k < |front| ensures !front[k].DoneFrame? {
        assert front[k] == frames[k];
      }
      EventsAppend(codec, front, [DoneFrame]);
      assert EventsOf(codec, [DoneFrame]) == [SseEvent("", "[DONE]")] by { assert [DoneFrame][1..] == []; }
      ChunksSayNoDone(codec, front);
    } else {
      forall k | 0 <= k < |frames| ensures !frames[k].DoneFrame? {
        assert k < |frames| - 1 || k == |frames| - 1;
      }
      ChunksSayNoDone(codec, frames);
    }
  }

  /** A reader that breaks off reads no terminator. */
  lemma BrokenReadsNoDone(codec: Codec, frames: seq<Frame>, done: bool)
    requires Lawful(codec) && DoneAtMostLast(DropPings(frames), done) && !AllFit(codec, frames)
    ensures DoneAtMostLast(DropPings(Fitting(codec, frames)), false)
  {
    FittingBreaksOff(codec, frames);
    var fit, all := DropPings(Fitting(codec, frames)), DropPings(frames);
    assert forall k :: 0 <= k < |fit| ==> fit[k] == all[k];
  }

  lemma ServedEnd(writer: Schedule, emitReasoning: bool, evs: seq<Event>, failed: bool, frames: seq<Frame>)
    requires EndsOnce(evs, failed) && Observed(writer, RunFrom(emitReasoning), emitReasoning, evs)
    requires Serves(frames, writer, emitReasoning, evs, failed)
    ensures DoneAtMostLast(DropPings(frames), Terminated(writer, emitReasoning, evs, failed))
  {
    OwnPayloadsEnd(writer, emitReasoning, evs, failed);
    ServedAsSaid(writer, emitReasoning, evs, failed, frames);
  }

  lemma ServedAsSaid(writer: Schedule, emitReasoning: bool, evs: seq<Event>, failed: bool, frames: seq<Frame>)
    requires EndsAsSaid(OwnPayloads(writer, emitReasoning, evs), failed)
    requires Serves(frames, writer, emitReasoning, evs, failed)
    ensures DoneAtMostLast(DropPings(frames), Terminated(writer, emitReasoning, evs, failed))
  {
    var all, own, message, at, done := OwnFrames(frames, writer, emitReasoning, evs, failed);
    TailedEnds(all, own, message, OwnPayloads(writer, emitReasoning, evs), writer, at, failed, done);
  }

  /** The frames of a request taken apart. */
  lemma OwnFrames(frames: seq<Frame>, writer: Schedule, emitReasoning: bool, evs: seq<Event>, failed: bool)
    returns (all: seq<Frame>, own: seq<Frame>, message: string, at: nat, done: bool)
    requires Serves(frames, writer, emitReasoning, evs, failed)
    ensures all == DropPings(frames) && done == Terminated(writer, emitReasoning, evs, failed)
    ensures ServedBy(all, own, message, OwnPayloads(writer, emitReasoning, evs), writer, at, failed)
    ensures done <==> (failed ==> writer(at + 1))
  {
    all, at := DropPings(frames), TailAt(writer, emitReasoning, evs);
    done := Terminated(writer, emitReasoning, evs, failed);
    message :| ServesSaying(frames, writer, emitReasoning, evs, failed, message);
    own :| ServedBy(all, own, message, OwnPayloads(writer, emitReasoning, evs), writer, at, failed);
  }

  /** What is read of frames that say [DONE] last or not at all. */
  lemma ReadsOneDone(codec: Codec, frames: seq<Frame>, done: bool, failure: Option<Failure>)
    requires Lawful(codec) && DoneAtMostLast(DropPings(frames), done)
    ensures ReadsDoneAtMostLast(Dispatched(Body(Wire(codec, frames), failure)), AllFit(codec, frames) && done)
  {
    var fit := Fitting(codec, frames);
    FramesReadBack(codec, frames, failure);
    PingsAreNoEvents(codec, fit);
    if AllFit(codec, frames) {
      FramesReadDone(codec, DropPings(fit), done);
    } else {
      BrokenReadsNoDone(codec, frames, done);
      FramesReadDone(codec, DropPings(fit), false);
    }
  }

  lemma RunEndsOnce(w: World, model: Model, base: CompletionRequest, writer: Schedule)
    requires Answers(w, model, base)
    ensures var o := RunOn(w, model, base, writer);
            && EndsOnce(o.stage.evs, o.ruling.err.Some?)
            && Observed(writer, RunFrom(w.emitProgress), w.emitProgress, o.stage.evs)
  {
    SomeScheduleIsObserved(w, model, base, writer);
    SinkProtocol(w, ScheduleOn(w, model, base, writer), 0, model, base);
  }

  /** The frames of a whole request on a writer. */
  ghost predicate ServesRun(frames: seq<Frame>, w: World, model: Model, base: CompletionRequest, writer: Schedule)
    requires Answers(w, model, base)
  {
    var o := RunOn(w, model, base, writer);
    Serves(frames, writer, w.emitProgress, o.stage.evs, o.ruling.err.Some?)
  }

  /** The terminator of a whole request was written. */
  predicate RunTerminated(w: World, model: Model, base: CompletionRequest, writer: Schedule)
    requires Answers(w, model, base)
  {
    var o := RunOn(w, model, base, writer);
    Terminated(writer, w.emitProgress, o.stage.evs, o.ruling.err.Some?)
  }

  /** For every upstream behaviour and every pattern of failing writes, wherever heartbeats fall: the
      client never reads anything after [DONE], and reads it at all exactly when no line is too long for
      it and the terminator was written, which a run without an error guarantees. */
  lemma ExactlyOneDone(w: World, model: Model, base: CompletionRequest, writer: Schedule, codec: Codec,
                       frames: seq<Frame>, failure: Option<Failure>)
    requires Answers(w, model, base) && Lawful(codec) && ServesRun(frames, w, model, base, writer)
    ensures ReadsDoneAtMostLast(Dispatched(Body(Wire(codec, frames), failure)),
                                AllFit(codec, frames) && RunTerminated(w, model, base, writer))
    ensures RunOn(w, model, base, writer).ruling.err.None? ==> RunTerminated(w, model, base, writer)
  {
    var o := RunOn(w, model, base, writer);
    RunEndsOnce(w, model, base, writer);
    ServedEnd(writer, w.emitProgress, o.stage.evs, o.ruling.err.Some?, frames);
    ReadsOneDone(codec, frames, RunTerminated(w, model, base, writer), failure);
  }

  /** The same over every interleaving of the request with the heartbeat: what counts is what the
      request itself got written before it closed the writer. */
  lemma OneDoneDespiteHeartbeats(w: World, model: Model, base: CompletionRequest, writer: Schedule, codec: Codec,
                                 s: Heartbeat.State, early: seq<Frame>, frames: seq<Frame>,
                                 actions: seq<Heartbeat.Action>, t: Heartbeat.State, failure: Option<Failure>)
    requires Answers(w, model, base) && Lawful(codec) && ServesRun(early + frames, w, model, base, writer)
    requires Heartbeat.Initial(codec, s, Heartbeat.Sends(frames) + [Heartbeat.Close], early)
    requires Heartbeat.Reaches(codec, s, actions, t) && t.ops == []
    requires forall k :: 0 <= k < |early + frames| ==> !(early + frames)[k].PingFrame?
    ensures ReadsDoneAtMostLast(Dispatched(Body(t.wire, failure)),
                                AllFit(codec, early + frames) && RunTerminated(w, model, base, writer))
  {
    var o := RunOn(w, model, base, writer);
    HeartbeatsAside(codec, s, early, frames, actions, t);
    ServesAlike(early + frames, t.frames, writer, w.emitProgress, o.stage.evs, o.ruling.err.Some?);
    ExactlyOneDone(w, model, base, writer, codec, t.frames, failure);
  }

  lemma HeartbeatsAside(codec: Codec, s: Heartbeat.State, early: seq<Frame>, frames: seq<Frame>,
                        actions: seq<Heartbeat.Action>, t: Heartbeat.State)
    requires Heartbeat.Initial(codec, s, Heartbeat.Sends(frames) + [Heartbeat.Close], early)
    requires Heartbeat.Reaches(codec, s, actions, t) && t.ops == []
    requires forall k :: 0 <= k < |early + frames| ==> !(early + frames)[k].PingFrame?
    ensures t.wire == Wire(codec, t.frames) && DropPings(t.frames) == DropPings(early + frames)
    ensures AllFit(codec, t.frames) <==> AllFit(codec, early + frames)
  {
    NoPingsWithin(early + frames);
    forall k | 0 <= k < |frames| ensures !frames[k].PingFrame? {
      assert (early + frames)[|early| + k] == frames[k];
    }
    Heartbeat.SentAndClosed(codec, s, early, frames, actions, t);
    PingsDoNotMatter(codec, t.frames);
  }

  lemma ServesAlike(frames: seq<Frame>, frames': seq<Frame>, writer: Schedule, emitReasoning: bool, evs: seq<Event>,
                    failed: bool)
    requires DropPings(frames) == DropPings(frames') && Serves(frames, writer, emitReasoning, evs, failed)
    ensures Serves(frames', writer, emitReasoning, evs, failed)
  {
    var message: string :| ServesSaying(frames, writer, emitReasoning, evs, failed, message);
    assert ServesSaying(frames', writer, emitReasoning, evs, failed, message);
  }

  lemma {:induction false} NoPingsWithin(frames: seq<Frame>)
    ensures |DropPings(frames)| <= |frames|
    ensures DropPings(frames) == frames <==> forall k :: 0 <= k < |frames| ==> !frames[k].PingFrame?
  {
    if frames != [] {
      NoPingsWithin(frames[1..]);
      assert frames == [frames[0]] + frames[1..];
    }
  }

  // ---------- Writing it ----------

  /** Hands calls to the adapter, and notes which of them it took. */
  method Feed(sink: SseSink, calls: seq<Call>) returns (evs: seq<Event>)
    requires sink.sse.Valid() && !sink.sse.closed
    modifies sink.sse
    ensures sink.sse.Valid() && !sink.sse.closed && old(sink.sse.frames) <= sink.sse.frames
    ensures Fed(sink.sse.frames[|old(sink.sse.frames)|..], sink.sse.writes, sink.sse.accepts, old(sink.sse.writes),
                sink.emitReasoning, calls, evs)
  {
    var sse := sink.sse;
    evs := [];
    ghost var before, from, emit := sse.frames, sse.writes, sink.emitReasoning;
    ghost var sent: seq<Frame> := [];
    FedNothing(sse.accepts, from, emit);
    assert before + [] == before;
    for i := 0 to |calls|
      invariant sse.Valid() && !sse.closed && sse.frames == before + sent
      invariant FedUpTo(sent, sse.writes, sse.accepts, from, emit, calls, i, evs)
    {
      evs, sent := FeedOne(sink, calls, i, evs, before, sent, from);
    }
    assert calls[..|calls|] == calls && sse.frames[|before|..] == sent;
  }

  method FeedOne(sink: SseSink, calls: seq<Call>, i: nat, evs: seq<Event>, ghost before: seq<Frame>,
                 ghost sent: seq<Frame>, ghost from: nat)
    returns (evs': seq<Event>, ghost sent': seq<Frame>)
    requires sink.sse.Valid() && !sink.sse.closed && sink.sse.frames == before + sent && i < |calls|
    requires FedUpTo(sent, sink.sse.writes, sink.sse.accepts, from, sink.emitReasoning, calls, i, evs)
    modifies sink.sse
    ensures sink.sse.Valid() && !sink.sse.closed && sink.sse.frames == before + sent'
    ensures FedUpTo(sent', sink.sse.writes, sink.sse.accepts, from, sink.emitReasoning, calls, i + 1, evs')
  {
    ghost var sofar, mid := sink.sse.frames, sink.sse.writes;
    var ok := Hand(sink, calls[i]);
    ghost var more := sink.sse.frames[|sofar|..];
    sent' := sent + more;
    evs' := evs + [Event(calls[i], ok)];
    FedOneMore(sent, more, mid, sink.sse.accepts, from, sink.emitReasoning, calls, i, evs, ok);
  }

  ghost predicate FedUpTo(frames: seq<Frame>, writes: nat, writer: Schedule, from: nat, emitReasoning: bool,
                          calls: seq<Call>, n: nat, evs: seq<Event>)
  {
    n <= |calls| && Fed(frames, writes, writer, from, emitReasoning, calls[..n], evs)
  }

  /** Where the writer stands when some calls have been handed to it. */
  ghost predicate Fed(frames: seq<Frame>, writes: nat, writer: Schedule, from: nat, emitReasoning: bool,
                      calls: seq<Call>, evs: seq<Event>)
  {
    && CarriesAll(frames, WirePayloads(writer, from, emitReasoning, calls))
    && writes == WritesAfter(writer, from, emitReasoning, calls)
    && CallsOf(evs) == calls && Observed(writer, from, emitReasoning, evs)
  }

  lemma FedNothing(writer: Schedule, from: nat, emitReasoning: bool)
    ensures Fed([], from, writer, from, emitReasoning, [], [])
  {
  }

  lemma FedOn(frames: seq<Frame>, more: seq<Frame>, writes: nat, writer: Schedule, from: nat, emitReasoning: bool,
              calls: seq<Call>, evs: seq<Event>, e: Event)
    requires Fed(frames, writes, writer, from, emitReasoning, calls, evs)
    requires CarriesAll(more, Wrote(writer, writes, emitReasoning, e.call))
    requires e.ok == GotThrough(writer, writes, emitReasoning, e.call)
    ensures Fed(frames + more, Next(writer, writes, emitReasoning, e.call), writer, from, emitReasoning,
                calls + [e.call], evs + [e])
  {
    WirePayloadsAppend(writer, from, emitReasoning, calls, e.call);
    WritesAfterAppend(writer, from, emitReasoning, calls, e.call);
    ObservedAppend(writer, from, emitReasoning, evs, e);
    CarriesTogether(frames, more, WirePayloads(writer, from, emitReasoning, calls),
                    Wrote(writer, writes, emitReasoning, e.call));
    CallsOfAppend(evs, e);
  }

  lemma CarriesTogether(f: seq<Frame>, g: seq<Frame>, a: seq<Payload>, b: seq<Payload>)
    requires CarriesAll(f, a) && CarriesAll(g, b)
    ensures CarriesAll(f + g, a + b)
  {
    forall k | 0 <= k < |f| + |g| ensures Carries((f + g)[k], (a + b)[k]) {
      assert k >= |f| ==> Carries(g[k - |f|], b[k - |f|]);
    }
  }

  lemma FedOneMore(frames: seq<Frame>, more: seq<Frame>, writes: nat, writer: Schedule, from: nat, emitReasoning: bool,
                   calls: seq<Call>, i: nat, evs: seq<Event>, ok: bool)
    requires i < |calls| && FedUpTo(frames, writes, writer, from, emitReasoning, calls, i, evs)
    requires CarriesAll(more, Wrote(writer, writes, emitReasoning, calls[i]))
    requires ok == GotThrough(writer, writes, emitReasoning, calls[i])
    ensures FedUpTo(frames + more, Next(writer, writes, emitReasoning, calls[i]), writer, from, emitReasoning, calls,
                    i + 1, evs + [Event(calls[i], ok)])
  {
    FedOn(frames, more, writes, writer, from, emitReasoning, calls[..i], evs, Event(calls[i], ok));
    assert calls[..i + 1] == calls[..i] + [calls[i]];
  }

  method Hand(sink: SseSink, call: Call) returns (ok: bool)
    requires sink.sse.Valid() && !sink.sse.closed
    modifies sink.sse
    ensures sink.sse.Valid() && !sink.sse.closed
    ensures var (writer, at, emit) := (sink.sse.accepts, old(sink.sse.writes), sink.emitReasoning);
            && old(sink.sse.frames) <= sink.sse.frames
            && CarriesAll(sink.sse.frames[|old(sink.sse.frames)|..], Wrote(writer, at, emit, call))
            && ok == GotThrough(writer, at, emit, call) && sink.sse.writes == Next(writer, at, emit, call)
  {
    match call
    case Emit(d) => ok := sink.Delta(d);
    case Finish(reason) => ok := sink.Done(reason);
  }

  /** The handler's part in the stream: role chunk, the run's calls, and after a failed run the error
      event and the terminator, whatever the writer makes of any of them. */
  method ServeStream(sink: SseSink, calls: seq<Call>, failed: bool, message: string) returns (evs: seq<Event>)
    requires sink.sse.Valid() && !sink.sse.closed && sink.sse.frames == [] && sink.sse.writes == 0
    modifies sink.sse
    ensures sink.sse.Valid() && sink.sse.closed && CallsOf(evs) == calls
    ensures Observed(sink.sse.accepts, RunFrom(sink.emitReasoning), sink.emitReasoning, evs)
    ensures ServesSaying(sink.sse.frames, sink.sse.accepts, sink.emitReasoning, evs, failed, message)
  {
    var sse := sink.sse;
    ghost var emit, writer := sink.emitReasoning, sse.accepts;
    evs := WriteRun(sink, calls);
    ghost var own := sse.frames;
    SendErrorTail(sse, failed, message);
    sse.Close();
    assert ServedBy(sse.frames, own, message, OwnPayloads(writer, emit, evs), writer, TailAt(writer, emit, evs),
                    failed);
    HasNoPings(sse.frames, own, message, OwnPayloads(writer, emit, evs), writer, TailAt(writer, emit, evs), failed);
  }

  /** A closed writer with all that a request puts on the wire. */
  ghost predicate StreamedOut(sse: SSEWriter, emitReasoning: bool, o: Outcome, describe: Failure -> string)
    reads sse
  {
    && sse.Valid() && sse.closed
    && ServesSaying(sse.frames, sse.accepts, emitReasoning, o.stage.evs, o.ruling.err.Some?,
                    if o.ruling.err.Some? then describe(o.ruling.err.value) else "")
  }

  /** A whole request: the run on the adapter, and what it leaves on the wire. The calls of the run and
      what they return are those of the adapter on this writer, so they are written once it has ended. */
  method ServeRun(w: World, model: Model, base: CompletionRequest, sink: SseSink,
                  pick: (nat, Panel.State) -> Panel.Action, describe: Failure -> string)
    returns (dec: Decision, err: Option<Failure>, ghost o: Outcome)
    requires Answers(w, model, base) && sink.emitReasoning == w.emitProgress
    requires sink.sse.Valid() && !sink.sse.closed && sink.sse.frames == [] && sink.sse.writes == 0
    modifies sink.sse
    ensures IsRunOn(o, w, model, base, sink.sse.accepts) && dec == Stamp(o) && err == o.ruling.err
    ensures StreamedOut(sink.sse, w.emitProgress, o, describe)
  {
    var calls;
    calls, dec, err, o := RunOnAdapter(w, model, base, sink.sse.accepts, pick);
    OneRunOn(w, model, base, sink.sse.accepts, o);
    var evs := ServeStream(sink, calls, err.Some?, if err.Some? then describe(err.value) else "");
    ObservedOnce(sink.sse.accepts, RunFrom(w.emitProgress), w.emitProgress, evs, o.stage.evs);
  }

  lemma NothingBefore(evs: seq<Event>)
    ensures [] + evs == evs
  {
  }

  method RunOnAdapter(w: World, model: Model, base: CompletionRequest, writer: Schedule,
                      pick: (nat, Panel.State) -> Panel.Action)
    returns (calls: seq<Call>, dec: Decision, err: Option<Failure>, ghost o: Outcome)
    requires Answers(w, model, base)
    ensures o == RunOn(w, model, base, writer) && calls == CallsOf(o.stage.evs)
    ensures dec == Stamp(o) && err == o.ruling.err
    ensures Observed(writer, RunFrom(w.emitProgress), w.emitProgress, o.stage.evs)
  {
    var client := new ClientSink(ScheduleOn(w, model, base, writer));
    var pipeline := new Pipeline(w);
    var log;
    dec, err, log := pipeline.Run(model, base, client, pick);
    o := RunOn(w, model, base, writer);
    NothingBefore(o.stage.evs);
    calls := CallsOf(client.trace);
    SomeScheduleIsObserved(w, model, base, writer);
  }

  /** So whoever reads such a response reads [DONE] last or not at all, and at all exactly when it was
      written and no line is too long. */
  lemma ResponseSaysDoneOnce(sse: SSEWriter, w: World, model: Model, base: CompletionRequest, o: Outcome,
                             describe: Failure -> string, failure: Option<Failure>)
    requires Lawful(sse.codec) && IsRunOn(o, w, model, base, sse.accepts)
    requires StreamedOut(sse, w.emitProgress, o, describe)
    ensures ReadsDoneAtMostLast(Dispatched(Body(sse.wire, failure)),
                                AllFit(sse.codec, sse.frames) && RunTerminated(w, model, base, sse.accepts))
  {
    OneRunOn(w, model, base, sse.accepts, o);
    ExactlyOneDone(w, model, base, sse.accepts, sse.codec, sse.frames, failure);
  }

  lemma HasNoPings(all: seq<Frame>, own: seq<Frame>, message: string, ps: seq<Payload>, writer: Schedule, at: nat,
                   failed: bool)
    requires ServedBy(all, own, message, ps, writer, at, failed)
    ensures DropPings(all) == all
  {
    OwnFramesSay(own, ps);
    NoPingsWithin(all);
  }

  /** The role chunk and the run's calls. */
  method WriteRun(sink: SseSink, calls: seq<Call>) returns (evs: seq<Event>)
    requires sink.sse.Valid() && !sink.sse.closed && sink.sse.frames == [] && sink.sse.writes == 0
    modifies sink.sse
    ensures sink.sse.Valid() && !sink.sse.closed && CallsOf(evs) == calls
    ensures Observed(sink.sse.accepts, RunFrom(sink.emitReasoning), sink.emitReasoning, evs)
    ensures CarriesAll(sink.sse.frames, OwnPayloads(sink.sse.accepts, sink.emitReasoning, evs))
    ensures sink.sse.writes == TailAt(sink.sse.accepts, sink.emitReasoning, evs)
  {
    ghost var emit, writer := sink.emitReasoning, sink.sse.accepts;
    SendRole(sink);
    ghost var role := sink.sse.frames;
    evs := Feed(sink, calls);
    CarriesTogether(role, sink.sse.frames[|role|..], RoleWritten(writer, emit),
                    WirePayloads(writer, RunFrom(emit), emit, calls));
    assert role + sink.sse.frames[|role|..] == sink.sse.frames;
  }

  method SendErrorTail(sse: SSEWriter, failed: bool, message: string)
    requires sse.Valid() && !sse.closed
    modifies sse
    ensures sse.Valid() && !sse.closed
    ensures sse.frames == old(sse.frames) + ErrorTail(sse.accepts, old(sse.writes), failed, message)
  {
    if failed {
      var _ := sse.WriteFrame(ErrorFrame(message));
      var _ := sse.WriteFrame(DoneFrame);
    }
  }

  /** The role chunk, whose failure is ignored. */
  method SendRole(sink: SseSink)
    requires sink.sse.Valid() && !sink.sse.closed && sink.sse.frames == [] && sink.sse.writes == 0
    modifies sink.sse
    ensures sink.sse.Valid() && !sink.sse.closed && sink.sse.writes == RunFrom(sink.emitReasoning)
    ensures CarriesAll(sink.sse.frames, RoleWritten(sink.sse.accepts, sink.emitReasoning))
  {
    if sink.emitReasoning {
      var _ := sink.sse.WriteChunk(NO_DELTA.(role := "assistant"), None);
    }
  }
}

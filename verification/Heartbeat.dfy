/** The request goroutine and the heartbeat goroutine sharing one stream writer, as a step machine
    (internal/server/stream.go:55-78, 133-163, 179-207). Bytes are written one at a time, so the two
    goroutines interleave at every point the mutex allows. */
module Heartbeat {
  import opened Wrappers
  import opened Seqs
  import opened Providers
  import opened Transport
  import opened SseWriting
  import opened SseReading

  /** What the request goroutine still has to do. */
  datatype Op = Send(frame: Frame) | Close

  datatype Owner = Nobody | Request | Beat

  /** Program counter of the request goroutine inside its current operation. */
  datatype RequestPc =
    | Outside                           // before the lock
    | Looking                           // holds the lock, about to test `closed`
    | Putting(todo: string)             // holds the lock, bytes of the frame left
    | Marking                           // holds the lock, about to set `closed`
    | Marked                            // has released the lock, about to signal the heartbeat
    | Awaiting                          // waits for the heartbeat to be gone

  /** Program counter of the heartbeat goroutine. */
  datatype BeatPc =
    | Absent                            // never started
    | Selecting                         // in the select between stop and tick
    | Ticked                            // before the lock
    | Testing                           // holds the lock, about to test `closed`
    | Beating(ping: Frame, todo: string) // holds the lock, bytes of the ping left
    | Gone

  datatype State = State(
    ops: seq<Op>, request: RequestPc, beat: BeatPc, owner: Owner,
    closed: bool, stop: bool, started: bool,
    wire: string, frames: seq<Frame>)

  /** One step of one goroutine; `time` is what the clock says when a ping is formatted. */
  datatype Action = RequestStep | Tick | BeatStep(time: UnixTime) | BeatStop

  predicate Enabled(s: State, a: Action) {
    match a
    case RequestStep =>
      s.ops != [] && (s.request.Outside? ==> s.owner.Nobody?) && (s.request.Awaiting? ==> s.beat.Gone?)
    case Tick => s.beat.Selecting?
    case BeatStep(_) => (s.beat.Ticked? && s.owner.Nobody?) || s.beat.Testing? || s.beat.Beating?
    case BeatStop => s.beat.Selecting? && s.stop
  }

  function Apply(codec: Codec, s: State, a: Action): State
    requires Enabled(s, a)
  {
    match a
    case RequestStep => StepRequest(codec, s)
    case Tick => s.(beat := Ticked)
    case BeatStep(time) => StepBeat(codec, s, time)
    case BeatStop => s.(beat := Gone)
  }

  function StepRequest(codec: Codec, s: State): State
    requires s.ops != []
  {
    var finished := s.(ops := s.ops[1..], request := Outside);
    match s.request
    case Outside => s.(owner := Request, request := if s.ops[0].Send? then Looking else Marking)
    case Looking =>
      if s.closed || s.ops[0].Close? then finished.(owner := Nobody)
      else s.(request := Putting(FrameBytes(codec, s.ops[0].frame)))
    case Putting(todo) =>
      if todo != "" then s.(wire := s.wire + todo[..1], request := Putting(todo[1..]))
      else if s.ops[0].Send? then finished.(owner := Nobody, frames := s.frames + [s.ops[0].frame])
      else finished.(owner := Nobody)
    case Marking => s.(closed := true, owner := Nobody, request := Marked)
    case Marked => if s.started then s.(stop := true, request := Awaiting) else finished
    case Awaiting => finished.(started := false)
  }

  function StepBeat(codec: Codec, s: State, time: UnixTime): State {
    match s.beat
    case Ticked => s.(owner := Beat, beat := Testing)
    case Testing =>
      if s.closed then s.(owner := Nobody, beat := Gone)
      else s.(beat := Beating(PingFrame(time), FrameBytes(codec, PingFrame(time))))
    case Beating(ping, todo) =>
      if todo != "" then s.(wire := s.wire + todo[..1], beat := Beating(ping, todo[1..]))
      else s.(owner := Nobody, beat := Selecting, frames := s.frames + [ping])
    case _ => s
  }

  /** The writer with some frames already out, before the heartbeat's first step. */
  predicate Initial(codec: Codec, s: State, ops: seq<Op>, early: seq<Frame>) {
    && s.ops == ops && s.request.Outside? && s.owner.Nobody? && !s.closed && !s.stop
    && s.beat == (if s.started then Selecting else Absent)
    && s.frames == early && s.wire == Wire(codec, early) && DropPings(early) == early
  }

  /** A run is any list of steps, each enabled when it is taken. */
  ghost predicate Reaches(codec: Codec, s: State, actions: seq<Action>, t: State)
    decreases |actions|
  {
    if actions == [] then s == t
    else Enabled(s, actions[0]) && Reaches(codec, Apply(codec, s, actions[0]), actions[1..], t)
  }

  /** The frames an operation list puts on the wire: those before the writer is closed. */
  function Plan(ops: seq<Op>): seq<Frame> {
    if ops == [] || ops[0].Close? then [] else [ops[0].frame] + Plan(ops[1..])
  }

  // ---------- The invariant ----------

  /** The part of the current frame that is out already. */
  ghost predicate HalfWritten(codec: Codec, s: State, f: Frame, todo: string) {
    exists done :: Halves(Wire(codec, s.frames), s.wire, FrameBytes(codec, f), done, todo)
  }

  predicate Halves(before: string, wire: string, bytes: string, done: string, todo: string) {
    done + todo == bytes && wire == before + done
  }

  ghost predicate LockInvariant(codec: Codec, s: State) {
    && (s.owner.Request? <==> s.request.Looking? || s.request.Putting? || s.request.Marking?)
    && (s.owner.Beat? <==> s.beat.Testing? || s.beat.Beating?)
    && (match s.owner
        case Nobody => s.wire == Wire(codec, s.frames)
        case Request =>
          if s.request.Putting? then
            s.ops != [] && s.ops[0].Send? && HalfWritten(codec, s, s.ops[0].frame, s.request.todo)
          else s.wire == Wire(codec, s.frames)
        case Beat =>
          if s.beat.Beating? then s.beat.ping.PingFrame? && HalfWritten(codec, s, s.beat.ping, s.beat.todo)
          else s.wire == Wire(codec, s.frames))
  }

  ghost predicate CloseInvariant(s: State) {
    && (s.closed ==> !s.request.Putting? && !s.beat.Beating?)
    && (s.request.Looking? || s.request.Putting? ==> s.ops != [] && s.ops[0].Send?)
    && (s.request.Marking? || s.request.Marked? || s.request.Awaiting? ==> s.ops != [] && s.ops[0].Close?)
    && (s.request.Marked? || s.request.Awaiting? ==> s.closed)
    && (s.request.Awaiting? ==> s.started)
    && (s.stop ==> s.closed)
    && (s.started && s.stop ==> s.request.Awaiting?)
    && (s.request.Awaiting? ==> s.stop)
    && (s.started ==> !s.beat.Absent?)
    && (!s.started ==> s.beat.Absent? || s.beat.Gone?)
    && (s.beat.Gone? ==> s.closed)
    && (s.closed && s.started ==> s.request.Marked? || s.request.Awaiting?)
  }

  /** What is out, heartbeats aside, and what is still to come add up to the plan. */
  ghost predicate PlanInvariant(s: State, plan: seq<Frame>) {
    plan == DropPings(s.frames) + (if s.closed then [] else Plan(s.ops))
  }

  ghost predicate Inv(codec: Codec, s: State, plan: seq<Frame>) {
    LockInvariant(codec, s) && CloseInvariant(s) && PlanInvariant(s, plan)
  }

  lemma DropPingsSnoc(frames: seq<Frame>, f: Frame)
    ensures DropPings(frames + [f]) == DropPings(frames) + (if f.PingFrame? then [] else [f])
  {
    FlattenAppend(UnlessPing, frames, [f]);
    FlattenOne(UnlessPing, f);
  }

  lemma WireSnoc(codec: Codec, frames: seq<Frame>, f: Frame)
    ensures Wire(codec, frames + [f]) == Wire(codec, frames) + FrameBytes(codec, f)
  {
    WireAppend(codec, frames, [f]);
    assert [f][1..] == [];
    assert Wire(codec, [f]) == FrameBytes(codec, f) + "";
  }

  /** Frames on the wire are never pings unless the heartbeat wrote them. */
  predicate NoPings(ops: seq<Op>) {
    forall k :: 0 <= k < |ops| ==> ops[k].Send? ==> !ops[k].frame.PingFrame?
  }

  lemma OneMoreByte(codec: Codec, s: State, t: State, f: Frame, todo: string)
    requires HalfWritten(codec, s, f, todo) && todo != ""
    requires t.frames == s.frames && t.wire == s.wire + todo[..1]
    ensures HalfWritten(codec, t, f, todo[1..])
  {
    var done :| Halves(Wire(codec, s.frames), s.wire, FrameBytes(codec, f), done, todo);
    ByteMoved(Wire(codec, s.frames), s.wire, FrameBytes(codec, f), done, todo);
    assert Halves(Wire(codec, t.frames), t.wire, FrameBytes(codec, f), done + todo[..1], todo[1..]);
  }

  lemma ByteMoved(before: string, wire: string, bytes: string, done: string, todo: string)
    requires Halves(before, wire, bytes, done, todo) && todo != ""
    ensures Halves(before, wire + todo[..1], bytes, done + todo[..1], todo[1..])
  {
    assert todo == todo[..1] + todo[1..];
    assert done + todo[..1] + todo[1..] == done + (todo[..1] + todo[1..]);
    assert before + done + todo[..1] == before + (done + todo[..1]);
  }

  lemma WholeFrame(codec: Codec, s: State, f: Frame)
    requires HalfWritten(codec, s, f, "")
    ensures s.wire == Wire(codec, s.frames + [f])
  {
    var done :| Halves(Wire(codec, s.frames), s.wire, FrameBytes(codec, f), done, "");
    assert done + "" == done;
    WireSnoc(codec, s.frames, f);
  }

  lemma ClosePreserved(codec: Codec, s: State, a: Action)
    requires LockInvariant(codec, s) && CloseInvariant(s) && Enabled(s, a)
    ensures CloseInvariant(Apply(codec, s, a))
  {
  }

  lemma RequestKeepsLock(codec: Codec, s: State)
    requires LockInvariant(codec, s) && CloseInvariant(s) && Enabled(s, RequestStep)
    ensures LockInvariant(codec, Apply(codec, s, RequestStep))
  {
    var t := Apply(codec, s, RequestStep);
    match s.request
    case Looking =>
      NothingWritten(codec, s, s.ops[0].frame);
    case Putting(todo) =>
      if todo != "" {
        OneMoreByte(codec, s, t, s.ops[0].frame, todo);
      } else {
        WholeFrame(codec, s, s.ops[0].frame);
      }
    case _ =>
  }

  lemma BeatKeepsLock(codec: Codec, s: State, time: UnixTime)
    requires LockInvariant(codec, s) && CloseInvariant(s) && Enabled(s, BeatStep(time))
    ensures LockInvariant(codec, Apply(codec, s, BeatStep(time)))
  {
    var t := Apply(codec, s, BeatStep(time));
    match s.beat
    case Testing =>
      NothingWritten(codec, s, PingFrame(time));
    case Beating(ping, todo) =>
      if todo != "" {
        OneMoreByte(codec, s, t, ping, todo);
      } else {
        WholeFrame(codec, s, ping);
      }
    case _ =>
  }

  /** Before its first byte a frame is all still to be written. */
  lemma NothingWritten(codec: Codec, s: State, f: Frame)
    requires s.wire == Wire(codec, s.frames)
    ensures HalfWritten(codec, s, f, FrameBytes(codec, f))
  {
    assert "" + FrameBytes(codec, f) == FrameBytes(codec, f);
    assert s.wire == Wire(codec, s.frames) + "";
    assert Halves(Wire(codec, s.frames), s.wire, FrameBytes(codec, f), "", FrameBytes(codec, f));
  }

  lemma LockPreserved(codec: Codec, s: State, a: Action)
    requires LockInvariant(codec, s) && CloseInvariant(s) && Enabled(s, a)
    ensures LockInvariant(codec, Apply(codec, s, a))
  {
    match a
    case RequestStep => RequestKeepsLock(codec, s);
    case BeatStep(time) => BeatKeepsLock(codec, s, time);
    case _ =>
  }

  lemma PlanPreserved(codec: Codec, s: State, a: Action, plan: seq<Frame>)
    requires LockInvariant(codec, s) && CloseInvariant(s) && PlanInvariant(s, plan) && NoPings(s.ops) && Enabled(s, a)
    ensures PlanInvariant(Apply(codec, s, a), plan) && NoPings(Apply(codec, s, a).ops)
  {
    if a.RequestStep? && s.request.Putting? && s.request.todo == "" {
      var f := s.ops[0].frame;
      DropPingsSnoc(s.frames, f);
      assert Plan(s.ops) == [f] + Plan(s.ops[1..]);
    } else if a.BeatStep? && s.beat.Beating? && s.beat.todo == "" {
      DropPingsSnoc(s.frames, s.beat.ping);
    }
  }

  lemma InvInitially(codec: Codec, s: State, ops: seq<Op>, early: seq<Frame>)
    requires Initial(codec, s, ops, early)
    ensures Inv(codec, s, early + Plan(ops))
  {
  }

  lemma {:induction false} InvAlways(codec: Codec, s: State, actions: seq<Action>, t: State, plan: seq<Frame>)
    requires Inv(codec, s, plan) && NoPings(s.ops) && Reaches(codec, s, actions, t)
    ensures Inv(codec, t, plan) && NoPings(t.ops)
    decreases |actions|
  {
    if actions != [] {
      LockPreserved(codec, s, actions[0]);
      ClosePreserved(codec, s, actions[0]);
      PlanPreserved(codec, s, actions[0], plan);
      InvAlways(codec, Apply(codec, s, actions[0]), actions[1..], t, plan);
    }
  }

  // ---------- The theorems ----------

  /** In every reachable state: while the lock is free the wire is a concatenation of whole frames,
      the request's own frames are out in program order, and once it has done everything they are all
      out up to the close and, if it closed a started writer, the heartbeat goroutine is finished. */
  lemma WholeFramesInOrder(codec: Codec, s: State, ops: seq<Op>, early: seq<Frame>, actions: seq<Action>, t: State)
    requires Initial(codec, s, ops, early) && NoPings(ops) && Reaches(codec, s, actions, t)
    ensures t.owner.Nobody? ==> t.wire == Wire(codec, t.frames)
    ensures DropPings(t.frames) <= early + Plan(ops)
    ensures t.ops == [] ==> t.owner != Request && DropPings(t.frames) == early + Plan(ops)
    ensures t.ops == [] && t.closed && s.started ==> t.beat.Gone? && t.wire == Wire(codec, t.frames)
  {
    InvInitially(codec, s, ops, early);
    InvAlways(codec, s, actions, t, early + Plan(ops));
    StartedStays(codec, s, actions, t);
  }

  lemma {:induction false} StartedStays(codec: Codec, s: State, actions: seq<Action>, t: State)
    requires Reaches(codec, s, actions, t)
    ensures s.beat.Absent? <==> t.beat.Absent?
    decreases |actions|
  {
    if actions != [] {
      StartedStays(codec, Apply(codec, s, actions[0]), actions[1..], t);
    }
  }

  /** Nothing is written once `closed` is set. */
  lemma {:induction false} ClosedIsFinal(codec: Codec, s: State, actions: seq<Action>, t: State)
    requires LockInvariant(codec, s) && CloseInvariant(s) && s.closed && Reaches(codec, s, actions, t)
    ensures t.closed && t.wire == s.wire && t.frames == s.frames
    decreases |actions|
  {
    if actions != [] {
      LockPreserved(codec, s, actions[0]);
      ClosePreserved(codec, s, actions[0]);
      ClosedIsFinal(codec, Apply(codec, s, actions[0]), actions[1..], t);
    }
  }

  /** Steps left after the writer is closed. */
  function StepsLeft(s: State): nat {
    8 * |s.ops|
    - (if s.ops == [] then 0 else match s.request case Outside => 0 case Looking => 1 case Putting(_) => 2
                                   case Marking => 1 case Marked => 2 case Awaiting => 3)
    + (match s.beat case Selecting => 3 case Ticked => 2 case Testing => 1 case _ => 0)
  }

  /** Closing terminates: after `closed` is set every step of either goroutine brings the end nearer,
      so no run goes on for more than StepsLeft steps, whatever the ticker does. */
  lemma {:induction false} ClosingTerminates(codec: Codec, s: State, actions: seq<Action>, t: State)
    requires LockInvariant(codec, s) && CloseInvariant(s) && s.closed && Reaches(codec, s, actions, t)
    ensures |actions| + StepsLeft(t) <= StepsLeft(s)
    decreases |actions|
  {
    if actions != [] {
      var next := Apply(codec, s, actions[0]);
      assert StepsLeft(next) < StepsLeft(s);
      LockPreserved(codec, s, actions[0]);
      ClosePreserved(codec, s, actions[0]);
      ClosingTerminates(codec, next, actions[1..], t);
    }
  }

  /** No deadlock: while the request has work left some goroutine can step without waiting for a tick. */
  lemma AlwaysAStep(codec: Codec, s: State)
    requires LockInvariant(codec, s) && CloseInvariant(s) && s.ops != []
    ensures Enabled(s, RequestStep) || Enabled(s, BeatStep(0)) || Enabled(s, BeatStop)
  {
  }

  function Sends(frames: seq<Frame>): seq<Op> {
    if frames == [] then [] else [Send(frames[0])] + Sends(frames[1..])
  }

  lemma {:induction false} PlanOfSends(frames: seq<Frame>)
    requires forall k :: 0 <= k < |frames| ==> !frames[k].PingFrame?
    ensures Plan(Sends(frames) + [Close]) == frames && NoPings(Sends(frames) + [Close])
  {
    if frames == [] {
      assert Sends(frames) + [Close] == [Close];
    } else {
      PlanOfSends(frames[1..]);
      assert Sends(frames) + [Close] == [Send(frames[0])] + (Sends(frames[1..]) + [Close]);
    }
  }

  /** The writer is closed, or closing it is the last thing to do. */
  predicate WillClose(s: State) {
    s.closed || (s.ops != [] && s.ops[|s.ops| - 1].Close?)
  }

  lemma {:induction false} WillCloseAlways(codec: Codec, s: State, actions: seq<Action>, t: State)
    requires LockInvariant(codec, s) && CloseInvariant(s) && WillClose(s) && Reaches(codec, s, actions, t)
    ensures WillClose(t)
    decreases |actions|
  {
    if actions != [] {
      LockPreserved(codec, s, actions[0]);
      ClosePreserved(codec, s, actions[0]);
      WillClosePreserved(codec, s, actions[0]);
      WillCloseAlways(codec, Apply(codec, s, actions[0]), actions[1..], t);
    }
  }

  lemma WillClosePreserved(codec: Codec, s: State, a: Action)
    requires LockInvariant(codec, s) && CloseInvariant(s) && WillClose(s) && Enabled(s, a)
    ensures WillClose(Apply(codec, s, a))
  {
  }

  /** What a request leaves on the wire that sends some frames and then closes the writer: those
      frames, heartbeats anywhere between them. */
  lemma SentAndClosed(codec: Codec, s: State, early: seq<Frame>, frames: seq<Frame>, actions: seq<Action>, t: State)
    requires Initial(codec, s, Sends(frames) + [Close], early) && Reaches(codec, s, actions, t) && t.ops == []
    requires forall k :: 0 <= k < |frames| ==> !frames[k].PingFrame?
    ensures t.wire == Wire(codec, t.frames) && DropPings(t.frames) == early + frames
  {
    PlanOfSends(frames);
    WholeFramesInOrder(codec, s, Sends(frames) + [Close], early, actions, t);
    InvInitially(codec, s, Sends(frames) + [Close], early);
    InvAlways(codec, s, actions, t, early + frames);
    WillCloseAlways(codec, s, actions, t);
    StartedStays(codec, s, actions, t);
  }

  /** End to end, over every interleaving: a request that sends the frames of a list of deltas and a
      finish reason and then closes the writer leaves on the wire a stream that a client reads back as
      exactly those deltas and that reason, as long as no frame has a line too long for it. */
  lemma StreamSurvivesHeartbeats(codec: Codec, s: State, early: seq<Frame>, frames: seq<Frame>, actions: seq<Action>,
                                 t: State, roleStart: bool, ds: seq<Delta>, reason: string, emitReasoning: bool,
                                 failure: Option<Failure>)
    requires Lawful(codec) && Initial(codec, s, Sends(frames) + [Close], early) && Reaches(codec, s, actions, t)
    requires t.ops == []
    requires forall k :: 0 <= k < |ds| ==> OneField(ds[k])
    requires CarriesAll(early + frames, StreamPayloads(roleStart, ds, reason, emitReasoning))
    ensures var r := OpenAI.StreamScript(codec.decode, Body(t.wire, failure));
            if AllFit(codec, early + frames) then r == Script(Visible(ds, emitReasoning), Finished(reason, NO_USAGE))
            else r.end == Broken(LineTooLong) && r.deltas <= Visible(ds, emitReasoning)
  {
    forall k | 0 <= k < |frames| ensures !frames[k].PingFrame? {
      assert Carries((early + frames)[|early| + k], StreamPayloads(roleStart, ds, reason, emitReasoning)[|early| + k]);
    }
    SentAndClosed(codec, s, early, frames, actions, t);
    PingsDoNotMatter(codec, t.frames);
    RoundTrip(codec, t.frames, roleStart, ds, reason, emitReasoning, failure);
  }
}

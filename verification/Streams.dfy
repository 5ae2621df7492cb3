/** What the two stream parsers share: a handler with captured state that turns each event of a
    response body into deltas on a sink, and Done at the end
    (internal/providers/openai.go:285-332, internal/providers/anthropic.go:460-513). */
module Streams {
  import opened Wrappers
  import opened Providers
  import opened Sinks
  import opened Transport

  /** A handler's reaction to one event: the deltas it emits, and how it goes on if the sink takes them. */
  datatype Reaction<+T> = Reaction(deltas: seq<Delta>, next: Next<T>)
  datatype Next<+T> = Go(captured: T) | StreamDone | Fail(failure: Failure)

  /** The finish reason and usage the captured state amounts to at the end of the stream. */
  type Closing<!T> = T -> (string, Usage)

  function Prepend(ds: seq<Delta>, s: Script): Script {
    s.(deltas := ds + s.deltas)
  }

  /** The script of the remaining events, given the captured state. */
  function ScriptOf<T>(handle: (T, SseEvent) -> Reaction<T>, close: Closing<T>, captured: T,
                       events: seq<SseEvent>, ending: Option<Failure>): Script
    decreases |events|, 1
  {
    if events == [] then Script([], EndOf(close, captured, ending))
    else
      var r := handle(captured, events[0]);
      Prepend(r.deltas, After(handle, close, captured, r.next, events[1..], ending))
  }

  /** The script after one event has been handled. */
  function After<T>(handle: (T, SseEvent) -> Reaction<T>, close: Closing<T>, captured: T, next: Next<T>,
                    events: seq<SseEvent>, ending: Option<Failure>): Script
    decreases |events|, 2
  {
    match next
    case Go(t) => ScriptOf(handle, close, t, events, ending)
    case StreamDone => Script([], EndOf(close, captured, None))
    case Fail(e) => Script([], Broken(e))
  }

  function EndOf<T>(close: Closing<T>, captured: T, ending: Option<Failure>): ScriptEnd {
    if ending.Some? then Broken(ending.value) else Finished(close(captured).0, close(captured).1)
  }

  function BodyScript<T>(handle: (T, SseEvent) -> Reaction<T>, close: Closing<T>, captured: T, body: Body): Script {
    ScriptOf(handle, close, captured, Dispatched(body), Ending(body))
  }

  function Collect(seen: seq<SseEvent>, ev: SseEvent): Step<seq<SseEvent>> {
    Continue(seen + [ev])
  }

  lemma {:induction false} CollectsAll(seen: seq<SseEvent>, events: seq<SseEvent>)
    ensures Fold(Collect, seen, events) == Continue(seen + events)
    decreases |events|
  {
    if events == [] {
      assert seen + events == seen;
    } else {
      CollectsAll(seen + [events[0]], events[1..]);
      assert seen + events == seen + [events[0]] + events[1..];
    }
  }

  lemma {:induction false} PrependTwice(a: seq<Delta>, b: seq<Delta>, s: Script)
    ensures Prepend(a, Prepend(b, s)) == Prepend(a + b, s)
  {
    assert a + (b + s.deltas) == (a + b) + s.deltas;
  }

  lemma OneMoreBatch(accepts: Schedule, before: seq<Event>, mid: seq<Event>, trace: seq<Event>,
                     sent: seq<Delta>, ds: seq<Delta>)
    requires Taken(accepts, before, mid, sent) && Attempted(accepts, mid, trace, ds)
    ensures Attempted(accepts, before, trace, sent + ds)
    ensures AllAccepted(accepts, |before|, Emits(sent + ds)) <==> AllAccepted(accepts, |mid|, Emits(ds))
  {
    BatchAppend(accepts, |before|, sent, ds);
  }

  lemma RefusedBatch(accepts: Schedule, before: seq<Event>, trace: seq<Event>, sent: seq<Delta>, all: seq<Delta>)
    requires sent <= all && Attempted(accepts, before, trace, sent)
    requires !AllAccepted(accepts, |before|, Emits(sent))
    ensures Attempted(accepts, before, trace, all) && !AllAccepted(accepts, |before|, Emits(all))
  {
    var rest := Emits(all[|sent|..]);
    assert Emits(all) == Emits(sent) + rest;
    AttemptAppend(accepts, |before|, Emits(sent), rest);
  }

  /** Handles events until one ends the stream or the sink refuses a delta. */
  method HandleEvents<T>(handle: (T, SseEvent) -> Reaction<T>, close: Closing<T>, init: T,
                         events: seq<SseEvent>, ending: Option<Failure>, gate: ContentGate)
    returns (ok: bool, end: ScriptEnd)
    requires gate.Valid()
    modifies gate, gate.inner, gate.inner.inner
    ensures gate.Valid()
    ensures var s, accepts := ScriptOf(handle, close, init, events, ending), gate.inner.inner.accepts;
            && Attempted(accepts, old(gate.inner.inner.trace), gate.inner.inner.trace, s.deltas)
            && ok == AllAccepted(accepts, |old(gate.inner.inner.trace)|, Emits(s.deltas))
            && (ok ==> end == s.end)
  {
    var captured, i := init, 0;
    ghost var whole := ScriptOf(handle, close, init, events, ending);
    ghost var accepts, before := gate.inner.inner.accepts, gate.inner.inner.trace;
    ghost var sent: seq<Delta> := [];
    while i < |events|
      invariant 0 <= i <= |events| && gate.Valid()
      invariant Taken(accepts, before, gate.inner.inner.trace, sent)
      invariant whole == Prepend(sent, ScriptOf(handle, close, captured, events[i..], ending))
    {
      var r := handle(captured, events[i]);
      ghost var mid := gate.inner.inner.trace;
      ghost var rest := After(handle, close, captured, r.next, events[i + 1..], ending);
      assert ScriptOf(handle, close, captured, events[i..], ending) == Prepend(r.deltas, rest) by {
        assert events[i..][0] == events[i] && events[i..][1..] == events[i + 1..];
      }
      PrependTwice(sent, r.deltas, rest);
      ok := gate.DriveDeltas(r.deltas);
      OneMoreBatch(accepts, before, mid, gate.inner.inner.trace, sent, r.deltas);
      sent := sent + r.deltas;
      if !ok {
        RefusedBatch(accepts, before, gate.inner.inner.trace, sent, whole.deltas);
        return false, Broken(SinkRefused);
      }
      if !r.next.Go? {
        assert whole.deltas == sent;
        return true, if r.next.StreamDone? then EndOf(close, captured, None) else Broken(r.next.failure);
      }
      captured, i := r.next.captured, i + 1;
    }
    assert whole.deltas == sent;
    return true, EndOf(close, captured, ending);
  }

  /** Parses a body onto a sink. The handler only influences the scan by stopping it, so scanning
      first and handling afterwards leaves the same calls on the sink as handling during the scan. */
  method ParseStream<T>(handle: (T, SseEvent) -> Reaction<T>, close: Closing<T>, init: T, body: Body, gate: ContentGate)
    returns (usage: Usage, err: Option<Failure>)
    requires gate.Valid()
    modifies gate, gate.inner, gate.inner.inner
    ensures gate.Valid()
    ensures var s, at := BodyScript(handle, close, init, body), |old(gate.inner.inner.trace)|;
            && gate.inner.inner.trace == old(gate.inner.inner.trace)
               + Attempt(gate.inner.inner.accepts, at, ScriptCalls(s))
            && (usage, err) == StreamResult(s, gate.inner.inner.accepts, at)
  {
    var events, ending := ScanSSE(body, Collect, []);
    CollectsAll([], Dispatched(body));
    assert events == Dispatched(body) && ending == Ending(body);
    ghost var s := BodyScript(handle, close, init, body);
    ghost var accepts, before := gate.inner.inner.accepts, gate.inner.inner.trace;
    var ok, end := HandleEvents(handle, close, init, events, ending, gate);
    if !ok {
      ScriptRefused(s, s.deltas, accepts, |before|);
      return NO_USAGE, Some(SinkRefused);
    }
    ghost var mid := gate.inner.inner.trace;
    usage, err := gate.Conclude(end);
    ScriptEnded(s, accepts, before, mid, gate.inner.inner.trace, usage, err);
  }
}

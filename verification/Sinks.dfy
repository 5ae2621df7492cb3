/** The sinks a pipeline run writes through: the client's own sink, which may refuse any call,
    and the two stateful wrappers stacked on it (internal/fusion/pipeline.go:356-420). */
module Sinks {
  import opened Wrappers
  import opened Providers
  import opened Seqs

  datatype Call = Emit(delta: Delta) | Finish(reason: string)

  /** A call that reached the client's sink, and whether the sink returned a nil error. */
  datatype Event = Event(call: Call, ok: bool)

  /** Whether the n-th call on a sink succeeds. Every pattern of failures is some schedule. */
  type Schedule = nat -> bool

  /** The schedule of a sink that takes everything. */
  function Always(): Schedule { n => true }

  // ---------- Lists of calls made until one is refused ----------

  /** How many of the calls are accepted before the first refusal. */
  function Accepted(accepts: Schedule, at: nat, calls: seq<Call>): (n: nat)
    ensures n <= |calls|
    decreases |calls|
  {
    if calls == [] || !accepts(at) then 0 else 1 + Accepted(accepts, at + 1, calls[1..])
  }

  predicate AllAccepted(accepts: Schedule, at: nat, calls: seq<Call>) {
    Accepted(accepts, at, calls) == |calls|
  }

  lemma {:induction false} AlwaysAccepts(at: nat, calls: seq<Call>)
    ensures AllAccepted(Always(), at, calls)
    decreases |calls|
  {
    if calls != [] {
      AlwaysAccepts(at + 1, calls[1..]);
    }
  }

  /** The events of making the calls in order and stopping at the first refusal. */
  function Attempt(accepts: Schedule, at: nat, calls: seq<Call>): (evs: seq<Event>)
    decreases |calls|
  {
    if calls == [] then []
    else if accepts(at) then [Event(calls[0], true)] + Attempt(accepts, at + 1, calls[1..])
    else [Event(calls[0], false)]
  }

  function Ok(calls: seq<Call>): (evs: seq<Event>)
    ensures |evs| == |calls|
  {
    seq(|calls|, i requires 0 <= i < |calls| => Event(calls[i], true))
  }

  /** An attempt is a run of successes, then at most one failure, and nothing after it. */
  lemma {:induction false} AttemptShape(accepts: Schedule, at: nat, calls: seq<Call>)
    ensures var n := Accepted(accepts, at, calls);
            Attempt(accepts, at, calls)
            == Ok(calls[..n]) + (if n < |calls| then [Event(calls[n], false)] else [])
    decreases |calls|
  {
    if calls == [] || !accepts(at) {
    } else {
      AttemptShape(accepts, at + 1, calls[1..]);
      var n := Accepted(accepts, at, calls);
      assert calls[..n] == [calls[0]] + calls[1..][..n - 1];
      assert Ok(calls[..n]) == [Event(calls[0], true)] + Ok(calls[1..][..n - 1]);
    }
  }

  lemma {:induction false} AcceptedAppend(accepts: Schedule, at: nat, a: seq<Call>, b: seq<Call>)
    ensures Accepted(accepts, at, a + b)
         == Accepted(accepts, at, a) + (if AllAccepted(accepts, at, a) then Accepted(accepts, at + |a|, b) else 0)
    decreases |a|
  {
    var all := a + b;
    if a == [] {
      assert all == b;
    } else {
      assert all[0] == a[0] && all[1..] == a[1..] + b;
      AcceptedAppend(accepts, at + 1, a[1..], b);
    }
  }

  /** What stands behind the middle stands behind the whole. */
  lemma Behind(before: seq<Event>, sent: seq<Event>, mid: seq<Event>, tail: seq<Event>, more: seq<Event>)
    requires mid == before + sent && more == sent + tail
    ensures mid + tail == before + more
  {
  }

  lemma {:induction false} AttemptAppend(accepts: Schedule, at: nat, a: seq<Call>, b: seq<Call>)
    ensures Attempt(accepts, at, a + b)
         == Attempt(accepts, at, a) + (if AllAccepted(accepts, at, a) then Attempt(accepts, at + |a|, b) else [])
    ensures AllAccepted(accepts, at, a + b)
       <==> AllAccepted(accepts, at, a) && AllAccepted(accepts, at + |a|, b)
    decreases |a|
  {
    var all := a + b;
    AcceptedAppend(accepts, at, a, b);
    if a == [] {
      assert all == b;
    } else {
      var rest := a[1..];
      assert all[0] == a[0] && all[1..] == rest + b;
      AttemptAppend(accepts, at + 1, rest, b);
      if accepts(at) {
        Behind([Event(a[0], true)], Attempt(accepts, at + 1, rest), Attempt(accepts, at, a),
               if AllAccepted(accepts, at + 1, rest) then Attempt(accepts, at + 1 + |rest|, b) else [],
               Attempt(accepts, at + 1, rest + b));
      }
    }
  }

  // ---------- What a list of events amounts to ----------

  function FinishOf(e: Event): seq<string> {
    if e.ok && e.call.Finish? then [e.call.reason] else []
  }

  function OfferedOf(e: Event): string {
    if e.call.Emit? then e.call.delta.content else ""
  }

  function DeliveredOf(e: Event): string {
    if e.ok then OfferedOf(e) else ""
  }

  function ToolsOf(e: Event): seq<ToolCallDelta> {
    if e.ok && e.call.Emit? && e.call.delta.toolCall.Some? then [e.call.delta.toolCall.value] else []
  }

  /** The finish reasons of the Done calls that succeeded. */
  function Finishes(evs: seq<Event>): seq<string> { Flatten(FinishOf, evs) }

  /** The content handed to the sink, whether or not the sink took it. */
  function Offered(evs: seq<Event>): string { Flatten(OfferedOf, evs) }

  /** The content the sink took. */
  function Delivered(evs: seq<Event>): string { Flatten(DeliveredOf, evs) }

  /** The tool call deltas the sink took. */
  function DeliveredTools(evs: seq<Event>): seq<ToolCallDelta> { Flatten(ToolsOf, evs) }

  lemma ViewsAppend(a: seq<Event>, b: seq<Event>)
    ensures Finishes(a + b) == Finishes(a) + Finishes(b)
    ensures Offered(a + b) == Offered(a) + Offered(b)
    ensures Delivered(a + b) == Delivered(a) + Delivered(b)
    ensures DeliveredTools(a + b) == DeliveredTools(a) + DeliveredTools(b)
  {
    FlattenAppend(FinishOf, a, b);
    FlattenAppend(OfferedOf, a, b);
    FlattenAppend(DeliveredOf, a, b);
    FlattenAppend(ToolsOf, a, b);
  }

  lemma ViewsOne(e: Event)
    ensures Finishes([e]) == FinishOf(e)
    ensures Offered([e]) == OfferedOf(e)
    ensures Delivered([e]) == DeliveredOf(e)
    ensures DeliveredTools([e]) == ToolsOf(e)
  {
    FlattenOne(FinishOf, e);
    FlattenOne(OfferedOf, e);
    FlattenOne(DeliveredOf, e);
    FlattenOne(ToolsOf, e);
  }

  function Emits(ds: seq<Delta>): (calls: seq<Call>)
    ensures |calls| == |ds|
  {
    seq(|ds|, i requires 0 <= i < |ds| => Emit(ds[i]))
  }

  /** Accepted deltas deliver exactly their own content and tool call pieces. */
  lemma {:induction false} EmitsDeliver(ds: seq<Delta>)
    ensures Finishes(Ok(Emits(ds))) == []
    ensures Offered(Ok(Emits(ds))) == ContentOf(ds)
    ensures Delivered(Ok(Emits(ds))) == ContentOf(ds)
    ensures DeliveredTools(Ok(Emits(ds))) == ToolDeltasOf(ds)
  {
    if ds == [] {
    } else {
      var e := Event(Emit(ds[0]), true);
      assert Ok(Emits(ds)) == [e] + Ok(Emits(ds[1..]));
      EmitsDeliver(ds[1..]);
      ViewsAppend([e], Ok(Emits(ds[1..])));
      ViewsOne(e);
      assert ds == [ds[0]] + ds[1..];
    }
  }

  // ---------- Driving a sink with a provider's script ----------

  function ScriptCalls(s: Script): seq<Call> {
    Emits(s.deltas) + (if s.end.Finished? then [Finish(s.end.reason)] else [])
  }

  /** The usage and error a provider's Stream returns (internal/providers/provider.go:19-28):
      nothing but an error when a delta was refused or the stream broke; once the end is reached the
      usage is returned whatever Done says. */
  function StreamResult(s: Script, accepts: Schedule, at: nat): (Usage, Option<Failure>) {
    var n := Accepted(accepts, at, Emits(s.deltas));
    if n < |s.deltas| then (NO_USAGE, Some(SinkRefused))
    else
      match s.end
      case Broken(e) => (NO_USAGE, Some(e))
      case Finished(_, usage) => (usage, if accepts(at + n) then None else Some(SinkRefused))
  }

  /** What a stream returns: no error exactly when it came to its end and Done was taken; its usage when
      it came to its end, whatever became of Done, and none otherwise; and the upstream's own error only
      when every delta had been taken. */
  predicate StreamReturns(s: Script, accepts: Schedule, at: nat, usage: Usage, err: Option<Failure>) {
    var taken := AllAccepted(accepts, at, Emits(s.deltas));
    && (err.None? <==> taken && s.end.Finished? && accepts(at + |s.deltas|))
    && (taken && s.end.Finished? ==> usage == s.end.usage) && (!taken || s.end.Broken? ==> usage == NO_USAGE)
    && (err.Some? ==> err.value == if taken && s.end.Broken? then s.end.failure else SinkRefused)
  }

  lemma ResultReturns(s: Script, accepts: Schedule, at: nat)
    ensures StreamReturns(s, accepts, at, StreamResult(s, accepts, at).0, StreamResult(s, accepts, at).1)
  {
  }

  /** A refused delta ends the stream there and then. */
  lemma ScriptRefused(s: Script, sent: seq<Delta>, accepts: Schedule, at: nat)
    requires sent <= s.deltas && !AllAccepted(accepts, at, Emits(sent))
    ensures Attempt(accepts, at, ScriptCalls(s)) == Attempt(accepts, at, Emits(sent))
    ensures StreamResult(s, accepts, at) == (NO_USAGE, Some(SinkRefused))
  {
    var rest := Emits(s.deltas[|sent|..]);
    assert Emits(s.deltas) == Emits(sent) + rest;
    AttemptAppend(accepts, at, Emits(sent), rest);
    AttemptAppend(accepts, at, Emits(s.deltas), if s.end.Finished? then [Finish(s.end.reason)] else []);
  }

  /** With every delta accepted only the end is left. */
  lemma ScriptCompleted(s: Script, accepts: Schedule, at: nat)
    requires AllAccepted(accepts, at, Emits(s.deltas))
    ensures Attempt(accepts, at, ScriptCalls(s))
         == Attempt(accepts, at, Emits(s.deltas))
            + (if s.end.Finished? then [Event(Finish(s.end.reason), accepts(at + |s.deltas|))] else [])
    ensures |Attempt(accepts, at, Emits(s.deltas))| == |s.deltas|
    ensures StreamResult(s, accepts, at)
         == match s.end
            case Broken(e) => (NO_USAGE, Some(e))
            case Finished(_, usage) => (usage, if accepts(at + |s.deltas|) then None else Some(SinkRefused))
  {
    AttemptShape(accepts, at, Emits(s.deltas));
    AttemptAppend(accepts, at, Emits(s.deltas), if s.end.Finished? then [Finish(s.end.reason)] else []);
  }

  /** Two batches of deltas, the second made only after the first went through. */
  lemma BatchAppend(accepts: Schedule, at: nat, a: seq<Delta>, b: seq<Delta>)
    requires AllAccepted(accepts, at, Emits(a))
    ensures Attempt(accepts, at, Emits(a + b))
         == Attempt(accepts, at, Emits(a)) + Attempt(accepts, at + |a|, Emits(b))
    ensures |Attempt(accepts, at, Emits(a))| == |a|
    ensures AllAccepted(accepts, at, Emits(a + b)) <==> AllAccepted(accepts, at + |a|, Emits(b))
  {
    AttemptShape(accepts, at, Emits(a));
    assert Emits(a + b) == Emits(a) + Emits(b);
    AttemptAppend(accepts, at, Emits(a), Emits(b));
  }

  /** The trace is what came before plus an attempt at the deltas. */
  ghost predicate Attempted(accepts: Schedule, before: seq<Event>, trace: seq<Event>, ds: seq<Delta>) {
    trace == before + Attempt(accepts, |before|, Emits(ds))
  }

  /** ... and the sink took them all. */
  ghost predicate Taken(accepts: Schedule, before: seq<Event>, trace: seq<Event>, ds: seq<Delta>) {
    Attempted(accepts, before, trace, ds) && AllAccepted(accepts, |before|, Emits(ds))
  }

  /** The sink took the first n of some deltas. */
  ghost predicate TakenUpTo(accepts: Schedule, before: seq<Event>, trace: seq<Event>, ds: seq<Delta>, n: nat) {
    n <= |ds| && |trace| == |before| + n && Taken(accepts, before, trace, ds[..n])
  }

  /** Its deltas taken, a script has come to its end. */
  lemma ScriptEnded(s: Script, accepts: Schedule, before: seq<Event>, mid: seq<Event>, trace: seq<Event>,
                    usage: Usage, err: Option<Failure>)
    requires Taken(accepts, before, mid, s.deltas)
    requires Concluded(s.end, accepts, mid, trace, usage, err)
    ensures trace == before + Attempt(accepts, |before|, ScriptCalls(s))
    ensures (usage, err) == StreamResult(s, accepts, |before|)
  {
    match s.end
    case Broken(_) => ScriptBroke(s, accepts, before, mid);
    case Finished(_, _) => ScriptFinished(s, accepts, before, mid, Event(Finish(s.end.reason), accepts(|mid|)));
  }

  lemma ScriptBroke(s: Script, accepts: Schedule, before: seq<Event>, mid: seq<Event>)
    requires Taken(accepts, before, mid, s.deltas) && s.end.Broken?
    ensures mid == before + Attempt(accepts, |before|, ScriptCalls(s))
    ensures StreamResult(s, accepts, |before|) == (NO_USAGE, Some(s.end.failure))
  {
    var sent := Attempt(accepts, |before|, Emits(s.deltas));
    ScriptCompleted(s, accepts, |before|);
    assert sent + [] == sent;
  }

  lemma ScriptFinished(s: Script, accepts: Schedule, before: seq<Event>, mid: seq<Event>, last: Event)
    requires Taken(accepts, before, mid, s.deltas) && s.end.Finished?
    requires last == Event(Finish(s.end.reason), accepts(|mid|))
    ensures mid + [last] == before + Attempt(accepts, |before|, ScriptCalls(s))
    ensures StreamResult(s, accepts, |before|) == (s.end.usage, if last.ok then None else Some(SinkRefused))
  {
    ScriptCompleted(s, accepts, |before|);
    Behind(before, Attempt(accepts, |before|, Emits(s.deltas)), mid, [last],
           Attempt(accepts, |before|, ScriptCalls(s)));
  }

  /** What the end of a script does: an error is passed on, a proper end is announced with Done. */
  ghost predicate Concluded(end: ScriptEnd, accepts: Schedule, mid: seq<Event>, trace: seq<Event>, usage: Usage,
                            err: Option<Failure>)
  {
    match end
    case Broken(e) => trace == mid && usage == NO_USAGE && err == Some(e)
    case Finished(reason, u) =>
      var ok := accepts(|mid|);
      && trace == mid + [Event(Finish(reason), ok)]
      && usage == u && err == (if ok then None else Some(SinkRefused))
  }

  // ---------- The sink objects ----------

  /** The client's sink: records every call it receives and refuses those its schedule names. */
  class ClientSink {
    const accepts: Schedule
    var trace: seq<Event>

    constructor (accepts: Schedule)
      ensures this.accepts == accepts && trace == []
    {
      this.accepts := accepts;
      trace := [];
    }

    method Delta(d: Delta) returns (ok: bool)
      modifies this
      ensures ok == accepts(|old(trace)|)
      ensures trace == old(trace) + [Event(Emit(d), ok)]
    {
      ok := accepts(|trace|);
      trace := trace + [Event(Emit(d), ok)];
    }

    method Done(reason: string) returns (ok: bool)
      modifies this
      ensures ok == accepts(|old(trace)|)
      ensures trace == old(trace) + [Event(Finish(reason), ok)]
    {
      ok := accepts(|trace|);
      trace := trace + [Event(Finish(reason), ok)];
    }
  }

  const COUNTING_SINK_HEAD_CAP := 512
  const MAX_HEAD := 200

  /** Bytes 0x80 to 0xBF continue a multi-byte character of UTF-8. */
  predicate Continuation(c: char) { 0x80 <= c as int <= 0xBF }

  /** Where the head of a text ends, walking back from `end` over continuation bytes. */
  function HeadEnd(text: string, end: nat): (r: nat)
    requires end <= |text|
    ensures r <= end
    ensures r == 0 || !Continuation(text[r - 1])
    ensures forall m :: r <= m < end ==> Continuation(text[m])
  {
    if end > 0 && Continuation(text[end - 1]) then HeadEnd(text, end - 1) else end
  }

  function HeadOf(text: string): string {
    text[..HeadEnd(text, Min(|text|, MAX_HEAD))]
  }

  /** A head in bytes: 200 of them at most, less the continuation bytes at the end of these. */
  predicate Heads(h: string, text: string) {
    var cut := if |text| < 200 then |text| else 200;
    && h <= text && |h| <= cut && (h != "" ==> !(0x80 <= h[|h| - 1] as int <= 0xBF))
    && forall k :: |h| <= k < cut ==> 0x80 <= text[k] as int <= 0xBF
  }

  lemma HeadHeads(text: string)
    ensures Heads(HeadOf(text), text)
  {
  }

  /** Only the first 200 bytes of a text matter to its head. */
  lemma {:induction false} HeadEndLocal(a: string, b: string, end: nat)
    requires end <= |a| && end <= |b| && a[..end] == b[..end]
    ensures HeadEnd(a, end) == HeadEnd(b, end)
  {
    if end > 0 {
      assert a[..end][end - 1] == b[..end][end - 1];
      assert a[..end - 1] == a[..end][..end - 1];
      assert b[..end - 1] == b[..end][..end - 1];
      HeadEndLocal(a, b, end - 1);
    }
  }

  /** The first bytes of a text that goes on. */
  lemma FrontGrows(text: string, more: string, cap: nat)
    ensures var front := text[..Min(|text|, cap)];
            (text + more)[..Min(|text + more|, cap)] == front + more[..Min(|more|, cap - |front|)]
  {
  }

  /** Counts the content passing through and keeps its first 512 bytes. */
  class CountingSink {
    const inner: ClientSink
    var bytes: nat
    var buf: string
    ghost const start: nat  // length of the inner trace when this wrapper was put on

    /** What was offered through this wrapper so far. */
    ghost function Text(): string
      reads this, inner
      requires start <= |inner.trace|
    {
      Offered(inner.trace[start..])
    }

    ghost predicate Valid()
      reads this, inner
    {
      && start <= |inner.trace|
      && bytes == |Text()|
      && buf == Text()[..Min(|Text()|, COUNTING_SINK_HEAD_CAP)]
    }

    constructor (inner: ClientSink)
      ensures Valid() && this.inner == inner && start == |inner.trace|
    {
      this.inner := inner;
      bytes := 0;
      buf := "";
      start := |inner.trace|;
      new;
      assert inner.trace[start..] == [];
    }

    method Delta(d: Delta) returns (ok: bool)
      requires Valid()
      modifies this, inner
      ensures Valid()
      ensures ok == inner.accepts(|old(inner.trace)|)
      ensures inner.trace == old(inner.trace) + [Event(Emit(d), ok)]
    {
      FrontGrows(Text(), d.content, COUNTING_SINK_HEAD_CAP);
      if d.content != "" {
        bytes := bytes + |d.content|;
        if |buf| < COUNTING_SINK_HEAD_CAP {
          var need := COUNTING_SINK_HEAD_CAP - |buf|;
          if need > |d.content| {
            need := |d.content|;
          }
          buf := buf + d.content[..need];
        }
      }
      ok := inner.Delta(d);
      TextGrows(old(inner.trace), Event(Emit(d), ok));
    }

    method Done(reason: string) returns (ok: bool)
      requires Valid()
      modifies inner
      ensures Valid()
      ensures ok == inner.accepts(|old(inner.trace)|)
      ensures inner.trace == old(inner.trace) + [Event(Finish(reason), ok)]
    {
      ok := inner.Done(reason);
      TextGrows(old(inner.trace), Event(Finish(reason), ok));
    }

    lemma TextGrows(before: seq<Event>, e: Event)
      requires start <= |before| && inner.trace == before + [e]
      ensures Text() == Offered(before[start..]) + OfferedOf(e)
    {
      assert inner.trace[start..] == before[start..] + [e];
      ViewsAppend(before[start..], [e]);
      ViewsOne(e);
    }

    /** The first bytes of the answer, for the snapshot. */
    method Head() returns (h: string)
      requires Valid()
      ensures h == HeadOf(Text()) && Heads(h, Text())
    {
      HeadHeads(Text());
      if |buf| == 0 {
        return "";
      }
      var end := |buf|;
      if end > MAX_HEAD {
        end := MAX_HEAD;
      }
      assert end == Min(|Text()|, MAX_HEAD) && buf[..end] == Text()[..end];
      HeadEndLocal(buf, Text(), end);
      while end > 0 && Continuation(buf[end - 1])
        invariant 0 <= end <= |buf| && end <= MAX_HEAD
        invariant HeadEnd(buf, end) == HeadEnd(Text(), Min(|Text()|, MAX_HEAD))
      {
        end := end - 1;
      }
      h := buf[..end];
    }
  }

  /** Notices whether any content was handed on. */
  class ContentGate {
    const inner: CountingSink
    var sawContent: bool
    ghost const start: nat

    ghost predicate Valid()
      reads this, inner, inner.inner
    {
      && inner.Valid()
      && start <= |inner.inner.trace|
      && (sawContent <==> Offered(inner.inner.trace[start..]) != "")
    }

    constructor (inner: CountingSink)
      requires inner.Valid()
      ensures Valid() && this.inner == inner && start == |inner.inner.trace|
    {
      this.inner := inner;
      sawContent := false;
      start := |inner.inner.trace|;
      new;
      assert inner.inner.trace[start..] == [];
    }

    method Delta(d: Delta) returns (ok: bool)
      requires Valid()
      modifies this, inner, inner.inner
      ensures Valid()
      ensures ok == inner.inner.accepts(|old(inner.inner.trace)|)
      ensures inner.inner.trace == old(inner.inner.trace) + [Event(Emit(d), ok)]
    {
      ghost var before := inner.inner.trace;
      if d.content != "" {
        sawContent := true;
      }
      ok := inner.Delta(d);
      OfferedGrows(before, Event(Emit(d), ok));
    }

    method Done(reason: string) returns (ok: bool)
      requires Valid()
      modifies inner.inner
      ensures Valid()
      ensures ok == inner.inner.accepts(|old(inner.inner.trace)|)
      ensures inner.inner.trace == old(inner.inner.trace) + [Event(Finish(reason), ok)]
    {
      ghost var before := inner.inner.trace;
      ok := inner.Done(reason);
      OfferedGrows(before, Event(Finish(reason), ok));
    }

    lemma OfferedGrows(before: seq<Event>, e: Event)
      requires start <= |before| && inner.inner.trace == before + [e]
      ensures Offered(inner.inner.trace[start..]) == Offered(before[start..]) + OfferedOf(e)
    {
      assert inner.inner.trace[start..] == before[start..] + [e];
      ViewsAppend(before[start..], [e]);
      ViewsOne(e);
    }

    /** Hands on the deltas one by one and stops at the first refusal. */
    method DriveDeltas(ds: seq<Delta>) returns (ok: bool)
      requires Valid()
      modifies this, inner, inner.inner
      ensures Valid()
      ensures Attempted(inner.inner.accepts, old(inner.inner.trace), inner.inner.trace, ds)
      ensures ok == AllAccepted(inner.inner.accepts, |old(inner.inner.trace)|, Emits(ds))
      ensures ok ==> |inner.inner.trace| == |old(inner.inner.trace)| + |ds|
    {
      ok := true;
      var i := 0;
      ghost var accepts, before := inner.inner.accepts, inner.inner.trace;
      NothingTaken(accepts, before, ds);
      while i < |ds|
        invariant Valid() && TakenUpTo(accepts, before, inner.inner.trace, ds, i)
      {
        ghost var mid := inner.inner.trace;
        ok := Delta(ds[i]);
        OneMoreDelta(accepts, before, mid, ds, i);
        if !ok {
          return;
        }
        i := i + 1;
      }
      assert ds[..i] == ds;
    }

    /** Runs a stream's script against this sink, as every provider's Stream does: it stops at the
        first refused delta, and calls Done only at a proper end. */
    method Drive(s: Script) returns (usage: Usage, err: Option<Failure>)
      requires Valid()
      modifies this, inner, inner.inner
      ensures Valid()
      ensures inner.inner.trace == old(inner.inner.trace)
              + Attempt(inner.inner.accepts, |old(inner.inner.trace)|, ScriptCalls(s))
      ensures (usage, err) == StreamResult(s, inner.inner.accepts, |old(inner.inner.trace)|)
      ensures StreamReturns(s, inner.inner.accepts, |old(inner.inner.trace)|, usage, err)
    {
      ResultReturns(s, inner.inner.accepts, |inner.inner.trace|);
      ghost var accepts, before := inner.inner.accepts, inner.inner.trace;
      var ok := DriveDeltas(s.deltas);
      if !ok {
        ScriptRefused(s, s.deltas, accepts, |before|);
        return NO_USAGE, Some(SinkRefused);
      }
      ghost var mid := inner.inner.trace;
      usage, err := Conclude(s.end);
      ScriptEnded(s, accepts, before, mid, inner.inner.trace, usage, err);
    }

    method Conclude(end: ScriptEnd) returns (usage: Usage, err: Option<Failure>)
      requires Valid()
      modifies this, inner, inner.inner
      ensures Valid()
      ensures Concluded(end, inner.inner.accepts, old(inner.inner.trace), inner.inner.trace, usage, err)
    {
      match end
      case Broken(e) =>
        return NO_USAGE, Some(e);
      case Finished(reason, u) =>
        var done := Done(reason);
        return u, if done then None else Some(SinkRefused);
    }
  }

  lemma NothingTaken(accepts: Schedule, before: seq<Event>, ds: seq<Delta>)
    ensures TakenUpTo(accepts, before, before, ds, 0)
  {
    assert Emits(ds[..0]) == [];
    assert before + [] == before;
  }

  /** One delta more, taken or refused. */
  lemma OneMoreDelta(accepts: Schedule, before: seq<Event>, mid: seq<Event>, ds: seq<Delta>, i: nat)
    requires i < |ds| && TakenUpTo(accepts, before, mid, ds, i)
    ensures var ok := accepts(|mid|);
            var trace := mid + [Event(Emit(ds[i]), ok)];
            if ok then TakenUpTo(accepts, before, trace, ds, i + 1)
            else Attempted(accepts, before, trace, ds) && !AllAccepted(accepts, |before|, Emits(ds))
  {
    var sent, at := Emits(ds[..i]), |before|;
    var e := Event(Emit(ds[i]), accepts(|mid|));
    assert Emits(ds[..i + 1]) == sent + [e.call];
    AttemptAppend(accepts, at, sent, [e.call]);
    assert before + (Attempt(accepts, at, sent) + [e]) == mid + [e];
    if !e.ok {
      var rest := Emits(ds[i + 1..]);
      assert Emits(ds) == Emits(ds[..i + 1]) + rest;
      AttemptAppend(accepts, at, sent + [e.call], rest);
    }
  }
}

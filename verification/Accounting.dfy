/** What the server records of its requests, over any number of concurrent requests: each handler is
    a thread whose steps on the metrics and on the status ring may come between those of any other
    (internal/server/server.go:144-253, 271-290). */
module Accounting {
  import opened Wrappers
  import opened Seqs
  import opened Text
  import opened Providers
  import opened Sinks
  import opened Judge
  import opened Pipeline
  import opened RunTheorems
  import opened Metrics

  // ---------- Counters summed over their labels ----------

  type Counters = map<string, int>

  ghost function SomeKey(c: Counters): (k: string)
    requires c != map[]
    ensures k in c
  {
    var k :| k in c;
    k
  }

  /** What series k contributes to a name's total. */
  function Share(c: Counters, k: string, name: string): int
    requires k in c
  {
    if SplitSeries(k).0 == name then c[k] else 0
  }

  /** The counters of a name, added up over all label sets. */
  ghost function TotalOf(c: Counters, name: string): int
    decreases |c|
  {
    if c == map[] then 0
    else
      var k := SomeKey(c);
      assert |(c - {k}).Keys| < |c.Keys| by { assert (c - {k}).Keys == c.Keys - {k}; }
      Share(c, k, name) + TotalOf(c - {k}, name)
  }

  lemma {:induction false} TakeSeries(c: Counters, k: string, name: string)
    requires k in c
    ensures TotalOf(c, name) == Share(c, k, name) + TotalOf(c - {k}, name)
    decreases |c|
  {
    var k' := SomeKey(c);
    if k' != k {
      assert |(c - {k'}).Keys| < |c.Keys| by { assert (c - {k'}).Keys == c.Keys - {k'}; }
      TakeSeries(c - {k'}, k, name);
      assert |(c - {k}).Keys| < |c.Keys| by { assert (c - {k}).Keys == c.Keys - {k}; }
      TakeSeries(c - {k}, k', name);
      assert c - {k'} - {k} == c - {k} - {k'};
    }
  }

  /** A counter after an increment (internal/obs/metrics.go:34-47). */
  function Bumped(c: Counters, key: string, n: int): Counters {
    c[key := (if key in c then c[key] else 0) + n]
  }

  lemma BumpAdds(c: Counters, key: string, n: int, name: string)
    ensures TotalOf(Bumped(c, key, n), name) == TotalOf(c, name) + if SplitSeries(key).0 == name then n else 0
  {
    var after := Bumped(c, key, n);
    TakeSeries(after, key, name);
    assert after - {key} == c - {key};
    if key in c {
      TakeSeries(c, key, name);
    } else {
      assert c - {key} == c;
    }
  }

  // ---------- Metrics ----------

  datatype Metric =
    | Requests | ToolCalls | Fusions | Degradations | Failures
    | InputTokens | OutputTokens | CacheReadTokens | CacheCreationTokens

  function NameOf(m: Metric): string {
    match m
    case Requests => "fuse_requests_total"
    case ToolCalls => "fuse_tool_call_total"
    case Fusions => "fuse_fusion_total"
    case Degradations => "fuse_degraded_total"
    case Failures => "fuse_failed_total"
    case InputTokens => "fuse_input_tokens_total"
    case OutputTokens => "fuse_output_tokens_total"
    case CacheReadTokens => "fuse_cache_read_tokens_total"
    case CacheCreationTokens => "fuse_cache_creation_tokens_total"
  }

  lemma NamesDiffer(m: Metric, n: Metric)
    ensures NameOf(m) == NameOf(n) ==> m == n
  {
    assert NameOf(m) == NameOf(n) ==> NameOf(m)[5] == NameOf(n)[5];
  }

  predicate CountsTokens(m: Metric) {
    m.InputTokens? || m.OutputTokens? || m.CacheReadTokens? || m.CacheCreationTokens?
  }

  lemma NamesAreBare(m: Metric)
    ensures Without(NameOf(m), '{')
  {
    if CountsTokens(m) {
      TokenNamesAreBare(m);
    }
  }

  lemma TokenNamesAreBare(m: Metric)
    requires CountsTokens(m)
    ensures Without(NameOf(m), '{')
  {
  }

  datatype Increment = Increment(metric: Metric, n: int, labels: seq<string>)

  function Incremented(quote: Quote, c: Counters, inc: Increment): Counters {
    Bumped(c, SeriesKey(quote, NameOf(inc.metric), inc.labels), inc.n)
  }

  /** An increment raises its own metric's total, and no other's. */
  lemma IncrementAdds(quote: Quote, c: Counters, inc: Increment, m: Metric)
    ensures TotalOf(Incremented(quote, c, inc), NameOf(m))
         == TotalOf(c, NameOf(m)) + (if inc.metric == m then inc.n else 0)
  {
    var name := NameOf(inc.metric);
    NamesDiffer(inc.metric, m);
    NamesAreBare(inc.metric);
    KeySplits(quote, name, LabelPairs(inc.labels));
    BumpAdds(c, SeriesKey(quote, name, inc.labels), inc.n, NameOf(m));
  }

  // ---------- One request ----------

  /** An entry of the status ring. */
  datatype Record = Record(
    request: nat, model: string, decision: DecisionKind, fallbackReason: string, panel: seq<PanelResult>,
    judgeAnalysis: Option<JudgeAnalysis>, finalAnswerBytes: nat, finalAnswerHead: string, usage: Option<Usage>)

  /** Where a request's handler stands. */
  datatype Phase =
    | Arrived
    | Rejected                                                          // undecodable, unknown model or not streaming
    | Counted(model: string)
    | InitFailed(model: string)                                         // no stream could be opened
    | Running(model: string)
    | Returned(model: string, dec: Decision, err: Option<Failure>)
    | FailureCounted(model: string, reason: string)
    | FailureDone(model: string, reason: string)
    | Pushed(model: string, dec: Decision, added: nat)                  // token counters added so far
    | CountedOut(model: string, dec: Decision)

  datatype Input =
    | Reject | Admit(model: string) | FailInit | Begin | Return(dec: Decision, err: Option<Failure>) | Proceed

  /** One atomic step of a handler: where it goes, what it counts, what it pushes. */
  datatype Move = Move(to: Phase, counts: Option<Increment>, pushes: seq<Record>)

  function OrPipelineError(reason: string): string {
    if reason == "" then "pipeline_error" else reason
  }

  function UsageToObs(u: Usage): Option<Usage> {
    if u.promptTokens == 0 && u.completionTokens == 0 && u.cacheReadTokens == 0 && u.cacheCreationTokens == 0
    then None else Some(u)
  }

  function FailureRecord(id: nat, model: string, reason: string): Record {
    Record(id, model, DecisionFailed, reason, [], None, 0, "", None)
  }

  function DecisionRecord(id: nat, model: string, dec: Decision): Record {
    Record(id, model, dec.kind, dec.fallbackReason, dec.panel, dec.judgeAnalysis, dec.finalAnswerBytes,
           dec.finalAnswerHead, UsageToObs(dec.usage))
  }

  function KindText(k: DecisionKind): string {
    match k
    case DecisionToolCall => "tool_call"
    case DecisionFusion => "fusion"
    case DecisionDegraded => "degraded"
    case DecisionFailed => "failed"
  }

  function TokenMetric(k: nat): Metric
    requires k < 4
  {
    match k
    case 0 => InputTokens
    case 1 => OutputTokens
    case 2 => CacheReadTokens
    case 3 => CacheCreationTokens
  }

  function TokensOf(u: Usage, k: nat): int
    requires k < 4
  {
    match k
    case 0 => u.promptTokens
    case 1 => u.completionTokens
    case 2 => u.cacheReadTokens
    case 3 => u.cacheCreationTokens
  }

  /** The k-th token counter, bumped only by positive amounts. */
  function TokenIncrement(model: string, dec: Decision, k: nat): Option<Increment>
    requires k < 4
  {
    if TokensOf(dec.usage, k) > 0 then
      Some(Increment(TokenMetric(k), TokensOf(dec.usage, k), ["model", model, "decision", KindText(dec.kind)]))
    else None
  }

  function KindIncrement(model: string, dec: Decision): Increment {
    match dec.kind
    case DecisionToolCall => Increment(ToolCalls, 1, ["model", model])
    case DecisionFusion => Increment(Fusions, 1, ["model", model])
    case DecisionDegraded => Increment(Degradations, 1, ["reason", dec.fallbackReason])
    case DecisionFailed => Increment(Failures, 1, ["reason", dec.fallbackReason])
  }

  /** The handler's next step, if it can take this one. On an error the failure is counted before it
      is recorded; on success the decision is recorded before anything is counted. */
  function MoveOf(id: nat, p: Phase, input: Input): Option<Move> {
    match (p, input)
    case (Arrived, Reject) => Some(Move(Rejected, None, []))
    case (Arrived, Admit(model)) => Some(Move(Counted(model), Some(Increment(Requests, 1, ["model", model])), []))
    case (Counted(model), FailInit) => Some(Move(InitFailed(model), None, []))
    case (Counted(model), Begin) => Some(Move(Running(model), None, []))
    case (Running(model), Return(dec, err)) => Some(Move(Returned(model, dec, err), None, []))
    case (Returned(model, dec, err), Proceed) =>
      if err.Some? then
        var reason := OrPipelineError(dec.fallbackReason);
        Some(Move(FailureCounted(model, reason), Some(Increment(Failures, 1, ["reason", reason])), []))
      else Some(Move(Pushed(model, dec, 0), None, [DecisionRecord(id, model, dec)]))
    case (FailureCounted(model, reason), Proceed) =>
      Some(Move(FailureDone(model, reason), None, [FailureRecord(id, model, reason)]))
    case (Pushed(model, dec, k), Proceed) =>
      if k < 4 then Some(Move(Pushed(model, dec, k + 1), TokenIncrement(model, dec, k), []))
      else Some(Move(CountedOut(model, dec), Some(KindIncrement(model, dec)), []))
    case _ => None
  }

  // ---------- Any number of requests ----------

  datatype State = State(phases: seq<Phase>, counters: Counters, pushed: seq<Record>)

  /** A new request arrives, or a handler takes a step. */
  datatype Action = Arrive | Step(id: nat, input: Input)

  const START := State([], map[], [])

  /** What a pipeline run can come back with. */
  ghost predicate Returns(dec: Decision, err: Option<Failure>) {
    exists w: World, accepts: Schedule, at: nat, model: Model, base: CompletionRequest ::
      Answers(w, model, base) && (dec, err) == (Stamp(RunOutcome(w, accepts, at, model, base)),
                                                RunOutcome(w, accepts, at, model, base).ruling.err)
  }

  ghost predicate Enabled(s: State, a: Action) {
    match a
    case Arrive => true
    case Step(i, input) =>
      && i < |s.phases| && MoveOf(i, s.phases[i], input).Some?
      && (input.Return? ==> Returns(input.dec, input.err))
  }

  function Counts(quote: Quote, c: Counters, inc: Option<Increment>): Counters {
    if inc.Some? then Incremented(quote, c, inc.value) else c
  }

  /** One handler's view: where it stands, and the books it shares with the others. */
  datatype Books = Books(phase: Phase, counters: Counters, pushed: seq<Record>)

  function Took(quote: Quote, b: Books, m: Move): Books {
    Books(m.to, Counts(quote, b.counters, m.counts), b.pushed + m.pushes)
  }

  function Moved(quote: Quote, s: State, i: nat, m: Move): State
    requires i < |s.phases|
  {
    var b := Took(quote, Books(s.phases[i], s.counters, s.pushed), m);
    State(s.phases[i := b.phase], b.counters, b.pushed)
  }

  /** How many steps are left once the run has returned, at most. */
  function StepsLeft(p: Phase): nat {
    match p
    case Returned(_, _, _) => 7
    case FailureCounted(_, _) => 1
    case Pushed(_, _, k) => if k < 4 then 5 - k else 1
    case _ => 0
  }

  /** A handler that goes on alone to its end. */
  function Conclude(quote: Quote, id: nat, b: Books): Books
    decreases StepsLeft(b.phase)
  {
    match MoveOf(id, b.phase, Proceed)
    case None => b
    case Some(m) => Conclude(quote, id, Took(quote, b, m))
  }

  ghost function After(quote: Quote, s: State, a: Action): State
    requires Enabled(s, a)
  {
    match a
    case Arrive => s.(phases := s.phases + [Arrived])
    case Step(i, input) => Moved(quote, s, i, MoveOf(i, s.phases[i], input).value)
  }

  /** The state is reached by some interleaving of steps. */
  ghost predicate Reached(quote: Quote, s: State, actions: seq<Action>)
    decreases |actions|
  {
    if actions == [] then s == START
    else
      var n := |actions| - 1;
      exists before: State :: Reached(quote, before, actions[..n]) && Enabled(before, actions[n])
                              && s == After(quote, before, actions[n])
  }

  // ---------- The ledger ----------

  /** What a request has added to a metric by the time it stands at p. */
  function Credit(m: Metric, p: Phase): int {
    match m
    case Requests => if p.Arrived? || p.Rejected? then 0 else 1
    case Failures =>
      if p.FailureCounted? || p.FailureDone? || (p.CountedOut? && p.dec.kind == DecisionFailed) then 1 else 0
    case ToolCalls => if p.CountedOut? && p.dec.kind == DecisionToolCall then 1 else 0
    case Fusions => if p.CountedOut? && p.dec.kind == DecisionFusion then 1 else 0
    case Degradations => if p.CountedOut? && p.dec.kind == DecisionDegraded then 1 else 0
    case InputTokens => TokenCredit(p, 0)
    case OutputTokens => TokenCredit(p, 1)
    case CacheReadTokens => TokenCredit(p, 2)
    case CacheCreationTokens => TokenCredit(p, 3)
  }

  function TokenCredit(p: Phase, k: nat): int
    requires k < 4
  {
    if ((p.Pushed? && p.added > k) || p.CountedOut?) && TokensOf(p.dec.usage, k) > 0 then TokensOf(p.dec.usage, k)
    else 0
  }

  /** The records a request has pushed by the time it stands at p. */
  function RecordsOf(id: nat, p: Phase): seq<Record> {
    match p
    case FailureDone(model, reason) => [FailureRecord(id, model, reason)]
    case Pushed(model, dec, _) => [DecisionRecord(id, model, dec)]
    case CountedOut(model, dec) => [DecisionRecord(id, model, dec)]
    case _ => []
  }

  /** What is known of a request wherever it stands. */
  predicate Truthful(p: Phase) {
    match p
    case Returned(_, dec, err) => dec.kind == DecisionFailed <==> err.Some?
    case Pushed(_, dec, k) => dec.kind != DecisionFailed && k <= 4
    case CountedOut(_, dec) => dec.kind != DecisionFailed
    case FailureCounted(_, reason) => reason != ""
    case FailureDone(_, reason) => reason != ""
    case _ => true
  }

  function Worth(inc: Option<Increment>, m: Metric): int {
    if inc.Some? && inc.value.metric == m then inc.value.n else 0
  }

  /** Every step books exactly what it counts and pushes. */
  lemma MovesAreBooked(id: nat, p: Phase, input: Input, m: Metric)
    requires MoveOf(id, p, input).Some? && Truthful(p)
    ensures var move := MoveOf(id, p, input).value;
            && Credit(m, move.to) == Credit(m, p) + Worth(move.counts, m)
            && RecordsOf(id, move.to) == RecordsOf(id, p) + move.pushes
            && forall r :: r in move.pushes ==> r.request == id
  {
  }

  lemma MovesStayTruthful(id: nat, p: Phase, input: Input)
    requires MoveOf(id, p, input).Some? && Truthful(p)
    requires input.Return? ==> Returns(input.dec, input.err)
    ensures Truthful(MoveOf(id, p, input).value.to)
  {
    if p.Running? && input.Return? {
      var w, accepts, at, model, base :|
        Answers(w, model, base) && (input.dec, input.err) == (Stamp(RunOutcome(w, accepts, at, model, base)),
                                                              RunOutcome(w, accepts, at, model, base).ruling.err);
      SinkProtocol(w, accepts, at, model, base);
    }
  }

  lemma {:induction false} SumByAdds(f: Phase -> int, g: Phase -> int, h: Phase -> int, ps: seq<Phase>)
    requires forall p :: f(p) == g(p) + h(p)
    ensures SumBy(f, ps) == SumBy(g, ps) + SumBy(h, ps)
  {
    if ps != [] {
      SumByAdds(f, g, h, ps[1..]);
    }
  }

  function CreditIn(m: Metric): Phase -> int { p => Credit(m, p) }

  function Mine(id: nat): Record -> seq<Record> {
    (r: Record) => if r.request == id then [r] else []
  }

  /** The records pushed for one request, in order. */
  function RecordsFor(id: nat, pushed: seq<Record>): seq<Record> { Flatten(Mine(id), pushed) }

  lemma {:induction false} AllMine(id: nat, rs: seq<Record>)
    requires forall r :: r in rs ==> r.request == id
    ensures RecordsFor(id, rs) == rs
  {
    if rs != [] {
      AllMine(id, rs[1..]);
      assert rs == [rs[0]] + rs[1..];
    }
  }

  lemma {:induction false} NoneMine(id: nat, rs: seq<Record>)
    requires forall r :: r in rs ==> r.request != id
    ensures RecordsFor(id, rs) == []
  {
    if rs != [] {
      NoneMine(id, rs[1..]);
    }
  }

  /** Every metric's total over its labels is the sum of what the requests added to it. */
  ghost predicate Booked(s: State) {
    forall m: Metric :: TotalOf(s.counters, NameOf(m)) == SumBy(CreditIn(m), s.phases)
  }

  /** Every request has pushed exactly the records its phase calls for. */
  ghost predicate Recorded(s: State) {
    && (forall r :: r in s.pushed ==> r.request < |s.phases|)
    && (forall i :: 0 <= i < |s.phases| ==> RecordsFor(i, s.pushed) == RecordsOf(i, s.phases[i]))
  }

  ghost predicate AllTruthful(ps: seq<Phase>) {
    forall i :: 0 <= i < |ps| ==> Truthful(ps[i])
  }

  lemma ArrivalKeepsBooks(s: State)
    requires Booked(s)
    ensures Booked(s.(phases := s.phases + [Arrived]))
  {
    forall m: Metric ensures TotalOf(s.counters, NameOf(m)) == SumBy(CreditIn(m), s.phases + [Arrived]) {
      SumByAppend(CreditIn(m), s.phases, Arrived);
    }
  }

  lemma ArrivalKeepsRecords(s: State)
    requires Recorded(s)
    ensures Recorded(s.(phases := s.phases + [Arrived]))
  {
    NoneMine(|s.phases|, s.pushed);
  }

  lemma StepKeepsBooks(quote: Quote, s: State, i: nat, input: Input)
    requires Booked(s) && i < |s.phases| && Truthful(s.phases[i]) && MoveOf(i, s.phases[i], input).Some?
    ensures Booked(Moved(quote, s, i, MoveOf(i, s.phases[i], input).value))
  {
    var move := MoveOf(i, s.phases[i], input).value;
    var t := Moved(quote, s, i, move);
    forall m: Metric ensures TotalOf(t.counters, NameOf(m)) == SumBy(CreditIn(m), t.phases) {
      MovesAreBooked(i, s.phases[i], input, m);
      SumByUpdate(CreditIn(m), s.phases, i, move.to);
      if move.counts.Some? {
        IncrementAdds(quote, s.counters, move.counts.value, m);
      }
    }
  }

  lemma StepKeepsRecords(quote: Quote, s: State, i: nat, input: Input)
    requires Recorded(s) && i < |s.phases| && Truthful(s.phases[i]) && MoveOf(i, s.phases[i], input).Some?
    ensures Recorded(Moved(quote, s, i, MoveOf(i, s.phases[i], input).value))
  {
    var move := MoveOf(i, s.phases[i], input).value;
    var t := Moved(quote, s, i, move);
    MovesAreBooked(i, s.phases[i], input, Requests);
    forall k | 0 <= k < |t.phases| ensures RecordsFor(k, t.pushed) == RecordsOf(k, t.phases[k]) {
      FlattenAppend(Mine(k), s.pushed, move.pushes);
      if k == i {
        AllMine(i, move.pushes);
      } else {
        NoneMine(k, move.pushes);
        assert RecordsFor(k, s.pushed) + [] == RecordsFor(k, s.pushed);
      }
    }
  }

  lemma {:induction false} LedgerHolds(quote: Quote, s: State, actions: seq<Action>)
    requires Reached(quote, s, actions)
    ensures Booked(s) && Recorded(s) && AllTruthful(s.phases)
    decreases |actions|
  {
    if actions != [] {
      var n := |actions| - 1;
      var before :| Reached(quote, before, actions[..n]) && Enabled(before, actions[n])
                    && s == After(quote, before, actions[n]);
      LedgerHolds(quote, before, actions[..n]);
      match actions[n]
      case Arrive =>
        ArrivalKeepsBooks(before);
        ArrivalKeepsRecords(before);
      case Step(i, input) =>
        StepKeepsBooks(quote, before, i, input);
        StepKeepsRecords(quote, before, i, input);
        MovesStayTruthful(i, before.phases[i], input);
    }
  }

  // ---------- The totals ----------

  /** Counted in and not yet counted out. */
  predicate InFlight(p: Phase) {
    p.Counted? || p.Running? || p.Returned? || p.Pushed?
  }

  function One(b: bool): int { if b then 1 else 0 }

  function Flying(p: Phase): int { One(InFlight(p)) }
  function NeverOpened(p: Phase): int { One(p.InitFailed?) }
  function OutAs(p: Phase): int { Credit(ToolCalls, p) + Credit(Fusions, p) }
  function OutBadly(p: Phase): int { Credit(Degradations, p) + Credit(Failures, p) }
  function Settled(p: Phase): int { OutAs(p) + OutBadly(p) }
  function Open(p: Phase): int { Flying(p) + NeverOpened(p) }

  /** In every reachable state, for any number of requests in any interleaving: the requests counted
      are those counted out as a tool call, a fusion, a degradation or a failure, those still in
      flight, and those whose stream could not be opened; and each request has pushed exactly one
      status record, its own, if its handler got that far, and none otherwise. The record says failed
      exactly when the run returned an error. */
  lemma RequestAccounting(quote: Quote, s: State, actions: seq<Action>)
    requires Reached(quote, s, actions)
    ensures TotalOf(s.counters, NameOf(Requests))
         == TotalOf(s.counters, NameOf(ToolCalls)) + TotalOf(s.counters, NameOf(Fusions))
            + TotalOf(s.counters, NameOf(Degradations)) + TotalOf(s.counters, NameOf(Failures))
            + SumBy(Flying, s.phases) + SumBy(NeverOpened, s.phases)
    ensures forall i :: 0 <= i < |s.phases| ==> RecordsFor(i, s.pushed) == RecordsOf(i, s.phases[i])
    ensures forall i, r :: 0 <= i < |s.phases| && r in RecordsFor(i, s.pushed) ==>
              RecordTells(r, i, s.phases[i]) && (r.decision == DecisionFailed <==> s.phases[i].FailureDone?)
  {
    LedgerHolds(quote, s, actions);
    TotalsAddUp(s);
    forall i, r | 0 <= i < |s.phases| && r in RecordsFor(i, s.pushed) ensures RecordTells(r, i, s.phases[i]) {
      RecordsTell(i, s.phases[i], r);
    }
  }

  /** What a record says of the request that left it: of a failed run its reason and nothing else; of any
      other its whole decision, with the usage unless there was none. */
  predicate RecordTells(r: Record, id: nat, p: Phase) {
    && r.request == id
    && (p.FailureDone? ==>
          && r.model == p.model && r.decision == DecisionFailed && r.fallbackReason == p.reason != ""
          && r.panel == [] && r.judgeAnalysis.None? && r.finalAnswerBytes == 0 && r.finalAnswerHead == ""
          && r.usage.None?)
    && (p.Pushed? || p.CountedOut? ==>
          && r.model == p.model && r.decision == p.dec.kind && r.fallbackReason == p.dec.fallbackReason
          && r.panel == p.dec.panel && r.judgeAnalysis == p.dec.judgeAnalysis
          && r.finalAnswerBytes == p.dec.finalAnswerBytes && r.finalAnswerHead == p.dec.finalAnswerHead
          && (r.usage.Some? ==> r.usage.value == p.dec.usage) && (r.usage.None? <==> Unused(p.dec.usage)))
  }

  predicate Unused(u: Usage) {
    u.promptTokens == u.completionTokens == u.cacheReadTokens == u.cacheCreationTokens == 0
  }

  lemma RecordsTell(id: nat, p: Phase, r: Record)
    requires r in RecordsOf(id, p) && Truthful(p)
    ensures RecordTells(r, id, p)
  {
  }

  lemma TotalsAddUp(s: State)
    requires Booked(s)
    ensures TotalOf(s.counters, NameOf(Requests))
         == TotalOf(s.counters, NameOf(ToolCalls)) + TotalOf(s.counters, NameOf(Fusions))
            + TotalOf(s.counters, NameOf(Degradations)) + TotalOf(s.counters, NameOf(Failures))
            + SumBy(Flying, s.phases) + SumBy(NeverOpened, s.phases)
  {
    forall p ensures CreditIn(Requests)(p) == Settled(p) + Open(p) {
    }
    SumByAdds(CreditIn(Requests), Settled, Open, s.phases);
    SumByAdds(Settled, OutAs, OutBadly, s.phases);
    SumByAdds(Open, Flying, NeverOpened, s.phases);
    SumByAdds(OutAs, CreditIn(ToolCalls), CreditIn(Fusions), s.phases);
    SumByAdds(OutBadly, CreditIn(Degradations), CreditIn(Failures), s.phases);
  }

  /** What a handler has counted in of its run's tokens: nothing before their turn, which is the n-th, and
      nothing where there are none. */
  predicate CountedIn(p: Phase, n: nat) { (p.Pushed? && p.added > n) || p.CountedOut? }

  function Positive(n: int): int { if n > 0 then n else 0 }

  function InputUsed(p: Phase): int { if CountedIn(p, 0) then Positive(p.dec.usage.promptTokens) else 0 }

  function OutputUsed(p: Phase): int { if CountedIn(p, 1) then Positive(p.dec.usage.completionTokens) else 0 }

  function CacheRead(p: Phase): int { if CountedIn(p, 2) then Positive(p.dec.usage.cacheReadTokens) else 0 }

  function CacheCreated(p: Phase): int { if CountedIn(p, 3) then Positive(p.dec.usage.cacheCreationTokens) else 0 }

  /** The token totals are what the recorded runs used: every token of every run whose counters are
      all in, each counted once and only where positive. */
  lemma TokenTotals(quote: Quote, s: State, actions: seq<Action>)
    requires Reached(quote, s, actions)
    ensures TotalOf(s.counters, NameOf(InputTokens)) == SumBy(InputUsed, s.phases)
    ensures TotalOf(s.counters, NameOf(OutputTokens)) == SumBy(OutputUsed, s.phases)
    ensures TotalOf(s.counters, NameOf(CacheReadTokens)) == SumBy(CacheRead, s.phases)
    ensures TotalOf(s.counters, NameOf(CacheCreationTokens)) == SumBy(CacheCreated, s.phases)
  {
    LedgerHolds(quote, s, actions);
    PromptTotals(s);
    CacheTotals(s);
  }

  lemma PromptTotals(s: State)
    requires Booked(s)
    ensures TotalOf(s.counters, NameOf(InputTokens)) == SumBy(InputUsed, s.phases)
    ensures TotalOf(s.counters, NameOf(OutputTokens)) == SumBy(OutputUsed, s.phases)
  {
    TotalIs(s, InputTokens, InputUsed);
    TotalIs(s, OutputTokens, OutputUsed);
  }

  lemma CacheTotals(s: State)
    requires Booked(s)
    ensures TotalOf(s.counters, NameOf(CacheReadTokens)) == SumBy(CacheRead, s.phases)
    ensures TotalOf(s.counters, NameOf(CacheCreationTokens)) == SumBy(CacheCreated, s.phases)
  {
    TotalIs(s, CacheReadTokens, CacheRead);
    TotalIs(s, CacheCreationTokens, CacheCreated);
  }

  lemma TotalIs(s: State, m: Metric, used: Phase -> int)
    requires Booked(s) && forall p :: Credit(m, p) == used(p)
    ensures TotalOf(s.counters, NameOf(m)) == SumBy(used, s.phases)
  {
    SameSums(CreditIn(m), used, s.phases);
  }

  lemma {:induction false} SameSums(f: Phase -> int, g: Phase -> int, ps: seq<Phase>)
    requires forall p :: f(p) == g(p)
    ensures SumBy(f, ps) == SumBy(g, ps)
  {
    if ps != [] {
      SameSums(f, g, ps[1..]);
    }
  }

  predicate Concluding(p: Phase) {
    p.Returned? || p.FailureCounted? || p.FailureDone? || p.Pushed? || p.CountedOut?
  }

  lemma ConcludingStep(quote: Quote, id: nat, b: Books, m: Metric)
    requires Concluding(b.phase) && Truthful(b.phase) && MoveOf(id, b.phase, Proceed).Some?
    ensures var next := Took(quote, b, MoveOf(id, b.phase, Proceed).value);
            && Concluding(next.phase) && Truthful(next.phase)
            && TotalOf(next.counters, NameOf(m)) - Credit(m, next.phase)
               == TotalOf(b.counters, NameOf(m)) - Credit(m, b.phase)
  {
    var move := MoveOf(id, b.phase, Proceed).value;
    MovesAreBooked(id, b.phase, Proceed, m);
    if move.counts.Some? {
      IncrementAdds(quote, b.counters, move.counts.value, m);
    }
  }

  /** A handler left to itself after its run ends counted out or failed, counted in exactly the totals
      its end calls for. */
  lemma {:induction false} ConclusionIsBooked(quote: Quote, id: nat, b: Books, m: Metric)
    requires Concluding(b.phase) && Truthful(b.phase)
    ensures var e := Conclude(quote, id, b);
            && (e.phase.CountedOut? || e.phase.FailureDone?)
            && TotalOf(e.counters, NameOf(m)) - Credit(m, e.phase)
               == TotalOf(b.counters, NameOf(m)) - Credit(m, b.phase)
    decreases StepsLeft(b.phase)
  {
    if MoveOf(id, b.phase, Proceed).Some? {
      ConcludingStep(quote, id, b, m);
      ConclusionIsBooked(quote, id, Took(quote, b, MoveOf(id, b.phase, Proceed).value), m);
    }
  }

  /** A handler left to itself after its run pushes one record, that of its end. */
  lemma {:induction false} ConclusionIsRecorded(quote: Quote, id: nat, b: Books)
    requires Concluding(b.phase)
    ensures var e := Conclude(quote, id, b);
            && e.pushed == b.pushed + (if RecordsOf(id, b.phase) == [] then RecordsOf(id, e.phase) else [])
            && |RecordsOf(id, e.phase)| == 1
            && (RecordsOf(id, b.phase) != [] ==> RecordsOf(id, e.phase) == RecordsOf(id, b.phase))
    decreases StepsLeft(b.phase)
  {
    if MoveOf(id, b.phase, Proceed).Some? {
      var next := Took(quote, b, MoveOf(id, b.phase, Proceed).value);
      ConclusionIsRecorded(quote, id, next);
      assert next.pushed + [] == next.pushed;
    } else {
      assert b.pushed + [] == b.pushed;
    }
  }
}

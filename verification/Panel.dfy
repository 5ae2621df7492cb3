/** The panel fan-out (internal/fusion/panel.go): one goroutine per endpoint writing its slot of a
    shared slice, with one retry for empty answers. */
module Panel {
  import opened Wrappers
  import opened Seqs
  import opened Providers

  /** A registered provider: the ID it is looked up by and how it was built. */
  datatype Provider = Provider(name: string, kind: string, baseURL: string, apiKey: string)

  type Registry = map<string, Provider>

  /** Which upstream call of a run a request belongs to. */
  datatype Phase = Speculative | PanelCall(slot: nat, attempt: nat) | JudgeCall(attempt: nat)

  /** Every upstream answers every call somehow. */
  type Upstream = (Provider, Phase, CompletionRequest) -> Reply

  /** A call made and what came back. */
  datatype Exchange =
    | Completed(provider: Provider, phase: Phase, request: CompletionRequest, reply: Reply)
    | Streamed(provider: Provider, request: CompletionRequest, usage: Usage)

  function Ask(upstream: Upstream, provider: Provider, phase: Phase, request: CompletionRequest): Exchange {
    Completed(provider, phase, request, upstream(provider, phase, request))
  }

  /** The reply is what the upstream says to just this request. */
  predicate Replied(upstream: Upstream, e: Exchange) {
    e.Completed? ==> e.reply == upstream(e.provider, e.phase, e.request)
  }

  function UsageOf(e: Exchange): Usage {
    match e
    case Completed(_, _, _, Answered(r)) => r.usage
    case Completed(_, _, _, _) => NO_USAGE
    case Streamed(_, _, u) => u
  }

  datatype MemberResult = MemberResult(
    endpoint: Endpoint, response: Option<CompletionResponse>, err: Option<Failure>, attempts: nat)
  {
    predicate OK() {
      err.None? && response.Some? && response.value.content != ""
    }
  }

  const BLANK_ENDPOINT := Endpoint("", "", None, None, "")
  const BLANK := MemberResult(BLANK_ENDPOINT, None, None, 0)

  const PANEL_RETRY_FLOOR := 8192

  function PanelRequest(base: CompletionRequest, ep: Endpoint): CompletionRequest {
    WithEndpoint(base, ep).(tools := [], toolChoice := "")
  }

  function RetryRequest(base: CompletionRequest, ep: Endpoint): CompletionRequest {
    var floor := if ep.maxTokens.Some? && ep.maxTokens.value > PANEL_RETRY_FLOOR then ep.maxTokens.value
                 else PANEL_RETRY_FLOOR;
    PanelRequest(base, ep).(maxTokens := Some(floor))
  }

  function WithReply(out: MemberResult, reply: Reply): MemberResult {
    match reply
    case Answered(r) => out.(response := Some(r), err := None)
    case Nothing => out.(response := None, err := None)
    case Failed(e) => out.(response := None, err := Some(e))
  }

  predicate EmptyAnswer(reply: Reply) {
    reply.Answered? && reply.response.content == ""
  }

  /** What the fan-out works on. */
  datatype Job = Job(registry: Registry, endpoints: seq<Endpoint>, base: CompletionRequest, upstream: Upstream)
  {
    predicate Registered(i: nat)
      requires i < |endpoints|
    {
      endpoints[i].provider in registry
    }

    function First(i: nat): Exchange
      requires i < |endpoints| && Registered(i)
    {
      var req := PanelRequest(base, endpoints[i]);
      Ask(upstream, registry[endpoints[i].provider], PanelCall(i, 1), req)
    }

    function Retry(i: nat): Exchange
      requires i < |endpoints| && Registered(i)
    {
      var req := RetryRequest(base, endpoints[i]);
      Ask(upstream, registry[endpoints[i].provider], PanelCall(i, 2), req)
    }

    /** The calls made for slot i, in order. */
    function Calls(i: nat): seq<Exchange>
      requires i < |endpoints|
    {
      if !Registered(i) then []
      else [First(i)] + (if EmptyAnswer(First(i).reply) then [Retry(i)] else [])
    }

    /** The outcome of slot i when nothing else runs. */
    function Result(i: nat): (r: MemberResult)
      requires i < |endpoints|
      ensures r.endpoint == endpoints[i]
      ensures r.attempts == |Calls(i)| <= 2
      ensures r.attempts == 0 <==> !Registered(i)
    {
      if !Registered(i) then MemberResult(endpoints[i], None, Some(NotRegistered(endpoints[i].provider)), 0)
      else
        var reply := Calls(i)[|Calls(i)| - 1].reply;
        WithReply(MemberResult(endpoints[i], None, None, |Calls(i)|), reply)
    }

    function Results(): (rs: seq<MemberResult>)
      ensures |rs| == |endpoints|
    {
      seq(|endpoints|, i requires 0 <= i < |endpoints| => Result(i))
    }

    /** The calls of the slots, each in order. */
    function CallLists(): (lists: seq<seq<Exchange>>)
      ensures |lists| == |endpoints|
    {
      seq(|endpoints|, i requires 0 <= i < |endpoints| => Calls(i))
    }

    /** All calls, slot after slot. */
    function AllCalls(): seq<Exchange> { Concat(CallLists()) }
  }

  // ---------- The goroutines as a step machine ----------

  /** Where the goroutine of a slot stands. */
  datatype Task =
    | NotLaunched
    | Spawned                       // has not read its slot yet
    | Calling(carry: MemberResult)  // holds a copy of its slot, first call not made
    | Retrying(carry: MemberResult) // the first answer was empty, second call not made
    | Storing(out: MemberResult)    // about to write its slot
    | Exited

  datatype State = State(launched: nat, tasks: seq<Task>, results: seq<MemberResult>, log: seq<Exchange>)

  /** Either the launching loop or the goroutine of one slot moves. */
  datatype Action = Launch | Work(slot: nat)

  function Start(job: Job): State {
    State(0, seq(|job.endpoints|, _ => NotLaunched), seq(|job.endpoints|, _ => BLANK), [])
  }

  predicate Fits(job: Job, s: State) {
    |s.tasks| == |s.results| == |job.endpoints| && s.launched <= |job.endpoints|
  }

  predicate Enabled(job: Job, s: State, a: Action) {
    && Fits(job, s)
    && match a
       case Launch => s.launched < |job.endpoints|
       case Work(i) => i < |job.endpoints| && job.Registered(i) && !s.tasks[i].NotLaunched? && !s.tasks[i].Exited?
  }

  function Apply(job: Job, s: State, a: Action): State
    requires Enabled(job, s, a)
  {
    match a
    case Launch => LaunchNext(job, s)
    case Work(i) => WorkOn(job, s, i)
  }

  /** One round of the loop: the slot gets its endpoint, then either an error or a goroutine. */
  function LaunchNext(job: Job, s: State): State
    requires Fits(job, s) && s.launched < |job.endpoints|
  {
    var i := s.launched;
    var slot := s.results[i].(endpoint := job.endpoints[i]);
    if job.Registered(i) then
      s.(launched := i + 1, tasks := s.tasks[i := Spawned], results := s.results[i := slot])
    else
      s.(launched := i + 1, tasks := s.tasks[i := Exited],
         results := s.results[i := slot.(err := Some(NotRegistered(job.endpoints[i].provider)))])
  }

  function WorkOn(job: Job, s: State, i: nat): State
    requires Fits(job, s) && i < |job.endpoints| && job.Registered(i)
  {
    match s.tasks[i]
    case Spawned => s.(tasks := s.tasks[i := Calling(s.results[i])])
    case Calling(carry) =>
      var e := job.First(i);
      var out := WithReply(carry.(attempts := 1), e.reply);
      s.(log := s.log + [e],
         tasks := s.tasks[i := if EmptyAnswer(e.reply) then Retrying(out) else Storing(out)])
    case Retrying(carry) =>
      var e := job.Retry(i);
      s.(log := s.log + [e], tasks := s.tasks[i := Storing(WithReply(carry.(attempts := 2), e.reply))])
    case Storing(out) => s.(tasks := s.tasks[i := Exited], results := s.results[i := out])
    case _ => s
  }

  /** The loop is over and every goroutine it launched has returned. */
  predicate Finished(job: Job, s: State) {
    Fits(job, s) && s.launched == |job.endpoints| && forall i :: 0 <= i < |s.tasks| ==> s.tasks[i].Exited?
  }

  ghost predicate Reaches(job: Job, s: State, actions: seq<Action>, t: State)
    decreases |actions|
  {
    if actions == [] then s == t
    else Enabled(job, s, actions[0]) && Reaches(job, Apply(job, s, actions[0]), actions[1..], t)
  }

  // ---------- The invariant ----------

  function Slot(job: Job, i: nat): MemberResult
    requires i < |job.endpoints|
  {
    BLANK.(endpoint := job.endpoints[i])
  }

  /** What slot i holds and what has been called for it, as its task says. */
  ghost predicate SlotInvariant(job: Job, s: State, i: nat)
    requires Fits(job, s) && i < |job.endpoints|
  {
    match s.tasks[i]
    case NotLaunched => i >= s.launched && s.results[i] == BLANK
    case Spawned => i < s.launched && job.Registered(i) && s.results[i] == Slot(job, i)
    case Calling(carry) => i < s.launched && job.Registered(i) && s.results[i] == Slot(job, i) == carry
    case Retrying(carry) =>
      && i < s.launched && job.Registered(i) && s.results[i] == Slot(job, i)
      && EmptyAnswer(job.First(i).reply) && carry == WithReply(Slot(job, i).(attempts := 1), job.First(i).reply)
    case Storing(out) => i < s.launched && job.Registered(i) && s.results[i] == Slot(job, i) && out == job.Result(i)
    case Exited => i < s.launched && s.results[i] == job.Result(i)
  }

  /** The calls slot i has made by the time its task stands where it does. */
  function Made(job: Job, task: Task, i: nat): seq<Exchange>
    requires i < |job.endpoints|
  {
    match task
    case Retrying(_) => if job.Registered(i) then [job.First(i)] else []
    case Storing(_) => job.Calls(i)
    case Exited => job.Calls(i)
    case _ => []
  }

  function MadeLists(job: Job, tasks: seq<Task>): (lists: seq<seq<Exchange>>)
    requires |tasks| == |job.endpoints|
    ensures |lists| == |tasks|
  {
    seq(|tasks|, i requires 0 <= i < |tasks| => Made(job, tasks[i], i))
  }

  ghost predicate Inv(job: Job, s: State) {
    && Fits(job, s)
    && (forall i: nat :: i < |job.endpoints| ==> SlotInvariant(job, s, i))
    && multiset(s.log) == Total(MadeLists(job, s.tasks))
  }

  /** Moving one task on adds exactly what that task has newly called. */
  lemma MadeChanges(job: Job, tasks: seq<Task>, i: nat, task: Task, more: seq<Exchange>)
    requires i < |tasks| == |job.endpoints|
    requires Made(job, task, i) == Made(job, tasks[i], i) + more
    ensures Total(MadeLists(job, tasks[i := task])) == Total(MadeLists(job, tasks)) + multiset(more)
  {
    var lists := MadeLists(job, tasks);
    assert MadeLists(job, tasks[i := task]) == lists[i := lists[i] + more];
    TotalExtends(lists, i, more);
  }

  lemma StartsRight(job: Job)
    ensures Inv(job, Start(job))
  {
    TotalOfNothing(MadeLists(job, Start(job).tasks));
  }

  lemma LaunchPreserves(job: Job, s: State)
    requires Inv(job, s) && Enabled(job, s, Launch)
    ensures Inv(job, Apply(job, s, Launch))
  {
    var t := Apply(job, s, Launch);
    var i := s.launched;
    assert SlotInvariant(job, s, i) && s.tasks[i].NotLaunched?;
    MadeChanges(job, s.tasks, i, t.tasks[i], []);
    forall k: nat | k < |job.endpoints| ensures SlotInvariant(job, t, k) {
      assert SlotInvariant(job, s, k);
    }
  }

  /** A goroutine's step keeps its own slot right and logs what it calls. */
  lemma WorkOnSlot(job: Job, s: State, i: nat) returns (more: seq<Exchange>)
    requires Enabled(job, s, Work(i)) && SlotInvariant(job, s, i)
    ensures var t := Apply(job, s, Work(i));
            && Fits(job, t) && t.launched == s.launched
            && t.log == s.log + more && Made(job, t.tasks[i], i) == Made(job, s.tasks[i], i) + more
            && t.tasks == s.tasks[i := t.tasks[i]] && t.results == s.results[i := t.results[i]]
            && SlotInvariant(job, t, i)
  {
    var t := Apply(job, s, Work(i));
    match s.tasks[i] {
      case Calling(_) => more := [job.First(i)];
      case Retrying(_) => more := [job.Retry(i)];
      case _ => more := [];
    }
  }

  lemma WorkPreserves(job: Job, s: State, i: nat)
    requires Inv(job, s) && Enabled(job, s, Work(i))
    ensures Inv(job, Apply(job, s, Work(i)))
  {
    var t := Apply(job, s, Work(i));
    assert SlotInvariant(job, s, i);
    var more := WorkOnSlot(job, s, i);
    MadeChanges(job, s.tasks, i, t.tasks[i], more);
    assert multiset(t.log) == multiset(s.log) + multiset(more);
    forall k: nat | k < |job.endpoints| ensures SlotInvariant(job, t, k) {
      assert SlotInvariant(job, s, k);
    }
  }

  lemma {:induction false} InvAlways(job: Job, s: State, actions: seq<Action>, t: State)
    requires Inv(job, s) && Reaches(job, s, actions, t)
    ensures Inv(job, t)
    decreases |actions|
  {
    if actions != [] {
      if actions[0].Launch? {
        LaunchPreserves(job, s);
      } else {
        WorkPreserves(job, s, actions[0].slot);
      }
      InvAlways(job, Apply(job, s, actions[0]), actions[1..], t);
    }
  }

  lemma AllMade(job: Job, s: State)
    requires Inv(job, s) && Finished(job, s)
    ensures s.results == job.Results()
    ensures multiset(s.log) == multiset(job.AllCalls())
  {
    assert MadeLists(job, s.tasks) == job.CallLists();
    TotalOfConcat(job.CallLists());
    forall i: nat | i < |job.endpoints| ensures s.results[i] == job.Result(i) {
      assert SlotInvariant(job, s, i);
    }
  }

  // ---------- The theorems ----------

  /** Whatever the interleaving, when the fan-out returns, slot i holds endpoint i's own outcome and
      the calls made are those of the endpoints one after the other, in some order. */
  lemma FanOutIsDeterministic(job: Job, actions: seq<Action>, t: State)
    requires Reaches(job, Start(job), actions, t) && Finished(job, t)
    ensures t.results == job.Results()
    ensures multiset(t.log) == multiset(job.AllCalls())
  {
    StartsRight(job);
    InvAlways(job, Start(job), actions, t);
    AllMade(job, t);
  }

  /** Steps a task still has in front of it, at most. */
  function TaskLeft(task: Task): nat {
    match task
    case NotLaunched => 5
    case Spawned => 4
    case Calling(_) => 3
    case Retrying(_) => 2
    case Storing(_) => 1
    case Exited => 0
  }

  function StepsLeft(tasks: seq<Task>): nat {
    if tasks == [] then 0 else TaskLeft(tasks[0]) + StepsLeft(tasks[1..])
  }

  lemma {:induction false} StepsLeftUpdate(tasks: seq<Task>, i: nat, task: Task)
    requires i < |tasks|
    ensures StepsLeft(tasks[i := task]) == StepsLeft(tasks) - TaskLeft(tasks[i]) + TaskLeft(task)
  {
    if i == 0 {
      assert tasks[i := task][1..] == tasks[1..];
    } else {
      StepsLeftUpdate(tasks[1..], i - 1, task);
      assert tasks[i := task][1..] == tasks[1..][i - 1 := task];
    }
  }

  /** Every step is progress, so no schedule runs for ever. */
  lemma StepsDecrease(job: Job, s: State, a: Action)
    requires Inv(job, s) && Enabled(job, s, a)
    ensures StepsLeft(Apply(job, s, a).tasks) < StepsLeft(s.tasks)
  {
    var i := OneTaskMoves(job, s, a);
    StepsLeftUpdate(s.tasks, i, Apply(job, s, a).tasks[i]);
  }

  /** A step moves one task, towards its end. */
  lemma OneTaskMoves(job: Job, s: State, a: Action) returns (i: nat)
    requires Inv(job, s) && Enabled(job, s, a)
    ensures i < |s.tasks| == |Apply(job, s, a).tasks|
    ensures Apply(job, s, a).tasks == s.tasks[i := Apply(job, s, a).tasks[i]]
    ensures TaskLeft(Apply(job, s, a).tasks[i]) < TaskLeft(s.tasks[i])
  {
    i := if a.Launch? then s.launched else a.slot;
    assert SlotInvariant(job, s, i);
  }

  /** No deadlock: an unfinished fan-out can always go on. */
  lemma SomeStep(job: Job, s: State) returns (a: Action)
    requires Inv(job, s) && !Finished(job, s)
    ensures Enabled(job, s, a)
  {
    if s.launched < |job.endpoints| {
      return Launch;
    }
    var i :| 0 <= i < |s.tasks| && !s.tasks[i].Exited?;
    assert SlotInvariant(job, s, i);
    return Work(i);
  }

  /** A panel call as it should be: to the slot's own provider and model, no tools, the conversation
      unchanged; a second call has room for the endpoint's own limit and for 8192 tokens at least. */
  predicate BareCall(job: Job, e: Exchange) {
    && e.Completed? && e.phase.PanelCall? && e.phase.slot < |job.endpoints| && 1 <= e.phase.attempt <= 2
    && var ep := job.endpoints[e.phase.slot];
       && ep.provider in job.registry && e.provider == job.registry[ep.provider]
       && AsksEndpoint(e.request, job.base, ep) && WithoutTools(e.request)
       && e.request.messages == job.base.messages && Replied(job.upstream, e)
       && (e.phase.attempt == 1 ==> LimitedBy(e.request, job.base, ep))
       && (e.phase.attempt == 2 ==>
             e.request.maxTokens == Some(if ep.maxTokens.Some? && ep.maxTokens.value > 8192 then ep.maxTokens.value
                                         else 8192))
  }

  /** The result shows this reply and no other. */
  predicate Shows(r: MemberResult, reply: Reply) {
    match reply
    case Answered(resp) => r.response == Some(resp) && r.err.None?
    case Nothing => r.response.None? && r.err.None?
    case Failed(e) => r.response.None? && r.err == Some(e)
  }

  /** The calls of a slot within a log. */
  predicate CallOf(e: Exchange, i: nat, attempt: nat) {
    e.Completed? && e.phase == PanelCall(i, attempt)
  }

  /** What a slot's result has to do with the calls in the log. One whose provider is not registered has
      made none. Any other has made a first, and a second exactly if the first answered with an empty
      text; the result shows the last of them. */
  ghost predicate Accounted(job: Job, log: seq<Exchange>, i: nat, r: MemberResult)
    requires i < |job.endpoints|
  {
    && r.endpoint == job.endpoints[i]
    && if job.endpoints[i].provider !in job.registry then
         && r.attempts == 0 && r.response.None? && r.err == Some(NotRegistered(job.endpoints[i].provider))
         && forall e, n :: e in log ==> !CallOf(e, i, n)
       else
         exists first: Exchange ::
           && first in log && CallOf(first, i, 1)
           && (forall e :: e in log && CallOf(e, i, 1) ==> e == first)
           && if first.reply.Answered? && first.reply.response.content == "" then
                r.attempts == 2 && exists second: Exchange ::
                  && second in log && CallOf(second, i, 2) && Shows(r, second.reply)
                  && forall e :: e in log && CallOf(e, i, 2) ==> e == second
              else
                r.attempts == 1 && Shows(r, first.reply) && forall e :: e in log ==> !CallOf(e, i, 2)
  }

  /** Every slot of a fan-out is accounted for, and every call is a bare one. */
  ghost predicate FannedOut(job: Job, results: seq<MemberResult>, log: seq<Exchange>) {
    && |results| == |job.endpoints|
    && (forall i :: 0 <= i < |results| ==> Accounted(job, log, i, results[i]))
    && forall e :: e in log ==> BareCall(job, e)
  }

  lemma SlotCalls(job: Job, log: seq<Exchange>, i: nat, e: Exchange, n: nat)
    requires multiset(log) == multiset(job.AllCalls()) && i < |job.endpoints|
    ensures e in log && CallOf(e, i, n) <==> e in job.Calls(i) && CallOf(e, i, n)
  {
    assert e in log <==> e in multiset(log);
    assert e in job.AllCalls() <==> e in multiset(job.AllCalls());
    if e in log && CallOf(e, i, n) {
      var j := InConcat(job.CallLists(), e);
      assert e in job.Calls(j) && e.phase.slot == j;
    }
    if e in job.Calls(i) {
      assert job.CallLists()[i] == job.Calls(i);
      ConcatHas(job.CallLists(), i, e);
    }
  }

  lemma SlotAccounted(job: Job, log: seq<Exchange>, i: nat)
    requires multiset(log) == multiset(job.AllCalls()) && i < |job.endpoints|
    ensures Accounted(job, log, i, job.Result(i))
  {
    forall e, n ensures e in log && CallOf(e, i, n) <==> e in job.Calls(i) && CallOf(e, i, n) {
      SlotCalls(job, log, i, e, n);
    }
    if job.Registered(i) {
      var (first, second, calls) := (job.First(i), job.Retry(i), job.Calls(i));
      assert calls[0] == first && CallOf(first, i, 1);
      if first.reply.Answered? && first.reply.response.content == "" {
        assert calls[1] == second && CallOf(second, i, 2);
      }
    }
  }

  /** Whatever order the calls were made in, results and log account for each other. */
  lemma FanOutAccounts(job: Job, log: seq<Exchange>)
    requires multiset(log) == multiset(job.AllCalls())
    ensures FannedOut(job, job.Results(), log)
  {
    forall i | 0 <= i < |job.endpoints| ensures Accounted(job, log, i, job.Results()[i]) {
      SlotAccounted(job, log, i);
    }
    forall e | e in log ensures BareCall(job, e) {
      assert e in multiset(log);
      assert e in job.AllCalls();
      PanelRequestsAreBare(job, e);
    }
  }

  /** No panel request carries tools, and each asks the provider and the model of its own slot. */
  lemma PanelRequestsAreBare(job: Job, e: Exchange)
    requires e in job.AllCalls()
    ensures BareCall(job, e)
  {
    var i := InConcat(job.CallLists(), e);
    assert e in job.Calls(i);
  }

  /** Runs the fan-out under a scheduler that picks among the enabled steps as it likes. */
  method RunPanel(job: Job, pick: (nat, State) -> Action) returns (results: seq<MemberResult>, log: seq<Exchange>)
    ensures results == job.Results()
    ensures multiset(log) == multiset(job.AllCalls())
    ensures FannedOut(job, results, log)
  {
    var s := Start(job);
    StartsRight(job);
    var clock := 0;
    while !Finished(job, s)
      invariant Inv(job, s)
      decreases StepsLeft(s.tasks)
    {
      var a := pick(clock, s);
      if !Enabled(job, s, a) {
        a := FirstEnabled(job, s);
      }
      StepsDecrease(job, s, a);
      if a.Launch? {
        LaunchPreserves(job, s);
      } else {
        WorkPreserves(job, s, a.slot);
      }
      s := Apply(job, s, a);
      clock := clock + 1;
    }
    AllMade(job, s);
    FanOutAccounts(job, s.log);
    return s.results, s.log;
  }

  method FirstEnabled(job: Job, s: State) returns (a: Action)
    requires Inv(job, s) && !Finished(job, s)
    ensures Enabled(job, s, a)
  {
    if s.launched < |job.endpoints| {
      return Launch;
    }
    var i := 0;
    while s.tasks[i].Exited?
      invariant 0 <= i < |s.tasks|
      invariant forall k :: 0 <= k < i ==> s.tasks[k].Exited?
      decreases |s.tasks| - i
    {
      i := i + 1;
      if i == |s.tasks| {
        assert Finished(job, s);
      }
    }
    assert SlotInvariant(job, s, i);
    return Work(i);
  }

  // ---------- The summary ----------

  function Usable(results: seq<MemberResult>): seq<MemberResult> {
    if results == [] then []
    else Usable(results[..|results| - 1]) + (if results[|results| - 1].OK() then [results[|results| - 1]] else [])
  }

  function Unusable(results: seq<MemberResult>): seq<MemberResult> {
    if results == [] then []
    else Unusable(results[..|results| - 1]) + (if results[|results| - 1].OK() then [] else [results[|results| - 1]])
  }

  datatype Summary = Summary(successes: seq<MemberResult>, failures: seq<MemberResult>)

  method SummarizePanel(results: seq<MemberResult>) returns (s: Summary)
    ensures s == Summary(Usable(results), Unusable(results))
  {
    var successes, failures := [], [];
    for i := 0 to |results|
      invariant successes == Usable(results[..i]) && failures == Unusable(results[..i])
    {
      assert results[..i + 1][..i] == results[..i];
      if results[i].OK() {
        successes := successes + [results[i]];
      } else {
        failures := failures + [results[i]];
      }
    }
    assert results[..|results|] == results;
    s := Summary(successes, failures);
  }

  lemma SummarySnoc(results: seq<MemberResult>, r: MemberResult)
    ensures Usable(results + [r]) == Usable(results) + (if r.OK() then [r] else [])
    ensures Unusable(results + [r]) == Unusable(results) + (if r.OK() then [] else [r])
  {
    assert (results + [r])[..|results|] == results;
  }

  /** Each member lands in exactly one half: the usable ones on one side, the rest on the other. */
  lemma {:induction false} SummaryLosesNothing(results: seq<MemberResult>)
    ensures multiset(Usable(results)) + multiset(Unusable(results)) == multiset(results)
    ensures forall r :: r in Usable(results) ==> AnsweredWell(r)
    ensures forall r :: r in Unusable(results) ==> !AnsweredWell(r)
    decreases |results|
  {
    if results != [] {
      var n := |results| - 1;
      var (before, last) := (results[..n], results[n]);
      assert results == before + [last];
      SummaryLosesNothing(before);
      SummarySnoc(before, last);
    }
  }

  /** A member that answered, and with some text. */
  predicate AnsweredWell(m: MemberResult) {
    m.err.None? && m.response.Some? && |m.response.value.content| > 0
  }

  /** Both halves keep the members in their original order: those that answered with some text, and the
      others. */
  lemma {:induction false} SummaryKeepsOrder(results: seq<MemberResult>) returns (good: seq<nat>, bad: seq<nat>)
    ensures Picks(Usable(results), results, AnsweredWell, good)
    ensures Picks(Unusable(results), results, m => !AnsweredWell(m), bad)
    decreases |results|
  {
    if results == [] {
      PicksNothing(AnsweredWell);
      PicksNothing((m: MemberResult) => !AnsweredWell(m));
      return [], [];
    }
    var n := |results| - 1;
    var (before, last) := (results[..n], results[n]);
    assert results == before + [last];
    good, bad := SummaryKeepsOrder(before);
    good := PicksOn(Usable(before), before, AnsweredWell, good, last);
    bad := PicksOn(Unusable(before), before, (m: MemberResult) => !AnsweredWell(m), bad, last);
    SummarySnoc(before, last);
  }
}

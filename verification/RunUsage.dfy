/** What every pipeline run exchanges with its upstreams, and what it accounts for. */
module RunUsage {
  import opened Wrappers
  import opened Seqs
  import opened Providers
  import opened Sinks
  import opened Panel
  import opened Judge
  import opened Handoff
  import opened Pipeline
  import opened RunTheorems

  // ---------- Usage is conserved ----------

  /** A panel call whose empty answer was dropped for a retry: its response is overwritten, and its
      usage with it. */
  predicate Overwritten(e: Exchange) {
    e.Completed? && e.phase.PanelCall? && e.phase.attempt == 1
    && e.reply.Answered? && e.reply.response.content == ""
  }

  function Kept(e: Exchange): Usage { if Overwritten(e) then NO_USAGE else UsageOf(e) }

  function Lost(e: Exchange): Usage { if Overwritten(e) then UsageOf(e) else NO_USAGE }

  /** The usage is what the exchanges amount to, overwritten ones aside. */
  ghost predicate Balanced(log: seq<Exchange>, usage: Usage) {
    usage == SumOf(Kept, log)
  }

  lemma BalancedAppend(a: seq<Exchange>, u: Usage, b: seq<Exchange>, v: Usage)
    requires Balanced(a, u) && Balanced(b, v)
    ensures Balanced(a + b, u.Add(v))
  {
    SumOfAppend(Kept, a, b);
  }

  lemma OneBalanced(e: Exchange)
    ensures Balanced([e], Kept(e))
  {
    SumOfOne(Kept, e);
  }

  /** One slot: the response it ends with accounts for all its calls but an overwritten one. */
  lemma SlotBalanced(job: Job, i: nat)
    requires i < |job.endpoints|
    ensures Balanced(job.Calls(i), MemberUsage(job.Result(i)))
  {
    if job.Registered(i) {
      var (first, retry) := (job.First(i), job.Retry(i));
      TwoCallsBalanced(first, retry);
      SlotUsage(job, i);
    } else {
      assert job.Calls(i) == [] && MemberUsage(job.Result(i)) == NO_USAGE;
    }
  }

  /** What slot i's response reports is the usage of its last call. */
  lemma SlotUsage(job: Job, i: nat)
    requires i < |job.endpoints| && job.Registered(i)
    ensures MemberUsage(job.Result(i))
         == UsageOf(if EmptyAnswer(job.First(i).reply) then job.Retry(i) else job.First(i))
    ensures job.Calls(i) == [job.First(i)] + (if EmptyAnswer(job.First(i).reply) then [job.Retry(i)] else [])
  {
    var reply := job.Calls(i)[|job.Calls(i)| - 1].reply;
    ReplyUsage(MemberResult(job.endpoints[i], None, None, |job.Calls(i)|), reply);
  }

  lemma ReplyUsage(out: MemberResult, reply: Reply)
    ensures MemberUsage(WithReply(out, reply)) == (if reply.Answered? then reply.response.usage else NO_USAGE)
  {
  }

  lemma TwoCallsBalanced(first: Exchange, retry: Exchange)
    requires first.Completed? && retry.Completed? && first.phase.PanelCall? && retry.phase.PanelCall?
    requires first.phase.attempt == 1 && retry.phase.attempt == 2
    ensures EmptyAnswer(first.reply) ==> Balanced([first] + [retry], UsageOf(retry))
    ensures !EmptyAnswer(first.reply) ==> Balanced([first] + [], UsageOf(first))
  {
    OneBalanced(first);
    if EmptyAnswer(first.reply) {
      OneBalanced(retry);
      BalancedAppend([first], NO_USAGE, [retry], UsageOf(retry));
      AddNothing(UsageOf(retry));
    } else {
      assert [first] + [] == [first];
    }
  }

  lemma {:induction false} SlotsBalanced(lists: seq<seq<Exchange>>, results: seq<MemberResult>)
    requires |lists| == |results|
    requires forall i :: 0 <= i < |lists| ==> Balanced(lists[i], MemberUsage(results[i]))
    ensures Balanced(Concat(lists), SumOf(MemberUsage, results))
  {
    if lists != [] {
      SlotsBalanced(lists[1..], results[1..]);
      BalancedAppend(lists[0], MemberUsage(results[0]), Concat(lists[1..]), SumOf(MemberUsage, results[1..]));
    }
  }

  lemma PanelBalanced(job: Job)
    ensures Balanced(job.AllCalls(), SumOf(MemberUsage, job.Results()))
  {
    forall i | 0 <= i < |job.endpoints| ensures Balanced(job.CallLists()[i], MemberUsage(job.Results()[i])) {
      SlotBalanced(job, i);
    }
    SlotsBalanced(job.CallLists(), job.Results());
  }

  lemma VerdictBalanced(parse: Unmarshal, first: Exchange, second: Exchange)
    requires first.Completed? && second.Completed? && !first.phase.PanelCall? && !second.phase.PanelCall?
    ensures Balanced(Verdict(parse, first, second).calls, Verdict(parse, first, second).usage)
  {
    OneBalanced(first);
    OneBalanced(second);
    BalancedAppend([first], UsageOf(first), [second], UsageOf(second));
    VerdictUsage(parse, first, second);
  }

  lemma VerdictUsage(parse: Unmarshal, first: Exchange, second: Exchange)
    requires first.Completed? && second.Completed?
    ensures var v := Verdict(parse, first, second);
            || (v.calls == [first] && v.usage == UsageOf(first))
            || (v.calls == [first] + [second] && v.usage == UsageOf(first).Add(UsageOf(second)))
  {
  }

  lemma JudgeBalanced(registry: Registry, upstream: Upstream, unmarshal: Unmarshal, ep: Endpoint,
                      messages: seq<Message>, successes: seq<MemberResult>)
    returns (out: JudgeOutcome)
    ensures out == JudgeResult(registry, upstream, unmarshal, ep, messages, successes)
    ensures Balanced(out.calls, out.usage)
  {
    out := JudgeResult(registry, upstream, unmarshal, ep, messages, successes);
    if ep.provider in registry {
      var provider, req := registry[ep.provider], JudgeRequest(ep, messages, successes);
      VerdictBalanced(Reader(unmarshal), Ask(upstream, provider, JudgeCall(1), req),
                      Ask(upstream, provider, JudgeCall(2), Stricter(req)));
    }
  }

  ghost predicate InBalance(st: Stage) { Balanced(st.log, st.usage) }

  /** The usage of a stream is known if it came to its end. */
  predicate UsedBy(s: Script, usage: Usage) {
    usage == NO_USAGE || (s.end.Finished? && usage == s.end.usage)
  }

  /** The final call adds one exchange, whatever follows it. */
  lemma FinalStageLog(w: World, accepts: Schedule, at: nat, st: Stage, provider: Provider, req: CompletionRequest,
                      spec: CompletionResponse, panel: seq<PanelResult>, analysis: JudgeAnalysis)
    returns (usage: Usage)
    ensures var after := FinalStage(w, accepts, at, st, provider, req, spec, panel, analysis).stage;
            after.log == st.log + [Streamed(provider, req, usage)] && after.usage == st.usage.Add(usage)
    ensures UsedBy(w.stream(provider, req), usage)
  {
    usage := StreamResult(w.stream(provider, req), accepts, at + |st.evs|).0;
  }

  lemma FinalStageBalanced(w: World, accepts: Schedule, at: nat, st: Stage, provider: Provider, req: CompletionRequest,
                           spec: CompletionResponse, panel: seq<PanelResult>, analysis: JudgeAnalysis)
    requires InBalance(st)
    ensures InBalance(FinalStage(w, accepts, at, st, provider, req, spec, panel, analysis).stage)
  {
    var usage := FinalStageLog(w, accepts, at, st, provider, req, spec, panel, analysis);
    OneBalanced(Streamed(provider, req, usage));
    BalancedAppend(st.log, st.usage, [Streamed(provider, req, usage)], usage);
  }

  lemma PanelStageBalanced(w: World, accepts: Schedule, at: nat, st: Stage, model: Model, base: CompletionRequest,
                           spec: CompletionResponse)
    requires model.primary.provider in w.registry && InBalance(st)
    ensures InBalance(PanelStage(w, accepts, at, st, model, base, spec).stage)
  {
    var inv := (s: Stage) => InBalance(s);
    var goal := (o: Outcome) => InBalance(o.stage);
    var job := PanelJob(w, model, base);
    PanelBalanced(job);
    var judged := JudgeBalanced(w.registry, w.complete, w.unmarshal, model.judge, base.messages,
                                Compared(w, model, base, spec));
    forall s: Stage | inv(s) ensures inv(WithPanel(w, model, base, s)) {
      BalancedAppend(s.log, s.usage, job.AllCalls(), SumOf(MemberUsage, job.Results()));
    }
    forall s: Stage | inv(s) ensures inv(WithJudge(w, model, base, Compared(w, model, base, spec), s)) {
      BalancedAppend(s.log, s.usage, judged.calls, judged.usage);
    }
    forall s: Stage, analysis | inv(s) ensures goal(FinalTurn(w, accepts, at, s, model, base, spec, analysis)) {
      FinalStageBalanced(w, accepts, at, s, w.registry[model.primary.provider],
                         FinalRequest(w, model, base, analysis), spec, PanelShown(w, model, base), analysis);
    }
    FinalTurnInduction(w, accepts, at, st, model, base, spec, inv, goal);
  }

  lemma KeptAndLost(log: seq<Exchange>)
    ensures SumOf(UsageOf, log) == SumOf(Kept, log).Add(SumOf(Lost, log))
  {
    forall e ensures UsageOf(e) == Kept(e).Add(Lost(e)) {
      KeptOrLost(e);
    }
    SumOfSplits(UsageOf, Kept, Lost, log);
  }

  lemma KeptOrLost(e: Exchange)
    ensures UsageOf(e) == Kept(e).Add(Lost(e))
  {
    AddNothing(UsageOf(e));
  }

  function CountOf<T>(count: Usage -> int, f: T -> Usage): T -> int { x => count(f(x)) }

  lemma {:induction false} CountsAddUp<T>(count: Usage -> int, f: T -> Usage, s: seq<T>)
    requires count(NO_USAGE) == 0 && forall a: Usage, b :: count(a.Add(b)) == count(a) + count(b)
    ensures count(SumOf(f, s)) == SumBy(CountOf(count, f), s)
  {
    if s != [] {
      CountsAddUp(count, f, s[1..]);
    }
  }

  /** What was received is what is reported and what was lost, in one count. */
  predicate ConservedIn(count: Usage -> int, log: seq<Exchange>, reported: Usage) {
    SumBy(CountOf(count, UsageOf), log) == count(reported) + SumBy(CountOf(count, Lost), log)
  }

  predicate Conserved(log: seq<Exchange>, reported: Usage) {
    && ConservedIn((u: Usage) => u.promptTokens, log, reported)
    && ConservedIn((u: Usage) => u.completionTokens, log, reported)
    && ConservedIn((u: Usage) => u.totalTokens, log, reported)
    && ConservedIn((u: Usage) => u.cacheReadTokens, log, reported)
    && ConservedIn((u: Usage) => u.cacheCreationTokens, log, reported)
  }

  lemma OneConserved(count: Usage -> int, log: seq<Exchange>, reported: Usage)
    requires count(NO_USAGE) == 0 && forall a: Usage, b :: count(a.Add(b)) == count(a) + count(b)
    requires SumOf(UsageOf, log) == reported.Add(SumOf(Lost, log))
    ensures ConservedIn(count, log, reported)
  {
    CountsAddUp(count, UsageOf, log);
    CountsAddUp(count, Lost, log);
  }

  lemma EachConserved(log: seq<Exchange>, reported: Usage)
    requires SumOf(UsageOf, log) == reported.Add(SumOf(Lost, log))
    ensures Conserved(log, reported)
  {
    OneConserved((u: Usage) => u.promptTokens, log, reported);
    OneConserved((u: Usage) => u.completionTokens, log, reported);
    OneConserved((u: Usage) => u.totalTokens, log, reported);
    OneConserved((u: Usage) => u.cacheReadTokens, log, reported);
    OneConserved((u: Usage) => u.cacheCreationTokens, log, reported);
  }

  /** Over every run, in whatever order the exchanges happened: the usage of everything received is
      the usage the decision reports plus that of the first panel attempts that were retried. Nothing
      is counted twice, the speculative answer promoted to a panelist included. */
  lemma UsageConservation(w: World, accepts: Schedule, at: nat, model: Model, base: CompletionRequest,
                          log: seq<Exchange>)
    requires Answers(w, model, base)
    requires multiset(log) == multiset(RunOutcome(w, accepts, at, model, base).stage.log)
    ensures Conserved(log, Stamp(RunOutcome(w, accepts, at, model, base)).usage)
  {
    RunBalanced(w, accepts, at, model, base);
    SumOfPermutes(Kept, log, RunOutcome(w, accepts, at, model, base).stage.log);
    KeptAndLost(log);
    EachConserved(log, Stamp(RunOutcome(w, accepts, at, model, base)).usage);
  }

  lemma RunBalanced(w: World, accepts: Schedule, at: nat, model: Model, base: CompletionRequest)
    requires Answers(w, model, base)
    ensures InBalance(RunOutcome(w, accepts, at, model, base).stage)
  {
    if model.primary.provider in w.registry {
      var call := SpeculativeCall(w, model, base);
      OneBalanced(call);
      var st := Begun(w, accepts, at, model, base);
      if call.reply.Answered? && IsFinalization(call.reply.response) {
        var spec := call.reply.response;
        PanelStageBalanced(w, accepts, at, st.(usage := st.usage.Add(spec.usage)), model, base, spec);
      }
    }
  }

  // ---------- Every exchange is one the source means to make ----------

  /** The answers a judge is to compare: the panel's, as far as they have some text, in their order; and
      if these are fewer than the model's minimum, the speculative answer behind them, which then has some. */
  ghost predicate ComparesAnswers(w: World, model: Model, base: CompletionRequest, spec: CompletionResponse,
                                  successes: seq<MemberResult>)
  {
    var rs := Job(w.registry, model.panel, base, w.complete).Results();
    exists good: seq<MemberResult>, at: seq<nat> ::
      && Picks(good, rs, AnsweredWell, at)
      && if |good| >= model.panelMinSuccess then successes == good
         else |spec.content| > 0 && |successes| == |good| + 1 && good < successes
              && Promoted(successes[|good|], model.primary, spec)
  }

  /** The speculative answer as a member of the panel. */
  predicate Promoted(m: MemberResult, primary: Endpoint, spec: CompletionResponse) {
    && m.response == Some(spec) && m.err.None? && m.attempts == 1
    && m.endpoint.provider == primary.provider && m.endpoint.model == primary.model + " (speculative)"
  }

  /** The judge was given the answers there were to compare: all with some text, and at least one if the
      panel minimum is positive. */
  ghost predicate Fed(w: World, model: Model, base: CompletionRequest, attempt: nat, req: CompletionRequest) {
    && model.primary.provider in w.registry && SpeculativeCall(w, model, base).reply.Answered?
    && exists successes: seq<MemberResult> ::
         && (model.panelMinSuccess >= 1 ==> successes != []) && (forall m :: m in successes ==> AnsweredWell(m))
         && ComparesAnswers(w, model, base, SpeculativeCall(w, model, base).reply.response, successes)
         && AskedAbout(model.judge, base, successes, attempt, req)
  }

  /** A first request that puts the whole comparison, or a second that insists on it. */
  ghost predicate AskedAbout(judge: Endpoint, base: CompletionRequest, successes: seq<MemberResult>, attempt: nat,
                             req: CompletionRequest)
  {
    || (attempt == 1 && AsksJudge(req, judge, base.messages, successes))
    || (attempt == 2 && exists first :: AsksJudge(first, judge, base.messages, successes) && Insists(req, first))
  }

  /** The call went to the endpoint's own provider. */
  predicate Led(w: World, ep: Endpoint, provider: Provider) {
    ep.provider in w.registry && provider == w.registry[ep.provider]
  }

  /** The final request asks the primary for a text, with an analysis behind the conversation. */
  ghost predicate HandsOver(w: World, model: Model, base: CompletionRequest, analysis: JudgeAnalysis,
                            req: CompletionRequest)
  {
    && AsksEndpoint(req, base, model.primary) && LimitedBy(req, base, model.primary) && WithoutTools(req)
    && CarriesOver(base.messages, w.marshal(analysis), req.messages)
  }

  /** The speculative request asks the primary what the client asked. */
  predicate PassesOn(model: Model, base: CompletionRequest, req: CompletionRequest) {
    && AsksEndpoint(req, base, model.primary) && LimitedBy(req, base, model.primary)
    && req.messages == base.messages && req.tools == base.tools && req.toolChoice == base.toolChoice
  }

  ghost predicate Sound(w: World, model: Model, base: CompletionRequest, e: Exchange) {
    match e
    case Streamed(provider, req, usage) =>
      && Led(w, model.primary, provider) && UsedBy(w.stream(provider, req), usage)
      && exists analysis :: HandsOver(w, model, base, analysis, req)
    case Completed(provider, Speculative, req, _) =>
      Led(w, model.primary, provider) && PassesOn(model, base, req) && Replied(w.complete, e)
    case Completed(_, PanelCall(_, _), _, _) => BareCall(Job(w.registry, model.panel, base, w.complete), e)
    case Completed(provider, JudgeCall(n), req, _) =>
      Led(w, model.judge, provider) && Fed(w, model, base, n, req) && Replied(w.complete, e)
  }

  ghost predicate AllSound(w: World, model: Model, base: CompletionRequest, log: seq<Exchange>) {
    forall e :: e in log ==> Sound(w, model, base, e)
  }

  lemma JudgeCallsSound(w: World, model: Model, base: CompletionRequest, successes: seq<MemberResult>,
                        calls: seq<Exchange>)
    requires (model.panelMinSuccess >= 1 ==> successes != []) && forall m :: m in successes ==> AnsweredWell(m)
    requires model.primary.provider in w.registry && SpeculativeCall(w, model, base).reply.Answered?
    requires ComparesAnswers(w, model, base, SpeculativeCall(w, model, base).reply.response, successes)
    requires Comparison(calls, w.registry, w.complete, model.judge, base.messages, successes)
    ensures AllSound(w, model, base, calls)
  {
    forall e | e in calls ensures Sound(w, model, base, e) {
      var k :| 0 <= k < |calls| && calls[k] == e;
      assert AskedAbout(model.judge, base, successes, k + 1, e.request);
    }
  }

  lemma FinalCallSound(w: World, model: Model, base: CompletionRequest, analysis: JudgeAnalysis, provider: Provider,
                       usage: Usage)
    requires Led(w, model.primary, provider)
    requires UsedBy(w.stream(provider, FinalRequest(w, model, base, analysis)), usage)
    ensures AllSound(w, model, base, [Streamed(provider, FinalRequest(w, model, base, analysis), usage)])
  {
    FinalRequestHandsOver(w, model, base, analysis);
  }

  lemma FinalRequestHandsOver(w: World, model: Model, base: CompletionRequest, analysis: JudgeAnalysis)
    ensures HandsOver(w, model, base, analysis, FinalRequest(w, model, base, analysis))
  {
    HandoffCarriesOver(base.messages, w.marshal(analysis));
  }

  lemma SoundAppend(w: World, model: Model, base: CompletionRequest, a: seq<Exchange>, b: seq<Exchange>)
    requires AllSound(w, model, base, a) && AllSound(w, model, base, b)
    ensures AllSound(w, model, base, a + b)
  {
  }

  /** Neither the panel nor the judge makes a streaming call. */
  lemma OnlyCompletedBefore(w: World, model: Model, base: CompletionRequest, spec: CompletionResponse)
    ensures NoFinalCall(PanelJob(w, model, base).AllCalls())
    ensures NoFinalCall(Judgement(w, model, base, Compared(w, model, base, spec)).calls)
  {
    PanelOnlyCompletes(PanelJob(w, model, base));
    JudgeOnlyCompletes(w, model, base, Compared(w, model, base, spec));
  }

  lemma JudgeOnlyCompletes(w: World, model: Model, base: CompletionRequest, successes: seq<MemberResult>)
    ensures NoFinalCall(Judgement(w, model, base, successes).calls)
  {
    JudgeCompares(w.registry, w.complete, w.unmarshal, model.judge, base.messages, successes);
  }

  lemma PanelOnlyCompletes(job: Job)
    ensures NoFinalCall(job.AllCalls())
  {
    forall e | e in job.AllCalls() ensures e.Completed? {
      PanelRequestsAreBare(job, e);
    }
  }

  /** A final turn has asked the whole panel, and the judge if there was anything to compare. */
  lemma PanelStageLog(w: World, accepts: Schedule, at: nat, st: Stage, model: Model, base: CompletionRequest,
                      spec: CompletionResponse)
    requires model.primary.provider in w.registry
    ensures var log := PanelStage(w, accepts, at, st, model, base, spec).stage.log;
            var asked := st.log + PanelJob(w, model, base).AllCalls();
            if NothingToCompare(w, model, base, spec) then log == asked
            else asked + Judgement(w, model, base, Compared(w, model, base, spec)).calls <= log
  {
    if !NothingToCompare(w, model, base, spec) {
      var compared, st' := Compared(w, model, base, spec), Gathered(w, accepts, at, st, model, base);
      var analysis := Judgement(w, model, base, compared).analysis;
      if analysis.Some? {
        var noted := Narrated(w, accepts, at, JudgeAsked(w, accepts, at, st', model, base, compared),
                              FusedAnswer(|compared|, |model.panel|));
        var usage := FinalStageLog(w, accepts, at, noted, w.registry[model.primary.provider],
                                   FinalRequest(w, model, base, analysis.value), spec, PanelShown(w, model, base),
                                   analysis.value);
      }
    }
  }

  /** Whatever there is to compare is usable, and there is something under a positive panel minimum. */
  lemma ComparedAreUsable(w: World, model: Model, base: CompletionRequest, spec: CompletionResponse)
    requires !NothingToCompare(w, model, base, spec)
    ensures forall m :: m in Compared(w, model, base, spec) ==> AnsweredWell(m)
    ensures model.panelMinSuccess >= 1 ==> Compared(w, model, base, spec) != []
    ensures ComparesAnswers(w, model, base, spec, Compared(w, model, base, spec))
  {
    var rs := PanelJob(w, model, base).Results();
    SummaryLosesNothing(rs);
    assert spec.content != "" ==> AnsweredWell(SpeculativePanelist(model.primary, spec));
    ComparedAnswers(w, model, base, spec, rs);
  }

  lemma ComparedAnswers(w: World, model: Model, base: CompletionRequest, spec: CompletionResponse,
                        rs: seq<MemberResult>)
    requires rs == PanelJob(w, model, base).Results() && !NothingToCompare(w, model, base, spec)
    ensures ComparesAnswers(w, model, base, spec, Compared(w, model, base, spec))
  {
    var at, bad := SummaryKeepsOrder(rs);
    var good := PanelUsable(w, model, base);
    assert Picks(good, rs, AnsweredWell, at);
  }

  /** There is nothing to compare exactly when too few of the panel answered with some text and the
      speculative answer has none. */
  lemma NothingToCompareMeans(w: World, model: Model, base: CompletionRequest, spec: CompletionResponse)
    returns (good: seq<MemberResult>, at: seq<nat>)
    ensures Picks(good, Job(w.registry, model.panel, base, w.complete).Results(), AnsweredWell, at)
    ensures NothingToCompare(w, model, base, spec) <==> |good| < model.panelMinSuccess && |spec.content| == 0
  {
    var rs := PanelJob(w, model, base).Results();
    var bad;
    at, bad := SummaryKeepsOrder(rs);
    good := Usable(rs);
    assert PanelUsable(w, model, base) == good;
  }

  lemma PanelStageSound(w: World, accepts: Schedule, at: nat, st: Stage, model: Model, base: CompletionRequest,
                        spec: CompletionResponse)
    requires model.primary.provider in w.registry && AllSound(w, model, base, st.log)
    requires SpeculativeCall(w, model, base).reply == Answered(spec)
    ensures var log := PanelStage(w, accepts, at, st, model, base, spec).stage.log;
            AllSound(w, model, base, log) && st.log <= log
  {
    var job, compared := PanelJob(w, model, base), Compared(w, model, base, spec);
    var inv := (s: Stage) => st.log <= s.log && AllSound(w, model, base, s.log);
    var goal := (o: Outcome) => inv(o.stage);
    forall s: Stage | inv(s) ensures inv(WithPanel(w, model, base, s)) {
      forall e | e in job.AllCalls() ensures Sound(w, model, base, e) {
        PanelRequestsAreBare(job, e);
      }
      SoundAppend(w, model, base, s.log, job.AllCalls());
    }
    if NothingToCompare(w, model, base, spec) {
      assert goal(PanelStage(w, accepts, at, st, model, base, spec));
      return;
    }
    forall s: Stage | inv(s) ensures inv(WithJudge(w, model, base, compared, s)) {
      ComparedAreUsable(w, model, base, spec);
      JudgeCompares(w.registry, w.complete, w.unmarshal, model.judge, base.messages, compared);
      JudgeCallsSound(w, model, base, compared, Judgement(w, model, base, compared).calls);
      SoundAppend(w, model, base, s.log, Judgement(w, model, base, compared).calls);
    }
    forall s: Stage, analysis | inv(s) ensures goal(FinalTurn(w, accepts, at, s, model, base, spec, analysis)) {
      var (provider, req) := (w.registry[model.primary.provider], FinalRequest(w, model, base, analysis));
      var usage := FinalStageLog(w, accepts, at, s, provider, req, spec, PanelShown(w, model, base), analysis);
      FinalCallSound(w, model, base, analysis, provider, usage);
      SoundAppend(w, model, base, s.log, [Streamed(provider, req, usage)]);
    }
    FinalTurnInduction(w, accepts, at, st, model, base, spec, inv, goal);
  }

  /** In every run: the speculative call comes first and asks what the client asked, every call goes to
      its endpoint's own provider, panel and final calls carry no tools, and the judge is only ever asked
      about non-empty answers, at least one of them if the model's panel minimum is positive. */
  lemma EveryExchangeIsSound(w: World, accepts: Schedule, at: nat, model: Model, base: CompletionRequest)
    requires Answers(w, model, base)
    ensures var log := RunOutcome(w, accepts, at, model, base).stage.log;
            && AllSound(w, model, base, log)
            && (model.primary.provider in w.registry ==> log != [] && log[0] == SpeculativeCall(w, model, base))
  {
    if model.primary.provider in w.registry {
      var call := SpeculativeCall(w, model, base);
      var st := Begun(w, accepts, at, model, base);
      assert AllSound(w, model, base, [call]);
      if call.reply.Answered? && IsFinalization(call.reply.response) {
        var spec := call.reply.response;
        PanelStageSound(w, accepts, at, st.(usage := st.usage.Add(spec.usage)), model, base, spec);
      }
    }
  }
}

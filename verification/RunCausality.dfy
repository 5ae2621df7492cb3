/** A run knows of its sink only what the calls so far returned, so that a sink which answers by what it
    has been handed, as the stream adapter does, acts under one schedule and leaves one outcome
    (internal/fusion/pipeline.go:94-241, internal/server/stream.go:211-236). */
module RunCausality {
  import opened Wrappers
  import opened Providers
  import opened Sinks
  import opened Panel
  import opened Judge
  import opened Pipeline
  import opened RunSchedules

  function CallsOf(evs: seq<Event>): (calls: seq<Call>)
    ensures |calls| == |evs|
  {
    seq(|evs|, i requires 0 <= i < |evs| => evs[i].call)
  }

  lemma CallsOfAppend(evs: seq<Event>, e: Event)
    ensures CallsOf(evs + [e]) == CallsOf(evs) + [e.call]
  {
  }

  // ---------- Two schedules that agree at first ----------

  ghost predicate Agree(a: Schedule, b: Schedule, at: nat, k: nat) {
    forall n :: at <= n < at + k ==> a(n) == b(n)
  }

  /** The first k events are the same, and so is the call after them. */
  predicate Parted(evs: seq<Event>, evs': seq<Event>, k: nat) {
    && k < |evs| && k < |evs'|
    && evs[..k] == evs'[..k] && evs[k].call == evs'[k].call
  }

  predicate AlikeEvents(evs: seq<Event>, evs': seq<Event>, k: nat) {
    (evs == evs' && |evs| <= k) || Parted(evs, evs', k)
  }

  /** Nothing tells two stages apart before the outcome of call k. */
  predicate Alike(st: Stage, st': Stage, k: nat) {
    (st == st' && |st.evs| <= k) || Parted(st.evs, st'.evs, k)
  }

  predicate AlikeOutcomes(o: Outcome, o': Outcome, k: nat) {
    (o == o' && |o.stage.evs| <= k) || Parted(o.stage.evs, o'.stage.evs, k)
  }

  lemma PartedBefore(evs: seq<Event>, evs': seq<Event>, k: nat, more: seq<Event>, more': seq<Event>)
    requires Parted(evs, evs', k)
    ensures Parted(evs + more, evs' + more', k)
  {
    assert (evs + more)[..k] == evs[..k] && (evs' + more')[..k] == evs'[..k];
  }

  lemma AlikeBehind(evs: seq<Event>, k: nat, more: seq<Event>, more': seq<Event>)
    requires |evs| <= k && AlikeEvents(more, more', k - |evs|)
    ensures AlikeEvents(evs + more, evs + more', k)
  {
    if more != more' || |more| > k - |evs| {
      var j := k - |evs|;
      assert (evs + more)[..k] == evs + more[..j] && (evs + more')[..k] == evs + more'[..j];
    }
  }

  lemma {:induction false} AttemptsAlike(a: Schedule, b: Schedule, at: nat, k: nat, calls: seq<Call>)
    requires Agree(a, b, at, k)
    ensures AlikeEvents(Attempt(a, at, calls), Attempt(b, at, calls), k)
    ensures |Attempt(a, at, calls)| <= k ==> Accepted(a, at, calls) == Accepted(b, at, calls)
    decreases |calls|
  {
    if calls != [] && k > 0 {
      assert a(at) == b(at);
      if a(at) {
        AttemptsAlike(a, b, at + 1, k - 1, calls[1..]);
        AlikeBehind([Event(calls[0], true)], k, Attempt(a, at + 1, calls[1..]), Attempt(b, at + 1, calls[1..]));
      }
    }
  }

  // ---------- Every stage of a run keeps them alike ----------

  lemma NarrationsAlike(w: World, a: Schedule, b: Schedule, at: nat, k: nat, st: Stage, st': Stage, note: Note)
    requires Agree(a, b, at, k) && Alike(st, st', k)
    ensures Alike(Narrated(w, a, at, st, note), Narrated(w, b, at, st', note), k)
  {
    if w.emitProgress {
      var call := Emit(ReasoningDelta(w.narrate(note)));
      var e, e' := Event(call, a(at + |st.evs|)), Event(call, b(at + |st'.evs|));
      if Parted(st.evs, st'.evs, k) {
        PartedBefore(st.evs, st'.evs, k, [e], [e']);
      } else {
        AlikeBehind(st.evs, k, [e], [e']);
      }
    }
  }

  lemma ReplaysAlike(a: Schedule, b: Schedule, at: nat, k: nat, st: Stage, st': Stage, resp: CompletionResponse,
                     done: Ruling, failed: string)
    requires Agree(a, b, at, k) && Alike(st, st', k)
    ensures AlikeOutcomes(Replay(a, at, st, resp, done, failed), Replay(b, at, st', resp, done, failed), k)
  {
    if Parted(st.evs, st'.evs, k) {
      var calls := ScriptCalls(BufferedScript(resp));
      PartedBefore(st.evs, st'.evs, k, Attempt(a, at + |st.evs|, calls), Attempt(b, at + |st'.evs|, calls));
    } else {
      ReplayAlike(a, b, at, k, st, resp, done, failed);
    }
  }

  lemma ReplayAlike(a: Schedule, b: Schedule, at: nat, k: nat, st: Stage, resp: CompletionResponse, done: Ruling,
                    failed: string)
    requires Agree(a, b, at, k) && |st.evs| <= k
    ensures AlikeOutcomes(Replay(a, at, st, resp, done, failed), Replay(b, at, st, resp, done, failed), k)
  {
    var calls, from := ScriptCalls(BufferedScript(resp)), at + |st.evs|;
    AttemptsAlike(a, b, from, k - |st.evs|, calls);
    AlikeBehind(st.evs, k, Attempt(a, from, calls), Attempt(b, from, calls));
  }

  /** A stream that put the same to both clients has returned the same to both. */
  lemma ResultsAlike(s: Script, a: Schedule, b: Schedule, at: nat, k: nat)
    requires Agree(a, b, at, k) && |Attempt(a, at, ScriptCalls(s))| <= k
    ensures StreamResult(s, a, at) == StreamResult(s, b, at)
  {
    var end := if s.end.Finished? then [Finish(s.end.reason)] else [];
    AttemptAppend(a, at, Emits(s.deltas), end);
    AttemptsAlike(a, b, at, k, Emits(s.deltas));
    if AllAccepted(a, at, Emits(s.deltas)) {
      ScriptCompleted(s, a, at);
    }
  }

  lemma StreamsAlike(w: World, a: Schedule, b: Schedule, at: nat, k: nat, st: Stage, provider: Provider,
                     req: CompletionRequest, spec: CompletionResponse, panel: seq<PanelResult>, analysis: JudgeAnalysis)
    requires Agree(a, b, at, k) && |st.evs| <= k
    ensures AlikeOutcomes(FinalStage(w, a, at, st, provider, req, spec, panel, analysis),
                          FinalStage(w, b, at, st, provider, req, spec, panel, analysis), k)
  {
    var script, from := w.stream(provider, req), at + |st.evs|;
    var more, more' := Attempt(a, from, ScriptCalls(script)), Attempt(b, from, ScriptCalls(script));
    var after, after' := Streaming(a, at, st, provider, req, script), Streaming(b, at, st, provider, req, script);
    AttemptsAlike(a, b, from, k - |st.evs|, ScriptCalls(script));
    AlikeBehind(st.evs, k, more, more');
    if Parted(after.evs, after'.evs, k) {
      StreamedPartsFurther(w, a, b, at, k, st, st, provider, req, spec, panel, analysis);
    } else {
      ResultsAlike(script, a, b, from, k - |st.evs|);
      NarrationsAlike(w, a, b, at, k, after, after, NotFusedFinalFailed);
      DegradesAlike(a, b, at, k, Narrated(w, a, at, after, NotFusedFinalFailed),
                    Narrated(w, b, at, after, NotFusedFinalFailed), spec, "primary_final_failed");
    }
  }

  lemma DegradesAlike(a: Schedule, b: Schedule, at: nat, k: nat, st: Stage, st': Stage, spec: CompletionResponse,
                      reason: string)
    requires Agree(a, b, at, k) && Alike(st, st', k)
    ensures AlikeOutcomes(Degrade(a, at, st, spec, reason), Degrade(b, at, st', spec, reason), k)
  {
    ReplaysAlike(a, b, at, k, st, st', spec, Ruling(DecisionDegraded, reason, [], None, None), reason + "_emit_failed");
  }

  /** A final call only adds to what stands after its stream. */
  lemma FinalStageAdds(w: World, a: Schedule, at: nat, st: Stage, provider: Provider, req: CompletionRequest,
                       spec: CompletionResponse, panel: seq<PanelResult>, analysis: JudgeAnalysis)
    ensures Streaming(a, at, st, provider, req, w.stream(provider, req)).evs
         <= FinalStage(w, a, at, st, provider, req, spec, panel, analysis).stage.evs
  {
  }

  lemma PartedWithin(evs: seq<Event>, evs': seq<Event>, k: nat, all: seq<Event>, all': seq<Event>)
    requires Parted(evs, evs', k) && evs <= all && evs' <= all'
    ensures Parted(all, all', k)
  {
    PartedBefore(evs, evs', k, all[|evs|..], all'[|evs'|..]);
    assert all == evs + all[|evs|..] && all' == evs' + all'[|evs'|..];
  }

  lemma StreamedPartsFurther(w: World, a: Schedule, b: Schedule, at: nat, k: nat, st: Stage, st': Stage,
                             provider: Provider, req: CompletionRequest, spec: CompletionResponse,
                             panel: seq<PanelResult>, analysis: JudgeAnalysis)
    requires Parted(Streaming(a, at, st, provider, req, w.stream(provider, req)).evs,
                    Streaming(b, at, st', provider, req, w.stream(provider, req)).evs, k)
    ensures Parted(FinalStage(w, a, at, st, provider, req, spec, panel, analysis).stage.evs,
                   FinalStage(w, b, at, st', provider, req, spec, panel, analysis).stage.evs, k)
  {
    FinalStageAdds(w, a, at, st, provider, req, spec, panel, analysis);
    FinalStageAdds(w, b, at, st', provider, req, spec, panel, analysis);
    PartedWithin(Streaming(a, at, st, provider, req, w.stream(provider, req)).evs,
                 Streaming(b, at, st', provider, req, w.stream(provider, req)).evs, k,
                 FinalStage(w, a, at, st, provider, req, spec, panel, analysis).stage.evs,
                 FinalStage(w, b, at, st', provider, req, spec, panel, analysis).stage.evs);
  }

  lemma FinalTurnsAlike(w: World, a: Schedule, b: Schedule, at: nat, k: nat, st: Stage, st': Stage, model: Model,
                        base: CompletionRequest, spec: CompletionResponse, analysis: JudgeAnalysis)
    requires model.primary.provider in w.registry
    requires Agree(a, b, at, k) && Alike(st, st', k)
    ensures AlikeOutcomes(FinalTurn(w, a, at, st, model, base, spec, analysis),
                          FinalTurn(w, b, at, st', model, base, spec, analysis), k)
  {
    var provider, req := w.registry[model.primary.provider], FinalRequest(w, model, base, analysis);
    var panel, script := PanelShown(w, model, base), w.stream(provider, req);
    if Parted(st.evs, st'.evs, k) {
      PartedWithin(st.evs, st'.evs, k, Streaming(a, at, st, provider, req, script).evs,
                   Streaming(b, at, st', provider, req, script).evs);
      StreamedPartsFurther(w, a, b, at, k, st, st', provider, req, spec, panel, analysis);
    } else {
      StreamsAlike(w, a, b, at, k, st, provider, req, spec, panel, analysis);
    }
  }

  lemma JudgeStagesAlike(w: World, a: Schedule, b: Schedule, at: nat, k: nat, st: Stage, st': Stage, model: Model,
                         base: CompletionRequest, spec: CompletionResponse, successes: seq<MemberResult>)
    requires model.primary.provider in w.registry
    requires Agree(a, b, at, k) && Alike(st, st', k)
    ensures AlikeOutcomes(JudgeStage(w, a, at, st, model, base, spec, successes),
                          JudgeStage(w, b, at, st', model, base, spec, successes), k)
  {
    NarrationsAlike(w, a, b, at, k, st, st', Judging(|successes|));
    var asked, asked' := JudgeAsked(w, a, at, st, model, base, successes),
                         JudgeAsked(w, b, at, st', model, base, successes);
    match Judgement(w, model, base, successes).analysis
    case None =>
      NarrationsAlike(w, a, b, at, k, asked, asked', NotFusedJudgeFailed);
      DegradesAlike(a, b, at, k, Narrated(w, a, at, asked, NotFusedJudgeFailed),
                    Narrated(w, b, at, asked', NotFusedJudgeFailed), spec, "judge_failed");
    case Some(analysis) =>
      var note := FusedAnswer(|successes|, |model.panel|);
      NarrationsAlike(w, a, b, at, k, asked, asked', note);
      FinalTurnsAlike(w, a, b, at, k, Narrated(w, a, at, asked, note), Narrated(w, b, at, asked', note), model, base,
                      spec, analysis);
  }

  lemma PanelsAlike(w: World, a: Schedule, b: Schedule, at: nat, k: nat, st: Stage, st': Stage, model: Model,
                    base: CompletionRequest)
    requires Agree(a, b, at, k) && Alike(st, st', k)
    ensures Alike(PanelAsked(w, a, at, st, model, base), PanelAsked(w, b, at, st', model, base), k)
    ensures Alike(Gathered(w, a, at, st, model, base), Gathered(w, b, at, st', model, base), k)
  {
    NarrationsAlike(w, a, b, at, k, st, st', Querying(|model.panel|));
    NarrationsAlike(w, a, b, at, k, PanelAsked(w, a, at, st, model, base), PanelAsked(w, b, at, st', model, base),
                    PanelSparse);
  }

  lemma PanelStagesAlike(w: World, a: Schedule, b: Schedule, at: nat, k: nat, st: Stage, st': Stage, model: Model,
                         base: CompletionRequest, spec: CompletionResponse)
    requires model.primary.provider in w.registry
    requires Agree(a, b, at, k) && Alike(st, st', k)
    ensures AlikeOutcomes(PanelStage(w, a, at, st, model, base, spec), PanelStage(w, b, at, st', model, base, spec), k)
  {
    PanelsAlike(w, a, b, at, k, st, st', model, base);
    if NothingToCompare(w, model, base, spec) {
      var asked, asked' := PanelAsked(w, a, at, st, model, base), PanelAsked(w, b, at, st', model, base);
      NarrationsAlike(w, a, b, at, k, asked, asked', NotFusedNoPanel);
      DegradesAlike(a, b, at, k, Narrated(w, a, at, asked, NotFusedNoPanel),
                    Narrated(w, b, at, asked', NotFusedNoPanel), spec, "panel_insufficient");
    } else {
      JudgeStagesAlike(w, a, b, at, k, Gathered(w, a, at, st, model, base), Gathered(w, b, at, st', model, base),
                       model, base, spec, Compared(w, model, base, spec));
    }
  }

  lemma DetectionsAlike(w: World, a: Schedule, b: Schedule, at: nat, k: nat, st: Stage, st': Stage, model: Model,
                        base: CompletionRequest, spec: CompletionResponse)
    requires model.primary.provider in w.registry
    requires Agree(a, b, at, k) && Alike(st, st', k)
    ensures AlikeOutcomes(Detected(w, a, at, st, model, base, Answered(spec)),
                          Detected(w, b, at, st', model, base, Answered(spec)), k)
  {
    var added, added' := st.(usage := st.usage.Add(spec.usage)), st'.(usage := st'.usage.Add(spec.usage));
    if IsFinalization(spec) {
      PanelStagesAlike(w, a, b, at, k, added, added', model, base, spec);
    } else {
      ReplaysAlike(a, b, at, k, added, added', spec, Ruling(DecisionToolCall, "", [], None, None),
                   "tool_call_emit_failed");
    }
  }

  /** Nothing a run does before or at its k-th call depends on what that call or a later one returns. */
  lemma RunIsCausal(w: World, a: Schedule, b: Schedule, at: nat, k: nat, model: Model, base: CompletionRequest)
    requires Answers(w, model, base) && Agree(a, b, at, k)
    ensures AlikeOutcomes(RunOutcome(w, a, at, model, base), RunOutcome(w, b, at, model, base), k)
  {
    if model.primary.provider in w.registry {
      var call := SpeculativeCall(w, model, base);
      NarrationsAlike(w, a, b, at, k, NOTHING_YET, NOTHING_YET, Evaluating);
      if call.reply.Answered? {
        DetectionsAlike(w, a, b, at, k, Begun(w, a, at, model, base), Begun(w, b, at, model, base), model, base,
                        call.reply.response);
      }
    }
  }

  // ---------- Sinks that answer by what they have been handed ----------

  /** Whether the last of some calls succeeds, if these are all there have been. */
  type Reaction = seq<Call> -> bool

  ghost predicate Reacts(react: Reaction, evs: seq<Event>) {
    forall k :: 0 <= k < |evs| ==> evs[k].ok == react(CallsOf(evs[..k]) + [evs[k].call])
  }

  lemma ReactsAppend(react: Reaction, evs: seq<Event>, e: Event)
    ensures Reacts(react, evs + [e]) <==> Reacts(react, evs) && e.ok == react(CallsOf(evs) + [e.call])
  {
    var all := evs + [e];
    assert all[..|evs|] == evs;
    assert forall k :: 0 <= k < |evs| ==> all[..k] == evs[..k] && all[k] == evs[k];
    assert all[|evs|] == e;
  }

  /** What becomes of something under each schedule. */
  type Runs = Schedule -> Outcome

  ghost predicate Causal(run: Runs) {
    && (forall a, b, k :: Agree(a, b, 0, k) ==> AlikeOutcomes(run(a), run(b), k))
    && forall a :: Scheduled(a, 0, run(a).stage.evs)
  }

  /** Some first returns, and nothing but successes after them. */
  function Answering(oks: seq<bool>): Schedule {
    (n: nat) => n < |oks| ==> oks[n]
  }

  /** What the sink returns to call k, if it comes to that. */
  predicate Verdict(react: Reaction, evs: seq<Event>, k: nat) {
    k < |evs| ==> react(CallsOf(evs[..k]) + [evs[k].call])
  }

  /** What it returns to the first n calls. */
  function Returned(run: Runs, react: Reaction, n: nat): (oks: seq<bool>)
    ensures |oks| == n
  {
    if n == 0 then []
    else
      var oks := Returned(run, react, n - 1);
      oks + [Verdict(react, run(Answering(oks)).stage.evs, n - 1)]
  }

  /** The schedule it comes to follow. */
  function Followed(run: Runs, react: Reaction): Schedule {
    (n: nat) => Returned(run, react, n + 1)[n]
  }

  lemma {:induction false} ReturnedGrows(run: Runs, react: Reaction, k: nat, n: nat)
    requires k <= n
    ensures Returned(run, react, k) <= Returned(run, react, n)
  {
    if k < n {
      ReturnedGrows(run, react, k, n - 1);
    }
  }

  lemma FollowedAgrees(run: Runs, react: Reaction, n: nat)
    ensures Agree(Followed(run, react), Answering(Returned(run, react, n)), 0, n)
  {
    var a, b := Followed(run, react), Answering(Returned(run, react, n));
    forall k: nat | k < n ensures a(k) == b(k) {
      ReturnedGrows(run, react, k + 1, n);
    }
  }

  /** Under that schedule the run sees what the sink returns. */
  lemma FollowedReacts(run: Runs, react: Reaction)
    requires Causal(run)
    ensures Reacts(react, run(Followed(run, react)).stage.evs)
  {
    var a := Followed(run, react);
    var evs := run(a).stage.evs;
    assert Scheduled(a, 0, evs);
    forall k | 0 <= k < |evs| ensures evs[k].ok == react(CallsOf(evs[..k]) + [evs[k].call]) {
      var b := Answering(Returned(run, react, k));
      FollowedAgrees(run, react, k);
      assert AlikeOutcomes(run(a), run(b), k);
      assert Parted(evs, run(b).stage.evs, k) && evs[k].ok == a(k);
    }
  }

  lemma {:induction false} ReactingRunsAgree(run: Runs, react: Reaction, a: Schedule, b: Schedule, k: nat)
    requires Causal(run) && Reacts(react, run(a).stage.evs) && Reacts(react, run(b).stage.evs)
    ensures AlikeOutcomes(run(a), run(b), k)
  {
    if k == 0 {
      assert Agree(a, b, 0, 0);
    } else {
      ReactingRunsAgree(run, react, a, b, k - 1);
      var evs, evs' := run(a).stage.evs, run(b).stage.evs;
      if Parted(evs, evs', k - 1) {
        PartedLater(evs, evs', react, k - 1);
        AgreeSoFar(a, b, evs, evs', k);
      }
    }
  }

  lemma PartedLater(evs: seq<Event>, evs': seq<Event>, react: Reaction, k: nat)
    requires Parted(evs, evs', k) && Reacts(react, evs) && Reacts(react, evs')
    ensures evs[..k + 1] == evs'[..k + 1]
  {
    assert evs[k].ok == evs'[k].ok;
    assert evs[..k + 1] == evs[..k] + [evs[k]] && evs'[..k + 1] == evs'[..k] + [evs'[k]];
  }

  lemma AgreeSoFar(a: Schedule, b: Schedule, evs: seq<Event>, evs': seq<Event>, k: nat)
    requires k <= |evs| && k <= |evs'| && evs[..k] == evs'[..k]
    requires Scheduled(a, 0, evs) && Scheduled(b, 0, evs')
    ensures Agree(a, b, 0, k)
  {
    forall n: nat | n < k ensures a(n) == b(n) {
      assert evs[..k][n] == evs[n] && evs'[..k][n] == evs'[n];
      assert evs[n].ok == a(0 + n) && evs'[n].ok == b(0 + n);
    }
  }

  /** Runs that see what the sink returns are one and the same. */
  lemma OneOutcome(run: Runs, react: Reaction, a: Schedule, b: Schedule)
    requires Causal(run) && Reacts(react, run(a).stage.evs) && Reacts(react, run(b).stage.evs)
    ensures run(a) == run(b)
  {
    ReactingRunsAgree(run, react, a, b, |run(a).stage.evs|);
  }

  // ---------- Runs on such sinks ----------

  function RunsOf(w: World, model: Model, base: CompletionRequest): Runs
    requires Answers(w, model, base)
  {
    accepts => RunOutcome(w, accepts, 0, model, base)
  }

  lemma RunsAreCausal(w: World, model: Model, base: CompletionRequest)
    requires Answers(w, model, base)
    ensures Causal(RunsOf(w, model, base))
  {
    var run := RunsOf(w, model, base);
    forall a, b, k | Agree(a, b, 0, k) ensures AlikeOutcomes(run(a), run(b), k) {
      RunIsCausal(w, a, b, 0, k, model, base);
    }
    forall a ensures Scheduled(a, 0, run(a).stage.evs) {
      RunIsScheduled(w, a, 0, model, base);
    }
  }
}

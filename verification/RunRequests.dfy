/** How the calls of a run feed one another: what the judge is given of the panel, and what the final
    call is given of the judge (internal/fusion/pipeline.go:138-241). */
module RunRequests {
  import opened Wrappers
  import opened Providers
  import opened Sinks
  import opened Panel
  import opened Judge
  import opened Pipeline
  import opened RunTheorems
  import opened RunUsage

  // ---------- The final call and the judge ----------

  /** The last call so far is one of the judge's, and its answer reads as this analysis. */
  predicate VerdictLast(w: World, log: seq<Exchange>, analysis: JudgeAnalysis) {
    && log != [] && log[|log| - 1].Completed? && log[|log| - 1].phase.JudgeCall? && log[|log| - 1].reply.Answered?
    && ParseJudgeOutput(w.unmarshal, log[|log| - 1].reply.response.content) == Some(analysis)
  }

  /** A run that ends with a verdict and the final call, which carries it. */
  ghost predicate EndsWithVerdict(w: World, model: Model, base: CompletionRequest, log: seq<Exchange>,
                                  analysis: JudgeAnalysis)
  {
    && log != [] && log[|log| - 1].Streamed? && HandsOver(w, model, base, analysis, log[|log| - 1].request)
    && VerdictLast(w, log[..|log| - 1], analysis)
  }

  /** A fused turn, and one that broke midstream, show the analysis that went into it; no other does. */
  predicate ShowsVerdict(r: Ruling, analysis: JudgeAnalysis) {
    if r.kind == DecisionFusion || r.reason == "primary_final_failed_midstream" then r.analysis == Some(analysis)
    else r.analysis.None?
  }

  /** If there was a final call, it carried the verdict. */
  ghost predicate VerdictCarried(w: World, model: Model, base: CompletionRequest, o: Outcome) {
    WentFinal(o) ==>
      exists analysis :: EndsWithVerdict(w, model, base, o.stage.log, analysis) && ShowsVerdict(o.ruling, analysis)
  }

  lemma NothingCarried(w: World, model: Model, base: CompletionRequest, o: Outcome)
    requires NoFinalCall(o.stage.log)
    ensures VerdictCarried(w, model, base, o)
  {
    assert o.stage.log != [] ==> o.stage.log[|o.stage.log| - 1] in o.stage.log;
  }

  lemma DegradeRuling(accepts: Schedule, at: nat, st: Stage, spec: CompletionResponse, reason: string)
    requires |reason| == 20
    ensures var r := Degrade(accepts, at, st, spec, reason).ruling;
            && r.analysis.None? && r.kind != DecisionFusion && (|r.reason| == 20 || |r.reason| == 32)
    ensures Degrade(accepts, at, st, spec, reason).stage.log == st.log
  {
  }

  lemma FinalTurnShows(w: World, accepts: Schedule, at: nat, st: Stage, model: Model, base: CompletionRequest,
                       spec: CompletionResponse, analysis: JudgeAnalysis)
    requires model.primary.provider in w.registry
    ensures ShowsVerdict(FinalTurn(w, accepts, at, st, model, base, spec, analysis).ruling, analysis)
  {
    var provider, req := w.registry[model.primary.provider], FinalRequest(w, model, base, analysis);
    var after := Streaming(accepts, at, st, provider, req, w.stream(provider, req));
    DegradeRuling(accepts, at, Narrated(w, accepts, at, after, NotFusedFinalFailed), spec, "primary_final_failed");
    assert |"primary_final_failed_midstream"| == 30;
  }

  lemma FinalTurnCarries(w: World, accepts: Schedule, at: nat, st: Stage, model: Model, base: CompletionRequest,
                         spec: CompletionResponse, analysis: JudgeAnalysis)
    requires model.primary.provider in w.registry && VerdictLast(w, st.log, analysis)
    ensures VerdictCarried(w, model, base, FinalTurn(w, accepts, at, st, model, base, spec, analysis))
  {
    var provider, req := w.registry[model.primary.provider], FinalRequest(w, model, base, analysis);
    var usage := FinalStageLog(w, accepts, at, st, provider, req, spec, PanelShown(w, model, base), analysis);
    FinalRequestHandsOver(w, model, base, analysis);
    FinalTurnShows(w, accepts, at, st, model, base, spec, analysis);
    assert (st.log + [Streamed(provider, req, usage)])[..|st.log|] == st.log;
  }

  /** What the judge is said to have found is in its last answer. */
  lemma VerdictIsRead(w: World, model: Model, base: CompletionRequest, successes: seq<MemberResult>,
                      log: seq<Exchange>)
    requires Judgement(w, model, base, successes).analysis.Some?
    ensures var judged := Judgement(w, model, base, successes);
            VerdictLast(w, log + judged.calls, judged.analysis.value)
  {
    JudgeCompares(w.registry, w.complete, w.unmarshal, model.judge, base.messages, successes);
    JudgeAsksTwiceAtMost(w.registry, w.complete, w.unmarshal, model.judge, base.messages, successes);
  }

  lemma JudgeStageCarries(w: World, accepts: Schedule, at: nat, st: Stage, model: Model, base: CompletionRequest,
                          spec: CompletionResponse, successes: seq<MemberResult>)
    requires model.primary.provider in w.registry && NoFinalCall(st.log)
    ensures VerdictCarried(w, model, base, JudgeStage(w, accepts, at, st, model, base, spec, successes))
  {
    var judged := Judgement(w, model, base, successes);
    var asked := JudgeAsked(w, accepts, at, st, model, base, successes);
    match judged.analysis
    case None =>
      JudgeOnlyCompletes(w, model, base, successes);
      NothingCarried(w, model, base,
                     Degrade(accepts, at, Narrated(w, accepts, at, asked, NotFusedJudgeFailed), spec, "judge_failed"));
    case Some(analysis) =>
      VerdictIsRead(w, model, base, successes, st.log);
      FinalTurnCarries(w, accepts, at, Narrated(w, accepts, at, asked, FusedAnswer(|successes|, |model.panel|)),
                       model, base, spec, analysis);
  }

  lemma PanelStageCarries(w: World, accepts: Schedule, at: nat, st: Stage, model: Model, base: CompletionRequest,
                          spec: CompletionResponse)
    requires model.primary.provider in w.registry && NoFinalCall(st.log)
    ensures VerdictCarried(w, model, base, PanelStage(w, accepts, at, st, model, base, spec))
  {
    PanelOnlyCompletes(PanelJob(w, model, base));
    if NothingToCompare(w, model, base, spec) {
      NothingCarried(w, model, base, PanelStage(w, accepts, at, st, model, base, spec));
    } else {
      JudgeStageCarries(w, accepts, at, Gathered(w, accepts, at, st, model, base), model, base, spec,
                        Compared(w, model, base, spec));
    }
  }

  /** Whenever a final call is made, the run's last two calls are one of its own judge, and the final
      call with the analysis read from just that answer; a fused turn, and one that broke midstream, show
      that analysis, and any other shows none. */
  lemma FinalCallCarriesVerdict(w: World, accepts: Schedule, at: nat, model: Model, base: CompletionRequest)
    requires Answers(w, model, base)
    ensures VerdictCarried(w, model, base, RunOutcome(w, accepts, at, model, base))
  {
    if model.primary.provider in w.registry {
      var call := SpeculativeCall(w, model, base);
      var st := Begun(w, accepts, at, model, base);
      if call.reply.Answered? && IsFinalization(call.reply.response) {
        var spec := call.reply.response;
        PanelStageCarries(w, accepts, at, st.(usage := st.usage.Add(spec.usage)), model, base, spec);
      } else {
        NothingCarried(w, model, base, RunOutcome(w, accepts, at, model, base));
      }
    }
  }
}

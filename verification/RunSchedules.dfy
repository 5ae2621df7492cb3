/** How a run's events follow its sink's schedule, and how its failures are named
    (internal/fusion/pipeline.go:94-241, internal/server/server.go:202-206). */
module RunSchedules {
  import opened Providers
  import opened Sinks
  import opened Panel
  import opened Judge
  import opened Pipeline
  import opened RunTheorems

  ghost predicate Scheduled(accepts: Schedule, at: nat, evs: seq<Event>) {
    forall k :: 0 <= k < |evs| ==> evs[k].ok == accepts(at + k)
  }

  lemma {:induction false} AttemptScheduled(accepts: Schedule, at: nat, calls: seq<Call>)
    ensures Scheduled(accepts, at, Attempt(accepts, at, calls))
    decreases |calls|
  {
    if calls != [] && accepts(at) {
      AttemptScheduled(accepts, at + 1, calls[1..]);
      var rest := Attempt(accepts, at + 1, calls[1..]);
      forall k | 0 <= k < |rest| + 1 ensures Attempt(accepts, at, calls)[k].ok == accepts(at + k) {
        if k > 0 {
          assert rest[k - 1].ok == accepts(at + 1 + (k - 1));
        }
      }
    }
  }

  lemma AttemptAfter(accepts: Schedule, at: nat, evs: seq<Event>, calls: seq<Call>)
    requires Scheduled(accepts, at, evs)
    ensures Scheduled(accepts, at, evs + Attempt(accepts, at + |evs|, calls))
  {
    var more := Attempt(accepts, at + |evs|, calls);
    AttemptScheduled(accepts, at + |evs|, calls);
    forall k | |evs| <= k < |evs| + |more| ensures (evs + more)[k].ok == accepts(at + k) {
      assert more[k - |evs|].ok == accepts(at + |evs| + (k - |evs|));
    }
  }

  lemma NarrationScheduled(w: World, accepts: Schedule, at: nat, st: Stage, note: Note)
    requires Scheduled(accepts, at, st.evs)
    ensures Scheduled(accepts, at, Narrated(w, accepts, at, st, note).evs)
  {
  }

  lemma DegradeScheduled(accepts: Schedule, at: nat, st: Stage, resp: CompletionResponse, reason: string)
    requires Scheduled(accepts, at, st.evs)
    ensures Scheduled(accepts, at, Degrade(accepts, at, st, resp, reason).stage.evs)
  {
    AttemptAfter(accepts, at, st.evs, ScriptCalls(BufferedScript(resp)));
  }

  lemma FinalStageScheduled(w: World, accepts: Schedule, at: nat, st: Stage, provider: Provider, req: CompletionRequest,
                        spec: CompletionResponse, panel: seq<PanelResult>, analysis: JudgeAnalysis)
    requires Scheduled(accepts, at, st.evs)
    ensures Scheduled(accepts, at, FinalStage(w, accepts, at, st, provider, req, spec, panel, analysis).stage.evs)
  {
    var script := w.stream(provider, req);
    AttemptAfter(accepts, at, st.evs, ScriptCalls(script));
    var st' := Streaming(accepts, at, st, provider, req, script);
    NarrationScheduled(w, accepts, at, st', NotFusedFinalFailed);
    DegradeScheduled(accepts, at, Narrated(w, accepts, at, st', NotFusedFinalFailed), spec, "primary_final_failed");
  }

  lemma PanelStageScheduled(w: World, accepts: Schedule, at: nat, st: Stage, model: Model, base: CompletionRequest,
                            spec: CompletionResponse)
    requires model.primary.provider in w.registry && Scheduled(accepts, at, st.evs)
    ensures Scheduled(accepts, at, PanelStage(w, accepts, at, st, model, base, spec).stage.evs)
  {
    var inv := (s: Stage) => Scheduled(accepts, at, s.evs);
    var goal := (o: Outcome) => inv(o.stage);
    forall s: Stage, note | inv(s) ensures inv(Narrated(w, accepts, at, s, note)) {
      NarrationScheduled(w, accepts, at, s, note);
    }
    forall s: Stage, reason | inv(s) ensures goal(Degrade(accepts, at, s, spec, reason)) {
      DegradeScheduled(accepts, at, s, spec, reason);
    }
    forall s: Stage, analysis | inv(s) ensures goal(FinalTurn(w, accepts, at, s, model, base, spec, analysis)) {
      FinalStageScheduled(w, accepts, at, s, w.registry[model.primary.provider],
                          FinalRequest(w, model, base, analysis), spec, PanelShown(w, model, base), analysis);
    }
    FinalTurnInduction(w, accepts, at, st, model, base, spec, inv, goal);
  }

  /** What a run's outcome says from the detection on. */
  ghost predicate Detects(accepts: Schedule, at: nat, o: Outcome) {
    && Scheduled(accepts, at, o.stage.evs)
    && (o.ruling.err.Some? ==> o.ruling.reason != "") && o.ruling.reason != "primary_provider_missing"
  }

  lemma AnsweredDetects(w: World, accepts: Schedule, at: nat, st: Stage, model: Model, base: CompletionRequest,
                        spec: CompletionResponse)
    requires model.primary.provider in w.registry && Scheduled(accepts, at, st.evs)
    ensures Detects(accepts, at, Detected(w, accepts, at, st, model, base, Answered(spec)))
  {
    var st' := st.(usage := st.usage.Add(spec.usage));
    if IsFinalization(spec) {
      PanelStageScheduled(w, accepts, at, st', model, base, spec);
      PanelStageReports(w, accepts, at, st', model, base, spec);
    } else {
      AttemptAfter(accepts, at, st'.evs, ScriptCalls(BufferedScript(spec)));
    }
  }

  /** In every run the k-th call on the sink succeeds exactly when the sink's k-th call does, and no
      failure goes without a reason: the server's default reason is never used. */
  lemma RunIsScheduled(w: World, accepts: Schedule, at: nat, model: Model, base: CompletionRequest)
    requires Answers(w, model, base)
    ensures var o := RunOutcome(w, accepts, at, model, base);
            && Scheduled(accepts, at, o.stage.evs)
            && (o.ruling.err.Some? ==> o.ruling.reason != "")
            && (o.ruling.reason == "primary_provider_missing" <==> model.primary.provider !in w.registry)
  {
    if model.primary.provider in w.registry {
      var call := SpeculativeCall(w, model, base);
      NarrationScheduled(w, accepts, at, NOTHING_YET, Evaluating);
      var st := Begun(w, accepts, at, model, base);
      if call.reply.Answered? {
        AnsweredDetects(w, accepts, at, st, model, base, call.reply.response);
      }
    }
  }
}

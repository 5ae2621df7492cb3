/** Which tool call pieces the client of a turn holds (internal/fusion/pipeline.go:132-137, 204-241). */
module RunTools {
  import opened Wrappers
  import opened Providers
  import opened Sinks
  import opened Judge
  import opened Pipeline
  import opened RunTheorems
  import opened RunUsage
  import opened RunCausality

  /** An attempted script leaves the pieces of the deltas that were accepted, and their content. */
  lemma AttemptPieces(accepts: Schedule, at: nat, s: Script) returns (n: nat)
    ensures n == Accepted(accepts, at, Emits(s.deltas)) <= |s.deltas|
    ensures DeliveredTools(Attempt(accepts, at, ScriptCalls(s))) == ToolDeltasOf(s.deltas[..n])
    ensures Delivered(Attempt(accepts, at, ScriptCalls(s))) == ContentOf(s.deltas[..n])
  {
    n := Accepted(accepts, at, Emits(s.deltas));
    AttemptShape(accepts, at, Emits(s.deltas));
    EmitsPrefix(s.deltas, n);
    EmitsDeliver(s.deltas[..n]);
    var sent := Ok(Emits(s.deltas[..n]));
    if n < |s.deltas| {
      ScriptRefused(s, s.deltas, accepts, at);
      NothingMore(sent, Event(Emit(s.deltas[n]), false));
    } else {
      ScriptCompleted(s, accepts, at);
      assert sent + [] == sent;
      if s.end.Finished? {
        NothingMore(sent, Event(Finish(s.end.reason), accepts(at + n)));
      }
    }
  }

  /** A refused delta and a Done leave no content and no pieces. */
  lemma NothingMore(sent: seq<Event>, e: Event)
    requires e.call.Finish? || !e.ok
    ensures DeliveredTools(sent + [e]) == DeliveredTools(sent) && Delivered(sent + [e]) == Delivered(sent)
  {
    ViewsAppend(sent, [e]);
    ViewsOne(e);
  }

  lemma NarrationHasNoPieces(w: World, accepts: Schedule, at: nat, st: Stage, note: Note)
    ensures DeliveredTools(Narrated(w, accepts, at, st, note).evs) == DeliveredTools(st.evs)
  {
    var e := Event(Emit(ReasoningDelta(w.narrate(note))), accepts(at + |st.evs|));
    ViewsAppend(st.evs, [e]);
    ViewsOne(e);
  }

  /** A response without tool calls is replayed without pieces. */
  lemma DegradeHasNoPieces(accepts: Schedule, at: nat, st: Stage, resp: CompletionResponse, reason: string)
    requires resp.toolCalls == []
    ensures DeliveredTools(Degrade(accepts, at, st, resp, reason).stage.evs) == DeliveredTools(st.evs)
  {
    var s := BufferedScript(resp);
    var n := AttemptPieces(accepts, at + |st.evs|, s);
    BufferedContent(resp);
    DeltasAppend(s.deltas[..n], s.deltas[n..]);
    assert s.deltas == s.deltas[..n] + s.deltas[n..];
    ViewsAppend(st.evs, Attempt(accepts, at + |st.evs|, ScriptCalls(s)));
  }

  /** The sink took every call. */
  ghost predicate AllTaken(evs: seq<Event>) {
    forall k :: 0 <= k < |evs| ==> evs[k].ok
  }

  /** The client holds the pieces of the first n deltas of the final call: of all of them on fusion
      turns and where the sink took every call, of none with content before them on degraded turns. */
  ghost predicate HoldsFinalPieces(w: World, o: Outcome, n: nat) {
    var ds := FinalDeltas(w, o);
    && n <= |ds| && DeliveredTools(o.stage.evs) == ToolDeltasOf(ds[..n])
    && (o.ruling.kind == DecisionFusion || AllTaken(o.stage.evs) ==> n == |ds|)
    && (o.ruling.kind == DecisionDegraded ==> ContentOf(ds[..n]) == "")
  }

  ghost predicate HoldsSome(w: World, o: Outcome) {
    exists n :: HoldsFinalPieces(w, o, n)
  }

  /** A turn without a final call and without pieces. */
  lemma HoldsNothing(w: World, o: Outcome)
    requires NoFinalCall(o.stage.log) && DeliveredTools(o.stage.evs) == []
    ensures HoldsFinalPieces(w, o, 0)
  {
    assert o.stage.log != [] ==> o.stage.log[|o.stage.log| - 1] in o.stage.log;
    assert FinalDeltas(w, o) == [] && FinalDeltas(w, o)[..0] == [];
  }

  lemma AllTakenWithin(before: seq<Event>, more: seq<Event>, all: seq<Event>)
    requires before + more <= all
    ensures AllTaken(all) ==> AllTaken(more)
  {
    assert forall k :: 0 <= k < |more| ==> more[k] == all[|before| + k];
  }

  /** A refused delta shows among the events. */
  lemma TakenInFull(accepts: Schedule, at: nat, s: Script)
    ensures AllTaken(Attempt(accepts, at, ScriptCalls(s))) ==> AllAccepted(accepts, at, Emits(s.deltas))
  {
    var n := Accepted(accepts, at, Emits(s.deltas));
    if n < |s.deltas| {
      ScriptRefused(s, s.deltas, accepts, at);
      AttemptShape(accepts, at, Emits(s.deltas));
      assert !Attempt(accepts, at, Emits(s.deltas))[n].ok;
    }
  }

  lemma FinalTurnHolds(w: World, accepts: Schedule, at: nat, st: Stage, model: Model, base: CompletionRequest,
                       spec: CompletionResponse, analysis: JudgeAnalysis)
    requires model.primary.provider in w.registry && spec.toolCalls == [] && DeliveredTools(st.evs) == []
    ensures HoldsSome(w, FinalTurn(w, accepts, at, st, model, base, spec, analysis))
  {
    var provider, req := w.registry[model.primary.provider], FinalRequest(w, model, base, analysis);
    var s, from := w.stream(provider, req), at + |st.evs|;
    var n := AttemptPieces(accepts, from, s);
    var more, after := Attempt(accepts, from, ScriptCalls(s)), Streaming(accepts, at, st, provider, req, s);
    ViewsAppend(st.evs, more);
    assert DeliveredTools(after.evs) == ToolDeltasOf(s.deltas[..n]);
    var usage := FinalStageLog(w, accepts, at, st, provider, req, spec, PanelShown(w, model, base), analysis);
    var o := FinalTurn(w, accepts, at, st, model, base, spec, analysis);
    FinalStageAdds(w, accepts, at, st, provider, req, spec, PanelShown(w, model, base), analysis);
    AllTakenWithin(st.evs, more, o.stage.evs);
    TakenInFull(accepts, from, s);
    if StreamResult(s, accepts, from).1.Some? && Offered(more) == "" {
      OfferedCoversDelivered(more);
      NarrationHasNoPieces(w, accepts, at, after, NotFusedFinalFailed);
      DegradeHasNoPieces(accepts, at, Narrated(w, accepts, at, after, NotFusedFinalFailed), spec,
                         "primary_final_failed");
    }
    assert HoldsFinalPieces(w, o, n);
  }

  lemma PanelStageHolds(w: World, accepts: Schedule, at: nat, st: Stage, model: Model, base: CompletionRequest,
                        spec: CompletionResponse)
    requires model.primary.provider in w.registry && spec.toolCalls == []
    requires NoFinalCall(st.log) && DeliveredTools(st.evs) == []
    ensures HoldsSome(w, PanelStage(w, accepts, at, st, model, base, spec))
  {
    var inv := (s: Stage) => NoFinalCall(s.log) && DeliveredTools(s.evs) == [];
    var goal := (o: Outcome) => HoldsSome(w, o);
    OnlyCompletedBefore(w, model, base, spec);
    forall s: Stage, note | inv(s) ensures inv(Narrated(w, accepts, at, s, note)) {
      NarrationHasNoPieces(w, accepts, at, s, note);
    }
    forall s: Stage, reason | inv(s) ensures goal(Degrade(accepts, at, s, spec, reason)) {
      DegradeHasNoPieces(accepts, at, s, spec, reason);
      HoldsNothing(w, Degrade(accepts, at, s, spec, reason));
    }
    forall s: Stage, analysis | inv(s) ensures goal(FinalTurn(w, accepts, at, s, model, base, spec, analysis)) {
      FinalTurnHolds(w, accepts, at, s, model, base, spec, analysis);
    }
    FinalTurnInduction(w, accepts, at, st, model, base, spec, inv, goal);
  }

  /** The speculative call answered, and with a turn that calls tools. */
  predicate CallsTools(w: World, model: Model, base: CompletionRequest) {
    && model.primary.provider in w.registry && SpeculativeCall(w, model, base).reply.Answered?
    && !IsFinalization(SpeculativeCall(w, model, base).reply.response)
  }

  /** The client holds the pieces of the first n deltas of a replayed response, all of them on a tool
      call turn. */
  ghost predicate HoldsReplayedPieces(resp: CompletionResponse, o: Outcome, n: nat) {
    var ds := BufferedDeltas(resp);
    && n <= |ds| && DeliveredTools(o.stage.evs) == ToolDeltasOf(ds[..n])
    && (o.ruling.kind == DecisionToolCall ==> n == |ds|)
  }

  lemma ReplayHolds(accepts: Schedule, at: nat, st: Stage, resp: CompletionResponse, done: Ruling, failed: string)
    returns (n: nat)
    requires DeliveredTools(st.evs) == [] && done.kind == DecisionToolCall
    ensures HoldsReplayedPieces(resp, Replay(accepts, at, st, resp, done, failed), n)
  {
    n := PiecesBehind(accepts, at + |st.evs|, st.evs, BufferedScript(resp));
  }

  /** A script attempted behind events without pieces. */
  lemma PiecesBehind(accepts: Schedule, at: nat, evs: seq<Event>, s: Script) returns (n: nat)
    requires DeliveredTools(evs) == [] && s.end.Finished?
    ensures n <= |s.deltas|
    ensures DeliveredTools(evs + Attempt(accepts, at, ScriptCalls(s))) == ToolDeltasOf(s.deltas[..n])
    ensures AllAccepted(accepts, at, ScriptCalls(s)) ==> n == |s.deltas|
  {
    n := AttemptPieces(accepts, at, s);
    ViewsAppend(evs, Attempt(accepts, at, ScriptCalls(s)));
    AttemptAppend(accepts, at, Emits(s.deltas), [Finish(s.end.reason)]);
  }

  /** For every upstream behaviour and every pattern of sink failures, on every turn that calls no
      tools: the client holds exactly the tool call pieces of the first deltas of the final call, all
      of them on fusion turns, and on degraded turns only such as came before any content. So a degraded
      turn carries none exactly when those deltas carry none; where the sink took every call they are
      all the final call sent. On every other turn it holds pieces of the speculative response's calls. */
  lemma ToolPiecesOfATurn(w: World, accepts: Schedule, at: nat, model: Model, base: CompletionRequest)
    returns (n: nat)
    requires Answers(w, model, base)
    ensures var o := RunOutcome(w, accepts, at, model, base);
            if CallsTools(w, model, base) then
              HoldsReplayedPieces(SpeculativeCall(w, model, base).reply.response, o, n)
            else HoldsFinalPieces(w, o, n)
  {
    var o := RunOutcome(w, accepts, at, model, base);
    n := 0;
    if model.primary.provider !in w.registry {
      HoldsNothing(w, o);
      return;
    }
    var begun, reply := Begun(w, accepts, at, model, base), SpeculativeCall(w, model, base).reply;
    NarrationHasNoPieces(w, accepts, at, NOTHING_YET, Evaluating);
    if reply.Failed? {
      HoldsNothing(w, o);
      return;
    }
    var st := begun.(usage := begun.usage.Add(reply.response.usage));
    if CallsTools(w, model, base) {
      n := ReplayHolds(accepts, at, st, reply.response, Ruling(DecisionToolCall, "", [], None, None),
                       "tool_call_emit_failed");
    } else {
      PanelStageHolds(w, accepts, at, st, model, base, reply.response);
      n :| HoldsFinalPieces(w, o, n);
    }
  }
}

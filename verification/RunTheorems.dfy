/** What every pipeline run keeps, for all upstream behaviours and all patterns of sink failures. */
module RunTheorems {
  import opened Wrappers
  import opened Providers
  import opened Sinks
  import opened Panel
  import opened Judge
  import opened Pipeline

  // ---------- Reasoning about every final turn ----------

  /** The reason a final turn degrades under before its final call. */
  function EarlyReason(w: World, model: Model, base: CompletionRequest, spec: CompletionResponse): string {
    if NothingToCompare(w, model, base, spec) then "panel_insufficient" else "judge_failed"
  }

  /** What the notes, the panel and the judge keep, and what follows of it however the turn ends, holds
      of every final turn. */
  lemma FinalTurnInduction(w: World, accepts: Schedule, at: nat, st: Stage, model: Model, base: CompletionRequest,
                           spec: CompletionResponse, inv: Stage -> bool, goal: Outcome -> bool)
    requires model.primary.provider in w.registry && inv(st)
    requires forall s, note :: inv(s) ==> inv(Narrated(w, accepts, at, s, note))
    requires forall s :: inv(s) ==> inv(WithPanel(w, model, base, s))
    requires forall s :: inv(s) ==> inv(WithJudge(w, model, base, Compared(w, model, base, spec), s))
    requires forall s :: inv(s) ==> goal(Degrade(accepts, at, s, spec, EarlyReason(w, model, base, spec)))
    requires !NothingToCompare(w, model, base, spec) ==>
               forall s, analysis :: inv(s) ==> goal(FinalTurn(w, accepts, at, s, model, base, spec, analysis))
    ensures goal(PanelStage(w, accepts, at, st, model, base, spec))
  {
    var asked := PanelAsked(w, accepts, at, st, model, base);
    assert inv(Narrated(w, accepts, at, st, Querying(|model.panel|))) && inv(asked);
    if NothingToCompare(w, model, base, spec) {
      assert inv(Narrated(w, accepts, at, asked, NotFusedNoPanel));
    } else {
      var (st', compared) := (Gathered(w, accepts, at, st, model, base), Compared(w, model, base, spec));
      assert inv(st');
      assert inv(Narrated(w, accepts, at, st', Judging(|compared|)));
      JudgeStageByInduction(w, accepts, at, JudgeAsked(w, accepts, at, st', model, base, compared), st', model, base,
                            spec, inv, goal);
    }
  }

  lemma JudgeStageByInduction(w: World, accepts: Schedule, at: nat, asked: Stage, st: Stage, model: Model,
                              base: CompletionRequest, spec: CompletionResponse, inv: Stage -> bool,
                              goal: Outcome -> bool)
    requires model.primary.provider in w.registry && !NothingToCompare(w, model, base, spec)
    requires asked == JudgeAsked(w, accepts, at, st, model, base, Compared(w, model, base, spec)) && inv(asked)
    requires forall s, note :: inv(s) ==> inv(Narrated(w, accepts, at, s, note))
    requires forall s :: inv(s) ==> goal(Degrade(accepts, at, s, spec, "judge_failed"))
    requires forall s, analysis :: inv(s) ==> goal(FinalTurn(w, accepts, at, s, model, base, spec, analysis))
    ensures goal(JudgeStage(w, accepts, at, st, model, base, spec, Compared(w, model, base, spec)))
  {
    var compared := Compared(w, model, base, spec);
    assert inv(Narrated(w, accepts, at, asked, NotFusedJudgeFailed));
    assert inv(Narrated(w, accepts, at, asked, FusedAnswer(|compared|, |model.panel|)));
  }

  // ---------- What an attempted answer leaves on the sink ----------

  lemma {:induction false} ContentPrefix(ds: seq<Delta>, n: nat)
    requires n <= |ds|
    ensures ContentOf(ds[..n]) <= ContentOf(ds)
  {
    assert ds == ds[..n] + ds[n..];
    DeltasAppend(ds[..n], ds[n..]);
  }

  lemma EmitsPrefix(ds: seq<Delta>, n: nat)
    requires n <= |ds|
    ensures Emits(ds)[..n] == Emits(ds[..n])
  {
  }

  /** Nothing was finished, and what was delivered is a prefix of the text. */
  ghost predicate Unfinished(evs: seq<Event>, text: string) {
    Finishes(evs) == [] && Delivered(evs) <= text
  }

  /** Exactly one Done succeeded, it is the last thing the sink saw, and the text is all there. */
  ghost predicate Finished(evs: seq<Event>, text: string) {
    && |Finishes(evs)| == 1
    && evs != [] && evs[|evs| - 1].ok && evs[|evs| - 1].call.Finish?
    && Finishes(evs[..|evs| - 1]) == []
    && Delivered(evs) == text && Offered(evs) == text
  }

  /** Nothing finished and nothing offered yet. */
  ghost predicate Fresh(evs: seq<Event>) {
    Finishes(evs) == [] && Offered(evs) == "" && Delivered(evs) == ""
  }

  /** Deltas attempted after a fresh beginning. */
  lemma DeltasOnly(accepts: Schedule, at: nat, evs: seq<Event>, ds: seq<Delta>)
    requires Fresh(evs)
    ensures var all := evs + Attempt(accepts, at, Emits(ds));
            && Unfinished(all, ContentOf(ds))
            && (AllAccepted(accepts, at, Emits(ds)) ==>
                  Delivered(all) == ContentOf(ds) && Offered(all) == ContentOf(ds))
            && (AllAccepted(accepts, at, Emits(ds)) ==> DeliveredTools(all) == DeliveredTools(evs) + ToolDeltasOf(ds))
  {
    var n := Accepted(accepts, at, Emits(ds));
    var some := Attempt(accepts, at, Emits(ds));
    AttemptShape(accepts, at, Emits(ds));
    EmitsPrefix(ds, n);
    EmitsDeliver(ds[..n]);
    ViewsAppend(evs, some);
    if n < |ds| {
      var last := Event(Emits(ds)[n], false);
      ViewsAppend(Ok(Emits(ds[..n])), [last]);
      ViewsOne(last);
      ContentPrefix(ds, n);
    } else {
      assert ds[..n] == ds;
      assert Ok(Emits(ds)) + [] == Ok(Emits(ds));
    }
  }

  /** A whole answer attempted after a fresh beginning: it is finished exactly when every call is accepted. */
  lemma WholeAnswer(accepts: Schedule, at: nat, evs: seq<Event>, s: Script)
    requires Fresh(evs) && s.end.Finished?
    ensures var all := evs + Attempt(accepts, at, ScriptCalls(s));
            if AllAccepted(accepts, at, ScriptCalls(s)) then
              Finished(all, ContentOf(s.deltas)) && DeliveredTools(all) == DeliveredTools(evs) + ToolDeltasOf(s.deltas)
            else Unfinished(all, ContentOf(s.deltas))
  {
    var emits, fin := Emits(s.deltas), [Finish(s.end.reason)];
    DeltasOnly(accepts, at, evs, s.deltas);
    AttemptAppend(accepts, at, emits, fin);
    if AllAccepted(accepts, at, emits) {
      ScriptCompleted(s, accepts, at);
      LastCall(accepts, at + |s.deltas|, fin);
      DoneBehind(evs, Attempt(accepts, at, emits), s.end.reason, accepts(at + |s.deltas|), ContentOf(s.deltas));
    } else {
      ScriptRefused(s, s.deltas, accepts, at);
    }
  }

  /** Delivered deltas and a Done behind them. */
  lemma DoneBehind(evs: seq<Event>, sent: seq<Event>, reason: string, ok: bool, text: string)
    requires Finishes(evs + sent) == [] && Delivered(evs + sent) == text && Offered(evs + sent) == text
    ensures var all := evs + (sent + [Event(Finish(reason), ok)]);
            && (if ok then Finished(all, text) else Unfinished(all, text))
            && DeliveredTools(all) == DeliveredTools(evs + sent)
  {
    ThenDone(evs + sent, reason, ok);
    assert evs + (sent + [Event(Finish(reason), ok)]) == evs + sent + [Event(Finish(reason), ok)];
  }

  /** A Done after events without one. */
  lemma ThenDone(before: seq<Event>, reason: string, ok: bool)
    requires Finishes(before) == []
    ensures var all := before + [Event(Finish(reason), ok)];
            && Finishes(all) == (if ok then [reason] else []) && all[..|all| - 1] == before
            && Delivered(all) == Delivered(before) && Offered(all) == Offered(before)
            && DeliveredTools(all) == DeliveredTools(before)
  {
    var last := Event(Finish(reason), ok);
    ViewsAppend(before, [last]);
    ViewsOne(last);
  }

  lemma LastCall(accepts: Schedule, at: nat, calls: seq<Call>)
    requires |calls| == 1
    ensures AllAccepted(accepts, at, calls) <==> accepts(at)
  {
    assert calls[1..] == [];
  }

  /** A script's outcome on the sink: finished without an error, unfinished with one. */
  lemma StreamedAnswer(accepts: Schedule, at: nat, evs: seq<Event>, s: Script)
    requires Fresh(evs)
    ensures var all := evs + Attempt(accepts, at, ScriptCalls(s));
            if StreamResult(s, accepts, at).1.None? then Finished(all, ContentOf(s.deltas))
            else Unfinished(all, ContentOf(s.deltas))
  {
    if s.end.Finished? {
      WholeAnswer(accepts, at, evs, s);
      AttemptAppend(accepts, at, Emits(s.deltas), [Finish(s.end.reason)]);
      LastCall(accepts, at + |s.deltas|, [Finish(s.end.reason)]);
    } else {
      DeltasOnly(accepts, at, evs, s.deltas);
      assert Emits(s.deltas) + [] == Emits(s.deltas);
    }
  }

  /** Content that was not offered was not delivered. */
  lemma {:induction false} OfferedCoversDelivered(evs: seq<Event>)
    ensures |Delivered(evs)| <= |Offered(evs)|
  {
    if evs != [] {
      OfferedCoversDelivered(evs[1..]);
    }
  }

  lemma NarrationIsFresh(w: World, accepts: Schedule, at: nat, st: Stage, note: Note)
    requires Fresh(st.evs)
    ensures Fresh(Narrated(w, accepts, at, st, note).evs)
    ensures DeliveredTools(Narrated(w, accepts, at, st, note).evs) == DeliveredTools(st.evs)
  {
    var e := Event(Emit(ReasoningDelta(w.narrate(note))), accepts(at + |st.evs|));
    ViewsAppend(st.evs, [e]);
    ViewsOne(e);
  }

  // ---------- The sink protocol, and answers never mixed ----------

  /** The final call was made: it is then the last exchange. */
  predicate WentFinal(o: Outcome) {
    o.stage.log != [] && o.stage.log[|o.stage.log| - 1].Streamed?
  }

  /** What the final call's upstream sent. */
  function FinalDeltas(w: World, o: Outcome): seq<Delta> {
    if WentFinal(o) then
      var e := o.stage.log[|o.stage.log| - 1];
      w.stream(e.provider, e.request).deltas
    else []
  }

  function FinalText(w: World, o: Outcome): string { ContentOf(FinalDeltas(w, o)) }

  /** How the final call's stream ended, whatever it had said before. */
  predicate FinalBroke(w: World, o: Outcome)
    requires WentFinal(o)
  {
    var e := o.stage.log[|o.stage.log| - 1];
    w.stream(e.provider, e.request).end.Broken?
  }

  ghost predicate NoFinalCall(log: seq<Exchange>) {
    forall e :: e in log ==> e.Completed?
  }

  /** The client's answer is one of the two texts, whole unless the run failed. */
  ghost predicate Delivers(o: Outcome, spec: string, final: string) {
    match o.ruling.kind
    case DecisionToolCall => o.ruling.err.None? && Finished(o.stage.evs, spec)
    case DecisionDegraded => o.ruling.err.None? && Finished(o.stage.evs, spec)
    case DecisionFusion => o.ruling.err.None? && Finished(o.stage.evs, final)
    case DecisionFailed => o.ruling.err.Some? && (Unfinished(o.stage.evs, spec) || Unfinished(o.stage.evs, final))
  }

  lemma BufferedContent(resp: CompletionResponse)
    ensures ContentOf(BufferedDeltas(resp)) == resp.content
    ensures ToolDeltasOf(BufferedDeltas(resp)) == ToolDeltasOf(ToolCallsPieces(resp.toolCalls, |resp.toolCalls|))
  {
    var first := if resp.content != "" then [ContentDelta(resp.content)] else [];
    var pieces := ToolCallsPieces(resp.toolCalls, |resp.toolCalls|);
    DeltasAppend(first, pieces);
    NoContentInPieces(resp.toolCalls, |resp.toolCalls|);
    if first != [] {
      DeltasOne(first[0]);
    }
  }

  lemma {:induction false} NoContentInPieces(tcs: seq<ToolCall>, n: nat)
    requires n <= |tcs|
    ensures ContentOf(ToolCallsPieces(tcs, n)) == ""
  {
    if n > 0 {
      NoContentInPieces(tcs, n - 1);
      DeltasAppend(ToolCallsPieces(tcs, n - 1), ToolCallPieces(n - 1, tcs[n - 1]));
      OneCallPieces(n - 1, tcs[n - 1]);
    }
  }

  lemma OneCallPieces(i: nat, tc: ToolCall)
    ensures ContentOf(ToolCallPieces(i, tc)) == ""
    ensures ToolDeltasOf(ToolCallPieces(i, tc))
         == [ToolCallDelta(i, tc.id, tc.name, "")]
            + (if tc.arguments != "" then [ToolCallDelta(i, "", "", tc.arguments)] else [])
  {
    var head := ToolDelta(ToolCallDelta(i, tc.id, tc.name, ""));
    var args := ToolDelta(ToolCallDelta(i, "", "", tc.arguments));
    DeltasOne(head);
    DeltasOne(args);
    DeltasAppend([head], [args]);
    assert [head] + [] == [head];
  }

  lemma ReplayDelivers(accepts: Schedule, at: nat, st: Stage, resp: CompletionResponse, done: Ruling, failed: string,
                       final: string)
    requires Fresh(st.evs)
    requires (done.kind.DecisionToolCall? || done.kind.DecisionDegraded?) && done.err.None?
    ensures Delivers(Replay(accepts, at, st, resp, done, failed), resp.content, final)
  {
    WholeAnswer(accepts, at + |st.evs|, st.evs, BufferedScript(resp));
    BufferedContent(resp);
  }

  lemma DegradeDelivers(accepts: Schedule, at: nat, st: Stage, resp: CompletionResponse, reason: string, final: string)
    requires Fresh(st.evs)
    ensures Delivers(Degrade(accepts, at, st, resp, reason), resp.content, final)
  {
    ReplayDelivers(accepts, at, st, resp, Ruling(DecisionDegraded, reason, [], None, None), reason + "_emit_failed",
                   final);
  }

  lemma AfterStreamDelivers(w: World, accepts: Schedule, at: nat, evs: seq<Event>, st: Stage, s: Script,
                            spec: CompletionResponse, panel: seq<PanelResult>, analysis: JudgeAnalysis)
    requires Fresh(evs) && st.evs == evs + Attempt(accepts, at + |evs|, ScriptCalls(s))
    ensures var handed := Offered(Attempt(accepts, at + |evs|, ScriptCalls(s)));
            var err := StreamResult(s, accepts, at + |evs|).1;
            Delivers(AfterStream(w, accepts, at, st, err, handed, spec, panel, analysis), spec.content,
                     ContentOf(s.deltas))
  {
    var more := Attempt(accepts, at + |evs|, ScriptCalls(s));
    StreamedAnswer(accepts, at + |evs|, evs, s);
    if StreamResult(s, accepts, at + |evs|).1.Some? && Offered(more) == "" {
      ViewsAppend(evs, more);
      OfferedCoversDelivered(st.evs);
      assert Fresh(st.evs);
      NarrationIsFresh(w, accepts, at, st, NotFusedFinalFailed);
      DegradeDelivers(accepts, at, Narrated(w, accepts, at, st, NotFusedFinalFailed), spec, "primary_final_failed",
                      ContentOf(s.deltas));
    }
  }

  lemma FinalStageDelivers(w: World, accepts: Schedule, at: nat, st: Stage, provider: Provider, req: CompletionRequest,
                           spec: CompletionResponse, panel: seq<PanelResult>, analysis: JudgeAnalysis)
    requires Fresh(st.evs)
    ensures var o := FinalStage(w, accepts, at, st, provider, req, spec, panel, analysis);
            Delivers(o, spec.content, FinalText(w, o))
  {
    var s := w.stream(provider, req);
    var st' := Streaming(accepts, at, st, provider, req, s);
    AfterStreamDelivers(w, accepts, at, st.evs, st', s, spec, panel, analysis);
  }

  lemma PanelStageDelivers(w: World, accepts: Schedule, at: nat, st: Stage, model: Model, base: CompletionRequest,
                           spec: CompletionResponse)
    requires model.primary.provider in w.registry && Fresh(st.evs)
    ensures var o := PanelStage(w, accepts, at, st, model, base, spec);
            Delivers(o, spec.content, FinalText(w, o))
  {
    var inv := (s: Stage) => Fresh(s.evs);
    var goal := (o: Outcome) => Delivers(o, spec.content, FinalText(w, o));
    forall s: Stage, note | inv(s) ensures inv(Narrated(w, accepts, at, s, note)) {
      NarrationIsFresh(w, accepts, at, s, note);
    }
    forall s: Stage, reason | inv(s) ensures goal(Degrade(accepts, at, s, spec, reason)) {
      DegradeDelivers(accepts, at, s, spec, reason, FinalText(w, Degrade(accepts, at, s, spec, reason)));
    }
    forall s: Stage, analysis | inv(s) ensures goal(FinalTurn(w, accepts, at, s, model, base, spec, analysis)) {
      FinalStageDelivers(w, accepts, at, s, w.registry[model.primary.provider],
                         FinalRequest(w, model, base, analysis), spec, PanelShown(w, model, base), analysis);
    }
    FinalTurnInduction(w, accepts, at, st, model, base, spec, inv, goal);
  }

  /** The text of the speculative answer, if there was one. */
  function SpeculativeText(w: World, model: Model, base: CompletionRequest): string {
    if model.primary.provider in w.registry && SpeculativeCall(w, model, base).reply.Answered? then
      SpeculativeCall(w, model, base).reply.response.content
    else ""
  }

  lemma RunDelivers(w: World, accepts: Schedule, at: nat, model: Model, base: CompletionRequest)
    requires Answers(w, model, base)
    ensures var o := RunOutcome(w, accepts, at, model, base);
            Delivers(o, SpeculativeText(w, model, base), FinalText(w, o))
  {
    if model.primary.provider in w.registry {
      var call := SpeculativeCall(w, model, base);
      NarrationIsFresh(w, accepts, at, NOTHING_YET, Evaluating);
      var st := Begun(w, accepts, at, model, base);
      if call.reply.Answered? {
        var spec := call.reply.response;
        var st' := st.(usage := st.usage.Add(spec.usage));
        if IsFinalization(spec) {
          PanelStageDelivers(w, accepts, at, st', model, base, spec);
        } else {
          ReplayDelivers(accepts, at, st', spec, Ruling(DecisionToolCall, "", [], None, None), "tool_call_emit_failed",
                         FinalText(w, RunOutcome(w, accepts, at, model, base)));
        }
      }
    }
  }

  /** What the sink and the decision show of an outcome that delivers one of two texts. */
  ghost predicate KeepsProtocol(o: Outcome) {
    var evs := o.stage.evs;
    && (o.ruling.err.None? <==> |Finishes(evs)| == 1)
    && (o.ruling.err.Some? <==> Finishes(evs) == [])
    && (o.ruling.err.None? ==>
          evs != [] && evs[|evs| - 1].ok && evs[|evs| - 1].call.Finish? && Finishes(evs[..|evs| - 1]) == [])
    && (o.ruling.err.Some? <==> Stamp(o).kind == DecisionFailed)
    && (o.ruling.err.None? ==> Stamp(o).finalAnswerBytes == |Delivered(evs)|)
    && ShowsRun(Stamp(o), o)
  }

  /** The decision shows how the run ended, how much it offered the client, and all it used. */
  predicate ShowsRun(dec: Decision, o: Outcome) {
    && dec.kind == o.ruling.kind && dec.fallbackReason == o.ruling.reason
    && dec.panel == o.ruling.panel && dec.judgeAnalysis == o.ruling.analysis && dec.usage == o.stage.usage
    && dec.finalAnswerBytes == |Offered(o.stage.evs)| && Heads(dec.finalAnswerHead, Offered(o.stage.evs))
  }

  lemma DeliveringKeepsProtocol(o: Outcome, spec: string, final: string)
    requires Delivers(o, spec, final)
    ensures KeepsProtocol(o)
  {
  }

  /** For every upstream behaviour and every pattern of sink failures: the run returns a nil error
      exactly when exactly one Done succeeded, and that Done is the last call the sink saw; the decision
      is failed exactly when there is an error; and the content delivered is exactly the speculative text
      on tool call and degraded turns, exactly the final call's text on fusion turns, and a prefix of
      one of the two on failed turns. */
  lemma SinkProtocol(w: World, accepts: Schedule, at: nat, model: Model, base: CompletionRequest)
    requires Answers(w, model, base)
    ensures var o := RunOutcome(w, accepts, at, model, base);
            Delivers(o, SpeculativeText(w, model, base), FinalText(w, o)) && KeepsProtocol(o)
  {
    var o := RunOutcome(w, accepts, at, model, base);
    RunDelivers(w, accepts, at, model, base);
    DeliveringKeepsProtocol(o, SpeculativeText(w, model, base), FinalText(w, o));
  }

  // ---------- Tool calls survive the replay ----------

  function CallsByIndex(tcs: seq<ToolCall>, n: nat): map<int, BuiltCall>
    requires n <= |tcs|
  {
    map i: int | 0 <= i < n :: BuiltCall(tcs[i].id, tcs[i].name, tcs[i].arguments)
  }

  lemma OneCallRegroups(i: nat, tc: ToolCall, calls: map<int, BuiltCall>)
    requires i !in calls
    ensures Regroup(ToolDeltasOf(ToolCallPieces(i, tc)), calls) == calls[i := BuiltCall(tc.id, tc.name, tc.arguments)]
  {
    OneCallPieces(i, tc);
    var head, args := ToolCallDelta(i, tc.id, tc.name, ""), ToolCallDelta(i, "", "", tc.arguments);
    var first := calls[i := BuiltCall(tc.id, tc.name, "")];
    assert MergeDelta(EMPTY_CALL, head) == BuiltCall(tc.id, tc.name, "");
    assert [head][1..] == [] && [args][1..] == [];
    assert Regroup([head], calls) == first;
    RegroupAppend([head], [args], calls);
    assert [head] + [] == [head];
    assert "" + tc.arguments == tc.arguments;
    assert Regroup([args], first) == first[i := BuiltCall(tc.id, tc.name, tc.arguments)];
  }

  lemma PiecesRegroup(a: seq<Delta>, b: seq<Delta>)
    ensures Regroup(ToolDeltasOf(a + b), map[]) == Regroup(ToolDeltasOf(b), Regroup(ToolDeltasOf(a), map[]))
  {
    DeltasAppend(a, b);
    RegroupAppend(ToolDeltasOf(a), ToolDeltasOf(b), map[]);
  }

  lemma CallsByIndexStep(tcs: seq<ToolCall>, n: nat)
    requires n < |tcs|
    ensures n !in CallsByIndex(tcs, n)
    ensures CallsByIndex(tcs, n + 1) == CallsByIndex(tcs, n)[n := BuiltCall(tcs[n].id, tcs[n].name, tcs[n].arguments)]
  {
  }

  lemma OneMoreCall(tcs: seq<ToolCall>, n: nat)
    requires n < |tcs| && Regroup(ToolDeltasOf(ToolCallsPieces(tcs, n)), map[]) == CallsByIndex(tcs, n)
    ensures Regroup(ToolDeltasOf(ToolCallsPieces(tcs, n + 1)), map[]) == CallsByIndex(tcs, n + 1)
  {
    var (a, b) := (ToolCallsPieces(tcs, n), ToolCallPieces(n, tcs[n]));
    assert ToolCallsPieces(tcs, n + 1) == a + b;
    PiecesRegroup(a, b);
    CallsByIndexStep(tcs, n);
    OneCallRegroups(n, tcs[n], CallsByIndex(tcs, n));
  }

  lemma {:induction false} CallsRegroup(tcs: seq<ToolCall>, n: nat)
    requires n <= |tcs|
    ensures Regroup(ToolDeltasOf(ToolCallsPieces(tcs, n)), map[]) == CallsByIndex(tcs, n)
  {
    if n > 0 {
      CallsRegroup(tcs, n - 1);
      OneMoreCall(tcs, n - 1);
    } else {
      assert CallsByIndex(tcs, 0) == map[];
    }
  }

  // ---------- What a decision reports ----------

  predicate DegradeReason(reason: string) {
    reason == "panel_insufficient" || reason == "judge_failed" || reason == "primary_final_failed"
  }

  predicate EmitFailed(reason: string) {
    || reason == "panel_insufficient_emit_failed" || reason == "judge_failed_emit_failed"
    || reason == "primary_final_failed_emit_failed"
  }

  /** The panel and the analysis are there to see, or neither is. */
  predicate Shows(r: Ruling, panel: seq<PanelResult>) { r.panel == panel && r.analysis.Some? }
  predicate ShowsNothing(r: Ruling) { r.panel == [] && r.analysis.None? }

  /** The ruling on a final turn: how it ended, why, and what it shows of the panel. */
  predicate Reports(r: Ruling, panel: seq<PanelResult>) {
    match r.kind
    case DecisionToolCall => false
    case DecisionFusion => r.err.None? && r.reason == "" && Shows(r, panel)
    case DecisionDegraded => r.err.None? && DegradeReason(r.reason) && ShowsNothing(r)
    case DecisionFailed =>
      && r.err.Some?
      && if EmitFailed(r.reason) then ShowsNothing(r)
         else r.reason == "primary_final_failed_midstream" && Shows(r, panel)
  }

  lemma DegradeReports(accepts: Schedule, at: nat, st: Stage, resp: CompletionResponse, reason: string,
                       panel: seq<PanelResult>)
    requires DegradeReason(reason)
    ensures Reports(Degrade(accepts, at, st, resp, reason).ruling, panel)
  {
    assert EmitFailed(reason + "_emit_failed");
  }

  lemma MidstreamIsNoEmitFailure()
    ensures !EmitFailed("primary_final_failed_midstream")
  {
    var (a, b) := ("primary_final_failed_midstream", "panel_insufficient_emit_failed");
    assert a[1] != b[1];
  }

  lemma FinalStageReports(w: World, accepts: Schedule, at: nat, st: Stage, provider: Provider, req: CompletionRequest,
                          spec: CompletionResponse, panel: seq<PanelResult>, analysis: JudgeAnalysis)
    ensures Reports(FinalStage(w, accepts, at, st, provider, req, spec, panel, analysis).ruling, panel)
  {
    var after := Streaming(accepts, at, st, provider, req, w.stream(provider, req));
    MidstreamIsNoEmitFailure();
    DegradeReports(accepts, at, Narrated(w, accepts, at, after, NotFusedFinalFailed), spec, "primary_final_failed",
                   panel);
  }

  /** A final turn is never reported as a tool call turn: it is fused or breaks midstream, with the
      panel's results and an analysis to show, or it is degraded or fails to be emitted under one of
      three reasons each, with neither. */
  lemma PanelStageReports(w: World, accepts: Schedule, at: nat, st: Stage, model: Model, base: CompletionRequest,
                          spec: CompletionResponse)
    requires model.primary.provider in w.registry
    ensures Reports(PanelStage(w, accepts, at, st, model, base, spec).ruling, PanelShown(w, model, base))
  {
    var inv := (s: Stage) => true;
    var panel := PanelShown(w, model, base);
    var goal := (o: Outcome) => Reports(o.ruling, panel);
    forall s: Stage ensures goal(Degrade(accepts, at, s, spec, EarlyReason(w, model, base, spec))) {
      DegradeReports(accepts, at, s, spec, EarlyReason(w, model, base, spec), panel);
    }
    forall s: Stage, analysis ensures goal(FinalTurn(w, accepts, at, s, model, base, spec, analysis)) {
      FinalStageReports(w, accepts, at, s, w.registry[model.primary.provider],
                        FinalRequest(w, model, base, analysis), spec, panel, analysis);
    }
    FinalTurnInduction(w, accepts, at, st, model, base, spec, inv, goal);
  }

  /** A run that has replayed a turn that calls tools, or failed to. */
  predicate ReportsReplay(r: Ruling) {
    && ShowsNothing(r)
    && if r.err.None? then r.kind == DecisionToolCall && r.reason == ""
       else r.kind == DecisionFailed && r.reason == "tool_call_emit_failed" && r.err == Some(SinkRefused)
  }

  /** The ruling on any run: what failed, if the primary was missing or did not answer, and otherwise what
      its answer called for. */
  ghost predicate RunReports(w: World, model: Model, base: CompletionRequest, r: Ruling) {
    if model.primary.provider !in w.registry then
      && r.kind == DecisionFailed && r.reason == "primary_provider_missing" && ShowsNothing(r)
      && r.err == Some(NotRegistered(model.primary.provider))
    else
      match SpeculativeCall(w, model, base).reply
      case Failed(e) =>
        r.kind == DecisionFailed && r.reason == "speculative_failed" && ShowsNothing(r) && r.err == Some(e)
      case Answered(spec) =>
        if |spec.toolCalls| > 0 || spec.finishReason == "tool_calls" then ReportsReplay(r)
        else Reports(r, PanelShown(w, model, base))
      case Nothing => true
  }

  lemma EveryRunReports(w: World, accepts: Schedule, at: nat, model: Model, base: CompletionRequest)
    requires Answers(w, model, base)
    ensures RunReports(w, model, base, RunOutcome(w, accepts, at, model, base).ruling)
  {
    if model.primary.provider in w.registry {
      var reply := SpeculativeCall(w, model, base).reply;
      if reply.Answered? && IsFinalization(reply.response) {
        var st := Begun(w, accepts, at, model, base);
        PanelStageReports(w, accepts, at, st.(usage := st.usage.Add(reply.response.usage)), model, base,
                          reply.response);
      }
    }
  }

  /** Only the replay of the speculative answer ends as a tool call turn. */
  lemma DetectedToolCalls(w: World, accepts: Schedule, at: nat, st: Stage, model: Model, base: CompletionRequest,
                          reply: Reply)
    requires model.primary.provider in w.registry && !reply.Nothing?
    requires Detected(w, accepts, at, st, model, base, reply).ruling.kind == DecisionToolCall
    ensures reply.Answered?
    ensures AllAccepted(accepts, at + |st.evs|, ScriptCalls(BufferedScript(reply.response)))
    ensures Detected(w, accepts, at, st, model, base, reply).stage.evs
         == st.evs + Attempt(accepts, at + |st.evs|, ScriptCalls(BufferedScript(reply.response)))
  {
    if reply.Answered? && IsFinalization(reply.response) {
      PanelStageReports(w, accepts, at, st.(usage := st.usage.Add(reply.response.usage)), model, base, reply.response);
    }
  }

  /** On a tool call turn the client's deltas, grouped by index with arguments joined, are exactly the
      speculative response's calls: same ids, names and arguments, under their positions. */
  lemma ToolCallsSurvive(w: World, accepts: Schedule, at: nat, model: Model, base: CompletionRequest)
    requires Answers(w, model, base)
    requires RunOutcome(w, accepts, at, model, base).ruling.kind == DecisionToolCall
    ensures model.primary.provider in w.registry && SpeculativeCall(w, model, base).reply.Answered?
    ensures var tcs := SpeculativeCall(w, model, base).reply.response.toolCalls;
            Regroup(DeliveredTools(RunOutcome(w, accepts, at, model, base).stage.evs), map[])
            == CallsByIndex(tcs, |tcs|)
  {
    var call := SpeculativeCall(w, model, base);
    var st := Begun(w, accepts, at, model, base);
    DetectedToolCalls(w, accepts, at, st, model, base, call.reply);
    NarrationIsFresh(w, accepts, at, NOTHING_YET, Evaluating);
    ReplayedCalls(accepts, at, st, call.reply.response);
  }

  lemma ReplayedTools(accepts: Schedule, at: nat, evs: seq<Event>, spec: CompletionResponse)
    requires Fresh(evs) && DeliveredTools(evs) == []
    requires AllAccepted(accepts, at, ScriptCalls(BufferedScript(spec)))
    ensures DeliveredTools(evs + Attempt(accepts, at, ScriptCalls(BufferedScript(spec))))
         == ToolDeltasOf(BufferedDeltas(spec))
  {
    WholeAnswer(accepts, at, evs, BufferedScript(spec));
    assert [] + ToolDeltasOf(BufferedDeltas(spec)) == ToolDeltasOf(BufferedDeltas(spec));
  }

  lemma ReplayedCalls(accepts: Schedule, at: nat, st: Stage, spec: CompletionResponse)
    requires Fresh(st.evs) && DeliveredTools(st.evs) == []
    requires AllAccepted(accepts, at + |st.evs|, ScriptCalls(BufferedScript(spec)))
    ensures Regroup(DeliveredTools(st.evs + Attempt(accepts, at + |st.evs|, ScriptCalls(BufferedScript(spec)))), map[])
         == CallsByIndex(spec.toolCalls, |spec.toolCalls|)
  {
    ReplayedTools(accepts, at + |st.evs|, st.evs, spec);
    BufferedContent(spec);
    CallsRegroup(spec.toolCalls, |spec.toolCalls|);
  }
}

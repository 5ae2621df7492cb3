/** When a run falls back, on a sink that takes everything (internal/fusion/pipeline.go:94-241). */
module Fallback {
  import opened Wrappers
  import opened Providers
  import opened Sinks
  import opened Panel
  import opened Judge
  import opened Pipeline
  import opened RunTheorems
  import opened RunUsage
  import opened RunTools
  import opened RunSchedules

  /** A stream ends on such a sink as its script does, with all its content handed on. */
  lemma StreamedInFull(s: Script, at: nat)
    ensures StreamResult(s, Always(), at).1 == if s.end.Broken? then Some(s.end.failure) else None
    ensures Offered(Attempt(Always(), at, ScriptCalls(s))) == ContentOf(s.deltas)
  {
    var sent := Attempt(Always(), at, Emits(s.deltas));
    AlwaysAccepts(at, Emits(s.deltas));
    ScriptCompleted(s, Always(), at);
    DeltasOnly(Always(), at, [], s.deltas);
    assert [] + sent == sent;
    if s.end.Finished? {
      ThenDoneOffers(sent, s.end.reason);
    } else {
      assert sent + [] == sent;
    }
  }

  lemma ThenDoneOffers(sent: seq<Event>, reason: string)
    ensures Offered(sent + [Event(Finish(reason), true)]) == Offered(sent)
  {
    ViewsAppend(sent, [Event(Finish(reason), true)]);
    ViewsOne(Event(Finish(reason), true));
  }

  /** What becomes of a final turn; `bare` says there was nothing to compare. */
  ghost predicate Settles(w: World, o: Outcome, bare: bool) {
    match o.ruling.kind
    case DecisionToolCall => false
    case DecisionFusion => !bare && WentFinal(o) && !FinalBroke(w, o)
    case DecisionFailed => !bare && WentFinal(o) && FinalBroke(w, o) && FinalText(w, o) != ""
    case DecisionDegraded =>
      if WentFinal(o) then
        !bare && FinalBroke(w, o) && FinalText(w, o) == "" && o.ruling.reason == "primary_final_failed"
      else o.ruling.reason == if bare then "panel_insufficient" else "judge_failed"
  }

  lemma DegradeSettles(w: World, at: nat, st: Stage, resp: CompletionResponse, reason: string)
    ensures var o := Degrade(Always(), at, st, resp, reason);
            o.ruling.kind == DecisionDegraded && o.ruling.reason == reason && o.stage.log == st.log
  {
    AlwaysAccepts(at + |st.evs|, ScriptCalls(BufferedScript(resp)));
  }

  /** A turn that degrades before the final call. */
  lemma EarlyDegradeSettles(w: World, at: nat, st: Stage, resp: CompletionResponse, bare: bool)
    requires NoFinalCall(st.log)
    ensures Settles(w, Degrade(Always(), at, st, resp, if bare then "panel_insufficient" else "judge_failed"), bare)
  {
    DegradeSettles(w, at, st, resp, if bare then "panel_insufficient" else "judge_failed");
    assert st.log != [] ==> st.log[|st.log| - 1] in st.log;
  }

  lemma FinalStageSettles(w: World, at: nat, st: Stage, provider: Provider, req: CompletionRequest,
                          spec: CompletionResponse, panel: seq<PanelResult>, analysis: JudgeAnalysis)
    ensures Settles(w, FinalStage(w, Always(), at, st, provider, req, spec, panel, analysis), false)
  {
    var script := w.stream(provider, req);
    StreamedInFull(script, at + |st.evs|);
    var after := Streaming(Always(), at, st, provider, req, script);
    assert after.log[|after.log| - 1].Streamed?;
    DegradeSettles(w, at, Narrated(w, Always(), at, after, NotFusedFinalFailed), spec, "primary_final_failed");
  }

  lemma PanelStageSettles(w: World, at: nat, st: Stage, model: Model, base: CompletionRequest, spec: CompletionResponse)
    requires model.primary.provider in w.registry && NoFinalCall(st.log)
    ensures Settles(w, PanelStage(w, Always(), at, st, model, base, spec), NothingToCompare(w, model, base, spec))
  {
    var bare := NothingToCompare(w, model, base, spec);
    var inv := (s: Stage) => NoFinalCall(s.log);
    var goal := (o: Outcome) => Settles(w, o, bare);
    OnlyCompletedBefore(w, model, base, spec);
    forall s: Stage | inv(s) ensures goal(Degrade(Always(), at, s, spec, EarlyReason(w, model, base, spec))) {
      EarlyDegradeSettles(w, at, s, spec, bare);
    }
    forall s: Stage, analysis | inv(s) && !bare
      ensures goal(FinalTurn(w, Always(), at, s, model, base, spec, analysis))
    {
      FinalStageSettles(w, at, s, w.registry[model.primary.provider], FinalRequest(w, model, base, analysis), spec,
                        PanelShown(w, model, base), analysis);
    }
    FinalTurnInduction(w, Always(), at, st, model, base, spec, inv, goal);
  }

  /** For every upstream behaviour, once the speculative call has answered: a turn that calls tools is
      replayed at no further cost; any other turn is fused exactly when the final call was made and ended
      properly, fails exactly when that call broke after content had reached the client, and in every
      other case falls back to the speculative answer, under a reason that says which layer gave way. */
  lemma EveryTurnIsAnswered(w: World, at: nat, model: Model, base: CompletionRequest)
    requires model.primary.provider in w.registry && SpeculativeCall(w, model, base).reply.Answered?
    ensures var o := RunOutcome(w, Always(), at, model, base);
            var spec := SpeculativeCall(w, model, base).reply.response;
            if |spec.toolCalls| > 0 || spec.finishReason == "tool_calls" then
              o.ruling.kind == DecisionToolCall && o.stage.log == [SpeculativeCall(w, model, base)]
            else Settles(w, o, NothingToCompare(w, model, base, spec))
  {
    var call := SpeculativeCall(w, model, base);
    var spec := call.reply.response;
    var st := Begun(w, Always(), at, model, base);
    var st' := st.(usage := st.usage.Add(spec.usage));
    if IsFinalization(spec) {
      PanelStageSettles(w, at, st', model, base, spec);
    } else {
      AlwaysAccepts(at + |st'.evs|, ScriptCalls(BufferedScript(spec)));
    }
  }

  // ---------- A turn the fallback does not save ----------

  const HOME := Endpoint("p", "m", None, None, "")
  const ONE_MODEL := Model(HOME, [HOME], HOME, 25000, 1)

  function Saying(text: string): Reply { Answered(CompletionResponse(text, [], "stop", NO_USAGE)) }

  /** A text from an opening to a closing brace. */
  predicate Braced(text: string) { |text| >= 2 && text[0] == '{' && text[|text| - 1] == '}' }

  /** Every call answers with a readable object, but the final stream breaks after its first delta. */
  function BreakingWorld(text: string, analysis: JudgeAnalysis, first: Delta): World {
    World(map["p" := Provider("p", "openai", "", "")], false, (_, _, _) => Saying(text),
          (_, _) => Script([first], Broken(ReadFailed("reset"))), _ => Some(analysis), _ => text, _ => "")
  }

  lemma BracedIsObject(text: string)
    requires Braced(text)
    ensures ObjectText(text) == Some(text)
  {
    ObjectAt(text, 0, |text| - 1);
    assert text[0..|text|] == text;
  }

  lemma ReadableAtOnce(parse: Unmarshal, first: Exchange, second: Exchange, analysis: JudgeAnalysis)
    requires first.Completed? && second.Completed? && first.reply.Answered?
    requires parse(first.reply.response.content) == Some(analysis)
    ensures Verdict(parse, first, second).analysis == Some(analysis)
  {
  }

  lemma JudgeIsReadable(text: string, analysis: JudgeAnalysis, first: Delta, base: CompletionRequest,
                        successes: seq<MemberResult>)
    returns (judged: JudgeOutcome)
    requires Braced(text)
    ensures judged == Judgement(BreakingWorld(text, analysis, first), ONE_MODEL, base, successes)
    ensures judged.analysis == Some(analysis)
  {
    var w := BreakingWorld(text, analysis, first);
    var provider, req := w.registry["p"], JudgeRequest(HOME, base.messages, successes);
    var parse := Reader(w.unmarshal);
    BracedIsObject(text);
    JudgeOutputIsOutermostObject(w.unmarshal, text);
    judged := Judgement(w, ONE_MODEL, base, successes);
    ReadableAtOnce(parse, Ask(w.complete, provider, JudgeCall(1), req),
                   Ask(w.complete, provider, JudgeCall(2), Stricter(req)), analysis);
  }

  /** In that world every turn reaches the final call. */
  lemma BreakingTurn(at: nat, base: CompletionRequest, text: string, analysis: JudgeAnalysis, first: Delta)
    returns (o: Outcome)
    requires Braced(text)
    ensures o == RunOutcome(BreakingWorld(text, analysis, first), Always(), at, ONE_MODEL, base)
    ensures WentFinal(o) && FinalBroke(BreakingWorld(text, analysis, first), o)
    ensures FinalDeltas(BreakingWorld(text, analysis, first), o) == [first]
  {
    var w := BreakingWorld(text, analysis, first);
    var spec := SpeculativeCall(w, ONE_MODEL, base).reply.response;
    var begun := Begun(w, Always(), at, ONE_MODEL, base);
    var st := begun.(usage := begun.usage.Add(spec.usage));
    var compared := Compared(w, ONE_MODEL, base, spec);
    var judged := JudgeIsReadable(text, analysis, first, base, compared);
    var asked := JudgeAsked(w, Always(), at, Gathered(w, Always(), at, st, ONE_MODEL, base), ONE_MODEL, base, compared);
    var usage := FinalStageLog(w, Always(), at, Narrated(w, Always(), at, asked, FusedAnswer(|compared|, 1)),
                               w.registry["p"], FinalRequest(w, ONE_MODEL, base, analysis), spec,
                               PanelShown(w, ONE_MODEL, base), analysis);
    o := RunOutcome(w, Always(), at, ONE_MODEL, base);
  }

  /** The speculative answer is there, yet the turn fails: the client already holds words of another. */
  lemma BrokenMidstreamFails(at: nat, base: CompletionRequest, text: string, analysis: JudgeAnalysis)
    returns (o: Outcome)
    requires Braced(text)
    ensures var w := BreakingWorld(text, analysis, ContentDelta("So"));
            SpeculativeCall(w, ONE_MODEL, base).reply == Saying(text)
            && o == RunOutcome(w, Always(), at, ONE_MODEL, base)
    ensures o.ruling.kind == DecisionFailed
  {
    var w := BreakingWorld(text, analysis, ContentDelta("So"));
    o := BreakingTurn(at, base, text, analysis, ContentDelta("So"));
    DeltasOne(ContentDelta("So"));
    EveryTurnIsAnswered(w, at, ONE_MODEL, base);
  }

  /** A degraded turn whose client holds a piece of the broken final stream's tool call before the
      speculative answer. */
  lemma DegradedTurnMayCarryTools(at: nat, base: CompletionRequest, text: string, analysis: JudgeAnalysis,
                                  piece: ToolCallDelta)
    returns (o: Outcome)
    requires Braced(text)
    ensures o == RunOutcome(BreakingWorld(text, analysis, ToolDelta(piece)), Always(), at, ONE_MODEL, base)
    ensures o.ruling.kind == DecisionDegraded && DeliveredTools(o.stage.evs) == [piece]
    ensures Delivered(o.stage.evs) == text
  {
    var w := BreakingWorld(text, analysis, ToolDelta(piece));
    o := BreakingTurn(at, base, text, analysis, ToolDelta(piece));
    DeltasOne(ToolDelta(piece));
    EveryTurnIsAnswered(w, at, ONE_MODEL, base);
    RunIsScheduled(w, Always(), at, ONE_MODEL, base);
    var n := ToolPiecesOfATurn(w, Always(), at, ONE_MODEL, base);
    assert [ToolDelta(piece)][..1] == [ToolDelta(piece)];
    SinkProtocol(w, Always(), at, ONE_MODEL, base);
  }
}

/** One pipeline run: speculative call, detection, panel, judge, final stream
    (internal/fusion/pipeline.go, internal/fusion/detect.go). */
module Pipeline {
  import opened Wrappers
  import opened Providers
  import opened Sinks
  import opened Streams
  import opened Panel
  import opened Judge
  import opened Handoff

  datatype DecisionKind = DecisionToolCall | DecisionFusion | DecisionDegraded | DecisionFailed

  datatype PanelError =
    | NoError
    | CallFailed(failure: Failure)
    | NoResponseReturned
    | EmptyContent(finish: string, promptTokens: int, completionTokens: int)

  /** The snapshot's view of one panel member. */
  datatype PanelResult = PanelResult(
    provider: string, model: string, ok: bool, attempts: nat, error: PanelError, usage: Usage)

  datatype Decision = Decision(
    kind: DecisionKind, fallbackReason: string, panel: seq<PanelResult>, judgeAnalysis: Option<JudgeAnalysis>,
    finalAnswerBytes: nat, finalAnswerHead: string, usage: Usage)

  /** The moments at which the pipeline tells the client how it is getting on. */
  datatype Note =
    | Evaluating | Querying(models: nat) | NotFusedNoPanel | PanelSparse | Judging(responses: nat)
    | NotFusedJudgeFailed | FusedAnswer(responses: nat, models: nat) | NotFusedFinalFailed

  /** Everything outside the pipeline: how upstreams answer, how JSON reads, how notes are worded. */
  datatype World = World(
    registry: Registry, emitProgress: bool, complete: Upstream, stream: (Provider, CompletionRequest) -> Script,
    unmarshal: Unmarshal, marshal: JudgeAnalysis -> string, narrate: Note -> string)

  /** A turn is final unless it calls tools. */
  predicate IsFinalization(resp: CompletionResponse) {
    |resp.toolCalls| == 0 && resp.finishReason != "tool_calls"
  }

  // ---------- Replaying a buffered response ----------

  function ToolCallPieces(i: nat, tc: ToolCall): seq<Delta> {
    [ToolDelta(ToolCallDelta(i, tc.id, tc.name, ""))]
    + (if tc.arguments != "" then [ToolDelta(ToolCallDelta(i, "", "", tc.arguments))] else [])
  }

  /** The deltas of the first n tool calls. */
  function ToolCallsPieces(tcs: seq<ToolCall>, n: nat): seq<Delta>
    requires n <= |tcs|
  {
    if n == 0 then [] else ToolCallsPieces(tcs, n - 1) + ToolCallPieces(n - 1, tcs[n - 1])
  }

  function BufferedDeltas(resp: CompletionResponse): seq<Delta> {
    (if resp.content != "" then [ContentDelta(resp.content)] else [])
    + ToolCallsPieces(resp.toolCalls, |resp.toolCalls|)
  }

  function ReasonOf(resp: CompletionResponse): string {
    if resp.finishReason == "" then "stop" else resp.finishReason
  }

  function BufferedScript(resp: CompletionResponse): Script {
    Script(BufferedDeltas(resp), Finished(ReasonOf(resp), resp.usage))
  }

  /** Hands deltas on until one is refused. */
  method EmitDeltas(sink: CountingSink, ds: seq<Delta>) returns (ok: bool)
    requires sink.Valid()
    modifies sink, sink.inner
    ensures sink.Valid()
    ensures Attempted(sink.inner.accepts, old(sink.inner.trace), sink.inner.trace, ds)
    ensures ok == AllAccepted(sink.inner.accepts, |old(sink.inner.trace)|, Emits(ds))
    ensures ok ==> |sink.inner.trace| == |old(sink.inner.trace)| + |ds|
  {
    ok := true;
    ghost var accepts, before := sink.inner.accepts, sink.inner.trace;
    NothingTaken(accepts, before, ds);
    for i := 0 to |ds|
      invariant sink.Valid() && TakenUpTo(accepts, before, sink.inner.trace, ds, i)
    {
      ghost var mid := sink.inner.trace;
      ok := sink.Delta(ds[i]);
      OneMoreDelta(accepts, before, mid, ds, i);
      if !ok {
        return;
      }
    }
    assert ds[..|ds|] == ds;
  }

  /** Replays a response: content, each tool call as a head and its arguments, then Done. */
  method EmitBuffered(sink: CountingSink, resp: CompletionResponse) returns (ok: bool)
    requires sink.Valid()
    modifies sink, sink.inner
    ensures sink.Valid()
    ensures var calls := ScriptCalls(BufferedScript(resp));
            && sink.inner.trace == old(sink.inner.trace) + Attempt(sink.inner.accepts, |old(sink.inner.trace)|, calls)
            && ok == AllAccepted(sink.inner.accepts, |old(sink.inner.trace)|, calls)
  {
    ghost var s := BufferedScript(resp);
    ghost var accepts, before := sink.inner.accepts, sink.inner.trace;
    ok := EmitBufferedDeltas(sink, resp);
    AttemptAppend(accepts, |before|, Emits(s.deltas), [Finish(ReasonOf(resp))]);
    if !ok {
      ScriptRefused(s, s.deltas, accepts, |before|);
      return;
    }
    ScriptCompleted(s, accepts, |before|);
    ok := sink.Done(ReasonOf(resp));
  }

  method EmitBufferedDeltas(sink: CountingSink, resp: CompletionResponse) returns (ok: bool)
    requires sink.Valid()
    modifies sink, sink.inner
    ensures sink.Valid()
    ensures Attempted(sink.inner.accepts, old(sink.inner.trace), sink.inner.trace, BufferedDeltas(resp))
    ensures ok == AllAccepted(sink.inner.accepts, |old(sink.inner.trace)|, Emits(BufferedDeltas(resp)))
  {
    ghost var accepts, before, all := sink.inner.accepts, sink.inner.trace, BufferedDeltas(resp);
    var first := if resp.content != "" then [ContentDelta(resp.content)] else [];
    ghost var sent := first;
    ok := EmitDeltas(sink, first);
    if !ok {
      RefusedBatch(accepts, before, sink.inner.trace, first, all);
      return;
    }
    var i := 0;
    assert first + [] == first;
    while i < |resp.toolCalls|
      invariant 0 <= i <= |resp.toolCalls| && sink.Valid()
      invariant sent == first + ToolCallsPieces(resp.toolCalls, i)
      invariant Taken(accepts, before, sink.inner.trace, sent)
    {
      var pieces := ToolCallPieces(i, resp.toolCalls[i]);
      ghost var mid := sink.inner.trace;
      ok := EmitDeltas(sink, pieces);
      OneMoreBatch(accepts, before, mid, sink.inner.trace, sent, pieces);
      MorePieces(resp.toolCalls, first, i);
      sent := first + ToolCallsPieces(resp.toolCalls, i + 1);
      i := i + 1;
      SentSoFar(resp, first, sent, i);
      if !ok {
        RefusedBatch(accepts, before, sink.inner.trace, sent, all);
        return;
      }
    }
    ok := true;
  }

  lemma MorePieces(tcs: seq<ToolCall>, first: seq<Delta>, i: nat)
    requires i < |tcs|
    ensures first + ToolCallsPieces(tcs, i + 1) == first + ToolCallsPieces(tcs, i) + ToolCallPieces(i, tcs[i])
  {
  }

  lemma SentSoFar(resp: CompletionResponse, first: seq<Delta>, sent: seq<Delta>, i: nat)
    requires i <= |resp.toolCalls|
    requires first == if resp.content != "" then [ContentDelta(resp.content)] else []
    requires sent == first + ToolCallsPieces(resp.toolCalls, i)
    ensures sent <= BufferedDeltas(resp)
    ensures i == |resp.toolCalls| ==> sent == BufferedDeltas(resp)
  {
    PiecesPrefix(resp.toolCalls, i);
  }

  lemma {:induction false} PiecesPrefix(tcs: seq<ToolCall>, n: nat)
    requires n <= |tcs|
    ensures ToolCallsPieces(tcs, n) <= ToolCallsPieces(tcs, |tcs|)
    decreases |tcs| - n
  {
    if n < |tcs| {
      PiecesPrefix(tcs, n + 1);
    }
  }

  // ---------- The run as a function ----------

  /** What has happened so far: events on the client's sink, exchanges with upstreams, usage added up. */
  datatype Stage = Stage(evs: seq<Event>, log: seq<Exchange>, usage: Usage)

  datatype Ruling = Ruling(
    kind: DecisionKind, reason: string, panel: seq<PanelResult>, analysis: Option<JudgeAnalysis>, err: Option<Failure>)

  datatype Outcome = Outcome(stage: Stage, ruling: Ruling)

  function Failing(reason: string, e: Failure): Ruling {
    Ruling(DecisionFailed, reason, [], None, Some(e))
  }

  /** The decision as the deferred function stamps it. */
  function Stamp(o: Outcome): Decision {
    Decision(o.ruling.kind, o.ruling.reason, o.ruling.panel, o.ruling.analysis,
             |Offered(o.stage.evs)|, HeadOf(Offered(o.stage.evs)), o.stage.usage)
  }

  function Narrated(w: World, accepts: Schedule, at: nat, st: Stage, note: Note): Stage {
    if w.emitProgress then
      st.(evs := st.evs + [Event(Emit(ReasoningDelta(w.narrate(note))), accepts(at + |st.evs|))])
    else st
  }

  /** The buffered response as the answer. */
  function Replay(accepts: Schedule, at: nat, st: Stage, resp: CompletionResponse, done: Ruling,
                  failed: string): Outcome {
    var calls := ScriptCalls(BufferedScript(resp));
    Outcome(st.(evs := st.evs + Attempt(accepts, at + |st.evs|, calls)),
            if AllAccepted(accepts, at + |st.evs|, calls) then done else Failing(failed, SinkRefused))
  }

  function Degrade(accepts: Schedule, at: nat, st: Stage, resp: CompletionResponse, reason: string): Outcome {
    Replay(accepts, at, st, resp, Ruling(DecisionDegraded, reason, [], None, None), reason + "_emit_failed")
  }

  function FinalRequest(w: World, model: Model, base: CompletionRequest, analysis: JudgeAnalysis): CompletionRequest {
    WithEndpoint(base, model.primary)
      .(messages := HandoffMessages(base.messages, w.marshal(analysis)), tools := [], toolChoice := "")
  }

  /** Settles the decision by what the final call did to the client: `handed` is the content it put out. */
  function AfterStream(w: World, accepts: Schedule, at: nat, st: Stage, err: Option<Failure>, handed: string,
                       spec: CompletionResponse, panel: seq<PanelResult>, analysis: JudgeAnalysis): Outcome
  {
    if err.None? then Outcome(st, Ruling(DecisionFusion, "", panel, Some(analysis), None))
    else if handed == "" then
      Degrade(accepts, at, Narrated(w, accepts, at, st, NotFusedFinalFailed), spec, "primary_final_failed")
    else Outcome(st, Ruling(DecisionFailed, "primary_final_failed_midstream", panel, Some(analysis), err))
  }

  /** The stage after the final call. */
  function Streaming(accepts: Schedule, at: nat, st: Stage, provider: Provider, req: CompletionRequest,
                     script: Script): Stage {
    var usage := StreamResult(script, accepts, at + |st.evs|).0;
    Stage(st.evs + Attempt(accepts, at + |st.evs|, ScriptCalls(script)),
          st.log + [Streamed(provider, req, usage)], st.usage.Add(usage))
  }

  function FinalStage(w: World, accepts: Schedule, at: nat, st: Stage, provider: Provider, req: CompletionRequest,
                      spec: CompletionResponse, panel: seq<PanelResult>, analysis: JudgeAnalysis): Outcome
  {
    var script, from := w.stream(provider, req), at + |st.evs|;
    AfterStream(w, accepts, at, Streaming(accepts, at, st, provider, req, script),
                StreamResult(script, accepts, from).1,
                Offered(Attempt(accepts, from, ScriptCalls(script))), spec, panel, analysis)
  }

  function SpeculativePanelist(ep: Endpoint, resp: CompletionResponse): MemberResult {
    MemberResult(Endpoint(ep.provider, ep.model + " (speculative)", None, None, ""), Some(resp), None, 1)
  }

  function ErrorOf(r: MemberResult): PanelError {
    if r.err.Some? then CallFailed(r.err.value)
    else if r.response.None? then NoResponseReturned
    else if r.response.value.content == "" then
      EmptyContent(r.response.value.finishReason, r.response.value.usage.promptTokens,
                   r.response.value.usage.completionTokens)
    else NoError
  }

  function SnapshotOf(r: MemberResult): PanelResult {
    PanelResult(r.endpoint.provider, r.endpoint.model, r.OK(), r.attempts, ErrorOf(r),
                if r.response.Some? then r.response.value.usage else NO_USAGE)
  }

  /** What the decision shows of a member: where it was asked and how often, what it used, whether it
      answered with some text, and if not, why. */
  predicate SnapshotTells(s: PanelResult, r: MemberResult) {
    && s.provider == r.endpoint.provider && s.model == r.endpoint.model && s.attempts == r.attempts
    && (s.ok <==> AnsweredWell(r)) && (s.ok ==> s.error == NoError)
    && s.usage == (if r.response.Some? then r.response.value.usage else NO_USAGE)
    && (r.err.Some? ==> s.error == CallFailed(r.err.value))
    && (r.err.None? && r.response.None? ==> s.error == NoResponseReturned)
    && (r.err.None? && r.response.Some? && |r.response.value.content| == 0 ==>
          s.error == EmptyContent(r.response.value.finishReason, r.response.value.usage.promptTokens,
                                  r.response.value.usage.completionTokens))
  }

  lemma SnapshotsTell(rs: seq<MemberResult>)
    ensures forall i :: 0 <= i < |rs| ==> SnapshotTells(SnapshotsOf(rs)[i], rs[i])
  {
  }

  function SnapshotsOf(rs: seq<MemberResult>): seq<PanelResult> {
    seq(|rs|, i requires 0 <= i < |rs| => SnapshotOf(rs[i]))
  }

  function MemberUsage(r: MemberResult): Usage {
    if r.response.Some? then r.response.value.usage else NO_USAGE
  }

  function PanelJob(w: World, model: Model, base: CompletionRequest): Job {
    Job(w.registry, model.panel, base, w.complete)
  }

  /** The panel as the decision shows it. */
  function PanelShown(w: World, model: Model, base: CompletionRequest): seq<PanelResult> {
    SnapshotsOf(PanelJob(w, model, base).Results())
  }

  /** The panel's answers worth comparing. */
  function PanelUsable(w: World, model: Model, base: CompletionRequest): seq<MemberResult> {
    Usable(PanelJob(w, model, base).Results())
  }

  /** Too few usable answers, and the speculative one is empty. */
  predicate NothingToCompare(w: World, model: Model, base: CompletionRequest, spec: CompletionResponse) {
    |PanelUsable(w, model, base)| < model.panelMinSuccess && spec.content == ""
  }

  /** The answers the judge compares: a sparse panel is topped up with the speculative answer. */
  function Compared(w: World, model: Model, base: CompletionRequest, spec: CompletionResponse): seq<MemberResult> {
    var usable := PanelUsable(w, model, base);
    if |usable| >= model.panelMinSuccess then usable else usable + [SpeculativePanelist(model.primary, spec)]
  }

  function Judgement(w: World, model: Model, base: CompletionRequest, successes: seq<MemberResult>): JudgeOutcome {
    JudgeResult(w.registry, w.complete, w.unmarshal, model.judge, base.messages, successes)
  }

  /** A stage with the panel's exchanges and their usage added. */
  function WithPanel(w: World, model: Model, base: CompletionRequest, st: Stage): Stage {
    var job := PanelJob(w, model, base);
    st.(log := st.log + job.AllCalls(), usage := st.usage.Add(SumOf(MemberUsage, job.Results())))
  }

  /** A stage with the judge's exchanges and their usage added. */
  function WithJudge(w: World, model: Model, base: CompletionRequest, successes: seq<MemberResult>, st: Stage): Stage {
    var judged := Judgement(w, model, base, successes);
    st.(log := st.log + judged.calls, usage := st.usage.Add(judged.usage))
  }

  /** After the panel has answered. */
  function PanelAsked(w: World, accepts: Schedule, at: nat, st: Stage, model: Model, base: CompletionRequest): Stage {
    WithPanel(w, model, base, Narrated(w, accepts, at, st, Querying(|model.panel|)))
  }

  /** Before the judge is asked. */
  function Gathered(w: World, accepts: Schedule, at: nat, st: Stage, model: Model, base: CompletionRequest): Stage {
    var asked := PanelAsked(w, accepts, at, st, model, base);
    if |PanelUsable(w, model, base)| >= model.panelMinSuccess then asked
    else Narrated(w, accepts, at, asked, PanelSparse)
  }

  /** After the judge has answered. */
  function JudgeAsked(w: World, accepts: Schedule, at: nat, st: Stage, model: Model, base: CompletionRequest,
                      successes: seq<MemberResult>): Stage
  {
    WithJudge(w, model, base, successes, Narrated(w, accepts, at, st, Judging(|successes|)))
  }

  /** The final call with a judge's analysis. */
  function FinalTurn(w: World, accepts: Schedule, at: nat, st: Stage, model: Model, base: CompletionRequest,
                     spec: CompletionResponse, analysis: JudgeAnalysis): Outcome
    requires model.primary.provider in w.registry
  {
    FinalStage(w, accepts, at, st, w.registry[model.primary.provider], FinalRequest(w, model, base, analysis), spec,
               PanelShown(w, model, base), analysis)
  }

  function JudgeStage(w: World, accepts: Schedule, at: nat, st: Stage, model: Model, base: CompletionRequest,
                      spec: CompletionResponse, successes: seq<MemberResult>): Outcome
    requires model.primary.provider in w.registry
  {
    var asked := JudgeAsked(w, accepts, at, st, model, base, successes);
    match Judgement(w, model, base, successes).analysis
    case None => Degrade(accepts, at, Narrated(w, accepts, at, asked, NotFusedJudgeFailed), spec, "judge_failed")
    case Some(analysis) =>
      FinalTurn(w, accepts, at, Narrated(w, accepts, at, asked, FusedAnswer(|successes|, |model.panel|)),
                model, base, spec, analysis)
  }

  function PanelStage(w: World, accepts: Schedule, at: nat, st: Stage, model: Model, base: CompletionRequest,
                      spec: CompletionResponse): Outcome
    requires model.primary.provider in w.registry
  {
    if NothingToCompare(w, model, base, spec) then
      Degrade(accepts, at, Narrated(w, accepts, at, PanelAsked(w, accepts, at, st, model, base), NotFusedNoPanel),
              spec, "panel_insufficient")
    else
      JudgeStage(w, accepts, at, Gathered(w, accepts, at, st, model, base), model, base, spec,
                 Compared(w, model, base, spec))
  }

  /** The speculative call of a run whose primary is registered. */
  function SpeculativeCall(w: World, model: Model, base: CompletionRequest): Exchange
    requires model.primary.provider in w.registry
  {
    Ask(w.complete, w.registry[model.primary.provider], Speculative, WithEndpoint(base, model.primary))
  }

  /** The speculative call may fail or answer; an answer of nil without an error is outside the
      Provider contract, and the source relies on that. */
  predicate Answers(w: World, model: Model, base: CompletionRequest) {
    model.primary.provider in w.registry ==> !SpeculativeCall(w, model, base).reply.Nothing?
  }

  const NOTHING_YET := Stage([], [], NO_USAGE)

  /** After the speculative call, whatever came of it. */
  function Begun(w: World, accepts: Schedule, at: nat, model: Model, base: CompletionRequest): Stage
    requires model.primary.provider in w.registry
  {
    Narrated(w, accepts, at, NOTHING_YET, Evaluating).(log := [SpeculativeCall(w, model, base)])
  }

  /** Detection: a failed call ends the run, a tool call turn is replayed, a final turn is fused. */
  function Detected(w: World, accepts: Schedule, at: nat, st: Stage, model: Model, base: CompletionRequest,
                    reply: Reply): Outcome
    requires model.primary.provider in w.registry && !reply.Nothing?
  {
    match reply
    case Failed(e) => Outcome(st, Failing("speculative_failed", e))
    case Answered(spec) =>
      var st' := st.(usage := st.usage.Add(spec.usage));
      if !IsFinalization(spec) then
        Replay(accepts, at, st', spec, Ruling(DecisionToolCall, "", [], None, None), "tool_call_emit_failed")
      else PanelStage(w, accepts, at, st', model, base, spec)
  }

  function RunOutcome(w: World, accepts: Schedule, at: nat, model: Model, base: CompletionRequest): Outcome
    requires Answers(w, model, base)
  {
    if model.primary.provider !in w.registry then
      Outcome(NOTHING_YET, Failing("primary_provider_missing", NotRegistered(model.primary.provider)))
    else
      var call := SpeculativeCall(w, model, base);
      Detected(w, accepts, at, Begun(w, accepts, at, model, base), model, base, call.reply)
  }

  // ---------- The run as the source performs it ----------

  /** The trace, the log and the usage are where the stage says. */
  ghost predicate At(sink: CountingSink, usage: Usage, log: seq<Exchange>, before: seq<Event>, st: Stage)
    reads sink, sink.inner
  {
    && sink.Valid() && sink.start == |before| && sink.inner.trace == before + st.evs
    && usage == st.usage && multiset(log) == multiset(st.log)
  }

  class Pipeline {
    const w: World

    constructor (w: World)
      ensures this.w == w
    {
      this.w := w;
    }

    /** Errors of progress deltas are ignored. */
    method Progress(sink: CountingSink, note: Note, ghost before: seq<Event>, ghost st: Stage)
      requires sink.Valid() && sink.start == |before| && sink.inner.trace == before + st.evs
      modifies sink, sink.inner
      ensures sink.Valid()
      ensures sink.inner.trace == before + Narrated(w, sink.inner.accepts, |before|, st, note).evs
    {
      if w.emitProgress {
        var _ := sink.Delta(ReasoningDelta(w.narrate(note)));
      }
    }

    method DegradeWithSpeculative(sink: CountingSink, resp: CompletionResponse, reason: string,
                                  ghost before: seq<Event>, ghost st: Stage) returns (r: Ruling)
      requires sink.Valid() && sink.start == |before| && sink.inner.trace == before + st.evs
      modifies sink, sink.inner
      ensures sink.Valid()
      ensures var o := Degrade(sink.inner.accepts, |before|, st, resp, reason);
              sink.inner.trace == before + o.stage.evs && r == o.ruling
    {
      var ok := EmitBuffered(sink, resp);
      return if ok then Ruling(DecisionDegraded, reason, [], None, None)
             else Failing(reason + "_emit_failed", SinkRefused);
    }

    /** Runs the final call's stream through a gate that notices content. */
    method StreamPrimary(sink: CountingSink, script: Script)
      returns (usage: Usage, err: Option<Failure>, sawContent: bool)
      requires sink.Valid()
      modifies sink, sink.inner
      ensures sink.Valid()
      ensures var at := |old(sink.inner.trace)|;
              var more := Attempt(sink.inner.accepts, at, ScriptCalls(script));
              && sink.inner.trace == old(sink.inner.trace) + more
              && (usage, err) == StreamResult(script, sink.inner.accepts, at)
              && (sawContent <==> Offered(more) != "")
    {
      var gate := new ContentGate(sink);
      usage, err := gate.Drive(script);
      assert sink.inner.trace[gate.start..]
          == Attempt(sink.inner.accepts, |old(sink.inner.trace)|, ScriptCalls(script));
      sawContent := gate.sawContent;
    }

    method FinalStream(sink: CountingSink, provider: Provider, req: CompletionRequest, spec: CompletionResponse,
                       panel: seq<PanelResult>, analysis: JudgeAnalysis, ghost before: seq<Event>, ghost st: Stage)
      returns (r: Ruling, streamUsage: Usage)
      requires sink.Valid() && sink.start == |before| && sink.inner.trace == before + st.evs
      modifies sink, sink.inner
      ensures sink.Valid()
      ensures var o := FinalStage(w, sink.inner.accepts, |before|, st, provider, req, spec, panel, analysis);
              && sink.inner.trace == before + o.stage.evs && r == o.ruling
              && o.stage.usage == st.usage.Add(streamUsage)
              && o.stage.log == st.log + [Streamed(provider, req, streamUsage)]
    {
      var script := w.stream(provider, req);
      var err, sawContent;
      streamUsage, err, sawContent := StreamPrimary(sink, script);
      ghost var after := Streaming(sink.inner.accepts, |before|, st, provider, req, script);
      assert sink.inner.trace == before + after.evs;
      if err.None? {
        return Ruling(DecisionFusion, "", panel, Some(analysis), None), streamUsage;
      }
      if !sawContent {
        Progress(sink, NotFusedFinalFailed, before, after);
        r := DegradeWithSpeculative(sink, spec, "primary_final_failed", before,
                                    Narrated(w, sink.inner.accepts, |before|, after, NotFusedFinalFailed));
        return r, streamUsage;
      }
      return Ruling(DecisionFailed, "primary_final_failed_midstream", panel, Some(analysis), err), streamUsage;
    }

    /** From the judge on. */
    method JudgeAndAnswer(sink: CountingSink, model: Model, base: CompletionRequest, spec: CompletionResponse,
                          panel: seq<PanelResult>, successes: seq<MemberResult>, usage: Usage, log: seq<Exchange>,
                          ghost before: seq<Event>, ghost st: Stage)
      returns (r: Ruling, usage': Usage, log': seq<Exchange>)
      requires model.primary.provider in w.registry && panel == PanelShown(w, model, base)
      requires At(sink, usage, log, before, st)
      modifies sink, sink.inner
      ensures var o := JudgeStage(w, sink.inner.accepts, |before|, st, model, base, spec, successes);
              At(sink, usage', log', before, o.stage) && r == o.ruling
    {
      ghost var accepts, at := sink.inner.accepts, |before|;
      Progress(sink, Judging(|successes|), before, st);
      var judged := RunJudge(w.registry, w.complete, w.unmarshal, model.judge, base.messages, successes);
      usage' := usage.Add(judged.usage);
      log' := log + judged.calls;
      ghost var asked := JudgeAsked(w, accepts, at, st, model, base, successes);
      if judged.analysis.None? {
        Progress(sink, NotFusedJudgeFailed, before, asked);
        r := DegradeWithSpeculative(sink, spec, "judge_failed", before,
                                    Narrated(w, accepts, at, asked, NotFusedJudgeFailed));
        return;
      }
      var note := FusedAnswer(|successes|, |model.panel|);
      Progress(sink, note, before, asked);
      var provider, req := w.registry[model.primary.provider], FinalRequest(w, model, base, judged.analysis.value);
      var streamUsage;
      r, streamUsage := FinalStream(sink, provider, req, spec, panel, judged.analysis.value, before,
                                    Narrated(w, accepts, at, asked, note));
      usage' := usage'.Add(streamUsage);
      log' := log' + [Streamed(provider, req, streamUsage)];
    }

    /** The usage of every response the panel returned. */
    method AddPanelUsage(results: seq<MemberResult>, usage: Usage) returns (total: Usage)
      ensures total == usage.Add(SumOf(MemberUsage, results))
    {
      total := usage;
      AddNothing(usage);
      for i := 0 to |results|
        invariant total == usage.Add(SumOf(MemberUsage, results[..i]))
      {
        MemberAdded(usage, results, i);
        if results[i].response.Some? {
          total := total.Add(results[i].response.value.usage);
        } else {
          AddNothing(total);
        }
      }
      assert results[..|results|] == results;
    }

    lemma MemberAdded(usage: Usage, results: seq<MemberResult>, i: nat)
      requires i < |results|
      ensures usage.Add(SumOf(MemberUsage, results[..i + 1]))
           == usage.Add(SumOf(MemberUsage, results[..i])).Add(MemberUsage(results[i]))
    {
      assert results[..i + 1] == results[..i] + [results[i]];
      SumOfAppend(MemberUsage, results[..i], [results[i]]);
      SumOfOne(MemberUsage, results[i]);
      AddAssociates(usage, SumOf(MemberUsage, results[..i]), MemberUsage(results[i]));
    }

    method PanelResultsForSnapshot(results: seq<MemberResult>) returns (out: seq<PanelResult>)
      ensures out == SnapshotsOf(results)
      ensures forall i :: 0 <= i < |results| ==> SnapshotTells(out[i], results[i])
    {
      SnapshotsTell(results);
      out := [];
      for i := 0 to |results|
        invariant out == SnapshotsOf(results)[..i]
      {
        out := out + [SnapshotOf(results[i])];
      }
    }

    /** From the panel on. */
    method FuseOrDegrade(sink: CountingSink, model: Model, base: CompletionRequest, spec: CompletionResponse,
                         usage: Usage, log: seq<Exchange>, pick: (nat, State) -> Action,
                         ghost before: seq<Event>, ghost st: Stage)
      returns (r: Ruling, usage': Usage, log': seq<Exchange>)
      requires model.primary.provider in w.registry
      requires At(sink, usage, log, before, st)
      modifies sink, sink.inner
      ensures var o := PanelStage(w, sink.inner.accepts, |before|, st, model, base, spec);
              At(sink, usage', log', before, o.stage) && r == o.ruling
    {
      ghost var accepts, at := sink.inner.accepts, |before|;
      Progress(sink, Querying(|model.panel|), before, st);
      var job := PanelJob(w, model, base);
      var results, calls := RunPanel(job, pick);
      var panel := PanelResultsForSnapshot(results);
      usage' := AddPanelUsage(results, usage);
      log' := log + calls;
      ghost var asked := PanelAsked(w, accepts, at, st, model, base);
      var summary := SummarizePanel(results);
      var successes := summary.successes;
      if |successes| < model.panelMinSuccess {
        if spec.content == "" {
          Progress(sink, NotFusedNoPanel, before, asked);
          r := DegradeWithSpeculative(sink, spec, "panel_insufficient", before,
                                      Narrated(w, accepts, at, asked, NotFusedNoPanel));
          return;
        }
        successes := successes + [SpeculativePanelist(model.primary, spec)];
        Progress(sink, PanelSparse, before, asked);
      }
      r, usage', log' := JudgeAndAnswer(sink, model, base, spec, panel, successes, usage', log', before,
                                        Gathered(w, accepts, at, st, model, base));
    }

    method DetectAndAnswer(sink: CountingSink, model: Model, base: CompletionRequest, reply: Reply, usage: Usage,
                           log: seq<Exchange>, pick: (nat, State) -> Action, ghost before: seq<Event>, ghost st: Stage)
      returns (r: Ruling, usage': Usage, log': seq<Exchange>)
      requires model.primary.provider in w.registry && !reply.Nothing?
      requires At(sink, usage, log, before, st)
      modifies sink, sink.inner
      ensures var o := Detected(w, sink.inner.accepts, |before|, st, model, base, reply);
              At(sink, usage', log', before, o.stage) && r == o.ruling
    {
      usage', log' := usage, log;
      if reply.Failed? {
        return Failing("speculative_failed", reply.failure), usage', log';
      }
      var spec := reply.response;
      usage' := usage'.Add(spec.usage);
      if !IsFinalization(spec) {
        var ok := EmitBuffered(sink, spec);
        r := if ok then Ruling(DecisionToolCall, "", [], None, None) else Failing("tool_call_emit_failed", SinkRefused);
        return;
      }
      r, usage', log' := FuseOrDegrade(sink, model, base, spec, usage', log', pick, before, st.(usage := usage'));
    }

    /** Everything but the stamping of the decision. */
    method RunStages(sink: CountingSink, model: Model, base: CompletionRequest, pick: (nat, State) -> Action,
                     ghost before: seq<Event>)
      returns (r: Ruling, usage: Usage, log: seq<Exchange>)
      requires Answers(w, model, base)
      requires At(sink, NO_USAGE, [], before, NOTHING_YET)
      modifies sink, sink.inner
      ensures var o := RunOutcome(w, sink.inner.accepts, |before|, model, base);
              At(sink, usage, log, before, o.stage) && r == o.ruling
    {
      usage, log := NO_USAGE, [];
      if model.primary.provider !in w.registry {
        return Failing("primary_provider_missing", NotRegistered(model.primary.provider)), usage, log;
      }
      Progress(sink, Evaluating, before, NOTHING_YET);
      var call := SpeculativeCall(w, model, base);
      log := [call];
      ghost var st := Narrated(w, sink.inner.accepts, |before|, NOTHING_YET, Evaluating).(log := [call]);
      r, usage, log := DetectAndAnswer(sink, model, base, call.reply, usage, log, pick, before, st);
    }

    /** Runs the pipeline against a sink that may refuse any call, under any panel schedule. The
        decision, the error, every call on the sink and every exchange with an upstream are those of
        RunOutcome; the exchanges may come in another order within the panel. */
    method Run(model: Model, base: CompletionRequest, client: ClientSink, pick: (nat, State) -> Action)
      returns (dec: Decision, err: Option<Failure>, log: seq<Exchange>)
      requires Answers(w, model, base)
      modifies client
      ensures var o := RunOutcome(w, client.accepts, |old(client.trace)|, model, base);
              && client.trace == old(client.trace) + o.stage.evs
              && dec == Stamp(o) && err == o.ruling.err
              && multiset(log) == multiset(o.stage.log)
    {
      var counted := new CountingSink(client);
      ghost var before := client.trace;
      assert before + [] == before;
      var r, usage;
      r, usage, log := RunStages(counted, model, base, pick, before);
      ghost var o := RunOutcome(w, client.accepts, |before|, model, base);
      assert client.trace[counted.start..] == o.stage.evs;
      var head := counted.Head();
      dec := Decision(r.kind, r.reason, r.panel, r.analysis, counted.bytes, head, usage);
      err := r.err;
    }
  }
}

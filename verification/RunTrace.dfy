/** All that a run does to its sink, call after call (internal/fusion/pipeline.go:94-324). */
module RunTrace {
  import opened Wrappers
  import opened Providers
  import opened Sinks
  import opened Panel
  import opened Judge
  import opened Pipeline
  import opened RunTheorems

  // ---------- Notes ----------

  /** Notes given to a client that wants them, each a line of reasoning; failures are ignored. */
  function NoteEvents(w: World, accepts: Schedule, at: nat, notes: seq<Note>): seq<Event> {
    if w.emitProgress then
      seq(|notes|, i requires 0 <= i < |notes| =>
            Event(Emit(Delta("", w.narrate(notes[i]), None)), accepts(at + i)))
    else []
  }

  /** The stage has been through these notes and nothing else. */
  predicate OnlyNotes(w: World, accepts: Schedule, at: nat, st: Stage, notes: seq<Note>) {
    st.evs == NoteEvents(w, accepts, at, notes)
  }

  lemma OneNoteMore(w: World, accepts: Schedule, at: nat, st: Stage, notes: seq<Note>, note: Note)
    requires OnlyNotes(w, accepts, at, st, notes)
    ensures OnlyNotes(w, accepts, at, Narrated(w, accepts, at, st, note), notes + [note])
  {
  }

  // ---------- The whole trace ----------

  /** The answers there are to compare, in number: those of the panel with some text, and the speculative
      one if these are too few. */
  function ComparedCount(w: World, model: Model, base: CompletionRequest): nat {
    var n := |PanelUsable(w, model, base)|;
    if n < model.panelMinSuccess then n + 1 else n
  }

  /** What the client is told on a final turn before it gets its answer. */
  function NotesOf(w: World, model: Model, base: CompletionRequest, spec: CompletionResponse, readable: bool):
      seq<Note>
  {
    var few := |PanelUsable(w, model, base)| < model.panelMinSuccess;
    [Evaluating, Querying(|model.panel|)]
    + if few && spec.content == "" then [NotFusedNoPanel]
      else
        (if few then [PanelSparse] else []) + [Judging(ComparedCount(w, model, base))]
        + [if readable then FusedAnswer(ComparedCount(w, model, base), |model.panel|) else NotFusedJudgeFailed]
  }

  /** The speculative answer behind some events. */
  function Replayed(accepts: Schedule, at: nat, evs: seq<Event>, spec: CompletionResponse): seq<Event> {
    evs + Attempt(accepts, at + |evs|, ScriptCalls(BufferedScript(spec)))
  }

  /** The final call's stream behind some events; and if it broke before any content, a note and the
      speculative answer behind it. */
  function StreamedOrReplayed(w: World, accepts: Schedule, at: nat, evs: seq<Event>, script: Script,
                              spec: CompletionResponse): seq<Event>
  {
    var more := Attempt(accepts, at + |evs|, ScriptCalls(script));
    var all := evs + more;
    if StreamResult(script, accepts, at + |evs|).1.None? || Offered(more) != "" then all
    else Replayed(accepts, at, all + NoteEvents(w, accepts, at + |all|, [NotFusedFinalFailed]), spec)
  }

  /** A final turn on the sink: the notes, and then the speculative answer or, with an analysis, the final
      call's stream. */
  ghost predicate FinalTrace(w: World, accepts: Schedule, at: nat, model: Model, base: CompletionRequest,
                             spec: CompletionResponse, evs: seq<Event>)
    requires model.primary.provider in w.registry
  {
    var analysis := Judgement(w, model, base, Compared(w, model, base, spec)).analysis;
    var noted := NoteEvents(w, accepts, at, NotesOf(w, model, base, spec, analysis.Some?));
    if NothingToCompare(w, model, base, spec) || analysis.None? then evs == Replayed(accepts, at, noted, spec)
    else
      var script := w.stream(w.registry[model.primary.provider], FinalRequest(w, model, base, analysis.value));
      evs == StreamedOrReplayed(w, accepts, at, noted, script, spec)
  }

  lemma NoteBehind(w: World, accepts: Schedule, at: nat, st: Stage, note: Note)
    ensures Narrated(w, accepts, at, st, note).evs == st.evs + NoteEvents(w, accepts, at + |st.evs|, [note])
  {
  }

  lemma AfterStreamTrace(w: World, accepts: Schedule, at: nat, evs: seq<Event>, script: Script, after: Stage,
                         spec: CompletionResponse, panel: seq<PanelResult>, analysis: JudgeAnalysis)
    requires after.evs == evs + Attempt(accepts, at + |evs|, ScriptCalls(script))
    ensures AfterStream(w, accepts, at, after, StreamResult(script, accepts, at + |evs|).1,
                        Offered(Attempt(accepts, at + |evs|, ScriptCalls(script))), spec, panel, analysis).stage.evs
         == StreamedOrReplayed(w, accepts, at, evs, script, spec)
  {
    BrokenTrace(w, accepts, at, after, spec);
  }

  /** What follows a final stream that broke before any content. */
  lemma BrokenTrace(w: World, accepts: Schedule, at: nat, after: Stage, spec: CompletionResponse)
    ensures Degrade(accepts, at, Narrated(w, accepts, at, after, NotFusedFinalFailed), spec,
                    "primary_final_failed").stage.evs
         == Replayed(accepts, at, after.evs + NoteEvents(w, accepts, at + |after.evs|, [NotFusedFinalFailed]), spec)
  {
    NoteBehind(w, accepts, at, after, NotFusedFinalFailed);
  }

  lemma FinalTurnTrace(w: World, accepts: Schedule, at: nat, st: Stage, model: Model, base: CompletionRequest,
                       spec: CompletionResponse, analysis: JudgeAnalysis)
    requires model.primary.provider in w.registry
    ensures var script := w.stream(w.registry[model.primary.provider], FinalRequest(w, model, base, analysis));
            FinalTurn(w, accepts, at, st, model, base, spec, analysis).stage.evs
            == StreamedOrReplayed(w, accepts, at, st.evs, script, spec)
  {
    var provider, req := w.registry[model.primary.provider], FinalRequest(w, model, base, analysis);
    var script := w.stream(provider, req);
    AfterStreamTrace(w, accepts, at, st.evs, script, Streaming(accepts, at, st, provider, req, script), spec,
                     PanelShown(w, model, base), analysis);
  }

  /** What follows the judge's answer on the sink, behind the notes made so far. */
  function AfterJudge(w: World, accepts: Schedule, at: nat, notes: seq<Note>, model: Model, base: CompletionRequest,
                      spec: CompletionResponse, count: nat, analysis: Option<JudgeAnalysis>): seq<Event>
    requires model.primary.provider in w.registry
  {
    if analysis.None? then
      Replayed(accepts, at, NoteEvents(w, accepts, at, notes + [NotFusedJudgeFailed]), spec)
    else
      StreamedOrReplayed(w, accepts, at, NoteEvents(w, accepts, at, notes + [FusedAnswer(count, |model.panel|)]),
                         w.stream(w.registry[model.primary.provider], FinalRequest(w, model, base, analysis.value)),
                         spec)
  }

  lemma JudgeStageTrace(w: World, accepts: Schedule, at: nat, st: Stage, model: Model, base: CompletionRequest,
                        spec: CompletionResponse, compared: seq<MemberResult>, notes: seq<Note>)
    requires model.primary.provider in w.registry && OnlyNotes(w, accepts, at, st, notes)
    ensures JudgeStage(w, accepts, at, st, model, base, spec, compared).stage.evs
         == AfterJudge(w, accepts, at, notes + [Judging(|compared|)], model, base, spec, |compared|,
                       Judgement(w, model, base, compared).analysis)
  {
    OneNoteMore(w, accepts, at, st, notes, Judging(|compared|));
    var asked := JudgeAsked(w, accepts, at, st, model, base, compared);
    match Judgement(w, model, base, compared).analysis
    case None => OneNoteMore(w, accepts, at, asked, notes + [Judging(|compared|)], NotFusedJudgeFailed);
    case Some(analysis) =>
      var note := FusedAnswer(|compared|, |model.panel|);
      OneNoteMore(w, accepts, at, asked, notes + [Judging(|compared|)], note);
      FinalTurnTrace(w, accepts, at, Narrated(w, accepts, at, asked, note), model, base, spec, analysis);
  }

  lemma BareTrace(w: World, accepts: Schedule, at: nat, asked: Stage, spec: CompletionResponse, notes: seq<Note>)
    requires OnlyNotes(w, accepts, at, asked, notes)
    ensures Degrade(accepts, at, Narrated(w, accepts, at, asked, NotFusedNoPanel), spec, "panel_insufficient").stage.evs
         == Replayed(accepts, at, NoteEvents(w, accepts, at, notes + [NotFusedNoPanel]), spec)
  {
    OneNoteMore(w, accepts, at, asked, notes, NotFusedNoPanel);
  }

  lemma PanelStageTrace(w: World, accepts: Schedule, at: nat, st: Stage, model: Model, base: CompletionRequest,
                        spec: CompletionResponse)
    requires model.primary.provider in w.registry && OnlyNotes(w, accepts, at, st, [Evaluating])
    ensures FinalTrace(w, accepts, at, model, base, spec, PanelStage(w, accepts, at, st, model, base, spec).stage.evs)
  {
    var first := [Evaluating] + [Querying(|model.panel|)];
    OneNoteMore(w, accepts, at, st, [Evaluating], Querying(|model.panel|));
    var asked := PanelAsked(w, accepts, at, st, model, base);
    var compared := Compared(w, model, base, spec);
    var readable := Judgement(w, model, base, compared).analysis.Some?;
    if NothingToCompare(w, model, base, spec) {
      BareTrace(w, accepts, at, asked, spec, first);
      assert first + [NotFusedNoPanel] == NotesOf(w, model, base, spec, readable);
    } else {
      var gathered := if |PanelUsable(w, model, base)| < model.panelMinSuccess then first + [PanelSparse] else first;
      OneNoteMore(w, accepts, at, asked, first, PanelSparse);
      JudgeStageTrace(w, accepts, at, Gathered(w, accepts, at, st, model, base), model, base, spec, compared, gathered);
      NotesAre(w, model, base, spec, readable, first, gathered);
    }
  }

  lemma NotesAre(w: World, model: Model, base: CompletionRequest, spec: CompletionResponse, readable: bool,
                 first: seq<Note>, gathered: seq<Note>)
    requires first == [Evaluating] + [Querying(|model.panel|)] && !NothingToCompare(w, model, base, spec)
    requires gathered == if |PanelUsable(w, model, base)| < model.panelMinSuccess then first + [PanelSparse] else first
    ensures var n := |Compared(w, model, base, spec)|;
            NotesOf(w, model, base, spec, readable)
            == gathered + [Judging(n)] + [if readable then FusedAnswer(n, |model.panel|) else NotFusedJudgeFailed]
  {
  }

  /** Everything a run does to its sink: nothing without a primary; otherwise the first note, and then
      nothing more if the speculative call failed, that answer itself on a turn that calls tools, and the
      trace of a final turn on any other. */
  ghost predicate Trace(w: World, accepts: Schedule, at: nat, model: Model, base: CompletionRequest,
                        evs: seq<Event>)
  {
    if model.primary.provider !in w.registry then evs == []
    else
      var reply := SpeculativeCall(w, model, base).reply;
      var noted := NoteEvents(w, accepts, at, [Evaluating]);
      if !reply.Answered? then evs == noted
      else if |reply.response.toolCalls| > 0 || reply.response.finishReason == "tool_calls" then
        evs == Replayed(accepts, at, noted, reply.response)
      else FinalTrace(w, accepts, at, model, base, reply.response, evs)
  }

  lemma TraceOfARun(w: World, accepts: Schedule, at: nat, model: Model, base: CompletionRequest)
    requires Answers(w, model, base)
    ensures Trace(w, accepts, at, model, base, RunOutcome(w, accepts, at, model, base).stage.evs)
  {
    if model.primary.provider in w.registry {
      var call := SpeculativeCall(w, model, base);
      var st := Begun(w, accepts, at, model, base);
      NoteBehind(w, accepts, at, NOTHING_YET, Evaluating);
      assert OnlyNotes(w, accepts, at, st, [Evaluating]);
      if call.reply.Answered? && IsFinalization(call.reply.response) {
        var spec := call.reply.response;
        PanelStageTrace(w, accepts, at, st.(usage := st.usage.Add(spec.usage)), model, base, spec);
      }
    }
  }

  // ---------- What a replay says ----------

  /** A response told in deltas: its text first, if it has any, then the pieces of its calls, which put
      together are its calls; and then Done, with its reason or the usual one. */
  predicate ToldInFull(resp: CompletionResponse, s: Script) {
    && s.end.Finished? && s.end.usage == resp.usage
    && s.end.reason == (if resp.finishReason == "" then "stop" else resp.finishReason)
    && (|resp.content| > 0 ==> |s.deltas| > 0 && s.deltas[0] == Delta(resp.content, "", None))
    && ContentOf(s.deltas) == resp.content
    && Regroup(ToolDeltasOf(s.deltas), map[]) == CallsByIndex(resp.toolCalls, |resp.toolCalls|)
  }

  lemma ReplayToldInFull(resp: CompletionResponse)
    ensures ToldInFull(resp, BufferedScript(resp))
  {
    BufferedContent(resp);
    CallsRegroup(resp.toolCalls, |resp.toolCalls|);
  }
}

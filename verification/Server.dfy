/** The chat handler on the live configuration, the metrics store and the status ring
    (internal/server/server.go:144-253, 311-322), and what a validated configuration buys a run. */
module Server {
  import opened Wrappers
  import opened Seqs
  import opened Providers
  import opened Sinks
  import opened Panel
  import opened Judge
  import opened Pipeline
  import opened RunUsage
  import opened Histograms
  import opened Metrics
  import StatusRing
  import Snapshots
  import opened Configuration
  import opened Accounting
  import opened RunSchedules
  import opened SseWriting
  import opened ClientStream

  // ---------- Runs of validated models ----------

  /** The judge's first call on the answers there are to compare. */
  function JudgeFirst(w: World, model: Model, base: CompletionRequest, spec: CompletionResponse): Exchange
    requires model.judge.provider in w.registry
  {
    Ask(w.complete, w.registry[model.judge.provider], JudgeCall(1),
        JudgeRequest(model.judge, base.messages, Compared(w, model, base, spec)))
  }

  /** No call of the run is missing: the speculative call opens its log; if that answered with a final
      turn, every panel member has been asked, and the judge has been asked about whatever there was to
      compare. */
  ghost predicate FullyServed(w: World, o: Outcome, model: Model, base: CompletionRequest) {
    && model.primary.provider in w.registry && model.judge.provider in w.registry
    && o.stage.log != [] && o.stage.log[0] == SpeculativeCall(w, model, base)
    && o.ruling.reason != "primary_provider_missing"
    && var reply := SpeculativeCall(w, model, base).reply;
       reply.Answered? && IsFinalization(reply.response) ==>
         && PanelAskedIn(w, model, base, o.stage.log)
         && (NothingToCompare(w, model, base, reply.response)
             || JudgeFirst(w, model, base, reply.response) in o.stage.log)
  }

  /** Every panel member is registered, and its first call is in the log. */
  ghost predicate PanelAskedIn(w: World, model: Model, base: CompletionRequest, log: seq<Exchange>) {
    var job := PanelJob(w, model, base);
    forall i :: 0 <= i < |model.panel| ==> job.Registered(i) && job.First(i) in log
  }

  /** A model of the live configuration, its endpoints resolved, is served in full; and everything it
      asks of an upstream is sound. */
  lemma ValidatedRunsAreServed(live: Live, model: Model, env: Environment, w: World, accepts: Schedule, at: nat,
                               base: CompletionRequest)
    requires ModelValid(live.settings.providers, model) && Resolved(live, model, env)
    requires w.registry == live.registry && Answers(w, model, base)
    ensures var o := RunOutcome(w, accepts, at, model, base);
            FullyServed(w, o, model, base) && AllSound(w, model, base, o.stage.log)
  {
    EndpointsRegistered(live, model, env);
    EveryExchangeIsSound(w, accepts, at, model, base);
    RunIsScheduled(w, accepts, at, model, base);
    var reply := SpeculativeCall(w, model, base).reply;
    if reply.Answered? && IsFinalization(reply.response) {
      var begun := Begun(w, accepts, at, model, base);
      FinalTurnAsks(w, accepts, at, begun.(usage := begun.usage.Add(reply.response.usage)), model, base,
                    reply.response);
    }
  }

  lemma FinalTurnAsks(w: World, accepts: Schedule, at: nat, st: Stage, model: Model, base: CompletionRequest,
                      spec: CompletionResponse)
    requires model.primary.provider in w.registry && model.judge.provider in w.registry
    requires forall i :: 0 <= i < |model.panel| ==> model.panel[i].provider in w.registry
    ensures var log := PanelStage(w, accepts, at, st, model, base, spec).stage.log;
            && PanelAskedIn(w, model, base, log)
            && (NothingToCompare(w, model, base, spec) || JudgeFirst(w, model, base, spec) in log)
  {
    var log, before := PanelStage(w, accepts, at, st, model, base, spec).stage.log, st.log;
    var panelCalls := PanelJob(w, model, base).AllCalls();
    var judgeCalls := Judgement(w, model, base, Compared(w, model, base, spec)).calls;
    PanelStageLog(w, accepts, at, st, model, base, spec);
    PanelAsksAll(w, model, base);
    InMiddle(before, panelCalls, log);
    if !NothingToCompare(w, model, base, spec) {
      JudgeIsAsked(w, model, base, spec);
      InMiddle(before + panelCalls, judgeCalls, log);
    }
  }

  lemma InMiddle(before: seq<Exchange>, part: seq<Exchange>, log: seq<Exchange>)
    requires before + part <= log
    ensures forall e :: e in part ==> e in log
  {
    forall e | e in part ensures e in log {
      assert e in before + part;
    }
  }

  lemma PanelAsksAll(w: World, model: Model, base: CompletionRequest)
    requires forall i :: 0 <= i < |model.panel| ==> model.panel[i].provider in w.registry
    ensures PanelAskedIn(w, model, base, PanelJob(w, model, base).AllCalls())
  {
    var job := PanelJob(w, model, base);
    forall i | 0 <= i < |model.panel| ensures job.Registered(i) && job.First(i) in job.AllCalls() {
      assert job.CallLists()[i][0] == job.First(i);
      ConcatHas(job.CallLists(), i, job.First(i));
    }
  }

  lemma JudgeIsAsked(w: World, model: Model, base: CompletionRequest, spec: CompletionResponse)
    requires model.judge.provider in w.registry
    ensures JudgeFirst(w, model, base, spec) in Judgement(w, model, base, Compared(w, model, base, spec)).calls
  {
    JudgeAsksTwiceAtMost(w.registry, w.complete, w.unmarshal, model.judge, base.messages,
                         Compared(w, model, base, spec));
  }

  lemma EndpointsRegistered(live: Live, model: Model, env: Environment)
    requires Resolved(live, model, env)
    ensures model.primary.provider in live.registry && model.judge.provider in live.registry
    ensures forall i :: 0 <= i < |model.panel| ==> model.panel[i].provider in live.registry
  {
    var all := EndpointsOf(model);
    assert all[0] == model.primary && all[1] == model.judge;
    forall i | 0 <= i < |model.panel| ensures model.panel[i].provider in live.registry {
      assert all[i + 2] == model.panel[i];
    }
  }

  // ---------- The handler ----------

  /** The body of a chat request. */
  datatype ChatRequest = ChatRequest(
    model: string, messages: seq<Message>, tools: seq<Tool>, toolChoice: string, stream: bool,
    temperature: Option<real>, maxTokens: Option<int>, topP: Option<real>, stop: seq<string>,
    responseFormat: Option<string>)

  function Translate(req: ChatRequest): CompletionRequest {
    CompletionRequest("", req.messages, req.tools, req.toolChoice, req.temperature, req.maxTokens, req.topP,
                      req.stop, req.responseFormat, false)
  }

  /** What the primary is asked first: the client's conversation and tools, by the primary's model, with
      the endpoint's own settings before the client's. */
  predicate PutToPrimary(call: Exchange, registry: Registry, primary: Endpoint, req: ChatRequest) {
    && call.Completed? && call.phase.Speculative?
    && primary.provider in registry && call.provider == registry[primary.provider]
    && call.request.model == primary.model
    && call.request.messages == req.messages && call.request.tools == req.tools
    && call.request.toolChoice == req.toolChoice
    && call.request.temperature == (if primary.temperature.Some? then primary.temperature else req.temperature)
    && call.request.maxTokens == (if primary.maxTokens.Some? then primary.maxTokens else req.maxTokens)
    && call.request.topP == req.topP && call.request.stop == req.stop
    && call.request.responseFormat == req.responseFormat
    && (call.request.cachePrefix <==> primary.cache == "ephemeral")
  }

  /** A request that is run begins with just that call, on the registry that is live. */
  lemma RunsBeginWithTheClient(live: Live, req: ChatRequest, outside: World, accepts: Schedule, at: nat)
    requires req.model in live.settings.models
    requires live.settings.models[req.model].primary.provider in live.registry
    requires Answers(On(live, outside), live.settings.models[req.model], Translate(req))
    ensures var model := live.settings.models[req.model];
            var o := RunOutcome(On(live, outside), accepts, at, model, Translate(req));
            o.stage.log != [] && PutToPrimary(o.stage.log[0], live.registry, model.primary, req)
  {
    EveryExchangeIsSound(On(live, outside), accepts, at, live.settings.models[req.model], Translate(req));
  }

  datatype Status = BadRequest | UnknownModel | NoStream | Answering

  /** What the handler says to a request before anything runs. */
  function StatusOf(live: Live, body: Option<ChatRequest>, streamable: bool): (status: Status)
    ensures status.UnknownModel? <==> body.Some? && body.value.model !in live.settings.models
    ensures status.BadRequest? <==> body.None? || (body.value.model in live.settings.models && !body.value.stream)
    ensures status.NoStream? <==>
            body.Some? && body.value.model in live.settings.models && body.value.stream && !streamable
  {
    if body.None? then BadRequest
    else if body.value.model !in live.settings.models then UnknownModel
    else if !body.value.stream then BadRequest
    else if !streamable then NoStream
    else Answering
  }

  /** The world as a configuration shapes it. */
  function On(live: Live, outside: World): World {
    outside.(registry := live.registry, emitProgress := live.settings.reasoningBlocksEnabled)
  }

  /** A response that can be streamed to: how chunks are encoded, which writes succeed, the time at each
      of them, and how an error is worded. */
  datatype Response = Response(codec: Codec, accepts: Schedule, clock: nat -> int, describe: Failure -> string)

  class Server {
    const state: LiveState
    const metrics: Store
    const ring: StatusRing.Ring<Record>
    const snapshots: Snapshots.SnapshotWriter

    constructor (state: LiveState, metrics: Store, ring: StatusRing.Ring<Record>, snapshots: Snapshots.SnapshotWriter)
      ensures this.state == state && this.metrics == metrics && this.ring == ring && this.snapshots == snapshots
    {
      this.state, this.metrics, this.ring, this.snapshots := state, metrics, ring, snapshots;
    }

    ghost predicate Valid()
      reads metrics, ring, ring.items, snapshots
    {
      metrics.Valid() && ring.Valid() && snapshots.Valid()
    }

    /** The names one recorded snapshot adds to those written. */
    function Saved(name: string): set<string> { if snapshots.retention > 0 then {name} else {} }

    /** The shared books as a handler at this phase sees them. */
    ghost predicate At(b: Books)
      reads metrics, ring, ring.items, snapshots
    {
      Valid() && metrics.counters == b.counters && ring.history == b.pushed
    }

    /** The samples after a run has been timed, which only one that returned no error is. */
    function Timed(history: map<string, seq<real>>, model: string, dec: Decision, err: Option<Failure>, latency: real):
        map<string, seq<real>>
    {
      if err.Some? then history
      else
        var key := SeriesKey(metrics.quote, "fuse_total_latency", ["model", model, "decision", KindText(dec.kind)]);
        history[key := (if key in history then history[key] else []) + [latency]]
    }

    method Count(inc: Increment, ghost b: Books)
      requires At(b)
      modifies metrics
      ensures metrics.history == old(metrics.history)
      ensures At(b.(counters := Incremented(metrics.quote, b.counters, inc)))
    {
      metrics.Add(NameOf(inc.metric), inc.n, inc.labels);
    }

    method RecordUsageMetrics(id: nat, model: string, dec: Decision, ghost b: Books) returns (ghost b': Books)
      requires At(b) && b.phase == Pushed(model, dec, 0)
      modifies metrics
      ensures At(b') && b'.phase == Pushed(model, dec, 4) && metrics.history == old(metrics.history)
      ensures Conclude(metrics.quote, id, b') == Conclude(metrics.quote, id, b)
    {
      b' := b;
      for k := 0 to 4
        invariant At(b') && b'.phase == Pushed(model, dec, k) && metrics.history == old(metrics.history)
        invariant Conclude(metrics.quote, id, b') == Conclude(metrics.quote, id, b)
      {
        ghost var next := Took(metrics.quote, b', MoveOf(id, b'.phase, Proceed).value);
        if TokensOf(dec.usage, k) > 0 {
          Count(Increment(TokenMetric(k), TokensOf(dec.usage, k), ["model", model, "decision", KindText(dec.kind)]),
                b');
        }
        b' := next;
      }
    }

    /** A decision goes to the ring and to a file of its own. */
    method RecordSnapshot(r: Record, name: string)
      requires Valid()
      modifies ring, ring.items, snapshots
      ensures Valid() && ring.history == old(ring.history) + [r]
      ensures snapshots.written == old(snapshots.written) + Saved(name)
    {
      ring.Push(r);
      snapshots.Write(name);
    }

    /** What happens once the run has returned. */
    method Settle(id: nat, model: string, dec: Decision, err: Option<Failure>, latency: real, name: string,
                  ghost b: Books)
      requires At(b) && b.phase == Returned(model, dec, err)
      modifies metrics, ring, ring.items, snapshots
      ensures metrics.history == Timed(old(metrics.history), model, dec, err, latency)
      ensures At(Conclude(metrics.quote, id, b)) && snapshots.written == old(snapshots.written) + Saved(name)
    {
      ghost var next := Took(metrics.quote, b, MoveOf(id, b.phase, Proceed).value);
      if err.Some? {
        SettleFailure(id, model, OrPipelineError(dec.fallbackReason), name, next, b);
      } else {
        SettleDecision(id, model, dec, latency, name, next, b);
      }
    }

    /** The failure is counted, then recorded. */
    method SettleFailure(id: nat, model: string, reason: string, name: string, ghost counted: Books, ghost b: Books)
      requires At(b) && counted.phase == FailureCounted(model, reason) && counted.pushed == b.pushed
      requires counted.counters == Incremented(metrics.quote, b.counters, Increment(Failures, 1, ["reason", reason]))
      modifies metrics, ring, ring.items, snapshots
      ensures metrics.history == old(metrics.history)
      ensures At(Conclude(metrics.quote, id, counted)) && snapshots.written == old(snapshots.written) + Saved(name)
    {
      Count(Increment(Failures, 1, ["reason", reason]), b);
      RecordSnapshot(FailureRecord(id, model, reason), name);
      ghost var done := Took(metrics.quote, counted, MoveOf(id, counted.phase, Proceed).value);
      assert At(done) && Conclude(metrics.quote, id, counted) == Conclude(metrics.quote, id, done) == done;
    }

    /** The decision is recorded, then counted. */
    method SettleDecision(id: nat, model: string, dec: Decision, latency: real, name: string,
                          ghost pushed: Books, ghost b: Books)
      requires At(b) && pushed == Books(Pushed(model, dec, 0), b.counters, b.pushed + [DecisionRecord(id, model, dec)])
      modifies metrics, ring, ring.items, snapshots
      ensures metrics.history == Timed(old(metrics.history), model, dec, None, latency)
      ensures At(Conclude(metrics.quote, id, pushed)) && snapshots.written == old(snapshots.written) + Saved(name)
    {
      RecordSnapshot(DecisionRecord(id, model, dec), name);
      metrics.Observe("fuse_total_latency", latency, ["model", model, "decision", KindText(dec.kind)]);
      ghost var added := RecordUsageMetrics(id, model, dec, pushed);
      Count(KindIncrement(model, dec), added);
      LastStep(id, model, dec, added);
    }

    lemma LastStep(id: nat, model: string, dec: Decision, b: Books)
      requires b.phase == Pushed(model, dec, 4)
      ensures Conclude(metrics.quote, id, b)
           == Books(CountedOut(model, dec), Incremented(metrics.quote, b.counters, KindIncrement(model, dec)), b.pushed)
    {
      var done := Took(metrics.quote, b, MoveOf(id, b.phase, Proceed).value);
      assert Conclude(metrics.quote, id, b) == Conclude(metrics.quote, id, done) == done;
    }

    /** One request from its arrival to its end. A refused request leaves no trace; one whose stream
        cannot be opened is only counted; any other is run on one configuration and its registry,
        puts that run's whole stream on the wire, leaves the books as its handler's own steps leave them,
        and one snapshot under its own name. */
    method HandleChatCompletions(id: nat, body: Option<ChatRequest>, response: Option<Response>, outside: World,
                                 pick: (nat, Panel.State) -> Panel.Action, latency: real, start: Snapshots.Stamp,
                                 requestID: string)
      returns (status: Status, stream: Option<SSEWriter>, ghost o: Outcome)
      requires Valid()
      requires body.Some? && body.value.model in state.live.settings.models ==>
                 Answers(On(state.live, outside), state.live.settings.models[body.value.model], Translate(body.value))
      modifies metrics, ring, ring.items, snapshots
      ensures Valid() && status == StatusOf(state.live, body, response.Some?)
      ensures stream.Some? <==> status.Answering?
      ensures status.BadRequest? || status.UnknownModel? ==>
                metrics.counters == old(metrics.counters) && ring.history == old(ring.history)
                && snapshots.written == old(snapshots.written)
      ensures status.NoStream? || status.Answering? ==>
                && (stream.Some? ==> fresh(stream.value) && stream.value.id == requestID)
                && Admits(id, state.live, body.value, outside, response, stream, o, old(metrics.counters),
                          old(ring.history), old(snapshots.written), Snapshots.FileName(start, requestID))
      ensures metrics.history == if stream.None? then old(metrics.history)
                                 else Timed(old(metrics.history), body.value.model, Stamp(o), o.ruling.err, latency)
    {
      o := *;
      var live := state.live;
      if body.None? {
        return BadRequest, None, o;
      }
      var req := body.value;
      if req.model !in live.settings.models {
        return UnknownModel, None, o;
      }
      if !req.stream {
        return BadRequest, None, o;
      }
      stream, o := Admit(id, req, live, outside, response, pick, latency, requestID,
                         Snapshots.FileName(start, requestID));
      status := if response.Some? then Answering else NoStream;
    }

    /** The request is counted, and answered if its stream can be opened. */
    method Admit(id: nat, req: ChatRequest, live: Live, outside: World, response: Option<Response>,
                 pick: (nat, Panel.State) -> Panel.Action, latency: real, requestID: string, file: string)
      returns (stream: Option<SSEWriter>, ghost o: Outcome)
      requires Valid() && req.model in live.settings.models
      requires Answers(On(live, outside), live.settings.models[req.model], Translate(req))
      modifies metrics, ring, ring.items, snapshots
      ensures Valid() && (stream.Some? ==> fresh(stream.value) && stream.value.id == requestID)
      ensures Admits(id, live, req, outside, response, stream, o, old(metrics.counters), old(ring.history),
                     old(snapshots.written), file)
      ensures metrics.history == if stream.None? then old(metrics.history)
                                 else Timed(old(metrics.history), req.model, Stamp(o), o.ruling.err, latency)
    {
      ghost var counters, pushed := metrics.counters, ring.history;
      metrics.Add(NameOf(Requests), 1, ["model", req.model]);
      if response.None? {
        o := *;
        return None, o;
      }
      var sse;
      sse, o := RunAndSettle(id, req, live, outside, response.value, pick, latency, requestID, file,
                             Admitted(counters, req.model), pushed);
      return Some(sse), o;
    }

    ghost predicate Admits(id: nat, live: Live, req: ChatRequest, outside: World, response: Option<Response>,
                           stream: Option<SSEWriter>, o: Outcome, counters: Counters, pushed: seq<Record>,
                           written: set<string>, file: string)
      requires req.model in live.settings.models
      reads metrics, ring, ring.items, snapshots, if stream.Some? then {stream.value} else {}
    {
      match (response, stream)
      case (None, None) =>
        metrics.counters == Admitted(counters, req.model) && ring.history == pushed && snapshots.written == written
      case (Some(r), Some(sse)) =>
        && Served(id, live, req, outside, r, sse, o, Admitted(counters, req.model), pushed)
        && snapshots.written == written + Saved(file)
      case _ => false
    }

    method RunAndSettle(id: nat, req: ChatRequest, live: Live, outside: World, response: Response,
                        pick: (nat, Panel.State) -> Panel.Action, latency: real, requestID: string, file: string,
                        ghost counters: Counters, ghost pushed: seq<Record>)
      returns (sse: SSEWriter, ghost o: Outcome)
      requires Valid() && metrics.counters == counters && ring.history == pushed
      requires req.model in live.settings.models
      requires Answers(On(live, outside), live.settings.models[req.model], Translate(req))
      modifies metrics, ring, ring.items, snapshots
      ensures fresh(sse) && sse.id == requestID && snapshots.written == old(snapshots.written) + Saved(file)
      ensures Served(id, live, req, outside, response, sse, o, counters, pushed)
      ensures metrics.history == Timed(old(metrics.history), req.model, Stamp(o), o.ruling.err, latency)
    {
      sse := new SSEWriter(response.codec, requestID, req.model, response.accepts, response.clock);
      var w := On(live, outside);
      var sink := new SseSink(sse, w.emitProgress);
      var dec, err;
      dec, err, o := ServeRun(w, live.settings.models[req.model], Translate(req), sink, pick, response.describe);
      Settle(id, req.model, dec, err, latency, file, Books(Returned(req.model, dec, err), counters, pushed));
    }

    /** The response carries the stream of the request's run, and the books are where the steps of its
        handler lead from the ones it found. */
    ghost predicate Served(id: nat, live: Live, req: ChatRequest, outside: World, response: Response, sse: SSEWriter,
                           o: Outcome, counters: Counters, pushed: seq<Record>)
      requires req.model in live.settings.models
      reads metrics, ring, ring.items, snapshots, sse
    {
      && IsRunOn(o, On(live, outside), live.settings.models[req.model], Translate(req), response.accepts)
      && sse.codec == response.codec && sse.accepts == response.accepts && sse.model == req.model
      && StreamedOut(sse, live.settings.reasoningBlocksEnabled, o, response.describe)
      && At(Conclude(metrics.quote, id, Books(Returned(req.model, Stamp(o), o.ruling.err), counters, pushed)))
    }

    function Admitted(counters: Counters, model: string): Counters {
      Incremented(metrics.quote, counters, Increment(Requests, 1, ["model", model]))
    }
  }
}

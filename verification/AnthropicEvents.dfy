/** What any Anthropic stream tells, event by event and without its handler
    (internal/providers/anthropic.go:460-559). */
module AnthropicEvents {
  import opened Wrappers
  import opened Seqs
  import opened Providers
  import opened Transport
  import opened Streams
  import opened Anthropic

  // ---------- Where it is read no further ----------

  predicate Stops(ev: SseEvent) { ev.event == "message_stop" }

  /** A block event that does not decode. */
  predicate Garbles(codec: Codec, ev: SseEvent) {
    || (ev.event == "content_block_start" && codec.blockStart(ev.data).None?)
    || (ev.event == "content_block_delta" && codec.blockDelta(ev.data).None?)
  }

  predicate GoesOn(codec: Codec, ev: SseEvent) { !Stops(ev) && !Garbles(codec, ev) }

  // ---------- What is shown ----------

  /** What one event shows: a tool's block opening, some text, some arguments, or nothing. */
  predicate EventShown(codec: Codec, ev: SseEvent, ds: seq<Delta>) {
    match ev.event
    case "content_block_start" =>
      var o := codec.blockStart(ev.data);
      o.Some? ==> HeadShown(o.value.0, o.value.1, ds)
    case "content_block_delta" =>
      var a := codec.blockDelta(ev.data);
      a.Some? ==> PieceShown(a.value.0, a.value.1, ds)
    case _ => ds == []
  }

  predicate HeadShown(index: int, head: BlockHead, ds: seq<Delta>) {
    ds == if head.kind == "tool_use" then [Delta("", "", Some(ToolCallDelta(index, head.id, head.name, "")))] else []
  }

  predicate PieceShown(index: int, p: BlockPiece, ds: seq<Delta>) {
    ds == if p.kind == "text_delta" && |p.text| > 0 then [Delta(p.text, "", None)]
          else if p.kind == "input_json_delta" && |p.partialJSON| > 0 then
            [Delta("", "", Some(ToolCallDelta(index, "", "", p.partialJSON)))]
          else []
  }

  // ---------- What is captured ----------

  /** The stop reason an event names. */
  function StopReasonIn(codec: Codec): SseEvent -> Option<string> {
    (ev: SseEvent) =>
      if ev.event != "message_delta" then None
      else
        match codec.messageDelta(ev.data)
        case Some(t) => if |t.stopReason| > 0 then Some(t.stopReason) else None
        case None => None
  }

  /** The output tokens an event counts. */
  function OutputIn(codec: Codec): SseEvent -> Option<int> {
    (ev: SseEvent) =>
      if ev.event != "message_delta" then None
      else
        match codec.messageDelta(ev.data)
        case Some(t) => if t.outputTokens > 0 then Some(t.outputTokens) else None
        case None => None
  }

  /** The counts an event opens a message with: fresh input, cache writes and cache reads. */
  function OpeningIn(codec: Codec): SseEvent -> Option<(int, int, int)> {
    (ev: SseEvent) =>
      if ev.event != "message_start" then None
      else
        match codec.messageStart(ev.data)
        case Some(u) => Some((u.inputTokens, u.cacheCreationInputTokens, u.cacheReadInputTokens))
        case None => None
  }

  /** The last thing said, or what held before. */
  ghost predicate LastSaid<T>(says: SseEvent -> Option<T>, heard: seq<SseEvent>, before: T, x: T) {
    || (exists k :: 0 <= k < |heard| && says(heard[k]) == Some(x) && SilentBehind(says, heard, k + 1))
    || (x == before && SilentBehind(says, heard, 0))
  }

  predicate SilentBehind<T>(says: SseEvent -> Option<T>, heard: seq<SseEvent>, n: nat) {
    forall j :: n <= j < |heard| ==> says(heard[j]).None?
  }

  lemma OneSaid<T>(says: SseEvent -> Option<T>, ev: SseEvent, heard: seq<SseEvent>, before: T, now: T, x: T)
    requires LastSaid(says, heard, now, x)
    requires now == match says(ev) case Some(y) => y case None => before
    ensures LastSaid(says, [ev] + heard, before, x)
  {
    var all := [ev] + heard;
    assert forall j :: 0 < j < |all| ==> all[j] == heard[j - 1];
    if k :| 0 <= k < |heard| && says(heard[k]) == Some(x) && SilentBehind(says, heard, k + 1) {
      assert says(all[k + 1]) == Some(x) && SilentBehind(says, all, k + 2);
    } else {
      assert SilentBehind(says, all, 1);
      assert says(ev).Some? ==> says(all[0]) == Some(x);
    }
  }

  /** What is known by the end of some events, if this was known before. */
  ghost predicate Known(codec: Codec, heard: seq<SseEvent>, before: Captured, c: Captured) {
    && LastSaid(StopReasonIn(codec), heard, before.stopReason, c.stopReason)
    && LastSaid(OutputIn(codec), heard, before.usage.outputTokens, c.usage.outputTokens)
    && LastSaid(OpeningIn(codec), heard, Opening(before.usage), Opening(c.usage))
  }

  function Opening(u: AnthropicUsage): (int, int, int) {
    (u.inputTokens, u.cacheCreationInputTokens, u.cacheReadInputTokens)
  }

  /** What the handler does with an event that lets the stream go on. */
  predicate Handled(codec: Codec, ev: SseEvent, c: Captured, ds: seq<Delta>, now: Captured) {
    && EventShown(codec, ev, ds)
    && now.stopReason == (match StopReasonIn(codec)(ev) case Some(r) => r case None => c.stopReason)
    && now.usage.outputTokens == (match OutputIn(codec)(ev) case Some(n) => n case None => c.usage.outputTokens)
    && Opening(now.usage) == (match OpeningIn(codec)(ev) case Some(o) => o case None => Opening(c.usage))
  }

  lemma EventHandled(codec: Codec, c: Captured, ev: SseEvent) returns (ds: seq<Delta>, now: Captured)
    requires GoesOn(codec, ev)
    ensures Handler(codec)(c, ev) == Reaction(ds, Go(now)) && Handled(codec, ev, c, ds, now)
  {
    var r := HandleEvent(codec, c, ev);
    ds, now := r.deltas, r.next.captured;
  }

  lemma EventStops(codec: Codec, c: Captured, ev: SseEvent)
    requires !GoesOn(codec, ev)
    ensures Handler(codec)(c, ev) == Reaction([], if Stops(ev) then StreamDone else Fail(BadPayload))
  {
  }

  lemma KnownOn(codec: Codec, ev: SseEvent, heard: seq<SseEvent>, before: Captured, ds: seq<Delta>, now: Captured,
                c: Captured)
    requires Handled(codec, ev, before, ds, now) && Known(codec, heard, now, c)
    ensures Known(codec, [ev] + heard, before, c)
  {
    OneSaid(StopReasonIn(codec), ev, heard, before.stopReason, now.stopReason, c.stopReason);
    OneSaid(OutputIn(codec), ev, heard, before.usage.outputTokens, now.usage.outputTokens, c.usage.outputTokens);
    OneSaid(OpeningIn(codec), ev, heard, Opening(before.usage), Opening(now.usage), Opening(c.usage));
  }

  // ---------- The whole stream ----------

  /** The events that are heard, and the one behind them that ends the stream, if there is one. */
  predicate HeardOf(codec: Codec, events: seq<SseEvent>, heard: seq<SseEvent>) {
    && heard <= events && (forall k :: 0 <= k < |heard| ==> GoesOn(codec, heard[k]))
    && (|heard| < |events| ==> !GoesOn(codec, events[|heard|]))
  }

  /** Some events shown one after the other. */
  predicate AllShown(codec: Codec, heard: seq<SseEvent>, pieces: seq<seq<Delta>>) {
    |pieces| == |heard| && forall k :: 0 <= k < |heard| ==> EventShown(codec, heard[k], pieces[k])
  }

  /** How a stream ends. */
  predicate EndTold(events: seq<SseEvent>, heard: seq<SseEvent>, ending: Option<Failure>, c: Captured, end: ScriptEnd)
    requires |heard| <= |events|
  {
    if |heard| < |events| && !Stops(events[|heard|]) then end == Broken(BadPayload)
    else if |heard| == |events| && ending.Some? then end == Broken(ending.value)
    else end.Finished? && ReasonTold(c.stopReason, end.reason) && UsageTold(c.usage, end.usage)
  }

  lemma HeardOn(codec: Codec, ev: SseEvent, events: seq<SseEvent>, heard: seq<SseEvent>)
    requires GoesOn(codec, ev) && HeardOf(codec, events, heard)
    ensures HeardOf(codec, [ev] + events, [ev] + heard)
  {
  }

  lemma ShownOn(codec: Codec, ev: SseEvent, ds: seq<Delta>, heard: seq<SseEvent>, pieces: seq<seq<Delta>>)
    requires EventShown(codec, ev, ds) && AllShown(codec, heard, pieces)
    ensures AllShown(codec, [ev] + heard, [ds] + pieces) && Concat([ds] + pieces) == ds + Concat(pieces)
  {
    assert ([ds] + pieces)[1..] == pieces;
  }

  lemma ScriptOn(codec: Codec, before: Captured, ev: SseEvent, ds: seq<Delta>, now: Captured, events: seq<SseEvent>,
                 ending: Option<Failure>)
    requires Handler(codec)(before, ev) == Reaction(ds, Go(now))
    ensures ScriptOf(Handler(codec), CLOSE, before, [ev] + events, ending)
         == Prepend(ds, ScriptOf(Handler(codec), CLOSE, now, events, ending))
  {
    assert ([ev] + events)[1..] == events;
  }

  /** A stream nothing of which is heard. */
  lemma NothingHeard(codec: Codec, before: Captured, events: seq<SseEvent>, ending: Option<Failure>)
    requires events == [] || !GoesOn(codec, events[0])
    ensures var s := ScriptOf(Handler(codec), CLOSE, before, events, ending);
            s.deltas == [] && EndTold(events, [], ending, before, s.end)
  {
    if events != [] {
      EventStops(codec, before, events[0]);
    }
  }

  lemma EndOn(ev: SseEvent, events: seq<SseEvent>, heard: seq<SseEvent>, ending: Option<Failure>, c: Captured,
              end: ScriptEnd)
    requires |heard| <= |events| && EndTold(events, heard, ending, c, end)
    ensures EndTold([ev] + events, [ev] + heard, ending, c, end)
  {
  }

  lemma {:induction false} StreamFrom(codec: Codec, before: Captured, events: seq<SseEvent>, ending: Option<Failure>)
    returns (heard: seq<SseEvent>, pieces: seq<seq<Delta>>, c: Captured)
    ensures HeardOf(codec, events, heard) && AllShown(codec, heard, pieces) && Known(codec, heard, before, c)
    ensures var s := ScriptOf(Handler(codec), CLOSE, before, events, ending);
            s.deltas == Concat(pieces) && EndTold(events, heard, ending, c, s.end)
    decreases |events|
  {
    if events == [] || !GoesOn(codec, events[0]) {
      NothingHeard(codec, before, events, ending);
      return [], [], before;
    }
    var (ev, rest) := (events[0], events[1..]);
    assert events == [ev] + rest;
    var ds, now := EventHandled(codec, before, ev);
    heard, pieces, c := StreamFrom(codec, now, rest, ending);
    KnownOn(codec, ev, heard, before, ds, now, c);
    HeardOn(codec, ev, rest, heard);
    ShownOn(codec, ev, ds, heard, pieces);
    ScriptOn(codec, before, ev, ds, now, rest, ending);
    EndOn(ev, rest, heard, ending, c, ScriptOf(Handler(codec), CLOSE, now, rest, ending).end);
    heard, pieces := [ev] + heard, [ds] + pieces;
  }

  /** Any stream: there are the events heard, all those before the stop or before a block event that does
      not decode; the deltas are what these show, one after the other; and if the stream ends well, its
      reason is the last stop reason named and its usage the last counts given, each under its own event
      and in its own field. */
  lemma AnthropicStreamTells(codec: Codec, body: Body)
    returns (heard: seq<SseEvent>, pieces: seq<seq<Delta>>, c: Captured)
    ensures HeardOf(codec, Dispatched(body), heard) && AllShown(codec, heard, pieces)
    ensures Known(codec, heard, Captured("", AnthropicUsage(0, 0, 0, 0)), c)
    ensures var s := StreamScript(codec, body);
            s.deltas == Concat(pieces) && EndTold(Dispatched(body), heard, Ending(body), c, s.end)
  {
    heard, pieces, c := StreamFrom(codec, START, Dispatched(body), Ending(body));
  }
}

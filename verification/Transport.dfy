/** Reading a Server-Sent Events stream (internal/providers/transport.go:76-134). */
module Transport {
  import opened Wrappers
  import opened Text
  import opened Providers

  datatype SseEvent = SseEvent(event: string, data: string)

  /** A response body: the bytes it yields, and the error that ends it unless it ends cleanly. */
  datatype Body = Body(text: string, failure: Option<Failure>)

  /** What a handler makes of one event: a new state, and possibly an error that stops the scan. */
  datatype Step<+S> = Continue(state: S) | Halt(state: S, failure: Failure)

  const MAX_LINE := 1024 * 1024

  // ---------- The line scanner ----------

  function DropCR(line: string): string {
    if line != "" && line[|line| - 1] == '\r' then line[..|line| - 1] else line
  }

  /** The lines the scanner hands out: it gives up at the first line that does not fit its buffer. */
  function Lines(raw: seq<string>): seq<string> {
    if raw == [] || |raw[0]| >= MAX_LINE then [] else [DropCR(raw[0])] + Lines(raw[1..])
  }

  predicate Fits(raw: seq<string>) {
    forall k :: 0 <= k < |raw| ==> |raw[k]| < MAX_LINE
  }

  /** How the scan ends once all its lines are through. */
  function Ending(body: Body): Option<Failure> {
    if Fits(RawLines(body.text)) then body.failure else Some(LineTooLong)
  }

  // ---------- Dispatching events ----------

  /** The event name and data lines gathered since the last boundary. */
  datatype Pending = Pending(event: string, parts: seq<string>)

  const NOTHING_PENDING := Pending("", [])

  function Flush(p: Pending): seq<SseEvent> {
    if p.parts == [] then [] else [SseEvent(p.event, Join(p.parts, "\n"))]
  }

  /** The four kinds of non-blank line the scanner tells apart. */
  datatype Line = Comment | EventLine(value: string) | DataLine(value: string) | OtherLine

  function Classify(line: string): Line {
    if HasPrefix(line, ":") then Comment
    else if HasPrefix(line, "event:") then EventLine(line[6..])
    else if HasPrefix(line, "data:") then DataLine(line[5..])
    else OtherLine
  }

  /** The effect of one non-blank line. */
  function Absorb(p: Pending, line: string): Pending {
    match Classify(line)
    case EventLine(v) => p.(event := TrimSpace(v))
    case DataLine(v) => p.(parts := p.parts + [TrimSpace(v)])
    case _ => p
  }

  /** The events still to be dispatched; a trailing event is flushed only after a clean end. */
  function Upcoming(p: Pending, lines: seq<string>, ending: Option<Failure>): seq<SseEvent>
    decreases |lines|
  {
    if lines == [] then (if ending.None? then Flush(p) else [])
    else if lines[0] == "" then Flush(p) + Upcoming(NOTHING_PENDING, lines[1..], ending)
    else Upcoming(Absorb(p, lines[0]), lines[1..], ending)
  }

  function Dispatched(body: Body): seq<SseEvent> {
    Upcoming(NOTHING_PENDING, Lines(RawLines(body.text)), Ending(body))
  }

  /** Runs a handler over events until it reports an error. */
  function Fold<S>(handler: (S, SseEvent) -> Step<S>, state: S, events: seq<SseEvent>): Step<S>
    decreases |events|
  {
    if events == [] then Continue(state)
    else
      match handler(state, events[0])
      case Continue(s) => Fold(handler, s, events[1..])
      case Halt(s, e) => Halt(s, e)
  }

  function Outcome<S>(r: Step<S>, ending: Option<Failure>): (S, Option<Failure>) {
    match r
    case Continue(s) => (s, ending)
    case Halt(s, e) => (s, Some(e))
  }

  lemma {:induction false} FoldAppend<S>(handler: (S, SseEvent) -> Step<S>, state: S, a: seq<SseEvent>,
                                         b: seq<SseEvent>)
    ensures Fold(handler, state, a + b)
         == match Fold(handler, state, a)
            case Continue(s) => Fold(handler, s, b)
            case Halt(s, e) => Halt(s, e)
    decreases |a|
  {
    if a == [] {
      assert a + b == b;
    } else {
      assert a + b == [a[0]] + (a[1..] + b);
      match handler(state, a[0])
      case Continue(s) => FoldAppend(handler, s, a[1..], b);
      case Halt(_, _) =>
    }
  }

  lemma FitsTail(raw: seq<string>)
    requires raw != [] && |raw[0]| < MAX_LINE
    ensures Fits(raw) <==> Fits(raw[1..])
  {
    assert raw == [raw[0]] + raw[1..];
  }

  /** Hands the pending event, if there is one, to the handler. */
  method Dispatch<S>(handler: (S, SseEvent) -> Step<S>, state: S, p: Pending) returns (r: Step<S>)
    ensures r == Fold(handler, state, Flush(p))
  {
    if |p.parts| == 0 {
      return Continue(state);
    }
    var ev := SseEvent(p.event, Join(p.parts, "\n"));
    OneEvent(handler, state, ev);
    r := handler(state, ev);
  }

  /** Scans the body line by line, updating the pending event and calling the handler at every
      boundary. The result is that of folding the handler over the dispatched events: every event up
      to and including the first one the handler rejects, and none after it. */
  method ScanSSE<S(!new)>(body: Body, handler: (S, SseEvent) -> Step<S>, init: S)
    returns (state: S, err: Option<Failure>)
    ensures (state, err) == Outcome(Fold(handler, init, Dispatched(body)), Ending(body))
  {
    var eventName, dataParts := "", [];
    state := init;
    var raw := RawLines(body.text);
    ghost var ending, whole := Ending(body), Fold(handler, init, Dispatched(body));
    while |raw| > 0 && |raw[0]| < MAX_LINE
      invariant ending == if Fits(raw) then body.failure else Some(LineTooLong)
      invariant Fold(handler, state, Upcoming(Pending(eventName, dataParts), Lines(raw), ending)) == whole
      decreases |raw|
    {
      var line := DropCR(raw[0]);
      ghost var rest := Lines(raw[1..]);
      FitsTail(raw);
      assert Lines(raw)[0] == line && Lines(raw)[1..] == rest;
      if line == "" {
        FoldAppend(handler, state, Flush(Pending(eventName, dataParts)), Upcoming(NOTHING_PENDING, rest, ending));
        var r := Dispatch(handler, state, Pending(eventName, dataParts));
        eventName, dataParts := "", [];
        match r {
          case Continue(s) => state := s;
          case Halt(s, e) => return s, Some(e);
        }
      } else {
        match Classify(line) {
          case Comment =>
          case EventLine(v) => eventName := TrimSpace(v);
          case DataLine(v) => dataParts := dataParts + [TrimSpace(v)];
          case OtherLine =>
        }
      }
      raw := raw[1..];
    }
    if |raw| > 0 {
      return state, Some(LineTooLong);
    }
    if body.failure.Some? {
      return state, body.failure;
    }
    var r := Dispatch(handler, state, Pending(eventName, dataParts));
    match r {
      case Continue(s) => return s, None;
      case Halt(s, e) => return s, Some(e);
    }
  }

  /** A clean end closes a pending event as a blank line would. */
  lemma {:induction false} CleanEndIsBlank(p: Pending, lines: seq<string>)
    ensures Upcoming(p, lines, None) == Upcoming(p, lines + [""], None)
    decreases |lines|
  {
    if lines == [] {
      assert lines + [""] == [""] && [""][1..] == [];
      assert Flush(p) + [] == Flush(p);
    } else {
      var rest := lines[1..];
      assert (lines + [""])[0] == lines[0] && (lines + [""])[1..] == rest + [""];
      CleanEndIsBlank(if lines[0] == "" then NOTHING_PENDING else Absorb(p, lines[0]), rest);
    }
  }

  /** What is pending when the lines are through. */
  function PendingAfter(p: Pending, lines: seq<string>): Pending
    decreases |lines|
  {
    if lines == [] then p
    else PendingAfter(if lines[0] == "" then NOTHING_PENDING else Absorb(p, lines[0]), lines[1..])
  }

  /** A broken end drops a pending event, and nothing else. */
  lemma {:induction false} BrokenEndDrops(p: Pending, lines: seq<string>, e: Failure)
    ensures Upcoming(p, lines, None) == Upcoming(p, lines, Some(e)) + Flush(PendingAfter(p, lines))
    decreases |lines|
  {
    if lines == [] {
      assert [] + Flush(p) == Flush(p);
    } else {
      var (next, rest) := (if lines[0] == "" then NOTHING_PENDING else Absorb(p, lines[0]), lines[1..]);
      BrokenEndDrops(next, rest, e);
      OneLineRead(p, lines, None);
      OneLineRead(p, lines, Some(e));
      AllTogether(if lines[0] == "" then Flush(p) else [], Upcoming(next, rest, Some(e)),
                  Flush(PendingAfter(next, rest)));
    }
  }

  lemma OneLineRead(p: Pending, lines: seq<string>, ending: Option<Failure>)
    requires lines != []
    ensures Upcoming(p, lines, ending)
         == (if lines[0] == "" then Flush(p) else [])
            + Upcoming(if lines[0] == "" then NOTHING_PENDING else Absorb(p, lines[0]), lines[1..], ending)
  {
  }

  lemma AllTogether<T>(a: seq<T>, b: seq<T>, c: seq<T>)
    ensures a + (b + c) == a + b + c
  {
  }

  /** A scan fails exactly when some line is a mebibyte long or longer, or the body breaks off. */
  lemma ScanFails(body: Body)
    ensures Ending(body).Some? <==>
            body.failure.Some? || exists k :: 0 <= k < |RawLines(body.text)| && |RawLines(body.text)[k]| >= 1048576
    ensures (exists k :: 0 <= k < |RawLines(body.text)| && |RawLines(body.text)[k]| >= 1048576) ==>
              Ending(body) == Some(LineTooLong)
  {
  }

  lemma OneEvent<S>(handler: (S, SseEvent) -> Step<S>, state: S, ev: SseEvent)
    ensures Fold(handler, state, [ev]) == handler(state, ev)
  {
    assert [ev][1..] == [];
  }

  lemma NameLineKind(text: string)
    ensures Classify("event:" + text) == EventLine(text)
  {
    var line := "event:" + text;
    assert line[..6] == "event:" && line[6..] == text;
    assert line[0] == 'e';
  }

  lemma ValueLineKind(text: string)
    ensures Classify("data:" + text) == DataLine(text)
  {
    var line := "data:" + text;
    assert line[..5] == "data:" && line[5..] == text;
    assert line[0] == 'd';
  }
}

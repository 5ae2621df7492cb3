/** A stream for every message: a codec and a body that tell of it, event by event
    (internal/providers/anthropic.go:457-559, internal/providers/transport.go:92-134). */
module StreamedMessages {
  import opened Wrappers
  import opened Seqs
  import opened Text
  import opened Transport
  import opened SseReading
  import opened Anthropic
  import SseWriting

  // ---------- A body for a list of events ----------

  predicate Writable(ev: SseEvent) {
    && Trimmed(ev.event) && Bracketed(ev.data)
    && CleanLine(ev.event) && CleanLine(ev.data)
    && |ev.event| + 7 < MAX_LINE && |ev.data| + 6 < MAX_LINE
  }

  function EventLines(ev: SseEvent): seq<string> {
    ["event: " + ev.event, "data: " + ev.data] + [""]
  }

  function AllLines(evs: seq<SseEvent>): seq<string> { Flatten(EventLines, evs) }

  function BodyOf(evs: seq<SseEvent>): Body { Body(Flatten(SseWriting.LineBytes, AllLines(evs)), None) }

  ghost predicate Plain(lines: seq<string>) {
    Fits(lines) && forall k :: 0 <= k < |lines| ==> CleanLine(lines[k])
  }

  lemma EventLinesPlain(ev: SseEvent)
    requires Writable(ev)
    ensures Plain(EventLines(ev))
  {
    CleanConcat("event: ", ev.event);
    CleanConcat("data: ", ev.data);
  }

  lemma PlainTogether(a: seq<string>, b: seq<string>)
    requires Plain(a) && Plain(b)
    ensures Plain(a + b)
  {
  }

  lemma {:induction false} AllLinesPlain(evs: seq<SseEvent>)
    requires forall k :: 0 <= k < |evs| ==> Writable(evs[k])
    ensures Plain(AllLines(evs))
  {
    if evs != [] {
      EventLinesPlain(evs[0]);
      AllLinesPlain(evs[1..]);
      PlainTogether(EventLines(evs[0]), AllLines(evs[1..]));
    }
  }

  lemma {:induction false} LinesDispatch(evs: seq<SseEvent>)
    requires forall k :: 0 <= k < |evs| ==> Writable(evs[k])
    ensures Upcoming(NOTHING_PENDING, AllLines(evs), None) == evs
  {
    if evs != [] {
      LinesDispatch(evs[1..]);
      NamedFrame(evs[0].event, evs[0].data, AllLines(evs[1..]), None);
      assert evs == [evs[0]] + evs[1..];
    }
  }

  lemma PlainLinesRead(lines: seq<string>)
    requires Plain(lines)
    ensures Lines(RawLines(Flatten(SseWriting.LineBytes, lines))) == lines
    ensures Fits(RawLines(Flatten(SseWriting.LineBytes, lines)))
  {
    var text := Flatten(SseWriting.LineBytes, lines);
    ReadBack(lines, "");
    CleanLinesScan(lines, []);
    assert text + "" == text && lines + [] == lines;
  }

  /** Every list of writable events is dispatched from some body. */
  lemma WrittenIsDispatched(evs: seq<SseEvent>)
    requires forall k :: 0 <= k < |evs| ==> Writable(evs[k])
    ensures Dispatched(BodyOf(evs)) == evs && Ending(BodyOf(evs)).None?
  {
    AllLinesPlain(evs);
    PlainLinesRead(AllLines(evs));
    LinesDispatch(evs);
  }

  // ---------- Numbered payloads ----------

  function Payload(k: nat): string { "{" + Decimal(k) + "}" }

  function ValueOf(s: string): int {
    if s == "" then 0 else 10 * ValueOf(s[..|s| - 1]) + (s[|s| - 1] as int - '0' as int)
  }

  lemma {:induction false} DecimalReads(n: nat)
    ensures ValueOf(Decimal(n)) == n
  {
    var s := Decimal(n);
    if n < 10 {
      assert s[..|s| - 1] == "";
    } else {
      assert s[..|s| - 1] == Decimal(n / 10);
      DecimalReads(n / 10);
    }
  }

  lemma PayloadsDiffer(j: nat, k: nat)
    requires Payload(j) == Payload(k)
    ensures j == k
  {
    var (a, b) := (Payload(j), Payload(k));
    assert a[1..|a| - 1] == Decimal(j) && b[1..|b| - 1] == Decimal(k);
    DecimalReads(j);
    DecimalReads(k);
  }

  // ---------- A codec that reads them off a table ----------

  predicate Sayable(m: Meaning) { !m.Noise? && !m.Garbled? }

  function NameOf(m: Meaning): string {
    match m
    case Start(_) => "message_start"
    case Opens(_, _) => "content_block_start"
    case Adds(_, _) => "content_block_delta"
    case Tail(_) => "message_delta"
    case Stop => "message_stop"
    case _ => "ping"
  }

  /** The entry of the table whose number the payload is. */
  function Entry(ms: seq<Meaning>, data: string, n: nat): Meaning
    requires n <= |ms|
  {
    if n == 0 then Noise
    else if data == Payload(n - 1) then ms[n - 1]
    else Entry(ms, data, n - 1)
  }

  lemma {:induction false} EntryFound(ms: seq<Meaning>, k: nat, n: nat)
    requires k < n <= |ms|
    ensures Entry(ms, Payload(k), n) == ms[k]
  {
    if Payload(k) == Payload(n - 1) {
      PayloadsDiffer(k, n - 1);
    } else {
      EntryFound(ms, k, n - 1);
    }
  }

  function Table(ms: seq<Meaning>): Codec {
    Codec(data => var m := Entry(ms, data, |ms|); if m.Start? then Some(m.usage) else None,
          data => var m := Entry(ms, data, |ms|); if m.Opens? then Some((m.index, m.head)) else None,
          data => var m := Entry(ms, data, |ms|); if m.Adds? then Some((m.index, m.piece)) else None,
          data => var m := Entry(ms, data, |ms|); if m.Tail? then Some(m.tail) else None)
  }

  function EventAt(ms: seq<Meaning>, k: nat): SseEvent
    requires k < |ms|
  {
    SseEvent(NameOf(ms[k]), Payload(k))
  }

  function EventsAt(ms: seq<Meaning>, k: nat): (evs: seq<SseEvent>)
    requires k <= |ms|
    ensures |evs| == |ms| - k
    ensures forall i :: 0 <= i < |evs| ==> evs[i] == EventAt(ms, k + i)
    decreases |ms| - k
  {
    if k == |ms| then [] else [EventAt(ms, k)] + EventsAt(ms, k + 1)
  }

  lemma EventDecodes(ms: seq<Meaning>, k: nat)
    requires k < |ms| && Sayable(ms[k])
    ensures Decode(Table(ms), EventAt(ms, k)) == ms[k]
  {
    EntryFound(ms, k, |ms|);
  }

  lemma {:induction false} EventsDecode(ms: seq<Meaning>, k: nat)
    requires k <= |ms| && forall i :: 0 <= i < |ms| ==> Sayable(ms[i])
    ensures Meanings(Table(ms), EventsAt(ms, k)) == ms[k..]
    decreases |ms| - k
  {
    if k < |ms| {
      EventDecodes(ms, k);
      EventsDecode(ms, k + 1);
      OneMeans(Table(ms), EventAt(ms, k), EventsAt(ms, k + 1), ms[k]);
      assert ms[k..] == [ms[k]] + ms[k + 1..];
    }
  }

  lemma OneMeans(codec: Codec, ev: SseEvent, rest: seq<SseEvent>, m: Meaning)
    requires Decode(codec, ev) == m && !m.Noise?
    ensures Meanings(codec, [ev] + rest) == [m] + Meanings(codec, rest)
  {
    assert ([ev] + rest)[1..] == rest;
  }

  predicate LettersOnly(s: string) {
    s != "" && forall k :: 0 <= k < |s| ==> 'a' <= s[k] <= 'z' || s[k] == '_'
  }

  lemma LettersTrimmed(s: string)
    requires LettersOnly(s)
    ensures Trimmed(s) && CleanLine(s)
  {
  }

  lemma NamesAreLetters(m: Meaning)
    ensures LettersOnly(NameOf(m)) && |NameOf(m)| < 20
  {
  }

  lemma EventWritable(ms: seq<Meaning>, k: nat, width: nat)
    requires k < |ms| <= Pow10(width) && 0 < width < MAX_LINE - 8
    ensures Writable(EventAt(ms, k))
  {
    NamesAreLetters(ms[k]);
    LettersTrimmed(NameOf(ms[k]));
    DecimalFits(k, width);
    assert Bracketed(Payload(k));
  }

  lemma EventsWritable(ms: seq<Meaning>, width: nat)
    requires |ms| <= Pow10(width) && 0 < width < MAX_LINE - 8
    ensures forall k :: 0 <= k < |ms| ==> Writable(EventsAt(ms, 0)[k])
  {
    forall k | 0 <= k < |ms| ensures Writable(EventsAt(ms, 0)[k]) {
      EventWritable(ms, k, width);
      assert EventsAt(ms, 0)[k] == EventAt(ms, 0 + k);
    }
  }

  /** Every list of meanings short enough to be numbered on a line is what some body says. */
  lemma SomeBodySays(ms: seq<Meaning>, width: nat) returns (codec: Codec, body: Body)
    requires |ms| <= Pow10(width) && 0 < width < MAX_LINE - 8
    requires forall i :: 0 <= i < |ms| ==> Sayable(ms[i])
    ensures Meanings(codec, Dispatched(body)) == ms && Ending(body).None?
  {
    codec, body := Table(ms), BodyOf(EventsAt(ms, 0));
    EventsWritable(ms, width);
    WrittenIsDispatched(EventsAt(ms, 0));
    EventsDecode(ms, 0);
    assert ms[0..] == ms;
  }

  lemma {:induction false} TailsSayable(ts: seq<MessageTail>)
    ensures forall k :: 0 <= k < |Tails(ts)| ==> Sayable(Tails(ts)[k])
  {
    if ts != [] {
      TailsSayable(ts[1..]);
    }
  }

  /** For every message, however it is cut up and closed, there is a stream that tells of it: a codec and
      a body whose events mean just that. */
  lemma SomeStreamTells(m: AnthropicMessage, cuts: seq<Cut>, tails: seq<MessageTail>, width: nat)
    returns (codec: Codec, body: Body)
    requires |cuts| == |m.content| && 0 < width < MAX_LINE - 8
    requires |MessageStream(m, cuts, tails)| <= Pow10(width)
    ensures Meanings(codec, Dispatched(body)) == MessageStream(m, cuts, tails) && Ending(body).None?
  {
    OnlyBlockEvents(m.content, cuts, |cuts|);
    TailsSayable(tails);
    codec, body := SomeBodySays(MessageStream(m, cuts, tails), width);
  }
}

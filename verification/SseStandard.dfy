/** What the scanner of internal/providers/transport.go:76-134 dispatches, against the events of the
    WHATWG HTML Living Standard. */
module SseStandard {
  import opened Wrappers
  import opened Text
  import opened Transport

  // ---------- The standard's interpretation ----------

  /** Lines of section 9.2.5 of the WHATWG HTML Living Standard: a leading byte order mark is dropped,
      and CRLF, LF and CR each end a line. */
  function StandardLines(text: string): seq<string>
    decreases |text|
  {
    if text == "" then []
    else
      var i := LineEnd(text);
      if i == |text| then [text]
      else if text[i] == '\r' && i + 1 < |text| && text[i + 1] == '\n' then [text[..i]] + StandardLines(text[i + 2..])
      else [text[..i]] + StandardLines(text[i + 1..])
  }

  function LineEnd(text: string): (i: nat)
    ensures i <= |text|
    ensures forall k :: 0 <= k < i ==> text[k] != '\n' && text[k] != '\r'
    ensures i < |text| ==> text[i] == '\n' || text[i] == '\r'
  {
    if text == "" || text[0] == '\n' || text[0] == '\r' then 0 else 1 + LineEnd(text[1..])
  }

  predicate HasBOM(text: string) {
    |text| >= 3 && text[0] as int == 0xEF && text[1] as int == 0xBB && text[2] as int == 0xBF
  }

  function DropBOM(text: string): string {
    if HasBOM(text) then text[3..] else text
  }

  /** The event type and data buffers of section 9.2.6. */
  datatype Buffers = Buffers(eventType: string, data: string)

  function OneSpaceLess(v: string): string {
    if v != "" && v[0] == ' ' then v[1..] else v
  }

  function ProcessField(b: Buffers, field: string, value: string): Buffers {
    if field == "event" then b.(eventType := value)
    else if field == "data" then b.(data := b.data + value + "\n")
    else b
  }

  function ProcessLine(b: Buffers, line: string): Buffers {
    var colon := IndexOf(line, ':');
    if colon == 0 && line != "" then b
    else if colon < |line| then ProcessField(b, line[..colon], OneSpaceLess(line[colon + 1..]))
    else ProcessField(b, line, "")
  }

  /** Dispatching at blank lines; what is pending at the end of the stream is discarded. */
  function Interpret(b: Buffers, lines: seq<string>): seq<SseEvent>
    decreases |lines|
  {
    if lines == [] then []
    else if lines[0] == "" then
      (if b.data == "" then [] else [SseEvent(b.eventType, b.data[..|b.data| - 1])])
      + Interpret(Buffers("", ""), lines[1..])
    else Interpret(ProcessLine(b, lines[0]), lines[1..])
  }

  function StandardEvents(text: string): seq<SseEvent> {
    Interpret(Buffers("", ""), StandardLines(DropBOM(text)))
  }

  /** A field value both sides read alike: at most one leading space, no other white space around. */
  predicate PlainValue(v: string) {
    SpaceAtFront(OneSpaceLess(v)) == 0 && SpaceAtEnd(OneSpaceLess(v)) == 0
  }

  predicate PlainLine(line: string) {
    && line != "event" && line != "data"
    && (Classify(line).EventLine? || Classify(line).DataLine? ==> PlainValue(Classify(line).value))
  }

  /** Streams on which the two interpretations agree. */
  predicate PlainStream(text: string) {
    var raw := RawLines(text);
    && NoLoneCR(text) && !HasBOM(text) && Fits(raw)
    && var lines := Lines(raw);
       && (lines == [] || lines[|lines| - 1] == "")
       && forall k :: 0 <= k < |lines| ==> PlainLine(lines[k])
  }

  /** Carriage returns stand in front of line feeds only. */
  predicate NoLoneCR(text: string) {
    forall k :: 0 <= k < |text| && text[k] == '\r' ==> k + 1 < |text| && text[k + 1] == '\n'
  }

  /** Trimming reads a value as the standard does exactly when the value is plain. */
  lemma TrimMatchesStandard(v: string)
    ensures TrimSpace(v) == OneSpaceLess(v) <==> PlainValue(v)
  {
    var w := OneSpaceLess(v);
    TrimSpaceFixpoint(w);
    assert w != v ==> SpaceAtFront(v) == 1 && TrimLeft(v) == TrimLeft(w);
  }

  lemma ColonAfter(line: string, field: string)
    requires Without(field, ':') && HasPrefix(line, field + ":")
    ensures IndexOf(line, ':') == |field| && line[..|field|] == field
  {
    var rest := line[|field| + 1..];
    assert line == field + ([':'] + rest);
    IndexOfIs(line, ':', |field|);
  }

  lemma ColonOfEvent(line: string)
    requires HasPrefix(line, "event:")
    ensures IndexOf(line, ':') == 5 && line[..5] == "event"
  {
    assert "event" + ":" == "event:";
    ColonAfter(line, "event");
  }

  lemma ColonOfData(line: string)
    requires HasPrefix(line, "data:")
    ensures IndexOf(line, ':') == 4 && line[..4] == "data"
  {
    assert "data" + ":" == "data:";
    ColonAfter(line, "data");
  }

  lemma ColonOfOther(line: string)
    requires line != "" && Classify(line).OtherLine?
    ensures var i := IndexOf(line, ':');
            i > 0 && (i < |line| ==> line[..i] != "event" && line[..i] != "data")
  {
    var i := IndexOf(line, ':');
    if i < |line| {
      PrefixUpTo(line, i);
      assert "event" + ":" == "event:" && "data" + ":" == "data:" && "" + ":" == ":";
    }
  }

  lemma PrefixUpTo(line: string, i: nat)
    requires i < |line| && line[i] == ':'
    ensures HasPrefix(line, line[..i] + ":")
  {
    assert line[..i] + ":" == line[..i + 1];
  }

  ghost predicate SameBuffers(p: Pending, b: Buffers) {
    && p.event == b.eventType
    && b.data == (if p.parts == [] then "" else Join(p.parts, "\n") + "\n")
  }

  lemma {:induction false} JoinSnoc(parts: seq<string>, part: string, sep: string)
    requires parts != []
    ensures Join(parts + [part], sep) == Join(parts, sep) + sep + part
  {
    if |parts| > 1 {
      JoinSnoc(parts[1..], part, sep);
      assert parts + [part] == [parts[0]] + (parts[1..] + [part]);
    }
  }

  lemma MoreData(p: Pending, b: Buffers, value: string)
    requires SameBuffers(p, b)
    ensures SameBuffers(p.(parts := p.parts + [value]), b.(data := b.data + value + "\n"))
  {
    if p.parts == [] {
      assert b.data + value == value;
    } else {
      JoinSnoc(p.parts, value, "\n");
    }
  }

  lemma EventMatches(p: Pending, b: Buffers, line: string) returns (p': Pending, b': Buffers)
    requires SameBuffers(p, b) && Classify(line).EventLine? && PlainLine(line)
    ensures p' == Absorb(p, line) && b' == ProcessLine(b, line) && SameBuffers(p', b')
  {
    p', b' := Absorb(p, line), ProcessLine(b, line);
    ColonOfEvent(line);
    TrimMatchesStandard(Classify(line).value);
  }

  lemma DataMatches(p: Pending, b: Buffers, line: string)
    requires SameBuffers(p, b) && Classify(line).DataLine? && PlainLine(line)
    ensures SameBuffers(Absorb(p, line), ProcessLine(b, line))
  {
    var v := Classify(line).value;
    ColonOfData(line);
    TrimMatchesStandard(v);
    MoreData(p, b, TrimSpace(v));
  }

  lemma AbsorbMatches(p: Pending, b: Buffers, line: string)
    requires SameBuffers(p, b) && line != "" && PlainLine(line)
    ensures SameBuffers(Absorb(p, line), ProcessLine(b, line))
  {
    match Classify(line)
    case Comment => ColonAfter(line, "");
    case OtherLine => ColonOfOther(line);
    case EventLine(_) => var _, _ := EventMatches(p, b, line);
    case DataLine(_) => DataMatches(p, b, line);
  }

  lemma {:induction false} UpcomingMatches(p: Pending, b: Buffers, lines: seq<string>)
    requires SameBuffers(p, b)
    requires forall k :: 0 <= k < |lines| ==> PlainLine(lines[k])
    requires lines != [] ==> lines[|lines| - 1] == ""
    requires lines == [] ==> p.parts == []
    ensures Upcoming(p, lines, None) == Interpret(b, lines)
    decreases |lines|
  {
    if lines == [] {
    } else if lines[0] == "" {
      UpcomingMatches(NOTHING_PENDING, Buffers("", ""), lines[1..]);
    } else {
      AbsorbMatches(p, b, lines[0]);
      UpcomingMatches(Absorb(p, lines[0]), ProcessLine(b, lines[0]), lines[1..]);
    }
  }

  /** Where both sides see the end of the first line: at its line feed, or at the carriage return before. */
  lemma FirstLineEnds(text: string)
    requires NoLoneCR(text)
    ensures var (i, e) := (IndexOf(text, '\n'), LineEnd(text));
            && DropCR(text[..i]) == text[..e]
            && (if i < |text| && i > 0 && text[i - 1] == '\r' then e == i - 1 else e == i)
  {
    var (i, e) := (IndexOf(text, '\n'), LineEnd(text));
    if e < |text| && text[e] == '\r' {
      assert text[e + 1] == '\n';
      assert i <= e + 1;
      assert forall k :: 0 <= k <= e ==> text[k] != '\n';
    }
  }

  lemma {:induction false} SameLinesRead(text: string)
    requires NoLoneCR(text) && Fits(RawLines(text))
    ensures StandardLines(text) == Lines(RawLines(text))
    decreases |text|
  {
    if text != "" {
      FirstLineEnds(text);
      var i := IndexOf(text, '\n');
      if i < |text| {
        FitsTail(RawLines(text));
        SameLinesRead(text[i + 1..]);
      }
    }
  }

  lemma {:induction false} NoCRWithin(text: string)
    requires Without(text, '\r')
    ensures forall k :: 0 <= k < |RawLines(text)| ==> Without(RawLines(text)[k], '\r')
    decreases |text|
  {
    var i := IndexOf(text, '\n');
    if i < |text| {
      NoCRWithin(text[i + 1..]);
    }
  }

  lemma {:induction false} LinesThatFit(raw: seq<string>)
    requires Fits(raw) && forall k :: 0 <= k < |raw| ==> Without(raw[k], '\r')
    ensures Lines(raw) == raw
    decreases |raw|
  {
    if raw != [] {
      LinesThatFit(raw[1..]);
    }
  }

  /** Without a byte order mark and lone carriage returns both sides read the same lines. */
  lemma SameLines(text: string, lines: seq<string>)
    requires NoLoneCR(text) && !HasBOM(text) && Fits(RawLines(text)) && lines == Lines(RawLines(text))
    ensures Dispatched(Body(text, None)) == Upcoming(NOTHING_PENDING, lines, None)
    ensures StandardEvents(text) == Interpret(Buffers("", ""), lines)
  {
    SameLinesRead(text);
  }

  lemma LinesWithoutCR(text: string)
    requires Without(text, '\r') && Fits(RawLines(text))
    ensures NoLoneCR(text) && Lines(RawLines(text)) == RawLines(text)
  {
    NoCRWithin(text);
    LinesThatFit(RawLines(text));
  }

  /** On plain streams the scanner dispatches exactly the events of the standard. */
  lemma ScanMatchesStandard(body: Body)
    requires PlainStream(body.text) && body.failure.None?
    ensures Dispatched(body) == StandardEvents(body.text)
    ensures Ending(body).None?
  {
    SameLines(body.text, Lines(RawLines(body.text)));
    UpcomingMatches(NOTHING_PENDING, Buffers("", ""), Lines(RawLines(body.text)));
  }

  // ---------- Where the interpretations part ----------

  const HELD := Pending("x", ["y"])
  const BUFFERED := Buffers("x", "y\n")

  lemma HeldIsBuffered()
    ensures SameBuffers(HELD, BUFFERED)
  {
    assert Join(["y"], "\n") + "\n" == "y\n";
  }

  lemma ColonOfNone(line: string)
    requires Without(line, ':')
    ensures IndexOf(line, ':') == |line|
  {
  }

  lemma BareLineParts(line: string)
    requires line == "event" || line == "data"
    ensures !SameBuffers(Absorb(HELD, line), ProcessLine(BUFFERED, line))
  {
    HeldIsBuffered();
    ColonOfNone(line);
    assert Classify(line).OtherLine?;
    assert ProcessLine(BUFFERED, line) == ProcessField(BUFFERED, line, "");
    assert |BUFFERED.data + "" + "\n"| == 3;
  }

  lemma EventLineParts(line: string)
    requires Classify(line).EventLine?
    ensures SameBuffers(Absorb(HELD, line), ProcessLine(BUFFERED, line)) <==> PlainLine(line)
  {
    HeldIsBuffered();
    ColonOfEvent(line);
    TrimMatchesStandard(Classify(line).value);
  }

  lemma DataLineParts(line: string)
    requires Classify(line).DataLine?
    ensures SameBuffers(Absorb(HELD, line), ProcessLine(BUFFERED, line)) <==> PlainLine(line)
  {
    var v := Classify(line).value;
    var (ours, theirs) := (TrimSpace(v), OneSpaceLess(v));
    ColonOfData(line);
    TrimMatchesStandard(v);
    MoreData(HELD, BUFFERED, ours) by { HeldIsBuffered(); }
    var (a, b) := (BUFFERED.data + ours + "\n", BUFFERED.data + theirs + "\n");
    assert a[2..|a| - 1] == ours && b[2..|b| - 1] == theirs;
    assert Absorb(HELD, line) == HELD.(parts := HELD.parts + [ours]);
    assert ProcessLine(BUFFERED, line) == BUFFERED.(data := b);
  }

  lemma HeldLineParts(line: string)
    requires line != ""
    ensures SameBuffers(Absorb(HELD, line), ProcessLine(BUFFERED, line)) <==> PlainLine(line)
  {
    match Classify(line)
    case EventLine(_) => EventLineParts(line);
    case DataLine(_) => DataLineParts(line);
    case _ =>
      HeldIsBuffered();
      if PlainLine(line) {
        AbsorbMatches(HELD, BUFFERED, line);
      } else {
        BareLineParts(line);
      }
  }

  /** A line leaves the two interpretations alike, whatever came before it, exactly when it is plain. */
  lemma PlainLinesMatchStandard(line: string)
    requires line != ""
    ensures PlainLine(line) <==> forall p, b :: SameBuffers(p, b) ==> SameBuffers(Absorb(p, line), ProcessLine(b, line))
  {
    HeldIsBuffered();
    HeldLineParts(line);
    if PlainLine(line) {
      forall p, b | SameBuffers(p, b) ensures SameBuffers(Absorb(p, line), ProcessLine(b, line)) {
        AbsorbMatches(p, b, line);
      }
    }
  }

  /** A named event with one line of data, then some line, then the end of the event. */
  function WithLine(line: string): string { "event:x" + "\n" + ("data:y" + "\n" + (line + "\n" + "\n")) }

  lemma BlankLast(blank: string)
    requires blank == "\n"
    ensures RawLines(blank) == [""]
  {
    assert blank == "" + "\n" + "";
    RawLinesCons("", "");
  }

  lemma OneMoreLine(line: string, rest: string, lines: seq<string>) returns (text: string)
    requires Without(line, '\n') && RawLines(rest) == lines
    ensures text == line + "\n" + rest && RawLines(text) == [line] + lines
  {
    text := line + "\n" + rest;
    RawLinesCons(line, rest);
  }

  lemma ThreeAndBlank(a: string, b: string, c: string) returns (text: string)
    requires Without(a, '\n') && Without(b, '\n') && Without(c, '\n')
    ensures text == a + "\n" + (b + "\n" + (c + "\n" + "\n")) && RawLines(text) == [a, b, c, ""]
  {
    BlankLast("\n");
    text := OneMoreLine(c, "\n", [""]);
    text := OneMoreLine(b, text, [c] + [""]);
    text := OneMoreLine(a, text, [b] + ([c] + [""]));
  }

  lemma WithLineIsClean(line: string)
    requires Without(line, '\r')
    ensures Without(WithLine(line), '\r') && !HasBOM(WithLine(line))
  {
    var text := WithLine(line);
    assert text[0] == 'e';
  }

  lemma LetterIsNoSpace(s: string)
    requires |s| == 1 && 'a' <= s[0] <= 'z'
    ensures SpaceAtFront(s) == 0 && SpaceAtEnd(s) == 0
  {
  }

  lemma OneLetterKept(s: string)
    requires |s| == 1 && 'a' <= s[0] <= 'z'
    ensures TrimSpace(s) == s
  {
    LetterIsNoSpace(s);
    TrimSpaceFixpoint(s);
  }

  lemma HeldLines(all: seq<string>)
    requires |all| > 1 && all[0] == "event:x" && all[1] == "data:y"
    ensures Absorb(Absorb(NOTHING_PENDING, all[0]), all[1]) == HELD
  {
    var x, y := "x", "y";
    OneLetterKept(x);
    OneLetterKept(y);
    assert all[0] == "event:" + x && all[1] == "data:" + y;
    NameLineKind(x);
    ValueLineKind(y);
    assert [] + [y] == ["y"];
  }

  lemma HeldFirst(line: string)
    requires line != ""
    ensures Upcoming(NOTHING_PENDING, ["event:x", "data:y", line, ""], None) == Flush(Absorb(HELD, line))
  {
    var all := ["event:x", "data:y", line, ""];
    HeldLines(all);
    UpcomingThree(all, all[1..], all[2..]);
  }

  lemma UpcomingThree(all: seq<string>, later: seq<string>, last: seq<string>)
    requires |all| == 4 && all[0] != "" && all[1] != "" && all[2] != "" && all[3] == ""
    requires later == all[1..] && last == all[2..]
    ensures Upcoming(NOTHING_PENDING, all, None)
         == Flush(Absorb(Absorb(Absorb(NOTHING_PENDING, all[0]), all[1]), all[2]))
  {
    var p := Absorb(Absorb(NOTHING_PENDING, all[0]), all[1]);
    assert Upcoming(NOTHING_PENDING, all, None) == Upcoming(Absorb(NOTHING_PENDING, all[0]), later, None);
    assert later[0] == all[1] && later[1..] == last;
    assert Upcoming(Absorb(NOTHING_PENDING, all[0]), later, None) == Upcoming(p, last, None);
    LineAndBlank(p, last);
  }

  lemma LineAndBlank(p: Pending, lines: seq<string>)
    requires |lines| == 2 && lines[0] != "" && lines[1] == ""
    ensures Upcoming(p, lines, None) == Flush(Absorb(p, lines[0]))
  {
    var rest := lines[1..];
    assert rest == [""] && rest[1..] == [];
    assert Upcoming(NOTHING_PENDING, [], None) == [];
    assert Flush(Absorb(p, lines[0])) + [] == Flush(Absorb(p, lines[0]));
  }

  lemma InterpretThree(b: Buffers, all: seq<string>, later: seq<string>, last: seq<string>)
    requires |all| == 4 && all[0] != "" && all[1] != "" && all[2] != "" && all[3] == ""
    requires later == all[1..] && last == all[2..]
    ensures Interpret(b, all) == Interpret(ProcessLine(ProcessLine(ProcessLine(b, all[0]), all[1]), all[2]), [""])
  {
    assert Interpret(b, all) == Interpret(ProcessLine(b, all[0]), later);
    assert later[0] == all[1] && later[1..] == last && last[1..] == [""];
  }

  lemma BufferedFirst(line: string)
    requires line != ""
    ensures Interpret(Buffers("", ""), ["event:x", "data:y", line, ""]) == Interpret(ProcessLine(BUFFERED, line), [""])
  {
    var all := ["event:x", "data:y", line, ""];
    ColonOfEvent(all[0]);
    ColonOfData(all[1]);
    assert all[0][6..] == "x" && all[1][5..] == "y";
    assert ProcessLine(Buffers("", ""), all[0]) == Buffers("x", "");
    assert "" + "y" + "\n" == "y\n";
    assert ProcessLine(Buffers("x", ""), all[1]) == BUFFERED;
    InterpretThree(Buffers("", ""), all, all[1..], all[2..]);
  }

  lemma BlankLine(b: Buffers)
    requires b.data != ""
    ensures Interpret(b, [""]) == [SseEvent(b.eventType, b.data[..|b.data| - 1])]
  {
    assert [""][1..] == [];
    assert Interpret(Buffers("", ""), []) == [];
  }

  /** Of events that both sides dispatch the buffers are the same when the events are. */
  lemma SameWhenDispatched(p: Pending, b: Buffers)
    requires p.parts != [] && b.data != "" && b.data[|b.data| - 1] == '\n'
    ensures Flush(p) == Interpret(b, [""]) <==> SameBuffers(p, b)
  {
    var (joined, data) := (Join(p.parts, "\n"), b.data[..|b.data| - 1]);
    assert b.data == data + "\n";
    assert (joined + "\n")[..|joined|] == joined && (data + "\n")[..|data|] == data;
    BlankLine(b);
  }

  lemma StillHeld(line: string)
    requires line != ""
    ensures Absorb(HELD, line).parts != []
    ensures var d := ProcessLine(BUFFERED, line).data; d != "" && d[|d| - 1] == '\n'
  {
  }

  lemma WithLineReads(line: string)
    requires line != "" && Without(line, '\n') && Without(line, '\r') && |line| < MAX_LINE
    ensures Dispatched(Body(WithLine(line), None)) == Flush(Absorb(HELD, line))
    ensures StandardEvents(WithLine(line)) == Interpret(ProcessLine(BUFFERED, line), [""])
  {
    var text := ThreeAndBlank("event:x", "data:y", line);
    WithLineIsClean(line);
    LinesWithoutCR(text);
    SameLines(text, ["event:x", "data:y", line, ""]);
    HeldFirst(line);
    BufferedFirst(line);
  }

  /** No line can be added to the plain ones: behind a plain beginning any line that fits makes scanner
      and standard dispatch the same exactly when it is plain. */
  lemma OneLineDecides(line: string)
    requires line != "" && Without(line, '\n') && Without(line, '\r') && |line| < MAX_LINE
    ensures Dispatched(Body(WithLine(line), None)) == StandardEvents(WithLine(line)) <==> PlainLine(line)
  {
    WithLineReads(line);
    StillHeld(line);
    SameWhenDispatched(Absorb(HELD, line), ProcessLine(BUFFERED, line));
    HeldLineParts(line);
  }

  lemma AloneReads(line: string, text: string)
    requires line != "" && Without(line, '\n') && Without(line, '\r') && |line| < MAX_LINE
    requires text == line + "\n" + "\n" && !HasBOM(text)
    ensures Dispatched(Body(text, None)) == Upcoming(NOTHING_PENDING, [line, ""], None)
    ensures StandardEvents(text) == Interpret(Buffers("", ""), [line, ""])
  {
    BlankLast("\n");
    var read := OneMoreLine(line, "\n", [""]);
    assert read == text;
    LinesWithoutCR(text);
    SameLines(text, [line, ""]);
  }

  lemma BareDataAlone(line: string)
    requires line == "data"
    ensures Upcoming(NOTHING_PENDING, [line, ""], None) == []
    ensures Interpret(Buffers("", ""), [line, ""]) == [SseEvent("", "")]
  {
    LineAndBlank(NOTHING_PENDING, [line, ""]);
    ColonOfNone(line);
    assert Absorb(NOTHING_PENDING, line) == NOTHING_PENDING;
    assert ProcessLine(Buffers("", ""), line) == Buffers("", "\n");
    assert [line, ""][1..] == [""];
    BlankLine(Buffers("", "\n"));
  }

  /** A bare `data` is no plain line: alone it makes an event of the standard and none of the scanner. */
  lemma BareDataParts(text: string)
    requires text == "data" + "\n" + "\n"
    ensures Dispatched(Body(text, None)) == [] && StandardEvents(text) == [SseEvent("", "")]
  {
    AloneReads("data", text);
    BareDataAlone("data");
  }
}

/** The judge call (internal/fusion/judge.go). */
module Judge {
  import opened Wrappers
  import opened Text
  import opened Providers
  import opened Panel

  datatype JudgeAnalysis = JudgeAnalysis(
    consensus: seq<string>, contradictions: seq<string>, partial: seq<string>,
    unique: map<string, seq<string>>, blindSpots: seq<string>)

  /** Unmarshalling a JSON object into an analysis; None stands for an error. */
  type Unmarshal = string -> Option<JudgeAnalysis>

  // ---------- Finding the object in the judge's text ----------

  function LastIndexOf(s: string, c: char): (i: int)
    ensures -1 <= i < |s|
    ensures i >= 0 ==> s[i] == c
    ensures forall k :: i < k < |s| ==> s[k] != c
  {
    if s == "" then -1
    else if s[|s| - 1] == c then |s| - 1
    else LastIndexOf(s[..|s| - 1], c)
  }

  function TrimPrefix(s: string, prefix: string): string {
    if HasPrefix(s, prefix) then s[|prefix|..] else s
  }

  function TrimSuffix(s: string, suffix: string): string {
    if HasSuffix(s, suffix) then s[..|s| - |suffix|] else s
  }

  /** The text from the first opening brace to the last closing one. */
  function ObjectText(s: string): Option<string> {
    var (i, j) := (IndexOf(s, '{'), LastIndexOf(s, '}'));
    if i == |s| || j <= i then None else Some(s[i..j + 1])
  }

  const JSON_FENCE := "```json"
  const FENCE := "```"

  function TrimFences(s: string): string {
    TrimSuffix(TrimPrefix(TrimPrefix(s, JSON_FENCE), FENCE), FENCE)
  }

  /** Trims white space and code fences, then takes the outermost braces. */
  function ParseJudgeOutput(unmarshal: Unmarshal, text: string): Option<JudgeAnalysis> {
    match ObjectText(TrimSpace(TrimFences(TrimSpace(text))))
    case None => None
    case Some(body) => unmarshal(body)
  }

  predicate NoBraces(s: string) {
    forall k :: 0 <= k < |s| ==> s[k] != '{' && s[k] != '}'
  }

  ghost predicate FirstAt(s: string, c: char, i: nat) {
    i <= |s| && (forall m :: 0 <= m < i ==> s[m] != c) && (i < |s| ==> s[i] == c)
  }

  ghost predicate LastAt(s: string, c: char, j: int) {
    -1 <= j < |s| && (forall m :: j < m < |s| ==> s[m] != c) && (j >= 0 ==> s[j] == c)
  }

  lemma Locate(s: string) returns (i: nat, j: int)
    ensures FirstAt(s, '{', i) && LastAt(s, '}', j)
  {
    i, j := IndexOf(s, '{'), LastIndexOf(s, '}');
  }

  lemma ObjectAt(s: string, i: nat, j: int)
    requires FirstAt(s, '{', i) && LastAt(s, '}', j)
    ensures ObjectText(s) == if i == |s| || j <= i then None else Some(s[i..j + 1])
  {
  }

  lemma ShiftedBraces(p: string, t: string, i: nat, j: int)
    requires NoBraces(p) && FirstAt(t, '{', i) && LastAt(t, '}', j)
    ensures FirstAt(p + t, '{', |p| + i) && LastAt(p + t, '}', if j < 0 then -1 else |p| + j)
  {
  }

  lemma SameBraces(t: string, q: string, i: nat, j: int)
    requires NoBraces(q) && FirstAt(t, '{', i) && LastAt(t, '}', j)
    ensures FirstAt(t + q, '{', if i < |t| then i else |t + q|) && LastAt(t + q, '}', j)
  {
  }

  /** Text without braces in front of a text does not change its object. */
  lemma DropFront(p: string, t: string)
    requires NoBraces(p)
    ensures ObjectText(p + t) == ObjectText(t)
  {
    var i, j := Locate(t);
    ShiftedBraces(p, t, i, j);
    ObjectAt(t, i, j);
    ObjectAt(p + t, |p| + i, if j < 0 then -1 else |p| + j);
    if i < |t| && j > i {
      SliceBehind(p, t, i, j + 1);
    }
  }

  lemma SliceBehind(p: string, t: string, i: nat, j: nat)
    requires i <= j <= |t|
    ensures (p + t)[|p| + i..|p| + j] == t[i..j]
  {
  }

  /** Nor does such text behind it. */
  lemma DropBack(t: string, q: string)
    requires NoBraces(q)
    ensures ObjectText(t + q) == ObjectText(t)
  {
    var i, j := Locate(t);
    SameBraces(t, q, i, j);
    ObjectAt(t, i, j);
    ObjectAt(t + q, if i < |t| then i else |t + q|, j);
    if i < |t| && j > i {
      assert (t + q)[i..j + 1] == t[i..j + 1];
    }
  }

  lemma SpaceAtFrontHasNoBraces(s: string)
    ensures NoBraces(s[..SpaceAtFront(s)])
  {
    forall k | 0 <= k < SpaceAtFront(s) ensures s[k] != '{' && s[k] != '}' {
      assert k == 0 || k == 1 || k == 2;
    }
  }

  lemma SpaceAtEndHasNoBraces(s: string)
    ensures NoBraces(s[|s| - SpaceAtEnd(s)..])
  {
    var from := |s| - SpaceAtEnd(s);
    forall k | from <= k < |s| ensures s[k] != '{' && s[k] != '}' {
      assert k == |s| - 1 || k == |s| - 2 || k == |s| - 3;
    }
  }

  lemma {:induction false} TrimLeftKeepsObject(s: string)
    ensures ObjectText(TrimLeft(s)) == ObjectText(s)
    decreases |s|
  {
    var n := SpaceAtFront(s);
    if n > 0 {
      SpaceAtFrontHasNoBraces(s);
      assert s == s[..n] + s[n..];
      DropFront(s[..n], s[n..]);
      TrimLeftKeepsObject(s[n..]);
    }
  }

  lemma {:induction false} TrimRightKeepsObject(s: string)
    ensures ObjectText(TrimRight(s)) == ObjectText(s)
    decreases |s|
  {
    var n := SpaceAtEnd(s);
    if n > 0 {
      var k := |s| - n;
      SpaceAtEndHasNoBraces(s);
      assert s == s[..k] + s[k..];
      DropBack(s[..k], s[k..]);
      TrimRightKeepsObject(s[..|s| - n]);
    }
  }

  lemma TrimSpaceKeepsObject(s: string)
    ensures ObjectText(TrimSpace(s)) == ObjectText(s)
  {
    TrimLeftKeepsObject(s);
    TrimRightKeepsObject(TrimLeft(s));
  }

  lemma TrimPrefixKeepsObject(s: string, prefix: string)
    requires NoBraces(prefix)
    ensures ObjectText(TrimPrefix(s, prefix)) == ObjectText(s)
  {
    if HasPrefix(s, prefix) {
      assert s == prefix + s[|prefix|..];
      DropFront(prefix, s[|prefix|..]);
    }
  }

  lemma TrimSuffixKeepsObject(s: string, suffix: string)
    requires NoBraces(suffix)
    ensures ObjectText(TrimSuffix(s, suffix)) == ObjectText(s)
  {
    if HasSuffix(s, suffix) {
      var k := |s| - |suffix|;
      assert s == s[..k] + suffix;
      DropBack(s[..k], suffix);
    }
  }

  lemma TrimFencesKeepsObject(s: string)
    ensures ObjectText(TrimFences(s)) == ObjectText(s)
  {
    assert NoBraces(JSON_FENCE) && NoBraces(FENCE);
    var a := TrimPrefix(s, JSON_FENCE);
    var b := TrimPrefix(a, FENCE);
    TrimPrefixKeepsObject(s, JSON_FENCE);
    TrimPrefixKeepsObject(a, FENCE);
    TrimSuffixKeepsObject(b, FENCE);
  }

  /** For every text, the trimming never matters: the judge's output is read as the object from its
      first opening brace to its last closing one, whatever fences or prose surround it, and is
      rejected exactly when there is no such object or it does not unmarshal. */
  lemma JudgeOutputIsOutermostObject(unmarshal: Unmarshal, text: string)
    ensures ParseJudgeOutput(unmarshal, text)
         == match ObjectText(text)
            case None => None
            case Some(body) => unmarshal(body)
  {
    TrimSpaceKeepsObject(text);
    TrimFencesKeepsObject(TrimSpace(text));
    TrimSpaceKeepsObject(TrimFences(TrimSpace(text)));
  }

  // ---------- The call ----------

  predicate Asks(m: Message) { m.role == "user" && m.content != "" }

  function LastUserUpTo(messages: seq<Message>, n: nat): string
    requires n <= |messages|
  {
    if n == 0 then "" else if Asks(messages[n - 1]) then messages[n - 1].content else LastUserUpTo(messages, n - 1)
  }

  /** The text is that of the last user message with any among the first n, or empty if there is none. */
  ghost predicate LastAsked(messages: seq<Message>, n: nat, text: string)
    requires n <= |messages|
  {
    || (exists i :: 0 <= i < n && messages[i].role == "user" && text == messages[i].content != ""
                    && forall j :: i < j < n ==> messages[j].role != "user" || messages[j].content == "")
    || ((forall j :: 0 <= j < n ==> messages[j].role != "user" || messages[j].content == "") && text == "")
  }

  lemma {:induction false} LastUserIsLastAsked(messages: seq<Message>, n: nat)
    requires n <= |messages|
    ensures LastAsked(messages, n, LastUserUpTo(messages, n))
  {
    if n > 0 && !Asks(messages[n - 1]) {
      LastUserIsLastAsked(messages, n - 1);
    }
  }

  method LastUserContent(messages: seq<Message>) returns (text: string)
    ensures text == LastUserUpTo(messages, |messages|) && LastAsked(messages, |messages|, text)
  {
    LastUserIsLastAsked(messages, |messages|);
    var i := |messages| - 1;
    while i >= 0
      invariant -1 <= i < |messages|
      invariant LastUserUpTo(messages, i + 1) == LastUserUpTo(messages, |messages|)
    {
      if messages[i].role == "user" && messages[i].content != "" {
        return messages[i].content;
      }
      i := i - 1;
    }
    text := "";
  }

  /** The wording around the judge's inputs is not modelled, only that there is some. */
  const JUDGE_SYSTEM_PROMPT := "compare, do not merge"
  const STRICTER := "\n\nonly a JSON object"

  /** Answers are labelled Model A, Model B and so on by their position. */
  function PanelHeading(i: nat, m: MemberResult): string {
    "=== Model " + RuneText('A' as nat + i) + " (" + m.endpoint.provider + "/" + m.endpoint.model + ") ===\n"
  }

  function AnswerOf(m: MemberResult): string {
    if m.response.Some? then m.response.value.content else ""
  }

  function PanelSection(i: nat, m: MemberResult): string {
    PanelHeading(i, m) + AnswerOf(m) + "\n\n"
  }

  /** The sections of the first n answers. */
  function PanelSections(successes: seq<MemberResult>, n: nat): string
    requires n <= |successes|
  {
    if n == 0 then "" else PanelSections(successes, n - 1) + PanelSection(n - 1, successes[n - 1])
  }

  function JudgeUserPrompt(messages: seq<Message>, successes: seq<MemberResult>): string {
    PanelIntro(messages) + PanelSections(successes, |successes|)
  }

  function PanelIntro(messages: seq<Message>): string {
    "Original task (final user message):\n" + LastUserUpTo(messages, |messages|) + "\n\nPanel responses:\n\n"
  }

  method BuildJudgeUserPrompt(messages: seq<Message>, successes: seq<MemberResult>) returns (prompt: string)
    ensures prompt == JudgeUserPrompt(messages, successes)
  {
    var task := LastUserContent(messages);
    var sections := "";
    for i := 0 to |successes|
      invariant sections == PanelSections(successes, i)
    {
      sections := sections + PanelSection(i, successes[i]);
    }
    prompt := "Original task (final user message):\n" + task + "\n\nPanel responses:\n\n" + sections;
  }

  lemma {:induction false} SectionsOfFront(successes: seq<MemberResult>, i: nat, n: nat)
    requires n <= i <= |successes|
    ensures PanelSections(successes[..i], n) == PanelSections(successes, n)
  {
    if n > 0 {
      SectionsOfFront(successes, i, n - 1);
    }
  }

  lemma {:induction false} SectionsBehind(successes: seq<MemberResult>, i: nat, n: nat) returns (rest: string)
    requires i <= n <= |successes|
    ensures PanelSections(successes, n) == PanelSections(successes, i) + rest
  {
    if i == n {
      rest := "";
      assert PanelSections(successes, n) + rest == PanelSections(successes, n);
    } else {
      var front := SectionsBehind(successes, i, n - 1);
      rest := front + PanelSection(n - 1, successes[n - 1]);
      JoinsLeft(PanelSections(successes, i), front, PanelSection(n - 1, successes[n - 1]));
    }
  }

  lemma JoinsLeft(a: string, b: string, c: string)
    ensures a + b + c == a + (b + c)
  {
  }

  /** The judge reads every answer it is to compare, whole and under the heading of its position, behind
      the answers before it. */
  lemma JudgeReadsEveryAnswer(messages: seq<Message>, successes: seq<MemberResult>, i: nat) returns (rest: string)
    requires i < |successes|
    ensures JudgeUserPrompt(messages, successes)
         == JudgeUserPrompt(messages, successes[..i]) + PanelHeading(i, successes[i]) + AnswerOf(successes[i]) + rest
  {
    SectionsOfFront(successes, i, i);
    var later := SectionsBehind(successes, i + 1, |successes|);
    rest := Regrouped(PanelIntro(messages), PanelSections(successes, i), PanelHeading(i, successes[i]),
                      AnswerOf(successes[i]), later);
  }

  /** What the judge is to read of the i-th answer: its letter, who gave it, and all of it. */
  function Labelled(i: nat, m: MemberResult): (piece: string) {
    "Model " + RuneText('A' as nat + i) + " (" + m.endpoint.provider + "/" + m.endpoint.model + ") ===\n"
    + (if m.response.Some? then m.response.value.content else "")
  }

  function LabelledUpTo(successes: seq<MemberResult>, n: nat): (pieces: seq<string>)
    requires n <= |successes|
    ensures |pieces| == n && forall i :: 0 <= i < n ==> pieces[i] == Labelled(i, successes[i])
  {
    seq(n, i requires 0 <= i < n => Labelled(i, successes[i]))
  }

  /** The prompt shows the last user content, and behind it every answer, whole and in order. */
  ghost predicate ShowsAll(prompt: string, messages: seq<Message>, successes: seq<MemberResult>) {
    exists task :: LastAsked(messages, |messages|, task)
                   && StandInOrder([task] + LabelledUpTo(successes, |successes|), prompt)
  }

  lemma {:induction false} SectionsShow(intro: string, task: string, successes: seq<MemberResult>, n: nat)
    requires n <= |successes| && StandInOrder([task], intro)
    ensures StandInOrder([task] + LabelledUpTo(successes, n), intro + PanelSections(successes, n))
  {
    if n == 0 {
      assert intro + "" == intro && [task] + LabelledUpTo(successes, 0) == [task];
    } else {
      var k := n - 1;
      SectionsShow(intro, task, successes, k);
      SectionIsLabelled(k, successes[k]);
      OnePieceMore([task] + LabelledUpTo(successes, k), intro + PanelSections(successes, k), "=== ",
                   Labelled(k, successes[k]), "\n\n");
      PiecesGrow(task, LabelledUpTo(successes, k), Labelled(k, successes[k]), LabelledUpTo(successes, n));
      JoinsLeft(intro, PanelSections(successes, k), PanelSection(k, successes[k]));
    }
  }

  lemma PiecesGrow(task: string, before: seq<string>, piece: string, after: seq<string>)
    requires after == before + [piece]
    ensures [task] + before + [piece] == [task] + after
  {
  }

  lemma SectionIsLabelled(i: nat, m: MemberResult)
    ensures PanelSection(i, m) == "=== " + Labelled(i, m) + "\n\n"
  {
    var rest := RuneText('A' as nat + i) + " (" + m.endpoint.provider + "/" + m.endpoint.model + ") ===\n";
    assert PanelHeading(i, m) == "=== Model " + rest;
    assert Labelled(i, m) == "Model " + rest + AnswerOf(m);
    assert "=== Model " == "=== " + "Model ";
    ModelHeading(rest, AnswerOf(m));
  }

  lemma ModelHeading(rest: string, answer: string)
    ensures "=== " + "Model " + rest + answer + "\n\n" == "=== " + ("Model " + rest + answer) + "\n\n"
  {
  }

  lemma PromptShowsAll(messages: seq<Message>, successes: seq<MemberResult>)
    ensures ShowsAll(JudgeUserPrompt(messages, successes), messages, successes)
  {
    var task := LastUserUpTo(messages, |messages|);
    LastUserIsLastAsked(messages, |messages|);
    TaskStands(task);
    SectionsShow(PanelIntro(messages), task, successes, |successes|);
  }

  lemma TaskStands(task: string)
    ensures StandInOrder([task], "Original task (final user message):\n" + task + "\n\nPanel responses:\n\n")
  {
    var (before, after) := ("Original task (final user message):\n", "\n\nPanel responses:\n\n");
    OnePieceMore([], "", before, task, after);
    assert [] + [task] == [task] && "" + (before + task + after) == before + task + after;
  }

  /** Whatever endpoints they name, no two positions share a heading, as long as their letters can be
      encoded. */
  lemma HeadingsDiffer(i: nat, m: MemberResult, x: string, j: nat, m': MemberResult, y: string)
    requires i != j && Encodable('A' as nat + i) && Encodable('A' as nat + j)
    ensures PanelHeading(i, m) + x != PanelHeading(j, m') + y
  {
    if PanelHeading(i, m) + x == PanelHeading(j, m') + y {
      var p := HeadingText('A' as nat + i, m, x);
      var q := HeadingText('A' as nat + j, m', y);
      RuneReads('A' as nat + i, 'A' as nat + j, p, q);
    }
  }

  /** A heading's letter starts its eleventh byte. */
  lemma HeadingText(letter: nat, m: MemberResult, x: string) returns (rest: string)
    requires letter >= 'A' as nat
    ensures |PanelHeading(letter - 'A' as nat, m) + x| >= 10
    ensures (PanelHeading(letter - 'A' as nat, m) + x)[10..] == RuneText(letter) + rest
  {
    rest := " (" + m.endpoint.provider + "/" + m.endpoint.model + ") ===\n" + x;
    assert PanelHeading(letter - 'A' as nat, m) + x == "=== Model " + (RuneText(letter) + rest);
  }

  lemma Regrouped(intro: string, earlier: string, heading: string, answer: string, later: string) returns (rest: string)
    ensures intro + (earlier + (heading + answer + "\n\n") + later) == (intro + earlier) + heading + answer + rest
  {
    rest := "\n\n" + later;
  }

  function ChatMessage(role: string, content: string): Message {
    Message(role, content, [], "", "", false)
  }

  function JudgeRequest(ep: Endpoint, messages: seq<Message>, successes: seq<MemberResult>): CompletionRequest {
    JudgeRequestFor(ep, JudgeUserPrompt(messages, successes))
  }

  function JudgeRequestFor(ep: Endpoint, prompt: string): CompletionRequest {
    CompletionRequest(
      ep.model,
      [ChatMessage("system", JUDGE_SYSTEM_PROMPT), ChatMessage("user", prompt)],
      [], "", ep.temperature, None, None, [], Some("json_object"), false)
  }

  /** The second attempt: the same request with a stricter system message. */
  function Stricter(req: CompletionRequest): CompletionRequest
    requires req.messages != []
  {
    var system := req.messages[0];
    req.(messages := req.messages[0 := system.(content := system.content + STRICTER)])
  }

  /** A request that puts the whole comparison to the judge's model, and asks for nothing but JSON. */
  ghost predicate AsksJudge(req: CompletionRequest, ep: Endpoint, messages: seq<Message>,
                            successes: seq<MemberResult>)
  {
    && |req.messages| == 2
    && req.messages[0].role == "system" && |req.messages[0].content| > 0
    && req.messages[1].role == "user" && ShowsAll(req.messages[1].content, messages, successes)
    && req.model == ep.model && req.temperature == ep.temperature
    && req.maxTokens.None? && req.topP.None? && req.stop == []
    && req.tools == [] && req.toolChoice == "" && req.responseFormat == Some("json_object") && !req.cachePrefix
  }

  /** The same request but for a stricter word at the end of its first message. */
  ghost predicate Insists(req: CompletionRequest, first: CompletionRequest) {
    && |req.messages| == |first.messages| == 2
    && req == first.(messages := req.messages) && req.messages[1] == first.messages[1]
    && req.messages[0] == first.messages[0].(content := req.messages[0].content)
    && first.messages[0].content < req.messages[0].content
  }

  lemma JudgeRequestAsks(ep: Endpoint, messages: seq<Message>, successes: seq<MemberResult>)
    ensures var req := JudgeRequest(ep, messages, successes);
            AsksJudge(req, ep, messages, successes) && Insists(Stricter(req), req)
  {
    PromptShowsAll(messages, successes);
  }

  /** The calls of one comparison: all to the judge's own provider, the first with the whole comparison,
      the second, if there is one, the same and more insistent. */
  ghost predicate Comparison(calls: seq<Exchange>, registry: Registry, upstream: Upstream, ep: Endpoint,
                             messages: seq<Message>, successes: seq<MemberResult>)
  {
    && |calls| <= 2
    && (forall k :: 0 <= k < |calls| ==>
          && calls[k].Completed? && calls[k].phase == JudgeCall(k + 1) && Replied(upstream, calls[k])
          && ep.provider in registry && calls[k].provider == registry[ep.provider])
    && (calls != [] ==> AsksJudge(calls[0].request, ep, messages, successes))
    && (|calls| == 2 ==> Insists(calls[1].request, calls[0].request))
  }

  lemma JudgeCompares(registry: Registry, upstream: Upstream, unmarshal: Unmarshal, ep: Endpoint,
                      messages: seq<Message>, successes: seq<MemberResult>)
    ensures Comparison(JudgeResult(registry, upstream, unmarshal, ep, messages, successes).calls, registry,
                       upstream, ep, messages, successes)
  {
    if ep.provider in registry {
      var provider, req := registry[ep.provider], JudgeRequest(ep, messages, successes);
      var (first, second) := (Ask(upstream, provider, JudgeCall(1), req),
                              Ask(upstream, provider, JudgeCall(2), Stricter(req)));
      JudgeRequestAsks(ep, messages, successes);
      OneOrBoth(Reader(unmarshal), first, second);
      OneCompares(registry, upstream, ep, messages, successes, first, second);
    }
  }

  lemma OneOrBoth(parse: Unmarshal, first: Exchange, second: Exchange)
    requires first.Completed? && second.Completed?
    ensures var calls := Verdict(parse, first, second).calls; calls == [first] || calls == [first, second]
  {
  }

  lemma OneCompares(registry: Registry, upstream: Upstream, ep: Endpoint, messages: seq<Message>,
                    successes: seq<MemberResult>, first: Exchange, second: Exchange)
    requires Replied(upstream, first) && Replied(upstream, second)
    requires first.Completed? && first.phase == JudgeCall(1) && second.Completed? && second.phase == JudgeCall(2)
    requires ep.provider in registry && first.provider == registry[ep.provider] == second.provider
    requires AsksJudge(first.request, ep, messages, successes) && Insists(second.request, first.request)
    ensures Comparison([first], registry, upstream, ep, messages, successes)
    ensures Comparison([first, second], registry, upstream, ep, messages, successes)
  {
  }

  datatype JudgeOutcome = JudgeOutcome(
    analysis: Option<JudgeAnalysis>, usage: Usage, err: Option<Failure>, calls: seq<Exchange>)

  function Reader(unmarshal: Unmarshal): Unmarshal {
    text => ParseJudgeOutput(unmarshal, text)
  }

  /** What one judge call amounts to: an analysis, or the reason there is none. */
  function Reading(parse: Unmarshal, call: Exchange): (Option<JudgeAnalysis>, Failure)
    requires call.Completed?
  {
    match call.reply
    case Failed(e) => (None, e)
    case Nothing => (None, NoResponse)
    case Answered(r) => (parse(r.content), BadJudgeOutput)
  }

  /** The outcome of a first call and, when that one answered without being readable, a second. */
  function Verdict(parse: Unmarshal, first: Exchange, second: Exchange): JudgeOutcome
    requires first.Completed? && second.Completed?
  {
    var (a1, e1) := Reading(parse, first);
    if a1.Some? || !first.reply.Answered? then
      JudgeOutcome(a1, UsageOf(first), if a1.Some? then None else Some(e1), [first])
    else
      var (a2, e2) := Reading(parse, second);
      JudgeOutcome(a2, UsageOf(first).Add(UsageOf(second)), if a2.Some? then None else Some(e2), [first, second])
  }

  function JudgeResult(registry: Registry, upstream: Upstream, unmarshal: Unmarshal, ep: Endpoint,
                       messages: seq<Message>, successes: seq<MemberResult>): JudgeOutcome
  {
    if ep.provider !in registry then JudgeOutcome(None, NO_USAGE, Some(NotRegistered(ep.provider)), [])
    else
      var provider, req := registry[ep.provider], JudgeRequest(ep, messages, successes);
      Verdict(Reader(unmarshal), Ask(upstream, provider, JudgeCall(1), req),
              Ask(upstream, provider, JudgeCall(2), Stricter(req)))
  }

  method RunJudge(registry: Registry, upstream: Upstream, unmarshal: Unmarshal, ep: Endpoint,
                  messages: seq<Message>, successes: seq<MemberResult>) returns (out: JudgeOutcome)
    ensures out == JudgeResult(registry, upstream, unmarshal, ep, messages, successes)
    ensures Comparison(out.calls, registry, upstream, ep, messages, successes)
  {
    JudgeCompares(registry, upstream, unmarshal, ep, messages, successes);
    if ep.provider !in registry {
      return JudgeOutcome(None, NO_USAGE, Some(NotRegistered(ep.provider)), []);
    }
    var provider := registry[ep.provider];
    var prompt := BuildJudgeUserPrompt(messages, successes);
    var req := JudgeRequestFor(ep, prompt);
    var first := Ask(upstream, provider, JudgeCall(1), req);
    out := JudgeTwice(upstream, provider, Reader(unmarshal), first, Stricter(req));
  }

  lemma VerdictOnRetry(parse: Unmarshal, first: Exchange, second: Exchange)
    requires first.Completed? && second.Completed? && first.reply.Answered?
    requires parse(first.reply.response.content).None?
    ensures var (a, e) := Reading(parse, second);
            Verdict(parse, first, second)
            == JudgeOutcome(a, first.reply.response.usage.Add(UsageOf(second)), if a.Some? then None else Some(e),
                            [first, second])
  {
  }

  /** Reads the first answer and asks once more, strictly, if that answer was not readable. */
  method JudgeTwice(upstream: Upstream, provider: Provider, parse: Unmarshal, first: Exchange,
                    stricter: CompletionRequest) returns (out: JudgeOutcome)
    requires first.Completed?
    ensures out == Verdict(parse, first, Ask(upstream, provider, JudgeCall(2), stricter))
  {
    if !first.reply.Answered? {
      return JudgeOutcome(None, NO_USAGE, Some(if first.reply.Failed? then first.reply.failure else NoResponse),
                          [first]);
    }
    var usage := first.reply.response.usage;
    var analysis := parse(first.reply.response.content);
    if analysis.Some? {
      return JudgeOutcome(analysis, usage, None, [first]);
    }
    var retry := Ask(upstream, provider, JudgeCall(2), stricter);
    VerdictOnRetry(parse, first, retry);
    usage := usage.Add(UsageOf(retry));
    var (a, e) := Reading(parse, retry);
    out := JudgeOutcome(a, usage, if a.Some? then None else Some(e), [first, retry]);
  }

  /** What the verdict's calls and their order come to, whatever reads the answers. */
  ghost predicate TwiceAtMost(parse: Unmarshal, out: JudgeOutcome, first: Exchange, second: Exchange)
    requires first.Completed? && second.Completed?
  {
    var again := first.reply.Answered? && parse(first.reply.response.content).None?;
    var last := if again then second else first;
    && out.calls == (if again then [first, second] else [first])
    && out.usage == SumOf(UsageOf, out.calls)
    && out.analysis == (if last.reply.Answered? then parse(last.reply.response.content) else None)
    && (out.err.None? <==> out.analysis.Some?)
    && (out.analysis.None? ==> FailsFor(out.err.value, last.reply))
  }

  /** Why a reply is no analysis. */
  predicate FailsFor(e: Failure, reply: Reply) {
    match reply
    case Failed(cause) => e == cause
    case Nothing => e == NoResponse
    case Answered(_) => e == BadJudgeOutput
  }

  lemma VerdictAsksTwiceAtMost(parse: Unmarshal, first: Exchange, second: Exchange)
    requires first.Completed? && second.Completed?
    ensures TwiceAtMost(parse, Verdict(parse, first, second), first, second)
  {
    SumOfOne(UsageOf, first);
    SumOfTwo(first, second);
  }

  lemma SumOfTwo(first: Exchange, second: Exchange)
    ensures SumOf(UsageOf, [first, second]) == UsageOf(first).Add(UsageOf(second))
  {
    assert [first, second][1..] == [second];
    SumOfOne(UsageOf, second);
  }

  /** For every upstream: a registered judge is asked, and asked once more, strictly, exactly when its
      first answer came and was not readable; the analysis is what its last answer reads as, there is an
      error exactly when there is none, and no usage is lost. An unregistered judge is never asked. */
  lemma JudgeAsksTwiceAtMost(registry: Registry, upstream: Upstream, unmarshal: Unmarshal, ep: Endpoint,
                             messages: seq<Message>, successes: seq<MemberResult>)
    ensures var out := JudgeResult(registry, upstream, unmarshal, ep, messages, successes);
            if ep.provider in registry then
              var provider, req := registry[ep.provider], JudgeRequest(ep, messages, successes);
              TwiceAtMost(Reader(unmarshal), out, Ask(upstream, provider, JudgeCall(1), req),
                          Ask(upstream, provider, JudgeCall(2), Stricter(req)))
            else out == JudgeOutcome(None, NO_USAGE, Some(NotRegistered(ep.provider)), [])
  {
    if ep.provider in registry {
      var provider, req := registry[ep.provider], JudgeRequest(ep, messages, successes);
      VerdictAsksTwiceAtMost(Reader(unmarshal), Ask(upstream, provider, JudgeCall(1), req),
                             Ask(upstream, provider, JudgeCall(2), Stricter(req)));
    }
  }
}

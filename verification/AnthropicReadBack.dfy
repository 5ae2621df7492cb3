/** What a built Anthropic request says, read back from its own fields
    (internal/providers/anthropic.go:158-384). */
module AnthropicReadBack {
  import opened Wrappers
  import opened Seqs
  import opened Text
  import opened Providers
  import opened AnthropicRequest

  // ---------- Messages ----------

  predicate IsText(b: ContentBlock, text: string) {
    && b.kind == "text" && b.text == text
    && b.id == "" && b.name == "" && b.input == "" && b.toolUseID == "" && b.content == ""
  }

  /** Arguments as they are sent: as they are, or an empty object for none. */
  predicate SentFor(input: string, arguments: string) {
    if TrimSpace(arguments) == "" then input == "{}" else input == arguments
  }

  predicate IsToolUse(b: ContentBlock, tc: ToolCall) {
    && b.kind == "tool_use" && b.id == tc.id && b.name == tc.name && SentFor(b.input, tc.arguments)
    && b.text == "" && b.toolUseID == "" && b.content == ""
  }

  predicate IsToolResult(b: ContentBlock, id: string, quoted: string) {
    && b.kind == "tool_result" && b.toolUseID == id && b.content == quoted
    && b.text == "" && b.id == "" && b.name == "" && b.input == ""
  }

  /** A message of the conversation and what is sent for it. */
  predicate Renders(codec: Codec, m: Message, r: RequestMessage) {
    || (m.role == "user" && r.role == "user" && |r.content| == 1 && IsText(r.content[0], m.content))
    || (m.role == "tool" && r.role == "user" && |r.content| == 1
        && IsToolResult(r.content[0], m.toolCallID, codec.quote(m.content)))
    || (m.role == "assistant" && r.role == "assistant" && IsAnswer(r.content, m.content, m.toolCalls))
  }

  /** A block for the text, if there is any, and one for each tool call. */
  predicate IsAnswer(bs: seq<ContentBlock>, text: string, tcs: seq<ToolCall>) {
    if |text| > 0 then |bs| > 0 && IsText(bs[0], text) && AreToolUses(bs[1..], tcs) else AreToolUses(bs, tcs)
  }

  predicate AreToolUses(bs: seq<ContentBlock>, tcs: seq<ToolCall>) {
    |bs| == |tcs| && forall k :: 0 <= k < |tcs| ==> IsToolUse(bs[k], tcs[k])
  }

  lemma ToolUseIsOne(tc: ToolCall)
    ensures IsToolUse(ToolUse(tc), tc)
  {
  }

  lemma AnswerIsOne(text: string, tcs: seq<ToolCall>)
    ensures IsAnswer((if text != "" then [TextBlock(text)] else []) + ToolUses(tcs), text, tcs)
  {
    var uses := ToolUses(tcs);
    forall k | 0 <= k < |tcs| ensures IsToolUse(uses[k], tcs[k]) {
      ToolUseIsOne(tcs[k]);
    }
    assert [] + uses == uses && ([TextBlock(text)] + uses)[1..] == uses;
  }

  lemma TranslatedRenders(codec: Codec, m: Message)
    requires Supported(m)
    ensures Renders(codec, m, Translated(codec, m))
  {
    if m.role == "assistant" {
      AnswerIsOne(m.content, m.toolCalls);
    }
  }

  /** The message that carries the cache marker: the last one flagged, or the last one if none is. */
  predicate Breaks(msgs: seq<Message>, i: int) {
    && 0 <= i < |msgs|
    && (forall k :: i < k < |msgs| ==> !msgs[k].cacheBreakpoint)
    && (msgs[i].cacheBreakpoint || (i == |msgs| - 1 && forall k :: 0 <= k < |msgs| ==> !msgs[k].cacheBreakpoint))
  }

  lemma {:induction false} BreakpointBreaks(msgs: seq<Message>, n: nat)
    requires n <= |msgs| && forall k :: n <= k < |msgs| ==> !msgs[k].cacheBreakpoint
    ensures msgs != [] ==> Breaks(msgs, BreakpointUpTo(msgs, n))
    ensures msgs == [] ==> BreakpointUpTo(msgs, n) == -1
  {
    if n > 0 && !msgs[n - 1].cacheBreakpoint {
      BreakpointBreaks(msgs, n - 1);
    }
  }

  lemma OneBreak(msgs: seq<Message>, i: int, j: int)
    requires Breaks(msgs, i) && Breaks(msgs, j)
    ensures i == j
  {
  }

  /** The marker stands on the last block of that message, if caching is on, and nowhere else. */
  predicate MarkerRight(rest: seq<Message>, rs: seq<RequestMessage>, cachePrefix: bool) {
    forall i, j :: 0 <= i < |rs| && 0 <= j < |rs[i].content| ==>
      (rs[i].content[j].cacheControl <==> cachePrefix && Breaks(rest, i) && j == |rs[i].content| - 1)
  }

  predicate RendersAll(codec: Codec, rest: seq<Message>, rs: seq<RequestMessage>) {
    |rs| == |rest| && forall k :: 0 <= k < |rs| ==> Renders(codec, rest[k], rs[k])
  }

  function LastMarked(bs: seq<ContentBlock>): seq<ContentBlock>
    requires bs != []
  {
    bs[|bs| - 1 := bs[|bs| - 1].(cacheControl := true)]
  }

  lemma MarkedStillAnswers(bs: seq<ContentBlock>, text: string, tcs: seq<ToolCall>)
    requires bs != [] && IsAnswer(bs, text, tcs)
    ensures IsAnswer(LastMarked(bs), text, tcs)
  {
    var rest := bs[1..];
    if |text| == 0 {
      MarkedStillUses(bs, tcs);
    } else if rest == [] {
      assert LastMarked(bs)[1..] == [];
    } else {
      MarkedStillUses(rest, tcs);
      assert LastMarked(bs)[1..] == LastMarked(rest);
    }
  }

  lemma MarkedStillUses(bs: seq<ContentBlock>, tcs: seq<ToolCall>)
    requires bs != [] && AreToolUses(bs, tcs)
    ensures AreToolUses(LastMarked(bs), tcs)
  {
    var use := (b: ContentBlock, k: nat) => k < |tcs| && IsToolUse(b, tcs[k]);
    forall b, k: nat | use(b, k) ensures use(b.(cacheControl := true), k) {
      MarkedStillUse(b, tcs[k]);
    }
    LastMarkedStill(bs, use);
    assert forall k: nat :: k < |tcs| ==> use(LastMarked(bs)[k], k);
  }

  lemma MarkedStillUse(b: ContentBlock, tc: ToolCall)
    requires IsToolUse(b, tc)
    ensures IsToolUse(b.(cacheControl := true), tc)
  {
  }

  /** What a marker leaves alone holds of marked blocks as of others. */
  lemma LastMarkedStill(bs: seq<ContentBlock>, holds: (ContentBlock, nat) -> bool)
    requires bs != [] && forall b, k :: holds(b, k) ==> holds(b.(cacheControl := true), k)
    requires forall k: nat :: k < |bs| ==> holds(bs[k], k)
    ensures forall k: nat :: k < |bs| ==> holds(LastMarked(bs)[k], k)
  {
  }

  /** A marker changes nothing else of a message. */
  lemma MarkedStillRenders(codec: Codec, m: Message, r: RequestMessage)
    requires Renders(codec, m, r) && r.content != []
    ensures Renders(codec, m, r.(content := LastMarked(r.content)))
  {
    if m.role == "assistant" {
      MarkedStillAnswers(r.content, m.content, m.toolCalls);
    }
  }

  lemma MarkRenders(codec: Codec, rest: seq<Message>, rs: seq<RequestMessage>, idx: int)
    requires RendersAll(codec, rest, rs)
    ensures RendersAll(codec, rest, Mark(rs, idx))
  {
    if 0 <= idx < |rs| && rs[idx].content != [] {
      MarkedStillRenders(codec, rest[idx], rs[idx]);
    }
  }

  lemma BreaksOnlyThere(msgs: seq<Message>)
    ensures forall i :: 0 <= i < |msgs| ==> (Breaks(msgs, i) <==> i == BreakpointIndex(msgs))
  {
    BreakpointBreaks(msgs, |msgs|);
    forall i | 0 <= i < |msgs| && Breaks(msgs, i) ensures i == BreakpointIndex(msgs) {
      OneBreak(msgs, i, BreakpointIndex(msgs));
    }
  }

  lemma MarkRight(rest: seq<Message>, rs: seq<RequestMessage>)
    requires |rs| == |rest| && Plain(rs)
    ensures MarkerRight(rest, Mark(rs, BreakpointIndex(rest)), true) && MarkerRight(rest, rs, false)
  {
    BreaksOnlyThere(rest);
  }

  lemma MarkedRenders(codec: Codec, rest: seq<Message>, cachePrefix: bool)
    requires AllSupported(rest)
    ensures RendersAll(codec, rest, MarkedFor(codec, rest, cachePrefix))
    ensures MarkerRight(rest, MarkedFor(codec, rest, cachePrefix), cachePrefix)
  {
    var plain := TranslatedAll(codec, rest);
    forall k | 0 <= k < |plain| ensures Renders(codec, rest[k], plain[k]) {
      TranslatedRenders(codec, rest[k]);
    }
    MarkRenders(codec, rest, plain, BreakpointIndex(rest));
    MarkRight(rest, plain);
  }

  // ---------- System texts and the rest ----------

  predicate IsSpoken(m: Message) { m.role != "system" }

  predicate SaysSystem(m: Message) { m.role == "system" && |m.content| > 0 }

  function Contents(msgs: seq<Message>): (texts: seq<string>)
    ensures |texts| == |msgs|
  {
    seq(|msgs|, i requires 0 <= i < |msgs| => msgs[i].content)
  }

  lemma {:induction false} SplitPicks(msgs: seq<Message>)
    returns (rest: seq<nat>, systems: seq<Message>, at: seq<nat>)
    ensures Picks(Rest(msgs), msgs, IsSpoken, rest)
    ensures Picks(systems, msgs, SaysSystem, at) && Systems(msgs) == Contents(systems)
  {
    if msgs == [] {
      PicksNothing(IsSpoken);
      PicksNothing(SaysSystem);
      return [], [], [];
    }
    var (front, m) := (msgs[..|msgs| - 1], msgs[|msgs| - 1]);
    assert msgs == front + [m];
    rest, systems, at := SplitPicks(front);
    RestSnoc(front, m);
    rest := PicksOn(Rest(front), front, IsSpoken, rest, m);
    at := PicksOn(systems, front, SaysSystem, at, m);
    var systems' := systems + (if SaysSystem(m) then [m] else []);
    assert Contents(systems') == Contents(systems) + SystemText(m);
    systems := systems';
  }

  // ---------- Tools ----------

  predicate IsTool(a: AnthropicTool, t: Tool) {
    && a.name == t.name && a.description == t.description
    && if t.parameters == "" then a.inputSchema == "{\"type\":\"object\",\"properties\":{}}"
       else a.inputSchema == t.parameters
  }

  /** What becomes of a tool choice: it may be refused, take the tools away, or be sent in the API's own
      words; none at all leaves the choice to the model. */
  datatype Choice = Refused | Without | Silent | Sent(text: string)

  function ChoiceOf(codec: Codec, trimmed: string): Choice {
    var read := codec.readToolChoice(trimmed);
    if trimmed == "" then Silent
    else if read == ChoiceText("none") then Without
    else if read == ChoiceText("auto") then Sent("{\"type\":\"auto\"}")
    else if read == ChoiceText("required") then Sent("{\"type\":\"any\"}")
    else if read.ChoiceObject? && read.kind == "function" && read.called != "" then Sent(codec.toolNamed(read.called))
    else if read.ChoiceObject? && ReadyMade(read.kind, read.name) then Sent(trimmed)
    else Refused
  }

  /** A choice in the API's own words already. */
  predicate ReadyMade(kind: string, name: string) {
    kind == "auto" || kind == "any" || (kind == "tool" && name != "")
  }

  /** The tools, each with its own name, description and schema, and the choice among them. */
  predicate Offers(choice: Choice, tools: seq<Tool>, sent: seq<AnthropicTool>, said: string) {
    && !choice.Refused?
    && if choice.Without? || tools == [] then sent == [] && said == ""
       else
         && |sent| == |tools| && (forall k :: 0 <= k < |sent| ==> IsTool(sent[k], tools[k]))
         && said == if choice.Sent? then choice.text else ""
  }

  // ---------- The whole request ----------

  /** The request says what was asked, message by message and field by field. */
  ghost predicate Says(codec: Codec, req: CompletionRequest, stream: bool, r: MessagesRequest) {
    SaysAs(codec, req, stream, ChoiceOf(codec, TrimSpace(req.toolChoice)), r)
  }

  ghost predicate SaysAs(codec: Codec, req: CompletionRequest, stream: bool, choice: Choice, r: MessagesRequest) {
    && r.model == req.model && r.temperature == req.temperature && r.topP == req.topP
    && r.stopSequences == req.stop && r.stream == stream
    && (req.maxTokens.Some? ==> r.maxTokens == req.maxTokens.value) && (req.maxTokens.None? ==> r.maxTokens == 8192)
    && SaysMessages(codec, req, r) && SaysSystemTexts(req, r) && Offers(choice, req.tools, r.tools, r.toolChoice)
  }

  ghost predicate SaysMessages(codec: Codec, req: CompletionRequest, r: MessagesRequest) {
    exists rest: seq<Message>, at: seq<nat> ::
      && Picks(rest, req.messages, IsSpoken, at)
      && RendersAll(codec, rest, r.messages) && MarkerRight(rest, r.messages, req.cachePrefix)
  }

  ghost predicate SaysSystemTexts(req: CompletionRequest, r: MessagesRequest) {
    exists systems: seq<Message>, at: seq<nat> ::
      Picks(systems, req.messages, SaysSystem, at) && r.system == Join(Contents(systems), "\n\n")
  }

  lemma ChoiceRight(codec: Codec, trimmed: string)
    ensures TranslateTrimmed(codec, trimmed) == Translation(ChoiceOf(codec, trimmed))
  {
  }

  function Translation(c: Choice): Option<(string, bool)> {
    match c
    case Refused => None
    case Without => Some(("", true))
    case Silent => Some(("", false))
    case Sent(text) => Some((text, false))
  }

  lemma ToolsRight(tools: seq<Tool>)
    ensures forall k :: 0 <= k < |tools| ==> IsTool(TranslatedTools(tools)[k], tools[k])
  {
  }

  lemma ChosenTools(choice: Choice, tools: seq<Tool>, said: string, drop: bool)
    requires Translation(choice) == Some((said, drop))
    ensures var sent := !drop && |tools| > 0;
            Offers(choice, tools, if sent then TranslatedTools(tools) else [], if sent then said else "")
  {
    ToolsRight(tools);
  }

  lemma AssembledSays(codec: Codec, req: CompletionRequest, stream: bool, choice: Choice, said: string, drop: bool)
    requires Translation(choice) == Some((said, drop)) && BuildableWith(req, Some((said, drop)))
    ensures SaysAs(codec, req, stream, choice, AssembledWith(codec, req, stream, said, drop))
  {
    var rest, systems, at := SplitPicks(req.messages);
    MarkedRenders(codec, Rest(req.messages), req.cachePrefix);
    ChosenTools(choice, req.tools, said, drop);
  }

  /** What is built says what was asked: every message but the system ones, in order, with its role, its
      text, each of its calls under its own id, name and arguments, and each tool result under the id of
      its call; the system texts, the tools and the sampling parameters; and one marker if caching is on. */
  lemma BuiltSays(codec: Codec, req: CompletionRequest, stream: bool)
    requires Built(codec, req, stream).Some?
    ensures Says(codec, req, stream, Built(codec, req, stream).value)
  {
    var choice := ChoiceOf(codec, TrimSpace(req.toolChoice));
    ChoiceRight(codec, TrimSpace(req.toolChoice));
    var (said, drop) := TranslateToolChoice(codec, req.toolChoice).value;
    AssembledSays(codec, req, stream, choice, said, drop);
  }

  // ---------- What cannot be asked ----------

  predicate KnownRole(m: Message) {
    m.role == "system" || m.role == "user" || m.role == "assistant" || m.role == "tool"
  }

  function SentInput(arguments: string): (input: string)
    ensures SentFor(input, arguments)
  {
    if TrimSpace(arguments) == "" then "{}" else arguments
  }

  /** The arguments of every call an assistant message makes are JSON. */
  predicate CallsValid(codec: Codec, m: Message) {
    m.role == "assistant" ==>
      forall j :: 0 <= j < |m.toolCalls| ==> codec.valid(SentInput(m.toolCalls[j].arguments))
  }

  function SentSchema(t: Tool): (schema: string)
    ensures IsTool(AnthropicTool(t.name, t.description, schema), t)
  {
    if t.parameters == "" then "{\"type\":\"object\",\"properties\":{}}" else t.parameters
  }

  predicate ToolValid(codec: Codec, t: Tool) { t.kind == "function" && codec.valid(SentSchema(t)) }

  /** All there is to ask can be asked: known roles, a choice the API has, and, for what is sent, functions
      with schemas and arguments that are JSON. */
  predicate Askable(codec: Codec, req: CompletionRequest) {
    AskableAs(codec, req, ChoiceOf(codec, TrimSpace(req.toolChoice)))
  }

  predicate AskableAs(codec: Codec, req: CompletionRequest, choice: Choice) {
    MessagesValid(codec, req.messages) && !choice.Refused? && (choice.Without? || ToolsValid(codec, req.tools))
  }

  predicate RawIn(codec: Codec, bs: seq<ContentBlock>) {
    forall j :: 0 <= j < |bs| && bs[j].kind == "tool_use" ==> codec.valid(bs[j].input)
  }

  lemma RawOfUses(codec: Codec, tcs: seq<ToolCall>)
    ensures RawIn(codec, ToolUses(tcs)) <==> forall j :: 0 <= j < |tcs| ==> codec.valid(SentInput(tcs[j].arguments))
  {
    forall j | 0 <= j < |tcs|
      ensures ToolUses(tcs)[j].kind == "tool_use" && ToolUses(tcs)[j].input == SentInput(tcs[j].arguments)
    {
    }
  }

  lemma RawBehindText(codec: Codec, text: string, bs: seq<ContentBlock>)
    ensures RawIn(codec, [TextBlock(text)] + bs) <==> RawIn(codec, bs)
  {
    var all := [TextBlock(text)] + bs;
    assert forall j :: 0 <= j < |bs| ==> all[j + 1] == bs[j];
  }

  lemma RawOfOne(codec: Codec, m: Message)
    requires Supported(m)
    ensures RawIn(codec, Translated(codec, m).content) <==> CallsValid(codec, m)
  {
    if m.role == "assistant" {
      RawOfUses(codec, m.toolCalls);
      RawOfAnswer(codec, m.content, ToolUses(m.toolCalls));
    }
  }

  lemma RawOfAnswer(codec: Codec, text: string, uses: seq<ContentBlock>)
    ensures RawIn(codec, (if text != "" then [TextBlock(text)] else []) + uses) <==> RawIn(codec, uses)
  {
    RawBehindText(codec, text, uses);
    assert [] + uses == uses;
  }

  lemma RawOfAll(codec: Codec, rest: seq<Message>)
    requires AllSupported(rest)
    ensures RawValid(codec, TranslatedAll(codec, rest)) <==> forall k :: 0 <= k < |rest| ==> CallsValid(codec, rest[k])
  {
    var rs := TranslatedAll(codec, rest);
    forall k | 0 <= k < |rest| ensures RawIn(codec, rs[k].content) <==> CallsValid(codec, rest[k]) {
      RawOfOne(codec, rest[k]);
    }
    assert RawValid(codec, rs) <==> forall k :: 0 <= k < |rs| ==> RawIn(codec, rs[k].content);
  }

  lemma SpokenAll(msgs: seq<Message>, p: Message -> bool)
    requires forall m: Message :: m.role == "system" ==> p(m)
    ensures (forall k :: 0 <= k < |Rest(msgs)| ==> p(Rest(msgs)[k])) <==> forall i :: 0 <= i < |msgs| ==> p(msgs[i])
  {
    var at, _, _ := SplitPicks(msgs);
    PicksAll(Rest(msgs), msgs, IsSpoken, at, p);
  }

  lemma RestIsSpoken(msgs: seq<Message>)
    ensures forall k :: 0 <= k < |Rest(msgs)| ==> IsSpoken(Rest(msgs)[k])
  {
    var at, _, _ := SplitPicks(msgs);
    forall k | 0 <= k < |Rest(msgs)| ensures IsSpoken(Rest(msgs)[k]) {
      assert at[k] in at;
    }
  }

  lemma RolesAskable(msgs: seq<Message>)
    ensures AllSupported(Rest(msgs)) <==> forall i :: 0 <= i < |msgs| ==> KnownRole(msgs[i])
  {
    SpokenAll(msgs, KnownRole);
    RestIsSpoken(msgs);
    assert forall k :: 0 <= k < |Rest(msgs)| ==> (KnownRole(Rest(msgs)[k]) <==> Supported(Rest(msgs)[k]));
  }

  lemma CallsAskable(codec: Codec, msgs: seq<Message>, cachePrefix: bool)
    requires AllSupported(Rest(msgs))
    ensures RawValid(codec, MessagesFor(codec, msgs, cachePrefix))
       <==> forall i :: 0 <= i < |msgs| ==> CallsValid(codec, msgs[i])
  {
    var rest := Rest(msgs);
    var valid := (m: Message) => CallsValid(codec, m);
    SpokenAll(msgs, valid);
    RawOfAll(codec, rest);
    MarkKeepsRaw(codec, TranslatedAll(codec, rest), BreakpointIndex(rest));
    assert forall k :: 0 <= k < |rest| ==> (valid(rest[k]) <==> CallsValid(codec, rest[k]));
    assert forall i :: 0 <= i < |msgs| ==> (valid(msgs[i]) <==> CallsValid(codec, msgs[i]));
  }

  lemma SchemaSent(t: Tool)
    ensures TranslatedTool(t).inputSchema == SentSchema(t)
  {
  }

  predicate SchemasValid(codec: Codec, ts: seq<AnthropicTool>) {
    forall k :: 0 <= k < |ts| ==> codec.valid(ts[k].inputSchema)
  }

  predicate ToolsValid(codec: Codec, tools: seq<Tool>) {
    forall k :: 0 <= k < |tools| ==> ToolValid(codec, tools[k])
  }

  predicate OnlyFunctions(tools: seq<Tool>) {
    forall k :: 0 <= k < |tools| ==> tools[k].kind == "function"
  }

  lemma ToolsAskable(codec: Codec, tools: seq<Tool>)
    ensures ToolsValid(codec, tools) <==> OnlyFunctions(tools) && SchemasValid(codec, TranslatedTools(tools))
  {
    forall k | 0 <= k < |tools| ensures TranslatedTools(tools)[k].inputSchema == SentSchema(tools[k]) {
      SchemaSent(tools[k]);
    }
  }

  /** What it takes to build a request whose tool choice can be translated. */
  predicate PartsAskable(codec: Codec, req: CompletionRequest, drop: bool) {
    && AllSupported(Rest(req.messages))
    && RawValid(codec, MessagesFor(codec, req.messages, req.cachePrefix))
    && (drop || (OnlyFunctions(req.tools) && SchemasValid(codec, TranslatedTools(req.tools))))
  }

  lemma MarshalsParts(codec: Codec, req: CompletionRequest, stream: bool, said: string, drop: bool)
    ensures Marshals(codec, AssembledWith(codec, req, stream, said, drop))
       <==> RawValid(codec, MessagesFor(codec, req.messages, req.cachePrefix))
            && (drop || SchemasValid(codec, TranslatedTools(req.tools)))
  {
    var r := AssembledWith(codec, req, stream, said, drop);
    assert Marshals(codec, r) <==> RawValid(codec, r.messages) && SchemasValid(codec, r.tools);
  }

  predicate MessagesValid(codec: Codec, msgs: seq<Message>) {
    forall i :: 0 <= i < |msgs| ==> KnownRole(msgs[i]) && CallsValid(codec, msgs[i])
  }

  lemma MessagesAskable(codec: Codec, msgs: seq<Message>, cachePrefix: bool)
    ensures MessagesValid(codec, msgs)
       <==> AllSupported(Rest(msgs)) && RawValid(codec, MessagesFor(codec, msgs, cachePrefix))
  {
    RolesAskable(msgs);
    if AllSupported(Rest(msgs)) {
      CallsAskable(codec, msgs, cachePrefix);
    }
  }

  lemma AskedParts(codec: Codec, req: CompletionRequest, choice: Choice, said: string, drop: bool)
    requires Translation(choice) == Some((said, drop))
    ensures PartsAskable(codec, req, drop) <==> AskableAs(codec, req, choice)
  {
    MessagesAskable(codec, req.messages, req.cachePrefix);
    ToolsAskable(codec, req.tools);
  }

  lemma BuiltParts(codec: Codec, req: CompletionRequest, stream: bool, said: string, drop: bool)
    ensures BuildableWith(req, Some((said, drop))) && Marshals(codec, AssembledWith(codec, req, stream, said, drop))
       <==> PartsAskable(codec, req, drop)
  {
    MarshalsParts(codec, req, stream, said, drop);
  }

  lemma BuiltAs(codec: Codec, req: CompletionRequest, stream: bool, choice: Choice, said: string, drop: bool)
    requires Translation(choice) == Some((said, drop))
    ensures BuildableWith(req, Some((said, drop))) && Marshals(codec, AssembledWith(codec, req, stream, said, drop))
       <==> AskableAs(codec, req, choice)
  {
    AskedParts(codec, req, choice, said, drop);
    BuiltParts(codec, req, stream, said, drop);
  }

  lemma BuiltOrNot(codec: Codec, req: CompletionRequest, stream: bool, choice: Choice)
    requires TranslateToolChoice(codec, req.toolChoice) == Translation(choice)
    ensures Built(codec, req, stream).Some? <==> AskableAs(codec, req, choice)
  {
    if !choice.Refused? {
      var (said, drop) := Translation(choice).value;
      BuiltAs(codec, req, stream, choice, said, drop);
    }
  }

  /** A request is built exactly when all there is to ask can be asked. */
  lemma BuiltWhenAskable(codec: Codec, req: CompletionRequest, stream: bool)
    ensures Built(codec, req, stream).Some? <==> Askable(codec, req)
  {
    var trimmed := TrimSpace(req.toolChoice);
    ChoiceRight(codec, trimmed);
    BuiltOrNot(codec, req, stream, ChoiceOf(codec, trimmed));
  }

  // ---------- Building it ----------

  /** The request, or an error for what cannot be asked. */
  method BuildAnthropicRequest(codec: Codec, req: CompletionRequest, stream: bool)
    returns (out: Option<MessagesRequest>)
    ensures out == Built(codec, req, stream)
    ensures out.Some? <==> Askable(codec, req)
    ensures out.Some? ==> Says(codec, req, stream, out.value)
  {
    BuiltWhenAskable(codec, req, stream);
    if Built(codec, req, stream).Some? {
      BuiltSays(codec, req, stream);
    }
    out := Build(codec, req, stream);
  }

  method Build(codec: Codec, req: CompletionRequest, stream: bool) returns (out: Option<MessagesRequest>)
    ensures out == Built(codec, req, stream)
  {
    var systemParts, rest := SplitSystem(req.messages);
    var maxTokens := if req.maxTokens.Some? then req.maxTokens.value else 8192;
    var messages := TranslateMessages(codec, rest);
    if messages.None? {
      return None;
    }
    var choice := TranslateToolChoice(codec, req.toolChoice);
    if choice.None? {
      return None;
    }
    var (toolChoice, dropTools) := choice.value;
    var tools, sentChoice := [], "";
    if !dropTools && |req.tools| > 0 {
      var ts := TranslateTools(req.tools);
      if ts.None? {
        return None;
      }
      tools, sentChoice := ts.value, toolChoice;
    }
    if req.cachePrefix {
      var idx := CacheBreakpointIndex(rest);
      MarkCachePrefix(messages.value, idx);
    }
    var r := MessagesRequest(req.model, Join(systemParts, "\n\n"), messages.value[..], maxTokens,
                             req.temperature, req.topP, req.stop, stream, tools, sentChoice);
    assert r == Assembled(codec, req, stream);
    out := if Marshals(codec, r) then Some(r) else None;
  }
}

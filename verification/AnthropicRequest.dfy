/** Translating a request for the Anthropic Messages API, and what the speculative and the final
    request of a turn share (internal/providers/anthropic.go:102-384). */
module AnthropicRequest {
  import opened Wrappers
  import opened Seqs
  import opened Text
  import opened Providers
  import opened Judge
  import opened Handoff
  import Pipeline

  datatype ContentBlock = ContentBlock(
    kind: string, text: string, id: string, name: string, input: string, toolUseID: string, content: string,
    cacheControl: bool)

  datatype RequestMessage = RequestMessage(role: string, content: seq<ContentBlock>)

  datatype AnthropicTool = AnthropicTool(name: string, description: string, inputSchema: string)

  datatype MessagesRequest = MessagesRequest(
    model: string, system: string, messages: seq<RequestMessage>, maxTokens: int, temperature: Option<real>,
    topP: Option<real>, stopSequences: seq<string>, stream: bool, tools: seq<AnthropicTool>, toolChoice: string)

  /** A tool choice read as JSON: a string, an object with the fields that matter, or neither. */
  datatype RawChoice = ChoiceText(text: string) | ChoiceObject(kind: string, called: string, name: string) | NoChoice

  /** JSON at the edges: quoting a string, reading a tool choice, naming a tool to be called, and telling
      whether a raw text is JSON at all. */
  datatype Codec = Codec(
    quote: string -> string, readToolChoice: string -> RawChoice, toolNamed: string -> string,
    valid: string -> bool)

  // ---------- The translation as a function ----------

  function SystemText(m: Message): seq<string> {
    if m.role == "system" && m.content != "" then [m.content] else []
  }

  function Spoken(m: Message): seq<Message> {
    if m.role == "system" then [] else [m]
  }

  /** The system texts, and the messages that remain. */
  function Systems(msgs: seq<Message>): seq<string> { Flatten(SystemText, msgs) }
  function Rest(msgs: seq<Message>): seq<Message> { Flatten(Spoken, msgs) }

  function TextBlock(text: string): ContentBlock {
    ContentBlock("text", text, "", "", "", "", "", false)
  }

  function OrEmptyObject(s: string): string { if TrimSpace(s) == "" then "{}" else s }

  function ToolUse(tc: ToolCall): ContentBlock {
    ContentBlock("tool_use", "", tc.id, tc.name, OrEmptyObject(tc.arguments), "", "", false)
  }

  function ToolUses(tcs: seq<ToolCall>): (bs: seq<ContentBlock>)
    ensures |bs| == |tcs|
    ensures forall k :: 0 <= k < |bs| ==> !bs[k].cacheControl
  {
    seq(|tcs|, i requires 0 <= i < |tcs| => ToolUse(tcs[i]))
  }

  predicate Supported(m: Message) {
    m.role == "user" || m.role == "assistant" || m.role == "tool"
  }

  function Translated(codec: Codec, m: Message): (r: RequestMessage)
    ensures forall k :: 0 <= k < |r.content| ==> !r.content[k].cacheControl
  {
    if m.role == "assistant" then
      RequestMessage("assistant", (if m.content != "" then [TextBlock(m.content)] else []) + ToolUses(m.toolCalls))
    else if m.role == "tool" then
      RequestMessage("user", [ContentBlock("tool_result", "", "", "", "", m.toolCallID, codec.quote(m.content), false)])
    else RequestMessage("user", [TextBlock(m.content)])
  }

  function TranslatedAll(codec: Codec, msgs: seq<Message>): (rs: seq<RequestMessage>)
    ensures |rs| == |msgs|
  {
    seq(|msgs|, i requires 0 <= i < |msgs| => Translated(codec, msgs[i]))
  }

  const AUTO := "{\"type\":\"auto\"}"
  const ANY := "{\"type\":\"any\"}"

  /** The choice as the API has it, and whether to drop the tools; nothing for one it has no place for. */
  function TranslateToolChoice(codec: Codec, raw: string): Option<(string, bool)> {
    TranslateTrimmed(codec, TrimSpace(raw))
  }

  function TranslateTrimmed(codec: Codec, trimmed: string): Option<(string, bool)> {
    if trimmed == "" then Some(("", false))
    else
      match codec.readToolChoice(trimmed)
      case ChoiceText(text) =>
        if text == "none" then Some(("", true))
        else if text == "auto" then Some((AUTO, false))
        else if text == "required" then Some((ANY, false))
        else None
      case ChoiceObject(kind, called, name) =>
        if kind == "function" then (if called == "" then None else Some((codec.toolNamed(called), false)))
        else if kind == "auto" || kind == "any" then Some((trimmed, false))
        else if kind == "tool" then (if name == "" then None else Some((trimmed, false)))
        else None
      case NoChoice => None
  }

  function OrEmptySchema(s: string): string {
    if s == "" then "{\"type\":\"object\",\"properties\":{}}" else s
  }

  function TranslatedTool(t: Tool): AnthropicTool {
    AnthropicTool(t.name, t.description, OrEmptySchema(t.parameters))
  }

  function TranslatedTools(ts: seq<Tool>): (r: seq<AnthropicTool>)
    ensures |r| == |ts|
  {
    seq(|ts|, i requires 0 <= i < |ts| => TranslatedTool(ts[i]))
  }

  /** Which message carries the cache marker: the last one flagged, or else the last one. */
  function BreakpointUpTo(msgs: seq<Message>, n: nat): int
    requires n <= |msgs|
  {
    if n == 0 then |msgs| - 1
    else if msgs[n - 1].cacheBreakpoint then n - 1
    else BreakpointUpTo(msgs, n - 1)
  }

  function BreakpointIndex(msgs: seq<Message>): int { BreakpointUpTo(msgs, |msgs|) }

  /** Marks the last block of one message, if there is such a block. */
  function Mark(rs: seq<RequestMessage>, idx: int): (r: seq<RequestMessage>)
    ensures |r| == |rs|
  {
    if idx < 0 || idx >= |rs| || |rs[idx].content| == 0 then rs
    else
      var blocks := rs[idx].content;
      var last := |blocks| - 1;
      rs[idx := rs[idx].(content := blocks[last := blocks[last].(cacheControl := true)])]
  }

  predicate AllSupported(msgs: seq<Message>) {
    forall k :: 0 <= k < |msgs| ==> Supported(msgs[k])
  }

  predicate Buildable(codec: Codec, req: CompletionRequest) {
    BuildableWith(req, TranslateToolChoice(codec, req.toolChoice))
  }

  predicate BuildableWith(req: CompletionRequest, choice: Option<(string, bool)>) {
    && AllSupported(Rest(req.messages))
    && choice.Some?
    && (choice.value.1 || forall k :: 0 <= k < |req.tools| ==> req.tools[k].kind == "function")
  }

  /** The translated messages, with the cache marker where it is asked for. */
  function MessagesFor(codec: Codec, msgs: seq<Message>, cachePrefix: bool): seq<RequestMessage> {
    MarkedFor(codec, Rest(msgs), cachePrefix)
  }

  function MarkedFor(codec: Codec, rest: seq<Message>, cachePrefix: bool): seq<RequestMessage> {
    if cachePrefix then Mark(TranslatedAll(codec, rest), BreakpointIndex(rest)) else TranslatedAll(codec, rest)
  }

  /** The request put together. */
  function Assembled(codec: Codec, req: CompletionRequest, stream: bool): MessagesRequest
    requires Buildable(codec, req)
  {
    var (choice, drop) := TranslateToolChoice(codec, req.toolChoice).value;
    AssembledWith(codec, req, stream, choice, drop)
  }

  function AssembledWith(codec: Codec, req: CompletionRequest, stream: bool, choice: string, drop: bool):
      MessagesRequest
  {
    var withTools := !drop && |req.tools| > 0;
    MessagesRequest(
      req.model, Join(Systems(req.messages), "\n\n"),
      MessagesFor(codec, req.messages, req.cachePrefix),
      if req.maxTokens.Some? then req.maxTokens.value else 8192,
      req.temperature, req.topP, req.stop, stream,
      if withTools then TranslatedTools(req.tools) else [],
      if withTools then choice else "")
  }

  /** Tool arguments are sent as raw JSON. */
  predicate RawValid(codec: Codec, rs: seq<RequestMessage>) {
    forall i, j :: 0 <= i < |rs| && 0 <= j < |rs[i].content| && rs[i].content[j].kind == "tool_use" ==>
      codec.valid(rs[i].content[j].input)
  }

  /** Marshalling fails on raw texts that are not JSON: tool arguments and schemas. */
  predicate Marshals(codec: Codec, r: MessagesRequest) {
    RawValid(codec, r.messages) && forall k :: 0 <= k < |r.tools| ==> codec.valid(r.tools[k].inputSchema)
  }

  /** The request sent, or an error for an unsupported role, tool type or tool choice, or for raw texts
      that are not JSON. */
  function Built(codec: Codec, req: CompletionRequest, stream: bool): Option<MessagesRequest> {
    if Buildable(codec, req) && Marshals(codec, Assembled(codec, req, stream)) then Some(Assembled(codec, req, stream))
    else None
  }

  // ---------- The translation as the source performs it ----------

  method SplitSystem(msgs: seq<Message>) returns (system: seq<string>, rest: seq<Message>)
    ensures system == Systems(msgs) && rest == Rest(msgs)
  {
    system, rest := [], [];
    for i := 0 to |msgs|
      invariant system == Systems(msgs[..i]) && rest == Rest(msgs[..i])
    {
      var m := msgs[i];
      assert msgs[..i + 1] == msgs[..i] + [m];
      FlattenAppend(SystemText, msgs[..i], [m]);
      FlattenAppend(Spoken, msgs[..i], [m]);
      FlattenOne(SystemText, m);
      FlattenOne(Spoken, m);
      if m.role == "system" {
        if m.content != "" {
          system := system + [m.content];
        }
      } else {
        rest := rest + [m];
      }
    }
    assert msgs[..|msgs|] == msgs;
  }

  method CacheBreakpointIndex(msgs: seq<Message>) returns (idx: int)
    ensures idx == BreakpointIndex(msgs)
  {
    idx := |msgs| - 1;
    for i := 0 to |msgs|
      invariant idx == BreakpointUpTo(msgs, i)
    {
      if msgs[i].cacheBreakpoint {
        idx := i;
      }
    }
  }

  method MarkCachePrefix(messages: array<RequestMessage>, idx: int)
    modifies messages
    ensures messages[..] == Mark(old(messages[..]), idx)
  {
    if idx < 0 || idx >= messages.Length {
      return;
    }
    var blocks := messages[idx].content;
    if |blocks| == 0 {
      return;
    }
    var last := |blocks| - 1;
    messages[idx] := messages[idx].(content := blocks[last := blocks[last].(cacheControl := true)]);
  }

  /** The message loop: stops at the first role the API has no place for. */
  method TranslateMessages(codec: Codec, msgs: seq<Message>) returns (out: Option<array<RequestMessage>>)
    ensures out.Some? <==> AllSupported(msgs)
    ensures out.Some? ==> fresh(out.value) && out.value[..] == TranslatedAll(codec, msgs)
  {
    var messages := new RequestMessage[|msgs|](_ => RequestMessage("", []));
    for i := 0 to |msgs|
      invariant forall k :: 0 <= k < i ==> Supported(msgs[k])
      invariant messages[..i] == TranslatedAll(codec, msgs)[..i]
    {
      if !Supported(msgs[i]) {
        return None;
      }
      messages[i] := Translated(codec, msgs[i]);
    }
    assert messages[..] == messages[..|msgs|];
    out := Some(messages);
  }

  method TranslateTools(tools: seq<Tool>) returns (out: Option<seq<AnthropicTool>>)
    ensures out.Some? <==> forall k :: 0 <= k < |tools| ==> tools[k].kind == "function"
    ensures out.Some? ==> out.value == TranslatedTools(tools)
  {
    var ts := [];
    for i := 0 to |tools|
      invariant forall k :: 0 <= k < i ==> tools[k].kind == "function"
      invariant ts == TranslatedTools(tools)[..i]
    {
      if tools[i].kind != "function" {
        return None;
      }
      ts := ts + [TranslatedTool(tools[i])];
    }
    out := Some(ts);
  }

  // ---------- What the two requests of a turn share ----------

  predicate NoFlags(msgs: seq<Message>) {
    forall k :: 0 <= k < |msgs| ==> !msgs[k].cacheBreakpoint
  }

  predicate IsMarked(rs: seq<RequestMessage>, i: int, j: int) {
    0 <= i < |rs| && 0 <= j < |rs[i].content| && rs[i].content[j].cacheControl
  }

  ghost predicate Unmarked(rs: seq<RequestMessage>) {
    forall i, j :: !IsMarked(rs, i, j)
  }

  ghost predicate AtMostOneMark(rs: seq<RequestMessage>) {
    forall i, j, k, l :: IsMarked(rs, i, j) && IsMarked(rs, k, l) ==> i == k && j == l
  }

  /** The final messages begin with all the speculative ones, marker included, and two unmarked
      messages follow. */
  ghost predicate SharesPrefix(spec: seq<RequestMessage>, final: seq<RequestMessage>) {
    |final| == |spec| + 2 && final[..|spec|] == spec && Unmarked(final[|spec|..])
  }

  lemma {:induction false} NoFlagNoBreakpoint(msgs: seq<Message>, n: nat)
    requires n <= |msgs| && forall k :: 0 <= k < n ==> !msgs[k].cacheBreakpoint
    ensures BreakpointUpTo(msgs, n) == |msgs| - 1
  {
    if n > 0 {
      NoFlagNoBreakpoint(msgs, n - 1);
    }
  }

  lemma {:induction false} RestKeepsNoFlags(msgs: seq<Message>)
    requires NoFlags(msgs)
    ensures NoFlags(Rest(msgs))
  {
    if msgs != [] {
      RestKeepsNoFlags(msgs[1..]);
    }
  }

  lemma RestSnoc(msgs: seq<Message>, m: Message)
    ensures Rest(msgs + [m]) == Rest(msgs) + Spoken(m)
    ensures Systems(msgs + [m]) == Systems(msgs) + SystemText(m)
  {
    FlattenAppend(Spoken, msgs, [m]);
    FlattenAppend(SystemText, msgs, [m]);
    FlattenOne(Spoken, m);
    FlattenOne(SystemText, m);
  }

  predicate EndsSpoken(msgs: seq<Message>) {
    msgs != [] && msgs[|msgs| - 1].role != "system"
  }

  /** The messages left of the handed-off conversation: those of the original, the last one flagged
      when it is not a system message, and the two turns. */
  lemma RestOfHandoff(msgs: seq<Message>, analysis: string)
    ensures Systems(HandoffMessages(msgs, analysis)) == Systems(msgs)
    ensures var rest := Rest(msgs);
            var n := |rest|;
            && (EndsSpoken(msgs) ==> n > 0)
            && Rest(HandoffMessages(msgs, analysis))
               == (if EndsSpoken(msgs) then rest[n - 1 := Marked(rest[n - 1])] else rest) + HandoffTurns(analysis)
  {
    var turns := HandoffTurns(analysis);
    assert turns == [turns[0]] + [turns[1]];
    if msgs == [] {
      RestSnoc([], turns[0]);
      RestSnoc([turns[0]], turns[1]);
      assert msgs + turns == [turns[0]] + [turns[1]] && [] + [turns[0]] == [turns[0]];
    } else {
      var k := |msgs| - 1;
      var (init, last) := (msgs[..k], msgs[k]);
      assert msgs == init + [last];
      RestSnoc(init, last);
      RestSnoc(init, Marked(last));
      RestSnoc(init + [Marked(last)], turns[0]);
      RestSnoc(init + [Marked(last)] + [turns[0]], turns[1]);
      assert HandoffMessages(msgs, analysis) == init + [Marked(last)] + [turns[0]] + [turns[1]];
      assert Systems(HandoffMessages(msgs, analysis)) == Systems(msgs) + [] + [];
      if EndsSpoken(msgs) {
        assert Rest(msgs)[|Rest(msgs)| - 1 := Marked(last)] == Rest(init) + [Marked(last)];
      }
    }
  }

  function FinalOf(spec: CompletionRequest, analysis: string): CompletionRequest {
    spec.(messages := HandoffMessages(spec.messages, analysis), tools := [], toolChoice := "")
  }

  lemma HandoffSupported(rest: seq<Message>, spoken: bool, analysis: string)
    requires AllSupported(rest) && (spoken ==> rest != [])
    ensures AllSupported((if spoken then rest[|rest| - 1 := Marked(rest[|rest| - 1])] else rest)
                         + HandoffTurns(analysis))
  {
  }

  lemma FinalIsBuildable(codec: Codec, spec: CompletionRequest, analysis: string)
    requires Buildable(codec, spec)
    ensures Buildable(codec, FinalOf(spec, analysis))
  {
    RestOfHandoff(spec.messages, analysis);
    HandoffSupported(Rest(spec.messages), EndsSpoken(spec.messages), analysis);
  }

  lemma MarkKeepsRaw(codec: Codec, rs: seq<RequestMessage>, idx: int)
    ensures RawValid(codec, Mark(rs, idx)) <==> RawValid(codec, rs)
  {
    var r := Mark(rs, idx);
    forall i | 0 <= i < |rs|
      ensures |r[i].content| == |rs[i].content|
      ensures forall j :: 0 <= j < |rs[i].content| ==>
                r[i].content[j].kind == rs[i].content[j].kind && r[i].content[j].input == rs[i].content[j].input
    {
    }
  }

  lemma RawAppend(codec: Codec, a: seq<RequestMessage>, b: seq<RequestMessage>)
    requires RawValid(codec, a) && RawValid(codec, b)
    ensures RawValid(codec, a + b)
  {
  }

  /** The two turns bring no raw JSON. */
  lemma TurnsHaveNoRaw(codec: Codec, analysis: string)
    ensures RawValid(codec, TranslatedAll(codec, HandoffTurns(analysis)))
  {
  }

  /** What the speculative request could marshal, the final one can. */
  lemma HandoffKeepsRaw(codec: Codec, msgs: seq<Message>, analysis: string, cachePrefix: bool)
    requires RawValid(codec, MessagesFor(codec, msgs, cachePrefix))
    ensures RawValid(codec, MessagesFor(codec, HandoffMessages(msgs, analysis), cachePrefix))
  {
    var rest, all := Rest(msgs), Rest(HandoffMessages(msgs, analysis));
    var (a, b) := (TranslatedAll(codec, rest), TranslatedAll(codec, HandoffTurns(analysis)));
    MarkKeepsRaw(codec, a, BreakpointIndex(rest));
    TranslatedHandoff(codec, msgs, analysis);
    TurnsHaveNoRaw(codec, analysis);
    RawAppend(codec, a, b);
    MarkKeepsRaw(codec, a + b, BreakpointIndex(all));
  }

  /** Where the marker goes in the final request. */
  lemma FinalBreakpoint(msgs: seq<Message>, analysis: string)
    requires NoFlags(msgs)
    ensures var n := |Rest(msgs)|;
            BreakpointIndex(Rest(HandoffMessages(msgs, analysis))) == if EndsSpoken(msgs) then n - 1 else n + 1
  {
    RestOfHandoff(msgs, analysis);
    RestKeepsNoFlags(msgs);
    var all := Rest(HandoffMessages(msgs, analysis));
    var n := |Rest(msgs)|;
    if EndsSpoken(msgs) {
      assert BreakpointUpTo(all, n) == n - 1;
      assert BreakpointUpTo(all, n + 1) == n - 1 && BreakpointUpTo(all, n + 2) == n - 1;
    } else {
      NoFlagNoBreakpoint(all, n + 2);
    }
  }

  lemma TranslatedHandoff(codec: Codec, msgs: seq<Message>, analysis: string)
    ensures TranslatedAll(codec, Rest(HandoffMessages(msgs, analysis)))
         == TranslatedAll(codec, Rest(msgs)) + TranslatedAll(codec, HandoffTurns(analysis))
  {
    RestOfHandoff(msgs, analysis);
  }

  lemma MarkBehind(a: seq<RequestMessage>, b: seq<RequestMessage>, idx: nat)
    requires idx < |b| && b[idx].content != []
    ensures Mark(a + b, |a| + idx)[..|a|] == a
    ensures !Unmarked(Mark(a + b, |a| + idx)[|a|..])
  {
    var r := Mark(a + b, |a| + idx)[|a|..];
    assert IsMarked(r, idx, |b[idx].content| - 1);
  }

  ghost predicate Plain(rs: seq<RequestMessage>) {
    forall i, j :: 0 <= i < |rs| && 0 <= j < |rs[i].content| ==> !rs[i].content[j].cacheControl
  }

  /** Two translated conversations, one a prefix of the other, and their markers. */
  lemma MarkersAgree(a: seq<RequestMessage>, b: seq<RequestMessage>, spoken: bool)
    requires Plain(a) && Plain(b) && |b| == 2 && b[1].content != [] && (spoken ==> a != [])
    ensures var s, f := Mark(a, |a| - 1), Mark(a + b, if spoken then |a| - 1 else |a| + 1);
            && (SharesPrefix(s, f) <==> spoken)
            && AtMostOneMark(s) && AtMostOneMark(f)
  {
    if spoken {
      var s := Mark(a, |a| - 1);
      assert (s + b)[..|a|] == s && (s + b)[|a|..] == b;
    } else {
      MarkBehind(a, b, 1);
    }
  }

  lemma NoMarkers(a: seq<RequestMessage>, b: seq<RequestMessage>)
    requires Plain(a) && Plain(b) && |b| == 2
    ensures SharesPrefix(a, a + b) && AtMostOneMark(a) && AtMostOneMark(a + b) && Unmarked(a + b)
  {
    assert (a + b)[..|a|] == a && (a + b)[|a|..] == b;
  }

  /** The speculative messages: the marker, if any, is on the last of them. */
  lemma SpeculativeMessages(codec: Codec, msgs: seq<Message>, cachePrefix: bool)
    requires NoFlags(msgs)
    ensures var a := TranslatedAll(codec, Rest(msgs));
            MessagesFor(codec, msgs, cachePrefix) == if cachePrefix then Mark(a, |a| - 1) else a
  {
    RestKeepsNoFlags(msgs);
    var _ := MarkedAtTheEnd(codec, Rest(msgs), cachePrefix);
  }

  lemma MarkedAtTheEnd(codec: Codec, rest: seq<Message>, cachePrefix: bool) returns (a: seq<RequestMessage>)
    requires NoFlags(rest)
    ensures a == TranslatedAll(codec, rest)
    ensures MarkedFor(codec, rest, cachePrefix) == if cachePrefix then Mark(a, |a| - 1) else a
  {
    a := TranslatedAll(codec, rest);
    NoFlagNoBreakpoint(rest, |rest|);
  }

  /** The final messages: two more, and the marker where the original conversation ends or, when that
      end is not among the messages, on the very last one. */
  lemma FinalMessages(codec: Codec, msgs: seq<Message>, analysis: string, cachePrefix: bool)
    requires NoFlags(msgs)
    ensures var (a, b) := (TranslatedAll(codec, Rest(msgs)), TranslatedAll(codec, HandoffTurns(analysis)));
            && (EndsSpoken(msgs) ==> a != [])
            && MessagesFor(codec, HandoffMessages(msgs, analysis), cachePrefix)
               == if cachePrefix then Mark(a + b, if EndsSpoken(msgs) then |a| - 1 else |a| + 1) else a + b
  {
    RestOfHandoff(msgs, analysis);
    TranslatedHandoff(codec, msgs, analysis);
    FinalBreakpoint(msgs, analysis);
  }

  /** The messages alone: with caching on, the prefix with its marker is shared exactly when the
      conversation ends with a message that is not a system message. */
  lemma MessagesShared(codec: Codec, msgs: seq<Message>, analysis: string, cachePrefix: bool)
    requires NoFlags(msgs)
    ensures var s := MessagesFor(codec, msgs, cachePrefix);
            var f := MessagesFor(codec, HandoffMessages(msgs, analysis), cachePrefix);
            && AtMostOneMark(s) && AtMostOneMark(f)
            && (cachePrefix ==> (SharesPrefix(s, f) <==> EndsSpoken(msgs)))
            && (!cachePrefix ==> SharesPrefix(s, f) && Unmarked(f))
  {
    SpeculativeMessages(codec, msgs, cachePrefix);
    FinalMessages(codec, msgs, analysis, cachePrefix);
    var (a, b) := (TranslatedAll(codec, Rest(msgs)), TranslatedAll(codec, HandoffTurns(analysis)));
    if cachePrefix {
      MarkersAgree(a, b, EndsSpoken(msgs));
    } else {
      NoMarkers(a, b);
    }
  }

  /** A conversation that ends with a system message loses the prefix: the marker moves behind it. */
  lemma TrailingSystemLosesPrefix(codec: Codec, analysis: string)
    ensures var msgs := [ChatMessage("user", "q"), ChatMessage("system", "s")];
            !SharesPrefix(MessagesFor(codec, msgs, true), MessagesFor(codec, HandoffMessages(msgs, analysis), true))
  {
    MessagesShared(codec, [ChatMessage("user", "q"), ChatMessage("system", "s")], analysis, true);
  }

  /** For every conversation without flags (the wire format has none): the final request has the same
      model and system text as the speculative one and no tools; with caching on, its messages share
      the whole speculative prefix, marker position included, exactly when the conversation does not
      end with a system message (nor is empty); with caching off they always do and nothing is marked. */
  lemma CachePrefixShared(codec: Codec, spec: CompletionRequest, analysis: string, stream: bool)
    returns (s: MessagesRequest, f: MessagesRequest)
    requires NoFlags(spec.messages) && Built(codec, spec, stream).Some?
    ensures Built(codec, spec, stream) == Some(s) && Built(codec, FinalOf(spec, analysis), true) == Some(f)
    ensures && f.model == s.model && f.system == s.system && f.tools == [] && f.toolChoice == ""
            && AtMostOneMark(s.messages) && AtMostOneMark(f.messages)
            && (spec.cachePrefix ==> (SharesPrefix(s.messages, f.messages) <==> EndsSpoken(spec.messages)))
            && (!spec.cachePrefix ==> SharesPrefix(s.messages, f.messages) && Unmarked(f.messages))
  {
    var final := FinalOf(spec, analysis);
    FinalIsBuilt(codec, spec, analysis, stream);
    s, f := Built(codec, spec, stream).value, Built(codec, final, true).value;
    PartsOf(codec, spec, stream);
    PartsOf(codec, final, true);
    MessagesShared(codec, spec.messages, analysis, spec.cachePrefix);
    RestOfHandoff(spec.messages, analysis);
  }

  /** What can be built for the speculative call can be built for the final one. */
  lemma FinalIsBuilt(codec: Codec, spec: CompletionRequest, analysis: string, stream: bool)
    requires Built(codec, spec, stream).Some?
    ensures Built(codec, FinalOf(spec, analysis), true).Some?
  {
    FinalIsBuildable(codec, spec, analysis);
    PartsOf(codec, spec, stream);
    HandoffKeepsRaw(codec, spec.messages, analysis, spec.cachePrefix);
    PartsOf(codec, FinalOf(spec, analysis), true);
    WithoutTools(codec, Assembled(codec, FinalOf(spec, analysis), true));
  }

  lemma WithoutTools(codec: Codec, r: MessagesRequest)
    requires RawValid(codec, r.messages) && r.tools == []
    ensures Marshals(codec, r)
  {
  }

  lemma PartsOf(codec: Codec, req: CompletionRequest, stream: bool)
    requires Buildable(codec, req)
    ensures var r := Assembled(codec, req, stream);
            && r.model == req.model && r.system == Join(Systems(req.messages), "\n\n")
            && r.messages == MessagesFor(codec, req.messages, req.cachePrefix)
            && (req.tools == [] ==> r.tools == [] && r.toolChoice == "")
  {
  }

  /** In a pipeline run with an Anthropic primary: the request of the final call against that of the
      speculative call. */
  lemma TurnSharesPrefix(codec: Codec, w: Pipeline.World, model: Model, base: CompletionRequest,
                         analysis: JudgeAnalysis)
    returns (s: MessagesRequest, f: MessagesRequest)
    requires NoFlags(base.messages) && Built(codec, WithEndpoint(base, model.primary), false).Some?
    ensures Built(codec, WithEndpoint(base, model.primary), false) == Some(s)
    ensures Built(codec, Pipeline.FinalRequest(w, model, base, analysis), true) == Some(f)
    ensures && f.model == s.model && f.system == s.system && f.tools == []
            && (SharesPrefix(s.messages, f.messages) <==> !model.primary.CacheEnabled() || EndsSpoken(base.messages))
  {
    s, f := CachePrefixShared(codec, WithEndpoint(base, model.primary), w.marshal(analysis), false);
  }
}

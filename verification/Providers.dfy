/** The types shared by every upstream provider (internal/providers/provider.go). */
module Providers {
  import opened Wrappers
  import opened Seqs

  datatype Usage = Usage(
    promptTokens: int, completionTokens: int, totalTokens: int,
    cacheReadTokens: int, cacheCreationTokens: int)
  {
    /** Accumulates another usage into this one, component by component. */
    function Add(other: Usage): Usage {
      Usage(promptTokens + other.promptTokens, completionTokens + other.completionTokens,
            totalTokens + other.totalTokens, cacheReadTokens + other.cacheReadTokens,
            cacheCreationTokens + other.cacheCreationTokens)
    }
  }

  const NO_USAGE := Usage(0, 0, 0, 0, 0)

  lemma AddAssociates(a: Usage, b: Usage, c: Usage)
    ensures a.Add(b).Add(c) == a.Add(b.Add(c))
  {
  }

  lemma AddShuffles(a: Usage, b: Usage, c: Usage, d: Usage)
    ensures a.Add(b).Add(c.Add(d)) == a.Add(c).Add(b.Add(d))
  {
  }

  lemma AddNothing(a: Usage)
    ensures a.Add(NO_USAGE) == a && NO_USAGE.Add(a) == a
  {
  }

  /** The total of the usage f sees in each element. */
  function SumOf<T>(f: T -> Usage, s: seq<T>): Usage {
    if s == [] then NO_USAGE else f(s[0]).Add(SumOf(f, s[1..]))
  }

  lemma {:induction false} SumOfAppend<T>(f: T -> Usage, a: seq<T>, b: seq<T>)
    ensures SumOf(f, a + b) == SumOf(f, a).Add(SumOf(f, b))
  {
    if a == [] {
      assert a + b == b;
    } else {
      var rest := a[1..];
      assert a + b == [a[0]] + (rest + b);
      SumOfAppend(f, rest, b);
    }
  }

  lemma SumOfOne<T>(f: T -> Usage, x: T)
    ensures SumOf(f, [x]) == f(x)
  {
    assert [x][1..] == [];
  }

  lemma {:induction false} SumOfSplits<T(!new)>(f: T -> Usage, g: T -> Usage, h: T -> Usage, s: seq<T>)
    requires forall x :: f(x) == g(x).Add(h(x))
    ensures SumOf(f, s) == SumOf(g, s).Add(SumOf(h, s))
  {
    if s != [] {
      SumOfSplits(f, g, h, s[1..]);
      var (a, b) := (g(s[0]), h(s[0]));
      assert f(s[0]) == a.Add(b);
      AddShuffles(a, b, SumOf(g, s[1..]), SumOf(h, s[1..]));
    } else {
      AddNothing(NO_USAGE);
    }
  }

  lemma SumOfMiddle<T>(f: T -> Usage, l: seq<T>, x: T, r: seq<T>)
    ensures SumOf(f, l + [x] + r) == f(x).Add(SumOf(f, l + r))
  {
    SumOfAppend(f, l + [x], r);
    SumOfAppend(f, l, [x]);
    SumOfOne(f, x);
    SumOfAppend(f, l, r);
  }

  /** The total does not depend on the order in which the parts arrived. */
  lemma {:induction false} SumOfPermutes<T>(f: T -> Usage, a: seq<T>, b: seq<T>)
    requires multiset(a) == multiset(b)
    ensures SumOf(f, a) == SumOf(f, b)
  {
    if a == [] {
      assert |multiset(b)| == 0;
    } else {
      assert a[0] in multiset(b);
      var l, r := TakeOut(b, a[0]);
      assert multiset(a) == multiset(a[1..]) + multiset{a[0]} by {
        assert a == [a[0]] + a[1..];
      }
      assert multiset(a[1..]) == multiset(a) - multiset{a[0]} == multiset(l + r);
      SumOfPermutes(f, a[1..], l + r);
      SumOfMiddle(f, l, a[0], r);
    }
  }

  /** One incremental piece of a tool call. */
  datatype ToolCallDelta = ToolCallDelta(index: int, id: string, functionName: string, argumentsPartial: string)

  datatype Delta = Delta(content: string, reasoning: string, toolCall: Option<ToolCallDelta>)

  function ContentDelta(text: string): Delta { Delta(text, "", None) }
  function ReasoningDelta(text: string): Delta { Delta("", text, None) }
  function ToolDelta(d: ToolCallDelta): Delta { Delta("", "", Some(d)) }

  /** A delta as the Sink contract describes it: one field carries something, the others nothing. */
  predicate OneField(d: Delta) {
    || (d.content != "" && d.reasoning == "" && d.toolCall.None?)
    || (d.content == "" && d.reasoning != "" && d.toolCall.None?)
    || (d.content == "" && d.reasoning == "" && d.toolCall.Some?)
  }

  datatype ToolCall = ToolCall(id: string, kind: string, name: string, arguments: string)

  datatype Message = Message(
    role: string, content: string, toolCalls: seq<ToolCall>, toolCallID: string, name: string,
    cacheBreakpoint: bool)

  datatype Tool = Tool(kind: string, name: string, description: string, parameters: string)

  datatype CompletionRequest = CompletionRequest(
    model: string, messages: seq<Message>, tools: seq<Tool>, toolChoice: string,
    temperature: Option<real>, maxTokens: Option<int>, topP: Option<real>, stop: seq<string>,
    responseFormat: Option<string>, cachePrefix: bool)

  datatype CompletionResponse = CompletionResponse(
    content: string, toolCalls: seq<ToolCall>, finishReason: string, usage: Usage)

  /** Why a call went wrong; the texts of the source's errors are not modelled. */
  datatype Failure =
    | NotRegistered(provider: string)
    | Upstream(detail: string)
    | SinkRefused
    | ReadFailed(detail: string)
    | LineTooLong
    | BadPayload
    | NoResponse
    | BadJudgeOutput

  /** What Complete returns: a response, a nil response with a nil error, or an error. */
  datatype Reply = Answered(response: CompletionResponse) | Nothing | Failed(failure: Failure)

  /** One configured model on one provider (internal/config/config.go:82-100). */
  datatype Endpoint = Endpoint(
    provider: string, model: string, temperature: Option<real>, maxTokens: Option<int>, cache: string)
  {
    predicate CacheEnabled() { cache == "ephemeral" }
  }

  /** A pipeline definition (internal/config/config.go:67-73). */
  datatype Model = Model(
    primary: Endpoint, panel: seq<Endpoint>, judge: Endpoint, panelTimeoutMs: int, panelMinSuccess: int)

  /** The request for one endpoint (internal/fusion/pipeline.go:262-275). */
  function WithEndpoint(base: CompletionRequest, ep: Endpoint): CompletionRequest {
    base.(model := ep.model,
          temperature := if ep.temperature.Some? then ep.temperature else base.temperature,
          maxTokens := if ep.maxTokens.Some? then ep.maxTokens else base.maxTokens,
          cachePrefix := ep.CacheEnabled())
  }

  /** A request that asks one endpoint what the client asked: its model, its own temperature and caching,
      and for the rest the client's. */
  predicate AsksEndpoint(req: CompletionRequest, base: CompletionRequest, ep: Endpoint) {
    && req.model == ep.model
    && (ep.temperature.Some? ==> req.temperature == ep.temperature)
    && (ep.temperature.None? ==> req.temperature == base.temperature)
    && req.topP == base.topP && req.stop == base.stop && req.responseFormat == base.responseFormat
    && (req.cachePrefix <==> ep.cache == "ephemeral")
  }

  /** The endpoint's own limit, or else the client's. */
  predicate LimitedBy(req: CompletionRequest, base: CompletionRequest, ep: Endpoint) {
    && (ep.maxTokens.Some? ==> req.maxTokens == ep.maxTokens)
    && (ep.maxTokens.None? ==> req.maxTokens == base.maxTokens)
  }

  predicate WithoutTools(req: CompletionRequest) { req.tools == [] && req.toolChoice == "" }

  /** Everything a streaming call does to its sink, before the sink has its say: the deltas in
      order, then either the end of the stream or a failure. */
  datatype Script = Script(deltas: seq<Delta>, end: ScriptEnd)
  datatype ScriptEnd = Finished(reason: string, usage: Usage) | Broken(failure: Failure)

  /** A tool call put together again from its deltas. */
  datatype BuiltCall = BuiltCall(id: string, name: string, arguments: string)

  const EMPTY_CALL := BuiltCall("", "", "")

  function MergeDelta(c: BuiltCall, d: ToolCallDelta): BuiltCall {
    BuiltCall(if d.id != "" then d.id else c.id,
              if d.functionName != "" then d.functionName else c.name,
              c.arguments + d.argumentsPartial)
  }

  /** Groups tool call deltas by index, the way a streaming client does. */
  function Regroup(ds: seq<ToolCallDelta>, calls: map<int, BuiltCall>): map<int, BuiltCall> {
    if ds == [] then calls
    else
      var d := ds[0];
      var sofar := if d.index in calls then calls[d.index] else EMPTY_CALL;
      Regroup(ds[1..], calls[d.index := MergeDelta(sofar, d)])
  }

  lemma {:induction false} RegroupAppend(a: seq<ToolCallDelta>, b: seq<ToolCallDelta>, calls: map<int, BuiltCall>)
    ensures Regroup(a + b, calls) == Regroup(b, Regroup(a, calls))
  {
    if a == [] {
      assert a + b == b;
    } else {
      var d := a[0];
      var sofar := if d.index in calls then calls[d.index] else EMPTY_CALL;
      RegroupAppend(a[1..], b, calls[d.index := MergeDelta(sofar, d)]);
      assert (a + b)[1..] == a[1..] + b;
    }
  }

  function ContentOfDelta(d: Delta): string { d.content }

  function ToolOfDelta(d: Delta): seq<ToolCallDelta> {
    if d.toolCall.Some? then [d.toolCall.value] else []
  }

  /** The content and the tool call pieces of a list of deltas, in order. */
  function ContentOf(ds: seq<Delta>): string { Flatten(ContentOfDelta, ds) }

  function ToolDeltasOf(ds: seq<Delta>): seq<ToolCallDelta> { Flatten(ToolOfDelta, ds) }

  lemma DeltasAppend(a: seq<Delta>, b: seq<Delta>)
    ensures ContentOf(a + b) == ContentOf(a) + ContentOf(b)
    ensures ToolDeltasOf(a + b) == ToolDeltasOf(a) + ToolDeltasOf(b)
  {
    FlattenAppend(ContentOfDelta, a, b);
    FlattenAppend(ToolOfDelta, a, b);
  }

  lemma DeltasOne(d: Delta)
    ensures ContentOf([d]) == d.content
    ensures ToolDeltasOf([d]) == ToolOfDelta(d)
  {
    FlattenOne(ContentOfDelta, d);
    FlattenOne(ToolOfDelta, d);
  }
}

/** The conversation handed to the final call (internal/fusion/handoff.go). */
module Handoff {
  import opened Providers
  import opened Judge

  /** The wording of the two synthetic turns is not modelled, only that it is not empty. */
  const ANALYSIS_INTRO := "judge analysis:\n\n"
  const FINAL_INSTRUCTION := "write the final answer"

  function Marked(m: Message): Message { m.(cacheBreakpoint := true) }

  function HandoffTurns(analysis: string): seq<Message> {
    [ChatMessage("assistant", ANALYSIS_INTRO + analysis), ChatMessage("user", FINAL_INSTRUCTION)]
  }

  /** The original conversation with its last message marked, and two turns after it. */
  function HandoffMessages(original: seq<Message>, analysis: string): seq<Message> {
    var n := |original|;
    (if n == 0 then original else original[n - 1 := Marked(original[n - 1])]) + HandoffTurns(analysis)
  }

  /** The conversation, every message as it was but the last one marked; behind it an assistant turn
      that ends with the analysis, and a user turn that asks for the answer. */
  ghost predicate CarriesOver(original: seq<Message>, analysis: string, out: seq<Message>) {
    var n := |original|;
    && |out| == n + 2
    && (forall i :: 0 <= i < n - 1 ==> out[i] == original[i])
    && (n > 0 ==> out[n - 1] == original[n - 1].(cacheBreakpoint := true))
    && Turn(out[n], "assistant") && |ANALYSIS_INTRO| > 0 && out[n].content == ANALYSIS_INTRO + analysis
    && Turn(out[n + 1], "user") && |out[n + 1].content| > 0
  }

  /** Words of one role and nothing else, unmarked. */
  predicate Turn(m: Message, role: string) {
    m.role == role && m.toolCalls == [] && m.toolCallID == "" && m.name == "" && !m.cacheBreakpoint
  }

  lemma HandoffCarriesOver(original: seq<Message>, analysis: string)
    ensures CarriesOver(original, analysis, HandoffMessages(original, analysis))
  {
  }

  /** Works on a copy: the caller's slice keeps its elements. */
  method BuildHandoffMessages(original: array<Message>, analysis: string) returns (out: array<Message>)
    ensures fresh(out)
    ensures original[..] == old(original[..])
    ensures out[..] == HandoffMessages(original[..], analysis)
    ensures CarriesOver(original[..], analysis, out[..])
  {
    HandoffCarriesOver(original[..], analysis);
    var n := original.Length;
    out := new Message[n + 2](_ => ChatMessage("", ""));
    var i := 0;
    while i < n
      invariant 0 <= i <= n
      invariant out[..i] == original[..i]
    {
      out[i] := original[i];
      i := i + 1;
    }
    assert out[..n] == original[..];
    if n > 0 {
      out[n - 1] := out[n - 1].(cacheBreakpoint := true);
    }
    out[n] := ChatMessage("assistant", ANALYSIS_INTRO + analysis);
    out[n + 1] := ChatMessage("user", FINAL_INSTRUCTION);
    assert out[..] == out[..n] + [out[n], out[n + 1]];
  }
}

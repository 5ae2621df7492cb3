/** The laws asked of the JSON codec can be met: a codec that meets them, built from self-delimiting
    texts (internal/server/types.go:63-102). */
module Codecs {
  import opened Wrappers
  import opened Text
  import opened OpenAI
  import opened SseWriting

  /** A way of writing values on one line such that a reader knows where each one ends. */
  ghost predicate Good<T(!new)>(f: T -> string) {
    && (forall a, b, x, y :: f(a) + x == f(b) + y ==> a == b && x == y)
    && (forall a :: OneLine(f(a)))
  }

  predicate OneLine(s: string) { Without(s, '\n') && Without(s, '\r') }

  lemma OneLineConcat(a: string, b: string)
    requires OneLine(a) && OneLine(b)
    ensures OneLine(a + b)
  {
  }

  // ---------- Numbers ----------

  function Unary(n: nat): string { if n == 0 then ";" else "1" + Unary(n - 1) }

  lemma {:induction false} UnaryReads(a: nat, b: nat, x: string, y: string)
    requires Unary(a) + x == Unary(b) + y
    ensures a == b && x == y
  {
    var (s, t) := (Unary(a) + x, Unary(b) + y);
    assert s[0] == t[0];
    if a == 0 {
      assert s[1..] == x && t[1..] == y;
    } else {
      assert s[1..] == Unary(a - 1) + x && t[1..] == Unary(b - 1) + y;
      UnaryReads(a - 1, b - 1, x, y);
    }
  }

  lemma {:induction false} UnaryIsOneLine(n: nat)
    ensures OneLine(Unary(n))
  {
    if n > 0 {
      UnaryIsOneLine(n - 1);
    }
  }

  function CharCode(c: char): string { Unary(c as nat) }

  lemma CharsGood()
    ensures Good(CharCode)
  {
    forall a, b, x, y | CharCode(a) + x == CharCode(b) + y ensures a == b && x == y {
      UnaryReads(a as nat, b as nat, x, y);
    }
    forall a ensures OneLine(CharCode(a)) {
      UnaryIsOneLine(a as nat);
    }
  }

  function IntCode(i: int): string { if i < 0 then "-" + Unary(-i) else "+" + Unary(i) }

  lemma IntsGood()
    ensures Good(IntCode)
  {
    forall a, b, x, y | IntCode(a) + x == IntCode(b) + y ensures a == b && x == y {
      var (s, t) := (IntCode(a) + x, IntCode(b) + y);
      var (m, n) := (if a < 0 then -a else a, if b < 0 then -b else b);
      assert s[0] == t[0];
      assert s[1..] == Unary(m) + x && t[1..] == Unary(n) + y;
      UnaryReads(m, n, x, y);
    }
    forall a ensures OneLine(IntCode(a)) {
      UnaryIsOneLine(if a < 0 then -a else a);
    }
  }

  // ---------- Pairs and lists ----------

  function PairCode<S, T>(f: S -> string, g: T -> string): ((S, T)) -> string {
    (p: (S, T)) => f(p.0) + g(p.1)
  }

  lemma PairsGood<S(!new), T(!new)>(f: S -> string, g: T -> string)
    requires Good(f) && Good(g)
    ensures Good(PairCode(f, g))
  {
    var h := PairCode(f, g);
    forall a, b, x, y | h(a) + x == h(b) + y ensures a == b && x == y {
      assert f(a.0) + (g(a.1) + x) == h(a) + x == h(b) + y == f(b.0) + (g(b.1) + y);
    }
    forall a ensures OneLine(h(a)) {
      OneLineConcat(f(a.0), g(a.1));
    }
  }

  function ListText<T>(f: T -> string, s: seq<T>): string {
    if s == [] then "." else "," + f(s[0]) + ListText(f, s[1..])
  }

  function ListCode<T>(f: T -> string): seq<T> -> string { (s: seq<T>) => ListText(f, s) }

  lemma {:induction false} ListReads<T(!new)>(f: T -> string, a: seq<T>, b: seq<T>, x: string, y: string)
    requires Good(f) && ListText(f, a) + x == ListText(f, b) + y
    ensures a == b && x == y
  {
    var (s, t) := (ListText(f, a) + x, ListText(f, b) + y);
    assert s[0] == t[0];
    if a == [] {
      assert s[1..] == x && t[1..] == y;
    } else {
      assert s[1..] == f(a[0]) + (ListText(f, a[1..]) + x) && t[1..] == f(b[0]) + (ListText(f, b[1..]) + y);
      ListReads(f, a[1..], b[1..], x, y);
      assert a == [a[0]] + a[1..] && b == [b[0]] + b[1..];
    }
  }

  lemma {:induction false} ListIsOneLine<T(!new)>(f: T -> string, s: seq<T>)
    requires Good(f)
    ensures OneLine(ListText(f, s))
  {
    if s != [] {
      ListIsOneLine(f, s[1..]);
      OneLineConcat("," + f(s[0]), ListText(f, s[1..]));
    }
  }

  lemma ListsGood<T(!new)>(f: T -> string)
    requires Good(f)
    ensures Good(ListCode(f))
  {
    var h := ListCode(f);
    forall a, b, x, y | h(a) + x == h(b) + y ensures a == b && x == y {
      ListReads(f, a, b, x, y);
    }
    forall a ensures OneLine(h(a)) {
      ListIsOneLine(f, a);
    }
  }

  // ---------- Chunks ----------

  function TextCode(): string -> string { ListCode(CharCode) }

  function ToolCallCode(tc: StreamToolCall): string {
    PairCode(IntCode, PairCode(TextCode(), PairCode(TextCode(), PairCode(TextCode(), TextCode()))))
      ((tc.index, (tc.id, (tc.kind, (tc.name, tc.arguments)))))
  }

  function DeltaCode(d: StreamDelta): string {
    PairCode(TextCode(), PairCode(TextCode(), PairCode(TextCode(), ListCode(ToolCallCode))))
      ((d.role, (d.content, (d.reasoningContent, d.toolCalls))))
  }

  function ReasonCode(r: Option<string>): string {
    ListCode(TextCode())(if r.Some? then [r.value] else [])
  }

  function ChoiceCode(c: StreamChoice): string {
    PairCode(IntCode, PairCode(DeltaCode, ReasonCode))((c.index, (c.delta, c.finishReason)))
  }

  lemma TextsGood()
    ensures Good(TextCode())
  {
    CharsGood();
    ListsGood(CharCode);
  }

  lemma ToolCallsGood()
    ensures Good(ToolCallCode)
  {
    var t := TextCode();
    TextsGood();
    IntsGood();
    PairsGood(t, t);
    PairsGood(t, PairCode(t, t));
    PairsGood(t, PairCode(t, PairCode(t, t)));
    PairsGood(IntCode, PairCode(t, PairCode(t, PairCode(t, t))));
  }

  lemma DeltasGood()
    ensures Good(DeltaCode)
  {
    var t := TextCode();
    TextsGood();
    ToolCallsGood();
    ListsGood(ToolCallCode);
    PairsGood(t, ListCode(ToolCallCode));
    PairsGood(t, PairCode(t, ListCode(ToolCallCode)));
    PairsGood(t, PairCode(t, PairCode(t, ListCode(ToolCallCode))));
  }

  lemma ReasonsGood()
    ensures Good(ReasonCode)
  {
    TextsGood();
    ListsGood(TextCode());
  }

  lemma ChoicesGood()
    ensures Good(ListCode(ChoiceCode))
  {
    IntsGood();
    DeltasGood();
    ReasonsGood();
    PairsGood(DeltaCode, ReasonCode);
    PairsGood(IntCode, PairCode(DeltaCode, ReasonCode));
    ListsGood(ChoiceCode);
  }

  function Encoded(k: StreamChunk): string { "{" + ListCode(ChoiceCode)(k.choices) + "}" }

  lemma EncodedTellsChoices(a: StreamChunk, b: StreamChunk)
    requires Encoded(a) == Encoded(b)
    ensures a.choices == b.choices
  {
    ChoicesGood();
    var f := ListCode(ChoiceCode);
    assert f(a.choices) + "}" == Encoded(a)[1..] == Encoded(b)[1..] == f(b.choices) + "}";
  }

  lemma EncodedIsOneLine(k: StreamChunk)
    ensures OneLineObject(Encoded(k))
  {
    ChoicesGood();
    OneLineConcat("{", ListCode(ChoiceCode)(k.choices));
    OneLineConcat("{" + ListCode(ChoiceCode)(k.choices), "}");
  }

  /** Some chunk with this text. */
  ghost function Decoded(s: string): (r: Option<Chunk>)
    ensures forall k :: Encoded(k) == s ==> exists k' :: Encoded(k') == s && r == Some(Chunk(k'.choices, None))
  {
    if exists k :: Encoded(k) == s then
      var k :| Encoded(k) == s;
      Some(Chunk(k.choices, None))
    else None
  }

  /** There is a lawful codec: the theorems about written streams speak of something. */
  lemma SomeCodecIsLawful() returns (codec: Codec)
    ensures Lawful(codec)
  {
    codec := Codec(Encoded, _ => "{}", s => Decoded(s));
    forall k ensures codec.decode(codec.encode(k)) == Some(Chunk(k.choices, None)) {
      var k' :| Encoded(k') == Encoded(k) && Decoded(Encoded(k)) == Some(Chunk(k'.choices, None));
      EncodedTellsChoices(k, k');
    }
    forall k ensures OneLineObject(codec.encode(k)) {
      EncodedIsOneLine(k);
    }
  }
}

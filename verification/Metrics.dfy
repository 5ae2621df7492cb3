/** The in-memory metrics store (internal/obs/metrics.go:11-152). */
module Metrics {
  import opened Seqs
  import opened Sorting
  import opened Text

  // ---------- Series keys ----------

  /** A label name and its value. */
  type Label = (string, string)

  /** Go's %q verb: the only law relied on is that no quoted text begins another, so that a reader
      always knows where the value ends. */
  type Quote = string -> string

  ghost predicate SelfDelimiting(quote: Quote) {
    forall a, b, x, y :: quote(a) + x == quote(b) + y ==> a == b
  }

  function PairText(quote: Quote, l: Label): string {
    l.0 + "=" + quote(l.1)
  }

  /** The pairs of a flat k,v,k,v list; a trailing odd label is dropped. */
  function LabelPairs(labels: seq<string>): seq<Label> {
    if |labels| < 2 then [] else [(labels[0], labels[1])] + LabelPairs(labels[2..])
  }

  function PairTexts(quote: Quote, ls: seq<Label>): (ts: seq<string>)
    ensures |ts| == |ls|
  {
    if ls == [] then [] else [PairText(quote, ls[0])] + PairTexts(quote, ls[1..])
  }

  function SeriesKey(quote: Quote, name: string, labels: seq<string>): string {
    if labels == [] then name
    else name + LabelText(quote, LabelPairs(labels))
  }

  /** The label part of a key: pairs in order, between braces. */
  function LabelText(quote: Quote, ls: seq<Label>): string {
    "{" + Join(Sort(LexLe, PairTexts(quote, ls)), ",") + "}"
  }

  method BuildSeriesKey(quote: Quote, name: string, labels: seq<string>) returns (key: string)
    ensures key == SeriesKey(quote, name, labels)
  {
    if |labels| == 0 {
      return name;
    }
    var kept := labels;
    if |labels| % 2 != 0 {
      kept := labels[..|labels| - 1];
    }
    DropOdd(labels);
    var pairs := BuildPairs(quote, kept);
    key := name + ("{" + Join(Sort(LexLe, pairs), ",") + "}");
  }

  method BuildPairs(quote: Quote, labels: seq<string>) returns (pairs: seq<string>)
    requires |labels| % 2 == 0
    ensures pairs == PairTexts(quote, LabelPairs(labels))
  {
    pairs := [];
    var i := 0;
    ghost var all := PairTexts(quote, LabelPairs(labels));
    while i < |labels|
      invariant 0 <= i <= |labels| && i % 2 == 0
      invariant pairs + PairTexts(quote, LabelPairs(labels[i..])) == all
    {
      NextPair(quote, labels, i, pairs);
      pairs := pairs + [PairText(quote, (labels[i], labels[i + 1]))];
      i := i + 2;
    }
    assert labels[i..] == [];
    assert pairs + [] == pairs;
  }

  lemma NextPair(quote: Quote, labels: seq<string>, i: nat, pairs: seq<string>)
    requires i + 2 <= |labels|
    ensures pairs + PairTexts(quote, LabelPairs(labels[i..]))
         == pairs + [PairText(quote, (labels[i], labels[i + 1]))] + PairTexts(quote, LabelPairs(labels[i + 2..]))
  {
    assert labels[i..][2..] == labels[i + 2..];
    var later := LabelPairs(labels[i + 2..]);
    TextsCons(quote, (labels[i], labels[i + 1]), later);
  }

  lemma {:induction false} DropOdd(labels: seq<string>)
    ensures |labels| % 2 != 0 ==> LabelPairs(labels[..|labels| - 1]) == LabelPairs(labels)
    decreases |labels|
  {
    if |labels| >= 2 {
      DropOdd(labels[2..]);
      if |labels| % 2 != 0 {
        assert labels[..|labels| - 1][2..] == labels[2..][..|labels| - 3];
      }
    }
  }

  function SplitSeries(key: string): (string, string) {
    var i := IndexOf(key, '{');
    if i == |key| then (key, "") else (key[..i], key[i..])
  }

  predicate PlainName(s: string) {
    Without(s, '=') && Without(s, ',') && Without(s, '"')
  }

  predicate PlainNames(ls: seq<Label>) {
    forall i :: 0 <= i < |ls| ==> PlainName(ls[i].0)
  }

  /** A pair reads back from the front of any text. */
  lemma PairReadsBack(quote: Quote, a: Label, b: Label, x: string, y: string)
    requires SelfDelimiting(quote) && PlainName(a.0) && PlainName(b.0)
    requires PairText(quote, a) + x == PairText(quote, b) + y
    ensures a == b && x == y
  {
    var (s, t) := (a.0 + "=" + (quote(a.1) + x), b.0 + "=" + (quote(b.1) + y));
    assert s == PairText(quote, a) + x && t == PairText(quote, b) + y;
    NameEnds(a.0, quote(a.1) + x);
    NameEnds(b.0, quote(b.1) + y);
    assert a.0 == s[..|a.0|] && b.0 == t[..|b.0|];
    assert quote(a.1) + x == s[|a.0| + 1..] && quote(b.1) + y == t[|b.0| + 1..];
    assert quote(a.1) + x == quote(b.1) + y;
    assert x == (quote(a.1) + x)[|quote(a.1)|..];
  }

  lemma NameEnds(name: string, rest: string)
    requires Without(name, '=')
    ensures IndexOf(name + "=" + rest, '=') == |name|
  {
    IndexOfIs(name + "=" + rest, '=', |name|);
  }

  lemma JoinCons(parts: seq<string>, sep: string)
    requires parts != []
    ensures Join(parts, sep) == parts[0] + (if |parts| == 1 then "" else sep + Join(parts[1..], sep))
  {
  }

  /** What follows the first of some joined pairs. */
  function Tail(ts: seq<string>): string
    requires ts != []
  {
    if |ts| == 1 then "}" else "," + (Join(ts[1..], ",") + "}")
  }

  lemma FirstAndTail(ts: seq<string>)
    requires ts != []
    ensures Join(ts, ",") + "}" == ts[0] + Tail(ts)
  {
    JoinCons(ts, ",");
  }

  /** Joined pairs decode to one list of pairs only. */
  lemma {:induction false} JoinedPairsReadBack(quote: Quote, a: seq<Label>, b: seq<Label>)
    requires SelfDelimiting(quote) && PlainNames(a) && PlainNames(b) && a != [] && b != []
    requires Join(PairTexts(quote, a), ",") + "}" == Join(PairTexts(quote, b), ",") + "}"
    ensures a == b
    decreases |a|
  {
    var (s, t) := (PairTexts(quote, a), PairTexts(quote, b));
    FirstAndTail(s);
    FirstAndTail(t);
    PairReadsBack(quote, a[0], b[0], Tail(s), Tail(t));
    if |a| == 1 || |b| == 1 {
      assert Tail(s)[0] == Tail(t)[0];
    } else {
      assert Tail(s)[1..] == Join(s[1..], ",") + "}" && Tail(t)[1..] == Join(t[1..], ",") + "}";
      JoinedPairsReadBack(quote, a[1..], b[1..]);
      assert a == [a[0]] + a[1..] && b == [b[0]] + b[1..];
    }
  }

  /** The labels in the order their texts are sorted. */
  lemma {:induction false} SortedLabels(quote: Quote, ls: seq<Label>) returns (sorted: seq<Label>)
    requires PlainNames(ls)
    ensures multiset(sorted) == multiset(ls) && PlainNames(sorted)
    ensures PairTexts(quote, sorted) == Sort(LexLe, PairTexts(quote, ls))
  {
    if ls == [] {
      return [];
    }
    var rest := SortedLabels(quote, ls[1..]);
    sorted := InsertedLabel(quote, ls[0], rest);
    assert ls == [ls[0]] + ls[1..];
  }

  lemma {:induction false} InsertedLabel(quote: Quote, l: Label, ls: seq<Label>) returns (r: seq<Label>)
    requires PlainName(l.0) && PlainNames(ls)
    ensures multiset(r) == multiset{l} + multiset(ls) && PlainNames(r)
    ensures PairTexts(quote, r) == Insert(LexLe, PairText(quote, l), PairTexts(quote, ls))
  {
    if ls == [] || LexLe(PairText(quote, l), PairText(quote, ls[0])) {
      r := [l] + ls;
      TextsCons(quote, l, ls);
    } else {
      var (first, others) := (ls[0], ls[1..]);
      var rest := InsertedLabel(quote, l, others);
      r := [first] + rest;
      assert ls == [first] + others;
      TextsCons(quote, first, others);
      TextsCons(quote, first, rest);
    }
  }

  lemma TextsCons(quote: Quote, l: Label, ls: seq<Label>)
    ensures PairTexts(quote, [l] + ls) == [PairText(quote, l)] + PairTexts(quote, ls)
    ensures PairTexts(quote, [l] + ls)[1..] == PairTexts(quote, ls)
  {
    assert ([l] + ls)[1..] == ls;
  }

  lemma {:induction false} SameLabelsSameTexts(quote: Quote, a: seq<Label>, b: seq<Label>)
    requires multiset(a) == multiset(b)
    ensures multiset(PairTexts(quote, a)) == multiset(PairTexts(quote, b))
  {
    if a == [] {
      assert |multiset(b)| == 0;
    } else {
      assert a[0] in multiset(b);
      var l, r := TakeOut(b, a[0]);
      assert multiset(a) == multiset(a[1..]) + multiset{a[0]} by {
        assert a == [a[0]] + a[1..];
      }
      assert multiset(a[1..]) == multiset(a) - multiset{a[0]} == multiset(l + r);
      SameLabelsSameTexts(quote, a[1..], l + r);
      TextsMiddle(quote, l, a[0], r);
      assert PairTexts(quote, a) == [PairText(quote, a[0])] + PairTexts(quote, a[1..]);
    }
  }

  lemma {:induction false} TextsAppend(quote: Quote, a: seq<Label>, b: seq<Label>)
    ensures PairTexts(quote, a + b) == PairTexts(quote, a) + PairTexts(quote, b)
  {
    if a == [] {
      assert a + b == b;
    } else {
      var rest := a[1..];
      assert a + b == [a[0]] + (rest + b);
      TextsAppend(quote, rest, b);
    }
  }

  lemma TextsMiddle(quote: Quote, l: seq<Label>, x: Label, r: seq<Label>)
    ensures multiset(PairTexts(quote, l + [x] + r)) == multiset{PairText(quote, x)} + multiset(PairTexts(quote, l + r))
  {
    TextsAppend(quote, l + [x], r);
    TextsAppend(quote, l, [x]);
    TextsAppend(quote, l, r);
  }

  /** The same labels give the same text, in whatever order they were passed. */
  lemma LabelTextIgnoresOrder(quote: Quote, a: seq<Label>, b: seq<Label>)
    requires multiset(a) == multiset(b)
    ensures LabelText(quote, a) == LabelText(quote, b)
  {
    var (s, t) := (PairTexts(quote, a), PairTexts(quote, b));
    SameLabelsSameTexts(quote, a, b);
    LexIsTotalOrder();
    SortSorts(LexLe, s);
    SortSorts(LexLe, t);
    SortedUnique(LexLe, Sort(LexLe, s), Sort(LexLe, t));
  }

  lemma LabelTextTellsLabels(quote: Quote, a: seq<Label>, b: seq<Label>)
    requires SelfDelimiting(quote) && PlainNames(a) && PlainNames(b) && a != [] && b != []
    requires LabelText(quote, a) == LabelText(quote, b)
    ensures multiset(a) == multiset(b)
  {
    var x := SortedLabels(quote, a);
    var y := SortedLabels(quote, b);
    assert |multiset(x)| == |multiset(a)| && |multiset(y)| == |multiset(b)|;
    var (s, t) := (Join(PairTexts(quote, x), ",") + "}", Join(PairTexts(quote, y), ",") + "}");
    assert LabelText(quote, a) == "{" + s && LabelText(quote, b) == "{" + t;
    assert s == ("{" + s)[1..] && t == ("{" + t)[1..];
    JoinedPairsReadBack(quote, x, y);
  }

  /** A key in plain sight: the name alone, or with one pair or two sorted ones between braces. */
  lemma KeysInSight(quote: Quote, name: string, k: string, v: string, l: string, w: string)
    ensures SeriesKey(quote, name, []) == name
    ensures SeriesKey(quote, name, [k, v]) == name + "{" + k + "=" + quote(v) + "}"
    ensures var (p, q) := (k + "=" + quote(v), l + "=" + quote(w));
            SeriesKey(quote, name, [k, v, l, w])
            == name + "{" + (if LexLe(p, q) then p + "," + q else q + "," + p) + "}"
  {
    var (p, q) := (k + "=" + quote(v), l + "=" + quote(w));
    var (one, two) := ([k, v], [k, v, l, w]);
    assert one[2..] == [] && two[2..] == [l, w] && [l, w][2..] == [];
    OnePairJoined(p);
    TwoPairsJoined(p, q);
    assert PairTexts(quote, [(k, v)]) == [p] by { assert [(k, v)][1..] == []; }
    assert PairTexts(quote, [(k, v), (l, w)]) == [p, q] by {
      assert [(k, v), (l, w)][1..] == [(l, w)] && [(l, w)][1..] == [];
    }
    assert LabelPairs(one) == [(k, v)];
    assert LabelPairs(two) == [(k, v)] + LabelPairs(two[2..]) == [(k, v), (l, w)];
    assert LabelText(quote, [(k, v)]) == "{" + p + "}";
    Braced(name, p);
    Braced(name, if LexLe(p, q) then p + "," + q else q + "," + p);
  }

  lemma Braced(name: string, text: string)
    ensures name + ("{" + text + "}") == name + "{" + text + "}"
  {
  }

  lemma OnePairJoined(p: string)
    ensures Join(Sort(LexLe, [p]), ",") == p
  {
    assert [p][1..] == [];
  }

  lemma TwoPairsJoined(p: string, q: string)
    ensures Join(Sort(LexLe, [p, q]), ",") == if LexLe(p, q) then p + "," + q else q + "," + p
  {
    assert [p, q][1..] == [q] && [q][1..] == [] && [p][1..] == [];
    assert Sort(LexLe, [q]) == [q];
    assert Sort(LexLe, [p, q]) == Insert(LexLe, p, [q]);
    assert Insert(LexLe, p, [q]) == if LexLe(p, q) then [p, q] else [q, p];
    TwoJoined(p, q);
    TwoJoined(q, p);
  }

  lemma TwoJoined(p: string, q: string)
    ensures Join([p, q], ",") == p + "," + q
  {
    assert [p, q][1..] == [q];
  }

  /** A key splits where its name ends. */
  lemma KeySplits(quote: Quote, name: string, ls: seq<Label>)
    requires Without(name, '{')
    ensures SplitSeries(name + LabelText(quote, ls)) == (name, LabelText(quote, ls))
    ensures SplitSeries(name) == (name, "")
  {
    var text := LabelText(quote, ls);
    var key := name + text;
    assert text[0] == '{' && key[|name|] == '{';
    IndexOfIs(key, '{', |name|);
    assert key[..|name|] == name && key[|name|..] == text;
  }

  /** For names without a brace and label names without '=', ',' or quotes: two series have the same
      key exactly when their names are equal and their labels are equal as multisets, and splitting
      a key gives back the name and the label text. */
  lemma SeriesKeysAreCanonical(quote: Quote, name1: string, labels1: seq<string>, name2: string, labels2: seq<string>)
    requires SelfDelimiting(quote) && Without(name1, '{') && Without(name2, '{')
    requires |labels1| >= 2 && |labels2| >= 2
    requires PlainNames(LabelPairs(labels1)) && PlainNames(LabelPairs(labels2))
    ensures SeriesKey(quote, name1, labels1) == SeriesKey(quote, name2, labels2)
       <==> name1 == name2 && multiset(LabelPairs(labels1)) == multiset(LabelPairs(labels2))
    ensures SplitSeries(SeriesKey(quote, name1, labels1)) == (name1, LabelText(quote, LabelPairs(labels1)))
    ensures SplitSeries(SeriesKey(quote, name1, [])) == (name1, "")
  {
    var (a, b) := (LabelPairs(labels1), LabelPairs(labels2));
    KeySplits(quote, name1, a);
    KeySplits(quote, name2, b);
    if SeriesKey(quote, name1, labels1) == SeriesKey(quote, name2, labels2) {
      LabelTextTellsLabels(quote, a, b);
    }
    if multiset(a) == multiset(b) {
      LabelTextIgnoresOrder(quote, a, b);
    }
  }
}

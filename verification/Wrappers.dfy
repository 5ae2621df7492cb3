/** Values that may be absent: the source's nil pointers and nil errors. */
module Wrappers {
  datatype Option<+T> = None | Some(value: T)
}

/** Sequences: cut, and flattened piece by piece. */
module Seqs {

  /** The pieces f makes of the elements, one after the other. */
  function Flatten<S, T>(f: S -> seq<T>, s: seq<S>): seq<T> {
    if s == [] then [] else f(s[0]) + Flatten(f, s[1..])
  }

  lemma {:induction false} FlattenAppend<S, T>(f: S -> seq<T>, a: seq<S>, b: seq<S>)
    ensures Flatten(f, a + b) == Flatten(f, a) + Flatten(f, b)
  {
    if a == [] {
      assert a + b == b;
    } else {
      var rest := a[1..];
      assert a + b == [a[0]] + (rest + b);
      FlattenAppend(f, rest, b);
    }
  }

  lemma FlattenOne<S, T>(f: S -> seq<T>, x: S)
    ensures Flatten(f, [x]) == f(x)
  {
    assert [x][1..] == [];
  }

  lemma HeadFirst<T>(s: seq<T>, t: seq<T>)
    requires s != []
    ensures [s[0]] + (s[1..] + t) == s + t
  {
  }

  lemma FirstMoved<T>(a: seq<T>, s: seq<T>)
    requires s != []
    ensures a + [s[0]] + s[1..] == a + s && [s[0]] + s[1..] == s
  {
  }

  /** `picked` is `all` at some strictly increasing positions. */
  ghost predicate InOrder<T>(picked: seq<T>, all: seq<T>, at: seq<nat>) {
    && |at| == |picked|
    && (forall k :: 0 <= k < |at| ==> at[k] < |all| && all[at[k]] == picked[k])
    && (forall j, k :: 0 <= j < k < |at| ==> at[j] < at[k])
  }

  /** ... and these positions are those of the elements to keep. */
  ghost predicate Picks<T(!new)>(picked: seq<T>, all: seq<T>, keep: T -> bool, at: seq<nat>) {
    InOrder(picked, all, at) && forall i: nat :: i < |all| ==> (keep(all[i]) <==> i in at)
  }

  lemma PicksNothing<T(!new)>(keep: T -> bool)
    ensures Picks([], [], keep, [])
  {
  }

  lemma PicksOn<T(!new)>(picked: seq<T>, all: seq<T>, keep: T -> bool, at: seq<nat>, x: T) returns (at': seq<nat>)
    requires Picks(picked, all, keep, at)
    ensures Picks(picked + (if keep(x) then [x] else []), all + [x], keep, at')
  {
    at' := at + (if keep(x) then [|all|] else []);
    forall i: nat | i <= |all| ensures keep((all + [x])[i]) <==> i in at' {
      assert i == |all| ==> i !in at;
    }
  }

  lemma PicksAll<T(!new)>(picked: seq<T>, all: seq<T>, keep: T -> bool, at: seq<nat>, p: T -> bool)
    requires Picks(picked, all, keep, at)
    ensures (forall k :: 0 <= k < |picked| ==> p(picked[k]))
       <==> forall i :: 0 <= i < |all| && keep(all[i]) ==> p(all[i])
  {
    if forall k :: 0 <= k < |picked| ==> p(picked[k]) {
      forall i: nat | i < |all| && keep(all[i]) ensures p(all[i]) {
        var k :| 0 <= k < |at| && at[k] == i;
        assert p(picked[k]);
      }
    }
    if forall i :: 0 <= i < |all| && keep(all[i]) ==> p(all[i]) {
      forall k | 0 <= k < |picked| ensures p(picked[k]) {
        assert at[k] in at && keep(all[at[k]]);
      }
    }
  }

  function Min(a: int, b: int): int { if a < b then a else b }

  function Self<T>(s: seq<T>): seq<T> { s }

  /** Lists one after the other. */
  function Concat<T>(lists: seq<seq<T>>): seq<T> { Flatten(Self, lists) }

  /** What is in some lists, all together. */
  function Total<T>(lists: seq<seq<T>>): multiset<T> {
    if lists == [] then multiset{} else multiset(lists[0]) + Total(lists[1..])
  }

  lemma {:induction false} TotalOfConcat<T>(lists: seq<seq<T>>)
    ensures multiset(Concat(lists)) == Total(lists)
  {
    if lists != [] {
      TotalOfConcat(lists[1..]);
    }
  }

  /** Extending one list adds just that extension. */
  lemma {:induction false} TotalExtends<T>(lists: seq<seq<T>>, i: nat, more: seq<T>)
    requires i < |lists|
    ensures Total(lists[i := lists[i] + more]) == Total(lists) + multiset(more)
  {
    var after := lists[i := lists[i] + more];
    if i == 0 {
      assert after[1..] == lists[1..];
    } else {
      TotalExtends(lists[1..], i - 1, more);
      assert after[1..] == lists[1..][i - 1 := lists[1..][i - 1] + more];
    }
  }

  lemma {:induction false} TotalOfNothing<T>(lists: seq<seq<T>>)
    requires forall i :: 0 <= i < |lists| ==> lists[i] == []
    ensures Total(lists) == multiset{}
  {
    if lists != [] {
      TotalOfNothing(lists[1..]);
    }
  }

  lemma {:induction false} ConcatHas<T>(lists: seq<seq<T>>, i: nat, x: T)
    requires i < |lists| && x in lists[i]
    ensures x in Concat(lists)
  {
    if i > 0 {
      ConcatHas(lists[1..], i - 1, x);
    }
  }

  lemma {:induction false} InConcat<T>(lists: seq<seq<T>>, x: T) returns (i: nat)
    requires x in Concat(lists)
    ensures i < |lists| && x in lists[i]
  {
    if x in lists[0] {
      return 0;
    }
    i := InConcat(lists[1..], x);
    i := i + 1;
  }

  /** Takes one occurrence of x out. */
  lemma TakeOut<T>(s: seq<T>, x: T) returns (l: seq<T>, r: seq<T>)
    requires x in s
    ensures s == l + [x] + r
    ensures multiset(s) == multiset(l + r) + multiset{x}
  {
    var i :| 0 <= i < |s| && s[i] == x;
    l, r := s[..i], s[i + 1..];
    assert s == l + [x] + r;
  }

  function SumBy<T>(f: T -> int, s: seq<T>): int {
    if s == [] then 0 else f(s[0]) + SumBy(f, s[1..])
  }

  lemma {:induction false} SumByAppend<T>(f: T -> int, s: seq<T>, x: T)
    ensures SumBy(f, s + [x]) == SumBy(f, s) + f(x)
  {
    if s == [] {
      assert [] + [x] == [x] && [x][1..] == [];
    } else {
      var rest := s[1..];
      assert s + [x] == [s[0]] + (rest + [x]);
      SumByAppend(f, rest, x);
    }
  }

  lemma {:induction false} SumByUpdate<T>(f: T -> int, s: seq<T>, i: nat, x: T)
    requires i < |s|
    ensures SumBy(f, s[i := x]) == SumBy(f, s) - f(s[i]) + f(x)
  {
    var after := s[i := x];
    if i == 0 {
      assert after[1..] == s[1..];
    } else {
      SumByUpdate(f, s[1..], i - 1, x);
      assert after[1..] == s[1..][i - 1 := x];
    }
  }
}

/** The ring of recent decisions (internal/obs/metrics.go:154-197). */
module StatusRing {
  import opened Seqs

  /** The last n elements, newest first. */
  function Latest<T>(history: seq<T>, n: nat): (r: seq<T>)
    requires n <= |history|
    ensures |r| == n
  {
    seq(n, i requires 0 <= i < n => history[|history| - 1 - i])
  }

  /** The slot written i pushes before the last one. */
  function Back(next: nat, i: nat, cap: nat): (slot: nat)
    requires next < cap && i < cap
    ensures slot < cap
    ensures slot == if next - 1 - i >= 0 then next - 1 - i else next - 1 - i + cap
  {
    Wraps(next - 1 - i + cap, cap);
    (next - 1 - i + cap) % cap
  }

  lemma Wraps(x: int, cap: nat)
    requires 0 <= x < 2 * cap
    ensures x % cap == if x < cap then x else x - cap
  {
    var q, r := x / cap, x % cap;
    assert x == q * cap + r && 0 <= r < cap;
    assert q >= 2 ==> q * cap >= 2 * cap;
    assert q < 0 ==> q * cap <= -1 * cap;
  }

  class Ring<T(0)> {
    const items: array<T>
    const cap: nat
    var nextIdx: nat
    var count: nat
    ghost var history: seq<T>  // every element ever pushed, oldest first

    ghost predicate Valid()
      reads this, items
    {
      && cap == items.Length && cap >= 1
      && nextIdx < cap && count == Min(|history|, cap)
      && (count < cap ==> nextIdx == count)
      && forall i :: 0 <= i < count ==> items[Back(nextIdx, i, cap)] == history[|history| - 1 - i]
    }

    constructor (cap: int)
      ensures Valid() && fresh(items) && history == []
      ensures this.cap == if cap < 1 then 1 else cap
    {
      var c := if cap < 1 then 1 else cap;
      items := new T[c];
      this.cap := c;
      nextIdx, count := 0, 0;
      history := [];
    }

    /** Adds an element, evicting the oldest when full. */
    method Push(s: T)
      requires Valid()
      modifies this, items
      ensures Valid() && history == old(history) + [s]
    {
      items[nextIdx] := s;
      Wraps(nextIdx + 1, cap);
      ghost var before := nextIdx;
      nextIdx := (nextIdx + 1) % cap;
      if count < cap {
        count := count + 1;
      }
      history := history + [s];
      forall i | 0 <= i < count ensures items[Back(nextIdx, i, cap)] == history[|history| - 1 - i] {
        if i == 0 {
          assert Back(nextIdx, 0, cap) == before;
        } else {
          assert Back(nextIdx, i, cap) == Back(before, i - 1, cap) != before;
        }
      }
    }

    /** The newest min(n, pushes, capacity) elements, newest first; n <= 0 asks for all of them. */
    method Recent(n: int) returns (out: seq<T>)
      requires Valid()
      ensures var held := Min(|history|, cap);
              out == Latest(history, if n <= 0 || n > held then held else n)
    {
      var m := if n <= 0 || n > count then count else n;
      out := [];
      for i := 0 to m
        invariant out == Latest(history, m)[..i]
      {
        out := out + [items[Back(nextIdx, i, cap)]];
      }
    }
  }

  function Reverse<T>(s: seq<T>): (r: seq<T>)
    ensures |r| == |s|
  {
    if s == [] then [] else Reverse(s[1..]) + [s[0]]
  }

  lemma {:induction false} ReverseAt<T>(s: seq<T>, i: nat)
    requires i < |s|
    ensures Reverse(s)[i] == s[|s| - 1 - i]
  {
    if i < |s| - 1 {
      ReverseAt(s[1..], i);
    }
  }

  /** What Recent returns is the reverse of the last elements pushed. */
  lemma LatestIsReversedTail<T>(history: seq<T>, n: nat)
    requires n <= |history|
    ensures Latest(history, n) == Reverse(history[|history| - n..])
  {
    var tail := history[|history| - n..];
    forall i | 0 <= i < n ensures Latest(history, n)[i] == Reverse(tail)[i] {
      ReverseAt(tail, i);
    }
  }
}

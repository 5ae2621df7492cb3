/** The snapshot directory: names, pruning, and concurrent writers (internal/obs/snapshot.go:60-130).
    The directory is a set of file names. */
module Snapshots {
  import opened Sorting
  import opened Text

  // ---------- The greatest names ----------

  /** The names of s greater than n. */
  ghost function Above(s: set<string>, n: string): set<string> {
    set m | m in s && LexLt(n, m)
  }

  /** The r greatest names of s. */
  ghost function Top(s: set<string>, r: nat): set<string> {
    set n | n in s && |Above(s, n)| < r
  }

  ghost function Elements(l: seq<string>): set<string> { set n | n in l }

  ghost predicate Ascending(l: seq<string>) {
    forall i, j :: 0 <= i < j < |l| ==> LexLt(l[i], l[j])
  }

  lemma {:induction false} DistinctCount(l: seq<string>)
    requires Ascending(l)
    ensures |Elements(l)| == |l|
  {
    if l != [] {
      var (front, last) := (l[..|l| - 1], l[|l| - 1]);
      DistinctCount(front);
      assert l == front + [last];
      assert Elements(l) == Elements(front) + {last};
      forall n | n in front ensures n != last {
        var i :| 0 <= i < |front| && front[i] == n;
        assert LexLt(l[i], l[|l| - 1]);
      }
    }
  }

  lemma LexAsymmetric(a: string, b: string)
    ensures !(LexLt(a, b) && LexLt(b, a))
  {
    LexTotal(a, b);
  }

  /** In an ascending list the names above the i-th are the ones behind it. */
  lemma AboveInList(l: seq<string>, i: nat)
    requires Ascending(l) && i < |l|
    ensures |Above(Elements(l), l[i])| == |l| - 1 - i
  {
    var behind := l[i + 1..];
    forall m | m in Above(Elements(l), l[i]) ensures m in behind {
      var j :| 0 <= j < |l| && l[j] == m;
      if j < i {
        LexAsymmetric(l[i], l[j]);
      }
      assert j > i && behind[j - i - 1] == m;
    }
    forall m | m in behind ensures m in Above(Elements(l), l[i]) {
      var j :| 0 <= j < |behind| && behind[j] == m;
      assert l[i + 1 + j] == m && LexLt(l[i], l[i + 1 + j]);
    }
    assert Above(Elements(l), l[i]) == Elements(behind);
    DistinctCount(behind);
  }

  /** How many names an ascending listing has too many. */
  function Excess(l: seq<string>, r: nat): (k: nat)
    ensures k <= |l|
  {
    if |l| <= r then 0 else |l| - r
  }

  /** The r greatest names are the last r of an ascending listing. */
  lemma TopIsTail(l: seq<string>, r: nat)
    requires Ascending(l)
    ensures forall i :: 0 <= i < |l| ==> (l[i] in Top(Elements(l), r) <==> i >= Excess(l, r))
    ensures Top(Elements(l), r) == Elements(l[Excess(l, r)..])
    ensures |Top(Elements(l), r)| == |l| - Excess(l, r)
  {
    var k := Excess(l, r);
    forall i | 0 <= i < |l| ensures l[i] in Top(Elements(l), r) <==> i >= k {
      AboveInList(l, i);
    }
    TailElements(l, k, Top(Elements(l), r));
    DistinctCount(l[k..]);
  }

  lemma TailElements(l: seq<string>, k: nat, t: set<string>)
    requires k <= |l| && t <= Elements(l)
    requires forall i :: 0 <= i < |l| ==> (l[i] in t <==> i >= k)
    ensures t == Elements(l[k..])
  {
    forall n | n in t ensures n in l[k..] {
      var i :| 0 <= i < |l| && l[i] == n;
      assert l[k..][i - k] == n;
    }
    forall n | n in l[k..] ensures n in t {
      var j :| 0 <= j < |l| - k && l[k..][j] == n;
      assert l[k + j] == n;
    }
  }

  /** Every directory has an ascending listing. */
  lemma {:induction false} Listing(s: set<string>) returns (l: seq<string>)
    ensures Ascending(l) && Elements(l) == s
    decreases |s|
  {
    if s == {} {
      return [];
    }
    var greatest := Greatest(s);
    l := Listing(s - {greatest});
    l := l + [greatest];
    forall i, j | 0 <= i < j < |l| ensures LexLt(l[i], l[j]) {
      if j == |l| - 1 {
        assert l[..j][i] == l[i] && l[i] in Elements(l[..j]);
      }
    }
    assert Elements(l) == Elements(l[..|l| - 1]) + {greatest};
  }

  lemma {:induction false} Greatest(s: set<string>) returns (g: string)
    requires s != {}
    ensures g in s && forall n :: n in s && n != g ==> LexLt(n, g)
    decreases |s|
  {
    var x :| x in s;
    if s == {x} {
      return x;
    }
    g := Greatest(s - {x});
    LexTotal(x, g);
    if LexLt(g, x) {
      forall n | n in s && n != x ensures LexLt(n, x) {
        if n != g {
          assert LexLt(n, g);
          LexTransitive(n, g, x);
          LexAsymmetric(n, g);
        }
      }
      g := x;
    }
  }

  /** Files beside the top ones do not change what the top ones are. */
  lemma TopOfPart(all: set<string>, part: set<string>, r: nat)
    requires Top(all, r) <= part <= all
    ensures Top(part, r) == Top(all, r)
  {
    forall n | n in part ensures n in Top(part, r) <==> n in Top(all, r) {
      assert Above(part, n) <= Above(all, n);
      Smaller(Above(part, n), Above(all, n));
      if n !in Top(all, r) {
        var l := Listing(all);
        TopIsTail(l, r);
        var i :| 0 <= i < |l| && l[i] == n;
        forall t | t in Top(all, r) ensures t in Above(part, n) {
          var j :| 0 <= j < |l| && l[j] == t;
          assert LexLt(l[i], l[j]);
        }
        Smaller(Top(all, r), Above(part, n));
      }
    }
  }

  lemma Smaller(a: set<string>, b: set<string>)
    requires a <= b
    ensures |a| <= |b|
  {
    assert b == a + (b - a);
  }

  /** A new name can only push others out. */
  lemma TopShrinks(s: set<string>, n: string, r: nat)
    ensures Top(s + {n}, r) <= Top(s, r) + {n}
  {
    forall m | m in Top(s + {n}, r) && m != n ensures m in Top(s, r) {
      assert Above(s, m) <= Above(s + {n}, m);
      Smaller(Above(s, m), Above(s + {n}, m));
    }
  }

  lemma SmallIsAllTop(s: set<string>, r: nat)
    requires |s| <= r
    ensures Top(s, r) == s
  {
    var l := Listing(s);
    DistinctCount(l);
    TopIsTail(l, r);
    forall n | n in s ensures n in Top(s, r) {
      var i :| 0 <= i < |l| && l[i] == n;
    }
  }

  // ---------- One writer ----------

  /** Reads a directory: its names, sorted. */
  method ReadDir(dir: set<string>) returns (names: seq<string>)
    ensures Ascending(names) && Elements(names) == dir
  {
    var unsorted: seq<string>, left := [], dir;
    while left != {}
      invariant left <= dir && Elements(unsorted) == dir - left
      invariant multiset(unsorted) == multiset(dir - left)
      decreases left
    {
      var x :| x in left;
      assert dir - (left - {x}) == (dir - left) + {x};
      assert Elements(unsorted + [x]) == Elements(unsorted) + {x};
      unsorted := unsorted + [x];
      left := left - {x};
    }
    assert dir - left == dir;
    LexIsTotalOrder();
    SortSorts(LexLe, unsorted);
    names := Sort(LexLe, unsorted);
    assert multiset(names) == multiset(dir);
    forall n ensures n in names <==> n in dir {
      assert n in names <==> n in multiset(names);
    }
    SortedSetAscends(names, dir);
  }

  /** A listing of a set names nothing twice. */
  lemma NoDuplicates(names: seq<string>, dir: set<string>, j: nat)
    requires multiset(names) == multiset(dir) && j < |names|
    ensures names[j] !in names[..j]
  {
    var (a, b, x) := (names[..j], names[j..], names[j]);
    assert names == a + b && b[0] == x;
    assert multiset(names)[x] == multiset(a)[x] + multiset(b)[x];
    assert multiset(b)[x] >= 1 && multiset(dir)[x] <= 1;
    assert x in a <==> multiset(a)[x] > 0;
  }

  lemma SortedSetAscends(names: seq<string>, dir: set<string>)
    requires SortedBy(LexLe, names) && multiset(names) == multiset(dir)
    ensures Ascending(names)
  {
    forall i, j | 0 <= i < j < |names| ensures LexLt(names[i], names[j]) {
      NoDuplicates(names, dir, j);
      assert names[..j][i] == names[i];
    }
  }

  lemma {:induction false} FrontAndBehind(names: seq<string>, k: nat)
    requires Ascending(names) && k <= |names|
    ensures Elements(names) - Elements(names[..k]) == Elements(names[k..])
  {
    forall n ensures n in names[k..] <==> n in names && n !in names[..k] {
      if n in names[k..] {
        var j :| 0 <= j < |names| - k && names[k..][j] == n;
        forall i | 0 <= i < k ensures names[..k][i] != n {
          assert LexLt(names[i], names[k + j]);
        }
      }
      if n in names && n !in names[..k] {
        var i :| 0 <= i < |names| && names[i] == n;
        assert forall m :: 0 <= m < k ==> names[..k][m] == names[m];
        assert names[k..][i - k] == n;
      }
    }
  }

  class SnapshotWriter {
    const retention: int
    var dir: set<string>
    ghost var written: set<string>

    /** The directory is the retained part of everything ever written to it. */
    ghost predicate Valid()
      reads this
    {
      retention > 0 ==> dir == Top(written, retention)
    }

    constructor (retention: int)
      ensures Valid() && written == {} && dir == {} && this.retention == retention
    {
      this.retention := retention;
      dir, written := {}, {};
      new;
      assert Top({}, if retention > 0 then retention else 0) == {};
    }

    /** Writes one snapshot and prunes: afterwards the directory is the retention greatest names ever
        written. Without retention nothing is written at all. */
    method Write(name: string)
      requires Valid()
      modifies this
      ensures Valid()
      ensures written == old(written) + (if retention > 0 then {name} else {})
      ensures retention <= 0 ==> dir == old(dir)
    {
      if retention <= 0 {
        return;
      }
      dir := dir + {name};
      written := written + {name};
      TopShrinks(old(written), name, retention);
      TopOfPart(written, dir, retention);
      Prune();
    }

    /** Deletes the oldest files until at most `retention` are left. */
    method Prune()
      requires retention > 0
      modifies this`dir
      ensures dir == Top(old(dir), retention)
    {
      var names := ReadDir(dir);
      TopIsTail(names, retention);
      if |names| <= retention {
        DistinctCount(names);
        SmallIsAllTop(dir, retention);
        return;
      }
      var excess := |names| - retention;
      FrontAndBehind(names, excess);
      ghost var before := dir;
      var i := 0;
      while i < excess
        invariant 0 <= i <= excess
        invariant dir == before - Elements(names[..i])
      {
        OneMoreElement(names, i, before);
        dir := dir - {names[i]};
        i := i + 1;
      }
    }
  }

  lemma OneMoreElement(l: seq<string>, i: nat, s: set<string>)
    requires i < |l|
    ensures s - Elements(l[..i + 1]) == s - Elements(l[..i]) - {l[i]}
  {
    assert l[..i + 1] == l[..i] + [l[i]];
    assert Elements(l[..i + 1]) == Elements(l[..i]) + {l[i]};
  }

  // ---------- Concurrent writers ----------

  /** A Write call: the file is created, the directory listed, the doomed files removed one by one. */
  datatype Writer =
    | Waiting(name: string)
    | Created(name: string)
    | Removing(doomed: seq<string>)

  datatype State = State(dir: set<string>, written: set<string>, writers: seq<Writer>)

  /** What a prune that lists this directory decides to remove, oldest first. */
  ghost predicate Doomed(dir: set<string>, r: nat, doomed: seq<string>) {
    exists l :: Ascending(l) && Elements(l) == dir && doomed == l[..Excess(l, r)]
  }

  /** One step of one writer. */
  ghost predicate Next(r: nat, s: State, i: nat, t: State) {
    && i < |s.writers| && |t.writers| == |s.writers|
    && t.writers == s.writers[i := t.writers[i]]
    && match s.writers[i]
       case Waiting(name) =>
         t.writers[i] == Created(name) && t.dir == s.dir + {name} && t.written == s.written + {name}
       case Created(_) =>
         t.writers[i].Removing? && Doomed(s.dir, r, t.writers[i].doomed) && t.dir == s.dir && t.written == s.written
       case Removing(doomed) =>
         doomed != [] && t.writers[i] == Removing(doomed[1..]) && t.dir == s.dir - {doomed[0]} && t.written == s.written
  }

  ghost predicate Run(r: nat, states: seq<State>, moves: seq<nat>) {
    |states| == |moves| + 1 && forall k :: 0 <= k < |moves| ==> Next(r, states[k], moves[k], states[k + 1])
  }

  /** Writers that have not begun, over a directory within its limit. */
  ghost predicate Initial(r: nat, s: State) {
    s.written == s.dir && |s.dir| <= r && forall i :: 0 <= i < |s.writers| ==> s.writers[i].Waiting?
  }

  /** Some writer is still going to deal with this name. */
  ghost predicate InCare(s: State, n: string) {
    exists i :: 0 <= i < |s.writers| && (s.writers[i].Created? || (s.writers[i].Removing? && n in s.writers[i].doomed))
  }

  ghost predicate Inv(r: nat, s: State) {
    && Top(s.written, r) <= s.dir <= s.written
    && (forall i, n :: 0 <= i < |s.writers| && s.writers[i].Removing? && n in s.writers[i].doomed ==>
          n in s.written && n !in Top(s.written, r))
    && (forall n :: n in s.dir && n !in Top(s.written, r) ==> InCare(s, n))
  }

  lemma DoomedMeans(dir: set<string>, r: nat, doomed: seq<string>)
    requires Doomed(dir, r, doomed)
    ensures forall n :: n in doomed <==> n in dir && n !in Top(dir, r)
  {
    var l :| Ascending(l) && Elements(l) == dir && doomed == l[..Excess(l, r)];
    TopIsTail(l, r);
    forall n ensures n in doomed <==> n in dir && n !in Top(dir, r) {
      if n in doomed {
        var i :| 0 <= i < |doomed| && doomed[i] == n;
        assert l[i] == n;
      }
      if n in dir && n !in Top(dir, r) {
        var i :| 0 <= i < |l| && l[i] == n;
        assert doomed[i] == n;
      }
    }
  }

  lemma CreateKeeps(r: nat, s: State, i: nat, t: State)
    requires Inv(r, s) && Next(r, s, i, t) && s.writers[i].Waiting?
    ensures Inv(r, t)
  {
    TopShrinks(s.written, s.writers[i].name, r);
    assert t.writers[i].Created?;
    forall n | n in t.dir ensures InCare(t, n) {}
    forall j, n | 0 <= j < |t.writers| && t.writers[j].Removing? && n in t.writers[j].doomed
      ensures n in t.written && n !in Top(t.written, r)
    {
      assert s.writers[j] == t.writers[j];
      StaysOut(s.written, s.writers[i].name, n, r);
    }
  }

  /** A name already pushed out is never in again. */
  lemma StaysOut(s: set<string>, n: string, m: string, r: nat)
    requires m in s && m !in Top(s, r)
    ensures m !in Top(s + {n}, r)
  {
    assert Above(s, m) <= Above(s + {n}, m);
    Smaller(Above(s, m), Above(s + {n}, m));
  }

  lemma ListKeeps(r: nat, s: State, i: nat, t: State)
    requires Inv(r, s) && Next(r, s, i, t) && s.writers[i].Created?
    ensures Inv(r, t)
  {
    DoomedMeans(s.dir, r, t.writers[i].doomed);
    TopOfPart(s.written, s.dir, r);
    forall n | n in t.dir && n !in Top(t.written, r) ensures InCare(t, n) {
      assert n in t.writers[i].doomed;
    }
    forall j, n | 0 <= j < |t.writers| && t.writers[j].Removing? && n in t.writers[j].doomed
      ensures n in t.written && n !in Top(t.written, r)
    {
      if j != i {
        assert s.writers[j] == t.writers[j];
      }
    }
  }

  lemma RemoveKeeps(r: nat, s: State, i: nat, t: State)
    requires Inv(r, s) && Next(r, s, i, t) && s.writers[i].Removing?
    ensures Inv(r, t)
  {
    var doomed := s.writers[i].doomed;
    assert doomed[0] in doomed;
    forall n | n in t.dir && n !in Top(t.written, r) ensures InCare(t, n) {
      assert InCare(s, n);
      var j :| 0 <= j < |s.writers| && (s.writers[j].Created? || (s.writers[j].Removing? && n in s.writers[j].doomed));
      if j == i {
        assert n in doomed && n != doomed[0];
        assert doomed == [doomed[0]] + doomed[1..];
        assert n in t.writers[i].doomed;
      } else {
        assert t.writers[j] == s.writers[j];
      }
    }
    forall j, n | 0 <= j < |t.writers| && t.writers[j].Removing? && n in t.writers[j].doomed
      ensures n in t.written && n !in Top(t.written, r)
    {
      if j == i {
        assert n in doomed;
      } else {
        assert s.writers[j] == t.writers[j];
      }
    }
  }

  lemma {:induction false} InvAlways(r: nat, states: seq<State>, moves: seq<nat>, k: nat)
    requires Run(r, states, moves) && Initial(r, states[0]) && k < |states|
    ensures Inv(r, states[k])
  {
    if k == 0 {
      SmallIsAllTop(states[0].dir, r);
    } else {
      InvAlways(r, states, moves, k - 1);
      var (s, i, t) := (states[k - 1], moves[k - 1], states[k]);
      assert Next(r, s, i, t);
      match s.writers[i]
      case Waiting(_) => CreateKeeps(r, s, i, t);
      case Created(_) => ListKeeps(r, s, i, t);
      case Removing(_) => RemoveKeeps(r, s, i, t);
    }
  }

  /** No writer is between creating its file and finishing its prune. */
  ghost predicate Quiescent(s: State) {
    forall i :: 0 <= i < |s.writers| ==> s.writers[i].Waiting? || s.writers[i] == Removing([])
  }

  /** In every interleaving of any number of writers: a file a prune is about to remove is never among
      the `retention` greatest names written so far, those are all there at every moment, and whenever
      no writer is at work the directory is exactly those names. */
  lemma PruningKeepsTheNewest(r: nat, states: seq<State>, moves: seq<nat>, k: nat)
    requires Run(r, states, moves) && Initial(r, states[0]) && k < |states|
    ensures Top(states[k].written, r) <= states[k].dir
    ensures k < |moves| ==> moves[k] < |states[k].writers|
    ensures k < |moves| && states[k].writers[moves[k]].Removing? ==>
              var doomed := states[k].writers[moves[k]].doomed;
              doomed != [] && doomed[0] !in Top(states[k].written, r)
    ensures Quiescent(states[k]) ==> states[k].dir == Top(states[k].written, r)
  {
    InvAlways(r, states, moves, k);
    var s := states[k];
    if k < |moves| {
      assert Next(r, s, moves[k], states[k + 1]);
      if s.writers[moves[k]].Removing? {
        assert s.writers[moves[k]].doomed[0] in s.writers[moves[k]].doomed;
      }
    }
    if Quiescent(s) {
      forall n | n in s.dir ensures n in Top(s.written, r) {
        assert !InCare(s, n);
      }
    }
  }

  // ---------- Names sort like times ----------

  function Digits(n: nat, width: nat): (s: string)
    ensures |s| == width
  {
    if width == 0 then "" else Digits(n / 10, width - 1) + [('0' as int + n % 10) as char]
  }

  lemma {:induction false} DigitsAscend(m: nat, n: nat, width: nat)
    requires m < n < Pow10(width)
    ensures LexLt(Digits(m, width), Digits(n, width))
  {
    if width > 0 {
      var (a, b) := (Digits(m / 10, width - 1), Digits(n / 10, width - 1));
      var (c, d) := ([('0' as int + m % 10) as char], [('0' as int + n % 10) as char]);
      if m / 10 < n / 10 {
        DigitsAscend(m / 10, n / 10, width - 1);
      } else {
        assert m / 10 == n / 10 && m % 10 < n % 10;
        assert LexLt(c, d);
      }
      LexConcat(a, c, b, d);
    }
  }

  /** The pieces of a formatted time: numbers of fixed width and separators. */
  datatype Part = Number(value: nat, width: nat) | Separator(text: string)

  function PartText(p: Part): string {
    match p
    case Number(v, w) => Digits(v, w)
    case Separator(t) => t
  }

  function PartsText(ps: seq<Part>): string {
    if ps == [] then "" else PartText(ps[0]) + PartsText(ps[1..])
  }

  /** Same layout, and every number fits its width. */
  predicate Alike(a: seq<Part>, b: seq<Part>) {
    |a| == |b| && forall i :: 0 <= i < |a| ==>
      match (a[i], b[i])
      case (Number(v, w), Number(v', w')) => w == w' && v < Pow10(w) && v' < Pow10(w)
      case (Separator(t), Separator(t')) => t == t'
      case (_, _) => false
  }

  /** The first number that differs decides. */
  predicate Earlier(a: seq<Part>, b: seq<Part>)
    requires Alike(a, b)
  {
    a != [] &&
    (if a[0] == b[0] then Earlier(a[1..], b[1..]) else a[0].value < b[0].value)
  }

  lemma {:induction false} PartsAscend(a: seq<Part>, b: seq<Part>, x: string, y: string)
    requires Alike(a, b)
    ensures Earlier(a, b) ==> LexLt(PartsText(a) + x, PartsText(b) + y)
    decreases |a|
  {
    if a != [] {
      assert Alike(a[1..], b[1..]);
      var (p, q) := (PartText(a[0]), PartText(b[0]));
      assert PartsText(a) + x == p + (PartsText(a[1..]) + x) && PartsText(b) + y == q + (PartsText(b[1..]) + y);
      if a[0] == b[0] {
        PartsAscend(a[1..], b[1..], x, y);
      } else if Earlier(a, b) {
        DigitsAscend(a[0].value, b[0].value, a[0].width);
      }
      if |p| == |q| {
        LexConcat(p, PartsText(a[1..]) + x, q, PartsText(b[1..]) + y);
      }
    }
  }

  /** A UTC time by its calendar fields. */
  datatype Stamp = Stamp(year: nat, month: nat, day: nat, hour: nat, minute: nat, second: nat, nano: nat)

  predicate Calendar(s: Stamp) {
    && s.year <= 9999 && 1 <= s.month <= 12 && 1 <= s.day <= 31
    && s.hour < 24 && s.minute < 60 && s.second < 60 && s.nano < 1000000000
  }

  /** The layout of a file name's time: four-digit year down to nine-digit nanoseconds. */
  function PartsOf(s: Stamp): seq<Part> {
    [Number(s.year, 4), Number(s.month, 2), Number(s.day, 2), Separator("T"),
     Number(s.hour, 2), Number(s.minute, 2), Number(s.second, 2), Separator("."), Number(s.nano, 9)]
  }

  function FileName(s: Stamp, requestID: string): string {
    PartsText(PartsOf(s)) + ("-" + requestID + ".json")
  }

  /** Calendar order of times. */
  predicate Before(a: Stamp, b: Stamp) {
    || a.year < b.year
    || (a.year == b.year &&
        (|| a.month < b.month
         || (a.month == b.month &&
             (|| a.day < b.day
              || (a.day == b.day &&
                  (|| a.hour < b.hour
                   || (a.hour == b.hour &&
                       (|| a.minute < b.minute
                        || (a.minute == b.minute &&
                            (|| a.second < b.second
                             || (a.second == b.second && a.nano < b.nano)))))))))))
  }

  lemma StampsAlike(a: Stamp, b: Stamp)
    requires Calendar(a) && Calendar(b)
    ensures Alike(PartsOf(a), PartsOf(b))
  {
    assert Pow10(2) == 100;
    assert Pow10(4) == 10000 by {
      assert Pow10(3) == 1000;
    }
    assert Pow10(9) == 1000000000 by {
      assert Pow10(5) == 100000 && Pow10(7) == 10000000;
    }
  }

  lemma AlikeFrom(a: seq<Part>, b: seq<Part>, k: nat)
    requires Alike(a, b) && k <= |a|
    ensures Alike(a[k..], b[k..])
  {
    forall i | 0 <= i < |a| - k ensures a[k..][i] == a[k + i] && b[k..][i] == b[k + i] {}
  }

  lemma EarlierFrom(a: seq<Part>, b: seq<Part>, k: nat)
    requires Alike(a, b) && k < |a| && Alike(a[k..], b[k..]) && Alike(a[k + 1..], b[k + 1..])
    ensures Earlier(a[k..], b[k..]) <==>
            if a[k] == b[k] then Earlier(a[k + 1..], b[k + 1..]) else a[k].value < b[k].value
  {
    assert a[k..][1..] == a[k + 1..] && b[k..][1..] == b[k + 1..];
  }

  lemma {:induction false} FirstDifference(a: seq<Part>, b: seq<Part>, k: nat, i: nat)
    requires Alike(a, b) && i <= k < |a| && a[k].Number? && b[k].Number? && a[k].value < b[k].value
    requires forall j :: i <= j < k ==> a[j] == b[j]
    requires Alike(a[i..], b[i..])
    ensures Earlier(a[i..], b[i..])
    decreases k - i
  {
    AlikeFrom(a, b, i + 1);
    EarlierFrom(a, b, i);
    if i < k {
      FirstDifference(a, b, k, i + 1);
    }
  }

  lemma BeforeIsEarlier(a: Stamp, b: Stamp)
    requires Alike(PartsOf(a), PartsOf(b)) && Before(a, b)
    ensures Earlier(PartsOf(a), PartsOf(b))
  {
    var (x, y) := (PartsOf(a), PartsOf(b));
    assert x[0..] == x && y[0..] == y;
    var k := if a.year != b.year then 0 else if a.month != b.month then 1 else if a.day != b.day then 2
             else if a.hour != b.hour then 4 else if a.minute != b.minute then 5
             else if a.second != b.second then 6 else 8;
    FirstDifference(x, y, k, 0);
  }

  /** For the years 0000 to 9999 the names sort as their times do, whatever the request IDs. */
  lemma NamesSortByTime(a: Stamp, idA: string, b: Stamp, idB: string)
    requires Calendar(a) && Calendar(b) && a != b
    ensures LexLt(FileName(a, idA), FileName(b, idB)) <==> Before(a, b)
  {
    StampsAlike(a, b);
    StampsAlike(b, a);
    if Before(a, b) {
      BeforeIsEarlier(a, b);
      PartsAscend(PartsOf(a), PartsOf(b), "-" + idA + ".json", "-" + idB + ".json");
    } else {
      BeforeIsEarlier(b, a);
      PartsAscend(PartsOf(b), PartsOf(a), "-" + idB + ".json", "-" + idA + ".json");
      LexAsymmetric(FileName(a, idA), FileName(b, idB));
    }
  }

  /** A name is a time of 25 bytes, the request's ID behind it, and the ending. */
  lemma NameLayout(s: Stamp, requestID: string) returns (time: string)
    ensures FileName(s, requestID) == time + "-" + requestID + ".json" && |time| == 25
    ensures time[8] == 'T' && time[15] == '.'
    ensures time[..4] == Digits(s.year, 4) && time[16..] == Digits(s.nano, 9)
  {
    time := PartsText(PartsOf(s));
    var (date, clock) := (Digits(s.year, 4) + Digits(s.month, 2) + Digits(s.day, 2),
                          Digits(s.hour, 2) + Digits(s.minute, 2) + Digits(s.second, 2));
    PartsJoined(s, date, clock);
    assert time + ("-" + requestID + ".json") == time + "-" + requestID + ".json";
  }

  lemma PartsJoined(s: Stamp, date: string, clock: string)
    requires date == Digits(s.year, 4) + Digits(s.month, 2) + Digits(s.day, 2)
    requires clock == Digits(s.hour, 2) + Digits(s.minute, 2) + Digits(s.second, 2)
    ensures PartsText(PartsOf(s)) == date + "T" + clock + "." + Digits(s.nano, 9)
  {
    var ps := PartsOf(s);
    ThreeFrom(ps, 0);
    TextFrom(ps, 3);
    ThreeFrom(ps, 4);
    TextFrom(ps, 7);
    TextFrom(ps, 8);
    assert ps[0..] == ps && ps[9..] == [];
    FiveJoined(date, "T", clock, ".", Digits(s.nano, 9));
  }

  lemma FiveJoined(a: string, b: string, c: string, d: string, e: string)
    ensures a + (b + (c + (d + (e + "")))) == a + b + c + d + e
  {
  }

  lemma ThreeFrom(ps: seq<Part>, k: nat)
    requires k + 2 < |ps|
    ensures PartsText(ps[k..])
         == PartText(ps[k]) + PartText(ps[k + 1]) + PartText(ps[k + 2]) + PartsText(ps[k + 3..])
  {
    TextFrom(ps, k);
    TextFrom(ps, k + 1);
    TextFrom(ps, k + 2);
    var (a, b, c, d) := (PartText(ps[k]), PartText(ps[k + 1]), PartText(ps[k + 2]), PartsText(ps[k + 3..]));
    assert a + (b + (c + d)) == a + b + c + d;
  }

  lemma TextFrom(ps: seq<Part>, k: nat)
    requires k < |ps|
    ensures PartsText(ps[k..]) == PartText(ps[k]) + PartsText(ps[k + 1..])
  {
    assert ps[k..][1..] == ps[k + 1..];
  }

  /** Two snapshots share a name only if they are of the same time and the same request. */
  lemma NamesTellApart(a: Stamp, idA: string, b: Stamp, idB: string)
    requires Calendar(a) && Calendar(b) && FileName(a, idA) == FileName(b, idB)
    ensures a == b && idA == idB
  {
    if a != b {
      NamesSortByTime(a, idA, b, idB);
      NamesSortByTime(b, idB, a, idA);
      OneBeforeOther(a, b);
      LexAsymmetric(FileName(a, idA), FileName(b, idB));
    } else {
      var (t, n) := (PartsText(PartsOf(a)), |PartsText(PartsOf(a))|);
      SameEndings(t, idA, idB);
    }
  }

  lemma OneBeforeOther(a: Stamp, b: Stamp)
    requires a != b
    ensures Before(a, b) || Before(b, a)
  {
  }

  lemma SameEndings(t: string, x: string, y: string)
    requires t + ("-" + x + ".json") == t + ("-" + y + ".json")
    ensures x == y
  {
    var (s, u) := (t + ("-" + x + ".json"), t + ("-" + y + ".json"));
    assert s[|t| + 1..|s| - 5] == x && u[|t| + 1..|u| - 5] == y;
  }
}

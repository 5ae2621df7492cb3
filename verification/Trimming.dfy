/** What Go's strings.TrimSpace takes off a byte string: the white space characters of Unicode, in UTF-8. */
module Trimming {
  import opened Seqs
  import opened Text

  /** The code points with the property White_Space. */
  predicate WhiteSpace(r: nat) {
    || 0x09 <= r <= 0x0D || r == 0x20 || r == 0x85 || r == 0xA0 || r == 0x1680 || 0x2000 <= r <= 0x200A
    || r == 0x2028 || r == 0x2029 || r == 0x202F || r == 0x205F || r == 0x3000
  }

  predicate IsSpace(piece: string) {
    1 <= |piece| <= 3 && RuneOf(piece) >= 0 && WhiteSpace(RuneOf(piece)) && RuneText(RuneOf(piece)) == piece
  }

  lemma OneByteIsSpace(s: string)
    requires |s| == 1
    ensures OneByteSpace(s[0]) <==> IsSpace(s)
  {
  }

  lemma TwoBytesAreSpace(s: string)
    requires |s| == 2
    ensures TwoByteSpace(s[0], s[1]) <==> IsSpace(s)
  {
    var r := RuneOf(s);
    if TwoByteSpace(s[0], s[1]) {
      assert r == 0x85 || r == 0xA0;
    }
    if IsSpace(s) {
      assert 0x80 <= r < 0x800;
    }
  }

  lemma ThreeBytesAreSpace(s: string)
    requires |s| == 3
    ensures ThreeByteSpace(s[0], s[1], s[2]) <==> IsSpace(s)
  {
    var r := RuneOf(s);
    if IsSpace(s) {
      assert 0x800 <= r < 0x10000;
    }
  }

  lemma SpacesOf(piece: string)
    requires 1 <= |piece| <= 3
    ensures IsSpace(piece) <==>
            if |piece| == 1 then OneByteSpace(piece[0]) else if |piece| == 2 then TwoByteSpace(piece[0], piece[1])
            else ThreeByteSpace(piece[0], piece[1], piece[2])
  {
    if |piece| == 1 {
      OneByteIsSpace(piece);
    } else if |piece| == 2 {
      TwoBytesAreSpace(piece);
    } else {
      ThreeBytesAreSpace(piece);
    }
  }

  /** What is found at the front of a text is a white space character, and any there is found. */
  lemma SpaceAtFrontIsSpace(s: string)
    ensures SpaceAtFront(s) > 0 ==> IsSpace(s[..SpaceAtFront(s)])
    ensures forall piece :: IsSpace(piece) && piece <= s ==> SpaceAtFront(s) == |piece|
  {
    if SpaceAtFront(s) > 0 {
      SpacesOf(s[..SpaceAtFront(s)]);
    }
    forall piece | IsSpace(piece) && piece <= s ensures SpaceAtFront(s) == |piece| {
      SpacesOf(piece);
    }
  }

  lemma SpaceAtEndIsSpace(s: string)
    ensures SpaceAtEnd(s) > 0 ==> IsSpace(s[|s| - SpaceAtEnd(s)..])
    ensures forall piece :: IsSpace(piece) && HasSuffix(s, piece) ==> SpaceAtEnd(s) == |piece|
  {
    if SpaceAtEnd(s) > 0 {
      SpacesOf(s[|s| - SpaceAtEnd(s)..]);
    }
    forall piece | IsSpace(piece) && HasSuffix(s, piece) ensures SpaceAtEnd(s) == |piece| {
      SpacesOf(piece);
      var k := |s| - |piece|;
      assert forall j :: 0 <= j < |piece| ==> s[k + j] == piece[j];
    }
  }

  /** A text made of some pieces. */
  ghost predicate MadeOf(s: string, fits: string -> bool) {
    exists pieces: seq<string> :: s == Concat(pieces) && forall k :: 0 <= k < |pieces| ==> fits(pieces[k])
  }

  lemma PieceFirst(piece: string, rest: string, fits: string -> bool)
    requires fits(piece) && MadeOf(rest, fits)
    ensures MadeOf(piece + rest, fits)
  {
    var pieces :| rest == Concat(pieces) && forall k :: 0 <= k < |pieces| ==> fits(pieces[k]);
    var all := [piece] + pieces;
    assert all[1..] == pieces && Concat(all) == piece + rest;
  }

  lemma PieceLast(rest: string, piece: string, fits: string -> bool)
    requires fits(piece) && MadeOf(rest, fits)
    ensures MadeOf(rest + piece, fits)
  {
    var pieces :| rest == Concat(pieces) && forall k :: 0 <= k < |pieces| ==> fits(pieces[k]);
    FlattenAppend(Self<char>, pieces, [piece]);
    FlattenOne(Self<char>, piece);
    assert rest + piece == Concat(pieces + [piece]);
  }

  lemma MadeOfNothing(fits: string -> bool)
    ensures MadeOf("", fits)
  {
    assert Concat<char>([]) == [];
  }

  lemma {:induction false} TrimLeftTakes(s: string, fits: string -> bool) returns (a: string)
    requires forall t: string :: SpaceAtFront(t) > 0 ==> fits(t[..SpaceAtFront(t)])
    ensures s == a + TrimLeft(s) && MadeOf(a, fits)
    decreases |s|
  {
    var n := SpaceAtFront(s);
    if n == 0 {
      a := "";
      MadeOfNothing(fits);
    } else {
      var (piece, later) := (s[..n], s[n..]);
      assert s == piece + later && TrimLeft(s) == TrimLeft(later);
      var rest := TrimLeftTakes(later, fits);
      PieceFirst(piece, rest, fits);
      a := piece + rest;
      Regroups(piece, rest, TrimLeft(later));
    }
  }

  lemma Regroups(a: string, b: string, c: string)
    ensures a + (b + c) == a + b + c
  {
  }

  lemma {:induction false} TrimRightTakes(s: string, fits: string -> bool) returns (b: string)
    requires forall t: string :: SpaceAtEnd(t) > 0 ==> fits(t[|t| - SpaceAtEnd(t)..])
    ensures s == TrimRight(s) + b && MadeOf(b, fits)
    decreases |s|
  {
    var n := SpaceAtEnd(s);
    if n == 0 {
      b := "";
      MadeOfNothing(fits);
    } else {
      var (before, piece) := (s[..|s| - n], s[|s| - n..]);
      assert s == before + piece && TrimRight(s) == TrimRight(before);
      var rest := TrimRightTakes(before, fits);
      PieceLast(rest, piece, fits);
      b := rest + piece;
      Regroups(TrimRight(before), rest, piece);
    }
  }

  lemma SpacesAreFound()
    ensures forall t: string :: SpaceAtFront(t) > 0 ==> IsSpace(t[..SpaceAtFront(t)])
    ensures forall t: string :: SpaceAtEnd(t) > 0 ==> IsSpace(t[|t| - SpaceAtEnd(t)..])
  {
    forall t: string | SpaceAtFront(t) > 0 ensures IsSpace(t[..SpaceAtFront(t)]) {
      SpaceAtFrontIsSpace(t);
    }
    forall t: string | SpaceAtEnd(t) > 0 ensures IsSpace(t[|t| - SpaceAtEnd(t)..]) {
      SpaceAtEndIsSpace(t);
    }
  }

  /** No white space at the front of a text is any at the front of its beginning. */
  lemma NoneBefore(t: string, s: string)
    requires t <= s && SpaceAtFront(s) == 0
    ensures SpaceAtFront(t) == 0
  {
  }

  /** Trimming takes white space characters off both ends and nothing else, and leaves none there. */
  lemma TrimSpaceTakes(s: string) returns (a: string, b: string)
    ensures s == a + (TrimSpace(s) + b) && MadeOf(a, IsSpace) && MadeOf(b, IsSpace)
    ensures forall piece :: IsSpace(piece) ==> !(piece <= TrimSpace(s)) && !HasSuffix(TrimSpace(s), piece)
  {
    SpacesAreFound();
    a := TrimLeftTakes(s, IsSpace);
    b := TrimRightTakes(TrimLeft(s), IsSpace);
    NoneLeft(TrimSpace(s), TrimLeft(s));
  }

  lemma NoneLeft(t: string, left: string)
    requires t <= left && SpaceAtFront(left) == 0 && SpaceAtEnd(t) == 0
    ensures forall piece :: IsSpace(piece) ==> !(piece <= t) && !HasSuffix(t, piece)
  {
    NoneBefore(t, left);
    SpaceAtFrontIsSpace(t);
    SpaceAtEndIsSpace(t);
  }
}

/** Byte strings. A Go string is a sequence of bytes; here it is a `string` with one char per
    byte, so lengths and slices mean what they mean in the source. */
module Text {

  function IndexOf(s: string, c: char): (i: nat)
    ensures i <= |s|
    ensures forall k :: 0 <= k < i ==> s[k] != c
    ensures i < |s| ==> s[i] == c
  {
    if s == "" || s[0] == c then 0 else 1 + IndexOf(s[1..], c)
  }

  /** The text between newlines; a remainder with no newline after it is a line when non-empty. */
  function RawLines(text: string): (lines: seq<string>)
    ensures forall k :: 0 <= k < |lines| ==> Without(lines[k], '\n')
  {
    if text == "" then []
    else
      var i := IndexOf(text, '\n');
      if i == |text| then [text] else [text[..i]] + RawLines(text[i + 1..])
  }

  /** A line with its newline in front of any text is that line followed by the text's lines. */
  lemma RawLinesCons(line: string, rest: string)
    requires Without(line, '\n')
    ensures RawLines(line + "\n" + rest) == [line] + RawLines(rest)
  {
    var text := line + "\n" + rest;
    assert forall k :: 0 <= k < |line| ==> text[k] == line[k];
    IndexOfIs(text, '\n', |line|);
    assert text[..|line|] == line && text[|line| + 1..] == rest;
  }

  /** No byte of s is c. */
  predicate Without(s: string, c: char) {
    forall k :: 0 <= k < |s| ==> s[k] != c
  }

  function Join(parts: seq<string>, sep: string): string {
    if parts == [] then ""
    else if |parts| == 1 then parts[0]
    else parts[0] + sep + Join(parts[1..], sep)
  }

  /** `i` is the first place of c. */
  lemma IndexOfIs(s: string, c: char, i: nat)
    requires i < |s| && s[i] == c
    requires forall k :: 0 <= k < i ==> s[k] != c
    ensures IndexOf(s, c) == i
  {
  }

  /** Length of the white space character at the front (0: none). Go's strings.TrimSpace decodes
      UTF-8, so the multi-byte white space characters of Unicode count too. */
  function SpaceAtFront(s: string): (n: nat)
    ensures n <= |s|
  {
    if s != "" && OneByteSpace(s[0]) then 1
    else if |s| >= 2 && TwoByteSpace(s[0], s[1]) then 2
    else if |s| >= 3 && ThreeByteSpace(s[0], s[1], s[2]) then 3
    else 0
  }

  function SpaceAtEnd(s: string): (n: nat)
    ensures n <= |s|
  {
    var k := |s|;
    if s != "" && OneByteSpace(s[k - 1]) then 1
    else if k >= 2 && TwoByteSpace(s[k - 2], s[k - 1]) then 2
    else if k >= 3 && ThreeByteSpace(s[k - 3], s[k - 2], s[k - 1]) then 3
    else 0
  }

  predicate OneByteSpace(c: char) {
    c == ' ' || 9 <= c as int <= 13
  }

  predicate TwoByteSpace(a: char, b: char) {
    a as int == 0xC2 && (b as int == 0x85 || b as int == 0xA0)
  }

  predicate ThreeByteSpace(a: char, b: char, c: char) {
    var (x, y, z) := (a as int, b as int, c as int);
    || (x == 0xE1 && y == 0x9A && z == 0x80)
    || (x == 0xE2 && y == 0x80 && (0x80 <= z <= 0x8A || z == 0xA8 || z == 0xA9 || z == 0xAF))
    || (x == 0xE2 && y == 0x81 && z == 0x9F)
    || (x == 0xE3 && y == 0x80 && z == 0x80)
  }

  function TrimLeft(s: string): (t: string)
    ensures |t| <= |s| && t == s[|s| - |t|..]
    ensures SpaceAtFront(t) == 0
    ensures SpaceAtFront(s) > 0 ==> |t| < |s|
    decreases |s|
  {
    var n := SpaceAtFront(s);
    if n == 0 then s else TrimLeft(s[n..])
  }

  function TrimRight(s: string): (t: string)
    ensures |t| <= |s| && t == s[..|t|]
    ensures SpaceAtEnd(t) == 0
    ensures SpaceAtEnd(s) > 0 ==> |t| < |s|
    decreases |s|
  {
    var n := SpaceAtEnd(s);
    if n == 0 then s else TrimRight(s[..|s| - n])
  }

  function TrimSpace(s: string): string {
    TrimRight(TrimLeft(s))
  }

  /** Trimming changes nothing exactly when no white space stands at either end. */
  lemma TrimSpaceFixpoint(s: string)
    ensures TrimSpace(s) == s <==> SpaceAtFront(s) == 0 && SpaceAtEnd(s) == 0
  {
    if TrimSpace(s) == s {
      assert |TrimLeft(s)| == |s|;
    }
  }

  // ---------- Pieces of a text ----------

  /** Some pieces stand in a text, one behind the other. */
  ghost predicate StandInOrder(pieces: seq<string>, text: string)
    decreases |pieces|
  {
    pieces == [] ||
    exists k: nat :: StandsAt(pieces[0], text, k) && StandInOrder(pieces[1..], text[k + |pieces[0]|..])
  }

  predicate StandsAt(piece: string, text: string, k: nat) {
    k + |piece| <= |text| && text[k..k + |piece|] == piece
  }

  /** The first piece stands somewhere, and the others behind it. */
  lemma FirstStands(pieces: seq<string>, text: string, k: nat)
    requires pieces != [] && StandsAt(pieces[0], text, k)
    requires StandInOrder(pieces[1..], text[k + |pieces[0]|..])
    ensures StandInOrder(pieces, text)
  {
  }

  /** One piece more, behind everything so far. */
  lemma {:induction false} OnePieceMore(pieces: seq<string>, text: string, before: string, piece: string, after: string)
    requires StandInOrder(pieces, text)
    ensures StandInOrder(pieces + [piece], text + (before + piece + after))
    decreases |pieces|
  {
    var (all, more) := (pieces + [piece], before + piece + after);
    if pieces == [] {
      PieceStands(text, before, piece, after);
      assert all[0] == piece && all[1..] == [];
      FirstStands(all, text + more, |text| + |before|);
    } else {
      var first := pieces[0];
      var k: nat :| StandsAt(first, text, k) && StandInOrder(pieces[1..], text[k + |first|..]);
      OnePieceMore(pieces[1..], text[k + |first|..], before, piece, after);
      assert all[0] == first && all[1..] == pieces[1..] + [piece];
      assert (text + more)[k..k + |first|] == text[k..k + |first|];
      assert (text + more)[k + |first|..] == text[k + |first|..] + more;
      FirstStands(all, text + more, k);
    }
  }

  lemma PieceStands(text: string, before: string, piece: string, after: string)
    ensures StandsAt(piece, text + (before + piece + after), |text| + |before|)
  {
    var all := text + (before + piece + after);
    assert all == text + before + piece + after;
  }

  predicate HasPrefix(s: string, prefix: string) {
    prefix <= s
  }

  predicate HasSuffix(s: string, suffix: string) {
    |suffix| <= |s| && s[|s| - |suffix|..] == suffix
  }

  // ---------- Numbers ----------

  function Pow10(w: nat): nat { if w == 0 then 1 else 10 * Pow10(w - 1) }

  function Decimal(n: nat): (s: string)
    ensures forall k :: 0 <= k < |s| ==> '0' <= s[k] <= '9'
  {
    (if n < 10 then "" else Decimal(n / 10)) + [('0' as int + n % 10) as char]
  }

  lemma {:induction false} DecimalFits(n: nat, width: nat)
    requires 0 < width && n < Pow10(width)
    ensures |Decimal(n)| <= width
  {
    if n >= 10 {
      DecimalFits(n / 10, width - 1);
    }
  }

  // ---------- Characters ----------

  /** The code points UTF-8 can write (section 3 of RFC 3629). */
  predicate Encodable(r: nat) { r < 0xD800 || 0xE000 <= r <= 0x10FFFF }

  /** A code point as Go's %c writes it: in UTF-8, or as the replacement character. */
  function RuneText(r: nat): string {
    if !Encodable(r) then [0xEF as char, 0xBF as char, 0xBD as char]
    else if r < 0x80 then [r as char]
    else if r < 0x800 then [(0xC0 + r / 64) as char, Trailing(r)]
    else if r < 0x10000 then [(0xE0 + r / 64 / 64) as char, Trailing(r / 64), Trailing(r)]
    else [(0xF0 + r / 64 / 64 / 64) as char, Trailing(r / 64 / 64), Trailing(r / 64), Trailing(r)]
  }

  function Trailing(r: nat): char { (0x80 + r % 64) as char }

  /** No code point's text begins another's. */
  lemma RuneReads(a: nat, b: nat, x: string, y: string)
    requires Encodable(a) && Encodable(b) && RuneText(a) + x == RuneText(b) + y
    ensures a == b
  {
    var (s, t) := (RuneText(a) + x, RuneText(b) + y);
    assert s[0] == RuneText(a)[0] && t[0] == RuneText(b)[0];
    assert |RuneText(a)| == |RuneText(b)|;
    assert RuneText(a) == s[..|RuneText(a)|] == t[..|RuneText(b)|] == RuneText(b);
    RuneDecodes(a);
    RuneDecodes(b);
  }

  /** The code point a text of that form stands for. */
  function RuneOf(s: string): int {
    if |s| == 1 then s[0] as int
    else if |s| == 2 then (s[0] as int - 0xC0) * 64 + (s[1] as int - 0x80)
    else if |s| == 3 then ((s[0] as int - 0xE0) * 64 + (s[1] as int - 0x80)) * 64 + (s[2] as int - 0x80)
    else if |s| == 4 then
      (((s[0] as int - 0xF0) * 64 + (s[1] as int - 0x80)) * 64 + (s[2] as int - 0x80)) * 64 + (s[3] as int - 0x80)
    else 0
  }

  lemma RuneDecodes(r: nat)
    requires Encodable(r)
    ensures RuneOf(RuneText(r)) == r
  {
  }
}

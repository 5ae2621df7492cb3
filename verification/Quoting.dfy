/** Go's %q verb, byte for byte, keeps the law the series keys rely on (internal/obs/metrics.go:139). */
module Quoting {
  import opened Text
  import opened Utf8
  import opened Metrics

  // ---------- Hexadecimal digits ----------

  function HexDigit(d: nat): (c: char)
    requires d < 16
  {
    if d < 10 then ('0' as int + d) as char else ('a' as int + (d - 10)) as char
  }

  function DigitOf(c: char): int {
    if c <= '9' then c as int - '0' as int else c as int - 'a' as int + 10
  }

  function Pow16(w: nat): (p: nat)
    ensures p > 0
  {
    if w == 0 then 1 else 16 * Pow16(w - 1)
  }

  /** A number in w digits. */
  function Hex(v: nat, w: nat): (s: string)
    ensures |s| == w
    decreases w
  {
    if w == 0 then "" else Hex(v / 16, w - 1) + [HexDigit(v % 16)]
  }

  function HexValue(s: string): int {
    if s == "" then 0 else 16 * HexValue(s[..|s| - 1]) + DigitOf(s[|s| - 1])
  }

  lemma {:induction false} HexReads(v: nat, w: nat)
    requires v < Pow16(w)
    ensures HexValue(Hex(v, w)) == v
    decreases w
  {
    if w > 0 {
      var s := Hex(v, w);
      assert s[..|s| - 1] == Hex(v / 16, w - 1);
      HexReads(v / 16, w - 1);
    }
  }

  // ---------- One character ----------

  /** The letter a short escape stands on, or none. */
  function ShortEscape(c: char): string {
    match c as int
    case 7 => "a"
    case 8 => "b"
    case 9 => "t"
    case 10 => "n"
    case 11 => "v"
    case 12 => "f"
    case 13 => "r"
    case 34 => "\""
    case 92 => "\\"
    case _ => ""
  }

  /** The character a short escape stands for. */
  function ShortMeaning(e: char): char {
    match e
    case 'a' => 7 as char
    case 'b' => 8 as char
    case 't' => 9 as char
    case 'n' => 10 as char
    case 'v' => 11 as char
    case 'f' => 12 as char
    case 'r' => 13 as char
    case _ => e
  }

  /** How many bytes are quoted at once: a character of UTF-8, or a byte that begins none. */
  function Width(s: string): (n: nat)
    requires s != ""
    ensures 0 < n <= |s|
  {
    if CharLen(s) == 0 then 1 else CharLen(s)
  }

  function AsciiText(c: char): string {
    if ShortEscape(c) != "" then "\\" + ShortEscape(c)
    else if c as int < 0x20 || c as int == 0x7F then "\\x" + Hex(c as int, 2)
    else [c]
  }

  function RuneEscape(r: nat): string {
    if r < 0x10000 then "\\u" + Hex(r, 4) else "\\U" + Hex(r, 8)
  }

  /** What is written for the bytes at the front. Which characters beyond ASCII are printable is a table
      of Go's. A char beyond a byte is none of a byte string, and stands for itself. */
  function TokenText(printable: nat -> bool, s: string): (t: string)
    requires s != ""
  {
    var n := CharLen(s);
    if n == 0 then (if s[0] as int < 0x100 then "\\x" + Hex(s[0] as int, 2) else [s[0]])
    else if n == 1 then AsciiText(s[0])
    else
      var r := CodePoint(s[..n]);
      if printable(r) then s[..n] else RuneEscape(r)
  }

  function CodePoint(w: string): (r: nat) { if RuneOf(w) < 0 then 0 else RuneOf(w) }

  function Escaped(printable: nat -> bool, s: string): string {
    if s == "" then "" else TokenText(printable, s) + Escaped(printable, s[Width(s)..])
  }

  /** strconv.Quote. */
  function GoQuote(printable: nat -> bool): Quote {
    s => "\"" + Escaped(printable, s) + "\""
  }

  /** The escapes in plain sight. */
  lemma EscapesInSight(c: char)
    ensures AsciiText('"') == "\\\"" && AsciiText('\\') == "\\\\"
    ensures AsciiText('\n') == "\\n" && AsciiText('\t') == "\\t" && AsciiText('\r') == "\\r"
    ensures AsciiText(7 as char) == "\\a" && AsciiText(8 as char) == "\\b"
    ensures AsciiText(11 as char) == "\\v" && AsciiText(12 as char) == "\\f"
    ensures ' ' <= c <= '~' && c != '"' && c != '\\' ==> AsciiText(c) == [c]
  {
  }

  /** The other control characters are written in hexadecimal. */
  lemma ControlsInSight(c: char)
    requires c as int < 7 || 13 < c as int < 32 || c as int == 127
    ensures var (v, digits) := (c as int, "0123456789abcdef");
            AsciiText(c) == "\\x" + [digits[v / 16], digits[v % 16]]
  {
    var (v, digits) := (c as int, "0123456789abcdef");
    assert Hex(v, 2) == Hex(v / 16, 1) + [HexDigit(v % 16)];
    assert Hex(v / 16, 1) == Hex(v / 16 / 16, 0) + [HexDigit(v / 16 % 16)];
    DigitsInSight(v / 16);
    DigitsInSight(v % 16);
  }

  lemma DigitsInSight(d: nat)
    requires d < 16
    ensures HexDigit(d) == "0123456789abcdef"[d]
  {
  }

  // ---------- Reading it back ----------

  /** How long the token at the front of a quoted text is, and the bytes it was written for. */
  function ReadToken(z: string): (nat, string) {
    if z == "" then (0, "")
    else if z[0] != '\\' then (if CharLen(z) == 0 then (1, [z[0]]) else (CharLen(z), z[..CharLen(z)]))
    else if |z| >= 4 && z[1] == 'x' then (4, [ByteOf(HexValue(z[2..4]))])
    else if |z| >= 6 && z[1] == 'u' then (6, TextOfValue(HexValue(z[2..6])))
    else if |z| >= 10 && z[1] == 'U' then (10, TextOfValue(HexValue(z[2..10])))
    else if |z| >= 2 then (2, [ShortMeaning(z[1])])
    else (0, "")
  }

  function ByteOf(v: int): char { if 0 <= v < 0x100 then v as char else 0 as char }

  function TextOfValue(v: int): string { if v < 0 then "" else RuneText(v) }

  /** What reading the token at the front gives, whatever follows it. */
  ghost predicate ReadsAs(t: string, bytes: string) {
    forall rest :: ReadToken(t + rest) == (|t|, bytes)
  }

  lemma HexByteReads(c: char)
    requires c as int < 0x100
    ensures ReadsAs("\\x" + Hex(c as int, 2), [c])
  {
    var t := "\\x" + Hex(c as int, 2);
    HexReads(c as int, 2);
    assert Pow16(2) == 256;
    forall rest ensures ReadToken(t + rest) == (|t|, [c]) {
      assert (t + rest)[2..4] == Hex(c as int, 2);
    }
  }

  lemma ShortReads(c: char)
    requires ShortEscape(c) != ""
    ensures ReadsAs("\\" + ShortEscape(c), [c])
  {
    var t := "\\" + ShortEscape(c);
    forall rest ensures ReadToken(t + rest) == (|t|, [c]) {
      assert (t + rest)[1] == ShortEscape(c)[0];
    }
  }

  lemma AsciiReads(c: char)
    requires c as int < 0x80
    ensures ReadsAs(AsciiText(c), [c])
  {
    if ShortEscape(c) != "" {
      ShortReads(c);
    } else if c as int < 0x20 || c as int == 0x7F {
      HexByteReads(c);
    } else {
      forall rest ensures ReadToken([c] + rest) == (1, [c]) {
        var z := [c] + rest;
        assert z[0] == c && CharLen(z) == 1 && z[..1] == [c];
      }
    }
  }

  /** UTF-8 is prefix-free: what follows a character does not change it. */
  lemma CharReads(w: string)
    requires |w| > 1 && CharLen(w) == |w|
    ensures ReadsAs(w, w)
  {
    forall rest ensures ReadToken(w + rest) == (|w|, w) {
      var z := w + rest;
      assert z[..|w|] == w;
      assert forall k :: 0 <= k < |w| ==> z[k] == w[k];
      assert CharLen(z) == |w|;
    }
  }

  lemma TwoBytes(h: nat, b: nat)
    requires b < 64
    ensures (64 * h + b) / 64 == h && (64 * h + b) % 64 == b
  {
  }

  lemma CharDecodes(w: string)
    requires |w| > 1 && CharLen(w) == |w|
    ensures 0x80 <= RuneOf(w) < 0x110000 && RuneText(RuneOf(w)) == w
  {
    var d := seq(|w|, i requires 0 <= i < |w| => w[i] as int - 0x80);
    if |w| == 2 {
      TwoBytes(w[0] as int - 0xC0, d[1]);
    } else if |w| == 3 {
      var high := w[0] as int - 0xE0;
      TwoBytes(high, d[1]);
      TwoBytes(64 * high + d[1], d[2]);
    } else {
      LongCharDecodes(w);
    }
  }

  lemma LongCharDecodes(w: string)
    requires |w| == CharLen(w) == 4
    ensures 0x10000 <= RuneOf(w) < 0x110000 && RuneText(RuneOf(w)) == w
  {
    var (high, b, c, d) := (w[0] as int - 0xF0, w[1] as int - 0x80, w[2] as int - 0x80, w[3] as int - 0x80);
    TwoBytes(high, b);
    TwoBytes(64 * high + b, c);
    TwoBytes(64 * (64 * high + b) + c, d);
    assert RuneOf(w) == 64 * (64 * (64 * high + b) + c) + d;
  }

  lemma RuneReads(w: string)
    requires |w| > 1 && CharLen(w) == |w|
    ensures ReadsAs(RuneEscape(CodePoint(w)), w)
  {
    CharDecodes(w);
    var r := CodePoint(w);
    var t := RuneEscape(r);
    assert Pow16(4) == 0x10000 && Pow16(8) == 0x10000 * 0x10000;
    HexReads(r, if r < 0x10000 then 4 else 8);
    forall rest ensures ReadToken(t + rest) == (|t|, w) {
      if r < 0x10000 {
        assert (t + rest)[2..6] == Hex(r, 4);
      } else {
        assert (t + rest)[2..10] == Hex(r, 8);
      }
    }
  }

  /** Every token is read back as the bytes it was written for. */
  lemma TokenReads(printable: nat -> bool, s: string)
    requires s != ""
    ensures ReadsAs(TokenText(printable, s), s[..Width(s)])
  {
    var n := CharLen(s);
    if n == 0 {
      assert s[..1] == [s[0]];
      if s[0] as int < 0x100 {
        HexByteReads(s[0]);
      } else {
        WideCharReads(s[0]);
      }
    } else if n == 1 {
      assert s[..1] == [s[0]];
      AsciiReads(s[0]);
    } else {
      var w := s[..n];
      CharLenCut(s, n);
      CharReads(w);
      RuneReads(w);
    }
  }

  lemma WideCharReads(c: char)
    requires c as int >= 0x100
    ensures ReadsAs([c], [c])
  {
    forall rest ensures ReadToken([c] + rest) == (1, [c]) {
      assert CharLen([c] + rest) == 0;
    }
  }

  /** No token begins with the closing quote. */
  lemma TokenIsNoQuote(printable: nat -> bool, s: string)
    requires s != ""
    ensures var t := TokenText(printable, s); t != "" && t[0] != '"'
  {
  }

  lemma SameToken(printable: nat -> bool, a: string, b: string, x: string, y: string)
    requires a != "" && b != ""
    requires TokenText(printable, a) + x == TokenText(printable, b) + y
    ensures a[..Width(a)] == b[..Width(b)] && x == y
  {
    var (t, u) := (TokenText(printable, a), TokenText(printable, b));
    TokenReads(printable, a);
    TokenReads(printable, b);
    assert ReadToken(t + x) == (|t|, a[..Width(a)]) && ReadToken(u + y) == (|u|, b[..Width(b)]);
    assert (t + x)[|t|..] == x && (u + y)[|u|..] == y;
  }

  /** A quoted text without its opening quote, with something behind it. */
  function Closed(printable: nat -> bool, s: string, x: string): (z: string)
    ensures z != ""
  {
    Escaped(printable, s) + ("\"" + x)
  }

  lemma ClosedStep(printable: nat -> bool, s: string, x: string)
    ensures if s == "" then Closed(printable, s, x) == "\"" + x
            else Closed(printable, s, x) == TokenText(printable, s) + Closed(printable, s[Width(s)..], x)
    ensures s == "" <==> Closed(printable, s, x)[0] == '"'
  {
    if s == "" {
      assert "" + ("\"" + x) == "\"" + x;
    } else {
      TokenIsNoQuote(printable, s);
      FirstOfThree(TokenText(printable, s), Escaped(printable, s[Width(s)..]), "\"" + x);
    }
  }

  lemma FirstOfThree(t: string, e: string, q: string)
    requires t != ""
    ensures t + e + q == t + (e + q) && (t + (e + q))[0] == t[0]
  {
  }

  lemma {:induction false} ClosedReadsBack(printable: nat -> bool, a: string, b: string, x: string, y: string)
    requires Closed(printable, a, x) == Closed(printable, b, y)
    ensures a == b
    decreases |a|
  {
    ClosedStep(printable, a, x);
    ClosedStep(printable, b, y);
    if a != "" {
      var (a', b') := (a[Width(a)..], b[Width(b)..]);
      SameToken(printable, a, b, Closed(printable, a', x), Closed(printable, b', y));
      ClosedReadsBack(printable, a', b', x, y);
      assert a == a[..Width(a)] + a' && b == b[..Width(b)] + b';
    }
  }

  lemma QuoteOpens(printable: nat -> bool, s: string, x: string)
    ensures GoQuote(printable)(s) + x == "\"" + Closed(printable, s, x)
  {
  }

  /** Whatever characters count as printable, no quoted text begins another: a reader always knows where
      the value ends, and which value it is. */
  lemma GoQuoteIsSelfDelimiting(printable: nat -> bool)
    ensures SelfDelimiting(GoQuote(printable))
  {
    var quote := GoQuote(printable);
    forall a, b, x, y | quote(a) + x == quote(b) + y ensures a == b {
      QuoteOpens(printable, a, x);
      QuoteOpens(printable, b, y);
      SameBehindQuote(Closed(printable, a, x), Closed(printable, b, y));
      ClosedReadsBack(printable, a, b, x, y);
    }
  }

  lemma SameBehindQuote(s: string, t: string)
    requires "\"" + s == "\"" + t
    ensures s == t
  {
    assert ("\"" + s)[1..] == s && ("\"" + t)[1..] == t;
  }
}

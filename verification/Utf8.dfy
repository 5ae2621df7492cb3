/** What the recorded head of an answer looks like, for text in UTF-8 (section 4 of RFC 3629). */
module Utf8 {
  import opened Seqs
  import opened Sinks

  predicate In(c: char, lo: int, hi: int) { lo <= c as int <= hi }

  /** Length of the well-formed character at the front, 0 when there is none. */
  function CharLen(s: string): (n: nat)
    ensures n <= |s| && n <= 4
    ensures n > 0 ==> !Continuation(s[0]) && (n == 1 <==> s[0] as int < 0x80) && (n > 1 ==> In(s[0], 0xC2, 0xF4))
    ensures forall k :: 1 <= k < n ==> Continuation(s[k])
  {
    if s == "" then 0
    else if In(s[0], 0x00, 0x7F) then 1
    else if |s| < 2 then 0
    else if In(s[0], 0xC2, 0xDF) && Continuation(s[1]) then 2
    else if |s| < 3 || !Continuation(s[2]) then 0
    else if In(s[0], 0xE0, 0xE0) && In(s[1], 0xA0, 0xBF) then 3
    else if (In(s[0], 0xE1, 0xEC) || In(s[0], 0xEE, 0xEF)) && Continuation(s[1]) then 3
    else if In(s[0], 0xED, 0xED) && In(s[1], 0x80, 0x9F) then 3
    else if |s| < 4 || !Continuation(s[3]) then 0
    else if In(s[0], 0xF0, 0xF0) && In(s[1], 0x90, 0xBF) then 4
    else if In(s[0], 0xF1, 0xF3) && Continuation(s[1]) then 4
    else if In(s[0], 0xF4, 0xF4) && In(s[1], 0x80, 0x8F) then 4
    else 0
  }

  predicate WellFormed(s: string)
    decreases |s|
  {
    s == "" || (CharLen(s) > 0 && WellFormed(s[CharLen(s)..]))
  }

  /** Cutting behind the first character does not change that character. */
  lemma CharLenCut(s: string, k: nat)
    requires 0 < CharLen(s) <= k <= |s|
    ensures CharLen(s[..k]) == CharLen(s)
    ensures WellFormed(s[..k]) <==> WellFormed(s[CharLen(s)..][..k - CharLen(s)])
  {
    assert s[..k][CharLen(s)..] == s[CharLen(s)..][..k - CharLen(s)];
  }

  lemma {:induction false} HeadEndShift(s: string, n: nat, end: nat)
    requires n + end <= |s| && end > 0 && !Continuation(s[n])
    ensures HeadEnd(s, n + end) == n + HeadEnd(s[n..], end)
    ensures HeadEnd(s[n..], end) > 0
    decreases end
  {
    if Continuation(s[n + end - 1]) {
      HeadEndShift(s, n, end - 1);
    }
  }

  lemma {:induction false} HeadOfOneChar(s: string, c: nat)
    requires 0 < c <= CharLen(s)
    ensures HeadEnd(s, c) == 1
    decreases c
  {
    if c > 1 {
      HeadOfOneChar(s, c - 1);
    }
  }

  /** `e` bytes are whole characters, or whole characters and one lead byte. */
  predicate EndsCleanly(s: string, e: nat)
    requires e <= |s|
  {
    WellFormed(s[..e]) || (e > 0 && WellFormed(s[..e - 1]) && In(s[e - 1], 0xC2, 0xF4))
  }

  lemma CutInFirstChar(s: string, c: nat)
    requires 0 < c <= CharLen(s)
    ensures HeadEnd(s, c) == 1 && EndsCleanly(s, 1)
    ensures WellFormed(s[..1]) <==> s[c - 1] as int < 0x80
  {
    HeadOfOneChar(s, c);
    assert s[..0] == "";
    if CharLen(s) == 1 {
      CharLenCut(s, 1);
      assert s[1..][..0] == "";
    } else {
      assert CharLen(s[..1]) == 0;
    }
  }

  lemma CutBehindFirstChar(s: string, e: nat, rest: string, e': nat)
    requires 0 < CharLen(s) < e <= |s| && rest == s[CharLen(s)..] && e' == e - CharLen(s)
    ensures WellFormed(s[..e]) <==> WellFormed(rest[..e'])
    ensures EndsCleanly(s, e) <==> EndsCleanly(rest, e')
  {
    CharLenCut(s, e);
    CharLenCut(s, e - 1);
    assert s[e - 1] == rest[e' - 1];
  }

  /** A cut behind the first character is a cut of what follows it. */
  lemma ShiftedEnd(s: string, c: nat)
    requires 0 < CharLen(s) < c <= |s| && !Continuation(s[CharLen(s)])
    ensures var (n, rest) := (CharLen(s), s[CharLen(s)..]);
            && (WellFormed(s[..HeadEnd(s, c)]) <==> WellFormed(rest[..HeadEnd(rest, c - n)]))
            && (EndsCleanly(s, HeadEnd(s, c)) <==> EndsCleanly(rest, HeadEnd(rest, c - n)))
  {
    var n := CharLen(s);
    HeadEndShift(s, n, c - n);
    CutBehindFirstChar(s, HeadEnd(s, c), s[n..], HeadEnd(s[n..], c - n));
  }

  /** Walking back from any cut of well-formed text ends behind whole characters, or one byte
      further, on a lead byte; and it ends well exactly when the byte before the cut is ASCII. */
  lemma {:induction false} HeadEndOfWellFormed(s: string, c: nat)
    requires WellFormed(s) && c <= |s|
    ensures WellFormed(s[..HeadEnd(s, c)]) <==> c == 0 || s[c - 1] as int < 0x80
    ensures EndsCleanly(s, HeadEnd(s, c))
    decreases |s|
  {
    var n := CharLen(s);
    if c == 0 {
      assert s[..0] == "";
    } else if c <= n {
      CutInFirstChar(s, c);
    } else {
      var rest := s[n..];
      assert rest[c - n - 1] == s[c - 1];
      HeadEndOfWellFormed(rest, c - n);
      ShiftedEnd(s, c);
    }
  }

  /** For UTF-8 content the head is whole characters followed by at most one dangling lead byte.
      It is itself UTF-8, as its comment claims, exactly when the last byte within the limit is ASCII. */
  lemma HeadOfUtf8Content(text: string)
    requires WellFormed(text)
    ensures var h, cut := HeadOf(text), Min(|text|, MAX_HEAD);
            && (WellFormed(h) <==> cut == 0 || text[cut - 1] as int < 0x80)
            && (WellFormed(h) || (h != "" && WellFormed(h[..|h| - 1]) && In(h[|h| - 1], 0xC2, 0xF4)))
            && |h| <= MAX_HEAD && h <= text
  {
    HeadEndOfWellFormed(text, Min(|text|, MAX_HEAD));
    var e := HeadEnd(text, Min(|text|, MAX_HEAD));
    assert e > 0 ==> text[..e][..e - 1] == text[..e - 1];
  }

  /** A two-byte answer, e with an acute accent, already leaves a dangling lead byte. */
  lemma HeadMayDangle()
    ensures WellFormed([0xC3 as char, 0xA9 as char])
    ensures HeadOf([0xC3 as char, 0xA9 as char]) == [0xC3 as char]
    ensures !WellFormed([0xC3 as char])
  {
    var text := [0xC3 as char, 0xA9 as char];
    assert CharLen(text) == 2 && text[2..] == "";
    HeadOfOneChar(text, 2);
    assert text[..1] == [0xC3 as char];
    assert CharLen([0xC3 as char]) == 0;
  }
}

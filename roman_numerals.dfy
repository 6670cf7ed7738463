/**
 * Item 6 (chapter2/item6_avoid_creating_unnecessary_objects): the two Roman
 * numeral validators. Both match the whole string against one fixed
 * pattern: a look-ahead demanding at least one character, any number of M,
 * then for the hundreds, the tens and the units in turn either a
 * subtractive pair (CM or CD, XC or XL, IX or IV) or an optional five
 * letter (D, L, V) followed by at most three one letters (C, X, I).
 *
 * `IsRomanNumeralSlow` states what the pattern matches, literally: a
 * non-empty string that splits into a run of M, a hundreds, a tens and a
 * units group. `IsRomanNumeralFast` is the compiled matcher: one left-to-right
 * scan with no backtracking. `SlowAndFastAgree` proves they accept the same
 * strings.
 */
module RomanNumerals {

  /** `(o[tf]|f?o{0,3})` for the digit letters one `o`, five `f` and ten `t`. */
  predicate InGroup(g: string, one: char, five: char, ten: char) {
    || g == [one, ten]
    || g == [one, five]
    || OnesUpToThree(g, one)
    || (|g| > 0 && g[0] == five && OnesUpToThree(g[1..], one))
  }

  /** `o{0,3}`. */
  predicate OnesUpToThree(g: string, one: char) {
    |g| <= 3 && forall i :: 0 <= i < |g| ==> g[i] == one
  }

  /** `M*`. */
  predicate AllM(g: string) {
    forall i :: 0 <= i < |g| ==> g[i] == 'M'
  }

  /** `isRomanNumeralSlow(s)`: `s.matches(...)`, the pattern's meaning read off its syntax. */
  predicate IsRomanNumeralSlow(s: string) {
    && |s| > 0  // (?=.)
    && exists i, j, k | 0 <= i <= j <= k <= |s| ::
         && AllM(s[..i])
         && InGroup(s[i..j], 'C', 'D', 'M')
         && InGroup(s[j..k], 'X', 'L', 'C')
         && InGroup(s[k..], 'I', 'V', 'X')
  }

  // ---------------------------------------------------------------------
  // The compiled matcher
  // ---------------------------------------------------------------------

  /** Index of the first character at or after `i` that is not M. */
  function SkipM(s: string, i: nat): (r: nat)
    requires i <= |s|
    ensures i <= r <= |s|
    ensures AllM(s[i..r])
    ensures r < |s| ==> s[r] != 'M'
    decreases |s| - i
  {
    if i < |s| && s[i] == 'M' then SkipM(s, i + 1) else i
  }

  /** End of the run of at most `n` copies of `one` starting at `i`. */
  function CountOnes(s: string, i: nat, one: char, n: nat): (r: nat)
    requires i <= |s|
    ensures i <= r <= |s| && r <= i + n
    ensures forall p :: i <= p < r ==> s[p] == one
    ensures r < |s| && r < i + n ==> s[r] != one
    decreases n
  {
    if n > 0 && i < |s| && s[i] == one then CountOnes(s, i + 1, one, n - 1) else i
  }

  /** End of the longest group `(o[tf]|f?o{0,3})` starting at `i`. */
  function ScanGroup(s: string, i: nat, one: char, five: char, ten: char): (r: nat)
    requires i <= |s|
    ensures i <= r <= |s|
    ensures InGroup(s[i..r], one, five, ten)
  {
    if i + 1 < |s| && s[i] == one && (s[i + 1] == ten || s[i + 1] == five) then
      assert s[i..i + 2] == [s[i], s[i + 1]];
      i + 2
    else if i < |s| && s[i] == five then
      var r := CountOnes(s, i + 1, one, 3);
      assert s[i..r][1..] == s[i + 1..r];
      r
    else
      CountOnes(s, i, one, 3)
  }

  /** `isRomanNumeralFast(s)`: `ROMAN.matcher(s).matches()`. */
  predicate IsRomanNumeralFast(s: string) {
    && |s| > 0
    && var i := SkipM(s, 0);
       var j := ScanGroup(s, i, 'C', 'D', 'M');
       var k := ScanGroup(s, j, 'X', 'L', 'C');
       ScanGroup(s, k, 'I', 'V', 'X') == |s|
  }

  // ---------------------------------------------------------------------
  // The two validators agree
  // ---------------------------------------------------------------------

  /** A group starts with its one or its five letter, if it is not empty. */
  lemma GroupStart(g: string, one: char, five: char, ten: char)
    requires InGroup(g, one, five, ten) && g != []
    ensures g[0] == one || g[0] == five
  {
  }

  /**
   * When the text after a group cannot continue it (it ends there, or its
   * next letter is none of the group's three), the scanner stops exactly at
   * the group's end.
   */
  lemma ScanGroupExact(s: string, i: nat, j: nat, one: char, five: char, ten: char)
    requires i <= j <= |s|
    requires one != five && one != ten && five != ten
    requires InGroup(s[i..j], one, five, ten)
    requires j < |s| ==> s[j] != one && s[j] != five && s[j] != ten
    ensures ScanGroup(s, i, one, five, ten) == j
  {
    var g := s[i..j];
    assert forall p :: i <= p < j ==> s[p] == g[p - i];
    if g == [one, ten] || g == [one, five] {
    } else if OnesUpToThree(g, one) {
      CountOnesExact(s, i, j, one, 3);
    } else {
      assert |g| > 0 && g[0] == five && OnesUpToThree(g[1..], one);
      assert forall p :: i + 1 <= p < j ==> s[p] == g[1..][p - i - 1];
      CountOnesExact(s, i + 1, j, one, 3);
    }
  }

  /** The scanner counts exactly the run `s[i..j]` of `one` when `s[j]` does not continue it. */
  lemma {:induction false} CountOnesExact(s: string, i: nat, j: nat, one: char, n: nat)
    requires i <= j <= |s| && j - i <= n
    requires forall p :: i <= p < j ==> s[p] == one
    requires j < |s| ==> s[j] != one
    ensures CountOnes(s, i, one, n) == j
    decreases n
  {
    if i < j {
      CountOnesExact(s, i + 1, j, one, n - 1);
    }
  }

  /** Whatever the pattern matches, the scanner matches. */
  lemma SlowImpliesFast(s: string)
    requires IsRomanNumeralSlow(s)
    ensures IsRomanNumeralFast(s)
  {
    var i, j, k :| 0 <= i <= j <= k <= |s|
                   && AllM(s[..i])
                   && InGroup(s[i..j], 'C', 'D', 'M')
                   && InGroup(s[j..k], 'X', 'L', 'C')
                   && InGroup(s[k..], 'I', 'V', 'X');
    ScannerFollowsSplit(s, i, j, k);
  }

  /** The scanner stops at the ends of the groups of a split the pattern accepts. */
  lemma ScannerFollowsSplit(s: string, i: nat, j: nat, k: nat)
    requires 0 <= i <= j <= k <= |s|
    requires AllM(s[..i])
    requires InGroup(s[i..j], 'C', 'D', 'M')
    requires InGroup(s[j..k], 'X', 'L', 'C')
    requires InGroup(s[k..], 'I', 'V', 'X')
    ensures SkipM(s, 0) == i
    ensures ScanGroup(s, i, 'C', 'D', 'M') == j
    ensures ScanGroup(s, j, 'X', 'L', 'C') == k
    ensures ScanGroup(s, k, 'I', 'V', 'X') == |s|
  {
    UnitsGroupEnds(s, k);
    TensGroupEnds(s, j, k);
    HundredsGroupEnds(s, i, j);
    assert forall p :: 0 <= p < i ==> s[p] == s[..i][p];
    SkipMExact(s, 0, i);
  }

  /** The units group runs to the end of the text and starts with I or V. */
  lemma UnitsGroupEnds(s: string, k: nat)
    requires k <= |s| && InGroup(s[k..], 'I', 'V', 'X')
    ensures ScanGroup(s, k, 'I', 'V', 'X') == |s|
    ensures k < |s| ==> s[k] == 'I' || s[k] == 'V'
  {
    assert s[k..] == s[k..|s|];
    ScanGroupExact(s, k, |s|, 'I', 'V', 'X');
    if k < |s| {
      GroupStart(s[k..], 'I', 'V', 'X');
      assert s[k] == s[k..][0];
    }
  }

  /** The tens group ends where the units group starts, and starts with X, L, I or V. */
  lemma TensGroupEnds(s: string, j: nat, k: nat)
    requires j <= k <= |s| && InGroup(s[j..k], 'X', 'L', 'C')
    requires k < |s| ==> s[k] == 'I' || s[k] == 'V'
    ensures ScanGroup(s, j, 'X', 'L', 'C') == k
    ensures j < |s| ==> s[j] == 'X' || s[j] == 'L' || s[j] == 'I' || s[j] == 'V'
  {
    ScanGroupExact(s, j, k, 'X', 'L', 'C');
    if j < k {
      GroupStart(s[j..k], 'X', 'L', 'C');
      assert s[j] == s[j..k][0];
    }
  }

  /** The hundreds group ends where the tens group starts, and does not start with M. */
  lemma HundredsGroupEnds(s: string, i: nat, j: nat)
    requires i <= j <= |s| && InGroup(s[i..j], 'C', 'D', 'M')
    requires j < |s| ==> s[j] == 'X' || s[j] == 'L' || s[j] == 'I' || s[j] == 'V'
    ensures ScanGroup(s, i, 'C', 'D', 'M') == j
    ensures i < |s| ==> s[i] != 'M'
  {
    ScanGroupExact(s, i, j, 'C', 'D', 'M');
    if i < j {
      GroupStart(s[i..j], 'C', 'D', 'M');
      assert s[i] == s[i..j][0];
    }
  }

  /** Skipping M from `i` stops at `j` when `s[i..j]` is all M and `s[j]` is not. */
  lemma {:induction false} SkipMExact(s: string, i: nat, j: nat)
    requires i <= j <= |s|
    requires forall p :: i <= p < j ==> s[p] == 'M'
    requires j < |s| ==> s[j] != 'M'
    ensures SkipM(s, i) == j
    decreases j - i
  {
    if i < j {
      SkipMExact(s, i + 1, j);
    }
  }

  /** Whatever the scanner matches, the pattern matches. */
  lemma FastImpliesSlow(s: string)
    requires IsRomanNumeralFast(s)
    ensures IsRomanNumeralSlow(s)
  {
    var i := SkipM(s, 0);
    var j := ScanGroup(s, i, 'C', 'D', 'M');
    var k := ScanGroup(s, j, 'X', 'L', 'C');
    assert s[..i] == s[0..i];
    assert s[k..] == s[k..ScanGroup(s, k, 'I', 'V', 'X')];
  }

  /** `isRomanNumeralSlow` and `isRomanNumeralFast` accept exactly the same strings. */
  lemma SlowAndFastAgree(s: string)
    ensures IsRomanNumeralSlow(s) <==> IsRomanNumeralFast(s)
  {
    if IsRomanNumeralSlow(s) {
      SlowImpliesFast(s);
    }
    if IsRomanNumeralFast(s) {
      FastImpliesSlow(s);
    }
  }

  // ---------------------------------------------------------------------
  // Properties of the language
  // ---------------------------------------------------------------------

  /** The empty string is rejected. */
  lemma EmptyRejected()
    ensures !IsRomanNumeralSlow("") && !IsRomanNumeralFast("")
  {
  }

  /** The letters of the seven Roman digits. */
  predicate IsRomanDigit(c: char) {
    c == 'M' || c == 'D' || c == 'C' || c == 'L' || c == 'X' || c == 'V' || c == 'I'
  }

  /** An accepted string is made of the seven Roman digit letters only. */
  lemma AcceptedUsesRomanDigits(s: string)
    requires IsRomanNumeralSlow(s)
    ensures forall p :: 0 <= p < |s| ==> IsRomanDigit(s[p])
  {
    var i, j, k :| 0 <= i <= j <= k <= |s|
                   && AllM(s[..i])
                   && InGroup(s[i..j], 'C', 'D', 'M')
                   && InGroup(s[j..k], 'X', 'L', 'C')
                   && InGroup(s[k..], 'I', 'V', 'X');
    forall p | 0 <= p < |s|
      ensures IsRomanDigit(s[p])
    {
      DigitAt(s, i, j, k, p);
    }
  }

  /** The letter at `p` of a string split into the four parts of a numeral. */
  lemma DigitAt(s: string, i: nat, j: nat, k: nat, p: nat)
    requires i <= j <= k <= |s| && p < |s|
    requires AllM(s[..i])
    requires InGroup(s[i..j], 'C', 'D', 'M')
    requires InGroup(s[j..k], 'X', 'L', 'C')
    requires InGroup(s[k..], 'I', 'V', 'X')
    ensures IsRomanDigit(s[p])
  {
    if p < i {
      assert s[p] == s[..i][p];
    } else if p < j {
      GroupLetters(s[i..j], 'C', 'D', 'M', p - i);
      assert s[p] == s[i..j][p - i];
    } else if p < k {
      GroupLetters(s[j..k], 'X', 'L', 'C', p - j);
      assert s[p] == s[j..k][p - j];
    } else {
      GroupLetters(s[k..], 'I', 'V', 'X', p - k);
      assert s[p] == s[k..][p - k];
    }
  }

  /** A group is spelled with its own three letters. */
  lemma GroupLetters(g: string, one: char, five: char, ten: char, p: nat)
    requires InGroup(g, one, five, ten) && p < |g|
    ensures g[p] == one || g[p] == five || g[p] == ten
  {
    if |g| > 0 && g[0] == five && OnesUpToThree(g[1..], one) && p > 0 {
      assert g[p] == g[1..][p - 1];
    }
  }

  /** 1976 is a numeral. */
  lemma Accepts1976(s: string)
    requires s == "MCMLXXVI"
    ensures IsRomanNumeralFast(s) && IsRomanNumeralSlow(s)
  {
    assert SkipM(s, 0) == 1;
    assert ScanGroup(s, 1, 'C', 'D', 'M') == 3;
    assert ScanGroup(s, 3, 'X', 'L', 'C') == 6;
    assert ScanGroup(s, 6, 'I', 'V', 'X') == 8;
    FastImpliesSlow(s);
  }

  /** 1999 is a numeral. */
  lemma Accepts1999(s: string)
    requires s == "MCMXCIX"
    ensures IsRomanNumeralFast(s) && IsRomanNumeralSlow(s)
  {
    assert SkipM(s, 0) == 1;
    assert ScanGroup(s, 1, 'C', 'D', 'M') == 3;
    assert ScanGroup(s, 3, 'X', 'L', 'C') == 5;
    assert ScanGroup(s, 5, 'I', 'V', 'X') == 7;
    FastImpliesSlow(s);
  }

  /** 2021 is a numeral. */
  lemma Accepts2021(s: string)
    requires s == "MMXXI"
    ensures IsRomanNumeralFast(s) && IsRomanNumeralSlow(s)
  {
    assert SkipM(s, 2) == 2 && SkipM(s, 1) == 2;
    assert SkipM(s, 0) == 2;
    assert ScanGroup(s, 2, 'C', 'D', 'M') == 2;
    assert ScanGroup(s, 2, 'X', 'L', 'C') == 4;
    assert ScanGroup(s, 4, 'I', 'V', 'X') == 5;
    FastImpliesSlow(s);
  }

  /** "ABC" is not a numeral. */
  lemma RejectsABC()
    ensures !IsRomanNumeralFast("ABC") && !IsRomanNumeralSlow("ABC")
  {
    SlowAndFastAgree("ABC");
  }

  /** "IIII" is not a numeral: a units group holds at most three I. */
  lemma RejectsIIII()
    ensures !IsRomanNumeralFast("IIII") && !IsRomanNumeralSlow("IIII")
  {
    SlowAndFastAgree("IIII");
  }
}

// Character classes and scanners shared by the hand-written recognisers
// that stand in for the source's std::regex patterns. ECMAScript regex
// conventions are followed: `.` matches anything but a line terminator,
// `\s` is the C locale's whitespace, `icase` folds ASCII letters.

module Text {

  predicate IsDigit(c: char) { '0' <= c <= '9' }
  predicate IsUpper(c: char) { 'A' <= c <= 'Z' }
  predicate IsLower(c: char) { 'a' <= c <= 'z' }
  predicate IsLetter(c: char) { IsUpper(c) || IsLower(c) }
  predicate IsAlnum(c: char) { IsLetter(c) || IsDigit(c) }

  /** Characters a regex `.` does not match. */
  predicate IsLineEnd(c: char) { c == '\n' || c == '\r' }
  predicate IsDot(c: char) { !IsLineEnd(c) }

  /** The regex class `\s` for narrow characters. */
  predicate IsSpace(c: char)
  {
    c == ' ' || c == '\t' || c == '\n' || c == '\U{B}' || c == '\U{C}' || c == '\r'
  }

  /** ::toupper in the C locale. */
  function Upper(c: char): (r: char)
    ensures IsLower(c) ==> IsUpper(r)
    ensures !IsLower(c) ==> r == c
  {
    if IsLower(c) then (c as int - 32) as char else c
  }

  function UpperStr(s: string): (r: string)
    ensures |r| == |s|
    ensures forall i :: 0 <= i < |s| ==> r[i] == Upper(s[i])
  {
    if s == [] then [] else [Upper(s[0])] + UpperStr(s[1..])
  }

  /** Two characters are equal once both are folded to upper case. */
  predicate SameLetterI(a: char, b: char) { Upper(a) == Upper(b) }

  /** Case-insensitive equality of two texts, character by character. */
  predicate EqI(a: string, b: string)
  {
    |a| == |b| && forall i :: 0 <= i < |a| ==> SameLetterI(a[i], b[i])
  }

  predicate All(s: string, p: char -> bool)
  {
    forall i :: 0 <= i < |s| ==> p(s[i])
  }

  /** Length of the longest run of characters satisfying p that starts at i. */
  function Run(s: string, i: nat, p: char -> bool): (n: nat)
    requires i <= |s|
    ensures i + n <= |s|
    decreases |s| - i
  {
    if i < |s| && p(s[i]) then 1 + Run(s, i + 1, p) else 0
  }

  /** The run at i is maximal. */
  lemma {:induction false} RunSpec(s: string, i: nat, p: char -> bool)
    requires i <= |s|
    ensures forall k :: i <= k < i + Run(s, i, p) ==> p(s[k])
    ensures i + Run(s, i, p) < |s| ==> !p(s[i + Run(s, i, p)])
    decreases |s| - i
  {
    if i < |s| && p(s[i]) {
      RunSpec(s, i + 1, p);
    }
  }

  /** A run is determined by where it stops: any stretch of p-characters
    * that ends at the end of the text or before a non-p character is the run. */
  lemma {:induction false} RunIs(s: string, i: nat, n: nat, p: char -> bool)
    requires i + n <= |s|
    requires forall k :: i <= k < i + n ==> p(s[k])
    requires i + n == |s| || !p(s[i + n])
    ensures Run(s, i, p) == n
    decreases n
  {
    if n > 0 {
      RunIs(s, i + 1, n - 1, p);
    }
  }

  /** The run at the start of x + y is x, when x is all p and y does not
    * start with a p-character. */
  lemma RunOfConcat(x: string, y: string, p: char -> bool)
    requires All(x, p) && (y == [] || !p(y[0]))
    ensures Run(x + y, 0, p) == |x|
  {
    var s := x + y;
    assert forall k :: 0 <= k < |x| ==> s[k] == x[k];
    assert |x| < |s| ==> s[|x|] == y[0];
    RunIs(s, 0, |x|, p);
  }

  /** The run at the start of s, as text, is all p. */
  lemma RunText(s: string, p: char -> bool)
    ensures All(s[..Run(s, 0, p)], p)
    ensures Run(s, 0, p) < |s| ==> !p(s[Run(s, 0, p)])
  {
    RunSpec(s, 0, p);
    var n := Run(s, 0, p);
    assert forall k :: 0 <= k < n ==> s[..n][k] == s[k];
  }

  predicate AllDigits(s: string) { forall i :: 0 <= i < |s| ==> IsDigit(s[i]) }
  predicate AllLetters(s: string) { forall i :: 0 <= i < |s| ==> IsLetter(s[i]) }

  /** Length of the run of digits that starts at i (the regex `\d+`, greedy). */
  function Digits(s: string, i: nat): (n: nat)
    requires i <= |s|
    ensures i + n <= |s|
    decreases |s| - i
  {
    if i < |s| && IsDigit(s[i]) then 1 + Digits(s, i + 1) else 0
  }

  /** The run of digits at i is maximal. */
  lemma {:induction false} DigitsSpec(s: string, i: nat)
    requires i <= |s|
    ensures forall k :: i <= k < i + Digits(s, i) ==> IsDigit(s[k])
    ensures i + Digits(s, i) < |s| ==> !IsDigit(s[i + Digits(s, i)])
    decreases |s| - i
  {
    if i < |s| && IsDigit(s[i]) {
      DigitsSpec(s, i + 1);
    }
  }

  /** Length of the run of ASCII letters that starts at i. */
  function Letters(s: string, i: nat): (n: nat)
    requires i <= |s|
    ensures i + n <= |s|
    decreases |s| - i
  {
    if i < |s| && IsLetter(s[i]) then 1 + Letters(s, i + 1) else 0
  }

  /** The run of letters at i is maximal. */
  lemma {:induction false} LettersSpec(s: string, i: nat)
    requires i <= |s|
    ensures forall k :: i <= k < i + Letters(s, i) ==> IsLetter(s[k])
    ensures i + Letters(s, i) < |s| ==> !IsLetter(s[i + Letters(s, i)])
    decreases |s| - i
  {
    if i < |s| && IsLetter(s[i]) {
      LettersSpec(s, i + 1);
    }
  }

  /** The digit run is determined by where it stops. */
  lemma {:induction false} DigitsIs(s: string, i: nat, n: nat)
    requires i + n <= |s|
    requires forall k :: i <= k < i + n ==> IsDigit(s[k])
    requires i + n == |s| || !IsDigit(s[i + n])
    ensures Digits(s, i) == n
    decreases n
  {
    if n > 0 {
      DigitsIs(s, i + 1, n - 1);
    }
  }

  lemma {:induction false} LettersIs(s: string, i: nat, n: nat)
    requires i + n <= |s|
    requires forall k :: i <= k < i + n ==> IsLetter(s[k])
    requires i + n == |s| || !IsLetter(s[i + n])
    ensures Letters(s, i) == n
    decreases n
  {
    if n > 0 {
      LettersIs(s, i + 1, n - 1);
    }
  }

  /** The text at position i starts with lit, ignoring case. */
  predicate HasAtI(s: string, i: nat, lit: string)
  {
    i + |lit| <= |s| && EqI(s[i..i + |lit|], lit)
  }

  /** The text at position i starts with lit exactly. */
  predicate HasAt(s: string, i: nat, lit: string)
  {
    i + |lit| <= |s| && s[i..i + |lit|] == lit
  }

  lemma HasAtConcat(a: string, lit: string, b: string)
    ensures HasAt(a + lit + b, |a|, lit)
    ensures HasAtI(a + lit + b, |a|, lit)
  {
    assert (a + lit + b)[|a|..|a| + |lit|] == lit;
  }
}

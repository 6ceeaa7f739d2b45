/**
 * Character classes and the string primitives of PHP that the URI parser
 * relies on: `strpos($s, '..')`, `trim($s, '/')` and counting a character.
 */
module Text {

  predicate IsDigit(c: char) { '0' <= c <= '9' }

  /** The class `[a-zA-Z0-9]`. */
  predicate IsAlnum(c: char) { 'a' <= c <= 'z' || 'A' <= c <= 'Z' || IsDigit(c) }

  predicate AllDigits(s: string) { forall k :: 0 <= k < |s| ==> IsDigit(s[k]) }

  predicate AllAlnum(s: string) { forall k :: 0 <= k < |s| ==> IsAlnum(s[k]) }

  /** Every character of `s` is `c`. */
  predicate AllAre(s: string, c: char) { forall k :: 0 <= k < |s| ==> s[k] == c }

  /** No character of `s` is `c`. */
  predicate Free(s: string, c: char) { forall k :: 0 <= k < |s| ==> s[k] != c }

  // ---------------------------------------------------------------------
  // strpos($s, '..') !== false

  /** `s` contains the parent-directory token `..` somewhere. */
  predicate HasParentToken(s: string) {
    exists i :: 0 <= i < |s| - 1 && s[i] == '.' && s[i + 1] == '.'
  }

  /** Wherever `..` is placed, the check sees it. */
  lemma ParentTokenAnywhere(a: string, b: string)
    ensures HasParentToken(a + ".." + b)
  {
    var s := a + ".." + b;
    assert s[|a|] == '.' && s[|a| + 1] == '.';
  }

  /** A slice of a token-free string is token-free. */
  lemma ParentTokenInSlice(s: string, i: nat, j: nat)
    requires i <= j <= |s|
    requires HasParentToken(s[i..j])
    ensures HasParentToken(s)
  {
    var k :| 0 <= k < |s[i..j]| - 1 && s[i..j][k] == '.' && s[i..j][k + 1] == '.';
    assert s[i + k] == '.' && s[i + k + 1] == '.';
  }

  // ---------------------------------------------------------------------
  // Runs of characters at either end

  /** Length of the longest prefix of `s` made only of characters satisfying `P`. */
  function LeadingRun(s: string, P: char -> bool): (n: nat)
    ensures n <= |s|
    ensures forall k :: 0 <= k < n ==> P(s[k])
    ensures n < |s| ==> !P(s[n])
  {
    if s == [] || !P(s[0]) then 0 else 1 + LeadingRun(s[1..], P)
  }

  /** Length of the longest suffix of `s` made only of characters satisfying `P`. */
  function TrailingRun(s: string, P: char -> bool): (n: nat)
    ensures n <= |s|
    ensures forall k :: |s| - n <= k < |s| ==> P(s[k])
    ensures n < |s| ==> !P(s[|s| - n - 1])
  {
    if s == [] || !P(s[|s| - 1]) then 0 else 1 + TrailingRun(s[..|s| - 1], P)
  }

  /** The three facts of `LeadingRun`'s contract determine it. */
  lemma {:induction false} LeadingRunExact(s: string, P: char -> bool, n: nat)
    requires n <= |s|
    requires forall k :: 0 <= k < n ==> P(s[k])
    requires n < |s| ==> !P(s[n])
    ensures LeadingRun(s, P) == n
  {
    if s != [] && P(s[0]) {
      LeadingRunExact(s[1..], P, n - 1);
    }
  }

  /** The three facts of `TrailingRun`'s contract determine it. */
  lemma {:induction false} TrailingRunExact(s: string, P: char -> bool, n: nat)
    requires n <= |s|
    requires forall k :: |s| - n <= k < |s| ==> P(s[k])
    requires n < |s| ==> !P(s[|s| - n - 1])
    ensures TrailingRun(s, P) == n
  {
    if s != [] && P(s[|s| - 1]) {
      var t := s[..|s| - 1];
      assert forall k :: |t| - (n - 1) <= k < |t| ==> t[k] == s[k];
      TrailingRunExact(t, P, n - 1);
    }
  }

  // ---------------------------------------------------------------------
  // trim($s, $c) for a single character

  /** `c` as a character class. */
  function Is(c: char): char -> bool { x => x == c }

  /** No `c` at either end. */
  predicate Unpadded(r: string, c: char) {
    r == [] || (r[0] != c && r[|r| - 1] != c)
  }

  /** PHP `trim($s, $c)`: drops every leading and trailing `c`. */
  function Trim(s: string, c: char): (r: string)
    ensures Unpadded(r, c)
    ensures |r| <= |s|
  {
    var i := LeadingRun(s, Is(c));
    if i == |s| then []
    else
      var n := TrailingRun(s, Is(c));
      assert n < |s| - i by { assert !Is(c)(s[i]); }
      s[i..|s| - n]
  }

  /** Trimming only removes `c`s, from the two ends. */
  lemma TrimIsSlice(s: string, c: char) returns (i: nat, j: nat)
    ensures i <= j <= |s|
    ensures Trim(s, c) == s[i..j]
    ensures AllAre(s[..i], c) && AllAre(s[j..], c)
  {
    i := LeadingRun(s, Is(c));
    if i == |s| {
      j := i;
    } else {
      j := |s| - TrailingRun(s, Is(c));
    }
  }

  /** Padding `r` with `c`s on both sides and trimming gives back `r`. */
  lemma TrimOfPadded(a: string, r: string, b: string, c: char)
    requires AllAre(a, c) && AllAre(b, c) && Unpadded(r, c)
    ensures Trim(a + r + b, c) == r
  {
    var s := a + r + b;
    if r == [] {
      assert s == a + b;
      LeadingRunExact(s, Is(c), |s|);
    } else {
      LeadingRunExact(s, Is(c), |a|);
      TrailingRunExact(s, Is(c), |b|);
      assert s[|a|..|s| - |b|] == r;
    }
  }

  /** Trimming twice is trimming once. */
  lemma TrimIdempotent(s: string, c: char)
    ensures Trim(Trim(s, c), c) == Trim(s, c)
  {
    var r := Trim(s, c);
    assert r == [] + r + [];
    TrimOfPadded([], r, [], c);
  }

  // ---------------------------------------------------------------------
  // Counting a character

  function Count(s: string, c: char): nat {
    if s == [] then 0 else (if s[0] == c then 1 else 0) + Count(s[1..], c)
  }

  lemma {:induction false} CountConcat(a: string, b: string, c: char)
    ensures Count(a + b, c) == Count(a, c) + Count(b, c)
  {
    if a != [] {
      assert (a + b)[1..] == a[1..] + b;
      CountConcat(a[1..], b, c);
    } else {
      assert a + b == b;
    }
  }

  lemma {:induction false} CountAllAre(s: string, c: char)
    requires AllAre(s, c)
    ensures Count(s, c) == |s|
  {
    if s != [] {
      CountAllAre(s[1..], c);
    }
  }

  lemma {:induction false} CountFree(s: string, c: char)
    requires Free(s, c)
    ensures Count(s, c) == 0
  {
    if s != [] {
      CountFree(s[1..], c);
    }
  }

  /** Trimming removed nothing exactly when it removed no `c`. */
  lemma TrimKeepsCountOnlyIfIdentity(s: string, c: char)
    requires Count(Trim(s, c), c) == Count(s, c)
    ensures Trim(s, c) == s
  {
    var i, j := TrimIsSlice(s, c);
    assert s == s[..i] + s[i..j] + s[j..];
    CountConcat(s[..i] + s[i..j], s[j..], c);
    CountConcat(s[..i], s[i..j], c);
    CountAllAre(s[..i], c);
    CountAllAre(s[j..], c);
  }
}

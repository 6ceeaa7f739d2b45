/**
 * The two fixed regular expressions of the URI parser, written out as string
 * functions, and PHP's `intval` on a run of decimal digits.
 *
 *   pagination: /\/(\d+)\/?$/    (UriParser.php line 32)
 *   extension:  /\.[a-zA-Z0-9]+$/ (UriParser.php line 92)
 *
 * Each function is proved equal to a declarative description of the
 * language the expression matches (`PageSuffixAt`, `ExtensionAt`).
 */
module Patterns {
  import opened Wrappers
  import opened Text

  // ---------------------------------------------------------------------
  // intval on digits

  /** Largest value of a 64-bit PHP integer; `intval` saturates there. */
  const PhpIntMax: int := 0x7FFF_FFFF_FFFF_FFFF

  /** Value of `d` read as a decimal numeral (most significant digit first). */
  function DecimalValue(d: string): nat
    requires AllDigits(d)
  {
    if d == [] then 0
    else 10 * DecimalValue(d[..|d| - 1]) + (d[|d| - 1] as int - '0' as int)
  }

  /** PHP `intval` on a string of digits: the decimal value, capped at PHP_INT_MAX. */
  function IntVal(d: string): (n: nat)
    requires AllDigits(d)
    ensures n <= PhpIntMax
    ensures DecimalValue(d) <= PhpIntMax ==> n == DecimalValue(d)
  {
    if DecimalValue(d) <= PhpIntMax then DecimalValue(d) else PhpIntMax
  }

  /** Leading zeros do not change the value. */
  lemma {:induction false} DecimalLeadingZero(d: string)
    requires AllDigits(d)
    ensures AllDigits("0" + d) && DecimalValue("0" + d) == DecimalValue(d)
  {
    var z := "0" + d;
    if d != [] {
      assert z[..|z| - 1] == "0" + d[..|d| - 1];
      DecimalLeadingZero(d[..|d| - 1]);
    }
  }

  // ---------------------------------------------------------------------
  // /\/(\d+)\/?$/

  /** Where the pagination expression matched and what its group 1 captured. */
  datatype SuffixMatch = SuffixMatch(start: nat, digits: string)

  /** `r` is `\d+\/?` with nothing after it. */
  predicate DigitsThenOptionalSlash(r: string) {
    (|r| > 0 && AllDigits(r)) || (|r| > 1 && r[|r| - 1] == '/' && AllDigits(r[..|r| - 1]))
  }

  /** The pagination expression matches `s` starting at `p`. */
  predicate PageSuffixAt(s: string, p: nat) {
    p < |s| && s[p] == '/' && DigitsThenOptionalSlash(s[p + 1..])
  }

  /** `s` without one trailing `/`, if it has one. */
  function DropFinalSlash(s: string): string {
    if |s| > 0 && s[|s| - 1] == '/' then s[..|s| - 1] else s
  }

  /** `preg_match('/\/(\d+)\/?$/', $s, $m)`; `start` is where `$m[0]` begins, `digits` is `$m[1]`. */
  function MatchPageSuffix(s: string): (m: Option<SuffixMatch>)
    ensures m.Some? ==> m.value.start < |s| && |m.value.digits| > 0 && AllDigits(m.value.digits)
  {
    var t := DropFinalSlash(s);
    var k := TrailingRun(t, IsDigit);
    if 0 < k < |t| && t[|t| - k - 1] == '/' then Some(SuffixMatch(|t| - k - 1, t[|t| - k..]))
    else None
  }

  /** The regular expression matches at `p` exactly when `MatchPageSuffix` says so. */
  lemma PageSuffixExact(s: string, p: nat)
    ensures MatchPageSuffix(s).Some? && MatchPageSuffix(s).value.start == p <==> PageSuffixAt(s, p)
  {
    var t := DropFinalSlash(s);
    if PageSuffixAt(s, p) {
      var r := s[p + 1..];
      if |r| > 0 && AllDigits(r) {
        assert t == s;
        TrailingRunExact(t, IsDigit, |r|);
      } else {
        assert t == s[..|s| - 1];
        TrailingRunExact(t, IsDigit, |r| - 1);
      }
    }
    var m := MatchPageSuffix(s);
    if m.Some? && m.value.start == p {
      var k := |t| - p - 1;
      if |s| > 0 && s[|s| - 1] == '/' {
        assert s[p + 1..][..|s[p + 1..]| - 1] == t[p + 1..];
      } else {
        assert s[p + 1..] == t[p + 1..];
      }
    }
  }

  /**
   * Pagination: strips a matched suffix and reads page number `$m[1]`;
   * with no match the URI is unchanged and the page is 1.
   */
  function Paginate(s: string): (string, nat) {
    match MatchPageSuffix(s)
    case Some(m) => (s[..m.start], IntVal(m.digits))
    case None => (s, 1)
  }

  /** A final `/<digits>` segment, with or without a closing `/`, becomes the page number. */
  lemma PaginateDigitSegment(prefix: string, digits: string, closing: string)
    requires |digits| > 0 && AllDigits(digits)
    requires closing == "" || closing == "/"
    ensures Paginate(prefix + "/" + digits + closing) == (prefix, IntVal(digits))
  {
    var s := prefix + "/" + digits + closing;
    assert s[|prefix| + 1..] == digits + closing;
    if closing == "/" {
      assert (digits + closing)[..|digits + closing| - 1] == digits;
    }
    PageSuffixExact(s, |prefix|);
    var t := DropFinalSlash(s);
    assert t == prefix + "/" + digits;
    assert TrailingRun(t, IsDigit) == |digits|;
    assert t[|t| - |digits|..] == digits;
    assert s[..|prefix|] == prefix;
  }

  /** A URI with no `/` in it is never paginated. */
  lemma PaginateWithoutSlash(s: string)
    requires Free(s, '/')
    ensures Paginate(s) == (s, 1)
  {
    if MatchPageSuffix(s).Some? {
      PageSuffixExact(s, MatchPageSuffix(s).value.start);
      assert false;
    }
  }

  /** When no segment of digits ends the URI it is left alone. */
  lemma PaginateNoMatch(s: string)
    requires forall p: nat :: !PageSuffixAt(s, p)
    ensures Paginate(s) == (s, 1)
  {
    if MatchPageSuffix(s).Some? {
      PageSuffixExact(s, MatchPageSuffix(s).value.start);
    }
  }

  // ---------------------------------------------------------------------
  // /\.[a-zA-Z0-9]+$/

  /** The extension expression matches `s` starting at `p`. */
  predicate ExtensionAt(s: string, p: nat) {
    p + 1 < |s| && s[p] == '.' && AllAlnum(s[p + 1..])
  }

  /** `preg_match('/\.[a-zA-Z0-9]+$/', $s)`: where the match begins, if anywhere. */
  function MatchExtension(s: string): (p: Option<nat>)
    ensures p.Some? ==> p.value < |s|
  {
    var k := TrailingRun(s, IsAlnum);
    if 0 < k < |s| && s[|s| - k - 1] == '.' then Some(|s| - k - 1) else None
  }

  /** The regular expression matches at `p` exactly when `MatchExtension` says so. */
  lemma ExtensionExact(s: string, p: nat)
    ensures MatchExtension(s) == Some(p) <==> ExtensionAt(s, p)
  {
    if ExtensionAt(s, p) {
      TrailingRunExact(s, IsAlnum, |s| - p - 1);
    }
  }

  /** Lines 91-98: the URI with its final extension, if any, removed. */
  function StripExtension(s: string): string {
    match MatchExtension(s)
    case Some(p) => s[..p]
    case None => s
  }

  /** Only the last `.ext` goes: `StripExtension(b + "." + e) == b` for alphanumeric `e`. */
  lemma StripFinalExtension(base: string, ext: string)
    requires |ext| > 0 && AllAlnum(ext)
    ensures StripExtension(base + "." + ext) == base
  {
    var s := base + "." + ext;
    assert s[|base| + 1..] == ext;
    ExtensionExact(s, |base|);
  }

  /** Without a final `.ext` the URI is unchanged. */
  lemma StripNoExtension(s: string)
    requires forall p: nat :: !ExtensionAt(s, p)
    ensures StripExtension(s) == s
  {
    if MatchExtension(s).Some? {
      ExtensionExact(s, MatchExtension(s).value);
    }
  }
}

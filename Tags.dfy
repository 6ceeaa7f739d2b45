/**
 * The multi-tag rule of `tryParseTagUri` (UriParser.php lines 149-161):
 * `explode`, `implode`, PHP `sort()` on strings, and the check that a
 * composite tag key is already in ascending order.
 */
module Tags {
  import opened Wrappers
  import opened Text

  // ---------------------------------------------------------------------
  // explode / implode on one separator character

  /** PHP `explode($c, $s)`: the pieces between occurrences of `c`. */
  function Split(s: string, c: char): (parts: seq<string>)
    ensures |parts| == Count(s, c) + 1
    ensures forall k :: 0 <= k < |parts| ==> Free(parts[k], c)
  {
    if s == [] then [[]]
    else
      var rest := Split(s[1..], c);
      if s[0] == c then [[]] + rest
      else [[s[0]] + rest[0]] + rest[1..]
  }

  /** PHP `implode($c, $parts)`. */
  function Join(parts: seq<string>, c: char): string {
    if |parts| == 0 then []
    else if |parts| == 1 then parts[0]
    else parts[0] + [c] + Join(parts[1..], c)
  }

  /** Joining the pieces of `s` gives `s` back. */
  lemma {:induction false} JoinSplit(s: string, c: char)
    ensures Join(Split(s, c), c) == s
  {
    if s != [] {
      var rest := Split(s[1..], c);
      JoinSplit(s[1..], c);
      if s[0] == c {
        assert Split(s, c)[1..] == rest;
      } else if |rest| > 1 {
        var parts := Split(s, c);
        assert parts[1..] == rest[1..];
        assert Join(rest, c) == rest[0] + [c] + Join(rest[1..], c);
      }
    }
  }

  /** Splitting after a separator-free prefix extends the first piece. */
  lemma {:induction false} SplitAfterFree(a: string, t: string, c: char)
    requires Free(a, c)
    ensures Split(a + t, c) == [a + Split(t, c)[0]] + Split(t, c)[1..]
  {
    if a == [] {
      var parts := Split(t, c);
      assert a + t == t && a + parts[0] == parts[0];
      assert parts == [parts[0]] + parts[1..];
    } else {
      assert (a + t)[1..] == a[1..] + t;
      SplitAfterFree(a[1..], t, c);
      assert [a[0]] + (a[1..] + Split(t, c)[0]) == a + Split(t, c)[0];
    }
  }

  /** Splitting the join of separator-free pieces gives the pieces back. */
  lemma {:induction false} SplitJoin(parts: seq<string>, c: char)
    requires |parts| > 0
    requires forall k :: 0 <= k < |parts| ==> Free(parts[k], c)
    ensures Split(Join(parts, c), c) == parts
  {
    if |parts| == 1 {
      assert parts[0] + [] == parts[0];
      SplitAfterFree(parts[0], [], c);
    } else {
      var j := Join(parts[1..], c);
      SplitJoin(parts[1..], c);
      assert parts[0] + [c] + j == parts[0] + ([c] + j);
      SplitAfterFree(parts[0], [c] + j, c);
      assert ([c] + j)[1..] == j;
      assert parts == [parts[0]] + parts[1..];
      assert parts[0] + [] == parts[0];
    }
  }

  // ---------------------------------------------------------------------
  // String order

  /**
   * `a` sorts no later than `b`: lexicographic order on code points (the order
   * `strcmp` gives on their UTF-8 bytes).
   */
  predicate NoLater(a: string, b: string) {
    if a == [] then true
    else if b == [] then false
    else a[0] < b[0] || (a[0] == b[0] && NoLater(a[1..], b[1..]))
  }

  lemma {:induction false} NoLaterTotal(a: string, b: string)
    ensures NoLater(a, b) || NoLater(b, a)
  {
    if a != [] && b != [] && a[0] == b[0] {
      NoLaterTotal(a[1..], b[1..]);
    }
  }

  lemma {:induction false} NoLaterAntisymmetric(a: string, b: string)
    requires NoLater(a, b) && NoLater(b, a)
    ensures a == b
  {
    if a != [] && b != [] {
      NoLaterAntisymmetric(a[1..], b[1..]);
      assert a == [a[0]] + a[1..] && b == [b[0]] + b[1..];
    }
  }

  lemma {:induction false} NoLaterTransitive(a: string, b: string, d: string)
    requires NoLater(a, b) && NoLater(b, d)
    ensures NoLater(a, d)
  {
    if a != [] && b != [] && d != [] && a[0] == b[0] && b[0] == d[0] {
      NoLaterTransitive(a[1..], b[1..], d[1..]);
    }
  }

  /** Ascending order. */
  predicate Ascending(xs: seq<string>) {
    forall i, j :: 0 <= i < j < |xs| ==> NoLater(xs[i], xs[j])
  }

  // ---------------------------------------------------------------------
  // sort()

  /** Places `x` into the ascending sequence `ys`. */
  function Insert(x: string, ys: seq<string>): (r: seq<string>)
    requires Ascending(ys)
    ensures Ascending(r)
    ensures multiset(r) == multiset(ys) + multiset{x}
  {
    if ys == [] then [x]
    else if NoLater(x, ys[0]) then
      assert forall j :: 0 < j < |ys| ==> NoLater(x, ys[j]) by {
        forall j | 0 < j < |ys| { NoLaterTransitive(x, ys[0], ys[j]); }
      }
      [x] + ys
    else
      NoLaterTotal(x, ys[0]);
      var rest := Insert(x, ys[1..]);
      assert ys == [ys[0]] + ys[1..];
      assert forall k :: 0 <= k < |rest| ==> NoLater(ys[0], rest[k]) by {
        forall k | 0 <= k < |rest| ensures NoLater(ys[0], rest[k]) {
          assert rest[k] in multiset(rest);
          if rest[k] != x {
            assert rest[k] in multiset(ys[1..]);
            var j :| 0 <= j < |ys[1..]| && ys[1..][j] == rest[k];
            assert ys[j + 1] == rest[k];
          }
        }
      }
      [ys[0]] + rest
  }

  /** PHP `sort()` on a list of strings: an ascending permutation. */
  function Sort(xs: seq<string>): (r: seq<string>)
    ensures Ascending(r)
    ensures multiset(r) == multiset(xs)
  {
    if xs == [] then []
    else
      assert xs == [xs[0]] + xs[1..];
      Insert(xs[0], Sort(xs[1..]))
  }

  /** The head of an ascending list sorts no later than anything in it. */
  lemma HeadIsLeast(a: seq<string>, x: string)
    requires Ascending(a)
    requires x in multiset(a)
    ensures NoLater(a[0], x)
  {
    var i :| 0 <= i < |a| && a[i] == x;
    if i == 0 {
      NoLaterTotal(x, x);
    }
  }

  /** The ascending permutation is unique: any sort algorithm gives `Sort`'s result. */
  lemma {:induction false} AscendingUnique(a: seq<string>, b: seq<string>)
    requires Ascending(a) && Ascending(b)
    requires multiset(a) == multiset(b)
    ensures a == b
  {
    if a == [] {
      assert |b| == |multiset(b)| == 0;
    } else {
      assert |b| == |multiset(b)| == |multiset(a)| == |a|;
      assert a == [a[0]] + a[1..];
      assert b == [b[0]] + b[1..];
      assert a[0] in multiset(a) && b[0] in multiset(b);
      HeadIsLeast(b, a[0]);
      HeadIsLeast(a, b[0]);
      NoLaterAntisymmetric(a[0], b[0]);
      assert multiset(a[1..]) == multiset(a) - multiset{a[0]};
      assert multiset(b[1..]) == multiset(b) - multiset{b[0]};
      AscendingUnique(a[1..], b[1..]);
    }
  }

  /** Sorting a list that is already ascending changes nothing. */
  lemma SortAscending(xs: seq<string>)
    requires Ascending(xs)
    ensures Sort(xs) == xs
  {
    AscendingUnique(Sort(xs), xs);
  }

  /** A permutation of separator-free strings is separator-free. */
  lemma PermutationFree(xs: seq<string>, ys: seq<string>, c: char)
    requires multiset(xs) == multiset(ys)
    requires forall k :: 0 <= k < |xs| ==> Free(xs[k], c)
    ensures forall k :: 0 <= k < |ys| ==> Free(ys[k], c)
  {
    forall k | 0 <= k < |ys| ensures Free(ys[k], c) {
      assert ys[k] in multiset(xs);
      var i :| 0 <= i < |xs| && xs[i] == ys[k];
    }
  }

  // ---------------------------------------------------------------------
  // The tag key

  /** PHP `null`, one string, or a list of strings. */
  datatype Key = NoKey | Single(name: string) | Multi(names: seq<string>)

  /**
   * Lines 149-161: the key of a tag listing from the raw `tag` capture, or
   * `None` where the source throws because a multi-tag key is out of order.
   */
  function TagKey(raw: string): Option<Key> {
    var tags := Split(Trim(raw, '/'), '/');
    if |tags| > 1 then
      var sorted := Sort(tags);
      if Join(sorted, '/') != raw then None else Some(Multi(sorted))
    else Some(Single(raw))
  }

  /** One tag: the key is the capture exactly as matched, slashes included. */
  lemma TagKeySingle(raw: string)
    requires Free(Trim(raw, '/'), '/')
    ensures TagKey(raw) == Some(Single(raw))
  {
    CountFree(Trim(raw, '/'), '/');
  }

  /**
   * Several tags: the key is accepted exactly when the capture has no slash at
   * either end and its tags are already ascending; the key is then those tags.
   */
  lemma TagKeyMulti(raw: string)
    requires !Free(Trim(raw, '/'), '/')
    ensures TagKey(raw).Some? <==> raw == Trim(raw, '/') && Ascending(Split(raw, '/'))
    ensures TagKey(raw).Some? ==> TagKey(raw) == Some(Multi(Split(raw, '/')))
  {
    var trimmed := Trim(raw, '/');
    var tags := Split(trimmed, '/');
    assert Count(trimmed, '/') > 0 by {
      var k :| 0 <= k < |trimmed| && trimmed[k] == '/';
      assert trimmed == trimmed[..k] + trimmed[k..];
      CountConcat(trimmed[..k], trimmed[k..], '/');
    }
    var sorted := Sort(tags);
    if Join(sorted, '/') == raw {
      PermutationFree(tags, sorted, '/');
      SplitJoin(sorted, '/');
      assert |sorted| == |multiset(sorted)| == |multiset(tags)| == |tags|;
      TrimKeepsCountOnlyIfIdentity(raw, '/');
      assert tags == sorted;
    }
    if raw == trimmed && Ascending(tags) {
      SortAscending(tags);
      JoinSplit(raw, '/');
    }
  }

  /** An empty middle tag, as in `a//b`, sorts first, so the key is refused. */
  lemma TagKeyRejectsEmptyMiddle(a: string, b: string)
    requires a != [] && b != []
    requires Free(a, '/') && Free(b, '/')
    ensures TagKey(a + "//" + b) == None
  {
    var raw := a + "//" + b;
    var parts: seq<string> := [a, [], b];
    assert Join(parts[2..], '/') == b;
    assert Join(parts[1..], '/') == "/" + b;
    assert Join(parts, '/') == raw;
    SplitJoin(parts, '/');
    assert Trim(raw, '/') == raw by {
      assert [] + raw + [] == raw;
      TrimOfPadded([], raw, [], '/');
    }
    assert !Free(raw, '/') by { assert raw[|a|] == '/'; }
    assert !Ascending(Split(raw, '/')) by { assert !NoLater(parts[0], parts[1]); }
    TagKeyMulti(raw);
  }
}

/**
 * The two sequence shapes every handler uses on an embedded array: the index
 * of the first element that matches (the `for ... { if ... { idx = i; break } }`
 * loops, -1 when none does), and the elements that pass a test, in order (the
 * `filtered = append(filtered, x)` loops and the store's `$pull`).
 */
module Seqs {

  /** The first index from `i` on whose element matches, -1 when none does. */
  function IndexFrom<T>(s: seq<T>, p: T -> bool, i: nat): (r: int)
    requires i <= |s|
    ensures r == -1 || i <= r < |s|
    ensures r >= 0 ==> p(s[r]) && forall j :: i <= j < r ==> !p(s[j])
    ensures r == -1 <==> forall j :: i <= j < |s| ==> !p(s[j])
    decreases |s| - i
  {
    if i == |s| then -1 else if p(s[i]) then i else IndexFrom(s, p, i + 1)
  }

  function IndexOfFirst<T>(s: seq<T>, p: T -> bool): (r: int)
    ensures -1 <= r < |s|
    ensures r >= 0 ==> p(s[r]) && forall j :: 0 <= j < r ==> !p(s[j])
    ensures r == -1 <==> forall j :: 0 <= j < |s| ==> !p(s[j])
  {
    IndexFrom(s, p, 0)
  }

  /** An index with the first-match property is the one IndexOfFirst gives. */
  lemma IndexOfFirstIsFirst<T>(s: seq<T>, p: T -> bool, i: int)
    requires -1 <= i < |s|
    requires i >= 0 ==> p(s[i])
    requires forall j :: 0 <= j < (if i == -1 then |s| else i) ==> !p(s[j])
    ensures IndexOfFirst(s, p) == i
  {
  }

  /** Appending a match to a sequence without one makes the match the first. */
  lemma IndexOfFirstAppend<T>(s: seq<T>, x: T, p: T -> bool)
    requires IndexOfFirst(s, p) == -1 && p(x)
    ensures IndexOfFirst(s + [x], p) == |s|
  {
    IndexOfFirstIsFirst(s + [x], p, |s|);
  }

  /** Replacing the first match by another match keeps it the first. */
  lemma IndexOfFirstUpdate<T>(s: seq<T>, i: int, y: T, p: T -> bool)
    requires 0 <= i < |s| && IndexOfFirst(s, p) == i && p(y)
    ensures IndexOfFirst(s[i := y], p) == i
  {
    IndexOfFirstIsFirst(s[i := y], p, i);
  }

  function Filter<T>(s: seq<T>, keep: T -> bool): (r: seq<T>)
    ensures |r| <= |s|
    ensures forall j :: 0 <= j < |r| ==> keep(r[j]) && r[j] in s
    ensures forall j :: 0 <= j < |s| && keep(s[j]) ==> s[j] in r
  {
    if s == [] then []
    else (if keep(s[0]) then [s[0]] else []) + Filter(s[1..], keep)
  }

  /** Filtering a concatenation filters each part, keeping the order. */
  lemma {:induction false} FilterAppend<T>(a: seq<T>, b: seq<T>, keep: T -> bool)
    ensures Filter(a + b, keep) == Filter(a, keep) + Filter(b, keep)
  {
    if a == [] {
      assert a + b == b;
    } else {
      assert (a + b)[1..] == a[1..] + b;
      FilterAppend(a[1..], b, keep);
    }
  }

  /** The step of a filtering loop: one more element examined. */
  lemma FilterSnoc<T>(s: seq<T>, x: T, keep: T -> bool)
    ensures Filter(s + [x], keep) == Filter(s, keep) + (if keep(x) then [x] else [])
  {
    FilterAppend(s, [x], keep);
  }

  /** Overwriting an element the filter drops with another it drops changes nothing. */
  lemma FilterUpdateDropped<T>(s: seq<T>, i: int, x: T, keep: T -> bool)
    requires 0 <= i < |s| && !keep(s[i]) && !keep(x)
    ensures Filter(s[i := x], keep) == Filter(s, keep)
  {
    var pre, post := s[..i], s[i + 1..];
    assert s == pre + [s[i]] + post;
    assert s[i := x] == pre + [x] + post;
    FilterAppend(pre + [s[i]], post, keep);
    FilterAppend(pre + [x], post, keep);
    FilterSnoc(pre, s[i], keep);
    FilterSnoc(pre, x, keep);
  }

  /** When every element passes, filtering changes nothing. */
  lemma {:induction false} FilterAllKept<T>(s: seq<T>, keep: T -> bool)
    requires forall j :: 0 <= j < |s| ==> keep(s[j])
    ensures Filter(s, keep) == s
  {
    if s != [] {
      FilterAllKept(s[1..], keep);
    }
  }

  /** Filtering twice with the same test is filtering once. */
  lemma FilterIdempotent<T>(s: seq<T>, keep: T -> bool)
    ensures Filter(Filter(s, keep), keep) == Filter(s, keep)
  {
    var r := Filter(s, keep);
    FilterAllKept(r, keep);
  }
}

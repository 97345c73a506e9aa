/** Sequence helpers standing for the JavaScript array methods the source uses. */
module Seqs {

  function Min(a: int, b: int): int { if a <= b then a else b }

  /** `array.filter(keep)`: the elements that pass, in their original order. */
  function Filter<T>(s: seq<T>, keep: T -> bool): (r: seq<T>)
    ensures |r| <= |s|
    ensures forall i :: 0 <= i < |r| ==> r[i] in s && keep(r[i])
    ensures forall i :: 0 <= i < |s| && keep(s[i]) ==> s[i] in r
  {
    if s == [] then [] else (if keep(s[0]) then [s[0]] else []) + Filter(s[1..], keep)
  }

  /** A filter that every element passes keeps the whole sequence. */
  lemma {:induction false} FilterKeepsAll<T>(s: seq<T>, keep: T -> bool)
    requires forall i :: 0 <= i < |s| ==> keep(s[i])
    ensures Filter(s, keep) == s
  {
    if s != [] {
      FilterKeepsAll(s[1..], keep);
    }
  }

  /** Each value passes as often as it occurs in the input when it is kept, and never otherwise. */
  lemma {:induction false} FilterCounts<T>(s: seq<T>, keep: T -> bool, x: T)
    ensures multiset(Filter(s, keep))[x] == if keep(x) then multiset(s)[x] else 0
  {
    if s != [] {
      FilterCounts(s[1..], keep, x);
      assert s == [s[0]] + s[1..];
    }
  }

  /** Filtering a concatenation filters each part, the first part's survivors first: the order is kept. */
  lemma {:induction false} FilterConcat<T>(a: seq<T>, b: seq<T>, keep: T -> bool)
    ensures Filter(a + b, keep) == Filter(a, keep) + Filter(b, keep)
  {
    if a == [] {
      assert a + b == b;
    } else {
      assert (a + b)[1..] == a[1..] + b;
      FilterConcat(a[1..], b, keep);
    }
  }

  /** Filtering one more element appends it exactly when it passes. */
  lemma FilterSnoc<T>(a: seq<T>, x: T, keep: T -> bool)
    ensures Filter(a + [x], keep) == Filter(a, keep) + (if keep(x) then [x] else [])
  {
    FilterConcat(a, [x], keep);
    assert Filter([x], keep) == (if keep(x) then [x] else []) + Filter([x][1..], keep);
    assert [x][1..] == [];
  }

  /** Filtering with `x` placed between two parts, when nothing after `x` passes if `x` does. */
  lemma FilterAround<T>(before: seq<T>, x: T, after: seq<T>, keep: T -> bool)
    requires keep(x) ==> forall i :: 0 <= i < |after| ==> !keep(after[i])
    ensures Filter(before + [x] + after, keep) == Filter(before + after, keep) + (if keep(x) then [x] else [])
  {
    FilterConcat(before, after, keep);
    FilterConcat(before + [x], after, keep);
    FilterSnoc(before, x, keep);
    if keep(x) {
      FilterNone(after, keep);
      assert Filter(before + after, keep) == Filter(before, keep) + [];
    }
  }

  /** A filter that no element passes keeps nothing. */
  lemma {:induction false} FilterNone<T>(s: seq<T>, keep: T -> bool)
    requires forall i :: 0 <= i < |s| ==> !keep(s[i])
    ensures Filter(s, keep) == []
  {
    if s != [] {
      FilterNone(s[1..], keep);
    }
  }

  /** `array.findIndex(p)`: the first position whose element passes `p`, or -1 when none does. */
  function FirstWhere<T>(s: seq<T>, p: T -> bool): (r: int)
    ensures -1 <= r < |s|
    ensures r == -1 <==> forall i :: 0 <= i < |s| ==> !p(s[i])
    ensures r >= 0 ==> p(s[r]) && forall i :: 0 <= i < r ==> !p(s[i])
  {
    if s == [] then -1
    else if p(s[0]) then 0
    else var k := FirstWhere(s[1..], p); if k == -1 then -1 else k + 1
  }

  /** The number of elements that pass `keep`. */
  function Count<T>(s: seq<T>, keep: T -> bool): nat {
    |Filter(s, keep)|
  }

  /**
   * `array.slice(0, end)`: an end past the length is clamped, and a negative end
   * counts back from the length (so it drops elements from the tail).
   */
  function SliceTo<T>(s: seq<T>, end: int): (r: seq<T>)
    ensures |r| <= |s| && r == s[..|r|]
    ensures end >= 0 ==> |r| == Min(end, |s|)
    ensures end < 0 ==> |r| == if |s| + end > 0 then |s| + end else 0
  {
    if end >= |s| then s
    else if end >= 0 then s[..end]
    else if |s| + end > 0 then s[..|s| + end]
    else []
  }

  function Reverse<T>(s: seq<T>): (r: seq<T>)
    ensures |r| == |s|
    ensures forall i :: 0 <= i < |s| ==> r[i] == s[|s| - 1 - i]
  {
    if s == [] then [] else Reverse(s[1..]) + [s[0]]
  }
}

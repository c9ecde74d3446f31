/** Sequence operations of JavaScript's Array that the dashboard's list views are built from:
    `filter`, `slice`, `reduce` with `+`, and the fixed-size page cut. */
module Lists {

  datatype Option<+T> = None | Some(value: T)

  /** `Array.prototype.filter`: the elements satisfying `p`, in their original order. */
  function Filter<T>(s: seq<T>, p: T -> bool): (r: seq<T>)
    ensures |r| <= |s|
  {
    if s == [] then []
    else (if p(s[0]) then [s[0]] else []) + Filter(s[1..], p)
  }

  /** An element is kept exactly when it occurs in the input and passes the test. */
  lemma {:induction false} FilterMembers<T>(s: seq<T>, p: T -> bool)
    ensures forall i :: 0 <= i < |Filter(s, p)| ==> Filter(s, p)[i] in s && p(Filter(s, p)[i])
    ensures forall i :: 0 <= i < |s| && p(s[i]) ==> s[i] in Filter(s, p)
  {
    if s != [] {
      FilterMembers(s[1..], p);
      var r, rest := Filter(s, p), Filter(s[1..], p);
      assert r == (if p(s[0]) then [s[0]] else []) + rest;
      forall i | 0 <= i < |r|
        ensures r[i] in s && p(r[i])
      {
        if !p(s[0]) || i > 0 {
          var k := if p(s[0]) then i - 1 else i;
          assert r[i] == rest[k];
          assert rest[k] in s[1..];
        }
      }
      forall i | 0 <= i < |s| && p(s[i])
        ensures s[i] in r
      {
        if i > 0 {
          assert s[i] == s[1..][i - 1];
        }
      }
    }
  }

  /** Filtering never duplicates a record. */
  lemma {:induction false} FilterMultiset<T>(s: seq<T>, p: T -> bool)
    ensures multiset(Filter(s, p)) <= multiset(s)
  {
    if s != [] {
      FilterMultiset(s[1..], p);
      assert s == [s[0]] + s[1..];
    }
  }

  lemma {:induction false} FilterConcat<T>(a: seq<T>, b: seq<T>, p: T -> bool)
    ensures Filter(a + b, p) == Filter(a, p) + Filter(b, p)
  {
    if a == [] {
      assert a + b == b;
    } else {
      var ab := a + b;
      assert ab[0] == a[0] && ab[1..] == a[1..] + b;
      FilterConcat(a[1..], b, p);
      var first := if p(a[0]) then [a[0]] else [];
      assert Filter(ab, p) == first + Filter(ab[1..], p);
      assert Filter(a, p) == first + Filter(a[1..], p);
    }
  }

  lemma FilterAroundPoint<T>(a: seq<T>, x: T, b: seq<T>, p: T -> bool)
    ensures Filter(a + [x] + b, p) == Filter(a, p) + (if p(x) then [x] else []) + Filter(b, p)
  {
    FilterConcat(a + [x], b, p);
    FilterConcat(a, [x], p);
    assert [x][1..] == [];
  }

  /** Filtering keeps everything exactly when every element passes. */
  lemma {:induction false} FilterAll<T>(s: seq<T>, p: T -> bool)
    ensures Filter(s, p) == s <==> forall i :: 0 <= i < |s| ==> p(s[i])
  {
    if s != [] {
      FilterAll(s[1..], p);
      if !p(s[0]) {
        assert |Filter(s, p)| < |s|;
      }
    }
  }

  /** Filtering drops everything exactly when no element passes. */
  lemma {:induction false} FilterNone<T>(s: seq<T>, p: T -> bool)
    ensures Filter(s, p) == [] <==> forall i :: 0 <= i < |s| ==> !p(s[i])
  {
    if s != [] {
      FilterNone(s[1..], p);
      if p(s[0]) {
        assert Filter(s, p)[0] == s[0];
      }
    }
  }

  /** The test passed by what passes both `p` and `q`. */
  function Both<T>(p: T -> bool, q: T -> bool): T -> bool
  {
    x => p(x) && q(x)
  }

  /** Two chained `filter` calls keep what the conjunction of their predicates keeps. */
  lemma {:induction false} FilterFilter<T>(s: seq<T>, p: T -> bool, q: T -> bool)
    ensures Filter(Filter(s, p), q) == Filter(s, Both(p, q))
  {
    if s != [] {
      FilterFilter(s[1..], p, q);
      FilterConcat(if p(s[0]) then [s[0]] else [], Filter(s[1..], p), q);
    }
  }

  /** `a` can be obtained from `b` by deleting elements (greedy matching from the front). */
  ghost predicate IsSubsequence<T>(a: seq<T>, b: seq<T>)
    decreases |a| + |b|
  {
    if a == [] then true
    else if b == [] then false
    else if a[0] == b[0] then IsSubsequence(a[1..], b[1..])
    else IsSubsequence(a, b[1..])
  }

  lemma {:induction false} SubsequenceOfDrop<T>(a: seq<T>, b: seq<T>)
    requires b != [] && IsSubsequence(a, b[1..])
    ensures IsSubsequence(a, b)
    decreases |a| + |b|
  {
    if a != [] && a[0] == b[0] {
      if b[1..] != [] {
        if a[0] == b[1..][0] {
          assert b[1..][1..] == b[2..];
          SubsequenceOfDrop(a[1..], b[1..]);
        } else {
          SubsequenceOfDrop(a, b[1..]);
          assert IsSubsequence(a[1..], b[1..]) by {
            SubsequenceTail(a, b[1..]);
          }
        }
      }
    }
  }

  lemma {:induction false} SubsequenceTail<T>(a: seq<T>, b: seq<T>)
    requires IsSubsequence(a, b) && a != []
    ensures IsSubsequence(a[1..], b)
    decreases |a| + |b|
  {
    if a[0] == b[0] {
      if b[1..] != [] {
        SubsequenceOfDrop(a[1..], b);
      } else {
        assert a[1..] == [];
      }
    } else {
      SubsequenceTail(a, b[1..]);
      SubsequenceOfDrop(a[1..], b);
    }
  }

  /** What `filter` returns is a subsequence of its input: it never adds or reorders rows. */
  lemma {:induction false} FilterIsSubsequence<T>(s: seq<T>, p: T -> bool)
    ensures IsSubsequence(Filter(s, p), s)
  {
    if s != [] {
      FilterIsSubsequence(s[1..], p);
      var f := Filter(s, p);
      if p(s[0]) {
        assert f == [s[0]] + Filter(s[1..], p);
        assert f[0] == s[0] && f[1..] == Filter(s[1..], p);
      } else {
        assert f == Filter(s[1..], p);
        SubsequenceOfDrop(f, s);
      }
    }
  }

  /** `Array.prototype.reverse`. */
  function Reverse<T>(s: seq<T>): (r: seq<T>)
    ensures |r| == |s|
    ensures forall i :: 0 <= i < |s| ==> r[i] == s[|s| - 1 - i]
  {
    if s == [] then [] else Reverse(s[1..]) + [s[0]]
  }

  /** The left fold `reduce((sum, x) => sum + x, 0)`. */
  function Sum(s: seq<real>): real
  {
    if s == [] then 0.0 else Sum(s[..|s| - 1]) + s[|s| - 1]
  }

  lemma {:induction false} SumConcat(a: seq<real>, b: seq<real>)
    ensures Sum(a + b) == Sum(a) + Sum(b)
    decreases |b|
  {
    if b != [] {
      assert (a + b)[..|a + b| - 1] == a + b[..|b| - 1];
      SumConcat(a, b[..|b| - 1]);
    } else {
      assert a + b == a;
    }
  }

  lemma {:induction false} SumNonNegative(s: seq<real>)
    requires forall i :: 0 <= i < |s| ==> s[i] >= 0.0
    ensures Sum(s) >= 0.0
  {
    if s != [] {
      SumNonNegative(s[..|s| - 1]);
    }
  }

  /** Summing two columns element by element and then down gives the sum of the two sums. */
  lemma {:induction false} SumPointwise(a: seq<real>, b: seq<real>, c: seq<real>)
    requires |a| == |b| == |c|
    requires forall i :: 0 <= i < |c| ==> c[i] == a[i] + b[i]
    ensures Sum(c) == Sum(a) + Sum(b)
  {
    if c != [] {
      var n := |c| - 1;
      SumPointwise(a[..n], b[..n], c[..n]);
    }
  }

  /** Scaling every element scales the sum. */
  lemma {:induction false} SumScale(s: seq<real>, t: seq<real>, k: real)
    requires |s| == |t|
    requires forall i :: 0 <= i < |t| ==> t[i] == s[i] * k
    ensures Sum(t) == Sum(s) * k
  {
    if t != [] {
      var n := |t| - 1;
      SumScale(s[..n], t[..n], k);
    }
  }

  /** One element of a non-negative sequence is at most the sum of all of them. */
  lemma {:induction false} SumBoundsElement(s: seq<real>, k: nat)
    requires forall i :: 0 <= i < |s| ==> s[i] >= 0.0
    requires k < |s|
    ensures s[k] <= Sum(s)
  {
    var init := s[..|s| - 1];
    if k == |s| - 1 {
      SumNonNegative(init);
    } else {
      SumBoundsElement(init, k);
    }
  }

  /** The index `Array.prototype.slice` uses for a start or end argument `i` on length `n`:
      negative arguments count back from the end, and both are clamped to [0, n]. */
  function SliceIndex(i: int, n: nat): (r: nat)
    ensures r <= n
    ensures 0 <= i <= n ==> r == i
    ensures i > n ==> r == n
    ensures i < 0 ==> r == if n + i < 0 then 0 else n + i
  {
    if i < 0 then (if n + i < 0 then 0 else n + i)
    else if i > n then n
    else i
  }

  /** `s.slice(start, end)`: empty when the clamped start is not before the clamped end. */
  function JsSlice<T>(s: seq<T>, start: int, end: int): seq<T>
  {
    var a := SliceIndex(start, |s|);
    var b := SliceIndex(end, |s|);
    if a < b then s[a..b] else []
  }

  /** `Math.ceil(n / size)` for a positive page size. */
  function PageCount(n: nat, size: nat): (c: nat)
    requires size > 0
    ensures c * size >= n
    ensures c > 0 ==> (c - 1) * size < n
    ensures n == 0 <==> c == 0
  {
    (n + size - 1) / size
  }

  /** Page `p` (1-based) of a list cut into pages of `size`: `slice((p - 1) * size, p * size)`. */
  function Page<T>(s: seq<T>, p: int, size: nat): seq<T>
  {
    JsSlice(s, (p - 1) * size, p * size)
  }

  lemma MulMonotone(x: nat, y: nat, p: nat)
    requires x <= y
    ensures x * p <= y * p
  {
  }

  /** Page `p` >= 1 as the slice between its two offsets, clamped to the list. */
  lemma PageOffsets<T>(s: seq<T>, p: int, size: nat)
    requires size > 0 && p >= 1
    ensures var lo := (p - 1) * size;
      && lo >= 0 && p * size == lo + size
      && Page(s, p, size) == (if lo < |s| then s[lo..if lo + size <= |s| then lo + size else |s|] else [])
  {
    MulMonotone(0, p - 1, size);
  }

  /** Where page `p` >= 1 starts, relative to the list's end, by comparison with the count. */
  lemma PageStart(n: nat, p: int, size: nat)
    requires size > 0 && p >= 1
    ensures p > PageCount(n, size) ==> (p - 1) * size >= n
    ensures p <= PageCount(n, size) ==> (p - 1) * size < n
    ensures p < PageCount(n, size) ==> p * size < n
  {
    var c := PageCount(n, size);
    if p > c {
      MulMonotone(c, p - 1, size);
    } else {
      MulMonotone(p - 1, c - 1, size);
      if p < c {
        MulMonotone(p, c - 1, size);
      }
    }
  }

  /** A page holds at most `size` records, namely those at offsets (p-1)*size, ...; it is empty
      exactly when p lies past the last page, and page 0 (reachable in the transaction table
      when nothing matches) is empty too. */
  lemma PageShape<T>(s: seq<T>, p: int, size: nat)
    requires size > 0 && p >= 0
    ensures |Page(s, p, size)| <= size
    ensures Page(s, p, size) != [] ==> 0 <= (p - 1) * size && (p - 1) * size + |Page(s, p, size)| <= |s|
    ensures forall i :: 0 <= i < |Page(s, p, size)| ==> Page(s, p, size)[i] == s[(p - 1) * size + i]
    ensures Page(s, p, size) == [] <==> p == 0 || p > PageCount(|s|, size)
    ensures 1 <= p < PageCount(|s|, size) ==> |Page(s, p, size)| == size
  {
    if p == 0 {
      assert SliceIndex(0, |s|) == 0;
    } else {
      PageOffsets(s, p, size);
      PageStart(|s|, p, size);
    }
  }

  /** Pages 1..k laid end to end. */
  function Pages<T>(s: seq<T>, size: nat, k: nat): seq<T>
  {
    if k == 0 then [] else Pages(s, size, k - 1) + Page(s, k, size)
  }

  lemma {:induction false} PagesPrefix<T>(s: seq<T>, size: nat, k: nat)
    requires size > 0
    ensures Pages(s, size, k) == s[..if k * size <= |s| then k * size else |s|]
  {
    if k > 0 {
      PagesPrefix(s, size, k - 1);
      var lo := (k - 1) * size;
      assert k * size == lo + size;
      var a := if lo <= |s| then lo else |s|;
      var b := if k * size <= |s| then k * size else |s|;
      assert s[..a] + s[a..b] == s[..b];
    }
  }

  /** Pages 1 through ceil(n/size), concatenated, give back the whole list: nothing lost,
      nothing repeated. */
  lemma PagesCoverAll<T>(s: seq<T>, size: nat)
    requires size > 0
    ensures Pages(s, size, PageCount(|s|, size)) == s
  {
    PagesPrefix(s, size, PageCount(|s|, size));
  }
}

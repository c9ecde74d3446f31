/** `Array.prototype.sort` with the comparators the dashboard passes it. Every comparator in
    the dashboard compares one key of each record (a number, or a string under JavaScript's
    `<`), returns 0 for equal keys, and is flipped for descending order. JavaScript's sort is
    stable, so the result is the unique permutation that is ordered by the key and keeps
    records with equal keys in input order; `SortBy` computes it by insertion. */
module Order {
  import opened Lists
  import opened Text

  /** A value compared by JavaScript's relational operators. Within one column every record
      has the same kind of key; the order between a number and a string is fixed arbitrarily
      (numbers first) only so that the order is total. */
  datatype SortKey = Num(n: real) | Str(s: string)

  predicate KeyLe(a: SortKey, b: SortKey)
  {
    match a
    case Num(x) => (match b case Num(y) => x <= y case Str(_) => true)
    case Str(x) => (match b case Num(_) => false case Str(y) => LexLe(x, y))
  }

  lemma KeyLeReflexive(a: SortKey)
    ensures KeyLe(a, a)
  {
    if a.Str? {
      LexLeReflexive(a.s);
    }
  }

  lemma KeyLeTotal(a: SortKey, b: SortKey)
    ensures KeyLe(a, b) || KeyLe(b, a)
  {
    if a.Str? && b.Str? {
      LexLeTotal(a.s, b.s);
    }
  }

  lemma KeyLeTransitive(a: SortKey, b: SortKey, c: SortKey)
    requires KeyLe(a, b) && KeyLe(b, c)
    ensures KeyLe(a, c)
  {
    if a.Str? && b.Str? && c.Str? {
      LexLeTransitive(a.s, b.s, c.s);
    }
  }

  lemma KeyLeAntisymmetric(a: SortKey, b: SortKey)
    requires KeyLe(a, b) && KeyLe(b, a)
    ensures a == b
  {
    if a.Str? && b.Str? {
      LexLeAntisymmetric(a.s, b.s);
    }
  }

  /** A record with key `x` may stand before one with key `y` in the chosen direction. */
  predicate InOrder(x: SortKey, y: SortKey, descending: bool)
  {
    if descending then KeyLe(y, x) else KeyLe(x, y)
  }

  lemma InOrderReflexive(x: SortKey, descending: bool)
    ensures InOrder(x, x, descending)
  {
    KeyLeReflexive(x);
  }

  lemma InOrderTotal(x: SortKey, y: SortKey, descending: bool)
    ensures InOrder(x, y, descending) || InOrder(y, x, descending)
  {
    KeyLeTotal(x, y);
  }

  lemma InOrderTransitive(x: SortKey, y: SortKey, z: SortKey, descending: bool)
    requires InOrder(x, y, descending) && InOrder(y, z, descending)
    ensures InOrder(x, z, descending)
  {
    if descending {
      KeyLeTransitive(z, y, x);
    } else {
      KeyLeTransitive(x, y, z);
    }
  }

  /** Ordered by `key`, ascending or descending. */
  ghost predicate IsSortedBy<T>(s: seq<T>, key: T -> SortKey, descending: bool)
  {
    forall i, j :: 0 <= i < j < |s| ==> InOrder(key(s[i]), key(s[j]), descending)
  }

  /** Places `x` in front of the first element whose key must come strictly after `x`'s,
      so that `x` follows every element with an equal key. */
  function Insert<T>(r: seq<T>, x: T, key: T -> SortKey, descending: bool): (res: seq<T>)
    ensures |res| == |r| + 1
  {
    if r == [] then [x]
    else if !InOrder(key(r[0]), key(x), descending) then [x] + r
    else [r[0]] + Insert(r[1..], x, key, descending)
  }

  /** `s.sort(cmp)`: insertion of each element in turn into the sorted prefix. */
  function SortBy<T>(s: seq<T>, key: T -> SortKey, descending: bool): (r: seq<T>)
    ensures |r| == |s|
  {
    if s == [] then []
    else Insert(SortBy(s[..|s| - 1], key, descending), s[|s| - 1], key, descending)
  }

  /** Where `Insert` puts `x`. */
  function InsertPos<T>(r: seq<T>, x: T, key: T -> SortKey, descending: bool): (i: nat)
    ensures i <= |r|
  {
    if r == [] || !InOrder(key(r[0]), key(x), descending) then 0
    else 1 + InsertPos(r[1..], x, key, descending)
  }

  lemma {:induction false} InsertAt<T>(r: seq<T>, x: T, key: T -> SortKey, descending: bool)
    ensures var i := InsertPos(r, x, key, descending);
      && Insert(r, x, key, descending) == r[..i] + [x] + r[i..]
      && (forall j :: 0 <= j < i ==> InOrder(key(r[j]), key(x), descending))
      && (i < |r| ==> !InOrder(key(r[i]), key(x), descending))
  {
    var i := InsertPos(r, x, key, descending);
    if r == [] || !InOrder(key(r[0]), key(x), descending) {
      assert i == 0;
      assert r[..0] + [x] + r[0..] == [x] + r;
    } else {
      var t := r[1..];
      InsertAt(t, x, key, descending);
      var i' := InsertPos(t, x, key, descending);
      assert i == i' + 1;
      assert Insert(r, x, key, descending) == [r[0]] + Insert(t, x, key, descending);
      assert [r[0]] + (t[..i'] + [x] + t[i'..]) == r[..i] + [x] + r[i..];
      forall j | 0 <= j < i
        ensures InOrder(key(r[j]), key(x), descending)
      {
        if j > 0 {
          assert r[j] == t[j - 1];
        }
      }
      if i < |r| {
        assert r[i] == t[i'];
      }
    }
  }

  lemma InsertPermutes<T>(r: seq<T>, x: T, key: T -> SortKey, descending: bool)
    ensures multiset(Insert(r, x, key, descending)) == multiset(r) + multiset{x}
  {
    InsertAt(r, x, key, descending);
    var i := InsertPos(r, x, key, descending);
    assert r == r[..i] + r[i..];
  }

  /** The sort rearranges its input: it neither adds, drops nor duplicates a record. */
  lemma {:induction false} SortByPermutes<T>(s: seq<T>, key: T -> SortKey, descending: bool)
    ensures multiset(SortBy(s, key, descending)) == multiset(s)
  {
    if s != [] {
      var init, last := s[..|s| - 1], s[|s| - 1];
      SortByPermutes(init, key, descending);
      InsertPermutes(SortBy(init, key, descending), last, key, descending);
      assert s == init + [last];
    }
  }

  /** In a sorted list, everything from the insertion point on comes strictly after `x`. */
  lemma InsertTail<T>(r: seq<T>, x: T, key: T -> SortKey, descending: bool)
    requires IsSortedBy(r, key, descending)
    ensures var i := InsertPos(r, x, key, descending);
      forall j :: i <= j < |r| ==> !InOrder(key(r[j]), key(x), descending) && InOrder(key(x), key(r[j]), descending)
  {
    InsertAt(r, x, key, descending);
    var i := InsertPos(r, x, key, descending);
    forall j | i <= j < |r|
      ensures !InOrder(key(r[j]), key(x), descending) && InOrder(key(x), key(r[j]), descending)
    {
      if j > i && InOrder(key(r[j]), key(x), descending) {
        InOrderTransitive(key(r[i]), key(r[j]), key(x), descending);
      }
      InOrderTotal(key(x), key(r[j]), descending);
    }
  }

  lemma InsertSorted<T>(r: seq<T>, x: T, key: T -> SortKey, descending: bool)
    requires IsSortedBy(r, key, descending)
    ensures IsSortedBy(Insert(r, x, key, descending), key, descending)
  {
    InsertAt(r, x, key, descending);
    InsertTail(r, x, key, descending);
    var i := InsertPos(r, x, key, descending);
    var res := Insert(r, x, key, descending);
    forall a, b | 0 <= a < b < |res|
      ensures InOrder(key(res[a]), key(res[b]), descending)
    {
      if b < i || a > i {
        var a' := if a < i then a else a - 1;
        var b' := if b < i then b else b - 1;
        assert res[a] == r[a'] && res[b] == r[b'];
      } else if a == i {
        assert res[b] == r[b - 1];
      } else if b == i {
        assert res[a] == r[a];
      } else {
        assert res[a] == r[a] && res[b] == r[b - 1];
      }
    }
  }

  /** The sort's output is ordered by the key in the requested direction. */
  lemma {:induction false} SortBySorted<T>(s: seq<T>, key: T -> SortKey, descending: bool)
    ensures IsSortedBy(SortBy(s, key, descending), key, descending)
  {
    if s != [] {
      SortBySorted(s[..|s| - 1], key, descending);
      InsertSorted(SortBy(s[..|s| - 1], key, descending), s[|s| - 1], key, descending);
    }
  }

  /** The test `t => key(t) == k`, named so that every use denotes the same function. */
  function KeyIs<T>(key: T -> SortKey, k: SortKey): T -> bool
  {
    t => key(t) == k
  }

  /** The records whose key is exactly `k`, in list order. */
  function WithKey<T>(s: seq<T>, key: T -> SortKey, k: SortKey): seq<T>
  {
    Filter(s, KeyIs(key, k))
  }

  /** In a sorted list, no element from the insertion point on has `x`'s key. */
  lemma TailAvoidsKey<T>(r: seq<T>, x: T, key: T -> SortKey, descending: bool)
    requires IsSortedBy(r, key, descending)
    ensures var i := InsertPos(r, x, key, descending);
      forall j :: 0 <= j < |r[i..]| ==> key(r[i..][j]) != key(x)
  {
    var i := InsertPos(r, x, key, descending);
    InsertTail(r, x, key, descending);
    InOrderReflexive(key(x), descending);
    forall j | 0 <= j < |r[i..]|
      ensures key(r[i..][j]) != key(x)
    {
      assert r[i..][j] == r[i + j];
    }
  }

  /** Putting `x` between two parts adds it to the records with key `k` only at the end,
      provided no record after it shares its key. */
  lemma WithKeyAround<T>(head: seq<T>, x: T, tail: seq<T>, key: T -> SortKey, k: SortKey)
    requires key(x) == k ==> forall j :: 0 <= j < |tail| ==> key(tail[j]) != k
    ensures WithKey(head + [x] + tail, key, k) == WithKey(head + tail, key, k) + (if key(x) == k then [x] else [])
  {
    var p := KeyIs(key, k);
    FilterConcat(head, tail, p);
    FilterAroundPoint(head, x, tail, p);
    if key(x) == k {
      assert forall j :: 0 <= j < |tail| ==> !p(tail[j]);
      FilterNone(tail, p);
      assert Filter(head, p) + [x] + [] == Filter(head, p) + [] + [x];
    }
  }

  lemma InsertWithKey<T>(r: seq<T>, x: T, key: T -> SortKey, descending: bool, k: SortKey)
    requires IsSortedBy(r, key, descending)
    ensures WithKey(Insert(r, x, key, descending), key, k)
         == WithKey(r, key, k) + (if key(x) == k then [x] else [])
  {
    InsertAt(r, x, key, descending);
    TailAvoidsKey(r, x, key, descending);
    var i := InsertPos(r, x, key, descending);
    assert r == r[..i] + r[i..];
    WithKeyAround(r[..i], x, r[i..], key, k);
  }

  /** Stability: among records with equal keys, the sort keeps input order. */
  lemma {:induction false} SortByStable<T>(s: seq<T>, key: T -> SortKey, descending: bool, k: SortKey)
    ensures WithKey(SortBy(s, key, descending), key, k) == WithKey(s, key, k)
  {
    if s != [] {
      var init, last := s[..|s| - 1], s[|s| - 1];
      SortByStable(init, key, descending, k);
      SortBySorted(init, key, descending);
      InsertWithKey(SortBy(init, key, descending), last, key, descending, k);
      assert s == init + [last];
      FilterConcat(init, [last], KeyIs(key, k));
    }
  }

  /** A comparator that calls every pair equal leaves the list as it was. */
  lemma SortByConstantKey<T>(s: seq<T>, key: T -> SortKey, descending: bool, k: SortKey)
    requires forall i :: 0 <= i < |s| ==> key(s[i]) == k
    ensures SortBy(s, key, descending) == s
  {
    var r := SortBy(s, key, descending);
    SortByPermutes(s, key, descending);
    forall i | 0 <= i < |r|
      ensures key(r[i]) == k
    {
      assert r[i] in multiset(s);
    }
    FilterAll(s, t => key(t) == k);
    FilterAll(r, t => key(t) == k);
    SortByStable(s, key, descending, k);
  }

  lemma {:induction false} InsertBetween<T>(a: seq<T>, b: seq<T>, x: T, key: T -> SortKey, descending: bool)
    requires forall j :: 0 <= j < |a| ==> InOrder(key(a[j]), key(x), descending)
    requires b != [] ==> !InOrder(key(b[0]), key(x), descending)
    ensures Insert(a + b, x, key, descending) == a + [x] + b
  {
    if a == [] {
      assert a + b == b;
    } else {
      assert (a + b)[0] == a[0] && (a + b)[1..] == a[1..] + b;
      InsertBetween(a[1..], b, x, key, descending);
    }
  }
  /** A list already ordered by the key comes back unchanged. */
  lemma {:induction false} SortByOfSorted<T>(s: seq<T>, key: T -> SortKey, descending: bool)
    requires IsSortedBy(s, key, descending)
    ensures SortBy(s, key, descending) == s
  {
    if s != [] {
      var init, last := s[..|s| - 1], s[|s| - 1];
      assert IsSortedBy(init, key, descending);
      SortByOfSorted(init, key, descending);
      InsertBetween(init, [], last, key, descending);
      assert init + [] == init;
      assert init + [last] == s;
    }
  }


  lemma FilterInsert<T>(r: seq<T>, x: T, key: T -> SortKey, descending: bool, p: T -> bool)
    requires IsSortedBy(r, key, descending)
    ensures Filter(Insert(r, x, key, descending), p)
         == if p(x) then Insert(Filter(r, p), x, key, descending) else Filter(r, p)
  {
    InsertAt(r, x, key, descending);
    var i := InsertPos(r, x, key, descending);
    var head, tail := r[..i], r[i..];
    assert r == head + tail;
    FilterConcat(head, tail, p);
    assert Filter(r, p) == Filter(head, p) + Filter(tail, p);
    FilterAroundPoint(head, x, tail, p);
    if p(x) {
      InsertTail(r, x, key, descending);
      FilterAround(head, tail, x, key, descending, p);
    }
  }

  lemma FilterAround<T>(head: seq<T>, tail: seq<T>, x: T, key: T -> SortKey, descending: bool, p: T -> bool)
    requires forall j :: 0 <= j < |head| ==> InOrder(key(head[j]), key(x), descending)
    requires forall j :: 0 <= j < |tail| ==> !InOrder(key(tail[j]), key(x), descending)
    ensures Insert(Filter(head, p) + Filter(tail, p), x, key, descending) == Filter(head, p) + [x] + Filter(tail, p)
  {
    var fh, ft := Filter(head, p), Filter(tail, p);
    FilterMembers(head, p);
    FilterMembers(tail, p);
    forall j | 0 <= j < |fh|
      ensures InOrder(key(fh[j]), key(x), descending)
    {
      assert fh[j] in head;
    }
    if ft != [] {
      assert ft[0] in tail;
    }
    InsertBetween(fh, ft, x, key, descending);
  }

  /** Sorting and then filtering gives the same list as filtering and then sorting. */
  lemma {:induction false} FilterSortCommute<T>(s: seq<T>, p: T -> bool, key: T -> SortKey, descending: bool)
    ensures Filter(SortBy(s, key, descending), p) == SortBy(Filter(s, p), key, descending)
  {
    if s != [] {
      var init, last := s[..|s| - 1], s[|s| - 1];
      FilterSortCommute(init, p, key, descending);
      SortBySorted(init, key, descending);
      FilterInsert(SortBy(init, key, descending), last, key, descending, p);
      assert s == init + [last];
      FilterConcat(init, [last], p);
      var f := Filter(s, p);
      if p(last) {
        assert f == Filter(init, p) + [last];
        assert f[..|f| - 1] == Filter(init, p);
      } else {
        assert f == Filter(init, p);
      }
    }
  }

  /** A filter followed by a sort, the shape of every table in the dashboard: the result is a
      permutation of a subsequence of the input, holds exactly the input's rows that pass the
      filter, is ordered by the key, and keeps rows with equal keys in input order. */
  lemma FilterSortShape<T>(s: seq<T>, p: T -> bool, key: T -> SortKey, descending: bool)
    ensures var kept := Filter(s, p);
      var r := SortBy(kept, key, descending);
      && IsSubsequence(kept, s)
      && multiset(r) == multiset(kept)
      && (forall i :: 0 <= i < |r| ==> r[i] in s && p(r[i]))
      && (forall i :: 0 <= i < |s| && p(s[i]) ==> s[i] in r)
      && IsSortedBy(r, key, descending)
      && (forall k :: WithKey(r, key, k) == WithKey(kept, key, k))
  {
    var kept := Filter(s, p);
    var r := SortBy(kept, key, descending);
    FilterIsSubsequence(s, p);
    SortBySorted(kept, key, descending);
    SortByPermutes(kept, key, descending);
    FilterMembers(s, p);
    forall i | 0 <= i < |r|
      ensures r[i] in s && p(r[i])
    {
      assert r[i] in multiset(kept);
    }
    forall i | 0 <= i < |s| && p(s[i])
      ensures s[i] in r
    {
      assert s[i] in multiset(kept);
    }
    forall k
      ensures WithKey(r, key, k) == WithKey(kept, key, k)
    {
      SortByStable(kept, key, descending, k);
    }
  }
}

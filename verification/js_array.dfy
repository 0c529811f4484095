/**
 * The JavaScript array operations the query layer chains together:
 * `find`, `filter`, `slice` and a comparator `sort`, over immutable sequences.
 */
module JsArray {
  import opened Wrappers

  /** Index of the first element satisfying `p`, if there is one. */
  function FirstIndex<T>(s: seq<T>, p: T -> bool): (r: Option<nat>)
    ensures r.Some? ==> r.value < |s| && p(s[r.value])
    ensures r.Some? ==> forall j :: 0 <= j < r.value ==> !p(s[j])
    ensures r.None? <==> forall j :: 0 <= j < |s| ==> !p(s[j])
    decreases |s|
  {
    if |s| == 0 then None
    else if p(s[0]) then Some(0)
    else match FirstIndex(s[1..], p)
      case None => None
      case Some(i) => Some(i + 1)
  }

  /** `s.find(p)`: the first element satisfying `p`, or `undefined`. */
  function Find<T>(s: seq<T>, p: T -> bool): (r: Option<T>)
    ensures r.Some? ==> exists i :: 0 <= i < |s| && s[i] == r.value && p(s[i]) && forall j :: 0 <= j < i ==> !p(s[j])
    ensures r.None? <==> forall j :: 0 <= j < |s| ==> !p(s[j])
  {
    match FirstIndex(s, p)
    case None => None
    case Some(i) => Some(s[i])
  }

  /** `s.filter(p)`: the elements satisfying `p`, in their original order. */
  function Filter<T>(s: seq<T>, p: T -> bool): (r: seq<T>)
    ensures |r| <= |s|
    ensures forall x :: x in r ==> x in s && p(x)
    ensures forall x :: x in s && p(x) ==> x in r
    ensures forall x {:trigger multiset(r)[x]} :: x in s ==> multiset(r)[x] == if p(x) then multiset(s)[x] else 0
    decreases |s|
  {
    if |s| == 0 then []
    else
      assert s == [s[0]] + s[1..];
      (if p(s[0]) then [s[0]] else []) + Filter(s[1..], p)
  }

  /** Concatenation is associative. */
  lemma AppendAssoc<T>(a: seq<T>, b: seq<T>, c: seq<T>)
    ensures a + (b + c) == (a + b) + c
  {
  }

  /** Filtering distributes over concatenation. */
  lemma {:induction false} FilterConcat<T>(a: seq<T>, b: seq<T>, p: T -> bool)
    ensures Filter(a + b, p) == Filter(a, p) + Filter(b, p)
    decreases |a|
  {
    if |a| == 0 {
      assert a + b == b;
    } else {
      var front := if p(a[0]) then [a[0]] else [];
      calc {
        Filter(a + b, p);
        { assert a + b == [a[0]] + (a[1..] + b);
          FilterCons(a[0], a[1..] + b, p); }
        front + Filter(a[1..] + b, p);
        { FilterConcat(a[1..], b, p); }
        front + (Filter(a[1..], p) + Filter(b, p));
        { AppendAssoc(front, Filter(a[1..], p), Filter(b, p));
          assert a == [a[0]] + a[1..];
          FilterCons(a[0], a[1..], p); }
        Filter(a, p) + Filter(b, p);
      }
    }
  }

  /** Filtering a sequence with a given first element. */
  lemma FilterCons<T>(x: T, s: seq<T>, p: T -> bool)
    ensures Filter([x] + s, p) == (if p(x) then [x] else []) + Filter(s, p)
  {
    assert ([x] + s)[1..] == s;
  }

  /** A predicate that holds everywhere keeps the whole sequence. */
  lemma {:induction false} FilterAll<T>(s: seq<T>, p: T -> bool)
    requires forall x :: x in s ==> p(x)
    ensures Filter(s, p) == s
    decreases |s|
  {
    if |s| > 0 {
      FilterAll(s[1..], p);
    }
  }

  /** Removing the element at `i` removes it from the filtered count too. */
  lemma FilterRemoveAt<T>(b: seq<T>, i: nat, p: T -> bool)
    requires i < |b|
    ensures |Filter(b, p)| == |Filter(b[..i] + b[i + 1..], p)| + (if p(b[i]) then 1 else 0)
  {
    assert b == b[..i] + ([b[i]] + b[i + 1..]);
    FilterConcat(b[..i], [b[i]] + b[i + 1..], p);
    FilterConcat([b[i]], b[i + 1..], p);
    FilterConcat(b[..i], b[i + 1..], p);
  }

  /** Removing the element at `i` removes one occurrence of it from the multiset. */
  lemma MultisetRemoveAt<T>(b: seq<T>, i: nat)
    requires i < |b|
    ensures multiset(b[..i] + b[i + 1..]) == multiset(b) - multiset{b[i]}
  {
    assert b == b[..i] + [b[i]] + b[i + 1..];
  }

  /** A predicate that holds nowhere keeps nothing. */
  lemma {:induction false} FilterNone<T>(s: seq<T>, p: T -> bool)
    requires forall x :: x in s ==> !p(x)
    ensures Filter(s, p) == []
    decreases |s|
  {
    if |s| > 0 {
      FilterNone(s[1..], p);
    }
  }

  /** Sequences holding the same elements keep equally many under a filter. */
  lemma {:induction false} FilterLengthPermutation<T>(a: seq<T>, b: seq<T>, p: T -> bool)
    requires multiset(a) == multiset(b)
    ensures |Filter(a, p)| == |Filter(b, p)|
    decreases |a|
  {
    if |a| > 0 {
      var x := a[0];
      assert x in multiset(b);
      var i :| 0 <= i < |b| && b[i] == x;
      var rest := b[..i] + b[i + 1..];
      assert a == [x] + a[1..];
      assert multiset(a[1..]) == multiset(a) - multiset{x};
      MultisetRemoveAt(b, i);
      FilterLengthPermutation(a[1..], rest, p);
      FilterCons(x, a[1..], p);
      FilterRemoveAt(b, i, p);
    }
  }

  /** Keys never increase from left to right. */
  ghost predicate SortedDesc<T>(s: seq<T>, key: T -> int) {
    forall i, j :: 0 <= i < j < |s| ==> key(s[i]) >= key(s[j])
  }

  /** Filtering keeps the relative order, so a descending sequence stays descending. */
  lemma {:induction false} FilterSorted<T>(s: seq<T>, p: T -> bool, key: T -> int)
    requires SortedDesc(s, key)
    ensures SortedDesc(Filter(s, p), key)
    decreases |s|
  {
    if |s| > 0 {
      FilterSorted(s[1..], p, key);
      var tail := Filter(s[1..], p);
      forall y | y in tail
        ensures key(s[0]) >= key(y)
      {
        var j :| 0 <= j < |s[1..]| && s[1..][j] == y;
        assert s[j + 1] == y;
      }
    }
  }

  /** A head no smaller than anything behind it extends a descending sequence. */
  lemma SortedCons<T>(h: T, t: seq<T>, key: T -> int)
    requires SortedDesc(t, key)
    requires forall y :: y in t ==> key(h) >= key(y)
    ensures SortedDesc([h] + t, key)
  {
    forall i, j | 0 <= i < j < |[h] + t|
      ensures key(([h] + t)[i]) >= key(([h] + t)[j])
    {
      if i > 0 {
        assert ([h] + t)[i] == t[i - 1];
      }
      assert ([h] + t)[j] == t[j - 1];
    }
  }

  /** The head of a descending `s` stays in front of the rest of `s` with a smaller `x` added. */
  lemma HeadAbove<T>(s: seq<T>, x: T, t: seq<T>, key: T -> int)
    requires |s| > 0 && SortedDesc(s, key) && key(x) < key(s[0])
    requires multiset(t) == multiset(s[1..]) + multiset{x}
    ensures forall y :: y in t ==> key(s[0]) >= key(y)
  {
    forall y | y in t
      ensures key(s[0]) >= key(y)
    {
      assert y in multiset(t);
      if y != x {
        assert y in multiset(s[1..]);
      }
    }
  }

  /**
   * Places `x` before the first element whose key does not exceed its own,
   * so that of two equal keys the one inserted later stays in front.
   */
  function Insert<T>(x: T, s: seq<T>, key: T -> int): (r: seq<T>)
    requires SortedDesc(s, key)
    ensures SortedDesc(r, key)
    ensures multiset(r) == multiset(s) + multiset{x}
    decreases |s|
  {
    if |s| == 0 || key(x) >= key(s[0]) then [x] + s
    else
      var t := Insert(x, s[1..], key);
      assert s == [s[0]] + s[1..];
      HeadAbove(s, x, t, key);
      SortedCons(s[0], t, key);
      [s[0]] + t
  }

  /**
   * `s.sort((a, b) => key(b) - key(a))`: a stable sort by descending key
   * (insertion sort; Array.prototype.sort has been stable since ES2019).
   */
  function SortDesc<T>(s: seq<T>, key: T -> int): (r: seq<T>)
    ensures SortedDesc(r, key)
    ensures multiset(r) == multiset(s)
    ensures |r| == |s|
    decreases |s|
  {
    if |s| == 0 then []
    else
      assert s == [s[0]] + s[1..];
      Insert(s[0], SortDesc(s[1..], key), key)
  }

  /** Filtering by two tests in either order keeps the same elements in the same order. */
  lemma {:induction false} FilterCommute<T>(s: seq<T>, p: T -> bool, q: T -> bool)
    ensures Filter(Filter(s, p), q) == Filter(Filter(s, q), p)
    decreases |s|
  {
    if |s| > 0 {
      var head := if p(s[0]) then [s[0]] else [];
      FilterConcat(head, Filter(s[1..], p), q);
      var head' := if q(s[0]) then [s[0]] else [];
      FilterConcat(head', Filter(s[1..], q), p);
      FilterCommute(s[1..], p, q);
    }
  }

  /** The test "has key `t`". */
  function KeyIs<T>(key: T -> int, t: int): T -> bool {
    (x: T) => key(x) == t
  }

  /** Two fronts of which one is empty may be laid down in either order. */
  lemma SwapFront<T>(a: seq<T>, b: seq<T>, c: seq<T>)
    requires a == [] || b == []
    ensures a + (b + c) == b + (a + c)
  {
  }

  /**
   * Inserting `x` leaves the elements with key `t` in their order, `x`
   * joining them in front when its key is `t`.
   */
  lemma {:induction false} InsertStable<T>(x: T, s: seq<T>, key: T -> int, t: int)
    requires SortedDesc(s, key)
    ensures Filter(Insert(x, s, key), KeyIs(key, t)) == (if key(x) == t then [x] else []) + Filter(s, KeyIs(key, t))
    decreases |s|
  {
    var has := KeyIs(key, t);
    if |s| == 0 || key(x) >= key(s[0]) {
      assert Insert(x, s, key) == [x] + s;
      FilterCons(x, s, has);
    } else {
      var rest := Insert(x, s[1..], key);
      assert Insert(x, s, key) == [s[0]] + rest;
      FilterCons(s[0], rest, has);
      InsertStable(x, s[1..], key, t);
      assert [s[0]] + s[1..] == s;
      FilterCons(s[0], s[1..], has);
      // `x` sorts after `s[0]`, so at most one of them has the key `t`.
      assert !(has(x) && has(s[0]));
      SwapFront(if has(s[0]) then [s[0]] else [], if has(x) then [x] else [], Filter(s[1..], has));
    }
  }

  /**
   * The sort is stable: the elements sharing any one key keep the order
   * they had in the input.
   */
  lemma {:induction false} SortDescStable<T>(s: seq<T>, key: T -> int, t: int)
    ensures Filter(SortDesc(s, key), KeyIs(key, t)) == Filter(s, KeyIs(key, t))
    decreases |s|
  {
    if |s| > 0 {
      SortDescStable(s[1..], key, t);
      InsertStable(s[0], SortDesc(s[1..], key), key, t);
    }
  }

  /** How `slice` resolves an index argument against a length. */
  function ClampIndex(i: int, len: nat): (r: nat)
    ensures r <= len
  {
    if i < 0 then (if len + i < 0 then 0 else len + i)
    else if i < len then i else len
  }

  /** `s.slice(start, end)`, negative arguments counting from the end. */
  function Slice<T>(s: seq<T>, start: int, end: int): (r: seq<T>)
    ensures ClampIndex(start, |s|) + |r| <= |s|
    ensures forall k :: 0 <= k < |r| ==> r[k] == s[ClampIndex(start, |s|) + k]
    ensures start <= end && (0 <= start || end <= 0) ==> |r| <= end - start
    ensures 0 <= start <= end ==>
      |r| == (if end < |s| then end else |s|) - (if start < |s| then start else |s|)
  {
    var from := ClampIndex(start, |s|);
    var to := ClampIndex(end, |s|);
    if from < to then s[from..to] else []
  }

  /**
   * The length of a slice for any arguments: the distance between the
   * resolved indices, or 0 when the end resolves at or before the start.
   */
  lemma SliceLength<T>(s: seq<T>, start: int, end: int)
    ensures |Slice(s, start, end)| ==
      if ClampIndex(start, |s|) < ClampIndex(end, |s|) then ClampIndex(end, |s|) - ClampIndex(start, |s|) else 0
  {
  }

  /** Position `k` of the slice starting at `o` is position `o + k` of the sliced sequence. */
  lemma SliceAt<T>(s: seq<T>, o: nat, n: nat, k: nat)
    requires o + k < |s| && k < n
    ensures k < |Slice(s, o, o + n)| && Slice(s, o, o + n)[k] == s[o + k]
  {
  }

  /** A slice of a descending sequence is descending. */
  lemma SliceSorted<T>(s: seq<T>, start: int, end: int, key: T -> int)
    ensures SortedDesc(s, key) ==> SortedDesc(Slice(s, start, end), key)
  {
    if SortedDesc(s, key) {
      var r := Slice(s, start, end);
      var from := ClampIndex(start, |s|);
      forall i, j | 0 <= i < j < |r|
        ensures key(r[i]) >= key(r[j])
      {
        assert r[i] == s[from + i] && r[j] == s[from + j];
      }
    }
  }

  /** Every element of a slice is an element of the sliced sequence. */
  lemma SliceWithin<T>(s: seq<T>, start: int, end: int)
    ensures forall x :: x in Slice(s, start, end) ==> x in s
  {
    var r := Slice(s, start, end);
    forall x | x in r
      ensures x in s
    {
      var k :| 0 <= k < |r| && r[k] == x;
      assert s[ClampIndex(start, |s|) + k] == x;
    }
  }
}

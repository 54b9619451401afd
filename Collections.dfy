/** The two query shapes every read path uses: keep the documents that
    match a filter, and order documents by a sort key. MongoDB promises a
    sorted permutation and nothing about the relative order of documents
    with equal keys, so the contracts here promise exactly that; the model
    happens to keep ties in stored order (a stable insertion sort). */
module Collections {

  import opened Common

  ghost predicate TotalPreorder<T(!new)>(le: (T, T) -> bool) {
    && (forall a, b :: le(a, b) || le(b, a))
    && (forall a, b, c :: le(a, b) && le(b, c) ==> le(a, c))
  }

  predicate SortedBy<T>(s: seq<T>, le: (T, T) -> bool) {
    forall i, j :: 0 <= i < j < |s| ==> le(s[i], s[j])
  }

  /** The documents of `s` that satisfy `p`, each with its multiplicity. */
  function Filter<T(!new)>(s: seq<T>, p: T -> bool): (r: seq<T>)
    ensures forall x :: multiset(r)[x] == if p(x) then multiset(s)[x] else 0
    ensures forall x :: x in r <==> x in s && p(x)
    ensures |r| <= |s|
  {
    if s == [] then []
    else
      var rest := Filter(s[1..], p);
      assert s == [s[0]] + s[1..];
      if p(s[0]) then [s[0]] + rest else rest
  }

  /** Filtering keeps the input order: the filter of a concatenation is
      the concatenation of the filters. */
  lemma {:induction false} FilterAppend<T(!new)>(s: seq<T>, t: seq<T>, p: T -> bool)
    ensures Filter(s + t, p) == Filter(s, p) + Filter(t, p)
  {
    if s == [] {
      assert s + t == t;
    } else {
      var h := if p(s[0]) then [s[0]] else [];
      var a, b := Filter(s[1..], p), Filter(t, p);
      calc {
        Filter(s + t, p);
      == { assert (s + t)[1..] == s[1..] + t; FilterHead(s + t, p); }
        h + Filter(s[1..] + t, p);
      == { FilterAppend(s[1..], t, p); }
        h + (a + b);
      == { ConcatAssoc(h, a, b); }
        (h + a) + b;
      == { FilterHead(s, p); }
        Filter(s, p) + b;
      }
    }
  }

  lemma ConcatAssoc<T>(h: seq<T>, a: seq<T>, b: seq<T>)
    ensures h + (a + b) == (h + a) + b
  {
  }

  /** The filter of a non-empty sequence: its head, when it satisfies `p`,
      in front of the filter of the rest. */
  lemma FilterHead<T(!new)>(s: seq<T>, p: T -> bool)
    requires s != []
    ensures Filter(s, p) == (if p(s[0]) then [s[0]] else []) + Filter(s[1..], p)
  {
  }

  /** The position of the first document of `s` that satisfies `p`, or
      `None` when none does: the `findOne`, `findById` and `Array.find` of
      every lookup. */
  function FirstIndex<T>(s: seq<T>, p: T -> bool): (r: Option<nat>)
    ensures r.Some? ==> r.value < |s| && p(s[r.value])
    ensures r.Some? ==> forall j :: 0 <= j < r.value ==> !p(s[j])
    ensures r.None? ==> forall j :: 0 <= j < |s| ==> !p(s[j])
  {
    if s == [] then None
    else if p(s[0]) then Some(0)
    else match FirstIndex(s[1..], p)
      case None => None
      case Some(k) => Some(k + 1)
  }

  /** How many documents of `s` satisfy `p`. */
  function Count<T>(s: seq<T>, p: T -> bool): (n: nat)
    ensures n <= |s|
    ensures n == |s| <==> forall i :: 0 <= i < |s| ==> p(s[i])
  {
    if s == [] then 0
    else Count(s[1..], p) + (if p(s[0]) then 1 else 0)
  }

  lemma {:induction false} CountAppend<T>(s: seq<T>, t: seq<T>, p: T -> bool)
    ensures Count(s + t, p) == Count(s, p) + Count(t, p)
  {
    if s != [] {
      assert (s + t)[1..] == s[1..] + t;
      CountAppend(s[1..], t, p);
    } else {
      assert s + t == t;
    }
  }

  lemma {:induction false} FilterLength<T(!new)>(s: seq<T>, p: T -> bool)
    ensures |Filter(s, p)| == Count(s, p)
  {
    if s != [] {
      FilterLength(s[1..], p);
    }
  }

  function Insert<T>(x: T, s: seq<T>, le: (T, T) -> bool): (r: seq<T>)
    ensures multiset(r) == multiset(s) + multiset{x}
  {
    if s == [] || le(x, s[0]) then [x] + s
    else
      assert s == [s[0]] + s[1..];
      [s[0]] + Insert(x, s[1..], le)
  }

  lemma {:induction false} InsertSorted<T(!new)>(x: T, s: seq<T>, le: (T, T) -> bool)
    requires TotalPreorder(le) && SortedBy(s, le)
    ensures SortedBy(Insert(x, s, le), le)
  {
    if s != [] && !le(x, s[0]) {
      InsertSorted(x, s[1..], le);
      var r := Insert(x, s, le);
      var tail := Insert(x, s[1..], le);
      assert r == [s[0]] + tail;
      assert le(s[0], x);
      forall y | y in multiset(tail) ensures le(s[0], y) {
        assert y in multiset(s[1..]) + multiset{x};
        if y in multiset(s[1..]) {
          var k :| 0 <= k < |s[1..]| && s[1..][k] == y;
          assert s[1..][k] == s[k + 1];
        }
      }
      forall i, j | 0 <= i < j < |r| ensures le(r[i], r[j]) {
        if i == 0 {
          assert r[j] == tail[j - 1];
          assert tail[j - 1] in multiset(tail);
        } else {
          assert r[i] == tail[i - 1] && r[j] == tail[j - 1];
        }
      }
    }
  }

  /** Insertion sort by `le`; an element is inserted before the first one
      it is `le` to, so equal keys keep their stored order. */
  function Sort<T>(s: seq<T>, le: (T, T) -> bool): (r: seq<T>)
    ensures multiset(r) == multiset(s)
    ensures |r| == |s|
  {
    if s == [] then []
    else
      assert s == [s[0]] + s[1..];
      Insert(s[0], Sort(s[1..], le), le)
  }

  lemma {:induction false} SortSorted<T(!new)>(s: seq<T>, le: (T, T) -> bool)
    requires TotalPreorder(le)
    ensures SortedBy(Sort(s, le), le)
  {
    if s != [] {
      SortSorted(s[1..], le);
      InsertSorted(s[0], Sort(s[1..], le), le);
    }
  }

  /** `limit(n)`: the first `n` documents, or all of them when there are
      fewer. */
  function Take<T>(s: seq<T>, n: nat): (r: seq<T>)
    ensures |r| == if |s| < n then |s| else n
    ensures r <= s
  {
    if |s| <= n then s else s[..n]
  }

  /** In a sorted sequence, whatever `limit(n)` leaves out sorts at or
      after the last element it keeps. */
  lemma TakeLeavesLater<T(!new)>(s: seq<T>, n: nat, le: (T, T) -> bool)
    requires SortedBy(s, le)
    ensures multiset(Take(s, n)) <= multiset(s)
    ensures |Take(s, n)| > 0 ==>
              forall x :: x in multiset(s) - multiset(Take(s, n)) ==> le(Take(s, n)[|Take(s, n)| - 1], x)
  {
    var r := Take(s, n);
    var m := |r|;
    assert r == s[..m];
    assert s == s[..m] + s[m..];
    assert multiset(s) == multiset(s[..m]) + multiset(s[m..]);
    assert multiset(s) - multiset(s[..m]) == multiset(s[m..]);
    if m > 0 {
      forall x | x in multiset(s[m..]) ensures le(s[m - 1], x) {
        var k :| 0 <= k < |s[m..]| && s[m..][k] == x;
        assert s[m..][k] == s[m + k];
      }
    }
  }
}

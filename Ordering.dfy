/** What a `findAll`/`findAndCountAll` with `where`, `order`, `limit` and
    `offset` returns, stated over the rows of a table as a sequence:
    keep the rows the `where` accepts, order them, cut out one page. */
module Ordering {

  import opened Common

  /** A comparator that can stand for an `ORDER BY`: total and transitive
      (rows with equal keys may come in either order). */
  ghost predicate TotalPreorder<T(!new)>(le: (T, T) -> bool)
  {
    && (forall a, b :: le(a, b) || le(b, a))
    && (forall a, b, c :: le(a, b) && le(b, c) ==> le(a, c))
  }

  predicate SortedBy<T>(s: seq<T>, le: (T, T) -> bool)
  {
    forall i, j :: 0 <= i < j < |s| ==> le(s[i], s[j])
  }

  /** The rows that `keep` accepts, in their original order. */
  function Filter<T(!new)>(s: seq<T>, keep: T -> bool): (r: seq<T>)
    ensures |r| <= |s|
    ensures forall x :: x in r <==> x in s && keep(x)
    ensures multiset(r) <= multiset(s)
    decreases |s|
  {
    if s == [] then []
    else
      var rest := Filter(s[1..], keep);
      assert s == [s[0]] + s[1..];
      if keep(s[0]) then [s[0]] + rest else rest
  }

  /** A `where` every row satisfies keeps the whole table. */
  lemma {:induction false} FilterKeepsAll<T(!new)>(s: seq<T>, keep: T -> bool)
    requires forall i :: 0 <= i < |s| ==> keep(s[i])
    ensures Filter(s, keep) == s
    decreases |s|
  {
    if s != [] {
      FilterKeepsAll(s[1..], keep);
    }
  }

  function Insert<T(!new)>(x: T, s: seq<T>, le: (T, T) -> bool): (r: seq<T>)
    requires TotalPreorder(le)
    requires SortedBy(s, le)
    ensures SortedBy(r, le)
    ensures multiset(r) == multiset(s) + multiset{x}
    decreases |s|
  {
    if s == [] then [x]
    else if le(x, s[0]) then [x] + s
    else
      var rest := Insert(x, s[1..], le);
      assert s == [s[0]] + s[1..];
      assert forall k :: 0 <= k < |rest| ==> le(s[0], rest[k]) by {
        forall k | 0 <= k < |rest|
          ensures le(s[0], rest[k])
        {
          assert rest[k] in multiset(rest);
          if rest[k] != x {
            assert rest[k] in multiset(s[1..]);
            var i :| 0 <= i < |s[1..]| && s[1..][i] == rest[k];
            assert s[1 + i] == rest[k];
          }
        }
      }
      [s[0]] + rest
  }

  /** Insertion sort: a permutation of `s` ordered by `le`. */
  function SortBy<T(!new)>(s: seq<T>, le: (T, T) -> bool): (r: seq<T>)
    requires TotalPreorder(le)
    ensures SortedBy(r, le)
    ensures multiset(r) == multiset(s)
    decreases |s|
  {
    if s == [] then []
    else
      assert s == [s[0]] + s[1..];
      Insert(s[0], SortBy(s[1..], le), le)
  }

  /** Number of rows `LIMIT limit OFFSET offset` keeps out of `n`. */
  function PageSize(n: nat, offset: nat, limit: nat): nat
  {
    if offset >= n then 0 else Min(limit, n - offset)
  }

  /** `LIMIT limit OFFSET offset`: the rows from position `offset` on, at most `limit` of them. */
  function Page<T(!new)>(s: seq<T>, offset: nat, limit: nat): (r: seq<T>)
    ensures |r| == PageSize(|s|, offset, limit)
    ensures forall i :: 0 <= i < |r| ==> r[i] == s[offset + i]
  {
    if offset >= |s| then [] else s[offset..offset + Min(limit, |s| - offset)]
  }

  /** One page of the rows `keep` accepts, ordered by `le`. */
  function Select<T(!new)>(s: seq<T>, keep: T -> bool, le: (T, T) -> bool, offset: nat, limit: nat): (r: seq<T>)
    requires TotalPreorder(le)
    ensures r == Page(SortBy(Filter(s, keep), le), offset, limit)
    ensures forall x :: x in r ==> x in s && keep(x)
    ensures SortedBy(r, le)
    ensures |r| == PageSize(|Filter(s, keep)|, offset, limit)
  {
    var matching := Filter(s, keep);
    var sorted := SortBy(matching, le);
    var r := Page(sorted, offset, limit);
    assert forall x :: x in r ==> x in sorted by {
      forall x | x in r ensures x in sorted {
        var i :| 0 <= i < |r| && r[i] == x;
        assert sorted[offset + i] == x;
      }
    }
    assert forall x :: x in sorted ==> x in matching by {
      forall x | x in sorted ensures x in matching {
        assert x in multiset(sorted);
      }
    }
    assert |sorted| == |matching| by {
      assert |multiset(sorted)| == |multiset(matching)|;
    }
    assert forall i, j :: 0 <= i < j < |r| ==> le(r[i], r[j]) by {
      forall i, j | 0 <= i < j < |r| ensures le(r[i], r[j]) {
        assert r[i] == sorted[offset + i] && r[j] == sorted[offset + j];
      }
    }
    r
  }

  /** A first page holds the best rows: every matching row it leaves out
      comes, in the order, at or after each row it shows. */
  lemma FirstPageIsTop<T(!new)>(s: seq<T>, keep: T -> bool, le: (T, T) -> bool, limit: nat)
    requires TotalPreorder(le)
    ensures forall x, i :: x in s && keep(x) && x !in Select(s, keep, le, 0, limit) && 0 <= i < |Select(s, keep, le, 0, limit)| ==>
              le(Select(s, keep, le, 0, limit)[i], x)
  {
    var r := Select(s, keep, le, 0, limit);
    var sorted := SortBy(Filter(s, keep), le);
    forall x, i | x in s && keep(x) && x !in r && 0 <= i < |r|
      ensures le(r[i], x)
    {
      assert x in Filter(s, keep);
      assert x in multiset(Filter(s, keep));
      assert x in multiset(sorted);
      var j :| 0 <= j < |sorted| && sorted[j] == x;
      assert r[i] == sorted[i];
    }
  }

  /** What `findAndCountAll` returns: the number of matching rows, and one page of them. */
  datatype Counted<T> = Counted(count: nat, rows: seq<T>)
}

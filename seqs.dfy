/**
 * Sequence queries shared by the in-memory repositories: a repository table
 * is a sequence of rows in insertion order, a query keeps the rows that
 * satisfy its predicate, and "the first row" means the first in that order.
 */
module Seqs {
  import opened Wrappers

  function Filter<T(!new)>(s: seq<T>, p: T -> bool): (r: seq<T>)
    ensures |r| <= |s|
    ensures forall x :: x in r <==> x in s && p(x)
    ensures forall i :: 0 <= i < |r| ==> p(r[i])
    ensures r == [] <==> forall x :: x in s ==> !p(x)
  {
    if s == [] then []
    else if p(s[0]) then [s[0]] + Filter(s[1..], p)
    else Filter(s[1..], p)
  }

  /** The number of rows that satisfy `p` (a `COUNT` query, or `stream().filter(p).count()`). */
  function Count<T(!new)>(s: seq<T>, p: T -> bool): (n: nat)
    ensures n <= |s|
    ensures n == 0 <==> forall i :: 0 <= i < |s| ==> !p(s[i])
  {
    var r := Filter(s, p);
    assert n0: r == [] ==> forall i :: 0 <= i < |s| ==> !p(s[i]) by {
      if r == [] {
        forall i | 0 <= i < |s| ensures !p(s[i]) { assert s[i] in s; }
      }
    }
    assert r != [] ==> r[0] in s;
    |r|
  }

  /** Index of the first row that satisfies `p` (`stream().filter(p).findFirst()`). */
  function FirstIndex<T>(s: seq<T>, p: T -> bool): (r: Option<nat>)
    ensures r.Some? ==> r.value < |s| && p(s[r.value])
    ensures r.Some? ==> forall j :: 0 <= j < r.value ==> !p(s[j])
    ensures r.None? <==> forall j :: 0 <= j < |s| ==> !p(s[j])
  {
    if s == [] then None
    else if p(s[0]) then Some(0)
    else
      match FirstIndex(s[1..], p)
      case None => None
      case Some(k) => Some(k + 1)
  }

  /**
   * A Spring Data query declared to return one row (an `Optional`): no row
   * gives an empty result, one row gives that row, and more than one row
   * raises IncorrectResultSizeDataAccessException.
   */
  function SingleResult<T(!new)>(s: seq<T>, p: T -> bool): (r: Result<Option<nat>>)
    ensures r.Ok? <==> Count(s, p) <= 1
    ensures r == Ok(None) <==> Count(s, p) == 0
    ensures r.Ok? && r.value.Some? ==> r.value.value < |s| && p(s[r.value.value])
    ensures r.Err? ==> r.error == Runtime
  {
    var n := Count(s, p);
    if n == 0 then Ok(None)
    else if n == 1 then Ok(FirstIndex(s, p))
    else Err(Runtime)
  }

  /** Two predicates that agree on every row select the same rows, in the same order. */
  lemma {:induction false} FilterCongruent<T(!new)>(s: seq<T>, p: T -> bool, q: T -> bool)
    requires forall i :: 0 <= i < |s| ==> p(s[i]) == q(s[i])
    ensures Filter(s, p) == Filter(s, q)
  {
    if s != [] {
      FilterCongruent(s[1..], p, q);
    }
  }

  /** Filtering a concatenation filters each part. */
  lemma {:induction false} FilterAppend<T(!new)>(a: seq<T>, b: seq<T>, p: T -> bool)
    ensures Filter(a + b, p) == Filter(a, p) + Filter(b, p)
  {
    if a == [] {
      assert a + b == b;
    } else {
      assert (a + b)[0] == a[0] && (a + b)[1..] == a[1..] + b;
      FilterAppend(a[1..], b, p);
    }
  }

  /** Filtering one more row appends it exactly when it satisfies `p`. */
  lemma FilterStep<T(!new)>(s: seq<T>, k: nat, p: T -> bool)
    requires k < |s|
    ensures Filter(s[..k + 1], p) == Filter(s[..k], p) + if p(s[k]) then [s[k]] else []
  {
    var last := [s[k]];
    assert s[..k + 1] == s[..k] + last;
    FilterAppend(s[..k], last, p);
    assert last[1..] == [];
  }

  /** The rows before position `n` that satisfy `p`, gathered one row at a time. */
  function FilterUpTo<T>(s: seq<T>, n: nat, p: T -> bool): seq<T>
    requires n <= |s|
  {
    if n == 0 then [] else FilterUpTo(s, n - 1, p) + if p(s[n - 1]) then [s[n - 1]] else []
  }

  /** Gathering row by row is filtering the prefix. */
  lemma {:induction false} FilterUpToIsFilter<T(!new)>(s: seq<T>, n: nat, p: T -> bool)
    requires n <= |s|
    ensures FilterUpTo(s, n, p) == Filter(s[..n], p)
  {
    if n > 0 {
      FilterUpToIsFilter(s, n - 1, p);
      FilterStep(s, n - 1, p);
    }
  }

  /** Counting one more row adds one exactly when it satisfies `p`. */
  lemma CountStep<T(!new)>(s: seq<T>, k: nat, p: T -> bool)
    requires k < |s|
    ensures Count(s[..k + 1], p) == Count(s[..k], p) + if p(s[k]) then 1 else 0
  {
    assert s[..k + 1] == s[..k] + [s[k]];
    FilterAppend(s[..k], [s[k]], p);
  }

  /** No element occurs twice. */
  predicate Distinct<T(==)>(s: seq<T>)
  {
    forall i, j :: 0 <= i < j < |s| ==> s[i] != s[j]
  }

  /** A filter every element passes keeps the whole sequence. */
  lemma {:induction false} FilterKeepsAll<T(!new)>(s: seq<T>, p: T -> bool)
    requires forall i :: 0 <= i < |s| ==> p(s[i])
    ensures Filter(s, p) == s
  {
    if s != [] {
      FilterKeepsAll(s[1..], p);
    }
  }

  /** Filtering keeps a sequence without repetitions free of them. */
  lemma {:induction false} FilterDistinct<T(!new)>(s: seq<T>, p: T -> bool)
    requires Distinct(s)
    ensures Distinct(Filter(s, p))
  {
    if s != [] {
      FilterDistinct(s[1..], p);
      if p(s[0]) {
        var t := Filter(s[1..], p);
        assert s[0] !in s[1..];
        assert s[0] !in t;
        assert Filter(s, p) == [s[0]] + t;
      }
    }
  }

  /** A stronger filter keeps no more rows. */
  lemma {:induction false} FilterAtMost<T(!new)>(s: seq<T>, p: T -> bool, q: T -> bool)
    requires forall x :: p(x) ==> q(x)
    ensures |Filter(s, p)| <= |Filter(s, q)|
  {
    if s != [] {
      FilterAtMost(s[1..], p, q);
    }
  }

  /** A filter that rejects some row keeps fewer rows than there are. */
  lemma {:induction false} FilterDropsOne<T(!new)>(s: seq<T>, p: T -> bool, j: nat)
    requires j < |s| && !p(s[j])
    ensures |Filter(s, p)| < |s|
  {
    if j > 0 {
      FilterDropsOne(s[1..], p, j - 1);
    }
  }

  /** Filtering by `p` and then by `q` keeps the rows that pass both, in the same order. */
  lemma {:induction false} FilterTwice<T(!new)>(s: seq<T>, p: T -> bool, q: T -> bool, both: T -> bool)
    requires forall x :: both(x) == (p(x) && q(x))
    ensures Filter(Filter(s, p), q) == Filter(s, both)
  {
    if s != [] {
      FilterTwice(s[1..], p, q, both);
    }
  }

  /** An element of a non-empty sequence is its last element or an element of the rest. */
  lemma InitOrLast<T>(s: seq<T>, x: T)
    requires x in s
    ensures x == s[|s| - 1] || x in s[..|s| - 1]
  {
    var k :| 0 <= k < |s| && s[k] == x;
    if k < |s| - 1 {
      assert s[..|s| - 1][k] == x;
    }
  }

  /** A query that at most one row can satisfy counts at most one row. */
  lemma {:induction false} CountAtMostOne<T(!new)>(s: seq<T>, p: T -> bool)
    requires forall i, j :: 0 <= i < j < |s| && p(s[i]) ==> !p(s[j])
    ensures Count(s, p) <= 1
  {
    if s != [] {
      var rest := s[1..];
      CountAtMostOne(rest, p);
      if p(s[0]) {
        forall x | x in rest
          ensures !p(x)
        {
          var j :| 0 <= j < |rest| && rest[j] == x;
          assert s[j + 1] == x;
        }
        assert Filter(rest, p) == [];
      }
    }
  }
  /** Two tables whose rows agree position by position on the query count alike. */
  lemma {:induction false} CountCongruent<T(!new), U(!new)>(s: seq<T>, p: T -> bool, t: seq<U>, q: U -> bool)
    requires |s| == |t| && forall i :: 0 <= i < |s| ==> p(s[i]) == q(t[i])
    ensures Count(s, p) == Count(t, q)
    decreases |s|
  {
    if s != [] {
      assert p(s[0]) == q(t[0]);
      assert forall i :: 0 <= i < |s| - 1 ==> s[1..][i] == s[i + 1] && t[1..][i] == t[i + 1];
      CountCongruent(s[1..], p, t[1..], q);
    }
  }

  /** Two tables whose rows agree position by position on the query find the same first row. */
  lemma {:induction false} FirstIndexCongruent<T, U>(s: seq<T>, p: T -> bool, t: seq<U>, q: U -> bool)
    requires |s| == |t| && forall i :: 0 <= i < |s| ==> p(s[i]) == q(t[i])
    ensures FirstIndex(s, p) == FirstIndex(t, q)
    decreases |s|
  {
    if s != [] {
      assert p(s[0]) == q(t[0]);
      assert forall i :: 0 <= i < |s| - 1 ==> s[1..][i] == s[i + 1] && t[1..][i] == t[i + 1];
      FirstIndexCongruent(s[1..], p, t[1..], q);
    }
  }

  /** Two tables whose rows agree position by position on the query give the same single-row answer. */
  lemma SingleResultCongruent<T(!new), U(!new)>(s: seq<T>, p: T -> bool, t: seq<U>, q: U -> bool)
    requires |s| == |t| && forall i :: 0 <= i < |s| ==> p(s[i]) == q(t[i])
    ensures SingleResult(s, p) == SingleResult(t, q)
  {
    CountCongruent(s, p, t, q);
    FirstIndexCongruent(s, p, t, q);
  }

  /** Two rows that satisfy `p` count at least two. */
  lemma {:induction false} TwoRowsCountTwo<T(!new)>(s: seq<T>, p: T -> bool, i: nat, j: nat)
    requires i < j < |s| && p(s[i]) && p(s[j])
    ensures Count(s, p) >= 2
  {
    if i == 0 {
      assert s[1..][j - 1] == s[j];
      assert Filter(s[1..], p) != [];
    } else {
      TwoRowsCountTwo(s[1..], p, i - 1, j - 1);
    }
  }

  /** When a single-row query succeeds, the row it returns is every row that satisfies it. */
  lemma SingleResultIsOnly<T(!new)>(s: seq<T>, p: T -> bool, i: nat)
    requires i < |s| && p(s[i]) && SingleResult(s, p).Ok?
    ensures SingleResult(s, p) == Ok(Some(i))
  {
    var f := FirstIndex(s, p);
    if f.value < i {
      TwoRowsCountTwo(s, p, f.value, i);
    }
  }
}

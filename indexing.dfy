/**
 * The two ways the lookup service turns a flat collection into a map, as
 * specification functions over the prefix already scanned:
 *  - IndexBy: `m.set(key(x), x)` for each x in order, so the last record with a key wins;
 *  - GroupBy: create an empty list for a new key, then push x, so each list keeps source order.
 * Select is an independent reference definition (a filter) that GroupBy is proved against.
 */
module Indexing {

  import opened Wrappers

  function IndexBy<T, K(==)>(xs: seq<T>, key: T -> K): map<K, T>
    decreases |xs|
  {
    if xs == [] then map[]
    else IndexBy(xs[..|xs| - 1], key)[key(xs[|xs| - 1]) := xs[|xs| - 1]]
  }

  function GroupBy<T>(xs: seq<T>, key: T -> int): map<int, seq<T>>
    decreases |xs|
  {
    if xs == [] then map[]
    else
      var g := GroupBy(xs[..|xs| - 1], key);
      var x := xs[|xs| - 1];
      g[key(x) := (if key(x) in g then g[key(x)] else []) + [x]]
  }

  /** The records of xs whose key is k, in source order. */
  function Select<T>(xs: seq<T>, key: T -> int, k: int): seq<T>
    decreases |xs|
  {
    if xs == [] then []
    else (if key(xs[0]) == k then [xs[0]] else []) + Select(xs[1..], key, k)
  }

  /** xs[i] has key k and no later record has key k. */
  ghost predicate IsLastWith<T, K>(xs: seq<T>, key: T -> K, k: K, i: int)
  {
    0 <= i < |xs| && key(xs[i]) == k && forall j :: i < j < |xs| ==> key(xs[j]) != k
  }

  /** A key is indexed iff some record has it, and then it maps to the last such record. */
  lemma {:induction false} IndexByLast<T, K>(xs: seq<T>, key: T -> K, k: K)
    ensures k in IndexBy(xs, key) <==> exists i :: 0 <= i < |xs| && key(xs[i]) == k
    ensures k in IndexBy(xs, key) ==> exists i :: IsLastWith(xs, key, k, i) && IndexBy(xs, key)[k] == xs[i]
    decreases |xs|
  {
    if xs != [] {
      var n := |xs| - 1;
      var init := xs[..n];
      IndexByLast(init, key, k);
      if key(xs[n]) == k {
        assert IsLastWith(xs, key, k, n);
      } else {
        if k in IndexBy(init, key) {
          var i :| IsLastWith(init, key, k, i) && IndexBy(init, key)[k] == init[i];
          assert IsLastWith(xs, key, k, i);
        }
        if exists i :: 0 <= i < |xs| && key(xs[i]) == k {
          var i :| 0 <= i < |xs| && key(xs[i]) == k;
          assert key(init[i]) == k;
        }
      }
    }
  }

  /** The point lookup on an IndexBy map is "the last record with that key, if any". */
  lemma {:induction false} IndexByGet<T, K>(xs: seq<T>, key: T -> K, k: K)
    ensures Get(IndexBy(xs, key), k).None? <==> forall i :: 0 <= i < |xs| ==> key(xs[i]) != k
    ensures Get(IndexBy(xs, key), k).Some? ==>
              exists i :: IsLastWith(xs, key, k, i) && Get(IndexBy(xs, key), k).value == xs[i]
  {
    IndexByLast(xs, key, k);
  }

  lemma {:induction false} SelectSnoc<T>(xs: seq<T>, x: T, key: T -> int, k: int)
    ensures Select(xs + [x], key, k) == Select(xs, key, k) + (if key(x) == k then [x] else [])
    decreases |xs|
  {
    if xs == [] {
      assert xs + [x] == [x];
    } else {
      assert (xs + [x])[1..] == xs[1..] + [x];
      SelectSnoc(xs[1..], x, key, k);
    }
  }

  /** The selection holds exactly the records with key k, and no more of them than the input. */
  lemma {:induction false} SelectMembers<T>(xs: seq<T>, key: T -> int, k: int)
    ensures forall z :: z in Select(xs, key, k) <==> z in xs && key(z) == k
    ensures |Select(xs, key, k)| <= |xs|
    decreases |xs|
  {
    if xs != [] {
      SelectMembers(xs[1..], key, k);
      assert xs == [xs[0]] + xs[1..];
    }
  }

  /**
   * GroupBy meets its reference: a key is present iff some record has it, and its
   * list is the source-ordered selection; an absent key selects nothing.
   */
  lemma {:induction false} GroupBySelect<T>(xs: seq<T>, key: T -> int, k: int)
    ensures k in GroupBy(xs, key) <==> exists i :: 0 <= i < |xs| && key(xs[i]) == k
    ensures k in GroupBy(xs, key) ==> GroupBy(xs, key)[k] == Select(xs, key, k)
    ensures k !in GroupBy(xs, key) ==> Select(xs, key, k) == []
    decreases |xs|
  {
    if xs != [] {
      var n := |xs| - 1;
      var init, x := xs[..n], xs[n];
      GroupBySelect(init, key, k);
      assert xs == init + [x];
      SelectSnoc(init, x, key, k);
      if key(x) != k {
        if exists i :: 0 <= i < |xs| && key(xs[i]) == k {
          var i :| 0 <= i < |xs| && key(xs[i]) == k;
          assert key(init[i]) == k;
        }
      }
    }
  }

  /** A grouping is empty exactly when its input is. */
  lemma {:induction false} GroupByEmpty<T>(xs: seq<T>, key: T -> int)
    ensures GroupBy(xs, key) == map[] <==> xs == []
  {
    if xs != [] {
      assert key(xs[|xs| - 1]) in GroupBy(xs, key);
    }
  }
}

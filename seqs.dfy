/** Kotlin collection operations over lists, shared by the modules of the model. */
module Seqs {
  import opened Wrappers

  /** Kotlin's `find`: the first element satisfying `p`, or None. */
  function Find<T>(xs: seq<T>, p: T -> bool): (r: Option<T>)
    ensures r.Some? ==> exists i :: 0 <= i < |xs| && xs[i] == r.value && p(xs[i])
                                 && forall j :: 0 <= j < i ==> !p(xs[j])
    ensures r.None? <==> forall i :: 0 <= i < |xs| ==> !p(xs[i])
  {
    if |xs| == 0 then None
    else if p(xs[0]) then Some(xs[0])
    else
      var r := Find(xs[1..], p);
      assert forall i :: 1 <= i < |xs| ==> xs[i] == xs[1..][i - 1];
      assert r.Some? ==> exists i :: 0 <= i < |xs| && xs[i] == r.value && p(xs[i])
                                 && forall j :: 0 <= j < i ==> !p(xs[j]) by {
        if r.Some? {
          var k :| 0 <= k < |xs[1..]| && xs[1..][k] == r.value && p(xs[1..][k])
                   && forall j :: 0 <= j < k ==> !p(xs[1..][j]);
          assert xs[k + 1] == r.value && p(xs[k + 1]);
          assert forall j :: 0 <= j < k + 1 ==> !p(xs[j]) by {
            forall j | 0 <= j < k + 1 ensures !p(xs[j]) {
              if j > 0 {
                assert xs[j] == xs[1..][j - 1];
              }
            }
          }
        }
      }
      r
  }

  /** Appending an element changes the first match only when there was none before. */
  lemma {:induction false} FindAppend<T>(xs: seq<T>, x: T, p: T -> bool)
    ensures Find(xs + [x], p) == if Find(xs, p).Some? then Find(xs, p) else if p(x) then Some(x) else None
  {
    if |xs| > 0 {
      assert (xs + [x])[1..] == xs[1..] + [x];
      FindAppend(xs[1..], x, p);
    }
  }

  /** A property every matching element has, the first match has. */
  lemma FindKeeps<T>(xs: seq<T>, p: T -> bool, q: T -> bool)
    requires forall i :: 0 <= i < |xs| && p(xs[i]) ==> q(xs[i])
    ensures Find(xs, p).Some? ==> q(Find(xs, p).value)
  {
    if Find(xs, p).Some? {
      var i :| 0 <= i < |xs| && xs[i] == Find(xs, p).value && p(xs[i]);
    }
  }

  /** Elements appended after a match do not change the first match. */
  lemma {:induction false} FindConcatFound<T>(xs: seq<T>, ys: seq<T>, p: T -> bool)
    requires Find(xs, p).Some?
    ensures Find(xs + ys, p) == Find(xs, p)
  {
    if !p(xs[0]) {
      assert (xs + ys)[1..] == xs[1..] + ys;
      FindConcatFound(xs[1..], ys, p);
    }
  }

  /** Kotlin's `filter`: the elements satisfying `p`, in their order. */
  function Filter<T>(xs: seq<T>, p: T -> bool): (r: seq<T>)
    ensures |r| <= |xs|
    ensures forall i :: 0 <= i < |r| ==> r[i] in xs && p(r[i])
    ensures forall i :: 0 <= i < |xs| && p(xs[i]) ==> xs[i] in r
  {
    if |xs| == 0 then []
    else
      var rest := Filter(xs[1..], p);
      assert forall i :: 1 <= i < |xs| ==> xs[i] == xs[1..][i - 1];
      if p(xs[0]) then [xs[0]] + rest else rest
  }

  /** Nothing passes a filter that no element satisfies. */
  lemma {:induction false} FilterNone<T>(xs: seq<T>, p: T -> bool)
    requires forall i :: 0 <= i < |xs| ==> !p(xs[i])
    ensures Filter(xs, p) == []
  {
    if |xs| > 0 {
      assert forall i :: 0 <= i < |xs[1..]| ==> xs[1..][i] == xs[i + 1];
      FilterNone(xs[1..], p);
    }
  }

  /** Leaving out an element that fails the test makes the result shorter. */
  lemma {:induction false} FilterShrinks<T>(xs: seq<T>, p: T -> bool, i: int)
    requires 0 <= i < |xs| && !p(xs[i])
    ensures |Filter(xs, p)| < |xs|
  {
    if i > 0 {
      assert xs[1..][i - 1] == xs[i];
      FilterShrinks(xs[1..], p, i - 1);
    }
  }

  /** Filtering twice is filtering once with both tests. */
  lemma {:induction false} FilterFilter<T>(xs: seq<T>, p: T -> bool, q: T -> bool, both: T -> bool)
    requires forall x :: both(x) == (q(x) && p(x))
    ensures Filter(Filter(xs, q), p) == Filter(xs, both)
  {
    if |xs| > 0 {
      FilterFilter(xs[1..], p, q, both);
    }
  }

  /** The elements passing `p` are those passing `p` and `q` and those passing `p` but not `q`. */
  lemma {:induction false} FilterSplit<T>(xs: seq<T>, p: T -> bool, q: T -> bool, pq: T -> bool, pNotQ: T -> bool)
    requires forall x :: pq(x) == (p(x) && q(x))
    requires forall x :: pNotQ(x) == (p(x) && !q(x))
    ensures multiset(Filter(xs, p)) == multiset(Filter(xs, pq)) + multiset(Filter(xs, pNotQ))
  {
    if |xs| > 0 {
      FilterSplit(xs[1..], p, q, pq, pNotQ);
    }
  }

  /** Kotlin's `maxByOrNull`: the first element with the greatest key, or None for an empty list. */
  function MaxBy<T>(xs: seq<T>, key: T -> int): (r: Option<T>)
    ensures r.None? <==> |xs| == 0
    ensures r.Some? ==> r.value in xs && forall i :: 0 <= i < |xs| ==> key(xs[i]) <= key(r.value)
  {
    if |xs| == 0 then None
    else
      var init := xs[..|xs| - 1];
      var last := xs[|xs| - 1];
      assert xs == init + [last];
      match MaxBy(init, key)
      case None => Some(last)
      case Some(m) => if key(last) > key(m) then Some(last) else Some(m)
  }

  /** The element `MaxBy` picks is the first with the greatest key: every element before it has a smaller key. */
  lemma {:induction false} MaxByFirst<T>(xs: seq<T>, key: T -> int)
    requires |xs| > 0
    ensures exists i :: 0 <= i < |xs| && xs[i] == MaxBy(xs, key).value
                        && forall j :: 0 <= j < i ==> key(xs[j]) < key(xs[i])
  {
    var init := xs[..|xs| - 1];
    var last := xs[|xs| - 1];
    assert xs == init + [last];
    if |init| == 0 {
      assert xs[0] == MaxBy(xs, key).value;
    } else {
      MaxByFirst(init, key);
      var m := MaxBy(init, key).value;
      var i :| 0 <= i < |init| && init[i] == m && forall j :: 0 <= j < i ==> key(init[j]) < key(init[i]);
      if key(last) > key(m) {
        forall j | 0 <= j < |xs| - 1 ensures key(xs[j]) < key(last) {
          assert xs[j] == init[j];
        }
      } else {
        assert xs[i] == init[i];
        forall j | 0 <= j < i ensures key(xs[j]) < key(xs[i]) {
          assert xs[j] == init[j];
        }
      }
    }
  }

  predicate SortedBy<T>(s: seq<T>, key: T -> int)
  {
    forall i, j :: 0 <= i < j < |s| ==> key(s[i]) <= key(s[j])
  }

  /**
   * Taking the first k elements of a sorted permutation of `xs` takes the smallest: nothing of
   * `xs` left out has a smaller key than anything taken.
   */
  lemma SortedPrefixFirst<T>(xs: seq<T>, s: seq<T>, key: T -> int, k: int)
    requires SortedBy(s, key) && multiset(s) == multiset(xs) && 0 <= k <= |s|
    ensures forall y :: y in multiset(xs) - multiset(s[..k]) ==> forall i :: 0 <= i < k ==> key(s[..k][i]) <= key(y)
  {
    assert s == s[..k] + s[k..];
    assert multiset(xs) - multiset(s[..k]) == multiset(s[k..]) by {
      assert multiset(s) == multiset(s[..k]) + multiset(s[k..]);
    }
    forall y | y in multiset(s[k..]) ensures forall i :: 0 <= i < k ==> key(s[..k][i]) <= key(y) {
      var j :| 0 <= j < |s[k..]| && s[k..][j] == y;
      assert s[k + j] == y;
      forall i | 0 <= i < k ensures key(s[..k][i]) <= key(y) {
        assert s[..k][i] == s[i];
      }
    }
  }

  /** Puts `x` before the first element whose key is not smaller. */
  function InsertBy<T>(x: T, s: seq<T>, key: T -> int): (r: seq<T>)
    requires SortedBy(s, key)
    ensures SortedBy(r, key)
    decreases |s|, 0
  {
    if |s| == 0 then [x]
    else if key(x) <= key(s[0]) then [x] + s
    else
      var rest := InsertBy(x, s[1..], key);
      InsertByPermutes(x, s[1..], key);
      assert forall i :: 0 <= i < |s[1..]| ==> s[1..][i] == s[i + 1];
      BoundKeptByPermutation(rest, s[1..], x, key, key(s[0]));
      ConsSorted(s[0], rest, key);
      [s[0]] + rest
  }

  /** A lower bound on the keys of `s` and of `x` bounds every key of a permutation of them. */
  lemma BoundKeptByPermutation<T>(r: seq<T>, s: seq<T>, x: T, key: T -> int, b: int)
    requires multiset(r) == multiset(s) + multiset{x}
    requires key(x) >= b && forall i :: 0 <= i < |s| ==> key(s[i]) >= b
    ensures forall i :: 0 <= i < |r| ==> key(r[i]) >= b
  {
    forall i | 0 <= i < |r| ensures key(r[i]) >= b {
      assert r[i] in multiset(r);
      if r[i] != x {
        assert r[i] in multiset(s);
        var j :| 0 <= j < |s| && s[j] == r[i];
      }
    }
  }

  /** An element no greater than any of a sorted sequence can go in front of it. */
  lemma ConsSorted<T>(h: T, rest: seq<T>, key: T -> int)
    requires SortedBy(rest, key) && forall i :: 0 <= i < |rest| ==> key(h) <= key(rest[i])
    ensures SortedBy([h] + rest, key)
  {
    forall i, j | 0 <= i < j < |[h] + rest| ensures key(([h] + rest)[i]) <= key(([h] + rest)[j]) {
      if i > 0 {
        assert ([h] + rest)[i] == rest[i - 1];
      }
      assert ([h] + rest)[j] == rest[j - 1];
    }
  }

  /** Inserting adds `x` and keeps every other element. */
  lemma {:induction false} InsertByPermutes<T>(x: T, s: seq<T>, key: T -> int)
    requires SortedBy(s, key)
    ensures multiset(InsertBy(x, s, key)) == multiset(s) + multiset{x}
    decreases |s|, 1
  {
    if |s| > 0 && key(x) > key(s[0]) {
      InsertByPermutes(x, s[1..], key);
      assert s == [s[0]] + s[1..];
    }
  }

  /** Kotlin's `sortedBy`: ascending by key, equal keys keeping their order (a stable sort). */
  function SortBy<T>(xs: seq<T>, key: T -> int): seq<T>
    decreases |xs|, 0
  {
    if |xs| == 0 then []
    else
      SortBySorted(xs[1..], key);
      InsertBy(xs[0], SortBy(xs[1..], key), key)
  }

  /** The result of sorting is in ascending order of the key. */
  lemma {:induction false} SortBySorted<T>(xs: seq<T>, key: T -> int)
    ensures SortedBy(SortBy(xs, key), key)
    decreases |xs|, 1
  {
    if |xs| > 0 {
      SortBySorted(xs[1..], key);
    }
  }

  /** Sorting keeps every element, as often as it occurs. */
  lemma {:induction false} SortByPermutes<T>(xs: seq<T>, key: T -> int)
    ensures multiset(SortBy(xs, key)) == multiset(xs)
  {
    if |xs| > 0 {
      SortByPermutes(xs[1..], key);
      InsertByPermutes(xs[0], SortBy(xs[1..], key), key);
      assert xs == [xs[0]] + xs[1..];
    }
  }

  /** The test for one key value. */
  function HasKey<T>(key: T -> int, k: int): T -> bool
  {
    (y: T) => key(y) == k
  }

  /** Inserting puts `x` in front of every element with its key, and moves no other element of a key. */
  lemma {:induction false} InsertByKeepsKeyOrder<T>(x: T, s: seq<T>, key: T -> int, k: int)
    requires SortedBy(s, key)
    ensures Filter(InsertBy(x, s, key), HasKey(key, k))
            == (if key(x) == k then [x] + Filter(s, HasKey(key, k)) else Filter(s, HasKey(key, k)))
    decreases |s|
  {
    var p := HasKey(key, k);
    if |s| == 0 {
      assert [x][1..] == [];
    } else if key(x) <= key(s[0]) {
      assert ([x] + s)[1..] == s;
    } else {
      InsertByKeepsKeyOrder(x, s[1..], key, k);
      var rest := InsertBy(x, s[1..], key);
      assert ([s[0]] + rest)[1..] == rest;
    }
  }

  /** `sortedBy` is stable: for every key, the elements with that key keep their order. */
  lemma {:induction false} SortByStable<T>(xs: seq<T>, key: T -> int, k: int)
    ensures Filter(SortBy(xs, key), HasKey(key, k)) == Filter(xs, HasKey(key, k))
  {
    if |xs| > 0 {
      SortByStable(xs[1..], key, k);
      SortBySorted(xs[1..], key);
      InsertByKeepsKeyOrder(xs[0], SortBy(xs[1..], key), key, k);
    }
  }
}

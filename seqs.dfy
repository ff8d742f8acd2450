/** Sequence operations the views are built from (`Array.prototype.filter`) and the facts about them. */
module Seqs {
  import opened Wrappers

  /** `s.filter(p)`: the elements satisfying `p`, in their original order. */
  function Filter<T(!new)>(s: seq<T>, p: T -> bool): (r: seq<T>)
    ensures |r| <= |s|
    ensures forall x :: x in r <==> x in s && p(x)
    decreases |s|
  {
    if s == [] then [] else (if p(s[0]) then [s[0]] else []) + Filter(s[1..], p)
  }

  lemma {:induction false} FilterConcat<T(!new)>(a: seq<T>, b: seq<T>, p: T -> bool)
    ensures Filter(a + b, p) == Filter(a, p) + Filter(b, p)
    decreases |a|
  {
    if a == [] {
      assert a + b == b;
    } else {
      var ab := a + b;
      assert ab[0] == a[0] && ab[1..] == a[1..] + b;
      FilterConcat(a[1..], b, p);
      var h := if p(a[0]) then [a[0]] else [];
      calc {
        Filter(ab, p);
        h + Filter(a[1..] + b, p);
        h + (Filter(a[1..], p) + Filter(b, p));
        (h + Filter(a[1..], p)) + Filter(b, p);
      }
    }
  }

  /** Filtering with `p` and with its negation splits `s` into two parts that together hold all of `s`. */
  lemma FilterPartition<T(!new)>(s: seq<T>, p: T -> bool, q: T -> bool)
    requires forall x :: q(x) == !p(x)
    ensures multiset(Filter(s, p)) + multiset(Filter(s, q)) == multiset(s)
    ensures |Filter(s, p)| + |Filter(s, q)| == |s|
    ensures forall x :: !(x in Filter(s, p) && x in Filter(s, q))
  {
    FilterSplit(s, p, q);
    assert |multiset(Filter(s, p))| + |multiset(Filter(s, q))| == |multiset(s)|;
  }

  lemma {:induction false} FilterSplit<T(!new)>(s: seq<T>, p: T -> bool, q: T -> bool)
    requires forall x :: q(x) == !p(x)
    ensures multiset(Filter(s, p)) + multiset(Filter(s, q)) == multiset(s)
    decreases |s|
  {
    if s != [] {
      var h, t := [s[0]], s[1..];
      FilterSplit(t, p, q);
      assert s == h + t;
      assert multiset(s) == multiset(h) + multiset(t);
      if p(s[0]) {
        assert Filter(s, p) == h + Filter(t, p) && Filter(s, q) == Filter(t, q);
        assert multiset(Filter(s, p)) == multiset(h) + multiset(Filter(t, p));
      } else {
        assert Filter(s, p) == Filter(t, p) && Filter(s, q) == h + Filter(t, q);
        assert multiset(Filter(s, q)) == multiset(h) + multiset(Filter(t, q));
      }
    }
  }

  /** Filtering twice with predicates that exclude each other leaves nothing. */
  lemma {:induction false} FilterNeverBoth<T(!new)>(s: seq<T>, p: T -> bool, q: T -> bool)
    requires forall x :: q(x) ==> !p(x)
    ensures Filter(Filter(s, p), q) == []
  {
    var f := Filter(s, p);
    FilterNone(f, q);
  }

  /** Filtering keeps nothing when no element qualifies. */
  lemma {:induction false} FilterNone<T(!new)>(s: seq<T>, p: T -> bool)
    requires forall x :: x in s ==> !p(x)
    ensures Filter(s, p) == []
    decreases |s|
  {
    if s != [] {
      assert s[0] in s;
      forall x | x in s[1..] ensures !p(x) { assert x in s; }
      FilterNone(s[1..], p);
    }
  }

  /** `r` is `s` with some elements left out, the rest in their original order. */
  predicate IsSubsequence<T(==)>(r: seq<T>, s: seq<T>)
    decreases |s|
  {
    if r == [] then true
    else if s == [] then false
    else (r[0] == s[0] && IsSubsequence(r[1..], s[1..])) || IsSubsequence(r, s[1..])
  }

  lemma {:induction false} FilterIsSubsequence<T(!new)>(s: seq<T>, p: T -> bool)
    ensures IsSubsequence(Filter(s, p), s)
    decreases |s|
  {
    if s != [] {
      FilterIsSubsequence(s[1..], p);
      var r := Filter(s, p);
      if p(s[0]) {
        assert r[0] == s[0] && r[1..] == Filter(s[1..], p);
      } else {
        assert r == Filter(s[1..], p);
      }
    }
  }

  /** An ordering relation, such as the one `localeCompare` induces: total and transitive. Ties are allowed. */
  ghost predicate TotalPreorder(le: (string, string) -> bool) {
    && (forall a, b :: le(a, b) || le(b, a))
    && (forall a, b, c :: le(a, b) && le(b, c) ==> le(a, c))
  }

  /** `s` is ordered by `le` on the keys of its elements. */
  predicate SortedBy<T>(s: seq<T>, key: T -> string, le: (string, string) -> bool) {
    forall i, j :: 0 <= i < j < |s| ==> le(key(s[i]), key(s[j]))
  }

  /** Leaving elements out keeps a sorted sequence sorted. */
  lemma {:induction false} SubsequenceSorted<T>(r: seq<T>, s: seq<T>, key: T -> string, le: (string, string) -> bool)
    requires IsSubsequence(r, s) && SortedBy(s, key, le)
    ensures SortedBy(r, key, le)
    decreases |s|
  {
    if r != [] {
      assert s != [];
      assert SortedBy(s[1..], key, le) by {
        forall i, j | 0 <= i < j < |s[1..]| ensures le(key(s[1..][i]), key(s[1..][j])) {
          assert s[1..][i] == s[i + 1] && s[1..][j] == s[j + 1];
        }
      }
      if r[0] == s[0] && IsSubsequence(r[1..], s[1..]) {
        SubsequenceSorted(r[1..], s[1..], key, le);
        SubsequenceMembers(r[1..], s[1..]);
        forall i, j | 0 <= i < j < |r| ensures le(key(r[i]), key(r[j])) {
          if i == 0 {
            assert r[j] == r[1..][j - 1] && r[1..][j - 1] in r[1..];
            var k :| 0 <= k < |s[1..]| && s[1..][k] == r[1..][j - 1];
            assert s[k + 1] == r[j];
          } else {
            assert r[i] == r[1..][i - 1] && r[j] == r[1..][j - 1];
          }
        }
      } else {
        SubsequenceSorted(r, s[1..], key, le);
      }
    }
  }

  lemma {:induction false} SubsequenceMembers<T>(r: seq<T>, s: seq<T>)
    requires IsSubsequence(r, s)
    ensures forall x :: x in r ==> x in s
    decreases |s|
  {
    if r != [] {
      if r[0] == s[0] && IsSubsequence(r[1..], s[1..]) {
        SubsequenceMembers(r[1..], s[1..]);
        assert r == [r[0]] + r[1..];
      } else {
        SubsequenceMembers(r, s[1..]);
      }
    }
  }

  lemma FilterSorted<T(!new)>(s: seq<T>, p: T -> bool, key: T -> string, le: (string, string) -> bool)
    requires SortedBy(s, key, le)
    ensures SortedBy(Filter(s, p), key, le)
  {
    FilterIsSubsequence(s, p);
    SubsequenceSorted(Filter(s, p), s, key, le);
  }

  /** No element occurs twice. */
  predicate NoDuplicates<T(==)>(s: seq<T>) {
    forall i, j :: 0 <= i < j < |s| ==> s[i] != s[j]
  }

  /** Filtering keeps everything when every element qualifies. */
  lemma {:induction false} FilterAll<T(!new)>(s: seq<T>, p: T -> bool)
    requires forall x :: x in s ==> p(x)
    ensures Filter(s, p) == s
    decreases |s|
  {
    if s != [] {
      assert s[0] in s;
      forall x | x in s[1..] ensures p(x) { assert x in s; }
      FilterAll(s[1..], p);
      assert s == [s[0]] + s[1..];
    }
  }

  /** The position of the first element satisfying `p` (`s.find(p)` / `s.findIndex(p)`), if any. */
  function FirstIndex<T>(s: seq<T>, p: T -> bool): (r: Option<nat>)
    ensures r.Some? ==> r.value < |s| && p(s[r.value])
    ensures r.Some? ==> forall j :: 0 <= j < r.value ==> !p(s[j])
    ensures r.None? ==> forall j :: 0 <= j < |s| ==> !p(s[j])
    decreases |s|
  {
    if s == [] then None
    else if p(s[0]) then Some(0)
    else match FirstIndex(s[1..], p)
      case None => None
      case Some(k) => Some(k + 1)
  }

  // ---------------------------------------------------------------------------------------------
  // Grouping into buckets by a string key, as a loop pushing onto `map.get(key) ?? []` does

  /** The elements whose key is `k`. */
  function KeyIs<T>(key: T -> string, k: string): T -> bool {
    (x: T) => key(x) == k
  }

  /** `m.get(k) ?? []` */
  function Bucket<T>(m: map<string, seq<T>>, k: string): seq<T> {
    if k in m then m[k] else []
  }

  /** Each element in turn pushed onto the end of its key's bucket. */
  function GroupBy<T>(s: seq<T>, key: T -> string): map<string, seq<T>>
    decreases |s|
  {
    if s == [] then map[]
    else
      var g, x := GroupBy(s[..|s| - 1], key), s[|s| - 1];
      g[key(x) := Bucket(g, key(x)) + [x]]
  }

  ghost function KeysOf<T>(s: seq<T>, key: T -> string): set<string> {
    set x | x in s :: key(x)
  }

  /** Grouping loses, duplicates and reorders nothing: each bucket holds exactly the elements with its key,
      in their original order, and a key no element has reads as an empty bucket. */
  lemma {:induction false} BucketIsFilter<T(!new)>(s: seq<T>, key: T -> string, k: string)
    ensures Bucket(GroupBy(s, key), k) == Filter(s, KeyIs(key, k))
    decreases |s|
  {
    if s != [] {
      var init, x := s[..|s| - 1], s[|s| - 1];
      assert s == init + [x];
      BucketIsFilter(init, key, k);
      FilterConcat(init, [x], KeyIs(key, k));
      assert [x][1..] == [];
    }
  }

  /** Every bucket of the grouping, as a filter of the input. */
  lemma GroupByBuckets<T(!new)>(s: seq<T>, key: T -> string)
    ensures forall k :: k in GroupBy(s, key) ==> GroupBy(s, key)[k] == Filter(s, KeyIs(key, k))
  {
    forall k | k in GroupBy(s, key) ensures GroupBy(s, key)[k] == Filter(s, KeyIs(key, k)) {
      BucketIsFilter(s, key, k);
    }
  }

  /** There is a bucket exactly for the keys that occur. */
  lemma {:induction false} GroupByKeys<T>(s: seq<T>, key: T -> string)
    ensures GroupBy(s, key).Keys == KeysOf(s, key)
    decreases |s|
  {
    if s != [] {
      var init, x := s[..|s| - 1], s[|s| - 1];
      assert s == init + [x];
      GroupByKeys(init, key);
      assert KeysOf(s, key) == KeysOf(init, key) + {key(x)} by {
        assert x in s;
        forall y | y in s ensures y in init || y == x { }
        forall y | y in init ensures y in s { }
      }
    }
  }

  /** The total size of the buckets of the keys listed. */
  function BucketSizes<T(!new)>(s: seq<T>, key: T -> string, keys: seq<string>): nat
    decreases |keys|
  {
    if keys == [] then 0 else |Filter(s, KeyIs(key, keys[0]))| + BucketSizes(s, key, keys[1..])
  }

  function Occurrences<T(==)>(xs: seq<T>, x: T): nat
    decreases |xs|
  {
    if xs == [] then 0 else (if xs[0] == x then 1 else 0) + Occurrences(xs[1..], x)
  }

  lemma {:induction false} OccursOnce<T>(xs: seq<T>, x: T)
    requires NoDuplicates(xs) && x in xs
    ensures Occurrences(xs, x) == 1
    decreases |xs|
  {
    if xs[0] == x {
      OccursNever(xs[1..], x);
    } else {
      OccursOnce(xs[1..], x);
    }
  }

  lemma {:induction false} OccursNever<T>(xs: seq<T>, x: T)
    requires x !in xs
    ensures Occurrences(xs, x) == 0
    decreases |xs|
  {
    if xs != [] { OccursNever(xs[1..], x); }
  }

  lemma {:induction false} BucketSizesStep<T(!new)>(x: T, rest: seq<T>, key: T -> string, keys: seq<string>)
    ensures BucketSizes([x] + rest, key, keys) == Occurrences(keys, key(x)) + BucketSizes(rest, key, keys)
    decreases |keys|
  {
    if keys != [] {
      assert ([x] + rest)[1..] == rest;
      BucketSizesStep(x, rest, key, keys[1..]);
    }
  }

  lemma {:induction false} EmptyBuckets<T(!new)>(key: T -> string, keys: seq<string>)
    ensures BucketSizes([], key, keys) == 0
    decreases |keys|
  {
    if keys != [] { EmptyBuckets(key, keys[1..]); }
  }

  /** The buckets of distinct keys that cover every element hold as many elements as there are. */
  lemma {:induction false} BucketSizesSum<T(!new)>(s: seq<T>, key: T -> string, keys: seq<string>)
    requires NoDuplicates(keys)
    requires forall x :: x in s ==> key(x) in keys
    ensures BucketSizes(s, key, keys) == |s|
    decreases |s|
  {
    if s == [] {
      EmptyBuckets(key, keys);
    } else {
      assert s == [s[0]] + s[1..];
      BucketSizesStep(s[0], s[1..], key, keys);
      OccursOnce(keys, key(s[0]));
      BucketSizesSum(s[1..], key, keys);
    }
  }

  /** Reading every bucket once, in any order, gives back as many elements as were grouped. */
  lemma GroupingKeepsEveryElement<T(!new)>(s: seq<T>, key: T -> string, keys: seq<string>)
    requires NoDuplicates(keys)
    requires forall k :: k in keys <==> k in GroupBy(s, key)
    ensures BucketSizes(s, key, keys) == |s|
  {
    GroupByKeys(s, key);
    BucketSizesSum(s, key, keys);
  }
}

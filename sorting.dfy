/**
 * `Array.prototype.sort` with a comparator on one string key, as the workbenches call it:
 * `xs.sort((a, b) => key(a).localeCompare(key(b)))`. The collation is an abstract total preorder.
 */
module Sorting {
  import opened Seqs

  /** The first `n` elements of `s` are in order. */
  ghost predicate SortedPrefix<T>(s: seq<T>, n: nat, key: T -> string, le: (string, string) -> bool)
    requires n <= |s|
  {
    forall p, q :: 0 <= p < q < n ==> le(key(s[p]), key(s[q]))
  }

  /** `s[..n+1]` is in order once the element at `j` is left out, and that element is below everything after it. */
  ghost predicate Inserting<T>(s: seq<T>, n: nat, j: nat, key: T -> string, le: (string, string) -> bool)
    requires j <= n < |s|
  {
    && (forall p, q :: 0 <= p < q <= n && p != j && q != j ==> le(key(s[p]), key(s[q])))
    && (forall q :: j < q <= n ==> le(key(s[j]), key(s[q])))
  }

  lemma StartInserting<T>(s: seq<T>, n: nat, key: T -> string, le: (string, string) -> bool)
    requires n < |s| && SortedPrefix(s, n, key, le)
    ensures Inserting(s, n, n, key, le)
  {
  }

  /** Swapping the inserted element with a strictly greater left neighbour keeps the invariant. */
  lemma SwapStep<T>(s: seq<T>, n: nat, j: nat, key: T -> string, le: (string, string) -> bool)
    requires TotalPreorder(le)
    requires 0 < j <= n < |s| && Inserting(s, n, j, key, le)
    requires !le(key(s[j - 1]), key(s[j]))
    ensures Inserting(s[j - 1 := s[j]][j := s[j - 1]], n, j - 1, key, le)
  {
    var t := s[j - 1 := s[j]][j := s[j - 1]];
    assert le(key(s[j]), key(s[j - 1]));
    forall p, q | 0 <= p < q <= n && p != j - 1 && q != j - 1 ensures le(key(t[p]), key(t[q])) {
      if p == j {
        assert t[p] == s[j - 1] && t[q] == s[q];
      } else if q == j {
        assert t[q] == s[j - 1] && t[p] == s[p];
      } else {
        assert t[p] == s[p] && t[q] == s[q];
      }
    }
    forall q | j - 1 < q <= n ensures le(key(t[j - 1]), key(t[q])) {
      if q > j { assert t[q] == s[q]; }
    }
  }

  /** Once the left neighbour is not greater, the first `n + 1` elements are in order. */
  lemma FinishInserting<T>(s: seq<T>, n: nat, j: nat, key: T -> string, le: (string, string) -> bool)
    requires TotalPreorder(le)
    requires j <= n < |s| && Inserting(s, n, j, key, le)
    requires j == 0 || le(key(s[j - 1]), key(s[j]))
    ensures SortedPrefix(s, n + 1, key, le)
  {
    forall p, q | 0 <= p < q <= n ensures le(key(s[p]), key(s[q])) {
      if q == j && p < j - 1 {
        assert le(key(s[p]), key(s[j - 1]));
      }
    }
  }

  /** Sorts `a` in place by `le` on `key`; an element moves left only past strictly greater keys. */
  method SortBy<T>(a: array<T>, key: T -> string, le: (string, string) -> bool)
    requires TotalPreorder(le)
    modifies a
    ensures SortedBy(a[..], key, le)
    ensures multiset(a[..]) == old(multiset(a[..]))
  {
    var i := 0;
    while i < a.Length
      invariant 0 <= i <= a.Length
      invariant SortedPrefix(a[..], i, key, le)
      invariant multiset(a[..]) == old(multiset(a[..]))
    {
      StartInserting(a[..], i, key, le);
      var j := i;
      while j > 0 && !le(key(a[j - 1]), key(a[j]))
        invariant 0 <= j <= i
        invariant Inserting(a[..], i, j, key, le)
        invariant multiset(a[..]) == old(multiset(a[..]))
      {
        SwapStep(a[..], i, j, key, le);
        a[j - 1], a[j] := a[j], a[j - 1];
        j := j - 1;
      }
      FinishInserting(a[..], i, j, key, le);
      i := i + 1;
    }
  }

  /** `[...s].sort(...)` on a list held by value: the list's elements, ordered by `le` on `key`. */
  method SortedCopy<T>(s: seq<T>, key: T -> string, le: (string, string) -> bool) returns (r: seq<T>)
    requires TotalPreorder(le)
    ensures SortedBy(r, key, le)
    ensures multiset(r) == multiset(s) && |r| == |s|
  {
    var a := new T[|s|](k requires 0 <= k < |s| => s[k]);
    assert a[..] == s;
    SortBy(a, key, le);
    r := a[..];
    assert |multiset(r)| == |multiset(s)|;
  }
}

/**
 * Sequences of texts (log lines, ticket identifiers): subsequences, and
 * stable first-seen deduplication, computed as an ordered sequence paired
 * with the set of values already emitted, consulted before each insertion.
 * Texts compare by exact string equality.
 */
module Sequences {

  predicate NoDuplicates(xs: seq<string>) {
    forall i, j :: 0 <= i < j < |xs| ==> xs[i] != xs[j]
  }

  function Elems(xs: seq<string>): set<string> {
    set x | x in xs
  }

  /** xs is obtained from ys by deleting elements, keeping the order of the rest. */
  predicate IsSubsequence(xs: seq<string>, ys: seq<string>)
    decreases |ys|
  {
    if xs == [] then true
    else if ys == [] then false
    else if xs[0] == ys[0] then IsSubsequence(xs[1..], ys[1..])
    else IsSubsequence(xs, ys[1..])
  }

  lemma {:induction false} SubsequenceTransitive(xs: seq<string>, ys: seq<string>, zs: seq<string>)
    requires IsSubsequence(xs, ys) && IsSubsequence(ys, zs)
    ensures IsSubsequence(xs, zs)
    decreases |zs|
  {
    if xs != [] {
      assert ys != [] && zs != [];
      assert [zs[0]] + zs[1..] == zs;
      if ys[0] == zs[0] {
        if xs[0] == ys[0] {
          SubsequenceTransitive(xs[1..], ys[1..], zs[1..]);
        } else {
          SubsequenceTransitive(xs, ys[1..], zs[1..]);
          SubsequenceOfTail(xs, zs[0], zs[1..]);
        }
      } else {
        SubsequenceTransitive(xs, ys, zs[1..]);
        SubsequenceOfTail(xs, zs[0], zs[1..]);
      }
    }
  }

  lemma {:induction false} SubsequenceReflexive(xs: seq<string>)
    ensures IsSubsequence(xs, xs)
  {
    if xs != [] {
      SubsequenceReflexive(xs[1..]);
    }
  }

  /** The position of the first occurrence of x in xs. */
  function FirstIndex(xs: seq<string>, x: string): (k: nat)
    requires x in xs
    ensures k < |xs| && xs[k] == x && x !in xs[..k]
  {
    if xs[0] == x then 0 else 1 + FirstIndex(xs[1..], x)
  }

  /** The elements of xs not in seen, each at its first occurrence. */
  function DedupAfter(xs: seq<string>, seen: set<string>): (r: seq<string>)
    ensures forall x :: x in r <==> x in xs && x !in seen
    ensures NoDuplicates(r)
  {
    if xs == [] then []
    else if xs[0] in seen then DedupAfter(xs[1..], seen)
    else [xs[0]] + DedupAfter(xs[1..], seen + {xs[0]})
  }

  /** The distinct elements of xs in the order they are first seen. */
  function Dedup(xs: seq<string>): (r: seq<string>)
    ensures NoDuplicates(r)
    ensures forall x :: x in r <==> x in xs
  {
    DedupAfter(xs, {})
  }

  lemma {:induction false} SubsequenceOfTail(xs: seq<string>, y: string, ys: seq<string>)
    requires IsSubsequence(xs, ys)
    ensures IsSubsequence(xs, [y] + ys)
    decreases |ys|, 1
  {
    assert ([y] + ys)[1..] == ys;
    if xs != [] && xs[0] == y {
      SubsequenceDropFirst(xs, ys);
    }
  }

  lemma {:induction false} SubsequenceDropFirst(xs: seq<string>, ys: seq<string>)
    requires xs != [] && IsSubsequence(xs, ys)
    ensures IsSubsequence(xs[1..], ys)
    decreases |ys|, 0
  {
    assert ys != [];
    assert [ys[0]] + ys[1..] == ys;
    if xs[0] != ys[0] {
      SubsequenceDropFirst(xs, ys[1..]);
    }
    if xs[1..] != [] {
      SubsequenceOfTail(xs[1..], ys[0], ys[1..]);
    }
  }

  /** The deduplicated sequence keeps the input's order. */
  lemma {:induction false} DedupAfterIsSubsequence(xs: seq<string>, seen: set<string>)
    ensures IsSubsequence(DedupAfter(xs, seen), xs)
  {
    if xs != [] {
      DedupAfterIsSubsequence(xs[1..], seen + {xs[0]});
      DedupAfterIsSubsequence(xs[1..], seen);
      if xs[0] in seen {
        SubsequenceOfTail(DedupAfter(xs[1..], seen), xs[0], xs[1..]);
        assert [xs[0]] + xs[1..] == xs;
      } else {
        var r := DedupAfter(xs, seen);
        assert r[0] == xs[0] && r[1..] == DedupAfter(xs[1..], seen + {xs[0]});
      }
    }
  }

  /** An element comes before another in the output exactly as its first occurrence does in the input. */
  lemma {:induction false} DedupAfterFirstSeenOrder(xs: seq<string>, seen: set<string>)
    ensures forall a, b :: 0 <= a < b < |DedupAfter(xs, seen)| ==>
      FirstIndex(xs, DedupAfter(xs, seen)[a]) < FirstIndex(xs, DedupAfter(xs, seen)[b])
  {
    if xs != [] {
      var r := DedupAfter(xs, seen);
      if xs[0] in seen {
        var r' := DedupAfter(xs[1..], seen);
        DedupAfterFirstSeenOrder(xs[1..], seen);
        forall a | 0 <= a < |r| ensures FirstIndex(xs, r[a]) == 1 + FirstIndex(xs[1..], r[a]) {
          assert r[a] in r';
        }
      } else {
        var r' := DedupAfter(xs[1..], seen + {xs[0]});
        assert r == [xs[0]] + r';
        DedupAfterFirstSeenOrder(xs[1..], seen + {xs[0]});
        forall a | 0 < a < |r| ensures FirstIndex(xs, r[a]) == 1 + FirstIndex(xs[1..], r[a]) {
          assert r[a] == r'[a - 1] && r'[a - 1] in r';
        }
      }
    }
  }

  lemma DedupFirstSeenOrder(xs: seq<string>)
    ensures IsSubsequence(Dedup(xs), xs)
    ensures forall a, b :: 0 <= a < b < |Dedup(xs)| ==> FirstIndex(xs, Dedup(xs)[a]) < FirstIndex(xs, Dedup(xs)[b])
  {
    DedupAfterIsSubsequence(xs, {});
    DedupAfterFirstSeenOrder(xs, {});
  }

  /** Input already free of duplicates and of seen values passes unchanged. */
  lemma {:induction false} DedupAfterOfDistinct(xs: seq<string>, seen: set<string>)
    requires NoDuplicates(xs)
    requires forall x :: x in xs ==> x !in seen
    ensures DedupAfter(xs, seen) == xs
  {
    if xs != [] {
      assert NoDuplicates(xs[1..]) by {
        forall i, j | 0 <= i < j < |xs[1..]| ensures xs[1..][i] != xs[1..][j] {
          assert xs[1..][i] == xs[i + 1] && xs[1..][j] == xs[j + 1];
        }
      }
      forall x | x in xs[1..] ensures x !in seen + {xs[0]} {
        var k :| 0 <= k < |xs[1..]| && xs[1..][k] == x;
        assert xs[k + 1] == x;
      }
      DedupAfterOfDistinct(xs[1..], seen + {xs[0]});
      assert [xs[0]] + xs[1..] == xs;
    }
  }

  /** Deduplicating input without duplicates changes nothing. */
  lemma DedupOfDistinct(xs: seq<string>)
    requires NoDuplicates(xs)
    ensures Dedup(xs) == xs
  {
    DedupAfterOfDistinct(xs, {});
  }

  /** Deduplication is idempotent. */
  lemma DedupIdempotent(xs: seq<string>)
    ensures Dedup(Dedup(xs)) == Dedup(xs)
  {
    DedupOfDistinct(Dedup(xs));
  }

  /** What a later part adds comes after everything an earlier part gave, minus what it already gave. */
  lemma {:induction false} DedupAfterAppend(xs: seq<string>, ys: seq<string>, seen: set<string>)
    ensures DedupAfter(xs + ys, seen) == DedupAfter(xs, seen) + DedupAfter(ys, seen + Elems(xs))
  {
    if xs == [] {
      assert xs + ys == ys;
      assert Elems(xs) == {};
      assert seen + Elems(xs) == seen;
    } else {
      assert (xs + ys)[0] == xs[0] && (xs + ys)[1..] == xs[1..] + ys;
      assert Elems(xs) == {xs[0]} + Elems(xs[1..]);
      if xs[0] in seen {
        DedupAfterAppend(xs[1..], ys, seen);
        assert seen + Elems(xs[1..]) == seen + Elems(xs);
      } else {
        DedupAfterAppend(xs[1..], ys, seen + {xs[0]});
        assert seen + {xs[0]} + Elems(xs[1..]) == seen + Elems(xs);
      }
    }
  }

  // ---------------------------------------------------------------------
  // Filtering
  // ---------------------------------------------------------------------

  /** The elements of xs that satisfy f, in their order in xs, with their repetitions. */
  function Filter(xs: seq<string>, f: string -> bool): seq<string>
  {
    if xs == [] then [] else (if f(xs[0]) then [xs[0]] else []) + Filter(xs[1..], f)
  }

  lemma FilterSingleton(x: string, f: string -> bool)
    ensures Filter([x], f) == if f(x) then [x] else []
  {
    assert [x][1..] == [];
  }

  /** An element is kept exactly when it is in xs and satisfies f. */
  lemma {:induction false} FilterMembers(xs: seq<string>, f: string -> bool)
    ensures forall x :: x in Filter(xs, f) <==> x in xs && f(x)
  {
    if xs != [] {
      FilterMembers(xs[1..], f);
      assert xs == [xs[0]] + xs[1..];
    }
  }

  lemma {:induction false} FilterAppend(xs: seq<string>, ys: seq<string>, f: string -> bool)
    ensures Filter(xs + ys, f) == Filter(xs, f) + Filter(ys, f)
  {
    if xs == [] {
      assert xs + ys == ys;
    } else {
      assert (xs + ys)[0] == xs[0] && (xs + ys)[1..] == xs[1..] + ys;
      FilterAppend(xs[1..], ys, f);
    }
  }

  lemma {:induction false} FilterIsSubsequence(xs: seq<string>, f: string -> bool)
    ensures IsSubsequence(Filter(xs, f), xs)
  {
    if xs != [] {
      var rest := Filter(xs[1..], f);
      FilterIsSubsequence(xs[1..], f);
      if f(xs[0]) {
        assert Filter(xs, f) == [xs[0]] + rest;
        assert ([xs[0]] + rest)[1..] == rest;
      } else {
        assert Filter(xs, f) == rest;
        SubsequenceOfTail(rest, xs[0], xs[1..]);
        assert [xs[0]] + xs[1..] == xs;
      }
    }
  }

  /** An element that satisfies f keeps every one of its occurrences; the others keep none. */
  lemma {:induction false} FilterCount(xs: seq<string>, f: string -> bool, x: string)
    ensures multiset(Filter(xs, f))[x] == if f(x) then multiset(xs)[x] else 0
  {
    if xs != [] {
      var rest := Filter(xs[1..], f);
      FilterCount(xs[1..], f, x);
      assert xs == [xs[0]] + xs[1..];
      assert multiset(xs) == multiset([xs[0]]) + multiset(xs[1..]);
      if f(xs[0]) {
        assert multiset(Filter(xs, f)) == multiset([xs[0]]) + multiset(rest);
      }
    }
  }

  /** Filtering by f and by its negation splits xs. */
  lemma {:induction false} FilterPartition(xs: seq<string>, f: string -> bool, g: string -> bool)
    requires forall x :: g(x) == !f(x)
    ensures multiset(Filter(xs, f)) + multiset(Filter(xs, g)) == multiset(xs)
  {
    if xs != [] {
      var yes := Filter(xs[1..], f);
      var no := Filter(xs[1..], g);
      FilterPartition(xs[1..], f, g);
      assert xs == [xs[0]] + xs[1..];
      assert multiset(xs) == multiset([xs[0]]) + multiset(xs[1..]);
      if f(xs[0]) {
        assert multiset(Filter(xs, f)) == multiset([xs[0]]) + multiset(yes);
      } else {
        assert multiset(Filter(xs, g)) == multiset([xs[0]]) + multiset(no);
      }
    }
  }

  lemma {:induction false} FilterIdempotent(xs: seq<string>, f: string -> bool)
    ensures Filter(Filter(xs, f), f) == Filter(xs, f)
  {
    if xs != [] {
      var rest := Filter(xs[1..], f);
      FilterIdempotent(xs[1..], f);
      if f(xs[0]) {
        var r := [xs[0]] + rest;
        assert Filter(xs, f) == r;
        assert r[0] == xs[0] && r[1..] == rest;
        assert Filter(r, f) == [xs[0]] + Filter(rest, f);
      } else {
        assert Filter(xs, f) == rest;
      }
    }
  }

  /** When every element satisfies f, nothing is removed. */
  lemma {:induction false} FilterAll(xs: seq<string>, f: string -> bool)
    requires forall x :: x in xs ==> f(x)
    ensures Filter(xs, f) == xs
  {
    if xs != [] {
      FilterAll(xs[1..], f);
      assert [xs[0]] + xs[1..] == xs;
    }
  }
}

/** Python list behaviour the web modules rely on: filtering by a test,
    dropping later duplicates, `list.reverse()` and the stable
    `list.sort(key=...)`. Each is a function on values with the lemmas that
    say what it means; the program's in-place versions live next to their
    callers. */
module Sequences {

  /** No value occurs twice. */
  ghost predicate NoDup<T>(s: seq<T>)
  {
    forall i, j :: 0 <= i < j < |s| ==> s[i] != s[j]
  }

  /** In a list without duplicates every value occurs once or not at all. */
  lemma {:induction false} NoDupCount<T>(s: seq<T>, x: T)
    requires NoDup(s)
    ensures multiset(s)[x] == if x in s then 1 else 0
  {
    if s != [] {
      var s' := s[..|s| - 1];
      NoDupCount(s', x);
      assert s == s' + [s[|s| - 1]];
      assert s[|s| - 1] !in s' by {
        forall k | 0 <= k < |s'| ensures s'[k] != s[|s| - 1] { assert s[k] == s'[k]; }
      }
    }
  }

  /** Two duplicate-free lists with the same values hold them with the same
      multiplicities: they are permutations of each other. */
  lemma SameValuesNoDupPermutation<T>(a: seq<T>, b: seq<T>)
    requires NoDup(a) && NoDup(b)
    requires forall x :: x in a <==> x in b
    ensures multiset(a) == multiset(b)
  {
    forall x ensures multiset(a)[x] == multiset(b)[x] {
      NoDupCount(a, x);
      NoDupCount(b, x);
    }
  }

  /** `r` is `s` with some elements deleted and the rest kept in order. */
  ghost predicate IsSubsequence<T>(r: seq<T>, s: seq<T>)
    decreases |s|
  {
    if r == [] then true
    else if s == [] then false
    else if r[|r| - 1] == s[|s| - 1] then IsSubsequence(r[..|r| - 1], s[..|s| - 1])
    else IsSubsequence(r, s[..|s| - 1])
  }

  lemma {:induction false} SubsequenceShorter<T>(r: seq<T>, s: seq<T>)
    requires IsSubsequence(r, s)
    ensures |r| <= |s|
    ensures forall x :: x in r ==> x in s
    decreases |s|
  {
    if r != [] {
      var s' := s[..|s| - 1];
      if r[|r| - 1] == s[|s| - 1] {
        SubsequenceShorter(r[..|r| - 1], s');
        forall x | x in r ensures x in s {
          if x != r[|r| - 1] { assert x in r[..|r| - 1]; assert x in s'; }
        }
      } else {
        SubsequenceShorter(r, s');
      }
    }
  }

  lemma {:induction false} SubsequenceExtend<T>(r: seq<T>, s: seq<T>, x: T)
    requires IsSubsequence(r, s)
    ensures IsSubsequence(r, s + [x])
    decreases |s|, 1
  {
    assert (s + [x])[..|s|] == s;
    if r != [] && r[|r| - 1] == x {
      SubsequenceDropLast(r, s);
    }
  }

  lemma {:induction false} SubsequenceDropLast<T>(r: seq<T>, s: seq<T>)
    requires r != [] && IsSubsequence(r, s)
    ensures IsSubsequence(r[..|r| - 1], s)
    decreases |s|, 0
  {
    var s' := s[..|s| - 1];
    if r[|r| - 1] == s[|s| - 1] {
      SubsequenceExtend(r[..|r| - 1], s', s[|s| - 1]);
      assert s' + [s[|s| - 1]] == s;
    } else {
      SubsequenceDropLast(r, s');
      SubsequenceExtend(r[..|r| - 1], s', s[|s| - 1]);
      assert s' + [s[|s| - 1]] == s;
    }
  }

  /** Every sequence is a subsequence of itself. */
  lemma {:induction false} SubsequenceReflexive<T>(s: seq<T>)
    ensures IsSubsequence(s, s)
    decreases |s|
  {
    if s != [] {
      SubsequenceReflexive(s[..|s| - 1]);
    }
  }

  // ---------------------------------------------------------------------
  // Filtering: the elements that pass a test, in their original order.

  function Keep<T>(s: seq<T>, p: T -> bool): seq<T>
  {
    if s == [] then []
    else Keep(s[..|s| - 1], p) + (if p(s[|s| - 1]) then [s[|s| - 1]] else [])
  }

  /** `Keep` returns the elements that pass the test in the order of `s`:
      a subsequence, so never longer than `s`. */
  lemma {:induction false} KeepSubsequence<T>(s: seq<T>, p: T -> bool)
    ensures IsSubsequence(Keep(s, p), s)
    ensures |Keep(s, p)| <= |s|
  {
    if s != [] {
      var s', x := s[..|s| - 1], s[|s| - 1];
      KeepSubsequence(s', p);
      var r := Keep(s, p);
      if p(x) {
        assert r == Keep(s', p) + [x];
        assert r[..|r| - 1] == Keep(s', p) && r[|r| - 1] == s[|s| - 1];
      } else {
        assert r == Keep(s', p);
        SubsequenceExtend(Keep(s', p), s', x);
        assert s' + [x] == s;
      }
    }
    SubsequenceShorter(Keep(s, p), s);
  }

  /** Every element that passes the test is kept, as often as it occurs in
      `s`, and no other element is. */
  lemma {:induction false} KeepCount<T>(s: seq<T>, p: T -> bool, y: T)
    ensures multiset(Keep(s, p))[y] == if p(y) then multiset(s)[y] else 0
    ensures y in Keep(s, p) <==> y in s && p(y)
  {
    if s != [] {
      var s', x := s[..|s| - 1], s[|s| - 1];
      KeepCount(s', p, y);
      assert s == s' + [x];
      assert multiset(s) == multiset(s') + multiset{x};
    }
  }

  // ---------------------------------------------------------------------
  // Dropping later duplicates.

  /** `s` with every element that already occurred earlier removed: the
      element at index `k` is kept exactly when it is not in `s[..k]`. */
  function Dedup<T(==)>(s: seq<T>): seq<T>
  {
    if s == [] then []
    else if s[|s| - 1] in s[..|s| - 1] then Dedup(s[..|s| - 1])
    else Dedup(s[..|s| - 1]) + [s[|s| - 1]]
  }

  /** The result has no duplicates, holds every value of the input and no
      other, and keeps the input's order. */
  lemma {:induction false} DedupSpec<T>(s: seq<T>)
    ensures NoDup(Dedup(s))
    ensures forall x :: x in Dedup(s) <==> x in s
    ensures IsSubsequence(Dedup(s), s)
  {
    if s != [] {
      var s', x := s[..|s| - 1], s[|s| - 1];
      DedupSpec(s');
      assert s == s' + [x];
      if x in s' {
        SubsequenceExtend(Dedup(s'), s', x);
      } else {
        assert Dedup(s)[..|Dedup(s)| - 1] == Dedup(s');
      }
    }
  }

  /** A list without duplicates is left as it is. */
  lemma {:induction false} DedupNoDup<T>(s: seq<T>)
    requires NoDup(s)
    ensures Dedup(s) == s
  {
    if s != [] {
      var s', x := s[..|s| - 1], s[|s| - 1];
      DedupNoDup(s');
      assert s == s' + [x];
    }
  }

  /** Deleting a later copy of a value that occurs earlier does not change
      which first occurrences there are. */
  lemma {:induction false} DedupDeleteLater<T>(s: seq<T>, i: nat, j: nat)
    requires i < j < |s| && s[i] == s[j]
    ensures Dedup(s[..j] + s[j + 1..]) == Dedup(s)
    decreases |s|
  {
    var t := s[..j] + s[j + 1..];
    var s' := s[..|s| - 1];
    if j == |s| - 1 {
      assert t == s';
      assert s[|s| - 1] in s' by { assert s'[i] == s[j]; }
    } else {
      var t' := t[..|t| - 1];
      assert t' == s'[..j] + s'[j + 1..];
      DedupDeleteLater(s', i, j);
      assert t[|t| - 1] == s[|s| - 1];
      var x := s[|s| - 1];
      assert x in t' <==> x in s' by {
        if x in s' {
          var k :| 0 <= k < |s'| && s'[k] == x;
          if k < j { assert t'[k] == x; }
          else if k == j { assert t'[i] == x; }
          else { assert t'[k - 1] == x; }
        }
      }
    }
  }

  /** The same list computed the way a single pass with a set of values
      already seen would: walk from the front, keep a value the first time
      it is met. */
  function DedupSeen<T(==)>(s: seq<T>, seen: set<T>): seq<T>
  {
    if s == [] then []
    else if s[0] in seen then DedupSeen(s[1..], seen)
    else [s[0]] + DedupSeen(s[1..], seen + {s[0]})
  }

  lemma {:induction false} DedupSplit<T>(p: seq<T>, s: seq<T>)
    ensures Dedup(p + s) == Dedup(p) + DedupSeen(s, set x | x in p)
    decreases |s|
  {
    if s != [] {
      var p' := p + [s[0]];
      assert p + s == p' + s[1..];
      DedupSplit(p', s[1..]);
      assert p'[..|p'| - 1] == p;
      assert p'[|p'| - 1] == s[0];
      var seen := set x | x in p;
      assert (set x | x in p') == seen + {s[0]};
      assert s[0] in seen <==> s[0] in p;
      if s[0] in p {
        assert Dedup(p') == Dedup(p);
        assert DedupSeen(s, seen) == DedupSeen(s[1..], seen);
        assert seen + {s[0]} == seen;
      } else {
        assert Dedup(p') == Dedup(p) + [s[0]];
        assert DedupSeen(s, seen) == [s[0]] + DedupSeen(s[1..], seen + {s[0]});
      }
    } else {
      assert p + s == p;
    }
  }

  /** The quadratic in-place removal and the single seen-set pass agree. */
  lemma DedupMatchesSeenPass<T>(s: seq<T>)
    ensures Dedup(s) == DedupSeen(s, {})
  {
    DedupSplit([], s);
    assert [] + s == s;
    assert (set x: T | x in []) == {};
  }

  // ---------------------------------------------------------------------
  // `list.reverse()`.

  function Reverse<T>(s: seq<T>): seq<T>
  {
    if s == [] then [] else [s[|s| - 1]] + Reverse(s[..|s| - 1])
  }

  /** Position `k` of the reversed list holds position `|s| - 1 - k` of the
      original, and nothing is lost or added. */
  lemma {:induction false} ReverseSpec<T>(s: seq<T>)
    ensures |Reverse(s)| == |s|
    ensures forall k :: 0 <= k < |s| ==> Reverse(s)[k] == s[|s| - 1 - k]
    ensures multiset(Reverse(s)) == multiset(s)
  {
    if s != [] {
      ReverseSpec(s[..|s| - 1]);
      assert s == s[..|s| - 1] + [s[|s| - 1]];
    }
  }

  // ---------------------------------------------------------------------
  // `list.sort(key=...)`: Python's sort is stable.

  ghost predicate SortedBy<T>(s: seq<T>, key: T -> real)
  {
    forall i, j :: 0 <= i < j < |s| ==> key(s[i]) <= key(s[j])
  }

  ghost predicate SortedDescBy<T>(s: seq<T>, key: T -> real)
  {
    forall i, j :: 0 <= i < j < |s| ==> key(s[i]) >= key(s[j])
  }

  /** The elements of `s` whose key is `k`, in the order of `s`. */
  function WithKey<T>(s: seq<T>, key: T -> real, k: real): seq<T>
  {
    if s == [] then []
    else WithKey(s[..|s| - 1], key, k) + (if key(s[|s| - 1]) == k then [s[|s| - 1]] else [])
  }

  lemma {:induction false} WithKeyConcat<T>(a: seq<T>, b: seq<T>, key: T -> real, k: real)
    ensures WithKey(a + b, key, k) == WithKey(a, key, k) + WithKey(b, key, k)
    decreases |b|
  {
    if b == [] {
      assert a + b == a;
    } else {
      assert (a + b)[..|a + b| - 1] == a + b[..|b| - 1];
      WithKeyConcat(a, b[..|b| - 1], key, k);
    }
  }

  /** Put `x` before the first element whose key is not below its own. */
  function InsertBy<T>(x: T, s: seq<T>, key: T -> real): (r: seq<T>)
    ensures multiset(r) == multiset(s) + multiset{x}
    ensures |r| == |s| + 1
  {
    if s == [] || key(x) <= key(s[0]) then [x] + s
    else
      assert s == [s[0]] + s[1..];
      [s[0]] + InsertBy(x, s[1..], key)
  }

  /** The list `list.sort(key=key)` leaves. */
  function SortBy<T>(s: seq<T>, key: T -> real): (r: seq<T>)
    ensures multiset(r) == multiset(s)
    ensures |r| == |s|
  {
    if s == [] then []
    else
      assert s == [s[0]] + s[1..];
      InsertBy(s[0], SortBy(s[1..], key), key)
  }

  lemma {:induction false} InsertBySorted<T>(x: T, s: seq<T>, key: T -> real)
    requires SortedBy(s, key)
    ensures SortedBy(InsertBy(x, s, key), key)
  {
    if s != [] && key(x) > key(s[0]) {
      InsertBySorted(x, s[1..], key);
      var r := InsertBy(x, s[1..], key);
      forall j | 0 <= j < |r| ensures key(s[0]) <= key(r[j]) {
        assert r[j] in multiset(r);
        assert r[j] == x || r[j] in multiset(s[1..]);
      }
    }
  }

  lemma WithKeyCons<T>(y: T, t: seq<T>, key: T -> real, k: real)
    ensures WithKey([y] + t, key, k) == (if key(y) == k then [y] else []) + WithKey(t, key, k)
  {
    WithKeyConcat([y], t, key, k);
    assert [y][..0] == [];
  }

  lemma {:induction false} InsertByStable<T>(x: T, s: seq<T>, key: T -> real, k: real)
    requires SortedBy(s, key)
    ensures WithKey(InsertBy(x, s, key), key, k)
         == (if key(x) == k then [x] else []) + WithKey(s, key, k)
  {
    if s == [] || key(x) <= key(s[0]) {
      WithKeyCons(x, s, key, k);
    } else {
      var y, t := s[0], s[1..];
      assert s == [y] + t;
      assert SortedBy(t, key);
      InsertByStable(x, t, key, k);
      WithKeyCons(y, InsertBy(x, t, key), key, k);
      WithKeyCons(y, t, key, k);
      assert key(x) == k ==> key(y) != k;
    }
  }

  /** `SortBy` is a stable ascending sort: the result is a permutation of
      the input, ascending by key, and elements with equal keys keep their
      relative order. */
  lemma {:induction false} SortBySpec<T>(s: seq<T>, key: T -> real)
    ensures multiset(SortBy(s, key)) == multiset(s)
    ensures SortedBy(SortBy(s, key), key)
    ensures forall k :: WithKey(SortBy(s, key), key, k) == WithKey(s, key, k)
  {
    if s != [] {
      var y, t := s[0], s[1..];
      assert s == [y] + t;
      SortBySpec(t, key);
      InsertBySorted(y, SortBy(t, key), key);
      forall k ensures WithKey(SortBy(s, key), key, k) == WithKey(s, key, k) {
        InsertByStable(y, SortBy(t, key), key, k);
        WithKeyCons(y, t, key, k);
      }
    }
  }

  lemma {:induction false} WithKeyReverse<T>(s: seq<T>, key: T -> real, k: real)
    ensures WithKey(Reverse(s), key, k) == Reverse(WithKey(s, key, k))
    decreases |s|
  {
    if s != [] {
      var s', x := s[..|s| - 1], s[|s| - 1];
      WithKeyReverse(s', key, k);
      WithKeyConcat([x], Reverse(s'), key, k);
      assert [x][..0] == [];
      var w := WithKey(s', key, k);
      if key(x) == k {
        assert (w + [x])[..|w + [x]| - 1] == w;
      } else {
        assert w + [] == w;
      }
    }
  }

  /** Sorting ascending and then reversing, as `sort_by_popularity` and
      `sort_by_danceability` do: a permutation of the input, descending by
      key, with equal keys in the reverse of their original order. */
  lemma SortThenReverseSpec<T>(s: seq<T>, key: T -> real)
    ensures multiset(Reverse(SortBy(s, key))) == multiset(s)
    ensures SortedDescBy(Reverse(SortBy(s, key)), key)
    ensures forall k :: WithKey(Reverse(SortBy(s, key)), key, k) == Reverse(WithKey(s, key, k))
  {
    var r := SortBy(s, key);
    SortBySpec(s, key);
    ReverseSpec(r);
    forall k ensures WithKey(Reverse(r), key, k) == Reverse(WithKey(s, key, k)) {
      WithKeyReverse(r, key, k);
    }
  }
}

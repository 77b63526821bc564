/** What it means for two lists to be equal as multisets under a relation. */
module Pairings {

  /** `f` sends every position of `actual` to its own position of `expected`, and `rel` holds on each pair. */
  ghost predicate Pairing<A, B>(f: seq<nat>, actual: seq<A>, expected: seq<B>, rel: (A, B) -> bool) {
    && |f| == |actual| == |expected|
    && (forall i :: 0 <= i < |f| ==> f[i] < |expected| && rel(actual[i], expected[f[i]]))
    && (forall i, j :: 0 <= i < j < |f| ==> f[i] != f[j])
  }

  ghost predicate Matches<A, B>(actual: seq<A>, expected: seq<B>, rel: (A, B) -> bool) {
    exists f :: Pairing(f, actual, expected, rel)
  }

  predicate Same<T(==)>(x: T, y: T) {
    x == y
  }

  /** An injection into a set of the same size misses nothing. */
  lemma PigeonHole(f: seq<nat>, n: nat)
    requires |f| == n
    requires forall i :: 0 <= i < n ==> f[i] < n
    requires forall i, j :: 0 <= i < j < n ==> f[i] != f[j]
    ensures forall y :: 0 <= y < n ==> y in f
  {
    DistinctSize(f);
    var image := set i | 0 <= i < |f| :: f[i];
    SubsetOfSameSize(image, Below(n));
    forall y | 0 <= y < n ensures y in f {
      assert y in image;
    }
  }

  lemma {:induction false} DistinctSize<T>(f: seq<T>)
    requires forall i, j :: 0 <= i < j < |f| ==> f[i] != f[j]
    ensures |set i | 0 <= i < |f| :: f[i]| == |f|
  {
    var image := set i | 0 <= i < |f| :: f[i];
    if f == [] {
      assert image == {};
    } else {
      var n := |f| - 1;
      DistinctSize(f[..n]);
      var front := set i | 0 <= i < n :: f[..n][i];
      assert image == front + {f[n]} by {
        assert forall i :: 0 <= i < n ==> f[..n][i] == f[i];
        forall x | x in image ensures x in front + {f[n]} {
          var i :| 0 <= i < |f| && f[i] == x;
          assert i < n ==> f[..n][i] in front;
        }
      }
    }
  }

  /** The indices of a list of length `n`. */
  ghost function Below(n: nat): (all: set<nat>)
    ensures forall y: nat :: y in all <==> y < n
    ensures |all| == n
  {
    if n == 0 then {} else Below(n - 1) + {n - 1}
  }

  lemma {:induction false} SubsetOfSameSize<T>(a: set<T>, b: set<T>)
    requires a <= b && |a| == |b|
    ensures a == b
  {
    if a != b {
      var extra :| extra in b && extra !in a;
      SubsetSize(a, b - {extra});
    }
  }

  lemma {:induction false} SubsetSize<T>(a: set<T>, b: set<T>)
    requires a <= b
    ensures |a| <= |b|
  {
    if a != {} {
      var x :| x in a;
      SubsetSize(a - {x}, b - {x});
    }
  }

  /** Every expected item is used: a pairing is a bijection. */
  lemma PairingIsOnto<A, B>(f: seq<nat>, actual: seq<A>, expected: seq<B>, rel: (A, B) -> bool)
    requires Pairing(f, actual, expected, rel)
    ensures forall y :: 0 <= y < |expected| ==> y in f
  {
    PigeonHole(f, |expected|);
  }

  /** Pairings compose when the second one goes along equality. */
  lemma ComposeRight<A, B>(actual: seq<A>, middle: seq<B>, expected: seq<B>, rel: (A, B) -> bool)
    requires Matches(actual, middle, rel)
    requires Matches(middle, expected, Same)
    ensures Matches(actual, expected, rel)
  {
    var f :| Pairing(f, actual, middle, rel);
    var g :| Pairing(g, middle, expected, Same);
    var h := seq(|f|, i requires 0 <= i < |f| => g[f[i]]);
    forall i, j | 0 <= i < j < |h| ensures h[i] != h[j] {
      assert f[i] != f[j];
      assert f[i] < f[j] || f[j] < f[i];
    }
    assert Pairing(h, actual, expected, rel);
  }

  lemma ComposeLeft<A, B>(actual: seq<A>, middle: seq<A>, expected: seq<B>, rel: (A, B) -> bool)
    requires Matches(actual, middle, Same)
    requires Matches(middle, expected, rel)
    ensures Matches(actual, expected, rel)
  {
    var g :| Pairing(g, actual, middle, Same);
    var f :| Pairing(f, middle, expected, rel);
    var h := seq(|g|, i requires 0 <= i < |g| => f[g[i]]);
    forall i, j | 0 <= i < j < |h| ensures h[i] != h[j] {
      assert g[i] != g[j];
      assert g[i] < g[j] || g[j] < g[i];
    }
    assert Pairing(h, actual, expected, rel);
  }

  /** Under equality, being matched is being the same multiset. */
  lemma {:induction false} EqualityMatchIsMultisetEquality<T>(a: seq<T>, b: seq<T>)
    ensures Matches(a, b, Same) <==> multiset(a) == multiset(b)
    decreases |a|
  {
    if multiset(a) == multiset(b) {
      MultisetEqualityMatches(a, b);
    }
    if Matches(a, b, Same) {
      var f :| Pairing(f, a, b, Same);
      PairingGivesMultiset(f, a, b);
    }
  }

  lemma {:induction false} PairingGivesMultiset<T>(f: seq<nat>, a: seq<T>, b: seq<T>)
    requires Pairing(f, a, b, Same)
    ensures multiset(a) == multiset(b)
    decreases |a|
  {
    if a == [] {
      assert b == [];
    } else {
      // Remove the last actual item and the expected item it is paired with.
      var n, k := |a| - 1, f[|a| - 1];
      var b' := b[..k] + b[k+1..];
      var f' := seq(n, i requires 0 <= i < n => if f[i] < k then f[i] else (assert f[i] != k; f[i] - 1));
      assert Pairing(f', a[..n], b', Same);
      PairingGivesMultiset(f', a[..n], b');
      assert a == a[..n] + [a[n]];
      assert b == b[..k] + [b[k]] + b[k+1..];
    }
  }

  /** A list without its item at position `k`. */
  ghost function Without<T>(s: seq<T>, k: nat): (r: seq<T>)
    requires k < |s|
    ensures |r| == |s| - 1
    ensures multiset(r) == multiset(s) - multiset{s[k]}
  {
    assert s == s[..k] + [s[k]] + s[k+1..];
    s[..k] + s[k+1..]
  }

  lemma {:induction false} MultisetEqualityMatches<T>(a: seq<T>, b: seq<T>)
    requires multiset(a) == multiset(b)
    ensures Matches(a, b, Same)
    decreases |a|
  {
    assert |a| == |multiset(a)| == |multiset(b)| == |b|;
    if a == [] {
      assert Pairing([], a, b, Same);
    } else {
      var n := |a| - 1;
      assert a[n] in multiset(b);
      var k: nat :| k < |b| && b[k] == a[n];
      assert Without(a, n) == a[..n];
      MultisetEqualityMatches(a[..n], Without(b, k));
      var f' :| Pairing(f', a[..n], Without(b, k), Same);
      InsertPair(f', a, b, k);
    }
  }

  lemma InsertPair<T>(f': seq<nat>, a: seq<T>, b: seq<T>, k: nat)
    requires |a| > 0 && k < |b| && b[k] == a[|a| - 1]
    requires Pairing(f', a[..|a|-1], Without(b, k), Same)
    ensures Matches(a, b, Same)
  {
    var n, b' := |a| - 1, Without(b, k);
    var f := seq(n, i requires 0 <= i < n => if f'[i] < k then f'[i] else f'[i] + 1) + [k];
    forall i | 0 <= i < n ensures f[i] < |b| && a[i] == b[f[i]] && f[i] != k {
      assert b'[f'[i]] == b[f[i]];
      assert a[..n][i] == a[i];
    }
    assert Pairing(f, a, b, Same);
  }

  /** Reordering either list does not change whether they match, for any relation at all. */
  lemma PermutationInvariance<A, B>(a: seq<A>, a': seq<A>, e: seq<B>, e': seq<B>, rel: (A, B) -> bool)
    requires multiset(a) == multiset(a')
    requires multiset(e) == multiset(e')
    ensures Matches(a, e, rel) <==> Matches(a', e', rel)
  {
    EqualityMatchIsMultisetEquality(a, a');
    EqualityMatchIsMultisetEquality(a', a);
    EqualityMatchIsMultisetEquality(e, e');
    EqualityMatchIsMultisetEquality(e', e);
    if Matches(a, e, rel) {
      ComposeRight(a, e, e', rel);
      ComposeLeft(a', a, e', rel);
    }
    if Matches(a', e', rel) {
      ComposeRight(a', e', e, rel);
      ComposeLeft(a, a', e, rel);
    }
  }
}

/** Binomial coefficients, and what they count: outcome strings by their number of wins. */
module Binomial {
  import opened Powers

  /** Pascal's rule. */
  function Choose(n: nat, k: nat): nat {
    if k == 0 then 1 else if n == 0 then 0 else Choose(n - 1, k - 1) + Choose(n - 1, k)
  }

  /** Binomial coefficients summed over `lo <= k < hi`. */
  function Sum(n: nat, lo: nat, hi: nat): nat {
    if hi <= lo then 0 else Sum(n, lo, hi - 1) + Choose(n, hi - 1)
  }

  /** Every string of `n` outcomes, true for a win. */
  function Strings(n: nat): seq<seq<bool>> {
    if n == 0 then [[]] else Prefixed(true, Strings(n - 1)) + Prefixed(false, Strings(n - 1))
  }

  function Prefixed(b: bool, strings: seq<seq<bool>>): (r: seq<seq<bool>>)
    ensures |r| == |strings| && forall i :: 0 <= i < |r| ==> r[i] == [b] + strings[i]
  {
    seq(|strings|, i requires 0 <= i < |strings| => [b] + strings[i])
  }

  function Wins(s: seq<bool>): (r: nat)
    ensures r <= |s|
  {
    if s == [] then 0 else (if s[0] then 1 else 0) + Wins(s[1..])
  }

  /** How many of the strings have at least `lo` and fewer than `hi` wins. */
  function Count(strings: seq<seq<bool>>, lo: nat, hi: nat): nat {
    if strings == [] then 0
    else (if lo <= Wins(strings[0]) < hi then 1 else 0) + Count(strings[1..], lo, hi)
  }

  // -- Strings(n) enumerates -------------------------------------------------

  /** Exactly the strings of length `n`, each once, 2^n in all. */
  lemma {:induction false} StringsEnumerates(n: nat)
    ensures |Strings(n)| == Pow2(n)
    ensures forall s {:trigger s in Strings(n)} :: s in Strings(n) <==> |s| == n
    ensures forall i, j :: 0 <= i < j < |Strings(n)| ==> Strings(n)[i] != Strings(n)[j]
  {
    if n > 0 {
      StringsEnumerates(n - 1);
      var rest, all := Strings(n - 1), Strings(n);
      assert all == Prefixed(true, rest) + Prefixed(false, rest);
      ExtendedDistinct(rest);
      forall s ensures s in all <==> |s| == n {
        ExtendedMembers(rest, s);
        if |s| == n {
          assert s[1..] in rest;
        }
      }
    }
  }

  lemma ExtendedMembers(rest: seq<seq<bool>>, s: seq<bool>)
    ensures s in Prefixed(true, rest) + Prefixed(false, rest) <==> s != [] && s[1..] in rest
  {
    var yes, no := Prefixed(true, rest), Prefixed(false, rest);
    if s in yes || s in no {
      var half := if s in yes then yes else no;
      var i :| 0 <= i < |half| && half[i] == s;
      assert s[1..] == rest[i];
    }
    if s != [] && s[1..] in rest {
      var i :| 0 <= i < |rest| && rest[i] == s[1..];
      assert s == [s[0]] + rest[i];
      assert s == (if s[0] then yes else no)[i];
    }
  }

  lemma ExtendedDistinct(rest: seq<seq<bool>>)
    requires forall i, j :: 0 <= i < j < |rest| ==> rest[i] != rest[j]
    ensures var all := Prefixed(true, rest) + Prefixed(false, rest);
      forall i, j :: 0 <= i < j < |all| ==> all[i] != all[j]
  {
    var all, n := Prefixed(true, rest) + Prefixed(false, rest), |rest|;
    forall i, j | 0 <= i < j < |all| ensures all[i] != all[j] {
      var a, b := if i < n then i else i - n, if j < n then j else j - n;
      assert all[i] == [i < n] + rest[a] && all[j] == [j < n] + rest[b];
      assert all[i][0] == (i < n) && all[j][0] == (j < n) && all[i][1..] == rest[a] && all[j][1..] == rest[b];
    }
  }

  // -- Counting by wins ------------------------------------------------------

  lemma {:induction false} CountAppend(a: seq<seq<bool>>, b: seq<seq<bool>>, lo: nat, hi: nat)
    ensures Count(a + b, lo, hi) == Count(a, lo, hi) + Count(b, lo, hi)
  {
    if a == [] {
      assert a + b == b;
    } else {
      assert (a + b)[1..] == a[1..] + b;
      CountAppend(a[1..], b, lo, hi);
    }
  }

  lemma {:induction false} CountPrefixed(b: bool, strings: seq<seq<bool>>, lo: nat, hi: nat)
    ensures Count(Prefixed(b, strings), lo, hi) ==
      if !b then Count(strings, lo, hi) else if hi == 0 then 0 else Count(strings, if lo == 0 then 0 else lo - 1, hi - 1)
  {
    if strings != [] {
      assert Prefixed(b, strings)[1..] == Prefixed(b, strings[1..]);
      CountPrefixed(b, strings[1..], lo, hi);
      assert ([b] + strings[0])[1..] == strings[0];
      assert Wins([b] + strings[0]) == (if b then 1 else 0) + Wins(strings[0]);
    }
  }

  lemma {:induction false} CountNothing(strings: seq<seq<bool>>, lo: nat, hi: nat)
    requires hi <= lo
    ensures Count(strings, lo, hi) == 0
  {
    if strings != [] {
      CountNothing(strings[1..], lo, hi);
    }
  }

  lemma {:induction false} SumPascal(n: nat, lo: nat, hi: nat)
    requires n > 0
    ensures Sum(n, lo, hi) ==
      Sum(n - 1, lo, hi) + if hi == 0 then 0 else Sum(n - 1, if lo == 0 then 0 else lo - 1, hi - 1)
  {
    if hi > lo {
      SumPascal(n, lo, hi - 1);
    }
  }

  /** The strings of `n` outcomes with `lo <= wins < hi` number the binomial coefficients summed over that range. */
  lemma {:induction false} StringsByWins(n: nat, lo: nat, hi: nat)
    ensures Count(Strings(n), lo, hi) == Sum(n, lo, hi)
  {
    hide Strings, Count, Sum;
    if n == 0 {
      CountEmptyString(lo, hi);
      SumOfNone(lo, hi);
    } else if hi <= lo {
      CountNothing(Strings(n), lo, hi);
      SumOfNothing(n, lo, hi);
    } else {
      var lo' := if lo == 0 then 0 else lo - 1;
      var rest := Strings(n - 1);
      OneMoreOutcome(n);
      CountAppend(Prefixed(true, rest), Prefixed(false, rest), lo, hi);
      CountPrefixed(true, rest, lo, hi);
      CountPrefixed(false, rest, lo, hi);
      StringsByWins(n - 1, lo, hi);
      StringsByWins(n - 1, lo', hi - 1);
      SumPascal(n, lo, hi);
    }
  }

  lemma OneMoreOutcome(n: nat)
    requires n > 0
    ensures Strings(n) == Prefixed(true, Strings(n - 1)) + Prefixed(false, Strings(n - 1))
  {
  }

  lemma SumOfNothing(n: nat, lo: nat, hi: nat)
    requires hi <= lo
    ensures Sum(n, lo, hi) == 0
  {
  }

  lemma CountEmptyString(lo: nat, hi: nat)
    ensures Count(Strings(0), lo, hi) == if lo == 0 && hi > 0 then 1 else 0
  {
    var one: seq<seq<bool>> := [[]];
    assert Strings(0) == one && one[1..] == [] && Wins(one[0]) == 0;
  }

  lemma {:induction false} SumOfNone(lo: nat, hi: nat)
    ensures Sum(0, lo, hi) == if lo == 0 && hi > 0 then 1 else 0
  {
    if hi > lo {
      SumOfNone(lo, hi - 1);
    }
  }

  // -- Symmetry --------------------------------------------------------------

  lemma {:induction false} ChooseTooMany(n: nat, k: nat)
    requires k > n
    ensures Choose(n, k) == 0
  {
    if n > 0 {
      ChooseTooMany(n - 1, k - 1);
      ChooseTooMany(n - 1, k);
    }
  }

  lemma {:induction false} ChooseSymmetric(n: nat, k: nat)
    requires k <= n
    ensures Choose(n, k) == Choose(n, n - k)
  {
    if n > 0 {
      if k == 0 {
        ChooseSymmetric(n - 1, 0);
        ChooseTooMany(n - 1, n);
      } else if k == n {
        ChooseSymmetric(n - 1, n - 1);
        ChooseTooMany(n - 1, n);
      } else {
        ChooseSymmetric(n - 1, k - 1);
        ChooseSymmetric(n - 1, k);
      }
    }
  }

  lemma {:induction false} SumSplits(n: nat, lo: nat, mid: nat, hi: nat)
    requires lo <= mid <= hi
    ensures Sum(n, lo, hi) == Sum(n, lo, mid) + Sum(n, mid, hi)
  {
    if hi > mid {
      SumSplits(n, lo, mid, hi - 1);
    }
  }

  /** The upper tail equals the lower tail. */
  lemma {:induction false} SumMirrors(n: nat, m: nat)
    requires m <= n + 1
    ensures Sum(n, n + 1 - m, n + 1) == Sum(n, 0, m)
  {
    if m > 0 {
      SumMirrors(n, m - 1);
      ChooseSymmetric(n, m - 1);
      SumSplits(n, n + 1 - m, n + 2 - m, n + 1);
      assert Sum(n, n + 1 - m, n + 2 - m) == Choose(n, n + 1 - m);
    }
  }

  lemma {:induction false} SumAll(n: nat)
    ensures Sum(n, 0, n + 1) == Pow2(n)
  {
    if n > 0 {
      SumPascal(n, 0, n + 1);
      SumAll(n - 1);
      ChooseTooMany(n - 1, n);
    }
  }
}

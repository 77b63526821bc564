// Comparing models problem by problem: the majority outcome over repeats, the win/tie/loss matrix
// and the exact two-sided McNemar test on its discordant pairs.
module ExperimentReport {
  import opened Models
  import opened Ordering
  import opened Binomial
  import opened Powers

  datatype Note = NoPairs | SmallSample | NoNote

  datatype Annotation = Annotation(discordant: nat, pValue: Option<real>, significant: Option<bool>, note: Note)

  function Min(a: nat, b: nat): nat {
    if a < b then a else b
  }

  /** Two times the lower binomial tail over 2^n, capped at one. */
  function PValue(wins: nat, losses: nat): real {
    var n := wins + losses;
    Capped(2 * Sum(n, 0, Min(wins, losses) + 1), Pow2(n))
  }

  function Capped(a: nat, b: nat): real
    requires b > 0
  {
    var p := a as real / b as real;
    if p > 1.0 then 1.0 else p
  }

  function McNemar(wins: nat, losses: nat): Annotation {
    var n := wins + losses;
    if n == 0 then Annotation(0, None, None, NoPairs)
    else
      var p := PValue(wins, losses);
      Annotation(n, Some(p), Some(p < 0.05), if n < 5 then SmallSample else NoNote)
  }

  // -- What the p-value is ---------------------------------------------------

  /** An outcome string with a side that won at most `m` times. */
  predicate Lopsided(s: seq<bool>, m: nat) {
    Wins(s) <= m || |s| - Wins(s) <= m
  }

  function CountLopsided(strings: seq<seq<bool>>, m: nat): (r: nat)
    ensures r <= |strings|
  {
    if strings == [] then 0 else (if Lopsided(strings[0], m) then 1 else 0) + CountLopsided(strings[1..], m)
  }

  lemma {:induction false} LopsidedIsTwoTails(strings: seq<seq<bool>>, n: nat, m: nat)
    requires 2 * m < n && forall i :: 0 <= i < |strings| ==> |strings[i]| == n
    ensures CountLopsided(strings, m) == Count(strings, 0, m + 1) + Count(strings, n - m, n + 1)
  {
    if strings != [] {
      assert |strings[0]| == n;
      LopsidedIsTwoTails(strings[1..], n, m);
    }
  }

  lemma {:induction false} AllLopsided(strings: seq<seq<bool>>, n: nat, m: nat)
    requires n <= 2 * m && forall i :: 0 <= i < |strings| ==> |strings[i]| == n
    ensures CountLopsided(strings, m) == |strings|
  {
    if strings != [] {
      assert |strings[0]| == n;
      AllLopsided(strings[1..], n, m);
    }
  }

  lemma AllOfLength(n: nat)
    ensures |Strings(n)| == Pow2(n)
    ensures forall i :: 0 <= i < |Strings(n)| ==> |Strings(n)[i]| == n
  {
    StringsEnumerates(n);
    assert forall i :: 0 <= i < |Strings(n)| ==> Strings(n)[i] in Strings(n);
  }

  /** Unless wins equal losses, twice the tail counts exactly the strings at least as lopsided. */
  lemma TwiceTheTail(n: nat, m: nat)
    requires 2 * m < n
    ensures 2 * Sum(n, 0, m + 1) == CountLopsided(Strings(n), m) <= Pow2(n)
  {
    AllOfLength(n);
    hide Strings, Count, Sum, CountLopsided, Pow2;
    LopsidedIsTwoTails(Strings(n), n, m);
    StringsByWins(n, 0, m + 1);
    StringsByWins(n, n - m, n + 1);
    SumMirrors(n, m + 1);
  }

  lemma {:induction false} ChoosePositive(n: nat, k: nat)
    requires k <= n
    ensures Choose(n, k) > 0
  {
    if 0 < k {
      ChoosePositive(n - 1, k - 1);
    }
  }

  /** When wins equal losses, twice the tail counts the even split twice and exceeds 2^n. */
  lemma TwiceTheHalf(m: nat)
    ensures 2 * Sum(2 * m, 0, m + 1) == Pow2(2 * m) + Choose(2 * m, m) > Pow2(2 * m)
  {
    var n := 2 * m;
    SumAll(n);
    SumSplits(n, 0, m + 1, n + 1);
    SumMirrors(n, m);
    assert n + 1 - m == m + 1;
    assert Sum(n, 0, m + 1) == Sum(n, 0, m) + Choose(n, m);
    ChoosePositive(n, m);
  }

  /** The cap at one is needed exactly when wins equal losses. */
  lemma CapNeededOnTies(wins: nat, losses: nat)
    ensures 2 * Sum(wins + losses, 0, Min(wins, losses) + 1) > Pow2(wins + losses) <==> wins == losses
  {
    hide Sum, Pow2;
    if wins == losses {
      TwiceTheHalf(wins);
    } else {
      TwiceTheTail(wins + losses, Min(wins, losses));
    }
  }

  /** The p-value is the share of all outcome strings that are at least as lopsided as the one observed. */
  lemma PValueIsExact(wins: nat, losses: nat)
    ensures var n := wins + losses;
      PValue(wins, losses) == CountLopsided(Strings(n), Min(wins, losses)) as real / Pow2(n) as real
  {
    var n, m := wins + losses, Min(wins, losses);
    CapNeededOnTies(wins, losses);
    AllOfLength(n);
    hide Sum, Pow2, CountLopsided, Strings, Capped;
    CappedIs(2 * Sum(n, 0, m + 1), Pow2(n));
    if wins == losses {
      AllLopsided(Strings(n), n, m);
    } else {
      TwiceTheTail(n, m);
    }
  }

  lemma CappedIs(a: nat, b: nat)
    requires b > 0
    ensures Capped(a, b) == (if a > b then b else a) as real / b as real
  {
    AboveOne(a, b);
  }

  lemma AboveOne(a: nat, b: nat)
    requires b > 0
    ensures a as real / b as real > 1.0 <==> a > b
    ensures b as real / b as real == 1.0
  {
    RealAboveOne(a as real, b as real);
  }

  lemma RealAboveOne(x: real, y: real)
    requires y > 0.0
    ensures x / y > 1.0 <==> x > y
    ensures y / y == 1.0
  {
    var q := x / y;
    assert q * y == x;
    if q > 1.0 {
      assert q * y > 1.0 * y;
    } else {
      assert q * y <= 1.0 * y;
    }
  }

  lemma {:induction false} SumGrows(n: nat, a: nat, b: nat)
    requires a <= b
    ensures Sum(n, 0, a) <= Sum(n, 0, b)
  {
    if a < b {
      SumGrows(n, a, b - 1);
    }
  }

  lemma RatioGrows(a: nat, b: nat, c: nat)
    requires a <= b && c > 0
    ensures a as real / c as real <= b as real / c as real
  {
  }

  /** For one number of pairs, a more even split is never more significant; the two sides are interchangeable. */
  lemma PValueOrder(wins: nat, losses: nat, wins': nat, losses': nat)
    requires wins + losses == wins' + losses' && Min(wins, losses) <= Min(wins', losses')
    ensures 0.0 < PValue(wins, losses) <= PValue(wins', losses') <= 1.0
    ensures PValue(wins, losses) == PValue(losses, wins)
  {
    var n := wins + losses;
    var a, b := Sum(n, 0, Min(wins, losses) + 1), Sum(n, 0, Min(wins', losses') + 1);
    assert 1 <= Sum(n, 0, 1) by { assert Choose(n, 0) == 1; }
    SumGrows(n, 1, Min(wins, losses) + 1);
    SumGrows(n, Min(wins, losses) + 1, Min(wins', losses') + 1);
    assert losses + wins == n;
    hide Sum, Pow2;
    RatioGrows(2 * a, 2 * b, Pow2(n));
  }

  lemma SmallPowers()
    ensures Pow2(5) == 32 && Pow2(6) == 64
  {
    assert Pow2(0) == 1 && Pow2(1) == 2 && Pow2(2) == 4 && Pow2(3) == 8 && Pow2(4) == 16;
  }

  /** The best split of `n` pairs, all on one side. */
  lemma OneSided(n: nat)
    requires n > 0
    ensures PValue(n, 0) == 2.0 / Pow2(n) as real
  {
    assert Sum(n, 0, 1) == Choose(n, 0) == 1;
    hide Sum;
    assert Pow2(n) >= 2 by { Pow2Grows(1, n); assert Pow2(1) == 2 * Pow2(0); }
    AboveOne(2, Pow2(n));
  }

  lemma Reciprocal(x: int)
    requires x > 0
    ensures 2.0 / x as real < 0.05 <==> x > 40
  {
    var q := 2.0 / x as real;
    assert q * x as real == 2.0;
  }

  lemma RealBelowTwentieth(x: real, y: real)
    requires y > 0.0
    ensures x / y < 0.05 <==> 20.0 * x < y
  {
    var q := x / y;
    assert q * y == x;
    if q < 0.05 {
      assert q * y < 0.05 * y;
    } else {
      assert q * y >= 0.05 * y;
    }
  }

  lemma BelowTwentieth(a: nat, b: nat)
    requires b > 0
    ensures Capped(a, b) < 0.05 <==> 20 * a < b
  {
    RealBelowTwentieth(a as real, b as real);
    assert (20 * a) as real == 20.0 * a as real;
  }

  /**
   * The whole annotation: the number of discordant pairs, a test exactly when there are any, significance
   * exactly when forty times the lower binomial tail is below 2^n, and a note below five pairs.
   */
  lemma AnnotationIsExact(wins: nat, losses: nat)
    ensures var n, a := wins + losses, McNemar(wins, losses);
      && a.discordant == n
      && (a.pValue == if n == 0 then None else Some(PValue(wins, losses)))
      && (a.significant.Some? <==> n > 0)
      && (a.significant == Some(true) <==> 40 * Sum(n, 0, (if wins < losses then wins else losses) + 1) < Pow2(n))
      && (a.note == NoPairs <==> n == 0) && (a.note == SmallSample <==> 0 < n < 5)
  {
    var n := wins + losses;
    var tail := Sum(n, 0, Min(wins, losses) + 1);
    if n == 0 {
      assert tail == Sum(0, 0, 0) + Choose(0, 0) == 1;
      assert Pow2(0) == 1;
    }
    hide Sum, Pow2, Capped;
    BelowTwentieth(2 * tail, Pow2(n));
  }

  /** With five discordant pairs or fewer nothing is significant, and from six on a one-sided outcome is. */
  lemma SignificanceNeedsSixPairs(n: nat, wins: nat, losses: nat)
    requires wins + losses == n
    ensures n <= 5 ==> McNemar(wins, losses).significant != Some(true)
    ensures n >= 6 ==> McNemar(n, 0).significant == Some(true)
  {
    if n > 0 {
      PValueOrder(n, 0, wins, losses);
      OneSided(n);
      Reciprocal(Pow2(n));
      SmallPowers();
      if n <= 5 {
        Pow2Grows(n, 5);
      } else {
        Pow2Grows(6, n);
      }
    }
  }
}

// Assigning two prompt variants to problems, stratum by stratum.
module AbTesting {
  import opened Models

  /** The tags matter only as a sorted tuple, that is as a multiset. */
  datatype Problem = Problem(id: string, difficulty: string, tags: seq<string>)

  datatype Stratum = Stratum(difficulty: string, tags: multiset<string>)

  function StratumOf(p: Problem): Stratum {
    Stratum(p.difficulty, multiset(p.tags))
  }

  ghost predicate UniqueIds(problems: seq<Problem>) {
    forall i, j :: 0 <= i < j < |problems| ==> problems[i].id != problems[j].id
  }

  /** Those of `problems` that got variant `v`. */
  function Given(problems: set<Problem>, assignment: map<string, string>, v: string): set<Problem> {
    set p | p in problems && p.id in assignment && assignment[p.id] == v
  }

  function Members(problems: seq<Problem>): set<Problem> {
    set p | p in problems
  }

  /** The problems of one difficulty with the same tags, in whatever order these are listed. */
  function InStratum(problems: seq<Problem>, key: Stratum): set<Problem> {
    set p | p in problems && p.difficulty == key.difficulty && multiset(p.tags) == key.tags
  }

  /** How much more often the first variant was given than the second. */
  function Lead(problems: set<Problem>, assignment: map<string, string>, variants: seq<string>): int
    requires |variants| == 2
  {
    |Given(problems, assignment, variants[0])| - |Given(problems, assignment, variants[1])|
  }

  // -- Shuffling and dealing -------------------------------------------------

  function Swap(items: seq<Problem>, i: nat, j: nat): seq<Problem>
    requires i < |items| && j < |items|
  {
    items[i := items[j]][j := items[i]]
  }

  /** The first `n` items shuffled by the draws: the last of them is exchanged with a drawn one, then the rest. */
  function ShuffledBy(items: seq<Problem>, n: nat, draws: nat -> nat): seq<Problem>
    requires n <= |items|
    decreases n
  {
    if n <= 1 then items else ShuffledBy(Swap(items, n - 1, draws(n - 1) % n), n - 1, draws)
  }

  lemma {:induction false} DrawsAgree(items: seq<Problem>, n: nat, draws: nat -> nat, draws': nat -> nat)
    requires n <= |items| && forall i: nat :: i < n ==> draws(i) == draws'(i)
    ensures ShuffledBy(items, n, draws) == ShuffledBy(items, n, draws')
    decreases n
  {
    if n > 1 {
      DrawsAgree(Swap(items, n - 1, draws(n - 1) % n), n - 1, draws, draws');
    }
  }

  lemma SwapKeepsItems(items: seq<Problem>, i: nat, j: nat)
    requires j <= i < |items|
    ensures multiset(Swap(items, i, j)[..i]) + multiset{items[j]} == multiset(items[..i + 1])
    ensures Swap(items, i, j)[i..] == [items[j]] + items[i + 1..]
  {
    if j < i {
      SwapParts(items, i, j);
      hide Swap;
      SplitAt(items, i, j);
    } else {
      assert Swap(items, i, j) == items;
      assert items[..i + 1] == items[..i] + [items[i]];
    }
  }

  lemma SwapParts(items: seq<Problem>, i: nat, j: nat)
    requires j < i < |items|
    ensures Swap(items, i, j)[..i] == items[..j] + [items[i]] + items[j + 1..i]
    ensures Swap(items, i, j)[i..] == [items[j]] + items[i + 1..]
  {
  }

  lemma SplitAt(items: seq<Problem>, i: nat, j: nat)
    requires j < i < |items|
    ensures multiset(items[..i + 1]) ==
      multiset(items[..j]) + multiset{items[j]} + multiset(items[j + 1..i]) + multiset{items[i]}
  {
    assert items[..i + 1] == items[..j] + [items[j]] + items[j + 1..i] + [items[i]];
  }

  lemma SameOneLeft(items: seq<Problem>, target: seq<Problem>)
    requires |items| == |target| <= 1 && multiset(items) == multiset(target)
    ensures items == target
  {
    if |items| == 1 {
      assert items == [items[0]] && target == [target[0]];
      assert items[0] in multiset(target);
    }
  }

  lemma OneMoreDraw(items: seq<Problem>, n: nat, j: nat, rest: nat -> nat, draws: nat -> nat)
    requires 1 < n <= |items| && j < n && draws(n - 1) == j && forall i: nat :: i < n - 1 ==> draws(i) == rest(i)
    ensures ShuffledBy(items, n, draws) == ShuffledBy(Swap(items, n - 1, j), n - 1, rest)
  {
    SmallRemainder(j, n);
    DrawsAgree(Swap(items, n - 1, j), n - 1, draws, rest);
  }

  lemma SmallRemainder(j: nat, n: nat)
    requires j < n
    ensures j % n == j
  {
  }

  lemma PlaceOfLast(items: seq<Problem>, n: nat, target: seq<Problem>) returns (j: nat)
    requires 0 < n <= |items| == |target| && multiset(items[..n]) == multiset(target[..n])
    ensures j < n && items[j] == target[n - 1]
  {
    assert target[..n][n - 1] in multiset(target[..n]);
    assert target[n - 1] in multiset(items[..n]);
    j :| j < n && items[..n][j] == target[n - 1];
  }

  lemma SwapMovesLast(items: seq<Problem>, n: nat, j: nat, target: seq<Problem>)
    requires 0 < n <= |items| == |target| && j < n && items[j] == target[n - 1]
    requires items[n..] == target[n..] && multiset(items[..n]) == multiset(target[..n])
    ensures Swap(items, n - 1, j)[n - 1..] == target[n - 1..]
    ensures multiset(Swap(items, n - 1, j)[..n - 1]) == multiset(target[..n - 1])
  {
    var last := target[n - 1];
    SwapKeepsItems(items, n - 1, j);
    var front := Swap(items, n - 1, j)[..n - 1];
    hide Swap;
    assert target[n - 1..] == [last] + target[n..];
    assert target[..n] == target[..n - 1] + [last];
    assert multiset(front) + multiset{last} == multiset(target[..n - 1]) + multiset{last};
    assert multiset(front) == (multiset(front) + multiset{last}) - multiset{last};
  }

  /** Every order of the items comes out for some draws. */
  lemma {:induction false} EveryOrder(items: seq<Problem>, n: nat, target: seq<Problem>) returns (draws: nat -> nat)
    requires n <= |items| == |target| && items[n..] == target[n..]
    requires multiset(items[..n]) == multiset(target[..n])
    ensures ShuffledBy(items, n, draws) == target
    decreases n
  {
    draws := (_: nat) => 0;
    if n <= 1 {
      SameOneLeft(items[..n], target[..n]);
      assert items == items[..n] + items[n..] && target == target[..n] + target[n..];
    } else {
      hide ShuffledBy, Swap;
      var j := PlaceOfLast(items, n, target);
      SwapMovesLast(items, n, j, target);
      var rest := EveryOrder(Swap(items, n - 1, j), n - 1, target);
      draws := (i: nat) => if i == n - 1 then j else rest(i);
      OneMoreDraw(items, n, j, rest, draws);
    }
  }

  /** An in-place shuffle driven by any stream of draws. */
  method Shuffle(items: array<Problem>, draws: nat -> nat)
    modifies items
    ensures items[..] == ShuffledBy(old(items[..]), items.Length, draws)
    ensures multiset(items[..]) == multiset(old(items[..]))
  {
    var i := items.Length;
    assert items[..] == old(items[..]);
    while i > 1
      invariant 0 <= i <= items.Length
      invariant ShuffledBy(items[..], i, draws) == ShuffledBy(old(items[..]), items.Length, draws)
      invariant multiset(items[..]) == multiset(old(items[..]))
    {
      ghost var before := items[..];
      i := i - 1;
      var j := draws(i) % (i + 1);
      items[i], items[j] := items[j], items[i];
      assert items[..] == Swap(before, i, j);
    }
  }

  /** The items are new to `before` and have their own ids, and the variants differ. */
  ghost predicate FairDeal(items: seq<Problem>, variants: seq<string>, before: map<string, string>)
    requires |variants| == 2
  {
    variants[0] != variants[1] && UniqueIds(items) && forall i :: 0 <= i < |items| ==> items[i].id !in before
  }

  /** The first `n` items got the two variants in turn, beginning with variant `start`. */
  ghost predicate InTurn(items: seq<Problem>, n: nat, start: nat, assignment: map<string, string>, variants: seq<string>)
    requires |variants| == 2 && n <= |items|
  {
    forall k: nat :: k < n ==> items[k].id in assignment && assignment[items[k].id] == variants[(start + k) % 2]
  }

  lemma InTurnNext(items: seq<Problem>, n: nat, start: nat, assignment: map<string, string>, variants: seq<string>)
    requires |variants| == 2 && n < |items| && UniqueIds(items) && InTurn(items, n, start, assignment, variants)
    ensures InTurn(items, n + 1, start, assignment[items[n].id := variants[(start + n) % 2]], variants)
  {
  }

  /** Deals the two variants in turn, beginning with variant `start`. */
  method Deal(items: seq<Problem>, start: nat, variants: seq<string>, before: map<string, string>)
    returns (assignment: map<string, string>)
    requires |variants| == 2 && start < 2
    ensures assignment.Keys == before.Keys + set p | p in items :: p.id
    ensures forall id :: id in assignment ==> assignment[id] in variants || (id in before && assignment[id] == before[id])
    ensures FairDeal(items, variants, before) ==>
      && InTurn(items, |items|, start, assignment, variants)
      && (forall id :: id in before ==> assignment[id] == before[id])
      && Lead(Members(items), assignment, variants) == if |items| % 2 == 0 then 0 else if start == 0 then 1 else -1
  {
    hide DealtFairly, FairDeal;
    assignment := before;
    NothingDealt(items, start, variants, before);
    var index := start;
    for k := 0 to |items|
      invariant index == start + k
      invariant assignment.Keys == before.Keys + set p | p in items[..k] :: p.id
      invariant forall id :: id in assignment ==> assignment[id] in variants || (id in before && assignment[id] == before[id])
      invariant FairDeal(items, variants, before) ==> DealtFairly(items, k, start, variants, before, assignment)
    {
      assert forall q :: q in items[..k + 1] <==> q in items[..k] || q == items[k];
      if FairDeal(items, variants, before) {
        DealNext(items, k, start, variants, before, assignment);
      }
      assignment := assignment[items[k].id := variants[index % 2]];
      index := index + 1;
    }
    assert items[..|items|] == items;
    if FairDeal(items, variants, before) {
      AllDealtFairly(items, start, variants, before, assignment);
    }
  }

  /** Where a fair deal stands after `n` items. */
  ghost predicate DealtFairly(items: seq<Problem>, n: nat, start: nat, variants: seq<string>,
      before: map<string, string>, assignment: map<string, string>)
    requires |variants| == 2 && n <= |items|
  {
    && InTurn(items, n, start, assignment, variants)
    && (forall id :: id in before ==> id in assignment && assignment[id] == before[id])
    && Lead(Members(items[..n]), assignment, variants) == if n % 2 == 0 then 0 else if start == 0 then 1 else -1
  }

  lemma NothingDealt(items: seq<Problem>, start: nat, variants: seq<string>, before: map<string, string>)
    requires |variants| == 2
    ensures DealtFairly(items, 0, start, variants, before, before)
  {
    assert Members(items[..0]) == {};
    NoLead(before, variants);
  }

  lemma DealNext(items: seq<Problem>, n: nat, start: nat, variants: seq<string>, before: map<string, string>,
      assignment: map<string, string>)
    requires |variants| == 2 && start < 2 && n < |items| && FairDeal(items, variants, before)
    requires DealtFairly(items, n, start, variants, before, assignment)
    ensures DealtFairly(items, n + 1, start, variants, before, assignment[items[n].id := variants[(start + n) % 2]])
  {
    hide Lead, InTurn, UniqueIds;
    NextItem(items, n);
    InTurnNext(items, n, start, assignment, variants);
    LeadOfOneMore(Members(items[..n]), items[n], assignment, variants, variants[(start + n) % 2]);
  }

  lemma AllDealtFairly(items: seq<Problem>, start: nat, variants: seq<string>, before: map<string, string>,
      assignment: map<string, string>)
    requires |variants| == 2 && DealtFairly(items, |items|, start, variants, before, assignment)
    ensures InTurn(items, |items|, start, assignment, variants)
    ensures forall id :: id in before ==> id in assignment && assignment[id] == before[id]
    ensures Lead(Members(items), assignment, variants) == if |items| % 2 == 0 then 0 else if start == 0 then 1 else -1
  {
    assert items[..|items|] == items;
  }

  lemma LeadOfOneMore(done: set<Problem>, p: Problem, assignment: map<string, string>, variants: seq<string>,
      v: string)
    requires |variants| == 2 && variants[0] != variants[1] && (v == variants[0] || v == variants[1])
    requires forall q :: q in done ==> q.id != p.id
    ensures Lead(done + {p}, assignment[p.id := v], variants) ==
      Lead(done, assignment, variants) + if v == variants[0] then 1 else -1
  {
    GivenOneMore(done, p, assignment, variants[0], v);
    GivenOneMore(done, p, assignment, variants[1], v);
  }

  lemma GivenOneMore(done: set<Problem>, p: Problem, assignment: map<string, string>, x: string, v: string)
    requires forall q :: q in done ==> q.id != p.id
    ensures |Given(done + {p}, assignment[p.id := v], x)| == |Given(done, assignment, x)| + if x == v then 1 else 0
  {
    var before, after := Given(done, assignment, x), Given(done + {p}, assignment[p.id := v], x);
    assert p !in before;
    assert after == if x == v then before + {p} else before;
  }

  lemma NextItem(items: seq<Problem>, k: nat)
    requires k < |items| && UniqueIds(items)
    ensures Members(items[..k + 1]) == Members(items[..k]) + {items[k]}
    ensures forall q :: q in Members(items[..k]) ==> q.id != items[k].id
    ensures forall q :: q in items[..k + 1] <==> q in items[..k] || q == items[k]
  {
    forall q | q in Members(items[..k]) ensures q.id != items[k].id {
      var i :| 0 <= i < k && items[i] == q;
    }
  }

  lemma NoLead(assignment: map<string, string>, variants: seq<string>)
    requires |variants| == 2
    ensures Lead({}, assignment, variants) == 0
  {
  }

  // -- Strata ----------------------------------------------------------------

  /** The items of one stratum, in problem order. */
  function Select(problems: seq<Problem>, key: Stratum): (r: seq<Problem>)
    ensures forall p :: p in r <==> p in problems && StratumOf(p) == key
  {
    if problems == [] then []
    else
      var n := |problems| - 1;
      assert problems == problems[..n] + [problems[n]];
      Select(problems[..n], key) + if StratumOf(problems[n]) == key then [problems[n]] else []
  }

  lemma {:induction false} SelectIsUnique(problems: seq<Problem>, key: Stratum)
    requires UniqueIds(problems)
    ensures UniqueIds(Select(problems, key))
  {
    if problems != [] {
      var n := |problems| - 1;
      SelectIsUnique(problems[..n], key);
      var before := Select(problems[..n], key);
      forall i | 0 <= i < |before| ensures before[i].id != problems[n].id {
        assert before[i] in before;
        NextItem(problems, n);
      }
    }
  }

  lemma SelectNothing(problems: seq<Problem>, key: Stratum)
    requires forall p :: p in problems ==> StratumOf(p) != key
    ensures Select(problems, key) == []
  {
    assert forall p :: p !in Select(problems, key);
  }

  function StrataOf(problems: seq<Problem>): set<Stratum> {
    set p | p in problems :: StratumOf(p)
  }

  lemma NextProblem(problems: seq<Problem>, i: nat)
    requires i < |problems|
    ensures StrataOf(problems[..i + 1]) == StrataOf(problems[..i]) + {StratumOf(problems[i])}
    ensures forall key ::
      Select(problems[..i + 1], key) == Select(problems[..i], key) + if StratumOf(problems[i]) == key then [problems[i]] else []
    ensures forall key :: key !in StrataOf(problems[..i]) ==> Select(problems[..i], key) == []
  {
    assert problems[..i + 1][..i] == problems[..i];
    assert forall q :: q in problems[..i + 1] <==> q in problems[..i] || q == problems[i];
    forall key | key !in StrataOf(problems[..i]) ensures Select(problems[..i], key) == [] {
      SelectNothing(problems[..i], key);
    }
  }

  /** The groups by stratum, each in problem order. */
  method Group(problems: seq<Problem>) returns (groups: map<Stratum, seq<Problem>>)
    ensures groups.Keys == StrataOf(problems)
    ensures forall key :: key in groups ==> groups[key] == Select(problems, key)
  {
    hide Select, StrataOf, StratumOf;
    groups := map[];
    assert StrataOf(problems[..0]) == {} by { NoStrata(problems); }
    for i := 0 to |problems|
      invariant groups.Keys == StrataOf(problems[..i])
      invariant forall key :: key in groups ==> groups[key] == Select(problems[..i], key)
    {
      var p, key := problems[i], StratumOf(problems[i]);
      NextProblem(problems, i);
      groups := groups[key := (if key in groups then groups[key] else []) + [p]];
    }
    assert problems[..|problems|] == problems;
  }

  lemma NoStrata(problems: seq<Problem>)
    ensures StrataOf(problems[..0]) == {}
  {
  }

  // -- The assignment --------------------------------------------------------

  /** Every stratum splits evenly up to one, and so does the whole, the first variant getting the odd one. */
  ghost predicate Balanced(problems: seq<Problem>, assignment: map<string, string>, variants: seq<string>)
    requires |variants| == 2
  {
    && (forall key :: -1 <= Lead(InStratum(problems, key), assignment, variants) <= 1)
    && 0 <= Lead(Members(problems), assignment, variants) <= 1
  }

  /** Problems whose stratum has been dealt. */
  function Dealt(problems: seq<Problem>, left: set<Stratum>): set<Problem> {
    set p | p in problems && StratumOf(p) !in left
  }

  function IdsOf(problems: set<Problem>): set<string> {
    set p | p in problems :: p.id
  }

  lemma LeadIgnores(problems: set<Problem>, a: map<string, string>, b: map<string, string>, variants: seq<string>)
    requires |variants| == 2 && forall p :: p in problems ==> p.id in a && p.id in b && a[p.id] == b[p.id]
    ensures Lead(problems, a, variants) == Lead(problems, b, variants)
  {
    forall v ensures Given(problems, a, v) == Given(problems, b, v) {
    }
  }

  lemma LeadOfUnion(x: set<Problem>, y: set<Problem>, assignment: map<string, string>, variants: seq<string>)
    requires |variants| == 2 && x !! y
    ensures Lead(x + y, assignment, variants) == Lead(x, assignment, variants) + Lead(y, assignment, variants)
  {
    forall v ensures |Given(x + y, assignment, v)| == |Given(x, assignment, v)| + |Given(y, assignment, v)| {
      assert Given(x + y, assignment, v) == Given(x, assignment, v) + Given(y, assignment, v);
    }
  }

  /** Dealing one more stratum. */
  lemma StratumDealt(problems: seq<Problem>, left: set<Stratum>, key: Stratum, items: seq<Problem>,
                     before: map<string, string>, after: map<string, string>, variants: seq<string>)
    requires |variants| == 2 && UniqueIds(problems) && key in left && multiset(items) == multiset(Select(problems, key))
    requires before.Keys == IdsOf(Dealt(problems, left)) && after.Keys == before.Keys + set p | p in items :: p.id
    requires forall id :: id in before ==> after[id] == before[id]
    ensures Members(items) == InStratum(problems, key)
    ensures Lead(Dealt(problems, left - {key}), after, variants) ==
      Lead(Dealt(problems, left), before, variants) + Lead(InStratum(problems, key), after, variants)
    ensures forall k :: k !in left ==>
      Lead(InStratum(problems, k), after, variants) == Lead(InStratum(problems, k), before, variants)
  {
    SameMembers(items, Select(problems, key));
    var done, more := Dealt(problems, left), InStratum(problems, key);
    assert Members(items) == more;
    assert Dealt(problems, left - {key}) == done + more;
    forall p | p in done ensures p.id in before && p.id in after {
      assert p.id in IdsOf(done);
    }
    LeadIgnores(done, before, after, variants);
    LeadOfUnion(done, more, after, variants);
    forall k | k !in left ensures Lead(InStratum(problems, k), after, variants) == Lead(InStratum(problems, k), before, variants) {
      assert InStratum(problems, k) <= done;
      LeadIgnores(InStratum(problems, k), before, after, variants);
    }
  }

  lemma SameMembers(a: seq<Problem>, b: seq<Problem>)
    requires multiset(a) == multiset(b)
    ensures forall p :: p in a <==> p in b
    ensures |a| == |b|
  {
    forall p ensures p in a <==> p in b {
      assert p in a <==> p in multiset(a);
      assert p in b <==> p in multiset(b);
    }
    assert |multiset(a)| == |a| && |multiset(b)| == |b|;
  }

  lemma SameUnique(a: seq<Problem>, b: seq<Problem>)
    requires multiset(a) == multiset(b) && UniqueIds(b)
    ensures UniqueIds(a)
  {
    SameMembers(a, b);
    forall i, j | 0 <= i < j < |a| ensures a[i].id != a[j].id {
      assert a[i] in a && a[j] in a;
      if a[i] == a[j] {
        assert a == a[..i] + [a[i]] + a[i + 1..j] + [a[j]] + a[j + 1..];
        assert multiset(a)[a[i]] >= 2;
        AtMostOnce(b, a[i]);
      } else {
        var k, l :| 0 <= k < |b| && 0 <= l < |b| && b[k] == a[i] && b[l] == a[j];
        assert k < l || l < k;
      }
    }
  }

  lemma {:induction false} AtMostOnce(s: seq<Problem>, p: Problem)
    requires UniqueIds(s)
    ensures multiset(s)[p] <= 1
  {
    if s != [] {
      var n := |s| - 1;
      assert s == s[..n] + [s[n]];
      AtMostOnce(s[..n], p);
    }
  }

  /** What the loop over strata keeps when problem ids are unique and the variants differ. */
  ghost predicate Fair(problems: seq<Problem>, left: set<Stratum>, assignment: map<string, string>,
      variants: seq<string>, nextExtra: nat)
    requires |variants| == 2
  {
    && Lead(Dealt(problems, left), assignment, variants) == nextExtra <= 1
    && forall key :: key !in left ==> -1 <= Lead(InStratum(problems, key), assignment, variants) <= 1
  }

  lemma FairStep(problems: seq<Problem>, left: set<Stratum>, key: Stratum, items: seq<Problem>,
                 before: map<string, string>, after: map<string, string>, variants: seq<string>, nextExtra: nat)
    requires |variants| == 2 && UniqueIds(problems) && key in left && multiset(items) == multiset(Select(problems, key))
    requires before.Keys == IdsOf(Dealt(problems, left)) && after.Keys == before.Keys + set p | p in items :: p.id
    requires forall id :: id in before ==> after[id] == before[id]
    requires Fair(problems, left, before, variants, nextExtra)
    requires Lead(Members(items), after, variants) == if |items| % 2 == 0 then 0 else if nextExtra == 0 then 1 else -1
    ensures Fair(problems, left - {key}, after, variants, if |items| % 2 == 0 then nextExtra else 1 - nextExtra)
  {
    hide Lead, Select, UniqueIds;
    StratumDealt(problems, left, key, items, before, after, variants);
  }

  lemma FairStart(problems: seq<Problem>, left: set<Stratum>, variants: seq<string>)
    requires |variants| == 2 && forall p :: p in problems ==> StratumOf(p) in left
    ensures Fair(problems, left, map[], variants, 0) && IdsOf(Dealt(problems, left)) == {}
  {
    assert Dealt(problems, left) == {};
    NoLead(map[], variants);
    forall key | key !in left ensures InStratum(problems, key) == {} {
    }
  }

  lemma NewItems(problems: seq<Problem>, left: set<Stratum>, key: Stratum, items: seq<Problem>,
      before: map<string, string>, variants: seq<string>)
    requires |variants| == 2 && variants[0] != variants[1] && UniqueIds(problems)
    requires key in left && multiset(items) == multiset(Select(problems, key)) && before.Keys == IdsOf(Dealt(problems, left))
    ensures FairDeal(items, variants, before)
  {
    SelectIsUnique(problems, key);
    SameUnique(items, Select(problems, key));
    SameMembers(items, Select(problems, key));
    forall i | 0 <= i < |items| ensures items[i].id !in before {
      assert items[i] in items;
    }
  }

  lemma DealtIds(problems: seq<Problem>, left: set<Stratum>, key: Stratum, items: seq<Problem>)
    requires key in left && multiset(items) == multiset(Select(problems, key))
    ensures IdsOf(Dealt(problems, left - {key})) == IdsOf(Dealt(problems, left)) + set p | p in items :: p.id
  {
    SameMembers(items, Select(problems, key));
    assert Dealt(problems, left - {key}) == Dealt(problems, left) + Members(items);
  }

  /** The order in which the problems of a stratum are dealt. */
  function DealOrder(problems: seq<Problem>, key: Stratum, draws: nat -> nat): seq<Problem> {
    ShuffledBy(Select(problems, key), |Select(problems, key)|, draws)
  }

  /** The problems of a stratum got the variants in turn, in shuffled order. */
  ghost predicate DealtInTurn(problems: seq<Problem>, key: Stratum, draws: nat -> nat,
      assignment: map<string, string>, variants: seq<string>)
    requires |variants| == 2
  {
    var order := DealOrder(problems, key, draws);
    exists start: nat :: start < 2 && InTurn(order, |order|, start, assignment, variants)
  }

  lemma StillInTurn(problems: seq<Problem>, key: Stratum, draws: nat -> nat,
      assignment: map<string, string>, more: map<string, string>, variants: seq<string>)
    requires |variants| == 2 && DealtInTurn(problems, key, draws, assignment, variants)
    requires forall id :: id in assignment ==> id in more && more[id] == assignment[id]
    ensures DealtInTurn(problems, key, draws, more, variants)
  {
    var order := DealOrder(problems, key, draws);
    var start: nat :| start < 2 && InTurn(order, |order|, start, assignment, variants);
    assert InTurn(order, |order|, start, more, variants);
  }

  method Shuffled(items: seq<Problem>, draws: nat -> nat) returns (shuffled: seq<Problem>)
    ensures shuffled == ShuffledBy(items, |items|, draws)
    ensures multiset(shuffled) == multiset(items)
  {
    var a := new Problem[|items|](i requires 0 <= i < |items| => items[i]);
    assert a[..] == items;
    Shuffle(a, draws);
    shuffled := a[..];
  }

  /** One turn of the loop over strata: shuffle, let an odd one start where the last odd one left off, deal. */
  method DealStratum(ghost problems: seq<Problem>, ghost left: set<Stratum>, key: Stratum, group: seq<Problem>,
      variants: seq<string>,
                     draws: nat -> nat, assignment: map<string, string>, nextExtra: nat) returns (next: map<string, string>, extra: nat)
    requires |variants| == 2 && nextExtra <= 1 && key in left && group == Select(problems, key)
    requires assignment.Keys == IdsOf(Dealt(problems, left))
    ensures extra <= 1 && next.Keys == IdsOf(Dealt(problems, left - {key}))
    ensures forall id :: id in next ==> next[id] in variants || (id in assignment && next[id] == assignment[id])
    ensures UniqueIds(problems) && variants[0] != variants[1] && Fair(problems, left, assignment, variants, nextExtra) ==>
      && Fair(problems, left - {key}, next, variants, extra)
      && DealtInTurn(problems, key, draws, next, variants)
      && forall id :: id in assignment ==> id in next && next[id] == assignment[id]
  {
    hide Fair, UniqueIds, Select, IdsOf, Dealt, Lead, FairDeal, InTurn, ShuffledBy;
    var items := Shuffled(group, draws);
    var start := 0;
    extra := nextExtra;
    if |items| % 2 == 1 {
      start := nextExtra;
      extra := 1 - nextExtra;
    }
    next := Deal(items, start, variants, assignment);
    DealtIds(problems, left, key, items);
    if UniqueIds(problems) && variants[0] != variants[1] && Fair(problems, left, assignment, variants, nextExtra) {
      NewItems(problems, left, key, items, assignment, variants);
      assert (forall id :: id in assignment ==> next[id] == assignment[id]);
      assert InTurn(DealOrder(problems, key, draws), |items|, start, next, variants);
      FairStep(problems, left, key, items, assignment, next, variants, nextExtra);
    }
  }

  /**
   * Every problem gets one of the variants, for any stream of draws.  The strata may come in any order; the
   * code sorts them.
   */
  method StratifiedAssign(problems: seq<Problem>, variants: seq<string>, draws: Stratum -> (nat -> nat))
    returns (result: Option<map<string, string>>)
    ensures result.None? <==> |variants| != 2
    ensures result.Some? ==>
      && result.value.Keys == IdsOf(Members(problems))
      && (forall id :: id in result.value ==> result.value[id] in variants)
      && (UniqueIds(problems) && variants[0] != variants[1] ==>
            && Balanced(problems, result.value, variants)
            && forall key :: key in StrataOf(problems) ==>
                 DealtInTurn(problems, key, draws(key), result.value, variants))
  {
    if |variants| != 2 {
      return None;
    }
    hide Fair, UniqueIds, Select, IdsOf, Dealt, Lead, FairDeal, Balanced, DealtInTurn, StrataOf;
    var groups := Group(problems);
    var assignment: map<string, string> := map[];
    var nextExtra := 0;
    var left := groups.Keys;
    FairStart(problems, left, variants);
    while left != {}
      invariant left <= groups.Keys && nextExtra <= 1
      invariant assignment.Keys == IdsOf(Dealt(problems, left))
      invariant forall id :: id in assignment ==> assignment[id] in variants
      invariant UniqueIds(problems) && variants[0] != variants[1] ==>
        && Fair(problems, left, assignment, variants, nextExtra)
        && forall key :: key in groups.Keys - left ==> DealtInTurn(problems, key, draws(key), assignment, variants)
      decreases |left|
    {
      ghost var before := assignment;
      var key :| key in left;
      assignment, nextExtra := DealStratum(problems, left, key, groups[key], variants, draws(key), assignment, nextExtra);
      left := left - {key};
      if UniqueIds(problems) && variants[0] != variants[1] {
        forall k | k in groups.Keys - left ensures DealtInTurn(problems, k, draws(k), assignment, variants) {
          if k != key {
            StillInTurn(problems, k, draws(k), before, assignment, variants);
          }
        }
      }
    }
    AllDealt(problems, assignment, variants);
    return Some(assignment);
  }

  lemma AllDealt(problems: seq<Problem>, assignment: map<string, string>, variants: seq<string>)
    requires |variants| == 2
    ensures Dealt(problems, {}) == Members(problems)
    ensures forall nextExtra :: Fair(problems, {}, assignment, variants, nextExtra) ==> Balanced(problems, assignment, variants)
  {
  }

  // -- The checks of `run` ---------------------------------------------------

  datatype Plan = WrongVariants | DuplicateIds | OneVariantUnused | Planned(assignment: map<string, string>)

  /** The assignment of a test and the two checks made on it. */
  method PlanTest(problems: seq<Problem>, variants: seq<string>, draws: Stratum -> (nat -> nat)) returns (plan: Plan)
    requires |variants| == 2 ==> variants[0] != variants[1]
    ensures plan.WrongVariants? <==> |variants| != 2
    ensures plan.DuplicateIds? <==> |variants| == 2 && !UniqueIds(problems)
    ensures plan.OneVariantUnused? <==> |variants| == 2 && UniqueIds(problems) && |problems| < 2
    ensures plan.Planned? ==>
      plan.assignment.Keys == IdsOf(Members(problems)) && plan.assignment.Values == {variants[0], variants[1]}
      && Balanced(problems, plan.assignment, variants)
      && forall key :: key in StrataOf(problems) ==> DealtInTurn(problems, key, draws(key), plan.assignment, variants)
  {
    var result := StratifiedAssign(problems, variants, draws);
    if result.None? {
      return WrongVariants;
    }
    var assignment := result.value;
    UniqueByCount(problems);
    assert |assignment| == |assignment.Keys|;
    if |assignment| != |problems| {
      return DuplicateIds;
    }
    VariantsUsed(problems, assignment, variants);
    if |assignment.Values| != 2 {
      return OneVariantUnused;
    }
    return Planned(assignment);
  }

  /** Ids are unique exactly if there are as many as problems. */
  lemma {:induction false} UniqueByCount(problems: seq<Problem>)
    ensures |IdsOf(Members(problems))| <= |problems|
    ensures UniqueIds(problems) <==> |IdsOf(Members(problems))| == |problems|
  {
    if problems == [] {
      assert IdsOf(Members(problems)) == {};
    } else {
      var n := |problems| - 1;
      UniqueByCount(problems[..n]);
      OneMoreId(problems);
    }
  }

  lemma OneMoreId(problems: seq<Problem>)
    requires problems != []
    ensures var front, last := problems[..|problems| - 1], problems[|problems| - 1];
      && IdsOf(Members(problems)) == IdsOf(Members(front)) + {last.id}
      && (UniqueIds(problems) <==> UniqueIds(front) && last.id !in IdsOf(Members(front)))
  {
    var n := |problems| - 1;
    var front, last := problems[..n], problems[n];
    assert Members(problems) == Members(front) + {last} by {
      assert forall p :: p in problems <==> p in front || p == last;
    }
    assert last.id in IdsOf(Members(front)) <==> exists i :: 0 <= i < n && problems[i].id == last.id by {
      if last.id in IdsOf(Members(front)) {
        var p :| p in Members(front) && p.id == last.id;
        var i :| 0 <= i < n && front[i] == p;
        assert problems[i].id == last.id;
      }
      if i :| 0 <= i < n && problems[i].id == last.id {
        assert front[i] in Members(front);
      }
    }
  }

  /** Balance makes both variants appear as soon as there are two problems. */
  lemma VariantsUsed(problems: seq<Problem>, assignment: map<string, string>, variants: seq<string>)
    requires |variants| == 2 && variants[0] != variants[1] && UniqueIds(problems)
    requires assignment.Keys == IdsOf(Members(problems)) && forall id :: id in assignment ==> assignment[id] in variants
    requires Balanced(problems, assignment, variants)
    ensures |assignment.Values| == 2 <==> |problems| >= 2
    ensures |assignment.Values| == 2 ==> assignment.Values == {variants[0], variants[1]}
  {
    GivenSplits(problems, assignment, variants);
    GivenIsUsed(problems, assignment, variants[0]);
    GivenIsUsed(problems, assignment, variants[1]);
    hide UniqueIds, Given, IdsOf, Members;
    assert assignment.Values <= {variants[0], variants[1]};
    TwoValues(assignment.Values, variants[0], variants[1]);
  }

  lemma TwoValues(s: set<string>, x: string, y: string)
    requires x != y && s <= {x, y}
    ensures |s| == 2 <==> x in s && y in s
    ensures |s| == 2 ==> s == {x, y}
  {
    if x in s && y in s {
      assert s == {x, y};
    } else if x in s {
      assert s == {x};
    } else if y in s {
      assert s == {y};
    } else {
      assert s == {};
    }
  }

  lemma GivenSplits(problems: seq<Problem>, assignment: map<string, string>, variants: seq<string>)
    requires |variants| == 2 && variants[0] != variants[1] && UniqueIds(problems)
    requires assignment.Keys == IdsOf(Members(problems)) && forall id :: id in assignment ==> assignment[id] in variants
    ensures |problems| == |Given(Members(problems), assignment, variants[0])| + |Given(Members(problems), assignment, variants[1])|
  {
    var all := Members(problems);
    var first, second := Given(all, assignment, variants[0]), Given(all, assignment, variants[1]);
    forall p | p in all ensures p in first + second {
      assert p.id in IdsOf(all);
      assert assignment[p.id] in variants;
    }
    assert all == first + second && first !! second;
    MembersCount(problems);
  }

  lemma GivenIsUsed(problems: seq<Problem>, assignment: map<string, string>, v: string)
    requires assignment.Keys == IdsOf(Members(problems))
    ensures v in assignment.Values <==> |Given(Members(problems), assignment, v)| > 0
  {
    var given := Given(Members(problems), assignment, v);
    if v in assignment.Values {
      var id :| id in assignment && assignment[id] == v;
      var p :| p in Members(problems) && p.id == id;
      assert p in given;
    }
  }

  lemma {:induction false} MembersCount(problems: seq<Problem>)
    requires UniqueIds(problems)
    ensures |Members(problems)| == |problems|
  {
    if problems != [] {
      var n := |problems| - 1;
      MembersCount(problems[..n]);
      NextItem(problems, n);
      assert problems[..n + 1] == problems;
      assert problems[n] !in Members(problems[..n]);
    }
  }
}

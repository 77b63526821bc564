// The cross-model comparison of one strategy: each model's majority outcome per problem, the
// win/tie/loss matrix over all ordered pairs, and one test for each unordered pair.
module ModelComparison {
  import opened Models
  import opened Ordering
  import opened ExperimentReport

  // -- Majority over repeats -------------------------------------------------

  /** One stored result; a problem id that is not a string counts for nothing but its repeat. */
  datatype Result = Result(problem: Option<string>, success: bool)

  /** One combination of the model with the results stored for it. */
  datatype Combo = Combo(repetition: nat, results: seq<Result>)

  datatype Entry = Entry(repetition: nat, result: Result)

  function EntriesOf(c: Combo): (r: seq<Entry>)
    ensures |r| == |c.results| && forall i :: 0 <= i < |r| ==> r[i] == Entry(c.repetition, c.results[i])
  {
    seq(|c.results|, i requires 0 <= i < |c.results| => Entry(c.repetition, c.results[i]))
  }

  /** All results in the order they are read. */
  function Entries(combos: seq<Combo>): seq<Entry> {
    if combos == [] then [] else Entries(combos[..|combos| - 1]) + EntriesOf(combos[|combos| - 1])
  }

  function Repeats(entries: seq<Entry>): set<nat> {
    set e | e in entries :: e.repetition
  }

  /** The outcome that stands for a problem in a repeat: the last one read, and failure without one. */
  predicate Outcome(entries: seq<Entry>, repetition: nat, problem: string) {
    if entries == [] then false
    else
      var last := entries[|entries| - 1];
      if last.repetition == repetition && last.result.problem == Some(problem) then last.result.success
      else Outcome(entries[..|entries| - 1], repetition, problem)
  }

  function RepeatsSolving(entries: seq<Entry>, problem: string): set<nat> {
    set r | r in Repeats(entries) && Outcome(entries, r, problem)
  }

  /** The nested dicts hold the outcome of every problem in every repeat that has a result. */
  ghost predicate Holds(perRepeat: map<nat, map<string, bool>>, entries: seq<Entry>) {
    && perRepeat.Keys == Repeats(entries)
    && (forall r, p: string :: r in perRepeat ==> (p in perRepeat[r] && perRepeat[r][p] <==> Outcome(entries, r, p)))
  }

  function WithResult(perRepeat: map<nat, map<string, bool>>, e: Entry): map<nat, map<string, bool>> {
    var record := if e.repetition in perRepeat then perRepeat[e.repetition] else map[];
    var next := if e.result.problem.Some? then record[e.result.problem.value := e.result.success] else record;
    perRepeat[e.repetition := next]
  }

  lemma {:induction false} NoOutcome(entries: seq<Entry>, r: nat, p: string)
    requires r !in Repeats(entries)
    ensures !Outcome(entries, r, p)
  {
    if entries != [] {
      var front := entries[..|entries| - 1];
      assert entries[|entries| - 1] in entries;
      assert forall e :: e in front ==> e in entries;
      NoOutcome(front, r, p);
    }
  }

  lemma WithResultHolds(perRepeat: map<nat, map<string, bool>>, entries: seq<Entry>, e: Entry)
    requires Holds(perRepeat, entries)
    ensures Holds(WithResult(perRepeat, e), entries + [e])
  {
    var all, noted := entries + [e], WithResult(perRepeat, e);
    assert all[..|all| - 1] == entries;
    assert Repeats(all) == Repeats(entries) + {e.repetition} by {
      assert forall x :: x in all <==> x in entries || x == e;
    }
    forall r, p: string | r in noted ensures p in noted[r] && noted[r][p] <==> Outcome(all, r, p) {
      if r !in perRepeat {
        NoOutcome(entries, r, p);
      }
    }
  }

  /** Result number `k` is about this problem in this repeat. */
  predicate IsAbout(entries: seq<Entry>, k: nat, repetition: nat, problem: string) {
    k < |entries| && entries[k].repetition == repetition && entries[k].result.problem == Some(problem)
  }

  /** What stands for a problem in a repeat is the last result read about it: solved exactly if that one is a success. */
  lemma {:induction false} LastResultStands(entries: seq<Entry>, repetition: nat, problem: string)
    ensures Outcome(entries, repetition, problem) <==>
      exists k: nat ::
        && IsAbout(entries, k, repetition, problem) && entries[k].result.success
        && forall later: nat :: IsAbout(entries, later, repetition, problem) ==> later <= k
  {
    if entries != [] {
      var n := |entries| - 1;
      var front := entries[..n];
      LastResultStands(front, repetition, problem);
      assert forall k: nat :: k < n ==>
        IsAbout(entries, k, repetition, problem) == IsAbout(front, k, repetition, problem);
      if IsAbout(entries, n, repetition, problem) {
        assert Outcome(entries, repetition, problem) == entries[n].result.success;
      }
    }
  }

  /** Results are read combination by combination, each in its own order. */
  lemma {:induction false} ReadInOrder(a: seq<Combo>, b: seq<Combo>, c: Combo)
    ensures Entries(a + b) == Entries(a) + Entries(b)
    ensures Entries([c]) == EntriesOf(c)
    decreases |b|
  {
    assert [c][..0] == [];
    if b == [] {
      assert a + b == a;
    } else {
      assert (a + b)[..|a + b| - 1] == a + b[..|b| - 1];
      ReadInOrder(a, b[..|b| - 1], c);
    }
  }

  /** A problem is solved when strictly more than half of the repeats with results ended in success on it. */
  method MajoritySolved(problems: seq<string>, combos: seq<Combo>) returns (solved: map<string, bool>)
    ensures solved.Keys == set p | p in problems
    ensures forall p :: p in problems ==>
      (solved[p] <==> 2 * |RepeatsSolving(Entries(combos), p)| > |Repeats(Entries(combos))|)
  {
    var perRepeat := CollectOutcomes(combos);
    solved := map[];
    for i := 0 to |problems|
      invariant solved.Keys == set p | p in problems[..i]
      invariant forall p :: p in problems[..i] ==>
        (solved[p] <==> 2 * |RepeatsSolving(Entries(combos), p)| > |Repeats(Entries(combos))|)
    {
      assert forall p :: p in problems[..i + 1] <==> p in problems[..i] || p == problems[i];
      var count := CountSolving(perRepeat, problems[i], Entries(combos));
      solved := solved[problems[i] := 2 * count > |perRepeat|];
      assert |perRepeat| == |perRepeat.Keys|;
    }
    assert problems[..|problems|] == problems;
  }

  /** The nested dicts of outcomes, filled result by result. */
  method CollectOutcomes(combos: seq<Combo>) returns (perRepeat: map<nat, map<string, bool>>)
    ensures Holds(perRepeat, Entries(combos))
  {
    hide Holds, WithResult;
    perRepeat := map[];
    assert Holds(perRepeat, []) by { HoldsNothing(); }
    for i := 0 to |combos|
      invariant Holds(perRepeat, Entries(combos[..i]))
    {
      var c := combos[i];
      ghost var before := Entries(combos[..i]);
      assert before + EntriesOf(c)[..0] == before;
      for j := 0 to |c.results|
        invariant Holds(perRepeat, before + EntriesOf(c)[..j])
      {
        var e := Entry(c.repetition, c.results[j]);
        WithResultHolds(perRepeat, before + EntriesOf(c)[..j], e);
        assert before + EntriesOf(c)[..j] + [e] == before + EntriesOf(c)[..j + 1];
        perRepeat := WithResult(perRepeat, e);
      }
      assert EntriesOf(c)[..|c.results|] == EntriesOf(c);
      assert combos[..i + 1][..i] == combos[..i];
    }
    assert combos[..|combos|] == combos;
  }

  lemma HoldsNothing()
    ensures Holds(map[], [])
  {
  }

  method CountSolving(perRepeat: map<nat, map<string, bool>>, problem: string, ghost entries: seq<Entry>)
    returns (count: nat)
    requires Holds(perRepeat, entries)
    ensures count == |RepeatsSolving(entries, problem)|
  {
    count := 0;
    var left := perRepeat.Keys;
    ghost var found := {};
    while left != {}
      invariant left <= perRepeat.Keys && count == |found|
      invariant found == set r | r in RepeatsSolving(entries, problem) && r !in left
      decreases |left|
    {
      var r :| r in left;
      left := left - {r};
      if problem in perRepeat[r] && perRepeat[r][problem] {
        count := count + 1;
        found := found + {r};
      }
    }
    assert found == RepeatsSolving(entries, problem);
  }

  // -- The matrix ------------------------------------------------------------

  /** What one model solved, and what each did. */
  type Outcomes = map<string, bool>

  type Table = map<string, Outcomes>

  datatype Cell = Cell(wins: nat, ties: nat, losses: nat, winRate: Option<real>)

  datatype Row = Row(model: string, solved: nat, against: map<string, Cell>)

  datatype Test = Test(a: string, b: string, annotation: Annotation)

  /** Every problem has an outcome. */
  predicate Decides(outcomes: Outcomes, problems: seq<string>) {
    forall p :: p in problems ==> p in outcomes
  }

  /** Problems solved by the first and not by the second. */
  function OnlyFirst(a: Outcomes, b: Outcomes, problems: seq<string>): nat
    requires Decides(a, problems) && Decides(b, problems)
  {
    if problems == [] then 0
    else
      var n := |problems| - 1;
      assert problems[n] in problems && forall p :: p in problems[..n] ==> p in problems;
      OnlyFirst(a, b, problems[..n]) + if a[problems[n]] && !b[problems[n]] then 1 else 0
  }

  lemma {:induction false} OnlyFirstCounts(a: Outcomes, b: Outcomes, problems: seq<string>)
    requires Decides(a, problems) && Decides(b, problems)
    ensures OnlyFirst(a, b, problems) == |set i | 0 <= i < |problems| && a[problems[i]] && !b[problems[i]]|
  {
    var all := set i | 0 <= i < |problems| && a[problems[i]] && !b[problems[i]];
    if problems != [] {
      var n := |problems| - 1;
      assert forall p :: p in problems[..n] ==> p in problems;
      OnlyFirstCounts(a, b, problems[..n]);
      var front := set i | 0 <= i < n && a[problems[..n][i]] && !b[problems[..n][i]];
      assert all == if a[problems[n]] && !b[problems[n]] then front + {n} else front;
    }
  }

  function Solves(a: Outcomes, problems: seq<string>): nat
    requires Decides(a, problems)
  {
    if problems == [] then 0
    else
      var n := |problems| - 1;
      assert problems[n] in problems && forall p :: p in problems[..n] ==> p in problems;
      Solves(a, problems[..n]) + if a[problems[n]] then 1 else 0
  }

  /** Wins exceed losses by as much as the first model solves more problems. */
  lemma {:induction false} WinsMinusLosses(a: Outcomes, b: Outcomes, problems: seq<string>)
    requires Decides(a, problems) && Decides(b, problems)
    ensures OnlyFirst(a, b, problems) - OnlyFirst(b, a, problems) == Solves(a, problems) - Solves(b, problems)
    ensures OnlyFirst(a, b, problems) + OnlyFirst(b, a, problems) <= |problems|
  {
    if problems != [] {
      assert forall p :: p in problems[..|problems| - 1] ==> p in problems;
      WinsMinusLosses(a, b, problems[..|problems| - 1]);
    }
  }

  ghost predicate IsCell(c: Cell, a: Outcomes, b: Outcomes, problems: seq<string>)
    requires Decides(a, problems) && Decides(b, problems)
  {
    && c.wins == OnlyFirst(a, b, problems) && c.losses == OnlyFirst(b, a, problems)
    && c.wins + c.ties + c.losses == |problems|
    && c.winRate == if problems == [] then None else Some(c.wins as real / |problems| as real)
  }

  /** One cell, problem by problem. */
  method Compare(a: Outcomes, b: Outcomes, problems: seq<string>) returns (c: Cell)
    requires Decides(a, problems) && Decides(b, problems)
    ensures IsCell(c, a, b, problems)
  {
    var wins, ties, losses := 0, 0, 0;
    for i := 0 to |problems|
      invariant Decides(a, problems[..i]) && Decides(b, problems[..i])
      invariant wins == OnlyFirst(a, b, problems[..i]) && losses == OnlyFirst(b, a, problems[..i])
      invariant wins + ties + losses == i
    {
      assert problems[..i + 1][..i] == problems[..i];
      var solvedA, solvedB := a[problems[i]], b[problems[i]];
      if solvedA && !solvedB {
        wins := wins + 1;
      } else if solvedB && !solvedA {
        losses := losses + 1;
      } else {
        ties := ties + 1;
      }
    }
    assert problems[..|problems|] == problems;
    var total := wins + ties + losses;
    c := Cell(wins, ties, losses, if total > 0 then Some(wins as real / total as real) else None);
  }

  predicate Less(a: string, b: string) {
    a != b && StringLeq(a, b)
  }

  ghost predicate Increasing(models: seq<string>) {
    forall i, j :: 0 <= i < j < |models| ==> Less(models[i], models[j])
  }

  ghost predicate AllDecide(models: seq<string>, solved: Table, problems: seq<string>) {
    forall m :: m in models ==> m in solved && Decides(solved[m], problems)
  }

  /** The cells of model `a` against the first `n` models. */
  ghost predicate IsRow(against: map<string, Cell>, a: string, models: seq<string>, solved: Table,
      problems: seq<string>)
    requires a in solved && Decides(solved[a], problems) && AllDecide(models, solved, problems)
  {
    && against.Keys == (set m | m in models && m != a)
    && forall b :: b in against ==> IsCell(against[b], solved[a], solved[b], problems)
  }

  function TestOf(a: Outcomes, b: Outcomes, problems: seq<string>): Annotation
    requires Decides(a, problems) && Decides(b, problems)
  {
    McNemar(OnlyFirst(a, b, problems), OnlyFirst(b, a, problems))
  }

  /** The tests that model `a` opens against the later ones among `models`, in order. */
  function TestsOf(a: string, models: seq<string>, solved: Table, problems: seq<string>): seq<Test>
    requires a in solved && Decides(solved[a], problems)
    requires forall m :: m in models ==> m in solved && Decides(solved[m], problems)
  {
    if models == [] then []
    else
      var n := |models| - 1;
      assert models[n] in models && forall m :: m in models[..n] ==> m in models;
      var b := models[n];
      TestsOf(a, models[..n], solved, problems)
      + if Less(a, b) then [Test(a, b, TestOf(solved[a], solved[b], problems))] else []
  }

  method BuildRow(a: string, models: seq<string>, solved: Table, problems: seq<string>)
    returns (against: map<string, Cell>, tests: seq<Test>)
    requires a in solved && Decides(solved[a], problems) && AllDecide(models, solved, problems)
    ensures IsRow(against, a, models, solved, problems)
    ensures tests == TestsOf(a, models, solved, problems)
  {
    against, tests := map[], [];
    for j := 0 to |models|
      invariant AllDecide(models[..j], solved, problems)
      invariant IsRow(against, a, models[..j], solved, problems)
      invariant tests == TestsOf(a, models[..j], solved, problems)
    {
      assert models[..j + 1][..j] == models[..j];
      var b := models[j];
      if a != b {
        var cell := Compare(solved[a], solved[b], problems);
        against := against[b := cell];
        if Less(a, b) {
          tests := tests + [Test(a, b, McNemar(cell.wins, cell.losses))];
        }
      }
    }
    assert models[..|models|] == models;
  }

  function Trues(outcomes: Outcomes): set<string> {
    set p | p in outcomes && outcomes[p]
  }

  ghost predicate IsMatrix(rows: seq<Row>, models: seq<string>, solved: Table, problems: seq<string>)
    requires AllDecide(models, solved, problems)
  {
    && |rows| == |models|
    && forall i :: 0 <= i < |rows| ==>
         && rows[i].model == models[i] && models[i] in models
         && rows[i].solved == |Trues(solved[models[i]])|
         && IsRow(rows[i].against, models[i], models, solved, problems)
  }

  /** The tests of the first `n` models as first member. */
  function TestsUpTo(n: nat, models: seq<string>, solved: Table, problems: seq<string>): seq<Test>
    requires n <= |models| && forall m :: m in models ==> m in solved && Decides(solved[m], problems)
  {
    if n == 0 then []
    else TestsUpTo(n - 1, models, solved, problems) + TestsOf(models[n - 1], models, solved, problems)
  }

  /** The comparison of all models of one strategy, `models` being sorted names. */
  method BuildMatrix(models: seq<string>, solved: Table, problems: seq<string>)
    returns (rows: seq<Row>, tests: seq<Test>)
    requires Increasing(models) && AllDecide(models, solved, problems)
    ensures IsMatrix(rows, models, solved, problems)
    ensures tests == TestsUpTo(|models|, models, solved, problems)
  {
    rows, tests := [], [];
    for i := 0 to |models|
      invariant |rows| == i && tests == TestsUpTo(i, models, solved, problems)
      invariant forall k :: 0 <= k < i ==>
        && rows[k].model == models[k] && models[k] in models
        && rows[k].solved == |Trues(solved[models[k]])|
        && IsRow(rows[k].against, models[k], models, solved, problems)
    {
      var against, more := BuildRow(models[i], models, solved, problems);
      rows := rows + [Row(models[i], |Trues(solved[models[i]])|, against)];
      tests := tests + more;
    }
  }

  // -- What the matrix and the tests say -------------------------------------

  ghost predicate Distinct(problems: seq<string>) {
    forall i, j :: 0 <= i < j < |problems| ==> problems[i] != problems[j]
  }

  function SolvedOf(a: Outcomes, problems: seq<string>): set<string> {
    set p | p in problems && p in a && a[p]
  }

  lemma {:induction false} SolvesCountsTrues(a: Outcomes, problems: seq<string>)
    requires Decides(a, problems) && Distinct(problems)
    ensures Solves(a, problems) == |SolvedOf(a, problems)|
  {
    if problems == [] {
      assert SolvedOf(a, problems) == {};
    } else {
      OneMoreProblem(a, problems);
      hide SolvedOf, Distinct;
      SolvesCountsTrues(a, problems[..|problems| - 1]);
    }
  }

  lemma OneMoreProblem(a: Outcomes, problems: seq<string>)
    requires Decides(a, problems) && Distinct(problems) && problems != []
    ensures var front, last := problems[..|problems| - 1], problems[|problems| - 1];
      && Decides(a, front) && Distinct(front) && last in a
      && |SolvedOf(a, problems)| == |SolvedOf(a, front)| + if a[last] then 1 else 0
  {
    var front, last := problems[..|problems| - 1], problems[|problems| - 1];
    assert forall p :: p in problems <==> p in front || p == last;
    assert last !in front;
    hide Distinct;
    assert SolvedOf(a, problems) == if a[last] then SolvedOf(a, front) + {last} else SolvedOf(a, front);
  }

  lemma NamesDiffer(models: seq<string>, i: nat, j: nat)
    requires Increasing(models) && i < |models| && j < |models| && i != j
    ensures models[i] != models[j]
  {
    assert i < j || j < i;
  }

  /** The matrix is its own mirror: what one model wins the other loses, and ties agree. */
  lemma MatrixMirrors(rows: seq<Row>, models: seq<string>, solved: Table, problems: seq<string>, i: nat, j: nat)
    requires AllDecide(models, solved, problems) && Increasing(models)
    requires IsMatrix(rows, models, solved, problems) && i < |rows| && j < |rows| && i != j
    ensures models[j] in rows[i].against && models[i] in rows[j].against
    ensures var c, d := rows[i].against[models[j]], rows[j].against[models[i]];
      && c.wins == d.losses && c.ties == d.ties && c.losses == d.wins
      && c.wins + c.ties + c.losses == |problems|
  {
    NamesDiffer(models, i, j);
    hide Increasing, Less, OnlyFirst, Trues, Decides;
    assert models[i] in models && models[j] in models;
    var c, d := rows[i].against[models[j]], rows[j].against[models[i]];
    assert IsCell(c, solved[models[i]], solved[models[j]], problems);
    assert IsCell(d, solved[models[j]], solved[models[i]], problems);
  }

  /** Each cell accounts for the difference of the two solved counts. */
  lemma CellsExplainSolved(rows: seq<Row>, models: seq<string>, solved: Table, problems: seq<string>, i: nat, j: nat)
    requires AllDecide(models, solved, problems) && Increasing(models) && Distinct(problems)
    requires forall m :: m in models ==> solved[m].Keys == set p | p in problems
    requires IsMatrix(rows, models, solved, problems) && i < |rows| && j < |rows| && i != j
    ensures models[j] in rows[i].against
    ensures rows[i].against[models[j]].wins - rows[i].against[models[j]].losses == rows[i].solved - rows[j].solved
  {
    MatrixMirrors(rows, models, solved, problems, i, j);
    var a, b := solved[models[i]], solved[models[j]];
    assert models[i] in models && models[j] in models;
    assert IsCell(rows[i].against[models[j]], a, b, problems);
    WinsMinusLosses(a, b, problems);
    TruesAreSolved(a, problems);
    TruesAreSolved(b, problems);
    hide Solves, OnlyFirst, Trues, Increasing, Distinct, Less, Decides, AllDecide;
  }

  lemma TruesAreSolved(a: Outcomes, problems: seq<string>)
    requires Distinct(problems) && a.Keys == set p | p in problems
    ensures Decides(a, problems) && |Trues(a)| == Solves(a, problems)
  {
    SolvesCountsTrues(a, problems);
    assert Trues(a) == SolvedOf(a, problems);
  }

  /** How many tests compare `a` with `b`, in this order. */
  function TestCount(tests: seq<Test>, a: string, b: string): nat {
    if tests == [] then 0
    else
      var n := |tests| - 1;
      TestCount(tests[..n], a, b) + if tests[n].a == a && tests[n].b == b then 1 else 0
  }

  lemma {:induction false} TestCountAppend(x: seq<Test>, y: seq<Test>, a: string, b: string)
    ensures TestCount(x + y, a, b) == TestCount(x, a, b) + TestCount(y, a, b)
  {
    if y == [] {
      assert x + y == x;
    } else {
      assert (x + y)[..|x + y| - 1] == x + y[..|y| - 1];
      TestCountAppend(x, y[..|y| - 1], a, b);
    }
  }

  lemma {:induction false} TestsOfCount(x: string, models: seq<string>, solved: Table, problems: seq<string>,
      a: string, b: string)
    requires x in solved && Decides(solved[x], problems) && AllDecide(models, solved, problems) && Increasing(models)
    ensures TestCount(TestsOf(x, models, solved, problems), a, b) ==
      if x == a && b in models && Less(a, b) then 1 else 0
  {
    hide Less, McNemar, OnlyFirst, Decides;
    if models != [] {
      var n := |models| - 1;
      var front, last := models[..n], models[n];
      assert forall m :: m in models <==> m in front || m == last;
      assert last !in front by { LastIsNew(models); }
      TestsOfCount(x, front, solved, problems, a, b);
      NextTest(x, models, solved, problems, a, b);
    }
  }

  lemma LastIsNew(models: seq<string>)
    requires Increasing(models) && models != []
    ensures models[|models| - 1] !in models[..|models| - 1]
  {
  }

  lemma NextTest(x: string, models: seq<string>, solved: Table, problems: seq<string>, a: string, b: string)
    requires models != [] && x in solved && Decides(solved[x], problems) && AllDecide(models, solved, problems)
    ensures AllDecide(models[..|models| - 1], solved, problems)
    ensures TestCount(TestsOf(x, models, solved, problems), a, b) ==
      TestCount(TestsOf(x, models[..|models| - 1], solved, problems), a, b)
      + if x == a && models[|models| - 1] == b && Less(x, b) then 1 else 0
  {
    hide Less, McNemar, OnlyFirst, Decides;
    var n := |models| - 1;
    var before, now := TestsOf(x, models[..n], solved, problems), TestsOf(x, models, solved, problems);
    if Less(x, models[n]) {
      assert now[..|now| - 1] == before;
    } else {
      assert now == before;
    }
  }

  lemma {:induction false} TestsUpToCount(n: nat, models: seq<string>, solved: Table, problems: seq<string>,
      a: string, b: string)
    requires n <= |models| && AllDecide(models, solved, problems) && Increasing(models)
    ensures TestCount(TestsUpTo(n, models, solved, problems), a, b) ==
      if a in models[..n] && b in models && Less(a, b) then 1 else 0
  {
    hide Less, McNemar, OnlyFirst, Decides, TestCount, TestsOf;
    if n == 0 {
      assert TestCount([], a, b) == 0 by { NoTests(a, b); }
    } else {
      var last := models[n - 1];
      assert last in models;
      TestsUpToCount(n - 1, models, solved, problems, a, b);
      TestsOfCount(last, models, solved, problems, a, b);
      TestCountAppend(TestsUpTo(n - 1, models, solved, problems), TestsOf(last, models, solved, problems), a, b);
      assert models[..n] == models[..n - 1] + [last];
      assert last !in models[..n - 1] by {
        LastIsNew(models[..n]);
        assert models[..n][..n - 1] == models[..n - 1];
      }
    }
  }

  lemma NoTests(a: string, b: string)
    ensures TestCount([], a, b) == 0
  {
  }

  /** Every unordered pair of models is tested exactly once, under the smaller name first. */
  lemma OneTestPerPair(models: seq<string>, solved: Table, problems: seq<string>, a: string, b: string)
    requires AllDecide(models, solved, problems) && Increasing(models) && a != b
    ensures var tests := TestsUpTo(|models|, models, solved, problems);
      TestCount(tests, a, b) + TestCount(tests, b, a) == (if a in models && b in models then 1 else 0)
    ensures !StringLeq(a, b) ==> TestCount(TestsUpTo(|models|, models, solved, problems), a, b) == 0
  {
    TestsUpToCount(|models|, models, solved, problems, a, b);
    TestsUpToCount(|models|, models, solved, problems, b, a);
    assert models[..|models|] == models;
    StringTotal(a, b);
  }

  /** And its annotation is the test of the two counts in its cell. */
  lemma {:induction false} TestsAnnotateCells(x: string, models: seq<string>, solved: Table,
      problems: seq<string>, t: Test)
    requires x in solved && Decides(solved[x], problems) && AllDecide(models, solved, problems)
    requires t in TestsOf(x, models, solved, problems)
    ensures t.a == x && t.b in models
    ensures t.annotation == McNemar(OnlyFirst(solved[x], solved[t.b], problems),
                                    OnlyFirst(solved[t.b], solved[x], problems))
  {
    hide Less, McNemar, OnlyFirst, Decides;
    var front := models[..|models| - 1];
    assert forall m :: m in front ==> m in models;
    assert models[|models| - 1] in models;
    if t in TestsOf(x, front, solved, problems) {
      TestsAnnotateCells(x, front, solved, problems, t);
    }
  }
}

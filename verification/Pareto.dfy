// Cost and accuracy trade-offs: dominance, the sorted frontier, the best-value pick and the
// choice for a budget, each made from the frontier only.
module Pareto {
  import opened Models
  import opened Ordering

  /** One combination variant: mean cost per run and mean success rate over its repeats. */
  datatype Point = Point(id: string, cost: real, accuracy: real)

  predicate Dominates(other: Point, p: Point) {
    && other.cost <= p.cost && other.accuracy >= p.accuracy
    && (other.cost < p.cost || other.accuracy > p.accuracy)
  }

  /** The points of `points` that dominate `p`, in their order. */
  function Dominators(p: Point, points: seq<Point>): (r: seq<Point>)
    ensures forall o :: o in r <==> o in points && Dominates(o, p)
  {
    if points == [] then []
    else
      var n := |points| - 1;
      assert points == points[..n] + [points[n]];
      Dominators(p, points[..n]) + if Dominates(points[n], p) then [points[n]] else []
  }

  /** Points of `from` that no point of `points` dominates. */
  function Optimal(from: seq<Point>, points: seq<Point>): (r: seq<Point>)
    ensures forall p :: p in r <==> p in from && Dominators(p, points) == []
    ensures |r| <= |from|
  {
    if from == [] then []
    else (if Dominators(from[0], points) == [] then [from[0]] else []) + Optimal(from[1..], points)
  }

  /** The sort key `(cost, -accuracy, id)`. */
  predicate KeyLeq(a: Point, b: Point) {
    || a.cost < b.cost
    || (a.cost == b.cost && a.accuracy > b.accuracy)
    || (a.cost == b.cost && a.accuracy == b.accuracy && StringLeq(a.id, b.id))
  }

  function Insert(p: Point, s: seq<Point>): seq<Point> {
    if s == [] || !KeyLeq(s[0], p) then [p] + s else [s[0]] + Insert(p, s[1..])
  }

  /** `sorted`: a stable sort by key. */
  function Sorted(s: seq<Point>): seq<Point> {
    if s == [] then [] else Insert(s[|s| - 1], Sorted(s[..|s| - 1]))
  }

  function Frontier(points: seq<Point>): seq<Point> {
    Sorted(Optimal(points, points))
  }

  // -- max -------------------------------------------------------------------

  /** `max(s, key=...)`, the first of the greatest; `less` compares keys. */
  function FirstMax(s: seq<Point>, less: (Point, Point) -> bool): (r: Point)
    requires s != []
    ensures r in s
  {
    if |s| == 1 then s[0]
    else
      var best := FirstMax(s[..|s| - 1], less);
      if less(best, s[|s| - 1]) then s[|s| - 1] else best
  }

  function Affordable(s: seq<Point>, budget: real): (r: seq<Point>)
    ensures forall p :: p in r <==> p in s && p.cost <= budget
  {
    if s == [] then []
    else (if s[0].cost <= budget then [s[0]] else []) + Affordable(s[1..], budget)
  }

  function Positive(s: seq<Point>, free: bool): (r: seq<Point>)
    ensures forall p :: p in r <==> p in s && p.accuracy > 0.0 && (free ==> p.cost == 0.0)
  {
    if s == [] then []
    else (if s[0].accuracy > 0.0 && (free ==> s[0].cost == 0.0) then [s[0]] else []) + Positive(s[1..], free)
  }

  predicate LessAccurate(a: Point, b: Point) {
    a.accuracy < b.accuracy || (a.accuracy == b.accuracy && a.cost > b.cost)
  }

  predicate LessFree(a: Point, b: Point) {
    a.accuracy < b.accuracy || (a.accuracy == b.accuracy && !StringLeq(b.id, a.id))
  }

  /** Accuracy per dollar; never asked of a point that costs nothing. */
  function Value(p: Point): real {
    if p.cost == 0.0 then 0.0 else p.accuracy / p.cost
  }

  predicate LessValue(a: Point, b: Point) {
    Value(a) < Value(b) || (Value(a) == Value(b) && LessAccurate(a, b))
  }

  /** The recommendation for one budget. */
  function Recommend(points: seq<Point>, budget: real): Option<Point> {
    var candidates := Affordable(Frontier(points), budget);
    if candidates == [] then None else Some(FirstMax(candidates, LessAccurate))
  }

  function BestValue(points: seq<Point>): Option<Point> {
    var free := Positive(Frontier(points), true);
    var positive := Positive(Frontier(points), false);
    if free != [] then Some(FirstMax(free, LessFree))
    else if positive != [] then Some(FirstMax(positive, LessValue))
    else None
  }

  // -- Sorting and maximum ---------------------------------------------------

  lemma KeyTotal(a: Point, b: Point)
    ensures KeyLeq(a, b) || KeyLeq(b, a)
    ensures KeyLeq(a, b) && KeyLeq(b, a) ==> a == b
  {
    StringTotal(a.id, b.id);
  }

  lemma KeyTransitive(a: Point, b: Point, c: Point)
    requires KeyLeq(a, b) && KeyLeq(b, c)
    ensures KeyLeq(a, c)
  {
    if StringLeq(a.id, b.id) && StringLeq(b.id, c.id) {
      StringTransitive(a.id, b.id, c.id);
    }
  }

  ghost predicate Ordered(s: seq<Point>) {
    forall i, j :: 0 <= i < j < |s| ==> KeyLeq(s[i], s[j])
  }

  lemma {:induction false} InsertKeepsOrder(p: Point, s: seq<Point>)
    requires Ordered(s)
    ensures Ordered(Insert(p, s)) && multiset(Insert(p, s)) == multiset(s) + multiset{p}
  {
    hide KeyLeq;
    if s == [] || !KeyLeq(s[0], p) {
      forall j | 0 <= j < |s| ensures KeyLeq(p, s[j]) {
        KeyTotal(s[0], p);
        if j > 0 {
          KeyTransitive(p, s[0], s[j]);
        }
      }
    } else {
      InsertKeepsOrder(p, s[1..]);
      var rest := Insert(p, s[1..]);
      assert s == [s[0]] + s[1..];
      forall j | 0 <= j < |rest| ensures KeyLeq(s[0], rest[j]) {
        assert rest[j] in multiset(rest);
        assert rest[j] == p || rest[j] in s[1..];
      }
    }
  }

  lemma {:induction false} SortedIsSorted(s: seq<Point>)
    ensures Ordered(Sorted(s)) && multiset(Sorted(s)) == multiset(s)
  {
    if s != [] {
      SortedIsSorted(s[..|s| - 1]);
      InsertKeepsOrder(s[|s| - 1], Sorted(s[..|s| - 1]));
      assert s == s[..|s| - 1] + [s[|s| - 1]];
    }
  }

  /** A point is on the frontier exactly if it is a point and no point dominates it; the list is in key order. */
  lemma FrontierMembers(points: seq<Point>)
    ensures Ordered(Frontier(points))
    ensures forall p :: p in Frontier(points) <==> p in points && forall o :: o in points ==> !Dominates(o, p)
  {
    hide Dominates, KeyLeq;
    var optimal, frontier := Optimal(points, points), Frontier(points);
    SortedIsSorted(optimal);
    forall p ensures p in frontier <==> p in points && forall o :: o in points ==> !Dominates(o, p) {
      assert p in frontier <==> p in multiset(frontier);
      assert p in optimal <==> p in multiset(optimal);
      NoDominators(p, points);
    }
  }

  lemma NoDominators(p: Point, points: seq<Point>)
    ensures Dominators(p, points) == [] <==> forall o :: o in points ==> !Dominates(o, p)
  {
    var ds := Dominators(p, points);
    if ds != [] {
      assert ds[0] in ds;
    }
  }

  /** `less` compares by a key from a total order. */
  ghost predicate Comparison(less: (Point, Point) -> bool) {
    && (forall a, b :: less(a, b) ==> !less(b, a))
    && (forall a, b, c :: !less(a, b) && !less(b, c) ==> !less(a, c))
  }

  lemma {:induction false} FirstMaxIsMax(s: seq<Point>, less: (Point, Point) -> bool)
    requires s != [] && Comparison(less)
    ensures forall p :: p in s ==> !less(FirstMax(s, less), p)
  {
    if |s| > 1 {
      var front, last := s[..|s| - 1], s[|s| - 1];
      FirstMaxIsMax(front, less);
      assert s == front + [last];
      var best := FirstMax(front, less);
      assert !less(last, last);
      forall p | p in front ensures !less(FirstMax(s, less), p) {
        assert !less(best, p);
      }
    }
  }

  lemma Comparisons()
    ensures Comparison(LessAccurate) && Comparison(LessValue) && Comparison(LessFree)
  {
    hide Value, StringLeq;
    forall a: Point, b: Point ensures LessFree(a, b) ==> !LessFree(b, a) {
      StringTotal(a.id, b.id);
    }
    forall a: Point, b: Point, c: Point | !LessFree(a, b) && !LessFree(b, c) ensures !LessFree(a, c) {
      if StringLeq(c.id, b.id) && StringLeq(b.id, a.id) {
        StringTransitive(c.id, b.id, a.id);
      }
    }
  }

  // -- Choosing from the frontier is enough ----------------------------------

  /** Every point is on the frontier or is dominated by a frontier point. */
  lemma {:induction false} FrontierCovers(points: seq<Point>, p: Point)
    requires p in points && p !in Frontier(points)
    ensures exists f :: f in Frontier(points) && Dominates(f, p)
    decreases |Above(points, p)|
  {
    hide Frontier;
    FrontierMembers(points);
    var o :| o in points && Dominates(o, p);
    if o !in Frontier(points) {
      AboveShrinks(points, o, p);
      FrontierCovers(points, o);
      var f :| f in Frontier(points) && Dominates(f, o);
      assert Dominates(f, p);
    }
  }

  lemma AboveShrinks(points: seq<Point>, o: Point, p: Point)
    requires o in points && Dominates(o, p)
    ensures |Above(points, o)| < |Above(points, p)|
  {
    assert o in Above(points, p) && o !in Above(points, o);
    SmallerSet(Above(points, o), Above(points, p));
  }

  function Above(points: seq<Point>, p: Point): set<Point> {
    set o | o in points && Dominates(o, p)
  }

  lemma SmallerSet<T>(a: set<T>, b: set<T>)
    requires a < b
    ensures |a| < |b|
  {
    var extra := b - a;
    assert b == a + extra && extra != {};
  }

  /** A frontier point that is at least as cheap and at least as accurate. */
  lemma Covered(points: seq<Point>, p: Point) returns (f: Point)
    requires p in points
    ensures f in Frontier(points) && f in points && f.cost <= p.cost && f.accuracy >= p.accuracy
  {
    FrontierMembers(points);
    f := p;
    if p !in Frontier(points) {
      FrontierCovers(points, p);
      f :| f in Frontier(points) && Dominates(f, p);
    }
  }

  /** Along the frontier, more cost always buys more accuracy; points that tie in both stand in id order. */
  lemma FrontierIsAStaircase(points: seq<Point>, i: nat, j: nat)
    requires i < j < |Frontier(points)|
    ensures var a, b := Frontier(points)[i], Frontier(points)[j];
      || (a.cost < b.cost && a.accuracy < b.accuracy)
      || (a.cost == b.cost && a.accuracy == b.accuracy && StringLeq(a.id, b.id))
  {
    FrontierMembers(points);
    var frontier := Frontier(points);
    hide Frontier, StringLeq;
    assert frontier[i] in frontier && frontier[j] in frontier;
    assert KeyLeq(frontier[i], frontier[j]) && !Dominates(frontier[i], frontier[j]);
  }

  /**
   * Choosing from the frontier is optimal over all points: some point is affordable exactly if one is
   * recommended, and that one has the greatest affordable accuracy and costs least among those.
   */
  lemma RecommendIsOptimal(points: seq<Point>, budget: real)
    ensures Recommend(points, budget).Some? <==> exists p :: p in points && p.cost <= budget
    ensures Recommend(points, budget).Some? ==>
      var chosen := Recommend(points, budget).value;
      && chosen in points && chosen.cost <= budget
      && forall p :: p in points && p.cost <= budget ==>
           p.accuracy < chosen.accuracy || (p.accuracy == chosen.accuracy && p.cost >= chosen.cost)
  {
    FrontierMembers(points);
    var candidates := Affordable(Frontier(points), budget);
    forall p | p in points && p.cost <= budget
      ensures candidates != []
      ensures var chosen := FirstMax(candidates, LessAccurate);
        p.accuracy < chosen.accuracy || (p.accuracy == chosen.accuracy && p.cost >= chosen.cost)
    {
      var f := Covered(points, p);
      assert f in candidates;
      Comparisons();
      FirstMaxIsMax(candidates, LessAccurate);
      assert !LessAccurate(FirstMax(candidates, LessAccurate), f);
    }
  }

  /** A larger budget never loses feasibility or accuracy. */
  lemma RecommendIsMonotone(points: seq<Point>, budget: real, larger: real)
    requires budget <= larger && Recommend(points, budget).Some?
    ensures Recommend(points, larger).Some?
    ensures Recommend(points, budget).value.accuracy <= Recommend(points, larger).value.accuracy
  {
    hide Recommend;
    RecommendIsOptimal(points, budget);
    RecommendIsOptimal(points, larger);
    assert Recommend(points, budget).value in points;
  }

  /** With no budgets given, the costs on the frontier are used, and each gets back a frontier point of that cost. */
  lemma DefaultBudgetsWalkTheFrontier(points: seq<Point>, f: Point)
    requires f in Frontier(points)
    ensures var chosen := Recommend(points, f.cost);
      chosen.Some? && chosen.value.cost == f.cost && chosen.value.accuracy == f.accuracy
  {
    FrontierMembers(points);
    RecommendIsOptimal(points, f.cost);
    hide Recommend, Frontier;
    assert f in points && f.cost <= f.cost;
    assert !Dominates(Recommend(points, f.cost).value, f);
  }

  lemma ValueGrows(better: Point, p: Point)
    requires 0.0 < better.cost <= p.cost && better.accuracy >= p.accuracy > 0.0
    ensures Value(better) >= Value(p)
  {
    assert p.accuracy / p.cost <= better.accuracy / p.cost;
    assert better.accuracy / p.cost <= better.accuracy / better.cost by { DivRight(better.accuracy, better.cost, p.cost); }
  }

  lemma DivRight(x: real, c: real, d: real)
    requires x >= 0.0 && 0.0 < c <= d
    ensures x / d <= x / c
  {
    assert (x / d) * d == x && (x / c) * c == x;
  }

  /**
   * The best-value pick: if some point solves anything for free, the most accurate free point; otherwise
   * the greatest accuracy per dollar over all points that solve anything; and none only if no point does.
   */
  lemma BestValueIsBest(points: seq<Point>)
    requires forall p :: p in points ==> p.cost >= 0.0
    ensures BestValue(points).Some? <==> exists p :: p in points && p.accuracy > 0.0
    ensures BestValue(points).Some? ==>
      var best := BestValue(points).value;
      && best in points && best.accuracy > 0.0
      && ((exists p :: p in points && p.accuracy > 0.0 && p.cost == 0.0) ==> best.cost == 0.0)
      && (forall p :: p in points && p.accuracy > 0.0 ==>
            if best.cost == 0.0 then p.cost == 0.0 ==> p.accuracy <= best.accuracy
            else p.cost > 0.0 && p.accuracy / p.cost <= best.accuracy / best.cost)
  {
    FrontierMembers(points);
    var free, positive := Positive(Frontier(points), true), Positive(Frontier(points), false);
    forall p | p in points && p.accuracy > 0.0
      ensures p.cost == 0.0 ==> free != [] && p.accuracy <= FirstMax(free, LessFree).accuracy
      ensures positive != []
      ensures free == [] ==> Value(p) <= Value(FirstMax(positive, LessValue))
    {
      BestValueCovers(points, free, positive, p);
    }
    if free != [] {
      assert FirstMax(free, LessFree) in free;
    } else if positive != [] {
      assert FirstMax(positive, LessValue) in positive && FirstMax(positive, LessValue) !in free;
    }
  }

  lemma BestValueCovers(points: seq<Point>, free: seq<Point>, positive: seq<Point>, p: Point)
    requires free == Positive(Frontier(points), true) && positive == Positive(Frontier(points), false)
    requires p in points && p.accuracy > 0.0 && forall q :: q in points ==> q.cost >= 0.0
    ensures p.cost == 0.0 ==> free != [] && p.accuracy <= FirstMax(free, LessFree).accuracy
    ensures positive != []
    ensures free == [] ==> Value(p) <= Value(FirstMax(positive, LessValue))
  {
    var f := Covered(points, p);
    assert f in positive;
    Comparisons();
    if p.cost == 0.0 {
      assert f in free;
      FirstMaxIsMax(free, LessFree);
      assert !LessFree(FirstMax(free, LessFree), f);
    }
    if free == [] {
      assert f.cost != 0.0;
      ValueGrows(f, p);
      FirstMaxIsMax(positive, LessValue);
      assert !LessValue(FirstMax(positive, LessValue), f);
    }
  }

  lemma {:induction false} FirstMaxIsFirst(s: seq<Point>, less: (Point, Point) -> bool) returns (i: nat)
    requires s != [] && Comparison(less)
    ensures i < |s| && s[i] == FirstMax(s, less)
    ensures forall j :: 0 <= j < i ==> less(s[j], s[i])
  {
    var n := |s| - 1;
    if n == 0 {
      i := 0;
    } else {
      i := FirstMaxIsFirst(s[..n], less);
      if less(s[i], s[n]) {
        forall j | 0 <= j < n ensures less(s[j], s[n]) {
          FirstMaxIsMax(s[..n], less);
          assert s[..n][j] in s[..n] && !less(s[i], s[j]);
        }
        i := n;
      }
    }
  }

  lemma {:induction false} AffordableKeepsOrder(s: seq<Point>, budget: real)
    requires Ordered(s)
    ensures Ordered(Affordable(s, budget))
  {
    hide KeyLeq;
    if s != [] {
      AffordableKeepsOrder(s[1..], budget);
      var rest := Affordable(s[1..], budget);
      forall j | 0 <= j < |rest| ensures KeyLeq(s[0], rest[j]) {
        assert rest[j] in rest && rest[j] in s[1..];
      }
    }
  }

  /** Points that tie in cost and accuracy: a budget gets the first id. */
  lemma RecommendTakesFirstId(points: seq<Point>, budget: real, p: Point)
    requires p in points && Recommend(points, budget).Some?
    requires var chosen := Recommend(points, budget).value; p.cost == chosen.cost && p.accuracy == chosen.accuracy
    ensures StringLeq(Recommend(points, budget).value.id, p.id)
  {
    FrontierMembers(points);
    Comparisons();
    var frontier, chosen := Frontier(points), Recommend(points, budget).value;
    var candidates := Affordable(frontier, budget);
    hide Frontier, StringLeq, Affordable, Ordered, FirstMax;
    assert p in candidates && chosen in candidates;
    AffordableKeepsOrder(frontier, budget);
    var i := FirstMaxIsFirst(candidates, LessAccurate);
    var j :| 0 <= j < |candidates| && candidates[j] == p;
    assert !LessAccurate(p, chosen);
    if i == j {
      StringTotal(p.id, p.id);
    } else {
      assert i < j;
    }
  }

  /** The free best-value pick takes the last id instead. */
  lemma FreeValueTakesLastId(points: seq<Point>, p: Point)
    requires p in points && BestValue(points).Some?
    requires var best := BestValue(points).value; best.cost == 0.0 && p.cost == 0.0 && p.accuracy == best.accuracy
    ensures StringLeq(p.id, BestValue(points).value.id)
  {
    FrontierMembers(points);
    Comparisons();
    var frontier, best := Frontier(points), BestValue(points).value;
    var free := Positive(frontier, true);
    hide Frontier, StringLeq, Ordered;
    assert best in frontier && p in frontier && p in free;
    FirstMaxIsMax(free, LessFree);
    assert !LessFree(best, p);
  }

  // -- Marking the points in place -------------------------------------------

  /** One entry of the `internal` list; the loop over it adds the last two fields. */
  class PointRow {
    const point: Point
    var dominatedBy: seq<string>
    var paretoOptimal: bool

    constructor (point: Point)
      ensures this.point == point
    {
      this.point, dominatedBy, paretoOptimal := point, [], false;
    }
  }

  function PointsOf(rows: seq<PointRow>): (r: seq<Point>)
    ensures |r| == |rows| && forall i :: 0 <= i < |rows| ==> r[i] == rows[i].point
  {
    seq(|rows|, i requires 0 <= i < |rows| => rows[i].point)
  }

  function Ids(points: seq<Point>): (r: seq<string>)
    ensures |r| == |points| && forall i :: 0 <= i < |r| ==> r[i] == points[i].id
  {
    seq(|points|, i requires 0 <= i < |points| => points[i].id)
  }

  /** The comprehension over `internal`: the ids of the dominators, in list order. */
  method DominatorIds(p: Point, points: seq<Point>) returns (names: seq<string>)
    ensures names == Ids(Dominators(p, points))
  {
    names := [];
    for i := 0 to |points|
      invariant names == Ids(Dominators(p, points[..i]))
    {
      NextDominator(p, points, i);
      if Dominates(points[i], p) {
        names := names + [points[i].id];
      }
    }
    assert points[..|points|] == points;
  }

  lemma NextDominator(p: Point, points: seq<Point>, i: nat)
    requires i < |points|
    ensures Ids(Dominators(p, points[..i + 1])) ==
      Ids(Dominators(p, points[..i])) + if Dominates(points[i], p) then [points[i].id] else []
  {
    assert points[..i + 1][..i] == points[..i];
    var before, after := Dominators(p, points[..i]), Dominators(p, points[..i + 1]);
    assert after == before + if Dominates(points[i], p) then [points[i]] else [];
  }

  ghost predicate Marked(row: PointRow, points: seq<Point>)
    reads row
  {
    && row.dominatedBy == Ids(Dominators(row.point, points))
    && (row.paretoOptimal <==> forall o :: o in points ==> !Dominates(o, row.point))
  }

  /** Names every dominator of every row, in list order, and marks the rows that have none. */
  method MarkDominated(rows: seq<PointRow>)
    modifies rows
    ensures forall k :: 0 <= k < |rows| ==> Marked(rows[k], PointsOf(rows))
  {
    hide Marked, PointsOf;
    var points := PointsOf(rows);
    for k := 0 to |rows|
      invariant forall j :: 0 <= j < k ==> Marked(rows[j], points)
    {
      MarkRow(rows[k], points);
    }
  }

  method MarkRow(row: PointRow, points: seq<Point>)
    modifies row
    ensures Marked(row, points)
  {
    row.dominatedBy := DominatorIds(row.point, points);
    row.paretoOptimal := row.dominatedBy == [];
    NoDominators(row.point, points);
  }
}

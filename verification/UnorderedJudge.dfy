// The judge's comparison of outputs when order does not matter.  The element relation is neither symmetric nor
// transitive, so the judge looks for a perfect matching by augmenting paths rather than cancelling equal items.
module UnorderedJudge {
  import opened Pairings

  /** Values a judged program can return: decoded JSON or Python literals; tuples count as lists. */
  datatype Value =
    | Null
    | Bool(b: bool)
    | Number(r: real)
    | Text(s: string)
    | List(items: seq<Value>)
    | Dict(entries: map<string, Value>)

  function Abs(x: real): real {
    if x < 0.0 then -x else x
  }

  /** `math.isclose` with the same relative and absolute tolerance. */
  predicate IsClose(a: real, b: real, tolerance: real) {
    || a == b
    || Abs(a - b) <= tolerance * Abs(a)
    || Abs(a - b) <= tolerance * Abs(b)
    || Abs(a - b) <= tolerance
  }

  /** Python's `==` on the pairs that reach it: a bool on the left equals the number 0 or 1. */
  predicate PythonEqual(actual: Value, expected: Value) {
    match (actual, expected)
    case (Bool(b), Number(r)) => r == (if b then 1.0 else 0.0)
    case (_, _) => actual == expected
  }

  predicate FloatTolerant(actual: Value, expected: Value, tolerance: real)
    decreases actual
  {
    match (actual, expected)
    case (Number(x), Number(y)) => IsClose(x, y, tolerance)
    case (Number(_), _) => false
    case (Dict(x), Dict(y)) =>
      x.Keys == y.Keys && forall k | k in x :: FloatTolerant(x[k], y[k], tolerance)
    case (List(x), List(y)) =>
      |x| == |y| && forall i | 0 <= i < |x| :: FloatTolerant(x[i], y[i], tolerance)
    case (_, _) => PythonEqual(actual, expected)
  }

  // -- What the element relation compares ------------------------------------

  /** One step into a list or a dict. */
  datatype PathStep = Index(i: nat) | Field(key: string)

  datatype Node = Missing | Found(value: Value)

  /** The value at the end of a path, if the path leads anywhere. */
  function Follow(v: Value, path: seq<PathStep>): Node
    decreases |path|
  {
    if path == [] then Found(v)
    else
      match (v, path[0])
      case (List(items), Index(i)) => if i < |items| then Follow(items[i], path[1..]) else Missing
      case (Dict(entries), Field(key)) => if key in entries then Follow(entries[key], path[1..]) else Missing
      case (_, _) => Missing
  }

  function Greatest(x: real, y: real, z: real): real {
    if x >= y && x >= z then x else if y >= z then y else z
  }

  /** Two values agree as far as they are not made of other values. */
  predicate NodesAgree(a: Value, e: Value, tolerance: real) {
    match (a, e)
    case (Number(x), Number(y)) => Abs(x - y) <= tolerance * Greatest(1.0, Abs(x), Abs(y))
    case (List(x), List(y)) => |x| == |y|
    case (Dict(x), Dict(y)) => x.Keys == y.Keys
    case (Bool(x), Bool(y)) => x == y
    case (Bool(x), Number(y)) => (x && y == 1.0) || (!x && y == 0.0)
    case (Text(x), Text(y)) => x == y
    case (_, _) => a.Null? && e.Null?
  }

  ghost predicate AgreeAt(a: Value, e: Value, tolerance: real, path: seq<PathStep>) {
    Follow(a, path).Found? && Follow(e, path).Found? ==>
      NodesAgree(Follow(a, path).value, Follow(e, path).value, tolerance)
  }

  lemma Monotone(tolerance: real, x: real, y: real)
    requires tolerance >= 0.0 && x <= y
    ensures tolerance * x <= tolerance * y
  {
  }

  lemma CloseNumbers(x: real, y: real, tolerance: real)
    requires tolerance >= 0.0
    ensures IsClose(x, y, tolerance) <==> Abs(x - y) <= tolerance * Greatest(1.0, Abs(x), Abs(y))
  {
    var u, v := Abs(x), Abs(y);
    WithinGreatest(Abs(x - y), tolerance, u, v);
    if x == y {
      Monotone(tolerance, 0.0, u);
    }
  }

  lemma WithinGreatest(d: real, tolerance: real, u: real, v: real)
    requires tolerance >= 0.0
    ensures d <= tolerance * Greatest(1.0, u, v) <==> d <= tolerance * u || d <= tolerance * v || d <= tolerance
  {
    var greatest := Greatest(1.0, u, v);
    Monotone(tolerance, u, greatest);
    Monotone(tolerance, v, greatest);
    Monotone(tolerance, 1.0, greatest);
  }

  /** Comparable values agree wherever a path leads in both. */
  lemma {:induction false} ComparableAgree(a: Value, e: Value, tolerance: real, path: seq<PathStep>)
    requires tolerance >= 0.0 && FloatTolerant(a, e, tolerance)
    ensures AgreeAt(a, e, tolerance, path)
    decreases |path|
  {
    if path == [] {
      if a.Number? && e.Number? {
        CloseNumbers(a.r, e.r, tolerance);
      }
    } else {
      match (a, e, path[0]) {
        case (List(x), List(y), Index(i)) =>
          if i < |x| {
            ComparableAgree(x[i], y[i], tolerance, path[1..]);
          }
        case (Dict(x), Dict(y), Field(key)) =>
          if key in x {
            ComparableAgree(x[key], y[key], tolerance, path[1..]);
          }
        case (_, _, _) =>
      }
    }
  }

  /** Values that are not comparable disagree at the end of some path. */
  lemma {:induction false} Disagreement(a: Value, e: Value, tolerance: real) returns (path: seq<PathStep>)
    requires tolerance >= 0.0 && !FloatTolerant(a, e, tolerance)
    ensures !AgreeAt(a, e, tolerance, path)
    decreases a
  {
    path := [];
    if a.Number? && e.Number? {
      CloseNumbers(a.r, e.r, tolerance);
    } else if a.List? && e.List? && |a.items| == |e.items| {
      var i :| 0 <= i < |a.items| && !FloatTolerant(a.items[i], e.items[i], tolerance);
      var rest := Disagreement(a.items[i], e.items[i], tolerance);
      path := [Index(i)] + rest;
      assert path[1..] == rest;
    } else if a.Dict? && e.Dict? && a.entries.Keys == e.entries.Keys {
      var k :| k in a.entries && !FloatTolerant(a.entries[k], e.entries[k], tolerance);
      var rest := Disagreement(a.entries[k], e.entries[k], tolerance);
      path := [Field(k)] + rest;
      assert path[1..] == rest;
    }
  }

  /**
   * Two values are comparable exactly if they agree at every path that both have: numbers up to the tolerance,
   * absolute and relative to the greater, lists in length, dicts in keys, a bool on the left with itself or with
   * 0 or 1, all else exactly.
   */
  lemma ComparableIffPathsAgree(a: Value, e: Value, tolerance: real)
    requires tolerance >= 0.0
    ensures FloatTolerant(a, e, tolerance) <==> forall path :: AgreeAt(a, e, tolerance, path)
  {
    if FloatTolerant(a, e, tolerance) {
      forall path ensures AgreeAt(a, e, tolerance, path) {
        ComparableAgree(a, e, tolerance, path);
      }
    } else {
      var path := Disagreement(a, e, tolerance);
      assert !AgreeAt(a, e, tolerance, path);
    }
  }

  /** The element relation at one tolerance. */
  function Within(tolerance: real): (Value, Value) -> bool {
    (x, y) => FloatTolerant(x, y, tolerance)
  }

  /** The element relation is not symmetric: a bool may equal a number, never the other way round. */
  lemma RelationIsNotSymmetric()
    ensures FloatTolerant(Bool(true), Number(1.0), 0.0)
    ensures !FloatTolerant(Number(1.0), Bool(true), 0.0)
  {
  }

  /** Nor transitive, which is why picking any comparable partner for each item would be wrong. */
  lemma RelationIsNotTransitive()
    ensures FloatTolerant(Number(0.0), Number(0.5), 0.5)
    ensures FloatTolerant(Number(0.5), Number(1.0), 0.5)
    ensures !FloatTolerant(Number(0.0), Number(1.0), 0.5)
  {
    assert Abs(0.0 - 1.0) == 1.0 && Abs(0.0) == 0.0 && Abs(1.0) == 1.0;
    assert Abs(0.0 - 0.5) == 0.5 && Abs(0.5 - 1.0) == 0.5;
  }

  // -- The matching under construction, as a value ---------------------------

  /** Every taken slot is taken by an actual item that may be paired with it. */
  ghost predicate Usable(m: seq<int>, adjacency: seq<seq<nat>>) {
    forall e :: 0 <= e < |m| && m[e] != -1 ==> 0 <= m[e] < |adjacency| && e in adjacency[m[e]]
  }

  /** Item `x` holds a slot outside `v`. */
  ghost predicate Holds(m: seq<int>, v: set<nat>, x: int) {
    exists e :: 0 <= e < |m| && e !in v && m[e] == x
  }

  ghost predicate InjectiveOutside(m: seq<int>, v: set<nat>) {
    forall d, e :: 0 <= d < e < |m| && d !in v && e !in v && m[d] != -1 ==> m[d] != m[e]
  }

  /**
   * What an augmentation from item `a` achieves without touching the slots in `v`:
   * outside them the same items as before hold a slot each, and `a` as well.
   */
  ghost predicate Augmented(m: seq<int>, m': seq<int>, v: set<nat>, a: int) {
    && |m'| == |m|
    && (forall e :: 0 <= e < |m| && e in v ==> m'[e] == m[e])
    && InjectiveOutside(m', v)
    && (forall x :: x != -1 ==> (Holds(m', v, x) <==> Holds(m, v, x) || x == a))
  }

  /** Slot `e` is taken and everything its holder could move to is in `v`. */
  ghost predicate Stuck(m: seq<int>, adjacency: seq<seq<nat>>, v: set<nat>, e: nat)
  {
    && e < |m| && 0 <= m[e] < |adjacency|
    && (forall d :: d in adjacency[m[e]] ==> d in v)
  }

  ghost predicate AllStuck(m: seq<int>, adjacency: seq<seq<nat>>, v: set<nat>, w: set<nat>) {
    forall e :: e in v - w ==> Stuck(m, adjacency, v, e)
  }

  ghost predicate RowIn(row: seq<nat>, v: set<nat>) {
    forall e :: e in row ==> e in v
  }

  /** A slot taken over after its holder moved on: the step that lengthens an augmenting path. */
  lemma TakeOver(m: seq<int>, m1: seq<int>, s: set<nat>, v: set<nat>, e: nat, a: int)
    requires e < |m| && s <= v && e !in v && m[e] != -1 && a != -1
    requires InjectiveOutside(m, s) && !Holds(m, s, a)
    requires Augmented(m, m1, v + {e}, m[e])
    ensures Augmented(m, m1[e := a], s, a)
  {
    var m', p := m1[e := a], m[e];
    assert Holds(m, s, p);
    assert forall d :: 0 <= d < |m| && d in v ==> m'[d] == m[d];
    forall d | 0 <= d < |m| && d !in v + {e} && m1[d] != -1
      ensures m1[d] != a && (m1[d] == p || Holds(m, v + {e}, m1[d]))
    {
      assert Holds(m1, v + {e}, m1[d]);
      assert Holds(m, v + {e}, a) ==> Holds(m, s, a);
    }
    forall c, d | 0 <= c < |m| && c in v && c !in s && 0 <= d < |m| && d !in v + {e} && m1[d] != -1
      ensures m1[d] != m[c]
    {
      if m1[d] != p {
        var d' :| 0 <= d' < |m| && d' !in v + {e} && m[d'] == m1[d];
        assert c < d' || d' < c;
      } else {
        assert c < e || e < c;
      }
    }
    assert forall d :: 0 <= d < |m| && d in v && d !in s ==> m'[d] != a by {
      assert forall d :: 0 <= d < |m| && d in v && d !in s && m[d] == a ==> Holds(m, s, a);
    }
    forall x | x != -1
      ensures Holds(m', s, x) <==> Holds(m, s, x) || x == a
    {
      if x == a {
        assert m'[e] == a;
      } else {
        if Holds(m', s, x) {
          var d :| 0 <= d < |m'| && d !in s && m'[d] == x;
          if d !in v + {e} {
            assert x == p || Holds(m, v + {e}, x);
          }
        }
        if Holds(m, s, x) {
          var d :| 0 <= d < |m| && d !in s && m[d] == x;
          if d == e || d !in v + {e} {
            assert x == p || Holds(m, v + {e}, x);
            assert Holds(m1, v + {e}, x);
            var d' :| 0 <= d' < |m1| && d' !in v + {e} && m1[d'] == x;
            assert m'[d'] == x;
          } else {
            assert m'[d] == x;
          }
        }
      }
    }
  }

  /** A free slot taken directly: the end of an augmenting path. */
  lemma TakeFree(m: seq<int>, s: set<nat>, e: nat, a: int)
    requires e < |m| && e !in s && m[e] == -1 && a != -1
    requires InjectiveOutside(m, s) && !Holds(m, s, a)
    ensures Augmented(m, m[e := a], s, a)
  {
    var m' := m[e := a];
    forall x | x != -1
      ensures Holds(m', s, x) <==> Holds(m, s, x) || x == a
    {
      assert m'[e] == a;
      if Holds(m, s, x) {
        var d :| 0 <= d < |m| && d !in s && m[d] == x;
        assert m'[d] == x;
      }
    }
  }

  // -- The search ------------------------------------------------------------

  /** The state that `find_match` closes over; `visited` is reset for each root call. */
  class Matcher {
    const adjacency: seq<seq<nat>>
    const matchedActual: array<int>
    var visited: set<nat>

    constructor (adjacency: seq<seq<nat>>, slots: nat)
      ensures fresh(this) && fresh(matchedActual)
      ensures this.adjacency == adjacency
      ensures matchedActual.Length == slots
      ensures forall e :: 0 <= e < slots ==> matchedActual[e] == -1
      ensures visited == {}
    {
      this.adjacency := adjacency;
      matchedActual := new int[slots](_ => -1);
      visited := {};
    }

    /** Indices are in range and the current matching pairs only comparable items. */
    ghost predicate Valid()
      reads this, matchedActual
    {
      && (forall a :: 0 <= a < |adjacency| ==> forall e :: e in adjacency[a] ==> e < matchedActual.Length)
      && visited <= Below(matchedActual.Length)
      && Usable(matchedActual[..], adjacency)
    }

    /**
     * Gives `actualIndex` a slot, moving current holders along, using only slots not visited yet.
     * On failure nothing moved, and every slot seen is held by an item that has nowhere else to go.
     */
    method FindMatch(actualIndex: nat) returns (found: bool)
      requires Valid() && actualIndex < |adjacency|
      requires InjectiveOutside(matchedActual[..], visited)
      requires !Holds(matchedActual[..], visited, actualIndex)
      modifies this`visited, matchedActual
      ensures Valid() && old(visited) <= visited
      ensures found ==> Augmented(old(matchedActual[..]), matchedActual[..], old(visited), actualIndex)
      ensures !found ==> matchedActual[..] == old(matchedActual[..])
      ensures !found ==> RowIn(adjacency[actualIndex], visited)
      ensures !found ==> AllStuck(matchedActual[..], adjacency, visited, old(visited))
      decreases Below(matchedActual.Length) - visited
    {
      var row := adjacency[actualIndex];
      ghost var m, s := matchedActual[..], visited;
      for k := 0 to |row|
        invariant Valid() && s <= visited
        invariant matchedActual[..] == m
        invariant RowIn(row[..k], visited)
        invariant AllStuck(m, adjacency, visited, s)
      {
        var expectedIndex := row[k];
        assert expectedIndex in adjacency[actualIndex];
        if expectedIndex in visited {
          continue;
        }
        ghost var v := visited;
        visited := visited + {expectedIndex};
        var previous := matchedActual[expectedIndex];
        if previous == -1 {
          matchedActual[expectedIndex] := actualIndex;
          TakeFree(m, s, expectedIndex, actualIndex);
          assert matchedActual[..] == m[expectedIndex := actualIndex];
          return true;
        }
        assert !Holds(m, visited, previous);
        var moved := FindMatch(previous);
        if moved {
          ghost var m1 := matchedActual[..];
          TakeOver(m, m1, s, v, expectedIndex, actualIndex);
          matchedActual[expectedIndex] := actualIndex;
          assert matchedActual[..] == m1[expectedIndex := actualIndex];
          return true;
        }
        assert Stuck(m, adjacency, visited, expectedIndex);
        forall e | e in visited - s ensures Stuck(m, adjacency, visited, e) {
          if e in v {
            assert Stuck(m, adjacency, v, e);
          }
        }
      }
      assert row[..|row|] == row;
      return false;
    }
  }

  // -- Why a failed root search settles the question -------------------------

  lemma {:induction false} HoldersSize(m: seq<int>, v: set<nat>)
    requires forall e :: e in v ==> e < |m| && m[e] >= 0
    requires InjectiveOutside(m, {})
    ensures |set e | e in v :: m[e] as nat| == |v|
  {
    var holders := set e | e in v :: m[e] as nat;
    if v == {} {
      assert holders == {};
    } else {
      var e :| e in v;
      HoldersSize(m, v - {e});
      var rest := set d | d in v - {e} :: m[d] as nat;
      assert holders == rest + {m[e] as nat};
      forall d | d in v - {e} ensures m[d] != m[e] {
        assert d < e || e < d;
      }
    }
  }

  /** One slot per item, all different, each one the item may use. */
  ghost predicate IsSystem(f: seq<nat>, adjacency: seq<seq<nat>>) {
    && |f| == |adjacency|
    && (forall i, j :: 0 <= i < j < |f| ==> f[i] != f[j])
    && (forall i :: 0 <= i < |f| ==> f[i] in adjacency[i])
  }

  /**
   * Hall's condition fails on the violator: it has one item more than there are slots
   * its items may use, so no pairing of any kind exists.
   */
  lemma StuckMeansNoPairing(m: seq<int>, adjacency: seq<seq<nat>>, v: set<nat>, a: nat, f: seq<nat>)
    requires a < |adjacency| && InjectiveOutside(m, {}) && !Holds(m, {}, a)
    requires AllStuck(m, adjacency, v, {}) && RowIn(adjacency[a], v)
    ensures !IsSystem(f, adjacency)
  {
    if IsSystem(f, adjacency) {
      var xs := Holders(m, adjacency, v) + {a};
      forall x | x in xs ensures 0 <= x < |f| && f[x] in v {
        if x != a {
          var e :| e in v && e < |m| && m[e] == x;
          StuckHolder(m, adjacency, v, e);
        }
        assert f[x] in adjacency[x];
      }
      assert a !in Holders(m, adjacency, v) by {
        assert forall e :: e in v && m[e] == a ==> e < |m| && Holds(m, {}, a) by {
          forall e | e in v { StuckHolder(m, adjacency, v, e); }
        }
      }
      InjectiveImage(xs, f, v);
    }
  }

  lemma StuckHolder(m: seq<int>, adjacency: seq<seq<nat>>, v: set<nat>, e: nat)
    requires AllStuck(m, adjacency, v, {}) && e in v
    ensures e < |m| && 0 <= m[e] < |adjacency| && RowIn(adjacency[m[e]], v)
  {
    assert e in v - {};
    assert Stuck(m, adjacency, v, e);
  }

  /** The items holding the visited slots: as many as there are slots. */
  ghost function Holders(m: seq<int>, adjacency: seq<seq<nat>>, v: set<nat>): (xs: set<nat>)
    requires AllStuck(m, adjacency, v, {}) && InjectiveOutside(m, {})
    ensures |xs| == |v|
    ensures forall x :: x in xs ==> exists e :: e in v && e < |m| && m[e] == x
  {
    assert forall e :: e in v ==> e < |m| && m[e] >= 0 by {
      forall e | e in v { StuckHolder(m, adjacency, v, e); }
    }
    HoldersSize(m, v);
    set e | e in v :: m[e] as nat
  }

  lemma {:induction false} InjectiveImage(xs: set<nat>, f: seq<nat>, v: set<nat>)
    requires forall x :: x in xs ==> x < |f| && f[x] in v
    requires forall i, j :: 0 <= i < j < |f| ==> f[i] != f[j]
    ensures |xs| <= |v|
  {
    if |xs| != 0 {
      var x :| x in xs;
      forall y | y in xs - {x} ensures f[y] in v - {f[x]} {
        assert x < y || y < x;
      }
      InjectiveImage(xs - {x}, f, v - {f[x]});
    }
  }

  // -- The comparison --------------------------------------------------------

  /** The expected positions comparable with one actual item, in order. */
  function ComparableFrom(item: Value, expected: seq<Value>, tolerance: real, start: nat): (row: seq<nat>)
    requires start <= |expected|
    ensures forall e: nat :: e in row <==> start <= e < |expected| && FloatTolerant(item, expected[e], tolerance)
    ensures forall i, j :: 0 <= i < j < |row| ==> row[i] < row[j]
    decreases |expected| - start
  {
    if start == |expected| then []
    else
      var rest := ComparableFrom(item, expected, tolerance, start + 1);
      assert forall i :: 0 <= i < |rest| ==> rest[i] in rest;
      if FloatTolerant(item, expected[start], tolerance) then [start] + rest else rest
  }

  /** Slots each held by one item, every item holding one: read the system off them. */
  lemma FullMatchingIsSystem(m: seq<int>, adjacency: seq<seq<nat>>)
    requires Usable(m, adjacency) && Placed(m, |adjacency|)
    ensures IsSystem(SlotsOf(m, |adjacency|), adjacency)
  {
    var f := SlotsOf(m, |adjacency|);
    assert forall i :: 0 <= i < |f| ==> f[i] in adjacency[m[f[i]]];
  }

  ghost function SlotsOf(m: seq<int>, n: nat): (f: seq<nat>)
    requires forall i :: 0 <= i < n ==> Holds(m, {}, i)
    ensures |f| == n && forall i :: 0 <= i < n ==> f[i] < |m| && m[f[i]] == i
  {
    if n == 0 then []
    else
      assert Holds(m, {}, n - 1);
      var e :| 0 <= e < |m| && e !in {} && m[e] == n - 1;
      SlotsOf(m, n - 1) + [e]
  }

  ghost predicate IsTable(adjacency: seq<seq<nat>>, actual: seq<Value>, expected: seq<Value>, tolerance: real) {
    && |adjacency| == |actual|
    && forall i :: 0 <= i < |actual| ==> adjacency[i] == ComparableFrom(actual[i], expected, tolerance, 0)
  }

  /** Exactly the first `n` items hold a slot, one each. */
  ghost predicate Placed(m: seq<int>, n: nat) {
    && InjectiveOutside(m, {})
    && forall x :: x != -1 ==> (Holds(m, {}, x) <==> 0 <= x < n)
  }

  /** The systems of the comparison table are the pairings of the two lists. */
  lemma SystemIsPairing(f: seq<nat>, adjacency: seq<seq<nat>>, actual: seq<Value>, expected: seq<Value>,
      tolerance: real)
    requires IsTable(adjacency, actual, expected, tolerance) && |actual| == |expected|
    ensures IsSystem(f, adjacency) <==> Pairing(f, actual, expected, Within(tolerance))
  {
    if |f| == |actual| {
      forall i | 0 <= i < |f|
        ensures f[i] in adjacency[i] <==> f[i] < |expected| && Within(tolerance)(actual[i], expected[f[i]])
      {
      }
    }
  }

  /** Searches from every item in turn and gives up at the first one that finds no slot. */
  method MatchAll(adjacency: seq<seq<nat>>, slots: nat) returns (all: bool)
    requires forall a :: 0 <= a < |adjacency| ==> forall e :: e in adjacency[a] ==> e < slots
    ensures all <==> exists f :: IsSystem(f, adjacency)
  {
    var matcher := new Matcher(adjacency, slots);
    for index := 0 to |adjacency|
      invariant matcher.Valid() && Placed(matcher.matchedActual[..], index)
    {
      matcher.visited := {};
      ghost var m := matcher.matchedActual[..];
      var found := matcher.FindMatch(index);
      if !found {
        forall f ensures !IsSystem(f, adjacency) {
          StuckMeansNoPairing(m, adjacency, matcher.visited, index, f);
        }
        return false;
      }
    }
    FullMatchingIsSystem(matcher.matchedActual[..], adjacency);
    return true;
  }

  /** `True` exactly when some one-to-one pairing makes every pair comparable. */
  method CompareUnordered(actual: Value, expected: Value, tolerance: real) returns (same: bool)
    ensures actual.List? && expected.List? ==>
      (same <==> Matches(actual.items, expected.items, Within(tolerance)))
    ensures !(actual.List? && expected.List?) ==> same == FloatTolerant(actual, expected, tolerance)
  {
    if !actual.List? || !expected.List? {
      return FloatTolerant(actual, expected, tolerance);
    }
    var xs, ys := actual.items, expected.items;
    if |xs| != |ys| {
      assert !Matches(xs, ys, Within(tolerance));
      return false;
    }
    var adjacency := seq(|xs|, i requires 0 <= i < |xs| => ComparableFrom(xs[i], ys, tolerance, 0));
    same := MatchAll(adjacency, |ys|);
    forall f ensures IsSystem(f, adjacency) <==> Pairing(f, xs, ys, Within(tolerance)) {
      SystemIsPairing(f, adjacency, xs, ys, tolerance);
    }
  }

  // -- Consequences ----------------------------------------------------------

  /** The verdict on two lists, as a function of its inputs. */
  ghost predicate UnorderedEqual(actual: seq<Value>, expected: seq<Value>, tolerance: real) {
    Matches(actual, expected, Within(tolerance))
  }

  /** Printing the answer, or storing the expected list, in another order cannot change the verdict. */
  lemma VerdictIgnoresOrder(a: seq<Value>, a': seq<Value>, e: seq<Value>, e': seq<Value>, tolerance: real)
    requires multiset(a) == multiset(a') && multiset(e) == multiset(e')
    ensures UnorderedEqual(a, e, tolerance) <==> UnorderedEqual(a', e', tolerance)
  {
    PermutationInvariance(a, a', e, e', Within(tolerance));
  }

  /** On lists of texts the verdict is plain multiset equality, whatever the tolerance. */
  lemma TextVerdictIsMultisetEquality(a: seq<Value>, e: seq<Value>, tolerance: real)
    requires forall i :: 0 <= i < |a| ==> a[i].Text?
    ensures UnorderedEqual(a, e, tolerance) <==> multiset(a) == multiset(e)
  {
    EqualityMatchIsMultisetEquality(a, e);
    var rel := Within(tolerance);
    if Matches(a, e, rel) {
      var f :| Pairing(f, a, e, rel);
      assert Pairing(f, a, e, Same);
    }
    if Matches(a, e, Same) {
      var f :| Pairing(f, a, e, Same);
      assert Pairing(f, a, e, rel);
    }
  }

  /** Equal multisets always pass: every value is comparable with itself. */
  lemma EqualMultisetsPass(a: seq<Value>, e: seq<Value>, tolerance: real)
    requires multiset(a) == multiset(e)
    ensures UnorderedEqual(a, e, tolerance)
  {
    EqualityMatchIsMultisetEquality(a, e);
    var f :| Pairing(f, a, e, Same);
    forall i | 0 <= i < |a| ensures FloatTolerant(a[i], e[f[i]], tolerance) {
      Reflexive(a[i], tolerance);
    }
    assert Pairing(f, a, e, Within(tolerance));
  }

  lemma {:induction false} Reflexive(x: Value, tolerance: real)
    ensures FloatTolerant(x, x, tolerance)
    decreases x
  {
    match x
    case List(items) =>
      forall i | 0 <= i < |items| { Reflexive(items[i], tolerance); }
    case Dict(entries) =>
      forall k | k in entries { Reflexive(entries[k], tolerance); }
    case _ =>
  }
}

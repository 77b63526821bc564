// The response cache: one file per key plus an access log, bounded in size by evicting the
// least recently used entries, and equal to a plain map as far as it still holds an entry.
module Cache {
  import opened Models

  /** A cache file: the stored response, its model, its time stamp and its size on disk. */
  datatype File = File(response: string, model: string, timestamp: int, size: nat)

  type Files = map<string, File>
  type AccessLog = map<string, int>

  function AccessTime(log: AccessLog, key: string): int {
    if key in log then log[key] else 0
  }

  function SizeOf(files: Files, keys: seq<string>): nat
    requires forall k :: k in keys ==> k in files
  {
    if keys == [] then 0
    else
      var front := keys[..|keys|-1];
      assert keys[|keys|-1] in keys && forall k :: k in front ==> k in keys;
      SizeOf(files, front) + files[keys[|keys|-1]].size
  }

  /** A listing of the directory: every cached key once, in whatever order the file system gives. */
  ghost predicate IsListing(files: Files, keys: seq<string>) {
    && (forall k :: k in keys <==> k in files)
    && (forall i, j :: 0 <= i < j < |keys| ==> keys[i] != keys[j])
  }

  ghost predicate OldestFirst(log: AccessLog, keys: seq<string>) {
    forall i, j :: 0 <= i < j < |keys| ==> AccessTime(log, keys[i]) <= AccessTime(log, keys[j])
  }

  // -- Sorting by access time ------------------------------------------------

  /** Stable insertion after every key that is not younger. */
  function Insert(log: AccessLog, sorted: seq<string>, key: string): (r: seq<string>)
    ensures |r| == |sorted| + 1
    ensures multiset(r) == multiset(sorted) + multiset{key}
  {
    if sorted == [] then [key]
    else
      var n := |sorted| - 1;
      assert sorted == sorted[..n] + [sorted[n]];
      if AccessTime(log, sorted[n]) <= AccessTime(log, key) then sorted + [key]
      else Insert(log, sorted[..n], key) + [sorted[n]]
  }

  /** `sort(key=access_time)`, which is stable. */
  function SortByAccess(log: AccessLog, keys: seq<string>): (r: seq<string>)
    ensures multiset(r) == multiset(keys)
  {
    if keys == [] then []
    else
      var n := |keys| - 1;
      assert keys == keys[..n] + [keys[n]];
      Insert(log, SortByAccess(log, keys[..n]), keys[n])
  }

  lemma {:induction false} InsertKeepsOrder(log: AccessLog, sorted: seq<string>, key: string)
    requires OldestFirst(log, sorted)
    ensures OldestFirst(log, Insert(log, sorted, key))
    ensures forall x :: x in Insert(log, sorted, key) ==> x in sorted || x == key
    decreases |sorted|
  {
    if sorted != [] {
      var n := |sorted| - 1;
      if AccessTime(log, sorted[n]) > AccessTime(log, key) {
        InsertKeepsOrder(log, sorted[..n], key);
        AppendYoungest(log, Insert(log, sorted[..n], key), sorted[n]);
      } else {
        AppendYoungest(log, sorted, key);
      }
    }
  }

  lemma AppendYoungest(log: AccessLog, sorted: seq<string>, key: string)
    requires OldestFirst(log, sorted)
    requires forall x :: x in sorted ==> AccessTime(log, x) <= AccessTime(log, key)
    ensures OldestFirst(log, sorted + [key])
  {
  }

  lemma {:induction false} SortedByAccess(log: AccessLog, keys: seq<string>)
    ensures OldestFirst(log, SortByAccess(log, keys))
    decreases |keys|
  {
    if keys != [] {
      var n := |keys| - 1;
      SortedByAccess(log, keys[..n]);
      InsertKeepsOrder(log, SortByAccess(log, keys[..n]), keys[n]);
    }
  }

  lemma ListingSorted(files: Files, log: AccessLog, keys: seq<string>)
    requires IsListing(files, keys)
    ensures IsListing(files, SortByAccess(log, keys))
  {
    var sorted := SortByAccess(log, keys);
    forall k ensures k in sorted <==> k in files {
      assert k in sorted <==> k in multiset(sorted);
      assert k in keys <==> k in multiset(keys);
    }
    UniqueByMultiset(keys, sorted);
  }

  lemma UniqueByMultiset(a: seq<string>, b: seq<string>)
    requires multiset(a) == multiset(b)
    requires forall i, j :: 0 <= i < j < |a| ==> a[i] != a[j]
    ensures forall i, j :: 0 <= i < j < |b| ==> b[i] != b[j]
  {
    forall k | k in a ensures multiset(a)[k] == 1 {
      CountOne(a, k);
    }
    forall i, j | 0 <= i < j < |b| ensures b[i] != b[j] {
      Repeated(b, i, j);
      assert b[i] in multiset(b) && b[i] in multiset(a);
    }
  }

  lemma Repeated(b: seq<string>, i: nat, j: nat)
    requires i < j < |b|
    ensures b[i] == b[j] ==> multiset(b)[b[i]] >= 2
  {
    assert b == b[..i] + [b[i]] + b[i + 1..j] + [b[j]] + b[j + 1..];
  }

  lemma {:induction false} CountOne(a: seq<string>, k: string)
    requires forall i, j :: 0 <= i < j < |a| ==> a[i] != a[j]
    ensures multiset(a)[k] == if k in a then 1 else 0
    decreases |a|
  {
    if a != [] {
      var n := |a| - 1;
      assert a == a[..n] + [a[n]];
      CountOne(a[..n], k);
    }
  }

  // -- Eviction --------------------------------------------------------------

  /** How many of the sorted entries have to go before the rest fits. */
  function Excess(files: Files, sorted: seq<string>, limit: nat): (n: nat)
    requires forall k :: k in sorted ==> k in files
    ensures n <= |sorted|
    ensures forall k :: k in sorted[n..] ==> k in files
    ensures SizeOf(files, sorted[n..]) <= limit
    ensures forall m: nat :: m < n ==> (forall k :: k in sorted[m..] ==> k in files) && SizeOf(files, sorted[m..]) > limit
    decreases |sorted|
  {
    assert sorted[0..] == sorted;
    if SizeOf(files, sorted) <= limit then 0
    else
      assert forall k :: k in sorted[1..] ==> k in sorted;
      var rest := Excess(files, sorted[1..], limit);
      assert forall m: nat :: m < |sorted| ==> sorted[1..][m..] == sorted[m + 1..];
      assert sorted[1..][rest..] == sorted[rest + 1..];
      assert forall m: nat :: 0 < m <= rest ==> sorted[m..] == sorted[1..][m - 1..];
      rest + 1
  }

  lemma {:induction false} SizeOfAppend(files: Files, a: seq<string>, b: seq<string>)
    requires forall k :: k in a + b ==> k in files
    ensures (forall k :: k in a ==> k in files) && (forall k :: k in b ==> k in files)
    ensures SizeOf(files, a + b) == SizeOf(files, a) + SizeOf(files, b)
    decreases |b|
  {
    assert forall k :: k in a ==> k in a + b;
    assert forall k :: k in b ==> k in a + b;
    if b == [] {
      assert a + b == a;
    } else {
      var n := |b| - 1;
      assert (a + b)[..|a + b| - 1] == a + b[..n];
      assert forall k :: k in a + b[..n] ==> k in a + b by {
        assert forall k :: k in b[..n] ==> k in b;
      }
      SizeOfAppend(files, a, b[..n]);
    }
  }

  lemma RemoveOne(files: Files, keys: seq<string>, i: nat)
    requires i < |keys| && forall k :: k in keys ==> k in files
    ensures var rest := keys[..i] + keys[i + 1..];
      && (forall k :: k in rest ==> k in files)
      && SizeOf(files, keys) == SizeOf(files, rest) + files[keys[i]].size
      && multiset(rest) == multiset(keys) - multiset{keys[i]}
  {
    var front, back := keys[..i], keys[i + 1..];
    assert keys == front + [keys[i]] + back;
    SizeOfAppend(files, front + [keys[i]], back);
    SizeOfAppend(files, front, [keys[i]]);
    assert [keys[i]][..0] == [];
    assert forall k :: k in front + back ==> k in keys;
    SizeOfAppend(files, front, back);
  }

  lemma SameKeyAt(a: seq<string>, b: seq<string>, n: nat) returns (i: nat)
    requires multiset(a) == multiset(b) && n < |a|
    ensures i < |b| && b[i] == a[n]
  {
    assert a[n] in multiset(a);
    assert a[n] in multiset(b);
    i :| i < |b| && b[i] == a[n];
  }

  /** The total does not depend on the order of the listing. */
  lemma {:induction false} SizeOfPermutation(files: Files, a: seq<string>, b: seq<string>)
    requires multiset(a) == multiset(b)
    requires (forall k :: k in a ==> k in files) && (forall k :: k in b ==> k in files)
    ensures SizeOf(files, a) == SizeOf(files, b)
    decreases |a|
  {
    assert |a| == |multiset(a)| == |multiset(b)| == |b|;
    if a == [] {
      assert b == [];
    } else {
      var n := |a| - 1;
      var i := SameKeyAt(a, b, n);
      RemoveOne(files, a, n);
      RemoveOne(files, b, i);
      var fewer := a[..n] + a[n + 1..];
      hide SizeOf;
      SizeOfPermutation(files, fewer, b[..i] + b[i + 1..]);
    }
  }

  // -- One operation at a time, as functions ---------------------------------

  /** The directory and its access log; `evicted` remembers the keys lost to the size limit since they were last set. */
  datatype Store = Store(files: Files, log: AccessLog, evicted: set<string>)

  /** The entries that go when the directory holds `files`. */
  function Victims(files: Files, log: AccessLog, listing: seq<string>, limit: nat): (victims: seq<string>)
    requires IsListing(files, listing)
  {
    ListingSorted(files, log, listing);
    var sorted := SortByAccess(log, listing);
    sorted[..Excess(files, sorted, limit)]
  }

  function KeySet(keys: seq<string>): set<string> {
    set k | k in keys
  }

  function Without(files: Files, victims: seq<string>): Files {
    map k | k in files && k !in victims :: files[k]
  }

  function WithoutLog(log: AccessLog, victims: seq<string>): AccessLog {
    map k | k in log && k !in victims :: log[k]
  }

  function AfterSet(s: Store, key: string, file: File, touched: int, listing: seq<string>, limit: nat): Store
    requires IsListing(s.files[key := file], listing)
  {
    var files, log := s.files[key := file], s.log[key := touched];
    var victims := Victims(files, log, listing, limit);
    Store(Without(files, victims), WithoutLog(log, victims),
          (s.evicted - {key}) + KeySet(victims))
  }

  predicate Fresh(f: File, now: int, ttl: nat) {
    now - f.timestamp < ttl
  }

  function Lookup(s: Store, key: string, now: int, ttl: nat): Option<string> {
    if key in s.files && Fresh(s.files[key], now, ttl) then Some(s.files[key].response) else None
  }

  function AfterGet(s: Store, key: string, now: int, ttl: nat, touched: int): Store {
    if Lookup(s, key, now, ttl).Some? then s.(log := s.log[key := touched]) else s
  }

  /** `clear`: everything, or the entries of one model. */
  function AfterClear(s: Store, model: Option<string>): Store {
    if model.None? then Store(map[], map[], {})
    else
      Store(map k | k in s.files && s.files[k].model != model.value :: s.files[k],
            map k | k in s.log && !(k in s.files && s.files[k].model == model.value) :: s.log[k],
            s.evicted)
  }

  // -- What eviction guarantees ----------------------------------------------

  /**
   * The victims are the shortest prefix, oldest access first, whose removal makes the directory fit:
   * with them it fits, with one fewer it does not.
   */
  lemma EvictionIsMinimal(files: Files, log: AccessLog, listing: seq<string>, limit: nat)
    requires IsListing(files, listing)
    ensures var sorted, victims := SortByAccess(log, listing), Victims(files, log, listing, limit);
      && IsListing(files, sorted) && OldestFirst(log, sorted)
      && victims <= sorted
      && IsListing(Without(files, victims), sorted[|victims|..])
      && (forall k :: k in sorted[|victims|..] ==> k in files) && SizeOf(files, sorted[|victims|..]) <= limit
      && SizeOf(Without(files, victims), sorted[|victims|..]) <= limit
      && forall m: nat :: m < |victims| ==>
           (forall k :: k in sorted[m..] ==> k in files) && SizeOf(files, sorted[m..]) > limit
  {
    ListingSorted(files, log, listing);
    SortedByAccess(log, listing);
    var sorted := SortByAccess(log, listing);
    var n := Excess(files, sorted, limit);
    RestListed(files, sorted, n);
  }

  lemma RestListed(files: Files, sorted: seq<string>, n: nat)
    requires IsListing(files, sorted) && n <= |sorted|
    ensures var rest := Without(files, sorted[..n]);
      && IsListing(rest, sorted[n..])
      && (forall k :: k in sorted[n..] ==> k in files)
      && SizeOf(rest, sorted[n..]) == SizeOf(files, sorted[n..])
  {
    var rest := Without(files, sorted[..n]);
    assert forall i :: 0 <= i < n ==> sorted[i] == sorted[..n][i];
    forall k ensures k in sorted[n..] <==> k in rest {
      if k in sorted[n..] {
        var i :| n <= i < |sorted| && sorted[i] == k;
        assert k in sorted;
      }
      if k in rest {
        assert k in sorted;
        var i :| 0 <= i < |sorted| && sorted[i] == k;
        assert sorted[n..][i - n] == k;
      }
    }
    SizeOfSame(rest, files, sorted[n..]);
  }

  lemma {:induction false} SizeOfSame(a: Files, b: Files, keys: seq<string>)
    requires forall k :: k in keys ==> k in a && k in b && a[k] == b[k]
    ensures SizeOf(a, keys) == SizeOf(b, keys)
  {
    if keys != [] {
      var front := keys[..|keys|-1];
      assert forall k :: k in front ==> k in keys;
      SizeOfSame(a, b, front);
    }
  }

  /** After every `set` the directory fits, whichever way it is listed. */
  lemma SetFits(s: Store, key: string, file: File, touched: int, listing: seq<string>, limit: nat, other: seq<string>)
    requires IsListing(s.files[key := file], listing)
    requires IsListing(AfterSet(s, key, file, touched, listing, limit).files, other)
    ensures SizeOf(AfterSet(s, key, file, touched, listing, limit).files, other) <= limit
  {
    var files, log := s.files[key := file], s.log[key := touched];
    EvictionIsMinimal(files, log, listing, limit);
    var sorted, victims := SortByAccess(log, listing), Victims(files, log, listing, limit);
    SameListing(Without(files, victims), other, sorted[|victims|..]);
    SizeOfPermutation(Without(files, victims), other, sorted[|victims|..]);
  }

  lemma SameListing(files: Files, a: seq<string>, b: seq<string>)
    requires IsListing(files, a) && IsListing(files, b)
    ensures multiset(a) == multiset(b)
  {
    forall k ensures multiset(a)[k] == multiset(b)[k] {
      CountOne(a, k);
      CountOne(b, k);
    }
  }

  /** A clock that has moved on since every other access keeps the new entry, unless it alone is too big. */
  lemma NewEntryEvictedOnlyIfTooBig(s: Store, key: string, file: File, touched: int, listing: seq<string>, limit: nat)
    requires IsListing(s.files[key := file], listing)
    requires forall k :: k in s.files && k != key ==> AccessTime(s.log, k) < touched
    ensures key in AfterSet(s, key, file, touched, listing, limit).files <==> file.size <= limit
  {
    var files, log := s.files[key := file], s.log[key := touched];
    EvictionIsMinimal(files, log, listing, limit);
    var sorted, victims := SortByAccess(log, listing), Victims(files, log, listing, limit);
    YoungestIsLast(files, log, sorted, key, touched);
    LastVictim(files, sorted, key, |victims|, limit);
  }

  /** The last entry of the order is among the first `n` to go exactly when it does not fit by itself. */
  lemma LastVictim(files: Files, sorted: seq<string>, key: string, n: nat, limit: nat)
    requires IsListing(files, sorted) && sorted != [] && sorted[|sorted| - 1] == key && n <= |sorted|
    requires (forall k :: k in sorted[n..] ==> k in files) && SizeOf(files, sorted[n..]) <= limit
    requires forall m: nat :: m < n ==> (forall k :: k in sorted[m..] ==> k in files) && SizeOf(files, sorted[m..]) > limit
    ensures key !in sorted[..n] <==> files[key].size <= limit
  {
    var last := |sorted| - 1;
    assert sorted[last..] == [key];
    assert [key][..0] == [];
    if n <= last {
      var kept := sorted[n..];
      assert kept[|kept| - 1] == key;
      assert key !in sorted[..n] by {
        assert forall i :: 0 <= i < n ==> sorted[..n][i] == sorted[i] && sorted[i] != sorted[last];
      }
    } else {
      assert sorted[..n] == sorted;
      assert SizeOf(files, sorted[last..]) > limit;
    }
  }

  lemma YoungestIsLast(files: Files, log: AccessLog, sorted: seq<string>, key: string, touched: int)
    requires IsListing(files, sorted) && OldestFirst(log, sorted)
    requires key in files && AccessTime(log, key) == touched
    requires forall k :: k in files && k != key ==> AccessTime(log, k) < touched
    ensures sorted != [] && sorted[|sorted| - 1] == key
  {
    assert key in sorted;
    var i :| 0 <= i < |sorted| && sorted[i] == key;
    var last := sorted[|sorted| - 1];
    assert last in sorted;
    assert AccessTime(log, sorted[i]) <= AccessTime(log, last);
  }

  // -- Against a plain map ---------------------------------------------------

  datatype Operation =
    | Set(key: string, file: File, touched: int, listing: seq<string>)
    | Get(key: string, now: int, touched: int)
    | Clear(model: Option<string>)

  /** The file system lists the directory truthfully when a `set` asks it to. */
  predicate Truthful(s: Store, op: Operation) {
    op.Set? ==>
      && (forall k :: k in op.listing ==> k in s.files || k == op.key)
      && (forall k :: k in s.files ==> k in op.listing) && op.key in op.listing
      && (forall i, j :: 0 <= i < j < |op.listing| ==> op.listing[i] != op.listing[j])
  }

  function Perform(s: Store, op: Operation, ttl: nat, limit: nat): Store
    requires Truthful(s, op)
  {
    match op
    case Set(key, file, touched, listing) => AfterSet(s, key, file, touched, listing, limit)
    case Get(key, now, touched) => AfterGet(s, key, now, ttl, touched)
    case Clear(model) => AfterClear(s, model)
  }

  const EmptyStore: Store := Store(map[], map[], {})

  ghost predicate AllTruthful(s: Store, ops: seq<Operation>, ttl: nat, limit: nat)
    decreases |ops|
  {
    ops == [] || (Truthful(s, ops[0]) && AllTruthful(Perform(s, ops[0], ttl, limit), ops[1..], ttl, limit))
  }

  function PerformAll(s: Store, ops: seq<Operation>, ttl: nat, limit: nat): Store
    requires AllTruthful(s, ops, ttl, limit)
    decreases |ops|
  {
    if ops == [] then s else PerformAll(Perform(s, ops[0], ttl, limit), ops[1..], ttl, limit)
  }

  /** The plain map: what was last set and not cleared, with no limit on its size. */
  function PlainMap(m: Files, ops: seq<Operation>): Files
    decreases |ops|
  {
    if ops == [] then m else PlainMap(PlainStep(m, ops[0]), ops[1..])
  }

  function PlainStep(m: Files, op: Operation): Files {
    match op
    case Set(key, file, _, _) => m[key := file]
    case Get(_, _, _) => m
    case Clear(model) =>
      if model.None? then map[] else map k | k in m && m[k].model != model.value :: m[k]
  }

  /** The directory holds exactly the entries of the plain map that have not been evicted since they were set. */
  ghost predicate Agrees(s: Store, m: Files) {
    && (forall k :: k in s.files ==> k in m && s.files[k] == m[k] && k !in s.evicted)
    && (forall k :: k in m ==> k in s.files || k in s.evicted)
  }

  lemma {:induction false} CacheRefinesMap(s: Store, m: Files, ops: seq<Operation>, ttl: nat, limit: nat)
    requires AllTruthful(s, ops, ttl, limit) && Agrees(s, m)
    ensures Agrees(PerformAll(s, ops, ttl, limit), PlainMap(m, ops))
    decreases |ops|
  {
    if ops != [] {
      StepAgrees(s, m, ops[0], ttl, limit);
      CacheRefinesMap(Perform(s, ops[0], ttl, limit), PlainStep(m, ops[0]), ops[1..], ttl, limit);
    }
  }

  lemma StepAgrees(s: Store, m: Files, op: Operation, ttl: nat, limit: nat)
    requires Truthful(s, op) && Agrees(s, m)
    ensures Agrees(Perform(s, op, ttl, limit), PlainStep(m, op))
  {
    hide Victims, SortByAccess, IsListing;
  }

  /**
   * Over any history, a lookup answers with the response last set for the key, precisely when that entry
   * has not been cleared, has not been evicted since, and is younger than its time to live.
   */
  lemma GetReturnsLastSet(ops: seq<Operation>, ttl: nat, limit: nat, key: string, now: int)
    requires AllTruthful(EmptyStore, ops, ttl, limit)
    ensures var s, m := PerformAll(EmptyStore, ops, ttl, limit), PlainMap(map[], ops);
      Lookup(s, key, now, ttl) ==
        if key in m && key !in s.evicted && now - m[key].timestamp < ttl then Some(m[key].response) else None
  {
    CacheRefinesMap(EmptyStore, map[], ops, ttl, limit);
  }

  // -- Least recently used ---------------------------------------------------

  /** Operation `op` on `s` uses `key`: it sets it, or it is a lookup that the stored entry answers. */
  predicate Uses(s: Store, op: Operation, key: string, ttl: nat) {
    match op
    case Set(k, _, _, _) => k == key
    case Get(k, now, _) => k == key && k in s.files && now - s.files[k].timestamp < ttl
    case Clear(_) => false
  }

  /** When `key` was last used over a history, `before` if never. */
  function LastUse(s: Store, ops: seq<Operation>, key: string, before: int, ttl: nat, limit: nat): int
    requires AllTruthful(s, ops, ttl, limit)
    decreases |ops|
  {
    if ops == [] then before
    else LastUse(Perform(s, ops[0], ttl, limit), ops[1..], key,
                 if Uses(s, ops[0], key, ttl) then ops[0].touched else before, ttl, limit)
  }

  /** The access log is about every entry that is there. */
  ghost predicate AllLogged(s: Store) {
    forall k :: k in s.files ==> k in s.log
  }

  lemma StepLogs(s: Store, op: Operation, ttl: nat, limit: nat, key: string)
    requires Truthful(s, op) && AllLogged(s)
    ensures AllLogged(Perform(s, op, ttl, limit))
    ensures key in Perform(s, op, ttl, limit).files ==>
      if Uses(s, op, key, ttl) then Perform(s, op, ttl, limit).log[key] == op.touched
      else key in s.files && Perform(s, op, ttl, limit).log[key] == s.log[key]
  {
    hide Victims, SortByAccess, IsListing;
  }

  /** Over any history, the access time of every entry is that of its last `set` or its last answered `get`. */
  lemma {:induction false} AccessIsLastUse(s: Store, ops: seq<Operation>, ttl: nat, limit: nat, key: string, before: int)
    requires AllTruthful(s, ops, ttl, limit) && AllLogged(s) && (key in s.files ==> s.log[key] == before)
    ensures AllLogged(PerformAll(s, ops, ttl, limit))
    ensures key in PerformAll(s, ops, ttl, limit).files ==>
      AccessTime(PerformAll(s, ops, ttl, limit).log, key) == LastUse(s, ops, key, before, ttl, limit)
    decreases |ops|
  {
    if ops != [] {
      StepLogs(s, ops[0], ttl, limit, key);
      hide Perform, Uses;
      AccessIsLastUse(Perform(s, ops[0], ttl, limit), ops[1..], ttl, limit, key,
        if Uses(s, ops[0], key, ttl) then ops[0].touched else before);
    }
  }

  /** When `key` was last used since the cache was empty, counting the `set` that comes next. */
  function LastUseAt(ops: seq<Operation>, next: Operation, key: string, ttl: nat, limit: nat): int
    requires AllTruthful(EmptyStore, ops, ttl, limit) && next.Set?
  {
    if next.key == key then next.touched else LastUse(EmptyStore, ops, key, 0, ttl, limit)
  }

  /**
   * Eviction is by least recent use: over any history, a `set` that evicts some entries and keeps others has
   * evicted none that was used after one it kept.
   */
  lemma EvictsLeastRecentlyUsed(ops: seq<Operation>, next: Operation, ttl: nat, limit: nat, gone: string, kept: string)
    requires AllTruthful(EmptyStore, ops, ttl, limit) && next.Set?
    requires Truthful(PerformAll(EmptyStore, ops, ttl, limit), next)
    requires var s := PerformAll(EmptyStore, ops, ttl, limit);
      && (gone in s.files || gone == next.key) && gone !in Perform(s, next, ttl, limit).files
      && kept in Perform(s, next, ttl, limit).files
    ensures LastUseAt(ops, next, gone, ttl, limit) <= LastUseAt(ops, next, kept, ttl, limit)
  {
    AccessIsLastUse(EmptyStore, ops, ttl, limit, gone, 0);
    AccessIsLastUse(EmptyStore, ops, ttl, limit, kept, 0);
    var s := PerformAll(EmptyStore, ops, ttl, limit);
    hide PerformAll, AllTruthful, LastUse, Perform, Truthful;
    SetEvictsOldest(s, next, ttl, limit, gone, kept);
  }

  lemma SetEvictsOldest(s: Store, next: Operation, ttl: nat, limit: nat, gone: string, kept: string)
    requires next.Set? && Truthful(s, next) && (gone in s.files || gone == next.key)
    requires gone !in Perform(s, next, ttl, limit).files && kept in Perform(s, next, ttl, limit).files
    ensures kept in s.files || kept == next.key
    ensures AccessTime(s.log[next.key := next.touched], gone) <= AccessTime(s.log[next.key := next.touched], kept)
  {
    var files, log := s.files[next.key := next.file], s.log[next.key := next.touched];
    assert IsListing(files, next.listing);
    hide Truthful, IsListing, OldestFirst, SizeOf, SortByAccess;
    EvictionIsMinimal(files, log, next.listing, limit);
    OldestGo(files, log, SortByAccess(log, next.listing), |Victims(files, log, next.listing, limit)|, gone, kept);
  }

  lemma OldestGo(files: Files, log: AccessLog, sorted: seq<string>, n: nat, gone: string, kept: string)
    requires IsListing(files, sorted) && OldestFirst(log, sorted) && n <= |sorted|
    requires gone in files && gone in sorted[..n] && kept in files && kept !in sorted[..n]
    ensures AccessTime(log, gone) <= AccessTime(log, kept)
  {
    assert forall m :: 0 <= m < n ==> sorted[..n][m] == sorted[m];
    var i :| 0 <= i < n && sorted[..n][i] == gone;
    assert kept in sorted;
    var j :| 0 <= j < |sorted| && sorted[j] == kept;
  }

  /** So a hit keeps an entry: used after every other, it survives the next `set` whenever the two fit together. */
  lemma HitSurvives(s: Store, hit: Operation, next: Operation, ttl: nat, limit: nat)
    requires hit.Get? && Uses(s, hit, hit.key, ttl)
    requires next.Set? && next.key != hit.key && Truthful(Perform(s, hit, ttl, limit), next)
    requires forall k :: k in s.files && k != hit.key && k != next.key ==> AccessTime(s.log, k) < hit.touched
    requires hit.touched < next.touched
    requires s.files[hit.key].size + next.file.size <= limit
    ensures hit.key in Perform(Perform(s, hit, ttl, limit), next, ttl, limit).files
  {
    var s1 := Perform(s, hit, ttl, limit);
    assert s1.files == s.files && s1.log == s.log[hit.key := hit.touched];
    hide Truthful, IsListing;
    YoungestTwoStay(s1, next, ttl, limit, hit.key);
  }

  lemma YoungestTwoStay(s: Store, next: Operation, ttl: nat, limit: nat, key: string)
    requires next.Set? && Truthful(s, next) && key in s.files && key != next.key
    requires forall k :: k in s.files && k != key && k != next.key ==> AccessTime(s.log, k) < AccessTime(s.log, key)
    requires AccessTime(s.log, key) < next.touched && s.files[key].size + next.file.size <= limit
    ensures key in Perform(s, next, ttl, limit).files
  {
    var files, log := s.files[next.key := next.file], s.log[next.key := next.touched];
    assert IsListing(files, next.listing);
    hide Truthful, IsListing, OldestFirst, SizeOf, SortByAccess;
    EvictionIsMinimal(files, log, next.listing, limit);
    var sorted, victims := SortByAccess(log, next.listing), Victims(files, log, next.listing, limit);
    LastTwo(files, log, sorted, key, next.key);
    TwoKept(files, sorted, key, next.key, |victims|, limit);
  }

  /** The two youngest entries stand at the end of the order. */
  lemma LastTwo(files: Files, log: AccessLog, sorted: seq<string>, a: string, b: string)
    requires IsListing(files, sorted) && OldestFirst(log, sorted) && a in files && b in files && a != b
    requires AccessTime(log, a) < AccessTime(log, b)
    requires forall k :: k in files && k != a && k != b ==> AccessTime(log, k) < AccessTime(log, a)
    ensures |sorted| >= 2 && sorted[|sorted| - 2..] == [a, b]
  {
    hide AccessTime;
    YoungestIsLast(files, log, sorted, b, AccessTime(log, b));
    var last := |sorted| - 1;
    WithoutLast(files, sorted);
    YoungestIsLast(files - {b}, log, sorted[..last], a, AccessTime(log, a));
  }

  lemma WithoutLast(files: Files, sorted: seq<string>)
    requires IsListing(files, sorted) && sorted != []
    ensures IsListing(files - {sorted[|sorted| - 1]}, sorted[..|sorted| - 1])
  {
    var last := |sorted| - 1;
    assert forall k :: k in sorted <==> k in sorted[..last] || k == sorted[last];
  }

  lemma TwoKept(files: Files, sorted: seq<string>, a: string, b: string, n: nat, limit: nat)
    requires IsListing(files, sorted) && |sorted| >= 2 && sorted[|sorted| - 2..] == [a, b] && n <= |sorted|
    requires a in files && b in files && files[a].size + files[b].size <= limit
    requires forall m: nat :: m < n ==> (forall k :: k in sorted[m..] ==> k in files) && SizeOf(files, sorted[m..]) > limit
    ensures a !in sorted[..n]
  {
    var m := |sorted| - 2;
    SizeOfTwo(files, a, b);
    assert n <= m;
    assert sorted[m] == sorted[m..][0] == a;
    assert forall i :: 0 <= i < n ==> sorted[..n][i] == sorted[i] && sorted[i] != sorted[m];
  }

  lemma SizeOfTwo(files: Files, a: string, b: string)
    requires a in files && b in files
    ensures forall k :: k in [a, b] ==> k in files
    ensures SizeOf(files, [a, b]) == files[a].size + files[b].size
  {
    assert [a, b] == [a] + [b];
    SizeOfAppend(files, [a], [b]);
    assert [a][..0] == [] && [b][..0] == [];
  }

  // -- The cache object ------------------------------------------------------

  class LLMResponseCache {
    const enabled: bool
    const ttl: nat
    const limit: nat
    var files: Files
    var accessLog: AccessLog
    ghost var evicted: set<string>
    var hits: nat
    var misses: nat

    constructor (enabled: bool, ttl: nat, limit: nat)
      ensures this.enabled == enabled && this.ttl == ttl && this.limit == limit
      ensures View() == EmptyStore && hits == misses == 0
    {
      this.enabled, this.ttl, this.limit := enabled, ttl, limit;
      files, accessLog, evicted, hits, misses := map[], map[], {}, 0, 0;
    }

    ghost function View(): Store
      reads this
    {
      Store(files, accessLog, evicted)
    }

    /** `get`; every enabled lookup counts as a hit or as a miss. */
    method Get(key: string, now: int, touched: int) returns (response: Option<string>)
      modifies this`accessLog, this`hits, this`misses
      ensures response == if enabled then Lookup(old(View()), key, now, ttl) else None
      ensures View() == if enabled then AfterGet(old(View()), key, now, ttl, touched) else old(View())
      ensures hits == old(hits) + (if response.Some? then 1 else 0)
      ensures misses == old(misses) + (if enabled && response.None? then 1 else 0)
    {
      if !enabled {
        return None;
      }
      if key !in files {
        misses := misses + 1;
        return None;
      }
      var file := files[key];
      if now - file.timestamp >= ttl {
        misses := misses + 1;
        return None;
      }
      accessLog := accessLog[key := touched];
      hits := hits + 1;
      return Some(file.response);
    }

    /** `set`: write, log the access, then enforce the size limit over the directory as listed. */
    method Set(key: string, file: File, touched: int, listing: seq<string>)
      requires Truthful(View(), Operation.Set(key, file, touched, listing))
      modifies this`files, this`accessLog, this`evicted
      ensures View() == if enabled then AfterSet(old(View()), key, file, touched, listing, limit) else old(View())
    {
      if !enabled {
        return;
      }
      files := files[key := file];
      accessLog := accessLog[key := touched];
      evicted := evicted - {key};
      EnforceSizeLimit(listing);
    }

    method DirectorySize(listing: seq<string>) returns (size: nat)
      requires forall k :: k in listing ==> k in files
      ensures size == SizeOf(files, listing)
    {
      size := 0;
      for i := 0 to |listing|
        invariant forall k :: k in listing[..i] ==> k in files
        invariant size == SizeOf(files, listing[..i])
      {
        assert listing[i] in listing;
        assert listing[..i + 1] == listing[..i] + [listing[i]] && listing[..i + 1][..i] == listing[..i];
        size := size + files[listing[i]].size;
      }
      assert listing[..|listing|] == listing;
    }

    /** `_enforce_size_limit`: deletes files, oldest access first, until the rest fits. */
    method EnforceSizeLimit(listing: seq<string>)
      requires IsListing(files, listing)
      modifies this`files, this`accessLog, this`evicted
      ensures var victims := Victims(old(files), old(accessLog), listing, limit);
        && files == Without(old(files), victims)
        && accessLog == WithoutLog(old(accessLog), victims)
        && evicted == old(evicted) + KeySet(victims)
    {
      hide SortByAccess;
      ListingSorted(files, accessLog, listing);
      var sorted := SortByAccess(accessLog, listing);
      var size := DirectorySize(listing);
      SizeOfPermutation(files, listing, sorted);
      ghost var n := Excess(files, sorted, limit);
      assert Victims(files, accessLog, listing, limit) == sorted[..n];
      assert sorted[0..] == sorted;
      if size <= limit {
        assert n == 0;
        return;
      }
      assert size == SizeFrom(files, sorted, 0);
      EvictUntilFits(sorted, size);
    }

    /** The eviction loop over the sorted entries. */
    method EvictUntilFits(sorted: seq<string>, total: nat)
      requires IsListing(files, sorted) && total == SizeFrom(files, sorted, 0)
      modifies this`files, this`accessLog, this`evicted
      ensures var victims := sorted[..Cutoff(old(files), sorted, limit)];
        && files == Without(old(files), victims)
        && accessLog == WithoutLog(old(accessLog), victims)
        && evicted == old(evicted) + KeySet(victims)
    {
      hide IsListing, Cutoff, Without, WithoutLog, KeySet, SizeFrom;
      ghost var f0, log0, n := files, accessLog, Cutoff(files, sorted, limit);
      WithoutNone(files, accessLog);
      assert sorted[..0] == [];
      var i, size := 0, total;
      while i < |sorted| && size > limit
        invariant i <= n && size == SizeFrom(f0, sorted, i)
        invariant files == Without(f0, sorted[..i]) && accessLog == WithoutLog(log0, sorted[..i])
        invariant evicted == old(evicted) + KeySet(sorted[..i])
      {
        StopsAtCutoff(f0, sorted, limit, i);
        DropNext(f0, log0, sorted, i);
        size := size - files[sorted[i]].size;
        files := files - {sorted[i]};
        accessLog := accessLog - {sorted[i]};
        evicted := evicted + {sorted[i]};
        i := i + 1;
      }
      StopsAtCutoff(f0, sorted, limit, i);
    }

    /** `clear`. */
    method Clear(model: Option<string>)
      modifies this`files, this`accessLog, this`evicted
      ensures View() == if enabled then AfterClear(old(View()), model) else old(View())
    {
      if !enabled {
        return;
      }
      if model.None? {
        files, accessLog, evicted := map[], map[], {};
        return;
      }
      var left := files.Keys;
      while left != {}
        invariant left <= old(files).Keys && evicted == old(evicted)
        invariant files == map k | k in old(files) && (k in left || old(files)[k].model != model.value) :: old(files)[k]
        invariant accessLog == map k | k in old(accessLog) &&
          !(k in old(files) && k !in left && old(files)[k].model == model.value) :: old(accessLog)[k]
        decreases |left|
      {
        var key :| key in left;
        left := left - {key};
        if files[key].model == model.value {
          files := files - {key};
          accessLog := accessLog - {key};
        }
      }
      assert files == AfterClear(old(View()), model).files;
      assert accessLog == AfterClear(old(View()), model).log;
    }
  }

  /** The size of the entries from position `i` on. */
  ghost function SizeFrom(files: Files, sorted: seq<string>, i: nat): nat
    requires i <= |sorted| && IsListing(files, sorted)
  {
    assert forall k :: k in sorted[i..] ==> k in sorted;
    SizeOf(files, sorted[i..])
  }

  /** `Excess`, for a listing. */
  ghost function Cutoff(files: Files, sorted: seq<string>, limit: nat): (n: nat)
    requires IsListing(files, sorted)
    ensures n <= |sorted|
  {
    Excess(files, sorted, limit)
  }

  /** Going through the order, the directory stops being too big exactly at the cutoff. */
  lemma StopsAtCutoff(files: Files, sorted: seq<string>, limit: nat, i: nat)
    requires IsListing(files, sorted)
    requires i <= Cutoff(files, sorted, limit)
    ensures i < Cutoff(files, sorted, limit) <==> SizeFrom(files, sorted, i) > limit
  {
  }

  lemma WithoutNone(files: Files, log: AccessLog)
    ensures Without(files, []) == files && WithoutLog(log, []) == log && KeySet([]) == {}
  {
  }

  /** Deleting the oldest remaining entry takes its size off the total. */
  lemma DropNext(files: Files, log: AccessLog, sorted: seq<string>, i: nat)
    requires i < |sorted| && IsListing(files, sorted)
    ensures var key, left := sorted[i], Without(files, sorted[..i]);
      && key in left && left - {key} == Without(files, sorted[..i + 1])
      && WithoutLog(log, sorted[..i]) - {key} == WithoutLog(log, sorted[..i + 1])
      && KeySet(sorted[..i]) + {key} == KeySet(sorted[..i + 1])
      && SizeFrom(files, sorted, i) == left[key].size + SizeFrom(files, sorted, i + 1)
  {
    var key := sorted[i];
    assert key in sorted;
    assert sorted[..i + 1] == sorted[..i] + [key];
    SizeStep(files, sorted, i);
  }

  lemma SizeStep(files: Files, sorted: seq<string>, i: nat)
    requires i < |sorted| && IsListing(files, sorted)
    ensures sorted[i] in files && SizeFrom(files, sorted, i) == files[sorted[i]].size + SizeFrom(files, sorted, i + 1)
  {
    var key := sorted[i];
    assert key in sorted;
    assert sorted[i..] == [key] + sorted[i + 1..];
    assert forall k :: k in sorted[i..] ==> k in sorted;
    SizeOfAppend(files, [key], sorted[i + 1..]);
    assert [key][..0] == [];
  }
}

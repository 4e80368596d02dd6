/** Kahn's algorithm over a dependency map, as the workflow module runs it once at import time. */
module TopologicalOrder {
  import opened Wrappers

  ghost predicate Closed<S(!new)>(deps: map<S, set<S>>) {
    forall s :: s in deps ==> deps[s] <= deps.Keys
  }

  ghost predicate Distinct<S(!new)>(s: seq<S>) {
    forall i, j :: 0 <= i < j < |s| ==> s[i] != s[j]
  }

  /** Every step comes after all its dependencies. */
  ghost predicate Respects<S(!new)>(deps: map<S, set<S>>, order: seq<S>) {
    && (forall s :: s in order ==> s in deps)
    && forall i {:trigger DependsOnlyOn(deps, order[i], order[..i])} :: 0 <= i < |order| ==>
         DependsOnlyOn(deps, order[i], order[..i])
  }

  ghost predicate DependsOnlyOn<S(!new)>(deps: map<S, set<S>>, s: S, earlier: seq<S>)
    requires s in deps
  {
    forall d :: d in deps[s] ==> d in earlier
  }

  ghost predicate SameMembers<S(!new)>(keys: set<S>, s: seq<S>) {
    forall x :: x in keys <==> x in s
  }

  ghost predicate IsTopologicalOrder<S(!new)>(deps: map<S, set<S>>, order: seq<S>) {
    Distinct(order) && SameMembers(deps.Keys, order) && Respects(deps, order)
  }

  /** A closed walk along dependency edges. */
  ghost predicate IsCycle<S(!new)>(deps: map<S, set<S>>, walk: seq<S>) {
    |walk| >= 2 && walk[0] == walk[|walk| - 1] && IsWalk(deps, walk)
  }

  ghost predicate IsWalk<S(!new)>(deps: map<S, set<S>>, walk: seq<S>) {
    forall i, j :: 0 <= i && j == i + 1 && j < |walk| ==> Edge(deps, walk[i], walk[j])
  }

  ghost predicate Edge<S(!new)>(deps: map<S, set<S>>, s: S, d: S) {
    s in deps && d in deps[s]
  }

  /** `level[s]` is the length of the longest dependency chain below `s`. */
  ghost predicate IsLevelling<S(!new)>(deps: map<S, set<S>>, level: map<S, nat>) {
    level.Keys <= deps.Keys && forall s {:trigger Levelled(deps, level, s)} :: s in level ==> Levelled(deps, level, s)
  }

  ghost predicate Levelled<S(!new)>(deps: map<S, set<S>>, level: map<S, nat>, s: S)
    requires s in level && s in deps
  {
    && (forall d :: d in deps[s] ==> d in level && level[d] < level[s])
    && (level[s] == 0 || exists d :: d in deps[s] && d in level && level[d] == level[s] - 1)
  }

  ghost predicate Before<S(!new)>(level: map<S, nat>, key: S -> int, a: S, b: S)
    requires a in level && b in level
  {
    level[a] < level[b] || (level[a] == level[b] && key(a) < key(b))
  }

  /** Shallow steps first; among equally deep steps, by name. */
  ghost predicate SortedByLevel<S(!new)>(level: map<S, nat>, key: S -> int, order: seq<S>)
    requires SameMembers(level.Keys, order)
  {
    forall i, j :: 0 <= i < j < |order| ==> Before(level, key, order[i], order[j])
  }

  ghost predicate NamesAreUnique<S(!new)>(steps: set<S>, key: S -> int) {
    forall a, b :: a in steps && b in steps && key(a) == key(b) ==> a == b
  }

  ghost predicate SortedByName<S(!new)>(key: S -> int, s: seq<S>) {
    forall i, j :: 0 <= i < j < |s| ==> key(s[i]) < key(s[j])
  }

  /** `sorted(ready, key=value)`. */
  method SortByName<S(==, !new)>(ready: set<S>, key: S -> int) returns (sorted: seq<S>)
    requires NamesAreUnique(ready, key)
    ensures SameMembers(ready, sorted) && SortedByName(key, sorted)
  {
    sorted := [];
    var rest := ready;
    while rest != {}
      invariant rest <= ready && SortedByName(key, sorted)
      invariant forall s :: s in ready <==> s in rest || s in sorted
      invariant forall i, s :: 0 <= i < |sorted| && s in rest ==> key(sorted[i]) < key(s)
      decreases rest
    {
      var least := LeastNamed(rest, key);
      sorted := sorted + [least];
      rest := rest - {least};
    }
  }

  method LeastNamed<S(==, !new)>(steps: set<S>, key: S -> int) returns (least: S)
    requires steps != {} && NamesAreUnique(steps, key)
    ensures least in steps && forall s :: s in steps && s != least ==> key(least) < key(s)
  {
    least :| least in steps;
    var others := steps - {least};
    while others != {}
      invariant least in steps && others <= steps
      invariant forall s :: s in steps && s !in others ==> key(least) <= key(s)
      decreases others
    {
      var s: S :| s in others;
      others := others - {s};
      if key(s) < key(least) {
        least := s;
      }
    }
  }

  /** What the loop has established about the steps placed so far. */
  ghost predicate Placed<S(!new)>(deps: map<S, set<S>>, key: S -> int, ordered: seq<S>, level: map<S, nat>,
                                  round: nat)
  {
    && SameMembers(level.Keys, ordered) && Respects(deps, ordered)
    && IsLevelling(deps, level) && SortedByLevel(level, key, ordered)
    && forall s :: s in level ==> level[s] < round
  }

  /** A step not yet placed is waiting at least for the previous round. */
  ghost predicate Waiting<S(!new)>(deps: map<S, set<S>>, level: map<S, nat>, round: nat, s: S)
    requires s in deps
  {
    round == 0 || exists d :: d in deps[s] && (d in level ==> level[d] == round - 1)
  }

  /** `remaining` is what of the input is not `done`, and all of it is waiting. */
  ghost predicate Pending<S(!new)>(deps: map<S, set<S>>, remaining: map<S, set<S>>, level: map<S, nat>, round: nat)
  {
    && remaining == deps - level.Keys
    && forall s {:trigger Waiting(deps, level, round, s)} :: s in remaining ==> Waiting(deps, level, round, s)
  }

  method KahnOrder<S(==, !new)>(deps: map<S, set<S>>, key: S -> int)
    returns (result: Option<seq<S>>, ghost level: map<S, nat>)
    requires NamesAreUnique(deps.Keys, key)
    ensures result.Some? ==> IsTopologicalOrder(deps, result.value)
    ensures result.Some? ==> SameMembers(level.Keys, result.value) && IsLevelling(deps, level)
                             && SortedByLevel(level, key, result.value)
    ensures Closed(deps) ==> (result.None? <==> exists walk :: IsCycle(deps, walk))
  {
    var remaining := deps;
    var ordered: seq<S> := [];
    var done: set<S> := {};
    ghost var round := 0;
    level := map[];
    while remaining != map[]
      invariant Placed(deps, key, ordered, level, round) && Pending(deps, remaining, level, round)
      invariant done == level.Keys <= deps.Keys
      decreases remaining.Keys
    {
      var ready := set s | s in remaining && remaining[s] <= done;
      var batch := SortByName(ready, key);
      if |batch| == 0 {
        NothingReady(deps, remaining, done, level, ready, batch);
        return None, level;
      }
      ghost var level' := Assign(level, ready, round);
      PlacesBatch(deps, key, ordered, level, round, batch, ready, remaining);
      assert batch[0] in ready;
      ordered := ordered + batch;
      done := done + ready;
      remaining := remaining - ready;
      level := level';
      round := round + 1;
    }
    Finished(deps, key, ordered, level, round);
    result := Some(ordered);
  }

  /** The steps of one round all get that round as their level. */
  ghost function Assign<S(!new)>(level: map<S, nat>, ready: set<S>, round: nat): (level': map<S, nat>)
    ensures level'.Keys == level.Keys + ready
    ensures forall s :: s in level' ==> level'[s] == if s in ready then round else level[s]
  {
    if ready == {} then level else
      var s :| s in ready;
      Assign(level, ready - {s}, round)[s := round]
  }

  lemma Finished<S(!new)>(deps: map<S, set<S>>, key: S -> int, ordered: seq<S>, level: map<S, nat>, round: nat)
    requires Placed(deps, key, ordered, level, round) && deps - level.Keys == map[] && level.Keys <= deps.Keys
    ensures IsTopologicalOrder(deps, ordered)
    ensures !exists walk :: IsCycle(deps, walk)
  {
    forall s | s in deps ensures s in level { assert s !in deps - level.Keys; }
    SortedIsDistinct(level, key, ordered);
    forall walk | IsCycle(deps, walk) ensures false { OrderExcludesCycle(deps, ordered, walk); }
  }

  /** A round in which nothing is ready: the steps left over wait for each other. */
  lemma NothingReady<S(!new)>(deps: map<S, set<S>>, remaining: map<S, set<S>>, done: set<S>, level: map<S, nat>,
                              ready: set<S>, batch: seq<S>)
    requires remaining == deps - level.Keys && done == level.Keys && remaining != map[]
    requires ready == set s | s in remaining && remaining[s] <= done
    requires SameMembers(ready, batch) && |batch| == 0
    ensures Closed(deps) ==> exists walk :: IsCycle(deps, walk)
  {
    if Closed(deps) {
      assert remaining.Keys != {};
      forall s | s in remaining.Keys ensures WaitsWithin(deps, remaining.Keys, s) {
        assert s !in batch && s !in ready;
        var d :| d in remaining[s] && d !in done;
        assert Edge(deps, s, d) && d in remaining;
      }
      StuckMeansCycle(deps, remaining.Keys);
    }
  }

  lemma SortedIsDistinct<S(!new)>(level: map<S, nat>, key: S -> int, order: seq<S>)
    requires SameMembers(level.Keys, order) && SortedByLevel(level, key, order)
    ensures Distinct(order)
  {
  }

  /** Appending one sorted batch of ready steps keeps everything established so far. */
  lemma PlacesBatch<S(!new)>(deps: map<S, set<S>>, key: S -> int, ordered: seq<S>, level: map<S, nat>,
                             round: nat, batch: seq<S>, ready: set<S>, remaining: map<S, set<S>>)
    requires Placed(deps, key, ordered, level, round) && Pending(deps, remaining, level, round)
    requires SameMembers(ready, batch) && SortedByName(key, batch)
    requires ready == set s | s in remaining && remaining[s] <= level.Keys
    ensures Placed(deps, key, ordered + batch, Assign(level, ready, round), round + 1)
    ensures Pending(deps, remaining - ready, Assign(level, ready, round), round + 1)
  {
    var level' := Assign(level, ready, round);
    forall s | s in ready ensures s in deps && s !in level && deps[s] <= level.Keys && Waiting(deps, level, round, s) {
      assert remaining[s] == deps[s];
    }
    BatchRespects(deps, ordered, level, batch, ready);
    BatchLevelled(deps, level, round, ready);
    BatchSorted(key, ordered, level, round, batch, ready);
    assert remaining - ready == deps - level'.Keys;
    StillWaiting(deps, level, ready, remaining, round);
  }

  lemma BatchRespects<S(!new)>(deps: map<S, set<S>>, ordered: seq<S>, level: map<S, nat>, batch: seq<S>, ready: set<S>)
    requires SameMembers(level.Keys, ordered) && Respects(deps, ordered)
    requires SameMembers(ready, batch) && ready <= deps.Keys
    requires forall s :: s in ready ==> deps[s] <= level.Keys
    ensures Respects(deps, ordered + batch)
  {
    var all := ordered + batch;
    forall i | 0 <= i < |all| ensures all[i] in deps && DependsOnlyOn(deps, all[i], all[..i]) {
      if i < |ordered| {
        assert all[..i] == ordered[..i];
      } else {
        assert all[i] == batch[i - |ordered|] && all[i] in ready;
        assert all[..i] == ordered + batch[..i - |ordered|];
      }
    }
  }

  lemma BatchLevelled<S(!new)>(deps: map<S, set<S>>, level: map<S, nat>, round: nat, ready: set<S>)
    requires IsLevelling(deps, level) && (forall s :: s in level ==> level[s] < round)
    requires ready !! level.Keys && ready <= deps.Keys
    requires forall s :: s in ready ==> deps[s] <= level.Keys && Waiting(deps, level, round, s)
    ensures IsLevelling(deps, Assign(level, ready, round))
  {
    var level' := Assign(level, ready, round);
    forall s | s in level' ensures s in deps && Levelled(deps, level', s) {
      if s in ready {
        assert Waiting(deps, level, round, s);
      } else {
        assert Levelled(deps, level, s);
      }
    }
  }

  lemma BatchSorted<S(!new)>(key: S -> int, ordered: seq<S>, level: map<S, nat>, round: nat, batch: seq<S>,
                             ready: set<S>)
    requires SameMembers(level.Keys, ordered) && SortedByLevel(level, key, ordered)
    requires forall s :: s in level ==> level[s] < round
    requires SameMembers(ready, batch) && SortedByName(key, batch) && ready !! level.Keys
    ensures SameMembers(Assign(level, ready, round).Keys, ordered + batch)
    ensures SortedByLevel(Assign(level, ready, round), key, ordered + batch)
  {
  }

  lemma StillWaiting<S(!new)>(deps: map<S, set<S>>, level: map<S, nat>, ready: set<S>, remaining: map<S, set<S>>,
                              round: nat)
    requires remaining == deps - level.Keys
    requires ready == set s | s in remaining && remaining[s] <= level.Keys
    ensures forall s :: s in remaining && s !in ready ==> Waiting(deps, Assign(level, ready, round), round + 1, s)
  {
  }

  // ---- stuck exactly on a cycle ----

  ghost predicate WaitsWithin<S(!new)>(deps: map<S, set<S>>, stuck: set<S>, s: S) {
    exists d :: Edge(deps, s, d) && d in stuck
  }

  ghost predicate AllWaitWithin<S(!new)>(deps: map<S, set<S>>, stuck: set<S>) {
    forall s {:trigger WaitsWithin(deps, stuck, s)} :: s in stuck ==> WaitsWithin(deps, stuck, s)
  }

  /** A non-empty set of steps each waiting on another of them contains a cycle. */
  lemma StuckMeansCycle<S(!new)>(deps: map<S, set<S>>, stuck: set<S>)
    requires stuck != {}
    requires AllWaitWithin(deps, stuck)
    ensures exists walk :: IsCycle(deps, walk)
  {
    var walk := LongWalk(deps, stuck, |stuck|);
    if Distinct(walk) {
      DistinctCount(walk, stuck);
    }
    var i, j :| 0 <= i < j < |walk| && walk[i] == walk[j];
    var loop := walk[i..j + 1];
    forall k, l | 0 <= k && l == k + 1 && l < |loop| ensures Edge(deps, loop[k], loop[l]) {
      assert Edge(deps, walk[i + k], walk[i + l]);
    }
    assert IsCycle(deps, loop);
  }

  lemma {:induction false} LongWalk<S(!new)>(deps: map<S, set<S>>, stuck: set<S>, n: nat)
    returns (walk: seq<S>)
    requires stuck != {}
    requires AllWaitWithin(deps, stuck)
    ensures |walk| == n + 1 && IsWalk(deps, walk) && forall x :: x in walk ==> x in stuck
  {
    if n == 0 {
      var s :| s in stuck;
      walk := [s];
    } else {
      var shorter := LongWalk(deps, stuck, n - 1);
      var last := shorter[n - 1];
      assert last in stuck && WaitsWithin(deps, stuck, last);
      var d :| Edge(deps, last, d) && d in stuck;
      walk := Extend(deps, shorter, d);
      forall x | x in walk ensures x in stuck { assert x in shorter || x == d; }
    }
  }

  lemma Extend<S(!new)>(deps: map<S, set<S>>, shorter: seq<S>, d: S) returns (walk: seq<S>)
    requires |shorter| > 0 && IsWalk(deps, shorter) && Edge(deps, shorter[|shorter| - 1], d)
    ensures walk == shorter + [d] && IsWalk(deps, walk)
  {
    walk := shorter + [d];
  }

  lemma {:induction false} DistinctCount<S(!new)>(s: seq<S>, within: set<S>)
    requires Distinct(s) && forall x :: x in s ==> x in within
    ensures |s| <= |within|
  {
    if s != [] {
      assert s[0] in within;
      forall x | x in s[1..] ensures x in within - {s[0]} {
        assert x in s;
        var k :| 0 <= k < |s[1..]| && s[1..][k] == x;
        assert s[k + 1] != s[0];
      }
      DistinctCount(s[1..], within - {s[0]});
    }
  }

  lemma OrderExcludesCycle<S(!new)>(deps: map<S, set<S>>, order: seq<S>, walk: seq<S>)
    requires IsTopologicalOrder(deps, order) && IsWalk(deps, walk) && |walk| >= 2
    ensures walk[0] != walk[|walk| - 1]
  {
    assert Edge(deps, walk[0], walk[1]);
    assert walk[0] in order;
    var at :| 0 <= at < |order| && order[at] == walk[0];
    var end := Descends(deps, order, walk, at, |walk| - 1);
  }

  /** Following `n` dependency edges from position `at` ends strictly earlier in the order. */
  lemma {:induction false} Descends<S(!new)>(deps: map<S, set<S>>, order: seq<S>, walk: seq<S>, at: nat, n: nat)
    returns (end: nat)
    requires Respects(deps, order) && IsWalk(deps, walk)
    requires 0 < n < |walk| && at < |order| && order[at] == walk[0]
    ensures end < at && order[end] == walk[n]
  {
    var from := at;
    if n > 1 {
      from := Descends(deps, order, walk, at, n - 1);
    }
    assert Edge(deps, walk[n - 1], walk[n]);
    assert DependsOnlyOn(deps, order[from], order[..from]);
    end :| 0 <= end < from && order[..from][end] == walk[n];
  }

  // ---- the result does not depend on how the dictionary happens to be iterated ----

  lemma {:induction false} LevelUnique<S(!new)>(deps: map<S, set<S>>, a: map<S, nat>, b: map<S, nat>, s: S)
    requires IsLevelling(deps, a) && IsLevelling(deps, b) && a.Keys == b.Keys && s in a
    ensures a[s] == b[s]
    decreases a[s]
  {
    assert Levelled(deps, a, s) && Levelled(deps, b, s);
    forall d | d in deps[s] ensures a[d] == b[d] { LevelUnique(deps, a, b, d); }
  }

  /** Any two results of the algorithm on the same dependency map are the same sequence. */
  lemma {:induction false} KahnIsDeterministic<S(!new)>(deps: map<S, set<S>>, key: S -> int,
                                                        a: seq<S>, la: map<S, nat>, b: seq<S>, lb: map<S, nat>)
    requires SameMembers(la.Keys, a) && SameMembers(lb.Keys, b) && la.Keys == lb.Keys
    requires IsLevelling(deps, la) && IsLevelling(deps, lb)
    requires SortedByLevel(la, key, a) && SortedByLevel(lb, key, b)
    ensures a == b
  {
    forall s | s in la ensures la[s] == lb[s] { LevelUnique(deps, la, lb, s); }
    assert la == lb;
    SortedUnique(la, key, a, b);
  }

  lemma {:induction false} SortedUnique<S(!new)>(level: map<S, nat>, key: S -> int, a: seq<S>, b: seq<S>)
    requires forall x :: x in a ==> x in level
    requires forall i, j :: 0 <= i < j < |a| ==> Before(level, key, a[i], a[j])
    requires forall x :: x in b <==> x in a
    requires forall i, j :: 0 <= i < j < |b| ==> Before(level, key, b[i], b[j])
    ensures a == b
  {
    if a == [] || b == [] {
      assert multiset(a) == multiset(b) by { assert forall x :: x in multiset(a) <==> x in a; }
    } else {
      assert a[0] in b && b[0] in a;
      assert a[0] == b[0];
      TailMembers(level, key, a, b);
      TailMembers(level, key, b, a);
      SortedUnique(level, key, a[1..], b[1..]);
      assert a == [a[0]] + a[1..] && b == [b[0]] + b[1..];
    }
  }

  lemma TailMembers<S(!new)>(level: map<S, nat>, key: S -> int, a: seq<S>, b: seq<S>)
    requires forall x :: x in a ==> x in level
    requires forall i, j :: 0 <= i < j < |a| ==> Before(level, key, a[i], a[j])
    requires forall x :: x in b <==> x in a
    requires |a| > 0 && |b| > 0 && a[0] == b[0]
    ensures forall x :: x in a[1..] ==> x in b[1..]
  {
    forall x | x in a[1..] ensures x in b[1..] {
      var k :| 0 <= k < |a[1..]| && a[1..][k] == x;
      assert Before(level, key, a[0], a[k + 1]);
      assert x in b && x != b[0];
    }
  }
}

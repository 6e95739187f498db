/**
 The de-activation searches as functions of the dependency matrix: what they compute when
 every allocation succeeds.
 */
module DepSearch {
  import opened DepSpec

  const EOPNOTSUPP := 95

  // ------------------------------------------------ counting visits

  /** How many nodes are not visited. */
  ghost function Unvisited(visited: seq<bool>): nat {
    if visited == [] then 0 else Unvisited(visited[1..]) + if visited[0] then 0 else 1
  }

  lemma {:induction false} UnvisitedDrops(visited: seq<bool>, i: nat)
    requires i < |visited| && !visited[i]
    ensures Unvisited(visited[i := true]) == Unvisited(visited) - 1
  {
    if i > 0 {
      UnvisitedDrops(visited[1..], i - 1);
      assert visited[i := true][1..] == visited[1..][i - 1 := true];
    } else {
      assert visited[i := true][1..] == visited[1..];
    }
  }

  lemma {:induction false} UnvisitedFalls(before: seq<bool>, after: seq<bool>, i: nat)
    requires i < |before| == |after| && !before[i] && after[i]
    requires forall k :: 0 <= k < |before| && before[k] ==> after[k]
    ensures Unvisited(after) < Unvisited(before)
  {
    if i > 0 {
      UnvisitedFalls(before[1..], after[1..], i - 1);
    } else {
      UnvisitedFallsOrStays(before[1..], after[1..]);
    }
  }

  lemma {:induction false} UnvisitedFallsOrStays(before: seq<bool>, after: seq<bool>)
    requires |before| == |after| && forall k :: 0 <= k < |before| && before[k] ==> after[k]
    ensures Unvisited(after) <= Unvisited(before)
  {
    if before != [] {
      UnvisitedFallsOrStays(before[1..], after[1..]);
    }
  }

  predicate InRange(items: seq<nat>, n: nat) {
    forall x :: x in items ==> x < n
  }

  // ------------------------------------------------ one node and what depends on it

  /** How a scan of a node's dependents ends; `active` if one is not ready to let go. */
  datatype Scan = Scan(visited: seq<bool>, items: seq<nat>, active: bool)

  /** Dependents of `u` from `i` on that are ready to let go are marked and stacked, up to the first that is not. */
  function ScanReady(m: Matrix, u: nat, i: nat, visited: seq<bool>, items: seq<nat>): (r: Scan)
    requires i <= |m| == |visited| && u < |m| && InRange(items, |m|)
    ensures |r.visited| == |m| && InRange(r.items, |m|)
    ensures Unvisited(r.visited) + |r.items| == Unvisited(visited) + |items|
    ensures forall k :: 0 <= k < |m| && visited[k] ==> r.visited[k]
    decreases |m| - i
  {
    if i == |m| then Scan(visited, items, false)
    else if visited[i] then ScanReady(m, u, i + 1, visited, items)
    else if m[i][u].Dependent? then Scan(visited, items, true)
    else if m[i][u].DisconnectReady? then
      UnvisitedDrops(visited, i);
      ScanReady(m, u, i + 1, visited[i := true], [i] + items)
    else ScanReady(m, u, i + 1, visited, items)
  }

  /** How a search ends: it drains its stack, or meets an active dependent with `left` still stacked. */
  datatype Descent = Descent(visited: seq<bool>, left: seq<nat>, done: set<nat>, active: bool)

  function SinkAll(m: Matrix, visited: seq<bool>, items: seq<nat>, done: set<nat>): (r: Descent)
    requires |visited| == |m| && InRange(items, |m|)
    ensures |r.visited| == |m| && InRange(r.left, |m|) && (!r.active ==> r.left == [])
    ensures done <= r.done && (items != [] ==> items[0] in r.done)
    ensures forall k :: 0 <= k < |m| && visited[k] ==> r.visited[k]
    decreases Unvisited(visited) + |items|
  {
    if items == [] then Descent(visited, [], done, false)
    else
      assert items[0] in items && forall x :: x in items[1..] ==> x in items;
      var scan := ScanReady(m, items[0], 0, visited, items[1..]);
      if scan.active then Descent(scan.visited, scan.items, done + {items[0]}, true)
      else SinkAll(m, scan.visited, scan.items, done + {items[0]})
  }

  /** What is still stacked is unvisited again. */
  function Unmarked(visited: seq<bool>, left: seq<nat>): (r: seq<bool>)
    ensures |r| == |visited| && forall i :: 0 <= i < |r| ==> r[i] == (visited[i] && i !in left)
  {
    seq(|visited|, i requires 0 <= i < |visited| => visited[i] && i !in left)
  }

  /** The search from one node. */
  function Minimal(m: Matrix, before: seq<bool>, source: nat): (r: Descent)
    requires source < |m| == |before|
    ensures |r.visited| == |m| && source in r.done
  {
    var s := SinkAll(m, before[source := true], [source], {});
    s.(visited := Unmarked(s.visited, s.left))
  }

  /** An active dependent is reported only if nothing was left on the stack: each pop overwrites the status. */
  function Report(r: Descent): int {
    if r.active && r.left == [] then -EOPNOTSUPP else 0
  }

  // ------------------------------------------------ what is reported

  /** Nobody below `n` that is not visited yet waits to let go of `u`. */
  ghost predicate NoneReady(m: Matrix, u: nat, n: nat, visited: seq<bool>)
    requires n <= |m| == |visited| && u < |m|
  {
    forall i: nat :: i < n && m[i][u].DisconnectReady? ==> visited[i]
  }

  /** The first node that depends on `u`, is not visited yet and is not ready to let go. */
  ghost predicate FirstActive(m: Matrix, u: nat, n: nat, visited: seq<bool>)
    requires n < |m| == |visited| && u < |m|
  {
    && m[n][u].Dependent? && !visited[n]
    && forall i: nat :: i < n && m[i][u].Dependent? ==> visited[i]
  }

  /** A scan stops at the first active dependent, and has stacked something exactly if a smaller one was ready. */
  lemma {:induction false} ScanStops(m: Matrix, u: nat, i: nat, n: nat, visited: seq<bool>, items: seq<nat>)
    requires i <= n < |m| == |visited| && u < |m| && InRange(items, |m|) && FirstActive(m, u, n, visited)
    ensures var r := ScanReady(m, u, i, visited, items);
            && r.active && |r.items| >= |items|
            && (r.items == items <==> forall k: nat :: i <= k < n && m[k][u].DisconnectReady? ==> visited[k])
            && (|r.items| == |items| ==> r.items == items)
    decreases n - i
  {
    if i < n {
      if !visited[i] && m[i][u].DisconnectReady? {
        ScanStops(m, u, i + 1, n, visited[i := true], [i] + items);
      } else {
        ScanStops(m, u, i + 1, n, visited, items);
      }
    }
  }

  /** An active dependent of the start node itself is reported exactly if no smaller dependent was ready to let go. */
  lemma OwnActiveReported(m: Matrix, before: seq<bool>, source: nat, n: nat)
    requires source < |m| == |before| && n < |m| && FirstActive(m, source, n, before[source := true])
    ensures var r := Minimal(m, before, source);
            r.active && (Report(r) == -EOPNOTSUPP <==> NoneReady(m, source, n, before[source := true]))
  {
    ScanStops(m, source, 0, n, before[source := true], []);
    assert [source][1..] == [];
  }

  /**
   Nodes 0 and 2 depend on node 1, node 0 is ready to let go and node 2 is not: the search from 1
   stops, and reports 0.
   */
  lemma ActiveUnreported()
    ensures var m := [[NotDependent, DisconnectReady, NotDependent], [NotDependent, NotDependent, NotDependent],
                      [NotDependent, Dependent, NotDependent]];
            var r := Minimal(m, [false, false, false], 1);
            r.active && Report(r) == 0
  {
    var m: Matrix := [[NotDependent, DisconnectReady, NotDependent], [NotDependent, NotDependent, NotDependent],
                      [NotDependent, Dependent, NotDependent]];
    assert FirstActive(m, 1, 2, [false, false, false][1 := true]);
    assert !NoneReady(m, 1, 2, [false, false, false][1 := true]) by { assert m[0][1].DisconnectReady?; }
    OwnActiveReported(m, [false, false, false], 1, 2);
  }

  // ------------------------------------------------ how far a search has come

  /**
   How far it has come: `done` is in the mask, and what is visited was so before, or is done or
   stacked, or is `extra`.
   */
  ghost predicate Sinking(edge: Edges, source: nat, before: seq<bool>, visited: seq<bool>, items: seq<nat>,
                          done: set<nat>, extra: set<nat>)
  {
    && |visited| == |before| && (source in done || (items == [source] && done == {}))
    && (forall x :: x in done || x in items ==> x < |before| && Reach(edge, source, x))
    && NoRepeats(items) && (forall x :: x in items ==> x !in done && (x == source || !before[x]))
    && (forall i: nat :: i < |before| ==> (visited[i] <==> before[i] || i in done || i in items || i in extra))
  }

  /** Everyone below `n` that depends on `u`, ready to let go or not, is visited. */
  ghost predicate Heard(m: Matrix, u: nat, n: nat, visited: seq<bool>)
    requires n <= |m| == |visited| && u < |m|
  {
    forall i: nat :: i < n && (m[i][u].Dependent? || m[i][u].DisconnectReady?) ==> visited[i]
  }

  lemma SinkingPush(edge: Edges, source: nat, before: seq<bool>, visited: seq<bool>, items: seq<nat>, done: set<nat>,
                    u: nat, i: nat)
    requires Sinking(edge, source, before, visited, items, done, {})
    requires i < |visited| && !visited[i] && u in done && edge(u, i)
    ensures Sinking(edge, source, before, visited[i := true], [i] + items, done, {})
    ensures Sinking(edge, source, before, visited[i := true], items, done, {i})
  {
    ReachStep(edge, source, u, i);
  }

  lemma SinkingPop(edge: Edges, source: nat, before: seq<bool>, visited: seq<bool>, items: seq<nat>, done: set<nat>,
                   mask: nat)
    requires items != [] && Sinking(edge, source, before, visited, items, done, {}) && |visited| <= 8 * mask
    ensures Sinking(edge, source, before, visited, items[1..], done + {items[0]}, {})
    ensures items[0] < |visited| && items[0] / 8 < mask && visited[items[0]]
  {
    assert items == [items[0]] + items[1..];
    assert forall x :: x in items <==> x == items[0] || x in items[1..];
  }

  /** Someone still depends on a node that is done, and is not visited. */
  ghost predicate Needed(m: Matrix, visited: seq<bool>, done: set<nat>)
    requires |m| == |visited|
  {
    exists u: nat, i: nat :: u in done && u < |m| && i < |m| && m[i][u].Dependent? && !visited[i]
  }

  ghost predicate AllHeard(m: Matrix, visited: seq<bool>, done: set<nat>)
    requires |m| == |visited|
  {
    forall u: nat :: u in done && u < |m| ==> Heard(m, u, |m|, visited)
  }

  lemma HeardGrows(m: Matrix, visited: seq<bool>, later: seq<bool>, done: set<nat>, u: nat)
    requires |m| == |visited| == |later| && u < |m| && AllHeard(m, visited, done) && Heard(m, u, |m|, later)
    requires forall i: nat :: i < |m| && visited[i] ==> later[i]
    ensures AllHeard(m, later, done + {u})
  {
    forall v: nat | v in done + {u} && v < |m| ensures Heard(m, v, |m|, later) {
      if v in done { assert Heard(m, v, |m|, visited); }
    }
  }

  ghost predicate VisitedIs(before: seq<bool>, visited: seq<bool>, done: set<nat>)
    requires |before| == |visited|
  {
    forall i: nat :: i < |visited| ==> (visited[i] <==> before[i] || i in done)
  }

  /** A scan keeps it, and ends with all dependents heard or with one that is active. */
  lemma {:induction false} ScanKeeps(m: Matrix, u: nat, i: nat, source: nat, before: seq<bool>, visited: seq<bool>,
                                     items: seq<nat>, done: set<nat>)
    requires i <= |m| == |visited| == |before| && u < |m| && u in done && InRange(items, |m|)
    requires Sinking(ReadyEdges(m, before), source, before, visited, items, done, {}) && Heard(m, u, i, visited)
    ensures var r := ScanReady(m, u, i, visited, items);
            && Sinking(ReadyEdges(m, before), source, before, r.visited, r.items, done, {})
            && if r.active then Needed(m, r.visited, done) else Heard(m, u, |m|, r.visited)
    decreases |m| - i
  {
    if i < |m| {
      if !visited[i] && !m[i][u].Dependent? && m[i][u].DisconnectReady? {
        SinkingPush(ReadyEdges(m, before), source, before, visited, items, done, u, i);
        hide Sinking, Needed;
        ScanKeeps(m, u, i + 1, source, before, visited[i := true], [i] + items, done);
      } else if visited[i] || !m[i][u].Dependent? {
        ScanKeeps(m, u, i + 1, source, before, visited, items, done);
      }
    }
  }

  lemma {:induction false} SinkAllKeeps(m: Matrix, source: nat, before: seq<bool>, visited: seq<bool>, items: seq<nat>,
                                        done: set<nat>)
    requires source < |m| == |visited| == |before| && InRange(items, |m|)
    requires Sinking(ReadyEdges(m, before), source, before, visited, items, done, {}) && AllHeard(m, visited, done)
    ensures var r := SinkAll(m, visited, items, done);
            && Sinking(ReadyEdges(m, before), source, before, r.visited, r.left, r.done, {})
            && if r.active then Needed(m, r.visited, r.done) else AllHeard(m, r.visited, r.done)
    decreases Unvisited(visited) + |items|
  {
    if items != [] {
      var u, rest := items[0], items[1..];
      assert u in items && forall x :: x in rest ==> x in items;
      SinkingPop(ReadyEdges(m, before), source, before, visited, items, done, |m|);
      ScanKeeps(m, u, 0, source, before, visited, rest, done + {u});
      var scan := ScanReady(m, u, 0, visited, rest);
      hide Sinking;
      if !scan.active {
        HeardGrows(m, visited, scan.visited, done, u);
        SinkAllKeeps(m, source, before, scan.visited, scan.items, done + {u});
      }
    }
  }

  /** What the search from one node does to the visited flags, and what it finds when it drains. */
  lemma MinimalMeans(m: Matrix, before: seq<bool>, source: nat)
    requires source < |m| == |before|
    ensures var r := Minimal(m, before, source);
            && VisitedIs(before, r.visited, r.done) && (forall x :: x in r.done ==> x < |m|)
            && (forall x: nat :: x in r.done ==> Reach(ReadyEdges(m, before), source, x))
            && if r.active then Needed(m, r.visited, r.done)
               else ClosedUnder(ReadyEdges(m, before), r.done) && AllHeard(m, r.visited, r.done)
  {
    var edge := ReadyEdges(m, before);
    ReachSelf(edge, source);
    SinkAllKeeps(m, source, before, before[source := true], [source], {});
    var s := SinkAll(m, before[source := true], [source], {});
    var r := Minimal(m, before, source);
    if s.active {
      var u: nat, i: nat :| u in s.done && u < |m| && i < |m| && m[i][u].Dependent? && !s.visited[i];
      assert !r.visited[i];
    } else {
      assert r.visited == s.visited;
      forall u: nat, v: nat | u in r.done && edge(u, v) ensures v in r.done { assert Heard(m, u, |m|, r.visited); }
    }
  }

  // ------------------------------------------------ reports about nodes the search comes to

  /** `i` depends on `u`, is ready to let go, and the search from `source` has not visited it before. */
  ghost predicate Follows(m: Matrix, before: seq<bool>, source: nat, u: nat, i: nat)
    requires |before| == |m|
  {
    i != source && ReadyEdges(m, before)(u, i)
  }

  /** `n` depends on `u`, is not ready to let go, and the search from `source` has not visited it before. */
  ghost predicate Clings(m: Matrix, before: seq<bool>, source: nat, u: nat, n: nat)
    requires |before| == |m|
  {
    n != source && u < |m| && n < |m| && m[n][u].Dependent? && !before[n]
  }

  /** Every node reached has at most one follower, and nobody who clings to it comes after the follower. */
  ghost predicate SingleFile(m: Matrix, before: seq<bool>, source: nat)
    requires |before| == |m|
  {
    forall u: nat, i: nat :: Reach(ReadyEdges(m, before), source, u) && Follows(m, before, source, u, i) ==>
      && (forall k: nat :: Follows(m, before, source, u, k) ==> k == i)
      && (forall n: nat :: Clings(m, before, source, u, n) ==> n < i)
  }

  /** In single file a scan stacks at most one node, and none if it stops. */
  lemma {:induction false} ScanOne(m: Matrix, before: seq<bool>, source: nat, u: nat, i: nat, visited: seq<bool>,
                                   items: seq<nat>)
    requires i <= |m| == |visited| == |before| && u < |m| && source < |m| && InRange(items, |m|)
    requires SingleFile(m, before, source) && Reach(ReadyEdges(m, before), source, u)
    requires visited[source] && forall k :: 0 <= k < |m| && before[k] ==> visited[k]
    requires items == [] || (|items| == 1 && items[0] < i && Follows(m, before, source, u, items[0]))
    ensures var r := ScanReady(m, u, i, visited, items);
            && (r.active ==> r.items == [])
            && (r.items == [] || (|r.items| == 1 && Follows(m, before, source, u, r.items[0])))
    decreases |m| - i
  {
    hide Reach;
    if i < |m| {
      if !visited[i] && m[i][u].Dependent? {
        assert Clings(m, before, source, u, i);
      } else if !visited[i] && m[i][u].DisconnectReady? {
        assert Follows(m, before, source, u, i);
        ScanOne(m, before, source, u, i + 1, visited[i := true], [i] + items);
      } else {
        ScanOne(m, before, source, u, i + 1, visited, items);
      }
    }
  }

  lemma {:induction false} SinkOne(m: Matrix, before: seq<bool>, source: nat, visited: seq<bool>, items: seq<nat>,
                                   done: set<nat>)
    requires |m| == |visited| == |before| && source < |m| && InRange(items, |m|) && SingleFile(m, before, source)
    requires visited[source] && forall k :: 0 <= k < |m| && before[k] ==> visited[k]
    requires items == [] || (|items| == 1 && Reach(ReadyEdges(m, before), source, items[0]))
    ensures SinkAll(m, visited, items, done).left == []
    decreases Unvisited(visited) + |items|
  {
    if items != [] {
      var u := items[0];
      assert u in items && items[1..] == [];
      ScanOne(m, before, source, u, 0, visited, []);
      var scan := ScanReady(m, u, 0, visited, []);
      if !scan.active {
        if scan.items != [] { ReachStep(ReadyEdges(m, before), source, u, scan.items[0]); }
        hide Reach, SingleFile;
        SinkOne(m, before, source, scan.visited, scan.items, done + {u});
      }
    }
  }

  /**
   In single file an active dependent of any node reached is reported: exactly if the search
   stops; for certain if someone that is not reached clings to a node that is, and only if
   someone clings to one.
   */
  lemma SingleFileReported(m: Matrix, before: seq<bool>, source: nat)
    requires source < |m| == |before| && SingleFile(m, before, source)
    ensures var r := Minimal(m, before, source);
            var edge := ReadyEdges(m, before);
            && (Report(r) == -EOPNOTSUPP <==> r.active)
            && (Report(r) == -EOPNOTSUPP ==>
                  exists u: nat, n: nat :: Reach(edge, source, u) && Clings(m, before, source, u, n))
            && forall u: nat, n: nat ::
                 Reach(edge, source, u) && Clings(m, before, source, u, n) && !Reach(edge, source, n) ==>
                   Report(r) == -EOPNOTSUPP
  {
    var r, edge := Minimal(m, before, source), ReadyEdges(m, before);
    ReachSelf(edge, source);
    SinkOne(m, before, source, before[source := true], [source], {});
    MinimalMeans(m, before, source);
    if r.active {
      var u: nat, i: nat :| u in r.done && u < |m| && i < |m| && m[i][u].Dependent? && !r.visited[i];
      assert Reach(edge, source, u) && Clings(m, before, source, u, i);
    } else {
      forall u: nat, n: nat | Reach(edge, source, u) && Clings(m, before, source, u, n) ensures Reach(edge, source, n) {
        ReachIn(edge, r.done, source, u);
        assert Heard(m, u, |m|, r.visited);
      }
    }
  }

  // ------------------------------------------------ as many nodes as possible

  /** How many entries of the stack are visited. */
  ghost function Stale(items: seq<nat>, visited: seq<bool>): nat
    requires forall x :: x in items ==> x < |visited|
  {
    if items == [] then 0
    else
      assert items[0] in items;
      assert forall x :: x in items[1..] ==> x in items;
      Stale(items[1..], visited) + if visited[items[0]] then 1 else 0
  }

  lemma StalePop(items: seq<nat>, visited: seq<bool>)
    requires items != [] && forall x :: x in items ==> x < |visited|
    ensures items[0] < |visited| && (forall x :: x in items[1..] ==> x in items)
    ensures Stale(items[1..], visited) == Stale(items, visited) - if visited[items[0]] then 1 else 0
  {
    assert items[0] in items;
    assert forall x :: x in items[1..] ==> x in items;
  }

  /** From a node to those it depends on, is ready to let go of, and that are idle themselves. */
  function OnwardEdges(m: Matrix, idle: seq<Idle>): Edges
    requires |idle| == |m|
  {
    (u: nat, i: nat) => u < |m| && i < |m| && m[u][i].DisconnectReady? && i != 0 && idle[i].PC3Ready?
  }

  /** Those of them that are not visited are stacked. */
  function PushOnward(m: Matrix, idle: seq<Idle>, u: nat, i: nat, visited: seq<bool>, items: seq<nat>): (r: seq<nat>)
    requires i <= |m| == |visited| == |idle| && u < |m| && InRange(items, |m|)
    ensures InRange(r, |m|) && Stale(r, visited) == Stale(items, visited)
    ensures forall x :: x in r <==> x in items || (i <= x < |m| && OnwardEdges(m, idle)(u, x) && !visited[x])
    decreases |m| - i
  {
    if i == |m| then items
    else if !visited[i] && m[u][i].DisconnectReady? && i != 0 && idle[i].PC3Ready? then
      assert ([i] + items)[1..] == items;
      PushOnward(m, idle, u, i + 1, visited, [i] + items)
    else PushOnward(m, idle, u, i + 1, visited, items)
  }

  /** What the mask has gained, which nodes came off the stack, whether every search drained, and the last status. */
  datatype Spread = Spread(added: set<nat>, popped: set<nat>, drained: bool, status: int)

  function SpreadAll(m: Matrix, idle: seq<Idle>, max: bool, visited: seq<bool>, items: seq<nat>, sofar: Spread)
    : (r: Spread)
    requires |visited| == |m| == |idle| && InRange(items, |m|)
    ensures r.drained ==> sofar.drained
    ensures sofar.popped <= r.popped && (items != [] ==> items[0] in r.popped)
    decreases Unvisited(visited), Stale(items, visited)
  {
    if items == [] then sofar
    else
      StalePop(items, visited);
      var node, rest := items[0], items[1..];
      if visited[node] then
        SpreadAll(m, idle, max, visited, if max then PushOnward(m, idle, node, 0, visited, rest) else rest,
                  sofar.(popped := sofar.popped + {node}, status := 0))
      else
        var r := Minimal(m, visited, node);
        MinimalMeans(m, visited, node);
        UnvisitedFalls(visited, r.visited, node);
        SpreadAll(m, idle, max, r.visited,
                  if max && Report(r) == 0 then PushOnward(m, idle, node, 0, r.visited, rest) else rest,
                  Spread(sofar.added + r.done, sofar.popped + {node}, sofar.drained && !r.active, Report(r)))
  }

  function NoneVisited(n: nat): (r: seq<bool>)
    ensures |r| == n && forall i :: 0 <= i < n ==> !r[i]
  {
    seq(n, i => false)
  }

  /** The search for a de-activation set from `source`. */
  function Deactivate(m: Matrix, idle: seq<Idle>, max: bool, source: nat): Spread
    requires source < |m| == |idle|
  {
    SpreadAll(m, idle, max, NoneVisited(|m|), [source], Spread({}, {}, true, 0))
  }

  /** Searches that drain leave no error behind. */
  lemma {:induction false} DrainedSucceeds(m: Matrix, idle: seq<Idle>, max: bool, visited: seq<bool>, items: seq<nat>,
                                           s: Spread)
    requires |visited| == |m| == |idle| && InRange(items, |m|) && s.status == 0
    requires SpreadAll(m, idle, max, visited, items, s).drained
    ensures SpreadAll(m, idle, max, visited, items, s).status == 0
    decreases Unvisited(visited), Stale(items, visited)
  {
    if items != [] {
      StalePop(items, visited);
      var node, rest := items[0], items[1..];
      if visited[node] {
        DrainedSucceeds(m, idle, max, visited, if max then PushOnward(m, idle, node, 0, visited, rest) else rest,
                        s.(popped := s.popped + {node}, status := 0));
      } else {
        var r := Minimal(m, visited, node);
        MinimalMeans(m, visited, node);
        UnvisitedFalls(visited, r.visited, node);
        DrainedSucceeds(m, idle, max, r.visited,
                        if max && Report(r) == 0 then PushOnward(m, idle, node, 0, r.visited, rest) else rest,
                        Spread(s.added + r.done, s.popped + {node}, s.drained && !r.active, Report(r)));
      }
    }
  }

  // ------------------------------------------------ the exact set, when every search drains

  /** From a node to those that depend on it and are ready to let go. */
  function LettingGo(m: Matrix): Edges {
    ReadyEdges(m, NoneVisited(|m|))
  }

  ghost predicate HangsOn(m: Matrix, popped: set<nat>, x: nat) {
    exists p :: p in popped && Reach(LettingGo(m), p, x)
  }

  lemma HangsOnMore(m: Matrix, popped: set<nat>, more: set<nat>, x: nat)
    requires HangsOn(m, popped, x) && popped <= more
    ensures HangsOn(m, more, x)
  {
    hide Reach, LettingGo;
  }

  /** Everything added hangs on a node that came off the stack, and nothing that hangs on an added node is missing. */
  ghost predicate Hangs(m: Matrix, added: set<nat>, popped: set<nat>) {
    && ClosedUnder(LettingGo(m), added) && popped <= added
    && forall x :: x in added ==> HangsOn(m, popped, x)
  }

  /** Nodes come off the stack because of others that did, and what those lead on to is stacked or added. */
  ghost predicate Onward(m: Matrix, idle: seq<Idle>, source: nat, items: seq<nat>, s: Spread)
    requires |idle| == |m|
  {
    && (forall x :: x in items || x in s.popped ==> Reach(OnwardEdges(m, idle), source, x))
    && (forall p, i :: p in s.popped && OnwardEdges(m, idle)(p, i) ==> i in s.added || i in items)
  }

  /** The visited flags are those of the nodes added. */
  ghost predicate Flags(visited: seq<bool>, added: set<nat>) {
    && (forall x :: x in added ==> x < |visited|)
    && forall i: nat :: i < |visited| ==> (visited[i] <==> i in added)
  }

  /** A search that drains adds all that hangs on its start and was not added before. */
  lemma DrainedHangs(m: Matrix, visited: seq<bool>, added: set<nat>, popped: set<nat>, node: nat)
    requires node < |m| == |visited| && Flags(visited, added) && Hangs(m, added, popped)
    requires !visited[node] && !Minimal(m, visited, node).active
    ensures var r := Minimal(m, visited, node);
            Flags(r.visited, added + r.done) && Hangs(m, added + r.done, popped + {node})
  {
    var r := Minimal(m, visited, node);
    MinimalMeans(m, visited, node);
    var all, some := LettingGo(m), ReadyEdges(m, visited);
    forall u: nat, v: nat | u in added + r.done && all(u, v) ensures v in added + r.done {
      if u in r.done && v !in added { assert some(u, v); }
    }
    ReachSelf(all, node);
    forall x | x in added + r.done ensures HangsOn(m, popped + {node}, x) {
      if x in r.done {
        ReachMore(some, all, node, node, x);
      } else {
        HangsOnMore(m, popped, popped + {node}, x);
      }
    }
  }

  lemma OnwardStep(m: Matrix, idle: seq<Idle>, source: nat, items: seq<nat>, visited: seq<bool>, s: Spread, t: Spread)
    requires |idle| == |m| == |visited| && items != [] && InRange(items, |m|) && items[0] < |m|
    requires Onward(m, idle, source, items, s) && t.popped == s.popped + {items[0]} && s.added <= t.added
    requires items[0] in t.added && Flags(visited, t.added) && InRange(items[1..], |m|)
    ensures Onward(m, idle, source, PushOnward(m, idle, items[0], 0, visited, items[1..]), t)
  {
    var node, rest := items[0], items[1..];
    var more := PushOnward(m, idle, node, 0, visited, rest);
    assert items == [node] + rest;
    forall x | x in more || x in t.popped ensures Reach(OnwardEdges(m, idle), source, x) {
      if x !in items && x !in s.popped {
        assert Reach(OnwardEdges(m, idle), source, node);
        ReachStep(OnwardEdges(m, idle), source, node, x);
      }
    }
    forall p, i | p in t.popped && OnwardEdges(m, idle)(p, i) ensures i in t.added || i in more {
      if p in s.popped && i in items && i != node { assert i in rest; }
    }
  }

  lemma HangsToo(m: Matrix, added: set<nat>, popped: set<nat>, node: nat)
    requires Hangs(m, added, popped) && node in added
    ensures Hangs(m, added, popped + {node})
  {
    hide HangsOn, LettingGo;
    forall x | x in added ensures HangsOn(m, popped + {node}, x) { HangsOnMore(m, popped, popped + {node}, x); }
  }

  /** How far the search for the largest set has come. */
  ghost predicate Growing(m: Matrix, idle: seq<Idle>, source: nat, visited: seq<bool>, items: seq<nat>, s: Spread)
    requires |idle| == |m| == |visited|
  {
    Flags(visited, s.added) && Hangs(m, s.added, s.popped) && Onward(m, idle, source, items, s)
  }

  /** How it ends. */
  ghost predicate Grown(m: Matrix, idle: seq<Idle>, source: nat, s: Spread)
    requires |idle| == |m|
  {
    Hangs(m, s.added, s.popped) && Onward(m, idle, source, [], s)
  }

  lemma GrownAtLast(m: Matrix, idle: seq<Idle>, source: nat, visited: seq<bool>, s: Spread)
    requires |idle| == |m| == |visited| && Growing(m, idle, source, visited, [], s)
    ensures Grown(m, idle, source, s)
  {
    hide Hangs, Onward;
  }

  lemma GrowsVisited(m: Matrix, idle: seq<Idle>, source: nat, visited: seq<bool>, items: seq<nat>, s: Spread)
    requires |idle| == |m| == |visited| && items != [] && InRange(items, |m|)
    requires items[0] < |m| && InRange(items[1..], |m|)
    requires Growing(m, idle, source, visited, items, s) && visited[items[0]]
    ensures Growing(m, idle, source, visited, PushOnward(m, idle, items[0], 0, visited, items[1..]),
                    s.(popped := s.popped + {items[0]}, status := 0))
  {
    hide Hangs, Onward, OnwardEdges;
    OnwardStep(m, idle, source, items, visited, s, s.(popped := s.popped + {items[0]}, status := 0));
    HangsToo(m, s.added, s.popped, items[0]);
  }

  lemma GrowsSunk(m: Matrix, idle: seq<Idle>, source: nat, visited: seq<bool>, items: seq<nat>, s: Spread)
    requires |idle| == |m| == |visited| && items != [] && InRange(items, |m|)
    requires items[0] < |m| && InRange(items[1..], |m|)
    requires Growing(m, idle, source, visited, items, s) && !visited[items[0]] && !Minimal(m, visited, items[0]).active
    ensures var r := Minimal(m, visited, items[0]);
            Growing(m, idle, source, r.visited, PushOnward(m, idle, items[0], 0, r.visited, items[1..]),
                    Spread(s.added + r.done, s.popped + {items[0]}, s.drained && !r.active, Report(r)))
  {
    hide Hangs, Onward, OnwardEdges;
    var r := Minimal(m, visited, items[0]);
    var t := Spread(s.added + r.done, s.popped + {items[0]}, s.drained && !r.active, Report(r));
    DrainedHangs(m, visited, s.added, s.popped, items[0]);
    OnwardStep(m, idle, source, items, r.visited, s, t);
  }

  lemma {:induction false} SpreadMeans(m: Matrix, idle: seq<Idle>, source: nat, visited: seq<bool>, items: seq<nat>,
                                       s: Spread)
    requires |idle| == |m| == |visited| && InRange(items, |m|) && Growing(m, idle, source, visited, items, s)
    requires SpreadAll(m, idle, true, visited, items, s).drained
    ensures Grown(m, idle, source, SpreadAll(m, idle, true, visited, items, s))
    decreases Unvisited(visited), Stale(items, visited)
  {
    hide Growing, Grown, Reach;
    if items == [] {
      GrownAtLast(m, idle, source, visited, s);
    } else {
      StalePop(items, visited);
      if visited[items[0]] {
        GrowsVisited(m, idle, source, visited, items, s);
        SpreadMeans(m, idle, source, visited, PushOnward(m, idle, items[0], 0, visited, items[1..]),
                    s.(popped := s.popped + {items[0]}, status := 0));
      } else {
        SpreadMeansSunk(m, idle, source, visited, items, s);
      }
    }
  }

  lemma {:induction false} SpreadMeansSunk(m: Matrix, idle: seq<Idle>, source: nat, visited: seq<bool>, items: seq<nat>,
                                           s: Spread)
    requires |idle| == |m| == |visited| && InRange(items, |m|) && Growing(m, idle, source, visited, items, s)
    requires items != [] && items[0] < |m| && !visited[items[0]]
    requires SpreadAll(m, idle, true, visited, items, s).drained
    ensures Grown(m, idle, source, SpreadAll(m, idle, true, visited, items, s))
    decreases Unvisited(visited), Stale(items, visited), 0
  {
    StalePop(items, visited);
    hide Growing, Grown;
    var r := Minimal(m, visited, items[0]);
    MinimalMeans(m, visited, items[0]);
    UnvisitedFalls(visited, r.visited, items[0]);
    hide Needed, AllHeard, ClosedUnder, Reach, ReadyEdges, Minimal;
    GrowsSunk(m, idle, source, visited, items, s);
    SpreadMeans(m, idle, source, r.visited, PushOnward(m, idle, items[0], 0, r.visited, items[1..]),
                Spread(s.added + r.done, s.popped + {items[0]}, s.drained && !r.active, Report(r)));
  }

  /**
   When every nested search drains, the nodes added are exactly those that hang, by being ready
   to let go, on a node that came off the stack; such nodes are led on to from the source, and
   whatever they lead on to is added.
   */
  lemma MaximalSetIsExact(m: Matrix, idle: seq<Idle>, source: nat)
    requires source < |m| == |idle| && Deactivate(m, idle, true, source).drained
    ensures var r := Deactivate(m, idle, true, source);
            && (forall x: nat :: x in r.added <==> HangsOn(m, r.popped, x))
            && source in r.popped && r.status == 0
            && (forall p :: p in r.popped ==> Reach(OnwardEdges(m, idle), source, p))
            && (forall p, i :: p in r.popped && OnwardEdges(m, idle)(p, i) ==> i in r.added)
  {
    var s := Spread({}, {}, true, 0);
    ReachSelf(OnwardEdges(m, idle), source);
    SpreadMeans(m, idle, source, NoneVisited(|m|), [source], s);
    DrainedSucceeds(m, idle, true, NoneVisited(|m|), [source], s);
    var r := Deactivate(m, idle, true, source);
    hide Reach, LettingGo, OnwardEdges, ClosedUnder, SpreadAll;
    forall x: nat | HangsOn(m, r.popped, x) ensures x in r.added {
      var p :| p in r.popped && Reach(LettingGo(m), p, x);
      ReachIn(LettingGo(m), r.added, p, x);
    }
  }

  /**
   Without the wish for a large set, only the source is searched from: when that drains, the nodes
   added are exactly those that hang on the source, and the status is 0.
   */
  lemma PlainSetIsExact(m: Matrix, idle: seq<Idle>, source: nat)
    requires source < |m| == |idle|
    ensures var r, d := Deactivate(m, idle, false, source), Minimal(m, NoneVisited(|m|), source);
            && r.added == d.done && r.status == Report(d) && r.drained == !d.active && source in r.added
            && (r.drained ==> r.status == 0 && forall x: nat :: x in r.added <==> Reach(LettingGo(m), source, x))
  {
    var d := Minimal(m, NoneVisited(|m|), source);
    MinimalMeans(m, NoneVisited(|m|), source);
    var t := Spread({} + d.done, {} + {source}, !d.active, Report(d));
    assert [source][1..] == [] && t.added == d.done;
    assert SpreadAll(m, idle, false, d.visited, [], t) == t;
    assert Deactivate(m, idle, false, source) == t;
    if !d.active {
      forall x: nat ensures x in d.done <==> Reach(LettingGo(m), source, x) {
        if Reach(LettingGo(m), source, x) { ReachIn(LettingGo(m), d.done, source, x); }
      }
    }
  }

  /** The nodes that hang on a node: with each of them all that are ready to let go of it, and nobody else. */
  lemma SinkSetMeans(m: Matrix, source: nat, s: set<nat>)
    requires source < |m| && forall x: nat :: x in s <==> Reach(LettingGo(m), source, x)
    ensures source in s
    ensures forall u: nat, i: nat :: u in s && u < |m| && i < |m| && m[i][u].DisconnectReady? ==> i in s
    ensures forall i: nat :: i in s && i != source ==>
              i < |m| && exists u: nat :: u in s && u < |m| && m[i][u].DisconnectReady?
  {
    var edge := LettingGo(m);
    hide Reach;
    ReachSelf(edge, source);
    forall u: nat, i: nat | u in s && edge(u, i) ensures i in s { ReachStep(edge, source, u, i); }
    forall i: nat | i in s && i != source
      ensures i < |m| && exists u: nat :: u in s && u < |m| && m[i][u].DisconnectReady?
    {
      ReachLast(edge, source, i);
    }
  }
}

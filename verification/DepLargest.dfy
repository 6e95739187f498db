/**
 When the set that the search for a de-activation set finds is the largest.
 */
module DepLargest {
  import opened DepSpec
  import opened DepSearch

  /** All nodes that a de-activation can spread to from `source`. */
  ghost predicate Largest(m: Matrix, idle: seq<Idle>, source: nat, s: set<nat>)
    requires |idle| == |m|
  {
    forall x: nat :: x in s <==> Reach(SpreadEdges(m, idle), source, x)
  }

  ghost predicate FindsLargest(m: Matrix, idle: seq<Idle>, source: nat)
    requires source < |m| == |idle|
  {
    Largest(m, idle, source, Deactivate(m, idle, true, source).added)
  }

  // ------------------------------------------------ for one source and one idle state

  /** What hangs on an added node is added. */
  lemma AddedLetsGo(m: Matrix, idle: seq<Idle>, source: nat)
    requires source < |m| == |idle| && Deactivate(m, idle, true, source).drained
    ensures ClosedUnder(LettingGo(m), Deactivate(m, idle, true, source).added)
  {
    var r := Deactivate(m, idle, true, source);
    MaximalSetIsExact(m, idle, source);
    hide Deactivate, Reach, LettingGo;
    forall u: nat, v: nat | u in r.added && LettingGo(m)(u, v) ensures v in r.added {
      var p :| p in r.popped && Reach(LettingGo(m), p, u);
      ReachStep(LettingGo(m), p, u, v);
      assert HangsOn(m, r.popped, v);
    }
  }

  /** Every node added is one the de-activation can spread to. */
  lemma AddedIsReached(m: Matrix, idle: seq<Idle>, source: nat, x: nat)
    requires source < |m| == |idle| && Deactivate(m, idle, true, source).drained
    requires x in Deactivate(m, idle, true, source).added
    ensures Reach(SpreadEdges(m, idle), source, x)
  {
    var r := Deactivate(m, idle, true, source);
    MaximalSetIsExact(m, idle, source);
    hide Deactivate, Reach;
    var p :| p in r.popped && Reach(LettingGo(m), p, x);
    ReachSelf(SpreadEdges(m, idle), source);
    ReachMore(OnwardEdges(m, idle), SpreadEdges(m, idle), source, source, p);
    ReachMore(LettingGo(m), SpreadEdges(m, idle), source, p, x);
  }

  /** If the set leads on to nothing outside, nothing can be reached outside. */
  lemma ReachedIsAdded(m: Matrix, idle: seq<Idle>, source: nat, x: nat)
    requires source < |m| == |idle| && Deactivate(m, idle, true, source).drained
    requires ClosedUnder(OnwardEdges(m, idle), Deactivate(m, idle, true, source).added)
    requires Reach(SpreadEdges(m, idle), source, x)
    ensures x in Deactivate(m, idle, true, source).added
  {
    var r := Deactivate(m, idle, true, source);
    AddedLetsGo(m, idle, source);
    MaximalSetIsExact(m, idle, source);
    hide Deactivate, Reach;
    ReachSelf(LettingGo(m), source);
    assert HangsOn(m, r.popped, source);
    assert ClosedUnder(SpreadEdges(m, idle), r.added) by {
      forall u: nat, v: nat | u in r.added && SpreadEdges(m, idle)(u, v) ensures v in r.added {
        assert LettingGo(m)(u, v) || OnwardEdges(m, idle)(u, v);
      }
    }
    ReachIn(SpreadEdges(m, idle), r.added, source, x);
  }

  /** When every nested search drains, the set is the largest exactly if no node of it leads on to one left out. */
  lemma LargestIffClosed(m: Matrix, idle: seq<Idle>, source: nat)
    requires source < |m| == |idle| && Deactivate(m, idle, true, source).drained
    ensures FindsLargest(m, idle, source) <==>
            ClosedUnder(OnwardEdges(m, idle), Deactivate(m, idle, true, source).added)
  {
    var r, edge := Deactivate(m, idle, true, source), SpreadEdges(m, idle);
    hide Deactivate, Reach;
    if FindsLargest(m, idle, source) {
      forall u: nat, v: nat | u in r.added && OnwardEdges(m, idle)(u, v) ensures v in r.added {
        ReachStep(edge, source, u, v);
      }
    } else if ClosedUnder(OnwardEdges(m, idle), r.added) {
      hide ClosedUnder, SpreadEdges;
      forall x: nat ensures x in r.added <==> Reach(edge, source, x) {
        if x in r.added { AddedIsReached(m, idle, source, x); }
        if Reach(edge, source, x) { ReachedIsAdded(m, idle, source, x); }
      }
    }
  }

  // ------------------------------------------------ for all of them

  /** If `i` hangs on `u` and is ready to let go of `j`, then `j` hangs on `u` too, or `u` is ready to let go of it. */
  ghost predicate AnticipatedAt(m: Matrix, u: nat, i: nat, j: nat) {
    u < |m| && i < |m| && 0 < j < |m| && Reach(LettingGo(m), u, i) && m[i][j].DisconnectReady? ==>
      Reach(LettingGo(m), u, j) || m[u][j].DisconnectReady?
  }

  ghost predicate Anticipated(m: Matrix) {
    forall u: nat, i: nat, j: nat :: AnticipatedAt(m, u, i, j)
  }

  /** No node depends on another without being ready to let go. */
  ghost predicate Quiet(m: Matrix) {
    forall i: nat, u: nat :: i < |m| && u < |m| ==> !m[i][u].Dependent?
  }

  /** Without active dependents every search drains. */
  lemma {:induction false} QuietDrains(m: Matrix, idle: seq<Idle>, visited: seq<bool>, items: seq<nat>, s: Spread)
    requires |idle| == |m| == |visited| && InRange(items, |m|) && s.drained && Quiet(m)
    ensures SpreadAll(m, idle, true, visited, items, s).drained
    decreases Unvisited(visited), Stale(items, visited)
  {
    if items != [] {
      StalePop(items, visited);
      var node, rest := items[0], items[1..];
      if visited[node] {
        QuietDrains(m, idle, visited, PushOnward(m, idle, node, 0, visited, rest),
                    s.(popped := s.popped + {node}, status := 0));
      } else {
        var r := Minimal(m, visited, node);
        MinimalMeans(m, visited, node);
        UnvisitedFalls(visited, r.visited, node);
        QuietDrains(m, idle, r.visited, PushOnward(m, idle, node, 0, r.visited, rest),
                    Spread(s.added + r.done, s.popped + {node}, s.drained && !r.active, Report(r)));
      }
    }
  }

  /** Enough for a search that drains, whatever else is in the matrix. */
  lemma AnticipatedIsLargest(m: Matrix, idle: seq<Idle>, source: nat)
    requires source < |m| == |idle| && Deactivate(m, idle, true, source).drained && Anticipated(m)
    ensures FindsLargest(m, idle, source)
  {
    var r := Deactivate(m, idle, true, source);
    LargestIffClosed(m, idle, source);
    MaximalSetIsExact(m, idle, source);
    hide Deactivate, Reach;
    forall u: nat, j: nat | u in r.added && OnwardEdges(m, idle)(u, j) ensures j in r.added {
      var p :| p in r.popped && Reach(LettingGo(m), p, u);
      ReachLast(OnwardEdges(m, idle), source, p);
      assert AnticipatedAt(m, p, u, j);
      if Reach(LettingGo(m), p, j) {
        assert HangsOn(m, r.popped, j);
      } else {
        assert OnwardEdges(m, idle)(p, j);
      }
    }
  }

  /** Only `j` is in PC3Ready. */
  function OneIdle(n: nat, j: nat): (r: seq<Idle>)
    ensures |r| == n && forall i :: 0 <= i < n ==> (r[i].PC3Ready? <==> i == j)
  {
    seq(n, i => if i == j then PC3Ready else PC0)
  }

  /** A set found to be the largest from `u`, with only `j` idle, tells that `j` is anticipated at `u`. */
  lemma LargestIsAnticipated(m: Matrix, u: nat, i: nat, j: nat)
    requires u < |m| && i < |m| && 0 < j < |m| && Reach(LettingGo(m), u, i) && m[i][j].DisconnectReady?
    requires Deactivate(m, OneIdle(|m|, j), true, u).drained && FindsLargest(m, OneIdle(|m|, j), u)
    ensures Reach(LettingGo(m), u, j) || m[u][j].DisconnectReady?
  {
    var idle := OneIdle(|m|, j);
    var r, edge, onward := Deactivate(m, idle, true, u), SpreadEdges(m, idle), OnwardEdges(m, idle);
    MaximalSetIsExact(m, idle, u);
    hide Deactivate, Reach;
    ReachSelf(edge, u);
    ReachMore(LettingGo(m), edge, u, u, i);
    ReachStep(edge, u, i, j);
    if !m[u][j].DisconnectReady? {
      assert ClosedUnder(onward, {u});
      var p :| p in r.popped && Reach(LettingGo(m), p, j);
      ReachIn(onward, {u}, u, p);
    }
  }

  ghost predicate AlwaysLargest(m: Matrix) {
    forall source: nat, idle: seq<Idle> :: source < |m| == |idle| ==> FindsLargest(m, idle, source)
  }

  /**
   Without active dependents: the set found is the largest, from every source and whichever
   nodes are idle, exactly if whatever a node's hangers-on are ready to let go of hangs on it
   as well or is let go of by the node itself.
   */
  lemma AlwaysLargestIffAnticipated(m: Matrix)
    requires Quiet(m)
    ensures AlwaysLargest(m) <==> Anticipated(m)
  {
    hide FindsLargest, AnticipatedAt, Quiet;
    forall source: nat, idle: seq<Idle> | source < |m| == |idle| ensures Deactivate(m, idle, true, source).drained {
      QuietDrains(m, idle, NoneVisited(|m|), [source], Spread({}, {}, true, 0));
    }
    hide Deactivate;
    if AlwaysLargest(m) {
      forall u: nat, i: nat, j: nat ensures AnticipatedAt(m, u, i, j) { AnticipatedFromLargest(m, u, i, j); }
    }
    if Anticipated(m) {
      forall source: nat, idle: seq<Idle> | source < |m| == |idle| ensures FindsLargest(m, idle, source) {
        AnticipatedIsLargest(m, idle, source);
      }
    }
  }

  lemma AnticipatedFromLargest(m: Matrix, u: nat, i: nat, j: nat)
    requires Quiet(m) && AlwaysLargest(m)
    ensures AnticipatedAt(m, u, i, j)
  {
    hide Reach, LettingGo, FindsLargest;
    if u < |m| && i < |m| && 0 < j < |m| && Reach(LettingGo(m), u, i) && m[i][j].DisconnectReady? {
      QuietDrains(m, OneIdle(|m|, j), NoneVisited(|m|), [u], Spread({}, {}, true, 0));
      LargestIsAnticipated(m, u, i, j);
    }
  }

  /** Node 2 is ready to let go of nodes 1 and 3. */
  const CHAIN: Matrix :=
    [[NotDependent, NotDependent, NotDependent, NotDependent],
     [NotDependent, NotDependent, NotDependent, NotDependent],
     [NotDependent, DisconnectReady, NotDependent, DisconnectReady],
     [NotDependent, NotDependent, NotDependent, NotDependent]]

  lemma ChainReaches()
    ensures Reach(LettingGo(CHAIN), 1, 2) && !Reach(LettingGo(CHAIN), 1, 3)
  {
    var hang := LettingGo(CHAIN);
    hide Reach;
    ReachSelf(hang, 1);
    ReachStep(hang, 1, 1, 2);
    if Reach(hang, 1, 3) { ReachIn(hang, {1, 2}, 1, 3); }
  }

  /**
   Node 3 is idle.  The search from 1 adds 2, but as 2 never comes off the outer stack, what it
   leads on to is not looked at: 3 could go down with them and is left out.
   */
  lemma NotTheLargest()
    ensures Quiet(CHAIN) && !Anticipated(CHAIN) && !FindsLargest(CHAIN, OneIdle(4, 3), 1)
    ensures 3 !in Deactivate(CHAIN, OneIdle(4, 3), true, 1).added && Reach(SpreadEdges(CHAIN, OneIdle(4, 3)), 1, 3)
  {
    var m, idle := CHAIN, OneIdle(4, 3);
    ChainReaches();
    QuietDrains(m, idle, NoneVisited(|m|), [1], Spread({}, {}, true, 0));
    MaximalSetIsExact(m, idle, 1);
    var r, edge := Deactivate(m, idle, true, 1), SpreadEdges(m, idle);
    hide Deactivate, Reach;
    ReachSelf(edge, 1);
    ReachMore(LettingGo(m), edge, 1, 1, 2);
    ReachStep(edge, 1, 2, 3);
    assert !AnticipatedAt(m, 1, 2, 3);
    forall p | p in r.popped ensures p == 1 { ReachIn(OnwardEdges(m, idle), {1}, 1, p); }
    assert !HangsOn(m, r.popped, 3);
  }
}

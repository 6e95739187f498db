/**
 The searches that decide which nodes go down or wake up together: an explicit stack, an
 array of visited flags and a mask, all updated in place.
 */
module DepGraph {
  import opened NodeMask
  import opened DepSpec
  import opened DepSearch

  const ENOMEM := 12
  const EINVAL := 22
  const EFAULT := 14

  /** A linked list used as a stack: each push allocates, which can fail unless memory is ample. */
  class DepStack {
    const ample: bool
    var items: seq<nat>

    constructor (ample: bool)
      ensures items == [] && this.ample == ample
    {
      this.ample, items := ample, [];
    }

    /** stack_push_node */
    method Push(node: nat) returns (status: int)
      modifies this
      ensures status == 0 || (status == -ENOMEM && !ample)
      ensures items == if status == 0 then [node] + old(items) else old(items)
    {
      var short: bool := *;
      if !ample && short {
        status := -ENOMEM;
      } else {
        items := [node] + items;
        status := 0;
      }
    }

    /** stack_pop_node */
    method Pop() returns (status: int, node: nat)
      modifies this
      ensures status == if old(items) == [] then -EFAULT else 0
      ensures old(items) != [] ==> node == old(items)[0] && items == old(items)[1..]
      ensures old(items) == [] ==> items == []
    {
      if items == [] {
        return -EFAULT, 0;
      }
      status, node := 0, items[0];
      items := items[1..];
    }
  }

  // ------------------------------------------------ waking up

  /** How far the search for the activation set has come: `done` is in the mask, `log` was pushed. */
  ghost predicate Waking(edge: Edges, source: nat, visited: seq<bool>, items: seq<nat>, done: set<nat>, log: seq<nat>) {
    && source in log && NoRepeats(log) && NoRepeats(items)
    && (forall x :: x in log ==> x < |visited| && visited[x] && Reach(edge, source, x))
    && (forall x :: x in log <==> x in items || x in done)
    && (forall x :: x in items ==> x !in done)
  }

  /** What a node's visit leaves behind: every lost node it leads to was pushed, every other one marked is no target. */
  ghost predicate Scanned(edge: Edges, u: nat, n: nat, log: seq<nat>) {
    forall i: nat :: i < n && edge(u, i) ==> i in log
  }

  ghost predicate Marked(edge: Edges, visited: seq<bool>, log: seq<nat>) {
    forall i: nat, u: nat :: i < |visited| && visited[i] && edge(u, i) ==> i in log
  }

  lemma WakingMark(edge: Edges, source: nat, visited: seq<bool>, items: seq<nat>, done: set<nat>, log: seq<nat>, i: nat)
    requires Waking(edge, source, visited, items, done, log) && i < |visited|
    ensures Waking(edge, source, visited[i := true], items, done, log)
  {
  }

  lemma WakingPush(edge: Edges, source: nat, visited: seq<bool>, items: seq<nat>, done: set<nat>, log: seq<nat>,
                   u: nat, i: nat)
    requires Waking(edge, source, visited, items, done, log) && i < |visited| && !visited[i] && u in log && edge(u, i)
    ensures Waking(edge, source, visited[i := true], [i] + items, done, log + [i])
  {
    ReachStep(edge, source, u, i);
    assert i !in log;
    forall x ensures x in log + [i] <==> x in [i] + items || x in done {
      assert x in log + [i] <==> x in log || x == i;
    }
  }

  lemma MarkedMore(edge: Edges, visited: seq<bool>, log: seq<nat>, i: nat)
    requires Marked(edge, visited, log) && i < |visited|
    ensures (forall u: nat :: !edge(u, i)) ==> Marked(edge, visited[i := true], log)
    ensures Marked(edge, visited[i := true], log + [i])
  {
  }

  lemma ScannedMore(edge: Edges, u: nat, n: nat, log: seq<nat>, more: seq<nat>)
    requires Scanned(edge, u, n, log) && log <= more && (edge(u, n) ==> n in more)
    ensures Scanned(edge, u, n + 1, more)
  {
  }

  /** A lost node to wake is marked and pushed, any other only marked. */
  lemma WakeTarget(m: Matrix, idle: seq<Idle>, u: nat, i: nat)
    requires |idle| == |m| && u < |m| && i < |m|
    ensures WakeEdges(m, idle)(u, i) <==> m[u][i].Disconnected? && i != 0 && (idle[i].PC3? || idle[i].PC6?)
    ensures i == 0 || !(idle[i].PC3? || idle[i].PC6?) ==> forall v: nat :: !WakeEdges(m, idle)(v, i)
  {
  }

  /** The inner loop of micscif_get_activeset. */
  method PushLost(m: Matrix, idle: seq<Idle>, u: nat, visited: array<bool>, stack: DepStack, ghost source: nat,
                  ghost done: set<nat>, ghost log0: seq<nat>)
    returns (status: int, ghost log: seq<nat>)
    requires |idle| == |m| == visited.Length && u < |m| && u in done
    requires Waking(WakeEdges(m, idle), source, visited[..], stack.items, done, log0)
    requires Marked(WakeEdges(m, idle), visited[..], log0)
    modifies visited, stack
    ensures status == 0 || (status == -ENOMEM && !stack.ample)
    ensures Waking(WakeEdges(m, idle), source, visited[..], stack.items, done, log) && log0 <= log
    ensures status == 0 ==> Marked(WakeEdges(m, idle), visited[..], log) && Scanned(WakeEdges(m, idle), u, |m|, log)
    ensures Unvisited(visited[..]) + |stack.items| <= old(Unvisited(visited[..]) + |stack.items|)
  {
    ghost var edge := WakeEdges(m, idle);
    log := log0;
    status := 0;
    assert u in log;
    for i := 0 to |m|
      invariant Waking(edge, source, visited[..], stack.items, done, log) && log0 <= log && u in log
      invariant Marked(edge, visited[..], log) && Scanned(edge, u, i, log)
      invariant Unvisited(visited[..]) + |stack.items| <= old(Unvisited(visited[..]) + |stack.items|)
    {
      WakeTarget(m, idle, u, i);
      assert visited[i] && edge(u, i) ==> i in log;
      hide Waking, Marked, Scanned, Unvisited, WakeEdges;
      ghost var marks, items, logged := visited[..], stack.items, log;
      if !visited[i] && m[u][i].Disconnected? {
        UnvisitedDrops(marks, i);
        WakingMark(edge, source, marks, items, done, logged, i);
        MarkedMore(edge, marks, logged, i);
        if edge(u, i) { WakingPush(edge, source, marks, items, done, logged, u, i); }
        visited[i] := true;
        assert visited[..] == marks[i := true];
        if i != 0 && (idle[i].PC3? || idle[i].PC6?) {
          status := stack.Push(i);
          if status != 0 {
            return;
          }
          log := log + [i];
        }
      }
      ScannedMore(edge, u, i, logged, log);
    }
  }

  /** What a search adds to the mask: everything in `added`, and nothing is cleared. */
  ghost predicate Adds(before: seq<bv8>, after: seq<bv8>, added: set<nat>) {
    forall j: nat :: Has(after, j) <==> Has(before, j) || j in added
  }

  lemma AddsBit(a: seq<bv8>, b: seq<bv8>, c: seq<bv8>, added: set<nat>, node: nat)
    requires Adds(a, b, added) && forall j: nat :: Has(c, j) <==> if j == node then true else Has(b, j)
    ensures Adds(a, c, added + {node})
  {
    hide Has;
  }

  /** A drained search has marked exactly what can be reached. */
  lemma WakingDone(edge: Edges, source: nat, visited: seq<bool>, done: set<nat>, log: seq<nat>)
    requires Waking(edge, source, visited, [], done, log)
    requires forall u :: u in done ==> Scanned(edge, u, |visited|, log)
    requires forall u: nat, v: nat :: edge(u, v) ==> v < |visited|
    ensures forall x :: x in log <==> Reach(edge, source, x)
    ensures forall x :: x in done <==> Reach(edge, source, x)
  {
    assert ClosedUnder(edge, done);
    forall x | Reach(edge, source, x) ensures x in done { ReachIn(edge, done, source, x); }
  }

  /** The node on top of the stack goes into the mask. */
  lemma WakingPop(edge: Edges, source: nat, visited: seq<bool>, items: seq<nat>, done: set<nat>, log: seq<nat>,
                  mask: nat)
    requires items != [] && Waking(edge, source, visited, items, done, log) && |visited| <= 8 * mask
    ensures Waking(edge, source, visited, items[1..], done + {items[0]}, log)
    ensures items[0] < |visited| && items[0] / 8 < mask
  {
    assert items[0] in log;
  }

  /** micscif_get_activeset, with a dependency matrix in place. */
  method GetActiveSet(m: Matrix, idle: seq<Idle>, source: nat, nodemask: array<bv8>, ample: bool)
    returns (status: int, ghost log: seq<nat>)
    requires source < |m| == |idle| && |m| <= 8 * nodemask.Length
    modifies nodemask
    ensures status == 0 || (status == -ENOMEM && !ample)
    ensures NoRepeats(log)
    ensures forall j: nat :: Has(old(nodemask[..]), j) ==> Has(nodemask[..], j)
    ensures forall j: nat :: Has(nodemask[..], j) ==> Has(old(nodemask[..]), j) || Reach(WakeEdges(m, idle), source, j)
    ensures status == 0 ==> forall j: nat :: Reach(WakeEdges(m, idle), source, j) <==> j in log
    ensures status == 0 ==> forall j: nat :: j in log ==> Has(nodemask[..], j)
  {
    hide Has;
    ghost var edge := WakeEdges(m, idle);
    log := [];
    var short: bool := *;
    if !ample && short {
      return -ENOMEM, log;
    }
    var visited := new bool[|m|](i => false);
    var stack := new DepStack(ample);
    status := stack.Push(source);
    if status != 0 {
      return;
    }
    visited[source] := true;
    log := [source];
    ghost var done := {};
    ReachSelf(edge, source);
    while stack.items != []
      invariant Waking(edge, source, visited[..], stack.items, done, log) && Marked(edge, visited[..], log)
      invariant forall u :: u in done ==> Scanned(edge, u, |m|, log)
      invariant Adds(old(nodemask[..]), nodemask[..], done)
      invariant fresh(visited) && fresh(stack) && stack.ample == ample && status == 0
      decreases Unvisited(visited[..]) + |stack.items|
    {
      WakingPop(edge, source, visited[..], stack.items, done, log, nodemask.Length);
      var node;
      ghost var mask := nodemask[..];
      status, node := stack.Pop();
      SetBit(nodemask, node, true);
      AddsBit(old(nodemask[..]), mask, nodemask[..], done, node);
      done := done + {node};
      hide Waking, Marked, Scanned, Adds;
      status, log := PushLost(m, idle, node, visited, stack, source, done, log);
      if status != 0 {
        return;
      }
    }
    WakingDone(edge, source, visited[..], done, log);
  }

  // ------------------------------------------------ going down: one node and what depends on it

  /** How a search for a minimal de-activation set went; `left` is what its stack still held when it gave up. */
  datatype Course =
    | NotStarted
    | Drained
    | MetActive(left: seq<nat>)
    | RanOut(left: seq<nat>)

  /** The inner loop of micscif_get_minimal_deactiveset. */
  method PushReady(m: Matrix, u: nat, visited: array<bool>, stack: DepStack, ghost source: nat,
                   ghost before: seq<bool>, ghost done: set<nat>)
    returns (status: int, ghost extra: set<nat>)
    requires |m| == visited.Length == |before| && u < |m| && u in done && InRange(stack.items, |m|)
    requires Sinking(ReadyEdges(m, before), source, before, visited[..], stack.items, done, {})
    modifies visited, stack
    ensures status == 0 || (status == -ENOMEM && !stack.ample) || status == -EOPNOTSUPP
    ensures status != -ENOMEM ==>
              ScanReady(m, u, 0, old(visited[..]), old(stack.items)) == Scan(visited[..], stack.items, status != 0)
    ensures Sinking(ReadyEdges(m, before), source, before, visited[..], stack.items, done, extra)
    ensures status != -ENOMEM ==> extra == {}
  {
    ghost var edge := ReadyEdges(m, before);
    extra := {};
    status := 0;
    for i := 0 to |m|
      invariant Sinking(edge, source, before, visited[..], stack.items, done, {})
      invariant InRange(stack.items, |m|)
      invariant ScanReady(m, u, 0, old(visited[..]), old(stack.items)) == ScanReady(m, u, i, visited[..], stack.items)
    {
      if !visited[i] {
        if m[i][u].Dependent? {
          return -EOPNOTSUPP, {};
        } else if m[i][u].DisconnectReady? {
          ghost var marks := visited[..];
          SinkingPush(edge, source, before, marks, stack.items, done, u, i);
          hide Sinking;
          visited[i] := true;
          assert visited[..] == marks[i := true];
          status := stack.Push(i);
          if status != 0 {
            return status, {i};
          }
        }
      }
    }
  }

  /** The cleanup loop: whatever is still stacked is unvisited again, and the status becomes that of the last pop. */
  method Unwind(stack: DepStack, visited: array<bool>, failed: int) returns (status: int)
    requires forall x :: x in stack.items ==> x < visited.Length
    modifies stack, visited
    ensures stack.items == [] && status == if old(stack.items) == [] then failed else 0
    ensures forall i: nat :: i < visited.Length ==> visited[i] == (old(visited[i]) && i !in old(stack.items))
  {
    status := failed;
    while stack.items != []
      invariant |stack.items| <= |old(stack.items)|
      invariant stack.items == old(stack.items)[|old(stack.items)| - |stack.items|..]
      invariant status == if |stack.items| == |old(stack.items)| then failed else 0
      invariant forall i: nat :: i < visited.Length ==>
        visited[i] == (old(visited[i]) && i !in old(stack.items)[..|old(stack.items)| - |stack.items|])
      decreases |stack.items|
    {
      ghost var k := |old(stack.items)| - |stack.items|;
      assert old(stack.items)[..k + 1] == old(stack.items)[..k] + [stack.items[0]];
      assert stack.items[0] in old(stack.items);
      var node;
      status, node := stack.Pop();
      visited[node] := false;
    }
  }

  /** One round of the main loop of micscif_get_minimal_deactiveset. */
  method SinkOne(m: Matrix, nodemask: array<bv8>, visited: array<bool>, stack: DepStack, ghost source: nat,
                 ghost before: seq<bool>, ghost done0: set<nat>)
    returns (status: int, ghost done: set<nat>, ghost extra: set<nat>)
    requires source < |m| == visited.Length == |before| && |m| <= 8 * nodemask.Length && stack.items != []
    requires (visited as object) != (nodemask as object) && InRange(stack.items, |m|)
    requires Sinking(ReadyEdges(m, before), source, before, visited[..], stack.items, done0, {})
    requires AllHeard(m, visited[..], done0)
    modifies nodemask, visited, stack
    ensures status == 0 || (status == -ENOMEM && !stack.ample) || status == -EOPNOTSUPP
    ensures done == done0 + {old(stack.items)[0]} && source in done
    ensures Sinking(ReadyEdges(m, before), source, before, visited[..], stack.items, done, extra)
    ensures Adds(old(nodemask[..]), nodemask[..], {old(stack.items)[0]})
    ensures status != -ENOMEM ==> extra == {}
    ensures status == 0 ==> AllHeard(m, visited[..], done)
    ensures status == -EOPNOTSUPP ==> Needed(m, visited[..], done)
    ensures status != -ENOMEM ==> InRange(stack.items, |m|)
    ensures status == 0 ==>
              SinkAll(m, old(visited[..]), old(stack.items), done0) == SinkAll(m, visited[..], stack.items, done)
    ensures status == -EOPNOTSUPP ==>
              SinkAll(m, old(visited[..]), old(stack.items), done0) == Descent(visited[..], stack.items, done, true)
    ensures status == 0 ==> Unvisited(visited[..]) + |stack.items| < old(Unvisited(visited[..]) + |stack.items|)
  {
    hide Has;
    SinkingPop(ReadyEdges(m, before), source, before, visited[..], stack.items, done0, nodemask.Length);
    assert forall x :: x in stack.items[1..] ==> x in stack.items;
    var node;
    status, node := stack.Pop();
    SetBit(nodemask, node, true);
    done := done0 + {node};
    ScanKeeps(m, node, 0, source, before, visited[..], stack.items, done);
    hide Sinking;
    status, extra := PushReady(m, node, visited, stack, source, before, done);
    if status == 0 {
      HeardGrows(m, old(visited[..]), visited[..], done0, node);
    }
  }

  /** The main loop of micscif_get_minimal_deactiveset. */
  method Sink(m: Matrix, source: nat, nodemask: array<bv8>, visited: array<bool>, stack: DepStack,
              ghost before: seq<bool>, ghost start: seq<bool>)
    returns (status: int, ghost done: set<nat>, ghost extra: set<nat>)
    requires source < |m| == visited.Length == |before| && |m| <= 8 * nodemask.Length
    requires (visited as object) != (nodemask as object)
    requires stack.items == [source] && visited[..] == start && start == before[source := true]
    modifies nodemask, visited, stack
    ensures status == 0 || (status == -ENOMEM && !stack.ample) || status == -EOPNOTSUPP
    ensures Sinking(ReadyEdges(m, before), source, before, visited[..], stack.items, done, extra) && source in done
    ensures Adds(old(nodemask[..]), nodemask[..], done)
    ensures status != -ENOMEM ==> extra == {}
    ensures status == 0 ==> stack.items == [] && AllHeard(m, visited[..], done)
    ensures status == -EOPNOTSUPP ==> Needed(m, visited[..], done)
    ensures status != -ENOMEM ==>
              SinkAll(m, start, [source], {}) == Descent(visited[..], stack.items, done, status != 0)
  {
    hide Has;
    ReachSelf(ReadyEdges(m, before), source);
    done, extra := {}, {};
    status := 0;
    while stack.items != []
      invariant Sinking(ReadyEdges(m, before), source, before, visited[..], stack.items, done, {})
      invariant Adds(old(nodemask[..]), nodemask[..], done) && AllHeard(m, visited[..], done)
      invariant status == 0 && extra == {} && InRange(stack.items, |m|) && (done == {} ==> stack.items == [source])
      invariant SinkAll(m, start, [source], {}) == SinkAll(m, visited[..], stack.items, done)
      decreases Unvisited(visited[..]) + |stack.items|
    {
      ghost var done0 := done;
      status, done, extra := SinkOne(m, nodemask, visited, stack, source, before, done0);
      hide Sinking, AllHeard, Needed;
      if status != 0 {
        return;
      }
    }
  }

  /** What the caller finds when the search is over. */
  ghost predicate Sunk(m: Matrix, source: nat, before: seq<bool>, visited: seq<bool>, done: set<nat>, course: Course,
                       status: int)
    requires |m| == |before| == |visited|
  {
    match course
    case NotStarted => status == -ENOMEM && done == {} && visited == before
    case Drained =>
      && status == 0 && (forall x: nat :: x in done <==> Reach(ReadyEdges(m, before), source, x))
      && VisitedIs(before, visited, done) && AllHeard(m, visited, done)
    case MetActive(left) =>
      && status == (if left == [] then -EOPNOTSUPP else 0)
      && source in done && (forall x: nat :: x in done ==> Reach(ReadyEdges(m, before), source, x))
      && VisitedIs(before, visited, done) && Needed(m, visited, done)
    case RanOut(left) =>
      && status == (if left == [] then -ENOMEM else 0)
      && source in done && (forall x: nat :: x in done ==> Reach(ReadyEdges(m, before), source, x))
      && (forall i: nat :: i < |m| && (before[i] || i in done) ==> visited[i])
  }

  /** A drained search is closed: nobody it has not visited depends on what it has done. */
  lemma SinkDrained(m: Matrix, source: nat, before: seq<bool>, visited: seq<bool>, done: set<nat>)
    requires source < |m| == |before| == |visited| && source in done
    requires Sinking(ReadyEdges(m, before), source, before, visited, [], done, {}) && AllHeard(m, visited, done)
    ensures Sunk(m, source, before, visited, done, Drained, 0)
  {
    var edge := ReadyEdges(m, before);
    forall u: nat, v: nat | u in done && edge(u, v) ensures v in done {
      assert Heard(m, u, |m|, visited);
    }
    assert ClosedUnder(edge, done);
    forall x: nat | Reach(edge, source, x) ensures x in done { ReachIn(edge, done, source, x); }
  }

  /** Unwinding leaves exactly what is done marked. */
  lemma SinkUnwound(m: Matrix, source: nat, before: seq<bool>, visited: seq<bool>, after: seq<bool>, items: seq<nat>,
                    done: set<nat>, extra: set<nat>, failed: int)
    requires source < |m| == |before| == |visited| == |after| && source in done
    requires Sinking(ReadyEdges(m, before), source, before, visited, items, done, extra)
    requires failed == -ENOMEM || (failed == -EOPNOTSUPP && extra == {} && Needed(m, visited, done))
    requires forall i: nat :: i < |m| ==> after[i] == (visited[i] && i !in items)
    ensures Sunk(m, source, before, after, done, if failed == -ENOMEM then RanOut(items) else MetActive(items),
                 if items == [] then failed else 0)
  {
    if failed == -EOPNOTSUPP {
      var u: nat, i: nat :| u in done && u < |m| && i < |m| && m[i][u].Dependent? && !visited[i];
      assert !after[i];
    }
  }

  /** Unless memory runs out the matrix decides everything: what is done and visited, and what is reported. */
  ghost predicate Searched(r: Descent, visited: seq<bool>, done: set<nat>, course: Course, status: int) {
    && r.visited == visited && r.done == done && Report(r) == status
    && course == if r.active then MetActive(r.left) else Drained
  }

  /** The dependency matrix, once it is allocated. */
  datatype Table = NoTable | Table(m: Matrix)

  /** The main loop of micscif_get_minimal_deactiveset and what follows it. */
  method SinkAndUnwind(m: Matrix, source: nat, nodemask: array<bv8>, visited: array<bool>, stack: DepStack,
                       ghost before: seq<bool>)
    returns (status: int, ghost course: Course, ghost done: set<nat>)
    requires source < |m| == visited.Length == |before| && |m| <= 8 * nodemask.Length
    requires (visited as object) != (nodemask as object)
    requires stack.items == [source] && visited[..] == before[source := true]
    modifies nodemask, visited, stack
    ensures Adds(old(nodemask[..]), nodemask[..], done)
    ensures Sunk(m, source, before, visited[..], done, course, status)
    ensures course.Drained? || course.MetActive? || (course.RanOut? && !stack.ample)
    ensures !course.RanOut? ==> Searched(Minimal(m, before, source), visited[..], done, course, status)
  {
    ghost var extra;
    status, done, extra := Sink(m, source, nodemask, visited, stack, before, visited[..]);
    hide Has, Adds;
    if status == 0 {
      course := Drained;
      SinkDrained(m, source, before, visited[..], done);
      assert visited[..] == Minimal(m, before, source).visited;
      return;
    }
    ghost var marks, items := visited[..], stack.items;
    course := if status == -ENOMEM then RanOut(items) else MetActive(items);
    var failed := status;
    status := Unwind(stack, visited, failed);
    SinkUnwound(m, source, before, marks, visited[..], items, done, extra, failed);
    hide Sunk;
    assert visited[..] == Unmarked(marks, items);
  }

  /** micscif_get_minimal_deactiveset */
  method GetMinimalDeactiveset(table: Table, source: nat, nodemask: array<bv8>, visited: array?<bool>, ample: bool)
    returns (status: int, ghost course: Course, ghost done: set<nat>)
    requires table.Table? ==> source < |table.m| <= 8 * nodemask.Length
    requires table.Table? && visited != null ==>
               visited.Length == |table.m| && (visited as object) != (nodemask as object)
    modifies nodemask, visited
    ensures Adds(old(nodemask[..]), nodemask[..], done)
    ensures table.NoTable? || visited == null ==> status == -EINVAL && done == {}
    ensures table.NoTable? && visited != null ==> visited[..] == old(visited[..])
    ensures table.Table? && visited != null ==>
              Sunk(table.m, source, old(visited[..]), visited[..], done, course, status)
    ensures table.Table? && visited != null && ample ==> course.Drained? || course.MetActive?
    ensures table.Table? && visited != null && (course.Drained? || course.MetActive?) ==>
              Searched(Minimal(table.m, old(visited[..]), source), visited[..], done, course, status)
  {
    hide Has;
    course, done := NotStarted, {};
    if table.NoTable? {
      return -EINVAL, course, done;
    }
    if visited == null {
      return -EINVAL, course, done;
    }
    ghost var before := visited[..];
    var stack := new DepStack(ample);
    status := stack.Push(source);
    if status != 0 {
      return;
    }
    visited[source] := true;
    hide Sunk, Searched, Minimal;
    status, course, done := SinkAndUnwind(table.m, source, nodemask, visited, stack, before);
  }

  // ------------------------------------------------ going down: as many nodes as possible

  /** The inner loop of micscif_get_deactiveset: neighbours that might go down too are stacked, again if need be. */
  method PushIdle(m: Matrix, idle: seq<Idle>, u: nat, visited: array<bool>, stack: DepStack) returns (status: int)
    requires |idle| == |m| == visited.Length && u < |m|
    requires InRange(stack.items, |m|)
    modifies stack
    ensures status == 0 || (status == -ENOMEM && !stack.ample)
    ensures status == 0 ==> stack.items == PushOnward(m, idle, u, 0, visited[..], old(stack.items))
    ensures InRange(stack.items, |m|)
    ensures forall x :: x in stack.items ==> x in old(stack.items) || SpreadEdges(m, idle)(u, x)
  {
    hide Stale;
    status := 0;
    for i := 0 to |m|
      invariant status == 0 && InRange(stack.items, |m|)
      invariant forall x :: x in stack.items ==> x in old(stack.items) || SpreadEdges(m, idle)(u, x)
      invariant PushOnward(m, idle, u, 0, visited[..], old(stack.items)) ==
                PushOnward(m, idle, u, i, visited[..], stack.items)
    {
      if !visited[i] && m[u][i].DisconnectReady? {
        if i == 0 {
          continue;
        }
        if idle[i].PC3Ready? {
          status := stack.Push(i);
          if status != 0 {
            return;
          }
        }
      }
    }
  }

  /** What the mask has gained can be reached from the start, and so can all that is stacked. */
  ghost predicate Spreading(edge: Edges, source: nat, n: nat, items: seq<nat>, added: set<nat>) {
    && (forall x :: x in items ==> x < n && Reach(edge, source, x))
    && (forall x :: x in added ==> Reach(edge, source, x))
  }

  lemma SpreadingSunk(m: Matrix, idle: seq<Idle>, source: nat, u: nat, before: seq<bool>, done: set<nat>,
                      items: seq<nat>, added: set<nat>)
    requires |idle| == |m| == |before| && Spreading(SpreadEdges(m, idle), source, |m|, items, added)
    requires Reach(SpreadEdges(m, idle), source, u)
    requires forall x: nat :: x in done ==> Reach(ReadyEdges(m, before), u, x)
    ensures Spreading(SpreadEdges(m, idle), source, |m|, items, added + done)
  {
    forall x: nat | x in done ensures Reach(SpreadEdges(m, idle), source, x) {
      ReachMore(ReadyEdges(m, before), SpreadEdges(m, idle), source, u, x);
    }
  }

  lemma SpreadingPop(edge: Edges, source: nat, n: nat, items: seq<nat>, added: set<nat>)
    requires items != [] && Spreading(edge, source, n, items, added)
    ensures Spreading(edge, source, n, items[1..], added) && items[0] < n && Reach(edge, source, items[0])
    ensures forall x :: x in items[1..] ==> x < n
  {
    assert items[0] in items;
    assert forall x :: x in items[1..] ==> x in items;
  }

  lemma SpreadingPush(edge: Edges, source: nat, n: nat, items: seq<nat>, more: seq<nat>, added: set<nat>, u: nat)
    requires Spreading(edge, source, n, items, added) && Reach(edge, source, u)
    requires forall x :: x in more ==> x < n && (x in items || edge(u, x))
    ensures Spreading(edge, source, n, more, added)
  {
    forall x | x in more ensures Reach(edge, source, x) {
      if x !in items { ReachStep(edge, source, u, x); }
    }
  }

  lemma AddsMore(a: seq<bv8>, b: seq<bv8>, c: seq<bv8>, x: set<nat>, y: set<nat>)
    requires Adds(a, b, x) && Adds(b, c, y)
    ensures Adds(a, c, x + y)
  {
    hide Has;
  }

  /** A nested search from a node not visited yet: unless it runs out of memory it leaves that node visited. */
  method SinkFrom(m: Matrix, node: nat, nodemask: array<bv8>, visited: array<bool>, ample: bool)
    returns (status: int, ghost course: Course, ghost sunk: set<nat>)
    requires node < |m| == visited.Length && |m| <= 8 * nodemask.Length && !visited[node]
    requires (visited as object) != (nodemask as object)
    modifies nodemask, visited
    ensures status == 0 || status == -ENOMEM || status == -EOPNOTSUPP
    ensures Adds(old(nodemask[..]), nodemask[..], sunk)
    ensures forall x: nat :: x in sunk ==> Reach(ReadyEdges(m, old(visited[..])), node, x)
    ensures course.Drained? ==> forall x: nat :: x in sunk <==> Reach(ReadyEdges(m, old(visited[..])), node, x)
    ensures course == MetActive([]) <==> status == -EOPNOTSUPP
    ensures ample ==> course.Drained? || course.MetActive?
    ensures course.Drained? || course.MetActive? ==>
              Searched(Minimal(m, old(visited[..]), node), visited[..], sunk, course, status)
    ensures status != -ENOMEM ==> !course.NotStarted? && node in sunk
    ensures status != -ENOMEM ==> Unvisited(visited[..]) < old(Unvisited(visited[..]))
  {
    hide Has;
    status, course, sunk := GetMinimalDeactiveset(Table(m), node, nodemask, visited, ample);
    if status != -ENOMEM {
      ReachSelf(ReadyEdges(m, old(visited[..])), node);
      UnvisitedFalls(old(visited[..]), visited[..], node);
    }
  }

  lemma AddsNone(a: seq<bv8>)
    ensures Adds(a, a, {})
  {
  }

  /** A nested search that drains has found exactly what depends on its start. */
  ghost predicate Sunken(m: Matrix, before: seq<bool>, node: nat, sunk: set<nat>, course: Course)
    requires |before| == |m|
  {
    course.Drained? ==> forall x: nat :: x in sunk <==> Reach(ReadyEdges(m, before), node, x)
  }

  /**
   One round of the main loop of micscif_get_deactiveset; `s` and `t` are what the search has found
   before and after.
   */
  method SpreadOne(m: Matrix, idle: seq<Idle>, max: bool, nodemask: array<bv8>, visited: array<bool>, stack: DepStack,
                   cont: bool, ghost s: Spread)
    returns (status: int, next: bool, ghost course: Course, ghost sunk: set<nat>, ghost t: Spread)
    requires |idle| == |m| == visited.Length && |m| <= 8 * nodemask.Length
    requires (visited as object) != (nodemask as object)
    requires stack.items != [] && stack.items[0] < |m| && InRange(stack.items, |m|) && (cont ==> max)
    modifies nodemask, visited, stack
    ensures status == 0 || (status == -ENOMEM && !stack.ample) || status == -EOPNOTSUPP
    ensures stack.ample ==> !course.RanOut?
    ensures InRange(stack.items, |m|) && Adds(old(nodemask[..]), nodemask[..], sunk)
    ensures forall x: nat :: x in sunk ==> Reach(ReadyEdges(m, old(visited[..])), old(stack.items)[0], x)
    ensures forall x :: x in stack.items ==>
              x in old(stack.items)[1..] || SpreadEdges(m, idle)(old(stack.items)[0], x)
    ensures !old(visited[stack.items[0]]) ==> Sunken(m, old(visited[..]), old(stack.items)[0], sunk, course)
    ensures !old(visited[stack.items[0]]) && status != -ENOMEM ==> !course.NotStarted? && old(stack.items)[0] in sunk
    ensures status == -EOPNOTSUPP ==> course == MetActive([]) && !next && !old(visited[stack.items[0]])
    ensures course == MetActive([]) ==> status == -EOPNOTSUPP && stack.items == old(stack.items)[1..]
    ensures old(visited[stack.items[0]]) ==> sunk == {} && course.NotStarted?
    ensures !max ==> !next && stack.items == old(stack.items)[1..]
    ensures next ==> max
    ensures status != -ENOMEM ==>
              Unvisited(visited[..]) < old(Unvisited(visited[..])) ||
              (Unvisited(visited[..]) == old(Unvisited(visited[..]))
               && Stale(stack.items, visited[..]) < old(Stale(stack.items, visited[..])))
    ensures status != -ENOMEM && !course.RanOut? ==>
              && t.added == s.added + sunk && t.status == status
              && SpreadAll(m, idle, max, old(visited[..]), old(stack.items), s) ==
                 SpreadAll(m, idle, max, visited[..], stack.items, t)
  {
    hide Has, Adds, Reach, Unvisited;
    StalePop(stack.items, visited[..]);
    hide Stale;
    course, sunk, next := NotStarted, {}, cont || max;
    AddsNone(nodemask[..]);
    var node;
    status, node := stack.Pop();
    t := s.(popped := s.popped + {node}, status := 0);
    if !visited[node] {
      status, course, sunk := SinkFrom(m, node, nodemask, visited, stack.ample);
      t := Spread(s.added + sunk, t.popped, s.drained && !Minimal(m, old(visited[..]), node).active, status);
      if status == -EOPNOTSUPP {
        next := false;
      } else if status != 0 {
        return;
      }
    }
    if next {
      status := PushIdle(m, idle, node, visited, stack);
    }
  }

  /** What a round has found, what it returns, and what is left to do. */
  ghost predicate Progress(first: Course, source: nat, items: seq<nat>, added: set<nat>, done: set<nat>, status: int,
                           cont: bool, max: bool)
  {
    && done <= added && (cont ==> max) && (status == 0 || (status == -EOPNOTSUPP && !cont))
    && (first.NotStarted? ==> items == [source] && added == done == {} && status == 0 && !cont)
    && (!first.NotStarted? ==> source in done)
    && (first == MetActive([]) ==> status == -EOPNOTSUPP && added == done && items == [])
    && (!max ==> added == done && !cont && (!first.NotStarted? ==> items == []))
    && (!max && status == -EOPNOTSUPP ==> first == MetActive([]))
  }

  lemma ProgressStep(first: Course, source: nat, items: seq<nat>, added: set<nat>, done: set<nat>, status: int,
                     cont: bool, max: bool, course: Course, sunk: set<nat>, after: int, next: bool, rest: seq<nat>)
    requires Progress(first, source, items, added, done, status, cont, max) && items != []
    requires after == 0 || after == -EOPNOTSUPP
    requires first.NotStarted? ==> !course.NotStarted? && items[0] in sunk
    requires after == -EOPNOTSUPP ==> course == MetActive([]) && !next
    requires course == MetActive([]) ==> after == -EOPNOTSUPP && rest == items[1..]
    requires !max ==> !next && rest == items[1..]
    requires next ==> max
    ensures var begun := if first.NotStarted? then course else first;
            var sunken := if first.NotStarted? then sunk else done;
            Progress(begun, source, rest, added + sunk, sunken, after, next, max)
  {
  }

  /** What the search for a de-activation set has added, first from the source itself and then in all. */
  ghost predicate Found(m: Matrix, idle: seq<Idle>, source: nat, first: Course, done: set<nat>, added: set<nat>)
    requires source < |m| == |idle|
  {
    && done <= added && (forall x :: x in added ==> Reach(SpreadEdges(m, idle), source, x))
    && Sunken(m, NoneVisited(|m|), source, done, first)
  }

  /** The main loop of micscif_get_deactiveset. */
  method SpreadOut(m: Matrix, idle: seq<Idle>, source: nat, nodemask: array<bv8>, visited: array<bool>, stack: DepStack,
                   maxDisconn: bool)
    returns (status: int, ghost first: Course, ghost done: set<nat>, ghost added: set<nat>)
    requires source < |m| == |idle| == visited.Length && |m| <= 8 * nodemask.Length
    requires (visited as object) != (nodemask as object)
    requires stack.items == [source] && visited[..] == NoneVisited(|m|)
    modifies nodemask, visited, stack
    ensures status == 0 || (status == -ENOMEM && !stack.ample) || status == -EOPNOTSUPP
    ensures Adds(old(nodemask[..]), nodemask[..], added) && Found(m, idle, source, first, done, added)
    ensures status != -ENOMEM ==> source in done
    ensures first == MetActive([]) ==> status == -EOPNOTSUPP && added == done
    ensures !maxDisconn ==> added == done && (status == -EOPNOTSUPP ==> first == MetActive([]))
    ensures stack.ample ==> added == Deactivate(m, idle, maxDisconn, source).added
    ensures stack.ample ==> status == Deactivate(m, idle, maxDisconn, source).status
  {
    ghost var edge := SpreadEdges(m, idle);
    first, done, added, status := NotStarted, {}, {}, 0;
    AddsNone(nodemask[..]);
    var contNextStep := false;
    ghost var sofar := Spread({}, {}, true, 0);
    ReachSelf(edge, source);
    while stack.items != []
      invariant InRange(stack.items, |m|)
      invariant stack.ample ==> sofar.added == added && sofar.status == status
      invariant stack.ample ==> SpreadAll(m, idle, maxDisconn, visited[..], stack.items, sofar) ==
                                Deactivate(m, idle, maxDisconn, source)
      invariant Progress(first, source, stack.items, added, done, status, contNextStep, maxDisconn)
      invariant first.NotStarted? ==> visited[..] == NoneVisited(|m|)
      invariant Spreading(edge, source, |m|, stack.items, added) && Adds(old(nodemask[..]), nodemask[..], added)
      invariant Sunken(m, NoneVisited(|m|), source, done, first)
      decreases Unvisited(visited[..]), Stale(stack.items, visited[..])
    {
      hide Adds, Sunken, Reach, Unvisited, Stale, SpreadAll, Deactivate, ReadyEdges, SpreadEdges, NoneVisited;
      SpreadingPop(edge, source, |m|, stack.items, added);
      ghost var mask, before, items := nodemask[..], visited[..], stack.items;
      ghost var course, sunk;
      ghost var was, cont, found := status, contNextStep, added;
      status, contNextStep, course, sunk, sofar :=
        SpreadOne(m, idle, maxDisconn, nodemask, visited, stack, contNextStep, sofar);
      SpreadingSunk(m, idle, source, items[0], before, sunk, items[1..], added);
      AddsMore(old(nodemask[..]), mask, nodemask[..], added, sunk);
      added := added + sunk;
      SpreadingPush(edge, source, |m|, items[1..], stack.items, added, items[0]);
      if status != -ENOMEM {
        ProgressStep(first, source, items, found, done, was, cont, maxDisconn, course, sunk, status, contNextStep,
                     stack.items);
      }
      if first.NotStarted? {
        first, done := course, sunk;
      }
      if status == -ENOMEM {
        return;
      }
      hide Progress, Spreading;
    }
  }

  /** micscif_get_deactiveset, with a dependency matrix in place. */
  method GetDeactiveset(m: Matrix, idle: seq<Idle>, source: nat, nodemask: array<bv8>, maxDisconn: bool, ample: bool)
    returns (status: int, ghost first: Course, ghost done: set<nat>, ghost added: set<nat>)
    requires source < |m| == |idle| && |m| <= 8 * nodemask.Length
    modifies nodemask
    ensures status == 0 || (status == -ENOMEM && !ample) || status == -EOPNOTSUPP
    ensures Adds(old(nodemask[..]), nodemask[..], added) && Found(m, idle, source, first, done, added)
    ensures status != -ENOMEM ==> source in done
    ensures first == MetActive([]) ==> status == -EOPNOTSUPP && added == done
    ensures !maxDisconn ==> added == done && (status == -EOPNOTSUPP ==> first == MetActive([]))
    ensures ample ==> added == Deactivate(m, idle, maxDisconn, source).added
    ensures ample ==> status == Deactivate(m, idle, maxDisconn, source).status
  {
    first, done, added := NotStarted, {}, {};
    AddsNone(nodemask[..]);
    var short: bool := *;
    if !ample && short {
      return -ENOMEM, first, done, added;
    }
    var visited := new bool[|m|](i => false);
    assert visited[..] == NoneVisited(|m|);
    var stack := new DepStack(ample);
    status := stack.Push(source);
    if status != 0 {
      return;
    }
    hide Found, Deactivate;
    status, first, done, added := SpreadOut(m, idle, source, nodemask, visited, stack, maxDisconn);
    if status == -ENOMEM {
      return;
    }
    assert source in added by { DoneIsAdded(m, idle, source, first, done, added); }
    var valid := IsValid(nodemask, |m|);
    assert Has(nodemask[..], source);
    if !valid {
      status := -EOPNOTSUPP;
    }
  }

  lemma DoneIsAdded(m: Matrix, idle: seq<Idle>, source: nat, first: Course, done: set<nat>, added: set<nat>)
    requires source < |m| == |idle| && Found(m, idle, source, first, done, added)
    ensures done <= added
  {
  }
}

/**
 Dependencies between nodes, and what can be reached along them.
 */
module DepSpec {

  /** enum dependency_state */
  datatype Dep = NotDependent | Dependent | DisconnectReady | Disconnected

  /** PM_IDLE_STATE */
  datatype Idle = PC0 | PC3Ready | PC3 | PC6 | Lost

  /** m[i][j]: how node i depends on node j */
  type Matrix = m: seq<seq<Dep>> | forall i :: 0 <= i < |m| ==> |m[i]| == |m|

  type Edges = (nat, nat) -> bool

  // ------------------------------------------------ reachability

  ghost predicate LinkAt(edge: Edges, p: seq<nat>, i: nat)
    requires i + 1 < |p|
  {
    edge(p[i], p[i + 1])
  }

  ghost predicate Path(edge: Edges, p: seq<nat>, s: nat, t: nat) {
    && |p| > 0 && p[0] == s && p[|p| - 1] == t
    && forall i: nat :: i + 1 < |p| ==> LinkAt(edge, p, i)
  }

  ghost predicate Reach(edge: Edges, s: nat, t: nat) {
    exists p :: Path(edge, p, s, t)
  }

  lemma ReachSelf(edge: Edges, s: nat)
    ensures Reach(edge, s, s)
  {
    assert Path(edge, [s], s, s);
  }

  lemma ReachStep(edge: Edges, s: nat, t: nat, u: nat)
    requires Reach(edge, s, t) && edge(t, u)
    ensures Reach(edge, s, u)
  {
    var p :| Path(edge, p, s, t);
    var q := p + [u];
    forall i: nat | i + 1 < |q| ensures LinkAt(edge, q, i) {
      if i + 1 < |p| { assert LinkAt(edge, p, i); }
    }
    assert Path(edge, q, s, u);
  }

  /** Whatever is reached is the start, or an edge leads to it from another node that is. */
  lemma ReachLast(edge: Edges, s: nat, t: nat)
    requires Reach(edge, s, t)
    ensures t == s || exists u: nat :: Reach(edge, s, u) && edge(u, t)
  {
    var p :| Path(edge, p, s, t);
    if |p| > 1 {
      var q := p[..|p| - 1];
      forall i: nat | i + 1 < |q| ensures LinkAt(edge, q, i) { assert LinkAt(edge, p, i); }
      assert LinkAt(edge, p, |p| - 2);
      assert Path(edge, q, s, q[|q| - 1]);
    }
  }

  ghost predicate ClosedUnder(edge: Edges, x: set<nat>) {
    forall u, v :: u in x && edge(u, v) ==> v in x
  }

  /** A closed set holds all that can be reached from it. */
  lemma {:induction false} ReachStays(edge: Edges, x: set<nat>, p: seq<nat>, s: nat, t: nat)
    requires s in x && ClosedUnder(edge, x) && Path(edge, p, s, t)
    ensures t in x
  {
    if |p| > 1 {
      var q := p[..|p| - 1];
      forall i: nat | i + 1 < |q| ensures LinkAt(edge, q, i) { assert LinkAt(edge, p, i); }
      assert LinkAt(edge, p, |p| - 2);
      ReachStays(edge, x, q, s, q[|q| - 1]);
    }
  }

  lemma ReachIn(edge: Edges, x: set<nat>, s: nat, t: nat)
    requires s in x && ClosedUnder(edge, x) && Reach(edge, s, t)
    ensures t in x
  {
    var p :| Path(edge, p, s, t);
    ReachStays(edge, x, p, s, t);
  }

  // ------------------------------------------------ the edges the searches follow

  /** From a node to one it lost: another node, not the host, that is idle in PC3 or PC6. */
  function WakeEdges(m: Matrix, idle: seq<Idle>): Edges
    requires |idle| == |m|
  {
    (u: nat, i: nat) =>
      u < |m| && i < |m| && m[u][i].Disconnected? && i != 0 && (idle[i].PC3? || idle[i].PC6?)
  }

  /** From a node to those that depend on it and are ready to let go, among the ones not visited before. */
  function ReadyEdges(m: Matrix, before: seq<bool>): Edges
    requires |before| == |m|
  {
    (u: nat, i: nat) => u < |m| && i < |m| && m[i][u].DisconnectReady? && !before[i]
  }

  /** All the ways a de-activation can spread: to those that depend on a node, and on to idle nodes it depends on. */
  function SpreadEdges(m: Matrix, idle: seq<Idle>): Edges
    requires |idle| == |m|
  {
    (u: nat, i: nat) =>
      u < |m| && i < |m| && (m[i][u].DisconnectReady? || (m[u][i].DisconnectReady? && i != 0 && idle[i].PC3Ready?))
  }

  /**
   The nodes to wake: with each of them all idle nodes it lost, except the host, and nobody else but
   for such a reason.
   */
  lemma WakeSetMeans(m: Matrix, idle: seq<Idle>, source: nat, s: set<nat>)
    requires source < |m| == |idle| && forall x: nat :: x in s <==> Reach(WakeEdges(m, idle), source, x)
    ensures source in s
    ensures forall u: nat, i: nat ::
              u in s && u < |m| && 0 < i < |m| && m[u][i].Disconnected? && (idle[i].PC3? || idle[i].PC6?) ==> i in s
    ensures forall i: nat :: i in s && i != source ==>
              && 0 < i < |m| && (idle[i].PC3? || idle[i].PC6?)
              && exists u: nat :: u in s && u < |m| && m[u][i].Disconnected?
  {
    var edge := WakeEdges(m, idle);
    hide Reach;
    ReachSelf(edge, source);
    forall u: nat, i: nat | u in s && edge(u, i) ensures i in s { ReachStep(edge, source, u, i); }
    forall i: nat | i in s && i != source
      ensures 0 < i < |m| && (idle[i].PC3? || idle[i].PC6?)
      ensures exists u: nat :: u in s && u < |m| && m[u][i].Disconnected?
    {
      ReachLast(edge, source, i);
    }
  }

  /** More edges, more reach. */
  lemma ReachMore(few: Edges, many: Edges, s: nat, t: nat, u: nat)
    requires Reach(many, s, t) && Reach(few, t, u) && forall x: nat, y: nat :: few(x, y) ==> many(x, y)
    ensures Reach(many, s, u)
  {
    var p :| Path(few, p, t, u);
    ReachAlong(few, many, p, s, t, u);
  }

  lemma {:induction false} ReachAlong(few: Edges, many: Edges, p: seq<nat>, s: nat, t: nat, u: nat)
    requires Reach(many, s, t) && Path(few, p, t, u) && forall x: nat, y: nat :: few(x, y) ==> many(x, y)
    ensures Reach(many, s, u)
  {
    if |p| > 1 {
      var q := p[..|p| - 1];
      forall i: nat | i + 1 < |q| ensures LinkAt(few, q, i) { assert LinkAt(few, p, i); }
      assert LinkAt(few, p, |p| - 2);
      ReachAlong(few, many, q, s, t, q[|q| - 1]);
      ReachStep(many, s, q[|q| - 1], u);
    }
  }

  // ------------------------------------------------ sequences without repetition

  predicate NoRepeats(s: seq<nat>) {
    forall i, j :: 0 <= i < j < |s| ==> s[i] != s[j]
  }
}

/**
 Node dependencies: a node tells the host when it first maps pages of another node and
 when it has given back the last, and the host keeps one matrix entry per pair.
 */
module NodeDep {
  import opened DepSpec

  /** SCIF_NODE_CREATE_DEP and SCIF_NODE_DESTROY_DEP */
  datatype Notice = CreateDep | DestroyDep

  /** One pair of nodes. */
  datatype State = State(
    refCnt: int,           // scif_map_ref_cnt
    sent: seq<Notice>,     // every notice ever sent to the host
    handled: nat,          // how many of them the host has processed, in order
    entry: Dep)            // the host's matrix entry

  const INITIAL := State(0, [], 0, NotDependent)

  datatype Op = Create(nrPages: int) | Destroy(nrPages: int) | Handle

  function Next(s: State, op: Op): State {
    match op
    case Create(n) =>
      s.(refCnt := s.refCnt + n, sent := if s.refCnt == 0 then s.sent + [CreateDep] else s.sent)
    case Destroy(n) =>
      s.(refCnt := s.refCnt - n, sent := if s.refCnt - n == 0 then s.sent + [DestroyDep] else s.sent)
    case Handle =>
      if s.handled < |s.sent| then
        s.(handled := s.handled + 1, entry := EntryAfter(s.sent[s.handled]))
      else
        s
  }

  function EntryAfter(n: Notice): Dep {
    if n.CreateDep? then Dependent else NotDependent
  }

  /** The host's entry once every notice sent so far is processed. */
  function Settled(s: State): Dep {
    if s.handled < |s.sent| then EntryAfter(s.sent[|s.sent| - 1]) else s.entry
  }

  ghost predicate Alternate(sent: seq<Notice>) {
    forall i :: 0 <= i < |sent| ==> (sent[i].CreateDep? <==> i % 2 == 0)
  }

  /** The host knows, or will know, of exactly the dependencies that exist. */
  ghost predicate Consistent(s: State) {
    && s.refCnt >= 0 && s.handled <= |s.sent| && Alternate(s.sent)
    && (s.handled == |s.sent| > 0 ==> s.entry == EntryAfter(s.sent[|s.sent| - 1]))
    && (s.sent == [] ==> s.entry == NotDependent)
    && (Settled(s) == Dependent <==> s.refCnt > 0)
    && (|s.sent| % 2 == 1 <==> s.refCnt > 0)
  }

  /** A get leaves pages held; a put gives back pages that are held. */
  predicate Balanced(s: State, op: Op) {
    match op
    case Create(n) => s.refCnt + n > 0
    case Destroy(n) => 0 < s.refCnt && n <= s.refCnt
    case Handle => true
  }

  /** A get or put keeps host and node consistent exactly when it is balanced. */
  lemma ConsistentIffBalanced(s: State, op: Op)
    requires Consistent(s)
    ensures Consistent(Next(s, op)) <==> Balanced(s, op)
  {
    var t := Next(s, op);
    if |t.sent| > |s.sent| {
      assert t.sent[|t.sent| - 1] == t.sent[|s.sent|];
    }
  }

  /** Getting no page at all, with none held, tells the host of a dependency that does not exist. */
  lemma EmptyGetMisleads(s: State)
    requires Consistent(s) && s.refCnt == 0
    ensures Settled(Next(s, Create(0))) == Dependent && Next(s, Create(0)).refCnt == 0
  {
    assert Next(s, Create(0)).sent == s.sent + [CreateDep];
  }

  function Run(ops: seq<Op>): State {
    if ops == [] then INITIAL else Next(Run(ops[..|ops| - 1]), ops[|ops| - 1])
  }

  /** The pages mapped by the gets of a run and not given back by its puts. */
  function Held(ops: seq<Op>): int {
    if ops == [] then 0
    else
      match ops[|ops| - 1] {
        case Create(n) => Held(ops[..|ops| - 1]) + n
        case Destroy(n) => Held(ops[..|ops| - 1]) - n
        case Handle => Held(ops[..|ops| - 1])
      }
  }

  /** The reference count is the number of pages held. */
  lemma {:induction false} CountIsHeld(ops: seq<Op>)
    ensures Run(ops).refCnt == Held(ops)
  {
    if ops != [] { CountIsHeld(ops[..|ops| - 1]); }
  }

  /** Every get leaves pages held, and every put gives back pages that are held. */
  ghost predicate AlwaysBalanced(ops: seq<Op>) {
    ops == [] ||
      var before := ops[..|ops| - 1];
      && AlwaysBalanced(before)
      && match ops[|ops| - 1] {
           case Create(n) => Held(before) + n > 0
           case Destroy(n) => 0 < Held(before) && n <= Held(before)
           case Handle => true
         }
  }

  /** Over every run of balanced gets and puts: notices alternate, and settle on whether pages are held. */
  lemma {:induction false} RunIsConsistent(ops: seq<Op>)
    requires AlwaysBalanced(ops)
    ensures Consistent(Run(ops)) && (Settled(Run(ops)) == Dependent <==> Held(ops) > 0)
  {
    CountIsHeld(ops);
    if ops != [] {
      var before := ops[..|ops| - 1];
      RunIsConsistent(before);
      CountIsHeld(before);
      ConsistentIffBalanced(Run(before), ops[|ops| - 1]);
    }
  }

  ghost predicate ConsistentThroughout(ops: seq<Op>) {
    ops == [] || (ConsistentThroughout(ops[..|ops| - 1]) && Consistent(Run(ops)))
  }

  /** In every run: host and node are consistent after each step exactly if every get and put is balanced. */
  lemma {:induction false} ConsistentThroughoutIffBalanced(ops: seq<Op>)
    ensures ConsistentThroughout(ops) <==> AlwaysBalanced(ops)
  {
    if ops != [] {
      var before := ops[..|ops| - 1];
      ConsistentThroughoutIffBalanced(before);
      CountIsHeld(before);
      if AlwaysBalanced(before) {
        RunIsConsistent(before);
        ConsistentIffBalanced(Run(before), ops[|ops| - 1]);
      }
    }
  }

  lemma RunOn(ops: seq<Op>, op: Op)
    ensures Run(ops + [op]) == Next(Run(ops), op) && Run(ops + [op]).refCnt == Held(ops + [op])
    ensures Held(ops + [op]) == Held(ops) + if op.Create? then op.nrPages else if op.Destroy? then -op.nrPages else 0
  {
    CountIsHeld(ops + [op]);
    assert (ops + [op])[..|ops|] == ops;
  }

  /** The node's device, the queue to the host and the host's entry. */
  class Dependency {
    var refCnt: int
    var entry: Dep
    var queue: seq<Notice>
    ghost var sent: seq<Notice>
    ghost var history: seq<Op>

    ghost predicate Queued()
      reads this
    {
      |queue| <= |sent| && queue == sent[|sent| - |queue|..]
    }

    /** The state is that of the gets, puts and notices so far. */
    ghost predicate Valid()
      reads this
    {
      Queued() && View() == Run(history)
    }

    ghost function View(): State
      reads this
      requires Queued()
    {
      State(refCnt, sent, |sent| - |queue|, entry)
    }

    constructor ()
      ensures Valid() && View() == INITIAL && history == []
    {
      refCnt, entry, queue, sent, history := 0, NotDependent, [], [], [];
    }

    /** A notice to the host. */
    method Post(n: Notice)
      requires Queued()
      modifies this`queue, this`sent
      ensures Queued() && View() == old(View()).(sent := old(sent) + [n])
    {
      queue, sent := queue + [n], sent + [n];
    }

    /** micscif_create_node_dep: host and node stay consistent exactly if pages are held afterwards. */
    method CreateNodeDep(nrPages: int)
      requires Valid()
      modifies this
      ensures Valid() && View() == Next(old(View()), Create(nrPages)) && history == old(history) + [Create(nrPages)]
      ensures refCnt == Held(history) == old(Held(history)) + nrPages
      ensures old(Consistent(View())) ==> (Consistent(View()) <==> refCnt > 0)
    {
      hide Consistent, Run, Held;
      ghost var was := View();
      if Consistent(was) { ConsistentIffBalanced(was, Create(nrPages)); }
      RunOn(history, Create(nrPages));
      history := history + [Create(nrPages)];
      if refCnt == 0 {
        Post(CreateDep);
      }
      refCnt := refCnt + nrPages;
    }

    /**
     micscif_destroy_node_dep: host and node stay consistent exactly if pages were held, and no more
     are given back.
     */
    method DestroyNodeDep(nrPages: int)
      requires Valid()
      modifies this
      ensures Valid() && View() == Next(old(View()), Destroy(nrPages)) && history == old(history) + [Destroy(nrPages)]
      ensures refCnt == Held(history) == old(Held(history)) - nrPages
      ensures old(Consistent(View())) ==> (Consistent(View()) <==> old(refCnt) > 0 && refCnt >= 0)
    {
      hide Consistent, Run, Held;
      ghost var was := View();
      if Consistent(was) { ConsistentIffBalanced(was, Destroy(nrPages)); }
      RunOn(history, Destroy(nrPages));
      history := history + [Destroy(nrPages)];
      refCnt := refCnt - nrPages;
      if refCnt == 0 {
        Post(DestroyDep);
      }
    }

    /** scif_node_create_dep and scif_node_destroy_dep on the host */
    method HandleNotice()
      requires Valid()
      modifies this
      ensures Valid() && View() == Next(old(View()), Handle) && history == old(history) + [Handle]
      ensures Held(history) == old(Held(history))
      ensures old(Consistent(View())) ==> Consistent(View())
    {
      hide Consistent, Run, Held;
      ghost var was := View();
      if Consistent(was) { ConsistentIffBalanced(was, Handle); }
      RunOn(history, Handle);
      history := history + [Handle];
      if queue != [] {
        entry := if queue[0].CreateDep? then Dependent else NotDependent;
        queue := queue[1..];
      }
    }

    /** Once the notices in flight are handled, the host's entry is DEPENDENT exactly if pages are held. */
    method HandleAll()
      requires Valid() && Consistent(View())
      modifies this
      ensures Valid() && Consistent(View()) && queue == [] && Held(history) == old(Held(history))
      ensures entry.Dependent? <==> Held(history) > 0
    {
      while queue != []
        invariant Valid() && Consistent(View()) && Held(history) == old(Held(history))
        decreases |queue|
      {
        hide Consistent, Run, Held;
        HandleNotice();
      }
      CountIsHeld(history);
    }
  }
}

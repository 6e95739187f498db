/**
 When a receiver is told that the connection was reset: it has every byte the sender
 ever published, unless the sender publishes more, which it can while a flush of its
 endpoint waits for the acknowledgement.
 */
module StreamReset {
  import opened RingSpec
  import opened StreamSpec
  import opened StreamTheorems

  /** A reset is reported only after everything sent was received. */
  ghost predicate Drained(s: Stream)
    requires SenderOk(s.snd)
  {
    s.reset ==> s.received == s.sent + InCall(s.snd)
  }

  // ------------------------------------------------ the exact condition

  /** The sender publishes bytes after the receiver was told of the reset. */
  predicate PublishesLate(s: Stream, op: Move) {
    op.SenderRuns? && s.snd.SCommit? && s.reset
  }

  /** Drained is: nothing is committed and unread. */
  lemma DrainedMeansRead(s: Stream)
    requires StreamInv(s)
    ensures Drained(s) <==> (s.reset ==> s.ring.read == s.ring.committed)
  {
    assert s.sent + InCall(s.snd) == s.ring.written[..s.ring.committed] && s.received == s.ring.written[..s.ring.read];
    if s.ring.read != s.ring.committed {
      assert |s.ring.written[..s.ring.read]| < |s.ring.written[..s.ring.committed]|;
    }
  }

  lemma ReadStaysCommitted(s: Stream, op: Move)
    requires StreamInv(s) && Enabled(s, op) && (s.reset ==> s.ring.read == s.ring.committed)
    ensures var t := Next(s, op); (t.reset ==> t.ring.read == t.ring.committed) <==> !PublishesLate(s, op)
  {
  }

  /** A step keeps a reset final exactly if it does not publish bytes after it. */
  lemma DrainedIffNotLate(s: Stream, op: Move)
    requires StreamInv(s) && Drained(s) && Enabled(s, op)
    ensures StreamInv(Next(s, op)) && (Drained(Next(s, op)) <==> !PublishesLate(s, op))
  {
    NextKeepsInv(s, op);
    DrainedMeansRead(s);
    DrainedMeansRead(Next(s, op));
    hide StreamInv, Drained;
    ReadStaysCommitted(s, op);
  }

  ghost predicate DrainedThroughout(ops: seq<Move>) {
    forall n: nat :: n <= |ops| ==> Drained(After(ops[..n]))
  }

  /** No bytes are published after a reset. */
  ghost predicate NeverLate(ops: seq<Move>) {
    ops == [] || (NeverLate(ops[..|ops| - 1]) && !PublishesLate(After(ops[..|ops| - 1]), ops[|ops| - 1]))
  }

  lemma {:induction false} NeverLateIsDrained(ops: seq<Move>, n: nat)
    requires NeverLate(ops) && n <= |ops|
    ensures Drained(After(ops[..n]))
  {
    hide Drained, StreamInv, PublishesLate, Enabled, Next;
    if n < |ops| {
      NeverLateIsDrained(ops[..|ops| - 1], n);
      assert ops[..|ops| - 1][..n] == ops[..n];
    } else {
      assert ops[..n] == ops;
      LastIsDrained(ops);
    }
  }

  lemma {:induction false} LastIsDrained(ops: seq<Move>)
    requires NeverLate(ops)
    ensures Drained(After(ops))
  {
    if ops != [] {
      var before, op := ops[..|ops| - 1], ops[|ops| - 1];
      LastIsDrained(before);
      hide Drained, StreamInv, PublishesLate, Next;
      if Enabled(After(before), op) { DrainedIffNotLate(After(before), op); }
    }
  }

  lemma {:induction false} DrainedIsNeverLate(ops: seq<Move>)
    requires DrainedThroughout(ops)
    ensures NeverLate(ops)
  {
    if ops != [] {
      var before, op := ops[..|ops| - 1], ops[|ops| - 1];
      forall n: nat | n <= |before| ensures Drained(After(before[..n])) { assert before[..n] == ops[..n]; }
      DrainedIsNeverLate(before);
      assert ops[..|before|] == before && ops[..|ops|] == ops;
      assert Drained(After(ops[..|before|])) && Drained(After(ops[..|ops|]));
      if PublishesLate(After(before), op) { DrainedIffNotLate(After(before), op); }
    }
  }

  /** In every run: a reset is final throughout exactly if no bytes are published after one. */
  lemma ResetIsFinalIffNeverLate(ops: seq<Move>)
    ensures DrainedThroughout(ops) <==> NeverLate(ops)
  {
    hide Drained, NeverLate, After;
    if NeverLate(ops) {
      forall n: nat | n <= |ops| ensures Drained(After(ops[..n])) { NeverLateIsDrained(ops, n); }
    }
    if DrainedThroughout(ops) { DrainedIsNeverLate(ops); }
  }

  // ------------------------------------------------ who publishes late

  /** Once the receiver's endpoint is disconnected, or is about to be, the sender's is not simply up. */
  ghost predicate FlushInv(s: Stream) {
    && (Discnct in s.toReceiver || DiscntAck in s.toReceiver || !Connected(s.rPhase) ==> !s.sPhase.Up?)
    && (s.reset ==> !Connected(s.rPhase))
  }

  lemma NextKeepsFlush(s: Stream, op: Move)
    requires StreamInv(s) && FlushInv(s) && Enabled(s, op)
    ensures FlushInv(Next(s, op))
  {
  }

  lemma {:induction false} RunKeepsFlush(ops: seq<Move>)
    ensures FlushInv(After(ops))
  {
    if ops != [] {
      var before, op := ops[..|ops| - 1], ops[|ops| - 1];
      RunKeepsFlush(before);
      hide FlushInv, StreamInv;
      if Enabled(After(before), op) { NextKeepsFlush(After(before), op); }
    }
  }

  /**
   After a reset the send loop finds its endpoint CONNECTED only while a flush of it waits
   for its acknowledgement, and only then does it write or publish anything.
   */
  lemma LateMeansFlushing(ops: seq<Move>)
    ensures var s := After(ops);
            && (s.reset && Connected(s.sPhase) ==> s.sPhase.Flushing?)
            && (s.reset && (s.snd.SWrite? || s.snd.SCommit? || s.snd.SNotify?) ==> s.sPhase.Flushing?)
  {
    RunKeepsFlush(ops);
  }

  // ------------------------------------------------ a condition on callers

  /** A send call and a flush of the same endpoint exclude each other. */
  predicate Exclusive(s: Stream, op: Move) {
    && (op.FlushSender? ==> s.snd.SIdle?)
    && (op.SendCall? ==> !s.sPhase.Flushing?)
  }

  ghost predicate AlwaysExclusive(ops: seq<Move>) {
    ops == [] || (AlwaysExclusive(ops[..|ops| - 1]) && Exclusive(After(ops[..|ops| - 1]), ops[|ops| - 1]))
  }

  lemma NextKeepsExclusion(s: Stream, op: Move)
    requires StreamInv(s) && Enabled(s, op) && Exclusive(s, op) && (s.sPhase.Flushing? ==> s.snd.SIdle?)
    ensures Next(s, op).sPhase.Flushing? ==> Next(s, op).snd.SIdle?
  {
  }

  lemma {:induction false} ExclusiveIsNeverLate(ops: seq<Move>)
    requires AlwaysExclusive(ops)
    ensures NeverLate(ops) && (After(ops).sPhase.Flushing? ==> After(ops).snd.SIdle?)
  {
    if ops != [] {
      var before, op := ops[..|ops| - 1], ops[|ops| - 1];
      ExclusiveIsNeverLate(before);
      LateMeansFlushing(before);
      hide StreamInv, Next, Exclusive;
      if Enabled(After(before), op) { NextKeepsExclusion(After(before), op); }
    }
  }

  /** Callers that do not flush an endpoint under a send call can rely on a reset. */
  lemma ResetIsDrained(ops: seq<Move>)
    requires AlwaysExclusive(ops)
    ensures Drained(After(ops))
  {
    hide Drained, NeverLate;
    ExclusiveIsNeverLate(ops);
    LastIsDrained(ops);
  }

  // ------------------------------------------------ without the exclusion

  ghost predicate Leads(s: Stream, op: Move, t: Stream) {
    Inv(s.ring) && SenderOk(s.snd) && ReceiverOk(s.rcv) && Enabled(s, op) && Next(s, op) == t
  }

  /** The run goes on by one step. */
  lemma Go(before: seq<Move>, s: Stream, op: Move, t: Stream) returns (ops: seq<Move>)
    requires After(before) == s && Leads(s, op, t)
    ensures After(ops) == t
  {
    ops := before + [op];
    assert ops[..|before|] == before;
  }

  /** The sender's endpoint is flushed and the receiver hears of it. */
  lemma FlushLeads(s: Stream, t: Stream, u: Stream)
    requires s == Established() && t == s.(sPhase := Flushing, toReceiver := [Discnct])
    requires u == s.(sPhase := Flushing, rPhase := Down, toSender := [DiscntAck])
    ensures Leads(s, FlushSender, t) && Leads(t, ToReceiver, u)
  {
  }

  /** The receiver is told of the reset. */
  lemma ResetLeads(s: Stream, t: Stream, u: Stream)
    requires s.ring == RingSpec.Initial(ENDPT_QP_SIZE) && s.rPhase == Down && s.rcv == RIdle && SenderOk(s.snd)
    requires t == s.(rcv := RCheck(1, true, 1)) && u == s.(reset := true)
    ensures Leads(s, RecvCall(1, true), t) && Leads(t, ReceiverRuns, u)
  {
  }

  /** The flushed endpoint still counts as connected, so a send call made then writes a byte. */
  lemma WriteLeads(s: Stream, t: Stream, u: Stream, v: Stream)
    requires s.ring == RingSpec.Initial(ENDPT_QP_SIZE) && s.sPhase == Flushing && s.snd == SIdle && ReceiverOk(s.rcv)
    requires t == s.(snd := SCheck([7], true, 0)) && u == s.(snd := SWrite([7], true, 0, 1))
    requires v == s.(snd := SCommit([7], true, 0, 1), ring := s.ring.(written := [7]))
    ensures Leads(s, SendCall([7], true), t) && Leads(t, SenderRuns, u) && Leads(u, SenderRuns, v)
  {
  }

  lemma FlushRun() returns (ops: seq<Move>, s: Stream)
    ensures After(ops) == s && s == Established().(sPhase := Flushing, rPhase := Down, toSender := [DiscntAck])
  {
    var s0 := Established();
    var s1 := s0.(sPhase := Flushing, toReceiver := [Discnct]);
    s := s0.(sPhase := Flushing, rPhase := Down, toSender := [DiscntAck]);
    assert After([]) == s0;
    hide After, Leads, RingSpec.Initial, Established;
    FlushLeads(s0, s1, s);
    ops := Go([], s0, FlushSender, s1);
    ops := Go(ops, s1, ToReceiver, s);
  }

  lemma ResetRun() returns (ops: seq<Move>, s: Stream)
    ensures After(ops) == s
    ensures s == Established().(sPhase := Flushing, rPhase := Down, toSender := [DiscntAck], reset := true)
  {
    hide After, Leads, RingSpec.Initial;
    var s0;
    ops, s0 := FlushRun();
    var s1 := s0.(rcv := RCheck(1, true, 1));
    s := s0.(reset := true);
    ResetLeads(s0, s1, s);
    ops := Go(ops, s0, RecvCall(1, true), s1);
    ops := Go(ops, s1, ReceiverRuns, s);
  }

  /** A run in which the receiver is told of the reset, and the sender is about to publish one more byte. */
  lemma AboutToPublish() returns (ops: seq<Move>)
    ensures PublishesLate(After(ops), SenderRuns)
  {
    hide After, Leads, RingSpec.Initial;
    var s;
    ops, s := ResetRun();
    var t, u := s.(snd := SCheck([7], true, 0)), s.(snd := SWrite([7], true, 0, 1));
    var v := s.(snd := SCommit([7], true, 0, 1), ring := s.ring.(written := [7]));
    WriteLeads(s, t, u, v);
    ops := Go(ops, s, SendCall([7], true), t);
    ops := Go(ops, t, SenderRuns, u);
    ops := Go(ops, u, SenderRuns, v);
  }

  /** So a reset is not always final. */
  lemma ResetTooEarly() returns (ops: seq<Move>)
    ensures !DrainedThroughout(ops)
  {
    hide After, DrainedThroughout, PublishesLate;
    var before := AboutToPublish();
    ops := before + [SenderRuns];
    assert ops[..|ops| - 1] == before;
    ResetIsFinalIffNeverLate(ops);
  }
}

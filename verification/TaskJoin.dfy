/** The outcome of a task and the wake-up of whoever awaits it: what every step keeps. */
module TaskJoin {
  import opened Prelude
  import opened TaskMachine

  // --- one outcome ----------------------------------------------------------------------------

  /** What a call in flight knows about the outcome. */
  predicate OutcomeAt(h: Shared, i: nat, pc: Pc)
  {
    && (InComplete(pc) <==> h.cell.resultLock == Agent(i))
    && (pc.RunDrop? || pc.CompleteLock? || pc.CompleteSwap? || pc.CompleteWrite? ==> pc.out != Cancelled)
    && (pc.CompleteWrite? ==> h.past.winner == Some(pc.out))
    && (pc.CancelDrop? || pc.CancelResult? ==> h.past.winner == Some(Cancelled))
    && (OwesResult(pc) ==> h.past.writes == 0)
    && (pc.WakeCas? || pc.RunCas? ==> pc.seen != COMPLETED)
  }

  /** What the cell and its owner know about the outcome. */
  predicate OutcomeShared(h: Shared, j: JoinOwner)
  {
    && (h.cell.resultLock == Owner <==> OwnerLocks(j.at))
    && (h.past.winner.None? <==> h.cell.state != COMPLETED)
    && h.past.writes <= Bit(h.past.winner.Some?)
    && (h.cell.result.Some? ==> h.past.winner == h.cell.result && h.past.writes == 1)
    && (h.past.writes == 1 && h.cell.result.None? ==> j.answers != [])
    && (j.answers != [] ==> h.past.winner == Some(j.answers[0]))
    && (forall k :: 1 <= k < |j.answers| ==> j.answers[k] == Cancelled)
    && (j.answers != [] && (h.cell.result.Some? || h.past.writes == 0) ==>
          h.past.winner == Some(Cancelled))
    && (j.at.PollLoad? ==> h.cell.result.None?)
    && (j.at.PollStore? ==> h.past.writes == 0)
  }

  ghost predicate OneOutcome(s: Sys)
  {
    && OutcomeShared(s.sh, s.join)
    && (forall i :: 0 <= i < |s.agents| ==> OutcomeAt(s.sh, i, s.agents[i]))
    && Count(s.agents, OwesResult) + s.sh.past.writes == Bit(s.sh.past.winner.Some?)
    && (s.sh.cell.resultLock.Agent? ==> s.sh.cell.resultLock.id < |s.agents|)
  }

  predicate OutcomeBefore(h: Shared, j: JoinOwner, i: nat, pc: Pc)
  {
    && OutcomeShared(h, j)
    && OutcomeAt(h, i, pc)
    && (OwesResult(pc) ==> h.past.winner.Some?)
  }

  /** What a step of call `i` owes: its own knowledge, the shared one, and the balance of results
      written and owed. */
  predicate OutcomeGood(h: Shared, j: JoinOwner, i: nat, pc: Pc, m: Move)
  {
    && OutcomeAt(m.sh, i, m.pc)
    && OutcomeShared(m.sh, j)
    && Bit(OwesResult(m.pc)) + m.sh.past.writes + Bit(h.past.winner.Some?)
       == Bit(OwesResult(pc)) + h.past.writes + Bit(m.sh.past.winner.Some?)
    && (m.sh.cell.resultLock.Agent? ==>
          m.sh.cell.resultLock == h.cell.resultLock || m.sh.cell.resultLock == Agent(i))
  }

  lemma OutcomeRun(h: Shared, j: JoinOwner, i: nat, pc: Pc, c: Choice)
    requires OutcomeBefore(h, j, i, pc)
    ensures OutcomeGood(h, j, i, pc, RunStep(h, pc, c))
  {
  }

  lemma OutcomeWake(h: Shared, j: JoinOwner, i: nat, pc: Pc, c: Choice)
    requires OutcomeBefore(h, j, i, pc)
    ensures OutcomeGood(h, j, i, pc, WakeStep(h, pc, c))
    ensures pc.Rest? ==> OutcomeGood(h, j, i, pc, StartStep(h, c))
  {
  }

  lemma OutcomeHandOff(h: Shared, j: JoinOwner, i: nat, pc: Pc)
    requires OutcomeBefore(h, j, i, pc)
    ensures OutcomeGood(h, j, i, pc, HandOffStep(h, i, pc))
  {
  }

  lemma OutcomeComplete(h: Shared, j: JoinOwner, i: nat, pc: Pc)
    requires OutcomeBefore(h, j, i, pc)
    ensures OutcomeGood(h, j, i, pc, CompleteStep(h, i, pc))
  {
  }

  lemma OutcomeCancel(h: Shared, j: JoinOwner, i: nat, pc: Pc)
    requires OutcomeBefore(h, j, i, pc)
    ensures OutcomeGood(h, j, i, pc, CancelStep(h, pc))
  {
  }

  lemma OutcomeOwn(h: Shared, j: JoinOwner, i: nat, pc: Pc, c: Choice)
    requires OutcomeBefore(h, j, i, pc)
    ensures OutcomeGood(h, j, i, pc, Act(h, i, pc, c))
  {
    OutcomeRun(h, j, i, pc, c);
    OutcomeWake(h, j, i, pc, c);
    OutcomeHandOff(h, j, i, pc);
    OutcomeComplete(h, j, i, pc);
    OutcomeCancel(h, j, i, pc);
  }

  lemma OutcomeOther(h: Shared, j: JoinOwner, i: nat, pc: Pc, c: Choice, k: nat, other: Pc)
    requires OutcomeBefore(h, j, i, pc) && k != i && OutcomeBefore(h, j, k, other)
    requires OwesResult(pc) ==> !OwesResult(other)
    ensures OutcomeAt(Act(h, i, pc, c).sh, k, other)
  {
  }

  lemma OutcomeReady(s: Sys, i: nat)
    requires OneOutcome(s) && i < |s.agents|
    ensures OutcomeBefore(s.sh, s.join, i, s.agents[i])
    ensures OwesResult(s.agents[i]) ==>
              forall k :: 0 <= k < |s.agents| && k != i ==> !OwesResult(s.agents[k])
  {
    if OwesResult(s.agents[i]) {
      CountMember(s.agents, i, OwesResult);
      CountUnique(s.agents, i, OwesResult);
    }
  }

  lemma OutcomeAgentStep(s: Sys, i: nat, c: Choice)
    requires OneOutcome(s) && i < |s.agents|
    ensures OneOutcome(Step(s, Moves(i, c)))
  {
    var m := Act(s.sh, i, s.agents[i], c);
    OutcomeReady(s, i);
    OutcomeOwn(s.sh, s.join, i, s.agents[i], c);
    CountUpdate(s.agents, i, m.pc, OwesResult);
    forall k | 0 <= k < |s.agents| && k != i
      ensures OutcomeAt(m.sh, k, s.agents[k])
    {
      OutcomeReady(s, k);
      OutcomeOther(s.sh, s.join, i, s.agents[i], c, k, s.agents[k]);
    }
  }

  /** When the owner reads COMPLETED over an empty slot before any answer, a canceller won. */
  lemma EmptyMeansCancelled(s: Sys)
    requires OneOutcome(s)
    requires s.join.at.PollLoad? && s.sh.cell.state == COMPLETED && s.join.answers == []
    ensures s.sh.past.winner == Some(Cancelled)
  {
    var k := CountWitness(s.agents, OwesResult);
  }

  lemma OutcomeOwnerStep(s: Sys, c: Choice)
    requires OneOutcome(s)
    ensures OneOutcome(Step(s, OwnerMoves(c)))
  {
    if s.join.at.PollLoad? && s.sh.cell.state == COMPLETED && s.join.answers == [] {
      EmptyMeansCancelled(s);
    }
    OutcomeOwnerLocal(s.sh, s.join, c);
    var m := OwnerAct(s.sh, s.join, c);
    forall i | 0 <= i < |s.agents|
      ensures OutcomeAt(m.sh, i, s.agents[i])
    {
      OutcomeOwnerFrame(s.sh, s.join, c, i, s.agents[i]);
    }
  }

  lemma OutcomeOwnerLocal(h: Shared, j: JoinOwner, c: Choice)
    requires OutcomeShared(h, j)
    requires j.at.PollLoad? && h.cell.state == COMPLETED && j.answers == [] ==> h.past.winner == Some(Cancelled)
    ensures OutcomeShared(OwnerAct(h, j, c).sh, OwnerAct(h, j, c).join)
  {
  }

  lemma OutcomeOwnerFrame(h: Shared, j: JoinOwner, c: Choice, i: nat, pc: Pc)
    requires OutcomeShared(h, j) && OutcomeAt(h, i, pc)
    ensures var m := OwnerAct(h, j, c);
      && OutcomeAt(m.sh, i, pc) && m.sh.past == h.past
      && (m.sh.cell.resultLock.Agent? ==> m.sh.cell.resultLock == h.cell.resultLock)
  {
  }

  lemma OutcomeStep(s: Sys, e: Event)
    requires OneOutcome(s)
    ensures OneOutcome(Step(s, e))
  {
    match e
    case Moves(i, c) => if i < |s.agents| { OutcomeAgentStep(s, i, c); }
    case OwnerMoves(c) => OutcomeOwnerStep(s, c);
    case Duplicate =>
      forall i | 0 <= i < |s.agents|
        ensures OutcomeAt(Step(s, e).sh, i, s.agents[i])
      {
        assert OutcomeAt(s.sh, i, s.agents[i]);
      }
  }

  // --- no join wake-up is lost ----------------------------------------------------------------

  /** The largest poll number whose waker can be anywhere. */
  function Latest(j: JoinOwner): int
  {
    if Polling(j.at) then j.polls - 1 else j.polls
  }

  predicate JoinAt(h: Shared, j: JoinOwner, i: nat, pc: Pc)
  {
    && (pc.JoinWake? <==> h.cell.joinLock == Agent(i))
    && (pc.JoinWake? ==> pc.waker <= Latest(j))
  }

  predicate JoinShared(h: Shared, j: JoinOwner)
  {
    && h.cell.joinLock != Owner
    && (h.cell.joinWaker.Some? ==> h.cell.joinWaker.value <= Latest(j))
    && (forall w :: w in h.past.woken ==> w <= Latest(j))
    && (j.at.PollUnlock? || j.at.Parked? ==> j.stored == Some(j.polls))
    && ((j.at.PollUnlock? || j.at.Parked?) && j.polls in h.past.woken ==> h.token)
    && (j.at.PollStore? ==> h.past.writes == 0)
    && (h.cell.resultLock == Owner <==> OwnerLocks(j.at))
  }

  /** The waker was woken, is still stored, or is in the hands of the call about to wake it. */
  ghost predicate Accounted(s: Sys, w: nat)
  {
    || w in s.sh.past.woken
    || s.sh.cell.joinWaker == Some(w)
    || exists i :: 0 <= i < |s.agents| && s.agents[i] == JoinWake(w)
  }

  ghost predicate HandOffPending(s: Sys)
  {
    exists i :: 0 <= i < |s.agents| && OwesHandOff(s.agents[i])
  }

  ghost predicate JoinKept(s: Sys)
  {
    && JoinShared(s.sh, s.join)
    && (forall i :: 0 <= i < |s.agents| ==> JoinAt(s.sh, s.join, i, s.agents[i]))
    && (s.join.stored.Some? ==> Accounted(s, s.join.stored.value))
    && (s.sh.past.writes == 1 && s.sh.cell.joinWaker.Some? ==> HandOffPending(s))
  }

  /** What one step of an agent may do to the stored waker and the hand-off. */
  predicate JoinMove(h: Shared, pc: Pc, h': Shared, pc': Pc)
  {
    && h.past.woken <= h'.past.woken
    && (pc.JoinWake? ==> pc' == pc || pc.waker in h'.past.woken)
    && (h.cell.joinWaker.Some? ==>
          h'.cell.joinWaker == h.cell.joinWaker || pc' == JoinWake(h.cell.joinWaker.value))
    && (h'.cell.joinWaker.Some? ==> h'.cell.joinWaker == h.cell.joinWaker)
    && (h'.cell.joinWaker.Some? && h'.past.writes == 1 && !OwesHandOff(pc') ==>
          h.past.writes == 1 && !OwesHandOff(pc))
  }

  predicate JoinBefore(h: Shared, j: JoinOwner, i: nat, pc: Pc)
  {
    && JoinShared(h, j)
    && JoinAt(h, j, i, pc)
    && (InComplete(pc) ==> h.cell.resultLock == Agent(i))
    && (OwesResult(pc) ==> h.past.writes == 0)
  }

  predicate JoinGood(h: Shared, j: JoinOwner, i: nat, pc: Pc, m: Move)
  {
    JoinMove(h, pc, m.sh, m.pc) && JoinShared(m.sh, j) && JoinAt(m.sh, j, i, m.pc)
  }

  lemma JoinRun(h: Shared, j: JoinOwner, i: nat, pc: Pc, c: Choice)
    requires JoinBefore(h, j, i, pc)
    ensures !OwesHandOff(pc) && !pc.JoinWake? ==> JoinGood(h, j, i, pc, RunStep(h, pc, c))
    ensures !OwesHandOff(pc) && !pc.JoinWake? ==> JoinGood(h, j, i, pc, WakeStep(h, pc, c))
    ensures pc.Rest? ==> JoinGood(h, j, i, pc, StartStep(h, c))
  {
  }

  lemma JoinFinish(h: Shared, j: JoinOwner, i: nat, pc: Pc)
    requires JoinBefore(h, j, i, pc)
    ensures JoinGood(h, j, i, pc, CompleteStep(h, i, pc))
    ensures JoinGood(h, j, i, pc, CancelStep(h, pc))
  {
  }

  lemma JoinHandOff(h: Shared, j: JoinOwner, i: nat, pc: Pc)
    requires JoinBefore(h, j, i, pc)
    ensures JoinGood(h, j, i, pc, HandOffStep(h, i, pc))
  {
  }

  lemma JoinOwn(h: Shared, j: JoinOwner, i: nat, pc: Pc, c: Choice)
    requires JoinBefore(h, j, i, pc)
    ensures JoinGood(h, j, i, pc, Act(h, i, pc, c))
  {
    JoinRun(h, j, i, pc, c);
    JoinFinish(h, j, i, pc);
    JoinHandOff(h, j, i, pc);
  }

  lemma JoinOther(h: Shared, j: JoinOwner, i: nat, pc: Pc, c: Choice, k: nat, other: Pc)
    requires JoinAt(h, j, i, pc) && JoinAt(h, j, k, other) && k != i
    ensures JoinAt(Act(h, i, pc, c).sh, j, k, other)
  {
  }

  lemma AccountedStep(s: Sys, i: nat, m: Move, w: nat)
    requires i < |s.agents| && Accounted(s, w)
    requires JoinMove(s.sh, s.agents[i], m.sh, m.pc)
    ensures Accounted(s.(sh := m.sh, agents := s.agents[i := m.pc]), w)
  {
    var s' := s.(sh := m.sh, agents := s.agents[i := m.pc]);
    assert s'.agents[i] == m.pc;
    if k :| 0 <= k < |s.agents| && s.agents[k] == JoinWake(w) {
      assert k != i ==> s'.agents[k] == JoinWake(w);
    }
  }

  lemma JoinAgentStep(s: Sys, i: nat, c: Choice)
    requires OneOutcome(s) && JoinKept(s) && i < |s.agents|
    ensures JoinKept(Step(s, Moves(i, c)))
  {
    var m := Act(s.sh, i, s.agents[i], c);
    var s' := s.(sh := m.sh, agents := s.agents[i := m.pc]);
    OutcomeReady(s, i);
    JoinOwn(s.sh, s.join, i, s.agents[i], c);
    forall k | 0 <= k < |s.agents| && k != i
      ensures JoinAt(m.sh, s.join, k, s.agents[k])
    {
      JoinOther(s.sh, s.join, i, s.agents[i], c, k, s.agents[k]);
    }
    if s.join.stored.Some? {
      AccountedStep(s, i, m, s.join.stored.value);
    }
    if m.sh.past.writes == 1 && m.sh.cell.joinWaker.Some? {
      if OwesHandOff(m.pc) {
        assert OwesHandOff(s'.agents[i]);
      } else {
        var k :| 0 <= k < |s.agents| && OwesHandOff(s.agents[k]);
        assert OwesHandOff(s'.agents[k]);
      }
    }
  }

  lemma JoinOwnerLocal(h: Shared, j: JoinOwner, c: Choice)
    requires JoinShared(h, j) && (j.at.PollLoad? && h.cell.state != COMPLETED ==> h.past.writes == 0)
    ensures var m := OwnerAct(h, j, c);
      && JoinShared(m.sh, m.join)
      && Latest(j) <= Latest(m.join)
      && m.sh.cell.joinLock == h.cell.joinLock
      && m.sh.past == h.past
      && (m.join.stored != j.stored || m.sh.cell.joinWaker != h.cell.joinWaker ==>
            m.join.stored == m.sh.cell.joinWaker && h.past.writes == 0)
  {
  }

  lemma JoinOwnerStep(s: Sys, c: Choice)
    requires OneOutcome(s) && JoinKept(s)
    ensures JoinKept(Step(s, OwnerMoves(c)))
  {
    var s' := Step(s, OwnerMoves(c));
    JoinOwnerLocal(s.sh, s.join, c);
    forall i | 0 <= i < |s.agents|
      ensures JoinAt(s'.sh, s'.join, i, s.agents[i])
    {
      assert JoinAt(s.sh, s.join, i, s.agents[i]);
    }
  }

  lemma JoinStep(s: Sys, e: Event)
    requires OneOutcome(s) && JoinKept(s)
    ensures JoinKept(Step(s, e))
  {
    match e
    case Moves(i, c) => if i < |s.agents| { JoinAgentStep(s, i, c); }
    case OwnerMoves(c) => JoinOwnerStep(s, c);
    case Duplicate =>
      var s' := Step(s, e);
      forall i | 0 <= i < |s.agents|
        ensures JoinAt(s'.sh, s'.join, i, s.agents[i])
      {
        assert JoinAt(s.sh, s.join, i, s.agents[i]);
      }
      assert s.join.stored.Some? ==> Accounted(s', s.join.stored.value);
  }
}

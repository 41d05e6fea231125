/** What every step of the task machine keeps. */
module TaskSafety {
  import opened Prelude
  import opened TaskMachine

  // --- the future is linear -------------------------------------------------------------------

  predicate InCompletion(pc: Pc) { pc.CompleteLock? || pc.CompleteSwap? }

  predicate Leftover(h: Shared) { h.cell.state == COMPLETED && h.cell.slot }

  function Futures(s: Sys): nat
  {
    Bit(s.sh.cell.slot) + Count(s.agents, HoldsFuture) + s.sh.past.drops
  }

  /** The future is in exactly one place; whoever completes the task has dropped it; and a
      future left in the slot of a completed task has somebody about to clear it. */
  ghost predicate FutureLinear(s: Sys)
  {
    && Futures(s) == 1
    && (forall i :: 0 <= i < |s.agents| && InCompletion(s.agents[i]) ==> s.sh.past.drops == 1)
    && (Leftover(s.sh) ==> exists i :: 0 <= i < |s.agents| && MayClear(s.agents[i]))
  }

  /** What one step of an agent may do to the future. */
  predicate FutureMove(h: Shared, pc: Pc, h': Shared, pc': Pc)
  {
    && Bit(h'.cell.slot) + h'.past.drops + Bit(HoldsFuture(pc'))
       == Bit(h.cell.slot) + h.past.drops + Bit(HoldsFuture(pc))
    && h.past.drops <= h'.past.drops
    && (InCompletion(pc') ==> h'.past.drops == 1)
    && (Leftover(h') && !MayClear(pc') ==> Leftover(h) && !MayClear(pc))
  }

  lemma FutureLocal(h: Shared, i: nat, pc: Pc, c: Choice)
    requires HoldsFuture(pc) ==> !h.cell.slot && h.past.drops == 0
    requires InCompletion(pc) ==> !h.cell.slot && h.past.drops == 1
    ensures FutureMove(h, pc, Act(h, i, pc, c).sh, Act(h, i, pc, c).pc)
  {
  }

  lemma FutureUpdate(s: Sys, s': Sys, i: nat, pc': Pc)
    requires FutureLinear(s) && i < |s.agents| && s'.agents == s.agents[i := pc']
    requires FutureMove(s.sh, s.agents[i], s'.sh, pc')
    ensures FutureLinear(s')
  {
    CountUpdate(s.agents, i, pc', HoldsFuture);
    if Leftover(s'.sh) {
      if MayClear(pc') {
        assert MayClear(s'.agents[i]);
      } else {
        var k :| 0 <= k < |s.agents| && MayClear(s.agents[k]);
        assert MayClear(s'.agents[k]);
      }
    }
  }

  lemma FutureStep(s: Sys, e: Event)
    requires FutureLinear(s)
    ensures FutureLinear(Step(s, e))
  {
    if e.Moves? && e.agent < |s.agents| {
      var i := e.agent;
      if HoldsFuture(s.agents[i]) { CountMember(s.agents, i, HoldsFuture); }
      FutureLocal(s.sh, i, s.agents[i], e.choice);
      FutureUpdate(s, Step(s, e), i, Act(s.sh, i, s.agents[i], e.choice).pc);
    }
  }

  // --- one handle, one right to run -----------------------------------------------------------

  /** The call claimed SCHEDULED -> RUNNING and has not given the claim up. */
  predicate Claimed(pc: Pc)
  {
    HoldsHandle(pc) && !pc.WakePush? && !pc.RunClaim? && !pc.RunRequeue?
  }

  predicate FutureOut(pc: Pc) { HoldsFuture(pc) || InCompletion(pc) }

  /** Queued handles, wakers about to push one, and active runners. */
  function Handles(s: Sys): nat
  {
    s.sh.queued + Count(s.agents, HoldsHandle)
  }

  /** What a call remembers of the state it has read. */
  predicate SeenOk(h: Shared, pc: Pc)
  {
    && ((pc.WakeCas? || pc.RunCas?) ==> pc.seen == IDLE || pc.seen == RUNNING)
    && (pc.RunRelease? || OwesResult(pc) || OwesHandOff(pc) ==> h.cell.state == COMPLETED)
  }

  predicate HandleAt(h: Shared, pc: Pc)
  {
    && (h.cell.state == RUNNING ==> Claimed(pc))
    && (h.cell.state == RUNNING && h.past.owed ==> pc.RunTake?)
  }

  /** Until the task completes, its future is in the slot or out with one call. */
  ghost predicate FuturePresent(s: Sys)
  {
    && (forall i :: 0 <= i < |s.agents| ==> SeenOk(s.sh, s.agents[i]))
    && (s.sh.cell.state != COMPLETED ==> Bit(s.sh.cell.slot) + Count(s.agents, FutureOut) == 1)
  }

  /** The discipline's own invariant: as long as nobody duplicated a handle, the task is queued or
      run at most once, exactly when it is not idle, and an owed wake-up is never forgotten. */
  ghost predicate SingleHandle(s: Sys)
  {
    && Handles(s) <= 1
    && (s.sh.cell.state != COMPLETED ==> Handles(s) == Bit(s.sh.cell.state != IDLE))
    && (s.sh.cell.state == RUNNING ==> s.sh.queued == 0)
    && (s.sh.cell.state == IDLE ==> !s.sh.past.owed)
    && (forall i :: 0 <= i < |s.agents| && HoldsHandle(s.agents[i]) ==> HandleAt(s.sh, s.agents[i]))
  }

  predicate PresentBefore(h: Shared, pc: Pc)
  {
    SeenOk(h, pc) && (h.cell.state != COMPLETED && FutureOut(pc) ==> !h.cell.slot)
  }

  /** What one step of a call may do to what it remembers and to the future. */
  predicate PresentMove(h: Shared, pc: Pc, m: Move)
  {
    && SeenOk(m.sh, m.pc)
    && (m.sh.cell.state != COMPLETED ==> h.cell.state != COMPLETED)
    && (m.sh.cell.state != COMPLETED ==>
          Bit(m.sh.cell.slot) + Bit(FutureOut(m.pc)) == Bit(h.cell.slot) + Bit(FutureOut(pc)))
  }

  lemma PresentWake(h: Shared, i: nat, pc: Pc, c: Choice)
    requires PresentBefore(h, pc)
    ensures PresentMove(h, pc, WakeStep(h, pc, c))
    ensures pc.Rest? ==> PresentMove(h, pc, StartStep(h, c))
    ensures PresentMove(h, pc, HandOffStep(h, i, pc))
  {
  }

  lemma PresentRun(h: Shared, pc: Pc, c: Choice)
    requires PresentBefore(h, pc)
    ensures PresentMove(h, pc, RunStep(h, pc, c))
  {
  }

  lemma PresentFinish(h: Shared, i: nat, pc: Pc)
    requires PresentBefore(h, pc)
    ensures PresentMove(h, pc, CompleteStep(h, i, pc))
    ensures PresentMove(h, pc, CancelStep(h, pc))
  {
  }

  lemma PresentLocal(h: Shared, i: nat, pc: Pc, c: Choice)
    requires PresentBefore(h, pc)
    ensures PresentMove(h, pc, Act(h, i, pc, c))
  {
    PresentWake(h, i, pc, c);
    PresentRun(h, pc, c);
    PresentFinish(h, i, pc);
  }

  lemma PresentStep(s: Sys, e: Event)
    requires FuturePresent(s)
    ensures FuturePresent(Step(s, e))
  {
    if e.Moves? && e.agent < |s.agents| {
      var i := e.agent;
      if FutureOut(s.agents[i]) { CountMember(s.agents, i, FutureOut); }
      PresentLocal(s.sh, i, s.agents[i], e.choice);
      CountUpdate(s.agents, i, Act(s.sh, i, s.agents[i], e.choice).pc, FutureOut);
    }
  }

  /** A step of a call, in terms of the handle it holds (`others` holds the rest of them). */
  predicate HandleMove(h: Shared, pc: Pc, others: nat, h': Shared, pc': Pc)
  {
    var after := h'.queued + Bit(HoldsHandle(pc')) + others;
    && after <= 1
    && (h'.cell.state != COMPLETED ==> after == Bit(h'.cell.state != IDLE))
    && (h'.cell.state == RUNNING ==> h'.queued == 0)
    && (h'.cell.state == IDLE ==> !h'.past.owed)
    && (HoldsHandle(pc') ==> HandleAt(h', pc'))
    && (others > 0 && h'.cell.state == RUNNING ==>
          h.cell.state == RUNNING && (h'.past.owed ==> h.past.owed))
  }

  predicate HandleBefore(h: Shared, pc: Pc, others: nat)
  {
    var before := h.queued + Bit(HoldsHandle(pc)) + others;
    && SeenOk(h, pc)
    && before <= 1
    && (h.cell.state != COMPLETED ==> before == Bit(h.cell.state != IDLE))
    && (h.cell.state == RUNNING ==> h.queued == 0)
    && (h.cell.state == IDLE ==> !h.past.owed)
    && (HoldsHandle(pc) ==> HandleAt(h, pc))
    && (pc.RunTake? && h.cell.state != COMPLETED ==> h.cell.slot)
  }

  lemma HandleWake(h: Shared, pc: Pc, c: Choice, others: nat)
    requires HandleBefore(h, pc, others)
    ensures var m := WakeStep(h, pc, c); HandleMove(h, pc, others, m.sh, m.pc)
  {
  }

  lemma HandleRun(h: Shared, pc: Pc, c: Choice, others: nat)
    requires HandleBefore(h, pc, others)
    ensures var m := RunStep(h, pc, c); HandleMove(h, pc, others, m.sh, m.pc)
  {
  }

  lemma HandleFinish(h: Shared, i: nat, pc: Pc, c: Choice, others: nat)
    requires HandleBefore(h, pc, others)
    ensures var m := CompleteStep(h, i, pc); HandleMove(h, pc, others, m.sh, m.pc)
    ensures var m := CancelStep(h, pc); HandleMove(h, pc, others, m.sh, m.pc)
    ensures var m := HandOffStep(h, i, pc); HandleMove(h, pc, others, m.sh, m.pc)
  {
  }

  lemma HandleLocal(h: Shared, i: nat, pc: Pc, c: Choice, others: nat)
    requires HandleBefore(h, pc, others)
    ensures HandleMove(h, pc, others, Act(h, i, pc, c).sh, Act(h, i, pc, c).pc)
  {
    HandleWake(h, pc, c, others);
    HandleRun(h, pc, c, others);
    HandleFinish(h, i, pc, c, others);
  }

  lemma HandleUpdate(s: Sys, s': Sys, i: nat, pc': Pc, others: nat)
    requires SingleHandle(s) && i < |s.agents| && s'.agents == s.agents[i := pc']
    requires others + Bit(HoldsHandle(s.agents[i])) == Count(s.agents, HoldsHandle)
    requires HandleMove(s.sh, s.agents[i], others, s'.sh, pc')
    ensures SingleHandle(s')
  {
    CountUpdate(s.agents, i, pc', HoldsHandle);
    forall j | 0 <= j < |s'.agents| && HoldsHandle(s'.agents[j])
      ensures HandleAt(s'.sh, s'.agents[j])
    {
      if j != i {
        CountMember(s.agents, j, HoldsHandle);
        if HoldsHandle(s.agents[i]) {
          CountTwo(s.agents, if i < j then i else j, if i < j then j else i, HoldsHandle);
        }
      }
    }
  }

  /** A call that holds the only handle and is about to take the future finds it. */
  lemma TakeFinds(s: Sys, i: nat)
    requires FuturePresent(s) && SingleHandle(s) && i < |s.agents|
    requires s.agents[i].RunTake? && s.sh.cell.state != COMPLETED
    ensures s.sh.cell.slot
  {
    CountUnique(s.agents, i, HoldsHandle);
    CountNone(s.agents, FutureOut);
  }

  function OtherHandles(s: Sys, i: nat): nat
    requires i < |s.agents|
  {
    var n := Count(s.agents, HoldsHandle);
    if n == 0 then 0 else n - Bit(HoldsHandle(s.agents[i]))
  }

  lemma HandleReady(s: Sys, i: nat)
    requires FuturePresent(s) && SingleHandle(s) && i < |s.agents|
    ensures OtherHandles(s, i) + Bit(HoldsHandle(s.agents[i])) == Count(s.agents, HoldsHandle)
    ensures HandleBefore(s.sh, s.agents[i], OtherHandles(s, i))
  {
    if HoldsHandle(s.agents[i]) { CountMember(s.agents, i, HoldsHandle); }
    if s.agents[i].RunTake? && s.sh.cell.state != COMPLETED { TakeFinds(s, i); }
  }

  lemma HandleStep(s: Sys, e: Event)
    requires FuturePresent(s) && !Step(s, e).sh.past.duplicated
    requires SingleHandle(s)
    ensures SingleHandle(Step(s, e))
  {
    if e.Moves? && e.agent < |s.agents| {
      var i := e.agent;
      HandleReady(s, i);
      HandleLocal(s.sh, i, s.agents[i], e.choice, OtherHandles(s, i));
      HandleUpdate(s, Step(s, e), i, Act(s.sh, i, s.agents[i], e.choice).pc, OtherHandles(s, i));
    }
  }
}

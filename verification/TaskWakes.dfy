/** What becomes of wake-ups when handles of one task are duplicated (hypertile-core/src/task.rs):
    exactly one kind of step can lose one, and the task is never left without a handle. */
module TaskWakes {
  import opened Prelude
  import opened TaskMachine
  import opened TaskSafety
  import opened TaskTheorems

  predicate Settled(state: State) { state == SCHEDULED || state == COMPLETED }

  /** A wake-up is owed a poll, and neither the state nor a call about to take the future
      remembers it. */
  ghost predicate Lost(s: Sys)
  {
    s.sh.past.owed && !Settled(s.sh.cell.state)
    && forall i :: 0 <= i < |s.agents| ==> !s.agents[i].RunTake?
  }

  /** The step in which a run that claimed the task finds the future out and returns, when it was
      the only one to know of the wake-up. */
  ghost predicate Misses(s: Sys, e: Event)
  {
    && e.Moves? && e.agent < |s.agents| && s.agents[e.agent].RunTake? && !s.sh.cell.slot
    && s.sh.past.owed && !Settled(s.sh.cell.state)
    && forall i :: 0 <= i < |s.agents| && i != e.agent ==> !s.agents[i].RunTake?
  }

  lemma OwedLocal(h: Shared, i: nat, pc: Pc, c: Choice)
    requires SeenOk(h, pc) && (pc.RunTake? ==> h.cell.slot)
    ensures var m := Act(h, i, pc, c);
      m.sh.past.owed && !Settled(m.sh.cell.state) && !m.pc.RunTake? ==>
        h.past.owed && !Settled(h.cell.state) && !pc.RunTake?
  {
  }

  lemma MissLocal(h: Shared, i: nat, pc: Pc, c: Choice)
    requires pc.RunTake? && !h.cell.slot
    ensures Act(h, i, pc, c) == Move(h, Rest)
  {
  }

  /** Whatever was duplicated: a step loses a wake-up if and only if it is a run that finds the
      future out while no other run remembers the wake-up. */
  lemma LostExactlyWhen(s: Sys, e: Event)
    requires Inv(s) && !Lost(s)
    ensures Lost(Step(s, e)) <==> Misses(s, e)
  {
    var s' := Step(s, e);
    if e.Moves? && e.agent < |s.agents| {
      var i := e.agent;
      assert SeenOk(s.sh, s.agents[i]);
      if s.agents[i].RunTake? && !s.sh.cell.slot {
        MissLocal(s.sh, i, s.agents[i], e.choice);
        if Lost(s') {
          forall k | 0 <= k < |s.agents| && k != i
            ensures !s.agents[k].RunTake?
          {
            assert s'.agents[k] == s.agents[k];
          }
        }
      } else {
        OwedLocal(s.sh, i, s.agents[i], e.choice);
        if Lost(s') {
          assert s'.agents[i] == Act(s.sh, i, s.agents[i], e.choice).pc;
          forall k | 0 <= k < |s.agents|
            ensures !s.agents[k].RunTake?
          {
            if k != i { assert s'.agents[k] == s.agents[k]; }
          }
          assert false;
        }
      }
    }
  }

  /** A run that ends with a wake-up lost contains such a step. */
  lemma {:induction false} LostNeedsMiss(s: Sys, schedule: seq<Event>) returns (k: nat)
    requires Inv(s) && !Lost(s) && Lost(Exec(s, schedule))
    ensures k < |schedule| && Misses(Exec(s, schedule[..k]), schedule[k])
    decreases |schedule|
  {
    var t := Step(s, schedule[0]);
    LostExactlyWhen(s, schedule[0]);
    if Misses(s, schedule[0]) {
      k := 0;
    } else {
      StepInv(s, schedule[0]);
      var j := LostNeedsMiss(t, schedule[1..]);
      k := j + 1;
      assert schedule[..k][1..] == schedule[1..][..j];
    }
  }

  /** With one handle per task no wake-up is ever lost. */
  lemma SingleHandleLosesNothing(others: nat, schedule: seq<Event>)
    requires !RunOf(others, schedule).sh.past.duplicated
    ensures !Lost(RunOf(others, schedule))
  {
    if RunOf(others, schedule).sh.cell.state != COMPLETED {
      NoLostWake(others, schedule);
    }
  }

  // --- a task that is not idle has a handle ---------------------------------------------------

  ghost predicate SomeoneClaimed(s: Sys)
  {
    exists i :: 0 <= i < |s.agents| && Claimed(s.agents[i])
  }

  ghost predicate SomeoneHolds(s: Sys)
  {
    exists i :: 0 <= i < |s.agents| && HoldsHandle(s.agents[i])
  }

  ghost predicate Alive(s: Sys)
  {
    && (s.sh.cell.state == RUNNING ==> SomeoneClaimed(s))
    && (s.sh.cell.state == SCHEDULED ==> s.sh.queued > 0 || SomeoneHolds(s))
  }

  lemma AliveLocal(h: Shared, i: nat, pc: Pc, c: Choice)
    requires SeenOk(h, pc) && (pc.RunTake? ==> h.cell.slot || h.cell.state == COMPLETED)
    ensures var m := Act(h, i, pc, c);
      && (m.sh.cell.state == RUNNING && !Claimed(m.pc) ==> h.cell.state == RUNNING && !Claimed(pc))
      && (m.sh.cell.state == SCHEDULED && m.sh.queued == 0 && !HoldsHandle(m.pc) ==>
            (h.cell.state == RUNNING && !Claimed(pc))
            || (h.cell.state == SCHEDULED && h.queued == 0 && !HoldsHandle(pc)))
  {
  }

  lemma Somewhere(s: Sys, s': Sys, i: nat)
    requires i < |s.agents| && |s'.agents| == |s.agents| && s'.agents == s.agents[i := s'.agents[i]]
    ensures SomeoneClaimed(s) && !Claimed(s.agents[i]) ==> SomeoneClaimed(s') && SomeoneHolds(s')
    ensures SomeoneHolds(s) && !HoldsHandle(s.agents[i]) ==> SomeoneHolds(s')
    ensures Claimed(s'.agents[i]) ==> SomeoneClaimed(s')
    ensures HoldsHandle(s'.agents[i]) ==> SomeoneHolds(s')
  {
    if SomeoneClaimed(s) && !Claimed(s.agents[i]) {
      var k :| 0 <= k < |s.agents| && Claimed(s.agents[k]);
      assert s'.agents[k] == s.agents[k];
    }
    if SomeoneHolds(s) && !HoldsHandle(s.agents[i]) {
      var k :| 0 <= k < |s.agents| && HoldsHandle(s.agents[k]);
      assert s'.agents[k] == s.agents[k];
    }
  }

  /** The future a claimed run does not find is in the hands of another one. */
  lemma AnotherHasIt(s: Sys, i: nat)
    requires Inv(s) && i < |s.agents| && s.agents[i].RunTake?
    requires !s.sh.cell.slot && s.sh.cell.state != COMPLETED
    ensures exists k :: 0 <= k < |s.agents| && k != i && Claimed(s.agents[k])
  {
    var k := CountWitness(s.agents, FutureOut);
    assert Claimed(s.agents[k]);
  }

  lemma AliveStep(s: Sys, e: Event)
    requires Inv(s) && Alive(s)
    ensures Alive(Step(s, e))
  {
    if e.Moves? && e.agent < |s.agents| {
      var i := e.agent;
      var s' := Step(s, e);
      if s.agents[i].RunTake? && !s.sh.cell.slot && s.sh.cell.state != COMPLETED {
        AnotherHasIt(s, i);
        MissLocal(s.sh, i, s.agents[i], e.choice);
        var k :| 0 <= k < |s.agents| && k != i && Claimed(s.agents[k]);
        assert Claimed(s'.agents[k]) && HoldsHandle(s'.agents[k]);
      } else {
        assert SeenOk(s.sh, s.agents[i]);
        AliveLocal(s.sh, i, s.agents[i], e.choice);
        Somewhere(s, s', i);
      }
    }
  }

  lemma {:induction false} ExecAlive(s: Sys, schedule: seq<Event>)
    requires Inv(s) && Alive(s)
    ensures Alive(Exec(s, schedule))
    decreases |schedule|
  {
    if schedule != [] {
      StepInv(s, schedule[0]);
      AliveStep(s, schedule[0]);
      ExecAlive(Step(s, schedule[0]), schedule[1..]);
    }
  }

  /** However handles are duplicated, a task that is SCHEDULED has a handle queued or in some call's
      hands, and one that is RUNNING has a runner. */
  lemma NeverStranded(others: nat, schedule: seq<Event>)
    ensures var s := RunOf(others, schedule);
      && (s.sh.cell.state == SCHEDULED ==> s.sh.queued > 0 || SomeoneHolds(s))
      && (s.sh.cell.state == RUNNING ==> SomeoneClaimed(s))
  {
    SpawnedInv(others);
    SpawnedCounts(others);
    assert HoldsHandle(Spawned(others).agents[0]);
    ExecAlive(Spawned(others), schedule);
  }
}

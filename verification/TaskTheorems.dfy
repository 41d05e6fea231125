/** What holds of a task in every run: the results of the task model. */
module TaskTheorems {
  import opened Prelude
  import opened TaskMachine
  import opened TaskSafety
  import opened TaskJoin

  ghost predicate Inv(s: Sys)
  {
    && FutureLinear(s)
    && FuturePresent(s)
    && (!s.sh.past.duplicated ==> SingleHandle(s))
    && OneOutcome(s)
    && JoinKept(s)
  }

  lemma SpawnedCounts(others: nat)
    ensures var agents := Spawned(others).agents;
      && agents != [] && agents[0] == WakePush
      && (forall i :: 1 <= i < |agents| ==> agents[i] == Rest)
      && Count(agents, HoldsFuture) == Count(agents, FutureOut) == Count(agents, OwesResult) == 0
      && Count(agents, HoldsHandle) == 1
  {
    var agents := Spawned(others).agents;
    var rest := seq(others, k => Rest);
    CountNone(agents, HoldsFuture);
    CountNone(agents, FutureOut);
    CountNone(agents, OwesResult);
    CountAppend([WakePush], rest, HoldsHandle);
    CountNone(rest, HoldsHandle);
    assert Count([WakePush], HoldsHandle) == 1;
  }

  lemma SpawnedInv(others: nat)
    ensures Inv(Spawned(others))
  {
    SpawnedCounts(others);
  }

  lemma StepInv(s: Sys, e: Event)
    requires Inv(s)
    ensures Inv(Step(s, e))
  {
    FutureStep(s, e);
    PresentStep(s, e);
    KeepsDuplicated(s, e);
    if !Step(s, e).sh.past.duplicated { HandleStep(s, e); }
    OutcomeStep(s, e);
    JoinStep(s, e);
  }

  lemma KeepsDuplicated(s: Sys, e: Event)
    ensures s.sh.past.duplicated ==> Step(s, e).sh.past.duplicated
  {
  }

  /** Every run of every length, with any number of agents, keeps the invariant. */
  lemma {:induction false} ExecInv(s: Sys, schedule: seq<Event>)
    requires Inv(s)
    ensures Inv(Exec(s, schedule))
    decreases |schedule|
  {
    if schedule != [] {
      StepInv(s, schedule[0]);
      ExecInv(Step(s, schedule[0]), schedule[1..]);
    }
  }

  function RunOf(others: nat, schedule: seq<Event>): Sys
  {
    Exec(Spawned(others), schedule)
  }

  lemma RunInv(others: nat, schedule: seq<Event>)
    ensures Inv(RunOf(others, schedule))
  {
    SpawnedInv(others);
    ExecInv(Spawned(others), schedule);
  }

  // --- wake-ups -------------------------------------------------------------------------------

  /** With one handle per task: while the task is not completed, the handles queued, about to be
      queued, or being run number exactly one, or none when it is idle; and a wake-up (or the
      spawn itself) that no poll has followed yet keeps the task SCHEDULED with its one handle
      live, or has a runner that claimed it and will find the future. */
  lemma NoLostWake(others: nat, schedule: seq<Event>)
    requires !RunOf(others, schedule).sh.past.duplicated
    requires RunOf(others, schedule).sh.cell.state != COMPLETED
    ensures var s := RunOf(others, schedule);
      && Handles(s) == (if s.sh.cell.state == IDLE then 0 else 1)
      && (s.sh.past.owed ==>
            || s.sh.cell.state == SCHEDULED
            || (s.sh.cell.slot && exists i :: 0 <= i < |s.agents| && s.agents[i].RunTake?))
  {
    var s := RunOf(others, schedule);
    RunInv(others, schedule);
    if s.sh.past.owed && s.sh.cell.state == RUNNING {
      var i := CountWitness(s.agents, HoldsHandle);
      TakeFinds(s, i);
    }
  }

  /** Once everything has settled, every wake-up was followed by the start of a poll. */
  lemma SettledOwesNothing(others: nat, schedule: seq<Event>)
    requires var s := RunOf(others, schedule);
      && !s.sh.past.duplicated
      && s.sh.cell.state != COMPLETED
      && s.sh.queued == 0
      && (forall i :: 0 <= i < |s.agents| ==> s.agents[i].Rest?)
    ensures var s := RunOf(others, schedule);
      !s.sh.past.owed && s.sh.cell.state == IDLE && s.sh.cell.slot
  {
    var s := RunOf(others, schedule);
    RunInv(others, schedule);
    CountNone(s.agents, HoldsHandle);
    CountNone(s.agents, FutureOut);
  }

  lemma LeavesScheduled(h: Shared, i: nat, pc: Pc, c: Choice)
    requires SeenOk(h, pc) && h.cell.state == SCHEDULED
    ensures var m := Act(h, i, pc, c);
      || m.sh.cell.state == SCHEDULED
      || m.sh.cell.state == COMPLETED
      || (pc.RunClaim? && m.sh.cell.state == RUNNING && m.pc.RunTake?)
  {
  }

  /** SCHEDULED is left only by a claim or by completion, so a wake-up stands until then. */
  lemma ScheduledUntilClaimed(s: Sys, e: Event)
    requires Inv(s) && s.sh.cell.state == SCHEDULED
    ensures var s' := Step(s, e);
      || s'.sh.cell.state == SCHEDULED
      || s'.sh.cell.state == COMPLETED
      || (e.Moves? && e.agent < |s.agents| && s.agents[e.agent].RunClaim?
          && s'.sh.cell.state == RUNNING && s'.agents[e.agent].RunTake?)
  {
    if e.Moves? && e.agent < |s.agents| {
      LeavesScheduled(s.sh, e.agent, s.agents[e.agent], e.choice);
    }
  }

  predicate InWake(pc: Pc) { pc.WakeLoad? || pc.WakeCas? }

  /** However the steps of others fall between its own: a wake that leaves its loop has read
      COMPLETED, or leaves the task SCHEDULED and owed a poll; and it goes on to push a handle
      exactly when its exchange found the task IDLE. */
  lemma WakeTakesEffect(s: Sys, i: nat, c: Choice)
    requires Inv(s) && i < |s.agents| && InWake(s.agents[i])
    ensures var s' := Step(s, Moves(i, c));
      !InWake(s'.agents[i]) ==>
        && (s'.agents[i].Rest? || s'.agents[i].WakePush?)
        && (|| (s.agents[i].WakeLoad? && s.sh.cell.state == COMPLETED)
            || (s'.sh.cell.state == SCHEDULED && s'.sh.past.owed))
        && (s'.agents[i].WakePush? <==> s.agents[i].WakeCas? && s.sh.cell.state == IDLE)
  {
    assert SeenOk(s.sh, s.agents[i]);
  }

  /** A wake-up that finds the task not completed leaves it SCHEDULED and owed a poll. */
  lemma UndisturbedWake(s: Sys, i: nat)
    requires Inv(s) && i < |s.agents| && s.sh.cell.state != COMPLETED
    requires s.agents[i] == WakeLoad
    ensures var s1 := Step(s, Moves(i, Go)); var s2 := Step(s1, Moves(i, Go));
      || (s1.agents[i].Rest? && s1.sh.cell.state == SCHEDULED && s1.sh.past.owed)
      || ((s2.agents[i].Rest? || s2.agents[i].WakePush?)
          && s2.sh.cell.state == SCHEDULED && s2.sh.past.owed
          && (s2.agents[i].WakePush? <==> s.sh.cell.state == IDLE))
  {
    var s1 := Step(s, Moves(i, Go));
    assert s1.agents[i] == Act(s.sh, i, WakeLoad, Go).pc;
  }

  /** A moment of the witness run below: three agents, one duplicated handle, no join activity. */
  function Snapshot(state: State, slot: bool, queued: nat, owed: bool, a: Pc, b: Pc, c: Pc): Sys
  {
    Sys(Shared(Cell(state, slot, None, None, Free, Free), queued, false,
               Past(0, None, 0, true, owed, {})),
        [a, b, c], JoinOwner(Away, 0, None, []))
  }

  lemma WitnessSpawn()
    ensures Exec(Spawned(2), [Moves(0, Go), Duplicate])
         == Snapshot(SCHEDULED, true, 2, true, Rest, Rest, Rest)
  {
    var t := Exec2(Spawned(2), [Moves(0, Go), Duplicate]);
    assert t.agents == [Rest, Rest, Rest];
  }

  lemma WitnessFirstRuns()
    ensures Exec(Snapshot(SCHEDULED, true, 2, true, Rest, Rest, Rest),
                 [Moves(1, StartRun), Moves(1, Go), Moves(1, Go)])
         == Snapshot(RUNNING, false, 1, false, Rest, RunPoll, Rest)
  {
    var t := Exec3(Snapshot(SCHEDULED, true, 2, true, Rest, Rest, Rest),
                   [Moves(1, StartRun), Moves(1, Go), Moves(1, Go)]);
    assert t.agents == [Rest, RunPoll, Rest];
  }

  lemma WitnessWakes()
    ensures Exec(Snapshot(RUNNING, false, 1, false, Rest, RunPoll, Rest),
                 [Moves(2, StartWake), Moves(2, Go), Moves(2, Go)])
         == Snapshot(SCHEDULED, false, 1, true, Rest, RunPoll, Rest)
  {
    var t := Exec3(Snapshot(RUNNING, false, 1, false, Rest, RunPoll, Rest),
                   [Moves(2, StartWake), Moves(2, Go), Moves(2, Go)]);
    assert t.agents == [Rest, RunPoll, Rest];
  }

  lemma WitnessSecondRuns()
    ensures Exec(Snapshot(SCHEDULED, false, 1, true, Rest, RunPoll, Rest),
                 [Moves(0, StartRun), Moves(0, Go), Moves(0, Go)])
         == Snapshot(RUNNING, false, 0, true, Rest, RunPoll, Rest)
  {
    var t := Exec3(Snapshot(SCHEDULED, false, 1, true, Rest, RunPoll, Rest),
                   [Moves(0, StartRun), Moves(0, Go), Moves(0, Go)]);
    assert t.agents == [Rest, RunPoll, Rest];
  }

  lemma WitnessFirstPublishes()
    ensures Exec(Snapshot(RUNNING, false, 0, true, Rest, RunPoll, Rest), [Moves(1, PollPending), Moves(1, Go)])
         == Snapshot(RUNNING, true, 0, true, Rest, RunLoad, Rest)
  {
    var t := Exec2(Snapshot(RUNNING, false, 0, true, Rest, RunPoll, Rest), [Moves(1, PollPending), Moves(1, Go)]);
    assert t.agents == [Rest, RunLoad, Rest];
  }

  lemma WitnessFirstGoesIdle()
    ensures Exec(Snapshot(RUNNING, true, 0, true, Rest, RunLoad, Rest), [Moves(1, Go), Moves(1, Go)])
         == Snapshot(IDLE, true, 0, true, Rest, Rest, Rest)
  {
    var t := Exec2(Snapshot(RUNNING, true, 0, true, Rest, RunLoad, Rest), [Moves(1, Go), Moves(1, Go)]);
    assert t.agents == [Rest, Rest, Rest];
  }

  lemma WitnessFirstEnds()
    ensures Exec(Snapshot(RUNNING, false, 0, true, Rest, RunPoll, Rest),
                 [Moves(1, PollPending), Moves(1, Go)] + [Moves(1, Go), Moves(1, Go)])
         == Snapshot(IDLE, true, 0, true, Rest, Rest, Rest)
  {
    WitnessFirstPublishes();
    WitnessFirstGoesIdle();
    FoldAppend(Step, Snapshot(RUNNING, false, 0, true, Rest, RunPoll, Rest),
               [Moves(1, PollPending), Moves(1, Go)], [Moves(1, Go), Moves(1, Go)]);
  }

  /** The discipline is needed: when one handle is cloned and run while the future is out, the
      second runner's claim hides a wake-up from the first, and the task goes idle for good. */
  lemma DuplicateLosesWake() returns (schedule: seq<Event>)
    ensures RunOf(2, schedule) == Snapshot(IDLE, true, 0, true, Rest, Rest, Rest)
    ensures var s := RunOf(2, schedule);
      && s.sh.past.duplicated
      && s.sh.past.owed
      && s.sh.cell.state == IDLE
      && s.sh.queued == 0
      && s.agents == [Rest, Rest, Rest]
  {
    WitnessSpawn();
    WitnessFirstRuns();
    WitnessWakes();
    WitnessSecondRuns();
    WitnessFirstEnds();
    var last := [Moves(1, PollPending), Moves(1, Go)] + [Moves(1, Go), Moves(1, Go)];
    schedule := Chain(Snapshot(RUNNING, false, 1, false, Rest, RunPoll, Rest),
                      [Moves(2, StartWake), Moves(2, Go), Moves(2, Go)],
                      [Moves(0, StartRun), Moves(0, Go), Moves(0, Go)], last);
    schedule := Chain(Spawned(2), [Moves(0, Go), Duplicate],
                      [Moves(1, StartRun), Moves(1, Go), Moves(1, Go)], schedule);
  }

  lemma Chain(s: Sys, a: seq<Event>, b: seq<Event>, c: seq<Event>) returns (abc: seq<Event>)
    ensures Exec(s, abc) == Exec(Exec(Exec(s, a), b), c)
  {
    FoldAppend(Step, s, a, b);
    FoldAppend(Step, s, a + b, c);
    abc := (a + b) + c;
  }

  lemma Exec2(s: Sys, es: seq<Event>) returns (t: Sys)
    requires |es| == 2
    ensures t == Exec(s, es) == Step(Step(s, es[0]), es[1])
  {
    t := Exec(s, es);
    Fold2(Step, s, es[0], es[1]);
    assert es == [es[0], es[1]];
  }

  lemma Exec3(s: Sys, es: seq<Event>) returns (t: Sys)
    requires |es| == 3
    ensures t == Exec(s, es) == Step(Step(Step(s, es[0]), es[1]), es[2])
  {
    t := Exec(s, es);
    Fold3(Step, s, es[0], es[1], es[2]);
    assert es == [es[0], es[1], es[2]];
  }

  // --- the future -----------------------------------------------------------------------------

  /** The future is in exactly one of the slot, one runner's hands, or dropped, and two polls never
      overlap; handles may be duplicated freely. */
  lemma OneFuture(others: nat, schedule: seq<Event>)
    ensures var s := RunOf(others, schedule);
      && Futures(s) == 1
      && forall i, j | 0 <= i < |s.agents| && 0 <= j < |s.agents| ::
           HoldsFuture(s.agents[i]) && HoldsFuture(s.agents[j]) ==> i == j
  {
    var s := RunOf(others, schedule);
    RunInv(others, schedule);
    forall i, j | 0 <= i < |s.agents| && 0 <= j < |s.agents|
                  && HoldsFuture(s.agents[i]) && HoldsFuture(s.agents[j])
      ensures i == j
    {
      CountUnique(s.agents, i, HoldsFuture);
    }
  }

  /** A completed task with no runner and no canceller in flight has dropped its future. */
  lemma CompletedIsEmpty(others: nat, schedule: seq<Event>)
    requires RunOf(others, schedule).sh.cell.state == COMPLETED
    requires forall i :: 0 <= i < |RunOf(others, schedule).agents| ==>
               !MayClear(RunOf(others, schedule).agents[i]) && !HoldsFuture(RunOf(others, schedule).agents[i])
    ensures var s := RunOf(others, schedule); !s.sh.cell.slot && s.sh.past.drops == 1
  {
    var s := RunOf(others, schedule);
    RunInv(others, schedule);
    CountNone(s.agents, HoldsFuture);
  }

  // --- the outcome ----------------------------------------------------------------------------

  /** COMPLETED is absorbing and the winner of the completion never changes. */
  lemma CompletionIsFinal(s: Sys, schedule: seq<Event>)
    requires Inv(s) && s.sh.cell.state == COMPLETED
    ensures Exec(s, schedule).sh.cell.state == COMPLETED
    ensures Exec(s, schedule).sh.past.winner == s.sh.past.winner
    decreases |schedule|
  {
    if schedule != [] {
      var e := schedule[0];
      if e.Moves? && e.agent < |s.agents| {
        FinalLocal(s.sh, e.agent, s.agents[e.agent], e.choice);
      }
      StepInv(s, e);
      CompletionIsFinal(Step(s, e), schedule[1..]);
    }
  }

  lemma FinalLocal(h: Shared, i: nat, pc: Pc, c: Choice)
    requires h.cell.state == COMPLETED && SeenOk(h, pc)
    ensures Act(h, i, pc, c).sh.cell.state == COMPLETED
    ensures Act(h, i, pc, c).sh.past.winner == h.past.winner
  {
  }

  /** The first Ready value of the join handle is the winner's outcome, every later one reads
      Cancelled, and the result slot is written at most once. */
  lemma FirstAnswer(others: nat, schedule: seq<Event>)
    ensures var s := RunOf(others, schedule);
      && (s.join.answers != [] ==>
            s.sh.cell.state == COMPLETED && s.sh.past.winner == Some(s.join.answers[0]))
      && (forall k :: 1 <= k < |s.join.answers| ==> s.join.answers[k] == Cancelled)
      && s.sh.past.writes <= 1
      && (s.sh.cell.result.Some? ==> s.sh.cell.result == s.sh.past.winner)
  {
    RunInv(others, schedule);
  }

  /** Reading COMPLETED over an empty result slot gives the first answer only when `cancel` won. */
  lemma FallbackMeansCancelled(others: nat, schedule: seq<Event>, c: Choice)
    requires var s := RunOf(others, schedule);
      s.join.at.PollLoad? && s.join.answers == [] && Step(s, OwnerMoves(c)).join.answers != []
    ensures RunOf(others, schedule).sh.past.winner == Some(Cancelled)
    ensures Step(RunOf(others, schedule), OwnerMoves(c)).join.answers == [Cancelled]
  {
    RunInv(others, schedule);
    EmptyMeansCancelled(RunOf(others, schedule));
  }

  // --- the join wake-up -----------------------------------------------------------------------

  /** If the last join poll returned Pending and the call that completed the task has finished,
      that poll's waker has been woken since, so the token `block_on` parks on is there. */
  lemma JoinWakeNotLost(others: nat, schedule: seq<Event>)
    requires var s := RunOf(others, schedule);
      && s.join.at.Parked?
      && s.sh.cell.state == COMPLETED
      && (forall i :: 0 <= i < |s.agents| ==> !Finishing(s.agents[i]))
    ensures var s := RunOf(others, schedule);
      && s.join.stored == Some(s.join.polls)
      && s.join.polls in s.sh.past.woken
      && s.sh.token
  {
    var s := RunOf(others, schedule);
    RunInv(others, schedule);
    CountNone(s.agents, OwesResult);
    assert !HandOffPending(s);
    assert Accounted(s, s.join.polls);
  }

  /** Resuming from that park, `block_on` reads the outcome: three owner steps later it is Ready. */
  lemma BlockOnReturns(others: nat, schedule: seq<Event>)
    requires var s := RunOf(others, schedule);
      && s.join.at.Parked?
      && s.sh.cell.state == COMPLETED
      && s.join.answers == []
      && (forall i :: 0 <= i < |s.agents| ==> !Finishing(s.agents[i]) && !InComplete(s.agents[i]))
    ensures var s := RunOf(others, schedule);
      var t := Exec(s, [OwnerMoves(Unparked), OwnerMoves(Go), OwnerMoves(Go)]);
      && t.join.at.Away?
      && s.sh.past.winner.Some?
      && t.join.answers == [s.sh.past.winner.value]
  {
    var s := RunOf(others, schedule);
    JoinWakeNotLost(others, schedule);
    RunInv(others, schedule);
    CountNone(s.agents, OwesResult);
    forall i | 0 <= i < |s.agents|
      ensures s.sh.cell.resultLock != Agent(i)
    {
      assert OutcomeAt(s.sh, i, s.agents[i]);
    }
    assert s.sh.cell.resultLock == Free;
    var t := Exec3(s, [OwnerMoves(Unparked), OwnerMoves(Go), OwnerMoves(Go)]);
  }
}

/** Where the outcome of a task comes from (hypertile-core/src/task.rs:212-262 and 278-283): what its
    poll answered, or a cancellation. */
module TaskOutcomes {
  import opened Prelude
  import opened TaskMachine
  import opened TaskTheorems

  /** The step in which this outcome arises: a poll that is Ready with the value, a poll that panics
      with the payload, or a cancellation of a task that was not completed. */
  predicate Gives(s: Sys, e: Event, out: Outcome)
  {
    && e.Moves? && e.agent < |s.agents|
    && match out
       case Finished(v) => s.agents[e.agent] == RunPoll && e.choice == PollReady(v)
       case Panicked(p) => s.agents[e.agent] == RunPoll && e.choice == PollPanic(p)
       case Cancelled => s.agents[e.agent] == CancelSwap && s.sh.cell.state != COMPLETED
  }

  /** Some step of the run was that one. */
  ghost predicate Given(others: nat, schedule: seq<Event>, out: Outcome)
  {
    exists k :: 0 <= k < |schedule| && Gives(RunOf(others, schedule[..k]), schedule[k], out)
  }

  predicate Carries(pc: Pc, out: Outcome)
  {
    (pc.RunDrop? || pc.CompleteLock? || pc.CompleteSwap? || pc.CompleteWrite?) && pc.out == out
  }

  /** The outcome is the winner's, or in the hands of a call on its way to complete with it. */
  ghost predicate Known(s: Sys, out: Outcome)
  {
    s.sh.past.winner == Some(out) || exists i :: 0 <= i < |s.agents| && Carries(s.agents[i], out)
  }

  lemma KnownLocal(h: Shared, i: nat, pc: Pc, c: Choice, out: Outcome)
    ensures var m := Act(h, i, pc, c);
      && (Carries(m.pc, out) && !Carries(pc, out) ==>
            pc == RunPoll && ((out.Finished? && c == PollReady(out.value)) || (out.Panicked? && c == PollPanic(out.payload))))
      && (m.sh.past.winner == Some(out) && h.past.winner != Some(out) ==>
            Carries(pc, out) || (out.Cancelled? && pc == CancelSwap && h.cell.state != COMPLETED))
  {
  }

  /** An outcome known after a step was known before, or arises in it. */
  lemma KnownStep(s: Sys, e: Event, out: Outcome)
    requires Known(Step(s, e), out)
    ensures Known(s, out) || Gives(s, e, out)
  {
    var t := Step(s, e);
    if e.Moves? && e.agent < |s.agents| {
      KnownLocal(s.sh, e.agent, s.agents[e.agent], e.choice, out);
      if t.sh.past.winner != Some(out) {
        var i :| 0 <= i < |t.agents| && Carries(t.agents[i], out);
        assert i != e.agent ==> s.agents[i] == t.agents[i];
      }
    } else if t.sh.past.winner != Some(out) {
      var i :| 0 <= i < |t.agents| && Carries(t.agents[i], out);
      assert s.agents[i] == t.agents[i];
    }
  }

  lemma {:induction false} KnownWasGiven(others: nat, schedule: seq<Event>, out: Outcome)
    requires Known(RunOf(others, schedule), out)
    ensures Given(others, schedule, out)
    decreases |schedule|
  {
    if schedule != [] {
      var n := |schedule| - 1;
      var front, e := schedule[..n], schedule[n];
      assert schedule == front + [e];
      FoldOne(Step, Spawned(others), front, e);
      KnownStep(RunOf(others, front), e, out);
      if !Gives(RunOf(others, front), e, out) {
        KnownWasGiven(others, front, out);
        var k :| 0 <= k < |front| && Gives(RunOf(others, front[..k]), front[k], out);
        assert front[..k] == schedule[..k] && front[k] == schedule[k];
      }
    }
  }

  /** In every run: a task that finished with a value was polled Ready with it, one that panicked was
      polled and panicked with the payload, and one that was cancelled was so by a canceller. */
  lemma OutcomeWasGiven(others: nat, schedule: seq<Event>)
    ensures var winner := RunOf(others, schedule).sh.past.winner;
      winner.Some? ==> Given(others, schedule, winner.value)
  {
    var winner := RunOf(others, schedule).sh.past.winner;
    if winner.Some? {
      assert Known(RunOf(others, schedule), winner.value);
      KnownWasGiven(others, schedule, winner.value);
    }
  }

  /** So the first answer of the join handle is what a poll answered, or Cancelled after a
      cancellation. */
  lemma AnswerWasGiven(others: nat, schedule: seq<Event>)
    requires RunOf(others, schedule).join.answers != []
    ensures Given(others, schedule, RunOf(others, schedule).join.answers[0])
  {
    FirstAnswer(others, schedule);
    OutcomeWasGiven(others, schedule);
  }

  // --- calls that nobody disturbs -------------------------------------------------------------

  /** A cancellation completes a task that was not completed, and leaves a completed one as it is. */
  lemma UndisturbedCancel(s: Sys, i: nat)
    requires i < |s.agents| && s.agents[i].Rest?
    ensures var s' := Exec(s, [Moves(i, StartCancel), Moves(i, Go)]);
      && s'.sh.cell.state == COMPLETED
      && (if s.sh.cell.state == COMPLETED then s'.sh == s.sh && s'.agents == s.agents
          else s'.sh.past.winner == Some(Cancelled))
  {
    Fold2(Step, s, Moves(i, StartCancel), Moves(i, Go));
  }

  /** A queued handle of a task with its future in the slot can be run: the future is polled, and its
      answer is what the run goes on to complete with. */
  lemma UndisturbedRun(s: Sys, i: nat, answer: Choice)
    requires i < |s.agents| && s.agents[i].Rest? && s.sh.queued > 0
    requires s.sh.cell.state == SCHEDULED && s.sh.cell.slot
    ensures var s' := Exec(s, [Moves(i, StartRun), Moves(i, Go), Moves(i, Go), Moves(i, answer)]);
      && s'.sh.queued == s.sh.queued - 1 && s'.sh.cell.state == RUNNING && !s'.sh.past.owed
      && (answer.PollReady? ==> s'.agents == s.agents[i := RunDrop(Finished(answer.value))])
      && (answer.PollPanic? ==> s'.agents == s.agents[i := RunDrop(Panicked(answer.payload))])
      && (answer.PollPending? ==> s'.agents == s.agents[i := RunPublish])
  {
    Fold4(Step, s, Moves(i, StartRun), Moves(i, Go), Moves(i, Go), Moves(i, answer));
  }
}

/** No coroutine is ever stuck (hypertile-sys/src/bilingual.rs:52-201): wherever a run has led, its one
    continuation can be carried to the next resume, or to the end. */
module TrampolineProgress {
  import opened Prelude
  import opened Trampoline

  predicate LockIsHeld(s: Sys) { s.sh.lock.Some? ==> s.sh.lock.value < |s.agents| }

  lemma {:induction false} LockExec(p: Program, s: Sys, schedule: seq<Event>)
    requires LockIsHeld(s)
    ensures LockIsHeld(Exec(p, s, schedule)) && |Exec(p, s, schedule).agents| == |s.agents|
    decreases |schedule|
  {
    if schedule != [] {
      LockExec(p, Step(p, s, schedule[0]), schedule[1..]);
    }
  }

  /** Agent `k` has the continuation, or it is waiting to be picked and `k` is at rest, or nearly. */
  ghost predicate Mover(s: Sys, k: nat)
  {
    && k < |s.agents|
    && (Continues(s.agents[k])
        || (s.sh.queued + |s.sh.hooks| > 0 && (s.agents[k].Rest? || s.agents[k].RunUnlock?)))
  }

  /** How many steps `k` is from the resume, or the end, counting those that wait for the lock. */
  function Distance(s: Sys, k: nat): (n: nat)
    requires k < |s.agents|
  {
    match s.agents[k]
    case RunStep(_) => 1
    case RunFinish(_) => 1
    case RunTake => 2
    case RunCheck => 3
    case RunLock => if s.sh.lock.Some? then 5 else 4
    case Inject => 8
    case Deliver(_) => 9
    case RunRequeue => 8
    case RunHook(_) => 12
    case _ => (if s.sh.queued > 0 then 6 else 10) + Bit(s.agents[k].RunUnlock?)
  }

  function NextOnTheWay(s: Sys, k: nat): Event
    requires k < |s.agents|
  {
    match s.agents[k]
    case RunLock => Moves(if s.sh.lock.Some? then s.sh.lock.value else k, Go)
    case Rest => Moves(k, if s.sh.queued > 0 then PickHandle else PickHook)
    case _ => Moves(k, Go)
  }

  /** One more resume has been made, or the coroutine has ended. */
  predicate Further(s: Sys, t: Sys) { |t.sh.inputs| > |s.sh.inputs| || !t.sh.alive }

  /** `t` is one step nearer. */
  ghost predicate Nearer(s: Sys, t: Sys, k: nat)
    requires k < |s.agents|
  {
    || Further(s, t)
    || (t.sh.alive && LockIsHeld(t) && Mover(t, k) && t.sh.inputs == s.sh.inputs && Distance(t, k) < Distance(s, k))
  }

  lemma Closer(p: Program, s: Sys, hadCallback: bool, k: nat)
    requires Inv(p, s, hadCallback) && s.sh.alive && LockIsHeld(s) && Mover(s, k)
    ensures Nearer(s, Step(p, s, NextOnTheWay(s, k)), k)
  {
    assert PcOk(p, s.sh, k, s.agents[k]);
    if s.agents[k].RunLock? && s.sh.lock.Some? {
      LockFreed(p, s, hadCallback, k);
    } else {
      OwnMove(p, s, k);
    }
  }

  lemma OwnMove(p: Program, s: Sys, k: nat)
    requires s.sh.alive && LockIsHeld(s) && Mover(s, k) && (s.agents[k].RunLock? ==> s.sh.lock.None?)
    ensures Nearer(s, Step(p, s, NextOnTheWay(s, k)), k)
  {
  }

  /** Who holds the lock while `k` waits for it is about to release it. */
  lemma LockFreed(p: Program, s: Sys, hadCallback: bool, k: nat)
    requires Inv(p, s, hadCallback) && s.sh.alive && LockIsHeld(s) && k < |s.agents|
    requires s.agents[k].RunLock? && s.sh.lock.Some?
    ensures Nearer(s, Step(p, s, NextOnTheWay(s, k)), k)
  {
    var j := s.sh.lock.value;
    assert PcOk(p, s.sh, j, s.agents[j]) && PcOk(p, s.sh, k, s.agents[k]);
    CountMember(s.agents, k, Continues);
    CountUnique(s.agents, k, Continues);
    assert s.agents[j].RunUnlock?;
  }

  lemma {:induction false} Carried(p: Program, s: Sys, hadCallback: bool, k: nat) returns (schedule: seq<Event>)
    requires Inv(p, s, hadCallback) && s.sh.alive && LockIsHeld(s) && Mover(s, k)
    ensures Further(s, Exec(p, s, schedule)) && Cancel !in schedule
    decreases Distance(s, k)
  {
    var e := NextOnTheWay(s, k);
    Closer(p, s, hadCallback, k);
    var s' := Step(p, s, e);
    if Further(s, s') {
      schedule := [e];
      FoldOne(StepOf(p), s, [], e);
      assert [] + [e] == [e];
    } else {
      StepInv(p, s, hadCallback, e);
      var rest := Carried(p, s', hadCallback, k);
      schedule := [e] + rest;
      assert schedule[1..] == rest;
    }
  }

  lemma SomeMover(p: Program, s: Sys, hadCallback: bool) returns (k: nat)
    requires Inv(p, s, hadCallback) && s.sh.alive && |s.agents| > 0
    ensures Mover(s, k)
  {
    if Count(s.agents, Continues) > 0 {
      k := CountWitness(s.agents, Continues);
    } else {
      k := 0;
      assert PcOk(p, s.sh, 0, s.agents[0]) && !Continues(s.agents[0]);
    }
  }

  /** From every state a run can reach while the coroutine is alive, some further steps, without any
      cancellation, resume it once more or end it. */
  lemma NeverStuck(p: Program, agents: nat, hasCallback: bool, schedule: seq<Event>) returns (more: seq<Event>)
    requires agents > 0 && Exec(p, Spawned(agents, hasCallback), schedule).sh.alive
    ensures Further(Exec(p, Spawned(agents, hasCallback), schedule),
                    Exec(p, Spawned(agents, hasCallback), schedule + more))
    ensures Cancel !in more
  {
    var start := Spawned(agents, hasCallback);
    var s := Exec(p, start, schedule);
    RunInv(p, agents, hasCallback, schedule);
    LockExec(p, start, schedule);
    var k := SomeMover(p, s, hasCallback);
    more := Carried(p, s, hasCallback, k);
    FoldAppend(StepOf(p), start, schedule, more);
  }

  /** A cancellation that comes while nobody is resuming the coroutine can be carried through: the
      coroutine ends without another resume, and the report is TaskCancelled. */
  lemma CancelEnds(p: Program, agents: nat, hasCallback: bool, schedule: seq<Event>) returns (more: seq<Event>)
    requires agents > 0
    requires var s := Exec(p, Spawned(agents, hasCallback), schedule);
      && s.sh.alive && (s.sh.inputs == [] || Yields(p.coro(s.sh.inputs)))
      && forall i :: 0 <= i < |s.agents| ==> !Resuming(s.agents[i])
    ensures var s := Exec(p, Spawned(agents, hasCallback), schedule).sh;
      var t := Exec(p, Spawned(agents, hasCallback), schedule + [Cancel] + more).sh;
      !t.alive && t.inputs == s.inputs && t.fired == if hasCallback then [TaskCancelled] else []
  {
    var start := Spawned(agents, hasCallback);
    var s := Exec(p, start, schedule);
    var s' := Step(p, s, Cancel);
    FoldOne(StepOf(p), start, schedule, Cancel);
    assert CancelSeen(s');
    more := NeverStuck(p, agents, hasCallback, schedule + [Cancel]);
    FoldAppend(StepOf(p), start, schedule + [Cancel], more);
    NoResumeAfterCancel(p, s', more);
    RunInv(p, agents, hasCallback, schedule + [Cancel] + more);
    CancelIsReported(p, agents, hasCallback, schedule + [Cancel], more);
  }
}

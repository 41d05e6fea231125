/** `PyCoroutineTask` as the source writes it (hypertile-sys/src/bilingual.rs:12-201): a class whose
    `run` locks the coroutine, reads the token, takes the pending value, resumes, and hooks,
    requeues or finishes, in place, while everybody else acts in the gaps.

    As in TaskCells, the others are a script of gaps and `trace` records every step, so `Valid` says
    that the fields are where some run of the trampoline machine leads. */
module CoroutineTasks {
  import opened Prelude
  import opened Trampoline

  predicate Mine(me: nat, e: Event) { e.Moves? && e.agent == me }

  /** What nobody else touches while the caller holds the one continuation. */
  predicate Still(h: Shared, h': Shared)
  {
    && h'.alive == h.alive && h'.pending == h.pending && h'.doneCallback == h.doneCallback
    && h'.queued == h.queued && h'.hooks == h.hooks
    && h'.inputs == h.inputs && h'.makers == h.makers && h'.fired == h.fired
  }

  /** Between two moments: where the caller stands is its own, a finished coroutine is not revived
      nor its callback unfired, nobody resumes in the caller's name, and nobody steps a coroutine
      whose continuation the caller holds. */
  predicate Later(me: nat, s: Sys, t: Sys)
  {
    && me < |s.agents| == |t.agents| && t.agents[me] == s.agents[me]
    && s.sh.fired <= t.sh.fired && (t.sh.alive ==> s.sh.alive) && (s.sh.token ==> t.sh.token)
    && Times(t.sh.makers, me) == Times(s.sh.makers, me)
    && (Continues(s.agents[me]) ==> Still(s.sh, t.sh))
  }

  lemma ForeignMove(p: Program, h: Shared, me: nat, i: nat, pc: Pc, c: Choice)
    requires i != me
    ensures var m := Act(p, h, i, pc, c);
      && h.fired <= m.sh.fired && (m.sh.alive ==> h.alive) && m.sh.token == h.token
      && Times(m.sh.makers, me) == Times(h.makers, me)
      && (!Continues(pc) && h.queued == 0 && h.hooks == [] ==> Still(h, m.sh))
  {
    if pc.RunStep? { TimesLast(h.makers, i, me); }
  }

  lemma ForeignStep(p: Program, s: Sys, me: nat, hadCallback: bool, e: Event)
    requires Inv(p, s, hadCallback) && me < |s.agents| && !Mine(me, e)
    ensures Later(me, s, Step(p, s, e))
  {
    if e.Moves? && e.agent < |s.agents| {
      if Continues(s.agents[me]) { OnlyContinuation(p, s, hadCallback, me, e.agent); }
      ForeignMove(p, s.sh, me, e.agent, s.agents[e.agent], e.choice);
    }
  }

  lemma {:induction false} ForeignKeeps(p: Program, s: Sys, me: nat, hadCallback: bool, events: seq<Event>)
    requires Inv(p, s, hadCallback) && me < |s.agents|
    requires forall e :: e in events ==> !Mine(me, e)
    ensures Later(me, s, Exec(p, s, events))
    decreases |events|
  {
    if events != [] {
      assert events[0] in events;
      StepInv(p, s, hadCallback, events[0]);
      ForeignStep(p, s, me, hadCallback, events[0]);
      ForeignKeeps(p, Step(p, s, events[0]), me, hadCallback, events[1..]);
    }
  }

  class PyCoroutineTask {
    const program: Program
    // the fields of the source; a coroutine that is over has been dropped
    var coro: bool
    var pendingValue: Option<Input>
    var doneCallback: bool
    var token: bool
    // the coroutine's lock, the scheduler's queue, the hooked futures, the history
    var coroLock: Option<nat>
    var queued: nat
    var hooks: seq<FutureId>
    var inputs: seq<Input>
    var makers: seq<nat>
    var fired: seq<Final>
    var agents: seq<Pc>
    var script: seq<seq<Event>>
    ghost var workers: nat
    ghost var hadCallback: bool
    ghost var trace: seq<Event>

    function Now(): Sys
      reads this
    {
      Sys(Shared(coro, pendingValue, doneCallback, token, coroLock, queued, hooks, inputs, makers, fired), agents)
    }

    ghost predicate Valid()
      reads this
    {
      Now() == Exec(program, Spawned(workers, hadCallback), trace)
    }

    constructor (program: Program, workers: nat, hasCallback: bool, script: seq<seq<Event>>)
      ensures Valid() && trace == [] && this.program == program
      ensures coro && pendingValue == None && doneCallback == hasCallback && !token && queued == 1
    {
      this.program := program;
      coro, pendingValue, doneCallback, token, coroLock := true, None, hasCallback, false, None;
      queued, hooks, inputs, makers, fired := 1, [], [], [], [];
      agents := seq(workers, k => Pc.Rest);
      this.script, this.workers, hadCallback, trace := script, workers, hasCallback, [];
    }

    ghost method Commit(e: Event)
      requires Now() == Step(program, Exec(program, Spawned(workers, hadCallback), trace), e)
      modifies this`trace
      ensures Valid() && trace == old(trace) + [e]
    {
      FoldOne(StepOf(program), Spawned(workers, hadCallback), trace, e);
      trace := trace + [e];
    }

    /** What the caller may rely on across its own steps and the gaps between them. */
    twostate predicate Went(me: nat)
      reads this
    {
      && old(trace) <= trace && workers == old(workers) && hadCallback == old(hadCallback)
      && me < |agents| == |old(agents)|
      && |script| <= |old(script)|
      && old(fired) <= fired && (coro ==> old(coro)) && (old(token) ==> token)
    }

    /** How many resumes agent `me` has made. */
    function Resumes(me: nat): (n: nat)
      reads this
    {
      Times(makers, me)
    }

    lemma Played(me: nat, events: seq<Event>)
      requires Valid() && me < |agents| && forall e :: e in events ==> !Mine(me, e)
      ensures var t := Exec(program, Now(), events);
        Later(me, Now(), t) && t == Exec(program, Spawned(workers, hadCallback), trace + events)
    {
      RunInv(program, workers, hadCallback, trace);
      ForeignKeeps(program, Now(), me, hadCallback, events);
      FoldAppend(StepOf(program), Spawned(workers, hadCallback), trace, events);
    }

    /** The others play the next gap. */
    method Others(me: nat)
      requires Valid() && me < |agents|
      modifies this
      ensures Valid() && Went(me) && Later(me, old(Now()), Now())
      ensures old(script) != [] ==> |script| < |old(script)|
    {
      if script != [] {
        var events := Excluding(script[0], e => Mine(me, e));
        script := script[1..];
        Played(me, events);
        Become(Exec(program, Now(), events));
        trace := trace + events;
      }
    }

    method Become(s: Sys)
      modifies this`coro, this`pendingValue, this`doneCallback, this`token, this`coroLock, this`queued,
               this`hooks, this`inputs, this`makers, this`fired, this`agents
      ensures Now() == s
    {
      coro, pendingValue, doneCallback, token := s.sh.alive, s.sh.pending, s.sh.doneCallback, s.sh.token;
      coroLock, queued, hooks := s.sh.lock, s.sh.queued, s.sh.hooks;
      inputs, makers, fired, agents := s.sh.inputs, s.sh.makers, s.sh.fired, s.agents;
    }

    /** `self.coro.lock()`; false when the script ends first. */
    method LockCoro(me: nat) returns (locked: bool)
      requires Valid() && me < |agents| && agents[me] == RunLock
      modifies this
      ensures Valid() && Went(me)
      ensures if locked then agents[me] == RunCheck else coroLock.Some?
      ensures Resumes(me) == old(Resumes(me)) && coro == old(coro)
    {
      while true
        invariant Valid() && Went(me) && agents[me] == RunLock
        invariant Resumes(me) == old(Resumes(me)) && coro == old(coro)
        decreases |script|
      {
        var over := script == [];
        Others(me);
        if coroLock == None {
          coroLock := Some(me);
          agents := agents[me := RunCheck];
          Commit(Moves(me, Go));
          return true;
        }
        if over {
          return false;
        }
      }
    }

    /** A coroutine that is over ends the run; a set token finishes it. */
    method Check(me: nat) returns (present: bool, cancelled: bool)
      requires Valid() && me < |agents| && agents[me] == RunCheck
      modifies this
      ensures Valid() && Went(me)
      ensures agents[me] == if !present then RunUnlock else if cancelled then RunFinish(TaskCancelled) else RunTake
      ensures present == old(coro) && (present ==> cancelled == token)
      ensures Resumes(me) == old(Resumes(me))
    {
      Others(me);
      present, cancelled := coro, token;
      agents := agents[me := if !present then RunUnlock
                             else if cancelled then RunFinish(TaskCancelled) else RunTake];
      Commit(Moves(me, Go));
    }

    /** `self.pending_value.lock().take()`. */
    method TakePending(me: nat) returns (input: Input)
      requires Valid() && me < |agents| && agents[me] == RunTake
      modifies this
      ensures Valid() && Went(me) && agents[me] == RunStep(input)
      ensures input == Resume(old(pendingValue)) && pendingValue == None
      ensures inputs == old(inputs) && hooks == old(hooks) && queued == old(queued)
      ensures Resumes(me) == old(Resumes(me))
    {
      Others(me);
      input := if pendingValue.Some? then pendingValue.value else SendNone;
      pendingValue := None;
      agents := agents[me := RunStep(input)];
      Commit(Moves(me, Go));
    }

    /** `send` or `throw`, and the outcome of the resume. */
    method Resumed(me: nat, input: Input) returns (out: Out)
      requires Valid() && me < |agents| && agents[me] == RunStep(input)
      modifies this
      ensures Valid() && Went(me) && agents[me] == AfterStep(out)
      ensures inputs == old(inputs) + [input] && out == program.coro(inputs)
      ensures hooks == old(hooks) && queued == old(queued)
      ensures Resumes(me) == old(Resumes(me)) + 1
    {
      Others(me);
      TimesLast(makers, me, me);
      inputs, makers := inputs + [input], makers + [me];
      out := program.coro(inputs);
      agents := agents[me := AfterStep(out)];
      Commit(Moves(me, Go));
    }

    method AddDoneCallback(me: nat, f: FutureId)
      requires Valid() && me < |agents| && agents[me] == RunHook(f)
      modifies this
      ensures Valid() && Went(me) && agents[me] == RunUnlock
      ensures hooks == old(hooks) + [f] && inputs == old(inputs) && queued == old(queued)
      ensures Resumes(me) == old(Resumes(me))
    {
      Others(me);
      hooks := hooks + [f];
      agents := agents[me := RunUnlock];
      Commit(Moves(me, Go));
    }

    /** A bare yield: the task queues itself again. */
    method InjectItself(me: nat)
      requires Valid() && me < |agents| && agents[me] == RunRequeue
      modifies this
      ensures Valid() && Went(me) && agents[me] == RunUnlock
      ensures queued == old(queued) + 1 && inputs == old(inputs) && hooks == old(hooks)
      ensures Resumes(me) == old(Resumes(me))
    {
      Others(me);
      queued := queued + 1;
      agents := agents[me := RunUnlock];
      Commit(Moves(me, Go));
    }

    /** Drops the coroutine and takes and calls the done callback, if there is one. */
    method Finish(me: nat, final: Final)
      requires Valid() && me < |agents| && agents[me] == RunFinish(final)
      modifies this
      ensures Valid() && Went(me) && agents[me] == RunUnlock
      ensures !coro && (hadCallback ==> fired == [final])
      ensures Resumes(me) == old(Resumes(me))
    {
      Others(me);
      DropAndReport(me, final);
    }

    method DropAndReport(me: nat, final: Final)
      requires Valid() && me < |agents| && agents[me] == RunFinish(final)
      modifies this
      ensures Valid() && Went(me) && agents[me] == RunUnlock
      ensures !coro && (hadCallback ==> fired == [final])
      ensures Resumes(me) == old(Resumes(me))
    {
      StillToFire(me);
      coro := false;
      if doneCallback {
        doneCallback := false;
        fired := fired + [final];
      }
      agents := agents[me := RunUnlock];
      Commit(Moves(me, Go));
    }

    lemma StillToFire(me: nat)
      requires Valid() && me < |agents| && agents[me].RunFinish?
      ensures coro && fired == [] && doneCallback == hadCallback
    {
      RunInv(program, workers, hadCallback, trace);
      assert PcOk(program, Now().sh, me, agents[me]);
    }

    method Unlock(me: nat)
      requires Valid() && me < |agents| && agents[me] == RunUnlock
      modifies this
      ensures Valid() && Went(me) && agents[me] == Rest
      ensures Resumes(me) == old(Resumes(me))
    {
      Others(me);
      coroLock := None;
      agents := agents[me := Rest];
      Commit(Moves(me, Go));
    }

    // --- the callback hooked onto a future ------------------------------------------------------

    /** The future's value or exception becomes the pending value; a cancelled one leaves it. */
    method StoreOutcome(me: nat, f: FutureId)
      requires Valid() && me < |agents| && agents[me] == Deliver(f)
      modifies this
      ensures Valid() && Went(me) && agents[me] == Inject
      ensures match program.outcome(f)
              case Resolved(v) => pendingValue == Some(Send(v))
              case Failed(e) => pendingValue == Some(Throw(e))
              case FutureCancelled => pendingValue == old(pendingValue)
      ensures queued == old(queued) && inputs == old(inputs) && Resumes(me) == old(Resumes(me))
    {
      Others(me);
      var outcome: Option<Input>;
      match program.outcome(f) {
        case Resolved(v) => outcome := Some(Send(v));
        case Failed(e) => outcome := Some(Throw(e));
        case FutureCancelled => outcome := None;
      }
      StoreNow(me, f, outcome);
    }

    method StoreNow(me: nat, f: FutureId, outcome: Option<Input>)
      requires Valid() && me < |agents| && agents[me] == Deliver(f) && outcome == Delivered(program.outcome(f))
      modifies this
      ensures Valid() && Went(me) && agents[me] == Inject
      ensures pendingValue == if outcome.Some? then outcome else old(pendingValue)
      ensures queued == old(queued) && inputs == old(inputs) && Resumes(me) == old(Resumes(me))
    {
      if outcome.Some? {
        pendingValue := outcome;
      }
      agents := agents[me := Inject];
      Commit(Moves(me, Go));
    }

    method InjectAgain(me: nat)
      requires Valid() && me < |agents| && agents[me] == Inject
      modifies this
      ensures Valid() && Went(me) && agents[me] == Rest
      ensures queued == old(queued) + 1 && pendingValue == old(pendingValue) && inputs == old(inputs)
      ensures Resumes(me) == old(Resumes(me))
    {
      Others(me);
      queued := queued + 1;
      agents := agents[me := Rest];
      Commit(Moves(me, Go));
    }

    /** The future is done: its outcome waits for the next resume, for which the task is queued. */
    method FutureDone(me: nat, f: FutureId)
      requires Valid() && me < |agents| && agents[me] == Deliver(f)
      modifies this
      ensures Valid() && Went(me) && agents[me] == Rest
      ensures queued == old(queued) + 1 && inputs == old(inputs)
      ensures match program.outcome(f)
              case Resolved(v) => pendingValue == Some(Send(v))
              case Failed(e) => pendingValue == Some(Throw(e))
              case FutureCancelled => pendingValue == old(pendingValue)
    {
      StoreOutcome(me, f);
      InjectAgain(me);
    }

    // --- run ------------------------------------------------------------------------------------

    /** One run of a popped handle.  A run that ends the coroutine reports it: the callback has been
        called once, with this report, and whatever the others do it is never called again.  A run
        that begins after a cancellation request makes no resume and reports it; one that nobody asks
        to cancel resumes a live coroutine exactly once. */
    method Run(me: nat) returns (done: bool, final: Option<Final>)
      requires Valid() && me < |agents| && agents[me] == RunLock
      modifies this
      ensures Valid() && Went(me)
      ensures if done then agents[me] == Rest else coroLock.Some?
      ensures done && final.Some? ==> !coro && (hadCallback ==> fired == [final.value])
      ensures old(Resumes(me)) <= Resumes(me) <= old(Resumes(me)) + 1
      ensures old(token) && old(coro) && done ==>
                final == Some(TaskCancelled) && Resumes(me) == old(Resumes(me))
      ensures old(coro) && !token && done ==> Resumes(me) == old(Resumes(me)) + 1
    {
      final := None;
      done := LockCoro(me);
      if !done {
        return;
      }
      final := RunLocked(me);
      EndRun(me, final);
    }

    /** The run with the lock held: the checks, the step, and the report of an end. */
    method RunLocked(me: nat) returns (final: Option<Final>)
      requires Valid() && me < |agents| && agents[me] == RunCheck
      modifies this
      ensures Valid() && Went(me) && agents[me] == RunUnlock
      ensures final.Some? ==> !coro && (hadCallback ==> fired == [final.value])
      ensures old(Resumes(me)) <= Resumes(me) <= old(Resumes(me)) + 1
      ensures old(token) && old(coro) ==> final == Some(TaskCancelled) && Resumes(me) == old(Resumes(me))
      ensures old(coro) && !token ==> Resumes(me) == old(Resumes(me)) + 1
    {
      final := None;
      var present, cancelled := Check(me);
      if present && cancelled {
        final := Some(TaskCancelled);
      } else if present {
        final := StepCoroutine(me);
      }
      if final.Some? {
        Finish(me, final.value);
      }
    }

    /** Resumes the coroutine; a yielded future is hooked, a bare yield requeues, anything else is
        how the coroutine ends. */
    method StepCoroutine(me: nat) returns (final: Option<Final>)
      requires Valid() && me < |agents| && agents[me] == RunTake
      modifies this
      ensures Valid() && Went(me)
      ensures agents[me] == if final.Some? then RunFinish(final.value) else RunUnlock
      ensures inputs == old(inputs) + [Resume(old(pendingValue))]
      ensures Dispatched(program.coro(inputs), final, old(hooks), old(queued))
      ensures Resumes(me) == old(Resumes(me)) + 1
    {
      final := None;
      var input := TakePending(me);
      var out := Resumed(me, input);
      match out {
        case YieldFuture(f) => AddDoneCallback(me, f);
        case YieldNone => InjectItself(me);
        case Return(v) => final := Some(Finished(v));
        case Raise(e) => final := Some(Raised(e));
        case Panic(m) => final := Some(PanicInTask(m));
        case YieldOther => final := Some(CannotDrive);
      }
    }

    /** A future was hooked, a bare yield requeued, and anything else is how the coroutine ended. */
    predicate Dispatched(out: Out, final: Option<Final>, hooksBefore: seq<FutureId>, queuedBefore: nat)
      reads this
    {
      match out
      case YieldFuture(f) => final.None? && hooks == hooksBefore + [f] && queued == queuedBefore
      case YieldNone => final.None? && hooks == hooksBefore && queued == queuedBefore + 1
      case Return(v) => final == Some(Finished(v)) && hooks == hooksBefore && queued == queuedBefore
      case Raise(e) => final == Some(Raised(e)) && hooks == hooksBefore && queued == queuedBefore
      case Panic(m) => final == Some(PanicInTask(m)) && hooks == hooksBefore && queued == queuedBefore
      case YieldOther => final == Some(CannotDrive) && hooks == hooksBefore && queued == queuedBefore
    }

    /** The end of a run: nothing undoes a report already made. */
    method EndRun(me: nat, final: Option<Final>)
      requires Valid() && me < |agents| && agents[me] == RunUnlock
      requires final.Some? ==> !coro && (hadCallback ==> fired == [final.value])
      modifies this
      ensures Valid() && Went(me) && agents[me] == Rest
      ensures final.Some? ==> !coro && (hadCallback ==> fired == [final.value])
      ensures Resumes(me) == old(Resumes(me))
    {
      Unlock(me);
      RunInv(program, workers, hadCallback, trace);
    }
  }
}

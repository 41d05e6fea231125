/** The task cell as the source writes it (hypertile-core/src/task.rs): a class whose methods load,
    exchange, lock and store its fields in place, with the retry loops, while everybody else acts
    in the gaps between their atomic operations.

    The others are a script: before each atomic operation of the method at hand the next gap is
    played.  `trace` records every step taken, so `Valid` says that the cell is where some run of
    the task machine leads: each method is such a run, and what TaskTheorems proves of all runs
    holds of the cell at every moment.  A method that answers `done == false` was cut off by the end
    of the script while it waited for a lock. */
module TaskCells {
  import opened Prelude
  import opened TaskMachine
  import opened TaskTheorems

  /** What the others do before the next operation, and whether that operation, when it is a weak
      exchange, fails for no reason. */
  datatype Gap = Gap(events: seq<Event>, spurious: bool)

  datatype Who = Call(agent: nat) | JoinHandle

  /** How the future answers when it is polled. */
  datatype PollResult = Ready(value: int) | Pending | Panic(payload: int)

  predicate Mine(who: Who, e: Event)
  {
    match who
    case Call(me) => e.Moves? && e.agent == me
    case JoinHandle => e.OwnerMoves?
  }

  /** The others leave the caller's own program counter alone. */
  lemma {:induction false} ForeignKeeps(who: Who, s: Sys, events: seq<Event>)
    requires forall e :: e in events ==> !Mine(who, e)
    ensures var t := Exec(s, events);
      && |t.agents| == |s.agents|
      && (who.Call? && who.agent < |s.agents| ==> t.agents[who.agent] == s.agents[who.agent])
      && (who.JoinHandle? ==> t.join == s.join)
    decreases |events|
  {
    if events != [] {
      assert events[0] in events;
      ForeignKeeps(who, Step(s, events[0]), events[1..]);
    }
  }

  /** What the waker's exchange does. */
  lemma ExchangeActs(h: Shared, me: nat, from: State, c: Choice)
    ensures Act(h, me, WakeCas(from), c) ==
            if h.cell.state != from || c == Spurious then Move(h, WakeLoad)
            else Move(Owe(h, SCHEDULED), if from == RUNNING then Rest else WakePush)
  {
  }

  class TaskCell {
    // the fields of the source
    var state: State
    var future: bool
    var result: Option<Outcome>
    var joinWaker: Option<nat>
    // their locks, and everything around the cell
    var resultLock: Holder
    var joinLock: Holder
    var queued: nat
    var token: bool
    var agents: seq<Pc>
    var join: JoinOwner
    var script: seq<Gap>
    var past: Past
    ghost var crew: nat
    ghost var trace: seq<Event>

    function Now(): Sys
      reads this
    {
      Sys(Shared(Cell(state, future, result, joinWaker, resultLock, joinLock), queued, token, past),
          agents, join)
    }

    ghost predicate Valid()
      reads this
    {
      Now() == RunOf(crew, trace)
    }

    /** `TaskCell::new`: SCHEDULED, the future in its slot, its one handle about to be pushed. */
    constructor (crew: nat, script: seq<Gap>)
      ensures Valid() && trace == [] && this.crew == crew && this.script == script
      ensures state == SCHEDULED && future && result == None && joinWaker == None
    {
      state, future, result, joinWaker := SCHEDULED, true, None, None;
      resultLock, joinLock := Free, Free;
      queued, token := 0, false;
      agents := [WakePush] + seq(crew, k => Rest);
      join := JoinOwner(Away, 0, None, []);
      past := Past(0, None, 0, false, true, {});
      this.crew := crew;
      this.script := script;
      trace := [];
    }

    /** Records an own step that the fields already show. */
    ghost method Commit(e: Event)
      requires Now() == Step(RunOf(crew, trace), e)
      modifies this`trace
      ensures Valid() && trace == old(trace) + [e]
    {
      FoldOne(Step, Spawned(crew), trace, e);
      trace := trace + [e];
    }

    method Become(s: Sys)
      modifies this`state, this`future, this`result, this`joinWaker, this`resultLock, this`joinLock,
               this`queued, this`token, this`agents, this`join, this`past
      ensures Now() == s
    {
      state, future, result, joinWaker := s.sh.cell.state, s.sh.cell.slot, s.sh.cell.result, s.sh.cell.joinWaker;
      resultLock, joinLock := s.sh.cell.resultLock, s.sh.cell.joinLock;
      queued, token, past := s.sh.queued, s.sh.token, s.sh.past;
      agents, join := s.agents, s.join;
    }

    /** Where the caller stands is its own; the script only gets shorter, and when it is over
        nothing moves any more. */
    twostate predicate Waited(who: Who)
      reads this
    {
      && old(trace) <= trace
      && crew == old(crew)
      && |agents| == |old(agents)|
      && |script| <= |old(script)|
      && (who.Call? && who.agent < |agents| ==> agents[who.agent] == old(agents)[who.agent])
      && (who.JoinHandle? ==> join == old(join))
      && (old(script) == [] ==> Now() == old(Now()))
    }

    twostate predicate Kept(who: Who)
      reads this
    {
      Waited(who) && (old(script) != [] ==> |script| < |old(script)|)
    }

    /** The others play the next gap. */
    method Others(who: Who) returns (spurious: bool)
      requires Valid()
      modifies this
      ensures Valid() && Kept(who)
      ensures old(script) == [] ==> !spurious
    {
      if script == [] {
        return false;
      }
      spurious := script[0].spurious;
      var events := Excluding(script[0].events, e => Mine(who, e));
      script := script[1..];
      ForeignKeeps(who, Now(), events);
      FoldAppend(Step, Spawned(crew), trace, events);
      var s := Exec(Now(), events);
      Become(s);
      trace := trace + events;
    }

    /** The script is over and somebody else holds a lock. */
    predicate Blocked()
      reads this
    {
      script == [] && (resultLock != Free || joinLock != Free)
    }

    /** Waits until the result lock is free; false when the script ends first. */
    method AwaitResultLock(who: Who) returns (free: bool)
      requires Valid()
      modifies this
      ensures Valid() && Waited(who)
      ensures free <==> resultLock == Free
      ensures !free ==> Blocked()
    {
      free := false;
      while true
        invariant Valid() && Waited(who)
        decreases |script|
      {
        var over := script == [];
        var _ := Others(who);
        if resultLock == Free {
          return true;
        }
        if over {
          return false;
        }
      }
    }

    /** Waits until the join waker's lock is free; false when the script ends first. */
    method AwaitJoinLock(who: Who) returns (free: bool)
      requires Valid()
      modifies this
      ensures Valid() && Waited(who)
      ensures free <==> joinLock == Free
      ensures !free ==> Blocked()
    {
      free := false;
      while true
        invariant Valid() && Waited(who)
        decreases |script|
      {
        var over := script == [];
        var _ := Others(who);
        if joinLock == Free {
          return true;
        }
        if over {
          return false;
        }
      }
    }

    /** What an own operation changes: the caller has moved to `pc`, and the run has grown. */
    twostate predicate Moved(me: nat, pc: Pc)
      reads this
    {
      && Went(me)
      && agents[me] == pc
      && (old(script) != [] ==> |script| < |old(script)|)
    }

    /** The run has grown by whatever the caller and the others did. */
    twostate predicate Went(me: nat)
      reads this
    {
      && old(trace) <= trace
      && crew == old(crew)
      && me < |agents| && |agents| == |old(agents)|
      && |script| <= |old(script)|
    }

    /** With nobody else acting, the locks and the winner are as they were. */
    twostate predicate Alone()
      reads this
    {
      old(script) == [] ==>
        script == [] && resultLock == old(resultLock) && joinLock == old(joinLock) && past.winner == old(past.winner)
    }

    /** And so are the state and the future. */
    twostate predicate Untouched()
      reads this
    {
      Alone() && (old(script) == [] ==> state == old(state) && future == old(future))
    }

    // --- mark_scheduled and wake_by_ref ---------------------------------------------------------

    method LoadState(me: nat) returns (curr: State)
      requires Valid() && me < |agents| && (agents[me].WakeLoad? || agents[me].RunLoad?)
      modifies this
      ensures Valid() && Moved(me, LoadedAt(old(agents)[me], curr))
      ensures Untouched() && (old(script) == [] ==> curr == old(state))
    {
      var _ := Others(Call(me));
      var m := Act(Now().sh, me, agents[me], Go);
      curr := state;
      past, agents := m.sh.past, agents[me := m.pc];
      Commit(Moves(me, Go));
    }

    /** Where a call goes from a load of the state. */
    static function LoadedAt(pc: Pc, curr: State): Pc
      requires pc.WakeLoad? || pc.RunLoad?
    {
      if pc.WakeLoad? then (if curr == COMPLETED || curr == SCHEDULED then Rest else WakeCas(curr))
      else if curr == COMPLETED then RunRelease
      else if curr == SCHEDULED then RunRequeue
      else RunCas(curr)
    }

    /** `compare_exchange_weak(from, SCHEDULED)` in the waker's loop. */
    method ExchangeToScheduled(me: nat, from: State) returns (ok: bool)
      requires Valid() && me < |agents| && agents[me] == WakeCas(from)
      modifies this
      ensures Valid()
      ensures Moved(me, if !ok then WakeLoad else if from == RUNNING then Rest else WakePush)
      ensures !ok && old(script) == [] ==> old(state) != from
    {
      var spurious := Others(Call(me));
      ok := state == from && !spurious;
      if ok {
        Schedule(me, from);
      } else {
        LoadAgain(me, from, if spurious then Spurious else Go);
      }
    }

    /** The exchange takes effect. */
    method Schedule(me: nat, from: State)
      requires Valid() && me < |agents| && agents[me] == WakeCas(from) && state == from
      modifies this
      ensures Valid() && Acted(me, if from == RUNNING then Rest else WakePush)
    {
      ExchangeActs(Now().sh, me, from, Go);
      state, past := SCHEDULED, past.(owed := true);
      agents := agents[me := if from == RUNNING then Rest else WakePush];
      Commit(Moves(me, Go));
    }

    /** The exchange fails, because the state has changed or for no reason. */
    method LoadAgain(me: nat, from: State, c: Choice)
      requires Valid() && me < |agents| && agents[me] == WakeCas(from) && (state != from || c == Spurious)
      modifies this
      ensures Valid() && Acted(me, WakeLoad)
    {
      ExchangeActs(Now().sh, me, from, c);
      agents := agents[me := WakeLoad];
      Commit(Moves(me, c));
    }

    /** An own operation without a gap before it. */
    twostate predicate Acted(me: nat, pc: Pc)
      reads this
    {
      Went(me) && agents[me] == pc && script == old(script)
    }

    /** `compare_exchange_weak(RUNNING, IDLE)` in the runner's loop. */
    method ExchangeToIdle(me: nat, from: State) returns (ok: bool)
      requires Valid() && me < |agents| && agents[me] == RunCas(from)
      modifies this
      ensures Valid()
      ensures Moved(me, if ok then Rest else RunLoad)
      ensures Alone()
      ensures old(script) == [] ==> (ok <==> old(state) == from) && (ok ==> state == IDLE) && future == old(future)
    {
      var spurious := Others(Call(me));
      var c := if spurious then Spurious else Go;
      ok := state == from && !spurious;
      if ok {
        state := IDLE;
      }
      agents := agents[me := if ok then Rest else RunLoad];
      Commit(Moves(me, c));
    }

    /** True exactly when this call took the task from IDLE to SCHEDULED and must queue it. */
    method MarkScheduled(me: nat) returns (scheduled: bool)
      requires Valid() && me < |agents| && agents[me] == WakeLoad
      modifies this
      ensures Valid() && Went(me)
      ensures agents[me] == if scheduled then WakePush else Rest
    {
      while true
        invariant Valid() && Went(me) && agents[me] == WakeLoad
        decreases |script|
      {
        var curr := LoadState(me);
        if curr == COMPLETED {
          return false;
        }
        if curr == SCHEDULED {
          return false;
        }
        if curr == RUNNING {
          var ok := ExchangeToScheduled(me, curr);
          if ok {
            return false;
          }
          continue;
        }
        var ok := ExchangeToScheduled(me, curr);
        if ok {
          return true;
        }
      }
    }

    /** The handle goes into some queue of the pool. */
    method Push(me: nat)
      requires Valid() && me < |agents| && (agents[me].WakePush? || agents[me].RunRequeue?)
      modifies this
      ensures Valid() && Moved(me, Rest)
    {
      var _ := Others(Call(me));
      var m := Act(Now().sh, me, agents[me], Go);
      queued := queued + 1;
      past, agents := m.sh.past, agents[me := m.pc];
      Commit(Moves(me, Go));
    }

    method WakeByRef(me: nat)
      requires Valid() && me < |agents| && agents[me] == WakeLoad
      modifies this
      ensures Valid() && Went(me) && agents[me] == Rest
    {
      var scheduled := MarkScheduled(me);
      if scheduled {
        Push(me);
      }
    }

    // --- complete -------------------------------------------------------------------------------

    /** Waits for the result lock; false when the script ends first. */
    method LockResult(me: nat, out: Outcome) returns (locked: bool)
      requires Valid() && me < |agents| && agents[me] == CompleteLock(out)
      modifies this
      ensures Valid() && Went(me)
      ensures locked ==> agents[me] == CompleteSwap(out)
      ensures !locked ==> Blocked()
      ensures old(script) == [] ==>
                && script == [] && (locked <==> old(resultLock) == Free)
                && state == old(state) && joinLock == old(joinLock) && past.winner == old(past.winner)
    {
      locked := AwaitResultLock(Call(me));
      if locked {
        var m := Act(Now().sh, me, agents[me], Go);
        resultLock := Agent(me);
        past, agents := m.sh.past, agents[me := m.pc];
        Commit(Moves(me, Go));
      }
    }

    /** `state.swap(STATE_COMPLETED)`, by a completer or a canceller. */
    method SwapCompleted(me: nat) returns (prev: State)
      requires Valid() && me < |agents| && (agents[me].CompleteSwap? || agents[me].CancelSwap?)
      modifies this
      ensures Valid() && state == COMPLETED
      ensures old(agents)[me].CompleteSwap? ==>
                Moved(me, if prev == COMPLETED then CompleteUnlock(false) else CompleteWrite(old(agents)[me].out))
      ensures old(agents)[me].CancelSwap? ==> Moved(me, if prev == COMPLETED then Rest else CancelDrop)
      ensures prev != COMPLETED ==>
                past.winner == Some(if old(agents)[me].CancelSwap? then Cancelled else old(agents)[me].out)
      ensures old(script) == [] ==> script == [] && prev == old(state) && joinLock == old(joinLock)
    {
      var _ := Others(Call(me));
      var m := Act(Now().sh, me, agents[me], Go);
      prev := state;
      state := COMPLETED;
      past, agents := m.sh.past, agents[me := m.pc];
      Commit(Moves(me, Go));
    }

    method StoreResult(me: nat, out: Outcome)
      requires Valid() && me < |agents| && agents[me] == CompleteWrite(out)
      modifies this
      ensures Valid() && Moved(me, CompleteUnlock(true)) && Untouched()
    {
      var _ := Others(Call(me));
      var m := Act(Now().sh, me, agents[me], Go);
      result := Some(out);
      past, agents := m.sh.past, agents[me := m.pc];
      Commit(Moves(me, Go));
    }

    method UnlockResult(me: nat)
      requires Valid() && me < |agents| && agents[me].CompleteUnlock?
      modifies this
      ensures Valid() && Moved(me, if old(agents)[me].won then JoinTake else Rest)
      ensures old(script) == [] ==> script == [] && joinLock == old(joinLock)
    {
      var _ := Others(Call(me));
      var m := Act(Now().sh, me, agents[me], Go);
      resultLock := Free;
      past, agents := m.sh.past, agents[me := m.pc];
      Commit(Moves(me, Go));
    }

    /** `join_waker.lock().take()`: a waker found keeps the lock until it has been woken. */
    method TakeJoinWaker(me: nat) returns (done: bool, waker: Option<nat>)
      requires Valid() && me < |agents| && agents[me] == JoinTake
      modifies this
      ensures Valid() && Went(me)
      ensures done ==> agents[me] == if waker.Some? then TaskMachine.JoinWake(waker.value) else Rest
      ensures !done ==> Blocked()
      ensures old(script) == [] && old(joinLock) == Free ==> done
    {
      waker := None;
      done := AwaitJoinLock(Call(me));
      if done {
        waker := joinWaker;
        if waker.Some? {
          joinWaker, joinLock := None, Agent(me);
          agents := agents[me := TaskMachine.JoinWake(waker.value)];
        } else {
          agents := agents[me := Rest];
        }
        Commit(Moves(me, Go));
      }
    }

    method Wake(me: nat, waker: nat)
      requires Valid() && me < |agents| && agents[me] == TaskMachine.JoinWake(waker)
      modifies this
      ensures Valid() && Moved(me, Rest)
    {
      var _ := Others(Call(me));
      var m := Act(Now().sh, me, agents[me], Go);
      token := true;
      joinLock := Free;
      past, agents := m.sh.past, agents[me := m.pc];
      Commit(Moves(me, Go));
    }

    method HandOff(me: nat) returns (done: bool)
      requires Valid() && me < |agents| && agents[me] == JoinTake
      modifies this
      ensures Valid() && Went(me)
      ensures done ==> agents[me] == Rest
      ensures !done ==> Blocked()
      ensures old(script) == [] && old(joinLock) == Free ==> done
    {
      var waker;
      done, waker := TakeJoinWaker(me);
      if done && waker.Some? {
        Wake(me, waker.value);
      }
    }

    /** Whoever wins, the task is completed when the call returns. */
    method Complete(me: nat, out: Outcome) returns (done: bool, ghost won: bool)
      requires Valid() && me < |agents| && agents[me] == CompleteLock(out)
      modifies this
      ensures Valid() && Went(me)
      ensures done ==> agents[me] == Rest && state == COMPLETED
      ensures !done ==> Blocked()
      ensures won ==> past.winner == Some(out)
      ensures old(script) == [] && old(state) != COMPLETED && old(resultLock) == Free && old(joinLock) == Free ==>
                done && won
    {
      won := false;
      done := LockResult(me, out);
      if !done {
        return;
      }
      var prev := SwapCompleted(me);
      ghost var swapped := trace;
      won := prev != COMPLETED;
      done := AfterSwap(me, out, prev);
      StaysCompleted(crew, swapped, trace);
    }

    /** The winner of the swap stores its outcome and wakes the joiner; the loser just unlocks. */
    method AfterSwap(me: nat, out: Outcome, prev: State) returns (done: bool)
      requires Valid() && me < |agents|
      requires agents[me] == if prev == COMPLETED then CompleteUnlock(false) else CompleteWrite(out)
      modifies this
      ensures Valid() && Went(me)
      ensures if done then agents[me] == Rest else Blocked()
      ensures old(script) == [] && old(joinLock) == Free ==> done
    {
      if prev != COMPLETED {
        StoreResult(me, out);
        UnlockResult(me);
        done := HandOff(me);
      } else {
        UnlockResult(me);
        done := true;
      }
    }

    // --- run ------------------------------------------------------------------------------------

    /** The last step was the caller's, and it ended a run before the poll: its claim found another
        state than SCHEDULED, or it found the future out. */
    ghost predicate EndedUnpolled(me: nat)
      reads this
    {
      && trace != []
      && var s := RunOf(crew, trace[..|trace| - 1]);
         && me < |s.agents|
         && (|| (s.agents[me] == RunClaim && s.sh.cell.state != SCHEDULED)
             || (s.agents[me] == RunTake && !s.sh.cell.slot))
    }

    /** The claim SCHEDULED -> RUNNING. */
    method Claim(me: nat) returns (ok: bool)
      requires Valid() && me < |agents| && agents[me] == RunClaim
      modifies this
      ensures Valid() && Moved(me, if ok then RunTake else Rest)
      ensures !ok ==> EndedUnpolled(me)
      ensures Alone()
      ensures old(script) == [] ==>
                (ok <==> old(state) == SCHEDULED) && (ok ==> state == RUNNING) && future == old(future)
    {
      var _ := Others(Call(me));
      var m := Act(Now().sh, me, agents[me], Go);
      ghost var before := trace;
      ok := state == SCHEDULED;
      if ok {
        state := RUNNING;
      }
      past, agents := m.sh.past, agents[me := m.pc];
      Commit(Moves(me, Go));
      assert trace[..|trace| - 1] == before;
    }

    method TakeFuture(me: nat) returns (found: bool)
      requires Valid() && me < |agents| && agents[me] == RunTake
      modifies this
      ensures Valid() && Moved(me, if found then RunPoll else Rest)
      ensures !found ==> EndedUnpolled(me)
      ensures Alone()
      ensures old(script) == [] ==> (found <==> old(future)) && state == old(state)
    {
      var _ := Others(Call(me));
      var m := Act(Now().sh, me, agents[me], Go);
      ghost var before := trace;
      found := future;
      future := false;
      past, agents := m.sh.past, agents[me := m.pc];
      Commit(Moves(me, Go));
      assert trace[..|trace| - 1] == before;
    }

    static function Chosen(answer: PollResult): Choice
    {
      match answer
      case Ready(v) => PollReady(v)
      case Panic(p) => PollPanic(p)
      case Pending => PollPending
    }

    /** The poll itself: the future answers whatever it answers. */
    method PollFuture(me: nat, answer: PollResult)
      requires Valid() && me < |agents| && agents[me] == RunPoll
      modifies this
      ensures Valid()
      ensures answer.Pending? ==> Moved(me, RunPublish)
      ensures answer.Ready? ==> Moved(me, RunDrop(Finished(answer.value)))
      ensures answer.Panic? ==> Moved(me, RunDrop(Panicked(answer.payload)))
      ensures Untouched()
    {
      var _ := Others(Call(me));
      var m := Act(Now().sh, me, agents[me], Chosen(answer));
      past, agents := m.sh.past, agents[me := m.pc];
      Commit(Moves(me, Chosen(answer)));
    }

    /** `drop(fut)` before completing. */
    method DropFuture(me: nat, out: Outcome)
      requires Valid() && me < |agents| && agents[me] == RunDrop(out)
      modifies this
      ensures Valid() && Moved(me, CompleteLock(out)) && Untouched()
    {
      var _ := Others(Call(me));
      var m := Act(Now().sh, me, agents[me], Go);
      past, agents := m.sh.past, agents[me := m.pc];
      Commit(Moves(me, Go));
    }

    /** `*future.lock() = ..`: published back by the runner, or cleared by runner or canceller. */
    method AssignFuture(me: nat, present: bool)
      requires Valid() && me < |agents|
      requires if present then agents[me] == RunPublish else agents[me].RunRelease? || agents[me].CancelDrop?
      modifies this
      ensures Valid()
      ensures Moved(me, if present then RunLoad else if old(agents)[me].CancelDrop? then CancelResult else Rest)
      ensures Alone() && (old(script) == [] ==> state == old(state) && future == present)
    {
      var _ := Others(Call(me));
      var m := Act(Now().sh, me, agents[me], Go);
      future := present;
      past, agents := m.sh.past, agents[me := m.pc];
      Commit(Moves(me, Go));
    }

    /** After Pending: publish the future, then leave RUNNING, requeue, or release. */
    method AfterPending(me: nat)
      requires Valid() && me < |agents| && agents[me] == RunPublish
      modifies this
      ensures Valid() && Went(me) && agents[me] == Rest
      ensures old(script) == [] && old(state) == RUNNING ==> state == IDLE && future
    {
      AssignFuture(me, true);
      while true
        invariant Valid() && Went(me) && agents[me] == RunLoad
        invariant old(script) == [] && old(state) == RUNNING ==> script == [] && state == RUNNING && future
        decreases |script|
      {
        var curr := LoadState(me);
        if curr == COMPLETED {
          AssignFuture(me, false);
          return;
        }
        if curr == SCHEDULED {
          Push(me);
          return;
        }
        var ok := ExchangeToIdle(me, curr);
        if ok {
          return;
        }
      }
    }

    /** One run of a popped handle: unless its claim fails or the future is out, it polls, and an
        answer other than Pending leaves the task COMPLETED.  A run that wins the completion does so
        with what its poll answered; and a run that nobody disturbs does win, or leaves the future in
        an idle task. */
    method Run(me: nat, answer: PollResult) returns (done: bool, polled: bool, ghost won: bool)
      requires Valid() && me < |agents| && agents[me] == RunClaim
      modifies this
      ensures Valid() && Went(me)
      ensures if done then agents[me] == Rest else Blocked()
      ensures done && polled && !answer.Pending? ==> state == COMPLETED
      ensures !polled ==> done && EndedUnpolled(me)
      ensures won ==> polled && !answer.Pending?
      ensures won && answer.Ready? ==> past.winner == Some(Finished(answer.value))
      ensures won && answer.Panic? ==> past.winner == Some(Panicked(answer.payload))
      ensures old(Runnable()) ==>
                done && polled && (if answer.Pending? then state == IDLE && future else won)
    {
      won := false;
      polled := Claim(me);
      if polled {
        polled := TakeFuture(me);
      }
      done := true;
      if polled {
        done, won := PollOnce(me, answer);
      }
    }

    /** Scheduled, with its future in the slot, nobody holding a lock, and nobody else acting. */
    predicate Runnable()
      reads this
    {
      script == [] && state == SCHEDULED && future && resultLock == Free && joinLock == Free
    }

    /** What follows the claim: the poll, and what its answer calls for. */
    method PollOnce(me: nat, answer: PollResult) returns (done: bool, ghost won: bool)
      requires Valid() && me < |agents| && agents[me] == RunPoll
      modifies this
      ensures Valid() && Went(me)
      ensures done ==> agents[me] == Rest
      ensures !done ==> Blocked()
      ensures done && !answer.Pending? ==> state == COMPLETED
      ensures won ==> !answer.Pending?
      ensures won && answer.Ready? ==> past.winner == Some(Finished(answer.value))
      ensures won && answer.Panic? ==> past.winner == Some(Panicked(answer.payload))
      ensures old(script) == [] && old(state) == RUNNING && old(resultLock) == Free && old(joinLock) == Free ==>
                done && (if answer.Pending? then state == IDLE && future else won)
    {
      PollFuture(me, answer);
      match answer {
        case Ready(v) => done, won := Conclude(me, Finished(v));
        case Panic(p) => done, won := Conclude(me, Panicked(p));
        case Pending =>
          AfterPending(me);
          done, won := true, false;
      }
    }

    method Conclude(me: nat, out: Outcome) returns (done: bool, ghost won: bool)
      requires Valid() && me < |agents| && agents[me] == RunDrop(out)
      modifies this
      ensures Valid() && Went(me)
      ensures if done then agents[me] == Rest && state == COMPLETED else Blocked()
      ensures won ==> past.winner == Some(out)
      ensures old(script) == [] && old(state) != COMPLETED && old(resultLock) == Free && old(joinLock) == Free ==>
                done && won
    {
      DropFuture(me, out);
      done, won := Complete(me, out);
    }

    // --- cancel and the join handle -------------------------------------------------------------

    /** `*result.lock() = Some(Err(Cancelled))`. */
    method StoreCancelled(me: nat) returns (done: bool)
      requires Valid() && me < |agents| && agents[me] == CancelResult
      modifies this
      ensures Valid() && Went(me)
      ensures done ==> agents[me] == JoinTake
      ensures !done ==> Blocked()
    {
      done := AwaitResultLock(Call(me));
      if done {
        var m := Act(Now().sh, me, agents[me], Go);
        result := Some(Cancelled);
        past, agents := m.sh.past, agents[me := m.pc];
        Commit(Moves(me, Go));
      }
    }

    method Cancel(me: nat) returns (done: bool)
      requires Valid() && me < |agents| && agents[me] == CancelSwap
      modifies this
      ensures Valid() && Went(me)
      ensures done ==> agents[me] == Rest && state == COMPLETED
      ensures !done ==> Blocked()
      ensures old(script) == [] && old(state) != COMPLETED ==> past.winner == Some(Cancelled)
    {
      var prev := SwapCompleted(me);
      ghost var swapped := trace;
      done := true;
      if prev != COMPLETED {
        AssignFuture(me, false);
        done := StoreCancelled(me);
        if done {
          done := HandOff(me);
        }
      }
      StaysCompleted(crew, swapped, trace);
    }

    /** What the owner's own operation changes. */
    twostate predicate OwnerWent(now: JoinOwner)
      reads this
    {
      && old(trace) <= trace
      && crew == old(crew)
      && |script| <= |old(script)|
      && join == now
      && (old(script) == [] ==> token == old(token))
    }

    /** `JoinHandle::poll` begins: the result lock. */
    method LockForPoll() returns (locked: bool)
      requires Valid() && join.at.PollLock?
      modifies this
      ensures Valid() && OwnerWent(if locked then old(join).(at := PollTake) else old(join))
      ensures !locked ==> Blocked()
    {
      locked := AwaitResultLock(JoinHandle);
      if locked {
        resultLock := Owner;
        join := join.(at := PollTake);
        Commit(OwnerMoves(Go));
      }
    }

    method TakeResult() returns (output: Option<Outcome>)
      requires Valid() && join.at.PollTake?
      modifies this
      ensures Valid()
      ensures OwnerWent(if output.Some? then old(join).(at := Away, answers := old(join).answers + [output.value])
                        else old(join).(at := PollLoad))
    {
      var _ := Others(JoinHandle);
      output := result;
      if output.Some? {
        result := None;
        resultLock := Free;
        join := join.(at := Away, answers := join.answers + [output.value]);
      } else {
        join := join.(at := PollLoad);
      }
      Commit(OwnerMoves(Go));
    }

    method LoadForPoll() returns (completed: bool)
      requires Valid() && join.at.PollLoad?
      modifies this
      ensures Valid()
      ensures OwnerWent(if completed then old(join).(at := Away, answers := old(join).answers + [Cancelled])
                        else old(join).(at := PollStore))
    {
      var _ := Others(JoinHandle);
      completed := state == COMPLETED;
      if completed {
        resultLock := Free;
        join := join.(at := Away, answers := join.answers + [Cancelled]);
      } else {
        join := join.(at := PollStore);
      }
      Commit(OwnerMoves(Go));
    }

    method StoreJoinWaker() returns (stored: bool)
      requires Valid() && join.at.PollStore?
      modifies this
      ensures Valid()
      ensures OwnerWent(if stored then old(join).(at := PollUnlock, stored := Some(old(join).polls))
                        else old(join))
      ensures !stored ==> Blocked()
    {
      stored := AwaitJoinLock(JoinHandle);
      if stored {
        joinWaker := Some(join.polls);
        join := join.(at := PollUnlock, stored := Some(join.polls));
        Commit(OwnerMoves(Go));
      }
    }

    method UnlockAfterPoll()
      requires Valid() && join.at.PollUnlock?
      modifies this
      ensures Valid() && OwnerWent(old(join).(at := Parked))
    {
      var _ := Others(JoinHandle);
      resultLock := Free;
      join := join.(at := Parked);
      Commit(OwnerMoves(Go));
    }

    /** One poll of the join handle: Ready with an answer, or Pending (None). */
    method PollJoin() returns (done: bool, answer: Option<Outcome>)
      requires Valid() && join.at.PollLock?
      modifies this
      ensures Valid() && OwnerWent(join)
      ensures done && answer.Some? ==> join.at.Away? && join.answers == old(join).answers + [answer.value]
      ensures done && answer.None? ==> join.at.Parked? && join.answers == old(join).answers
      ensures !done ==> Blocked()
    {
      answer := None;
      done := LockForPoll();
      if !done {
        return;
      }
      answer := TakeResult();
      if answer.Some? {
        return;
      }
      var completed := LoadForPoll();
      if completed {
        return true, Some(Cancelled);
      }
      done := StoreJoinWaker();
      if done {
        UnlockAfterPoll();
      }
    }

    method BeginPoll()
      requires Valid() && join.at.Away?
      modifies this
      ensures Valid() && OwnerWent(NextPoll(old(join)))
    {
      var _ := Others(JoinHandle);
      join := NextPoll(join);
      Commit(OwnerMoves(Go));
    }

    /** `parker.park()`: waits for the token and uses it up. */
    method Park() returns (done: bool)
      requires Valid() && join.at.Parked?
      modifies this
      ensures Valid() && old(trace) <= trace && crew == old(crew) && |script| <= |old(script)|
      ensures done ==> join == NextPoll(old(join))
      ensures done && old(script) == [] ==> old(token) && !token
      ensures done && old(script) != [] ==> |script| < |old(script)|
      ensures !done ==> script == [] && OwnerWent(old(join)) && !token
    {
      while true
        invariant Valid() && OwnerWent(old(join))
        invariant script == old(script) || |script| < |old(script)|
        decreases |script|
      {
        var over := script == [];
        var _ := Others(JoinHandle);
        if token {
          token := false;
          join := NextPoll(join);
          Commit(OwnerMoves(Unparked));
          return true;
        }
        if over {
          return false;
        }
      }
    }

    lemma StillUnwoken()
      requires Valid() && join.at.Parked? && !token
      ensures state != COMPLETED || exists i :: 0 <= i < |agents| && Finishing(agents[i])
    {
      if state == COMPLETED && forall i :: 0 <= i < |agents| ==> !Finishing(agents[i]) {
        JoinWakeNotLost(crew, trace);
      }
    }

    /** `block_on` over the join handle (hypertile-core/src/runtime.rs:374-387): what it returns is
        the outcome of whoever completed the task.  It is cut off only while somebody else holds a
        lock, or the task has not completed, or the call that completed it is still under way. */
    method BlockOn() returns (done: bool, outcome: Option<Outcome>)
      requires Valid() && join.at.Away? && join.answers == []
      modifies this
      ensures Valid() && old(trace) <= trace
      ensures done ==> outcome.Some? && past.winner == outcome && state == COMPLETED
      ensures !done ==> script == []
      ensures !done ==> Blocked() || state != COMPLETED || exists i :: 0 <= i < |agents| && Finishing(agents[i])
    {
      BeginPoll();
      done, outcome := PollJoin();
      while done && outcome.None?
        invariant Valid() && old(trace) <= trace && crew == old(crew)
        invariant done && outcome.None? ==> join.at.Parked? && join.answers == []
        invariant done && outcome.Some? ==> join.answers == [outcome.value]
        invariant !done ==> Blocked()
        decreases |script|, token, done
      {
        done := Park();
        if !done {
          StillUnwoken();
          return;
        }
        done, outcome := PollJoin();
      }
      FirstAnswer(crew, trace);
    }
  }

  /** COMPLETED is never left. */
  lemma StaysCompleted(crew: nat, earlier: seq<Event>, later: seq<Event>)
    requires earlier <= later && RunOf(crew, earlier).sh.cell.state == COMPLETED
    ensures RunOf(crew, later).sh.cell.state == COMPLETED
    ensures RunOf(crew, later).sh.past.winner == RunOf(crew, earlier).sh.past.winner
  {
    var rest := later[|earlier|..];
    assert later == earlier + rest;
    FoldAppend(Step, Spawned(crew), earlier, rest);
    RunInv(crew, earlier);
    CompletionIsFinal(RunOf(crew, earlier), rest);
  }
}

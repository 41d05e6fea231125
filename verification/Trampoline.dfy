/** Stepping a Python coroutine on pool workers (hypertile-sys/src/bilingual.rs:47-201): every
    interleaving of the workers that run the task's handles, the threads that resolve the futures
    it awaits, and a canceller, over an abstract coroutine. */
module Trampoline {
  import opened Prelude

  type FutureId = nat

  /** What a resume sends in. */
  datatype Input = SendNone | Send(value: int) | Throw(exc: int)

  /** What a resume comes back with. */
  datatype Out =
    | Return(value: int)
    | Raise(exc: int)
    | Panic(message: int)
    | YieldNone
    | YieldFuture(f: FutureId)
    | YieldOther               // nothing this executor can drive

  /** How a future ends. */
  datatype Outcome = Resolved(value: int) | Failed(exc: int) | FutureCancelled

  /** What the done callback is given. */
  datatype Final =
    | Finished(value: int)
    | Raised(exc: int)
    | PanicInTask(message: int)
    | CannotDrive
    | TaskCancelled

  /** The coroutine as a function of all its inputs so far, and the outcome of every future. */
  datatype Program = Program(coro: seq<Input> -> Out, outcome: FutureId -> Outcome)

  datatype Pc =
    | Rest
    // run
    | RunLock
    | RunCheck
    | RunTake
    | RunStep(input: Input)
    | RunHook(f: FutureId)
    | RunRequeue
    | RunFinish(final: Final)
    | RunUnlock
    // the callback hooked onto a future
    | Deliver(f: FutureId)
    | Inject

  datatype Shared = Shared(
    alive: bool, pending: Option<Input>, doneCallback: bool, token: bool, lock: Option<nat>,
    queued: nat, hooks: seq<FutureId>,
    // history: the inputs resumed with, who made each resume, and the calls of the done callback
    inputs: seq<Input>, makers: seq<nat>, fired: seq<Final>)

  datatype Sys = Sys(sh: Shared, agents: seq<Pc>)

  datatype Choice = Go | PickHandle | PickHook

  datatype Event = Moves(agent: nat, choice: Choice) | Cancel

  /** What the callback leaves for the next resume; a cancelled future leaves nothing. */
  function Delivered(o: Outcome): Option<Input>
  {
    match o
    case Resolved(v) => Some(Send(v))
    case Failed(e) => Some(Throw(e))
    case FutureCancelled => None
  }

  function Resume(pending: Option<Input>): Input
  {
    if pending.Some? then pending.value else SendNone
  }

  datatype Move = Move(sh: Shared, pc: Pc)

  function AfterStep(out: Out): Pc
  {
    match out
    case Return(v) => RunFinish(Finished(v))
    case Raise(e) => RunFinish(Raised(e))
    case Panic(m) => RunFinish(PanicInTask(m))
    case YieldNone => RunRequeue
    case YieldFuture(f) => RunHook(f)
    case YieldOther => RunFinish(CannotDrive)
  }

  function Act(p: Program, h: Shared, me: nat, pc: Pc, c: Choice): Move
  {
    match pc
    case Rest =>
      if c == PickHandle && h.queued > 0 then Move(h.(queued := h.queued - 1), RunLock)
      else if c == PickHook && h.hooks != [] then Move(h.(hooks := h.hooks[1..]), Deliver(h.hooks[0]))
      else Move(h, Rest)
    case RunLock => if h.lock.Some? then Move(h, pc) else Move(h.(lock := Some(me)), RunCheck)
    case RunCheck =>
      Move(h, if !h.alive then RunUnlock else if h.token then RunFinish(TaskCancelled) else RunTake)
    case RunTake => Move(h.(pending := None), RunStep(Resume(h.pending)))
    case RunStep(input) =>
      var inputs := h.inputs + [input];
      Move(h.(inputs := inputs, makers := h.makers + [me]), AfterStep(p.coro(inputs)))
    case RunHook(f) => Move(h.(hooks := h.hooks + [f]), RunUnlock)
    case RunRequeue => Move(h.(queued := h.queued + 1), RunUnlock)
    case RunFinish(final) =>
      Move(h.(alive := false, doneCallback := false,
              fired := if h.doneCallback then h.fired + [final] else h.fired), RunUnlock)
    case RunUnlock => Move(h.(lock := None), Rest)
    case Deliver(f) =>
      var d := Delivered(p.outcome(f));
      Move(if d.Some? then h.(pending := d) else h, Inject)
    case Inject => Move(h.(queued := h.queued + 1), Rest)
  }

  function Step(p: Program, s: Sys, e: Event): Sys
  {
    match e
    case Moves(i, c) =>
      if i >= |s.agents| then s
      else
        var m := Act(p, s.sh, i, s.agents[i], c);
        Sys(m.sh, s.agents[i := m.pc])
    case Cancel => s.(sh := s.sh.(token := true))
  }

  function Exec(p: Program, s: Sys, schedule: seq<Event>): Sys
  {
    Fold(StepOf(p), s, schedule)
  }

  function StepOf(p: Program): (Sys, Event) -> Sys { (s: Sys, e: Event) => Step(p, s, e) }

  /** A coroutine just spawned: its one handle is queued. */
  function Spawned(agents: nat, hasCallback: bool): Sys
  {
    Sys(Shared(true, None, hasCallback, false, None, 1, [], [], [], []), seq(agents, k => Rest))
  }

  // --- the sequential trampoline --------------------------------------------------------------

  /** What the resume after these inputs is given: nothing at the start and after a bare yield, the
      outcome of the awaited future after a future. */
  function NextInput(p: Program, inputs: seq<Input>): Input
  {
    if inputs == [] then SendNone
    else
      match p.coro(inputs)
      case YieldFuture(f) => Resume(Delivered(p.outcome(f)))
      case _ => SendNone
  }

  predicate Yields(out: Out) { out.YieldNone? || out.YieldFuture? }

  /** The first `n` inputs of a plain loop that resumes the coroutine, awaits what it yields, and
      resumes it with the outcome, until it ends. */
  function Reference(p: Program, n: nat): (inputs: seq<Input>)
    ensures |inputs| <= n
  {
    if n == 0 then []
    else
      var before := Reference(p, n - 1);
      if before == [] || Yields(p.coro(before)) then before + [NextInput(p, before)] else before
  }

  /** How that loop reports the coroutine's end. */
  function Report(out: Out): Final
    requires !Yields(out)
  {
    match out
    case Return(v) => Finished(v)
    case Raise(e) => Raised(e)
    case Panic(m) => PanicInTask(m)
    case YieldOther => CannotDrive
  }

  // --- what every step keeps ------------------------------------------------------------------

  /** The call holds the coroutine's one continuation. */
  predicate Continues(pc: Pc)
  {
    pc.RunLock? || pc.RunCheck? || pc.RunTake? || pc.RunStep? || pc.RunHook? || pc.RunRequeue?
    || pc.RunFinish? || pc.Deliver? || pc.Inject?
  }

  predicate Locks(pc: Pc)
  {
    pc.RunCheck? || pc.RunTake? || pc.RunStep? || pc.RunHook? || pc.RunRequeue? || pc.RunFinish?
    || pc.RunUnlock?
  }

  predicate Stepping(pc: Pc) { Locks(pc) && !pc.RunUnlock? }

  function Continuations(s: Sys): nat
  {
    s.sh.queued + |s.sh.hooks| + Count(s.agents, Continues)
  }

  /** The coroutine has yielded, or not begun, and the next resume is ready to be made. */
  ghost predicate Ready(p: Program, h: Shared)
  {
    && (h.inputs == [] || Yields(p.coro(h.inputs)))
    && Resume(h.pending) == NextInput(p, h.inputs)
  }

  ghost predicate Awaiting(p: Program, h: Shared, f: FutureId)
  {
    h.inputs != [] && p.coro(h.inputs) == YieldFuture(f) && h.pending == None
  }

  ghost predicate Ending(p: Program, h: Shared, final: Final)
  {
    if h.inputs != [] && !Yields(p.coro(h.inputs)) then final == Report(p.coro(h.inputs))
    else final == TaskCancelled && h.token
  }

  ghost predicate PcOk(p: Program, h: Shared, i: nat, pc: Pc)
  {
    && (Locks(pc) <==> h.lock == Some(i))
    && (Continues(pc) ==> h.alive)
    && (pc.RunLock? || pc.RunCheck? || pc.RunTake? || pc.Inject? ==> Ready(p, h))
    && (pc.RunStep? ==> (h.inputs == [] || Yields(p.coro(h.inputs))) && h.pending == None
                        && pc.input == NextInput(p, h.inputs))
    && (pc.RunHook? ==> Awaiting(p, h, pc.f))
    && (pc.Deliver? ==> Awaiting(p, h, pc.f))
    && (pc.RunRequeue? ==> h.inputs != [] && p.coro(h.inputs) == YieldNone && h.pending == None)
    && (pc.RunFinish? ==> Ending(p, h, pc.final))
  }

  ghost predicate Kept(p: Program, h: Shared, hadCallback: bool)
  {
    && h.inputs == Reference(p, |h.inputs|)
    && (h.queued > 0 ==> h.alive && Ready(p, h))
    && (h.hooks != [] ==> h.alive && Awaiting(p, h, h.hooks[0]))
    && (h.alive ==> h.fired == [] && h.doneCallback == hadCallback)
    && (!h.alive ==> |h.fired| == Bit(hadCallback))
    && (h.fired != [] ==> Ending(p, h, h.fired[0]))
  }

  ghost predicate Inv(p: Program, s: Sys, hadCallback: bool)
  {
    && Kept(p, s.sh, hadCallback)
    && Continuations(s) == Bit(s.sh.alive)
    && (forall i :: 0 <= i < |s.agents| ==> PcOk(p, s.sh, i, s.agents[i]))
  }

  lemma ReferenceGrows(p: Program, inputs: seq<Input>)
    requires inputs == Reference(p, |inputs|)
    requires inputs == [] || Yields(p.coro(inputs))
    ensures inputs + [NextInput(p, inputs)] == Reference(p, |inputs| + 1)
  {
  }

  /** A step of the agent that holds the only continuation, or of one that holds none. */
  ghost predicate Before(p: Program, h: Shared, hadCallback: bool, i: nat, pc: Pc, others: nat)
  {
    && Kept(p, h, hadCallback) && PcOk(p, h, i, pc)
    && h.queued + |h.hooks| + Bit(Continues(pc)) + others == Bit(h.alive)
  }

  lemma OwnStep(p: Program, h: Shared, hadCallback: bool, i: nat, pc: Pc, c: Choice, others: nat)
    requires Before(p, h, hadCallback, i, pc, others)
    ensures var m := Act(p, h, i, pc, c); Before(p, m.sh, hadCallback, i, m.pc, others)
  {
    if pc.RunStep? {
      OwnResume(p, h, hadCallback, i, pc, c, others);
    } else if Stepping(pc) {
      OwnHeld(p, h, hadCallback, i, pc, c, others);
    } else {
      OwnFree(p, h, hadCallback, i, pc, c, others);
    }
  }

  lemma OwnResume(p: Program, h: Shared, hadCallback: bool, i: nat, pc: Pc, c: Choice, others: nat)
    requires Before(p, h, hadCallback, i, pc, others) && pc.RunStep?
    ensures var m := Act(p, h, i, pc, c); Before(p, m.sh, hadCallback, i, m.pc, others)
  {
    ReferenceGrows(p, h.inputs);
  }

  lemma OwnHeld(p: Program, h: Shared, hadCallback: bool, i: nat, pc: Pc, c: Choice, others: nat)
    requires Before(p, h, hadCallback, i, pc, others) && Stepping(pc) && !pc.RunStep?
    ensures var m := Act(p, h, i, pc, c); Before(p, m.sh, hadCallback, i, m.pc, others)
  {
  }

  lemma OwnFree(p: Program, h: Shared, hadCallback: bool, i: nat, pc: Pc, c: Choice, others: nat)
    requires Before(p, h, hadCallback, i, pc, others) && !Stepping(pc)
    ensures var m := Act(p, h, i, pc, c); Before(p, m.sh, hadCallback, i, m.pc, others)
  {
  }

  lemma OtherStep(p: Program, h: Shared, hadCallback: bool, i: nat, pc: Pc, c: Choice, k: nat, other: Pc)
    requires Before(p, h, hadCallback, i, pc, Bit(Continues(other))) && k != i && PcOk(p, h, k, other)
    ensures PcOk(p, Act(p, h, i, pc, c).sh, k, other)
  {
  }

  lemma IdleStep(p: Program, h: Shared, i: nat, pc: Pc, c: Choice, k: nat, other: Pc)
    requires PcOk(p, h, i, pc) && k != i && PcOk(p, h, k, other) && !Continues(other)
    ensures PcOk(p, Act(p, h, i, pc, c).sh, k, other)
  {
  }

  lemma AgentStep(p: Program, s: Sys, hadCallback: bool, i: nat, c: Choice)
    requires Inv(p, s, hadCallback) && i < |s.agents|
    ensures Inv(p, Step(p, s, Moves(i, c)), hadCallback)
  {
    var pc := s.agents[i];
    var m := Act(p, s.sh, i, pc, c);
    if Continues(pc) { CountMember(s.agents, i, Continues); }
    var others := Count(s.agents, Continues) - Bit(Continues(pc));
    OwnStep(p, s.sh, hadCallback, i, pc, c, others);
    CountUpdate(s.agents, i, m.pc, Continues);
    forall k | 0 <= k < |s.agents| && k != i
      ensures PcOk(p, m.sh, k, s.agents[k])
    {
      if Continues(s.agents[k]) {
        OnlyContinuation(p, s, hadCallback, k, i);
        OtherStep(p, s.sh, hadCallback, i, pc, c, k, s.agents[k]);
      } else {
        IdleStep(p, s.sh, i, pc, c, k, s.agents[k]);
      }
    }
  }

  lemma OnlyContinuation(p: Program, s: Sys, hadCallback: bool, k: nat, i: nat)
    requires Inv(p, s, hadCallback) && i < |s.agents| && k < |s.agents| && i != k
    requires Continues(s.agents[k])
    ensures Before(p, s.sh, hadCallback, i, s.agents[i], 1)
  {
    CountMember(s.agents, k, Continues);
    CountUnique(s.agents, k, Continues);
  }

  lemma CancelStep(p: Program, s: Sys, hadCallback: bool)
    requires Inv(p, s, hadCallback)
    ensures Inv(p, Step(p, s, Cancel), hadCallback)
  {
    var h' := s.sh.(token := true);
    forall i | 0 <= i < |s.agents|
      ensures PcOk(p, h', i, s.agents[i])
    {
      assert PcOk(p, s.sh, i, s.agents[i]);
    }
  }

  lemma {:induction false} ExecInv(p: Program, s: Sys, hadCallback: bool, schedule: seq<Event>)
    requires Inv(p, s, hadCallback)
    ensures Inv(p, Exec(p, s, schedule), hadCallback)
    decreases |schedule|
  {
    if schedule != [] {
      StepInv(p, s, hadCallback, schedule[0]);
      ExecInv(p, Step(p, s, schedule[0]), hadCallback, schedule[1..]);
    }
  }

  lemma StepInv(p: Program, s: Sys, hadCallback: bool, e: Event)
    requires Inv(p, s, hadCallback)
    ensures Inv(p, Step(p, s, e), hadCallback)
  {
    match e
    case Moves(i, c) => if i < |s.agents| { AgentStep(p, s, hadCallback, i, c); }
    case Cancel => CancelStep(p, s, hadCallback);
  }

  lemma RunInv(p: Program, agents: nat, hasCallback: bool, schedule: seq<Event>)
    ensures Inv(p, Exec(p, Spawned(agents, hasCallback), schedule), hasCallback)
  {
    CountNone(Spawned(agents, hasCallback).agents, Continues);
    ExecInv(p, Spawned(agents, hasCallback), hasCallback, schedule);
  }

  // --- the results ----------------------------------------------------------------------------

  /** Until the coroutine ends exactly one continuation exists, queued, stepping or hooked, and
      none afterwards; and two steps never overlap. */
  lemma OneContinuation(p: Program, agents: nat, hasCallback: bool, schedule: seq<Event>)
    ensures var s := Exec(p, Spawned(agents, hasCallback), schedule);
      && s.sh.queued + |s.sh.hooks| + Count(s.agents, Continues) == (if s.sh.alive then 1 else 0)
      && (forall i, k | 0 <= i < |s.agents| && 0 <= k < |s.agents| ::
            Stepping(s.agents[i]) && Stepping(s.agents[k]) ==> i == k)
      && (!s.sh.alive ==> forall i :: 0 <= i < |s.agents| ==> !Stepping(s.agents[i]))
  {
    var s := Exec(p, Spawned(agents, hasCallback), schedule);
    RunInv(p, agents, hasCallback, schedule);
    forall i, k | 0 <= i < |s.agents| && 0 <= k < |s.agents| && Stepping(s.agents[i]) && Stepping(s.agents[k])
      ensures i == k
    {
      assert PcOk(p, s.sh, i, s.agents[i]) && PcOk(p, s.sh, k, s.agents[k]);
    }
    forall i | 0 <= i < |s.agents| && Stepping(s.agents[i])
      ensures s.sh.alive
    {
      assert PcOk(p, s.sh, i, s.agents[i]);
    }
  }

  /** In every run the inputs of the coroutine are those of the sequential trampoline, so each
      resume delivers the outcome of the future awaited before. */
  lemma RefinesTrampoline(p: Program, agents: nat, hasCallback: bool, schedule: seq<Event>)
    ensures var s := Exec(p, Spawned(agents, hasCallback), schedule);
      s.sh.inputs == Reference(p, |s.sh.inputs|)
  {
    RunInv(p, agents, hasCallback, schedule);
  }

  /** The done callback fires exactly once, when the coroutine has ended, with how it ended: as the
      sequential trampoline reports it, or TaskCancelled after a cancellation request. */
  lemma DoneFiresOnce(p: Program, agents: nat, hasCallback: bool, schedule: seq<Event>)
    ensures var s := Exec(p, Spawned(agents, hasCallback), schedule);
      && |s.sh.fired| == (if s.sh.alive || !hasCallback then 0 else 1)
      && (s.sh.fired != [] ==>
            if s.sh.inputs != [] && !Yields(p.coro(s.sh.inputs)) then
              s.sh.fired == [Report(p.coro(s.sh.inputs))]
            else s.sh.fired == [TaskCancelled] && s.sh.token)
  {
    RunInv(p, agents, hasCallback, schedule);
  }

  /** The exception asyncio throws into a coroutine whose awaited future was cancelled. */
  const CANCELLED_ERROR := -1

  function AsyncioDelivers(o: Outcome): Input
  {
    match o
    case Resolved(v) => Send(v)
    case Failed(e) => Throw(e)
    case FutureCancelled => Throw(CANCELLED_ERROR)
  }

  /** A loop that has not ended after `n` resumes has made its first `k` as well. */
  lemma {:induction false} ReferencePrefix(p: Program, n: nat, k: nat)
    requires k <= n && |Reference(p, n)| == n
    ensures Reference(p, n)[..k] == Reference(p, k) && |Reference(p, k)| == k
  {
    if k < n {
      ReferencePrefix(p, n - 1, k);
      assert Reference(p, n)[..k] == Reference(p, n - 1)[..k];
    }
  }

  /** In every run, a resume after a future delivers the future's outcome as an event loop would
      exactly when the future was not cancelled; a cancelled one resumes the coroutine with None. */
  lemma DeliversUnlessCancelled(p: Program, agents: nat, hasCallback: bool, schedule: seq<Event>, k: nat,
                                f: FutureId)
    requires var inputs := Exec(p, Spawned(agents, hasCallback), schedule).sh.inputs;
      0 < k < |inputs| && p.coro(inputs[..k]) == YieldFuture(f)
    ensures var inputs := Exec(p, Spawned(agents, hasCallback), schedule).sh.inputs;
      && (inputs[k] == AsyncioDelivers(p.outcome(f)) <==> !p.outcome(f).FutureCancelled?)
      && (p.outcome(f).FutureCancelled? ==> inputs[k] == SendNone)
  {
    var inputs := Exec(p, Spawned(agents, hasCallback), schedule).sh.inputs;
    RefinesTrampoline(p, agents, hasCallback, schedule);
    ReferencePrefix(p, |inputs|, k);
    ReferencePrefix(p, |inputs|, k + 1);
    assert inputs[k] == Reference(p, k + 1)[k] == NextInput(p, inputs[..k]);
  }

  /** What each resume is given, case by case: nothing at the start and after a bare yield, the value
      or the exception of the future awaited before, and nothing when that was cancelled. */
  lemma ResumesAre(p: Program, agents: nat, hasCallback: bool, schedule: seq<Event>, k: nat)
    requires k < |Exec(p, Spawned(agents, hasCallback), schedule).sh.inputs|
    ensures var inputs := Exec(p, Spawned(agents, hasCallback), schedule).sh.inputs;
      if k == 0 then inputs[k] == SendNone
      else
        && (p.coro(inputs[..k]) == YieldNone ==> inputs[k] == SendNone)
        && (p.coro(inputs[..k]).YieldFuture? ==>
              match p.outcome(p.coro(inputs[..k]).f)
              case Resolved(v) => inputs[k] == Send(v)
              case Failed(e) => inputs[k] == Throw(e)
              case FutureCancelled => inputs[k] == SendNone)
  {
    var inputs := Exec(p, Spawned(agents, hasCallback), schedule).sh.inputs;
    RefinesTrampoline(p, agents, hasCallback, schedule);
    ReferencePrefix(p, |inputs|, k);
    ReferencePrefix(p, |inputs|, k + 1);
    assert inputs[k] == Reference(p, k + 1)[k] == NextInput(p, inputs[..k]);
  }

  /** How the done callback reports each end. */
  lemma ReportsAre(p: Program, agents: nat, hasCallback: bool, schedule: seq<Event>)
    requires var h := Exec(p, Spawned(agents, hasCallback), schedule).sh; h.fired != [] && h.inputs != []
    ensures var h := Exec(p, Spawned(agents, hasCallback), schedule).sh;
      match p.coro(h.inputs)
      case Return(v) => h.fired == [Finished(v)]
      case Raise(e) => h.fired == [Raised(e)]
      case Panic(m) => h.fired == [PanicInTask(m)]
      case YieldOther => h.fired == [CannotDrive]
      case _ => h.fired == [TaskCancelled]
  {
    DoneFiresOnce(p, agents, hasCallback, schedule);
  }

  // --- cancellation ---------------------------------------------------------------------------

  predicate Resuming(pc: Pc) { pc.RunTake? || pc.RunStep? }

  /** The token is set, and nobody has passed the check of it. */
  ghost predicate CancelSeen(s: Sys)
  {
    s.sh.token && forall i :: 0 <= i < |s.agents| ==> !Resuming(s.agents[i])
  }

  lemma CancelStays(p: Program, s: Sys, e: Event)
    requires CancelSeen(s)
    ensures CancelSeen(Step(p, s, e)) && Step(p, s, e).sh.inputs == s.sh.inputs
  {
  }

  /** Once the token is set and nobody is past the check, the coroutine is never resumed again. */
  lemma {:induction false} NoResumeAfterCancel(p: Program, s: Sys, schedule: seq<Event>)
    requires CancelSeen(s)
    ensures CancelSeen(Exec(p, s, schedule)) && Exec(p, s, schedule).sh.inputs == s.sh.inputs
    decreases |schedule|
  {
    if schedule != [] {
      CancelStays(p, s, schedule[0]);
      NoResumeAfterCancel(p, Step(p, s, schedule[0]), schedule[1..]);
    }
  }

  /** A coroutine that has not ended by then is reported as cancelled, whatever happens. */
  lemma CancelIsReported(p: Program, agents: nat, hasCallback: bool, before: seq<Event>, after: seq<Event>)
    requires var s := Exec(p, Spawned(agents, hasCallback), before);
      CancelSeen(s) && (s.sh.inputs == [] || Yields(p.coro(s.sh.inputs)))
    ensures var t := Exec(p, Spawned(agents, hasCallback), before + after).sh;
      t.fired == [] || t.fired == [TaskCancelled]
    ensures var t := Exec(p, Spawned(agents, hasCallback), before + after).sh;
      !t.alive && hasCallback ==> t.fired == [TaskCancelled]
  {
    FoldAppend(StepOf(p), Spawned(agents, hasCallback), before, after);
    NoResumeAfterCancel(p, Exec(p, Spawned(agents, hasCallback), before), after);
    DoneFiresOnce(p, agents, hasCallback, before + after);
  }
}

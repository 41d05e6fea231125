/** The life of one task (hypertile-core/src/task.rs) under every interleaving of wakers,
    runners, cancellers and the owner of the join handle.

    Every atomic operation and every lock section of the source is one step.  `agents` are the
    calls in flight: a call made from inside another one (a future that wakes itself or cancels
    its own handle while it is polled) is an agent of its own.  The join handle has one owner,
    because it cannot be cloned and is polled by exclusive reference. */
module TaskMachine {
  import opened Prelude

  datatype State = IDLE | SCHEDULED | RUNNING | COMPLETED

  datatype Outcome = Finished(value: int) | Panicked(payload: int) | Cancelled

  /** Where a call stands; the name says which operation comes next. */
  datatype Pc =
    | Rest
    // mark_scheduled and wake_by_ref
    | WakeLoad
    | WakeCas(seen: State)
    | WakePush
    // run
    | RunClaim
    | RunTake
    | RunPoll
    | RunPublish
    | RunLoad
    | RunCas(seen: State)
    | RunRelease
    | RunRequeue
    | RunDrop(out: Outcome)
    // complete
    | CompleteLock(out: Outcome)
    | CompleteSwap(out: Outcome)
    | CompleteWrite(out: Outcome)
    | CompleteUnlock(won: bool)
    // cancel
    | CancelSwap
    | CancelDrop
    | CancelResult
    // the hand-off to the join waker, shared by complete and cancel
    | JoinTake
    | JoinWake(waker: nat)

  /** Where the owner of the join handle stands.  `Parked` follows a poll that returned
      Pending: `block_on` waits there for its token. */
  datatype JoinPc = Away | PollLock | PollTake | PollLoad | PollStore | PollUnlock | Parked

  datatype Holder = Free | Agent(id: nat) | Owner

  /** The shared state of the cell, as the source declares it, with its two locks explicit. */
  datatype Cell = Cell(
    state: State, slot: bool, result: Option<Outcome>, joinWaker: Option<nat>,
    resultLock: Holder, joinLock: Holder)

  /** What has happened so far: futures dropped, who completed the task, writes to the result
      slot, whether a handle was duplicated, whether a wake is still owed a poll, and the polls
      whose waker was woken. */
  datatype Past = Past(
    drops: nat, winner: Option<Outcome>, writes: nat, duplicated: bool, owed: bool, woken: set<nat>)

  /** Everything the agents share: the cell, the handles of this task waiting in some queue, and
      the park token of the join owner. */
  datatype Shared = Shared(cell: Cell, queued: nat, token: bool, past: Past)

  /** The owner of the join handle: where it stands, the number of its current poll, the last
      waker it stored, and the answers it was given. */
  datatype JoinOwner = JoinOwner(at: JoinPc, polls: nat, stored: Option<nat>, answers: seq<Outcome>)

  datatype Sys = Sys(sh: Shared, agents: seq<Pc>, join: JoinOwner)

  /** What a step leaves open: which call an idle agent starts, how a poll ends, whether a weak
      exchange fails for no reason. */
  datatype Choice =
    | Go
    | StartWake | StartRun | StartCancel
    | PollReady(value: int) | PollPanic(payload: int) | PollPending
    | Spurious
    | Unparked

  datatype Event =
    | Moves(agent: nat, choice: Choice)
    | OwnerMoves(choice: Choice)
    | Duplicate   // somebody clones a queued handle, or mints a second one from the cell

  datatype Move = Move(sh: Shared, pc: Pc)

  // --- the operations, one step at a time ---------------------------------------------------

  function WakeStep(h: Shared, pc: Pc, c: Choice): Move
  {
    match pc
    case WakeLoad =>
      if h.cell.state == COMPLETED then Move(h, Rest)
      else if h.cell.state == SCHEDULED then Move(Owe(h, SCHEDULED), Rest)
      else Move(h, WakeCas(h.cell.state))
    case WakeCas(seen) =>
      if h.cell.state != seen || c == Spurious then Move(h, WakeLoad)
      else Move(Owe(h, SCHEDULED), if seen == RUNNING then Rest else WakePush)
    case WakePush => Move(h.(queued := h.queued + 1), Rest)
    case _ => Move(h, pc)
  }

  /** The wake-up takes effect: the state reads SCHEDULED and a poll is owed. */
  function Owe(h: Shared, state: State): Shared
  {
    h.(cell := h.cell.(state := state), past := h.past.(owed := true))
  }

  function RunStep(h: Shared, pc: Pc, c: Choice): Move
  {
    match pc
    case RunClaim =>
      if h.cell.state == SCHEDULED then Move(h.(cell := h.cell.(state := RUNNING)), RunTake)
      else Move(h, Rest)
    case RunTake =>
      if h.cell.slot then
        Move(h.(cell := h.cell.(slot := false), past := h.past.(owed := false)), RunPoll)
      else Move(h, Rest)
    case RunPoll =>
      (match c
       case PollReady(v) => Move(h, RunDrop(Finished(v)))
       case PollPanic(p) => Move(h, RunDrop(Panicked(p)))
       case PollPending => Move(h, RunPublish)
       case _ => Move(h, pc))
    case RunPublish => Move(Put(h, true), RunLoad)
    case RunLoad =>
      Move(h, if h.cell.state == COMPLETED then RunRelease
              else if h.cell.state == SCHEDULED then RunRequeue
              else RunCas(h.cell.state))
    case RunCas(seen) =>
      if h.cell.state != seen || c == Spurious then Move(h, RunLoad)
      else Move(h.(cell := h.cell.(state := IDLE)), Rest)
    case RunRelease => Move(Put(h, false), Rest)
    case RunRequeue => Move(h.(queued := h.queued + 1), Rest)
    case RunDrop(out) => Move(h.(past := h.past.(drops := h.past.drops + 1)), CompleteLock(out))
    case _ => Move(h, pc)
  }

  /** Assigns the future slot; a future already there is dropped. */
  function Put(h: Shared, present: bool): Shared
  {
    h.(cell := h.cell.(slot := present), past := h.past.(drops := h.past.drops + Bit(h.cell.slot)))
  }

  /** A successful swap to COMPLETED. */
  function Win(h: Shared, out: Outcome): Shared
  {
    h.(cell := h.cell.(state := COMPLETED), past := h.past.(winner := Some(out)))
  }

  function Store(h: Shared, out: Outcome): Shared
  {
    h.(cell := h.cell.(result := Some(out)), past := h.past.(writes := h.past.writes + 1))
  }

  function LockResult(h: Shared, holder: Holder): Shared
  {
    h.(cell := h.cell.(resultLock := holder))
  }

  function CompleteStep(h: Shared, me: nat, pc: Pc): Move
  {
    match pc
    case CompleteLock(out) =>
      if h.cell.resultLock != Free then Move(h, pc)
      else Move(LockResult(h, Agent(me)), CompleteSwap(out))
    case CompleteSwap(out) =>
      if h.cell.state == COMPLETED then Move(h, CompleteUnlock(false))
      else Move(Win(h, out), CompleteWrite(out))
    case CompleteWrite(out) => Move(Store(h, out), CompleteUnlock(true))
    case CompleteUnlock(won) => Move(LockResult(h, Free), if won then JoinTake else Rest)
    case _ => Move(h, pc)
  }

  function CancelStep(h: Shared, pc: Pc): Move
  {
    match pc
    case CancelSwap =>
      if h.cell.state == COMPLETED then Move(h, Rest) else Move(Win(h, Cancelled), CancelDrop)
    case CancelDrop => Move(Put(h, false), CancelResult)
    case CancelResult =>
      if h.cell.resultLock != Free then Move(h, pc) else Move(Store(h, Cancelled), JoinTake)
    case _ => Move(h, pc)
  }

  function HandOffStep(h: Shared, me: nat, pc: Pc): Move
  {
    match pc
    case JoinTake =>
      if h.cell.joinLock != Free then Move(h, pc)
      else if h.cell.joinWaker.None? then Move(h, Rest)
      else Move(h.(cell := h.cell.(joinWaker := None, joinLock := Agent(me))),
                JoinWake(h.cell.joinWaker.value))
    case JoinWake(w) =>
      Move(h.(cell := h.cell.(joinLock := Free), token := true,
              past := h.past.(woken := h.past.woken + {w})), Rest)
    case _ => Move(h, pc)
  }

  function StartStep(h: Shared, c: Choice): Move
  {
    match c
    case StartWake => Move(h, WakeLoad)
    case StartRun =>
      if h.queued > 0 then Move(h.(queued := h.queued - 1), RunClaim) else Move(h, Rest)
    case StartCancel => Move(h, CancelSwap)
    case _ => Move(h, Rest)
  }

  function Act(h: Shared, me: nat, pc: Pc, c: Choice): Move
  {
    match pc
    case Rest => StartStep(h, c)
    case WakeLoad | WakeCas(_) | WakePush => WakeStep(h, pc, c)
    case RunClaim | RunTake | RunPoll | RunPublish | RunLoad | RunCas(_) | RunRelease
       | RunRequeue | RunDrop(_) => RunStep(h, pc, c)
    case CompleteLock(_) | CompleteSwap(_) | CompleteWrite(_) | CompleteUnlock(_) =>
      CompleteStep(h, me, pc)
    case CancelSwap | CancelDrop | CancelResult => CancelStep(h, pc)
    case JoinTake | JoinWake(_) => HandOffStep(h, me, pc)
  }

  datatype OwnerMove = OwnerMove(sh: Shared, join: JoinOwner)

  function NextPoll(j: JoinOwner): JoinOwner
  {
    j.(at := PollLock, polls := j.polls + 1)
  }

  /** The owner polls the join handle; after Pending it polls again when it likes (`Go`), or as
      `block_on` does, when its parker holds a token (`Unparked`). */
  function OwnerAct(h: Shared, j: JoinOwner, c: Choice): OwnerMove
  {
    match j.at
    case Away => OwnerMove(h, NextPoll(j))
    case PollLock =>
      if h.cell.resultLock != Free then OwnerMove(h, j)
      else OwnerMove(LockResult(h, Owner), j.(at := PollTake))
    case PollTake =>
      if h.cell.result.Some? then
        OwnerMove(h.(cell := h.cell.(result := None, resultLock := Free)),
                  j.(at := Away, answers := j.answers + [h.cell.result.value]))
      else OwnerMove(h, j.(at := PollLoad))
    case PollLoad =>
      if h.cell.state == COMPLETED then
        OwnerMove(LockResult(h, Free), j.(at := Away, answers := j.answers + [Cancelled]))
      else OwnerMove(h, j.(at := PollStore))
    case PollStore =>
      if h.cell.joinLock != Free then OwnerMove(h, j)
      else OwnerMove(h.(cell := h.cell.(joinWaker := Some(j.polls))),
                     j.(at := PollUnlock, stored := Some(j.polls)))
    case PollUnlock => OwnerMove(LockResult(h, Free), j.(at := Parked))
    case Parked =>
      if c != Unparked then OwnerMove(h, NextPoll(j))
      else if h.token then OwnerMove(h.(token := false), NextPoll(j))
      else OwnerMove(h, j)
  }

  function Step(s: Sys, e: Event): Sys
  {
    match e
    case Moves(i, c) =>
      if i >= |s.agents| then s
      else
        var m := Act(s.sh, i, s.agents[i], c);
        s.(sh := m.sh, agents := s.agents[i := m.pc])
    case OwnerMoves(c) =>
      var m := OwnerAct(s.sh, s.join, c);
      s.(sh := m.sh, join := m.join)
    case Duplicate =>
      s.(sh := s.sh.(queued := s.sh.queued + 1, past := s.sh.past.(duplicated := true)))
  }

  function Exec(s: Sys, schedule: seq<Event>): Sys
  {
    Fold(Step, s, schedule)
  }

  /** A fresh task: SCHEDULED, the future in its slot, and its one handle about to be pushed by
      the agent that spawned it. */
  function Spawned(others: nat): Sys
  {
    Sys(Shared(Cell(SCHEDULED, true, None, None, Free, Free), 0, false,
               Past(0, None, 0, false, true, {})),
        [WakePush] + seq(others, k => Rest),
        JoinOwner(Away, 0, None, []))
  }

  // --- roles of the program counters ---------------------------------------------------------

  /** The call holds the task's right to be queued or run. */
  predicate HoldsHandle(pc: Pc)
  {
    pc.WakePush? || pc.RunClaim? || pc.RunTake? || pc.RunPoll? || pc.RunPublish? || pc.RunLoad?
    || pc.RunCas? || pc.RunRequeue? || pc.RunDrop? || pc.CompleteLock? || pc.CompleteSwap?
  }

  predicate HoldsFuture(pc: Pc) { pc.RunPoll? || pc.RunPublish? || pc.RunDrop? }

  /** The call won the completion and has not stored the result yet. */
  predicate OwesResult(pc: Pc) { pc.CompleteWrite? || pc.CancelDrop? || pc.CancelResult? }

  predicate OwesHandOff(pc: Pc) { pc == CompleteUnlock(true) || pc.JoinTake? }

  predicate MayClear(pc: Pc) { pc.CancelDrop? || pc.RunLoad? || pc.RunCas? || pc.RunRelease? }

  predicate InComplete(pc: Pc) { pc.CompleteSwap? || pc.CompleteWrite? || pc.CompleteUnlock? }

  predicate Finishing(pc: Pc) { OwesResult(pc) || OwesHandOff(pc) || pc.JoinWake? }

  predicate OwnerLocks(join: JoinPc)
  {
    join == PollTake || join == PollLoad || join == PollStore || join == PollUnlock
  }

  predicate Polling(join: JoinPc)
  {
    join == PollLock || join == PollTake || join == PollLoad || join == PollStore
  }
}

/** The hand-shake between a C ABI task and the calls that wait for it or poll it
    (hypertile-capi/src/lib.rs:114-252), for any number of calls and every interleaving. */
module CapiWait {
  import opened Prelude

  datatype Res = Returned(address: int) | Panic(message: int)

  datatype Status = Ok | Pending | ErrPanic | ErrNotInitialized

  /** What a call answers, with what it leaves in `*out_result` (None: untouched). */
  datatype Answer = Answer(status: Status, out: Option<int>)

  datatype ProducerPc =
    | Work
    | StoreResult(res: Res)
    | SetDone
    | Take
    | Unpark(hand: seq<nat>)
    | Finished

  datatype CallPc =
    | Start
    // hypertile_wait
    | WaitLoad
    | WaitLock
    | WaitCheck        // holding the unparkers lock
    | WaitPush         // still holding it, having read not done
    | WaitLoop
    | WaitPark
    | WaitRead
    // hypertile_poll
    | PollLoad
    | PollRead
    | Answered(answer: Answer)

  datatype Shared = Shared(
    result: Option<Res>, done: bool, unparkers: seq<nat>, lock: Option<nat>, tokens: set<nat>,
    // history: the calls that ever registered an unparker, and the unparks delivered in order
    pushed: set<nat>, delivered: seq<nat>)

  datatype Sys = Sys(sh: Shared, producer: ProducerPc, calls: seq<CallPc>)

  datatype Choice = Go | Wait | Poll | Spurious

  datatype Event = ProducerMoves(res: Res) | CallMoves(c: nat, choice: Choice)

  /** The answer both calls give when they read this result. */
  function Reading(result: Option<Res>, missing: Status): Answer
  {
    match result
    case Some(Returned(a)) => Answer(Ok, Some(a))
    case Some(Panic(_)) => Answer(ErrPanic, None)
    case None => Answer(missing, None)
  }

  datatype ProducerMove = ProducerMove(sh: Shared, at: ProducerPc)

  function ProducerAct(h: Shared, at: ProducerPc, res: Res): ProducerMove
  {
    match at
    case Work => ProducerMove(h, StoreResult(res))
    case StoreResult(r) => ProducerMove(h.(result := Some(r)), SetDone)
    case SetDone => ProducerMove(h.(done := true), Take)
    case Take =>
      if h.lock.Some? then ProducerMove(h, at)
      else ProducerMove(h.(unparkers := []), Unpark(h.unparkers))
    case Unpark(hand) =>
      if hand == [] then ProducerMove(h, Finished)
      else ProducerMove(h.(tokens := h.tokens + {hand[0]}, delivered := h.delivered + [hand[0]]),
                        Unpark(hand[1..]))
    case Finished => ProducerMove(h, at)
  }

  datatype CallMove = CallMove(sh: Shared, at: CallPc)

  function CallAct(h: Shared, me: nat, at: CallPc, c: Choice): CallMove
  {
    match at
    case Start =>
      CallMove(h, if c == Wait then WaitLoad else if c == Poll then PollLoad else Start)
    case WaitLoad => CallMove(h, if h.done then WaitRead else WaitLock)
    case WaitLock =>
      if h.lock.Some? then CallMove(h, at) else CallMove(h.(lock := Some(me)), WaitCheck)
    case WaitCheck =>
      if h.done then CallMove(h.(lock := None), WaitLoop) else CallMove(h, WaitPush)
    case WaitPush =>
      CallMove(h.(unparkers := h.unparkers + [me], lock := None, pushed := h.pushed + {me}), WaitLoop)
    case WaitLoop => CallMove(h, if h.done then WaitRead else WaitPark)
    case WaitPark =>
      if me in h.tokens then CallMove(h.(tokens := h.tokens - {me}), WaitLoop)
      else CallMove(h, if c == Spurious then WaitLoop else WaitPark)
    case WaitRead => CallMove(h, Answered(Reading(h.result, ErrNotInitialized)))
    case PollLoad => CallMove(h, if h.done then PollRead else Answered(Answer(Pending, None)))
    case PollRead => CallMove(h, Answered(Reading(h.result, Pending)))
    case Answered(_) => CallMove(h, at)
  }

  function Step(s: Sys, e: Event): Sys
  {
    match e
    case ProducerMoves(res) =>
      var m := ProducerAct(s.sh, s.producer, res);
      s.(sh := m.sh, producer := m.at)
    case CallMoves(c, choice) =>
      if c >= |s.calls| then s
      else
        var m := CallAct(s.sh, c, s.calls[c], choice);
        s.(sh := m.sh, calls := s.calls[c := m.at])
  }

  function Exec(s: Sys, schedule: seq<Event>): Sys
  {
    Fold(Step, s, schedule)
  }

  function Spawned(calls: nat): Sys
  {
    Sys(Shared(None, false, [], None, {}, {}, []), Work, seq(calls, k => Start))
  }

  // --- what every step keeps ------------------------------------------------------------------

  function Hand(p: ProducerPc): (q: seq<nat>)
  {
    if p.Unpark? then p.hand else []
  }

  predicate HoldsLock(at: CallPc) { at.WaitCheck? || at.WaitPush? }

  predicate NotPushed(at: CallPc)
  {
    at.Start? || at.WaitLoad? || at.WaitLock? || at.WaitCheck? || at.WaitPush? || at.PollLoad?
    || at.PollRead?
  }

  predicate ProducerOk(h: Shared, p: ProducerPc)
  {
    && (h.done <==> p.Take? || p.Unpark? || p.Finished?)
    && (h.result.Some? <==> h.done || p.SetDone?)
    && (p.Unpark? || p.Finished? ==> h.unparkers == [])
    && (h.delivered != [] || h.tokens != {} ==> h.done)
  }

  predicate CallOk(h: Shared, p: ProducerPc, me: nat, at: CallPc)
  {
    && (HoldsLock(at) <==> h.lock == Some(me))
    && (NotPushed(at) ==> me !in h.pushed)
    && (at.WaitPush? ==> !p.Unpark? && !p.Finished?)
    && (at.WaitLoop? ==> me in h.pushed || h.done)
    && (at.WaitPark? ==> me in h.pushed)
    && (at.WaitPark? && me in h.delivered ==> me in h.tokens)
    && (at.WaitRead? || at.PollRead? ==> h.done)
    && (at.Answered? ==> at.answer.status != ErrNotInitialized)
    && (at.Answered? && at.answer.status != Pending ==>
          h.done && at.answer == Reading(h.result, ErrNotInitialized))
  }

  /** Each registration is in the list, in the producer's hand, or delivered: one of them, once. */
  predicate Once(h: Shared, p: ProducerPc, w: nat)
  {
    Times(h.unparkers, w) + Times(Hand(p), w) + Times(h.delivered, w) == Bit(w in h.pushed)
  }

  ghost predicate Inv(s: Sys)
  {
    && ProducerOk(s.sh, s.producer)
    && (forall c :: 0 <= c < |s.calls| ==> CallOk(s.sh, s.producer, c, s.calls[c]))
    && (forall w :: Once(s.sh, s.producer, w))
  }

  lemma ProducerStepInv(s: Sys, res: Res)
    requires Inv(s)
    ensures Inv(Step(s, ProducerMoves(res)))
  {
    var s' := Step(s, ProducerMoves(res));
    forall c | 0 <= c < |s.calls|
      ensures CallOk(s'.sh, s'.producer, c, s'.calls[c])
    {
      assert CallOk(s.sh, s.producer, c, s.calls[c]);
    }
    forall w
      ensures Once(s'.sh, s'.producer, w)
    {
      assert Once(s.sh, s.producer, w);
      if s.producer.Unpark? && s.producer.hand != [] {
        TimesTail(s.producer.hand, w);
      }
    }
  }

  lemma CallLocal(h: Shared, p: ProducerPc, me: nat, at: CallPc, c: Choice)
    requires ProducerOk(h, p) && CallOk(h, p, me, at) && Once(h, p, me)
    ensures var m := CallAct(h, me, at, c);
      ProducerOk(m.sh, p) && CallOk(m.sh, p, me, m.at)
  {
  }

  lemma CallOther(h: Shared, p: ProducerPc, me: nat, at: CallPc, c: Choice, o: nat, other: CallPc)
    requires CallOk(h, p, me, at) && CallOk(h, p, o, other) && o != me
    ensures CallOk(CallAct(h, me, at, c).sh, p, o, other)
  {
  }

  lemma CallStepInv(s: Sys, c: nat, choice: Choice)
    requires Inv(s) && c < |s.calls|
    ensures Inv(Step(s, CallMoves(c, choice)))
  {
    var m := CallAct(s.sh, c, s.calls[c], choice);
    assert Once(s.sh, s.producer, c);
    CallLocal(s.sh, s.producer, c, s.calls[c], choice);
    forall o | 0 <= o < |s.calls| && o != c
      ensures CallOk(m.sh, s.producer, o, s.calls[o])
    {
      CallOther(s.sh, s.producer, c, s.calls[c], choice, o, s.calls[o]);
    }
    forall w
      ensures Once(m.sh, s.producer, w)
    {
      assert Once(s.sh, s.producer, w);
    }
  }

  lemma StepInv(s: Sys, e: Event)
    requires Inv(s)
    ensures Inv(Step(s, e))
  {
    match e
    case ProducerMoves(res) => ProducerStepInv(s, res);
    case CallMoves(c, choice) => if c < |s.calls| { CallStepInv(s, c, choice); }
  }

  lemma {:induction false} ExecInv(s: Sys, schedule: seq<Event>)
    requires Inv(s)
    ensures Inv(Exec(s, schedule))
    decreases |schedule|
  {
    if schedule != [] {
      StepInv(s, schedule[0]);
      ExecInv(Step(s, schedule[0]), schedule[1..]);
    }
  }

  // --- the results ----------------------------------------------------------------------------

  lemma RunInv(calls: nat, schedule: seq<Event>)
    ensures Inv(Exec(Spawned(calls), schedule))
  {
    ExecInv(Spawned(calls), schedule);
  }

  /** done is set only over a stored result. */
  lemma DoneMeansStored(calls: nat, schedule: seq<Event>)
    ensures var s := Exec(Spawned(calls), schedule); s.sh.done ==> s.sh.result.Some?
  {
    RunInv(calls, schedule);
  }

  /** Nobody is unparked twice or without having registered; and once the producer has finished,
      every registered unparker has been drained and unparked exactly once, and a call that is
      still parked holds its token. */
  lemma DrainedExactlyOnce(calls: nat, schedule: seq<Event>)
    ensures var s := Exec(Spawned(calls), schedule);
      && (forall w :: Times(s.sh.delivered, w) <= Bit(w in s.sh.pushed))
      && (s.producer.Finished? ==>
            && s.sh.unparkers == []
            && (forall w :: Times(s.sh.delivered, w) == Bit(w in s.sh.pushed))
            && (forall c :: 0 <= c < |s.calls| && s.calls[c].WaitPark? ==> c in s.sh.tokens))
  {
    var s := Exec(Spawned(calls), schedule);
    RunInv(calls, schedule);
    forall w
      ensures Times(s.sh.delivered, w) <= Bit(w in s.sh.pushed)
      ensures s.producer.Finished? ==> Times(s.sh.delivered, w) == Bit(w in s.sh.pushed)
    {
      assert Once(s.sh, s.producer, w);
    }
    if s.producer.Finished? {
      forall c | 0 <= c < |s.calls| && s.calls[c].WaitPark?
        ensures c in s.sh.tokens
      {
        assert CallOk(s.sh, s.producer, c, s.calls[c]) && Once(s.sh, s.producer, c);
      }
    }
  }

  /** A finished call never answers ErrNotInitialized; a wait, or a poll that saw done, answers Ok with
      the address the work returned, or ErrPanic with the output untouched when it panicked. */
  lemma AnswersAreTheResult(calls: nat, schedule: seq<Event>, c: nat)
    requires c < |Exec(Spawned(calls), schedule).calls|
    ensures var s := Exec(Spawned(calls), schedule);
      s.calls[c].Answered? ==>
        && s.calls[c].answer.status != ErrNotInitialized
        && (s.calls[c].answer.status != Pending ==>
              && s.sh.result.Some?
              && (s.sh.result.value.Returned? ==> s.calls[c].answer == Answer(Ok, Some(s.sh.result.value.address)))
              && (s.sh.result.value.Panic? ==> s.calls[c].answer == Answer(ErrPanic, None)))
  {
    var s := Exec(Spawned(calls), schedule);
    RunInv(calls, schedule);
    assert CallOk(s.sh, s.producer, c, s.calls[c]);
  }

  /** Pending is never answered by a wait, nor by a poll that starts after done. */
  lemma PendingOnlyBefore(s: Sys, c: nat, choice: Choice)
    requires Inv(s) && c < |s.calls|
    requires !s.calls[c].Answered?
    requires var at := Step(s, CallMoves(c, choice)).calls[c]; at.Answered? && at.answer.status == Pending
    ensures s.calls[c].PollLoad? && !s.sh.done
  {
    assert CallOk(s.sh, s.producer, c, s.calls[c]);
  }

  /** Once the work is done a call is never held up: a poll answers in three steps, a wait in three. */
  lemma AnswersAtOnce(calls: nat, schedule: seq<Event>, c: nat)
    requires var s := Exec(Spawned(calls), schedule); s.sh.done && c < |s.calls| && s.calls[c].Start?
    ensures var s := Exec(Spawned(calls), schedule);
      var polled := Exec(s, [CallMoves(c, Poll), CallMoves(c, Go), CallMoves(c, Go)]);
      var waited := Exec(s, [CallMoves(c, Wait), CallMoves(c, Go), CallMoves(c, Go)]);
      && s.sh.result.Some?
      && polled.calls == waited.calls == s.calls[c := Answered(match s.sh.result.value
                                                               case Returned(a) => Answer(Ok, Some(a))
                                                               case Panic(_) => Answer(ErrPanic, None))]
  {
    var s := Exec(Spawned(calls), schedule);
    RunInv(calls, schedule);
    Fold3(Step, s, CallMoves(c, Poll), CallMoves(c, Go), CallMoves(c, Go));
    Fold3(Step, s, CallMoves(c, Wait), CallMoves(c, Go), CallMoves(c, Go));
  }

  /** A call that waits too early registers, and then sleeps, once the lock is free. */
  lemma WaitRegisters(s: Sys, c: nat)
    requires c < |s.calls| && s.calls[c].WaitLock? && !s.sh.done && s.sh.lock.None?
    ensures var s' := Exec(s, [CallMoves(c, Go), CallMoves(c, Go), CallMoves(c, Go), CallMoves(c, Go)]);
      s'.calls == s.calls[c := WaitPark] && s'.sh.unparkers == s.sh.unparkers + [c] && s'.sh.lock.None?
  {
    Fold4(Step, s, CallMoves(c, Go), CallMoves(c, Go), CallMoves(c, Go), CallMoves(c, Go));
  }

  /** A parked waiter looks again when it holds a token, which it gives up, or for no reason. */
  lemma ParkEnds(s: Sys, c: nat, choice: Choice)
    requires c < |s.calls| && s.calls[c].WaitPark?
    ensures var s' := Step(s, CallMoves(c, choice));
      && s'.sh == s.sh.(tokens := s.sh.tokens - {c})
      && s'.calls == s.calls[c := if c in s.sh.tokens || choice == Spurious then WaitLoop else WaitPark]
  {
    if c !in s.sh.tokens { assert s.sh.tokens - {c} == s.sh.tokens; }
  }
}

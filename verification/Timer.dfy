/** The timer driver and the sleeps it wakes (hypertile-core/src/timer.rs:81-142 and 158-205), under
    every interleaving and any advance of a monotone clock.

    Only the driver holds the state lock across steps; a registration is one lock section.  The
    heap is the set of sleeps with an entry in it (a sleep registers once); TimerHeap has the heap's
    order. */
module Timer {
  import opened Prelude

  type Instant = nat    // microseconds on the monotone clock
  type Waker = nat

  /** How far before its deadline a poll may already answer Ready. */
  const EARLY: Instant := 50

  datatype SleepPc =
    | New               // not polled yet
    | ReadClock         // a poll has begun
    | SetSlot           // it read a clock well before the deadline
    | Register          // the first such poll still has to register
    | Waiting           // the last poll returned Pending
    | ClearSlot(ready: bool)   // it read a clock at or near the deadline, or the sleep is dropped
    | Over(ready: bool)        // answered Ready, or dropped

  /** `waker` is the one the current poll was given, `slot` the shared waker slot; history: whether
      some poll passed another waker than the one before, whether the waker has been woken since the
      current poll began, the clock reading of the last poll, and the clock when it answered Ready. */
  datatype Sleep = Sleep(
    deadline: Instant, slot: Option<Waker>, registered: bool, pc: SleepPc, waker: Option<Waker>,
    changed: bool, woken: bool, read: Option<Instant>, answered: Option<Instant>)

  datatype Firing = Firing(sleep: nat, waker: Waker)

  datatype DriverPc =
    | Top
    | Popping(now: Instant, expired: seq<Firing>)
    | Taking(now: Instant, expired: seq<Firing>, entry: nat)
    | Waking(expired: seq<Firing>)
    | After
    | Peek
    | Wait(readAt: Instant, timeout: Option<nat>)     // about to wait on the condvar
    | Blocked(readAt: Instant, timeout: Option<nat>, since: Instant, notified: bool)
    | Relock
    | Ended

  datatype Sys = Sys(
    clock: Instant, shutdown: bool, heap: set<nat>, driver: DriverPc, sleeps: seq<Sleep>)

  datatype Event =
    | Tick(elapsed: nat)
    | DriverMoves(entry: nat, spurious: bool)
    | SleepMoves(i: nat)
    | Poll(i: nat, waker: Waker)
    | Drop(i: nat)
    | Shutdown

  predicate Holds(d: DriverPc)
  {
    d.Top? || d.Popping? || d.Taking? || d.After? || d.Peek? || d.Wait?
  }

  predicate Due(s: Sys, i: nat, now: Instant) { i in s.heap && i < |s.sleeps| && s.sleeps[i].deadline <= now }

  /** `i` may be what `heap.peek()` answers. */
  ghost predicate Earliest(s: Sys, i: nat)
  {
    i in s.heap && i < |s.sleeps|
    && forall k :: k in s.heap && k < |s.sleeps| ==> s.sleeps[i].deadline <= s.sleeps[k].deadline
  }

  function SetSleep(s: Sys, i: nat, sl: Sleep): Sys
    requires i < |s.sleeps|
  {
    s.(sleeps := s.sleeps[i := sl])
  }

  /** The clock minus, saturating. */
  function Until(deadline: Instant, now: Instant): nat
  {
    if deadline <= now then 0 else deadline - now
  }

  ghost function DriverStep(s: Sys, entry: nat, spurious: bool): Sys
  {
    match s.driver
    case Top => s.(driver := if s.shutdown then Ended else Popping(s.clock, []))
    case Popping(now, expired) =>
      if Earliest(s, entry) && s.sleeps[entry].deadline <= now then
        s.(heap := s.heap - {entry}, driver := Taking(now, expired, entry))
      else if forall k :: k in s.heap ==> !Due(s, k, now) then
        s.(driver := if expired != [] then Waking(expired) else After)
      else s
    case Taking(now, expired, e) =>
      if e >= |s.sleeps| then s
      else
        var slot := s.sleeps[e].slot;
        SetSleep(s, e, s.sleeps[e].(slot := None)).(
          driver := Popping(now, if slot.Some? then expired + [Firing(e, slot.value)] else expired))
    case Waking(expired) =>
      // the lock was dropped; it is taken again after the last wake
      if expired == [] then s.(driver := After)
      else
        var f := expired[0];
        var rest := s.(driver := Waking(expired[1..]));
        if f.sleep < |s.sleeps| && s.sleeps[f.sleep].waker == Some(f.waker) then
          SetSleep(rest, f.sleep, s.sleeps[f.sleep].(woken := true))
        else rest
    case After => s.(driver := if s.shutdown then Ended else Peek)
    case Peek =>
      if Earliest(s, entry) then
        var timeout := Until(s.sleeps[entry].deadline, s.clock);
        s.(driver := if timeout == 0 then Top else Wait(s.clock, Some(timeout)))
      else if s.heap == {} then s.(driver := Wait(s.clock, None))
      else s
    case Wait(readAt, timeout) => s.(driver := Blocked(readAt, timeout, s.clock, false))
    case Blocked(readAt, timeout, since, notified) =>
      if notified || spurious || (timeout.Some? && since + timeout.value <= s.clock) then
        s.(driver := Relock)
      else s
    case Relock => s.(driver := Top)
    case Ended => s
  }

  function Notify(d: DriverPc): DriverPc
  {
    if d.Blocked? then d.(notified := true) else d
  }

  function SleepStep(s: Sys, i: nat): Sys
    requires i < |s.sleeps|
  {
    var sl := s.sleeps[i];
    match sl.pc
    case ReadClock =>
      SetSleep(s, i, sl.(read := Some(s.clock),
                         pc := if sl.deadline <= s.clock || Until(sl.deadline, s.clock) <= EARLY
                               then ClearSlot(true) else SetSlot))
    case SetSlot => SetSleep(s, i, sl.(slot := sl.waker, pc := if sl.registered then Waiting else Register))
    case Register =>
      if Holds(s.driver) then s
      else
        SetSleep(s, i, sl.(registered := true, pc := Waiting)).(
          heap := s.heap + {i}, driver := Notify(s.driver))
    case ClearSlot(ready) =>
      SetSleep(s, i, sl.(slot := None, pc := Over(ready), answered := if ready then Some(s.clock) else None))
    case _ => s
  }

  ghost function Step(s: Sys, e: Event): Sys
  {
    match e
    case Tick(n) => s.(clock := s.clock + n)
    case DriverMoves(entry, spurious) => DriverStep(s, entry, spurious)
    case SleepMoves(i) => if i < |s.sleeps| then SleepStep(s, i) else s
    case Poll(i, w) =>
      if i < |s.sleeps| && (s.sleeps[i].pc.New? || s.sleeps[i].pc.Waiting?) then
        var sl := s.sleeps[i];
        SetSleep(s, i, sl.(pc := ReadClock, waker := Some(w), woken := false,
                           changed := sl.changed || (sl.waker.Some? && sl.waker != Some(w))))
      else s
    case Drop(i) =>
      if i < |s.sleeps| && (s.sleeps[i].pc.New? || s.sleeps[i].pc.Waiting?) then
        SetSleep(s, i, s.sleeps[i].(pc := ClearSlot(false)))
      else s
    case Shutdown =>
      if Holds(s.driver) then s else s.(shutdown := true, driver := Notify(s.driver))
  }

  ghost function Exec(s: Sys, schedule: seq<Event>): Sys
  {
    Fold(Step, s, schedule)
  }

  function Unpolled(deadline: Instant): Sleep
  {
    Sleep(deadline, None, false, New, None, false, false, None, None)
  }

  function Started(deadlines: seq<Instant>): Sys
  {
    Sys(0, false, {}, Relock,
        seq(|deadlines|, i requires 0 <= i < |deadlines| => Unpolled(deadlines[i])))
  }

  // --- what every step keeps ------------------------------------------------------------------

  function Expired(d: DriverPc): seq<Firing>
  {
    if d.Popping? || d.Taking? || d.Waking? then d.expired else []
  }

  predicate DriverOk(s: Sys)
  {
    && (forall f :: f in Expired(s.driver) ==> f.sleep < |s.sleeps| && s.sleeps[f.sleep].deadline <= s.clock)
    && (s.driver.Popping? || s.driver.Taking? ==> s.driver.now <= s.clock)
    && (s.driver.Taking? ==> s.driver.entry < |s.sleeps| && s.sleeps[s.driver.entry].deadline <= s.clock)
    && (s.driver.Ended? ==> s.shutdown)
    && (s.driver.Wait? ==> Covers(s, s.driver.readAt, s.driver.timeout))
    && (s.driver.Blocked? ==> s.driver.notified || Covers(s, s.driver.readAt, s.driver.timeout))
  }

  /** The timeout, counted from the clock reading it was computed from, ends no later than any
      deadline in the heap; without a timeout the heap is empty. */
  predicate Covers(s: Sys, readAt: Instant, timeout: Option<nat>)
  {
    forall i :: i in s.heap && i < |s.sleeps| ==>
      timeout.Some? && readAt + timeout.value <= s.sleeps[i].deadline
  }

  /** The waker of a sleep that awaits its deadline is on its way or still reachable. */
  predicate Reachable(s: Sys, i: nat)
    requires i < |s.sleeps|
  {
    var sl := s.sleeps[i];
    || InHeap(s, i)
    || (sl.waker.Some? && Firing(i, sl.waker.value) in Expired(s.driver))
    || sl.woken
  }

  predicate Listening(pc: SleepPc) { pc.Waiting? || pc.ReadClock? || pc.SetSlot? }

  predicate InHeap(s: Sys, i: nat) { i in s.heap || (s.driver.Taking? && s.driver.entry == i) }

  predicate SleepOk(s: Sys, i: nat)
    requires i < |s.sleeps|
  {
    var sl := s.sleeps[i];
    && (InHeap(s, i) ==> sl.registered)
    && (s.driver.Taking? && s.driver.entry == i ==> i !in s.heap)
    && (sl.registered && i !in s.heap ==> sl.deadline <= s.clock)
    && (!sl.pc.New? ==> sl.waker.Some? || sl.pc.ClearSlot? || sl.pc.Over?)
    && (sl.pc.Waiting? ==> sl.registered && sl.waker.Some?)
    && (sl.pc.SetSlot? || sl.pc.Register? ==> sl.waker.Some?)
    && (sl.pc.Register? ==> !sl.registered && sl.slot == sl.waker)
    && (sl.slot.Some? && !sl.changed ==> sl.slot == sl.waker)
    && (sl.pc.New? ==> !sl.registered && sl.slot == None)
    && (sl.pc.Waiting? && InHeap(s, i) ==> sl.slot == sl.waker)
    // until the entry has been popped and its slot taken, its waker is in the slot
    && (!sl.changed && sl.registered && InHeap(s, i) && Listening(sl.pc) ==> sl.slot == sl.waker)
    && (!sl.changed && (sl.pc.Waiting? || (sl.pc.SetSlot? && sl.registered)) ==> Reachable(s, i))
  }

  ghost predicate Inv(s: Sys)
  {
    && DriverOk(s)
    && (forall i :: i in s.heap ==> i < |s.sleeps|)
    && (forall i :: 0 <= i < |s.sleeps| ==> SleepOk(s, i))
  }

  predicate Collects(d: DriverPc) { d.Top? || d.Popping? || d.Taking? || d.Waking? }

  lemma DriverCollects(s: Sys, entry: nat, spurious: bool)
    requires Inv(s) && Collects(s.driver)
    ensures DriverOk(DriverStep(s, entry, spurious))
  {
    if s.driver.Taking? { assert SleepOk(s, s.driver.entry); }
  }

  lemma DriverWaits(s: Sys, entry: nat, spurious: bool)
    requires Inv(s) && !Collects(s.driver)
    ensures DriverOk(DriverStep(s, entry, spurious))
  {
  }

  lemma DriverOwn(s: Sys, entry: nat, spurious: bool)
    requires Inv(s)
    ensures DriverOk(DriverStep(s, entry, spurious))
  {
    if Collects(s.driver) {
      DriverCollects(s, entry, spurious);
    } else {
      DriverWaits(s, entry, spurious);
    }
  }

  lemma DriverSleep(s: Sys, entry: nat, spurious: bool, i: nat)
    requires DriverOk(s) && i < |s.sleeps| && SleepOk(s, i)
    ensures SleepOk(DriverStep(s, entry, spurious), i)
  {
    if Collects(s.driver) {
      CollectingSleep(s, entry, spurious, i);
    } else {
      WaitingSleep(s, entry, spurious, i);
    }
  }

  lemma CollectingSleep(s: Sys, entry: nat, spurious: bool, i: nat)
    requires DriverOk(s) && i < |s.sleeps| && SleepOk(s, i) && Collects(s.driver)
    ensures SleepOk(DriverStep(s, entry, spurious), i)
  {
    if s.driver.Popping? {
      PoppingSleep(s, entry, spurious, i);
    } else if s.driver.Waking? {
      WakingSleep(s, entry, spurious, i);
    }
  }

  lemma PoppingSleep(s: Sys, entry: nat, spurious: bool, i: nat)
    requires DriverOk(s) && i < |s.sleeps| && SleepOk(s, i) && s.driver.Popping?
    ensures SleepOk(DriverStep(s, entry, spurious), i)
  {
  }

  lemma WakingSleep(s: Sys, entry: nat, spurious: bool, i: nat)
    requires DriverOk(s) && i < |s.sleeps| && SleepOk(s, i) && s.driver.Waking?
    ensures SleepOk(DriverStep(s, entry, spurious), i)
  {
  }

  lemma WaitingSleep(s: Sys, entry: nat, spurious: bool, i: nat)
    requires DriverOk(s) && i < |s.sleeps| && SleepOk(s, i) && !Collects(s.driver)
    ensures SleepOk(DriverStep(s, entry, spurious), i)
  {
  }

  lemma DriverInv(s: Sys, entry: nat, spurious: bool)
    requires Inv(s)
    ensures Inv(DriverStep(s, entry, spurious))
  {
    var s' := DriverStep(s, entry, spurious);
    DriverOwn(s, entry, spurious);
    forall i | 0 <= i < |s'.sleeps|
      ensures SleepOk(s', i)
    {
      DriverSleep(s, entry, spurious, i);
    }
  }

  lemma SleepDriver(s: Sys, i: nat)
    requires DriverOk(s) && i < |s.sleeps| && SleepOk(s, i)
    ensures DriverOk(SleepStep(s, i))
  {
  }

  lemma SleepOwn(s: Sys, i: nat)
    requires DriverOk(s) && i < |s.sleeps| && SleepOk(s, i)
    ensures SleepOk(SleepStep(s, i), i)
  {
  }

  lemma SleepOther(s: Sys, i: nat, k: nat)
    requires i < |s.sleeps| && k < |s.sleeps| && k != i && SleepOk(s, k)
    ensures SleepOk(SleepStep(s, i), k)
  {
  }

  lemma SleepInv(s: Sys, i: nat)
    requires Inv(s) && i < |s.sleeps|
    ensures Inv(SleepStep(s, i))
  {
    var s' := SleepStep(s, i);
    SleepDriver(s, i);
    SleepOwn(s, i);
    forall k | 0 <= k < |s'.sleeps| && k != i
      ensures SleepOk(s', k)
    {
      SleepOther(s, i, k);
    }
  }

  lemma OutsideInv(s: Sys, e: Event)
    requires Inv(s) && !e.DriverMoves? && !e.SleepMoves?
    ensures Inv(Step(s, e))
  {
    var s' := Step(s, e);
    forall k | 0 <= k < |s'.sleeps|
      ensures SleepOk(s', k)
    {
      assert SleepOk(s, k);
    }
  }

  lemma StepInv(s: Sys, e: Event)
    requires Inv(s)
    ensures Inv(Step(s, e))
  {
    match e
    case DriverMoves(entry, spurious) => DriverInv(s, entry, spurious);
    case SleepMoves(i) => if i < |s.sleeps| { SleepInv(s, i); }
    case _ => OutsideInv(s, e);
  }

  lemma {:induction false} ExecInv(s: Sys, schedule: seq<Event>)
    requires Inv(s)
    ensures Inv(Exec(s, schedule))
    decreases |schedule|
  {
    if schedule != [] {
      StepInv(s, schedule[0]);
      ExecInv(Step(s, schedule[0]), schedule[1..]);
    }
  }

  lemma RunInv(deadlines: seq<Instant>, schedule: seq<Event>)
    ensures Inv(Exec(Started(deadlines), schedule))
  {
    ExecInv(Started(deadlines), schedule);
  }

  // --- the results ----------------------------------------------------------------------------

  /** A waker the driver is about to wake belongs to a sleep whose deadline has passed. */
  lemma NothingFiresEarly(deadlines: seq<Instant>, schedule: seq<Event>)
    ensures var s := Exec(Started(deadlines), schedule);
      s.driver.Waking? ==> forall f :: f in s.driver.expired ==>
        f.sleep < |s.sleeps| && s.sleeps[f.sleep].deadline <= s.clock
  {
    RunInv(deadlines, schedule);
  }

  /** A driver asleep on its condvar has been notified, or its timeout, counted from the clock
      reading it was computed from, reaches no further than any deadline in the heap (and it waits
      without a timeout only over an empty heap); it ends only after a shutdown. */
  lemma DriverWakesInTime(deadlines: seq<Instant>, schedule: seq<Event>)
    ensures var s := Exec(Started(deadlines), schedule);
      && (s.driver.Blocked? && !s.driver.notified ==>
            forall i | i in s.heap ::
              && i < |s.sleeps|
              && s.driver.timeout.Some?
              && s.driver.readAt + s.driver.timeout.value <= s.sleeps[i].deadline)
      && (s.driver.Ended? ==> s.shutdown)
  {
    RunInv(deadlines, schedule);
  }

  /** While every poll of a sleep passes the same waker: when the last poll returned Pending, the
      entry is still in the heap with that waker in the slot, or the driver has that waker in hand,
      or it has been woken since that poll began. */
  lemma NoSleepLost(deadlines: seq<Instant>, schedule: seq<Event>, i: nat)
    requires var s := Exec(Started(deadlines), schedule);
      i < |s.sleeps| && s.sleeps[i].pc.Waiting? && !s.sleeps[i].changed
    ensures var s := Exec(Started(deadlines), schedule); var sl := s.sleeps[i];
      && sl.waker.Some?
      && (|| (InHeap(s, i) && sl.slot == sl.waker)
          || Firing(i, sl.waker.value) in Expired(s.driver)
          || sl.woken)
  {
    var s := Exec(Started(deadlines), schedule);
    RunInv(deadlines, schedule);
    assert SleepOk(s, i);
  }

  // --- when a poll answers Ready --------------------------------------------------------------

  predicate Answering(pc: SleepPc) { pc == ClearSlot(true) || pc == Over(true) }

  /** The last poll has read the clock and settled its answer. */
  predicate Decided(pc: SleepPc) { pc.SetSlot? || pc.Register? || pc.Waiting? || Answering(pc) }

  predicate AnswerOk(clock: Instant, sl: Sleep)
  {
    && (sl.read.Some? ==> sl.read.value <= clock)
    && (Decided(sl.pc) ==>
          sl.read.Some? && (Answering(sl.pc) <==> sl.deadline <= sl.read.value + EARLY))
    && (sl.answered.Some? <==> sl.pc == Over(true))
    && (sl.answered.Some? ==> sl.read.Some? && sl.read.value <= sl.answered.value <= clock)
  }

  ghost predicate AnswersOk(s: Sys)
  {
    forall i :: 0 <= i < |s.sleeps| ==> AnswerOk(s.clock, s.sleeps[i])
  }

  /** The driver touches neither where a sleep stands nor what it read. */
  lemma DriverAnswersNothing(s: Sys, entry: nat, spurious: bool, i: nat)
    requires i < |s.sleeps|
    ensures var s' := DriverStep(s, entry, spurious);
      && s'.clock == s.clock && |s'.sleeps| == |s.sleeps|
      && s'.sleeps[i] == s.sleeps[i].(slot := s'.sleeps[i].slot, woken := s'.sleeps[i].woken)
  {
  }

  lemma SleepAnswers(s: Sys, k: nat, i: nat)
    requires k < |s.sleeps| && i < |s.sleeps| && AnswerOk(s.clock, s.sleeps[i])
    ensures var s' := SleepStep(s, k);
      s'.clock == s.clock && |s'.sleeps| == |s.sleeps| && AnswerOk(s.clock, s'.sleeps[i])
  {
  }

  lemma AnswersStep(s: Sys, e: Event)
    requires AnswersOk(s)
    ensures AnswersOk(Step(s, e))
  {
    var s' := Step(s, e);
    forall i | 0 <= i < |s.sleeps|
      ensures |s'.sleeps| == |s.sleeps| && AnswerOk(s'.clock, s'.sleeps[i])
    {
      assert AnswerOk(s.clock, s.sleeps[i]);
      match e {
        case DriverMoves(entry, spurious) => DriverAnswersNothing(s, entry, spurious, i);
        case SleepMoves(k) => if k < |s.sleeps| { SleepAnswers(s, k, i); }
        case _ =>
      }
    }
  }

  lemma {:induction false} AnswersExec(s: Sys, schedule: seq<Event>)
    requires AnswersOk(s)
    ensures AnswersOk(Exec(s, schedule))
    decreases |schedule|
  {
    if schedule != [] {
      AnswersStep(s, schedule[0]);
      AnswersExec(Step(s, schedule[0]), schedule[1..]);
    }
  }

  /** In every run: a poll answers Ready if and only if its clock reading is at most 50 microseconds
      short of the deadline; so the answer rests on a reading before the deadline exactly when that
      lies in `[deadline - 50, deadline)`, and an answer given before the deadline always does. */
  lemma ReadyExactlyWhen(deadlines: seq<Instant>, schedule: seq<Event>, i: nat)
    requires var s := Exec(Started(deadlines), schedule); i < |s.sleeps| && Decided(s.sleeps[i].pc)
    ensures var s := Exec(Started(deadlines), schedule); var sl := s.sleeps[i];
      && sl.read.Some? && sl.read.value <= s.clock
      && (Answering(sl.pc) <==> sl.deadline as int - EARLY <= sl.read.value)
      && (Answering(sl.pc) && sl.read.value < sl.deadline <==>
            sl.deadline as int - EARLY <= sl.read.value < sl.deadline)
      && (sl.pc.Over? <==> sl.answered.Some?)
      && (sl.pc.Over? ==> sl.read.value <= sl.answered.value <= s.clock)
      && (sl.pc.Over? && sl.answered.value < sl.deadline ==>
            sl.deadline as int - EARLY <= sl.read.value < sl.deadline)
  {
    AnswersExec(Started(deadlines), schedule);
    assert AnswerOk(Exec(Started(deadlines), schedule).clock, Exec(Started(deadlines), schedule).sleeps[i]);
  }

  /** Such an answer happens: a sleep until 100 is over at 50. */
  lemma ReadyEarly() returns (schedule: seq<Event>)
    ensures var s := Exec(Started([100]), schedule);
      && |s.sleeps| == 1 && s.sleeps[0].deadline == 100
      && s.sleeps[0].pc == Over(true) && s.sleeps[0].answered == Some(50) && s.clock == 50
  {
    schedule := [Tick(50), Poll(0, 1), SleepMoves(0), SleepMoves(0)];
    Fold4(Step, Started([100]), Tick(50), Poll(0, 1), SleepMoves(0), SleepMoves(0));
  }

  // --- a sleep that is over -------------------------------------------------------------------

  ghost predicate OverClear(s: Sys)
  {
    forall i :: 0 <= i < |s.sleeps| && s.sleeps[i].pc.Over? ==> s.sleeps[i].slot == None
  }

  lemma DriverClears(s: Sys, entry: nat, spurious: bool, i: nat)
    requires i < |s.sleeps|
    ensures var s' := DriverStep(s, entry, spurious);
      && |s'.sleeps| == |s.sleeps| && s'.sleeps[i].pc == s.sleeps[i].pc
      && (s'.sleeps[i].slot == s.sleeps[i].slot || s'.sleeps[i].slot == None)
      && (s.sleeps[i].slot == None ==>
            forall w :: Firing(i, w) in Expired(s'.driver) ==> Firing(i, w) in Expired(s.driver))
  {
  }

  lemma OverStep(s: Sys, e: Event)
    requires OverClear(s)
    ensures OverClear(Step(s, e))
  {
    var s' := Step(s, e);
    forall i | 0 <= i < |s'.sleeps| && s'.sleeps[i].pc.Over?
      ensures s'.sleeps[i].slot == None
    {
      if e.DriverMoves? && i < |s.sleeps| { DriverClears(s, e.entry, e.spurious, i); }
    }
  }

  lemma {:induction false} OverExec(s: Sys, schedule: seq<Event>)
    requires OverClear(s)
    ensures OverClear(Exec(s, schedule))
    decreases |schedule|
  {
    if schedule != [] {
      OverStep(s, schedule[0]);
      OverExec(Step(s, schedule[0]), schedule[1..]);
    }
  }

  /** In every run: a sleep that has answered Ready or been dropped leaves its slot empty, and no step
      of the driver takes a waker from it any more. */
  lemma OverLeavesNothing(deadlines: seq<Instant>, schedule: seq<Event>, i: nat, entry: nat, spurious: bool)
    requires var s := Exec(Started(deadlines), schedule); i < |s.sleeps| && s.sleeps[i].pc.Over?
    ensures var s := Exec(Started(deadlines), schedule);
      && s.sleeps[i].slot == None
      && forall w :: Firing(i, w) in Expired(Step(s, DriverMoves(entry, spurious)).driver) ==>
           Firing(i, w) in Expired(s.driver)
  {
    OverExec(Started(deadlines), schedule);
    DriverClears(Exec(Started(deadlines), schedule), entry, spurious, i);
  }

  // --- a poll from end to end -----------------------------------------------------------------

  /** A poll that reads the clock well before the deadline, with the driver's lock free, returns Pending
      with its waker in the slot and an entry in the heap, of which the driver has been told if it was
      asleep; any other returns Ready and leaves the slot empty. */
  lemma PollCompletes(s: Sys, i: nat)
    requires i < |s.sleeps| && s.sleeps[i].pc.ReadClock? && !Holds(s.driver)
    ensures var sl := s.sleeps[i]; var sl' := Exec(s, [SleepMoves(i), SleepMoves(i), SleepMoves(i)]).sleeps;
      && i < |sl'|
      && (if s.clock + EARLY < sl.deadline then
            && sl'[i].pc == Waiting && sl'[i].slot == sl.waker && sl'[i].registered
          else sl'[i].pc == Over(true) && sl'[i].slot == None)
    ensures var t := Exec(s, [SleepMoves(i), SleepMoves(i), SleepMoves(i)]);
      s.clock + EARLY < s.sleeps[i].deadline && !s.sleeps[i].registered ==>
        i in t.heap && (s.driver.Blocked? ==> t.driver.Blocked? && t.driver.notified)
  {
    Fold3(Step, s, SleepMoves(i), SleepMoves(i), SleepMoves(i));
    var read := Step(s, SleepMoves(i));
    var slotted := Step(read, SleepMoves(i));
    assert read.driver == slotted.driver == s.driver && read.heap == slotted.heap == s.heap;
  }

  // --- what the driver does at its turning points ---------------------------------------------

  /** A sweep pops the soonest entry while that is due, and ends when none is. */
  lemma SweepTakesWhatIsDue(s: Sys, entry: nat, spurious: bool)
    requires s.driver.Popping? && Earliest(s, entry)
    ensures var s' := DriverStep(s, entry, spurious);
      if s.sleeps[entry].deadline <= s.driver.now then
        s'.heap == s.heap - {entry} && s'.driver == Taking(s.driver.now, s.driver.expired, entry)
      else
        && s'.heap == s.heap && (s'.driver.Waking? || s'.driver.After?)
        && forall k :: k in s.heap && k < |s.sleeps| ==> s.driver.now < s.sleeps[k].deadline
  {
  }

  /** Before it sleeps, the driver starts over when the soonest entry is due, and otherwise waits until
      exactly that deadline; over an empty heap it waits without a limit. */
  lemma PeekDecides(s: Sys, entry: nat, spurious: bool)
    requires s.driver.Peek?
    ensures var s' := DriverStep(s, entry, spurious);
      && (Earliest(s, entry) && s.sleeps[entry].deadline <= s.clock ==> s'.driver == Top)
      && (Earliest(s, entry) && s.clock < s.sleeps[entry].deadline ==>
            s'.driver == Wait(s.clock, Some(s.sleeps[entry].deadline - s.clock)))
      && (s.heap == {} ==> s'.driver == Wait(s.clock, None))
  {
  }

  /** The driver empties the slot of the entry it popped, wakes what it found there, one after the
      other, and leaves its sleep when it is notified, or the alarm has passed, or for no reason. */
  lemma DriverAdvances(s: Sys, entry: nat, spurious: bool)
    ensures var s' := DriverStep(s, entry, spurious);
      match s.driver
      case Taking(now, expired, e) =>
        e < |s.sleeps| ==>
          && s'.sleeps[e].slot == None
          && s'.driver == Popping(now, if s.sleeps[e].slot.Some? then expired + [Firing(e, s.sleeps[e].slot.value)]
                                       else expired)
      case Waking(expired) =>
        if expired == [] then s'.driver == After
        else
          && s'.driver == Waking(expired[1..])
          && (expired[0].sleep < |s.sleeps| && s.sleeps[expired[0].sleep].waker == Some(expired[0].waker) ==>
                s'.sleeps[expired[0].sleep].woken)
      case Blocked(_, timeout, since, notified) =>
        if notified || spurious || (timeout.Some? && since + timeout.value <= s.clock) then s'.driver == Relock
        else s'.driver == s.driver
      case Relock => s'.driver == Top
      case Top => s'.driver == if s.shutdown then Ended else Popping(s.clock, [])
      case After => s'.driver == if s.shutdown then Ended else Peek
      case _ => true
  {
  }

  /** A sleep dropped between two polls is over, its slot is empty, and its entry stays in the heap. */
  lemma DropTakesEffect(s: Sys, i: nat)
    requires i < |s.sleeps| && (s.sleeps[i].pc.New? || s.sleeps[i].pc.Waiting?)
    ensures var s' := Exec(s, [Drop(i), SleepMoves(i)]);
      && s'.heap == s.heap && s'.driver == s.driver
      && s'.sleeps == s.sleeps[i := s.sleeps[i].(pc := Over(false), slot := None, answered := None)]
  {
    Fold2(Step, s, Drop(i), SleepMoves(i));
  }

  /** A shutdown waits for the driver's lock, and rouses a sleeping driver, which then ends. */
  lemma ShutdownTakesEffect(s: Sys)
    requires !Holds(s.driver)
    ensures var s' := Step(s, Shutdown);
      && s'.shutdown && s'.heap == s.heap && s'.sleeps == s.sleeps
      && (s.driver.Blocked? ==>
            Exec(s', [DriverMoves(0, false), DriverMoves(0, false), DriverMoves(0, false)]).driver == Ended)
  {
    Fold3(Step, Step(s, Shutdown), DriverMoves(0, false), DriverMoves(0, false), DriverMoves(0, false));
  }

  /** A driver asleep without a notification has the soonest deadline as its alarm. */
  ghost predicate AlarmSet(s: Sys)
  {
    s.driver.Wait? || (s.driver.Blocked? && !s.driver.notified) ==>
      s.driver.timeout.Some? ==>
        exists i :: i in s.heap && i < |s.sleeps| && s.sleeps[i].deadline == s.driver.readAt + s.driver.timeout.value
  }

  lemma AlarmStep(s: Sys, e: Event)
    requires AlarmSet(s)
    ensures AlarmSet(Step(s, e))
  {
    var s' := Step(s, e);
    if (s'.driver.Wait? || (s'.driver.Blocked? && !s'.driver.notified)) && s'.driver.timeout.Some? {
      if s.driver.Peek? {
        assert Earliest(s, e.entry);
      } else {
        var i :| i in s.heap && i < |s.sleeps| && s.sleeps[i].deadline == s.driver.readAt + s.driver.timeout.value;
        DeadlineStep(s, e, i);
        assert i in s'.heap;
      }
    }
  }

  lemma {:induction false} AlarmExec(s: Sys, schedule: seq<Event>)
    requires AlarmSet(s)
    ensures AlarmSet(Exec(s, schedule))
    decreases |schedule|
  {
    if schedule != [] {
      AlarmStep(s, schedule[0]);
      AlarmExec(Step(s, schedule[0]), schedule[1..]);
    }
  }

  /** In every run, a driver asleep and not notified is due to wake at exactly the soonest deadline in
      the heap, and has no alarm exactly when the heap is empty. */
  lemma DriverSleepsExactly(deadlines: seq<Instant>, schedule: seq<Event>)
    requires var s := Exec(Started(deadlines), schedule); s.driver.Blocked? && !s.driver.notified
    ensures var s := Exec(Started(deadlines), schedule);
      && (s.driver.timeout.None? <==> s.heap == {})
      && (s.driver.timeout.Some? ==>
            var alarm := s.driver.readAt + s.driver.timeout.value;
            && (exists i :: i in s.heap && i < |s.sleeps| && s.sleeps[i].deadline == alarm)
            && (forall i :: i in s.heap && i < |s.sleeps| ==> alarm <= s.sleeps[i].deadline))
  {
    var s := Exec(Started(deadlines), schedule);
    AlarmExec(Started(deadlines), schedule);
    DriverWakesInTime(deadlines, schedule);
    RunInv(deadlines, schedule);
  }

  // --- why the same waker matters -------------------------------------------------------------

  /** The last poll returned Pending and nothing will wake the waker it passed. */
  predicate Lost(s: Sys, i: nat)
    requires i < |s.sleeps|
  {
    var sl := s.sleeps[i];
    && sl.pc.Waiting? && sl.waker.Some?
    && !InHeap(s, i) && Firing(i, sl.waker.value) !in Expired(s.driver) && !sl.woken
  }

  /** A poll after the first stores its waker when the driver has already taken the entry, with
      another waker or none, and has not woken this one since the poll began. */
  predicate StoresTooLate(s: Sys, i: nat)
    requires i < |s.sleeps|
  {
    var sl := s.sleeps[i];
    && sl.pc.SetSlot? && sl.registered && sl.waker.Some?
    && !InHeap(s, i) && Firing(i, sl.waker.value) !in Expired(s.driver) && !sl.woken
  }

  lemma DriverLosesNothing(s: Sys, entry: nat, spurious: bool, i: nat)
    requires Inv(s) && i < |s.sleeps| && !Lost(s, i)
    ensures !Lost(DriverStep(s, entry, spurious), i)
  {
    assert SleepOk(s, i);
  }

  /** Whatever wakers the polls pass: a step loses a sleep if and only if it is such a late store. */
  lemma LostExactlyWhen(s: Sys, e: Event, i: nat)
    requires Inv(s) && i < |s.sleeps| && !Lost(s, i)
    ensures |Step(s, e).sleeps| == |s.sleeps|
    ensures Lost(Step(s, e), i) <==> e == SleepMoves(i) && StoresTooLate(s, i)
  {
    assert SleepOk(s, i);
    if e.DriverMoves? { DriverLosesNothing(s, e.entry, e.spurious, i); }
  }

  /** A run that ends with a sleep lost contains such a store. */
  lemma {:induction false} LostNeedsLateStore(s: Sys, schedule: seq<Event>, i: nat) returns (k: nat)
    requires Inv(s) && i < |s.sleeps| && !Lost(s, i)
    requires i < |Exec(s, schedule).sleeps| && Lost(Exec(s, schedule), i)
    ensures k < |schedule| && schedule[k] == SleepMoves(i)
    ensures var t := Exec(s, schedule[..k]); i < |t.sleeps| && StoresTooLate(t, i)
    decreases |schedule|
  {
    LostExactlyWhen(s, schedule[0], i);
    if schedule[0] == SleepMoves(i) && StoresTooLate(s, i) {
      k := 0;
    } else {
      StepInv(s, schedule[0]);
      var j := LostNeedsLateStore(Step(s, schedule[0]), schedule[1..], i);
      k := j + 1;
      assert schedule[..k][1..] == schedule[1..][..j];
    }
  }

  /** The wakers passed to sleep `i`, in order. */
  function PollsOf(schedule: seq<Event>, i: nat): (wakers: seq<Waker>)
  {
    if schedule == [] then [] else PollOf(schedule[0], i) + PollsOf(schedule[1..], i)
  }

  function PollOf(e: Event, i: nat): (wakers: seq<Waker>)
  {
    if e.Poll? && e.i == i then [e.waker] else []
  }

  lemma {:induction false} NeverChanged(s: Sys, schedule: seq<Event>, i: nat, w: Waker)
    requires i < |s.sleeps| && !s.sleeps[i].changed && (s.sleeps[i].waker.Some? ==> s.sleeps[i].waker == Some(w))
    requires forall v :: v in PollsOf(schedule, i) ==> v == w
    ensures var t := Exec(s, schedule); i < |t.sleeps| && !t.sleeps[i].changed
    decreases |schedule|
  {
    if schedule != [] {
      assert forall v :: v in PollOf(schedule[0], i) || v in PollsOf(schedule[1..], i) ==> v in PollsOf(schedule, i);
      if schedule[0].Poll? && schedule[0].i == i { assert schedule[0].waker in PollOf(schedule[0], i); }
      WakerStep(s, schedule[0], i, w);
      NeverChanged(Step(s, schedule[0]), schedule[1..], i, w);
    }
  }

  lemma WakerStep(s: Sys, e: Event, i: nat, w: Waker)
    requires i < |s.sleeps| && !s.sleeps[i].changed && (s.sleeps[i].waker.Some? ==> s.sleeps[i].waker == Some(w))
    requires e.Poll? && e.i == i ==> e.waker == w
    ensures var t := Step(s, e);
      && i < |t.sleeps| && !t.sleeps[i].changed
      && (t.sleeps[i].waker.Some? ==> t.sleeps[i].waker == Some(w))
  {
    if e.DriverMoves? { DriverAnswersNothing(s, e.entry, e.spurious, i); }
  }

  /** A sleep whose polls all pass the same waker is never lost. */
  lemma OneWakerNeverLost(deadlines: seq<Instant>, schedule: seq<Event>, i: nat, w: Waker)
    requires i < |deadlines| && forall v :: v in PollsOf(schedule, i) ==> v == w
    ensures var s := Exec(Started(deadlines), schedule); i < |s.sleeps| && !Lost(s, i)
  {
    NeverChanged(Started(deadlines), schedule, i, w);
    if Lost(Exec(Started(deadlines), schedule), i) {
      NoSleepLost(deadlines, schedule, i);
    }
  }

  /** A moment of the losing run below. */
  function Snap(deadline: Instant, clock: Instant, heap: set<nat>, driver: DriverPc, slot: Option<Waker>, pc: SleepPc,
                waker: Waker, changed: bool): Sys
  {
    Sys(clock, false, heap, driver,
        [Sleep(deadline, slot, true, pc, Some(waker), changed, false, Some(0), None)])
  }

  const GO := DriverMoves(0, false)

  lemma Exec4(s: Sys, a: Event, b: Event, c: Event, d: Event)
    ensures Exec(s, [a, b, c, d]) == Step(Step(Step(Step(s, a), b), c), d)
  {
    Fold4(Step, s, a, b, c, d);
  }

  lemma FirstPoll(d: Instant, a: Waker)
    requires EARLY < d
    ensures Exec(Started([d]), PollThenRegister(a))
         == Snap(d, 0, {0}, Relock, Some(a), Waiting, a, false)
  {
    Exec4(Started([d]), Poll(0, a), SleepMoves(0), SleepMoves(0), SleepMoves(0));
    assert Started([d]).sleeps == [Unpolled(d)];
    var t := Exec(Started([d]), [Poll(0, a), SleepMoves(0), SleepMoves(0), SleepMoves(0)]);
    assert t.sleeps == Snap(d, 0, {0}, Relock, Some(a), Waiting, a, false).sleeps;
  }

  lemma SecondPoll(d: Instant, a: Waker, b: Waker)
    requires EARLY < d && a != b
    ensures Exec(Snap(d, 0, {0}, Relock, Some(a), Waiting, a, false), PollThenRead(d, b))
         == Snap(d, d, {0}, Top, Some(a), SetSlot, b, true)
  {
    var s := Snap(d, 0, {0}, Relock, Some(a), Waiting, a, false);
    Exec4(s, Poll(0, b), SleepMoves(0), Tick(d), GO);
    var t := Exec(s, [Poll(0, b), SleepMoves(0), Tick(d), GO]);
    assert t.sleeps == Snap(d, d, {0}, Top, Some(a), SetSlot, b, true).sleeps;
  }

  lemma DriverPops(d: Instant, a: Waker, b: Waker)
    ensures Exec(Snap(d, d, {0}, Top, Some(a), SetSlot, b, true), POP)
         == Snap(d, d, {}, Waking([Firing(0, a)]), None, SetSlot, b, true)
  {
    var s := Snap(d, d, {0}, Top, Some(a), SetSlot, b, true);
    Exec4(s, GO, GO, GO, GO);
    var popping := Step(s, GO);
    assert Earliest(popping, 0);
    var taking := Step(popping, GO);
    assert taking.heap == {} && taking.driver == Taking(d, [], 0);
    var popped := Step(taking, GO);
    assert popped.sleeps == Snap(d, d, {}, Top, None, SetSlot, b, true).sleeps;
    assert popped.driver == Popping(d, [Firing(0, a)]) && popped.heap == {};
    assert Step(popped, GO) == popped.(driver := Waking([Firing(0, a)]));
  }

  lemma DriverWakes(d: Instant, a: Waker, b: Waker)
    requires a != b
    ensures Exec(Snap(d, d, {}, Waking([Firing(0, a)]), None, SetSlot, b, true), WAKE_THEN_STORE)
         == Snap(d, d, {}, After, Some(b), Waiting, b, true)
  {
    var s := Snap(d, d, {}, Waking([Firing(0, a)]), None, SetSlot, b, true);
    Exec4(s, GO, GO, SleepMoves(0), Tick(0));
    var t := Exec(s, [GO, GO, SleepMoves(0), Tick(0)]);
    assert t.sleeps == Snap(d, d, {}, After, Some(b), Waiting, b, true).sleeps;
  }

  function PollThenRegister(a: Waker): seq<Event> { [Poll(0, a), SleepMoves(0), SleepMoves(0), SleepMoves(0)] }

  function PollThenRead(d: Instant, b: Waker): seq<Event> { [Poll(0, b), SleepMoves(0), Tick(d), GO] }

  const POP: seq<Event> := [GO, GO, GO, GO]

  const WAKE_THEN_STORE: seq<Event> := [GO, GO, SleepMoves(0), Tick(0)]

  function LosingRun(d: Instant, a: Waker, b: Waker): seq<Event>
  {
    PollThenRegister(a) + PollThenRead(d, b) + POP + WAKE_THEN_STORE
  }

  lemma LosingPolls(d: Instant, a: Waker, b: Waker)
    ensures PollsOf(LosingRun(d, a, b), 0) == [a, b]
  {
    PollsAppend(PollThenRegister(a), PollThenRead(d, b), 0);
    PollsAppend(PollThenRegister(a) + PollThenRead(d, b), POP, 0);
    PollsAppend(PollThenRegister(a) + PollThenRead(d, b) + POP, WAKE_THEN_STORE, 0);
    OnePoll(PollThenRegister(a));
    OnePoll(PollThenRead(d, b));
    NoPolls(POP);
    NoPolls(WAKE_THEN_STORE);
  }

  lemma LosingEnd(d: Instant, a: Waker, b: Waker)
    requires EARLY < d && a != b
    ensures Exec(Started([d]), LosingRun(d, a, b)) == Snap(d, d, {}, After, Some(b), Waiting, b, true)
  {
    FirstPoll(d, a);
    SecondPoll(d, a, b);
    DriverPops(d, a, b);
    DriverWakes(d, a, b);
    FoldAppend(Step, Started([d]), PollThenRegister(a), PollThenRead(d, b));
    FoldAppend(Step, Started([d]), PollThenRegister(a) + PollThenRead(d, b), POP);
    FoldAppend(Step, Started([d]), PollThenRegister(a) + PollThenRead(d, b) + POP, WAKE_THEN_STORE);
  }

  /** For any two different wakers and any deadline a first poll waits for: the driver takes the first
      waker out of the slot between the second poll's clock reading and its store, and no entry is
      left for the second. */
  lemma ChangedWakerIsLost(d: Instant, a: Waker, b: Waker) returns (schedule: seq<Event>)
    requires EARLY < d && a != b
    ensures PollsOf(schedule, 0) == [a, b]
    ensures var s := Exec(Started([d]), schedule);
      |s.sleeps| == 1 && Lost(s, 0) && s.sleeps[0].waker == Some(b)
  {
    schedule := LosingRun(d, a, b);
    LosingPolls(d, a, b);
    LosingEnd(d, a, b);
  }

  lemma {:induction false} PollsAppend(a: seq<Event>, b: seq<Event>, i: nat)
    ensures PollsOf(a + b, i) == PollsOf(a, i) + PollsOf(b, i)
    decreases |a|
  {
    if a == [] {
      assert a + b == b;
    } else {
      assert (a + b)[1..] == a[1..] + b;
      PollsAppend(a[1..], b, i);
    }
  }

  lemma {:induction false} NoPolls(schedule: seq<Event>)
    requires forall e :: e in schedule ==> !e.Poll?
    ensures PollsOf(schedule, 0) == []
    decreases |schedule|
  {
    if schedule != [] {
      assert schedule[0] in schedule;
      NoPolls(schedule[1..]);
    }
  }

  lemma OnePoll(schedule: seq<Event>)
    requires schedule != [] && schedule[0].Poll? && schedule[0].i == 0
    requires forall e :: e in schedule[1..] ==> !e.Poll?
    ensures PollsOf(schedule, 0) == [schedule[0].waker]
  {
    NoPolls(schedule[1..]);
  }

  /** Some run that polls with these two wakers loses the sleep. */
  ghost predicate Losable(d: Instant, a: Waker, b: Waker)
  {
    exists schedule :: PollsOf(schedule, 0) == [a, b] && LostAlone(d, schedule)
  }

  ghost predicate LostAlone(d: Instant, schedule: seq<Event>)
  {
    var s := Exec(Started([d]), schedule); |s.sleeps| == 1 && Lost(s, 0)
  }

  /** The wakers and the deadline decide: a sleep polled twice can be lost if and only if the polls pass
      different wakers and its deadline is more than 50 microseconds away when it starts. */
  lemma LosableExactlyWhen(d: Instant, a: Waker, b: Waker)
    ensures Losable(d, a, b) <==> a != b && EARLY < d
  {
    if a != b && EARLY < d {
      var schedule := ChangedWakerIsLost(d, a, b);
      assert LostAlone(d, schedule);
    }
    if Losable(d, a, b) {
      var schedule :| PollsOf(schedule, 0) == [a, b] && LostAlone(d, schedule);
      if a == b { OneWakerNeverLost([d], schedule, 0, a); }
      ReadyExactlyWhen([d], schedule, 0);
      DeadlinesKept(Started([d]), schedule, 0);
    }
  }

  lemma {:induction false} DeadlinesKept(s: Sys, schedule: seq<Event>, i: nat)
    requires i < |s.sleeps|
    ensures var t := Exec(s, schedule); i < |t.sleeps| && t.sleeps[i].deadline == s.sleeps[i].deadline
    decreases |schedule|
  {
    if schedule != [] {
      DeadlineStep(s, schedule[0], i);
      DeadlinesKept(Step(s, schedule[0]), schedule[1..], i);
    }
  }

  lemma DeadlineStep(s: Sys, e: Event, i: nat)
    requires i < |s.sleeps|
    ensures var t := Step(s, e); i < |t.sleeps| && t.sleeps[i].deadline == s.sleeps[i].deadline
  {
    if e.DriverMoves? { DriverAnswersNothing(s, e.entry, e.spurious, i); }
  }
}

/** Tasks are neither lost nor invented by the pool (hypertile-core/src/worker.rs:62-160 and
    271-287, hypertile-core/src/waker.rs:36-121): every interleaving of pushes, pops, batch
    steals, registrations and guard drops by any number of threads on one executor. */
module Conservation {
  import opened Prelude

  type Task = nat
  type WorkerId = nat

  /** A thread is in the middle of flushing a deque it has taken out of its thread-local cell;
      when that is done a registration installs its new deque. */
  datatype Phase = Calm | Draining(deque: WorkerId, install: Option<WorkerId>)

  datatype Thread = Thread(local: Option<WorkerId>, hand: Option<Task>, phase: Phase)

  /** `deques` holds every deque ever made, by worker: a thief's stealer may outlive the
      registration.  `live` are the workers whose guard exists. */
  datatype Pool = Pool(
    injector: seq<Task>, deques: seq<seq<Task>>, threads: seq<Thread>, live: set<WorkerId>,
    // history: handles enqueued and run; whether a guard was dropped away from its own thread
    // while that thread's deque was still installed
    enqueued: multiset<Task>, ran: multiset<Task>, strayed: bool)

  datatype Event =
    | Enqueue(t: nat, task: Task)          // inject, spawn or wake: local deque or injector
    | Pop(t: nat)
    | StealInjector(t: nat, n: nat)
    | StealPeer(t: nat, victim: WorkerId, n: nat)
    | RunHand(t: nat)
    | Register(t: nat)
    | DropGuard(t: nat, id: WorkerId)
    | Drain(t: nat)

  function Set(s: Pool, t: nat, th: Thread): Pool
    requires t < |s.threads|
  {
    s.(threads := s.threads[t := th])
  }

  function SetDeque(s: Pool, d: WorkerId, q: seq<Task>): Pool
    requires d < |s.deques|
  {
    s.(deques := s.deques[d := q])
  }

  predicate HasDeque(s: Pool, th: Thread) { th.local.Some? && th.local.value < |s.deques| }

  function Push(s: Pool, th: Thread, task: Task): Pool
  {
    if HasDeque(s, th) then SetDeque(s, th.local.value, s.deques[th.local.value] + [task])
    else s.(injector := s.injector + [task])
  }

  /** How many tasks a steal from `queue` takes. */
  function Batch(s: Pool, th: Thread, queue: seq<Task>, n: nat): (k: nat)
    requires queue != []
    ensures 1 <= k <= |queue|
  {
    if HasDeque(s, th) && 1 <= n <= |queue| then n else 1
  }

  /** The stolen batch: its first task into the thief's hand, the others onto its deque. */
  function Receive(s: Pool, t: nat, batch: seq<Task>): Pool
    requires t < |s.threads| && batch != []
  {
    var th := s.threads[t];
    var held := Set(s, t, th.(hand := Some(batch[0])));
    if HasDeque(s, th) then SetDeque(held, th.local.value, s.deques[th.local.value] + batch[1..])
    else held
  }

  function Free(s: Pool, t: nat): bool
    requires t < |s.threads|
  {
    s.threads[t].phase == Calm && s.threads[t].hand == None
  }

  function DrainStep(s: Pool, t: nat): Pool
    requires t < |s.threads|
  {
    var th := s.threads[t];
    match th.phase
    case Calm => s
    case Draining(d, install) =>
      if d >= |s.deques| then s
      else if th.hand.Some? then
        // inject: the thread has no local deque, so the task goes to the injector
        Push(Set(s, t, th.(hand := None)), th, th.hand.value)
      else if s.deques[d] != [] then
        SetDeque(Set(s, t, th.(hand := Some(s.deques[d][0]))), d, s.deques[d][1..])
      else
        Install(s, t, install)
  }

  function Install(s: Pool, t: nat, install: Option<WorkerId>): Pool
    requires t < |s.threads|
  {
    var th := s.threads[t];
    match install
    case None => Set(s, t, th.(phase := Calm))
    case Some(id) =>
      Set(s, t, th.(phase := Calm, local := Some(id))).(live := s.live + {id})
  }

  /** One deque more, empty. */
  function Made(s: Pool): Pool
  {
    s.(deques := s.deques + [[]])
  }

  ghost predicate InstalledElsewhere(s: Pool, t: nat, id: WorkerId)
  {
    exists u :: 0 <= u < |s.threads| && u != t && s.threads[u].local == Some(id)
  }

  ghost function Step(s: Pool, e: Event): Pool
  {
    if e.t >= |s.threads| then s
    else
      var th := s.threads[e.t];
      match e
      case Enqueue(t, task) =>
        if Free(s, t) then Push(s, th, task).(enqueued := s.enqueued + multiset{task}) else s
      case Pop(t) =>
        if Free(s, t) && HasDeque(s, th) && s.deques[th.local.value] != [] then
          var q := s.deques[th.local.value];
          SetDeque(Set(s, t, th.(hand := Some(q[0]))), th.local.value, q[1..])
        else s
      case StealInjector(t, n) =>
        if Free(s, t) && s.injector != [] then
          var k := Batch(s, th, s.injector, n);
          Receive(s, t, s.injector[..k]).(injector := s.injector[k..])
        else s
      case StealPeer(t, victim, n) =>
        if Free(s, t) && victim < |s.deques| && th.local != Some(victim) && s.deques[victim] != [] then
          var q := s.deques[victim];
          var k := Batch(s, th, q, n);
          Receive(SetDeque(s, victim, q[k..]), t, q[..k])
        else s
      case RunHand(t) =>
        if th.phase == Calm && th.hand.Some? then
          Set(s, t, th.(hand := None)).(ran := s.ran + multiset{th.hand.value})
        else s
      case Register(t) =>
        if !Free(s, t) then s
        else
          var id := |s.deques|;
          var made := Made(s);
          if HasDeque(s, th) then
            Set(made, t, th.(local := None, phase := Draining(th.local.value, Some(id))))
          else Install(made, t, Some(id))
      case DropGuard(t, id) =>
        if !Free(s, t) || id !in s.live then s
        else
          var gone := s.(live := s.live - {id}, strayed := s.strayed || InstalledElsewhere(s, t, id));
          if th.local == Some(id) then
            Set(gone, t, th.(local := None, phase := Draining(id, None)))
          else gone
      case Drain(t) => DrainStep(s, t)
  }

  ghost function Exec(s: Pool, schedule: seq<Event>): Pool
  {
    Fold(Step, s, schedule)
  }

  function Fresh(threads: nat): Pool
  {
    Pool([], [], seq(threads, k => Thread(None, None, Calm)), {}, multiset{}, multiset{}, false)
  }

  // --- the balance ----------------------------------------------------------------------------

  function Held(x: Task): Thread -> nat { (th: Thread) => Bit(th.hand == Some(x)) }

  function Copies(x: Task): seq<Task> -> nat { (q: seq<Task>) => Times(q, x) }

  function InHands(ths: seq<Thread>, x: Task): (n: nat) { Sum(ths, Held(x)) }

  function InDeques(ds: seq<seq<Task>>, x: Task): (n: nat) { Sum(ds, Copies(x)) }

  /** How many handles of `x` are in the pool: injector, deques, hands. */
  function Present(s: Pool, x: Task): (n: nat)
  {
    Times(s.injector, x) + InDeques(s.deques, x) + InHands(s.threads, x)
  }

  lemma TimesCut(q: seq<Task>, k: nat, x: Task)
    requires k <= |q|
    ensures Times(q, x) == Times(q[..k], x) + Times(q[k..], x)
    ensures k == 1 ==> Times(q, x) == Bit(q[0] == x) + Times(q[1..], x)
  {
    assert q == q[..k] + q[k..];
    TimesConcat(q[..k], q[k..], x);
    if k == 1 {
      assert q[..1] == [q[0]];
    }
  }

  lemma SetPresent(s: Pool, t: nat, th: Thread, x: Task)
    requires t < |s.threads|
    ensures Present(Set(s, t, th), x) + Held(x)(s.threads[t]) == Present(s, x) + Held(x)(th)
  {
    SumUpdate(s.threads, t, th, Held(x));
  }

  lemma SetDequePresent(s: Pool, d: WorkerId, q: seq<Task>, x: Task)
    requires d < |s.deques|
    ensures Present(SetDeque(s, d, q), x) + Times(s.deques[d], x) == Present(s, x) + Times(q, x)
  {
    SumUpdate(s.deques, d, q, Copies(x));
  }

  lemma PushPresent(s: Pool, th: Thread, task: Task, x: Task)
    ensures Present(Push(s, th, task), x) == Present(s, x) + Bit(task == x)
  {
    if HasDeque(s, th) {
      SetDequePresent(s, th.local.value, s.deques[th.local.value] + [task], x);
    }
  }

  lemma ReceivePresent(s: Pool, t: nat, batch: seq<Task>, x: Task)
    requires t < |s.threads| && s.threads[t].hand == None && batch != []
    requires HasDeque(s, s.threads[t]) || |batch| == 1
    ensures Present(Receive(s, t, batch), x) == Present(s, x) + Times(batch, x)
  {
    var th := s.threads[t];
    var held := Set(s, t, th.(hand := Some(batch[0])));
    SetPresent(s, t, th.(hand := Some(batch[0])), x);
    TimesCut(batch, 1, x);
    if HasDeque(s, th) {
      SetDequePresent(held, th.local.value, s.deques[th.local.value] + batch[1..], x);
      TimesConcat(s.deques[th.local.value], batch[1..], x);
    } else {
      assert batch[1..] == [];
    }
  }

  lemma DrainPresent(s: Pool, t: nat, x: Task)
    requires t < |s.threads|
    ensures Present(DrainStep(s, t), x) == Present(s, x)
  {
    var th := s.threads[t];
    if th.phase.Draining? && th.phase.deque < |s.deques| {
      var d := th.phase.deque;
      if th.hand.Some? {
        SetPresent(s, t, th.(hand := None), x);
        PushPresent(Set(s, t, th.(hand := None)), th, th.hand.value, x);
      } else if s.deques[d] != [] {
        PopPresent(s, t, d, x);
      } else {
        InstallPresent(s, t, th.phase.install, x);
      }
    }
  }

  /** The front of a deque moves into a free hand. */
  lemma PopPresent(s: Pool, t: nat, d: WorkerId, x: Task)
    requires t < |s.threads| && d < |s.deques| && s.deques[d] != [] && s.threads[t].hand == None
    ensures var th := s.threads[t]; var q := s.deques[d];
      Present(SetDeque(Set(s, t, th.(hand := Some(q[0]))), d, q[1..]), x) == Present(s, x)
  {
    var th := s.threads[t];
    var q := s.deques[d];
    SetPresent(s, t, th.(hand := Some(q[0])), x);
    SetDequePresent(Set(s, t, th.(hand := Some(q[0]))), d, q[1..], x);
    TimesCut(q, 1, x);
  }

  lemma InstallPresent(s: Pool, t: nat, install: Option<WorkerId>, x: Task)
    requires t < |s.threads|
    ensures Present(Install(s, t, install), x) == Present(s, x)
  {
    var th := s.threads[t];
    match install
    case None => SetPresent(s, t, th.(phase := Calm), x);
    case Some(id) => SetPresent(s, t, th.(phase := Calm, local := Some(id)), x);
  }

  lemma StealPeerPresent(s: Pool, t: nat, victim: WorkerId, n: nat, x: Task)
    requires t < |s.threads|
    ensures Present(Step(s, StealPeer(t, victim, n)), x) == Present(s, x)
  {
    var th := s.threads[t];
    if Free(s, t) && victim < |s.deques| && th.local != Some(victim) && s.deques[victim] != [] {
      var q := s.deques[victim];
      var k := Batch(s, th, q, n);
      SetDequePresent(s, victim, q[k..], x);
      ReceivePresent(SetDeque(s, victim, q[k..]), t, q[..k], x);
      TimesCut(q, k, x);
    }
  }

  lemma StealInjectorPresent(s: Pool, t: nat, n: nat, x: Task)
    requires t < |s.threads|
    ensures Present(Step(s, StealInjector(t, n)), x) == Present(s, x)
  {
    var th := s.threads[t];
    if Free(s, t) && s.injector != [] {
      var k := Batch(s, th, s.injector, n);
      ReceivePresent(s, t, s.injector[..k], x);
      TimesCut(s.injector, k, x);
    }
  }

  lemma RegisterPresent(s: Pool, t: nat, x: Task)
    requires t < |s.threads|
    ensures Present(Step(s, Register(t)), x) == Present(s, x)
  {
    if Free(s, t) {
      var th := s.threads[t];
      var id := |s.deques|;
      MadePresent(s, x);
      if HasDeque(s, th) {
        SetPresent(Made(s), t, th.(local := None, phase := Draining(th.local.value, Some(id))), x);
      } else {
        InstallPresent(Made(s), t, Some(id), x);
      }
    }
  }

  /** A new deque holds nothing. */
  lemma MadePresent(s: Pool, x: Task)
    ensures Present(Made(s), x) == Present(s, x)
  {
    SumLast(s.deques, [], Copies(x));
  }

  lemma DropPresent(s: Pool, t: nat, id: WorkerId, x: Task)
    requires t < |s.threads|
    ensures Present(Step(s, DropGuard(t, id)), x) == Present(s, x)
  {
    var th := s.threads[t];
    SetPresent(s, t, th.(local := None, phase := Draining(id, None)), x);
  }

  lemma PopStepPresent(s: Pool, t: nat, x: Task)
    requires t < |s.threads|
    ensures Present(Step(s, Pop(t)), x) == Present(s, x)
  {
    var th := s.threads[t];
    if Free(s, t) && HasDeque(s, th) && s.deques[th.local.value] != [] {
      PopPresent(s, t, th.local.value, x);
    }
  }

  predicate Balanced(s: Pool, x: Task)
  {
    Present(s, x) + s.ran[x] == s.enqueued[x]
  }

  predicate MovesOnly(e: Event) { !e.Enqueue? && !e.RunHand? }

  /** Steps that neither enqueue nor run a task keep every handle somewhere in the pool. */
  lemma MovePresent(s: Pool, e: Event, x: Task)
    requires MovesOnly(e)
    ensures Present(Step(s, e), x) == Present(s, x)
  {
    if e.t < |s.threads| {
      match e
      case Pop(t) => PopStepPresent(s, t, x);
      case StealInjector(t, n) => StealInjectorPresent(s, t, n, x);
      case StealPeer(t, victim, n) => StealPeerPresent(s, t, victim, n, x);
      case Register(t) => RegisterPresent(s, t, x);
      case DropGuard(t, id) => DropPresent(s, t, id, x);
      case Drain(t) => DrainPresent(s, t, x);
      case _ =>
    }
  }

  lemma MoveHistory(s: Pool, e: Event)
    requires MovesOnly(e)
    ensures Step(s, e).ran == s.ran && Step(s, e).enqueued == s.enqueued
  {
  }

  lemma EnqueueBalanced(s: Pool, t: nat, task: Task, x: Task)
    requires Balanced(s, x) && t < |s.threads|
    ensures Balanced(Step(s, Enqueue(t, task)), x)
  {
    PushPresent(s, s.threads[t], task, x);
  }

  lemma RunBalanced(s: Pool, t: nat, x: Task)
    requires Balanced(s, x) && t < |s.threads|
    ensures Balanced(Step(s, RunHand(t)), x)
  {
    SetPresent(s, t, s.threads[t].(hand := None), x);
  }

  lemma StepBalanced(s: Pool, e: Event, x: Task)
    requires Balanced(s, x)
    ensures Balanced(Step(s, e), x)
  {
    if MovesOnly(e) {
      MovePresent(s, e, x);
      MoveHistory(s, e);
    } else if e.t < |s.threads| {
      match e {
        case Enqueue(t, task) => EnqueueBalanced(s, t, task, x);
        case RunHand(t) => RunBalanced(s, t, x);
      }
    }
  }

  lemma {:induction false} ExecBalanced(s: Pool, schedule: seq<Event>, x: Task)
    requires Balanced(s, x)
    ensures Balanced(Exec(s, schedule), x)
    decreases |schedule|
  {
    if schedule != [] {
      StepBalanced(s, schedule[0], x);
      ExecBalanced(Step(s, schedule[0]), schedule[1..], x);
    }
  }

  // --- nothing is stranded --------------------------------------------------------------------

  predicate Owns(th: Thread, d: WorkerId)
  {
    th.local == Some(d) || (th.phase.Draining? && th.phase.deque == d)
  }

  predicate ThreadOk(s: Pool, th: Thread)
  {
    && (th.local.Some? ==> th.local.value < |s.deques|)
    && (th.phase.Draining? ==> th.phase.deque < |s.deques| && th.local == None)
    && (th.phase.Draining? && th.phase.install.Some? ==> th.phase.install.value < |s.deques|)
    && (th.local.Some? && !s.strayed ==> th.local.value in s.live)
  }

  /** A deque with tasks in it is installed on a thread or being flushed by one. */
  ghost predicate Kept(s: Pool)
  {
    && (forall t :: 0 <= t < |s.threads| ==> ThreadOk(s, s.threads[t]))
    && (forall d :: 0 <= d < |s.deques| && s.deques[d] != [] ==> Owned(s, d))
  }

  ghost predicate Owned(s: Pool, d: WorkerId)
  {
    exists t :: 0 <= t < |s.threads| && Owns(s.threads[t], d)
  }

  /** What one step does, seen from the ownership of the deques. */
  ghost predicate Handled(s: Pool, t: nat, s': Pool)
    requires t < |s.threads|
  {
    && |s'.threads| == |s.threads|
    && (forall u :: 0 <= u < |s.threads| && u != t ==> s'.threads[u] == s.threads[u])
    && |s.deques| <= |s'.deques|
    && (s.strayed ==> s'.strayed)
    && (s'.strayed || forall u, d | 0 <= u < |s.threads| && u != t && d in s.live ::
          s.threads[u].local == Some(d) ==> d in s'.live)
    && ThreadOk(s', s'.threads[t])
    && (forall d :: 0 <= d < |s'.deques| && s'.deques[d] != [] && !Owns(s'.threads[t], d) ==>
          d < |s.deques| && s.deques[d] != [] && !Owns(s.threads[t], d))
  }

  lemma HandleReceive(s: Pool, t: nat, batch: seq<Task>)
    requires t < |s.threads| && ThreadOk(s, s.threads[t]) && batch != []
    ensures Handled(s, t, Receive(s, t, batch))
  {
  }

  lemma HandleSteal(s: Pool, e: Event)
    requires e.t < |s.threads| && ThreadOk(s, s.threads[e.t])
    requires e.StealInjector? || e.StealPeer?
    ensures Handled(s, e.t, Step(s, e))
  {
    var th := s.threads[e.t];
    match e
    case StealInjector(t, n) =>
      if Free(s, t) && s.injector != [] {
        HandleReceive(s, t, s.injector[..Batch(s, th, s.injector, n)]);
      }
    case StealPeer(t, victim, n) =>
      if Free(s, t) && victim < |s.deques| && th.local != Some(victim) && s.deques[victim] != [] {
        var q := s.deques[victim];
        var k := Batch(s, th, q, n);
        HandleReceive(SetDeque(s, victim, q[k..]), t, q[..k]);
      }
  }

  lemma HandleQueue(s: Pool, e: Event)
    requires e.t < |s.threads| && ThreadOk(s, s.threads[e.t])
    requires e.Enqueue? || e.Pop? || e.RunHand?
    ensures Handled(s, e.t, Step(s, e))
  {
  }

  lemma HandleDrain(s: Pool, t: nat)
    requires t < |s.threads| && ThreadOk(s, s.threads[t])
    ensures Handled(s, t, DrainStep(s, t))
  {
  }

  lemma HandleRegistration(s: Pool, e: Event)
    requires e.t < |s.threads| && ThreadOk(s, s.threads[e.t])
    requires e.Register? || e.DropGuard?
    ensures Handled(s, e.t, Step(s, e))
  {
  }

  lemma Handle(s: Pool, e: Event)
    requires e.t < |s.threads| && ThreadOk(s, s.threads[e.t])
    ensures Handled(s, e.t, Step(s, e))
  {
    match e
    case Enqueue(_, _) | Pop(_) | RunHand(_) => HandleQueue(s, e);
    case StealInjector(_, _) | StealPeer(_, _, _) => HandleSteal(s, e);
    case Register(_) | DropGuard(_, _) => HandleRegistration(s, e);
    case Drain(t) => HandleDrain(s, t);
  }

  lemma StepKept(s: Pool, e: Event)
    requires Kept(s)
    ensures Kept(Step(s, e))
  {
    var s' := Step(s, e);
    if e.t < |s.threads| {
      var t := e.t;
      Handle(s, e);
      forall u | 0 <= u < |s'.threads|
        ensures ThreadOk(s', s'.threads[u])
      {
        assert ThreadOk(s, s.threads[u]);
      }
      forall d | 0 <= d < |s'.deques| && s'.deques[d] != []
        ensures Owned(s', d)
      {
        if Owns(s'.threads[t], d) {
        } else {
          var u :| 0 <= u < |s.threads| && Owns(s.threads[u], d);
          assert Owns(s'.threads[u], d);
        }
      }
    }
  }

  lemma {:induction false} ExecKept(s: Pool, schedule: seq<Event>)
    requires Kept(s)
    ensures Kept(Exec(s, schedule))
    decreases |schedule|
  {
    if schedule != [] {
      StepKept(s, schedule[0]);
      ExecKept(Step(s, schedule[0]), schedule[1..]);
    }
  }

  // --- the results ----------------------------------------------------------------------------

  /** In every run, for every task: its handles in the injector, the deques and the hands, and the
      runs it has had, number exactly its enqueues. */
  lemma TasksConserved(threads: nat, schedule: seq<Event>, x: Task)
    ensures var s := Exec(Fresh(threads), schedule);
      Times(s.injector, x) + InDeques(s.deques, x) + InHands(s.threads, x) + s.ran[x] == s.enqueued[x]
  {
    var s := Fresh(threads);
    SumZero(s.threads, Held(x));
    assert Balanced(s, x);
    ExecBalanced(s, schedule, x);
  }

  ghost predicate Quiet(s: Pool)
  {
    forall t :: 0 <= t < |s.threads| ==> s.threads[t].phase == Calm && s.threads[t].hand == None
  }

  /** Some thread still has a deque with tasks in it installed. */
  ghost predicate Stranded(s: Pool)
  {
    exists t :: 0 <= t < |s.threads| && HasDeque(s, s.threads[t]) && s.deques[s.threads[t].local.value] != []
  }

  /** However and wherever guards were dropped: when all are gone and no call is under way, every
      handle enqueued and not run is in the injector exactly when no thread still has a deque with
      tasks installed. */
  lemma RemainderExactly(threads: nat, schedule: seq<Event>)
    requires var s := Exec(Fresh(threads), schedule); s.live == {} && Quiet(s)
    ensures var s := Exec(Fresh(threads), schedule);
      multiset(s.injector) + s.ran == s.enqueued <==> !Stranded(s)
  {
    var s := Exec(Fresh(threads), schedule);
    if Stranded(s) {
      var t :| 0 <= t < |s.threads| && HasDeque(s, s.threads[t]) && s.deques[s.threads[t].local.value] != [];
      var d := s.threads[t].local.value;
      var x := s.deques[d][0];
      TasksConserved(threads, schedule, x);
      SumMember(s.deques, d, Copies(x));
      assert (multiset(s.injector) + s.ran)[x] < s.enqueued[x];
    } else {
      ExecKept(Fresh(threads), schedule);
      forall d | 0 <= d < |s.deques|
        ensures s.deques[d] == []
      {
        if s.deques[d] != [] { assert false; }
      }
      forall x: Task
        ensures (multiset(s.injector) + s.ran)[x] == s.enqueued[x]
      {
        TasksConserved(threads, schedule, x);
        SumZero(s.deques, Copies(x));
        SumZero(s.threads, Held(x));
      }
      assert forall x :: (multiset(s.injector) + s.ran)[x] == s.enqueued[x];
    }
  }

  /** So it is in particular when each guard was dropped on its own thread. */
  lemma RemainderInInjector(threads: nat, schedule: seq<Event>)
    requires var s := Exec(Fresh(threads), schedule); s.live == {} && !s.strayed && Quiet(s)
    ensures var s := Exec(Fresh(threads), schedule);
      multiset(s.injector) + s.ran == s.enqueued
  {
    var s := Exec(Fresh(threads), schedule);
    ExecKept(Fresh(threads), schedule);
    forall t | 0 <= t < |s.threads|
      ensures s.threads[t].local == None
    {
      assert ThreadOk(s, s.threads[t]);
    }
    RemainderExactly(threads, schedule);
  }

  /** The hypothesis is needed: a guard sent to another thread and dropped there leaves its deque
      installed, and the tasks in it never reach the injector. */
  lemma StrayGuardStrands(task: Task)
    ensures var s := Exec(Fresh(2), [Register(0), Enqueue(0, task), DropGuard(1, 0)]);
      && s.live == {} && Quiet(s) && s.strayed
      && s.injector == [] && s.ran == multiset{} && s.enqueued == multiset{task}
  {
    var s1 := Step(Fresh(2), Register(0));
    StrayRegisters();
    var s2 := Step(s1, Enqueue(0, task));
    assert [] + [task] == [task];
    assert s2.deques == [[task]] && s2.threads == s1.threads && s2.live == {0};
    StrayDrops(s2);
    var s3 := Step(s2, DropGuard(1, 0));
    var schedule := [Register(0), Enqueue(0, task), DropGuard(1, 0)];
    assert schedule[1..][1..] == [DropGuard(1, 0)] && schedule[1..] == [Enqueue(0, task), DropGuard(1, 0)];
    assert Exec(s3, []) == s3;
    assert Exec(s2, [DropGuard(1, 0)]) == s3;
    assert Exec(s1, schedule[1..]) == s3;
  }

  lemma StrayRegisters()
    ensures Step(Fresh(2), Register(0))
         == Pool([], [[]], [Thread(Some(0), None, Calm), Thread(None, None, Calm)], {0}, multiset{}, multiset{}, false)
  {
  }

  /** Dropping the guard of worker 0 on thread 1 changes neither the deque nor where it is installed. */
  lemma StrayDrops(s: Pool)
    requires s.threads == [Thread(Some(0), None, Calm), Thread(None, None, Calm)] && s.live == {0}
    ensures Step(s, DropGuard(1, 0)) == s.(live := {}, strayed := true)
  {
    assert s.threads[0].local == Some(0);
  }

  // --- every step takes effect ----------------------------------------------------------------

  /** A task enqueued goes to the back of the caller's deque, or of the injector when it has none. */
  lemma EnqueueTakesEffect(s: Pool, t: nat, task: Task)
    requires t < |s.threads| && Free(s, t)
    ensures var s' := Step(s, Enqueue(t, task)); var th := s.threads[t];
      && s'.enqueued == s.enqueued + multiset{task}
      && (if HasDeque(s, th) then
            s'.deques == s.deques[th.local.value := s.deques[th.local.value] + [task]] && s'.injector == s.injector
          else s'.injector == s.injector + [task] && s'.deques == s.deques)
  {
  }

  /** The pool with one task fewer waiting and one more run, thread 0 as it was. */
  predicate RunsOne(s: Pool, s': Pool, task: Task)
  {
    s'.threads == s.threads && s'.ran == s.ran + multiset{task} && s'.enqueued == s.enqueued && s'.live == s.live
  }

  lemma RunFromInjector(s: Pool)
    requires |s.threads| > 0 && Free(s, 0) && s.injector != []
    ensures var s' := Exec(s, [StealInjector(0, 1), RunHand(0)]);
      RunsOne(s, s', s.injector[0]) && s'.injector == s.injector[1..] && s'.deques == s.deques
  {
    Fold2(Step, s, StealInjector(0, 1), RunHand(0));
    var held := Step(s, StealInjector(0, 1));
    assert s.injector[..1][1..] == [];
    if HasDeque(s, s.threads[0]) { NothingMore(s.deques, s.threads[0].local.value); }
    assert held.deques == s.deques;
    assert Step(held, RunHand(0)).threads == s.threads;
  }

  lemma NothingMore(ds: seq<seq<Task>>, d: nat)
    requires d < |ds|
    ensures ds[d := ds[d] + []] == ds
  {
    assert ds[d] + [] == ds[d];
  }

  /** Thread 0 runs the front task of deque `d`, its own or another worker's. */
  function RunFrom(s: Pool, d: WorkerId): seq<Event>
    requires |s.threads| > 0
  {
    [if s.threads[0].local == Some(d) then Pop(0) else StealPeer(0, d, 1), RunHand(0)]
  }

  lemma RunFromDeque(s: Pool, d: WorkerId)
    requires |s.threads| > 0 && Free(s, 0) && d < |s.deques| && s.deques[d] != []
    ensures var s' := Exec(s, RunFrom(s, d));
      RunsOne(s, s', s.deques[d][0]) && s'.injector == s.injector && s'.deques == s.deques[d := s.deques[d][1..]]
  {
    var first := RunFrom(s, d)[0];
    Fold2(Step, s, first, RunHand(0));
    var held := Step(s, first);
    assert s.deques[d][..1][1..] == [];
    var left := s.deques[d := s.deques[d][1..]];
    if first.StealPeer? && HasDeque(s, s.threads[0]) { NothingMore(left, s.threads[0].local.value); }
    assert held.deques == left;
    assert Step(held, RunHand(0)).threads == s.threads;
  }

  /** How many tasks wait in the injector and the deques. */
  function Waiting(s: Pool): (n: nat) { |s.injector| + Sum(s.deques, Length) }

  function Length(q: seq<Task>): (n: nat) { |q| }

  lemma {:induction false} DrainPool(s: Pool) returns (schedule: seq<Event>)
    requires |s.threads| > 0 && Quiet(s)
    ensures var t := Exec(s, schedule);
      && t.threads == s.threads && t.enqueued == s.enqueued
      && t.injector == [] && forall d :: 0 <= d < |t.deques| ==> t.deques[d] == []
    decreases Waiting(s)
  {
    if s.injector != [] {
      RunFromInjector(s);
      var first := [StealInjector(0, 1), RunHand(0)];
      var rest := DrainPool(Exec(s, first));
      FoldAppend(Step, s, first, rest);
      schedule := first + rest;
    } else if d :| 0 <= d < |s.deques| && s.deques[d] != [] {
      RunFromDeque(s, d);
      SumUpdate(s.deques, d, s.deques[d][1..], Length);
      var rest := DrainPool(Exec(s, RunFrom(s, d)));
      FoldAppend(Step, s, RunFrom(s, d), rest);
      schedule := RunFrom(s, d) + rest;
    } else {
      schedule := [];
    }
  }

  /** Whatever has happened, everything enqueued can still be run: from any quiet moment of any run a
      single thread can go on to run all that waits, wherever it is. */
  lemma EverythingCanRun(threads: nat, schedule: seq<Event>) returns (more: seq<Event>)
    requires threads > 0 && Quiet(Exec(Fresh(threads), schedule))
    ensures var s := Exec(Fresh(threads), schedule + more);
      s.ran == s.enqueued == Exec(Fresh(threads), schedule).enqueued
  {
    ThreadsStay(Fresh(threads), schedule);
    more := DrainPool(Exec(Fresh(threads), schedule));
    FoldAppend(Step, Fresh(threads), schedule, more);
    var s := Exec(Fresh(threads), schedule + more);
    forall x: Task
      ensures s.ran[x] == s.enqueued[x]
    {
      TasksConserved(threads, schedule + more, x);
      SumZero(s.deques, Copies(x));
      SumZero(s.threads, Held(x));
    }
    assert forall x :: s.ran[x] == s.enqueued[x];
  }

  lemma {:induction false} ThreadsStay(s: Pool, schedule: seq<Event>)
    ensures |Exec(s, schedule).threads| == |s.threads|
    decreases |schedule|
  {
    if schedule != [] {
      ThreadsStep(s, schedule[0]);
      ThreadsStay(Step(s, schedule[0]), schedule[1..]);
    }
  }

  lemma ThreadsStep(s: Pool, e: Event)
    ensures |Step(s, e).threads| == |s.threads|
  {
  }

  /** A flush moves the whole deque to the back of the injector, in order, and then installs the new
      deque, if there is one. */
  lemma {:induction false} FlushCompletes(s: Pool, t: nat) returns (schedule: seq<Event>)
    requires t < |s.threads| && s.threads[t].phase.Draining? && s.threads[t].hand == None && s.threads[t].local == None
    requires s.threads[t].phase.deque < |s.deques|
    ensures var th := s.threads[t]; var s' := Exec(s, schedule);
      && s'.threads == s.threads[t := Thread(th.phase.install, None, Calm)]
      && s'.injector == s.injector + s.deques[th.phase.deque]
      && s'.deques == s.deques[th.phase.deque := []]
      && s'.live == s.live + (if th.phase.install.Some? then {th.phase.install.value} else {})
    decreases |s.deques[s.threads[t].phase.deque]|
  {
    var d := s.threads[t].phase.deque;
    if s.deques[d] == [] {
      schedule := [Drain(t)];
      FlushEnds(s, t);
    } else {
      FlushOne(s, t);
      var two := [Drain(t), Drain(t)];
      var rest := FlushCompletes(Exec(s, two), t);
      FoldAppend(Step, s, two, rest);
      schedule := two + rest;
      assert [s.deques[d][0]] + s.deques[d][1..] == s.deques[d];
    }
  }

  lemma FlushEnds(s: Pool, t: nat)
    requires t < |s.threads| && s.threads[t].phase.Draining? && s.threads[t].hand == None && s.threads[t].local == None
    requires s.threads[t].phase.deque < |s.deques| && s.deques[s.threads[t].phase.deque] == []
    ensures var th := s.threads[t]; var s' := Exec(s, [Drain(t)]);
      && s'.threads == s.threads[t := Thread(th.phase.install, None, Calm)]
      && s'.injector == s.injector && s'.deques == s.deques[th.phase.deque := []]
      && s'.live == s.live + (if th.phase.install.Some? then {th.phase.install.value} else {})
  {
    FoldOne(Step, s, [], Drain(t));
    assert [] + [Drain(t)] == [Drain(t)];
    assert s.deques[s.threads[t].phase.deque := []] == s.deques;
  }

  lemma FlushOne(s: Pool, t: nat)
    requires t < |s.threads| && s.threads[t].phase.Draining? && s.threads[t].hand == None && s.threads[t].local == None
    requires s.threads[t].phase.deque < |s.deques| && s.deques[s.threads[t].phase.deque] != []
    ensures var d := s.threads[t].phase.deque; var s' := Exec(s, [Drain(t), Drain(t)]);
      && s'.threads == s.threads && s'.live == s.live
      && s'.injector == s.injector + [s.deques[d][0]] && s'.deques == s.deques[d := s.deques[d][1..]]
  {
    Fold2(Step, s, Drain(t), Drain(t));
    var held := Step(s, Drain(t));
    assert Step(held, Drain(t)).threads == s.threads;
  }

  /** A registration makes a new, live worker, and begins the flush of the deque installed before. */
  lemma RegisterTakesEffect(s: Pool, t: nat)
    requires t < |s.threads| && Free(s, t)
    ensures var s' := Step(s, Register(t)); var th := s.threads[t]; var id := |s.deques|;
      && s'.deques == s.deques + [[]]
      && (if HasDeque(s, th) then
            s'.threads[t] == Thread(None, None, Draining(th.local.value, Some(id))) && s'.live == s.live
          else s'.threads[t] == Thread(Some(id), None, Calm) && s'.live == s.live + {id})
  {
  }

  /** Dropping a live guard ends that worker, and begins the flush of its deque when the thread still
      has it installed; a stale guard touches nothing else. */
  lemma DropTakesEffect(s: Pool, t: nat, id: WorkerId)
    requires t < |s.threads| && Free(s, t) && id in s.live
    ensures var s' := Step(s, DropGuard(t, id)); var th := s.threads[t];
      && s'.live == s.live - {id} && s'.deques == s.deques && s'.injector == s.injector
      && s'.threads[t] == if th.local == Some(id) then Thread(None, None, Draining(id, None)) else th
  {
  }

  /** A steal by a thread with a deque takes as many tasks as it asks for, when there are that many: the
      first in hand, the others to the back of its deque, in order. */
  lemma StealTakesBatch(s: Pool, t: nat, victim: WorkerId, n: nat)
    requires t < |s.threads| && Free(s, t) && HasDeque(s, s.threads[t]) && s.threads[t].local != Some(victim)
    requires victim < |s.deques| && 1 <= n <= |s.deques[victim]|
    ensures var s' := Step(s, StealPeer(t, victim, n)); var own := s.threads[t].local.value; var q := s.deques[victim];
      && s'.threads[t].hand == Some(q[0])
      && s'.deques == s.deques[victim := q[n..]][own := s.deques[own] + q[1..n]]
  {
    assert s.deques[victim][..n][1..] == s.deques[victim][1..n];
  }

  lemma StealFromInjectorTakesBatch(s: Pool, t: nat, n: nat)
    requires t < |s.threads| && Free(s, t) && HasDeque(s, s.threads[t]) && 1 <= n <= |s.injector|
    ensures var s' := Step(s, StealInjector(t, n)); var own := s.threads[t].local.value;
      && s'.threads[t].hand == Some(s.injector[0]) && s'.injector == s.injector[n..]
      && s'.deques == s.deques[own := s.deques[own] + s.injector[1..n]]
  {
    assert s.injector[..n][1..] == s.injector[1..n];
  }
}

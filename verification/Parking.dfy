/** Idle workers and the threads that inject work for them (hypertile-core/src/worker.rs:225-237,
    hypertile-core/src/executor.rs:112-154 and 212-219), under every interleaving.

    The idle stack is guarded by its lock, but the counter that mirrors it is read without the
    lock, so every lock section that changes both is two steps here. */
module Parking {
  import opened Prelude

  /** A worker in `run_loop`.  `Awake` stands for the whole loop outside the idle protocol. */
  datatype WorkerPc =
    | Awake
    | MarkPush
    | MarkCount
    | Probe          // the double check of the injector
    | Park           // about to park, or parked
    | Unmark
    | UnmarkCount(removed: nat)

  /** A thread outside the pool: it pushes to the injector and then unparks one idle worker. */
  datatype PusherPc =
    | Away
    | Load
    | Pop
    | PopCount(id: nat)
    | Find(id: nat)

  datatype Holder = Free | Worker(w: nat) | Pusher(p: nat)

  datatype Shared = Shared(
    injector: nat,           // tasks waiting in the global injector
    stack: seq<nat>,         // the idle stack, last member on top
    count: int,              // its mirrored counter
    lock: Holder,            // who is inside an idle-stack lock section
    tokens: set<nat>,        // workers whose parker holds an unpark token
    registered: set<nat>)    // the worker map's keys

  datatype Pool = Pool(sh: Shared, workers: seq<WorkerPc>, pushers: seq<PusherPc>)

  datatype WorkerChoice = Go | Take(n: nat) | GoIdle | TimedOut

  datatype PusherChoice = Inject | UnparkOnly | Continue

  datatype Event =
    | WorkerMoves(w: nat, wc: WorkerChoice)
    | PusherMoves(p: nat, pc: PusherChoice)
    | Collide(w: nat, thief: nat)   // w's probe reads Retry because the thief's steal succeeds
    | Churn(id: nat, present: bool) // some other thread registers or deregisters as a worker
    | Outside(n: nat)               // such a thread steals from the injector

  datatype WorkerMove = WorkerMove(sh: Shared, at: WorkerPc)

  function Steal(h: Shared, n: nat): Shared
    requires h.injector > 0
  {
    h.(injector := if 1 <= n <= h.injector then h.injector - n else h.injector - 1)
  }

  function WorkerAct(h: Shared, w: nat, at: WorkerPc, c: WorkerChoice): WorkerMove
  {
    match at
    case Awake =>
      if c == GoIdle then WorkerMove(h, MarkPush)
      else if c.Take? && h.injector > 0 then WorkerMove(Steal(h, c.n), Awake)
      else WorkerMove(h, Awake)
    case MarkPush =>
      if h.lock != Free then WorkerMove(h, at)
      else if w in h.stack then WorkerMove(h, Probe)
      else WorkerMove(h.(stack := h.stack + [w], lock := Worker(w)), MarkCount)
    case MarkCount => WorkerMove(h.(count := h.count + 1, lock := Free), Probe)
    case Probe =>
      if h.injector == 0 then WorkerMove(h, Park)
      else WorkerMove(Steal(h, if c.Take? then c.n else 1), Unmark)
    case Park =>
      if w in h.tokens then WorkerMove(h.(tokens := h.tokens - {w}), Unmark)
      else WorkerMove(h, if c == TimedOut then Unmark else Park)
    case Unmark =>
      if h.lock != Free then WorkerMove(h, at)
      else
        var kept := Without(h.stack, w);
        if |kept| == |h.stack| then WorkerMove(h, Awake)
        else WorkerMove(h.(stack := kept, lock := Worker(w)), UnmarkCount(|h.stack| - |kept|))
    case UnmarkCount(removed) => WorkerMove(h.(count := h.count - removed, lock := Free), Awake)
  }

  datatype PusherMove = PusherMove(sh: Shared, at: PusherPc)

  function PusherAct(h: Shared, p: nat, at: PusherPc, c: PusherChoice): PusherMove
  {
    match at
    case Away =>
      (match c
       case Inject => PusherMove(h.(injector := h.injector + 1), Load)
       case UnparkOnly => PusherMove(h, Load)
       case Continue => PusherMove(h, Away))
    case Load => PusherMove(h, if h.count == 0 then Away else Pop)
    case Pop =>
      if h.lock != Free then PusherMove(h, at)
      else if h.stack == [] then PusherMove(h, Away)
      else
        var top := |h.stack| - 1;
        PusherMove(h.(stack := h.stack[..top], lock := Pusher(p)), PopCount(h.stack[top]))
    case PopCount(id) => PusherMove(h.(count := h.count - 1, lock := Free), Find(id))
    case Find(id) =>
      if id in h.registered then PusherMove(h.(tokens := h.tokens + {id}), Away)
      else PusherMove(h, Pop)
  }

  function Step(s: Pool, e: Event): Pool
  {
    match e
    case WorkerMoves(w, c) =>
      if w >= |s.workers| then s
      else
        var m := WorkerAct(s.sh, w, s.workers[w], c);
        s.(sh := m.sh, workers := s.workers[w := m.at])
    case PusherMoves(p, c) =>
      if p >= |s.pushers| then s
      else
        var m := PusherAct(s.sh, p, s.pushers[p], c);
        s.(sh := m.sh, pushers := s.pushers[p := m.at])
    case Collide(w, thief) =>
      if w < |s.workers| && thief < |s.workers| && w != thief && s.workers[w] == Probe
         && (s.workers[thief] == Awake || s.workers[thief] == Probe) && s.sh.injector > 0 then
        s.(sh := Steal(s.sh, 1),
           workers := s.workers[w := Park][thief := if s.workers[thief] == Probe then Unmark else Awake])
      else s
    case Churn(id, present) =>
      // a worker in run_loop deregisters only after the loop, when the pool has stopped
      if id < |s.workers| then s
      else s.(sh := s.sh.(registered := if present then s.sh.registered + {id} else s.sh.registered - {id}))
    case Outside(n) => if s.sh.injector > 0 then s.(sh := Steal(s.sh, n)) else s
  }

  function Exec(s: Pool, schedule: seq<Event>): Pool
  {
    Fold(Step, s, schedule)
  }

  function Ids(n: nat): (r: set<nat>)
    ensures forall i: nat :: i in r <==> i < n
  {
    if n == 0 then {} else Ids(n - 1) + {n - 1}
  }

  /** A pool that has just started: every worker is registered and awake. */
  function Started(workers: nat, pushers: nat): Pool
  {
    Pool(Shared(0, [], 0, Free, {}, Ids(workers)),
         seq(workers, k => Awake), seq(pushers, k => Away))
  }

  // --- what every step keeps ------------------------------------------------------------------

  predicate Carries(at: PusherPc, w: nat) { at == PopCount(w) || at == Find(w) }

  /** Somebody popped `w` from the stack and has not delivered its token yet. */
  ghost predicate Carried(s: Pool, w: nat)
  {
    exists p :: 0 <= p < |s.pushers| && Carries(s.pushers[p], w)
  }

  /** By how much the counter lags behind the stack. */
  function Lag(s: Pool): int
  {
    match s.sh.lock
    case Free => 0
    case Worker(w) =>
      if w >= |s.workers| then 0
      else if s.workers[w] == MarkCount then -1
      else if s.workers[w].UnmarkCount? then s.workers[w].removed
      else 0
    case Pusher(p) => 1
  }

  predicate WorkerAt(h: Shared, w: nat, at: WorkerPc)
  {
    && (at.MarkCount? || at.UnmarkCount? <==> h.lock == Worker(w))
    && (at.MarkCount? ==> w in h.stack)
    && (w in h.stack ==> at.MarkCount? || at.Probe? || at.Park? || at.Unmark?)
    && w in h.registered
  }

  predicate PusherAt(h: Shared, p: nat, at: PusherPc)
  {
    at.PopCount? <==> h.lock == Pusher(p)
  }

  ghost predicate Consistent(s: Pool)
  {
    && Distinct(s.sh.stack)
    && (forall x :: x in s.sh.stack ==> x < |s.workers|)
    && s.sh.count == |s.sh.stack| + Lag(s)
    && (s.sh.lock.Worker? ==> s.sh.lock.w < |s.workers|)
    && (s.sh.lock.Pusher? ==> s.sh.lock.p < |s.pushers|)
    && (forall w :: 0 <= w < |s.workers| ==> WorkerAt(s.sh, w, s.workers[w]))
    && (forall p :: 0 <= p < |s.pushers| ==> PusherAt(s.sh, p, s.pushers[p]))
    && (forall w :: 0 <= w < |s.workers| && (s.workers[w].Probe? || s.workers[w].Park?) ==>
          w in s.sh.stack || w in s.sh.tokens || Carried(s, w))
    && (forall p :: 0 <= p < |s.pushers| ==> CarriesWorker(s.pushers[p], |s.workers|))
  }

  predicate CarriesWorker(at: PusherPc, n: nat) { at.PopCount? || at.Find? ==> at.id < n }

  predicate Roused(s: Pool, w: nat)
  {
    w < |s.workers| && (!s.workers[w].Park? || w in s.sh.tokens)
  }

  ghost predicate SomeoneRoused(s: Pool)
  {
    exists w :: 0 <= w < |s.workers| && Roused(s, w)
  }

  ghost predicate SomeonePushing(s: Pool)
  {
    exists p :: 0 <= p < |s.pushers| && !s.pushers[p].Away?
  }

  /** Work in the injector always has somebody coming for it. */
  ghost predicate Attended(s: Pool)
  {
    s.sh.injector > 0 ==> SomeoneRoused(s) || SomeonePushing(s)
  }

  /** What one step of a worker may do, seen from the other workers. */
  ghost predicate WorkerLeaves(h: Shared, w: nat, h': Shared)
  {
    && h'.registered == h.registered
    && (forall v :: v != w ==> (v in h'.stack <==> v in h.stack) && (v in h'.tokens <==> v in h.tokens))
    && (h'.lock == h.lock || (h.lock == Free && h'.lock == Worker(w)) || (h.lock == Worker(w) && h'.lock == Free))
  }

  lemma WorkerLocal(h: Shared, w: nat, at: WorkerPc, c: WorkerChoice)
    requires WorkerAt(h, w, at) && Distinct(h.stack)
    ensures var m := WorkerAct(h, w, at, c);
      && WorkerAt(m.sh, w, m.at)
      && Distinct(m.sh.stack)
      && WorkerLeaves(h, w, m.sh)
      && ((m.at.Probe? || m.at.Park?) && !(at.Probe? || at.Park?) ==> w in m.sh.stack)
      && (at.Probe? || at.Park? ==> m.at.Unmark? || (m.sh.stack == h.stack && m.sh.tokens == h.tokens))
  {
    WithoutDistinct(h.stack, w);
  }

  lemma WorkerStepConsistent(s: Pool, w: nat, c: WorkerChoice)
    requires Consistent(s) && w < |s.workers|
    ensures Consistent(Step(s, WorkerMoves(w, c)))
  {
    var m := WorkerAct(s.sh, w, s.workers[w], c);
    var s' := Step(s, WorkerMoves(w, c));
    assert WorkerAt(s.sh, w, s.workers[w]);
    WorkerLocal(s.sh, w, s.workers[w], c);
    WithoutDistinct(s.sh.stack, w);
    forall v | 0 <= v < |s'.workers|
      ensures WorkerAt(s'.sh, v, s'.workers[v])
    {
      assert WorkerAt(s.sh, v, s.workers[v]);
    }
    forall p | 0 <= p < |s'.pushers|
      ensures PusherAt(s'.sh, p, s'.pushers[p])
    {
      assert PusherAt(s.sh, p, s.pushers[p]);
    }
    forall v | 0 <= v < |s'.workers| && (s'.workers[v].Probe? || s'.workers[v].Park?)
      ensures v in s'.sh.stack || v in s'.sh.tokens || Carried(s', v)
    {
      if v != w || s.workers[w].Probe? || s.workers[w].Park? {
        if Carried(s, v) {
          var p :| 0 <= p < |s.pushers| && Carries(s.pushers[p], v);
          assert Carries(s'.pushers[p], v);
        }
      }
    }
  }

  /** What one step of a pusher may do. */
  ghost predicate PusherLeaves(h: Shared, p: nat, at: PusherPc, h': Shared, at': PusherPc)
  {
    && h'.registered == h.registered
    && h.tokens <= h'.tokens
    && Distinct(h'.stack)
    && (forall x :: x in h'.stack ==> x in h.stack)
    && (forall x :: x in h.stack && x !in h'.stack ==> Carries(at', x))
    && (forall x :: Carries(at, x) && x in h.registered ==> Carries(at', x) || x in h'.tokens)
    && (at'.PopCount? || at'.Find? ==> at'.id in h.stack || Carries(at, at'.id))
    && h'.count - |h'.stack| - Bit(at'.PopCount?) == h.count - |h.stack| - Bit(at.PopCount?)
    && (h'.lock == h.lock || (h.lock == Free && h'.lock == Pusher(p)) || (h.lock == Pusher(p) && h'.lock == Free))
  }

  lemma PusherLocal(h: Shared, p: nat, at: PusherPc, c: PusherChoice)
    requires PusherAt(h, p, at) && Distinct(h.stack)
    ensures var m := PusherAct(h, p, at, c);
      PusherAt(m.sh, p, m.at) && PusherLeaves(h, p, at, m.sh, m.at)
  {
    if h.stack != [] {
      var top := |h.stack| - 1;
      assert h.stack == h.stack[..top] + [h.stack[top]];
    }
  }

  lemma PusherStepConsistent(s: Pool, p: nat, c: PusherChoice)
    requires Consistent(s) && p < |s.pushers|
    ensures Consistent(Step(s, PusherMoves(p, c)))
  {
    var m := PusherAct(s.sh, p, s.pushers[p], c);
    var s' := Step(s, PusherMoves(p, c));
    assert PusherAt(s.sh, p, s.pushers[p]);
    PusherLocal(s.sh, p, s.pushers[p], c);
    forall v | 0 <= v < |s'.workers|
      ensures WorkerAt(s'.sh, v, s'.workers[v])
    {
      assert WorkerAt(s.sh, v, s.workers[v]);
    }
    forall q | 0 <= q < |s'.pushers|
      ensures PusherAt(s'.sh, q, s'.pushers[q]) && CarriesWorker(s'.pushers[q], |s.workers|)
    {
      assert PusherAt(s.sh, q, s.pushers[q]) && CarriesWorker(s.pushers[q], |s.workers|);
    }
    forall v | 0 <= v < |s'.workers| && (s'.workers[v].Probe? || s'.workers[v].Park?)
      ensures v in s'.sh.stack || v in s'.sh.tokens || Carried(s', v)
    {
      assert WorkerAt(s.sh, v, s.workers[v]);
      CarriedOn(s, s', p, v);
    }
  }

  lemma CarriedOn(s: Pool, s': Pool, p: nat, v: nat)
    requires p < |s.pushers| && |s'.pushers| == |s.pushers|
    requires s'.pushers == s.pushers[p := s'.pushers[p]]
    requires v in s.sh.registered
    requires PusherLeaves(s.sh, p, s.pushers[p], s'.sh, s'.pushers[p])
    requires v in s.sh.stack || v in s.sh.tokens || Carried(s, v)
    ensures v in s'.sh.stack || v in s'.sh.tokens || Carried(s', v)
  {
    if v !in s'.sh.tokens && v !in s'.sh.stack {
      if v in s.sh.stack {
        assert Carries(s'.pushers[p], v);
      } else {
        var q :| 0 <= q < |s.pushers| && Carries(s.pushers[q], v);
        assert Carries(s'.pushers[q], v);
      }
    }
  }

  lemma ConsistentStep(s: Pool, e: Event)
    requires Consistent(s)
    ensures Consistent(Step(s, e))
  {
    var s' := Step(s, e);
    match e
    case WorkerMoves(w, c) => if w < |s.workers| { WorkerStepConsistent(s, w, c); }
    case PusherMoves(p, c) => if p < |s.pushers| { PusherStepConsistent(s, p, c); }
    case Collide(w, thief) => CollideConsistent(s, w, thief);
    case _ =>
      assert forall v :: Carried(s, v) <==> Carried(s', v);
      forall v | 0 <= v < |s'.workers|
        ensures WorkerAt(s'.sh, v, s'.workers[v])
      {
        assert WorkerAt(s.sh, v, s.workers[v]);
      }
      forall q | 0 <= q < |s'.pushers|
        ensures PusherAt(s'.sh, q, s'.pushers[q])
      {
        assert PusherAt(s.sh, q, s.pushers[q]);
      }
  }

  lemma CollideConsistent(s: Pool, w: nat, thief: nat)
    requires Consistent(s)
    ensures Consistent(Step(s, Collide(w, thief)))
  {
    var s' := Step(s, Collide(w, thief));
    assert forall v :: Carried(s, v) <==> Carried(s', v);
    forall v | 0 <= v < |s'.workers|
      ensures WorkerAt(s'.sh, v, s'.workers[v])
    {
      assert WorkerAt(s.sh, v, s.workers[v]);
    }
    forall q | 0 <= q < |s'.pushers|
      ensures PusherAt(s'.sh, q, s'.pushers[q])
    {
      assert PusherAt(s.sh, q, s.pushers[q]);
    }
  }

  // --- no push is missed ----------------------------------------------------------------------

  /** When every worker sleeps without a token and this pusher carries none of them, a counter
      read of zero or an empty stack means another pusher is on its way. */
  lemma AsleepMeansCarried(s: Pool, p: nat)
    requires Consistent(s) && |s.workers| > 0 && p < |s.pushers|
    requires !SomeoneRoused(s)
    requires s.sh.count == 0 || (s.sh.lock == Free && s.sh.stack == [])
    requires s.pushers[p].Load? || s.pushers[p].Pop?
    ensures exists q :: 0 <= q < |s.pushers| && q != p && !s.pushers[q].Away?
  {
    forall w | 0 <= w < |s.workers|
      ensures s.workers[w].Park? && w !in s.sh.tokens && s.sh.lock != Worker(w)
    {
      assert !Roused(s, w) && WorkerAt(s.sh, w, s.workers[w]);
    }
    assert Carried(s, 0);
  }

  lemma AttendedStep(s: Pool, e: Event)
    requires Consistent(s) && Attended(s) && |s.workers| > 0
    ensures Attended(Step(s, e))
  {
    var s' := Step(s, e);
    if s'.sh.injector > 0 {
      match e
      case WorkerMoves(w, c) =>
        if w < |s.workers| {
          if s.workers[w].Park? {
            if SomeonePushing(s) {
              var p :| 0 <= p < |s.pushers| && !s.pushers[p].Away?;
              assert !s'.pushers[p].Away?;
            } else {
              var v :| 0 <= v < |s.workers| && Roused(s, v);
              assert Roused(s', v);
            }
          } else {
            assert Roused(s', w);
          }
        } else {
          AttendedSame(s, s');
        }
      case PusherMoves(p, c) =>
        if p < |s.pushers| { AttendedPusher(s, p, c); } else { AttendedSame(s, s'); }
      case Collide(w, thief) =>
        if s' == s { AttendedSame(s, s'); } else { assert Roused(s', thief); }
      case _ => AttendedSame(s, s');
    }
  }

  lemma AttendedSame(s: Pool, s': Pool)
    requires Attended(s) && s'.sh.injector <= s.sh.injector && s'.sh.tokens == s.sh.tokens
    requires s'.workers == s.workers && s'.pushers == s.pushers
    ensures Attended(s')
  {
    if s'.sh.injector > 0 && SomeoneRoused(s) {
      var v :| 0 <= v < |s.workers| && Roused(s, v);
      assert Roused(s', v);
    }
  }

  lemma AttendedPusher(s: Pool, p: nat, c: PusherChoice)
    requires Consistent(s) && Attended(s) && |s.workers| > 0 && p < |s.pushers|
    ensures Attended(Step(s, PusherMoves(p, c)))
  {
    var s' := Step(s, PusherMoves(p, c));
    PusherLocal(s.sh, p, s.pushers[p], c);
    if SomeoneRoused(s) {
      var v :| 0 <= v < |s.workers| && Roused(s, v);
      assert Roused(s', v);
    } else if !s'.pushers[p].Away? {
      assert SomeonePushing(s');
    } else if s.pushers[p].Load? || s.pushers[p].Pop? {
      AsleepMeansCarried(s, p);
      var q :| 0 <= q < |s.pushers| && q != p && !s.pushers[q].Away?;
      assert !s'.pushers[q].Away?;
    } else if s.pushers[p].Find? {
      assert CarriesWorker(s.pushers[p], |s.workers|);
      assert WorkerAt(s.sh, s.pushers[p].id, s.workers[s.pushers[p].id]);
      assert Roused(s', s.pushers[p].id);
    } else if s'.sh.injector > 0 {
      var q :| 0 <= q < |s.pushers| && !s.pushers[q].Away?;
      assert !s'.pushers[q].Away?;
    }
  }

  lemma StartedGood(workers: nat, pushers: nat)
    ensures Consistent(Started(workers, pushers)) && Attended(Started(workers, pushers))
  {
  }

  lemma {:induction false} ExecGood(s: Pool, schedule: seq<Event>)
    requires Consistent(s) && Attended(s) && |s.workers| > 0
    ensures var t := Exec(s, schedule);
      Consistent(t) && Attended(t) && |t.workers| == |s.workers|
    decreases |schedule|
  {
    if schedule != [] {
      ConsistentStep(s, schedule[0]);
      AttendedStep(s, schedule[0]);
      ExecGood(Step(s, schedule[0]), schedule[1..]);
    }
  }

  /** In every run of a pool with at least one worker: whenever the injector holds work, some
      worker is awake or holds an unpark token, or some pushing thread has not finished unparking;
      whether or not parking ever times out. */
  lemma NoPushMissed(workers: nat, pushers: nat, schedule: seq<Event>)
    requires workers > 0
    ensures var s := Exec(Started(workers, pushers), schedule);
      s.sh.injector > 0 ==>
        || (exists w :: 0 <= w < |s.workers| && (!s.workers[w].Park? || w in s.sh.tokens))
        || (exists p :: 0 <= p < |s.pushers| && !s.pushers[p].Away?)
  {
    var s := Exec(Started(workers, pushers), schedule);
    StartedGood(workers, pushers);
    ExecGood(Started(workers, pushers), schedule);
    if SomeoneRoused(s) {
      var w :| 0 <= w < |s.workers| && Roused(s, w);
      assert !s.workers[w].Park? || w in s.sh.tokens;
    }
  }

  /** Outside its lock sections the idle counter equals the height of the idle stack, which lists
      nobody twice; and a worker asleep without a token is on the stack or in a pusher's hands. */
  lemma CounterMirrorsStack(workers: nat, pushers: nat, schedule: seq<Event>)
    requires workers > 0
    ensures var s := Exec(Started(workers, pushers), schedule);
      && (s.sh.lock == Free ==> s.sh.count == |s.sh.stack|)
      && s.sh.count >= 0
      && Distinct(s.sh.stack)
      && forall w | 0 <= w < |s.workers| && s.workers[w].Park? && w !in s.sh.tokens ::
           w in s.sh.stack || Carried(s, w)
  {
    StartedGood(workers, pushers);
    ExecGood(Started(workers, pushers), schedule);
  }

  // --- whoever is roused gets to the work -----------------------------------------------------

  predicate NeedsLock(at: WorkerPc) { at.MarkPush? || at.Unmark? }

  /** How many steps away from a steal the worker is, counting the one that frees the lock for it. */
  function Distance(s: Pool, w: nat): (n: nat)
    requires w < |s.workers|
  {
    match s.workers[w]
    case Awake => 0
    case Probe => 0
    case MarkCount => 1
    case UnmarkCount(_) => 1
    case MarkPush => if s.sh.lock == Free then 2 else 3
    case Unmark => if s.sh.lock == Free then 2 else 3
    case Park => 4
  }

  /** The next event on the way: the holder of the lock leaves its section, or the worker moves. */
  function NextOnTheWay(s: Pool, w: nat): Event
    requires w < |s.workers|
  {
    if !NeedsLock(s.workers[w]) || s.sh.lock == Free then
      WorkerMoves(w, if s.workers[w].Awake? then Take(1) else Go)
    else match s.sh.lock
      case Worker(v) => WorkerMoves(v, Go)
      case Pusher(p) => PusherMoves(p, Continue)
      case Free => WorkerMoves(w, Go)
  }

  lemma Closer(s: Pool, w: nat)
    requires Consistent(s) && w < |s.workers| && Roused(s, w) && s.sh.injector > 0
    ensures var s' := Step(s, NextOnTheWay(s, w));
      && |s'.workers| == |s.workers|
      && (if Distance(s, w) == 0 then s'.sh.injector < s.sh.injector
          else s'.sh.injector == s.sh.injector && Roused(s', w) && Distance(s', w) < Distance(s, w))
  {
    assert WorkerAt(s.sh, w, s.workers[w]);
    if NeedsLock(s.workers[w]) && s.sh.lock.Worker? {
      assert WorkerAt(s.sh, s.sh.lock.w, s.workers[s.sh.lock.w]);
    }
    if NeedsLock(s.workers[w]) && s.sh.lock.Pusher? {
      assert PusherAt(s.sh, s.sh.lock.p, s.pushers[s.sh.lock.p]);
    }
  }

  /** Work in the injector can be taken by any worker that is awake or holds a token, without any
      parking having to time out. */
  lemma {:induction false} RousedCanSteal(s: Pool, w: nat) returns (schedule: seq<Event>)
    requires Consistent(s) && w < |s.workers| && Roused(s, w) && s.sh.injector > 0
    ensures Exec(s, schedule).sh.injector < s.sh.injector
    ensures forall e :: e in schedule && e.WorkerMoves? ==> e.wc != TimedOut
    decreases Distance(s, w)
  {
    var e := NextOnTheWay(s, w);
    Closer(s, w);
    if Distance(s, w) == 0 {
      schedule := [e];
      FoldOne(Step, s, [], e);
      assert [] + [e] == [e];
    } else {
      ConsistentStep(s, e);
      var rest := RousedCanSteal(Step(s, e), w);
      schedule := [e] + rest;
      assert schedule[1..] == rest;
    }
  }

  /** How a pusher unparks: it turns back at a zero counter without the lock, pops the top of the stack,
      delivers the token to a registered worker, and tries the next one after an unregistered. */
  lemma UnparkSteps(s: Pool, p: nat)
    requires Consistent(s) && p < |s.pushers|
    ensures var s' := Step(s, PusherMoves(p, Continue));
      match s.pushers[p]
      case Load => s'.sh == s.sh && s'.pushers[p] == if s.sh.count == 0 then Away else Pop
      case Pop =>
        s.sh.lock == Free ==>
          if s.sh.stack == [] then s'.sh == s.sh && s'.pushers[p] == Away
          else
            && s.sh.stack == s'.sh.stack + [s.sh.stack[|s.sh.stack| - 1]]
            && s'.pushers[p] == PopCount(s.sh.stack[|s.sh.stack| - 1])
      case Find(id) =>
        if id in s.sh.registered then s'.sh.tokens == s.sh.tokens + {id} && s'.pushers[p] == Away
        else s'.sh == s.sh && s'.pushers[p] == Pop
      case _ => true
  {
    if s.pushers[p].Pop? && s.sh.stack != [] {
      var top := |s.sh.stack| - 1;
      assert s.sh.stack == s.sh.stack[..top] + [s.sh.stack[top]];
    }
  }

  /** A push puts one more task into the injector and then unparks; an unpark alone adds none. */
  lemma PushTakesEffect(s: Pool, p: nat)
    requires p < |s.pushers| && s.pushers[p].Away?
    ensures Step(s, PusherMoves(p, Inject)) == s.(sh := s.sh.(injector := s.sh.injector + 1), pushers := s.pushers[p := Load])
    ensures Step(s, PusherMoves(p, UnparkOnly)) == s.(pushers := s.pushers[p := Load])
  {
  }

  /** With the lock free and nothing in the injector, a worker that finds nothing goes to sleep in four
      steps, on top of the stack and counted. */
  lemma SleepTakesEffect(s: Pool, w: nat)
    requires Consistent(s) && w < |s.workers| && s.workers[w].Awake? && s.sh.lock.Free? && s.sh.injector == 0
    ensures var s' := Exec(s, [WorkerMoves(w, GoIdle), WorkerMoves(w, Go), WorkerMoves(w, Go), WorkerMoves(w, Go)]);
      && s'.workers == s.workers[w := Park]
      && s'.sh == s.sh.(stack := s.sh.stack + [w], count := s.sh.count + 1)
  {
    assert WorkerAt(s.sh, w, s.workers[w]);
    Fold4(Step, s, WorkerMoves(w, GoIdle), WorkerMoves(w, Go), WorkerMoves(w, Go), WorkerMoves(w, Go));
  }

  /** A sleeper gets up when it holds a token, which it gives up, or when its park times out. */
  lemma ParkEnds(s: Pool, w: nat, c: WorkerChoice)
    requires w < |s.workers| && s.workers[w].Park?
    ensures var s' := Step(s, WorkerMoves(w, c));
      && s'.sh == s.sh.(tokens := s.sh.tokens - {w})
      && s'.workers == s.workers[w := if w in s.sh.tokens || c == TimedOut then Unmark else Park]
  {
    if w !in s.sh.tokens { assert s.sh.tokens - {w} == s.sh.tokens; }
  }

  /** One that is up leaves the stack before it looks for work, wherever in the stack it was. */
  lemma RiseTakesEffect(s: Pool, w: nat)
    requires Consistent(s) && w < |s.workers| && s.workers[w].Unmark? && s.sh.lock.Free?
    ensures var s' := Exec(s, [WorkerMoves(w, Go), WorkerMoves(w, Go)]);
      && s'.workers == s.workers[w := Awake] && s'.sh.lock.Free?
      && w !in s'.sh.stack && s'.sh.count == |s'.sh.stack|
  {
    assert WorkerAt(s.sh, w, s.workers[w]);
    ConsistentStep(s, WorkerMoves(w, Go));
    ConsistentStep(Step(s, WorkerMoves(w, Go)), WorkerMoves(w, Go));
    Fold2(Step, s, WorkerMoves(w, Go), WorkerMoves(w, Go));
    var s' := Exec(s, [WorkerMoves(w, Go), WorkerMoves(w, Go)]);
    assert WorkerAt(s'.sh, w, s'.workers[w]);
  }
}

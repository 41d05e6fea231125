/** How a worker looks for work and when it sleeps (`find_task`, `run_loop`,
    hypertile-core/src/worker.rs:106-239), against any behaviour of the rest of the pool.

    The rest of the pool is a script: before each of the worker's operations the next turn, if
    there is one, says what the injector, the other deques and the stealer snapshot have become
    and how many tasks were stolen from this worker.  The pool stops when the script ends, so the
    loops below terminate and every finite behaviour of the others is covered. */
module WorkerLoop {
  import opened Prelude
  import opened Registry

  ghost predicate Listed(s: seq<WorkerId>) { Distinct(s) }

  /** A stealer snapshot lists each worker once (Registry.WorkerRegistry.GetStealers). */
  type Snapshot = s: seq<WorkerId> | Listed(s) witness []

  datatype Turn = Turn(
    running: bool,
    injector: seq<Task>,
    peers: map<WorkerId, seq<Task>>,
    snapshot: Snapshot,
    stolen: nat,             // how many of this worker's tasks thieves take
    local: seq<Task>,        // the local deque after a task has run: whatever the task made of it
    batch: nat,              // how many tasks a successful steal moves
    collides: bool,          // whether a steal from a nonempty queue reads Retry
    start: nat)              // the random start of the peer scan

  /** What the worker does, in order. */
  datatype Event =
    | InjectorFirst          // the injector is probed before the local deque
    | LocalMiss              // the local deque was found empty
    | InjectorMiss           // the injector was probed and gave nothing
    | Looked(seen: Snapshot) // the stealer snapshot was read
    | PeerMiss(peer: WorkerId)
    | Took(from: Source, task: Task)
    | Ran(task: Task)
    | SpinMiss               // a turn of the spin found neither queue filled
    | MarkedIdle
    | Parked(own: nat)       // parked, with this many tasks in the own deque
    | Checked(running: bool) // the loop asked whether the pool is running

  /** Everything the worker has done. */
  datatype Trace = Start | After(before: Trace, last: Event)

  function Events(t: Trace): (log: seq<Event>)
  {
    match t
    case Start => []
    case After(before, last) => Events(before) + [last]
  }

  datatype Source = Own | Injector | Peer(id: WorkerId)

  datatype Steal = Empty | Success(task: Task) | Retry

  /** Everything the worker's operations look at or change. */
  datatype World = World(
    injector: seq<Task>, peers: map<WorkerId, seq<Task>>, snapshot: Snapshot, deque: seq<Task>,
    turn: Turn, script: seq<Turn>)

  /** What the others do before the next operation; thieves shorten the own deque. */
  function Gap(w: World): World
  {
    if w.script == [] then w
    else
      var t := w.script[0];
      World(t.injector, t.peers, t.snapshot,
            if t.stolen <= |w.deque| then w.deque[t.stolen..] else w.deque, t, w.script[1..])
  }

  function Queue(w: World, from: Source): (q: seq<Task>)
  {
    match from
    case Own => w.deque
    case Injector => w.injector
    case Peer(p) => if p in w.peers then w.peers[p] else []
  }

  function Leave(w: World, from: Source, rest: seq<Task>): World
  {
    match from
    case Own => w.(deque := rest)
    case Injector => w.(injector := rest)
    case Peer(p) => w.(peers := w.peers[p := rest])
  }

  /** How many tasks a steal from this queue takes. */
  function Batch(w: World, q: seq<Task>): (n: nat)
    requires q != []
    ensures 1 <= n <= |q|
  {
    if 1 <= w.turn.batch <= |q| then w.turn.batch else 1
  }

  /** A steal from a queue of `w`: Empty exactly when it is empty, Retry exactly when it is not and
      the steal collides, and otherwise its front task in hand, the rest of the batch behind the own
      deque, and the batch gone from the queue. */
  predicate Stolen(w: World, from: Source, got: Steal, after: World)
  {
    var q := Queue(w, from);
    if q == [] then got == Empty && after == w
    else if w.turn.collides then got == Retry && after == w
    else
      var n := Batch(w, q);
      got == Success(q[0]) && after == Leave(w, from, q[n..]).(deque := w.deque + q[1..n])
  }

  /** A steal that gives nothing, and two of them, the second made only because the first read Retry. */
  predicate Fails(w: World, from: Source) { Queue(w, from) == [] || w.turn.collides }

  predicate FailsTwice(w: World, from: Source)
  {
    Queue(w, from) == [] || (w.turn.collides && Fails(Gap(w), from))
  }

  /** Nobody else acts and no steal collides. */
  predicate Quiet(w: World) { w.script == [] && !w.turn.collides }

  const PROBE_INTERVAL: nat := 64
  const LOCAL_BATCH: nat := 16
  const SPINS: nat := 32
  const USIZE: nat := 0x1_0000_0000_0000_0000
  const BOUND: nat := 1088   // 64 * (1 + 16)

  // --- the peer scan --------------------------------------------------------------------------

  /** The index the scan from `start` looks at in its turn `i`. */
  function At(start: nat, i: nat, n: nat): (k: nat)
    requires start < n && i < n
    ensures k < n && k == if start + i < n then start + i else start + i - n
  {
    WrapAround(start, i, n);
    (start + i) % n
  }

  lemma WrapAround(start: nat, i: nat, n: nat)
    requires start < n && i < n
    ensures (start + i) % n == if start + i < n then start + i else start + i - n
  {
    if start + i < n {
      assert (start + i) / n == 0;
    } else {
      assert (start + i) == 1 * n + (start + i - n);
      assert (start + i) / n == 1;
    }
  }

  /** A turn that finds nothing; the scanner skips itself. */
  function Miss(t: Trace, peer: WorkerId, me: WorkerId): (after: Trace)
  {
    if peer == me then t else After(t, PeerMiss(peer))
  }

  /** The first `i` turns of the rotated scan from `start`, finding nothing. */
  function Scan(t: Trace, snapshot: seq<WorkerId>, start: nat, me: WorkerId, i: nat): (after: Trace)
    requires start < |snapshot| && i <= |snapshot|
  {
    if i == 0 then t
    else Miss(Scan(t, snapshot, start, me, i - 1), snapshot[At(start, i - 1, |snapshot|)], me)
  }

  /** How often a peer has been probed in vain. */
  function Visits(t: Trace, w: WorkerId): (n: nat)
  {
    match t
    case Start => 0
    case After(before, last) => Visits(before, w) + Bit(last == PeerMiss(w))
  }

  /** The turn in which the scan from `start` looks at index `k`. */
  function TurnOf(k: nat, start: nat, n: nat): (i: nat)
    requires k < n && start < n
    ensures i < n && At(start, i, n) == k
    ensures forall j :: 0 <= j < n && At(start, j, n) == k ==> j == i
  {
    if start <= k then k - start else k + n - start
  }

  lemma {:induction false} ScanVisits(t: Trace, snapshot: seq<WorkerId>, start: nat, me: WorkerId, i: nat, k: nat)
    requires Distinct(snapshot) && start < |snapshot| && i <= |snapshot| && k < |snapshot|
    ensures Visits(Scan(t, snapshot, start, me, i), snapshot[k])
         == Visits(t, snapshot[k]) + Bit(snapshot[k] != me && TurnOf(k, start, |snapshot|) < i)
  {
    if i > 0 {
      var at := At(start, i - 1, |snapshot|);
      ScanVisits(t, snapshot, start, me, i - 1, k);
      assert snapshot[at] == snapshot[k] <==> at == k;
      assert at == k <==> TurnOf(k, start, |snapshot|) == i - 1;
    }
  }

  /** From any start, a full scan visits every other worker of the snapshot exactly once, and the
      worker itself never. */
  lemma ScanVisitsEachOnce(t: Trace, snapshot: seq<WorkerId>, start: nat, me: WorkerId)
    requires Distinct(snapshot) && start < |snapshot|
    ensures forall w :: w in snapshot ==>
              Visits(Scan(t, snapshot, start, me, |snapshot|), w) == Visits(t, w) + (if w == me then 0 else 1)
  {
    forall w | w in snapshot
      ensures Visits(Scan(t, snapshot, start, me, |snapshot|), w) == Visits(t, w) + (if w == me then 0 else 1)
    {
      var k :| 0 <= k < |snapshot| && snapshot[k] == w;
      ScanVisits(t, snapshot, start, me, |snapshot|, k);
    }
  }

  // --- what a trace keeps ---------------------------------------------------------------------

  /** Tasks run since the injector was last probed first. */
  function RanSince(t: Trace): (n: nat)
  {
    match t
    case Start => 0
    case After(before, last) =>
      if last.InjectorFirst? then 0 else RanSince(before) + Bit(last.Ran?)
  }

  /** The last event took a task that has not run yet. */
  predicate InHand(t: Trace) { t.After? && t.last.Took? }

  /** An event that may come next: a task taken runs at once, and nothing else ever runs; at most
      `BOUND` tasks run between two first probes; the worker parks with an empty deque. */
  predicate Fits(t: Trace, e: Event)
  {
    && (if InHand(t) then e == Ran(t.last.task) && RanSince(t) < BOUND else !e.Ran?)
    && !(e.Parked? && e.own > 0)
  }

  predicate Sound(t: Trace) { t.Start? || (Sound(t.before) && Fits(t.before, t.last)) }

  lemma {:induction false} RanBounded(t: Trace)
    requires Sound(t)
    ensures RanSince(t) <= BOUND
  {
    if t.After? {
      RanBounded(t.before);
    }
  }

  predicate IsRan(e: Event) { e.Ran? }

  /** However long the log: no stretch without a first probe of the injector runs more tasks. */
  ghost predicate NeverStarved(log: seq<Event>)
  {
    forall i, j :: 0 <= i <= j <= |log| ==> WellFed(log, i, j)
  }

  predicate WellFed(log: seq<Event>, i: nat, j: nat)
    requires i <= j <= |log|
  {
    InjectorFirst !in log[i..j] ==> Count(log[i..j], IsRan) <= 1088
  }

  /** Every park in the log happened with an empty deque. */
  ghost predicate ParksEmpty(log: seq<Event>)
  {
    forall k :: 0 <= k < |log| && log[k].Parked? ==> log[k].own == 0
  }

  /** A task taken is the next thing that happens, and nothing else ever runs. */
  predicate RunsAt(log: seq<Event>, k: nat)
    requires k < |log|
  {
    && (log[k].Took? && k + 1 < |log| ==> log[k + 1] == Ran(log[k].task))
    && (log[k].Ran? ==> k > 0 && log[k - 1].Took? && log[k - 1].task == log[k].task)
  }

  ghost predicate TakenRun(log: seq<Event>)
  {
    forall k :: 0 <= k < |log| ==> RunsAt(log, k)
  }

  /** The trace as it was after `j` events. */
  lemma {:induction false} Earlier(t: Trace, j: nat) returns (p: Trace)
    requires Sound(t) && j <= |Events(t)|
    ensures Sound(p) && Events(p) == Events(t)[..j]
  {
    if j == |Events(t)| {
      p := t;
    } else {
      p := Earlier(t.before, j);
      assert Events(t)[..j] == Events(t.before)[..j];
    }
  }

  lemma {:induction false} RanInStretch(t: Trace, i: nat)
    requires i <= |Events(t)| && InjectorFirst !in Events(t)[i..]
    ensures Count(Events(t)[i..], IsRan) <= RanSince(t)
    decreases t
  {
    if i < |Events(t)| {
      var front := Events(t.before);
      assert Events(t)[i..] == front[i..] + [t.last];
      assert t.last in Events(t)[i..];
      RanInStretch(t.before, i);
      CountAppend(front[i..], [t.last], IsRan);
      assert Count([t.last], IsRan) == Bit(t.last.Ran?);
    }
  }

  lemma SoundNeverStarves(t: Trace)
    requires Sound(t)
    ensures NeverStarved(Events(t))
  {
    var log := Events(t);
    forall i: nat, j: nat | i <= j <= |log|
      ensures WellFed(log, i, j)
    {
      var p := Earlier(t, j);
      assert log[..j][i..] == log[i..j];
      if InjectorFirst !in log[i..j] {
        RanInStretch(p, i);
        RanBounded(p);
      }
    }
  }

  lemma {:induction false} SoundMeans(t: Trace)
    requires Sound(t)
    ensures ParksEmpty(Events(t)) && TakenRun(Events(t))
  {
    if t.After? {
      SoundMeans(t.before);
      var log, front := Events(t), Events(t.before);
      LastIs(t.before);
      forall k | 0 <= k < |log|
        ensures RunsAt(log, k) && (log[k].Parked? ==> log[k].own == 0)
      {
        if k < |front| {
          assert RunsAt(front, k) && front[k] == log[k];
          if k > 0 { assert front[k - 1] == log[k - 1]; }
        }
      }
    }
  }

  lemma LastIs(t: Trace)
    ensures Events(t) == [] <==> t.Start?
    ensures t.After? ==> Events(t)[|Events(t)| - 1] == t.last
  {
  }

  // --- the worker -----------------------------------------------------------------------------

  /** Where the log and the tick stand between two turns of the loop. */
  datatype Mark = Mark(log: Trace, tick: nat)

  // --- one turn of the loop -------------------------------------------------------------------

  /** `after` is `before` and then `k` tasks of the own deque, each run when it was taken. */
  predicate LocalRuns(before: Trace, after: Trace, k: nat)
  {
    if k == 0 then after == before
    else
      && after.After? && after.last.Ran?
      && after.before.After? && after.before.last == Took(Own, after.last.task)
      && LocalRuns(before, after.before.before, k - 1)
  }

  /** Local tasks until sixteen have run or the own deque is found empty. */
  ghost predicate Drained(before: Trace, after: Trace)
  {
    || LocalRuns(before, after, LOCAL_BATCH)
    || exists k: nat :: k < LOCAL_BATCH && DrainedEarly(before, after, k)
  }

  predicate DrainedEarly(before: Trace, after: Trace, k: nat)
  {
    after.After? && after.last == LocalMiss && LocalRuns(before, after.before, k)
  }

  /** `k` turns of the spin in vain. */
  function Spun(before: Trace, k: nat): Trace
  {
    if k == 0 then before else After(Spun(before, k - 1), SpinMiss)
  }

  predicate SpinFinds(before: Trace, after: Trace, k: nat, from: Source, task: Task)
  {
    k < SPINS && (from == Own || from == Injector) && after == After(Spun(before, k), Took(from, task))
  }

  /** The second look at the injector, after all the spinning and marking idle. */
  function DoubleCheck(before: Trace): Trace { After(Spun(before, SPINS), MarkedIdle) }

  /** After a full miss: a task found while spinning is run; or, when there was none, one found by the
      second look at the injector; or else, and only then, the worker parks. */
  ghost predicate SpunOrParked(before: Trace, after: Trace)
  {
    || (&& after.After? && after.last.Ran?
        && exists k: nat, from: Source :: SpinFinds(before, after.before, k, from, after.last.task))
    || (exists task: Task :: after == After(After(DoubleCheck(before), Took(Injector, task)), Ran(task)))
    || after == After(After(DoubleCheck(before), InjectorMiss), Parked(0))
  }

  class WorkerHandle {
    const id: WorkerId
    var tick: nat
    var deque: seq<Task>
    var injector: seq<Task>
    var peers: map<WorkerId, seq<Task>>
    var snapshot: Snapshot
    var turn: Turn
    var script: seq<Turn>
    ghost var log: Trace
    // the last try to take a task, and how it came out
    ghost var tried: (Source, Steal)

    constructor (id: WorkerId, first: Turn, script: seq<Turn>)
      ensures this.id == id && Valid() && tick == 0 && log == Trace.Start && this.script == script
    {
      this.id := id;
      tick, log := 0, Trace.Start;
      deque, injector, peers, snapshot := [], first.injector, first.peers, first.snapshot;
      turn := first;
      this.script := script;
      tried := (Own, Empty);
    }

    function Now(): World
      reads this
    {
      World(injector, peers, snapshot, deque, turn, script)
    }

    /** The others act. */
    method Others()
      modifies this`injector, this`peers, this`snapshot, this`deque, this`turn, this`script
      ensures Now() == Gap(old(Now()))
    {
      if script != [] {
        turn := script[0];
        script := script[1..];
        injector, peers, snapshot := turn.injector, turn.peers, turn.snapshot;
        if turn.stolen <= |deque| {
          deque := deque[turn.stolen..];
        }
      }
    }

    method IsRunning() returns (running: bool)
      requires Sound(log) && !InHand(log)
      modifies this`injector, this`peers, this`snapshot, this`deque, this`turn, this`script, this`log
      ensures |script| <= |old(script)|
      ensures if running then |script| < |old(script)| else script == [] || !turn.running
      ensures log == After(old(log), Checked(running))
      ensures Sound(log) && !InHand(log) && RanSince(log) == RanSince(old(log))
      ensures running <==> old(script) != [] && old(script)[0].running
    {
      running := false;
      if script != [] {
        Others();
        running := turn.running;
      }
      Log(Checked(running));
    }

    ghost method Log(e: Event)
      requires Sound(log) && Fits(log, e)
      modifies this`log
      ensures log == After(old(log), e) && Sound(log)
    {
      log := After(log, e);
    }

    /** A miss can only be logged after such a try has failed. */
    ghost method LogMiss(e: Event)
      requires Sound(log) && !InHand(log) && Failed(e)
      modifies this`log
      ensures log == After(old(log), e) && Sound(log)
    {
      Log(e);
    }

    ghost predicate Failed(e: Event)
      reads this
    {
      match e
      case LocalMiss => tried == (Own, Empty)
      case InjectorMiss => tried == (Injector, Empty) || tried == (Injector, Retry)
      case SpinMiss => tried == (Injector, Empty) || tried == (Injector, Retry)
      case PeerMiss(p) => tried == (Peer(p), Empty) || tried == (Peer(p), Retry)
      case _ => false
    }

    /** Runs the task just taken: it may leave the local deque in any state. */
    method Run(task: Task)
      requires Sound(log) && InHand(log) && log.last.task == task && RanSince(log) < BOUND
      modifies this`injector, this`peers, this`snapshot, this`deque, this`turn, this`script, this`log
      ensures |script| <= |old(script)|
      ensures log == After(old(log), Ran(task)) && Sound(log)
    {
      Log(Ran(task));
      Others();
      deque := turn.local;
    }

    /** What a try to take a task leaves in the log. */
    twostate predicate Tried(from: Source, new got: Steal)
      reads this
    {
      && log == (if got.Success? then After(old(log), Took(from, got.task)) else old(log))
      && tried == (from, got)
      && Sound(log) && RanSince(log) == RanSince(old(log))
      && |script| <= |old(script)|
    }

    /** `local_pop`: the front of the own deque, if it has one. */
    method LocalPop() returns (task: Option<Task>)
      requires Sound(log) && !InHand(log)
      modifies this`injector, this`peers, this`snapshot, this`deque, this`turn, this`script, this`log, this`tried
      ensures Tried(Own, if task.Some? then Success(task.value) else Empty)
      ensures var w := Gap(old(Now()));
        if w.deque == [] then task == None && Now() == w
        else task == Some(w.deque[0]) && Now() == w.(deque := w.deque[1..])
    {
      Others();
      if deque == [] {
        tried := (Own, Empty);
        return None;
      }
      task := Some(deque[0]);
      deque := deque[1..];
      tried := (Own, Success(task.value));
      Log(Took(Own, task.value));
    }

    /** `steal_injector_into_local`. */
    method StealInjector() returns (got: Steal)
      requires Sound(log) && !InHand(log)
      modifies this`injector, this`peers, this`snapshot, this`deque, this`turn, this`script, this`log, this`tried
      ensures Tried(Injector, got) && Stolen(Gap(old(Now())), Injector, got, Now())
    {
      Others();
      if injector == [] {
        got := Empty;
      } else if turn.collides {
        got := Retry;
      } else {
        var task;
        task, injector := Receive(injector);
        Log(Took(Injector, task));
        got := Success(task);
      }
      tried := (Injector, got);
    }

    /** A successful steal: the first task in hand, the rest of the batch onto the own deque. */
    method Receive(queue: seq<Task>) returns (task: Task, rest: seq<Task>)
      requires queue != []
      modifies this`deque
      ensures var n := Batch(old(Now()), queue);
        task == queue[0] && deque == old(deque) + queue[1..n] && rest == queue[n..]
    {
      var n := if 1 <= turn.batch <= |queue| then turn.batch else 1;
      task, rest := queue[0], queue[n..];
      deque := deque + queue[1..n];
    }

    method StealPeer(peer: WorkerId) returns (got: Steal)
      requires Sound(log) && !InHand(log)
      modifies this`injector, this`peers, this`snapshot, this`deque, this`turn, this`script, this`log, this`tried
      ensures Tried(Peer(peer), got) && Stolen(Gap(old(Now())), Peer(peer), got, Now())
    {
      Others();
      var source := if peer in peers then peers[peer] else [];
      if source == [] {
        got := Empty;
      } else if turn.collides {
        got := Retry;
      } else {
        var task, rest := Receive(source);
        peers := peers[peer := rest];
        Log(Took(Peer(peer), task));
        got := Success(task);
      }
      tried := (Peer(peer), got);
    }

    /** What a miss has looked at: the own deque, the injector, then every peer of some snapshot
        by a rotated scan. */
    ghost predicate SearchedAll(before: Trace, after: Trace)
    {
      exists seen: Snapshot, start: nat ::
        (|seen| > 1 ==> start < |seen|) && after == SearchLog(before, seen, start)
    }

    function Queues(before: Trace): Trace { After(After(before, LocalMiss), InjectorMiss) }

    function SearchLog(before: Trace, seen: Snapshot, start: nat): Trace
    {
      var looked := After(Queues(before), Looked(seen));
      if |seen| > 1 && start < |seen| then Scan(looked, seen, start, id, |seen|) else looked
    }

    /** A full miss probes every other worker of the snapshot it read exactly once. */
    lemma MissVisitsEveryPeer(before: Trace, seen: Snapshot, start: nat)
      requires id in seen && (|seen| > 1 ==> start < |seen|)
      ensures forall w :: w in seen ==>
                Visits(SearchLog(before, seen, start), w) == Visits(before, w) + (if w == id then 0 else 1)
    {
      var looked := After(Queues(before), Looked(seen));
      forall w
        ensures Visits(looked, w) == Visits(before, w)
      {
        assert Visits(Queues(before), w) == Visits(After(before, LocalMiss), w);
      }
      if |seen| > 1 {
        ScanVisitsEachOnce(looked, seen, start, id);
      } else {
        assert seen == [id];
      }
    }

    /** A full miss; on every 64th tick it began with a first probe of the injector. */
    ghost predicate FullMiss(before: Trace, t: nat, after: Trace)
    {
      SearchedAll(if t % PROBE_INTERVAL == 0 then After(before, InjectorFirst) else before, after)
    }

    /** A task found was taken where the hierarchy comes to first: from the own deque; or from the
        injector, when the own deque was empty; or from a peer, when the injector gave nothing
        either, nor the peers the scan looked at before. */
    ghost predicate FoundInOrder(before: Trace, after: Trace, task: Task)
    {
      || after == After(before, Took(Own, task))
      || after == After(After(before, LocalMiss), Took(Injector, task))
      || exists seen: Snapshot, start: nat, i: nat :: FoundAtPeer(before, after, task, seen, start, i)
    }

    ghost predicate FoundAtPeer(before: Trace, after: Trace, task: Task, seen: Snapshot, start: nat, i: nat)
    {
      && start < |seen| && i < |seen|
      && seen[At(start, i, |seen|)] != id
      && after == After(Scan(After(Queues(before), Looked(seen)), seen, start, id, i),
                        Took(Peer(seen[At(start, i, |seen|)]), task))
    }

    /** A find; on every 64th tick the injector comes first. */
    ghost predicate Found(before: Trace, t: nat, after: Trace, task: Task)
    {
      if t % PROBE_INTERVAL == 0 then
        || after == After(After(before, InjectorFirst), Took(Injector, task))
        || FoundInOrder(After(before, InjectorFirst), after, task)
      else FoundInOrder(before, after, task)
    }

    /** Nothing is to be had from this worker: it is the worker itself, or its queue is empty. */
    predicate NothingAt(w: World, peer: WorkerId)
    {
      peer == id || Queue(w, Peer(peer)) == []
    }

    /** A scan in a quiet world. */
    ghost predicate ScanAnswers(w: World, seen: Snapshot, task: Option<Task>)
    {
      if task.None? then |seen| <= 1 || forall p :: p in seen ==> NothingAt(w, p)
      else |seen| > 1 && exists p :: p in seen && !NothingAt(w, p) && task.value == Queue(w, Peer(p))[0]
    }

    /** What a search in a quiet world answers: the front of the own deque, else of the injector, else
        of a listed worker's queue; none exactly when all of these are empty (a snapshot of one lists
        only the worker itself). */
    ghost predicate SearchAnswers(w: World, task: Option<Task>)
    {
      if w.deque != [] then task == Some(w.deque[0])
      else if w.injector != [] then task == Some(w.injector[0])
      else ScanAnswers(w, w.snapshot, task)
    }

    /** The first probe of the injector gave a task. */
    predicate TookFirst(before: Trace, after: Trace)
    {
      after.After? && after.before == After(before, InjectorFirst) && after.last.Took? && after.last.from == Injector
    }

    /** `find_task`.  The log shows where it looked; in a quiet world it finds a task exactly when
        there is one to find. */
    method FindTask() returns (task: Option<Task>)
      requires tick < USIZE && Sound(log) && !InHand(log)
      modifies this`tick, this`injector, this`peers, this`snapshot, this`deque, this`turn,
               this`script, this`log, this`tried
      ensures tick == (old(tick) + 1) % USIZE
      ensures |script| <= |old(script)|
      ensures RanSince(log) == if old(tick) % PROBE_INTERVAL == 0 then 0 else RanSince(old(log))
      ensures Sound(log) && Holding(log, task)
      ensures task.Some? ==> Found(old(log), old(tick), log, task.value)
      ensures task.None? ==> FullMiss(old(log), old(tick), log)
      ensures old(tick) % PROBE_INTERVAL == 0 ==>
                (TookFirst(old(log), log) <==> !Fails(Gap(old(Now())), Injector))
      ensures Quiet(old(Now())) ==>
                if old(tick) % PROBE_INTERVAL == 0 && old(injector) != [] then task == Some(old(injector)[0])
                else SearchAnswers(old(Now()), task)
      ensures Quiet(old(Now())) && id in old(snapshot) ==>
                (task.None? <==>
                  && old(deque) == [] && old(injector) == []
                  && forall p :: p in old(snapshot) && p != id ==> Queue(old(Now()), Peer(p)) == [])
    {
      var t := tick;
      tick := (tick + 1) % USIZE;
      if id in snapshot && |snapshot| <= 1 { OnlyItself(Now()); }
      if t % PROBE_INTERVAL == 0 {
        Log(InjectorFirst);
        var got := StealInjector();
        if got.Success? {
          return Some(got.task);
        }
      }
      task := Search();
    }

    /** A snapshot that lists only one worker, and this one, lists only this one. */
    lemma OnlyItself(w: World)
      requires id in w.snapshot && |w.snapshot| <= 1
      ensures forall p :: p in w.snapshot ==> p == id
    {
    }

    /** The log ends with the taking of this task; without one, nothing is in hand. */
    static ghost predicate Holding(log: Trace, task: Option<Task>)
    {
      if task.Some? then InHand(log) && log.last.task == task.value else !InHand(log)
    }

    /** The search proper: own deque, injector (twice on Retry), peers. */
    method Search() returns (task: Option<Task>)
      requires Sound(log) && !InHand(log)
      modifies this`injector, this`peers, this`snapshot, this`deque, this`turn, this`script, this`log, this`tried
      ensures |script| <= |old(script)|
      ensures RanSince(log) == RanSince(old(log))
      ensures Sound(log) && Holding(log, task)
      ensures task.Some? ==> FoundInOrder(old(log), log, task.value)
      ensures task.None? ==> SearchedAll(old(log), log)
      ensures Quiet(old(Now())) ==> SearchAnswers(old(Now()), task)
    {
      task := SearchQueues();
      if task.Some? {
        return;
      }
      var seen := GetStealers();
      task := SearchPeers(seen, old(log));
    }

    /** The third part of the search, over the snapshot just read. */
    method SearchPeers(seen: Snapshot, ghost before: Trace) returns (task: Option<Task>)
      requires Sound(log) && log == After(Queues(before), Looked(seen))
      modifies this`injector, this`peers, this`snapshot, this`deque, this`turn, this`script, this`log, this`tried
      ensures |script| <= |old(script)|
      ensures RanSince(log) == RanSince(old(log))
      ensures Sound(log) && Holding(log, task)
      ensures task.Some? ==> FoundInOrder(before, log, task.value)
      ensures task.None? ==> SearchedAll(before, log)
      ensures Quiet(old(Now())) ==> ScanAnswers(old(Now()), seen, task)
    {
      task := None;
      ghost var start := 0;
      if |seen| > 1 {
        var from := turn.start % |seen|;
        start := from;
        ghost var i;
        task, i := ScanPeers(seen, from);
        if task.Some? {
          assert FoundAtPeer(before, log, task.value, seen, from, i);
          return;
        }
      }
      assert log == SearchLog(before, seen, start);
    }

    method SearchQueues() returns (task: Option<Task>)
      requires Sound(log) && !InHand(log)
      modifies this`injector, this`peers, this`snapshot, this`deque, this`turn, this`script, this`log, this`tried
      ensures |script| <= |old(script)|
      ensures RanSince(log) == RanSince(old(log))
      ensures Sound(log) && Holding(log, task)
      ensures task.Some? ==> FoundInOrder(old(log), log, task.value)
      ensures task.None? ==> log == Queues(old(log))
      ensures Quiet(old(Now())) ==>
                if old(deque) != [] then task == Some(old(deque)[0])
                else if old(injector) != [] then task == Some(old(injector)[0])
                else task == None && Now() == old(Now())
      ensures var popped := Gap(old(Now()));
        task.None? <==> popped.deque == [] && FailsTwice(Gap(popped), Injector)
    {
      task := LocalPop();
      if task.Some? {
        return;
      }
      LogMiss(LocalMiss);
      var got := StealInjector();
      if got == Retry {
        got := StealInjector();
      }
      if got.Success? {
        return Some(got.task);
      }
      LogMiss(InjectorMiss);
      task := None;
    }

    /** Reads the snapshot of the moment. */
    method GetStealers() returns (seen: Snapshot)
      requires Sound(log) && !InHand(log)
      modifies this`log
      ensures seen == snapshot && log == After(old(log), Looked(seen))
      ensures RanSince(log) == RanSince(old(log)) && Sound(log)
    {
      seen := snapshot;
      Log(Looked(seen));
    }

    method ScanPeers(seen: Snapshot, start: nat) returns (task: Option<Task>, ghost found: nat)
      requires start < |seen| && |seen| > 1
      requires Sound(log) && !InHand(log)
      modifies this`injector, this`peers, this`snapshot, this`deque, this`turn, this`script, this`log, this`tried
      ensures |script| <= |old(script)|
      ensures RanSince(log) == RanSince(old(log)) && Sound(log)
      ensures task.None? ==> !InHand(log) && log == Scan(old(log), seen, start, id, |seen|)
      ensures task.Some? ==>
                && found < |seen| && seen[At(start, found, |seen|)] != id
                && log == After(Scan(old(log), seen, start, id, found),
                             Took(Peer(seen[At(start, found, |seen|)]), task.value))
      ensures Quiet(old(Now())) ==> ScanAnswers(old(Now()), seen, task)
    {
      var n := |seen|;
      for i := 0 to n
        invariant |script| <= |old(script)|
        invariant RanSince(log) == RanSince(old(log)) && Sound(log)
        invariant !InHand(log) && log == Scan(old(log), seen, start, id, i)
        invariant Quiet(old(Now())) ==>
                    Now() == old(Now()) && forall j :: 0 <= j < i ==> NothingAt(old(Now()), seen[At(start, j, n)])
      {
        var idx := At(start, i, n);
        task := ProbePeer(seen[idx]);
        if task.Some? {
          found := i;
          return;
        }
      }
      task, found := None, 0;
      if Quiet(old(Now())) { AllScanned(old(Now()), seen, start); }
    }

    /** The rotated scan leaves nobody out. */
    lemma AllScanned(w: World, seen: Snapshot, start: nat)
      requires start < |seen| && forall j :: 0 <= j < |seen| ==> NothingAt(w, seen[At(start, j, |seen|)])
      ensures forall p :: p in seen ==> NothingAt(w, p)
    {
      forall p | p in seen
        ensures NothingAt(w, p)
      {
        var k :| 0 <= k < |seen| && seen[k] == p;
        assert At(start, TurnOf(k, start, |seen|), |seen|) == k;
      }
    }

    /** One turn of the scan: itself is skipped, another worker is tried twice on Retry. */
    method ProbePeer(peer: nat) returns (task: Option<Task>)
      requires Sound(log) && !InHand(log)
      modifies this`injector, this`peers, this`snapshot, this`deque, this`turn, this`script, this`log, this`tried
      ensures |script| <= |old(script)|
      ensures RanSince(log) == RanSince(old(log)) && Sound(log)
      ensures task.Some? ==> peer != id && log == After(old(log), Took(Peer(peer), task.value))
      ensures task.None? ==> !InHand(log) && log == Miss(old(log), peer, id)
      ensures Quiet(old(Now())) ==>
                if NothingAt(old(Now()), peer) then task == None && Now() == old(Now())
                else task == Some(Queue(old(Now()), Peer(peer))[0])
      ensures task.None? <==> peer == id || FailsTwice(Gap(old(Now())), Peer(peer))
    {
      if peer == id {
        return None;
      }
      var got := StealPeer(peer);
      if got == Retry {
        got := StealPeer(peer);
      }
      if got.Success? {
        return Some(got.task);
      }
      LogMiss(PeerMiss(peer));
      task := None;
    }

    /** The drain after a found task: at most sixteen local tasks. */
    method DrainLocal()
      requires Sound(log) && !InHand(log) && RanSince(log) + LOCAL_BATCH <= BOUND
      modifies this`injector, this`peers, this`snapshot, this`deque, this`turn, this`script, this`log, this`tried
      ensures |script| <= |old(script)|
      ensures Sound(log) && !InHand(log) && Drained(old(log), log)
      ensures RanSince(log) <= RanSince(old(log)) + LOCAL_BATCH
      ensures deque == [] || LocalRuns(old(log), log, LOCAL_BATCH)
    {
      var localBatch := 0;
      while localBatch < LOCAL_BATCH
        invariant 0 <= localBatch <= LOCAL_BATCH
        invariant |script| <= |old(script)|
        invariant Sound(log) && !InHand(log)
        invariant RanSince(log) == RanSince(old(log)) + localBatch
        invariant LocalRuns(old(log), log, localBatch)
      {
        var task := LocalPop();
        if task.None? {
          LogMiss(LocalMiss);
          assert DrainedEarly(old(log), log, localBatch);
          return;
        }
        Run(task.value);
        localBatch := localBatch + 1;
      }
    }

    /** The short spin before sleeping; a spin without a find has looked 32 times and leaves the own
        deque empty. */
    method Spin() returns (task: Option<Task>, ghost turns: nat, ghost from: Source)
      requires Sound(log) && !InHand(log)
      modifies this`injector, this`peers, this`snapshot, this`deque, this`turn, this`script, this`log, this`tried
      ensures |script| <= |old(script)|
      ensures Sound(log) && Holding(log, task) && RanSince(log) == RanSince(old(log))
      ensures task.None? ==> deque == [] && log == Spun(old(log), SPINS)
      ensures task.Some? ==> SpinFinds(old(log), log, turns, from, task.value)
    {
      task, turns, from := None, 0, Own;
      var i := 0;
      while i < SPINS
        invariant 0 <= i <= SPINS && turns == i
        invariant |script| <= |old(script)|
        invariant Sound(log) && !InHand(log) && RanSince(log) == RanSince(old(log))
        invariant log == Spun(old(log), i) && task.None? && (i > 0 ==> deque == [])
      {
        task, from := SpinOnce();
        if task.Some? {
          return;
        }
        i, turns := i + 1, turns + 1;
      }
    }

    /** One turn of the spin: the own deque, then the injector, once. */
    method SpinOnce() returns (task: Option<Task>, ghost from: Source)
      requires Sound(log) && !InHand(log)
      modifies this`injector, this`peers, this`snapshot, this`deque, this`turn, this`script, this`log, this`tried
      ensures |script| <= |old(script)|
      ensures Sound(log) && Holding(log, task) && RanSince(log) == RanSince(old(log))
      ensures task.None? ==> deque == [] && log == After(old(log), SpinMiss)
      ensures task.Some? ==> (from == Own || from == Injector) && log == After(old(log), Took(from, task.value))
      ensures var popped := Gap(old(Now()));
        task.None? <==> popped.deque == [] && Fails(Gap(popped), Injector)
    {
      from := Own;
      task := LocalPop();
      if task.Some? {
        return;
      }
      var got := StealInjector();
      if got.Success? {
        return Some(got.task), Injector;
      }
      LogMiss(SpinMiss);
    }

    /** Tasks that may have run since the last first probe when the next tick is `t`. */
    function Allowance(t: nat): (n: nat)
      ensures n <= BOUND
    {
      var m := t % PROBE_INTERVAL;
      if m == 0 then BOUND else m * (1 + LOCAL_BATCH)
    }

    /** Between two calls on the handle: nothing is in hand, and no more tasks have run since the
        last first probe than the tick allows. */
    ghost predicate Valid()
      reads this
    {
      tick < USIZE && Sound(log) && !InHand(log) && RanSince(log) <= Allowance(tick)
    }

    /** `run_one`: true when a task was found and run. */
    method RunOne() returns (ran: bool)
      requires Valid()
      modifies this`tick, this`injector, this`peers, this`snapshot, this`deque, this`turn,
               this`script, this`log, this`tried
      ensures Valid() && |script| <= |old(script)|
      ensures ran ==> log.After? && log.last.Ran? && Found(old(log), old(tick), log.before, log.last.task)
      ensures !ran ==> FullMiss(old(log), old(tick), log)
      ensures Quiet(old(Now())) && id in old(snapshot) ==>
                (ran <==>
                  || old(deque) != [] || old(injector) != []
                  || exists p :: p in old(snapshot) && p != id && Queue(old(Now()), Peer(p)) != [])
    {
      ghost var t := tick;
      var task := FindTask();
      Progress(t);
      ran := task.Some?;
      if ran {
        Run(task.value);
      }
    }

    /** `run_until_idle`: it runs tasks until a search finds none; false when the script ends
        first. */
    method RunUntilIdle() returns (idle: bool)
      requires Valid()
      modifies this`tick, this`injector, this`peers, this`snapshot, this`deque, this`turn,
               this`script, this`log, this`tried
      ensures Valid()
      ensures if idle then exists before, t :: FullMiss(before, t, log) else script == []
    {
      idle := false;
      while !idle && script != []
        invariant Valid()
        invariant idle ==> exists before, t :: FullMiss(before, t, log)
        decreases |script| + Bit(!idle)
      {
        Others();
        ghost var before, t := log, tick;
        var ran := RunOne();
        idle := !ran;
        assert idle ==> FullMiss(before, t, log);
      }
    }

    /** What one turn of the loop adds to the log: a find, its run and the drain; or a full miss, and
        then the spin, the second look and the park. */
    ghost predicate Iterated(before: Trace, t: nat, after: Trace)
    {
      || (exists mid: Trace, task: Task :: Found(before, t, mid, task) && Drained(After(mid, Ran(task)), after))
      || (exists mid: Trace :: FullMiss(before, t, mid) && SpunOrParked(mid, after))
    }

    /** The turn from one mark to the next, after the pool was found running. */
    ghost predicate TurnBetween(a: Mark, b: Mark)
    {
      b.tick == (a.tick + 1) % USIZE && Iterated(After(a.log, Checked(true)), a.tick, b.log)
    }

    /** Log and tick at the start of a loop and after each of its turns. */
    ghost predicate Looped(marks: seq<Mark>)
    {
      marks != [] && forall i :: 0 <= i < |marks| - 1 ==> TurnBetween(marks[i], marks[i + 1])
    }

    lemma LoopedOn(marks: seq<Mark>, next: Mark)
      requires Looped(marks) && TurnBetween(marks[|marks| - 1], next)
      ensures Looped(marks + [next])
    {
      var all := marks + [next];
      forall i | 0 <= i < |all| - 1
        ensures TurnBetween(all[i], all[i + 1])
      {
        if i < |marks| - 1 { assert TurnBetween(marks[i], marks[i + 1]); }
      }
    }

    /** The worker loop: the pool is asked whether it runs, and each time it does one turn of the loop
        follows.  However the others behave and whatever the tasks push, at most 1088 tasks run between
        two first probes of the injector, every task taken is run at once, and the worker parks only
        with its own deque empty.  The handle may have been used before, so the tick may stand
        anywhere. */
    method RunLoop() returns (ghost marks: seq<Mark>)
      requires Valid()
      modifies this`tick, this`injector, this`peers, this`snapshot, this`deque, this`turn,
               this`script, this`log, this`tried
      ensures Valid() && NeverStarved(Events(log))
      ensures ParksEmpty(Events(log))
      ensures TakenRun(Events(log)) && !InHand(log)
      ensures script == [] || !turn.running
      ensures Looped(marks) && marks[0] == Mark(old(log), old(tick))
      ensures log == After(marks[|marks| - 1].log, Checked(false)) && tick == marks[|marks| - 1].tick
    {
      marks := TakeTurns();
      SoundNeverStarves(log);
      SoundMeans(log);
    }

    /** `while is_running { .. }`. */
    method TakeTurns() returns (ghost marks: seq<Mark>)
      requires Valid()
      modifies this`tick, this`injector, this`peers, this`snapshot, this`deque, this`turn,
               this`script, this`log, this`tried
      ensures Valid() && (script == [] || !turn.running)
      ensures Looped(marks) && marks[0] == Mark(old(log), old(tick))
      ensures log == After(marks[|marks| - 1].log, Checked(false)) && tick == marks[|marks| - 1].tick
    {
      marks := [Mark(log, tick)];
      var running := IsRunning();
      while running
        invariant Valid() && (running || script == [] || !turn.running)
        invariant Looped(marks) && marks[0] == Mark(old(log), old(tick))
        invariant log == After(marks[|marks| - 1].log, Checked(running)) && tick == marks[|marks| - 1].tick
        decreases |script| + Bit(running)
      {
        marks := OneTurn(marks);
        running := IsRunning();
      }
    }

    /** One turn of the loop, marked. */
    method OneTurn(ghost marks: seq<Mark>) returns (ghost more: seq<Mark>)
      requires Valid() && Looped(marks)
      requires var last := marks[|marks| - 1]; log == After(last.log, Checked(true)) && tick == last.tick
      modifies this`tick, this`injector, this`peers, this`snapshot, this`deque, this`turn,
               this`script, this`log, this`tried
      ensures Valid() && |script| <= |old(script)|
      ensures more == marks + [Mark(log, tick)] && Looped(more)
    {
      Iterate();
      LoopedOn(marks, Mark(log, tick));
      more := marks + [Mark(log, tick)];
    }

    /** One turn of the loop. */
    method Iterate()
      requires Valid()
      modifies this`tick, this`injector, this`peers, this`snapshot, this`deque, this`turn,
               this`script, this`log, this`tried
      ensures Valid() && tick == (old(tick) + 1) % USIZE
      ensures |script| <= |old(script)|
      ensures Iterated(old(log), old(tick), log)
    {
      ghost var t := tick;
      var task := FindTask();
      Progress(t);
      ghost var mid := log;
      if task.Some? {
        Run(task.value);
        DrainLocal();
        assert Found(old(log), t, mid, task.value) && Drained(After(mid, Ran(task.value)), log);
      } else {
        RunSpunOrPark();
        assert FullMiss(old(log), t, mid) && SpunOrParked(mid, log);
      }
    }

    /** Nothing found: spin briefly, mark idle, check the injector once more, and park. */
    method RunSpunOrPark()
      requires Sound(log) && !InHand(log) && RanSince(log) + 1 <= BOUND
      modifies this`injector, this`peers, this`snapshot, this`deque, this`turn, this`script, this`log, this`tried
      ensures |script| <= |old(script)|
      ensures Sound(log) && !InHand(log) && SpunOrParked(old(log), log)
      ensures RanSince(log) <= RanSince(old(log)) + 1
    {
      var spun;
      ghost var turns, from;
      spun, turns, from := Spin();
      if spun.Some? {
        ghost var found := log;
        Run(spun.value);
        assert SpinFinds(old(log), found, turns, from, spun.value);
        return;
      }
      CheckAgainAndPark(old(log));
    }

    /** After the spin: mark idle, and look at the injector once more before parking. */
    method CheckAgainAndPark(ghost before: Trace)
      requires Sound(log) && !InHand(log) && RanSince(log) + 1 <= BOUND
      requires deque == [] && log == Spun(before, SPINS)
      modifies this`injector, this`peers, this`snapshot, this`deque, this`turn, this`script, this`log, this`tried
      ensures |script| <= |old(script)|
      ensures Sound(log) && !InHand(log) && SpunOrParked(before, log)
      ensures RanSince(log) <= RanSince(old(log)) + 1
      ensures log == After(After(DoubleCheck(before), InjectorMiss), Parked(0)) <==> Fails(Gap(old(Now())), Injector)
    {
      Log(MarkedIdle);
      assert log == DoubleCheck(before);
      var got := StealInjector();
      if got.Success? {
        Run(got.task);
      } else {
        LogMiss(InjectorMiss);
        Log(Parked(|deque|));
      }
    }

    /** One more iteration is always within the allowance of the next tick. */
    lemma Progress(t: nat)
      requires t < USIZE
      ensures (if t % PROBE_INTERVAL == 0 then 0 else Allowance(t)) + (1 + LOCAL_BATCH)
              <= Allowance((t + 1) % USIZE)
    {
      if t + 1 == USIZE {
        assert (t + 1) % USIZE == 0;
      } else {
        assert (t + 1) % USIZE == t + 1;
      }
    }
  }
}

/** The local deque of a thread and the registrations that own it (hypertile-core/src/waker.rs,
    the registration half of hypertile-core/src/worker.rs, and the thread-worker calls of
    hypertile-capi/src/lib.rs:399-456), as one thread sees them. */
module Threads {
  import opened Prelude
  import opened Registry

  /** An installed deque, tagged with the worker that owns it.  First member is next out. */
  datatype Local = Local(owner: WorkerId, deque: seq<Task>)

  /** What a task may do to the registration of the thread it runs on. */
  datatype Nested = RegisterAnew | Deregister

  datatype Steal = Empty | Success(task: Task) | Retry

  /** The thread-local cell `LOCAL_WORKER_DEQUE`. */
  class LocalCell {
    var slot: Option<Local>

    constructor ()
      ensures slot == None
    {
      slot := None;
    }

    function Queued(): (q: seq<Task>)
      reads this
    {
      if slot.Some? then slot.value.deque else []
    }

    method SetLocalWorker(id: WorkerId, deque: seq<Task>)
      modifies this
      ensures slot == Some(Local(id, deque))
    {
      slot := Some(Local(id, deque));
    }

    method TakeAnyLocalWorker() returns (deque: Option<seq<Task>>)
      modifies this
      ensures slot == None
      ensures deque == if old(slot).Some? then Some(old(slot).value.deque) else None
    {
      deque := if slot.Some? then Some(slot.value.deque) else None;
      slot := None;
    }

    /** Succeeds only for the worker that owns the deque now. */
    method TakeLocalWorker(id: WorkerId) returns (deque: Option<seq<Task>>)
      modifies this
      ensures old(slot).Some? && old(slot).value.owner == id ==>
                slot == None && deque == Some(old(slot).value.deque)
      ensures !(old(slot).Some? && old(slot).value.owner == id) ==> slot == old(slot) && deque == None
    {
      if slot.Some? && slot.value.owner == id {
        deque := Some(slot.value.deque);
        slot := None;
      } else {
        deque := None;
      }
    }

    /** Hands the task back when the thread has no deque. */
    method TryPushLocal(task: Task) returns (back: Option<Task>)
      modifies this
      ensures old(slot).Some? ==>
                back == None && slot == Some(Local(old(slot).value.owner, old(slot).value.deque + [task]))
      ensures old(slot).None? ==> back == Some(task) && slot == None
    {
      if slot.Some? {
        slot := Some(Local(slot.value.owner, slot.value.deque + [task]));
        back := None;
      } else {
        back := Some(task);
      }
    }

    method LocalPop() returns (task: Option<Task>)
      modifies this
      ensures old(Queued()) == [] ==> task == None && slot == old(slot)
      ensures old(Queued()) != [] ==>
        && task == Some(old(Queued())[0])
        && slot == Some(Local(old(slot).value.owner, old(Queued())[1..]))
    {
      if slot.Some? && slot.value.deque != [] {
        task := Some(slot.value.deque[0]);
        slot := Some(Local(slot.value.owner, slot.value.deque[1..]));
      } else {
        task := None;
      }
    }

    /** Takes `batch` tasks off the front of somebody else's queue: the first is handed out, the
        others go to this thread's deque, in order.  Without a deque only one is taken, and nothing
        when the steal collides with another one. */
    method StealIntoLocal(source: seq<Task>, batch: nat, collides: bool) returns (got: Steal, rest: seq<Task>)
      modifies this
      ensures source == [] ==> got == Empty
      ensures source != [] && collides ==> got == Retry
      ensures source != [] && !collides ==> got == Success(source[0])
      ensures if got.Success? then exists n :: 1 <= n <= |source| && Moved(source, n, old(slot), rest)
              else rest == source && slot == old(slot)
    {
      if source == [] {
        return Empty, [];
      }
      if collides {
        return Retry, source;
      }
      got := Success(source[0]);
      var n := if slot.Some? && 1 <= batch <= |source| then batch else 1;
      if slot.Some? {
        slot := Some(Local(slot.value.owner, slot.value.deque + source[1..n]));
      }
      rest := source[n..];
      assert Moved(source, n, old(slot), rest);
    }

    /** `n` tasks left `source`: one in the thief's hand, the others behind its deque. */
    ghost predicate Moved(source: seq<Task>, n: nat, before: Option<Local>, rest: seq<Task>)
      requires 1 <= n <= |source|
      reads this
    {
      && rest == source[n..]
      && (before.None? ==> n == 1 && slot == None)
      && (before.Some? ==> slot == Some(Local(before.value.owner, before.value.deque + source[1..n])))
    }
  }

  /** The pool state every thread shares. */
  class ExecutorCore {
    var injector: seq<Task>
    const registry: WorkerRegistry

    constructor ()
      ensures injector == [] && fresh(registry)
      ensures registry.Valid() && registry.workers == map[] && registry.nextId == FIRST_WORKER_ID
    {
      injector := [];
      registry := new WorkerRegistry();
    }

    ghost predicate Valid()
      reads this, registry
    {
      && registry.Valid()
      && registry.nextId >= FIRST_WORKER_ID
      && forall id :: id in registry.workers ==> id < registry.nextId
    }

    /** Onto the calling thread's own deque when it has one, else onto the shared injector; then
        some idle worker is unparked. */
    method Inject(cell: LocalCell, task: Task)
      requires Valid()
      modifies this, cell, registry`idleStack, registry`idleCount, registry`tokens
      ensures Valid()
      ensures old(cell.slot).Some? ==>
        && injector == old(injector)
        && cell.slot == Some(Local(old(cell.slot).value.owner, old(cell.slot).value.deque + [task]))
      ensures old(cell.slot).None? ==> injector == old(injector) + [task] && cell.slot == None
      ensures if old(cell.slot).None? && exists id :: id in old(registry.idleStack) && id in registry.workers
              then registry.TopmostUnparked(old(registry.idleStack), old(registry.tokens), |registry.idleStack|)
              else registry.tokens == old(registry.tokens)
    {
      var back := cell.TryPushLocal(task);
      if back.Some? {
        injector := injector + [back.value];
        var _ := registry.UnparkOneIdle();
      }
    }

    /** Empties a deque no thread owns any more into the injector, in order. */
    method Drain(cell: LocalCell, deque: seq<Task>)
      requires Valid() && cell.slot == None
      modifies this, cell, registry`idleStack, registry`idleCount, registry`tokens
      ensures Valid() && cell.slot == None && injector == old(injector) + deque
    {
      var left := deque;
      while left != []
        invariant Valid() && cell.slot == None
        invariant |left| <= |deque| && left == deque[|deque| - |left|..]
        invariant injector == old(injector) + deque[..|deque| - |left|]
        invariant registry.workers == old(registry.workers) && registry.nextId == old(registry.nextId)
        decreases |left|
      {
        var task := left[0];
        left := left[1..];
        Inject(cell, task);
        assert deque[..|deque| - |left|] == deque[..|deque| - |left| - 1] + [task];
      }
      assert deque[..|deque|] == deque;
    }
  }

  /** One thread with all its registrations: `live` are the workers whose guard still exists,
      `newest` the last one registered; `threadWorker` is the C ABI's thread-local slot. */
  class Thread {
    const core: ExecutorCore
    const cell: LocalCell
    var threadWorker: Option<WorkerId>
    ghost var live: set<WorkerId>
    ghost var newest: Option<WorkerId>

    constructor (core: ExecutorCore)
      requires core.Valid()
      ensures Valid() && this.core == core && fresh(cell)
      ensures threadWorker == None && live == {} && newest == None
    {
      this.core := core;
      cell := new LocalCell();
      threadWorker := None;
      live := {};
      newest := None;
    }

    /** The thread's deque belongs to its newest registration while that one is live, and is
        absent otherwise; every live registration is in the registry. */
    ghost predicate Valid()
      reads this, core, core.registry, cell
    {
      && core.Valid()
      && live <= core.registry.workers.Keys
      && (newest.Some? ==> newest.value < core.registry.nextId)
      && (cell.slot.Some? <==> newest.Some? && newest.value in live)
      && (cell.slot.Some? ==> cell.slot.value.owner == newest.value)
      && (threadWorker.Some? ==> threadWorker.value in live)
    }

    /** `WorkerHandle::new`: a deque installed before is flushed to the injector first. */
    method RegisterWorker(kind: WorkerKind) returns (id: WorkerId)
      requires Valid()
      modifies this`live, this`newest, core, cell, core.registry
      ensures Valid()
      ensures id == old(core.registry.nextId) && id !in old(live) && id !in old(core.registry.workers)
      ensures live == old(live) + {id} && newest == Some(id)
      ensures cell.slot == Some(Local(id, []))
      ensures core.injector == old(core.injector) + old(cell.Queued())
      ensures core.registry.workers.Keys == old(core.registry.workers.Keys) + {id}
      ensures core.registry.nextId == id + 1
    {
      id := core.registry.AllocateId();
      var previous := cell.TakeAnyLocalWorker();
      if previous.Some? {
        core.Drain(cell, previous.value);
      }
      cell.SetLocalWorker(id, []);
      core.registry.Register(WorkerEntry(id, kind));
      live := live + {id};
      newest := Some(id);
    }

    /** Dropping a guard: its registry entry goes; the deque is flushed only if it is still this
        worker's, so a stale guard flushes nothing. */
    method DropGuard(id: WorkerId)
      requires Valid() && id in live && threadWorker != Some(id)
      modifies this`live, core, cell, core.registry
      ensures Valid()
      ensures live == old(live) - {id}
      ensures core.registry.workers == old(core.registry.workers) - {id}
      ensures core.registry.nextId == old(core.registry.nextId)
      ensures newest == Some(id) ==>
                cell.slot == None && core.injector == old(core.injector) + old(cell.Queued())
      ensures newest != Some(id) ==>
                cell.slot == old(cell.slot) && core.injector == old(core.injector)
    {
      core.registry.Deregister(id);
      live := live - {id};
      var mine := cell.TakeLocalWorker(id);
      if mine.Some? {
        core.Drain(cell, mine.value);
      }
      var _ := core.registry.UnparkOneIdle();
    }

    /** `hypertile_register_worker`: the registration replaces, and so drops, the one in the slot. */
    method HypertileRegisterWorker() returns (id: WorkerId)
      requires Valid()
      modifies this, core, cell, core.registry
      ensures Valid()
      ensures id == old(core.registry.nextId) && threadWorker == Some(id) && newest == Some(id)
      ensures core.registry.nextId == id + 1
      ensures cell.slot == Some(Local(id, []))
      ensures core.injector == old(core.injector) + old(cell.Queued())
      ensures live == old(live) - Slot(old(threadWorker)) + {id}
      ensures core.registry.workers.Keys == old(core.registry.workers.Keys) - Slot(old(threadWorker)) + {id}
    {
      id := RegisterWorker(Native);
      var replaced := threadWorker;
      threadWorker := Some(id);
      if replaced.Some? {
        DropGuard(replaced.value);
      }
    }

    static function Slot(w: Option<WorkerId>): (ids: set<WorkerId>)
    {
      if w.Some? then {w.value} else {}
    }

    /** The first half of `hypertile_worker_run_until_idle`: the registration is moved out of the
        slot, so whatever the tasks do to the slot cannot collide with it. */
    method TakeOut() returns (worker: Option<WorkerId>)
      requires Valid()
      modifies this`threadWorker
      ensures Valid() && worker == old(threadWorker) && threadWorker == None
    {
      worker := threadWorker;
      threadWorker := None;
    }

    /** The second half: the registration goes back if the slot is still empty and is dropped if a
        task registered this thread anew. */
    method PutBack(worker: WorkerId)
      requires Valid() && worker in live && threadWorker != Some(worker)
      modifies this, core, cell, core.registry
      ensures Valid() && newest == old(newest)
      ensures old(threadWorker).None? ==>
        && threadWorker == Some(worker)
        && live == old(live) && cell.slot == old(cell.slot) && core.injector == old(core.injector)
        && core.registry.workers == old(core.registry.workers)
      ensures old(threadWorker).Some? ==>
        && threadWorker == old(threadWorker)
        && live == old(live) - {worker}
        && core.registry.workers == old(core.registry.workers) - {worker}
        && (worker != old(threadWorker).value && newest != Some(worker) ==>
              cell.slot == old(cell.slot) && core.injector == old(core.injector))
        && (newest == Some(worker) ==>
              cell.slot == None && core.injector == old(core.injector) + old(cell.Queued()))
    {
      if threadWorker.None? {
        threadWorker := Some(worker);
      } else {
        DropGuard(worker);
      }
    }

    /** `hypertile_worker_run_until_idle`: true stands for Ok, false for ErrWorkerNotRegistered.
        `during` is what the tasks it runs do to this thread's registration.  Whatever they do, the registration that was running stays live throughout,
        and is back in the slot or, when a task's own is there, dropped. */
    method HypertileWorkerRunUntilIdle(during: seq<Nested>) returns (ok: bool)
      requires Valid()
      modifies this, core, cell, core.registry
      ensures Valid() && (ok <==> old(threadWorker).Some?)
      ensures !ok ==> threadWorker == None && live == old(live) && cell.slot == old(cell.slot)
      ensures ok && during == [] ==> threadWorker == old(threadWorker) && live == old(live)
      ensures ok && threadWorker != old(threadWorker) ==>
                threadWorker.Some? && old(threadWorker).value !in live && threadWorker.value !in old(live)
    {
      var worker := TakeOut();
      if worker.None? {
        return false;
      }
      for i := 0 to |during|
        invariant Valid() && worker.value in live && threadWorker != worker
        invariant old(core.registry.nextId) <= core.registry.nextId
        invariant threadWorker.Some? ==> old(core.registry.nextId) <= threadWorker.value
        invariant threadWorker.Some? ==> threadWorker.value !in old(live)
        invariant i == 0 ==> threadWorker == None && live == old(live)
      {
        match during[i] {
          case RegisterAnew => var _ := HypertileRegisterWorker();
          case Deregister => var _ := HypertileWorkerDeregister();
        }
      }
      PutBack(worker.value);
      ok := true;
    }

    /** `hypertile_worker_deregister`: true stands for Ok, false for ErrWorkerNotRegistered. */
    method HypertileWorkerDeregister() returns (ok: bool)
      requires Valid()
      modifies this, core, cell, core.registry
      ensures Valid() && threadWorker == None && newest == old(newest)
      ensures core.registry.nextId == old(core.registry.nextId)
      ensures ok <==> old(threadWorker).Some?
      ensures live == old(live) - Slot(old(threadWorker))
      ensures core.registry.workers.Keys == old(core.registry.workers.Keys) - Slot(old(threadWorker))
      ensures !ok || newest != old(threadWorker) ==>
                cell.slot == old(cell.slot) && core.injector == old(core.injector)
      ensures ok && newest == old(threadWorker) ==>
                cell.slot == None && core.injector == old(core.injector) + old(cell.Queued())
    {
      var worker := threadWorker;
      threadWorker := None;
      ok := worker.Some?;
      if ok {
        DropGuard(worker.value);
      }
    }
  }
}

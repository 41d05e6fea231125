/** The worker registry and the shared executor state (hypertile-core/src/executor.rs), each
    method one uninterrupted call; Parking holds their interleavings. */
module Registry {
  import opened Prelude

  type WorkerId = nat
  type Task = nat

  datatype WorkerKind = Native | Bilingual

  datatype WorkerEntry = WorkerEntry(id: WorkerId, kind: WorkerKind)

  const FIRST_WORKER_ID: WorkerId := 1

  class WorkerRegistry {
    var workers: map<WorkerId, WorkerEntry>
    var idleStack: seq<WorkerId>
    var idleCount: nat
    var stealersCache: seq<WorkerId>
    var nextId: WorkerId
    // the parkers that hold an unpark token
    var tokens: set<WorkerId>

    /** The counter mirrors the stack, nobody is on the stack twice, and the stealer snapshot lists
        every registered worker exactly once. */
    ghost predicate Valid()
      reads this
    {
      && idleCount == |idleStack|
      && Distinct(idleStack)
      && Distinct(stealersCache)
      && (forall id :: id in stealersCache <==> id in workers)
      && (forall id :: id in workers ==> workers[id].id == id)
    }

    constructor ()
      ensures Valid() && workers == map[] && idleStack == [] && tokens == {}
      ensures nextId == FIRST_WORKER_ID
    {
      workers, idleStack, idleCount, stealersCache := map[], [], 0, [];
      nextId, tokens := FIRST_WORKER_ID, {};
    }

    /** A fresh identifier, never zero. */
    method AllocateId() returns (id: WorkerId)
      requires Valid() && nextId >= FIRST_WORKER_ID
      modifies this`nextId
      ensures Valid() && id == old(nextId) && id != 0 && nextId == id + 1
    {
      id := nextId;
      nextId := nextId + 1;
    }

    method Register(entry: WorkerEntry)
      requires Valid()
      modifies this`workers, this`stealersCache
      ensures Valid() && workers == old(workers)[entry.id := entry]
    {
      workers := workers[entry.id := entry];
      RebuildStealersCache();
    }

    method Deregister(id: WorkerId)
      requires Valid()
      modifies this`workers, this`stealersCache, this`idleStack, this`idleCount
      ensures Valid() && workers == old(workers) - {id}
      ensures id !in idleStack
      ensures forall w :: w != id ==> (w in idleStack <==> w in old(idleStack))
      ensures id !in old(idleStack) ==> idleStack == old(idleStack)
    {
      workers := workers - {id};
      RebuildStealersCache();
      RemoveIdle(id);
    }

    /** Lists the workers in whatever order the map enumerates them. */
    method RebuildStealersCache()
      modifies this`stealersCache
      ensures Distinct(stealersCache)
      ensures forall id :: id in stealersCache <==> id in workers
    {
      var list := [];
      var left := workers.Keys;
      while left != {}
        invariant left <= workers.Keys
        invariant Distinct(list)
        invariant forall id :: id in list ==> id in workers.Keys - left
        invariant forall id :: id in workers.Keys - left ==> id in list
        decreases left
      {
        var id :| id in left;
        left := left - {id};
        assert id !in list;
        list := list + [id];
      }
      stealersCache := list;
    }

    method RemoveIdle(id: WorkerId)
      requires idleCount == |idleStack| && Distinct(idleStack)
      modifies this`idleStack, this`idleCount
      ensures idleCount == |idleStack| && Distinct(idleStack)
      ensures idleStack == Without(old(idleStack), id)
      ensures id !in idleStack
      ensures forall w :: w != id ==> (w in idleStack <==> w in old(idleStack))
      ensures id !in old(idleStack) ==> idleStack == old(idleStack)
    {
      WithoutDistinct(idleStack, id);
      if id !in idleStack { WithoutAbsent(idleStack, id); }
      var lenBefore := |idleStack|;
      idleStack := Without(idleStack, id);
      var removed := lenBefore - |idleStack|;
      if removed > 0 {
        idleCount := idleCount - removed;
      }
    }

    /** The worker goes on top of the stack unless it is there already. */
    method MarkIdle(id: WorkerId)
      requires Valid()
      modifies this`idleStack, this`idleCount
      ensures Valid()
      ensures idleStack == if id in old(idleStack) then old(idleStack) else old(idleStack) + [id]
    {
      if id !in idleStack {
        idleStack := idleStack + [id];
        idleCount := idleCount + 1;
      }
    }

    method UnmarkIdle(id: WorkerId)
      requires Valid()
      modifies this`idleStack, this`idleCount
      ensures Valid()
      ensures idleStack == Without(old(idleStack), id)
      ensures id !in idleStack
      ensures forall w :: w != id ==> (w in idleStack <==> w in old(idleStack))
    {
      RemoveIdle(id);
    }

    /** The stack was cut down to `k` members; the one above was registered, unlike every one
        further up, and got its token. */
    ghost predicate TopmostUnparked(stack: seq<WorkerId>, before: set<WorkerId>, k: nat)
      reads this
    {
      && k < |stack|
      && idleStack == stack[..k]
      && stack[k] in workers
      && (forall j :: k < j < |stack| ==> stack[j] !in workers)
      && tokens == before + {stack[k]}
    }

    /** Pops the stack down to its topmost registered worker and gives that one, and nobody else,
        a token; answers false, with the stack emptied, when there is none. */
    method UnparkOneIdle() returns (woke: bool)
      requires Valid()
      modifies this`idleStack, this`idleCount, this`tokens
      ensures Valid()
      ensures woke <==> exists id :: id in old(idleStack) && id in workers
      ensures woke ==> TopmostUnparked(old(idleStack), old(tokens), |idleStack|)
      ensures !woke ==> idleStack == [] && tokens == old(tokens)
    {
      if idleCount == 0 {
        return false;
      }
      while idleStack != []
        invariant idleCount == |idleStack| && Distinct(idleStack) && tokens == old(tokens)
        invariant |idleStack| <= |old(idleStack)| && idleStack == old(idleStack)[..|idleStack|]
        invariant forall j :: |idleStack| <= j < |old(idleStack)| ==> old(idleStack)[j] !in workers
        decreases |idleStack|
      {
        var top := |idleStack| - 1;
        var id := idleStack[top];
        idleStack := idleStack[..top];
        idleCount := idleCount - 1;
        if id in workers {
          tokens := tokens + {id};
          return true;
        }
      }
      return false;
    }

    /** Every registered worker gets a token, in whatever order the map enumerates them. */
    method UnparkAll()
      requires Valid()
      modifies this`tokens
      ensures Valid() && tokens == old(tokens) + workers.Keys
    {
      var left := workers.Keys;
      while left != {}
        invariant left <= workers.Keys
        invariant tokens == old(tokens) + (workers.Keys - left)
        decreases left
      {
        var id :| id in left;
        left := left - {id};
        tokens := tokens + {id};
      }
    }

    method GetStealers() returns (snapshot: seq<WorkerId>)
      requires Valid()
      ensures Distinct(snapshot) && forall id :: id in snapshot <==> id in workers
    {
      snapshot := stealersCache;
    }

    method ActiveCount() returns (n: nat)
      requires Valid()
      ensures n == |workers.Keys|
    {
      n := |workers.Keys|;
    }
  }
}

/** `hypertile_batch_spawn` as the source writes it (hypertile-capi/src/lib.rs:341-396): the chunks
    write the caller's result array in place, count down, and the last one unparks the caller.

    Everybody else acts in the gaps: `script` is what they do and `trace` records every step, so
    `Valid` says that the fields and the array are where some run of the batch leads. */
module CapiBatchCalls {
  import opened Prelude
  import opened ChunkPlan
  import opened CapiBatch

  /** The caller of a method: a chunk, or the thread that made the batch call. */
  datatype Who = ChunkTask(k: nat) | TheCaller

  predicate Mine(who: Who, e: Event)
  {
    if who.TheCaller? then e.CallerMoves? else e == ChunkMoves(who.k)
  }

  /** Between two moments: where the caller stands is its own. */
  predicate Later(who: Who, b: Batch, c: Batch)
  {
    && c.items == b.items && c.plan == b.plan
    && |c.chunks| == |b.chunks| && |c.sh.out| == |b.sh.out|
    && (who.TheCaller? ==> c.caller == b.caller)
    && (who.ChunkTask? && who.k < |b.chunks| ==> c.chunks[who.k] == b.chunks[who.k])
    && c.sh.remaining <= b.sh.remaining
    && (who.TheCaller? && b.sh.token ==> c.sh.token)
  }

  lemma {:induction false} ForeignKeeps(who: Who, b: Batch, events: seq<Event>)
    requires forall e :: e in events ==> !Mine(who, e)
    ensures Later(who, b, Exec(b, events))
    decreases |events|
  {
    if events != [] {
      assert events[0] in events;
      ForeignStep(who, b, events[0]);
      ForeignKeeps(who, Step(b, events[0]), events[1..]);
    }
  }

  lemma ForeignStep(who: Who, b: Batch, e: Event)
    requires !Mine(who, e)
    ensures Later(who, b, Step(b, e))
  {
  }

  /** What a chunk does to the batch when it calls the work function. */
  lemma CallActs(b: Batch, k: nat)
    requires Inv(b) && k < |b.chunks| && b.chunks[k].Call?
    ensures var i := b.chunks[k].i;
      && i < |b.items|
      && Step(b, ChunkMoves(k)) ==
         b.(sh := b.sh.(hadPanic := b.sh.hadPanic || b.items[i].Panics?),
            chunks := b.chunks[k := ChunkPc.Write(i, Expected(b.items[i]))])
  {
    assert ChunkOk(b.items, b.plan[k], b.sh, b.chunks[k]);
  }

  /** And when it writes the answer. */
  lemma WriteActs(b: Batch, k: nat)
    requires Inv(b) && k < |b.chunks| && b.chunks[k].Write?
    ensures var i := b.chunks[k].i;
      && i < |b.sh.out| && k < |b.plan|
      && Step(b, ChunkMoves(k)) ==
         b.(sh := b.sh.(out := b.sh.out[i := b.chunks[k].value]),
            chunks := b.chunks[k := Next(b.plan[k], i + 1)])
  {
    assert ChunkOk(b.items, b.plan[k], b.sh, b.chunks[k]);
  }

  class BatchCall {
    // the arguments of the call, the chunks they are cut into, and the array for the results
    const items: seq<Work>
    const plan: seq<Chunk>
    const out: array<int>
    // the fields of the source
    var remaining: nat
    var hadPanic: bool
    var token: bool
    // everything around
    var chunks: seq<ChunkPc>
    var caller: CallerPc
    var script: seq<seq<Event>>
    ghost const before: seq<int>
    ghost var trace: seq<Event>

    function Now(): Batch
      reads this, out
    {
      Batch(items, plan, Shared(out[..], remaining, hadPanic, token), chunks, caller)
    }

    ghost predicate Valid()
      reads this, out
    {
      Tiles(plan, |items|) && |before| == |items| && Now() == Exec(Spawned(items, plan, before), trace)
    }

    constructor (items: seq<Work>, plan: seq<Chunk>, out: array<int>, script: seq<seq<Event>>)
      requires Tiles(plan, |items|) && out.Length == |items|
      ensures Valid() && this.items == items && this.plan == plan && this.out == out
      ensures trace == [] && caller == CallerPc.Check && this.script == script
    {
      this.items, this.plan, this.out, this.script := items, plan, out, script;
      remaining, hadPanic, token, caller := |plan|, false, false, CallerPc.Check;
      chunks := seq(|plan|, k requires 0 <= k < |plan| => Next(plan[k], plan[k].lo));
      before, trace := out[..], [];
    }

    lemma Facts()
      requires Valid()
      ensures Inv(Now())
    {
      SpawnedInv(items, plan, before);
      ExecInv(Spawned(items, plan, before), trace);
    }

    ghost method Commit(e: Event)
      requires Tiles(plan, |items|) && |before| == |items|
      requires Now() == Step(Exec(Spawned(items, plan, before), trace), e)
      modifies this`trace
      ensures Valid() && trace == old(trace) + [e]
    {
      FoldOne(Step, Spawned(items, plan, before), trace, e);
      trace := trace + [e];
    }

    /** What a method may rely on from its beginning to its end. */
    twostate predicate Went()
      reads this
    {
      && old(trace) <= trace && |chunks| == |old(chunks)|
      && |script| <= |old(script)|
      && remaining <= old(remaining)
    }

    method Become(b: Batch)
      requires |b.sh.out| == out.Length && b.items == items && b.plan == plan
      modifies out, this`remaining, this`hadPanic, this`token, this`chunks, this`caller
      ensures Now() == b
    {
      forall i | 0 <= i < out.Length {
        out[i] := b.sh.out[i];
      }
      assert out[..] == b.sh.out;
      remaining, hadPanic, token := b.sh.remaining, b.sh.hadPanic, b.sh.token;
      chunks, caller := b.chunks, b.caller;
    }

    /** The others play the next gap. */
    method Others(who: Who)
      requires Valid()
      modifies this, out
      ensures Valid() && Went() && Later(who, old(Now()), Now())
      ensures old(script) != [] ==> |script| < |old(script)|
    {
      if script != [] {
        var events := Excluding(script[0], e => Mine(who, e));
        script := script[1..];
        ForeignKeeps(who, Now(), events);
        FoldAppend(Step, Spawned(items, plan, before), trace, events);
        Become(Exec(Now(), events));
        trace := trace + events;
      }
    }

    // --- a chunk --------------------------------------------------------------------------------

    /** Calls the work function on item i; a panic raises the flag and gives null. */
    method CallWork(k: nat, i: nat) returns (res: int)
      requires Valid() && k < |chunks| && chunks[k] == ChunkPc.Call(i)
      modifies this, out
      ensures Valid() && Went()
      ensures i < |items| && res == Expected(items[i]) && chunks[k] == ChunkPc.Write(i, res)
    {
      Others(ChunkTask(k));
      Facts();
      CallActs(Now(), k);
      match items[i] {
        case Returns(address) => res := address;
        case Panics => res := NULL;
      }
      Called(k, i, items[i].Panics?, res);
    }

    /** The call is over; one that panicked raises the flag. */
    method Called(k: nat, i: nat, panicked: bool, res: int)
      requires Valid() && k < |chunks| && chunks[k] == ChunkPc.Call(i)
      requires i < |items| && panicked == items[i].Panics? && res == Expected(items[i])
      modifies this, out
      ensures Valid() && Went() && chunks[k] == ChunkPc.Write(i, res)
    {
      Facts();
      CallActs(Now(), k);
      hadPanic := hadPanic || panicked;
      chunks := chunks[k := ChunkPc.Write(i, res)];
      Commit(ChunkMoves(k));
    }

    /** `*out_base.add(i) = res`. */
    method WriteResult(k: nat, i: nat, res: int)
      requires Valid() && k < |chunks| && chunks[k] == ChunkPc.Write(i, res)
      modifies this, out
      ensures Valid() && Went()
      ensures k < |plan| && chunks[k] == if i + 1 < plan[k].hi then ChunkPc.Call(i + 1) else Subtract
    {
      Others(ChunkTask(k));
      Facts();
      WriteActs(Now(), k);
      ghost var b := Now();
      out[i] := res;
      assert out[..] == b.sh.out[i := res];
      chunks := chunks[k := Next(plan[k], i + 1)];
      Commit(ChunkMoves(k));
    }

    /** `rem.fetch_sub(1) == 1`. */
    method CountDown(k: nat) returns (last: bool)
      requires Valid() && k < |chunks| && chunks[k].Subtract?
      modifies this, out
      ensures Valid() && Went()
      ensures chunks[k] == if last then ChunkPc.Unpark else ChunkPc.Ended
      ensures last <==> remaining == 0
    {
      Others(ChunkTask(k));
      last := Subtracted(k);
    }

    method Subtracted(k: nat) returns (last: bool)
      requires Valid() && k < |chunks| && chunks[k].Subtract?
      modifies this, out
      ensures Valid() && Went()
      ensures chunks[k] == if last then ChunkPc.Unpark else ChunkPc.Ended
      ensures last <==> remaining == 0
    {
      Facts();
      CountMember(chunks, k, Counted);
      last := remaining == 1;
      remaining := remaining - 1;
      chunks := chunks[k := if last then ChunkPc.Unpark else ChunkPc.Ended];
      Commit(ChunkMoves(k));
    }

    method UnparkCaller(k: nat)
      requires Valid() && k < |chunks| && chunks[k].Unpark?
      modifies this, out
      ensures Valid() && Went() && chunks[k] == ChunkPc.Ended && token && remaining == 0
    {
      Others(ChunkTask(k));
      Facts();
      assert ChunkOk(items, plan[k], Now().sh, chunks[k]);
      token := true;
      chunks := chunks[k := ChunkPc.Ended];
      Commit(ChunkMoves(k));
    }

    /** The body of a spawned chunk: when it ends, every slot of the chunk holds the work of its item
        or null, a panic has raised the flag, and the chunk that finds itself the last has released
        the barrier and left the caller its token. */
    method RunChunk(k: nat) returns (last: bool)
      requires Valid() && k < |plan| == |chunks| && chunks[k] == ChunkPc.Call(plan[k].lo)
      modifies this, out
      ensures Valid() && Went() && chunks[k] == ChunkPc.Ended
      ensures plan[k].hi <= |items| == out.Length
      ensures forall i :: plan[k].lo <= i < plan[k].hi ==> Written(i)
      ensures last ==> remaining == 0 && token
    {
      var i := plan[k].lo;
      while i < plan[k].hi
        invariant Valid() && Went() && plan[k].lo <= i <= plan[k].hi
        invariant chunks[k] == Next(plan[k], i)
      {
        var res := CallWork(k, i);
        WriteResult(k, i, res);
        i := i + 1;
      }
      last := CountDown(k);
      if last {
        UnparkCaller(k);
      }
      ChunkWritten(k);
    }

    /** Slot i is decided. */
    predicate Written(i: nat)
      requires i < |items| && i < out.Length
      reads this, out
    {
      if items[i].Returns? then out[i] == items[i].address else out[i] == 0 && hadPanic
    }

    lemma ChunkWritten(k: nat)
      requires Valid() && k < |plan| && k < |chunks| && chunks[k].Ended?
      ensures plan[k].hi <= |items| == out.Length
      ensures forall i :: plan[k].lo <= i < plan[k].hi ==> Written(i)
    {
      Facts();
      assert ChunkOk(items, plan[k], Now().sh, chunks[k]);
      assert forall i :: plan[k].lo <= i < plan[k].hi ==> Now().sh.out[i] == out[i];
    }

    // --- the caller -----------------------------------------------------------------------------

    method LoadRemaining() returns (released: bool)
      requires Valid() && caller.Check?
      modifies this, out
      ensures Valid() && Went()
      ensures caller == if released then CallerPc.ReadFlag else CallerPc.Park
      ensures old(remaining) == 0 ==> released
    {
      Others(TheCaller);
      released := remaining == 0;
      caller := if released then CallerPc.ReadFlag else CallerPc.Park;
      Commit(CallerMoves(false));
    }

    /** `parker.park()`; true when the script ends before the token is there. */
    method Park() returns (over: bool)
      requires Valid() && caller.Park?
      modifies this, out
      ensures Valid() && Went()
      ensures !over ==> caller == CallerPc.Check
      ensures !over ==> remaining == 0
      ensures over ==> caller == CallerPc.Park && !token && script == []
    {
      while true
        invariant Valid() && Went() && caller.Park?
        decreases |script|
      {
        over := script == [];
        Others(TheCaller);
        if token {
          TokenMeansReleased();
          token, caller := false, CallerPc.Check;
          Commit(CallerMoves(false));
          return false;
        }
        if over {
          return;
        }
      }
    }

    /** Only the last chunk sends the token. */
    lemma TokenMeansReleased()
      requires Valid() && token
      ensures remaining == 0
    {
      Facts();
    }

    method ReadPanicFlag() returns (status: Status)
      requires Valid() && caller.ReadFlag?
      modifies this, out
      ensures Valid() && Went() && caller == Returned(status)
    {
      Others(TheCaller);
      status := if hadPanic then ErrPanic else Ok;
      caller := Returned(status);
      Commit(CallerMoves(false));
    }

    /** The wait and the answer: when the call returns, every slot holds the work of its item or
        null, and the status is ErrPanic exactly when some item panicked.  It is cut off only when
        the script ends before some chunk has. */
    method Wait() returns (over: bool, status: Status)
      requires Valid() && caller.Check?
      modifies this, out
      ensures Valid()
      ensures !over ==> IsMap(items, out[..])
      ensures !over ==> (status == ErrPanic <==> exists i :: 0 <= i < |items| && items[i].Panics?)
      ensures over ==> script == [] && exists k :: 0 <= k < |chunks| && !chunks[k].Ended?
    {
      over, status := true, Ok;
      var released := LoadRemaining();
      while !released
        invariant Valid() && caller == if released then CallerPc.ReadFlag else CallerPc.Park
        decreases !released
      {
        var cut := Park();
        if cut {
          BarrierHolds(items, plan, before, trace);
          return;
        }
        released := LoadRemaining();
      }
      status := ReadPanicFlag();
      over := false;
      BatchIsMap(items, plan, before, trace);
    }
  }

  /** The whole call, from the arguments to the status: nothing at all for an empty batch, and
      otherwise the map of the work function over the arguments, however the others act.  It is cut off
      only when the script ends before some chunk of `batch` has. */
  method HypertileBatchSpawn(items: seq<Work>, out: array<int>, workers: usize, script: seq<seq<Event>>)
    returns (over: bool, status: Status, ghost batch: BatchCall?)
    requires out.Length == |items| <= IN_MEMORY as int && workers <= IN_MEMORY
    modifies out
    ensures |items| == 0 ==> !over && status == Ok
    ensures !over ==> IsMap(items, out[..])
    ensures !over ==> (status == ErrPanic <==> exists i :: 0 <= i < |items| && items[i].Panics?)
    ensures over ==>
              && batch != null && batch.Valid() && batch.items == items && batch.out == out
              && EvenTiles(batch.plan, ChunkSize(workers, |items| as usize) as int, |items|)
              && batch.script == [] && exists k :: 0 <= k < |batch.chunks| && !batch.chunks[k].Ended?
  {
    if |items| == 0 {
      return false, Ok, null;
    }
    var plan := CountedPlan(workers, |items| as usize);
    var call := new BatchCall(items, plan, out, script);
    over, status := call.Wait();
    batch := call;
  }
}

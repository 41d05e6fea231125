/** The shared state of a batch of calls as the source writes it (hypertile-sys/src/lib.rs:37-68 and
    826-885): a class whose methods run a chunk, publish and count down, drain the callbacks, and
    register a callback, in place, while everybody else acts in the gaps.

    The others are a script of gaps and `trace` records every step, so `Valid` says that the fields
    are where some run of the completion machine leads.  A method that answers `done == false` was
    cut off by the end of the script while somebody else held the callbacks lock. */
module CompletionCalls {
  import opened Prelude
  import opened ChunkPlan
  import opened Completion
  import opened BatchAnswers

  /** Between two moments: where the caller stands is its own, the counter only falls, and a
      callback once run stays run. */
  predicate Later(mine: Event, b: Batch, c: Batch)
  {
    && c.items == b.items && |c.chunks| == |b.chunks| && |c.regs| == |b.regs|
    && (mine.ChunkMoves? && mine.k < |b.chunks| ==> c.chunks[mine.k] == b.chunks[mine.k])
    && (mine.RegMoves? && mine.r < |b.regs| ==> c.regs[mine.r] == b.regs[mine.r])
    && c.sh.remaining <= b.sh.remaining
    && b.sh.ran <= c.sh.ran
  }

  lemma {:induction false} ForeignKeeps(b: Batch, mine: Event, events: seq<Event>)
    requires mine !in events
    ensures Later(mine, b, Exec(b, events))
    decreases |events|
  {
    if events != [] {
      assert events[0] in events;
      ForeignStep(b, mine, events[0]);
      ForeignKeeps(Step(b, events[0]), mine, events[1..]);
    }
  }

  lemma ForeignStep(b: Batch, mine: Event, e: Event)
    requires e != mine
    ensures Later(mine, b, Step(b, e))
  {
  }

  /** What a chunk's loop has found after the items below `i`. */
  lemma PanicSoFar(items: seq<Call>, lo: nat, i: nat, hi: nat)
    requires lo <= i <= hi <= |items|
    requires forall j :: lo <= j < i ==> !items[j].Panics?
    ensures FirstPanic(items, lo, hi) == FirstPanic(items, i, hi)
    decreases i - lo
  {
    if lo < i {
      PanicSoFar(items, lo + 1, i, hi);
    }
  }

  class BatchCallableInner {
    // the fields of the source
    var results: seq<Option<Call>>
    var panicError: Option<int>
    var remaining: nat
    var callbacks: seq<nat>
    // the callbacks lock, and everything around
    var callbacksLock: Option<nat>
    var ran: seq<nat>
    var items: seq<Call>
    var chunks: seq<ChunkState>
    var regs: seq<RegPc>
    var script: seq<seq<Event>>
    ghost var plan: seq<Chunk>
    ghost var trace: seq<Event>

    function Now(): Batch
      reads this
    {
      Batch(items, Shared(results, panicError, remaining, callbacks, callbacksLock, ran), chunks, regs)
    }

    ghost predicate Valid()
      reads this
    {
      Tiles(plan, |items|) && Now() == Exec(Spawned(items, plan, |regs|), trace)
    }

    constructor (items: seq<Call>, plan: seq<Chunk>, registrants: nat, script: seq<seq<Event>>)
      requires Tiles(plan, |items|)
      ensures Valid() && trace == [] && remaining == |items| && panicError == None && callbacks == []
    {
      this.items, this.plan, this.script := items, plan, script;
      results, panicError, remaining, callbacks := seq(|items|, i => None), None, |items|, [];
      callbacksLock, ran, trace := None, [], [];
      chunks := seq(|plan|, k requires 0 <= k < |plan| => ChunkState(plan[k], ChunkPc.Publish));
      regs := seq(registrants, r => RegPc.Lock);
    }

    lemma Facts()
      requires Valid()
      ensures Inv(Now())
    {
      SpawnedInv(items, plan, |regs|);
      ExecInv(Spawned(items, plan, |regs|), trace);
    }

    ghost method Commit(e: Event)
      requires Tiles(plan, |items|)
      requires Now() == Step(Exec(Spawned(items, plan, |regs|), trace), e)
      modifies this`trace
      ensures Valid() && trace == old(trace) + [e]
    {
      FoldOne(Step, Spawned(items, plan, |regs|), trace, e);
      trace := trace + [e];
    }

    /** What a method may rely on from its beginning to its end. */
    twostate predicate Went()
      reads this
    {
      && old(trace) <= trace && plan == old(plan) && items == old(items)
      && |chunks| == |old(chunks)| && |regs| == |old(regs)|
      && |script| <= |old(script)|
      && remaining <= old(remaining)
      && old(ran) <= ran
    }

    method Become(b: Batch)
      modifies this`results, this`panicError, this`remaining, this`callbacks, this`callbacksLock, this`ran,
               this`items, this`chunks, this`regs
      ensures Now() == b
    {
      results, panicError, remaining, callbacks := b.sh.slots, b.sh.panic, b.sh.remaining, b.sh.callbacks;
      callbacksLock, ran := b.sh.lock, b.sh.ran;
      items, chunks, regs := b.items, b.chunks, b.regs;
    }

    /** The others play the next gap. */
    method Others(mine: Event)
      requires Valid()
      modifies this
      ensures Valid() && Went() && Later(mine, old(Now()), Now())
      ensures old(script) != [] ==> |script| < |old(script)|
    {
      if script != [] {
        var events := Excluding(script[0], e => e == mine);
        script := script[1..];
        ForeignKeeps(Now(), mine, events);
        FoldAppend(Step, Spawned(items, plan, |regs|), trace, events);
        Become(Exec(Now(), events));
        trace := trace + events;
      }
    }

    /** `callbacks.lock()`; false when the script ends first. */
    method AwaitLock(mine: Event) returns (free: bool)
      requires Valid()
      modifies this
      ensures Valid() && Went() && Later(mine, old(Now()), Now())
      ensures free <==> callbacksLock == None
    {
      while true
        invariant Valid() && Went() && Later(mine, old(Now()), Now())
        decreases |script|
      {
        var over := script == [];
        Others(mine);
        if callbacksLock == None {
          return true;
        }
        if over {
          return false;
        }
      }
    }

    // --- a chunk --------------------------------------------------------------------------------

    /** The loop over the chunk's items: every result, or the first panic. */
    method CallItems(lo: nat, hi: nat) returns (values: seq<Call>, panic: Option<int>)
      requires lo <= hi <= |items|
      ensures panic == FirstPanic(items, lo, hi)
      ensures panic.None? ==> values == items[lo..hi] && forall i :: lo <= i < hi ==> !items[i].Panics?
      ensures panic.Some? ==> exists i: nat :: i < |items| && PanicsFirst(items, lo, hi, i) && items[i].message == panic.value
    {
      values := [];
      for i := lo to hi
        invariant values == items[lo..i]
        invariant forall j :: lo <= j < i ==> !items[j].Panics?
      {
        if items[i].Panics? {
          PanicSoFar(items, lo, i, hi);
          assert PanicsFirst(items, lo, hi, i);
          return values, Some(items[i].message);
        }
        values := values + [items[i]];
      }
      PanicSoFar(items, lo, hi, hi);
      panic := None;
    }

    /** Stores the chunk's results in their slots, or the panic. */
    method PublishChunk(k: nat, values: seq<Call>, panic: Option<int>)
      requires Valid() && k < |chunks| && chunks[k].at.Publish?
      requires var c := chunks[k].range;
        && c.lo <= c.hi <= |items|
        && panic == FirstPanic(items, c.lo, c.hi)
        && (panic.None? ==> values == items[c.lo..c.hi])
      modifies this
      ensures Valid() && Went()
      ensures chunks[k] == old(chunks)[k].(at := ChunkPc.Subtract)
    {
      Others(ChunkMoves(k));
      Facts();
      assert ChunkOk(items, Now().sh, chunks[k]);
      if panic.Some? {
        StorePanic(k, panic);
      } else {
        StoreResults(k, values);
      }
    }

    method StorePanic(k: nat, panic: Option<int>)
      requires Valid() && k < |chunks| && chunks[k].at.Publish? && InRange(items, Now().sh, chunks[k].range)
      requires panic.Some? && panic == FirstPanic(items, chunks[k].range.lo, chunks[k].range.hi)
      modifies this
      ensures Valid() && Went() && chunks[k] == old(chunks)[k].(at := ChunkPc.Subtract)
    {
      panicError := panic;
      chunks := chunks[k := ChunkState(chunks[k].range, ChunkPc.Subtract)];
      Commit(ChunkMoves(k));
    }

    method StoreResults(k: nat, values: seq<Call>)
      requires Valid() && k < |chunks| && chunks[k].at.Publish? && InRange(items, Now().sh, chunks[k].range)
      requires var c := chunks[k].range; FirstPanic(items, c.lo, c.hi).None? && values == items[c.lo..c.hi]
      modifies this
      ensures Valid() && Went() && chunks[k] == old(chunks)[k].(at := ChunkPc.Subtract)
    {
      var range := chunks[k].range;
      FillSlots(range.lo, values);
      chunks := chunks[k := ChunkState(range, ChunkPc.Subtract)];
      Commit(ChunkMoves(k));
    }

    /** `for (offset, res) in .. { guard[start + offset] = Some(res) }`. */
    method FillSlots(lo: nat, values: seq<Call>)
      requires lo + |values| <= |items| == |results| && values == items[lo..lo + |values|]
      modifies this`results
      ensures results == Fill(old(results), items, lo, lo + |values|)
    {
      for offset := 0 to |values|
        invariant |results| == |old(results)|
        invariant results == Fill(old(results), items, lo, lo + offset)
      {
        results := results[lo + offset := Some(values[offset])];
      }
    }

    /** `remaining.fetch_sub(count) == count`. */
    method CountDown(k: nat) returns (last: bool)
      requires Valid() && k < |chunks| && chunks[k].at.Subtract?
      modifies this
      ensures Valid() && Went()
      ensures chunks[k] == old(chunks)[k].(at := if last then ChunkPc.Drain else ChunkPc.Ended)
      ensures last ==> remaining == 0
    {
      Others(ChunkMoves(k));
      Facts();
      var range := chunks[k].range;
      assert ChunkOk(items, Now().sh, chunks[k]);
      SumMember(chunks, k, Weight);
      var count := range.hi - range.lo;
      last := remaining == count;
      remaining := remaining - count;
      chunks := chunks[k := ChunkState(range, if last then ChunkPc.Drain else ChunkPc.Ended)];
      Commit(ChunkMoves(k));
    }

    /** Takes the whole list under the lock; false when the script ends before the lock is free. */
    method TakeCallbacks(k: nat) returns (done: bool, hand: seq<nat>)
      requires Valid() && k < |chunks| && chunks[k].at.Drain?
      modifies this
      ensures Valid() && Went()
      ensures done ==> chunks[k] == old(chunks)[k].(at := ChunkPc.Run(hand)) && callbacks == []
      ensures !done ==> callbacksLock.Some?
    {
      hand := [];
      done := AwaitLock(ChunkMoves(k));
      if done {
        hand, callbacks := callbacks, [];
        chunks := chunks[k := ChunkState(chunks[k].range, ChunkPc.Run(hand))];
        Commit(ChunkMoves(k));
      }
    }

    /** `for cb in callbacks { cb() }`, in the order they were listed. */
    method RunTaken(k: nat, taken: seq<nat>)
      requires Valid() && k < |chunks| && chunks[k].at == ChunkPc.Run(taken)
      modifies this
      ensures Valid() && Went() && chunks[k].at == ChunkPc.Ended
      ensures forall cb :: cb in taken ==> cb in ran
    {
      var hand := taken;
      while hand != []
        invariant Valid() && Went() && chunks[k].at == ChunkPc.Run(hand)
        invariant forall cb :: cb in taken ==> cb in hand || cb in ran
        decreases |hand|
      {
        RunNext(k, hand);
        hand := hand[1..];
      }
      FinishRun(k);
    }

    method RunNext(k: nat, hand: seq<nat>)
      requires Valid() && k < |chunks| && hand != [] && chunks[k].at == ChunkPc.Run(hand)
      modifies this
      ensures Valid() && Went() && chunks[k].at == ChunkPc.Run(hand[1..]) && hand[0] in ran
    {
      Others(ChunkMoves(k));
      ran := ran + [hand[0]];
      chunks := chunks[k := ChunkState(chunks[k].range, ChunkPc.Run(hand[1..]))];
      Commit(ChunkMoves(k));
    }

    method FinishRun(k: nat)
      requires Valid() && k < |chunks| && chunks[k].at == ChunkPc.Run([])
      modifies this
      ensures Valid() && Went() && chunks[k].at == ChunkPc.Ended
    {
      Others(ChunkMoves(k));
      chunks := chunks[k := ChunkState(chunks[k].range, ChunkPc.Ended)];
      Commit(ChunkMoves(k));
    }

    method ComputeChunk(k: nat)
      requires Valid() && k < |chunks| && chunks[k].at.Publish?
      modifies this
      ensures Valid() && Went() && chunks[k].at == ChunkPc.Subtract
    {
      Facts();
      assert ChunkOk(items, Now().sh, chunks[k]);
      var values, panic := CallItems(chunks[k].range.lo, chunks[k].range.hi);
      PublishChunk(k, values, panic);
    }

    /** The body of a spawned chunk. */
    method RunChunk(k: nat) returns (done: bool)
      requires Valid() && k < |chunks| && chunks[k].at.Publish?
      modifies this
      ensures Valid() && Went()
      ensures if done then chunks[k].at == ChunkPc.Ended else callbacksLock.Some?
    {
      ComputeChunk(k);
      var last := CountDown(k);
      if !last {
        return true;
      }
      var hand;
      done, hand := TakeCallbacks(k);
      if done {
        RunTaken(k, hand);
      }
    }

    // --- registering a callback -----------------------------------------------------------------

    method LockForPush(r: nat) returns (done: bool)
      requires Valid() && r < |regs| && regs[r].Lock?
      modifies this
      ensures Valid() && Went()
      ensures if done then regs[r] == RegPc.First else callbacksLock.Some?
    {
      done := AwaitLock(RegMoves(r));
      if done {
        callbacksLock := Some(r);
        regs := regs[r := RegPc.First];
        Commit(RegMoves(r));
      }
    }

    /** The first `is_done`; when it says so the lock is dropped. */
    method IsDone(r: nat) returns (isDone: bool)
      requires Valid() && r < |regs| && regs[r].First?
      modifies this
      ensures Valid() && Went()
      ensures regs[r] == if isDone then RegPc.Direct else RegPc.Push
      ensures old(remaining) == 0 ==> isDone
    {
      Others(RegMoves(r));
      isDone := remaining == 0;
      if isDone {
        callbacksLock := None;
      }
      regs := regs[r := if isDone then RegPc.Direct else RegPc.Push];
      Commit(RegMoves(r));
    }

    method CallDirectly(r: nat)
      requires Valid() && r < |regs| && regs[r].Direct?
      modifies this
      ensures Valid() && Went() && regs[r] == RegPc.Added && r in ran
    {
      Others(RegMoves(r));
      ran := ran + [r];
      regs := regs[r := RegPc.Added];
      Commit(RegMoves(r));
    }

    method PushCallback(r: nat)
      requires Valid() && r < |regs| && regs[r].Push?
      modifies this
      ensures Valid() && Went() && regs[r] == RegPc.Second && r in callbacks
    {
      Others(RegMoves(r));
      callbacks := callbacks + [r];
      regs := regs[r := RegPc.Second];
      Commit(RegMoves(r));
    }

    /** The second `is_done`, still under the lock: everything listed is taken when it says so. */
    method IsDoneNow(r: nat) returns (hand: Option<seq<nat>>)
      requires Valid() && r < |regs| && regs[r].Second?
      modifies this
      ensures Valid() && Went()
      ensures regs[r] == if hand.Some? then RegPc.RunAll(hand.value) else RegPc.Added
    {
      Others(RegMoves(r));
      hand := None;
      if remaining == 0 {
        hand, callbacks := Some(callbacks), [];
      }
      callbacksLock := None;
      regs := regs[r := if hand.Some? then RegPc.RunAll(hand.value) else RegPc.Added];
      Commit(RegMoves(r));
    }

    method RunAllTaken(r: nat, taken: seq<nat>)
      requires Valid() && r < |regs| && regs[r] == RegPc.RunAll(taken)
      modifies this
      ensures Valid() && Went() && regs[r] == RegPc.Added
      ensures forall cb :: cb in taken ==> cb in ran
    {
      var hand := taken;
      while hand != []
        invariant Valid() && Went() && r < |regs| && regs[r] == RegPc.RunAll(hand)
        invariant forall cb :: cb in taken ==> cb in hand || cb in ran
        decreases |hand|
      {
        CallNext(r, hand);
        hand := hand[1..];
      }
      FinishCalls(r);
    }

    method CallNext(r: nat, hand: seq<nat>)
      requires Valid() && r < |regs| && hand != [] && regs[r] == RegPc.RunAll(hand)
      modifies this
      ensures Valid() && Went() && regs[r] == RegPc.RunAll(hand[1..]) && hand[0] in ran
    {
      Others(RegMoves(r));
      ran := ran + [hand[0]];
      regs := regs[r := RegPc.RunAll(hand[1..])];
      Commit(RegMoves(r));
    }

    method FinishCalls(r: nat)
      requires Valid() && r < |regs| && regs[r] == RegPc.RunAll([])
      modifies this
      ensures Valid() && Went() && regs[r] == RegPc.Added
    {
      Others(RegMoves(r));
      regs := regs[r := RegPc.Added];
      Commit(RegMoves(r));
    }

    /** `add_completion_callback`.  A registration that begins after the batch is done has run its
        callback when it returns; one that races the drain leaves it to whoever takes the list, and
        `CallbacksExactlyOnce` says that somebody does. */
    method AddCompletionCallback(r: nat) returns (done: bool)
      requires Valid() && r < |regs| && regs[r].Lock?
      modifies this
      ensures Valid() && Went()
      ensures if done then regs[r] == RegPc.Added else callbacksLock.Some?
      ensures done && old(remaining) == 0 ==> r in ran
    {
      done := LockForPush(r);
      if !done {
        return;
      }
      var isDone := IsDone(r);
      if isDone {
        CallDirectly(r);
        return;
      }
      PushAndCheckAgain(r);
    }

    /** The rest of the lock section, and the callbacks it took. */
    method PushAndCheckAgain(r: nat)
      requires Valid() && r < |regs| && regs[r].Push?
      modifies this
      ensures Valid() && Went() && regs[r] == RegPc.Added
    {
      PushCallback(r);
      var hand := IsDoneNow(r);
      if hand.Some? {
        RunAllTaken(r, hand.value);
      }
    }

    // --- reading the result ---------------------------------------------------------------------

    /** `PyBatchCallableTask::result`: not completed while the counter is above zero, and a correct
        answer from then on. */
    method Result() returns (answer: Answer)
      requires Valid()
      ensures answer == AnswerOf(Now().sh)
      ensures if remaining > 0 then answer == NotCompleted else Correct(items, plan, answer)
    {
      if remaining != 0 {
        return NotCompleted;
      }
      AnswerIsCorrect(items, plan, |regs|, trace);
      if panicError.Some? {
        return Panicked(panicError.value);
      }
      answer := ListResults();
    }

    /** The loop over the result slots. */
    method ListResults() returns (answer: Answer)
      ensures answer == Collect(results)
    {
      var values, left := [], results;
      while left != []
        invariant Collect(results) == After(values, Collect(left))
        decreases |left|
      {
        match left[0] {
          case Some(Value(v)) => values := values + [v];
          case Some(Error(e)) => return Failed(e);
          case _ => values := values + [NONE];
        }
        left := left[1..];
      }
      answer := List(values);
    }

    /** What the loop answers after these values. */
    static function After(values: seq<int>, rest: Answer): (answer: Answer)
    {
      if rest.List? then List(values + rest.values) else rest
    }
  }
}

/** Completion of the tasks and batches of the Python extension (hypertile-sys/src/lib.rs): chunks
    publish their results, count down, and drain the completion callbacks, while any number of
    threads register callbacks (31-68, 406-431, 558-590, 741-760, 843-881).

    A single task is a batch of one item: its `done` flag is the counter reaching zero. */
module Completion {
  import opened Prelude
  import opened ChunkPlan

  /** What one call of the batch does. */
  datatype Call = Value(v: int) | Error(e: int) | Panics(message: int)

  datatype ChunkPc =
    | Publish
    | Subtract
    | Drain
    | Run(hand: seq<nat>)
    | Ended

  datatype ChunkState = ChunkState(range: Chunk, at: ChunkPc)

  /** `add_completion_callback`: registrant r brings callback r. */
  datatype RegPc =
    | Lock
    | First           // holding the callbacks lock, about to ask is_done
    | Push
    | Second          // still holding it, having pushed, about to ask again
    | Direct          // lock released, about to call the own callback
    | RunAll(hand: seq<nat>)
    | Added

  datatype Shared = Shared(
    slots: seq<Option<Call>>, panic: Option<int>, remaining: nat,
    callbacks: seq<nat>, lock: Option<nat>,
    ran: seq<nat>)    // history: the callbacks run, in order

  datatype Batch = Batch(items: seq<Call>, sh: Shared, chunks: seq<ChunkState>, regs: seq<RegPc>)

  datatype Event = ChunkMoves(k: nat) | RegMoves(r: nat)

  // --- the steps ------------------------------------------------------------------------------

  /** The panic that ends a chunk's loop over its items, if any. */
  function FirstPanic(items: seq<Call>, lo: nat, hi: nat): (p: Option<int>)
    requires lo <= hi <= |items|
    ensures p.Some? <==> exists i :: lo <= i < hi && items[i].Panics?
    decreases hi - lo
  {
    if lo == hi then None
    else if items[lo].Panics? then Some(items[lo].message)
    else FirstPanic(items, lo + 1, hi)
  }

  /** The slots with those of a finished chunk filled in. */
  function Fill(slots: seq<Option<Call>>, items: seq<Call>, lo: nat, hi: nat): (r: seq<Option<Call>>)
    requires lo <= hi <= |items| == |slots|
    ensures |r| == |slots|
    ensures forall i :: 0 <= i < |slots| ==>
              r[i] == if lo <= i < hi then Some(items[i]) else slots[i]
  {
    seq(|slots|, i requires 0 <= i < |slots| => if lo <= i < hi then Some(items[i]) else slots[i])
  }

  predicate InRange(items: seq<Call>, h: Shared, c: Chunk) { c.lo <= c.hi <= |items| == |h.slots| }

  datatype ChunkMove = ChunkMove(sh: Shared, at: ChunkPc)

  function ChunkAct(items: seq<Call>, c: Chunk, h: Shared, at: ChunkPc): ChunkMove
  {
    match at
    case Publish =>
      if !InRange(items, h, c) then ChunkMove(h, at)
      else
        var p := FirstPanic(items, c.lo, c.hi);
        ChunkMove(if p.Some? then h.(panic := p) else h.(slots := Fill(h.slots, items, c.lo, c.hi)),
                  Subtract)
    case Subtract =>
      if c.hi < c.lo || h.remaining < c.hi - c.lo then ChunkMove(h, at)
      else
        var count := c.hi - c.lo;
        ChunkMove(h.(remaining := h.remaining - count), if h.remaining == count then Drain else Ended)
    case Drain =>
      if h.lock.Some? then ChunkMove(h, at) else ChunkMove(h.(callbacks := []), Run(h.callbacks))
    case Run(hand) =>
      if hand == [] then ChunkMove(h, Ended)
      else ChunkMove(h.(ran := h.ran + [hand[0]]), Run(hand[1..]))
    case Ended => ChunkMove(h, at)
  }

  datatype RegMove = RegMove(sh: Shared, at: RegPc)

  function RegAct(h: Shared, r: nat, at: RegPc): RegMove
  {
    match at
    case Lock => if h.lock.Some? then RegMove(h, at) else RegMove(h.(lock := Some(r)), First)
    case First =>
      if h.remaining == 0 then RegMove(h.(lock := None), Direct) else RegMove(h, Push)
    case Push => RegMove(h.(callbacks := h.callbacks + [r]), Second)
    case Second =>
      if h.remaining == 0 then RegMove(h.(callbacks := [], lock := None), RunAll(h.callbacks))
      else RegMove(h.(lock := None), Added)
    case Direct => RegMove(h.(ran := h.ran + [r]), Added)
    case RunAll(hand) =>
      if hand == [] then RegMove(h, Added)
      else RegMove(h.(ran := h.ran + [hand[0]]), RunAll(hand[1..]))
    case Added => RegMove(h, at)
  }

  function Step(b: Batch, e: Event): Batch
  {
    match e
    case ChunkMoves(k) =>
      if k >= |b.chunks| then b
      else
        var m := ChunkAct(b.items, b.chunks[k].range, b.sh, b.chunks[k].at);
        b.(sh := m.sh, chunks := b.chunks[k := ChunkState(b.chunks[k].range, m.at)])
    case RegMoves(r) =>
      if r >= |b.regs| then b
      else
        var m := RegAct(b.sh, r, b.regs[r]);
        b.(sh := m.sh, regs := b.regs[r := m.at])
  }

  function Exec(b: Batch, schedule: seq<Event>): Batch
  {
    Fold(Step, b, schedule)
  }

  /** The batch as spawned; with no items there is no chunk and the counter is zero already. */
  function Spawned(items: seq<Call>, plan: seq<Chunk>, regs: nat): Batch
  {
    Batch(items,
          Shared(seq(|items|, i => None), None, |items|, [], None, []),
          seq(|plan|, k requires 0 <= k < |plan| => ChunkState(plan[k], Publish)),
          seq(regs, r => Lock))
  }

  // --- what every step keeps ------------------------------------------------------------------

  /** The items a chunk has still to subtract from the counter. */
  function Weight(c: ChunkState): (n: nat)
  {
    if (c.at.Publish? || c.at.Subtract?) && c.range.lo <= c.range.hi then c.range.hi - c.range.lo else 0
  }

  predicate Published(items: seq<Call>, h: Shared, c: Chunk)
    requires InRange(items, h, c)
  {
    if FirstPanic(items, c.lo, c.hi).Some? then h.panic.Some?
    else forall i :: c.lo <= i < c.hi ==> h.slots[i] == Some(items[i])
  }

  predicate ChunkOk(items: seq<Call>, h: Shared, c: ChunkState)
  {
    && InRange(items, h, c.range) && c.range.lo < c.range.hi
    && (!c.at.Publish? ==> Published(items, h, c.range))
    && (c.at.Drain? || c.at.Run? ==> h.remaining == 0)
  }

  predicate RegOk(h: Shared, r: nat, at: RegPc)
  {
    && (at.First? || at.Push? || at.Second? <==> h.lock == Some(r))
    && (at.Direct? || at.RunAll? ==> h.remaining == 0)
  }

  ghost predicate Slots(items: seq<Call>, h: Shared)
  {
    && |h.slots| == |items|
    && (h.panic.Some? ==> exists i :: 0 <= i < |items| && items[i].Panics?)
    && (forall i :: 0 <= i < |items| && h.slots[i].Some? ==> h.slots[i].value == items[i] && !items[i].Panics?)
  }

  predicate NotYet(at: RegPc) { at.Lock? || at.First? || at.Push? || at.Direct? }

  function InChunkHand(r: nat): ChunkState -> nat
  {
    (c: ChunkState) => if c.at.Run? then Times(c.at.hand, r) else 0
  }

  function InRegHand(r: nat): RegPc -> nat
  {
    (at: RegPc) => if at.RunAll? then Times(at.hand, r) else 0
  }

  /** Where callback r is: still with its registrant, listed, in somebody's hand, or run. */
  function Places(b: Batch, r: nat): (n: nat)
    requires r < |b.regs|
  {
    Bit(NotYet(b.regs[r])) + Times(b.sh.callbacks, r) + Sum(b.chunks, InChunkHand(r))
    + Sum(b.regs, InRegHand(r)) + Times(b.sh.ran, r)
  }

  ghost predicate SomebodyDrains(b: Batch)
  {
    || (exists k :: 0 <= k < |b.chunks| && b.chunks[k].at.Drain?)
    || (exists r :: 0 <= r < |b.regs| && b.regs[r].Second?)
  }

  ghost predicate Inv(b: Batch)
  {
    && Slots(b.items, b.sh)
    && (forall k :: 0 <= k < |b.chunks| ==> ChunkOk(b.items, b.sh, b.chunks[k]))
    && (forall r :: 0 <= r < |b.regs| ==> RegOk(b.sh, r, b.regs[r]))
    && b.sh.remaining == Sum(b.chunks, Weight)
    && (forall r :: 0 <= r < |b.regs| ==> Places(b, r) == 1)
    && (b.sh.ran != [] ==> b.sh.remaining == 0)
    && (b.sh.remaining == 0 && b.sh.callbacks != [] ==> SomebodyDrains(b))
  }

  lemma ChunkOwn(items: seq<Call>, h: Shared, c: ChunkState)
    requires Slots(items, h) && ChunkOk(items, h, c) && Weight(c) <= h.remaining
    ensures var m := ChunkAct(items, c.range, h, c.at); var c' := ChunkState(c.range, m.at);
      && Slots(items, m.sh)
      && ChunkOk(items, m.sh, c')
      && m.sh.remaining + Weight(c) == h.remaining + Weight(c')
      && m.sh.lock == h.lock
      && (m.sh.callbacks == h.callbacks || (c.at.Drain? && m.sh.callbacks == []))
      && (c.at.Drain? && m.at.Drain? ==> m.sh == h)
      && (h.remaining > 0 && m.sh.remaining == 0 ==> m.at.Drain?)
      && (m.sh.ran != [] && h.ran == [] ==> m.sh.remaining == 0)
      && m.sh.remaining <= h.remaining
  {
    if c.at.Publish? {
      var p := FirstPanic(items, c.range.lo, c.range.hi);
    }
  }

  lemma ChunkOthers(items: seq<Call>, h: Shared, c: ChunkState, d: ChunkState)
    requires ChunkOk(items, h, c) && ChunkOk(items, h, d)
    ensures ChunkOk(items, ChunkAct(items, c.range, h, c.at).sh, d)
  {
  }

  lemma ChunkPlaces(b: Batch, k: nat, r: nat)
    requires k < |b.chunks| && r < |b.regs|
    ensures Places(Step(b, ChunkMoves(k)), r) == Places(b, r)
  {
    var c := b.chunks[k];
    var m := ChunkAct(b.items, c.range, b.sh, c.at);
    SumUpdate(b.chunks, k, ChunkState(c.range, m.at), InChunkHand(r));
    ChunkConserves(b.items, b.sh, c, r);
  }

  /** One step of a chunk moves callbacks between the list, its hand and the history. */
  lemma ChunkConserves(items: seq<Call>, h: Shared, c: ChunkState, r: nat)
    ensures var m := ChunkAct(items, c.range, h, c.at);
      Times(m.sh.callbacks, r) + InChunkHand(r)(ChunkState(c.range, m.at)) + Times(m.sh.ran, r)
      == Times(h.callbacks, r) + InChunkHand(r)(c) + Times(h.ran, r)
  {
    if c.at.Run? && c.at.hand != [] {
      TimesTail(c.at.hand, r);
      TimesLast(h.ran, c.at.hand[0], r);
    }
  }

  lemma ChunkStepInv(b: Batch, k: nat)
    requires Inv(b) && k < |b.chunks|
    ensures Inv(Step(b, ChunkMoves(k)))
  {
    var b' := Step(b, ChunkMoves(k));
    var c := b.chunks[k];
    var m := ChunkAct(b.items, c.range, b.sh, c.at);
    SumMember(b.chunks, k, Weight);
    SumUpdate(b.chunks, k, ChunkState(c.range, m.at), Weight);
    ChunkOwn(b.items, b.sh, c);
    forall j | 0 <= j < |b.chunks| && j != k
      ensures ChunkOk(b'.items, b'.sh, b'.chunks[j])
    {
      ChunkOthers(b.items, b.sh, c, b.chunks[j]);
    }
    forall r | 0 <= r < |b.regs|
      ensures Places(b', r) == 1 && RegOk(b'.sh, r, b'.regs[r])
    {
      ChunkPlaces(b, k, r);
      assert RegOk(b.sh, r, b.regs[r]);
    }
    if b'.sh.remaining == 0 && b'.sh.callbacks != [] {
      if m.at.Drain? {
        assert b'.chunks[k].at.Drain?;
      } else {
        StillDrains(b, b', k);
      }
    }
  }

  /** A step of a chunk that was not the one to drain leaves the drainer in place. */
  lemma StillDrains(b: Batch, b': Batch, k: nat)
    requires SomebodyDrains(b) && k < |b.chunks| && !b.chunks[k].at.Drain?
    requires b'.regs == b.regs && |b'.chunks| == |b.chunks|
    requires forall j :: 0 <= j < |b.chunks| && j != k ==> b'.chunks[j] == b.chunks[j]
    ensures SomebodyDrains(b')
  {
    if j :| 0 <= j < |b.chunks| && b.chunks[j].at.Drain? {
      assert b'.chunks[j].at.Drain?;
    }
  }

  lemma RegOwn(items: seq<Call>, h: Shared, r: nat, at: RegPc)
    requires Slots(items, h) && RegOk(h, r, at)
    ensures var m := RegAct(h, r, at);
      && Slots(items, m.sh) && RegOk(m.sh, r, m.at)
      && m.sh.remaining == h.remaining && m.sh.slots == h.slots && m.sh.panic == h.panic
      && (m.sh.ran != h.ran ==> h.remaining == 0)
  {
  }

  lemma RegOthers(h: Shared, r: nat, at: RegPc, o: nat, other: RegPc)
    requires RegOk(h, r, at) && RegOk(h, o, other) && o != r
    ensures RegOk(RegAct(h, r, at).sh, o, other)
  {
  }

  /** One step of registrant `r` moves callbacks between the list, its hand and the history. */
  lemma RegConserves(h: Shared, r: nat, at: RegPc, o: nat)
    ensures var m := RegAct(h, r, at);
      Bit(o == r && NotYet(m.at)) + Times(m.sh.callbacks, o) + InRegHand(o)(m.at) + Times(m.sh.ran, o)
      == Bit(o == r && NotYet(at)) + Times(h.callbacks, o) + InRegHand(o)(at) + Times(h.ran, o)
  {
    match at
    case Push => PushConserves(h, r, o);
    case Direct => DirectConserves(h, r, o);
    case RunAll(hand) => RunAllConserves(h, r, hand, o);
    case _ =>
  }

  lemma PushConserves(h: Shared, r: nat, o: nat)
    ensures var m := RegAct(h, r, Push);
      !NotYet(m.at) && m.sh.ran == h.ran && Times(m.sh.callbacks, o) == Bit(o == r) + Times(h.callbacks, o)
  {
    TimesLast(h.callbacks, r, o);
  }

  lemma DirectConserves(h: Shared, r: nat, o: nat)
    ensures var m := RegAct(h, r, Direct);
      !NotYet(m.at) && m.sh.callbacks == h.callbacks && Times(m.sh.ran, o) == Bit(o == r) + Times(h.ran, o)
  {
    TimesLast(h.ran, r, o);
  }

  lemma RunAllConserves(h: Shared, r: nat, hand: seq<nat>, o: nat)
    ensures var m := RegAct(h, r, RunAll(hand));
      && m.sh.callbacks == h.callbacks
      && !NotYet(m.at)
      && InRegHand(o)(m.at) + Times(m.sh.ran, o) == Times(hand, o) + Times(h.ran, o)
  {
    if hand != [] {
      TimesTail(hand, o);
      TimesLast(h.ran, hand[0], o);
    }
  }

  lemma RegPlaces(b: Batch, r: nat, o: nat)
    requires r < |b.regs| && o < |b.regs|
    ensures Places(Step(b, RegMoves(r)), o) == Places(b, o)
  {
    RegConserves(b.sh, r, b.regs[r], o);
    SumUpdate(b.regs, r, RegAct(b.sh, r, b.regs[r]).at, InRegHand(o));
  }

  lemma RegStepInv(b: Batch, r: nat)
    requires Inv(b) && r < |b.regs|
    ensures Inv(Step(b, RegMoves(r)))
  {
    var b' := Step(b, RegMoves(r));
    assert RegOk(b.sh, r, b.regs[r]);
    RegOwn(b.items, b.sh, r, b.regs[r]);
    forall k | 0 <= k < |b.chunks|
      ensures ChunkOk(b'.items, b'.sh, b'.chunks[k])
    {
      assert ChunkOk(b.items, b.sh, b.chunks[k]);
    }
    forall o | 0 <= o < |b.regs|
      ensures RegOk(b'.sh, o, b'.regs[o]) && Places(b', o) == 1
    {
      RegPlaces(b, r, o);
      if o != r { RegOthers(b.sh, r, b.regs[r], o, b.regs[o]); }
    }
    if b'.sh.remaining == 0 && b'.sh.callbacks != [] {
      if b.regs[r].Push? {
        assert b'.regs[r].Second?;
      } else if k :| 0 <= k < |b.chunks| && b.chunks[k].at.Drain? {
        assert b'.chunks[k].at.Drain?;
      } else {
        var o :| 0 <= o < |b.regs| && b.regs[o].Second?;
        assert b'.regs[o].Second?;
      }
    }
  }

  lemma StepInv(b: Batch, e: Event)
    requires Inv(b)
    ensures Inv(Step(b, e)) && Step(b, e).items == b.items
    ensures |Step(b, e).chunks| == |b.chunks| && |Step(b, e).regs| == |b.regs|
    ensures forall k :: 0 <= k < |b.chunks| ==> Step(b, e).chunks[k].range == b.chunks[k].range
  {
    match e
    case ChunkMoves(k) => if k < |b.chunks| { ChunkStepInv(b, k); }
    case RegMoves(r) => if r < |b.regs| { RegStepInv(b, r); }
  }

  lemma {:induction false} ExecInv(b: Batch, schedule: seq<Event>)
    requires Inv(b)
    ensures var t := Exec(b, schedule);
      && Inv(t) && t.items == b.items && |t.chunks| == |b.chunks| && |t.regs| == |b.regs|
      && forall k :: 0 <= k < |b.chunks| ==> t.chunks[k].range == b.chunks[k].range
    decreases |schedule|
  {
    if schedule != [] {
      StepInv(b, schedule[0]);
      ExecInv(Step(b, schedule[0]), schedule[1..]);
    }
  }

  lemma SpawnedInv(items: seq<Call>, plan: seq<Chunk>, regs: nat)
    requires Tiles(plan, |items|)
    ensures Inv(Spawned(items, plan, regs))
  {
    var b := Spawned(items, plan, regs);
    forall k | 0 <= k < |plan|
      ensures ChunkOk(items, b.sh, b.chunks[k])
    {
      TilesInside(plan, |items|, k);
    }
    WeightsFromTo(plan, b.chunks, |items|, |plan|);
    assert b.chunks[..|plan|] == b.chunks;
    forall r | 0 <= r < |b.regs|
      ensures Places(b, r) == 1
    {
      SumZero(b.chunks, InChunkHand(r));
      SumZero(b.regs, InRegHand(r));
    }
  }

  /** The chunks of a tiling weigh what they span. */
  lemma {:induction false} WeightsFromTo(plan: seq<Chunk>, chunks: seq<ChunkState>, count: nat, k: nat)
    requires Tiles(plan, count) && |chunks| == |plan| && k <= |plan|
    requires forall j :: 0 <= j < |plan| ==> chunks[j] == ChunkState(plan[j], Publish)
    ensures Sum(chunks[..k], Weight) == if k == 0 then 0 else plan[k - 1].hi
  {
    if k > 0 {
      WeightsFromTo(plan, chunks, count, k - 1);
      assert chunks[..k] == chunks[..k - 1] + [chunks[k - 1]];
      SumLast(chunks[..k - 1], chunks[k - 1], Weight);
    }
  }

  // --- the results ----------------------------------------------------------------------------

  ghost predicate Settled(b: Batch)
  {
    && (forall k :: 0 <= k < |b.chunks| ==> b.chunks[k].at.Ended?)
    && (forall r :: 0 <= r < |b.regs| ==> b.regs[r].Added?)
  }

  /** For any number of registrants racing the drain, and for empty batches: no callback runs
      twice, none runs before the counter reads zero, and when every chunk and every registration
      has finished each callback has run exactly once. */
  lemma CallbacksExactlyOnce(items: seq<Call>, plan: seq<Chunk>, regs: nat, schedule: seq<Event>, r: nat)
    requires Tiles(plan, |items|) && r < regs
    ensures var b := Exec(Spawned(items, plan, regs), schedule);
      && Times(b.sh.ran, r) <= 1
      && (b.sh.ran != [] ==> b.sh.remaining == 0)
      && (Settled(b) ==> Times(b.sh.ran, r) == 1)
  {
    var b := Exec(Spawned(items, plan, regs), schedule);
    SpawnedInv(items, plan, regs);
    ExecInv(Spawned(items, plan, regs), schedule);
    assert Places(b, r) == 1;
    if Settled(b) {
      SumZero(b.chunks, InChunkHand(r));
      SumZero(b.regs, InRegHand(r));
      SumZero(b.chunks, Weight);
      assert b.sh.callbacks == [];
    }
  }

  /** Once the counter reads zero, either a panic is recorded, exactly when some call panicked, or
      every slot is filled with its own call's result. */
  lemma DoneMeansPublished(items: seq<Call>, plan: seq<Chunk>, regs: nat, schedule: seq<Event>)
    requires Tiles(plan, |items|)
    ensures var b := Exec(Spawned(items, plan, regs), schedule);
      b.sh.remaining == 0 ==>
        && |b.sh.slots| == |items|
        && (b.sh.panic.Some? <==> exists i :: 0 <= i < |items| && items[i].Panics?)
        && (b.sh.panic.None? ==> forall i :: 0 <= i < |items| ==> b.sh.slots[i] == Some(items[i]))
  {
    var b := Exec(Spawned(items, plan, regs), schedule);
    SpawnedInv(items, plan, regs);
    ExecInv(Spawned(items, plan, regs), schedule);
    if b.sh.remaining == 0 {
      forall i | 0 <= i < |items|
        ensures items[i].Panics? ==> b.sh.panic.Some?
        ensures b.sh.panic.None? ==> b.sh.slots[i] == Some(items[i])
      {
        var k := TilesCover(plan, |items|, i);
        assert b.chunks[k].range == plan[k];
        assert ChunkOk(b.items, b.sh, b.chunks[k]);
        SumMember(b.chunks, k, Weight);
      }
    }
  }
}

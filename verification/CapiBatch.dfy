/** The parallel batch of the C ABI with its countdown barrier (hypertile-capi/src/lib.rs:347-396):
    any number of chunks running in any order while the caller waits. */
module CapiBatch {
  import opened Prelude
  import opened ChunkPlan

  /** What the caller's work function does with one item. */
  datatype Work = Returns(address: int) | Panics

  const NULL := 0

  /** The value the batch leaves for an item. */
  function Expected(w: Work): int
  {
    if w.Returns? then w.address else NULL
  }

  datatype ChunkPc =
    | Call(i: nat)                 // about to call the work function on item i
    | Write(i: nat, value: int)
    | Subtract
    | Unpark
    | Ended

  datatype Status = Ok | ErrPanic

  datatype CallerPc = Check | Park | ReadFlag | Returned(status: Status)

  datatype Shared = Shared(out: seq<int>, remaining: nat, hadPanic: bool, token: bool)

  /** `items` and `plan` are fixed for the batch. */
  datatype Batch = Batch(
    items: seq<Work>, plan: seq<Chunk>, sh: Shared, chunks: seq<ChunkPc>, caller: CallerPc)

  datatype Event = ChunkMoves(k: nat) | CallerMoves(spurious: bool)

  datatype Move = Move(sh: Shared, at: ChunkPc)

  function Next(c: Chunk, i: nat): ChunkPc
  {
    if i < c.hi then Call(i) else Subtract
  }

  function ChunkAct(items: seq<Work>, c: Chunk, h: Shared, at: ChunkPc): Move
  {
    match at
    case Call(i) =>
      if i >= |items| then Move(h, at)
      else Move(h.(hadPanic := h.hadPanic || items[i].Panics?), Write(i, Expected(items[i])))
    case Write(i, value) =>
      if i >= |h.out| then Move(h, at) else Move(h.(out := h.out[i := value]), Next(c, i + 1))
    case Subtract =>
      if h.remaining == 0 then Move(h, at)
      else Move(h.(remaining := h.remaining - 1), if h.remaining == 1 then Unpark else Ended)
    case Unpark => Move(h.(token := true), Ended)
    case Ended => Move(h, at)
  }

  function Step(b: Batch, e: Event): Batch
  {
    match e
    case ChunkMoves(k) =>
      if k >= |b.chunks| || k >= |b.plan| then b
      else
        var m := ChunkAct(b.items, b.plan[k], b.sh, b.chunks[k]);
        b.(sh := m.sh, chunks := b.chunks[k := m.at])
    case CallerMoves(spurious) =>
      match b.caller
      case Check => b.(caller := if b.sh.remaining > 0 then Park else ReadFlag)
      case Park =>
        if b.sh.token then b.(caller := Check, sh := b.sh.(token := false))
        else b.(caller := if spurious then Check else Park)
      case ReadFlag => b.(caller := Returned(if b.sh.hadPanic then ErrPanic else Ok))
      case Returned(_) => b
  }

  function Exec(b: Batch, schedule: seq<Event>): Batch
  {
    Fold(Step, b, schedule)
  }

  /** All chunks spawned; `before` is what the caller's result array held. */
  function Spawned(items: seq<Work>, plan: seq<Chunk>, before: seq<int>): Batch
  {
    Batch(items, plan, Shared(before, |plan|, false, false),
          seq(|plan|, k requires 0 <= k < |plan| => Next(plan[k], plan[k].lo)), Check)
  }

  // --- what every step keeps ------------------------------------------------------------------

  /** The chunk has decided its items below this index. */
  function Progress(c: Chunk, at: ChunkPc): nat
  {
    match at
    case Call(i) => i
    case Write(i, _) => i
    case _ => c.hi
  }

  predicate Counted(at: ChunkPc) { at.Call? || at.Write? || at.Subtract? }

  predicate Last(at: ChunkPc) { at.Unpark? }

  ghost predicate ChunkOk(items: seq<Work>, c: Chunk, h: Shared, at: ChunkPc)
  {
    && c.lo <= c.hi <= |items| && |h.out| == |items|
    && (at.Call? || at.Write? ==> c.lo <= at.i < c.hi)
    && (at.Unpark? ==> h.remaining == 0)
    && (at.Write? ==> at.value == Expected(items[at.i]) && (items[at.i].Panics? ==> h.hadPanic))
    && (forall j :: c.lo <= j < Progress(c, at) ==>
          h.out[j] == Expected(items[j]) && (items[j].Panics? ==> h.hadPanic))
  }

  ghost predicate Inv(b: Batch)
  {
    && Tiles(b.plan, |b.items|) && |b.chunks| == |b.plan| && |b.sh.out| == |b.items|
    && (forall k :: 0 <= k < |b.plan| ==> ChunkOk(b.items, b.plan[k], b.sh, b.chunks[k]))
    && b.sh.remaining == Count(b.chunks, Counted)
    && (b.sh.token ==> b.sh.remaining == 0)
    && (b.sh.hadPanic ==> exists j :: 0 <= j < |b.items| && b.items[j].Panics?)
    && (b.caller.ReadFlag? || b.caller.Returned? ==> b.sh.remaining == 0)
    && (b.caller.Returned? ==> b.caller.status == if b.sh.hadPanic then ErrPanic else Ok)
    && Roused(b)
  }

  /** A caller about to park on a released barrier has its token, or the last chunk is bringing it. */
  ghost predicate Roused(b: Batch)
  {
    b.caller.Park? && b.sh.remaining == 0 ==>
      b.sh.token || exists k :: 0 <= k < |b.chunks| && Last(b.chunks[k])
  }

  lemma ChunkRouses(b: Batch, k: nat)
    requires Roused(b) && k < |b.chunks| == |b.plan| && (b.chunks[k].Unpark? ==> b.sh.remaining == 0)
    ensures Roused(Step(b, ChunkMoves(k)))
  {
    var b' := Step(b, ChunkMoves(k));
    if b'.caller.Park? && b'.sh.remaining == 0 && !b'.sh.token {
      if b.sh.remaining == 0 {
        var o :| 0 <= o < |b.chunks| && Last(b.chunks[o]);
        assert Last(b'.chunks[o]);
      } else {
        assert Last(b'.chunks[k]);
      }
    }
  }

  lemma ChunkOwn(items: seq<Work>, c: Chunk, h: Shared, at: ChunkPc)
    requires ChunkOk(items, c, h, at)
    ensures var m := ChunkAct(items, c, h, at); ChunkOk(items, c, m.sh, m.at)
  {
  }

  /** Chunks write disjoint slots. */
  lemma ChunkOther(items: seq<Work>, c: Chunk, h: Shared, at: ChunkPc, d: Chunk, other: ChunkPc)
    requires ChunkOk(items, c, h, at) && ChunkOk(items, d, h, other)
    requires c.hi <= d.lo || d.hi <= c.lo
    ensures ChunkOk(items, d, ChunkAct(items, c, h, at).sh, other)
  {
  }

  lemma ChunkStepInv(b: Batch, k: nat)
    requires Inv(b) && k < |b.chunks|
    ensures Inv(Step(b, ChunkMoves(k)))
  {
    var b' := Step(b, ChunkMoves(k));
    var at := b.chunks[k];
    var m := ChunkAct(b.items, b.plan[k], b.sh, at);
    assert ChunkOk(b.items, b.plan[k], b.sh, at);
    ChunkOwn(b.items, b.plan[k], b.sh, at);
    CountUpdate(b.chunks, k, m.at, Counted);
    if Counted(at) { CountMember(b.chunks, k, Counted); }
    OthersOk(b, k);
    ChunkRouses(b, k);
  }

  /** A step of chunk k leaves what the other chunks rely on. */
  lemma OthersOk(b: Batch, k: nat)
    requires Inv(b) && k < |b.chunks|
    ensures var m := ChunkAct(b.items, b.plan[k], b.sh, b.chunks[k]);
      forall o :: 0 <= o < |b.plan| && o != k ==> ChunkOk(b.items, b.plan[o], m.sh, b.chunks[o])
  {
    var m := ChunkAct(b.items, b.plan[k], b.sh, b.chunks[k]);
    forall o | 0 <= o < |b.plan| && o != k
      ensures ChunkOk(b.items, b.plan[o], m.sh, b.chunks[o])
    {
      if o < k { TilesOrdered(b.plan, |b.items|, o, k); } else { TilesOrdered(b.plan, |b.items|, k, o); }
      assert ChunkOk(b.items, b.plan[k], b.sh, b.chunks[k]);
      ChunkOther(b.items, b.plan[k], b.sh, b.chunks[k], b.plan[o], b.chunks[o]);
    }
  }

  lemma CallerStepInv(b: Batch, spurious: bool)
    requires Inv(b)
    ensures Inv(Step(b, CallerMoves(spurious)))
  {
    var b' := Step(b, CallerMoves(spurious));
    forall o | 0 <= o < |b.plan|
      ensures ChunkOk(b'.items, b'.plan[o], b'.sh, b'.chunks[o])
    {
      assert ChunkOk(b.items, b.plan[o], b.sh, b.chunks[o]);
    }
  }

  lemma SpawnedInv(items: seq<Work>, plan: seq<Chunk>, before: seq<int>)
    requires Tiles(plan, |items|) && |before| == |items|
    ensures Inv(Spawned(items, plan, before))
  {
    var b := Spawned(items, plan, before);
    forall k | 0 <= k < |plan|
      ensures ChunkOk(items, plan[k], b.sh, b.chunks[k])
    {
      TilesInside(plan, |items|, k);
    }
    AllCounted(b.chunks);
  }

  lemma {:induction false} AllCounted(chunks: seq<ChunkPc>)
    requires forall k :: 0 <= k < |chunks| ==> Counted(chunks[k])
    ensures Count(chunks, Counted) == |chunks|
  {
    if chunks != [] {
      AllCounted(chunks[1..]);
    }
  }

  lemma {:induction false} ExecInv(b: Batch, schedule: seq<Event>)
    requires Inv(b)
    ensures var t := Exec(b, schedule); Inv(t) && t.items == b.items
    decreases |schedule|
  {
    if schedule != [] {
      StepInv(b, schedule[0]);
      ExecInv(Step(b, schedule[0]), schedule[1..]);
    }
  }

  lemma StepInv(b: Batch, e: Event)
    requires Inv(b)
    ensures Inv(Step(b, e)) && Step(b, e).items == b.items
  {
    match e
    case ChunkMoves(k) => if k < |b.chunks| { ChunkStepInv(b, k); }
    case CallerMoves(spurious) => CallerStepInv(b, spurious);
  }

  // --- the results ----------------------------------------------------------------------------

  /** Each slot holds what its item's work returned, or the null address where it panicked. */
  ghost predicate IsMap(items: seq<Work>, out: seq<int>)
  {
    && |out| == |items|
    && forall i :: 0 <= i < |items| ==>
         && (items[i].Returns? ==> out[i] == items[i].address)
         && (items[i].Panics? ==> out[i] == 0)
  }

  /** However the chunks interleave: when the call returns, slot i holds `work(args[i])`, or null
      where it panicked, and the status is ErrPanic exactly when some item panicked. */
  lemma BatchIsMap(items: seq<Work>, plan: seq<Chunk>, before: seq<int>, schedule: seq<Event>)
    requires Tiles(plan, |items|) && |before| == |items|
    requires Exec(Spawned(items, plan, before), schedule).caller.Returned?
    ensures var b := Exec(Spawned(items, plan, before), schedule);
      && IsMap(items, b.sh.out)
      && (b.caller.status == ErrPanic <==> exists i :: 0 <= i < |items| && items[i].Panics?)
      && (b.caller.status == Ok || b.caller.status == ErrPanic)
  {
    var b := Exec(Spawned(items, plan, before), schedule);
    SpawnedInv(items, plan, before);
    ExecInv(Spawned(items, plan, before), schedule);
    forall i | 0 <= i < |items|
      ensures i < |b.sh.out| && b.sh.out[i] == Expected(items[i])
      ensures items[i].Panics? ==> b.sh.hadPanic
    {
      Decided(b, i);
    }
  }

  /** The barrier: once the counter reads zero, every slot has been decided. */
  lemma Decided(b: Batch, i: nat)
    requires Inv(b) && b.sh.remaining == 0 && i < |b.items|
    ensures i < |b.sh.out| && b.sh.out[i] == Expected(b.items[i])
    ensures b.items[i].Panics? ==> b.sh.hadPanic
  {
    var k := TilesCover(b.plan, |b.items|, i);
    assert ChunkOk(b.items, b.plan[k], b.sh, b.chunks[k]);
    if Counted(b.chunks[k]) { CountMember(b.chunks, k, Counted); }
  }

  lemma AllDecided(b: Batch)
    requires Inv(b) && b.sh.remaining == 0
    ensures IsMap(b.items, b.sh.out)
  {
    forall i | 0 <= i < |b.items|
      ensures i < |b.sh.out| && b.sh.out[i] == Expected(b.items[i])
    {
      Decided(b, i);
    }
  }

  lemma NobodyStuck(b: Batch)
    requires Inv(b) && b.caller.Park? && forall k :: 0 <= k < |b.chunks| ==> b.chunks[k].Ended?
    ensures b.sh.token
  {
    CountNone(b.chunks, Counted);
  }

  lemma RunInv(items: seq<Work>, plan: seq<Chunk>, before: seq<int>, schedule: seq<Event>)
    requires Tiles(plan, |items|) && |before| == |items|
    ensures var b := Exec(Spawned(items, plan, before), schedule); Inv(b) && b.items == items
  {
    SpawnedInv(items, plan, before);
    ExecInv(Spawned(items, plan, before), schedule);
  }

  /** The caller passes the barrier only when every slot is decided, and when every chunk has
      ended it cannot stay parked. */
  lemma BarrierHolds(items: seq<Work>, plan: seq<Chunk>, before: seq<int>, schedule: seq<Event>)
    requires Tiles(plan, |items|) && |before| == |items|
    ensures var b := Exec(Spawned(items, plan, before), schedule);
      && (b.caller.ReadFlag? ==> IsMap(items, b.sh.out))
      && ((forall k :: 0 <= k < |b.chunks| ==> b.chunks[k].Ended?) && b.caller.Park? ==> b.sh.token)
  {
    var b := Exec(Spawned(items, plan, before), schedule);
    RunInv(items, plan, before, schedule);
    if b.caller.ReadFlag? {
      AllDecided(b);
    } else if b.caller.Park? && forall k :: 0 <= k < |b.chunks| ==> b.chunks[k].Ended? {
      NobodyStuck(b);
    }
  }
}

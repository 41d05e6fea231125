/** What a finished batch of callables answers (hypertile-sys/src/lib.rs:741-760 and 843-876), and when
    the interleaving of its chunks can change the answer. */
module BatchAnswers {
  import opened Prelude
  import opened ChunkPlan
  import opened Completion

  /** `Panicked` carries the recorded message, which the call raises. */
  datatype Answer = NotCompleted | Panicked(message: int) | Failed(error: int) | List(values: seq<int>)

  /** The extension fills a slot nobody wrote with Python's None. */
  const NONE := 0

  function Prepend(v: int, rest: Answer): (answer: Answer)
  {
    if rest.List? then List([v] + rest.values) else rest
  }

  /** The loop over the result slots: the values so far, or the first error. */
  function Collect(slots: seq<Option<Call>>): (answer: Answer)
  {
    if slots == [] then List([])
    else
      match slots[0]
      case Some(Error(e)) => Failed(e)
      case Some(Value(v)) => Prepend(v, Collect(slots[1..]))
      case _ => Prepend(NONE, Collect(slots[1..]))
  }

  /** What `result` answers in this state. */
  function AnswerOf(h: Shared): (answer: Answer)
  {
    if h.remaining != 0 then NotCompleted
    else if h.panic.Some? then Panicked(h.panic.value)
    else Collect(h.slots)
  }

  /** The message of the panic that ends a chunk, if one does. */
  function MessageOf(items: seq<Call>, c: Chunk): (message: Option<int>)
  {
    if c.lo <= c.hi <= |items| then FirstPanic(items, c.lo, c.hi) else None
  }

  /** Call `i` is the first of the chunk to panic. */
  predicate PanicsFirst(items: seq<Call>, lo: nat, hi: nat, i: nat)
    requires lo <= hi <= |items|
  {
    lo <= i < hi && items[i].Panics? && forall j :: lo <= j < i ==> !items[j].Panics?
  }

  /** However many calls of a chunk would panic, its message is that of the smallest index. */
  lemma {:induction false} MessageIsFirst(items: seq<Call>, lo: nat, hi: nat, i: nat)
    requires lo <= hi <= |items| && PanicsFirst(items, lo, hi, i)
    ensures MessageOf(items, Chunk(lo, hi)) == Some(items[i].message)
    decreases hi - lo
  {
    if lo < i {
      MessageIsFirst(items, lo + 1, hi, i);
      assert FirstPanic(items, lo, hi) == FirstPanic(items, lo + 1, hi);
    }
  }

  lemma NoMessage(items: seq<Call>, lo: nat, hi: nat)
    requires lo <= hi <= |items|
    ensures MessageOf(items, Chunk(lo, hi)).None? <==> forall i :: lo <= i < hi ==> !items[i].Panics?
  {
  }

  /** The chunks that panic all do so with the same message: a caller can read that off the items and
      the plan. */
  ghost predicate OneMessage(items: seq<Call>, plan: seq<Chunk>)
  {
    forall j, k | 0 <= j < |plan| && 0 <= k < |plan| ::
      MessageOf(items, plan[j]).Some? && MessageOf(items, plan[k]).Some? ==>
        MessageOf(items, plan[j]) == MessageOf(items, plan[k])
  }

  /** An answer a batch of these calls may give: the message of some chunk's first panic if anything
      panics, else the error with the smallest index, else all values in input order. */
  ghost predicate Correct(items: seq<Call>, plan: seq<Chunk>, answer: Answer)
  {
    match answer
    case NotCompleted => false
    case Panicked(m) => exists k :: 0 <= k < |plan| && MessageOf(items, plan[k]) == Some(m)
    case Failed(e) =>
      && (forall i :: 0 <= i < |items| ==> !items[i].Panics?)
      && exists i :: 0 <= i < |items| && items[i] == Error(e) && forall j :: 0 <= j < i ==> items[j].Value?
    case List(values) =>
      && |values| == |items|
      && forall i :: 0 <= i < |items| ==> items[i] == Value(values[i])
  }

  lemma MessageMeansPanic(items: seq<Call>, plan: seq<Chunk>, k: nat)
    requires Tiles(plan, |items|) && k < |plan| && MessageOf(items, plan[k]).Some?
    ensures exists i :: 0 <= i < |items| && items[i].Panics?
  {
    TilesInside(plan, |items|, k);
  }

  /** Where the panicking chunks agree on their message there is only one correct answer. */
  lemma CorrectIsUnique(items: seq<Call>, plan: seq<Chunk>, a: Answer, b: Answer)
    requires Tiles(plan, |items|) && OneMessage(items, plan)
    requires Correct(items, plan, a) && Correct(items, plan, b)
    ensures a == b
  {
    if a.Panicked? || b.Panicked? {
      var m := if a.Panicked? then a.message else b.message;
      var k :| 0 <= k < |plan| && MessageOf(items, plan[k]) == Some(m);
      MessageMeansPanic(items, plan, k);
    } else if a.List? && b.List? {
      assert forall i :: 0 <= i < |items| ==> a.values[i] == b.values[i];
      assert a.values == b.values;
    } else if a.Failed? && b.Failed? {
      var i :| 0 <= i < |items| && items[i] == Error(a.error) && forall j :: 0 <= j < i ==> items[j].Value?;
      var k :| 0 <= k < |items| && items[k] == Error(b.error) && forall j :: 0 <= j < k ==> items[j].Value?;
      assert i == k;
    }
  }

  // --- every answer is correct ----------------------------------------------------------------

  lemma {:induction false} CollectCorrect(items: seq<Call>, plan: seq<Chunk>, slots: seq<Option<Call>>)
    requires |slots| == |items|
    requires forall i :: 0 <= i < |items| ==> slots[i] == Some(items[i]) && !items[i].Panics?
    ensures Correct(items, plan, Collect(slots))
  {
    if slots != [] {
      CollectCorrect(items[1..], plan, slots[1..]);
      var rest := Collect(slots[1..]);
      if items[0].Error? {
        assert items[0] == Error(items[0].e);
      } else if rest.Failed? {
        var i :| 0 <= i < |items[1..]| && items[1..][i] == Error(rest.error)
          && forall j :: 0 <= j < i ==> items[1..][j].Value?;
        assert items[i + 1] == Error(rest.error);
        assert forall j :: 0 <= j < i + 1 ==> items[j].Value? by {
          forall j | 0 < j < i + 1 ensures items[j].Value? { assert items[j] == items[1..][j - 1]; }
        }
      }
    }
  }

  /** The recorded panic is the first of some chunk. */
  ghost predicate PanicKnown(b: Batch)
  {
    b.sh.panic.Some? ==> exists k :: 0 <= k < |b.chunks| && MessageOf(b.items, b.chunks[k].range) == b.sh.panic
  }

  lemma PanicKnownStep(b: Batch, e: Event)
    requires PanicKnown(b)
    ensures PanicKnown(Step(b, e))
  {
    var b' := Step(b, e);
    assert |b'.chunks| == |b.chunks| && b'.items == b.items;
    assert forall k :: 0 <= k < |b.chunks| ==> b'.chunks[k].range == b.chunks[k].range;
    if b'.sh.panic.Some? {
      if b'.sh.panic == b.sh.panic {
        var k :| 0 <= k < |b.chunks| && MessageOf(b.items, b.chunks[k].range) == b.sh.panic;
        assert MessageOf(b'.items, b'.chunks[k].range) == b'.sh.panic;
      } else {
        assert MessageOf(b'.items, b'.chunks[e.k].range) == b'.sh.panic;
      }
    }
  }

  lemma {:induction false} PanicKnownExec(b: Batch, schedule: seq<Event>)
    requires PanicKnown(b)
    ensures PanicKnown(Exec(b, schedule))
    decreases |schedule|
  {
    if schedule != [] {
      PanicKnownStep(b, schedule[0]);
      PanicKnownExec(Step(b, schedule[0]), schedule[1..]);
    }
  }

  /** In every run, a finished batch gives a correct answer; a panic it raises is the first of some
      chunk of the plan. */
  lemma AnswerIsCorrect(items: seq<Call>, plan: seq<Chunk>, regs: nat, schedule: seq<Event>)
    requires Tiles(plan, |items|) && Exec(Spawned(items, plan, regs), schedule).sh.remaining == 0
    ensures Correct(items, plan, AnswerOf(Exec(Spawned(items, plan, regs), schedule).sh))
  {
    var b := Exec(Spawned(items, plan, regs), schedule);
    DoneMeansPublished(items, plan, regs, schedule);
    if b.sh.panic.Some? {
      PanicKnownExec(Spawned(items, plan, regs), schedule);
      SpawnedInv(items, plan, regs);
      ExecInv(Spawned(items, plan, regs), schedule);
      var k :| 0 <= k < |b.chunks| && MessageOf(b.items, b.chunks[k].range) == b.sh.panic;
      assert b.chunks[k].range == plan[k];
    } else {
      CollectCorrect(items, plan, b.sh.slots);
    }
  }

  // --- the chunk that publishes last decides the message --------------------------------------

  /** Every chunk but `c` has published, `c` has not, and nothing has been counted. */
  ghost predicate Waiting(b: Batch, c: nat, upTo: nat)
  {
    && c < |b.chunks| && upTo <= |b.chunks|
    && forall j :: 0 <= j < |b.chunks| ==>
         if j < upTo && j != c then b.chunks[j].at.Subtract? else b.chunks[j].at.Publish?
  }

  lemma PublishOne(b: Batch, k: nat)
    requires Inv(b) && k < |b.chunks| && b.chunks[k].at.Publish?
    ensures var b' := Step(b, ChunkMoves(k)); var p := MessageOf(b.items, b.chunks[k].range);
      && Inv(b') && b'.items == b.items
      && b'.chunks == b.chunks[k := ChunkState(b.chunks[k].range, ChunkPc.Subtract)]
      && (p.Some? ==> b'.sh.panic == p)
  {
    StepInv(b, ChunkMoves(k));
    assert ChunkOk(b.items, b.sh, b.chunks[k]);
  }

  lemma {:induction false} PublishOthers(b: Batch, c: nat, upTo: nat) returns (schedule: seq<Event>)
    requires Inv(b) && Waiting(b, c, upTo)
    ensures var t := Exec(b, schedule);
      && Inv(t) && t.items == b.items && Waiting(t, c, |t.chunks|) && SameRanges(b, t)
    decreases |b.chunks| - upTo
  {
    if upTo == |b.chunks| {
      schedule := [];
    } else if upTo == c {
      schedule := PublishOthers(b, c, upTo + 1);
    } else {
      PublishOne(b, upTo);
      var rest := PublishOthers(Step(b, ChunkMoves(upTo)), c, upTo + 1);
      schedule := [ChunkMoves(upTo)] + rest;
      assert schedule[1..] == rest;
    }
  }

  ghost predicate SameRanges(b: Batch, t: Batch)
  {
    |t.chunks| == |b.chunks| && forall j :: 0 <= j < |b.chunks| ==> t.chunks[j].range == b.chunks[j].range
  }

  /** All chunks from `from` on have published and not counted, the others have counted. */
  ghost predicate Counting(b: Batch, from: nat)
  {
    && from <= |b.chunks|
    && forall j :: 0 <= j < |b.chunks| ==>
         if j < from then !b.chunks[j].at.Publish? && !b.chunks[j].at.Subtract? else b.chunks[j].at.Subtract?
  }

  lemma CountOne(b: Batch, k: nat)
    requires Inv(b) && Counting(b, k) && k < |b.chunks|
    ensures var b' := Step(b, ChunkMoves(k)); Inv(b') && Counting(b', k + 1) && b'.sh.panic == b.sh.panic
  {
    StepInv(b, ChunkMoves(k));
    assert ChunkOk(b.items, b.sh, b.chunks[k]);
    SumMember(b.chunks, k, Weight);
  }

  lemma {:induction false} CountAll(b: Batch, from: nat) returns (schedule: seq<Event>)
    requires Inv(b) && Counting(b, from)
    ensures var t := Exec(b, schedule); t.sh.remaining == 0 && t.sh.panic == b.sh.panic
    decreases |b.chunks| - from
  {
    if from == |b.chunks| {
      schedule := [];
      SumZero(b.chunks, Weight);
    } else {
      CountOne(b, from);
      var rest := CountAll(Step(b, ChunkMoves(from)), from + 1);
      schedule := [ChunkMoves(from)] + rest;
      assert schedule[1..] == rest;
    }
  }

  /** For any panicking chunk there is a run in which its message is the answer. */
  lemma LastPublisherDecides(items: seq<Call>, plan: seq<Chunk>, regs: nat, c: nat) returns (schedule: seq<Event>)
    requires Tiles(plan, |items|) && c < |plan| && MessageOf(items, plan[c]).Some?
    ensures AnswerOf(Exec(Spawned(items, plan, regs), schedule).sh) == Panicked(MessageOf(items, plan[c]).value)
  {
    var b := Spawned(items, plan, regs);
    SpawnedInv(items, plan, regs);
    var others := PublishOthers(b, c, 0);
    var waiting := Exec(b, others);
    PublishOne(waiting, c);
    FoldOne(Step, b, others, ChunkMoves(c));
    var counts := CountAll(Step(waiting, ChunkMoves(c)), 0);
    FoldAppend(Step, b, others + [ChunkMoves(c)], counts);
    schedule := others + [ChunkMoves(c)] + counts;
  }

  /** No two finished runs of the batch answer differently. */
  ghost predicate Determined(items: seq<Call>, plan: seq<Chunk>, regs: nat)
  {
    forall s, t: seq<Event> | Finished(items, plan, regs, s) && Finished(items, plan, regs, t) ::
      AnswerOf(Exec(Spawned(items, plan, regs), s).sh) == AnswerOf(Exec(Spawned(items, plan, regs), t).sh)
  }

  predicate Finished(items: seq<Call>, plan: seq<Chunk>, regs: nat, schedule: seq<Event>)
  {
    Exec(Spawned(items, plan, regs), schedule).sh.remaining == 0
  }

  /** The answer is the same for all interleavings if and only if the chunks that panic all do so with
      the same message. */
  lemma DeterminedExactlyWhen(items: seq<Call>, plan: seq<Chunk>, regs: nat)
    requires Tiles(plan, |items|)
    ensures Determined(items, plan, regs) <==> OneMessage(items, plan)
  {
    if OneMessage(items, plan) {
      forall s, t: seq<Event> | Finished(items, plan, regs, s) && Finished(items, plan, regs, t)
        ensures AnswerOf(Exec(Spawned(items, plan, regs), s).sh) == AnswerOf(Exec(Spawned(items, plan, regs), t).sh)
      {
        AnswerIsCorrect(items, plan, regs, s);
        AnswerIsCorrect(items, plan, regs, t);
        CorrectIsUnique(items, plan, AnswerOf(Exec(Spawned(items, plan, regs), s).sh),
                        AnswerOf(Exec(Spawned(items, plan, regs), t).sh));
      }
    } else {
      var j, k :| 0 <= j < |plan| && 0 <= k < |plan| && MessageOf(items, plan[j]).Some?
        && MessageOf(items, plan[k]).Some? && MessageOf(items, plan[j]) != MessageOf(items, plan[k]);
      var s := LastPublisherDecides(items, plan, regs, j);
      var t := LastPublisherDecides(items, plan, regs, k);
      assert Finished(items, plan, regs, s) && Finished(items, plan, regs, t);
    }
  }

  /** Two chunks of one panicking call each: the order of publication decides which message is raised. */
  lemma OrderDecidesMessage()
    ensures var b := Spawned([Panics(1), Panics(2)], [Chunk(0, 1), Chunk(1, 2)], 0);
      && AnswerOf(Exec(b, [ChunkMoves(0), ChunkMoves(1), ChunkMoves(0), ChunkMoves(1)]).sh) == Panicked(2)
      && AnswerOf(Exec(b, [ChunkMoves(1), ChunkMoves(0), ChunkMoves(0), ChunkMoves(1)]).sh) == Panicked(1)
  {
    var items, plan := [Panics(1), Panics(2)], [Chunk(0, 1), Chunk(1, 2)];
    var b := Spawned(items, plan, 0);
    assert FirstPanic(items, 0, 1) == Some(1) && FirstPanic(items, 1, 2) == Some(2);
    Fold4(Step, b, ChunkMoves(0), ChunkMoves(1), ChunkMoves(0), ChunkMoves(1));
    Fold4(Step, b, ChunkMoves(1), ChunkMoves(0), ChunkMoves(0), ChunkMoves(1));
  }
}

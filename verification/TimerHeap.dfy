/** The timer driver's heap (hypertile-core/src/timer.rs:17-45, 81-135): its order, registration,
    and the sweep that collects the expired wakers. */
module TimerHeap {
  import opened Prelude

  type Instant = nat
  type Waker = nat
  type SlotId = nat

  datatype TimerEntry = TimerEntry(deadline: Instant, id: nat, slot: SlotId)

  datatype Ordering = Less | Equal | Greater

  function CmpNat(a: nat, b: nat): Ordering
  {
    if a < b then Less else if a == b then Equal else Greater
  }

  /** `Ord for TimerEntry`, with the operands swapped for a min-heap. */
  function Cmp(a: TimerEntry, b: TimerEntry): Ordering
  {
    var byDeadline := CmpNat(b.deadline, a.deadline);
    if byDeadline == Equal then CmpNat(b.id, a.id) else byDeadline
  }

  /** Due earlier, or at the same instant and registered earlier. */
  predicate Sooner(a: TimerEntry, b: TimerEntry)
  {
    a.deadline < b.deadline || (a.deadline == b.deadline && a.id < b.id)
  }

  /** The greatest entry by `Ord` is the soonest, and the order is total and transitive. */
  lemma OrdIsSooner(a: TimerEntry, b: TimerEntry, c: TimerEntry)
    ensures Cmp(a, b) == Greater <==> Sooner(a, b)
    ensures Cmp(a, b) == Less <==> Sooner(b, a)
    ensures Cmp(a, b) == Equal <==> a.deadline == b.deadline && a.id == b.id
    ensures Cmp(a, b) == Greater && Cmp(b, c) == Greater ==> Cmp(a, c) == Greater
  {
  }

  /** The wakers found in the slots of these entries, in order, each slot emptied as it is read. */
  function TakenWakers(entries: seq<TimerEntry>, slots: map<SlotId, Waker>): (ws: seq<Waker>)
  {
    if entries == [] then []
    else
      var before := TakenWakers(entries[..|entries| - 1], slots);
      var e := entries[|entries| - 1];
      if e.slot in slots && e.slot !in SlotsOf(entries[..|entries| - 1]) then before + [slots[e.slot]]
      else before
  }

  function SlotsOf(entries: seq<TimerEntry>): (ids: set<SlotId>)
  {
    set e | e in entries :: e.slot
  }

  lemma TakeNext(entries: seq<TimerEntry>, k: nat, slots: map<SlotId, Waker>)
    requires k < |entries|
    ensures TakenWakers(entries[..k + 1], slots) ==
            TakenWakers(entries[..k], slots)
            + (if entries[k].slot in slots - SlotsOf(entries[..k]) then [slots[entries[k].slot]] else [])
    ensures slots - SlotsOf(entries[..k + 1]) == slots - SlotsOf(entries[..k]) - {entries[k].slot}
  {
    assert entries[..k + 1][..k] == entries[..k];
    assert entries[..k + 1] == entries[..k] + [entries[k]];
    assert SlotsOf(entries[..k + 1]) == SlotsOf(entries[..k]) + {entries[k].slot};
  }

  // --- what others ask of the driver while it has dropped its lock ----------------------------

  datatype Request =
    | Arm(deadline: Instant, slot: SlotId)
    | StoreWaker(slot: SlotId, waker: Waker)
    | Clear(slot: SlotId)
    | Shutdown

  /** The entry this request registers, if any, under the identifier `id`. */
  function ArmedOne(r: Request, id: nat): (entries: seq<TimerEntry>)
  {
    if r.Arm? then [TimerEntry(r.deadline, id, r.slot)] else []
  }

  /** The entries these requests register when the next identifier is `id`. */
  function ArmedBy(requests: seq<Request>, id: nat): (entries: seq<TimerEntry>)
  {
    if requests == [] then []
    else
      var first := ArmedOne(requests[0], id);
      first + ArmedBy(requests[1..], id + |first|)
  }

  predicate Stops(requests: seq<Request>)
  {
    requests != [] && (requests[0] == Shutdown || Stops(requests[1..]))
  }

  function SlotStep(slots: map<SlotId, Waker>, r: Request): map<SlotId, Waker>
  {
    match r
    case StoreWaker(slot, waker) => slots[slot := waker]
    case Clear(slot) => slots - {slot}
    case _ => slots
  }

  /** One turn of the driver's loop: its two clock readings, and what others ask while it wakes and
      while it waits. */
  datatype Turn = Turn(now: Instant, whileWaking: seq<Request>, later: Instant, whileWaiting: seq<Request>)

  // --- what the driver has done ---------------------------------------------------------------

  /** What the driver and those it serves act on. */
  datatype Books = Books(heap: seq<TimerEntry>, nextId: nat, slots: map<SlotId, Waker>)

  /** The turns taken, from these books: each with the entries its sweep popped, whether it waited, and
      the books at its end. */
  datatype Log =
    | Start(books: Books)
    | Turned(before: Log, turn: Turn, entries: seq<TimerEntry>, waits: bool, books: Books)

  function First(l: Log): (books: Books)
  {
    if l.Start? then l.books else First(l.before)
  }

  /** The wakers a turn wakes: those its sweep found in the slots of the entries it popped. */
  function Woken(l: Log): (wakers: seq<Waker>)
    requires l.Turned?
  {
    TakenWakers(l.entries, l.before.books.slots)
  }

  /** What was asked of the driver while it woke them (its lock stays taken when there are none). */
  function AtWake(l: Log): (requests: seq<Request>)
    requires l.Turned?
  {
    if Woken(l) != [] then l.turn.whileWaking else []
  }

  function AtWait(l: Log): (requests: seq<Request>)
    requires l.Turned?
  {
    if l.waits then l.turn.whileWaiting else []
  }

  function ArmedAtWake(l: Log): (entries: seq<TimerEntry>)
    requires l.Turned?
  {
    ArmedBy(AtWake(l), l.before.books.nextId)
  }

  function ArmedIn(l: Log): (entries: seq<TimerEntry>)
    requires l.Turned?
  {
    ArmedAtWake(l) + ArmedBy(AtWait(l), l.before.books.nextId + |ArmedAtWake(l)|)
  }

  /** A turn waits unless it has been told to stop or something in the heap is due by then. */
  ghost predicate MayWait(l: Log)
    requires l.Turned?
  {
    && !Stops(AtWake(l))
    && forall e :: (e in l.before.books.heap && l.turn.now < e.deadline) || e in ArmedAtWake(l) ==>
         l.turn.later < e.deadline
  }

  function SlotsAfter(l: Log): (slots: map<SlotId, Waker>)
    requires l.Turned?
  {
    Fold(SlotStep, Fold(SlotStep, l.before.books.slots - SlotsOf(l.entries), AtWake(l)), AtWait(l))
  }

  /** The last turn did what the loop does: it popped exactly the entries that were due, and served
      exactly the requests made while it woke and waited. */
  ghost predicate TurnOk(l: Log)
    requires l.Turned?
  {
    && TakesDue(l.before.books.heap, l.entries, l.turn.now)
    && Kept(l.before.books.heap, ArmedIn(l), l.books.heap, l.entries)
    && l.books.nextId == l.before.books.nextId + |ArmedIn(l)|
    && l.books.slots == SlotsAfter(l)
    && (l.waits <==> MayWait(l))
  }

  ghost predicate Faithful(l: Log)
  {
    l.Start? || (Faithful(l.before) && TurnOk(l))
  }

  /** The log is that of the first `n` turns. */
  predicate Follows(l: Log, turns: seq<Turn>, n: nat)
    requires n <= |turns|
  {
    if l.Start? then n == 0 else n > 0 && l.turn == turns[n - 1] && Follows(l.before, turns, n - 1)
  }

  /** The driver was told to stop in the last turn. */
  predicate Stopped(l: Log) { l.Turned? && (Stops(AtWake(l)) || Stops(AtWait(l))) }

  function Popped(l: Log): (entries: seq<TimerEntry>)
  {
    if l.Start? then [] else Popped(l.before) + l.entries
  }

  function Armed(l: Log): (entries: seq<TimerEntry>)
  {
    if l.Start? then [] else Armed(l.before) + ArmedIn(l)
  }

  function WokenBy(l: Log): (wakers: seq<Waker>)
  {
    if l.Start? then [] else WokenBy(l.before) + Woken(l)
  }

  // --- what follows for a log -----------------------------------------------------------------

  /** Every entry in the heap at first or armed in some turn is in the heap at the end or was popped,
      exactly once. */
  lemma {:induction false} NothingLost(l: Log)
    requires Faithful(l)
    ensures Kept(First(l).heap, Armed(l), l.books.heap, Popped(l))
  {
    if l.Turned? {
      NothingLost(l.before);
      KeptOn(First(l).heap, Armed(l.before), l.before.books.heap, Popped(l.before), ArmedIn(l), l.books.heap, l.entries);
    }
  }

  /** No turn pops an entry before its deadline; and an entry that was there at first or armed in an
      earlier turn, and is due at a turn's sweep, has been popped when that is over. */
  lemma PoppedWhenDue(l: Log, e: TimerEntry)
    requires Faithful(l) && l.Turned?
    ensures e in l.entries ==> e.deadline <= l.turn.now
    ensures (e in First(l).heap || e in Armed(l.before)) && e.deadline <= l.turn.now ==> e in Popped(l)
  {
    if (e in First(l).heap || e in Armed(l.before)) && e.deadline <= l.turn.now {
      StillSomewhere(l.before, e);
    }
  }

  lemma StillSomewhere(l: Log, e: TimerEntry)
    requires Faithful(l) && (e in First(l).heap || e in Armed(l))
    ensures e in l.books.heap || e in Popped(l)
  {
    NothingLost(l);
    assert Times(First(l).heap, e) + Times(Armed(l), e) == Times(l.books.heap, e) + Times(Popped(l), e);
  }

  /** An entry not popped before, due at a turn's sweep and with a waker in its slot is popped, and
      that waker woken, in that turn. */
  lemma DueEntryIsWoken(l: Log, e: TimerEntry)
    requires Faithful(l) && l.Turned?
    requires (e in First(l).heap || e in Armed(l.before)) && e !in Popped(l.before)
    requires e.deadline <= l.turn.now && e.slot in l.before.books.slots
    ensures e in l.entries && l.before.books.slots[e.slot] in Woken(l)
  {
    StillSomewhere(l.before, e);
    TakenHas(l.entries, l.before.books.slots, e);
  }

  lemma {:induction false} TakenHas(entries: seq<TimerEntry>, slots: map<SlotId, Waker>, e: TimerEntry)
    requires e in entries && e.slot in slots
    ensures slots[e.slot] in TakenWakers(entries, slots)
    decreases |entries|
  {
    var front, last := entries[..|entries| - 1], entries[|entries| - 1];
    if e.slot in SlotsOf(front) {
      var d :| d in front && d.slot == e.slot;
      TakenHas(front, slots, d);
    } else {
      assert e == last;
    }
  }

  /** Nobody else is woken. */
  lemma {:induction false} TakenOnly(entries: seq<TimerEntry>, slots: map<SlotId, Waker>, w: Waker) returns (e: TimerEntry)
    requires w in TakenWakers(entries, slots)
    ensures e in entries && e.slot in slots && slots[e.slot] == w
    decreases |entries|
  {
    var front := entries[..|entries| - 1];
    if w in TakenWakers(front, slots) {
      e := TakenOnly(front, slots, w);
    } else {
      e := entries[|entries| - 1];
    }
  }

  /** And no slot is taken from twice. */
  lemma {:induction false} TakenOnce(entries: seq<TimerEntry>, slots: map<SlotId, Waker>)
    ensures |TakenWakers(entries, slots)| == |SlotsOf(entries) * slots.Keys|
    decreases |entries|
  {
    if entries != [] {
      var front, last := entries[..|entries| - 1], entries[|entries| - 1];
      TakenOnce(front, slots);
      SlotsGrow(entries);
      CountGrow(SlotsOf(front), last.slot, slots.Keys);
    } else {
      assert SlotsOf(entries) * slots.Keys == {};
    }
  }

  lemma SlotsGrow(entries: seq<TimerEntry>)
    requires entries != []
    ensures SlotsOf(entries) == SlotsOf(entries[..|entries| - 1]) + {entries[|entries| - 1].slot}
  {
    assert entries == entries[..|entries| - 1] + [entries[|entries| - 1]];
  }

  lemma CountGrow(ids: set<SlotId>, x: SlotId, keys: set<SlotId>)
    ensures |(ids + {x}) * keys| == |ids * keys| + Bit(x in keys && x !in ids)
  {
    if x in keys && x !in ids {
      assert (ids + {x}) * keys == ids * keys + {x};
    } else {
      assert (ids + {x}) * keys == ids * keys;
    }
  }

  /** A waker stored after which nobody touches the slot is still there. */
  lemma {:induction false} StoredStays(slots: map<SlotId, Waker>, earlier: seq<Request>, slot: SlotId, waker: Waker,
                                       later: seq<Request>)
    requires forall r :: r in later ==> !Touches(r, slot)
    ensures var after := Fold(SlotStep, slots, earlier + [StoreWaker(slot, waker)] + later);
      slot in after && after[slot] == waker
  {
    FoldAppend(SlotStep, slots, earlier + [StoreWaker(slot, waker)], later);
    FoldOne(SlotStep, slots, earlier, StoreWaker(slot, waker));
    Untouched(Fold(SlotStep, slots, earlier)[slot := waker], later, slot);
  }

  predicate Touches(r: Request, slot: SlotId) { (r.StoreWaker? || r.Clear?) && r.slot == slot }

  lemma {:induction false} Untouched(slots: map<SlotId, Waker>, requests: seq<Request>, slot: SlotId)
    requires slot in slots && forall r :: r in requests ==> !Touches(r, slot)
    ensures var after := Fold(SlotStep, slots, requests); slot in after && after[slot] == slots[slot]
    decreases |requests|
  {
    if requests != [] {
      assert requests[0] in requests;
      Untouched(SlotStep(slots, requests[0]), requests[1..], slot);
    }
  }

  /** Every entry that was in the heap or armed since is in the heap still or was popped. */
  ghost predicate Kept(before: seq<TimerEntry>, armed: seq<TimerEntry>, after: seq<TimerEntry>, popped: seq<TimerEntry>)
  {
    forall e :: Times(before, e) + Times(armed, e) == Times(after, e) + Times(popped, e)
  }

  lemma KeptOn(a: seq<TimerEntry>, armed: seq<TimerEntry>, b: seq<TimerEntry>, popped: seq<TimerEntry>,
               more: seq<TimerEntry>, c: seq<TimerEntry>, last: seq<TimerEntry>)
    requires Kept(a, armed, b, popped) && Kept(b, more, c, last)
    ensures Kept(a, armed + more, c, popped + last)
  {
    forall e
      ensures Times(a, e) + Times(armed + more, e) == Times(c, e) + Times(popped + last, e)
    {
      TimesConcat(armed, more, e);
      TimesConcat(popped, last, e);
    }
  }

  lemma RegisteredOnce(before: seq<TimerEntry>, entry: TimerEntry, after: seq<TimerEntry>)
    requires multiset(after) == multiset(before) + multiset{entry}
    ensures Kept(before, [entry], after, [])
  {
    forall e
      ensures Times(before, e) + Times([entry], e) == Times(after, e) + Times([], e)
    {
      assert Times([entry], e) == multiset{entry}[e];
    }
  }

  lemma TurnKept(first: seq<TimerEntry>, swept: seq<TimerEntry>, due: seq<TimerEntry>, armed: seq<TimerEntry>,
                 before: seq<TimerEntry>, more: seq<TimerEntry>, after: seq<TimerEntry>)
    requires Kept(first, [], swept, due) && Kept(swept, armed, before, []) && Kept(before, more, after, [])
    ensures Kept(first, armed + more, after, due)
  {
    KeptOn(swept, armed, before, [], more, after, []);
    KeptOn(first, [], swept, due, armed + more, after, []);
    assert [] + (armed + more) == armed + more && due + [] == due;
  }

  /** From books `a`, serving these requests, and no others, leads to books `b`. */
  ghost predicate Served(a: Books, requests: seq<Request>, b: Books)
  {
    && Kept(a.heap, ArmedBy(requests, a.nextId), b.heap, [])
    && b.nextId == a.nextId + |ArmedBy(requests, a.nextId)|
    && b.slots == Fold(SlotStep, a.slots, requests)
  }

  ghost predicate ServedOne(a: Books, r: Request, b: Books)
  {
    && Kept(a.heap, ArmedOne(r, a.nextId), b.heap, [])
    && b.nextId == a.nextId + |ArmedOne(r, a.nextId)|
    && b.slots == SlotStep(a.slots, r)
  }

  lemma ServedBoth(a: Books, requests: seq<Request>, b: Books, c: Books)
    requires requests != [] && ServedOne(a, requests[0], b) && Served(b, requests[1..], c)
    ensures Served(a, requests, c)
  {
    var one, more := ArmedOne(requests[0], a.nextId), ArmedBy(requests[1..], b.nextId);
    KeptOn(a.heap, one, b.heap, [], more, c.heap, []);
    var none: seq<TimerEntry> := [];
    assert none + none == none;
  }

  /** A sweep takes exactly the entries that are due. */
  ghost predicate TakesDue(heap: seq<TimerEntry>, entries: seq<TimerEntry>, now: Instant)
  {
    forall e :: e in entries <==> e in heap && e.deadline <= now
  }

  // --- the order of the heap ------------------------------------------------------------------

  ghost predicate Sorted(heap: seq<TimerEntry>)
  {
    forall i, j :: 0 <= i < j < |heap| ==> Cmp(heap[i], heap[j]) == Greater
  }

  /** An entry goes behind those that are sooner. */
  lemma Inserted(heap: seq<TimerEntry>, entry: TimerEntry, i: nat)
    requires Sorted(heap) && i <= |heap|
    requires forall k :: 0 <= k < |heap| ==> heap[k].id != entry.id
    requires forall k :: 0 <= k < i ==> Cmp(heap[k], entry) == Greater
    requires i < |heap| ==> Cmp(heap[i], entry) != Greater
    ensures Sorted(heap[..i] + [entry] + heap[i..])
  {
    var after := heap[..i] + [entry] + heap[i..];
    forall a, b | 0 <= a < b < |after|
      ensures Cmp(after[a], after[b]) == Greater
    {
      InsertedAt(heap, entry, i, a, b);
    }
  }

  lemma InsertedOnce(heap: seq<TimerEntry>, entry: TimerEntry, i: nat)
    requires i <= |heap|
    ensures multiset(heap[..i] + [entry] + heap[i..]) == multiset(heap) + multiset{entry}
  {
    assert heap == heap[..i] + heap[i..];
  }

  lemma InsertedAt(heap: seq<TimerEntry>, entry: TimerEntry, i: nat, a: nat, b: nat)
    requires Sorted(heap) && i <= |heap| && a < b <= |heap|
    requires forall k :: 0 <= k < |heap| ==> heap[k].id != entry.id
    requires forall k :: 0 <= k < i ==> Cmp(heap[k], entry) == Greater
    requires i < |heap| ==> Cmp(heap[i], entry) != Greater
    ensures var after := heap[..i] + [entry] + heap[i..]; Cmp(after[a], after[b]) == Greater
  {
    var after := heap[..i] + [entry] + heap[i..];
    if a < i {
      assert after[a] == heap[a];
      if b > i { assert after[b] == heap[b - 1]; }
    } else {
      assert after[b] == heap[b - 1];
      if a > i {
        assert after[a] == heap[a - 1];
      } else if i < b - 1 {
        OrdIsSooner(entry, heap[i], heap[b - 1]);
      }
    }
  }

  class TimerDriver {
    // the heap, soonest first
    var heap: seq<TimerEntry>
    // the occupied waker slots
    var slots: map<SlotId, Waker>
    var nextId: nat
    var notified: bool
    var shutdown: bool

    /** The heap is in the order of `Ord`, greatest first, and no identifier occurs twice. */
    ghost predicate Valid()
      reads this
    {
      && Sorted(heap)
      && (forall i :: 0 <= i < |heap| ==> heap[i].id < nextId)
    }

    constructor ()
      ensures Valid() && heap == [] && slots == map[] && !shutdown
    {
      heap, slots, nextId, notified, shutdown := [], map[], 1, false, false;
    }

    /** Pushes an entry with a fresh identifier and notifies the driver. */
    method Register(deadline: Instant, slot: SlotId) returns (id: nat)
      requires Valid()
      modifies this`heap, this`nextId, this`notified
      ensures Valid() && notified
      ensures id == old(nextId) && nextId == id + 1
      ensures multiset(heap) == multiset(old(heap)) + multiset{TimerEntry(deadline, id, slot)}
    {
      id := nextId;
      nextId := nextId + 1;
      var entry := TimerEntry(deadline, id, slot);
      var i := 0;
      while i < |heap| && Cmp(heap[i], entry) == Greater
        invariant 0 <= i <= |heap|
        invariant forall k :: 0 <= k < i ==> Cmp(heap[k], entry) == Greater
      {
        i := i + 1;
      }
      Inserted(heap, entry, i);
      InsertedOnce(heap, entry, i);
      heap := heap[..i] + [entry] + heap[i..];
      notified := true;
    }

    /** The sweep: exactly the entries due at `now` leave the heap, soonest first, and the wakers
        still in their slots are handed out in that order. */
    method CollectExpired(now: Instant) returns (expired: seq<Waker>, ghost k: nat)
      requires Valid()
      modifies this`heap, this`slots
      ensures Valid()
      ensures k <= |old(heap)| && Swept(old(heap), old(slots), now, k, expired)
    {
      expired := [];
      k := 0;
      while heap != [] && heap[0].deadline <= now
        invariant 0 <= k <= |old(heap)| && heap == old(heap)[k..]
        invariant forall i :: 0 <= i < k ==> old(heap)[i].deadline <= now
        invariant expired == TakenWakers(old(heap)[..k], old(slots))
        invariant slots == old(slots) - SlotsOf(old(heap)[..k])
        decreases |heap|
      {
        var entry := heap[0];
        heap := heap[1..];
        TakeNext(old(heap), k, old(slots));
        if entry.slot in slots {
          expired := expired + [slots[entry.slot]];
        }
        slots := slots - {entry.slot};
        k := k + 1;
      }
    }

    ghost predicate Swept(before: seq<TimerEntry>, slotsBefore: map<SlotId, Waker>, now: Instant, k: nat,
                          expired: seq<Waker>)
      requires k <= |before|
      reads this
    {
      && heap == before[k..]
      && (forall i :: 0 <= i < k ==> before[i].deadline <= now)
      && (forall i :: k <= i < |before| ==> now < before[i].deadline)
      && expired == TakenWakers(before[..k], slotsBefore)
      && slots == slotsBefore - SlotsOf(before[..k])
    }

    /** How long the driver may sleep: not at all when something is due, without a limit when the
        heap is empty, and otherwise exactly until the soonest deadline. */
    method NextTimeout(now: Instant) returns (timeout: Option<nat>)
      requires Valid()
      ensures timeout.None? <==> heap == []
      ensures timeout.Some? ==>
                (forall i :: 0 <= i < |heap| ==> timeout.value == 0 || now + timeout.value <= heap[i].deadline)
      ensures timeout.Some? && timeout.value == 0 ==> exists i :: 0 <= i < |heap| && heap[i].deadline <= now
      ensures timeout.Some? && timeout.value > 0 ==>
                exists i :: 0 <= i < |heap| && heap[i].deadline == now + timeout.value
    {
      if heap == [] {
        return None;
      }
      var next := heap[0];
      timeout := Some(if next.deadline <= now then 0 else next.deadline - now);
    }

    /** Others hold the lock: sleeps register, store their wakers and clear their slots, and somebody
        may shut the driver down. */
    method Serve(requests: seq<Request>)
      requires Valid()
      modifies this
      ensures Valid()
      ensures Served(old(Now()), requests, Now())
      ensures shutdown <==> old(shutdown) || Stops(requests)
      decreases |requests|
    {
      if requests != [] {
        ServeOne(requests[0]);
        ghost var before := Now();
        Serve(requests[1..]);
        ServedBoth(old(Now()), requests, before, Now());
      }
    }

    method ServeOne(r: Request)
      requires Valid()
      modifies this
      ensures Valid()
      ensures ServedOne(old(Now()), r, Now())
      ensures shutdown <==> old(shutdown) || r == Shutdown
    {
      match r {
        case Arm(deadline, slot) =>
          var id := Register(deadline, slot);
          RegisteredOnce(old(heap), TimerEntry(deadline, id, slot), heap);
        case StoreWaker(slot, waker) => slots := slots[slot := waker];
        case Clear(slot) => slots := slots - {slot};
        case Shutdown => shutdown := true;
      }
    }

    ghost function Now(): Books
      reads this
    {
      Books(heap, nextId, slots)
    }

    /** A sweep, as the log of the driver sees it. */
    method SweepExpired(now: Instant) returns (expired: seq<Waker>, ghost entries: seq<TimerEntry>)
      requires Valid()
      modifies this`heap, this`slots
      ensures Valid()
      ensures TakesDue(old(heap), entries, now) && Kept(old(heap), [], heap, entries)
      ensures forall e :: e in heap <==> e in old(heap) && now < e.deadline
      ensures expired == TakenWakers(entries, old(slots)) && slots == old(slots) - SlotsOf(entries)
    {
      ghost var k: nat;
      expired, k := CollectExpired(now);
      entries := old(heap)[..k];
      assert old(heap) == entries + heap;
      forall e
        ensures Times(old(heap), e) + Times([], e) == Times(heap, e) + Times(entries, e)
      {
        TimesConcat(entries, heap, e);
      }
    }

    /** One turn: sweep, wake with the lock dropped, and wait until the soonest deadline.  Exactly the
        entries that are due leave the heap, exactly the wakers left in their slots are woken, and
        exactly the requests made while it wakes and waits are served. */
    method TakeTurn(turn: Turn, ghost l: Log) returns (woken: seq<Waker>, ghost done: Log)
      requires Valid() && !shutdown && l.books == Now()
      modifies this
      ensures Valid()
      ensures done.Turned? && done.before == l && done.turn == turn && done.books == Now()
      ensures TurnOk(done) && woken == Woken(done) && (shutdown <==> Stopped(done))
    {
      ghost var entries;
      woken, entries := SweepExpired(turn.now);
      ghost var swept := heap;
      WakeAll(woken, turn);
      ghost var woke := Now();
      var waits := WaitForNext(turn);
      done := Turned(l, turn, entries, waits, Now());
      TurnDone(done, swept, woke);
    }

    /** The wakers are woken with the lock dropped, if there are any. */
    method WakeAll(woken: seq<Waker>, turn: Turn)
      requires Valid()
      modifies this
      ensures Valid() && ServedWhile(woken != [], turn.whileWaking)
    {
      if woken != [] {
        Serve(turn.whileWaking);
      }
    }

    /** The wait, unless the driver is to stop or something is due already: others act meanwhile. */
    method WaitForNext(turn: Turn) returns (waits: bool)
      requires Valid()
      modifies this
      ensures Valid()
      ensures waits <==> !old(shutdown) && forall e :: e in old(heap) ==> turn.later < e.deadline
      ensures ServedWhile(waits, turn.whileWaiting)
    {
      if shutdown {
        return false;
      }
      var timeout := NextTimeout(turn.later);
      waits := timeout != Some(0);
      if waits {
        Serve(turn.whileWaiting);
      }
    }

    /** These requests, and no others, have been served if `served` says so. */
    twostate predicate ServedWhile(served: bool, requests: seq<Request>)
      reads this
    {
      var all := if served then requests else [];
      Served(old(Now()), all, Now()) && (shutdown <==> old(shutdown) || Stops(all))
    }

    /** `run_timer_loop`: its log is that of the turns it took, each done as `TurnOk` says, and the
        wakers woken are those of the log; it ends only when the driver is shut down (or the turns are
        over), before another sweep. */
    method RunTimerLoop(turns: seq<Turn>) returns (taken: nat, woken: seq<Waker>, ghost log: Log)
      requires Valid()
      modifies this
      ensures Valid()
      ensures taken <= |turns| && (taken == |turns| || shutdown) && (old(shutdown) ==> taken == 0)
      ensures Logged(log, turns, taken, woken)
      ensures First(log) == old(Now()) && log.books == Now()
      ensures shutdown <==> old(shutdown) || Stopped(log)
      ensures Kept(old(heap), Armed(log), heap, Popped(log))
    {
      taken, woken, log := 0, [], Start(Now());
      while !shutdown && taken < |turns|
        invariant taken <= |turns| && Valid() && (old(shutdown) ==> taken == 0)
        invariant Logged(log, turns, taken, woken)
        invariant First(log) == old(Now()) && log.books == Now()
        invariant shutdown <==> old(shutdown) || Stopped(log)
        decreases |turns| - taken
      {
        var wakers;
        ghost var done;
        wakers, done := TakeTurn(turns[taken], log);
        LoggedOn(log, turns, taken, woken, done);
        woken, taken, log := woken + wakers, taken + 1, done;
      }
      NothingLost(log);
    }
  }

  /** The log is that of the first `n` turns, each done as `TurnOk` says, and of these wakers woken. */
  ghost predicate Logged(l: Log, turns: seq<Turn>, n: nat, woken: seq<Waker>)
    requires n <= |turns|
  {
    Follows(l, turns, n) && Faithful(l) && woken == WokenBy(l)
  }

  lemma LoggedOn(l: Log, turns: seq<Turn>, n: nat, woken: seq<Waker>, next: Log)
    requires n < |turns| && Logged(l, turns, n, woken)
    requires next.Turned? && next.before == l && next.turn == turns[n] && TurnOk(next)
    ensures Logged(next, turns, n + 1, woken + Woken(next)) && First(next) == First(l)
  {
  }

  /** A turn whose parts did what they should did what the loop does. */
  lemma TurnDone(l: Log, swept: seq<TimerEntry>, woke: Books)
    requires l.Turned?
    requires TakesDue(l.before.books.heap, l.entries, l.turn.now) && Kept(l.before.books.heap, [], swept, l.entries)
    requires forall e :: e in swept <==> e in l.before.books.heap && l.turn.now < e.deadline
    requires Served(Books(swept, l.before.books.nextId, l.before.books.slots - SlotsOf(l.entries)), AtWake(l), woke)
    requires Served(woke, AtWait(l), l.books)
    requires l.waits <==> !Stops(AtWake(l)) && forall e :: e in woke.heap ==> l.turn.later < e.deadline
    ensures TurnOk(l)
  {
    TurnArms(l, swept, woke);
    TurnWaits(l, swept, woke);
  }

  lemma TurnArms(l: Log, swept: seq<TimerEntry>, woke: Books)
    requires l.Turned? && woke.nextId == l.before.books.nextId + |ArmedAtWake(l)|
    requires Kept(l.before.books.heap, [], swept, l.entries) && Kept(swept, ArmedAtWake(l), woke.heap, [])
    requires Kept(woke.heap, ArmedBy(AtWait(l), woke.nextId), l.books.heap, [])
    ensures Kept(l.before.books.heap, ArmedIn(l), l.books.heap, l.entries)
  {
    var first, later := ArmedAtWake(l), ArmedBy(AtWait(l), woke.nextId);
    assert ArmedIn(l) == first + later;
    TurnKept(l.before.books.heap, swept, l.entries, first, woke.heap, later, l.books.heap);
  }

  lemma TurnWaits(l: Log, swept: seq<TimerEntry>, woke: Books)
    requires l.Turned? && Kept(swept, ArmedAtWake(l), woke.heap, [])
    requires forall e :: e in swept <==> e in l.before.books.heap && l.turn.now < e.deadline
    ensures MayWait(l) <==> !Stops(AtWake(l)) && forall e :: e in woke.heap ==> l.turn.later < e.deadline
  {
    AllThere(swept, ArmedAtWake(l), woke.heap);
  }

  lemma AllThere(swept: seq<TimerEntry>, armed: seq<TimerEntry>, after: seq<TimerEntry>)
    requires Kept(swept, armed, after, [])
    ensures forall e :: e in after <==> e in swept || e in armed
  {
    forall e
      ensures e in after <==> e in swept || e in armed
    {
      assert Times(swept, e) + Times(armed, e) == Times(after, e) + Times([], e);
    }
  }
}

/** The shared state of a C ABI task as the source writes it (hypertile-capi/src/lib.rs:114-252): a
    class with the result, the done flag and the list of unparkers, whose methods are the spawned
    work, `hypertile_wait` with its park loop, and `hypertile_poll`.

    Everybody else acts in the gaps: `script` is what they do and `trace` records every step, so
    `Valid` says that the fields are where some run of the hand-shake leads.  A method that answers
    `over` was cut off by the end of the script. */
module CapiCalls {
  import opened Prelude
  import opened CapiWait

  /** The caller of a method: the spawned work, or call `c`. */
  datatype Who = Producer | Caller(c: nat)

  predicate Mine(who: Who, e: Event)
  {
    if who.Producer? then e.ProducerMoves? else e.CallMoves? && e.c == who.c
  }

  /** Between two moments: where the caller stands is its own, and done stays done. */
  predicate Later(who: Who, s: Sys, t: Sys)
  {
    && |t.calls| == |s.calls|
    && (who.Producer? ==> t.producer == s.producer && t.sh.result == s.sh.result)
    && (who.Caller? && who.c < |s.calls| ==> t.calls[who.c] == s.calls[who.c])
    && (s.sh.done ==> t.sh.done)
  }

  lemma {:induction false} ForeignKeeps(who: Who, s: Sys, events: seq<Event>)
    requires forall e :: e in events ==> !Mine(who, e)
    ensures Later(who, s, Exec(s, events))
    decreases |events|
  {
    if events != [] {
      assert events[0] in events;
      ForeignKeeps(who, Step(s, events[0]), events[1..]);
    }
  }

  class HypertileTaskInner {
    // the fields of the source
    var result: Option<Res>
    var done: bool
    var unparkers: seq<nat>
    // the lock of the list, the park tokens, the history, and everything around
    var lock: Option<nat>
    var tokens: set<nat>
    var pushed: set<nat>
    var delivered: seq<nat>
    var producer: ProducerPc
    var calls: seq<CallPc>
    var script: seq<seq<Event>>
    ghost var trace: seq<Event>

    function Now(): Sys
      reads this
    {
      Sys(Shared(result, done, unparkers, lock, tokens, pushed, delivered), producer, calls)
    }

    ghost predicate Valid()
      reads this
    {
      Now() == Exec(Spawned(|calls|), trace)
    }

    constructor (callers: nat, script: seq<seq<Event>>)
      ensures Valid() && trace == [] && result == None && !done && unparkers == []
    {
      result, done, unparkers, lock, tokens := None, false, [], None, {};
      pushed, delivered, producer, calls := {}, [], ProducerPc.Work, seq(callers, k => CallPc.Start);
      this.script, trace := script, [];
    }

    ghost method Commit(e: Event)
      requires Now() == Step(Exec(Spawned(|calls|), trace), e)
      modifies this`trace
      ensures Valid() && trace == old(trace) + [e]
    {
      FoldOne(Step, Spawned(|calls|), trace, e);
      trace := trace + [e];
    }

    /** What a method may rely on from its beginning to its end. */
    twostate predicate Went()
      reads this
    {
      && old(trace) <= trace && |calls| == |old(calls)| && |script| <= |old(script)|
      && (old(done) ==> done)
    }

    method Become(s: Sys)
      modifies this`result, this`done, this`unparkers, this`lock, this`tokens, this`pushed, this`delivered,
               this`producer, this`calls
      ensures Now() == s
    {
      result, done, unparkers, lock := s.sh.result, s.sh.done, s.sh.unparkers, s.sh.lock;
      tokens, pushed, delivered := s.sh.tokens, s.sh.pushed, s.sh.delivered;
      producer, calls := s.producer, s.calls;
    }

    /** The others play the next gap. */
    method Others(who: Who)
      requires Valid()
      modifies this
      ensures Valid() && Went() && Later(who, old(Now()), Now())
      ensures old(script) != [] ==> |script| < |old(script)|
    {
      if script != [] {
        var events := Excluding(script[0], e => Mine(who, e));
        script := script[1..];
        ForeignKeeps(who, Now(), events);
        FoldAppend(Step, Spawned(|calls|), trace, events);
        Become(Exec(Now(), events));
        trace := trace + events;
      }
    }

    /** `unparkers.lock()`; false when the script ends first. */
    method AwaitLock(who: Who) returns (free: bool)
      requires Valid()
      modifies this
      ensures Valid() && Went() && Later(who, old(Now()), Now())
      ensures free <==> lock == None
    {
      while true
        invariant Valid() && Went() && Later(who, old(Now()), Now())
        decreases |script|
      {
        var over := script == [];
        Others(who);
        if lock == None {
          return true;
        }
        if over {
          return false;
        }
      }
    }

    // --- hypertile_spawn's task -----------------------------------------------------------------

    /** The work function returns or panics. */
    method CallWork(res: Res)
      requires Valid() && producer.Work?
      modifies this
      ensures Valid() && Went() && producer == ProducerPc.StoreResult(res)
    {
      Others(Producer);
      producer := ProducerPc.StoreResult(res);
      Commit(ProducerMoves(res));
    }

    method StoreResult(res: Res)
      requires Valid() && producer == ProducerPc.StoreResult(res)
      modifies this
      ensures Valid() && Went() && producer == ProducerPc.SetDone && result == Some(res)
    {
      Others(Producer);
      result, producer := Some(res), ProducerPc.SetDone;
      Commit(ProducerMoves(res));
    }

    method SetDone(res: Res)
      requires Valid() && producer == ProducerPc.SetDone
      modifies this
      ensures Valid() && Went() && producer == ProducerPc.Take && done && result == old(result)
    {
      Others(Producer);
      done, producer := true, ProducerPc.Take;
      Commit(ProducerMoves(res));
    }

    method TakeUnparkers(res: Res) returns (taken: bool, hand: seq<nat>)
      requires Valid() && producer.Take?
      modifies this
      ensures Valid() && Went()
      ensures if taken then producer == ProducerPc.Unpark(hand) else lock.Some?
      ensures result == old(result)
    {
      hand := [];
      taken := AwaitLock(Producer);
      if taken {
        hand, unparkers, producer := unparkers, [], ProducerPc.Unpark(unparkers);
        Commit(ProducerMoves(res));
      }
    }

    method UnparkNext(hand: seq<nat>, res: Res)
      requires Valid() && hand != [] && producer == ProducerPc.Unpark(hand)
      modifies this
      ensures Valid() && Went() && producer == ProducerPc.Unpark(hand[1..]) && result == old(result)
    {
      Others(Producer);
      tokens, delivered := tokens + {hand[0]}, delivered + [hand[0]];
      producer := ProducerPc.Unpark(hand[1..]);
      Commit(ProducerMoves(res));
    }

    method FinishUnparking(res: Res)
      requires Valid() && producer == ProducerPc.Unpark([])
      modifies this
      ensures Valid() && Went() && producer == ProducerPc.Finished && result == old(result)
    {
      Others(Producer);
      producer := ProducerPc.Finished;
      Commit(ProducerMoves(res));
    }

    /** The spawned task: when it ends, everybody who registered has been unparked exactly once and
        nobody who is parked lacks a token.  Only somebody else's lock cuts it off. */
    method RunWork(res: Res) returns (over: bool)
      requires Valid() && producer.Work?
      modifies this
      ensures Valid() && Went()
      ensures !over ==>
                && producer.Finished? && done && unparkers == []
                && (forall w :: Times(delivered, w) == Bit(w in pushed))
                && (forall c :: 0 <= c < |calls| && calls[c].WaitPark? ==> c in tokens)
      ensures over ==> lock.Some?
      ensures result == Some(res)
    {
      CallWork(res);
      StoreResult(res);
      SetDone(res);
      var taken, hand := TakeUnparkers(res);
      if !taken {
        return true;
      }
      while hand != []
        invariant Valid() && Went() && producer == ProducerPc.Unpark(hand) && result == Some(res)
        decreases |hand|
      {
        UnparkNext(hand, res);
        hand := hand[1..];
      }
      FinishUnparking(res);
      over := false;
      DrainedExactlyOnce(|calls|, trace);
      RunInv(|calls|, trace);
    }

    // --- hypertile_wait and hypertile_poll ------------------------------------------------------

    /** One of the loads of `done`, by call `c`. */
    method LoadDone(c: nat) returns (isDone: bool)
      requires Valid() && c < |calls|
      requires calls[c].WaitLoad? || calls[c].WaitLoop? || calls[c].PollLoad?
      modifies this
      ensures Valid() && Went()
      ensures calls[c] == Loaded(old(calls)[c], isDone)
      ensures old(done) ==> isDone
    {
      Others(Caller(c));
      isDone := done;
      calls := calls[c := Loaded(calls[c], isDone)];
      Commit(CallMoves(c, Go));
    }

    static function Loaded(at: CallPc, isDone: bool): CallPc
    {
      match at
      case WaitLoad => if isDone then WaitRead else WaitLock
      case WaitLoop => if isDone then WaitRead else WaitPark
      case _ => if isDone then PollRead else Answered(Answer(Pending, None))
    }

    /** The lock section in which the unparker is pushed, unless done has been set meanwhile. */
    method PushUnparker(c: nat) returns (over: bool)
      requires Valid() && c < |calls| && calls[c].WaitLock?
      modifies this
      ensures Valid() && Went()
      ensures if over then lock.Some? else calls[c] == CallPc.WaitLoop
    {
      var free := AwaitLock(Caller(c));
      if !free {
        return true;
      }
      over := false;
      lock, calls := Some(c), calls[c := WaitCheck];
      Commit(CallMoves(c, Go));
      var isDone := CheckUnderLock(c);
      if !isDone {
        PushUnderLock(c);
      }
    }

    method CheckUnderLock(c: nat) returns (isDone: bool)
      requires Valid() && c < |calls| && calls[c].WaitCheck?
      modifies this
      ensures Valid() && Went()
      ensures calls[c] == if isDone then CallPc.WaitLoop else CallPc.WaitPush
    {
      Others(Caller(c));
      isDone := done;
      if isDone {
        lock := None;
      }
      calls := calls[c := if isDone then WaitLoop else WaitPush];
      Commit(CallMoves(c, Go));
    }

    method PushUnderLock(c: nat)
      requires Valid() && c < |calls| && calls[c].WaitPush?
      modifies this
      ensures Valid() && Went() && calls[c] == CallPc.WaitLoop
    {
      Others(Caller(c));
      unparkers, lock, pushed := unparkers + [c], None, pushed + {c};
      calls := calls[c := WaitLoop];
      Commit(CallMoves(c, Go));
    }

    /** `parker.park()`: returns when the token is there, and uses it up; only a finished task can
        have sent it. */
    method Park(c: nat) returns (over: bool)
      requires Valid() && c < |calls| && calls[c].WaitPark?
      modifies this
      ensures Valid() && Went()
      ensures !over ==> calls[c] == CallPc.WaitLoop && done
      ensures over ==> calls[c] == CallPc.WaitPark && c !in tokens
    {
      while true
        invariant Valid() && Went() && c < |calls| && calls[c].WaitPark?
        decreases |script|
      {
        over := script == [];
        Others(Caller(c));
        if c in tokens {
          RunInv(|calls|, trace);
          tokens, calls := tokens - {c}, calls[c := WaitLoop];
          Commit(CallMoves(c, Go));
          return false;
        }
        if over {
          return;
        }
      }
    }

    /** Ok with the address the work returned, or ErrPanic with the output untouched. */
    predicate Answers(answer: Answer)
      reads this
    {
      && result.Some?
      && (result.value.Returned? ==> answer == Answer(Ok, Some(result.value.address)))
      && (result.value.Panic? ==> answer == Answer(ErrPanic, None))
    }

    /** Reads the result and answers. */
    method Read(c: nat) returns (answer: Answer)
      requires Valid() && c < |calls| && (calls[c].WaitRead? || calls[c].PollRead?)
      modifies this
      ensures Valid() && Went()
      ensures calls[c] == CallPc.Answered(answer)
      ensures Answers(answer)
    {
      Others(Caller(c));
      RunInv(|calls|, trace);
      assert CallOk(Now().sh, producer, c, calls[c]);
      answer := Reading(result, if calls[c].WaitRead? then ErrNotInitialized else Pending);
      calls := calls[c := Answered(answer)];
      Commit(CallMoves(c, Go));
    }

    /** `hypertile_wait`: it returns only over a finished task, with what the work returned or
        ErrPanic; there is no run in which it answers ErrNotInitialized.  It is cut off only while
        the spawned work has not finished or somebody else holds the lock of the list. */
    method HypertileWait(c: nat) returns (over: bool, answer: Answer)
      requires Valid() && c < |calls| && calls[c].WaitLoad?
      modifies this
      ensures Valid() && Went()
      ensures !over ==> done && Answers(answer)
      ensures over ==> !producer.Finished? || lock.Some?
    {
      over, answer := true, Answer(Pending, None);
      var isDone := LoadDone(c);
      if !isDone {
        var cut := PushUnparker(c);
        if cut {
          return;
        }
        isDone := LoadDone(c);
        while !isDone
          invariant Valid() && Went() && c < |calls|
          invariant calls[c] == if isDone then CallPc.WaitRead else CallPc.WaitPark
          decreases !isDone
        {
          cut := Park(c);
          if cut {
            DrainedExactlyOnce(|calls|, trace);
            return;
          }
          isDone := LoadDone(c);
        }
      }
      answer := Read(c);
      over := false;
      ResultThere(c);
    }

    /** A call that has read the result read it after done, so it was there. */
    lemma ResultThere(c: nat)
      requires Valid() && c < |calls| && calls[c].Answered? && calls[c].answer.status != Pending
      ensures done && Answers(calls[c].answer)
    {
      RunInv(|calls|, trace);
      assert CallOk(Now().sh, producer, c, calls[c]);
    }

    /** `hypertile_poll`: Pending exactly when it read not done, otherwise the stored result. */
    method HypertilePoll(c: nat) returns (answer: Answer)
      requires Valid() && c < |calls| && calls[c].PollLoad?
      modifies this
      ensures Valid() && Went()
      ensures old(done) ==> answer.status != Pending
      ensures answer.status != Pending ==> done && Answers(answer)
      ensures answer.status == Pending ==> answer.out == None
    {
      var isDone := LoadDone(c);
      if !isDone {
        return Answer(Pending, None);
      }
      answer := Read(c);
      ResultThere(c);
    }
  }
}

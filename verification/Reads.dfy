/**
  Stream reads and datagram receives: what their callbacks make of libuv's answers, and
  read_until, which adds up chunks until its condition is met.
*/
module Reads {
  import opened Options
  import opened StopOperation
  import opened OneShot

  const UV_EOF := -4095

  // The signal a callback stands for, or None for one that says nothing: the read length
  // is negative for errors and the end of the stream.
  function ReadSomeSignal(nrd: int): Option<Signal> {
    if nrd == 0 then None
    else if nrd == UV_EOF then Some(Value(0))
    else if nrd < 0 then Some(Error(nrd))
    else Some(Value(nrd))
  }

  // Datagrams may be empty, so only an empty one without a sender says nothing.
  function ReceiveSignal(hasAddr: bool, nrd: int): Option<Signal> {
    if !hasAddr && nrd == 0 then None
    else if nrd < 0 then Some(Error(nrd))
    else Some(Value(nrd))
  }

  // `copyErr` is the answer to copying the sender's address, 0 for success.
  function ReceiveFromSignal(hasAddr: bool, nrd: int, copyErr: int): Option<Signal> {
    match ReceiveSignal(hasAddr, nrd)
    case Some(Value(_)) => if copyErr != 0 then Some(Error(copyErr)) else Some(Value(nrd))
    case sig => sig
  }

  // The object behind read_some, receive and receive_from. Its methods are uninterrupted
  // pieces of a run of the race.
  class ReadOperation {
    const stopOp: StopOperation
    var source: Source           // whether libuv reads for us
    var done: seq<Signal>        // what was sent to the receiver
    ghost var run: State         // the race so far

    ghost predicate Valid()
      reads this, stopOp
    {
      && Reachable(run) && run.kind.Read? && !Running(run.cb) && (run.lp.NotStarted? || run.lp.Ready?)
      && run.latch == stopOp.View() && run.requested == stopOp.requested && run.linked == stopOp.linked
      && run.source == source && run.done == done
    }

    constructor ()
      ensures Valid() && run == Initial(Read)
      ensures fresh(stopOp)
    {
      stopOp := new StopOperation();
      source, done, run := Inactive, [], Initial(Read);
      new;
      assert Exec(Read, []) == Some(run);
    }

    // Starts reading; `err` is libuv's answer.
    method StartRead(err: int)
      requires Valid() && run.lp.NotStarted?
      modifies this, stopOp
      ensures Valid()
      ensures run == var begun := Next(old(run), Begin(0, err));
                     if err == 0 then SetupAtOnce(begun) else begun
      ensures done == old(done) + if err == 0 then [] else [Error(err)]
      ensures source == if err == 0 then Active else old(source)
      ensures stopOp.engaged == (err == 0) && stopOp.linked == (err == 0 && old(stopOp.requested))
    {
      ReachableInv(run);
      Extend(run, Begin(0, err));
      run := Next(run, Begin(0, err));
      if err != 0 {
        done := done + [Error(err)];
      } else {
        source := Active;
        SetupAtOnceIsARun(run);
        ReachableInv(run);
        if run.requested { CallbackEffect(Next(run, Register)); }
        run := SetupAtOnce(run);
        stopOp.Setup();
      }
    }

    // A stop is requested from the receiver's token while the loop thread is elsewhere.
    method RequestStop()
      requires Valid()
      modifies this, stopOp
      ensures Valid() && run == RequestAtOnce(old(run))
      ensures stopOp.requested && done == old(done) && source == old(source)
      ensures stopOp.linked == old(stopOp.linked || (!stopOp.requested && stopOp.engaged && !stopOp.used))
    {
      ReachableInv(run);
      RequestAtOnceIsARun(run);
      if !run.requested && run.cb.Registered? { CallbackEffect(Next(run, OneShot.RequestStop)); }
      run := RequestAtOnce(run);
      stopOp.RequestStop();
    }

    // The winner of the latch stops the source and completes.
    method Complete(sig: Signal)
      requires Valid() && source.Active? && sig != Stopped
      modifies this, stopOp
      ensures Valid() && run == EventAtOnce(old(run), sig) && stopOp.used
      ensures if old(stopOp.used) then done == old(done) && source == old(source)
              else done == old(done) + [sig] && source == Halted
    {
      ReachableInv(run);
      EventAtOnceIsARun(run, sig);
      run := EventAtOnce(run, sig);
      var lost := stopOp.Reset();
      if !lost {
        source := Halted;
        done := done + [sig];
      }
    }

    method ReadSomeCallback(nrd: int)
      requires Valid() && source.Active?
      modifies this, stopOp
      ensures Valid()
      ensures run == if nrd == 0 then old(run) else EventAtOnce(old(run), ReadSomeSignal(nrd).value)
      ensures if nrd == 0 || old(stopOp.used) then done == old(done) && source == old(source)
              else
                && source == Halted
                && done == old(done) + [if nrd == UV_EOF then Value(0) else if nrd < 0 then Error(nrd) else Value(nrd)]
    {
      if nrd == 0 {
        return;
      }
      Complete(if nrd == UV_EOF then Value(0) else if nrd < 0 then Error(nrd) else Value(nrd));
    }

    method ReceiveCallback(nrd: int, hasAddr: bool)
      requires Valid() && source.Active?
      modifies this, stopOp
      ensures Valid()
      ensures run == match ReceiveSignal(hasAddr, nrd)
                     case None => old(run)
                     case Some(sig) => EventAtOnce(old(run), sig)
      ensures if (nrd == 0 && !hasAddr) || old(stopOp.used) then done == old(done) && source == old(source)
              else source == Halted && done == old(done) + [if nrd < 0 then Error(nrd) else Value(nrd)]
    {
      if !hasAddr && nrd == 0 {
        return;
      }
      Complete(if nrd < 0 then Error(nrd) else Value(nrd));
    }

    method ReceiveFromCallback(nrd: int, hasAddr: bool, copyErr: int)
      requires Valid() && source.Active?
      modifies this, stopOp
      ensures Valid()
      ensures run == match ReceiveFromSignal(hasAddr, nrd, copyErr)
                     case None => old(run)
                     case Some(sig) => EventAtOnce(old(run), sig)
      ensures if (nrd == 0 && !hasAddr) || old(stopOp.used) then done == old(done) && source == old(source)
              else
                && source == Halted
                && done == old(done) + [if nrd < 0 then Error(nrd) else if copyErr != 0 then Error(copyErr) else Value(nrd)]
    {
      if !hasAddr && nrd == 0 {
        return;
      }
      Complete(if nrd < 0 then Error(nrd) else if copyErr != 0 then Error(copyErr) else Value(nrd));
    }

    // The loop takes the stop operation off its list and applies it.
    method StopCallback()
      requires Valid() && stopOp.linked
      modifies this, stopOp
      ensures Valid() && run == DrainAtOnce(old(run))
      ensures source == Halted && done == old(done) + [Stopped] && !stopOp.linked && !stopOp.engaged
    {
      ReachableInv(run);
      DrainAtOnceIsARun(run);
      run := DrainAtOnce(run);
      stopOp.linked := false;
      var _ := stopOp.ResetUnsafe();
      source := Halted;
      done := done + [Stopped];
    }
  }
}

/**
  read_until, interleaved with the stop callback: the test of the latch at the top of its
  callback, the accumulation and the race at the end are separate steps.
*/
module ReadUntil {
  import opened Options
  import opened OneShot
  import opened Reads

  // A chunk of positive length and what the condition answers for it.
  datatype Chunk = Chunk(size: nat, hit: bool)

  // One call of ReadCallback.
  datatype Delivery = Delivery(nrd: int, hit: bool)

  // `deciding` is set between the accumulation and the race for the latch. History: the
  // chunks that were added up, whether the end of the stream was seen, and all deliveries.
  datatype Reading = Reading(shot: State, total: nat, deciding: Option<Signal>, chunks: seq<Chunk>, eof: bool,
                             delivered: seq<Delivery>)

  const Fresh := Reading(Initial(Read), 0, None, [], false, [])

  datatype Step =
    | Deliver(nrd: int, hit: bool)    // libuv calls ReadCallback
    | Decide                          // ... which then races for the latch
    | Race(action: Action)            // anything else of the race

  predicate CanTake(s: Reading, a: Step) {
    match a
    case Deliver(_, _) => s.deciding.None? && s.shot.source.Active? && s.shot.lp.Ready?
    case Decide => s.deciding.Some?
    case Race(b) =>
      && !b.EventFires? && Enabled(s.shot, b)
      && (s.deciding.Some? ==> b.RequestStop? || b.Callback?)
  }

  function DeliverStep(s: Reading, nrd: int, hit: bool): Reading {
    Accumulate(s.(delivered := s.delivered + [Delivery(nrd, hit)]), nrd, hit)
  }

  function Accumulate(s: Reading, nrd: int, hit: bool): Reading {
    if s.shot.latch.used then s
    else if nrd < 0 then
      if nrd == UV_EOF then s.(deciding := Some(Value(s.total)), eof := true)
      else s.(deciding := Some(Error(nrd)))
    else if nrd > 0 then
      var s0 := s.(total := s.total + nrd, chunks := s.chunks + [Chunk(nrd, hit)]);
      if hit then s0.(deciding := Some(Value(s0.total))) else s0
    else s
  }

  function DecideStep(s: Reading): Reading
    requires s.deciding.Some?
  {
    s.(shot := EventStep(s.shot, s.deciding.value), deciding := None)
  }

  function Take(s: Reading, a: Step): Reading
    requires CanTake(s, a)
  {
    match a
    case Deliver(nrd, hit) => DeliverStep(s, nrd, hit)
    case Decide => DecideStep(s)
    case Race(b) => s.(shot := Next(s.shot, b))
  }

  function Play(run: seq<Step>): Option<Reading> {
    if run == [] then Some(Fresh)
    else
      var before := Play(run[..|run| - 1]);
      var a := run[|run| - 1];
      if before.Some? && CanTake(before.value, a) then Some(Take(before.value, a)) else None
  }

  ghost predicate Arises(s: Reading) {
    exists run :: Play(run) == Some(s)
  }

  // ---- what the value is ---------------------------------------------------------

  function Sum(chunks: seq<Chunk>): nat {
    if chunks == [] then 0 else Sum(chunks[..|chunks| - 1]) + chunks[|chunks| - 1].size
  }

  predicate AllMiss(chunks: seq<Chunk>) {
    forall i :: 0 <= i < |chunks| ==> !chunks[i].hit
  }

  // The value is the sum of the chunks; the condition failed on each but possibly the last,
  // and held on the last unless the stream ended.
  predicate Justified(s: Reading, sig: Signal) {
    sig.Value? ==>
      && sig.n == Sum(s.chunks)
      && (if s.eof then AllMiss(s.chunks)
          else s.chunks != [] && s.chunks[|s.chunks| - 1].hit && AllMiss(s.chunks[..|s.chunks| - 1]))
  }

  predicate FoldOk(s: Reading) {
    && s.total == Sum(s.chunks)
    && (s.deciding.Some? ==>
          s.shot.lp.Ready? && s.shot.source.Active? && s.deciding.value != Stopped && Justified(s, s.deciding.value))
    && (s.deciding.None? && !s.shot.latch.used ==> AllMiss(s.chunks) && !s.eof)
    && (s.shot.lp.EventReset? ==> Justified(s, s.shot.lp.sig))
    && (s.shot.done != [] ==> Justified(s, s.shot.done[0]))
  }

  ghost predicate ReadingOk(s: Reading) {
    Reachable(s.shot) && s.shot.kind.Read? && FoldOk(s)
  }

  lemma SumOfOneMore(chunks: seq<Chunk>, c: Chunk)
    ensures Sum(chunks + [c]) == Sum(chunks) + c.size
  {
    assert (chunks + [c])[..|chunks|] == chunks;
  }

  // A read that nobody decided has sent nothing.
  lemma UndecidedIsSilent(s: State)
    requires Inv(s) && s.kind.Read? && s.source.Active? && s.lp.Ready? && !s.latch.used
    ensures s.done == []
  {
  }

  lemma EndKeepsFold(s: Reading, nrd: int, hit: bool)
    requires FoldOk(s) && CanTake(s, Deliver(nrd, hit)) && !s.shot.latch.used && s.shot.done == []
    requires nrd <= 0
    ensures FoldOk(DeliverStep(s, nrd, hit))
  {
  }

  lemma ChunkKeepsFold(s: Reading, nrd: int, hit: bool)
    requires FoldOk(s) && CanTake(s, Deliver(nrd, hit)) && !s.shot.latch.used && s.shot.done == []
    requires nrd > 0
    ensures FoldOk(DeliverStep(s, nrd, hit))
  {
    SumOfOneMore(s.chunks, Chunk(nrd, hit));
    assert (s.chunks + [Chunk(nrd, hit)])[..|s.chunks|] == s.chunks;
  }

  lemma DeliverKeepsOk(s: Reading, nrd: int, hit: bool)
    requires ReadingOk(s) && CanTake(s, Deliver(nrd, hit))
    ensures ReadingOk(DeliverStep(s, nrd, hit))
  {
    if !s.shot.latch.used {
      ReachableInv(s.shot);
      UndecidedIsSilent(s.shot);
      if nrd > 0 {
        ChunkKeepsFold(s, nrd, hit);
      } else {
        EndKeepsFold(s, nrd, hit);
      }
    }
  }

  lemma DecideKeepsOk(s: Reading)
    requires ReadingOk(s) && s.deciding.Some?
    ensures ReadingOk(DecideStep(s))
  {
    ReachableInv(s.shot);
    Extend(s.shot, EventFires(s.deciding.value));
  }

  // What the rest of the race tells the receiver is no value but the one that won.
  lemma RaceTells(s: State, b: Action)
    requires Inv(s) && s.kind.Read? && Enabled(s, b) && !b.EventFires?
    ensures var s' := Next(s, b);
            && (s'.lp.EventReset? ==> s'.lp == s.lp)
            && (s'.latch.used || !s.latch.used)
            && (s'.done != [] ==>
                  || (s.done != [] && s'.done[0] == s.done[0])
                  || !s'.done[0].Value?
                  || (s.lp.EventReset? && s'.done[0] == s.lp.sig))
  {
  }

  lemma StopperStays(s: State, b: Action)
    requires Enabled(s, b) && (b.RequestStop? || b.Callback?)
    ensures Next(s, b).lp == s.lp && Next(s, b).source == s.source
  {
  }

  lemma RaceKeepsOk(s: Reading, b: Action)
    requires ReadingOk(s) && CanTake(s, Race(b))
    ensures ReadingOk(Take(s, Race(b)))
  {
    ReachableInv(s.shot);
    RaceTells(s.shot, b);
    if s.deciding.Some? { StopperStays(s.shot, b); }
    Extend(s.shot, b);
    RaceKeepsFold(s, Next(s.shot, b));
  }

  lemma RaceKeepsFold(s: Reading, shot: State)
    requires FoldOk(s)
    requires s.deciding.Some? ==> shot.lp == s.shot.lp && shot.source == s.shot.source
    requires shot.lp.EventReset? ==> shot.lp == s.shot.lp
    requires shot.latch.used || !s.shot.latch.used
    requires shot.done != [] ==>
               || (s.shot.done != [] && shot.done[0] == s.shot.done[0])
               || !shot.done[0].Value?
               || (s.shot.lp.EventReset? && shot.done[0] == s.shot.lp.sig)
    ensures FoldOk(s.(shot := shot))
  {
  }

  lemma {:induction false} PlayKeepsOk(run: seq<Step>)
    requires Play(run).Some?
    ensures ReadingOk(Play(run).value)
  {
    if run == [] {
      assert Exec(Read, []) == Some(Initial(Read));
    } else {
      PlayKeepsOk(run[..|run| - 1]);
      var before := Play(run[..|run| - 1]).value;
      match run[|run| - 1]
      case Deliver(nrd, hit) => DeliverKeepsOk(before, nrd, hit);
      case Decide => DecideKeepsOk(before);
      case Race(b) => RaceKeepsOk(before, b);
    }
  }

  // When read_until completes with a value, the value is the sum of all chunks delivered
  // while it listened, and it stopped at the right chunk; and it completes at most once,
  // with Stopped if and only if the stop won the latch.
  lemma ReadUntilIsAFold(s: Reading)
    requires Arises(s)
    ensures |s.shot.done| <= 1
    ensures s.shot.done != [] && s.shot.done[0].Value? ==> Justified(s, s.shot.done[0]) && s.shot.winner == Event
    ensures s.shot.startOk && s.shot.done != [] ==> (s.shot.done[0] == Stopped <==> s.shot.winner == Stop)
  {
    ArisingIsOk(s);
    ReachableInv(s.shot);
  }

  // ---- what any answer is ----------------------------------------------------------

  // The bytes that a sequence of deliveries brought.
  function Bytes(d: seq<Delivery>): nat {
    if d == [] then 0
    else
      var last := d[|d| - 1];
      Bytes(d[..|d| - 1]) + if last.nrd > 0 then last.nrd else 0
  }

  // No error, no end of the stream, and no chunk that met the condition.
  predicate Undecided(d: seq<Delivery>) {
    forall i {:trigger d[i]} :: 0 <= i < |d| ==> d[i].nrd >= 0 && (d[i].nrd > 0 ==> !d[i].hit)
  }

  // The last delivery is the first that decides, and `sig` is what it stands for.
  predicate Decides(d: seq<Delivery>, sig: Signal) {
    && d != [] && Undecided(d[..|d| - 1])
    && var last := d[|d| - 1];
       if last.nrd == UV_EOF then sig == Value(Bytes(d[..|d| - 1]))
       else if last.nrd < 0 then sig == Error(last.nrd)
       else last.nrd > 0 && last.hit && sig == Value(Bytes(d[..|d| - 1]) + last.nrd)
  }

  predicate HistoryOk(s: Reading) {
    && (s.shot.winner == Nobody && s.deciding.None? ==> Undecided(s.delivered) && s.total == Bytes(s.delivered))
    && (s.deciding.Some? ==> Decides(s.delivered, s.deciding.value))
    && (s.shot.winner == Event ==> s.deciding.None? && s.shot.won.Some? && Decides(s.delivered, s.shot.won.value))
  }

  lemma DeliverKeepsHistory(s: Reading, nrd: int, hit: bool)
    requires HistoryOk(s) && s.deciding.None?
    requires s.shot.winner != Event && (s.shot.latch.used <==> s.shot.winner == Stop)
    ensures HistoryOk(DeliverStep(s, nrd, hit))
  {
    if !s.shot.latch.used {
      if nrd < 0 || (nrd > 0 && hit) {
        NewsDecides(s.delivered, nrd, hit);
      } else {
        SilenceGoesOn(s.delivered, nrd, hit);
      }
    }
  }

  lemma SilenceGoesOn(d: seq<Delivery>, nrd: nat, hit: bool)
    requires Undecided(d) && (nrd > 0 ==> !hit)
    ensures Undecided(d + [Delivery(nrd, hit)]) && Bytes(d + [Delivery(nrd, hit)]) == Bytes(d) + nrd
  {
    assert (d + [Delivery(nrd, hit)])[..|d|] == d;
  }

  lemma NewsDecides(d: seq<Delivery>, nrd: int, hit: bool)
    requires Undecided(d) && (nrd < 0 || (nrd > 0 && hit))
    ensures Decides(d + [Delivery(nrd, hit)], if nrd == UV_EOF then Value(Bytes(d)) else if nrd < 0 then Error(nrd) else Value(Bytes(d) + nrd))
  {
    assert (d + [Delivery(nrd, hit)])[..|d|] == d;
  }

  // While libuv delivers, no event has won.
  lemma DeliversUnlessWon(s: State)
    requires Inv(s) && s.kind.Read? && s.source.Active? && s.lp.Ready?
    ensures s.winner != Event && (s.latch.used <==> s.winner == Stop)
  {
  }

  lemma DecideKeepsHistory(s: Reading)
    requires Inv(s.shot) && s.shot.kind.Read? && HistoryOk(s) && FoldOk(s) && s.deciding.Some?
    ensures HistoryOk(DecideStep(s))
  {
    DeliversUnlessWon(s.shot);
  }

  lemma {:induction false} PlayKeepsHistory(run: seq<Step>)
    requires Play(run).Some?
    ensures HistoryOk(Play(run).value)
  {
    if run != [] {
      var before := Play(run[..|run| - 1]).value;
      PlayKeepsHistory(run[..|run| - 1]);
      PlayKeepsOk(run[..|run| - 1]);
      ReachableInv(before.shot);
      match run[|run| - 1]
      case Deliver(nrd, hit) =>
        DeliversUnlessWon(before.shot);
        DeliverKeepsHistory(before, nrd, hit);
      case Decide => DecideKeepsHistory(before);
      case Race(b) => RaceKeepsWinner(before.shot, b);
    }
  }

  // In every interleaving: while nobody has decided, everything delivered was a chunk that
  // failed the condition, or nothing; and if an event won, it was the last delivery, the
  // only one to decide, and the receiver gets exactly what that delivery stands for.
  lemma ReadUntilReportsTheLastDelivery(s: Reading)
    requires Arises(s)
    ensures s.shot.winner == Nobody && s.deciding.None? ==> Undecided(s.delivered) && s.total == Bytes(s.delivered)
    ensures s.shot.winner == Event ==> s.shot.won.Some? && Decides(s.delivered, s.shot.won.value)
    ensures s.shot.winner == Event && s.shot.done != [] ==> s.shot.done == [s.shot.won.value]
  {
    var run :| Play(run) == Some(s);
    PlayKeepsHistory(run);
    ArisingIsOk(s);
    ReachableInv(s.shot);
  }

  // ---- uninterrupted sequences ---------------------------------------------------

  lemma Plays(s: Reading, a: Step)
    requires Arises(s) && CanTake(s, a)
    ensures Arises(Take(s, a))
  {
    var run :| Play(run) == Some(s);
    assert (run + [a])[..|run|] == run;
    assert Play(run + [a]) == Some(Take(s, a));
  }

  lemma ArisingIsOk(s: Reading)
    requires Arises(s)
    ensures ReadingOk(s)
  {
    var run :| Play(run) == Some(s);
    PlayKeepsOk(run);
  }

  lemma RacePlays(s: Reading, b: Action)
    requires Arises(s) && s.deciding.None? && !b.EventFires? && Enabled(s.shot, b)
    ensures Arises(s.(shot := Next(s.shot, b)))
  {
    Plays(s, Race(b));
  }

  lemma {:induction false} CallbackPlays(s: Reading)
    requires Arises(s) && s.deciding.None?
    ensures Arises(s.(shot := CallbackAtOnce(s.shot)))
    decreases StepsLeft(s.shot.cb)
  {
    if Running(s.shot.cb) {
      CallbackMoves(s.shot);
      RacePlays(s, Callback);
      CallbackPlays(s.(shot := CallbackStep(s.shot)));
    } else {
      assert s == s.(shot := CallbackAtOnce(s.shot));
    }
  }

  lemma SetupPlays(s: Reading)
    requires Arises(s) && s.deciding.None? && s.shot.lp.Registering?
    ensures Arises(s.(shot := SetupAtOnce(s.shot)))
  {
    ArisingIsOk(s);
    var s1 := s.(shot := Next(s.shot, Register));
    RacePlays(s, Register);
    Extend(s.shot, Register);
    CallbackPlays(s1);
    CallbackAtOnceIsARun(s1.shot);
    RacePlays(s1.(shot := CallbackAtOnce(s1.shot)), MarkEngaged);
  }

  lemma RequestPlays(s: Reading)
    requires Arises(s) && s.deciding.None?
    ensures Arises(s.(shot := RequestAtOnce(s.shot)))
  {
    if s.shot.requested {
      assert s == s.(shot := RequestAtOnce(s.shot));
    } else {
      RacePlays(s, RequestStop);
      CallbackPlays(s.(shot := Next(s.shot, RequestStop)));
    }
  }

  lemma DrainPlays(s: Reading)
    requires Arises(s) && s.deciding.None? && Enabled(s.shot, Drain) && !Running(s.shot.cb)
    ensures Arises(s.(shot := DrainAtOnce(s.shot)))
  {
    RacePlays(s, Drain);
    if DrainStep(s.shot).lp.DrainReset? {
      RacePlays(s.(shot := DrainStep(s.shot)), FinishReset);
    }
  }

  // ReadCallback with nothing in between.
  function DeliverAtOnce(s: Reading, nrd: int, hit: bool): Reading {
    var s1 := DeliverStep(s, nrd, hit);
    if s1.deciding.None? then s1 else DecideAtOnce(s1)
  }

  function DecideAtOnce(s: Reading): Reading
    requires s.deciding.Some?
  {
    s.(shot := EventAtOnce(s.shot, s.deciding.value), deciding := None)
  }

  lemma DeliverPlays(s: Reading, nrd: int, hit: bool)
    requires Arises(s) && s.deciding.None? && s.shot.source.Active?
    requires !Running(s.shot.cb) && (s.shot.lp.NotStarted? || s.shot.lp.Ready?)
    ensures Arises(DeliverAtOnce(s, nrd, hit))
    ensures DeliverAtOnce(s, nrd, hit).deciding.None?
  {
    ArisingIsOk(s);
    ReachableInv(s.shot);
    Plays(s, Deliver(nrd, hit));
    var s1 := DeliverStep(s, nrd, hit);
    if s1.deciding.Some? {
      Plays(s1, Decide);
      if DecideStep(s1).shot.lp.EventReset? {
        RacePlays(DecideStep(s1), FinishReset);
      }
    }
  }

  // The object behind read_until: a read operation with a running total.
  class ReadUntilOperation {
    const op: ReadOperation
    var readTotal: nat
    ghost var reading: Reading

    ghost predicate Valid()
      reads this, op, op.stopOp
    {
      && op.Valid() && Arises(reading) && reading.deciding.None?
      && reading.shot == op.run && reading.total == readTotal
    }

    constructor ()
      ensures Valid() && reading == Fresh
    {
      op := new ReadOperation();
      readTotal, reading := 0, Fresh;
      assert Play([]) == Some(Fresh);
    }

    method StartRead(err: int)
      requires Valid() && op.run.lp.NotStarted?
      modifies this, op, op.stopOp
      ensures Valid() && reading == old(reading).(shot := op.run)
      ensures op.run == var begun := Next(old(op.run), Begin(0, err));
                        if err == 0 then SetupAtOnce(begun) else begun
      ensures op.done == old(op.done) + (if err == 0 then [] else [Error(err)]) && readTotal == old(readTotal)
      ensures op.source == if err == 0 then Active else old(op.source)
    {
      RacePlays(reading, Begin(0, err));
      if err == 0 {
        SetupPlays(reading.(shot := Next(reading.shot, Begin(0, err))));
      }
      op.StartRead(err);
      reading := reading.(shot := op.run);
    }

    method RequestStop()
      requires Valid()
      modifies this, op, op.stopOp
      ensures Valid() && reading == old(reading).(shot := RequestAtOnce(old(reading.shot)))
      ensures op.stopOp.requested && op.done == old(op.done) && op.source == old(op.source)
    {
      RequestPlays(reading);
      op.RequestStop();
      reading := reading.(shot := op.run);
    }

    // The race that a callback enters after it has accumulated.
    method Decide(sig: Signal)
      requires op.Valid() && op.source.Active? && sig != Stopped
      requires reading.shot == op.run && reading.total == readTotal && reading.deciding == Some(sig)
      requires Arises(DecideAtOnce(reading))
      modifies this, op, op.stopOp
      ensures Valid() && reading == DecideAtOnce(old(reading))
      ensures if old(op.stopOp.used) then op.done == old(op.done) && op.source == old(op.source)
              else op.done == old(op.done) + [sig] && op.source == Halted
      ensures readTotal == old(readTotal)
    {
      op.Complete(sig);
      reading := DecideAtOnce(reading);
    }

    // `hit` is what the condition answers for this length.
    method ReadCallback(nrd: int, hit: bool)
      requires Valid() && op.source.Active?
      modifies this, op, op.stopOp
      ensures Valid() && reading == DeliverAtOnce(old(reading), nrd, hit)
      ensures reading.delivered == old(reading.delivered) + [Delivery(nrd, hit)]
      ensures old(op.stopOp.used) ==>
                op.done == old(op.done) && op.source == old(op.source) && readTotal == old(readTotal)
      ensures !old(op.stopOp.used) ==>
                && readTotal == old(readTotal) + (if nrd > 0 then nrd else 0)
                && op.source == (if nrd < 0 || (nrd > 0 && hit) then Halted else old(op.source))
                && op.done == old(op.done) +
                              if nrd == UV_EOF then [Value(readTotal)]
                              else if nrd < 0 then [Error(nrd)]
                              else if nrd > 0 && hit then [Value(readTotal)]
                              else []
    {
      DeliverPlays(reading, nrd, hit);
      reading := DeliverStep(reading, nrd, hit);
      if op.stopOp.used {
        return;
      }
      if nrd < 0 {
        Decide(if nrd == UV_EOF then Value(readTotal) else Error(nrd));
      } else if nrd > 0 {
        readTotal := readTotal + nrd;
        if hit {
          Decide(Value(readTotal));
        }
      }
    }

    method StopCallback()
      requires Valid() && op.stopOp.linked
      modifies this, op, op.stopOp
      ensures Valid() && reading == old(reading).(shot := DrainAtOnce(old(reading.shot)))
      ensures op.source == Halted && op.done == old(op.done) + [Stopped]
    {
      ReachableInv(op.run);
      DrainPlays(reading);
      op.StopCallback();
      reading := reading.(shot := op.run);
    }
  }
}

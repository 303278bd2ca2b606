/**
  The operation states of timers and signal handlers as objects. Their methods are what
  the loop thread calls; each of them is one uninterrupted piece of a run of the race, so
  everything proved about those runs holds for the objects.
*/
module Timers {
  import opened Options
  import opened StopOperation
  import opened OneShot

  class TimedOperation {
    const stopOp: StopOperation
    var source: Source           // the timer or signal handle
    var done: seq<Signal>        // what was sent to the receiver
    ghost var run: State         // the race so far

    ghost predicate Valid()
      reads this, stopOp
    {
      && Reachable(run) && run.kind.Timed? && !Running(run.cb) && (run.lp.NotStarted? || run.lp.Ready?)
      && run.latch == stopOp.View() && run.requested == stopOp.requested && run.linked == stopOp.linked
      && run.source == source && run.done == done
    }

    constructor ()
      ensures Valid() && run == Initial(Timed)
      ensures fresh(stopOp)
    {
      stopOp := new StopOperation();
      source, done, run := Inactive, [], Initial(Timed);
      new;
      assert Exec(Timed, []) == Some(run);
    }

    // The loop applies the scheduled operation; the two errors are libuv's answers.
    method Apply(initErr: int, startErr: int)
      requires Valid() && run.lp.NotStarted?
      modifies this, stopOp
      ensures Valid()
      ensures run == var begun := Next(old(run), Begin(initErr, startErr));
                     if startErr == 0 then SetupAtOnce(begun) else begun
      ensures done == old(done) + (if initErr == 0 then [] else [Error(initErr)])
                      + (if startErr == 0 then [] else [Error(startErr)])
      ensures source == if startErr == 0 then Active else old(source)
      ensures stopOp.engaged == (startErr == 0) && stopOp.linked == (startErr == 0 && old(stopOp.requested))
    {
      ReachableInv(run);
      if initErr != 0 {
        done := done + [Error(initErr)];
      }
      Extend(run, Begin(initErr, startErr));
      run := Next(run, Begin(initErr, startErr));
      if startErr != 0 {
        done := done + [Error(startErr)];
      } else {
        source := Active;
        SetupAtOnceIsARun(run);
        ReachableInv(run);
        if run.requested { CallbackEffect(Next(run, Register)); }
        run := SetupAtOnce(run);
        stopOp.Setup();
      }
    }

    // A stop is requested from the receiver's token while the loop thread is elsewhere.
    method RequestStop()
      requires Valid()
      modifies this, stopOp
      ensures Valid() && run == RequestAtOnce(old(run))
      ensures stopOp.requested && done == old(done) && source == old(source)
      ensures stopOp.linked == old(stopOp.linked || (!stopOp.requested && stopOp.engaged && !stopOp.used))
    {
      ReachableInv(run);
      RequestAtOnceIsARun(run);
      if !run.requested && run.cb.Registered? { CallbackEffect(Next(run, OneShot.RequestStop)); }
      run := RequestAtOnce(run);
      stopOp.RequestStop();
    }

    // The timer or signal fires.
    method EventCallback()
      requires Valid() && source.Active?
      modifies this, stopOp
      ensures Valid() && run == EventAtOnce(old(run), Value(0)) && stopOp.used
      ensures done == old(done) && source == if old(stopOp.used) then old(source) else Closing
    {
      ReachableInv(run);
      EventAtOnceIsARun(run, Value(0));
      run := EventAtOnce(run, Value(0));
      var lost := stopOp.Reset();
      if !lost {
        source := Closing;
      }
    }

    // The loop takes the stop operation off its list and applies it.
    method StopCallback()
      requires Valid() && stopOp.linked
      modifies this, stopOp
      ensures Valid() && run == DrainAtOnce(old(run))
      ensures source == Closing && done == old(done) && !stopOp.linked && stopOp.engaged == old(stopOp.engaged)
    {
      ReachableInv(run);
      DrainAtOnceIsARun(run);
      run := DrainAtOnce(run);
      stopOp.linked := false;
      source := Closing;
    }

    // libuv has closed the handle.
    method CloseCallback()
      requires Valid() && source.Closing?
      modifies this, stopOp
      ensures Valid() && run == CloseAtOnce(old(run))
      ensures source == Closed && done == old(done) + [if old(stopOp.engaged) then Stopped else Value(0)]
    {
      ReachableInv(run);
      CloseAtOnceIsARun(run);
      run := CloseAtOnce(run);
      source := Closed;
      var none := stopOp.ResetUnsafe();
      if !none {
        done := done + [Stopped];
      } else {
        done := done + [Value(0)];
      }
    }
  }
}

/**
  Two short runs of the hand-over that end where nobody wants them to: one loses a
  wakeup, one leaves a sync_wait inside the loop past its own result.
*/
module HandoffRuns {
  import opened Options
  import opened LoopHandoff
  import opened HandoffTheorems

  lemma Go(s: State, a: Action, s': State)
    requires Reachable(s) && Enabled(s, a) && Next(s, a) == s'
    ensures Reachable(s')
  {
    var run :| Exec(run) == Some(s);
    assert (run + [a])[..|run|] == run;
    assert Exec(run + [a]) == Some(s');
  }

  lemma InitialIsReachable()
    ensures Reachable(Initial)
  {
    assert Exec([]) == Some(Initial);
  }

  // ---- a lost wakeup -----------------------------------------------------------

  // Call 0 is a run_once, call 1 a run.
  function Pair(pc0: Pc, pc1: Pc, awakenings: nat, mutex: Option<Id>, owner: Option<Id>,
                queue: seq<Id>, baton: Option<Id>): State
  {
    State(map[0 := Call(RunBounded, pc0, 1, false, 1, false, false),
              1 := Call(Run, pc1, awakenings, false, 1, false, false)],
          mutex, owner.Some?, queue, false, owner, baton, false)
  }

  lemma BothWant()
    ensures Reachable(Pair(Want, Want, 1, None, None, [], None))
  {
    InitialIsReachable();
    var alone := Initial.(calls := map[0 := Call(RunBounded, Want, 1, false, 1, false, false)]);
    Go(Initial, Spawn(0, RunBounded, false), alone);
    Go(alone, Spawn(1, Run, false), Pair(Want, Want, 1, None, None, [], None));
  }

  // Call 0 runs the loop,
  lemma FirstCallRuns()
    ensures Reachable(Pair(InUv, Want, 1, None, Some(0), [], None))
  {
    BothWant();
    Go(Pair(Want, Want, 1, None, None, [], None), Thread(0), Pair(Held, Want, 1, Some(0), None, [], None));
    Go(Pair(Held, Want, 1, Some(0), None, [], None), Thread(0), Pair(InUv, Want, 1, None, Some(0), [], None));
  }

  // call 1 queues its runner and lets go of RunMtx,
  lemma SecondCallQueues()
    ensures Reachable(Pair(InUv, Snap, 1, None, Some(0), [1], None))
  {
    FirstCallRuns();
    Go(Pair(InUv, Want, 1, None, Some(0), [], None), Thread(1), Pair(InUv, Held, 1, Some(1), Some(0), [], None));
    Go(Pair(InUv, Held, 1, Some(1), Some(0), [], None), Thread(1), Pair(InUv, Snap, 1, None, Some(0), [1], None));
  }

  // and uv_run returns.
  lemma QueuedBehind()
    ensures Reachable(Pair(Back, Snap, 1, None, Some(0), [1], None))
  {
    SecondCallQueues();
    Go(Pair(InUv, Snap, 1, None, Some(0), [1], None), Thread(0), Pair(Back, Snap, 1, None, Some(0), [1], None));
  }

  // Call 0 leaves the loop ...
  lemma LeftTheLoop()
    ensures Reachable(Pair(Waking, Snap, 1, Some(0), None, [1], None))
  {
    QueuedBehind();
    Go(Pair(Back, Snap, 1, None, Some(0), [1], None), Thread(0), Pair(Relocked, Snap, 1, Some(0), Some(0), [1], None));
    Go(Pair(Relocked, Snap, 1, Some(0), Some(0), [1], None), Thread(0), Pair(Waking, Snap, 1, Some(0), None, [1], None));
  }

  // ... and wakes call 1,
  lemma WokenBeforeSnapshot()
    ensures Reachable(Pair(Leaving, Snap, 2, Some(0), None, [], Some(1)))
  {
    LeftTheLoop();
    Go(Pair(Waking, Snap, 1, Some(0), None, [1], None), Thread(0), Pair(Bumping(1), Snap, 1, Some(0), None, [], None));
    Go(Pair(Bumping(1), Snap, 1, Some(0), None, [], None), Thread(0), Pair(Leaving, Snap, 2, Some(0), None, [], Some(1)));
  }

  // which takes its snapshot only now: it already counts the wakeup.
  lemma SnapshotTooLate()
    ensures Reachable(Pair(Done, Spin(2), 2, None, None, [], Some(1)))
  {
    WokenBeforeSnapshot();
    Go(Pair(Leaving, Snap, 2, Some(0), None, [], Some(1)), Thread(0), Pair(Done, Snap, 2, None, None, [], Some(1)));
    Go(Pair(Done, Snap, 2, None, None, [], Some(1)), Thread(1), Pair(Done, Spin(2), 2, None, None, [], Some(1)));
  }

  // So call 1 waits for ever although nobody runs the loop.
  lemma AWakeupIsLost()
    ensures exists s :: Reachable(s) && Stuck(s) && SleptThroughWakeup(s, 1)
  {
    SnapshotTooLate();
    var end := Pair(Done, Spin(2), 2, None, None, [], Some(1));
    assert !CanStep(end, 0) && !InLoop(end.calls[0]);
    assert !CanStep(end, 1) && !InLoop(end.calls[1]);
    assert forall t :: t in end.calls ==> t == 0 || t == 1;
    assert SleptThroughWakeup(end, 1);
  }

  // ---- an overstaying sync_wait ----------------------------------------------------

  // Call 0, a sync_wait.
  function Waiter(pc: Pc, awakenings: nat, acq: bool, early: bool, late: bool): Call {
    Call(Steal, pc, awakenings, acq, 1, early, late)
  }

  function Alone(waiter: Call, mutex: Option<Id>, owner: Option<Id>, stop: bool, userStop: bool): State {
    State(map[0 := waiter], mutex, owner.Some?, [], stop, owner, None, userStop)
  }

  lemma RunsTheLoop()
    ensures Reachable(Alone(Waiter(InUv, 1, true, false, false), None, Some(0), true, true))
  {
    InitialIsReachable();
    var start := Alone(Waiter(Test, 1, false, false, false), None, None, false, false);
    var want := Alone(Waiter(Want, 1, false, false, false), None, None, false, false);
    var held := Alone(Waiter(Held, 1, false, false, false), Some(0), None, false, false);
    var inUv := Alone(Waiter(InUv, 1, true, false, false), None, Some(0), false, false);
    Go(Initial, Spawn(0, Steal, false), start);
    Go(start, Thread(0), want);
    Go(want, Thread(0), held);
    Go(held, Thread(0), inUv);
    Go(inUv, UserFinish, Alone(Waiter(InUv, 1, true, false, false), None, Some(0), true, true));
  }

  // The user's `finish` makes uv_run return to a sync_wait that has no result yet;
  lemma ReturnsToNoResult()
    ensures Reachable(Alone(Waiter(Waking, 1, true, true, false), Some(0), None, false, true))
  {
    RunsTheLoop();
    var back := Alone(Waiter(Back, 1, true, true, false), None, Some(0), false, true);
    var relocked := Alone(Waiter(Relocked, 1, true, true, false), Some(0), Some(0), false, true);
    Go(Alone(Waiter(InUv, 1, true, false, false), None, Some(0), true, true), Thread(0), back);
    Go(back, Thread(0), relocked);
    Go(relocked, Thread(0), Alone(Waiter(Waking, 1, true, true, false), Some(0), None, false, true));
  }

  // it goes round its loop and wants RunMtx again.
  lemma ReturnedEarly()
    ensures Reachable(Alone(Waiter(Want, 1, true, true, false), None, None, false, true))
  {
    ReturnsToNoResult();
    var leaving := Alone(Waiter(Leaving, 1, true, true, false), Some(0), None, false, true);
    var test := Alone(Waiter(Test, 1, true, true, false), None, None, false, true);
    Go(Alone(Waiter(Waking, 1, true, true, false), Some(0), None, false, true), Thread(0), leaving);
    Go(leaving, Thread(0), test);
    Go(test, Thread(0), Alone(Waiter(Want, 1, true, true, false), None, None, false, true));
  }

  // The sync_wait as call 0 and a run as call 1.
  function Shared(waiter: Call, pc1: Pc, mutex: Option<Id>, owner: Option<Id>, stop: bool): State {
    State(map[0 := waiter, 1 := Call(Run, pc1, 1, false, 1, false, false)],
          mutex, owner.Some?, [], stop, owner, None, true)
  }

  // The run gets there first,
  lemma AnotherRuns()
    ensures Reachable(Shared(Waiter(Want, 1, true, true, false), InUv, None, Some(1), false))
  {
    ReturnedEarly();
    var w := Waiter(Want, 1, true, true, false);
    Go(Alone(w, None, None, false, true), Spawn(1, Run, false), Shared(w, Want, None, None, false));
    Go(Shared(w, Want, None, None, false), Thread(1), Shared(w, Held, Some(1), None, false));
    Go(Shared(w, Held, Some(1), None, false), Thread(1), Shared(w, InUv, None, Some(1), false));
  }

  // its uv_run completes the sync_wait's sender ...
  lemma FinishedByAnother()
    ensures Reachable(Shared(Waiter(Want, 0, true, true, false), InUv, None, Some(1), true))
  {
    AnotherRuns();
    var w := Waiter(Want, 1, true, true, false);
    Go(Shared(w, InUv, None, Some(1), false), Complete(1, 0), Shared(w, Finishing(0), None, Some(1), true));
    Go(Shared(w, Finishing(0), None, Some(1), true), Thread(1),
       Shared(Waiter(Want, 0, true, true, false), InUv, None, Some(1), true));
  }

  // ... and returns, which uses up the stop flag.
  lemma StopFlagIsUsedUp()
    ensures Reachable(Shared(Waiter(Want, 0, true, true, false), Relocked, Some(1), Some(1), false))
  {
    FinishedByAnother();
    var w := Waiter(Want, 0, true, true, false);
    Go(Shared(w, InUv, None, Some(1), true), Thread(1), Shared(w, Back, None, Some(1), false));
    Go(Shared(w, Back, None, Some(1), false), Thread(1), Shared(w, Relocked, Some(1), Some(1), false));
  }

  lemma LoopIsFreeAgain()
    ensures Reachable(Shared(Waiter(Want, 0, true, true, false), Done, None, None, false))
  {
    StopFlagIsUsedUp();
    var w := Waiter(Want, 0, true, true, false);
    Go(Shared(w, Relocked, Some(1), Some(1), false), Thread(1), Shared(w, Waking, Some(1), None, false));
    Go(Shared(w, Waking, Some(1), None, false), Thread(1), Shared(w, Leaving, Some(1), None, false));
    Go(Shared(w, Leaving, Some(1), None, false), Thread(1), Shared(w, Done, None, None, false));
  }

  // The sync_wait still counts as acquired, so it enters uv_run and nothing makes it return.
  lemma ASyncWaitOverstays()
    ensures exists s :: Reachable(s) && Overstays(s, 0)
  {
    LoopIsFreeAgain();
    var held := Shared(Waiter(Held, 0, true, true, false), Done, Some(0), None, false);
    var inUv := Shared(Waiter(InUv, 0, true, true, true), Done, None, Some(0), false);
    Go(Shared(Waiter(Want, 0, true, true, false), Done, None, None, false), Thread(0), held);
    Go(held, Thread(0), inUv);
    assert Overstays(inUv, 0);
  }
}

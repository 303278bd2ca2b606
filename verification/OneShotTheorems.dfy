/**
  What the race guarantees for every interleaving of the stop callback, any number of
  events, the drained stop operation and the close callback.
*/
module OneShotTheorems {
  import opened Options
  import opened OneShot

  // With its initialisation behind it an operation completes at most once, closes its
  // handle or stops its source at most once, and pushes its stop operation at most once.
  lemma AtMostOnce(s: State)
    requires Reachable(s)
    ensures s.initOk ==> |s.done| <= 1
    ensures s.closes + s.halts <= 1 && s.pushes <= 1
    ensures s.linked ==> s.pushes == 1
  {
    ReachableInv(s);
  }

  // The signal agrees with the winner of the latch: stopped and value are never confused,
  // and a read, receive or accept reports the very event that won.
  lemma WinnerDecides(s: State)
    requires Reachable(s) && s.startOk && Completed(s)
    ensures s.winner == Stop || (s.winner == Event && s.won.Some? && s.won.value != Stopped)
    ensures s.done[Excess(s)] ==
              if s.winner == Stop then Stopped else if s.kind.Timed? then Value(0) else s.won.value
  {
    ReachableInv(s);
  }

  // The close callback of a timer or signal asks whether the stop callback is still there;
  // while the handle is closing that is so exactly when the stop won.
  lemma CloseCallbackKnowsTheWinner(s: State)
    requires Reachable(s) && s.source.Closing?
    ensures s.latch.engaged <==> s.winner == Stop
  {
    ReachableInv(s);
  }

  // After it completed nothing refers to the operation any more: its stop operation is in
  // no list, no stop callback of it runs, its source is silent, and all that can still
  // happen anywhere is a request to stop. An accept may yet be inside Setup.
  lemma CompletedIsUnreferenced(s: State, a: Action)
    requires Reachable(s) && Completed(s) && Enabled(s, a)
    ensures !s.linked && !s.cb.MustPush? && !s.cb.MustFire? && !s.source.Active? && !s.source.Closing?
    ensures !s.kind.Accept? ==> !Running(s.cb) && s.lp.Ready? && !s.latch.engaged && a.RequestStop?
    ensures Next(s, a).done == s.done
  {
    ReachableInv(s);
  }

  // ---- exactly once ------------------------------------------------------------

  // Everything that happens by itself; what is left are requests, events and the start.
  predicate Internal(a: Action) { !a.Begin? && !a.RequestStop? && !a.EventFires? }

  ghost predicate Quiet(s: State) {
    forall a :: Internal(a) ==> !Enabled(s, a)
  }

  // The start failed, or somebody won the latch.
  predicate Decided(s: State) { !s.startOk || s.winner != Nobody }

  function CbRank(cb: Cb): nat {
    match cb
    case Entered => 3
    case MustPush => 9
    case MustFire => 1
    case _ => 0
  }

  function LpRank(lp: Lp): nat {
    match lp
    case Registering => 13
    case Inline | Engaging => 2
    case EventReset(_) => 4
    case DrainReset | CloseReset => 1
    case _ => 0
  }

  // Steps still to come; the stop operation in the list and the closing handle count too.
  function Rank(s: State): nat {
    CbRank(s.cb) + LpRank(s.lp) + (if s.linked then 6 else 0) + (if s.source.Closing? then 3 else 0)
    + if s.cb.Entered? && !s.latch.used then 7 else 0
  }

  // Internal steps come to an end ...
  lemma InternalStepsEnd(s: State, a: Action)
    requires Reachable(s) && Internal(a) && Enabled(s, a)
    ensures Rank(Next(s, a)) < Rank(s)
  {
    ReachableInv(s);
    if a.FinishReset? {
      ResetLowersRank(s);
    } else if a.Drain? || a.CloseDone? {
      ReleaseLowersRank(s, a);
    }
  }

  lemma ResetLowersRank(s: State)
    requires Inv(s) && Enabled(s, FinishReset)
    ensures Rank(Next(s, FinishReset)) < Rank(s)
  {
  }

  lemma ReleaseLowersRank(s: State, a: Action)
    requires Inv(s) && (a.Drain? || a.CloseDone?) && Enabled(s, a)
    ensures Rank(Next(s, a)) < Rank(s)
  {
  }

  // ... and when they have, an operation that was decided has completed: exactly once if
  // and only if its initialisation had succeeded, otherwise twice. Its handle was closed,
  // or its source stopped, exactly once if and only if the source was ever started.
  lemma ExactlyOnceIffInitialised(s: State)
    requires Reachable(s) && !s.lp.NotStarted? && Decided(s) && Quiet(s)
    ensures |s.done| == if s.initOk then 1 else 2
    ensures s.closes == (if s.kind.Timed? && s.startOk then 1 else 0)
    ensures s.halts == (if !s.kind.Timed? && s.startOk then 1 else 0)
  {
    ReachableInv(s);
    assert !Enabled(s, Register) && !Enabled(s, MarkEngaged) && !Enabled(s, Callback);
    assert !Enabled(s, Drain) && !Enabled(s, CloseDone) && !Enabled(s, FinishReset);
  }

  // An event that finds the latch free decides, and what it says is what won.
  lemma EventDecides(s: State, sig: Signal)
    requires Reachable(s) && Enabled(s, EventFires(sig))
    ensures var s' := Next(s, EventFires(sig));
            && Decided(s')
            && (s.winner == Nobody ==> s'.winner == Event && s'.won == Some(sig))
            && (s.winner != Nobody ==> s' == s)
  {
    ReachableInv(s);
  }

  // The start tells of both its failures, and nothing else; signals are never taken back.
  lemma StartReports(s: State, initErr: int, startErr: int)
    requires Reachable(s) && Enabled(s, Begin(initErr, startErr))
    ensures Next(s, Begin(initErr, startErr)).done ==
              (if initErr == 0 then [] else [Error(initErr)]) + (if startErr == 0 then [] else [Error(startErr)])
  {
    ReachableInv(s);
  }

  lemma SignalsStay(s: State, a: Action)
    requires Enabled(s, a)
    ensures s.done <= Next(s, a).done
  {
    match a
    case Begin(initErr, startErr) => assert Next(s, a) == BeginStep(s, initErr, startErr);
    case Callback => assert Next(s, a) == CallbackStep(s);
    case EventFires(sig) => assert Next(s, a) == EventStep(s, sig);
    case Drain => assert Next(s, a) == DrainStep(s);
    case CloseDone => assert Next(s, a) == CloseDoneStep(s);
    case FinishReset => assert Next(s, a) == FinishResetStep(s);
    case _ =>
  }

  // A stop request alone decides a started operation, however early it comes.
  lemma StopRequestDecides(s: State)
    requires Reachable(s) && !s.lp.NotStarted? && s.requested && Quiet(s)
    ensures Decided(s)
  {
    ReachableInv(s);
    assert !Enabled(s, Register) && !Enabled(s, MarkEngaged) && !Enabled(s, Callback);
  }

  // ---- an initialisation that fails --------------------------------------------

  // A timer whose initialisation fails reports that, goes on, and completes again when its
  // start fails too.
  lemma FailedInitialisationCompletesTwice()
    ensures exists s :: Reachable(s) && s.kind.Timed? && s.done == [Error(-12), Error(-22)]
  {
    var s := Initial(Timed);
    assert Exec(Timed, []) == Some(s);
    Extend(s, Begin(-12, -22));
  }
}

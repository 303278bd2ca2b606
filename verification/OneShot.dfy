/**
  The race between an event and a stop request that every cancellable operation of the
  loop runs: timers and signals, which close their handle before they complete, and
  stream reads, datagram receives and accepts, which complete in the callback itself.
*/
module StopOperation {

  // The two fields of TStopOperation that change: the one-shot latch and whether the
  // stop callback is constructed.
  datatype Latch = Latch(used: bool, engaged: bool)

  const FreshLatch := Latch(false, false)

  function Take(l: Latch): Latch { l.(used := true) }

  function Engage(l: Latch): Latch { l.(engaged := true) }

  function Disengage(l: Latch): Latch { l.(engaged := false) }

  // One stop operation, as seen when no other thread is in the middle of its callback.
  class StopOperation {
    var requested: bool     // a stop was requested from its token
    var used: bool
    var engaged: bool
    var linked: bool        // in the list of scheduled operations

    constructor ()
      ensures View() == FreshLatch && !requested && !linked
    {
      requested, used, engaged, linked := false, false, false, false;
    }

    function View(): Latch
      reads this
    {
      Latch(used, engaged)
    }

    // The stop callback: whoever takes the latch schedules the stop operation.
    method Invoke()
      modifies this`used, this`linked
      ensures used && linked == (old(linked) || !old(used))
    {
      if !used {
        used := true;
        linked := true;
      }
    }

    // Constructs the stop callback, which runs at once if the stop was requested before.
    method Setup()
      modifies this
      ensures requested == old(requested) && engaged
      ensures used == (old(used) || requested) && linked == (old(linked) || (requested && !old(used)))
    {
      if requested {
        Invoke();
      }
      engaged := true;
    }

    // The first request runs the stop callback if there is one.
    method RequestStop()
      modifies this
      ensures requested && engaged == old(engaged)
      ensures var runs := old(!requested && engaged);
              used == (old(used) || runs) && linked == (old(linked) || (runs && !old(used)))
    {
      var first := !requested;
      requested := true;
      if first && engaged {
        Invoke();
      }
    }

    // Answers whether the race was lost. Only the winner drops the stop callback.
    method Reset() returns (lost: bool)
      modifies this`used, this`engaged
      ensures lost == old(used)
      ensures View() == if lost then old(View()) else Disengage(Take(old(View())))
    {
      if !used {
        used := true;
        engaged := false;
        return false;
      }
      return true;
    }

    // Answers whether there was no stop callback to drop.
    method ResetUnsafe() returns (none: bool)
      modifies this`engaged
      ensures none == !old(engaged)
      ensures View() == Disengage(old(View()))
    {
      if engaged {
        engaged := false;
        return false;
      }
      return true;
    }
  }
}

module OneShot {
  import opened Options
  import opened StopOperation

  datatype Signal = Value(n: int) | Error(code: int) | Stopped

  // Timers and signals close their handle and complete in the close callback; reads,
  // receives and accepts complete at once. An accept can also meet its event before its
  // stop callback is set up.
  datatype Kind = Timed | Read | Accept

  datatype Source = Inactive | Active | Halted | Closing | Closed

  // The stop callback, run by whoever requests the stop: on another thread, or inside
  // Setup when the stop came first.
  datatype Cb =
    | Unregistered
    | Registered
    | Entered          // running, about to test and set the latch
    | MustPush         // won; about to push the stop operation on the loop's list
    | MustFire         // pushed, about to send the async wakeup
    | Left             // returned
    | Gone             // destroyed

  // The loop thread, as far as it works on this operation. Destroying the stop callback
  // waits until it has returned.
  datatype Lp =
    | NotStarted
    | Registering              // in Setup, about to construct the stop callback
    | Inline                   // the constructor is running the callback
    | Engaging                 // constructed, about to mark it engaged
    | Ready
    | EventReset(sig: Signal)  // the event won the latch and destroys the stop callback
    | DrainReset               // the stop operation was applied and does the same
    | CloseReset               // so does the close callback

  datatype Winner = Nobody | Event | Stop

  // `linked`: the stop operation is in the loop's list or in the unapplied rest of a batch.
  // History: `winner`, the signal of the event that won, whether initialising and starting
  // the source succeeded, the signals sent to the receiver, and how often the handle was
  // closed, the source stopped and the stop operation pushed.
  datatype State = State(kind: Kind, latch: Latch, requested: bool, cb: Cb, lp: Lp, linked: bool, source: Source,
                         winner: Winner, won: Option<Signal>, initOk: bool, startOk: bool,
                         done: seq<Signal>, closes: nat, halts: nat, pushes: nat)

  function Initial(kind: Kind): State {
    State(kind, FreshLatch, false, Unregistered, NotStarted, false, Inactive, Nobody, None, true, true, [], 0, 0, 0)
  }

  datatype Action =
    | Begin(initErr: int, startErr: int)   // 0 is success
    | RequestStop
    | Register
    | MarkEngaged
    | Callback                  // one step of the stop callback
    | EventFires(sig: Signal)   // the loop delivers an event
    | Drain                     // the loop applies the stop operation
    | CloseDone                 // the loop calls the close callback
    | FinishReset               // the stop callback is destroyed

  // ---- steps ---------------------------------------------------------------

  predicate Running(cb: Cb) { cb.Entered? || cb.MustPush? || cb.MustFire? }

  predicate Resetting(lp: Lp) { lp.EventReset? || lp.DrainReset? || lp.CloseReset? }

  predicate Enabled(s: State, a: Action) {
    match a
    case Begin(initErr, _) => s.lp.NotStarted? && (s.kind.Timed? || initErr == 0)
    case RequestStop => !s.requested
    case Register => s.lp.Registering?
    case MarkEngaged => s.lp.Engaging? || (s.lp.Inline? && s.cb.Left?)
    case Callback => Running(s.cb)
    case EventFires(sig) =>
      s.source.Active? && sig != Stopped && (s.lp.Ready? || (s.kind.Accept? && s.lp.Registering?))
    case Drain => s.linked && s.lp.Ready?
    case CloseDone => s.source.Closing? && s.lp.Ready?
    case FinishReset => Resetting(s.lp) && !Running(s.cb)
  }

  // An error of the initialisation is reported, and then the code goes on all the same.
  function BeginStep(s: State, initErr: int, startErr: int): State {
    var s0 := s.(initOk := initErr == 0, startOk := startErr == 0,
                 done := if initErr == 0 then s.done else s.done + [Error(initErr)]);
    if startErr != 0 then s0.(done := s0.done + [Error(startErr)], lp := Ready)
    else s0.(source := Active, lp := Registering)
  }

  function CallbackStep(s: State): State {
    match s.cb
    case Entered =>
      if s.latch.used then s.(cb := Left) else s.(latch := Take(s.latch), winner := Stop, cb := MustPush)
    case MustPush => s.(linked := true, pushes := s.pushes + 1, cb := MustFire)
    case MustFire => s.(cb := Left)
    case _ => s
  }

  // Before Setup there is no stop callback, so nothing has to be waited for.
  function EventStep(s: State, sig: Signal): State {
    if s.latch.used then s
    else
      var s0 := s.(latch := Take(s.latch), winner := Event, won := Some(sig));
      if s.lp.Registering? then Halt(s0, sig) else s0.(lp := EventReset(sig))
  }

  function Close(s: State): State { s.(source := Closing, closes := s.closes + 1, lp := Ready) }

  function Halt(s: State, sig: Signal): State {
    s.(source := Halted, halts := s.halts + 1, done := s.done + [sig])
  }

  function DrainStep(s: State): State {
    var s0 := s.(linked := false);
    if s.kind.Timed? then Close(s0)
    else if s.latch.engaged then s0.(lp := DrainReset)
    else Halt(s0, Stopped)
  }

  // The close callback tells the outcome from whether the stop callback is still there.
  function CloseDoneStep(s: State): State {
    var s0 := s.(source := Closed);
    if s.latch.engaged then s0.(lp := CloseReset) else s0.(done := s.done + [Value(0)])
  }

  function FinishResetStep(s: State): State
    requires Resetting(s.lp)
  {
    var s0 := s.(latch := Disengage(s.latch), cb := Gone, lp := Ready);
    match s.lp
    case EventReset(sig) => if s.kind.Timed? then Close(s0) else Halt(s0, sig)
    case DrainReset => Halt(s0, Stopped)
    case CloseReset => s0.(done := s.done + [Stopped])
  }

  function Next(s: State, a: Action): State
    requires Enabled(s, a)
  {
    match a
    case Begin(initErr, startErr) => BeginStep(s, initErr, startErr)
    case RequestStop => s.(requested := true, cb := if s.cb.Registered? then Entered else s.cb)
    case Register => if s.requested then s.(cb := Entered, lp := Inline) else s.(cb := Registered, lp := Engaging)
    case MarkEngaged => s.(latch := Engage(s.latch), lp := Ready)
    case Callback => CallbackStep(s)
    case EventFires(sig) => EventStep(s, sig)
    case Drain => DrainStep(s)
    case CloseDone => CloseDoneStep(s)
    case FinishReset => FinishResetStep(s)
  }

  function Exec(kind: Kind, run: seq<Action>): Option<State> {
    if run == [] then Some(Initial(kind))
    else
      var before := Exec(kind, run[..|run| - 1]);
      var a := run[|run| - 1];
      if before.Some? && Enabled(before.value, a) then Some(Next(before.value, a)) else None
  }

  ghost predicate Reachable(s: State) {
    exists run :: Exec(s.kind, run) == Some(s)
  }

  // ---- the invariant -----------------------------------------------------------

  // Signals sent by a failed initialisation.
  function Excess(s: State): nat { if s.initOk then 0 else 1 }

  predicate Completed(s: State) { |s.done| > Excess(s) }

  predicate Untouched(s: State) { s.closes == 0 && s.halts == 0 && |s.done| == Excess(s) }

  predicate InSetup(lp: Lp) { lp.Registering? || lp.Inline? || lp.Engaging? }

  // The latch, the stop callback and the pushes fit together.
  predicate LatchOk(s: State) {
    && (s.latch.used <==> s.winner != Nobody)
    && (s.cb.MustPush? || s.cb.MustFire? ==> s.winner == Stop)
    && (s.winner == Stop ==> s.cb.MustPush? || s.cb.MustFire? || s.cb.Left? || s.cb.Gone?)
    && (s.winner == Nobody ==> !s.cb.Left? && !s.cb.Gone?)
    && s.pushes == (if s.winner == Stop && !s.cb.MustPush? then 1 else 0)
    && (s.linked ==> s.pushes == 1)
    && (s.cb.Unregistered? <==> s.lp.NotStarted? || s.lp.Registering? || !s.startOk)
    && (s.lp.Inline? ==> s.cb.Entered? || s.cb.MustPush? || s.cb.MustFire? || s.cb.Left?)
    && (s.lp.Inline? || Running(s.cb) || s.cb.Left? ==> s.requested)
    && (s.lp.Ready? && s.cb.Registered? ==> s.latch.engaged)
    && (s.lp.NotStarted? || InSetup(s.lp) ==> !s.latch.engaged && !s.cb.Gone?)
    && (s.cb.Registered? ==> !s.requested)
    && (s.latch.engaged ==> !s.cb.Unregistered? && !s.cb.Gone?)
  }

  predicate SourceOk(s: State) {
    && (!s.kind.Timed? ==> s.initOk && s.closes == 0 && !s.source.Closing? && !s.source.Closed? && !s.lp.CloseReset?)
    && (s.kind.Timed? ==> s.halts == 0 && !s.source.Halted? && !s.lp.DrainReset?)
  }

  // What has happened so far, by who won the latch.
  predicate OutcomeOk(s: State) {
    match s.winner
    case Nobody =>
      Untouched(s) && s.source.Active? && !s.linked && !Resetting(s.lp) && (s.lp.Ready? ==> s.latch.engaged)
    case Event =>
      && !s.linked && !s.lp.DrainReset? && !s.lp.CloseReset? && s.won.Some? && s.won.value != Stopped
      && (s.lp.EventReset? ==>
            && Untouched(s) && s.source.Active? && s.latch.engaged && s.won == Some(s.lp.sig))
      && (!s.lp.EventReset? ==>
            && !s.source.Inactive? && !s.source.Active?
            && (s.source.Closing? ==> s.closes == 1 && |s.done| == Excess(s) && !s.latch.engaged)
            && (s.source.Closed? ==> s.closes == 1 && |s.done| == Excess(s) + 1)
            && (s.source.Halted? ==> s.halts == 1 && |s.done| == Excess(s) + 1)
            && (Completed(s) ==> s.done[Excess(s)] == if s.kind.Timed? then Value(0) else s.won.value)
            && (InSetup(s.lp) ==> s.kind.Accept?)
            && (s.kind.Accept? || (!s.latch.engaged && s.cb.Gone?)))
    case Stop =>
      && !s.lp.EventReset?
      && (s.cb.MustPush? || s.linked ==>
            && Untouched(s) && s.source.Active? && !Resetting(s.lp) && !s.lp.Registering? && (s.lp.Ready? ==> s.latch.engaged))
      && (!s.cb.MustPush? && !s.linked ==>
            && !InSetup(s.lp)
            && (s.source.Active? ==> s.lp.DrainReset? && Untouched(s) && s.latch.engaged)
            && (s.lp.DrainReset? ==> s.source.Active?)
            && (s.lp.CloseReset? ==> s.source.Closed?)
            && (s.source.Closing? ==> s.closes == 1 && |s.done| == Excess(s) && s.latch.engaged)
            && (s.source.Closed? ==>
                  && s.closes == 1 && (s.lp.CloseReset? <==> s.latch.engaged)
                  && |s.done| == Excess(s) + if s.lp.CloseReset? then 0 else 1)
            && (s.source.Halted? ==> s.halts == 1 && |s.done| == Excess(s) + 1 && !s.latch.engaged)
            && !s.source.Inactive?
            && (Completed(s) ==> s.done[Excess(s)] == Stopped && s.cb.Gone?))
  }

  predicate Inv(s: State) {
    && LatchOk(s) && SourceOk(s)
    && (s.initOk || (|s.done| > 0 && s.done[0].Error?))
    && (if s.lp.NotStarted? then Untouched(s) && s.initOk && s.startOk && s.winner == Nobody && s.source.Inactive? && s.cb.Unregistered?
        else if !s.startOk then
          && s.lp.Ready? && s.source.Inactive? && s.winner == Nobody && s.closes == s.halts == 0
          && |s.done| == Excess(s) + 1 && s.done[Excess(s)].Error? && !s.latch.engaged
        else OutcomeOk(s))
  }

  lemma StopperKeepsInv(s: State, a: Action)
    requires Inv(s) && Enabled(s, a) && (a.RequestStop? || a.Callback?)
    ensures Inv(Next(s, a)) && Next(s, a).kind == s.kind
  {
  }

  lemma SetupKeepsInv(s: State, a: Action)
    requires Inv(s) && Enabled(s, a) && (a.Begin? || a.Register? || a.MarkEngaged?)
    ensures Inv(Next(s, a)) && Next(s, a).kind == s.kind
  {
  }

  lemma LoopKeepsInv(s: State, a: Action)
    requires Inv(s) && Enabled(s, a) && (a.EventFires? || a.Drain? || a.CloseDone?)
    ensures Inv(Next(s, a)) && Next(s, a).kind == s.kind
  {
  }

  lemma ResetKeepsInv(s: State, a: Action)
    requires Inv(s) && Enabled(s, a) && (a.FinishReset?)
    ensures Inv(Next(s, a)) && Next(s, a).kind == s.kind
  {
  }

  lemma NextKeepsInv(s: State, a: Action)
    requires Inv(s) && Enabled(s, a)
    ensures Inv(Next(s, a)) && Next(s, a).kind == s.kind
  {
    match a
    case RequestStop | Callback => StopperKeepsInv(s, a);
    case Begin(_, _) | Register | MarkEngaged => SetupKeepsInv(s, a);
    case EventFires(_) | Drain | CloseDone => LoopKeepsInv(s, a);
    case FinishReset => ResetKeepsInv(s, a);
  }

  lemma {:induction false} ExecKeepsInv(kind: Kind, run: seq<Action>)
    requires Exec(kind, run).Some?
    ensures Inv(Exec(kind, run).value) && Exec(kind, run).value.kind == kind
  {
    if run != [] {
      ExecKeepsInv(kind, run[..|run| - 1]);
      NextKeepsInv(Exec(kind, run[..|run| - 1]).value, run[|run| - 1]);
    }
  }

  lemma ReachableInv(s: State)
    requires Reachable(s)
    ensures Inv(s)
  {
    var run :| Exec(s.kind, run) == Some(s);
    ExecKeepsInv(s.kind, run);
  }

  // Only an event makes an event win.
  lemma RaceKeepsWinner(s: State, b: Action)
    requires Inv(s) && Enabled(s, b) && !b.EventFires?
    ensures var s' := Next(s, b);
            && s'.won == s.won && (s'.winner == s.winner || (s.winner == Nobody && s'.winner == Stop))
  {
    match b
    case Drain => assert Next(s, b) == DrainStep(s);
    case CloseDone => assert Next(s, b) == CloseDoneStep(s);
    case FinishReset => assert Next(s, b) == FinishResetStep(s);
    case Callback => assert Next(s, b) == CallbackStep(s);
    case _ =>
  }

  // ---- uninterrupted sequences ---------------------------------------------------

  lemma Extend(s: State, a: Action)
    requires Reachable(s) && Enabled(s, a)
    ensures Reachable(Next(s, a)) && Next(s, a).kind == s.kind
  {
    var run :| Exec(s.kind, run) == Some(s);
    ReachableInv(s);
    NextKeepsInv(s, a);
    assert (run + [a])[..|run|] == run;
    assert Exec(s.kind, run + [a]) == Some(Next(s, a));
  }

  function StepsLeft(cb: Cb): nat {
    match cb
    case Entered => 3
    case MustPush => 2
    case MustFire => 1
    case _ => 0
  }

  // The stop callback from its entry to its return.
  function CallbackAtOnce(s: State): State
    decreases StepsLeft(s.cb)
  {
    if Running(s.cb) then CallbackAtOnce(CallbackStep(s)) else s
  }

  lemma CallbackMoves(s: State)
    requires Running(s.cb)
    ensures Enabled(s, Callback) && Next(s, Callback) == CallbackStep(s)
    ensures var s' := CallbackStep(s); s'.lp == s.lp && StepsLeft(s'.cb) < StepsLeft(s.cb) && (Running(s'.cb) || s'.cb == Left)
  {
  }

  lemma {:induction false} CallbackAtOnceIsARun(s: State)
    requires Reachable(s)
    ensures Reachable(CallbackAtOnce(s)) && CallbackAtOnce(s).lp == s.lp
    ensures CallbackAtOnce(s).cb == if Running(s.cb) then Left else s.cb
    decreases StepsLeft(s.cb)
  {
    if Running(s.cb) {
      CallbackMoves(s);
      Extend(s, Callback);
      CallbackAtOnceIsARun(CallbackStep(s));
    }
  }

  // Run at once, the stop callback takes a free latch and links the stop operation.
  lemma CallbackEffect(s: State)
    requires s.cb.Entered?
    ensures CallbackAtOnce(s) ==
              if s.latch.used then s.(cb := Left)
              else s.(latch := Take(s.latch), winner := Stop, linked := true, pushes := s.pushes + 1, cb := Left)
  {
    var s1 := CallbackStep(s);
    if !s.latch.used {
      var s2 := CallbackStep(s1);
      assert CallbackAtOnce(s2) == CallbackStep(s2);
    }
  }

  // Setup from its start to its end, with the stop callback inside it if it runs there.
  function SetupAtOnce(s: State): State
    requires s.lp.Registering?
  {
    CallbackAtOnce(Next(s, Register)).(latch := Engage(CallbackAtOnce(Next(s, Register)).latch), lp := Ready)
  }

  lemma SetupAtOnceIsARun(s: State)
    requires Reachable(s) && s.lp.Registering?
    ensures Reachable(SetupAtOnce(s)) && !Running(SetupAtOnce(s).cb)
  {
    Extend(s, Register);
    CallbackAtOnceIsARun(Next(s, Register));
    var s2 := CallbackAtOnce(Next(s, Register));
    assert Enabled(s2, MarkEngaged);
    Extend(s2, MarkEngaged);
  }

  // A request that no other thread interleaves with.
  function RequestAtOnce(s: State): State {
    if s.requested then s else CallbackAtOnce(Next(s, RequestStop))
  }

  lemma RequestAtOnceIsARun(s: State)
    requires Reachable(s) && !Running(s.cb)
    ensures Reachable(RequestAtOnce(s)) && !Running(RequestAtOnce(s).cb)
  {
    if !s.requested {
      Extend(s, RequestStop);
      CallbackAtOnceIsARun(Next(s, RequestStop));
    }
  }

  // An event, and the wait for the stop callback if the event won.
  function EventAtOnce(s: State, sig: Signal): State {
    var s1 := EventStep(s, sig);
    if s1.lp.EventReset? then FinishResetStep(s1) else s1
  }

  lemma EventAtOnceIsARun(s: State, sig: Signal)
    requires Reachable(s) && !Running(s.cb) && s.lp.Ready? && Enabled(s, EventFires(sig))
    ensures Reachable(EventAtOnce(s, sig)) && EventAtOnce(s, sig).lp.Ready? && !Running(EventAtOnce(s, sig).cb)
  {
    Extend(s, EventFires(sig));
    if EventStep(s, sig).lp.EventReset? {
      Extend(EventStep(s, sig), FinishReset);
    }
  }

  function DrainAtOnce(s: State): State {
    var s1 := DrainStep(s);
    if s1.lp.DrainReset? then FinishResetStep(s1) else s1
  }

  lemma DrainAtOnceIsARun(s: State)
    requires Reachable(s) && !Running(s.cb) && Enabled(s, Drain)
    ensures Reachable(DrainAtOnce(s)) && DrainAtOnce(s).lp.Ready? && !Running(DrainAtOnce(s).cb)
  {
    Extend(s, Drain);
    if DrainStep(s).lp.DrainReset? {
      Extend(DrainStep(s), FinishReset);
    }
  }

  function CloseAtOnce(s: State): State {
    var s1 := CloseDoneStep(s);
    if s1.lp.CloseReset? then FinishResetStep(s1) else s1
  }

  lemma CloseAtOnceIsARun(s: State)
    requires Reachable(s) && !Running(s.cb) && Enabled(s, CloseDone)
    ensures Reachable(CloseAtOnce(s)) && CloseAtOnce(s).lp.Ready? && !Running(CloseAtOnce(s).cb)
  {
    Extend(s, CloseDone);
    if CloseDoneStep(s).lp.CloseReset? {
      Extend(CloseDoneStep(s), FinishReset);
    }
  }
}

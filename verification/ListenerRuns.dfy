/**
  Uninterrupted pieces of the listener's runs: what each of its callbacks, and the start
  of an accept, does when no other thread comes in between.
*/
module ListenerRuns {
  import opened Options
  import opened ListModel
  import opened Listener
  import opened StopOperation
  import O = OneShot

  ghost predicate Arises(pending: int, s: State) {
    exists run :: Exec(pending, run) == Some(s)
  }

  function With(s: State, id: Id, op: O.State): State {
    s.(accepts := s.accepts[id := op])
  }

  lemma Extends(pending: int, s: State, a: Action)
    requires Arises(pending, s) && Enabled(s, a)
    ensures Arises(pending, Next(s, a))
  {
    var run :| Exec(pending, run) == Some(s);
    assert (run + [a])[..|run|] == run;
    assert Exec(pending, run + [a]) == Some(Next(s, a));
  }

  // ---- the races, whatever the counter started at ----------------------------------

  ghost predicate RaceOk(op: O.State) {
    O.Reachable(op) && op.kind.Accept? && op.startOk && !op.lp.NotStarted?
  }

  ghost predicate RacesOk(s: State) {
    forall id {:trigger s.accepts[id]} :: id in s.accepts ==> RaceOk(s.accepts[id])
  }

  lemma EventKeepsRace(op: O.State, sig: O.Signal)
    requires RaceOk(op) && sig != O.Stopped && (op.lp.Ready? || op.lp.Registering?)
    ensures RaceOk(O.EventStep(op, sig))
  {
    O.ReachableInv(op);
    if !op.latch.used {
      EventKeepsAccept(op, sig);
    }
  }

  lemma StepKeepsRace(op: O.State, b: O.Action)
    requires RaceOk(op) && O.Enabled(op, b) && !b.Begin?
    ensures RaceOk(O.Next(op, b))
  {
    StaysStarted(op, b);
    O.Extend(op, b);
  }

  lemma StaysStarted(op: O.State, b: O.Action)
    requires O.Enabled(op, b) && !b.Begin? && !op.lp.NotStarted?
    ensures !O.Next(op, b).lp.NotStarted? && O.Next(op, b).startOk == op.startOk
  {
    match b
    case EventFires(sig) => assert O.Next(op, b) == O.EventStep(op, sig);
    case Drain => assert O.Next(op, b) == O.DrainStep(op);
    case CloseDone => assert O.Next(op, b) == O.CloseDoneStep(op);
    case FinishReset => assert O.Next(op, b) == O.FinishResetStep(op);
    case _ =>
  }

  lemma NextKeepsRaces(s: State, a: Action)
    requires RacesOk(s) && Enabled(s, a)
    ensures RacesOk(Next(s, a))
  {
    match a
    case Arrive(status, acceptErr) =>
      if status == 0 && s.list != [] && s.list[0] in s.accepts {
        EventKeepsRace(s.accepts[s.list[0]], AcceptSignal(acceptErr));
      }
    case Register(id, listenErr, acceptErr) =>
      BegunIsReachable();
      EventKeepsRace(O.BeginStep(O.Initial(O.Accept), 0, 0), AcceptSignal(acceptErr));
      EventKeepsRace(O.BeginStep(O.Initial(O.Accept), 0, 0), O.Error(listenErr));
    case Race(id, b) => StepKeepsRace(s.accepts[id], b);
  }

  lemma {:induction false} ExecKeepsRaces(pending: int, run: seq<Action>)
    requires Exec(pending, run).Some?
    ensures RacesOk(Exec(pending, run).value)
  {
    if run != [] {
      ExecKeepsRaces(pending, run[..|run| - 1]);
      NextKeepsRaces(Exec(pending, run[..|run| - 1]).value, run[|run| - 1]);
    }
  }

  lemma ArisingRaces(pending: int, s: State)
    requires Arises(pending, s)
    ensures RacesOk(s)
  {
    var run :| Exec(pending, run) == Some(s);
    ExecKeepsRaces(pending, run);
  }

  // ---- steps of one race -----------------------------------------------------------

  lemma RaceArises(pending: int, s: State, id: Id, b: O.Action)
    requires Arises(pending, s) && id in s.accepts && O.Enabled(s.accepts[id], b)
    requires !b.Begin? && !b.EventFires? && !b.Drain? && (ByAnyThread(b) || LoopFree(s, Some(id)))
    ensures Arises(pending, With(s, id, O.Next(s.accepts[id], b)))
  {
    Extends(pending, s, Race(id, b));
  }

  // The same for a race that has already moved on to `op`.
  lemma NextRaceArises(pending: int, s: State, id: Id, op: O.State, b: O.Action)
    requires Arises(pending, With(s, id, op)) && O.Enabled(op, b)
    requires !b.Begin? && !b.EventFires? && !b.Drain? && (ByAnyThread(b) || LoopFree(s, Some(id)))
    ensures Arises(pending, With(s, id, O.Next(op, b)))
  {
    RaceArises(pending, With(s, id, op), id, b);
    assert With(With(s, id, op), id, O.Next(op, b)) == With(s, id, O.Next(op, b));
  }

  lemma {:induction false} CallbackArises(pending: int, s: State, id: Id)
    requires Arises(pending, s) && id in s.accepts
    ensures Arises(pending, With(s, id, O.CallbackAtOnce(s.accepts[id])))
    decreases O.StepsLeft(s.accepts[id].cb)
  {
    var op := s.accepts[id];
    if O.Running(op.cb) {
      var s1 := With(s, id, O.CallbackStep(op));
      O.CallbackMoves(op);
      RaceArises(pending, s, id, O.Callback);
      CallbackArises(pending, s1, id);
      assert With(s1, id, O.CallbackAtOnce(s1.accepts[id])) == With(s, id, O.CallbackAtOnce(op));
    } else {
      assert s == With(s, id, O.CallbackAtOnce(op));
    }
  }

  lemma RequestArises(pending: int, s: State, id: Id)
    requires Arises(pending, s) && id in s.accepts
    ensures Arises(pending, With(s, id, O.RequestAtOnce(s.accepts[id])))
  {
    var op := s.accepts[id];
    if op.requested {
      assert s == With(s, id, O.RequestAtOnce(op));
    } else {
      var s1 := With(s, id, O.Next(op, O.RequestStop));
      RaceArises(pending, s, id, O.RequestStop);
      CallbackArises(pending, s1, id);
      assert With(s1, id, O.CallbackAtOnce(s1.accepts[id])) == With(s, id, O.RequestAtOnce(op));
    }
  }

  lemma ConstructArises(pending: int, s: State, id: Id)
    requires Arises(pending, s) && id in s.accepts && s.accepts[id].lp.Registering? && LoopFree(s, Some(id))
    ensures Arises(pending, With(s, id, O.CallbackAtOnce(O.Next(s.accepts[id], O.Register))))
  {
    var s1 := With(s, id, O.Next(s.accepts[id], O.Register));
    RaceArises(pending, s, id, O.Register);
    CallbackArises(pending, s1, id);
    assert With(s1, id, O.CallbackAtOnce(s1.accepts[id])) == With(s, id, O.CallbackAtOnce(s1.accepts[id]));
  }

  lemma SetupEnds(op: O.State)
    requires O.Reachable(op) && op.lp.Registering?
    ensures var op2 := O.CallbackAtOnce(O.Next(op, O.Register));
            O.Enabled(op2, O.MarkEngaged) && O.Next(op2, O.MarkEngaged) == O.SetupAtOnce(op)
  {
    O.Extend(op, O.Register);
    O.CallbackAtOnceIsARun(O.Next(op, O.Register));
  }

  lemma SetupArises(pending: int, s: State, id: Id)
    requires Arises(pending, s) && id in s.accepts && s.accepts[id].lp.Registering? && LoopFree(s, Some(id))
    ensures Arises(pending, With(s, id, O.SetupAtOnce(s.accepts[id])))
  {
    ArisingRaces(pending, s);
    var op := s.accepts[id];
    var op2 := O.CallbackAtOnce(O.Next(op, O.Register));
    ConstructArises(pending, s, id);
    SetupEnds(op);
    NextRaceArises(pending, s, id, op2, O.MarkEngaged);
  }

  // What an accept's meeting with its event comes to: whoever is late for the latch leaves
  // the accept alone, else it is completed and its stop callback gone.
  predicate Meets(op: O.State, sig: O.Signal, after: O.State) {
    && after.requested == op.requested && after.linked == op.linked && after.lp == op.lp && !O.Running(after.cb)
    && after.latch == (if op.latch.used then op.latch else Disengage(Take(op.latch)))
    && after.done == if op.latch.used then op.done else op.done + [sig]
  }

  lemma EventMeets(op: O.State, sig: O.Signal)
    requires RaceOk(op) && sig != O.Stopped && (op.lp.Ready? || op.lp.Registering?) && !O.Running(op.cb)
    ensures Meets(op, sig, O.EventAtOnce(op, sig))
  {
    O.ReachableInv(op);
  }

  // What applying its stop operation comes to.
  predicate Stops(op: O.State, after: O.State) {
    && after.requested == op.requested && !after.linked && after.lp.Ready? && !O.Running(after.cb)
    && after.latch == Disengage(op.latch) && after.done == op.done + [O.Stopped]
  }

  lemma DrainStops(op: O.State)
    requires RaceOk(op) && op.linked && op.lp.Ready? && !O.Running(op.cb)
    ensures Stops(op, O.DrainAtOnce(op))
  {
    O.ReachableInv(op);
  }

  // ---- the listener's callbacks ------------------------------------------------------

  // An accept is registered; `requested` says that its stop was requested before.
  function Registered(s: State, id: Id, listenErr: int, acceptErr: int, requested: bool): State {
    var s1 := RegisterStep(s, id, listenErr, acceptErr);
    if requested then With(s1, id, s1.accepts[id].(requested := true)) else s1
  }

  lemma RegisteredIsBusy(s: State, id: Id, listenErr: int, acceptErr: int, requested: bool)
    requires id !in s.accepts
    ensures var s' := Registered(s, id, listenErr, acceptErr, requested);
            && id in s'.accepts && s'.accepts[id].lp.Registering?
            && (LoopFree(s, None) ==> LoopFree(s', Some(id)))
  {
  }

  lemma RegisteredArises(pending: int, s: State, id: Id, listenErr: int, acceptErr: int, requested: bool)
    requires Arises(pending, s) && LoopFree(s, None) && id !in s.accepts
    ensures Arises(pending, Registered(s, id, listenErr, acceptErr, requested))
  {
    Extends(pending, s, Register(id, listenErr, acceptErr));
    if requested {
      RaceArises(pending, RegisterStep(s, id, listenErr, acceptErr), id, O.RequestStop);
    }
  }

  // ... and then set up.
  function StartAtOnce(s: State, id: Id, listenErr: int, acceptErr: int, requested: bool): State {
    var s1 := Registered(s, id, listenErr, acceptErr, requested);
    if s1.accepts[id].lp.Registering? then With(s1, id, O.SetupAtOnce(s1.accepts[id])) else s1
  }

  // An accept whose start has begun, before it is registered.
  function Begun(requested: bool): O.State {
    O.BeginStep(O.Initial(O.Accept).(requested := requested), 0, 0)
  }

  lemma BegunIsOk(requested: bool)
    ensures RaceOk(Begun(requested)) && Begun(requested).lp.Registering? && !O.Running(Begun(requested).cb)
  {
    var op := O.Initial(O.Accept);
    assert O.Exec(O.Accept, []) == Some(op);
    if requested {
      O.Extend(op, O.RequestStop);
      op := O.Next(op, O.RequestStop);
    }
    O.Extend(op, O.Begin(0, 0));
  }

  function PendingAfter(pending: int, listenErr: int): int {
    if pending > 0 then pending - 1 else if listenErr == 0 then 0 else pending
  }

  // What registering tells an accept.
  function Told(pending: int, listenErr: int, acceptErr: int): seq<O.Signal> {
    if pending > 0 then [AcceptSignal(acceptErr)]
    else if pending < 0 && listenErr != 0 then [O.Error(listenErr)]
    else []
  }

  // What registering an accept does to its race.
  predicate Registers(pending: int, listenErr: int, acceptErr: int, op: O.State, after: O.State) {
    if pending > 0 then Meets(op, AcceptSignal(acceptErr), after)
    else if pending < 0 && listenErr != 0 then Meets(op, O.Error(listenErr), after)
    else after == op
  }

  lemma RegisteredRegisters(s: State, id: Id, listenErr: int, acceptErr: int, requested: bool)
    ensures var s' := Registered(s, id, listenErr, acceptErr, requested);
            && id in s'.accepts && Registers(s.pending, listenErr, acceptErr, Begun(requested), s'.accepts[id])
            && s'.pending == PendingAfter(s.pending, listenErr)
            && s'.list == if s.pending > 0 then s.list else AddFront(s.list, id)
  {
  }

  function ArriveAtOnce(s: State, status: int, acceptErr: int): State {
    var s1 := ArriveStep(s, status, acceptErr);
    if status == 0 && s.list != [] && s.list[0] in s.accepts
    then With(s1, s.list[0], O.EventAtOnce(s.accepts[s.list[0]], AcceptSignal(acceptErr)))
    else s1
  }

  lemma ArriveArises(pending: int, s: State, status: int, acceptErr: int)
    requires Arises(pending, s) && LoopFree(s, None)
    requires s.list != [] && s.list[0] in s.accepts ==> !O.Running(s.accepts[s.list[0]].cb)
    ensures Arises(pending, ArriveAtOnce(s, status, acceptErr))
  {
    Extends(pending, s, Arrive(status, acceptErr));
    if status == 0 && s.list != [] && s.list[0] in s.accepts {
      var id := s.list[0];
      var s1 := ArriveStep(s, status, acceptErr);
      if s1.accepts[id].lp.EventReset? {
        RaceArises(pending, s1, id, O.FinishReset);
      } else {
        assert s1 == ArriveAtOnce(s, status, acceptErr);
      }
    }
  }

  // An arrival changes the counter, or the accept that it meets and the list.
  predicate Arrives(s: State, acceptErr: int, after: State) {
    if s.list == [] then
      after.list == [] && after.pending == s.pending + 1
    else
      && after.list == s.list[1..] && after.pending == s.pending
      && s.list[0] in s.accepts && s.list[0] in after.accepts
      && Meets(s.accepts[s.list[0]], AcceptSignal(acceptErr), after.accepts[s.list[0]])
  }

  lemma ArriveArrives(pending: int, s: State, acceptErr: int)
    requires Arises(pending, s) && LoopFree(s, None)
    requires s.list != [] ==> s.list[0] in s.accepts && !O.Running(s.accepts[s.list[0]].cb)
    ensures Arrives(s, acceptErr, ArriveAtOnce(s, 0, acceptErr))
  {
    if s.list != [] {
      ArisingRaces(pending, s);
      EventMeets(s.accepts[s.list[0]], AcceptSignal(acceptErr));
    }
  }

  // The loop applies the stop operation of an accept.
  function StopAtOnce(s: State, id: Id): State
    requires id in s.accepts
  {
    With(s.(list := Remove(s.list, id)), id, O.DrainAtOnce(s.accepts[id]))
  }

  lemma StopArises(pending: int, s: State, id: Id)
    requires Arises(pending, s) && LoopFree(s, None) && id in s.accepts
    requires s.accepts[id].linked && !O.Running(s.accepts[id].cb)
    ensures Arises(pending, StopAtOnce(s, id))
  {
    var op := s.accepts[id];
    Extends(pending, s, Race(id, O.Drain));
    if O.DrainStep(op).lp.DrainReset? {
      NextRaceArises(pending, s.(list := Remove(s.list, id)), id, O.DrainStep(op), O.FinishReset);
    }
  }
}

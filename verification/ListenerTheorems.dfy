/**
  What the listener keeps over every run of arrivals, registrations and cancellations,
  and why it takes a counter that starts at zero.
*/
module ListenerTheorems {
  import opened Options
  import opened ListModel
  import opened Listener
  import O = OneShot

  // The successful arrivals of a run.
  function Arrivals(run: seq<Action>): nat {
    if run == [] then 0
    else
      var a := run[|run| - 1];
      Arrivals(run[..|run| - 1]) + if a.Arrive? && a.status == 0 then 1 else 0
  }

  lemma {:induction false} ArrivalsAreCounted(pending: int, run: seq<Action>)
    requires Exec(pending, run).Some?
    ensures Exec(pending, run).value.arrivals == Arrivals(run)
  {
    if run != [] {
      ArrivalsAreCounted(pending, run[..|run| - 1]);
    }
  }

  // From Bind on: every successful arrival is pending, was tried with uv_accept, or went to
  // an accept whose stop had already won; arrivals only pend while no accept waits.
  lemma ArrivalsAreConserved(backlog: nat, listenErr: int, run: seq<Action>, s: State)
    requires Exec(Bind(backlog, 0, listenErr).0, run) == Some(s)
    ensures 0 <= s.pending && Arrivals(run) == s.arrivals == s.pending + |s.attempts| + |s.handed|
    ensures s.pending > 0 ==> s.list == []
  {
    ExecKeepsInv(0, run);
    ArrivalsAreCounted(0, run);
  }

  // ---- who was served ------------------------------------------------------------

  // Nobody is served twice; uv_accept was called exactly for the accepts that an event won,
  // and the arrivals that were handed over in vain went to accepts that a stop won.
  ghost predicate ServedOk(s: State) {
    && Distinct(s.attempts) && Distinct(s.handed)
    && (forall id :: id in s.attempts <==> id in s.accepts && s.accepts[id].winner == O.Event)
    && (forall id :: id in s.handed ==> id in s.accepts && s.accepts[id].winner == O.Stop && id !in s.list)
  }

  // Accept `id`, which is in no list (any more), meets an arrival.
  lemma AcceptServes(s: State, id: Id, acceptErr: int)
    requires ServedOk(s) && id in s.accepts && id !in s.list && id !in s.handed
    requires O.Inv(s.accepts[id]) && s.accepts[id].startOk && s.accepts[id].winner != O.Event && !s.accepts[id].lp.NotStarted?
    ensures ServedOk(Accept(s, id, acceptErr))
  {
  }

  lemma ArriveServesOk(s: State, a: Action)
    requires Inv(s) && ServedOk(s) && Enabled(s, a) && a.Arrive?
    ensures ServedOk(Next(s, a))
  {
    if a.status == 0 && s.list != [] {
      var id := s.list[0];
      assert id in s.list && AcceptOk(s, id);
      O.ReachableInv(s.accepts[id]);
      var s1 := s.(arrivals := s.arrivals + 1, list := s.list[1..]);
      assert ServedOk(s1);
      AcceptServes(s1, id, a.acceptErr);
    }
  }

  lemma RegisterServesOk(s: State, a: Action)
    requires Inv(s) && ServedOk(s) && Enabled(s, a) && a.Register?
    ensures ServedOk(Next(s, a))
  {
    var begun := O.BeginStep(O.Initial(O.Accept), 0, 0);
    BegunIsReachable();
    O.ReachableInv(begun);
    if s.pending > 0 {
      var s1 := s.(accepts := s.accepts[a.id := begun], pending := s.pending - 1);
      assert ServedOk(s1);
      AcceptServes(s1, a.id, a.acceptErr);
    }
  }

  lemma RaceServesOk(s: State, a: Action)
    requires Inv(s) && ServedOk(s) && Enabled(s, a) && a.Race?
    ensures ServedOk(Next(s, a))
  {
    assert AcceptOk(s, a.id);
    O.ReachableInv(s.accepts[a.id]);
    O.RaceKeepsWinner(s.accepts[a.id], a.step);
    RemoveMeaning(s.list, a.id);
  }

  lemma {:induction false} ExecKeepsServed(run: seq<Action>)
    requires Exec(0, run).Some?
    ensures ServedOk(Exec(0, run).value)
  {
    if run != [] {
      ExecKeepsServed(run[..|run| - 1]);
      ExecKeepsInv(0, run[..|run| - 1]);
      var s, a := Exec(0, run[..|run| - 1]).value, run[|run| - 1];
      match a
      case Arrive(_, _) => ArriveServesOk(s, a);
      case Register(_, _, _) => RegisterServesOk(s, a);
      case Race(_, _) => RaceServesOk(s, a);
    }
  }

  lemma {:induction false} AsMany(q: seq<Id>, members: set<Id>)
    requires Distinct(q) && forall id :: id in q <==> id in members
    ensures |q| == |members|
  {
    if q == [] {
      assert members == {};
    } else {
      assert q[0] in q && q[0] !in q[1..];
      assert forall id :: id in q <==> id == q[0] || id in q[1..];
      AsMany(q[1..], members - {q[0]});
    }
  }

  function EventWinners(s: State): set<Id> {
    set id | id in s.accepts && s.accepts[id].winner == O.Event
  }

  // What the terms of the conservation law count.
  lemma ServedByTheWinner(backlog: nat, listenErr: int, run: seq<Action>, s: State)
    requires Exec(Bind(backlog, 0, listenErr).0, run) == Some(s)
    ensures Distinct(s.attempts) && Distinct(s.handed)
    ensures forall id :: id in s.attempts <==> id in s.accepts && s.accepts[id].winner == O.Event
    ensures forall id :: id in s.handed ==> id in s.accepts && s.accepts[id].winner == O.Stop && id !in s.list
    ensures |s.attempts| == |EventWinners(s)|
  {
    ExecKeepsServed(run);
    AsMany(s.attempts, EventWinners(s));
  }

  // What an accept is told: the answer of uv_accept, by the arrival that reached it first.
  lemma ServedAreToldTheAnswer(backlog: nat, listenErr: int, run: seq<Action>, s: State, a: Action)
    requires Exec(Bind(backlog, 0, listenErr).0, run) == Some(s) && Enabled(s, a)
    requires (a.Arrive? && a.status == 0 && s.list != []) || (a.Register? && s.pending > 0)
    ensures var id := if a.Arrive? then s.list[0] else a.id;
            && id in Next(s, a).accepts
            && (a.Arrive? ==> id in s.accepts)
            && (a.Register? || s.accepts[id].winner == O.Nobody ==>
                  Next(s, a).accepts[id].won == Some(if a.acceptErr == 0 then O.Value(0) else O.Error(a.acceptErr)))
            && (a.Arrive? && s.accepts[id].winner == O.Stop ==> Next(s, a).accepts[id] == s.accepts[id])
  {
    ExecKeepsInv(0, run);
    if a.Arrive? {
      assert s.list[0] in s.list && AcceptOk(s, s.list[0]);
      O.ReachableInv(s.accepts[s.list[0]]);
    }
  }

  // Every accept registered from then on completes at most once, is in no list once it
  // has, and was stopped exactly if its stop won; while it waits it is in the list once.
  lemma AcceptsCompleteOnce(backlog: nat, listenErr: int, run: seq<Action>, s: State, id: Id)
    requires Exec(Bind(backlog, 0, listenErr).0, run) == Some(s) && id in s.accepts
    ensures |s.accepts[id].done| <= 1
    ensures O.Completed(s.accepts[id]) ==> id !in s.list
    ensures s.accepts[id].done == [O.Stopped] ==> s.accepts[id].winner == O.Stop
    ensures s.accepts[id].winner == O.Stop && s.accepts[id].done != [] ==> s.accepts[id].done == [O.Stopped]
    ensures Distinct(s.list)
  {
    ExecKeepsInv(0, run);
    assert AcceptOk(s, id);
    O.ReachableInv(s.accepts[id]);
  }

  // A waiting accept that nobody stopped is in the list: it cannot miss the next arrival.
  lemma WaitersAreListed(backlog: nat, listenErr: int, run: seq<Action>, s: State, id: Id)
    requires Exec(Bind(backlog, 0, listenErr).0, run) == Some(s)
    requires id in s.accepts && s.accepts[id].winner == O.Nobody
    ensures id in s.list
  {
    WaitersStayListed(run);
  }

  ghost predicate WaitersListed(s: State) {
    forall id {:trigger s.accepts[id]} :: id in s.accepts && s.accepts[id].winner == O.Nobody ==> id in s.list
  }

  // Only an undecided race stays undecided, and it has nothing to drain.
  lemma UndecidedStays(op: O.State, b: O.Action)
    requires O.Inv(op) && O.Enabled(op, b) && O.Next(op, b).winner == O.Nobody && !op.lp.NotStarted?
    ensures op.winner == O.Nobody && !b.Drain?
  {
  }

  lemma RaceKeepsWaiters(s: State, a: Action)
    requires Inv(s) && WaitersListed(s) && Enabled(s, a) && a.Race?
    ensures WaitersListed(Next(s, a))
  {
    RemoveMeaning(s.list, a.id);
    assert AcceptOk(s, a.id);
    O.ReachableInv(s.accepts[a.id]);
    if O.Next(s.accepts[a.id], a.step).winner == O.Nobody {
      UndecidedStays(s.accepts[a.id], a.step);
    }
  }

  lemma StepKeepsWaiters(s: State, a: Action)
    requires Inv(s) && WaitersListed(s) && Enabled(s, a)
    ensures WaitersListed(Next(s, a))
  {
    if a.Race? {
      RaceKeepsWaiters(s, a);
    } else if a.Arrive? && s.list != [] {
      assert s.list[0] in s.list && AcceptOk(s, s.list[0]);
      O.ReachableInv(s.accepts[s.list[0]]);
    }
  }

  lemma {:induction false} WaitersStayListed(run: seq<Action>)
    requires Exec(0, run).Some?
    ensures WaitersListed(Exec(0, run).value)
  {
    if run != [] {
      WaitersStayListed(run[..|run| - 1]);
      ExecKeepsInv(0, run[..|run| - 1]);
      StepKeepsWaiters(Exec(0, run[..|run| - 1]).value, run[|run| - 1]);
    }
  }

  // ---- a counter that does not start at zero -------------------------------------

  ghost predicate AlwaysConserved(pending: int) {
    forall run :: Exec(pending, run).Some? ==> Conserved(Exec(pending, run).value)
  }

  ghost predicate CompletedLeaveTheList(pending: int) {
    forall run, id {:trigger Exec(pending, run), id in Exec(pending, run).value.accepts} ::
      (Exec(pending, run).Some? && id in Exec(pending, run).value.accepts
       && O.Completed(Exec(pending, run).value.accepts[id])) ==>
      id !in Exec(pending, run).value.list
  }

  lemma OneStep(pending: int, a: Action)
    requires Enabled(Initial(pending), a)
    ensures Exec(pending, [a]) == Some(Next(Initial(pending), a))
  {
    assert [a][..0] == [];
    assert Exec(pending, []) == Some(Initial(pending));
  }

  // Arrivals are conserved in every run if and only if the counter starts at zero; the
  // public constructor leaves it at minus the backlog, and the first arrival is lost.
  lemma ConservedIffCounterStartsAtZero(pending: int)
    ensures AlwaysConserved(pending) <==> pending == 0
  {
    if pending == 0 {
      forall run | Exec(0, run).Some? ensures Conserved(Exec(0, run).value) {
        ExecKeepsInv(0, run);
      }
    } else if pending > 0 {
      assert Exec(pending, []) == Some(Initial(pending));
    } else {
      OneStep(pending, Arrive(0, 0));
    }
  }

  // Bind passes on the error of bind or listen; arrivals are conserved from then on unless
  // binding failed.
  lemma BindAnswers(backlog: nat, bindErr: int, listenErr: int)
    ensures var (pending, err) := Bind(backlog, bindErr, listenErr);
            && err == (if bindErr != 0 then bindErr else listenErr)
            && pending == (if bindErr != 0 then -(backlog as int) else 0)
            && (AlwaysConserved(pending) <==> bindErr == 0 || backlog == 0)
  {
    ConservedIffCounterStartsAtZero(Bind(backlog, bindErr, listenErr).0);
  }

  lemma PublicConstructorLosesArrivals(backlog: nat)
    ensures AlwaysConserved(Construct(backlog)) <==> backlog == 0
  {
    ConservedIffCounterStartsAtZero(Construct(backlog));
  }

  // Completed accepts leave the list in every run if and only if the counter does not
  // start below zero: only then can a registration fail to listen, and that accept
  // completes while it is still linked.
  lemma CompletedLeaveIffCounterNotNegative(pending: int)
    ensures CompletedLeaveTheList(pending) <==> pending >= 0
  {
    if pending >= 0 {
      forall run, id | Exec(pending, run).Some? && id in Exec(pending, run).value.accepts
        && O.Completed(Exec(pending, run).value.accepts[id])
        ensures id !in Exec(pending, run).value.list
      {
        ExecKeepsInv(pending, run);
        assert AcceptOk(Exec(pending, run).value, id);
        O.ReachableInv(Exec(pending, run).value.accepts[id]);
      }
    } else {
      OneStep(pending, Register(0, -98, 0));
      var s := Exec(pending, [Register(0, -98, 0)]).value;
      assert 0 in s.accepts && O.Completed(s.accepts[0]) && 0 in s.list;
    }
  }
}

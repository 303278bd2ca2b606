/**
  The TCP listener: arriving connections are matched with registered accepts, while any
  accept may be cancelled from any thread. Every accept runs the race of OneShot.
*/
module Listener {
  import opened Options
  import opened ListModel
  import O = OneShot

  type Id = nat

  // `pending` is PendingConnections, `list` the accept list, first the accept that was
  // registered last. History: how many arrivals were successful, the accepts that uv_accept
  // was called for, and those an arrival was handed to although their stop had already won.
  datatype State = State(pending: int, list: seq<Id>, accepts: map<Id, O.State>,
                         arrivals: nat, attempts: seq<Id>, handed: seq<Id>)

  function Initial(pending: int): State { State(pending, [], map[], 0, [], []) }

  // PendingConnections and the error after Bind, given libuv's answers.
  function Bind(backlog: nat, bindErr: int, listenErr: int): (int, int) {
    if bindErr != 0 then (-(backlog as int), bindErr) else (0, listenErr)
  }

  // The public constructor binds and listens as well but leaves the counter as it is.
  function Construct(backlog: nat): int { -(backlog as int) }

  datatype Action =
    | Arrive(status: int, acceptErr: int)                  // ConnectionCallback
    | Register(id: Id, listenErr: int, acceptErr: int)     // an accept is started
    | Race(id: Id, step: O.Action)                         // any other step of its race

  function AcceptSignal(acceptErr: int): O.Signal { if acceptErr != 0 then O.Error(acceptErr) else O.Value(0) }

  // The loop thread is not in the middle of an accept other than `id`.
  ghost predicate LoopFree(s: State, id: Option<Id>) {
    forall j {:trigger s.accepts[j]} :: j in s.accepts && id != Some(j) ==> s.accepts[j].lp.Ready?
  }

  predicate ByAnyThread(a: O.Action) { a.RequestStop? || a.Callback? }

  ghost predicate Enabled(s: State, a: Action) {
    match a
    case Arrive(_, _) => LoopFree(s, None)
    case Register(id, _, _) => LoopFree(s, None) && id !in s.accepts
    case Race(id, b) =>
      && id in s.accepts && O.Enabled(s.accepts[id], b) && !b.Begin? && !b.EventFires?
      && (ByAnyThread(b) || LoopFree(s, Some(id)))
  }

  // TAcceptOpState::Accept, called for an accept that has just left the list or never
  // entered it.
  function Accept(s: State, id: Id, acceptErr: int): State
    requires id in s.accepts
  {
    var op := s.accepts[id];
    var s0 := s.(accepts := s.accepts[id := O.EventStep(op, AcceptSignal(acceptErr))]);
    if op.latch.used then s0.(handed := s.handed + [id]) else s0.(attempts := s.attempts + [id])
  }

  function ArriveStep(s: State, status: int, acceptErr: int): State {
    if status != 0 then s
    else
      var s0 := s.(arrivals := s.arrivals + 1);
      if s.list == [] then s0.(pending := s.pending + 1)
      else if s.list[0] in s.accepts then Accept(s0.(list := s.list[1..]), s.list[0], acceptErr)
      else s0.(list := s.list[1..])
  }

  // An accept that cannot listen is told so but stays in the list.
  function RegisterStep(s: State, id: Id, listenErr: int, acceptErr: int): State {
    var begun := O.BeginStep(O.Initial(O.Accept), 0, 0);
    var s0 := s.(accepts := s.accepts[id := begun]);
    if s.pending > 0 then Accept(s0.(pending := s.pending - 1), id, acceptErr)
    else
      var added := s0.(list := AddFront(s.list, id));
      if s.pending < 0 then
        if listenErr != 0 then added.(accepts := s.accepts[id := O.EventStep(begun, O.Error(listenErr))])
        else added.(pending := 0)
      else added
  }

  function Next(s: State, a: Action): State
    requires Enabled(s, a)
  {
    match a
    case Arrive(status, acceptErr) => ArriveStep(s, status, acceptErr)
    case Register(id, listenErr, acceptErr) => RegisterStep(s, id, listenErr, acceptErr)
    case Race(id, b) =>
      var s0 := s.(accepts := s.accepts[id := O.Next(s.accepts[id], b)]);
      if b.Drain? then s0.(list := Remove(s.list, id)) else s0
  }

  ghost function Exec(pending: int, run: seq<Action>): Option<State> {
    if run == [] then Some(Initial(pending))
    else
      var before := Exec(pending, run[..|run| - 1]);
      var a := run[|run| - 1];
      if before.Some? && Enabled(before.value, a) then Some(Next(before.value, a)) else None
  }

  // ---- the invariant -----------------------------------------------------------

  // An accept is in the list only while it waits: it has not completed and nobody but a
  // stop can have won its latch.
  ghost predicate AcceptOk(s: State, id: Id)
    requires id in s.accepts
  {
    var op := s.accepts[id];
    && O.Reachable(op) && op.kind.Accept? && op.startOk && !op.lp.NotStarted?
    && (id in s.list ==> op.source.Active? && !O.Resetting(op.lp) && op.winner != O.Event)
  }

  ghost predicate AcceptsOk(s: State) {
    forall id {:trigger AcceptOk(s, id)} :: id in s.accepts ==> AcceptOk(s, id)
  }

  predicate CountsOk(s: State) {
    && s.pending >= 0
    && (s.pending > 0 ==> s.list == [])
  }

  ghost predicate Inv(s: State) {
    && CountsOk(s) && AcceptsOk(s)
    && Distinct(s.list) && (forall id :: id in s.list ==> id in s.accepts)
  }

  // What has arrived and not been lost.
  predicate Conserved(s: State) {
    s.arrivals == (if s.pending > 0 then s.pending else 0) + |s.attempts| + |s.handed|
  }

  lemma EventKeepsAccept(op: O.State, sig: O.Signal)
    requires O.Reachable(op) && op.kind.Accept? && op.startOk && O.Enabled(op, O.EventFires(sig))
    ensures var op' := O.EventStep(op, sig);
            O.Reachable(op') && op'.kind.Accept? && op'.startOk && !op'.lp.NotStarted?
  {
    O.Extend(op, O.EventFires(sig));
  }

  lemma BegunIsReachable()
    ensures O.Reachable(O.BeginStep(O.Initial(O.Accept), 0, 0))
  {
    assert O.Exec(O.Accept, []) == Some(O.Initial(O.Accept));
    O.Extend(O.Initial(O.Accept), O.Begin(0, 0));
  }

  lemma ArriveKeepsInv(s: State, a: Action)
    requires Inv(s) && a.Arrive? && Enabled(s, a)
    ensures Inv(Next(s, a)) && (Conserved(s) ==> Conserved(Next(s, a)))
  {
    var s' := Next(s, a);
    if a.status == 0 && s.list != [] {
      var id := s.list[0];
      assert id in s.list && AcceptOk(s, id);
      EventKeepsAccept(s.accepts[id], AcceptSignal(a.acceptErr));
      assert id !in s'.list;
    }
    forall j | j in s'.accepts ensures AcceptOk(s', j) {
      assert AcceptOk(s, j);
    }
  }

  lemma RegisterKeepsInv(s: State, a: Action)
    requires Inv(s) && a.Register? && Enabled(s, a)
    ensures Inv(Next(s, a)) && (Conserved(s) ==> Conserved(Next(s, a)))
  {
    var s' := Next(s, a);
    BegunIsReachable();
    EventKeepsAccept(O.BeginStep(O.Initial(O.Accept), 0, 0), AcceptSignal(a.acceptErr));
    forall j | j in s'.accepts ensures AcceptOk(s', j) {
      if j != a.id { assert AcceptOk(s, j); }
    }
  }

  lemma RaceKeepsInv(s: State, a: Action)
    requires Inv(s) && a.Race? && Enabled(s, a)
    ensures Inv(Next(s, a)) && (Conserved(s) ==> Conserved(Next(s, a)))
  {
    var s' := Next(s, a);
    RaceKeepsAccept(s, a);
    RemoveMeaning(s.list, a.id);
    forall j | j in s'.accepts ensures AcceptOk(s', j) {
      assert AcceptOk(s, j);
    }
  }

  lemma RaceKeepsAccept(s: State, a: Action)
    requires Inv(s) && a.Race? && Enabled(s, a)
    ensures AcceptOk(Next(s, a), a.id)
  {
    assert AcceptOk(s, a.id);
    O.ReachableInv(s.accepts[a.id]);
    O.Extend(s.accepts[a.id], a.step);
    RemoveMeaning(s.list, a.id);
  }

  lemma NextKeepsInv(s: State, a: Action)
    requires Inv(s) && Enabled(s, a)
    ensures Inv(Next(s, a)) && (Conserved(s) ==> Conserved(Next(s, a)))
  {
    match a
    case Arrive(_, _) => ArriveKeepsInv(s, a);
    case Register(_, _, _) => RegisterKeepsInv(s, a);
    case Race(_, _) => RaceKeepsInv(s, a);
  }

  lemma {:induction false} ExecKeepsInv(pending: int, run: seq<Action>)
    requires pending >= 0 && Exec(pending, run).Some?
    ensures Inv(Exec(pending, run).value)
    ensures pending == 0 ==> Conserved(Exec(pending, run).value)
  {
    if run != [] {
      ExecKeepsInv(pending, run[..|run| - 1]);
      NextKeepsInv(Exec(pending, run[..|run| - 1]).value, run[|run| - 1]);
    }
  }
}

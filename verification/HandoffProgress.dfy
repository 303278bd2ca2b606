/**
  Where calls are going: no call circles without a decision, what it decides at the top of
  its loop, who is woken first, and that a call which has what it came for returns.
*/
module HandoffProgress {
  import opened Options
  import opened ListModel
  import opened LoopHandoff
  import opened HandoffInvariant
  import opened HandoffTheorems

  // Every instruction but the one at the top of the loop and those inside uv_run leads down
  // this list; inside a critical section LockRank counts on.
  function ToDecision(pc: Pc): nat {
    match pc
    case Back => 10
    case Relocked | Waking | Bumping(_) | Leaving => 9
    case Snap => 8
    case Spin(_) => 7
    case Relock => 6
    case Erasing => 5
    case Test => 4
    case Want => 3
    case Held => 2
    case InUv | Finishing(_) => 1
    case Done => 0
  }

  // The same for a call that only has to return.
  function ToReturn(pc: Pc): nat {
    match pc
    case InUv | Finishing(_) => 8
    case Want => 7
    case Held => 6
    case Snap => 5
    case Spin(_) => 4
    case Back | Relock => 3
    case Relocked | Waking | Bumping(_) | Leaving | Erasing => 2
    case Test => 1
    case Done => 0
  }

  predicate Lower(stage': nat, lock': nat, stage: nat, lock: nat) {
    stage' < stage || (stage' == stage && lock' < lock)
  }

  // The instructions in their order, but for the decision at the top of the loop.
  predicate MayFollow(c: Call, next: Pc) {
    match c.pc
    case Test => next == if Unfinished(c) then Want else Done
    case Want => next == Held
    case Back => next == Relocked
    case Relocked => next == Waking
    case Waking => next.Waking? || next.Bumping? || next.Leaving?
    case Bumping(_) => next == Leaving
    case Leaving => next == if c.kind == Steal then Test else Done
    case Snap => next == if Unfinished(c) then Spin(c.awakenings) else Relock
    case Spin(w) => next == Relock && c.awakenings != w
    case Relock => next == Erasing
    case Erasing => next == if c.kind == Steal then Test else Want
    case _ => false
  }

  lemma PopMoves(s: State, t: Id)
    requires t in s.calls && s.calls[t].pc.Waking?
    ensures var c, c' := s.calls[t], PopNext(s, t).calls[t];
            MayFollow(c, c'.pc) && c' == c.(pc := c'.pc)
  {
  }

  lemma BumpMoves(s: State, t: Id)
    requires Inv(s) && t in s.calls && s.calls[t].pc.Bumping?
    ensures var c, c' := s.calls[t], Bump(s, t, s.calls[t].pc.runner).calls[t];
            MayFollow(c, c'.pc) && c' == c.(pc := c'.pc)
  {
    Instances(s, t);
  }

  lemma LockingMoves(s: State, t: Id)
    requires t in s.calls && CanStep(s, t) && (s.calls[t].pc.Want? || s.calls[t].pc.Back? || s.calls[t].pc.Relock?)
    ensures var c, c' := s.calls[t], ThreadStep(s, t).calls[t];
            MayFollow(c, c'.pc) && c' == c.(pc := c'.pc)
  {
  }

  lemma UnlockingMoves(s: State, t: Id)
    requires t in s.calls && (s.calls[t].pc.Relocked? || s.calls[t].pc.Leaving? || s.calls[t].pc.Erasing?)
    ensures var c, c' := s.calls[t], ThreadStep(s, t).calls[t];
            MayFollow(c, c'.pc) && c' == c.(pc := c'.pc)
  {
  }

  lemma WaitingMoves(s: State, t: Id)
    requires t in s.calls && CanStep(s, t) && (s.calls[t].pc.Test? || s.calls[t].pc.Snap? || s.calls[t].pc.Spin?)
    ensures var c, c' := s.calls[t], ThreadStep(s, t).calls[t];
            MayFollow(c, c'.pc) && c' == c.(pc := c'.pc)
  {
  }

  // An instruction between two decisions changes nothing of its call but the place.
  lemma Moves(s: State, t: Id)
    requires Inv(s) && t in s.calls && CanStep(s, t) && !s.calls[t].pc.Held? && !InLoop(s.calls[t])
    ensures var c, c' := s.calls[t], ThreadStep(s, t).calls[t];
            MayFollow(c, c'.pc) && c' == c.(pc := c'.pc)
  {
    match s.calls[t].pc
    case Waking => PopMoves(s, t);
    case Bumping(_) => BumpMoves(s, t);
    case Want | Back | Relock => LockingMoves(s, t);
    case Relocked | Leaving | Erasing => UnlockingMoves(s, t);
    case Test | Snap | Spin(_) => WaitingMoves(s, t);
    case Done =>
  }

  // Inside a critical section LockRank falls.
  lemma LockedComesCloser(s: State, t: Id)
    requires Inv(s) && t in s.calls && CanStep(s, t) && Holds(s.calls[t].pc)
    ensures LockRank(ThreadStep(s, t), t) < LockRank(s, t)
  {
    Instances(s, t);
    HolderComesCloser(s, t);
  }

  // Between two decisions a call takes finitely many instructions.
  lemma NoCallCircles(s: State, t: Id)
    requires Reachable(s) && t in s.calls && CanStep(s, t)
    requires !s.calls[t].pc.Held? && !InLoop(s.calls[t])
    ensures MayFollow(s.calls[t], ThreadStep(s, t).calls[t].pc)
    ensures var s' := ThreadStep(s, t);
            Lower(ToDecision(s'.calls[t].pc), LockRank(s', t), ToDecision(s.calls[t].pc), LockRank(s, t))
  {
    ReachableInv(s);
    Moves(s, t);
    if Holds(s.calls[t].pc) {
      LockedComesCloser(s, t);
    }
  }

  // What a call does at the top of its loop. With somebody in the loop it queues up in front
  // of all others; otherwise it runs the loop itself, unless it is a sync_wait that has its
  // result and was never sent back from uv_run too early: that one passes the loop on.
  lemma DecidesAtTheTop(s: State, t: Id)
    requires Reachable(s) && t in s.calls && s.calls[t].pc.Held?
    ensures var c, s' := s.calls[t], ThreadStep(s, t);
            if s.running then
              s'.calls[t].pc == Snap && s'.queue == [t] + s.queue && s'.running && s'.mutex.None?
            else if c.kind != Steal || c.awakenings != 0 || c.early then
              s'.calls[t].pc == InUv && s'.running && s'.owner == Some(t) && s'.mutex.None?
            else
              s'.calls[t].pc == Waking && !s'.running && s'.mutex == Some(t)
  {
    ReachableInv(s);
    assert CallOk(s, t);
  }

  // ---- returning -----------------------------------------------------------------

  // A sync_wait that has its result and is out of uv_run, but not about to enter it again
  // because it was sent back too early; or another call whose uv_run has returned.
  predicate Returning(c: Call) {
    if c.kind == Steal then
      c.awakenings == 0 && !InLoop(c) && (c.pc.Want? || c.pc.Held? ==> !c.early)
    else
      c.pc.Back? || c.pc.Relocked? || c.pc.Waking? || c.pc.Bumping? || c.pc.Leaving? || c.pc.Done?
  }

  // Each of its instructions brings such a call closer to its return ...
  lemma ReturningComesCloser(s: State, t: Id)
    requires Reachable(s) && t in s.calls && Returning(s.calls[t]) && CanStep(s, t)
    ensures var s' := ThreadStep(s, t);
            && Returning(s'.calls[t])
            && Lower(ToReturn(s'.calls[t].pc), LockRank(s', t), ToReturn(s.calls[t].pc), LockRank(s, t))
  {
    ReachableInv(s);
    if s.calls[t].pc.Held? {
      FinishedDecides(s, t);
    } else {
      Moves(s, t);
      ReturningLeads(s.calls[t], ThreadStep(s, t).calls[t].pc);
      if Holds(s.calls[t].pc) {
        LockedComesCloser(s, t);
      }
    }
  }

  lemma ReturningLeads(c: Call, next: Pc)
    requires Returning(c) && MayFollow(c, next)
    ensures Returning(c.(pc := next))
    ensures if Holds(c.pc) then ToReturn(next) <= ToReturn(c.pc) else ToReturn(next) < ToReturn(c.pc)
  {
  }

  lemma FinishedDecides(s: State, t: Id)
    requires Reachable(s) && t in s.calls && Returning(s.calls[t]) && s.calls[t].pc.Held?
    ensures Returning(Decide(s, t).calls[t])
    ensures Decide(s, t).calls[t].pc.Snap? || Decide(s, t).calls[t].pc.Waking?
  {
    DecidesAtTheTop(s, t);
    CountersStay(s, t, t);
  }

  // ... no other call and no completion puts it off ...
  lemma OthersDoNotDelay(s: State, a: Action, t: Id)
    requires Reachable(s) && Enabled(s, a) && a != Thread(t) && t in s.calls && Returning(s.calls[t])
    ensures t in Next(s, a).calls && Returning(Next(s, a).calls[t])
    ensures Next(s, a).calls[t].pc == s.calls[t].pc && LockRank(Next(s, a), t) == LockRank(s, t)
  {
    ReachableInv(s);
    AwakeningsGrow(s, a, t);
    OthersKeepCall(s, a, t);
    assert CallOk(s, t);
    if s.mutex == Some(t) {
      CriticalSectionsEnd(s, a, t);
    }
  }

  lemma OthersKeepCall(s: State, a: Action, t: Id)
    requires Inv(s) && Enabled(s, a) && a != Thread(t) && t in s.calls && !InLoop(s.calls[t])
    ensures var c, c' := s.calls[t], Next(s, a).calls[t];
            c' == c.(awakenings := c'.awakenings)
  {
    if a.Thread? {
      if s.calls[a.t].pc.Bumping? || s.calls[a.t].pc.Finishing? {
        OthersKeepRest(s, a.t, t);
      } else {
        CountersStay(s, a.t, t);
      }
    }
  }

  lemma OthersKeepRest(s: State, u: Id, t: Id)
    requires u in s.calls && CanStep(s, u) && t in s.calls && u != t
    requires s.calls[u].pc.Bumping? || s.calls[u].pc.Finishing?
    ensures var c, c' := s.calls[t], ThreadStep(s, u).calls[t];
            c' == c.(awakenings := c'.awakenings)
  {
  }

  // ... and until it has returned it waits for nothing but RunMtx.
  lemma ReturningWaitsForTheLockOnly(s: State, t: Id)
    requires Reachable(s) && t in s.calls && Returning(s.calls[t])
    ensures CanStep(s, t) || s.calls[t].pc == Done || (s.mutex.Some? && s.mutex != Some(t))
  {
    ReachableInv(s);
    assert CallOk(s, t);
  }

  // ---- what it takes to return ---------------------------------------------------

  // Somewhere in the run the call was inside uv_run.
  ghost predicate RanTheLoop(run: seq<Action>, t: Id) {
    exists i {:trigger run[..i]} :: 0 <= i <= |run| && Exec(run[..i]).Some? && t in Exec(run[..i]).value.calls
                                    && InLoop(Exec(run[..i]).value.calls[t])
  }

  predicate AfterUv(pc: Pc) {
    pc.Back? || pc.Relocked? || pc.Waking? || pc.Bumping? || pc.Leaving? || pc.Done?
  }

  // A sync_wait returns with its result only, any other call after its turn in uv_run only.
  lemma ReturnsAfterItsTurn(run: seq<Action>, s: State, t: Id)
    requires Exec(run) == Some(s) && t in s.calls && s.calls[t].pc == Done
    ensures if s.calls[t].kind == Steal then s.calls[t].awakenings == 0 else RanTheLoop(run, t)
  {
    assert Reachable(s);
    ReachableInv(s);
    assert CallOk(s, t);
    if s.calls[t].kind != Steal {
      AfterUvRanTheLoop(run, t);
    }
  }

  lemma {:induction false} AfterUvRanTheLoop(run: seq<Action>, t: Id)
    requires Exec(run).Some? && t in Exec(run).value.calls
    requires var c := Exec(run).value.calls[t]; c.kind != Steal && AfterUv(c.pc)
    ensures RanTheLoop(run, t)
  {
    if run != [] {
      var prefix, a := run[..|run| - 1], run[|run| - 1];
      var s := Exec(prefix).value;
      ExecKeepsInv(prefix);
      AfterUvStep(s, a, t);
      if InLoop(s.calls[t]) {
        assert run[..|run| - 1] == prefix;
      } else {
        AfterUvRanTheLoop(prefix, t);
        var i :| 0 <= i <= |prefix| && Exec(prefix[..i]).Some? && t in Exec(prefix[..i]).value.calls
                 && InLoop(Exec(prefix[..i]).value.calls[t]);
        assert run[..i] == prefix[..i];
      }
    }
  }

  lemma AfterUvStep(s: State, a: Action, t: Id)
    requires Inv(s) && Enabled(s, a) && t in Next(s, a).calls
    requires var c := Next(s, a).calls[t]; c.kind != Steal && AfterUv(c.pc)
    ensures t in s.calls && s.calls[t].kind != Steal && (InLoop(s.calls[t]) || AfterUv(s.calls[t].pc))
  {
    if t in s.calls && !InLoop(s.calls[t]) {
      if a != Thread(t) {
        OthersKeepCall(s, a, t);
      } else if s.calls[t].pc.Held? {
        DecideKeepsKind(s, t);
      } else {
        assert CallOk(s, t);
        Moves(s, t);
      }
    } else if t in s.calls {
      InLoopKeepsKind(s, a, t);
    }
  }

  lemma DecideKeepsKind(s: State, t: Id)
    requires t in s.calls
    ensures var c := Decide(s, t).calls[t];
            c.kind == s.calls[t].kind && (c.kind != Steal ==> c.pc.Snap? || c.pc.InUv?)
  {
  }

  lemma InLoopKeepsKind(s: State, a: Action, t: Id)
    requires Inv(s) && Enabled(s, a) && t in s.calls && InLoop(s.calls[t])
    ensures Next(s, a).calls[t].kind == s.calls[t].kind
  {
    if a.Thread? && a.t != t {
      if s.calls[a.t].pc.Bumping? || s.calls[a.t].pc.Finishing? {
        OthersKeepRest(s, a.t, t);
      } else {
        CountersStay(s, a.t, t);
      }
    }
  }

  // ---- who is woken --------------------------------------------------------------

  // The step of the run, counted from 1, in which the call was last queued.
  function QueuedAt(run: seq<Action>, t: Id): (n: nat)
    ensures n <= |run|
  {
    if run == [] then 0
    else
      var before := Exec(run[..|run| - 1]);
      if before.Some? && Queues(before.value, run[|run| - 1], t) then |run| else QueuedAt(run[..|run| - 1], t)
  }

  predicate Queues(s: State, a: Action, t: Id) {
    a == Thread(t) && t in s.calls && s.calls[t].pc.Held? && s.running
  }

  ghost predicate NewestFirst(run: seq<Action>, q: seq<Id>) {
    forall i, j {:trigger q[i], q[j]} :: 0 <= i < j < |q| ==> QueuedAt(run, q[j]) < QueuedAt(run, q[i])
  }

  // How a step changes the queue.
  lemma QueueChanges(s: State, a: Action)
    requires Enabled(s, a)
    ensures var q' := Next(s, a).queue;
            if a.Thread? && Queues(s, a, a.t) then q' == [a.t] + s.queue
            else q' == s.queue || (s.queue != [] && q' == s.queue[1..]) || (a.Thread? && q' == Remove(s.queue, a.t))
  {
    if a.Thread? {
      match s.calls[a.t].pc
      case Held => assert Next(s, a) == Decide(s, a.t);
      case Waking => assert Next(s, a) == PopNext(s, a.t);
      case Bumping(r) => assert Next(s, a) == Bump(s, a.t, r);
      case Finishing(r) => assert Next(s, a) == StoreFinish(s, a.t, r);
      case Erasing => assert Next(s, a) == EraseSelf(s, a.t);
      case _ =>
    }
  }

  lemma RemoveKeepsOrder(run: seq<Action>, q: seq<Id>, x: Id)
    requires Distinct(q) && NewestFirst(run, q)
    ensures NewestFirst(run, Remove(q, x))
  {
    if x in q {
      var k :| 0 <= k < |q| && q[k] == x;
      RemoveIndex(q, k);
    } else {
      RemoveAbsent(q, x);
    }
  }

  // The queue is in the order in which its calls were queued, the newest in front ...
  lemma {:induction false} QueueIsNewestFirst(run: seq<Action>)
    requires Exec(run).Some?
    ensures NewestFirst(run, Exec(run).value.queue)
  {
    if run != [] {
      var prefix, a := run[..|run| - 1], run[|run| - 1];
      var s := Exec(prefix).value;
      QueueIsNewestFirst(prefix);
      ExecKeepsInv(prefix);
      QueueChanges(s, a);
      if a.Thread? && Queues(s, a, a.t) {
        assert a.t !in s.queue by { assert CallOk(s, a.t); }
        assert forall u :: u in s.queue ==> QueuedAt(run, u) == QueuedAt(prefix, u) < |run| == QueuedAt(run, a.t);
      } else {
        if a.Thread? { RemoveKeepsOrder(prefix, s.queue, a.t); }
        assert forall u :: QueuedAt(run, u) == QueuedAt(prefix, u);
      }
    }
  }

  // ... and WakeupNext takes finished runners off it until it meets one that is not, which
  // it wakes: no other runner that is still queued was queued later.
  lemma NewestIsWoken(run: seq<Action>, s: State, t: Id)
    requires Exec(run) == Some(s) && t in s.calls && s.calls[t].pc.Waking?
    ensures var s' := ThreadStep(s, t);
            if s.queue == [] then s'.calls[t].pc == Leaving
            else
              var r := s.queue[0];
              && s'.queue == s.queue[1..] && r in s.calls
              && s'.calls[t].pc == (if s.calls[r].awakenings != 0 then Bumping(r) else Waking)
              && forall u :: u in s.queue && u != r ==> QueuedAt(run, u) < QueuedAt(run, r)
  {
    ExecKeepsInv(run);
    Pops(s, t);
    if s.queue != [] {
      FrontIsNewest(run, s);
    }
  }

  lemma Pops(s: State, t: Id)
    requires GlobalOk(s) && t in s.calls && s.calls[t].pc.Waking?
    ensures var s' := PopNext(s, t);
            if s.queue == [] then s'.calls[t].pc == Leaving
            else
              var r := s.queue[0];
              && s'.queue == s.queue[1..] && r in s.calls
              && s'.calls[t].pc == if Unfinished(s.calls[r]) then Bumping(r) else Waking
  {
    if s.queue != [] {
      assert s.queue[0] in s.queue;
    }
  }

  lemma FrontIsNewest(run: seq<Action>, s: State)
    requires Exec(run) == Some(s) && s.queue != []
    ensures forall u :: u in s.queue && u != s.queue[0] ==> QueuedAt(run, u) < QueuedAt(run, s.queue[0])
  {
    QueueIsNewestFirst(run);
  }
}

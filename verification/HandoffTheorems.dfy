/**
  What the hand-over guarantees in every reachable state of any number of calls, and
  exactly when it does not.
*/
module HandoffTheorems {
  import opened Options
  import opened ListModel
  import opened LoopHandoff
  import opened HandoffInvariant

  // `Running` is set exactly while one call is between setting and clearing it, so at most
  // one thread is ever inside uv_run; and at most one call works under RunMtx.
  lemma MutualExclusion(s: State)
    requires Reachable(s)
    ensures s.running <==> exists t :: t in s.calls && Owns(s.calls[t].pc)
    ensures forall t, u :: t in s.calls && u in s.calls && Owns(s.calls[t].pc) && Owns(s.calls[u].pc) ==> t == u
    ensures forall t, u :: t in s.calls && u in s.calls && Holds(s.calls[t].pc) && Holds(s.calls[u].pc) ==> t == u
  {
    ReachableInv(s);
    assert forall t :: t in s.calls ==> CallOk(s, t);
    if s.running {
      assert CallOk(s, s.owner.value);
    }
  }

  // Every queued runner is queued once and belongs to a call that is still waiting, so no
  // runner of a departed call is ever popped; a runner about to be woken or finished by
  // another thread belongs to a call that has not returned.
  lemma QueueMembership(s: State)
    requires Reachable(s)
    ensures Distinct(s.queue)
    ensures forall t :: t in s.queue ==> t in s.calls && Waits(s.calls[t].pc)
    ensures forall t {:trigger s.calls[t]} :: t in s.calls && (s.calls[t].pc.Bumping? || s.calls[t].pc.Finishing?) ==>
              var r := s.calls[t].pc.runner;
              r in s.calls && s.calls[r].pc != Done && Unfinished(s.calls[r])
  {
    ReachableInv(s);
    assert forall t :: t in s.calls ==> CallOk(s, t);
  }

  // An instruction outside the wakeup and finish protocols leaves every counter alone.
  lemma CountersStay(s: State, t: Id, u: Id)
    requires t in s.calls && CanStep(s, t) && u in s.calls
    requires !s.calls[t].pc.Bumping? && !s.calls[t].pc.Finishing?
    ensures ThreadStep(s, t).calls[u].awakenings == s.calls[u].awakenings
    ensures u != t ==> ThreadStep(s, t).calls[u] == s.calls[u]
  {
    if s.calls[t].pc.Held? {
      DecideKeepsCounters(s, t, u);
    } else if Holds(s.calls[t].pc) {
      LockedKeepsCounters(s, t, u);
    } else {
      UnlockedKeepsCounters(s, t, u);
    }
  }

  lemma DecideKeepsCounters(s: State, t: Id, u: Id)
    requires t in s.calls && CanStep(s, t) && u in s.calls
    requires s.calls[t].pc.Held?
    ensures ThreadStep(s, t).calls[u].awakenings == s.calls[u].awakenings
    ensures u != t ==> ThreadStep(s, t).calls[u] == s.calls[u]
  {
  }

  lemma LockedKeepsCounters(s: State, t: Id, u: Id)
    requires t in s.calls && CanStep(s, t) && u in s.calls
    requires Holds(s.calls[t].pc) && !s.calls[t].pc.Held? && !s.calls[t].pc.Bumping?
    ensures ThreadStep(s, t).calls[u].awakenings == s.calls[u].awakenings
    ensures u != t ==> ThreadStep(s, t).calls[u] == s.calls[u]
  {
  }

  lemma UnlockedKeepsCounters(s: State, t: Id, u: Id)
    requires t in s.calls && CanStep(s, t) && u in s.calls
    requires !Holds(s.calls[t].pc) && !s.calls[t].pc.Finishing?
    ensures ThreadStep(s, t).calls[u].awakenings == s.calls[u].awakenings
    ensures u != t ==> ThreadStep(s, t).calls[u] == s.calls[u]
  {
    if s.calls[t].pc.InUv? {
      assert ThreadStep(s, t) == UvReturn(s, t);
    } else {
      OnlyMoves(s, t);
    }
  }

  // Outside its critical sections and uv_run an instruction changes the call's place only.
  lemma OnlyMoves(s: State, t: Id)
    requires t in s.calls && CanStep(s, t)
    requires !Holds(s.calls[t].pc) && !s.calls[t].pc.Finishing? && !s.calls[t].pc.InUv?
    ensures exists pc :: ThreadStep(s, t).calls == s.At(t, pc).calls
  {
    match s.calls[t].pc
    case Test => assert ThreadStep(s, t) == s.At(t, if Unfinished(s.calls[t]) then Want else Done);
    case Want => assert ThreadStep(s, t).calls == s.At(t, Held).calls;
    case Back => assert ThreadStep(s, t).calls == s.At(t, Relocked).calls;
    case Relock => assert ThreadStep(s, t).calls == s.At(t, Erasing).calls;
    case Snap => assert ThreadStep(s, t) == s.At(t, if Unfinished(s.calls[t]) then Spin(s.calls[t].awakenings) else Relock);
    case Spin(_) => assert ThreadStep(s, t) == s.At(t, Relock);
  }

  // The two instructions that do change a counter: a wakeup finds it above zero.
  lemma WakeupAndFinish(s: State, t: Id, u: Id)
    requires Inv(s) && t in s.calls && CanStep(s, t) && u in s.calls
    requires s.calls[t].pc.Bumping? || s.calls[t].pc.Finishing?
    ensures var after := ThreadStep(s, t).calls[u].awakenings;
            after == 0 || (s.calls[u].awakenings != 0 && after >= s.calls[u].awakenings)
    ensures ThreadStep(s, t).calls[u].base == s.calls[u].base
    ensures ThreadStep(s, t).calls[u].pc == if u == t then ThreadStep(s, t).calls[t].pc else s.calls[u].pc
    ensures !ThreadStep(s, t).calls[t].pc.Spin?
  {
    Instances(s, t);
  }

  // `Awakenings` only grows until it becomes 0 and then stays 0.
  lemma AwakeningsGrow(s: State, a: Action, t: Id)
    requires Reachable(s) && Enabled(s, a) && t in s.calls
    ensures t in Next(s, a).calls
    ensures s.calls[t].awakenings == 0 ==> Next(s, a).calls[t].awakenings == 0
    ensures Next(s, a).calls[t].awakenings != 0 ==> Next(s, a).calls[t].awakenings >= s.calls[t].awakenings
  {
    ReachableInv(s);
    if a.Thread? {
      if s.calls[a.t].pc.Bumping? || s.calls[a.t].pc.Finishing? {
        WakeupAndFinish(s, a.t, t);
      } else {
        CountersStay(s, a.t, t);
      }
    }
  }

  // While nobody runs the loop and RunMtx is free, a non-empty queue means that some
  // unfinished runner was popped and woken and has not yet come back for RunMtx.
  // Such a runner can go on unless it slept through its wakeup.
  lemma BatonIsHeld(s: State)
    requires Reachable(s)
    requires !s.running && s.mutex.None? && s.queue != []
    ensures exists b :: HasBaton(s, b)
    ensures forall b :: HasBaton(s, b) ==> (CanStep(s, b) <==> !SleptThroughWakeup(s, b))
  {
    ReachableInv(s);
    assert HasBaton(s, s.baton.value);
    assert forall b :: HasBaton(s, b) ==> CallOk(s, b);
  }

  // How many instructions the holder of RunMtx needs at most until it unlocks.
  function LockRank(s: State, t: Id): nat
    requires t in s.calls
  {
    match s.calls[t].pc
    case Held | Relocked => 2 * |s.queue| + 4
    case Waking => 2 * |s.queue| + 3
    case Bumping(_) => 2 * |s.queue| + 2
    case Leaving | Erasing => 1
    case _ => 0
  }

  // Every critical section ends, the loop in WakeupNext included: each instruction of the
  // holder brings the end closer, and nobody else puts it off or takes RunMtx away.
  lemma CriticalSectionsEnd(s: State, a: Action, t: Id)
    requires Reachable(s) && Enabled(s, a) && s.mutex == Some(t)
    ensures t in s.calls && t in Next(s, a).calls
    ensures a == Thread(t) ==> LockRank(Next(s, a), t) < LockRank(s, t)
    ensures a != Thread(t) ==> LockRank(Next(s, a), t) == LockRank(s, t) && Next(s, a).mutex == Some(t)
  {
    ReachableInv(s);
    if a.Thread? {
      if a.t == t {
        HolderComesCloser(s, t);
      } else {
        OthersLeaveTheLock(s, a.t, t);
      }
    }
  }

  lemma HolderComesCloser(s: State, t: Id)
    requires Inv(s) && s.mutex == Some(t) && t in s.calls && CanStep(s, t)
    ensures LockRank(ThreadStep(s, t), t) < LockRank(s, t)
  {
    Instances(s, t);
  }

  lemma OthersLeaveTheLock(s: State, u: Id, t: Id)
    requires Inv(s) && u in s.calls && CanStep(s, u) && s.mutex == Some(t) && u != t
    ensures t in s.calls && ThreadStep(s, u).calls[t].pc == s.calls[t].pc
    ensures ThreadStep(s, u).queue == s.queue && ThreadStep(s, u).mutex == s.mutex
  {
    Instances(s, u);
  }

  // ---- lost wakeups ----------------------------------------------------------

  predicate InLoop(c: Call) { c.pc.InUv? || c.pc.Finishing? }

  // Nobody is inside uv_run and no call can go on.
  ghost predicate Stuck(s: State) {
    forall t {:trigger s.calls[t]} :: t in s.calls ==> !CanStep(s, t) && !InLoop(s.calls[t])
  }

  // This runner was popped and woken, and took its snapshot in Wait only after that: the
  // snapshot is one more than `Awakenings` was when the runner was queued.
  predicate SleptThroughWakeup(s: State, t: Id) {
    && t in s.calls && t !in s.queue && Unfinished(s.calls[t])
    && s.calls[t].pc == Spin(s.calls[t].base + 1)
  }

  // Whoever holds RunMtx can go on, and so can whoever runs the loop once RunMtx is free.
  lemma SomebodyCanGoOn(s: State)
    requires Inv(s)
    ensures s.mutex.Some? ==> s.mutex.value in s.calls && CanStep(s, s.mutex.value)
    ensures s.mutex.None? && s.running ==>
              && s.owner.Some? && s.owner.value in s.calls
              && (InLoop(s.calls[s.owner.value]) || CanStep(s, s.owner.value))
  {
    assert forall t :: t in s.calls ==> CallOk(s, t);
  }

  // A stuck loop has left RunMtx free, and a call is still waiting in it exactly when some
  // runner slept through its wakeup.
  lemma StrandedIffSleptThroughWakeup(s: State)
    requires Reachable(s) && Stuck(s)
    ensures s.mutex.None? && !s.running
    ensures forall t :: t in s.calls && s.calls[t].pc != Done ==> s.calls[t].pc.Spin? && Unfinished(s.calls[t])
    ensures (exists t :: t in s.calls && s.calls[t].pc != Done) <==> (exists t :: SleptThroughWakeup(s, t))
  {
    ReachableInv(s);
    assert forall t :: t in s.calls ==> CallOk(s, t);
    SomebodyCanGoOn(s);
    if t :| t in s.calls && s.calls[t].pc != Done {
      assert CallOk(s, t);
      if s.queue != [] {
        var b := s.baton.value;
        assert HasBaton(s, b) && CallOk(s, b);
        assert SleptThroughWakeup(s, b);
      } else {
        assert SleptThroughWakeup(s, t);
      }
    }
  }

  // The step in which a runner takes its snapshot after it was woken.
  predicate LateSnapshot(s: State, a: Action) {
    && a.Thread? && a.t in s.calls && s.calls[a.t].pc == Snap
    && Unfinished(s.calls[a.t]) && s.calls[a.t].awakenings != s.calls[a.t].base
  }

  // A run in which every snapshot is taken before the wakeup.
  ghost predicate Timely(run: seq<Action>) {
    forall i {:trigger run[..i]} :: 0 <= i < |run| && Exec(run[..i]).Some? ==> !LateSnapshot(Exec(run[..i]).value, run[i])
  }

  ghost predicate SnapshotsEarly(s: State) {
    forall t {:trigger s.calls[t]} :: t in s.calls ==> SnapshotEarly(s.calls[t])
  }

  predicate SnapshotEarly(c: Call) { c.pc.Spin? ==> c.pc.snapshot == c.base }

  // A call that takes its snapshot reads its own counter ...
  lemma OwnSnapshot(s: State, t: Id)
    requires t in s.calls && s.calls[t].pc == Snap
    ensures var c := TakeSnapshot(s, t).calls[t];
            c.base == s.calls[t].base && (c.pc.Spin? ==> c.pc.snapshot == s.calls[t].awakenings != 0)
  {
  }

  // ... and no other instruction takes one.
  lemma OnlySnapSnapshots(s: State, t: Id)
    requires t in s.calls && CanStep(s, t) && s.calls[t].pc != Snap
    ensures !ThreadStep(s, t).calls[t].pc.Spin?
  {
    match s.calls[t].pc
    case Held => DecidingTakesNoSnapshot(s, t);
    case Bumping(r) => WakingTakesNoSnapshot(s, t, r);
    case Finishing(r) => WakingTakesNoSnapshot(s, t, r);
    case Waking => PoppingTakesNoSnapshot(s, t);
    case InUv => assert ThreadStep(s, t) == UvReturn(s, t);
    case _ => LockingTakesNoSnapshot(s, t);
  }

  lemma PoppingTakesNoSnapshot(s: State, t: Id)
    requires t in s.calls && s.calls[t].pc.Waking?
    ensures !PopNext(s, t).calls[t].pc.Spin?
  {
  }

  lemma LockingTakesNoSnapshot(s: State, t: Id)
    requires t in s.calls && CanStep(s, t)
    requires var pc := s.calls[t].pc;
             pc.Test? || pc.Want? || pc.Back? || pc.Relocked? || pc.Leaving? || pc.Spin? || pc.Relock? || pc.Erasing?
    ensures !ThreadStep(s, t).calls[t].pc.Spin?
  {
  }

  lemma DecidingTakesNoSnapshot(s: State, t: Id)
    requires t in s.calls
    ensures !Decide(s, t).calls[t].pc.Spin?
  {
  }

  lemma WakingTakesNoSnapshot(s: State, t: Id, r: Id)
    requires t in s.calls
    ensures !Bump(s, t, r).calls[t].pc.Spin? && !StoreFinish(s, t, r).calls[t].pc.Spin?
  {
  }

  lemma SnapshotStaysEarly(s: State, t: Id, u: Id)
    requires Inv(s) && t in s.calls && CanStep(s, t) && u in s.calls
    requires SnapshotEarly(s.calls[u]) && !LateSnapshot(s, Thread(t))
    ensures SnapshotEarly(ThreadStep(s, t).calls[u])
  {
    if s.calls[t].pc.Bumping? || s.calls[t].pc.Finishing? {
      WakeupAndFinish(s, t, u);
    } else if u != t {
      CountersStay(s, t, u);
    } else if s.calls[t].pc == Snap {
      OwnSnapshot(s, t);
    } else {
      OnlySnapSnapshots(s, t);
    }
  }

  lemma SnapshotsStayEarly(s: State, a: Action)
    requires Inv(s) && SnapshotsEarly(s) && Enabled(s, a) && !LateSnapshot(s, a)
    ensures SnapshotsEarly(Next(s, a))
  {
    var s' := Next(s, a);
    forall u {:trigger s'.calls[u]} | u in s'.calls
      ensures SnapshotEarly(s'.calls[u])
    {
      if a.Thread? {
        SnapshotStaysEarly(s, a.t, u);
      }
    }
  }

  lemma {:induction false} TimelySnapshots(run: seq<Action>)
    requires Timely(run) && Exec(run).Some?
    ensures SnapshotsEarly(Exec(run).value)
  {
    if run != [] {
      var prefix := run[..|run| - 1];
      assert forall i :: 0 <= i < |prefix| ==> prefix[..i] == run[..i];
      TimelySnapshots(prefix);
      ExecKeepsInv(prefix);
      SnapshotsStayEarly(Exec(prefix).value, run[|run| - 1]);
    }
  }

  // In every run where snapshots precede wakeups nobody is stranded: once the loop is
  // stuck every call has returned.
  lemma TimelyRunsStrandNobody(run: seq<Action>, s: State)
    requires Timely(run) && Exec(run) == Some(s) && Stuck(s)
    ensures forall t :: t in s.calls ==> s.calls[t].pc == Done
  {
    TimelySnapshots(run);
    StrandedIffSleptThroughWakeup(s);
  }

  // ---- a sync_wait inside the loop past its own result ------------------------

  // A sync_wait is inside uv_run, has its result, and nothing asks uv_run to return.
  predicate Overstays(s: State, t: Id) {
    && t in s.calls && s.calls[t].kind == Steal && InLoop(s.calls[t])
    && !Unfinished(s.calls[t]) && !s.stopFlag
  }

  // Only a sync_wait to which uv_run once returned too early can overstay, and that takes
  // a user's `finish`; without one, a finished sync_wait inside uv_run is told to stop.
  lemma OverstayNeedsEarlyReturn(s: State, t: Id)
    requires Reachable(s) && Overstays(s, t)
    ensures s.calls[t].early && s.calls[t].late && s.userStop
  {
    ReachableInv(s);
    assert CallOk(s, t);
  }

  // The step that goes wrong: a sync_wait enters uv_run with its result in hand exactly
  // when it finished after an earlier, early return.
  lemma EntersFinishedIffReturnedEarly(s: State, t: Id)
    requires Reachable(s) && t in s.calls && s.calls[t].kind == Steal && s.calls[t].pc == Held && !s.running
    ensures var c := ThreadStep(s, t).calls[t];
            InLoop(c) && !Unfinished(c) <==> !Unfinished(s.calls[t]) && s.calls[t].early
  {
    ReachableInv(s);
    assert CallOk(s, t);
  }
}

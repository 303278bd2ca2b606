/**
  What every step of the loop's hand-over keeps. The invariant is split into one part
  per call, proved for one pair of calls at a time, and a part about the shared state.
*/
module HandoffInvariant {
  import opened Options
  import opened ListModel
  import opened LoopHandoff

  predicate Holds(pc: Pc) {
    pc.Held? || pc.Relocked? || pc.Waking? || pc.Bumping? || pc.Leaving? || pc.Erasing?
  }

  // In the section of RunLocked between setting and clearing Running.
  predicate Owns(pc: Pc) {
    pc.InUv? || pc.Finishing? || pc.Back? || pc.Relocked?
  }

  predicate Waits(pc: Pc) {
    pc.Snap? || pc.Spin? || pc.Relock? || pc.Erasing?
  }

  // The holder of RunMtx is at `pc`.
  predicate HolderAt(s: State, pc: Pc) {
    s.mutex.Some? && s.mutex.value in s.calls && s.calls[s.mutex.value].pc == pc
  }

  predicate LockOk(s: State, t: Id)
    requires t in s.calls
  {
    var c := s.calls[t];
    && (Holds(c.pc) <==> s.mutex == Some(t))
    && (Owns(c.pc) <==> s.owner == Some(t))
    && (c.pc.Waking? || c.pc.Bumping? || c.pc.Leaving? ==> !s.running)
    && (c.pc == Test ==> c.kind == Steal)
    && (c.kind != Steal ==> Unfinished(c) && !c.acq)
    && (t in s.queue ==> Waits(c.pc))
  }

  // A waiting runner that has not finished is queued, or about to be woken, or was woken
  // once since it was queued; so its snapshot tells whether it came before the wakeup.
  predicate WaitOk(s: State, t: Id)
    requires t in s.calls
  {
    var c := s.calls[t];
    var woken := t !in s.queue && !HolderAt(s, Bumping(t));
    && (Waits(c.pc) && Unfinished(c) ==> c.awakenings == if woken then c.base + 1 else c.base)
    && (c.pc.Spin? ==>
          && c.pc.snapshot != 0
          && (c.pc.snapshot == c.base || (c.pc.snapshot == c.base + 1 && woken)))
  }

  // Whoever works on another call's runner finds it alive and unfinished.
  predicate TargetOk(s: State, t: Id)
    requires t in s.calls
  {
    match s.calls[t].pc
    case Bumping(r) =>
      r in s.calls && r !in s.queue && Waits(s.calls[r].pc) && Unfinished(s.calls[r])
    case Finishing(r) =>
      && r in s.calls && s.calls[r].kind == Steal && Unfinished(s.calls[r]) && s.calls[r].pc != Done
      && (s.calls[r].acq ==> s.stopFlag)
    case _ => true
  }

  // Where a sync_wait can be once it has acquired the loop.
  predicate AcquiredOk(s: State, t: Id)
    requires t in s.calls
  {
    var c := s.calls[t];
    var inside := c.pc.InUv? || c.pc.Finishing?;
    && (c.kind == Steal && Owns(c.pc) ==> c.acq)
    && (c.late ==> c.early) && (c.early ==> c.acq)
    && (c.acq && !c.early && !inside ==>
          && !Unfinished(c)
          && (Owns(c.pc) || c.pc.Waking? || c.pc.Bumping? || c.pc.Leaving? || c.pc.Test? || c.pc.Done?))
    && (c.kind == Steal && inside && !Unfinished(c) && !c.late ==> s.stopFlag)
    && (c.kind == Steal && c.pc == Done ==> !Unfinished(c))
    && (!s.userStop ==> !c.early)
  }

  predicate CallOk(s: State, t: Id)
    requires t in s.calls
  {
    LockOk(s, t) && WaitOk(s, t) && TargetOk(s, t) && AcquiredOk(s, t)
  }

  // The baton is with a runner that was popped and woken and has not locked RunMtx at the
  // top of its loop since.
  predicate HasBaton(s: State, b: Id) {
    && b in s.calls && b !in s.queue
    && Unfinished(s.calls[b]) && s.calls[b].awakenings == s.calls[b].base + 1
    && (Waits(s.calls[b].pc) || s.calls[b].pc == Test || s.calls[b].pc == Want)
  }

  predicate BatonOk(s: State) {
    !s.running && s.queue != [] && (s.mutex.None? || HolderAt(s, Erasing) || HolderAt(s, Leaving)) ==>
      s.baton.Some? && HasBaton(s, s.baton.value)
  }

  // Without a user's `finish`, the stop flag is only ever raised for the sync_wait that is
  // inside uv_run itself.
  predicate StopOk(s: State) {
    s.stopFlag && !s.userStop ==>
      && s.owner.Some? && s.owner.value in s.calls
      && var o := s.calls[s.owner.value];
         && o.kind == Steal && (o.pc.InUv? || o.pc.Finishing?)
         && (Unfinished(o) ==> o.pc == Finishing(s.owner.value))
  }

  ghost predicate GlobalOk(s: State) {
    && (s.mutex.Some? ==> s.mutex.value in s.calls)
    && (s.owner.Some? ==> s.owner.value in s.calls)
    && (s.running <==> s.owner.Some?)
    && Distinct(s.queue) && (forall t :: t in s.queue ==> t in s.calls)
    && BatonOk(s) && StopOk(s)
  }

  ghost predicate Inv(s: State) {
    GlobalOk(s) && forall t {:trigger CallOk(s, t)} :: t in s.calls ==> CallOk(s, t)
  }

  // The calls a call's invariant talks about: itself, its target, the lock holder, the owner.
  lemma Instances(s: State, t: Id)
    requires Inv(s) && t in s.calls
    ensures CallOk(s, t)
    ensures s.calls[t].pc.Bumping? || s.calls[t].pc.Finishing? ==>
              s.calls[t].pc.runner in s.calls && CallOk(s, s.calls[t].pc.runner)
    ensures s.mutex.Some? ==> s.mutex.value in s.calls && CallOk(s, s.mutex.value)
    ensures s.owner.Some? ==> s.owner.value in s.calls && CallOk(s, s.owner.value)
  {
  }

  lemma RemoveOne(q: seq<Id>, t: Id, u: Id)
    requires Distinct(q)
    ensures Distinct(Remove(q, t)) && (u in Remove(q, t) <==> u in q && u != t)
  {
    RemoveMeaning(q, t);
  }

  lemma PopOne(q: seq<Id>, u: Id)
    requires Distinct(q) && q != []
    ensures Distinct(q[1..]) && (u in q[1..] <==> u in q && u != q[0])
  {
  }

  // Each instruction keeps what the invariant says of any one call `u` ...

  lemma LockingKeepsCall(s: State, t: Id, u: Id)
    requires Inv(s) && t in s.calls && CanStep(s, t) && u in s.calls
    requires s.calls[t].pc.Want? || s.calls[t].pc.Back? || s.calls[t].pc.Relock?
    ensures u in ThreadStep(s, t).calls && CallOk(ThreadStep(s, t), u)
  {
    Instances(s, t);
    Instances(s, u);
  }

  lemma TestingKeepsCall(s: State, t: Id, u: Id)
    requires Inv(s) && t in s.calls && CanStep(s, t) && u in s.calls
    requires s.calls[t].pc.Test?
    ensures u in ThreadStep(s, t).calls && CallOk(ThreadStep(s, t), u)
  {
    Instances(s, t);
    Instances(s, u);
  }

  lemma SnapshotKeepsCall(s: State, t: Id, u: Id)
    requires Inv(s) && t in s.calls && CanStep(s, t) && u in s.calls
    requires s.calls[t].pc.Snap?
    ensures u in ThreadStep(s, t).calls && CallOk(ThreadStep(s, t), u)
  {
    Instances(s, t);
    Instances(s, u);
  }

  lemma AwakeKeepsCall(s: State, t: Id, u: Id)
    requires Inv(s) && t in s.calls && CanStep(s, t) && u in s.calls
    requires s.calls[t].pc.Spin?
    ensures u in ThreadStep(s, t).calls && CallOk(ThreadStep(s, t), u)
  {
    Instances(s, t);
    Instances(s, u);
  }

  lemma UvKeepsCall(s: State, t: Id, u: Id)
    requires Inv(s) && t in s.calls && CanStep(s, t) && u in s.calls
    requires s.calls[t].pc.InUv? || s.calls[t].pc.Relocked?
    ensures u in ThreadStep(s, t).calls && CallOk(ThreadStep(s, t), u)
  {
    Instances(s, t);
    Instances(s, u);
  }

  lemma FinishKeepsCall(s: State, t: Id, u: Id)
    requires Inv(s) && t in s.calls && CanStep(s, t) && u in s.calls
    requires s.calls[t].pc.Finishing?
    ensures u in ThreadStep(s, t).calls && CallOk(ThreadStep(s, t), u)
  {
    Instances(s, t);
    Instances(s, u);
  }

  lemma QueueingKeepsCall(s: State, t: Id, u: Id)
    requires Inv(s) && t in s.calls && CanStep(s, t) && u in s.calls
    requires s.calls[t].pc.Held? && s.running
    ensures u in ThreadStep(s, t).calls && CallOk(ThreadStep(s, t), u)
  {
    Instances(s, t);
    Instances(s, u);
  }

  lemma EnteringKeepsCall(s: State, t: Id, u: Id)
    requires Inv(s) && t in s.calls && CanStep(s, t) && u in s.calls
    requires s.calls[t].pc.Held? && !s.running && s.calls[t].kind == Steal && (s.calls[t].acq || Unfinished(s.calls[t]))
    ensures u in ThreadStep(s, t).calls && CallOk(ThreadStep(s, t), u)
  {
    Instances(s, t);
    Instances(s, u);
  }

  lemma DecidingKeepsCall(s: State, t: Id, u: Id)
    requires Inv(s) && t in s.calls && CanStep(s, t) && u in s.calls
    requires s.calls[t].pc.Held? && !s.running && (s.calls[t].kind == Steal ==> !(s.calls[t].acq || Unfinished(s.calls[t])))
    ensures u in ThreadStep(s, t).calls && CallOk(ThreadStep(s, t), u)
  {
    Instances(s, t);
    Instances(s, u);
  }

  lemma PoppingKeepsCall(s: State, t: Id, u: Id)
    requires Inv(s) && t in s.calls && CanStep(s, t) && u in s.calls
    requires s.calls[t].pc.Waking? && s.queue != [] && s.queue[0] in s.calls && Unfinished(s.calls[s.queue[0]])
    ensures u in ThreadStep(s, t).calls && CallOk(ThreadStep(s, t), u)
  {
    var r := s.queue[0];
    assert r in s.queue;
    Instances(s, t);
    Instances(s, u);
    Instances(s, r);
    PopOne(s.queue, u);
    PopOne(s.queue, r);
  }

  lemma SkippingKeepsCall(s: State, t: Id, u: Id)
    requires Inv(s) && t in s.calls && CanStep(s, t) && u in s.calls
    requires s.calls[t].pc.Waking? && s.queue != [] && s.queue[0] in s.calls && !Unfinished(s.calls[s.queue[0]])
    ensures u in ThreadStep(s, t).calls && CallOk(ThreadStep(s, t), u)
  {
    var r := s.queue[0];
    assert r in s.queue;
    Instances(s, t);
    Instances(s, u);
    Instances(s, r);
    PopOne(s.queue, u);
    PopOne(s.queue, r);
  }

  lemma ExhaustedKeepsCall(s: State, t: Id, u: Id)
    requires Inv(s) && t in s.calls && CanStep(s, t) && u in s.calls
    requires s.calls[t].pc.Waking? && s.queue == []
    ensures u in ThreadStep(s, t).calls && CallOk(ThreadStep(s, t), u)
  {
    Instances(s, t);
    Instances(s, u);
  }

  lemma PassingKeepsCall(s: State, t: Id, u: Id)
    requires Inv(s) && t in s.calls && CanStep(s, t) && u in s.calls
    requires s.calls[t].pc.Bumping? || s.calls[t].pc.Leaving?
    ensures u in ThreadStep(s, t).calls && CallOk(ThreadStep(s, t), u)
  {
    Instances(s, t);
    Instances(s, u);
  }

  lemma ErasingKeepsCall(s: State, t: Id, u: Id)
    requires Inv(s) && t in s.calls && CanStep(s, t) && u in s.calls
    requires s.calls[t].pc.Erasing?
    ensures u in ThreadStep(s, t).calls && CallOk(ThreadStep(s, t), u)
  {
    Instances(s, t);
    Instances(s, u);
    RemoveOne(s.queue, t, u);
  }

  lemma ThreadKeepsCall(s: State, t: Id, u: Id)
    requires Inv(s) && t in s.calls && CanStep(s, t) && u in s.calls
    ensures u in ThreadStep(s, t).calls && CallOk(ThreadStep(s, t), u)
  {
    match s.calls[t].pc
    case Want | Back | Relock => LockingKeepsCall(s, t, u);
    case Test => TestingKeepsCall(s, t, u);
    case Snap => SnapshotKeepsCall(s, t, u);
    case Spin(_) => AwakeKeepsCall(s, t, u);
    case InUv | Relocked => UvKeepsCall(s, t, u);
    case Finishing(_) => FinishKeepsCall(s, t, u);
    case Held =>
      if s.running {
        QueueingKeepsCall(s, t, u);
      } else if s.calls[t].kind == Steal && (s.calls[t].acq || Unfinished(s.calls[t])) {
        EnteringKeepsCall(s, t, u);
      } else {
        DecidingKeepsCall(s, t, u);
      }
    case Waking =>
      if s.queue == [] {
        ExhaustedKeepsCall(s, t, u);
      } else {
        assert s.queue[0] in s.queue;
        if Unfinished(s.calls[s.queue[0]]) { PoppingKeepsCall(s, t, u); } else { SkippingKeepsCall(s, t, u); }
      }
    case Bumping(_) | Leaving => PassingKeepsCall(s, t, u);
    case Erasing => ErasingKeepsCall(s, t, u);
  }

  // ... and what it says of the mutex, the queue, the baton and the stop flag.

  lemma LockingKeepsGlobal(s: State, t: Id)
    requires Inv(s) && t in s.calls && CanStep(s, t)
    requires s.calls[t].pc.Want? || s.calls[t].pc.Back? || s.calls[t].pc.Relock?
    ensures GlobalOk(ThreadStep(s, t))
  {
    Instances(s, t);
  }

  lemma LocalKeepsGlobal(s: State, t: Id)
    requires Inv(s) && t in s.calls && CanStep(s, t)
    requires s.calls[t].pc.Test? || s.calls[t].pc.Snap? || s.calls[t].pc.Spin?
    ensures GlobalOk(ThreadStep(s, t))
  {
    Instances(s, t);
  }

  lemma UvKeepsGlobal(s: State, t: Id)
    requires Inv(s) && t in s.calls && CanStep(s, t)
    requires s.calls[t].pc.InUv? || s.calls[t].pc.Finishing? || s.calls[t].pc.Relocked?
    ensures GlobalOk(ThreadStep(s, t))
  {
    Instances(s, t);
  }

  lemma DecideKeepsGlobal(s: State, t: Id)
    requires Inv(s) && t in s.calls && CanStep(s, t)
    requires s.calls[t].pc.Held?
    ensures GlobalOk(ThreadStep(s, t))
  {
    Instances(s, t);
  }

  lemma WakeupKeepsGlobal(s: State, t: Id)
    requires Inv(s) && t in s.calls && CanStep(s, t)
    requires s.calls[t].pc.Waking? || s.calls[t].pc.Bumping? || s.calls[t].pc.Leaving?
    ensures GlobalOk(ThreadStep(s, t))
  {
    if s.calls[t].pc.Waking? {
      PoppingKeepsGlobal(s, t);
    } else {
      Instances(s, t);
    }
  }

  lemma PoppingKeepsGlobal(s: State, t: Id)
    requires Inv(s) && t in s.calls && s.calls[t].pc.Waking?
    ensures GlobalOk(PopNext(s, t))
  {
    Instances(s, t);
  }

  lemma ErasingKeepsGlobal(s: State, t: Id)
    requires Inv(s) && t in s.calls && s.calls[t].pc.Erasing?
    ensures GlobalOk(ThreadStep(s, t))
  {
    Instances(s, t);
    RemoveMeaning(s.queue, t);
  }

  lemma ThreadKeepsInv(s: State, t: Id)
    requires Inv(s) && t in s.calls && CanStep(s, t)
    ensures Inv(ThreadStep(s, t))
  {
    forall u | u in ThreadStep(s, t).calls
      ensures CallOk(ThreadStep(s, t), u)
    {
      ThreadKeepsCall(s, t, u);
    }
    match s.calls[t].pc
    case Want | Back | Relock => LockingKeepsGlobal(s, t);
    case Test | Snap | Spin(_) => LocalKeepsGlobal(s, t);
    case InUv | Finishing(_) | Relocked => UvKeepsGlobal(s, t);
    case Held => DecideKeepsGlobal(s, t);
    case Waking | Bumping(_) | Leaving => WakeupKeepsGlobal(s, t);
    case Erasing => ErasingKeepsGlobal(s, t);
  }

  lemma SpawnKeepsCall(s: State, a: Action, u: Id)
    requires Inv(s) && a.Spawn? && Enabled(s, a) && u in Next(s, a).calls
    ensures CallOk(Next(s, a), u)
  {
    if u != a.t {
      Instances(s, u);
    }
  }

  lemma CompleteKeepsCall(s: State, a: Action, u: Id)
    requires Inv(s) && a.Complete? && Enabled(s, a) && u in s.calls
    ensures CallOk(Next(s, a), u)
  {
    Instances(s, a.t);
    Instances(s, a.runner);
    Instances(s, u);
  }

  lemma NextKeepsInv(s: State, a: Action)
    requires Inv(s) && Enabled(s, a)
    ensures Inv(Next(s, a))
  {
    match a
    case Thread(t) =>
      ThreadKeepsInv(s, t);
    case Spawn(_, _, _) =>
      forall u | u in Next(s, a).calls ensures CallOk(Next(s, a), u) {
        SpawnKeepsCall(s, a, u);
      }
    case Complete(t, r) =>
      Instances(s, t);
      Instances(s, r);
      forall u | u in Next(s, a).calls ensures CallOk(Next(s, a), u) {
        CompleteKeepsCall(s, a, u);
      }
    case UserFinish =>
      forall u | u in Next(s, a).calls ensures CallOk(Next(s, a), u) {
        Instances(s, u);
      }
  }

  lemma {:induction false} ExecKeepsInv(run: seq<Action>)
    requires Exec(run).Some?
    ensures Inv(Exec(run).value)
  {
    if run != [] {
      ExecKeepsInv(run[..|run| - 1]);
      NextKeepsInv(Exec(run[..|run| - 1]).value, run[|run| - 1]);
    }
  }

  lemma ReachableInv(s: State)
    requires Reachable(s)
    ensures Inv(s)
  {
    var run :| Exec(run) == Some(s);
    ExecKeepsInv(run);
  }
}

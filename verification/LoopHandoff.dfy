/**
  The hand-over of one libuv loop between any number of calls of `run`, `run_once`,
  `drain` and `sync_wait`. A call owns one runner, so both carry the same number.
  One step is one access to an atomic or one mutex action; what the mutex protects
  is read and written in the step next to it.
*/
module LoopHandoff {
  import opened Options
  import opened ListModel

  type Id = nat

  // `run` blocks in libuv until stopped; `run_once` and `drain` may also return by
  // themselves; a `sync_wait` goes through RunnerSteal.
  datatype Kind = Run | RunBounded | Steal

  datatype Pc =
    | Test                     // about to evaluate `!runner.Finished()`
    | Want                     // about to lock RunMtx
    | Held                     // holds RunMtx, about to read Running
    | InUv                     // inside uv_run
    | Finishing(runner: Id)    // inside uv_run, between the two halves of that sync_wait's wakeup
    | Back                     // uv_run returned, about to lock RunMtx again
    | Relocked                 // holds RunMtx, about to clear Running
    | Waking                   // holds RunMtx, at the top of the loop in WakeupNext
    | Bumping(runner: Id)      // holds RunMtx, popped an unfinished runner, about to wake it
    | Leaving                  // holds RunMtx, about to unlock and leave the branch
    | Snap                     // queued and unlocked, about to take the snapshot in Wait
    | Spin(snapshot: nat)      // waiting for Awakenings to differ from the snapshot
    | Relock                   // Wait returned, about to lock RunMtx
    | Erasing                  // holds RunMtx, about to erase its runner from the queue
    | Done

  // `awakenings` and `acq` are the runner's fields. The rest is history: `base` is the
  // value of `awakenings` when the runner was last queued; `early` says that uv_run
  // once returned to this sync_wait before it finished; `late` that it entered uv_run
  // although it had finished.
  datatype Call = Call(kind: Kind, pc: Pc, awakenings: nat, acq: bool,
                       base: nat, early: bool, late: bool)

  // History: `owner` is the call in the unlocked section of RunLocked, `baton` the
  // runner that was woken last, `userStop` whether the user ever called `finish`.
  datatype State = State(calls: map<Id, Call>, mutex: Option<Id>, running: bool,
                         queue: seq<Id>, stopFlag: bool,
                         owner: Option<Id>, baton: Option<Id>, userStop: bool)
  {
    function With(t: Id, c: Call): State {
      this.(calls := calls[t := c])
    }

    function At(t: Id, pc: Pc): State
      requires t in calls
    {
      With(t, calls[t].(pc := pc))
    }
  }

  const Initial := State(map[], None, false, [], false, None, None, false)

  datatype Action =
    | Spawn(t: Id, kind: Kind, inlined: bool)   // a call starts; `inlined`: its sender completed in `start`
    | Thread(t: Id)                             // the call's own next instruction
    | Complete(t: Id, runner: Id)               // in uv_run, the sender of that sync_wait completes
    | UserFinish                                // the user calls TLoop::finish

  // ---- steps ---------------------------------------------------------------

  predicate Unfinished(c: Call) { c.awakenings != 0 }

  // The call can execute its own next instruction.
  predicate CanStep(s: State, t: Id)
    requires t in s.calls
  {
    match s.calls[t].pc
    case Want | Back | Relock => s.mutex.None?
    case InUv => s.stopFlag || s.calls[t].kind == RunBounded
    case Spin(w) => s.calls[t].awakenings != w
    case Done => false
    case _ => true
  }

  function AfterBranch(kind: Kind): Pc { if kind == Steal then Test else Done }

  function LoopTop(kind: Kind): Pc { if kind == Steal then Test else Want }

  // With RunMtx held and Running false, RunLocked is entered ...
  function Enter(s: State, t: Id): State
    requires t in s.calls
  {
    s.At(t, InUv).(running := true, mutex := None, owner := Some(t))
  }

  // ... by `run` and its siblings at once, by RunnerSteal if AcquireIfNotFinished agrees.
  function Decide(s: State, t: Id): State
    requires t in s.calls
  {
    var c := s.calls[t];
    if s.running then
      s.With(t, c.(pc := Snap, base := c.awakenings)).(queue := AddFront(s.queue, t), mutex := None)
    else if c.kind != Steal then
      Enter(s, t)
    else
      var acquired := c.acq || Unfinished(c);
      if acquired then
        Enter(s.With(t, c.(acq := true, late := c.late || !Unfinished(c))), t)
      else
        s.At(t, Waking)
  }

  function PopNext(s: State, t: Id): State
    requires t in s.calls
  {
    if s.queue == [] then s.At(t, Leaving)
    else
      var r := s.queue[0];
      var popped := s.(queue := s.queue[1..]);
      if r in s.calls && Unfinished(s.calls[r]) then popped.At(t, Bumping(r)) else popped
  }

  function Bump(s: State, t: Id, r: Id): State
    requires t in s.calls
  {
    (if r in s.calls then s.With(r, s.calls[r].(awakenings := s.calls[r].awakenings + 1)) else s)
    .At(t, Leaving).(baton := Some(r))
  }

  function StoreFinish(s: State, t: Id, r: Id): State
    requires t in s.calls
  {
    (if r in s.calls then s.With(r, s.calls[r].(awakenings := 0)) else s).At(t, InUv)
  }

  function UvReturn(s: State, t: Id): State
    requires t in s.calls
  {
    var c := s.calls[t];
    s.With(t, c.(pc := Back, early := c.early || (c.kind == Steal && Unfinished(c)))).(stopFlag := false)
  }

  function TestFinished(s: State, t: Id): State
    requires t in s.calls
  {
    s.At(t, if Unfinished(s.calls[t]) then Want else Done)
  }

  function LockMutex(s: State, t: Id, pc: Pc): State
    requires t in s.calls
  {
    s.At(t, pc).(mutex := Some(t))
  }

  function ClearRunning(s: State, t: Id): State
    requires t in s.calls
  {
    s.At(t, Waking).(running := false, owner := None)
  }

  function Unlock(s: State, t: Id): State
    requires t in s.calls
  {
    s.At(t, AfterBranch(s.calls[t].kind)).(mutex := None)
  }

  function TakeSnapshot(s: State, t: Id): State
    requires t in s.calls
  {
    s.At(t, if Unfinished(s.calls[t]) then Spin(s.calls[t].awakenings) else Relock)
  }

  function EraseSelf(s: State, t: Id): State
    requires t in s.calls
  {
    s.At(t, LoopTop(s.calls[t].kind)).(queue := Remove(s.queue, t), mutex := None)
  }

  function ThreadStep(s: State, t: Id): (s': State)
    requires t in s.calls && CanStep(s, t)
    ensures s'.calls.Keys == s.calls.Keys
  {
    match s.calls[t].pc
    case Test => TestFinished(s, t)
    case Want => LockMutex(s, t, Held)
    case Held => Decide(s, t)
    case InUv => UvReturn(s, t)
    case Finishing(r) => StoreFinish(s, t, r)
    case Back => LockMutex(s, t, Relocked)
    case Relocked => ClearRunning(s, t)
    case Waking => PopNext(s, t)
    case Bumping(r) => Bump(s, t, r)
    case Leaving => Unlock(s, t)
    case Snap => TakeSnapshot(s, t)
    case Spin(_) => s.At(t, Relock)
    case Relock => LockMutex(s, t, Erasing)
    case Erasing => EraseSelf(s, t)
  }

  predicate Enabled(s: State, a: Action) {
    match a
    case Spawn(t, kind, inlined) => t !in s.calls && (inlined ==> kind == Steal)
    case Thread(t) => t in s.calls && CanStep(s, t)
    case Complete(t, r) =>
      && t in s.calls && s.calls[t].pc == InUv
      && r in s.calls && s.calls[r].kind == Steal && Unfinished(s.calls[r])
    case UserFinish => true
  }

  function Next(s: State, a: Action): State
    requires Enabled(s, a)
  {
    match a
    case Spawn(t, kind, inlined) =>
      s.With(t, Call(kind, LoopTop(kind), if inlined then 0 else 1, false, 1, false, false))
    case Thread(t) => ThreadStep(s, t)
    case Complete(t, r) => s.At(t, Finishing(r)).(stopFlag := s.stopFlag || s.calls[r].acq)
    case UserFinish => s.(stopFlag := true, userStop := true)
  }

  // The state after a run, or None if the run takes a step that was not possible.
  function Exec(run: seq<Action>): Option<State> {
    if run == [] then Some(Initial)
    else
      var before := Exec(run[..|run| - 1]);
      var a := run[|run| - 1];
      if before.Some? && Enabled(before.value, a) then Some(Next(before.value, a)) else None
  }

  ghost predicate Reachable(s: State) {
    exists run :: Exec(run) == Some(s)
  }
}

/**
  The two machines put together: any number of cancellable operations whose stop
  callbacks push their stop operations on the one list of scheduled operations, next to
  whatever else is scheduled there. Nothing about the list is assumed of the stop
  operations here: that they keep its rules is what is proved.
*/
module StopScheduling {
  import opened Options
  import Q = OperationQueue
  import O = OneShot
  import T = OneShotTheorems

  // A cancellable operation is named by the address of its stop operation. History:
  // `owner` tells for which one a thread is inside Schedule.
  datatype World = World(queue: Q.State, shots: map<Q.Op, O.State>, owner: map<nat, Q.Op>)

  const Empty := World(Q.Initial, map[], map[])

  datatype Action =
    | Create(op: Q.Op, kind: O.Kind)
    | Race(op: Q.Op, step: O.Action)      // a step that does not concern the list
    | Win(p: nat, op: Q.Op)               // on thread `p` the stop callback takes the latch and enters Schedule
    | Push(p: nat, spurious: bool)        // a step of a thread inside Schedule
    | Loop                                // a step of the loop thread in ApplyOperations
    | Destroy(op: Q.Op)                   // a completed operation's life ends, an accept's after its Setup
    | Other(client: Q.Action)              // other operations and the async callback

  // What the list asks of its clients. `Win` and `Destroy` do not test it.
  ghost predicate Foreign(w: World, a: Q.Action) {
    match a
    case Alloc(op) => true
    case Free(op) => op !in w.shots
    case Schedule(p, op) => op !in w.shots
    case Callback => true
    case _ => false
  }

  ghost predicate Enabled(w: World, a: Action) {
    match a
    case Create(op, _) => op !in w.queue.next && op !in w.shots
    case Race(op, b) =>
      && op in w.shots && O.Enabled(w.shots[op], b) && !b.Drain?
      && (b.Callback? ==> w.shots[op].cb.Entered? && w.shots[op].latch.used)
    case Win(p, op) =>
      op in w.shots && w.shots[op].cb.Entered? && !w.shots[op].latch.used && p !in w.queue.pushers
    case Push(p, _) => p in w.queue.pushers
    case Loop =>
      && !w.queue.loop.Idle?
      && (Applied(w).Some? && Applied(w).value in w.shots ==> w.shots[Applied(w).value].lp.Ready?)
    case Destroy(op) =>
      op in w.shots && O.Completed(w.shots[op]) && w.shots[op].lp.Ready? && !O.Running(w.shots[op].cb)
    case Other(b) => Foreign(w, b) && Q.Enabled(w.queue, b)
  }

  // The operation whose Apply the loop thread is about to call, if any.
  function Applied(w: World): Option<Q.Op> {
    if w.queue.loop.Walking? && w.queue.loop.cur != Q.Null then Some(w.queue.loop.cur.op) else None
  }

  // The compare-and-swap of thread `p` is about to succeed.
  predicate Swaps(q: Q.State, p: nat, spurious: bool) {
    p in q.pushers && q.pushers[p].Swapping? && q.head == q.pushers[p].top && !spurious
  }

  function PushStep(w: World, p: nat, spurious: bool): World
    requires p in w.queue.pushers
  {
    var queue := Q.PushStep(w.queue, p, spurious);
    var mine := p in w.owner && w.owner[p] in w.shots;
    if mine && (Swaps(w.queue, p, spurious) || w.queue.pushers[p].Firing?) then
      World(queue, w.shots[w.owner[p] := O.CallbackStep(w.shots[w.owner[p]])],
            if w.queue.pushers[p].Firing? then w.owner - {p} else w.owner)
    else w.(queue := queue)
  }

  function Next(w: World, a: Action): World
    requires Enabled(w, a)
  {
    match a
    case Create(op, kind) =>
      w.(queue := Q.Next(w.queue, Q.Alloc(op)), shots := w.shots[op := O.Initial(kind)])
    case Race(op, b) => w.(shots := w.shots[op := O.Next(w.shots[op], b)])
    case Win(p, op) =>
      World(w.queue.(pushers := w.queue.pushers[p := Q.Loading(op)]),
            w.shots[op := O.CallbackStep(w.shots[op])], w.owner[p := op])
    case Push(p, spurious) => PushStep(w, p, spurious)
    case Loop =>
      var w' := w.(queue := Q.LoopStep(w.queue));
      if Applied(w).Some? && Applied(w).value in w.shots
      then w'.(shots := w.shots[Applied(w).value := O.DrainStep(w.shots[Applied(w).value])])
      else w'
    case Destroy(op) => w.(queue := w.queue.(next := w.queue.next - {op}), shots := w.shots - {op})
    case Other(b) =>
      var w' := w.(queue := Q.Next(w.queue, b));
      if b.Schedule? then w'.(owner := w.owner - {b.p}) else w'
  }

  ghost function Exec(run: seq<Action>): Option<World> {
    if run == [] then Some(Empty)
    else
      var before := Exec(run[..|run| - 1]);
      var a := run[|run| - 1];
      if before.Some? && Enabled(before.value, a) then Some(Next(before.value, a)) else None
  }

  ghost predicate Reachable(w: World) {
    exists run :: Exec(run) == Some(w)
  }

  // ---- the invariant -----------------------------------------------------------

  // Scheduled and not yet applied.
  ghost predicate InList(q: Q.State, op: Q.Op) {
    !Q.NotIn(q.pushed, |q.applied|, op)
  }

  ghost predicate ShotOk(w: World, op: Q.Op)
    requires op in w.shots
  {
    && O.Reachable(w.shots[op]) && op in w.queue.next
    && (InList(w.queue, op) <==> w.shots[op].linked)
  }

  // A thread inside Schedule works for a stop callback that is just as far, or for nobody
  // of ours.
  ghost predicate PusherOk(w: World, p: nat)
    requires p in w.queue.pushers
  {
    var pusher := w.queue.pushers[p];
    if p in w.owner then
      && w.owner[p] in w.shots
      && (if pusher.Firing? then w.shots[w.owner[p]].cb.MustFire?
          else pusher.op == w.owner[p] && w.shots[w.owner[p]].cb.MustPush?)
      && forall q {:trigger w.owner[q]} :: q in w.queue.pushers && q in w.owner && q != p ==> w.owner[q] != w.owner[p]
    else
      pusher.Firing? || pusher.op !in w.shots
  }

  // ... and every stop callback that must push or fire has its thread there.
  ghost predicate HasPusher(w: World, op: Q.Op) {
    exists p {:trigger w.owner[p]} :: p in w.queue.pushers && p in w.owner && w.owner[p] == op
  }

  predicate Pushing(w: World, op: Q.Op) {
    op in w.shots && (w.shots[op].cb.MustPush? || w.shots[op].cb.MustFire?)
  }

  ghost predicate ShotsOk(w: World) {
    forall op {:trigger ShotOk(w, op)} :: op in w.shots ==> ShotOk(w, op)
  }

  ghost predicate PushersOk(w: World) {
    forall p {:trigger PusherOk(w, p)} :: p in w.queue.pushers ==> PusherOk(w, p)
  }

  ghost predicate CallbacksOk(w: World) {
    forall op {:trigger HasPusher(w, op)} :: Pushing(w, op) ==> HasPusher(w, op)
  }

  ghost predicate Inv(w: World) {
    Q.Inv(w.queue) && ShotsOk(w) && PushersOk(w) && CallbacksOk(w)
  }

  // A step that takes no thread out of Schedule leaves every callback its thread.
  lemma CallbacksFrame(w: World, w': World)
    requires CallbacksOk(w)
    requires forall op :: Pushing(w', op) ==> Pushing(w, op)
    requires forall p {:trigger w.owner[p]} :: p in w.queue.pushers && p in w.owner ==>
               p in w'.queue.pushers && p in w'.owner && w'.owner[p] == w.owner[p]
    ensures CallbacksOk(w')
  {
    forall op | Pushing(w', op) ensures HasPusher(w', op) {
      assert HasPusher(w, op);
      var p :| p in w.queue.pushers && p in w.owner && w.owner[p] == op;
      assert w'.owner[p] == op;
    }
  }

  lemma ListedAreAlive(q: Q.State, op: Q.Op)
    requires Q.Inv(q) && InList(q, op)
    ensures op in q.next
  {
    var i :| |q.applied| <= i < |q.pushed| && q.pushed[i] == op;
    assert q.pushed[i] in q.next;
  }

  // The operation is neither scheduled nor on its way there.
  lemma NotUnderway(w: World, op: Q.Op)
    requires Inv(w) && op in w.shots && !w.shots[op].linked
    requires !w.shots[op].cb.MustPush? && !w.shots[op].cb.MustFire?
    ensures Q.Unlinked(w.queue, op)
    ensures forall p {:trigger w.owner[p]} :: p in w.queue.pushers && p in w.owner ==> w.owner[p] != op
  {
    assert ShotOk(w, op);
    forall p {:trigger w.queue.pushers[p]} | p in w.queue.pushers
      ensures !Q.Pushes(w.queue.pushers[p], op) && (p in w.owner ==> w.owner[p] != op)
    {
      assert PusherOk(w, p);
    }
  }

  lemma CreateKeepsInv(w: World, a: Action)
    requires Inv(w) && Enabled(w, a) && a.Create?
    ensures Inv(Next(w, a))
  {
    var w' := Next(w, a);
    Q.NextKeepsInv(w.queue, Q.Alloc(a.op));
    assert O.Exec(a.kind, []) == Some(O.Initial(a.kind));
    if InList(w.queue, a.op) { ListedAreAlive(w.queue, a.op); }
    forall op | op in w'.shots ensures ShotOk(w', op) {
      if op != a.op { assert ShotOk(w, op); }
    }
    forall p | p in w'.queue.pushers ensures PusherOk(w', p) {
      assert PusherOk(w, p) && Q.PusherOk(w.queue, p);
    }
    CallbacksFrame(w, w');
  }

  // A step that does not concern the list leaves alone what the list has to do with.
  lemma RaceKeepsShot(s: O.State, b: O.Action)
    requires O.Reachable(s) && O.Enabled(s, b) && !b.Drain?
    requires b.Callback? ==> s.cb.Entered? && s.latch.used
    ensures var s' := O.Next(s, b);
            && O.Reachable(s') && s'.linked == s.linked
            && s'.cb.MustPush? == s.cb.MustPush? && s'.cb.MustFire? == s.cb.MustFire?
  {
    O.ReachableInv(s);
    O.Extend(s, b);
  }

  lemma RaceKeepsInv(w: World, a: Action)
    requires Inv(w) && Enabled(w, a) && a.Race?
    ensures Inv(Next(w, a))
  {
    var w' := Next(w, a);
    assert ShotOk(w, a.op);
    RaceKeepsShot(w.shots[a.op], a.step);
    forall op | op in w'.shots ensures ShotOk(w', op) {
      assert ShotOk(w, op);
    }
    forall p | p in w'.queue.pushers ensures PusherOk(w', p) {
      assert PusherOk(w, p);
    }
    CallbacksFrame(w, w');
  }

  lemma WinKeepsPushers(w: World, a: Action)
    requires Inv(w) && Enabled(w, a) && a.Win?
    requires forall p {:trigger w.owner[p]} :: p in w.queue.pushers && p in w.owner ==> w.owner[p] != a.op
    requires O.CallbackStep(w.shots[a.op]).cb.MustPush?
    ensures PushersOk(Next(w, a)) && CallbacksOk(Next(w, a))
  {
    var w' := Next(w, a);
    forall p | p in w'.queue.pushers ensures PusherOk(w', p) {
      if p != a.p { assert PusherOk(w, p); }
    }
    forall op | Pushing(w', op) ensures HasPusher(w', op) {
      if op == a.op {
        assert w'.owner[a.p] == op;
      } else {
        assert HasPusher(w, op);
        var p :| p in w.queue.pushers && p in w.owner && w.owner[p] == op;
        assert w'.owner[p] == op;
      }
    }
  }

  lemma WinKeepsInv(w: World, a: Action)
    requires Inv(w) && Enabled(w, a) && a.Win?
    ensures Inv(Next(w, a))
  {
    var w' := Next(w, a);
    assert ShotOk(w, a.op);
    O.ReachableInv(w.shots[a.op]);
    O.Extend(w.shots[a.op], O.Callback);
    NotUnderway(w, a.op);
    Q.NextKeepsInv(w.queue, Q.Schedule(a.p, a.op));
    forall op | op in w'.shots ensures ShotOk(w', op) {
      assert ShotOk(w, op);
    }
    WinKeepsPushers(w, a);
  }

  // What one step of a pushing thread does to the list.
  lemma PushEffect(q: Q.State, p: nat, spurious: bool, op: Q.Op)
    requires Q.Inv(q) && p in q.pushers
    ensures var q' := Q.PushStep(q, p, spurious);
            && (InList(q', op) <==> InList(q, op) || (Swaps(q, p, spurious) && q.pushers[p].op == op))
            && q'.next.Keys == q.next.Keys
            && (p in q'.pushers ==>
                  if Swaps(q, p, spurious) then q'.pushers[p].Firing?
                  else !q.pushers[p].Firing? && !q'.pushers[p].Firing? && q'.pushers[p].op == q.pushers[p].op)
            && (p in q'.pushers <==> !q.pushers[p].Firing?)
            && (forall r :: r != p ==> (r in q'.pushers <==> r in q.pushers))
            && (forall r :: r != p && r in q.pushers ==> q'.pushers[r] == q.pushers[r])
  {
    assert Q.PusherOk(q, p);
    var q' := Q.PushStep(q, p, spurious);
    if Swaps(q, p, spurious) {
      assert q'.pushed == q.pushed + [q.pushers[p].op];
      assert q'.pushed[|q.pushed|] == q.pushers[p].op;
      if InList(q, op) {
        var i :| |q.applied| <= i < |q.pushed| && q.pushed[i] == op;
        assert q'.pushed[i] == op;
      }
    }
  }

  lemma PushKeepsShots(w: World, p: nat, spurious: bool)
    requires Inv(w) && p in w.queue.pushers
    ensures ShotsOk(PushStep(w, p, spurious))
  {
    var w' := PushStep(w, p, spurious);
    assert PusherOk(w, p);
    forall op | op in w'.shots ensures ShotOk(w', op) {
      assert ShotOk(w, op);
      PushEffect(w.queue, p, spurious, op);
      if p in w.owner && w.owner[p] == op && (Swaps(w.queue, p, spurious) || w.queue.pushers[p].Firing?) {
        O.Extend(w.shots[op], O.Callback);
      }
    }
  }

  lemma PushKeepsPushers(w: World, p: nat, spurious: bool)
    requires Inv(w) && p in w.queue.pushers
    ensures PushersOk(PushStep(w, p, spurious))
  {
    var w' := PushStep(w, p, spurious);
    assert PusherOk(w, p);
    PushEffect(w.queue, p, spurious, 0);
    forall r | r in w'.queue.pushers ensures PusherOk(w', r) {
      assert PusherOk(w, r);
    }
  }

  lemma PushKeepsCallbacks(w: World, p: nat, spurious: bool)
    requires Inv(w) && p in w.queue.pushers
    ensures CallbacksOk(PushStep(w, p, spurious))
  {
    var w' := PushStep(w, p, spurious);
    assert PusherOk(w, p);
    PushEffect(w.queue, p, spurious, 0);
    forall op | Pushing(w', op) ensures HasPusher(w', op) {
      assert HasPusher(w, op);
      var r :| r in w.queue.pushers && r in w.owner && w.owner[r] == op;
      assert r in w'.owner && w'.owner[r] == op;
    }
  }

  lemma PushKeepsInv(w: World, a: Action)
    requires Inv(w) && Enabled(w, a) && a.Push?
    ensures Inv(Next(w, a))
  {
    Q.PushKeepsInv(w.queue, a.p, a.spurious);
    PushKeepsShots(w, a.p, a.spurious);
    PushKeepsPushers(w, a.p, a.spurious);
    PushKeepsCallbacks(w, a.p, a.spurious);
  }

  // The operation about to be applied is the oldest one in the list, and only there.
  lemma AppliedIsOldest(w: World)
    requires Q.Inv(w.queue) && Applied(w).Some?
    ensures var q := w.queue;
            && |q.applied| < |q.pushed| && q.pushed[|q.applied|] == Applied(w).value
            && Q.NotIn(q.pushed, |q.applied| + 1, Applied(w).value)
  {
  }

  // What one step of the loop thread does to the list.
  lemma LoopUnlists(w: World, op: Q.Op)
    requires Q.Inv(w.queue) && !w.queue.loop.Idle?
    ensures InList(Q.LoopStep(w.queue), op) ==> InList(w.queue, op) && Applied(w) != Some(op)
    ensures Applied(w) == Some(op) ==> InList(w.queue, op)
  {
    if Applied(w).Some? { AppliedIsOldest(w); }
    var q, q' := w.queue, Q.LoopStep(w.queue);
    if InList(q', op) {
      var i :| |q'.applied| <= i < |q'.pushed| && q'.pushed[i] == op;
      assert q.pushed[i] == op;
    }
  }

  lemma LoopKeepsListed(w: World, op: Q.Op)
    requires Q.Inv(w.queue) && !w.queue.loop.Idle? && InList(w.queue, op) && Applied(w) != Some(op)
    ensures InList(Q.LoopStep(w.queue), op)
  {
    if Applied(w).Some? { AppliedIsOldest(w); }
    var q := w.queue;
    var i :| |q.applied| <= i < |q.pushed| && q.pushed[i] == op;
    assert Q.LoopStep(q).pushed[i] == op;
  }

  lemma LoopKeepsAlive(q: Q.State)
    requires !q.loop.Idle?
    ensures forall op :: op in Q.LoopStep(q).next <==> op in q.next
    ensures Q.LoopStep(q).pushers == q.pushers
  {
  }

  lemma LoopKeepsShot(w: World, a: Action, op: Q.Op)
    requires Inv(w) && Enabled(w, a) && a.Loop? && op in w.shots
    ensures ShotOk(Next(w, a), op) && Next(w, a).shots[op].cb == w.shots[op].cb
  {
    assert ShotOk(w, op);
    LoopKeepsAlive(w.queue);
    LoopUnlists(w, op);
    if InList(w.queue, op) && Applied(w) != Some(op) { LoopKeepsListed(w, op); }
    if Applied(w) == Some(op) {
      O.Extend(w.shots[op], O.Drain);
    }
  }

  lemma LoopKeepsInv(w: World, a: Action)
    requires Inv(w) && Enabled(w, a) && a.Loop?
    ensures Inv(Next(w, a))
  {
    var w' := Next(w, a);
    Q.LoopKeepsInv(w.queue);
    LoopKeepsAlive(w.queue);
    forall op | op in w'.shots
      ensures ShotOk(w', op)
      ensures w'.shots[op].cb == w.shots[op].cb
    {
      LoopKeepsShot(w, a, op);
    }
    forall p | p in w'.queue.pushers ensures PusherOk(w', p) {
      assert PusherOk(w, p);
    }
    CallbacksFrame(w, w');
  }

  // A completed operation is neither linked nor on its way, so its life may end.
  lemma CompletedIsUnlinked(w: World, op: Q.Op)
    requires Inv(w) && op in w.shots && O.Completed(w.shots[op])
    ensures Q.Unlinked(w.queue, op)
    ensures !w.shots[op].cb.MustPush? && !w.shots[op].cb.MustFire? && !w.shots[op].linked
  {
    assert ShotOk(w, op);
    O.ReachableInv(w.shots[op]);
    NotUnderway(w, op);
  }

  lemma DestroyKeepsInv(w: World, a: Action)
    requires Inv(w) && Enabled(w, a) && a.Destroy?
    ensures Inv(Next(w, a))
  {
    var w' := Next(w, a);
    CompletedIsUnlinked(w, a.op);
    assert ShotOk(w, a.op);
    Q.NextKeepsInv(w.queue, Q.Free(a.op));
    NotUnderway(w, a.op);
    forall op | op in w'.shots ensures ShotOk(w', op) {
      assert ShotOk(w, op);
    }
    forall p | p in w'.queue.pushers ensures PusherOk(w', p) {
      assert PusherOk(w, p);
    }
    CallbacksFrame(w, w');
  }

  lemma OtherKeepsInv(w: World, a: Action)
    requires Inv(w) && Enabled(w, a) && a.Other?
    ensures Inv(Next(w, a))
  {
    var w' := Next(w, a);
    Q.NextKeepsInv(w.queue, a.client);
    forall op | op in w'.shots ensures ShotOk(w', op) {
      assert ShotOk(w, op);
    }
    forall p | p in w'.queue.pushers ensures PusherOk(w', p) {
      if p in w.queue.pushers { assert PusherOk(w, p); }
    }
    CallbacksFrame(w, w');
  }

  lemma {:induction false} ExecKeepsInv(run: seq<Action>)
    requires Exec(run).Some?
    ensures Inv(Exec(run).value)
  {
    if run != [] {
      ExecKeepsInv(run[..|run| - 1]);
      var w, a := Exec(run[..|run| - 1]).value, run[|run| - 1];
      match a
      case Create(_, _) => CreateKeepsInv(w, a);
      case Race(_, _) => RaceKeepsInv(w, a);
      case Win(_, _) => WinKeepsInv(w, a);
      case Push(_, _) => PushKeepsInv(w, a);
      case Loop => LoopKeepsInv(w, a);
      case Destroy(_) => DestroyKeepsInv(w, a);
      case Other(_) => OtherKeepsInv(w, a);
    }
  }

  // ---- what follows ----------------------------------------------------------------

  // No run ever breaks the list: nothing dead is touched, both chains are intact, and the
  // race of every operation is one that OneShot allows.
  lemma ListAndRacesAreSound(run: seq<Action>, w: World)
    requires Exec(run) == Some(w)
    ensures Q.Inv(w.queue) && !w.queue.fault && w.queue.applied <= w.queue.pushed
    ensures forall op {:trigger w.shots[op]} :: op in w.shots ==> O.Reachable(w.shots[op])
  {
    ExecKeepsInv(run);
    forall op {:trigger w.shots[op]} | op in w.shots ensures O.Reachable(w.shots[op]) {
      assert ShotOk(w, op);
    }
  }

  // No operation completes while its stop operation is in the list, in the unapplied rest
  // of a batch, or in the hands of a thread inside Schedule.
  lemma CompletedIsNowhere(run: seq<Action>, w: World, op: Q.Op)
    requires Exec(run) == Some(w) && op in w.shots && O.Completed(w.shots[op])
    ensures Q.Unlinked(w.queue, op)
  {
    ExecKeepsInv(run);
    CompletedIsUnlinked(w, op);
  }

  // Once no thread is inside Schedule, no wakeup is pending and the loop thread is idle, no
  // stop that won its race is still waiting to be applied.
  lemma QuietListLeavesNoStop(run: seq<Action>, w: World, op: Q.Op)
    requires Exec(run) == Some(w) && op in w.shots
    requires w.queue.pushers == map[] && !w.queue.wakeup && w.queue.loop.Idle?
    ensures !w.shots[op].linked && !w.shots[op].cb.MustPush? && !w.shots[op].cb.MustFire?
  {
    ExecKeepsInv(run);
    assert ShotOk(w, op);
    assert !HasPusher(w, op);
  }

  // No thread is inside Schedule, no wakeup is pending and the loop thread is idle; and the
  // race of `op` has no step of its own left.
  ghost predicate Settled(w: World, op: Q.Op) {
    && w.queue.pushers == map[] && !w.queue.wakeup && w.queue.loop.Idle?
    && (forall p :: !Enabled(w, Win(p, op)))
    && (forall b :: T.Internal(b) ==> !Enabled(w, Race(op, b)))
  }

  lemma SettledIsQuiet(run: seq<Action>, w: World, op: Q.Op)
    requires Exec(run) == Some(w) && op in w.shots && Settled(w, op)
    ensures T.Quiet(w.shots[op])
  {
    QuietListLeavesNoStop(run, w, op);
    forall b | T.Internal(b) ensures !O.Enabled(w.shots[op], b) {
      assert !Enabled(w, Race(op, b)) && !Enabled(w, Win(0, op));
    }
  }

  // The list and the race together: once the list is quiet and nothing of the operation's
  // own is left to do, an operation that was started, and then stopped or reached by an
  // event, has completed exactly once if and only if its initialisation had succeeded; it
  // released its source exactly once; and it reports stopped exactly if the stop won.
  lemma SettledHasCompleted(run: seq<Action>, w: World, op: Q.Op)
    requires Exec(run) == Some(w) && op in w.shots && Settled(w, op)
    requires var s := w.shots[op]; !s.lp.NotStarted? && (s.requested || T.Decided(s))
    ensures var s := w.shots[op];
            && |s.done| == (if s.initOk then 1 else 2)
            && s.closes + s.halts == (if s.startOk then 1 else 0)
            && (s.startOk ==> (s.done[O.Excess(s)] == O.Stopped <==> s.winner == O.Stop))
  {
    ListAndRacesAreSound(run, w);
    SettledIsQuiet(run, w, op);
    var s := w.shots[op];
    if s.requested {
      T.StopRequestDecides(s);
    }
    T.ExactlyOnceIffInitialised(s);
    if s.startOk {
      T.WinnerDecides(s);
    }
  }
}

/**
  The list of scheduled operations: any number of threads push with a compare-and-swap
  loop, the loop thread takes the whole list, reverses it in place and applies it. One
  step is one access to `Head` or to a `Next` field. Operations can be allocated, freed
  and their addresses reused between the steps.
*/
module OperationQueue {
  import opened Options

  type Op = nat        // an address

  datatype Ptr = Null | To(op: Op)

  // A thread inside Schedule.
  datatype Pusher =
    | Loading(op: Op)                // about to load Head
    | Linking(op: Op, top: Ptr)      // about to write op.Next
    | Swapping(op: Op, top: Ptr)     // about to try the compare-and-swap
    | Firing                         // pushed, about to send the async wakeup

  // The loop thread.
  datatype LoopPc =
    | Idle
    | Grabbing                                          // in ApplyOperations, about to exchange Head
    | Reversing(newTop: Ptr, cur: Ptr, moved: nat)      // `moved` operations reversed so far
    | Relinking(newTop: Ptr, op: Op, after: Ptr, moved: nat)   // read op.Next, about to write it
    | Walking(cur: Ptr)
    | Applying(op: Op, next: Ptr)                       // inside op's Apply

  // `next` holds the Next field of every operation that is alive; `fault` is raised when a
  // step touches one that is not. History: `pushed` lists the pushes in the order of their
  // compare-and-swaps, the first `taken` of them were grabbed, `applied` were applied.
  datatype State = State(next: map<Op, Ptr>, head: Ptr, pushers: map<nat, Pusher>, loop: LoopPc,
                         wakeup: bool, fault: bool,
                         pushed: seq<Op>, taken: nat, applied: seq<Op>)

  const Initial := State(map[], Null, map[], Idle, false, false, [], 0, [])

  datatype Action =
    | Alloc(op: Op)
    | Free(op: Op)
    | Schedule(p: nat, op: Op)          // thread `p` enters Schedule(op)
    | Push(p: nat, spurious: bool)      // its next step; `spurious`: a weak swap may fail for no reason
    | Callback                          // libuv answers the async wakeup
    | Loop                              // the loop thread's next step

  // ---- steps ---------------------------------------------------------------

  predicate Pushes(pusher: Pusher, op: Op) {
    !pusher.Firing? && pusher.op == op
  }

  // `op` does not occur in `q` from index `from` on.
  ghost predicate NotIn(q: seq<Op>, from: nat, op: Op) {
    forall i {:trigger q[i]} :: from <= i < |q| ==> q[i] != op
  }

  // Neither scheduled and unapplied nor on its way there. Only then may the owner of an
  // operation schedule it (again) or end its life; this includes its own Apply.
  ghost predicate Unlinked(s: State, op: Op) {
    && NotIn(s.pushed, |s.applied|, op)
    && forall p {:trigger s.pushers[p]} :: p in s.pushers ==> !Pushes(s.pushers[p], op)
  }

  ghost predicate Enabled(s: State, a: Action) {
    match a
    case Alloc(op) => op !in s.next
    case Free(op) => op in s.next && Unlinked(s, op)
    case Schedule(p, op) => p !in s.pushers && op in s.next && Unlinked(s, op)
    case Push(p, _) => p in s.pushers
    case Callback => s.loop.Idle? && s.wakeup
    case Loop => !s.loop.Idle?
  }

  function ReadNext(s: State, op: Op): Ptr {
    if op in s.next then s.next[op] else Null
  }

  function WriteNext(s: State, op: Op, to: Ptr): State {
    if op in s.next then s.(next := s.next[op := to]) else s.(fault := true)
  }

  function PushStep(s: State, p: nat, spurious: bool): State
    requires p in s.pushers
  {
    match s.pushers[p]
    case Loading(op) => s.(pushers := s.pushers[p := Linking(op, s.head)])
    case Linking(op, top) => WriteNext(s, op, top).(pushers := s.pushers[p := Swapping(op, top)])
    case Swapping(op, top) =>
      if s.head == top && !spurious then
        s.(head := To(op), pushed := s.pushed + [op], pushers := s.pushers[p := Firing])
      else
        s.(pushers := s.pushers[p := Linking(op, s.head)])
    case Firing => s.(wakeup := true, pushers := s.pushers - {p})
  }

  function LoopStep(s: State): State
    requires !s.loop.Idle?
  {
    match s.loop
    case Grabbing => s.(head := Null, taken := |s.pushed|, loop := Reversing(Null, s.head, 0))
    case Reversing(newTop, cur, moved) =>
      if cur == Null then s.(loop := Walking(newTop))
      else s.(loop := Relinking(newTop, cur.op, ReadNext(s, cur.op), moved), fault := s.fault || cur.op !in s.next)
    case Relinking(newTop, op, after, moved) =>
      WriteNext(s, op, newTop).(loop := Reversing(To(op), after, moved + 1))
    case Walking(cur) =>
      if cur == Null then s.(loop := Idle)
      else s.(loop := Applying(cur.op, ReadNext(s, cur.op)), applied := s.applied + [cur.op],
              fault := s.fault || cur.op !in s.next)
    case Applying(_, next) => s.(loop := Walking(next))
  }

  function Next(s: State, a: Action): State
    requires Enabled(s, a)
  {
    match a
    case Alloc(op) => s.(next := s.next[op := Null])
    case Free(op) => s.(next := s.next - {op})
    case Schedule(p, op) => s.(pushers := s.pushers[p := Loading(op)])
    case Push(p, spurious) => PushStep(s, p, spurious)
    case Callback => s.(wakeup := false, loop := Grabbing)
    case Loop => LoopStep(s)
  }

  ghost function Exec(run: seq<Action>): Option<State> {
    if run == [] then Some(Initial)
    else
      var before := Exec(run[..|run| - 1]);
      var a := run[|run| - 1];
      if before.Some? && Enabled(before.value, a) then Some(Next(before.value, a)) else None
  }

  ghost predicate Reachable(s: State) {
    exists run :: Exec(run) == Some(s)
  }

  // ---- chains ----------------------------------------------------------------

  // Following Next from `top` visits q[lo..hi] backwards ...
  ghost predicate IsStack(next: map<Op, Ptr>, top: Ptr, q: seq<Op>, lo: nat, hi: nat) {
    && lo <= hi <= |q|
    && top == (if lo == hi then Null else To(q[hi - 1]))
    && forall i {:trigger next[q[i]]} {:trigger q[i] in next} :: lo <= i < hi ==>
         q[i] in next && next[q[i]] == if i == lo then Null else To(q[i - 1])
  }

  // ... or forwards.
  ghost predicate IsChain(next: map<Op, Ptr>, top: Ptr, q: seq<Op>, lo: nat, hi: nat) {
    && lo <= hi <= |q|
    && top == (if lo == hi then Null else To(q[lo]))
    && forall i {:trigger next[q[i]]} {:trigger q[i] in next} :: lo <= i < hi ==>
         q[i] in next && next[q[i]] == if i + 1 == hi then Null else To(q[i + 1])
  }

  // No operation occurs twice in q[lo..].
  ghost predicate DistinctFrom(q: seq<Op>, lo: nat) {
    forall i, j {:trigger q[i], q[j]} :: lo <= i < j < |q| ==> q[i] != q[j]
  }

  // Both memories agree on the Next fields of q[lo..hi].
  ghost predicate SameLinks(next: map<Op, Ptr>, next': map<Op, Ptr>, q: seq<Op>, lo: nat, hi: nat) {
    hi <= |q| && forall i {:trigger next'[q[i]]} {:trigger q[i] in next'} :: lo <= i < hi && q[i] in next ==>
      q[i] in next' && next'[q[i]] == next[q[i]]
  }

  // One turn of the reversal: the top of the stack moves to the front of the chain.
  lemma ReverseTurn(next: map<Op, Ptr>, newTop: Ptr, cur: Ptr, q: seq<Op>, lo: nat, mid: nat, hi: nat)
    requires DistinctFrom(q, lo) && cur != Null
    requires IsStack(next, cur, q, lo, mid) && IsChain(next, newTop, q, mid, hi)
    ensures lo < mid && cur == To(q[mid - 1]) && cur.op in next
    ensures var next' := next[cur.op := newTop];
            && IsStack(next', next[cur.op], q, lo, mid - 1) && IsChain(next', cur, q, mid - 1, hi)
            && SameLinks(next, next', q, hi, |q|)
  {
  }

  // ---- the invariant -----------------------------------------------------------

  // pushed[|applied|..taken] was grabbed and waits to be applied, pushed[taken..] was not grabbed.
  ghost predicate HistoryOk(s: State) {
    && |s.applied| <= s.taken <= |s.pushed|
    && (forall i {:trigger s.applied[i]} :: 0 <= i < |s.applied| ==> s.applied[i] == s.pushed[i])
    && DistinctFrom(s.pushed, |s.applied|)
  }

  ghost predicate PusherOk(s: State, p: nat)
    requires p in s.pushers
  {
    !s.pushers[p].Firing? ==>
      var op := s.pushers[p].op;
      && op in s.next && NotIn(s.pushed, |s.applied|, op)
      && (s.pushers[p].Swapping? ==> s.next[op] == s.pushers[p].top)
      && forall q {:trigger s.pushers[q]} :: q in s.pushers && q != p ==> !Pushes(s.pushers[q], op)
  }

  ghost predicate PushersOk(s: State) {
    forall p {:trigger s.pushers[p]} :: p in s.pushers ==> PusherOk(s, p)
  }

  ghost predicate LoopOk(s: State) {
    var lo, hi := |s.applied|, s.taken;
    match s.loop
    case Idle | Grabbing => lo == hi
    case Reversing(newTop, cur, moved) =>
      && lo + moved <= hi
      && IsStack(s.next, cur, s.pushed, lo, hi - moved)
      && IsChain(s.next, newTop, s.pushed, hi - moved, hi)
    case Relinking(newTop, op, after, moved) =>
      && lo + moved <= hi
      && IsStack(s.next, To(op), s.pushed, lo, hi - moved)
      && IsChain(s.next, newTop, s.pushed, hi - moved, hi)
      && op in s.next && after == s.next[op]
    case Walking(cur) => IsChain(s.next, cur, s.pushed, lo, hi)
    case Applying(_, next) => IsChain(s.next, next, s.pushed, lo, hi)
  }

  predicate AboutToFire(s: State, p: nat) {
    p in s.pushers && s.pushers[p].Firing?
  }

  ghost predicate WakeupOk(s: State) {
    s.head != Null ==>
      s.wakeup || s.loop.Grabbing? || exists p :: AboutToFire(s, p)
  }

  ghost predicate ListOk(s: State) {
    && HistoryOk(s) && LoopOk(s) && !s.fault
    && IsStack(s.next, s.head, s.pushed, s.taken, |s.pushed|)
  }

  ghost predicate Inv(s: State) {
    ListOk(s) && PushersOk(s) && WakeupOk(s)
  }

  // Whatever leaves the linked operations' Next fields alone leaves both chains alone.
  lemma ListFrame(s: State, s': State)
    requires ListOk(s) && SameLinks(s.next, s'.next, s.pushed, |s.applied|, |s.pushed|)
    requires s'.head == s.head && s'.loop == s.loop && s'.fault == s.fault
    requires s'.pushed == s.pushed && s'.taken == s.taken && s'.applied == s.applied
    ensures ListOk(s')
  {
    StackFrame(s.next, s'.next, s.head, s.pushed, s.taken, |s.pushed|);
    LoopFrame(s, s');
  }

  lemma LoopFrame(s: State, s': State)
    requires LoopOk(s) && s.taken <= |s.pushed| && SameLinks(s.next, s'.next, s.pushed, |s.applied|, s.taken)
    requires s'.loop == s.loop && s'.pushed == s.pushed && s'.taken == s.taken && s'.applied == s.applied
    ensures LoopOk(s')
  {
    match s.loop
    case Reversing(newTop, cur, moved) =>
      StackFrame(s.next, s'.next, cur, s.pushed, |s.applied|, s.taken - moved);
      ChainFrame(s.next, s'.next, newTop, s.pushed, s.taken - moved, s.taken);
    case Relinking(newTop, op, after, moved) =>
      StackFrame(s.next, s'.next, To(op), s.pushed, |s.applied|, s.taken - moved);
      ChainFrame(s.next, s'.next, newTop, s.pushed, s.taken - moved, s.taken);
    case Walking(cur) => ChainFrame(s.next, s'.next, cur, s.pushed, |s.applied|, s.taken);
    case Applying(_, next) => ChainFrame(s.next, s'.next, next, s.pushed, |s.applied|, s.taken);
    case _ =>
  }

  lemma StackFrame(next: map<Op, Ptr>, next': map<Op, Ptr>, top: Ptr, q: seq<Op>, lo: nat, hi: nat)
    requires IsStack(next, top, q, lo, hi) && SameLinks(next, next', q, lo, hi)
    ensures IsStack(next', top, q, lo, hi)
  {
  }

  lemma ChainFrame(next: map<Op, Ptr>, next': map<Op, Ptr>, top: Ptr, q: seq<Op>, lo: nat, hi: nat)
    requires IsChain(next, top, q, lo, hi) && SameLinks(next, next', q, lo, hi)
    ensures IsChain(next', top, q, lo, hi)
  {
  }

  lemma WakeupFrame(s: State, s': State)
    requires WakeupOk(s) && s'.head == s.head && (s.loop.Grabbing? ==> s'.loop.Grabbing?) && (s.wakeup ==> s'.wakeup)
    requires forall p :: AboutToFire(s, p) ==> s'.wakeup || AboutToFire(s', p)
    ensures WakeupOk(s')
  {
  }

  lemma ClientKeepsInv(s: State, a: Action)
    requires Inv(s) && Enabled(s, a) && (a.Alloc? || a.Free? || a.Schedule?)
    ensures Inv(Next(s, a))
  {
    ListFrame(s, Next(s, a));
    WakeupFrame(s, Next(s, a));
  }

  // The loop thread leaves alone what the pushers rely on.
  lemma PushersFrame(s: State, s': State)
    requires PushersOk(s) && s'.next == s.next && s'.pushers == s.pushers
    requires s'.pushed == s.pushed && |s.applied| <= |s'.applied|
    ensures PushersOk(s')
  {
    forall p | p in s'.pushers ensures PusherOk(s', p) {
      assert PusherOk(s, p);
    }
  }

  lemma SwapKeepsList(s: State, p: nat)
    requires ListOk(s) && p in s.pushers && PusherOk(s, p) && s.pushers[p].Swapping? && s.head == s.pushers[p].top
    ensures ListOk(PushStep(s, p, false))
  {
    StackGrows(s.next, s.head, s.pushed, s.taken, s.pushers[p].op);
    LoopIgnoresPush(s, s.pushers[p].op);
    assert LoopOk(PushStep(s, p, false));
  }

  lemma StackGrows(next: map<Op, Ptr>, top: Ptr, q: seq<Op>, lo: nat, op: Op)
    requires IsStack(next, top, q, lo, |q|) && op in next && next[op] == top
    ensures IsStack(next, To(op), q + [op], lo, |q| + 1)
  {
  }

  lemma LoopIgnoresPush(s: State, op: Op)
    requires LoopOk(s) && s.taken <= |s.pushed|
    ensures LoopOk(s.(pushed := s.pushed + [op]))
  {
  }

  lemma SwapKeepsInv(s: State, p: nat)
    requires Inv(s) && p in s.pushers && s.pushers[p].Swapping? && s.head == s.pushers[p].top
    ensures Inv(PushStep(s, p, false))
  {
    var s' := PushStep(s, p, false);
    assert PusherOk(s, p);
    SwapKeepsList(s, p);
    forall r | r in s'.pushers ensures PusherOk(s', r) {
      assert PusherOk(s, r);
    }
    assert AboutToFire(s', p);
  }

  // Every step of a push but the successful swap.
  lemma PrepareKeepsPushers(s: State, p: nat, spurious: bool)
    requires PushersOk(s) && p in s.pushers
    requires !(s.pushers[p].Swapping? && s.head == s.pushers[p].top && !spurious)
    ensures PushersOk(PushStep(s, p, spurious))
  {
    var s' := PushStep(s, p, spurious);
    assert PusherOk(s, p);
    forall r | r in s'.pushers ensures PusherOk(s', r) {
      assert PusherOk(s, r);
    }
  }

  lemma PushKeepsInv(s: State, p: nat, spurious: bool)
    requires Inv(s) && p in s.pushers
    ensures Inv(PushStep(s, p, spurious))
  {
    if s.pushers[p].Swapping? && s.head == s.pushers[p].top && !spurious {
      SwapKeepsInv(s, p);
    } else {
      var s' := PushStep(s, p, spurious);
      assert PusherOk(s, p);
      ListFrame(s, s');
      WakeupFrame(s, s');
      PrepareKeepsPushers(s, p, spurious);
    }
  }

  lemma ReverseKeepsInv(s: State)
    requires Inv(s) && s.loop.Relinking?
    ensures Inv(LoopStep(s))
  {
    ReverseTurn(s.next, s.loop.newTop, To(s.loop.op), s.pushed, |s.applied|, s.taken - s.loop.moved, s.taken);
    assert ListOk(LoopStep(s));
    WakeupFrame(s, LoopStep(s));
  }

  lemma WalkKeepsInv(s: State)
    requires Inv(s) && s.loop.Walking? && s.loop.cur != Null
    ensures Inv(LoopStep(s))
  {
    assert s.loop.cur == To(s.pushed[|s.applied|]);
    assert s.loop.cur.op in s.next;
    PushersFrame(s, LoopStep(s));
    WakeupFrame(s, LoopStep(s));
  }

  lemma GrabKeepsInv(s: State)
    requires Inv(s) && s.loop.Grabbing?
    ensures Inv(LoopStep(s))
  {
    PushersFrame(s, LoopStep(s));
  }

  // The loop thread's steps that touch no field but its own position.
  lemma MoveKeepsInv(s: State)
    requires Inv(s) && (s.loop.Reversing? || s.loop.Applying? || (s.loop.Walking? && s.loop.cur == Null))
    ensures Inv(LoopStep(s))
  {
    PushersFrame(s, LoopStep(s));
    WakeupFrame(s, LoopStep(s));
  }

  lemma LoopKeepsInv(s: State)
    requires Inv(s) && !s.loop.Idle?
    ensures Inv(LoopStep(s))
  {
    if s.loop.Relinking? {
      ReverseKeepsInv(s);
    } else if s.loop.Walking? && s.loop.cur != Null {
      WalkKeepsInv(s);
    } else if s.loop.Grabbing? {
      GrabKeepsInv(s);
    } else {
      MoveKeepsInv(s);
    }
  }

  lemma NextKeepsInv(s: State, a: Action)
    requires Inv(s) && Enabled(s, a)
    ensures Inv(Next(s, a))
  {
    match a
    case Alloc(_) | Free(_) | Schedule(_, _) => ClientKeepsInv(s, a);
    case Push(p, spurious) => PushKeepsInv(s, p, spurious);
    case Callback =>
    case Loop => LoopKeepsInv(s);
  }

  lemma {:induction false} ReachableInv(s: State)
    requires Reachable(s)
    ensures Inv(s)
  {
    var run :| Exec(run) == Some(s);
    ExecKeepsInv(run);
  }

  lemma {:induction false} ExecKeepsInv(run: seq<Action>)
    requires Exec(run).Some?
    ensures Inv(Exec(run).value)
  {
    if run != [] {
      ExecKeepsInv(run[..|run| - 1]);
      NextKeepsInv(Exec(run[..|run| - 1]).value, run[|run| - 1]);
    }
  }
}

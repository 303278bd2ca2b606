/**
  What the list of scheduled operations guarantees in every reachable state, for any
  number of pushing threads.
*/
module OperationTheorems {
  import opened Options
  import opened OperationQueue

  // From Head the operations pushed since the last grab follow each other, newest first,
  // whatever swaps failed or addresses were reused in between.
  lemma HeadIsStackOfPushes(s: State)
    requires Reachable(s)
    ensures s.taken <= |s.pushed| && IsStack(s.next, s.head, s.pushed, s.taken, |s.pushed|)
  {
    ReachableInv(s);
  }

  // What a grab hands to the walk is exactly what was pushed since the grab before it, in
  // the order of the swaps; and the walk always continues with the oldest unapplied one.
  lemma GrabReturnsPushesInOrder(s: State)
    requires Reachable(s)
    ensures s.loop.Idle? || s.loop.Grabbing? ==> |s.applied| == s.taken
    ensures s.loop.Walking? || s.loop.Applying? ==>
              IsChain(s.next, if s.loop.Walking? then s.loop.cur else s.loop.next, s.pushed, |s.applied|, s.taken)
  {
    ReachableInv(s);
  }

  // Operations are applied once per push and in the order of the pushes, over the whole
  // run and across all batches.
  lemma AppliedIsPrefixOfPushed(s: State)
    requires Reachable(s)
    ensures s.applied <= s.pushed
  {
    ReachableInv(s);
  }

  // No step touches an operation that is no longer alive, although owners may end an
  // operation's life, or schedule it again, as soon as its Apply has begun.
  lemma NeverTouchesTheDead(s: State)
    requires Reachable(s)
    ensures !s.fault
    ensures forall i {:trigger s.pushed[i]} :: |s.applied| <= i < |s.pushed| ==> s.pushed[i] in s.next
    ensures forall p {:trigger s.pushers[p]} :: p in s.pushers && !s.pushers[p].Firing? ==> s.pushers[p].op in s.next
  {
    ReachableInv(s);
    assert forall p {:trigger s.pushers[p]} :: p in s.pushers ==> PusherOk(s, p);
  }

  // A non-empty list is never forgotten: an async wakeup is pending, or a pusher is about
  // to send one, or the loop thread is about to grab.
  lemma NothingIsForgotten(s: State)
    requires Reachable(s) && s.head != Null
    ensures s.wakeup || s.loop.Grabbing? || exists p :: AboutToFire(s, p)
  {
    ReachableInv(s);
  }

  // So once nobody pushes, no wakeup is pending and the loop thread is idle, everything
  // that was ever scheduled has been applied.
  lemma QuietMeansAllApplied(s: State)
    requires Reachable(s) && s.pushers == map[] && !s.wakeup && s.loop.Idle?
    ensures s.applied == s.pushed && s.head == Null
  {
    ReachableInv(s);
    assert s.applied == s.pushed;
  }

  // How many steps the current callback still has to make after its grab.
  function Rank(s: State): int {
    match s.loop
    case Idle => 0
    case Grabbing => 4 * (|s.pushed| - |s.applied|) + 3
    case Reversing(_, _, moved) => 4 * (s.taken - |s.applied|) - 2 * moved + 2
    case Relinking(_, _, _, moved) => 4 * (s.taken - |s.applied|) - 2 * moved + 1
    case Walking(_) => 2 * (s.taken - |s.applied|) + 1
    case Applying(_, _) => 2 * (s.taken - |s.applied|) + 2
  }

  lemma LoopStepLowersRank(s: State)
    requires ListOk(s) && !s.loop.Idle?
    ensures 0 <= Rank(s) && Rank(LoopStep(s)) < Rank(s)
  {
  }

  lemma OthersKeepRank(s: State, a: Action)
    requires Enabled(s, a) && !s.loop.Idle? && !s.loop.Grabbing? && !a.Loop?
    ensures Rank(Next(s, a)) == Rank(s)
  {
  }

  // A callback ends after the operations it grabbed, even if every one of them schedules
  // itself again and other threads keep pushing.
  lemma CallbackEnds(s: State, a: Action)
    requires Reachable(s) && Enabled(s, a) && !s.loop.Idle?
    ensures 0 <= Rank(s)
    ensures a.Loop? ==> Rank(Next(s, a)) < Rank(s)
    ensures !a.Loop? && !s.loop.Grabbing? ==> Rank(Next(s, a)) == Rank(s)
  {
    ReachableInv(s);
    LoopStepLowersRank(s);
    if !a.Loop? && !s.loop.Grabbing? {
      OthersKeepRank(s, a);
    }
  }
}

/**
  The same list on the heap, seen by one thread: the push and the in-place reversal.
*/
module OperationListHeap {
  import opened ListModel

  class Operation {
    var next: Operation?

    constructor ()
      ensures next == null
    {
      next := null;
    }
  }

  ghost function At(s: seq<Operation>, i: int): Operation? {
    if 0 <= i < |s| then s[i] else null
  }

  // The operations of `s` are linked from the last to the first, or from first to last.
  ghost predicate Stacked(s: seq<Operation>)
    reads s
  {
    forall i {:trigger s[i].next} :: 0 <= i < |s| ==> s[i].next == At(s, i - 1)
  }

  ghost predicate Chained(s: seq<Operation>)
    reads s
  {
    forall i {:trigger s[i].next} :: 0 <= i < |s| ==> s[i].next == At(s, i + 1)
  }

  class OperationList {
    var head: Operation?
    ghost var pushed: seq<Operation>     // since the last grab

    ghost predicate Valid()
      reads this, pushed
    {
      Distinct(pushed) && head == At(pushed, |pushed| - 1) && Stacked(pushed)
    }

    constructor ()
      ensures Valid() && pushed == []
    {
      head, pushed := null, [];
    }

    // `failures` counts the weak swaps that fail for no reason.
    method PushBack(op: Operation, failures: nat)
      requires Valid() && op !in pushed
      modifies this, op
      ensures Valid() && pushed == old(pushed) + [op]
    {
      var curTop := head;
      op.next := curTop;
      var left := failures;
      while left > 0
        invariant op.next == head == old(head) && pushed == old(pushed)
        invariant forall i {:trigger pushed[i].next} :: 0 <= i < |pushed| ==> pushed[i].next == old(pushed[i].next)
      {
        curTop := head;
        op.next := curTop;
        left := left - 1;
      }
      head := op;
      pushed := pushed + [op];
    }

    // Empties the list and returns its operations linked in the order of their pushes.
    method Grab() returns (first: Operation?, ghost grabbed: seq<Operation>)
      requires Valid()
      modifies this, pushed
      ensures Valid() && pushed == [] && head == null
      ensures grabbed == old(pushed) && first == At(grabbed, 0) && Chained(grabbed)
    {
      grabbed := pushed;
      var opStates := head;
      head, pushed := null, [];
      var newTop: Operation? := null;
      var cur := opStates;
      ghost var k := |grabbed|;
      while cur != null
        invariant 0 <= k <= |grabbed|
        invariant cur == At(grabbed, k - 1)
        invariant newTop == At(grabbed, k)
        invariant forall i {:trigger grabbed[i].next} :: 0 <= i < k ==> grabbed[i].next == At(grabbed, i - 1)
        invariant forall i {:trigger grabbed[i].next} :: k <= i < |grabbed| ==> grabbed[i].next == At(grabbed, i + 1)
        invariant head == null && pushed == []
        decreases k
      {
        k := k - 1;
        var next := cur.next;
        cur.next := newTop;
        newTop := cur;
        cur := next;
      }
      first := newTop;
    }
  }
}

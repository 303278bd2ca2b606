/**
  Runners and the queue of runners that wait for their turn to run the loop.
*/
module Runners {
  import opened ListModel
  import opened IntrusiveList

  // `awakenings` is 1 at first, grows with every wakeup and is 0 once the runner
  // has finished; `acq` says that this runner has entered the loop itself.
  class Runner {
    var awakenings: nat
    var acq: bool

    constructor ()
      ensures awakenings == 1 && !acq && !Finished()
    {
      awakenings, acq := 1, false;
    }

    predicate Finished()
      reads this
      ensures Finished() <==> awakenings == 0
    {
      awakenings == 0
    }

    // Once `acq` is set it stays set, so a runner that comes back after it finished
    // is told "acquired" exactly when it had acquired the loop before.
    method AcquireIfNotFinished() returns (acquired: bool)
      modifies this`acq
      ensures acq == acquired
      ensures acquired <==> awakenings != 0 || old(acq)
    {
      if awakenings != 0 {
        acq := true;
      }
      acquired := acq;
    }

    method Wakeup()
      modifies this`awakenings
      ensures awakenings == old(awakenings) + 1 && !Finished()
    {
      awakenings := awakenings + 1;
    }

    method Finish()
      modifies this`awakenings
      ensures awakenings == 0 && Finished()
    {
      awakenings := 0;
    }
  }

  class RunnersQueue {
    const list: List<Runner>

    constructor ()
      ensures list.Valid() && list.nodes == [] && fresh(list)
    {
      list := new List<Runner>();
    }

    // Pops up to and including the first runner that has not finished, if any.
    method PopUnfinished() returns (next: Node?<Runner>, ghost skipped: nat)
      requires list.Valid()
      modifies list, list.nodes
      ensures list.Valid()
      ensures skipped <= |old(list.nodes)|
      ensures forall i {:trigger old(list.nodes)[i]} :: 0 <= i < skipped ==> old(list.nodes)[i].item.awakenings == 0
      ensures next == null <==> skipped == |old(list.nodes)|
      ensures next == null ==> list.nodes == []
      ensures next != null ==>
                && next == old(list.nodes)[skipped] && next.item.awakenings != 0
                && list.nodes == old(list.nodes)[skipped + 1..]
    {
      ghost var queue := list.nodes;
      next, skipped := null, 0;
      while !list.Empty()
        invariant list.Valid()
        invariant skipped <= |queue| && list.nodes == queue[skipped..]
        invariant forall i {:trigger queue[i]} :: 0 <= i < skipped ==> queue[i].item.awakenings == 0
        decreases |list.nodes|
      {
        var popped := list.Pop();
        assert list.nodes == ([popped] + list.nodes)[1..] == queue[skipped + 1..];
        if !popped.item.Finished() {
          next := popped;
          return;
        }
        skipped := skipped + 1;
      }
    }

    // Wakes the first runner of the queue that has not finished. The finished ones
    // before it leave the queue without being touched.
    method WakeupNext() returns (ghost woken: Runner?)
      requires list.Valid()
      modifies list, list.nodes, set n | n in list.nodes :: n.item
      ensures list.Valid()
      ensures woken == null ==>
                && list.nodes == [] && (forall n :: n in old(list.nodes) ==> old(n.item.awakenings == 0))
                && forall n :: n in old(list.nodes) ==> unchanged(n.item)
      ensures woken != null ==>
                exists k: nat :: k < |old(list.nodes)| && old(list.nodes)[k].item == woken
                  && list.nodes == old(list.nodes)[k + 1..] && old(woken.awakenings != 0)
                  && (forall i {:trigger old(list.nodes)[i]} :: 0 <= i < k ==> old(list.nodes[i].item.awakenings == 0))
      ensures woken != null ==> woken.awakenings == old(woken.awakenings) + 1 && woken.acq == old(woken.acq)
      ensures forall n :: n in old(list.nodes) && n.item != woken ==> unchanged(n.item)
    {
      ghost var queue := list.nodes;
      var next, k := PopUnfinished();
      if next == null {
        woken := null;
      } else {
        assert queue[k] in queue && next.item == queue[k].item;
        next.item.Wakeup();
        woken := next.item;
      }
    }
  }
}

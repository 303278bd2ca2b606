/**
  The listener and its accepts on the heap, with the accept list as an intrusive list:
  their methods, each an uninterrupted piece of a run of the listener, so that everything
  proved about those runs holds for the objects.
*/
module ListenerObjects {
  import opened Options
  import opened ListModel
  import opened IntrusiveList
  import opened StopOperation
  import opened ListenerRuns
  import O = OneShot
  import L = Listener

  class AcceptOperation {
    ghost const id: L.Id
    const stopOp: StopOperation
    var done: seq<O.Signal>     // what was sent to the receiver
    ghost var race: O.State     // its race so far

    // The object is as far as its race, and no stop callback is half-way through.
    ghost predicate Agrees()
      reads this, stopOp
    {
      && !O.Running(race.cb)
      && race.latch == stopOp.View() && race.requested == stopOp.requested && race.linked == stopOp.linked
      && race.done == done
    }

    // The loop thread is not in the middle of this accept.
    ghost predicate Valid()
      reads this, stopOp
    {
      Agrees() && race.lp.Ready?
    }

    ghost predicate Unstarted()
      reads this, stopOp
    {
      Agrees() && race == O.Initial(O.Accept).(requested := stopOp.requested)
    }

    constructor (ghost id: L.Id)
      ensures this.id == id && Unstarted() && !stopOp.requested && fresh(stopOp)
    {
      this.id := id;
      stopOp := new StopOperation();
      done, race := [], O.Initial(O.Accept);
      new;
    }

    // Its predecessor has completed, and it is about to be registered.
    ghost method Begin()
      requires Unstarted()
      modifies this`race
      ensures Agrees() && race == Begun(stopOp.requested)
    {
      race := Begun(stopOp.requested);
    }

    // Whoever is too late to take the latch leaves the operation alone.
    method Complete(sig: O.Signal, ghost after: O.State)
      requires Agrees() && Meets(race, sig, after)
      modifies this, stopOp
      ensures Agrees() && race == after && stopOp.used
      ensures done == if old(stopOp.used) then old(done) else old(done) + [sig]
    {
      race := after;
      var lost := stopOp.Reset();
      if lost {
        return;
      }
      done := done + [sig];
    }

    method Setup()
      requires Agrees() && RaceOk(race) && race.lp.Registering?
      modifies this`race, stopOp
      ensures Valid() && race == O.SetupAtOnce(old(race)) && done == old(done) && stopOp.engaged
      ensures stopOp.linked == old(stopOp.linked || (stopOp.requested && !stopOp.used))
    {
      O.SetupAtOnceIsARun(race);
      O.ReachableInv(race);
      if race.requested { O.CallbackEffect(O.Next(race, O.Register)); }
      race := O.SetupAtOnce(race);
      stopOp.Setup();
    }

    // A stop is requested while the loop thread is elsewhere, or before the start.
    method RequestStop()
      requires (Valid() && RaceOk(race)) || Unstarted()
      modifies this`race, stopOp
      ensures race == O.RequestAtOnce(old(race)) && stopOp.requested
      ensures stopOp.linked == old(stopOp.linked || (!stopOp.requested && stopOp.engaged && !stopOp.used))
      ensures if old(race.lp.NotStarted?) then Unstarted() else Valid()
    {
      if !race.lp.NotStarted? {
        O.ReachableInv(race);
        O.RequestAtOnceIsARun(race);
      }
      if !race.requested && race.cb.Registered? { O.CallbackEffect(O.Next(race, O.RequestStop)); }
      race := O.RequestAtOnce(race);
      stopOp.RequestStop();
    }

    // The loop applies the stop operation.
    method Stop(ghost after: O.State)
      requires Valid() && Stops(race, after)
      modifies this, stopOp
      ensures Valid() && race == after && done == old(done) + [O.Stopped] && !stopOp.engaged
    {
      race := after;
      stopOp.linked := false;
      var _ := stopOp.ResetUnsafe();
      done := done + [O.Stopped];
    }
  }

  class TcpListener {
    const acceptList: List<AcceptOperation>
    var pendingConnections: int
    ghost const start: int                                   // what the counter was at first
    ghost var view: L.State                                  // the run so far
    ghost var accepts: map<L.Id, Node<AcceptOperation>>      // every accept registered in it

    // The list holds the accepts that `list` names.
    static ghost predicate Listed(list: seq<L.Id>, accepts: map<L.Id, Node<AcceptOperation>>, nodes: seq<Node<AcceptOperation>>) {
      && |list| == |nodes|
      && forall i {:trigger list[i]} {:trigger nodes[i]} :: 0 <= i < |list| ==> list[i] in accepts && accepts[list[i]] == nodes[i]
    }

    // The accepts bear the names the map gives them, so they are all different.
    static ghost predicate Named(accepts: map<L.Id, Node<AcceptOperation>>) {
      forall i {:trigger accepts[i]} :: i in accepts ==> accepts[i].item.id == i
    }

    ghost predicate Valid()
      reads this, acceptList, acceptList.nodes
    {
      && acceptList.Valid() && Listed(view.list, accepts, acceptList.nodes) && Named(accepts)
      && view.pending == pendingConnections && Arises(start, view)
    }

    // An accept is as far as its race in the run. A method that works on an accept keeps
    // this; all others are outside its frame.
    ghost predicate AcceptOk(id: L.Id)
      requires id in accepts
      reads this, accepts[id].item, accepts[id].item.stopOp
    {
      id in view.accepts && view.accepts[id] == accepts[id].item.race && accepts[id].item.Agrees()
    }

    constructor (pending: int)
      ensures Valid() && view == L.Initial(pending) && start == pending && accepts == map[]
    {
      acceptList := new List<AcceptOperation>();
      pendingConnections, start, view, accepts := pending, pending, L.Initial(pending), map[];
      new;
      assert L.Exec(pending, []) == Some(view);
    }

    // The accept that the next arrival goes to.
    ghost function Front(): set<object>
      reads this, acceptList, acceptList.nodes
    {
      if acceptList.nodes == [] then {}
      else {acceptList.nodes[0].item, acceptList.nodes[0].item.stopOp}
    }

    // A node that has met its event.
    twostate predicate Served(node: Node<AcceptOperation>, sig: O.Signal)
      reads node, node.item, node.item.stopOp
    {
      && node.Unlinked() && node.item.stopOp.used
      && node.item.done == old(node.item.done) + if old(node.item.stopOp.used) then [] else [sig]
    }

    // The accept at the front leaves the list and meets its event, and `target` is what
    // comes of it.
    method ServeFront(sig: O.Signal, ghost target: L.State)
      requires acceptList.Valid() && Listed(view.list, accepts, acceptList.nodes) && view.list != []
      requires AcceptOk(view.list[0]) && target.list == view.list[1..] && view.list[0] in target.accepts
      requires Meets(view.accepts[view.list[0]], sig, target.accepts[view.list[0]])
      modifies this`view, acceptList, acceptList.nodes, Front()
      ensures acceptList.Valid() && Listed(view.list, accepts, acceptList.nodes) && view == target
      ensures acceptList.nodes == old(acceptList.nodes)[1..]
      ensures AcceptOk(old(view.list)[0]) && Served(old(acceptList.nodes)[0], sig)
    {
      var node := acceptList.Pop();
      assert old(acceptList.nodes)[1..] == acceptList.nodes;
      node.item.Complete(sig, target.accepts[view.list[0]]);
      view := target;
    }

    // One arrival is either counted or handed to the accept at the front of the list;
    // `target` is what comes of it.
    method Arrive(acceptErr: int, ghost target: L.State)
      requires acceptList.Valid() && Listed(view.list, accepts, acceptList.nodes) && view.pending == pendingConnections
      requires view.list != [] ==> AcceptOk(view.list[0])
      requires Arrives(view, acceptErr, target)
      modifies this`view, this`pendingConnections, acceptList, acceptList.nodes, Front()
      ensures acceptList.Valid() && Listed(view.list, accepts, acceptList.nodes) && view.pending == pendingConnections
      ensures view == target
      ensures old(view.list) != [] ==>
                AcceptOk(old(view.list)[0]) && Served(old(acceptList.nodes)[0], L.AcceptSignal(acceptErr))
      ensures pendingConnections == old(pendingConnections) + if old(acceptList.nodes) == [] then 1 else 0
      ensures acceptList.nodes == if old(acceptList.nodes) != [] then old(acceptList.nodes)[1..] else []
    {
      if acceptList.Empty() {
        pendingConnections := pendingConnections + 1;
        view := target;
      } else {
        ServeFront(L.AcceptSignal(acceptErr), target);
      }
    }

    // libuv reports an arrival, or that one failed.
    method ConnectionCallback(status: int, acceptErr: int)
      requires Valid() && L.LoopFree(view, None) && (view.list != [] ==> AcceptOk(view.list[0]))
      modifies this`view, this`pendingConnections, acceptList, acceptList.nodes, Front()
      ensures Valid() && view == ArriveAtOnce(old(view), status, acceptErr)
      ensures status == 0 && old(view.list) != [] ==> AcceptOk(old(view.list)[0])
      ensures pendingConnections == old(pendingConnections) + if status == 0 && old(acceptList.nodes) == [] then 1 else 0
      ensures status == 0 && old(acceptList.nodes) != [] ==>
                var node := old(acceptList.nodes)[0];
                && node.Unlinked() && node.item.stopOp.used
                && node.item.done == old(node.item.done) +
                                     if old(node.item.stopOp.used) then []
                                     else [if acceptErr == 0 then O.Value(0) else O.Error(acceptErr)]
      ensures acceptList.nodes ==
                if status == 0 && old(acceptList.nodes) != [] then old(acceptList.nodes)[1..] else old(acceptList.nodes)
    {
      if status != 0 {
        return;
      }
      ArriveArises(start, view, status, acceptErr);
      ArriveArrives(start, view, acceptErr);
      Arrive(acceptErr, ArriveAtOnce(view, status, acceptErr));
    }

    // A pending arrival serves the accept at once; otherwise the accept queues up. `after`
    // is what its race comes to.
    method Enter(node: Node<AcceptOperation>, listenErr: int, acceptErr: int, ghost after: O.State)
      requires acceptList.Valid() && node !in acceptList.nodes && node.Unlinked() && node.item.Agrees()
      requires Registers(pendingConnections, listenErr, acceptErr, node.item.race, after)
      requires !node.item.stopOp.used
      modifies this`pendingConnections, acceptList, acceptList.nodes, node, node.item, node.item.stopOp
      ensures acceptList.Valid() && node.item.Agrees() && node.item.race == after
      ensures node.item.done == old(node.item.done) + Told(old(pendingConnections), listenErr, acceptErr)
      ensures pendingConnections == PendingAfter(old(pendingConnections), listenErr)
      ensures acceptList.nodes ==
                if old(pendingConnections) > 0 then old(acceptList.nodes) else AddFront(old(acceptList.nodes), node)
    {
      if pendingConnections > 0 {
        pendingConnections := pendingConnections - 1;
        node.item.Complete(L.AcceptSignal(acceptErr), after);
      } else {
        acceptList.Add(node);
        if pendingConnections < 0 {
          if listenErr != 0 {
            node.item.Complete(O.Error(listenErr), after);
            return;
          }
          pendingConnections := 0;
        }
      }
    }

    static lemma ListedWithNew(list: seq<L.Id>, accepts: map<L.Id, Node<AcceptOperation>>, nodes: seq<Node<AcceptOperation>>, node: Node<AcceptOperation>)
      requires Listed(list, accepts, nodes) && Named(accepts) && node.item.id !in accepts
      ensures var grown := accepts[node.item.id := node];
              && Listed(list, grown, nodes) && Named(grown)
              && Listed(AddFront(list, node.item.id), grown, AddFront(nodes, node))
    {
    }

    // The same, with `target` as what the whole run comes to.
    method EnterRun(node: Node<AcceptOperation>, listenErr: int, acceptErr: int, ghost target: L.State)
      requires acceptList.Valid() && Listed(view.list, accepts, acceptList.nodes) && Named(accepts)
      requires node !in acceptList.nodes && node.Unlinked() && node.item.Agrees() && node.item.id !in accepts
      requires node.item.id in target.accepts
      requires Registers(pendingConnections, listenErr, acceptErr, node.item.race, target.accepts[node.item.id])
      requires target.list == if pendingConnections > 0 then view.list else AddFront(view.list, node.item.id)
      requires !node.item.stopOp.used
      modifies this`view, this`accepts, this`pendingConnections, acceptList, acceptList.nodes, node, node.item, node.item.stopOp
      ensures acceptList.Valid() && Listed(view.list, accepts, acceptList.nodes) && Named(accepts)
      ensures node.item.done == old(node.item.done) + Told(old(pendingConnections), listenErr, acceptErr)
      ensures pendingConnections == PendingAfter(old(pendingConnections), listenErr)
      ensures accepts == old(accepts)[node.item.id := node] && view == target && AcceptOk(node.item.id)
      ensures acceptList.nodes ==
                if old(pendingConnections) > 0 then old(acceptList.nodes) else AddFront(old(acceptList.nodes), node)
    {
      ListedWithNew(view.list, accepts, acceptList.nodes, node);
      Enter(node, listenErr, acceptErr, target.accepts[node.item.id]);
      accepts := accepts[node.item.id := node];
      assert Listed(target.list, accepts, acceptList.nodes);
      view := target;
    }

    // An accept's predecessor has completed, so the accept starts and is registered.
    method RegisterAccept(node: Node<AcceptOperation>, listenErr: int, acceptErr: int)
      requires Valid() && L.LoopFree(view, None) && node.item.id !in view.accepts && node.item.id !in accepts
      requires node !in acceptList.nodes && node.Unlinked()
      requires node.item.Unstarted()
      modifies this`view, this`accepts, this`pendingConnections, acceptList, acceptList.nodes, node, node.item, node.item.stopOp
      ensures Valid() && accepts == old(accepts)[node.item.id := node] && AcceptOk(node.item.id)
      ensures pendingConnections ==
                if old(pendingConnections) > 0 then old(pendingConnections) - 1
                else if listenErr == 0 then 0 else old(pendingConnections)
      ensures node.item.done ==
                if old(pendingConnections) > 0 then [if acceptErr == 0 then O.Value(0) else O.Error(acceptErr)]
                else if old(pendingConnections) < 0 && listenErr != 0 then [O.Error(listenErr)]
                else []
      ensures node.item.race.lp.Registering? && L.LoopFree(view, Some(node.item.id))
      ensures view == Registered(old(view), node.item.id, listenErr, acceptErr, old(node.item.stopOp.requested))
      ensures acceptList.nodes ==
                if old(pendingConnections) > 0 then old(acceptList.nodes) else AddFront(old(acceptList.nodes), node)
    {
      ghost var requested := node.item.stopOp.requested;
      node.item.Begin();
      RegisteredIsBusy(view, node.item.id, listenErr, acceptErr, requested);
      RegisteredArises(start, view, node.item.id, listenErr, acceptErr, requested);
      RegisteredRegisters(view, node.item.id, listenErr, acceptErr, requested);
      EnterRun(node, listenErr, acceptErr, Registered(view, node.item.id, listenErr, acceptErr, requested));
    }

    // The second half of an accept's start.
    method Setup(node: Node<AcceptOperation>)
      requires Valid() && node.item.id in accepts && AcceptOk(node.item.id) && accepts[node.item.id] == node
      requires node.item.race.lp.Registering? && L.LoopFree(view, Some(node.item.id))
      modifies this`view, node.item`race, node.item.stopOp
      ensures Valid() && AcceptOk(node.item.id) && node.item.Valid() && node.item.done == old(node.item.done)
      ensures view == With(old(view), node.item.id, O.SetupAtOnce(old(node.item.race)))
      ensures node.item.stopOp.engaged
      ensures node.item.stopOp.linked ==
                old(node.item.stopOp.linked || (node.item.stopOp.requested && !node.item.stopOp.used))
    {
      SetupArises(start, view, node.item.id);
      ArisingRaces(start, view);
      node.item.Setup();
      view := With(view, node.item.id, node.item.race);
    }

    // The accept is started: it is registered, and its stop callback is set up.
    method Start(node: Node<AcceptOperation>, listenErr: int, acceptErr: int)
      requires Valid() && L.LoopFree(view, None) && node.item.id !in view.accepts && node.item.id !in accepts
      requires node !in acceptList.nodes && node.Unlinked() && node.item.Unstarted()
      modifies this`view, this`accepts, this`pendingConnections, acceptList, acceptList.nodes, node, node.item, node.item.stopOp
      ensures Valid() && accepts == old(accepts)[node.item.id := node] && AcceptOk(node.item.id) && node.item.Valid()
      ensures pendingConnections ==
                if old(pendingConnections) > 0 then old(pendingConnections) - 1
                else if listenErr == 0 then 0 else old(pendingConnections)
      ensures node.item.done ==
                if old(pendingConnections) > 0 then [if acceptErr == 0 then O.Value(0) else O.Error(acceptErr)]
                else if old(pendingConnections) < 0 && listenErr != 0 then [O.Error(listenErr)]
                else []
      ensures view == StartAtOnce(old(view), node.item.id, listenErr, acceptErr, old(node.item.stopOp.requested))
    {
      RegisterAccept(node, listenErr, acceptErr);
      Setup(node);
    }

    // A stop is requested from an accept's token while the loop thread is elsewhere.
    method RequestStop(node: Node<AcceptOperation>)
      requires Valid() && node.item.id in accepts && AcceptOk(node.item.id) && accepts[node.item.id] == node
      requires node.item.Valid()
      modifies this`view, node.item`race, node.item.stopOp
      ensures Valid() && AcceptOk(node.item.id) && node.item.Valid()
      ensures view == With(old(view), node.item.id, O.RequestAtOnce(old(node.item.race)))
      ensures node.item.stopOp.requested
      ensures node.item.stopOp.linked ==
                old(var o := node.item.stopOp; o.linked || (!o.requested && o.engaged && !o.used))
    {
      RequestArises(start, view, node.item.id);
      ArisingRaces(start, view);
      node.item.RequestStop();
      view := With(view, node.item.id, node.item.race);
    }

    static lemma RemoveListed(list: seq<L.Id>, accepts: map<L.Id, Node<AcceptOperation>>, nodes: seq<Node<AcceptOperation>>, id: L.Id)
      requires Listed(list, accepts, nodes) && Distinct(nodes) && Named(accepts) && id in accepts
      ensures Listed(Remove(list, id), accepts, Remove(nodes, accepts[id]))
    {
      if k :| 0 <= k < |list| && list[k] == id {
        assert forall i :: 0 <= i < |list| && i != k ==> nodes[i] != nodes[k] && list[i] != id;
        RemoveAt(list, id, k);
        RemoveAt(nodes, accepts[id], k);
      } else {
        assert forall i :: 0 <= i < |nodes| ==> list[i] in accepts && nodes[i].item.id == list[i];
        RemoveAbsent(list, id);
        RemoveAbsent(nodes, accepts[id]);
      }
    }

    // The accept leaves the list and is stopped; `after` is what its race comes to.
    method Cancel(node: Node<AcceptOperation>, ghost after: O.State)
      requires acceptList.Valid() && (node in acceptList.nodes || node.Unlinked())
      requires node.item.Valid() && Stops(node.item.race, after)
      modifies acceptList, acceptList.nodes, node, node.item, node.item.stopOp
      ensures acceptList.Valid() && acceptList.nodes == Remove(old(acceptList.nodes), node)
      ensures node !in acceptList.nodes && node.Unlinked() && node.item.Valid() && node.item.race == after
      ensures node.item.done == old(node.item.done) + [O.Stopped] && !node.item.stopOp.engaged
    {
      acceptList.Erase(node);
      node.item.Stop(after);
    }

    // The loop applies the accept's stop operation: the accept leaves the list, whether or
    // not an arrival has popped it already, and is stopped.
    method StopCallback(node: Node<AcceptOperation>)
      requires Valid() && node.item.id in accepts && AcceptOk(node.item.id) && accepts[node.item.id] == node
      requires L.LoopFree(view, None) && node.item.stopOp.linked && (node in acceptList.nodes || node.Unlinked())
      modifies this`view, acceptList, acceptList.nodes, node, node.item, node.item.stopOp
      ensures Valid() && AcceptOk(node.item.id) && view == StopAtOnce(old(view), node.item.id)
      ensures acceptList.nodes == Remove(old(acceptList.nodes), node) && node !in acceptList.nodes && node.Unlinked()
      ensures node.item.done == old(node.item.done) + [O.Stopped] && !node.item.stopOp.engaged
    {
      StopArises(start, view, node.item.id);
      ArisingRaces(start, view);
      DrainStops(view.accepts[node.item.id]);
      RemoveListed(view.list, accepts, acceptList.nodes, node.item.id);
      Cancel(node, O.DrainAtOnce(view.accepts[node.item.id]));
      view := StopAtOnce(view, node.item.id);
    }
  }

  // What every run of the listener keeps, said of the object: from Bind on no arrival is
  // lost, and none is pending while an accept waits in the list.
  lemma ObjectConserves(l: TcpListener)
    requires l.Valid() && l.start == 0
    ensures l.view.arrivals == l.pendingConnections + |l.view.attempts| + |l.view.handed|
    ensures 0 <= l.pendingConnections && (l.pendingConnections > 0 ==> l.acceptList.nodes == [])
  {
    var run :| L.Exec(0, run) == Some(l.view);
    L.ExecKeepsInv(0, run);
  }
}

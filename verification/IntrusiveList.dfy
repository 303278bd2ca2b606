/**
  The intrusive doubly linked list shared by the runner queue and the listener's
  accept list: first the abstract sequence operations, then the heap structure
  that refines them.
*/
module ListModel {

  ghost predicate Distinct<T>(s: seq<T>) {
    forall i, j :: 0 <= i < j < |s| ==> s[i] != s[j]
  }

  // New elements go to the front.
  function AddFront<T>(s: seq<T>, x: T): seq<T> {
    [x] + s
  }

  // Removes the first occurrence of `x`; a sequence without `x` is left alone.
  function Remove<T(==)>(s: seq<T>, x: T): seq<T> {
    if s == [] then []
    else if s[0] == x then s[1..]
    else [s[0]] + Remove(s[1..], x)
  }

  lemma {:induction false} RemoveAbsent<T>(s: seq<T>, x: T)
    requires x !in s
    ensures Remove(s, x) == s
  {
    if s != [] {
      RemoveAbsent(s[1..], x);
    }
  }

  lemma {:induction false} RemoveAt<T>(s: seq<T>, x: T, k: nat)
    requires k < |s| && s[k] == x
    requires forall i :: 0 <= i < k ==> s[i] != x
    ensures Remove(s, x) == s[..k] + s[k + 1..]
  {
    if k > 0 {
      RemoveAt(s[1..], x, k - 1);
    }
  }

  lemma RemoveIndex<T>(s: seq<T>, k: nat)
    requires Distinct(s) && k < |s|
    ensures |Remove(s, s[k])| == |s| - 1
    ensures forall i :: 0 <= i < |s| - 1 ==> Remove(s, s[k])[i] == s[if i < k then i else i + 1]
  {
    RemoveAt(s, s[k], k);
  }

  lemma RemoveKeepsOthers<T>(s: seq<T>, k: nat, y: T)
    requires Distinct(s) && k < |s| && y != s[k]
    ensures y in Remove(s, s[k]) <==> y in s
  {
    RemoveAt(s, s[k], k);
    assert s == s[..k] + [s[k]] + s[k + 1..];
  }

  lemma RemovedIsGone<T>(s: seq<T>, k: nat)
    requires Distinct(s) && k < |s|
    ensures s[k] !in Remove(s, s[k])
  {
    RemoveIndex(s, k);
    forall i | 0 <= i < |s| - 1 ensures Remove(s, s[k])[i] != s[k] {
      assert Remove(s, s[k])[i] == s[if i < k then i else i + 1];
    }
  }

  lemma RemoveKeepsDistinct<T>(s: seq<T>, k: nat)
    requires Distinct(s) && k < |s|
    ensures Distinct(Remove(s, s[k]))
  {
    var r := Remove(s, s[k]);
    RemoveIndex(s, k);
    forall i, j | 0 <= i < j < |r| ensures r[i] != r[j] {
      assert r[i] == s[if i < k then i else i + 1];
      assert r[j] == s[if j < k then j else j + 1];
    }
  }

  // What a removal means: exactly `x` disappears and nothing else, the rest stays
  // distinct, and it undoes an insertion.
  lemma {:induction false} RemoveMeaning<T(!new)>(s: seq<T>, x: T)
    requires Distinct(s)
    ensures x !in Remove(s, x) && Distinct(Remove(s, x))
    ensures forall y :: y != x ==> (y in Remove(s, x) <==> y in s)
    ensures Remove(AddFront(s, x), x) == s
    ensures Remove(Remove(s, x), x) == Remove(s, x)
  {
    if x in s {
      var k :| 0 <= k < |s| && s[k] == x;
      RemovedIsGone(s, k);
      RemoveKeepsDistinct(s, k);
      forall y | y != x ensures y in Remove(s, x) <==> y in s {
        RemoveKeepsOthers(s, k, y);
      }
    } else {
      RemoveAbsent(s, x);
    }
    RemoveAbsent(Remove(s, x), x);
  }
}

module IntrusiveList {
  import opened ListModel

  class Node<T> {
    var next: Node?<T>
    var prev: Node?<T>
    const item: T

    constructor (item: T)
      ensures this.item == item && Unlinked()
    {
      this.item := item;
      next, prev := null, null;
    }

    ghost predicate Unlinked()
      reads this
    {
      next == null && prev == null
    }
  }

  class List<T> {
    var head: Node?<T>
    ghost var nodes: seq<Node<T>>

    ghost predicate Valid()
      reads this, nodes
    {
      && Distinct(nodes)
      && head == NodeAt(nodes, 0)
      && Linked(nodes)
    }

    // The node at index `i`, or null beyond either end.
    static ghost function NodeAt(s: seq<Node<T>>, i: int): Node?<T> {
      if 0 <= i < |s| then s[i] else null
    }

    static ghost predicate Linked(s: seq<Node<T>>)
      reads s
    {
      && (forall i {:trigger s[i].next} :: 0 <= i < |s| ==> s[i].next == NodeAt(s, i + 1))
      && (forall i {:trigger s[i].prev} :: 0 <= i < |s| ==> s[i].prev == NodeAt(s, i - 1))
    }

    // The links of `s` after its `k`-th node was bypassed.
    static ghost predicate LinkedAround(s: seq<Node<T>>, k: nat)
      reads s
    {
      && (forall i {:trigger s[i].next} :: 0 <= i < |s| && i != k ==>
            s[i].next == NodeAt(s, if i + 1 == k then k + 1 else i + 1))
      && (forall i {:trigger s[i].prev} :: 0 <= i < |s| && i != k ==>
            s[i].prev == NodeAt(s, if i - 1 == k then k - 1 else i - 1))
    }

    // Where the nodes around the `k`-th one are after its removal.
    static lemma BypassedAt(s: seq<Node<T>>, k: nat, i: int)
      requires k < |s| && Distinct(s)
      ensures NodeAt(Remove(s, s[k]), i) == NodeAt(s, if i < k then i else i + 1)
    {
      RemoveIndex(s, k);
    }

    static lemma BypassedNext(s: seq<Node<T>>, k: nat, i: nat)
      requires k < |s| && Distinct(s) && LinkedAround(s, k) && i < |Remove(s, s[k])|
      ensures Remove(s, s[k])[i].next == NodeAt(Remove(s, s[k]), i + 1)
    {
      BypassedAt(s, k, i);
      BypassedAt(s, k, i + 1);
    }

    static lemma BypassedPrev(s: seq<Node<T>>, k: nat, i: nat)
      requires k < |s| && Distinct(s) && LinkedAround(s, k) && i < |Remove(s, s[k])|
      ensures Remove(s, s[k])[i].prev == NodeAt(Remove(s, s[k]), i - 1)
    {
      BypassedAt(s, k, i);
      BypassedAt(s, k, i - 1);
    }

    static lemma BypassedIsLinked(s: seq<Node<T>>, k: nat)
      requires k < |s| && Distinct(s) && LinkedAround(s, k)
      ensures Linked(Remove(s, s[k]))
    {
      var r := Remove(s, s[k]);
      forall i | 0 <= i < |r| ensures r[i].next == NodeAt(r, i + 1) && r[i].prev == NodeAt(r, i - 1) {
        BypassedNext(s, k, i);
        BypassedPrev(s, k, i);
      }
    }

    constructor ()
      ensures Valid() && nodes == []
    {
      head := null;
      nodes := [];
    }

    predicate Empty()
      requires Valid()
      reads this, nodes
      ensures Empty() <==> nodes == []
    {
      head == null
    }

    // The source leaves `node.prev` as it finds it, so the caller must hand in a
    // node whose `prev` is null.
    method Add(node: Node<T>)
      requires Valid() && node !in nodes && node.prev == null
      modifies this, node, nodes
      ensures Valid() && nodes == AddFront(old(nodes), node)
    {
      node.next := head;
      if head != null {
        head.prev := node;
      }
      head := node;
      nodes := [node] + nodes;
    }

    method Pop() returns (node: Node<T>)
      requires Valid() && nodes != []
      modifies this, nodes
      ensures Valid() && [node] + nodes == old(nodes)
      ensures node !in nodes && node.Unlinked()
    {
      node := head;
      Erase(node);
      RemoveAt(old(nodes), node, 0);
    }

    // Erasing serves linked nodes and nodes that were already detached alike;
    // on a detached node nothing in the list changes.
    method Erase(node: Node<T>)
      requires Valid() && (node in nodes || node.Unlinked())
      modifies this, node, nodes
      ensures Valid() && nodes == Remove(old(nodes), node)
      ensures node !in nodes && node.Unlinked()
      ensures node !in old(nodes) ==> unchanged(this) && unchanged(node) && unchanged(set n | n in nodes)
    {
      ghost var s := nodes;
      ghost var k := if node in s then IndexOf(s, node) else 0;
      if node.next != null {
        node.next.prev := node.prev;
      }
      if node.prev != null {
        node.prev.next := node.next;
      }
      if node == head {
        head := node.next;
      }
      node.next, node.prev := null, null;
      if node in s {
        BypassedIsLinked(s, k);
        BypassedAt(s, k, 0);
        RemovedIsGone(s, k);
        RemoveKeepsDistinct(s, k);
      } else {
        RemoveAbsent(s, node);
      }
      nodes := Remove(s, node);
    }

    static ghost function IndexOf(s: seq<Node<T>>, x: Node<T>): (k: nat)
      requires x in s && Distinct(s)
      ensures k < |s| && s[k] == x
    {
      var k :| 0 <= k < |s| && s[k] == x;
      k
    }
  }
}

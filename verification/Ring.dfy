/** The shape of the circular list, for nodes of any type. */
module Ring {
  import opened Common

  ghost predicate Distinct<N>(nodes: seq<N>) {
    forall i, j :: 0 <= i < j < |nodes| ==> nodes[i] != nodes[j]
  }

  /**
   `nodes` are the list's nodes from head to tail: each node's `next` pointer leads to the following
   one, and the tail's to the head.
   */
  ghost predicate RingShape<N>(nodes: seq<N>, head: Option<N>, tail: Option<N>, next: map<N, Option<N>>, count: nat) {
    && Distinct(nodes)
    && count == |nodes|
    && head == (if nodes == [] then None else Some(nodes[0]))
    && tail == (if nodes == [] then None else Some(nodes[|nodes| - 1]))
    && (forall i :: 0 <= i < |nodes| ==> nodes[i] in next)
    && (forall i :: 0 <= i < |nodes| - 1 ==> next[nodes[i]] == Some(nodes[i + 1]))
    && (nodes != [] ==> next[nodes[|nodes| - 1]] == head)
  }

  /** Where `k` steps along the `next` pointers lead. */
  function Walk<N>(next: map<N, Option<N>>, from: Option<N>, k: nat): Option<N> {
    if k == 0 then from
    else
      var p := Walk(next, from, k - 1);
      if p.Some? && p.value in next then next[p.value] else None
  }

  /** Walking from the head visits the nodes in turn and comes back to the head. */
  lemma {:induction false} WalkVisits<N>(nodes: seq<N>, head: Option<N>, tail: Option<N>, next: map<N, Option<N>>, count: nat, k: nat)
    requires RingShape(nodes, head, tail, next, count) && 0 < count && k <= count
    ensures Walk(next, head, k) == Some(nodes[if k == count then 0 else k])
  {
    if k > 0 {
      WalkVisits(nodes, head, tail, next, count, k - 1);
    }
  }

  /**
   The list as a program that only follows pointers sees it.  The first `count` steps from the head
   visit distinct nodes, the last of them is the tail, its successor is the head, and both pointers
   are null exactly when the count is 0.  Conversely, these facts make `nodes` the visited nodes.
   */
  lemma RingShapeIffWalk<N>(nodes: seq<N>, head: Option<N>, tail: Option<N>, next: map<N, Option<N>>, count: nat)
    ensures RingShape(nodes, head, tail, next, count) <==>
            && |nodes| == count
            && (forall k :: 0 <= k < count ==> Walk(next, head, k) == Some(nodes[k]) && nodes[k] in next)
            && Distinct(nodes)
            && (count == 0 <==> head == None) && (count == 0 <==> tail == None)
            && (count > 0 ==> tail == Walk(next, head, count - 1) && Walk(next, head, count) == head)
  {
    if RingShape(nodes, head, tail, next, count) && count > 0 {
      forall k | 0 <= k <= count
        ensures Walk(next, head, k) == Some(nodes[if k == count then 0 else k])
      {
        WalkVisits(nodes, head, tail, next, count, k);
      }
    }
    if |nodes| == count && count > 0 && (forall k :: 0 <= k < count ==> Walk(next, head, k) == Some(nodes[k]) && nodes[k] in next) {
      forall i | 0 <= i < count - 1
        ensures next[nodes[i]] == Some(nodes[i + 1])
      {
        assert Walk(next, head, i + 1) == next[nodes[i]];
      }
      assert Walk(next, head, count) == next[nodes[count - 1]];
      assert Walk(next, head, 0) == Some(nodes[0]);
    }
  }

  /** The pointers determine the nodes. */
  lemma RingDetermined<N>(ns: seq<N>, ms: seq<N>, head: Option<N>, tail: Option<N>, next: map<N, Option<N>>, count: nat)
    requires RingShape(ns, head, tail, next, count) && RingShape(ms, head, tail, next, count)
    ensures ns == ms
  {
    RingShapeIffWalk(ns, head, tail, next, count);
    RingShapeIffWalk(ms, head, tail, next, count);
    assert forall k :: 0 <= k < count ==> Walk(next, head, k) == Some(ns[k]) && Walk(next, head, k) == Some(ms[k]);
  }
}

/**
 The indication queue: a circular singly linked list of heap nodes that is updated in place.
 These methods run under the queue's mutex; module Driver treats their interleaving.
 */
module IndicationQueue {
  import opened Common
  import opened Callbacks
  import opened Indications
  import opened Ring
  import opened Fifo

  class ListNode {
    var next: ListNode?
    const indication: BalIndications
    var freed: bool

    constructor (indication: BalIndications)
      ensures this.indication == indication && !freed
    {
      this.indication := indication;
      freed := false;
    }

    method Free()
      requires !freed
      modifies this`freed
      ensures freed
    {
      freed := true;
    }
  }

  /** The node and its message are allocated in full. */
  ghost predicate Whole(n: ListNode)
    reads n`freed, n.indication
  {
    !n.freed && n.indication.Complete()
  }

  /** Frees the message of a node, then the node. */
  method Release(n: ListNode)
    requires Whole(n)
    modifies n`freed, n.indication`blocks, n.indication`frees
    ensures n.freed && n.indication.Released()
  {
    FreeMem(n.indication);
    n.Free();
  }

  function Pointer(n: ListNode?): Option<ListNode> {
    if n == null then None else Some(n)
  }

  class Queue {
    const maxSize: Bound
    var head: ListNode?
    var tail: ListNode?
    var numOfNodes: nat
    var dropCount: nat
    ghost var nodes: seq<ListNode>

    ghost function Links(): map<ListNode, Option<ListNode>>
      reads nodes, this
    {
      map n | n in nodes :: Pointer(n.next)
    }

    ghost function Messages(): set<BalIndications>
      reads this
    {
      set n | n in nodes :: n.indication
    }

    /** The node that goes if one is added, and its message. */
    ghost function Oldest(): set<ListNode>
      reads this
    {
      if |nodes| == maxSize then {nodes[0]} else {}
    }

    ghost function OldestMessage(): set<BalIndications>
      reads this
    {
      if |nodes| == maxSize then {nodes[0].indication} else {}
    }

    /** The pointers form the ring of `nodes`. */
    ghost predicate Linked()
      reads this, nodes
    {
      && Distinct(nodes)
      && numOfNodes == |nodes| <= maxSize
      && (nodes == [] ==> head == null && tail == null)
      && (nodes != [] ==> head == nodes[0] && tail == nodes[|nodes| - 1] && tail.next == head)
      && (forall i :: 0 <= i < |nodes| - 1 ==> nodes[i].next == nodes[i + 1])
    }

    lemma LinkedIffRing()
      ensures Linked() <==> numOfNodes <= maxSize && RingShape(nodes, Pointer(head), Pointer(tail), Links(), numOfNodes)
    {
      if RingShape(nodes, Pointer(head), Pointer(tail), Links(), numOfNodes) && nodes != [] {
        assert Links()[nodes[|nodes| - 1]] == Pointer(tail.next);
        forall i | 0 <= i < |nodes| - 1
          ensures nodes[i].next == nodes[i + 1]
        {
          assert Links()[nodes[i]] == Pointer(nodes[i].next);
        }
      }
    }

    ghost predicate Valid()
      reads this, nodes, Messages()
    {
      && Linked()
      && (forall i :: 0 <= i < |nodes| ==> Whole(nodes[i]))
      && (forall i, j :: 0 <= i < j < |nodes| ==> nodes[i].indication != nodes[j].indication)
    }

    /** The message that the next poll takes. */
    ghost function FirstMessage(): set<BalIndications>
      reads this
    {
      if nodes == [] then {} else {nodes[0].indication}
    }

    constructor (maxSize: Bound)
      ensures Valid() && nodes == [] && dropCount == 0 && this.maxSize == maxSize
    {
      this.maxSize := maxSize;
      head, tail, numOfNodes, dropCount, nodes := null, null, 0, 0, [];
    }

    /** Takes the oldest node out of the list.  The caller owns it; its `next` pointer is left as it was. */
    method Get() returns (node: ListNode?)
      requires Valid()
      modifies this`head, this`tail, this`numOfNodes, this`nodes, nodes`next
      ensures Valid()
      ensures nodes == Dequeued(old(nodes))
      ensures node == if old(nodes) == [] then null else old(nodes)[0]
      ensures node != null ==> Whole(node) && node.next == old(node.next) && node !in nodes && node.indication !in Messages()
    {
      node := null;
      if numOfNodes == 1 {
        node := head;
        head := null;
        tail := null;
        numOfNodes := 0;
        nodes := [];
      } else if numOfNodes > 1 {
        node := head;
        head := head.next;
        tail.next := head;
        numOfNodes := numOfNodes - 1;
        nodes := nodes[1..];
      }
    }

    /**
     The pointer and counter writes of the add routine: appends the node; from a full list unlinks
     the oldest node, counts it, and returns it.
     */
    method Link(node: ListNode) returns (headRef: ListNode?)
      requires Linked() && node !in nodes
      modifies this`head, this`tail, this`numOfNodes, this`dropCount, this`nodes, node`next, nodes`next
      ensures Linked() && nodes == Enqueued(maxSize, old(nodes), node)
      ensures headRef == if |old(nodes)| == maxSize then old(nodes)[0] else null
      ensures dropCount == old(dropCount) + if headRef != null then 1 else 0
    {
      headRef := null;
      if numOfNodes == 0 && head == null && tail == null {
        head := node;
        tail := node;
        head.next := node;
        tail.next := node;
        numOfNodes := numOfNodes + 1;
        nodes := nodes + [node];
      } else if numOfNodes == 1 && head != null && tail != null {
        head.next := node;
        tail := node;
        tail.next := head;
        numOfNodes := numOfNodes + 1;
        nodes := nodes + [node];
      } else if numOfNodes > 1 && numOfNodes < maxSize && head != null && tail != null {
        tail.next := node;
        tail := node;
        tail.next := head;
        numOfNodes := numOfNodes + 1;
        nodes := nodes + [node];
      } else if numOfNodes == maxSize && head != null && tail != null {
        headRef := head;
        dropCount := dropCount + 1;
        tail.next := node;
        tail := node;
        head := head.next;
        tail.next := head;
        nodes := nodes[1..] + [node];
      }
    }

    /** Releasing a node that is not in the list, with its message, leaves the list as it is. */
    method Discard(node: ListNode)
      requires Valid() && node !in nodes && Whole(node) && node.indication !in Messages()
      modifies node`freed, node.indication`blocks, node.indication`frees
      ensures Valid() && node.freed && node.indication.Released()
    {
      Release(node);
    }

    /** Appends a node.  A node displaced from a full list is freed together with its message. */
    method Add(node: ListNode)
      requires Valid()
      requires node !in nodes && Whole(node) && node.indication !in Messages()
      modifies this`head, this`tail, this`numOfNodes, this`dropCount, this`nodes, node`next, nodes`next
      modifies Oldest()`freed, OldestMessage()`blocks, OldestMessage()`frees
      ensures Valid() && nodes == Enqueued(maxSize, old(nodes), node)
      ensures dropCount == old(dropCount) + if |old(nodes)| == maxSize then 1 else 0
      ensures |old(nodes)| == maxSize ==>
                old(nodes)[0].freed && old(nodes)[0].indication.Released() && old(nodes)[0] !in nodes
    {
      var headRef := Link(node);
      if headRef != null {
        Discard(headRef);
      }
    }
  }

  /** The end of every callback: wraps the message in a node and adds it. */
  method AddIndication(q: Queue, indication: BalIndications) returns (node: ListNode)
    requires q.Valid() && indication.Complete() && indication !in q.Messages()
    modifies q`head, q`tail, q`numOfNodes, q`dropCount, q`nodes, q.nodes`next
    modifies q.Oldest()`freed, q.OldestMessage()`blocks, q.OldestMessage()`frees
    ensures q.Valid() && fresh(node) && node.indication == indication && indication.Content() == old(indication.Content())
    ensures q.nodes == Enqueued(q.maxSize, old(q.nodes), node)
    ensures q.dropCount == old(q.dropCount) + if |old(q.nodes)| == q.maxSize then 1 else 0
    ensures |old(q.nodes)| == q.maxSize ==> old(q.nodes)[0].freed && old(q.nodes)[0].indication.Released()
  {
    node := new ListNode(indication);
    q.Add(node);
  }

  /** A callback for messages of kind `u`: the guard, the message, and the queue. */
  method HandleIndication(q: Queue, u: UCase, obj: BalObject) returns (node: ListNode?)
    requires q.Valid()
    modifies q`head, q`tail, q`numOfNodes, q`dropCount, q`nodes, q.nodes`next
    modifies q.Oldest()`freed, q.OldestMessage()`blocks, q.OldestMessage()`frees
    ensures q.Valid()
    ensures node != null <==> Subscribed(u, obj)
    ensures node == null ==> q.nodes == old(q.nodes) && q.dropCount == old(q.dropCount)
    ensures node != null ==>
              && fresh(node) && node.indication.Content() == MessageFor(u, obj)
              && node.indication.uCase == u && node.indication.dest == obj.dest
              && q.nodes == Enqueued(q.maxSize, old(q.nodes), node)
              && q.dropCount == old(q.dropCount) + if |old(q.nodes)| == q.maxSize then 1 else 0
    ensures node != null && |old(q.nodes)| == q.maxSize ==> old(q.nodes)[0].freed && old(q.nodes)[0].indication.Released()
  {
    node := null;
    GuardIsSubscription(u, obj);
    hide Accepts, Subscribed;
    if Accepts(u, obj) {
      var indication := Build(u, obj);
      node := AddIndication(q, indication);
    }
  }

  /**
   The poll handler: takes the oldest node, replies with its message marked as present, and frees
   both.  The reply to a poll of the empty queue is marked as not present.
   */
  method PollIndication(q: Queue) returns (indPresent: bool, reply: Option<Message>)
    requires q.Valid()
    modifies q`head, q`tail, q`numOfNodes, q`nodes, q.nodes`next
    modifies q.nodes[..if q.nodes == [] then 0 else 1]`freed, q.FirstMessage()`blocks, q.FirstMessage()`frees
    ensures q.Valid() && q.nodes == Dequeued(old(q.nodes)) && q.dropCount == old(q.dropCount)
    ensures indPresent <==> old(q.nodes) != []
    ensures old(q.nodes) == [] ==> reply == None
    ensures old(q.nodes) != [] ==> var first := old(q.nodes)[0];
              && reply == Some(old(first.indication.Content()))
              && first.freed && first.indication.Released()
  {
    var node := q.Get();
    indPresent := node != null;
    if indPresent {
      reply := Some(node.indication.Content());
      q.Discard(node);
    } else {
      reply := None;
    }
  }
}

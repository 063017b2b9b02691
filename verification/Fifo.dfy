/**
 What the indication queue is for: a first-in first-out queue of at most `bound` entries that, once
 full, gives up its oldest entry for each new one.  The history theorems below hold for every
 sequence of operations.
 */
module Fifo {
  import opened Common

  datatype Op<X> = Add(item: X) | Poll

  datatype Tag = Delivered | Dropped

  /** An entry that has left the queue, and how. */
  datatype Retired<X> = Retired(item: X, tag: Tag)

  /** The entries in the queue, those that have left it (oldest first), and what each poll returned. */
  datatype History<X> = History(pending: seq<X>, retired: seq<Retired<X>>, replies: seq<Option<X>>)

  /** The queue after an add: the oldest entry goes if there are `bound` entries already. */
  function Enqueued<X>(bound: Bound, entries: seq<X>, entry: X): seq<X> {
    if |entries| < bound then entries + [entry] else entries[1..] + [entry]
  }

  /** The queue after a get. */
  function Dequeued<X>(entries: seq<X>): seq<X> {
    if entries == [] then [] else entries[1..]
  }

  function Step<X>(bound: Bound, h: History<X>, op: Op<X>): History<X> {
    match op
    case Add(x) =>
      var retired := if |h.pending| < bound then h.retired else h.retired + [Retired(h.pending[0], Dropped)];
      History(Enqueued(bound, h.pending, x), retired, h.replies)
    case Poll =>
      if h.pending == [] then h.(replies := h.replies + [None])
      else History(Dequeued(h.pending), h.retired + [Retired(h.pending[0], Delivered)], h.replies + [Some(h.pending[0])])
  }

  /** The history of a sequence of operations that starts with the empty queue. */
  function Run<X>(bound: Bound, ops: seq<Op<X>>): History<X> {
    if ops == [] then History([], [], [])
    else Step(bound, Run(bound, ops[..|ops| - 1]), ops[|ops| - 1])
  }

  lemma RunSnoc<X>(bound: Bound, ops: seq<Op<X>>, op: Op<X>)
    ensures Run(bound, ops + [op]) == Step(bound, Run(bound, ops), op)
  {
    assert (ops + [op])[..|ops|] == ops;
  }

  /** The entries given to the queue, in order. */
  function Accepted<X>(ops: seq<Op<X>>): seq<X> {
    if ops == [] then []
    else
      var before := Accepted(ops[..|ops| - 1]);
      match ops[|ops| - 1]
      case Add(x) => before + [x]
      case Poll => before
  }

  function Polls<X>(ops: seq<Op<X>>): nat {
    if ops == [] then 0
    else Polls(ops[..|ops| - 1]) + if ops[|ops| - 1].Poll? then 1 else 0
  }

  function Items<X>(retired: seq<Retired<X>>): (items: seq<X>)
    ensures |items| == |retired|
  {
    seq(|retired|, i requires 0 <= i < |retired| => retired[i].item)
  }

  function Count<X>(retired: seq<Retired<X>>, tag: Tag): nat {
    if retired == [] then 0
    else Count(retired[..|retired| - 1], tag) + if retired[|retired| - 1].tag == tag then 1 else 0
  }

  /** The delivered entries among those that have left the queue. */
  function Deliveries<X>(retired: seq<Retired<X>>): seq<X> {
    if retired == [] then []
    else
      var before, last := Deliveries(retired[..|retired| - 1]), retired[|retired| - 1];
      if last.tag == Delivered then before + [last.item] else before
  }

  /** The entries that polls returned; a poll of the empty queue returns none. */
  function Somes<X>(replies: seq<Option<X>>): seq<X> {
    if replies == [] then []
    else
      var before, last := Somes(replies[..|replies| - 1]), replies[|replies| - 1];
      if last.Some? then before + [last.value] else before
  }

  /** Nothing is lost, invented, repeated or reordered, and the queue never exceeds its bound. */
  lemma {:induction false} Conservation<X>(bound: Bound, ops: seq<Op<X>>)
    ensures var h := Run(bound, ops);
            && Items(h.retired) + h.pending == Accepted(ops)
            && |h.pending| <= bound
            && |h.replies| == Polls(ops)
  {
    if ops != [] {
      var before, op := ops[..|ops| - 1], ops[|ops| - 1];
      Conservation(bound, before);
      var h0, h := Run(bound, before), Run(bound, ops);
      if |h.retired| > |h0.retired| {
        assert Items(h.retired) == Items(h0.retired) + [h0.pending[0]];
        assert h0.pending == [h0.pending[0]] + h0.pending[1..];
      }
    }
  }

  /** The number of pending entries, from the numbers of accepted, delivered and dropped ones. */
  lemma {:induction false} PendingCount<X>(bound: Bound, ops: seq<Op<X>>)
    ensures var h := Run(bound, ops);
            |h.pending| == |Accepted(ops)| - |Deliveries(h.retired)| - Count(h.retired, Dropped)
  {
    if ops != [] {
      var before := ops[..|ops| - 1];
      PendingCount(bound, before);
      var h0, h := Run(bound, before), Run(bound, ops);
      if |h.retired| > |h0.retired| {
        assert h.retired[..|h0.retired|] == h0.retired;
      }
    }
  }

  lemma DeliveriesSnoc<X>(retired: seq<Retired<X>>, r: Retired<X>)
    ensures Deliveries(retired + [r]) == Deliveries(retired) + if r.tag == Delivered then [r.item] else []
  {
    assert (retired + [r])[..|retired|] == retired;
  }

  lemma SomesSnoc<X>(replies: seq<Option<X>>, r: Option<X>)
    ensures Somes(replies + [r]) == Somes(replies) + if r.Some? then [r.value] else []
  {
    assert (replies + [r])[..|replies|] == replies;
  }

  /** The polls return exactly the delivered entries: each once, in the order of acceptance. */
  lemma {:induction false} RepliesAreDeliveries<X>(bound: Bound, ops: seq<Op<X>>)
    ensures var h := Run(bound, ops); Somes(h.replies) == Deliveries(h.retired)
  {
    if ops != [] {
      var before, op := ops[..|ops| - 1], ops[|ops| - 1];
      RepliesAreDeliveries(bound, before);
      var h := Run(bound, before);
      if h.pending != [] {
        DeliveriesSnoc(h.retired, Retired(h.pending[0], if op.Poll? then Delivered else Dropped));
        SomesSnoc(h.replies, Some(h.pending[0]));
      }
      SomesSnoc(h.replies, None);
    }
  }

  /** What has left the queue stays as it is. */
  lemma {:induction false} RetiredGrows<X>(bound: Bound, ops: seq<Op<X>>, k: nat)
    requires k <= |ops|
    ensures Run(bound, ops[..k]).retired <= Run(bound, ops).retired
    ensures Run(bound, ops[..k]).replies <= Run(bound, ops).replies
    ensures Accepted(ops[..k]) <= Accepted(ops)
  {
    if k == |ops| {
      assert ops[..k] == ops;
    } else {
      var before := ops[..|ops| - 1];
      RetiredGrows(bound, before, k);
      assert before[..k] == ops[..k];
    }
  }

  ghost predicate IsDropped<X>(bound: Bound, ops: seq<Op<X>>, i: nat) {
    var retired := Run(bound, ops).retired;
    i < |retired| && retired[i].tag == Dropped
  }

  ghost predicate IsDelivered<X>(bound: Bound, ops: seq<Op<X>>, i: nat) {
    var retired := Run(bound, ops).retired;
    i < |retired| && retired[i].tag == Delivered
  }

  /** Operation `k` accepts entry number `i + bound` while entry number `i` has not been polled. */
  ghost predicate Displaces<X>(bound: Bound, ops: seq<Op<X>>, i: nat, k: nat)
    requires k < |ops|
  {
    ops[k].Add? && |Accepted(ops[..k])| == i + bound && !IsDelivered(bound, ops[..k], i)
  }

  /** One more operation drops entry `i` exactly if it displaces it. */
  lemma LossStep<X>(bound: Bound, ops: seq<Op<X>>, i: nat)
    requires ops != []
    ensures IsDropped(bound, ops, i) <==> IsDropped(bound, ops[..|ops| - 1], i) || Displaces(bound, ops, i, |ops| - 1)
  {
    Conservation(bound, ops[..|ops| - 1]);
  }

  /**
   The exact loss condition: entry `i` is dropped if and only if entry `i + bound` is accepted
   before entry `i` is polled.
   */
  lemma {:induction false} ExactLoss<X>(bound: Bound, ops: seq<Op<X>>, i: nat)
    ensures IsDropped(bound, ops, i) <==> exists k :: 0 <= k < |ops| && Displaces(bound, ops, i, k)
  {
    if ops != [] {
      var last := |ops| - 1;
      var before := ops[..last];
      ExactLoss(bound, before, i);
      LossStep(bound, ops, i);
      forall k | 0 <= k < last
        ensures Displaces(bound, ops, i, k) == Displaces(bound, before, i, k)
      {
        assert before[..k] == ops[..k];
      }
    }
  }

  /** Every accepted entry is in exactly one of three states. */
  lemma Trichotomy<X>(bound: Bound, ops: seq<Op<X>>, i: nat)
    requires i < |Accepted(ops)|
    ensures var h := Run(bound, ops);
            if i < |h.retired| then
              h.retired[i].item == Accepted(ops)[i] && (IsDelivered(bound, ops, i) <==> !IsDropped(bound, ops, i))
            else
              i - |h.retired| < |h.pending| && h.pending[i - |h.retired|] == Accepted(ops)[i]
  {
    Conservation(bound, ops);
    var h := Run(bound, ops);
    assert (Items(h.retired) + h.pending)[i] == Accepted(ops)[i];
  }

  /**
   No entry waits for ever.  Entry `i` waits behind `i - |retired|` entries; that distance never
   grows, and each poll shortens it.  So after one poll more than the distance entry `i` has left
   the queue, whatever is added meanwhile.
   */
  lemma {:induction false} Progress<X>(bound: Bound, ops: seq<Op<X>>, more: seq<Op<X>>, i: nat)
    requires i < |Accepted(ops)|
    ensures var before, after := |Run(bound, ops).retired|, |Run(bound, ops + more).retired|;
            && before <= after
            && (i < after || before + Polls(more) <= after)
            && (i - before < Polls(more) ==> i < after)
    ensures i < |Accepted(ops + more)|
  {
    if more == [] {
      assert ops + more == ops;
    } else {
      var init, op := more[..|more| - 1], more[|more| - 1];
      Progress(bound, ops, init, i);
      assert ops + more == (ops + init) + [op];
      RunSnoc(bound, ops + init, op);
      assert (ops + more)[..|ops + init|] == ops + init;
      Conservation(bound, ops + init);
    }
  }

  function PollTimes<X>(n: nat): (ops: seq<Op<X>>)
    ensures |ops| == n
  {
    seq(n, _ => Poll)
  }

  /** One more poll at the end of a run of polls. */
  lemma PollOnce<X>(bound: Bound, ops: seq<Op<X>>, n: nat)
    requires n > 0
    ensures var h, h' := Run(bound, ops + PollTimes(n - 1)), Run(bound, ops + PollTimes(n));
            && h'.pending == Dequeued(h.pending)
            && h'.replies == h.replies + [if h.pending == [] then None else Some(h.pending[0])]
  {
    assert ops + PollTimes(n) == (ops + PollTimes(n - 1)) + [Poll];
    RunSnoc(bound, ops + PollTimes(n - 1), Poll);
    hide Run;
  }

  /** With no adds, polling empties the queue from its head. */
  lemma {:induction false} DrainEmpties<X>(bound: Bound, ops: seq<Op<X>>, n: nat)
    ensures var h, h' := Run(bound, ops), Run(bound, ops + PollTimes(n));
            h'.pending == (if n <= |h.pending| then h.pending[n..] else []) && |h'.replies| == |h.replies| + n
  {
    hide Run;
    if n == 0 {
      assert ops + PollTimes(n) == ops;
    } else {
      DrainEmpties(bound, ops, n - 1);
      PollOnce(bound, ops, n);
    }
  }

  /** These polls deliver the whole content of the queue in order, and then find nothing. */
  lemma {:induction false} DrainDelivers<X>(bound: Bound, ops: seq<Op<X>>, n: nat, j: nat)
    requires j < n
    ensures var h, h' := Run(bound, ops), Run(bound, ops + PollTimes(n));
            |h'.replies| == |h.replies| + n && h'.replies[|h.replies| + j] == if j < |h.pending| then Some(h.pending[j]) else None
  {
    hide Run;
    DrainEmpties(bound, ops, n - 1);
    PollOnce(bound, ops, n);
    if j < n - 1 {
      DrainDelivers(bound, ops, n - 1, j);
    }
  }
}

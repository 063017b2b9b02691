/** What a step of one thread cannot affect. */
module DriverFrame {
  import opened Common
  import opened Indications
  import opened CriticalSection
  import opened Driver
  import opened DriverInvariant
  import Fifo

  ghost predicate SameAt(s: State, s': State, a: Addr) {
    && (a in s.owner <==> a in s'.owner) && (a in s.owner ==> s.owner[a] == s'.owner[a])
    && (a in s.memory.live <==> a in s'.memory.live) && Live(s.memory, a) == Live(s'.memory, a)
    && (a in s.memory.message <==> a in s'.memory.message)
    && (a in s.memory.message ==> s.memory.message[a] == s'.memory.message[a])
  }

  ghost predicate SameThread(s: State, s': State, u: Tid) {
    && (u in s.threads <==> u in s'.threads) && (u in s.threads ==> s.threads[u] == s'.threads[u])
    && (u in s.spare <==> u in s'.spare)
  }

  /** Between `s` and `s'` only thread `t` has run, and only the nodes `touched` have changed. */
  ghost predicate StepBy(s: State, s': State, t: Tid, touched: set<Addr>) {
    && (forall u: Tid :: u != t ==> SameThread(s, s', u))
    && (forall a: Addr :: a !in touched ==> SameAt(s, s', a))
    && (forall a :: a in touched && a in s.owner ==> s.owner[a] == Ring || s.owner[a] == Thread(t))
    && (t in s.threads && Cargo(s.threads[t]).Some? ==> Cargo(s.threads[t]).value in touched)
    && (s'.lock == s.lock || (s.lock in {None, Some(t)} && s'.lock in {None, Some(t)}))
    && s.ops <= s'.ops && |s'.ops| <= |s.ops| + 1
    && (s.ops != s'.ops ==> s.lock == None)
    && s.readings <= s'.readings
    && (s'.pollers == s.pollers || (s'.pollers == s.pollers + [t] && s.lock == None))
  }

  lemma OpsGrow(bound: Bound, ops: seq<Op>, ops': seq<Op>)
    requires ops <= ops'
    ensures Ran(bound, ops).retired <= Ran(bound, ops').retired
    ensures Ran(bound, ops).replies <= Ran(bound, ops').replies
    ensures Fifo.Accepted(ops) <= Fifo.Accepted(ops')
  {
    Fifo.RetiredGrows(bound, ops', |ops|);
    assert ops'[..|ops|] == ops;
  }

  /** The other threads. */
  lemma ThreadsKeep(bound: Bound, s: State, s': State, t: Tid, touched: set<Addr>)
    requires Inv(bound, s) && StepBy(s, s', t, touched)
    ensures forall u :: u in s'.threads && u != t ==> ThreadOK(bound, s', u)
  {
    hide Inv;
    OpsGrow(bound, s.ops, s'.ops);
    forall u | u in s'.threads && u != t
      ensures ThreadOK(bound, s', u)
    {
      assert SameThread(s, s', u);
      InvThread(bound, s, u);
      var cargo := Cargo(s.threads[u]);
      if cargo.Some? {
        assert SameAt(s, s', cargo.value);
      }
    }
  }

  /** The other nodes. */
  lemma AddrsKeep(bound: Bound, s: State, s': State, t: Tid, touched: set<Addr>)
    requires Inv(bound, s) && StepBy(s, s', t, touched)
    ensures forall a: Addr :: a !in touched ==> AddrOK(bound, s', a)
  {
    hide Inv;
    OpsGrow(bound, s.ops, s'.ops);
    forall a: Addr | a !in touched
      ensures AddrOK(bound, s', a)
    {
      assert SameAt(s, s', a);
      InvAddr(bound, s, a);
      if a in s.owner && s.owner[a].Thread? {
        assert SameThread(s, s', s.owner[a].t);
      }
    }
  }

  /** The keys of lost signals, if the lock has not been released meanwhile. */
  lemma LosKeeps(bound: Bound, s: State, s': State, t: Tid, touched: set<Addr>, i: nat)
    requires Inv(bound, s) && StepBy(s, s', t, touched)
    requires i < |Ran(bound, s.ops).retired| && Ran(bound, s.ops).retired[i].item.node !in touched
    requires s'.lock == s.lock || s.lock == None
    ensures LosOK(bound, s', i)
  {
    hide Inv;
    OpsGrow(bound, s.ops, s'.ops);
    var a := Ran(bound, s.ops).retired[i].item.node;
    InvLos(bound, s, i);
    InvAddr(bound, s, a);
    assert SameAt(s, s', a);
    if a in s.owner && s.owner[a].Thread? {
      assert SameThread(s, s', s.owner[a].t);
    }
  }

  /** The replies, if thread `t` still owes those it owed before or has written them. */
  lemma WireKeeps(bound: Bound, s: State, s': State, t: Tid, touched: set<Addr>, k: nat)
    requires Inv(bound, s) && StepBy(s, s', t, touched)
    requires s.wire.Keys <= s'.wire.Keys
    requires k in s'.wire ==>
               || (k in s.wire && s.wire[k] == s'.wire[k])
               || (k < |Ran(bound, s'.ops).replies| && s'.wire[k] == ReplyFor(Ran(bound, s'.ops).replies[k]))
    requires (|s.pollers| <= k < |s'.pollers|) || (t in s.threads && Unanswered(s.threads[t]) == Some(k)) ==>
               k in s'.wire || (t in s'.threads && Unanswered(s'.threads[t]) == Some(k))
    ensures WireOK(bound, s', k)
  {
    OpsGrow(bound, s.ops, s'.ops);
    assert WireOK(bound, s, k);
    if k < |s.pollers| && s.pollers[k] != t {
      assert SameThread(s, s', s.pollers[k]);
    }
  }

  /** The queue, if nothing that belongs to it is touched. */
  lemma QueueKeeps(bound: Bound, s: State, s': State)
    requires QueueOK(bound, s)
    requires s'.lock == s.lock && Holder(s') == Holder(s) && s'.ops == s.ops
    requires RingAddrs(s'.owner) == RingAddrs(s.owner)
    requires View(s'.memory, RingAddrs(s.owner)) == View(s.memory, RingAddrs(s.owner))
    ensures QueueOK(bound, s')
  {
  }

  /** A node that somebody owns has a live block, so the allocator never hands it out again. */
  lemma OwnedIsLive(bound: Bound, s: State, a: Addr)
    requires Inv(bound, s) && a in s.owner
    ensures Live(s.memory, a) != {}
  {
    assert AddrOK(bound, s, a);
    if s.owner[a].Thread? {
      var t := s.owner[a].t;
      assert ThreadOK(bound, s, t);
      if s.threads[t].Allocating? {
        var e, done := s.threads[t].entry, s.threads[t].done;
        assert OrderOf(e)[..done][0] in Elements(OrderOf(e)[..done]);
        assert Block(OrderOf(e)[..done][0]) in Live(s.memory, a);
      } else {
        assert Node in Live(s.memory, a);
      }
    } else if s.owner[a].Leaked? {
      assert Block(Key) in Live(s.memory, a);
    }
  }

  /** What one step has to establish itself. */
  lemma StepKeeps(bound: Bound, s: State, s': State, t: Tid, touched: set<Addr>)
    requires Inv(bound, s) && StepBy(s, s', t, touched)
    requires QueueOK(bound, s') && (s'.lock.Some? ==> s'.lock.value in s'.threads)
    requires t in s'.threads ==> ThreadOK(bound, s', t)
    requires t in s'.spare ==> t in s'.threads
    requires |s'.pollers| == Fifo.Polls(s'.ops)
    requires forall a :: a in touched ==> AddrOK(bound, s', a)
    requires forall i: nat ::
               (i < |Ran(bound, s'.ops).retired| &&
                (|Ran(bound, s.ops).retired| <= i || Ran(bound, s'.ops).retired[i].item.node in touched || (s.lock.Some? && s'.lock == None)))
               ==> LosOK(bound, s', i)
    requires s.wire.Keys <= s'.wire.Keys
    requires forall k: nat :: k in s'.wire ==>
               || (k in s.wire && s.wire[k] == s'.wire[k])
               || (k < |Ran(bound, s'.ops).replies| && s'.wire[k] == ReplyFor(Ran(bound, s'.ops).replies[k]))
    requires forall k: nat :: (|s.pollers| <= k < |s'.pollers|) || (t in s.threads && Unanswered(s.threads[t]) == Some(k)) ==>
               k in s'.wire || (t in s'.threads && Unanswered(s'.threads[t]) == Some(k))
    requires RebootOK(s')
    ensures Inv(bound, s')
  {
    OpsGrow(bound, s.ops, s'.ops);
    ThreadsKeep(bound, s, s', t, touched);
    AddrsKeep(bound, s, s', t, touched);
    var retired, retired' := Ran(bound, s.ops).retired, Ran(bound, s'.ops).retired;
    forall i: nat
      ensures LosOK(bound, s', i)
    {
      if i < |retired| && retired'[i].item.node !in touched && !(s.lock.Some? && s'.lock == None) {
        LosKeeps(bound, s, s', t, touched, i);
      }
    }
    forall k: nat
      ensures WireOK(bound, s', k)
    {
      WireKeeps(bound, s, s', t, touched, k);
    }
    forall u | u in s'.spare
      ensures u in s'.threads
    {
      if u != t {
        assert SameThread(s, s', u);
      }
    }
  }
}

/** Every step of the driver succeeds and keeps the invariant. */
module DriverSteps {
  import opened Common
  import opened Indications
  import opened Callbacks
  import opened CriticalSection
  import opened Driver
  import opened DriverInvariant
  import opened DriverFrame
  import Fifo

  /** A step of a thread outside the critical section, which touches no node of the queue. */
  ghost predicate Private(s: State, s': State, t: Tid, touched: set<Addr>) {
    && StepBy(s, s', t, touched)
    && s'.lock == s.lock && s.lock != Some(t) && s'.ops == s.ops && s'.pollers == s.pollers
    && (forall a :: a in touched && a in s.owner ==> s.owner[a] != Ring)
    && (forall a :: a in touched && a in s'.owner ==> s'.owner[a] != Ring)
    && s'.memory.head == s.memory.head && s'.memory.tail == s.memory.tail && s'.memory.next == s.memory.next
    && s'.memory.count == s.memory.count && s'.memory.drops == s.memory.drops
  }

  ghost predicate SameMemoryAt(m: Memory, m': Memory, a: Addr) {
    && (a in m.live <==> a in m'.live) && (a in m.live ==> m.live[a] == m'.live[a])
    && (a in m.message <==> a in m'.message) && (a in m.message ==> m.message[a] == m'.message[a])
  }

  lemma ViewSame(m: Memory, m': Memory, owned: set<Addr>)
    requires m'.head == m.head && m'.tail == m.tail && m'.next == m.next && m'.count == m.count && m'.drops == m.drops
    requires forall a :: a in owned ==> SameMemoryAt(m, m', a)
    ensures View(m, owned) == View(m', owned)
  {
    assert forall a :: a in owned ==> SameMemoryAt(m, m', a);
    assert View(m, owned).live == View(m', owned).live;
    assert View(m, owned).message == View(m', owned).message;
  }

  lemma PrivateQueue(bound: Bound, s: State, s': State, t: Tid, touched: set<Addr>)
    requires QueueOK(bound, s) && Private(s, s', t, touched)
    requires s.lock.Some? ==> s.lock.value in s.threads
    ensures QueueOK(bound, s')
    ensures s'.lock.Some? ==> s'.lock.value in s'.threads
  {
    var owned := RingAddrs(s.owner);
    forall a: Addr
      ensures a in RingAddrs(s'.owner) <==> a in owned
    {
      if a !in touched {
        assert SameAt(s, s', a);
      }
    }
    forall a | a in owned
      ensures SameMemoryAt(s.memory, s'.memory, a)
    {
      assert SameAt(s, s', a) && Live(s.memory, a) == Live(s'.memory, a);
    }
    ViewSame(s.memory, s'.memory, owned);
    if s.lock.Some? {
      assert SameThread(s, s', s.lock.value);
    }
    QueueKeeps(bound, s, s');
  }

  lemma PrivateStep(bound: Bound, s: State, s': State, t: Tid, touched: set<Addr>)
    requires Inv(bound, s) && Private(s, s', t, touched)
    requires t in s'.threads ==> ThreadOK(bound, s', t)
    requires t in s'.spare ==> t in s'.threads
    requires forall a :: a in touched ==> AddrOK(bound, s', a)
    requires forall i: nat :: i < |Ran(bound, s.ops).retired| && Ran(bound, s.ops).retired[i].item.node in touched ==> LosOK(bound, s', i)
    requires s.wire.Keys <= s'.wire.Keys
    requires forall k: nat :: k in s'.wire ==>
               || (k in s.wire && s.wire[k] == s'.wire[k])
               || (k < |Ran(bound, s.ops).replies| && s'.wire[k] == ReplyFor(Ran(bound, s.ops).replies[k]))
    requires t in s.threads && Unanswered(s.threads[t]).Some? ==>
               || Unanswered(s.threads[t]).value in s'.wire
               || (t in s'.threads && Unanswered(s'.threads[t]) == Unanswered(s.threads[t]))
    requires RebootOK(s')
    ensures Inv(bound, s')
  {
    hide Inv;
    InvQueue(bound, s);
    InvLog(bound, s);
    PrivateQueue(bound, s, s', t, touched);
    StepKeeps(bound, s, s', t, touched);
  }

  /** The same for the steps that log nothing. */
  lemma QuietStep(bound: Bound, s: State, s': State, t: Tid, touched: set<Addr>)
    requires Inv(bound, s) && Private(s, s', t, touched) && t in s.threads
    requires t in s'.threads ==> ThreadOK(bound, s', t)
    requires Unanswered(s.threads[t]) == None || (t in s'.threads && Unanswered(s'.threads[t]) == Unanswered(s.threads[t]))
    requires s'.wire == s.wire && s'.isReboot == s.isReboot && s'.readings == s.readings && s'.beats == s.beats
    requires s'.spare == s.spare && t !in s.spare
    requires forall a :: a in touched ==> AddrOK(bound, s', a)
    requires forall i: nat :: i < |Ran(bound, s.ops).retired| && Ran(bound, s.ops).retired[i].item.node in touched ==> LosOK(bound, s', i)
    ensures Inv(bound, s')
  {
    hide Inv;
    InvLog(bound, s);
    PrivateStep(bound, s, s', t, touched);
  }

  lemma BeginCallbackLocal(bound: Bound, s: State, t: Tid, u: UCase, obj: BalObject, a: Addr, s': State)
    requires s' == BeginCallback(s, t, u, obj, a).state && t !in s.threads && t in s'.threads
    requires a !in s.owner && s.lock != Some(t) && t !in s.spare
    ensures Private(s, s', t, {a}) && ThreadOK(bound, s', t) && AddrOK(bound, s', a)
  {
    var e := Entry(u, obj, a);
    FirstBlock(e);
    assert s' == Begun(s, t, e);
    hide BeginCallback, OrderOf, MessageOf;
    BegunPrivate(s, t, e);
    BegunOwn(bound, s, t, e);
  }

  lemma FirstBlock(e: Entry)
    ensures 1 <= |OrderOf(e)| && Blocks(Elements(OrderOf(e)[..1])) == {Block(Root)}
  {
    assert OrderOf(e)[..1] == [Root];
    assert Elements([Root]) == {Root};
  }

  /** The state in which a callback has allocated its first block. */
  function Begun(s: State, t: Tid, e: Entry): State {
    s.(memory := s.memory.(message := s.memory.message[e.node := MessageOf(e)], live := s.memory.live[e.node := {Block(Root)}]),
       threads := s.threads[t := Allocating(e, 1)],
       owner := s.owner[e.node := Thread(t)])
  }

  lemma BegunPrivate(s: State, t: Tid, e: Entry)
    requires t !in s.threads && e.node !in s.owner && s.lock != Some(t) && t !in s.spare
    ensures Private(s, Begun(s, t, e), t, {e.node})
  {
    hide MessageOf;
  }

  lemma BegunOwn(bound: Bound, s: State, t: Tid, e: Entry)
    requires t !in s.threads && e.node !in s.owner && s.lock != Some(t) && t !in s.spare
    requires 1 <= |OrderOf(e)| && Blocks(Elements(OrderOf(e)[..1])) == {Block(Root)}
    ensures ThreadOK(bound, Begun(s, t, e), t) && AddrOK(bound, Begun(s, t, e), e.node)
  {
    hide MessageOf, OrderOf, Elements, Blocks, Fifo.Run;
  }

  lemma NotHolder(bound: Bound, s: State, t: Tid)
    requires Inv(bound, s) && t !in s.threads
    ensures s.lock != Some(t)
  {
    InvQueue(bound, s);
    hide Inv;
  }

  lemma NotOwned(bound: Bound, s: State, a: Addr)
    requires Inv(bound, s) && Live(s.memory, a) == {}
    ensures a !in s.owner
  {
    hide Inv;
    if a in s.owner {
      OwnedIsLive(bound, s, a);
    }
  }

  lemma UnownedLos(bound: Bound, s: State, s': State, a: Addr)
    requires Inv(bound, s) && a !in s.owner && s'.ops == s.ops
    ensures forall i: nat :: i < |Ran(bound, s.ops).retired| && Ran(bound, s.ops).retired[i].item.node == a ==> LosOK(bound, s', i)
  {
    hide Inv;
    forall i: nat | i < |Ran(bound, s.ops).retired| && Ran(bound, s.ops).retired[i].item.node == a
      ensures LosOK(bound, s', i)
    {
      InvLos(bound, s, i);
    }
  }

  lemma BeginCallbackKeeps(bound: Bound, s: State, t: Tid, u: UCase, obj: BalObject, a: Addr)
    requires Inv(bound, s)
    ensures var o := BeginCallback(s, t, u, obj, a); o.Ok? && Inv(bound, o.state)
  {
    hide Inv;
    var s' := BeginCallback(s, t, u, obj, a).state;
    if s' != s {
      InvLog(bound, s);
      NotHolder(bound, s, t);
      NotOwned(bound, s, a);
      BeginCallbackLocal(bound, s, t, u, obj, a, s');
      UnownedLos(bound, s, s', a);
      PrivateStep(bound, s, s', t, {a});
    }
  }

  lemma PathInBlocks(p: Part, parts: set<Part>)
    requires Ancestors(p) <= parts
    ensures PathLive(p, Parts(Blocks(parts)))
  {
    PartsOfBlocks(parts);
    PathLiveIff(p, parts);
  }

  lemma BlocksSnoc(order: seq<Part>, done: nat)
    requires done < |order|
    ensures Blocks(Elements(order[..done])) + {Block(order[done])} == Blocks(Elements(order[..done + 1]))
  {
    assert order[..done + 1] == order[..done] + [order[done]];
    assert Elements(order[..done + 1]) == Elements(order[..done]) + {order[done]};
  }

  /** The next block is linked into blocks that exist. */
  lemma AllocatedNext(e: Entry, done: nat)
    requires 1 <= done < |OrderOf(e)|
    ensures var order := OrderOf(e);
            var pieces := Blocks(Elements(order[..done]));
            PathLive(order[done], Parts(pieces)) && pieces + {Block(order[done])} == Blocks(Elements(order[..done + 1]))
  {
    var order := OrderOf(e);
    AllocTableOrdered(e.uCase, e.obj.dest);
    PathInBlocks(order[done], {} + Elements(order[..done]));
    assert {} + Elements(order[..done]) == Elements(order[..done]);
    BlocksSnoc(order, done);
  }

  /** The blocks after each allocation. */
  lemma AllocatedSoFar(e: Entry, done: nat)
    requires 1 <= done <= |OrderOf(e)|
    ensures var order := OrderOf(e);
            var pieces := Blocks(Elements(order[..done]));
            if done < |order| then
              PathLive(order[done], Parts(pieces)) && pieces + {Block(order[done])} == Blocks(Elements(order[..done + 1]))
            else pieces + {Node} == AllPieces(MessageOf(e))
  {
    if done < |OrderOf(e)| {
      AllocatedNext(e, done);
    } else {
      assert OrderOf(e)[..done] == OrderOf(e);
    }
  }

  /** A thread that changes the blocks of the node it holds. */
  lemma PrivateUpdate(s: State, s': State, t: Tid, a: Addr, pieces: set<Piece>, p: Phase)
    requires s' == s.(memory := s.memory.(live := s.memory.live[a := pieces]), threads := s.threads[t := p])
    requires t in s.threads && Cargo(s.threads[t]) == Some(a) && s.lock != Some(t) && t !in s.spare
    requires a in s.owner && s.owner[a] == Thread(t)
    ensures Private(s, s', t, {a})
  {
  }

  lemma AllocateLocal(bound: Bound, s: State, t: Tid, e: Entry, done: nat)
    requires t in s.threads && s.threads[t] == Allocating(e, done) && ThreadOK(bound, s, t) && AddrOK(bound, s, e.node)
    ensures var o := Allocate(s, t, e, done);
            o.Ok? && Private(s, o.state, t, {e.node}) && ThreadOK(bound, o.state, t) && AddrOK(bound, o.state, e.node)
  {
    AllocatedSoFar(e, done);
    var o := Allocate(s, t, e, done);
    var piece := if done < |OrderOf(e)| then Block(OrderOf(e)[done]) else Node;
    PrivateUpdate(s, o.state, t, e.node, Live(s.memory, e.node) + {piece}, o.state.threads[t]);
  }

  lemma AllocateKeeps(bound: Bound, s: State, t: Tid, e: Entry, done: nat)
    requires Inv(bound, s) && t in s.threads && s.threads[t] == Allocating(e, done)
    ensures var o := Allocate(s, t, e, done); o.Ok? && Inv(bound, o.state)
  {
    hide Inv;
    InvThread(bound, s, t);
    InvAddr(bound, s, e.node);
    AllocateLocal(bound, s, t, e, done);
    var s' := Allocate(s, t, e, done).state;
    CargoKept(bound, s, s', t, e.node);
    QuietStep(bound, s, s', t, {e.node});
  }

  /** An indication that had the address of a thread's node before and has left the queue. */
  lemma CargoKept(bound: Bound, s: State, s': State, t: Tid, a: Addr)
    requires Inv(bound, s) && t in s.threads && Cargo(s.threads[t]) == Some(a) && s'.ops == s.ops
    requires TakenIndex(s.threads[t]) == None ||
             (t in s'.threads && TakenIndex(s'.threads[t]) == TakenIndex(s.threads[t]) && a in s'.owner && s'.owner[a] == Thread(t))
    ensures forall i: nat :: i < |Ran(bound, s.ops).retired| && Ran(bound, s.ops).retired[i].item.node == a ==> LosOK(bound, s', i)
  {
    InvThread(bound, s, t);
    hide Inv;
    forall i: nat | i < |Ran(bound, s.ops).retired| && Ran(bound, s.ops).retired[i].item.node == a
      ensures LosOK(bound, s', i)
    {
      InvLos(bound, s, i);
    }
  }

  /** A thread without a node changes its phase, and the set of spare replies at most for itself. */
  lemma PrivatePhase(bound: Bound, s: State, s': State, t: Tid)
    requires s'.memory == s.memory && s'.owner == s.owner && s'.lock == s.lock && s'.ops == s.ops && s'.pollers == s.pollers
    requires s'.threads - {t} == s.threads - {t} && s'.spare - {t} == s.spare - {t}
    requires t in s.threads ==> ThreadOK(bound, s, t) && Cargo(s.threads[t]) == None
    requires s.lock != Some(t) && s.readings <= s'.readings
    ensures Private(s, s', t, {})
  {
    forall u: Tid | u != t
      ensures SameThread(s, s', u)
    {
      assert u in s.spare <==> u in s.spare - {t};
      assert u in s'.spare <==> u in s'.spare - {t};
      assert u in s.threads <==> u in s.threads - {t};
      assert u in s'.threads <==> u in s'.threads - {t};
      assert u in s.threads ==> s.threads[u] == (s.threads - {t})[u];
      assert u in s'.threads ==> s'.threads[u] == (s'.threads - {t})[u];
    }
  }

  lemma StartKeeps(bound: Bound, s: State, t: Tid, p: Phase)
    requires Inv(bound, s) && p in {PollStart, BeatStart}
    ensures var o := Start(s, t, p); o.Ok? && Inv(bound, o.state)
  {
    hide Inv;
    if t !in s.threads {
      var s' := s.(threads := s.threads[t := p]);
      InvLog(bound, s);
      NotHolder(bound, s, t);
      PrivatePhase(bound, s, s', t);
      PrivateStep(bound, s, s', t, {});
    }
  }

  lemma BeatReboot(s: State, t: Tid, s': State)
    requires t in s.threads && StepBeat(s, t) == Ok(s') && RebootOK(s)
    requires s.threads[t].BeatRead? ==> s.threads[t].number < |s.readings| && s.readings[s.threads[t].number] == s.threads[t].status
    ensures RebootOK(s')
  {
    hide Fifo.Accepted;
  }

  lemma BeatLocal(bound: Bound, s: State, t: Tid, s': State)
    requires t in s.threads && (s.threads[t].BeatStart? || s.threads[t].BeatRead?) && StepBeat(s, t) == Ok(s')
    requires ThreadOK(bound, s, t) && RebootOK(s)
    ensures Private(s, s', t, {}) && (t in s'.threads ==> ThreadOK(bound, s', t)) && RebootOK(s')
  {
    hide RebootOK, Private;
    BeatReboot(s, t, s');
    PrivatePhase(bound, s, s', t);
  }

  /** The steps of a heartbeat. */
  lemma BeatKeeps(bound: Bound, s: State, t: Tid)
    requires Inv(bound, s) && t in s.threads && (s.threads[t].BeatStart? || s.threads[t].BeatRead?)
    ensures var o := StepBeat(s, t); o.Ok? && Inv(bound, o.state)
  {
    hide Inv;
    InvThread(bound, s, t);
    InvLog(bound, s);
    var s' := StepBeat(s, t).state;
    BeatLocal(bound, s, t, s');
    PrivateStep(bound, s, s', t, {});
  }

  lemma FinishAddKeeps(bound: Bound, s: State, t: Tid, e: Entry)
    requires Inv(bound, s) && t in s.threads && s.threads[t] == Added(e)
    ensures var o := FinishAdd(s, t, e); o.Ok? && Inv(bound, o.state)
  {
    hide Inv;
    InvThread(bound, s, t);
    InvLog(bound, s);
    var s' := FinishAdd(s, t, e).state;
    PrivatePhase(bound, s, s', t);
    PrivateStep(bound, s, s', t, {});
  }

  lemma BeforeRelease(msg: Message)
    ensures Node in AllPieces(msg) && PiecesAfter(msg, 0) == AllPieces(msg)
  {
    assert FreeOrder(msg.uCase, msg.dest)[..0] == [];
    assert Elements([]) == {};
  }

  lemma MarkPresentRuns(bound: Bound, s: State, t: Tid, ticket: nat, index: nat, a: Addr)
    requires t in s.threads && s.threads[t] == Taken(ticket, index, a) && ThreadOK(bound, s, t) && AddrOK(bound, s, a)
    ensures MessageLive(s.memory, a) && a in s.owner && s.owner[a] == Thread(t) && s.lock != Some(t)
  {
    BeforeRelease(s.memory.message[a]);
  }

  /** A thread that holds a node changes its phase. */
  lemma PrivateMove(s: State, s': State, t: Tid, a: Addr, p: Phase)
    requires t in s.threads && Cargo(s.threads[t]) == Some(a) && s.lock != Some(t) && t !in s.spare
    requires a in s.owner && s.owner[a] == Thread(t) && (s' == s.(threads := s.threads[t := p], wire := s'.wire))
    ensures Private(s, s', t, {a})
  {
  }

  lemma MarkPresentLocal(bound: Bound, s: State, t: Tid, ticket: nat, index: nat, a: Addr)
    requires t in s.threads && s.threads[t] == Taken(ticket, index, a) && ThreadOK(bound, s, t) && AddrOK(bound, s, a)
    ensures var o := MarkPresent(s, t, ticket, index, a);
            o.Ok? && Private(s, o.state, t, {a}) && ThreadOK(bound, o.state, t) && AddrOK(bound, o.state, a)
  {
    hide Private, AllPieces, MessageOf, Fifo.Run;
    MarkPresentRuns(bound, s, t, ticket, index, a);
    PrivateMove(s, MarkPresent(s, t, ticket, index, a).state, t, a, Marked(ticket, index, a));
  }

  lemma MarkPresentKeeps(bound: Bound, s: State, t: Tid, ticket: nat, index: nat, a: Addr)
    requires Inv(bound, s) && t in s.threads && s.threads[t] == Taken(ticket, index, a)
    ensures var o := MarkPresent(s, t, ticket, index, a); o.Ok? && Inv(bound, o.state)
  {
    hide Inv;
    InvThread(bound, s, t);
    InvAddr(bound, s, a);
    MarkPresentLocal(bound, s, t, ticket, index, a);
    var s' := MarkPresent(s, t, ticket, index, a).state;
    CargoKept(bound, s, s', t, a);
    QuietStep(bound, s, s', t, {a});
  }

  lemma WriteMessageReply(bound: Bound, s: State, t: Tid, ticket: nat, index: nat, a: Addr)
    requires t in s.threads && s.threads[t] == Marked(ticket, index, a) && ThreadOK(bound, s, t) && AddrOK(bound, s, a)
    ensures var o := WriteMessage(s, t, ticket, index, a);
            && o.Ok? && ticket < |Ran(bound, s.ops).replies|
            && o.state.wire == s.wire[ticket := ReplyFor(Ran(bound, s.ops).replies[ticket])]
  {
    BeforeRelease(s.memory.message[a]);
  }

  lemma WriteMessageLocal(bound: Bound, s: State, t: Tid, ticket: nat, index: nat, a: Addr)
    requires t in s.threads && s.threads[t] == Marked(ticket, index, a) && ThreadOK(bound, s, t) && AddrOK(bound, s, a)
    ensures var o := WriteMessage(s, t, ticket, index, a);
            o.Ok? && Private(s, o.state, t, {a}) && ThreadOK(bound, o.state, t) && AddrOK(bound, o.state, a)
  {
    hide Private, PiecesAfter, FreeOrder, MessageOf, Fifo.Run;
    BeforeRelease(s.memory.message[a]);
    PrivateMove(s, WriteMessage(s, t, ticket, index, a).state, t, a, Releasing(index, a, 0));
  }

  lemma WriteMessageKeeps(bound: Bound, s: State, t: Tid, ticket: nat, index: nat, a: Addr)
    requires Inv(bound, s) && t in s.threads && s.threads[t] == Marked(ticket, index, a)
    ensures var o := WriteMessage(s, t, ticket, index, a); o.Ok? && Inv(bound, o.state)
  {
    hide Inv;
    InvThread(bound, s, t);
    InvAddr(bound, s, a);
    InvLog(bound, s);
    WriteMessageReply(bound, s, t, ticket, index, a);
    WriteMessageLocal(bound, s, t, ticket, index, a);
    var s' := WriteMessage(s, t, ticket, index, a).state;
    CargoKept(bound, s, s', t, a);
    PrivateStep(bound, s, s', t, {a});
  }

  /** The blocks before and after each free of the release routine; none of them has gone before. */
  lemma ReleasedSoFar(msg: Message, done: nat)
    requires done <= |FreeOrder(msg.uCase, msg.dest)|
    ensures var order := FreeOrder(msg.uCase, msg.dest);
            var pieces := PiecesAfter(msg, done);
            if done < |order| then
                 && Block(order[done]) in pieces && PathLive(order[done], Parts(pieces))
                 && pieces - {Block(order[done])} == PiecesAfter(msg, done + 1)
               else pieces - {Node} == Remains(msg)
  {
    var order, all := FreeOrder(msg.uCase, msg.dest), Allocated(msg.uCase, msg.dest);
    PartsOfBlocks(all - Elements(order[..done]));
    FreeTableInside(msg.uCase, msg.dest);
    FreeTableOrdered(msg.uCase, msg.dest);
    if done < |order| {
      assert order[..done + 1] == order[..done] + [order[done]];
      assert Elements(order[..done + 1]) == Elements(order[..done]) + {order[done]};
    } else {
      assert order[..done] == order;
      TablesAgree(msg.uCase, msg.dest);
    }
  }

  lemma BlockFreed(s: State, t: Tid, index: nat, a: Addr, done: nat, p: Part)
    requires t in s.threads && Cargo(s.threads[t]) == Some(a) && s.lock != Some(t) && t !in s.spare
    requires a in s.owner && s.owner[a] == Thread(t) && a in s.memory.message
    requires done < |FreeOrder(s.memory.message[a].uCase, s.memory.message[a].dest)|
    requires p == FreeOrder(s.memory.message[a].uCase, s.memory.message[a].dest)[done]
    requires Block(p) in Live(s.memory, a) && PathLive(p, Parts(Live(s.memory, a)))
    ensures var s' := s.(memory := s.memory.(live := s.memory.live[a := Live(s.memory, a) - {Block(p)}]),
                         threads := s.threads[t := Releasing(index, a, done + 1)]);
            Release(s, t, index, a, done) == Ok(s') && Private(s, s', t, {a})
  {
    hide FreeOrder, PathLive, Parts, Private;
    var pieces, next := Live(s.memory, a) - {Block(p)}, Releasing(index, a, done + 1);
    var s' := s.(memory := s.memory.(live := s.memory.live[a := pieces]), threads := s.threads[t := next]);
    PrivateUpdate(s, s', t, a, pieces, next);
  }

  lemma ReleaseBlockLocal(bound: Bound, s: State, t: Tid, index: nat, a: Addr, done: nat)
    requires t in s.threads && s.threads[t] == Releasing(index, a, done) && ThreadOK(bound, s, t) && AddrOK(bound, s, a)
    requires done < |FreeOrder(s.memory.message[a].uCase, s.memory.message[a].dest)|
    ensures var o := Release(s, t, index, a, done);
            && o.Ok? && Private(s, o.state, t, {a}) && ThreadOK(bound, o.state, t) && AddrOK(bound, o.state, a)
            && t in o.state.threads && o.state.threads[t] == Releasing(index, a, done + 1)
            && o.state.wire == s.wire && o.state.isReboot == s.isReboot && o.state.readings == s.readings
            && o.state.beats == s.beats && o.state.spare == s.spare
  {
    hide FreeOrder, PiecesAfter, PathLive, Parts, Private, Release, Fifo.Run;
    var msg := s.memory.message[a];
    ReleasedSoFar(msg, done);
    BlockFreed(s, t, index, a, done, FreeOrder(msg.uCase, msg.dest)[done]);
  }

  /** The state after thread `t` has freed the node, the last of its blocks but for `left`. */
  lemma NodeFreed(s: State, t: Tid, index: nat, a: Addr, left: set<Piece>)
    requires t in s.threads && Cargo(s.threads[t]) == Some(a) && s.lock != Some(t) && t !in s.spare
    requires a in s.owner && s.owner[a] == Thread(t) && Node in Live(s.memory, a) && left == Live(s.memory, a) - {Node}
    ensures var o := FreeNode(s, a, index, s.threads - {t});
            && o.Ok? && Private(s, o.state, t, {a}) && t !in o.state.threads
            && o.state.wire == s.wire && o.state.isReboot == s.isReboot && o.state.readings == s.readings
            && o.state.beats == s.beats && o.state.spare == s.spare && o.state.ops == s.ops
            && o.state.memory.message == s.memory.message && a in o.state.memory.live && Live(o.state.memory, a) == left
            && (if left == {} then a !in o.state.owner else a in o.state.owner && o.state.owner[a] == Leaked(index))
  {
  }

  lemma ReleaseNodeLocal(bound: Bound, s: State, t: Tid, index: nat, a: Addr, done: nat)
    requires t in s.threads && s.threads[t] == Releasing(index, a, done) && ThreadOK(bound, s, t) && AddrOK(bound, s, a)
    requires done == |FreeOrder(s.memory.message[a].uCase, s.memory.message[a].dest)|
    ensures var o := Release(s, t, index, a, done);
            && o.Ok? && Private(s, o.state, t, {a}) && t !in o.state.threads && AddrOK(bound, o.state, a)
            && o.state.wire == s.wire && o.state.isReboot == s.isReboot && o.state.readings == s.readings
            && o.state.beats == s.beats && o.state.spare == s.spare
            && (s.memory.message[a].uCase == InterfaceLos ==> a in o.state.owner && o.state.owner[a] == Leaked(index))
  {
    var msg := s.memory.message[a];
    ReleasedSoFar(msg, done);
    assert Node in PiecesAfter(msg, done) && Live(s.memory, a) == PiecesAfter(msg, done);
    assert Remains(msg) == if msg.uCase == InterfaceLos then {Block(Key)} else {};
    hide Private, PiecesAfter, Remains, FreeOrder, FreeNode, Fifo.Run;
    NodeFreed(s, t, index, a, Remains(msg));
  }

  lemma ReleaseKeeps(bound: Bound, s: State, t: Tid, index: nat, a: Addr, done: nat)
    requires Inv(bound, s) && t in s.threads && s.threads[t] == Releasing(index, a, done)
    ensures var o := Release(s, t, index, a, done); o.Ok? && Inv(bound, o.state)
  {
    hide Inv;
    InvThread(bound, s, t);
    InvAddr(bound, s, a);
    if done < |FreeOrder(s.memory.message[a].uCase, s.memory.message[a].dest)| {
      ReleaseBlockLocal(bound, s, t, index, a, done);
      CargoKept(bound, s, Release(s, t, index, a, done).state, t, a);
    } else {
      ReleaseNodeLocal(bound, s, t, index, a, done);
      TakenOnce(bound, s, t, index, a);
    }
    QuietStep(bound, s, Release(s, t, index, a, done).state, t, {a});
  }

  /** The only lost signal at the address of a node that is being released is the one it carries. */
  lemma TakenOnce(bound: Bound, s: State, t: Tid, index: nat, a: Addr)
    requires Inv(bound, s) && t in s.threads && TakenIndex(s.threads[t]) == Some(index) && Cargo(s.threads[t]) == Some(a)
    ensures var retired := Ran(bound, s.ops).retired;
            forall i: nat :: i < |retired| && retired[i].item.node == a && retired[i].item.uCase == InterfaceLos ==> i == index
  {
    InvThread(bound, s, t);
    hide Inv;
    var retired := Ran(bound, s.ops).retired;
    forall i: nat | i < |retired| && retired[i].item.node == a && retired[i].item.uCase == InterfaceLos
      ensures i == index
    {
      InvLos(bound, s, i);
    }
  }

  lemma NothingTakenKeeps(bound: Bound, s: State, t: Tid, ticket: nat)
    requires Inv(bound, s) && t in s.threads && s.threads[t] == NothingTaken(ticket)
    ensures Inv(bound, s.(spare := s.spare + {t}, threads := s.threads[t := EmptyReply(ticket)]))
  {
    hide Inv;
    InvThread(bound, s, t);
    InvLog(bound, s);
    var s' := s.(spare := s.spare + {t}, threads := s.threads[t := EmptyReply(ticket)]);
    PrivatePhase(bound, s, s', t);
    PrivateStep(bound, s, s', t, {});
  }

  lemma EmptyReplyKeeps(bound: Bound, s: State, t: Tid, ticket: nat)
    requires Inv(bound, s) && t in s.threads && s.threads[t] == EmptyReply(ticket)
    ensures Inv(bound, s.(wire := s.wire[ticket := Absent], threads := s.threads[t := EmptyWritten]))
  {
    hide Inv;
    InvThread(bound, s, t);
    InvLog(bound, s);
    var s' := s.(wire := s.wire[ticket := Absent], threads := s.threads[t := EmptyWritten]);
    PrivatePhase(bound, s, s', t);
    PrivateStep(bound, s, s', t, {});
  }

  lemma EmptyWrittenKeeps(bound: Bound, s: State, t: Tid)
    requires Inv(bound, s) && t in s.threads && s.threads[t] == EmptyWritten
    ensures t in s.spare && Inv(bound, s.(spare := s.spare - {t}, threads := s.threads - {t}))
  {
    hide Inv;
    InvThread(bound, s, t);
    InvLog(bound, s);
    var s' := s.(spare := s.spare - {t}, threads := s.threads - {t});
    PrivatePhase(bound, s, s', t);
    PrivateStep(bound, s, s', t, {});
  }
}

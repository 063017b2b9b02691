/** Who owns each heap block after every run, and what there is on the heap. */
module DriverOwnership {
  import opened Common
  import opened Callbacks
  import opened Indications
  import opened CriticalSection
  import opened Driver
  import opened DriverInvariant
  import opened DriverFrame
  import opened DriverTheorems
  import opened QueueSteps
  import Fifo

  /** Thread `t` holds the node at `a`. */
  ghost predicate Holds(s: State, t: Tid, a: Addr) {
    t in s.threads && Cargo(s.threads[t]) == Some(a)
  }

  /**
   The node at `a` is the one that the operation in the critical section takes out of the queue, and
   it is still in the hands of the lock holder.
   */
  ghost predicate OnItsWayOut(s: State, h: History, a: Addr) {
    && s.lock.Some? && a in RingAddrs(s.owner) && a !in Nodes(h.pending)
    && h.retired != [] && h.retired[|h.retired| - 1].item.node == a
  }

  /** Loss-of-signal indication `i` has been released, and has left its key behind in the blocks of the node at `a`. */
  ghost predicate LeftAt(s: State, h: History, i: nat, a: Addr) {
    && i < |h.retired| && h.retired[i].item.uCase == InterfaceLos && h.retired[i].item.node == a
    && (forall t :: t in s.threads ==> TakenIndex(s.threads[t]) != Some(i))
    && !(i + 1 == |h.retired| && OnItsWayOut(s, h, a))
  }

  ghost predicate Held(s: State, a: Addr) {
    exists t: Tid :: Holds(s, t, a)
  }

  ghost predicate Left(s: State, h: History, a: Addr) {
    exists i: nat :: LeftAt(s, h, i, a)
  }

  /** The nodes that belong to the queue, besides the one on its way out. */
  ghost predicate QueueOwns(owned: set<Addr>, h: History, out: bool) {
    && (forall a :: a in Nodes(h.pending) ==> a in owned)
    && (forall a :: a in owned && a !in Nodes(h.pending) ==> out && h.retired != [] && h.retired[|h.retired| - 1].item.node == a)
  }

  /** The history before and after an add. */
  lemma AddStep(bound: Bound, ops: seq<Op>, e: Entry)
    ensures Ran(bound, ops + [Fifo.Add(e)]) == Fifo.Step(bound, Ran(bound, ops), Fifo.Add(e))
  {
    Fifo.RunSnoc(bound, ops, Fifo.Add(e));
  }

  lemma AddOwns(bound: Bound, m: Memory, owned: set<Addr>, h: History, e: Entry)
    requires Settled(m, owned, h.pending, Drops(h), Some(e.node))
    ensures QueueOwns(owned, Fifo.Step(bound, h, Fifo.Add(e)), true)
  {
    hide RingIn, EntryIn;
    NodesOfSeqs(h.pending, e);
  }

  lemma AddLockedOwns(bound: Bound, m: Memory, owned: set<Addr>, ops: seq<Op>, e: Entry)
    requires SectionOK(bound, m, owned, Some(AddLocked(e)), ops)
    ensures QueueOwns(owned, Ran(bound, ops), true)
  {
    hide QueueOwns, Settled, EntryIn, Fifo.Run, Fifo.Step;
    var before := ops[..|ops| - 1];
    assert ops == before + [Fifo.Add(e)];
    AddStep(bound, before, e);
    AddOwns(bound, m, owned, Ran(bound, before), e);
  }

  lemma GetLockedOwns(bound: Bound, m: Memory, owned: set<Addr>, ops: seq<Op>, ticket: nat)
    requires SectionOK(bound, m, owned, Some(GetLocked(ticket)), ops)
    ensures QueueOwns(owned, Ran(bound, ops), true)
  {
    var h := Ran(bound, ops[..|ops| - 1]);
    assert ops == ops[..|ops| - 1] + [Fifo.Poll];
    if h.pending != [] {
      NodesOfSeqs(h.pending, h.pending[0]);
    }
  }

  lemma SectionOwns(bound: Bound, m: Memory, owned: set<Addr>, holder: Option<Phase>, ops: seq<Op>)
    requires SectionOK(bound, m, owned, holder, ops)
    ensures QueueOwns(owned, Ran(bound, ops), holder.Some?)
  {
    if holder.Some? {
      match holder.value {
        case AddLocked(e) => AddLockedOwns(bound, m, owned, ops, e);
        case GetLocked(ticket) => GetLockedOwns(bound, m, owned, ops, ticket);
        case _ =>
      }
    }
  }

  /** Whatever the queue owns is pending, or on its way out. */
  lemma QueueNodes(bound: Bound, s: State, a: Addr)
    requires Inv(bound, s)
    ensures var h := Ran(bound, s.ops); a in RingAddrs(s.owner) <==> a in Nodes(h.pending) || OnItsWayOut(s, h, a)
  {
    hide Inv, SectionOK;
    InvQueue(bound, s);
    SectionOwns(bound, View(s.memory, RingAddrs(s.owner)), RingAddrs(s.owner), Holder(s), s.ops);
  }

  lemma HeldIffOwned(bound: Bound, s: State, a: Addr)
    requires Inv(bound, s)
    ensures forall t :: Holds(s, t, a) <==> a in s.owner && s.owner[a] == Thread(t)
  {
    hide Inv;
    InvAddr(bound, s, a);
    forall t | Holds(s, t, a)
      ensures a in s.owner && s.owner[a] == Thread(t)
    {
      InvThread(bound, s, t);
    }
  }

  lemma LeftIffOwned(bound: Bound, s: State, i: nat, a: Addr)
    requires Inv(bound, s)
    ensures LeftAt(s, Ran(bound, s.ops), i, a) <==> a in s.owner && s.owner[a] == Leaked(i)
  {
    hide Inv;
    InvAddr(bound, s, a);
    InvLos(bound, s, i);
    if a in s.owner && s.owner[a] == Leaked(i) {
      forall t | t in s.threads
        ensures TakenIndex(s.threads[t]) != Some(i)
      {
        InvThread(bound, s, t);
      }
    }
  }

  /**
   Single ownership: after every run, each node address with live blocks belongs to exactly one of
   the pending indications, the operation that is taking it out of the queue, one thread, or one
   loss-of-signal indication whose key was left behind; and only those addresses have live blocks.
   */
  lemma SingleOwner(bound: Bound, events: seq<Event>, a: Addr)
    ensures var s, h := After(bound, events), HistoryOf(bound, events);
            var pending, out, held, left := a in Nodes(h.pending), OnItsWayOut(s, h, a), Held(s, a), Left(s, h, a);
            && (Live(s.memory, a) != {} <==> pending || out || held || left)
            && !(pending && out) && !(pending && held) && !(pending && left) && !(out && held) && !(out && left) && !(held && left)
            && (forall t, u :: Holds(s, t, a) && Holds(s, u, a) ==> t == u)
            && (forall i, j :: LeftAt(s, h, i, a) && LeftAt(s, h, j, a) ==> i == j)
            && (forall b :: out && OnItsWayOut(s, h, b) ==> b == a)
  {
    var s, h := After(bound, events), HistoryOf(bound, events);
    hide Inv, OnItsWayOut;
    AfterInv(bound, events);
    OwnerOf(bound, s, a);
    InvAddr(bound, s, a);
    LastOne(s, h, a);
    if a in s.owner {
      OwnedIsLive(bound, s, a);
    }
  }

  lemma LastOne(s: State, h: History, a: Addr)
    ensures forall b :: OnItsWayOut(s, h, a) && OnItsWayOut(s, h, b) ==> b == a
    ensures OnItsWayOut(s, h, a) ==> a !in Nodes(h.pending)
  {
  }

  lemma OwnerOf(bound: Bound, s: State, a: Addr)
    requires Inv(bound, s)
    ensures var h := Ran(bound, s.ops);
            && (a in Nodes(h.pending) || OnItsWayOut(s, h, a) <==> a in s.owner && s.owner[a] == Ring)
            && (Held(s, a) <==> a in s.owner && s.owner[a].Thread?)
            && (Left(s, h, a) <==> a in s.owner && s.owner[a].Leaked?)
            && (forall t :: Holds(s, t, a) ==> a in s.owner && s.owner[a] == Thread(t))
            && (forall i :: LeftAt(s, h, i, a) ==> a in s.owner && s.owner[a] == Leaked(i))
  {
    hide Inv, LeftAt, OnItsWayOut;
    var h := Ran(bound, s.ops);
    QueueNodes(bound, s, a);
    HeldIffOwned(bound, s, a);
    forall i: nat
      ensures LeftAt(s, h, i, a) <==> a in s.owner && s.owner[a] == Leaked(i)
    {
      LeftIffOwned(bound, s, i, a);
    }
    if a in s.owner {
      match s.owner[a] {
        case Ring =>
        case Thread(t) => assert Holds(s, t, a);
        case Leaked(i) => assert LeftAt(s, h, i, a);
      }
    }
  }

  /** A write that is not a free changes no block and no message. */
  lemma WriteKeepsBlocks(instr: Instr, c: Config)
    requires c.Config? && Exec(instr, c).Config? && !instr.FreeBlock?
    ensures Exec(instr, c).mem.live == c.mem.live && Exec(instr, c).mem.message == c.mem.message
  {
  }

  lemma BlocksSum(p: Part, parts: set<Part>)
    ensures Blocks({p} + parts) == {Block(p)} + Blocks(parts)
  {
  }

  /** What the frees at the end of a program free. */
  lemma {:induction false} FreesFree(todo: Program, c: Config, a: Addr)
    requires c.Config? && OnlyFrees(todo) && RunProgram(todo, c).Config?
    ensures var c' := RunProgram(todo, c);
            && c'.saved == c.saved && c'.mem.message == c.mem.message
            && Live(c.mem, a) == Live(c'.mem, a) + if c'.saved == Some(a) then Blocks(Frees(todo)) else {}
  {
    if todo.Do? {
      var c1, p := Exec(todo.instr, c), todo.instr.part;
      if c1.Fault? {
        FaultStays(todo.rest);
      }
      FreesFree(todo.rest, c1, a);
      BlocksSum(p, Frees(todo.rest));
      assert Frees(todo) == {p} + Frees(todo.rest);
      assert c.saved == Some(a) ==> Live(c.mem, a) == Live(c1.mem, a) + {Block(p)};
    }
  }

  /** Running the rest of an add or a get changes the blocks of the displaced node only. */
  lemma {:induction false} RestFrees(todo: Program, c: Config, a: Addr)
    requires c.Config? && FreesLast(todo) && RunProgram(todo, c).Config?
    ensures var c' := RunProgram(todo, c);
            && c'.mem.message == c.mem.message
            && Live(c.mem, a) == Live(c'.mem, a) + if c'.saved == Some(a) then Blocks(Frees(todo)) else {}
  {
    if OnlyFrees(todo) {
      FreesFree(todo, c, a);
    } else {
      var c1 := Exec(todo.instr, c);
      if c1.Fault? {
        FaultStays(todo.rest);
      }
      WriteKeepsBlocks(todo.instr, c);
      RestFrees(todo.rest, c1, a);
    }
  }

  /** The blocks of the node that is on its way out: an add frees its message block by block. */
  function OutPieces(p: Phase, msg: Message): set<Piece> {
    match p
    case Adding(_, _, todo) => {Node} + Remains(msg) + Blocks(Frees(todo))
    case _ => AllPieces(msg)
  }

  /** In the queue's part of memory: pending indications are whole, and so is the one on its way out but for what has been freed. */
  ghost predicate SectionBlocks(m: Memory, owned: set<Addr>, h: History, holder: Option<Phase>) {
    && (forall i :: 0 <= i < |h.pending| ==> EntryIn(m, h.pending[i]))
    && (holder.Some? ==>
          forall a :: a in owned && a !in Nodes(h.pending) && h.retired != [] && h.retired[|h.retired| - 1].item.node == a ==>
          Live(m, a) == OutPieces(holder.value, MessageOf(h.retired[|h.retired| - 1].item)))
  }

  lemma AddBlocks(bound: Bound, m: Memory, owned: set<Addr>, h: History, e: Entry)
    requires Settled(m, owned, h.pending, Drops(h), Some(e.node)) && EntryIn(m, e)
    ensures SectionBlocks(m, owned, Fifo.Step(bound, h, Fifo.Add(e)), Some(AddLocked(e)))
  {
    hide RingIn, AllPieces, MessageOf;
    NodesOfSeqs(h.pending, e);
  }

  lemma AddLockedBlocks(bound: Bound, m: Memory, owned: set<Addr>, ops: seq<Op>, e: Entry)
    requires SectionOK(bound, m, owned, Some(AddLocked(e)), ops)
    ensures SectionBlocks(m, owned, Ran(bound, ops), Some(AddLocked(e)))
  {
    hide SectionBlocks, Settled, EntryIn, Fifo.Run, Fifo.Step;
    var before := ops[..|ops| - 1];
    assert ops == before + [Fifo.Add(e)];
    AddStep(bound, before, e);
    AddBlocks(bound, m, owned, Ran(bound, before), e);
  }

  lemma GetLockedBlocks(bound: Bound, m: Memory, owned: set<Addr>, ops: seq<Op>, ticket: nat)
    requires SectionOK(bound, m, owned, Some(GetLocked(ticket)), ops)
    ensures SectionBlocks(m, owned, Ran(bound, ops), Some(GetLocked(ticket)))
  {
    var h := Ran(bound, ops[..|ops| - 1]);
    assert ops == ops[..|ops| - 1] + [Fifo.Poll];
    if h.pending != [] {
      NodesOfSeqs(h.pending, h.pending[0]);
    }
  }

  /** An entry that is whole when the routine has run is whole already, unless the routine displaces it. */
  lemma EntryAlready(todo: Program, c: Config, e: Entry)
    requires c.Config? && FreesLast(todo) && RunProgram(todo, c).Config?
    requires EntryIn(RunProgram(todo, c).mem, e) && RunProgram(todo, c).saved != Some(e.node)
    ensures EntryIn(c.mem, e)
  {
    RestFrees(todo, c, e.node);
  }

  lemma AddingBlocks(bound: Bound, m: Memory, owned: set<Addr>, ops: seq<Op>, e: Entry, saved: Option<Addr>, todo: Program)
    requires SectionOK(bound, m, owned, Some(Adding(e, saved, todo)), ops) && AddShape(todo)
    ensures SectionBlocks(m, owned, Ran(bound, ops), Some(Adding(e, saved, todo)))
  {
    var c, h := Config(m, Some(e.node), saved), Ran(bound, ops);
    var c' := RunProgram(todo, c);
    forall i | 0 <= i < |h.pending|
      ensures EntryIn(m, h.pending[i])
    {
      assert Nodes(h.pending)[i] == h.pending[i].node;
      EntryAlready(todo, c, h.pending[i]);
    }
    if c'.saved.Some? {
      RestFrees(todo, c, c'.saved.value);
    }
  }

  lemma GettingBlocks(bound: Bound, m: Memory, owned: set<Addr>, ops: seq<Op>, ticket: nat, saved: Option<Addr>, todo: Program)
    requires SectionOK(bound, m, owned, Some(Getting(ticket, saved, todo)), ops) && GetShape(todo)
    ensures SectionBlocks(m, owned, Ran(bound, ops), Some(Getting(ticket, saved, todo)))
  {
    var c, h := Config(m, None, saved), Ran(bound, ops);
    var c' := RunProgram(todo, c);
    forall i | 0 <= i < |h.pending|
      ensures EntryIn(m, h.pending[i])
    {
      assert Nodes(h.pending)[i] == h.pending[i].node;
      EntryAlready(todo, c, h.pending[i]);
    }
    if c'.saved.Some? {
      RestFrees(todo, c, c'.saved.value);
      assert Blocks({}) == {};
    }
  }

  lemma FreeBlocks(bound: Bound, m: Memory, owned: set<Addr>, ops: seq<Op>)
    requires SectionOK(bound, m, owned, None, ops)
    ensures SectionBlocks(m, owned, Ran(bound, ops), None)
  {
  }

  lemma HolderBlocks(bound: Bound, s: State)
    requires Inv(bound, s)
    ensures SectionBlocks(View(s.memory, RingAddrs(s.owner)), RingAddrs(s.owner), Ran(bound, s.ops), Holder(s))
  {
    var v, owned := View(s.memory, RingAddrs(s.owner)), RingAddrs(s.owner);
    hide Inv, SectionBlocks;
    InvQueue(bound, s);
    if s.lock.Some? {
      InvThread(bound, s, s.lock.value);
      match s.threads[s.lock.value] {
        case AddLocked(e) => AddLockedBlocks(bound, v, owned, s.ops, e);
        case Adding(e, saved, todo) => AddingBlocks(bound, v, owned, s.ops, e, saved, todo);
        case GetLocked(ticket) => GetLockedBlocks(bound, v, owned, s.ops, ticket);
        case Getting(ticket, saved, todo) => GettingBlocks(bound, v, owned, s.ops, ticket, saved, todo);
        case _ =>
      }
    } else {
      FreeBlocks(bound, v, owned, s.ops);
    }
  }

  /** The blocks that a thread's node has at its point of the callback or poll. */
  ghost predicate CargoPieces(m: Memory, p: Phase, pieces: set<Piece>) {
    match p
    case Allocating(e, done) => done <= |OrderOf(e)| && pieces == Blocks(Elements(OrderOf(e)[..done]))
    case Linked(e) => pieces == AllPieces(MessageOf(e))
    case Taken(_, _, a) => a in m.message && pieces == AllPieces(m.message[a])
    case Marked(_, _, a) => a in m.message && pieces == AllPieces(m.message[a])
    case Releasing(_, a, done) =>
      a in m.message && done <= |FreeOrder(m.message[a].uCase, m.message[a].dest)| && pieces == PiecesAfter(m.message[a], done)
    case _ => false
  }

  lemma HeldPieces(bound: Bound, s: State, t: Tid, a: Addr)
    requires Inv(bound, s) && Holds(s, t, a)
    ensures CargoPieces(s.memory, s.threads[t], Live(s.memory, a))
  {
    hide Inv;
    InvThread(bound, s, t);
  }

  lemma PendingPieces(bound: Bound, s: State, i: nat)
    requires Inv(bound, s) && i < |Ran(bound, s.ops).pending|
    ensures var e := Ran(bound, s.ops).pending[i]; Live(s.memory, e.node) == AllPieces(MessageOf(e))
  {
    hide Inv, AllPieces, MessageOf, Fifo.Run;
    var h, owned := Ran(bound, s.ops), RingAddrs(s.owner);
    HolderBlocks(bound, s);
    assert EntryIn(View(s.memory, owned), h.pending[i]);
    QueueNodes(bound, s, h.pending[i].node);
    assert Nodes(h.pending)[i] == h.pending[i].node;
  }

  lemma OutgoingPieces(bound: Bound, s: State, a: Addr)
    requires Inv(bound, s) && OnItsWayOut(s, Ran(bound, s.ops), a)
    ensures var retired := Ran(bound, s.ops).retired;
            Holder(s).Some? && Live(s.memory, a) == OutPieces(Holder(s).value, MessageOf(retired[|retired| - 1].item))
  {
    hide Inv, OutPieces, MessageOf, Fifo.Run, QueueOK;
    InvQueue(bound, s);
    HolderBlocks(bound, s);
    assert Live(View(s.memory, RingAddrs(s.owner)), a) == Live(s.memory, a);
  }

  /**
   Heap balance over whole runs: after every run, the live blocks are those of the pending
   indications, what is left of one that the add routine is about to free, those that threads have
   allocated or not yet freed, and one key for each loss-of-signal indication that has been
   released.  There is nothing else on the heap.
   */
  lemma HeapAccount(bound: Bound, events: seq<Event>, a: Addr)
    ensures var s, h := After(bound, events), HistoryOf(bound, events);
            && (forall i :: 0 <= i < |h.pending| && h.pending[i].node == a ==> Live(s.memory, a) == AllPieces(MessageOf(h.pending[i])))
            && (OnItsWayOut(s, h, a) ==>
                  Holder(s).Some? && Live(s.memory, a) == OutPieces(Holder(s).value, MessageOf(h.retired[|h.retired| - 1].item)))
            && (forall t :: Holds(s, t, a) ==> CargoPieces(s.memory, s.threads[t], Live(s.memory, a)))
            && (Left(s, h, a) ==> Live(s.memory, a) == {Block(Key)})
            && (a !in Nodes(h.pending) && !OnItsWayOut(s, h, a) && !Held(s, a) && !Left(s, h, a) ==> Live(s.memory, a) == {})
  {
    hide Inv, OnItsWayOut;
    var s := After(bound, events);
    AfterInv(bound, events);
    var h := HistoryOf(bound, events);
    forall i | 0 <= i < |h.pending| && h.pending[i].node == a
      ensures Live(s.memory, a) == AllPieces(MessageOf(h.pending[i]))
    {
      PendingPieces(bound, s, i);
    }
    if OnItsWayOut(s, h, a) {
      OutgoingPieces(bound, s, a);
    }
    forall t | Holds(s, t, a)
      ensures CargoPieces(s.memory, s.threads[t], Live(s.memory, a))
    {
      HeldPieces(bound, s, t, a);
    }
    OwnerOf(bound, s, a);
    InvAddr(bound, s, a);
  }
}

/** The steps of the lock holder keep the invariant. */
module DriverSectionSteps {
  import opened Common
  import opened Indications
  import opened CriticalSection
  import opened Driver
  import opened DriverInvariant
  import opened DriverFrame
  import opened QueueSteps
  import Fifo

  /** The queue as the lock holder sees it. */
  lemma HolderSection(bound: Bound, s: State, t: Tid)
    requires QueueOK(bound, s) && s.lock == Some(t) && t in s.threads
    ensures SectionOK(bound, View(s.memory, RingAddrs(s.owner)), RingAddrs(s.owner), Some(s.threads[t]), s.ops)
  {
    hide SectionOK, View;
  }

  lemma SectionHolder(bound: Bound, s: State, t: Tid)
    requires s.lock == Some(t) && t in s.threads
    requires SectionOK(bound, View(s.memory, RingAddrs(s.owner)), RingAddrs(s.owner), Some(s.threads[t]), s.ops)
    ensures QueueOK(bound, s)
  {
    hide SectionOK, View;
  }

  /** The queue when nobody holds the lock. */
  lemma FreeSection(bound: Bound, s: State)
    requires QueueOK(bound, s) && s.lock == None
    ensures SectionOK(bound, View(s.memory, RingAddrs(s.owner)), RingAddrs(s.owner), None, s.ops)
    ensures var h := Ran(bound, s.ops);
            Settled(View(s.memory, RingAddrs(s.owner)), RingAddrs(s.owner), h.pending, Drops(h), None)
  {
    hide Settled, View;
  }

  lemma LockForAddLocal(bound: Bound, s: State, t: Tid, e: Entry)
    requires t in s.threads && s.threads[t] == Linked(e) && ThreadOK(bound, s, t) && AddrOK(bound, s, e.node) && s.lock == None
    ensures var s' := LockForAdd(s, t, e).state;
            StepBy(s, s', t, {e.node}) && ThreadOK(bound, s', t) && AddrOK(bound, s', e.node)
            && RingAddrs(s'.owner) == RingAddrs(s.owner) + {e.node} && e.node !in RingAddrs(s.owner)
  {
    assert Node in AllPieces(MessageOf(e));
  }

  /** The entries of a queue that is not locked are owned by the ring. */
  lemma PendingOwned(bound: Bound, s: State, i: nat)
    requires Inv(bound, s) && s.lock == None && i < |Ran(bound, s.ops).pending|
    ensures Ran(bound, s.ops).pending[i].node in RingAddrs(s.owner)
    ensures var pending := Ran(bound, s.ops).pending;
            forall j :: 0 <= j < |pending| && j != i ==> pending[j].node != pending[i].node
  {
    hide Inv, QueueOK, SectionOK, View, EntryIn;
    InvQueue(bound, s);
    FreeSection(bound, s);
    var pending := Ran(bound, s.ops).pending;
    assert Nodes(pending)[i] == pending[i].node;
    assert forall j :: 0 <= j < |pending| ==> Nodes(pending)[j] == pending[j].node;
  }

  /** The indication that a newly locked operation takes out is the oldest one of the queue. */
  lemma LockedLos(bound: Bound, s: State, s': State, op: Op, i: nat)
    requires Inv(bound, s) && s.lock == None && s'.ops == s.ops + [op] && s'.lock.Some?
    requires op.Add? ==> op.item.node !in RingAddrs(s.owner)
    requires forall a :: a in RingAddrs(s.owner) ==> a in s'.owner && s'.owner[a] == Ring
    requires |Ran(bound, s.ops).retired| <= i < |Ran(bound, s'.ops).retired|
    ensures LosOK(bound, s', i)
  {
    hide Inv;
    var h, h' := Ran(bound, s.ops), Ran(bound, s'.ops);
    Fifo.RunSnoc(bound, s.ops, op);
    PendingOwned(bound, s, 0);
    hide Fifo.Run;
    var a := h.pending[0].node;
    assert h'.retired[i].item == h.pending[0];
    forall j | 0 <= j < |h'.pending|
      ensures Nodes(h'.pending)[j] != a
    {
      if j + 1 < |h.pending| {
        assert h'.pending[j] == h.pending[j + 1];
      }
    }
  }

  lemma AcceptedSnoc(ops: seq<Op>, op: Op)
    ensures Fifo.Accepted(ops + [op]) == Fifo.Accepted(ops) + if op.Add? then [op.item] else []
    ensures Fifo.Polls(ops + [op]) == Fifo.Polls(ops) + if op.Poll? then 1 else 0
  {
    assert (ops + [op])[..|ops|] == ops;
  }

  lemma RebootGrows(s: State, s': State)
    requires RebootOK(s) && s'.isReboot == s.isReboot && s'.readings == s.readings && s'.beats == s.beats
    requires Fifo.Accepted(s.ops) <= Fifo.Accepted(s'.ops)
    ensures RebootOK(s')
  {
    if s.isReboot == UpAfterActivation {
      var e :| e in Fifo.Accepted(s.ops) && e.uCase == AccessTermIndOpState;
      assert e in Fifo.Accepted(s'.ops);
    }
  }

  lemma LockForAddLos(bound: Bound, s: State, s': State, e: Entry)
    requires Inv(bound, s) && s.lock == None && s'.ops == s.ops + [Fifo.Add(e)] && s'.lock.Some?
    requires e.node in s.owner && s.owner[e.node].Thread? && s.owner[e.node].t in s.threads
    requires TakenIndex(s.threads[s.owner[e.node].t]) == None && s'.owner == s.owner[e.node := Ring]
    ensures forall i: nat ::
              (i < |Ran(bound, s'.ops).retired| && (|Ran(bound, s.ops).retired| <= i || Ran(bound, s'.ops).retired[i].item.node == e.node))
              ==> LosOK(bound, s', i)
  {
    hide Inv;
    OpsGrow(bound, s.ops, s'.ops);
    forall i: nat | i < |Ran(bound, s'.ops).retired|
        && (|Ran(bound, s.ops).retired| <= i || Ran(bound, s'.ops).retired[i].item.node == e.node)
      ensures LosOK(bound, s', i)
    {
      if |Ran(bound, s.ops).retired| <= i {
        LockedLos(bound, s, s', Fifo.Add(e), i);
      } else {
        InvLos(bound, s, i);
      }
    }
  }

  lemma LockForAddQueueOK(bound: Bound, s: State, t: Tid, e: Entry)
    requires QueueOK(bound, s) && t in s.threads && s.lock == None && e.node !in RingAddrs(s.owner) && EntryIn(s.memory, e)
    requires RingAddrs(LockForAdd(s, t, e).state.owner) == RingAddrs(s.owner) + {e.node}
    ensures QueueOK(bound, LockForAdd(s, t, e).state)
  {
    hide QueueOK, SectionOK, View, Settled, EntryIn, RingAddrs;
    FreeSection(bound, s);
    LockForAddQueue(bound, s.memory, RingAddrs(s.owner), s.ops, e);
    SectionHolder(bound, LockForAdd(s, t, e).state, t);
  }

  lemma LockForAddKeeps(bound: Bound, s: State, t: Tid, e: Entry)
    requires Inv(bound, s) && t in s.threads && s.threads[t] == Linked(e)
    ensures var o := LockForAdd(s, t, e); o.Ok? && Inv(bound, o.state)
  {
    hide Inv, QueueOK;
    if s.lock == None {
      var s', op := LockForAdd(s, t, e).state, Fifo.Add(e);
      InvThread(bound, s, t);
      InvAddr(bound, s, e.node);
      InvQueue(bound, s);
      InvLog(bound, s);
      LockForAddLocal(bound, s, t, e);
      LockForAddQueueOK(bound, s, t, e);
      AcceptedSnoc(s.ops, op);
      OpsGrow(bound, s.ops, s'.ops);
      RebootGrows(s, s');
      LockForAddLos(bound, s, s', e);
      hide LosOK, EntryIn, Ran, RebootOK;
      StepKeeps(bound, s, s', t, {e.node});
    }
  }

  lemma LockForGetLocal(bound: Bound, s: State, t: Tid)
    requires t in s.threads && s.threads[t] == PollStart && s.lock == None && t !in s.spare
    ensures var s' := LockForGet(s, t).state; StepBy(s, s', t, {}) && ThreadOK(bound, s', t)
  {
  }

  lemma LockForGetLos(bound: Bound, s: State, s': State)
    requires Inv(bound, s) && s.lock == None && s'.ops == s.ops + [Fifo.Poll] && s'.lock.Some? && s'.owner == s.owner
    ensures forall i: nat :: |Ran(bound, s.ops).retired| <= i < |Ran(bound, s'.ops).retired| ==> LosOK(bound, s', i)
  {
    hide Inv, LosOK;
    forall i: nat | |Ran(bound, s.ops).retired| <= i < |Ran(bound, s'.ops).retired|
      ensures LosOK(bound, s', i)
    {
      LockedLos(bound, s, s', Fifo.Poll, i);
    }
  }

  lemma LockForGetQueueOK(bound: Bound, s: State, t: Tid)
    requires QueueOK(bound, s) && t in s.threads && s.lock == None
    ensures QueueOK(bound, LockForGet(s, t).state)
  {
    hide QueueOK, SectionOK, View, Settled, RingAddrs;
    FreeSection(bound, s);
    LockForGetQueue(bound, View(s.memory, RingAddrs(s.owner)), RingAddrs(s.owner), s.ops, |s.pollers|);
    SectionHolder(bound, LockForGet(s, t).state, t);
  }

  lemma LockForGetLog(bound: Bound, s: State, s': State)
    requires RebootOK(s) && s'.isReboot == s.isReboot && s'.readings == s.readings && s'.beats == s.beats
    requires s'.ops == s.ops + [Fifo.Poll]
    ensures RebootOK(s') && Fifo.Polls(s'.ops) == Fifo.Polls(s.ops) + 1
    ensures Ran(bound, s.ops).retired <= Ran(bound, s'.ops).retired && Ran(bound, s.ops).replies <= Ran(bound, s'.ops).replies
  {
    AcceptedSnoc(s.ops, Fifo.Poll);
    OpsGrow(bound, s.ops, s'.ops);
    hide RebootOK, Ran;
    RebootGrows(s, s');
  }

  lemma LockForGetKeeps(bound: Bound, s: State, t: Tid)
    requires Inv(bound, s) && t in s.threads && s.threads[t] == PollStart
    ensures var o := LockForGet(s, t); o.Ok? && Inv(bound, o.state)
  {
    hide Inv, QueueOK, RebootOK, LosOK;
    if s.lock == None {
      var s' := LockForGet(s, t).state;
      InvThread(bound, s, t);
      InvQueue(bound, s);
      InvLog(bound, s);
      LockForGetLocal(bound, s, t);
      LockForGetQueueOK(bound, s, t);
      LockForGetLog(bound, s, s');
      LockForGetLos(bound, s, s');
      hide Ran, ThreadOK, RingAddrs, Fifo.Accepted, Fifo.Polls;
      StepKeeps(bound, s, s', t, {});
    }
  }

  /** The same for the steps between lock and unlock, which log nothing. */
  lemma HolderKeeps(bound: Bound, s: State, s': State, t: Tid, touched: set<Addr>)
    requires Inv(bound, s) && StepBy(s, s', t, touched) && QueueOK(bound, s')
    requires t in s.threads && t in s'.threads && ThreadOK(bound, s', t)
    requires Unanswered(s'.threads[t]) == Unanswered(s.threads[t])
    requires s'.lock in {None, Some(t)} && s'.ops == s.ops && s'.pollers == s.pollers && s'.wire == s.wire
    requires s'.spare == s.spare && s'.isReboot == s.isReboot && s'.readings == s.readings && s'.beats == s.beats
    requires forall a :: a in touched ==> AddrOK(bound, s', a)
    requires forall i: nat ::
               (i < |Ran(bound, s.ops).retired| && (Ran(bound, s.ops).retired[i].item.node in touched || (s.lock.Some? && s'.lock == None)))
               ==> LosOK(bound, s', i)
    ensures Inv(bound, s')
  {
    hide Inv;
    InvLog(bound, s);
    InvQueue(bound, s);
    hide QueueOK, LosOK, AddrOK, ThreadOK;
    StepKeeps(bound, s, s', t, touched);
  }

  lemma PhaseStep(s: State, t: Tid, p: Phase)
    requires t in s.threads && Cargo(s.threads[t]) == None
    ensures StepBy(s, s.(threads := s.threads[t := p]), t, {})
  {
  }

  lemma DecideAddLocal(bound: Bound, s: State, t: Tid, e: Entry)
    requires t in s.threads && s.threads[t] == AddLocked(e) && ThreadOK(bound, s, t) && QueueOK(bound, s)
    ensures var s' := s.(threads := s.threads[t := Adding(e, None, AddProgram(bound, s.memory))]);
            StepBy(s, s', t, {}) && ThreadOK(bound, s', t) && QueueOK(bound, s')
  {
    hide AddProgram, AddShape, QueueOK, SectionOK, View;
    var s' := s.(threads := s.threads[t := Adding(e, None, AddProgram(bound, s.memory))]);
    HolderSection(bound, s, t);
    DecideAddQueue(bound, s.memory, RingAddrs(s.owner), s.ops, e);
    AddProgramShape(bound, s.memory);
    PhaseStep(s, t, s'.threads[t]);
    SectionHolder(bound, s', t);
  }

  lemma DecideAddKeeps(bound: Bound, s: State, t: Tid, e: Entry)
    requires Inv(bound, s) && t in s.threads && s.threads[t] == AddLocked(e)
    ensures Inv(bound, s.(threads := s.threads[t := Adding(e, None, AddProgram(bound, s.memory))]))
  {
    hide Inv;
    InvThread(bound, s, t);
    InvQueue(bound, s);
    DecideAddLocal(bound, s, t, e);
    HolderKeeps(bound, s, s.(threads := s.threads[t := Adding(e, None, AddProgram(bound, s.memory))]), t, {});
  }

  lemma DecideGetLocal(bound: Bound, s: State, t: Tid, ticket: nat)
    requires t in s.threads && s.threads[t] == GetLocked(ticket) && ThreadOK(bound, s, t) && QueueOK(bound, s)
    ensures var s' := s.(threads := s.threads[t := Getting(ticket, None, GetProgram(s.memory))]);
            StepBy(s, s', t, {}) && ThreadOK(bound, s', t) && QueueOK(bound, s')
  {
    hide GetProgram, GetShape, QueueOK, SectionOK, View;
    var s' := s.(threads := s.threads[t := Getting(ticket, None, GetProgram(s.memory))]);
    HolderSection(bound, s, t);
    DecideGetQueue(bound, s.memory, RingAddrs(s.owner), s.ops, ticket);
    GetProgramShape(s.memory);
    PhaseStep(s, t, s'.threads[t]);
    SectionHolder(bound, s', t);
  }

  lemma DecideGetKeeps(bound: Bound, s: State, t: Tid, ticket: nat)
    requires Inv(bound, s) && t in s.threads && s.threads[t] == GetLocked(ticket)
    ensures Inv(bound, s.(threads := s.threads[t := Getting(ticket, None, GetProgram(s.memory))]))
  {
    hide Inv;
    InvThread(bound, s, t);
    InvQueue(bound, s);
    DecideGetLocal(bound, s, t, ticket);
    HolderKeeps(bound, s, s.(threads := s.threads[t := Getting(ticket, None, GetProgram(s.memory))]), t, {});
  }

  /** One write of the lock holder, on any memory `m` that differs from the present one only in the queue's nodes. */
  lemma WriteStep(s: State, t: Tid, p: Phase, instr: Instr, arg: Option<Addr>, saved: Option<Addr>)
    requires t in s.threads && Cargo(s.threads[t]) == None
    requires var c := Config(s.memory, arg, saved); Exec(instr, ViewConfig(c, RingAddrs(s.owner))).Config? && Exec(instr, c).Config?
    ensures var s' := s.(memory := Exec(instr, Config(s.memory, arg, saved)).mem, threads := s.threads[t := p]);
            StepBy(s, s', t, RingAddrs(s.owner))
  {
    ExecFrame(instr, Config(s.memory, arg, saved), RingAddrs(s.owner));
  }

  lemma WriteAddrs(bound: Bound, s: State, s': State, t: Tid, instr: Instr, arg: Option<Addr>, saved: Option<Addr>)
    requires Inv(bound, s)
    requires var c := Config(s.memory, arg, saved);
             Exec(instr, ViewConfig(c, RingAddrs(s.owner))).Config? && Exec(instr, c).Config? && s'.memory == Exec(instr, c).mem
    requires s'.owner == s.owner && s'.ops == s.ops && s'.lock == s.lock
    ensures forall a :: a in RingAddrs(s.owner) ==> AddrOK(bound, s', a)
    ensures var retired := Ran(bound, s.ops).retired;
            forall i: nat :: i < |retired| && retired[i].item.node in RingAddrs(s.owner) ==> LosOK(bound, s', i)
  {
    hide Inv;
    ExecFrame(instr, Config(s.memory, arg, saved), RingAddrs(s.owner));
    forall a | a in RingAddrs(s.owner)
      ensures AddrOK(bound, s', a)
    {
      InvAddr(bound, s, a);
    }
    forall i: nat | i < |Ran(bound, s.ops).retired| && Ran(bound, s.ops).retired[i].item.node in RingAddrs(s.owner)
      ensures LosOK(bound, s', i)
    {
      InvLos(bound, s, i);
    }
  }

  lemma RestShape(instr: Instr, rest: Program)
    ensures AddShape(Do(instr, rest)) ==> AddShape(rest)
    ensures GetShape(Do(instr, rest)) ==> GetShape(rest)
  {
  }

  lemma WriteAddLocal(bound: Bound, s: State, t: Tid, e: Entry, saved: Option<Addr>, instr: Instr, rest: Program)
    requires t in s.threads && s.threads[t] == Adding(e, saved, Do(instr, rest)) && ThreadOK(bound, s, t) && QueueOK(bound, s)
    ensures var c0 := Config(s.memory, Some(e.node), saved);
            var c := Exec(instr, c0);
            && c.Config? && Exec(instr, ViewConfig(c0, RingAddrs(s.owner))).Config?
            && var s' := s.(memory := c.mem, threads := s.threads[t := Adding(e, c.saved, rest)]);
               StepBy(s, s', t, RingAddrs(s.owner)) && ThreadOK(bound, s', t) && QueueOK(bound, s')
  {
    hide QueueOK, SectionOK, Exec;
    HolderSection(bound, s, t);
    ExecAddQueue(bound, s.memory, RingAddrs(s.owner), s.ops, e, saved, instr, rest);
    var c := Exec(instr, Config(s.memory, Some(e.node), saved));
    WriteStep(s, t, Adding(e, c.saved, rest), instr, Some(e.node), saved);
    RestShape(instr, rest);
    hide ViewConfig, View, RingAddrs, AddShape;
    SectionHolder(bound, s.(memory := c.mem, threads := s.threads[t := Adding(e, c.saved, rest)]), t);
  }

  lemma WriteAddKeeps(bound: Bound, s: State, t: Tid, e: Entry, saved: Option<Addr>, instr: Instr, rest: Program)
    requires Inv(bound, s) && t in s.threads && s.threads[t] == Adding(e, saved, Do(instr, rest))
    ensures var c := Exec(instr, Config(s.memory, Some(e.node), saved));
            c.Config? && Inv(bound, s.(memory := c.mem, threads := s.threads[t := Adding(e, c.saved, rest)]))
  {
    hide Inv;
    InvThread(bound, s, t);
    InvQueue(bound, s);
    WriteAddLocal(bound, s, t, e, saved, instr, rest);
    var c := Exec(instr, Config(s.memory, Some(e.node), saved));
    var s' := s.(memory := c.mem, threads := s.threads[t := Adding(e, c.saved, rest)]);
    WriteAddrs(bound, s, s', t, instr, Some(e.node), saved);
    HolderKeeps(bound, s, s', t, RingAddrs(s.owner));
  }

  lemma WriteGetLocal(bound: Bound, s: State, t: Tid, ticket: nat, saved: Option<Addr>, instr: Instr, rest: Program)
    requires t in s.threads && s.threads[t] == Getting(ticket, saved, Do(instr, rest)) && ThreadOK(bound, s, t) && QueueOK(bound, s)
    ensures var c0 := Config(s.memory, None, saved);
            var c := Exec(instr, c0);
            && c.Config? && Exec(instr, ViewConfig(c0, RingAddrs(s.owner))).Config?
            && var s' := s.(memory := c.mem, threads := s.threads[t := Getting(ticket, c.saved, rest)]);
               StepBy(s, s', t, RingAddrs(s.owner)) && ThreadOK(bound, s', t) && QueueOK(bound, s')
  {
    hide QueueOK, SectionOK, Exec;
    HolderSection(bound, s, t);
    ExecGetQueue(bound, s.memory, RingAddrs(s.owner), s.ops, ticket, saved, instr, rest);
    var c := Exec(instr, Config(s.memory, None, saved));
    WriteStep(s, t, Getting(ticket, c.saved, rest), instr, None, saved);
    RestShape(instr, rest);
    hide ViewConfig, View, RingAddrs, GetShape;
    SectionHolder(bound, s.(memory := c.mem, threads := s.threads[t := Getting(ticket, c.saved, rest)]), t);
  }

  lemma WriteGetKeeps(bound: Bound, s: State, t: Tid, ticket: nat, saved: Option<Addr>, instr: Instr, rest: Program)
    requires Inv(bound, s) && t in s.threads && s.threads[t] == Getting(ticket, saved, Do(instr, rest))
    ensures var c := Exec(instr, Config(s.memory, None, saved));
            c.Config? && Inv(bound, s.(memory := c.mem, threads := s.threads[t := Getting(ticket, c.saved, rest)]))
  {
    hide Inv;
    InvThread(bound, s, t);
    InvQueue(bound, s);
    WriteGetLocal(bound, s, t, ticket, saved, instr, rest);
    var c := Exec(instr, Config(s.memory, None, saved));
    var s' := s.(memory := c.mem, threads := s.threads[t := Getting(ticket, c.saved, rest)]);
    WriteAddrs(bound, s, s', t, instr, None, saved);
    HolderKeeps(bound, s, s', t, RingAddrs(s.owner));
  }

  function Removed(saved: Option<Addr>): set<Addr> {
    if saved.Some? then {saved.value} else {}
  }

  lemma GettingDone(bound: Bound, v: Memory, owned: set<Addr>, ops: seq<Op>, ticket: nat, saved: Option<Addr>)
    requires SectionOK(bound, v, owned, Some(Getting(ticket, saved, Done)), ops)
    ensures var h := Ran(bound, ops);
            && h.replies != [] && owned == (set a | a in Nodes(h.pending)) + Removed(saved)
            && (saved == None ==> h.replies[|h.replies| - 1] == None)
            && (saved.Some? ==> LastOut(v, h, saved.value, Fifo.Delivered)
                                && h.replies[|h.replies| - 1] == Some(h.retired[|h.retired| - 1].item))
  {
    assert GetEnds(bound, owned, ops, Config(v, None, saved));
  }

  lemma AddingDone(bound: Bound, v: Memory, owned: set<Addr>, ops: seq<Op>, e: Entry, saved: Option<Addr>)
    requires SectionOK(bound, v, owned, Some(Adding(e, saved, Done)), ops)
    ensures var h := Ran(bound, ops);
            && ops != [] && ops[|ops| - 1] == Fifo.Add(e) && owned == (set a | a in Nodes(h.pending)) + Removed(saved)
            && (saved.Some? ==> LastOut(v, h, saved.value, Fifo.Dropped) && saved.value !in Nodes(h.pending))
  {
    assert AddEnds(bound, owned, ops, Config(v, Some(e.node), saved));
  }

  /** What the lock holder knows once an add has unlinked the node at `a`. */
  ghost predicate Unlinked(bound: Bound, s: State, a: Addr) {
    && a in s.owner && s.owner[a] == Ring && a in s.memory.message
    && var h := Ran(bound, s.ops);
       && h.retired != [] && h.retired[|h.retired| - 1].item.node == a && a !in Nodes(h.pending)
       && Live(s.memory, a) == if h.retired[|h.retired| - 1].item.uCase == InterfaceLos then {Node, Block(Key)} else {Node}
  }

  lemma AddUnlinks(bound: Bound, s: State, t: Tid, e: Entry, a: Addr)
    requires t in s.threads && s.threads[t] == Adding(e, Some(a), Done) && s.lock == Some(t) && QueueOK(bound, s)
    ensures Unlinked(bound, s, a)
  {
    hide QueueOK, SectionOK, View;
    HolderSection(bound, s, t);
    AddingDone(bound, View(s.memory, RingAddrs(s.owner)), RingAddrs(s.owner), s.ops, e, Some(a));
    assert a in RingAddrs(s.owner);
    LastOutHere(s.memory, RingAddrs(s.owner), Ran(bound, s.ops), a, Fifo.Dropped);
    hide Fifo.Run;
    assert Blocks({Key}) == {Block(Key)};
  }

  /** The state after the lock holder has freed the evicted node. */
  function Evicted(bound: Bound, s: State, t: Tid, e: Entry, a: Addr): Outcome {
    FreeNode(s, a, LastRetired(bound, s.ops), s.threads[t := Adding(e, None, Done)])
  }

  lemma EvictedLocal(bound: Bound, s: State, t: Tid, e: Entry, a: Addr)
    requires t in s.threads && s.threads[t] == Adding(e, Some(a), Done) && s.lock == Some(t) && t !in s.spare
    requires Unlinked(bound, s, a)
    ensures var o := Evicted(bound, s, t, e, a);
            && o.Ok? && StepBy(s, o.state, t, {a}) && ThreadOK(bound, o.state, t)
            && RingAddrs(o.state.owner) == RingAddrs(s.owner) - {a}
  {
    hide MessageOf, Fifo.Run;
    var s' := Evicted(bound, s, t, e, a).state;
    assert forall b: Addr :: b != a ==> (b in s.owner <==> b in s'.owner);
  }

  lemma EvictedAddr(bound: Bound, s: State, t: Tid, e: Entry, a: Addr)
    requires a in s.memory.live && Unlinked(bound, s, a)
    ensures var o := Evicted(bound, s, t, e, a); o.Ok? && AddrOK(bound, o.state, a)
  {
  }

  lemma EvictedLos(bound: Bound, s: State, t: Tid, e: Entry, a: Addr)
    requires Unlinked(bound, s, a) && forall i: nat :: LosOK(bound, s, i)
    ensures var o := Evicted(bound, s, t, e, a);
            var retired := Ran(bound, s.ops).retired;
            o.Ok? && forall i: nat :: i < |retired| && retired[i].item.node == a ==> LosOK(bound, o.state, i)
  {
    var retired := Ran(bound, s.ops).retired;
    forall i: nat | i < |retired| && retired[i].item.node == a
      ensures LosOK(bound, Evicted(bound, s, t, e, a).state, i)
    {
      assert LosOK(bound, s, i);
      assert retired[|retired| - 1].item.uCase == InterfaceLos ==> Block(Key) in Live(s.memory, a) - {Node};
    }
  }

  lemma EvictedQueue(bound: Bound, s: State, t: Tid, e: Entry, a: Addr)
    requires t in s.threads && s.threads[t] == Adding(e, Some(a), Done) && s.lock == Some(t) && QueueOK(bound, s)
    requires Evicted(bound, s, t, e, a).Ok? && RingAddrs(Evicted(bound, s, t, e, a).state.owner) == RingAddrs(s.owner) - {a}
    ensures QueueOK(bound, Evicted(bound, s, t, e, a).state)
  {
    FreeNodeQueue(bound, s.memory, RingAddrs(s.owner), s.ops, e, a);
  }

  lemma EvictedKeeps(bound: Bound, s: State, t: Tid, e: Entry, a: Addr)
    requires Inv(bound, s) && t in s.threads && s.threads[t] == Adding(e, Some(a), Done)
    ensures var o := Evicted(bound, s, t, e, a); o.Ok? && Inv(bound, o.state)
  {
    hide Inv;
    InvThread(bound, s, t);
    InvQueue(bound, s);
    InvAddr(bound, s, a);
    AddUnlinks(bound, s, t, e, a);
    EvictedLocal(bound, s, t, e, a);
    EvictedAddr(bound, s, t, e, a);
    EvictedQueue(bound, s, t, e, a);
    forall i: nat
      ensures LosOK(bound, s, i)
    {
      InvLos(bound, s, i);
    }
    EvictedLos(bound, s, t, e, a);
    HolderKeeps(bound, s, Evicted(bound, s, t, e, a).state, t, {a});
  }

  /** The state after an add has released the lock. */
  function AddUnlocked(s: State, t: Tid, e: Entry): State {
    s.(lock := None, threads := s.threads[t := Added(e)])
  }

  lemma AddFinished(bound: Bound, s: State, t: Tid, e: Entry)
    requires t in s.threads && s.threads[t] == Adding(e, None, Done) && s.lock == Some(t) && QueueOK(bound, s)
    ensures e in Fifo.Accepted(s.ops)
    ensures RingAddrs(s.owner) == set a | a in Nodes(Ran(bound, s.ops).pending)
  {
    HolderSection(bound, s, t);
    AddingDone(bound, View(s.memory, RingAddrs(s.owner)), RingAddrs(s.owner), s.ops, e, None);
    assert Removed(None) == {};
    LastAccepted(s.ops, e);
  }

  lemma LastAccepted(ops: seq<Op>, e: Entry)
    requires ops != [] && ops[|ops| - 1] == Fifo.Add(e)
    ensures e in Fifo.Accepted(ops)
  {
  }

  lemma UnlockAddQueueOK(bound: Bound, s: State, t: Tid, e: Entry)
    requires t in s.threads && s.threads[t] == Adding(e, None, Done) && s.lock == Some(t) && QueueOK(bound, s)
    ensures QueueOK(bound, AddUnlocked(s, t, e))
  {
    HolderSection(bound, s, t);
    UnlockAddQueue(bound, View(s.memory, RingAddrs(s.owner)), RingAddrs(s.owner), s.ops, e);
  }

  /** With the eviction finished, no indication is on its way out of the queue any more. */
  lemma UnlockAddLos(bound: Bound, s: State, t: Tid, e: Entry)
    requires t in s.threads && s.threads[t] == Adding(e, None, Done) && forall i: nat :: LosOK(bound, s, i)
    requires RingAddrs(s.owner) == set a | a in Nodes(Ran(bound, s.ops).pending)
    ensures forall i: nat :: LosOK(bound, AddUnlocked(s, t, e), i)
  {
    var retired := Ran(bound, s.ops).retired;
    forall i: nat
      ensures LosOK(bound, AddUnlocked(s, t, e), i)
    {
      assert LosOK(bound, s, i);
      if i < |retired| && retired[i].item.node in s.owner && s.owner[retired[i].item.node] == Ring {
        assert retired[i].item.node in RingAddrs(s.owner);
      }
    }
  }

  lemma UnlockAddLocal(bound: Bound, s: State, t: Tid, e: Entry)
    requires t in s.threads && s.threads[t] == Adding(e, None, Done) && s.lock == Some(t) && t !in s.spare
    requires e in Fifo.Accepted(s.ops)
    ensures StepBy(s, AddUnlocked(s, t, e), t, {}) && ThreadOK(bound, AddUnlocked(s, t, e), t)
  {
  }

  lemma UnlockAddKeeps(bound: Bound, s: State, t: Tid, e: Entry)
    requires Inv(bound, s) && t in s.threads && s.threads[t] == Adding(e, None, Done)
    ensures Inv(bound, AddUnlocked(s, t, e))
  {
    hide Inv;
    InvThread(bound, s, t);
    InvQueue(bound, s);
    AddFinished(bound, s, t, e);
    UnlockAddQueueOK(bound, s, t, e);
    UnlockAddLocal(bound, s, t, e);
    forall i: nat
      ensures LosOK(bound, s, i)
    {
      InvLos(bound, s, i);
    }
    UnlockAddLos(bound, s, t, e);
    HolderKeeps(bound, s, AddUnlocked(s, t, e), t, {});
  }

  /** What the lock holder knows once a get has run. */
  ghost predicate GetFinished(bound: Bound, s: State, saved: Option<Addr>) {
    var h := Ran(bound, s.ops);
    && h.replies != [] && |s.pollers| == |h.replies|
    && RingAddrs(s.owner) == (set a | a in Nodes(h.pending)) + Removed(saved)
    && if saved == None then h.replies[|h.replies| - 1] == None
       else
         && saved.value in s.owner && s.owner[saved.value] == Ring && h.retired != []
         && var last := h.retired[|h.retired| - 1];
            && h.replies[|h.replies| - 1] == Some(last.item) && last.tag == Fifo.Delivered
            && last.item.node == saved.value && EntryIn(s.memory, last.item)
  }

  lemma GetFinishes(bound: Bound, s: State, t: Tid, ticket: nat, saved: Option<Addr>)
    requires t in s.threads && s.threads[t] == Getting(ticket, saved, Done) && s.lock == Some(t) && QueueOK(bound, s)
    requires |s.pollers| == Fifo.Polls(s.ops)
    ensures GetFinished(bound, s, saved)
  {
    HolderSection(bound, s, t);
    GettingDone(bound, View(s.memory, RingAddrs(s.owner)), RingAddrs(s.owner), s.ops, ticket, saved);
    if saved.Some? {
      assert saved.value in RingAddrs(s.owner);
      LastOutHere(s.memory, RingAddrs(s.owner), Ran(bound, s.ops), saved.value, Fifo.Delivered);
    }
    Fifo.Conservation(bound, s.ops);
  }

  lemma LastOutHere(m: Memory, owned: set<Addr>, h: History, a: Addr, tag: Fifo.Tag)
    requires LastOut(View(m, owned), h, a, tag) && a in owned
    ensures LastOut(m, h, a, tag)
  {
  }

  /** The state after a get has released the lock. */
  function GetUnlocked(s: State, t: Tid, ticket: nat, saved: Option<Addr>, index: nat): State {
    if saved.Some? then
      s.(lock := None, threads := s.threads[t := Driver.Taken(ticket, index, saved.value)], owner := s.owner[saved.value := Thread(t)])
    else s.(lock := None, threads := s.threads[t := NothingTaken(ticket)])
  }

  lemma UnlockGetStep(s: State, t: Tid, ticket: nat, saved: Option<Addr>, index: nat)
    requires t in s.threads && s.threads[t] == Getting(ticket, saved, Done) && s.lock == Some(t)
    requires saved.Some? ==> saved.value in s.owner && s.owner[saved.value] == Ring
    ensures var s' := GetUnlocked(s, t, ticket, saved, index);
            StepBy(s, s', t, Removed(saved)) && RingAddrs(s'.owner) == RingAddrs(s.owner) - Removed(saved)
  {
  }

  lemma UnlockGetLocal(bound: Bound, s: State, t: Tid, ticket: nat, saved: Option<Addr>)
    requires t in s.threads && s.threads[t] == Getting(ticket, saved, Done) && ThreadOK(bound, s, t) && GetFinished(bound, s, saved)
    requires saved.Some? ==> AddrOK(bound, s, saved.value)
    ensures var s' := GetUnlocked(s, t, ticket, saved, LastRetired(bound, s.ops));
            ThreadOK(bound, s', t) && (saved.Some? ==> AddrOK(bound, s', saved.value))
  {
  }

  lemma UnlockGetLosAt(bound: Bound, s: State, t: Tid, ticket: nat, saved: Option<Addr>, i: nat)
    requires t in s.threads && s.threads[t] == Getting(ticket, saved, Done) && GetFinished(bound, s, saved) && LosOK(bound, s, i)
    ensures LosOK(bound, GetUnlocked(s, t, ticket, saved, LastRetired(bound, s.ops)), i)
  {
    hide EntryIn, Fifo.Run;
    var retired := Ran(bound, s.ops).retired;
    if i < |retired| && retired[i].item.node in s.owner && s.owner[retired[i].item.node] == Ring {
      assert retired[i].item.node in RingAddrs(s.owner);
    }
  }

  lemma UnlockGetLos(bound: Bound, s: State, t: Tid, ticket: nat, saved: Option<Addr>)
    requires t in s.threads && s.threads[t] == Getting(ticket, saved, Done) && GetFinished(bound, s, saved)
    requires forall i: nat :: LosOK(bound, s, i)
    ensures forall i: nat :: LosOK(bound, GetUnlocked(s, t, ticket, saved, LastRetired(bound, s.ops)), i)
  {
    hide EntryIn;
    var retired, s' := Ran(bound, s.ops).retired, GetUnlocked(s, t, ticket, saved, LastRetired(bound, s.ops));
    forall i: nat
      ensures LosOK(bound, s', i)
    {
      UnlockGetLosAt(bound, s, t, ticket, saved, i);
    }
  }

  lemma UnlockGetKeeps(bound: Bound, s: State, t: Tid, ticket: nat, saved: Option<Addr>)
    requires Inv(bound, s) && t in s.threads && s.threads[t] == Getting(ticket, saved, Done)
    ensures Inv(bound, GetUnlocked(s, t, ticket, saved, LastRetired(bound, s.ops)))
  {
    hide Inv;
    InvThread(bound, s, t);
    InvQueue(bound, s);
    InvLog(bound, s);
    if saved.Some? {
      InvAddr(bound, s, saved.value);
    }
    forall i: nat
      ensures LosOK(bound, s, i)
    {
      InvLos(bound, s, i);
    }
    var s' := GetUnlocked(s, t, ticket, saved, LastRetired(bound, s.ops));
    GetFinishes(bound, s, t, ticket, saved);
    UnlockGetStep(s, t, ticket, saved, LastRetired(bound, s.ops));
    UnlockGetLocal(bound, s, t, ticket, saved);
    UnlockGetQueueOK(bound, s, t, ticket, saved);
    UnlockGetLos(bound, s, t, ticket, saved);
    HolderKeeps(bound, s, s', t, Removed(saved));
  }

  lemma UnlockGetQueueOK(bound: Bound, s: State, t: Tid, ticket: nat, saved: Option<Addr>)
    requires t in s.threads && s.threads[t] == Getting(ticket, saved, Done) && s.lock == Some(t) && QueueOK(bound, s)
    requires saved.Some? ==> saved.value in s.owner
    ensures QueueOK(bound, GetUnlocked(s, t, ticket, saved, LastRetired(bound, s.ops)))
  {
    UnlockGetStep(s, t, ticket, saved, LastRetired(bound, s.ops));
    UnlockGetQueue(bound, s.memory, RingAddrs(s.owner), s.ops, ticket, saved);
    assert RingAddrs(s.owner) - {} == RingAddrs(s.owner);
  }
}

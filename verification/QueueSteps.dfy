/** The critical section, one step at a time, as far as the queue itself is concerned. */
module QueueSteps {
  import opened Common
  import opened Indications
  import opened CriticalSection
  import opened Ring
  import opened Driver
  import opened DriverInvariant
  import Fifo

  /** What makes a queue settled concerns its own nodes only. */
  lemma SettledTransfer(m: Memory, m': Memory, owned: set<Addr>, owned': set<Addr>, entries: seq<Entry>, drops: nat,
                        extra: Option<Addr>, extra': Option<Addr>)
    requires Settled(m, owned, entries, drops, extra)
    requires m'.head == m.head && m'.tail == m.tail && m'.count == m.count && m'.drops == m.drops
    requires SameNodes(m, m', entries)
    requires owned' == (set a | a in Nodes(entries)) + if extra'.Some? then {extra'.value} else {}
    requires extra'.Some? ==> extra'.value !in Nodes(entries)
    ensures Settled(m', owned', entries, drops, extra')
  {
    forall i | 0 <= i < |entries|
      ensures EntryIn(m', entries[i])
    {
      assert EntryIn(m, entries[i]) && Nodes(entries)[i] == entries[i].node;
    }
  }

  lemma SettledNodes(m: Memory, owned: set<Addr>, entries: seq<Entry>, drops: nat, extra: Option<Addr>)
    requires Settled(m, owned, entries, drops, extra)
    ensures forall a :: a in Nodes(entries) ==> a in owned && a in m.next && a in m.message
    ensures WholeIn(Nodes(entries), m)
  {
    forall i | 0 <= i < |entries|
      ensures Nodes(entries)[i] in m.message && Live(m, Nodes(entries)[i]) == AllPieces(m.message[Nodes(entries)[i]])
    {
      assert EntryIn(m, entries[i]);
    }
  }

  /** Two memories hold the same at the nodes of `entries`. */
  ghost predicate SameNodes(m: Memory, m': Memory, entries: seq<Entry>) {
    forall a :: a in Nodes(entries) ==>
      && (a in m.next <==> a in m'.next) && (a in m.next ==> m'.next[a] == m.next[a])
      && (a in m.message <==> a in m'.message) && (a in m.message ==> m'.message[a] == m.message[a])
      && (a in m.live <==> a in m'.live) && (a in m.live ==> m'.live[a] == m.live[a])
  }

  lemma ViewsAgree(m: Memory, m': Memory, owned: set<Addr>, owned': set<Addr>, entries: seq<Entry>)
    requires SameNodes(m, m', entries) && forall a :: a in Nodes(entries) ==> a in owned && a in owned'
    ensures SameNodes(View(m, owned), View(m', owned'), entries)
  {
  }

  lemma LockForAddQueue(bound: Bound, m: Memory, owned: set<Addr>, ops: seq<Op>, e: Entry)
    requires SectionOK(bound, View(m, owned), owned, None, ops)
    requires e.node !in owned && EntryIn(m, e)
    ensures var owned' := owned + {e.node};
            SectionOK(bound, View(m, owned'), owned', Some(AddLocked(e)), ops + [Fifo.Add(e)])
  {
    var owned' := owned + {e.node};
    var h := Ran(bound, ops);
    assert (ops + [Fifo.Add(e)])[..|ops|] == ops;
    SettledNodes(View(m, owned), owned, h.pending, Drops(h), None);
    ViewsAgree(m, m, owned, owned', h.pending);
    SettledTransfer(View(m, owned), View(m, owned'), owned, owned', h.pending, Drops(h), None, Some(e.node));
    assert EntryIn(View(m, owned'), e);
  }

  lemma LockForGetQueue(bound: Bound, m: Memory, owned: set<Addr>, ops: seq<Op>, ticket: nat)
    requires SectionOK(bound, m, owned, None, ops)
    ensures SectionOK(bound, m, owned, Some(GetLocked(ticket)), ops + [Fifo.Poll])
  {
    assert (ops + [Fifo.Poll])[..|ops|] == ops;
  }

  lemma NodesOfSeqs(entries: seq<Entry>, e: Entry)
    ensures Nodes(entries + [e]) == Nodes(entries) + [e.node]
    ensures entries != [] ==> Nodes(entries[1..]) == Nodes(entries)[1..]
    ensures entries != [] ==> Nodes(entries[1..] + [e]) == Nodes(entries)[1..] + [e.node]
  {
  }

  /** A count of dropped entries after one more has left the queue. */
  lemma CountSnoc(retired: seq<Fifo.Retired<Entry>>, r: Fifo.Retired<Entry>)
    ensures Fifo.Count(retired + [r], Fifo.Dropped) == Fifo.Count(retired, Fifo.Dropped) + if r.tag == Fifo.Dropped then 1 else 0
  {
    assert (retired + [r])[..|retired|] == retired;
  }

  lemma HeadAndTail(nodes: seq<Addr>)
    requires Distinct(nodes) && nodes != []
    ensures nodes[0] !in nodes[1..]
    ensures (set a | a in nodes) == (set a | a in nodes[1..]) + {nodes[0]}
  {
    assert nodes == [nodes[0]] + nodes[1..];
  }

  lemma SnocSet(nodes: seq<Addr>, a: Addr)
    ensures (set b | b in nodes + [a]) == (set b | b in nodes) + {a}
  {
  }

  lemma AddedToRoom(bound: Bound, m: Memory, owned: set<Addr>, entries: seq<Entry>, drops: nat, e: Entry, c: Config)
    requires Settled(m, owned, entries, drops, Some(e.node)) && EntryIn(m, e) && |entries| < bound
    requires AddDone(bound, m, Nodes(entries), e.node, c)
    ensures Settled(c.mem, owned, entries + [e], drops, None)
  {
    hide MessageOf, AllPieces, RingShape;
    NodesOfSeqs(entries, e);
    forall i | 0 <= i < |entries + [e]|
      ensures EntryIn(c.mem, (entries + [e])[i])
    {
      assert EntryIn(m, (entries + [e])[i]);
    }
  }

  lemma AddedToFull(bound: Bound, m: Memory, owned: set<Addr>, entries: seq<Entry>, drops: nat, e: Entry, c: Config)
    requires Settled(m, owned, entries, drops, Some(e.node)) && EntryIn(m, e) && |entries| == bound
    requires AddDone(bound, m, Nodes(entries), e.node, c)
    ensures Settled(c.mem, owned, entries[1..] + [e], drops + 1, Some(entries[0].node))
    ensures MessageIn(c.mem, entries[0]) && Live(c.mem, entries[0].node) == {Node} + Remains(MessageOf(entries[0]))
  {
    hide MessageOf, AllPieces, Remains;
    NodesOfSeqs(entries, e);
    var nodes, after := Nodes(entries), entries[1..] + [e];
    assert EntryIn(m, entries[0]) && nodes[0] == entries[0].node;
    forall i | 0 <= i < |after|
      ensures EntryIn(c.mem, after[i])
    {
      var was := if i < |entries| - 1 then entries[i + 1] else e;
      assert EntryIn(m, was) && after[i] == was;
      assert i < |entries| - 1 ==> nodes[i + 1] == was.node;
    }
    HeadAndTail(nodes);
    SnocSet(nodes[1..], e.node);
  }

  lemma AddProgramEnds(bound: Bound, m: Memory, owned: set<Addr>, ops: seq<Op>, e: Entry)
    requires Settled(m, owned, Ran(bound, ops).pending, Drops(Ran(bound, ops)), Some(e.node)) && EntryIn(m, e)
    ensures AddEnds(bound, owned, ops + [Fifo.Add(e)], RunProgram(AddProgram(bound, m), Config(m, Some(e.node), None)))
  {
    hide RingIn, RunProgram, AddProgram;
    var h := Ran(bound, ops);
    Fifo.Conservation(bound, ops);
    Fifo.RunSnoc(bound, ops, Fifo.Add(e));
    SettledNodes(m, owned, h.pending, Drops(h), Some(e.node));
    AddEffect(bound, m, Nodes(h.pending), e.node);
    var c := RunProgram(AddProgram(bound, m), Config(m, Some(e.node), None));
    if |h.pending| < bound {
      AddedToRoom(bound, m, owned, h.pending, Drops(h), e, c);
    } else {
      AddedToFull(bound, m, owned, h.pending, Drops(h), e, c);
      CountSnoc(h.retired, Fifo.Retired(h.pending[0], Fifo.Dropped));
    }
  }

  lemma DecideAddQueue(bound: Bound, m: Memory, owned: set<Addr>, ops: seq<Op>, e: Entry)
    requires SectionOK(bound, View(m, owned), owned, Some(AddLocked(e)), ops)
    ensures SectionOK(bound, View(m, owned), owned, Some(Adding(e, None, AddProgram(bound, m))), ops)
  {
    hide AddProgram, AddEnds, RunProgram, Settled, View, EntryIn;
    var v, before := View(m, owned), ops[..|ops| - 1];
    assert ops == before + [Fifo.Add(e)];
    AddProgramEnds(bound, v, owned, before, e);
    SameAddProgram(bound, m, owned, Ran(bound, before).pending, Drops(Ran(bound, before)), Some(e.node));
  }

  /** The tests at the start of the add routine come out the same on the queue's part of memory. */
  lemma SameAddProgram(bound: Bound, m: Memory, owned: set<Addr>, entries: seq<Entry>, drops: nat, extra: Option<Addr>)
    requires Settled(View(m, owned), owned, entries, drops, extra)
    ensures AddProgram(bound, m) == AddProgram(bound, View(m, owned))
  {
    SettledNodes(View(m, owned), owned, entries, drops, extra);
    if entries != [] {
      assert Nodes(entries)[0] in View(m, owned).message;
    }
  }

  lemma Taken(m: Memory, owned: set<Addr>, entries: seq<Entry>, drops: nat, c: Config)
    requires Settled(m, owned, entries, drops, None) && entries != []
    requires GetDone(m, Nodes(entries), c)
    ensures Settled(c.mem, owned, entries[1..], drops, Some(entries[0].node)) && EntryIn(c.mem, entries[0])
  {
    hide MessageOf, AllPieces;
    var nodes, after := Nodes(entries), entries[1..];
    NodesOfSeqs(entries, entries[0]);
    assert EntryIn(m, entries[0]) && nodes[0] == entries[0].node;
    forall i | 0 <= i < |after|
      ensures EntryIn(c.mem, after[i])
    {
      assert EntryIn(m, entries[i + 1]);
    }
    HeadAndTail(nodes);
  }

  lemma GetProgramEnds(bound: Bound, m: Memory, owned: set<Addr>, ops: seq<Op>)
    requires Settled(m, owned, Ran(bound, ops).pending, Drops(Ran(bound, ops)), None)
    ensures GetEnds(bound, owned, ops + [Fifo.Poll], RunProgram(GetProgram(m), Config(m, None, None)))
  {
    var h, c := Ran(bound, ops), RunProgram(GetProgram(m), Config(m, None, None));
    SettledNodes(m, owned, h.pending, Drops(h), None);
    GetEffect(m, Nodes(h.pending));
    hide RunProgram, GetProgram;
    Fifo.RunSnoc(bound, ops, Fifo.Poll);
    if h.pending == [] {
      NothingToTake(m, owned, Drops(h), c);
    } else {
      Taken(m, owned, h.pending, Drops(h), c);
      hide Settled, GetDone, EntryIn, Drops, Fifo.Run;
      assert EntryIn(c.mem, h.pending[0]) && Settled(c.mem, owned, h.pending[1..], Drops(h), Some(h.pending[0].node));
      DeliveredOut(bound, owned, ops, c);
    }
  }

  lemma NothingToTake(m: Memory, owned: set<Addr>, drops: nat, c: Config)
    requires Settled(m, owned, [], drops, None) && GetDone(m, Nodes([]), c)
    ensures Settled(c.mem, owned, [], drops, None) && c.saved == None
  {
  }

  /** The history after a poll that finds something. */
  lemma PollTakes(bound: Bound, ops: seq<Op>)
    requires Ran(bound, ops).pending != []
    ensures var h, h' := Ran(bound, ops), Ran(bound, ops + [Fifo.Poll]);
            && h'.pending == h.pending[1..] && Drops(h') == Drops(h)
            && h'.retired == h.retired + [Fifo.Retired(h.pending[0], Fifo.Delivered)]
            && h'.replies == h.replies + [Some(h.pending[0])]
  {
    var h := Ran(bound, ops);
    Fifo.RunSnoc(bound, ops, Fifo.Poll);
    CountSnoc(h.retired, Fifo.Retired(h.pending[0], Fifo.Delivered));
    hide Fifo.Run, Fifo.Count;
  }

  /** The node that a poll has taken out. */
  lemma DeliveredOut(bound: Bound, owned: set<Addr>, ops: seq<Op>, c: Config)
    requires c.Config? && Ran(bound, ops).pending != []
    requires var h := Ran(bound, ops);
             && EntryIn(c.mem, h.pending[0]) && c.saved == Some(h.pending[0].node)
             && Settled(c.mem, owned, h.pending[1..], Drops(h), Some(h.pending[0].node))
    ensures GetEnds(bound, owned, ops + [Fifo.Poll], c)
  {
    hide Settled, AllPieces, Ran, Drops, MessageOf, Live;
    PollTakes(bound, ops);
  }

  lemma DecideGetQueue(bound: Bound, m: Memory, owned: set<Addr>, ops: seq<Op>, ticket: nat)
    requires SectionOK(bound, View(m, owned), owned, Some(GetLocked(ticket)), ops)
    ensures SectionOK(bound, View(m, owned), owned, Some(Getting(ticket, None, GetProgram(m))), ops)
  {
    hide GetEnds, RunProgram, Settled;
    assert ops == ops[..|ops| - 1] + [Fifo.Poll];
    GetProgramEnds(bound, View(m, owned), owned, ops[..|ops| - 1]);
  }

  lemma ExecAddQueue(bound: Bound, m: Memory, owned: set<Addr>, ops: seq<Op>, e: Entry, saved: Option<Addr>, instr: Instr, rest: Program)
    requires SectionOK(bound, View(m, owned), owned, Some(Adding(e, saved, Do(instr, rest))), ops)
    ensures var c := Config(m, Some(e.node), saved);
            var c' := Exec(instr, c);
            && Exec(instr, ViewConfig(c, owned)).Config? && c'.Config?
            && SectionOK(bound, View(c'.mem, owned), owned, Some(Adding(e, c'.saved, rest)), ops)
  {
    var c := Config(m, Some(e.node), saved);
    if Exec(instr, ViewConfig(c, owned)).Fault? {
      FaultStays(rest);
    }
    ExecFrame(instr, c, owned);
  }

  lemma ExecGetQueue(bound: Bound, m: Memory, owned: set<Addr>, ops: seq<Op>, ticket: nat, saved: Option<Addr>, instr: Instr, rest: Program)
    requires SectionOK(bound, View(m, owned), owned, Some(Getting(ticket, saved, Do(instr, rest))), ops)
    ensures var c := Config(m, None, saved);
            var c' := Exec(instr, c);
            && Exec(instr, ViewConfig(c, owned)).Config? && c'.Config?
            && SectionOK(bound, View(c'.mem, owned), owned, Some(Getting(ticket, c'.saved, rest)), ops)
  {
    var c := Config(m, None, saved);
    if Exec(instr, ViewConfig(c, owned)).Fault? {
      FaultStays(rest);
    }
    ExecFrame(instr, c, owned);
  }

  /** Two memories that differ only in the blocks of node `a`, which is not among those of `entries`. */
  lemma OthersSame(m: Memory, pieces: set<Piece>, a: Addr, owned: set<Addr>, entries: seq<Entry>)
    requires a !in Nodes(entries) && forall b :: b in Nodes(entries) ==> b in owned
    ensures SameNodes(View(m, owned), View(m.(live := m.live[a := pieces]), owned - {a}), entries)
  {
  }

  lemma SettledWithout(m: Memory, owned: set<Addr>, entries: seq<Entry>, drops: nat, a: Addr, pieces: set<Piece>)
    requires Settled(View(m, owned), owned, entries, drops, Some(a))
    ensures Settled(View(m.(live := m.live[a := pieces]), owned - {a}), owned - {a}, entries, drops, None)
  {
    SettledNodes(View(m, owned), owned, entries, drops, Some(a));
    OthersSame(m, pieces, a, owned, entries);
    hide SameNodes, RingIn, EntryIn;
    SettledTransfer(View(m, owned), View(m.(live := m.live[a := pieces]), owned - {a}), owned, owned - {a}, entries, drops, Some(a), None);
  }

  /** Once the evicted node is freed, the queue's own nodes are all there is. */
  lemma FreeNodeQueue(bound: Bound, m: Memory, owned: set<Addr>, ops: seq<Op>, e: Entry, a: Addr)
    requires SectionOK(bound, View(m, owned), owned, Some(Adding(e, Some(a), Done)), ops)
    ensures var m' := m.(live := m.live[a := Live(m, a) - {Node}]);
            SectionOK(bound, View(m', owned - {a}), owned - {a}, Some(Adding(e, None, Done)), ops)
  {
    hide Settled, LastOut, Ran, Drops, View, Live;
    SettledWithout(m, owned, Ran(bound, ops).pending, Drops(Ran(bound, ops)), a, Live(m, a) - {Node});
  }

  lemma UnlockAddQueue(bound: Bound, m: Memory, owned: set<Addr>, ops: seq<Op>, e: Entry)
    requires SectionOK(bound, m, owned, Some(Adding(e, None, Done)), ops)
    ensures SectionOK(bound, m, owned, None, ops)
  {
  }

  lemma UnlockGetQueue(bound: Bound, m: Memory, owned: set<Addr>, ops: seq<Op>, ticket: nat, saved: Option<Addr>)
    requires SectionOK(bound, View(m, owned), owned, Some(Getting(ticket, saved, Done)), ops)
    ensures var owned' := if saved.Some? then owned - {saved.value} else owned;
            SectionOK(bound, View(m, owned'), owned', None, ops)
  {
    if saved.Some? {
      var h := Ran(bound, ops);
      SettledNodes(View(m, owned), owned, h.pending, Drops(h), saved);
      ViewsAgree(m, m, owned, owned - {saved.value}, h.pending);
      SettledTransfer(View(m, owned), View(m, owned - {saved.value}), owned, owned - {saved.value}, h.pending, Drops(h), saved, None);
    }
  }
}

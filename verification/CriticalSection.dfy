/**
 The add and get routines as sequences of single writes to a shared memory, the way another thread
 could see them.  Nodes are addresses here; a write through a null or freed pointer is a fault.
 */
module CriticalSection {
  import opened Common
  import opened Indications
  import opened Ring
  import opened Fifo

  type Addr = nat

  /** The heap blocks that belong to one list node: the node itself and the blocks of its message. */
  datatype Piece = Node | Block(part: Part)

  datatype Memory = Memory(
    head: Option<Addr>, tail: Option<Addr>, count: nat, drops: nat,
    next: map<Addr, Option<Addr>>, message: map<Addr, Message>, live: map<Addr, set<Piece>>)

  function Live(m: Memory, a: Addr): set<Piece> {
    if a in m.live then m.live[a] else {}
  }

  function Blocks(parts: set<Part>): set<Piece> {
    set p | p in parts :: Block(p)
  }

  function Parts(pieces: set<Piece>): set<Part> {
    set p | p in pieces && p.Block? :: p.part
  }

  lemma PartsOfBlocks(parts: set<Part>)
    ensures Parts(Blocks(parts)) == parts && Parts({Node} + Blocks(parts)) == parts
  {
    assert forall p :: p in parts ==> Block(p) in Blocks(parts);
    assert forall p :: p in Parts(Blocks(parts)) ==> Block(p) in Blocks(parts);
    assert forall p :: p in Parts({Node} + Blocks(parts)) ==> Block(p) in Blocks(parts);
  }

  /** The blocks of a node with message `msg`, before and after the message is released. */
  function AllPieces(msg: Message): set<Piece> {
    {Node} + Blocks(Allocated(msg.uCase, msg.dest))
  }

  function Remains(msg: Message): set<Piece> {
    Blocks(Residue(msg.uCase))
  }

  /** One write of the queue routines.  `Arg` is the node being added, `Saved` a local node pointer. */
  datatype Instr =
    | SavedIsHead | HeadIsArg | TailIsArg | HeadNextIsArg | TailNextIsArg | TailNextIsHead | HeadIsHeadNext
    | HeadIsNull | TailIsNull | IncCount | DecCount | ZeroCount | IncDrops | FreeBlock(part: Part)

  datatype Program = Done | Do(instr: Instr, rest: Program)

  /** A memory and the local variables of the thread in the critical section. */
  datatype Config = Config(mem: Memory, arg: Option<Addr>, saved: Option<Addr>) | Fault

  predicate NodeLive(m: Memory, p: Option<Addr>) {
    p.Some? && Node in Live(m, p.value)
  }

  function SetNext(c: Config, at: Option<Addr>, to: Option<Addr>): Config
    requires c.Config?
  {
    if NodeLive(c.mem, at) then c.(mem := c.mem.(next := c.mem.next[at.value := to])) else Fault
  }

  function Exec(instr: Instr, c: Config): Config {
    if c.Fault? then Fault
    else
      var m := c.mem;
      match instr
      case SavedIsHead => c.(saved := m.head)
      case HeadIsArg => c.(mem := m.(head := c.arg))
      case TailIsArg => c.(mem := m.(tail := c.arg))
      case HeadNextIsArg => SetNext(c, m.head, c.arg)
      case TailNextIsArg => SetNext(c, m.tail, c.arg)
      case TailNextIsHead => SetNext(c, m.tail, m.head)
      case HeadIsHeadNext =>
        if NodeLive(m, m.head) && m.head.value in m.next then c.(mem := m.(head := m.next[m.head.value])) else Fault
      case HeadIsNull => c.(mem := m.(head := None))
      case TailIsNull => c.(mem := m.(tail := None))
      case IncCount => c.(mem := m.(count := m.count + 1))
      case DecCount => if m.count > 0 then c.(mem := m.(count := m.count - 1)) else Fault
      case ZeroCount => c.(mem := m.(count := 0))
      case IncDrops => c.(mem := m.(drops := m.drops + 1))
      case FreeBlock(p) => if NodeLive(m, c.saved) then FreeAt(c, c.saved.value, p) else Fault
  }

  /** Frees block `p` of the message of the node at `a`, having followed the pointers to it. */
  function FreeAt(c: Config, a: Addr, p: Part): Config
    requires c.Config?
  {
    var pieces := Live(c.mem, a);
    if Block(p) in pieces && PathLive(p, Parts(pieces)) then
      c.(mem := c.mem.(live := c.mem.live[a := pieces - {Block(p)}]))
    else Fault
  }

  function RunProgram(prog: Program, c: Config): Config {
    match prog
    case Done => c
    case Do(instr, rest) => RunProgram(rest, Exec(instr, c))
  }

  lemma {:induction false} FaultStays(prog: Program)
    ensures RunProgram(prog, Fault).Fault?
  {
    if prog.Do? {
      FaultStays(prog.rest);
    }
  }

  function FreeProgram(order: seq<Part>): Program {
    if order == [] then Done else Do(FreeBlock(order[0]), FreeProgram(order[1..]))
  }

  function ReleaseProgram(msg: Message): Program {
    FreeProgram(FreeOrder(msg.uCase, msg.dest))
  }

  /** The writes of the add routine, with the tests it makes before the first write. */
  function AddProgram(bound: nat, m: Memory): Program {
    if m.count == 0 && m.head == None && m.tail == None then
      Do(HeadIsArg, Do(TailIsArg, Do(HeadNextIsArg, Do(TailNextIsArg, Do(IncCount, Done)))))
    else if m.count == 1 && m.head != None && m.tail != None then
      Do(HeadNextIsArg, Do(TailIsArg, Do(TailNextIsHead, Do(IncCount, Done))))
    else if 1 < m.count < bound && m.head != None && m.tail != None then
      Do(TailNextIsArg, Do(TailIsArg, Do(TailNextIsHead, Do(IncCount, Done))))
    else if m.count == bound && m.head != None && m.tail != None then
      Do(SavedIsHead, Do(IncDrops, Do(TailNextIsArg, Do(TailIsArg, Do(HeadIsHeadNext, Do(TailNextIsHead,
      if m.head.value in m.message then ReleaseProgram(m.message[m.head.value]) else Done))))))
    else Done
  }

  /** The writes of the get routine. */
  function GetProgram(m: Memory): Program {
    if m.count == 1 then Do(SavedIsHead, Do(HeadIsNull, Do(TailIsNull, Do(ZeroCount, Done))))
    else if m.count > 1 then Do(SavedIsHead, Do(HeadIsHeadNext, Do(TailNextIsHead, Do(DecCount, Done))))
    else Done
  }

  function Size(prog: Program): nat {
    if prog.Done? then 0 else 1 + Size(prog.rest)
  }

  /** The blocks of the displaced message that the program frees. */
  function Frees(prog: Program): set<Part> {
    match prog
    case Done => {}
    case Do(FreeBlock(p), rest) => {p} + Frees(rest)
    case Do(_, rest) => Frees(rest)
  }

  predicate OnlyFrees(prog: Program) {
    prog.Do? ==> prog.instr.FreeBlock? && OnlyFrees(prog.rest)
  }

  /** All other writes come before the frees. */
  predicate FreesLast(prog: Program) {
    OnlyFrees(prog) || (prog.Do? && !prog.instr.FreeBlock? && FreesLast(prog.rest))
  }

  /** The longest programs. */
  const ADD_WRITES := 13
  const GET_WRITES := 4

  /** What the rest of an add and of a get looks like at any point. */
  predicate AddShape(prog: Program) {
    FreesLast(prog) && Size(prog) <= ADD_WRITES
  }

  predicate GetShape(prog: Program) {
    FreesLast(prog) && Size(prog) <= GET_WRITES && Frees(prog) == {}
  }

  lemma {:induction false} FreeProgramShape(order: seq<Part>)
    ensures Size(FreeProgram(order)) == |order| && OnlyFrees(FreeProgram(order))
  {
    if order != [] {
      FreeProgramShape(order[1..]);
    }
  }

  lemma FreeOrderSize(u: UCase, d: DestType)
    ensures |FreeOrder(u, d)| <= 7
  {
  }

  lemma ReleaseProgramShape(msg: Message)
    ensures Size(ReleaseProgram(msg)) <= 7 && OnlyFrees(ReleaseProgram(msg))
  {
    FreeOrderSize(msg.uCase, msg.dest);
    FreeProgramShape(FreeOrder(msg.uCase, msg.dest));
  }

  /** Three more writes before a program. */
  lemma ThreeWrites(i: Instr, j: Instr, k: Instr, rest: Program)
    requires FreesLast(rest) && !i.FreeBlock? && !j.FreeBlock? && !k.FreeBlock?
    ensures var prog := Do(i, Do(j, Do(k, rest)));
            Size(prog) == 3 + Size(rest) && FreesLast(prog) && Frees(prog) == Frees(rest)
  {
    assert FreesLast(Do(k, rest)) && Size(Do(k, rest)) == 1 + Size(rest) && Frees(Do(k, rest)) == Frees(rest);
    var p := Do(j, Do(k, rest));
    assert FreesLast(p) && Size(p) == 1 + Size(Do(k, rest)) && Frees(p) == Frees(Do(k, rest));
  }

  lemma AddProgramShape(bound: Bound, m: Memory)
    ensures AddShape(AddProgram(bound, m))
  {
    RoomProgramShape();
    if m.head.Some? {
      if m.head.value in m.message {
        ReleaseProgramShape(m.message[m.head.value]);
      }
      FullProgramShape(if m.head.value in m.message then ReleaseProgram(m.message[m.head.value]) else Done);
    }
    hide AddShape, ReleaseProgram, OnlyFrees, Size;
  }

  lemma RoomProgramShape()
    ensures AddShape(Done)
    ensures AddShape(Do(HeadIsArg, Do(TailIsArg, Do(HeadNextIsArg, Do(TailNextIsArg, Do(IncCount, Done))))))
    ensures AddShape(Do(HeadNextIsArg, Do(TailIsArg, Do(TailNextIsHead, Do(IncCount, Done)))))
    ensures AddShape(Do(TailNextIsArg, Do(TailIsArg, Do(TailNextIsHead, Do(IncCount, Done)))))
  {
    var end := Do(IncCount, Done);
    assert FreesLast(end) && Size(end) == 1;
    var end2 := Do(TailNextIsArg, end);
    assert FreesLast(end2) && Size(end2) == 2;
    ThreeWrites(HeadIsArg, TailIsArg, HeadNextIsArg, end2);
    ThreeWrites(HeadNextIsArg, TailIsArg, TailNextIsHead, end);
    ThreeWrites(TailNextIsArg, TailIsArg, TailNextIsHead, end);
    hide FreesLast, Size;
  }

  lemma FullProgramShape(release: Program)
    ensures OnlyFrees(release) && Size(release) <= 7 ==>
              AddShape(Do(SavedIsHead, Do(IncDrops, Do(TailNextIsArg, Do(TailIsArg, Do(HeadIsHeadNext, Do(TailNextIsHead, release)))))))
  {
    if OnlyFrees(release) {
      ThreeWrites(TailIsArg, HeadIsHeadNext, TailNextIsHead, release);
      ThreeWrites(SavedIsHead, IncDrops, TailNextIsArg, Do(TailIsArg, Do(HeadIsHeadNext, Do(TailNextIsHead, release))));
    }
  }

  lemma GetProgramShape(m: Memory)
    ensures GetShape(GetProgram(m))
  {
    var last, last2 := Do(ZeroCount, Done), Do(DecCount, Done);
    assert FreesLast(last) && Size(last) == 1 && FreesLast(last2) && Size(last2) == 1;
    ThreeWrites(SavedIsHead, HeadIsNull, TailIsNull, last);
    ThreeWrites(SavedIsHead, HeadIsHeadNext, TailNextIsHead, last2);
    assert Frees(last) == {} && Frees(last2) == {} && FreesLast(Done) && Size(Done) == 0 && Frees(Done) == {};
    hide FreesLast, Size, Frees;
  }

  /** The ring of `nodes` in memory. */
  ghost predicate RingIn(nodes: seq<Addr>, m: Memory) {
    RingShape(nodes, m.head, m.tail, m.next, m.count)
  }

  /** Every node of `nodes` has all its blocks. */
  ghost predicate WholeIn(nodes: seq<Addr>, m: Memory) {
    forall i :: 0 <= i < |nodes| ==> nodes[i] in m.message && Live(m, nodes[i]) == AllPieces(m.message[nodes[i]])
  }

  /** Running a release program frees exactly the blocks of `order`, and never faults. */
  lemma {:induction false} FreeProgramEffect(order: seq<Part>, c: Config)
    requires c.Config? && c.saved.Some? && Node in Live(c.mem, c.saved.value)
    requires FreesSafely(order, Parts(Live(c.mem, c.saved.value)))
    ensures var a := c.saved.value;
            RunProgram(FreeProgram(order), c) ==
            if order == [] then c
            else c.(mem := c.mem.(live := c.mem.live[a := Live(c.mem, a) - Blocks(Elements(order))]))
  {
    if order != [] {
      var a, p, rest := c.saved.value, order[0], order[1..];
      var pieces := Live(c.mem, a);
      assert Parts(pieces - {Block(p)}) == Parts(pieces) - {p};
      var now := pieces - {Block(p)};
      var c1 := Exec(FreeBlock(p), c);
      assert c1 == c.(mem := c.mem.(live := c.mem.live[a := now]));
      FreeProgramEffect(rest, c1);
      assert Elements(order) == {p} + Elements(rest);
      var after := now - Blocks(Elements(rest));
      assert pieces - Blocks(Elements(order)) == after;
      assert rest == [] ==> after == now;
      assert c.mem.live[a := now][a := after] == c.mem.live[a := after];
    }
  }

  /** The blocks of a whole message, and those that a release leaves. */
  lemma PiecesOf(msg: Message)
    ensures Parts(AllPieces(msg)) == Allocated(msg.uCase, msg.dest) && Node in AllPieces(msg)
    ensures AllPieces(msg) - Blocks(Elements(FreeOrder(msg.uCase, msg.dest))) == {Node} + Remains(msg)
    ensures FreeOrder(msg.uCase, msg.dest) != []
  {
    TablesAgree(msg.uCase, msg.dest);
    PartsOfBlocks(Allocated(msg.uCase, msg.dest));
  }

  /** The effect of the release program on a node with all its blocks. */
  lemma ReleaseEffect(msg: Message, c: Config)
    requires c.Config? && c.saved.Some? && Live(c.mem, c.saved.value) == AllPieces(msg)
    ensures RunProgram(ReleaseProgram(msg), c) ==
            c.(mem := c.mem.(live := c.mem.live[c.saved.value := {Node} + Remains(msg)]))
  {
    hide FreeOrder, Allocated, Residue, Elements, FreesSafely, RunProgram, FreeProgram;
    HeapBalance(msg.uCase, msg.dest);
    PiecesOf(msg);
    FreeProgramEffect(FreeOrder(msg.uCase, msg.dest), c);
  }

  /** What the add routine has done to memory when its last write is through. */
  ghost predicate AddDone(bound: Bound, m: Memory, nodes: seq<Addr>, a: Addr, c: Config) {
    && c.Config?
    && RingIn(Enqueued(bound, nodes, a), c.mem)
    && c.mem.message == m.message
    && if |nodes| < bound then
         c.saved == None && c.mem.drops == m.drops && c.mem.live == m.live
       else
         && c.saved == Some(nodes[0])
         && c.mem.drops == m.drops + 1
         && nodes[0] in m.message
         && c.mem.live == m.live[nodes[0] := {Node} + Remains(m.message[nodes[0]])]
  }

  /** The add routine run from start to end: some branch accepts the node, and the queue is as specified. */
  lemma AddEffect(bound: Bound, m: Memory, nodes: seq<Addr>, a: Addr)
    requires RingIn(nodes, m) && WholeIn(nodes, m) && |nodes| <= bound
    requires a !in nodes && Node in Live(m, a)
    ensures AddDone(bound, m, nodes, a, RunProgram(AddProgram(bound, m), Config(m, Some(a), None)))
  {
    if |nodes| == 0 {
      AddToEmpty(bound, m, nodes, a);
    } else if |nodes| == 1 {
      AddToSingle(bound, m, nodes, a);
    } else if |nodes| < bound {
      AddToMany(bound, m, nodes, a);
    } else {
      AddToFull(bound, m, nodes, a);
    }
  }

  lemma AddToEmpty(bound: Bound, m: Memory, nodes: seq<Addr>, a: Addr)
    requires RingIn(nodes, m) && nodes == [] && Node in Live(m, a)
    ensures AddDone(bound, m, nodes, a, RunProgram(AddProgram(bound, m), Config(m, Some(a), None)))
  {
    var c0 := Config(m, Some(a), None);
    var c1 := Exec(HeadIsArg, c0);
    var c2 := Exec(TailIsArg, c1);
    var c3 := Exec(HeadNextIsArg, c2);
    var c4 := Exec(TailNextIsArg, c3);
    var c5 := Exec(IncCount, c4);
    var p4 := Do(IncCount, Done);
    assert RunProgram(p4, c4) == c5;
    var p2 := Do(HeadNextIsArg, Do(TailNextIsArg, p4));
    assert RunProgram(p2, c2) == c5;
    assert RunProgram(AddProgram(bound, m), c0) == c5;
  }

  lemma AddToSingle(bound: Bound, m: Memory, nodes: seq<Addr>, a: Addr)
    requires RingIn(nodes, m) && WholeIn(nodes, m) && |nodes| == 1
    requires a !in nodes && Node in Live(m, a)
    ensures AddDone(bound, m, nodes, a, RunProgram(AddProgram(bound, m), Config(m, Some(a), None)))
  {
    var c0 := Config(m, Some(a), None);
    var c1 := Exec(HeadNextIsArg, c0);
    var c2 := Exec(TailIsArg, c1);
    var c3 := Exec(TailNextIsHead, c2);
    var c4 := Exec(IncCount, c3);
    assert RunProgram(Do(IncCount, Done), c3) == c4;
    assert RunProgram(Do(TailNextIsHead, Do(IncCount, Done)), c2) == c4;
    assert RunProgram(AddProgram(bound, m), c0) == c4;
  }

  lemma AddToMany(bound: Bound, m: Memory, nodes: seq<Addr>, a: Addr)
    requires RingIn(nodes, m) && WholeIn(nodes, m) && 1 < |nodes| < bound
    requires a !in nodes && Node in Live(m, a)
    ensures AddDone(bound, m, nodes, a, RunProgram(AddProgram(bound, m), Config(m, Some(a), None)))
  {
    var c0 := Config(m, Some(a), None);
    var c1 := Exec(TailNextIsArg, c0);
    var c2 := Exec(TailIsArg, c1);
    var c3 := Exec(TailNextIsHead, c2);
    var c4 := Exec(IncCount, c3);
    assert RunProgram(Do(IncCount, Done), c3) == c4;
    assert RunProgram(Do(TailNextIsHead, Do(IncCount, Done)), c2) == c4;
    assert RunProgram(AddProgram(bound, m), c0) == c4;
  }

  /** The pointer writes of an add to a full list. */
  function Displaced(c: Config): Config {
    Exec(TailNextIsHead, Exec(HeadIsHeadNext, Exec(TailIsArg, Exec(TailNextIsArg, Exec(IncDrops, Exec(SavedIsHead, c))))))
  }

  lemma DisplacedRuns(c: Config, release: Program)
    ensures RunProgram(Do(SavedIsHead, Do(IncDrops, Do(TailNextIsArg, Do(TailIsArg, Do(HeadIsHeadNext, Do(TailNextIsHead, release)))))), c)
            == RunProgram(release, Displaced(c))
  {
    hide Exec;
    var c2 := Exec(IncDrops, Exec(SavedIsHead, c));
    var c4 := Exec(TailIsArg, Exec(TailNextIsArg, c2));
    var p4 := Do(HeadIsHeadNext, Do(TailNextIsHead, release));
    var p2 := Do(TailNextIsArg, Do(TailIsArg, p4));
    assert RunProgram(p4, c4) == RunProgram(release, Displaced(c));
    assert RunProgram(p2, c2) == RunProgram(p4, c4);
    assert RunProgram(Do(SavedIsHead, Do(IncDrops, p2)), c) == RunProgram(p2, c2);
  }

  /** The memory once the oldest node is displaced: nothing is freed yet. */
  function DisplacedMemory(m: Memory, nodes: seq<Addr>, a: Addr): Memory
    requires |nodes| >= 2
  {
    m.(head := Some(nodes[1]), tail := Some(a), drops := m.drops + 1,
       next := m.next[nodes[|nodes| - 1] := Some(a)][a := Some(nodes[1])])
  }

  lemma DisplacedIs(m: Memory, nodes: seq<Addr>, a: Addr)
    requires RingIn(nodes, m) && WholeIn(nodes, m) && |nodes| >= 2
    requires a !in nodes && Node in Live(m, a)
    ensures Displaced(Config(m, Some(a), None)) == Config(DisplacedMemory(m, nodes, a), Some(a), Some(nodes[0]))
  {
    assert Node in Live(m, nodes[0]) && Node in Live(m, nodes[|nodes| - 1]);
    assert m.next[nodes[0]] == Some(nodes[1]);
    hide WholeIn, AllPieces, Distinct;
  }

  lemma DisplacedRing(m: Memory, nodes: seq<Addr>, a: Addr)
    requires RingIn(nodes, m) && |nodes| >= 2 && a !in nodes
    ensures RingIn(nodes[1..] + [a], DisplacedMemory(m, nodes, a))
  {
  }

  lemma AddToFull(bound: Bound, m: Memory, nodes: seq<Addr>, a: Addr)
    requires RingIn(nodes, m) && WholeIn(nodes, m) && |nodes| == bound
    requires a !in nodes && Node in Live(m, a)
    ensures AddDone(bound, m, nodes, a, RunProgram(AddProgram(bound, m), Config(m, Some(a), None)))
  {
    hide Displaced, RunProgram, ReleaseProgram, AllPieces, Remains, Distinct;
    var msg := m.message[nodes[0]];
    DisplacedRuns(Config(m, Some(a), None), ReleaseProgram(msg));
    DisplacedIs(m, nodes, a);
    DisplacedRing(m, nodes, a);
    ReleaseEffect(msg, Displaced(Config(m, Some(a), None)));
  }

  /** What the get routine has done to memory when its last write is through. */
  ghost predicate GetDone(m: Memory, nodes: seq<Addr>, c: Config) {
    && c.Config?
    && RingIn(Dequeued(nodes), c.mem)
    && c.saved == (if nodes == [] then None else Some(nodes[0]))
    && c.mem.message == m.message && c.mem.live == m.live && c.mem.drops == m.drops
  }

  lemma GetFromSingle(m: Memory, nodes: seq<Addr>)
    requires RingIn(nodes, m) && |nodes| == 1
    ensures GetDone(m, nodes, RunProgram(GetProgram(m), Config(m, None, None)))
  {
    var c0 := Config(m, None, None);
    var c2 := Exec(HeadIsNull, Exec(SavedIsHead, c0));
    var c3 := Exec(TailIsNull, c2);
    var c4 := Exec(ZeroCount, c3);
    assert RunProgram(Do(ZeroCount, Done), c3) == c4;
    assert RunProgram(Do(TailIsNull, Do(ZeroCount, Done)), c2) == c4;
    assert RunProgram(GetProgram(m), c0) == c4;
  }

  lemma GetFromMany(m: Memory, nodes: seq<Addr>)
    requires RingIn(nodes, m) && WholeIn(nodes, m) && |nodes| > 1
    ensures GetDone(m, nodes, RunProgram(GetProgram(m), Config(m, None, None)))
  {
    var c0 := Config(m, None, None);
    var c2 := Exec(HeadIsHeadNext, Exec(SavedIsHead, c0));
    var c3 := Exec(TailNextIsHead, c2);
    var c4 := Exec(DecCount, c3);
    assert RunProgram(Do(DecCount, Done), c3) == c4;
    assert RunProgram(Do(TailNextIsHead, Do(DecCount, Done)), c2) == c4;
    assert RunProgram(GetProgram(m), c0) == c4;
  }

  /** The get routine run from start to end. */
  lemma GetEffect(m: Memory, nodes: seq<Addr>)
    requires RingIn(nodes, m) && WholeIn(nodes, m)
    ensures GetDone(m, nodes, RunProgram(GetProgram(m), Config(m, None, None)))
  {
    if |nodes| == 1 {
      GetFromSingle(m, nodes);
    } else if |nodes| > 1 {
      GetFromMany(m, nodes);
    }
  }

  /** The part of a memory that concerns the nodes in `owned`. */
  function View(m: Memory, owned: set<Addr>): Memory {
    m.(next := map a | a in m.next && a in owned :: m.next[a],
       message := map a | a in m.message && a in owned :: m.message[a],
       live := map a | a in m.live && a in owned :: m.live[a])
  }

  function ViewConfig(c: Config, owned: set<Addr>): Config
    requires c.Config?
  {
    c.(mem := View(c.mem, owned))
  }

  /**
   A write that does not fault on the owned part of memory does the same on the whole memory, and
   leaves the other nodes' blocks and all messages alone.
   */
  lemma ExecFrame(instr: Instr, c: Config, owned: set<Addr>)
    requires c.Config? && Exec(instr, ViewConfig(c, owned)).Config?
    ensures var c' := Exec(instr, c);
            && c'.Config? && c'.arg == c.arg
            && Exec(instr, ViewConfig(c, owned)) == ViewConfig(c', owned)
            && c'.mem.message == c.mem.message
            && c'.mem.live.Keys == c.mem.live.Keys
            && (forall a :: a in c.mem.live && a !in owned ==> c'.mem.live[a] == c.mem.live[a])
            && (forall a :: a in c.mem.live && Node in c.mem.live[a] ==> Node in c'.mem.live[a])
  {
    var c' := Exec(instr, c);
    var v := Exec(instr, ViewConfig(c, owned));
    assert c'.Config?;
    assert v.mem.next == View(c'.mem, owned).next;
    assert v.mem.live == View(c'.mem, owned).live;
  }
}

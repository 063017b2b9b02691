/**
 What holds between any two steps of the driver: who owns which blocks, what the memory looks like
 to the thread in the critical section, and how the state relates to the history of the queue.
 */
module DriverInvariant {
  import opened Common
  import opened Indications
  import opened CriticalSection
  import opened Driver
  import Fifo

  type History = Fifo.History<Entry>

  function Ran(bound: Bound, ops: seq<Op>): History {
    Fifo.Run(bound, ops)
  }

  function Nodes(entries: seq<Entry>): (nodes: seq<Addr>)
    ensures |nodes| == |entries|
  {
    seq(|entries|, i requires 0 <= i < |entries| => entries[i].node)
  }

  function Drops(h: History): nat {
    Fifo.Count(h.retired, Fifo.Dropped)
  }

  function ReplyFor(r: Option<Entry>): Reply {
    if r.Some? then Present(MessageOf(r.value)) else Absent
  }

  predicate InSection(p: Phase) {
    p.AddLocked? || p.Adding? || p.GetLocked? || p.Getting?
  }

  /** The node that a thread outside the critical section holds. */
  function Cargo(p: Phase): Option<Addr> {
    match p
    case Allocating(e, _) => Some(e.node)
    case Linked(e) => Some(e.node)
    case Taken(_, _, a) => Some(a)
    case Marked(_, _, a) => Some(a)
    case Releasing(_, a, _) => Some(a)
    case _ => None
  }

  /** The number of the indication that a thread has taken out of the queue. */
  function TakenIndex(p: Phase): Option<nat> {
    match p
    case Taken(_, i, _) => Some(i)
    case Marked(_, i, _) => Some(i)
    case Releasing(i, _, _) => Some(i)
    case _ => None
  }

  /** The poll that a thread has not answered yet. */
  function Unanswered(p: Phase): Option<nat> {
    match p
    case GetLocked(k) => Some(k)
    case Getting(k, _, _) => Some(k)
    case Taken(k, _, _) => Some(k)
    case Marked(k, _, _) => Some(k)
    case NothingTaken(k) => Some(k)
    case EmptyReply(k) => Some(k)
    case _ => None
  }

  predicate HasSpare(p: Phase) {
    p.EmptyReply? || p.EmptyWritten?
  }

  function RingAddrs(owner: map<Addr, Owner>): set<Addr> {
    set a | a in owner && owner[a] == Ring
  }

  function Holder(s: State): Option<Phase> {
    if s.lock.Some? && s.lock.value in s.threads then Some(s.threads[s.lock.value]) else None
  }

  /** The blocks that a node has left while its message is being released. */
  function PiecesAfter(msg: Message, done: nat): set<Piece>
    requires done <= |FreeOrder(msg.uCase, msg.dest)|
  {
    {Node} + Blocks(Allocated(msg.uCase, msg.dest) - Elements(FreeOrder(msg.uCase, msg.dest)[..done]))
  }

  ghost predicate MessageIn(m: Memory, e: Entry) {
    e.node in m.message && m.message[e.node] == MessageOf(e)
  }

  /** The node of entry `e` is there with all its blocks and the right message. */
  ghost predicate EntryIn(m: Memory, e: Entry) {
    MessageIn(m, e) && Live(m, e.node) == AllPieces(MessageOf(e))
  }

  /** Indication `index` has been delivered by a poll of thread `t`, and its message is intact. */
  ghost predicate Delivering(h: History, m: Memory, index: nat, a: Addr) {
    && index < |h.retired| && h.retired[index].tag == Fifo.Delivered
    && h.retired[index].item.node == a && MessageIn(m, h.retired[index].item)
  }

  ghost predicate TicketFor(s: State, h: History, t: Tid, ticket: nat, reply: Option<Entry>) {
    ticket < |s.pollers| && ticket < |h.replies| && s.pollers[ticket] == t && h.replies[ticket] == reply
  }

  ghost predicate ThreadOK(bound: Bound, s: State, t: Tid)
    requires t in s.threads
  {
    var p, m, h := s.threads[t], s.memory, Ran(bound, s.ops);
    && (InSection(p) <==> s.lock == Some(t))
    && (HasSpare(p) <==> t in s.spare)
    && (Cargo(p).Some? ==> Cargo(p).value in s.owner && s.owner[Cargo(p).value] == Thread(t))
    && match p
       case Allocating(e, done) =>
         1 <= done <= |OrderOf(e)| && MessageIn(m, e) && Live(m, e.node) == Blocks(Elements(OrderOf(e)[..done]))
       case Linked(e) => EntryIn(m, e)
       case Adding(_, _, todo) => AddShape(todo)
       case Added(e) => e in Fifo.Accepted(s.ops)
       case GetLocked(ticket) => ticket + 1 == |s.pollers| && s.pollers[ticket] == t
       case Getting(ticket, _, todo) => ticket + 1 == |s.pollers| && s.pollers[ticket] == t && GetShape(todo)
       case Taken(ticket, i, a) =>
         && Delivering(h, m, i, a) && EntryIn(m, h.retired[i].item)
         && TicketFor(s, h, t, ticket, Some(h.retired[i].item))
       case Marked(ticket, i, a) =>
         && Delivering(h, m, i, a) && EntryIn(m, h.retired[i].item)
         && TicketFor(s, h, t, ticket, Some(h.retired[i].item))
       case Releasing(i, a, done) =>
         && Delivering(h, m, i, a) && done <= |FreeOrder(m.message[a].uCase, m.message[a].dest)|
         && Live(m, a) == PiecesAfter(m.message[a], done)
       case NothingTaken(ticket) => TicketFor(s, h, t, ticket, None)
       case EmptyReply(ticket) => TicketFor(s, h, t, ticket, None)
       case BeatRead(number, status) => number < |s.readings| && s.readings[number] == status
       case _ => true
  }

  /** Each address with live blocks has one owner, and that owner knows about it. */
  ghost predicate AddrOK(bound: Bound, s: State, a: Addr) {
    if a !in s.owner then Live(s.memory, a) == {}
    else
      && a in s.memory.live && a in s.memory.message
      && match s.owner[a]
         case Ring => Node in Live(s.memory, a)
         case Thread(t) => t in s.threads && Cargo(s.threads[t]) == Some(a)
         case Leaked(i) =>
           var retired := Ran(bound, s.ops).retired;
           && i < |retired| && retired[i].item.node == a && retired[i].item.uCase == InterfaceLos
           && Live(s.memory, a) == {Block(Key)}
  }

  /** Where the key of retired indication `i` is, if it was a loss of signal. */
  ghost predicate LosOK(bound: Bound, s: State, i: nat) {
    var retired := Ran(bound, s.ops).retired;
    i < |retired| && retired[i].item.uCase == InterfaceLos ==>
      var a := retired[i].item.node;
      && a in s.owner
      && match s.owner[a]
         case Ring => s.lock.Some? && i + 1 == |retired| && a !in Nodes(Ran(bound, s.ops).pending)
         case Thread(t) => t in s.threads && TakenIndex(s.threads[t]) == Some(i)
         case Leaked(j) => j == i
  }

  /** The queue holds exactly `entries`, in whole; besides their nodes, only `extra` belongs to it. */
  ghost predicate Settled(m: Memory, owned: set<Addr>, entries: seq<Entry>, drops: nat, extra: Option<Addr>) {
    && RingIn(Nodes(entries), m)
    && (forall i :: 0 <= i < |entries| ==> EntryIn(m, entries[i]))
    && m.drops == drops
    && owned == (set a | a in Nodes(entries)) + (if extra.Some? then {extra.value} else {})
    && (extra.Some? ==> extra.value !in Nodes(entries))
  }

  /** The node that an add or get has just taken out of the queue, as it is when the routine has run. */
  ghost predicate LastOut(m: Memory, h: History, a: Addr, tag: Fifo.Tag) {
    && h.retired != []
    && var last := h.retired[|h.retired| - 1];
       && last.tag == tag && last.item.node == a && MessageIn(m, last.item)
       && Live(m, a) == if tag == Fifo.Dropped then {Node} + Remains(MessageOf(last.item)) else AllPieces(MessageOf(last.item))
  }

  ghost predicate AddEnds(bound: Bound, owned: set<Addr>, ops: seq<Op>, c: Config) {
    && c.Config?
    && var h := Ran(bound, ops);
       && Settled(c.mem, owned, h.pending, Drops(h), c.saved)
       && (c.saved.Some? ==> LastOut(c.mem, h, c.saved.value, Fifo.Dropped))
  }

  ghost predicate GetEnds(bound: Bound, owned: set<Addr>, ops: seq<Op>, c: Config) {
    && c.Config?
    && var h := Ran(bound, ops);
       && Settled(c.mem, owned, h.pending, Drops(h), c.saved)
       && h.replies != []
       && if c.saved.Some? then
            && LastOut(c.mem, h, c.saved.value, Fifo.Delivered)
            && h.replies[|h.replies| - 1] == Some(h.retired[|h.retired| - 1].item)
          else h.replies[|h.replies| - 1] == None
  }

  /**
   The queue as the lock holder sees it.  With the lock free it agrees with the history.  Inside the
   critical section, running the rest of the routine without interruption would make it agree.
   */
  ghost predicate SectionOK(bound: Bound, m: Memory, owned: set<Addr>, holder: Option<Phase>, ops: seq<Op>) {
    if holder == None then
      var h := Ran(bound, ops); Settled(m, owned, h.pending, Drops(h), None)
    else
      ops != [] &&
      var before, op := ops[..|ops| - 1], ops[|ops| - 1];
      var h := Ran(bound, before);
      match holder.value
      case AddLocked(e) =>
        op == Fifo.Add(e) && Settled(m, owned, h.pending, Drops(h), Some(e.node)) && EntryIn(m, e)
      case Adding(e, saved, todo) =>
        op == Fifo.Add(e) && AddEnds(bound, owned, ops, RunProgram(todo, Config(m, Some(e.node), saved)))
      case GetLocked(_) =>
        op == Fifo.Poll && Settled(m, owned, h.pending, Drops(h), None)
      case Getting(_, saved, todo) =>
        op == Fifo.Poll && GetEnds(bound, owned, ops, RunProgram(todo, Config(m, None, saved)))
      case _ => false
  }

  ghost predicate QueueOK(bound: Bound, s: State) {
    var owned := RingAddrs(s.owner);
    SectionOK(bound, View(s.memory, owned), owned, Holder(s), s.ops)
  }

  ghost predicate WireOK(bound: Bound, s: State, k: nat) {
    var replies := Ran(bound, s.ops).replies;
    && (k in s.wire ==> k < |replies| && s.wire[k] == ReplyFor(replies[k]))
    && (k < |s.pollers| ==> k in s.wire || (s.pollers[k] in s.threads && Unanswered(s.threads[s.pollers[k]]) == Some(k)))
  }

  /** What heartbeats have read never goes back, and each reply carries what its heartbeat has read. */
  ghost predicate RebootOK(s: State) {
    && (s.isReboot == UpAfterActivation ==>
          exists e :: e in Fifo.Accepted(s.ops) && e.uCase == AccessTermIndOpState)
    && (forall i :: 0 <= i < |s.readings| && s.readings[i] == UpAfterActivation ==> s.isReboot == UpAfterActivation)
    && (forall i, j :: 0 <= i < j < |s.readings| && s.readings[i] == UpAfterActivation ==> s.readings[j] == UpAfterActivation)
    && (forall j :: 0 <= j < |s.beats| ==> s.beats[j].number < |s.readings| && s.readings[s.beats[j].number] == s.beats[j].status)
  }

  ghost predicate Inv(bound: Bound, s: State) {
    && (s.lock.Some? ==> s.lock.value in s.threads)
    && s.spare <= s.threads.Keys
    && |s.pollers| == Fifo.Polls(s.ops)
    && (forall t :: t in s.threads ==> ThreadOK(bound, s, t))
    && (forall a: Addr :: AddrOK(bound, s, a))
    && (forall i: nat :: LosOK(bound, s, i))
    && QueueOK(bound, s)
    && (forall k: nat :: WireOK(bound, s, k))
    && RebootOK(s)
  }

  /** The parts of the invariant, one by one. */
  lemma InvThread(bound: Bound, s: State, t: Tid)
    requires Inv(bound, s) && t in s.threads
    ensures ThreadOK(bound, s, t)
  {
  }

  lemma InvAddr(bound: Bound, s: State, a: Addr)
    requires Inv(bound, s)
    ensures AddrOK(bound, s, a)
  {
  }

  lemma InvLos(bound: Bound, s: State, i: nat)
    requires Inv(bound, s)
    ensures LosOK(bound, s, i)
  {
  }

  lemma InvLog(bound: Bound, s: State)
    requires Inv(bound, s)
    ensures RebootOK(s) && s.spare <= s.threads.Keys && |s.pollers| == Fifo.Polls(s.ops)
  {
  }

  lemma InvQueue(bound: Bound, s: State)
    requires Inv(bound, s)
    ensures QueueOK(bound, s) && (s.lock.Some? ==> s.lock.value in s.threads)
  {
  }

  lemma InitialInv(bound: Bound)
    ensures Inv(bound, INITIAL)
  {
    assert View(INITIAL.memory, RingAddrs(INITIAL.owner)) == INITIAL.memory;
  }
}

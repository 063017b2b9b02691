/**
 The driver as a set of threads: any number of BAL callbacks that add indications, RPC handlers that
 poll them, and heartbeats, all sharing the queue, its mutex and the heap.  Each step is one
 allocation, one lock operation, one pointer or counter write, one free, or one reply.

 A run is any sequence of events.  An event that cannot happen, such as taking a mutex that another
 thread holds, leaves the state as it is.
 */
module Driver {
  import opened Common
  import opened Indications
  import opened CriticalSection
  import opened Callbacks
  import Fifo

  type Tid = nat

  /** An accepted callback: which one, for which object, and the address of the list node it uses. */
  datatype Entry = Entry(uCase: UCase, obj: BalObject, node: Addr)

  function MessageOf(e: Entry): Message {
    MessageFor(e.uCase, e.obj)
  }

  function OrderOf(e: Entry): seq<Part> {
    AllocOrder(e.uCase, e.obj.dest)
  }

  /**
   Where a thread is.  `ticket` numbers the polls in the order in which they take the mutex, `index`
   numbers the accepted indications, `number` the heartbeats in the order in which they read the
   reboot state.
   */
  datatype Phase =
    | Allocating(entry: Entry, done: nat)
    | Linked(entry: Entry)
    | AddLocked(entry: Entry)
    | Adding(entry: Entry, saved: Option<Addr>, todo: Program)
    | Added(entry: Entry)
    | PollStart
    | GetLocked(ticket: nat)
    | Getting(ticket: nat, saved: Option<Addr>, todo: Program)
    | Taken(ticket: nat, index: nat, node: Addr)
    | Marked(ticket: nat, index: nat, node: Addr)
    | Releasing(index: nat, node: Addr, done: nat)
    | NothingTaken(ticket: nat)
    | EmptyReply(ticket: nat)
    | EmptyWritten
    | BeatStart
    | BeatRead(number: nat, status: RebootStatus)

  datatype Owner = Ring | Thread(t: Tid) | Leaked(index: nat)

  /** What a poll writes back. */
  datatype Reply = Absent | Present(message: Message)

  datatype RebootStatus = NotReported | UpAfterActivation

  /** What a heartbeat writes back, and its number. */
  datatype Beat = Beat(number: nat, status: RebootStatus)

  type Op = Fifo.Op<Entry>

  /**
   `memory`, `lock`, `spare` (the replies allocated for polls that found nothing), `isReboot` and
   `threads` are the driver's state.  The others record what has happened: who owns the blocks of
   each node, the operations in the order of lock acquisition, who made each poll, the replies that
   were written, what each heartbeat has read, and the heartbeat replies in the order of writing.
   */
  datatype State = State(
    memory: Memory, lock: Option<Tid>, spare: set<Tid>, isReboot: RebootStatus, threads: map<Tid, Phase>,
    owner: map<Addr, Owner>, ops: seq<Op>, pollers: seq<Tid>, wire: map<nat, Reply>,
    readings: seq<RebootStatus>, beats: seq<Beat>)

  const INITIAL := State(
    Memory(None, None, 0, 0, map[], map[], map[]), None, {}, NotReported, map[], map[], [], [], map[], [], [])

  datatype Event =
    | Callback(t: Tid, uCase: UCase, obj: BalObject, node: Addr)
    | StartPoll(t: Tid)
    | Proceed(t: Tid)
    | StartHeartbeat(t: Tid)

  datatype Outcome = Ok(state: State) | Crash

  /**
   A callback on a new thread: the guard, and the allocation of the message.  The allocator may hand
   out any address that has no live block, including one that was used before.
   An OMCI response is taken to come from the OMCI channel.
   */
  function BeginCallback(s: State, t: Tid, u: UCase, obj: BalObject, a: Addr): Outcome {
    if t in s.threads || Live(s.memory, a) != {} || !Accepts(u, obj) || (u == BalOmciResp && obj.dest != ItuOmciChannel) then Ok(s)
    else
      var e := Entry(u, obj, a);
      var m := s.memory;
      Ok(s.(memory := m.(message := m.message[a := MessageOf(e)], live := m.live[a := {Block(Root)}]),
            threads := s.threads[t := Allocating(e, 1)],
            owner := s.owner[a := Thread(t)]))
  }

  function Allocate(s: State, t: Tid, e: Entry, done: nat): Outcome {
    var m, order := s.memory, OrderOf(e);
    var pieces := Live(m, e.node);
    if done < |order| then
      if PathLive(order[done], Parts(pieces)) then
        Ok(s.(memory := m.(live := m.live[e.node := pieces + {Block(order[done])}]),
              threads := s.threads[t := Allocating(e, done + 1)]))
      else Crash
    else
      Ok(s.(memory := m.(live := m.live[e.node := pieces + {Node}]), threads := s.threads[t := Linked(e)]))
  }

  function LockForAdd(s: State, t: Tid, e: Entry): Outcome {
    if s.lock.Some? then Ok(s)
    else
      Ok(s.(lock := Some(t), threads := s.threads[t := AddLocked(e)],
            owner := s.owner[e.node := Ring], ops := s.ops + [Fifo.Add(e)]))
  }

  function StepAdd(s: State, t: Tid, e: Entry, saved: Option<Addr>, todo: Program, index: nat): Outcome {
    match todo
    case Do(instr, rest) =>
      (match Exec(instr, Config(s.memory, Some(e.node), saved))
       case Fault => Crash
       case Config(m, _, saved') => Ok(s.(memory := m, threads := s.threads[t := Adding(e, saved', rest)])))
    case Done =>
      if saved.Some? then FreeNode(s, saved.value, index, s.threads[t := Adding(e, None, Done)])
      else Ok(s.(lock := None, threads := s.threads[t := Added(e)]))
  }

  /** Frees the list node at `a`, after which nobody owns it, unless a block of its message is left. */
  function FreeNode(s: State, a: Addr, index: nat, threads: map<Tid, Phase>): Outcome {
    var m := s.memory;
    var pieces := Live(m, a);
    if Node !in pieces then Crash
    else
      var left := pieces - {Node};
      Ok(s.(memory := m.(live := m.live[a := left]), threads := threads,
            owner := if left == {} then s.owner - {a} else s.owner[a := Leaked(index)]))
  }

  function FinishAdd(s: State, t: Tid, e: Entry): Outcome {
    Ok(s.(threads := s.threads - {t}, isReboot := if e.uCase == AccessTermIndOpState then UpAfterActivation else s.isReboot))
  }

  function LockForGet(s: State, t: Tid): Outcome {
    if s.lock.Some? then Ok(s)
    else
      Ok(s.(lock := Some(t), threads := s.threads[t := GetLocked(|s.pollers|)],
            ops := s.ops + [Fifo.Poll], pollers := s.pollers + [t]))
  }

  function StepGet(s: State, t: Tid, ticket: nat, saved: Option<Addr>, todo: Program, index: nat): Outcome {
    match todo
    case Do(instr, rest) =>
      (match Exec(instr, Config(s.memory, None, saved))
       case Fault => Crash
       case Config(m, _, saved') => Ok(s.(memory := m, threads := s.threads[t := Getting(ticket, saved', rest)])))
    case Done =>
      if saved.Some? then
        Ok(s.(lock := None, threads := s.threads[t := Taken(ticket, index, saved.value)],
              owner := s.owner[saved.value := Thread(t)]))
      else Ok(s.(lock := None, threads := s.threads[t := NothingTaken(ticket)]))
  }

  /** The node and every block of the message behind it can be dereferenced. */
  predicate MessageLive(m: Memory, a: Addr) {
    a in m.message && AllPieces(m.message[a]) <= Live(m, a)
  }

  function MarkPresent(s: State, t: Tid, ticket: nat, index: nat, a: Addr): Outcome {
    if MessageLive(s.memory, a) then Ok(s.(threads := s.threads[t := Marked(ticket, index, a)])) else Crash
  }

  function WriteMessage(s: State, t: Tid, ticket: nat, index: nat, a: Addr): Outcome {
    if MessageLive(s.memory, a) then
      Ok(s.(wire := s.wire[ticket := Present(s.memory.message[a])], threads := s.threads[t := Releasing(index, a, 0)]))
    else Crash
  }

  function Release(s: State, t: Tid, index: nat, a: Addr, done: nat): Outcome {
    if a !in s.memory.message then Crash
    else
      var order := FreeOrder(s.memory.message[a].uCase, s.memory.message[a].dest);
      if done < |order| then
        match FreeAt(Config(s.memory, None, Some(a)), a, order[done])
        case Fault => Crash
        case Config(m, _, _) => Ok(s.(memory := m, threads := s.threads[t := Releasing(index, a, done + 1)]))
      else FreeNode(s, a, index, s.threads - {t})
  }

  /** The number of the indication that has left the queue last. */
  function LastRetired(bound: Bound, ops: seq<Op>): nat {
    var n := |Fifo.Run(bound, ops).retired|;
    if n == 0 then 0 else n - 1
  }

  /** The next step of a callback. */
  function StepCallback(bound: Bound, s: State, t: Tid): Outcome
    requires t in s.threads
  {
    match s.threads[t]
    case Allocating(e, done) => Allocate(s, t, e, done)
    case Linked(e) => LockForAdd(s, t, e)
    case AddLocked(e) => Ok(s.(threads := s.threads[t := Adding(e, None, AddProgram(bound, s.memory))]))
    case Adding(e, saved, todo) => StepAdd(s, t, e, saved, todo, LastRetired(bound, s.ops))
    case Added(e) => FinishAdd(s, t, e)
    case _ => Ok(s)
  }

  /** The next step of a poll up to the release of the lock. */
  function StepFetch(bound: Bound, s: State, t: Tid): Outcome
    requires t in s.threads
  {
    match s.threads[t]
    case PollStart => LockForGet(s, t)
    case GetLocked(ticket) => Ok(s.(threads := s.threads[t := Getting(ticket, None, GetProgram(s.memory))]))
    case Getting(ticket, saved, todo) => StepGet(s, t, ticket, saved, todo, LastRetired(bound, s.ops))
    case _ => Ok(s)
  }

  /** The next step of a poll that has released the lock. */
  function StepReply(s: State, t: Tid): Outcome
    requires t in s.threads
  {
    match s.threads[t]
    case Taken(ticket, index, a) => MarkPresent(s, t, ticket, index, a)
    case Marked(ticket, index, a) => WriteMessage(s, t, ticket, index, a)
    case Releasing(index, a, done) => Release(s, t, index, a, done)
    case NothingTaken(ticket) => Ok(s.(spare := s.spare + {t}, threads := s.threads[t := EmptyReply(ticket)]))
    case EmptyReply(ticket) => Ok(s.(wire := s.wire[ticket := Absent], threads := s.threads[t := EmptyWritten]))
    case EmptyWritten => if t in s.spare then Ok(s.(spare := s.spare - {t}, threads := s.threads - {t})) else Crash
    case _ => Ok(s)
  }

  /** The next step of a heartbeat: it reads the reboot state, and later writes what it has read. */
  function StepBeat(s: State, t: Tid): Outcome
    requires t in s.threads
  {
    match s.threads[t]
    case BeatStart => Ok(s.(readings := s.readings + [s.isReboot], threads := s.threads[t := BeatRead(|s.readings|, s.isReboot)]))
    case BeatRead(number, status) => Ok(s.(beats := s.beats + [Beat(number, status)], threads := s.threads - {t}))
    case _ => Ok(s)
  }

  /** The next step of thread `t`. */
  function StepThread(bound: Bound, s: State, t: Tid): Outcome {
    if t !in s.threads then Ok(s)
    else
      var p := s.threads[t];
      if p.Allocating? || p.Linked? || p.AddLocked? || p.Adding? || p.Added? then StepCallback(bound, s, t)
      else if p.PollStart? || p.GetLocked? || p.Getting? then StepFetch(bound, s, t)
      else if p.BeatStart? || p.BeatRead? then StepBeat(s, t)
      else StepReply(s, t)
  }

  /** A new thread starts at `p`; nothing happens if there is such a thread already. */
  function Start(s: State, t: Tid, p: Phase): Outcome {
    if t in s.threads then Ok(s) else Ok(s.(threads := s.threads[t := p]))
  }

  function Step(bound: Bound, s: State, event: Event): Outcome {
    match event
    case Callback(t, u, obj, a) => BeginCallback(s, t, u, obj, a)
    case StartPoll(t) => Start(s, t, PollStart)
    case Proceed(t) => StepThread(bound, s, t)
    case StartHeartbeat(t) => Start(s, t, BeatStart)
  }

  /** The outcome of a run. */
  function RunEvents(bound: Bound, events: seq<Event>): Outcome {
    if events == [] then Ok(INITIAL)
    else
      match RunEvents(bound, events[..|events| - 1])
      case Ok(s) => Step(bound, s, events[|events| - 1])
      case Crash => Crash
  }
}

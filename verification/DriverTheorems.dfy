/** What every run of the driver guarantees. */
module DriverTheorems {
  import opened Common
  import opened Indications
  import opened Callbacks
  import opened CriticalSection
  import opened SerialNumbers
  import opened Driver
  import opened DriverInvariant
  import opened DriverFrame
  import opened DriverSteps
  import opened DriverSectionSteps
  import Fifo

  lemma StepAddKeeps(bound: Bound, s: State, t: Tid, e: Entry, saved: Option<Addr>, todo: Program)
    requires Inv(bound, s) && t in s.threads && s.threads[t] == Adding(e, saved, todo)
    ensures var o := StepAdd(s, t, e, saved, todo, LastRetired(bound, s.ops)); o.Ok? && Inv(bound, o.state)
  {
    hide Inv;
    if todo.Do? {
      WriteAddKeeps(bound, s, t, e, saved, todo.instr, todo.rest);
    } else if saved.Some? {
      EvictedKeeps(bound, s, t, e, saved.value);
    } else {
      UnlockAddKeeps(bound, s, t, e);
    }
  }

  lemma StepGetKeeps(bound: Bound, s: State, t: Tid, ticket: nat, saved: Option<Addr>, todo: Program)
    requires Inv(bound, s) && t in s.threads && s.threads[t] == Getting(ticket, saved, todo)
    ensures var o := StepGet(s, t, ticket, saved, todo, LastRetired(bound, s.ops)); o.Ok? && Inv(bound, o.state)
  {
    hide Inv;
    if todo.Do? {
      WriteGetKeeps(bound, s, t, ticket, saved, todo.instr, todo.rest);
    } else {
      UnlockGetKeeps(bound, s, t, ticket, saved);
    }
  }

  lemma StepCallbackKeeps(bound: Bound, s: State, t: Tid)
    requires Inv(bound, s) && t in s.threads
    ensures var o := StepCallback(bound, s, t); o.Ok? && Inv(bound, o.state)
  {
    hide Inv;
    match s.threads[t] {
      case Allocating(e, done) => AllocateKeeps(bound, s, t, e, done);
      case Linked(e) => LockForAddKeeps(bound, s, t, e);
      case AddLocked(e) => DecideAddKeeps(bound, s, t, e);
      case Adding(e, saved, todo) => StepAddKeeps(bound, s, t, e, saved, todo);
      case Added(e) => FinishAddKeeps(bound, s, t, e);
      case _ =>
    }
  }

  lemma StepFetchKeeps(bound: Bound, s: State, t: Tid)
    requires Inv(bound, s) && t in s.threads
    ensures var o := StepFetch(bound, s, t); o.Ok? && Inv(bound, o.state)
  {
    hide Inv;
    match s.threads[t] {
      case PollStart => LockForGetKeeps(bound, s, t);
      case GetLocked(ticket) => DecideGetKeeps(bound, s, t, ticket);
      case Getting(ticket, saved, todo) => StepGetKeeps(bound, s, t, ticket, saved, todo);
      case _ =>
    }
  }

  lemma StepReplyKeeps(bound: Bound, s: State, t: Tid)
    requires Inv(bound, s) && t in s.threads
    ensures var o := StepReply(s, t); o.Ok? && Inv(bound, o.state)
  {
    hide Inv;
    match s.threads[t] {
      case Taken(ticket, i, a) => MarkPresentKeeps(bound, s, t, ticket, i, a);
      case Marked(ticket, i, a) => WriteMessageKeeps(bound, s, t, ticket, i, a);
      case Releasing(i, a, done) => ReleaseKeeps(bound, s, t, i, a, done);
      case NothingTaken(ticket) => NothingTakenKeeps(bound, s, t, ticket);
      case EmptyReply(ticket) => EmptyReplyKeeps(bound, s, t, ticket);
      case EmptyWritten => EmptyWrittenKeeps(bound, s, t);
      case _ =>
    }
  }

  lemma StepBeatKeeps(bound: Bound, s: State, t: Tid)
    requires Inv(bound, s) && t in s.threads
    ensures var o := StepBeat(s, t); o.Ok? && Inv(bound, o.state)
  {
    hide Inv;
    match s.threads[t] {
      case BeatStart => BeatKeeps(bound, s, t);
      case BeatRead(_, _) => BeatKeeps(bound, s, t);
      case _ =>
    }
  }

  lemma StepKeepsInv(bound: Bound, s: State, event: Event)
    requires Inv(bound, s)
    ensures var o := Step(bound, s, event); o.Ok? && Inv(bound, o.state)
  {
    hide Inv, StepCallback, StepFetch, StepReply, StepBeat, BeginCallback;
    match event {
      case Callback(t, u, obj, a) => BeginCallbackKeeps(bound, s, t, u, obj, a);
      case StartPoll(t) => StartKeeps(bound, s, t, PollStart);
      case StartHeartbeat(t) => StartKeeps(bound, s, t, BeatStart);
      case Proceed(t) =>
        if t in s.threads {
          StepCallbackKeeps(bound, s, t);
          StepFetchKeeps(bound, s, t);
          StepReplyKeeps(bound, s, t);
          StepBeatKeeps(bound, s, t);
        }
    }
  }

  /** No run ever dereferences a null or freed pointer, or frees a block that is not allocated. */
  lemma {:induction false} NoRunCrashes(bound: Bound, events: seq<Event>)
    ensures var o := RunEvents(bound, events); o.Ok? && Inv(bound, o.state)
  {
    if events == [] {
      InitialInv(bound);
    } else {
      hide Inv, Step;
      NoRunCrashes(bound, events[..|events| - 1]);
      StepKeepsInv(bound, RunEvents(bound, events[..|events| - 1]).state, events[|events| - 1]);
    }
  }

  /** The state that a run leads to. */
  ghost function After(bound: Bound, events: seq<Event>): (s: State)
    ensures RunEvents(bound, events) == Ok(s)
  {
    NoRunCrashes(bound, events);
    RunEvents(bound, events).state
  }

  lemma AfterInv(bound: Bound, events: seq<Event>)
    ensures Inv(bound, After(bound, events))
  {
    hide Inv;
    NoRunCrashes(bound, events);
  }

  lemma RunSnoc(bound: Bound, events: seq<Event>, event: Event)
    ensures Step(bound, After(bound, events), event) == Ok(After(bound, events + [event]))
  {
    assert (events + [event])[..|events|] == events;
  }

  /** Thread `t` running alone for `n` steps. */
  function Turns(t: Tid, n: nat): seq<Event> {
    seq(n, _ => Proceed(t))
  }

  /** The history of the queue operations of a run, in the order in which they took the lock. */
  ghost function HistoryOf(bound: Bound, events: seq<Event>): History {
    Ran(bound, After(bound, events).ops)
  }

  /**
   Linearizability: in every interleaving, whenever the lock is free, the pointers form a ring of
   exactly the nodes that are pending after the same operations run one by one in lock order, each
   node carries its callback's message, and the counters are those of that sequential run.
   */
  lemma Linearizable(bound: Bound, events: seq<Event>)
    ensures var s, h := After(bound, events), HistoryOf(bound, events);
            s.lock == None ==>
              && RingIn(Nodes(h.pending), s.memory)
              && (forall i :: 0 <= i < |h.pending| ==> EntryIn(s.memory, h.pending[i]))
              && s.memory.drops == Drops(h)
              && s.memory.count == |Fifo.Accepted(s.ops)| - |Fifo.Deliveries(h.retired)| - s.memory.drops
              && s.memory.count <= bound
  {
    var s, h := After(bound, events), HistoryOf(bound, events);
    hide Inv, QueueOK;
    if s.lock == None {
      AfterInv(bound, events);
      InvQueue(bound, s);
      QueueInMemory(bound, s);
      Fifo.PendingCount(bound, s.ops);
      Fifo.Conservation(bound, s.ops);
    }
  }

  lemma QueueInMemory(bound: Bound, s: State)
    requires QueueOK(bound, s) && s.lock == None
    ensures var h := Ran(bound, s.ops);
            && RingIn(Nodes(h.pending), s.memory)
            && (forall i :: 0 <= i < |h.pending| ==> EntryIn(s.memory, h.pending[i]))
            && s.memory.drops == Drops(h)
  {
    hide QueueOK, SectionOK, Fifo.Run, MessageOf, AllPieces, Drops;
    FreeSection(bound, s);
    var h, v := Ran(bound, s.ops), View(s.memory, RingAddrs(s.owner));
    forall i | 0 <= i < |h.pending|
      ensures EntryIn(s.memory, h.pending[i])
    {
      assert EntryIn(v, h.pending[i]) && Nodes(h.pending)[i] in RingAddrs(s.owner);
    }
  }

  /** Every poll writes back what its place in the lock order calls for, and each poll is answered or under way. */
  lemma RepliesAreRight(bound: Bound, events: seq<Event>, k: nat)
    ensures var s, h := After(bound, events), HistoryOf(bound, events);
            && |h.replies| == |s.pollers|
            && (k in s.wire ==> k < |h.replies| && s.wire[k] == ReplyFor(h.replies[k]))
            && (k < |s.pollers| && k !in s.wire ==> s.pollers[k] in s.threads && Unanswered(s.threads[s.pollers[k]]) == Some(k))
  {
    var s := After(bound, events);
    AfterInv(bound, events);
    assert WireOK(bound, s, k);
    Fifo.Conservation(bound, s.ops);
  }

  lemma VendorTextEmpty(s: Serial)
    ensures VendorText(s) == "" <==> s.vendorId[0] == 0
    ensures |SpecificText(s)| == 8
  {
    CutFour(ByteChar(s.vendorId[0]), ByteChar(s.vendorId[1]), ByteChar(s.vendorId[2]), ByteChar(s.vendorId[3]));
  }

  /**
   Every message that a poll delivers has the kind and the destination of the accepted callback that
   made it, and it has texts exactly if it is a discovery (the vendor text may be empty in C's sense).
   */
  lemma MessagesAreRight(bound: Bound, events: seq<Event>, k: nat)
    requires k in After(bound, events).wire && After(bound, events).wire[k].Present?
    ensures var s, h := After(bound, events), HistoryOf(bound, events);
            var msg := s.wire[k].message;
            && k < |h.replies| && h.replies[k].Some?
            && var e := h.replies[k].value;
               && e in Fifo.Accepted(s.ops)
               && msg.uCase == e.uCase && msg.dest == e.obj.dest
               && (msg.vendorSpecific != "" <==> e.uCase == TerminalDisc)
               && (msg.vendorId != "" <==> e.uCase == TerminalDisc && e.obj.serial.vendorId[0] != 0)
  {
    var s, h := After(bound, events), HistoryOf(bound, events);
    RepliesAreRight(bound, events, k);
    var e := h.replies[k].value;
    ReplyAccepted(bound, s.ops, k);
    VendorTextEmpty(e.obj.serial);
    hide VendorText, SpecificText;
  }

  /**
   End to end: each discovery message that any poll delivers was enqueued by an accepted callback for
   an ONU.  If that ONU's vendor bytes survive printing, activation reads exactly its serial number
   from the delivered texts, and does not skip it as all-zero.
   */
  lemma DiscoveryEndToEnd(bound: Bound, events: seq<Event>, k: nat)
    requires k in After(bound, events).wire
    requires var r := After(bound, events).wire[k]; r.Present? && r.message.uCase == TerminalDisc
    ensures var s, h := After(bound, events), HistoryOf(bound, events);
            var msg := s.wire[k].message;
            && k < |h.replies| && h.replies[k].Some?
            && var e := h.replies[k].value;
               && e in Fifo.Accepted(s.ops) && e.uCase == TerminalDisc
               && (Faithful(e.obj.serial.vendorId) <==>
                     Readable(msg.vendorId, msg.vendorSpecific) && ParseSerial(msg.vendorId, msg.vendorSpecific) == e.obj.serial)
               && (Faithful(e.obj.serial.vendorId) ==> ParseSerial(msg.vendorId, msg.vendorSpecific) != ZERO_SERIAL)
  {
    var s, h := After(bound, events), HistoryOf(bound, events);
    RepliesAreRight(bound, events, k);
    var e := h.replies[k].value;
    ReplyAccepted(bound, s.ops, k);
    RoundTripIff(e.obj.serial);
  }

  /** What a poll returns is one of the accepted entries. */
  lemma {:induction false} ReplyAccepted(bound: Bound, ops: seq<Op>, k: nat)
    requires k < |Ran(bound, ops).replies| && Ran(bound, ops).replies[k].Some?
    ensures Ran(bound, ops).replies[k].value in Fifo.Accepted(ops)
  {
    var before := ops[..|ops| - 1];
    if k < |Ran(bound, before).replies| {
      ReplyAccepted(bound, before, k);
    } else {
      var h := Ran(bound, before);
      Fifo.Conservation(bound, before);
      assert (Fifo.Items(h.retired) + h.pending)[|h.retired|] == h.pending[0];
      assert h.pending[0] in Fifo.Accepted(before);
    }
  }
}

/** A run in which a heartbeat reports the earlier reboot state after another one has reported the later one. */
module DriverOverlap {
  import opened Common
  import opened Callbacks
  import opened Indications
  import opened CriticalSection
  import opened SerialNumbers
  import opened Driver
  import opened DriverInvariant
  import opened DriverTheorems
  import Fifo

  /** Thread `t` running alone for `n` steps. */
  function Alone(bound: Bound, s: State, t: Tid, n: nat): Outcome
    decreases n
  {
    if n == 0 then Ok(s)
    else
      match StepThread(bound, s, t)
      case Ok(s') => Alone(bound, s', t, n - 1)
      case Crash => Crash
  }

  lemma {:induction false} AloneAfter(bound: Bound, events: seq<Event>, t: Tid, n: nat)
    ensures Alone(bound, After(bound, events), t, n) == Ok(After(bound, events + Turns(t, n)))
    decreases n
  {
    if n == 0 {
      assert events + Turns(t, n) == events;
    } else {
      RunSnoc(bound, events, Proceed(t));
      AloneAfter(bound, events + [Proceed(t)], t, n - 1);
      assert events + [Proceed(t)] + Turns(t, n - 1) == events + Turns(t, n);
    }
  }

  const OLT := BalObject(AccessTerminal, OperStatusChange, OtherDest, ZERO_SERIAL)

  const ENTRY := Entry(AccessTermIndOpState, OLT, 0)

  /** One heartbeat has read the reboot state; the callback for the access terminal begins. */
  const BEGIN: seq<Event> := [StartHeartbeat(1), Proceed(1), Callback(0, AccessTermIndOpState, OLT, 0)]

  /** The state after a run, but for the memory. */
  function Stage(m: Memory, p: Phase): State {
    INITIAL.(memory := m, threads := map[1 := BeatRead(0, NotReported), 0 := p],
             owner := map[0 := Thread(0)], readings := [NotReported])
  }

  function StartMemory(pieces: set<Piece>): Memory {
    INITIAL.memory.(message := map[0 := MessageOf(ENTRY)], live := map[0 := pieces])
  }

  lemma BeatStarts(bound: Bound, events: seq<Event>, t: Tid)
    requires t !in After(bound, events).threads
    ensures var s := After(bound, events); After(bound, events + [StartHeartbeat(t)]) == s.(threads := s.threads[t := BeatStart])
  {
    RunSnoc(bound, events, StartHeartbeat(t));
  }

  lemma BeatReads(bound: Bound, events: seq<Event>, t: Tid)
    requires t in After(bound, events).threads && After(bound, events).threads[t] == BeatStart
    ensures var s := After(bound, events);
            After(bound, events + [Proceed(t)])
            == s.(readings := s.readings + [s.isReboot], threads := s.threads[t := BeatRead(|s.readings|, s.isReboot)])
  {
    RunSnoc(bound, events, Proceed(t));
  }

  lemma BeatReplies(bound: Bound, events: seq<Event>, t: Tid, number: nat, status: RebootStatus)
    requires t in After(bound, events).threads && After(bound, events).threads[t] == BeatRead(number, status)
    ensures var s := After(bound, events);
            After(bound, events + [Proceed(t)]) == s.(beats := s.beats + [Beat(number, status)], threads := s.threads - {t})
  {
    RunSnoc(bound, events, Proceed(t));
  }

  lemma CallbackBegins(bound: Bound, events: seq<Event>)
    requires After(bound, events) == INITIAL.(threads := map[1 := BeatRead(0, NotReported)], readings := [NotReported])
    ensures After(bound, events + [Callback(0, AccessTermIndOpState, OLT, 0)]) == Stage(StartMemory({Block(Root)}), Allocating(ENTRY, 1))
  {
    RunSnoc(bound, events, Callback(0, AccessTermIndOpState, OLT, 0));
    var p := Allocating(ENTRY, 1);
    assert map[1 := BeatRead(0, NotReported)][0 := p] == map[1 := BeatRead(0, NotReported), 0 := p];
  }

  lemma InitialAfter(bound: Bound)
    ensures After(bound, []) == INITIAL
  {
  }

  lemma Began(bound: Bound)
    ensures After(bound, BEGIN) == Stage(StartMemory({Block(Root)}), Allocating(ENTRY, 1))
  {
    hide After, Stage, StartMemory;
    var e1, e2 := [StartHeartbeat(1)], [StartHeartbeat(1), Proceed(1)];
    InitialAfter(bound);
    BeatStarts(bound, [], 1);
    assert [] + [StartHeartbeat(1)] == e1;
    BeatReads(bound, e1, 1);
    assert e1 + [Proceed(1)] == e2;
    assert map[][1 := BeatStart][1 := BeatRead(0, NotReported)] == map[1 := BeatRead(0, NotReported)];
    CallbackBegins(bound, e2);
    assert e2 + [Callback(0, AccessTermIndOpState, OLT, 0)] == BEGIN;
  }

  lemma AloneStep(bound: Bound, s: State, t: Tid, n: nat)
    requires n > 0 && StepThread(bound, s, t).Ok?
    ensures Alone(bound, s, t, n) == Alone(bound, StepThread(bound, s, t).state, t, n - 1)
  {
  }

  lemma AllocateNext(bound: Bound, pieces: set<Piece>, done: nat)
    requires done < 4 && PathLive(OrderOf(ENTRY)[done], Parts(pieces))
    ensures StepThread(bound, Stage(StartMemory(pieces), Allocating(ENTRY, done)), 0)
            == Ok(Stage(StartMemory(pieces + {Block(OrderOf(ENTRY)[done])}), Allocating(ENTRY, done + 1)))
  {
    var s := Stage(StartMemory(pieces), Allocating(ENTRY, done));
    var s' := Stage(StartMemory(pieces + {Block(OrderOf(ENTRY)[done])}), Allocating(ENTRY, done + 1));
    assert s.threads[0 := Allocating(ENTRY, done + 1)] == s'.threads;
    assert s.memory.live[0 := pieces + {Block(OrderOf(ENTRY)[done])}] == s'.memory.live;
  }

  lemma AllocateLast(bound: Bound, pieces: set<Piece>)
    ensures StepThread(bound, Stage(StartMemory(pieces), Allocating(ENTRY, 4)), 0) == Ok(Stage(StartMemory(pieces + {Node}), Linked(ENTRY)))
  {
    var s, s' := Stage(StartMemory(pieces), Allocating(ENTRY, 4)), Stage(StartMemory(pieces + {Node}), Linked(ENTRY));
    assert s.threads[0 := Linked(ENTRY)] == s'.threads;
    assert s.memory.live[0 := pieces + {Node}] == s'.memory.live;
  }

  const PIECES := {Block(Root)} + {Block(Payload)} + {Block(Key)} + {Block(Data)} + {Node}

  lemma TwoAllocated(bound: Bound, n: nat)
    ensures Alone(bound, Stage(StartMemory({Block(Root)}), Allocating(ENTRY, 1)), 0, n + 2)
            == Alone(bound, Stage(StartMemory({Block(Root)} + {Block(Payload)} + {Block(Key)}), Allocating(ENTRY, 3)), 0, n)
  {
    var p1: set<Piece> := {Block(Root)};
    var p2 := p1 + {Block(Payload)};
    assert Block(Root) in p1 && Block(Root) in p2 && Block(Payload) in p2;
    AllocateNext(bound, p1, 1);
    AllocateNext(bound, p2, 2);
    AloneStep(bound, Stage(StartMemory(p1), Allocating(ENTRY, 1)), 0, n + 2);
    AloneStep(bound, Stage(StartMemory(p2), Allocating(ENTRY, 2)), 0, n + 1);
  }

  lemma OthersAllocated(bound: Bound, n: nat)
    ensures Alone(bound, Stage(StartMemory({Block(Root)} + {Block(Payload)} + {Block(Key)}), Allocating(ENTRY, 3)), 0, n + 2)
            == Alone(bound, Stage(StartMemory(PIECES), Linked(ENTRY)), 0, n)
  {
    var p3: set<Piece> := {Block(Root)} + {Block(Payload)} + {Block(Key)};
    var p4 := p3 + {Block(Data)};
    assert Block(Root) in p3 && Block(Payload) in p3;
    AllocateNext(bound, p3, 3);
    AllocateLast(bound, p4);
    AloneStep(bound, Stage(StartMemory(p3), Allocating(ENTRY, 3)), 0, n + 2);
    AloneStep(bound, Stage(StartMemory(p4), Allocating(ENTRY, 4)), 0, n + 1);
  }

  /** The same in the critical section, and when it is over. */
  function Locked(m: Memory, p: Phase): State {
    Stage(m, p).(lock := Some(0), owner := map[0 := Owner.Ring], ops := [Fifo.Add(ENTRY)])
  }

  lemma Write(bound: Bound, m: Memory, instr: Instr, rest: Program, m': Memory)
    requires Exec(instr, Config(m, Some(0), None)) == Config(m', Some(0), None)
    ensures StepThread(bound, Locked(m, Adding(ENTRY, None, Do(instr, rest))), 0) == Ok(Locked(m', Adding(ENTRY, None, rest)))
  {
    var s, s' := Locked(m, Adding(ENTRY, None, Do(instr, rest))), Locked(m', Adding(ENTRY, None, rest));
    assert s.threads[0 := Adding(ENTRY, None, rest)] == s'.threads;
  }

  lemma Lock(bound: Bound, m: Memory)
    ensures StepThread(bound, Stage(m, Linked(ENTRY)), 0) == Ok(Locked(m, AddLocked(ENTRY)))
  {
    var s, s' := Stage(m, Linked(ENTRY)), Locked(m, AddLocked(ENTRY));
    assert s.threads[0 := AddLocked(ENTRY)] == s'.threads;
    assert s.owner[0 := Owner.Ring] == s'.owner;
  }

  lemma Decide(bound: Bound, m: Memory)
    ensures StepThread(bound, Locked(m, AddLocked(ENTRY)), 0) == Ok(Locked(m, Adding(ENTRY, None, AddProgram(bound, m))))
  {
    var s, s' := Locked(m, AddLocked(ENTRY)), Locked(m, Adding(ENTRY, None, AddProgram(bound, m)));
    assert s.threads[0 := Adding(ENTRY, None, AddProgram(bound, m))] == s'.threads;
  }

  lemma Unlock(bound: Bound, m: Memory)
    ensures StepThread(bound, Locked(m, Adding(ENTRY, None, Done)), 0) == Ok(Locked(m, Added(ENTRY)).(lock := None))
  {
    var s, s' := Locked(m, Adding(ENTRY, None, Done)), Locked(m, Added(ENTRY)).(lock := None);
    assert s.threads[0 := Added(ENTRY)] == s'.threads;
  }

  lemma Finish(bound: Bound, m: Memory)
    ensures StepThread(bound, Locked(m, Added(ENTRY)).(lock := None), 0) == Ok(Finished(m))
  {
    assert Locked(m, Added(ENTRY)).threads - {0} == Finished(m).threads;
  }

  /** The callback has ended; the heartbeat has still not replied. */
  function Finished(m: Memory): State {
    Locked(m, Added(ENTRY)).(lock := None, threads := map[1 := BeatRead(0, NotReported)], isReboot := UpAfterActivation)
  }

  const M0 := StartMemory(PIECES)
  const M2 := M0.(head := Some(0), tail := Some(0))
  const M4 := M2.(next := map[0 := Some(0)])
  const M5 := M4.(count := 1)

  const LAST_WRITE := Do(IncCount, Done)
  const LAST_WRITES := Do(HeadNextIsArg, Do(TailNextIsArg, LAST_WRITE))
  const WRITES := Do(HeadIsArg, Do(TailIsArg, LAST_WRITES))

  /** Two writes. */
  lemma TwoWrites(bound: Bound, m: Memory, i: Instr, j: Instr, rest: Program, m': Memory, n: nat)
    requires var c := Exec(i, Config(m, Some(0), None)); c.Config? && c.saved == None && Exec(j, c) == Config(m', Some(0), None)
    requires Exec(i, Config(m, Some(0), None)).arg == Some(0)
    ensures Alone(bound, Locked(m, Adding(ENTRY, None, Do(i, Do(j, rest)))), 0, n + 2)
            == Alone(bound, Locked(m', Adding(ENTRY, None, rest)), 0, n)
  {
    var m1 := Exec(i, Config(m, Some(0), None)).mem;
    Write(bound, m, i, Do(j, rest), m1);
    Write(bound, m1, j, rest, m');
    AloneStep(bound, Locked(m, Adding(ENTRY, None, Do(i, Do(j, rest)))), 0, n + 2);
    AloneStep(bound, Locked(m1, Adding(ENTRY, None, Do(j, rest))), 0, n + 1);
  }

  lemma Written(bound: Bound, n: nat)
    ensures Alone(bound, Locked(M0, Adding(ENTRY, None, WRITES)), 0, n + 5) == Alone(bound, Locked(M5, Adding(ENTRY, None, Done)), 0, n)
  {
    TwoWrites(bound, M0, HeadIsArg, TailIsArg, LAST_WRITES, M2, n + 3);
    LinksSelf();
    TwoWrites(bound, M2, HeadNextIsArg, TailNextIsArg, LAST_WRITE, M4, n + 1);
    LastWritten(bound, n);
  }

  lemma LastWritten(bound: Bound, n: nat)
    ensures Alone(bound, Locked(M4, Adding(ENTRY, None, LAST_WRITE)), 0, n + 1) == Alone(bound, Locked(M5, Adding(ENTRY, None, Done)), 0, n)
  {
    Write(bound, M4, IncCount, Done, M5);
    AloneStep(bound, Locked(M4, Adding(ENTRY, None, LAST_WRITE)), 0, n + 1);
  }

  lemma LinksSelf()
    ensures var c := Exec(HeadNextIsArg, Config(M2, Some(0), None));
            c.Config? && c.arg == Some(0) && c.saved == None && Exec(TailNextIsArg, c) == Config(M4, Some(0), None)
  {
    assert Node in Live(M2, 0);
    assert map[][0 := Some(0)][0 := Some(0)] == map[0 := Some(0)];
  }

  lemma BothLocks(bound: Bound, n: nat)
    ensures Alone(bound, Stage(M0, Linked(ENTRY)), 0, n + 2) == Alone(bound, Locked(M0, Adding(ENTRY, None, WRITES)), 0, n)
  {
    Lock(bound, M0);
    Decide(bound, M0);
    assert AddProgram(bound, M0) == WRITES;
    AloneStep(bound, Stage(M0, Linked(ENTRY)), 0, n + 2);
    AloneStep(bound, Locked(M0, AddLocked(ENTRY)), 0, n + 1);
  }

  lemma Ended(bound: Bound, n: nat)
    ensures Alone(bound, Locked(M5, Adding(ENTRY, None, Done)), 0, n + 2) == Alone(bound, Finished(M5), 0, n)
  {
    Unlock(bound, M5);
    Finish(bound, M5);
    AloneStep(bound, Locked(M5, Adding(ENTRY, None, Done)), 0, n + 2);
    AloneStep(bound, Locked(M5, Added(ENTRY)).(lock := None), 0, n + 1);
  }

  /** The whole callback: four allocations, the lock, six steps of the add routine, unlock, and the reboot state. */
  lemma CallbackAlone(bound: Bound, n: nat)
    ensures Alone(bound, Stage(StartMemory({Block(Root)}), Allocating(ENTRY, 1)), 0, n + 13) == Alone(bound, Finished(M5), 0, n)
  {
    TwoAllocated(bound, n + 11);
    OthersAllocated(bound, n + 9);
    BothLocks(bound, n + 7);
    Written(bound, n + 2);
    Ended(bound, n);
  }

  lemma CallbackPast(bound: Bound, n: nat)
    ensures Alone(bound, Finished(M5), 0, n) == Ok(After(bound, BEGIN + Turns(0, n + 13)))
  {
    Began(bound);
    CallbackAlone(bound, n);
    AloneAfter(bound, BEGIN, 0, n + 13);
  }

  /** A second heartbeat reads and replies, and then the first one replies. */
  const OVERLAP: seq<Event> := [StartHeartbeat(2), Proceed(2), Proceed(2), Proceed(1)]

  /**
   Heartbeats can go back: the second one, which has started later, reports the later state first;
   then the first one still reports the earlier state.
   */
  lemma OverlappingHeartbeatsGoBack(bound: Bound)
    ensures After(bound, BEGIN + Turns(0, 13) + OVERLAP).beats == [Beat(1, UpAfterActivation), Beat(0, NotReported)]
  {
    CallbackPast(bound, 0);
    BothReply(bound, BEGIN + Turns(0, 13), M5);
  }

  lemma LastReplies(bound: Bound, events: seq<Event>)
    requires After(bound, events).threads == map[1 := BeatRead(0, NotReported), 2 := BeatRead(1, UpAfterActivation)]
    requires After(bound, events).beats == []
    ensures After(bound, events + [Proceed(2)] + [Proceed(1)]).beats == [Beat(1, UpAfterActivation), Beat(0, NotReported)]
  {
    hide After;
    BeatReplies(bound, events, 2, 1, UpAfterActivation);
    BeatReplies(bound, events + [Proceed(2)], 1, 0, NotReported);
  }

  lemma BothReply(bound: Bound, events: seq<Event>, m: Memory)
    requires After(bound, events) == Finished(m)
    ensures After(bound, events + OVERLAP).beats == [Beat(1, UpAfterActivation), Beat(0, NotReported)]
  {
    hide After;
    var e1 := events + [StartHeartbeat(2)];
    var e2 := e1 + [Proceed(2)];
    assert events + OVERLAP == e2 + [Proceed(2)] + [Proceed(1)];
    BeatStarts(bound, events, 2);
    BeatReads(bound, e1, 2);
    assert After(bound, e2).threads == map[1 := BeatRead(0, NotReported), 2 := BeatRead(1, UpAfterActivation)];
    LastReplies(bound, e2);
  }
}

/** Callbacks, polls and heartbeats come to their end, with the effect they are there for. */
module DriverCompletion {
  import opened Common
  import opened Callbacks
  import opened CriticalSection
  import opened Indications
  import opened Driver
  import opened DriverInvariant
  import opened DriverFrame
  import opened DriverSteps
  import opened DriverSectionSteps
  import opened DriverTheorems
  import opened DriverProgress
  import opened DriverHeartbeats
  import Fifo

  /** A thread that waits for the lock: its own next step does nothing. */
  predicate Waits(s: State, t: Tid) {
    t in s.threads && (s.threads[t].Linked? || s.threads[t].PollStart?) && s.lock.Some?
  }

  /** How many steps a thread in phase `p` has left, at most, besides those in which it waits for the lock. */
  function StepsToEnd(p: Phase): nat {
    match p
    case Allocating(e, done) => (if done < |OrderOf(e)| then |OrderOf(e)| - done else 0) + 2 + HOLD_LIMIT + 1
    case Linked(_) => 1 + HOLD_LIMIT + 1
    case AddLocked(_) => HOLD_LIMIT + 1
    case Adding(_, _, _) => StepsLeft(p) + 1
    case Added(_) => 1
    case PollStart => 1 + 6 + 10
    case GetLocked(_) => 6 + 10
    case Getting(_, _, _) => StepsLeft(p) + 10
    case Taken(_, _, _) => 10
    case Marked(_, _, _) => 9
    case Releasing(_, _, done) => if done <= 7 then 8 - done else 1
    case NothingTaken(_) => 3
    case EmptyReply(_) => 2
    case EmptyWritten => 1
    case BeatStart => 2
    case BeatRead(_, _) => 1
  }

  /** How many steps a callback and a poll take at most, from their first step on. */
  const CALLBACK_STEPS := 25
  const POLL_STEPS := 17

  /** The steps of thread `t` in `more`, as a continuation of the run `events`, in which it does not wait for the lock. */
  ghost function FreeSteps(bound: Bound, events: seq<Event>, t: Tid, more: seq<Event>): nat
    decreases |more|
  {
    if more == [] then 0
    else
      (if more[0] == Proceed(t) && !Waits(After(bound, events), t) then 1 else 0)
      + FreeSteps(bound, events + [more[0]], t, more[1..])
  }

  /** The queue operations that thread `t` starts in `more`, as a continuation of the run `events`. */
  ghost function OwnOps(bound: Bound, events: seq<Event>, t: Tid, more: seq<Event>): seq<Op>
    decreases |more|
  {
    if more == [] then []
    else
      (if more[0] == Proceed(t) then NewOps(After(bound, events), After(bound, events + [more[0]])) else [])
      + OwnOps(bound, events + [more[0]], t, more[1..])
  }

  function NewOps(s: State, s': State): seq<Op> {
    if |s.ops| <= |s'.ops| then s'.ops[|s.ops|..] else []
  }

  /* What other threads do to a thread: nothing. */

  lemma StartIgnored(bound: Bound, s: State, event: Event)
    requires !event.Proceed? && event.t in s.threads
    ensures Step(bound, s, event) == Ok(s)
  {
  }

  lemma PhaseKept(s: State, s': State, u: Tid, t: Tid)
    requires s'.threads - {u} == s.threads - {u} && t != u && t in s.threads
    ensures t in s'.threads && s'.threads[t] == s.threads[t]
  {
    assert t in s.threads - {u} && (s.threads - {u})[t] == (s'.threads - {u})[t];
  }

  lemma OtherEvent(bound: Bound, s: State, t: Tid, event: Event, s': State)
    requires t in s.threads && event != Proceed(t) && Step(bound, s, event) == Ok(s')
    ensures t in s'.threads && s'.threads[t] == s.threads[t]
  {
    if !event.Proceed? {
      StartReboot(bound, s, event, s');
      if event.t == t {
        StartIgnored(bound, s, event);
      } else if s' != s {
        hide Step;
        PhaseKept(s, s', event.t, t);
      }
    } else if event.t in s.threads {
      OtherProceeds(bound, s, event.t, s');
      hide Step;
      PhaseKept(s, s', event.t, t);
    }
  }

  lemma OtherProceeds(bound: Bound, s: State, u: Tid, s': State)
    requires u in s.threads && StepThread(bound, s, u) == Ok(s')
    ensures s'.threads - {u} == s.threads - {u}
  {
    if !s.threads[u].BeatStart? && !s.threads[u].BeatRead? {
      ProceedReboot(bound, s, u, s');
    } else {
      hide StepCallback, StepFetch, StepReply;
    }
  }

  /* The history of the queue only grows. */

  lemma OwnOpsGrow(bound: Bound, s: State, t: Tid, s': State)
    requires t in s.threads && StepThread(bound, s, t) == Ok(s')
    ensures || s'.ops == s.ops || s'.ops == s.ops + [Fifo.Poll]
            || (EntryOf(s.threads[t]).Some? && s'.ops == s.ops + [Fifo.Add(EntryOf(s.threads[t]).value)])
    ensures s'.pollers == s.pollers || s'.pollers == s.pollers + [t]
  {
  }

  lemma StepGrows(bound: Bound, s: State, event: Event, s': State)
    requires Step(bound, s, event) == Ok(s')
    ensures s.ops <= s'.ops && s.pollers <= s'.pollers
  {
    if event.Proceed? && event.t in s.threads {
      OwnOpsGrow(bound, s, event.t, s');
    }
  }

  lemma {:induction false} RunGrows(bound: Bound, events: seq<Event>, more: seq<Event>)
    ensures After(bound, events).ops <= After(bound, events + more).ops
    ensures After(bound, events).pollers <= After(bound, events + more).pollers
  {
    if more == [] {
      assert events + more == events;
    } else {
      var last := |more| - 1;
      RunGrows(bound, events, more[..last]);
      assert events + more == (events + more[..last]) + [more[last]];
      RunSnoc(bound, events + more[..last], more[last]);
      StepGrows(bound, After(bound, events + more[..last]), more[last], After(bound, events + more));
    }
  }

  /* Callbacks. */

  predicate BeforeAdd(p: Phase) {
    p.Allocating? || p.Linked?
  }

  /** What one step of a callback for entry `e` does, if it is not waiting for the lock. */
  ghost predicate CallbackMoved(s: State, s': State, t: Tid, e: Entry)
    requires t in s.threads
  {
    && s'.ops == s.ops + (if s.threads[t].Linked? then [Fifo.Add(e)] else [])
    && (t !in s'.threads ==> s.threads[t].Added?)
    && (t in s'.threads ==>
          && EntryOf(s'.threads[t]) == Some(e) && StepsToEnd(s'.threads[t]) < StepsToEnd(s.threads[t])
          && (BeforeAdd(s'.threads[t]) <==> s.threads[t].Allocating?))
  }

  lemma AllocatingMoves(s: State, t: Tid, e: Entry, done: nat, s': State)
    requires t in s.threads && s.threads[t] == Allocating(e, done) && Allocate(s, t, e, done) == Ok(s')
    ensures CallbackMoved(s, s', t, e)
  {
    hide OrderOf, PathLive, Live;
  }

  lemma AddingMoves(s: State, t: Tid, e: Entry, saved: Option<Addr>, todo: Program, index: nat, s': State)
    requires t in s.threads && s.threads[t] == Adding(e, saved, todo) && StepAdd(s, t, e, saved, todo, index) == Ok(s')
    ensures CallbackMoved(s, s', t, e)
  {
    hide Exec;
  }

  lemma LockedMoves(bound: Bound, s: State, t: Tid, e: Entry, s': State)
    requires t in s.threads && s.threads[t] == AddLocked(e)
    requires s' == s.(threads := s.threads[t := Adding(e, None, AddProgram(bound, s.memory))])
    ensures CallbackMoved(s, s', t, e)
  {
    AddProgramShape(bound, s.memory);
    hide AddProgram, FreesLast;
  }

  lemma CallbackMoves(bound: Bound, s: State, t: Tid, e: Entry, s': State)
    requires t in s.threads && EntryOf(s.threads[t]) == Some(e) && !Waits(s, t) && StepThread(bound, s, t) == Ok(s')
    ensures CallbackMoved(s, s', t, e)
  {
    match s.threads[t] {
      case Allocating(_, done) => AllocatingMoves(s, t, e, done, s');
      case Linked(_) =>
      case AddLocked(_) => LockedMoves(bound, s, t, e, s');
      case Adding(_, saved, todo) => AddingMoves(s, t, e, saved, todo, LastRetired(bound, s.ops), s');
      case Added(_) =>
    }
  }

  lemma WaitingStays(bound: Bound, s: State, t: Tid)
    requires Waits(s, t)
    ensures StepThread(bound, s, t) == Ok(s)
  {
  }

  /** A callback that is still under way, with at most `left` steps to go. */
  ghost predicate CallbackUnderWay(bound: Bound, events: seq<Event>, t: Tid, e: Entry, pending: bool, left: nat) {
    var s := After(bound, events);
    t in s.threads && EntryOf(s.threads[t]) == Some(e) && StepsToEnd(s.threads[t]) <= left && BeforeAdd(s.threads[t]) == pending
  }

  lemma CallbackNeedsStep(bound: Bound, events: seq<Event>, t: Tid, e: Entry, pending: bool, left: nat)
    requires CallbackUnderWay(bound, events, t, e, pending, left)
    ensures left > 0
  {
  }

  /** One event: the callback waits, or is one step nearer to its end; it logs its add when it takes the lock. */
  lemma CallbackTurn(bound: Bound, events: seq<Event>, t: Tid, e: Entry, pending: bool, left: nat, event: Event) returns (pending': bool)
    requires CallbackUnderWay(bound, events, t, e, pending, left)
    ensures var s, s' := After(bound, events), After(bound, events + [event]);
            var own := if event == Proceed(t) then NewOps(s, s') else [];
            && own == (if pending && !pending' then [Fifo.Add(e)] else [])
            && (pending' ==> pending)
            && (if t in s'.threads then
                  CallbackUnderWay(bound, events + [event], t, e, pending', if event == Proceed(t) && !Waits(s, t) then left - 1 else left)
                else !pending')
  {
    hide After;
    var s, s' := After(bound, events), After(bound, events + [event]);
    RunSnoc(bound, events, event);
    if event != Proceed(t) {
      OtherEvent(bound, s, t, event, s');
      pending' := pending;
    } else if Waits(s, t) {
      WaitingStays(bound, s, t);
      pending' := pending;
    } else {
      hide StepThread;
      CallbackMoves(bound, s, t, e, s');
      pending' := t in s'.threads && BeforeAdd(s'.threads[t]);
    }
  }

  lemma {:induction false} CallbackRuns(bound: Bound, events: seq<Event>, t: Tid, e: Entry, pending: bool, left: nat, more: seq<Event>)
    returns (k: nat)
    requires CallbackUnderWay(bound, events, t, e, pending, left) && left <= FreeSteps(bound, events, t, more)
    ensures k <= |more| && t !in After(bound, events + more[..k]).threads
    ensures OwnOps(bound, events, t, more[..k]) == if pending then [Fifo.Add(e)] else []
    decreases |more|
  {
    hide After, CallbackUnderWay, OwnOps, FreeSteps, Waits, NewOps;
    CallbackNeedsStep(bound, events, t, e, pending, left);
    FreeStepsFirst(bound, events, t, more);
    var next, rest := events + [more[0]], more[1..];
    var pending' := CallbackTurn(bound, events, t, e, pending, left, more[0]);
    if t in After(bound, next).threads {
      var left' := if more[0] == Proceed(t) && !Waits(After(bound, events), t) then left - 1 else left;
      var k' := CallbackRuns(bound, next, t, e, pending', left', rest);
      k := k' + 1;
      Continued(events, more, k);
    } else {
      k := 1;
      Continued(events, more, k);
    }
    OwnOpsFirst(bound, events, t, more, k);
    JoinedOps(Fifo.Add(e), pending, pending');
  }

  lemma JoinedOps(op: Op, pending: bool, pending': bool)
    requires pending' ==> pending
    ensures (if pending && !pending' then [op] else []) + (if pending' then [op] else []) == if pending then [op] else []
  {
  }

  lemma Continued(events: seq<Event>, more: seq<Event>, k: nat)
    requires 0 < k <= |more|
    ensures events + [more[0]] + more[1..][..k - 1] == events + more[..k]
    ensures k == 1 ==> more[1..][..0] == [] && events + [more[0]] == events + more[..1]
  {
  }

  lemma FreeStepsFirst(bound: Bound, events: seq<Event>, t: Tid, more: seq<Event>)
    ensures more == [] ==> FreeSteps(bound, events, t, more) == 0
    ensures more != [] ==>
              FreeSteps(bound, events, t, more)
              == (if more[0] == Proceed(t) && !Waits(After(bound, events), t) then 1 else 0)
                 + FreeSteps(bound, events + [more[0]], t, more[1..])
  {
    hide After, Waits;
  }

  lemma OwnOpsFirst(bound: Bound, events: seq<Event>, t: Tid, more: seq<Event>, k: nat)
    requires 0 < k <= |more|
    ensures OwnOps(bound, events, t, more[..k])
            == (if more[0] == Proceed(t) then NewOps(After(bound, events), After(bound, events + [more[0]])) else [])
               + OwnOps(bound, events + [more[0]], t, more[1..][..k - 1])
    ensures k == 1 ==> OwnOps(bound, events + [more[0]], t, more[1..][..k - 1]) == []
  {
    hide After, NewOps;
    assert more[..k][1..] == more[1..][..k - 1];
  }

  /**
   A callback that BAL makes for a subscribed object always completes: whatever the other threads do,
   once it has made `CALLBACK_STEPS` steps in which it does not wait for the lock, it is over, and has
   put exactly its own indication into the queue, once.
   */
  lemma CallbackCompletes(bound: Bound, events: seq<Event>, t: Tid, u: UCase, obj: BalObject, a: Addr, more: seq<Event>) returns (k: nat)
    requires t !in After(bound, events).threads && Live(After(bound, events).memory, a) == {}
    requires Subscribed(u, obj) && (u == BalOmciResp ==> obj.dest == ItuOmciChannel)
    requires CALLBACK_STEPS <= FreeSteps(bound, events + [Callback(t, u, obj, a)], t, more)
    ensures var start := events + [Callback(t, u, obj, a)];
            && k <= |more| && t !in After(bound, start + more[..k]).threads
            && OwnOps(bound, start, t, more[..k]) == [Fifo.Add(Entry(u, obj, a))]
  {
    hide After;
    var start := events + [Callback(t, u, obj, a)];
    RunSnoc(bound, events, Callback(t, u, obj, a));
    GuardIsSubscription(u, obj);
    CallbackStarts(bound, After(bound, events), t, u, obj, a);
    k := CallbackRuns(bound, start, t, Entry(u, obj, a), true, CALLBACK_STEPS, more);
  }

  lemma CallbackStarts(bound: Bound, s: State, t: Tid, u: UCase, obj: BalObject, a: Addr)
    requires t !in s.threads && Live(s.memory, a) == {} && Accepts(u, obj) && (u == BalOmciResp ==> obj.dest == ItuOmciChannel)
    ensures var o := Step(bound, s, Callback(t, u, obj, a));
            && o.Ok? && t in o.state.threads && o.state.ops == s.ops && o.state.lock == s.lock
            && o.state.threads[t] == Allocating(Entry(u, obj, a), 1) && StepsToEnd(o.state.threads[t]) <= CALLBACK_STEPS
  {
  }

  /* Polls. */

  /** The poll of thread `t` has taken the lock, and answers with `r`: the oldest entry at that moment, or none. */
  ghost predicate Serves(bound: Bound, s: State, t: Tid, r: Option<Entry>)
    requires t in s.threads
  {
    var h := Ran(bound, s.ops);
    match s.threads[t]
    case GetLocked(_) => LastAnswer(h, r)
    case Getting(_, _, _) => LastAnswer(h, r)
    case Taken(_, i, a) => Answers(h, i, a, r)
    case Marked(_, i, a) => Answers(h, i, a, r)
    case Releasing(i, a, _) => Answers(h, i, a, r)
    case NothingTaken(_) => r == None
    case EmptyReply(_) => r == None
    case EmptyWritten => r == None
    case _ => false
  }

  ghost predicate LastAnswer(h: History, r: Option<Entry>) {
    && h.replies != [] && h.replies[|h.replies| - 1] == r
    && (r.Some? ==> h.retired != [] && h.retired[|h.retired| - 1].item == r.value)
  }

  ghost predicate Answers(h: History, i: nat, a: Addr, r: Option<Entry>) {
    r.Some? && i < |h.retired| && h.retired[i].item == r.value && r.value.node == a
  }

  /** All that is left of a delivered message and its node. */
  ghost predicate Freed(s: State, r: Option<Entry>) {
    r.Some? ==> Live(s.memory, r.value.node) == if r.value.uCase == InterfaceLos then {Block(Key)} else {}
  }

  ghost predicate PollMoved(bound: Bound, s: State, s': State, t: Tid, r: Option<Entry>)
    requires t in s.threads
  {
    && s'.ops == s.ops
    && (if t in s'.threads then Serves(bound, s', t, r) && StepsToEnd(s'.threads[t]) < StepsToEnd(s.threads[t]) else Freed(s', r))
  }

  lemma GetLockedMoves(bound: Bound, s: State, t: Tid, ticket: nat, r: Option<Entry>, s': State)
    requires t in s.threads && s.threads[t] == GetLocked(ticket) && Serves(bound, s, t, r)
    requires s' == s.(threads := s.threads[t := Getting(ticket, None, GetProgram(s.memory))])
    ensures PollMoved(bound, s, s', t, r)
  {
    GetProgramShape(s.memory);
    hide GetProgram, Fifo.Run, FreesLast, Frees;
  }

  lemma WritingMoves(bound: Bound, s: State, t: Tid, ticket: nat, saved: Option<Addr>, saved': Option<Addr>, instr: Instr, rest: Program,
                     r: Option<Entry>, s': State)
    requires t in s.threads && s.threads[t] == Getting(ticket, saved, Do(instr, rest)) && Serves(bound, s, t, r)
    requires t in s'.threads && s'.threads[t] == Getting(ticket, saved', rest) && s'.ops == s.ops
    ensures PollMoved(bound, s, s', t, r)
  {
    hide Ran, LastAnswer;
  }

  /** What a poll has found when the get routine is over. */
  lemma PollFinds(bound: Bound, s: State, t: Tid, ticket: nat, saved: Option<Addr>, r: Option<Entry>)
    requires Inv(bound, s) && t in s.threads && s.threads[t] == Getting(ticket, saved, Done) && Serves(bound, s, t, r)
    ensures if saved == None then r == None else Answers(Ran(bound, s.ops), LastRetired(bound, s.ops), saved.value, r)
  {
    hide Inv, QueueOK, EntryIn;
    InvThread(bound, s, t);
    InvQueue(bound, s);
    InvLog(bound, s);
    GetFinishes(bound, s, t, ticket, saved);
    hide Fifo.Run, RingAddrs;
  }

  lemma GettingMoves(bound: Bound, s: State, t: Tid, ticket: nat, saved: Option<Addr>, todo: Program, r: Option<Entry>, s': State)
    requires Inv(bound, s) && t in s.threads && s.threads[t] == Getting(ticket, saved, todo) && Serves(bound, s, t, r)
    requires StepGet(s, t, ticket, saved, todo, LastRetired(bound, s.ops)) == Ok(s')
    ensures PollMoved(bound, s, s', t, r)
  {
    hide Inv, Exec, Ran, LastAnswer, Answers, LastRetired;
    if todo == Done {
      PollFinds(bound, s, t, ticket, saved, r);
    } else {
      WritingMoves(bound, s, t, ticket, saved, s'.threads[t].saved, todo.instr, todo.rest, r, s');
    }
  }

  lemma ReleasingMoves(bound: Bound, s: State, t: Tid, i: nat, a: Addr, done: nat, r: Option<Entry>, s': State)
    requires Inv(bound, s) && t in s.threads && s.threads[t] == Releasing(i, a, done) && Serves(bound, s, t, r)
    requires Release(s, t, i, a, done) == Ok(s')
    ensures PollMoved(bound, s, s', t, r)
  {
    hide Inv, Fifo.Run;
    InvThread(bound, s, t);
    var msg := s.memory.message[a];
    FreeOrderSize(msg.uCase, msg.dest);
    ReleasedSoFar(msg, done);
    RemainsIs(msg);
    hide FreeOrder, PiecesAfter, Remains, PathLive, Parts;
  }

  lemma RemainsIs(msg: Message)
    ensures Remains(msg) == if msg.uCase == InterfaceLos then {Block(Key)} else {}
  {
  }

  lemma PollMoves(bound: Bound, s: State, t: Tid, r: Option<Entry>, s': State)
    requires Inv(bound, s) && t in s.threads && Serves(bound, s, t, r) && StepThread(bound, s, t) == Ok(s')
    ensures PollMoved(bound, s, s', t, r)
  {
    hide Inv, Release, StepGet, GetProgram, Fifo.Run, AllPieces;
    match s.threads[t] {
      case GetLocked(ticket) => GetLockedMoves(bound, s, t, ticket, r, s');
      case Getting(ticket, saved, todo) => GettingMoves(bound, s, t, ticket, saved, todo, r, s');
      case Releasing(i, a, done) => ReleasingMoves(bound, s, t, i, a, done, r, s');
      case _ =>
    }
  }

  lemma ServesWhenOthersMove(bound: Bound, s: State, t: Tid, r: Option<Entry>, s': State)
    requires t in s.threads && Serves(bound, s, t, r) && t in s'.threads && s'.threads[t] == s.threads[t]
    requires s.ops <= s'.ops && (InSection(s.threads[t]) ==> s'.ops == s.ops)
    ensures Serves(bound, s', t, r)
  {
    OpsGrow(bound, s.ops, s'.ops);
    hide Fifo.Run;
  }

  /** A poll that has taken the lock and has at most `left` steps to go. */
  ghost predicate PollUnderWay(bound: Bound, events: seq<Event>, t: Tid, r: Option<Entry>, left: nat) {
    var s := After(bound, events);
    t in s.threads && Serves(bound, s, t, r) && StepsToEnd(s.threads[t]) <= left
  }

  lemma PollNeedsStep(bound: Bound, events: seq<Event>, t: Tid, r: Option<Entry>, left: nat)
    requires PollUnderWay(bound, events, t, r, left)
    ensures left > 0 && !Waits(After(bound, events), t)
  {
  }

  lemma PollTurn(bound: Bound, events: seq<Event>, t: Tid, r: Option<Entry>, left: nat, event: Event)
    requires PollUnderWay(bound, events, t, r, left)
    ensures var s, s' := After(bound, events), After(bound, events + [event]);
            && (event == Proceed(t) ==> NewOps(s, s') == [])
            && if t in s'.threads then PollUnderWay(bound, events + [event], t, r, if event == Proceed(t) then left - 1 else left)
               else Freed(s', r)
  {
    hide After, Inv, Serves, Freed;
    var s, s' := After(bound, events), After(bound, events + [event]);
    RunSnoc(bound, events, event);
    AfterInv(bound, events);
    if event == Proceed(t) {
      hide StepThread;
      PollMoves(bound, s, t, r, s');
    } else {
      OtherEvent(bound, s, t, event, s');
      StepGrows(bound, s, event, s');
      hide Step;
      HolderInSection(bound, s, t);
      if InSection(s.threads[t]) {
        OthersWait(bound, events, t, event);
      }
      ServesWhenOthersMove(bound, s, t, r, s');
    }
  }

  lemma {:induction false} PollServes(bound: Bound, events: seq<Event>, t: Tid, r: Option<Entry>, left: nat, more: seq<Event>) returns (k: nat)
    requires PollUnderWay(bound, events, t, r, left) && left <= FreeSteps(bound, events, t, more)
    ensures 0 < k <= |more| && t !in After(bound, events + more[..k]).threads && Freed(After(bound, events + more[..k]), r)
    ensures OwnOps(bound, events, t, more[..k]) == []
    decreases |more|
  {
    hide After, PollUnderWay, OwnOps, FreeSteps, Waits, NewOps, Freed, StepsToEnd;
    PollNeedsStep(bound, events, t, r, left);
    FreeStepsFirst(bound, events, t, more);
    var next, rest := events + [more[0]], more[1..];
    PollTurn(bound, events, t, r, left, more[0]);
    if t in After(bound, next).threads {
      var k' := PollServes(bound, next, t, r, if more[0] == Proceed(t) then left - 1 else left, rest);
      k := k' + 1;
      Continued(events, more, k);
    } else {
      k := 1;
      Continued(events, more, k);
    }
    OwnOpsFirst(bound, events, t, more, k);
  }

  /** Thread `t` is about to make a poll and does not hold the lock yet. */
  ghost predicate Polling(bound: Bound, events: seq<Event>, t: Tid) {
    var s := After(bound, events);
    t in s.threads && s.threads[t] == PollStart
  }

  /** The entry that a poll which takes the lock now answers with. */
  ghost function Oldest(bound: Bound, events: seq<Event>): Option<Entry> {
    var pending := HistoryOf(bound, events).pending;
    if pending == [] then None else Some(pending[0])
  }

  /** The step in which the poll takes the lock. */
  ghost predicate TakesLock(bound: Bound, events: seq<Event>, t: Tid) {
    var s, s' := After(bound, events), After(bound, events + [Proceed(t)]);
    s.lock == None && s'.pollers == s.pollers + [t] && s'.ops == s.ops + [Fifo.Poll]
  }

  lemma LockingAnswers(bound: Bound, ops: seq<Op>)
    ensures var h := Ran(bound, ops);
            LastAnswer(Ran(bound, ops + [Fifo.Poll]), if h.pending == [] then None else Some(h.pending[0]))
  {
    Fifo.RunSnoc(bound, ops, Fifo.Poll);
    hide Fifo.Run;
  }

  lemma PollLocksNow(bound: Bound, events: seq<Event>, t: Tid)
    requires Polling(bound, events, t) && After(bound, events).lock == None
    ensures TakesLock(bound, events, t) && PollUnderWay(bound, events + [Proceed(t)], t, Oldest(bound, events), 16)
    ensures NewOps(After(bound, events), After(bound, events + [Proceed(t)])) == [Fifo.Poll]
  {
    hide After;
    RunSnoc(bound, events, Proceed(t));
    LockingAnswers(bound, After(bound, events).ops);
    hide LastAnswer, Fifo.Run;
  }

  lemma PollWaits(bound: Bound, events: seq<Event>, t: Tid, event: Event)
    requires Polling(bound, events, t) && (event != Proceed(t) || Waits(After(bound, events), t))
    ensures Polling(bound, events + [event], t)
    ensures event == Proceed(t) ==> NewOps(After(bound, events), After(bound, events + [event])) == []
  {
    hide After;
    RunSnoc(bound, events, event);
    if event == Proceed(t) {
      WaitingStays(bound, After(bound, events), t);
    } else {
      OtherEvent(bound, After(bound, events), t, event, After(bound, events + [event]));
    }
  }

  lemma PollIsFree(bound: Bound, events: seq<Event>, t: Tid)
    requires Polling(bound, events, t)
    ensures Waits(After(bound, events), t) <==> After(bound, events).lock != None
  {
    hide After;
  }

  /** A poll takes the lock at event `m` and is over after event `k`. */
  ghost predicate PollSpan(bound: Bound, start: seq<Event>, t: Tid, more: seq<Event>, m: nat, k: nat) {
    && m < k <= |more| && more[m] == Proceed(t)
    && TakesLock(bound, start + more[..m], t)
    && t !in After(bound, start + more[..k]).threads
    && Freed(After(bound, start + more[..k]), Oldest(bound, start + more[..m]))
    && OwnOps(bound, start, t, more[..m]) == [] && OwnOps(bound, start, t, more[..k]) == [Fifo.Poll]
  }

  lemma {:induction false} PollRuns(bound: Bound, events: seq<Event>, t: Tid, more: seq<Event>) returns (m: nat, k: nat)
    requires Polling(bound, events, t) && POLL_STEPS <= FreeSteps(bound, events, t, more)
    ensures PollSpan(bound, events, t, more, m, k)
    decreases |more|
  {
    hide After, Polling, PollUnderWay, OwnOps, FreeSteps, Waits, NewOps, Freed, TakesLock, Oldest, PollSpan;
    FreeStepsFirst(bound, events, t, more);
    PollIsFree(bound, events, t);
    var next, rest := events + [more[0]], more[1..];
    if more[0] == Proceed(t) && After(bound, events).lock == None {
      PollLocksNow(bound, events, t);
      k := PollServes(bound, next, t, Oldest(bound, events), 16, rest);
      m, k := 0, k + 1;
      SpanNow(bound, events, t, more, k);
    } else {
      PollWaits(bound, events, t, more[0]);
      var m', k' := PollRuns(bound, next, t, rest);
      m, k := m' + 1, k' + 1;
      SpanLater(bound, events, t, more, m', k');
    }
  }

  lemma SpanNow(bound: Bound, events: seq<Event>, t: Tid, more: seq<Event>, k: nat)
    requires 1 < k <= |more| && more[0] == Proceed(t) && TakesLock(bound, events, t)
    requires NewOps(After(bound, events), After(bound, events + [more[0]])) == [Fifo.Poll]
    requires OwnOps(bound, events + [more[0]], t, more[1..][..k - 1]) == []
    requires t !in After(bound, events + [more[0]] + more[1..][..k - 1]).threads
    requires Freed(After(bound, events + [more[0]] + more[1..][..k - 1]), Oldest(bound, events))
    ensures PollSpan(bound, events, t, more, 0, k)
  {
    hide After, NewOps, Freed, TakesLock, Oldest, OwnOps;
    Continued(events, more, k);
    OwnOpsFirst(bound, events, t, more, k);
    NoneYet(events, more);
    NoOwnOps(bound, events, t);
  }

  lemma NoneYet(events: seq<Event>, more: seq<Event>)
    ensures events + more[..0] == events && more[..0] == []
  {
  }

  lemma SpanLater(bound: Bound, events: seq<Event>, t: Tid, more: seq<Event>, m: nat, k: nat)
    requires more != [] && PollSpan(bound, events + [more[0]], t, more[1..], m, k)
    requires more[0] == Proceed(t) ==> NewOps(After(bound, events), After(bound, events + [more[0]])) == []
    ensures PollSpan(bound, events, t, more, m + 1, k + 1)
  {
    hide After, NewOps, Freed, TakesLock, Oldest, OwnOps;
    Continued(events, more, m + 1);
    Continued(events, more, k + 1);
    OwnOpsFirst(bound, events, t, more, m + 1);
    OwnOpsFirst(bound, events, t, more, k + 1);
  }

  /**
   Reply number `ticket` has been written: the message of the oldest of the entries `pending`, of which
   then only the key of a loss of signal is left on the heap, or the reply that nothing is present.
   */
  ghost predicate Answered(s: State, ticket: nat, pending: seq<Entry>) {
    && ticket in s.wire
    && if pending == [] then s.wire[ticket] == Absent
       else
         var e := pending[0];
         && s.wire[ticket] == Present(MessageFor(e.uCase, e.obj))
         && Live(s.memory, e.node) == if e.uCase == InterfaceLos then {Block(Key)} else {}
  }

  /**
   Every poll is answered, and takes its message out: whatever the other threads do, once the poll has
   made `POLL_STEPS` steps in which it does not wait for the lock, it is over.  It has taken the lock
   once, at event `m`.  Its reply is the message of the entry that was the oldest then, and that
   message and its node have been freed; or its reply says that nothing was present, if so.
   */
  lemma PollCompletes(bound: Bound, events: seq<Event>, t: Tid, more: seq<Event>) returns (m: nat, k: nat)
    requires t !in After(bound, events).threads
    requires POLL_STEPS <= FreeSteps(bound, events + [StartPoll(t)], t, more)
    ensures m < k <= |more|
    ensures var start := events + [StartPoll(t)];
            var s, s' := After(bound, start + more[..m]), After(bound, start + more[..k]);
            var ticket, pending := |s.pollers|, HistoryOf(bound, start + more[..m]).pending;
            && more[m] == Proceed(t) && s.lock == None && t !in s'.threads
            && OwnOps(bound, start, t, more[..m]) == [] && OwnOps(bound, start, t, more[..k]) == [Fifo.Poll]
            && ticket < |s'.pollers| && s'.pollers[ticket] == t && Answered(s', ticket, pending)
  {
    hide After, FreeSteps, OwnOps, TakesLock, Freed, Oldest, Answered, HistoryOf;
    var start := events + [StartPoll(t)];
    PollStarts(bound, events, t);
    m, k := PollRuns(bound, start, t, more);
    assert start + more[..k] == (start + more[..m] + [Proceed(t)]) + more[m + 1..k];
    RunGrows(bound, start + more[..m] + [Proceed(t)], more[m + 1..k]);
    LockTaken(bound, start + more[..m], t);
    ReplyStays(bound, start + more[..m], start + more[..k], t);
  }

  lemma LockTaken(bound: Bound, events: seq<Event>, t: Tid)
    requires TakesLock(bound, events, t)
    ensures After(bound, events).lock == None
  {
  }

  /** The answer of a poll that is over. */
  lemma ReplyStays(bound: Bound, events: seq<Event>, later: seq<Event>, t: Tid)
    requires TakesLock(bound, events, t)
    requires After(bound, events + [Proceed(t)]).ops <= After(bound, later).ops
    requires After(bound, events + [Proceed(t)]).pollers <= After(bound, later).pollers
    requires t !in After(bound, later).threads && Freed(After(bound, later), Oldest(bound, events))
    ensures var s, s' := After(bound, events), After(bound, later);
            var ticket := |s.pollers|;
            ticket < |s'.pollers| && s'.pollers[ticket] == t && Answered(s', ticket, HistoryOf(bound, events).pending)
  {
    hide After;
    var s, s1, s' := After(bound, events), After(bound, events + [Proceed(t)]), After(bound, later);
    RepliesAreRight(bound, events, |s.pollers|);
    RepliesAreRight(bound, later, |s.pollers|);
    LockingAnswers(bound, s.ops);
    Fifo.RunSnoc(bound, s.ops, Fifo.Poll);
    OpsGrow(bound, s1.ops, s'.ops);
    hide Fifo.Run;
  }

  /* Threads that run alone. */

  lemma OwnLock(bound: Bound, s: State, t: Tid, s': State)
    requires t in s.threads && StepThread(bound, s, t) == Ok(s')
    ensures s'.lock == s.lock || s'.lock == None || s'.lock == Some(t)
  {
  }

  /** A thread that runs alone never waits for the lock, if nobody else holds it. */
  lemma {:induction false} AloneIsFree(bound: Bound, events: seq<Event>, t: Tid, n: nat)
    requires After(bound, events).lock == None || After(bound, events).lock == Some(t)
    ensures FreeSteps(bound, events, t, Turns(t, n)) == n
    ensures After(bound, events + Turns(t, n)).lock == None || After(bound, events + Turns(t, n)).lock == Some(t)
    decreases n
  {
    hide After, FreeSteps, Inv;
    FreeStepsFirst(bound, events, t, Turns(t, n));
    if n == 0 {
      assert events + Turns(t, n) == events;
    } else {
      var next := events + [Proceed(t)];
      AfterInv(bound, events);
      HolderInSection(bound, After(bound, events), t);
      RunSnoc(bound, events, Proceed(t));
      if t in After(bound, events).threads {
        OwnLock(bound, After(bound, events), t, After(bound, next));
      }
      hide StepThread;
      AloneIsFree(bound, next, t, n - 1);
      assert Turns(t, n)[1..] == Turns(t, n - 1) && next + Turns(t, n - 1) == events + Turns(t, n);
    }
  }

  lemma AloneOpsOnce(bound: Bound, events: seq<Event>, t: Tid)
    ensures var s, s' := After(bound, events), After(bound, events + [Proceed(t)]); s'.ops == s.ops + NewOps(s, s')
  {
    hide After;
    RunSnoc(bound, events, Proceed(t));
    StepGrows(bound, After(bound, events), Proceed(t), After(bound, events + [Proceed(t)]));
    hide Step;
  }

  lemma TurnsFirst(events: seq<Event>, t: Tid, n: nat)
    requires n > 0
    ensures Turns(t, n)[..n] == Turns(t, n) && Turns(t, n)[1..][..n - 1] == Turns(t, n - 1) && Turns(t, n)[0] == Proceed(t)
    ensures events + [Proceed(t)] + Turns(t, n - 1) == events + Turns(t, n)
  {
  }

  /** The history grows by exactly the operations of the thread that runs alone. */
  lemma {:induction false} AloneOps(bound: Bound, events: seq<Event>, t: Tid, n: nat)
    ensures After(bound, events + Turns(t, n)).ops == After(bound, events).ops + OwnOps(bound, events, t, Turns(t, n))
    decreases n
  {
    hide After, OwnOps, NewOps;
    if n == 0 {
      assert events + Turns(t, n) == events && Turns(t, n) == [];
      NoOwnOps(bound, events, t);
    } else {
      hide Turns;
      AloneOpsOnce(bound, events, t);
      AloneOps(bound, events + [Proceed(t)], t, n - 1);
      TurnsFirst(events, t, n);
      OwnOpsFirst(bound, events, t, Turns(t, n), n);
      Appended(After(bound, events).ops, NewOps(After(bound, events), After(bound, events + [Proceed(t)])),
               OwnOps(bound, events + [Proceed(t)], t, Turns(t, n - 1)));
    }
  }

  lemma Appended(a: seq<Op>, b: seq<Op>, c: seq<Op>)
    ensures a + b + c == a + (b + c)
  {
  }

  lemma NoOwnOps(bound: Bound, events: seq<Event>, t: Tid)
    ensures OwnOps(bound, events, t, []) == []
  {
  }

  /** A thread that has come to its end has no more steps. */
  lemma {:induction false} GoneStays(bound: Bound, events: seq<Event>, t: Tid, n: nat)
    requires t !in After(bound, events).threads
    ensures After(bound, events + Turns(t, n)) == After(bound, events)
    decreases n
  {
    hide After;
    if n == 0 {
      assert events + Turns(t, n) == events;
    } else {
      RunSnoc(bound, events, Proceed(t));
      GoneStays(bound, events + [Proceed(t)], t, n - 1);
      assert events + [Proceed(t)] + Turns(t, n - 1) == events + Turns(t, n);
    }
  }

  lemma NotHolding(bound: Bound, events: seq<Event>, t: Tid)
    requires t !in After(bound, events).threads
    ensures After(bound, events).lock != Some(t)
  {
    hide After, Inv, QueueOK;
    AfterInv(bound, events);
    InvQueue(bound, After(bound, events));
  }

  lemma TurnsPrefix(t: Tid, n: nat, k: nat)
    requires k <= n
    ensures Turns(t, n)[..k] == Turns(t, k) && Turns(t, n) == Turns(t, k) + Turns(t, n - k)
  {
  }

  /** A callback for a subscribed object that runs alone while the lock is free adds exactly its indication. */
  lemma CallbackAlone(bound: Bound, events: seq<Event>, t: Tid, u: UCase, obj: BalObject, a: Addr)
    requires var s := After(bound, events); s.lock == None && t !in s.threads && Live(s.memory, a) == {}
    requires Subscribed(u, obj) && (u == BalOmciResp ==> obj.dest == ItuOmciChannel)
    ensures var s, s' := After(bound, events), After(bound, events + [Callback(t, u, obj, a)] + Turns(t, CALLBACK_STEPS));
            s'.ops == s.ops + [Fifo.Add(Entry(u, obj, a))] && s'.lock == None && t !in s'.threads
  {
    hide After, OwnOps, FreeSteps, Subscribed, Waits;
    var start, n := events + [Callback(t, u, obj, a)], CALLBACK_STEPS;
    CallbackStart(bound, events, t, u, obj, a);
    AloneIsFree(bound, start, t, n);
    var k := CallbackCompletes(bound, events, t, u, obj, a, Turns(t, n));
    TurnsPrefix(t, n, k);
    AloneOps(bound, start, t, k);
    GoneStays(bound, start + Turns(t, k), t, n - k);
    assert start + Turns(t, k) + Turns(t, n - k) == start + Turns(t, n);
    NotHolding(bound, start + Turns(t, n), t);
  }

  lemma CallbackStart(bound: Bound, events: seq<Event>, t: Tid, u: UCase, obj: BalObject, a: Addr)
    ensures var s, s' := After(bound, events), After(bound, events + [Callback(t, u, obj, a)]); s'.ops == s.ops && s'.lock == s.lock
  {
    hide After;
    RunSnoc(bound, events, Callback(t, u, obj, a));
  }

  /** A callback for any other object changes nothing. */
  lemma CallbackRejected(bound: Bound, events: seq<Event>, t: Tid, u: UCase, obj: BalObject, a: Addr)
    requires !Subscribed(u, obj)
    ensures After(bound, events + [Callback(t, u, obj, a)]) == After(bound, events)
  {
    hide After, Subscribed;
    GuardIsSubscription(u, obj);
    RunSnoc(bound, events, Callback(t, u, obj, a));
  }

  /** A poll that runs alone while the lock is free replies with the oldest indication and frees it. */
  lemma PollAlone(bound: Bound, events: seq<Event>, t: Tid)
    requires var s := After(bound, events); s.lock == None && t !in s.threads
    ensures var s, s' := After(bound, events), After(bound, events + [StartPoll(t)] + Turns(t, POLL_STEPS));
            && s'.ops == s.ops + [Fifo.Poll] && s'.lock == None && t !in s'.threads
            && Answered(s', |s.pollers|, HistoryOf(bound, events).pending)
  {
    hide After, OwnOps, FreeSteps, Waits, Answered, HistoryOf;
    var start, n := events + [StartPoll(t)], POLL_STEPS;
    PollStarts(bound, events, t);
    AloneIsFree(bound, start, t, n);
    var m, k := PollCompletes(bound, events, t, Turns(t, n));
    TurnsPrefix(t, n, m);
    TurnsPrefix(t, n, k);
    AloneOps(bound, start, t, m);
    AloneOps(bound, start, t, k);
    hide Turns;
    SameOpsSameQueue(bound, events, start + Turns(t, m));
    GoneStays(bound, start + Turns(t, k), t, n - k);
    JoinedTurns(start, t, n, k);
    NotHolding(bound, start + Turns(t, n), t);
  }

  lemma JoinedTurns(start: seq<Event>, t: Tid, n: nat, k: nat)
    requires k <= n
    ensures start + Turns(t, k) + Turns(t, n - k) == start + Turns(t, n)
  {
    TurnsPrefix(t, n, k);
    hide Turns;
  }

  lemma SameOpsSameQueue(bound: Bound, events: seq<Event>, later: seq<Event>)
    requires After(bound, later).ops == After(bound, events).ops
    ensures HistoryOf(bound, later) == HistoryOf(bound, events) && |After(bound, later).pollers| == |After(bound, events).pollers|
  {
    hide After;
    PollersCounted(bound, events);
    PollersCounted(bound, later);
  }

  lemma PollStarts(bound: Bound, events: seq<Event>, t: Tid)
    ensures var s, s' := After(bound, events), After(bound, events + [StartPoll(t)]); s'.ops == s.ops && s'.lock == s.lock
    ensures t !in After(bound, events).threads ==> Polling(bound, events + [StartPoll(t)], t)
  {
    hide After;
    RunSnoc(bound, events, StartPoll(t));
  }

  lemma PollersCounted(bound: Bound, events: seq<Event>)
    ensures |After(bound, events).pollers| == Fifo.Polls(After(bound, events).ops)
  {
    hide After, Inv;
    AfterInv(bound, events);
    InvLog(bound, After(bound, events));
  }

  /* Heartbeats. */

  /** What a heartbeat has still to do: read the state, or reply what it has read. */
  ghost predicate Beating(bound: Bound, events: seq<Event>, t: Tid, p: Phase) {
    var s := After(bound, events);
    t in s.threads && s.threads[t] == p
  }

  lemma BeatTurn(bound: Bound, events: seq<Event>, t: Tid, p: Phase, event: Event)
    requires Beating(bound, events, t, p) && (p.BeatStart? || p.BeatRead?)
    ensures var s, s' := After(bound, events), After(bound, events + [event]);
            if event != Proceed(t) then Beating(bound, events + [event], t, p)
            else if p.BeatStart? then Beating(bound, events + [event], t, BeatRead(|s.readings|, s.isReboot))
            else t !in s'.threads && s'.beats == s.beats + [Beat(p.number, p.status)]
  {
    hide After;
    RunSnoc(bound, events, event);
    if event != Proceed(t) {
      OtherEvent(bound, After(bound, events), t, event, After(bound, events + [event]));
    }
  }

  /** The first step of thread `t` in `more`. */
  lemma {:induction false} BeatNext(bound: Bound, events: seq<Event>, t: Tid, p: Phase, more: seq<Event>) returns (m: nat)
    requires Beating(bound, events, t, p) && (p.BeatStart? || p.BeatRead?) && 0 < StepsOf(t, more)
    ensures m < |more| && more[m] == Proceed(t) && Beating(bound, events + more[..m], t, p)
    ensures StepsOf(t, more[m + 1..]) == StepsOf(t, more) - 1
    decreases |more|
  {
    hide After, Beating;
    if more[0] == Proceed(t) {
      m := 0;
      assert events + more[..0] == events;
    } else {
      BeatTurn(bound, events, t, p, more[0]);
      var m' := BeatNext(bound, events + [more[0]], t, p, more[1..]);
      m := m' + 1;
      assert events + [more[0]] + more[1..][..m'] == events + more[..m];
      assert more[1..][m' + 1..] == more[m + 1..];
    }
  }

  lemma BeatBegins(bound: Bound, events: seq<Event>, t: Tid)
    requires t !in After(bound, events).threads
    ensures Beating(bound, events + [StartHeartbeat(t)], t, BeatStart)
  {
    hide After;
    RunSnoc(bound, events, StartHeartbeat(t));
  }

  /** A heartbeat that has read the state before event `m` replies at event `k`. */
  lemma BeatReplied(bound: Bound, start: seq<Event>, more: seq<Event>, m: nat, t: Tid, number: nat, status: RebootStatus) returns (k: nat)
    requires m <= |more| && Beating(bound, start + more[..m], t, BeatRead(number, status)) && 0 < StepsOf(t, more[m..])
    ensures m <= k < |more| && more[k] == Proceed(t)
    ensures var s, s' := After(bound, start + more[..k]), After(bound, start + more[..k + 1]);
            t !in s'.threads && s'.beats == s.beats + [Beat(number, status)]
  {
    hide After, Beating, StepsOf;
    var k' := BeatNext(bound, start + more[..m], t, BeatRead(number, status), more[m..]);
    k := m + k';
    Spliced(start, more, m, k');
    BeatTurn(bound, start + more[..k], t, BeatRead(number, status), more[k]);
    OneMoreEvent(start, more, k);
  }

  /**
   Every heartbeat is answered: with two steps of its own in `more`, it reads the reboot state at event
   `m`, and at event `k` it replies what it has read, whatever the other threads do.
   */
  lemma HeartbeatCompletes(bound: Bound, events: seq<Event>, t: Tid, more: seq<Event>) returns (m: nat, k: nat)
    requires t !in After(bound, events).threads && 2 <= StepsOf(t, more)
    ensures m < k < |more|
    ensures var start := events + [StartHeartbeat(t)];
            var read, s, s' := After(bound, start + more[..m]), After(bound, start + more[..k]), After(bound, start + more[..k + 1]);
            && more[m] == Proceed(t) && more[k] == Proceed(t) && t !in s'.threads
            && s'.beats == s.beats + [Beat(|read.readings|, read.isReboot)]
  {
    hide After, Beating, StepsOf;
    var start := events + [StartHeartbeat(t)];
    BeatBegins(bound, events, t);
    m := BeatNext(bound, start, t, BeatStart, more);
    BeatTurn(bound, start + more[..m], t, BeatStart, more[m]);
    OneMoreEvent(start, more, m);
    var read := After(bound, start + more[..m]);
    k := BeatReplied(bound, start, more, m + 1, t, |read.readings|, read.isReboot);
  }

  lemma OneMoreEvent(start: seq<Event>, more: seq<Event>, m: nat)
    requires m < |more|
    ensures start + more[..m] + [more[m]] == start + more[..m + 1]
  {
  }

  lemma Spliced(start: seq<Event>, more: seq<Event>, m: nat, k: nat)
    requires m + k <= |more|
    ensures start + more[..m] + more[m..][..k] == start + more[..m + k]
  {
    assert more[..m] + more[m..][..k] == more[..m + k];
  }
}

/** The lock is always given back, and only objects that pass their callback's guard reach the queue. */
module DriverProgress {
  import opened Common
  import opened Indications
  import opened Callbacks
  import opened CriticalSection
  import opened Driver
  import opened DriverInvariant
  import opened DriverTheorems
  import opened DriverSectionSteps
  import Fifo

  /** How many steps of its own the lock holder in phase `p` has left before it releases the lock, at most. */
  function StepsLeft(p: Phase): nat {
    match p
    case AddLocked(_) => HOLD_LIMIT
    case Adding(_, saved, todo) => 1 + Size(todo) + if todo.Done? && saved == None then 0 else 1
    case GetLocked(_) => 2 + GET_WRITES
    case Getting(_, _, todo) => 1 + Size(todo)
    case _ => 0
  }

  /** No thread holds the lock for more steps of its own, however long the queue is. */
  const HOLD_LIMIT := 3 + ADD_WRITES

  ghost predicate Advanced(s: State, s': State, t: Tid)
    requires t in s.threads
  {
    s'.lock == None ||
    (s'.lock == Some(t) && t in s'.threads && StepsLeft(s'.threads[t]) < StepsLeft(s.threads[t]))
  }

  lemma AddAdvances(bound: Bound, s: State, t: Tid, s': State)
    requires s.lock == Some(t) && t in s.threads && (s.threads[t].AddLocked? || s.threads[t].Adding?)
    requires StepCallback(bound, s, t) == Ok(s')
    ensures Advanced(s, s', t)
  {
    AddProgramShape(bound, s.memory);
  }

  lemma GetAdvances(bound: Bound, s: State, t: Tid, s': State)
    requires s.lock == Some(t) && t in s.threads && (s.threads[t].GetLocked? || s.threads[t].Getting?)
    requires StepFetch(bound, s, t) == Ok(s')
    ensures Advanced(s, s', t)
  {
    GetProgramShape(s.memory);
  }

  lemma HolderInSection(bound: Bound, s: State, u: Tid)
    requires Inv(bound, s)
    ensures s.lock == Some(u) <==> u in s.threads && InSection(s.threads[u])
  {
    hide Inv;
    InvQueue(bound, s);
    hide QueueOK;
    if u in s.threads {
      InvThread(bound, s, u);
    }
  }

  /** A step that leaves the lock, the queue's history and the phases of the threads but `u` alone. */
  ghost predicate LockKept(s: State, s': State, u: Tid) {
    s'.lock == s.lock && s'.ops == s.ops && s'.threads - {u} == s.threads - {u}
  }

  lemma CallbackOfOther(bound: Bound, s: State, u: Tid, s': State)
    requires s.lock.Some? && u in s.threads && !InSection(s.threads[u]) && StepCallback(bound, s, u) == Ok(s')
    ensures LockKept(s, s', u)
  {
  }

  lemma FetchOfOther(bound: Bound, s: State, u: Tid, s': State)
    requires s.lock.Some? && u in s.threads && !InSection(s.threads[u]) && StepFetch(bound, s, u) == Ok(s')
    ensures LockKept(s, s', u)
  {
  }

  lemma ReplyOfOther(s: State, u: Tid, s': State)
    requires u in s.threads && (StepReply(s, u) == Ok(s') || StepBeat(s, u) == Ok(s'))
    ensures LockKept(s, s', u)
  {
  }

  lemma StartOfOther(bound: Bound, s: State, event: Event, s': State)
    requires !event.Proceed? && Step(bound, s, event) == Ok(s')
    ensures s' == s || (LockKept(s, s', event.t) && event.t !in s.threads)
  {
  }

  lemma ProceedOfOther(bound: Bound, s: State, u: Tid, s': State)
    requires s.lock.Some? && u in s.threads && !InSection(s.threads[u]) && StepThread(bound, s, u) == Ok(s')
    ensures LockKept(s, s', u)
  {
    hide StepCallback, StepFetch, StepReply, StepBeat, LockKept;
    var p := s.threads[u];
    if p.Allocating? || p.Linked? || p.AddLocked? || p.Adding? || p.Added? {
      CallbackOfOther(bound, s, u, s');
    } else if p.PollStart? || p.GetLocked? || p.Getting? {
      FetchOfOther(bound, s, u, s');
    } else {
      ReplyOfOther(s, u, s');
    }
  }

  lemma StepOfOther(bound: Bound, s: State, t: Tid, event: Event, s': State)
    requires s.lock == Some(t) && t in s.threads && event != Proceed(t)
    requires event.Proceed? && event.t in s.threads ==> !InSection(s.threads[event.t])
    requires Step(bound, s, event) == Ok(s')
    ensures s'.lock == Some(t) && t in s'.threads && s'.threads[t] == s.threads[t] && s'.ops == s.ops
  {
    if !event.Proceed? {
      StartOfOther(bound, s, event, s');
    } else if event.t in s.threads {
      ProceedOfOther(bound, s, event.t, s');
    }
    hide Step, StepThread, StepCallback, StepFetch, StepReply, StepBeat;
    if s' != s {
      assert event.t != t;
      assert t in s.threads - {event.t} && (s.threads - {event.t})[t] == (s'.threads - {event.t})[t];
    }
  }

  /** No other thread can take the lock from its holder, or make it wait. */
  lemma OthersWait(bound: Bound, events: seq<Event>, t: Tid, event: Event)
    requires After(bound, events).lock == Some(t) && event != Proceed(t)
    ensures var s, s' := After(bound, events), After(bound, events + [event]);
            s'.lock == Some(t) && t in s.threads && t in s'.threads && s'.threads[t] == s.threads[t] && s'.ops == s.ops
  {
    hide Inv, Step;
    var s := After(bound, events);
    AfterInv(bound, events);
    HolderInSection(bound, s, t);
    if event.Proceed? {
      HolderInSection(bound, s, event.t);
    }
    RunSnoc(bound, events, event);
    StepOfOther(bound, s, t, event, After(bound, events + [event]));
  }

  lemma HolderAdvances(bound: Bound, s: State, t: Tid)
    requires Inv(bound, s) && s.lock == Some(t)
    ensures t in s.threads && StepsLeft(s.threads[t]) > 0
    ensures var o := StepThread(bound, s, t); o.Ok? ==> Advanced(s, o.state, t)
  {
    hide Inv;
    HolderInSection(bound, s, t);
    hide StepCallback, StepFetch;
    var o := StepThread(bound, s, t);
    if o.Ok? {
      if s.threads[t].AddLocked? || s.threads[t].Adding? {
        AddAdvances(bound, s, t, o.state);
      } else {
        GetAdvances(bound, s, t, o.state);
      }
    }
  }

  /** How many of the events are steps of thread `t`. */
  function StepsOf(t: Tid, events: seq<Event>): nat {
    if events == [] then 0 else StepsOf(t, events[1..]) + if events[0] == Proceed(t) then 1 else 0
  }

  /** Thread `t` holds the lock after the run, and has at most `left` steps to go in its critical section. */
  ghost predicate HoldsFor(bound: Bound, events: seq<Event>, t: Tid, left: nat) {
    var s := After(bound, events);
    s.lock == Some(t) && t in s.threads && 0 < StepsLeft(s.threads[t]) <= left
  }

  lemma OwnStep(bound: Bound, events: seq<Event>, t: Tid, left: nat)
    requires HoldsFor(bound, events, t, left)
    ensures After(bound, events + [Proceed(t)]).lock == None || HoldsFor(bound, events + [Proceed(t)], t, left - 1)
  {
    hide Inv, StepThread, StepsLeft;
    AfterInv(bound, events);
    RunSnoc(bound, events, Proceed(t));
    HolderAdvances(bound, After(bound, events), t);
    if After(bound, events + [Proceed(t)]).lock != None {
      AfterInv(bound, events + [Proceed(t)]);
      HolderAdvances(bound, After(bound, events + [Proceed(t)]), t);
    }
  }

  /** One more event: the lock is free, or its holder has one step less to go if the step was its own. */
  lemma HoldStep(bound: Bound, events: seq<Event>, t: Tid, left: nat, event: Event)
    requires HoldsFor(bound, events, t, left)
    ensures || After(bound, events + [event]).lock == None
            || HoldsFor(bound, events + [event], t, if event == Proceed(t) then left - 1 else left)
  {
    if event == Proceed(t) {
      OwnStep(bound, events, t, left);
    } else {
      OthersWait(bound, events, t, event);
    }
  }

  lemma HoldsNeed(bound: Bound, events: seq<Event>, t: Tid, left: nat)
    requires HoldsFor(bound, events, t, left)
    ensures left > 0
  {
  }

  lemma {:induction false} HolderReleases(bound: Bound, events: seq<Event>, t: Tid, left: nat, more: seq<Event>) returns (k: nat)
    requires HoldsFor(bound, events, t, left) && left <= StepsOf(t, more)
    ensures k <= |more| && After(bound, events + more[..k]).lock == None
    decreases |more|
  {
    hide HoldsFor;
    HoldsNeed(bound, events, t, left);
    var next := events + [more[0]];
    HoldStep(bound, events, t, left, more[0]);
    if After(bound, next).lock == None {
      k := 1;
      assert more[..1] == [more[0]];
    } else {
      k := HolderReleases(bound, next, t, if more[0] == Proceed(t) then left - 1 else left, more[1..]);
      assert next + more[1..][..k] == events + more[..k + 1];
      k := k + 1;
    }
  }

  /**
   The lock is always released: whatever the other threads do meanwhile, once the holder has made
   `HOLD_LIMIT` steps of its own, the lock has been free.
   */
  lemma LockIsReleased(bound: Bound, events: seq<Event>, t: Tid, more: seq<Event>) returns (k: nat)
    requires After(bound, events).lock == Some(t) && HOLD_LIMIT <= StepsOf(t, more)
    ensures k <= |more| && After(bound, events + more[..k]).lock == None
  {
    HolderLimit(bound, events, t);
    k := HolderReleases(bound, events, t, HOLD_LIMIT, more);
  }

  lemma HolderLimit(bound: Bound, events: seq<Event>, t: Tid)
    requires After(bound, events).lock == Some(t)
    ensures HoldsFor(bound, events, t, HOLD_LIMIT)
  {
    AfterInv(bound, events);
    HolderInSection(bound, After(bound, events), t);
    assert ThreadOK(bound, After(bound, events), t);
  }

  function EntryOf(p: Phase): Option<Entry> {
    match p
    case Allocating(e, _) => Some(e)
    case Linked(e) => Some(e)
    case AddLocked(e) => Some(e)
    case Adding(e, _, _) => Some(e)
    case Added(e) => Some(e)
    case _ => None
  }

  ghost predicate Guarded(p: Phase) {
    EntryOf(p).Some? ==> Accepts(EntryOf(p).value.uCase, EntryOf(p).value.obj)
  }

  ghost predicate AllGuarded(s: State) {
    && (forall t :: t in s.threads ==> Guarded(s.threads[t]))
    && (forall e :: e in Fifo.Accepted(s.ops) ==> Accepts(e.uCase, e.obj))
  }

  lemma GuardedAfter(s: State, s': State, t: Tid)
    requires AllGuarded(s) && s'.threads - {t} == s.threads - {t}
    requires t in s'.threads ==> Guarded(s'.threads[t])
    requires forall e :: e in Fifo.Accepted(s'.ops) ==> e in Fifo.Accepted(s.ops) || Accepts(e.uCase, e.obj)
    ensures AllGuarded(s')
  {
    forall u | u in s'.threads
      ensures Guarded(s'.threads[u])
    {
      if u != t {
        assert u in s'.threads - {t} && s'.threads[u] == (s'.threads - {t})[u] == s.threads[u];
      }
    }
  }

  /** A callback's step keeps its entry, and logs no other. */
  lemma CallbackEntry(bound: Bound, s: State, t: Tid)
    requires t in s.threads && EntryOf(s.threads[t]).Some?
    ensures var e, o := EntryOf(s.threads[t]).value, StepCallback(bound, s, t);
            o.Ok? ==>
              && o.state.threads - {t} == s.threads - {t}
              && (t in o.state.threads ==> EntryOf(o.state.threads[t]) == Some(e))
              && (o.state.ops == s.ops || o.state.ops == s.ops + [Fifo.Add(e)])
  {
  }

  lemma CallbackGuarded(bound: Bound, s: State, t: Tid)
    requires AllGuarded(s) && t in s.threads
    ensures var o := StepCallback(bound, s, t); o.Ok? ==> AllGuarded(o.state)
  {
    var p, o := s.threads[t], StepCallback(bound, s, t);
    if EntryOf(p).Some? && o.Ok? {
      assert Guarded(p);
      CallbackEntry(bound, s, t);
      AcceptedSnoc(s.ops, Fifo.Add(EntryOf(p).value));
      hide StepCallback;
      GuardedAfter(s, o.state, t);
    }
  }

  lemma GetChanges(s: State, t: Tid, ticket: nat, saved: Option<Addr>, todo: Program, index: nat)
    requires t in s.threads
    ensures var o := StepGet(s, t, ticket, saved, todo, index);
            o.Ok? ==> o.state.threads - {t} == s.threads - {t} && o.state.ops == s.ops
                      && t in o.state.threads && EntryOf(o.state.threads[t]) == None
  {
  }

  lemma FetchGuarded(bound: Bound, s: State, t: Tid)
    requires AllGuarded(s) && t in s.threads
    ensures var o := StepFetch(bound, s, t); o.Ok? ==> AllGuarded(o.state)
  {
    var o := StepFetch(bound, s, t);
    match s.threads[t] {
      case PollStart =>
        AcceptedSnoc(s.ops, Fifo.Poll);
        GuardedAfter(s, o.state, t);
      case GetLocked(_) =>
        GuardedAfter(s, o.state, t);
      case Getting(ticket, saved, todo) =>
        GetChanges(s, t, ticket, saved, todo, LastRetired(bound, s.ops));
        if o.Ok? {
          GuardedAfter(s, o.state, t);
        }
      case _ =>
    }
  }

  lemma ReplyGuarded(s: State, t: Tid)
    requires AllGuarded(s) && t in s.threads
    ensures var o := StepReply(s, t); o.Ok? ==> AllGuarded(o.state)
  {
  }

  lemma StepGuarded(bound: Bound, s: State, event: Event)
    requires AllGuarded(s)
    ensures var o := Step(bound, s, event); o.Ok? ==> AllGuarded(o.state)
  {
    if event.Proceed? && event.t in s.threads {
      CallbackGuarded(bound, s, event.t);
      FetchGuarded(bound, s, event.t);
      ReplyGuarded(s, event.t);
    }
  }

  /** Every indication in the queue's history was accepted by the guard of its callback. */
  lemma {:induction false} GuardsHold(bound: Bound, events: seq<Event>)
    ensures AllGuarded(After(bound, events))
  {
    if events != [] {
      var before := events[..|events| - 1];
      GuardsHold(bound, before);
      StepGuarded(bound, After(bound, before), events[|events| - 1]);
    }
  }

  /** Only objects for which the callback has been subscribed get into the queue. */
  lemma OnlySubscribed(bound: Bound, events: seq<Event>, e: Entry)
    requires e in Fifo.Accepted(After(bound, events).ops)
    ensures Subscribed(e.uCase, e.obj)
  {
    GuardsHold(bound, events);
    GuardIsSubscription(e.uCase, e.obj);
  }

  /** The guards are disjoint: no object is accepted by two callbacks. */
  lemma GuardsDisjoint(u: UCase, v: UCase, obj: BalObject)
    ensures Accepts(u, obj) && Accepts(v, obj) ==> u == v
  {
  }
}

/** What heartbeats report, when they overlap with callbacks and with each other. */
module DriverHeartbeats {
  import opened Common
  import opened Callbacks
  import opened Indications
  import opened CriticalSection
  import opened Driver
  import opened DriverInvariant
  import opened DriverTheorems
  import Fifo

  /** The step that sets the reboot state: the end of a callback for a state change of the access terminal. */
  predicate Activating(s: State, event: Event) {
    event.Proceed? && event.t in s.threads && s.threads[event.t].Added? && s.threads[event.t].entry.uCase == AccessTermIndOpState
  }

  /** The step in which a heartbeat reads the reboot state. */
  predicate Reading(s: State, event: Event) {
    event.Proceed? && event.t in s.threads && s.threads[event.t].BeatStart?
  }

  /** The step in which a heartbeat writes its reply. */
  predicate Replying(s: State, event: Event) {
    event.Proceed? && event.t in s.threads && s.threads[event.t].BeatRead?
  }

  /** A step that is not one of a heartbeat. */
  ghost predicate NoBeat(s: State, s': State, t: Tid) {
    && s'.readings == s.readings && s'.beats == s.beats && s'.threads - {t} == s.threads - {t}
    && (t in s'.threads ==> !s'.threads[t].BeatRead?)
  }

  lemma AddReboot(s: State, t: Tid, e: Entry, saved: Option<Addr>, todo: Program, index: nat, s': State)
    requires t in s.threads && StepAdd(s, t, e, saved, todo, index) == Ok(s')
    ensures NoBeat(s, s', t) && s'.isReboot == s.isReboot
  {
    hide Exec;
  }

  lemma CallbackReboot(bound: Bound, s: State, t: Tid, s': State)
    requires t in s.threads && StepCallback(bound, s, t) == Ok(s') && !s.threads[t].BeatRead?
    ensures NoBeat(s, s', t)
    ensures s'.isReboot == if Activating(s, Proceed(t)) then UpAfterActivation else s.isReboot
  {
    match s.threads[t] {
      case Adding(e, saved, todo) => AddReboot(s, t, e, saved, todo, LastRetired(bound, s.ops), s');
      case _ =>
    }
  }

  lemma FetchReboot(bound: Bound, s: State, t: Tid, s': State)
    requires t in s.threads && StepFetch(bound, s, t) == Ok(s') && !s.threads[t].BeatRead?
    ensures NoBeat(s, s', t) && s'.isReboot == s.isReboot
  {
  }

  lemma ReplyReboot(s: State, t: Tid, s': State)
    requires t in s.threads && StepReply(s, t) == Ok(s') && !s.threads[t].BeatRead?
    ensures NoBeat(s, s', t) && s'.isReboot == s.isReboot
  {
  }

  lemma StartReboot(bound: Bound, s: State, event: Event, s': State)
    requires !event.Proceed? && Step(bound, s, event) == Ok(s')
    ensures (s' == s || NoBeat(s, s', event.t)) && s'.isReboot == s.isReboot
  {
  }

  lemma ProceedReboot(bound: Bound, s: State, t: Tid, s': State)
    requires t in s.threads && !s.threads[t].BeatStart? && !s.threads[t].BeatRead? && StepThread(bound, s, t) == Ok(s')
    ensures NoBeat(s, s', t)
    ensures s'.isReboot == if Activating(s, Proceed(t)) then UpAfterActivation else s.isReboot
  {
    var p := s.threads[t];
    if p.Allocating? || p.Linked? || p.AddLocked? || p.Adding? || p.Added? {
      CallbackReboot(bound, s, t, s');
    } else if p.PollStart? || p.GetLocked? || p.Getting? {
      FetchReboot(bound, s, t, s');
    } else {
      ReplyReboot(s, t, s');
    }
  }

  /** What one step does to the reboot state, to what has been read of it, and to the replies. */
  lemma StepReboot(bound: Bound, s: State, event: Event, s': State)
    requires Step(bound, s, event) == Ok(s')
    ensures s'.isReboot == if Activating(s, event) then UpAfterActivation else s.isReboot
    ensures s'.readings == s.readings + if Reading(s, event) then [s.isReboot] else []
    ensures s'.beats == s.beats + if Replying(s, event) then [Beat(s.threads[event.t].number, s.threads[event.t].status)] else []
    ensures forall t: Tid, n: nat, status :: HasRead(s', t, n, status) ==> HasRead(s, t, n, status) || n == |s.readings|
  {
    if !event.Proceed? {
      StartReboot(bound, s, event, s');
      OthersRead(s, s', event.t);
    } else if event.t in s.threads {
      if !Reading(s, event) && !Replying(s, event) {
        ProceedReboot(bound, s, event.t, s');
      }
      OthersRead(s, s', event.t);
    }
  }

  /** A heartbeat on thread `t` has read `status` and not replied yet. */
  ghost predicate HasRead(s: State, t: Tid, number: nat, status: RebootStatus) {
    t in s.threads && s.threads[t] == BeatRead(number, status)
  }

  lemma OthersRead(s: State, s': State, t: Tid)
    requires s'.threads - {t} == s.threads - {t}
    ensures forall u: Tid, n: nat, status :: u != t && HasRead(s', u, n, status) ==> HasRead(s, u, n, status)
  {
    forall u: Tid, n: nat, status | u != t && HasRead(s', u, n, status)
      ensures HasRead(s, u, n, status)
    {
      assert u in s'.threads - {t} && (s'.threads - {t})[u] == s'.threads[u];
    }
  }

  ghost predicate Activates(bound: Bound, events: seq<Event>, k: nat)
    requires k < |events|
  {
    Activating(After(bound, events[..k]), events[k])
  }

  /** The reboot state is up exactly if a callback for the access terminal has come to its end. */
  lemma {:induction false} ActivatedIff(bound: Bound, events: seq<Event>)
    ensures After(bound, events).isReboot == UpAfterActivation <==> exists k: nat :: k < |events| && Activates(bound, events, k)
  {
    if events == [] {
    } else {
      var last := |events| - 1;
      var before := events[..last];
      ActivatedIff(bound, before);
      assert before + [events[last]] == events;
      RunSnoc(bound, before, events[last]);
      StepReboot(bound, After(bound, before), events[last], After(bound, events));
      assert Activates(bound, events, last) == Activating(After(bound, before), events[last]);
      forall k: nat | k < last
        ensures Activates(bound, events, k) == Activates(bound, before, k)
      {
        assert before[..k] == events[..k];
      }
    }
  }

  /** The `k`-th event of the run is the one in which heartbeat number `n` reads the reboot state. */
  ghost predicate ReadsAt(bound: Bound, events: seq<Event>, n: nat, k: nat) {
    && k < |events|
    && Reading(After(bound, events[..k]), events[k])
    && |After(bound, events[..k]).readings| == n
  }

  lemma {:induction false} ReadOnce(bound: Bound, events: seq<Event>, n: nat) returns (k: nat)
    requires n < |After(bound, events).readings|
    ensures ReadsAt(bound, events, n, k) && After(bound, events).readings[n] == After(bound, events[..k]).isReboot
  {
    var last := |events| - 1;
    var before := events[..last];
    assert before + [events[last]] == events;
    RunSnoc(bound, before, events[last]);
    StepReboot(bound, After(bound, before), events[last], After(bound, events));
    if n < |After(bound, before).readings| {
      k := ReadOnce(bound, before, n);
      assert before[..k] == events[..k];
    } else {
      k := last;
    }
  }

  /** What replies carry, and that readings never go back. */
  lemma BeatsAfter(bound: Bound, events: seq<Event>)
    ensures RebootOK(After(bound, events))
  {
    hide Inv, RebootOK;
    AfterInv(bound, events);
    InvLog(bound, After(bound, events));
  }

  /**
   What a heartbeat replies, exactly: it reports the up-after-activation state if and only if a
   callback for a state change of the access terminal had come to its end before the heartbeat read
   the state; the queue had then accepted that indication.
   */
  lemma HeartbeatReplyIff(bound: Bound, events: seq<Event>, j: nat) returns (k: nat)
    requires j < |After(bound, events).beats|
    ensures var b := After(bound, events).beats[j];
            && ReadsAt(bound, events, b.number, k)
            && (b.status == UpAfterActivation <==> exists i: nat :: i < k && Activates(bound, events, i))
            && (b.status == UpAfterActivation ==>
                  exists e :: e in Fifo.Accepted(After(bound, events[..k]).ops) && e.uCase == AccessTermIndOpState)
  {
    BeatsAfter(bound, events);
    k := ReadOnce(bound, events, After(bound, events).beats[j].number);
    var before := events[..k];
    BeatsAfter(bound, before);
    ActivatedIff(bound, before);
    hide After;
    forall i: nat | i < k
      ensures Activates(bound, events, i) == Activates(bound, before, i)
    {
      assert before[..i] == events[..i];
    }
  }

  /** In the order in which heartbeats read the state, none goes back. */
  lemma HeartbeatsInReadOrder(bound: Bound, events: seq<Event>, i: nat, j: nat)
    requires i < |After(bound, events).beats| && j < |After(bound, events).beats|
    ensures var beats := After(bound, events).beats;
            beats[i].number <= beats[j].number && beats[i].status == UpAfterActivation ==> beats[j].status == UpAfterActivation
  {
    BeatsAfter(bound, events);
  }

  /** Whatever a heartbeat has in hand or replies later was read later, or was in hand before. */
  lemma {:induction false} BeatsFollow(bound: Bound, events: seq<Event>, more: seq<Event>)
    ensures var s, s' := After(bound, events), After(bound, events + more);
            && |s.readings| <= |s'.readings| && |s.beats| <= |s'.beats|
            && (forall t: Tid, n: nat, status :: HasRead(s', t, n, status) ==> HasRead(s, t, n, status) || n >= |s.readings|)
            && (forall j :: |s.beats| <= j < |s'.beats| ==>
                  (exists t :: HasRead(s, t, s'.beats[j].number, s'.beats[j].status)) || s'.beats[j].number >= |s.readings|)
  {
    if more == [] {
      assert events + more == events;
    } else {
      var last := |more| - 1;
      var before := more[..last];
      BeatsFollow(bound, events, before);
      assert events + more == (events + before) + [more[last]];
      RunSnoc(bound, events + before, more[last]);
      StepReboot(bound, After(bound, events + before), more[last], After(bound, events + more));
      var s0, e := After(bound, events + before), more[last];
      assert Replying(s0, e) ==> HasRead(s0, e.t, s0.threads[e.t].number, s0.threads[e.t].status);
    }
  }

  lemma HeldReading(bound: Bound, events: seq<Event>, t: Tid, number: nat, status: RebootStatus)
    requires HasRead(After(bound, events), t, number, status)
    ensures var readings := After(bound, events).readings; number < |readings| && readings[number] == status
  {
    hide Inv;
    AfterInv(bound, events);
    InvThread(bound, After(bound, events), t);
  }

  /**
   Once a heartbeat has reported the up-after-activation state, a later reply reports the earlier
   state if and only if its heartbeat had read it already.  So all heartbeats that start after
   such a reply report the same.
   */
  lemma LaterHeartbeatsIff(bound: Bound, events: seq<Event>, more: seq<Event>, i: nat, j: nat)
    requires i < |After(bound, events).beats| && After(bound, events).beats[i].status == UpAfterActivation
    requires |After(bound, events).beats| <= j < |After(bound, events + more).beats|
    ensures var s, b := After(bound, events), After(bound, events + more).beats[j];
            b.status == NotReported <==> exists t :: HasRead(s, t, b.number, NotReported)
  {
    hide Inv;
    var s, s' := After(bound, events), After(bound, events + more);
    BeatsAfter(bound, events);
    BeatsAfter(bound, events + more);
    BeatsFollow(bound, events, more);
    ReadingsGrow(bound, events, more);
    hide After;
    if exists t :: HasRead(s, t, s'.beats[j].number, NotReported) {
      var t :| HasRead(s, t, s'.beats[j].number, NotReported);
      HeldReading(bound, events, t, s'.beats[j].number, NotReported);
    }
  }

  lemma {:induction false} ReadingsGrow(bound: Bound, events: seq<Event>, more: seq<Event>)
    ensures After(bound, events).readings <= After(bound, events + more).readings
  {
    if more == [] {
      assert events + more == events;
    } else {
      var last := |more| - 1;
      ReadingsGrow(bound, events, more[..last]);
      assert events + more == (events + more[..last]) + [more[last]];
      RunSnoc(bound, events + more[..last], more[last]);
      StepReboot(bound, After(bound, events + more[..last]), more[last], After(bound, events + more));
    }
  }
}

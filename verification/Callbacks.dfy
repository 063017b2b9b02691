/** The indication callbacks: which objects they accept, and how they build their messages. */
module Callbacks {
  import opened Common
  import opened Indications
  import opened SerialNumbers

  datatype ObjType = AccessTerminal | Flow | Interface | SubscriberTerminal | Packet | TmSched

  datatype Subgroup =
    | OperStatusChange | ProcessingError | Los | SubTermDisc | SubTermAlarm | DgiInd | DowiInd | LoociInd
    | SdiInd | SfiInd | SufiInd | SubTermActFail | TiwiInd | BearerChannelRx | ItuOmciChannelRx | IeeeOamChannelRx

  /** What BAL hands to a callback, as far as the callback's control flow and the serial number go. */
  datatype BalObject = BalObject(objType: ObjType, subgroup: Subgroup, dest: DestType, serial: Serial)

  /** The object type and subgroup that the callback for messages of kind `u` insists on. */
  function Expects(u: UCase): (ObjType, Subgroup) {
    match u
    case AccessTermIndOpState => (AccessTerminal, OperStatusChange)
    case AccessTermProcErr => (AccessTerminal, ProcessingError)
    case FlowOpState => (Flow, OperStatusChange)
    case FlowProcErr => (Flow, ProcessingError)
    case InterfaceOpState => (Interface, OperStatusChange)
    case InterfaceLos => (Interface, Los)
    case TerminalOpState => (SubscriberTerminal, OperStatusChange)
    case TerminalDisc => (SubscriberTerminal, SubTermDisc)
    case TerminalAlarm => (SubscriberTerminal, SubTermAlarm)
    case TerminalDgi => (SubscriberTerminal, DgiInd)
    case TerminalDowi => (SubscriberTerminal, DowiInd)
    case TerminalLooci => (SubscriberTerminal, LoociInd)
    case TerminalProcErr => (SubscriberTerminal, ProcessingError)
    case TerminalSdi => (SubscriberTerminal, SdiInd)
    case TerminalSfi => (SubscriberTerminal, SfiInd)
    case TerminalSufi => (SubscriberTerminal, SufiInd)
    case TerminalSubTermActFail => (SubscriberTerminal, SubTermActFail)
    case TerminalTiwi => (SubscriberTerminal, TiwiInd)
    case TmSchedOperStatsChange => (TmSched, OperStatusChange)
    case PktData => (Packet, BearerChannelRx)
    case BalOmciResp => (Packet, ItuOmciChannelRx)
  }

  predicate Accepts(u: UCase, obj: BalObject) {
    Expects(u) == (obj.objType, obj.subgroup)
  }

  /** A subscription with BAL: which callback is to be called for which objects. */
  datatype Subscription = Subscription(objType: ObjType, subgroup: Subgroup, callback: UCase)

  /** The subscriptions, in the order in which the driver makes them. */
  const SUBSCRIPTIONS: seq<Subscription> := [
    Subscription(AccessTerminal, OperStatusChange, AccessTermIndOpState),
    Subscription(AccessTerminal, ProcessingError, AccessTermProcErr),
    Subscription(Flow, OperStatusChange, FlowOpState),
    Subscription(Flow, ProcessingError, FlowProcErr),
    Subscription(Interface, Los, InterfaceLos),
    Subscription(Interface, OperStatusChange, InterfaceOpState),
    Subscription(Packet, ItuOmciChannelRx, BalOmciResp),
    Subscription(Packet, BearerChannelRx, PktData),
    Subscription(SubscriberTerminal, DgiInd, TerminalDgi),
    Subscription(SubscriberTerminal, DowiInd, TerminalDowi),
    Subscription(SubscriberTerminal, LoociInd, TerminalLooci),
    Subscription(SubscriberTerminal, OperStatusChange, TerminalOpState),
    Subscription(SubscriberTerminal, ProcessingError, TerminalProcErr),
    Subscription(SubscriberTerminal, SdiInd, TerminalSdi),
    Subscription(SubscriberTerminal, SfiInd, TerminalSfi),
    Subscription(SubscriberTerminal, SubTermActFail, TerminalSubTermActFail),
    Subscription(SubscriberTerminal, SubTermAlarm, TerminalAlarm),
    Subscription(SubscriberTerminal, SubTermDisc, TerminalDisc),
    Subscription(SubscriberTerminal, SufiInd, TerminalSufi),
    Subscription(SubscriberTerminal, TiwiInd, TerminalTiwi),
    Subscription(TmSched, OperStatusChange, TmSchedOperStatsChange)]

  /** BAL has been asked to call the callback for messages of kind `u` for this object. */
  predicate Subscribed(u: UCase, obj: BalObject) {
    Subscription(obj.objType, obj.subgroup, u) in SUBSCRIPTIONS
  }

  /** The place of a callback's subscription in the order of the subscriptions. */
  function Place(u: UCase): (i: nat)
    ensures i < 21
  {
    match u
    case AccessTermIndOpState => 0
    case AccessTermProcErr => 1
    case FlowOpState => 2
    case FlowProcErr => 3
    case InterfaceLos => 4
    case InterfaceOpState => 5
    case BalOmciResp => 6
    case PktData => 7
    case TerminalDgi => 8
    case TerminalDowi => 9
    case TerminalLooci => 10
    case TerminalOpState => 11
    case TerminalProcErr => 12
    case TerminalSdi => 13
    case TerminalSfi => 14
    case TerminalSubTermActFail => 15
    case TerminalAlarm => 16
    case TerminalDisc => 17
    case TerminalSufi => 18
    case TerminalTiwi => 19
    case TmSchedOperStatsChange => 20
  }

  lemma FirstPlaces(u: UCase)
    ensures Place(u) < 11 ==> SUBSCRIPTIONS[Place(u)] == Subscription(Expects(u).0, Expects(u).1, u)
  {
  }

  lemma LastPlaces(u: UCase)
    ensures |SUBSCRIPTIONS| == 21
    ensures Place(u) >= 11 ==> SUBSCRIPTIONS[Place(u)] == Subscription(Expects(u).0, Expects(u).1, u)
  {
  }

  lemma PlacesBack(i: nat)
    requires i < |SUBSCRIPTIONS|
    ensures Place(SUBSCRIPTIONS[i].callback) == i
  {
    if i == 0 {
    } else if i == 1 {
    } else if i == 2 {
    } else if i == 3 {
    } else if i == 4 {
    } else if i == 5 {
    } else if i == 6 {
    } else if i == 7 {
    } else if i == 8 {
    } else if i == 9 {
    } else if i == 10 {
    } else if i == 11 {
    } else if i == 12 {
    } else if i == 13 {
    } else if i == 14 {
    } else if i == 15 {
    } else if i == 16 {
    } else if i == 17 {
    } else if i == 18 {
    } else if i == 19 {
    } else {
      assert i == 20;
    }
  }

  /** The two tables agree: a callback's guard accepts exactly the objects for which it has been subscribed. */
  lemma GuardIsSubscription(u: UCase, obj: BalObject)
    ensures Accepts(u, obj) <==> Subscribed(u, obj)
  {
    FirstPlaces(u);
    LastPlaces(u);
    hide SUBSCRIPTIONS, Place, Expects;
    if Subscribed(u, obj) {
      var i :| 0 <= i < |SUBSCRIPTIONS| && SUBSCRIPTIONS[i] == Subscription(obj.objType, obj.subgroup, u);
      PlacesBack(i);
    }
  }

  /** No object is subscribed for twice, and no callback is subscribed twice. */
  lemma SubscriptionsDisjoint(i: nat, j: nat)
    requires i < |SUBSCRIPTIONS| && j < |SUBSCRIPTIONS| && i != j
    ensures var s, r := SUBSCRIPTIONS[i], SUBSCRIPTIONS[j];
            s.callback != r.callback && (s.objType != r.objType || s.subgroup != r.subgroup)
  {
    PlacesBack(i);
    PlacesBack(j);
    var u, v := SUBSCRIPTIONS[i].callback, SUBSCRIPTIONS[j].callback;
    FirstPlaces(u);
    LastPlaces(u);
    FirstPlaces(v);
    LastPlaces(v);
    hide SUBSCRIPTIONS, Place;
    ExpectationsDiffer(u, v);
  }

  lemma ExpectationsDiffer(u: UCase, v: UCase)
    ensures Expects(u) == Expects(v) ==> u == v
  {
  }

  /** The message a callback fills in.  Only a discovery message has serial number texts. */
  function MessageFor(u: UCase, obj: BalObject): Message {
    if u == TerminalDisc then Message(u, obj.dest, VendorText(obj.serial), SpecificText(obj.serial))
    else Message(u, obj.dest, "", "")
  }

  /** The packet destination, with a detail block for the destination types the callback knows. */
  method MallocDest(ind: BalIndications, detail: bool)
    requires Dest !in ind.blocks && DestDetail !in ind.blocks && PathLive(Dest, ind.blocks)
    modifies ind`blocks, ind`mallocs
    ensures ind.blocks == old(ind.blocks) + if detail then {Dest, DestDetail} else {Dest}
    ensures ind.mallocs == old(ind.mallocs) + if detail then [Dest, DestDetail] else [Dest]
  {
    ind.Malloc(Dest);
    if detail {
      ind.Malloc(DestDetail);
    }
  }

  /** The beginning of every message. */
  method Begin(u: UCase, d: DestType) returns (ind: BalIndications)
    ensures fresh(ind) && ind.Content() == Message(u, d, "", "") && ind.frees == []
    ensures ind.blocks == {Root, Payload, Key} && ind.mallocs == [Root, Payload, Key]
  {
    ind := new BalIndications(u, d);
    ind.Malloc(Payload);
    ind.Malloc(Key);
  }

  /** The callbacks for processing errors. */
  method BuildProcessingError(u: UCase, obj: BalObject) returns (ind: BalIndications)
    requires IsProcessingError(u)
    ensures fresh(ind) && ind.Content() == MessageFor(u, obj) && ind.Complete()
    ensures ind.uCase == u && ind.dest == obj.dest
  {
    ind := Begin(u, obj.dest);
  }

  /** The callbacks for status changes and for loss-of-signal and terminal conditions. */
  method BuildKeyAndData(u: UCase, obj: BalObject) returns (ind: BalIndications)
    requires IsKeyAndData(u)
    ensures fresh(ind) && ind.Content() == MessageFor(u, obj) && ind.Complete()
    ensures ind.uCase == u && ind.dest == obj.dest
  {
    ind := Begin(u, obj.dest);
    ind.Malloc(Data);
  }

  /** The callback for a discovered terminal. */
  method BuildDiscovery(obj: BalObject) returns (ind: BalIndications)
    ensures fresh(ind) && ind.Content() == MessageFor(TerminalDisc, obj) && ind.Complete()
    ensures ind.uCase == TerminalDisc && ind.dest == obj.dest
    ensures ind.vendorId == VendorText(obj.serial) && ind.vendorSpecific == SpecificText(obj.serial)
  {
    DiscoveryRows(obj.dest);
    hide AllocOrder, Allocated, VendorText, SpecificText;
    ind := Begin(TerminalDisc, obj.dest);
    ind.Malloc(Data);
    ind.Malloc(SerialNumber);
    ind.Malloc(VendorId);
    ind.vendorId := VendorText(obj.serial);
    ind.Malloc(VendorSpecific);
    ind.vendorSpecific := SpecificText(obj.serial);
    assert ind.mallocs == AllocOrder(TerminalDisc, obj.dest);
  }

  /** The callback for terminal alarms. */
  method BuildAlarm(obj: BalObject) returns (ind: BalIndications)
    ensures fresh(ind) && ind.Content() == MessageFor(TerminalAlarm, obj) && ind.Complete()
    ensures ind.uCase == TerminalAlarm && ind.dest == obj.dest && Alarm in ind.blocks
  {
    ind := Begin(TerminalAlarm, obj.dest);
    ind.Malloc(Data);
    ind.Malloc(Alarm);
  }

  /** The callback for packets from the bearer channel. */
  method BuildPacket(obj: BalObject) returns (ind: BalIndications)
    ensures fresh(ind) && ind.Content() == MessageFor(PktData, obj) && ind.Complete()
    ensures ind.uCase == PktData && ind.dest == obj.dest
    ensures DestDetail in ind.blocks <==> obj.dest == Nni || obj.dest == SubTerm || obj.dest == SvcPort
  {
    PacketRows(obj.dest);
    hide AllocOrder, HasPacketDetail, Allocated;
    ind := Begin(PktData, obj.dest);
    MallocDest(ind, HasPacketDetail(obj.dest));
    ind.Malloc(Data);
    ind.Malloc(Pkt);
    assert ind.mallocs == AllocOrder(PktData, obj.dest);
  }

  /** The callback for OMCI responses. */
  method BuildOmciResponse(obj: BalObject) returns (ind: BalIndications)
    ensures fresh(ind) && ind.Content() == MessageFor(BalOmciResp, obj) && ind.Complete()
    ensures ind.uCase == BalOmciResp && ind.dest == obj.dest && (DestDetail in ind.blocks <==> obj.dest == ItuOmciChannel)
  {
    OmciRows(obj.dest);
    hide AllocOrder, Allocated;
    ind := Begin(BalOmciResp, obj.dest);
    ind.Malloc(Data);
    ind.Malloc(Pkt);
    MallocDest(ind, obj.dest.ItuOmciChannel?);
    assert ind.mallocs == AllocOrder(BalOmciResp, obj.dest);
  }

  /** The message-building part of the callback for messages of kind `u`. */
  method Build(u: UCase, obj: BalObject) returns (ind: BalIndications)
    ensures fresh(ind) && ind.Content() == MessageFor(u, obj) && ind.Complete()
    ensures ind.uCase == u && ind.dest == obj.dest
  {
    match u {
      case AccessTermProcErr | FlowProcErr | TerminalProcErr => ind := BuildProcessingError(u, obj);
      case TerminalDisc => ind := BuildDiscovery(obj);
      case TerminalAlarm => ind := BuildAlarm(obj);
      case PktData => ind := BuildPacket(obj);
      case BalOmciResp => ind := BuildOmciResponse(obj);
      case _ => ind := BuildKeyAndData(u, obj);
    }
  }
}

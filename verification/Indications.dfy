/**
 The indication messages: which heap blocks each callback allocates for its message, and which
 blocks the release routine gives back.  The two tables follow two different source files.
 */
module Indications {
  import opened Common

  /** The message kinds whose callbacks are registered with BAL. */
  datatype UCase =
    | AccessTermIndOpState | AccessTermProcErr
    | FlowOpState | FlowProcErr
    | InterfaceOpState | InterfaceLos
    | TerminalOpState | TerminalDisc | TerminalAlarm | TerminalDgi | TerminalDowi
    | TerminalLooci | TerminalProcErr | TerminalSdi | TerminalSfi | TerminalSufi
    | TerminalSubTermActFail | TerminalTiwi
    | TmSchedOperStatsChange
    | PktData | BalOmciResp

  datatype DestType = Nni | SubTerm | SvcPort | ItuOmciChannel | OtherDest

  /** The content of a message: its kind, the destination of a packet, and the texts of a discovery. */
  datatype Message = Message(uCase: UCase, dest: DestType, vendorId: string, vendorSpecific: string)

  /** The blocks one message can consist of, named by the pointer that leads to them. */
  datatype Part =
    | Root | Payload | Key | Data
    | Alarm | SerialNumber | VendorId | VendorSpecific
    | Dest | DestDetail | Pkt

  /** The blocks that are dereferenced on the way from the message to block `p`. */
  function Ancestors(p: Part): set<Part> {
    match p
    case Root => {}
    case Payload => {Root}
    case Key | Data => {Root, Payload}
    case Alarm | SerialNumber | Pkt => {Root, Payload, Data}
    case VendorId | VendorSpecific => {Root, Payload, Data, SerialNumber}
    case Dest => {Root, Payload, Key}
    case DestDetail => {Root, Payload, Key, Dest}
  }

  /** Whether block `p` can be reached by dereferencing blocks of `blocks` only. */
  predicate PathLive(p: Part, blocks: set<Part>) {
    match p
    case Root => true
    case Payload => Root in blocks
    case Key | Data => Root in blocks && Payload in blocks
    case Alarm | SerialNumber | Pkt => Root in blocks && Payload in blocks && Data in blocks
    case VendorId | VendorSpecific => Root in blocks && Payload in blocks && Data in blocks && SerialNumber in blocks
    case Dest => Root in blocks && Payload in blocks && Key in blocks
    case DestDetail => Root in blocks && Payload in blocks && Key in blocks && Dest in blocks
  }

  lemma PathLiveIff(p: Part, blocks: set<Part>)
    ensures PathLive(p, blocks) <==> Ancestors(p) <= blocks
  {
  }

  /** The messages without a data block. */
  predicate IsProcessingError(u: UCase) {
    u.AccessTermProcErr? || u.FlowProcErr? || u.TerminalProcErr?
  }

  /** The messages with a key and one data block: status changes, loss of signal, terminal conditions. */
  predicate IsKeyAndData(u: UCase) {
    !IsProcessingError(u) && !u.TerminalDisc? && !u.TerminalAlarm? && !u.PktData? && !u.BalOmciResp?
  }

  /** The packet destinations for which the packet callback allocates a detail block. */
  predicate HasPacketDetail(d: DestType) {
    d.Nni? || d.SubTerm? || d.SvcPort?
  }

  /** The packet destinations for which the release routine frees a detail block. */
  predicate FreesPacketDetail(d: DestType) {
    match d
    case Nni | SubTerm | SvcPort => true
    case _ => false
  }

  /** The blocks a callback allocates, in order. */
  function AllocOrder(u: UCase, d: DestType): seq<Part> {
    if IsProcessingError(u) then [Root, Payload, Key]
    else if u.TerminalDisc? then [Root, Payload, Key, Data, SerialNumber, VendorId, VendorSpecific]
    else if u.TerminalAlarm? then [Root, Payload, Key, Data, Alarm]
    else if u.PktData? then
      if HasPacketDetail(d) then [Root, Payload, Key, Dest, DestDetail, Data, Pkt]
      else [Root, Payload, Key, Dest, Data, Pkt]
    else if u.BalOmciResp? then
      if d.ItuOmciChannel? then [Root, Payload, Key, Data, Pkt, Dest, DestDetail]
      else [Root, Payload, Key, Data, Pkt, Dest]
    else [Root, Payload, Key, Data]
  }

  /** The blocks the release routine frees, in order. */
  function FreeOrder(u: UCase, d: DestType): seq<Part> {
    if IsProcessingError(u) then [Key, Payload, Root]
    else if u.InterfaceLos? then [Data, Payload, Root]
    else if u.TerminalDisc? then [VendorSpecific, VendorId, SerialNumber, Data, Key, Payload, Root]
    else if u.TerminalAlarm? then [Alarm, Data, Key, Payload, Root]
    else if u.PktData? then
      if FreesPacketDetail(d) then [Pkt, Data, DestDetail, Dest, Key, Payload, Root]
      else [Pkt, Data, Dest, Key, Payload, Root]
    else if u.BalOmciResp? then
      if d.ItuOmciChannel? then [DestDetail, Dest, Pkt, Data, Key, Payload, Root]
      else [Dest, Pkt, Data, Key, Payload, Root]
    else [Data, Key, Payload, Root]
  }

  function Elements(order: seq<Part>): set<Part> {
    set p | p in order
  }

  /** The blocks of a complete message. */
  function Allocated(u: UCase, d: DestType): set<Part> {
    Elements(AllocOrder(u, d))
  }

  /** What is left of a message once it has been released. */
  function Residue(u: UCase): set<Part> {
    if u == InterfaceLos then {Key} else {}
  }

  /** Freeing the blocks of `order` one by one never frees or dereferences a block outside `blocks`. */
  ghost predicate FreesSafely(order: seq<Part>, blocks: set<Part>) {
    order == [] ||
    (order[0] in blocks && PathLive(order[0], blocks) && FreesSafely(order[1..], blocks - {order[0]}))
  }

  /** Allocating the blocks of `order` one by one links each new block into one that exists already. */
  ghost predicate AllocatesSafely(order: seq<Part>, blocks: set<Part>) {
    order == [] ||
    (order[0] !in blocks && PathLive(order[0], blocks) && AllocatesSafely(order[1..], blocks + {order[0]}))
  }

  /** Safe freeing means that blocks are distinct, and that children go before their parents. */
  lemma {:induction false} FreesSafelyIff(order: seq<Part>, blocks: set<Part>)
    ensures FreesSafely(order, blocks) <==>
            (forall i :: 0 <= i < |order| ==> order[i] in blocks && Ancestors(order[i]) <= blocks) &&
            (forall i, j :: 0 <= i < j < |order| ==> order[i] != order[j] && order[i] !in Ancestors(order[j]))
  {
    if order != [] {
      var head, rest := order[0], order[1..];
      PathLiveIff(head, blocks);
      FreesSafelyIff(rest, blocks - {head});
      if forall i :: 0 <= i < |order| ==> order[i] in blocks && Ancestors(order[i]) <= blocks {
        if forall i, j :: 0 <= i < j < |order| ==> order[i] != order[j] && order[i] !in Ancestors(order[j]) {
          forall i | 0 <= i < |rest|
            ensures rest[i] in blocks - {head} && Ancestors(rest[i]) <= blocks - {head}
          {
            assert rest[i] == order[i + 1] && order[0] != order[i + 1];
          }
        }
      }
      if FreesSafely(order, blocks) {
        forall i | 0 <= i < |order|
          ensures order[i] in blocks && Ancestors(order[i]) <= blocks
        {
          if i > 0 { assert order[i] == rest[i - 1]; }
        }
        forall i, j | 0 <= i < j < |order|
          ensures order[i] != order[j] && order[i] !in Ancestors(order[j])
        {
          assert order[j] == rest[j - 1];
          if i > 0 { assert order[i] == rest[i - 1]; }
        }
      }
    }
  }

  lemma {:induction false} AllocatesSafelyIff(order: seq<Part>, blocks: set<Part>)
    ensures AllocatesSafely(order, blocks) <==>
            (forall i :: 0 <= i < |order| ==> order[i] !in blocks && Ancestors(order[i]) <= blocks + Elements(order[..i])) &&
            (forall i, j :: 0 <= i < j < |order| ==> order[i] != order[j])
  {
    if order != [] {
      var head, rest := order[0], order[1..];
      PathLiveIff(head, blocks);
      AllocatesSafelyIff(rest, blocks + {head});
      forall i | 0 <= i < |rest|
        ensures blocks + {head} + Elements(rest[..i]) == blocks + Elements(order[..i + 1])
      {
        assert order[..i + 1] == [head] + rest[..i];
      }
      assert forall i :: 0 <= i < |rest| ==> rest[i] == order[i + 1];
      assert forall i :: 0 < i < |order| ==> order[i] == rest[i - 1];
    }
  }

  lemma FreeTableInside(u: UCase, d: DestType)
    ensures var order, blocks := FreeOrder(u, d), Allocated(u, d);
            forall i :: 0 <= i < |order| ==> order[i] in blocks && Ancestors(order[i]) <= blocks
  {
  }

  lemma FreeTableOrdered(u: UCase, d: DestType)
    ensures var order := FreeOrder(u, d);
            forall i, j :: 0 <= i < j < |order| ==> order[i] != order[j] && order[i] !in Ancestors(order[j])
  {
  }

  lemma AllocTableOrdered(u: UCase, d: DestType)
    ensures var order := AllocOrder(u, d);
            forall i :: 0 <= i < |order| ==> order[i] !in {} && Ancestors(order[i]) <= {} + Elements(order[..i])
  {
    var order := AllocOrder(u, d);
    forall i | 0 <= i < |order|
      ensures Ancestors(order[i]) <= Elements(order[..i])
    {
      assert forall j :: 0 <= j < i ==> order[..i][j] == order[j];
      assert i > 0 ==> order[..i][0] == Root;
      assert i > 1 ==> order[..i][1] == Payload;
      assert i > 2 ==> order[..i][2] == Key;
      assert i > 3 ==> order[..i][3] == order[3];
      assert i > 4 ==> order[..i][4] == order[4];
      assert i > 5 ==> order[..i][5] == order[5];
    }
  }

  lemma AllocTableDistinct(u: UCase, d: DestType)
    ensures var order := AllocOrder(u, d); forall i, j :: 0 <= i < j < |order| ==> order[i] != order[j]
  {
  }

  lemma TablesAgree(u: UCase, d: DestType)
    ensures Elements(FreeOrder(u, d)) == Allocated(u, d) - Residue(u)
    ensures Residue(u) <= Allocated(u, d)
    ensures Root in Allocated(u, d)
  {
  }

  /**
   Heap balance: the callback's allocations are well ordered, and the release routine frees exactly
   the callback's blocks, each once and children before parents.  The interface loss-of-signal
   message is the one exception: its key stays behind.
   */
  lemma HeapBalance(u: UCase, d: DestType)
    ensures AllocatesSafely(AllocOrder(u, d), {})
    ensures FreesSafely(FreeOrder(u, d), Allocated(u, d))
    ensures Elements(FreeOrder(u, d)) == Allocated(u, d) - Residue(u)
    ensures Residue(u) <= Allocated(u, d) && Root in Allocated(u, d)
  {
    FreeTableInside(u, d);
    FreeTableOrdered(u, d);
    FreesSafelyIff(FreeOrder(u, d), Allocated(u, d));
    AllocTableOrdered(u, d);
    AllocTableDistinct(u, d);
    AllocatesSafelyIff(AllocOrder(u, d), {});
    TablesAgree(u, d);
  }

  lemma DiscoveryRows(d: DestType)
    ensures AllocOrder(TerminalDisc, d) == [Root, Payload, Key, Data, SerialNumber, VendorId, VendorSpecific]
    ensures Allocated(TerminalDisc, d) == {Root, Payload, Key, Data, SerialNumber, VendorId, VendorSpecific}
  {
  }

  /** The rows of the two tables for packets and for OMCI responses, with the optional detail block set apart. */
  lemma PacketRows(d: DestType)
    ensures var detail := d == Nni || d == SubTerm || d == SvcPort;
            && HasPacketDetail(d) == FreesPacketDetail(d) == detail
            && AllocOrder(PktData, d) == [Root, Payload, Key] + (if detail then [Dest, DestDetail] else [Dest]) + [Data, Pkt]
            && FreeOrder(PktData, d) == [Pkt, Data] + (if detail then [DestDetail, Dest] else [Dest]) + [Key, Payload, Root]
            && Allocated(PktData, d) == {Root, Payload, Key, Dest, Data, Pkt} + if detail then {DestDetail} else {}
  {
  }

  lemma OmciRows(d: DestType)
    ensures var detail := d.ItuOmciChannel?;
            && AllocOrder(BalOmciResp, d) == [Root, Payload, Key, Data, Pkt] + (if detail then [Dest, DestDetail] else [Dest])
            && FreeOrder(BalOmciResp, d) == (if detail then [DestDetail, Dest] else [Dest]) + [Pkt, Data, Key, Payload, Root]
            && Allocated(BalOmciResp, d) == {Root, Payload, Key, Dest, Data, Pkt} + if detail then {DestDetail} else {}
  {
  }

  /** The blocks of a packet message while they go. */
  lemma PacketSets(blocks: set<Part>)
    ensures {Root, Payload, Key, Dest, Data, Pkt} <= blocks <= {Root, Payload, Key, Dest, Data, Pkt, DestDetail} ==>
              && blocks - {Pkt} - {Data} - {Dest, DestDetail} == {Key, Payload, Root}
              && blocks - {Dest, DestDetail} - {Pkt} - {Data} == {Key, Payload, Root}
  {
  }

  lemma PlainRows(u: UCase, d: DestType)
    ensures IsProcessingError(u) ==> Allocated(u, d) == {Root, Payload, Key}
    ensures IsKeyAndData(u) ==> Allocated(u, d) == {Root, Payload, Key, Data}
    ensures u == TerminalAlarm ==> Allocated(u, d) == {Root, Payload, Key, Data, Alarm}
  {
    assert IsProcessingError(u) ==> AllocOrder(u, d) == [Root, Payload, Key];
    assert IsKeyAndData(u) ==> AllocOrder(u, d) == [Root, Payload, Key, Data];
    hide AllocOrder;
  }

  /** Which messages have which blocks. */
  lemma BlockOwners(u: UCase, d: DestType)
    ensures var blocks := Allocated(u, d);
            && {Root, Payload, Key} <= blocks
            && (Data in blocks <==> u != AccessTermProcErr && u != FlowProcErr && u != TerminalProcErr)
            && (Alarm in blocks <==> u == TerminalAlarm)
            && (SerialNumber in blocks <==> u == TerminalDisc)
            && (VendorId in blocks <==> u == TerminalDisc)
            && (VendorSpecific in blocks <==> u == TerminalDisc)
            && (Pkt in blocks <==> u == PktData || u == BalOmciResp)
            && (Dest in blocks <==> u == PktData || u == BalOmciResp)
            && (DestDetail in blocks <==>
                  (u == PktData && (d == Nni || d == SubTerm || d == SvcPort)) || (u == BalOmciResp && d == ItuOmciChannel))
  {
    hide Allocated, AllocOrder, FreeOrder;
    PlainRows(u, d);
    PacketRows(d);
    OmciRows(d);
    DiscoveryRows(d);
  }

  /** A message on the heap.  `blocks` are those of its blocks that are allocated at present. */
  class BalIndications {
    const uCase: UCase
    const dest: DestType
    var vendorId: string
    var vendorSpecific: string
    var blocks: set<Part>
    ghost var mallocs: seq<Part>
    ghost var frees: seq<Part>

    function Content(): Message
      reads this`vendorId, this`vendorSpecific
    {
      Message(uCase, dest, vendorId, vendorSpecific)
    }

    /** Whether the message has been released, by exactly the frees of the release table. */
    ghost predicate Released()
      reads this
    {
      blocks == Residue(uCase) && frees == FreeOrder(uCase, dest)
    }

    constructor (u: UCase, d: DestType)
      ensures Content() == Message(u, d, "", "") && blocks == {Root} && mallocs == [Root] && frees == []
    {
      uCase, dest, vendorId, vendorSpecific := u, d, "", "";
      blocks, mallocs, frees := {Root}, [Root], [];
    }

    /** All blocks are there, and none of them has been released. */
    ghost predicate Complete()
      reads this
    {
      blocks == Allocated(uCase, dest) && mallocs == AllocOrder(uCase, dest) && frees == []
    }

    /** Allocates block `p` and stores it through the pointers that lead to it. */
    method Malloc(p: Part)
      requires p !in blocks && PathLive(p, blocks)
      modifies this`blocks, this`mallocs
      ensures blocks == old(blocks) + {p} && mallocs == old(mallocs) + [p]
    {
      blocks, mallocs := blocks + {p}, mallocs + [p];
    }

    /** Follows the pointers to block `p` and frees it. */
    method Free(p: Part)
      requires p in blocks && PathLive(p, blocks)
      modifies this`blocks, this`frees
      ensures blocks == old(blocks) - {p} && frees == old(frees) + [p]
    {
      blocks, frees := blocks - {p}, frees + [p];
    }
  }

  method FreeDest(ind: BalIndications, detail: bool)
    requires Dest in ind.blocks && PathLive(Dest, ind.blocks) && (detail <==> DestDetail in ind.blocks)
    modifies ind`blocks, ind`frees
    ensures ind.blocks == old(ind.blocks) - {Dest, DestDetail}
    ensures ind.frees == old(ind.frees) + if detail then [DestDetail, Dest] else [Dest]
  {
    if detail {
      ind.Free(DestDetail);
    }
    ind.Free(Dest);
  }

  /** The end of every release but one. */
  method FreeTop(ind: BalIndications)
    requires ind.blocks == {Key, Payload, Root}
    modifies ind`blocks, ind`frees
    ensures ind.blocks == {} && ind.frees == old(ind.frees) + [Key, Payload, Root]
  {
    ind.Free(Key);
    ind.Free(Payload);
    ind.Free(Root);
  }

  method FreeProcessingError(ind: BalIndications)
    requires ind.Complete() && IsProcessingError(ind.uCase)
    modifies ind`blocks, ind`frees
    ensures ind.Released()
  {
    FreeTop(ind);
  }

  method FreeKeyAndData(ind: BalIndications)
    requires ind.Complete() && IsKeyAndData(ind.uCase) && ind.uCase != InterfaceLos
    modifies ind`blocks, ind`frees
    ensures ind.Released()
  {
    ind.Free(Data);
    FreeTop(ind);
  }

  method FreeInterfaceLos(ind: BalIndications)
    requires ind.Complete() && ind.uCase == InterfaceLos
    modifies ind`blocks, ind`frees
    ensures ind.Released()
  {
    ind.Free(Data);
    ind.Free(Payload);
    ind.Free(Root);
  }

  method FreeDiscovery(ind: BalIndications)
    requires ind.Complete() && ind.uCase == TerminalDisc
    modifies ind`blocks, ind`frees
    ensures ind.Released()
  {
    ind.Free(VendorSpecific);
    ind.Free(VendorId);
    ind.Free(SerialNumber);
    ind.Free(Data);
    FreeTop(ind);
  }

  method FreeAlarm(ind: BalIndications)
    requires ind.Complete() && ind.uCase == TerminalAlarm
    modifies ind`blocks, ind`frees
    ensures ind.Released()
  {
    ind.Free(Alarm);
    ind.Free(Data);
    FreeTop(ind);
  }

  method FreePacket(ind: BalIndications)
    requires ind.Complete() && ind.uCase == PktData
    modifies ind`blocks, ind`frees
    ensures ind.Released()
  {
    PacketRows(ind.dest);
    hide AllocOrder, FreeOrder, Allocated, HasPacketDetail, FreesPacketDetail;
    PacketSets(ind.blocks);
    ind.Free(Pkt);
    ind.Free(Data);
    FreeDest(ind, FreesPacketDetail(ind.dest));
    FreeTop(ind);
  }

  method FreeOmciResponse(ind: BalIndications)
    requires ind.Complete() && ind.uCase == BalOmciResp
    modifies ind`blocks, ind`frees
    ensures ind.Released()
  {
    OmciRows(ind.dest);
    hide AllocOrder, FreeOrder, Allocated;
    PacketSets(ind.blocks);
    FreeDest(ind, ind.dest.ItuOmciChannel?);
    ind.Free(Pkt);
    ind.Free(Data);
    FreeTop(ind);
  }

  /** The release routine: dispatch on the message kind. */
  method FreeMem(ind: BalIndications)
    requires ind.Complete()
    modifies ind`blocks, ind`frees
    ensures ind.Released()
  {
    match ind.uCase {
      case AccessTermProcErr | FlowProcErr | TerminalProcErr => FreeProcessingError(ind);
      case InterfaceLos => FreeInterfaceLos(ind);
      case TerminalDisc => FreeDiscovery(ind);
      case TerminalAlarm => FreeAlarm(ind);
      case PktData => FreePacket(ind);
      case BalOmciResp => FreeOmciResponse(ind);
      case _ => FreeKeyAndData(ind);
    }
  }
}

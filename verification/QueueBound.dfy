/** Why the queue's size limit has to be at least two. */
module QueueBound {
  import opened Common
  import opened Indications
  import opened CriticalSection
  import opened Ring
  import opened Fifo

  /** The memory after an add that has also freed the node it evicted. */
  function AddAndFree(n: nat, m: Memory, a: Addr): Config {
    var c := RunProgram(AddProgram(n, m), Config(m, Some(a), None));
    if c.Fault? || c.saved == None then c
    else if NodeLive(c.mem, c.saved) then
      c.(mem := c.mem.(live := c.mem.live[c.saved.value := Live(c.mem, c.saved.value) - {Node}]))
    else Fault
  }

  /** Adding the nodes of `addrs` one after the other, with the size limit `n`. */
  function AddAll(n: nat, m: Memory, addrs: seq<Addr>): Config {
    if addrs == [] then Config(m, None, None)
    else
      match AddAll(n, m, addrs[..|addrs| - 1])
      case Fault => Fault
      case Config(m', _, _) => AddAndFree(n, m', addrs[|addrs| - 1])
  }

  /** An empty queue, and nodes with all their blocks to add to it. */
  ghost predicate Ready(m: Memory, addrs: seq<Addr>) {
    RingIn([], m) && Distinct(addrs) && WholeIn(addrs, m)
  }

  ghost predicate KeepsBound(n: nat) {
    forall m, addrs :: Ready(m, addrs) ==> var c := AddAll(n, m, addrs); c.Config? && c.mem.count <= n
  }

  /** The nodes in the queue after adding those of `addrs`. */
  function Kept(bound: Bound, addrs: seq<Addr>): (nodes: seq<Addr>)
    ensures |nodes| <= bound && forall a :: a in nodes ==> a in addrs
  {
    if addrs == [] then [] else Enqueued(bound, Kept(bound, addrs[..|addrs| - 1]), addrs[|addrs| - 1])
  }

  lemma DistinctParts(init: seq<Addr>, a: Addr, more: seq<Addr>)
    requires Distinct(init + ([a] + more))
    ensures a !in init && forall i :: 0 <= i < |more| ==> more[i] !in init
  {
    var all := init + ([a] + more);
    assert forall j :: 0 <= j < |init| ==> all[j] == init[j];
    assert all[|init|] == a;
    assert forall i :: 0 <= i < |more| ==> all[|init| + 1 + i] == more[i];
  }

  lemma {:induction false} AddAllKeeps(bound: Bound, m: Memory, addrs: seq<Addr>, more: seq<Addr>)
    requires Ready(m, addrs + more)
    ensures var c := AddAll(bound, m, addrs);
            c.Config? && RingIn(Kept(bound, addrs), c.mem) && WholeIn(Kept(bound, addrs), c.mem) && WholeIn(more, c.mem)
  {
    hide AllPieces, AddAndFree, RingIn;
    if addrs == [] {
      assert addrs + more == more;
    } else {
      var init, a := addrs[..|addrs| - 1], addrs[|addrs| - 1];
      assert addrs + more == init + ([a] + more);
      AddAllKeeps(bound, m, init, [a] + more);
      var nodes, m' := Kept(bound, init), AddAll(bound, m, init).mem;
      DistinctParts(init, a, more);
      assert WholeIn([a], m') && WholeIn(more, m') by {
        assert ([a] + more)[0] == a;
        assert forall i :: 0 <= i < |more| ==> ([a] + more)[i + 1] == more[i];
      }
      OneMore(bound, m', nodes, a, more);
    }
  }

  lemma OneMore(bound: Bound, m: Memory, nodes: seq<Addr>, a: Addr, more: seq<Addr>)
    requires RingIn(nodes, m) && WholeIn(nodes, m) && |nodes| <= bound && WholeIn([a], m) && WholeIn(more, m)
    requires a !in nodes && forall i :: 0 <= i < |more| ==> more[i] !in nodes
    ensures var c := AddAndFree(bound, m, a);
            c.Config? && RingIn(Enqueued(bound, nodes, a), c.mem) && WholeIn(Enqueued(bound, nodes, a), c.mem) && WholeIn(more, c.mem)
  {
    assert [a][0] == a;
    AddEffect(bound, m, nodes, a);
    var c := AddAndFree(bound, m, a);
    var after := Enqueued(bound, nodes, a);
    forall i | 0 <= i < |after|
      ensures after[i] in c.mem.message && Live(c.mem, after[i]) == AllPieces(c.mem.message[after[i]])
    {
      if i < |after| - 1 {
        var j := if |nodes| < bound then i else i + 1;
        assert after[i] == nodes[j];
      }
    }
  }


  const MSG := Message(FlowOpState, OtherDest, "", "")

  const EMPTY := Memory(None, None, 0, 0, map[], map[0 := MSG, 1 := MSG], map[0 := AllPieces(MSG), 1 := AllPieces(MSG)])

  const ONE := EMPTY.(head := Some(0), tail := Some(0), next := map[0 := Some(0)], count := 1)

  const TWO := ONE.(tail := Some(1), next := map[0 := Some(1), 1 := Some(0)], count := 2)

  lemma TwoWrites(i: Instr, j: Instr, rest: Program, c: Config)
    ensures RunProgram(Do(i, Do(j, rest)), c) == RunProgram(rest, Exec(j, Exec(i, c)))
  {
    assert RunProgram(Do(j, rest), Exec(i, c)) == RunProgram(rest, Exec(j, Exec(i, c)));
  }

  /** The first node is stored whatever the limit is. */
  lemma FirstNode(n: nat)
    ensures AddAndFree(n, EMPTY, 0) == Config(ONE, Some(0), None)
  {
    var c0 := Config(EMPTY, Some(0), None);
    var c2 := Config(EMPTY.(head := Some(0), tail := Some(0)), Some(0), None);
    var c4 := Config(ONE.(count := 0), Some(0), None);
    var last := Do(IncCount, Done);
    var links := Do(HeadNextIsArg, Do(TailNextIsArg, last));
    assert Exec(TailIsArg, Exec(HeadIsArg, c0)) == c2;
    TwoWrites(HeadIsArg, TailIsArg, links, c0);
    FirstLinks(c2, c4);
    TwoWrites(HeadNextIsArg, TailNextIsArg, last, c2);
    assert RunProgram(last, c4) == Exec(IncCount, c4);
  }

  lemma FirstLinks(c2: Config, c4: Config)
    requires c2 == Config(EMPTY.(head := Some(0), tail := Some(0)), Some(0), None) && c4 == Config(ONE.(count := 0), Some(0), None)
    ensures Exec(TailNextIsArg, Exec(HeadNextIsArg, c2)) == c4
  {
    assert Node in Live(c2.mem, 0);
    assert c2.mem.next[0 := Some(0)][0 := Some(0)] == c4.mem.next;
  }

  /** With a limit of 1 the second node takes the branch for one node. */
  lemma SecondNode()
    ensures AddAndFree(1, ONE, 1) == Config(TWO, Some(1), None)
  {
    var c0 := Config(ONE, Some(1), None);
    var c2 := Config(ONE.(tail := Some(1), next := map[0 := Some(1)]), Some(1), None);
    var c3 := Config(TWO.(count := 1), Some(1), None);
    var last := Do(IncCount, Done);
    SecondLinks(c0, c2, c3);
    TwoWrites(HeadNextIsArg, TailIsArg, Do(TailNextIsHead, last), c0);
    TwoWrites(TailNextIsHead, IncCount, Done, c2);
  }

  lemma SecondLinks(c0: Config, c2: Config, c3: Config)
    requires c0 == Config(ONE, Some(1), None) && c2 == Config(ONE.(tail := Some(1), next := map[0 := Some(1)]), Some(1), None)
    requires c3 == Config(TWO.(count := 1), Some(1), None)
    ensures Exec(TailIsArg, Exec(HeadNextIsArg, c0)) == c2 && Exec(TailNextIsHead, c2) == c3
  {
    assert Node in Live(ONE, 0) && Node in Live(ONE, 1);
    assert ONE.next[0 := Some(1)] == c2.mem.next;
    assert c2.mem.next[1 := Some(0)] == c3.mem.next;
  }

  lemma CountTwo()
    ensures TWO.count == 2 && ONE.count == 1
  {
  }

  lemma AddOne(n: nat)
    requires AddAndFree(n, EMPTY, 0) == Config(ONE, Some(0), None)
    ensures AddAll(n, EMPTY, [0]) == Config(ONE, Some(0), None)
  {
    hide AddAndFree, ONE, EMPTY;
    assert [0][..0] == [];
    assert AddAll(n, EMPTY, []) == Config(EMPTY, None, None);
  }

  lemma StartReady(n: nat)
    requires n < 2
    ensures Ready(EMPTY, [0, 1][..n + 1])
  {
  }

  /** With a limit of 0 or 1, one node more than the limit is stored. */
  lemma SmallLimitsFail(n: nat)
    requires n < 2
    ensures Ready(EMPTY, [0, 1][..n + 1])
    ensures AddAll(n, EMPTY, [0, 1][..n + 1]).Config? && AddAll(n, EMPTY, [0, 1][..n + 1]).mem.count == n + 1
  {
    FirstNode(n);
    hide AddAndFree;
    AddOne(n);
    StartReady(n);
    if n == 0 {
      assert [0, 1][..1] == [0];
    } else {
      SecondNode();
      assert [0, 1][..2] == [0, 1] && [0, 1][..1] == [0];
      hide ONE, TWO;
      assert AddAll(n, EMPTY, [0, 1]) == AddAndFree(n, ONE, 1);
      CountTwo();
    }
  }

  /** The add routine keeps its size limit, and never faults, if and only if the limit is at least two. */
  lemma BoundKeptIff(n: nat)
    ensures KeepsBound(n) <==> n >= 2
  {
    if n >= 2 {
      forall m, addrs | Ready(m, addrs)
        ensures var c := AddAll(n, m, addrs); c.Config? && c.mem.count <= n
      {
        assert addrs + [] == addrs;
        AddAllKeeps(n, m, addrs, []);
      }
    } else {
      SmallLimitsFail(n);
    }
  }
}

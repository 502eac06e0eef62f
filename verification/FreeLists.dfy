/**
 The heap's free lists: doubly linked through nodes inside the free blocks, one list per order.
 A list holds the addresses of its blocks; a block's node follows its 32-byte header.
 */
module FreeLists {
  const HEADER := 32

  datatype FreeNode = FreeNode(next: nat, prev: nat)

  type Nodes = map<nat, FreeNode>

  /** The node of the `i`th block of a list; past its ends there is the null pointer. */
  function NodeAt(list: seq<nat>, i: int): nat {
    if 0 <= i < |list| then list[i] + HEADER else 0
  }

  ghost predicate LinkOk(nodes: Nodes, list: seq<nat>, i: nat)
    requires i < |list|
  {
    && list[i] + HEADER in nodes
    && nodes[list[i] + HEADER] == FreeNode(NodeAt(list, i + 1), NodeAt(list, i - 1))
  }

  ghost predicate Distinct(list: seq<nat>) {
    forall i, j :: 0 <= i < j < |list| ==> list[i] != list[j]
  }

  ghost predicate Linked(nodes: Nodes, head: nat, list: seq<nat>) {
    && head == NodeAt(list, 0) && Distinct(list)
    && forall i {:trigger LinkOk(nodes, list, i)} :: 0 <= i < |list| ==> LinkOk(nodes, list, i)
  }

  function SetNext(nodes: Nodes, n: nat, next: nat): Nodes
    requires n in nodes
  {
    nodes[n := nodes[n].(next := next)]
  }

  function SetPrev(nodes: Nodes, n: nat, prev: nat): Nodes
    requires n in nodes
  {
    nodes[n := nodes[n].(prev := prev)]
  }

  // ------------------------------------------------------------------------
  // Putting a block first
  // ------------------------------------------------------------------------

  function Pushed(nodes: Nodes, head: nat, a: nat): Nodes
    requires head != 0 ==> head in nodes
  {
    var added := nodes[a + HEADER := FreeNode(head, 0)];
    if head != 0 then SetPrev(added, head, a + HEADER) else added
  }

  lemma Push(nodes: Nodes, head: nat, list: seq<nat>, a: nat)
    requires Linked(nodes, head, list) && a !in list
    ensures head != 0 ==> head in nodes
    ensures Linked(Pushed(nodes, head, a), a + HEADER, [a] + list)
  {
    if list != [] {
      assert LinkOk(nodes, list, 0);
    }
    var nodes', list' := Pushed(nodes, head, a), [a] + list;
    forall i | 0 <= i < |list'|
      ensures LinkOk(nodes', list', i)
    {
      if i > 0 {
        assert list'[i] == list[i - 1];
        assert LinkOk(nodes, list, i - 1);
        assert i > 1 ==> list'[i - 1] == list[i - 2];
        assert i > 1 ==> list[0] != list[i - 1];
      }
    }
  }

  // ------------------------------------------------------------------------
  // Taking a block out
  // ------------------------------------------------------------------------

  function Removed(list: seq<nat>, i: nat): seq<nat>
    requires i < |list|
  {
    list[..i] + list[i + 1..]
  }

  /** `kfree`'s unlinking of a buddy; taking the first block is the same with nothing before it. */
  function Unlinked(nodes: Nodes, n: nat): Nodes
    requires n in nodes && (nodes[n].prev != 0 ==> nodes[n].prev in nodes) && (nodes[n].next != 0 ==> nodes[n].next in nodes)
  {
    var skipped := if nodes[n].prev != 0 then SetNext(nodes, nodes[n].prev, nodes[n].next) else nodes;
    if nodes[n].next != 0 then SetPrev(skipped, nodes[n].next, nodes[n].prev) else skipped
  }

  lemma Neighbours(nodes: Nodes, head: nat, list: seq<nat>, i: nat)
    requires Linked(nodes, head, list) && i < |list|
    ensures var n := list[i] + HEADER;
            && n in nodes && nodes[n].next == NodeAt(list, i + 1) && nodes[n].prev == NodeAt(list, i - 1)
            && (nodes[n].prev != 0 ==> nodes[n].prev in nodes) && (nodes[n].next != 0 ==> nodes[n].next in nodes)
            && (nodes[n].prev == 0 <==> i == 0)
  {
    assert LinkOk(nodes, list, i);
    if i > 0 {
      assert LinkOk(nodes, list, i - 1);
    }
    if i + 1 < |list| {
      assert LinkOk(nodes, list, i + 1);
    }
  }

  lemma Unlink(nodes: Nodes, head: nat, list: seq<nat>, i: nat)
    requires Linked(nodes, head, list) && i < |list|
    ensures list[i] + HEADER in nodes
    ensures var n := list[i] + HEADER;
            && (nodes[n].prev != 0 ==> nodes[n].prev in nodes) && (nodes[n].next != 0 ==> nodes[n].next in nodes)
            && Linked(Unlinked(nodes, n), if nodes[n].prev != 0 then head else nodes[n].next, Removed(list, i))
  {
    Neighbours(nodes, head, list, i);
    var n := list[i] + HEADER;
    var nodes', list' := Unlinked(nodes, n), Removed(list, i);
    forall j | 0 <= j < |list'|
      ensures LinkOk(nodes', list', j)
    {
      UnlinkedAt(nodes, head, list, i, j);
    }
    assert forall j :: 0 <= j < |list'| ==> list'[j] == list[if j < i then j else j + 1];
  }

  lemma UnlinkedAt(nodes: Nodes, head: nat, list: seq<nat>, i: nat, j: nat)
    requires Linked(nodes, head, list) && i < |list| && j < |list| - 1
    ensures list[i] + HEADER in nodes
    ensures var n := list[i] + HEADER;
            && (nodes[n].prev != 0 ==> nodes[n].prev in nodes) && (nodes[n].next != 0 ==> nodes[n].next in nodes)
            && LinkOk(Unlinked(nodes, n), Removed(list, i), j)
  {
    Neighbours(nodes, head, list, i);
    var list' := Removed(list, i);
    var was := if j < i then j else j + 1;
    assert LinkOk(nodes, list, was);
    assert list'[j] == list[was];
    assert j + 1 < |list'| ==> list'[j + 1] == list[if j + 1 < i then j + 1 else j + 2];
    assert j > 0 ==> list'[j - 1] == list[if j - 1 < i then j - 1 else j];
  }

  ghost predicate SameNode(nodes: Nodes, nodes': Nodes, a: nat) {
    a + HEADER in nodes ==> a + HEADER in nodes' && nodes'[a + HEADER] == nodes[a + HEADER]
  }

  /** Lists of other blocks do not notice. */
  lemma OtherList(nodes: Nodes, nodes': Nodes, head: nat, list: seq<nat>)
    requires Linked(nodes, head, list)
    requires forall a {:trigger SameNode(nodes, nodes', a)} :: a in list ==> SameNode(nodes, nodes', a)
    ensures Linked(nodes', head, list)
  {
    forall i | 0 <= i < |list|
      ensures LinkOk(nodes', list, i)
    {
      assert LinkOk(nodes, list, i);
      assert SameNode(nodes, nodes', list[i]);
    }
  }
}

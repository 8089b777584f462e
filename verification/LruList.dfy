/**
 The doubly linked LRU list of algorithm/dftl/lru_list.c, head first, proved against the sequence of its nodes.
 */
module LruList {
  import opened Sequences

  class Node {
    const data: nat
    var next: Node?
    var prev: Node?

    constructor (data: nat)
      ensures this.data == data && next == null && prev == null
    {
      this.data, next, prev := data, null, null;
    }
  }

  type Links = seq<Node?>

  ghost function At(ns: seq<Node>, i: int): Node? { if 0 <= i < |ns| then ns[i] else null }

  /** Every node points to its neighbours in ns. */
  ghost predicate Chain(ns: seq<Node>, nx: Links, pv: Links) {
    |ns| == |nx| == |pv| && forall i :: 0 <= i < |ns| ==> nx[i] == At(ns, i + 1) && pv[i] == At(ns, i - 1)
  }

  ghost predicate StoredNext(ns: seq<Node>, nx: Links)
    requires |nx| == |ns|
    reads (set n | n in ns)`next
  {
    forall i :: 0 <= i < |ns| ==> ns[i].next == nx[i]
  }

  ghost predicate StoredPrev(ns: seq<Node>, pv: Links)
    requires |pv| == |ns|
    reads (set n | n in ns)`prev
  {
    forall i :: 0 <= i < |ns| ==> ns[i].prev == pv[i]
  }

  lemma FrontChain(ns: seq<Node>, nx: Links, pv: Links, now: Node)
    requires Chain(ns, nx, pv) && NoDup(ns) && ns != [] && now !in ns
    ensures Chain([now] + ns, [ns[0]] + nx, [null] + pv[0 := now]) && NoDup([now] + ns)
  {
    var ns' := [now] + ns;
    assert forall i :: 0 < i < |ns'| ==> ns'[i] == ns[i - 1];
  }

  /** The links of the neighbours when node i is taken out. */
  ghost function NextsAround(nx: Links, i: nat): Links
    requires 0 < i < |nx|
  {
    DropAt(nx[i - 1 := nx[i]], i)
  }

  ghost function PrevsAround(pv: Links, i: nat): Links
    requires i < |pv|
  {
    DropAt(if i + 1 < |pv| then pv[i + 1 := pv[i]] else pv, i)
  }

  lemma UnlinkChain(ns: seq<Node>, nx: Links, pv: Links, i: nat)
    requires Chain(ns, nx, pv) && 0 < i < |ns|
    ensures Chain(DropAt(ns, i), NextsAround(nx, i), PrevsAround(pv, i))
  {
    DropAtIs(ns, i);
    DropAtIs(nx[i - 1 := nx[i]], i);
    DropAtIs(if i + 1 < |pv| then pv[i + 1 := pv[i]] else pv, i);
  }

  lemma PopChain(ns: seq<Node>, nx: Links, pv: Links)
    requires Chain(ns, nx, pv) && |ns| > 1
    ensures var n := |ns| - 1; Chain(ns[..n], nx[n - 1 := null][..n], pv[..n])
  {
  }

  lemma TailChain(ns: seq<Node>, nx: Links, pv: Links)
    requires Chain(ns, nx, pv) && |ns| > 1
    ensures Chain(ns[1..], nx[1..], pv[1 := null][1..])
  {
  }

  method SetNext(n: Node, v: Node?, ghost ns: seq<Node>, ghost nx: Links, ghost k: nat)
    requires |nx| == |ns| && NoDup(ns) && StoredNext(ns, nx) && k < |ns| && n == ns[k]
    modifies n`next
    ensures StoredNext(ns, nx[k := v])
  {
    n.next := v;
  }

  method SetPrev(n: Node, v: Node?, ghost ns: seq<Node>, ghost pv: Links, ghost k: nat)
    requires |pv| == |ns| && NoDup(ns) && StoredPrev(ns, pv) && k < |ns| && n == ns[k]
    modifies n`prev
    ensures StoredPrev(ns, pv[k := v])
  {
    n.prev := v;
  }

  lemma StoredWithout(ns: seq<Node>, nx: Links, pv: Links, i: nat)
    requires |ns| == |nx| == |pv| && StoredNext(ns, nx) && StoredPrev(ns, pv) && i < |ns|
    ensures |DropAt(ns, i)| == |DropAt(nx, i)| == |DropAt(pv, i)|
    ensures StoredNext(DropAt(ns, i), DropAt(nx, i)) && StoredPrev(DropAt(ns, i), DropAt(pv, i))
  {
    DropAtIs(ns, i);
    DropAtIs(nx, i);
    DropAtIs(pv, i);
  }

  class Lru {
    var size: nat
    var head: Node?
    var tail: Node?
    ghost var nodes: seq<Node>
    ghost var nx: Links
    ghost var pv: Links

    ghost predicate Valid()
      reads this, nodes
    {
      size == |nodes| && Linked()
    }

    ghost predicate Linked()
      reads this, nodes
    {
      && |nodes| == |nx| == |pv| && Chain(nodes, nx, pv) && NoDup(nodes) && StoredNext(nodes, nx)
      && StoredPrev(nodes, pv)
      && head == At(nodes, 0) && tail == At(nodes, |nodes| - 1)
    }

    /** Records a new sequence of nodes whose links fit. */
    ghost method Record(ns: seq<Node>, nx': Links, pv': Links)
      requires |ns| == |nx'| == |pv'| && Chain(ns, nx', pv') && NoDup(ns) && StoredNext(ns, nx')
      requires StoredPrev(ns, pv')
      requires head == At(ns, 0) && tail == At(ns, |ns| - 1)
      modifies `nodes, `nx, `pv
      ensures Linked() && nodes == ns
    {
      hide Chain, NoDup, StoredNext, StoredPrev;
      nodes, nx, pv := ns, nx', pv';
    }

    constructor ()
      ensures Valid() && nodes == []
    {
      size, head, tail, nodes, nx, pv := 0, null, null, [], [], [];
    }

    method Push(x: nat) returns (now: Node)
      requires Valid()
      modifies this, nodes
      ensures Valid() && fresh(now) && now.data == x && nodes == [now] + old(nodes)
    {
      hide Chain, NoDup, StoredNext, StoredPrev;
      now := new Node(x);
      if size == 0 {
        Single(now);
        head, tail, nodes, nx, pv := now, now, [now], [null], [null];
      } else {
        Front(now);
      }
      size := size + 1;
    }

    /** An unlinked node becomes the head of a nonempty list. */
    method Front(now: Node)
      requires Linked() && nodes != [] && now !in nodes && now.prev == null
      modifies `head, `nodes, `nx, `pv, nodes, now
      ensures Linked() && nodes == [now] + old(nodes)
    {
      hide Chain, NoDup, StoredNext, StoredPrev;
      FrontChain(nodes, nx, pv, now);
      SetPrev(head, now, nodes, pv, 0);
      now.next := head;
      FrontStored(nodes, nx, pv[0 := now], now, head);
      pv, nx := [null] + pv[0 := now], [head] + nx;
      nodes, head := [now] + nodes, now;
    }

    /** The data of the last node, or nothing. */
    method Pop() returns (ok: bool, x: nat)
      requires Valid()
      modifies this, nodes
      ensures Valid() && (ok <==> old(nodes) != [])
      ensures ok ==> x == old(nodes)[|old(nodes)| - 1].data && nodes == old(nodes)[..|old(nodes)| - 1]
      ensures !ok ==> nodes == []
    {
      hide Chain, NoDup, StoredNext, StoredPrev;
      if head == null || size == 0 { return false, 0; }
      ghost var n := |nodes| - 1;
      LastAt(nodes, nx, pv);
      var now := tail;
      x := now.data;
      tail := now.prev;
      if tail != null {
        PopChain(nodes, nx, pv);
        SetNext(tail, null, nodes, nx, n - 1);
      } else {
        head := null;
      }
      size := size - 1;
      ghost var nx1 := if n > 0 then nx[n - 1 := null] else nx;
      StoredFront(nodes, nx1, pv, n);
      Record(nodes[..n], nx1[..n], pv[..n]);
      ok := true;
    }

    /** The node is unlinked from its neighbours. */
    method Unlink(now: Node, ghost i: nat)
      requires Linked() && 0 < i < |nodes| && now == nodes[i]
      modifies `tail, `nodes, `nx, `pv, nodes
      ensures Linked() && nodes == DropAt(old(nodes), i) && now !in nodes
    {
      hide Chain, NoDup, StoredNext, StoredPrev;
      LinksAt(nodes, nx, pv, i);
      UnlinkChain(nodes, nx, pv, i);
      DropAtNoDup(nodes, i);
      DropAtIs(nodes, i);
      var p, q := now.prev, now.next;
      if now == tail {
        tail := p;
        SetNext(tail, null, nodes, nx, i - 1);
      } else {
        SetNext(p, q, nodes, nx, i - 1);
        SetPrev(q, p, nodes, pv, i + 1);
      }
      ghost var nx1 := nx[i - 1 := nx[i]];
      ghost var pv1 := if i + 1 < |pv| then pv[i + 1 := pv[i]] else pv;
      StoredWithout(nodes, nx1, pv1, i);
      Record(DropAt(nodes, i), DropAt(nx1, i), DropAt(pv1, i));
    }

    /** lru_update: the node moves to the front; null is ignored. */
    method Update(now: Node?)
      requires Valid() && (now != null ==> now in nodes)
      modifies this, nodes
      ensures Valid() && size == old(size)
      ensures now == null ==> nodes == old(nodes)
      ensures now != null ==>
        exists i: nat :: i < |old(nodes)| && old(nodes)[i] == now && nodes == [now] + DropAt(old(nodes), i)
    {
      hide Chain, NoDup, StoredNext, StoredPrev;
      if now == null { return; }
      ghost var i: nat :| i < |nodes| && nodes[i] == now;
      if now == head {
        assert nodes == [now] + DropAt(nodes, 0);
        return;
      }
      DropAtIs(nodes, i);
      Unlink(now, i);
      now.prev := null;
      Front(now);
    }

    /** lru_delete */
    method Delete(now: Node?)
      requires Valid() && (now != null ==> now in nodes)
      modifies this, nodes
      ensures Valid() && (now == null ==> nodes == old(nodes))
      ensures now != null ==>
        exists i: nat :: i < |old(nodes)| && old(nodes)[i] == now && nodes == DropAt(old(nodes), i)
    {
      hide Chain, NoDup, StoredNext, StoredPrev;
      if now == null { return; }
      ghost var i: nat :| i < |nodes| && nodes[i] == now;
      if now == head { Behead(); } else { Unlink(now, i); }
      size := size - 1;
    }

    method Behead()
      requires Linked() && nodes != []
      modifies `head, `tail, `nodes, `nx, `pv, nodes
      ensures Linked() && nodes == DropAt(old(nodes), 0)
    {
      hide Chain, NoDup, StoredNext, StoredPrev;
      var now := head;
      FirstAt(nodes, nx, pv);
      head := now.next;
      if head != null {
        TailChain(nodes, nx, pv);
        SetPrev(head, null, nodes, pv, 1);
        pv := pv[1 := null];
      } else {
        tail := null;
      }
      assert DropAt(nodes, 0) == nodes[1..];
      StoredBack(nodes, nx, pv);
      Record(nodes[1..], nx[1..], pv[1..]);
    }
  }

  /** The pages a list of nodes stands for. */
  ghost function Pages(ns: seq<Node>): seq<nat> { seq(|ns|, i requires 0 <= i < |ns| => ns[i].data) }

  /** What Update and Delete do to the nodes is, on the pages they stand for, what the mapping cache does to its LRU
      list. */
  lemma PagesMoved(ns: seq<Node>, i: nat)
    requires i < |ns|
    ensures NoDup(Pages(ns)) ==> Pages([ns[i]] + DropAt(ns, i)) == ToFront(Pages(ns), ns[i].data)
    ensures NoDup(Pages(ns)) ==> Pages(DropAt(ns, i)) == Without(Pages(ns), ns[i].data)
  {
    DropAtIs(ns, i);
    DropAtIs(Pages(ns), i);
    assert Pages(DropAt(ns, i)) == DropAt(Pages(ns), i);
    assert Pages([ns[i]] + DropAt(ns, i)) == [ns[i].data] + Pages(DropAt(ns, i));
    if NoDup(Pages(ns)) { DropAtIsWithout(Pages(ns), i); }
  }

  lemma Single(now: Node)
    requires now.next == null && now.prev == null
    ensures Chain([now], [null], [null]) && NoDup([now]) && StoredNext([now], [null]) && StoredPrev([now], [null])
  {
  }

  lemma FrontStored(ns: seq<Node>, nx: Links, pv: Links, now: Node, head: Node?)
    requires |ns| == |nx| == |pv| && StoredNext(ns, nx) && StoredPrev(ns, pv) && now.next == head && now.prev == null
    ensures StoredNext([now] + ns, [head] + nx) && StoredPrev([now] + ns, [null] + pv)
  {
  }

  lemma LinksAt(ns: seq<Node>, nx: Links, pv: Links, i: nat)
    requires Chain(ns, nx, pv) && NoDup(ns) && 0 < i < |ns| && StoredNext(ns, nx) && StoredPrev(ns, pv)
    ensures ns[i].prev == pv[i] == ns[i - 1] && ns[i].next == nx[i] == At(ns, i + 1)
    ensures (ns[i] == ns[|ns| - 1] <==> i == |ns| - 1)
  {
  }

  lemma LastAt(ns: seq<Node>, nx: Links, pv: Links)
    requires Chain(ns, nx, pv) && NoDup(ns) && ns != [] && StoredPrev(ns, pv)
    ensures ns[|ns| - 1].prev == At(ns, |ns| - 2) && NoDup(ns[..|ns| - 1])
    ensures |ns| == 1 ==> Chain(ns[..0], nx[..0], pv[..0])
  {
  }

  lemma FirstAt(ns: seq<Node>, nx: Links, pv: Links)
    requires Chain(ns, nx, pv) && NoDup(ns) && ns != [] && StoredNext(ns, nx)
    ensures ns[0].next == At(ns, 1) && NoDup(ns[1..])
    ensures |ns| == 1 ==> Chain(ns[1..], nx[1..], pv[1..])
  {
  }

  lemma StoredFront(ns: seq<Node>, nx: Links, pv: Links, n: nat)
    requires |ns| == |nx| == |pv| && n <= |ns| && StoredNext(ns, nx) && StoredPrev(ns, pv)
    ensures StoredNext(ns[..n], nx[..n]) && StoredPrev(ns[..n], pv[..n])
  {
  }

  lemma StoredBack(ns: seq<Node>, nx: Links, pv: Links)
    requires |ns| == |nx| == |pv| > 0 && StoredNext(ns, nx) && StoredPrev(ns, pv)
    ensures StoredNext(ns[1..], nx[1..]) && StoredPrev(ns[1..], pv[1..])
  {
  }
}

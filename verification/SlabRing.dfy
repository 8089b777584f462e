/**
 The circular list of slabs of include/slab.c, front first along `prev`, proved against the sequence of its slabs.
 */
module SlabRing {
  import opened Sequences

  /** A slab: the page it manages, its links, the number of objects handed out and the head of its free list. */
  class Slab {
    const mem: nat
    var next: Slab
    var prev: Slab
    var bufcount: nat
    var freeList: nat

    constructor (mem: nat)
      ensures this.mem == mem && next == this && prev == this && bufcount == 0 && freeList == mem
    {
      this.mem, bufcount, freeList := mem, 0, mem;
      next, prev := this, this;
    }
  }

  /** Along prev to the back and round to the front, along next the other way. */
  ghost predicate Ring(ns: seq<Slab>, nx: seq<Slab>, pv: seq<Slab>) {
    && |ns| == |nx| == |pv|
    && (forall i :: 0 <= i < |ns| ==> pv[i] == (if i + 1 < |ns| then ns[i + 1] else ns[0]))
    && (forall i :: 0 <= i < |ns| ==> nx[i] == (if i > 0 then ns[i - 1] else ns[|ns| - 1]))
  }

  ghost predicate StoredNext(ns: seq<Slab>, nx: seq<Slab>)
    requires |nx| == |ns|
    reads (set n | n in ns)`next
  {
    forall i :: 0 <= i < |ns| ==> ns[i].next == nx[i]
  }

  ghost predicate StoredPrev(ns: seq<Slab>, pv: seq<Slab>)
    requires |pv| == |ns|
    reads (set n | n in ns)`prev
  {
    forall i :: 0 <= i < |ns| ==> ns[i].prev == pv[i]
  }

  ghost function Before(n: nat, i: nat): nat
    requires i < n
  {
    if i > 0 then i - 1 else n - 1
  }

  ghost function After(n: nat, i: nat): nat
    requires i < n
  {
    if i + 1 < n then i + 1 else 0
  }

  /** The links once slab i is bridged by its neighbours: first the prev of the one before it, then the next of the one
      after. */
  lemma BridgeRing(ns: seq<Slab>, nx: seq<Slab>, pv: seq<Slab>, i: nat)
    requires Ring(ns, nx, pv) && i < |ns|
    ensures Before(|ns|, i) < |ns| && After(|ns|, i) < |ns|
    ensures nx[i] == ns[Before(|ns|, i)] && pv[i] == ns[After(|ns|, i)]
    ensures Ring(DropAt(ns, i), DropAt(nx[After(|ns|, i) := nx[i]], i), DropAt(pv[Before(|ns|, i) := pv[i]], i))
  {
    DropAtIs(ns, i);
    DropAtIs(nx[After(|ns|, i) := nx[i]], i);
    DropAtIs(pv[Before(|ns|, i) := pv[i]], i);
  }

  /** The links once s is put between back and front: as the new front, or as the new back. */
  lemma JoinRing(ns: seq<Slab>, nx: seq<Slab>, pv: seq<Slab>, s: Slab)
    requires Ring(ns, nx, pv) && NoDup(ns) && ns != [] && s !in ns
    ensures var n := |ns|;
            && Ring([s] + ns, [ns[n - 1]] + nx[0 := s], [ns[0]] + pv[n - 1 := s])
            && Ring(ns + [s], nx[0 := s] + [ns[n - 1]], pv[n - 1 := s] + [ns[0]])
            && NoDup([s] + ns) && NoDup(ns + [s])
  {
    var a, b := [s] + ns, ns + [s];
    assert forall i :: 0 < i < |a| ==> a[i] == ns[i - 1];
    assert forall i :: 0 <= i < |ns| ==> b[i] == ns[i];
  }

  method SetNext(n: Slab, v: Slab, ghost ns: seq<Slab>, ghost nx: seq<Slab>, ghost k: nat)
    requires |nx| == |ns| && NoDup(ns) && StoredNext(ns, nx) && k < |ns| && n == ns[k]
    modifies n`next
    ensures StoredNext(ns, nx[k := v]) && n.next == v
  {
    n.next := v;
  }

  method SetPrev(n: Slab, v: Slab, ghost ns: seq<Slab>, ghost pv: seq<Slab>, ghost k: nat)
    requires |pv| == |ns| && NoDup(ns) && StoredPrev(ns, pv) && k < |ns| && n == ns[k]
    modifies n`prev
    ensures StoredPrev(ns, pv[k := v]) && n.prev == v
  {
    n.prev := v;
  }

  lemma StoredAt(ns: seq<Slab>, nx: seq<Slab>, pv: seq<Slab>, i: nat)
    requires |ns| == |nx| == |pv| && StoredNext(ns, nx) && StoredPrev(ns, pv) && i < |ns|
    ensures ns[i].next == nx[i] && ns[i].prev == pv[i]
  {
  }

  lemma StoredWithout(ns: seq<Slab>, nx: seq<Slab>, pv: seq<Slab>, i: nat)
    requires |ns| == |nx| == |pv| && StoredNext(ns, nx) && StoredPrev(ns, pv) && i < |ns|
    ensures |DropAt(ns, i)| == |DropAt(nx, i)| == |DropAt(pv, i)|
    ensures StoredNext(DropAt(ns, i), DropAt(nx, i)) && StoredPrev(DropAt(ns, i), DropAt(pv, i))
  {
    DropAtIs(ns, i);
    DropAtIs(nx, i);
    DropAtIs(pv, i);
  }

  lemma StoredJoin(ns: seq<Slab>, nx: seq<Slab>, pv: seq<Slab>, s: Slab, a: Slab, b: Slab)
    requires |ns| == |nx| == |pv| && StoredNext(ns, nx) && StoredPrev(ns, pv) && s.next == a && s.prev == b
    ensures StoredNext([s] + ns, [a] + nx) && StoredPrev([s] + ns, [b] + pv)
    ensures StoredNext(ns + [s], nx + [a]) && StoredPrev(ns + [s], pv + [b])
  {
  }

  lemma Same(ns: seq<Slab>, i: nat, j: nat)
    requires NoDup(ns) && i < |ns| && j < |ns|
    ensures ns[i] == ns[j] <==> i == j
  {
  }

  class List {
    var slabs: Slab?
    var slabsBack: Slab?
    ghost var all: seq<Slab>
    ghost var nx: seq<Slab>
    ghost var pv: seq<Slab>

    ghost predicate Linked()
      reads this, (set n | n in all)`next, (set n | n in all)`prev
    {
      && |all| == |nx| == |pv| && Ring(all, nx, pv) && NoDup(all) && StoredNext(all, nx) && StoredPrev(all, pv)
      && (if all == [] then slabs == null && slabsBack == null else slabs == all[0] && slabsBack == all[|all| - 1])
    }

    constructor ()
      ensures Linked() && all == []
    {
      slabs, slabsBack, all, nx, pv := null, null, [], [], [];
    }

    ghost method Record(ns: seq<Slab>, nx': seq<Slab>, pv': seq<Slab>)
      requires |ns| == |nx'| == |pv'| && Ring(ns, nx', pv') && NoDup(ns) && StoredNext(ns, nx')
      requires StoredPrev(ns, pv')
      requires if ns == [] then slabs == null && slabsBack == null else slabs == ns[0] && slabsBack == ns[|ns| - 1]
      modifies `all, `nx, `pv
      ensures Linked() && all == ns
    {
      hide Ring, NoDup, StoredNext, StoredPrev;
      all, nx, pv := ns, nx', pv';
    }

    /** __slab_remove on a slab of the list. */
    method Remove(s: Slab, ghost i: nat)
      requires Linked() && i < |all| && s == all[i]
      modifies this, (set n | n in all)`next, (set n | n in all)`prev
      ensures Linked() && all == DropAt(old(all), i) && s !in all
    {
      hide Ring, NoDup, StoredNext, StoredPrev;
      ghost var n := |all|;
      BridgeRing(all, nx, pv, i);
      DropAtNoDup(all, i);
      DropAtIs(all, i);
      StoredAt(all, nx, pv, i);
      Same(all, i, 0);
      Same(all, i, n - 1);
      Same(all, i, Before(n, i));
      Same(all, i, After(n, i));
      var a, b := s.next, s.prev;
      SetPrev(a, b, all, pv, Before(n, i));
      SetNext(b, a, all, nx, After(n, i));
      if slabs == s {
        if s.prev == s { slabs := null; } else { slabs := s.prev; }
      }
      if slabsBack == s {
        if s.next == s { slabsBack := null; } else { slabsBack := s.next; }
      }
      StoredWithout(all, nx[After(n, i) := nx[i]], pv[Before(n, i) := pv[i]], i);
      Record(DropAt(all, i), DropAt(nx[After(n, i) := nx[i]], i), DropAt(pv[Before(n, i) := pv[i]], i));
    }

    /** The end of __slab_move_to_front: s, in no list, becomes the front.  For a slab linked only to itself the
        preceding __slab_remove changes nothing. */
    method JoinFront(s: Slab)
      requires Linked() && s !in all
      modifies this, (set n | n in all)`next, (set n | n in all)`prev, s`next, s`prev
      ensures Linked() && all == [s] + old(all)
    {
      hide Ring, NoDup, StoredNext, StoredPrev;
      if slabs == null {
        s.prev, s.next := s, s;
        slabsBack, slabs := s, s;
        SingleRing(s);
        Record([s], [s], [s]);
        assert all == [s] + [];
      } else {
        Join(s);
        slabs := s;
        ghost var n := |all|;
        Record([s] + all, [all[n - 1]] + nx[0 := s], [all[0]] + pv[n - 1 := s]);
      }
    }

    method JoinBack(s: Slab)
      requires Linked() && s !in all
      modifies this, (set n | n in all)`next, (set n | n in all)`prev, s`next, s`prev
      ensures Linked() && all == old(all) + [s]
    {
      hide Ring, NoDup, StoredNext, StoredPrev;
      if slabs == null {
        s.prev, s.next := s, s;
        slabs, slabsBack := s, s;
        SingleRing(s);
        Record([s], [s], [s]);
        assert all == [] + [s];
      } else {
        Join(s);
        slabsBack := s;
        ghost var n := |all|;
        Record(all + [s], nx[0 := s] + [all[n - 1]], pv[n - 1 := s] + [all[0]]);
      }
    }

    /** The four link assignments both moves share. */
    method Join(s: Slab)
      requires Linked() && s !in all && all != []
      modifies (set n | n in all)`next, (set n | n in all)`prev, s`next, s`prev
      ensures var n := |all|; var nx', pv' := nx[0 := s], pv[n - 1 := s]; var a, b := all[n - 1], all[0];
              && StoredNext([s] + all, [a] + nx') && StoredPrev([s] + all, [b] + pv')
              && StoredNext(all + [s], nx' + [a]) && StoredPrev(all + [s], pv' + [b])
              && Ring([s] + all, [a] + nx', [b] + pv') && Ring(all + [s], nx' + [a], pv' + [b])
              && NoDup([s] + all) && NoDup(all + [s])
    {
      hide Ring, NoDup, StoredNext, StoredPrev;
      ghost var n := |all|;
      JoinRing(all, nx, pv, s);
      s.prev := slabs;
      SetNext(slabs, s, all, nx, 0);
      s.next := slabsBack;
      SetPrev(slabsBack, s, all, pv, n - 1);
      StoredJoin(all, nx[0 := s], pv[n - 1 := s], s, slabsBack, slabs);
    }

    /** __slab_move_to_front on a slab of the list. */
    method MoveToFront(s: Slab, ghost i: nat)
      requires Linked() && i < |all| && s == all[i]
      modifies this, (set n | n in all)`next, (set n | n in all)`prev
      ensures Linked() && all == [s] + DropAt(old(all), i)
    {
      hide Ring, NoDup, StoredNext, StoredPrev;
      Same(all, i, 0);
      if slabs == s {
        assert all == [s] + DropAt(all, 0);
        return;
      }
      Remove(s, i);
      JoinFront(s);
    }

    /** __slab_move_to_back on the front slab. */
    method MoveToBack(s: Slab, ghost i: nat)
      requires Linked() && i < |all| && s == all[i]
      modifies this, (set n | n in all)`next, (set n | n in all)`prev
      ensures Linked() && all == DropAt(old(all), i) + [s]
    {
      hide Ring, NoDup, StoredNext, StoredPrev;
      Same(all, i, |all| - 1);
      if slabsBack == s {
        assert all == DropAt(all, |all| - 1) + [s];
        return;
      }
      Remove(s, i);
      JoinBack(s);
    }
  }

  lemma SingleRing(s: Slab)
    requires s.next == s && s.prev == s
    ensures Ring([s], [s], [s]) && NoDup([s]) && StoredNext([s], [s]) && StoredPrev([s], [s])
  {
  }
}

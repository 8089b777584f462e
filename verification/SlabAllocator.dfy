/**
 kmem_cache_create, alloc and free of include/slab.c for small objects: what is handed out is never handed out
 again before it is freed, whatever its users write into it.
 */
module SlabAllocator {
  import opened Sequences
  import opened Arithmetic
  import opened SlabRing
  import opened SlabCache

  /** Counter and free-list head of slab s are set, and recorded. */
  method SetSlab(s: Slab, count: nat, head: nat, ghost all: seq<Slab>, ghost info: map<Slab, Info>,
                 ghost chain: seq<nat>)
    requires Mirrors(all, info) && NoDup(all) && s in all
    modifies s`bufcount, s`freeList
    ensures Mirrors(all, info[s := Info(count, head, chain)])
  {
    s.bufcount, s.freeList := count, head;
  }

  lemma MirrorsAt(all: seq<Slab>, info: map<Slab, Info>, s: Slab)
    requires Mirrors(all, info) && s in all
    ensures s in info && s.bufcount == info[s].count && s.freeList == info[s].head
  {
    var i :| 0 <= i < |all| && all[i] == s;
  }

  lemma MirrorsAll(all: seq<Slab>, info: map<Slab, Info>)
    requires Mirrors(all, info)
    ensures forall s :: s in all ==> s in info && s.bufcount == info[s].count
  {
    forall s | s in all ensures s in info && s.bufcount == info[s].count { MirrorsAt(all, info, s); }
  }

  lemma MirrorsSame(all: seq<Slab>, all': seq<Slab>, info: map<Slab, Info>)
    requires Mirrors(all, info) && forall s :: s in all' ==> s in all
    ensures Mirrors(all', info)
  {
    forall i | 0 <= i < |all'|
      ensures all'[i] in info && all'[i].bufcount == info[all'[i]].count && all'[i].freeList == info[all'[i]].head
    {
      assert all'[i] in all';
      MirrorsAt(all, info, all'[i]);
    }
  }

  // ---------------------------------------------------------------- when the cache grows

  /** Allocation i, counted from a state with the given room, has to grow the cache. */
  ghost predicate Due(room: nat, maxbuf: nat, i: nat) { exists q: nat :: Multiple(room, maxbuf, i, q) }

  ghost predicate Multiple(room: nat, maxbuf: nat, i: nat, q: nat) { i == room + q * maxbuf }

  /** After q growths an allocation is due exactly when there is no room left. */
  lemma DueNow(room: nat, maxbuf: nat, i: nat, q: nat, left: nat)
    requires left + i == room + q * maxbuf && (q > 0 ==> left < maxbuf) && maxbuf > 0
    ensures Due(room, maxbuf, i) <==> left == 0
  {
    if left == 0 { assert Multiple(room, maxbuf, i, q); }
    if Due(room, maxbuf, i) {
      var p: nat :| Multiple(room, maxbuf, i, p);
      if p < q { MulLe(maxbuf, p, q); }
      if p > q { MulLe(maxbuf, q, p); }
    }
  }

  lemma MulNext(q: nat, maxbuf: nat)
    ensures (q + 1) * maxbuf == q * maxbuf + maxbuf
  {
  }

  lemma PageIsNew(mems: seq<nat>, n: nat)
    requires n < |mems| && NoDup(mems)
    ensures mems[n] !in mems[..n]
  {
  }

  lemma TakeOne(mems: seq<nat>, n: nat)
    requires n < |mems|
    ensures forall x :: x in mems[..n] || x == mems[n] ==> x in mems[..n + 1]
  {
    assert mems[..n + 1] == mems[..n] + [mems[n]];
  }

  // ---------------------------------------------------------------- free objects

  /** The number of free objects of the slabs. */
  ghost function RoomIn(all: seq<Slab>, info: map<Slab, Info>): nat {
    if all == [] then 0 else (if all[0] in info then |info[all[0]].chain| else 0) + RoomIn(all[1..], info)
  }

  lemma {:induction false} RoomConcat(a: seq<Slab>, b: seq<Slab>, info: map<Slab, Info>)
    ensures RoomIn(a + b, info) == RoomIn(a, info) + RoomIn(b, info)
    decreases a
  {
    if a == [] {
      assert a + b == b;
    } else {
      RoomConcat(a[1..], b, info);
      assert (a + b)[1..] == a[1..] + b;
    }
  }

  lemma {:induction false} RoomSame(all: seq<Slab>, info: map<Slab, Info>, s: Slab, x: Info)
    requires s !in all
    ensures RoomIn(all, info[s := x]) == RoomIn(all, info)
    decreases all
  {
    if all != [] { RoomSame(all[1..], info, s, x); }
  }

  lemma RoomOne(s: Slab, info: map<Slab, Info>)
    requires s in info
    ensures RoomIn([s], info) == |info[s].chain|
  {
    assert [s][1..] == [];
  }

  /** The free objects of one slab and of the others, wherever it is moved. */
  lemma RoomSplit(all: seq<Slab>, info: map<Slab, Info>, i: nat)
    requires i < |all| && all[i] in info
    ensures var w := DropAt(all, i); var n := |info[all[i]].chain|;
            && RoomIn(all, info) == RoomIn(w, info) + n
            && RoomIn([all[i]] + w, info) == RoomIn(w, info) + n && RoomIn(w + [all[i]], info) == RoomIn(w, info) + n
  {
    var s, a, b := all[i], all[..i], all[i + 1..];
    assert all == a + ([s] + b);
    RoomConcat(a, [s] + b, info);
    RoomConcat([s], b, info);
    RoomConcat(a, b, info);
    RoomConcat([s], a + b, info);
    RoomConcat(a + b, [s], info);
    RoomOne(s, info);
  }

  /** Only slab i changes, and it may be moved. */
  lemma RoomChange(all: seq<Slab>, info: map<Slab, Info>, i: nat, x: Info)
    requires i < |all| && NoDup(all) && all[i] in info
    ensures var s, w, info' := all[i], DropAt(all, i), info[all[i] := x];
            && RoomIn(all, info') - |x.chain| == RoomIn(all, info) - |info[s].chain| == RoomIn(w, info')
            && RoomIn([s] + w, info') == RoomIn(all, info') && RoomIn(w + [s], info') == RoomIn(all, info')
  {
    RoomSplit(all, info, i);
    RoomSplit(all, info[all[i] := x], i);
    DropAtNoDup(all, i);
    hide DropAt, NoDup;
    RoomSame(DropAt(all, i), info, all[i], x);
  }

  lemma TakeRoom(all: seq<Slab>, info: map<Slab, Info>, x: Info)
    requires all != [] && NoDup(all) && all[0] in info && |x.chain| + 1 == |info[all[0]].chain|
    ensures var info' := info[all[0] := x];
            && RoomIn(all, info') + 1 == RoomIn(all, info)
            && RoomIn(DropAt(all, 0) + [all[0]], info') + 1 == RoomIn(all, info)
    ensures |DropAt(all, 0) + [all[0]]| == |all|
  {
    RoomChange(all, info, 0, x);
  }

  lemma FreeRoom(all: seq<Slab>, info: map<Slab, Info>, i: nat, x: Info, maxbuf: nat)
    requires i < |all| && NoDup(all) && all[i] in info && |x.chain| == |info[all[i]].chain| + 1
    requires info[all[i]].count + |info[all[i]].chain| == maxbuf && x.count + 1 == info[all[i]].count
    ensures var info' := info[all[i] := x];
            && RoomIn(all, info') == RoomIn(all, info) + 1
            && RoomIn([all[i]] + DropAt(all, i), info') == RoomIn(all, info) + 1
            && (x.count == 0 ==> RoomIn(DropAt(all, i), info') + maxbuf == RoomIn(all, info) + 1)
    ensures |DropAt(all, i)| + 1 == |all| == |[all[i]] + DropAt(all, i)|
  {
    RoomChange(all, info, i, x);
  }

  /** There is no room exactly when all slabs are full. */
  lemma {:induction false} NoRoom(all: seq<Slab>, part: seq<Slab>, info: map<Slab, Info>, eff: nat, maxbuf: nat,
                                  word: map<nat, nat>, live: set<nat>)
    requires Shape(all, info, eff, maxbuf, word, live) && forall s :: s in part ==> s in all
    ensures (forall s :: s in part ==> s in info)
    ensures RoomIn(part, info) == 0 <==> forall s :: s in part ==> info[s].count == maxbuf
    decreases part
  {
    hide FreeChain, LiveIs, Ordered;
    if part != [] {
      assert part[0] in part && SlabOk(part[0], info[part[0]], eff, maxbuf, word);
      assert forall s :: s in part[1..] ==> s in part;
      NoRoom(all, part[1..], info, eff, maxbuf, word, live);
      assert forall s :: s in part ==> s == part[0] || s in part[1..];
    }
  }

  class Cache {
    const effsize: nat
    const maxbuf: nat
    const list: List
    var word: map<nat, nat>         // words of memory, by address
    var headers: map<nat, Slab>     // the slab header at the end of a page
    ghost var info: map<Slab, Info>
    ghost var live: set<nat>

    ghost predicate Core()
      reads this, list, list.all
    {
      && list.Linked() && Mirrors(list.all, info) && Shape(list.all, info, effsize, maxbuf, word, live)
      && HeadersOk(list.all, headers)
    }

    /** Between calls no slab is without live objects. */
    ghost predicate Valid()
      reads this, list, list.all
    {
      Core() && Busy(list.all, info)
    }

    static ghost predicate Busy(all: seq<Slab>, info: map<Slab, Info>) {
      forall s :: s in all ==> s in info && info[s].count > 0
    }

    static ghost predicate HeadersOk(all: seq<Slab>, headers: map<nat, Slab>) {
      forall s :: s in all ==> s.mem in headers && headers[s.mem] == s
    }

    /** The number of objects that can be handed out before the cache has to grow. */
    ghost function Room(): nat
      reads this, list
    {
      RoomIn(list.all, info)
    }

    /** kmem_cache_create for an object size and alignment that leave room for two objects per page. */
    constructor (size: nat, align0: nat)
      requires 0 < size <= PAGE / 8 && 8 <= EffSize(size, Align(align0)) <= (PAGE - HEADER) / 2
      ensures Valid() && live == {} && fresh(list) && list.all == []
      ensures Sized(size, Align(align0), effsize, maxbuf)
    {
      hide EffSize, MaxBuf, Align, Sized, Shape;
      var align := Align(align0);
      var eff := EffSize(size, align);
      var many := MaxBuf(eff);
      SizedIs(size, align);
      EmptyShape(eff, many);
      effsize, maxbuf := eff, many;
      list := new List();
      word, headers, info, live := map[], map[], map[], {};
    }

    /** A cache, one page of its own for every slab, is grown by one slab that becomes the front. */
    method Grow(mem: nat)
      requires Core() && Busy(list.all, info) && mem % PAGE == 0 && forall s :: s in list.all ==> s.mem != mem
      modifies this, list, (set s | s in list.all)`next, (set s | s in list.all)`prev
      ensures Core() && live == old(live) && list.all != [] && list.all[1..] == old(list.all)
      ensures fresh(list.all[0]) && list.all[0].mem == mem && list.all[0] in info && info[list.all[0]].count == 0
      ensures Busy(list.all[1..], info) && Room() == old(Room()) + maxbuf
    {
      hide Shape, Mirrors, List.Linked, Fits, Busy, HeadersOk, RoomIn;
      var s := new Slab(mem);
      ghost var w0 := word;
      FitsOf(list.all, info, effsize, maxbuf, word, live);
      LinkObjects(mem);
      ghost var chain := seq(maxbuf, i => i);
      ghost var x := Info(0, mem, chain);
      GrowShape(list.all, info, effsize, maxbuf, w0, word, live, s, x);
      GrowMirrors(list.all, info, s, x);
      GrowBusy(list.all, info, s, x);
      GrowHeaders(list.all, headers, s);
      ghost var all0 := list.all;
      info := info[s := x];
      headers := headers[mem := s];
      GrowRoom(all0, old(info), s, x);
      list.JoinFront(s);
      assert list.all[1..] == all0;
    }

    static lemma GrowRoom(all: seq<Slab>, info: map<Slab, Info>, s: Slab, x: Info)
      requires s !in all
      ensures RoomIn([s] + all, info[s := x]) == RoomIn(all, info) + |x.chain|
    {
      RoomSame(all, info, s, x);
      assert ([s] + all)[1..] == all;
    }

    /** kmem_cache_alloc.  mem is the page posix_memalign would return and junk the unset word of a last object.
        The object handed out was not live; the cache grows, by one slab, exactly when there is no room. */
    method Alloc(mem: nat, junk: nat) returns (r: nat, grown: bool)
      requires Valid() && mem % PAGE == 0 && forall s :: s in list.all ==> s.mem != mem
      modifies this, list, list.all
      ensures Valid() && r !in old(live) && live == old(live) + {r}
      ensures grown <==> forall s :: s in old(list.all) ==> old(s.bufcount) == maxbuf
      ensures grown ==> mem <= r < mem + PAGE
      ensures grown <==> old(Room()) == 0
      ensures Room() + 1 == old(Room()) + (if grown then maxbuf else 0)
      ensures forall s :: s in list.all ==> s in old(list.all) || (grown && s.mem == mem && fresh(s))
      ensures |list.all| == old(|list.all|) + (if grown then 1 else 0)
    {
      hide Shape, Mirrors, List.Linked, Busy, HeadersOk, RoomIn;
      grown := false;
      AllFull();
      NoRoom(list.all, list.all, info, effsize, maxbuf, word, live);
      MirrorsAll(list.all, info);
      if list.slabs == null {
        Grow(mem);
        grown := true;
      } else if list.slabs.bufcount == maxbuf {
        Grow(mem);
        grown := true;
      } else {
        SameBusy(list.all, list.all[1..], info);
      }
      MirrorsAt(list.all, info, list.all[0]);
      ChainLeft(list.all, info, effsize, maxbuf, word, live, list.all[0]);
      r := Take(junk);
    }

    /** A run of allocations without a free, from any state: after the room there was is used up the cache grows at
        every maxbuf-th object and at no other, and no object is handed out twice. */
    method AllocRun(mems: seq<nat>, junk: nat) returns (rs: seq<nat>, grown: seq<bool>)
      requires Valid() && NoDup(mems) && forall i :: 0 <= i < |mems| ==>
        mems[i] % PAGE == 0 && forall s :: s in list.all ==> s.mem != mems[i]
      modifies this, list, list.all
      ensures Valid() && |rs| == |grown| == |mems|
      ensures forall i :: 0 <= i < |mems| ==> (grown[i] <==> Due(old(Room()), maxbuf, i))
      ensures NoDup(rs) && (forall i :: 0 <= i < |rs| ==> rs[i] !in old(live)) && live == old(live) + set r | r in rs
    {
      hide Mirrors, List.Linked, Busy, HeadersOk, RoomIn, Due, Shape;
      rs, grown := [], [];
      ghost var room, q := Room(), 0;
      TwoPerPage();
      while |rs| < |mems|
        invariant Valid() && |rs| == |grown| <= |mems|
        invariant forall s :: s in list.all ==> s in old(list.all) || (fresh(s) && s.mem in mems[..|rs|])
        invariant Room() + |rs| == room + q * maxbuf && (q > 0 ==> Room() < maxbuf)
        invariant forall i :: 0 <= i < |rs| ==> (grown[i] <==> Due(room, maxbuf, i))
        invariant NoDup(rs) && (forall i :: 0 <= i < |rs| ==> rs[i] !in old(live))
        invariant live == old(live) + set r | r in rs
      {
        DueNow(room, maxbuf, |rs|, q, Room());
        PageIsNew(mems, |rs|);
        assert forall i :: 0 <= i < |list.all| ==> list.all[i] in old(list.all) || fresh(list.all[i]);
        var r, g := Alloc(mems[|rs|], junk);
        AppendNoDup(rs, r);
        TakeOne(mems, |rs|);
        if g {
          MulNext(q, maxbuf);
          q := q + 1;
        }
        rs, grown := rs + [r], grown + [g];
      }
    }

    lemma TwoPerPage()
      requires Valid()
      ensures maxbuf >= 2
    {
      hide Mirrors, List.Linked, Busy, HeadersOk;
    }

    /** The head of the front slab's free list is handed out; a slab that becomes full moves to the back. */
    method Take(junk: nat) returns (r: nat)
      requires Core() && list.all != [] && list.all[0].bufcount < maxbuf && Busy(list.all[1..], info)
      modifies `info, `live, list, list.all
      ensures Valid() && r !in old(live) && live == old(live) + {r} && r / PAGE * PAGE == old(list.all[0].mem)
      ensures Room() + 1 == old(Room()) && |list.all| == |old(list.all)|
      ensures forall s :: s in list.all ==> s in old(list.all)
    {
      hide Shape, Mirrors, Busy, HeadersOk, Ring, StoredNext, StoredPrev, NoDup, RoomIn, DropAt;
      var s := list.slabs;
      ghost var all := list.all;
      MirrorsAt(all, info, s);
      ChainLeft(all, info, effsize, maxbuf, word, live, s);
      r := s.freeList;
      var h := if r in word then word[r] else junk;
      ghost var x := Info(info[s].count + 1, h, info[s].chain[1..]);
      ghost var info' := info[s := x];
      TakeShape(all, info, effsize, maxbuf, word, live, s, x, info');
      TakeBusy(all, info, info', s);
      LinkedDistinct(list);
      TakeRoom(all, info, x);
      SetSlab(s, s.bufcount + 1, h, all, info, info[s].chain[1..]);
      info, live := info', live + {r};
      if s.bufcount == maxbuf {
        list.MoveToBack(s, 0);
        Members(all, 0);
        MirrorsSame(all, list.all, info);
        SameBusy(all, list.all, info);
        SameHeaders(all, list.all, headers);
      }
    }

    static lemma TakeBusy(all: seq<Slab>, info: map<Slab, Info>, info': map<Slab, Info>, s: Slab)
      requires all != [] && s == all[0] && Busy(all[1..], info) && s in info' && info' == info[s := info'[s]]
      requires info'[s].count > 0
      ensures Busy(all, info')
    {
      assert forall t :: t in all ==> t == s || t in all[1..];
    }

    static lemma SameBusy(all: seq<Slab>, all': seq<Slab>, info: map<Slab, Info>)
      requires Busy(all, info) && forall t :: t in all' ==> t in all
      ensures Busy(all', info)
    {
    }

    static lemma SameHeaders(all: seq<Slab>, all': seq<Slab>, headers: map<nat, Slab>)
      requires HeadersOk(all, headers) && forall t :: t in all' ==> t in all
      ensures HeadersOk(all', headers)
    {
    }

    /** kmem_cache_free on a live object: its page is given back with its last object, and a slab that was full
        moves to the front. */
    method Free(buf: nat)
      requires Valid() && buf in live
      modifies this, list, list.all
      ensures Valid() && live == old(live) - {buf}
      ensures forall s :: s in list.all ==> s in old(list.all)
      ensures |list.all| == |old(list.all)| || |list.all| + 1 == |old(list.all)|
      ensures Room() == old(Room()) + 1 - (if |list.all| < |old(list.all)| then maxbuf else 0)
    {
      hide Shape, Mirrors, Busy, HeadersOk, List.Linked, NoDup, DropAt, RoomIn;
      ghost var all := list.all;
      LinkedDistinct(list);
      ghost var i, k := Owner(all, info, effsize, maxbuf, word, live, headers, buf);
      var s := headers[buf / PAGE * PAGE];
      MirrorsAt(all, info, s);
      BusyAt(all, info, s);
      ChainLeft(all, info, effsize, maxbuf, word, live, s);
      ghost var x := info[s];
      ghost var info' := info[s := Info(x.count - 1, buf, [k] + x.chain)];
      FreeShape(all, info, effsize, maxbuf, word, live, i, k, info');
      Members(all, i);
      word := word[buf := s.freeList];
      SetSlab(s, s.bufcount - 1, buf, all, info, [k] + x.chain);
      FreeBusy(all, info, info', s, i);
      FreeRoom(all, info, i, Info(x.count - 1, buf, [k] + x.chain), maxbuf);
      info, live := info', live - {buf};
      if s.bufcount == 0 {
        list.Remove(s, i);
      }
      if s.bufcount == maxbuf - 1 {
        list.MoveToFront(s, i);
      }
      MirrorsSame(all, list.all, info);
      SameHeaders(all, list.all, headers);
    }

    static lemma FreeBusy(all: seq<Slab>, info: map<Slab, Info>, info': map<Slab, Info>, s: Slab, i: nat)
      requires Busy(all, info) && i < |all| && s == all[i] && NoDup(all) && s in info'
      requires info' == info[s := info'[s]]
      ensures Busy(DropAt(all, i), info')
      ensures info'[s].count > 0 ==> Busy(all, info') && Busy([s] + DropAt(all, i), info')
    {
      Members(all, i);
    }

    static lemma BusyAt(all: seq<Slab>, info: map<Slab, Info>, s: Slab)
      requires Busy(all, info) && s in all
      ensures s in info && info[s].count > 0
    {
    }

    static lemma LinkedDistinct(l: List)
      requires l.Linked()
      ensures NoDup(l.all)
    {
    }

    /** A user writes any words of an object it holds. */
    method UserWrite(a: nat, content: map<nat, nat>)
      requires Valid() && a in live && forall x :: x in content ==> a <= x && x + 8 <= a + effsize
      modifies `word
      ensures Valid() && live == old(live)
    {
      hide Mirrors, Busy, HeadersOk, List.Linked, LiveIs, Ordered;
      LiveWords(list.all, info, effsize, maxbuf, word, live, a, content);
      word := word + content;
    }

    /** In every state between calls live objects are aligned, lie below the header of their page and do not overlap. */
    lemma LiveFacts(align: nat)
      requires Valid() && align > 0 && effsize % align == 0 && PAGE % align == 0
      ensures forall a, b :: a in live && b in live && a != b ==> a + effsize <= b || b + effsize <= a
      ensures forall a :: a in live ==> a % align == 0 && a % PAGE + effsize <= PAGE - HEADER
    {
      hide Mirrors, Busy, HeadersOk, List.Linked, Shape;
      forall a, b | a in live && b in live && a != b ensures a + effsize <= b || b + effsize <= a {
        LiveDisjoint(list.all, info, effsize, maxbuf, word, live, a, b);
      }
      forall a | a in live ensures a % align == 0 && a % PAGE + effsize <= PAGE - HEADER {
        LiveInside(list.all, info, effsize, maxbuf, word, live, a, align);
      }
    }

    /** The front slab is full exactly when every slab is. */
    lemma AllFull()
      requires Core()
      ensures list.slabs == null <==> list.all == []
      ensures list.slabs != null ==>
        && list.slabs == list.all[0]
        && (list.slabs.bufcount == maxbuf <==> forall s :: s in list.all ==> s.bufcount == maxbuf)
    {
    }

    /** The loop that threads the free list through the objects; the word of the last object is not set. */
    method LinkObjects(mem: nat)
      requires Fits(effsize, maxbuf) && mem % PAGE == 0
      modifies `word
      ensures FreeChain(mem, effsize, maxbuf, mem, seq(maxbuf, i => i), word)
      ensures SameElsewhere(old(word), word, mem)
    {
      var k := 0;
      while k < maxbuf - 1
        invariant 0 <= k <= maxbuf - 1 && SameElsewhere(old(word), word, mem)
        invariant forall i: nat :: i < k ==> ObjLinked(mem, effsize, i, word)
      {
        var a := Obj(mem, effsize, k);
        LinkKeeps(mem, effsize, maxbuf, k, word, word[a := Obj(mem, effsize, k + 1)]);
        PageOf(mem, effsize, maxbuf, k);
        word := word[a := Obj(mem, effsize, k + 1)];
        k := k + 1;
      }
      AllLinked(mem, effsize, maxbuf, word);
    }
  }

  lemma AllLinked(mem: nat, eff: nat, maxbuf: nat, word: map<nat, nat>)
    requires forall i: nat :: i + 1 < maxbuf ==> ObjLinked(mem, eff, i, word)
    ensures FreeChain(mem, eff, maxbuf, mem, seq(maxbuf, i => i), word)
  {
    var chain := seq(maxbuf, i => i);
    forall i: nat | i + 1 < |chain|
      ensures Obj(mem, eff, chain[i]) in word && word[Obj(mem, eff, chain[i])] == Obj(mem, eff, chain[i + 1])
    {
      assert ObjLinked(mem, eff, i, word);
    }
  }

  lemma TakeShape(all: seq<Slab>, info: map<Slab, Info>, eff: nat, maxbuf: nat, word: map<nat, nat>, live: set<nat>,
                  s: Slab, x: Info, info': map<Slab, Info>)
    requires Shape(all, info, eff, maxbuf, word, live) && NoDup(all) && all != [] && s == all[0] && s in info
    requires info[s].count < maxbuf
    requires info[s].head in word ==> x.head == word[info[s].head]
    requires info[s].chain != [] ==> x == Info(info[s].count + 1, x.head, info[s].chain[1..])
    requires info' == info[s := x]
    ensures info[s].chain != [] && info[s].head !in live && info[s].head / PAGE * PAGE == s.mem
    ensures x.count < maxbuf ==> Shape(all, info', eff, maxbuf, word, live + {info[s].head})
    ensures x.count == maxbuf ==> Shape(DropAt(all, 0) + [s], info', eff, maxbuf, word, live + {info[s].head})
  {
    hide LiveIs, FreeChain, Fits;
    assert s in all && SlabOk(s, info[s], eff, maxbuf, word);
    HeadIs(s, info[s], eff, maxbuf, word);
    TakeLive(all, info, eff, maxbuf, word, live, s, x);
    var live' := live + {info[s].head};
    if x.count < maxbuf {
      OrderedStay(all, info, info', maxbuf);
    } else {
      OrderedMoves(all, info, info', maxbuf, 0);
      Members(all, 0);
      Reordered(all, DropAt(all, 0) + [s], info', eff, maxbuf, word, live');
    }
  }

  /** A live object belongs to the slab whose header is at the end of its page. */
  lemma Owner(all: seq<Slab>, info: map<Slab, Info>, eff: nat, maxbuf: nat, word: map<nat, nat>, live: set<nat>,
              headers: map<nat, Slab>, a: nat)
    returns (i: nat, k: nat)
    requires Shape(all, info, eff, maxbuf, word, live) && Cache.HeadersOk(all, headers) && a in live
    ensures i < |all| && k < maxbuf && all[i] in info && k !in info[all[i]].chain && a == Obj(all[i].mem, eff, k)
    ensures a / PAGE * PAGE in headers && headers[a / PAGE * PAGE] == all[i]
  {
    hide FreeChain;
    var s;
    s, k :| s in all && LiveObj(all, info, eff, maxbuf, a, s, k);
    i :| 0 <= i < |all| && all[i] == s;
    assert SlabOk(s, info[s], eff, maxbuf, word);
    PageOf(s.mem, eff, maxbuf, k);
  }

  lemma FreeShape(all: seq<Slab>, info: map<Slab, Info>, eff: nat, maxbuf: nat, word: map<nat, nat>, live: set<nat>,
                  i: nat, k: nat, info': map<Slab, Info>)
    requires Shape(all, info, eff, maxbuf, word, live) && NoDup(all) && i < |all| && k < maxbuf && all[i] in info
    requires k !in info[all[i]].chain
    requires info[all[i]].count > 0 ==>
      info' == info[all[i] := Info(info[all[i]].count - 1, Obj(all[i].mem, eff, k), [k] + info[all[i]].chain)]
    ensures var s := all[i]; var x := info[s]; var b := Obj(s.mem, eff, k); var w, l := word[b := x.head], live - {b};
            && x.count > 0 && maxbuf >= 2
            && (x.count == 1 ==> Shape(DropAt(all, i), info', eff, maxbuf, w, l))
            && (x.count == maxbuf ==> Shape([s] + DropAt(all, i), info', eff, maxbuf, w, l))
            && (1 < x.count < maxbuf ==> Shape(all, info', eff, maxbuf, w, l))
  {
    hide LiveIs, FreeChain, Obj;
    var s := all[i];
    var x := info[s];
    var b := Obj(s.mem, eff, k);
    PutLive(all, info, eff, maxbuf, word, live, s, k);
    assert SlabOk(s, x, eff, maxbuf, word);
    var w, l := word[b := x.head], live - {b};
    Members(all, i);
    OrderedMoves(all, info, info', maxbuf, i);
    if x.count == 1 { DropSlab(all, DropAt(all, i), info', eff, maxbuf, w, l, s); }
    if x.count == maxbuf { Reordered(all, [s] + DropAt(all, i), info', eff, maxbuf, w, l); }
    if 1 < x.count < maxbuf { OrderedStay(all, info, info', maxbuf); }
  }

  lemma LiveWords(all: seq<Slab>, info: map<Slab, Info>, eff: nat, maxbuf: nat, word: map<nat, nat>, live: set<nat>,
                  a: nat, content: map<nat, nat>)
    requires Shape(all, info, eff, maxbuf, word, live) && a in live
    requires forall x :: x in content ==> a <= x && x + 8 <= a + eff
    ensures Shape(all, info, eff, maxbuf, word + content, live)
  {
    hide Obj, FreeChain, Ordered;
    var s, k: nat :| s in all && LiveObj(all, info, eff, maxbuf, a, s, k);
    forall t | t in all ensures SlabOk(t, info[t], eff, maxbuf, word + content) {
      assert SlabOk(t, info[t], eff, maxbuf, word) && SlabOk(s, info[s], eff, maxbuf, word);
      WordsElsewhere(t, info[t], eff, maxbuf, word, s, k, a, content);
    }
  }

  lemma WordsElsewhere(t: Slab, x: Info, eff: nat, maxbuf: nat, word: map<nat, nat>, s: Slab, k: nat, a: nat,
                       content: map<nat, nat>)
    requires SlabOk(t, x, eff, maxbuf, word) && Fits(eff, maxbuf) && s.mem % PAGE == 0 && k < maxbuf
    requires a == Obj(s.mem, eff, k)
    requires if s == t then k !in x.chain else t.mem != s.mem
    requires forall y :: y in content ==> a <= y && y + 8 <= a + eff
    ensures SlabOk(t, x, eff, maxbuf, word + content)
  {
    hide Obj, Fits;
    forall i | 0 <= i < |x.chain| ensures Obj(t.mem, eff, x.chain[i]) !in content {
      FitsWord(eff, maxbuf);
      ObjectsApart(eff, maxbuf, t.mem, x.chain[i], s.mem, k);
    }
  }

  lemma FitsWord(eff: nat, maxbuf: nat)
    requires Fits(eff, maxbuf)
    ensures eff >= 8
  {
  }

  lemma ChainLeft(all: seq<Slab>, info: map<Slab, Info>, eff: nat, maxbuf: nat, word: map<nat, nat>, live: set<nat>,
                  s: Slab)
    requires Shape(all, info, eff, maxbuf, word, live) && s in all && s in info
    ensures maxbuf > 0 && info[s].count + |info[s].chain| == maxbuf && (info[s].count < maxbuf ==> info[s].chain != [])
  {
    assert SlabOk(s, info[s], eff, maxbuf, word);
  }

  lemma HeadIs(s: Slab, x: Info, eff: nat, maxbuf: nat, word: map<nat, nat>)
    requires SlabOk(s, x, eff, maxbuf, word) && Fits(eff, maxbuf) && x.chain != []
    ensures x.head / PAGE * PAGE == s.mem
  {
    PageOf(s.mem, eff, maxbuf, x.chain[0]);
  }

  /** kmem_cache_create's rounding of the object size. */
  function Align(align: nat): (r: nat)
    ensures r > 0
  {
    if align == 0 then 8 else align
  }

  function EffSize(size: nat, align: nat): nat
    requires size > 0 && align > 0
  {
    align * ((size - 1) / align + 1)
  }

  /** The number of objects on a page. */
  function MaxBuf(eff: nat): nat
    requires eff > 0
  {
    (PAGE - HEADER) / eff
  }

  /** The effective size is the least multiple of the alignment that holds an object, and as many of them as possible
      are on a page. */
  ghost predicate Sized(size: nat, align: nat, eff: nat, maxbuf: nat)
    requires align > 0
  {
    && size <= eff < size + align && eff % align == 0
    && maxbuf >= 2 && maxbuf * eff <= PAGE - HEADER < (maxbuf + 1) * eff
  }

  lemma SizedIs(size: nat, align: nat)
    requires size > 0 && align > 0 && 8 <= EffSize(size, align) <= (PAGE - HEADER) / 2
    ensures var eff := EffSize(size, align); Sized(size, align, eff, MaxBuf(eff)) && Fits(eff, MaxBuf(eff))
  {
    hide EffSize, MaxBuf, Fits;
    EffSizeIs(size, align);
    MaxbufFits(EffSize(size, align));
  }

  lemma EmptyShape(eff: nat, maxbuf: nat)
    requires Fits(eff, maxbuf)
    ensures Shape([], map[], eff, maxbuf, map[], {})
  {
    hide Fits;
  }

  lemma EffSizeIs(size: nat, align: nat)
    requires size > 0 && align > 0
    ensures size <= EffSize(size, align) < size + align && EffSize(size, align) % align == 0
  {
    DivMod(align, (size - 1) / align + 1, 0);
    assert align * ((size - 1) / align + 1) == align * ((size - 1) / align) + align;
  }

  lemma MaxbufFits(eff: nat)
    requires 8 <= eff <= (PAGE - HEADER) / 2
    ensures var m := MaxBuf(eff); Fits(eff, m) && m >= 2 && m * eff <= PAGE - HEADER < (m + 1) * eff
  {
    var m := MaxBuf(eff);
    assert m * eff <= PAGE - HEADER;
    MulMono(if m < 2 then m + 1 else 2, 2, eff);
  }

  /** Words outside page mem are as before. */
  ghost predicate SameElsewhere(w: map<nat, nat>, w': map<nat, nat>, mem: nat) {
    forall a: nat :: a / PAGE * PAGE != mem ==> (a in w' <==> a in w) && (a in w ==> w'[a] == w[a])
  }

  ghost predicate ObjLinked(mem: nat, eff: nat, k: nat, word: map<nat, nat>) {
    Obj(mem, eff, k) in word && word[Obj(mem, eff, k)] == Obj(mem, eff, k + 1)
  }

  lemma LinkKeeps(mem: nat, eff: nat, maxbuf: nat, k: nat, word: map<nat, nat>, word': map<nat, nat>)
    requires Fits(eff, maxbuf) && mem % PAGE == 0 && k + 1 < maxbuf
    requires forall i: nat :: i < k ==> ObjLinked(mem, eff, i, word)
    requires word' == word[Obj(mem, eff, k) := Obj(mem, eff, k + 1)]
    ensures forall i: nat :: i < k + 1 ==> ObjLinked(mem, eff, i, word')
  {
    hide Obj;
    forall i: nat | i < k + 1 ensures ObjLinked(mem, eff, i, word') {
      ObjUnique(eff, maxbuf, mem, i, mem, k);
      if i < k { assert ObjLinked(mem, eff, i, word); }
    }
  }

  lemma FitsOf(all: seq<Slab>, info: map<Slab, Info>, eff: nat, maxbuf: nat, word: map<nat, nat>, live: set<nat>)
    requires Shape(all, info, eff, maxbuf, word, live)
    ensures Fits(eff, maxbuf) && forall s :: s in all ==> s in info
  {
  }

  lemma GrowShape(all: seq<Slab>, info: map<Slab, Info>, eff: nat, maxbuf: nat, w: map<nat, nat>, w': map<nat, nat>,
                  live: set<nat>, s: Slab, x: Info)
    requires Shape(all, info, eff, maxbuf, w, live) && s !in all && s.mem % PAGE == 0 && SameElsewhere(w, w', s.mem)
    requires x == Info(0, s.mem, seq(maxbuf, i => i)) && FreeChain(s.mem, eff, maxbuf, x.head, x.chain, w')
    requires forall t :: t in all ==> t.mem != s.mem
    ensures Shape([s] + all, info[s := x], eff, maxbuf, w', live)
  {
    forall t | t in all ensures SlabOk(t, info[t], eff, maxbuf, w') {
      assert SlabOk(t, info[t], eff, maxbuf, w);
      ElsewhereChain(t.mem, eff, maxbuf, info[t].head, info[t].chain, w, w', s.mem);
    }
    hide LiveIs, FreeChain;
    AddSlab(all, info, eff, maxbuf, w', live, s, x);
    var all' := [s] + all;
    assert forall i :: 0 < i < |all'| ==> all'[i] == all[i - 1] && all[i - 1] in all;
  }

  lemma ElsewhereChain(m: nat, eff: nat, maxbuf: nat, head: nat, chain: seq<nat>, w: map<nat, nat>, w': map<nat, nat>,
                       mem: nat)
    requires Fits(eff, maxbuf) && m % PAGE == 0 && m != mem && FreeChain(m, eff, maxbuf, head, chain, w)
    requires SameElsewhere(w, w', mem)
    ensures FreeChain(m, eff, maxbuf, head, chain, w')
  {
    hide Obj, Fits;
    forall i | 0 <= i && i + 1 < |chain|
      ensures Obj(m, eff, chain[i]) in w' && w'[Obj(m, eff, chain[i])] == Obj(m, eff, chain[i + 1])
    {
      PageOf(m, eff, maxbuf, chain[i]);
    }
  }

  lemma GrowMirrors(all: seq<Slab>, info: map<Slab, Info>, s: Slab, x: Info)
    requires Mirrors(all, info) && s !in all && s.bufcount == x.count && s.freeList == x.head
    ensures Mirrors([s] + all, info[s := x])
  {
    var all' := [s] + all;
    assert forall i :: 0 < i < |all'| ==> all'[i] == all[i - 1] && all[i - 1] in all;
  }

  lemma GrowHeaders(all: seq<Slab>, headers: map<nat, Slab>, s: Slab)
    requires Cache.HeadersOk(all, headers) && forall t :: t in all ==> t.mem != s.mem
    ensures Cache.HeadersOk([s] + all, headers[s.mem := s])
  {
  }

  lemma GrowBusy(all: seq<Slab>, info: map<Slab, Info>, s: Slab, x: Info)
    requires Cache.Busy(all, info) && s !in all
    ensures Cache.Busy(all, info[s := x])
  {
  }
}

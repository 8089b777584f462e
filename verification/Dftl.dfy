/**
 The DFTL mapping cache as it runs: requests are dispatched in any order, the device completes loads in any
 order, and data garbage collection rewrites translation pages in between.
 */
module Dftl {
  import opened Sequences
  import opened FlashBlocks
  import opened BlockManager
  import opened DftlState
  import opened DftlTrans

  datatype Evicted = Clean | Dirty | Exit

  /** How a dispatch of a request ends: it is finished, it comes back later, or the program exits. */
  datatype Outcome = Finished | Later | Exited

  /** One step of a run: a queued request is dispatched, the device completes one, or dpage_GC rewrites a table. */
  datatype Event = Dispatched(r: nat, unmapped: bool) | Completed(r: nat) | Rewritten(p: nat)

  datatype Snapshot = Snapshot(c: Cache, w: Work, t: Trans)

  class Ftl {
    const g: Geo
    const reqs: seq<Request>
    const max: nat      // num_max_cache
    const maxT: nat     // capacity of trans_b
    var c: Cache
    var w: Work
    var t: Trans
    ghost var place: seq<Place>
    ghost var owner: map<nat, nat>

    ghost predicate Valid()
      reads this
    {
      && max > 0 && CacheOk(c, max) && WorkOk(reqs, c.cmt, w, place, owner) && TransOk(g, t, CleanMap(c.cmt))
      && (w.waiting != [] ==> c.numFlying == max)
    }

    /** demand_create, with n translation pages, all requests queued and the given blocks free for translation pages. */
    constructor (g: Geo, reqs: seq<Request>, n: nat, max: nat, maxT: nat, free: seq<nat>, res: nat, queue: set<nat>)
      requires g.bps == 1 && g.ppb > 0 && max > 0 && res < g.nos && NoDup(free) && res !in free
      requires forall b :: b in free ==> b < g.nos
      requires (forall r :: 0 <= r < |reqs| ==> reqs[r].page < n) && forall r: nat :: r in queue <==> r < |reqs|
      ensures Valid() && w.done == {} && w.queue == queue && this.reqs == reqs && this.g == g && this.max == max
      ensures |c.cmt| == n && forall p :: 0 <= p < n ==> !c.cmt[p].cached && c.cmt[p].tppa == None
    {
      this.g, this.reqs, this.max, this.maxT := g, reqs, max, maxT;
      c := Cache(seq(n, i => Entry(false, false, None, false, [])), [], 0, 0);
      w := Work(queue, [], map[], map[], {});
      t := Trans([seq(g.nos, i => Erased(g))], free, {}, res, NoBlock);
      place, owner := seq(|reqs|, i => Queued), map[];
      new;
      hide TransOk, WorkOk, CacheOk;
      StartTrans(g, t);
      StartCache(c, n, max);
      StartWork(reqs, c.cmt, w, place, owner);
      assert CleanMap(c.cmt) == map[];
    }

    static lemma StartTrans(g: Geo, t: Trans)
      requires g.bps == 1 && g.ppb > 0 && t.res < g.nos && NoDup(t.free) && t.res !in t.free
      requires forall b :: b in t.free ==> b < g.nos
      requires t == Trans([seq(g.nos, i => Erased(g))], t.free, {}, t.res, NoBlock)
      ensures TransOk(g, t, map[])
    {
    }

    static lemma StartCache(c: Cache, n: nat, max: nat)
      requires c == Cache(seq(n, i => Entry(false, false, None, false, [])), [], 0, 0)
      ensures CacheOk(c, max)
    {
      assert Flying(c.cmt) == {};
    }

    static lemma StartWork(reqs: seq<Request>, cmt: seq<Entry>, w: Work, place: seq<Place>, owner: map<nat, nat>)
      requires forall p :: 0 <= p < |cmt| ==> cmt[p] == Entry(false, false, None, false, [])
      requires forall r :: 0 <= r < |reqs| ==> reqs[r].page < |cmt|
      requires w == Work(w.queue, [], map[], map[], {}) && forall r: nat :: r in w.queue <==> r < |reqs|
      requires place == seq(|reqs|, i => Queued) && owner == map[]
      ensures WorkOk(reqs, cmt, w, place, owner)
    {
    }

    /** tpage_GC.  It fails, which is the exit on a full device, exactly when no used block has an invalid page. */
    method TpageGc(ghost skip: set<nat>) returns (ok: bool)
      requires TransOk(g, t, CleanMap(c.cmt) - skip) && Full(g, t.cur)
      modifies `c, `t
      ensures ok <==> exists b :: b in old(t.used) && b < |old(t.bs[0])| && old(t.bs[0])[b].invalid > 0
      ensures ok ==> TransOk(g, t, CleanMap(c.cmt) - skip) && t.cur.At? && t.cur.pg < g.ppb
      ensures c == old(c).(cmt := c.cmt) && Readdressed(old(c.cmt), c.cmt)
      ensures ok ==> exists v :: Relocated(g, old(CleanMap(c.cmt)) - skip, old(t), t, old(c.cmt), c.cmt, v)
    {
      hide Relocated, Unloaded, Readdressed, TransOk, CleanMap, Loaded, InBlock;
      ghost var m := CleanMap(c.cmt) - skip;
      UsedBlocks(g, t, m);
      ReaddressedSelf(c.cmt);
      if t.used == {} { return false; }
      WorstExists(t.bs[0], t.used);
      var v :| v in t.used && Worst(t.bs[0], t.used, v);
      if t.bs[0][v].invalid == 0 { return false; }
      TransErase(g, t, m, v);
      if t.bs[0][v].invalid == g.ppb {
        NothingThere(g, t, m, v);
        t := Trans(Put(t.bs, 0, v, Erased(g)), t.free, t.used - {v} + {t.res}, v, At(t.res, 0));
        RelocatedNone(g, m, old(t), t, c.cmt, v);
        return true;
      }
      var sram := Load(v, m);
      LoadDone(g, t, m, v, sram);
      LoadedNoDup(m, v, g.ppb, t.bs[0][v], sram);
      LoadedKeys(m, v, sram);
      t := Trans(Put(t.bs, 0, v, Erased(g)), t.free, t.used - {v} + {t.res}, v, At(t.res, 0));
      assert m - Members(sram) == CleanMap(c.cmt) - skip - Members(sram);
      Unload(sram, skip);
      RelocatedIs(g, m, old(t), t, old(c.cmt), c.cmt, v, sram);
      ok := true;
    }

    static lemma UsedBlocks(g: Geo, t: Trans, m: Mapping)
      requires TransOk(g, t, m)
      ensures |t.bs| == 1 && g.ppb > 0 && forall b :: b in t.used ==> b < |t.bs[0]|
    {
    }

    static lemma LoadedNoDup(m: Mapping, v: nat, n: nat, x: Block, sram: seq<nat>)
      requires Loaded(m, v, n, x, sram)
      ensures NoDup(sram) && PageOrder(m, sram)
    {
    }

    static lemma LoadedKeys(m: Mapping, v: nat, sram: seq<nat>)
      requires Members(sram) == InBlock(m, v)
      ensures Members(sram) <= m.Keys
    {
    }

    static lemma NothingThere(g: Geo, t: Trans, m: Mapping, v: nat)
      requires TransOk(g, t, m) && v < |t.bs[0]| && t.bs[0][v].invalid == g.ppb
      ensures m - InBlock(m, v) == m && InBlock(m, v) == {}
    {
      assert In(t.bs, 0, v) && BlockOk(g, t.bs[0][v]);
      assert t.bs[0][v].bits == {};
      forall l | l in m ensures m[l].blk != v { assert Live(t.bs, m[l]); }
    }

    /** The valid pages of the victim, in page order. */
    method Load(v: nat, ghost m: Mapping) returns (sram: seq<nat>)
      requires TransOk(g, t, m) && |t.bs| == 1 && v < |t.bs[0]|
      ensures Loaded(m, v, g.ppb, t.bs[0][v], sram)
    {
      hide TransOk;
      sram := [];
      assert (set q | q in t.bs[0][v].bits && q < 0) == {};
      var n := 0;
      while n < g.ppb
        invariant 0 <= n <= g.ppb && Loaded(m, v, n, t.bs[0][v], sram)
      {
        LoadNext(g, t, m, v, n, sram);
        if n in t.bs[0][v].bits { sram := sram + [t.bs[0][v].oob[n]]; }
        n := n + 1;
      }
    }

    /** The loaded pages are written to the reserved block and their entries readdressed. */
    method Unload(sram: seq<nat>, ghost skip: set<nat>)
      requires TransOk(g, t, CleanMap(c.cmt) - skip - Members(sram)) && t.cur.At? && t.cur.pg == 0 && |sram| < g.ppb
      requires NoDup(sram)
      requires Members(sram) <= (CleanMap(c.cmt) - skip).Keys
      modifies `c, `t
      ensures TransOk(g, t, CleanMap(c.cmt) - skip) && t == old(t).(bs := t.bs, cur := At(old(t.cur.blk), |sram|))
      ensures c == old(c).(cmt := c.cmt) && Readdressed(old(c.cmt), c.cmt)
      ensures Unloaded(old(c.cmt), c.cmt, sram, |sram|, old(t.cur.blk))
    {
      hide TransOk, CleanMap, Unloaded;
      ghost var new0 := t.cur.blk;
      NoneUnloaded(c.cmt, sram, new0);
      assert sram[0..] == sram;
      var i := 0;
      while i < |sram|
        invariant 0 <= i <= |sram| && TransOk(g, t, CleanMap(c.cmt) - skip - Members(sram[i..])) && t.cur == At(new0, i)
        invariant c == old(c).(cmt := c.cmt) && Readdressed(old(c.cmt), c.cmt)
        invariant t == old(t).(bs := t.bs, cur := t.cur) && Unloaded(old(c.cmt), c.cmt, sram, i, new0)
        invariant CleanMap(c.cmt).Keys == CleanMap(old(c.cmt)).Keys
      {
        var l := sram[i];
        ghost var m := CleanMap(c.cmt) - skip - Members(sram[i..]);
        assert l in Members(sram) && l in CleanMap(c.cmt) && l !in skip;
        assert l in sram[i..] && l !in m;
        CleanAt(c.cmt, l);
        TransFill(g, t, m, l);
        var a := Addr(0, t.cur.blk, t.cur.pg);
        CleanMapSet(c.cmt, l, a);
        NextPending(CleanMap(c.cmt), skip, sram, i, a);
        UnloadNext(old(c.cmt), c.cmt, sram, i, new0);
        c := c.(cmt := c.cmt[l := c.cmt[l].(tppa := Some(a))]);
        t := t.(bs := Filled(t.bs, 0, t.cur.blk, l), cur := At(t.cur.blk, t.cur.pg + 1));
        i := i + 1;
      }
      assert Members(sram[|sram|..]) == {};
      assert CleanMap(c.cmt) - skip - {} == CleanMap(c.cmt) - skip;
    }

    static lemma CleanAt(cmt: seq<Entry>, l: nat)
      requires l in CleanMap(cmt)
      ensures l < |cmt| && !cmt[l].dirty && cmt[l].tppa.Some?
    {
    }

    static lemma NextPending(m: Mapping, skip: set<nat>, sram: seq<nat>, i: nat, a: Addr)
      requires i < |sram| && NoDup(sram) && sram[i] !in skip
      ensures (m - skip - Members(sram[i..]))[sram[i] := a] == m[sram[i] := a] - skip - Members(sram[i + 1..])
    {
      assert sram[i..] == [sram[i]] + sram[i + 1..];
      assert forall x :: x in sram[i..] <==> x == sram[i] || x in sram[i + 1..];
      assert sram[i] !in sram[i + 1..];
    }

    /** Where the page comes from: the block being written while it has one, then the next free block while there may be
        another, then a collection. */
    static ghost predicate Allocated(g: Geo, maxT: nat, m: Mapping, t: Trans, t': Trans, cmt: seq<Entry>,
                                     cmt': seq<Entry>)
      requires |t.bs| > 0
    {
      if !Full(g, t.cur) then t' == t && cmt' == cmt
      else if |t.used| != maxT && t.free != [] then
        t' == t.(free := t.free[1..], used := t.used + {t.free[0]}, cur := At(t.free[0], 0)) && cmt' == cmt
      else exists v :: Relocated(g, m, t, t', cmt, cmt', v)
    }

    /** tp_alloc: the page the cursor now points to is the one handed out; the cursor moves on when it is
        written.  None stands for the exit on a full device. */
    method TpAlloc(ghost skip: set<nat>) returns (ok: bool)
      requires TransOk(g, t, CleanMap(c.cmt) - skip)
      modifies `c, `t
      ensures old(|t.bs|) > 0 && (!ok <==> old(NoTpage(g, t, maxT)))
      ensures ok ==> TransOk(g, t, CleanMap(c.cmt) - skip) && t.cur.At? && t.cur.pg < g.ppb
      ensures c == old(c).(cmt := c.cmt) && Readdressed(old(c.cmt), c.cmt)
      ensures ok ==> Allocated(g, maxT, old(CleanMap(c.cmt)) - skip, old(t), t, old(c.cmt), c.cmt)
    {
      hide TransOk, CleanMap, Relocated, Readdressed;
      ReaddressedSelf(c.cmt);
      CursorBound(g, t, CleanMap(c.cmt) - skip);
      if t.cur.At? && t.cur.pg != g.ppb { return true; }
      if |t.used| == maxT {
        ok := TpageGc(skip);
        return;
      }
      if t.free != [] {
        TransTake(g, t, CleanMap(c.cmt) - skip);
        t := t.(free := t.free[1..], used := t.used + {t.free[0]}, cur := At(t.free[0], 0));
        return true;
      }
      ok := TpageGc(skip);
    }

    static lemma CursorBound(g: Geo, t: Trans, m: Mapping)
      requires TransOk(g, t, m)
      ensures |t.bs| == 1 && g.ppb > 0 && (t.cur.At? ==> t.cur.pg <= g.ppb)
    {
      if t.cur.At? { assert In(t.bs, 0, t.cur.blk) && BlockOk(g, t.bs[0][t.cur.blk]); }
    }

    /** A translation page for entry p is written at the cursor; p was not among the valid ones. */
    method WriteTable(p: nat, e: Entry, ghost skip: set<nat>)
      requires TransOk(g, t, CleanMap(c.cmt) - skip) && t.cur.At? && t.cur.pg < g.ppb && p < |c.cmt|
      requires skip == {} || skip == {p}
      requires skip == {} ==> c.cmt[p].dirty
      requires !e.dirty
      modifies `c, `t
      ensures c == old(c).(cmt := old(c.cmt)[p := e.(tppa := Some(old(Addr(0, t.cur.blk, t.cur.pg))))])
      ensures TransOk(g, t, CleanMap(c.cmt)) && t.cur == At(old(t.cur.blk), old(t.cur.pg) + 1)
    {
      hide TransOk;
      var a := Addr(0, t.cur.blk, t.cur.pg);
      TransFill(g, t, CleanMap(c.cmt) - skip, p);
      assert CleanMap(c.cmt[p := e.(tppa := Some(a))]) == (CleanMap(c.cmt) - skip)[p := a];
      c := c.(cmt := c.cmt[p := e.(tppa := Some(a))]);
      t := t.(bs := Filled(t.bs, 0, t.cur.blk, p), cur := At(t.cur.blk, t.cur.pg + 1));
    }

    /** Pages outside the cache stay outside, and with or without an address on flash. */
    static ghost predicate Untouched(cmt: seq<Entry>, cmt': seq<Entry>) {
      |cmt'| == |cmt| && forall p: nat :: p < |cmt| && !cmt[p].cached ==>
        !cmt'[p].cached && (cmt'[p].tppa.Some? <==> cmt[p].tppa.Some?)
    }

    /** No translation page can be had: the block is full, no other is free and no page is invalid. */
    static ghost predicate NoTpage(g: Geo, t: Trans, maxT: nat)
      requires |t.bs| > 0
    {
      && Full(g, t.cur) && (|t.used| == maxT || t.free == [])
      && forall b :: b in t.used && b < |t.bs[0]| ==> t.bs[0][b].invalid == 0
    }

    /** demand_eviction in normal mode: the least recently used page leaves; a dirty one gets a translation page,
        for want of which the program exits. */
    method Evict() returns (r: Evicted)
      requires CacheOk(c, max) && TransOk(g, t, CleanMap(c.cmt)) && |t.bs| > 0 && c.lru != []
      modifies `c, `t
      ensures old(c.lru)[|old(c.lru)| - 1] < |old(c.cmt)|
      ensures r == Exit <==> old(c.cmt)[old(c.lru)[|old(c.lru)| - 1]].dirty && old(NoTpage(g, t, maxT))
      ensures r != Exit ==> CacheOk(c, max) && TransOk(g, t, CleanMap(c.cmt)) && Steady(old(c.cmt), c.cmt)
      ensures r != Exit ==> c.numCaching == old(c.numCaching) - 1 && c.numFlying == old(c.numFlying)
      ensures r != Exit ==> Untouched(old(c.cmt), c.cmt)
      ensures r != Exit ==> c.lru == old(c.lru)[..|old(c.lru)| - 1] && EvictedPage(old(c), c.cmt, r == Dirty)
      ensures r == Clean ==> t == old(t)
    {
      hide TransOk, CacheOk, Steady, Untouched, Readdressed, CleanMap;
      var n := |c.lru| - 1;
      var p := c.lru[n];
      LastCached(c, max);
      if c.cmt[p].dirty {
        assert CleanMap(c.cmt) - {} == CleanMap(c.cmt);
        var ok := TpAlloc({});
        if !ok { return Exit; }
        ReaddressedOk(old(c), max, c.cmt, p);
        ghost var e := Entry(false, false, Some(Addr(0, t.cur.blk, t.cur.pg)), false, []);
        EvictOk(c, max, e);
        EvictFrame(old(c.cmt), c.cmt, p, e);
        WriteTable(p, Entry(false, false, None, false, []), {});
        c := c.(lru := c.lru[..n], numCaching := c.numCaching - 1);
        return Dirty;
      }
      var e := c.cmt[p].(cached := false);
      EvictOk(c, max, e);
      ReaddressedSelf(c.cmt);
      EvictFrame(c.cmt, c.cmt, p, e);
      SameClean(c.cmt, p, e);
      c := Cache(c.cmt[p := e], c.lru[..n], c.numCaching - 1, c.numFlying);
      return Clean;
    }

    /** The last page of the LRU list has left, with an address on flash; the others have only been moved. */
    static ghost predicate EvictedPage(c: Cache, cmt: seq<Entry>, dirty: bool)
      requires c.lru != []
    {
      var p := c.lru[|c.lru| - 1];
      && |cmt| == |c.cmt| && p < |cmt| && dirty == c.cmt[p].dirty
      && cmt[p] == Entry(false, false, cmt[p].tppa, false, []) && cmt[p].tppa.Some?
      && (!dirty ==> cmt == c.cmt[p := cmt[p]] && cmt[p].tppa == c.cmt[p].tppa)
      && forall q: nat :: q < |cmt| && q != p ==> cmt[q] == c.cmt[q].(tppa := cmt[q].tppa)
    }

    static lemma LastCached(c: Cache, max: nat)
      requires CacheOk(c, max) && c.lru != []
      ensures var p := c.lru[|c.lru| - 1]; p < |c.cmt| && c.cmt[p].cached && !c.cmt[p].flying && c.cmt[p].parked == []
      ensures var p := c.lru[|c.lru| - 1]; !c.cmt[p].dirty ==> c.cmt[p].tppa.Some?
      ensures c.numCaching > 0
    {
      var p := c.lru[|c.lru| - 1];
      assert p in c.lru && EntryOk(c.cmt[p]);
    }

    static lemma ReaddressedOk(c: Cache, max: nat, cmt: seq<Entry>, p: nat)
      requires CacheOk(c, max) && Readdressed(c.cmt, cmt) && p < |c.cmt|
      ensures CacheOk(c.(cmt := cmt), max) && |cmt| == |c.cmt| && cmt[p] == c.cmt[p].(tppa := cmt[p].tppa)
    {
      SameFlags(c, max, cmt);
    }

    static lemma ReaddressedSelf(cmt: seq<Entry>)
      ensures Readdressed(cmt, cmt)
    {
    }

    static lemma EvictFrame(cmt: seq<Entry>, cmt1: seq<Entry>, p: nat, e: Entry)
      requires Readdressed(cmt, cmt1) && p < |cmt| && cmt[p].cached && !cmt[p].flying && cmt[p].parked == []
      requires !e.flying && e.parked == [] && (cmt[p].tppa.Some? ==> e.tppa.Some?)
      ensures |cmt1| == |cmt| && Steady(cmt, cmt1[p := e]) && Untouched(cmt, cmt1[p := e])
      ensures forall q: nat :: q < |cmt| && q != p ==> cmt1[p := e][q] == cmt[q].(tppa := cmt1[p := e][q].tppa)
    {
    }

    static lemma SameClean(cmt: seq<Entry>, p: nat, e: Entry)
      requires p < |cmt| && e.dirty == cmt[p].dirty && e.tppa == cmt[p].tppa
      ensures CleanMap(cmt[p := e]) == CleanMap(cmt)
    {
    }

    static lemma RequestOk(reqs: seq<Request>, cmt: seq<Entry>, w: Work, place: seq<Place>, owner: map<nat, nat>,
                           r: nat)
      requires WorkOk(reqs, cmt, w, place, owner) && r in w.queue
      ensures r < |reqs| == |place| && reqs[r].page < |cmt| && r !in w.done && r !in w.out
    {
    }

    /** Page p is now being loaded for r, which waits for the device. */
    static ghost predicate Departed(c: Cache, c': Cache, w: Work, w': Work, p: nat, r: nat, kind: Kind,
                                    t0: Option<Addr>) {
      && p < |c.cmt| && c' == c.(cmt := c.cmt[p := c.cmt[p].(flying := true)], numFlying := c.numFlying + 1)
      && w' == w.(queue := w.queue - {r}, out := w.out[r := kind], params := w.params[r := Param(false, t0)])
    }

    /** The request starts a load of its page. */
    method Depart(r: nat, kind: Kind, t0: Option<Addr>)
      requires Valid() && r in w.queue && r !in w.params && c.numCaching + c.numFlying < max
      requires r < |reqs| && reqs[r].page < |c.cmt|
      requires var e := c.cmt[reqs[r].page];
              !e.cached && !e.flying && (kind == MapRead || !reqs[r].isWrite ==> e.tppa.Some?)
      modifies this
      ensures Valid() && t == old(t) && Departed(old(c), c, old(w), w, reqs[r].page, r, kind, t0)
    {
      hide TransOk, WorkOk, CacheOk, CleanMap;
      RequestOk(reqs, c.cmt, w, place, owner, r);
      var p := reqs[r].page;
      FlyOk(c, max, p);
      DepartOk(reqs, c.cmt, w, place, owner, r, kind, t0);
      SameClean(c.cmt, p, c.cmt[p].(flying := true));
      c := c.(cmt := c.cmt[p := c.cmt[p].(flying := true)], numFlying := c.numFlying + 1);
      w := w.(queue := w.queue - {r}, out := w.out[r := kind], params := w.params[r := Param(false, t0)]);
      place, owner := place[r := Out], owner[p := r];
    }

    /** r reads its page, from address t0. */
    static ghost function Again(w: Work, r: nat, t0: Option<Addr>): Work {
      w.(queue := w.queue - {r}, out := w.out[r := MapRead], params := w.params[r := Param(false, t0)])
    }

    /** The owner of a load reads the page (again). */
    method Reread(r: nat, t0: Option<Addr>)
      requires Valid() && r in w.queue && r in w.params && r < |reqs| && reqs[r].page < |c.cmt|
      requires c.cmt[reqs[r].page].tppa.Some?
      modifies `w, `place
      ensures Valid() && w == Again(old(w), r, t0)
    {
      hide TransOk, WorkOk, CacheOk, CleanMap;
      RequestOk(reqs, c.cmt, w, place, owner, r);
      RereadOk(reqs, c.cmt, w, place, owner, r, t0);
      w := w.(queue := w.queue - {r}, out := w.out[r := MapRead], params := w.params[r := Param(false, t0)]);
      place := place[r := Out];
    }

    /** A request without a load of its own is done. */
    method Finish(r: nat)
      requires Valid() && r in w.queue && r !in w.params
      modifies `w, `place
      ensures Valid() && w == old(w).(queue := old(w.queue) - {r}, done := old(w.done) + {r})
    {
      hide TransOk, WorkOk, CacheOk, CleanMap;
      RequestOk(reqs, c.cmt, w, place, owner, r);
      FinishOk(reqs, c.cmt, w, place, owner, r);
      w := w.(queue := w.queue - {r}, done := w.done + {r});
      place := place[r := Done];
    }

    /** demand_cache_update: a hit.  The page becomes the most recently used, and a write makes it dirty, which
        invalidates its copy on flash. */
    method CacheUpdate(r: nat)
      requires Valid() && r in w.queue && r < |reqs| && reqs[r].page < |c.cmt| && c.cmt[reqs[r].page].cached
      modifies `c, `t
      ensures Valid() && Hit(old(c), c, old(t), t, reqs[r].page, reqs[r].isWrite)
    {
      hide TransOk, WorkOk, CacheOk, Steady, CleanMap;
      var p := reqs[r].page;
      CachedLru(c, max, p);
      if reqs[r].isWrite && !c.cmt[p].dirty {
        MakeDirty(p);
        CachedLru(c, max, p);
      }
      TouchOk(c, max, p);
      c := c.(lru := ToFront(c.lru, p));
    }

    /** Page p has become the most recently used, and dirty by a write, which invalidates its copy on flash. */
    static ghost predicate Hit(c: Cache, c': Cache, t: Trans, t': Trans, p: nat, isWrite: bool) {
      && p < |c.cmt|
      && c' == c.(lru := ToFront(c.lru, p), cmt := c.cmt[p := c.cmt[p].(dirty := isWrite || c.cmt[p].dirty)])
      && if isWrite && !c.cmt[p].dirty then Dropped(t, t', c.cmt[p].tppa) else t' == t
    }

    static lemma CachedLru(c: Cache, max: nat, p: nat)
      requires CacheOk(c, max) && p < |c.cmt|
      ensures c.cmt[p].cached ==>
        p in c.lru && !c.cmt[p].flying && c.cmt[p].parked == [] && (!c.cmt[p].dirty ==> c.cmt[p].tppa.Some?)
      ensures !c.cmt[p].cached ==> !c.cmt[p].dirty
    {
      assert EntryOk(c.cmt[p]);
    }

    /** The page at a is no longer valid. */
    static ghost predicate Dropped(t: Trans, t': Trans, a: Option<Addr>) {
      a.Some? && In(t.bs, a.value.ch, a.value.blk) && t' == t.(bs := Invalidated(t.bs, a.value))
    }

    /** A cached clean page becomes dirty; it has a copy on flash, which is invalidated. */
    method MakeDirty(p: nat)
      requires Valid() && p < |c.cmt| && c.cmt[p].cached && !c.cmt[p].dirty
      modifies `c, `t
      ensures Valid() && c == old(c).(cmt := old(c.cmt)[p := old(c.cmt[p]).(dirty := true)])
      ensures Dropped(old(t), t, old(c.cmt[p].tppa))
    {
      hide TransOk, WorkOk, CacheOk, CleanMap;
      CachedLru(c, max, p);
      var e := c.cmt[p].(dirty := true);
      DirtyOk(c, max, p, e);
      SteadyOk(reqs, c.cmt, c.cmt[p := e], w, place, owner);
      DropClean(c.cmt, p, e);
      TransInvalidate(g, t, CleanMap(c.cmt), p);
      t := t.(bs := Invalidated(t.bs, c.cmt[p].tppa.value));
      c := c.(cmt := c.cmt[p := e]);
    }

    static lemma DirtyOk(c: Cache, max: nat, p: nat, e: Entry)
      requires CacheOk(c, max) && p < |c.cmt| && c.cmt[p].cached && e == c.cmt[p].(dirty := true)
      ensures CacheOk(c.(cmt := c.cmt[p := e]), max) && Steady(c.cmt, c.cmt[p := e])
    {
      SameFlags(c, max, c.cmt[p := e]);
    }

    static lemma DropClean(cmt: seq<Entry>, p: nat, e: Entry)
      requires p < |cmt| && !cmt[p].dirty && e.dirty
      ensures CleanMap(cmt[p := e]) == CleanMap(cmt) - {p}
      ensures cmt[p].tppa.Some? ==> p in CleanMap(cmt) && CleanMap(cmt)[p] == cmt[p].tppa.value
      ensures cmt[p].tppa.None? ==> CleanMap(cmt) - {p} == CleanMap(cmt)
    {
    }

    /** A page must leave, and the one that would is dirty. */
    static ghost predicate DirtyVictim(c: Cache, max: nat) {
      && c.numCaching + c.numFlying == max && c.lru != [] && c.lru[|c.lru| - 1] < |c.cmt|
      && c.cmt[c.lru[|c.lru| - 1]].dirty
    }

    /** What becomes of request r for page p when the page is not cached: it waits for the page if that is being
        loaded, waits for any load to end if there is no room for another, and else has the page loaded, or a page that
        was never written cached at once, in place of the least recently used one if the cache is full. */
    static ghost predicate Missed(c: Cache, c': Cache, w: Work, w': Work, p: nat, r: nat, max: nat, res: Outcome)
      requires p < |c.cmt|
    {
      if c.cmt[p].flying then
        && res == Later && c' == c.(cmt := c.cmt[p := c.cmt[p].(parked := c.cmt[p].parked + [r])])
        && w' == w.(queue := w.queue - {r})
      else if c.numFlying == max then
        res == Later && c' == c && w' == w.(queue := w.queue - {r}, waiting := w.waiting + [r])
      else
        var full := c.numCaching + c.numFlying == max && c.lru != [];
        var lru := if full then c.lru[..|c.lru| - 1] else c.lru;
        && |c'.cmt| == |c.cmt| && (forall q: nat :: q < |c.cmt| && q != p ==> OtherPage(c, c'.cmt, full, q))
        && if DirtyVictim(c, max) || c.cmt[p].tppa.Some? then
             && res == Later && c'.cmt[p].flying && c'.lru == lru && c'.numFlying == c.numFlying + 1
             && w' == w.(queue := w.queue - {r}, out := w.out[r := if DirtyVictim(c, max) then MapWrite else MapRead],
                         params := w.params[r := Param(false, c.cmt[p].tppa)])
           else
             && res == Finished && c'.cmt[p] == Entry(true, true, None, false, []) && c'.lru == [p] + lru
             && c'.numFlying == c.numFlying && w' == w
    }

    /** The least recently used page has left if full; any other page has at most been moved, and if not full not even
        that. */
    static ghost predicate OtherPage(c: Cache, cmt: seq<Entry>, full: bool, q: nat)
      requires q < |cmt| == |c.cmt| && (full ==> c.lru != [])
    {
      if !full then cmt[q] == c.cmt[q]
      else if q == c.lru[|c.lru| - 1] then cmt[q] == Entry(false, false, cmt[q].tppa, false, []) && cmt[q].tppa.Some?
      else cmt[q] == c.cmt[q].(tppa := cmt[q].tppa)
    }

    /** Room has been made, if need be. */
    static ghost predicate MadeRoom(c: Cache, c': Cache, max: nat) {
      if c.numCaching + c.numFlying == max && c.lru != [] then
        && c'.lru == c.lru[..|c.lru| - 1] && c'.numFlying == c.numFlying
        && c.lru[|c.lru| - 1] < |c.cmt| && EvictedPage(c, c'.cmt, DirtyVictim(c, max))
      else c' == c
    }

    static lemma VictimIs(c: Cache, cmt: seq<Entry>, max: nat, dirty: bool)
      requires c.numCaching + c.numFlying == max && c.lru != [] && EvictedPage(c, cmt, dirty)
      ensures dirty <==> DirtyVictim(c, max)
      ensures |cmt| == |c.cmt| && c.lru[|c.lru| - 1] < |cmt|
    {
    }

    static lemma LoadMissed(c: Cache, c1: Cache, c2: Cache, w: Work, w': Work, p: nat, r: nat, max: nat, kind: Kind)
      requires p < |c.cmt| && !c.cmt[p].flying && c.numFlying != max && MadeRoom(c, c1, max)
      requires Departed(c1, c2, w, w', p, r, kind, c.cmt[p].tppa)
      requires kind == (if DirtyVictim(c, max) then MapWrite else MapRead) && (kind == MapWrite || c.cmt[p].tppa.Some?)
      ensures Missed(c, c2, w, w', p, r, max, Later)
    {
      var full := c.numCaching + c.numFlying == max && c.lru != [];
      forall q: nat | q < |c.cmt| && q != p ensures OtherPage(c, c2.cmt, full, q) { assert c2.cmt[q] == c1.cmt[q]; }
    }

    static lemma NewMissed(c: Cache, c1: Cache, c2: Cache, w: Work, p: nat, r: nat, max: nat)
      requires p < |c.cmt| && !c.cmt[p].flying && c.numFlying != max && MadeRoom(c, c1, max)
      requires |c1.cmt| == |c.cmt|
      requires c2 == Cache(c1.cmt[p := Entry(true, true, None, false, [])], [p] + c1.lru, c1.numCaching + 1,
                           c1.numFlying)
      requires !DirtyVictim(c, max) && c.cmt[p].tppa == None
      ensures Missed(c, c2, w, w, p, r, max, Finished)
    {
      var full := c.numCaching + c.numFlying == max && c.lru != [];
      forall q: nat | q < |c.cmt| && q != p ensures OtherPage(c, c2.cmt, full, q) { assert c2.cmt[q] == c1.cmt[q]; }
    }

    /** demand_cache_eviction: a miss that may have to wait, to evict, or to load the page. */
    method CacheEviction(r: nat) returns (res: Outcome)
      requires Valid() && r in w.queue && r !in w.params && r < |reqs| && reqs[r].page < |c.cmt|
      requires !c.cmt[reqs[r].page].cached && (!reqs[r].isWrite ==> c.cmt[reqs[r].page].tppa.Some?)
      modifies this
      ensures res == Exited <==>
        old(!c.cmt[reqs[r].page].flying && c.numFlying != max && DirtyVictim(c, max)
            && |t.bs| > 0 && NoTpage(g, t, maxT))
      ensures res != Exited ==> Valid() && Missed(old(c), c, old(w), w, reqs[r].page, r, max, res)
      ensures old(c.cmt[reqs[r].page].flying || c.numFlying == max || !DirtyVictim(c, max)) ==> t == old(t)
    {
      hide TransOk, WorkOk, CacheOk, CleanMap, Steady, NoTpage, Untouched, EvictedPage;
      var p := reqs[r].page;
      RequestOk(reqs, c.cmt, w, place, owner, r);
      if c.cmt[p].flying {
        ParkOk(c, max, p, r);
        ParkWorkOk(reqs, c.cmt, w, place, owner, r);
        SameClean(c.cmt, p, c.cmt[p].(parked := c.cmt[p].parked + [r]));
        c := c.(cmt := c.cmt[p := c.cmt[p].(parked := c.cmt[p].parked + [r])]);
        w := w.(queue := w.queue - {r});
        place := place[r := Parked];
        return Later;
      }
      if c.numFlying == max {
        WaitOk(reqs, c.cmt, w, place, owner, r);
        w := w.(queue := w.queue - {r}, waiting := w.waiting + [r]);
        place := place[r := Waiting];
        return Later;
      }
      var t0 := c.cmt[p].tppa;
      CacheRoom(c, max);
      if c.numCaching + c.numFlying == max {
        SomethingToEvict(c, max);
        CursorBound(g, t, CleanMap(c.cmt));
        ghost var cmt0 := c.cmt;
        var ev := Evict();
        if ev == Exit { return Exited; }
        SteadyOk(reqs, cmt0, c.cmt, w, place, owner);
        StillOut(cmt0, c.cmt, p);
        VictimIs(old(c), c.cmt, max, ev == Dirty);
        if ev == Dirty {
          ghost var c1 := c;
          Depart(r, MapWrite, t0);
          LoadMissed(old(c), c1, c, old(w), w, p, r, max, MapWrite);
          return Later;
        }
      }
      ghost var c1 := c;
      if t0.Some? {
        Depart(r, MapRead, t0);
        LoadMissed(old(c), c1, c, old(w), w, p, r, max, MapRead);
        return Later;
      }
      AdmitNew(p);
      NewMissed(old(c), c1, c, w, p, r, max);
      return Finished;
    }

    static lemma CacheRoom(c: Cache, max: nat)
      requires CacheOk(c, max)
      ensures c.numCaching + c.numFlying <= max
    {
    }

    static lemma StillOut(cmt: seq<Entry>, cmt': seq<Entry>, p: nat)
      requires Untouched(cmt, cmt') && Steady(cmt, cmt') && p < |cmt| && !cmt[p].cached && !cmt[p].flying
      ensures p < |cmt'| && !cmt'[p].cached && !cmt'[p].flying && (cmt'[p].tppa.Some? <==> cmt[p].tppa.Some?)
    {
    }

    /** A page that was never written is cached at once. */
    method AdmitNew(p: nat)
      requires Valid() && p < |c.cmt| && !c.cmt[p].cached && !c.cmt[p].flying && c.cmt[p].tppa.None?
      requires c.numCaching + c.numFlying < max
      modifies `c
      ensures Valid()
      ensures c == Cache(old(c.cmt)[p := Entry(true, true, None, false, [])], [p] + old(c.lru), old(c.numCaching) + 1,
                         old(c.numFlying))
    {
      hide TransOk, WorkOk, CacheOk, CleanMap;
      CachedLru(c, max, p);
      NotFlying(c, max, p);
      var e := Entry(true, true, None, false, []);
      AdmitOk(c, max, p, e);
      SteadyOk(reqs, c.cmt, c.cmt[p := e], w, place, owner);
      DropClean(c.cmt, p, e);
      c := Cache(c.cmt[p := e], [p] + c.lru, c.numCaching + 1, c.numFlying);
    }

    static lemma NotFlying(c: Cache, max: nat, p: nat)
      requires CacheOk(c, max) && p < |c.cmt| && !c.cmt[p].flying
      ensures c.cmt[p].parked == []
    {
      assert EntryOk(c.cmt[p]);
    }

    static ghost predicate Landed(c: Cache, c': Cache, w: Work, w': Work, p: nat, r: nat, e: Entry) {
      && p < |c.cmt| && c.numFlying > 0
      && c' == Cache(c.cmt[p := e], [p] + c.lru, c.numCaching + 1, c.numFlying - 1)
      && w' == Work(w.queue + Members(c.cmt[p].parked) + Members(w.waiting) - {r}, [], w.out, w.params - {r},
                    w.done + {r})
    }

    /** The load of r's page ends: the page is cached, r is finished and everything waiting is queued again. */
    method Land(r: nat, e: Entry)
      requires Valid() && r in w.queue && r in w.params && r < |reqs| && reqs[r].page < |c.cmt|
      requires e == Entry(true, reqs[r].isWrite, c.cmt[reqs[r].page].tppa, false, [])
      requires e.tppa.None? ==> e.dirty
      modifies this
      ensures Valid() && Landed(old(c), c, old(w), w, reqs[r].page, r, e)
      ensures if e.dirty && e.tppa.Some? then Dropped(old(t), t, e.tppa) else t == old(t)
    {
      hide TransOk, WorkOk, CacheOk, CleanMap;
      var p := reqs[r].page;
      RequestOk(reqs, c.cmt, w, place, owner, r);
      LandOk(reqs, c.cmt, w, place, owner, r, e);
      FlyingOut(c, max, p);
      AdmitOk(c, max, p, e);
      if e.dirty {
        DropClean(c.cmt, p, e);
        if e.tppa.Some? {
          TransInvalidate(g, t, CleanMap(c.cmt), p);
          t := t.(bs := Invalidated(t.bs, e.tppa.value));
        }
      } else {
        SameClean(c.cmt, p, e);
      }
      w := Work(w.queue + Members(c.cmt[p].parked) + Members(w.waiting) - {r}, [], w.out, w.params - {r}, w.done + {r});
      c := Cache(c.cmt[p := e], [p] + c.lru, c.numCaching + 1, c.numFlying - 1);
      place, owner := Released(reqs, place, p)[r := Done], owner - {p};
    }

    static lemma FlyingOut(c: Cache, max: nat, p: nat)
      requires CacheOk(c, max) && p < |c.cmt| && c.cmt[p].flying
      ensures !c.cmt[p].cached && !c.cmt[p].dirty
    {
      assert EntryOk(c.cmt[p]);
    }

    /** A read that owns a load, and any load that reads, has a translation page to read. */
    static lemma HasPage(reqs: seq<Request>, cmt: seq<Entry>, w: Work, place: seq<Place>, owner: map<nat, nat>, r: nat)
      requires WorkOk(reqs, cmt, w, place, owner) && r in w.queue && r in w.params
      ensures r < |reqs| && reqs[r].page < |cmt|
      ensures (!reqs[r].isWrite || w.params[r].read ==> cmt[reqs[r].page].tppa.Some?)
    {
    }

    /** demand_write_flying: the evicted page has been written.  Its branch for a read without a translation page
        is never reached. */
    method WriteFlying(r: nat) returns (res: Outcome)
      requires Valid() && r in w.queue && r in w.params && !w.params[r].read
      modifies this
      ensures Valid() && r < |reqs| && reqs[r].page < |old(c.cmt)| && t == old(t)
      ensures if old(c.cmt[reqs[r].page].tppa.Some?)
              then res == Later && c == old(c) && w == Again(old(w), r, old(w.params[r].tppa))
              else res == Finished && Landed(old(c), c, old(w), w, reqs[r].page, r, Entry(true, true, None, false, []))
      ensures !reqs[r].isWrite ==> res == Later
    {
      hide TransOk, WorkOk, CacheOk, CleanMap;
      HasPage(reqs, c.cmt, w, place, owner, r);
      var p := reqs[r].page;
      if c.cmt[p].tppa.Some? {
        Reread(r, w.params[r].tppa);
        return Later;
      }
      if !reqs[r].isWrite { assert false; }
      Land(r, Entry(true, true, None, false, []));
      return Finished;
    }

    /** demand_read_flying: the page has been read, but is read again if it has moved meanwhile. */
    method ReadFlying(r: nat) returns (res: Outcome)
      requires Valid() && r in w.queue && r in w.params && w.params[r].read
      modifies this
      ensures Valid() && r < |reqs| && reqs[r].page < |old(c.cmt)|
      ensures if old(w.params[r].tppa != c.cmt[reqs[r].page].tppa) then
                res == Later && c == old(c) && t == old(t) && w == Again(old(w), r, old(c.cmt[reqs[r].page].tppa))
              else
                var e := Entry(true, reqs[r].isWrite, old(c.cmt[reqs[r].page].tppa), false, []);
                && res == Finished && Landed(old(c), c, old(w), w, reqs[r].page, r, e)
                && if reqs[r].isWrite then Dropped(old(t), t, e.tppa) else t == old(t)
    {
      hide TransOk, WorkOk, CacheOk, CleanMap;
      HasPage(reqs, c.cmt, w, place, owner, r);
      var p := reqs[r].page;
      if w.params[r].tppa != c.cmt[p].tppa {
        Reread(r, c.cmt[p].tppa);
        return Later;
      }
      Land(r, Entry(true, reqs[r].isWrite, c.cmt[p].tppa, false, []));
      return Finished;
    }

    /** A request that owns no load is done. */
    static ghost function Ended(w: Work, r: nat): Work { w.(queue := w.queue - {r}, done := w.done + {r}) }

    /** Request r needs a page that is not cached, room must be made by writing a dirty page, and there is no page on
        flash to write it to. */
    static ghost predicate Stops(g: Geo, reqs: seq<Request>, max: nat, maxT: nat, c: Cache, w: Work, t: Trans, r: nat) {
      && r < |reqs| && reqs[r].page < |c.cmt| && r !in w.params && Misses(c.cmt[reqs[r].page], reqs[r].isWrite)
      && !c.cmt[reqs[r].page].flying && c.numFlying != max && DirtyVictim(c, max) && |t.bs| > 0 && NoTpage(g, t, maxT)
    }

    /** The page has to be brought into the cache. */
    static predicate Misses(e: Entry, isWrite: bool) { !e.cached && (isWrite || e.tppa.Some?) }

    /** What a dispatch does to a request that owns a load. */
    static ghost predicate Resumed(c: Cache, c': Cache, w: Work, w': Work, t: Trans, t': Trans, p: nat, r: nat,
                                   isWrite: bool, res: Outcome)
      requires p < |c.cmt| && r in w.params
    {
      var tppa := c.cmt[p].tppa;
      if !w.params[r].read then
        && t' == t
        && if tppa.Some? then res == Later && c' == c && w' == Again(w, r, w.params[r].tppa)
           else res == Finished && Landed(c, c', w, w', p, r, Entry(true, true, None, false, []))
      else if w.params[r].tppa != tppa then
        res == Later && c' == c && t' == t && w' == Again(w, r, tppa)
      else
        && res == Finished && Landed(c, c', w, w', p, r, Entry(true, isWrite, tppa, false, []))
        && if isWrite then Dropped(t, t', tppa) else t' == t
    }

    /** What a dispatch does to a request that does not: a hit makes the page most recently used, a read of what was
        never written finds nothing, anything else is a miss. */
    static ghost predicate Begun(c: Cache, c': Cache, w: Work, w': Work, t: Trans, t': Trans, p: nat, r: nat, max: nat,
                                 isWrite: bool, unmapped: bool, res: Outcome)
      requires p < |c.cmt|
    {
      if Misses(c.cmt[p], isWrite) then
        && (if res == Finished then w' == Ended(w, r) && Missed(c, c', w, w, p, r, max, res)
            else Missed(c, c', w, w', p, r, max, res))
        && (c.cmt[p].flying || c.numFlying == max || !DirtyVictim(c, max) ==> t' == t)
      else
        && res == Finished && w' == Ended(w, r)
        && if c.cmt[p].cached && (isWrite || !unmapped) then Hit(c, c', t, t', p, isWrite) else c' == c && t' == t
    }

    static ghost predicate Served(reqs: seq<Request>, max: nat, s: Snapshot, s': Snapshot, r: nat, unmapped: bool,
                                  res: Outcome) {
      && r < |reqs| && reqs[r].page < |s.c.cmt|
      && if r in s.w.params then Resumed(s.c, s'.c, s.w, s'.w, s.t, s'.t, reqs[r].page, r, reqs[r].isWrite, res)
         else Begun(s.c, s'.c, s.w, s'.w, s.t, s'.t, reqs[r].page, r, max, reqs[r].isWrite, unmapped, res)
    }

    /** __demand_get and __demand_set up to the mapping entry; `unmapped` says that a read finds no address in a
        cached table. */
    method Dispatch(r: nat, unmapped: bool) returns (res: Outcome)
      requires Valid() && r in w.queue
      modifies this
      ensures r < |reqs| && reqs[r].page < |old(c.cmt)| && (res != Exited ==> |c.cmt| == |old(c.cmt)|)
      ensures res == Exited <==> old(Stops(g, reqs, max, maxT, c, w, t, r))
      ensures res != Exited ==> Served(reqs, max, old(Now()), Now(), r, unmapped, res)
      ensures res != Exited ==>
        Valid() && w.done == (if res == Finished then old(w.done) + {r} else old(w.done)) && r !in w.queue
      ensures res == Finished && c != old(c) ==> c.cmt[reqs[r].page].cached && c.lru != [] && c.lru[0] == reqs[r].page
      ensures res == Finished && reqs[r].isWrite ==>
        c.cmt[reqs[r].page].cached && c.cmt[reqs[r].page].dirty && c.lru != [] && c.lru[0] == reqs[r].page
      ensures res == Finished && !c.cmt[reqs[r].page].cached ==>
        !reqs[r].isWrite && c.cmt[reqs[r].page].tppa == None && c == old(c)
    {
      hide TransOk, WorkOk, CacheOk, CleanMap, NoTpage, DirtyVictim;
      RequestOk(reqs, c.cmt, w, place, owner, r);
      CursorBound(g, t, CleanMap(c.cmt));
      if r in w.params {
        if !w.params[r].read { res := WriteFlying(r); } else { res := ReadFlying(r); }
        return;
      }
      var p := reqs[r].page;
      if c.cmt[p].cached {
        if reqs[r].isWrite || !unmapped { CacheUpdate(r); }
      } else if reqs[r].isWrite || c.cmt[p].tppa.Some? {
        res := CacheEviction(r);
        if res != Finished { return; }
      }
      Finish(r);
      return Finished;
    }

    /** The device has completed the mapping request of r: r is queued again, and a read is marked. */
    static ghost predicate Arrived(w: Work, w': Work, r: nat) {
      && r in w.out && r in w.params
      && w' == w.(queue := w.queue + {r}, out := w.out - {r},
                  params := if w.out[r] != MapRead then w.params else w.params[r := w.params[r].(read := true)])
    }

    /** demand_end_req for MAPPING_R and MAPPING_W. */
    method Complete(r: nat)
      requires Valid() && r in w.out
      modifies `w, `place
      ensures Valid() && Arrived(old(w), w, r)
    {
      hide TransOk, WorkOk, CacheOk, CleanMap;
      CompleteOk(reqs, c.cmt, w, place, owner, r);
      OutOk(reqs, c.cmt, w, place, owner, r);
      w := w.(queue := w.queue + {r}, out := w.out - {r},
              params := if w.out[r] == MapRead then w.params[r := w.params[r].(read := true)] else w.params);
      place := place[r := Queued];
    }

    static lemma OutOk(reqs: seq<Request>, cmt: seq<Entry>, w: Work, place: seq<Place>, owner: map<nat, nat>, r: nat)
      requires WorkOk(reqs, cmt, w, place, owner) && r in w.out
      ensures r < |place|
    {
    }

    /** The table of page p is dirty, or at a new address; the others have at most been moved. */
    static ghost predicate Rewrote(c: Cache, c': Cache, t: Trans, t': Trans, p: nat) {
      && p < |c.cmt| == |c'.cmt| && c' == c.(cmt := c'.cmt)
      && if c.cmt[p].cached then
           && c'.cmt == c.cmt[p := c.cmt[p].(dirty := true)]
           && if c.cmt[p].dirty then t' == t else Dropped(t, t', c.cmt[p].tppa)
         else
           && t'.cur.At? && t'.cur.pg > 0 && c'.cmt[p] == c.cmt[p].(tppa := Some(Addr(0, t'.cur.blk, t'.cur.pg - 1)))
           && forall q: nat :: q < |c.cmt| && q != p ==> c'.cmt[q] == c.cmt[q].(tppa := c'.cmt[q].tppa)
    }

    /** What dpage_GC does to the translation page of entries it changes: a cached page becomes dirty, any other is
        rewritten at a new address.  The exit for want of a translation page is never reached here, as the old copy is
        invalidated first. */
    method RewriteTable(p: nat)
      requires Valid() && p < |c.cmt| && (c.cmt[p].cached || c.cmt[p].tppa.Some?)
      modifies `c, `t
      ensures Valid() && Rewrote(old(c), c, old(t), t, p)
    {
      hide TransOk, WorkOk, CacheOk, CleanMap, Steady, Readdressed, NoTpage;
      CachedLru(c, max, p);
      if c.cmt[p].cached {
        if !c.cmt[p].dirty { MakeDirty(p); }
        return;
      }
      CleanHere(c.cmt, p);
      TransInvalidate(g, t, CleanMap(c.cmt), p);
      PageToHave(g, t, CleanMap(c.cmt), p, maxT);
      t := t.(bs := Invalidated(t.bs, c.cmt[p].tppa.value));
      var ok := TpAlloc({p});
      ReaddressedOk(old(c), max, c.cmt, p);
      ghost var cmt1, a := c.cmt, Addr(0, t.cur.blk, t.cur.pg);
      RewriteFrame(old(c), max, cmt1, p, a);
      SteadyOk(reqs, old(c.cmt), cmt1[p := cmt1[p].(tppa := Some(a))], w, place, owner);
      WriteTable(p, c.cmt[p], {p});
    }

    /** Invalidating a page leaves a used block with an invalid page. */
    static lemma PageToHave(g: Geo, t: Trans, m: Mapping, p: nat, maxT: nat)
      requires TransOk(g, t, m) && p in m && In(t.bs, m[p].ch, m[p].blk)
      ensures var t' := t.(bs := Invalidated(t.bs, m[p])); |t'.bs| > 0 && !NoTpage(g, t', maxT)
    {
      var a := m[p];
      assert Live(t.bs, a) && a.ch == 0;
      assert a.blk in t.used && a.blk < |t.bs[0]|;
      PutAt(g, t.bs, a.ch, a.blk, Clear(t.bs[a.ch][a.blk], a.pg));
    }

    static lemma CleanHere(cmt: seq<Entry>, p: nat)
      requires p < |cmt| && !cmt[p].dirty && cmt[p].tppa.Some?
      ensures p in CleanMap(cmt) && CleanMap(cmt)[p] == cmt[p].tppa.value
    {
    }

    static lemma RewriteFrame(c: Cache, max: nat, cmt: seq<Entry>, p: nat, a: Addr)
      requires CacheOk(c, max) && Readdressed(c.cmt, cmt) && p < |c.cmt| && c.cmt[p].tppa.Some?
      ensures |cmt| == |c.cmt| && Steady(c.cmt, cmt[p := cmt[p].(tppa := Some(a))])
      ensures CacheOk(c.(cmt := cmt[p := cmt[p].(tppa := Some(a))]), max)
      ensures forall q: nat :: q < |cmt| ==> cmt[q] == c.cmt[q].(tppa := cmt[q].tppa)
    {
      SameFlags(c, max, cmt[p := cmt[p].(tppa := Some(a))]);
    }

    /** What Valid says about counters and flags. */
    lemma CacheFacts()
      requires Valid()
      ensures c.numCaching == |c.lru| == |set p: nat | p < |c.cmt| && c.cmt[p].cached| && c.numFlying == |Flying(c.cmt)|
      ensures c.numCaching + c.numFlying <= max
      ensures forall p: nat :: p < |c.cmt| ==>
        !(c.cmt[p].flying && c.cmt[p].cached) && (c.cmt[p].dirty ==> c.cmt[p].cached)
    {
      hide TransOk, WorkOk, CleanMap;
      assert forall p: nat :: p < |c.cmt| ==> EntryOk(c.cmt[p]);
      assert (set p: nat | p < |c.cmt| && c.cmt[p].cached) == Members(c.lru);
      MembersSize(c.lru);
    }

    /** What Valid says about translation pages: the valid ones are exactly the addresses of the clean entries that
        have one, and the spare area of each names its entry. */
    lemma PageFacts()
      requires Valid()
      ensures forall a :: Live(t.bs, a) <==> exists p: nat :: OnFlashAt(p, a)
      ensures forall p: nat, a :: OnFlashAt(p, a) ==>
        Live(t.bs, a) && a.pg < |t.bs[a.ch][a.blk].oob| && Back(t.bs, a) == p
    {
      hide CacheOk, WorkOk, CursorOk, BlocksHeld;
      var m := CleanMap(c.cmt);
      forall p: nat, a | OnFlashAt(p, a) ensures Live(t.bs, a) && a.pg < |t.bs[a.ch][a.blk].oob| && Back(t.bs, a) == p {
        assert p in m && m[p] == a;
      }
      forall a | Live(t.bs, a) ensures exists p: nat :: OnFlashAt(p, a) {
        assert m[Back(t.bs, a)] == a;
        assert OnFlashAt(Back(t.bs, a), a);
      }
    }

    /** Entry p is clean and its translation page is at a. */
    ghost predicate OnFlashAt(p: nat, a: Addr)
      reads this
    {
      p < |c.cmt| && !c.cmt[p].dirty && c.cmt[p].tppa == Some(a)
    }

    /** The whole state, for the record of a run. */
    ghost function Now(): Snapshot
      reads this
    {
      Snapshot(c, w, t)
    }

    /** The event makes the program exit in this state. */
    static ghost predicate Fatal(g: Geo, reqs: seq<Request>, max: nat, maxT: nat, s: Snapshot, e: Event) {
      e.Dispatched? && e.r in s.w.queue && Stops(g, reqs, max, maxT, s.c, s.w, s.t, e.r)
    }

    /** What an event that does not make it exit does. */
    static ghost predicate Follows(reqs: seq<Request>, max: nat, s: Snapshot, e: Event, s': Snapshot) {
      match e
      case Dispatched(r, unmapped) =>
        if r in s.w.queue then exists res :: Served(reqs, max, s, s', r, unmapped, res) else s' == s
      case Completed(r) => if r in s.w.out then s' == s.(w := s'.w) && Arrived(s.w, s'.w, r) else s' == s
      case Rewritten(p) =>
        if p < |s.c.cmt| && (s.c.cmt[p].cached || s.c.cmt[p].tppa.Some?)
        then s'.w == s.w && Rewrote(s.c, s'.c, s.t, s'.t, p)
        else s' == s
    }

    /** Any run: the invariant holds throughout, and while a request is unfinished another step is possible.  The states
        the run goes through are returned; it exits at the first event that finds no page for a dirty victim, and at no
        other. */
    method Run(schedule: seq<Event>) returns (exited: bool, ghost trace: seq<Snapshot>)
      requires Valid()
      modifies this
      ensures 0 < |trace| <= |schedule| + 1 && trace[0] == old(Now())
      ensures forall i :: 0 <= i < |trace| - 1 ==> !Fatal(g, reqs, max, maxT, trace[i], schedule[i])
      ensures forall i :: 0 <= i < |trace| - 1 ==> Follows(reqs, max, trace[i], schedule[i], trace[i + 1])
      ensures if exited
              then |trace| <= |schedule| && Fatal(g, reqs, max, maxT, trace[|trace| - 1], schedule[|trace| - 1])
              else |trace| == |schedule| + 1 && trace[|schedule|] == Now()
      ensures !exited ==> Valid()
      ensures !exited ==> w.queue != {} || w.out.Keys != {} || forall r: nat :: r < |reqs| ==> r in w.done
      ensures !exited ==> old(w.done) <= w.done
    {
      hide TransOk, WorkOk, CacheOk, CleanMap, Stops, Served, Rewrote;
      trace := [Now()];
      var i := 0;
      while i < |schedule|
        invariant 0 <= i <= |schedule| && Valid() && old(w.done) <= w.done
        invariant |trace| == i + 1 && trace[0] == old(Now()) && trace[i] == Now()
        invariant forall j :: 0 <= j < i ==> !Fatal(g, reqs, max, maxT, trace[j], schedule[j])
        invariant forall j :: 0 <= j < i ==> Follows(reqs, max, trace[j], schedule[j], trace[j + 1])
      {
        match schedule[i] {
          case Dispatched(r, unmapped) =>
            if r in w.queue {
              var res := Dispatch(r, unmapped);
              if res == Exited { return true, trace; }
            }
          case Completed(r) =>
            if r in w.out { Complete(r); }
          case Rewritten(p) =>
            if p < |c.cmt| && (c.cmt[p].cached || c.cmt[p].tppa.Some?) { RewriteTable(p); }
        }
        trace := trace + [Now()];
        i := i + 1;
      }
      forall r: nat | r < |reqs| && r !in w.done ensures w.queue != {} || w.out.Keys != {} {
        NobodyStranded(reqs, c, max, w, place, owner, r);
      }
      return false, trace;
    }
  }
}

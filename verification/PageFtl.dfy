/**
 The page-mapped FTL of algorithm/Page_ftl over the base block manager: writes, reads and greedy
 garbage collection.  `data` is what a user of the device has written.
 */
module PageFtl {
  import opened Sequences
  import opened FlashBlocks
  import opened FlashSegments
  import opened BlockManager
  import opened PageState

  class Ftl {
    const bm: BaseBm
    var active: Segment
    var reserve: Segment
    var mapping: Mapping
    var flash: Flash
    ghost var data: map<nat, Data>

    ghost predicate Valid()
      reads this, bm, active, reserve
    {
      && Ready() && Good(bm.g, bm.bs, bm.free, bm.heap, active.blocks, active.now, reserve.blocks, mapping)
      && Kept(mapping, flash, data)
    }

    ghost predicate Ready()
      reads this, bm, active, reserve
    {
      bm.Queues() && active != reserve && reserve.now == 0 && bm.g.ppb > 0 && bm.g.nos > 0
    }

    /** page_map_create */
    constructor (g: Geo)
      requires g.bps > 0 && g.nos >= 2 && g.ppb > 0
      ensures Valid() && mapping == map[] && data == map[] && bm.g == g && fresh(bm) && fresh(active) && fresh(reserve)
      ensures Used(g, bm.bs, active.blocks) == 0 && forall c :: 0 <= c < g.bps ==> |bm.free[c]| == g.nos - 2
    {
      var b := new BaseBm(g);
      var r := b.GetSegment(true);
      var a := b.GetSegment(false);
      bm, reserve, active, mapping, flash, data := b, r, a, map[], map[], map[];
      new;
      StartGood(g, b.bs, b.free, b.heap, a.blocks, r.blocks);
    }

    static lemma StartGood(g: Geo, bs: Blocks, free: seq<seq<nat>>, heap: seq<set<nat>>, act: seq<nat>, res: seq<nat>)
      requires g.bps > 0 && g.nos >= 2 && Shape(g, bs) && |free| == |heap| == |act| == |res| == g.bps
      requires forall c: nat, b: nat :: In(bs, c, b) ==> bs[c][b] == Erased(g)
      requires forall c :: 0 <= c < g.bps ==>
        heap[c] == {act[c]} && seq(g.nos, i => i) == [res[c]] + ([act[c]] + free[c])
      ensures Good(g, bs, free, heap, act, 0, res, map[]) && Used(g, bs, act) == 0
    {
      hide AllLive, ChannelOk;
      forall c | 0 <= c < g.bps ensures ChannelOk(g, bs[c], free[c], heap[c], act[c], res[c]) {
        assert forall b: nat :: b < g.nos ==> In(bs, c, b);
        StartChannel(g, bs[c], free[c], act[c], res[c]);
      }
      ArrangedOnDevice(g, bs, free, heap, act, res);
      StartSegment(g, bs, act);
      AllErased(g, bs);
    }

    static lemma StartSegment(g: Geo, bs: Blocks, act: seq<nat>)
      requires OnDevice(g, bs, act) && forall c: nat, b: nat :: In(bs, c, b) ==> bs[c][b] == Erased(g)
      ensures SegOk(g, bs, act, 0) && Used(g, bs, act) == 0
    {
      assert forall c: nat :: c < g.bps ==> In(bs, c, act[c]);
      UsedIs(g, bs, act, 0, g.bps);
    }

    static lemma StartChannel(g: Geo, row: seq<Block>, f: seq<nat>, a: nat, r: nat)
      requires |row| == g.nos >= 2 && forall b :: 0 <= b < |row| ==> row[b] == Erased(g)
      requires seq(g.nos, i => i) == [r] + ([a] + f)
      ensures ChannelOk(g, row, f, {a}, a, r)
    {
      var all := seq(g.nos, i => i);
      assert all[0] == r && all[1] == a;
      assert forall i :: 0 <= i < |f| ==> f[i] == all[i + 2] == i + 2;
      forall b: nat | 2 <= b < g.nos ensures b in f { assert f[b - 2] == b; }
    }

    static lemma {:induction false} AllErased(g: Geo, bs: Blocks)
      requires forall c: nat, b: nat :: In(bs, c, b) ==> bs[c][b] == Erased(g)
      ensures AllLive(bs) == 0
      decreases |bs|
    {
      if bs != [] {
        var n := |bs| - 1;
        assert forall c: nat, b: nat :: In(bs[..n], c, b) ==> In(bs, c, b);
        AllErased(g, bs[..n]);
        assert forall b: nat :: b < |bs[n]| ==> In(bs, n, b);
        RowErased(bs[n]);
      }
    }

    static lemma {:induction false} RowErased(row: seq<Block>)
      requires forall b :: 0 <= b < |row| ==> row[b].bits == {}
      ensures RowLive(row) == 0
      decreases |row|
    {
      if row != [] { RowErased(row[..|row| - 1]); }
    }

    /** page_map_pick, None standing for the abort on an unmapped address, and the read of the page. */
    method Read(lba: nat) returns (v: Option<Data>)
      requires Valid()
      ensures v == if lba in data then Some(data[lba]) else None
    {
      if lba !in mapping { return None; }
      v := Some(flash[mapping[lba]]);
    }

    /** The retry loop of page_map_assign: the next page of the active segment, or of a new one once it is full.
        None stands for the abort when no free segment is left. */
    method TakePage(ghost m: Mapping) returns (r: Option<Addr>, ghost k: nat)
      requires Ready() && Good(bm.g, bm.bs, bm.free, bm.heap, active.blocks, active.now, reserve.blocks, m)
      modifies `active, bm, active`now
      ensures Ready() && reserve == old(reserve) && (active == old(active) || fresh(active))
      ensures r == None <==> old(Used(bm.g, bm.bs, active.blocks)) == bm.g.bps * bm.g.ppb && old(bm.free[0]) == []
      ensures r.Some? ==> Good(bm.g, old(bm.bs), bm.free, bm.heap, active.blocks, k, reserve.blocks, m)
      ensures r.Some? ==> Issued(bm.g, old(bm.bs), bm.bs, active.blocks, k, active.now, r.value)
      ensures old(Used(bm.g, bm.bs, active.blocks)) < bm.g.bps * bm.g.ppb ==>
                active == old(active) && bm.free == old(bm.free) && bm.heap == old(bm.heap)
    {
      hide Good, UsedTo, BaseBm.Queues, Issued, SegOk;
      k := active.now;
      GoodParts(bm.g, bm.bs, bm.free, bm.heap, active.blocks, active.now, reserve.blocks, m);
      IssuePosition(bm.g, bm.bs, active.blocks, active.now);
      r := bm.GetPageNum(active);
      if r == None {
        ghost var f0, h0, a0, k0 := bm.free, bm.heap, active.blocks, active.now;
        var s := bm.GetSegment(false);
        if s == null { return; }
        active := s;
        k := 0;
        GoodNext(bm.g, bm.bs, f0, h0, a0, k0, reserve.blocks, m, bm.free, bm.heap, active.blocks);
        GoodParts(bm.g, bm.bs, bm.free, bm.heap, active.blocks, 0, reserve.blocks, m);
        IssuePosition(bm.g, bm.bs, active.blocks, 0);
        r := bm.GetPageNum(active);
      }
    }

    static lemma GoodParts(g: Geo, bs: Blocks, free: seq<seq<nat>>, heap: seq<set<nat>>, act: seq<nat>, k: nat,
                           res: seq<nat>, m: Mapping)
      requires Good(g, bs, free, heap, act, k, res, m)
      ensures |bs| == |free| == |heap| == |act| == |res| == g.bps > 0 && Shape(g, bs) && SegOk(g, bs, act, k)
    {
    }

    // ---------------------------------------------------------------- garbage collection

    /** page_map_gc_update and the copy of the page: get_page_num never fails here.  With `store` the returned
        address is also written to the mapping. */
    method Relocate(x: Addr, store: bool, ghost pending: set<Addr>,
                    ghost bs0: Blocks, ghost flash0: Flash, ghost m0: Mapping, ghost t: seq<nat>, ghost total: nat)
      requires Gathering(bm.g, store, bs0, flash0, m0, t, total, data, bm.bs, reserve.blocks, reserve.now, mapping,
                         flash)
      requires Pending(bm.bs, t, pending) && x in pending && |t| == bm.g.bps
      modifies `mapping, `flash, bm`bs, reserve`now
      ensures Gathering(bm.g, store, bs0, flash0, m0, t, total, data, bm.bs, reserve.blocks, reserve.now, mapping,
                        flash)
      ensures Pending(bm.bs, t, pending - {x})
    {
      hide Gathering, Pending, SegOk, Issued, Shifted, UsedTo, BlockOk;
      ghost var g, bs, res, k := bm.g, bm.bs, reserve.blocks, reserve.now;
      GatherStep(g, store, bs0, flash0, m0, t, total, data, bs, res, k, mapping, flash, pending, x);
      var lba := bm.bs[x.ch][x.blk].oob[x.pg];
      var r := bm.GetPageNum(reserve);
      IssuedWhere(g, bs, bm.bs, res, k, reserve.now, r.value);
      ShiftComposed(g, bs, bm.bs, res, k, reserve.now, r.value, x);
      bm.Unpopulate(x);
      bm.Populate(r.value, lba);
      if store { mapping := mapping[lba := r.value]; }
      flash := flash[r.value := flash[x]];
    }

    static lemma IssuedWhere(g: Geo, bs: Blocks, bs': Blocks, seg: seq<nat>, k: nat, k': nat, a: Addr)
      requires Issued(g, bs, bs', seg, k, k', a)
      ensures k' == (if k + 1 == g.bps then 0 else k + 1) && In(bs, k, seg[k]) && a == Head(bs, k, seg[k])
    {
    }

    /** The first pass of do_gc: the pages of the victim whose valid bit is set. */
    method Collect(t: seq<nat>) returns (pending: set<Addr>)
      requires BlocksOk(bm.g, bm.bs) && OnDevice(bm.g, bm.bs, t)
      ensures Pending(bm.bs, t, pending)
    {
      pending := {};
      var p := 0;
      while p < bm.g.ppb
        invariant 0 <= p <= bm.g.ppb
        invariant forall x :: x in pending <==> Live(bm.bs, x) && x.ch < |t| && x.blk == t[x.ch] && x.pg < p
      {
        var c := 0;
        while c < bm.g.bps
          invariant 0 <= c <= bm.g.bps
          invariant forall x :: x in pending <==>
            Live(bm.bs, x) && x.ch < |t| && x.blk == t[x.ch] && (x.pg < p || (x.pg == p && x.ch < c))
        {
          if Live(bm.bs, Addr(c, t[c], p)) { pending := pending + {Addr(c, t[c], p)}; }
          c := c + 1;
        }
        p := p + 1;
      }
      assert forall x :: Live(bm.bs, x) ==> BlockOk(bm.g, bm.bs[x.ch][x.blk]);
    }

    /** The second pass of do_gc: pages are moved in whatever order their reads complete. */
    method MoveAll(pending0: set<Addr>, store: bool,
                   ghost bs0: Blocks, ghost flash0: Flash, ghost m0: Mapping, ghost t: seq<nat>, ghost total: nat)
      requires Gathering(bm.g, store, bs0, flash0, m0, t, total, data, bm.bs, reserve.blocks, reserve.now, mapping,
                         flash)
      requires Pending(bm.bs, t, pending0) && |t| == bm.g.bps
      modifies `mapping, `flash, bm`bs, reserve`now
      ensures Gathering(bm.g, store, bs0, flash0, m0, t, total, data, bm.bs, reserve.blocks, reserve.now, mapping,
                        flash)
      ensures Pending(bm.bs, t, {})
    {
      hide Gathering, Pending;
      var pending := pending0;
      while pending != {}
        invariant Gathering(bm.g, store, bs0, flash0, m0, t, total, data, bm.bs, reserve.blocks, reserve.now, mapping,
                            flash)
        invariant Pending(bm.bs, t, pending)
        decreases pending
      {
        var x :| x in pending;
        Relocate(x, store, pending, bs0, flash0, m0, t, total);
        pending := pending - {x};
      }
    }

    /** do_gc.  With or without the store of the new addresses: every (address, data) pair held by a valid page
        survives, no valid page is erased, and the new active segment has room exactly when not every page
        outside the reserve was valid.  With it the FTL is as good as before; without it the mapping is still
        right exactly if every channel had a used block without a valid page to begin with. */
    method DoGc(store: bool)
      requires Ready() && Kept(mapping, flash, data)
      requires Exhausted(bm.g, bm.bs, bm.free, bm.heap, active.blocks, active.now, reserve.blocks, mapping)
      modifies `active, `reserve, `mapping, `flash, bm, reserve
      ensures Ready() && active == old(reserve) && fresh(reserve) && bm.free[0] == []
      ensures Collected(bm.g, bm.bs, bm.free, bm.heap, active.blocks, active.now, reserve.blocks)
      ensures SameContents(old(bm.bs), old(flash), bm.bs, flash) && AllLive(bm.bs) == |mapping|
      ensures Used(bm.g, bm.bs, active.blocks) == bm.g.bps * bm.g.ppb <==> |old(mapping)| == bm.g.bps * RowMax(bm.g)
      ensures store ==> Good(bm.g, bm.bs, bm.free, bm.heap, active.blocks, active.now, reserve.blocks, mapping)
      ensures store ==> Kept(mapping, flash, data)
      ensures !store ==> mapping == old(mapping)
                         && (Inverse(bm.g, bm.bs, mapping) <==> old(SpareVictim(bm.bs, bm.heap)))
    {
      hide AllLive, UsedTo, LiveTo, Arranged, BlocksOk, Inverse, SameContents, Kept, Pending, Gathering, SegOk, Moving,
           RowMax, SpareVictim;
      ghost var g, bs0, f0, h0, a0, k0, m0, fl0 :=
        bm.g, bm.bs, bm.free, bm.heap, active.blocks, active.now, mapping, flash;
      GoodParts(g, bs0, f0, h0, a0, k0, reserve.blocks, m0);
      HeapsUsable(g, bs0, f0, h0, a0, reserve.blocks);
      var t := bm.GetGcTarget();
      GatherStart(g, store, bs0, f0, h0, a0, k0, reserve.blocks, m0, fl0, data, t);
      ghost var total := LiveIn(g, bs0, t);
      NothingToMove(g, bs0, f0, h0, a0, k0, reserve.blocks, m0, t);
      var pending := Collect(t);
      MoveAll(pending, store, bs0, fl0, m0, t, total);
      ghost var bs1, k1 := bm.bs, reserve.now;
      GatheringShape(g, store, bs0, fl0, m0, t, total, data, bs1, reserve.blocks, k1, mapping, flash);
      Rotate(t);
      assert |[] + [t[0]]| == |[t[0]] + bm.free[0]|;
      GatherEnd(g, store, bs0, f0, h0, a0, k0, active.blocks, m0, fl0, data, t, total, bs1, k1, mapping, flash, bm.bs,
                bm.free, bm.heap);
    }

    /** The end of do_gc: the victim is erased and becomes the reserve, the old reserve the active segment. */
    method Rotate(t: seq<nat>)
      requires bm.Queues() && Shape(bm.g, bm.bs) && |t| == |reserve.blocks| == bm.g.bps
      requires forall c :: 0 <= c < bm.g.bps ==> t[c] < bm.g.nos && bm.free[c] == []
      modifies `active, `reserve, bm
      ensures bm.Queues() && active == old(reserve) && fresh(reserve) && reserve.now == 0 && reserve.blocks == t
      ensures Trimmed(bm.g, old(bm.bs), bm.bs, t)
      ensures forall c :: 0 <= c < bm.g.bps ==>
        [] + [t[c]] == [t[c]] + bm.free[c] && bm.heap[c] == old(bm.heap[c]) + {active.blocks[c]}
    {
      bm.Trim(t);
      ghost var f := bm.free;
      assert forall c :: 0 <= c < bm.g.bps ==> f[c] == [] + [t[c]];
      active := reserve;
      var s := bm.ChangeReserve(reserve);
      assert forall c :: 0 <= c < bm.g.bps ==> f[c] == [s.blocks[c]] + bm.free[c];
      forall c | 0 <= c < bm.g.bps ensures s.blocks[c] == t[c] {
        assert f[c][0] == t[c];
      }
      reserve := s;
    }

    static lemma GatheringShape(g: Geo, store: bool, bs0: Blocks, flash0: Flash, m0: Mapping, t: seq<nat>, total: nat,
                                data: map<nat, Data>, bs: Blocks, res: seq<nat>, k: nat, m: Mapping, flash: Flash)
      requires Gathering(g, store, bs0, flash0, m0, t, total, data, bs, res, k, m, flash)
      ensures Shape(g, bs) && |bs| == |t| == |res| == g.bps && forall c :: 0 <= c < g.bps ==> t[c] < g.nos
    {
    }

    static lemma IssuedFilled(g: Geo, bs: Blocks, bs': Blocks, seg: seq<nat>, k: nat, k': nat, a: Addr, l: nat)
      requires BlocksOk(g, bs) && Issued(g, bs, bs', seg, k, k', a)
      ensures k < |seg| && In(bs, k, seg[k]) && bs[k][seg[k]].now < |bs[k][seg[k]].oob|
      ensures |seg| == |bs| == g.bps && a == Head(bs, k, seg[k]) && 0 < |seg| && seg[|seg| - 1] < |bs[|seg| - 1]|
      ensures Row(bs, seg) < g.ppb
      ensures k' == if k + 1 == g.bps then 0 else k + 1
      ensures In(bs', a.ch, a.blk) && a.pg < |bs'[a.ch][a.blk].oob|
      ensures Put(bs', a.ch, a.blk, Marked(bs'[a.ch][a.blk], a.pg, l)) == Filled(bs, k, seg[k], l)
    {
      assert In(bs, k, seg[k]) && BlockOk(g, bs[k][seg[k]]);
      PutAt(g, bs, k, seg[k], bs[k][seg[k]].(now := a.pg + 1));
      PutPut(bs, k, seg[k], bs[k][seg[k]].(now := a.pg + 1), Fill(bs[k][seg[k]], l));
    }

    /** The part of page_map_assign after garbage collection, and the write of the page. */
    method Place(lba: nat, v: Data) returns (ok: bool)
      requires Valid()
      modifies this, bm, active`now
      ensures ok <==> old(Used(bm.g, bm.bs, active.blocks)) < bm.g.bps * bm.g.ppb || old(bm.free[0]) != []
      ensures ok ==> Valid() && data == old(data)[lba := v]
      ensures reserve == old(reserve) && (active == old(active) || fresh(active))
      ensures old(Used(bm.g, bm.bs, active.blocks)) < bm.g.bps * bm.g.ppb ==>
                && active == old(active)
                && Used(bm.g, bm.bs, active.blocks) == old(Used(bm.g, bm.bs, active.blocks)) + 1
                && bm.free == old(bm.free)
    {
      hide Good, Issued, UsedTo, BlocksOk, BaseBm.Queues, SegOk, Kept, Filled, Marked, Invalidated, Row, Head;
      ghost var m1 := mapping - {lba};
      GoodParts(bm.g, bm.bs, bm.free, bm.heap, active.blocks, active.now, reserve.blocks, mapping);
      IssuePosition(bm.g, bm.bs, active.blocks, active.now);
      if lba in mapping {
        OldPage(bm.g, bm.bs, bm.free, bm.heap, active.blocks, active.now, reserve.blocks, mapping, lba);
        GoodInvalidated(bm.g, bm.bs, bm.free, bm.heap, active.blocks, active.now, reserve.blocks, mapping, lba);
        bm.Unpopulate(mapping[lba]);
      } else {
        assert m1 == mapping;
      }
      ghost var bs1 := bm.bs;
      var r, k := TakePage(m1);
      if r == None { return false; }
      Placed(bm.g, bs1, bm.bs, bm.free, bm.heap, active.blocks, k, active.now, reserve.blocks, mapping, flash, data,
             lba, r.value, v);
      bm.Populate(r.value, lba);
      mapping := mapping[lba := r.value];
      flash := flash[r.value := v];
      data := data[lba := v];
      return true;
    }

    /** The page issued for l is marked and entered in the mapping. */
    static lemma Placed(g: Geo, bs: Blocks, bs1: Blocks, free: seq<seq<nat>>, heap: seq<set<nat>>, act: seq<nat>,
                        k: nat, k': nat, res: seq<nat>, m: Mapping, flash: Flash, data: map<nat, Data>, l: nat,
                        a: Addr, v: Data)
      requires Good(g, bs, free, heap, act, k, res, m - {l}) && Kept(m, flash, data)
      requires Issued(g, bs, bs1, act, k, k', a)
      ensures In(bs1, a.ch, a.blk) && a.pg < |bs1[a.ch][a.blk].oob|
      ensures Good(g, Put(bs1, a.ch, a.blk, Marked(bs1[a.ch][a.blk], a.pg, l)), free, heap, act, k', res, m[l := a])
      ensures Kept(m[l := a], flash[a := v], data[l := v])
      ensures OnDevice(g, bs, act) && OnDevice(g, Put(bs1, a.ch, a.blk, Marked(bs1[a.ch][a.blk], a.pg, l)), act)
      ensures Used(g, Put(bs1, a.ch, a.blk, Marked(bs1[a.ch][a.blk], a.pg, l)), act) == Used(g, bs, act) + 1
    {
      hide Good, Issued, UsedTo, BlocksOk, SegOk, Kept, Filled, Marked, Row, Head;
      var m1 := m - {l};
      GoodBlocks(g, bs, free, heap, act, k, res, m1);
      IssuedFilled(g, bs, bs1, act, k, k', a, l);
      GoodFilled(g, bs, free, heap, act, k, res, m1, l, k', Filled(bs, k, act[k], l));
      FilledUsed(g, bs, act, k, l);
      assert m[l := a] == m1[l := a];
      assert forall j :: j in m && j != l ==> j in m1 && m1[j] == m[j];
      KeptWrite(m, flash, data, l, a, v);
    }

    static lemma FilledUsed(g: Geo, bs: Blocks, act: seq<nat>, k: nat, l: nat)
      requires SegOk(g, bs, act, k) && BlocksOk(g, bs) && In(bs, k, act[k]) && bs[k][act[k]].now < |bs[k][act[k]].oob|
      ensures OnDevice(g, Filled(bs, k, act[k], l), act)
      ensures Used(g, Filled(bs, k, act[k], l), act) == Used(g, bs, act) + 1
    {
      hide UsedTo, BlockOk;
      PutAt(g, bs, k, act[k], Fill(bs[k][act[k]], l));
      UsedPut(bs, act, k, act[k], Fill(bs[k][act[k]], l), g.bps);
    }

    static lemma KeptWrite(m: Mapping, flash: Flash, data: map<nat, Data>, l: nat, a: Addr, v: Data)
      requires Kept(m, flash, data) && forall j :: j in m && j != l ==> m[j] != a
      ensures Kept(m[l := a], flash[a := v], data[l := v])
    {
    }

    static lemma OldPage(g: Geo, bs: Blocks, free: seq<seq<nat>>, heap: seq<set<nat>>, act: seq<nat>, k: nat,
                         res: seq<nat>, m: Mapping, l: nat)
      requires Good(g, bs, free, heap, act, k, res, m) && l in m
      ensures In(bs, m[l].ch, m[l].blk)
    {
    }

    static lemma GoodBlocks(g: Geo, bs: Blocks, free: seq<seq<nat>>, heap: seq<set<nat>>, act: seq<nat>, k: nat,
                            res: seq<nat>, m: Mapping)
      requires Good(g, bs, free, heap, act, k, res, m)
      ensures BlocksOk(g, bs) && SegOk(g, bs, act, k)
    {
    }

    /** page_write: the write fails, which is the abort for want of a free segment, exactly when the active
        segment is full, no segment is free and every page outside the reserve is mapped. */
    method Write(lba: nat, v: Data) returns (ok: bool)
      requires Valid()
      modifies this, bm, active, reserve
      ensures ok <==> !(old(Used(bm.g, bm.bs, active.blocks)) == bm.g.bps * bm.g.ppb && old(bm.free[0]) == []
                        && old(|mapping|) == bm.g.bps * RowMax(bm.g))
      ensures active == old(active) || active == old(reserve) || fresh(active)
      ensures reserve == old(reserve) || fresh(reserve)
      ensures ok ==> Valid() && data == old(data)[lba := v]
      ensures old(Used(bm.g, bm.bs, active.blocks)) < bm.g.bps * bm.g.ppb ==>
                && active == old(active)
                && Used(bm.g, bm.bs, active.blocks) == old(Used(bm.g, bm.bs, active.blocks)) + 1
                && bm.free == old(bm.free)
    {
      hide Good, UsedTo, RowMax;
      GoodParts(bm.g, bm.bs, bm.free, bm.heap, active.blocks, active.now, reserve.blocks, mapping);
      IssuePosition(bm.g, bm.bs, active.blocks, active.now);
      if bm.CheckFull(active) && bm.IsGcNeeded() {
        assert forall c :: 0 <= c < bm.g.bps ==> |bm.free[c]| == |bm.free[0]| == 0;
        DoGc(true);
        GoodParts(bm.g, bm.bs, bm.free, bm.heap, active.blocks, active.now, reserve.blocks, mapping);
        IssuePosition(bm.g, bm.bs, active.blocks, active.now);
      }
      ok := Place(lba, v);
    }
  }

  /** Two blocks of two pages: one written full, the other the erased reserve. */
  lemma SmallLive(g: Geo, bs: Blocks, heap: set<nat>, free: seq<nat>, act: nat, res: nat)
    requires g == Geo(1, 2, 2) && BlocksOk(g, bs) && ChannelOk(g, bs[0], free, heap, act, res) && AllLive(bs) > 0
    ensures !SpareVictim(bs, [heap])
  {
    var row := bs[0];
    assert bs[..0] == [] && AllLive(bs) == AllLive(bs[..0]) + RowLive(row);
    assert row[..1][..0] == [] && row[..1][0] == row[0];
    assert RowLive(row[..1]) == RowLive(row[..1][..0]) + |row[0].bits|;
    assert RowLive(row) == RowLive(row[..1]) + |row[1].bits|;
    assert forall b: nat :: EmptyIn(row, heap, b) ==> b != res && b < 2;
    assert !HasEmpty(bs[0], heap);
  }

  /** One channel, two blocks of two pages, logical page 0 written twice: the collection that the next write
      starts has to move a page, so without the store the mapping is wrong afterwards. */
  method StoreIsNeeded(v: Data, w: Data) returns (f: Ftl)
    ensures fresh(f) && BlocksOk(f.bm.g, f.bm.bs) && !Inverse(f.bm.g, f.bm.bs, f.mapping) && 0 in f.mapping
  {
    hide Good, Exhausted, Kept, SameContents, SpareVictim, Inverse, AllLive, RowMax, BaseBm.Queues, UsedTo;
    f := new Ftl(Geo(1, 2, 2));
    var first := f.Write(0, v);
    var second := f.Write(0, w);
    SmallReady(f);
    f.DoGc(false);
  }

  lemma SmallReady(f: Ftl)
    requires f.Valid() && f.bm.g == Geo(1, 2, 2) && 0 in f.data && f.bm.free[0] == []
    requires Used(f.bm.g, f.bm.bs, f.active.blocks) == 2
    ensures Exhausted(f.bm.g, f.bm.bs, f.bm.free, f.bm.heap, f.active.blocks, f.active.now, f.reserve.blocks, f.mapping)
    ensures !SpareVictim(f.bm.bs, f.bm.heap) && 0 in f.mapping
  {
    hide AllLive, UsedTo, Inverse, ChannelOk, BlockOk;
    var g, bs := f.bm.g, f.bm.bs;
    IssuePosition(g, bs, f.active.blocks, f.active.now);
    assert ChannelOk(g, bs[0], f.bm.free[0], f.bm.heap[0], f.active.blocks[0], f.reserve.blocks[0]);
    SmallLive(g, bs, f.bm.heap[0], f.bm.free[0], f.active.blocks[0], f.reserve.blocks[0]);
    assert f.bm.heap == [f.bm.heap[0]];
  }
}

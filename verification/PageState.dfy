/**
 The invariants of the page-mapped FTL: how the blocks of each channel are divided among free queue,
 heap and reserve, and what garbage collection may do to pages, spare area and mapping.
 */
module PageState {
  import opened FlashBlocks
  import opened FlashSegments
  import opened BlockManager

  type Data = nat
  type Flash = map<Addr, Data>

  /** The blocks of a channel are divided among the free queue f, the heap h and the blocks o held apart. */
  ghost predicate Split(nos: nat, f: seq<nat>, h: set<nat>, o: set<nat>) {
    && (forall i, j :: 0 <= i < j < |f| ==> f[i] != f[j])
    && (forall b: nat :: b < nos <==> b in f || b in h || b in o)
    && (forall b: nat :: b in f ==> b !in h && b !in o)
    && h !! o
  }

  /** A channel with active block a and reserve block r. */
  ghost predicate ChannelOk(g: Geo, row: seq<Block>, f: seq<nat>, h: set<nat>, a: nat, r: nat) {
    && |row| == g.nos && Split(g.nos, f, h, {r}) && a in h && row[r] == Erased(g)
    && (forall b: nat :: b in f ==> row[b] == Erased(g))
    && (forall b: nat :: b in h && b != a ==> row[b].now == g.ppb)
  }

  ghost predicate Arranged(g: Geo, bs: Blocks, free: seq<seq<nat>>, heap: seq<set<nat>>, act: seq<nat>, res: seq<nat>) {
    && |bs| == |free| == |heap| == |act| == |res| == g.bps > 0
    && forall c :: 0 <= c < g.bps ==> ChannelOk(g, bs[c], free[c], heap[c], act[c], res[c])
  }

  /** Every mapped page holds what was last written to it. */
  ghost predicate Kept(m: Mapping, flash: Flash, data: map<nat, Data>) {
    data.Keys == m.Keys && forall l :: l in m ==> m[l] in flash && flash[m[l]] == data[l]
  }

  lemma ArrangedOnDevice(g: Geo, bs: Blocks, free: seq<seq<nat>>, heap: seq<set<nat>>, act: seq<nat>, res: seq<nat>)
    requires Arranged(g, bs, free, heap, act, res) && Shape(g, bs)
    ensures OnDevice(g, bs, act) && OnDevice(g, bs, res) && SegOk(g, bs, res, 0) && Used(g, bs, res) == 0
    ensures forall c :: 0 <= c < g.bps ==> act[c] != res[c]
  {
    forall c | 0 <= c < g.bps
      ensures act[c] < |bs[c]| && res[c] < |bs[c]| && bs[c][res[c]] == Erased(g) && act[c] != res[c]
    {
      assert ChannelOk(g, bs[c], free[c], heap[c], act[c], res[c]);
    }
    UsedIs(g, bs, res, 0, g.bps);
  }

  /** Only used blocks change, and only the active ones are issued from. */
  lemma ArrangedStill(g: Geo, bs: Blocks, bs': Blocks, free: seq<seq<nat>>, heap: seq<set<nat>>, act: seq<nat>,
                      res: seq<nat>)
    requires Arranged(g, bs, free, heap, act, res) && Shape(g, bs) && Shape(g, bs')
    requires forall c: nat, b: nat :: In(bs, c, b) && bs[c][b] == Erased(g) && b != act[c] ==> bs'[c][b] == bs[c][b]
    requires forall c: nat, b: nat :: In(bs, c, b) && b != act[c] ==> bs'[c][b].now == bs[c][b].now
    ensures Arranged(g, bs', free, heap, act, res)
  {
    forall c | 0 <= c < g.bps ensures ChannelOk(g, bs'[c], free[c], heap[c], act[c], res[c]) {
      assert ChannelOk(g, bs[c], free[c], heap[c], act[c], res[c]);
      assert forall b: nat :: b < g.nos ==> In(bs, c, b);
    }
  }

  /** A write of l into the active segment. */
  lemma ArrangedMoved(g: Geo, bs: Blocks, m: Mapping, l: nat, c: nat,
                      free: seq<seq<nat>>, heap: seq<set<nat>>, act: seq<nat>, res: seq<nat>)
    requires Arranged(g, bs, free, heap, act, res) && BlocksOk(g, bs) && Inverse(g, bs, m)
    requires c < g.bps && act[c] < |bs[c]| && bs[c][act[c]].now < g.ppb
    ensures Arranged(g, Moved(bs, m, l, c, act[c]), free, heap, act, res)
  {
    var bs1 := if l in m then Invalidated(bs, m[l]) else bs;
    if l in m {
      InvalidatedOk(g, bs, m[l]);
      PutAt(g, bs, m[l].ch, m[l].blk, Clear(bs[m[l].ch][m[l].blk], m[l].pg));
    }
    assert Head(bs1, c, act[c]) == Head(bs, c, act[c]);
    PutAt(g, bs1, c, act[c], Fill(bs1[c][act[c]], l));
    hide Arranged, Put, Inverse, BlockOk;
    ArrangedStill(g, bs, Moved(bs, m, l, c, act[c]), free, heap, act, res);
  }

  /** Switching to a fresh active segment once the old one is full. */
  lemma ArrangedNext(g: Geo, bs: Blocks, free: seq<seq<nat>>, heap: seq<set<nat>>, act: seq<nat>, res: seq<nat>,
                     free': seq<seq<nat>>, heap': seq<set<nat>>, act': seq<nat>)
    requires Arranged(g, bs, free, heap, act, res)
    requires |free'| == |heap'| == |act'| == g.bps
    requires forall c :: 0 <= c < g.bps ==> free[c] == [act'[c]] + free'[c] && heap'[c] == heap[c] + {act'[c]}
    requires forall c :: 0 <= c < g.bps ==> act[c] < |bs[c]| && bs[c][act[c]].now == g.ppb
    ensures Arranged(g, bs, free', heap', act', res)
    ensures forall c :: 0 <= c < g.bps ==> act'[c] < |bs[c]| && bs[c][act'[c]] == Erased(g)
  {
    forall c | 0 <= c < g.bps
      ensures ChannelOk(g, bs[c], free'[c], heap'[c], act'[c], res[c]) && act'[c] < |bs[c]|
      ensures bs[c][act'[c]] == Erased(g)
    {
      assert ChannelOk(g, bs[c], free[c], heap[c], act[c], res[c]);
      NextChannel(g, bs[c], free[c], heap[c], act[c], res[c], free'[c], act'[c]);
    }
  }

  lemma NextChannel(g: Geo, row: seq<Block>, f: seq<nat>, h: set<nat>, a: nat, r: nat, f': seq<nat>, a': nat)
    requires ChannelOk(g, row, f, h, a, r) && f == [a'] + f' && a < |row| && row[a].now == g.ppb
    ensures ChannelOk(g, row, f', h + {a'}, a', r) && a' < |row| && row[a'] == Erased(g)
  {
    assert a' == f[0] && forall i :: 0 <= i < |f'| ==> f'[i] == f[i + 1] != a';
    assert a' !in f' && forall b: nat :: b in f <==> b == a' || b in f';
  }

  // ---------------------------------------------------------------- garbage collection

  /** What a page carries: its logical address and its data. */
  ghost predicate Holds(bs: Blocks, flash: Flash, l: nat, v: Data) {
    exists x :: Carries(bs, flash, x, l, v)
  }

  ghost predicate Carries(bs: Blocks, flash: Flash, x: Addr, l: nat, v: Data) {
    Live(bs, x) && x in flash && x.pg < |bs[x.ch][x.blk].oob| && Back(bs, x) == l && flash[x] == v
  }

  ghost predicate SameContents(bs: Blocks, flash: Flash, bs': Blocks, flash': Flash) {
    forall l: nat, v: Data :: Holds(bs', flash', l, v) <==> Holds(bs, flash, l, v)
  }

  ghost predicate Written(bs: Blocks, flash: Flash) { forall x :: Live(bs, x) ==> x in flash }

  /** The blocks after the valid page x is copied to the head of block (c, b). */
  function Shifted(bs: Blocks, x: Addr, c: nat, b: nat): Blocks
    requires In(bs, x.ch, x.blk) && x.pg < |bs[x.ch][x.blk].oob| && In(bs, c, b) && bs[c][b].now < |bs[c][b].oob|
  {
    Filled(Invalidated(bs, x), c, b, Back(bs, x))
  }

  lemma ShiftedOk(g: Geo, bs: Blocks, flash: Flash, x: Addr, c: nat, b: nat)
    requires BlocksOk(g, bs) && Live(bs, x) && Written(bs, flash) && In(bs, c, b) && bs[c][b].now < g.ppb
    ensures var bs' := Shifted(bs, x, c, b); var flash' := flash[Head(bs, c, b) := flash[x]];
            x in flash && BlocksOk(g, bs') && Written(bs', flash') && SameContents(bs, flash, bs', flash')
  {
    hide Put, Clear, Fill, Filled, Invalidated, Shape;
    var bs1 := Invalidated(bs, x);
    var d := Head(bs, c, b);
    InvalidatedOk(g, bs, x);
    assert Head(bs1, c, b) == d;
    FilledOk(g, bs1, c, b, Back(bs, x));
    var bs' := Shifted(bs, x, c, b);
    var flash' := flash[d := flash[x]];
    ShiftContents(g, bs, flash, bs', flash', x, d);
  }

  lemma ShiftContents(g: Geo, bs: Blocks, flash: Flash, bs': Blocks, flash': Flash, x: Addr, d: Addr)
    requires BlocksOk(g, bs) && BlocksOk(g, bs') && Live(bs, x) && Written(bs, flash)
    requires forall y :: Live(bs', y) <==> (Live(bs, y) && y != x) || y == d
    requires d == x || !Live(bs, d)
    requires forall y :: Live(bs, y) && y != x ==> Back(bs', y) == Back(bs, y)
    requires Live(bs', d) && Back(bs', d) == Back(bs, x) && flash' == flash[d := flash[x]]
    ensures SameContents(bs, flash, bs', flash')
  {
    hide Shape;
    forall l: nat, v: Data ensures Holds(bs', flash', l, v) <==> Holds(bs, flash, l, v) {
      if Holds(bs, flash, l, v) {
        var y :| Carries(bs, flash, y, l, v);
        assert Carries(bs', flash', if y == x then d else y, l, v);
      }
      if Holds(bs', flash', l, v) {
        var y :| Carries(bs', flash', y, l, v);
        assert Carries(bs, flash, if y == d then x else y, l, v);
      }
    }
  }

  /** The valid pages of a victim. */
  ghost predicate Pending(bs: Blocks, t: seq<nat>, pending: set<Addr>) {
    forall x :: x in pending <==> Live(bs, x) && x.ch < |t| && x.blk == t[x.ch]
  }

  /** In the middle of a collection: only victim t and reserve res have changed, and the pages already in the
      reserve and those still in the victim are `total` together. */
  ghost predicate Moving(g: Geo, bs0: Blocks, bs: Blocks, t: seq<nat>, res: seq<nat>, k: nat, total: nat) {
    && BlocksOk(g, bs) && Shape(g, bs0) && OnDevice(g, bs, t) && SegOk(g, bs, res, k)
    && (forall c :: 0 <= c < g.bps ==> t[c] != res[c])
    && Used(g, bs, res) + LiveIn(g, bs, t) == total
    && Untouched(bs0, bs, t, res)
  }

  ghost predicate Untouched(bs0: Blocks, bs: Blocks, t: seq<nat>, res: seq<nat>)
    requires |bs| == |t| == |res|
  {
    forall c: nat, b: nat :: In(bs, c, b) && In(bs0, c, b) && b != t[c] && b != res[c] ==> bs[c][b] == bs0[c][b]
  }

  /** While the victim holds a valid page, the reserve has room for it. */
  lemma RoomLeft(g: Geo, bs0: Blocks, bs: Blocks, t: seq<nat>, res: seq<nat>, k: nat, total: nat, x: Addr)
    requires Moving(g, bs0, bs, t, res, k, total) && total <= g.bps * g.ppb
    requires Live(bs, x) && x.ch < g.bps && x.blk == t[x.ch]
    ensures Used(g, bs, res) < g.bps * g.ppb && Row(bs, res) < g.ppb
  {
    LiveNone(bs, t, g.bps);
    IssuePosition(g, bs, res, k);
  }

  /** Moving one page from victim to reserve. */
  lemma ShiftStep(g: Geo, bs0: Blocks, bs: Blocks, t: seq<nat>, res: seq<nat>, k: nat, total: nat, x: Addr)
    requires Moving(g, bs0, bs, t, res, k, total) && Row(bs, res) < g.ppb
    requires Live(bs, x) && x.ch < g.bps && x.blk == t[x.ch]
    ensures bs[k][res[k]].now < |bs[k][res[k]].oob| && x.pg < |bs[x.ch][x.blk].oob|
    ensures Moving(g, bs0, Shifted(bs, x, k, res[k]), t, res, if k + 1 == g.bps then 0 else k + 1, total)
  {
    hide UsedTo, LiveTo;
    var y := Clear(bs[x.ch][x.blk], x.pg);
    var bs1 := Invalidated(bs, x);
    InvalidatedOk(g, bs, x);
    ClearOk(g, bs[x.ch][x.blk], x.pg);
    PutAt(g, bs, x.ch, x.blk, y);
    UsedPut(bs, res, x.ch, x.blk, y, g.bps);
    LivePut(bs, t, x.ch, x.blk, y, g.bps);
    var z := Fill(bs1[k][res[k]], Back(bs, x));
    FilledOk(g, bs1, k, res[k], Back(bs, x));
    PutAt(g, bs1, k, res[k], z);
    LivePut(bs1, t, k, res[k], z, g.bps);
    Issue(g, bs1, res, k, z);
  }

  /** The victim's blocks are erased. */
  ghost predicate Trimmed(g: Geo, bs: Blocks, bs': Blocks, t: seq<nat>)
    requires |bs| == |t|
  {
    && Shape(g, bs) && Shape(g, bs')
    && forall c: nat, b: nat :: In(bs, c, b) ==> bs'[c][b] == if b == t[c] then Erased(g) else bs[c][b]
  }

  /** Erasing a victim without valid pages loses nothing. */
  lemma TrimOk(g: Geo, bs: Blocks, bs': Blocks, t: seq<nat>, m: Mapping, flash: Flash)
    requires BlocksOk(g, bs) && OnDevice(g, bs, t) && LiveIn(g, bs, t) == 0 && Trimmed(g, bs, bs', t)
    ensures BlocksOk(g, bs') && SameContents(bs, flash, bs', flash) && AllLive(bs') == AllLive(bs)
    ensures Inverse(g, bs', m) <==> Inverse(g, bs, m)
  {
    LiveNone(bs, t, g.bps);
    forall c: nat, b: nat | In(bs', c, b) ensures BlockOk(g, bs'[c][b]) && bs'[c][b].bits == bs[c][b].bits {
      assert In(bs, c, b) && BlockOk(g, bs[c][b]);
    }
    AllLiveSame(bs, bs');
    assert forall x :: Live(bs', x) <==> Live(bs, x);
    assert forall x :: Live(bs, x) ==> Back(bs', x) == Back(bs, x);
    hide SameContents, Inverse;
    LiveSame(g, bs, bs', m, flash);
  }

  lemma LiveSame(g: Geo, bs: Blocks, bs': Blocks, m: Mapping, flash: Flash)
    requires BlocksOk(g, bs) && BlocksOk(g, bs') && forall x :: Live(bs', x) <==> Live(bs, x)
    requires forall x :: Live(bs, x) ==> Back(bs', x) == Back(bs, x)
    ensures SameContents(bs, flash, bs', flash) && (Inverse(g, bs', m) <==> Inverse(g, bs, m))
  {
    forall l: nat, v: Data ensures Holds(bs', flash, l, v) <==> Holds(bs, flash, l, v) {
      if Holds(bs, flash, l, v) { var y :| Carries(bs, flash, y, l, v); assert Carries(bs', flash, y, l, v); }
      if Holds(bs', flash, l, v) { var y :| Carries(bs', flash, y, l, v); assert Carries(bs, flash, y, l, v); }
    }
  }

  lemma {:induction false} RowLiveSame(r: seq<Block>, r': seq<Block>)
    requires |r| == |r'| && forall b :: 0 <= b < |r| ==> r'[b].bits == r[b].bits
    ensures RowLive(r') == RowLive(r)
    decreases |r|
  {
    if r != [] { RowLiveSame(r[..|r| - 1], r'[..|r| - 1]); }
  }

  lemma {:induction false} AllLiveSame(bs: Blocks, bs': Blocks)
    requires |bs| == |bs'| && forall c :: 0 <= c < |bs| ==> |bs[c]| == |bs'[c]|
    requires forall c: nat, b: nat :: In(bs', c, b) ==> bs'[c][b].bits == bs[c][b].bits
    ensures AllLive(bs') == AllLive(bs)
    decreases |bs|
  {
    if bs != [] {
      var n := |bs| - 1;
      assert forall c: nat, b: nat :: In(bs'[..n], c, b) ==> In(bs', c, b);
      AllLiveSame(bs[..n], bs'[..n]);
      assert forall b: nat :: b < |bs'[n]| ==> In(bs', n, b);
      RowLiveSame(bs[n], bs'[n]);
    }
  }

  /** A channel when a collection starts: everything but the reserve is used up. */
  ghost predicate UsedUp(g: Geo, row: seq<Block>, f: seq<nat>, h: set<nat>, a: nat, r: nat) {
    && ChannelOk(g, row, f, h, a, r) && f == [] && a < |row| && row[a].now == g.ppb
    && forall b :: 0 <= b < |row| ==> BlockOk(g, row[b])
  }

  /** The worst block of a channel is all valid only if every used block is. */
  lemma WorstFull(g: Geo, row: seq<Block>, f: seq<nat>, h: set<nat>, a: nat, r: nat, t: nat)
    requires UsedUp(g, row, f, h, a, r) && Worst(row, h, t)
    ensures t < |row| && t != r && RowSpare(g, row, r) && |row[t].bits| <= g.ppb && row[t].now == g.ppb
    ensures RowFull(g, row, r) <==> |row[t].bits| == g.ppb
  {
    assert forall b: nat :: b < g.nos && b != r ==> b in h && row[b].now == g.ppb;
    assert forall b :: 0 <= b < |row| ==> BlockOk(g, row[b]);
    if |row[t].bits| == g.ppb {
      forall b | 0 <= b < |row| && b != r ensures |row[b].bits| == g.ppb { assert b in h; }
    }
  }

  /** Every channel has a used block without a valid page. */
  ghost predicate SpareVictim(bs: Blocks, heap: seq<set<nat>>) {
    |heap| == |bs| && forall c :: 0 <= c < |bs| ==> HasEmpty(bs[c], heap[c])
  }

  ghost predicate HasEmpty(row: seq<Block>, h: set<nat>) { exists b: nat :: EmptyIn(row, h, b) }

  ghost predicate EmptyIn(row: seq<Block>, h: set<nat>, b: nat) { b in h && b < |row| && row[b].bits == {} }

  /** The worst block of a channel has no valid page exactly when some used block has none. */
  lemma WorstEmpty(g: Geo, row: seq<Block>, f: seq<nat>, h: set<nat>, a: nat, r: nat, t: nat)
    requires UsedUp(g, row, f, h, a, r) && Worst(row, h, t)
    ensures t < |row| && (row[t].bits == {} <==> HasEmpty(row, h))
  {
    assert forall b :: 0 <= b < |row| ==> BlockOk(g, row[b]);
    assert row[t].bits == {} ==> EmptyIn(row, h, t);
    if b: nat :| EmptyIn(row, h, b) {
      assert row[b].invalid == row[b].now == g.ppb;
    }
  }

  /** A collection has nothing to move exactly when every channel has a used block without a valid page. */
  lemma NothingToMove(g: Geo, bs: Blocks, free: seq<seq<nat>>, heap: seq<set<nat>>, act: seq<nat>, k: nat,
                      res: seq<nat>, m: Mapping, t: seq<nat>)
    requires Exhausted(g, bs, free, heap, act, k, res, m) && OnDevice(g, bs, t)
    requires |heap| == g.bps && forall c :: 0 <= c < g.bps ==> Worst(bs[c], heap[c], t[c])
    ensures LiveIn(g, bs, t) == 0 <==> SpareVictim(bs, heap)
  {
    hide LiveTo, AllLive, Inverse, HasEmpty, ChannelOk;
    LiveNone(bs, t, g.bps);
    forall c | 0 <= c < g.bps ensures bs[c][t[c]].bits == {} <==> HasEmpty(bs[c], heap[c]) {
      assert ChannelOk(g, bs[c], free[c], heap[c], act[c], res[c]);
      assert forall b: nat :: b < |bs[c]| ==> In(bs, c, b);
      WorstEmpty(g, bs[c], free[c], heap[c], act[c], res[c], t[c]);
    }
    assert SpareVictim(bs, heap) <==> forall c :: 0 <= c < g.bps ==> bs[c][t[c]].bits == {};
  }

  /** When a collection starts, the victim's valid pages fit the reserve, and they fill it exactly when every
      page outside the reserve is valid. */
  lemma GcStart(g: Geo, bs: Blocks, free: seq<seq<nat>>, heap: seq<set<nat>>, act: seq<nat>, res: seq<nat>, t: seq<nat>)
    requires BlocksOk(g, bs) && Arranged(g, bs, free, heap, act, res) && |t| == g.bps && g.nos > 0
    requires forall c :: 0 <= c < g.bps ==>
      free[c] == [] && act[c] < |bs[c]| && bs[c][act[c]].now == g.ppb && Worst(bs[c], heap[c], t[c])
    ensures OnDevice(g, bs, t) && Moving(g, bs, bs, t, res, 0, LiveIn(g, bs, t))
    ensures LiveIn(g, bs, t) <= g.bps * g.ppb
    ensures LiveIn(g, bs, t) == g.bps * g.ppb <==> AllLive(bs) == g.bps * RowMax(g)
  {
    hide UsedTo, LiveTo, AllLive, RowMax, RowFull, RowSpare;
    ArrangedOnDevice(g, bs, free, heap, act, res);
    forall c | 0 <= c < g.bps
      ensures t[c] < |bs[c]| && t[c] != res[c] && |bs[c][t[c]].bits| <= g.ppb
      ensures RowSpare(g, bs[c], res[c]) && (RowFull(g, bs[c], res[c]) <==> |bs[c][t[c]].bits| == g.ppb)
    {
      assert ChannelOk(g, bs[c], free[c], heap[c], act[c], res[c]);
      assert forall b: nat :: b < |bs[c]| ==> In(bs, c, b);
      WorstFull(g, bs[c], free[c], heap[c], act[c], res[c], t[c]);
    }
    LiveBound(g, bs, t, g.bps);
    Capacity(g, bs, res);
  }

  /** The channels after the victim is erased and becomes the new reserve, the old reserve the active block. */
  lemma GcChannel(g: Geo, row0: seq<Block>, row: seq<Block>, f: seq<nat>, h: set<nat>, a: nat, r: nat, t: nat,
                  f': seq<nat>)
    requires UsedUp(g, row0, f, h, a, r) && t in h && |row| == g.nos && [] + [t] == [t] + f'
    requires row[t] == Erased(g) && forall b :: 0 <= b < |row| && b != t && b != r ==> row[b] == row0[b]
    ensures ChannelOk(g, row, f', h - {t} + {r}, r, t)
  {
    assert f' == [];
    assert forall b: nat :: b < g.nos && b != r ==> b in h && row0[b].now == g.ppb;
  }

  lemma GcEnd(g: Geo, bs0: Blocks, bs: Blocks, bs': Blocks, free: seq<seq<nat>>, heap: seq<set<nat>>, act: seq<nat>,
              res: seq<nat>, t: seq<nat>, k: nat, total: nat, free': seq<seq<nat>>, heap': seq<set<nat>>)
    requires BlocksOk(g, bs0) && Arranged(g, bs0, free, heap, act, res) && |t| == |free'| == |heap'| == g.bps
    requires forall c :: 0 <= c < g.bps ==>
      free[c] == [] && act[c] < |bs0[c]| && bs0[c][act[c]].now == g.ppb && t[c] in heap[c]
    requires Moving(g, bs0, bs, t, res, k, total) && Trimmed(g, bs, bs', t)
    requires forall c :: 0 <= c < g.bps ==> [] + [t[c]] == [t[c]] + free'[c] && heap'[c] == heap[c] - {t[c]} + {res[c]}
    ensures Arranged(g, bs', free', heap', res, t)
    ensures SegOk(g, bs', res, k) && Used(g, bs', res) == Used(g, bs, res)
  {
    hide UsedTo, LiveTo;
    forall c | 0 <= c < g.bps ensures ChannelOk(g, bs'[c], free'[c], heap'[c], res[c], t[c]) {
      assert ChannelOk(g, bs0[c], free[c], heap[c], act[c], res[c]);
      assert forall b: nat :: b < g.nos ==> In(bs, c, b) && In(bs0, c, b);
      GcChannel(g, bs0[c], bs'[c], free[c], heap[c], act[c], res[c], t[c], free'[c]);
    }
    assert forall c: nat :: c < g.bps ==> In(bs, c, res[c]) && bs'[c][res[c]] == bs[c][res[c]];
    UsedIs(g, bs, res, k, g.bps);
    UsedIs(g, bs', res, k, g.bps);
  }

  // ---------------------------------------------------------------- between operations

  /** The state of the FTL apart from page contents. */
  ghost predicate Good(g: Geo, bs: Blocks, free: seq<seq<nat>>, heap: seq<set<nat>>, act: seq<nat>, k: nat,
                       res: seq<nat>, m: Mapping) {
    && BlocksOk(g, bs) && Arranged(g, bs, free, heap, act, res) && SegOk(g, bs, act, k)
    && Inverse(g, bs, m) && AllLive(bs) == |m|
  }

  lemma SegStill(g: Geo, bs: Blocks, bs': Blocks, seg: seq<nat>, k: nat)
    requires SegOk(g, bs, seg, k) && Shape(g, bs) && Shape(g, bs')
    requires forall c: nat :: c < g.bps && In(bs, c, seg[c]) ==> bs'[c][seg[c]].now == bs[c][seg[c]].now
    ensures SegOk(g, bs', seg, k) && Used(g, bs', seg) == Used(g, bs, seg)
  {
    assert forall c: nat :: c < g.bps ==> In(bs, c, seg[c]);
    UsedIs(g, bs, seg, k, g.bps);
    UsedIs(g, bs', seg, k, g.bps);
  }

  /** Dropping the old page of a logical address. */
  lemma GoodInvalidated(g: Geo, bs: Blocks, free: seq<seq<nat>>, heap: seq<set<nat>>, act: seq<nat>, k: nat,
                        res: seq<nat>, m: Mapping, l: nat)
    requires Good(g, bs, free, heap, act, k, res, m) && l in m
    ensures Good(g, Invalidated(bs, m[l]), free, heap, act, k, res, m - {l})
    ensures Used(g, Invalidated(bs, m[l]), act) == Used(g, bs, act)
  {
    hide UsedTo, AllLive, Arranged;
    var a := m[l];
    var bs' := Invalidated(bs, a);
    var x := Clear(bs[a.ch][a.blk], a.pg);
    InvalidatedOk(g, bs, a);
    ClearOk(g, bs[a.ch][a.blk], a.pg);
    AllLivePut(bs, a.ch, a.blk, x);
    PutAt(g, bs, a.ch, a.blk, x);
    ArrangedSizes(g, bs, free, heap, act, res);
    ArrangedStill(g, bs, bs', free, heap, act, res);
    SegStill(g, bs, bs', act, k);
    InverseWithout(g, bs, bs', m, l);
  }

  lemma ArrangedSizes(g: Geo, bs: Blocks, free: seq<seq<nat>>, heap: seq<set<nat>>, act: seq<nat>, res: seq<nat>)
    requires Arranged(g, bs, free, heap, act, res)
    ensures |bs| == |free| == |heap| == |act| == |res| == g.bps > 0
  {
  }

  lemma InverseWithout(g: Geo, bs: Blocks, bs': Blocks, m: Mapping, l: nat)
    requires BlocksOk(g, bs) && BlocksOk(g, bs') && Inverse(g, bs, m) && l in m
    requires forall x :: Live(bs', x) <==> Live(bs, x) && x != m[l]
    requires forall x :: Live(bs, x) ==> Back(bs', x) == Back(bs, x)
    ensures Inverse(g, bs', m - {l}) && |m - {l}| == |m| - 1
  {
    assert m.Keys == (m - {l}).Keys + {l};
  }

  /** Writing a logical address that has no page into the active segment. */
  lemma GoodFilled(g: Geo, bs: Blocks, free: seq<seq<nat>>, heap: seq<set<nat>>, act: seq<nat>, k: nat, res: seq<nat>,
                   m: Mapping, l: nat, k': nat, bs': Blocks)
    requires Good(g, bs, free, heap, act, k, res, m) && l !in m && Row(bs, act) < g.ppb
    requires bs[k][act[k]].now < |bs[k][act[k]].oob| && bs' == Filled(bs, k, act[k], l)
    requires k' == if k + 1 == g.bps then 0 else k + 1
    ensures Good(g, bs', free, heap, act, k', res, m[l := Head(bs, k, act[k])])
    ensures forall j :: j in m ==> m[j] != Head(bs, k, act[k])
  {
    hide UsedTo, AllLive, Arranged, Inverse;
    assert bs[k][act[k]].now == Row(bs, act);
    FilledOk(g, bs, k, act[k], l);
    MovedInverse(g, bs, m, l, k, act[k]);
    MovedCount(g, bs, m, l, k, act[k]);
    ArrangedSizes(g, bs, free, heap, act, res);
    ArrangedMoved(g, bs, m, l, k, free, heap, act, res);
    Issue(g, bs, act, k, Fill(bs[k][act[k]], l));
  }

  /** Taking a new active segment when the old one is full. */
  lemma GoodNext(g: Geo, bs: Blocks, free: seq<seq<nat>>, heap: seq<set<nat>>, act: seq<nat>, k: nat, res: seq<nat>,
                 m: Mapping, free': seq<seq<nat>>, heap': seq<set<nat>>, act': seq<nat>)
    requires Good(g, bs, free, heap, act, k, res, m) && Row(bs, act) == g.ppb
    requires |free'| == |heap'| == |act'| == g.bps
    requires forall c :: 0 <= c < g.bps ==> free[c] == [act'[c]] + free'[c] && heap'[c] == heap[c] + {act'[c]}
    ensures Good(g, bs, free', heap', act', 0, res, m) && Row(bs, act') == 0 && Used(g, bs, act') == 0
  {
    hide AllLive, Inverse, Arranged, UsedTo, BlocksOk;
    ArrangedSizes(g, bs, free, heap, act, res);
    ArrangedNext(g, bs, free, heap, act, res, free', heap', act');
    UsedIs(g, bs, act', 0, g.bps);
  }

  /** Updates of different blocks commute. */
  lemma PutSwap(bs: Blocks, c: nat, b: nat, x: Block, d: nat, e: nat, y: Block)
    requires In(bs, c, b) && In(bs, d, e) && (c != d || b != e)
    ensures In(Put(bs, c, b, x), d, e) && In(Put(bs, d, e, y), c, b)
    ensures Put(Put(bs, c, b, x), d, e, y) == Put(Put(bs, d, e, y), c, b, x)
  {
    if c == d { assert bs[c][b := x][e := y] == bs[c][e := y][b := x]; }
  }

  /** Issuing, invalidating and marking, in the order of page_map_gc_update, is a shift of the page. */
  lemma ShiftComposed(g: Geo, bs: Blocks, bs1: Blocks, seg: seq<nat>, k: nat, k': nat, a: Addr, x: Addr)
    requires BlocksOk(g, bs) && Live(bs, x) && Issued(g, bs, bs1, seg, k, k', a) && x.ch < |seg| && x.blk != seg[x.ch]
    ensures In(bs1, x.ch, x.blk) && bs1[x.ch][x.blk] == bs[x.ch][x.blk] && In(bs, k, seg[k])
    ensures bs[k][seg[k]].now < |bs[k][seg[k]].oob| && x.pg < |bs[x.ch][x.blk].oob|
    ensures var bs2 := Invalidated(bs1, x);
            && In(bs2, a.ch, a.blk) && a.pg < |bs2[a.ch][a.blk].oob|
            && Put(bs2, a.ch, a.blk, Marked(bs2[a.ch][a.blk], a.pg, Back(bs, x))) == Shifted(bs, x, k, seg[k])
  {
    var b := seg[k];
    assert In(bs, k, b) && BlockOk(g, bs[k][b]) && BlockOk(g, bs[x.ch][x.blk]);
    var i := bs[k][b].(now := a.pg + 1);
    var y := Clear(bs[x.ch][x.blk], x.pg);
    PutAt(g, bs, k, b, i);
    PutSwap(bs, k, b, i, x.ch, x.blk, y);
    var z := Marked(i, a.pg, Back(bs, x));
    var bs' := Put(bs, x.ch, x.blk, y);
    PutAt(g, bs, x.ch, x.blk, y);
    PutPut(bs', k, b, i, z);
  }

  lemma InverseAt(g: Geo, bs: Blocks, m: Mapping, x: Addr, c: nat, b: nat)
    requires BlocksOk(g, bs) && Inverse(g, bs, m) && Live(bs, x) && In(bs, c, b)
    ensures x.pg < |bs[x.ch][x.blk].oob| && Back(bs, x) in m && m[Back(bs, x)] == x && |bs[c][b].oob| == g.ppb
  {
  }

  /** With the store of the new address, a shift keeps mapping, spare area and contents together. */
  lemma ShiftStored(g: Geo, bs: Blocks, m: Mapping, flash: Flash, data: map<nat, Data>, x: Addr, c: nat, b: nat)
    requires BlocksOk(g, bs) && Inverse(g, bs, m) && Kept(m, flash, data) && Live(bs, x)
    requires In(bs, c, b) && bs[c][b].now < g.ppb
    ensures var l := Back(bs, x); var m' := m[l := Head(bs, c, b)]; var bs' := Shifted(bs, x, c, b);
            && l in m && m[l] == x && BlocksOk(g, bs') && Inverse(g, bs', m') && |m'| == |m|
            && AllLive(bs') == AllLive(bs) && Kept(m', flash[Head(bs, c, b) := flash[x]], data)
  {
    hide AllLive, Filled, Invalidated, BlocksOk, Inverse;
    InverseAt(g, bs, m, x, c, b);
    var l := Back(bs, x);
    MovedInverse(g, bs, m, l, c, b);
    MovedCount(g, bs, m, l, c, b);
    assert m[l := Head(bs, c, b)].Keys == m.Keys;
  }

  /** Without it the number of valid pages still stays the same. */
  lemma ShiftCount(g: Geo, bs: Blocks, x: Addr, c: nat, b: nat)
    requires BlocksOk(g, bs) && Live(bs, x) && In(bs, c, b) && bs[c][b].now < g.ppb
    ensures AllLive(Shifted(bs, x, c, b)) == AllLive(bs)
  {
    hide AllLive;
    var y := Clear(bs[x.ch][x.blk], x.pg);
    InvalidatedOk(g, bs, x);
    ClearOk(g, bs[x.ch][x.blk], x.pg);
    AllLivePut(bs, x.ch, x.blk, y);
    var bs1 := Invalidated(bs, x);
    assert Head(bs1, c, b) == Head(bs, c, b);
    FillOk(g, bs1[c][b], Back(bs, x));
    AllLivePut(bs1, c, b, Fill(bs1[c][b], Back(bs, x)));
  }

  lemma ShiftPending(g: Geo, bs: Blocks, t: seq<nat>, pending: set<Addr>, x: Addr, c: nat, b: nat)
    requires BlocksOk(g, bs) && Live(bs, x) && In(bs, c, b) && bs[c][b].now < g.ppb && c < |t| && b != t[c]
    requires Pending(bs, t, pending) && x in pending
    ensures Pending(Shifted(bs, x, c, b), t, pending - {x})
  {
    hide Put, Clear, Fill, Filled, Invalidated, Shape;
    InvalidatedOk(g, bs, x);
    assert Head(Invalidated(bs, x), c, b) == Head(bs, c, b);
    FilledOk(g, Invalidated(bs, x), c, b, Back(bs, x));
  }

  lemma MovingHead(g: Geo, bs0: Blocks, bs: Blocks, t: seq<nat>, res: seq<nat>, k: nat, total: nat)
    requires Moving(g, bs0, bs, t, res, k, total) && Row(bs, res) < g.ppb
    ensures k < g.bps == |res| == |t| && In(bs, k, res[k]) && bs[k][res[k]].now < g.ppb && res[k] != t[k]
    ensures BlocksOk(g, bs)
    ensures |bs[k][res[k]].oob| == g.ppb
  {
  }

  lemma SameTrans(a: Blocks, fa: Flash, b: Blocks, fb: Flash, c: Blocks, fc: Flash)
    requires SameContents(a, fa, b, fb) && SameContents(b, fb, c, fc)
    ensures SameContents(a, fa, c, fc)
  {
    hide Holds;
  }

  /** Midway through do_gc; bs0, flash0 and m0 are as it began and t is the victim.  With `store` the address
      page_map_gc_update returns is also written to the mapping, which the code leaves out. */
  ghost predicate Gathering(g: Geo, store: bool, bs0: Blocks, flash0: Flash, m0: Mapping, t: seq<nat>, total: nat,
                            data: map<nat, Data>, bs: Blocks, res: seq<nat>, k: nat, m: Mapping, flash: Flash)
  {
    && Moving(g, bs0, bs, t, res, k, total) && total <= g.bps * g.ppb
    && Written(bs, flash) && SameContents(bs0, flash0, bs, flash) && AllLive(bs) == AllLive(bs0) == |m|
    && (if store then Inverse(g, bs, m) && Kept(m, flash, data) else m == m0)
  }

  /** Moving one more page. */
  lemma GatherStep(g: Geo, store: bool, bs0: Blocks, flash0: Flash, m0: Mapping, t: seq<nat>, total: nat,
                   data: map<nat, Data>, bs: Blocks, res: seq<nat>, k: nat, m: Mapping, flash: Flash,
                   pending: set<Addr>, x: Addr)
    requires Gathering(g, store, bs0, flash0, m0, t, total, data, bs, res, k, m, flash)
    requires Pending(bs, t, pending) && x in pending && |t| == g.bps
    ensures Live(bs, x) && x.ch < |res| == g.bps && x.blk != res[x.ch] && x.pg < |bs[x.ch][x.blk].oob| && x in flash
    ensures BlocksOk(g, bs) && SegOk(g, bs, res, k) && Used(g, bs, res) < g.bps * g.ppb
    ensures k < |res| && In(bs, k, res[k]) && bs[k][res[k]].now < |bs[k][res[k]].oob|
    ensures var d := Head(bs, k, res[k]); var bs' := Shifted(bs, x, k, res[k]);
            Pending(bs', t, pending - {x}) &&
            Gathering(g, store, bs0, flash0, m0, t, total, data, bs', res, if k + 1 == g.bps then 0 else k + 1,
                      if store then m[Back(bs, x) := d] else m, flash[d := flash[x]])
  {
    hide AllLive, UsedTo, LiveTo, SameContents, Inverse, Kept, Written, BlockOk, Untouched, Shifted;
    RoomLeft(g, bs0, bs, t, res, k, total, x);
    ShiftStep(g, bs0, bs, t, res, k, total, x);
    MovingHead(g, bs0, bs, t, res, k, total);
    ShiftedOk(g, bs, flash, x, k, res[k]);
    ShiftCount(g, bs, x, k, res[k]);
    ShiftPending(g, bs, t, pending, x, k, res[k]);
    if store { ShiftStored(g, bs, m, flash, data, x, k, res[k]); }
    var d := Head(bs, k, res[k]);
    SameTrans(bs0, flash0, bs, flash, Shifted(bs, x, k, res[k]), flash[d := flash[x]]);
  }

  /** The state of the FTL when do_gc is called. */
  ghost predicate Exhausted(g: Geo, bs: Blocks, free: seq<seq<nat>>, heap: seq<set<nat>>, act: seq<nat>, k: nat,
                            res: seq<nat>, m: Mapping) {
    && Good(g, bs, free, heap, act, k, res, m) && Row(bs, act) == g.ppb && g.nos > 0
    && forall c :: 0 <= c < g.bps ==> free[c] == []
  }

  lemma HeapsUsable(g: Geo, bs: Blocks, free: seq<seq<nat>>, heap: seq<set<nat>>, act: seq<nat>, res: seq<nat>)
    requires Arranged(g, bs, free, heap, act, res)
    ensures |heap| == g.bps && forall c :: 0 <= c < g.bps ==> heap[c] != {} && forall b :: b in heap[c] ==> b < g.nos
  {
    forall c | 0 <= c < g.bps ensures heap[c] != {} && forall b :: b in heap[c] ==> b < g.nos {
      assert ChannelOk(g, bs[c], free[c], heap[c], act[c], res[c]);
    }
  }

  /** Everything needed to start moving pages out of victim t. */
  lemma GatherStart(g: Geo, store: bool, bs: Blocks, free: seq<seq<nat>>, heap: seq<set<nat>>, act: seq<nat>, k: nat,
                    res: seq<nat>, m: Mapping, flash: Flash, data: map<nat, Data>, t: seq<nat>)
    requires Exhausted(g, bs, free, heap, act, k, res, m) && Kept(m, flash, data) && |t| == g.bps
    requires forall c :: 0 <= c < g.bps ==> Worst(bs[c], heap[c], t[c])
    ensures OnDevice(g, bs, t) && Gathering(g, store, bs, flash, m, t, LiveIn(g, bs, t), data, bs, res, 0, m, flash)
    ensures LiveIn(g, bs, t) == g.bps * g.ppb <==> |m| == g.bps * RowMax(g)
  {
    hide AllLive, UsedTo, LiveTo, RowMax, Arranged, BlocksOk, Inverse, Written, Moving, Holds, Kept;
    ArrangedSizes(g, bs, free, heap, act, res);
    GcStart(g, bs, free, heap, act, res, t);
    AllWritten(g, bs, m, flash, data);
  }

  lemma AllWritten(g: Geo, bs: Blocks, m: Mapping, flash: Flash, data: map<nat, Data>)
    requires BlocksOk(g, bs) && Inverse(g, bs, m) && Kept(m, flash, data)
    ensures Written(bs, flash)
  {
    forall x | Live(bs, x) ensures x in flash { assert m[Back(bs, x)] == x; }
  }

  /** A victim with a valid page is not trimmed without losing the mapping, unless the store is made. */
  lemma LostWithoutStore(g: Geo, bs: Blocks, m: Mapping, t: seq<nat>, bs': Blocks)
    requires BlocksOk(g, bs) && Inverse(g, bs, m) && OnDevice(g, bs, t) && LiveIn(g, bs, t) > 0
    requires BlocksOk(g, bs') && forall c :: 0 <= c < g.bps ==> t[c] < |bs'[c]| && bs'[c][t[c]] == Erased(g)
    ensures !Inverse(g, bs', m)
  {
    LiveNone(bs, t, g.bps);
    var c :| 0 <= c < g.bps && bs[c][t[c]].bits != {};
    var p :| p in bs[c][t[c]].bits;
    var a := Addr(c, t[c], p);
    assert Live(bs, a) && m[Back(bs, a)] == a && !Live(bs', a);
  }

  lemma NothingPending(g: Geo, bs: Blocks, t: seq<nat>)
    requires OnDevice(g, bs, t) && Pending(bs, t, {})
    ensures LiveIn(g, bs, t) == 0
  {
    forall c | 0 <= c < g.bps ensures bs[c][t[c]].bits == {} {
      if bs[c][t[c]].bits != {} {
        var p :| p in bs[c][t[c]].bits;
        assert Live(bs, Addr(c, t[c], p));
      }
    }
    LiveNone(bs, t, g.bps);
  }

  /** The state after a collection, with the mapping aside. */
  ghost predicate Collected(g: Geo, bs: Blocks, free: seq<seq<nat>>, heap: seq<set<nat>>, act: seq<nat>, k: nat,
                            res: seq<nat>) {
    BlocksOk(g, bs) && Arranged(g, bs, free, heap, act, res) && SegOk(g, bs, act, k)
  }

  /** A collection that found no valid page changed nothing. */
  lemma NothingMoved(g: Geo, bs0: Blocks, bs: Blocks, t: seq<nat>, res: seq<nat>, k: nat, m: Mapping, flash: Flash)
    requires BlocksOk(g, bs0) && Moving(g, bs0, bs, t, res, k, 0) && OnDevice(g, bs0, t) && LiveIn(g, bs0, t) == 0
    requires OnDevice(g, bs0, res) && Used(g, bs0, res) == 0 && SegOk(g, bs0, res, 0) && Inverse(g, bs0, m)
    ensures Inverse(g, bs, m)
  {
    LiveNone(bs, t, g.bps);
    LiveNone(bs0, t, g.bps);
    UsedIs(g, bs, res, k, g.bps);
    UsedIs(g, bs0, res, 0, g.bps);
    RowZero(g.bps, Row(bs, res));
    RowZero(g.bps, Row(bs0, res));
    hide UsedTo, LiveTo, Inverse;
    forall c: nat, b: nat | In(bs, c, b)
      ensures bs[c][b].bits == bs0[c][b].bits && (bs[c][b].bits == {} || bs[c][b] == bs0[c][b])
    {
      assert In(bs0, c, b) && BlockOk(g, bs[c][b]) && BlockOk(g, bs0[c][b]);
    }
    LiveSame(g, bs0, bs, m, flash);
  }

  lemma RowZero(n: nat, r: nat)
    requires n > 0 && n * r == 0
    ensures r == 0
  {
  }

  /** What holds once the emptied victim t has been trimmed and become the reserve. */
  lemma GatherEnd(g: Geo, store: bool, bs0: Blocks, free: seq<seq<nat>>, heap: seq<set<nat>>, act: seq<nat>, k0: nat,
                  res: seq<nat>, m0: Mapping, flash0: Flash, data: map<nat, Data>, t: seq<nat>, total: nat, bs: Blocks,
                  k: nat, m: Mapping, flash: Flash, bs': Blocks, free': seq<seq<nat>>, heap': seq<set<nat>>)
    requires Exhausted(g, bs0, free, heap, act, k0, res, m0) && |t| == |free'| == |heap'| == g.bps == |bs|
    requires OnDevice(g, bs0, t) && total == LiveIn(g, bs0, t)
    requires Gathering(g, store, bs0, flash0, m0, t, total, data, bs, res, k, m, flash) && Pending(bs, t, {})
    requires Trimmed(g, bs, bs', t) && forall c :: 0 <= c < g.bps ==> t[c] in heap[c]
    requires forall c :: 0 <= c < g.bps ==> [] + [t[c]] == [t[c]] + free'[c] && heap'[c] == heap[c] - {t[c]} + {res[c]}
    ensures Collected(g, bs', free', heap', res, k, t) && Used(g, bs', res) == total
    ensures SameContents(bs0, flash0, bs', flash) && AllLive(bs') == |m|
    ensures if store then Inverse(g, bs', m) && Kept(m, flash, data)
            else m == m0 && (Inverse(g, bs', m) <==> total == 0)
  {
    hide AllLive, UsedTo, LiveTo, Arranged, BlockOk, Inverse, SameContents, Kept, Written, Holds;
    NothingPending(g, bs, t);
    ArrangedSizes(g, bs0, free, heap, act, res);
    GcEnd(g, bs0, bs, bs', free, heap, act, res, t, k, total, free', heap');
    TrimOk(g, bs, bs', t, m, flash);
    SameTrans(bs0, flash0, bs, flash, bs', flash);
    if !store {
      if total > 0 {
        assert forall c: nat :: c < g.bps ==> In(bs, c, t[c]) && bs'[c][t[c]] == Erased(g);
        LostWithoutStore(g, bs0, m0, t, bs');
      } else {
        ArrangedOnDevice(g, bs0, free, heap, act, res);
        NothingMoved(g, bs0, bs, t, res, k, m0, flash);
      }
    }
  }
}

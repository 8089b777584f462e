/**
 Segments of one block per channel, issued page by page round robin, and counts of pages over blocks,
 channels and segments.
 */
module FlashSegments {
  import opened Arithmetic
  import opened FlashBlocks

  // ---------------------------------------------------------------- valid pages in all

  ghost function RowLive(row: seq<Block>): nat {
    if row == [] then 0 else RowLive(row[..|row| - 1]) + |row[|row| - 1].bits|
  }

  ghost function AllLive(bs: Blocks): nat {
    if bs == [] then 0 else AllLive(bs[..|bs| - 1]) + RowLive(bs[|bs| - 1])
  }

  lemma {:induction false} RowLivePut(row: seq<Block>, b: nat, x: Block)
    requires b < |row|
    ensures RowLive(row[b := x]) == RowLive(row) - |row[b].bits| + |x.bits|
    decreases |row|
  {
    var n := |row| - 1;
    if b < n {
      RowLivePut(row[..n], b, x);
      assert row[b := x][..n] == row[..n][b := x];
    } else {
      assert row[b := x][..n] == row[..n];
    }
  }

  lemma {:induction false} AllLivePut(bs: Blocks, c: nat, b: nat, x: Block)
    requires In(bs, c, b)
    ensures AllLive(Put(bs, c, b, x)) == AllLive(bs) - |bs[c][b].bits| + |x.bits|
    decreases |bs|
  {
    var n := |bs| - 1;
    RowLivePut(bs[c], b, x);
    if c < n {
      AllLivePut(bs[..n], c, b, x);
      assert Put(bs, c, b, x)[..n] == Put(bs[..n], c, b, x);
    } else {
      assert Put(bs, c, b, x)[..n] == bs[..n];
    }
  }

  /** A write of a new logical page adds one valid page; any other move keeps their number. */
  lemma MovedCount(g: Geo, bs: Blocks, m: Mapping, l: nat, c: nat, b: nat)
    requires BlocksOk(g, bs) && Inverse(g, bs, m) && In(bs, c, b) && bs[c][b].now < g.ppb
    ensures AllLive(Moved(bs, m, l, c, b)) == AllLive(bs) + if l in m then 0 else 1
  {
    hide AllLive;
    var bs1 := if l in m then Invalidated(bs, m[l]) else bs;
    if l in m {
      InvalidatedOk(g, bs, m[l]);
      ClearOk(g, bs[m[l].ch][m[l].blk], m[l].pg);
      AllLivePut(bs, m[l].ch, m[l].blk, Clear(bs[m[l].ch][m[l].blk], m[l].pg));
    }
    assert Head(bs1, c, b) == Head(bs, c, b);
    FillOk(g, bs1[c][b], l);
    AllLivePut(bs1, c, b, Fill(bs1[c][b], l));
  }

  lemma {:induction false} RowBound(g: Geo, row: seq<Block>, r: nat)
    requires forall b :: 0 <= b < |row| ==> |row[b].bits| <= g.ppb
    requires r < |row| ==> row[r].bits == {}
    ensures var k := if r < |row| then |row| - 1 else |row|;
            RowLive(row) <= k * g.ppb &&
            (RowLive(row) == k * g.ppb <==> forall b :: 0 <= b < |row| && b != r ==> |row[b].bits| == g.ppb)
    decreases |row|
  {
    if row != [] {
      var n := |row| - 1;
      RowBound(g, row[..n], r);
      var k := if r < n then n - 1 else n;
      assert (k + 1) * g.ppb == k * g.ppb + g.ppb;
      assert forall b :: 0 <= b < n ==> row[..n][b] == row[b];
    }
  }

  /** A channel with one block set aside empty. */
  ghost predicate RowSpare(g: Geo, row: seq<Block>, r: nat) {
    |row| == g.nos && r < |row| && row[r].bits == {} && forall b :: 0 <= b < |row| ==> |row[b].bits| <= g.ppb
  }

  /** Every page outside the spare block is valid. */
  ghost predicate RowFull(g: Geo, row: seq<Block>, r: nat) {
    forall b :: 0 <= b < |row| && b != r ==> |row[b].bits| == g.ppb
  }

  ghost function RowMax(g: Geo): nat
    requires g.nos > 0
  {
    (g.nos - 1) * g.ppb
  }

  lemma RowCapacity(g: Geo, row: seq<Block>, r: nat)
    requires RowSpare(g, row, r) && g.nos > 0
    ensures RowLive(row) <= RowMax(g) && (RowLive(row) == RowMax(g) <==> RowFull(g, row, r))
  {
    RowBound(g, row, r);
  }

  /** With one empty block per channel, the device is full exactly when every other page is valid. */
  lemma {:induction false} Capacity(g: Geo, bs: Blocks, res: seq<nat>)
    requires |res| == |bs| && g.nos > 0 && forall c :: 0 <= c < |bs| ==> RowSpare(g, bs[c], res[c])
    ensures AllLive(bs) <= |bs| * RowMax(g)
    ensures AllLive(bs) == |bs| * RowMax(g) <==> forall c :: 0 <= c < |bs| ==> RowFull(g, bs[c], res[c])
    decreases |bs|
  {
    hide RowSpare, RowFull, RowMax;
    if bs != [] {
      var n := |bs| - 1;
      Capacity(g, bs[..n], res[..n]);
      RowCapacity(g, bs[n], res[n]);
      assert (n + 1) * RowMax(g) == n * RowMax(g) + RowMax(g);
    }
  }

  // ---------------------------------------------------------------- round-robin issue

  /** seg[c] is the block of channel c. */
  ghost predicate OnDevice(g: Geo, bs: Blocks, seg: seq<nat>) {
    |seg| == |bs| == g.bps > 0 && forall c :: 0 <= c < |seg| ==> seg[c] < |bs[c]|
  }

  ghost function Row(bs: Blocks, seg: seq<nat>): nat
    requires 0 < |seg| == |bs| && seg[|seg| - 1] < |bs[|seg| - 1]|
  {
    bs[|seg| - 1][seg[|seg| - 1]].now
  }

  /** The next page comes from channel k; the channels before it are one page ahead. */
  ghost predicate SegOk(g: Geo, bs: Blocks, seg: seq<nat>, k: nat) {
    && OnDevice(g, bs, seg) && k < g.bps && Row(bs, seg) <= g.ppb && (Row(bs, seg) == g.ppb ==> k == 0)
    && forall c :: 0 <= c < |seg| ==> bs[c][seg[c]].now == Row(bs, seg) + if c < k then 1 else 0
  }

  /** Pages issued from the first n blocks of a segment. */
  ghost function UsedTo(bs: Blocks, seg: seq<nat>, n: nat): nat
    requires n <= |seg| == |bs| && forall c :: 0 <= c < |seg| ==> seg[c] < |bs[c]|
  {
    if n == 0 then 0 else UsedTo(bs, seg, n - 1) + bs[n - 1][seg[n - 1]].now
  }

  ghost function Used(g: Geo, bs: Blocks, seg: seq<nat>): nat
    requires OnDevice(g, bs, seg)
  {
    UsedTo(bs, seg, g.bps)
  }

  lemma {:induction false} UsedIs(g: Geo, bs: Blocks, seg: seq<nat>, k: nat, n: nat)
    requires SegOk(g, bs, seg, k) && n <= g.bps
    ensures UsedTo(bs, seg, n) == n * Row(bs, seg) + if n < k then n else k
    decreases n
  {
    if n > 0 {
      UsedIs(g, bs, seg, k, n - 1);
      assert n * Row(bs, seg) == (n - 1) * Row(bs, seg) + Row(bs, seg);
    }
  }

  /** The u-th address a segment issues. */
  ghost function IssueAt(g: Geo, seg: seq<nat>, u: nat): Addr
    requires |seg| == g.bps > 0
  {
    Addr(u % g.bps, seg[u % g.bps], u / g.bps)
  }

  /** What the cursors of a segment say about the pages issued so far. */
  lemma IssuePosition(g: Geo, bs: Blocks, seg: seq<nat>, k: nat)
    requires SegOk(g, bs, seg, k)
    ensures var u := Used(g, bs, seg);
            && IssueAt(g, seg, u) == Addr(k, seg[k], Row(bs, seg)) == Head(bs, k, seg[k])
            && u <= g.bps * g.ppb && (u == g.bps * g.ppb <==> Row(bs, seg) == g.ppb)
  {
    UsedIs(g, bs, seg, k, g.bps);
    var r := Row(bs, seg);
    DivMod(g.bps, r, k);
    if r < g.ppb { MulLe(g.bps, r, g.ppb); }
  }

  /** A segment issues each of its addresses at exactly one position. */
  lemma IssuedOnce(g: Geo, seg: seq<nat>, u: nat, w: nat)
    requires |seg| == g.bps > 0 && IssueAt(g, seg, u) == IssueAt(g, seg, w)
    ensures u == w
  {
    assert u == g.bps * (u / g.bps) + u % g.bps;
  }

  lemma EveryPageIssued(g: Geo, seg: seq<nat>, c: nat, p: nat)
    requires |seg| == g.bps && c < g.bps && p < g.ppb
    ensures g.bps * p + c < g.bps * g.ppb && IssueAt(g, seg, g.bps * p + c) == Addr(c, seg[c], p)
  {
    DivMod(g.bps, p, c);
    MulLe(g.bps, p, g.ppb);
  }

  lemma {:induction false} UsedPut(bs: Blocks, seg: seq<nat>, c: nat, b: nat, x: Block, n: nat)
    requires n <= |seg| == |bs| && In(bs, c, b) && forall c :: 0 <= c < |seg| ==> seg[c] < |bs[c]|
    ensures UsedTo(Put(bs, c, b, x), seg, n) ==
            UsedTo(bs, seg, n) + if c < n && seg[c] == b then x.now - bs[c][b].now else 0
    decreases n
  {
    if n > 0 { UsedPut(bs, seg, c, b, x, n - 1); }
  }

  /** Issuing a page moves the cursors on and the count up by one. */
  lemma Issue(g: Geo, bs: Blocks, seg: seq<nat>, k: nat, x: Block)
    requires SegOk(g, bs, seg, k) && Row(bs, seg) < g.ppb && Shape(g, bs)
    requires x.now == bs[k][seg[k]].now + 1
    ensures var bs' := Put(bs, k, seg[k], x);
            SegOk(g, bs', seg, if k + 1 == g.bps then 0 else k + 1) && Used(g, bs', seg) == Used(g, bs, seg) + 1
  {
    hide UsedTo;
    PutAt(g, bs, k, seg[k], x);
    UsedPut(bs, seg, k, seg[k], x, g.bps);
  }

  // ---------------------------------------------------------------- valid pages of a victim

  ghost function LiveTo(bs: Blocks, seg: seq<nat>, n: nat): nat
    requires n <= |seg| == |bs| && forall c :: 0 <= c < |seg| ==> seg[c] < |bs[c]|
  {
    if n == 0 then 0 else LiveTo(bs, seg, n - 1) + |bs[n - 1][seg[n - 1]].bits|
  }

  ghost function LiveIn(g: Geo, bs: Blocks, seg: seq<nat>): nat
    requires OnDevice(g, bs, seg)
  {
    LiveTo(bs, seg, g.bps)
  }

  lemma {:induction false} LivePut(bs: Blocks, seg: seq<nat>, c: nat, b: nat, x: Block, n: nat)
    requires n <= |seg| == |bs| && In(bs, c, b) && forall c :: 0 <= c < |seg| ==> seg[c] < |bs[c]|
    ensures LiveTo(Put(bs, c, b, x), seg, n) ==
            LiveTo(bs, seg, n) + if c < n && seg[c] == b then |x.bits| - |bs[c][b].bits| else 0
    decreases n
  {
    if n > 0 { LivePut(bs, seg, c, b, x, n - 1); }
  }

  lemma {:induction false} LiveNone(bs: Blocks, seg: seq<nat>, n: nat)
    requires n <= |seg| == |bs| && forall c :: 0 <= c < |seg| ==> seg[c] < |bs[c]|
    ensures LiveTo(bs, seg, n) == 0 <==> forall c :: 0 <= c < n ==> bs[c][seg[c]].bits == {}
    decreases n
  {
    if n > 0 { LiveNone(bs, seg, n - 1); }
  }

  /** A victim of full blocks holds at most a segment of valid pages, and all of it when nothing is invalid. */
  lemma {:induction false} LiveBound(g: Geo, bs: Blocks, seg: seq<nat>, n: nat)
    requires n <= |seg| == |bs| && forall c :: 0 <= c < |seg| ==> seg[c] < |bs[c]|
    requires forall c :: 0 <= c < n ==> |bs[c][seg[c]].bits| <= g.ppb
    ensures LiveTo(bs, seg, n) <= n * g.ppb
    ensures LiveTo(bs, seg, n) == n * g.ppb <==> forall c :: 0 <= c < n ==> |bs[c][seg[c]].bits| == g.ppb
    decreases n
  {
    if n > 0 {
      LiveBound(g, bs, seg, n - 1);
      assert n * g.ppb == (n - 1) * g.ppb + g.ppb;
    }
  }
}

/**
 The translation pages of DFTL: blocks they are written to, the allocation cursor, the reserved block,
 and the agreement between CMT addresses, valid bits and spare area.
 */
module DftlTrans {
  import opened Sequences
  import opened FlashBlocks
  import opened BlockManager
  import opened DftlState

  /** The static cursor of tp_alloc: the block written to and the next page in it. */
  datatype Cursor = NoBlock | At(blk: nat, pg: nat)

  /** used are the blocks in the heap trans_b, res is t_reserved. */
  datatype Trans = Trans(bs: Blocks, free: seq<nat>, used: set<nat>, res: nat, cur: Cursor)

  /** The translation pages the CMT takes to be on flash and up to date. */
  ghost function CleanMap(cmt: seq<Entry>): Mapping {
    map p: nat | p < |cmt| && !cmt[p].dirty && cmt[p].tppa.Some? :: cmt[p].tppa.value
  }

  /** Every used block is full, except the one the cursor is in. */
  ghost predicate CursorOk(g: Geo, row: seq<Block>, used: set<nat>, cur: Cursor) {
    && (forall b :: b in used ==> b < |row| && (cur == NoBlock || b != cur.blk ==> row[b].now == g.ppb))
    && (cur.At? ==> cur.blk in used && row[cur.blk].now == cur.pg)
  }

  ghost predicate BlocksHeld(g: Geo, row: seq<Block>, free: seq<nat>, used: set<nat>, res: nat) {
    && NoDup(free) && res < |row| && res !in free && res !in used && row[res] == Erased(g)
    && (forall b :: b in free ==> b < |row| && b !in used && row[b] == Erased(g))
    && (forall b: nat :: b < |row| && b !in used ==> row[b].bits == {})
  }

  /** Valid translation pages are exactly the addresses in m, each with a spare-area word naming its entry. */
  ghost predicate TransOk(g: Geo, t: Trans, m: Mapping) {
    && g.bps == 1 && g.ppb > 0 && BlocksOk(g, t.bs) && BlocksHeld(g, t.bs[0], t.free, t.used, t.res)
    && CursorOk(g, t.bs[0], t.used, t.cur) && Inverse(g, t.bs, m)
  }

  ghost predicate Full(g: Geo, cur: Cursor) { cur == NoBlock || cur.pg == g.ppb }

  /** BM_InvalidatePage on the page of entry l. */
  lemma TransInvalidate(g: Geo, t: Trans, m: Mapping, l: nat)
    requires TransOk(g, t, m) && l in m
    ensures In(t.bs, m[l].ch, m[l].blk) && TransOk(g, t.(bs := Invalidated(t.bs, m[l])), m - {l})
  {
    var a := m[l];
    var bs' := Invalidated(t.bs, a);
    InvalidatedOk(g, t.bs, a);
    PutAt(g, t.bs, a.ch, a.blk, Clear(t.bs[a.ch][a.blk], a.pg));
    var row, row' := t.bs[0], bs'[0];
    forall b: nat | b < |row| ensures row'[b].now == row[b].now && (row[b].bits == {} ==> row'[b] == row[b]) {
      assert In(t.bs, 0, b);
    }
    hide Invalidated, BlockOk, Shape;
    assert Inverse(g, bs', m - {l});
  }

  /** The next page of the cursor's block is written for entry l. */
  lemma TransFill(g: Geo, t: Trans, m: Mapping, l: nat)
    requires TransOk(g, t, m) && t.cur.At? && t.cur.pg < g.ppb && l !in m
    ensures In(t.bs, 0, t.cur.blk) && t.bs[0][t.cur.blk].now < |t.bs[0][t.cur.blk].oob|
    ensures Head(t.bs, 0, t.cur.blk) == Addr(0, t.cur.blk, t.cur.pg)
    ensures TransOk(g, t.(bs := Filled(t.bs, 0, t.cur.blk, l), cur := At(t.cur.blk, t.cur.pg + 1)),
                    m[l := Addr(0, t.cur.blk, t.cur.pg)])
  {
    var a := t.cur.blk;
    assert In(t.bs, 0, a) && BlockOk(g, t.bs[0][a]);
    var bs' := Filled(t.bs, 0, a, l);
    MovedInverse(g, t.bs, m, l, 0, a);
    FilledOk(g, t.bs, 0, a, l);
    PutAt(g, t.bs, 0, a, Fill(t.bs[0][a], l));
    var row, row' := t.bs[0], bs'[0];
    forall b: nat | b < |row| && b != a ensures row'[b] == row[b] { assert In(t.bs, 0, b); }
    hide Filled, BlockOk, Shape, Inverse;
  }

  /** A block from the free queue becomes the cursor's block. */
  lemma TransTake(g: Geo, t: Trans, m: Mapping)
    requires TransOk(g, t, m) && Full(g, t.cur) && t.free != []
    ensures TransOk(g, t.(free := t.free[1..], used := t.used + {t.free[0]}, cur := At(t.free[0], 0)), m)
  {
    var b := t.free[0];
    assert b in t.free && forall x :: x in t.free[1..] ==> x in t.free;
    assert b !in t.free[1..];
  }

  // ---------------------------------------------------------------- tpage_GC

  ghost function InBlock(m: Mapping, v: nat): set<nat> { set l | l in m && m[l].blk == v }

  /** The victim v is erased and becomes the reserve; its pages are no longer in the mapping. */
  lemma TransErase(g: Geo, t: Trans, m: Mapping, v: nat)
    requires TransOk(g, t, m) && Full(g, t.cur) && v in t.used
    ensures v < |t.bs[0]|
    ensures TransOk(g, Trans(Put(t.bs, 0, v, Erased(g)), t.free, t.used - {v} + {t.res}, v, At(t.res, 0)),
                    m - InBlock(m, v))
  {
    var bs' := Put(t.bs, 0, v, Erased(g));
    PutAt(g, t.bs, 0, v, Erased(g));
    forall c: nat, b: nat | In(bs', c, b) ensures BlockOk(g, bs'[c][b]) {
      assert In(t.bs, c, b) && BlockOk(g, t.bs[c][b]);
    }
    var row, row' := t.bs[0], bs'[0];
    forall b: nat | b < |row| && b != v ensures row'[b] == row[b] { assert In(t.bs, 0, b); }
    EraseInverse(g, t.bs, bs', m, v);
    hide BlockOk, Inverse;
  }

  lemma EraseInverse(g: Geo, bs: Blocks, bs': Blocks, m: Mapping, v: nat)
    requires g.bps == 1 && BlocksOk(g, bs) && BlocksOk(g, bs') && Inverse(g, bs, m) && In(bs, 0, v)
    requires bs'[0][v] == Erased(g)
    requires forall b: nat :: b < |bs[0]| && b != v ==> bs'[0][b] == bs[0][b]
    ensures Inverse(g, bs', m - InBlock(m, v))
  {
    assert forall x :: Live(bs', x) <==> Live(bs, x) && x.blk != v;
    assert forall x :: Live(bs', x) ==> Back(bs', x) == Back(bs, x);
  }

  lemma CleanMapSet(cmt: seq<Entry>, l: nat, a: Addr)
    requires l < |cmt| && !cmt[l].dirty && cmt[l].tppa.Some?
    ensures CleanMap(cmt[l := cmt[l].(tppa := Some(a))]) == CleanMap(cmt)[l := a]
  {
  }

  /** Only addresses of translation pages have changed, and none was lost. */
  ghost predicate Readdressed(cmt: seq<Entry>, cmt': seq<Entry>) {
    |cmt'| == |cmt| && forall p: nat :: p < |cmt| ==>
      cmt'[p] == cmt[p].(tppa := cmt'[p].tppa) && (cmt'[p].tppa.Some? <==> cmt[p].tppa.Some?)
      && (cmt[p].dirty ==> cmt'[p].tppa == cmt[p].tppa)
  }

  /** The page of entry l comes before that of entry k. */
  ghost predicate Before(m: Mapping, l: nat, k: nat) { l in m && k in m && m[l].pg < m[k].pg }

  ghost predicate PageOrder(m: Mapping, sram: seq<nat>) {
    forall i, j :: 0 <= i < j < |sram| ==> Before(m, sram[i], sram[j])
  }

  lemma OrderNext(m: Mapping, sram: seq<nat>, l: nat)
    requires PageOrder(m, sram) && l in m && forall k :: k in sram ==> k in m && m[k].pg < m[l].pg
    ensures PageOrder(m, sram + [l])
  {
  }

  /** What tpage_GC does: a used block with the most invalid pages becomes the reserve, its valid pages are written, in
      page order, to the front of the old reserve, and no other entry changes. */
  ghost predicate Relocated(g: Geo, m: Mapping, t: Trans, t': Trans, cmt: seq<Entry>, cmt': seq<Entry>, v: nat)
    requires |t.bs| > 0
  {
    && Worst(t.bs[0], t.used, v) && t.bs[0][v].invalid > 0
    && t'.free == t.free && t'.used == t.used - {v} + {t.res} && t'.res == v && t'.cur == At(t.res, |InBlock(m, v)|)
    && |cmt'| == |cmt| && (forall l: nat :: l < |cmt| && l !in InBlock(m, v) ==> cmt'[l] == cmt[l])
    && (forall l: nat :: l in InBlock(m, v) ==> Rehoused(cmt, cmt', l, t.res, |InBlock(m, v)|))
    && forall l: nat, k: nat :: l in InBlock(m, v) && k in InBlock(m, v) && Before(m, l, k) ==> Sooner(cmt', l, k)
  }

  /** The table of entry l is among the first n pages of the block. */
  ghost predicate Rehoused(cmt: seq<Entry>, cmt': seq<Entry>, l: nat, blk: nat, n: nat) {
    && l < |cmt| == |cmt'| && cmt'[l].tppa.Some? && cmt'[l] == cmt[l].(tppa := cmt'[l].tppa)
    && var a := cmt'[l].tppa.value; a.ch == 0 && a.blk == blk && a.pg < n
  }

  ghost predicate Sooner(cmt: seq<Entry>, l: nat, k: nat) {
    l < |cmt| && k < |cmt| && cmt[l].tppa.Some? && cmt[k].tppa.Some? && cmt[l].tppa.value.pg < cmt[k].tppa.value.pg
  }

  /** The loaded entries are at the first pages of the block, in their order. */
  ghost predicate Unloaded(cmt: seq<Entry>, cmt': seq<Entry>, sram: seq<nat>, n: nat, blk: nat)
    requires n <= |sram|
  {
    && |cmt'| == |cmt|
    && (forall i :: 0 <= i < n ==>
          sram[i] < |cmt| && cmt'[sram[i]] == cmt[sram[i]].(tppa := Some(Addr(0, blk, i))))
    && forall l: nat :: l < |cmt| && l !in sram[..n] ==> cmt'[l] == cmt[l]
  }

  lemma NoneUnloaded(cmt: seq<Entry>, sram: seq<nat>, blk: nat)
    ensures Unloaded(cmt, cmt, sram, 0, blk)
  {
  }

  lemma RelocatedNone(g: Geo, m: Mapping, t: Trans, t': Trans, cmt: seq<Entry>, v: nat)
    requires |t.bs| > 0 && Worst(t.bs[0], t.used, v) && t.bs[0][v].invalid > 0 && InBlock(m, v) == {}
    requires t'.free == t.free && t'.used == t.used - {v} + {t.res} && t'.res == v && t'.cur == At(t.res, 0)
    ensures Relocated(g, m, t, t', cmt, cmt, v)
  {
    hide InBlock;
  }

  lemma UnloadNext(cmt: seq<Entry>, cmt': seq<Entry>, sram: seq<nat>, n: nat, blk: nat)
    requires n < |sram| && Unloaded(cmt, cmt', sram, n, blk) && NoDup(sram) && sram[n] < |cmt|
    ensures sram[n] < |cmt'|
    ensures Unloaded(cmt, cmt'[sram[n] := cmt'[sram[n]].(tppa := Some(Addr(0, blk, n)))], sram, n + 1, blk)
  {
    assert sram[..n + 1] == sram[..n] + [sram[n]];
    assert sram[n] !in sram[..n];
  }

  /** An entry in the victim was loaded. */
  lemma LoadedAt(b: set<nat>, sram: seq<nat>, l: nat) returns (i: nat)
    requires Members(sram) == b && l in b
    ensures i < |sram| && sram[i] == l
  {
    assert l in Members(sram);
    i :| 0 <= i < |sram| && sram[i] == l;
  }

  lemma RelocatedIs(g: Geo, m: Mapping, t: Trans, t': Trans, cmt: seq<Entry>, cmt': seq<Entry>, v: nat, sram: seq<nat>)
    requires |t.bs| > 0 && Worst(t.bs[0], t.used, v) && t.bs[0][v].invalid > 0
    requires NoDup(sram) && PageOrder(m, sram) && Members(sram) == InBlock(m, v)
    requires Unloaded(cmt, cmt', sram, |sram|, t.res)
    requires t'.free == t.free && t'.used == t.used - {v} + {t.res} && t'.res == v && t'.cur == At(t.res, |sram|)
    ensures Relocated(g, m, t, t', cmt, cmt', v)
  {
    hide InBlock, Members, NoDup;
    var b := InBlock(m, v);
    MembersSize(sram);
    forall l: nat | l < |cmt| && l !in b ensures cmt'[l] == cmt[l] { NotMember(sram, l); }
    forall l: nat | l in b ensures Rehoused(cmt, cmt', l, t.res, |b|) { var i := LoadedAt(b, sram, l); }
    forall l: nat, k: nat | l in b && k in b && Before(m, l, k) ensures Sooner(cmt', l, k) {
      var i := LoadedAt(b, sram, l);
      var j := LoadedAt(b, sram, k);
      assert j < i ==> Before(m, k, l);
    }
  }

  lemma NotMember(sram: seq<nat>, l: nat)
    requires l !in Members(sram)
    ensures l !in sram[..|sram|]
  {
  }

  lemma {:induction false} MembersSize(s: seq<nat>)
    requires NoDup(s)
    ensures |Members(s)| == |s|
    decreases s
  {
    if s != [] {
      var n := |s| - 1;
      MembersSize(s[..n]);
      assert s == s[..n] + [s[n]] && s[n] !in s[..n];
      assert Members(s) == Members(s[..n]) + {s[n]};
    }
  }

  /** The victim's valid pages below page n, read in page order. */
  ghost predicate Loaded(m: Mapping, v: nat, n: nat, x: Block, sram: seq<nat>) {
    && NoDup(sram) && (forall l: nat :: l in sram <==> l in m && m[l].blk == v && m[l].pg < n)
    && PageOrder(m, sram) && |sram| == |set q | q in x.bits && q < n|
  }

  lemma LoadNext(g: Geo, t: Trans, m: Mapping, v: nat, n: nat, sram: seq<nat>)
    requires TransOk(g, t, m) && v < |t.bs[0]| && n < g.ppb && Loaded(m, v, n, t.bs[0][v], sram)
    ensures |t.bs[0][v].oob| == g.ppb
    ensures Loaded(m, v, n + 1, t.bs[0][v], if n in t.bs[0][v].bits then sram + [t.bs[0][v].oob[n]] else sram)
  {
    hide PageOrder, NoDup;
    var x := t.bs[0][v];
    var a := Addr(0, v, n);
    assert In(t.bs, 0, v) && BlockOk(g, x);
    if n in x.bits {
      assert Live(t.bs, a) && m[Back(t.bs, a)] == a;
      AppendNoDup(sram, x.oob[n]);
      OrderNext(m, sram, x.oob[n]);
      assert (set q | q in x.bits && q < n + 1) == (set q | q in x.bits && q < n) + {n};
    } else {
      assert (set q | q in x.bits && q < n + 1) == (set q | q in x.bits && q < n);
    }
    forall l: nat | l in m && m[l].blk == v && m[l].pg == n ensures n in x.bits && l == x.oob[n] {
      assert Live(t.bs, m[l]) && m[l].ch == 0;
    }
  }

  /** All pages of the victim are loaded, fewer than a block of them when one is invalid. */
  lemma LoadDone(g: Geo, t: Trans, m: Mapping, v: nat, sram: seq<nat>)
    requires TransOk(g, t, m) && v < |t.bs[0]| && Loaded(m, v, g.ppb, t.bs[0][v], sram)
    ensures Members(sram) == InBlock(m, v) && |sram| == |t.bs[0][v].bits| <= g.ppb - t.bs[0][v].invalid
  {
    var x := t.bs[0][v];
    assert In(t.bs, 0, v) && BlockOk(g, x);
    assert (set q | q in x.bits && q < g.ppb) == x.bits;
    forall l: nat | l in m && m[l].blk == v ensures m[l].pg < g.ppb {
      assert Live(t.bs, m[l]) && BlockOk(g, t.bs[m[l].ch][m[l].blk]);
    }
  }
}

/**
 The state of the flash blocks behind blockmanager/base_block_manager.c, as values: one row of blocks
 per channel, each block with its issue cursor, invalid count, valid bits and spare-area (OOB) words.
 */
module FlashBlocks {

  /** bits are the pages whose valid bit is set; oob[pg] is the logical address written beside page pg. */
  datatype Block = Block(now: nat, invalid: nat, bits: set<nat>, oob: seq<nat>)

  /** blocks[channel][index in the channel] */
  type Blocks = seq<seq<Block>>

  datatype Addr = Addr(ch: nat, blk: nat, pg: nat)

  /** Every channel has nos blocks of ppb pages. */
  datatype Geo = Geo(bps: nat, nos: nat, ppb: nat)

  ghost predicate Shape(g: Geo, bs: Blocks) {
    |bs| == g.bps && forall c :: 0 <= c < |bs| ==> |bs[c]| == g.nos
  }

  predicate In(bs: Blocks, c: nat, b: nat) { c < |bs| && b < |bs[c]| }

  function Put(bs: Blocks, c: nat, b: nat, x: Block): Blocks
    requires In(bs, c, b)
  {
    bs[c := bs[c][b := x]]
  }

  lemma PutAt(g: Geo, bs: Blocks, c: nat, b: nat, x: Block)
    requires In(bs, c, b) && Shape(g, bs)
    ensures Shape(g, Put(bs, c, b, x)) && Put(bs, c, b, x)[c][b] == x
    ensures forall d: nat, e: nat :: In(bs, d, e) && (d != c || e != b) ==> Put(bs, c, b, x)[d][e] == bs[d][e]
  {
  }

  lemma PutPut(bs: Blocks, c: nat, b: nat, x: Block, y: Block)
    requires In(bs, c, b)
    ensures In(Put(bs, c, b, x), c, b) && Put(Put(bs, c, b, x), c, b, y) == Put(bs, c, b, y)
  {
    assert bs[c][b := x][b := y] == bs[c][b := y];
  }

  /** Every page handed out and not erased is either valid or counted invalid. */
  ghost predicate BlockOk(g: Geo, x: Block) {
    && x.invalid + |x.bits| == x.now <= g.ppb == |x.oob|
    && forall p :: p in x.bits ==> p < x.now
  }

  ghost predicate BlocksOk(g: Geo, bs: Blocks) {
    Shape(g, bs) && forall c: nat, b: nat :: In(bs, c, b) ==> BlockOk(g, bs[c][b])
  }

  predicate Live(bs: Blocks, a: Addr) { In(bs, a.ch, a.blk) && a.pg in bs[a.ch][a.blk].bits }

  /** The spare-area word of a page. */
  function Back(bs: Blocks, a: Addr): nat
    requires In(bs, a.ch, a.blk) && a.pg < |bs[a.ch][a.blk].oob|
  {
    bs[a.ch][a.blk].oob[a.pg]
  }

  function Clear(x: Block, pg: nat): Block { x.(bits := x.bits - {pg}, invalid := x.invalid + 1) }

  /** The page is issued, its valid bit set and the logical address recorded. */
  function Fill(x: Block, lba: nat): Block
    requires x.now < |x.oob|
  {
    x.(now := x.now + 1, bits := x.bits + {x.now}, oob := x.oob[x.now := lba])
  }

  function Erased(g: Geo): Block { Block(0, 0, {}, seq(g.ppb, i => 0)) }

  lemma ClearOk(g: Geo, x: Block, pg: nat)
    requires BlockOk(g, x) && pg in x.bits
    ensures BlockOk(g, Clear(x, pg)) && |Clear(x, pg).bits| == |x.bits| - 1
  {
  }

  lemma FillOk(g: Geo, x: Block, lba: nat)
    requires BlockOk(g, x) && x.now < g.ppb
    ensures BlockOk(g, Fill(x, lba)) && |Fill(x, lba).bits| == |x.bits| + 1
  {
  }

  // ---------------------------------------------------------------- mapping and spare area

  type Mapping = map<nat, Addr>

  /** Mapping and spare area are inverse to each other on the valid pages. */
  ghost predicate Inverse(g: Geo, bs: Blocks, m: Mapping)
    requires BlocksOk(g, bs)
  {
    && (forall l :: l in m ==> Live(bs, m[l]) && Back(bs, m[l]) == l)
    && (forall a :: Live(bs, a) ==> Back(bs, a) in m && m[Back(bs, a)] == a)
  }

  function Invalidated(bs: Blocks, a: Addr): Blocks
    requires In(bs, a.ch, a.blk)
  {
    Put(bs, a.ch, a.blk, Clear(bs[a.ch][a.blk], a.pg))
  }

  /** The address the next page of a block gets. */
  function Head(bs: Blocks, c: nat, b: nat): Addr
    requires In(bs, c, b)
  {
    Addr(c, b, bs[c][b].now)
  }

  function Filled(bs: Blocks, c: nat, b: nat, lba: nat): Blocks
    requires In(bs, c, b) && bs[c][b].now < |bs[c][b].oob|
  {
    Put(bs, c, b, Fill(bs[c][b], lba))
  }

  lemma InvalidatedOk(g: Geo, bs: Blocks, a: Addr)
    requires BlocksOk(g, bs) && Live(bs, a)
    ensures BlocksOk(g, Invalidated(bs, a))
    ensures forall x :: Live(Invalidated(bs, a), x) <==> Live(bs, x) && x != a
    ensures forall x :: Live(bs, x) ==> Back(Invalidated(bs, a), x) == Back(bs, x)
    ensures forall c: nat, b: nat :: In(bs, c, b) ==>
      In(Invalidated(bs, a), c, b) && Head(Invalidated(bs, a), c, b) == Head(bs, c, b)
  {
    ClearOk(g, bs[a.ch][a.blk], a.pg);
    PutAt(g, bs, a.ch, a.blk, Clear(bs[a.ch][a.blk], a.pg));
  }

  lemma FilledOk(g: Geo, bs: Blocks, c: nat, b: nat, lba: nat)
    requires BlocksOk(g, bs) && In(bs, c, b) && bs[c][b].now < g.ppb
    ensures BlocksOk(g, Filled(bs, c, b, lba)) && !Live(bs, Head(bs, c, b))
    ensures forall x :: Live(Filled(bs, c, b, lba), x) <==> Live(bs, x) || x == Head(bs, c, b)
    ensures forall x :: Live(bs, x) ==> Back(Filled(bs, c, b, lba), x) == Back(bs, x)
    ensures Back(Filled(bs, c, b, lba), Head(bs, c, b)) == lba
  {
    FillOk(g, bs[c][b], lba);
    PutAt(g, bs, c, b, Fill(bs[c][b], lba));
  }

  /** The blocks after logical page l moved to the head of block (c, b). */
  function Moved(bs: Blocks, m: Mapping, l: nat, c: nat, b: nat): Blocks
    requires In(bs, c, b) && bs[c][b].now < |bs[c][b].oob|
    requires l in m ==> In(bs, m[l].ch, m[l].blk)
  {
    Filled(if l in m then Invalidated(bs, m[l]) else bs, c, b, l)
  }

  /** A write or relocation of l keeps mapping and spare area inverse, once the new address is stored. */
  lemma MovedInverse(g: Geo, bs: Blocks, m: Mapping, l: nat, c: nat, b: nat)
    requires BlocksOk(g, bs) && Inverse(g, bs, m) && In(bs, c, b) && bs[c][b].now < g.ppb
    ensures BlocksOk(g, Moved(bs, m, l, c, b))
    ensures Inverse(g, Moved(bs, m, l, c, b), m[l := Head(bs, c, b)])
    ensures forall k :: k in m && k != l ==> m[k] != Head(bs, c, b)
  {
    hide Put, Clear, Fill, BlockOk, Filled, Invalidated, Shape;
    var bs1 := if l in m then Invalidated(bs, m[l]) else bs;
    if l in m { InvalidatedOk(g, bs, m[l]); }
    assert Head(bs1, c, b) == Head(bs, c, b);
    FilledOk(g, bs1, c, b, l);
    forall k | k in m && k != l ensures m[k] != Head(bs, c, b) { assert Live(bs1, m[k]); }
  }
}

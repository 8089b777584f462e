/**
 blockmanager/base_block_manager.c: per-channel queues of free blocks, per-channel heaps of used ones,
 segments built from one block per channel.
 */
module BlockManager {
  import opened Sequences
  import opened FlashBlocks
  import opened FlashSegments

  class Segment {
    const blocks: seq<nat>
    var now: nat

    constructor (blocks: seq<nat>)
      ensures this.blocks == blocks && now == 0
    {
      this.blocks, now := blocks, 0;
    }
  }

  /** A block of the heap with the greatest invalid count. */
  predicate Worst(row: seq<Block>, h: set<nat>, b: nat) {
    b in h && b < |row| && forall x :: x in h ==> x < |row| && row[x].invalid <= row[b].invalid
  }

  lemma {:induction false} WorstExists(row: seq<Block>, h: set<nat>)
    requires h != {} && forall x :: x in h ==> x < |row|
    ensures exists b: nat :: Worst(row, h, b)
    decreases h
  {
    var x :| x in h;
    if h == {x} {
      assert Worst(row, h, x);
    } else {
      WorstExists(row, h - {x});
      var b: nat :| Worst(row, h - {x}, b);
      assert h == (h - {x}) + {x};
      assert Worst(row, h, if row[b].invalid < row[x].invalid then x else b);
    }
  }

  function Marked(x: Block, pg: nat, lba: nat): Block
    requires pg < |x.oob|
  {
    x.(bits := x.bits + {pg}, oob := x.oob[pg := lba])
  }

  /** Address a was issued from channel k of the segment. */
  ghost predicate Issued(g: Geo, bs: Blocks, bs': Blocks, seg: seq<nat>, k: nat, k': nat, a: Addr) {
    && SegOk(g, bs, seg, k) && a == Head(bs, k, seg[k]) && a.pg == Row(bs, seg) < g.ppb
    && k' == (if k + 1 == g.bps then 0 else k + 1)
    && bs' == Put(bs, k, seg[k], bs[k][seg[k]].(now := a.pg + 1))
  }

  class BaseBm {
    const g: Geo
    var bs: Blocks
    var free: seq<seq<nat>>
    var heap: seq<set<nat>>

    ghost predicate Queues()
      reads `free, `heap
    {
      |free| == |heap| == g.bps > 0 && forall c :: 0 <= c < |free| ==> |free[c]| == |free[0]|
    }

    constructor (g: Geo)
      requires g.bps > 0
      ensures this.g == g && Queues() && Shape(g, bs)
      ensures forall c: nat, b: nat :: In(bs, c, b) ==> bs[c][b] == Erased(g)
      ensures forall c :: 0 <= c < g.bps ==> heap[c] == {} && free[c] == seq(g.nos, i => i)
    {
      this.g := g;
      bs := seq(g.bps, c => seq(g.nos, b => Erased(g)));
      free := seq(g.bps, c => seq(g.nos, i => i));
      heap := seq(g.bps, c => {});
    }

    /** base_get_segment: one block from every channel's queue, or the abort when channel 0 has none. */
    method GetSegment(isReserve: bool) returns (s: Segment?)
      requires Queues()
      modifies `free, `heap
      ensures Queues() && (s == null <==> old(|free[0]|) == 0)
      ensures s == null ==> free == old(free) && heap == old(heap)
      ensures s != null ==> fresh(s) && s.now == 0 && |s.blocks| == g.bps
      ensures s != null ==> forall c :: 0 <= c < g.bps ==>
                old(free[c]) == [s.blocks[c]] + free[c]
                && heap[c] == old(heap[c]) + if isReserve then {} else {s.blocks[c]}
    {
      var blocks: seq<nat> := [];
      var i := 0;
      while i < g.bps
        invariant 0 <= i <= g.bps == |free| == |heap| && |blocks| == i && (i > 0 ==> |old(free)[0]| > 0)
        invariant forall c :: 0 <= c < i ==> old(free)[c] == [blocks[c]] + free[c]
                                             && heap[c] == old(heap)[c] + if isReserve then {} else {blocks[c]}
        invariant forall c :: i <= c < g.bps ==> free[c] == old(free)[c] && heap[c] == old(heap)[c]
      {
        if free[i] == [] {
          assert |old(free)[i]| == |old(free)[0]|;
          return null;
        }
        var b := free[i][0];
        free := free[i := free[i][1..]];
        if !isReserve { heap := heap[i := heap[i] + {b}]; }
        blocks := blocks + [b];
        i := i + 1;
      }
      s := new Segment(blocks);
      assert forall c :: 0 <= c < g.bps ==> |old(free)[c]| == |old(free)[0]|;
    }

    /** base_change_reserve: a new reserve segment; the old one joins the heaps. */
    method ChangeReserve(reserve: Segment) returns (s: Segment?)
      requires Queues() && |reserve.blocks| == g.bps
      modifies `free, `heap
      ensures Queues() && (s == null <==> old(|free[0]|) == 0)
      ensures s == null ==> free == old(free) && heap == old(heap)
      ensures s != null ==> fresh(s) && s.now == 0 && |s.blocks| == g.bps
      ensures s != null ==> forall c :: 0 <= c < g.bps ==>
                old(free[c]) == [s.blocks[c]] + free[c] && heap[c] == old(heap[c]) + {reserve.blocks[c]}
    {
      s := GetSegment(true);
      if s == null { return; }
      ghost var f := free;
      var i := 0;
      while i < g.bps
        invariant 0 <= i <= g.bps == |heap| == |free| && free == f && s.now == 0
        invariant forall c :: 0 <= c < g.bps ==> heap[c] == old(heap[c]) + if c < i then {reserve.blocks[c]} else {}
      {
        heap := heap[i := heap[i] + {reserve.blocks[i]}];
        i := i + 1;
      }
    }

    /** base_get_gc_target: from every channel the used block with the most invalid pages. */
    method GetGcTarget() returns (t: seq<nat>)
      requires Queues() && Shape(g, bs)
      requires forall c :: 0 <= c < g.bps ==> heap[c] != {} && forall b :: b in heap[c] ==> b < g.nos
      modifies `heap
      ensures Queues() && |t| == g.bps
      ensures forall c :: 0 <= c < g.bps ==> Worst(bs[c], old(heap[c]), t[c]) && heap[c] == old(heap[c]) - {t[c]}
    {
      t := [];
      var i := 0;
      while i < g.bps
        invariant 0 <= i <= g.bps == |heap| && |t| == i
        invariant forall c :: 0 <= c < i ==> Worst(bs[c], old(heap)[c], t[c]) && heap[c] == old(heap)[c] - {t[c]}
        invariant forall c :: i <= c < g.bps ==> heap[c] == old(heap)[c]
      {
        WorstExists(bs[i], heap[i]);
        var b :| b in heap[i] && Worst(bs[i], heap[i], b);
        heap := heap[i := heap[i] - {b}];
        t := t + [b];
        i := i + 1;
      }
    }

    /** base_trim_segment: the victim's blocks are erased and queued as free. */
    method Trim(t: seq<nat>)
      requires Queues() && Shape(g, bs) && |t| == g.bps && forall c :: 0 <= c < g.bps ==> t[c] < g.nos
      modifies `bs, `free
      ensures Queues() && Shape(g, bs)
      ensures forall c :: 0 <= c < g.bps ==> free[c] == old(free[c]) + [t[c]]
      ensures forall c: nat, b: nat :: In(bs, c, b) ==> bs[c][b] == if b == t[c] then Erased(g) else old(bs)[c][b]
    {
      var i := 0;
      while i < g.bps
        invariant 0 <= i <= g.bps == |free| && Shape(g, bs)
        invariant forall c :: 0 <= c < g.bps ==> free[c] == old(free)[c] + if c < i then [t[c]] else []
        invariant forall c: nat, b: nat :: In(bs, c, b) ==>
          bs[c][b] == if c < i && b == t[c] then Erased(g) else old(bs)[c][b]
      {
        bs := Put(bs, i, t[i], Erased(g));
        free := free[i := free[i] + [t[i]]];
        i := i + 1;
      }
    }

    /** base_get_page_num: the next address of the segment, None once all its pages are issued. */
    method GetPageNum(s: Segment) returns (r: Option<Addr>)
      requires Shape(g, bs) && SegOk(g, bs, s.blocks, s.now)
      modifies `bs, s`now
      ensures Shape(g, bs) && SegOk(g, bs, s.blocks, s.now)
      ensures r == None <==> old(Used(g, bs, s.blocks)) == g.bps * g.ppb
      ensures r == None ==> bs == old(bs) && s.now == old(s.now)
      ensures r.Some? ==> r.value == IssueAt(g, s.blocks, old(Used(g, bs, s.blocks)))
      ensures r.Some? ==> r.value.pg < g.ppb && Used(g, bs, s.blocks) == old(Used(g, bs, s.blocks)) + 1
      ensures r.Some? ==> Issued(g, old(bs), bs, s.blocks, old(s.now), s.now, r.value)
    {
      hide Used;
      IssuePosition(g, bs, s.blocks, s.now);
      if s.now == 0 {
        if bs[g.bps - 1][s.blocks[g.bps - 1]].now == g.ppb { return None; }
      }
      var c := s.now;
      var x := bs[c][s.blocks[c]];
      Issue(g, bs, s.blocks, c, x.(now := x.now + 1));
      s.now := s.now + 1;
      if s.now == g.bps { s.now := 0; }
      bs := Put(bs, c, s.blocks[c], x.(now := x.now + 1));
      r := Some(Addr(c, s.blocks[c], x.now));
    }

    /** base_unpopulate_bit on a page whose bit is set. */
    method Unpopulate(a: Addr)
      requires In(bs, a.ch, a.blk)
      modifies `bs
      ensures bs == Invalidated(old(bs), a)
    {
      var x := bs[a.ch][a.blk];
      bs := Put(bs, a.ch, a.blk, x.(bits := x.bits - {a.pg}, invalid := x.invalid + 1));
    }

    /** base_populate_bit and base_set_oob. */
    method Populate(a: Addr, lba: nat)
      requires In(bs, a.ch, a.blk) && a.pg < |bs[a.ch][a.blk].oob|
      modifies `bs
      ensures bs == Put(old(bs), a.ch, a.blk, Marked(old(bs)[a.ch][a.blk], a.pg, lba))
    {
      var x := bs[a.ch][a.blk];
      bs := Put(bs, a.ch, a.blk, x.(bits := x.bits + {a.pg}));
      var y := bs[a.ch][a.blk];
      PutPut(old(bs), a.ch, a.blk, y, y.(oob := y.oob[a.pg := lba]));
      bs := Put(bs, a.ch, a.blk, y.(oob := y.oob[a.pg := lba]));
    }

    /** base_check_full for pages. */
    predicate CheckFull(s: Segment)
      requires 0 < |s.blocks| == |bs| && s.blocks[|bs| - 1] < |bs[|bs| - 1]|
      reads this
    {
      bs[|bs| - 1][s.blocks[|bs| - 1]].now == g.ppb
    }

    predicate IsGcNeeded()
      requires |free| > 0
      reads this
    {
      |free[0]| == 0
    }
  }
}

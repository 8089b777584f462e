/**
 Packing values of 1 to 15 pieces into pages of 16 (variable_value2Page), the footer written beside each page, and
 the scan of that footer when the page is collected.
 */
module Packing {
  import opened Sequences

  /** Pieces in a page. */
  const NPC := 16

  /** A value and its pieces; live is false for one that garbage collection found out of date. */
  datatype Item = Item(id: nat, live: bool, data: seq<nat>) {
    function len(): nat { |data| }
  }

  /** Values by length; bucket l is used as a stack. */
  type Buckets = seq<seq<Item>>

  ghost predicate BucketsOk(bs: Buckets) {
    && |bs| == NPC + 1 && bs[0] == []
    && forall l :: 0 <= l <= NPC ==> BucketOk(bs[l], l)
  }

  ghost predicate BucketOk(b: seq<Item>, l: nat) { NoDup(b) && forall x :: x in b ==> x.len() == l }

  ghost predicate Waiting(bs: Buckets, x: Item) { x.len() < |bs| && x in bs[x.len()] }

  /** The number of values left. */
  function Left(bs: Buckets): nat { if bs == [] then 0 else Left(bs[..|bs| - 1]) + |bs[|bs| - 1]| }

  function Top(bs: Buckets, l: nat): Buckets
    requires l < |bs| && bs[l] != []
  {
    bs[l := bs[l][..|bs[l]| - 1]]
  }

  lemma {:induction false} LeftTop(bs: Buckets, l: nat)
    requires l < |bs| && bs[l] != []
    ensures Left(Top(bs, l)) == Left(bs) - 1
    decreases |bs|
  {
    var n := |bs| - 1;
    if l < n {
      LeftTop(bs[..n], l);
      assert Top(bs, l)[..n] == Top(bs[..n], l);
    } else {
      assert Top(bs, l)[..n] == bs[..n];
    }
  }

  lemma {:induction false} NoneLeft(bs: Buckets)
    ensures Left(bs) == 0 <==> forall l :: 0 <= l < |bs| ==> bs[l] == []
    decreases |bs|
  {
    if bs != [] { NoneLeft(bs[..|bs| - 1]); }
  }

  /** The last value of a bucket is taken. */
  lemma TakeTop(bs: Buckets, l: nat)
    requires BucketsOk(bs) && 0 < l <= NPC && bs[l] != []
    ensures BucketsOk(Top(bs, l)) && bs[l][|bs[l]| - 1].len() == l
    ensures forall x :: Waiting(bs, x) <==> Waiting(Top(bs, l), x) || x == bs[l][|bs[l]| - 1]
    ensures !Waiting(Top(bs, l), bs[l][|bs[l]| - 1])
  {
    var b := bs[l];
    var n := |b| - 1;
    assert b == b[..n] + [b[n]] && b[n] in b;
    assert BucketOk(b, l) && b[n] !in b[..n];
    assert forall m :: 0 <= m <= NPC ==> BucketOk(bs[m], m);
    assert BucketOk(b[..n], l);
  }

  // ---------------------------------------------------------------- pages

  /** Pieces used by the first n values of a page: the offset of the next one. */
  function Offset(page: seq<Item>, n: nat): nat
    requires n <= |page|
  {
    if n == 0 then 0 else Offset(page, n - 1) + page[n - 1].len()
  }

  function Used(page: seq<Item>): nat { Offset(page, |page|) }

  lemma {:induction false} OffsetSame(page: seq<Item>, page': seq<Item>, n: nat)
    requires n <= |page| && n <= |page'| && page[..n] == page'[..n]
    ensures Offset(page, n) == Offset(page', n)
    decreases n
  {
    if n > 0 {
      assert page[..n][..n - 1] == page[..n - 1] && page'[..n][..n - 1] == page'[..n - 1];
      assert page[n - 1] == page[..n][n - 1] && page'[n - 1] == page'[..n][n - 1];
      OffsetSame(page, page', n - 1);
    }
  }

  lemma UsedAppend(page: seq<Item>, x: Item)
    ensures Used(page + [x]) == Used(page) + x.len() && Offset(page + [x], |page|) == Used(page)
  {
    var page' := page + [x];
    var n := |page|;
    assert Offset(page', n + 1) == Offset(page', n) + page'[n].len();
    assert page[..n] == page'[..n];
    hide Offset;
    OffsetSame(page, page', n);
  }

  /** Values on a page follow each other without overlap. */
  lemma {:induction false} Extents(page: seq<Item>, i: nat, j: nat)
    requires i < j <= |page|
    ensures Offset(page, i) + page[i].len() <= Offset(page, j)
    decreases j
  {
    if i + 1 < j { Extents(page, i, j - 1); }
  }

  // ---------------------------------------------------------------- footer

  /** The footer: the length of each value at the offset where it starts, zero elsewhere. */
  ghost predicate IsFooter(foot: seq<nat>, page: seq<Item>) {
    && |foot| == NPC && Used(page) <= NPC
    && (forall i :: 0 <= i < |page| ==>
         0 < page[i].len() && Offset(page, i) < NPC && foot[Offset(page, i)] == page[i].len())
    && forall o :: Used(page) <= o < NPC ==> foot[o] == 0
  }

  /** The scan of __gc_data from piece j on: the places and lengths it finds. */
  function Scan(foot: seq<nat>, j: nat): seq<(nat, nat)>
    requires |foot| == NPC
    decreases NPC - j
  {
    if j >= NPC then []
    else if foot[j] == 0 then Scan(foot, j + 1)
    else [(j, foot[j])] + Scan(foot, j + foot[j])
  }

  /** What packing put on the page from value n on. */
  ghost function Places(page: seq<Item>, n: nat): seq<(nat, nat)>
    requires n <= |page|
    decreases |page| - n
  {
    if n == |page| then [] else [(Offset(page, n), page[n].len())] + Places(page, n + 1)
  }

  lemma {:induction false} ScanRest(foot: seq<nat>, page: seq<Item>, n: nat)
    requires IsFooter(foot, page) && n <= |page|
    ensures Scan(foot, Offset(page, n)) == Places(page, n)
    decreases |page| - n
  {
    hide IsFooter, Offset, Scan, Places;
    if n < |page| {
      ScanRest(foot, page, n + 1);
      FooterAt(foot, page, n);
      ScanStep(foot, Offset(page, n));
      PlacesStep(page, n);
    } else {
      FooterEnd(foot, page);
      ScanZeros(foot, Offset(page, n));
      PlacesEnd(page);
    }
  }

  lemma FooterAt(foot: seq<nat>, page: seq<Item>, n: nat)
    requires IsFooter(foot, page) && n < |page|
    ensures |foot| == NPC && Offset(page, n) < NPC && 0 < foot[Offset(page, n)] == page[n].len()
    ensures Offset(page, n + 1) == Offset(page, n) + page[n].len()
  {
  }

  lemma FooterEnd(foot: seq<nat>, page: seq<Item>)
    requires IsFooter(foot, page)
    ensures |foot| == NPC && forall o :: Offset(page, |page|) <= o < NPC ==> foot[o] == 0
  {
  }

  lemma ScanStep(foot: seq<nat>, j: nat)
    requires |foot| == NPC && j < NPC && 0 < foot[j]
    ensures Scan(foot, j) == [(j, foot[j])] + Scan(foot, j + foot[j])
  {
  }

  lemma PlacesStep(page: seq<Item>, n: nat)
    requires n < |page|
    ensures Places(page, n) == [(Offset(page, n), page[n].len())] + Places(page, n + 1)
  {
  }

  lemma PlacesEnd(page: seq<Item>)
    ensures Places(page, |page|) == []
  {
  }

  lemma {:induction false} ScanZeros(foot: seq<nat>, j: nat)
    requires |foot| == NPC && forall o :: j <= o < NPC ==> foot[o] == 0
    ensures Scan(foot, j) == []
    decreases NPC - j
  {
    if j < NPC { ScanZeros(foot, j + 1); }
  }

  /** The scan of a page's footer recovers exactly the places and lengths that packing wrote. */
  lemma ScanFindsAll(foot: seq<nat>, page: seq<Item>)
    requires IsFooter(foot, page)
    ensures Scan(foot, 0) == Places(page, 0)
  {
    ScanRest(foot, page, 0);
  }

  /** The scan as the collector runs it: a value of a whole page ends it. */
  method ScanPage(foot: seq<nat>) returns (found: seq<(nat, nat)>)
    requires |foot| == NPC
    ensures found == Scan(foot, 0)
  {
    hide Scan;
    found := [];
    var j := 0;
    while j < NPC
      invariant found + Scan(foot, j) == Scan(foot, 0)
      decreases NPC - j
    {
      if foot[j] != 0 {
        ScanStep(foot, j);
        found := found + [(j, foot[j])];
        if foot[j] == NPC {
          ScanEnd(foot, j + NPC);
          return;
        }
        j := j + foot[j] - 1;
      } else {
        ScanSkip(foot, j);
      }
      j := j + 1;
    }
    ScanEnd(foot, j);
  }

  lemma ScanSkip(foot: seq<nat>, j: nat)
    requires |foot| == NPC && j < NPC && foot[j] == 0
    ensures Scan(foot, j) == Scan(foot, j + 1)
  {
  }

  lemma ScanEnd(foot: seq<nat>, j: nat)
    requires |foot| == NPC <= j
    ensures Scan(foot, j) == []
  {
  }

  /** A value is put behind the others. */
  lemma FooterAppend(foot: seq<nat>, page: seq<Item>, x: Item)
    requires IsFooter(foot, page) && 0 < x.len() && Used(page) + x.len() <= NPC
    ensures Used(page) < NPC && IsFooter(foot[Used(page) := x.len()], page + [x])
  {
    hide Offset;
    UsedAppend(page, x);
    var page' := page + [x];
    var foot' := foot[Used(page) := x.len()];
    forall i | 0 <= i < |page'|
      ensures 0 < page'[i].len() && Offset(page', i) < NPC && foot'[Offset(page', i)] == page'[i].len()
    {
      if i < |page| {
        assert page[..i] == page'[..i];
        OffsetSame(page, page', i);
        Extents(page, i, |page|);
      }
    }
  }

  // ---------------------------------------------------------------- contents

  /** Each value's pieces lie at its offset. */
  ghost predicate IsImage(img: seq<nat>, page: seq<Item>) {
    && |img| == NPC && Used(page) <= NPC
    && forall i :: 0 <= i < |page| ==> Holds(img, Offset(page, i), page[i].data)
  }

  ghost predicate Holds(img: seq<nat>, o: nat, data: seq<nat>) {
    o + |data| <= |img| && img[o..o + |data|] == data
  }

  /** Pieces copied into the page from piece o on. */
  function Copied(img: seq<nat>, o: nat, data: seq<nat>): seq<nat>
    requires o + |data| <= |img|
  {
    img[..o] + data + img[o + |data|..]
  }

  lemma CopiedHolds(img: seq<nat>, o: nat, data: seq<nat>)
    requires o + |data| <= |img|
    ensures |Copied(img, o, data)| == |img| && Holds(Copied(img, o, data), o, data)
    ensures forall p: nat, d :: Holds(img, p, d) && p + |d| <= o ==> Holds(Copied(img, o, data), p, d)
  {
    var img' := Copied(img, o, data);
    forall p: nat, d | Holds(img, p, d) && p + |d| <= o ensures Holds(img', p, d) {
      assert img'[p..p + |d|] == img[p..p + |d|];
    }
  }

  lemma ImageAppend(img: seq<nat>, page: seq<Item>, x: Item)
    requires IsImage(img, page) && Used(page) + x.len() <= NPC
    ensures IsImage(Copied(img, Used(page), x.data), page + [x])
  {
    hide Offset, Holds, Copied;
    UsedAppend(page, x);
    CopiedHolds(img, Used(page), x.data);
    var page' := page + [x];
    var img' := Copied(img, Used(page), x.data);
    forall i | 0 <= i < |page'| ensures Holds(img', Offset(page', i), page'[i].data) {
      if i < |page| {
        assert page[..i] == page'[..i];
        OffsetSame(page, page', i);
        Extents(page, i, |page|);
        assert Holds(img, Offset(page, i), page[i].data);
      }
    }
  }

  // ---------------------------------------------------------------- what is left and what is placed

  /** The values of bs0 are those of bs, those put on the page and those dropped, each in one place only. */
  ghost predicate Split(bs0: Buckets, bs: Buckets, page: seq<Item>, gone: seq<Item>) {
    && (forall x :: Waiting(bs0, x) <==> Waiting(bs, x) || x in page || x in gone)
    && (forall x :: x in page ==> x.live && !Waiting(bs, x))
    && (forall x :: x in gone ==> !x.live && !Waiting(bs, x))
    && NoDup(page) && NoDup(gone)
    && Left(bs0) == Left(bs) + |page| + |gone|
  }

  lemma SplitTake(bs0: Buckets, bs: Buckets, page: seq<Item>, gone: seq<Item>, l: nat)
    requires Split(bs0, bs, page, gone) && BucketsOk(bs) && 0 < l <= NPC && bs[l] != []
    ensures var x := bs[l][|bs[l]| - 1];
            if x.live then Split(bs0, Top(bs, l), page + [x], gone) else Split(bs0, Top(bs, l), page, gone + [x])
  {
    hide BucketOk, Waiting, Left, Top;
    TakeTop(bs, l);
    LeftTop(bs, l);
    var x := bs[l][|bs[l]| - 1];
    assert Waiting(bs, x);
  }

  /** No value of length r or less is left. */
  ghost predicate NoneUpTo(bs: Buckets, r: nat) { forall l :: 0 <= l <= r && l < |bs| ==> bs[l] == [] }
}

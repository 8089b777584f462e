/**
 The packing loops: variable_value2Page of the LSM-tree, with and without garbage collection, and the assignment of
 page addresses to a full write buffer in the demand FTL.
 */
module Packer {
  import opened Sequences
  import opened Packing

  /** x was given the address of its place on page number ppa. */
  ghost predicate Addressed(place: map<Item, nat>, ppa: nat, page: seq<Item>) {
    forall i :: 0 <= i < |page| ==> page[i] in place && place[page[i]] == ppa * NPC + Offset(page, i)
  }

  ghost predicate InPages(pages: seq<seq<Item>>, x: Item) { exists p :: 0 <= p < |pages| && x in pages[p] }

  /** What was written of a page agrees with the values that were put on it and the addresses they were given. */
  ghost predicate PageOk(place: map<Item, nat>, ppa: nat, page: seq<Item>, foot: seq<nat>, img: seq<nat>) {
    IsFooter(foot, page) && IsImage(img, page) && Addressed(place, ppa, page)
  }

  ghost predicate Written(place: map<Item, nat>, pageAt: nat -> nat, pages: seq<seq<Item>>, foots: seq<seq<nat>>,
                          imgs: seq<seq<nat>>)
  {
    && |foots| == |pages| && |imgs| == |pages|
    && forall p :: 0 <= p < |pages| ==> PageOk(place, pageAt(p), pages[p], foots[p], imgs[p])
  }

  /** place gained exactly the values on the page; every other address is as it was. */
  ghost predicate Placed(place0: map<Item, nat>, place: map<Item, nat>, page: seq<Item>) {
    && (forall x :: x in place <==> x in place0 || x in page)
    && forall x :: x in place0 && x !in page ==> place[x] == place0[x]
  }

  // ---------------------------------------------------------------- longest first

  /** y is not longer than the i-th value of the page, or would not have fitted in its place. */
  ghost predicate Yields(page: seq<Item>, i: nat, y: Item)
    requires i < |page|
  {
    Offset(page, i) + y.len() <= NPC ==> y.len() <= page[i].len()
  }

  ghost predicate YieldsAll(page: seq<Item>, y: Item) { forall i: nat :: i < |page| ==> Yields(page, i, y) }

  /** Every value on the page was the longest that fitted, of those that came after it and those still waiting. */
  ghost predicate Greedy(bs: Buckets, page: seq<Item>) {
    && (forall i: nat, j: nat :: i < j < |page| ==> Yields(page, i, page[j]))
    && forall y :: Waiting(bs, y) ==> YieldsAll(page, y)
  }

  /** The same over pages that were filled one after the other. */
  ghost predicate LongestFirst(pages: seq<seq<Item>>) {
    && (forall p, i: nat, j: nat :: 0 <= p < |pages| && i < j < |pages[p]| ==> Yields(pages[p], i, pages[p][j]))
    && forall p, q, y :: 0 <= p < q < |pages| && y in pages[q] ==> YieldsAll(pages[p], y)
  }

  lemma GreedyShrinks(bs: Buckets, bs': Buckets, page: seq<Item>)
    requires Greedy(bs, page) && forall y :: Waiting(bs', y) ==> Waiting(bs, y)
    ensures Greedy(bs', page)
  {
    hide Waiting, YieldsAll, Offset;
  }

  lemma TopShrinks(bs: Buckets, l: nat)
    requires l < |bs| && bs[l] != []
    ensures forall y :: Waiting(Top(bs, l), y) ==> Waiting(bs, y)
  {
  }

  /** The longest waiting value that fits is put on the page. */
  lemma GreedyPut(bs: Buckets, bs': Buckets, page: seq<Item>, x: Item)
    requires Greedy(bs, page) && Waiting(bs, x) && forall y :: Waiting(bs', y) ==> Waiting(bs, y)
    requires forall y :: Waiting(bs, y) && Used(page) + y.len() <= NPC ==> y.len() <= x.len()
    ensures Greedy(bs', page + [x])
  {
    hide Waiting, Offset;
    var page' := page + [x];
    forall i: nat | i <= |page| ensures Offset(page', i) == Offset(page, i) {
      assert page'[..i] == page[..i];
      OffsetSame(page, page', i);
    }
    assert YieldsAll(page, x);
    forall i: nat, j: nat | i < j < |page'| ensures Yields(page', i, page'[j]) {
      if j < |page| { assert Yields(page, i, page[j]); } else { assert Yields(page, i, x); }
    }
    forall y | Waiting(bs', y) ensures YieldsAll(page', y) {
      forall i: nat | i < |page'| ensures Yields(page', i, y) {
        if i < |page| { assert Yields(page, i, y); }
      }
    }
  }

  /** Nothing that waits and fits is longer than the longest. */
  lemma LongestIs(bs: Buckets, top: nat, remain: nat, l: nat)
    requires EmptyAbove(bs, top) && BucketsOk(bs) && top < |bs|
    requires forall m :: l < m <= (if remain > top then top else remain) ==> bs[m] == []
    ensures forall y :: Waiting(bs, y) && y.len() <= remain ==> y.len() <= l
  {
    forall y | Waiting(bs, y) && y.len() <= remain ensures y.len() <= l {
      assert y in bs[y.len()];
    }
  }

  lemma FirstMore(pages: seq<seq<Item>>, page: seq<Item>, bs: Buckets, bs': Buckets, dead: seq<Item>)
    requires LongestFirst(pages) && Greedy(bs', page) && Split(bs, bs', page, dead)
    requires forall p :: 0 <= p < |pages| ==> Greedy(bs, pages[p])
    ensures LongestFirst(pages + [page]) && forall p :: 0 <= p < |pages + [page]| ==> Greedy(bs', (pages + [page])[p])
  {
    hide Waiting, YieldsAll, Yields, Left;
    var pages' := pages + [page];
    forall p | 0 <= p < |pages'| ensures Greedy(bs', pages'[p]) {
      if p < |pages| { GreedyShrinks(bs, bs', pages[p]); }
    }
  }

  class Packer {
    var buckets: Buckets
    var place: map<Item, nat>
    /** The piece of the open page that the next value gets. */
    var idxOfPpa: nat
    var nowPpa: nat

    constructor (bs: Buckets)
      ensures buckets == bs && place == map[]
    {
      buckets, place, idxOfPpa, nowPpa := bs, map[], 0, 0;
    }

    /** def_moveTo_fr_page, for a free page chosen by the block manager. */
    method MoveToFreePage(ppa: nat)
      modifies this`idxOfPpa, this`nowPpa
      ensures nowPpa == ppa && idxOfPpa == 0
    {
      nowPpa, idxOfPpa := ppa, 0;
    }

    /** def_get_page, which aborts when the page is full: an address from which page and piece can be read off, and
        which is not given again. */
    method GetPage(plength: nat) returns (r: nat)
      requires idxOfPpa < NPC
      modifies this`idxOfPpa
      ensures r / NPC == nowPpa && r % NPC == old(idxOfPpa) && idxOfPpa == r % NPC + plength
    {
      r := nowPpa * NPC + idxOfPpa;
      idxOfPpa := idxOfPpa + plength;
    }

    /** The longest waiting value that fits, at most most pieces long; 0 if there is none. */
    method Longest(most: nat) returns (l: nat)
      requires most < |buckets|
      ensures l <= most && (l != 0 ==> buckets[l] != [])
      ensures forall m :: l < m <= most ==> buckets[m] == []
    {
      l := most;
      while l != 0 && buckets[l] == []
        invariant l <= most && forall m :: l < m <= most ==> buckets[m] == []
      {
        l := l - 1;
      }
    }

    /** One value goes to the open page. */
    method Put(l: nat, foot: seq<nat>, img: seq<nat>, ghost page: seq<Item>)
      returns (foot': seq<nat>, img': seq<nat>, ghost page': seq<Item>)
      requires BucketsOk(buckets) && 0 < l <= NPC && buckets[l] != []
      requires idxOfPpa == Used(page) && Used(page) + l <= NPC
      requires IsFooter(foot, page) && IsImage(img, page) && Addressed(place, nowPpa, page)
      requires forall x :: x in page ==> !Waiting(buckets, x)
      modifies this`buckets, this`place, this`idxOfPpa
      ensures var x := old(buckets)[l][|old(buckets)[l]| - 1];
              && buckets == Top(old(buckets), l) && page' == page + [x]
              && place.Keys == old(place).Keys + {x}
              && forall y :: y in old(place) && y != x ==> place[y] == old(place)[y]
      ensures idxOfPpa == Used(page')
      ensures IsFooter(foot', page') && IsImage(img', page') && Addressed(place, nowPpa, page')
    {
      hide Offset, IsFooter, IsImage, BucketOk, Copied, Left;
      TakeTop(buckets, l);
      var x := buckets[l][|buckets[l]| - 1];
      UsedAppend(page, x);
      FooterAppend(foot, page, x);
      ImageAppend(img, page, x);
      ghost var o := Used(page);
      var a := GetPage(x.len());
      assert a % NPC == o;
      Lengths(foot, img, page);
      page' := page + [x];
      assert x !in page;
      place := place[x := a];
      foot' := foot[a % NPC := x.len()];
      img' := Copied(img, a % NPC, x.data);
      buckets := buckets[l := buckets[l][..|buckets[l]| - 1]];
      forall i | 0 <= i < |page'| ensures page'[i] in place && place[page'[i]] == nowPpa * NPC + Offset(page', i) {
        if i < |page| {
          assert page[..i] == page'[..i];
          OffsetSame(page, page', i);
          assert page[i] in page;
        }
      }
    }

    /** The inner loop: the open page is filled with the longest values that still fit. */
    method FillPage(top: nat, raw: seq<nat>)
      returns (foot: seq<nat>, img: seq<nat>, n: nat, ghost page: seq<Item>, ghost gone: seq<Item>)
      requires BucketsOk(buckets) && top <= NPC && EmptyAbove(buckets, top) && idxOfPpa == 0 && |raw| == NPC
      modifies this`buckets, this`place, this`idxOfPpa
      ensures BucketsOk(buckets) && EmptyAbove(buckets, top)
      ensures Split(old(buckets), buckets, page, gone) && n == |page|
      ensures PageOk(place, nowPpa, page, foot, img) && Placed(old(place), place, page)
      ensures Used(page) <= NPC && NoneUpTo(buckets, NPC - Used(page))
      ensures Greedy(buckets, page)
    {
      hide Offset, IsFooter, IsImage, Addressed, Split, BucketsOk, Waiting, Left, Top, Greedy;
      EmptyGreedy(buckets);
      foot, img, n, page, gone := Zeros(), raw, 0, [], [];
      Start(buckets, place, nowPpa, img);
      var remain := NPC;
      while remain > 0
        invariant BucketsOk(buckets) && EmptyAbove(buckets, top) && Split(old(buckets), buckets, page, gone)
        invariant n == |page|
        invariant idxOfPpa == Used(page) && 0 <= remain == NPC - Used(page)
        invariant IsFooter(foot, page) && IsImage(img, page) && Addressed(place, nowPpa, page)
        invariant Placed(old(place), place, page) && Greedy(buckets, page)
        decreases Left(buckets)
      {
        Size(buckets);
        var l := Longest(if remain > top then top else remain);
        if l == 0 { break; }
        ghost var bs := buckets;
        SplitTake(old(buckets), bs, page, gone, l);
        SplitApart(old(buckets), bs, page, gone);
        LeftTop(bs, l);
        TakeTop(bs, l);
        TopEmpty(bs, l, top);
        TopShrinks(bs, l);
        LongestIs(bs, top, remain, l);
        ghost var page1, x1 := page, bs[l][|bs[l]| - 1];
        if !buckets[l][|buckets[l]| - 1].live {
          gone := gone + [buckets[l][|buckets[l]| - 1]];
          Drop(l);
          GreedyShrinks(bs, buckets, page);
          continue;
        }
        UsedAppend(page, bs[l][|bs[l]| - 1]);
        foot, img, page := Put(l, foot, img, page);
        TopWaits(bs, l);
        GreedyPut(bs, buckets, page1, x1);
        remain, n := remain - l, n + 1;
      }
      Size(buckets);
      NoneFit(buckets, top, remain);
    }

    /** variable_value2Page: pages are filled until no value is left; pageAt gives the free pages in turn. */
    method Pack(pageAt: nat -> nat, raw: seq<nat>)
      returns (foots: seq<seq<nat>>, imgs: seq<seq<nat>>, ghost pages: seq<seq<Item>>, ghost gone: seq<Item>)
      requires BucketsOk(buckets) && buckets[NPC] == [] && |raw| == NPC
      modifies this
      ensures Written(place, pageAt, pages, foots, imgs)
      ensures forall x :: Waiting(old(buckets), x) && x.live <==> InPages(pages, x)
      ensures forall x :: Waiting(old(buckets), x) && !x.live <==> x in gone
      ensures OncePlaced(pages) && Tight(pages) && LongestFirst(pages)
      ensures forall p :: 0 <= p < |pages| - 1 ==> pages[p] != []
      ensures AllEmpty(buckets)
    {
      hide Waiting, Left, PageOk, Used, Written, Sorted, Split, Tight, TightNext, Placed, NoneUpTo, InPages, OncePlaced,
           Greedy;
      foots, imgs, pages, gone := [], [], [], [];
      var top := Longest(NPC - 1);
      NothingYet(buckets);
      NoneLeft(buckets);
      ghost var bs0, place0 := buckets, place;
      while top != 0 && !AllEmpty(buckets)
        invariant BucketsOk(buckets) && EmptyAbove(buckets, top)
        invariant |foots| == |pages| && Written(place, pageAt, pages, foots, imgs)
        invariant Sorted(bs0, buckets, pages, gone)
        invariant OncePlaced(pages) && Tight(pages) && TightNext(buckets, pages)
        invariant LongestFirst(pages) && forall p :: 0 <= p < |pages| ==> Greedy(buckets, pages[p])
        invariant AllEmpty(buckets) || forall p :: 0 <= p < |pages| ==> pages[p] != []
        invariant forall p :: 0 <= p < |pages| - 1 ==> pages[p] != []
        decreases Left(buckets)
      {
        MoveToFreePage(pageAt(|foots|));
        ghost var bs, pl := buckets, place;
        var foot, img, n, page, dead := FillPage(top, raw);
        Progress(bs, buckets, page, dead);
        WrittenMore(pl, place, pageAt, pages, foots, imgs, page, foot, img, bs0, bs, gone, buckets, dead);
        OnceMore(bs0, bs, buckets, pages, gone, page, dead);
        SortedMore(bs0, bs, buckets, pages, gone, page, dead);
        TightMore(bs, buckets, pages, page, dead);
        FirstMore(pages, page, bs, buckets, dead);
        foots, imgs, pages, gone := foots + [foot], imgs + [img], pages + [page], gone + dead;
      }
      Finished(bs0, buckets, pages, gone, top);
    }

    /** The demand FTL's assignment of addresses to a write buffer of n values, of any length up to a whole page. */
    method AssignPpa(n: nat, pageAt: nat -> nat, raw: seq<nat>)
      returns (foots: seq<seq<nat>>, imgs: seq<seq<nat>>, ghost pages: seq<seq<Item>>)
      requires BucketsOk(buckets) && n == Left(buckets) && |raw| == NPC
      requires forall x :: Waiting(buckets, x) ==> x.live
      modifies this
      ensures Written(place, pageAt, pages, foots, imgs)
      ensures forall x :: Waiting(old(buckets), x) <==> InPages(pages, x)
      ensures LongestFirst(pages)
      ensures OncePlaced(pages) && Tight(pages) && forall p :: 0 <= p < |pages| ==> pages[p] != []
      ensures AllEmpty(buckets)
    {
      hide Waiting, Left, PageOk, Used, Written, Sorted, Split, Tight, TightNext, Placed, NoneUpTo, InPages, OncePlaced,
           Greedy;
      foots, imgs, pages := [], [], [];
      NothingYet(buckets);
      ghost var bs0 := buckets;
      var done := 0;
      while done < n
        invariant BucketsOk(buckets) && done + Left(buckets) == n
        invariant |foots| == |pages| && Written(place, pageAt, pages, foots, imgs)
        invariant Sorted(bs0, buckets, pages, [])
        invariant OncePlaced(pages) && Tight(pages) && TightNext(buckets, pages)
        invariant LongestFirst(pages) && forall p :: 0 <= p < |pages| ==> Greedy(buckets, pages[p])
        invariant forall p :: 0 <= p < |pages| ==> pages[p] != []
        decreases n - done
      {
        MoveToFreePage(pageAt(|foots|));
        ghost var bs, pl := buckets, place;
        NoneLeft(bs);
        var foot, img, k, page, dead := FillPage(NPC, raw);
        NoneDead(bs0, bs, buckets, pages, page, dead);
        Progress(bs, buckets, page, dead);
        NoneLeft(buckets);
        WrittenMore(pl, place, pageAt, pages, foots, imgs, page, foot, img, bs0, bs, [], buckets, dead);
        OnceMore(bs0, bs, buckets, pages, [], page, dead);
        SortedMore(bs0, bs, buckets, pages, [], page, dead);
        TightMore(bs, buckets, pages, page, dead);
        FirstMore(pages, page, bs, buckets, dead);
        assert [] + dead == [];
        foots, imgs, pages := foots + [foot], imgs + [img], pages + [page];
        done := done + k;
      }
      NoneLeft(buckets);
      Finished(bs0, buckets, pages, [], NPC);
    }

    /** A value that is out of date is left out. */
    method Drop(l: nat)
      requires l < |buckets| && buckets[l] != []
      modifies this`buckets
      ensures buckets == Top(old(buckets), l)
    {
      buckets := buckets[l := buckets[l][..|buckets[l]| - 1]];
    }
  }

  lemma EmptyGreedy(bs: Buckets)
    ensures Greedy(bs, [])
  {
  }

  lemma TopWaits(bs: Buckets, l: nat)
    requires BucketsOk(bs) && l < |bs| && bs[l] != []
    ensures var x := bs[l][|bs[l]| - 1]; Waiting(bs, x) && x.len() == l
  {
    assert bs[l][|bs[l]| - 1] in bs[l];
  }

  lemma Lengths(foot: seq<nat>, img: seq<nat>, page: seq<Item>)
    requires IsFooter(foot, page) && IsImage(img, page)
    ensures |foot| == NPC && |img| == NPC
  {
  }

  ghost predicate EmptyAbove(bs: Buckets, top: nat) { forall l :: top < l < |bs| ==> bs[l] == [] }

  function Zeros(): seq<nat> { seq(NPC, i => 0) }

  lemma Start(bs: Buckets, place: map<Item, nat>, ppa: nat, img: seq<nat>)
    requires |img| == NPC
    ensures Split(bs, bs, [], []) && IsFooter(Zeros(), []) && IsImage(img, []) && Addressed(place, ppa, [])
    ensures Used([]) == 0
  {
  }

  lemma Size(bs: Buckets)
    requires BucketsOk(bs)
    ensures |bs| == NPC + 1 && bs[0] == []
  {
  }

  lemma SplitApart(bs0: Buckets, bs: Buckets, page: seq<Item>, gone: seq<Item>)
    requires Split(bs0, bs, page, gone)
    ensures forall x :: x in page ==> !Waiting(bs, x)
  {
  }

  lemma TopEmpty(bs: Buckets, l: nat, top: nat)
    requires EmptyAbove(bs, top) && l < |bs| && bs[l] != []
    ensures EmptyAbove(Top(bs, l), top)
  {
  }

  /** When nothing of at most min(r, top) pieces is left, nothing of at most r pieces is. */
  lemma NoneFit(bs: Buckets, top: nat, r: nat)
    requires EmptyAbove(bs, top) && r < |bs| && bs[0] == []
    requires forall m :: 0 < m <= r && m <= top ==> bs[m] == []
    ensures NoneUpTo(bs, r)
  {
  }

  /** Pages written one after the other hold more than one page's worth. */
  ghost predicate Tight(pages: seq<seq<Item>>) {
    forall p :: 0 < p < |pages| && pages[p] != [] ==> Used(pages[p - 1]) + Used(pages[p]) > NPC
  }

  /** What is left would not have fitted on the last page. */
  ghost predicate TightNext(bs: Buckets, pages: seq<seq<Item>>) {
    pages != [] ==> Used(pages[|pages| - 1]) <= NPC && NoneUpTo(bs, NPC - Used(pages[|pages| - 1]))
  }

  predicate AllEmpty(bs: Buckets) { forall l :: 0 <= l < |bs| ==> bs[l] == [] }

  /** The values of bs0 are on the pages if live, gone if not, or still waiting. */
  ghost predicate Sorted(bs0: Buckets, bs: Buckets, pages: seq<seq<Item>>, gone: seq<Item>) {
    && (forall x :: Waiting(bs0, x) <==> Waiting(bs, x) || InPages(pages, x) || x in gone)
    && (forall x :: InPages(pages, x) ==> x.live && !Waiting(bs, x))
    && (forall x :: x in gone ==> !x.live && !Waiting(bs, x))
  }

  /** No value is on two pages, or twice on one. */
  ghost predicate OncePlaced(pages: seq<seq<Item>>) {
    && (forall p :: 0 <= p < |pages| ==> NoDup(pages[p]))
    && forall p, q, x :: 0 <= p < |pages| && 0 <= q < |pages| && x in pages[p] && x in pages[q] ==> p == q
  }

  lemma OnceMore(bs0: Buckets, bs: Buckets, bs': Buckets, pages: seq<seq<Item>>, gone: seq<Item>, page: seq<Item>,
                 dead: seq<Item>)
    requires OncePlaced(pages) && Sorted(bs0, bs, pages, gone) && Split(bs, bs', page, dead)
    ensures OncePlaced(pages + [page])
  {
    hide Waiting, Left, NoDup;
    forall p, x | 0 <= p < |pages| && x in pages[p] ensures x !in page {
      assert InPages(pages, x);
    }
  }

  lemma NothingYet(bs: Buckets)
    ensures Sorted(bs, bs, [], []) && Tight([]) && TightNext(bs, []) && OncePlaced([])
    ensures forall place, pageAt :: Written(place, pageAt, [], [], [])
  {
  }

  lemma InPagesAppend(pages: seq<seq<Item>>, page: seq<Item>, x: Item)
    ensures InPages(pages + [page], x) <==> InPages(pages, x) || x in page
  {
    var pages' := pages + [page];
    if InPages(pages, x) {
      var p :| 0 <= p < |pages| && x in pages[p];
      assert x in pages'[p];
    }
    if x in page { assert x in pages'[|pages|]; }
  }

  lemma SortedMore(bs0: Buckets, bs: Buckets, bs': Buckets, pages: seq<seq<Item>>, gone: seq<Item>, page: seq<Item>,
                   dead: seq<Item>)
    requires Sorted(bs0, bs, pages, gone) && Split(bs, bs', page, dead)
    ensures Sorted(bs0, bs', pages + [page], gone + dead)
  {
    hide Waiting, InPages, Left;
    forall x ensures InPages(pages + [page], x) <==> InPages(pages, x) || x in page {
      InPagesAppend(pages, page, x);
    }
  }

  /** A page with nothing on it, kept or dropped, means that nothing was left. */
  lemma Progress(bs: Buckets, bs': Buckets, page: seq<Item>, dead: seq<Item>)
    requires BucketsOk(bs') && Split(bs, bs', page, dead) && !AllEmpty(bs)
    requires Used(page) <= NPC && NoneUpTo(bs', NPC - Used(page))
    ensures Left(bs') < Left(bs) && (page == [] ==> AllEmpty(bs'))
  {
    NoneLeft(bs);
    NoneLeft(bs');
  }

  /** Addresses given before stay as they are. */
  lemma WrittenMore(place: map<Item, nat>, place': map<Item, nat>, pageAt: nat -> nat, pages: seq<seq<Item>>,
                    foots: seq<seq<nat>>, imgs: seq<seq<nat>>, page: seq<Item>, foot: seq<nat>, img: seq<nat>,
                    bs0: Buckets, bs: Buckets, gone: seq<Item>, bs': Buckets, dead: seq<Item>)
    requires Written(place, pageAt, pages, foots, imgs)
    requires Sorted(bs0, bs, pages, gone) && Split(bs, bs', page, dead) && Placed(place, place', page)
    requires PageOk(place', pageAt(|pages|), page, foot, img)
    ensures Written(place', pageAt, pages + [page], foots + [foot], imgs + [img])
  {
    hide Waiting, Left, IsFooter, IsImage, Offset;
    var pages' := pages + [page];
    forall p | 0 <= p < |pages'| ensures PageOk(place', pageAt(p), pages'[p], (foots + [foot])[p], (imgs + [img])[p]) {
      if p < |pages| {
        assert PageOk(place, pageAt(p), pages[p], foots[p], imgs[p]);
        forall i | 0 <= i < |pages[p]| ensures pages[p][i] in place' && place'[pages[p][i]] == place[pages[p][i]] {
          assert pages[p][i] in pages[p];
          assert InPages(pages, pages[p][i]);
        }
      }
    }
  }

  lemma TightMore(bs: Buckets, bs': Buckets, pages: seq<seq<Item>>, page: seq<Item>, dead: seq<Item>)
    requires Tight(pages) && TightNext(bs, pages) && Split(bs, bs', page, dead)
    requires BucketsOk(bs) && Used(page) <= NPC && NoneUpTo(bs', NPC - Used(page))
    ensures Tight(pages + [page]) && TightNext(bs', pages + [page])
  {
    hide Offset, Left;
    if pages != [] && page != [] {
      assert page[0] in page;
      assert Waiting(bs, page[0]);
      assert page[0] in bs[page[0].len()];
      Extents(page, 0, |page|);
    }
  }

  lemma Finished(bs0: Buckets, bs: Buckets, pages: seq<seq<Item>>, gone: seq<Item>, top: nat)
    requires Sorted(bs0, bs, pages, gone) && BucketsOk(bs) && EmptyAbove(bs, top) && (top == 0 || AllEmpty(bs))
    ensures AllEmpty(bs)
    ensures forall x :: Waiting(bs0, x) && x.live <==> InPages(pages, x)
    ensures forall x :: Waiting(bs0, x) && !x.live <==> x in gone
  {
    hide InPages;
    assert forall x :: !Waiting(bs, x);
  }

  lemma Empty(s: seq<Item>)
    ensures (forall x :: x !in s) ==> s == []
  {
    if s != [] { assert s[0] in s; }
  }

  lemma NoneDead(bs0: Buckets, bs: Buckets, bs': Buckets, pages: seq<seq<Item>>, page: seq<Item>, dead: seq<Item>)
    requires Sorted(bs0, bs, pages, []) && Split(bs, bs', page, dead)
    requires forall x :: Waiting(bs0, x) ==> x.live
    ensures dead == [] && Left(bs) == Left(bs') + |page|
  {
    hide Waiting, Left;
    assert forall x :: Waiting(bs, x) ==> Waiting(bs0, x);
    assert forall x :: x in dead ==> Waiting(bs, x) && !x.live;
    Empty(dead);
  }

  // ---------------------------------------------------------------- results

  /** The address of a value leads back to its pieces and to its length. */
  lemma ReadBack(place: map<Item, nat>, ppa: nat, page: seq<Item>, foot: seq<nat>, img: seq<nat>, x: Item)
    requires PageOk(place, ppa, page, foot, img) && x in page
    ensures x in place && place[x] / NPC == ppa && |foot| == NPC
    ensures Holds(img, place[x] % NPC, x.data) && foot[place[x] % NPC] == x.len()
  {
    hide Offset, Holds;
    var i :| 0 <= i < |page| && page[i] == x;
    assert Offset(page, i) < NPC;
  }

  lemma {:induction false} PlacesAt(page: seq<Item>, n: nat)
    requires n <= |page|
    ensures |Places(page, n)| == |page| - n
    ensures forall i :: n <= i < |page| ==> Places(page, n)[i - n] == (Offset(page, i), page[i].len())
    decreases |page| - n
  {
    hide Offset, Places;
    if n < |page| {
      PlacesStep(page, n);
      PlacesAt(page, n + 1);
    } else {
      PlacesEnd(page);
    }
  }

  /** Collecting a packed page recovers every value on it, in order, with its length and its pieces, and nothing
      else. */
  lemma CollectRecovers(place: map<Item, nat>, ppa: nat, page: seq<Item>, foot: seq<nat>, img: seq<nat>)
    requires PageOk(place, ppa, page, foot, img)
    ensures |foot| == NPC && |Scan(foot, 0)| == |page|
    ensures forall i :: 0 <= i < |page| ==>
      && Holds(img, Scan(foot, 0)[i].0, page[i].data) && Scan(foot, 0)[i].1 == page[i].len()
      && page[i] in place && place[page[i]] == ppa * NPC + Scan(foot, 0)[i].0
  {
    hide Offset, Places, Scan, Holds;
    ScanFindsAll(foot, page);
    PlacesAt(page, 0);
  }

  /** Two values never share a piece. */
  lemma NeverShared(place: map<Item, nat>, pageAt: nat -> nat, pages: seq<seq<Item>>, foots: seq<seq<nat>>,
                    imgs: seq<seq<nat>>, x: Item, y: Item)
    requires Written(place, pageAt, pages, foots, imgs)
    requires InPages(pages, x) && InPages(pages, y) && x != y
    requires forall p: nat, q: nat :: p != q ==> pageAt(p) != pageAt(q)
    ensures x in place && y in place
    ensures place[x] + x.len() <= place[y] || place[y] + y.len() <= place[x]
  {
    hide Offset, IsFooter, IsImage;
    var p: nat :| p < |pages| && x in pages[p];
    var q: nat :| q < |pages| && y in pages[q];
    var i :| 0 <= i < |pages[p]| && pages[p][i] == x;
    var j :| 0 <= j < |pages[q]| && pages[q][j] == y;
    Inside(foots[p], pages[p], i);
    Inside(foots[q], pages[q], j);
    assert PageOk(place, pageAt(p), pages[p], foots[p], imgs[p]);
    assert PageOk(place, pageAt(q), pages[q], foots[q], imgs[q]);
    if pageAt(p) == pageAt(q) {
      if i < j { Extents(pages[p], i, j); } else { Extents(pages[p], j, i); }
    }
  }

  lemma Inside(foot: seq<nat>, page: seq<Item>, i: nat)
    requires IsFooter(foot, page) && i < |page|
    ensures Offset(page, i) + page[i].len() <= NPC
  {
    Extents(page, i, |page|);
  }

  function Total(pages: seq<seq<Item>>): nat {
    if pages == [] then 0 else Total(pages[..|pages| - 1]) + Used(pages[|pages| - 1])
  }

  /** More than half of what is written is used: two pages in a row hold at least 17 pieces. */
  lemma {:induction false} MoreThanHalf(pages: seq<seq<Item>>)
    requires Tight(pages) && forall p :: 0 <= p < |pages| ==> pages[p] != []
    ensures (NPC + 1) * (|pages| / 2) <= Total(pages)
    decreases |pages|
  {
    hide Used;
    var n := |pages|;
    if n >= 2 {
      var pages' := pages[..n - 2];
      MoreThanHalf(pages');
      assert pages[..n - 1][..n - 2] == pages';
      assert Total(pages) == Total(pages') + Used(pages[n - 2]) + Used(pages[n - 1]);
    }
  }
}

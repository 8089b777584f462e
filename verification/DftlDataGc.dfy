/**
 Data garbage collection of DFTL, dpage_GC: the valid pages of a victim are sorted by logical address, a first
 pass assigns new addresses in the mapping tables, a second pass writes the pages.
 */
module DftlDataGc {

  /** Entries per translation page. */
  const EPP := 2048

  /** A loaded page; dropped is the origin_ppa -1 the first pass leaves behind. */
  datatype Sram = Sram(lpa: nat, origin: int, dropped: bool)

  function Table(lpa: nat): nat { lpa / EPP }

  // ---------------------------------------------------------------- sorting by lpa_compare

  ghost predicate Ascending(s: seq<Sram>) { forall i, j :: 0 <= i < j < |s| ==> s[i].lpa <= s[j].lpa }

  function Place(s: seq<Sram>, x: Sram): seq<Sram> {
    if s == [] then [x] else if x.lpa < s[0].lpa then [x] + s else [s[0]] + Place(s[1..], x)
  }

  function Sort(s: seq<Sram>): seq<Sram> {
    if s == [] then [] else Place(Sort(s[1..]), s[0])
  }

  lemma {:induction false} PlaceMembers(s: seq<Sram>, x: Sram)
    ensures |Place(s, x)| == |s| + 1 && forall y :: y in Place(s, x) <==> y in s || y == x
    decreases s
  {
    if s != [] && s[0].lpa <= x.lpa {
      PlaceMembers(s[1..], x);
      assert s == [s[0]] + s[1..];
    }
  }

  lemma {:induction false} PlaceAscending(s: seq<Sram>, x: Sram)
    requires Ascending(s)
    ensures Ascending(Place(s, x))
    decreases s
  {
    if s != [] && s[0].lpa <= x.lpa {
      var t := Place(s[1..], x);
      PlaceAscending(s[1..], x);
      PlaceMembers(s[1..], x);
      assert forall y :: y in t ==> s[0].lpa <= y.lpa;
      ConsAscending(s[0], t);
    } else if s != [] {
      ConsAscending(x, s);
    }
  }

  lemma ConsAscending(x: Sram, t: seq<Sram>)
    requires Ascending(t) && forall y :: y in t ==> x.lpa <= y.lpa
    ensures Ascending([x] + t)
  {
    var u := [x] + t;
    forall i, j | 0 <= i < j < |u| ensures u[i].lpa <= u[j].lpa {
      assert u[j] == t[j - 1] && t[j - 1] in t;
    }
  }

  lemma {:induction false} PlaceMultiset(s: seq<Sram>, x: Sram)
    ensures multiset(Place(s, x)) == multiset(s) + multiset{x}
    decreases s
  {
    if s != [] && s[0].lpa <= x.lpa {
      PlaceMultiset(s[1..], x);
      assert s == [s[0]] + s[1..];
    }
  }

  /** The sorted list is ascending and has the same pages. */
  lemma {:induction false} SortIs(s: seq<Sram>)
    ensures Ascending(Sort(s)) && |Sort(s)| == |s| && multiset(Sort(s)) == multiset(s)
    decreases s
  {
    if s != [] {
      SortIs(s[1..]);
      PlaceMembers(Sort(s[1..]), s[0]);
      PlaceAscending(Sort(s[1..]), s[0]);
      PlaceMultiset(Sort(s[1..]), s[0]);
      assert s == [s[0]] + s[1..];
    }
  }

  // ---------------------------------------------------------------- the two passes

  /** The pages come from different places, none of them in the block they go to. */
  ghost predicate Distinct(s: seq<Sram>, newBlock: nat) {
    && (forall i, j :: 0 <= i < j < |s| ==> s[i].origin != s[j].origin)
    && forall i :: 0 <= i < |s| ==> !(newBlock <= s[i].origin < newBlock + |s|)
  }

  /** How many of the first n pages are kept. */
  function Rank(s: seq<Sram>, n: nat): nat
    requires n <= |s|
  {
    if n == 0 then 0 else Rank(s, n - 1) + if s[n - 1].dropped then 0 else 1
  }

  lemma {:induction false} RankSame(s: seq<Sram>, s': seq<Sram>, n: nat)
    requires n <= |s| == |s'| && forall i :: 0 <= i < n ==> s'[i].dropped == s[i].dropped
    ensures Rank(s', n) == Rank(s, n)
    decreases n
  {
    if n > 0 { RankSame(s, s', n - 1); }
  }

  lemma {:induction false} RankGrows(s: seq<Sram>, i: nat, j: nat)
    requires i < j <= |s| && !s[i].dropped
    ensures Rank(s, i) < Rank(s, j) && Rank(s, j) <= j
    decreases j
  {
    if i + 1 < j { RankGrows(s, i, j - 1); } else { RankBound(s, i); }
  }

  lemma {:induction false} RankBound(s: seq<Sram>, n: nat)
    requires n <= |s|
    ensures Rank(s, n) <= n
    decreases n
  {
    if n > 0 { RankBound(s, n - 1); }
  }

  /** The mapping entry of l after n pages: where the last kept one of them that holds l goes. */
  ghost function EntryAfter(s: seq<Sram>, n: nat, newBlock: nat, map0: seq<int>, l: nat): int
    requires n <= |s| && l < |map0|
  {
    if n == 0 then map0[l]
    else if !s[n - 1].dropped && s[n - 1].lpa == l then newBlock + Rank(s, n - 1)
    else EntryAfter(s, n - 1, newBlock, map0, l)
  }

  lemma {:induction false} EntrySame(s: seq<Sram>, s': seq<Sram>, n: nat, newBlock: nat, map0: seq<int>, l: nat)
    requires n <= |s| == |s'| && l < |map0| && forall i :: 0 <= i < n ==> s'[i] == s[i]
    ensures EntryAfter(s', n, newBlock, map0, l) == EntryAfter(s, n, newBlock, map0, l)
    decreases n
  {
    if n > 0 {
      EntrySame(s, s', n - 1, newBlock, map0, l);
      RankSame(s, s', n - 1);
    }
  }

  /** An entry is as it was, or is the address of a kept page before n that holds l. */
  lemma {:induction false} EntryIs(s: seq<Sram>, n: nat, newBlock: nat, map0: seq<int>, l: nat)
    requires n <= |s| && l < |map0|
    ensures var a := EntryAfter(s, n, newBlock, map0, l);
            (a == map0[l] && !Kept(s, n, l)) || (newBlock <= a < newBlock + |s| && Kept(s, n, l))
    decreases n
  {
    if n > 0 {
      EntryIs(s, n - 1, newBlock, map0, l);
      KeptNext(s, n - 1, l);
      RankBound(s, n - 1);
    }
  }

  /** If no later page that holds l is kept, the entry is the address of page i. */
  lemma {:induction false} EntryLast(s: seq<Sram>, n: nat, newBlock: nat, map0: seq<int>, i: nat)
    requires i < n <= |s| && !s[i].dropped && s[i].lpa < |map0|
    requires forall j :: i < j < n && !s[j].dropped ==> s[j].lpa != s[i].lpa
    ensures EntryAfter(s, n, newBlock, map0, s[i].lpa) == newBlock + Rank(s, i)
    decreases n
  {
    if i + 1 < n { EntryLast(s, n - 1, newBlock, map0, i); }
  }

  /** One of the first n pages holds logical page l and is kept. */
  ghost predicate Kept(s: seq<Sram>, n: nat, l: nat)
    requires n <= |s|
  {
    exists i :: 0 <= i < n && !s[i].dropped && s[i].lpa == l
  }

  lemma KeptNext(s: seq<Sram>, n: nat, l: nat)
    requires n < |s|
    ensures Kept(s, n + 1, l) <==> Kept(s, n, l) || (!s[n].dropped && s[n].lpa == l)
  {
    if Kept(s, n + 1, l) {
      var i :| 0 <= i < n + 1 && !s[i].dropped && s[i].lpa == l;
      assert i == n || Kept(s, n, l);
    }
    if Kept(s, n, l) {
      var i :| 0 <= i < n && !s[i].dropped && s[i].lpa == l;
    }
  }

  /** The mapping after n pages. */
  ghost predicate Assigned(s: seq<Sram>, n: nat, newBlock: nat, map0: seq<int>, mapping: seq<int>)
    requires n <= |s|
  {
    |mapping| == |map0| && forall l: nat :: l < |map0| ==> mapping[l] == EntryAfter(s, n, newBlock, map0, l)
  }

  /** One of the first n pages is in table d and is kept. */
  ghost predicate KeptIn(s: seq<Sram>, n: nat, d: nat)
    requires n <= |s|
  {
    exists i :: 0 <= i < n && !s[i].dropped && Table(s[i].lpa) == d
  }

  lemma KeptInNext(s: seq<Sram>, s': seq<Sram>, n: nat, d: nat)
    requires n < |s| == |s'| && forall i :: 0 <= i < n ==> s'[i] == s[i]
    ensures KeptIn(s', n, d) == KeptIn(s, n, d)
    ensures KeptIn(s', n + 1, d) <==> KeptIn(s, n, d) || (!s'[n].dropped && Table(s'[n].lpa) == d)
  {
    hide Table;
    if KeptIn(s', n + 1, d) {
      var i :| 0 <= i < n + 1 && !s'[i].dropped && Table(s'[i].lpa) == d;
      if i < n { assert !s[i].dropped && Table(s[i].lpa) == d; }
    }
    if KeptIn(s, n, d) {
      var i :| 0 <= i < n && !s[i].dropped && Table(s[i].lpa) == d;
      assert !s'[i].dropped && Table(s'[i].lpa) == d;
    }
    if KeptIn(s', n, d) {
      var i :| 0 <= i < n && !s'[i].dropped && Table(s'[i].lpa) == d;
      assert !s[i].dropped && Table(s[i].lpa) == d;
    }
  }

  /** Which tables are dirty after n pages: those that were, and the cached ones with a kept page. */
  ghost predicate Dirtied(s: seq<Sram>, n: nat, cached: seq<bool>, dirty0: seq<bool>, dirty: seq<bool>)
    requires n <= |s|
  {
    && |dirty| == |dirty0| == |cached|
    && forall d: nat :: d < |cached| ==> (dirty[d] <==> dirty0[d] || (cached[d] && KeptIn(s, n, d)))
  }

  /** What the first pass decides about page i: it is dropped if its table is cached and dirty by then and the entry is
      not its origin. */
  ghost predicate JudgedAt(s: seq<Sram>, i: nat, newBlock: nat, map0: seq<int>, cached: seq<bool>, dirty0: seq<bool>)
    requires i < |s| && |cached| == |dirty0|
  {
    && s[i].lpa < |map0| && Table(s[i].lpa) < |cached|
    && (s[i].dropped <==> cached[Table(s[i].lpa)] && (dirty0[Table(s[i].lpa)] || KeptIn(s, i, Table(s[i].lpa)))
                          && EntryAfter(s, i, newBlock, map0, s[i].lpa) != s[i].origin)
  }

  ghost predicate Judged(s0: seq<Sram>, s: seq<Sram>, n: nat, newBlock: nat, map0: seq<int>, cached: seq<bool>,
                         dirty0: seq<bool>)
    requires n <= |s0|
  {
    && |s| == |s0| && |cached| == |dirty0|
    && (forall i :: 0 <= i < |s| ==> s[i] == s0[i].(dropped := s[i].dropped) && (i >= n ==> !s[i].dropped))
    && forall i :: 0 <= i < n ==> JudgedAt(s, i, newBlock, map0, cached, dirty0)
  }

  lemma JudgeStep(s0: seq<Sram>, s: seq<Sram>, n: nat, newBlock: nat, map0: seq<int>, cached: seq<bool>,
                  dirty0: seq<bool>, dropped: bool)
    requires n < |s0| && Judged(s0, s, n, newBlock, map0, cached, dirty0)
    requires |s| == |s0| && s[n].lpa < |map0| && Table(s[n].lpa) < |cached| == |dirty0|
    requires dropped <==> cached[Table(s[n].lpa)] && (dirty0[Table(s[n].lpa)] || KeptIn(s, n, Table(s[n].lpa)))
                          && EntryAfter(s, n, newBlock, map0, s[n].lpa) != s[n].origin
    ensures Judged(s0, s[n := s[n].(dropped := dropped)], n + 1, newBlock, map0, cached, dirty0)
  {
    hide Table, KeptIn, EntryAfter;
    var s' := s[n := s[n].(dropped := dropped)];
    forall i | 0 <= i < n + 1 ensures JudgedAt(s', i, newBlock, map0, cached, dirty0) {
      if i < n {
        assert JudgedAt(s, i, newBlock, map0, cached, dirty0);
        assert s'[i] == s[i];
      }
      EntrySame(s, s', i, newBlock, map0, s'[i].lpa);
      KeptInNext(s, s', i, Table(s'[i].lpa));
    }
  }

  lemma JudgedNow(s0: seq<Sram>, s: seq<Sram>, n: nat, newBlock: nat, map0: seq<int>, cached: seq<bool>,
                  dirty0: seq<bool>)
    requires n < |s0| && Judged(s0, s, n, newBlock, map0, cached, dirty0)
    ensures |s| == |s0| && s[n] == s0[n].(dropped := false) && s[n := s[n].(dropped := false)] == s
  {
    hide JudgedAt;
  }

  ghost predicate Increasing(r: seq<nat>) { forall i, j :: 0 <= i < j < |r| ==> r[i] < r[j] }

  ghost predicate InTables(s: seq<Sram>, n: nat) { forall i :: 0 <= i < |s| ==> Table(s[i].lpa) < n }

  /** Uncached tables of the first n pages have been rewritten, once each, but for the one still open. */
  ghost predicate Flushed(s: seq<Sram>, n: nat, cached: seq<bool>, open: int, rewritten: seq<nat>)
    requires n <= |s| && InTables(s, |cached|)
  {
    && Increasing(rewritten)
    && (forall d: nat :: d in rewritten ==>
         d < |cached| && !cached[d] && Touched(s, n, d) && (n < |s| ==> d < Table(s[n].lpa)))
    && (forall i :: 0 <= i < n && !cached[Table(s[i].lpa)] ==> Table(s[i].lpa) == open || Table(s[i].lpa) in rewritten)
    && (open >= 0 ==> n < |s| && open == Table(s[n].lpa) && !cached[open])
  }

  /** One of the first n pages is mapped by table d. */
  ghost predicate Touched(s: seq<Sram>, n: nat, d: nat)
    requires n <= |s|
  {
    exists i :: 0 <= i < n && Table(s[i].lpa) == d
  }

  lemma AppendIncreasing(r: seq<nat>, d: nat)
    requires Increasing(r) && forall x :: x in r ==> x < d
    ensures Increasing(r + [d]) && forall x :: x in r + [d] <==> x in r || x == d
  {
    var u := r + [d];
    forall i, j | 0 <= i < j < |u| ensures u[i] < u[j] { assert r[i] in r; }
  }

  lemma StillTouched(s: seq<Sram>, n: nat, d: nat)
    requires n < |s| && Touched(s, n, d)
    ensures Touched(s, n + 1, d)
  {
    var i :| 0 <= i < n && Table(s[i].lpa) == d;
  }

  /** A page of a cached table opens nothing. */
  lemma FlushSkip(s: seq<Sram>, n: nat, cached: seq<bool>, open: int, rewritten: seq<nat>)
    requires n < |s| && Ascending(s) && InTables(s, |cached|) && Flushed(s, n, cached, open, rewritten)
    requires cached[Table(s[n].lpa)]
    ensures open < 0 && Flushed(s, n + 1, cached, -1, rewritten)
  {
    forall d: nat | d in rewritten ensures Touched(s, n + 1, d) && (n + 1 < |s| ==> d < Table(s[n + 1].lpa)) {
      StillTouched(s, n, d);
    }
  }

  /** A page of an uncached table keeps it open if the next page is in the same table, else it is rewritten now. */
  lemma FlushStep(s: seq<Sram>, n: nat, cached: seq<bool>, open: int, rewritten: seq<nat>)
    requires n < |s| && Ascending(s) && InTables(s, |cached|) && Flushed(s, n, cached, open, rewritten)
    requires !cached[Table(s[n].lpa)]
    ensures open >= 0 ==> open == Table(s[n].lpa)
    ensures var d := Table(s[n].lpa);
            if n + 1 < |s| && Table(s[n + 1].lpa) == d then Flushed(s, n + 1, cached, d, rewritten)
            else Flushed(s, n + 1, cached, -1, rewritten + [d])
  {
    var d := Table(s[n].lpa);
    assert Touched(s, n + 1, d);
    AppendIncreasing(rewritten, d);
    forall x: nat | x in rewritten ensures Touched(s, n + 1, x) && (n + 1 < |s| ==> x < Table(s[n + 1].lpa)) {
      StillTouched(s, n, x);
    }
  }

  /** Page n is kept: its entry gets the next address. */
  lemma AssignKeep(s: seq<Sram>, n: nat, newBlock: nat, map0: seq<int>, mapping: seq<int>)
    requires n < |s| && Assigned(s, n, newBlock, map0, mapping) && !s[n].dropped && s[n].lpa < |map0|
    ensures Assigned(s, n + 1, newBlock, map0, mapping[s[n].lpa := newBlock + Rank(s, n)])
    ensures mapping[s[n].lpa] == EntryAfter(s, n, newBlock, map0, s[n].lpa)
  {
    hide Rank;
  }

  /** Page n is dropped: no entry changes. */
  lemma AssignDrop(s: seq<Sram>, s': seq<Sram>, n: nat, newBlock: nat, map0: seq<int>, mapping: seq<int>)
    requires n < |s| && Assigned(s, n, newBlock, map0, mapping) && s' == s[n := s[n].(dropped := true)]
    ensures Assigned(s', n + 1, newBlock, map0, mapping) && Rank(s', n + 1) == Rank(s, n)
  {
    RankSame(s, s', n);
    hide Rank;
    forall l: nat | l < |map0| ensures mapping[l] == EntryAfter(s', n + 1, newBlock, map0, l) {
      EntrySame(s, s', n, newBlock, map0, l);
    }
  }

  lemma DirtiedStep(s: seq<Sram>, s': seq<Sram>, n: nat, cached: seq<bool>, dirty0: seq<bool>, dirty: seq<bool>)
    requires n < |s| == |s'| && Table(s'[n].lpa) < |cached|
    requires Dirtied(s, n, cached, dirty0, dirty) && forall i :: 0 <= i < n ==> s'[i] == s[i]
    ensures |dirty| == |dirty0| == |cached|
    ensures var d := Table(s'[n].lpa);
            && (dirty[d] <==> dirty0[d] || (cached[d] && KeptIn(s, n, d)))
            && Dirtied(s', n + 1, cached, dirty0, if !s'[n].dropped && cached[d] then dirty[d := true] else dirty)
  {
    hide KeptIn, Table;
    forall d: nat | d < |cached|
      ensures KeptIn(s', n + 1, d) <==> KeptIn(s, n, d) || (!s'[n].dropped && Table(s'[n].lpa) == d)
    {
      KeptInNext(s, s', n, d);
    }
  }

  lemma SameLpas(s: seq<Sram>, n: nat, k: nat)
    requires n < |s| && Ascending(s) && InTables(s, k)
    ensures var s' := s[n := s[n].(dropped := true)]; Ascending(s') && InTables(s', k)
  {
    hide Table;
  }

  // ---------------------------------------------------------------- when the passes are right

  /** Exactly the copies the mapping names are kept. */
  ghost predicate Right(s: seq<Sram>, map0: seq<int>)
    requires forall i :: 0 <= i < |s| ==> s[i].lpa < |map0|
  {
    forall i :: 0 <= i < |s| ==> (!s[i].dropped <==> Current(s[i], map0))
  }

  ghost predicate Current(x: Sram, map0: seq<int>)
    requires x.lpa < |map0|
  {
    map0[x.lpa] == x.origin
  }

  /** A stale page lies in a cached table that is dirty, or that a current page before it makes dirty. */
  ghost predicate Trusted(s: seq<Sram>, map0: seq<int>, cached: seq<bool>, dirty0: seq<bool>)
    requires InTables(s, |cached|) && |dirty0| == |cached| && forall i :: 0 <= i < |s| ==> s[i].lpa < |map0|
  {
    forall i :: 0 <= i < |s| && !Current(s[i], map0) ==>
      cached[Table(s[i].lpa)] && (dirty0[Table(s[i].lpa)] || CurrentIn(s, i, map0, Table(s[i].lpa)))
  }

  /** One of the first n pages is in table d and current. */
  ghost predicate CurrentIn(s: seq<Sram>, n: nat, map0: seq<int>, d: nat)
    requires n <= |s| && forall i :: 0 <= i < |s| ==> s[i].lpa < |map0|
  {
    exists i :: 0 <= i < n && Current(s[i], map0) && Table(s[i].lpa) == d
  }

  /** The pages before n having been judged rightly, page n is judged rightly if it is current or its table is dirty. */
  lemma JudgedRight(s: seq<Sram>, n: nat, newBlock: nat, map0: seq<int>, cached: seq<bool>, dirty0: seq<bool>)
    requires n < |s| && |cached| == |dirty0| && Distinct(s, newBlock) && JudgedAt(s, n, newBlock, map0, cached, dirty0)
    requires forall i :: 0 <= i < |s| ==> s[i].lpa < |map0|
    requires forall i :: 0 <= i < n ==> (!s[i].dropped <==> Current(s[i], map0))
    ensures var d := Table(s[n].lpa);
            (!s[n].dropped <==> Current(s[n], map0)) <==>
            Current(s[n], map0) || (cached[d] && (dirty0[d] || CurrentIn(s, n, map0, d)))
  {
    hide EntryAfter, Rank, Table;
    EntryIs(s, n, newBlock, map0, s[n].lpa);
    assert Current(s[n], map0) ==> !Kept(s, n, s[n].lpa);
    SameKept(s, n, map0, Table(s[n].lpa));
  }

  lemma SameKept(s: seq<Sram>, n: nat, map0: seq<int>, d: nat)
    requires n <= |s| && forall i :: 0 <= i < |s| ==> s[i].lpa < |map0|
    requires forall i :: 0 <= i < n ==> (!s[i].dropped <==> Current(s[i], map0))
    ensures KeptIn(s, n, d) <==> CurrentIn(s, n, map0, d)
  {
    hide Table;
    if KeptIn(s, n, d) {
      var i :| 0 <= i < n && !s[i].dropped && Table(s[i].lpa) == d;
      assert Current(s[i], map0);
    }
    if CurrentIn(s, n, map0, d) {
      var i :| 0 <= i < n && Current(s[i], map0) && Table(s[i].lpa) == d;
      assert !s[i].dropped;
    }
  }

  ghost predicate TrustedAt(s: seq<Sram>, i: nat, map0: seq<int>, cached: seq<bool>, dirty0: seq<bool>)
    requires i < |s| && InTables(s, |cached|) && |dirty0| == |cached| && forall i :: 0 <= i < |s| ==> s[i].lpa < |map0|
  {
    Current(s[i], map0) ||
    (cached[Table(s[i].lpa)] && (dirty0[Table(s[i].lpa)] || CurrentIn(s, i, map0, Table(s[i].lpa))))
  }

  lemma {:induction false} RightTo(s: seq<Sram>, n: nat, newBlock: nat, map0: seq<int>, cached: seq<bool>,
                                   dirty0: seq<bool>)
    requires n <= |s| && |cached| == |dirty0| && Distinct(s, newBlock) && InTables(s, |cached|)
    requires forall i :: 0 <= i < |s| ==> s[i].lpa < |map0|
    requires forall i :: 0 <= i < n ==> JudgedAt(s, i, newBlock, map0, cached, dirty0)
    ensures (forall i :: 0 <= i < n ==> (!s[i].dropped <==> Current(s[i], map0)))
            <==> forall i :: 0 <= i < n ==> TrustedAt(s, i, map0, cached, dirty0)
    decreases n
  {
    hide JudgedAt, TrustedAt, Current, Distinct, Table;
    if n > 0 {
      RightTo(s, n - 1, newBlock, map0, cached, dirty0);
      if forall i :: 0 <= i < n - 1 ==> (!s[i].dropped <==> Current(s[i], map0)) {
        TrustedHere(s, n - 1, newBlock, map0, cached, dirty0);
      }
    }
  }

  lemma TrustedHere(s: seq<Sram>, n: nat, newBlock: nat, map0: seq<int>, cached: seq<bool>, dirty0: seq<bool>)
    requires n < |s| && |cached| == |dirty0| && Distinct(s, newBlock) && JudgedAt(s, n, newBlock, map0, cached, dirty0)
    requires InTables(s, |cached|) && forall i :: 0 <= i < |s| ==> s[i].lpa < |map0|
    requires forall i :: 0 <= i < n ==> (!s[i].dropped <==> Current(s[i], map0))
    ensures (!s[n].dropped <==> Current(s[n], map0)) <==> TrustedAt(s, n, map0, cached, dirty0)
  {
    JudgedRight(s, n, newBlock, map0, cached, dirty0);
  }

  /** The first pass keeps exactly the copies the mapping names if and only if every stale page lies in a cached table
      that is dirty by the time it is looked at. */
  lemma RightIffTrusted(s: seq<Sram>, newBlock: nat, map0: seq<int>, cached: seq<bool>, dirty0: seq<bool>)
    requires |cached| == |dirty0| && Distinct(s, newBlock) && InTables(s, |cached|)
    requires forall i :: 0 <= i < |s| ==> s[i].lpa < |map0|
    requires forall i :: 0 <= i < |s| ==> JudgedAt(s, i, newBlock, map0, cached, dirty0)
    ensures Right(s, map0) <==> Trusted(s, map0, cached, dirty0)
  {
    hide JudgedAt, Current, CurrentIn, Distinct, Table;
    RightTo(s, |s|, newBlock, map0, cached, dirty0);
    if Trusted(s, map0, cached, dirty0) {
      forall i | 0 <= i < |s| ensures TrustedAt(s, i, map0, cached, dirty0) { }
    }
    if forall i :: 0 <= i < |s| ==> TrustedAt(s, i, map0, cached, dirty0) {
      forall i | 0 <= i < |s| && !Current(s[i], map0)
        ensures cached[Table(s[i].lpa)] && (dirty0[Table(s[i].lpa)] || CurrentIn(s, i, map0, Table(s[i].lpa)))
      {
        assert TrustedAt(s, i, map0, cached, dirty0);
      }
    }
  }

  /** If the pass was right, the entry of every kept page is the address the second pass writes it to, and the entry
      of a logical page whose current copy was not in the victim is as it was. */
  lemma RightEntries(s: seq<Sram>, newBlock: nat, map0: seq<int>, mapping: seq<int>)
    requires Distinct(s, newBlock) && Assigned(s, |s|, newBlock, map0, mapping)
    requires (forall i :: 0 <= i < |s| ==> s[i].lpa < |map0|) && Right(s, map0)
    ensures |mapping| == |map0|
    ensures forall i :: 0 <= i < |s| && !s[i].dropped ==> mapping[s[i].lpa] == newBlock + Rank(s, i)
    ensures forall l: nat :: l < |map0| && !Kept(s, |s|, l) ==> mapping[l] == map0[l]
  {
    hide EntryAfter, Rank;
    forall i | 0 <= i < |s| && !s[i].dropped ensures mapping[s[i].lpa] == newBlock + Rank(s, i) {
      forall j | i < j < |s| && !s[j].dropped ensures s[j].lpa != s[i].lpa {
        assert Current(s[i], map0) && Current(s[j], map0);
      }
      EntryLast(s, |s|, newBlock, map0, i);
    }
    forall l: nat | l < |map0| && !Kept(s, |s|, l) ensures mapping[l] == map0[l] {
      EntryIs(s, |s|, newBlock, map0, l);
    }
  }

  // ---------------------------------------------------------------- the two passes as they run

  class Tables {
    const ppb: nat
    var cached: seq<bool>
    var dirty: seq<bool>
    var mapping: seq<int>
    var oob: map<nat, nat>
    var valid: set<nat>
    var rewritten: seq<nat>

    /** What every run keeps: a page that is valid is the one its logical page is mapped to. */
    ghost predicate Valid()
      reads this
    {
      && ppb > 0 && |dirty| == |cached| && (forall l: nat :: l < |mapping| ==> Table(l) < |cached|)
      && Named(mapping, oob, valid)
    }

    /** demand_create: n logical pages in tables that cover them, none of them mapped. */
    constructor (n: nat, tables: nat, ppb: nat)
      requires ppb > 0 && forall l: nat :: l < n ==> Table(l) < tables
      ensures Valid() && mapping == seq(n, i => -1) && valid == {} && |cached| == tables && this.ppb == ppb
      ensures Mapped(mapping, oob, valid)
    {
      this.ppb, cached, dirty := ppb, seq(tables, i => false), seq(tables, i => false);
      mapping, oob, valid, rewritten := seq(n, i => -1), map[], {}, [];
    }

    /** The end of __demand_set: the old page of the logical page is invalidated, the new address is mapped, its page
        marked valid and its spare area set.  The address may be any: even one that is in use keeps the invariant. */
    method Write(lpa: nat, ppa: nat)
      requires Valid() && lpa < |mapping|
      modifies `mapping, `oob, `valid
      ensures Valid() && mapping == old(mapping)[lpa := ppa] && oob == old(oob)[ppa := lpa]
      ensures valid == old(valid) - (if old(mapping)[lpa] >= 0 then {old(mapping)[lpa]} else {}) + {ppa}
      ensures old(Mapped(mapping, oob, valid)) && ppa !in old(valid) ==> Mapped(mapping, oob, valid)
    {
      if mapping[lpa] != -1 { valid := valid - {mapping[lpa]}; }
      mapping := mapping[lpa := ppa];
      valid := valid + {ppa};
      oob := oob[ppa := lpa];
    }

    /** The cache protocol changes which tables are cached and dirty. */
    method Recache(cached': seq<bool>, dirty': seq<bool>)
      requires Valid() && |cached'| == |dirty'| == |cached|
      modifies `cached, `dirty
      ensures Valid() && cached == cached' && dirty == dirty'
    {
      cached, dirty := cached', dirty';
    }

    /** The pass over the mapping tables. */
    method FirstPass(s0: seq<Sram>, newBlock: nat) returns (s: seq<Sram>)
      requires Ascending(s0) && InTables(s0, |cached|) && |dirty| == |cached| && rewritten == []
      requires forall i :: 0 <= i < |s0| ==> !s0[i].dropped && s0[i].lpa < |mapping|
      modifies `dirty, `mapping, `rewritten
      ensures |s| == |s0| && InTables(s, |cached|) && Judged(s0, s, |s0|, newBlock, old(mapping), cached, old(dirty))
      ensures Assigned(s, |s|, newBlock, old(mapping), mapping) && Flushed(s, |s|, cached, -1, rewritten)
      ensures Dirtied(s, |s|, cached, old(dirty), dirty) && |dirty| == |cached|
    {
      hide Table, Ascending, InTables, Judged, Assigned, Flushed, Dirtied, Rank, KeptIn, EntryAfter;
      ghost var map0, dirty0 := mapping, dirty;
      s := s0;
      var realValid := 0;
      var tce: int := -1;
      var i := 0;
      PassStart(s0, newBlock, map0, cached, dirty0);
      while i < |s|
        invariant 0 <= i <= |s| == |s0| && realValid == Rank(s, i) && InTables(s, |cached|)
        invariant |mapping| == |map0| && |dirty| == |dirty0| == |cached|
        invariant Ascending(s) && Judged(s0, s, i, newBlock, map0, cached, dirty0)
        invariant Assigned(s, i, newBlock, map0, mapping) && Flushed(s, i, cached, tce, rewritten)
        invariant Dirtied(s, i, cached, dirty0, dirty) && tce >= -1
      {
        var lpa := s[i].lpa;
        var d := Table(lpa);
        JudgedNow(s0, s, i, newBlock, map0, cached, dirty0);
        TablesAt(s, i, |cached|);
        AssignKeep(s, i, newBlock, map0, mapping);
        RankNext(s, i);
        DirtiedStep(s, s, i, cached, dirty0, dirty);
        if cached[d] {
          FlushSkip(s, i, cached, tce, rewritten);
          tce := -1;
          if dirty[d] && mapping[lpa] != s[i].origin {
            ghost var s1 := s;
            SameLpas(s, i, |cached|);
            JudgeStep(s0, s, i, newBlock, map0, cached, dirty0, true);
            s := s[i := s[i].(dropped := true)];
            AssignDrop(s1, s, i, newBlock, map0, mapping);
            FlushedSame(s1, s, i + 1, cached, -1, rewritten);
            DirtiedStep(s1, s, i, cached, dirty0, dirty);
          } else {
            JudgeStep(s0, s, i, newBlock, map0, cached, dirty0, false);
            mapping := mapping[lpa := newBlock + realValid];
            realValid := realValid + 1;
            if !dirty[d] { dirty := dirty[d := true]; } else { assert dirty[d := true] == dirty; }
          }
        } else {
          FlushStep(s, i, cached, tce, rewritten);
          JudgeStep(s0, s, i, newBlock, map0, cached, dirty0, false);
          if tce == -1 { tce := d; }
          mapping := mapping[lpa := newBlock + realValid];
          realValid := realValid + 1;
          if i != |s| - 1 {
            if tce != Table(s[i + 1].lpa) { tce := -1; }
          } else {
            tce := -1;
          }
          if tce == -1 { rewritten := rewritten + [d]; }
        }
        i := i + 1;
      }
      PassEnd(s, cached, tce, rewritten);
    }

    /** The pass that writes the pages. */
    method SecondPass(s: seq<Sram>, newBlock: nat)
      modifies `oob, `valid
      ensures Written(s, |s|, newBlock, oob, valid)
      ensures forall a :: a in oob && !(newBlock <= a < newBlock + Rank(s, |s|)) ==>
        a in old(oob) && oob[a] == old(oob)[a]
      ensures forall a :: a in old(oob) ==> a in oob
      ensures forall a :: a in valid <==> a in old(valid) || newBlock <= a < newBlock + Rank(s, |s|)
    {
      hide Rank, Written;
      var realValid := 0;
      var i := 0;
      WriteStart(s, newBlock, oob, valid);
      while i < |s|
        invariant 0 <= i <= |s| && realValid == Rank(s, i) && Written(s, i, newBlock, oob, valid)
        invariant forall a :: a in oob && !(newBlock <= a < newBlock + realValid) ==>
          a in old(oob) && oob[a] == old(oob)[a]
        invariant forall a :: a in old(oob) ==> a in oob
        invariant forall a :: a in valid <==> a in old(valid) || newBlock <= a < newBlock + realValid
      {
        RankNext(s, i);
        WriteStep(s, i, newBlock, oob, valid);
        if !s[i].dropped {
          oob := oob[newBlock + realValid := s[i].lpa];
          valid := valid + {newBlock + realValid};
          realValid := realValid + 1;
        }
        i := i + 1;
      }
    }

    /** The two passes on loaded pages as qsort leaves them, whatever they are.  Every page that is kept is written,
        with its logical address beside it, and every entry names the last kept copy; every uncached table touched is
        rewritten once.  Exactly the copies the mapping named are kept if and only if every stale page is in a cached
        table that is dirty or that a current page before it makes dirty; their entries are then where they are
        written, and no other entry changes. */
    method TwoPasses(s0: seq<Sram>, newBlock: nat) returns (s: seq<Sram>)
      requires Ascending(s0) && Distinct(s0, newBlock) && InTables(s0, |cached|) && |dirty| == |cached|
      requires forall i :: 0 <= i < |s0| ==> !s0[i].dropped && s0[i].lpa < |mapping|
      modifies `dirty, `mapping, `oob, `valid, `rewritten
      ensures |s| == |s0| && |mapping| == |old(mapping)| && InTables(s, |cached|) && |dirty| == |cached|
      ensures forall i :: 0 <= i < |s| ==> s[i] == s0[i].(dropped := s[i].dropped)
      ensures Written(s, |s|, newBlock, oob, valid) && Assigned(s, |s|, newBlock, old(mapping), mapping)
      ensures Right(s, old(mapping)) <==> Trusted(s0, old(mapping), cached, old(dirty))
      ensures Right(s, old(mapping)) ==> forall i :: 0 <= i < |s| && !s[i].dropped ==>
                var a := mapping[s[i].lpa]; a == newBlock + Rank(s, i) && a in valid && a in oob && oob[a] == s[i].lpa
      ensures Right(s, old(mapping)) ==> forall l: nat :: l < |mapping| && !Kept(s, |s|, l) ==>
        mapping[l] == old(mapping)[l]
      ensures Increasing(rewritten)
      ensures forall d: nat :: d in rewritten <==> d < |cached| && !cached[d] && Touched(s, |s|, d)
      ensures Dirtied(s, |s|, cached, old(dirty), dirty)
      ensures forall a :: a in valid <==> a in old(valid) || newBlock <= a < newBlock + Rank(s, |s|)
      ensures forall a :: a in oob && !(newBlock <= a < newBlock + Rank(s, |s|)) ==>
        a in old(oob) && oob[a] == old(oob)[a]
      ensures forall a :: a in old(oob) ==> a in oob
    {
      hide Judged, Assigned, Flushed, Dirtied, Written, Rank, Ascending, Distinct, Table, Increasing, Touched, Right,
           Trusted, InTables, Kept;
      ghost var map0, dirty0 := mapping, dirty;
      rewritten := [];
      s := FirstPass(s0, newBlock);
      SecondPass(s, newBlock);
      PassesAgree(s0, s, newBlock, map0, mapping, oob, valid, cached, dirty0, rewritten);
    }

    /** The valid pages of the block at oldBlock, in page order. */
    method Load(oldBlock: nat) returns (loaded: seq<Sram>)
      requires Valid()
      ensures Loaded(oob, valid, oldBlock, ppb, loaded)
    {
      hide Named, Loaded;
      NothingLoaded(oob, valid, oldBlock);
      loaded := [];
      var i := 0;
      while i < ppb
        invariant 0 <= i <= ppb && Loaded(oob, valid, oldBlock, i, loaded)
      {
        LoadNext(mapping, oob, valid, oldBlock, i, loaded);
        if oldBlock + i in valid { loaded := loaded + [Sram(oob[oldBlock + i], oldBlock + i, false)]; }
        i := i + 1;
      }
    }

    /** dpage_GC as a whole: the block at oldBlock is emptied into the one at newBlock.  No page is dropped, the logical
        pages that were in the victim are mapped to the new block, in the order of their addresses, and no other entry
        changes. */
    method DpageGc(oldBlock: nat, newBlock: nat) returns (s: seq<Sram>)
      requires Valid() && (oldBlock + ppb <= newBlock || newBlock + ppb <= oldBlock)
      modifies `dirty, `mapping, `oob, `valid, `rewritten
      ensures Valid() && |mapping| == |old(mapping)|
      ensures (forall i :: 0 <= i < |s| ==> !s[i].dropped && s[i].lpa < |old(mapping)|) && Right(s, old(mapping))
      ensures Moved(old(mapping), old(oob), old(valid), mapping, oob, valid, oldBlock, newBlock, ppb)
      ensures old(Mapped(mapping, oob, valid)) && Clear(old(valid), newBlock, ppb) ==> Mapped(mapping, oob, valid)
      ensures Increasing(rewritten)
      ensures forall d: nat :: d in rewritten <==>
        d < |cached| && !cached[d] && HoldsTable(old(oob), old(valid), oldBlock, ppb, d)
      ensures forall d: nat :: d < |cached| ==>
        (dirty[d] <==> old(dirty)[d] || (cached[d] && HoldsTable(old(oob), old(valid), oldBlock, ppb, d)))
    {
      hide Loaded, Sort, Ascending, Distinct, Named, Moved, Mapped, Clear, Written, Assigned, Right, Trusted, Dirtied,
           Kept, Touched, Increasing, Rank, HoldsTable, Victim, Passed, InTables;
      var loaded := Load(oldBlock);
      ghost var map0, oob0, valid0 := mapping, oob, valid;
      var s0 := Sort(loaded);
      VictimSorted(map0, oob0, valid0, oldBlock, ppb, loaded);
      VictimReady(map0, oob0, valid0, oldBlock, newBlock, ppb, s0, cached, dirty);
      valid := set a | a in valid && !(oldBlock <= a < oldBlock + ppb);
      s := TwoPasses(s0, newBlock);
      NoneDropped(map0, oob0, valid0, oldBlock, ppb, s0, s);
      AllKept(map0, oob0, s0, s, newBlock, mapping, oob);
      CollectedNamed(map0, oob0, valid0, oldBlock, newBlock, ppb, s0, mapping, oob, valid);
      CollectedMoved(map0, oob0, valid0, oldBlock, newBlock, ppb, s0, mapping, oob, valid);
      if Mapped(map0, oob0, valid0) && Clear(valid0, newBlock, ppb) {
        CollectedMapped(map0, oob0, valid0, oldBlock, newBlock, ppb, mapping, oob, valid);
      }
      forall d: nat { TouchedIs(map0, oob0, valid0, oldBlock, ppb, s0, s, d); }
      DirtiedAll(s, cached, old(dirty), dirty);
    }

    /** The state, for the record of a run. */
    ghost function Now(): Snapshot
      reads this
    {
      Snapshot(mapping, oob, valid, cached, dirty)
    }

    /** What a step does: a write puts the logical page at its address, a collection moves the logical pages of its
        block and nothing else. */
    static ghost predicate Follows(ppb: nat, s: Snapshot, e: Event, s': Snapshot) {
      match e
      case Wrote(lpa, ppa) =>
        && lpa < |s.mapping| && s'.mapping == s.mapping[lpa := ppa] && s'.oob == s.oob[ppa := lpa]
        && s'.valid == s.valid - (if s.mapping[lpa] >= 0 then {s.mapping[lpa]} else {}) + {ppa}
        && s'.cached == s.cached && s'.dirty == s.dirty
      case Collected(from, to) =>
        && s'.cached == s.cached
        && Moved(s.mapping, s.oob, s.valid, s'.mapping, s'.oob, s'.valid, from, to, ppb)
      case Recached(c, d) => s' == s.(cached := c, dirty := d)
    }

    /** Whether a step can be taken; in an orderly run only free pages are written to. */
    static ghost predicate Allowed(ppb: nat, s: Snapshot, e: Event, orderly: bool) {
      match e
      case Wrote(lpa, ppa) => lpa < |s.mapping| && (orderly ==> ppa !in s.valid)
      case Collected(from, to) => (from + ppb <= to || to + ppb <= from) && (orderly ==> Clear(s.valid, to, ppb))
      case Recached(c, d) => |c| == |d| == |s.cached|
    }

    /** Any run of writes, collections and changes of the cache: a valid page is always the one its logical page is
        mapped to, whatever addresses are written to, so no collection ever meets a stale page.  If only free pages are
        written to, every mapped page is also valid and names its logical page.  The states of the run are returned. */
    method Run(events: seq<Event>, orderly: bool) returns (ghost trace: seq<Snapshot>)
      requires Valid()
      modifies this
      ensures Valid() && |mapping| == |old(mapping)|
      ensures orderly && old(Mapped(mapping, oob, valid)) ==> Mapped(mapping, oob, valid)
      ensures |trace| == |events| + 1 && trace[0] == old(Now()) && trace[|events|] == Now()
      ensures forall i :: 0 <= i < |events| ==>
        if Allowed(ppb, trace[i], events[i], orderly) then Follows(ppb, trace[i], events[i], trace[i + 1])
        else trace[i + 1] == trace[i]
    {
      hide Named, Mapped, Clear, Moved, Increasing, HoldsTable, Table, Right;
      trace := [Now()];
      var i := 0;
      while i < |events|
        invariant 0 <= i <= |events| && Valid() && |mapping| == |old(mapping)|
        invariant orderly && old(Mapped(mapping, oob, valid)) ==> Mapped(mapping, oob, valid)
        invariant |trace| == i + 1 && trace[0] == old(Now()) && trace[i] == Now()
        invariant forall j :: 0 <= j < i ==>
          if Allowed(ppb, trace[j], events[j], orderly) then Follows(ppb, trace[j], events[j], trace[j + 1])
          else trace[j + 1] == trace[j]
      {
        match events[i] {
          case Wrote(lpa, ppa) =>
            if lpa < |mapping| && (orderly ==> ppa !in valid) { Write(lpa, ppa); }
          case Collected(from, to) =>
            if (from + ppb <= to || to + ppb <= from) && (orderly ==> Clear(valid, to, ppb)) {
              var _ := DpageGc(from, to);
            }
          case Recached(c, d) =>
            if |c| == |d| == |cached| { Recache(c, d); }
        }
        trace := trace + [Now()];
        i := i + 1;
      }
    }
  }

  /** All pages of a victim are kept, in their order. */
  lemma NoneDropped(map0: seq<int>, oob0: map<nat, nat>, valid0: set<nat>, block: nat, ppb: nat, s0: seq<Sram>,
                    s: seq<Sram>)
    requires Victim(map0, oob0, valid0, block, ppb, s0) && |s| == |s0|
    requires forall i :: 0 <= i < |s| ==> s[i] == s0[i].(dropped := s[i].dropped) && s[i].lpa < |map0|
    requires Right(s, map0)
    ensures Rank(s, |s|) == |s| && forall i :: 0 <= i < |s| ==> !s[i].dropped && Rank(s, i) == i
  {
    hide Rank;
    forall i | 0 <= i < |s| ensures !s[i].dropped { assert s[i].lpa == s0[i].lpa && s[i].origin == s0[i].origin; }
    RankAll(s, |s|);
    forall i | 0 <= i < |s| ensures Rank(s, i) == i { RankAll(s, i); }
  }

  lemma AllKept(map0: seq<int>, oob0: map<nat, nat>, s0: seq<Sram>, s: seq<Sram>, newBlock: nat, mapping: seq<int>,
                oob: map<nat, nat>)
    requires |s| == |s0| && |mapping| == |map0|
    requires forall i :: 0 <= i < |s| ==> s[i] == s0[i].(dropped := s[i].dropped) && s[i].lpa < |map0|
    requires forall i :: 0 <= i < |s| ==> !s[i].dropped && Rank(s, i) == i
    requires forall i :: 0 <= i < |s| && !s[i].dropped ==>
      var a := mapping[s[i].lpa]; a == newBlock + Rank(s, i) && a in oob && oob[a] == s[i].lpa
    requires forall l: nat :: l < |mapping| && !Kept(s, |s|, l) ==> mapping[l] == map0[l]
    requires forall a :: a in oob && !(newBlock <= a < newBlock + |s|) ==> a in oob0 && oob[a] == oob0[a]
    requires forall a :: a in oob0 ==> a in oob
    ensures Passed(map0, oob0, s0, newBlock, mapping, oob)
  {
    hide Rank;
    assert forall i :: 0 <= i < |s| ==> s[i].lpa == s0[i].lpa;
    forall i | 0 <= i < |s| ensures mapping[s0[i].lpa] == newBlock + i { assert !s[i].dropped; }
    forall a: nat | newBlock <= a < newBlock + |s| ensures a in oob && oob[a] == s0[a - newBlock].lpa {
      assert mapping[s0[a - newBlock].lpa] == a && !s[a - newBlock].dropped;
    }
    forall l: nat | l < |mapping| && !Holds(s0, l) ensures mapping[l] == map0[l] {
      assert !Kept(s, |s|, l);
    }
  }

  /** The pages among the first n that are kept are on flash, with their logical address beside them. */
  ghost predicate Written(s: seq<Sram>, n: nat, newBlock: nat, oob: map<nat, nat>, valid: set<nat>)
    requires n <= |s|
  {
    forall i :: 0 <= i < n && !s[i].dropped ==>
      newBlock + Rank(s, i) in valid && newBlock + Rank(s, i) in oob && oob[newBlock + Rank(s, i)] == s[i].lpa
  }

  lemma WriteStart(s: seq<Sram>, newBlock: nat, oob: map<nat, nat>, valid: set<nat>)
    ensures Rank(s, 0) == 0 && Written(s, 0, newBlock, oob, valid)
  {
  }

  lemma WriteStep(s: seq<Sram>, n: nat, newBlock: nat, oob: map<nat, nat>, valid: set<nat>)
    requires n < |s| && Written(s, n, newBlock, oob, valid)
    ensures s[n].dropped ==> Written(s, n + 1, newBlock, oob, valid)
    ensures !s[n].dropped ==>
      Written(s, n + 1, newBlock, oob[newBlock + Rank(s, n) := s[n].lpa], valid + {newBlock + Rank(s, n)})
  {
    hide Rank;
    forall i | 0 <= i < n && !s[i].dropped ensures Rank(s, i) < Rank(s, n) { RankGrows(s, i, n); }
  }

  /** The addresses the first pass assigns are the ones the second pass writes to. */
  lemma PassesAgree(s0: seq<Sram>, s: seq<Sram>, newBlock: nat, map0: seq<int>, mapping: seq<int>,
                    oob: map<nat, nat>, valid: set<nat>, cached: seq<bool>, dirty0: seq<bool>, rewritten: seq<nat>)
    requires |s| == |s0| && InTables(s, |cached|) && InTables(s0, |cached|)
    requires forall i :: 0 <= i < |s0| ==> !s0[i].dropped && s0[i].lpa < |map0|
    requires Judged(s0, s, |s0|, newBlock, map0, cached, dirty0) && Assigned(s, |s|, newBlock, map0, mapping)
    requires Flushed(s, |s|, cached, -1, rewritten) && Written(s, |s|, newBlock, oob, valid) && Distinct(s0, newBlock)
    ensures |mapping| == |map0| && |cached| == |dirty0| && forall i :: 0 <= i < |s| ==> s[i].lpa < |map0|
    ensures forall i :: 0 <= i < |s| ==> s[i] == s0[i].(dropped := s[i].dropped)
    ensures Right(s, map0) <==> Trusted(s0, map0, cached, dirty0)
    ensures Right(s, map0) ==> forall i :: 0 <= i < |s| && !s[i].dropped ==>
              var a := mapping[s[i].lpa]; a == newBlock + Rank(s, i) && a in valid && a in oob && oob[a] == s[i].lpa
    ensures Right(s, map0) ==> forall l: nat :: l < |mapping| && !Kept(s, |s|, l) ==> mapping[l] == map0[l]
    ensures Increasing(rewritten)
    ensures forall d: nat :: d in rewritten <==> d < |cached| && !cached[d] && Touched(s, |s|, d)
  {
    hide Assigned, Flushed, Rank, Table, Increasing, Touched, InTables, JudgedAt, Right, Trusted, Kept;
    assert Distinct(s, newBlock);
    hide Distinct;
    RightIffTrusted(s, newBlock, map0, cached, dirty0);
    SameTrusted(s0, s, map0, cached, dirty0);
    if Right(s, map0) { RightEntries(s, newBlock, map0, mapping); }
    AssignedSize(s, newBlock, map0, mapping);
    AgreeRewritten(s, cached, rewritten);
  }

  lemma AssignedSize(s: seq<Sram>, newBlock: nat, map0: seq<int>, mapping: seq<int>)
    requires Assigned(s, |s|, newBlock, map0, mapping)
    ensures |mapping| == |map0|
  {
  }

  /** Whether a page is stale does not depend on what is decided about it. */
  lemma SameTrusted(s0: seq<Sram>, s: seq<Sram>, map0: seq<int>, cached: seq<bool>, dirty0: seq<bool>)
    requires |s| == |s0| && forall i :: 0 <= i < |s| ==> s[i] == s0[i].(dropped := s[i].dropped)
    requires InTables(s, |cached|) && InTables(s0, |cached|) && |cached| == |dirty0|
    requires forall i :: 0 <= i < |s0| ==> s0[i].lpa < |map0|
    ensures (forall i :: 0 <= i < |s| ==> s[i].lpa < |map0|)
    ensures Trusted(s, map0, cached, dirty0) <==> Trusted(s0, map0, cached, dirty0)
  {
    hide Table;
    forall i, d: nat | 0 <= i < |s| ensures CurrentIn(s, i, map0, d) == CurrentIn(s0, i, map0, d) {
      if CurrentIn(s, i, map0, d) {
        var j :| 0 <= j < i && Current(s[j], map0) && Table(s[j].lpa) == d;
        assert Current(s0[j], map0) && Table(s0[j].lpa) == d;
      }
      if CurrentIn(s0, i, map0, d) {
        var j :| 0 <= j < i && Current(s0[j], map0) && Table(s0[j].lpa) == d;
        assert Current(s[j], map0) && Table(s[j].lpa) == d;
      }
    }
    hide CurrentIn;
    assert forall i :: 0 <= i < |s| ==> Current(s[i], map0) == Current(s0[i], map0);
  }

  lemma AgreeRewritten(s: seq<Sram>, cached: seq<bool>, rewritten: seq<nat>)
    requires InTables(s, |cached|) && Flushed(s, |s|, cached, -1, rewritten)
    ensures Increasing(rewritten)
    ensures forall d: nat :: d in rewritten <==> d < |cached| && !cached[d] && Touched(s, |s|, d)
  {
    forall d: nat | d < |cached| && !cached[d] && Touched(s, |s|, d) ensures d in rewritten {
      var i :| 0 <= i < |s| && Table(s[i].lpa) == d;
    }
  }

  lemma PassStart(s: seq<Sram>, newBlock: nat, map0: seq<int>, cached: seq<bool>, dirty0: seq<bool>)
    requires InTables(s, |cached|) && |dirty0| == |cached|
    requires forall i :: 0 <= i < |s| ==> !s[i].dropped && s[i].lpa < |map0|
    ensures Rank(s, 0) == 0 && Judged(s, s, 0, newBlock, map0, cached, dirty0) && Assigned(s, 0, newBlock, map0, map0)
    ensures Flushed(s, 0, cached, -1, []) && Dirtied(s, 0, cached, dirty0, dirty0)
  {
  }

  lemma PassEnd(s: seq<Sram>, cached: seq<bool>, open: int, rewritten: seq<nat>)
    requires InTables(s, |cached|) && Flushed(s, |s|, cached, open, rewritten) && open >= -1
    ensures open == -1
  {
  }

  lemma TablesAt(s: seq<Sram>, n: nat, k: nat)
    requires n < |s| && InTables(s, k)
    ensures Table(s[n].lpa) < k && (n + 1 < |s| ==> Table(s[n + 1].lpa) < k)
  {
  }

  lemma RankNext(s: seq<Sram>, n: nat)
    requires n < |s|
    ensures Rank(s, n + 1) == Rank(s, n) + if s[n].dropped then 0 else 1
  {
  }

  lemma FlushedSame(s: seq<Sram>, s': seq<Sram>, n: nat, cached: seq<bool>, open: int, rewritten: seq<nat>)
    requires n <= |s| == |s'| && InTables(s, |cached|) && Flushed(s, n, cached, open, rewritten)
    requires forall i :: 0 <= i < |s| ==> s'[i].lpa == s[i].lpa
    ensures InTables(s', |cached|) && Flushed(s', n, cached, open, rewritten)
  {
    forall d: nat | d in rewritten ensures Touched(s', n, d) {
      var i :| 0 <= i < n && Table(s[i].lpa) == d;
      assert Table(s'[i].lpa) == d;
    }
  }

  // ---------------------------------------------------------------- what every run keeps

  /** A step of a run: a write of a logical page, a collection, or a change of the cache. */
  datatype Event =
    | Wrote(lpa: nat, ppa: nat)
    | Collected(from: nat, to: nat)
    | Recached(cached: seq<bool>, dirty: seq<bool>)

  datatype Snapshot = Snapshot(mapping: seq<int>, oob: map<nat, nat>, valid: set<nat>, cached: seq<bool>,
                               dirty: seq<bool>)

  /** Every valid page is the one its logical page is mapped to. */
  ghost predicate Named(mapping: seq<int>, oob: map<nat, nat>, valid: set<nat>) {
    forall a :: a in valid ==> a in oob && oob[a] < |mapping| && mapping[oob[a]] == a
  }

  /** Every mapped logical page is on a valid page that names it. */
  ghost predicate Mapped(mapping: seq<int>, oob: map<nat, nat>, valid: set<nat>) {
    forall l: nat :: l < |mapping| && mapping[l] != -1 ==> Names(oob, valid, mapping[l], l)
  }

  /** The address is that of a valid page of logical page l. */
  ghost predicate Names(oob: map<nat, nat>, valid: set<nat>, ppa: int, l: nat) {
    ppa >= 0 && var a: nat := ppa; a in valid && a in oob && oob[a] == l
  }

  /** No page of the block is in use. */
  predicate Clear(valid: set<nat>, block: nat, ppb: nat) { forall a :: a in valid ==> !(block <= a < block + ppb) }

  /** The valid pages among the first n of the block, in page order. */
  ghost predicate Loaded(oob: map<nat, nat>, valid: set<nat>, block: nat, n: nat, loaded: seq<Sram>) {
    && |loaded| <= n
    && (forall i :: 0 <= i < |loaded| ==> IsPage(oob, valid, loaded[i]) && block <= loaded[i].origin < block + n)
    && (forall i, j :: 0 <= i < j < |loaded| ==> loaded[i].origin < loaded[j].origin)
    && forall a :: a in valid && block <= a < block + n ==> Includes(loaded, a)
  }

  ghost predicate IsPage(oob: map<nat, nat>, valid: set<nat>, x: Sram) {
    !x.dropped && x.origin in valid && x.origin in oob && x.lpa == oob[x.origin]
  }

  ghost predicate Includes(s: seq<Sram>, a: nat) { exists i :: 0 <= i < |s| && s[i].origin == a }

  lemma NothingLoaded(oob: map<nat, nat>, valid: set<nat>, block: nat)
    ensures Loaded(oob, valid, block, 0, [])
  {
  }

  lemma LoadNext(mapping: seq<int>, oob: map<nat, nat>, valid: set<nat>, block: nat, n: nat, loaded: seq<Sram>)
    requires Named(mapping, oob, valid) && Loaded(oob, valid, block, n, loaded)
    ensures block + n in valid ==> block + n in oob
    ensures block + n in valid ==>
      Loaded(oob, valid, block, n + 1, loaded + [Sram(oob[block + n], block + n, false)])
    ensures block + n !in valid ==> Loaded(oob, valid, block, n + 1, loaded)
  {
    if block + n in valid {
      var x := Sram(oob[block + n], block + n, false);
      var u := loaded + [x];
      forall a | a in valid && block <= a < block + n + 1 ensures Includes(u, a) {
        if a < block + n {
          var i :| 0 <= i < |loaded| && loaded[i].origin == a;
          assert u[i].origin == a;
        } else {
          assert u[|loaded|].origin == a;
        }
      }
    }
  }

  // ---------------------------------------------------------------- a collection as a whole

  ghost predicate Apart(s: seq<Sram>) { forall i, j :: 0 <= i < j < |s| ==> s[i].origin != s[j].origin }

  lemma {:induction false} PlaceApart(s: seq<Sram>, x: Sram)
    requires Apart(s) && forall y :: y in s ==> y.origin != x.origin
    ensures Apart(Place(s, x))
    decreases s
  {
    if s != [] && s[0].lpa <= x.lpa {
      PlaceApart(s[1..], x);
      PlaceMembers(s[1..], x);
      assert forall y :: y in s[1..] ==> y.origin != s[0].origin;
      ConsApart(s[0], Place(s[1..], x));
    } else {
      ConsApart(x, s);
    }
  }

  lemma ConsApart(x: Sram, t: seq<Sram>)
    requires Apart(t) && forall y :: y in t ==> y.origin != x.origin
    ensures Apart([x] + t)
  {
    var u := [x] + t;
    forall i, j | 0 <= i < j < |u| ensures u[i].origin != u[j].origin { assert u[j] == t[j - 1] && t[j - 1] in t; }
  }

  lemma {:induction false} SortApart(s: seq<Sram>)
    requires Apart(s)
    ensures Apart(Sort(s)) && forall y :: y in Sort(s) <==> y in s
    decreases s
  {
    if s != [] {
      SortApart(s[1..]);
      assert forall y :: y in s[1..] ==> y.origin != s[0].origin;
      PlaceApart(Sort(s[1..]), s[0]);
      PlaceMembers(Sort(s[1..]), s[0]);
      assert s == [s[0]] + s[1..];
    }
  }

  /** The sorted pages of a victim in a state of a run: all of them current, from different places. */
  ghost predicate Victim(mapping: seq<int>, oob: map<nat, nat>, valid: set<nat>, block: nat, ppb: nat, s: seq<Sram>) {
    && |s| <= ppb && Apart(s)
    && (forall i :: 0 <= i < |s| ==> IsPage(oob, valid, s[i]) && block <= s[i].origin < block + ppb)
    && (forall i :: 0 <= i < |s| ==> s[i].lpa < |mapping| && mapping[s[i].lpa] == s[i].origin)
    && forall a :: a in valid && block <= a < block + ppb ==> Includes(s, a)
  }

  lemma VictimSorted(mapping: seq<int>, oob: map<nat, nat>, valid: set<nat>, block: nat, ppb: nat, loaded: seq<Sram>)
    requires Named(mapping, oob, valid) && Loaded(oob, valid, block, ppb, loaded)
    ensures Victim(mapping, oob, valid, block, ppb, Sort(loaded)) && Ascending(Sort(loaded))
  {
    hide Sort, Ascending;
    SortIs(loaded);
    SortApart(loaded);
    var s := Sort(loaded);
    forall i | 0 <= i < |s|
      ensures IsPage(oob, valid, s[i]) && block <= s[i].origin < block + ppb
      ensures s[i].lpa < |mapping| && mapping[s[i].lpa] == s[i].origin
    {
      assert s[i] in s;
    }
    forall a | a in valid && block <= a < block + ppb ensures Includes(s, a) {
      assert Includes(loaded, a);
      var i :| 0 <= i < |loaded| && loaded[i].origin == a;
      assert loaded[i] in s;
    }
  }

  /** What dpage_GC needs of them, and that none of them is stale. */
  lemma VictimReady(mapping: seq<int>, oob: map<nat, nat>, valid: set<nat>, block: nat, newBlock: nat, ppb: nat,
                    s: seq<Sram>, cached: seq<bool>, dirty: seq<bool>)
    requires Victim(mapping, oob, valid, block, ppb, s) && |cached| == |dirty|
    requires block + ppb <= newBlock || newBlock + ppb <= block
    requires forall l: nat :: l < |mapping| ==> Table(l) < |cached|
    ensures Distinct(s, newBlock) && InTables(s, |cached|) && |s| <= ppb
    ensures forall i :: 0 <= i < |s| ==> !s[i].dropped && s[i].lpa < |mapping|
    ensures Trusted(s, mapping, cached, dirty)
  {
    hide Table;
  }

  lemma {:induction false} RankAll(s: seq<Sram>, n: nat)
    requires n <= |s| && forall i :: 0 <= i < |s| ==> !s[i].dropped
    ensures Rank(s, n) == n
    decreases n
  {
    if n > 0 { RankAll(s, n - 1); }
  }

  /** Logical page l is in the block. */
  ghost predicate InBlock(mapping: seq<int>, oob: map<nat, nat>, valid: set<nat>, block: nat, ppb: nat, l: nat)
    requires l < |mapping|
  {
    block <= mapping[l] < block + ppb && Names(oob, valid, mapping[l], l)
  }

  /** The logical pages of the old block are now in the new one, in order; nothing else has changed. */
  ghost predicate Moved(map0: seq<int>, oob0: map<nat, nat>, valid0: set<nat>, mapping: seq<int>, oob: map<nat, nat>,
                        valid: set<nat>, block: nat, newBlock: nat, ppb: nat)
  {
    && |mapping| == |map0|
    && (forall l: nat :: l < |map0| ==>
          if InBlock(map0, oob0, valid0, block, ppb, l) then InBlock(mapping, oob, valid, newBlock, ppb, l)
          else mapping[l] == map0[l])
    && (forall l: nat, k: nat ::
          l < k < |map0| && InBlock(map0, oob0, valid0, block, ppb, l) ==>
            InBlock(map0, oob0, valid0, block, ppb, k) ==> mapping[l] < mapping[k])
    && (forall a :: !(newBlock <= a < newBlock + ppb) ==>
          (a in valid <==> a in valid0 && !(block <= a < block + ppb)))
    && Clear(valid, block, ppb)
  }

  /** The result of the two passes on the pages of a victim, none of which is dropped. */
  ghost predicate Passed(map0: seq<int>, oob0: map<nat, nat>, s: seq<Sram>, newBlock: nat, mapping: seq<int>,
                         oob: map<nat, nat>)
  {
    && |mapping| == |map0|
    && (forall i :: 0 <= i < |s| ==> s[i].lpa < |mapping| && mapping[s[i].lpa] == newBlock + i)
    && (forall a: nat :: newBlock <= a < newBlock + |s| ==> a in oob && oob[a] == s[a - newBlock].lpa)
    && (forall l: nat :: l < |mapping| && !Holds(s, l) ==> mapping[l] == map0[l])
    && (forall a :: a in oob && !(newBlock <= a < newBlock + |s|) ==> a in oob0 && oob[a] == oob0[a])
    && forall a :: a in oob0 ==> a in oob
  }

  ghost predicate Holds(s: seq<Sram>, l: nat) { exists i :: 0 <= i < |s| && s[i].lpa == l }

  /** A logical page is among the victim's pages exactly when it is in the block. */
  lemma HoldsIs(map0: seq<int>, oob0: map<nat, nat>, valid0: set<nat>, block: nat, ppb: nat, s: seq<Sram>, l: nat)
    requires Victim(map0, oob0, valid0, block, ppb, s) && l < |map0|
    ensures Holds(s, l) <==> InBlock(map0, oob0, valid0, block, ppb, l)
  {
    if InBlock(map0, oob0, valid0, block, ppb, l) {
      assert Includes(s, map0[l]);
      var i :| 0 <= i < |s| && s[i].origin == map0[l];
      assert s[i].lpa == l;
    }
  }

  lemma CollectedNamed(map0: seq<int>, oob0: map<nat, nat>, valid0: set<nat>, block: nat, newBlock: nat, ppb: nat,
                       s: seq<Sram>, mapping: seq<int>, oob: map<nat, nat>, valid: set<nat>)
    requires Named(map0, oob0, valid0) && Victim(map0, oob0, valid0, block, ppb, s)
    requires block + ppb <= newBlock || newBlock + ppb <= block
    requires Passed(map0, oob0, s, newBlock, mapping, oob)
    requires forall a :: a in valid <==>
      (a in valid0 && !(block <= a < block + ppb)) || newBlock <= a < newBlock + |s|
    ensures Named(mapping, oob, valid)
  {
    forall a | a in valid ensures a in oob && oob[a] < |mapping| && mapping[oob[a]] == a {
      if newBlock <= a < newBlock + |s| {
        assert mapping[s[a - newBlock].lpa] == newBlock + (a - newBlock);
      } else {
        assert a in valid0 && oob[a] == oob0[a];
        HoldsIs(map0, oob0, valid0, block, ppb, s, oob[a]);
      }
    }
  }

  lemma CollectedEntry(map0: seq<int>, oob0: map<nat, nat>, valid0: set<nat>, block: nat, newBlock: nat, ppb: nat,
                       s: seq<Sram>, mapping: seq<int>, oob: map<nat, nat>, valid: set<nat>, l: nat)
    requires Victim(map0, oob0, valid0, block, ppb, s) && l < |map0| && Passed(map0, oob0, s, newBlock, mapping, oob)
    requires forall a :: newBlock <= a < newBlock + |s| ==> a in valid
    ensures if InBlock(map0, oob0, valid0, block, ppb, l) then InBlock(mapping, oob, valid, newBlock, ppb, l)
            else mapping[l] == map0[l]
  {
    HoldsIs(map0, oob0, valid0, block, ppb, s, l);
    if Holds(s, l) {
      var i :| 0 <= i < |s| && s[i].lpa == l;
      assert mapping[l] == newBlock + i;
    }
  }

  lemma CollectedOrder(map0: seq<int>, oob0: map<nat, nat>, valid0: set<nat>, block: nat, newBlock: nat, ppb: nat,
                       s: seq<Sram>, mapping: seq<int>, oob: map<nat, nat>, l: nat, k: nat)
    requires Victim(map0, oob0, valid0, block, ppb, s) && Ascending(s) && Passed(map0, oob0, s, newBlock, mapping, oob)
    requires l < k < |map0| && InBlock(map0, oob0, valid0, block, ppb, l) && InBlock(map0, oob0, valid0, block, ppb, k)
    ensures mapping[l] < mapping[k]
  {
    hide Victim, InBlock;
    HoldsIs(map0, oob0, valid0, block, ppb, s, l);
    HoldsIs(map0, oob0, valid0, block, ppb, s, k);
    var i :| 0 <= i < |s| && s[i].lpa == l;
    var j :| 0 <= j < |s| && s[j].lpa == k;
    assert i < j;
  }

  lemma CollectedMoved(map0: seq<int>, oob0: map<nat, nat>, valid0: set<nat>, block: nat, newBlock: nat, ppb: nat,
                       s: seq<Sram>, mapping: seq<int>, oob: map<nat, nat>, valid: set<nat>)
    requires Victim(map0, oob0, valid0, block, ppb, s) && Ascending(s) && |s| <= ppb
    requires block + ppb <= newBlock || newBlock + ppb <= block
    requires Passed(map0, oob0, s, newBlock, mapping, oob) && |mapping| == |map0|
    requires forall a :: a in valid <==>
      (a in valid0 && !(block <= a < block + ppb)) || newBlock <= a < newBlock + |s|
    ensures Moved(map0, oob0, valid0, mapping, oob, valid, block, newBlock, ppb)
  {
    hide Victim, Passed, Ascending, InBlock;
    forall l: nat | l < |map0|
      ensures if InBlock(map0, oob0, valid0, block, ppb, l) then InBlock(mapping, oob, valid, newBlock, ppb, l)
              else mapping[l] == map0[l]
    {
      CollectedEntry(map0, oob0, valid0, block, newBlock, ppb, s, mapping, oob, valid, l);
    }
    forall l: nat, k: nat | l < k < |map0| && InBlock(map0, oob0, valid0, block, ppb, l)
                            && InBlock(map0, oob0, valid0, block, ppb, k)
      ensures mapping[l] < mapping[k]
    {
      CollectedOrder(map0, oob0, valid0, block, newBlock, ppb, s, mapping, oob, l, k);
    }
  }

  /** If the new block was clear, every mapped page is still on a valid page that names it. */
  lemma CollectedMapped(map0: seq<int>, oob0: map<nat, nat>, valid0: set<nat>, block: nat, newBlock: nat, ppb: nat,
                        mapping: seq<int>, oob: map<nat, nat>, valid: set<nat>)
    requires Mapped(map0, oob0, valid0) && Clear(valid0, newBlock, ppb)
    requires Moved(map0, oob0, valid0, mapping, oob, valid, block, newBlock, ppb)
    requires forall a :: a in oob && !(newBlock <= a < newBlock + ppb) ==> a in oob0 && oob[a] == oob0[a]
    requires forall a :: a in oob0 ==> a in oob
    ensures Mapped(mapping, oob, valid)
  {
    forall l: nat | l < |mapping| && mapping[l] != -1 ensures Names(oob, valid, mapping[l], l) {
      if !InBlock(map0, oob0, valid0, block, ppb, l) { assert mapping[l] == map0[l]; }
    }
  }

  /** Table d maps a valid page of the block. */
  ghost predicate HoldsTable(oob: map<nat, nat>, valid: set<nat>, block: nat, ppb: nat, d: nat) {
    exists a :: a in valid && block <= a < block + ppb && a in oob && Table(oob[a]) == d
  }

  /** With nothing dropped, the tables made dirty are the cached ones touched. */
  lemma DirtiedAll(s: seq<Sram>, cached: seq<bool>, dirty0: seq<bool>, dirty: seq<bool>)
    requires Dirtied(s, |s|, cached, dirty0, dirty) && forall i :: 0 <= i < |s| ==> !s[i].dropped
    ensures |dirty| == |dirty0| == |cached|
    ensures forall d: nat :: d < |cached| ==> (dirty[d] <==> dirty0[d] || (cached[d] && Touched(s, |s|, d)))
  {
    hide Table;
    forall d: nat ensures KeptIn(s, |s|, d) <==> Touched(s, |s|, d) {}
  }

  lemma TouchedIs(map0: seq<int>, oob0: map<nat, nat>, valid0: set<nat>, block: nat, ppb: nat, s0: seq<Sram>,
                  s: seq<Sram>, d: nat)
    requires Victim(map0, oob0, valid0, block, ppb, s0) && |s| == |s0|
    requires forall i :: 0 <= i < |s| ==> s[i] == s0[i].(dropped := s[i].dropped)
    ensures Touched(s, |s|, d) <==> HoldsTable(oob0, valid0, block, ppb, d)
  {
    hide Table;
    if Touched(s, |s|, d) {
      var i :| 0 <= i < |s| && Table(s[i].lpa) == d;
      assert Table(oob0[s0[i].origin]) == d;
    }
    if HoldsTable(oob0, valid0, block, ppb, d) {
      var a :| a in valid0 && block <= a < block + ppb && a in oob0 && Table(oob0[a]) == d;
      assert Includes(s0, a);
      var i :| 0 <= i < |s0| && s0[i].origin == a;
      assert Table(s[i].lpa) == d;
    }
  }
}

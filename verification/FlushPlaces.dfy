/**
 Conservation in the flush: every write-buffer entry is in exactly one place, whatever the
 order in which the device completes requests.
 */
module FlushPlaces {
  import opened Sequences
  import opened KeyOrder
  import opened FlushSpec

  ghost function Count(q: seq<nat>, e: nat): nat {
    if q == [] then 0 else (if q[0] == e then 1 else 0) + Count(q[1..], e)
  }

  lemma {:induction false} CountMember(q: seq<nat>, e: nat)
    ensures Count(q, e) > 0 <==> e in q
  {
    if q != [] {
      assert q == [q[0]] + q[1..];
      CountMember(q[1..], e);
    }
  }

  lemma {:induction false} CountConcat(a: seq<nat>, b: seq<nat>, e: nat)
    ensures Count(a + b, e) == Count(a, e) + Count(b, e)
  {
    if a == [] {
      assert a + b == b;
    } else {
      assert (a + b)[1..] == a[1..] + b;
      CountConcat(a[1..], b, e);
    }
  }

  lemma CountAppend(a: seq<nat>, x: nat, e: nat)
    ensures Count(a + [x], e) == Count(a, e) + if x == e then 1 else 0
  {
    CountConcat(a, [x], e);
    assert Count([x], e) == (if x == e then 1 else 0) + Count([x][1..], e);
  }

  /** How often e is parked, over all translation pages. */
  ghost function Parked(cmt: seq<Cmt>, e: nat): nat {
    if cmt == [] then 0 else Count(cmt[0].retryQ, e) + Parked(cmt[1..], e)
  }

  lemma {:induction false} ParkedUpdate(cmt: seq<Cmt>, p: nat, c: Cmt, e: nat)
    requires p < |cmt|
    ensures Parked(cmt[p := c], e) == Parked(cmt, e) - Count(cmt[p].retryQ, e) + Count(c.retryQ, e)
    ensures Count(cmt[p].retryQ, e) <= Parked(cmt, e)
  {
    if p == 0 {
      assert cmt[0 := c][1..] == cmt[1..];
    } else {
      assert cmt[p := c][1..] == cmt[1..][p - 1 := c];
      ParkedUpdate(cmt[1..], p - 1, c, e);
    }
  }

  lemma {:induction false} ParkedWitness(cmt: seq<Cmt>, e: nat) returns (p: nat)
    requires Parked(cmt, e) > 0
    ensures p < |cmt| && e in cmt[p].retryQ
  {
    CountMember(cmt[0].retryQ, e);
    if e in cmt[0].retryQ { p := 0; } else {
      var q := ParkedWitness(cmt[1..], e);
      p := q + 1;
    }
  }

  /** How many places outside the pages' queues entry e is in: two queues, the hand, the device, finished. */
  ghost function AtWork(w: Work, e: nat): nat {
    Count(w.master, e) + Count(w.retry, e)
    + (if w.hand == Holding(e) then 1 else 0) + (if e in w.out then 1 else 0) + (if e in w.done then 1 else 0)
  }

  ghost function Places(s: State, e: nat): nat { AtWork(s.w, e) + Parked(s.c.cmt, e) }

  /** Every entry is in exactly one place. */
  ghost predicate Placed(v: Env, s: State) {
    forall e: nat :: Places(s, e) == if e < |v.buf| then 1 else 0
  }

  lemma HandAlone(v: Env, s: State, e: nat)
    requires Placed(v, s) && s.w.hand == Holding(e)
    ensures e < |v.buf| && e !in s.w.master && e !in s.w.retry && e !in s.w.out && e !in s.w.done
    ensures forall q :: 0 <= q < |s.c.cmt| ==> e !in s.c.cmt[q].retryQ
  {
    assert Places(s, e) >= 1;
    CountMember(s.w.master, e);
    CountMember(s.w.retry, e);
    forall q | 0 <= q < |s.c.cmt| ensures e !in s.c.cmt[q].retryQ {
      ParkedUpdate(s.c.cmt, q, s.c.cmt[q], e);
      CountMember(s.c.cmt[q].retryQ, e);
    }
  }

  lemma ParkedAlone(v: Env, s: State, p: nat, e: nat)
    requires Placed(v, s) && p < |s.c.cmt| && e in s.c.cmt[p].retryQ
    ensures e < |v.buf| && AtWork(s.w, e) == 0
    ensures e !in s.w.master && e !in s.w.retry && e !in s.w.out && e !in s.w.done && s.w.hand != Holding(e)
    ensures forall q :: 0 <= q < |s.c.cmt| && e in s.c.cmt[q].retryQ ==> q == p
  {
    ParkedUpdate(s.c.cmt, p, s.c.cmt[p].(retryQ := []), e);
    CountMember(s.c.cmt[p].retryQ, e);
    CountMember(s.w.master, e);
    CountMember(s.w.retry, e);
    assert Places(s, e) >= 1;
    forall q | 0 <= q < |s.c.cmt| && q != p ensures e !in s.c.cmt[q].retryQ {
      var c := s.c.cmt[p := s.c.cmt[p].(retryQ := [])];
      ParkedUpdate(c, q, c[q], e);
      CountMember(c[q].retryQ, e);
    }
  }

  // ---------------------------------------------------------------- each step conserves the places

  lemma IssueConserves(w: Work, e: nat, req: Req, j: Jump, x: nat)
    requires e < |w.jump| && w.hand == Holding(e) && e !in w.out
    ensures AtWork(Issue(w, e, req, j), x) == AtWork(w, x)
  {
  }

  lemma StoreConserves(v: Env, s: State, e: nat, x: nat)
    requires Ready(v, s, e) && s.w.hand == Holding(e) && e !in s.w.done
    ensures Places(Store(v, s, e), x) == Places(s, x)
  {
    hide Count;
    var p := PageOf(v, s.w, e);
    ParkedUpdate(s.c.cmt, p, s.c.cmt[p].(dirty := true), x);
  }

  lemma DataCheckConserves(v: Env, s: State, e: nat, x: nat)
    requires Ready(v, s, e) && s.w.hand == Holding(e) && e !in s.w.done && e !in s.w.out
    ensures Places(DataCheck(v, s, e), x) == Places(s, x)
  {
    hide Count, Parked, Store;
    if SlotOf(v, s.w, e) !in s.t.slot { StoreConserves(v, s, e, x); }
  }

  /** cg_list_up alone, before the data check. */
  lemma ListedConserves(v: Env, s: State, e: nat, x: nat)
    requires Shape(v, s) && s.w.hand == Holding(e) && e !in s.w.done && e !in s.w.out
    ensures var p := PageOf(v, s.w, e);
            Places(State(s.t, ListedCache(v, s.c, p), ListedWork(v, s, e, p)), x) == Places(s, x)
  {
    hide Count, Parked;
    var p := PageOf(v, s.w, e);
    var c1 := if Full(v, s.c) then Evict(s.c) else s.c;
    if Full(v, s.c) { ParkedUpdate(s.c.cmt, Victim(s.c), c1.cmt[Victim(s.c)], x); }
    ParkedUpdate(c1.cmt, p, Admit(c1, p).cmt[p], x);
    CountConcat(s.w.retry, s.c.cmt[p].retryQ, x);
    EmptyCount(x);
  }

  lemma ListUpConserves(v: Env, s: State, e: nat, x: nat)
    requires Shape(v, s) && s.w.hand == Holding(e) && e !in s.w.done && e !in s.w.out
    ensures Places(ListUp(v, s, e), x) == Places(s, x)
  {
    hide AtWork, Parked, DataCheck;
    var p := PageOf(v, s.w, e);
    ListedConserves(v, s, e, x);
    if !DirtyEvict(v, s.c) {
      DataCheckConserves(v, State(s.t, ListedCache(v, s.c, p), ListedWork(v, s, e, p)), e, x);
    }
  }

  lemma EmptyCount(x: nat)
    ensures Count([], x) == 0
  {
  }

  lemma MissConserves(v: Env, s: State, e: nat, x: nat)
    requires Shape(v, s) && s.w.hand == Holding(e) && e !in s.w.done && e !in s.w.out
    ensures Places(Miss(v, s, e), x) == Places(s, x)
  {
    hide Count, Parked, ListUp;
    var p := PageOf(v, s.w, e);
    var c := s.c.cmt[p];
    ParkedUpdate(s.c.cmt, p, c.(retryQ := c.retryQ + [e]), x);
    ParkedUpdate(s.c.cmt, p, c.(flying := true), x);
    CountAppend(c.retryQ, e, x);
    ListUpConserves(v, s, e, x);
  }

  lemma ProbeConserves(v: Env, s: State, x: nat)
    requires Shape(v, s) && Placed(v, s) && s.w.hand.Holding?
    ensures Places(Probe(v, s), x) == Places(s, x)
  {
    hide Count, Parked, ListUp, DataCheck, Miss, Store;
    var e := s.w.hand.e;
    HandAlone(v, s, e);
    var p := PageOf(v, s.w, e);
    var s1 := s.(w := s.w.(jump := s.w.jump[e := NoJump]));
    assert Places(s1, x) == Places(s, x);
    match s.w.jump[e]
    case GotoList => ListUpConserves(v, s1, e, x);
    case GotoComplete => DataCheckConserves(v, s1, e, x);
    case GotoUpdate =>
      var lpa := SlotOf(v, s1.w, e);
      StoreConserves(v, s1, e, x);
      if lpa in s1.t.slot { StoreConserves(v, s1.(t := s1.t.(valid := s1.t.valid - {s1.t.slot[lpa]})), e, x); }
    case NoJump =>
      DataCheckConserves(v, s1.(c := s1.c.(lru := ToFront(s1.c.lru, p))), e, x);
      MissConserves(v, s1, e, x);
  }

  lemma CompleteConserves(v: Env, w: Work, e: nat, x: nat)
    requires WorkShape(v, w) && e in w.out
    ensures AtWork(Complete(v, w, e), x) == AtWork(w, x)
  {
    hide Count;
    CountAppend(w.retry, e, x);
    CountAppend(w.master, e, x);
  }

  /** Every step moves entries between places without losing or copying one. */
  lemma StepConserves(v: Env, s: State, r: State)
    requires Placed(v, s) && Next(v, s, r)
    ensures Placed(v, r)
  {
    hide AtWork, Parked, Probe, Complete;
    forall x: nat ensures Places(r, x) == Places(s, x) {
      if s.w.hand.Empty? && r == Take(s) {
        TakeConserves(s, x);
      } else if s.w.hand.Holding? && r == Probe(v, s) {
        ProbeConserves(v, s, x);
      } else {
        var e :| e in s.w.out && r == s.(w := Complete(v, s.w, e));
        CompleteConserves(v, s.w, e, x);
      }
    }
  }

  lemma TakeConserves(s: State, x: nat)
    requires s.w.hand.Empty?
    ensures Places(Take(s), x) == Places(s, x)
  {
  }

  lemma {:induction false} CountIndices(n: nat, e: nat)
    ensures Count(seq(n, i => i), e) == if e < n then 1 else 0
  {
    if n > 0 {
      assert seq(n, i => i) == seq(n - 1, i => i) + [n - 1];
      CountAppend(seq(n - 1, i => i), n - 1, e);
      CountIndices(n - 1, e);
    }
  }

  lemma {:induction false} NothingParked(cmt: seq<Cmt>, e: nat)
    requires forall p :: 0 <= p < |cmt| ==> cmt[p].retryQ == []
    ensures Parked(cmt, e) == 0
  {
    if cmt != [] { NothingParked(cmt[1..], e); }
  }

  lemma StartPlaced(v: Env, s: State)
    requires Start(v, s)
    ensures Placed(v, s)
  {
    forall e: nat ensures Places(s, e) == if e < |v.buf| then 1 else 0 {
      NothingParked(s.c.cmt, e);
      CountIndices(|v.buf|, e);
    }
  }

  // ---------------------------------------------------------------- consequences

  ghost function Elements(q: seq<nat>): set<nat> { set i | 0 <= i < |q| :: q[i] }

  lemma {:induction false} Distinct(q: seq<nat>, n: nat)
    requires forall e: nat :: Count(q, e) <= if e < n then 1 else 0
    ensures |Elements(q)| == |q|
    ensures forall x :: x in Elements(q) ==> x < n
  {
    if q != [] {
      var t := q[1..];
      forall e: nat ensures Count(t, e) <= if e < n then 1 else 0 {
        assert Count(t, e) <= Count(q, e);
      }
      Distinct(t, n);
      assert q == [q[0]] + t;
      assert Elements(q) == {q[0]} + Elements(t);
      assert Count(q, q[0]) <= 1;
      CountMember(t, q[0]);
    }
  }

  lemma {:induction false} BoundedSet(d: set<nat>, n: nat)
    requires forall x :: x in d ==> x < n
    ensures |d| <= n
  {
    if n == 0 { assert d == {}; } else { BoundedSet(d - {n - 1}, n - 1); }
  }

  /** A set of at least n numbers below n holds them all. */
  lemma {:induction false} FullSet(d: set<nat>, n: nat)
    requires forall x :: x in d ==> x < n
    requires |d| >= n
    ensures forall e: nat :: e < n ==> e in d
    decreases n
  {
    if n > 0 {
      var d' := d - {n - 1};
      BoundedSet(d', n - 1);
      assert n - 1 !in d ==> d' == d;
      assert n - 1 in d;
      FullSet(d', n - 1);
      forall e: nat | e < n ensures e in d {
        assert e < n - 1 ==> e in d';
      }
    }
  }

  lemma FewEntries(q: seq<nat>, n: nat)
    requires forall e: nat :: Count(q, e) <= if e < n then 1 else 0
    ensures |q| <= n
  {
    Distinct(q, n);
    BoundedSet(Elements(q), n);
  }

  /** No queue ever holds more than wb_flush_size entries, the size each was created with. */
  lemma QueuesFit(v: Env, s: State, p: nat)
    requires Placed(v, s) && p < |s.c.cmt|
    ensures |s.w.master| <= |v.buf| && |s.w.retry| <= |v.buf| && |s.c.cmt[p].retryQ| <= |v.buf|
  {
    forall e: nat
      ensures Count(s.w.master, e) <= Places(s, e) && Count(s.w.retry, e) <= Places(s, e)
      ensures Count(s.c.cmt[p].retryQ, e) <= Places(s, e)
    {
      ParkedUpdate(s.c.cmt, p, s.c.cmt[p], e);
    }
    FewEntries(s.w.master, |v.buf|);
    FewEntries(s.w.retry, |v.buf|);
    FewEntries(s.c.cmt[p].retryQ, |v.buf|);
  }

  lemma AllZero(q: seq<nat>)
    requires forall e: nat :: Count(q, e) == 0
    ensures q == []
  {
    if q != [] { assert Count(q, q[0]) > 0; assert false; }
  }

  /** Once `updated` reaches wb_flush_size nothing is left anywhere: the abort after the loop is dead code. */
  lemma NothingLeftOver(v: Env, s: State)
    requires Placed(v, s) && |s.w.done| >= |v.buf|
    ensures s.w.master == [] && s.w.retry == [] && s.w.hand == Empty && s.w.out == map[]
    ensures forall p :: 0 <= p < |s.c.cmt| ==> s.c.cmt[p].retryQ == []
    ensures forall e: nat :: e in s.w.done <==> e < |v.buf|
  {
    forall x: nat | x in s.w.done ensures x < |v.buf| {
      assert Places(s, x) >= 1;
    }
    FullSet(s.w.done, |v.buf|);
    forall e: nat
      ensures Count(s.w.master, e) == 0 && Count(s.w.retry, e) == 0 && Parked(s.c.cmt, e) == 0
      ensures s.w.hand != Holding(e) && e !in s.w.out
    {
      assert Places(s, e) == if e < |v.buf| then 1 else 0;
    }
    AllZero(s.w.master);
    AllZero(s.w.retry);
    forall p | 0 <= p < |s.c.cmt| ensures s.c.cmt[p].retryQ == [] {
      forall e: nat ensures Count(s.c.cmt[p].retryQ, e) == 0 {
        ParkedUpdate(s.c.cmt, p, s.c.cmt[p], e);
      }
      AllZero(s.c.cmt[p].retryQ);
    }
  }
}

/**
 Control invariants of the flush: what an entry's recorded jump says about where it is, who
 is loading a page in flight, and the LRU list; from these, a flush is never stuck.
 */
module FlushControl {
  import opened Sequences
  import opened KeyOrder
  import opened FlushSpec
  import opened FlushPlaces

  // ---------------------------------------------------------------- shapes are kept

  lemma StoreShape(v: Env, s: State, e: nat)
    requires Shape(v, s) && e < |v.buf|
    ensures Shape(v, Store(v, s, e))
  {
    hide Without;
    var p := PageOf(v, s.w, e);
    WithoutAll(s.c.lru, p, v.pages);
    assert CacheShape(v, Touch(s.c, p));
  }

  lemma {:induction false} WithoutAll(q: seq<nat>, p: nat, n: nat)
    requires All(q, n)
    ensures All(Without(q, p), n)
  {
    if q != [] { WithoutAll(q[1..], p, n); }
  }

  /** The LRU list holds exactly the cached pages, once each; only cached pages are dirty. */
  ghost predicate LruOk(c: Cache) {
    && NoDup(c.lru)
    && (forall p: nat :: p in c.lru <==> p < |c.cmt| && c.cmt[p].cached)
    && (forall p :: 0 <= p < |c.cmt| && c.cmt[p].dirty ==> c.cmt[p].cached)
  }

  lemma ToFrontOk(c: Cache, p: nat)
    requires LruOk(c) && p < |c.cmt| && c.cmt[p].cached
    ensures LruOk(c.(lru := ToFront(c.lru, p)))
    ensures |ToFront(c.lru, p)| == |c.lru|
  {
    WithoutIs(c.lru, p);
  }

  lemma TouchOk(c: Cache, p: nat)
    requires LruOk(c) && p < |c.cmt|
    ensures LruOk(Touch(c, p)) && |Touch(c, p).lru| == |c.lru|
  {
    if c.cmt[p].cached {
      ToFrontOk(c, p);
      var r := Touch(c, p);
      assert forall q :: 0 <= q < |c.cmt| ==> r.cmt[q].cached == c.cmt[q].cached;
    }
  }

  lemma EvictOk(c: Cache)
    requires LruOk(c) && |c.lru| > 0
    ensures Victim(c) < |c.cmt| && LruOk(Evict(c))
  {
    var l := c.lru;
    var n := |l| - 1;
    assert l == l[..n] + [l[n]];
    assert l[n] in l;
    assert l[n] !in l[..n];
    forall p: nat ensures p in l[..n] <==> p in l && p != l[n] {
    }
  }

  lemma AdmitOk(c: Cache, p: nat)
    requires LruOk(c) && p < |c.cmt| && !c.cmt[p].cached
    ensures LruOk(Admit(c, p))
  {
  }

  lemma ListedOk(v: Env, c: Cache, p: nat)
    requires EnvOk(v) && CacheShape(v, c) && LruOk(c) && p < v.pages && !c.cmt[p].cached && |c.lru| <= v.maxCached
    ensures LruOk(ListedCache(v, c, p)) && CacheShape(v, ListedCache(v, c, p))
    ensures |ListedCache(v, c, p).lru| <= v.maxCached
  {
    if Full(v, c) { EvictOk(c); }
    AdmitOk(if Full(v, c) then Evict(c) else c, p);
  }

  // ---------------------------------------------------------------- what is read and written

  /** A page in flight is on flash. */
  ghost predicate FlyingOnFlash(c: Cache) { forall p :: 0 <= p < |c.cmt| && c.cmt[p].flying ==> c.cmt[p].hasTppa }

  /** A dirty page has left the cache. */
  ghost predicate DirtyLeft(c: Cache, d: Cache)
    requires |d.cmt| == |c.cmt|
  {
    exists q :: 0 <= q < |c.cmt| && c.cmt[q].dirty && !d.cmt[q].cached
  }

  /** A page has been sent for. */
  ghost predicate Departs(c: Cache, d: Cache)
    requires |d.cmt| == |c.cmt|
  {
    exists q :: 0 <= q < |c.cmt| && !c.cmt[q].flying && d.cmt[q].flying
  }

  /** Which pages may have entered the cache: those that were in flight, and those never written. */
  ghost predicate Enters(c: Cache, d: Cache)
    requires |d.cmt| == |c.cmt|
  {
    forall q :: 0 <= q < |c.cmt| && !c.cmt[q].cached && d.cmt[q].cached ==> (c.cmt[q].hasTppa <==> c.cmt[q].flying)
  }

  lemma ListedIsRight(v: Env, c: Cache, p: nat)
    requires EnvOk(v) && |c.cmt| == v.pages && All(c.lru, v.pages) && p < v.pages && LruOk(c) && FlyingOnFlash(c)
    requires !c.cmt[p].cached && (c.cmt[p].hasTppa <==> c.cmt[p].flying)
    ensures var d := ListedCache(v, c, p);
            && |d.cmt| == |c.cmt| && FlyingOnFlash(d) && Enters(c, d) && !Departs(c, d)
            && (DirtyEvict(v, c) <==> DirtyLeft(c, d))
  {
    var d := ListedCache(v, c, p);
    if DirtyEvict(v, c) {
      assert c.lru[|c.lru| - 1] in c.lru;
      assert c.cmt[Victim(c)].dirty && !d.cmt[Victim(c)].cached;
    }
  }

  // ---------------------------------------------------------------- jumps and loaders

  ghost predicate JumpsOk(v: Env, w: Work, cmt: seq<Cmt>)
    requires EnvOk(v) && WorkShape(v, w)
  {
    && (forall i :: 0 <= i < |w.master| ==> w.jump[w.master[i]] == NoJump)
    && (forall e :: e in w.out ==>
          w.jump[e] == match w.out[e] case DataRead(_) => NoJump case MapRead => GotoList case MapWrite => GotoComplete)
    && (forall p, i :: 0 <= p < |cmt| && 0 <= i < |cmt[p].retryQ| ==> ParkedAt(v, w, cmt[p].retryQ[i], p))
  }

  ghost predicate ParkedAt(v: Env, w: Work, e: nat, p: int)
    requires EnvOk(v) && WorkShape(v, w)
  {
    e < |v.buf| && w.jump[e] == NoJump && PageOf(v, w, e) == p
  }

  ghost predicate Loader(v: Env, w: Work, e: nat, p: int)
    requires EnvOk(v) && WorkShape(v, w)
  {
    e < |v.buf| && w.jump[e] == GotoList && PageOf(v, w, e) == p
  }

  /** A page in flight is not cached and has exactly one loader; x is exempt and has none. */
  ghost predicate LoadsOk(v: Env, w: Work, cmt: seq<Cmt>, x: int)
    requires EnvOk(v) && WorkShape(v, w)
  {
    && (forall p :: 0 <= p < |cmt| ==> (cmt[p].flying ==> !cmt[p].cached) && (!cmt[p].flying ==> cmt[p].retryQ == []))
    && (forall p :: 0 <= p < |cmt| && p != x && cmt[p].flying ==> exists e :: Loader(v, w, e, p))
    && (forall e, p :: Loader(v, w, e, p) ==> 0 <= p < |cmt| && p != x && cmt[p].flying)
    && (forall e, f, p :: Loader(v, w, e, p) && Loader(v, w, f, p) ==> e == f)
  }

  ghost predicate DoneHasNoJump(v: Env, w: Work)
    requires WorkShape(v, w)
  {
    forall e :: e in w.done ==> w.jump[e] == NoJump
  }

  ghost predicate Control(v: Env, s: State, x: int) {
    && Shape(v, s) && Placed(v, s) && LruOk(s.c) && |s.c.lru| <= v.maxCached
    && JumpsOk(v, s.w, s.c.cmt) && LoadsOk(v, s.w, s.c.cmt, x) && DoneHasNoJump(v, s.w)
  }

  /** The entry in hand has no jump recorded any more. */
  ghost predicate Probing(v: Env, s: State, e: nat, x: int) {
    Control(v, s, x) && s.w.hand == Holding(e) && s.w.jump[e] == NoJump
  }

  /** Steps that only move the entry in hand leave every loader and every parked entry alone. */
  lemma HandFrame(v: Env, s: State, e: nat, w: Work, cmt: seq<Cmt>)
    requires Probing(v, s, e, -1)
    requires WorkShape(v, w) && |cmt| == |s.c.cmt|
    requires forall p :: 0 <= p < |cmt| ==>
      cmt[p].flying == s.c.cmt[p].flying && cmt[p].cached == s.c.cmt[p].cached && cmt[p].retryQ == s.c.cmt[p].retryQ
    requires w.jump == s.w.jump && w.master == s.w.master
    requires forall i :: 0 <= i < |w.cnt| && i != e ==> w.cnt[i] == s.w.cnt[i]
    requires forall i :: i in w.out ==> (i in s.w.out && w.out[i] == s.w.out[i]) || (i == e && w.out[i].DataRead?)
    ensures JumpsOk(v, w, cmt) && LoadsOk(v, w, cmt, -1)
  {
    HandAlone(v, s, e);
    forall p, i | 0 <= p < |cmt| && 0 <= i < |cmt[p].retryQ| ensures ParkedAt(v, w, cmt[p].retryQ[i], p) {
      assert ParkedAt(v, s.w, s.c.cmt[p].retryQ[i], p);
      assert cmt[p].retryQ[i] in s.c.cmt[p].retryQ;
    }
    forall f, p ensures Loader(v, w, f, p) == Loader(v, s.w, f, p) { }
  }

  lemma StoreControl(v: Env, s: State, e: nat)
    requires Probing(v, s, e, -1)
    ensures Control(v, Store(v, s, e), -1)
  {
    var r := Store(v, s, e);
    var p := PageOf(v, s.w, e);
    HandAlone(v, s, e);
    StoreShape(v, s, e);
    TouchOk(s.c, p);
    HandFrame(v, s, e, r.w, r.c.cmt);
    forall x: nat ensures Places(r, x) == Places(s, x) { StoreConserves(v, s, e, x); }
  }

  lemma DataCheckControl(v: Env, s: State, e: nat)
    requires Probing(v, s, e, -1)
    ensures Control(v, DataCheck(v, s, e), -1)
  {
    hide Store, Places, LoadsOk, JumpsOk, LruOk;
    HandAlone(v, s, e);
    if SlotOf(v, s.w, e) !in s.t.slot {
      StoreControl(v, s, e);
    } else {
      var r := DataCheck(v, s, e);
      HandFrame(v, s, e, r.w, r.c.cmt);
      forall x: nat ensures Places(r, x) == Places(s, x) { DataCheckConserves(v, s, e, x); }
    }
  }

  lemma {:induction false} SetJumpsAt(jump: seq<Jump>, es: seq<nat>, j: Jump)
    requires All(es, |jump|)
    ensures forall e :: 0 <= e < |jump| ==> SetJumps(jump, es, j)[e] == if e in es then j else jump[e]
    decreases |es|
  {
    if es != [] {
      assert es == [es[0]] + es[1..];
      SetJumpsAt(jump[es[0] := j], es[1..], j);
    }
  }

  ghost function Listed(v: Env, s: State, e: nat): State
    requires Shape(v, s) && s.w.hand == Holding(e)
  {
    var p := PageOf(v, s.w, e);
    State(s.t, ListedCache(v, s.c, p), ListedWork(v, s, e, p))
  }

  /** What cg_list_up does to the jumps and to the pages. */
  lemma ListedEffect(v: Env, s: State, e: nat)
    requires Shape(v, s) && s.w.hand == Holding(e) && Probing(v, s, e, PageOf(v, s.w, e))
    requires !s.c.cmt[PageOf(v, s.w, e)].cached
    ensures var p := PageOf(v, s.w, e); var q := s.c.cmt[p].retryQ; var r := Listed(v, s, e);
            && Shape(v, r)
            && (forall x :: 0 <= x < |v.buf| ==>
                  r.w.jump[x] == if x in q || (x == e && DirtyEvict(v, s.c)) then GotoComplete else s.w.jump[x])
            && (forall x :: 0 <= x < v.pages && x != p ==>
                  r.c.cmt[x].retryQ == s.c.cmt[x].retryQ && r.c.cmt[x].flying == s.c.cmt[x].flying
                  && (r.c.cmt[x].cached ==> s.c.cmt[x].cached))
            && !r.c.cmt[p].flying && r.c.cmt[p].retryQ == []
  {
    hide LruOk, Placed, JumpsOk;
    var p := PageOf(v, s.w, e);
    var q := s.c.cmt[p].retryQ;
    assert CacheShape(v, Listed(v, s, e).c) by { ListedOk(v, s.c, p); }
    SetJumpsAt(s.w.jump, q, GotoComplete);
    SetJumpsAt(s.w.jump[e := GotoComplete], q, GotoComplete);
  }

  lemma ParkedFacts(v: Env, s: State, e: nat, p: nat, x: nat)
    requires Probing(v, s, e, p) && p < v.pages && x in s.c.cmt[p].retryQ
    ensures x !in s.w.master && x !in s.w.out && x !in s.w.done && x != e && s.w.jump[x] == NoJump
    ensures forall q :: 0 <= q < |s.c.cmt| && x in s.c.cmt[q].retryQ ==> q == p
  {
    hide LruOk, LoadsOk;
    ParkedAlone(v, s, p, x);
    var i :| 0 <= i < |s.c.cmt[p].retryQ| && s.c.cmt[p].retryQ[i] == x;
    assert ParkedAt(v, s.w, s.c.cmt[p].retryQ[i], p);
  }

  /** cg_list_up for page p: the page is no longer in flight and its waiters have a jump. */
  lemma ListedJumps(v: Env, s: State, e: nat)
    requires Shape(v, s) && s.w.hand == Holding(e) && Probing(v, s, e, PageOf(v, s.w, e))
    requires !s.c.cmt[PageOf(v, s.w, e)].cached
    ensures var r := Listed(v, s, e); Shape(v, r) && JumpsOk(v, r.w, r.c.cmt)
  {
    hide LruOk, Placed, ListedCache, SetJumps, LoadsOk, DoneHasNoJump;
    var p := PageOf(v, s.w, e);
    var r := Listed(v, s, e);
    ListedEffect(v, s, e);
    HandAlone(v, s, e);
    forall x: nat | x in s.c.cmt[p].retryQ ensures x !in s.w.master && x !in s.w.out
      ensures forall q :: 0 <= q < |s.c.cmt| && x in s.c.cmt[q].retryQ ==> q == p
    {
      ParkedFacts(v, s, e, p, x);
    }
    forall a, i | 0 <= a < |r.c.cmt| && 0 <= i < |r.c.cmt[a].retryQ| ensures ParkedAt(v, r.w, r.c.cmt[a].retryQ[i], a) {
      assert ParkedAt(v, s.w, s.c.cmt[a].retryQ[i], a);
      assert s.c.cmt[a].retryQ[i] in s.c.cmt[a].retryQ;
    }
  }

  lemma ListedControl(v: Env, s: State, e: nat)
    requires Shape(v, s) && s.w.hand == Holding(e) && Probing(v, s, e, PageOf(v, s.w, e))
    requires !s.c.cmt[PageOf(v, s.w, e)].cached
    ensures var r := Listed(v, s, e);
            Shape(v, r) && JumpsOk(v, r.w, r.c.cmt) && LoadsOk(v, r.w, r.c.cmt, -1) && DoneHasNoJump(v, r.w)
            && (!DirtyEvict(v, s.c) ==> r.w.jump[e] == NoJump && r.w.hand == s.w.hand)
  {
    hide LruOk, Placed, ListedCache, SetJumps, JumpsOk, LoadsOk, Parked;
    var p := PageOf(v, s.w, e);
    var r := Listed(v, s, e);
    ListedEffect(v, s, e);
    HandAlone(v, s, e);
    forall x: nat | x in s.c.cmt[p].retryQ
      ensures x !in s.w.master && x !in s.w.out && x !in s.w.done && x != e && s.w.jump[x] == NoJump
    {
      ParkedFacts(v, s, e, p, x);
    }
    ListedJumps(v, s, e);
    ListedLoads(v, s, e, r);
  }

  lemma ListedLoads(v: Env, s: State, e: nat, r: State)
    requires Shape(v, s) && s.w.hand == Holding(e) && Probing(v, s, e, PageOf(v, s.w, e)) && WorkShape(v, r.w)
    requires |r.c.cmt| == |s.c.cmt|
    requires r.w.cnt == s.w.cnt && s.w.jump[e] == NoJump && e < |v.buf|
    requires forall x :: 0 <= x < |r.w.jump| ==>
      r.w.jump[x] == s.w.jump[x] || (s.w.jump[x] == NoJump && r.w.jump[x] == GotoComplete)
    requires forall x :: 0 <= x < |s.c.cmt| && x != PageOf(v, s.w, e) ==>
        r.c.cmt[x].retryQ == s.c.cmt[x].retryQ && r.c.cmt[x].flying == s.c.cmt[x].flying
        && (r.c.cmt[x].cached ==> s.c.cmt[x].cached)
    requires !r.c.cmt[PageOf(v, s.w, e)].flying && r.c.cmt[PageOf(v, s.w, e)].retryQ == []
    ensures LoadsOk(v, r.w, r.c.cmt, -1)
  {
    forall f, p ensures Loader(v, r.w, f, p) == Loader(v, s.w, f, p) { }
  }

  lemma ListUpControl(v: Env, s: State, e: nat)
    requires Shape(v, s) && s.w.hand == Holding(e) && Probing(v, s, e, PageOf(v, s.w, e))
    requires !s.c.cmt[PageOf(v, s.w, e)].cached
    ensures Control(v, ListUp(v, s, e), -1)
  {
    hide DataCheck, ListedCache, ListedWork, JumpsOk, LoadsOk, AtWork, Parked;
    HandAlone(v, s, e);
    ListedControl(v, s, e);
    ListedOk(v, s.c, PageOf(v, s.w, e));
    var s1 := Listed(v, s, e);
    forall x: nat ensures Places(s1, x) == Places(s, x) { ListedConserves(v, s, e, x); }
    assert Control(v, s1, -1);
    if !DirtyEvict(v, s.c) { DataCheckControl(v, s1, e); }
  }

  lemma ParkControl(v: Env, s: State, e: nat)
    requires Probing(v, s, e, -1) && s.c.cmt[PageOf(v, s.w, e)].flying
    ensures Control(v, Miss(v, s, e), -1)
  {
    hide ListUp, AtWork, Parked, LruOk;
    var p := PageOf(v, s.w, e);
    var x := s.c.cmt[p];
    var r := s.(c := SetCmt(s.c, p, x.(retryQ := x.retryQ + [e])), w := s.w.(hand := Empty));
    HandAlone(v, s, e);
    forall i: nat ensures Places(r, i) == Places(s, i) { MissConserves(v, s, e, i); }
    SameCached(s.c, r.c);
    forall a, i | 0 <= a < |r.c.cmt| && 0 <= i < |r.c.cmt[a].retryQ| ensures ParkedAt(v, r.w, r.c.cmt[a].retryQ[i], a) {
      if i < |s.c.cmt[a].retryQ| { assert ParkedAt(v, s.w, s.c.cmt[a].retryQ[i], a); }
    }
    forall f, q ensures Loader(v, r.w, f, q) == Loader(v, s.w, f, q) { }
  }

  lemma SameCached(c: Cache, d: Cache)
    requires LruOk(c) && d.lru == c.lru && |d.cmt| == |c.cmt|
    requires forall p :: 0 <= p < |c.cmt| ==> d.cmt[p].cached == c.cmt[p].cached && d.cmt[p].dirty == c.cmt[p].dirty
    ensures LruOk(d)
  {
  }

  lemma LoadControl(v: Env, s: State, e: nat)
    requires Probing(v, s, e, -1)
    requires var x := s.c.cmt[PageOf(v, s.w, e)]; !x.cached && !x.flying && x.hasTppa
    ensures Control(v, Miss(v, s, e), -1)
  {
    hide ListUp, AtWork, Parked, LruOk;
    var p := PageOf(v, s.w, e);
    var x := s.c.cmt[p];
    var r := s.(c := SetCmt(s.c, p, x.(flying := true)), w := Issue(s.w, e, MapRead, GotoList));
    HandAlone(v, s, e);
    forall i: nat ensures Places(r, i) == Places(s, i) { MissConserves(v, s, e, i); }
    SameCached(s.c, r.c);
    forall f, q ensures Loader(v, r.w, f, q) == (Loader(v, s.w, f, q) || (f == e && q == p)) { }
    assert Loader(v, r.w, e, p);
    forall a, i | 0 <= a < |r.c.cmt| && 0 <= i < |r.c.cmt[a].retryQ| ensures ParkedAt(v, r.w, r.c.cmt[a].retryQ[i], a) {
      assert ParkedAt(v, s.w, s.c.cmt[a].retryQ[i], a);
      assert s.c.cmt[a].retryQ[i] in s.c.cmt[a].retryQ;
    }
  }

  lemma MissControl(v: Env, s: State, e: nat)
    requires Probing(v, s, e, -1) && !s.c.cmt[PageOf(v, s.w, e)].cached
    ensures Control(v, Miss(v, s, e), -1)
  {
    var p := PageOf(v, s.w, e);
    if s.c.cmt[p].flying {
      ParkControl(v, s, e);
    } else if s.c.cmt[p].hasTppa {
      LoadControl(v, s, e);
    } else {
      hide ListUp, Placed, LruOk;
      assert LoadsOk(v, s.w, s.c.cmt, p);
      ListUpControl(v, s, e);
    }
  }

  lemma UpdateControl(v: Env, s: State, e: nat)
    requires Probing(v, s, e, -1)
    ensures Control(v, Update(v, s, e), -1)
  {
    hide Store, AtWork, Parked, LruOk, JumpsOk, LoadsOk;
    var lpa := SlotOf(v, s.w, e);
    if lpa in s.t.slot {
      var s1 := s.(t := s.t.(valid := s.t.valid - {s.t.slot[lpa]}));
      forall i: nat ensures Places(s1, i) == Places(s, i) { }
      StoreControl(v, s1, e);
    } else {
      StoreControl(v, s, e);
    }
  }

  lemma HitControl(v: Env, s: State, e: nat)
    requires Probing(v, s, e, -1) && s.c.cmt[PageOf(v, s.w, e)].cached
    ensures Control(v, DataCheck(v, s.(c := s.c.(lru := ToFront(s.c.lru, PageOf(v, s.w, e)))), e), -1)
  {
    hide DataCheck, AtWork, Parked, LruOk, JumpsOk, LoadsOk, Without;
    var p := PageOf(v, s.w, e);
    var s1 := s.(c := s.c.(lru := ToFront(s.c.lru, p)));
    ToFrontOk(s.c, p);
    WithoutAll(s.c.lru, p, v.pages);
    forall i: nat ensures Places(s1, i) == Places(s, i) { }
    DataCheckControl(v, s1, e);
  }

  lemma ProbeControl(v: Env, s: State)
    requires Control(v, s, -1) && s.w.hand.Holding?
    ensures Control(v, Probe(v, s), -1)
  {
    hide ListUp, DataCheck, Miss, Update, Placed, LruOk, JumpsOk, LoadsOk;
    var e := s.w.hand.e;
    var s1 := s.(w := s.w.(jump := s.w.jump[e := NoJump]));
    ClearJump(v, s, e);
    match s.w.jump[e]
    case GotoList => ListUpControl(v, s1, e);
    case GotoComplete => DataCheckControl(v, s1, e);
    case GotoUpdate => UpdateControl(v, s1, e);
    case NoJump =>
      if s1.c.cmt[PageOf(v, s1.w, e)].cached {
        HitControl(v, s1, e);
      } else {
        MissControl(v, s1, e);
      }
  }

  lemma ClearJump(v: Env, s: State, e: nat)
    requires Control(v, s, -1) && s.w.hand == Holding(e)
    ensures var s1 := s.(w := s.w.(jump := s.w.jump[e := NoJump]));
            var p := PageOf(v, s.w, e);
            if s.w.jump[e] == GotoList then Probing(v, s1, e, p) && !s.c.cmt[p].cached else Probing(v, s1, e, -1)
  {
    hide LruOk, Parked;
    var s1 := s.(w := s.w.(jump := s.w.jump[e := NoJump]));
    var p := PageOf(v, s.w, e);
    HandAlone(v, s, e);
    forall x: nat ensures Places(s1, x) == Places(s, x) { }
    forall a, i | 0 <= a < |s1.c.cmt| && 0 <= i < |s1.c.cmt[a].retryQ|
      ensures ParkedAt(v, s1.w, s1.c.cmt[a].retryQ[i], a)
    {
      assert ParkedAt(v, s.w, s.c.cmt[a].retryQ[i], a);
    }
    forall f, q ensures Loader(v, s1.w, f, q) == (Loader(v, s.w, f, q) && f != e) { }
    if s.w.jump[e] == GotoList {
      assert Loader(v, s.w, e, p);
    }
  }

  lemma CompleteControl(v: Env, s: State, e: nat)
    requires Control(v, s, -1) && e in s.w.out
    ensures Control(v, s.(w := Complete(v, s.w, e)), -1)
  {
    hide LruOk, Parked, AtWork;
    var r := s.(w := Complete(v, s.w, e));
    forall x: nat ensures Places(r, x) == Places(s, x) { CompleteConserves(v, s.w, e, x); }
    OutAlone(v, s, e);
    forall a, i | 0 <= a < |r.c.cmt| && 0 <= i < |r.c.cmt[a].retryQ| ensures ParkedAt(v, r.w, r.c.cmt[a].retryQ[i], a) {
      assert ParkedAt(v, s.w, s.c.cmt[a].retryQ[i], a);
      assert s.c.cmt[a].retryQ[i] in s.c.cmt[a].retryQ;
    }
    forall f, q ensures Loader(v, r.w, f, q) == Loader(v, s.w, f, q) { }
  }

  lemma OutAlone(v: Env, s: State, e: nat)
    requires Placed(v, s) && e in s.w.out
    ensures e < |v.buf| && e !in s.w.master && e !in s.w.retry && e !in s.w.done && s.w.hand != Holding(e)
    ensures forall q :: 0 <= q < |s.c.cmt| ==> e !in s.c.cmt[q].retryQ
  {
    assert Places(s, e) >= 1;
    CountMember(s.w.master, e);
    CountMember(s.w.retry, e);
    forall q | 0 <= q < |s.c.cmt| ensures e !in s.c.cmt[q].retryQ {
      ParkedUpdate(s.c.cmt, q, s.c.cmt[q], e);
      CountMember(s.c.cmt[q].retryQ, e);
    }
  }

  lemma TakeControl(v: Env, s: State)
    requires Control(v, s, -1) && s.w.hand.Empty?
    ensures Control(v, Take(s), -1)
  {
    hide LruOk, Parked, AtWork;
    var r := Take(s);
    forall x: nat ensures Places(r, x) == Places(s, x) { TakeConserves(s, x); }
    forall a, i | 0 <= a < |r.c.cmt| && 0 <= i < |r.c.cmt[a].retryQ| ensures ParkedAt(v, r.w, r.c.cmt[a].retryQ[i], a) {
      assert ParkedAt(v, s.w, s.c.cmt[a].retryQ[i], a);
    }
    forall f, q ensures Loader(v, r.w, f, q) == Loader(v, s.w, f, q) { }
  }

  lemma StepControl(v: Env, s: State, r: State)
    requires Control(v, s, -1) && Next(v, s, r)
    ensures Control(v, r, -1)
  {
    hide Control, Take, Probe, Complete;
    if s.w.hand.Empty? && r == Take(s) {
      TakeControl(v, s);
    } else if s.w.hand.Holding? && r == Probe(v, s) {
      ProbeControl(v, s);
    } else {
      var e :| e in s.w.out && r == s.(w := Complete(v, s.w, e));
      CompleteControl(v, s, e);
    }
  }

  lemma ParkedHasLoader(v: Env, s: State, p: nat) returns (f: nat)
    requires Control(v, s, -1) && p < |s.c.cmt| && s.c.cmt[p].retryQ != []
    ensures Loader(v, s.w, f, p)
  {
    hide LruOk, Placed;
    assert s.c.cmt[p].flying;
    f :| Loader(v, s.w, f, p);
  }

  lemma ParkedHasNoJump(v: Env, s: State, p: nat, e: nat)
    requires Control(v, s, -1) && p < |s.c.cmt| && e in s.c.cmt[p].retryQ
    ensures e < |v.buf| && s.w.jump[e] == NoJump
  {
    hide LruOk, Placed, LoadsOk;
    var i :| 0 <= i < |s.c.cmt[p].retryQ| && s.c.cmt[p].retryQ[i] == e;
    assert ParkedAt(v, s.w, s.c.cmt[p].retryQ[i], p);
  }

  /** The loader of a page in flight is in hand, on the retry queue or at the device, never parked itself. */
  lemma LoaderIsActive(v: Env, s: State, f: nat, p: nat)
    requires Control(v, s, -1) && Loader(v, s.w, f, p) && f !in s.w.done
    ensures s.w.hand == Holding(f) || f in s.w.retry || f in s.w.out
  {
    hide LruOk, LoadsOk;
    assert Places(s, f) == 1;
    CountMember(s.w.master, f);
    CountMember(s.w.retry, f);
    if Parked(s.c.cmt, f) > 0 {
      var q := ParkedWitness(s.c.cmt, f);
      ParkedHasNoJump(v, s, q, f);
      assert false;
    }
  }

  /** A flush is never stuck: while an entry is not updated, the loop can act or a request is in flight. */
  lemma NeverStuck(v: Env, s: State)
    requires Control(v, s, -1) && |s.w.done| < |v.buf|
    ensures s.w.hand.Holding? || s.w.retry != [] || s.w.master != [] || s.w.out != map[]
  {
    hide LruOk, LoadsOk, JumpsOk;
    var e := NotDone(v, s);
    assert Places(s, e) == 1;
    CountMember(s.w.master, e);
    CountMember(s.w.retry, e);
    if Parked(s.c.cmt, e) > 0 {
      var p := ParkedWitness(s.c.cmt, e);
      var f := ParkedHasLoader(v, s, p);
      LoaderIsActive(v, s, f, p);
    }
  }

  lemma NotDone(v: Env, s: State) returns (e: nat)
    requires Shape(v, s) && |s.w.done| < |v.buf|
    ensures e < |v.buf| && e !in s.w.done
  {
    AllIn(s.w.done, |v.buf|);
    e :| e < |v.buf| && e !in s.w.done;
  }

  lemma {:induction false} AllIn(d: set<nat>, n: nat)
    ensures (forall x: nat :: x < n ==> x in d) ==> |d| >= n
    decreases n
  {
    if n > 0 && forall x: nat :: x < n ==> x in d {
      AllIn(d - {n - 1}, n - 1);
    }
  }
}

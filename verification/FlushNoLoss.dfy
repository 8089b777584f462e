/**
 When no update of a flush can be lost.  An update that finds its translation page neither
 cached nor on flash leaves the page unreachable for reads; a cache with room for every
 translation page rules this out, and so do translation pages that are all on flash.
 */
module FlushNoLoss {
  import opened Sequences
  import opened KeyOrder
  import opened FlushSpec
  import opened FlushPlaces
  import opened FlushControl
  import opened FlushProbing
  import opened FlushTheorems
  import opened FlushResults

  lemma {:induction false} NoDupCount(q: seq<nat>)
    requires NoDup(q)
    ensures |Elements(q)| == |q|
  {
    if q != [] {
      var t := q[1..];
      forall i, j | 0 <= i < j < |t| ensures t[i] != t[j] { assert q[i + 1] != q[j + 1]; }
      forall i | 0 <= i < |t| ensures t[i] != q[0] { assert q[i + 1] != q[0]; }
      NoDupCount(t);
      assert q == [q[0]] + t;
      assert Elements(q) == {q[0]} + Elements(t);
    }
  }

  /** A page that is not cached leaves room for itself. */
  lemma RoomForOneMore(v: Env, c: Cache, p: nat)
    requires CacheShape(v, c) && LruOk(c) && p < v.pages && !c.cmt[p].cached
    ensures |c.lru| < v.pages
  {
    NoDupCount(c.lru);
    assert p !in c.lru;
    BoundedSet(Elements(c.lru) + {p}, v.pages);
  }

  /** The entry has been past the listing step of the page it is at. */
  ghost predicate NeedsPage(w: Work, e: nat)
    requires e < |w.jump|
  {
    w.jump[e] == GotoComplete || w.jump[e] == GotoUpdate || (e in w.out && w.out[e].DataRead?)
  }

  ghost predicate NoneGone(v: Env, s: State) {
    && Shape(v, s) && !s.c.lost
    && forall e: nat :: e < |v.buf| && NeedsPage(s.w, e) ==> s.c.cmt[PageOf(v, s.w, e)].cached
  }

  ghost predicate PagesStay(c: Cache, d: Cache) {
    |d.cmt| == |c.cmt| && forall p :: 0 <= p < |c.cmt| && c.cmt[p].cached ==> d.cmt[p].cached
  }

  lemma CheckKeepsPages(v: Env, s: State, e: nat)
    requires Probing(v, s, e, -1) && NoneGone(v, s) && s.c.cmt[PageOf(v, s.w, e)].cached
    ensures NoneGone(v, DataCheck(v, s, e))
  {
    HandAlone(v, s, e);
    DataCheckControl(v, s, e);
    hide Control, GetLpa, HtFind, ToFront;
    var r := DataCheck(v, s, e);
    assert PagesStay(s.c, r.c) && !r.c.lost;
    forall f: nat | f < |v.buf| && NeedsPage(r.w, f) ensures r.c.cmt[PageOf(v, r.w, f)].cached {
      if f != e { assert NeedsPage(s.w, f); }
    }
  }

  lemma ListKeepsPages(v: Env, s: State, e: nat)
    requires Shape(v, s) && s.w.hand == Holding(e) && Probing(v, s, e, PageOf(v, s.w, e)) && NoneGone(v, s)
    requires !s.c.cmt[PageOf(v, s.w, e)].cached && v.maxCached >= v.pages
    ensures NoneGone(v, ListUp(v, s, e))
  {
    var p := PageOf(v, s.w, e);
    RoomForOneMore(v, s.c, p);
    var r := Listed(v, s, e);
    ListedEffect(v, s, e);
    HandAlone(v, s, e);
    ListedKeeps(v, s, e, r);
    forall x: nat ensures Places(r, x) == Places(s, x) { ListedConserves(v, s, e, x); }
    ListedControl(v, s, e);
    ListedOk(v, s.c, p);
    hide ListedCache, ListedWork, JumpsOk, LoadsOk, AtWork, Parked, NoneGone, DataCheck;
    assert Probing(v, r, e, -1);
    CheckKeepsPages(v, r, e);
  }

  lemma ListedKeeps(v: Env, s: State, e: nat, r: State)
    requires Shape(v, s) && s.w.hand == Holding(e) && Probing(v, s, e, PageOf(v, s.w, e)) && NoneGone(v, s)
    requires !s.c.cmt[PageOf(v, s.w, e)].cached && |s.c.lru| < v.maxCached && r == Listed(v, s, e) && Shape(v, r)
    requires forall x :: 0 <= x < |v.buf| ==>
      r.w.jump[x] == if x in s.c.cmt[PageOf(v, s.w, e)].retryQ then GotoComplete else s.w.jump[x]
    ensures NoneGone(v, r) && r.c.cmt[PageOf(v, r.w, e)].cached
  {
    hide LruOk, Placed, LoadsOk, GetLpa, SetJumps;
    var p := PageOf(v, s.w, e);
    var q := s.c.cmt[p].retryQ;
    assert PagesStay(s.c, r.c) && r.w.cnt == s.w.cnt && r.w.out == s.w.out;
    forall f: nat | f < |v.buf| && NeedsPage(r.w, f) ensures r.c.cmt[PageOf(v, r.w, f)].cached {
      if f in q {
        var i :| 0 <= i < |q| && q[i] == f;
        assert ParkedAt(v, s.w, s.c.cmt[p].retryQ[i], p);
      } else {
        assert NeedsPage(s.w, f);
      }
    }
  }

  lemma MissKeepsPages(v: Env, s: State, e: nat)
    requires Probing(v, s, e, -1) && NoneGone(v, s) && !s.c.cmt[PageOf(v, s.w, e)].cached && v.maxCached >= v.pages
    ensures NoneGone(v, Miss(v, s, e))
  {
    var p := PageOf(v, s.w, e);
    HandAlone(v, s, e);
    MissControl(v, s, e);
    if !s.c.cmt[p].flying && !s.c.cmt[p].hasTppa {
      assert LoadsOk(v, s.w, s.c.cmt, p);
      hide ListUp, NoneGone;
      ListKeepsPages(v, s, e);
    } else {
      hide ListUp, LruOk, Placed, JumpsOk, LoadsOk, GetLpa;
      var r := Miss(v, s, e);
      assert PagesStay(s.c, r.c);
      forall f: nat | f < |v.buf| && NeedsPage(r.w, f) ensures r.c.cmt[PageOf(v, r.w, f)].cached {
        assert NeedsPage(s.w, f);
      }
    }
  }

  lemma UpdateKeepsPages(v: Env, s: State, e: nat)
    requires Probing(v, s, e, -1) && NoneGone(v, s) && s.c.cmt[PageOf(v, s.w, e)].cached
    ensures NoneGone(v, Update(v, s, e))
  {
    UpdateControl(v, s, e);
    hide Control, GetLpa, ToFront, HtInsert;
    var r := Update(v, s, e);
    assert PagesStay(s.c, r.c) && !r.c.lost;
    forall f: nat | f < |v.buf| && NeedsPage(r.w, f) ensures r.c.cmt[PageOf(v, r.w, f)].cached {
      assert NeedsPage(s.w, f);
    }
  }

  lemma HitKeepsPages(v: Env, s: State, e: nat)
    requires Probing(v, s, e, -1) && NoneGone(v, s) && s.c.cmt[PageOf(v, s.w, e)].cached
    ensures NoneGone(v, DataCheck(v, s.(c := s.c.(lru := ToFront(s.c.lru, PageOf(v, s.w, e)))), e))
  {
    var p := PageOf(v, s.w, e);
    var s1 := s.(c := s.c.(lru := ToFront(s.c.lru, p)));
    ToFrontOk(s.c, p);
    WithoutAll(s.c.lru, p, v.pages);
    hide DataCheck, LruOk, JumpsOk, LoadsOk, Without, AtWork, Parked;
    forall i: nat ensures Places(s1, i) == Places(s, i) { }
    CheckKeepsPages(v, s1, e);
  }

  lemma ProbeKeepsPages(v: Env, s: State)
    requires Control(v, s, -1) && s.w.hand.Holding? && NoneGone(v, s) && v.maxCached >= v.pages
    ensures NoneGone(v, Probe(v, s))
  {
    var e := s.w.hand.e;
    var p := PageOf(v, s.w, e);
    var s1 := s.(w := s.w.(jump := s.w.jump[e := NoJump]));
    ClearJump(v, s, e);
    hide Placed, LruOk, JumpsOk, LoadsOk, GetLpa;
    assert NoneGone(v, s1) by {
      forall f: nat | f < |v.buf| && NeedsPage(s1.w, f) ensures s1.c.cmt[PageOf(v, s1.w, f)].cached {
        assert NeedsPage(s.w, f);
      }
    }
    assert s.w.jump[e] == GotoComplete || s.w.jump[e] == GotoUpdate ==> NeedsPage(s.w, e);
    hide NoneGone;
    match s.w.jump[e]
    case GotoList => hide ListUp; ListKeepsPages(v, s1, e);
    case GotoComplete => hide DataCheck; CheckKeepsPages(v, s1, e);
    case GotoUpdate => hide Update; UpdateKeepsPages(v, s1, e);
    case NoJump =>
      hide DataCheck, Miss;
      if s1.c.cmt[p].cached { HitKeepsPages(v, s1, e); } else { MissKeepsPages(v, s1, e); }
  }

  lemma CompleteKeepsPages(v: Env, s: State, e: nat)
    requires Control(v, s, -1) && e in s.w.out && NoneGone(v, s)
    ensures NoneGone(v, s.(w := Complete(v, s.w, e)))
  {
    CompleteControl(v, s, e);
    var r := s.(w := Complete(v, s.w, e));
    hide Placed, LruOk, LoadsOk, GetLpa;
    forall f: nat | f < |v.buf| && NeedsPage(r.w, f) ensures r.c.cmt[PageOf(v, r.w, f)].cached {
      assert NeedsPage(s.w, f);
    }
  }

  /** With room for every translation page no step loses an update. */
  lemma BigCacheLosesNothing(v: Env, s: State, r: State)
    requires Control(v, s, -1) && Next(v, s, r) && NoneGone(v, s) && v.maxCached >= v.pages
    ensures NoneGone(v, r)
  {
    StepControl(v, s, r);
    hide Control, Probe, Complete;
    if s.w.hand.Empty? && r == Take(s) {
      forall f: nat | f < |v.buf| && NeedsPage(r.w, f) ensures r.c.cmt[PageOf(v, r.w, f)].cached {
        assert NeedsPage(s.w, f);
      }
    } else if s.w.hand.Holding? && r == Probe(v, s) {
      hide NoneGone;
      ProbeKeepsPages(v, s);
    } else {
      hide NoneGone;
      var e :| e in s.w.out && r == s.(w := Complete(v, s.w, e));
      CompleteKeepsPages(v, s, e);
    }
  }

  // ---------------------------------------------------------------- all translation pages on flash

  ghost predicate AllOnFlash(c: Cache) { forall p :: 0 <= p < |c.cmt| ==> c.cmt[p].hasTppa }

  lemma CheckKeepsFlash(v: Env, s: State, e: nat)
    requires Ready(v, s, e) && AllOnFlash(s.c)
    ensures AllOnFlash(DataCheck(v, s, e).c) && DataCheck(v, s, e).c.lost == s.c.lost
  {
    hide GetLpa, HtFind, HtInsert, ToFront;
  }

  lemma UpdateKeepsFlash(v: Env, s: State, e: nat)
    requires Ready(v, s, e) && AllOnFlash(s.c)
    ensures AllOnFlash(Update(v, s, e).c) && Update(v, s, e).c.lost == s.c.lost
  {
    hide GetLpa, HtFind, HtInsert, ToFront;
  }

  lemma ListKeepsFlash(v: Env, s: State, e: nat)
    requires Shape(v, s) && s.w.hand == Holding(e) && AllOnFlash(s.c)
    ensures AllOnFlash(ListUp(v, s, e).c) && ListUp(v, s, e).c.lost == s.c.lost
  {
    hide GetLpa, SetJumps, DataCheck;
    var s1 := Listed(v, s, e);
    assert AllOnFlash(s1.c) && s1.c.lost == s.c.lost;
    if !DirtyEvict(v, s.c) { CheckKeepsFlash(v, s1, e); }
  }

  lemma ProbeKeepsFlash(v: Env, s: State)
    requires Shape(v, s) && s.w.hand.Holding? && AllOnFlash(s.c)
    ensures AllOnFlash(Probe(v, s).c) && Probe(v, s).c.lost == s.c.lost
  {
    hide GetLpa, DataCheck, Update, ListUp, ToFront;
    var e := s.w.hand.e;
    var p := PageOf(v, s.w, e);
    var s1 := s.(w := s.w.(jump := s.w.jump[e := NoJump]));
    match s.w.jump[e]
    case GotoList => ListKeepsFlash(v, s1, e);
    case GotoComplete => CheckKeepsFlash(v, s1, e);
    case GotoUpdate => UpdateKeepsFlash(v, s1, e);
    case NoJump =>
      if s1.c.cmt[p].cached {
        CheckKeepsFlash(v, s1.(c := s1.c.(lru := ToFront(s1.c.lru, p))), e);
      }
  }

  // ---------------------------------------------------------------- whole flushes

  /** The cache has room for every translation page, or all of them are on flash. */
  ghost predicate Safe(v: Env, c: Cache) { v.maxCached >= v.pages || AllOnFlash(c) }

  /** What every state of a flush that starts safely has. */
  ghost predicate NothingLost(v: Env, s: State) {
    !s.c.lost && if v.maxCached >= v.pages then NoneGone(v, s) else AllOnFlash(s.c)
  }

  lemma NotLost(v: Env, s: State)
    requires NothingLost(v, s)
    ensures !s.c.lost
  {
  }

  lemma StepLosesNothing(v: Env, s: State, r: State)
    requires Control(v, s, -1) && Next(v, s, r) && NothingLost(v, s)
    ensures NothingLost(v, r)
  {
    hide Control, Probe, Complete;
    if v.maxCached >= v.pages {
      BigCacheLosesNothing(v, s, r);
    } else if s.w.hand.Holding? && r == Probe(v, s) {
      ProbeKeepsFlash(v, s);
    }
  }

  lemma InvPlaced(v: Env, t0: Slots, store: Records, s: State)
    requires Inv(v, t0, store, s)
    ensures Shape(v, s) && Placed(v, s)
  {
  }

  lemma StepKeepsAll(v: Env, t0: Slots, store: Records, s: State, r: State)
    requires Inv(v, t0, store, s) && Next(v, s, r)
    ensures Inv(v, t0, store, r) && (NothingLost(v, s) ==> NothingLost(v, r))
  {
    hide NothingLost, Data, Next;
    StepInv(v, t0, store, s, r);
    if NothingLost(v, s) { StepLosesNothing(v, s, r); }
  }

  lemma {:induction false} RunLosesNothing(v: Env, t0: Slots, store: Records, run: seq<State>)
    requires IsRun(v, run) && Inv(v, t0, store, run[0]) && NothingLost(v, run[0])
    ensures Inv(v, t0, store, run[|run| - 1]) && NothingLost(v, run[|run| - 1])
    decreases |run|
  {
    hide Control, Data, NothingLost, Next;
    if |run| > 1 {
      var pre := run[..|run| - 1];
      RunLosesNothing(v, t0, store, pre);
      assert pre[|pre| - 1] == run[|run| - 2];
      assert Next(v, run[|run| - 2], run[|run| - 2 + 1]);
      StepKeepsAll(v, t0, store, run[|run| - 2], run[|run| - 1]);
    }
  }

  /** A run of a whole flush: from a quiet FTL until every entry is updated. */
  ghost predicate IsFlush(v: Env, run: seq<State>) {
    && IsRun(v, run) && Start(v, run[0]) && BufferOk(v, run[0].t)
    && |run[|run| - 1].w.done| >= |v.buf|
  }

  /** A flush that starts safely loses nothing and ends safely. */
  lemma SafeFlushLosesNothing(v: Env, run: seq<State>)
    requires IsFlush(v, run) && Quiet(v, run[0].t, run[0].c, v.flash) && Safe(v, run[0].c)
    ensures !run[|run| - 1].c.lost && Safe(v, run[|run| - 1].c)
  {
    StartInv(v, run[0]);
    hide Quiet, Inv, BufferOk, Flushed, IsRun;
    assert NothingLost(v, run[0]);
    RunLosesNothing(v, run[0].t.slot, Flushed(v), run);
  }

  /** A whole flush from a quiet FTL, under any schedule, leaves the FTL quiet again if it starts safely, or if it
      happens to lose no update. */
  lemma FlushKeepsQuiet(v: Env, run: seq<State>)
    requires IsFlush(v, run) && Quiet(v, run[0].t, run[0].c, v.flash)
    requires Safe(v, run[0].c) || !run[|run| - 1].c.lost
    ensures var s := run[|run| - 1];
            Inv(v, run[0].t.slot, Flushed(v), s) && Quiet(v, s.t, s.c, Flushed(v)) && ValidIsMapped(s.t)
  {
    hide Quiet, Inv, BufferOk, Flushed, Next, ValidIsMapped, Safe, Start;
    StartInv(v, run[0]);
    if Safe(v, run[0].c) { SafeFlushLosesNothing(v, run); }
    RunInv(v, run[0].t.slot, Flushed(v), run);
    FlushEndsQuiet(v, run[0].t.slot, Flushed(v), run[|run| - 1]);
  }
}

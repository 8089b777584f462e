/**
 The main results about the flush: the invariant of every reachable state, what a finished
 flush has done to the stored data, and what a probing read then returns.
 */
module FlushTheorems {
  import opened Sequences
  import opened KeyOrder
  import opened FlushSpec
  import opened FlushPlaces
  import opened FlushControl
  import opened FlushProbing

  // ---------------------------------------------------------------- pages that reads can reach

  /** A read gives up on a page that is neither cached nor on flash. */
  predicate Reachable(x: Cmt) { x.hasTppa || x.cached }

  /** Unless an update was lost, every page with a filled slot is on flash or dirty in the cache. */
  ghost predicate Covered(v: Env, slot: Slots, c: Cache)
    requires EnvOk(v) && |c.cmt| == v.pages
  {
    forall l :: l in slot ==> l < v.pages * v.epp && (!c.lost ==> OnFlashOrDirty(c.cmt[Idx(v, l)]))
  }

  predicate OnFlashOrDirty(x: Cmt) { x.hasTppa || x.dirty }

  lemma CoverGrows(v: Env, slot: Slots, c: Cache, d: Cache)
    requires EnvOk(v) && |c.cmt| == v.pages && |d.cmt| == v.pages && Covered(v, slot, c)
    requires c.lost ==> d.lost
    requires forall p :: 0 <= p < v.pages ==> OnFlashOrDirty(c.cmt[p]) ==> OnFlashOrDirty(d.cmt[p])
    ensures Covered(v, slot, d)
  {
    hide Idx;
  }

  lemma StoreCovered(v: Env, s: State, e: nat)
    requires Ready(v, s, e) && Covered(v, s.t.slot, s.c)
    ensures Covered(v, Store(v, s, e).t.slot, Store(v, s, e).c)
  {
    hide GetLpa;
    var r := Store(v, s, e);
    CoverGrows(v, s.t.slot, s.c, r.c);
    assert r.t.slot == s.t.slot[SlotOf(v, s.w, e) := v.buf[e].pga];
  }

  // ---------------------------------------------------------------- the whole invariant

  /** The data side of the invariant; the control side is FlushControl.Control. */
  ghost predicate Data(v: Env, t0: Slots, store: Records, s: State) {
    Probes(v, t0, store, s.t, s.w) && GrainsOk(v, s.t, s.w) && |s.c.cmt| == v.pages && Covered(v, s.t.slot, s.c)
  }

  ghost predicate Inv(v: Env, t0: Slots, store: Records, s: State) {
    Control(v, s, -1) && Data(v, t0, store, s)
  }

  /** Steps that move entries and pages without touching the table. */
  lemma MoveData(v: Env, t0: Slots, store: Records, s: State, r: State)
    requires Data(v, t0, store, s) && r.t == s.t && WorkShape(v, r.w) && |r.c.cmt| == v.pages
    requires r.w.cnt == s.w.cnt && r.w.done == s.w.done
    requires forall e :: 0 <= e < |v.buf| && r.w.jump[e] == GotoUpdate ==> s.w.jump[e] == GotoUpdate
    requires forall e :: e in r.w.out && r.w.out[e].DataRead? ==> e in s.w.out && s.w.out[e] == r.w.out[e]
    requires s.c.lost ==> r.c.lost
    requires forall p :: 0 <= p < v.pages ==> OnFlashOrDirty(s.c.cmt[p]) ==> OnFlashOrDirty(r.c.cmt[p])
    ensures Data(v, t0, store, r)
  {
    MoveKeeps(v, t0, store, s.t, s.w, r.w);
    CoverGrows(v, s.t.slot, s.c, r.c);
    hide Probes, Covered;
    forall g ensures Pending(v, r.w, g) == Pending(v, s.w, g) { }
  }

  lemma DataCheckData(v: Env, t0: Slots, store: Records, s: State, e: nat)
    requires Data(v, t0, store, s) && Ready(v, s, e) && e !in s.w.done && e !in s.w.out && s.w.jump[e] == NoJump
    requires WorkShape(v, DataCheck(v, s, e).w)
    ensures Data(v, t0, store, DataCheck(v, s, e))
  {
    hide Probes, GrainsOk, Covered, GetLpa, HtFind;
    var lpa := SlotOf(v, s.w, e);
    if lpa !in s.t.slot {
      StoreKeeps(v, t0, store, s, e);
      DirectGrains(v, t0, store, s, e);
      StoreCovered(v, s, e);
    } else {
      CheckKeeps(v, t0, store, s, e);
      SameGrains(v, s.t, s.w, DataCheck(v, s, e).w);
    }
  }

  lemma SameGrains(v: Env, t: Table, w: Work, w': Work)
    requires GrainsOk(v, t, w) && w'.done == w.done
    ensures GrainsOk(v, t, w')
  {
    forall g ensures Pending(v, w', g) == Pending(v, w, g) { }
  }

  lemma UpdateData(v: Env, t0: Slots, store: Records, s: State, e: nat)
    requires Data(v, t0, store, s) && Ready(v, s, e) && e !in s.w.done && Holds(v, store, s.t.slot, s.w, e)
    ensures Data(v, t0, store, Update(v, s, e))
  {
    hide Probes, GrainsOk, Covered, GetLpa, HtInsert;
    var lpa := SlotOf(v, s.w, e);
    var s1 := s.(t := s.t.(valid := s.t.valid - {s.t.slot[lpa]}));
    StoreGrains(v, t0, store, s, e);
    ValidFree(v, t0, store, s.t, s1.t.valid, s.w);
    StoreKeeps(v, t0, store, s1, e);
    StoreCovered(v, s1, e);
  }

  /** The probing invariant does not look at the grain bitmap. */
  lemma ValidFree(v: Env, t0: Slots, store: Records, t: Table, valid: set<nat>, w: Work)
    requires Probes(v, t0, store, t, w)
    ensures Probes(v, t0, store, t.(valid := valid), w)
  {
    hide GetLpa, Settled, Grows, HtFind, Passed, EntriesOk, Written;
  }

  /** Listing a page loses no dirty page: a dirty victim goes to flash. */
  lemma ListedCovers(v: Env, c: Cache, p: nat, x: nat)
    requires EnvOk(v) && CacheShape(v, c) && p < v.pages && x < v.pages && OnFlashOrDirty(c.cmt[x])
    ensures OnFlashOrDirty(ListedCache(v, c, p).cmt[x])
  {
  }

  lemma ListUpData(v: Env, t0: Slots, store: Records, s: State, e: nat)
    requires Shape(v, s) && s.w.hand == Holding(e) && Probing(v, s, e, PageOf(v, s.w, e))
    requires !s.c.cmt[PageOf(v, s.w, e)].cached && Data(v, t0, store, s)
    ensures Data(v, t0, store, ListUp(v, s, e))
  {
    var p := PageOf(v, s.w, e);
    var r := Listed(v, s, e);
    ListedEffect(v, s, e);
    HandAlone(v, s, e);
    ListedControl(v, s, e);
    assert r.c.lost == s.c.lost && r.w.cnt == s.w.cnt && r.w.done == s.w.done;
    hide Data, Control, ListedCache, SetJumps, DataCheck, GetLpa, OnFlashOrDirty;
    forall x | 0 <= x < v.pages && OnFlashOrDirty(s.c.cmt[x]) ensures OnFlashOrDirty(r.c.cmt[x]) {
      ListedCovers(v, s.c, p, x);
    }
    MoveData(v, t0, store, s, r);
    if !DirtyEvict(v, s.c) {
      DataCheckShape(v, r, e);
      DataCheckData(v, t0, store, r, e);
    }
  }

  lemma DataCheckShape(v: Env, s: State, e: nat)
    requires Shape(v, s) && e < |v.buf|
    ensures WorkShape(v, DataCheck(v, s, e).w)
  {
    hide GetLpa, Touch, HtInsert, HtFind;
  }

  lemma MissData(v: Env, t0: Slots, store: Records, s: State, e: nat)
    requires Probing(v, s, e, -1) && !s.c.cmt[PageOf(v, s.w, e)].cached && Data(v, t0, store, s)
    ensures Data(v, t0, store, Miss(v, s, e))
  {
    var p := PageOf(v, s.w, e);
    HandAlone(v, s, e);
    if !s.c.cmt[p].flying && !s.c.cmt[p].hasTppa {
      assert LoadsOk(v, s.w, s.c.cmt, p);
      hide ListUp, Data;
      ListUpData(v, t0, store, s, e);
    } else {
      hide ListUp, Data, LruOk, Placed, JumpsOk, LoadsOk;
      MoveData(v, t0, store, s, Miss(v, s, e));
    }
  }

  lemma ProbeData(v: Env, t0: Slots, store: Records, s: State)
    requires Inv(v, t0, store, s) && s.w.hand.Holding?
    ensures Data(v, t0, store, Probe(v, s))
  {
    var e := s.w.hand.e;
    var p := PageOf(v, s.w, e);
    var s1 := s.(w := s.w.(jump := s.w.jump[e := NoJump]));
    HandAlone(v, s, e);
    ClearJump(v, s, e);
    MoveData(v, t0, store, s, s1);
    match s.w.jump[e]
    case GotoList =>
      hide ListUp, Data, LruOk, Placed, JumpsOk, LoadsOk;
      ListUpData(v, t0, store, s1, e);
    case GotoComplete =>
      hide DataCheck, Data, LruOk, Placed, JumpsOk, LoadsOk;
      DataCheckShape(v, s1, e);
      DataCheckData(v, t0, store, s1, e);
    case GotoUpdate =>
      assert Holds(v, store, s.t.slot, s.w, e);
      hide Update, Data, LruOk, Placed, JumpsOk, LoadsOk;
      UpdateData(v, t0, store, s1, e);
    case NoJump =>
      hide DataCheck, Miss, Data, LruOk, Placed, JumpsOk, LoadsOk;
      if s1.c.cmt[p].cached {
        HitData(v, t0, store, s1, e);
      } else {
        MissData(v, t0, store, s1, e);
      }
  }

  lemma HitData(v: Env, t0: Slots, store: Records, s: State, e: nat)
    requires Probing(v, s, e, -1) && Data(v, t0, store, s)
    ensures Data(v, t0, store, DataCheck(v, s.(c := s.c.(lru := ToFront(s.c.lru, PageOf(v, s.w, e)))), e))
  {
    hide DataCheck, Data, LruOk, JumpsOk, LoadsOk, Without;
    var s1 := s.(c := s.c.(lru := ToFront(s.c.lru, PageOf(v, s.w, e))));
    HandAlone(v, s, e);
    WithoutAll(s.c.lru, PageOf(v, s.w, e), v.pages);
    MoveData(v, t0, store, s, s1);
    DataCheckShape(v, s1, e);
    DataCheckData(v, t0, store, s1, e);
  }

  /** What a data read in flight tells when it completes. */
  lemma ReadTells(v: Env, t0: Slots, store: Records, s: State, e: nat)
    requires Inv(v, t0, store, s) && e in s.w.out && s.w.out[e].DataRead?
    ensures var g := s.w.out[e].pga;
            && e < |v.buf| && e !in s.w.done && g in v.flash && s.w.jump[e] == NoJump
            && (v.flash[g].key == v.buf[e].rec.key ==> Holds(v, store, s.t.slot, s.w, e))
            && (v.flash[g].key != v.buf[e].rec.key ==> Taken(v, s.t.slot, store, v.buf[e].rec.key, s.w.cnt[e]))
  {
    hide GetLpa, LruOk, LoadsOk, SlotsOk, FilterOk, Passed, GrainsOk, Covered;
    OutAlone(v, s, e);
    assert ReadOk(v, store, s.t.slot, s.w, e, s.w.out[e].pga);
  }

  lemma CompleteData(v: Env, t0: Slots, store: Records, s: State, e: nat)
    requires Inv(v, t0, store, s) && e in s.w.out
    ensures Data(v, t0, store, s.(w := Complete(v, s.w, e)))
  {
    CompleteShape(v, s.w, e);
    hide Data, JumpsOk, LoadsOk, LruOk, Placed, DoneHasNoJump;
    if s.w.out[e].DataRead? {
      hide Complete;
      CompleteRead(v, t0, store, s, e);
    } else {
      MoveData(v, t0, store, s, s.(w := Complete(v, s.w, e)));
    }
  }

  lemma DropOut(v: Env, t0: Slots, store: Records, s: State, e: nat)
    requires Data(v, t0, store, s) && WorkShape(v, s.w)
    ensures Data(v, t0, store, s.(w := s.w.(out := s.w.out - {e})))
  {
    var s1 := s.(w := s.w.(out := s.w.out - {e}));
    assert WorkShape(v, s1.w);
    assert |s.c.cmt| == v.pages;
    hide Data;
    MoveData(v, t0, store, s, s1);
  }

  lemma CompleteRead(v: Env, t0: Slots, store: Records, s: State, e: nat)
    requires Inv(v, t0, store, s) && e in s.w.out && s.w.out[e].DataRead?
    ensures Data(v, t0, store, s.(w := Complete(v, s.w, e)))
  {
    ReadTells(v, t0, store, s, e);
    assert WorkShape(v, s.w.(out := s.w.out - {e})) && EnvOk(v);
    hide Data, Control, Holds, Taken, WorkShape, EnvOk, Complete;
    DropOut(v, t0, store, s, e);
    if v.flash[s.w.out[e].pga].key == v.buf[e].rec.key {
      CompleteFound(v, t0, store, s, e);
    } else {
      CompleteOther(v, t0, store, s, e);
    }
  }

  lemma CompleteFound(v: Env, t0: Slots, store: Records, s: State, e: nat)
    requires EnvOk(v) && WorkShape(v, s.w) && e in s.w.out && s.w.out[e].DataRead?
    requires s.w.out[e].pga in v.flash && v.flash[s.w.out[e].pga].key == v.buf[e].rec.key
    requires WorkShape(v, s.w.(out := s.w.out - {e})) && Holds(v, store, s.t.slot, s.w, e)
    requires Data(v, t0, store, s.(w := s.w.(out := s.w.out - {e})))
    ensures Data(v, t0, store, s.(w := Complete(v, s.w, e)))
  {
    hide Data, Holds;
    var s1 := s.(w := s.w.(out := s.w.out - {e}));
    HoldsFrame(v, store, s.t.slot, s.w, s1.w, e);
    FoundData(v, t0, store, s1, s.(w := Complete(v, s.w, e)), e);
  }

  lemma CompleteOther(v: Env, t0: Slots, store: Records, s: State, e: nat)
    requires EnvOk(v) && WorkShape(v, s.w) && e in s.w.out && s.w.out[e].DataRead? && e !in s.w.done
    requires s.w.out[e].pga in v.flash && v.flash[s.w.out[e].pga].key != v.buf[e].rec.key
    requires s.w.jump[e] == NoJump && Taken(v, s.t.slot, store, v.buf[e].rec.key, s.w.cnt[e])
    requires Data(v, t0, store, s.(w := s.w.(out := s.w.out - {e})))
    ensures Data(v, t0, store, s.(w := Complete(v, s.w, e)))
  {
    hide Data, Taken;
    var s1 := s.(w := s.w.(out := s.w.out - {e}));
    NextSlotData(v, t0, store, s1, s.(w := Complete(v, s.w, e)), e);
  }

  lemma HoldsFrame(v: Env, store: Records, slot: Slots, w: Work, r: Work, e: nat)
    requires EnvOk(v) && WorkShape(v, w) && WorkShape(v, r) && e < |v.buf| && Holds(v, store, slot, w, e)
    requires r.cnt == w.cnt
    ensures Holds(v, store, slot, r, e)
  {
    hide GetLpa;
  }

  /** The data read found another key: the entry goes back to the master queue, one probe further. */
  lemma NextSlotData(v: Env, t0: Slots, store: Records, s: State, r: State, e: nat)
    requires Data(v, t0, store, s) && e < |v.buf| && e !in s.w.done && e !in s.w.out && s.w.jump[e] == NoJump
    requires Taken(v, s.t.slot, store, v.buf[e].rec.key, s.w.cnt[e])
    requires r == s.(w := s.w.(cnt := s.w.cnt[e := s.w.cnt[e] + 1], master := s.w.master + [e]))
    ensures Data(v, t0, store, r)
  {
    hide SlotsOk, FilterOk, EntriesOk, BaseOk, Covered, Taken, GrainsOk, Settled, Grows;
    var s1 := s.(w := s.w.(cnt := s.w.cnt[e := s.w.cnt[e] + 1]));
    AdvanceKeeps(v, t0, store, s.t, s.w, e);
    SameGrains(v, s.t, s.w, s1.w);
    assert Data(v, t0, store, s1);
    MoveData(v, t0, store, s1, r);
  }

  lemma CompleteShape(v: Env, w: Work, e: nat)
    requires WorkShape(v, w) && e in w.out
    ensures WorkShape(v, Complete(v, w, e))
  {
  }

  /** The data read found the entry's own key: it may update its slot. */
  lemma FoundData(v: Env, t0: Slots, store: Records, s: State, r: State, e: nat)
    requires Data(v, t0, store, s) && e < |v.buf| && Holds(v, store, s.t.slot, s.w, e) && e !in s.w.out
    requires r == s.(w := s.w.(jump := s.w.jump[e := GotoUpdate], retry := s.w.retry + [e]))
    ensures Data(v, t0, store, r)
  {
    hide GetLpa, Settled, Grows, HtFind, Passed, Covered, GrainsOk;
    assert WorkShape(v, r.w);
    forall f: nat, l: nat ensures WrittenBy(v, r.w, f, l) == WrittenBy(v, s.w, f, l) { }
    SlotsFrame(v, t0, store, s.t, s.w, r.w);
    hide SlotsOk, FilterOk, WrittenBy;
    forall f: nat | f < |v.buf| && f !in r.w.done && r.w.jump[f] == GotoUpdate
      ensures Holds(v, store, r.t.slot, r.w, f)
    {
      assert f != e ==> Holds(v, store, s.t.slot, s.w, f);
    }
    forall f | f in r.w.out && r.w.out[f].DataRead? ensures ReadOk(v, store, r.t.slot, r.w, f, r.w.out[f].pga) {
      assert ReadOk(v, store, s.t.slot, s.w, f, s.w.out[f].pga);
    }
    SameGrains(v, s.t, s.w, r.w);
  }

  lemma TakeData(v: Env, t0: Slots, store: Records, s: State)
    requires Inv(v, t0, store, s) && s.w.hand.Empty?
    ensures Data(v, t0, store, Take(s))
  {
    assert WorkShape(v, Take(s).w) by { TakeControl(v, s); }
    hide Data, Control;
    MoveData(v, t0, store, s, Take(s));
  }

  /** Every step of a flush, in any interleaving with the device, keeps the invariant. */
  lemma StepInv(v: Env, t0: Slots, store: Records, s: State, r: State)
    requires Inv(v, t0, store, s) && Next(v, s, r)
    ensures Inv(v, t0, store, r)
  {
    hide Control, Data, Probe, Complete, Take;
    StepControl(v, s, r);
    if s.w.hand.Empty? && r == Take(s) {
      TakeData(v, t0, store, s);
    } else if s.w.hand.Holding? && r == Probe(v, s) {
      ProbeData(v, t0, store, s);
    } else {
      var e :| e in s.w.out && r == s.(w := Complete(v, s.w, e));
      CompleteData(v, t0, store, s, e);
    }
  }

  lemma {:induction false} RunInv(v: Env, t0: Slots, store: Records, run: seq<State>)
    requires IsRun(v, run) && Inv(v, t0, store, run[0])
    ensures Inv(v, t0, store, run[|run| - 1])
  {
    if |run| > 1 {
      var pre := run[..|run| - 1];
      RunInv(v, t0, store, pre);
      assert pre[|pre| - 1] == run[|run| - 2];
      assert Next(v, run[|run| - 2], run[|run| - 2 + 1]);
      StepInv(v, t0, store, run[|run| - 2], run[|run| - 1]);
    }
  }
}

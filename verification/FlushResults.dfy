/**
 What a finished flush has stored, and what a probing read returns afterwards.
 */
module FlushResults {
  import opened KeyOrder
  import opened FlushSpec
  import opened FlushPlaces
  import opened FlushControl
  import opened FlushProbing
  import opened FlushTheorems

  /** The stored records: some slot maps to a grain holding this key and value. */
  ghost predicate Has(slot: Slots, flash: Records, r: Record) {
    exists l :: l in slot && slot[l] in flash && flash[slot[l]] == r
  }

  /** The state of the FTL between two flushes. */
  ghost predicate Quiet(v: Env, t: Table, c: Cache, flash: Records) {
    && EnvOk(v) && |c.cmt| == v.pages && All(c.lru, v.pages)
    && Settled(v, t.slot, flash, t.maxTry) && OobOk(t)
    && LruOk(c) && |c.lru| <= v.maxCached
    && (forall p :: 0 <= p < |c.cmt| ==> !c.cmt[p].flying && c.cmt[p].retryQ == [])
    && Covered(v, t.slot, c) && !c.lost
  }

  /** Only mapped grains are valid. */
  ghost predicate ValidIsMapped(t: Table) { forall g :: g in t.valid <==> Mapped(t, g) }

  /** The buffer as _do_wb_assign_ppa leaves it: distinct keys, distinct grains that no slot maps to. */
  ghost predicate BufferOk(v: Env, t: Table) {
    && (forall e, f :: 0 <= e < f < |v.buf| ==>
          v.buf[e].rec.key != v.buf[f].rec.key && v.buf[e].pga != v.buf[f].pga)
    && (forall e, l :: 0 <= e < |v.buf| && l in t.slot ==> t.slot[l] != v.buf[e].pga)
    && (forall g :: g in t.valid <==> Mapped(t, g) || exists e :: 0 <= e < |v.buf| && v.buf[e].pga == g)
  }

  /** What the device holds once _do_wb_flush has written the buffer. */
  ghost function Flushed(v: Env): (r: Records)
    ensures forall g :: g in v.flash ==> g in r
  {
    FlushedPrefix(v, |v.buf|)
  }

  ghost function FlushedPrefix(v: Env, n: nat): (r: Records)
    requires n <= |v.buf|
    ensures forall g :: g in v.flash ==> g in r
  {
    if n == 0 then v.flash else FlushedPrefix(v, n - 1)[v.buf[n - 1].pga := v.buf[n - 1].rec]
  }

  lemma {:induction false} FlushedAt(v: Env, n: nat)
    requires n <= |v.buf|
    requires forall e, f :: 0 <= e < f < |v.buf| ==> v.buf[e].pga != v.buf[f].pga
    ensures forall e :: 0 <= e < n ==>
      v.buf[e].pga in FlushedPrefix(v, n) && FlushedPrefix(v, n)[v.buf[e].pga] == v.buf[e].rec
    ensures forall g :: g in v.flash && (forall e :: 0 <= e < n ==> v.buf[e].pga != g) ==>
              FlushedPrefix(v, n)[g] == v.flash[g]
  {
    if n > 0 { FlushedAt(v, n - 1); }
  }

  // ---------------------------------------------------------------- the start of a flush

  lemma StartInv(v: Env, s: State)
    requires Start(v, s) && Quiet(v, s.t, s.c, v.flash) && BufferOk(v, s.t)
    ensures Inv(v, s.t.slot, Flushed(v), s)
  {
    StartPlaced(v, s);
    StartControl(v, s);
    StartBase(v, s.t, v.flash);
    StartSettled(v, s.t);
    StartProbes(v, s);
    hide Control, Probes, Settled;
    forall g ensures g in s.t.valid <==> Mapped(s.t, g) || Pending(v, s.w, g) {
      if Pending(v, s.w, g) { var e :| 0 <= e < |v.buf| && e !in s.w.done && v.buf[e].pga == g; }
      if e :| 0 <= e < |v.buf| && v.buf[e].pga == g { assert e !in s.w.done; }
    }
  }

  lemma StartControl(v: Env, s: State)
    requires Start(v, s) && Quiet(v, s.t, s.c, v.flash) && Placed(v, s)
    ensures Control(v, s, -1)
  {
    hide Settled, Covered, OobOk, Placed, LruOk;
  }

  lemma StartBase(v: Env, t: Table, flash: Records)
    requires EnvOk(v) && flash == v.flash && Settled(v, t.slot, flash, t.maxTry) && BufferOk(v, t)
    ensures BaseOk(v, t.slot, Flushed(v))
  {
    hide GetLpa, Passed;
    FlushedAt(v, |v.buf|);
    forall l | l in t.slot ensures OldGrain(v, Flushed(v), t.slot[l]) {
      var c: nat :| Home(v, t.slot, flash, t.maxTry, l, c);
    }
  }

  /** The buffer is written to grains no slot maps to, so the probing invariant is not disturbed. */
  lemma StartSettled(v: Env, t: Table)
    requires EnvOk(v) && Settled(v, t.slot, v.flash, t.maxTry) && BufferOk(v, t) && BaseOk(v, t.slot, Flushed(v))
    ensures Settled(v, t.slot, Flushed(v), t.maxTry)
  {
    hide GetLpa, Flushed;
    var store := Flushed(v);
    forall l | l in t.slot ensures exists c :: Home(v, t.slot, store, t.maxTry, l, c) {
      var c: nat :| Home(v, t.slot, v.flash, t.maxTry, l, c);
      forall d: nat | d < c ensures Taken(v, t.slot, store, store[t.slot[l]].key, d) {
        assert Taken(v, t.slot, v.flash, v.flash[t.slot[l]].key, d);
      }
      assert Home(v, t.slot, store, t.maxTry, l, c);
    }
  }

  lemma StartProbes(v: Env, s: State)
    requires Start(v, s) && BaseOk(v, s.t.slot, Flushed(v)) && OobOk(s.t)
    requires Settled(v, s.t.slot, Flushed(v), s.t.maxTry)
    ensures Probes(v, s.t.slot, Flushed(v), s.t, s.w)
  {
    hide GetLpa, Settled, Flushed, OobOk;
  }

  // ---------------------------------------------------------------- the end of a flush

  /** A finished flush leaves exactly the buffered records and the old records of all other keys. */
  lemma FlushResult(v: Env, t0: Slots, store: Records, s: State, r: Record)
    requires Inv(v, t0, store, s) && |s.w.done| >= |v.buf|
    ensures Has(s.t.slot, store, r) <==>
            if exists e :: 0 <= e < |v.buf| && v.buf[e].rec.key == r.key
            then exists e :: 0 <= e < |v.buf| && v.buf[e].rec == r
            else Has(t0, v.flash, r)
  {
    NothingLeftOver(v, s);
    hide GetLpa, Passed, FilterOk, EntriesOk, Control;
    if Has(s.t.slot, store, r) {
      var l :| l in s.t.slot && s.t.slot[l] in store && store[s.t.slot[l]] == r;
      HasAfter(v, t0, store, s, r, l);
    }
    if e :| 0 <= e < |v.buf| && v.buf[e].rec == r {
      var l := SlotOf(v, s.w, e);
      assert WrittenBy(v, s.w, e, l);
      assert store[s.t.slot[l]] == r;
    }
    if !(exists e :: 0 <= e < |v.buf| && v.buf[e].rec.key == r.key) && Has(t0, v.flash, r) {
      var l :| l in t0 && t0[l] in v.flash && v.flash[t0[l]] == r;
      OldSurvives(v, t0, store, s, r, l);
    }
  }

  lemma HasAfter(v: Env, t0: Slots, store: Records, s: State, r: Record, l: nat)
    requires Inv(v, t0, store, s) && (forall e: nat :: e in s.w.done <==> e < |v.buf|)
    requires l in s.t.slot && s.t.slot[l] in store && store[s.t.slot[l]] == r
    ensures (exists e :: 0 <= e < |v.buf| && v.buf[e].rec == r) ||
            (Has(t0, v.flash, r) && !exists e :: 0 <= e < |v.buf| && v.buf[e].rec.key == r.key)
  {
    hide GetLpa, Passed, FilterOk, EntriesOk, Control;
    if Written(v, s.w, l) {
      var e: nat :| WrittenBy(v, s.w, e, l);
      assert v.buf[e].rec == r;
    } else {
      assert OldGrain(v, store, t0[l]);
      assert l in t0 && t0[l] in v.flash && v.flash[t0[l]] == r;
      forall e | 0 <= e < |v.buf| ensures v.buf[e].rec.key != r.key {
        var m := SlotOf(v, s.w, e);
        assert WrittenBy(v, s.w, e, m);
        if v.buf[e].rec.key == r.key {
          KeyStoredOnce(v, s.t.slot, store, s.t.maxTry, l, m);
          assert false;
        }
      }
    }
  }

  lemma OldSurvives(v: Env, t0: Slots, store: Records, s: State, r: Record, l: nat)
    requires Inv(v, t0, store, s) && l in t0 && t0[l] in v.flash && v.flash[t0[l]] == r
    requires !exists e :: 0 <= e < |v.buf| && v.buf[e].rec.key == r.key
    ensures Has(s.t.slot, store, r)
  {
    hide GetLpa, Passed, FilterOk, EntriesOk, Control, Settled;
    assert OldGrain(v, store, t0[l]);
    assert l in s.t.slot && s.t.slot[l] in store && store[s.t.slot[l]].key == r.key;
    forall e: nat ensures !WrittenBy(v, s.w, e, l) {
      if WrittenBy(v, s.w, e, l) {
        WriterIsUnique(v, t0, store, s.t, s.w, e, e, l);
        assert false;
      }
    }
    assert store[s.t.slot[l]] == r;
  }

  /** After the flush the FTL is quiet again, ready for the next one, unless an update was lost. */
  lemma FlushEndsQuiet(v: Env, t0: Slots, store: Records, s: State)
    requires Inv(v, t0, store, s) && |s.w.done| >= |v.buf| && !s.c.lost
    ensures Quiet(v, s.t, s.c, store) && ValidIsMapped(s.t)
  {
    NothingLeftOver(v, s);
    EndPages(v, s);
    hide GetLpa, FilterOk, EntriesOk, JumpsOk, LoadsOk, Placed, LruOk, Settled, Covered, Grows;
    forall g ensures g in s.t.valid <==> Mapped(s.t, g) {
      assert !Pending(v, s.w, g);
    }
  }

  lemma EndPages(v: Env, s: State)
    requires Control(v, s, -1) && (forall e: nat :: e in s.w.done <==> e < |v.buf|)
    ensures forall p :: 0 <= p < |s.c.cmt| ==> !s.c.cmt[p].flying && s.c.cmt[p].retryQ == []
  {
    hide Placed, LruOk, JumpsOk;
    forall p | 0 <= p < |s.c.cmt| ensures !s.c.cmt[p].flying {
      forall e: nat ensures !Loader(v, s.w, e, p) {
        assert e < |v.buf| ==> e in s.w.done;
      }
    }
  }
}

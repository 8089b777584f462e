/**
 The open-addressing invariant of the hash KV FTL through a flush: every stored key sits at its
 first probe slot not held by another key, and nothing written before the flush is lost.
 */
module FlushProbing {
  import opened KeyOrder
  import opened FlushSpec
  import opened FlushPlaces
  import opened FlushControl

  type Slots = map<nat, nat>
  type Records = map<nat, Record>

  // ---------------------------------------------------------------- the probing invariant

  /** The c-th probe of k is held by another key. */
  ghost predicate Taken(v: Env, slot: Slots, store: Records, k: Key, c: nat)
    requires EnvOk(v)
  {
    var l := GetLpa(v, k, c);
    l in slot && slot[l] in store && store[slot[l]].key != k
  }

  ghost predicate Passed(v: Env, slot: Slots, store: Records, k: Key, n: nat)
    requires EnvOk(v)
  {
    forall c: nat :: c < n ==> Taken(v, slot, store, k, c)
  }

  /** The key stored at lpa got there on its c-th probe, all earlier ones being taken. */
  ghost predicate Home(v: Env, slot: Slots, store: Records, maxTry: nat, lpa: nat, c: nat)
    requires EnvOk(v)
  {
    && lpa in slot && slot[lpa] in store && c <= maxTry
    && GetLpa(v, store[slot[lpa]].key, c) == lpa
    && Passed(v, slot, store, store[slot[lpa]].key, c)
  }

  ghost predicate Settled(v: Env, slot: Slots, store: Records, maxTry: nat)
    requires EnvOk(v)
  {
    forall lpa :: lpa in slot ==> exists c :: Home(v, slot, store, maxTry, lpa, c)
  }

  /** Spare areas point back at the slots. */
  ghost predicate OobOk(t: Table) {
    forall lpa :: lpa in t.slot ==> t.slot[lpa] in t.oob && t.oob[t.slot[lpa]] == lpa
  }

  /** b refines a: filled slots stay filled and keep their key. */
  ghost predicate Grows(a: Slots, b: Slots, store: Records) {
    forall l :: l in a ==> l in b && a[l] in store && b[l] in store && store[a[l]].key == store[b[l]].key
  }

  lemma PassedGrows(v: Env, a: Slots, b: Slots, store: Records, k: Key, n: nat)
    requires EnvOk(v) && Grows(a, b, store) && Passed(v, a, store, k, n)
    ensures Passed(v, b, store, k, n)
  {
    hide GetLpa;
    forall c: nat | c < n ensures Taken(v, b, store, k, c) {
      assert Taken(v, a, store, k, c);
    }
  }

  lemma HomeGrows(v: Env, a: Slots, b: Slots, store: Records, m: nat, m': nat, lpa: nat, c: nat)
    requires EnvOk(v) && Grows(a, b, store) && Home(v, a, store, m, lpa, c) && m <= m'
    ensures Home(v, b, store, m', lpa, c)
  {
    hide GetLpa;
    PassedGrows(v, a, b, store, store[a[lpa]].key, c);
  }

  /** No key is stored twice. */
  lemma KeyStoredOnce(v: Env, slot: Slots, store: Records, maxTry: nat, a: nat, b: nat)
    requires EnvOk(v) && Settled(v, slot, store, maxTry) && a in slot && b in slot
    requires slot[a] in store && slot[b] in store && store[slot[a]].key == store[slot[b]].key
    ensures a == b
  {
    hide GetLpa;
    var k := store[slot[a]].key;
    var ca: nat :| Home(v, slot, store, maxTry, a, ca);
    var cb: nat :| Home(v, slot, store, maxTry, b, cb);
    assert ca < cb ==> Taken(v, slot, store, k, ca);
    assert cb < ca ==> Taken(v, slot, store, k, cb);
  }

  // ---------------------------------------------------------------- the flush

  /** What is known of the buffer and of the slots t0 filled when the flush starts. */
  ghost predicate BaseOk(v: Env, t0: Slots, store: Records) {
    && (forall e :: 0 <= e < |v.buf| ==> v.buf[e].pga in store && store[v.buf[e].pga] == v.buf[e].rec)
    && (forall e, f :: 0 <= e < f < |v.buf| ==>
          v.buf[e].rec.key != v.buf[f].rec.key && v.buf[e].pga != v.buf[f].pga)
    && (forall l :: l in t0 ==> OldGrain(v, store, t0[l]))
  }

  /** A grain written before this flush: what the device holds there is final. */
  ghost predicate OldGrain(v: Env, store: Records, g: nat) {
    && g in v.flash && g in store && store[g] == v.flash[g]
    && forall e :: 0 <= e < |v.buf| ==> v.buf[e].pga != g
  }

  /** Entry e was updated in this flush, at slot lpa. */
  ghost predicate WrittenBy(v: Env, w: Work, e: nat, lpa: nat)
    requires EnvOk(v) && WorkShape(v, w)
  {
    e in w.done && SlotOf(v, w, e) == lpa
  }

  ghost predicate Written(v: Env, w: Work, lpa: nat)
    requires EnvOk(v) && WorkShape(v, w)
  {
    exists e :: WrittenBy(v, w, e, lpa)
  }

  /** Every slot is as it was before the flush, or was written in it. */
  ghost predicate SlotsOk(v: Env, t0: Slots, store: Records, t: Table, w: Work)
    requires EnvOk(v) && WorkShape(v, w)
  {
    && Settled(v, t.slot, store, t.maxTry) && OobOk(t)
    && Grows(t0, t.slot, store)
    && (forall l :: l in t.slot ==> (l in t0 && t.slot[l] == t0[l]) || Written(v, w, l))
    && (forall e: nat, l: nat :: WrittenBy(v, w, e, l) ==> l in t.slot && t.slot[l] == v.buf[e].pga)
  }

  /** The filter holds exactly the slots written in this flush. */
  ghost predicate FilterOk(v: Env, t: Table, w: Work)
    requires EnvOk(v) && TableShape(v, t) && WorkShape(v, w)
  {
    && (forall b, l: nat :: 0 <= b < |t.ht| && l in t.ht[b] ==> Written(v, w, l))
    && (forall e: nat, l: nat :: WrittenBy(v, w, e, l) ==> HtFind(t.ht, v.buf[e].pga, l))
  }

  /** What the entries still on their way know about the slots they have probed. */
  ghost predicate EntriesOk(v: Env, store: Records, slot: Slots, w: Work)
    requires EnvOk(v) && WorkShape(v, w)
  {
    && (forall e: nat :: e < |v.buf| && e !in w.done ==> Passed(v, slot, store, v.buf[e].rec.key, w.cnt[e]))
    && (forall e: nat :: e < |v.buf| && e !in w.done && w.jump[e] == GotoUpdate ==> Holds(v, store, slot, w, e))
    && (forall e :: e in w.out && w.out[e].DataRead? ==> ReadOk(v, store, slot, w, e, w.out[e].pga))
  }

  /** The slot e is at holds an older version of e's own key. */
  ghost predicate Holds(v: Env, store: Records, slot: Slots, w: Work, e: nat)
    requires EnvOk(v) && WorkShape(v, w) && e < |v.buf|
  {
    var l := SlotOf(v, w, e);
    l in slot && slot[l] in store && store[slot[l]].key == v.buf[e].rec.key
  }

  /** A data read in flight is of a grain written before the flush that has the key now at e's slot. */
  ghost predicate ReadOk(v: Env, store: Records, slot: Slots, w: Work, e: nat, g: nat)
    requires EnvOk(v) && WorkShape(v, w) && e < |v.buf|
  {
    var l := SlotOf(v, w, e);
    l in slot && slot[l] in store && OldGrain(v, store, g) && store[g].key == store[slot[l]].key
  }

  /** The valid grains are the mapped ones and those of the entries not yet updated. */
  ghost predicate GrainsOk(v: Env, t: Table, w: Work) {
    forall g :: g in t.valid <==> Mapped(t, g) || Pending(v, w, g)
  }

  ghost predicate Mapped(t: Table, g: nat) { exists l :: l in t.slot && t.slot[l] == g }

  ghost predicate Pending(v: Env, w: Work, g: nat) {
    exists e :: 0 <= e < |v.buf| && e !in w.done && v.buf[e].pga == g
  }

  ghost predicate Probes(v: Env, t0: Slots, store: Records, t: Table, w: Work) {
    && EnvOk(v) && TableShape(v, t) && WorkShape(v, w) && BaseOk(v, t0, store)
    && SlotsOk(v, t0, store, t, w) && FilterOk(v, t, w) && EntriesOk(v, store, t.slot, w)
  }

  // ---------------------------------------------------------------- steps that move an entry

  lemma SlotsFrame(v: Env, t0: Slots, store: Records, t: Table, w: Work, r: Work)
    requires EnvOk(v) && TableShape(v, t) && WorkShape(v, w) && WorkShape(v, r)
    requires SlotsOk(v, t0, store, t, w) && FilterOk(v, t, w)
    requires forall e: nat, l: nat :: WrittenBy(v, r, e, l) == WrittenBy(v, w, e, l)
    ensures SlotsOk(v, t0, store, t, r) && FilterOk(v, t, r)
  {
    hide SlotOf, Settled, Grows, HtFind, OobOk;
    SameWritten(v, w, r);
  }

  /** The written slots and the entries' knowledge depend on the counts of the entries, not on the queues. */
  lemma MoveKeeps(v: Env, t0: Slots, store: Records, t: Table, w: Work, r: Work)
    requires Probes(v, t0, store, t, w) && WorkShape(v, r)
    requires r.cnt == w.cnt && r.done == w.done
    requires forall e :: 0 <= e < |v.buf| && r.jump[e] == GotoUpdate ==> w.jump[e] == GotoUpdate
    requires forall e :: e in r.out && r.out[e].DataRead? ==> e in w.out && w.out[e] == r.out[e]
    ensures Probes(v, t0, store, t, r)
  {
    hide GetLpa, Settled, Grows, HtFind, Passed;
    forall e: nat, l: nat ensures WrittenBy(v, r, e, l) == WrittenBy(v, w, e, l) { }
    SlotsFrame(v, t0, store, t, w, r);
    hide SlotsOk, FilterOk, WrittenBy;
    forall e: nat | e < |v.buf| && e !in r.done && r.jump[e] == GotoUpdate ensures Holds(v, store, t.slot, r, e) {
      assert Holds(v, store, t.slot, w, e);
    }
    forall e | e in r.out && r.out[e].DataRead? ensures ReadOk(v, store, t.slot, r, e, r.out[e].pga) {
      assert ReadOk(v, store, t.slot, w, e, w.out[e].pga);
    }
  }

  lemma SameWritten(v: Env, w: Work, r: Work)
    requires EnvOk(v) && WorkShape(v, w) && WorkShape(v, r)
    requires forall e: nat, l: nat :: WrittenBy(v, r, e, l) == WrittenBy(v, w, e, l)
    ensures forall l: nat :: Written(v, r, l) == Written(v, w, l)
  {
    hide SlotOf;
    forall l: nat ensures Written(v, r, l) == Written(v, w, l) {
      if Written(v, w, l) { var e: nat :| WrittenBy(v, w, e, l); assert WrittenBy(v, r, e, l); }
      if Written(v, r, l) { var e: nat :| WrittenBy(v, r, e, l); assert WrittenBy(v, w, e, l); }
    }
  }

  lemma AdvanceEntries(v: Env, store: Records, slot: Slots, w: Work, r: Work, e: nat)
    requires EnvOk(v) && WorkShape(v, w) && WorkShape(v, r) && EntriesOk(v, store, slot, w)
    requires e < |v.buf| && e !in w.out && w.jump[e] != GotoUpdate && r == w.(cnt := w.cnt[e := w.cnt[e] + 1])
    requires Taken(v, slot, store, v.buf[e].rec.key, w.cnt[e])
    ensures EntriesOk(v, store, slot, r)
  {
    hide GetLpa, Taken;
    forall f: nat | f < |v.buf| && f !in r.done && r.jump[f] == GotoUpdate ensures Holds(v, store, slot, r, f) {
      assert Holds(v, store, slot, w, f);
    }
    forall f | f in r.out && r.out[f].DataRead? ensures ReadOk(v, store, slot, r, f, r.out[f].pga) {
      assert ReadOk(v, store, slot, w, f, w.out[f].pga);
    }
  }

  /** The entry in hand goes on to its next slot when the one it is at holds another key. */
  lemma AdvanceKeeps(v: Env, t0: Slots, store: Records, t: Table, w: Work, e: nat)
    requires Probes(v, t0, store, t, w) && e < |v.buf| && e !in w.done && e !in w.out && w.jump[e] != GotoUpdate
    requires Taken(v, t.slot, store, v.buf[e].rec.key, w.cnt[e])
    ensures WorkShape(v, w.(cnt := w.cnt[e := w.cnt[e] + 1]))
    ensures Probes(v, t0, store, t, w.(cnt := w.cnt[e := w.cnt[e] + 1]))
  {
    hide GetLpa, SlotsOk, FilterOk, EntriesOk, Taken, BaseOk;
    var r := w.(cnt := w.cnt[e := w.cnt[e] + 1]);
    AdvanceEntries(v, store, t.slot, w, r, e);
    forall f: nat, l: nat ensures WrittenBy(v, r, f, l) == WrittenBy(v, w, f, l) { }
    SlotsFrame(v, t0, store, t, w, r);
  }

  /** The filter test at a filled slot: true exactly when the slot was written in this flush. */
  lemma FilterIsExact(v: Env, t0: Slots, store: Records, t: Table, w: Work, lpa: nat)
    requires Probes(v, t0, store, t, w) && lpa in t.slot
    ensures HtFind(t.ht, t.slot[lpa], lpa) <==> Written(v, w, lpa)
    ensures !Written(v, w, lpa) ==> OldGrain(v, store, t.slot[lpa])
  {
    hide SlotOf, Settled, Grows, EntriesOk, OobOk;
    if Written(v, w, lpa) {
      var e: nat :| WrittenBy(v, w, e, lpa);
      hide WrittenBy;
      assert t.slot[lpa] == v.buf[e].pga;
      assert HtFind(t.ht, v.buf[e].pga, lpa);
    }
  }

  /** Two buffered keys never write one slot, and a slot written in this flush holds its writer's key. */
  lemma WriterIsUnique(v: Env, t0: Slots, store: Records, t: Table, w: Work, e: nat, f: nat, lpa: nat)
    requires Probes(v, t0, store, t, w) && WrittenBy(v, w, e, lpa) && WrittenBy(v, w, f, lpa)
    ensures e == f && store[t.slot[lpa]] == v.buf[e].rec
  {
    hide GetLpa, Settled, Grows, HtFind;
    assert t.slot[lpa] == v.buf[e].pga == v.buf[f].pga;
  }

  lemma SlotInStore(v: Env, t0: Slots, store: Records, t: Table, w: Work, l: nat)
    requires Probes(v, t0, store, t, w) && l in t.slot
    ensures t.slot[l] in store
  {
    hide GetLpa, Grows, HtFind, Passed;
    var c: nat :| Home(v, t.slot, store, t.maxTry, l, c);
  }

  /** A slot the filter reports is held by another buffered key. */
  lemma FilteredIsTaken(v: Env, t0: Slots, store: Records, t: Table, w: Work, e: nat)
    requires Probes(v, t0, store, t, w) && e < |v.buf| && e !in w.done && SlotOf(v, w, e) in t.slot
    requires Written(v, w, SlotOf(v, w, e))
    ensures Taken(v, t.slot, store, v.buf[e].rec.key, w.cnt[e])
  {
    hide GetLpa, Settled, Grows, EntriesOk, FilterOk, OobOk;
    var lpa := SlotOf(v, w, e);
    var f: nat :| WrittenBy(v, w, f, lpa);
    assert t.slot[lpa] == v.buf[f].pga;
    assert e < f || f < e;
  }

  lemma CheckKeeps(v: Env, t0: Slots, store: Records, s: State, e: nat)
    requires Probes(v, t0, store, s.t, s.w) && Ready(v, s, e) && e !in s.w.done && e !in s.w.out
    requires s.w.jump[e] == NoJump && SlotOf(v, s.w, e) in s.t.slot
    requires WorkShape(v, DataCheck(v, s, e).w)
    ensures Probes(v, t0, store, s.t, DataCheck(v, s, e).w)
  {
    hide SlotOf, HtFind, Probes, Store, Written, Taken, OldGrain;
    var lpa := SlotOf(v, s.w, e);
    FilterIsExact(v, t0, store, s.t, s.w, lpa);
    if HtFind(s.t.ht, s.t.slot[lpa], lpa) {
      FilteredIsTaken(v, t0, store, s.t, s.w, e);
      AdvanceKeeps(v, t0, store, s.t, s.w, e);
    } else {
      ReadKeeps(v, t0, store, s.t, s.w, e);
    }
  }

  lemma ReadKeeps(v: Env, t0: Slots, store: Records, t: Table, w: Work, e: nat)
    requires Probes(v, t0, store, t, w) && e < |v.buf| && e !in w.done && e !in w.out && w.jump[e] == NoJump
    requires SlotOf(v, w, e) in t.slot && OldGrain(v, store, t.slot[SlotOf(v, w, e)])
    requires WorkShape(v, Issue(w, e, DataRead(t.slot[SlotOf(v, w, e)]), NoJump))
    ensures Probes(v, t0, store, t, Issue(w, e, DataRead(t.slot[SlotOf(v, w, e)]), NoJump))
  {
    hide GetLpa, Settled, Grows, HtFind, Passed;
    var r := Issue(w, e, DataRead(t.slot[SlotOf(v, w, e)]), NoJump);
    forall f: nat, l: nat ensures WrittenBy(v, r, f, l) == WrittenBy(v, w, f, l) { }
    SlotsFrame(v, t0, store, t, w, r);
    hide SlotsOk, FilterOk, WrittenBy;
    forall f: nat | f < |v.buf| && f !in r.done && r.jump[f] == GotoUpdate ensures Holds(v, store, t.slot, r, f) {
      assert Holds(v, store, t.slot, w, f);
    }
    forall f | f in r.out && r.out[f].DataRead? ensures ReadOk(v, store, t.slot, r, f, r.out[f].pga) {
      if f != e { assert ReadOk(v, store, t.slot, w, f, w.out[f].pga); }
    }
  }

  // ---------------------------------------------------------------- the update

  /** When entry e is updated its slot is empty or holds an older version of its key. */
  ghost predicate MayStore(v: Env, store: Records, t: Table, w: Work, e: nat)
    requires EnvOk(v) && WorkShape(v, w) && e < |v.buf|
  {
    SlotOf(v, w, e) !in t.slot || Holds(v, store, t.slot, w, e)
  }

  lemma StoreGrows(v: Env, t0: Slots, store: Records, t: Table, w: Work, e: nat)
    requires Probes(v, t0, store, t, w) && e < |v.buf| && MayStore(v, store, t, w, e)
    ensures Grows(t.slot, t.slot[SlotOf(v, w, e) := v.buf[e].pga], store)
  {
    hide GetLpa, HtFind, Passed;
    forall l | l in t.slot ensures t.slot[l] in store {
      SlotInStore(v, t0, store, t, w, l);
    }
  }

  lemma StoreSettled(v: Env, t0: Slots, store: Records, t: Table, w: Work, e: nat)
    requires Probes(v, t0, store, t, w) && e < |v.buf| && e !in w.done && MayStore(v, store, t, w, e)
    ensures var r := StoredTable(v, t, e, SlotOf(v, w, e), w.cnt[e]); Settled(v, r.slot, store, r.maxTry)
  {
    hide GetLpa, HtFind, FilterOk;
    var lpa := SlotOf(v, w, e);
    var r := StoredTable(v, t, e, lpa, w.cnt[e]);
    StoreGrows(v, t0, store, t, w, e);
    forall l | l in r.slot ensures exists c :: Home(v, r.slot, store, r.maxTry, l, c) {
      if l == lpa {
        PassedGrows(v, t.slot, r.slot, store, v.buf[e].rec.key, w.cnt[e]);
        assert Home(v, r.slot, store, r.maxTry, l, w.cnt[e]);
      } else {
        var c: nat :| Home(v, t.slot, store, t.maxTry, l, c);
        HomeGrows(v, t.slot, r.slot, store, t.maxTry, r.maxTry, l, c);
      }
    }
  }

  /** The slot is not one written earlier in this flush, and the new grain is not mapped yet. */
  lemma StoreIsFresh(v: Env, t0: Slots, store: Records, t: Table, w: Work, e: nat)
    requires Probes(v, t0, store, t, w) && e < |v.buf| && e !in w.done && MayStore(v, store, t, w, e)
    ensures !Written(v, w, SlotOf(v, w, e))
    ensures forall l :: l in t.slot ==> t.slot[l] != v.buf[e].pga
  {
    hide GetLpa, HtFind, Settled;
    var lpa := SlotOf(v, w, e);
    forall f: nat, l: nat | WrittenBy(v, w, f, l)
      ensures f != e && f < |v.buf| && t.slot[l] == v.buf[f].pga && l != lpa
    {
      WriterIsUnique(v, t0, store, t, w, f, f, l);
    }
    forall l | l in t.slot ensures t.slot[l] != v.buf[e].pga {
      if Written(v, w, l) { var f: nat :| WrittenBy(v, w, f, l); } else { assert OldGrain(v, store, t0[l]); }
    }
  }

  lemma StoreWritten(v: Env, w: Work, e: nat)
    requires EnvOk(v) && WorkShape(v, w) && e < |v.buf|
    ensures var r := w.(done := w.done + {e}, hand := Empty);
            && WorkShape(v, r)
            && (forall f: nat, l: nat ::
                  WrittenBy(v, r, f, l) <==> WrittenBy(v, w, f, l) || (f == e && l == SlotOf(v, w, e)))
            && (forall l: nat :: Written(v, r, l) <==> Written(v, w, l) || l == SlotOf(v, w, e))
  {
    hide GetLpa;
    var r := w.(done := w.done + {e}, hand := Empty);
    var lpa := SlotOf(v, w, e);
    assert forall f: nat, l: nat :: WrittenBy(v, r, f, l) <==> WrittenBy(v, w, f, l) || (f == e && l == lpa);
    forall l: nat ensures Written(v, r, l) <==> Written(v, w, l) || l == lpa {
      if Written(v, w, l) { var f: nat :| WrittenBy(v, w, f, l); assert WrittenBy(v, r, f, l); }
      if Written(v, r, l) { var f: nat :| WrittenBy(v, r, f, l); assert f == e || WrittenBy(v, w, f, l); }
      assert WrittenBy(v, r, e, lpa);
    }
  }

  lemma StoreKeeps(v: Env, t0: Slots, store: Records, s: State, e: nat)
    requires Probes(v, t0, store, s.t, s.w) && Ready(v, s, e) && e !in s.w.done && MayStore(v, store, s.t, s.w, e)
    ensures WorkShape(v, Store(v, s, e).w) && Probes(v, t0, store, Store(v, s, e).t, Store(v, s, e).w)
  {
    StoreSlots(v, t0, store, s.t, s.w, e);
    StoreFilter(v, s.t, s.w, e);
    StoreEntries(v, t0, store, s.t, s.w, e);
    hide SlotsOk, FilterOk, EntriesOk, BaseOk;
    StoreWritten(v, s.w, e);
  }

  lemma StoreSlots(v: Env, t0: Slots, store: Records, t: Table, w: Work, e: nat)
    requires Probes(v, t0, store, t, w) && e < |v.buf| && e !in w.done && MayStore(v, store, t, w, e)
    ensures var r := w.(done := w.done + {e}, hand := Empty);
            WorkShape(v, r) && SlotsOk(v, t0, store, StoredTable(v, t, e, SlotOf(v, w, e), w.cnt[e]), r)
  {
    hide GetLpa, HtFind, HtInsert, Passed, FilterOk, EntriesOk;
    StoreGrows(v, t0, store, t, w, e);
    StoreIsFresh(v, t0, store, t, w, e);
    StoreWritten(v, w, e);
    StoreSettled(v, t0, store, t, w, e);
  }

  lemma StoreFilter(v: Env, t: Table, w: Work, e: nat)
    requires EnvOk(v) && TableShape(v, t) && WorkShape(v, w) && FilterOk(v, t, w) && e < |v.buf|
    ensures var r := w.(done := w.done + {e}, hand := Empty);
            WorkShape(v, r) && FilterOk(v, StoredTable(v, t, e, SlotOf(v, w, e), w.cnt[e]), r)
  {
    hide GetLpa;
    StoreWritten(v, w, e);
  }

  lemma StoreEntries(v: Env, t0: Slots, store: Records, t: Table, w: Work, e: nat)
    requires Probes(v, t0, store, t, w) && e < |v.buf| && e !in w.done && MayStore(v, store, t, w, e)
    ensures var r := w.(done := w.done + {e}, hand := Empty);
            WorkShape(v, r) && EntriesOk(v, store, t.slot[SlotOf(v, w, e) := v.buf[e].pga], r)
  {
    hide GetLpa, HtFind, Settled;
    var r := w.(done := w.done + {e}, hand := Empty);
    var slot := t.slot[SlotOf(v, w, e) := v.buf[e].pga];
    StoreGrows(v, t0, store, t, w, e);
    forall f: nat | f < |v.buf| && f !in r.done ensures Passed(v, slot, store, v.buf[f].rec.key, r.cnt[f]) {
      PassedGrows(v, t.slot, slot, store, v.buf[f].rec.key, w.cnt[f]);
    }
    forall f: nat | f < |v.buf| && f !in r.done && r.jump[f] == GotoUpdate ensures Holds(v, store, slot, r, f) {
      assert Holds(v, store, t.slot, w, f);
    }
    forall f | f in r.out && r.out[f].DataRead? ensures ReadOk(v, store, slot, r, f, r.out[f].pga) {
      assert ReadOk(v, store, t.slot, w, f, w.out[f].pga);
    }
  }

  // ---------------------------------------------------------------- grains

  /** The grain freed by wb_update was valid, so the abort in invalidate_page is dead code; and the
      valid grains are again the mapped and the pending ones. */
  lemma StoreGrains(v: Env, t0: Slots, store: Records, s: State, e: nat)
    requires Probes(v, t0, store, s.t, s.w) && Ready(v, s, e) && e !in s.w.done && GrainsOk(v, s.t, s.w)
    requires Holds(v, store, s.t.slot, s.w, e)
    ensures s.t.slot[SlotOf(v, s.w, e)] in s.t.valid
    ensures GrainsOk(v, Update(v, s, e).t, Update(v, s, e).w)
  {
    hide GetLpa, HtFind, Settled, FilterOk, EntriesOk, Touch;
    StoreIsFresh(v, t0, store, s.t, s.w, e);
    var lpa := SlotOf(v, s.w, e);
    var r := Update(v, s, e);
    var gone := s.t.slot[lpa];
    assert Mapped(s.t, gone);
    assert r.t.slot[lpa] == v.buf[e].pga;
    forall g ensures g in r.t.valid <==> Mapped(r.t, g) || Pending(v, r.w, g) {
      MappedAfter(s.t, r.t, lpa, v.buf[e].pga, g);
      PendingAfter(v, s.w, r.w, e, g);
      if g == gone { OldGrainNotPending(v, t0, store, s.t, s.w, lpa); }
    }
  }

  lemma OldGrainNotPending(v: Env, t0: Slots, store: Records, t: Table, w: Work, lpa: nat)
    requires Probes(v, t0, store, t, w) && lpa in t.slot
    ensures !Pending(v, w, t.slot[lpa])
  {
    hide GetLpa, HtFind, Settled, Grows;
    FilterIsExact(v, t0, store, t, w, lpa);
    if Written(v, w, lpa) {
      var f: nat :| WrittenBy(v, w, f, lpa);
      forall e | 0 <= e < |v.buf| && v.buf[e].pga == t.slot[lpa] ensures e in w.done {
        assert v.buf[f].pga == v.buf[e].pga;
        assert e == f || e < f || f < e;
      }
    }
  }

  lemma MappedAfter(t: Table, r: Table, lpa: nat, g': nat, g: nat)
    requires r.slot == t.slot[lpa := g'] && OobOk(t)
    ensures Mapped(r, g) <==> g == g' || (Mapped(t, g) && !(lpa in t.slot && t.slot[lpa] == g))
  {
    assert r.slot[lpa] == g';
    if Mapped(t, g) {
      var l :| l in t.slot && t.slot[l] == g;
      if l != lpa { assert r.slot[l] == g; }
    }
    if Mapped(r, g) && g != g' {
      var l :| l in r.slot && r.slot[l] == g;
      assert l in t.slot && t.slot[l] == g;
    }
  }

  lemma PendingAfter(v: Env, w: Work, r: Work, e: nat, g: nat)
    requires e < |v.buf| && e !in w.done && r.done == w.done + {e}
    requires forall i, j :: 0 <= i < j < |v.buf| ==> v.buf[i].pga != v.buf[j].pga
    ensures Pending(v, r, g) <==> Pending(v, w, g) && g != v.buf[e].pga
  {
    if Pending(v, w, g) && g != v.buf[e].pga {
      var f :| 0 <= f < |v.buf| && f !in w.done && v.buf[f].pga == g;
      assert f !in r.done;
    }
    if Pending(v, r, g) {
      var f :| 0 <= f < |v.buf| && f !in r.done && v.buf[f].pga == g;
      assert f !in w.done && f != e;
      assert f < e || e < f;
    }
  }

  lemma DirectGrains(v: Env, t0: Slots, store: Records, s: State, e: nat)
    requires Probes(v, t0, store, s.t, s.w) && Ready(v, s, e) && e !in s.w.done && GrainsOk(v, s.t, s.w)
    requires SlotOf(v, s.w, e) !in s.t.slot
    ensures GrainsOk(v, Store(v, s, e).t, Store(v, s, e).w)
  {
    hide GetLpa, HtFind, Settled, FilterOk, EntriesOk, Touch;
    var r := Store(v, s, e);
    forall g ensures g in r.t.valid <==> Mapped(r.t, g) || Pending(v, r.w, g) {
      MappedAfter(s.t, r.t, SlotOf(v, s.w, e), v.buf[e].pga, g);
      PendingAfter(v, s.w, r.w, e, g);
      assert Pending(v, s.w, v.buf[e].pga);
    }
  }
}

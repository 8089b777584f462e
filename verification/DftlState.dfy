/**
 State and invariants of the DFTL mapping cache (algorithm/dftl, normal mode): which translation pages
 are cached or being loaded, where every request is, and which request owns each load.
 */
module DftlState {
  import opened Sequences
  import opened FlashBlocks
  import opened BlockManager

  /** A CMT entry; tppa None is -1, and parked are the requests in flying_arr. */
  datatype Entry = Entry(cached: bool, dirty: bool, tppa: Option<Addr>, flying: bool, parked: seq<nat>)

  /** A request names the translation page of its address. */
  datatype Request = Request(page: nat, isWrite: bool)

  datatype Kind = MapRead | MapWrite

  /** The read_params of a request that owns a load. */
  datatype Param = Param(read: bool, tppa: Option<Addr>)

  datatype Cache = Cache(cmt: seq<Entry>, lru: seq<nat>, numCaching: nat, numFlying: nat)

  datatype Work = Work(queue: set<nat>, waiting: seq<nat>, out: map<nat, Kind>, params: map<nat, Param>, done: set<nat>)

  // ---------------------------------------------------------------- the cache

  function Flying(cmt: seq<Entry>): set<nat> { set p: nat | p < |cmt| && cmt[p].flying }

  ghost predicate EntryOk(e: Entry) {
    && (e.flying ==> !e.cached) && (e.dirty ==> e.cached) && (!e.flying ==> e.parked == [])
    && (e.cached && !e.dirty ==> e.tppa.Some?)
  }

  /** The counters are exact and within the limit; lists and flags agree. */
  ghost predicate CacheOk(c: Cache, max: nat) {
    && NoDup(c.lru) && (forall p: nat :: p in c.lru <==> p < |c.cmt| && c.cmt[p].cached)
    && c.numCaching == |c.lru| && c.numFlying == |Flying(c.cmt)| && c.numCaching + c.numFlying <= max
    && forall p: nat :: p < |c.cmt| ==> EntryOk(c.cmt[p])
  }

  lemma InitNoDup(s: seq<nat>)
    requires NoDup(s) && s != []
    ensures NoDup(s[..|s| - 1]) && forall x: nat :: x in s[..|s| - 1] <==> x in s && x != s[|s| - 1]
  {
    var n := |s| - 1;
    assert s == s[..n] + [s[n]];
    assert s[n] !in s[..n];
  }

  lemma TouchOk(c: Cache, max: nat, p: nat)
    requires CacheOk(c, max) && p in c.lru
    ensures CacheOk(c.(lru := ToFront(c.lru, p)), max)
  {
    WithoutIs(c.lru, p);
    ConsNoDup(p, Without(c.lru, p));
  }

  /** Entries keep their flight and their presence in the cache. */
  lemma SameFlags(c: Cache, max: nat, cmt: seq<Entry>)
    requires CacheOk(c, max) && |cmt| == |c.cmt|
    requires forall p: nat :: p < |cmt| ==>
      cmt[p].cached == c.cmt[p].cached && cmt[p].flying == c.cmt[p].flying && EntryOk(cmt[p])
    ensures CacheOk(c.(cmt := cmt), max)
  {
    assert Flying(cmt) == Flying(c.cmt);
  }

  /** lru_pop and the clearing of the popped entry. */
  lemma EvictOk(c: Cache, max: nat, e: Entry)
    requires CacheOk(c, max) && c.lru != []
    requires !e.cached && !e.dirty && !e.flying && e.parked == []
    ensures c.lru[|c.lru| - 1] < |c.cmt| && c.cmt[c.lru[|c.lru| - 1]].cached && c.numCaching > 0
    ensures CacheOk(Cache(c.cmt[c.lru[|c.lru| - 1] := e], c.lru[..|c.lru| - 1], c.numCaching - 1, c.numFlying), max)
  {
    var n := |c.lru| - 1;
    var p := c.lru[n];
    assert p in c.lru;
    InitNoDup(c.lru);
    assert EntryOk(c.cmt[p]) && !c.cmt[p].flying;
    var cmt := c.cmt[p := e];
    forall x: nat ensures x in c.lru[..n] <==> x < |cmt| && cmt[x].cached {
      assert x in c.lru <==> x < |c.cmt| && c.cmt[x].cached;
    }
    assert forall x: nat :: x < |cmt| ==> EntryOk(cmt[x]);
    assert Flying(c.cmt[p := e]) == Flying(c.cmt);
  }

  lemma FlyOk(c: Cache, max: nat, p: nat)
    requires CacheOk(c, max) && p < |c.cmt| && !c.cmt[p].cached && !c.cmt[p].flying && c.numCaching + c.numFlying < max
    ensures CacheOk(c.(cmt := c.cmt[p := c.cmt[p].(flying := true)], numFlying := c.numFlying + 1), max)
  {
    assert Flying(c.cmt[p := c.cmt[p].(flying := true)]) == Flying(c.cmt) + {p};
  }

  /** The page is put in the cache, ending its flight if it was in one. */
  lemma AdmitOk(c: Cache, max: nat, p: nat, e: Entry)
    requires CacheOk(c, max) && p < |c.cmt| && !c.cmt[p].cached && (c.cmt[p].flying || c.numCaching + c.numFlying < max)
    requires e.cached && !e.flying && e.parked == [] && (e.tppa.None? ==> e.dirty)
    ensures c.cmt[p].flying ==> c.numFlying > 0
    ensures var fl := if c.cmt[p].flying then c.numFlying - 1 else c.numFlying;
            CacheOk(Cache(c.cmt[p := e], [p] + c.lru, c.numCaching + 1, fl), max)
  {
    assert Flying(c.cmt[p := e]) == Flying(c.cmt) - {p};
    assert c.cmt[p].flying ==> p in Flying(c.cmt);
    ConsNoDup(p, c.lru);
  }

  lemma ParkOk(c: Cache, max: nat, p: nat, r: nat)
    requires CacheOk(c, max) && p < |c.cmt| && c.cmt[p].flying
    ensures CacheOk(c.(cmt := c.cmt[p := c.cmt[p].(parked := c.cmt[p].parked + [r])]), max)
  {
    SameFlags(c, max, c.cmt[p := c.cmt[p].(parked := c.cmt[p].parked + [r])]);
  }

  /** With room for a flight but none for another page, there is a page to evict. */
  lemma SomethingToEvict(c: Cache, max: nat)
    requires CacheOk(c, max) && c.numCaching + c.numFlying == max && c.numFlying != max
    ensures c.lru != []
  {
  }

  // ---------------------------------------------------------------- the requests

  datatype Place = Queued | Waiting | Parked | Out | Done

  function Members(s: seq<nat>): set<nat> { set x | x in s }

  /** Every request is in exactly one place. */
  ghost predicate Placed(reqs: seq<Request>, cmt: seq<Entry>, w: Work, place: seq<Place>) {
    && |place| == |reqs| && (forall r :: 0 <= r < |reqs| ==> reqs[r].page < |cmt|)
    && (forall r: nat :: r in w.queue <==> r < |reqs| && place[r] == Queued)
    && (forall r: nat :: r in w.out <==> r < |reqs| && place[r] == Out)
    && (forall r: nat :: r in w.done <==> r < |reqs| && place[r] == Done)
    && NoDup(w.waiting) && (forall r: nat :: r in w.waiting <==> r < |reqs| && place[r] == Waiting)
    && AllParked(reqs, cmt, place)
  }

  ghost predicate AllParked(reqs: seq<Request>, cmt: seq<Entry>, place: seq<Place>)
    requires |place| == |reqs|
  {
    forall p: nat :: p < |cmt| ==> ParkedAt(reqs, cmt[p].parked, place, p)
  }

  ghost predicate ParkedAt(reqs: seq<Request>, parked: seq<nat>, place: seq<Place>, p: nat)
    requires |place| == |reqs|
  {
    NoDup(parked) && forall r: nat :: r in parked <==> r < |reqs| && place[r] == Parked && reqs[r].page == p
  }

  /** Every flying page has one owner, a request that is queued or at the device, and nothing else holds parameters. */
  ghost predicate Owned(reqs: seq<Request>, cmt: seq<Entry>, w: Work, owner: map<nat, nat>) {
    && (forall p: nat :: p in owner <==> p < |cmt| && cmt[p].flying)
    && (forall p: nat :: p in owner ==> owner[p] in w.params && owner[p] < |reqs| && reqs[owner[p]].page == p)
    && (forall r: nat :: r in w.params ==> r < |reqs| && (r in w.queue || r in w.out)
                                           && reqs[r].page in owner && owner[reqs[r].page] == r)
    && (forall r: nat :: r in w.out ==> r in w.params && !w.params[r].read)
  }

  /** A load that reads a translation page has one to read; so does every read request that owns a load. */
  ghost predicate Readable(reqs: seq<Request>, cmt: seq<Entry>, w: Work) {
    forall r: nat :: r in w.params && r < |reqs| && reqs[r].page < |cmt| ==>
      (!reqs[r].isWrite || w.params[r].read || (r in w.out && w.out[r] == MapRead)) ==> cmt[reqs[r].page].tppa.Some?
  }

  ghost predicate WorkOk(reqs: seq<Request>, cmt: seq<Entry>, w: Work, place: seq<Place>, owner: map<nat, nat>) {
    Placed(reqs, cmt, w, place) && Owned(reqs, cmt, w, owner) && Readable(reqs, cmt, w)
  }

  /** Flights and parked requests are the same, and no translation address is lost. */
  ghost predicate Steady(cmt: seq<Entry>, cmt': seq<Entry>) {
    |cmt'| == |cmt| && forall p: nat :: p < |cmt| ==>
      cmt'[p].flying == cmt[p].flying && cmt'[p].parked == cmt[p].parked && (cmt[p].tppa.Some? ==> cmt'[p].tppa.Some?)
  }

  lemma SteadyOk(reqs: seq<Request>, cmt: seq<Entry>, cmt': seq<Entry>, w: Work, place: seq<Place>,
                 owner: map<nat, nat>)
    requires WorkOk(reqs, cmt, w, place, owner) && Steady(cmt, cmt')
    ensures WorkOk(reqs, cmt', w, place, owner)
  {
  }

  lemma ParkedStill(reqs: seq<Request>, cmt: seq<Entry>, place: seq<Place>, r: nat, pl: Place)
    requires |place| == |reqs| && AllParked(reqs, cmt, place) && r < |reqs| && place[r] != Parked && pl != Parked
    ensures AllParked(reqs, cmt, place[r := pl])
  {
    forall p: nat | p < |cmt| ensures ParkedAt(reqs, cmt[p].parked, place[r := pl], p) {
      assert ParkedAt(reqs, cmt[p].parked, place, p);
    }
  }

  lemma ParkedNow(reqs: seq<Request>, cmt: seq<Entry>, place: seq<Place>, r: nat)
    requires |place| == |reqs| && AllParked(reqs, cmt, place) && r < |reqs| && place[r] != Parked
    requires reqs[r].page < |cmt|
    ensures var p := reqs[r].page; AllParked(reqs, cmt[p := cmt[p].(parked := cmt[p].parked + [r])], place[r := Parked])
  {
    var p := reqs[r].page;
    var cmt' := cmt[p := cmt[p].(parked := cmt[p].parked + [r])];
    assert ParkedAt(reqs, cmt[p].parked, place, p);
    AppendNoDup(cmt[p].parked, r);
    forall q: nat | q < |cmt| ensures ParkedAt(reqs, cmt'[q].parked, place[r := Parked], q) {
      assert ParkedAt(reqs, cmt[q].parked, place, q);
    }
  }

  /** A queued request without a load of its own is finished. */
  lemma FinishOk(reqs: seq<Request>, cmt: seq<Entry>, w: Work, place: seq<Place>, owner: map<nat, nat>, r: nat)
    requires WorkOk(reqs, cmt, w, place, owner) && r in w.queue && r !in w.params
    ensures WorkOk(reqs, cmt, w.(queue := w.queue - {r}, done := w.done + {r}), place[r := Done], owner)
  {
    hide AllParked;
    ParkedStill(reqs, cmt, place, r, Done);
  }

  lemma WaitOk(reqs: seq<Request>, cmt: seq<Entry>, w: Work, place: seq<Place>, owner: map<nat, nat>, r: nat)
    requires WorkOk(reqs, cmt, w, place, owner) && r in w.queue && r !in w.params
    ensures WorkOk(reqs, cmt, w.(queue := w.queue - {r}, waiting := w.waiting + [r]), place[r := Waiting], owner)
  {
    hide AllParked;
    ParkedStill(reqs, cmt, place, r, Waiting);
    AppendNoDup(w.waiting, r);
  }

  lemma ParkWorkOk(reqs: seq<Request>, cmt: seq<Entry>, w: Work, place: seq<Place>, owner: map<nat, nat>, r: nat)
    requires WorkOk(reqs, cmt, w, place, owner) && r in w.queue && r !in w.params && cmt[reqs[r].page].flying
    ensures var p := reqs[r].page;
            WorkOk(reqs, cmt[p := cmt[p].(parked := cmt[p].parked + [r])], w.(queue := w.queue - {r}),
                   place[r := Parked], owner)
  {
    hide AllParked;
    ParkedNow(reqs, cmt, place, r);
  }

  /** The request starts a load of its page and goes to the device. */
  lemma DepartOk(reqs: seq<Request>, cmt: seq<Entry>, w: Work, place: seq<Place>, owner: map<nat, nat>, r: nat,
                 kind: Kind, t: Option<Addr>)
    requires WorkOk(reqs, cmt, w, place, owner) && r in w.queue && r !in w.params && !cmt[reqs[r].page].flying
    requires kind == MapRead || !reqs[r].isWrite ==> cmt[reqs[r].page].tppa.Some?
    ensures var p := reqs[r].page;
            WorkOk(reqs, cmt[p := cmt[p].(flying := true)],
                   w.(queue := w.queue - {r}, out := w.out[r := kind], params := w.params[r := Param(false, t)]),
                   place[r := Out], owner[p := r])
  {
    hide AllParked, Owned;
    var p := reqs[r].page;
    ParkedStill(reqs, cmt, place, r, Out);
    ParkedSame(reqs, cmt, cmt[p := cmt[p].(flying := true)], place[r := Out]);
    DepartOwned(reqs, cmt, w, owner, r, kind, t);
  }

  lemma DepartOwned(reqs: seq<Request>, cmt: seq<Entry>, w: Work, owner: map<nat, nat>, r: nat, kind: Kind,
                    t: Option<Addr>)
    requires Owned(reqs, cmt, w, owner) && r < |reqs| && reqs[r].page < |cmt| && r !in w.params
    requires !cmt[reqs[r].page].flying
    ensures var p := reqs[r].page;
            Owned(reqs, cmt[p := cmt[p].(flying := true)],
                  w.(queue := w.queue - {r}, out := w.out[r := kind], params := w.params[r := Param(false, t)]),
                  owner[p := r])
  {
  }

  lemma ParkedSame(reqs: seq<Request>, cmt: seq<Entry>, cmt': seq<Entry>, place: seq<Place>)
    requires |place| == |reqs| && AllParked(reqs, cmt, place) && |cmt'| == |cmt|
    requires forall p: nat :: p < |cmt| ==> cmt'[p].parked == cmt[p].parked
    ensures AllParked(reqs, cmt', place)
  {
  }

  /** The owner of a load goes to the device again to read the page. */
  lemma RereadOk(reqs: seq<Request>, cmt: seq<Entry>, w: Work, place: seq<Place>, owner: map<nat, nat>, r: nat,
                 t: Option<Addr>)
    requires WorkOk(reqs, cmt, w, place, owner) && r in w.queue && r in w.params && cmt[reqs[r].page].tppa.Some?
    ensures WorkOk(reqs, cmt,
                   w.(queue := w.queue - {r}, out := w.out[r := MapRead], params := w.params[r := Param(false, t)]),
                   place[r := Out], owner)
  {
    hide AllParked;
    ParkedStill(reqs, cmt, place, r, Out);
  }

  /** The device completes a request. */
  lemma CompleteOk(reqs: seq<Request>, cmt: seq<Entry>, w: Work, place: seq<Place>, owner: map<nat, nat>, r: nat)
    requires WorkOk(reqs, cmt, w, place, owner) && r in w.out
    ensures r in w.params
    ensures WorkOk(reqs, cmt, w.(queue := w.queue + {r}, out := w.out - {r},
                                 params := if w.out[r] == MapRead then w.params[r := w.params[r].(read := true)]
                                           else w.params),
                   place[r := Queued], owner)
  {
    hide AllParked;
    ParkedStill(reqs, cmt, place, r, Queued);
  }

  /** Everything that waited for the load of page p, or for any load to end, is queued again. */
  ghost function Released(reqs: seq<Request>, place: seq<Place>, p: nat): seq<Place>
    requires |place| == |reqs|
  {
    seq(|place|, (i: int) => if 0 <= i < |place| then ReleasedAt(reqs, place, p, i) else Done)
  }

  ghost function ReleasedAt(reqs: seq<Request>, place: seq<Place>, p: nat, i: nat): Place
    requires i < |place| == |reqs|
  {
    if place[i] == Waiting || (place[i] == Parked && reqs[i].page == p) then Queued else place[i]
  }

  lemma ReleasedParked(reqs: seq<Request>, cmt: seq<Entry>, place: seq<Place>, p: nat, e: Entry)
    requires |place| == |reqs| && AllParked(reqs, cmt, place) && p < |cmt| && e.parked == []
    ensures AllParked(reqs, cmt[p := e], Released(reqs, place, p))
  {
    var place' := Released(reqs, place, p);
    var cmt' := cmt[p := e];
    forall q: nat | q < |cmt| ensures ParkedAt(reqs, cmt'[q].parked, place', q) {
      assert ParkedAt(reqs, cmt[q].parked, place, q);
    }
  }

  /** The load ends: its owner r is finished and everything waiting is queued again. */
  lemma LandOk(reqs: seq<Request>, cmt: seq<Entry>, w: Work, place: seq<Place>, owner: map<nat, nat>, r: nat, e: Entry)
    requires WorkOk(reqs, cmt, w, place, owner) && r in w.queue && r in w.params
    requires !e.flying && e.parked == [] && (cmt[reqs[r].page].tppa.Some? ==> e.tppa.Some?)
    ensures reqs[r].page < |cmt| && cmt[reqs[r].page].flying
    ensures var p := reqs[r].page;
            WorkOk(reqs, cmt[p := e],
                   Work(w.queue + Members(cmt[p].parked) + Members(w.waiting) - {r}, [], w.out, w.params - {r},
                        w.done + {r}),
                   Released(reqs, place, p)[r := Done], owner - {p})
  {
    hide Placed, Owned;
    LandPlaced(reqs, cmt, w, place, r, e);
    LandOwned(reqs, cmt, w, owner, r, e);
  }

  lemma LandOwned(reqs: seq<Request>, cmt: seq<Entry>, w: Work, owner: map<nat, nat>, r: nat, e: Entry)
    requires Owned(reqs, cmt, w, owner) && r in w.params && r !in w.out && !e.flying
    ensures r < |reqs| && reqs[r].page < |cmt| && cmt[reqs[r].page].flying
    ensures var p := reqs[r].page;
            Owned(reqs, cmt[p := e],
                  Work(w.queue + Members(cmt[p].parked) + Members(w.waiting) - {r}, [], w.out, w.params - {r},
                       w.done + {r}),
                  owner - {p})
  {
    assert owner[reqs[r].page] == r;
  }

  lemma LandPlaced(reqs: seq<Request>, cmt: seq<Entry>, w: Work, place: seq<Place>, r: nat, e: Entry)
    requires Placed(reqs, cmt, w, place) && r in w.queue && !e.flying && e.parked == []
    ensures r < |reqs| && reqs[r].page < |cmt| && r !in w.out
    ensures var p := reqs[r].page;
            Placed(reqs, cmt[p := e],
                   Work(w.queue + Members(cmt[p].parked) + Members(w.waiting) - {r}, [], w.out, w.params - {r},
                        w.done + {r}),
                   Released(reqs, place, p)[r := Done])
  {
    var p := reqs[r].page;
    assert ParkedAt(reqs, cmt[p].parked, place, p);
    hide AllParked;
    ReleasedParked(reqs, cmt, place, p, e);
    ParkedStill(reqs, cmt[p := e], Released(reqs, place, p), r, Done);
  }

  // ---------------------------------------------------------------- nobody is stranded

  /** As long as a request is unfinished, one can be dispatched or the device will complete one. */
  lemma NobodyStranded(reqs: seq<Request>, c: Cache, max: nat, w: Work, place: seq<Place>, owner: map<nat, nat>, r: nat)
    requires CacheOk(c, max) && WorkOk(reqs, c.cmt, w, place, owner) && max > 0
    requires w.waiting != [] ==> c.numFlying == max
    requires r < |reqs| && r !in w.done
    ensures w.queue != {} || w.out.Keys != {}
  {
    match place[r] {
      case Queued => assert r in w.queue;
      case Out => assert r in w.out;
      case Done =>
      case Waiting =>
        assert r in w.waiting;
        var p :| p in Flying(c.cmt);
        FlightHasOwner(reqs, c, w, owner, p);
      case Parked =>
        var p := reqs[r].page;
        assert ParkedAt(reqs, c.cmt[p].parked, place, p) && EntryOk(c.cmt[p]);
        FlightHasOwner(reqs, c, w, owner, p);
    }
  }

  lemma FlightHasOwner(reqs: seq<Request>, c: Cache, w: Work, owner: map<nat, nat>, p: nat)
    requires Owned(reqs, c.cmt, w, owner) && p < |c.cmt| && c.cmt[p].flying
    ensures w.queue != {} || w.out.Keys != {}
  {
    assert p in owner && owner[p] in w.params;
  }
}

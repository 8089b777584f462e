/**
 Reads between two flushes: any number of probing reads over one cache, each with its own device requests, in any
 interleaving.
 */
module FlushReads {
  import opened Sequences
  import opened KeyOrder
  import opened FlushSpec
  import opened FlushControl
  import opened FlushProbing
  import opened FlushTheorems
  import opened FlushResults
  import opened FlushNoLoss
  import opened FlushRead

  /** Where a read is: in the request queue, with no jump recorded, with GOTO_LIST or with GOTO_COMPLETE; parked at a
      page in flight; at the device for a translation page, for the write of a victim or for data; or answered. */
  datatype Status = Queued | Listing | Checking | Parked | Loading | Writing | Reading | Answered(r: ReadResult)
  datatype Get = Get(key: Key, cnt: nat, st: Status)
  /** The retry queues of the cache hold the numbers of the parked reads. */
  datatype Reads = Reads(c: Cache, gets: seq<Get>)

  ghost predicate PagesShape(v: Env, c: Cache) { EnvOk(v) && |c.cmt| == v.pages && All(c.lru, v.pages) }

  /** The page a read is at. */
  function PageAt(v: Env, g: Get): (p: nat)
    requires EnvOk(v)
    ensures p < v.pages
  {
    ProbePage(v, g.key, g.cnt)
  }

  predicate InQueue(st: Status) { st.Queued? || st.Listing? || st.Checking? }

  predicate OnLoad(st: Status) { st.Loading? || st.Listing? }

  predicate AtDevice(st: Status) { st.Loading? || st.Writing? || st.Reading? }

  // ---------------------------------------------------------------- the steps

  function Move(s: Reads, i: nat, st: Status): (r: Reads)
    requires i < |s.gets|
  {
    s.(gets := s.gets[i := s.gets[i].(st := st)])
  }

  /** cache_check_complete: an empty slot ends the read, any other is read. */
  function Check(v: Env, t: Table, s: Reads, i: nat): (r: Reads)
    requires EnvOk(v) && i < |s.gets|
  {
    Move(s, i, if GetLpa(v, s.gets[i].key, s.gets[i].cnt) in t.slot then Reading else Answered(NotFound))
  }

  /** The reads parked at a page go back to the request queue with GOTO_COMPLETE. */
  function Released(gets: seq<Get>, q: seq<nat>): (r: seq<Get>)
    ensures |r| == |gets|
  {
    seq(|gets|, i requires 0 <= i < |gets| => if i in q then gets[i].(st := Checking) else gets[i])
  }

  /** cg_list_up for read i. */
  function ListUpFor(v: Env, t: Table, s: Reads, i: nat): (r: Reads)
    requires PagesShape(v, s.c) && i < |s.gets|
  {
    var p := PageAt(v, s.gets[i]);
    var x := s.c.cmt[p];
    var s1 := Reads(ListedCache(v, s.c, p), Released(s.gets, if x.flying then x.retryQ else []));
    if DirtyEvict(v, s.c) then Move(s1, i, Writing) else Check(v, t, s1, i)
  }

  /** The cache lookup of a read with no jump recorded. */
  function Look(v: Env, t: Table, s: Reads, i: nat): (r: Reads)
    requires PagesShape(v, s.c) && i < |s.gets|
  {
    var p := PageAt(v, s.gets[i]);
    var x := s.c.cmt[p];
    if x.cached then Check(v, t, s.(c := s.c.(lru := ToFront(s.c.lru, p))), i)
    else if x.flying then Move(s.(c := SetCmt(s.c, p, x.(retryQ := x.retryQ + [i]))), i, Parked)
    else if x.hasTppa then Move(s.(c := SetCmt(s.c, p, x.(flying := true))), i, Loading)
    else Move(s, i, Answered(NotFound))
  }

  /** __demand_read, for read i taken from the request queue. */
  function Dispatch(v: Env, t: Table, s: Reads, i: nat): (r: Reads)
    requires PagesShape(v, s.c) && i < |s.gets|
  {
    if s.gets[i].cnt > t.maxTry then Move(s, i, Answered(NotFound))
    else match s.gets[i].st
      case Queued => Look(v, t, s, i)
      case Listing => ListUpFor(v, t, s, i)
      case _ => Check(v, t, s, i)
  }

  /** demand_end_req, for the request of read i. */
  function Arrive(v: Env, t: Table, flash: Records, s: Reads, i: nat): (r: Reads)
    requires EnvOk(v) && i < |s.gets|
  {
    var g := s.gets[i];
    var l := GetLpa(v, g.key, g.cnt);
    match g.st
    case Loading => Move(s, i, Listing)
    case Writing => Move(s, i, Checking)
    case _ =>
      if l in t.slot && t.slot[l] in flash && flash[t.slot[l]].key == g.key then
        Move(s, i, Answered(Found(flash[t.slot[l]].val)))
      else s.(gets := s.gets[i := Get(g.key, g.cnt + 1, Queued)])
  }

  /** A read that has come in acts, or one of its requests completes. */
  ghost predicate Acts(v: Env, t: Table, flash: Records, s: Reads, r: Reads) {
    && PagesShape(v, s.c)
    && exists i :: 0 <= i < |s.gets| && (|| (InQueue(s.gets[i].st) && r == Dispatch(v, t, s, i))
                                         || (AtDevice(s.gets[i].st) && r == Arrive(v, t, flash, s, i)))
  }

  /** A new read comes in. */
  ghost predicate ComesIn(s: Reads, r: Reads, k: Key) { r == s.(gets := s.gets + [Get(k, 0, Queued)]) }

  ghost predicate Turn(v: Env, t: Table, flash: Records, s: Reads, r: Reads) {
    Acts(v, t, flash, s, r) || exists k :: ComesIn(s, r, k)
  }

  // ---------------------------------------------------------------- what every step keeps

  ghost predicate CacheOk(v: Env, slot: Slots, c: Cache) {
    PagesShape(v, c) && LruOk(c) && |c.lru| <= v.maxCached && Covered(v, slot, c) && !c.lost
  }

  /** Read i is the loader of page p. */
  ghost predicate Loads(v: Env, gets: seq<Get>, i: int, p: int)
    requires EnvOk(v)
  {
    0 <= i < |gets| && OnLoad(gets[i].st) && PageAt(v, gets[i]) == p
  }

  ghost predicate Waits(v: Env, gets: seq<Get>, i: int, p: int)
    requires EnvOk(v)
  {
    0 <= i < |gets| && gets[i].st.Parked? && PageAt(v, gets[i]) == p
  }

  ghost predicate Loaded(v: Env, gets: seq<Get>, p: int)
    requires EnvOk(v)
  {
    exists i :: Loads(v, gets, i, p)
  }

  /** A page in flight is not cached and has exactly one loader; the reads parked at a page wait for it to arrive. */
  ghost predicate FlightsOk(v: Env, cmt: seq<Cmt>, gets: seq<Get>)
    requires EnvOk(v) && |cmt| == v.pages
  {
    && (forall p :: 0 <= p < |cmt| ==> (cmt[p].flying ==> !cmt[p].cached) && (cmt[p].flying <==> Loaded(v, gets, p)))
    && (forall i, j, p :: Loads(v, gets, i, p) && Loads(v, gets, j, p) ==> i == j)
    && (forall p :: 0 <= p < |cmt| && !cmt[p].flying ==> cmt[p].retryQ == [])
    && (forall i: nat, p :: 0 <= p < |cmt| ==> (i in cmt[p].retryQ <==> Waits(v, gets, i, p)))
  }

  /** The answer is the stored value of the key, or that there is none. */
  ghost predicate Exact(slot: Slots, flash: Records, k: Key, r: ReadResult) {
    forall val :: r == Found(val) <==> Has(slot, flash, Record(k, val))
  }

  /** What a read knows: the slots it has probed are held by other keys, and an answer is right. */
  ghost predicate GetOk(v: Env, t: Table, flash: Records, g: Get)
    requires EnvOk(v)
  {
    match g.st
    case Answered(r) => Exact(t.slot, flash, g.key, r)
    case Queued => Passed(v, t.slot, flash, g.key, g.cnt)
    case Reading => Passed(v, t.slot, flash, g.key, g.cnt) && g.cnt <= t.maxTry && GetLpa(v, g.key, g.cnt) in t.slot
    case _ => Passed(v, t.slot, flash, g.key, g.cnt) && g.cnt <= t.maxTry
  }

  ghost predicate GetsOk(v: Env, t: Table, flash: Records, gets: seq<Get>)
    requires EnvOk(v)
  {
    forall i :: 0 <= i < |gets| ==> GetOk(v, t, flash, gets[i])
  }

  ghost predicate ReadsOk(v: Env, t: Table, flash: Records, s: Reads) {
    && CacheOk(v, t.slot, s.c) && Settled(v, t.slot, flash, t.maxTry)
    && FlightsOk(v, s.c.cmt, s.gets) && GetsOk(v, t, flash, s.gets)
  }

  // ---------------------------------------------------------------- answers are right

  /** A read that has passed n probes has not passed the home of its key. */
  lemma HomeIsAhead(v: Env, t: Table, flash: Records, k: Key, n: nat, l: nat, m: nat)
    requires EnvOk(v) && Passed(v, t.slot, flash, k, n)
    requires Home(v, t.slot, flash, t.maxTry, l, m) && flash[t.slot[l]].key == k
    ensures n <= m && GetLpa(v, k, n) in t.slot
  {
    hide GetLpa;
    assert !Taken(v, t.slot, flash, k, m);
    if n < m { assert Taken(v, t.slot, flash, k, n); }
  }

  /** The next probe of a read for a stored key is within max_try, at a filled slot of a page that can be reached. */
  lemma StoredIsAhead(v: Env, t: Table, flash: Records, c: Cache, k: Key, n: nat, val: Value)
    requires CacheOk(v, t.slot, c) && Settled(v, t.slot, flash, t.maxTry) && Passed(v, t.slot, flash, k, n)
    requires Has(t.slot, flash, Record(k, val))
    ensures n <= t.maxTry && GetLpa(v, k, n) in t.slot && Reachable(c.cmt[ProbePage(v, k, n)])
  {
    hide GetLpa, Passed;
    var l :| l in t.slot && t.slot[l] in flash && flash[t.slot[l]] == Record(k, val);
    var m: nat :| Home(v, t.slot, flash, t.maxTry, l, m);
    HomeIsAhead(v, t, flash, k, n, l, m);
    assert OnFlashOrDirty(c.cmt[Idx(v, GetLpa(v, k, n))]);
  }

  /** Not found is right above max_try, at an empty slot, and at a page that cannot be reached. */
  lemma NotFoundIsExact(v: Env, t: Table, flash: Records, c: Cache, k: Key, n: nat)
    requires CacheOk(v, t.slot, c) && Settled(v, t.slot, flash, t.maxTry) && Passed(v, t.slot, flash, k, n)
    requires n > t.maxTry || GetLpa(v, k, n) !in t.slot || !Reachable(c.cmt[ProbePage(v, k, n)])
    ensures Exact(t.slot, flash, k, NotFound)
  {
    hide GetLpa, Passed, Has, CacheOk, Settled;
    forall val ensures !Has(t.slot, flash, Record(k, val)) {
      if Has(t.slot, flash, Record(k, val)) { StoredIsAhead(v, t, flash, c, k, n, val); }
    }
  }

  /** A record found is the only one of its key. */
  lemma FoundIsExact(v: Env, t: Table, flash: Records, k: Key, l: nat)
    requires EnvOk(v) && Settled(v, t.slot, flash, t.maxTry)
    requires l in t.slot && t.slot[l] in flash && flash[t.slot[l]].key == k
    ensures Exact(t.slot, flash, k, Found(flash[t.slot[l]].val))
  {
    hide GetLpa;
    var m: nat :| Home(v, t.slot, flash, t.maxTry, l, m);
    forall val ensures Found(flash[t.slot[l]].val) == Found(val) <==> Has(t.slot, flash, Record(k, val)) {
      if Has(t.slot, flash, Record(k, val)) {
        var l' :| l' in t.slot && t.slot[l'] in flash && flash[t.slot[l']] == Record(k, val);
        var m': nat :| Home(v, t.slot, flash, t.maxTry, l', m');
        HomeIsAhead(v, t, flash, k, m, l', m');
        HomeIsAhead(v, t, flash, k, m', l, m);
      }
      if flash[t.slot[l]].val == val { assert flash[t.slot[l]] == Record(k, val); }
    }
  }

  lemma PassOn(v: Env, t: Table, flash: Records, k: Key, n: nat)
    requires EnvOk(v) && Settled(v, t.slot, flash, t.maxTry) && Passed(v, t.slot, flash, k, n)
    requires GetLpa(v, k, n) in t.slot
    requires var g := t.slot[GetLpa(v, k, n)]; g !in flash || flash[g].key != k
    ensures Passed(v, t.slot, flash, k, n + 1)
  {
    hide GetLpa;
    var l := GetLpa(v, k, n);
    var m: nat :| Home(v, t.slot, flash, t.maxTry, l, m);
    assert Taken(v, t.slot, flash, k, n);
  }

  // ---------------------------------------------------------------- the steps keep the invariant

  /** Only read i moves, and it neither was nor becomes a loader or a waiter. */
  ghost predicate MovesFreely(v: Env, gets: seq<Get>, gets': seq<Get>, i: nat) {
    && |gets'| == |gets| && i < |gets| && (forall j :: 0 <= j < |gets| && j != i ==> gets'[j] == gets[j])
    && !OnLoad(gets[i].st) && !gets[i].st.Parked? && !OnLoad(gets'[i].st) && !gets'[i].st.Parked?
  }

  lemma FreelyKeepsFlights(v: Env, cmt: seq<Cmt>, cmt': seq<Cmt>, gets: seq<Get>, gets': seq<Get>, i: nat)
    requires EnvOk(v) && |cmt| == |cmt'| == v.pages && FlightsOk(v, cmt, gets) && MovesFreely(v, gets, gets', i)
    requires forall p :: 0 <= p < |cmt| ==>
      cmt'[p].flying == cmt[p].flying && cmt'[p].retryQ == cmt[p].retryQ && cmt'[p].cached == cmt[p].cached
    ensures FlightsOk(v, cmt', gets')
  {
    hide PageAt;
    assert forall j, p :: Loads(v, gets', j, p) == Loads(v, gets, j, p);
    assert forall j, p :: Waits(v, gets', j, p) == Waits(v, gets, j, p);
    assert forall p :: Loaded(v, gets', p) == Loaded(v, gets, p);
  }

  lemma MoveKeeps(v: Env, t: Table, flash: Records, s: Reads, i: nat, g: Get)
    requires ReadsOk(v, t, flash, s) && i < |s.gets| && MovesFreely(v, s.gets, s.gets[i := g], i)
    requires GetOk(v, t, flash, g)
    ensures ReadsOk(v, t, flash, s.(gets := s.gets[i := g]))
  {
    hide FlightsOk, GetOk, CacheOk, Settled;
    var gets := s.gets[i := g];
    Shapes(v, t.slot, s.c);
    FreelyKeepsFlights(v, s.c.cmt, s.c.cmt, s.gets, gets, i);
  }

  lemma Shapes(v: Env, slot: Slots, c: Cache)
    requires CacheOk(v, slot, c)
    ensures PagesShape(v, c)
  {
  }

  lemma CheckKeeps(v: Env, t: Table, flash: Records, s: Reads, i: nat)
    requires ReadsOk(v, t, flash, s) && i < |s.gets| && s.gets[i].cnt <= t.maxTry
    requires s.gets[i].st.Queued? || s.gets[i].st.Checking?
    ensures ReadsOk(v, t, flash, Check(v, t, s, i))
  {
    hide FlightsOk, CacheOk, Settled, GetLpa, Exact, Passed;
    var g := s.gets[i];
    Shapes(v, t.slot, s.c);
    assert GetOk(v, t, flash, g);
    if GetLpa(v, g.key, g.cnt) in t.slot {
      MoveKeeps(v, t, flash, s, i, g.(st := Reading));
    } else {
      NotFoundIsExact(v, t, flash, s.c, g.key, g.cnt);
      MoveKeeps(v, t, flash, s, i, g.(st := Answered(NotFound)));
    }
  }

  lemma ListedIs(v: Env, slot: Slots, c: Cache, p: nat)
    requires CacheOk(v, slot, c) && p < v.pages && c.cmt[p].flying && !c.cmt[p].cached
    ensures var d := ListedCache(v, c, p);
            && CacheOk(v, slot, d) && d.cmt[p].cached && !d.cmt[p].flying && d.cmt[p].retryQ == []
            && forall q :: 0 <= q < v.pages && q != p ==>
                 && d.cmt[q].flying == c.cmt[q].flying && d.cmt[q].retryQ == c.cmt[q].retryQ
                 && (d.cmt[q].cached ==> c.cmt[q].cached)
  {
    hide Idx;
    if Full(v, c) { EvictOk(c); }
    AdmitOk(if Full(v, c) then Evict(c) else c, p);
    hide LruOk;
    var d := ListedCache(v, c, p);
    forall q | 0 <= q < v.pages && OnFlashOrDirty(c.cmt[q]) ensures OnFlashOrDirty(d.cmt[q]) { }
    CoverGrows(v, slot, c, d);
  }

  lemma ListedFlights(v: Env, cmt: seq<Cmt>, cmt': seq<Cmt>, gets: seq<Get>, i: nat, p: nat)
    requires EnvOk(v) && |cmt| == |cmt'| == v.pages && p < v.pages && FlightsOk(v, cmt, gets)
    requires i < |gets| && gets[i].st.Listing? && PageAt(v, gets[i]) == p
    requires !cmt'[p].flying && cmt'[p].retryQ == []
    requires forall q :: 0 <= q < v.pages && q != p ==>
      cmt'[q].flying == cmt[q].flying && cmt'[q].retryQ == cmt[q].retryQ && (cmt'[q].cached ==> cmt[q].cached)
    ensures FlightsOk(v, cmt', Released(gets, cmt[p].retryQ + [i]))
  {
    hide PageAt;
    var gets' := Released(gets, cmt[p].retryQ + [i]);
    assert Loads(v, gets, i, p);
    forall j, q ensures Loads(v, gets', j, q) <==> Loads(v, gets, j, q) && q != p {
      if 0 <= j < |gets| && j in cmt[p].retryQ { assert Waits(v, gets, j, p); }
    }
    forall j, q ensures Waits(v, gets', j, q) <==> Waits(v, gets, j, q) && q != p {
      if 0 <= j < |gets| && j in cmt[p].retryQ { assert Waits(v, gets, j, p); }
    }
    forall q | q != p ensures Loaded(v, gets', q) == Loaded(v, gets, q) {
      if Loaded(v, gets, q) { var j :| Loads(v, gets, j, q); assert Loads(v, gets', j, q); }
      if Loaded(v, gets', q) { var j :| Loads(v, gets', j, q); assert Loads(v, gets, j, q); }
    }
    assert !Loaded(v, gets', p);
  }

  lemma ReleasedGets(v: Env, t: Table, flash: Records, gets: seq<Get>, q: seq<nat>)
    requires EnvOk(v) && GetsOk(v, t, flash, gets)
    requires forall j :: 0 <= j < |gets| && j in q ==> gets[j].st.Parked? || gets[j].st.Listing?
    ensures GetsOk(v, t, flash, Released(gets, q))
  {
    hide GetLpa, Passed, Exact;
    var gets' := Released(gets, q);
    forall j | 0 <= j < |gets'| ensures GetOk(v, t, flash, gets'[j]) { assert GetOk(v, t, flash, gets[j]); }
  }

  /** Read i lists its page: the reads parked there, and read i itself, go on to their slots. */
  lemma ListKeeps(v: Env, t: Table, flash: Records, s: Reads, i: nat)
    requires ReadsOk(v, t, flash, s) && i < |s.gets| && s.gets[i].st.Listing?
    ensures var p := PageAt(v, s.gets[i]);
            && s.c.cmt[p].flying
            && ReadsOk(v, t, flash, Reads(ListedCache(v, s.c, p), Released(s.gets, s.c.cmt[p].retryQ + [i])))
  {
    hide Settled, PageAt, GetsOk;
    var p := PageAt(v, s.gets[i]);
    Shapes(v, t.slot, s.c);
    assert Loads(v, s.gets, i, p);
    assert Loaded(v, s.gets, p);
    hide CacheOk;
    ListedIs(v, t.slot, s.c, p);
    var d := ListedCache(v, s.c, p);
    hide ListedCache;
    Shapes(v, t.slot, d);
    ListedFlights(v, s.c.cmt, d.cmt, s.gets, i, p);
    forall j | 0 <= j < |s.gets| && j in s.c.cmt[p].retryQ + [i] ensures s.gets[j].st.Parked? || s.gets[j].st.Listing? {
      if j in s.c.cmt[p].retryQ { assert Waits(v, s.gets, j, p); }
    }
    ReleasedGets(v, t, flash, s.gets, s.c.cmt[p].retryQ + [i]);
  }

  lemma ListUpKeeps(v: Env, t: Table, flash: Records, s: Reads, i: nat)
    requires ReadsOk(v, t, flash, s) && i < |s.gets| && s.gets[i].st.Listing? && s.gets[i].cnt <= t.maxTry
    requires PagesShape(v, s.c)
    ensures ReadsOk(v, t, flash, ListUpFor(v, t, s, i))
  {
    var p := PageAt(v, s.gets[i]);
    ListKeeps(v, t, flash, s, i);
    var q := s.c.cmt[p].retryQ;
    var s1 := Reads(ListedCache(v, s.c, p), Released(s.gets, q));
    var s2 := Reads(ListedCache(v, s.c, p), Released(s.gets, q + [i]));
    assert s2.gets == s1.gets[i := s.gets[i].(st := Checking)];
    hide ListedCache, PageAt, GetLpa, FlightsOk, CacheOk, Settled, Passed, Exact;
    if DirtyEvict(v, s.c) {
      assert GetOk(v, t, flash, s2.gets[i]);
      MoveKeeps(v, t, flash, s2, i, s.gets[i].(st := Writing));
      assert s2.gets[i := s.gets[i].(st := Writing)] == s1.gets[i := s1.gets[i].(st := Writing)];
    } else {
      CheckKeeps(v, t, flash, s2, i);
      assert Check(v, t, s2, i) == Check(v, t, s1, i);
    }
  }

  lemma HitKeeps(v: Env, t: Table, flash: Records, s: Reads, i: nat)
    requires ReadsOk(v, t, flash, s) && i < |s.gets| && s.gets[i].st.Queued? && s.gets[i].cnt <= t.maxTry
    requires PagesShape(v, s.c) && s.c.cmt[PageAt(v, s.gets[i])].cached
    ensures ReadsOk(v, t, flash, Look(v, t, s, i))
  {
    hide Settled, FlightsOk, GetOk, PageAt, Without, Idx;
    var p := PageAt(v, s.gets[i]);
    ToFrontOk(s.c, p);
    WithoutAll(s.c.lru, p, v.pages);
    var s1 := s.(c := s.c.(lru := ToFront(s.c.lru, p)));
    assert ReadsOk(v, t, flash, s1);
    CheckKeeps(v, t, flash, s1, i);
  }

  lemma ParkFlights(v: Env, cmt: seq<Cmt>, gets: seq<Get>, i: nat, p: nat)
    requires EnvOk(v) && |cmt| == v.pages && p < v.pages && FlightsOk(v, cmt, gets) && cmt[p].flying
    requires i < |gets| && gets[i].st.Queued? && PageAt(v, gets[i]) == p
    ensures FlightsOk(v, cmt[p := cmt[p].(retryQ := cmt[p].retryQ + [i])], gets[i := gets[i].(st := Parked)])
  {
    hide PageAt;
    var cmt' := cmt[p := cmt[p].(retryQ := cmt[p].retryQ + [i])];
    var gets' := gets[i := gets[i].(st := Parked)];
    SamePage(v, gets[i], gets'[i]);
    assert forall j, q :: Loads(v, gets', j, q) == Loads(v, gets, j, q);
    assert forall q :: Loaded(v, gets', q) == Loaded(v, gets, q);
    forall j: nat, q | 0 <= q < |cmt'| ensures j in cmt'[q].retryQ <==> Waits(v, gets', j, q) {
      assert j in cmt[q].retryQ <==> Waits(v, gets, j, q);
    }
  }

  lemma LoadFlights(v: Env, cmt: seq<Cmt>, gets: seq<Get>, i: nat, p: nat)
    requires EnvOk(v) && |cmt| == v.pages && p < v.pages && FlightsOk(v, cmt, gets)
    requires !cmt[p].flying && !cmt[p].cached
    requires i < |gets| && gets[i].st.Queued? && PageAt(v, gets[i]) == p
    ensures FlightsOk(v, cmt[p := cmt[p].(flying := true)], gets[i := gets[i].(st := Loading)])
  {
    hide PageAt;
    var cmt' := cmt[p := cmt[p].(flying := true)];
    var gets' := gets[i := gets[i].(st := Loading)];
    SamePage(v, gets[i], gets'[i]);
    assert !Loaded(v, gets, p);
    forall j, q ensures Loads(v, gets', j, q) <==> Loads(v, gets, j, q) || (j == i && q == p) { }
    assert Loads(v, gets', i, p);
    forall q ensures Loaded(v, gets', q) <==> Loaded(v, gets, q) || q == p {
      if Loaded(v, gets, q) { var j :| Loads(v, gets, j, q); assert Loads(v, gets', j, q); }
    }
    assert forall j, q :: Waits(v, gets', j, q) == Waits(v, gets, j, q);
  }

  lemma SamePage(v: Env, g: Get, g': Get)
    requires EnvOk(v) && g'.key == g.key && g'.cnt == g.cnt
    ensures PageAt(v, g') == PageAt(v, g)
  {
  }

  lemma ParkKeeps(v: Env, t: Table, flash: Records, s: Reads, i: nat)
    requires ReadsOk(v, t, flash, s) && i < |s.gets| && s.gets[i].st.Queued? && s.gets[i].cnt <= t.maxTry
    requires PagesShape(v, s.c)
    requires var x := s.c.cmt[PageAt(v, s.gets[i])]; !x.cached && (x.flying || x.hasTppa)
    ensures ReadsOk(v, t, flash, Look(v, t, s, i))
  {
    hide Settled, FlightsOk, PageAt, Idx, GetLpa, Passed, Exact;
    var p := PageAt(v, s.gets[i]);
    var r := Look(v, t, s, i);
    if s.c.cmt[p].flying {
      ParkFlights(v, s.c.cmt, s.gets, i, p);
    } else {
      LoadFlights(v, s.c.cmt, s.gets, i, p);
    }
    assert CacheOk(v, t.slot, r.c);
    forall j | 0 <= j < |r.gets| ensures GetOk(v, t, flash, r.gets[j]) { assert GetOk(v, t, flash, s.gets[j]); }
  }

  lemma DispatchKeeps(v: Env, t: Table, flash: Records, s: Reads, i: nat)
    requires ReadsOk(v, t, flash, s) && i < |s.gets| && InQueue(s.gets[i].st) && PagesShape(v, s.c)
    ensures ReadsOk(v, t, flash, Dispatch(v, t, s, i))
  {
    hide Settled, FlightsOk, PageAt, GetLpa, Passed, Exact, CacheOk, ListUpFor, Check;
    var g := s.gets[i];
    assert GetOk(v, t, flash, g);
    if g.cnt > t.maxTry {
      NotFoundIsExact(v, t, flash, s.c, g.key, g.cnt);
      MoveKeeps(v, t, flash, s, i, g.(st := Answered(NotFound)));
    } else {
      match g.st {
        case Listing => ListUpKeeps(v, t, flash, s, i);
        case Checking => CheckKeeps(v, t, flash, s, i);
        case Queued =>
          var x := s.c.cmt[PageAt(v, g)];
          if x.cached {
            HitKeeps(v, t, flash, s, i);
          } else if x.flying || x.hasTppa {
            ParkKeeps(v, t, flash, s, i);
          } else {
            NotReached(v, t, flash, s.c, g);
            MoveKeeps(v, t, flash, s, i, g.(st := Answered(NotFound)));
          }
      }
    }
  }

  lemma NotReached(v: Env, t: Table, flash: Records, c: Cache, g: Get)
    requires CacheOk(v, t.slot, c) && Settled(v, t.slot, flash, t.maxTry) && Passed(v, t.slot, flash, g.key, g.cnt)
    requires !Reachable(c.cmt[PageAt(v, g)])
    ensures Exact(t.slot, flash, g.key, NotFound)
  {
    hide Settled, GetLpa, Passed, Exact, Covered, LruOk;
    NotFoundIsExact(v, t, flash, c, g.key, g.cnt);
  }

  lemma ArriveKeeps(v: Env, t: Table, flash: Records, s: Reads, i: nat)
    requires ReadsOk(v, t, flash, s) && i < |s.gets| && AtDevice(s.gets[i].st) && EnvOk(v)
    ensures ReadsOk(v, t, flash, Arrive(v, t, flash, s, i))
  {
    hide Settled, FlightsOk, GetLpa, Passed, Exact, CacheOk;
    var g := s.gets[i];
    assert GetOk(v, t, flash, g);
    match g.st {
      case Loading => LoadedKeeps(v, t, flash, s, i);
      case Writing => MoveKeeps(v, t, flash, s, i, g.(st := Checking));
      case Reading =>
        var l := GetLpa(v, g.key, g.cnt);
        if t.slot[l] in flash && flash[t.slot[l]].key == g.key {
          FoundIsExact(v, t, flash, g.key, l);
          MoveKeeps(v, t, flash, s, i, g.(st := Answered(Found(flash[t.slot[l]].val))));
        } else {
          PassOn(v, t, flash, g.key, g.cnt);
          MoveKeeps(v, t, flash, s, i, Get(g.key, g.cnt + 1, Queued));
        }
    }
  }

  lemma LoadedKeeps(v: Env, t: Table, flash: Records, s: Reads, i: nat)
    requires ReadsOk(v, t, flash, s) && i < |s.gets| && s.gets[i].st.Loading?
    ensures ReadsOk(v, t, flash, Move(s, i, Listing))
  {
    hide Settled, GetLpa, Passed, Exact, PageAt, CacheOk;
    Shapes(v, t.slot, s.c);
    var gets, gets' := s.gets, Move(s, i, Listing).gets;
    SamePage(v, gets[i], gets'[i]);
    assert forall j, q :: Loads(v, gets', j, q) == Loads(v, gets, j, q);
    assert forall j, q :: Waits(v, gets', j, q) == Waits(v, gets, j, q);
    assert forall q :: Loaded(v, gets', q) == Loaded(v, gets, q);
    forall j | 0 <= j < |gets'| ensures GetOk(v, t, flash, gets'[j]) { assert GetOk(v, t, flash, gets[j]); }
  }

  lemma ComesInKeeps(v: Env, t: Table, flash: Records, s: Reads, k: Key)
    requires ReadsOk(v, t, flash, s)
    ensures ReadsOk(v, t, flash, s.(gets := s.gets + [Get(k, 0, Queued)]))
  {
    hide Settled, GetLpa, Exact, PageAt, CacheOk;
    Shapes(v, t.slot, s.c);
    var gets, gets' := s.gets, s.gets + [Get(k, 0, Queued)];
    assert forall j, q :: Loads(v, gets', j, q) == Loads(v, gets, j, q);
    assert forall j, q :: Waits(v, gets', j, q) == Waits(v, gets, j, q);
    assert forall q :: Loaded(v, gets', q) == Loaded(v, gets, q);
    forall j | 0 <= j < |gets'| ensures GetOk(v, t, flash, gets'[j]) {
      if j < |gets| { assert GetOk(v, t, flash, gets[j]); }
    }
  }

  lemma TurnKeeps(v: Env, t: Table, flash: Records, s: Reads, r: Reads)
    requires ReadsOk(v, t, flash, s) && Turn(v, t, flash, s, r)
    ensures ReadsOk(v, t, flash, r)
  {
    hide ReadsOk, Dispatch, Arrive;
    if k :| ComesIn(s, r, k) {
      ComesInKeeps(v, t, flash, s, k);
    } else {
      var i :| 0 <= i < |s.gets| && (|| (InQueue(s.gets[i].st) && r == Dispatch(v, t, s, i))
                                     || (AtDevice(s.gets[i].st) && r == Arrive(v, t, flash, s, i)));
      if InQueue(s.gets[i].st) { DispatchKeeps(v, t, flash, s, i); } else { ArriveKeeps(v, t, flash, s, i); }
    }
  }

  // ---------------------------------------------------------------- whole runs

  ghost predicate IsReads(v: Env, t: Table, flash: Records, run: seq<Reads>) {
    |run| >= 1 && forall i :: 0 <= i < |run| - 1 ==> Turn(v, t, flash, run[i], run[i + 1])
  }

  ghost predicate AllAnswered(s: Reads) { forall i :: 0 <= i < |s.gets| ==> s.gets[i].st.Answered? }

  lemma StartReads(v: Env, t: Table, c: Cache, flash: Records)
    requires Quiet(v, t, c, flash)
    ensures ReadsOk(v, t, flash, Reads(c, []))
  {
    hide Settled, OobOk, Idx;
    assert forall p :: !Loaded(v, [], p);
  }

  lemma {:induction false} RunKeepsReads(v: Env, t: Table, flash: Records, run: seq<Reads>, n: nat)
    requires IsReads(v, t, flash, run) && ReadsOk(v, t, flash, run[0]) && n < |run|
    ensures ReadsOk(v, t, flash, run[n])
    decreases n
  {
    hide ReadsOk, Turn;
    if n > 0 {
      RunKeepsReads(v, t, flash, run, n - 1);
      assert Turn(v, t, flash, run[n - 1], run[n - 1 + 1]);
      TurnKeeps(v, t, flash, run[n - 1], run[n]);
    }
  }

  /** Between flushes every read that is answered, at any point of any run of any number of interleaved reads, is
      answered with what is stored: the value of a stored key, nothing for an absent one. */
  lemma ReadsAreExact(v: Env, t: Table, c: Cache, flash: Records, run: seq<Reads>, n: nat, i: nat)
    requires Quiet(v, t, c, flash) && IsReads(v, t, flash, run) && run[0] == Reads(c, [])
    requires n < |run| && i < |run[n].gets| && run[n].gets[i].st.Answered?
    ensures Exact(t.slot, flash, run[n].gets[i].key, run[n].gets[i].st.r)
  {
    hide Quiet, Turn, Exact, CacheOk, Settled, FlightsOk;
    StartReads(v, t, c, flash);
    RunKeepsReads(v, t, flash, run, n);
    Shapes(v, t.slot, run[n].c);
    assert GetOk(v, t, flash, run[n].gets[i]);
  }

  /** Reads are never stuck: while one is not answered, one can be taken from the queue or has a request in flight. */
  lemma ReadsNeverStuck(v: Env, t: Table, flash: Records, s: Reads)
    requires ReadsOk(v, t, flash, s) && !AllAnswered(s)
    ensures exists i :: 0 <= i < |s.gets| && (InQueue(s.gets[i].st) || AtDevice(s.gets[i].st))
  {
    hide GetsOk, Settled, PageAt, Covered, LruOk;
    var i :| 0 <= i < |s.gets| && !s.gets[i].st.Answered?;
    if s.gets[i].st.Parked? {
      var p := PageAt(v, s.gets[i]);
      assert Waits(v, s.gets, i, p);
      assert i in s.c.cmt[p].retryQ;
      var j :| Loads(v, s.gets, j, p);
      assert InQueue(s.gets[j].st) || AtDevice(s.gets[j].st);
    }
  }

  /** When all reads are answered the FTL is as quiet as before them. */
  lemma AnsweredIsQuiet(v: Env, t: Table, flash: Records, s: Reads)
    requires ReadsOk(v, t, flash, s) && AllAnswered(s) && OobOk(t)
    ensures Quiet(v, t, s.c, flash) && CacheShape(v, s.c)
  {
    hide GetsOk, Settled, OobOk, PageAt, Covered, LruOk;
    forall p | 0 <= p < |s.c.cmt| ensures !s.c.cmt[p].flying && s.c.cmt[p].retryQ == [] {
      assert !Loaded(v, s.gets, p);
    }
  }

  // ---------------------------------------------------------------- every read ends

  /** A bound on the steps a read has left. */
  function Left(maxTry: nat, g: Get): nat {
    (if g.cnt <= maxTry then 8 * (maxTry + 1 - g.cnt) else 0) +
    match g.st
    case Queued => 7 case Parked => 6 case Loading => 5 case Listing => 4 case Writing => 3 case Checking => 2
    case Reading => 1 case Answered(_) => 0
  }

  function Total(maxTry: nat, gets: seq<Get>): nat {
    if gets == [] then 0 else Left(maxTry, gets[0]) + Total(maxTry, gets[1..])
  }

  lemma {:induction false} TotalNoMore(maxTry: nat, a: seq<Get>, b: seq<Get>)
    requires |a| == |b| && forall i :: 0 <= i < |a| ==> Left(maxTry, b[i]) <= Left(maxTry, a[i])
    ensures Total(maxTry, b) <= Total(maxTry, a)
    decreases |a|
  {
    hide Left;
    if a != [] { TotalNoMore(maxTry, a[1..], b[1..]); }
  }

  lemma {:induction false} TotalLess(maxTry: nat, a: seq<Get>, b: seq<Get>, i: nat)
    requires |a| == |b| && forall i :: 0 <= i < |a| ==> Left(maxTry, b[i]) <= Left(maxTry, a[i])
    requires i < |a| && Left(maxTry, b[i]) < Left(maxTry, a[i])
    ensures Total(maxTry, b) < Total(maxTry, a)
    decreases |a|
  {
    hide Left;
    if i == 0 { TotalNoMore(maxTry, a[1..], b[1..]); } else { TotalLess(maxTry, a[1..], b[1..], i - 1); }
  }

  lemma MoveIsLess(maxTry: nat, gets: seq<Get>, i: nat, g: Get)
    requires i < |gets| && Left(maxTry, g) < Left(maxTry, gets[i])
    ensures Total(maxTry, gets[i := g]) < Total(maxTry, gets)
  {
    hide Left;
    TotalLess(maxTry, gets, gets[i := g], i);
  }

  lemma ListUpIsLess(v: Env, t: Table, flash: Records, s: Reads, i: nat)
    requires ReadsOk(v, t, flash, s) && i < |s.gets| && s.gets[i].st.Listing? && PagesShape(v, s.c)
    ensures Total(t.maxTry, ListUpFor(v, t, s, i).gets) < Total(t.maxTry, s.gets)
  {
    hide GetsOk, Settled, CacheOk, PageAt, GetLpa, ListedCache, DirtyEvict;
    var p := PageAt(v, s.gets[i]);
    var r := ListUpFor(v, t, s, i);
    forall j | 0 <= j < |s.gets|
      ensures Left(t.maxTry, r.gets[j]) <= Left(t.maxTry, s.gets[j])
      ensures j == i ==> Left(t.maxTry, r.gets[j]) < Left(t.maxTry, s.gets[j])
    {
      if j in s.c.cmt[p].retryQ { assert Waits(v, s.gets, j, p); }
    }
    TotalLess(t.maxTry, s.gets, r.gets, i);
  }

  lemma DispatchIsLess(v: Env, t: Table, flash: Records, s: Reads, i: nat)
    requires ReadsOk(v, t, flash, s) && PagesShape(v, s.c) && i < |s.gets| && InQueue(s.gets[i].st)
    ensures Total(t.maxTry, Dispatch(v, t, s, i).gets) < Total(t.maxTry, s.gets)
  {
    hide GetLpa, Passed, Exact, FlightsOk, CacheOk, Settled, Total, ListUpFor, PageAt;
    var r := Dispatch(v, t, s, i);
    if s.gets[i].st.Listing? && s.gets[i].cnt <= t.maxTry {
      ListUpIsLess(v, t, flash, s, i);
    } else {
      assert r.gets == s.gets[i := r.gets[i]];
      MoveIsLess(t.maxTry, s.gets, i, r.gets[i]);
    }
  }

  lemma ArriveIsLess(v: Env, t: Table, flash: Records, s: Reads, i: nat)
    requires ReadsOk(v, t, flash, s) && EnvOk(v) && i < |s.gets| && AtDevice(s.gets[i].st)
    ensures Total(t.maxTry, Arrive(v, t, flash, s, i).gets) < Total(t.maxTry, s.gets)
  {
    hide GetLpa, Passed, Exact, FlightsOk, CacheOk, Settled, Total;
    assert GetOk(v, t, flash, s.gets[i]);
    var r := Arrive(v, t, flash, s, i);
    assert r.gets == s.gets[i := r.gets[i]];
    MoveIsLess(t.maxTry, s.gets, i, r.gets[i]);
  }

  /** Every step of a read that has come in brings the reads nearer to their end. */
  lemma ActsIsLess(v: Env, t: Table, flash: Records, s: Reads, r: Reads)
    requires ReadsOk(v, t, flash, s) && Acts(v, t, flash, s, r)
    ensures Total(t.maxTry, r.gets) < Total(t.maxTry, s.gets)
  {
    hide ReadsOk, Total, Dispatch, Arrive;
    var i :| 0 <= i < |s.gets| && (|| (InQueue(s.gets[i].st) && r == Dispatch(v, t, s, i))
                                   || (AtDevice(s.gets[i].st) && r == Arrive(v, t, flash, s, i)));
    if InQueue(s.gets[i].st) { DispatchIsLess(v, t, flash, s, i); } else { ArriveIsLess(v, t, flash, s, i); }
  }

  /** Once no more reads come in, every one of them is answered after boundedly many steps. */
  lemma {:induction false} ReadsEnd(v: Env, t: Table, flash: Records, run: seq<Reads>, n: nat)
    requires n < |run| && ReadsOk(v, t, flash, run[0])
    requires forall i :: 0 <= i < |run| - 1 ==> Acts(v, t, flash, run[i], run[i + 1])
    ensures ReadsOk(v, t, flash, run[n]) && n + Total(t.maxTry, run[n].gets) <= Total(t.maxTry, run[0].gets)
    decreases n
  {
    hide ReadsOk, Acts, Total;
    if n > 0 {
      ReadsEnd(v, t, flash, run, n - 1);
      assert Acts(v, t, flash, run[n - 1], run[n - 1 + 1]);
      TurnKeeps(v, t, flash, run[n - 1], run[n]);
      ActsIsLess(v, t, flash, run[n - 1], run[n]);
    }
  }

  // ---------------------------------------------------------------- what is read and written

  /** The device requests of read i are exactly what the cache needs. */
  ghost predicate ReadTraffic(s: Reads, r: Reads, i: nat) {
    && |r.c.cmt| == |s.c.cmt| && i < |r.gets| && FlyingOnFlash(r.c) && Enters(s.c, r.c)
    && (r.gets[i].st.Writing? <==> DirtyLeft(s.c, r.c)) && (r.gets[i].st.Loading? <==> Departs(s.c, r.c))
  }

  lemma SameCache(v: Env, slot: Slots, s: Reads, r: Reads, i: nat)
    requires CacheOk(v, slot, s.c) && FlyingOnFlash(s.c) && r.c.cmt == s.c.cmt && i < |r.gets|
    requires !r.gets[i].st.Writing? && !r.gets[i].st.Loading?
    ensures ReadTraffic(s, r, i)
  {
    hide Covered;
  }

  lemma LookTraffic(v: Env, t: Table, s: Reads, i: nat)
    requires CacheOk(v, t.slot, s.c) && PagesShape(v, s.c) && FlyingOnFlash(s.c) && i < |s.gets|
    ensures ReadTraffic(s, Look(v, t, s, i), i)
  {
    hide GetLpa, PageAt, ToFront, Covered;
    var p, r := PageAt(v, s.gets[i]), Look(v, t, s, i);
    var x := s.c.cmt[p];
    if !x.cached && !x.flying && x.hasTppa { assert !s.c.cmt[p].flying && r.c.cmt[p].flying; }
  }

  lemma ListTraffic(v: Env, t: Table, flash: Records, s: Reads, i: nat)
    requires ReadsOk(v, t, flash, s) && PagesShape(v, s.c) && FlyingOnFlash(s.c) && i < |s.gets|
    requires s.gets[i].st.Listing?
    ensures ReadTraffic(s, ListUpFor(v, t, s, i), i)
  {
    hide GetLpa, PageAt, GetsOk, Settled, Covered, ListedCache, DirtyEvict;
    var p := PageAt(v, s.gets[i]);
    assert Loads(v, s.gets, i, p);
    assert Loaded(v, s.gets, p);
    ListedIsRight(v, s.c, p);
  }

  /** Every step of a read: a translation page is written exactly when a dirty one leaves the cache, a read is issued
      exactly when a page takes off, only pages on flash do, and a page on flash enters the cache only after it was
      read. */
  lemma DispatchTraffic(v: Env, t: Table, flash: Records, s: Reads, i: nat)
    requires ReadsOk(v, t, flash, s) && PagesShape(v, s.c) && FlyingOnFlash(s.c)
    requires i < |s.gets| && InQueue(s.gets[i].st)
    ensures ReadTraffic(s, Dispatch(v, t, s, i), i)
  {
    hide GetLpa, PageAt, FlightsOk, GetsOk, Settled, CacheOk, Look, ListUpFor, FlyingOnFlash, ReadTraffic;
    if s.gets[i].cnt <= t.maxTry && s.gets[i].st.Queued? {
      LookTraffic(v, t, s, i);
    } else if s.gets[i].cnt <= t.maxTry && s.gets[i].st.Listing? {
      ListTraffic(v, t, flash, s, i);
    } else {
      SameCache(v, t.slot, s, Dispatch(v, t, s, i), i);
    }
  }

  lemma TurnTraffic(v: Env, t: Table, flash: Records, s: Reads, r: Reads)
    requires ReadsOk(v, t, flash, s) && FlyingOnFlash(s.c) && Turn(v, t, flash, s, r)
    ensures FlyingOnFlash(r.c)
  {
    hide ReadsOk, Dispatch, Arrive, FlyingOnFlash;
    if k :| ComesIn(s, r, k) {
    } else {
      var i :| 0 <= i < |s.gets| && (|| (InQueue(s.gets[i].st) && r == Dispatch(v, t, s, i))
                                     || (AtDevice(s.gets[i].st) && r == Arrive(v, t, flash, s, i)));
      if InQueue(s.gets[i].st) { DispatchTraffic(v, t, flash, s, i); } else { ArriveKeepsCache(v, t, flash, s, i); }
    }
  }

  lemma ArriveKeepsCache(v: Env, t: Table, flash: Records, s: Reads, i: nat)
    requires EnvOk(v) && i < |s.gets|
    ensures Arrive(v, t, flash, s, i).c == s.c
  {
    hide GetLpa;
  }

  /** In every state of every run of reads only pages on flash are in flight, so every step is as DispatchTraffic says.
      */
  lemma {:induction false} RunTraffic(v: Env, t: Table, c: Cache, flash: Records, run: seq<Reads>, n: nat)
    requires Quiet(v, t, c, flash) && IsReads(v, t, flash, run) && run[0] == Reads(c, []) && n < |run|
    ensures FlyingOnFlash(run[n].c) && ReadsOk(v, t, flash, run[n])
    decreases n
  {
    hide ReadsOk, Turn, FlyingOnFlash, Quiet;
    if n == 0 {
      StartReads(v, t, c, flash);
      QuietOnFlash(v, t, c, flash);
    } else {
      RunTraffic(v, t, c, flash, run, n - 1);
      assert Turn(v, t, flash, run[n - 1], run[n - 1 + 1]);
      TurnKeeps(v, t, flash, run[n - 1], run[n]);
      TurnTraffic(v, t, flash, run[n - 1], run[n]);
    }
  }

  lemma QuietOnFlash(v: Env, t: Table, c: Cache, flash: Records)
    requires Quiet(v, t, c, flash)
    ensures FlyingOnFlash(c)
  {
    hide Settled, OobOk, Covered, LruOk;
  }

  // ---------------------------------------------------------------- pages on flash stay on flash

  lemma ListedKeepsFlash(v: Env, c: Cache, p: nat)
    requires PagesShape(v, c) && p < v.pages && AllOnFlash(c)
    ensures AllOnFlash(ListedCache(v, c, p))
  {
  }

  lemma ActsKeepFlash(v: Env, t: Table, flash: Records, s: Reads, r: Reads)
    requires Turn(v, t, flash, s, r) && AllOnFlash(s.c)
    ensures AllOnFlash(r.c)
  {
    hide GetLpa, PageAt, ToFront, ListedCache, DirtyEvict, Released;
    if i :| 0 <= i < |s.gets| && PagesShape(v, s.c) && r == Dispatch(v, t, s, i) {
      ListedKeepsFlash(v, s.c, PageAt(v, s.gets[i]));
    }
  }

  lemma {:induction false} RunKeepsFlash(v: Env, t: Table, flash: Records, run: seq<Reads>, n: nat)
    requires IsReads(v, t, flash, run) && AllOnFlash(run[0].c) && n < |run|
    ensures AllOnFlash(run[n].c)
    decreases n
  {
    hide Turn;
    if n > 0 {
      RunKeepsFlash(v, t, flash, run, n - 1);
      assert Turn(v, t, flash, run[n - 1], run[n - 1 + 1]);
      ActsKeepFlash(v, t, flash, run[n - 1], run[n]);
    }
  }

  // ---------------------------------------------------------------- a lone read

  ghost predicate Reaches(v: Env, t: Table, flash: Records, s: Reads, r: Reads) {
    exists run :: IsReads(v, t, flash, run) && run[0] == s && run[|run| - 1] == r
  }

  lemma ReachesOne(v: Env, t: Table, flash: Records, s: Reads, r: Reads)
    requires Turn(v, t, flash, s, r)
    ensures Reaches(v, t, flash, s, r)
  {
    hide Turn;
    assert IsReads(v, t, flash, [s, r]);
    assert [s, r][0] == s && [s, r][|[s, r]| - 1] == r;
  }

  lemma ReachesTrans(v: Env, t: Table, flash: Records, a: Reads, b: Reads, c: Reads)
    requires Reaches(v, t, flash, a, b) && Reaches(v, t, flash, b, c)
    ensures Reaches(v, t, flash, a, c)
  {
    hide Turn;
    var p :| IsReads(v, t, flash, p) && p[0] == a && p[|p| - 1] == b;
    var q :| IsReads(v, t, flash, q) && q[0] == b && q[|q| - 1] == c;
    var run := p + q[1..];
    forall i | 0 <= i < |run| - 1 ensures Turn(v, t, flash, run[i], run[i + 1]) {
      if i >= |p| - 1 { assert run[i] == q[i - |p| + 1] && run[i + 1] == q[i - |p| + 2]; }
    }
    assert IsReads(v, t, flash, run);
    assert run[|run| - 1] == c;
  }

  /** A state with one read in it. */
  function Lone(c: Cache, k: Key, n: nat, st: Status): Reads { Reads(c, [Get(k, n, st)]) }

  lemma LoneTurn(v: Env, t: Table, flash: Records, c: Cache, k: Key, n: nat, st: Status)
    requires PagesShape(v, c) && (InQueue(st) || AtDevice(st))
    ensures var s := Lone(c, k, n, st);
            Reaches(v, t, flash, s, if InQueue(st) then Dispatch(v, t, s, 0) else Arrive(v, t, flash, s, 0))
  {
    hide Dispatch, Arrive;
    var s := Lone(c, k, n, st);
    var r := if InQueue(st) then Dispatch(v, t, s, 0) else Arrive(v, t, flash, s, 0);
    assert s.gets[0].st == st;
    assert Acts(v, t, flash, s, r);
    ReachesOne(v, t, flash, s, r);
  }

  /** What cache_check_complete makes of a lone read. */
  function Checked(v: Env, t: Table, k: Key, n: nat): Status
    requires EnvOk(v)
  {
    if GetLpa(v, k, n) in t.slot then Reading else Answered(NotFound)
  }

  lemma LoneCheck(v: Env, t: Table, c: Cache, k: Key, n: nat, st: Status)
    requires EnvOk(v)
    ensures Check(v, t, Lone(c, k, n, st), 0) == Lone(c, k, n, Checked(v, t, k, n))
  {
    hide GetLpa;
  }

  /** A miss: the page is loaded. */
  lemma LoneLoad(v: Env, t: Table, flash: Records, c: Cache, k: Key, n: nat)
    requires PagesShape(v, c) && n <= t.maxTry
    requires var x := c.cmt[ProbePage(v, k, n)]; !x.cached && !x.flying && x.hasTppa
    ensures var p := ProbePage(v, k, n);
            var c1 := SetCmt(c, p, c.cmt[p].(flying := true));
            Reaches(v, t, flash, Lone(c, k, n, Queued), Lone(c1, k, n, Listing))
  {
    hide GetLpa, Reaches, ProbePage;
    var p := ProbePage(v, k, n);
    var c1 := SetCmt(c, p, c.cmt[p].(flying := true));
    var s0, s1, s2 := Lone(c, k, n, Queued), Lone(c1, k, n, Loading), Lone(c1, k, n, Listing);
    ProbeIs(v, s0.gets[0]);
    assert Dispatch(v, t, s0, 0) == s1;
    assert Arrive(v, t, flash, s1, 0) == s2;
    LoneTurn(v, t, flash, c, k, n, Queued);
    LoneTurn(v, t, flash, c1, k, n, Loading);
    ReachesTrans(v, t, flash, s0, s1, s2);
  }

  /** The loaded page is listed, and the victim is written if it is dirty. */
  lemma LoneList(v: Env, t: Table, flash: Records, c: Cache, k: Key, n: nat)
    requires PagesShape(v, c) && n <= t.maxTry && c.cmt[ProbePage(v, k, n)].retryQ == []
    requires PagesShape(v, ListedCache(v, c, ProbePage(v, k, n)))
    ensures Reaches(v, t, flash, Lone(c, k, n, Listing),
                    Lone(ListedCache(v, c, ProbePage(v, k, n)), k, n, Checked(v, t, k, n)))
  {
    hide GetLpa, Reaches, ProbePage, ListedCache, Checked, Check, DirtyEvict, Turn;
    var s := Lone(c, k, n, Listing);
    var d := ListedCache(v, c, ProbePage(v, k, n));
    ProbeIs(v, s.gets[0]);
    assert Released(s.gets, []) == s.gets;
    LoneTurn(v, t, flash, c, k, n, Listing);
    LoneCheck(v, t, d, k, n, Listing);
    LoneCheck(v, t, d, k, n, Checking);
    if DirtyEvict(v, c) {
      var s1, s2, s3 := Lone(d, k, n, Writing), Lone(d, k, n, Checking), Lone(d, k, n, Checked(v, t, k, n));
      assert Dispatch(v, t, s, 0) == s1;
      assert Arrive(v, t, flash, s1, 0) == s2;
      assert Dispatch(v, t, s2, 0) == s3;
      LoneTurn(v, t, flash, d, k, n, Writing);
      LoneTurn(v, t, flash, d, k, n, Checking);
      ReachesTrans(v, t, flash, s, s1, s2);
      ReachesTrans(v, t, flash, s, s2, s3);
    }
  }

  /** One probe of a lone read does to the cache what ReadCache says. */
  lemma LoneProbe(v: Env, t: Table, flash: Records, c: Cache, k: Key, n: nat)
    requires Idle(v, c) && CacheShape(v, c) && n <= t.maxTry && Reachable(c.cmt[ProbePage(v, k, n)])
    ensures Reaches(v, t, flash, Lone(c, k, n, Queued),
                    Lone(ReadCache(v, c, ProbePage(v, k, n)), k, n, Checked(v, t, k, n)))
  {
    hide GetLpa, Reaches, ProbePage, ListedCache, Checked, Check, LruOk, Turn;
    var p := ProbePage(v, k, n);
    var d := ReadCache(v, c, p);
    ReadCacheIs(v, c, p);
    if c.cmt[p].cached {
      var s := Lone(c, k, n, Queued);
      ProbeIs(v, s.gets[0]);
      LoneTurn(v, t, flash, c, k, n, Queued);
      LoneCheck(v, t, d, k, n, Queued);
      assert Dispatch(v, t, s, 0) == Check(v, t, Lone(d, k, n, Queued), 0);
    } else {
      var c1 := SetCmt(c, p, c.cmt[p].(flying := true));
      LoneLoad(v, t, flash, c, k, n);
      LoneList(v, t, flash, c1, k, n);
      ReachesTrans(v, t, flash, Lone(c, k, n, Queued), Lone(c1, k, n, Listing), Lone(d, k, n, Checked(v, t, k, n)));
    }
  }

  /** The read ends with answer r and cache d. */
  ghost predicate Ends(v: Env, t: Table, flash: Records, s: Reads, k: Key, r: ReadResult, d: Cache) {
    exists m: nat :: Reaches(v, t, flash, s, Lone(d, k, m, Answered(r)))
  }

  lemma LoneFails(v: Env, t: Table, flash: Records, c: Cache, k: Key, n: nat)
    requires Idle(v, c) && (n > t.maxTry || !Reachable(c.cmt[ProbePage(v, k, n)]))
    ensures Ends(v, t, flash, Lone(c, k, n, Queued), k, NotFound, c)
  {
    hide GetLpa, Reaches, ProbePage, LruOk;
    var s := Lone(c, k, n, Queued);
    ProbeIs(v, s.gets[0]);
    LoneTurn(v, t, flash, c, k, n, Queued);
    assert Dispatch(v, t, s, 0) == Lone(c, k, n, Answered(NotFound));
  }

  lemma EndsLater(v: Env, t: Table, flash: Records, s: Reads, s': Reads, k: Key, r: ReadResult, d: Cache)
    requires Reaches(v, t, flash, s, s') && Ends(v, t, flash, s', k, r, d)
    ensures Ends(v, t, flash, s, k, r, d)
  {
    hide Reaches;
    var m: nat :| Reaches(v, t, flash, s', Lone(d, k, m, Answered(r)));
    ReachesTrans(v, t, flash, s, s', Lone(d, k, m, Answered(r)));
  }

  /** A read that runs alone, in any idle state, ends with the answer and the cache of ReadFrom. */
  lemma {:induction false} LoneRead(v: Env, t: Table, flash: Records, c: Cache, k: Key, n: nat)
    requires Idle(v, c) && CacheShape(v, c)
    ensures var (r, d) := ReadFrom(v, t.slot, flash, t.maxTry, c, k, n);
            Ends(v, t, flash, Lone(c, k, n, Queued), k, r, d)
    decreases if n > t.maxTry then 0 else t.maxTry + 1 - n
  {
    hide Reaches, Idle, ReadCache, Ends, CacheShape, GetLpa, ReadFrom, ProbePage, Reachable, Turn;
    IdleEnv(v, c);
    if n > t.maxTry {
      ReadEnds(v, t.slot, flash, t.maxTry, c, k, n);
      LoneFails(v, t, flash, c, k, n);
    } else {
      ReadUnfolds(v, t.slot, flash, t.maxTry, c, k, n);
      var p := ProbePage(v, k, n);
      var l := GetLpa(v, k, n);
      if !Reachable(c.cmt[p]) {
        LoneFails(v, t, flash, c, k, n);
      } else {
        var d := ReadCache(v, c, p);
        ReadCacheIs(v, c, p);
        LoneProbe(v, t, flash, c, k, n);
        if l !in t.slot {
          EndsNow(v, t, flash, Lone(c, k, n, Queued), k, n, NotFound, d);
        } else {
          LoneAnswer(v, t, flash, d, k, n);
          if t.slot[l] !in flash || flash[t.slot[l]].key != k {
            LoneRead(v, t, flash, d, k, n + 1);
            var (r, e) := ReadFrom(v, t.slot, flash, t.maxTry, d, k, n + 1);
            EndsLater(v, t, flash, Lone(d, k, n, Reading), Lone(d, k, n + 1, Queued), k, r, e);
          }
          var (r, e) := ReadFrom(v, t.slot, flash, t.maxTry, c, k, n);
          EndsLater(v, t, flash, Lone(c, k, n, Queued), Lone(d, k, n, Reading), k, r, e);
        }
      }
    }
  }

  lemma IdleEnv(v: Env, c: Cache)
    requires Idle(v, c)
    ensures EnvOk(v) && |c.cmt| == v.pages
  {
  }

  lemma EndsNow(v: Env, t: Table, flash: Records, s: Reads, k: Key, n: nat, r: ReadResult, d: Cache)
    requires Reaches(v, t, flash, s, Lone(d, k, n, Answered(r)))
    ensures Ends(v, t, flash, s, k, r, d)
  {
    hide Reaches;
  }

  /** The data of a lone read comes in. */
  lemma LoneAnswer(v: Env, t: Table, flash: Records, c: Cache, k: Key, n: nat)
    requires Idle(v, c) && EnvOk(v) && GetLpa(v, k, n) in t.slot
    ensures var g := t.slot[GetLpa(v, k, n)];
            if g in flash && flash[g].key == k
            then Ends(v, t, flash, Lone(c, k, n, Reading), k, Found(flash[g].val), c)
            else Reaches(v, t, flash, Lone(c, k, n, Reading), Lone(c, k, n + 1, Queued))
  {
    hide GetLpa, Reaches, LruOk;
    var g := t.slot[GetLpa(v, k, n)];
    var s := Lone(c, k, n, Reading);
    LoneTurn(v, t, flash, c, k, n, Reading);
    if g in flash && flash[g].key == k {
      assert Arrive(v, t, flash, s, 0) == Lone(c, k, n, Answered(Found(flash[g].val)));
    } else {
      assert Arrive(v, t, flash, s, 0) == Lone(c, k, n + 1, Queued);
    }
  }

  lemma ProbeIs(v: Env, g: Get)
    requires EnvOk(v)
    ensures PageAt(v, g) == ProbePage(v, g.key, g.cnt)
  {
  }

  // ---------------------------------------------------------------- reading after a flush

  /** Reads after a whole flush that starts safely, or loses no update: the newest value of every buffered key, the old
      value of every other. */
  lemma ReadAfterFlush(v: Env, run: seq<State>, trace: seq<Reads>, n: nat, i: nat, val: Value)
    requires IsFlush(v, run) && Quiet(v, run[0].t, run[0].c, v.flash)
    requires Safe(v, run[0].c) || !run[|run| - 1].c.lost
    requires var s := run[|run| - 1]; IsReads(v, s.t, Flushed(v), trace) && trace[0] == Reads(s.c, [])
    requires n < |trace| && i < |trace[n].gets| && trace[n].gets[i].st.Answered?
    ensures var k := trace[n].gets[i].key;
            trace[n].gets[i].st.r == Found(val) <==>
            if exists e :: 0 <= e < |v.buf| && v.buf[e].rec.key == k
            then exists e :: 0 <= e < |v.buf| && v.buf[e].rec == Record(k, val)
            else Has(run[0].t.slot, v.flash, Record(k, val))
  {
    hide Inv, Has, Quiet, Flushed, Next, Start, BufferOk, IsReads, Safe;
    var s := run[|run| - 1];
    FlushKeepsQuiet(v, run);
    FlushResult(v, run[0].t.slot, Flushed(v), s, Record(trace[n].gets[i].key, val));
    ReadsAreExact(v, s.t, s.c, Flushed(v), trace, n, i);
  }
}

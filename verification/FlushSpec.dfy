/**
 The write-buffer flush of the hash KV FTL (algorithm/demand, HASH_KVSSD and DVALUE,
 no fingerprints, coarse-grained cache) as a state machine.

 A state is the mapping table, the translation-page cache and the places an entry of the write
 buffer can be in.  The main loop and the device completions are separate steps, so a run is
 any interleaving of them.
 */
module FlushSpec {
  import opened Sequences
  import opened Arithmetic
  import opened KeyOrder

  type Value = seq<Byte>

  /** A stored record: the key at the front of the grain and the rest of the value. */
  datatype Record = Record(key: Key, val: Value)
  /** A write-buffer entry, with the grain address given to it before the mapping update. */
  datatype Entry = Entry(rec: Record, pga: nat)

  /** What a flush does not change.  nr_valid_tentries == pages * epp; `hash` stands for the
      folded SHA-256 of a key; `flash` is what the device holds while the flush runs. */
  datatype Env = Env(pages: nat, epp: nat, maxCached: nat, htMax: nat, hash: Key -> nat,
                     buf: seq<Entry>, flash: map<nat, Record>)

  ghost predicate EnvOk(v: Env) {
    v.epp >= 1 && v.pages * v.epp >= 2 && v.maxCached >= 1 && v.htMax >= 1
  }

  /** The jump recorded in an entry's in-flight parameters; NoJump when it has none. */
  datatype Jump = NoJump | GotoList | GotoComplete | GotoUpdate
  /** A device request in flight on behalf of an entry. */
  datatype Req = DataRead(pga: nat) | MapRead | MapWrite
  datatype Hand = Empty | Holding(e: nat)

  /** mem_table (the slots whose ppa is not initial), max_try, spare areas, grain bitmap, the d_htable filter. */
  datatype Table = Table(slot: map<nat, nat>, maxTry: nat, oob: map<nat, nat>, valid: set<nat>, ht: seq<seq<nat>>)

  datatype Cmt = Cmt(cached: bool, hasTppa: bool, dirty: bool, flying: bool, retryQ: seq<nat>)
  /** `lost` is history: some update hit a page neither cached nor on flash. */
  datatype Cache = Cache(cmt: seq<Cmt>, lru: seq<nat>, lost: bool)

  /** Where the entries are, with their probe counts and jumps. */
  datatype Work = Work(cnt: seq<nat>, jump: seq<Jump>, master: seq<nat>, retry: seq<nat>,
                       hand: Hand, out: map<nat, Req>, done: set<nat>)

  datatype State = State(t: Table, c: Cache, w: Work)

  // ---------------------------------------------------------------- addresses

  /** get_lpa: quadratic probing in 32-bit arithmetic; slot 0 is never used. */
  function GetLpa(v: Env, key: Key, cnt: nat): (lpa: nat)
    requires EnvOk(v)
    ensures 1 <= lpa < v.pages * v.epp
  {
    (v.hash(key) + cnt + cnt * cnt) % 0x1_0000_0000 % (v.pages * v.epp - 1) + 1
  }

  /** From probe cnt to the next is 2 * cnt + 2 slots on, around the table, as long as the sum stays in 32 bits. */
  lemma NextProbe(v: Env, key: Key, cnt: nat)
    requires EnvOk(v) && v.hash(key) + (cnt + 1) + (cnt + 1) * (cnt + 1) < 0x1_0000_0000
    ensures GetLpa(v, key, cnt + 1) == (GetLpa(v, key, cnt) - 1 + (2 * cnt + 2)) % (v.pages * v.epp - 1) + 1
  {
    hide GetLpa;
    var n, x, y := v.pages * v.epp - 1, v.hash(key) + cnt + cnt * cnt, 2 * cnt + 2;
    NextSquare(v.hash(key), cnt);
    LpaIs(v, key, cnt, x);
    LpaIs(v, key, cnt + 1, x + y);
    AddModulo(x, y, n);
  }

  lemma NextSquare(h: nat, cnt: nat)
    ensures h + (cnt + 1) + (cnt + 1) * (cnt + 1) == h + cnt + cnt * cnt + (2 * cnt + 2)
  {
  }

  lemma LpaIs(v: Env, key: Key, cnt: nat, x: nat)
    requires EnvOk(v) && x == v.hash(key) + cnt + cnt * cnt < 0x1_0000_0000
    ensures GetLpa(v, key, cnt) == x % (v.pages * v.epp - 1) + 1
  {
  }

  /** IDX: the translation page of a slot. */
  function Idx(v: Env, lpa: nat): (p: nat)
    requires EnvOk(v) && lpa < v.pages * v.epp
    ensures p < v.pages
  {
    IdxBound(lpa, v.epp, v.pages);
    lpa / v.epp
  }

  lemma IdxBound(lpa: nat, epp: nat, pages: nat)
    requires epp >= 1 && lpa < pages * epp
    ensures 0 <= lpa / epp < pages
  {
  }

  /** The slot entry e is at. */
  function SlotOf(v: Env, w: Work, e: nat): (lpa: nat)
    requires EnvOk(v) && e < |v.buf| && |w.cnt| == |v.buf|
    ensures 1 <= lpa < v.pages * v.epp
  {
    GetLpa(v, v.buf[e].rec.key, w.cnt[e])
  }

  function PageOf(v: Env, w: Work, e: nat): (p: nat)
    requires EnvOk(v) && e < |v.buf| && |w.cnt| == |v.buf|
    ensures p < v.pages
  {
    Idx(v, SlotOf(v, w, e))
  }

  // ---------------------------------------------------------------- shapes

  ghost predicate All(q: seq<nat>, n: nat) { forall i :: 0 <= i < |q| ==> q[i] < n }

  ghost predicate TableShape(v: Env, t: Table) { |t.ht| == v.htMax }

  ghost predicate CacheShape(v: Env, c: Cache) {
    && |c.cmt| == v.pages && All(c.lru, v.pages)
    && forall p :: 0 <= p < |c.cmt| ==> All(c.cmt[p].retryQ, |v.buf|)
  }

  ghost predicate WorkShape(v: Env, w: Work) {
    && |w.cnt| == |v.buf| && |w.jump| == |v.buf|
    && All(w.master, |v.buf|) && All(w.retry, |v.buf|)
    && (w.hand.Holding? ==> w.hand.e < |v.buf|)
    && (forall e :: e in w.out ==> e < |v.buf|)
    && (forall e :: e in w.done ==> e < |v.buf|)
  }

  ghost predicate Shape(v: Env, s: State) {
    EnvOk(v) && TableShape(v, s.t) && CacheShape(v, s.c) && WorkShape(v, s.w)
  }

  // ---------------------------------------------------------------- small pieces of the steps

  /** d_htable_find and d_htable_insert: buckets by grain address, items are slots. */
  predicate HtFind(ht: seq<seq<nat>>, pga: nat, lpa: nat)
    requires |ht| >= 1
  {
    lpa in ht[pga % |ht|]
  }

  function HtInsert(ht: seq<seq<nat>>, pga: nat, lpa: nat): (r: seq<seq<nat>>)
    requires |ht| >= 1
    ensures |r| == |ht|
  {
    ht[pga % |ht| := ht[pga % |ht|] + [lpa]]
  }

  /** Marks every listed entry with a jump. */
  function SetJumps(jump: seq<Jump>, es: seq<nat>, j: Jump): (r: seq<Jump>)
    requires All(es, |jump|)
    ensures |r| == |jump|
    decreases |es|
  {
    if es == [] then jump else SetJumps(jump[es[0] := j], es[1..], j)
  }

  // ---------------------------------------------------------------- moving an entry

  /** The head of the loop: the retry queue is served before the master queue. */
  function TakeNext(w: Work): (r: Work)
    requires w.hand.Empty?
  {
    if w.retry != [] then w.(hand := Holding(w.retry[0]), retry := w.retry[1..])
    else if w.master != [] then w.(hand := Holding(w.master[0]), master := w.master[1..])
    else w
  }

  /** A device request is issued for the entry in hand. */
  function Issue(w: Work, e: nat, req: Req, j: Jump): (r: Work)
    requires e < |w.jump|
  {
    w.(out := w.out[e := req], jump := w.jump[e := j], hand := Empty)
  }

  /** The entries parked at a page go to the retry queue. */
  function Release(w: Work, es: seq<nat>): (r: Work)
    requires All(es, |w.jump|)
  {
    w.(jump := SetJumps(w.jump, es, GotoComplete), retry := w.retry + es)
  }

  // ---------------------------------------------------------------- the cache

  function SetCmt(c: Cache, p: nat, x: Cmt): (r: Cache)
    requires p < |c.cmt|
  {
    c.(cmt := c.cmt[p := x])
  }

  predicate Full(v: Env, c: Cache) { |c.lru| >= v.maxCached }

  function Victim(c: Cache): (p: nat)
    requires |c.lru| > 0
  {
    c.lru[|c.lru| - 1]
  }

  /** The victim part of cg_list_up: a dirty victim gets a translation page of its own. */
  function Evict(c: Cache): (r: Cache)
    requires |c.lru| > 0 && Victim(c) < |c.cmt|
  {
    var x := c.cmt[Victim(c)];
    SetCmt(c.(lru := c.lru[..|c.lru| - 1]), Victim(c),
           x.(cached := false, dirty := false, hasTppa := x.hasTppa || x.dirty))
  }

  /** The rest of cg_list_up: the page becomes cached; its waiters, if any, are let go. */
  function Admit(c: Cache, p: nat): (r: Cache)
    requires p < |c.cmt|
  {
    var x := c.cmt[p];
    SetCmt(c.(lru := [p] + c.lru), p,
           if x.flying then x.(cached := true, flying := false, retryQ := []) else x.(cached := true))
  }

  /** cg_update on the cache side. */
  function Touch(c: Cache, p: nat): (r: Cache)
    requires p < |c.cmt|
  {
    var x := c.cmt[p];
    if x.cached then SetCmt(c.(lru := ToFront(c.lru, p)), p, x.(dirty := true))
    else c.(lost := c.lost || !x.hasTppa)
  }

  // ---------------------------------------------------------------- the steps

  function Take(s: State): (r: State)
    requires s.w.hand.Empty?
  {
    s.(w := TakeNext(s.w))
  }

  /** The cache and the queues after cg_list_up for the entry in hand. */
  function ListedCache(v: Env, c: Cache, p: nat): (r: Cache)
    requires EnvOk(v) && |c.cmt| == v.pages && All(c.lru, v.pages) && p < v.pages
  {
    Admit(if Full(v, c) then Evict(c) else c, p)
  }

  predicate DirtyEvict(v: Env, c: Cache)
    requires EnvOk(v) && |c.cmt| == v.pages && All(c.lru, v.pages)
  {
    Full(v, c) && c.cmt[Victim(c)].dirty
  }

  function ListedWork(v: Env, s: State, e: nat, p: nat): (r: Work)
    requires Shape(v, s) && s.w.hand == Holding(e) && p < v.pages
  {
    var w1 := if DirtyEvict(v, s.c) then Issue(s.w, e, MapWrite, GotoComplete) else s.w;
    if s.c.cmt[p].flying then Release(w1, s.c.cmt[p].retryQ) else w1
  }

  /** wb_cache_list_up, then on to the data check unless a victim is being written. */
  function ListUp(v: Env, s: State, e: nat): (r: State)
    requires Shape(v, s) && s.w.hand == Holding(e)
  {
    var p := PageOf(v, s.w, e);
    var s1 := State(s.t, ListedCache(v, s.c, p), ListedWork(v, s, e, p));
    if DirtyEvict(v, s.c) then s1 else DataCheck(v, s1, e)
  }

  ghost predicate Ready(v: Env, s: State, e: nat) {
    && EnvOk(v) && TableShape(v, s.t) && |s.c.cmt| == v.pages && e < |v.buf| && |s.w.cnt| == |v.buf|
    && |s.w.jump| == |v.buf|
  }

  /** wb_data_check: an empty slot is taken, a slot written in this flush is skipped, any other is read. */
  function DataCheck(v: Env, s: State, e: nat): (r: State)
    requires Ready(v, s, e)
  {
    var lpa := SlotOf(v, s.w, e);
    if lpa !in s.t.slot then Store(v, s, e)
    else if HtFind(s.t.ht, s.t.slot[lpa], lpa) then s.(w := s.w.(cnt := s.w.cnt[e := s.w.cnt[e] + 1]))
    else s.(w := Issue(s.w, e, DataRead(s.t.slot[lpa]), s.w.jump[e]))
  }

  /** wb_update: the old copy is invalidated first. */
  function Update(v: Env, s: State, e: nat): (r: State)
    requires Ready(v, s, e)
  {
    var lpa := SlotOf(v, s.w, e);
    if lpa in s.t.slot then Store(v, s.(t := s.t.(valid := s.t.valid - {s.t.slot[lpa]})), e) else Store(v, s, e)
  }

  function StoredTable(v: Env, t: Table, e: nat, lpa: nat, cnt: nat): (r: Table)
    requires EnvOk(v) && TableShape(v, t) && e < |v.buf|
  {
    Table(t.slot[lpa := v.buf[e].pga],
          if cnt > t.maxTry then cnt else t.maxTry,
          t.oob[v.buf[e].pga := lpa],
          t.valid,
          HtInsert(t.ht, v.buf[e].pga, lpa))
  }

  /** wb_direct_update: mapping, cache state, the filter, max_try and the spare area. */
  function Store(v: Env, s: State, e: nat): (r: State)
    requires Ready(v, s, e)
  {
    State(StoredTable(v, s.t, e, SlotOf(v, s.w, e), s.w.cnt[e]),
          Touch(s.c, PageOf(v, s.w, e)),
          s.w.(done := s.w.done + {e}, hand := Empty))
  }

  /** The cache miss path from wb_cache_load on. */
  function Miss(v: Env, s: State, e: nat): (r: State)
    requires Shape(v, s) && s.w.hand == Holding(e)
  {
    var p := PageOf(v, s.w, e);
    var x := s.c.cmt[p];
    if x.flying then s.(c := SetCmt(s.c, p, x.(retryQ := x.retryQ + [e])), w := s.w.(hand := Empty))
    else if x.hasTppa then s.(c := SetCmt(s.c, p, x.(flying := true)), w := Issue(s.w, e, MapRead, GotoList))
    else ListUp(v, s, e)
  }

  /** One pass from wb_retry with the entry in hand, up to `continue`, an update or another retry. */
  function Probe(v: Env, s0: State): (r: State)
    requires Shape(v, s0) && s0.w.hand.Holding?
  {
    var e := s0.w.hand.e;
    var p := PageOf(v, s0.w, e);
    var s := s0.(w := s0.w.(jump := s0.w.jump[e := NoJump]));
    match s0.w.jump[e]
    case GotoList => ListUp(v, s, e)
    case GotoComplete => DataCheck(v, s, e)
    case GotoUpdate => Update(v, s, e)
    case NoJump =>
      if s.c.cmt[p].cached then DataCheck(v, s.(c := s.c.(lru := ToFront(s.c.lru, p))), e)
      else Miss(v, s, e)
  }

  /** demand_end_req for a request issued by entry e. */
  function Complete(v: Env, w: Work, e: nat): (r: Work)
    requires WorkShape(v, w) && e in w.out
  {
    var w1 := w.(out := w.out - {e});
    match w.out[e]
    case MapRead => w1.(retry := w.retry + [e])
    case MapWrite => w1.(retry := w.retry + [e])
    case DataRead(pga) =>
      if pga in v.flash && v.flash[pga].key == v.buf[e].rec.key then
        w1.(jump := w.jump[e := GotoUpdate], retry := w.retry + [e])
      else
        w1.(cnt := w.cnt[e := w.cnt[e] + 1], master := w.master + [e])
  }

  /** One step of the flush: the loop takes or probes, or any request in flight completes. */
  ghost predicate Next(v: Env, s: State, r: State) {
    Shape(v, s) &&
    ( || (s.w.hand.Empty? && r == Take(s))
      || (s.w.hand.Holding? && r == Probe(v, s))
      || (exists e :: e in s.w.out && r == s.(w := Complete(v, s.w, e))))
  }

  /** The state at the top of the mapping-update loop, all entries on the master queue. */
  ghost predicate Start(v: Env, s: State) {
    && Shape(v, s)
    && (forall e :: 0 <= e < |v.buf| ==> s.w.cnt[e] == 0 && s.w.jump[e] == NoJump)
    && s.w.master == seq(|v.buf|, i => i)
    && s.w.retry == [] && s.w.hand == Empty && s.w.out == map[] && s.w.done == {}
    && (forall b :: 0 <= b < |s.t.ht| ==> s.t.ht[b] == [])
    && (forall p :: 0 <= p < |s.c.cmt| ==> !s.c.cmt[p].flying && s.c.cmt[p].retryQ == [])
    && !s.c.lost
  }

  ghost predicate IsRun(v: Env, run: seq<State>) {
    && |run| >= 1
    && forall i :: 0 <= i < |run| - 1 ==> Next(v, run[i], run[i + 1])
  }
}

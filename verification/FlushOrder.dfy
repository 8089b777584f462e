/**
 The order in which a flush works: which entry the loop takes next, over whole runs, and which translation page it
 pushes out of the cache.
 */
module FlushOrder {
  import opened Sequences
  import opened KeyOrder
  import opened FlushSpec
  import opened FlushPlaces
  import opened FlushControl
  import opened FlushRead

  // ---------------------------------------------------------------- one step

  /** The loop takes an entry in this step. */
  ghost predicate Takes(s: State, r: State) { s.w.hand.Empty? && r.w.hand.Holding? }

  /** What a step does to the two queues: one that takes an entry takes the front of the retry queue, or of the master
      queue if nothing is to be retried; any other only appends. */
  ghost predicate QueuesMove(s: Work, r: Work, took: bool) {
    if !took then s.retry <= r.retry && s.master <= r.master
    else if s.retry != [] then
      r.hand == Holding(s.retry[0]) && r.retry == s.retry[1..] && r.master == s.master
    else
      s.master != [] && r.hand == Holding(s.master[0]) && r.retry == [] && r.master == s.master[1..]
  }

  lemma StepMoves(v: Env, s: State, r: State)
    requires Next(v, s, r)
    ensures QueuesMove(s.w, r.w, Takes(s, r))
  {
    hide GetLpa, Touch, ListedCache, StoredTable, HtFind, Shape, DirtyEvict;
    if s.w.hand.Holding? && r == Probe(v, s) { ProbeMoves(v, s); }
  }

  lemma ProbeMoves(v: Env, s: State)
    requires Shape(v, s) && s.w.hand.Holding?
    ensures s.w.retry <= Probe(v, s).w.retry && s.w.master <= Probe(v, s).w.master
    ensures Probe(v, s).w.hand.Holding? ==> Probe(v, s).w.hand == s.w.hand
  {
    hide GetLpa, Touch, ListedCache, StoredTable, HtFind, DirtyEvict;
  }

  // ---------------------------------------------------------------- runs

  /** The entries the loop takes from state i to state j, in order. */
  ghost function Taken(run: seq<State>, i: nat, j: nat): seq<nat>
    requires j < |run|
    decreases j
  {
    if j <= i then []
    else Taken(run, i, j - 1) + if Takes(run[j - 1], run[j]) then [run[j].w.hand.e] else []
  }

  lemma {:induction false} TakenConcat(run: seq<State>, i: nat, m: nat, j: nat)
    requires i <= m <= j < |run|
    ensures Taken(run, i, j) == Taken(run, i, m) + Taken(run, m, j)
    decreases j
  {
    if m < j { TakenConcat(run, i, m, j - 1); }
  }

  /** As long as no more entries are taken than were to be retried, they are those, in their order, and the master queue
      loses nothing. */
  lemma {:induction false} ServedInOrder(v: Env, run: seq<State>, i: nat, j: nat)
    requires IsRun(v, run) && i <= j < |run| && |Taken(run, i, j)| <= |run[i].w.retry|
    ensures var d := |Taken(run, i, j)|;
            && Taken(run, i, j) == run[i].w.retry[..d] && run[i].w.retry[d..] <= run[j].w.retry
            && run[i].w.master <= run[j].w.master
    decreases j
  {
    hide Next;
    if i < j {
      ServedInOrder(v, run, i, j - 1);
      assert Next(v, run[j - 1], run[j - 1 + 1]);
      StepMoves(v, run[j - 1], run[j]);
      var q, d := run[i].w.retry, |Taken(run, i, j - 1)|;
      if Takes(run[j - 1], run[j]) {
        assert q[d..][0] == q[d] && q[..d + 1] == q[..d] + [q[d]] && q[d + 1..] == q[d..][1..];
        PrefixTail(q[d..], run[j - 1].w.retry);
      }
    }
  }

  lemma PrefixTail(a: seq<nat>, b: seq<nat>)
    requires a <= b && a != []
    ensures b != [] && b[0] == a[0] && a[1..] <= b[1..]
  {
  }

  lemma {:induction false} RunPlaced(v: Env, run: seq<State>, j: nat)
    requires IsRun(v, run) && Placed(v, run[0]) && j < |run|
    ensures Placed(v, run[j])
    decreases j
  {
    hide Next, Placed;
    if j > 0 {
      RunPlaced(v, run, j - 1);
      assert Next(v, run[j - 1], run[j - 1 + 1]);
      StepConserves(v, run[j - 1], run[j]);
    }
  }

  /** While entry e is to be retried, nothing leaves the master queue, and what the loop takes are the entries ahead of
      e
      on the retry queue, in their order. */
  lemma {:induction false} RetryFirst(v: Env, run: seq<State>, i: nat, j: nat, q: nat)
    requires IsRun(v, run) && Placed(v, run[0]) && i <= j < |run| && q < |run[i].w.retry|
    requires forall k :: i <= k <= j ==> run[i].w.retry[q] in run[k].w.retry
    ensures var d := |Taken(run, i, j)|;
            && d <= q && Taken(run, i, j) == run[i].w.retry[..d] && run[i].w.retry[d..] <= run[j].w.retry
            && run[i].w.master <= run[j].w.master
    decreases j
  {
    hide Next, Placed;
    if i < j {
      RetryFirst(v, run, i, j - 1, q);
      assert Next(v, run[j - 1], run[j - 1 + 1]);
      StepMoves(v, run[j - 1], run[j]);
      var e, d := run[i].w.retry[q], |Taken(run, i, j - 1)|;
      if d == q && Takes(run[j - 1], run[j]) {
        assert run[i].w.retry[d..][0] == e;
        RunPlaced(v, run, j);
        HandAlone(v, run[j], e);
        assert false;
      }
      ServedInOrder(v, run, i, j);
    }
  }

  // ---------------------------------------------------------------- waiting for the write of a victim

  /** Entry e has listed its page and waits for the write of the page it has pushed out. */
  ghost predicate Awaits(v: Env, s: State, e: nat, c: Cache, n: nat) {
    && Shape(v, s) && s.w.hand.Empty? && s.c == c && e < |v.buf| && s.w.cnt[e] == n && s.w.jump[e] == GotoComplete
    && (e in s.w.out ==> s.w.out[e] == MapWrite)
  }

  /** A data check issues no write. */
  lemma CheckWrites(v: Env, s: State, e: nat)
    requires Ready(v, s, e) && e !in s.w.out
    ensures !Writing(DataCheck(v, s, e).w, e) && !Writing(Update(v, s, e).w, e)
  {
    hide GetLpa, HtFind, Touch, StoredTable;
  }

  ghost predicate Writing(w: Work, e: nat) { e in w.out && w.out[e] == MapWrite }

  /** Entry e waits for a write, and its page is in the cache. */
  ghost predicate Parted(v: Env, s: State, r: State, e: nat)
    requires EnvOk(v) && e < |v.buf| && |s.w.cnt| == |v.buf|
  {
    && r.w.hand.Empty? && |r.w.jump| == |v.buf| && r.w.cnt == s.w.cnt
    && r.w.jump[e] == GotoComplete && |r.c.cmt| == v.pages && r.c.cmt[PageOf(v, s.w, e)].cached
  }

  lemma ListWrites(v: Env, s: State, e: nat)
    requires Shape(v, s) && s.w.hand == Holding(e) && e !in s.w.out && e < |v.buf|
    ensures Writing(ListUp(v, s, e).w, e) ==> Parted(v, s, ListUp(v, s, e), e)
  {
    hide GetLpa, HtFind, Touch, DataCheck, PageOf;
    var p := PageOf(v, s.w, e);
    var s1 := State(s.t, ListedCache(v, s.c, p), ListedWork(v, s, e, p));
    var w1 := if DirtyEvict(v, s.c) then Issue(s.w, e, MapWrite, GotoComplete) else s.w;
    SetJumpsAt(w1.jump, s.c.cmt[p].retryQ, GotoComplete);
    if !DirtyEvict(v, s.c) { CheckWrites(v, s1, e); }
  }

  lemma MissWrites(v: Env, s: State, e: nat)
    requires Shape(v, s) && s.w.hand == Holding(e) && e !in s.w.out && e < |v.buf|
    ensures Writing(Miss(v, s, e).w, e) ==> Parted(v, s, Miss(v, s, e), e)
  {
    hide GetLpa, ListUp, PageOf;
    ListWrites(v, s, e);
  }

  /** A probe that leaves the entry waiting for a write has put its page in the cache. */
  lemma ProbeWrites(v: Env, s: State, e: nat)
    requires Shape(v, s) && s.w.hand == Holding(e) && e !in s.w.out && e < |v.buf|
    ensures Writing(Probe(v, s).w, e) ==> Parted(v, s, Probe(v, s), e)
  {
    hide GetLpa, ListUp, PageOf, Miss, DataCheck, Update, ToFront;
    var p := PageOf(v, s.w, e);
    var s1 := s.(w := s.w.(jump := s.w.jump[e := NoJump]));
    assert PageOf(v, s1.w, e) == p by { SamePage(v, s.w, s1.w, e); }
    ListWrites(v, s1, e);
    MissWrites(v, s1, e);
    CheckWrites(v, s1, e);
    CheckWrites(v, s1.(c := s1.c.(lru := ToFront(s1.c.lru, p))), e);
  }

  lemma SamePage(v: Env, w: Work, w': Work, e: nat)
    requires EnvOk(v) && e < |v.buf| && |w.cnt| == |v.buf| && w'.cnt == w.cnt
    ensures PageOf(v, w', e) == PageOf(v, w, e)
  {
  }

  lemma StillWaits(v: Env, s: State, r: State, e: nat, c: Cache, n: nat)
    requires Awaits(v, s, e, c, n) && Next(v, s, r) && Shape(v, r)
    ensures !Takes(s, r) ==> Awaits(v, r, e, c, n)
    ensures Takes(s, r) ==> r.c == c && r.w.cnt[e] == n && r.w.jump[e] == GotoComplete
  {
  }

  lemma {:induction false} RunControl(v: Env, run: seq<State>, j: nat)
    requires IsRun(v, run) && Control(v, run[0], -1) && j < |run|
    ensures Control(v, run[j], -1)
    decreases j
  {
    hide Next, Control;
    if j > 0 {
      RunControl(v, run, j - 1);
      assert Next(v, run[j - 1], run[j - 1 + 1]);
      StepControl(v, run[j - 1], run[j]);
    }
  }

  lemma ControlShape(v: Env, s: State)
    requires Control(v, s, -1)
    ensures Shape(v, s) && Placed(v, s)
  {
  }

  lemma {:induction false} WaitsOn(v: Env, run: seq<State>, i: nat, j: nat, e: nat, c: Cache, n: nat)
    requires IsRun(v, run) && Control(v, run[0], -1) && i <= j < |run| && Awaits(v, run[i], e, c, n)
    requires Taken(run, i, j) == []
    ensures Awaits(v, run[j], e, c, n)
    decreases j
  {
    hide Next, Control, Awaits;
    if i < j {
      WaitsOn(v, run, i, j - 1, e, c, n);
      assert Next(v, run[j - 1], run[j - 1 + 1]);
      RunControl(v, run, j);
      ControlShape(v, run[j]);
      StillWaits(v, run[j - 1], run[j], e, c, n);
    }
  }

  /** At step i the probe of e has left it waiting for the write of its victim. */
  ghost predicate Evicts(v: Env, run: seq<State>, i: nat, e: nat) {
    && i + 1 < |run| && run[i].w.hand == Holding(e) && run[i + 1].w.hand.Empty? && Writing(run[i + 1].w, e)
  }

  lemma EvictsAwaits(v: Env, run: seq<State>, i: nat, e: nat)
    requires IsRun(v, run) && Control(v, run[0], -1) && Evicts(v, run, i, e)
    ensures e < |v.buf| && Shape(v, run[i]) && Shape(v, run[i + 1])
    ensures Awaits(v, run[i + 1], e, run[i + 1].c, run[i].w.cnt[e])
    ensures run[i + 1].c.cmt[PageOf(v, run[i].w, e)].cached
  {
    hide Control, Probe, PageOf;
    RunControl(v, run, i);
    RunControl(v, run, i + 1);
    ControlShape(v, run[i]);
    ControlShape(v, run[i + 1]);
    HandAlone(v, run[i], e);
    ProbeWrites(v, run[i], e);
  }

  /** Nothing was taken since: the page is where it was when e goes on, and its update is not lost. */
  lemma FindsItsPage(v: Env, run: seq<State>, i: nat, j: nat, e: nat)
    requires IsRun(v, run) && Control(v, run[0], -1) && Evicts(v, run, i, e) && i + 1 < j < |run|
    requires Taken(run, i + 1, j) == [e] && Takes(run[j - 1], run[j])
    ensures run[j].w.hand == Holding(e) && Shape(v, run[j]) && run[j].c == run[i + 1].c
    ensures run[j].c.cmt[PageOf(v, run[j].w, e)].cached && Probe(v, run[j]).c.lost == run[j].c.lost
  {
    hide Control, Next, Probe, PageOf, Awaits;
    EvictsAwaits(v, run, i, e);
    var c, n := run[i + 1].c, run[i].w.cnt[e];
    assert Taken(run, i + 1, j) == Taken(run, i + 1, j - 1) + [run[j].w.hand.e];
    assert Taken(run, i + 1, j)[|Taken(run, i + 1, j - 1)|] == run[j].w.hand.e;
    WaitsOn(v, run, i + 1, j - 1, e, c, n);
    RunControl(v, run, j);
    ControlShape(v, run[j]);
    assert Next(v, run[j - 1], run[j - 1 + 1]);
    StillWaits(v, run[j - 1], run[j], e, c, n);
    SameCount(v, run[i].w, run[j].w, e);
    StoresSafely(v, run[j], e);
  }

  lemma SameCount(v: Env, w: Work, w': Work, e: nat)
    requires EnvOk(v) && e < |v.buf| && |w.cnt| == |w'.cnt| == |v.buf| && w'.cnt[e] == w.cnt[e]
    ensures PageOf(v, w', e) == PageOf(v, w, e)
  {
  }

  lemma StoresSafely(v: Env, s: State, e: nat)
    requires Shape(v, s) && s.w.hand == Holding(e) && s.w.jump[e] == GotoComplete && s.c.cmt[PageOf(v, s.w, e)].cached
    ensures Probe(v, s).c.lost == s.c.lost
  {
    hide GetLpa, HtFind, StoredTable, ToFront;
  }

  /** If no entry is taken until the write of e's victim has completed, and e is then the first to be retried, then e is
      taken next, whatever is on the master queue, and still finds its page in the cache. */
  lemma GoesOnWithItsPage(v: Env, run: seq<State>, i: nat, m: nat, j: nat, e: nat)
    requires IsRun(v, run) && Control(v, run[0], -1) && Evicts(v, run, i, e) && i + 1 <= m < j < |run|
    requires Taken(run, i + 1, m) == [] && run[m].w.retry != [] && run[m].w.retry[0] == e
    requires |Taken(run, m, j)| == 1 && Takes(run[j - 1], run[j])
    ensures run[j].w.hand == Holding(e) && Shape(v, run[j]) && run[j].c == run[i + 1].c
    ensures run[j].c.cmt[PageOf(v, run[j].w, e)].cached && Probe(v, run[j]).c.lost == run[j].c.lost
  {
    hide Control, Next, Probe, PageOf;
    ServedInOrder(v, run, m, j);
    assert run[m].w.retry[..1] == [e];
    TakenConcat(run, i + 1, m, j);
    FindsItsPage(v, run, i, j, e);
  }

  // ---------------------------------------------------------------- what is on the queues

  /** The entries to be retried are those with a jump recorded, which go on where they stopped. */
  ghost predicate RetryJumps(w: Work) {
    forall i :: 0 <= i < |w.retry| ==> w.retry[i] < |w.jump| && w.jump[w.retry[i]] != NoJump
  }

  lemma ListJumps(v: Env, s: State, e: nat)
    requires Shape(v, s) && s.w.hand == Holding(e) && e < |v.buf| && RetryJumps(s.w)
    ensures RetryJumps(ListUp(v, s, e).w)
  {
    hide GetLpa, HtFind, Touch, ListedCache, PageOf, StoredTable;
    var p := PageOf(v, s.w, e);
    var w1 := if DirtyEvict(v, s.c) then Issue(s.w, e, MapWrite, GotoComplete) else s.w;
    SetJumpsAt(w1.jump, s.c.cmt[p].retryQ, GotoComplete);
  }

  lemma ProbeJumps(v: Env, s: State)
    requires Shape(v, s) && Placed(v, s) && s.w.hand.Holding? && RetryJumps(s.w)
    ensures RetryJumps(Probe(v, s).w)
  {
    hide GetLpa, HtFind, Touch, ListUp, PageOf, StoredTable, Placed, ToFront;
    var e := s.w.hand.e;
    HandAlone(v, s, e);
    var s1 := s.(w := s.w.(jump := s.w.jump[e := NoJump]));
    assert RetryJumps(s1.w);
    ListJumps(v, s1, e);
  }

  lemma CompleteJumps(v: Env, w: Work, e: nat)
    requires WorkShape(v, w) && e in w.out && RetryJumps(w)
    requires w.out[e] == MapRead || w.out[e] == MapWrite ==> w.jump[e] != NoJump
    ensures RetryJumps(Complete(v, w, e))
  {
  }

  lemma TakeJumps(w: Work)
    requires w.hand.Empty? && RetryJumps(w)
    ensures RetryJumps(TakeNext(w))
  {
  }

  lemma StepJumps(v: Env, s: State, r: State)
    requires Control(v, s, -1) && Next(v, s, r) && RetryJumps(s.w)
    ensures RetryJumps(r.w)
  {
    hide Control, Probe, Placed, Complete, TakeNext, RetryJumps;
    ControlShape(v, s);
    ControlJumps(v, s);
    if s.w.hand.Holding? && r == Probe(v, s) {
      ProbeJumps(v, s);
    } else if s.w.hand.Empty? && r == Take(s) {
      TakeJumps(s.w);
    } else {
      var e :| e in s.w.out && r == s.(w := Complete(v, s.w, e));
      CompleteJumps(v, s.w, e);
    }
  }

  lemma ControlJumps(v: Env, s: State)
    requires Control(v, s, -1)
    ensures forall e :: e in s.w.out ==>
      e < |s.w.jump| && (s.w.out[e] == MapRead || s.w.out[e] == MapWrite ==> s.w.jump[e] != NoJump)
    ensures forall i :: 0 <= i < |s.w.master| ==> s.w.master[i] < |s.w.jump| && s.w.jump[s.w.master[i]] == NoJump
  {
    hide Placed, LoadsOk, LruOk;
  }

  /** Over every run from a state with nothing to be retried: an entry is on the retry queue only to go on where it
      stopped, and on the master queue only to start a probe. */
  lemma {:induction false} QueuesTellApart(v: Env, run: seq<State>, j: nat)
    requires IsRun(v, run) && Control(v, run[0], -1) && run[0].w.retry == [] && j < |run|
    ensures RetryJumps(run[j].w)
    ensures forall i :: 0 <= i < |run[j].w.master| ==>
      run[j].w.master[i] < |run[j].w.jump| && run[j].w.jump[run[j].w.master[i]] == NoJump
    decreases j
  {
    hide Next, Control;
    RunControl(v, run, j);
    ControlJumps(v, run[j]);
    if j > 0 {
      QueuesTellApart(v, run, j - 1);
      assert Next(v, run[j - 1], run[j - 1 + 1]);
      RunControl(v, run, j - 1);
      StepJumps(v, run[j - 1], run[j]);
    }
  }

  // ---------------------------------------------------------------- which page is pushed out

  /** The probe of the entry in hand uses page p: it finds the page in the cache, lists it, or updates an entry of it.
      */
  ghost predicate Uses(v: Env, s: State, p: nat)
    requires Shape(v, s)
  {
    && s.w.hand.Holding? && p == PageOf(v, s.w, s.w.hand.e)
    && match s.w.jump[s.w.hand.e]
       case GotoList => true
       case NoJump => s.c.cmt[p].cached || (!s.c.cmt[p].flying && !s.c.cmt[p].hasTppa)
       case GotoComplete => s.c.cmt[p].cached && SlotOf(v, s.w, s.w.hand.e) !in s.t.slot
       case GotoUpdate => s.c.cmt[p].cached
  }

  lemma {:induction false} WithoutAbsent(s: seq<nat>, p: nat)
    requires p !in s
    ensures Without(s, p) == s
    decreases s
  {
    if s != [] { WithoutAbsent(s[1..], p); }
  }

  lemma FrontAgain(s: seq<nat>, p: nat)
    ensures ToFront([p] + s, p) == [p] + s
  {
    assert ([p] + s)[1..] == s;
  }

  /** A data check of an entry whose page is in front leaves the list as it is. */
  lemma CheckLru(v: Env, s: State, e: nat, rest: seq<nat>)
    requires Ready(v, s, e) && s.c.lru == [PageOf(v, s.w, e)] + rest
    ensures DataCheck(v, s, e).c.lru == s.c.lru
  {
    hide GetLpa, HtFind, StoredTable, ToFront, PageOf;
    FrontAgain(rest, PageOf(v, s.w, e));
  }

  lemma ListLru(v: Env, s: State, e: nat)
    requires Shape(v, s) && s.w.hand == Holding(e) && e < |v.buf| && LruOk(s.c) && !s.c.cmt[PageOf(v, s.w, e)].cached
    ensures ListUp(v, s, e).c.lru == Access(v.maxCached, s.c.lru, PageOf(v, s.w, e))
  {
    hide GetLpa, HtFind, DataCheck, PageOf, ListedWork;
    var p := PageOf(v, s.w, e);
    var c := ListedCache(v, s.c, p);
    var s1 := State(s.t, c, ListedWork(v, s, e, p));
    assert c.lru == Access(v.maxCached, s.c.lru, p) && c.lru == [p] + c.lru[1..];
    if !DirtyEvict(v, s.c) {
      ListedCount(v, s, e, p);
      SamePage(v, s.w, s1.w, e);
      CheckLru(v, s1, e, c.lru[1..]);
    }
  }

  lemma ListedCount(v: Env, s: State, e: nat, p: nat)
    requires Shape(v, s) && s.w.hand == Holding(e) && p < v.pages
    ensures ListedWork(v, s, e, p).cnt == s.w.cnt && |ListedWork(v, s, e, p).jump| == |v.buf|
  {
  }

  /** The list after a probe: the page it uses is in front, in place of the last one if the list is full. */
  lemma ProbeLru(v: Env, s: State, p: nat)
    requires Control(v, s, -1) && s.w.hand.Holding? && p == PageOf(v, s.w, s.w.hand.e)
    ensures Probe(v, s).c.lru == if Uses(v, s, p) then Access(v.maxCached, s.c.lru, p) else s.c.lru
  {
    var e := s.w.hand.e;
    ListsUncached(v, s, e);
    hide GetLpa, HtFind, PageOf, DataCheck, ListUp, StoredTable, Access, JumpsOk, LoadsOk, DoneHasNoJump, Placed;
    var s1 := s.(w := s.w.(jump := s.w.jump[e := NoJump]));
    SamePage(v, s.w, s1.w, e);
    match s.w.jump[e] {
      case GotoList => ListLru(v, s1, e);
      case GotoComplete => UpdateLru(v, s1, e);
      case GotoUpdate => UpdateLru(v, s1, e);
      case NoJump =>
        if s.c.cmt[p].cached {
          HitLru(v, s1, e);
        } else if !s.c.cmt[p].flying && !s.c.cmt[p].hasTppa {
          ListLru(v, s1, e);
        }
    }
  }

  lemma ListsUncached(v: Env, s: State, e: nat)
    requires Control(v, s, -1) && s.w.hand == Holding(e)
    ensures e < |v.buf| && (s.w.jump[e] == GotoList ==> !s.c.cmt[PageOf(v, s.w, e)].cached)
  {
    HandAlone(v, s, e);
    hide Placed, JumpsOk, LruOk;
    if s.w.jump[e] == GotoList { assert Loader(v, s.w, e, PageOf(v, s.w, e)); }
  }

  lemma HitLru(v: Env, s: State, e: nat)
    requires Shape(v, s) && e < |v.buf| && LruOk(s.c) && s.c.cmt[PageOf(v, s.w, e)].cached
    ensures var p := PageOf(v, s.w, e); var s1 := s.(c := s.c.(lru := ToFront(s.c.lru, p)));
            DataCheck(v, s1, e).c.lru == Access(v.maxCached, s.c.lru, p)
  {
    hide GetLpa, HtFind, DataCheck, PageOf;
    var p := PageOf(v, s.w, e);
    var s1 := s.(c := s.c.(lru := ToFront(s.c.lru, p)));
    CheckLru(v, s1, e, Without(s.c.lru, p));
  }

  lemma UpdateLru(v: Env, s: State, e: nat)
    requires Shape(v, s) && e < |v.buf| && LruOk(s.c)
    ensures var p := PageOf(v, s.w, e); var l := Access(v.maxCached, s.c.lru, p);
            && Update(v, s, e).c.lru == (if s.c.cmt[p].cached then l else s.c.lru)
            && DataCheck(v, s, e).c.lru ==
               if s.c.cmt[p].cached && SlotOf(v, s.w, e) !in s.t.slot then l else s.c.lru
  {
    hide GetLpa, HtFind, StoredTable, ToFront, PageOf, SlotOf;
  }

  // ---------------------------------------------------------------- least recently used

  /** Step k of the run uses page p. */
  ghost predicate UsedAt(v: Env, run: seq<State>, k: nat, p: nat) {
    && k + 1 < |run| && Shape(v, run[k]) && Uses(v, run[k], p) && run[k + 1] == Probe(v, run[k])
  }

  /** Page p is in the list, and in front of q. */
  ghost predicate Ahead(lru: seq<nat>, p: nat, q: nat) {
    exists i, j :: 0 <= i < j < |lru| && lru[i] == p && lru[j] == q
  }

  lemma AheadCons(x: nat, t: seq<nat>, p: nat, q: nat)
    ensures Ahead([x] + t, p, q) <==> Ahead(t, p, q) || (x == p && q in t)
  {
    var u := [x] + t;
    if Ahead(u, p, q) {
      var i, j :| 0 <= i < j < |u| && u[i] == p && u[j] == q;
      assert t[j - 1] == q;
      if i > 0 { assert t[i - 1] == p; }
    }
    if Ahead(t, p, q) {
      var i, j :| 0 <= i < j < |t| && t[i] == p && t[j] == q;
      assert u[i + 1] == p && u[j + 1] == q;
    }
    if x == p && q in t {
      var j :| 0 <= j < |t| && t[j] == q;
      assert u[0] == p && u[j + 1] == q;
    }
  }

  lemma {:induction false} WithoutAhead(s: seq<nat>, x: nat, p: nat, q: nat)
    requires NoDup(s) && Ahead(s, p, q) && x != p && x != q
    ensures Ahead(Without(s, x), p, q)
    decreases s
  {
    hide Ahead;
    AheadHere(s, p, q);
    var t := s[1..];
    assert s == [s[0]] + t;
    AheadCons(s[0], t, p, q);
    if s[0] != x {
      TailNoDup(s);
      WithoutIs(t, x);
      if Ahead(t, p, q) { WithoutAhead(t, x, p, q); }
      AheadCons(s[0], Without(t, x), p, q);
    }
  }

  lemma AheadHere(s: seq<nat>, p: nat, q: nat)
    requires Ahead(s, p, q)
    ensures s != [] && p in s && q in s
  {
  }

  lemma TailNoDup(s: seq<nat>)
    requires NoDup(s) && s != []
    ensures NoDup(s[1..])
  {
  }

  lemma InitAhead(s: seq<nat>, p: nat, q: nat)
    requires NoDup(s) && Ahead(s, p, q) && q in s[..|s| - 1]
    ensures Ahead(s[..|s| - 1], p, q)
  {
    var i, j :| 0 <= i < j < |s| && s[i] == p && s[j] == q;
    var t := s[..|s| - 1];
    var k :| 0 <= k < |t| && t[k] == q;
    assert s[k] == q;
    assert t[i] == p && t[k] == q;
  }

  /** Using page x does not change the order of the other pages that stay, and puts x in front of them. */
  lemma AccessAhead(max: nat, lru: seq<nat>, x: nat, p: nat, q: nat)
    requires NoDup(lru) && q != x && q in Access(max, lru, x)
    ensures q in lru && (Ahead(lru, p, q) || p == x ==> Ahead(Access(max, lru, x), p, q))
  {
    hide Ahead;
    WithoutIs(lru, x);
    if x in lru {
      AheadCons(x, Without(lru, x), p, q);
      if Ahead(lru, p, q) && p != x { WithoutAhead(lru, x, p, q); }
    } else {
      var t := if |lru| >= max && lru != [] then lru[..|lru| - 1] else lru;
      AheadCons(x, t, p, q);
      if Ahead(lru, p, q) && t != lru { InitAhead(lru, p, q); }
    }
  }

  lemma ProbeOrder(v: Env, s: State, p: nat, q: nat)
    requires Control(v, s, -1) && Shape(v, s) && s.w.hand.Holding? && NoDup(s.c.lru)
    requires p != q && !Uses(v, s, q) && q in Probe(v, s).c.lru
    ensures q in s.c.lru && (Ahead(s.c.lru, p, q) || Uses(v, s, p) ==> Ahead(Probe(v, s).c.lru, p, q))
  {
    hide Control, Probe, Ahead, Access, PageOf, Uses, NoDup, Shape;
    HeldShape(v, s);
    var x := PageOf(v, s.w, s.w.hand.e);
    ProbeLru(v, s, x);
    if Uses(v, s, p) { UsesOne(v, s, p); }
    if Uses(v, s, x) { AccessAhead(v.maxCached, s.c.lru, x, p, q); }
  }

  lemma HeldShape(v: Env, s: State)
    requires Shape(v, s) && s.w.hand.Holding?
    ensures EnvOk(v) && s.w.hand.e < |v.buf| == |s.w.cnt|
  {
  }

  lemma UsesOne(v: Env, s: State, p: nat)
    requires Shape(v, s) && Uses(v, s, p)
    ensures s.w.hand.Holding? && p == PageOf(v, s.w, s.w.hand.e)
  {
    hide PageOf;
  }

  lemma OtherSteps(v: Env, s: State, r: State)
    requires Next(v, s, r) && !(s.w.hand.Holding? && r == Probe(v, s))
    ensures r.c == s.c
  {
    hide Probe;
  }

  lemma StepLru(v: Env, run: seq<State>, k: nat, p: nat, q: nat)
    requires IsRun(v, run) && Control(v, run[0], -1) && k + 1 < |run|
    requires p != q && !UsedAt(v, run, k, q) && q in run[k + 1].c.lru
    ensures q in run[k].c.lru
    ensures Ahead(run[k].c.lru, p, q) || UsedAt(v, run, k, p) ==> Ahead(run[k + 1].c.lru, p, q)
  {
    hide Control, Probe, Ahead, Next, Uses, Shape, NoDup;
    var s, r := run[k], run[k + 1];
    assert Next(v, s, r);
    RunControl(v, run, k);
    ControlLru(v, s);
    if s.w.hand.Holding? && r == Probe(v, s) { ProbeOrder(v, s, p, q); } else { OtherSteps(v, s, r); }
    if UsedAt(v, run, k, p) { UsesOne(v, s, p); }
  }

  lemma ControlLru(v: Env, s: State)
    requires Control(v, s, -1)
    ensures Shape(v, s) && NoDup(s.c.lru)
  {
  }

  /** A page that was used at step i is in front of every page that was not used since. */
  lemma {:induction false} LruOrder(v: Env, run: seq<State>, i: nat, j: nat, p: nat, q: nat)
    requires IsRun(v, run) && Control(v, run[0], -1) && i < j < |run| && UsedAt(v, run, i, p) && p != q
    requires (forall k :: i <= k < j ==> !UsedAt(v, run, k, q)) && q in run[j].c.lru
    ensures Ahead(run[j].c.lru, p, q)
    decreases j
  {
    hide Next, Control, UsedAt, Ahead;
    StepLru(v, run, j - 1, p, q);
    if i < j - 1 { LruOrder(v, run, i, j - 1, p, q); }
  }

  /** The page that leaves a full cache is the least recently used one: every other page in the cache was used after its
      last use. */
  lemma VictimIsOldest(v: Env, run: seq<State>, i: nat, j: nat, q: nat)
    requires IsRun(v, run) && Control(v, run[0], -1) && i < j < |run| && run[j].c.lru != []
    requires UsedAt(v, run, i, Victim(run[j].c)) && q in run[j].c.lru && q != Victim(run[j].c)
    ensures exists k :: i < k < j && UsedAt(v, run, k, q)
  {
    hide Next, Control, UsedAt;
    var p, lru := Victim(run[j].c), run[j].c.lru;
    UsedOnce(v, run, i, p, q);
    RunControl(v, run, j);
    ControlLru(v, run[j]);
    if forall k :: i <= k < j ==> !UsedAt(v, run, k, q) {
      LruOrder(v, run, i, j, p, q);
      LastIsLast(lru, p, q);
    }
  }

  lemma UsedOnce(v: Env, run: seq<State>, i: nat, p: nat, q: nat)
    requires UsedAt(v, run, i, p) && p != q
    ensures !UsedAt(v, run, i, q)
  {
    hide PageOf;
  }

  lemma LastIsLast(lru: seq<nat>, p: nat, q: nat)
    requires NoDup(lru) && lru != [] && p == lru[|lru| - 1]
    ensures !Ahead(lru, p, q)
  {
  }

  // ---------------------------------------------------------------- what is read and written

  /** The device requests of a probe are exactly what the cache needs. */
  ghost predicate Traffic(s: State, r: State, e: nat) {
    && |r.c.cmt| == |s.c.cmt| && FlyingOnFlash(r.c) && Enters(s.c, r.c)
    && (Writing(r.w, e) <==> DirtyLeft(s.c, r.c)) && (e in r.w.out && r.w.out[e] == MapRead <==> Departs(s.c, r.c))
  }

  /** A data check reads and writes no translation page, and at most makes a page dirty. */
  lemma CheckTraffic(v: Env, s: State, r: State, e: nat)
    requires Ready(v, s, e) && e !in s.w.out && (r == DataCheck(v, s, e) || r == Update(v, s, e))
    ensures |r.c.cmt| == |s.c.cmt| && (e in r.w.out ==> r.w.out[e].DataRead?)
    ensures forall q :: 0 <= q < |s.c.cmt| ==> r.c.cmt[q] == s.c.cmt[q].(dirty := r.c.cmt[q].dirty)
  {
    hide GetLpa, HtFind, StoredTable, ToFront;
  }

  lemma PlainTraffic(v: Env, s: State, r: State, e: nat)
    requires Ready(v, s, e) && e !in s.w.out && FlyingOnFlash(s.c) && LruOk(s.c)
    requires |r.c.cmt| == |s.c.cmt| && (e in r.w.out ==> r.w.out[e].DataRead?)
    requires forall q :: 0 <= q < |s.c.cmt| ==> r.c.cmt[q] == s.c.cmt[q].(dirty := r.c.cmt[q].dirty)
    ensures Traffic(s, r, e)
  {
  }

  lemma ListTraffic(v: Env, s: State, e: nat)
    requires Shape(v, s) && s.w.hand == Holding(e) && e < |v.buf| && e !in s.w.out && LruOk(s.c) && FlyingOnFlash(s.c)
    requires var x := s.c.cmt[PageOf(v, s.w, e)]; !x.cached && (x.hasTppa <==> x.flying)
    ensures Traffic(s, ListUp(v, s, e), e)
  {
    hide GetLpa, HtFind, DataCheck, PageOf, ListedWork;
    var p := PageOf(v, s.w, e);
    var c := ListedCache(v, s.c, p);
    var s1 := State(s.t, c, ListedWork(v, s, e, p));
    var r := ListUp(v, s, e);
    ListedIsRight(v, s.c, p);
    ListedOut(v, s, e, p);
    if DirtyEvict(v, s.c) {
      SameTraffic(s, s1, r, e);
    } else {
      CheckTraffic(v, s1, r, e);
      SameTraffic(s, s1, r, e);
    }
  }

  lemma ListedOut(v: Env, s: State, e: nat, p: nat)
    requires Shape(v, s) && s.w.hand == Holding(e) && p < v.pages && e < |v.buf| && e !in s.w.out
    ensures var w := ListedWork(v, s, e, p);
            && w.cnt == s.w.cnt && |w.jump| == |v.buf|
            && if DirtyEvict(v, s.c) then Writing(w, e) else e !in w.out
  {
    hide SetJumps;
  }

  /** What follows the listing changes only dirty bits. */
  lemma SameTraffic(s: State, s1: State, r: State, e: nat)
    requires |s1.c.cmt| == |s.c.cmt| == |r.c.cmt| && FlyingOnFlash(s1.c) && Enters(s.c, s1.c) && !Departs(s.c, s1.c)
    requires Writing(r.w, e) <==> DirtyLeft(s.c, s1.c)
    requires e in r.w.out && r.w.out[e] != MapWrite ==> r.w.out[e].DataRead?
    requires forall q :: 0 <= q < |s.c.cmt| ==> r.c.cmt[q] == s1.c.cmt[q].(dirty := r.c.cmt[q].dirty)
    ensures Traffic(s, r, e)
  {
    assert forall q :: 0 <= q < |s.c.cmt| ==>
      r.c.cmt[q].cached == s1.c.cmt[q].cached && r.c.cmt[q].flying == s1.c.cmt[q].flying;
  }

  lemma MissTraffic(v: Env, s: State, e: nat)
    requires Shape(v, s) && s.w.hand == Holding(e) && e < |v.buf| && e !in s.w.out && LruOk(s.c) && FlyingOnFlash(s.c)
    requires !s.c.cmt[PageOf(v, s.w, e)].cached
    ensures Traffic(s, Miss(v, s, e), e)
  {
    hide GetLpa, PageOf, ListUp;
    var p := PageOf(v, s.w, e);
    var x, r := s.c.cmt[p], Miss(v, s, e);
    if !x.flying && !x.hasTppa {
      ListTraffic(v, s, e);
    } else if !x.flying {
      assert !s.c.cmt[p].flying && r.c.cmt[p].flying;
    }
  }

  /** Every probe: a translation page is written exactly when a dirty one leaves the cache, a read is issued exactly
      when
      a page takes off, only pages on flash do, and a page on flash enters the cache only after it was read. */
  lemma ProbeTraffic(v: Env, s: State, e: nat)
    requires Control(v, s, -1) && s.w.hand == Holding(e) && FlyingOnFlash(s.c)
    ensures Traffic(s, Probe(v, s), e)
  {
    HandAlone(v, s, e);
    ListsFlying(v, s, e);
    hide GetLpa, HtFind, PageOf, DataCheck, ListUp, Update, Miss, JumpsOk, LoadsOk, DoneHasNoJump, Placed, ToFront;
    var p := PageOf(v, s.w, e);
    var s1 := s.(w := s.w.(jump := s.w.jump[e := NoJump]));
    SamePage(v, s.w, s1.w, e);
    match s.w.jump[e] {
      case GotoList => ListTraffic(v, s1, e);
      case GotoComplete =>
        CheckTraffic(v, s1, DataCheck(v, s1, e), e);
        PlainTraffic(v, s1, DataCheck(v, s1, e), e);
      case GotoUpdate =>
        CheckTraffic(v, s1, Update(v, s1, e), e);
        PlainTraffic(v, s1, Update(v, s1, e), e);
      case NoJump =>
        if s.c.cmt[p].cached {
          var s2 := s1.(c := s1.c.(lru := ToFront(s1.c.lru, p)));
          CheckTraffic(v, s2, DataCheck(v, s2, e), e);
          PlainTraffic(v, s1, DataCheck(v, s2, e), e);
        } else {
          MissTraffic(v, s1, e);
        }
    }
  }

  lemma ListsFlying(v: Env, s: State, e: nat)
    requires Control(v, s, -1) && s.w.hand == Holding(e) && FlyingOnFlash(s.c)
    ensures e < |v.buf|
    ensures s.w.jump[e] == GotoList ==>
      var x := s.c.cmt[PageOf(v, s.w, e)]; !x.cached && x.flying && x.hasTppa
  {
    HandAlone(v, s, e);
    hide Placed, JumpsOk, LruOk;
    if s.w.jump[e] == GotoList { assert Loader(v, s.w, e, PageOf(v, s.w, e)); }
  }

  /** Step k of the run is a probe. */
  ghost predicate ProbedAt(v: Env, run: seq<State>, k: nat) {
    k + 1 < |run| && Shape(v, run[k]) && run[k].w.hand.Holding? && run[k + 1] == Probe(v, run[k])
  }

  /** Over every run of a flush the device requests are exactly what the cache needs. */
  lemma {:induction false} RunTraffic(v: Env, run: seq<State>, j: nat)
    requires IsRun(v, run) && Control(v, run[0], -1) && FlyingOnFlash(run[0].c) && j < |run|
    ensures FlyingOnFlash(run[j].c)
    ensures j + 1 < |run| ==>
      if ProbedAt(v, run, j) then Traffic(run[j], run[j + 1], run[j].w.hand.e) else run[j + 1].c == run[j].c
    decreases j
  {
    hide Next, Control, Probe, FlyingOnFlash;
    if j > 0 {
      RunTraffic(v, run, j - 1);
      assert run[j - 1 + 1] == run[j];
    }
    RunControl(v, run, j);
    ControlShape(v, run[j]);
    if j + 1 < |run| {
      assert Next(v, run[j], run[j + 1]);
      if ProbedAt(v, run, j) {
        ProbeTraffic(v, run[j], run[j].w.hand.e);
      } else {
        OtherSteps(v, run[j], run[j + 1]);
      }
    }
  }
}

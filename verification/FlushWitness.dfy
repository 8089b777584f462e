/**
 A flush that loses an update, as a run: three translation pages and room for two of them in the cache.

 Entry 0 lists page 0, which is not on flash, and waits for the dirty page it has pushed out to be written.  Entry 1
 then pushes page 0 out again, clean, so that the update of entry 0 is lost.  Entry 2 lists page 0 once more on its way
 to a slot of page 1.  The page is now cached, and yet a read of entry 0's key pushes it out before it gets there.
 */
module FlushWitness {
  import opened Sequences
  import opened KeyOrder
  import opened FlushSpec
  import opened FlushControl
  import opened FlushProbing
  import opened FlushTheorems
  import opened FlushResults
  import opened FlushRead

  /** Three pages of four slots.  Keys [1], [3] and [4] probe slots 11, 2 and 6, keys [2] and [5] slots 9, 11 and 4. */
  function WideEnv(): Env {
    Env(3, 4, 2, 1, (k: Key) => if k == [2] || k == [5] then 8 else if k == [6] then 4 else 10,
        [Entry(Record([1], []), 10), Entry(Record([2], []), 20), Entry(Record([3], []), 30)],
        map[5 := Record([4], []), 6 := Record([5], []), 7 := Record([6], [])])
  }

  lemma WideLpas()
    ensures var v := WideEnv();
            && GetLpa(v, [1], 0) == 11 && GetLpa(v, [1], 1) == 2 && GetLpa(v, [3], 0) == 11 && GetLpa(v, [3], 1) == 2
            && GetLpa(v, [3], 2) == 6 && GetLpa(v, [2], 0) == 9 && GetLpa(v, [2], 1) == 11 && GetLpa(v, [2], 2) == 4
            && GetLpa(v, [4], 0) == 11 && GetLpa(v, [5], 0) == 9 && GetLpa(v, [6], 0) == 5
  {
  }

  /** A page that is not cached and has never been written, cached and dirty, and so on. */
  const FRESH := Cmt(false, false, false, false, [])
  const CLEAN := Cmt(true, true, false, false, [])
  const DIRTY := Cmt(true, false, true, false, [])
  const STORED := Cmt(false, true, false, false, [])
  const LISTED := Cmt(true, false, false, false, [])

  function OldTable(): Table {
    Table(map[11 := 5, 9 := 6, 5 := 7], 0, map[5 := 11, 6 := 9, 7 := 5], {5, 6, 7, 10, 20, 30}, [[]])
  }

  /** Keys [4], [5] and [6] are stored; page 2 is cached and on flash, page 1 cached and dirty, page 0 not yet used. */
  function Begin(): State {
    State(OldTable(), Cache([FRESH, DIRTY, CLEAN], [2, 1], false),
          Work([0, 0, 0], [NoJump, NoJump, NoJump], [0, 1, 2], [], Empty, map[], {}))
  }

  /** All three have found their first slot filled and are reading it. */
  function AllReading(): State {
    State(OldTable(), Cache([FRESH, DIRTY, CLEAN], [2, 1], false),
          Work([0, 0, 0], [NoJump, NoJump, NoJump], [], [], Empty,
               map[0 := DataRead(5), 1 := DataRead(6), 2 := DataRead(5)], {}))
  }

  /** Entries 0 and 1 have met other keys and go on to their next probe. */
  function NextProbes(): State {
    State(OldTable(), Cache([FRESH, DIRTY, CLEAN], [2, 1], false),
          Work([1, 1, 0], [NoJump, NoJump, NoJump], [0, 1], [], Empty, map[2 := DataRead(5)], {}))
  }

  /** Entry 0 has listed page 0 and waits for the write of page 1. */
  function FirstListed(): State {
    State(OldTable(), Cache([LISTED, STORED, CLEAN], [0, 2], false),
          Work([1, 1, 0], [GotoComplete, NoJump, NoJump], [1], [], Empty, map[0 := MapWrite, 2 := DataRead(5)], {}))
  }

  /** Entry 1 has met another key on page 2. */
  function SecondTouched(): State {
    State(OldTable(), Cache([LISTED, STORED, CLEAN], [2, 0], false),
          Work([1, 2, 0], [GotoComplete, NoJump, NoJump], [1], [], Empty, map[0 := MapWrite, 2 := DataRead(5)], {}))
  }

  /** Entry 1 has loaded page 1. */
  function SecondLoaded(): State {
    State(OldTable(), Cache([LISTED, STORED.(flying := true), CLEAN], [2, 0], false),
          Work([1, 2, 0], [GotoComplete, GotoList, NoJump], [], [1], Empty, map[0 := MapWrite, 2 := DataRead(5)], {}))
  }

  /** Entry 1 has listed page 1, which pushed out page 0, and is updated. */
  function SecondStored(): State {
    State(Table(map[11 := 5, 9 := 6, 5 := 7, 4 := 20], 2, map[5 := 11, 6 := 9, 7 := 5, 20 := 4],
                {5, 6, 7, 10, 20, 30}, [[4]]),
          Cache([FRESH, CLEAN.(dirty := true), CLEAN], [1, 2], false),
          Work([1, 2, 0], [GotoComplete, NoJump, NoJump], [], [], Empty, map[0 := MapWrite, 2 := DataRead(5)], {1}))
  }

  /** Entry 0 is updated: slot 2 of page 0, which is neither cached nor on flash. */
  function FirstLost(): State {
    State(Table(map[11 := 5, 9 := 6, 5 := 7, 4 := 20, 2 := 10], 2, map[5 := 11, 6 := 9, 7 := 5, 20 := 4, 10 := 2],
                {5, 6, 7, 10, 20, 30}, [[4, 2]]),
          Cache([FRESH, CLEAN.(dirty := true), CLEAN], [1, 2], true),
          Work([1, 2, 0], [NoJump, NoJump, NoJump], [], [], Empty, map[2 := DataRead(5)], {0, 1}))
  }

  /** Entry 2 has listed page 0 again and met the slot of entry 0. */
  function ThirdListed(): State {
    FirstLost().(c := Cache([LISTED, CLEAN.(dirty := true), STORED], [0, 1], true),
                 w := Work([1, 2, 2], [NoJump, NoJump, NoJump], [], [], Holding(2), map[], {0, 1}))
  }

  function End(): State {
    State(Table(map[11 := 5, 9 := 6, 5 := 7, 4 := 20, 2 := 10, 6 := 30], 2,
                map[5 := 11, 6 := 9, 7 := 5, 20 := 4, 10 := 2, 30 := 6], {5, 6, 7, 10, 20, 30}, [[4, 2, 6]]),
          Cache([LISTED, CLEAN.(dirty := true), STORED], [1, 0], true),
          Work([1, 2, 2], [NoJump, NoJump, NoJump], [], [], Empty, map[], {0, 1, 2}))
  }

  // ---------------------------------------------------------------- runs

  ghost predicate Steps(v: Env, s: State, r: State) {
    exists run :: IsRun(v, run) && run[0] == s && run[|run| - 1] == r
  }

  lemma StepsTrans(v: Env, a: State, b: State, c: State)
    requires Steps(v, a, b) && Steps(v, b, c)
    ensures Steps(v, a, c)
  {
    var p :| IsRun(v, p) && p[0] == a && p[|p| - 1] == b;
    var q :| IsRun(v, q) && q[0] == b && q[|q| - 1] == c;
    var run := p + q[1..];
    forall i | 0 <= i < |run| - 1 ensures Next(v, run[i], run[i + 1]) {
      if i >= |p| - 1 { assert run[i] == q[i - |p| + 1] && run[i + 1] == q[i - |p| + 2]; }
    }
    assert IsRun(v, run);
    assert run[|run| - 1] == c;
  }

  lemma OneStep(v: Env, s: State, r: State)
    requires Next(v, s, r)
    ensures Steps(v, s, r)
  {
    assert IsRun(v, [s, r]);
    assert [s, r][0] == s && [s, r][|[s, r]| - 1] == r;
  }

  /** The loop takes an entry and probes it. */
  lemma TakeProbe(v: Env, s: State, s1: State, r: State)
    requires Shape(v, s) && s.w.hand.Empty? && s1 == Take(s) && Shape(v, s1) && s1.w.hand.Holding? && r == Probe(v, s1)
    ensures Steps(v, s, r)
  {
    hide Probe, Shape;
    OneStep(v, s, s1);
    OneStep(v, s1, r);
    StepsTrans(v, s, s1, r);
  }

  /** The request of an entry completes. */
  lemma Completes(v: Env, s: State, e: nat, r: State)
    requires Shape(v, s) && e in s.w.out && r == s.(w := Complete(v, s.w, e))
    ensures Steps(v, s, r)
  {
    OneStep(v, s, r);
  }

  // ---------------------------------------------------------------- the steps

  /** An entry in hand hits page 2 and reads the grain its slot is mapped to. */
  lemma HitReads(s: State, e: nat, lpa: nat, g: nat)
    requires Shape(WideEnv(), s) && s.w.hand == Holding(e) && s.w.jump[e] == NoJump && SlotOf(WideEnv(), s.w, e) == lpa
    requires lpa / 4 == 2 && s.c.cmt[2].cached && lpa in s.t.slot && s.t.slot[lpa] == g && s.t.ht == [[]]
    ensures Probe(WideEnv(), s) ==
            State(s.t, s.c.(lru := ToFront(s.c.lru, 2)), s.w.(out := s.w.out[e := DataRead(g)], hand := Empty))
  {
    hide SlotOf, WideEnv, ToFront;
    WideIs();
    assert s.w.jump[e := NoJump] == s.w.jump;
    assert s.t.ht[g % 1] == [];
  }

  lemma WideIs()
    ensures var v := WideEnv();
            EnvOk(v) && v.pages == 3 && v.epp == 4 && v.maxCached == 2 && v.htMax == 1 && |v.buf| == 3
  {
  }

  /** Where the entries are after n probes. */
  lemma WideSlots(w: Work)
    requires |w.cnt| == 3
    ensures var v := WideEnv();
            && (w.cnt[0] == 0 ==> SlotOf(v, w, 0) == 11) && (w.cnt[0] == 1 ==> SlotOf(v, w, 0) == 2)
            && (w.cnt[1] == 0 ==> SlotOf(v, w, 1) == 9) && (w.cnt[1] == 1 ==> SlotOf(v, w, 1) == 11)
            && (w.cnt[1] == 2 ==> SlotOf(v, w, 1) == 4)
            && (w.cnt[2] == 0 ==> SlotOf(v, w, 2) == 11) && (w.cnt[2] == 1 ==> SlotOf(v, w, 2) == 2)
            && (w.cnt[2] == 2 ==> SlotOf(v, w, 2) == 6)
  {
    hide GetLpa;
    WideLpas();
  }

  /** An entry is taken, hits page 2 and reads its slot. */
  lemma TakeHit(s: State, e: nat, rest: seq<nat>, lpa: nat, g: nat)
    requires Shape(WideEnv(), s) && s.w.hand == Empty && s.w.retry == [] && s.w.master == [e] + rest && e < 3
    requires s.w.jump[e] == NoJump && SlotOf(WideEnv(), s.w, e) == lpa
    requires lpa / 4 == 2 && s.c.cmt[2].cached && lpa in s.t.slot && s.t.slot[lpa] == g && s.t.ht == [[]]
    ensures Steps(WideEnv(), s, State(s.t, s.c.(lru := ToFront(s.c.lru, 2)),
                                      s.w.(out := s.w.out[e := DataRead(g)], master := rest)))
  {
    hide SlotOf, WideEnv, ToFront, Probe, Steps;
    WideIs();
    var s1 := Take(s);
    assert s1.w == s.w.(hand := Holding(e), master := rest);
    assert SlotOf(WideEnv(), s1.w, e) == lpa by { SameSlot(s.w, s1.w, e); }
    HitReads(s1, e, lpa, g);
    TakeProbe(WideEnv(), s, s1, Probe(WideEnv(), s1));
  }

  lemma SameSlot(w: Work, w': Work, e: nat)
    requires e < 3 && |w.cnt| == |w'.cnt| == 3 && w'.cnt[e] == w.cnt[e]
    ensures SlotOf(WideEnv(), w', e) == SlotOf(WideEnv(), w, e)
  {
    hide GetLpa;
  }

  lemma Fronts()
    ensures ToFront([2, 1], 2) == [2, 1] && ToFront([0, 2], 2) == [2, 0] && ToFront([1, 2], 1) == [1, 2]
    ensures ToFront([0, 1], 1) == [1, 0] && ToFront([1, 0], 1) == [1, 0]
  {
  }

  /** The first n entries are reading their slots. */
  function SomeReading(n: nat): State
    requires n <= 3
  {
    AllReading().(w := Work([0, 0, 0], [NoJump, NoJump, NoJump], [0, 1, 2][n..], [], Empty,
                            if n == 0 then map[] else if n == 1 then map[0 := DataRead(5)]
                            else if n == 2 then map[0 := DataRead(5), 1 := DataRead(6)] else AllReading().w.out, {}))
  }

  lemma ReadNext(n: nat)
    requires n < 3
    ensures Steps(WideEnv(), SomeReading(n), SomeReading(n + 1))
  {
    hide SlotOf, WideEnv, Steps, ToFront;
    WideIs();
    Fronts();
    var s, r := SomeReading(n), SomeReading(n + 1);
    WideSlots(s.w);
    var lpa, g := if n == 1 then 9 else 11, if n == 1 then 6 else 5;
    assert s.w.master == [n] + r.w.master;
    TakeHit(s, n, r.w.master, lpa, g);
    assert s.w.out[n := DataRead(g)] == r.w.out;
  }

  lemma AllRead()
    ensures Steps(WideEnv(), Begin(), AllReading())
  {
    hide Steps, WideEnv;
    ReadNext(0);
    ReadNext(1);
    ReadNext(2);
    StepsTrans(WideEnv(), SomeReading(0), SomeReading(1), SomeReading(2));
    StepsTrans(WideEnv(), SomeReading(0), SomeReading(2), SomeReading(3));
    assert SomeReading(0) == Begin() && SomeReading(3) == AllReading();
  }

  /** A read of an old grain completes: another key is there. */
  lemma MeetsOther(s: State, e: nat, g: nat, r: State)
    requires Shape(WideEnv(), s) && e < 3 && e in s.w.out && s.w.out[e] == DataRead(g) && (g == 5 || g == 6)
    requires r == s.(w := s.w.(out := s.w.out - {e}, cnt := s.w.cnt[e := s.w.cnt[e] + 1], master := s.w.master + [e]))
    ensures Steps(WideEnv(), s, r)
  {
    hide Steps;
    Others(e, g);
    hide WideEnv;
    Completes(WideEnv(), s, e, r);
  }

  lemma Others(e: nat, g: nat)
    requires e < 3 && (g == 5 || g == 6)
    ensures var v := WideEnv(); |v.buf| == 3 && g in v.flash && v.flash[g].key != v.buf[e].rec.key
  {
    var v := WideEnv();
    assert v.flash[5].key == [4] && v.flash[6].key == [5];
    assert v.buf[0].rec.key == [1] && v.buf[1].rec.key == [2] && v.buf[2].rec.key == [3];
    assert forall x: Byte, y: Byte :: x != y ==> [x][0] != [y][0];
  }

  /** The read of entry 0 has completed. */
  function OneRead(): State {
    var s := AllReading();
    s.(w := s.w.(cnt := [1, 0, 0], master := [0], out := map[1 := DataRead(6), 2 := DataRead(5)]))
  }

  lemma FirstCompletes()
    ensures Steps(WideEnv(), AllReading(), OneRead())
  {
    hide Steps, WideEnv;
    WideIs();
    assert AllReading().w.out - {0} == OneRead().w.out;
    MeetsOther(AllReading(), 0, 5, OneRead());
  }

  lemma SecondCompletes()
    ensures Steps(WideEnv(), OneRead(), NextProbes())
  {
    hide Steps, WideEnv;
    WideIs();
    assert OneRead().w.out - {1} == NextProbes().w.out;
    MeetsOther(OneRead(), 1, 6, NextProbes());
  }

  /** Entry 0 lists page 0 and has page 1 written. */
  lemma FirstLists()
    ensures Steps(WideEnv(), NextProbes(), FirstListed())
  {
    hide SlotOf, WideEnv, Steps;
    WideIs();
    var v, s0 := WideEnv(), NextProbes();
    var s1 := s0.(w := s0.w.(hand := Holding(0), master := [1]));
    assert s1 == Take(s0);
    WideSlots(s1.w);
    assert Shape(v, s1);
    assert s1.w.jump[0 := NoJump] == s1.w.jump;
    assert ListedCache(v, s1.c, 0) == FirstListed().c;
    assert ListedWork(v, s1, 0, 0) == FirstListed().w;
    assert Probe(v, s1) == FirstListed();
    TakeProbe(v, s0, s1, FirstListed());
  }

  /** Entry 1 hits page 2 and meets another key. */
  lemma SecondTouches()
    ensures Steps(WideEnv(), FirstListed(), SecondTouched())
  {
    hide SlotOf, WideEnv, Steps, ToFront;
    WideIs();
    Fronts();
    var v, s0, s2 := WideEnv(), FirstListed(), SecondTouched();
    WideSlots(s0.w);
    var out := map[0 := MapWrite, 1 := DataRead(5), 2 := DataRead(5)];
    var s1 := s2.(w := s2.w.(cnt := [1, 1, 0], master := [], out := out));
    TakeHit(s0, 1, [], 11, 5);
    assert s0.w.out[1 := DataRead(5)] == out;
    assert out - {1} == s2.w.out;
    MeetsOther(s1, 1, 5, s2);
    StepsTrans(v, s0, s1, s2);
  }

  /** Entry 1 loads page 1. */
  lemma SecondLoads()
    ensures Steps(WideEnv(), SecondTouched(), SecondLoaded())
  {
    hide SlotOf, WideEnv, Steps;
    WideIs();
    var v, s0, s3 := WideEnv(), SecondTouched(), SecondLoaded();
    var s1 := s0.(w := s0.w.(hand := Holding(1), master := []));
    assert s1 == Take(s0);
    WideSlots(s1.w);
    assert s1.w.jump[1 := NoJump] == s1.w.jump;
    var s2 := s3.(w := s3.w.(retry := [], out := map[0 := MapWrite, 1 := MapRead, 2 := DataRead(5)]));
    assert Probe(v, s1) == s2;
    TakeProbe(v, s0, s1, s2);
    assert s2.w.out - {1} == s3.w.out;
    Completes(v, s2, 1, s3);
    StepsTrans(v, s0, s2, s3);
  }

  /** The table after an entry is stored, from the buffer alone. */
  lemma StoredIs(t: Table, e: nat, lpa: nat, cnt: nat, b: seq<nat>, r: Table)
    requires e < 3 && t.ht == [b] && r == Table(r.slot, r.maxTry, r.oob, t.valid, [b + [lpa]])
    requires var g := 10 * (e + 1); r.slot == t.slot[lpa := g] && r.oob == t.oob[g := lpa]
    requires r.maxTry == if cnt > t.maxTry then cnt else t.maxTry
    ensures EnvOk(WideEnv()) && TableShape(WideEnv(), t) && e < |WideEnv().buf|
    ensures StoredTable(WideEnv(), t, e, lpa, cnt) == r
  {
    var v := WideEnv();
    assert v.buf[0].pga == 10 && v.buf[1].pga == 20 && v.buf[2].pga == 30;
    assert v.buf[e].pga % 1 == 0;
  }

  lemma SecondTable()
    ensures EnvOk(WideEnv()) && TableShape(WideEnv(), OldTable()) && 1 < |WideEnv().buf|
    ensures StoredTable(WideEnv(), OldTable(), 1, 4, 2) == SecondStored().t
  {
    hide WideEnv, StoredTable;
    assert [] + [4] == [4];
    StoredIs(OldTable(), 1, 4, 2, [], SecondStored().t);
  }

  lemma FirstTable()
    ensures EnvOk(WideEnv()) && TableShape(WideEnv(), SecondStored().t) && 0 < |WideEnv().buf|
    ensures StoredTable(WideEnv(), SecondStored().t, 0, 2, 1) == FirstLost().t
  {
    hide WideEnv, StoredTable;
    assert [4] + [2] == [4, 2];
    StoredIs(SecondStored().t, 0, 2, 1, [4], FirstLost().t);
  }

  lemma ThirdTable()
    ensures EnvOk(WideEnv()) && TableShape(WideEnv(), FirstLost().t) && 2 < |WideEnv().buf|
    ensures StoredTable(WideEnv(), FirstLost().t, 2, 6, 2) == End().t
  {
    hide WideEnv, StoredTable;
    assert [4, 2] + [6] == [4, 2, 6];
    StoredIs(FirstLost().t, 2, 6, 2, [4, 2], End().t);
  }

  /** Entry 1 in hand, with its jump taken. */
  function SecondInHand(): State {
    var s := SecondLoaded();
    s.(w := s.w.(hand := Holding(1), retry := [], jump := [GotoComplete, NoJump, NoJump]))
  }

  lemma SecondLists()
    ensures var v, s := WideEnv(), SecondInHand();
            && Shape(v, s) && ListedCache(v, s.c, 1) == Cache([FRESH, CLEAN, CLEAN], [1, 2], false)
            && ListedWork(v, s, 1, 1) == s.w && !DirtyEvict(v, s.c)
  {
    hide WideEnv;
    WideIs();
  }

  /** Entry 1 lists page 1, in the place of page 0, and is updated. */
  lemma SecondStores()
    ensures Steps(WideEnv(), SecondLoaded(), SecondStored())
  {
    hide StoredTable, SlotOf, WideEnv, Steps, ToFront, ListedCache, ListedWork, DirtyEvict;
    WideIs();
    Fronts();
    SecondTable();
    SecondLists();
    var v, s0, r, s2 := WideEnv(), SecondLoaded(), SecondStored(), SecondInHand();
    var s1 := s0.(w := s0.w.(hand := Holding(1), retry := []));
    assert s1 == Take(s0);
    assert s1.w.jump[1 := NoJump] == s2.w.jump;
    WideSlots(s1.w);
    WideSlots(s2.w);
    var s3 := s2.(c := Cache([FRESH, CLEAN, CLEAN], [1, 2], false));
    assert Touch(s3.c, 1) == r.c;
    assert Store(v, s3, 1) == r;
    assert Probe(v, s1) == r;
    TakeProbe(v, s0, s1, r);
  }

  /** Page 1 is written. */
  function FirstWritten(): State {
    var s := SecondStored();
    s.(w := s.w.(retry := [0], out := map[2 := DataRead(5)]))
  }

  lemma FirstWrites()
    ensures Steps(WideEnv(), SecondStored(), FirstWritten())
  {
    hide WideEnv, Steps;
    WideIs();
    assert SecondStored().w.out - {0} == FirstWritten().w.out;
    Completes(WideEnv(), SecondStored(), 0, FirstWritten());
  }

  /** Entry 0 is updated. */
  lemma FirstStores()
    ensures Steps(WideEnv(), FirstWritten(), FirstLost())
  {
    hide StoredTable, SlotOf, WideEnv, Steps;
    WideIs();
    FirstTable();
    var v, s0, r := WideEnv(), FirstWritten(), FirstLost();
    var s1 := s0.(w := s0.w.(hand := Holding(0), retry := []));
    assert s1 == Take(s0);
    WideSlots(s1.w);
    var s2 := s1.(w := s1.w.(jump := [NoJump, NoJump, NoJump]));
    assert s1.w.jump[0 := NoJump] == s2.w.jump;
    WideSlots(s2.w);
    assert Store(v, s2, 0) == r;
    assert Probe(v, s1) == r;
    TakeProbe(v, s0, s1, r);
  }

  /** Entry 2 lists page 0 again and skips the slot of entry 0. */
  lemma ThirdLists()
    ensures Steps(WideEnv(), FirstLost(), ThirdListed())
  {
    hide SlotOf, WideEnv, Steps;
    WideIs();
    var v, s0, r := WideEnv(), FirstLost(), ThirdListed();
    var s1 := s0.(w := s0.w.(cnt := [1, 2, 1], master := [2], out := map[]));
    assert s0.w.out - {2} == s1.w.out;
    MeetsOther(s0, 2, 5, s1);
    var s2 := s1.(w := s1.w.(hand := Holding(2), master := []));
    assert s2 == Take(s1);
    WideSlots(s2.w);
    assert s2.w.jump[2 := NoJump] == s2.w.jump;
    assert ListedCache(v, s2.c, 0) == r.c;
    assert ListedWork(v, s2, 2, 0) == s2.w;
    assert HtFind(s2.t.ht, 10, 2) by { assert 10 % 1 == 0; }
    assert Probe(v, s2) == r;
    TakeProbe(v, s1, s2, r);
    StepsTrans(v, s0, s1, r);
  }

  /** Entry 2 hits page 1 and is updated. */
  lemma ThirdStores()
    ensures Steps(WideEnv(), ThirdListed(), End())
  {
    hide StoredTable, SlotOf, WideEnv, Steps, ToFront;
    WideIs();
    Fronts();
    ThirdTable();
    var v, s0, r := WideEnv(), ThirdListed(), End();
    WideSlots(s0.w);
    assert s0.w.jump[2 := NoJump] == s0.w.jump;
    var s1 := s0.(c := s0.c.(lru := [1, 0]));
    assert Touch(s1.c, 1) == r.c;
    assert Store(v, s1, 2) == r;
    assert Probe(v, s0) == r;
    OneStep(v, s0, r);
  }

  lemma WholeRun()
    ensures Steps(WideEnv(), Begin(), End())
  {
    hide *;
    var v := WideEnv();
    AllRead();
    FirstCompletes();
    SecondCompletes();
    FirstLists();
    SecondTouches();
    SecondLoads();
    SecondStores();
    FirstWrites();
    FirstStores();
    ThirdLists();
    ThirdStores();
    StepsTrans(v, Begin(), AllReading(), OneRead());
    StepsTrans(v, Begin(), OneRead(), NextProbes());
    StepsTrans(v, Begin(), NextProbes(), FirstListed());
    StepsTrans(v, Begin(), FirstListed(), SecondTouched());
    StepsTrans(v, Begin(), SecondTouched(), SecondLoaded());
    StepsTrans(v, Begin(), SecondLoaded(), SecondStored());
    StepsTrans(v, Begin(), SecondStored(), FirstWritten());
    StepsTrans(v, Begin(), FirstWritten(), FirstLost());
    StepsTrans(v, Begin(), FirstLost(), ThirdListed());
    StepsTrans(v, Begin(), ThirdListed(), End());
  }

  // ---------------------------------------------------------------- what the run shows

  lemma Starts()
    ensures Start(WideEnv(), Begin())
  {
    assert Begin().w.master == seq(3, i => i);
  }

  lemma ValidIsRight(g: nat)
    ensures g in Begin().t.valid <==>
            Mapped(Begin().t, g) || exists e :: 0 <= e < |WideEnv().buf| && WideEnv().buf[e].pga == g
  {
    var v, t := WideEnv(), Begin().t;
    assert v.buf[0].pga == 10 && v.buf[1].pga == 20 && v.buf[2].pga == 30;
    assert t.slot[11] == 5 && t.slot[9] == 6 && t.slot[5] == 7;
  }

  lemma BufferIsOk()
    ensures BufferOk(WideEnv(), Begin().t)
  {
    hide Mapped;
    var v := WideEnv();
    assert v.buf[0].pga == 10 && v.buf[1].pga == 20 && v.buf[2].pga == 30;
    assert v.buf[0].rec.key == [1] && v.buf[1].rec.key == [2] && v.buf[2].rec.key == [3];
    forall g ensures g in Begin().t.valid <==>
      Mapped(Begin().t, g) || exists e :: 0 <= e < |v.buf| && v.buf[e].pga == g { ValidIsRight(g); }
  }

  lemma StartsSettled()
    ensures Settled(WideEnv(), Begin().t.slot, WideEnv().flash, 0)
  {
    var v, t := WideEnv(), Begin().t;
    WideLpas();
    hide GetLpa;
    assert Home(v, t.slot, v.flash, 0, 11, 0) && Home(v, t.slot, v.flash, 0, 9, 0) && Home(v, t.slot, v.flash, 0, 5, 0);
  }

  lemma StartsCovered()
    ensures var v, s := WideEnv(), Begin(); EnvOk(v) && |s.c.cmt| == v.pages && Covered(v, s.t.slot, s.c) && OobOk(s.t)
  {
    hide WideEnv;
    WideIs();
    assert Begin().t.slot[11] == 5 && Begin().t.slot[9] == 6 && Begin().t.slot[5] == 7;
  }

  lemma StartsQuiet()
    ensures Quiet(WideEnv(), Begin().t, Begin().c, WideEnv().flash)
  {
    StartsSettled();
    StartsCovered();
    hide Settled, WideEnv, Covered, OobOk;
    WideIs();
  }

  /** The read fails although the record is stored and every page on its way can be reached when it starts. */
  ghost predicate ReadFails(v: Env, s: State, flash: Records, rec: Record) {
    && Idle(v, s.c) && CacheShape(v, s.c) && Has(s.t.slot, flash, rec)
    && Reachable(s.c.cmt[ProbePage(v, rec.key, 0)]) && Reachable(s.c.cmt[ProbePage(v, rec.key, 1)])
    && ReadFrom(v, s.t.slot, flash, s.t.maxTry, s.c, rec.key, 0).0 == NotFound
  }

  lemma EndIsIdle()
    ensures Idle(WideEnv(), End().c) && CacheShape(WideEnv(), End().c)
  {
    hide WideEnv;
    WideIs();
  }

  lemma EndFlash()
    ensures Has(End().t.slot, Flushed(WideEnv()), Record([1], []))
    ensures 5 in Flushed(WideEnv()) && Flushed(WideEnv())[5].key != [1]
  {
    var v := WideEnv();
    FlushedAt(v, 3);
    Others(0, 5);
    assert v.buf[0].pga == 10 && v.buf[1].pga == 20 && v.buf[2].pga == 30;
    assert End().t.slot[2] == v.buf[0].pga;
  }

  lemma EndReadFails()
    ensures ReadFails(WideEnv(), End(), Flushed(WideEnv()), Record([1], []))
  {
    hide Flushed, GetLpa, WideEnv, Has, Idle, CacheShape;
    WideIs();
    WideLpas();
    EndIsIdle();
    EndFlash();
    var v, c, t := WideEnv(), End().c, End().t;
    assert ProbePage(v, [1], 0) == 2 && ProbePage(v, [1], 1) == 0;
    var d := Cache([FRESH, CLEAN.(dirty := true), CLEAN], [2, 1], true);
    assert ReadCache(v, c, 2) == d;
    ReadUnfolds(v, t.slot, Flushed(v), t.maxTry, c, [1], 0);
    ReadUnfolds(v, t.slot, Flushed(v), t.maxTry, d, [1], 1);
  }

  /** A flush from a sound state can finish so that a key it stored is reported as not found, although every page the
      read probes can be reached when it starts: page 0 was evicted clean between being listed and being updated, and is
      pushed out again by the read itself. */
  lemma AnUpdateCanBeLost()
    ensures Start(WideEnv(), Begin()) && BufferOk(WideEnv(), Begin().t)
    ensures Quiet(WideEnv(), Begin().t, Begin().c, WideEnv().flash)
    ensures Steps(WideEnv(), Begin(), End()) && |End().w.done| == |WideEnv().buf|
    ensures ReadFails(WideEnv(), End(), Flushed(WideEnv()), Record([1], []))
  {
    hide Start, BufferOk, Quiet, Steps, ReadFails, Flushed;
    Starts();
    BufferIsOk();
    StartsQuiet();
    WholeRun();
    EndReadFails();
  }
}

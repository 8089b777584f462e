/**
 The hash KV FTL over its whole life: any sequence of whole flushes and of runs of interleaved trace, all under any
 schedule of completions, is a map from keys to values.
 */
module FlushHistory {
  import opened KeyOrder
  import opened FlushSpec
  import opened FlushProbing
  import opened FlushResults
  import opened FlushNoLoss
  import opened FlushRead
  import opened FlushReads

  /** The FTL between two operations. */
  datatype Ftl = Ftl(t: Table, c: Cache, flash: Records)

  /** A whole flush, with its write buffer in v and its run, or a run of interleaved reads of keys that are not in the
      write buffer, until all of them are answered. */
  datatype Op = Flush(v: Env, run: seq<State>) | Serve(trace: seq<Reads>)

  /** The same device and hash function; only the write buffer and what the device holds differ. */
  ghost predicate SameDevice(v: Env, v': Env) {
    v'.pages == v.pages && v'.epp == v.epp && v'.maxCached == v.maxCached && v'.hash == v.hash
  }

  ghost predicate Sound(v: Env, f: Ftl) { Quiet(v, f.t, f.c, f.flash) }

  /** One operation, on the table and the cache it finds. */
  ghost predicate Does(v: Env, f: Ftl, op: Op, f': Ftl) {
    match op
    case Flush(b, run) =>
      && SameDevice(v, b) && b.flash == f.flash && IsFlush(b, run)
      && run[0].c == f.c && run[0].t == f.t.(valid := run[0].t.valid, ht := run[0].t.ht)
      && f' == Ftl(run[|run| - 1].t, run[|run| - 1].c, Flushed(b))
    case Serve(trace) =>
      && IsReads(v, f.t, f.flash, trace) && trace[0] == Reads(f.c, []) && AllAnswered(trace[|trace| - 1])
      && f' == f.(c := trace[|trace| - 1].c)
  }

  /** The map the FTL stands for. */
  ghost predicate Represents(f: Ftl, m: map<Key, Value>) {
    forall r :: Has(f.t.slot, f.flash, r) <==> r.key in m && m[r.key] == r.val
  }

  /** The map after the first n records of a write buffer. */
  ghost function Updated(m: map<Key, Value>, buf: seq<Entry>, n: nat): map<Key, Value>
    requires n <= |buf|
  {
    if n == 0 then m else Updated(m, buf, n - 1)[buf[n - 1].rec.key := buf[n - 1].rec.val]
  }

  /** The flush loses no update. */
  ghost predicate Keeps(op: Op) { op.Flush? ==> |op.run| > 0 && !op.run[|op.run| - 1].c.lost }

  ghost function After(m: map<Key, Value>, op: Op): map<Key, Value> {
    match op case Flush(b, _) => Updated(m, b.buf, |b.buf|) case Serve(_) => m
  }

  lemma {:induction false} UpdatedIs(m: map<Key, Value>, buf: seq<Entry>, n: nat, r: Record)
    requires n <= |buf| && forall e, g :: 0 <= e < g < |buf| ==> buf[e].rec.key != buf[g].rec.key
    ensures (r.key in Updated(m, buf, n) && Updated(m, buf, n)[r.key] == r.val) <==>
            if exists e :: 0 <= e < n && buf[e].rec.key == r.key
            then exists e :: 0 <= e < n && buf[e].rec == r
            else r.key in m && m[r.key] == r.val
  {
    if n > 0 {
      UpdatedIs(m, buf, n - 1, r);
      var x := buf[n - 1].rec;
      if x.key == r.key {
        assert buf[n - 1].rec.key == r.key;
        forall e | 0 <= e < n && buf[e].rec == r ensures e == n - 1 { }
      }
    }
  }

  lemma SameQuiet(v: Env, v': Env, t: Table, t': Table, c: Cache, flash: Records)
    requires SameDevice(v, v') && EnvOk(v') && t' == t.(valid := t'.valid, ht := t'.ht) && Quiet(v, t, c, flash)
    ensures Quiet(v', t', c, flash)
  {
    hide Passed;
    forall l | l in t.slot ensures exists n :: Home(v', t.slot, flash, t.maxTry, l, n) {
      var n: nat :| Home(v, t.slot, flash, t.maxTry, l, n);
      SameHome(v, v', t, flash, l, n);
    }
  }

  lemma SameHome(v: Env, v': Env, t: Table, flash: Records, l: nat, n: nat)
    requires SameDevice(v, v') && EnvOk(v') && EnvOk(v) && Home(v, t.slot, flash, t.maxTry, l, n)
    ensures Home(v', t.slot, flash, t.maxTry, l, n)
  {
    var k := flash[t.slot[l]].key;
    assert forall d: nat :: GetLpa(v', k, d) == GetLpa(v, k, d);
    hide GetLpa;
    forall d: nat | d < n ensures Taken(v', t.slot, flash, k, d) { assert Taken(v, t.slot, flash, k, d); }
  }

  /** A whole flush that loses no update is the update of the map by the write buffer. */
  lemma FlushIsUpdate(v: Env, f: Ftl, op: Op, f': Ftl, m: map<Key, Value>)
    requires op.Flush? && Sound(v, f) && Represents(f, m) && Does(v, f, op, f') && Keeps(op)
    ensures Sound(v, f') && Represents(f', After(m, op))
  {
    hide Quiet, Has, IsRun, Start, Flushed, BufferOk, Updated;
    var b, run := op.v, op.run;
    StartEnv(b, run);
    var s := run[|run| - 1];
    SameQuiet(v, b, f.t, run[0].t, f.c, f.flash);
    FlushKeepsQuiet(b, run);
    SoundEnv(v, f);
    SameQuiet(b, v, s.t, s.t, s.c, Flushed(b));
    BufferKeys(b, run[0].t);
    forall r ensures Has(f'.t.slot, f'.flash, r) <==> r.key in After(m, op) && After(m, op)[r.key] == r.val {
      FlushResult(b, run[0].t.slot, Flushed(b), s, r);
      UpdatedIs(m, b.buf, |b.buf|, r);
    }
  }

  /** If the FTL is safe no flush loses an update, and it stays safe. */
  lemma SafeKeeps(v: Env, f: Ftl, op: Op, f': Ftl)
    requires Sound(v, f) && Safe(v, f.c) && Does(v, f, op, f')
    ensures Keeps(op) && Safe(v, f'.c)
  {
    hide Quiet, IsRun, Start, Flushed, BufferOk, AllOnFlash;
    match op {
      case Flush(b, run) =>
        StartEnv(b, run);
        SameQuiet(v, b, f.t, run[0].t, f.c, f.flash);
        SafeFlushLosesNothing(b, run);
      case Serve(trace) =>
        if AllOnFlash(f.c) { RunKeepsFlash(v, f.t, f.flash, trace, |trace| - 1); }
    }
  }

  lemma StartEnv(b: Env, run: seq<State>)
    requires IsFlush(b, run)
    ensures EnvOk(b) && |run| > 0
  {
  }

  lemma SoundEnv(v: Env, f: Ftl)
    requires Sound(v, f)
    ensures EnvOk(v)
  {
  }

  lemma BufferKeys(b: Env, t: Table)
    requires BufferOk(b, t)
    ensures forall e, g :: 0 <= e < g < |b.buf| ==> b.buf[e].rec.key != b.buf[g].rec.key
  {
  }

  function Lookup(m: map<Key, Value>, k: Key): ReadResult { if k in m then Found(m[k]) else NotFound }

  /** Every answered read of a run of reads is a lookup in the map, at whatever point of the run. */
  ghost predicate LooksUp(trace: seq<Reads>, m: map<Key, Value>) {
    forall j, i :: 0 <= j < |trace| && 0 <= i < |trace[j].gets| && trace[j].gets[i].st.Answered? ==>
      trace[j].gets[i].st.r == Lookup(m, trace[j].gets[i].key)
  }

  lemma ExactIsLookup(f: Ftl, k: Key, r: ReadResult, m: map<Key, Value>)
    requires Represents(f, m) && Exact(f.t.slot, f.flash, k, r)
    ensures r == Lookup(m, k)
  {
    hide Has;
    if k in m { assert Has(f.t.slot, f.flash, Record(k, m[k])); }
    if r.Found? { assert Has(f.t.slot, f.flash, Record(k, r.val)); }
  }

  /** A run of reads looks keys up, and leaves the FTL sound and the map as it is. */
  lemma ReadsAreLookups(v: Env, f: Ftl, op: Op, f': Ftl, m: map<Key, Value>)
    requires op.Serve? && Sound(v, f) && Represents(f, m) && Does(v, f, op, f')
    ensures Sound(v, f') && Represents(f', m) && LooksUp(op.trace, m)
  {
    hide Has, Exact, ReadsOk, Turn, Represents, Settled;
    var trace := op.trace;
    forall j, i | 0 <= j < |trace| && 0 <= i < |trace[j].gets| && trace[j].gets[i].st.Answered?
      ensures trace[j].gets[i].st.r == Lookup(m, trace[j].gets[i].key)
    {
      ReadsAreExact(v, f.t, f.c, f.flash, trace, j, i);
      ExactIsLookup(f, trace[j].gets[i].key, trace[j].gets[i].st.r, m);
    }
    StartReads(v, f.t, f.c, f.flash);
    RunKeepsReads(v, f.t, f.flash, trace, |trace| - 1);
    AnsweredIsQuiet(v, f.t, f.flash, trace[|trace| - 1]);
    SameRecords(f, f', m);
  }

  lemma SameRecords(f: Ftl, f': Ftl, m: map<Key, Value>)
    requires Represents(f, m) && f'.t == f.t && f'.flash == f.flash
    ensures Represents(f', m)
  {
    hide Has;
  }

  /** A new FTL: nothing mapped, nothing cached, nothing on flash. */
  ghost function Fresh(v: Env): Ftl {
    Ftl(Table(map[], 0, map[], {}, seq(v.htMax, i => [])),
        Cache(seq(v.pages, i => Cmt(false, false, false, false, [])), [], false), map[])
  }

  lemma FreshIsEmpty(v: Env)
    requires EnvOk(v)
    ensures Sound(v, Fresh(v)) && Represents(Fresh(v), map[])
  {
    hide GetLpa;
  }

  // ---------------------------------------------------------------- histories

  ghost predicate IsHistory(v: Env, fs: seq<Ftl>, ops: seq<Op>) {
    |fs| == |ops| + 1 && forall i :: 0 <= i < |ops| ==> Does(v, fs[i], ops[i], fs[i + 1])
  }

  /** The map after the first n operations. */
  ghost function MapAt(m: map<Key, Value>, ops: seq<Op>, n: nat): map<Key, Value>
    requires n <= |ops|
  {
    if n == 0 then m else After(MapAt(m, ops, n - 1), ops[n - 1])
  }

  /** Over a history in which no flush loses an update the FTL is the map. */
  lemma {:induction false} HistoryIsAMap(v: Env, fs: seq<Ftl>, ops: seq<Op>, m: map<Key, Value>, n: nat)
    requires IsHistory(v, fs, ops) && n <= |ops| && Sound(v, fs[0]) && Represents(fs[0], m)
    requires forall i :: 0 <= i < n ==> Keeps(ops[i])
    ensures Sound(v, fs[n]) && Represents(fs[n], MapAt(m, ops, n))
    ensures n < |ops| && ops[n].Serve? ==> LooksUp(ops[n].trace, MapAt(m, ops, n))
    decreases n
  {
    hide Does, Represents, After, Sound, LooksUp, Keeps;
    if n > 0 {
      HistoryIsAMap(v, fs, ops, m, n - 1);
      assert Does(v, fs[n - 1], ops[n - 1], fs[n - 1 + 1]);
      DoesKeep(v, fs[n - 1], ops[n - 1], fs[n], MapAt(m, ops, n - 1));
    }
    if n < |ops| && ops[n].Serve? {
      assert Does(v, fs[n], ops[n], fs[n + 1]);
      ReadsAreLookups(v, fs[n], ops[n], fs[n + 1], MapAt(m, ops, n));
    }
  }

  /** With room for all translation pages, or all of them on flash at the start, no flush of any history loses an
      update. */
  lemma {:induction false} SafeHistoryKeeps(v: Env, fs: seq<Ftl>, ops: seq<Op>, m: map<Key, Value>, n: nat)
    requires IsHistory(v, fs, ops) && n <= |ops| && Sound(v, fs[0]) && Represents(fs[0], m) && Safe(v, fs[0].c)
    ensures Safe(v, fs[n].c) && forall i :: 0 <= i < n ==> Keeps(ops[i])
    decreases n
  {
    hide Does, Represents, Sound, Keeps, Safe;
    if n > 0 {
      SafeHistoryKeeps(v, fs, ops, m, n - 1);
      HistoryIsAMap(v, fs, ops, m, n - 1);
      assert Does(v, fs[n - 1], ops[n - 1], fs[n - 1 + 1]);
      SafeKeeps(v, fs[n - 1], ops[n - 1], fs[n]);
    }
  }

  lemma DoesKeep(v: Env, f: Ftl, op: Op, f': Ftl, m: map<Key, Value>)
    requires Sound(v, f) && Represents(f, m) && Does(v, f, op, f') && Keeps(op)
    ensures Sound(v, f') && Represents(f', After(m, op))
  {
    hide Sound, Represents, Does, LooksUp;
    match op {
      case Flush(_, _) => FlushIsUpdate(v, f, op, f', m);
      case Serve(_) => ReadsAreLookups(v, f, op, f', m);
    }
  }

  /** Over every history that starts safely, or in which no flush loses an update, the FTL is the map: flushes update it
      and every read looks its key up in it. */
  lemma EveryHistoryIsAMap(v: Env, fs: seq<Ftl>, ops: seq<Op>, m: map<Key, Value>, n: nat)
    requires IsHistory(v, fs, ops) && n <= |ops| && Sound(v, fs[0]) && Represents(fs[0], m)
    requires Safe(v, fs[0].c) || forall i :: 0 <= i < n ==> Keeps(ops[i])
    ensures Sound(v, fs[n]) && Represents(fs[n], MapAt(m, ops, n))
    ensures n < |ops| && ops[n].Serve? ==> LooksUp(ops[n].trace, MapAt(m, ops, n))
  {
    hide Does, Represents, Sound, LooksUp, Keeps, Safe, MapAt;
    if Safe(v, fs[0].c) { SafeHistoryKeeps(v, fs, ops, m, n); }
    HistoryIsAMap(v, fs, ops, m, n);
  }
}

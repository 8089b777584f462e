/**
 The flush as it runs: the loop body of _do_wb_mapping_update and demand_end_req on the FTL's own
 fields, proved against the steps of FlushSpec, and whole runs for any schedule of completions.
 */
module FlushEngine {
  import opened Sequences
  import opened KeyOrder
  import opened FlushSpec
  import opened FlushPlaces
  import opened FlushControl
  import opened FlushProbing
  import opened FlushTheorems
  import opened FlushResults
  import opened FlushNoLoss
  import opened FlushRead

  /** The filter for slots written in this flush: buckets of slots, by grain address. */
  class DHtable {
    var bucket: seq<seq<nat>>

    constructor (max: nat)
      requires max >= 1
      ensures |bucket| == max && forall b :: 0 <= b < max ==> bucket[b] == []
    {
      bucket := seq(max, i => []);
    }

    method Insert(ppa: nat, lpa: nat)
      requires |bucket| >= 1
      modifies this
      ensures bucket == HtInsert(old(bucket), ppa, lpa)
    {
      var b := ppa % |bucket|;
      var i := 0;
      while i < |bucket[b]|
        invariant 0 <= i <= |bucket[b]| && bucket == old(bucket)
      {
        i := i + 1;
      }
      assert bucket[b][..i] == bucket[b];
      bucket := bucket[b := bucket[b][..i] + [lpa]];
    }

    method Find(ppa: nat, lpa: nat) returns (found: bool)
      requires |bucket| >= 1
      ensures found <==> HtFind(bucket, ppa, lpa)
    {
      var b := ppa % |bucket|;
      var i := 0;
      while i < |bucket[b]|
        invariant 0 <= i <= |bucket[b]|
        invariant lpa !in bucket[b][..i]
      {
        if bucket[b][i] == lpa { return true; }
        i := i + 1;
      }
      return false;
    }
  }

  /** What happens next in a run: the loop makes a pass, or the request of an entry completes. */
  datatype Event = Loop | Completion(e: nat)

  class Flush {
    const v: Env
    var slot: map<nat, nat>
    var maxTry: nat
    var oob: map<nat, nat>
    var valid: set<nat>
    const table: DHtable
    var cmt: seq<Cmt>
    var lru: seq<nat>
    var cnt: seq<nat>
    var jump: seq<Jump>
    var master: seq<nat>
    var retry: seq<nat>
    var hand: Hand
    var out: map<nat, Req>
    var updated: nat
    ghost var done: set<nat>
    ghost var lost: bool

    ghost function View(): State
      reads this, table
    {
      State(Table(slot, maxTry, oob, valid, table.bucket), Cache(cmt, lru, lost),
            Work(cnt, jump, master, retry, hand, out, done))
    }

    ghost predicate Valid(t0: Slots, store: Records)
      reads this, table
    {
      Inv(v, t0, store, View()) && updated == |done|
    }

    /** The top of the mapping update: all entries are pushed to the master queue. */
    constructor (v: Env, t: Table, c: Cache, ht: DHtable)
      requires EnvOk(v) && Quiet(v, t, c, v.flash) && BufferOk(v, t) && CacheShape(v, c)
      requires t.ht == ht.bucket && |ht.bucket| == v.htMax && forall b :: 0 <= b < |t.ht| ==> t.ht[b] == []
      ensures this.v == v && table == ht && Start(v, View()) && Valid(t.slot, Flushed(v))
      ensures View().t == t && View().c == c && (Safe(v, c) ==> NothingLost(v, View()))
    {
      this.v, table := v, ht;
      slot, maxTry, oob, valid := t.slot, t.maxTry, t.oob, t.valid;
      cmt, lru, lost := c.cmt, c.lru, c.lost;
      cnt := seq(|v.buf|, i => 0);
      jump := seq(|v.buf|, i => NoJump);
      retry, hand, out, updated, done := [], Empty, map[], 0, {};
      var q: seq<nat> := [];
      var i := 0;
      while i < |v.buf|
        invariant 0 <= i <= |v.buf| && q == seq(i, j => j)
      {
        q := q + [i];
        i := i + 1;
      }
      master := q;
      new;
      assert View().t == t && View().c == c;
      hide Quiet, BufferOk, Inv;
      StartInv(v, View());
    }

    /** cg_update on the cache: a cached page becomes dirty and most recently used.  The page is then on flash or
        dirty, or the update is lost, and no page that was on flash or dirty stops being so. */
    method TouchPage(p: nat)
      requires p < |cmt|
      modifies this`cmt, this`lru, this`lost
      ensures Cache(cmt, lru, lost) == Touch(old(Cache(cmt, lru, lost)), p)
      ensures old(LruOk(View().c)) ==> LruOk(View().c) && (lost <==> old(lost) || !OnFlashOrDirty(cmt[p]))
      ensures forall q :: 0 <= q < |cmt| && OnFlashOrDirty(old(cmt)[q]) ==> OnFlashOrDirty(cmt[q])
    {
      if old(LruOk(View().c)) { TouchOk(View().c, p); }
      hide Without;
      if cmt[p].cached {
        cmt := cmt[p := cmt[p].(dirty := true)];
        lru := ToFront(lru, p);
      } else {
        lost := lost || !cmt[p].hasTppa;
      }
    }

    /** The mapping entry, d_htable_insert, max_try and set_oob.  The filter now reports the slot, max_try bounds the
        probe, and for a grain no other slot maps to the spare areas still point back at the slots. */
    method MapSlot(e: nat, lpa: nat)
      requires EnvOk(v) && TableShape(v, View().t) && e < |v.buf| && e < |cnt|
      modifies this`slot, this`maxTry, this`oob, table
      ensures View().t == StoredTable(v, old(View().t), e, lpa, cnt[e])
      ensures HtFind(table.bucket, v.buf[e].pga, lpa) && cnt[e] <= maxTry && old(maxTry) <= maxTry
      ensures old(OobOk(View().t)) && (forall l :: l in old(slot) ==> old(slot)[l] != v.buf[e].pga) ==> OobOk(View().t)
    {
      var pga := v.buf[e].pga;
      slot := slot[lpa := pga];
      table.Insert(pga, lpa);
      if cnt[e] > maxTry { maxTry := cnt[e]; }
      oob := oob[pga := lpa];
    }

    /** wb_direct_update for the entry in hand. */
    method DirectUpdate(e: nat)
      requires Ready(v, View(), e) && e !in done && updated == |done|
      modifies this, table
      ensures View() == Store(v, old(View()), e) && updated == |done|
    {
      hide Touch, StoredTable, GetLpa, Idx;
      var lpa := GetLpa(v, v.buf[e].rec.key, cnt[e]);
      MapSlot(e, lpa);
      TouchPage(Idx(v, lpa));
      updated := updated + 1;
      done := done + {e};
      hand := Empty;
    }

    /** wb_data_check. */
    method Check(e: nat)
      requires Ready(v, View(), e) && e !in done && updated == |done|
      modifies this, table
      ensures View() == DataCheck(v, old(View()), e) && updated == |done|
    {
      var lpa := GetLpa(v, v.buf[e].rec.key, cnt[e]);
      if lpa !in slot {
        DirectUpdate(e);
        return;
      }
      var written := table.Find(slot[lpa], lpa);
      if written {
        cnt := cnt[e := cnt[e] + 1];
      } else {
        out := out[e := DataRead(slot[lpa])];
        assert jump[e := jump[e]] == jump;
        hand := Empty;
      }
    }

    /** wb_update: the older copy of the key is invalidated, then the entry is stored. */
    method Overwrite(e: nat)
      requires Ready(v, View(), e) && e !in done && updated == |done|
      modifies this, table
      ensures View() == Update(v, old(View()), e) && updated == |done|
    {
      var lpa := GetLpa(v, v.buf[e].rec.key, cnt[e]);
      if lpa in slot { valid := valid - {slot[lpa]}; }
      DirectUpdate(e);
    }

    /** The victim part of cg_list_up, when the cache is full. */
    method EvictVictim(e: nat) returns (rc: bool)
      requires EnvOk(v) && CacheShape(v, View().c) && |lru| > 0 && e < |jump|
      modifies this`cmt, this`lru, this`jump, this`out, this`hand
      ensures View().c == Evict(old(View().c))
      ensures rc == old(cmt[lru[|lru| - 1]].dirty)
      ensures View().w == if rc then Issue(old(View().w), e, MapWrite, GotoComplete) else old(View().w)
    {
      var victim := lru[|lru| - 1];
      rc := cmt[victim].dirty;
      lru := lru[..|lru| - 1];
      if rc {
        jump := jump[e := GotoComplete];
        out := out[e := MapWrite];
        cmt := cmt[victim := cmt[victim].(cached := false, hasTppa := true, dirty := false)];
        hand := Empty;
      } else {
        cmt := cmt[victim := cmt[victim].(cached := false)];
      }
    }

    /** The rest of cg_list_up. */
    method AdmitPage(p: nat)
      requires p < |cmt| && All(cmt[p].retryQ, |jump|)
      modifies this`cmt, this`lru, this`jump, this`retry
      ensures View().c == Admit(old(View().c), p)
      ensures View().w == if old(cmt[p].flying) then Release(old(View().w), old(cmt[p].retryQ)) else old(View().w)
    {
      cmt := cmt[p := cmt[p].(cached := true)];
      lru := [p] + lru;
      if cmt[p].flying {
        cmt := cmt[p := cmt[p].(flying := false)];
        Drain(p);
      }
    }

    /** cg_list_up; rc says that a dirty victim is being written on behalf of the entry. */
    method ListPage(e: nat) returns (rc: bool)
      requires Shape(v, View()) && hand == Holding(e)
      modifies this`cmt, this`lru, this`jump, this`out, this`hand, this`retry
      ensures rc == old(DirtyEvict(v, View().c))
      ensures View() == State(old(View()).t, ListedCache(v, old(View()).c, PageOf(v, old(View()).w, e)),
                              ListedWork(v, old(View()), e, PageOf(v, old(View()).w, e)))
    {
      var p := Idx(v, GetLpa(v, v.buf[e].rec.key, cnt[e]));
      rc := false;
      ghost var q := cmt[p].retryQ;
      if |lru| >= v.maxCached { rc := EvictVictim(e); }
      assert cmt[p].retryQ == q && cmt[p].flying == old(cmt)[p].flying;
      hide Admit, Release, GetLpa;
      AdmitPage(p);
    }

    /** The entries parked at a page are given a jump and moved to the retry queue, one by one. */
    method Drain(p: nat)
      requires p < |cmt| && All(cmt[p].retryQ, |jump|)
      modifies this`cmt, this`jump, this`retry
      ensures jump == SetJumps(old(jump), old(cmt[p].retryQ), GotoComplete)
      ensures retry == old(retry) + old(cmt[p].retryQ)
      ensures cmt == old(cmt)[p := old(cmt[p]).(retryQ := [])]
    {
      ghost var q := cmt[p].retryQ;
      ghost var i := 0;
      while cmt[p].retryQ != []
        invariant 0 <= i <= |q| && |cmt| == |old(cmt)| && cmt == old(cmt)[p := old(cmt[p]).(retryQ := q[i..])]
        invariant retry == old(retry) + q[..i]
        invariant |jump| == |old(jump)| && SetJumps(jump, q[i..], GotoComplete) == SetJumps(old(jump), q, GotoComplete)
        decreases |q| - i
      {
        var e := cmt[p].retryQ[0];
        cmt := cmt[p := cmt[p].(retryQ := cmt[p].retryQ[1..])];
        jump := jump[e := GotoComplete];
        retry := retry + [e];
        i := i + 1;
        assert q[i..] == q[i - 1..][1..];
        assert q[..i] == q[..i - 1] + [e];
      }
      assert q[..i] == q;
    }

    /** wb_cache_load: wait for a page in flight, load a page on flash, or list a page that was never written. */
    method LoadPage(e: nat)
      requires Shape(v, View()) && hand == Holding(e) && e !in done && updated == |done|
      modifies this, table
      ensures View() == Miss(v, old(View()), e) && updated == |done|
    {
      var p := Idx(v, GetLpa(v, v.buf[e].rec.key, cnt[e]));
      if cmt[p].flying {
        cmt := cmt[p := cmt[p].(retryQ := cmt[p].retryQ + [e])];
        hand := Empty;
      } else if cmt[p].hasTppa {
        jump := jump[e := GotoList];
        out := out[e := MapRead];
        cmt := cmt[p := cmt[p].(flying := true)];
        hand := Empty;
      } else {
        ListAndCheck(e);
      }
    }

    method ListAndCheck(e: nat)
      requires Shape(v, View()) && hand == Holding(e) && e !in done && updated == |done|
      modifies this, table
      ensures View() == ListUp(v, old(View()), e) && updated == |done|
    {
      hide DataCheck;
      var rc := ListPage(e);
      if !rc { Check(e); }
    }

    /** One pass of the loop body, up to its next `continue` or retry. */
    method Pass()
      requires Shape(v, View()) && Placed(v, View()) && updated == |done|
      modifies this, table
      ensures View() == (if old(hand).Empty? then Take(old(View())) else Probe(v, old(View()))) && updated == |done|
    {
      if hand.Empty? {
        if retry != [] {
          hand, retry := Holding(retry[0]), retry[1..];
        } else if master != [] {
          hand, master := Holding(master[0]), master[1..];
        }
        return;
      }
      var e := hand.e;
      HandAlone(v, View(), e);
      var p := Idx(v, GetLpa(v, v.buf[e].rec.key, cnt[e]));
      var j := jump[e];
      jump := jump[e := NoJump];
      hide Placed, DataCheck, Update, ListUp, Miss;
      match j
      case GotoList => ListAndCheck(e);
      case GotoComplete => Check(e);
      case GotoUpdate => Overwrite(e);
      case NoJump =>
        if cmt[p].cached {
          lru := ToFront(lru, p);
          Check(e);
        } else {
          LoadPage(e);
        }
    }

    /** demand_end_req for the request of entry e. */
    method EndReq(e: nat)
      requires Shape(v, View()) && e in out
      modifies this
      ensures View() == old(View()).(w := Complete(v, old(View()).w, e)) && updated == old(updated)
    {
      var req := out[e];
      out := out - {e};
      match req
      case MapRead => retry := retry + [e];
      case MapWrite => retry := retry + [e];
      case DataRead(pga) =>
        if pga in v.flash && v.flash[pga].key == v.buf[e].rec.key {
          jump := jump[e := GotoUpdate];
          retry := retry + [e];
        } else {
          cnt := cnt[e := cnt[e] + 1];
          master := master + [e];
        }
    }

    /** What an event does. */
    static ghost predicate Follows(v: Env, s: State, event: Event, r: State) {
      && Shape(v, s)
      && match event
         case Loop => r == if s.w.hand.Empty? then Take(s) else Probe(v, s)
         case Completion(e) => r == if e in s.w.out then s.(w := Complete(v, s.w, e)) else s
    }

    /** Any finite part of a run, under any schedule: the invariant holds throughout, and when the loop condition fails
        every entry is stored and the queues are empty.  The states the loop goes through are returned; it stops before
        the end of the schedule only when all entries are updated. */
    method MappingUpdate(schedule: seq<Event>, ghost t0: Slots, ghost store: Records)
      returns (ghost trace: seq<State>)
      requires Valid(t0, store)
      modifies this, table
      ensures 0 < |trace| <= |schedule| + 1 && trace[0] == old(View()) && trace[|trace| - 1] == View()
      ensures forall k :: 0 <= k < |trace| - 1 ==> Follows(v, trace[k], schedule[k], trace[k + 1])
      ensures updated < |v.buf| ==> |trace| == |schedule| + 1
      ensures Valid(t0, store) && (old(NothingLost(v, View())) ==> NothingLost(v, View()))
      ensures updated >= |v.buf| && old(NothingLost(v, View())) ==> Quiet(v, View().t, View().c, store)
      ensures updated >= |v.buf| ==> updated == |v.buf| && master == [] && retry == [] && out == map[]
      ensures updated < |v.buf| ==> hand.Holding? || retry != [] || master != [] || out != map[]
      ensures updated >= |v.buf| ==> forall r :: Has(slot, store, r) <==>
                if exists e :: 0 <= e < |v.buf| && v.buf[e].rec.key == r.key
                then exists e :: 0 <= e < |v.buf| && v.buf[e].rec == r
                else Has(t0, v.flash, r)
    {
      hide Data, LruOk, JumpsOk, LoadsOk, Has, NothingLost, Quiet, NoneGone, Follows;
      trace := [View()];
      var i := 0;
      while i < |schedule| && updated < |v.buf|
        invariant 0 <= i <= |schedule| && Valid(t0, store)
        invariant old(NothingLost(v, View())) ==> NothingLost(v, View())
        invariant |trace| == i + 1 && trace[0] == old(View()) && trace[i] == View()
        invariant forall k :: 0 <= k < i ==> Follows(v, trace[k], schedule[k], trace[k + 1])
      {
        Handle(schedule[i], t0, store);
        trace := trace + [View()];
        i := i + 1;
      }
      if updated >= |v.buf| {
        NothingLeftOver(v, View());
        BoundedSet(done, |v.buf|);
        forall r { FlushResult(v, t0, store, View(), r); }
        if NothingLost(v, View()) {
          NotLost(v, View());
          FlushEndsQuiet(v, t0, store, View());
        }
      } else {
        NeverStuck(v, View());
      }
    }

    method Handle(event: Event, ghost t0: Slots, ghost store: Records)
      requires Valid(t0, store)
      modifies this, table
      ensures Valid(t0, store) && (View() == old(View()) || Next(v, old(View()), View()))
      ensures Follows(v, old(View()), event, View())
      ensures old(NothingLost(v, View())) ==> NothingLost(v, View())
    {
      hide NothingLost, Inv, Take, Probe;
      InvPlaced(v, t0, store, View());
      ghost var s := View();
      match event
      case Loop =>
        Pass();
        StepKeepsAll(v, t0, store, s, View());
      case Completion(e) =>
        if e in out {
          EndReq(e);
          StepKeepsAll(v, t0, store, s, View());
        }
    }

    /** A read's access to a page: cg_touch on a hit, cg_load and cg_list_up on a miss. */
    method ReadPage(p: nat)
      requires EnvOk(v) && CacheShape(v, View().c) && p < v.pages && cmt[p].retryQ == []
      modifies this`cmt, this`lru
      ensures View().c == ReadCache(v, old(View().c), p)
    {
      if cmt[p].cached {
        lru := ToFront(lru, p);
        return;
      }
      cmt := cmt[p := cmt[p].(flying := true)];
      if |lru| >= v.maxCached {
        var victim := lru[|lru| - 1];
        lru := lru[..|lru| - 1];
        var x := cmt[victim];
        cmt := cmt[victim := x.(cached := false, dirty := false, hasTppa := x.hasTppa || x.dirty)];
      }
      cmt := cmt[p := cmt[p].(cached := true, flying := false)];
      lru := [p] + lru;
    }

    /** __demand_read between two flushes: the write buffer first, then the probes.  The FTL stays quiet. */
    method DemandRead(wb: map<Key, Value>, k: Key, flash: Records) returns (r: ReadResult)
      requires Quiet(v, View().t, View().c, flash)
      modifies this`cmt, this`lru
      ensures Quiet(v, View().t, View().c, flash) && (old(Safe(v, View().c)) ==> Safe(v, View().c))
      ensures k in wb ==> r == Found(wb[k]) && View() == old(View())
      ensures k !in wb ==> forall val :: r == Found(val) <==> Has(slot, flash, Record(k, val))
    {
      hide Quiet, ReadFrom, ReadCache, Settled, Safe, Has, GetLpa, Idx;
      if k in wb { return Found(wb[k]); }
      ghost var c0 := View().c;
      QuietIdle(v, View().t, c0, flash);
      forall val { ReadIsExact(v, View().t, c0, flash, k, val); }
      var n := 0;
      while n <= maxTry
        invariant Quiet(v, View().t, View().c, flash) && (old(Safe(v, View().c)) ==> Safe(v, View().c))
        invariant CacheShape(v, View().c)
        invariant ReadFrom(v, slot, flash, maxTry, c0, k, 0) == ReadFrom(v, slot, flash, maxTry, View().c, k, n)
        decreases maxTry + 1 - n
      {
        var lpa := GetLpa(v, k, n);
        var p := Idx(v, lpa);
        QuietIdle(v, View().t, View().c, flash);
        ReadUnfolds(v, slot, flash, maxTry, View().c, k, n);
        if !cmt[p].cached && !cmt[p].hasTppa { return NotFound; }
        StepKeepsQuiet(v, View().t, View().c, flash, p);
        ReadPage(p);
        if lpa !in slot { return NotFound; }
        if slot[lpa] in flash && flash[slot[lpa]].key == k { return Found(flash[slot[lpa]].val); }
        n := n + 1;
      }
      ReadEnds(v, slot, flash, maxTry, View().c, k, n);
      r := NotFound;
    }
  }
}

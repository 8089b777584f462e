/**
 Reading a key back: the probing read of the hash KV FTL and what it returns.
 */
module FlushRead {
  import opened Sequences
  import opened KeyOrder
  import opened FlushSpec
  import opened FlushControl
  import opened FlushProbing
  import opened FlushTheorems
  import opened FlushResults
  import opened FlushNoLoss

  datatype ReadResult = NotFound | Found(val: Value)

  /** What a read does to the cache at a page it can reach: a hit is moved to the front, any other page is loaded
      from flash and listed, which pushes out the least recently used page of a full cache. */
  function ReadCache(v: Env, c: Cache, p: nat): (r: Cache)
    requires EnvOk(v) && CacheShape(v, c) && p < v.pages
  {
    if c.cmt[p].cached then c.(lru := ToFront(c.lru, p))
    else ListedCache(v, SetCmt(c, p, c.cmt[p].(flying := true)), p)
  }

  lemma ReadCacheShape(v: Env, c: Cache, p: nat)
    requires EnvOk(v) && CacheShape(v, c) && p < v.pages
    ensures CacheShape(v, ReadCache(v, c, p))
  {
    hide Without;
    WithoutAll(c.lru, p, v.pages);
  }

  /** The probes of a read from number n on, with the cache it leaves.  A page that is neither cached nor on flash
      ends the read, as does an empty slot or a probe number above max_try. */
  function ReadFrom(v: Env, slot: Slots, flash: Records, maxTry: nat, c: Cache, k: Key,
                    n: nat): (r: (ReadResult, Cache))
    requires EnvOk(v) && CacheShape(v, c)
    decreases if n > maxTry then 0 else maxTry + 1 - n
  {
    if n > maxTry then (NotFound, c)
    else
      var l := GetLpa(v, k, n);
      var p := Idx(v, l);
      if !Reachable(c.cmt[p]) then (NotFound, c)
      else
        var c' := ReadCache(v, c, p);
        ReadCacheShape(v, c, p);
        if l !in slot then (NotFound, c')
        else if slot[l] in flash && flash[slot[l]].key == k then (Found(flash[slot[l]].val), c')
        else ReadFrom(v, slot, flash, maxTry, c', k, n + 1)
  }

  /** The page of the n-th probe of k. */
  function ProbePage(v: Env, k: Key, n: nat): (p: nat)
    requires EnvOk(v)
    ensures p < v.pages
  {
    Idx(v, GetLpa(v, k, n))
  }

  // ---------------------------------------------------------------- the cache through a read

  /** The LRU list after an access to page p. */
  function Access(max: nat, lru: seq<nat>, p: nat): seq<nat> {
    if p in lru then ToFront(lru, p)
    else [p] + if |lru| >= max && lru != [] then lru[..|lru| - 1] else lru
  }

  /** The LRU list after probes n to m - 1 of k. */
  function LruAfter(v: Env, lru: seq<nat>, k: Key, n: nat, m: nat): seq<nat>
    requires EnvOk(v) && n <= m
    decreases m - n
  {
    if n == m then lru else LruAfter(v, Access(v.maxCached, lru, ProbePage(v, k, n)), k, n + 1, m)
  }

  /** A cache between flushes, whatever was lost. */
  ghost predicate Idle(v: Env, c: Cache) {
    && EnvOk(v) && |c.cmt| == v.pages && All(c.lru, v.pages) && LruOk(c) && |c.lru| <= v.maxCached
    && forall p :: 0 <= p < |c.cmt| ==> !c.cmt[p].flying && c.cmt[p].retryQ == []
  }

  lemma IdleShape(v: Env, c: Cache)
    requires Idle(v, c)
    ensures CacheShape(v, c)
  {
  }

  /** A read leaves the cache idle and moves the LRU list on; no page that is on flash or dirty stops being so. */
  lemma ReadCacheIs(v: Env, c: Cache, p: nat)
    requires Idle(v, c) && p < v.pages && CacheShape(v, c)
    ensures var d := ReadCache(v, c, p);
            && Idle(v, d) && d.lru == Access(v.maxCached, c.lru, p) && d.lost == c.lost
            && forall q :: 0 <= q < v.pages ==> OnFlashOrDirty(d.cmt[q]) == OnFlashOrDirty(c.cmt[q])
  {
    hide Idle, ListedCache, Without, ToFront;
    if c.cmt[p].cached { HitCacheIs(v, c, p); } else { MissCacheIs(v, c, p); }
  }

  lemma HitCacheIs(v: Env, c: Cache, p: nat)
    requires Idle(v, c) && p < v.pages && c.cmt[p].cached
    ensures p in c.lru && Idle(v, c.(lru := ToFront(c.lru, p)))
  {
    hide Without;
    ToFrontOk(c, p);
    WithoutAll(c.lru, p, v.pages);
  }

  lemma MissCacheIs(v: Env, c: Cache, p: nat)
    requires Idle(v, c) && p < v.pages && CacheShape(v, c) && !c.cmt[p].cached
    ensures var d := ListedCache(v, SetCmt(c, p, c.cmt[p].(flying := true)), p);
            && Idle(v, d) && p !in c.lru && d.lru == Access(v.maxCached, c.lru, p) && d.lost == c.lost
            && forall q :: 0 <= q < v.pages ==> OnFlashOrDirty(d.cmt[q]) == OnFlashOrDirty(c.cmt[q])
  {
    var c1 := SetCmt(c, p, c.cmt[p].(flying := true));
    assert LruOk(c1);
    ListedOk(v, c1, p);
    hide LruOk;
  }

  /** A page can be reached if it is on flash, dirty, or listed. */
  lemma ReachableIs(v: Env, c: Cache, p: nat)
    requires Idle(v, c) && p < v.pages
    ensures Reachable(c.cmt[p]) <==> OnFlashOrDirty(c.cmt[p]) || p in c.lru
  {
  }

  // ---------------------------------------------------------------- what a read returns

  /** Probe m of k, in a read that starts at probe n, falls on a page that is on flash, dirty, or cached and still
      listed after the probes before it. */
  ghost predicate Kept(v: Env, c: Cache, k: Key, n: nat, m: nat)
    requires EnvOk(v) && |c.cmt| == v.pages && n <= m
  {
    OnFlashOrDirty(c.cmt[ProbePage(v, k, m)]) || ProbePage(v, k, m) in LruAfter(v, c.lru, k, n, m)
  }

  ghost predicate PathKept(v: Env, c: Cache, k: Key, n: nat, m: nat)
    requires EnvOk(v) && |c.cmt| == v.pages
  {
    forall d: nat :: n <= d <= m ==> Kept(v, c, k, n, d)
  }

  lemma KeptNow(v: Env, c: Cache, k: Key, n: nat)
    requires Idle(v, c)
    ensures Kept(v, c, k, n, n) <==> Reachable(c.cmt[ProbePage(v, k, n)])
  {
    hide ProbePage;
    ReachableIs(v, c, ProbePage(v, k, n));
  }

  lemma KeptNext(v: Env, c: Cache, k: Key, n: nat, m: nat)
    requires Idle(v, c) && CacheShape(v, c) && n < m
    ensures var d := ReadCache(v, c, ProbePage(v, k, n));
            |d.cmt| == v.pages && (Kept(v, c, k, n, m) <==> Kept(v, d, k, n + 1, m))
  {
    hide ProbePage, ReadCache, Access;
    ReadCacheIs(v, c, ProbePage(v, k, n));
  }

  lemma PathNext(v: Env, c: Cache, k: Key, n: nat, m: nat)
    requires Idle(v, c) && CacheShape(v, c) && n < m
    ensures var d := ReadCache(v, c, ProbePage(v, k, n));
            |d.cmt| == v.pages
            && (PathKept(v, c, k, n, m) <==> Reachable(c.cmt[ProbePage(v, k, n)]) && PathKept(v, d, k, n + 1, m))
  {
    hide ProbePage, ReadCache, Kept;
    KeptNow(v, c, k, n);
    var d := ReadCache(v, c, ProbePage(v, k, n));
    forall x: nat | n < x <= m ensures |d.cmt| == v.pages && (Kept(v, c, k, n, x) <==> Kept(v, d, k, n + 1, x)) {
      KeptNext(v, c, k, n, x);
    }
    KeptNext(v, c, k, n, m);
    if PathKept(v, c, k, n, m) {
      assert Kept(v, c, k, n, n);
      var n' := n + 1;
      forall x: nat | n' <= x <= m ensures Kept(v, d, k, n', x) { assert Kept(v, c, k, n, x); }
    }
    if Reachable(c.cmt[ProbePage(v, k, n)]) && PathKept(v, d, k, n + 1, m) {
      forall x: nat | n <= x <= m ensures Kept(v, c, k, n, x) {
        if n < x { assert Kept(v, d, k, n + 1, x); }
      }
    }
  }

  lemma {:induction false} ReadReachesHome(v: Env, slot: Slots, flash: Records, maxTry: nat, c: Cache, l: nat, m: nat,
                                           n: nat)
    requires Idle(v, c) && CacheShape(v, c) && Home(v, slot, flash, maxTry, l, m) && n <= m
    ensures var k := flash[slot[l]].key;
            ReadFrom(v, slot, flash, maxTry, c, k, n).0 ==
            if PathKept(v, c, k, n, m) then Found(flash[slot[l]].val) else NotFound
    decreases m - n
  {
    hide GetLpa, Idx, ReadCache, PathKept;
    var k := flash[slot[l]].key;
    var p := ProbePage(v, k, n);
    if n < m {
      assert Taken(v, slot, flash, k, n);
      PathNext(v, c, k, n, m);
      ReadCacheIs(v, c, p);
      ReadCacheShape(v, c, p);
      ReadReachesHome(v, slot, flash, maxTry, ReadCache(v, c, p), l, m, n + 1);
    } else {
      PathEnd(v, c, k, m);
    }
  }

  lemma PathEnd(v: Env, c: Cache, k: Key, n: nat)
    requires Idle(v, c)
    ensures PathKept(v, c, k, n, n) <==> Reachable(c.cmt[ProbePage(v, k, n)])
  {
    hide ProbePage;
    KeptNow(v, c, k, n);
    hide Kept;
    assert Kept(v, c, k, n, n) ==> PathKept(v, c, k, n, n);
  }

  /** The record stored at probe m of its key is returned exactly when every page on the way is on flash, dirty, or
      cached and not pushed out by the loads of the pages before it; otherwise the key is reported as not found. */
  lemma ReadStored(v: Env, slot: Slots, flash: Records, maxTry: nat, c: Cache, l: nat, m: nat)
    requires Idle(v, c) && CacheShape(v, c) && Home(v, slot, flash, maxTry, l, m)
    ensures var k := flash[slot[l]].key;
            var r := ReadFrom(v, slot, flash, maxTry, c, k, 0).0;
            && (r == Found(flash[slot[l]].val) <==> PathKept(v, c, k, 0, m))
            && (r == NotFound <==> !PathKept(v, c, k, 0, m))
  {
    hide GetLpa, Idx, PathKept, ReadFrom;
    ReadReachesHome(v, slot, flash, maxTry, c, l, m, 0);
  }

  /** A read never returns a record that is not stored. */
  lemma {:induction false} ReadIsSound(v: Env, slot: Slots, flash: Records, maxTry: nat, c: Cache, k: Key, n: nat)
    requires EnvOk(v) && CacheShape(v, c)
    ensures var r := ReadFrom(v, slot, flash, maxTry, c, k, n).0;
            r.Found? ==> Has(slot, flash, Record(k, r.val))
    decreases if n > maxTry then 0 else maxTry + 1 - n
  {
    hide GetLpa, Idx, ReadCache;
    if n <= maxTry {
      var l := GetLpa(v, k, n);
      if l in slot && slot[l] in flash && flash[slot[l]].key == k {
        assert flash[slot[l]] == Record(k, flash[slot[l]].val);
      } else {
        ReadCacheShape(v, c, Idx(v, l));
        ReadIsSound(v, slot, flash, maxTry, ReadCache(v, c, Idx(v, l)), k, n + 1);
      }
    }
  }

  lemma ReadEnds(v: Env, slot: Slots, flash: Records, maxTry: nat, c: Cache, k: Key, n: nat)
    requires EnvOk(v) && CacheShape(v, c) && n > maxTry
    ensures ReadFrom(v, slot, flash, maxTry, c, k, n) == (NotFound, c)
  {
  }

  /** One probe of a read. */
  lemma ReadUnfolds(v: Env, slot: Slots, flash: Records, maxTry: nat, c: Cache, k: Key, n: nat)
    requires EnvOk(v) && CacheShape(v, c) && n <= maxTry
    ensures var l := GetLpa(v, k, n);
            var p := Idx(v, l);
            var d := ReadCache(v, c, p);
            && CacheShape(v, d) && ProbePage(v, k, n) == p
            && ReadFrom(v, slot, flash, maxTry, c, k, n) ==
               if !Reachable(c.cmt[p]) then (NotFound, c)
               else if l !in slot then (NotFound, d)
               else if slot[l] in flash && flash[slot[l]].key == k then (Found(flash[slot[l]].val), d)
               else ReadFrom(v, slot, flash, maxTry, d, k, n + 1)
  {
    hide GetLpa, Idx, ReadCache;
    ReadCacheShape(v, c, ProbePage(v, k, n));
  }

  lemma StepKeepsQuiet(v: Env, t: Table, c: Cache, flash: Records, p: nat)
    requires Quiet(v, t, c, flash) && CacheShape(v, c) && p < v.pages
    ensures Quiet(v, t, ReadCache(v, c, p), flash) && (Safe(v, c) ==> Safe(v, ReadCache(v, c, p)))
  {
    hide Settled, OobOk, Without, Idx;
    ReadCacheIs(v, c, p);
  }

  lemma QuietIdle(v: Env, t: Table, c: Cache, flash: Records)
    requires Quiet(v, t, c, flash)
    ensures Idle(v, c) && CacheShape(v, c) && Settled(v, t.slot, flash, t.maxTry)
  {
    hide Settled, OobOk, Covered;
  }

  /** In a quiet FTL every page with a filled slot is on flash or dirty, so no load can push it out of reach. */
  lemma QuietPath(v: Env, t: Table, c: Cache, flash: Records, l: nat, m: nat)
    requires Quiet(v, t, c, flash) && Home(v, t.slot, flash, t.maxTry, l, m)
    ensures PathKept(v, c, flash[t.slot[l]].key, 0, m)
  {
    hide GetLpa, Idx, Settled, OobOk, LruAfter;
    var k := flash[t.slot[l]].key;
    forall d: nat | d <= m ensures Kept(v, c, k, 0, d) {
      if d < m { assert Taken(v, t.slot, flash, k, d); }
      assert GetLpa(v, k, d) in t.slot;
    }
  }

  /** Between flushes a read returns exactly what is stored: the value of a stored key, nothing for an absent one. */
  lemma ReadIsExact(v: Env, t: Table, c: Cache, flash: Records, k: Key, val: Value)
    requires Quiet(v, t, c, flash) && CacheShape(v, c)
    ensures ReadFrom(v, t.slot, flash, t.maxTry, c, k, 0).0 == Found(val) <==> Has(t.slot, flash, Record(k, val))
  {
    hide GetLpa, Idx, ReadFrom, PathKept;
    ReadIsSound(v, t.slot, flash, t.maxTry, c, k, 0);
    QuietIdle(v, t, c, flash);
    if Has(t.slot, flash, Record(k, val)) {
      var l :| l in t.slot && t.slot[l] in flash && flash[t.slot[l]] == Record(k, val);
      var m: nat :| Home(v, t.slot, flash, t.maxTry, l, m);
      QuietPath(v, t, c, flash, l, m);
      ReadStored(v, t.slot, flash, t.maxTry, c, l, m);
    }
  }
}

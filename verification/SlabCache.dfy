/**
 The small-object path of the slab allocator in include/slab.c: one page per slab, its header at the end, free
 objects threaded through their first word.
 */
module SlabCache {
  import opened Sequences
  import opened Arithmetic
  import opened SlabRing

  const PAGE := 4096
  /** sizeof(struct kmem_slab) */
  const HEADER := 40

  /** The address of object k of the slab on page mem. */
  function Obj(mem: nat, eff: nat, k: nat): nat { mem + k * eff }

  /** Objects fit below the header of their page. */
  ghost predicate Fits(eff: nat, maxbuf: nat) { eff >= 8 && maxbuf >= 2 && maxbuf * eff <= PAGE - HEADER }

  lemma {:induction false} MulMono(a: nat, b: nat, c: nat)
    requires a <= b
    ensures a * c <= b * c
    decreases b
  {
    if a < b {
      MulMono(a, b - 1, c);
      assert b * c == (b - 1) * c + c;
    }
  }

  lemma ObjInside(eff: nat, maxbuf: nat, k: nat)
    requires Fits(eff, maxbuf) && k < maxbuf
    ensures k * eff + eff <= PAGE - HEADER
  {
    MulMono(k + 1, maxbuf, eff);
    assert (k + 1) * eff == k * eff + eff;
  }

  /** The page of an object is found by clearing the low twelve bits. */
  lemma PageOf(mem: nat, eff: nat, maxbuf: nat, k: nat)
    requires Fits(eff, maxbuf) && k < maxbuf && mem % PAGE == 0
    ensures Obj(mem, eff, k) / PAGE * PAGE == mem
  {
    ObjInside(eff, maxbuf, k);
  }

  /** Objects of one slab do not overlap. */
  lemma Apart(eff: nat, j: nat, k: nat)
    requires j < k
    ensures j * eff + eff <= k * eff
  {
    MulMono(j + 1, k, eff);
    assert (j + 1) * eff == j * eff + eff;
  }

  /** The links of neighbouring free objects do not overlap exactly when an object has room for a pointer. */
  lemma LinksApart(mem: nat, eff: nat)
    ensures (forall j: nat, k: nat :: j < k ==> Obj(mem, eff, j) + 8 <= Obj(mem, eff, k)) <==> eff >= 8
  {
    if eff >= 8 {
      forall j: nat, k: nat | j < k ensures Obj(mem, eff, j) + 8 <= Obj(mem, eff, k) { Apart(eff, j, k); }
    } else {
      assert Obj(mem, eff, 1) < Obj(mem, eff, 0) + 8;
    }
  }

  /** Different objects have different addresses. */
  lemma ObjUnique(eff: nat, maxbuf: nat, m: nat, j: nat, n: nat, k: nat)
    requires Fits(eff, maxbuf) && j < maxbuf && k < maxbuf && m % PAGE == 0 && n % PAGE == 0
    ensures Obj(m, eff, j) == Obj(n, eff, k) <==> m == n && j == k
  {
    PageOf(m, eff, maxbuf, j);
    PageOf(n, eff, maxbuf, k);
    if j < k { Apart(eff, j, k); }
    if k < j { Apart(eff, k, j); }
  }

  /** The free list of a slab visits exactly the objects in chain; the word of the last one is never needed. */
  ghost predicate FreeChain(mem: nat, eff: nat, maxbuf: nat, freeList: nat, chain: seq<nat>, word: map<nat, nat>) {
    && (forall i :: 0 <= i < |chain| ==> chain[i] < maxbuf)
    && (forall i, j :: 0 <= i < j < |chain| ==> chain[i] != chain[j])
    && (chain != [] ==> freeList == Obj(mem, eff, chain[0]))
    && (forall i :: 0 <= i && i + 1 < |chain| ==>
          Obj(mem, eff, chain[i]) in word && word[Obj(mem, eff, chain[i])] == Obj(mem, eff, chain[i + 1]))
  }

  /** The head object is taken. */
  lemma TakeHead(mem: nat, eff: nat, maxbuf: nat, freeList: nat, chain: seq<nat>, word: map<nat, nat>, h: nat)
    requires FreeChain(mem, eff, maxbuf, freeList, chain, word) && chain != []
    requires (freeList in word ==> h == word[freeList])
    ensures chain[0] !in chain[1..]
    ensures |chain| > 1 ==> freeList in word
    ensures FreeChain(mem, eff, maxbuf, h, chain[1..], word)
  {
    assert forall i :: 0 <= i < |chain| - 1 ==> chain[1..][i] == chain[i + 1];
  }

  /** An object is put back in front; the word it overwrites belongs to no free object. */
  lemma PutHead(mem: nat, eff: nat, maxbuf: nat, freeList: nat, chain: seq<nat>, word: map<nat, nat>, k: nat)
    requires Fits(eff, maxbuf) && mem % PAGE == 0 && FreeChain(mem, eff, maxbuf, freeList, chain, word) && k < maxbuf
    requires k !in chain
    ensures FreeChain(mem, eff, maxbuf, Obj(mem, eff, k), [k] + chain, word[Obj(mem, eff, k) := freeList])
  {
    hide Obj;
    var c := [k] + chain;
    assert forall i :: 0 < i < |c| ==> c[i] == chain[i - 1];
    forall i | 0 <= i < |chain| ensures Obj(mem, eff, chain[i]) != Obj(mem, eff, k) {
      ObjUnique(eff, maxbuf, mem, chain[i], mem, k);
    }
  }

  /** Writing a word that is not a free object of this slab leaves its free list alone. */
  lemma OtherWord(mem: nat, eff: nat, maxbuf: nat, freeList: nat, chain: seq<nat>, word: map<nat, nat>, a: nat, v: nat)
    requires FreeChain(mem, eff, maxbuf, freeList, chain, word)
    requires forall i :: 0 <= i < |chain| ==> Obj(mem, eff, chain[i]) != a
    ensures FreeChain(mem, eff, maxbuf, freeList, chain, word[a := v])
  {
  }

  // ---------------------------------------------------------------- all slabs of a cache

  /** What is recorded about a slab: objects handed out, head of the free list, free objects in list order. */
  datatype Info = Info(count: nat, head: nat, chain: seq<nat>)

  ghost predicate SlabOk(s: Slab, x: Info, eff: nat, maxbuf: nat, word: map<nat, nat>) {
    s.mem % PAGE == 0 && x.count + |x.chain| == maxbuf && FreeChain(s.mem, eff, maxbuf, x.head, x.chain, word)
  }

  ghost predicate AllOk(all: seq<Slab>, info: map<Slab, Info>, eff: nat, maxbuf: nat, word: map<nat, nat>) {
    forall s :: s in all ==> s in info && SlabOk(s, info[s], eff, maxbuf, word)
  }

  ghost predicate OwnPages(all: seq<Slab>) { forall s, t :: s in all && t in all && s != t ==> s.mem != t.mem }

  /** Slabs with a free object come before the full ones. */
  ghost predicate Ordered(all: seq<Slab>, info: map<Slab, Info>, maxbuf: nat)
    requires forall s :: s in all ==> s in info
  {
    forall i, j :: 0 <= i < j < |all| && info[all[j]].count < maxbuf ==> info[all[i]].count < maxbuf
  }

  /** Object a, the k-th of slab s, is handed out. */
  ghost predicate LiveObj(all: seq<Slab>, info: map<Slab, Info>, eff: nat, maxbuf: nat, a: nat, s: Slab, k: nat) {
    s in all && k < maxbuf && s in info && k !in info[s].chain && a == Obj(s.mem, eff, k)
  }

  ghost predicate IsLive(all: seq<Slab>, info: map<Slab, Info>, eff: nat, maxbuf: nat, a: nat) {
    exists s, k: nat :: s in all && LiveObj(all, info, eff, maxbuf, a, s, k)
  }

  ghost predicate LiveIs(all: seq<Slab>, info: map<Slab, Info>, eff: nat, maxbuf: nat, live: set<nat>) {
    forall a: nat :: a in live <==> IsLive(all, info, eff, maxbuf, a)
  }

  ghost predicate Mirrors(all: seq<Slab>, info: map<Slab, Info>)
    reads (set s | s in all)`bufcount, (set s | s in all)`freeList
  {
    forall i :: 0 <= i < |all| ==>
         all[i] in info && all[i].bufcount == info[all[i]].count && all[i].freeList == info[all[i]].head
  }

  ghost predicate Shape(all: seq<Slab>, info: map<Slab, Info>, eff: nat, maxbuf: nat, word: map<nat, nat>,
                        live: set<nat>) {
    && Fits(eff, maxbuf) && AllOk(all, info, eff, maxbuf, word) && OwnPages(all) && Ordered(all, info, maxbuf)
    && LiveIs(all, info, eff, maxbuf, live)
  }

  /** Live objects do not overlap. */
  lemma LiveDisjoint(all: seq<Slab>, info: map<Slab, Info>, eff: nat, maxbuf: nat, word: map<nat, nat>, live: set<nat>,
                     a: nat, b: nat)
    requires Shape(all, info, eff, maxbuf, word, live) && a in live && b in live && a != b
    ensures a + eff <= b || b + eff <= a
  {
    var s, j: nat :| s in all && LiveObj(all, info, eff, maxbuf, a, s, j);
    var t, k: nat :| t in all && LiveObj(all, info, eff, maxbuf, b, t, k);
    assert SlabOk(s, info[s], eff, maxbuf, word) && SlabOk(t, info[t], eff, maxbuf, word);
    ObjectsApart(eff, maxbuf, s.mem, j, t.mem, k);
  }

  lemma PagesApart(m: nat, x: nat, n: nat, y: nat, eff: nat)
    requires m % PAGE == 0 && n % PAGE == 0 && m != n && x + eff <= PAGE && y + eff <= PAGE
    ensures m + x + eff <= n + y || n + y + eff <= m + x
  {
  }

  lemma ObjectsApart(eff: nat, maxbuf: nat, m: nat, j: nat, n: nat, k: nat)
    requires Fits(eff, maxbuf) && j < maxbuf && k < maxbuf && m % PAGE == 0 && n % PAGE == 0 && (m != n || j != k)
    ensures Obj(m, eff, j) + eff <= Obj(n, eff, k) || Obj(n, eff, k) + eff <= Obj(m, eff, j)
  {
    if m == n {
      if j < k { Apart(eff, j, k); } else { Apart(eff, k, j); }
    } else {
      ObjInside(eff, maxbuf, j);
      ObjInside(eff, maxbuf, k);
      PagesApart(m, j * eff, n, k * eff, eff);
    }
  }

  /** A live object is aligned and lies below the header of its page. */
  lemma LiveInside(all: seq<Slab>, info: map<Slab, Info>, eff: nat, maxbuf: nat, word: map<nat, nat>, live: set<nat>,
                   a: nat, align: nat)
    requires Shape(all, info, eff, maxbuf, word, live) && a in live && align > 0 && eff % align == 0
    requires PAGE % align == 0
    ensures a % align == 0 && a % PAGE + eff <= PAGE - HEADER
  {
    var s, k: nat :| s in all && LiveObj(all, info, eff, maxbuf, a, s, k);
    var m := s.mem;
    assert SlabOk(s, info[s], eff, maxbuf, word);
    ObjInside(eff, maxbuf, k);
    PageOf(m, eff, maxbuf, k);
    Aligned(m, eff, k, align);
  }

  lemma Aligned(m: nat, eff: nat, k: nat, align: nat)
    requires align > 0 && m % PAGE == 0 && eff % align == 0 && PAGE % align == 0
    ensures (m + k * eff) % align == 0
  {
    MulMod(PAGE, m / PAGE, align);
    MulMod(eff, k, align);
    ModAdd(m, k * eff, align);
  }

  lemma {:induction false} MulMod(x: nat, n: nat, a: nat)
    requires a > 0 && x % a == 0
    ensures n * x % a == 0
    decreases n
  {
    if n > 0 {
      MulMod(x, n - 1, a);
      assert n * x == (n - 1) * x + x;
      ModAdd((n - 1) * x, x, a);
    }
  }

  lemma ModAdd(x: nat, y: nat, a: nat)
    requires a > 0 && x % a == 0 && y % a == 0
    ensures (x + y) % a == 0
  {
    assert x + y == a * (x / a + y / a) + 0;
    DivMod(a, x / a + y / a, 0);
  }

  /** Only the order of the slabs changes. */
  lemma Reordered(all: seq<Slab>, all': seq<Slab>, info: map<Slab, Info>, eff: nat, maxbuf: nat, word: map<nat, nat>,
                  live: set<nat>)
    requires (forall s :: s in all' <==> s in all) && AllOk(all, info, eff, maxbuf, word) && OwnPages(all)
    requires LiveIs(all, info, eff, maxbuf, live)
    ensures AllOk(all', info, eff, maxbuf, word) && OwnPages(all') && LiveIs(all', info, eff, maxbuf, live)
  {
    forall a: nat ensures a in live <==> IsLive(all', info, eff, maxbuf, a) {
      if IsLive(all, info, eff, maxbuf, a) {
        var s, k: nat :| s in all && LiveObj(all, info, eff, maxbuf, a, s, k);
        assert LiveObj(all', info, eff, maxbuf, a, s, k);
      }
      if IsLive(all', info, eff, maxbuf, a) {
        var s, k: nat :| s in all' && LiveObj(all', info, eff, maxbuf, a, s, k);
        assert LiveObj(all, info, eff, maxbuf, a, s, k);
      }
    }
  }

  /** The first object of slab s's free list is handed out. */
  lemma TakeLive(all: seq<Slab>, info: map<Slab, Info>, eff: nat, maxbuf: nat, word: map<nat, nat>, live: set<nat>,
                 s: Slab, x': Info)
    requires Fits(eff, maxbuf) && AllOk(all, info, eff, maxbuf, word) && OwnPages(all)
    requires LiveIs(all, info, eff, maxbuf, live)
    requires s in all && info[s].chain != [] && (info[s].head in word ==> x'.head == word[info[s].head])
    requires x' == Info(info[s].count + 1, x'.head, info[s].chain[1..])
    ensures info[s].head !in live && (|info[s].chain| > 1 ==> info[s].head in word)
    ensures AllOk(all, info[s := x'], eff, maxbuf, word)
    ensures LiveIs(all, info[s := x'], eff, maxbuf, live + {info[s].head})
  {
    assert SlabOk(s, info[s], eff, maxbuf, word);
    TakeHead(s.mem, eff, maxbuf, info[s].head, info[s].chain, word, x'.head);
    var k := info[s].chain[0];
    var info' := info[s := x'];
    assert info[s].chain == [k] + x'.chain;
    ChangeLive(all, info, info', eff, maxbuf, word, live, s, k, info[s].head);
    assert forall t :: t in all ==> SlabOk(t, info[t], eff, maxbuf, word);
  }

  /** One object of slab s changes hands. */
  lemma ChangeLive(all: seq<Slab>, info: map<Slab, Info>, info': map<Slab, Info>, eff: nat, maxbuf: nat,
                   word: map<nat, nat>, live: set<nat>, s: Slab, k: nat, b: nat)
    requires Fits(eff, maxbuf) && AllOk(all, info, eff, maxbuf, word) && OwnPages(all)
    requires LiveIs(all, info, eff, maxbuf, live)
    requires s in all && k < maxbuf && b == Obj(s.mem, eff, k) && s in info' && info' == info[s := info'[s]]
    requires forall j: nat :: j < maxbuf && j != k ==> (j in info'[s].chain <==> j in info[s].chain)
    requires k in info'[s].chain <==> k !in info[s].chain
    ensures b in live <==> k !in info[s].chain
    ensures LiveIs(all, info', eff, maxbuf, if k in info[s].chain then live + {b} else live - {b})
  {
    hide Obj, Fits;
    forall t, j: nat | t in all && j < maxbuf ensures Obj(t.mem, eff, j) == b <==> t == s && j == k {
      assert SlabOk(t, info[t], eff, maxbuf, word) && SlabOk(s, info[s], eff, maxbuf, word);
      ObjUnique(eff, maxbuf, t.mem, j, s.mem, k);
    }
    var live' := if k in info[s].chain then live + {b} else live - {b};
    forall a: nat ensures a in live' <==> IsLive(all, info', eff, maxbuf, a) {
      LiveEither(all, info, info', eff, maxbuf, a, s, k, b);
    }
    assert k !in info[s].chain ==> LiveObj(all, info, eff, maxbuf, b, s, k);
  }

  lemma LiveEither(all: seq<Slab>, info: map<Slab, Info>, info': map<Slab, Info>, eff: nat, maxbuf: nat, a: nat,
                   s: Slab, k: nat, b: nat)
    requires s in all && s in info && s in info' && info' == info[s := info'[s]] && k < maxbuf
    requires b == Obj(s.mem, eff, k)
    requires forall t, j: nat :: t in all && j < maxbuf ==> (Obj(t.mem, eff, j) == b <==> t == s && j == k)
    requires forall j: nat :: j < maxbuf && j != k ==> (j in info'[s].chain <==> j in info[s].chain)
    ensures a != b ==> (IsLive(all, info', eff, maxbuf, a) <==> IsLive(all, info, eff, maxbuf, a))
    ensures IsLive(all, info', eff, maxbuf, b) <==> k !in info'[s].chain
    ensures IsLive(all, info, eff, maxbuf, b) <==> k !in info[s].chain
  {
    hide Obj;
    if IsLive(all, info, eff, maxbuf, a) {
      var t, j: nat :| t in all && LiveObj(all, info, eff, maxbuf, a, t, j);
      if a != b { assert LiveObj(all, info', eff, maxbuf, a, t, j); }
    }
    if IsLive(all, info', eff, maxbuf, a) {
      var t, j: nat :| t in all && LiveObj(all, info', eff, maxbuf, a, t, j);
      if a != b { assert LiveObj(all, info, eff, maxbuf, a, t, j); }
    }
    if k !in info'[s].chain { assert LiveObj(all, info', eff, maxbuf, b, s, k); }
    if k !in info[s].chain { assert LiveObj(all, info, eff, maxbuf, b, s, k); }
  }

  /** A live object goes back to the front of its slab's free list. */
  lemma PutLive(all: seq<Slab>, info: map<Slab, Info>, eff: nat, maxbuf: nat, word: map<nat, nat>, live: set<nat>,
                s: Slab, k: nat)
    requires Fits(eff, maxbuf) && AllOk(all, info, eff, maxbuf, word) && OwnPages(all)
    requires LiveIs(all, info, eff, maxbuf, live)
    requires s in all && k < maxbuf && k !in info[s].chain
    ensures info[s].count > 0 && Obj(s.mem, eff, k) in live
    ensures var b := Obj(s.mem, eff, k); var info' := info[s := Info(info[s].count - 1, b, [k] + info[s].chain)];
            AllOk(all, info', eff, maxbuf, word[b := info[s].head]) && LiveIs(all, info', eff, maxbuf, live - {b})
  {
    var x := info[s];
    var b := Obj(s.mem, eff, k);
    assert SlabOk(s, x, eff, maxbuf, word);
    Pigeon(x.chain, maxbuf);
    var info' := info[s := Info(x.count - 1, b, [k] + x.chain)];
    PutHead(s.mem, eff, maxbuf, x.head, x.chain, word, k);
    ChangeLive(all, info, info', eff, maxbuf, word, live, s, k, b);
    hide Obj, LiveIs, Fits;
    forall t | t in all ensures SlabOk(t, info'[t], eff, maxbuf, word[b := x.head]) {
      assert SlabOk(t, info[t], eff, maxbuf, word);
      if t != s {
        forall i | 0 <= i < |info[t].chain| ensures Obj(t.mem, eff, info[t].chain[i]) != b {
          ObjUnique(eff, maxbuf, t.mem, info[t].chain[i], s.mem, k);
        }
        OtherWord(t.mem, eff, maxbuf, info[t].head, info[t].chain, word, b, x.head);
      }
    }
  }

  /** NoDup numbers below n: at most n of them, and n only if all. */
  lemma {:induction false} Pigeon(c: seq<nat>, n: nat)
    requires (forall i :: 0 <= i < |c| ==> c[i] < n) && forall i, j :: 0 <= i < j < |c| ==> c[i] != c[j]
    ensures |c| <= n && (|c| == n ==> forall k: nat :: k < n ==> k in c)
  {
    ElemsSize(c);
    assert Elems(c) <= Below(n);
    SubsetSize(Elems(c), Below(n));
    if |c| == n {
      forall k: nat | k < n ensures k in c { assert k in Below(n) && k in Elems(c); }
    }
  }

  ghost function Below(n: nat): (s: set<nat>)
    ensures |s| == n && forall k: nat :: k in s <==> k < n
  {
    if n == 0 then {} else Below(n - 1) + {n - 1}
  }

  ghost function Elems(c: seq<nat>): set<nat> { set x | x in c }

  lemma SubsetSize(a: set<nat>, b: set<nat>)
    requires a <= b
    ensures |a| <= |b| && (|a| == |b| ==> a == b)
  {
    assert b == a + (b - a);
  }

  lemma {:induction false} ElemsSize(c: seq<nat>)
    requires forall i, j :: 0 <= i < j < |c| ==> c[i] != c[j]
    ensures |Elems(c)| == |c|
    decreases c
  {
    if c != [] {
      var n := |c| - 1;
      ElemsSize(c[..n]);
      assert c[n] !in c[..n];
      assert Elems(c) == Elems(c[..n]) + {c[n]};
    }
  }

  /** A slab without live objects may leave. */
  lemma DropSlab(all: seq<Slab>, all': seq<Slab>, info: map<Slab, Info>, eff: nat, maxbuf: nat, word: map<nat, nat>,
                 live: set<nat>, s: Slab)
    requires (forall t :: t in all' <==> t in all && t != s) && s in all && info.Keys >= {s} && info[s].count == 0
    requires AllOk(all, info, eff, maxbuf, word) && OwnPages(all) && LiveIs(all, info, eff, maxbuf, live)
    ensures AllOk(all', info, eff, maxbuf, word) && OwnPages(all') && LiveIs(all', info, eff, maxbuf, live)
  {
    assert SlabOk(s, info[s], eff, maxbuf, word);
    Pigeon(info[s].chain, maxbuf);
    forall a: nat ensures a in live <==> IsLive(all', info, eff, maxbuf, a) {
      if IsLive(all, info, eff, maxbuf, a) {
        var t, k: nat :| t in all && LiveObj(all, info, eff, maxbuf, a, t, k);
        assert LiveObj(all', info, eff, maxbuf, a, t, k);
      }
      if IsLive(all', info, eff, maxbuf, a) {
        var t, k: nat :| t in all' && LiveObj(all', info, eff, maxbuf, a, t, k);
        assert LiveObj(all, info, eff, maxbuf, a, t, k);
      }
    }
  }

  /** A slab on a page of its own, all its objects free, joins. */
  lemma AddSlab(all: seq<Slab>, info: map<Slab, Info>, eff: nat, maxbuf: nat, word: map<nat, nat>, live: set<nat>,
                s: Slab, x: Info)
    requires s !in all && x.count == 0 && SlabOk(s, x, eff, maxbuf, word) && forall t :: t in all ==> t.mem != s.mem
    requires AllOk(all, info, eff, maxbuf, word) && OwnPages(all) && LiveIs(all, info, eff, maxbuf, live)
    ensures AllOk([s] + all, info[s := x], eff, maxbuf, word) && OwnPages([s] + all)
    ensures LiveIs([s] + all, info[s := x], eff, maxbuf, live)
  {
    Pigeon(x.chain, maxbuf);
    var all', info' := [s] + all, info[s := x];
    assert forall t :: t in all' <==> t == s || t in all;
    forall a: nat ensures a in live <==> IsLive(all', info', eff, maxbuf, a) {
      if IsLive(all, info, eff, maxbuf, a) {
        var t, k: nat :| t in all && LiveObj(all, info, eff, maxbuf, a, t, k);
        assert LiveObj(all', info', eff, maxbuf, a, t, k);
      }
      if IsLive(all', info', eff, maxbuf, a) {
        var t, k: nat :| t in all' && LiveObj(all', info', eff, maxbuf, a, t, k);
        assert LiveObj(all, info, eff, maxbuf, a, t, k);
      }
    }
  }

  lemma Members(all: seq<Slab>, i: nat)
    requires i < |all| && NoDup(all)
    ensures forall t :: t in DropAt(all, i) <==> t in all && t != all[i]
    ensures forall t :: t in [all[i]] + DropAt(all, i) <==> t in all
    ensures forall t :: t in DropAt(all, i) + [all[i]] <==> t in all
  {
    DropAtIs(all, i);
    assert all == all[..i] + [all[i]] + all[i + 1..];
  }

  /** The list stays ordered when fullness of no slab changes. */
  lemma OrderedStay(all: seq<Slab>, info: map<Slab, Info>, info': map<Slab, Info>, maxbuf: nat)
    requires (forall s :: s in all ==> s in info && s in info') && Ordered(all, info, maxbuf)
    requires forall s :: s in all ==> (info'[s].count < maxbuf <==> info[s].count < maxbuf)
    ensures Ordered(all, info', maxbuf)
  {
  }

  /** It stays ordered when slab i leaves, or moves to the front with a free object, or to the back without one. */
  lemma OrderedMoves(all: seq<Slab>, info: map<Slab, Info>, info': map<Slab, Info>, maxbuf: nat, i: nat)
    requires (forall s :: s in all ==> s in info && s in info') && Ordered(all, info, maxbuf) && NoDup(all)
    requires i < |all|
    requires forall s :: s in all && s != all[i] ==> (info'[s].count < maxbuf <==> info[s].count < maxbuf)
    ensures forall s :: s in DropAt(all, i) ==> s in info'
    ensures forall s :: s in [all[i]] + DropAt(all, i) ==> s in info'
    ensures forall s :: s in DropAt(all, i) + [all[i]] ==> s in info'
    ensures Ordered(DropAt(all, i), info', maxbuf)
    ensures info'[all[i]].count < maxbuf ==> Ordered([all[i]] + DropAt(all, i), info', maxbuf)
    ensures info'[all[i]].count >= maxbuf ==> Ordered(DropAt(all, i) + [all[i]], info', maxbuf)
  {
    Members(all, i);
    var w := DropAt(all, i);
    OrderedDrop(all, info, info', maxbuf, i);
    hide DropAt, NoDup;
    OrderedAround(w, all[i], info', maxbuf);
  }

  lemma OrderedDrop(all: seq<Slab>, info: map<Slab, Info>, info': map<Slab, Info>, maxbuf: nat, i: nat)
    requires (forall s :: s in all ==> s in info && s in info') && Ordered(all, info, maxbuf) && NoDup(all)
    requires i < |all|
    requires forall s :: s in all && s != all[i] ==> (info'[s].count < maxbuf <==> info[s].count < maxbuf)
    requires forall s :: s in DropAt(all, i) ==> s in info'
    ensures Ordered(DropAt(all, i), info', maxbuf)
  {
    DropAtIs(all, i);
    var w := DropAt(all, i);
    hide DropAt;
    forall a, b | 0 <= a < b < |w| && info'[w[b]].count < maxbuf ensures info'[w[a]].count < maxbuf {
      var a', b' := if a < i then a else a + 1, if b < i then b else b + 1;
      assert w[a] == all[a'] && w[b] == all[b'] && a' != i && b' != i;
    }
  }

  /** A slab with room may come first, a full one last. */
  lemma OrderedAround(w: seq<Slab>, s: Slab, info: map<Slab, Info>, maxbuf: nat)
    requires (forall t :: t in w ==> t in info) && s in info && Ordered(w, info, maxbuf)
    ensures (forall t :: t in [s] + w ==> t in info) && forall t :: t in w + [s] ==> t in info
    ensures info[s].count < maxbuf ==> Ordered([s] + w, info, maxbuf)
    ensures info[s].count >= maxbuf ==> Ordered(w + [s], info, maxbuf)
  {
    var f, g := [s] + w, w + [s];
    assert forall a :: 0 < a < |f| ==> f[a] == w[a - 1];
    assert forall a :: 0 <= a < |w| ==> g[a] == w[a];
  }
}

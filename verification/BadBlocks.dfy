/**
 Bad segments: every front segment gets a partner segment from the back, and a replacement as well if it is bad; a
 logical page then goes to the segment, its replacement or its partner, in single-level-cell slots only.
 */
module BadBlocks {

  /** Pages in a segment. */
  const PPS := 16384
  const UINT_MAX := 0xffff_ffff

  function Origin(i: nat): nat { i * PPS }

  /** The last good segment at or below m, or -1. */
  function Down(flags: seq<bool>, m: int): (r: int)
    requires m < |flags|
    ensures -1 <= r && (r >= 0 ==> r <= m && !flags[r])
    decreases m + 1
  {
    if m < 0 then -1 else if !flags[m] then m else Down(flags, m - 1)
  }

  lemma {:induction false} DownIsLast(flags: seq<bool>, m: int)
    requires m < |flags|
    ensures forall j :: 0 <= j && Down(flags, m) < j <= m ==> flags[j]
    decreases m + 1
  {
    if m >= 0 && flags[m] { DownIsLast(flags, m - 1); }
  }

  /**
   Whether the pairing that starts at front segment k and back segment m keeps to the segments in between: a scan
   never leaves the array, and the scan for a partner stops above k.
   */
  predicate Clean(flags: seq<bool>, k: nat, m: int)
    requires m < |flags|
    decreases m - k
  {
    k > m ||
    if flags[k] then
      var f := Down(flags, m);
      f >= 0 && (f > k ==> CleanPartner(flags, k, f - 1))
    else CleanPartner(flags, k, m)
  }

  predicate CleanPartner(flags: seq<bool>, k: nat, m: int)
    requires k <= m < |flags|
    decreases m - k, 0
  {
    var p := Down(flags, m);
    p >= 0 && (m > k ==> p > k && Clean(flags, k + 1, p - 1))
  }

  /** Whether a scan of the pairing leaves the array. */
  predicate Leaves(flags: seq<bool>, k: nat, m: int)
    requires m < |flags|
    decreases m - k
  {
    k <= m &&
    if flags[k] then
      var f := Down(flags, m);
      f < 0 || (f > k && LeavesPartner(flags, k, f - 1))
    else LeavesPartner(flags, k, m)
  }

  predicate LeavesPartner(flags: seq<bool>, k: nat, m: int)
    requires k <= m < |flags|
    decreases m - k, 0
  {
    var p := Down(flags, m);
    p < 0 || (m > k && p > k && Leaves(flags, k + 1, p - 1))
  }

  /** There is a good segment behind segment i. */
  ghost predicate Behind(flags: seq<bool>, i: nat) { exists g: nat :: i < g < |flags| && !flags[g] }

  /** The partner of segment i is i itself or a good segment in front of it, which is already in use. */
  ghost predicate Taken(flags: seq<bool>, pair: seq<nat>, i: nat) {
    i < |pair| && exists g: nat :: g <= i && g < |flags| && !flags[g] && pair[i] == Origin(g)
  }

  /** The segment that stands for front segment i. */
  function Home(flags: seq<bool>, fixed: seq<nat>, i: nat): nat
    requires i < |flags| && i < |fixed|
  {
    if flags[i] then fixed[i] else Origin(i)
  }

  /** s is the address of a good segment. */
  ghost predicate GoodAt(flags: seq<bool>, s: nat) { exists g: nat :: g < |flags| && !flags[g] && s == Origin(g) }

  /** The first n segments have homes and partners that are good and all different. */
  ghost predicate Sound(flags: seq<bool>, fixed: seq<nat>, pair: seq<nat>, n: nat)
    requires n <= |flags| == |fixed| == |pair|
  {
    && (forall i :: 0 <= i < n ==> GoodAt(flags, Home(flags, fixed, i)) && GoodAt(flags, pair[i]))
    && (forall i, j :: 0 <= i < j < n ==> Home(flags, fixed, i) != Home(flags, fixed, j) && pair[i] != pair[j])
    && forall i, j :: 0 <= i < n && 0 <= j < n ==> Home(flags, fixed, i) != pair[j]
  }

  /** Every segment handed out so far is good, lies above m, and was handed out once. */
  ghost predicate Handed(flags: seq<bool>, fixed: seq<nat>, pair: seq<nat>, deprived: seq<nat>, k: nat, m: int,
                         hs: seq<nat>, ps: seq<nat>)
  {
    && |fixed| == |flags| && |pair| == |flags| && |deprived| == |flags|
    && |hs| == k && |ps| == k && k - 1 <= m < |flags| && k <= |flags|
    && (forall i :: 0 <= i < k ==>
         m < ps[i] < |flags| && !flags[ps[i]] && pair[i] == Origin(ps[i]) && pair[ps[i]] == Origin(i))
    && (forall i :: 0 <= i < k && flags[i] ==>
         && m < hs[i] < |flags| && !flags[hs[i]] && fixed[i] == Origin(hs[i]) && deprived[hs[i]] == Origin(i)
         && ps[i] < hs[i])
    && (forall i, j :: 0 <= i < j < k ==> ps[i] > ps[j] && (flags[j] ==> ps[i] > hs[j]))
  }

  lemma HandedSound(flags: seq<bool>, fixed: seq<nat>, pair: seq<nat>, deprived: seq<nat>, k: nat, m: int, hs: seq<nat>,
                    ps: seq<nat>)
    requires Handed(flags, fixed, pair, deprived, k, m, hs, ps)
    ensures Sound(flags, fixed, pair, k) && Inverse(flags, fixed, pair, deprived, k)
  {
    forall i | 0 <= i < k ensures GoodAt(flags, Home(flags, fixed, i)) && GoodAt(flags, pair[i]) {
      if flags[i] { assert Home(flags, fixed, i) == Origin(hs[i]); } else { assert Home(flags, fixed, i) == Origin(i); }
      assert pair[i] == Origin(ps[i]);
    }
    assert forall g: nat :: Origin(g) / PPS == g;
    forall i, j | 0 <= i < k && 0 <= j < k
      ensures Home(flags, fixed, i) != pair[j]
      ensures (i < j ==> Home(flags, fixed, i) != Home(flags, fixed, j) && pair[i] != pair[j])
    {
    }
  }

  /** A partner at or below its own segment is shared with a segment in front. */
  lemma Clash(flags: seq<bool>, fixed: seq<nat>, pair: seq<nat>, k: nat, p: nat)
    requires |fixed| == |flags| && |pair| == |flags|
    requires p <= k < |flags| && !flags[p] && pair[k] == Origin(p)
    ensures !Sound(flags, fixed, pair, k + 1)
  {
    assert Home(flags, fixed, p) == pair[k];
  }

  lemma Begin(flags: seq<bool>, fixed: seq<nat>, pair: seq<nat>, deprived: seq<nat>)
    requires |fixed| == |flags| && |pair| == |flags| && |deprived| == |flags|
    ensures Handed(flags, fixed, pair, deprived, 0, |flags| - 1, [], [])
  {
  }

  lemma CleanStep(flags: seq<bool>, k: nat, m: int)
    requires k <= m < |flags|
    ensures Clean(flags, k, m) <==>
      if flags[k] then Down(flags, m) >= 0 && (Down(flags, m) > k ==> CleanPartner(flags, k, Down(flags, m) - 1))
      else CleanPartner(flags, k, m)
  {
  }

  lemma LeavesStep(flags: seq<bool>, k: nat, m: int)
    requires k <= m < |flags|
    ensures Leaves(flags, k, m) <==>
      if flags[k] then Down(flags, m) < 0 || (Down(flags, m) > k && LeavesPartner(flags, k, Down(flags, m) - 1))
      else LeavesPartner(flags, k, m)
    ensures LeavesPartner(flags, k, m) <==>
      Down(flags, m) < 0 || (m > k && Down(flags, m) > k && Leaves(flags, k + 1, Down(flags, m) - 1))
  {
  }

  lemma LeavesEnd(flags: seq<bool>, k: nat, m: int)
    requires m < k && m < |flags|
    ensures !Leaves(flags, k, m)
  {
  }

  lemma HandedBehind(flags: seq<bool>, fixed: seq<nat>, pair: seq<nat>, deprived: seq<nat>, k: nat, m: int,
                     hs: seq<nat>, ps: seq<nat>)
    requires Handed(flags, fixed, pair, deprived, k, m, hs, ps)
    ensures forall i :: 0 <= i < k ==> Behind(flags, i)
  {
    hide Origin;
    forall i | 0 <= i < k ensures Behind(flags, i) { assert !flags[ps[i]] && ps[i] > m >= k - 1; }
  }

  lemma CleanEnd(flags: seq<bool>, k: nat, m: int)
    requires m < k && m < |flags|
    ensures Clean(flags, k, m)
  {
  }

  lemma PartnerStep(flags: seq<bool>, k: nat, m: int)
    requires k <= m < |flags|
    ensures CleanPartner(flags, k, m) <==>
      Down(flags, m) >= 0 && (m > k ==> Down(flags, m) > k && Clean(flags, k + 1, Down(flags, m) - 1))
  {
  }

  /** A replacement f is handed to segment k. */
  lemma FixKeeps(flags: seq<bool>, fixed: seq<nat>, pair: seq<nat>, deprived: seq<nat>, k: nat, m: int, hs: seq<nat>,
                 ps: seq<nat>, f: nat)
    requires Handed(flags, fixed, pair, deprived, k, m, hs, ps) && k < f <= m < |flags|
    ensures |fixed| == |flags| && |deprived| == |flags|
    ensures Handed(flags, fixed[k := Origin(f)], pair, deprived[f := Origin(k)], k, f - 1, hs, ps)
    ensures forall i :: 0 <= i < |ps| ==> ps[i] > f
  {
    hide Origin;
  }

  /** A partner p is handed to segment k. */
  lemma PairKeeps(flags: seq<bool>, fixed: seq<nat>, pair: seq<nat>, pair': seq<nat>, deprived: seq<nat>, k: nat,
                  m: int, hs: seq<nat>, ps: seq<nat>, h: nat, p: nat)
    requires Handed(flags, fixed, pair, deprived, k, m, hs, ps) && k < p <= m < |flags| && !flags[p]
    requires flags[k] ==> h == m + 1 < |flags| && !flags[h] && forall i :: 0 <= i < |ps| ==> ps[i] > h
    requires |fixed| == |flags| && |deprived| == |flags| && |pair| == |flags|
    requires flags[k] ==> fixed[k] == Origin(h) && deprived[h] == Origin(k)
    requires pair' == pair[k := Origin(p)][p := Origin(k)]
    ensures Handed(flags, fixed, pair', deprived, k + 1, p - 1, hs + [h], ps + [p])
  {
    hide Origin;
  }

  lemma ClashAt(flags: seq<bool>, fixed: seq<nat>, pair: seq<nat>, pair': seq<nat>, deprived: seq<nat>, k: nat, m: int,
                hs: seq<nat>, ps: seq<nat>, p: nat)
    requires Handed(flags, fixed, pair, deprived, k, m, hs, ps) && p <= k < |flags| && !flags[p]
    requires |pair| == |flags| && pair' == pair[k := Origin(p)][p := Origin(k)] && (p < k || !flags[k])
    ensures Taken(flags, pair', k) && forall i :: 0 <= i < k ==> Behind(flags, i)
  {
    hide Origin;
    HandedBehind(flags, fixed, pair, deprived, k, m, hs, ps);
  }

  /** The back tables undo the front ones. */
  ghost predicate Inverse(flags: seq<bool>, fixed: seq<nat>, pair: seq<nat>, deprived: seq<nat>, n: nat) {
    && n <= |flags| == |fixed| == |pair| == |deprived|
    && (forall i :: 0 <= i < n ==> pair[i] / PPS < |pair| && pair[pair[i] / PPS] == Origin(i))
    && forall i :: 0 <= i < n && flags[i] ==> fixed[i] / PPS < |flags| && deprived[fixed[i] / PPS] == Origin(i)
  }

  // ---------------------------------------------------------------- how many segments are paired

  /** Address a is that of the home or the partner of a processed segment. */
  ghost predicate Used(flags: seq<bool>, fixed: seq<nat>, pair: seq<nat>, n: nat, a: nat)
    requires n <= |flags| == |fixed| == |pair|
  {
    exists i :: 0 <= i < n && (Home(flags, fixed, i) == a || pair[i] == a)
  }

  /** All good segments are in use, but perhaps x. */
  ghost predicate AllUsed(flags: seq<bool>, fixed: seq<nat>, pair: seq<nat>, n: nat, x: int)
    requires n <= |flags| == |fixed| == |pair|
  {
    forall g: nat :: g < |flags| && !flags[g] && g != x ==> Used(flags, fixed, pair, n, Origin(g))
  }

  /** The number of good segments among the first n. */
  function GoodCount(flags: seq<bool>, n: nat): nat
    requires n <= |flags|
  {
    if n == 0 then 0 else GoodCount(flags, n - 1) + if flags[n - 1] then 0 else 1
  }

  /** Every good segment above m was handed out, x to the segment whose partner is still to be found. */
  ghost predicate NoneSkipped(flags: seq<bool>, k: nat, m: int, hs: seq<nat>, ps: seq<nat>, x: int) {
    && |hs| == |ps| == k <= |flags|
    && forall g: nat :: m < g < |flags| && !flags[g] && g != x ==> HandedOut(flags, hs, ps, g)
  }

  ghost predicate HandedOut(flags: seq<bool>, hs: seq<nat>, ps: seq<nat>, g: nat)
    requires |hs| == |ps| <= |flags|
  {
    exists i :: 0 <= i < |ps| && (ps[i] == g || (flags[i] && hs[i] == g))
  }

  /** The scan has passed over bad segments only. */
  lemma FixSkipsNone(flags: seq<bool>, k: nat, m: int, hs: seq<nat>, ps: seq<nat>, f: nat)
    requires NoneSkipped(flags, k, m, hs, ps, -1) && m < |flags| && forall j :: f < j <= m ==> 0 <= j && flags[j]
    ensures NoneSkipped(flags, k, f - 1, hs, ps, f)
  {
  }

  lemma PairSkipsNone(flags: seq<bool>, k: nat, m: int, hs: seq<nat>, ps: seq<nat>, x: int, h: nat, p: nat)
    requires NoneSkipped(flags, k, m, hs, ps, x) && k < |flags| && m < |flags|
    requires forall j :: p < j <= m ==> 0 <= j && flags[j]
    requires if flags[k] then x == h else x == -1
    ensures NoneSkipped(flags, k + 1, p - 1, hs + [h], ps + [p], -1)
  {
    var hs', ps' := hs + [h], ps + [p];
    forall g: nat | p - 1 < g < |flags| && !flags[g] ensures HandedOut(flags, hs', ps', g) {
      if g == p || (g == x && flags[k]) {
        assert ps'[k] == p && hs'[k] == h;
      } else {
        assert HandedOut(flags, hs, ps, g);
        var i :| 0 <= i < |ps| && (ps[i] == g || (flags[i] && hs[i] == g));
        assert ps'[i] == ps[i] && hs'[i] == hs[i];
      }
    }
  }

  /** At the end: the good segments not handed out lie in front, and are homes, but perhaps y. */
  lemma NoneSkippedUsed(flags: seq<bool>, fixed: seq<nat>, pair: seq<nat>, deprived: seq<nat>, k: nat, m: int, m': int,
                        hs: seq<nat>, ps: seq<nat>, x: int, y: int)
    requires Handed(flags, fixed, pair, deprived, k, m, hs, ps) && NoneSkipped(flags, k, m', hs, ps, x)
    requires x == -1 || x == y
    requires forall g: nat :: k <= g <= m' && g < |flags| && !flags[g] ==> g == y
    ensures AllUsed(flags, fixed, pair, k, y)
  {
    hide Origin;
    forall g: nat | g < |flags| && !flags[g] && g != y ensures Used(flags, fixed, pair, k, Origin(g)) {
      if g < k {
        assert Home(flags, fixed, g) == Origin(g);
      } else {
        assert HandedOut(flags, hs, ps, g);
        var i :| 0 <= i < |ps| && (ps[i] == g || (flags[i] && hs[i] == g));
        assert Home(flags, fixed, i) == Origin(g) || pair[i] == Origin(g);
      }
    }
  }

  /** The addresses in use: two for every processed segment. */
  ghost function InUse(flags: seq<bool>, fixed: seq<nat>, pair: seq<nat>, n: nat): set<nat>
    requires n <= |flags| == |fixed| == |pair|
  {
    if n == 0 then {} else InUse(flags, fixed, pair, n - 1) + {Home(flags, fixed, n - 1), pair[n - 1]}
  }

  lemma {:induction false} InUseIs(flags: seq<bool>, fixed: seq<nat>, pair: seq<nat>, n: nat, a: nat)
    requires n <= |flags| == |fixed| == |pair|
    ensures a in InUse(flags, fixed, pair, n) <==> Used(flags, fixed, pair, n, a)
    decreases n
  {
    hide Home;
    if n > 0 { InUseIs(flags, fixed, pair, n - 1, a); }
  }

  lemma NewlyUsed(flags: seq<bool>, fixed: seq<nat>, pair: seq<nat>, n: nat, k: nat)
    requires k < n <= |flags| == |fixed| == |pair| && Sound(flags, fixed, pair, n)
    ensures !Used(flags, fixed, pair, k, Home(flags, fixed, k)) && !Used(flags, fixed, pair, k, pair[k])
    ensures Home(flags, fixed, k) != pair[k]
  {
    hide GoodAt, Home;
  }

  lemma {:induction false} InUseSize(flags: seq<bool>, fixed: seq<nat>, pair: seq<nat>, n: nat, k: nat)
    requires k <= n <= |flags| == |fixed| == |pair| && Sound(flags, fixed, pair, n)
    ensures |InUse(flags, fixed, pair, k)| == 2 * k
    decreases k
  {
    hide Sound, Home, Used;
    if k > 0 {
      InUseSize(flags, fixed, pair, n, k - 1);
      NewlyUsed(flags, fixed, pair, n, k - 1);
      InUseIs(flags, fixed, pair, k - 1, Home(flags, fixed, k - 1));
      InUseIs(flags, fixed, pair, k - 1, pair[k - 1]);
    }
  }

  /** The addresses of the good segments among the first n. */
  ghost function GoodStarts(flags: seq<bool>, n: nat): set<nat>
    requires n <= |flags|
  {
    if n == 0 then {} else GoodStarts(flags, n - 1) + if flags[n - 1] then {} else {Origin(n - 1)}
  }

  lemma {:induction false} GoodStartsIs(flags: seq<bool>, n: nat, g: nat)
    requires n <= |flags|
    ensures Origin(g) in GoodStarts(flags, n) <==> g < n && !flags[g]
    decreases n
  {
    if n > 0 {
      GoodStartsIs(flags, n - 1, g);
      OriginsDiffer(g, n - 1);
      hide Origin;
    }
  }

  lemma OriginsDiffer(g: nat, h: nat)
    ensures Origin(g) == Origin(h) <==> g == h
  {
  }

  lemma {:induction false} GoodStartsSize(flags: seq<bool>, n: nat)
    requires n <= |flags|
    ensures |GoodStarts(flags, n)| == GoodCount(flags, n)
    ensures forall a :: a in GoodStarts(flags, n) ==> GoodAt(flags, a)
    decreases n
  {
    if n > 0 {
      GoodStartsSize(flags, n - 1);
      GoodStartsIs(flags, n - 1, n - 1);
    }
  }

  /** What is in use is good, and what is good is in use, but perhaps x. */
  lemma InUseGood(flags: seq<bool>, fixed: seq<nat>, pair: seq<nat>, n: nat, a: nat)
    requires n <= |flags| == |fixed| == |pair| && Sound(flags, fixed, pair, n) && a in InUse(flags, fixed, pair, n)
    ensures a in GoodStarts(flags, |flags|)
  {
    hide InUse, GoodStarts, Origin;
    InUseIs(flags, fixed, pair, n, a);
    var i :| 0 <= i < n && (Home(flags, fixed, i) == a || pair[i] == a);
    assert GoodAt(flags, a);
    var g: nat :| g < |flags| && !flags[g] && a == Origin(g);
    GoodStartsIs(flags, |flags|, g);
  }

  lemma GoodInUse(flags: seq<bool>, fixed: seq<nat>, pair: seq<nat>, n: nat, x: int, a: nat)
    requires n <= |flags| == |fixed| == |pair| && AllUsed(flags, fixed, pair, n, x) && a in GoodStarts(flags, |flags|)
    ensures a in InUse(flags, fixed, pair, n) || (x >= 0 && a == Origin(x))
  {
    hide InUse, GoodStarts, Origin, Used;
    GoodStartsSize(flags, |flags|);
    var g: nat :| g < |flags| && !flags[g] && a == Origin(g);
    InUseIs(flags, fixed, pair, n, a);
  }

  /** The number of processed segments is half the number of good ones. */
  lemma TotalIsHalf(flags: seq<bool>, fixed: seq<nat>, pair: seq<nat>, n: nat, x: int)
    requires n <= |flags| == |fixed| == |pair| && Sound(flags, fixed, pair, n) && AllUsed(flags, fixed, pair, n, x)
    ensures n == GoodCount(flags, |flags|) / 2
  {
    hide InUse, GoodStarts, Origin, GoodCount, Sound, AllUsed, GoodAt;
    InUseSize(flags, fixed, pair, n, n);
    GoodStartsSize(flags, |flags|);
    var u, good := InUse(flags, fixed, pair, n), GoodStarts(flags, |flags|);
    forall a | a in u ensures a in good { InUseGood(flags, fixed, pair, n, a); }
    SubsetSize(u, good);
    var y := if x >= 0 then Origin(x) else 0;
    forall a | a in good ensures a in u + {y} { GoodInUse(flags, fixed, pair, n, x, a); }
    SubsetSize(good, u + {y});
  }

  lemma {:induction false} SubsetSize(a: set<nat>, b: set<nat>)
    requires a <= b
    ensures |a| <= |b|
    decreases a
  {
    if x :| x in a { SubsetSize(a - {x}, b - {x}); }
  }

  /** Without bad segments it is half of all. */
  lemma {:induction false} AllCounted(flags: seq<bool>, n: nat)
    requires n <= |flags| && forall i :: 0 <= i < |flags| ==> !flags[i]
    ensures GoodCount(flags, n) == n
    decreases n
  {
    if n > 0 { AllCounted(flags, n - 1); }
  }

  // ---------------------------------------------------------------- when the pairing fails

  /** Without bad segments the pairing never fails. */
  lemma {:induction false} AllGood(flags: seq<bool>, k: nat, m: int)
    requires m < |flags| && forall i :: 0 <= i < |flags| ==> !flags[i]
    ensures Clean(flags, k, m)
    decreases m - k
  {
    if k < m { AllGood(flags, k + 1, m - 1); }
  }

  // ---------------------------------------------------------------- page addresses

  /** Pages that move to the partner segment. */
  predicate Moves(page: nat) { page >= 4 && (page >= 254 || page < 6 || page % 4 < 2) }

  /** The page slot used, in the segment or in its partner. */
  function Slot(page: nat): nat {
    if !Moves(page) then page
    else if page >= 254 || page < 6 then page - 4
    else if page > 6 then page - 6 else page
  }

  /** bb_checker_fix_ppa: bus and chip are the low six bits, the page the next eight. */
  function FixPpa(fixing: bool, fixed: nat, pair: nat, ppa: nat): nat {
    var block := ppa / PPS;
    var low := ppa % 64;
    var page := ppa / 64 % 256;
    var res := low + Slot(page) * 64 + block * PPS;
    if !Moves(page) && fixing then fixed + res % PPS
    else if Moves(page) then pair + res % PPS
    else res
  }

  /** The slots in use are the same 128 in a segment and in its partner. */
  predicate Usable(slot: nat) { slot < 4 || (slot % 4 >= 2 && slot < 254) }

  /** The page that moves to a slot. */
  function Unslot(slot: nat): nat { if slot < 2 || slot >= 250 then slot + 4 else slot + 6 }

  lemma SlotInverse(page: nat)
    requires page < 256
    ensures Usable(Slot(page)) && Slot(page) < 256
    ensures if Moves(page) then Unslot(Slot(page)) == page else Slot(page) == page
  {
  }

  lemma SlotOnto(slot: nat)
    requires Usable(slot)
    ensures !Moves(slot) && Slot(slot) == slot
    ensures Unslot(slot) < 256 && Moves(Unslot(slot)) && Slot(Unslot(slot)) == slot
  {
  }

  /** An address is its segment, page and low bits. */
  lemma Parts(ppa: nat)
    ensures ppa == ppa / PPS * PPS + ppa / 64 % 256 * 64 + ppa % 64
  {
    var q := ppa / 64;
    assert ppa / PPS == q / 256;
  }

  /** Where a page goes: segment and offset. */
  lemma FixIs(flags: seq<bool>, fixed: seq<nat>, pair: seq<nat>, ppa: nat)
    requires |fixed| == |flags| && |pair| == |flags| && ppa / PPS < |flags|
    ensures var b, page := ppa / PPS, ppa / 64 % 256;
            var rest := Slot(page) * 64 + ppa % 64;
            && rest < PPS
            && FixPpa(flags[b], fixed[b], pair[b], ppa) ==
               (if Moves(page) then pair[b] else Home(flags, fixed, b)) + rest
  {
    hide Slot, Moves;
    var b, page := ppa / PPS, ppa / 64 % 256;
    SlotInverse(page);
    Remain(b, Slot(page), ppa % 64);
  }

  lemma Remain(b: nat, x: nat, l: nat)
    requires x < 256 && l < 64
    ensures (l + x * 64 + b * PPS) % PPS == x * 64 + l < PPS
  {
  }

  /** Different pages of the first n segments go to different places. */
  lemma NoTwoPagesShare(flags: seq<bool>, fixed: seq<nat>, pair: seq<nat>, n: nat, p: nat, q: nat)
    requires |fixed| == |flags| && |pair| == |flags| && n <= |flags| && Sound(flags, fixed, pair, n)
    requires p / PPS < n && q / PPS < n && p != q
    ensures FixPpa(flags[p / PPS], fixed[p / PPS], pair[p / PPS], p) !=
            FixPpa(flags[q / PPS], fixed[q / PPS], pair[q / PPS], q)
  {
    FixIs(flags, fixed, pair, p);
    FixIs(flags, fixed, pair, q);
    var b, c := p / PPS, q / PPS;
    var x, y := p / 64 % 256, q / 64 % 256;
    var s := if Moves(x) then pair[b] else Home(flags, fixed, b);
    var t := if Moves(y) then pair[c] else Home(flags, fixed, c);
    GoodStart(flags, s);
    GoodStart(flags, t);
    Parts(p);
    Parts(q);
    SlotInverse(x);
    SlotInverse(y);
    hide FixPpa, Slot, Unslot, Usable;
    SameSpot(s / PPS, t / PPS, Slot(x), Slot(y), p % 64, q % 64);
  }

  lemma GoodStart(flags: seq<bool>, s: nat)
    requires GoodAt(flags, s)
    ensures s == s / PPS * PPS && s / PPS < |flags| && !flags[s / PPS]
  {
    var g: nat :| g < |flags| && !flags[g] && s == Origin(g);
    assert s / PPS == g;
  }

  lemma SameSpot(s: nat, t: nat, x: nat, y: nat, l: nat, m: nat)
    requires x < 256 && y < 256 && l < 64 && m < 64
    ensures s * PPS + x * 64 + l == t * PPS + y * 64 + m ==> s == t && x == y && l == m
  {
  }

  /** No page of the first n segments goes to a bad segment. */
  lemma NeverInBad(flags: seq<bool>, fixed: seq<nat>, pair: seq<nat>, n: nat, p: nat)
    requires |fixed| == |flags| && |pair| == |flags| && n <= |flags| && Sound(flags, fixed, pair, n)
    requires p / PPS < n
    ensures var r := FixPpa(flags[p / PPS], fixed[p / PPS], pair[p / PPS], p); r / PPS < |flags| && !flags[r / PPS]
  {
    FixIs(flags, fixed, pair, p);
    var b := p / PPS;
    var s := if Moves(p / 64 % 256) then pair[b] else Home(flags, fixed, b);
    GoodStart(flags, s);
    var rest := Slot(p / 64 % 256) * 64 + p % 64;
    hide FixPpa, Slot;
    assert (s / PPS * PPS + rest) / PPS == s / PPS;
  }

  // ---------------------------------------------------------------- the steps of the pairing

  /** The pairing has come to front segment k and back segment m. */
  ghost predicate Going(flags: seq<bool>, fixed: seq<nat>, pair: seq<nat>, deprived: seq<nat>, k: nat, m: int,
                        hs: seq<nat>, ps: seq<nat>)
  {
    && Handed(flags, fixed, pair, deprived, k, m, hs, ps) && NoneSkipped(flags, k, m, hs, ps, -1) && m < |flags|
    && (Clean(flags, 0, |flags| - 1) <==> Clean(flags, k, m))
    && (Leaves(flags, 0, |flags| - 1) <==> Leaves(flags, k, m))
  }

  /** Segment k has a home, h if it is bad, and a partner is looked for. */
  ghost predicate Seeking(flags: seq<bool>, fixed: seq<nat>, pair: seq<nat>, deprived: seq<nat>, k: nat, m: int,
                          hs: seq<nat>, ps: seq<nat>, h: nat)
  {
    && Handed(flags, fixed, pair, deprived, k, m, hs, ps) && k <= m < |flags|
    && NoneSkipped(flags, k, m, hs, ps, if flags[k] then h else -1)
    && (flags[k] ==> h == m + 1 < |flags| && !flags[h] && (forall i :: 0 <= i < |ps| ==> ps[i] > h)
                     && fixed[k] == Origin(h) && deprived[h] == Origin(k))
    && (Clean(flags, 0, |flags| - 1) <==> CleanPartner(flags, k, m))
    && (Leaves(flags, 0, |flags| - 1) <==> LeavesPartner(flags, k, m))
  }

  /** What a pairing that ends at k has done: nothing failed, and all good segments are in use but perhaps one. */
  ghost predicate Ended(flags: seq<bool>, fixed: seq<nat>, pair: seq<nat>, deprived: seq<nat>, k: nat) {
    && k <= |flags| == |fixed| == |pair| == |deprived|
    && Clean(flags, 0, |flags| - 1) && !Leaves(flags, 0, |flags| - 1)
    && Sound(flags, fixed, pair, k) && Inverse(flags, fixed, pair, deprived, k)
    && (exists x :: AllUsed(flags, fixed, pair, k, x)) && k == GoodCount(flags, |flags|) / 2
  }

  /** Segment k - 1 has a partner that is already in use. */
  ghost predicate Clashed(flags: seq<bool>, fixed: seq<nat>, pair: seq<nat>, k: nat) {
    && 0 < k <= |flags| == |fixed| == |pair|
    && !Clean(flags, 0, |flags| - 1) && !Leaves(flags, 0, |flags| - 1)
    && !Sound(flags, fixed, pair, k) && Taken(flags, pair, k - 1) && forall i :: 0 <= i < k - 1 ==> Behind(flags, i)
  }

  lemma StartGoing(flags: seq<bool>, fixed: seq<nat>, pair: seq<nat>, deprived: seq<nat>)
    requires |fixed| == |flags| && |pair| == |flags| && |deprived| == |flags|
    ensures Going(flags, fixed, pair, deprived, 0, |flags| - 1, [], [])
  {
    hide Clean, Leaves, Handed, Origin;
    Begin(flags, fixed, pair, deprived);
  }

  lemma FixStep(flags: seq<bool>, fixed: seq<nat>, pair: seq<nat>, deprived: seq<nat>, k: nat, m: int, hs: seq<nat>,
                ps: seq<nat>, f: nat)
    requires Going(flags, fixed, pair, deprived, k, m, hs, ps) && k <= m < |flags| && flags[k]
    requires f == Down(flags, m) > k
    ensures f <= m && |fixed| == |flags| && |deprived| == |flags|
    ensures Seeking(flags, fixed[k := Origin(f)], pair, deprived[f := Origin(k)], k, f - 1, hs, ps, f)
  {
    hide Clean, CleanPartner, Leaves, LeavesPartner, Origin, Down;
    DownIsLast(flags, m);
    CleanStep(flags, k, m);
    LeavesStep(flags, k, m);
    FixKeeps(flags, fixed, pair, deprived, k, m, hs, ps, f);
    FixSkipsNone(flags, k, m, hs, ps, f);
    hide Handed, NoneSkipped;
  }

  lemma GoodStep(flags: seq<bool>, fixed: seq<nat>, pair: seq<nat>, deprived: seq<nat>, k: nat, m: int, hs: seq<nat>,
                 ps: seq<nat>)
    requires Going(flags, fixed, pair, deprived, k, m, hs, ps) && k <= m < |flags| && !flags[k]
    ensures Seeking(flags, fixed, pair, deprived, k, m, hs, ps, 0)
  {
    hide Clean, CleanPartner, Leaves, LeavesPartner, Origin, Handed, NoneSkipped;
    CleanStep(flags, k, m);
    LeavesStep(flags, k, m);
  }

  lemma EndsWith(flags: seq<bool>, fixed: seq<nat>, pair: seq<nat>, deprived: seq<nat>, k: nat, m: int, m': int,
                 hs: seq<nat>, ps: seq<nat>, x: int, y: int)
    requires Handed(flags, fixed, pair, deprived, k, m, hs, ps) && NoneSkipped(flags, k, m', hs, ps, x)
    requires x == -1 || x == y
    requires forall g: nat :: k <= g <= m' && g < |flags| && !flags[g] ==> g == y
    requires |flags| > 0 ==> Clean(flags, 0, |flags| - 1) && !Leaves(flags, 0, |flags| - 1)
    ensures Ended(flags, fixed, pair, deprived, k)
  {
    HandedSound(flags, fixed, pair, deprived, k, m, hs, ps);
    NoneSkippedUsed(flags, fixed, pair, deprived, k, m, m', hs, ps, x, y);
    Sizes(flags, fixed, pair, deprived, k, m, hs, ps);
    if |flags| == 0 {
      CleanEnd(flags, 0, -1);
      LeavesEnd(flags, 0, -1);
    }
    hide Handed, Sound, Inverse, AllUsed, Clean, Leaves, NoneSkipped;
    TotalIsHalf(flags, fixed, pair, k, y);
  }

  lemma Sizes(flags: seq<bool>, fixed: seq<nat>, pair: seq<nat>, deprived: seq<nat>, k: nat, m: int, hs: seq<nat>,
              ps: seq<nat>)
    requires Handed(flags, fixed, pair, deprived, k, m, hs, ps)
    ensures k <= |flags| == |fixed| == |pair| == |deprived|
  {
  }

  /** No good segment is left to replace segment k. */
  lemma FixEnds(flags: seq<bool>, fixed: seq<nat>, pair: seq<nat>, deprived: seq<nat>, k: nat, m: int, hs: seq<nat>,
                ps: seq<nat>)
    requires Going(flags, fixed, pair, deprived, k, m, hs, ps) && k <= m < |flags| && flags[k]
    requires 0 <= Down(flags, m) <= k
    ensures Ended(flags, fixed, pair, deprived, k)
  {
    hide Clean, CleanPartner, Leaves, LeavesPartner, Origin, Down, Handed, NoneSkipped, Ended;
    DownIsLast(flags, m);
    CleanStep(flags, k, m);
    LeavesStep(flags, k, m);
    EndsWith(flags, fixed, pair, deprived, k, m, m, hs, ps, -1, -1);
  }

  /** Front and back have met. */
  lemma AllPaired(flags: seq<bool>, fixed: seq<nat>, pair: seq<nat>, deprived: seq<nat>, k: nat, m: int, hs: seq<nat>,
                  ps: seq<nat>)
    requires Going(flags, fixed, pair, deprived, k, m, hs, ps) && k > m
    ensures Ended(flags, fixed, pair, deprived, k)
  {
    CleanEnd(flags, k, m);
    LeavesEnd(flags, k, m);
    hide Clean, Leaves, Origin, Handed, NoneSkipped, Ended;
    EndsWith(flags, fixed, pair, deprived, k, m, m, hs, ps, -1, -1);
  }

  /** A home without a partner is left over. */
  lemma PairEnds(flags: seq<bool>, fixed: seq<nat>, pair: seq<nat>, deprived: seq<nat>, k: nat, m: int, hs: seq<nat>,
                 ps: seq<nat>, h: nat)
    requires Seeking(flags, fixed, pair, deprived, k, m, hs, ps, h) && m <= k && Down(flags, m) >= 0
    ensures Ended(flags, fixed, pair, deprived, k)
  {
    hide Clean, CleanPartner, Leaves, LeavesPartner, Origin, Down, Handed, NoneSkipped, Ended;
    PartnerStep(flags, k, m);
    LeavesStep(flags, k, m);
    assert m == k && Clean(flags, 0, |flags| - 1) && !Leaves(flags, 0, |flags| - 1);
    if flags[k] {
      EndsWith(flags, fixed, pair, deprived, k, m, m, hs, ps, h, h);
    } else {
      EndsWith(flags, fixed, pair, deprived, k, m, m, hs, ps, -1, k);
    }
  }

  lemma PairStep(flags: seq<bool>, fixed: seq<nat>, pair: seq<nat>, pair': seq<nat>, deprived: seq<nat>, k: nat, m: int,
                 hs: seq<nat>, ps: seq<nat>, h: nat, p: nat)
    requires Seeking(flags, fixed, pair, deprived, k, m, hs, ps, h) && m > k && p == Down(flags, m) > k
    requires |pair| == |flags| && pair' == pair[k := Origin(p)][p := Origin(k)]
    ensures Going(flags, fixed, pair', deprived, k + 1, p - 1, hs + [h], ps + [p])
  {
    DownIsLast(flags, m);
    PartnerStep(flags, k, m);
    LeavesStep(flags, k, m);
    Sizes(flags, fixed, pair, deprived, k, m, hs, ps);
    hide Clean, CleanPartner, Leaves, LeavesPartner, Origin, Down, Handed, NoneSkipped;
    PairKeeps(flags, fixed, pair, pair', deprived, k, m, hs, ps, h, p);
    PairSkipsNone(flags, k, m, hs, ps, if flags[k] then h else -1, h, p);
  }

  lemma PairClashes(flags: seq<bool>, fixed: seq<nat>, pair: seq<nat>, pair': seq<nat>, deprived: seq<nat>, k: nat,
                    m: int, hs: seq<nat>, ps: seq<nat>, h: nat, p: nat)
    requires Seeking(flags, fixed, pair, deprived, k, m, hs, ps, h) && m > k && p == Down(flags, m) <= k
    requires |pair| == |flags| && pair' == pair[k := Origin(p)][p := Origin(k)]
    ensures Clashed(flags, fixed, pair', k + 1)
  {
    PartnerStep(flags, k, m);
    LeavesStep(flags, k, m);
    Sizes(flags, fixed, pair, deprived, k, m, hs, ps);
    hide Clean, CleanPartner, Leaves, LeavesPartner, Down, Handed, NoneSkipped;
    Clash(flags, fixed, pair', k, p);
    ClashAt(flags, fixed, pair, pair', deprived, k, m, hs, ps, p);
  }

  lemma ScanLeaves(flags: seq<bool>, fixed: seq<nat>, pair: seq<nat>, deprived: seq<nat>, k: nat, m: int, hs: seq<nat>,
                   ps: seq<nat>)
    requires Going(flags, fixed, pair, deprived, k, m, hs, ps) && k <= m < |flags| && flags[k] && Down(flags, m) < 0
    ensures Leaves(flags, 0, |flags| - 1) && !Clean(flags, 0, |flags| - 1)
  {
    CleanStep(flags, k, m);
    LeavesStep(flags, k, m);
    hide Clean, CleanPartner, Leaves, LeavesPartner, Origin, Down, Handed, NoneSkipped;
  }

  lemma PartnerLeaves(flags: seq<bool>, fixed: seq<nat>, pair: seq<nat>, deprived: seq<nat>, k: nat, m: int,
                      hs: seq<nat>, ps: seq<nat>, h: nat)
    requires Seeking(flags, fixed, pair, deprived, k, m, hs, ps, h) && Down(flags, m) < 0
    ensures Leaves(flags, 0, |flags| - 1) && !Clean(flags, 0, |flags| - 1)
  {
    PartnerStep(flags, k, m);
    LeavesStep(flags, k, m);
    hide Clean, CleanPartner, Leaves, LeavesPartner, Origin, Down, Handed, NoneSkipped;
  }

  lemma ClashedIs(flags: seq<bool>, fixed: seq<nat>, pair: seq<nat>, k: nat)
    requires Clashed(flags, fixed, pair, k)
    ensures 0 < k <= |flags| == |fixed| == |pair|
    ensures !Clean(flags, 0, |flags| - 1) && !Leaves(flags, 0, |flags| - 1)
    ensures !Sound(flags, fixed, pair, k) && Taken(flags, pair, k - 1)
    ensures forall i :: 0 <= i < k - 1 ==> Behind(flags, i)
  {
    hide Clean, Leaves, Sound, Taken, Behind;
  }

  // ---------------------------------------------------------------- the pairing loop

  datatype Outcome = Done(total: nat) | OutOfBounds

  class Checker {
    const flags: seq<bool>
    var fixed: seq<nat>
    var pair: seq<nat>
    var deprived: seq<nat>

    constructor (flags: seq<bool>)
      ensures this.flags == flags
      ensures |fixed| == |flags| && |pair| == |flags|
      ensures deprived == seq(|flags|, i => UINT_MAX)
    {
      this.flags := flags;
      fixed := seq(|flags|, i => 0);
      pair := seq(|flags|, i => 0);
      deprived := seq(|flags|, i => UINT_MAX);
    }

    /** The scan for a good segment from m down; -1 when it leaves the array. */
    method ScanDown(m: int) returns (r: int)
      requires 0 <= m < |flags|
      ensures r == Down(flags, m) && forall j :: 0 <= j && r < j <= m ==> flags[j]
    {
      DownIsLast(flags, m);
      var test := 0;
      while m - test >= 0 && flags[m - test]
        invariant 0 <= test <= m + 1
        invariant Down(flags, m) == Down(flags, m - test)
      {
        test := test + 1;
      }
      r := m - test;
    }

    /** bb_checker_fixing; a scan that leaves the array is reported.  If no scan fails, half of the good segments are
        processed, and every good segment is a home or a partner of one of them, but for at most one. */
    method Fixing() returns (o: Outcome)
      requires |fixed| == |flags| && |pair| == |flags| && |deprived| == |flags|
      modifies this
      ensures |fixed| == |flags| && |pair| == |flags| && |deprived| == |flags|
      ensures o.Done? ==> o.total <= |flags|
      ensures o.Done? && Sound(flags, fixed, pair, o.total) <==> Clean(flags, 0, |flags| - 1)
      ensures Clean(flags, 0, |flags| - 1) ==> Inverse(flags, fixed, pair, deprived, o.total)
      ensures Clean(flags, 0, |flags| - 1) ==>
        o == Done(GoodCount(flags, |flags|) / 2) && exists x :: AllUsed(flags, fixed, pair, o.total, x)
      ensures o == OutOfBounds <==> Leaves(flags, 0, |flags| - 1)
      ensures o.Done? && !Clean(flags, 0, |flags| - 1) ==>
                o.total > 0 && Taken(flags, pair, o.total - 1) && forall i :: 0 <= i < o.total - 1 ==> Behind(flags, i)
    {
      hide Clean, CleanPartner, Leaves, LeavesPartner, Taken, Behind, Sound, Inverse, Origin, Down, Going, Seeking,
           Clashed, AllUsed, GoodCount;
      var start, max := 0, |flags| - 1;
      ghost var hs: seq<nat>, ps: seq<nat>, clash := [], [], false;
      StartGoing(flags, fixed, pair, deprived);
      while start <= max
        invariant start <= |flags| && |fixed| == |flags| && |pair| == |flags| && |deprived| == |flags| && max < |flags|
        invariant !clash ==> Going(flags, fixed, pair, deprived, start, max, hs, ps)
        invariant clash ==> start > max && Clashed(flags, fixed, pair, start)
        decreases |flags| - start
      {
        ghost var h := 0;
        if flags[start] {
          var f := ScanDown(max);
          if f < 0 {
            ScanLeaves(flags, fixed, pair, deprived, start, max, hs, ps);
            return OutOfBounds;
          }
          if f <= start {
            FixEnds(flags, fixed, pair, deprived, start, max, hs, ps);
            return Done(start);
          }
          FixStep(flags, fixed, pair, deprived, start, max, hs, ps, f);
          max := f;
          fixed := fixed[start := Origin(max)];
          deprived := deprived[max := Origin(start)];
          h := max;
          max := max - 1;
        } else {
          GoodStep(flags, fixed, pair, deprived, start, max, hs, ps);
        }
        var p := ScanDown(max);
        if p < 0 {
          PartnerLeaves(flags, fixed, pair, deprived, start, max, hs, ps, h);
          return OutOfBounds;
        }
        if max <= start {
          PairEnds(flags, fixed, pair, deprived, start, max, hs, ps, h);
          return Done(start);
        }
        ghost var pr := pair[start := Origin(p)][p := Origin(start)];
        if p > start {
          PairStep(flags, fixed, pair, pr, deprived, start, max, hs, ps, h, p);
          hs, ps := hs + [h], ps + [p];
        } else {
          PairClashes(flags, fixed, pair, pr, deprived, start, max, hs, ps, h, p);
          clash := true;
        }
        max := p;
        pair := pair[start := Origin(max)];
        pair := pair[max := Origin(start)];
        max := max - 1;
        start := start + 1;
      }
      if clash { ClashedIs(flags, fixed, pair, start); } else { AllPaired(flags, fixed, pair, deprived, start, max, hs,
                                                                          ps); }
      o := Done(start);
    }
  }

  /** Without bad segments half of all segments are processed, and the others are their partners. */
  method NoneBad(n: nat) returns (c: Checker, o: Outcome)
    ensures |c.flags| == n == |c.fixed| == |c.pair| == |c.deprived| && o == Done(n / 2)
    ensures Sound(c.flags, c.fixed, c.pair, n / 2) && Inverse(c.flags, c.fixed, c.pair, c.deprived, n / 2)
  {
    hide Sound, Inverse, Clean, Leaves, AllUsed;
    c := new Checker(seq(n, i => false));
    AllGood(c.flags, 0, n - 1);
    AllCounted(c.flags, n);
    o := c.Fixing();
  }

  /** A good segment in front of a bad one becomes its own partner. */
  method OwnPartner() returns (c: Checker, o: Outcome)
    ensures c.flags == [false, true] && o == Done(1) && |c.pair| == 2 && c.pair[0] == Origin(0)
  {
    c := new Checker([false, true]);
    SmallScans();
    o := c.Fixing();
    assert !Behind(c.flags, 0);
    assert Origin(0) == 0;
  }

  /** With the only good segment taken as a replacement the scan for a partner leaves the array. */
  method LeavesTheArray() returns (c: Checker, o: Outcome)
    ensures c.flags == [true, false] && o == OutOfBounds
  {
    c := new Checker([true, false]);
    SmallScans();
    o := c.Fixing();
  }

  lemma SmallScans()
    ensures !Clean([false, true], 0, 1) && !Leaves([false, true], 0, 1) && Leaves([true, false], 0, 1)
  {
    var f, g := [false, true], [true, false];
    assert Down(f, 1) == Down(f, 0) == 0;
    assert !CleanPartner(f, 0, 1) && !LeavesPartner(f, 0, 1);
    assert Down(g, 1) == 1 && Down(g, 0) == Down(g, -1) == -1;
    assert LeavesPartner(g, 0, 0);
  }
}

/**
 The shape of a skip list as numbers: the tower heights in list order, position 0 being the
 header, and the position a link at some level leads to.
 */
module SkipHeights {

  /** The first position after p whose tower reaches level i, or the header. */
  ghost function Next(hs: seq<nat>, p: nat, i: nat): (n: nat)
    requires p < |hs|
    ensures n == 0 || p < n < |hs|
    decreases |hs| - p
  {
    if p + 1 == |hs| then 0 else if hs[p + 1] >= i then p + 1 else Next(hs, p + 1, i)
  }

  /** The greatest tower height, header excluded; 0 for an empty list. */
  ghost function Top(hs: seq<nat>): nat
  {
    if |hs| <= 1 then 0
    else if hs[|hs| - 1] > Top(hs[..|hs| - 1]) then hs[|hs| - 1] else Top(hs[..|hs| - 1])
  }

  ghost function InsertAt(hs: seq<nat>, p: nat, h: nat): seq<nat>
    requires p < |hs|
  {
    hs[..p + 1] + [h] + hs[p + 1..]
  }

  /** Positions after p move up by one when a tower is put at p + 1. */
  ghost function Shift(p: nat, n: nat): nat { if n > p then n + 1 else n }

  lemma {:induction false} NextIs(hs: seq<nat>, p: nat, i: nat, n: nat)
    requires p < n < |hs| && hs[n] >= i && forall q :: p < q < n ==> hs[q] < i
    ensures Next(hs, p, i) == n
    decreases n - p
  {
    if p + 1 < n { NextIs(hs, p + 1, i, n); }
  }

  lemma {:induction false} NextNone(hs: seq<nat>, p: nat, i: nat)
    requires p < |hs| && forall q :: p < q < |hs| ==> hs[q] < i
    ensures Next(hs, p, i) == 0
    decreases |hs| - p
  {
    if p + 1 < |hs| { NextNone(hs, p + 1, i); }
  }

  lemma {:induction false} NextSkips(hs: seq<nat>, p: nat, i: nat)
    requires p < |hs|
    ensures var n := Next(hs, p, i);
            && (n != 0 ==> hs[n] >= i)
            && (forall q :: p < q < |hs| && (n == 0 || q < n) ==> hs[q] < i)
    decreases |hs| - p
  {
    if p + 1 < |hs| { NextSkips(hs, p + 1, i); }
  }

  /** A link that passes over position p is the link p itself has. */
  lemma NextPassing(hs: seq<nat>, u: nat, p: nat, i: nat)
    requires u <= p < |hs|
    requires var n := Next(hs, u, i); n == 0 || n > p
    ensures Next(hs, p, i) == Next(hs, u, i)
  {
    NextSkips(hs, u, i);
    var n := Next(hs, u, i);
    if n == 0 { NextNone(hs, p, i); } else { NextIs(hs, p, i, n); }
  }

  lemma InsertAtIndex(hs: seq<nat>, p: nat, h: nat)
    requires p < |hs|
    ensures |InsertAt(hs, p, h)| == |hs| + 1
    ensures forall y :: 0 <= y <= |hs| ==>
      InsertAt(hs, p, h)[y] == if y <= p then hs[y] else if y == p + 1 then h else hs[y - 1]
  {
  }

  /** Links before, over and after a newly inserted tower. */
  lemma NextInsert(hs: seq<nat>, p: nat, h: nat, q: nat, i: nat)
    requires p < |hs| && q < |hs|
    ensures Shift(p, q) < |InsertAt(hs, p, h)|
    ensures var n := Next(hs, q, i);
            Next(InsertAt(hs, p, h), Shift(p, q), i) ==
            if q <= p && (n == 0 || n > p) && h >= i then p + 1 else Shift(p, n)
  {
    hide Next;
    var n := Next(hs, q, i);
    var hs' := InsertAt(hs, p, h);
    NextSkips(hs, q, i);
    InsertAtIndex(hs, p, h);
    if q <= p && (n == 0 || n > p) && h >= i {
      NextIs(hs', q, i, p + 1);
    } else if n == 0 {
      NextNone(hs', Shift(p, q), i);
    } else {
      NextIs(hs', Shift(p, q), i, Shift(p, n));
    }
  }

  /** The links of the new tower itself. */
  lemma NextInserted(hs: seq<nat>, p: nat, h: nat, i: nat)
    requires p < |hs|
    ensures Next(InsertAt(hs, p, h), p + 1, i) == Shift(p, Next(hs, p, i))
  {
    hide Next;
    var n := Next(hs, p, i);
    var hs' := InsertAt(hs, p, h);
    NextSkips(hs, p, i);
    InsertAtIndex(hs, p, h);
    if n == 0 { NextNone(hs', p + 1, i); } else { NextIs(hs', p + 1, i, n + 1); }
  }

  /** At each level exactly one link passes over the gap after p. */
  lemma PassingUnique(hs: seq<nat>, u: nat, q: nat, p: nat, i: nat)
    requires u <= p < |hs| && q <= p && hs[u] >= i && hs[q] >= i
    requires Next(hs, u, i) == 0 || Next(hs, u, i) > p
    ensures u == q || (q < u && 0 < Next(hs, q, i) <= p)
  {
    hide Next;
    NextSkips(hs, u, i);
    NextSkips(hs, q, i);
  }

  lemma {:induction false} TopBounds(hs: seq<nat>)
    ensures forall q :: 0 < q < |hs| ==> hs[q] <= Top(hs)
    ensures Top(hs) > 0 ==> exists q :: 0 < q < |hs| && hs[q] == Top(hs)
    decreases |hs|
  {
    if |hs| > 1 {
      var t := hs[..|hs| - 1];
      TopBounds(t);
      if Top(hs) == hs[|hs| - 1] {
        assert hs[|hs| - 1] == Top(hs);
      } else {
        var q :| 0 < q < |t| && t[q] == Top(t);
        assert hs[q] == Top(hs);
      }
    }
  }

  lemma TopIs(hs: seq<nat>, m: nat)
    requires forall q :: 0 < q < |hs| ==> hs[q] <= m
    requires m > 0 ==> exists q :: 0 < q < |hs| && hs[q] == m
    ensures Top(hs) == m
  {
    TopBounds(hs);
  }

  /** A level has a node exactly when it is not above the greatest height. */
  lemma LevelEmpty(hs: seq<nat>, i: nat)
    requires |hs| >= 1 && i > 0
    ensures Next(hs, 0, i) == 0 <==> i > Top(hs)
  {
    hide Next, Top;
    TopBounds(hs);
    NextSkips(hs, 0, i);
    if Next(hs, 0, i) != 0 { assert hs[Next(hs, 0, i)] >= i; }
  }

  lemma TopInsert(hs: seq<nat>, p: nat, h: nat)
    requires p < |hs|
    ensures Top(InsertAt(hs, p, h)) == if h > Top(hs) then h else Top(hs)
  {
    hide Top;
    var hs' := InsertAt(hs, p, h);
    TopBounds(hs);
    InsertAtIndex(hs, p, h);
    assert hs'[p + 1] == h;
    if h > Top(hs) {
      TopIs(hs', h);
    } else {
      if Top(hs) > 0 {
        var q :| 0 < q < |hs| && hs[q] == Top(hs);
        assert hs'[Shift(p, q)] == Top(hs);
      }
      TopIs(hs', Top(hs));
    }
  }

  // ---------------------------------------------------------------- cutting a list in two

  /** The heights up to and including position t, behind a header of their own. */
  ghost function Front(hs: seq<nat>, t: nat): seq<nat>
    requires t < |hs|
  {
    hs[..t + 1]
  }

  ghost function Back(hs: seq<nat>, t: nat): seq<nat>
    requires t < |hs|
  {
    [hs[0]] + hs[t + 1..]
  }

  lemma NextFront(hs: seq<nat>, t: nat, q: nat, i: nat)
    requires q <= t < |hs|
    ensures Next(Front(hs, t), q, i) == if Next(hs, q, i) <= t then Next(hs, q, i) else 0
  {
    hide Next;
    NextSkips(hs, q, i);
    var n := Next(hs, q, i);
    if n == 0 || n > t { NextNone(Front(hs, t), q, i); } else { NextIs(Front(hs, t), q, i, n); }
  }

  lemma NextBack(hs: seq<nat>, t: nat, q: nat, i: nat)
    requires t <= q < |hs|
    ensures q - t < |Back(hs, t)|
    ensures Next(Back(hs, t), q - t, i) == if Next(hs, q, i) == 0 then 0 else Next(hs, q, i) - t
  {
    hide Next;
    var b := Back(hs, t);
    NextSkips(hs, q, i);
    var n := Next(hs, q, i);
    assert forall y :: 0 < y < |b| ==> b[y] == hs[y + t];
    if n == 0 { NextNone(b, q - t, i); } else { NextIs(b, q - t, i, n - t); }
  }

  lemma TopSplit(hs: seq<nat>, t: nat)
    requires t < |hs|
    ensures Top(hs) == if Top(Front(hs, t)) > Top(Back(hs, t)) then Top(Front(hs, t)) else Top(Back(hs, t))
  {
    hide Top;
    var f, b := Front(hs, t), Back(hs, t);
    TopBounds(f);
    TopBounds(b);
    assert forall y :: 0 < y < |b| ==> b[y] == hs[y + t];
    assert forall q :: t < q < |hs| ==> hs[q] == b[q - t];
    if Top(f) > Top(b) {
      var q :| 0 < q < |f| && f[q] == Top(f);
      assert hs[q] == Top(f);
      TopIs(hs, Top(f));
    } else {
      if Top(b) > 0 {
        var q :| 0 < q < |b| && b[q] == Top(b);
        assert hs[q + t] == Top(b);
      }
      TopIs(hs, Top(b));
    }
  }
}

/**
 Well-formed links of a skip list, as a relation between nodes, their link arrays and the tower
 heights, and how insertion, removal and division change it.
 */
module SkipGraph {
  import opened Sequences
  import opened KeyOrder
  import opened SkipHeights
  import opened SortedKeys

  const MAX_L := 30
  /** The highest level getLevel can return, and the highest link of the header in use. */
  const TOP := 29

  class Node {
    const key: Key
    var value: Val
    const level: nat
    var list: seq<Node>   // list[0] is unused

    constructor (key: Key, value: Val, level: nat, list: seq<Node>)
      ensures this.key == key && this.value == value && this.level == level && this.list == list
    {
      this.key, this.value, this.level, this.list := key, value, level, list;
    }
  }

  type Lists = seq<seq<Node>>

  /** The heights of a list: the header counts as a full tower. */
  ghost predicate HeightsOk(hs: seq<nat>) {
    |hs| >= 1 && hs[0] == TOP && forall p :: 0 < p < |hs| ==> 1 <= hs[p] <= TOP
  }

  /** The node at position p points, at each of its levels, to the next node that reaches the level. */
  ghost predicate NodeLinks(nodes: seq<Node>, list: seq<Node>, hs: seq<nat>, p: nat)
    requires p < |hs| == |nodes|
  {
    |list| == hs[p] + 1 && forall i :: 1 <= i <= hs[p] ==> list[i] == nodes[Next(hs, p, i)]
  }

  ghost predicate Graph(nodes: seq<Node>, lists: Lists, hs: seq<nat>) {
    && |nodes| == |lists| == |hs| && HeightsOk(hs) && NoDup(nodes)
    && forall p :: 0 <= p < |hs| ==> NodeLinks(nodes, lists[p], hs, p)
  }

  /** For each level up to n, the node whose link passes over the gap after position p. */
  ghost predicate Passing(hs: seq<nat>, us: seq<nat>, p: nat, n: nat)
    requires p < |hs|
  {
    |us| > n && forall i :: 1 <= i <= n ==> PassesOver(hs, us[i], p, i)
  }

  ghost predicate PassesOver(hs: seq<nat>, u: nat, p: nat, i: nat)
    requires p < |hs|
  {
    u <= p && hs[u] >= i && (Next(hs, u, i) == 0 || Next(hs, u, i) > p)
  }

  // ---------------------------------------------------------------- insertion

  /** The link arrays once the new node has been spliced in at every level of its tower. */
  ghost predicate Spliced(lists: Lists, lists': Lists, us: seq<nat>, h: nat, x: Node)
    requires |us| >= h + 1
  {
    && |lists'| == |lists|
    && forall q :: 0 <= q < |lists| ==>
         && |lists'[q]| == |lists[q]|
         && forall i :: 0 <= i < |lists[q]| ==> lists'[q][i] == if 1 <= i <= h && us[i] == q then x else lists[q][i]
  }

  /** The inherited links of the new node. */
  ghost predicate Inherits(lists: Lists, us: seq<nat>, h: nat, xl: seq<Node>)
    requires |us| > h
  {
    |xl| == h + 1 && forall i :: 1 <= i <= h && us[i] < |lists| && i < |lists[us[i]]| ==> xl[i] == lists[us[i]][i]
  }

  lemma InsertLinks(nodes: seq<Node>, lists: Lists, hs: seq<nat>, p: nat, h: nat, us: seq<nat>,
                    x: Node, xl: seq<Node>, lists': Lists)
    requires Graph(nodes, lists, hs) && p < |hs| && 1 <= h <= TOP && Passing(hs, us, p, h)
    requires x !in nodes && Spliced(lists, lists', us, h, x) && Inherits(lists, us, h, xl)
    ensures Graph(Insert(nodes, p + 1, x), Insert(lists', p + 1, xl), InsertAt(hs, p, h))
  {
    hide Next, NoDup, Passing, Inherits;
    var nodes', all', hs' := Insert(nodes, p + 1, x), Insert(lists', p + 1, xl), InsertAt(hs, p, h);
    InsertIndex(nodes, p + 1, x);
    InsertIndex(lists', p + 1, xl);
    InsertAtIndex(hs, p, h);
    InsertDistinct(nodes, p + 1, x);
    forall q' | 0 <= q' < |hs'| ensures NodeLinks(nodes', all'[q'], hs', q') {
      if q' == p + 1 {
        OwnLinks(nodes, lists, hs, p, h, us, x, xl);
      } else {
        var q := if q' <= p then q' else q' - 1;
        assert NodeLinks(nodes, lists[q], hs, q);
        InsertedNode(nodes, lists, hs, p, h, us, x, lists', q);
      }
    }
  }

  lemma OwnLinks(nodes: seq<Node>, lists: Lists, hs: seq<nat>, p: nat, h: nat, us: seq<nat>, x: Node, xl: seq<Node>)
    requires Graph(nodes, lists, hs) && p < |hs| && 1 <= h <= TOP && Passing(hs, us, p, h) && Inherits(lists, us, h, xl)
    ensures |InsertAt(hs, p, h)| == |Insert(nodes, p + 1, x)| == |hs| + 1
    ensures NodeLinks(Insert(nodes, p + 1, x), xl, InsertAt(hs, p, h), p + 1)
  {
    hide Next, NoDup, Insert;
    InsertIndex(nodes, p + 1, x);
    InsertAtIndex(hs, p, h);
    forall i | 1 <= i <= h ensures xl[i] == Insert(nodes, p + 1, x)[Next(InsertAt(hs, p, h), p + 1, i)] {
      assert PassesOver(hs, us[i], p, i);
      assert NodeLinks(nodes, lists[us[i]], hs, us[i]);
      OwnLink(nodes, lists, hs, p, h, us[i], x, i);
    }
  }

  lemma InsertedNode(nodes: seq<Node>, lists: Lists, hs: seq<nat>, p: nat, h: nat, us: seq<nat>,
                     x: Node, lists': Lists, q: nat)
    requires |nodes| == |lists| == |hs| == |lists'| && p < |hs| && 1 <= h && Passing(hs, us, p, h)
    requires Spliced(lists, lists', us, h, x) && q < |hs| && NodeLinks(nodes, lists[q], hs, q)
    ensures |InsertAt(hs, p, h)| == |Insert(nodes, p + 1, x)| == |hs| + 1
    ensures NodeLinks(Insert(nodes, p + 1, x), lists'[q], InsertAt(hs, p, h), Shift(p, q))
  {
    hide Next, Passing, Insert;
    InsertIndex(nodes, p + 1, x);
    InsertAtIndex(hs, p, h);
    assert |lists'[q]| == hs[q] + 1;
    forall i | 1 <= i <= hs[q]
      ensures lists'[q][i] == Insert(nodes, p + 1, x)[Next(InsertAt(hs, p, h), Shift(p, q), i)]
    {
      InsertedLink(nodes, lists, hs, p, h, us, x, lists', q, i);
    }
  }

  /** The new node inherits the link that passed over its place. */
  lemma OwnLink(nodes: seq<Node>, lists: Lists, hs: seq<nat>, p: nat, h: nat, u: nat, x: Node, i: nat)
    requires |nodes| == |lists| == |hs| && p < |hs| && PassesOver(hs, u, p, i)
    requires NodeLinks(nodes, lists[u], hs, u) && 1 <= i
    ensures var n := Next(InsertAt(hs, p, h), p + 1, i);
            n < |Insert(nodes, p + 1, x)| && lists[u][i] == Insert(nodes, p + 1, x)[n]
  {
    NextPassing(hs, u, p, i);
    NextInserted(hs, p, h, i);
    InsertIndex(nodes, p + 1, x);
    hide Next, Insert, InsertAt;
  }

  lemma InsertDistinct(nodes: seq<Node>, p: nat, x: Node)
    requires NoDup(nodes) && p <= |nodes| && x !in nodes
    ensures NoDup(Insert(nodes, p, x))
  {
    InsertIndex(nodes, p, x);
  }

  lemma InsertedLink(nodes: seq<Node>, lists: Lists, hs: seq<nat>, p: nat, h: nat, us: seq<nat>,
                     x: Node, lists': Lists, q: nat, i: nat)
    requires |nodes| == |lists| == |hs| && p < |hs| && 1 <= h && Passing(hs, us, p, h)
    requires Spliced(lists, lists', us, h, x) && q < |hs| && NodeLinks(nodes, lists[q], hs, q) && 1 <= i <= hs[q]
    ensures var q' := Shift(p, q); var hs' := InsertAt(hs, p, h);
            q' < |hs'| && Next(hs', q', i) < |Insert(nodes, p + 1, x)| &&
            lists'[q][i] == Insert(nodes, p + 1, x)[Next(hs', q', i)]
  {
    hide Next;
    InsertIndex(nodes, p + 1, x);
    NextInsert(hs, p, h, q, i);
    InsertAtIndex(hs, p, h);
    if i <= h {
      assert PassesOver(hs, us[i], p, i);
      if q <= p { PassingUnique(hs, us[i], q, p, i); }
    }
  }

  // ---------------------------------------------------------------- removal

  /** The link arrays once the node at position r, of height h, has been unlinked at the levels above lo. */
  ghost predicate Unlinked(lists: Lists, lists': Lists, us: seq<nat>, r: nat, lo: nat, h: nat)
    requires r < |lists| && |lists[r]| == h + 1 && |us| >= h + 1
  {
    && |lists'| == |lists|
    && forall q :: 0 <= q < |lists| ==>
         && |lists'[q]| == |lists[q]|
         && forall i :: 0 <= i < |lists[q]| ==>
           lists'[q][i] == if lo < i <= h && us[i] == q then lists[r][i] else lists[q][i]
  }

  lemma UnlinkStep(lists: Lists, now: Lists, us: seq<nat>, r: nat, i: nat, h: nat)
    requires r < |lists| && |lists[r]| == h + 1 && |us| >= h + 1 && 1 <= i <= h
    requires Unlinked(lists, now, us, r, i, h) && us[i] < |lists| && i < |lists[us[i]]|
    ensures us[i] < |now| && i < |now[us[i]]|
    ensures Unlinked(lists, now[us[i] := now[us[i]][i := lists[r][i]]], us, r, i - 1, h)
  {
  }

  lemma RemoveInsert(hs: seq<nat>, p: nat)
    requires p + 1 < |hs|
    ensures p < |DropAt(hs, p + 1)| && InsertAt(DropAt(hs, p + 1), p, hs[p + 1]) == hs
  {
  }

  /** Links of the other towers after the one at p + 1 is gone. */
  lemma NextRemoved(hs: seq<nat>, p: nat, q: nat, i: nat)
    requires p + 1 < |hs| && q < |hs| && q != p + 1
    ensures var n := Next(hs, q, i); var m := if n == p + 1 then Next(hs, p + 1, i) else n;
            && m != p + 1 && Unshift(p, q) < |DropAt(hs, p + 1)|
            && Next(DropAt(hs, p + 1), Unshift(p, q), i) == Unshift(p, m)
  {
    hide Next;
    var hs0 := DropAt(hs, p + 1);
    RemoveInsert(hs, p);
    NextInsert(hs0, p, hs[p + 1], Unshift(p, q), i);
    NextInserted(hs0, p, hs[p + 1], i);
    if Next(hs, q, i) == p + 1 {
      NextSkips(hs, q, i);
      NextPassing(hs0, Unshift(p, q), p, i);
    }
  }

  ghost function Unshift(p: nat, n: nat): nat { if n > p + 1 then n - 1 else n }

  /** At the levels of the tower at p + 1, only the recorded position links to it. */
  lemma LinksTo(hs: seq<nat>, p: nat, u: nat, q: nat, i: nat)
    requires p + 1 < |hs| && PassesOver(hs, u, p, i) && q < |hs| && q != p + 1 && hs[q] >= i && hs[p + 1] >= i
    ensures Next(hs, q, i) == p + 1 <==> q == u
  {
    hide Next;
    NextSkips(hs, u, i);
    NextSkips(hs, q, i);
  }

  lemma RemovedLink(nodes: seq<Node>, lists: Lists, hs: seq<nat>, p: nat, us: seq<nat>, lists': Lists, q: nat, i: nat)
    requires |nodes| == |lists| == |hs| && p + 1 < |hs| && Passing(hs, us, p, hs[p + 1])
    requires NodeLinks(nodes, lists[p + 1], hs, p + 1) && Unlinked(lists, lists', us, p + 1, 0, hs[p + 1])
    requires q < |hs| && q != p + 1 && 1 <= i <= hs[q] && NodeLinks(nodes, lists[q], hs, q)
    ensures var m := if Next(hs, q, i) == p + 1 then Next(hs, p + 1, i) else Next(hs, q, i);
            |lists'[q]| == hs[q] + 1 && lists'[q][i] == nodes[m]
  {
    hide Next, PassesOver;
    if i <= hs[p + 1] { LinksTo(hs, p, us[i], q, i); } else { NextSkips(hs, q, i); }
  }

  lemma RemovedNode(nodes: seq<Node>, lists: Lists, hs: seq<nat>, p: nat, us: seq<nat>, lists': Lists, q: nat)
    requires |nodes| == |lists| == |hs| && p + 1 < |hs| && Passing(hs, us, p, hs[p + 1])
    requires NodeLinks(nodes, lists[p + 1], hs, p + 1) && Unlinked(lists, lists', us, p + 1, 0, hs[p + 1])
    requires q < |hs| == |lists'| && q != p + 1 && 1 <= hs[q] && NodeLinks(nodes, lists[q], hs, q)
    ensures Unshift(p, q) < |DropAt(hs, p + 1)| == |DropAt(nodes, p + 1)|
    ensures NodeLinks(DropAt(nodes, p + 1), lists'[q], DropAt(hs, p + 1), Unshift(p, q))
  {
    hide Next, Unlinked, Passing;
    DropAtIs(nodes, p + 1);
    DropAtIs(hs, p + 1);
    RemovedLink(nodes, lists, hs, p, us, lists', q, 1);
    forall i | 1 <= i <= hs[q] ensures lists'[q][i] == DropAt(nodes, p + 1)[Next(DropAt(hs, p + 1), Unshift(p, q), i)] {
      RemovedLink(nodes, lists, hs, p, us, lists', q, i);
      NextRemoved(hs, p, q, i);
    }
  }

  lemma RemoveLinks(nodes: seq<Node>, lists: Lists, hs: seq<nat>, p: nat, us: seq<nat>, lists': Lists)
    requires Graph(nodes, lists, hs) && p + 1 < |hs| && Passing(hs, us, p, hs[p + 1])
    requires |lists[p + 1]| == hs[p + 1] + 1 && Unlinked(lists, lists', us, p + 1, 0, hs[p + 1])
    ensures Graph(DropAt(nodes, p + 1), DropAt(lists', p + 1), DropAt(hs, p + 1))
  {
    hide Next, NoDup, Passing;
    var nodes0, lists0, hs0 := DropAt(nodes, p + 1), DropAt(lists', p + 1), DropAt(hs, p + 1);
    DropAtIs(nodes, p + 1);
    DropAtIs(lists', p + 1);
    DropAtIs(hs, p + 1);
    DropAtNoDup(nodes, p + 1);
    forall q0 | 0 <= q0 < |hs0| ensures NodeLinks(nodes0, lists0[q0], hs0, q0) {
      var q := if q0 <= p then q0 else q0 + 1;
      assert NodeLinks(nodes, lists[q], hs, q) && NodeLinks(nodes, lists[p + 1], hs, p + 1);
      RemovedNode(nodes, lists, hs, p, us, lists', q);
    }
  }

  // ---------------------------------------------------------------- division after position t

  /** The link at level i of a node up to position t: kept inside the front part, else to its new header. */
  ghost function FrontLink(nodes: seq<Node>, hs: seq<nat>, t: nat, r: Node, q: nat, i: nat): Node
    requires t < |hs| == |nodes| && q < |hs|
  {
    if 1 <= Next(hs, q, i) <= t then nodes[Next(hs, q, i)] else r
  }

  /** Level i of all link arrays after the division. */
  ghost predicate CutLevel(nodes: seq<Node>, lists': Lists, rl: seq<Node>, hs: seq<nat>, t: nat, r: Node, i: nat)
    requires t < |hs| == |nodes| == |lists'|
  {
    && i < |rl| && rl[i] == FrontLink(nodes, hs, t, r, 0, i)
    && i < |lists'[0]| && lists'[0][i] == nodes[Next(hs, t, i)]
    && (forall q :: 0 < q <= t && hs[q] >= i ==> i < |lists'[q]| && lists'[q][i] == FrontLink(nodes, hs, t, r, q, i))
    && (forall q :: t < q < |hs| && hs[q] >= i ==> i < |lists'[q]| && lists'[q][i] == nodes[Next(hs, q, i)])
  }

  ghost function FrontNodes<T>(xs: seq<T>, t: nat, x: T): seq<T>
    requires t < |xs|
  {
    [x] + xs[1..t + 1]
  }

  ghost function BackNodes<T>(xs: seq<T>, t: nat): seq<T>
    requires t < |xs|
  {
    [xs[0]] + xs[t + 1..]
  }

  lemma DivideFront(nodes: seq<Node>, lists': Lists, rl: seq<Node>, hs: seq<nat>, t: nat, r: Node)
    requires |nodes| == |lists'| == |hs| && 0 < t < |hs| && HeightsOk(hs) && NoDup(nodes) && r !in nodes
    requires |rl| == TOP + 1 && forall q :: 0 <= q < |hs| ==> |lists'[q]| == hs[q] + 1
    requires forall i :: 1 <= i <= TOP ==> CutLevel(nodes, lists', rl, hs, t, r, i)
    ensures Graph(FrontNodes(nodes, t, r), FrontNodes(lists', t, rl), Front(hs, t))
  {
    hide Next;
    var nodes', all, hs' := FrontNodes(nodes, t, r), FrontNodes(lists', t, rl), Front(hs, t);
    assert forall q :: 0 < q <= t ==> nodes'[q] == nodes[q] && all[q] == lists'[q] && hs'[q] == hs[q];
    forall q | 0 <= q < |hs'| ensures NodeLinks(nodes', all[q], hs', q) {
      forall i | 1 <= i <= hs'[q] ensures all[q][i] == nodes'[Next(hs', q, i)] {
        assert CutLevel(nodes, lists', rl, hs, t, r, i);
        NextFront(hs, t, q, i);
      }
    }
  }

  lemma DivideBack(nodes: seq<Node>, lists': Lists, rl: seq<Node>, hs: seq<nat>, t: nat, r: Node)
    requires |nodes| == |lists'| == |hs| && 0 < t < |hs| && HeightsOk(hs) && NoDup(nodes)
    requires forall q :: 0 <= q < |hs| ==> |lists'[q]| == hs[q] + 1
    requires forall i :: 1 <= i <= TOP ==> CutLevel(nodes, lists', rl, hs, t, r, i)
    ensures Graph(BackNodes(nodes, t), BackNodes(lists', t), Back(hs, t))
  {
    hide Next;
    var nodes', all, hs' := BackNodes(nodes, t), BackNodes(lists', t), Back(hs, t);
    assert forall q :: 0 < q < |hs'| ==> nodes'[q] == nodes[q + t] && all[q] == lists'[q + t] && hs'[q] == hs[q + t];
    forall q | 0 <= q < |hs'| ensures NodeLinks(nodes', all[q], hs', q) {
      forall i | 1 <= i <= hs'[q] ensures all[q][i] == nodes'[Next(hs', q, i)] {
        assert CutLevel(nodes, lists', rl, hs, t, r, i);
        NextBack(hs, t, q + t, i);
      }
    }
  }

  /** The levels above i are cut, the others are as before. */
  ghost predicate CutDown(nodes: seq<Node>, ls: Lists, lists': Lists, rl: seq<Node>, hs: seq<nat>, t: nat, r: Node,
                          i: nat)
    requires t < |hs| == |nodes| == |ls| == |lists'|
  {
    && |rl| == TOP + 1 && (forall q :: 0 <= q < |ls| ==> |lists'[q]| == |ls[q]|)
    && (forall j :: i < j <= TOP ==> CutLevel(nodes, lists', rl, hs, t, r, j))
    && (forall j :: 1 <= j <= i && j < |rl| ==> rl[j] == r)
    && (forall q, j :: 0 <= q < |ls| && 0 <= j <= i && j < |ls[q]| ==> lists'[q][j] == ls[q][j])
  }

  /** Nothing is cut yet, and the levels above the highest tower need no cut. */
  lemma CutStart(nodes: seq<Node>, ls: Lists, rl: seq<Node>, hs: seq<nat>, t: nat, r: Node)
    requires Graph(nodes, ls, hs) && 0 < t < |hs|
    requires |rl| == TOP + 1 && forall j :: 1 <= j <= TOP ==> rl[j] == r
    ensures CutDown(nodes, ls, ls, rl, hs, t, r, Top(hs))
  {
    hide Next, Top, NoDup;
    forall j | Top(hs) < j <= TOP ensures CutLevel(nodes, ls, rl, hs, t, r, j) {
      LevelEmpty(hs, j);
      NextPassing(hs, 0, t, j);
      TopBounds(hs);
      assert NodeLinks(nodes, ls[0], hs, 0);
    }
  }

  /** A level without a node up to position t needs no cut. */
  lemma CutNothing(nodes: seq<Node>, ls: Lists, lists': Lists, rl: seq<Node>, hs: seq<nat>, t: nat, r: Node, i: nat)
    requires Graph(nodes, ls, hs) && 0 < t < |hs| && |lists'| == |ls| && 1 <= i <= TOP
    requires CutDown(nodes, ls, lists', rl, hs, t, r, i) && PassesOver(hs, 0, t, i)
    ensures CutDown(nodes, ls, lists', rl, hs, t, r, i - 1)
  {
    hide Next, NoDup;
    NextPassing(hs, 0, t, i);
    NextSkips(hs, 0, i);
    assert NodeLinks(nodes, ls[0], hs, 0);
    forall q | t < q < |hs| && hs[q] >= i ensures i < |lists'[q]| && lists'[q][i] == nodes[Next(hs, q, i)] {
      assert NodeLinks(nodes, ls[q], hs, q);
    }
    assert CutLevel(nodes, lists', rl, hs, t, r, i);
  }

  /** The three assignments that cut level i behind the node at position u. */
  ghost function Cut(lists': Lists, u: nat, r: Node, i: nat): Lists
    requires 0 < u < |lists'| && i < |lists'[0]| && i < |lists'[u]|
  {
    lists'[0 := lists'[0][i := lists'[u][i]]][u := lists'[u][i := r]]
  }

  lemma CutStep(nodes: seq<Node>, ls: Lists, lists': Lists, rl: seq<Node>, hs: seq<nat>, t: nat, r: Node, i: nat,
                u: nat)
    requires Graph(nodes, ls, hs) && 0 < t < |hs| && |lists'| == |ls| && 1 <= i <= TOP
    requires CutDown(nodes, ls, lists', rl, hs, t, r, i) && PassesOver(hs, u, t, i) && u > 0
    ensures i < |lists'[0]| && i < |lists'[u]|
    ensures CutDown(nodes, ls, Cut(lists', u, r, i), rl[i := lists'[0][i]], hs, t, r, i - 1)
  {
    hide Next, NoDup;
    assert NodeLinks(nodes, ls[0], hs, 0) && NodeLinks(nodes, ls[u], hs, u);
    var ls2, rl2 := Cut(lists', u, r, i), rl[i := lists'[0][i]];
    forall j | i < j <= TOP ensures CutLevel(nodes, ls2, rl2, hs, t, r, j) {
      assert CutLevel(nodes, lists', rl, hs, t, r, j);
    }
    CutThis(nodes, ls, lists', rl, hs, t, r, i, u);
  }

  lemma CutThis(nodes: seq<Node>, ls: Lists, lists': Lists, rl: seq<Node>, hs: seq<nat>, t: nat, r: Node, i: nat,
                u: nat)
    requires Graph(nodes, ls, hs) && 0 < t < |hs| && |lists'| == |ls| && 1 <= i <= TOP && |rl| == TOP + 1
    requires forall q :: 0 <= q < |ls| ==> |lists'[q]| == |ls[q]|
    requires forall q, j :: 0 <= q < |ls| && 0 <= j <= i && j < |ls[q]| ==> lists'[q][j] == ls[q][j]
    requires PassesOver(hs, u, t, i) && u > 0 && i < |lists'[0]| && i < |lists'[u]|
    ensures CutLevel(nodes, Cut(lists', u, r, i), rl[i := lists'[0][i]], hs, t, r, i)
  {
    hide Next, NoDup;
    assert NodeLinks(nodes, ls[0], hs, 0) && NodeLinks(nodes, ls[u], hs, u);
    NextPassing(hs, u, t, i);
    PassingUnique(hs, u, 0, t, i);
    forall q | 0 < q < |hs| && hs[q] >= i
      ensures i < |ls[q]| && ls[q][i] == nodes[Next(hs, q, i)] && (q <= t && q != u ==> 0 < Next(hs, q, i) <= t)
    {
      assert NodeLinks(nodes, ls[q], hs, q);
      if q <= t { PassingUnique(hs, u, q, t, i); }
    }
  }

  /** Which of the two parts still has a node at level i. */
  lemma CutTops(hs: seq<nat>, t: nat, i: nat, u: nat)
    requires 0 < t < |hs| && 1 <= i && PassesOver(hs, u, t, i) && hs[0] >= i
    ensures u == 0 <==> i > Top(Front(hs, t))
    ensures Next(hs, t, i) == 0 <==> i > Top(Back(hs, t))
  {
    hide Next, Top;
    NextFront(hs, t, 0, i);
    LevelEmpty(Front(hs, t), i);
    NextBack(hs, t, t, i);
    LevelEmpty(Back(hs, t), i);
    PassingUnique(hs, u, 0, t, i);
  }
}

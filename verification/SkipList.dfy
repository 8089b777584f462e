/**
 The skip list of algorithm/Lsmtree/skiplist.c: towers of forward pointers, circular through a
 header whose key is the key_max sentinel.  Every operation is proved against the sorted finite
 map the list stands for.
 */
module SkipList {
  import opened Sequences
  import opened KeyOrder
  import opened SkipHeights
  import opened SortedKeys
  import opened SkipGraph

  class List {
    var level: nat
    var size: nat
    var allLength: nat
    var header: Node
    // the nodes in list order behind the header, with their link arrays, heights and contents
    ghost var nodes: seq<Node>
    ghost var lists: Lists
    ghost var hs: seq<nat>
    ghost var keys: seq<Key>
    ghost var vals: seq<Val>

    /** The recorded shape and contents are those of the nodes. */
    ghost predicate Recorded()
      reads this, nodes
    {
      && |nodes| == |lists| == |hs| == |keys| + 1 == |vals| + 1 && nodes[0] == header
      && header.key == KEY_MAX
      && Stored(nodes, lists) && Held(nodes, hs, keys, vals)
    }

    /** The recorded link arrays are those of the nodes. */
    static ghost predicate Stored(nodes: seq<Node>, lists: Lists)
      requires |nodes| == |lists|
      reads (set n | n in nodes)`list
    {
      forall p :: 0 <= p < |nodes| ==> nodes[p].list == lists[p]
    }

    /** Keys, values and heights are those of the nodes behind the header. */
    static ghost predicate Held(nodes: seq<Node>, hs: seq<nat>, keys: seq<Key>, vals: seq<Val>)
      requires |nodes| == |hs| == |keys| + 1 == |vals| + 1
      reads (set n | n in nodes)`value
    {
      forall p :: 0 < p < |nodes| ==>
           nodes[p].level == hs[p] && nodes[p].key == keys[p - 1] && nodes[p].value == vals[p - 1]
    }

    /** A well-linked list, except that `size` may lag behind. */
    ghost predicate Linked()
      reads this, nodes
    {
      && Recorded() && Graph(nodes, lists, hs) && Sorted(keys)
      && (if keys == [] then level <= 1 else level == Top(hs))
    }

    ghost predicate Valid()
      reads this, nodes
    {
      Linked() && size == |keys|
    }

    ghost function Map(): map<Key, Val>
      requires |keys| == |vals|
      reads this
    {
      ToMap(keys, vals)
    }

    constructor ()
      ensures Valid() && fresh(nodes) && fresh(header) && nodes == [header] && keys == [] == vals
      ensures size == allLength == 0 && Map() == map[]
    {
      level, size, allLength := 1, 0, 0;
      var h := new Node(KEY_MAX, [], 0, []);
      header := h;
      nodes, hs, keys, vals := [h], [TOP], [], [];
      new;
      header.list := seq(MAX_L, i => h);
      lists := [header.list];
    }

    /** Right along level i while the next key is smaller. */
    method Right(x0: Node, i: nat, key: Key, ghost p0: nat) returns (x: Node, ghost p: nat)
      requires Linked() && p0 < |nodes| && x0 == nodes[p0] && 1 <= i <= hs[p0] && (p0 > 0 ==> Less(keys[p0 - 1], key))
      ensures p0 <= p < |nodes| && x == nodes[p] && i <= hs[p] && (p > 0 ==> Less(keys[p - 1], key))
      ensures Stops(p, i, key)
    {
      hide Next, Less, HeightsOk, NoDup, Sorted, Top, KeyCmp;
      x, p := x0, p0;
      while KeyCmp(x.list[i].key, key) < 0
        invariant p0 <= p < |nodes| && x == nodes[p] && i <= hs[p] && NodeLinks(nodes, lists[p], hs, p)
        invariant p > 0 ==> Less(keys[p - 1], key)
        decreases |nodes| - p
      {
        LinkBelow(p, i, key);
        x := x.list[i];
        p := Next(hs, p, i);
      }
      LinkAbove(p, i, key);
    }

    /** A link to a smaller key does not lead back to the header. */
    lemma LinkBelow(p: nat, i: nat, key: Key)
      requires Linked() && p < |nodes| && 1 <= i <= hs[p] && |nodes[p].list| == hs[p] + 1
      requires NodeLinks(nodes, lists[p], hs, p) && KeyCmp(nodes[p].list[i].key, key) < 0
      ensures var n := Next(hs, p, i); n > p && hs[n] >= i && nodes[p].list[i] == nodes[n] && Less(keys[n - 1], key)
      ensures NodeLinks(nodes, lists[Next(hs, p, i)], hs, Next(hs, p, i))
    {
      hide Next, Graph, Sorted, Top, Stored, Held, KeyCmp;
      LinkAt(p, i);
      KeyMaxIsGreatest(key);
      KeyCmpTotalOrder(KEY_MAX, key, KEY_MAX);
      LessIs(keys, key, Next(hs, p, i));
    }

    static lemma LessIs(keys: seq<Key>, key: Key, n: nat)
      ensures 0 < n <= |keys| ==> (Less(keys[n - 1], key) <==> KeyCmp(keys[n - 1], key) < 0)
    {
    }

    /** Where a link leads and what key is found there. */
    lemma LinkAt(p: nat, i: nat)
      requires Linked() && p < |nodes| && 1 <= i <= hs[p] && |nodes[p].list| == hs[p] + 1
      requires NodeLinks(nodes, lists[p], hs, p)
      ensures var n := Next(hs, p, i);
              && n < |nodes| == |lists| == |hs| == |keys| + 1 && (n > p || n == 0) && (n > 0 ==> hs[n] >= i)
              && nodes[p].list[i] == nodes[n] && nodes[n].key == (if n == 0 then KEY_MAX else keys[n - 1])
              && NodeLinks(nodes, lists[n], hs, n)
    {
      hide Next, NoDup, Sorted, Top;
      NextSkips(hs, p, i);
    }

    lemma LinkAbove(p: nat, i: nat, key: Key)
      requires Linked() && p < |nodes| && 1 <= i <= hs[p] && |nodes[p].list| == hs[p] + 1
      requires NodeLinks(nodes, lists[p], hs, p) && KeyCmp(nodes[p].list[i].key, key) >= 0
      ensures Stops(p, i, key)
    {
      hide Next, NoDup, Sorted, Top;
    }

    /** The descent all operations share: from the top level down, right while the key is smaller. */
    method Descend(key: Key) returns (x: Node, update: seq<Node>, ghost p: nat, ghost us: seq<nat>)
      requires Linked()
      ensures p < |nodes| && x == nodes[p] && IsRank(keys, key, p)
      ensures |update| == |us| == TOP + 1 && level <= TOP
      ensures Passing(hs, us, p, level) && Points(update, us, level, nodes, lists)
    {
      var h := header;
      x, p := h, 0;
      update := seq(TOP + 1, i => h);
      us := seq(TOP + 1, i => 0);
      LevelBound();
      assert hs[0] == TOP;
      hide Next, Less, Graph, Sorted, Top, IsRank;
      var i := level;
      while i >= 1
        invariant 0 <= i <= level <= TOP
        invariant p < |nodes| && x == nodes[p] && hs[p] >= i && (p > 0 ==> Less(keys[p - 1], key))
        invariant |update| == |us| == TOP + 1
        invariant forall j :: i < j <= level ==>
          us[j] <= p && hs[us[j]] >= j && update[j] == nodes[us[j]] && Stops(us[j], j, key)
        invariant i == 0 && level > 0 ==> Stops(p, 1, key)
      {
        x, p := Right(x, i, key, p);
        update := update[i := x];
        us := us[i := p];
        i := i - 1;
      }
      forall j | 1 <= j <= level ensures PassesOver(hs, us[j], p, j) && j < |lists[us[j]]| {
        StopsPass(us[j], p, j, key);
      }
      RankOf(p, key);
    }

    lemma StopsPass(u: nat, p: nat, j: nat, key: Key)
      requires Linked() && u <= p < |nodes| && hs[u] >= j && Stops(u, j, key) && (p > 0 ==> Less(keys[p - 1], key))
      ensures PassesOver(hs, u, p, j) && j < |lists[u]|
    {
      assert NodeLinks(nodes, lists[u], hs, u);
      hide Next, Graph, Top;
      var n := Next(hs, u, j);
      if 0 < n <= p { KeyCmpTotalOrder(keys[n - 1], keys[p - 1], key); }
    }

    lemma RankOf(p: nat, key: Key)
      requires Linked() && p < |nodes| && (p > 0 ==> Less(keys[p - 1], key)) && (level > 0 ==> Stops(p, 1, key))
      ensures IsRank(keys, key, p)
    {
      LevelBound();
      if p + 1 < |nodes| { NextIs(hs, p, 1, p + 1); }
    }

    /** The next node at this level is not below the key. */
    ghost predicate Stops(p: nat, i: nat, key: Key)
      requires p < |nodes| == |hs| && |keys| + 1 == |nodes|
      reads this
    {
      Next(hs, p, i) == 0 || !Less(keys[Next(hs, p, i) - 1], key)
    }

    lemma LevelBound()
      requires Linked()
      ensures level <= TOP && (keys != [] ==> level >= 1)
    {
      TopBounds(hs);
    }

    /** The candidate at a rank: the node there, or the header at the end of the list. */
    lemma Candidate(p: nat)
      requires Linked() && p < |nodes|
      ensures |nodes[p].list| > 1
      ensures nodes[p].list[1] == if p + 1 < |nodes| then nodes[p + 1] else header
      ensures nodes[p].list[1].key == if p + 1 < |nodes| then keys[p] else KEY_MAX
    {
      assert NodeLinks(nodes, lists[p], hs, p);
      if p + 1 < |nodes| { NextIs(hs, p, 1, p + 1); } else { NextNone(hs, p, 1); }
    }

    /** skiplist_find is the map lookup; only the sentinel itself is answered with the header. */
    method Find(key: Key) returns (r: Node?)
      requires Valid()
      ensures keys == [] ==> r == null
      ensures keys != [] && key == KEY_MAX ==> r == header
      ensures key != KEY_MAX ==> (r != null <==> key in Map())
      ensures key != KEY_MAX && r != null ==> r in nodes && r != header && r.key == key && r.value == Map()[key]
    {
      if size == 0 { return null; }
      var x, update, p, us := Descend(key);
      Candidate(p);
      RankSplits(keys, key, p);
      KeyMaxLast(key, p);
      KeyCmpIsLexicographic(x.list[1].key, key);
      hide Graph, KeyTest, Less, Sorted, Top, IsRank;
      if KeyTest(x.list[1].key, key) {
        r := x.list[1];
        if p < |keys| { ToMapAt(keys, vals, p); }
        return;
      }
      return null;
    }

    /** The rank of the sentinel is the end of the list. */
    lemma KeyMaxLast(key: Key, p: nat)
      requires Linked() && IsRank(keys, key, p)
      ensures key == KEY_MAX ==> p == |keys|
    {
      if key == KEY_MAX && p < |keys| { KeyMaxIsGreatest(keys[p]); }
    }

    /** update[i] is the node at position us[i], for the levels up to h. */
    static ghost predicate Points(update: seq<Node>, us: seq<nat>, h: nat, ns: seq<Node>, ls: Lists)
      requires |ns| == |ls|
    {
      |update| > h && |us| > h &&
      forall i :: 1 <= i <= h ==> us[i] < |ns| && update[i] == ns[us[i]] && i < |ls[us[i]]|
    }

    /** The loop that puts x behind update[i] at every level i of its tower.  The shape of the list before
        is given; the last thing done is to record the new link arrays. */
    method Splice(x: Node, update: seq<Node>, h: nat, ghost us: seq<nat>, ghost p: nat,
                  ghost ns: seq<Node>, ghost ls: Lists, ghost hs0: seq<nat>)
      requires Graph(ns, ls, hs0) && Stored(ns, ls) && p < |ns| && 1 <= h <= TOP && Passing(hs0, us, p, h)
      requires x !in ns && |x.list| == h + 1 && Points(update, us, h, ns, ls)
      modifies x`list, (set n | n in ns)`list, this`lists
      ensures |Insert(ns, p + 1, x)| == |lists| == |ns| + 1 && Insert(ns, p + 1, x)[0] == ns[0]
      ensures Graph(Insert(ns, p + 1, x), lists, InsertAt(hs0, p, h)) && Stored(Insert(ns, p + 1, x), lists)
    {
      hide PassesOver, NodeLinks, HeightsOk, InsertAt, Insert;
      ghost var lists': Lists := ls;
      var i := 1;
      while i <= h
        invariant 1 <= i <= h + 1 && |lists'| == |ls| && |x.list| == h + 1
        invariant Stored(ns, lists') && Spliced(ls, lists', us, i - 1, x)
        invariant forall j :: 1 <= j < i && j < |ls[us[j]]| ==> x.list[j] == ls[us[j]][j]
      {
        var u := update[i];
        x.list := x.list[i := u.list[i]];
        u.list := u.list[i := x];
        lists' := lists'[us[i] := lists'[us[i]][i := x]];
        i := i + 1;
      }
      InsertLinks(ns, ls, hs0, p, h, us, x, x.list, lists');
      lists := Insert(lists', p + 1, x.list);
      ListsInsert(ns, lists', x, p);
    }

    /** update[i] for the levels the list does not have yet is the header. */
    method GrowUpdate(update0: seq<Node>, h: nat, ghost us0: seq<nat>,
                      ghost p: nat) returns (update: seq<Node>, ghost us: seq<nat>)
      requires Linked() && p < |nodes| && 1 <= h <= TOP && |update0| == |us0| == TOP + 1
      requires level <= TOP && Passing(hs, us0, p, level) && Points(update0, us0, level, nodes, lists)
      ensures Passing(hs, us, p, h) && Points(update, us, h, nodes, lists)
    {
      update, us := update0, us0;
      var i := level + 1;
      while i <= h
        invariant level + 1 <= i && |update| == |us| == TOP + 1
        invariant forall j :: 1 <= j < i && j <= TOP && (j <= level || j <= h) ==>
          PassesOver(hs, us[j], p, j) && update[j] == nodes[us[j]]
      {
        EmptyLevel(i, p);
        update := update[i := header];
        us := us[i := 0];
        i := i + 1;
      }
      forall j | 1 <= j <= h ensures us[j] < |nodes| && update[j] == nodes[us[j]] && j < |lists[us[j]]| {
        assert PassesOver(hs, us[j], p, j);
        assert NodeLinks(nodes, lists[us[j]], hs, us[j]);
      }
    }

    lemma EmptyLevel(i: nat, p: nat)
      requires Linked() && level < i <= TOP && p < |nodes|
      ensures PassesOver(hs, 0, p, i)
    {
      LevelEmpty(hs, i);
    }

    static lemma HeldInsert(nodes: seq<Node>, hs: seq<nat>, keys: seq<Key>, vals: seq<Val>, x: Node, p: nat)
      requires |nodes| == |hs| == |keys| + 1 == |vals| + 1 && Held(nodes, hs, keys, vals) && p < |nodes|
      ensures |Insert(nodes, p + 1, x)| == |InsertAt(hs, p, x.level)| == |nodes| + 1
      ensures |Insert(keys, p, x.key)| == |Insert(vals, p, x.value)| == |nodes|
      ensures Held(Insert(nodes, p + 1, x), InsertAt(hs, p, x.level), Insert(keys, p, x.key), Insert(vals, p, x.value))
    {
      InsertIndex(nodes, p + 1, x);
      InsertAtIndex(hs, p, x.level);
      InsertIndex(keys, p, x.key);
      InsertIndex(vals, p, x.value);
    }

    static lemma ListsInsert(nodes: seq<Node>, lists: Lists, x: Node, p: nat)
      requires |nodes| == |lists| && Stored(nodes, lists) && p < |nodes|
      ensures |Insert(nodes, p + 1, x)| == |Insert(lists, p + 1, x.list)| == |nodes| + 1
      ensures Insert(nodes, p + 1, x)[0] == nodes[0]
      ensures Stored(Insert(nodes, p + 1, x), Insert(lists, p + 1, x.list))
    {
      InsertIndex(nodes, p + 1, x);
      InsertIndex(lists, p + 1, x.list);
    }

    /** Node x with a tower of height h has been put behind position p. */
    ghost predicate Added(ns: seq<Node>, hs0: seq<nat>, x: Node, h: nat, p: nat)
      reads this
    {
      && p < |ns| == |hs0| && nodes == Insert(ns, p + 1, x) && hs == InsertAt(hs0, p, h) && x.level == h
    }

    /** skiplist_insert: the map update.  A new key gets a node with a tower of height h, the other towers stay; an old
        key keeps its node. */
    method InsertKey(key: Key, value: Val, h: nat) returns (x: Node)
      requires Valid() && key != KEY_MAX && 1 <= h <= TOP
      modifies this, nodes
      ensures Valid() && header == old(header)
      ensures forall n :: n in nodes ==> n in old(nodes) || fresh(n)
      ensures Map() == old(Map())[key := value]
      ensures x in nodes && x.key == key && x.value == value
      ensures if key in old(keys) then nodes == old(nodes) && hs == old(hs)
              else fresh(x) && exists p :: Added(old(nodes), old(hs), x, h, p)
      ensures allLength == old(allLength) + if key in old(keys) then 0 else KeyLen(key)
      ensures Bytes(keys) == Bytes(old(keys)) + if key in old(keys) then 0 else KeyLen(key)
    {
      hide Bytes;
      var x0, update, p, us := Descend(key);
      Candidate(p);
      RankSplits(keys, key, p);
      x := x0.list[1];
      KeyCmpIsLexicographic(key, x.key);
      if KeyTest(key, x.key) {
        hide Graph, Sorted, Top, Less, PassesOver, IsRank;
        x := Overwrite(x, value, p);
      } else {
        var u, v := GrowUpdate(update, h, us, p);
        hide Graph, Top, Sorted, Less, PassesOver, IsRank, Stored, Held;
        x := AddNode(key, value, h, u, p, v);
      }
    }

    method Overwrite(x0: Node, value: Val, ghost p: nat) returns (x: Node)
      requires Valid() && p + 1 < |nodes| && x0 == nodes[p + 1]
      modifies this`vals, x0
      ensures Valid() && x == x0 && x.key == keys[p] && x.value == value
      ensures nodes == old(nodes) && hs == old(hs) && keys == old(keys) && vals == old(vals)[p := value]
      ensures Map() == old(Map())[keys[p] := value]
    {
      hide Graph, Sorted, Top;
      UpdateIsUpdate(keys, vals, value, p);
      x := x0;
      assert forall q :: 0 <= q < |nodes| && q != p + 1 ==> nodes[q] != x by { DistinctAt(p + 1); }
      x.value := value;
      vals := vals[p := value];
    }

    lemma DistinctAt(p: nat)
      requires Linked() && p < |nodes|
      ensures forall q :: 0 <= q < |nodes| && q != p ==> nodes[q] != nodes[p]
    {
    }

    /** The branch for a new key. */
    method AddNode(key: Key, value: Val, h: nat, update: seq<Node>, ghost p: nat, ghost us: seq<nat>) returns (x: Node)
      requires Valid() && key != KEY_MAX && key !in keys && 1 <= h <= TOP && IsRank(keys, key, p)
      requires p < |nodes| && Passing(hs, us, p, h) && Points(update, us, h, nodes, lists)
      modifies this, nodes
      ensures Valid() && header == old(header) && x.key == key && x.value == value
      ensures x in nodes && forall n :: n in nodes ==> n in old(nodes) || fresh(n)
      ensures Map() == old(Map())[key := value]
      ensures allLength == old(allLength) + KeyLen(key) && Bytes(keys) == Bytes(old(keys)) + KeyLen(key)
      ensures p <= |old(keys)| == |old(vals)| && keys == Insert(old(keys), p, key)
      ensures vals == Insert(old(vals), p, value)
      ensures fresh(x) && Added(old(nodes), old(hs), x, h, p)
    {
      hide Bytes, Top, Sorted, IsRank, Graph, ToMap, Stored, Held, Passing, Points;
      NewLevel(p, h);
      InsertSorted(keys, key, p);
      InsertIsUpdate(keys, vals, key, value, p);
      BytesInsert(keys, p, key);
      if h > level { level := h; }
      size := size + 1;
      allLength := allLength + KeyLen(key);
      x := AllocateAndLink(key, value, h, update, p, us);
    }

    method AllocateAndLink(key: Key, value: Val, h: nat, update: seq<Node>, ghost p: nat,
                           ghost us: seq<nat>) returns (x: Node)
      requires Recorded() && Graph(nodes, lists, hs) && 1 <= h <= TOP
      requires p < |nodes| && Passing(hs, us, p, h) && Points(update, us, h, nodes, lists)
      modifies this`nodes, this`lists, this`hs, this`keys, this`vals, (set n | n in nodes)`list
      ensures Recorded() && Graph(nodes, lists, hs)
      ensures fresh(x) && x.key == key && x.value == value && x.level == h
      ensures nodes == Insert(old(nodes), p + 1, x) && hs == InsertAt(old(hs), p, h)
      ensures keys == Insert(old(keys), p, key) && vals == Insert(old(vals), p, value)
      ensures x in nodes && forall n :: n in nodes ==> n in old(nodes) || n == x
    {
      hide Graph, Stored, Held, InsertAt, Passing, Points;
      var hd := header;
      x := new Node(key, value, h, seq(h + 1, i => hd));
      ghost var ns, ls, hs0 := nodes, lists, hs;
      HeldInsert(nodes, hs, keys, vals, x, p);
      nodes, hs := Insert(nodes, p + 1, x), InsertAt(hs, p, h);
      keys, vals := Insert(keys, p, key), Insert(vals, p, value);
      Splice(x, update, h, us, p, ns, ls, hs0);
    }

    lemma NewLevel(p: nat, h: nat)
      requires Linked() && p < |nodes| && h >= 1
      ensures Top(InsertAt(hs, p, h)) == if h > level then h else level
    {
      TopInsert(hs, p, h);
    }

    lemma UnlinkStart(us: seq<nat>, p: nat)
      requires Linked() && p + 1 < |nodes| && Passing(hs, us, p, level)
      ensures NoDup(nodes) && |lists| == |nodes| == |hs| && Stored(nodes, lists)
      ensures |lists[p + 1]| == hs[p + 1] + 1 && hs[p + 1] <= level && nodes[p + 1].level == hs[p + 1]
      ensures |us| > hs[p + 1] && Unlinked(lists, lists, us, p + 1, hs[p + 1], hs[p + 1])
      ensures Passing(hs, us, p, hs[p + 1])
    {
      assert NodeLinks(nodes, lists[p + 1], hs, p + 1);
      TopBounds(hs);
    }

    /** The loop of skiplist_delete: x is unlinked from its top level down, and levels left empty are dropped. */
    method Unlink(x: Node, update: seq<Node>, ghost us: seq<nat>, ghost p: nat)
      requires Linked() && p + 1 < |nodes| && x == nodes[p + 1] && Passing(hs, us, p, level)
      requires Points(update, us, level, nodes, lists)
      modifies this`level, this`lists, (set n | n in nodes)`list
      ensures |lists| == |nodes| && Stored(nodes, lists) && level == Top(DropAt(hs, p + 1))
      ensures Graph(DropAt(nodes, p + 1), DropAt(lists, p + 1), DropAt(hs, p + 1))
    {
      hide Graph, Sorted, Top, Held, Unlinked, Recorded, PassesOver;
      UnlinkStart(us, p);
      RemoveTop(p);
      ghost var h, top := hs[p + 1], Top(DropAt(hs, p + 1));
      ghost var ls := lists;
      var i := x.level;
      while i >= 1
        invariant 0 <= i <= h && |lists| == |nodes| && Stored(nodes, lists)
        invariant Unlinked(ls, lists, us, p + 1, i, h) && lists[p + 1] == ls[p + 1]
        invariant level == if h <= top then top else if i > top then i else top
      {
        var u := update[i];
        UnlinkStep(ls, lists, us, p + 1, i, h);
        LinksToItself(ls, p, us, i);
        assert us[i] != p + 1 by { BeforeGap(us, p, i); }
        u.list := u.list[i := x.list[i]];
        lists := lists[us[i] := lists[us[i]][i := x.list[i]]];
        if u == u.list[i] { level := level - 1; }
        i := i - 1;
      }
      RemoveLinks(nodes, ls, hs, p, us, lists);
    }

    lemma BeforeGap(us: seq<nat>, p: nat, i: nat)
      requires p < |hs| && i < |us| && PassesOver(hs, us[i], p, i)
      ensures us[i] <= p
    {
    }

    lemma RemoveTop(p: nat)
      requires Linked() && p + 1 < |nodes|
      ensures level == if hs[p + 1] > Top(DropAt(hs, p + 1)) then hs[p + 1] else Top(DropAt(hs, p + 1))
    {
      RemoveInsert(hs, p);
      TopInsert(DropAt(hs, p + 1), p, hs[p + 1]);
    }

    static lemma LinksBack(hs: seq<nat>, p: nat, u: nat, i: nat)
      requires HeightsOk(hs) && p + 1 < |hs| && 1 <= i <= hs[p + 1] && PassesOver(hs, u, p, i)
      ensures u < |hs| && Next(hs, p + 1, i) < |hs|
      ensures Next(hs, p + 1, i) == u <==> i > Top(DropAt(hs, p + 1))
    {
      var hs0 := DropAt(hs, p + 1);
      var h := hs[p + 1];
      RemoveInsert(hs, p);
      hide DropAt;
      NextInserted(hs0, p, h, i);
      LevelEmpty(hs0, i);
      NextInsert(hs0, p, h, u, i);
      NextSkips(hs0, p, i);
      NextSkips(hs0, 0, i);
      hide Next, Top;
      NextSkips(hs, u, i);
    }

    /** After the unlinking at level i a node points to itself exactly when the level is left empty. */
    lemma LinksToItself(ls: Lists, p: nat, us: seq<nat>, i: nat)
      requires Graph(nodes, ls, hs) && p + 1 < |nodes| && 1 <= i <= hs[p + 1] && i < |us| && PassesOver(hs, us[i], p, i)
      requires i < |ls[p + 1]|
      ensures nodes[us[i]] == ls[p + 1][i] <==> i > Top(DropAt(hs, p + 1))
    {
      hide Next, Top, PassesOver, DropAt;
      LinksBack(hs, p, us[i], i);
      assert NodeLinks(nodes, ls[p + 1], hs, p + 1);
    }

    static lemma HeldRemove(nodes: seq<Node>, hs: seq<nat>, keys: seq<Key>, vals: seq<Val>, p: nat)
      requires |nodes| == |hs| == |keys| + 1 == |vals| + 1 && Held(nodes, hs, keys, vals) && p < |keys|
      ensures |DropAt(nodes, p + 1)| == |DropAt(hs, p + 1)| == |nodes| - 1
      ensures |DropAt(keys, p)| == |DropAt(vals, p)| == |nodes| - 2
      ensures Held(DropAt(nodes, p + 1), DropAt(hs, p + 1), DropAt(keys, p), DropAt(vals, p))
    {
      DropAtIs(nodes, p + 1);
      DropAtIs(hs, p + 1);
      DropAtIs(keys, p);
      DropAtIs(vals, p);
    }

    static lemma StoredRemove(nodes: seq<Node>, lists: Lists, p: nat)
      requires |nodes| == |lists| && Stored(nodes, lists) && p + 1 < |nodes|
      ensures |DropAt(nodes, p + 1)| == |DropAt(lists, p + 1)| == |nodes| - 1
      ensures DropAt(nodes, p + 1)[0] == nodes[0]
      ensures Stored(DropAt(nodes, p + 1), DropAt(lists, p + 1))
    {
      DropAtIs(nodes, p + 1);
      DropAtIs(lists, p + 1);
    }

    /** The node at position p + 1 leaves the list. */
    method RemoveNode(x: Node, update: seq<Node>, ghost us: seq<nat>, ghost p: nat)
      requires Valid() && p + 1 < |nodes| && x == nodes[p + 1] && Passing(hs, us, p, level)
      requires Points(update, us, level, nodes, lists)
      modifies this, nodes
      ensures Valid() && header == old(header) && allLength == old(allLength)
      ensures nodes == DropAt(old(nodes), p + 1)
      ensures keys == DropAt(old(keys), p) && vals == DropAt(old(vals), p)
    {
      hide Graph, Sorted, Top, Stored, Held, Passing, Points;
      RemoveSorted(keys, p);
      HeldRemove(nodes, hs, keys, vals, p);
      size := size - 1;
      Unlink(x, update, us, p);
      StoredRemove(nodes, lists, p);
      Record(DropAt(nodes, p + 1), DropAt(lists, p + 1), DropAt(hs, p + 1), DropAt(keys, p), DropAt(vals, p));
      EmptyTop(hs);
    }

    static lemma EmptyTop(hs: seq<nat>)
      ensures |hs| <= 1 ==> Top(hs) == 0
    {
    }

    /** skiplist_delete: -1 on an empty list, -2 for an absent key, else the map deletion.
        all_length is left as it was. */
    method Delete(key: Key) returns (r: int)
      requires Valid() && key != KEY_MAX
      modifies this, nodes
      ensures Valid() && header == old(header) && allLength == old(allLength)
      ensures r == (if old(keys) == [] then -1 else if key in old(Map()) then 0 else -2)
      ensures Map() == old(Map()) - {key}
      ensures forall n :: n in nodes ==> n in old(nodes)
    {
      hide Graph, Top, Sorted, Less, PassesOver, Stored, Points, Passing, IsRank;
      if size == 0 {
        assert Map() == map[];
        return -1;
      }
      var x0, update, p, us := Descend(key);
      Candidate(p);
      RankSplits(keys, key, p);
      var x := x0.list[1];
      KeyCmpIsLexicographic(x.key, key);
      if KeyCmp(x.key, key) != 0 { return -2; }
      RemoveIsDelete(keys, vals, p);
      RemoveNode(x, update, us, p);
      return 0;
    }

    // ---------------------------------------------------------------- division

    /** How the keys compare with the key at position t. */
    ghost predicate OrderedAround(key: Key, t: nat)
      reads this`nodes
    {
      forall n :: 0 <= n < |nodes| ==>
        && (KeyCmp(nodes[n].key, key) < 0 <==> 0 < n < t)
        && (KeyCmp(nodes[n].key, key) > 0 <==> n == 0 || n > t)
    }

    lemma Around(t: nat)
      requires Linked() && 0 < t < |nodes|
      ensures OrderedAround(nodes[t].key, t)
    {
      hide Graph, Top;
      var key := nodes[t].key;
      forall n | 0 <= n < |nodes|
        ensures KeyCmp(nodes[n].key, key) < 0 <==> 0 < n < t
        ensures KeyCmp(nodes[n].key, key) > 0 <==> n == 0 || n > t
      {
        KeyMaxIsGreatest(key);
        KeyCmpTotalOrder(nodes[n].key, key, nodes[n].key);
        KeyCmpIsLexicographic(nodes[n].key, key);
        if n > 0 { assert n < t ==> Less(keys[n - 1], keys[t - 1]); assert t < n ==> Less(keys[t - 1], keys[n - 1]); }
      }
    }

    /** Right along a level that is not cut yet, while the next key is below the target's. */
    method Walk(x0: Node, r: Node, i: nat, key: Key, ghost t: nat, ghost q0: nat,
                ghost ls: Lists) returns (x: Node, ghost q: nat)
      requires Graph(nodes, ls, hs) && |lists| == |nodes| && Stored(nodes, lists) && 0 < t < |nodes| && 1 <= i <= TOP
      requires CutDown(nodes, ls, lists, r.list, hs, t, r, i) && OrderedAround(key, t)
      requires 0 < q0 < |nodes| && x0 == nodes[q0] && hs[q0] >= i && hs[t] < i
      ensures 0 < q < |nodes| && x == nodes[q] && hs[q] >= i
      ensures if q0 < t then q < t && PassesOver(hs, q, t, i) else q == q0
    {
      hide Next, NoDup, CutLevel;
      x, q := x0, q0;
      assert NodeLinks(nodes, ls[q], hs, q);
      while KeyCmp(x.list[i].key, key) < 0
        invariant q0 <= q < |nodes| && x == nodes[q] && hs[q] >= i && NodeLinks(nodes, ls[q], hs, q)
        invariant if q0 < t then q < t else q == q0
        decreases |nodes| - q
      {
        x := x.list[i];
        NextSkips(hs, q, i);
        q := Next(hs, q, i);
        assert NodeLinks(nodes, ls[q], hs, q);
      }
      NextSkips(hs, q, i);
    }

    /** Level i is cut behind x: what came first goes behind r, what followed x behind the header. */
    method CutAt(x: Node, r: Node, i: nat, ghost t: nat, ghost u: nat, ghost ls: Lists)
      requires Graph(nodes, ls, hs) && |lists| == |nodes| && Stored(nodes, lists) && 0 < t < |nodes| && 1 <= i <= TOP
      requires CutDown(nodes, ls, lists, r.list, hs, t, r, i) && PassesOver(hs, u, t, i)
      requires 0 < u && x == nodes[u] && header == nodes[0] && r !in nodes
      modifies this`lists, r`list, header`list, x`list
      ensures |lists| == |nodes| && Stored(nodes, lists) && CutDown(nodes, ls, lists, r.list, hs, t, r, i - 1)
    {
      CutStep(nodes, ls, lists, r.list, hs, t, r, i, u);
      hide CutDown, PassesOver, Next;
      var first := header.list[i];
      header.list := header.list[i := x.list[i]];
      r.list := r.list[i := first];
      x.list := x.list[i := r];
      lists := Cut(lists, u, r, i);
    }

    static ghost function Max(a: nat, b: nat): nat { if a > b then a else b }

    /** The first node of a level, seen from the header. */
    lemma FirstOfLevel(ls: Lists, i: nat)
      requires Graph(nodes, ls, hs) && 1 <= i <= Top(hs) && Top(hs) <= TOP
      ensures |ls[0]| == TOP + 1 && ls[0][i] == nodes[Next(hs, 0, i)] && Next(hs, 0, i) != 0 && hs[Next(hs, 0, i)] >= i
    {
      hide Next, Top, NoDup;
      assert NodeLinks(nodes, ls[0], hs, 0);
      LevelEmpty(hs, i);
      NextSkips(hs, 0, i);
    }

    lemma LinkOut(ls: Lists, u: nat, t: nat, i: nat)
      requires Graph(nodes, ls, hs) && 0 < t < |nodes| && 1 <= i <= TOP && PassesOver(hs, u, t, i) && u > 0
      ensures i < |ls[u]| && (ls[u][i] == nodes[0] <==> i > Top(Back(hs, t))) && i <= Top(Front(hs, t))
    {
      hide Next, Top;
      CutTops(hs, t, i, u);
      NextPassing(hs, u, t, i);
      assert NodeLinks(nodes, ls[u], hs, u);
    }

    lemma NothingInFront(ls: Lists, q: nat, t: nat, i: nat)
      requires Graph(nodes, ls, hs) && 0 < t < |nodes| && 1 <= i <= TOP && q == Next(hs, 0, i) && q > t
      ensures PassesOver(hs, 0, t, i) && i > Top(Front(hs, t)) && i <= Top(Back(hs, t))
    {
      hide Next, Top;
      CutTops(hs, t, i, 0);
      NextPassing(hs, 0, t, i);
    }

    lemma DivideStart(t: nat)
      requires Linked() && 0 < t < |nodes|
      ensures level == Top(hs) == Max(Top(Front(hs, t)), Top(Back(hs, t))) && level <= TOP
      ensures 1 <= nodes[t].level == hs[t] <= level && hs[t] <= Top(Front(hs, t)) && OrderedAround(nodes[t].key, t)
    {
      LevelBound();
      TopBounds(hs);
      TopBounds(Front(hs, t));
      TopSplit(hs, t);
      Around(t);
      assert Front(hs, t)[t] == hs[t];
    }

    /** The loop over the levels above the target's tower. */
    method CutHigh(target: Node, r: Node, ghost t: nat, ghost ls: Lists) returns (rlevel: nat)
      requires Graph(nodes, lists, hs) && |nodes| == |lists| == |hs| && Stored(nodes, lists) && lists == ls
      requires 0 < t < |nodes| && target == nodes[t]
      requires header == nodes[0] && r !in nodes && |r.list| == TOP + 1 && forall j :: 1 <= j <= TOP ==> r.list[j] == r
      requires level == Top(hs) == Max(Top(Front(hs, t)), Top(Back(hs, t))) && level <= TOP
      requires 1 <= target.level == hs[t] <= level && hs[t] <= Top(Front(hs, t)) && OrderedAround(target.key, t)
      modifies this`level, this`lists, r`list, (set n | n in nodes)`list
      ensures |lists| == |nodes| && Stored(nodes, lists) && CutDown(nodes, ls, lists, r.list, hs, t, r, target.level)
      ensures rlevel == Top(Front(hs, t)) && level == Max(target.level, Top(Back(hs, t)))
    {
      hide Graph, Next, Top, CutDown, PassesOver, Stored, OrderedAround;
      ghost var f, b := Top(Front(hs, t)), Top(Back(hs, t));
      CutStart(nodes, ls, r.list, hs, t, r);
      FirstOfLevel(ls, level);
      UncutLink(ls, r, t, level, 0);
      rlevel := level;
      var x := header.list[level];
      ghost var q := Next(hs, 0, level);
      var i := level;
      while i > target.level
        invariant target.level <= i <= Top(hs) && |lists| == |nodes| && Stored(nodes, lists)
        invariant CutDown(nodes, ls, lists, r.list, hs, t, r, i)
        invariant rlevel == Max(i, f) && level == Max(i, b)
        invariant 0 < q < |nodes| && x == nodes[q] && hs[q] >= i && (q < t || q == Next(hs, 0, i))
      {
        x, q := Walk(x, r, i, target.key, t, q, ls);
        Compared(target.key, t, q);
        if KeyCmp(x.key, target.key) > 0 {
          NothingInFront(ls, q, t, i);
          CutNothing(nodes, ls, lists, r.list, hs, t, r, i);
          rlevel := rlevel - 1;
          FirstOfLevel(ls, i - 1);
          UncutLink(ls, r, t, i - 1, 0);
          x := header.list[i - 1];
          q := Next(hs, 0, i - 1);
        } else {
          LinkOut(ls, q, t, i);
          UncutLink(ls, r, t, i, q);
          if x.list[i] == header { level := level - 1; }
          CutAt(x, r, i, t, q, ls);
        }
        i := i - 1;
      }
    }

    lemma Compared(key: Key, t: nat, n: nat)
      requires OrderedAround(key, t) && n < |nodes|
      ensures KeyCmp(nodes[n].key, key) > 0 <==> n == 0 || n > t
    {
    }

    lemma UncutLink(ls: Lists, r: Node, t: nat, i: nat, q: nat)
      requires |nodes| == |lists| == |ls| == |hs| && 0 < t < |nodes| && q < |nodes| && i < |ls[q]|
      requires Stored(nodes, lists) && CutDown(nodes, ls, lists, r.list, hs, t, r, i)
      ensures |nodes[q].list| == |ls[q]| && nodes[q].list[i] == ls[q][i]
    {
      hide CutLevel;
    }

    /** The loop over the levels of the target's own tower. */
    method CutLow(target: Node, r: Node, ghost t: nat, ghost ls: Lists)
      requires Graph(nodes, ls, hs) && |nodes| == |lists| == |hs| == |ls| && Stored(nodes, lists)
      requires 0 < t < |nodes| && target == nodes[t] && header == nodes[0] && r !in nodes
      requires 1 <= target.level == hs[t] <= TOP && level == Max(target.level, Top(Back(hs, t)))
      requires CutDown(nodes, ls, lists, r.list, hs, t, r, target.level)
      modifies this`level, this`lists, r`list, (set n | n in nodes)`list
      ensures |lists| == |nodes| && Stored(nodes, lists) && CutDown(nodes, ls, lists, r.list, hs, t, r, 0)
      ensures level == Top(Back(hs, t))
    {
      hide Graph, Next, Top, CutDown, Stored;
      var i := target.level;
      while i >= 1
        invariant 0 <= i <= hs[t] && |lists| == |nodes| && Stored(nodes, lists)
        invariant CutDown(nodes, ls, lists, r.list, hs, t, r, i)
        invariant level == Max(i, Top(Back(hs, t)))
      {
        LinkOut(ls, t, t, i);
        UncutLink(ls, r, t, i, t);
        if target.list[i] == header { level := level - 1; }
        CutAt(target, r, i, t, t, ls);
        i := i - 1;
      }
    }

    static lemma HeldParts(nodes: seq<Node>, hs: seq<nat>, keys: seq<Key>, vals: seq<Val>, t: nat, r: Node)
      requires |nodes| == |hs| == |keys| + 1 == |vals| + 1 && Held(nodes, hs, keys, vals) && 0 < t < |nodes|
      ensures |FrontNodes(nodes, t, r)| == |Front(hs, t)| == t + 1
      ensures |BackNodes(nodes, t)| == |Back(hs, t)| == |nodes| - t
      ensures Held(FrontNodes(nodes, t, r), Front(hs, t), keys[..t], vals[..t])
      ensures Held(BackNodes(nodes, t), Back(hs, t), keys[t..], vals[t..])
    {
    }

    static lemma StoredParts(nodes: seq<Node>, lists: Lists, t: nat, r: Node)
      requires |nodes| == |lists| && Stored(nodes, lists) && 0 < t < |nodes|
      ensures |FrontNodes(nodes, t, r)| == |FrontNodes(lists, t, r.list)| == t + 1
      ensures |BackNodes(nodes, t)| == |BackNodes(lists, t)| == |nodes| - t
      ensures FrontNodes(nodes, t, r)[0] == r && BackNodes(nodes, t)[0] == nodes[0]
      ensures Stored(FrontNodes(nodes, t, r), FrontNodes(lists, t, r.list))
      ensures Stored(BackNodes(nodes, t), BackNodes(lists, t))
    {
    }

    lemma GraphParts(ls: Lists, t: nat, r: Node)
      requires Graph(nodes, ls, hs) && |nodes| == |lists| == |hs| == |ls| && 0 < t < |nodes| && r !in nodes
      requires CutDown(nodes, ls, lists, r.list, hs, t, r, 0)
      ensures Graph(FrontNodes(nodes, t, r), FrontNodes(lists, t, r.list), Front(hs, t))
      ensures Graph(BackNodes(nodes, t), BackNodes(lists, t), Back(hs, t))
      ensures |r.list| == TOP + 1
    {
      hide CutLevel, Next;
      forall q | 0 <= q < |hs| ensures |lists[q]| == hs[q] + 1 { assert NodeLinks(nodes, ls[q], hs, q); }
      DivideFront(nodes, lists, r.list, hs, t, r);
      DivideBack(nodes, lists, r.list, hs, t, r);
    }

    static lemma SortedParts(keys: seq<Key>, t: nat)
      requires Sorted(keys) && t <= |keys|
      ensures Sorted(keys[..t]) && Sorted(keys[t..])
    {
      hide Less;
    }

    /** The header's link at the highest level leads to a node. */
    static lemma TopLink(nodes: seq<Node>, lists: Lists, hs: seq<nat>)
      requires Graph(nodes, lists, hs) && Top(hs) > 0
      ensures Top(hs) <= TOP && Top(hs) < |lists[0]| && lists[0][Top(hs)] != nodes[0]
    {
      hide Next;
      TopBounds(hs);
      LevelEmpty(hs, Top(hs));
      assert NodeLinks(nodes, lists[0], hs, 0);
    }

    /** The two loops of skiplist_divide. */
    method CutAll(target: Node, res: List, ghost t: nat)
      requires Linked() && 0 < t < |nodes| && target == nodes[t] && res != this
      requires res.header !in nodes && |res.header.list| == TOP + 1
      requires forall j :: 1 <= j <= TOP ==> res.header.list[j] == res.header
      modifies this`level, this`lists, res`level, res.header`list, (set n | n in nodes)`list
      ensures |lists| == |nodes| == |hs| && Stored(nodes, lists) && Held(nodes, hs, keys, vals)
      ensures Graph(FrontNodes(nodes, t, res.header), FrontNodes(lists, t, res.header.list), Front(hs, t))
      ensures Graph(BackNodes(nodes, t), BackNodes(lists, t), Back(hs, t))
      ensures res.level == Top(Front(hs, t)) > 0 && level == Top(Back(hs, t)) && old(level) == Max(res.level, level)
    {
      hide Graph, Next, Top, CutDown, Stored, OrderedAround, Sorted;
      ghost var ls := lists;
      DivideStart(t);
      var rlevel := CutHigh(target, res.header, t, ls);
      CutLow(target, res.header, t, ls);
      res.level := rlevel;
      GraphParts(ls, t, res.header);
    }

    /** The consistency test at the end of skiplist_divide, which aborts. */
    static predicate Inconsistent(origin: nat, front: List, back: List)
      requires front.level < |front.header.list| && back.level < |back.header.list|
      reads front, front.header, back, back.header
    {
      || (origin != back.level && origin != front.level)
      || (back.level != 0 &&
          (back.header.list[back.level] == back.header || front.header.list[front.level] == front.header))
    }

    /** Records a new shape whose parts are known to fit the nodes. */
    ghost method Record(ns: seq<Node>, ls: Lists, hs0: seq<nat>, ks: seq<Key>, vs: seq<Val>)
      requires |ns| == |ls| == |hs0| == |ks| + 1 == |vs| + 1 && ns[0] == header && header.key == KEY_MAX
      requires Stored(ns, ls) && Held(ns, hs0, ks, vs)
      modifies this`nodes, this`lists, this`hs, this`keys, this`vals
      ensures nodes == ns && lists == ls && hs == hs0 && keys == ks && vals == vs && Recorded()
    {
      hide Stored, Held;
      nodes, lists, hs, keys, vals := ns, ls, hs0, ks, vs;
    }

    method DivideAt(target: Node, res: List, ghost t: nat)
      requires Linked() && 0 < t < |nodes| && target == nodes[t]
      requires res.Linked() && res.nodes == [res.header] && res != this && res.header !in nodes
      modifies this, nodes, res, res.header
      ensures Linked() && res.Linked() && header == old(header) && res.header == old(res.header)
      ensures nodes == BackNodes(old(nodes), t) && res.nodes == FrontNodes(old(nodes), t, res.header)
      ensures res.keys == old(keys)[..t] && res.vals == old(vals)[..t] && keys == old(keys)[t..]
      ensures vals == old(vals)[t..]
      ensures size == old(size) && allLength == old(allLength) && res.size == old(res.size)
      ensures res.allLength == old(res.allLength)
    {
      hide Graph, Top, Stored, Held, Sorted, FrontNodes, BackNodes, Front, Back, Inconsistent;
      var origin := level;
      EmptyHeader(res);
      SortedParts(keys, t);
      CutAll(target, res, t);
      HeldParts(nodes, hs, keys, vals, t, res.header);
      StoredParts(nodes, lists, t, res.header);
      res.Record(FrontNodes(nodes, t, res.header), FrontNodes(lists, t, res.header.list), Front(hs, t), keys[..t],
                 vals[..t]);
      Record(BackNodes(nodes, t), BackNodes(lists, t), Back(hs, t), keys[t..], vals[t..]);
      Settle(origin, res);
    }

    /** The end of skiplist_divide: the abort is never reached, and an emptied list gets level 1. */
    method Settle(origin: nat, res: List)
      requires Recorded() && res.Recorded() && Graph(nodes, lists, hs) && Graph(res.nodes, res.lists, res.hs)
      requires res != this
      requires Sorted(keys) && Sorted(res.keys) && |res.keys| > 0
      requires res.level == Top(res.hs) > 0 && level == Top(hs) && origin == Max(res.level, level)
      modifies `level
      ensures Linked() && res.Linked()
    {
      hide Graph, Top, Stored, Held, Sorted, Inconsistent;
      Consistent(origin, res, this);
      if Inconsistent(origin, res, this) { assert false; }
      if level == 0 { level := 1; }
    }

    static lemma EmptyHeader(l: List)
      requires l.Linked() && l.nodes == [l.header]
      ensures |l.header.list| == TOP + 1 && forall j :: 1 <= j <= TOP ==> l.header.list[j] == l.header
    {
      assert NodeLinks(l.nodes, l.lists[0], l.hs, 0);
    }

    static lemma Consistent(origin: nat, front: List, back: List)
      requires front.Recorded() && back.Recorded() && Graph(front.nodes, front.lists, front.hs)
      requires Graph(back.nodes, back.lists, back.hs)
      requires front.level == Top(front.hs) > 0 && back.level == Top(back.hs) && origin == Max(front.level, back.level)
      ensures front.level < |front.header.list| && back.level < |back.header.list|
      ensures !Inconsistent(origin, front, back)
      ensures back.keys == [] <==> back.level == 0
    {
      hide Held;
      TopLink(front.nodes, front.lists, front.hs);
      if back.level > 0 { TopLink(back.nodes, back.lists, back.hs); }
      else { assert NodeLinks(back.nodes, back.lists[0], back.hs, 0); }
      TopBounds(back.hs);
      hide Graph, Top;
    }

    /** The memcpy of a list head. */
    method Copy(that: List)
      requires that.Linked() && that != this
      modifies this
      ensures Linked() && size == that.size && allLength == that.allLength
      ensures nodes == that.nodes && keys == that.keys && vals == that.vals
    {
      hide Graph, Top, Sorted, Stored, Held;
      level, size, allLength, header := that.level, that.size, that.allLength, that.header;
      Record(that.nodes, that.lists, that.hs, that.keys, that.vals);
    }

    method SetCounts(n: nat, bytes: nat)
      requires Linked()
      modifies `size, `allLength
      ensures Linked() && size == n && allLength == bytes
    {
      hide Graph, Sorted, Top, Stored, Held;
      size, allLength := n, bytes;
    }

    /** The lists share no node. */
    static ghost predicate Apart(s: List, t: List)
      reads s, t
    {
      s != t && forall p, q :: 0 <= p < |s.nodes| && 0 <= q < |t.nodes| ==> s.nodes[p] != t.nodes[q]
    }

    /** skiplist_divide: the nodes up to the target move to a new list; at the header the whole contents move. */
    method Divide(target: Node, ghost t: nat) returns (res: List)
      requires Linked() && t < |nodes| && target == nodes[t]
      modifies this, nodes
      ensures Linked() && res.Linked() && fresh(res) && res != this
      ensures var k := if t == 0 then |old(keys)| else t;
              && res.keys == old(keys)[..k] && res.vals == old(vals)[..k] && keys == old(keys)[k..]
              && vals == old(vals)[k..]
      ensures (t == 0 ==> size == allLength == 0) && (t > 0 ==> size == old(size) && allLength == old(allLength))
      ensures forall p :: 0 <= p < |nodes| ==> nodes[p] in old(nodes) || fresh(nodes[p])
      ensures Apart(res, this)
    {
      hide Linked;
      DistinctAt(0);
      Lengths();
      res := new List();
      if target == header {
        var swap := new List();
        swap.Copy(this);
        Copy(res);
        res.Copy(swap);
      } else {
        PartsApart(t);
        DivideAt(target, res, t);
      }
    }

    lemma Lengths()
      requires Linked()
      ensures |nodes| == |keys| + 1 == |vals| + 1 && nodes[0] == header
    {
    }

    lemma PartsApart(t: nat)
      requires Linked() && 0 < t < |nodes|
      ensures forall p, q :: 0 < p <= t && (q == 0 || t < q < |nodes|) ==> nodes[p] != nodes[q]
    {
    }
  }
}

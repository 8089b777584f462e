/**
 Cutting a full memtable into tables that fit one header page, as skiplist_cutting_header and
 compaction_check do, and writing it out table by table.
 */
module MemtableCut {
  import opened KeyOrder
  import opened SortedKeys
  import opened SkipGraph
  import opened SkipList

  /** KEYBITMAP / sizeof(uint16_t) - 2, and PAGESIZE - KEYBITMAP. */
  const NUM_LIMIT := 510
  const SIZE_LIMIT := 7168
  /** The number of entries at which the memtable is flushed. */
  const FLUSHNUM := 1024

  /** The byte count is that of the keys in the list. */
  ghost predicate Exact(l: List)
    reads l, l.nodes
  {
    l.Valid() && l.allLength == Bytes(l.keys)
  }

  /** The list is small enough to stay one table. */
  predicate Small(l: List)
    reads l
  {
    l.allLength < SIZE_LIMIT && l.size < NUM_LIMIT
  }

  /** A table that fits a header page. */
  ghost predicate Fits(keys: seq<Key>) {
    0 < |keys| <= NUM_LIMIT && Bytes(keys) < SIZE_LIMIT
  }

  ghost predicate Table(t: List, l: List)
    reads t, t.nodes, l
  {
    Exact(t) && Fits(t.keys) && List.Apart(t, l)
  }

  lemma BytesNext(keys: seq<Key>, n: nat)
    requires n < |keys|
    ensures Bytes(keys[..n + 1]) == Bytes(keys[..n]) + KeyLen(keys[n])
  {
    assert keys[..n + 1][..n] == keys[..n];
  }

  /** The scan of skiplist_cutting_header: how many keys the first table takes. */
  method Scan(l: List) returns (temp: Node, length: nat, idx: nat)
    requires Exact(l) && !Small(l)
    ensures 0 < idx <= |l.keys| == |l.vals| && |l.keys| + 1 == |l.nodes| && temp == l.nodes[idx]
    ensures length == Bytes(l.keys[..idx])
    ensures Fits(l.keys[..idx])
    ensures idx < |l.keys| && idx < NUM_LIMIT ==> Bytes(l.keys[..idx + 1]) >= SIZE_LIMIT
  {
    hide List.Linked;
    l.Lengths();
    assert |KEY_MAX| == 255;
    length, idx := 0, 0;
    l.Candidate(0);
    temp := l.header.list[1];
    while temp != l.header
      invariant idx < |l.nodes| && length == Bytes(l.keys[..idx]) && idx < NUM_LIMIT && length < SIZE_LIMIT
      invariant temp == if idx + 1 < |l.nodes| then l.nodes[idx + 1] else l.header
      invariant temp.key == if idx + 1 < |l.nodes| then l.keys[idx] else KEY_MAX
      invariant idx > 0 ==> length + KeyLen(temp.key) < SIZE_LIMIT
      decreases |l.nodes| - idx
    {
      l.DistinctAt(0);
      BytesNext(l.keys, idx);
      length := length + KeyLen(temp.key);
      idx := idx + 1;
      l.Candidate(idx);
      if length + KeyLen(temp.list[1].key) >= SIZE_LIMIT || idx >= NUM_LIMIT {
        if idx < |l.keys| { BytesNext(l.keys, idx); } else { WholeList(l); }
        break;
      }
      temp := temp.list[1];
    }
    WholeList(l);
    l.DistinctAt(0);
  }

  lemma WholeList(l: List)
    requires l.Valid()
    ensures l.keys[..|l.keys|] == l.keys
  {
  }

  /** skiplist_cutting_header: a small list is handed back as it is; otherwise the longest front part that
      fits a header page is cut off. */
  method CuttingHeader(l: List) returns (res: List)
    requires Exact(l)
    modifies l, l.nodes
    ensures Exact(l) && Exact(res)
    ensures res == l <==> old(Small(l))
    ensures res == l ==> l.nodes == old(l.nodes) && l.keys == old(l.keys) && l.vals == old(l.vals) && Small(l)
    ensures res != l ==> fresh(res) && Table(res, l)
    ensures res != l ==> res.keys + l.keys == old(l.keys) && res.vals + l.vals == old(l.vals)
    ensures res != l && l.keys != [] && |res.keys| < NUM_LIMIT ==> Bytes(res.keys) + KeyLen(l.keys[0]) >= SIZE_LIMIT
    ensures forall p :: 0 <= p < |l.nodes| ==> l.nodes[p] in old(l.nodes) || fresh(l.nodes[p])
  {
    hide List.Linked, Bytes;
    if Small(l) { return l; }
    var temp, length, idx := Scan(l);
    ghost var ks := l.keys;
    BytesSplit(ks[..idx], ks[idx..]);
    assert ks[..idx] + ks[idx..] == ks;
    assert l.vals[..idx] + l.vals[idx..] == l.vals;
    if idx < |ks| { BytesNext(ks, idx); }
    res := l.Divide(temp, idx);
    res.SetCounts(idx, length);
    l.SetCounts(l.size - idx, l.allLength - length);
  }

  lemma SizeIs(l: List)
    requires Exact(l)
    ensures l.size == |l.keys| && (Fits(l.keys) ==> l.keys != [])
  {
  }

  ghost function Keys(ts: seq<List>): seq<Key>
    reads ts
  {
    if ts == [] then [] else Keys(ts[..|ts| - 1]) + ts[|ts| - 1].keys
  }

  ghost function Vals(ts: seq<List>): seq<Val>
    reads ts
  {
    if ts == [] then [] else Vals(ts[..|ts| - 1]) + ts[|ts| - 1].vals
  }

  /** One turn of the loop in compaction_check: t is handed on and the next table cut ahead of time. */
  method CutNext(l: List, t2: List?) returns (t: List, next: List)
    requires Exact(l) && if t2 == null then l.size >= FLUSHNUM else Table(t2, l)
    modifies l, l.nodes
    ensures Exact(l) && Table(t, l) && if t2 == null then fresh(t) else t == t2
    ensures if next == l then Small(l) else fresh(next) && Table(next, l) && l.size < old(l.size)
    ensures t.keys + (if next == l then [] else next.keys) + l.keys ==
            (if t2 == null then [] else old(t2.keys)) + old(l.keys)
    ensures t.vals + (if next == l then [] else next.vals) + l.vals ==
            (if t2 == null then [] else old(t2.vals)) + old(l.vals)
    ensures forall p :: 0 <= p < |l.nodes| ==> l.nodes[p] in old(l.nodes) || fresh(l.nodes[p])
  {
    hide List.Valid, Fits, Bytes;
    if t2 != null { t := t2; } else { SizeIs(l); t := CuttingHeader(l); }
    SizeIs(t);
    SizeIs(l);
    next := CuttingHeader(l);
    SizeIs(l);
    SizeIs(next);
  }

  lemma Regroup<T>(done: seq<T>, t: seq<T>, next: seq<T>, rest: seq<T>, p: seq<T>, l: seq<T>)
    requires t + next + rest == p + l
    ensures done + t + next + rest == done + p + l
  {
    assert done + t + next + rest == done + (t + next + rest);
  }

  lemma NoTables(l: List)
    ensures Keys([]) + l.keys == l.keys && Vals([]) + l.vals == l.vals
    ensures Keys([]) + [] + l.keys == l.keys && Vals([]) + [] + l.vals == l.vals
  {
  }

  lemma AddTable(ts: seq<List>, t: List)
    ensures Keys(ts + [t]) == Keys(ts) + t.keys && Vals(ts + [t]) == Vals(ts) + t.vals
  {
    assert (ts + [t])[..|ts|] == ts;
  }

  /** compaction_check: below FLUSHNUM entries nothing happens; otherwise the memtable is cut front to back
      into tables that each fit a header page, until what is left is small. */
  method CompactionCheck(l: List) returns (ts: seq<List>)
    requires Exact(l)
    modifies l, l.nodes
    ensures Exact(l) && (old(l.size) < FLUSHNUM ==> ts == []) && (old(l.size) >= FLUSHNUM ==> ts != [] && Small(l))
    ensures Keys(ts) + l.keys == old(l.keys) && Vals(ts) + l.vals == old(l.vals)
    ensures forall i :: 0 <= i < |ts| ==> fresh(ts[i]) && Table(ts[i], l)
  {
    hide Exact, Fits, Small, Keys, Vals;
    ts := [];
    NoTables(l);
    if l.size < FLUSHNUM { return; }
    var t2: List? := null;
    while t2 != l
      invariant Exact(l) && forall p :: 0 <= p < |l.nodes| ==> l.nodes[p] in old(l.nodes) || fresh(l.nodes[p])
      invariant forall i :: 0 <= i < |ts| ==> fresh(ts[i]) && Table(ts[i], l)
      invariant if t2 == null then ts == [] && l.size >= FLUSHNUM
                else ts != [] && if t2 == l then Small(l) else Table(t2, l) && fresh(t2)
      invariant Keys(ts) + (if t2 == null || t2 == l then [] else t2.keys) + l.keys == old(l.keys)
      invariant Vals(ts) + (if t2 == null || t2 == l then [] else t2.vals) + l.vals == old(l.vals)
      decreases t2 != l, l.size
    {
      var t;
      ghost var ks, vs := Keys(ts), Vals(ts);
      ghost var p, l0 := if t2 == null then [] else t2.keys, l.keys;
      ghost var pv, v0 := if t2 == null then [] else t2.vals, l.vals;
      t, t2 := CutNext(l, t2);
      AddTable(ts, t);
      Regroup(ks, t.keys, if t2 == l then [] else t2.keys, l.keys, p, l0);
      Regroup(vs, t.vals, if t2 == l then [] else t2.vals, l.vals, pv, v0);
      ts := ts + [t];
    }
  }

  // ---------------------------------------------------------------- from inserts to tables

  /** What is inserted: a key, a value and the height getLevel draws. */
  datatype Put = Put(key: Key, value: Val, height: nat)

  ghost predicate PutsOk(puts: seq<Put>) {
    forall i :: 0 <= i < |puts| ==> puts[i].key != KEY_MAX && 1 <= puts[i].height <= TOP
  }

  /** The map after the first n inserts. */
  ghost function Stored(puts: seq<Put>, n: nat): map<Key, Val>
    requires n <= |puts|
  {
    if n == 0 then map[] else Stored(puts, n - 1)[puts[n - 1].key := puts[n - 1].value]
  }

  /** A memtable filled by any inserts has an exact byte count. */
  method Fill(puts: seq<Put>) returns (l: List)
    requires PutsOk(puts)
    ensures Exact(l) && fresh(l) && forall p :: 0 <= p < |l.nodes| ==> fresh(l.nodes[p])
    ensures |l.keys| == |l.vals| && l.Map() == Stored(puts, |puts|)
  {
    hide List.Recorded, Graph, Sorted, ToMap;
    l := new List();
    var i := 0;
    while i < |puts|
      invariant 0 <= i <= |puts| && Exact(l) && fresh(l) && forall p :: 0 <= p < |l.nodes| ==> fresh(l.nodes[p])
      invariant |l.keys| == |l.vals| && l.Map() == Stored(puts, i)
    {
      ghost var ns := l.nodes;
      var x := l.InsertKey(puts[i].key, puts[i].value, puts[i].height);
      Shapes(l);
      forall p | 0 <= p < |l.nodes| ensures fresh(l.nodes[p]) {
        assert l.nodes[p] in l.nodes;
        assert forall n :: n in ns ==> fresh(n);
      }
      i := i + 1;
    }
  }

  /** Any inserts, then compaction_check: tables that fit, in key order, that with what is left hold the map. */
  method FillAndCheck(puts: seq<Put>) returns (l: List, ts: seq<List>, ghost keys: seq<Key>, ghost vals: seq<Val>)
    requires PutsOk(puts)
    ensures Exact(l) && Sorted(keys) && |keys| == |vals| && ToMap(keys, vals) == Stored(puts, |puts|)
    ensures Keys(ts) + l.keys == keys && Vals(ts) + l.vals == vals
    ensures if |keys| < FLUSHNUM then ts == [] else ts != [] && Small(l)
    ensures forall i :: 0 <= i < |ts| ==> fresh(ts[i]) && Table(ts[i], l)
  {
    hide List.Recorded, Fits, Small, Keys, Vals, ToMap, Graph;
    l := Fill(puts);
    Shapes(l);
    keys, vals := l.keys, l.vals;
    ts := CompactionCheck(l);
  }

  lemma Shapes(l: List)
    requires l.Valid()
    ensures |l.keys| == |l.vals| == l.size && Sorted(l.keys)
  {
  }
}

/**
 Sorted keys with their values as a finite map: what the skip list of
 algorithm/Lsmtree/skiplist.c stands for.
 */
module SortedKeys {
  import opened Sequences
  import opened KeyOrder

  type Val = seq<Byte>

  /** KEYLEN: the bytes a key takes in a header page. */
  function KeyLen(k: Key): nat { |k| + 4 }

  ghost function Bytes(ks: seq<Key>): nat {
    if ks == [] then 0 else Bytes(ks[..|ks| - 1]) + KeyLen(ks[|ks| - 1])
  }

  // ---------------------------------------------------------------- sorted keys and the map they stand for

  ghost predicate Sorted(ks: seq<Key>) {
    && (forall p, q :: 0 <= p < q < |ks| ==> Less(ks[p], ks[q]))
    && (forall p :: 0 <= p < |ks| ==> ks[p] != KEY_MAX)
  }

  ghost function ToMap(ks: seq<Key>, vs: seq<Val>): map<Key, Val>
    requires |ks| == |vs|
  {
    map k | k in ks :: vs[IndexOf(ks, k)]
  }

  ghost function IndexOf(ks: seq<Key>, k: Key): (p: nat)
    requires k in ks
    ensures p < |ks| && ks[p] == k
  {
    var p :| 0 <= p < |ks| && ks[p] == k; p
  }

  lemma LessNotEqual(a: Key, b: Key)
    ensures Less(a, b) ==> a != b
  {
    KeyCmpTotalOrder(a, b, a);
  }

  lemma SortedUnique(ks: seq<Key>, p: nat, q: nat)
    requires Sorted(ks) && p < |ks| && q < |ks| && ks[p] == ks[q]
    ensures p == q
  {
    LessNotEqual(ks[p], ks[q]);
    LessNotEqual(ks[q], ks[p]);
  }

  lemma ToMapAt(ks: seq<Key>, vs: seq<Val>, p: nat)
    requires |ks| == |vs| && Sorted(ks) && p < |ks|
    ensures ks[p] in ToMap(ks, vs) && ToMap(ks, vs)[ks[p]] == vs[p]
  {
    SortedUnique(ks, p, IndexOf(ks, ks[p]));
  }

  ghost function Insert<T>(xs: seq<T>, p: nat, x: T): seq<T>
    requires p <= |xs|
  {
    xs[..p] + [x] + xs[p..]
  }

  /** Position p separates the keys below k from those not below it. */
  ghost predicate IsRank(ks: seq<Key>, k: Key, p: nat) {
    p <= |ks| && (p > 0 ==> Less(ks[p - 1], k)) && (p < |ks| ==> !Less(ks[p], k))
  }

  lemma RankSplits(ks: seq<Key>, k: Key, p: nat)
    requires Sorted(ks) && IsRank(ks, k, p)
    ensures forall q :: 0 <= q < p ==> Less(ks[q], k)
    ensures forall q :: p <= q < |ks| ==> ks[q] == k || Less(k, ks[q])
    ensures k in ks <==> p < |ks| && ks[p] == k
    ensures forall q :: p < q < |ks| ==> Less(k, ks[q])
  {
    forall q | 0 <= q < p ensures Less(ks[q], k) {
      KeyCmpTotalOrder(ks[q], ks[p - 1], k);
    }
    forall q | p <= q < |ks| ensures ks[q] == k || Less(k, ks[q]) {
      KeyCmpTotalOrder(k, ks[p], ks[q]);
      KeyCmpTotalOrder(k, ks[q], k);
    }
    forall q | p < q < |ks| ensures Less(k, ks[q]) {
      KeyCmpTotalOrder(k, ks[p], ks[q]);
      KeyCmpTotalOrder(ks[p], ks[q], k);
    }
    forall q | 0 <= q < |ks| && ks[q] == k ensures q == p {
      KeyCmpTotalOrder(k, k, k);
    }
  }

  lemma InsertIndex<T>(xs: seq<T>, p: nat, x: T)
    requires p <= |xs|
    ensures |Insert(xs, p, x)| == |xs| + 1
    ensures forall q :: 0 <= q <= |xs| ==>
      Insert(xs, p, x)[q] == if q < p then xs[q] else if q == p then x else xs[q - 1]
  {
  }

  lemma {:induction false} BytesSplit(a: seq<Key>, b: seq<Key>)
    ensures Bytes(a + b) == Bytes(a) + Bytes(b)
    decreases |b|
  {
    if b == [] {
      assert a + b == a;
    } else {
      var b' := b[..|b| - 1];
      BytesSplit(a, b');
      assert (a + b)[..|a + b| - 1] == a + b';
    }
  }

  lemma BytesInsert(ks: seq<Key>, p: nat, k: Key)
    requires p <= |ks|
    ensures Bytes(Insert(ks, p, k)) == Bytes(ks) + KeyLen(k)
  {
    hide Bytes;
    BytesSplit(ks[..p], ks[p..]);
    assert ks[..p] + ks[p..] == ks;
    BytesSplit(ks[..p], [k]);
    BytesOne(k);
    BytesSplit(ks[..p] + [k], ks[p..]);
  }

  lemma BytesOne(k: Key)
    ensures Bytes([k]) == KeyLen(k)
  {
    assert [k][..0] == [];
  }

  lemma InsertSorted(ks: seq<Key>, k: Key, p: nat)
    requires Sorted(ks) && IsRank(ks, k, p) && k !in ks && k != KEY_MAX
    ensures Sorted(Insert(ks, p, k))
  {
    RankSplits(ks, k, p);
    InsertIndex(ks, p, k);
    hide Less, Insert;
  }

  lemma RemoveSorted(ks: seq<Key>, p: nat)
    requires Sorted(ks) && p < |ks|
    ensures Sorted(DropAt(ks, p))
  {
    hide Less;
    DropAtIs(ks, p);
  }

  lemma InsertMember(ks: seq<Key>, k: Key, p: nat, a: Key)
    requires p <= |ks|
    ensures a in Insert(ks, p, k) <==> a in ks || a == k
  {
    assert ks == ks[..p] + ks[p..];
  }

  /** Two maps with the same keys in the same places are compared by position. */
  lemma SameLookups(ks: seq<Key>, vs: seq<Val>, m: map<Key, Val>)
    requires |ks| == |vs| && Sorted(ks)
    requires forall a :: a in m <==> a in ks
    requires forall q :: 0 <= q < |ks| && ks[q] in m ==> m[ks[q]] == vs[q]
    ensures ToMap(ks, vs) == m
  {
    hide Sorted, IndexOf;
    var t := ToMap(ks, vs);
    forall a | a in ks ensures t[a] == m[a] {
      var q := IndexOf(ks, a);
      ToMapAt(ks, vs, q);
    }
  }

  lemma InsertLookup(ks: seq<Key>, vs: seq<Val>, k: Key, x: Val, p: nat, q: nat)
    requires |ks| == |vs| && Sorted(ks) && p <= |ks| && q <= |ks| && k !in ks
    ensures |Insert(ks, p, k)| == |Insert(vs, p, x)| == |ks| + 1
    ensures var a := Insert(ks, p, k)[q];
            (a == k || a in ToMap(ks, vs)) && ToMap(ks, vs)[k := x][a] == Insert(vs, p, x)[q]
  {
    hide Sorted, IndexOf;
    InsertIndex(ks, p, k);
    InsertIndex(vs, p, x);
    if q != p { ToMapAt(ks, vs, if q < p then q else q - 1); }
  }

  lemma RemoveLookup(ks: seq<Key>, vs: seq<Val>, p: nat, q: nat)
    requires |ks| == |vs| && Sorted(ks) && p < |ks| && q < |ks| - 1
    ensures |DropAt(ks, p)| == |DropAt(vs, p)| == |ks| - 1
    ensures var a := DropAt(ks, p)[q]; a != ks[p] && a in ToMap(ks, vs) && ToMap(ks, vs)[a] == DropAt(vs, p)[q]
  {
    hide IndexOf;
    DropAtIs(ks, p);
    DropAtIs(vs, p);
    var r := if q < p then q else q + 1;
    ToMapAt(ks, vs, r);
    LessNotEqual(ks[p], ks[r]);
    LessNotEqual(ks[r], ks[p]);
  }

  lemma RemoveMember(ks: seq<Key>, p: nat, a: Key)
    requires p < |ks| && ks[p] !in DropAt(ks, p)
    ensures a in DropAt(ks, p) <==> a in ks && a != ks[p]
  {
    assert ks == ks[..p] + [ks[p]] + ks[p + 1..];
  }

  /** Inserting at the rank of a new key is the map update. */
  lemma InsertIsUpdate(ks: seq<Key>, vs: seq<Val>, k: Key, x: Val, p: nat)
    requires |ks| == |vs| && Sorted(ks) && IsRank(ks, k, p) && k !in ks && k != KEY_MAX
    ensures ToMap(Insert(ks, p, k), Insert(vs, p, x)) == ToMap(ks, vs)[k := x]
  {
    InsertSorted(ks, k, p);
    var ks', vs' := Insert(ks, p, k), Insert(vs, p, x);
    var m := ToMap(ks, vs)[k := x];
    forall a ensures a in m <==> a in ks' { InsertMember(ks, k, p, a); }
    assert |ks'| == |ks| + 1 == |vs'|;
    hide Insert, Sorted, IndexOf;
    forall q | 0 <= q < |ks'| ensures m[ks'[q]] == vs'[q] { InsertLookup(ks, vs, k, x, p, q); }
    SameLookups(ks', vs', m);
  }

  lemma UpdateIsUpdate(ks: seq<Key>, vs: seq<Val>, x: Val, p: nat)
    requires |ks| == |vs| && Sorted(ks) && p < |ks|
    ensures ToMap(ks, vs[p := x]) == ToMap(ks, vs)[ks[p] := x]
  {
    var m := ToMap(ks, vs)[ks[p] := x];
    forall q | 0 <= q < |ks| ensures m[ks[q]] == vs[p := x][q] {
      ToMapAt(ks, vs, q);
      if ks[q] == ks[p] { SortedUnique(ks, p, q); }
    }
    hide Sorted;
    SameLookups(ks, vs[p := x], m);
  }

  /** Removing a position is the map deletion. */
  lemma RemoveIsDelete(ks: seq<Key>, vs: seq<Val>, p: nat)
    requires |ks| == |vs| && Sorted(ks) && p < |ks|
    ensures Sorted(DropAt(ks, p)) && ToMap(DropAt(ks, p), DropAt(vs, p)) == ToMap(ks, vs) - {ks[p]}
  {
    RemoveSorted(ks, p);
    var ks', vs' := DropAt(ks, p), DropAt(vs, p);
    var m := ToMap(ks, vs) - {ks[p]};
    assert |ks'| == |ks| - 1 == |vs'|;
    hide DropAt, Sorted, IndexOf;
    forall q | 0 <= q < |ks'| ensures ks'[q] != ks[p] && ks'[q] in m && m[ks'[q]] == vs'[q] {
      RemoveLookup(ks, vs, p, q);
    }
    forall a ensures a in m <==> a in ks' { RemoveMember(ks, p, a); }
    SameLookups(ks', vs', m);
  }
}

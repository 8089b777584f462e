/**
 Sequences without repetition, and the moves the lists of this project are made of.
 */
module Sequences {

  datatype Option<T> = None | Some(value: T)

  ghost predicate NoDup<T>(s: seq<T>) { forall i, j :: 0 <= i < j < |s| ==> s[i] != s[j] }

  /** The sequence without its i-th element. */
  ghost function DropAt<T>(s: seq<T>, i: nat): seq<T>
    requires i < |s|
  {
    s[..i] + s[i + 1..]
  }

  lemma DropAtIs<T>(s: seq<T>, i: nat)
    requires i < |s|
    ensures |DropAt(s, i)| == |s| - 1
    ensures forall j :: 0 <= j < |s| - 1 ==> DropAt(s, i)[j] == if j < i then s[j] else s[j + 1]
  {
  }

  lemma DropAtNoDup<T>(s: seq<T>, i: nat)
    requires i < |s| && NoDup(s)
    ensures NoDup(DropAt(s, i)) && s[i] !in DropAt(s, i)
  {
    DropAtIs(s, i);
  }

  lemma AppendNoDup<T>(s: seq<T>, x: T)
    requires NoDup(s) && x !in s
    ensures NoDup(s + [x]) && forall y :: y in s + [x] <==> y in s || y == x
  {
  }

  /** The sequence without the first occurrence of p. */
  function Without(s: seq<nat>, p: nat): (r: seq<nat>) {
    if s == [] then [] else if s[0] == p then s[1..] else [s[0]] + Without(s[1..], p)
  }

  /** lru_update: p moves to the front. */
  function ToFront(s: seq<nat>, p: nat): (r: seq<nat>) { [p] + Without(s, p) }

  lemma {:induction false} WithoutIs(s: seq<nat>, p: nat)
    requires NoDup(s)
    ensures NoDup(Without(s, p)) && (forall x: nat :: x in Without(s, p) <==> x in s && x != p)
    ensures |Without(s, p)| == |s| - if p in s then 1 else 0
    decreases s
  {
    if s != [] {
      var t := s[1..];
      WithoutIs(t, p);
      assert s == [s[0]] + t && s[0] !in t;
      if s[0] != p { ConsNoDup(s[0], Without(t, p)); }
    }
  }

  lemma ConsNoDup(p: nat, s: seq<nat>)
    requires NoDup(s) && p !in s
    ensures NoDup([p] + s) && forall x: nat :: x in [p] + s <==> x == p || x in s
  {
    forall i, j | 0 <= i < j < |[p] + s| ensures ([p] + s)[i] != ([p] + s)[j] {
      assert ([p] + s)[j] == s[j - 1];
      assert s[j - 1] in s;
    }
  }

  /** Dropping the position of an element that occurs once is dropping the element. */
  lemma {:induction false} DropAtIsWithout(s: seq<nat>, i: nat)
    requires i < |s| && NoDup(s)
    ensures DropAt(s, i) == Without(s, s[i])
    decreases s
  {
    if i > 0 {
      DropAtIsWithout(s[1..], i - 1);
      assert DropAt(s, i) == [s[0]] + DropAt(s[1..], i - 1);
    }
  }
}

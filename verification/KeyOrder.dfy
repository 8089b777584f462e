/**
 The order on KVSSD keys: `KEYCMP`, `KEYTEST` and the `key_max` sentinel of
 include/settings.h.  A key is a byte string of at most 255 bytes.
 */
module KeyOrder {

  type Byte = b: int | 0 <= b < 256
  const MAX_KEY_SIZE := 255
  type Key = k: seq<Byte> | |k| <= MAX_KEY_SIZE witness []

  /** The sign of C's `memcmp` on the first n bytes. */
  function MemCmp(a: seq<Byte>, b: seq<Byte>, n: nat): (r: int)
    requires n <= |a| && n <= |b|
    ensures r == 0 <==> a[..n] == b[..n]
    decreases n
  {
    if n == 0 then 0
    else if a[0] < b[0] then assert a[..n][0] != b[..n][0]; -1
    else if b[0] < a[0] then assert a[..n][0] != b[..n][0]; 1
    else
      assert a[..n] == [a[0]] + a[1..][..n - 1];
      assert b[..n] == [b[0]] + b[1..][..n - 1];
      assert a[..n][1..] == a[1..][..n - 1] && b[..n][1..] == b[1..][..n - 1];
      MemCmp(a[1..], b[1..], n - 1)
  }

  function Min(x: nat, y: nat): nat { if x < y then x else y }

  function KeyCmp(a: Key, b: Key): int {
    if |a| == 0 && |b| == 0 then 0
    else if |a| == 0 then -1
    else if |b| == 0 then 1
    else
      var r := MemCmp(a, b, Min(|a|, |b|));
      if r != 0 || |a| == |b| then r
      else if |a| < |b| then -1 else 1
  }

  predicate KeyTest(a: Key, b: Key) {
    |a| == |b| && MemCmp(a, b, Min(|a|, |b|)) == 0
  }

  function Ones(n: nat): (s: seq<Byte>)
    ensures |s| == n && forall i :: 0 <= i < n ==> s[i] == 255
  {
    seq(n, i => 255)
  }

  /** The longest key, all bytes 0xff. */
  const KEY_MAX: Key := Ones(MAX_KEY_SIZE)

  predicate Less(a: Key, b: Key) { KeyCmp(a, b) < 0 }

  /** Lexicographic order, the reference for KEYCMP. */
  predicate Lex(a: seq<Byte>, b: seq<Byte>) {
    if |b| == 0 then false
    else if |a| == 0 then true
    else a[0] < b[0] || (a[0] == b[0] && Lex(a[1..], b[1..]))
  }

  lemma {:induction false} MemCmpLex(a: seq<Byte>, b: seq<Byte>, n: nat)
    requires n == Min(|a|, |b|)
    ensures Lex(a, b) <==> MemCmp(a, b, n) < 0 || (MemCmp(a, b, n) == 0 && |a| < |b|)
    decreases n
  {
    if n > 0 && a[0] == b[0] {
      MemCmpLex(a[1..], b[1..], n - 1);
    }
  }

  /** KEYCMP is the lexicographic order, and both equality tests are equality. */
  lemma {:induction false} KeyCmpIsLexicographic(a: Key, b: Key)
    ensures KeyCmp(a, b) < 0 <==> Lex(a, b)
    ensures KeyCmp(a, b) == 0 <==> a == b
    ensures KeyTest(a, b) <==> a == b
  {
    MemCmpLex(a, b, Min(|a|, |b|));
    assert |a| <= |b| ==> a[..Min(|a|, |b|)] == a;
    assert |b| <= |a| ==> b[..Min(|a|, |b|)] == b;
  }

  lemma {:induction false} LexTotal(a: seq<Byte>, b: seq<Byte>)
    ensures Lex(a, b) || a == b || Lex(b, a)
    ensures !(Lex(a, b) && Lex(b, a))
    ensures !Lex(a, a)
    decreases |a|
  {
    if |a| > 0 {
      LexTotal(a[1..], a[1..]);
      if |b| > 0 && a[0] == b[0] {
        LexTotal(a[1..], b[1..]);
        assert a == [a[0]] + a[1..] && b == [b[0]] + b[1..];
      }
    }
  }

  lemma {:induction false} LexTransitive(a: seq<Byte>, b: seq<Byte>, c: seq<Byte>)
    requires Lex(a, b) && Lex(b, c)
    ensures Lex(a, c)
    decreases |b|
  {
    if |a| > 0 && a[0] == b[0] && b[0] == c[0] {
      LexTransitive(a[1..], b[1..], c[1..]);
    }
  }

  /** KEYCMP orders keys strictly and totally. */
  lemma KeyCmpTotalOrder(a: Key, b: Key, c: Key)
    ensures Less(a, b) || a == b || Less(b, a)
    ensures !(Less(a, b) && Less(b, a)) && !Less(a, a)
    ensures Less(a, b) && Less(b, c) ==> Less(a, c)
    ensures KeyCmp(a, b) > 0 <==> Less(b, a)
  {
    KeyCmpIsLexicographic(a, b);
    KeyCmpIsLexicographic(b, a);
    KeyCmpIsLexicographic(b, c);
    KeyCmpIsLexicographic(a, c);
    KeyCmpIsLexicographic(a, a);
    LexTotal(a, b);
    if Lex(a, b) && Lex(b, c) { LexTransitive(a, b, c); }
  }

  lemma {:induction false} LexMax(a: seq<Byte>, m: seq<Byte>)
    requires |a| <= |m| && forall i :: 0 <= i < |m| ==> m[i] == 255
    ensures a == m || Lex(a, m)
    decreases |a|
  {
    if |a| > 0 {
      LexMax(a[1..], m[1..]);
      assert a == [a[0]] + a[1..] && m == [m[0]] + m[1..];
    }
  }

  /** The sentinel is above every other key. */
  lemma KeyMaxIsGreatest(k: Key)
    ensures k == KEY_MAX || Less(k, KEY_MAX)
  {
    LexMax(k, KEY_MAX);
    KeyCmpIsLexicographic(k, KEY_MAX);
  }
}

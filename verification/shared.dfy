/** Helpers used across the model: optional values, the JavaScript notions of
    whitespace, string length and number formatting, and insertion-ordered maps
    (a JavaScript `Map`). */
module Shared {

  datatype Option<+T> = None | Some(value: T)

  function Min(a: int, b: int): int { if a <= b then a else b }

  function Max(a: int, b: int): int { if a >= b then a else b }

  /** The characters matched by `\s` in a JavaScript regular expression
      (ECMAScript WhiteSpace and LineTerminator). */
  predicate IsJsWhitespace(c: char) {
    c == '\t' || c == '\n' || c == '\U{000B}' || c == '\U{000C}' || c == '\r' || c == ' '
    || c == '\U{00A0}' || c == '\U{1680}' || ('\U{2000}' <= c <= '\U{200A}')
    || c == '\U{2028}' || c == '\U{2029}' || c == '\U{202F}' || c == '\U{205F}'
    || c == '\U{3000}' || c == '\U{FEFF}'
  }

  /** `\d` in a JavaScript regular expression: ASCII digits only. */
  predicate IsDigit(c: char) { '0' <= c <= '9' }

  predicate AllDigits(s: string) { forall i :: 0 <= i < |s| ==> IsDigit(s[i]) }

  /** `s.length` in JavaScript counts UTF-16 code units: two for a character
      above U+FFFF, one for every other. */
  function Utf16Length(s: string): (n: nat)
    ensures |s| <= n <= 2 * |s|
    ensures (forall i :: 0 <= i < |s| ==> s[i] as int <= 0xFFFF) ==> n == |s|
  {
    if s == [] then 0 else (if s[0] as int > 0xFFFF then 2 else 1) + Utf16Length(s[1..])
  }

  function DigitChar(d: nat): (c: char)
    requires d < 10
    ensures IsDigit(c) && c as int - '0' as int == d
  {
    ('0' as int + d) as char
  }

  /** Decimal rendering of a natural number, as JavaScript's `String(n)` gives it. */
  function NatToString(n: nat): (s: string)
    ensures |s| >= 1 && AllDigits(s)
    decreases n
  {
    if n < 10 then [DigitChar(n)] else NatToString(n / 10) + [DigitChar(n % 10)]
  }

  /** Decimal rendering of an integer, with a leading '-' when negative. */
  function IntToString(n: int): string {
    if n < 0 then "-" + NatToString(-n) else NatToString(n)
  }

  /** The value of a string of decimal digits. */
  function DigitsValue(s: string): nat
    requires AllDigits(s)
  {
    if s == [] then 0 else DigitsValue(s[..|s| - 1]) * 10 + (s[|s| - 1] as int - '0' as int)
  }

  /** Reading back the decimal rendering of a number gives the number. */
  lemma {:induction false} NatToStringRoundTrip(n: nat)
    ensures DigitsValue(NatToString(n)) == n
    decreases n
  {
    if n >= 10 {
      var s := NatToString(n);
      NatToStringRoundTrip(n / 10);
      assert s[..|s| - 1] == NatToString(n / 10);
    }
  }

  /** Different numbers render differently. */
  lemma NatToStringInjective(a: nat, b: nat)
    requires NatToString(a) == NatToString(b)
    ensures a == b
  {
    NatToStringRoundTrip(a);
    NatToStringRoundTrip(b);
  }

  /** A non-empty sequence is its front followed by its last element. */
  lemma SplitLast<T>(s: seq<T>)
    requires s != []
    ensures s == s[..|s| - 1] + [s[|s| - 1]]
  {
  }

  // ---------------------------------------------------------------------------
  // Insertion-ordered maps: a JavaScript `Map` as a sequence of entries.
  // ---------------------------------------------------------------------------

  predicate DistinctKeys<K(==), V>(m: seq<(K, V)>) {
    forall i, j :: 0 <= i < j < |m| ==> m[i].0 != m[j].0
  }

  function Keys<K, V>(m: seq<(K, V)>): (ks: seq<K>)
    ensures |ks| == |m| && forall i :: 0 <= i < |m| ==> ks[i] == m[i].0
  {
    seq(|m|, i requires 0 <= i < |m| => m[i].0)
  }

  /** `m.get(k)`: the value of the entry with key `k`, if any. */
  function Get<K(==), V>(m: seq<(K, V)>, k: K): (r: Option<V>)
    ensures r.Some? <==> exists i :: 0 <= i < |m| && m[i].0 == k
    ensures DistinctKeys(m) ==> forall i :: 0 <= i < |m| && m[i].0 == k ==> r == Some(m[i].1)
  {
    if m == [] then None
    else if m[0].0 == k then Some(m[0].1)
    else
      var r := Get(m[1..], k);
      assert forall i :: 1 <= i < |m| ==> m[i] == m[1..][i - 1];
      r
  }

  /** A key has an entry exactly when it is among the keys. */
  lemma GetIffKeys<K, V>(m: seq<(K, V)>, k: K)
    ensures Get(m, k).Some? <==> k in Keys(m)
  {
    if k in Keys(m) {
      var i :| 0 <= i < |m| && Keys(m)[i] == k;
    }
  }

  /** `m.set(k, v)`: replaces the value of an existing key in place, or appends
      a new entry at the end of the insertion order. */
  function Put<K(==,!new), V>(m: seq<(K, V)>, k: K, v: V): (r: seq<(K, V)>)
    ensures Get(r, k) == Some(v)
  {
    if m == [] then [(k, v)]
    else if m[0].0 == k then [(k, v)] + m[1..]
    else [m[0]] + Put(m[1..], k, v)
  }

  /** `Put` leaves every other key's value alone. */
  lemma {:induction false} GetPut<K(!new), V>(m: seq<(K, V)>, k: K, v: V)
    ensures forall k' :: k' != k ==> Get(Put(m, k, v), k') == Get(m, k')
    decreases |m|
  {
    if m != [] && m[0].0 != k {
      GetPut(m[1..], k, v);
    }
  }

  /** Every entry after `Put` is the new one or an entry that was there before. */
  lemma {:induction false} PutEntries<K(!new), V>(m: seq<(K, V)>, k: K, v: V)
    ensures forall e :: e in Put(m, k, v) ==> e == (k, v) || e in m
    decreases |m|
  {
    if m != [] && m[0].0 != k {
      PutEntries(m[1..], k, v);
    }
  }

  /** `Put` keeps the insertion order: an existing key keeps its position, a
      new key comes last. */
  lemma {:induction false} PutKeys<K(!new), V>(m: seq<(K, V)>, k: K, v: V)
    ensures Get(m, k).Some? ==> Keys(Put(m, k, v)) == Keys(m)
    ensures Get(m, k).None? ==> Keys(Put(m, k, v)) == Keys(m) + [k]
    decreases |m|
  {
    if m == [] {
      assert Keys(Put(m, k, v)) == [k] == Keys(m) + [k];
    } else if m[0].0 == k {
      assert Keys(Put(m, k, v)) == Keys(m) by {
        var r := Put(m, k, v);
        assert |r| == |m| && forall i :: 0 <= i < |m| ==> r[i].0 == m[i].0;
      }
    } else {
      PutKeys(m[1..], k, v);
      PutKeysStep(m, k, v);
    }
  }

  lemma PutKeysStep<K(!new), V>(m: seq<(K, V)>, k: K, v: V)
    requires m != [] && m[0].0 != k
    requires Get(m[1..], k).Some? ==> Keys(Put(m[1..], k, v)) == Keys(m[1..])
    requires Get(m[1..], k).None? ==> Keys(Put(m[1..], k, v)) == Keys(m[1..]) + [k]
    ensures Get(m, k).Some? ==> Keys(Put(m, k, v)) == Keys(m)
    ensures Get(m, k).None? ==> Keys(Put(m, k, v)) == Keys(m) + [k]
  {
    PutPastHead(m, k, v);
    KeysCons(m[0], Put(m[1..], k, v));
    KeysOfHead(m);
    ConsKeepsShape(m[0].0, Keys(Put(m[1..], k, v)), Keys(m[1..]), k);
  }

  lemma ConsKeepsShape<K>(x: K, after: seq<K>, before: seq<K>, k: K)
    ensures after == before ==> [x] + after == [x] + before
    ensures after == before + [k] ==> [x] + after == ([x] + before) + [k]
  {
    if after == before + [k] {
      assert [x] + (before + [k]) == ([x] + before) + [k];
    }
  }

  lemma KeysOfHead<K, V>(m: seq<(K, V)>)
    requires m != []
    ensures Keys(m) == [m[0].0] + Keys(m[1..])
  {
    KeysCons(m[0], m[1..]);
    assert m == [m[0]] + m[1..];
  }

  /** Past a head entry with another key, `Put` and `Get` work on the rest. */
  lemma PutPastHead<K(!new), V>(m: seq<(K, V)>, k: K, v: V)
    requires m != [] && m[0].0 != k
    ensures Put(m, k, v) == [m[0]] + Put(m[1..], k, v)
    ensures Get(m, k) == Get(m[1..], k)
  {
  }

  /** The keys after adding a key that was absent. */
  lemma AppendedKeys<K(!new), V>(r: seq<(K, V)>, m: seq<(K, V)>, k: K, v: V, ks: seq<K>)
    requires r == Put(m, k, v) && Get(m, k).None? && ks == Keys(m) + [k]
    ensures Keys(r) == ks
  {
    PutKeys(m, k, v);
  }

  lemma KeysConcat<K, V>(a: seq<(K, V)>, b: seq<(K, V)>)
    ensures Keys(a + b) == Keys(a) + Keys(b)
  {
  }

  lemma KeysCons<K, V>(e: (K, V), m: seq<(K, V)>)
    ensures Keys([e] + m) == [e.0] + Keys(m)
  {
    var l := [e] + m;
    forall i | 0 <= i < |l| ensures Keys(l)[i] == ([e.0] + Keys(m))[i] {
      if i > 0 { assert l[i] == m[i - 1]; }
    }
  }

  /** Keys that are distinct stay distinct under `Put`. */
  lemma PutDistinct<K(!new), V>(m: seq<(K, V)>, k: K, v: V)
    requires DistinctKeys(m)
    ensures DistinctKeys(Put(m, k, v))
  {
    var r := Put(m, k, v);
    var ks := Keys(r);
    PutKeys(m, k, v);
    forall i, j | 0 <= i < j < |r| ensures r[i].0 != r[j].0 {
      if Get(m, k).Some? {
        assert ks == Keys(m);
        assert r[i].0 == ks[i] == m[i].0 && r[j].0 == ks[j] == m[j].0;
      } else {
        assert ks == Keys(m) + [k];
        if j < |m| {
          assert r[i].0 == ks[i] == m[i].0 && r[j].0 == ks[j] == m[j].0;
        } else {
          assert r[j].0 == k && r[i].0 == m[i].0;
        }
      }
    }
  }
}

/** The pieces of the PHP runtime that the cURL client relies on: its loosely
    typed values and their truthiness, `strtoupper`, the decimal rendering of
    integers inside string interpolation, and the ordered, key-unique arrays
    that hold the client's option overrides. */
module Php {

  datatype Option<+T> = None | Some(value: T)

  datatype Result<+T, +E> = Ok(value: T) | Err(error: E)

  /** A PHP value, as far as option values, transfer results and header lists need one. */
  datatype Value = Null | Bool(b: bool) | Int(i: int) | Str(s: string) | List(items: seq<Value>)

  /** PHP's conversion to boolean: null, false, 0, "", "0" and the empty array are falsy. */
  predicate Truthy(v: Value) {
    match v
    case Null => false
    case Bool(b) => b
    case Int(i) => i != 0
    case Str(s) => s != "" && s != "0"
    case List(items) => items != []
  }

  /** The six falsy values, and no others. */
  lemma FalsyValues(v: Value)
    ensures !Truthy(v) <==> v == Null || v == Bool(false) || v == Int(0) || v == Str("") || v == Str("0") || v == List([])
  {
  }

  /** A map lookup that makes absence explicit. */
  function Get<K, V>(m: map<K, V>, k: K): Option<V> {
    if k in m then Some(m[k]) else None
  }

  // ---------------------------------------------------------------------------
  // strtoupper (byte-wise, in the "C" locale: only a-z change)

  predicate IsLower(c: char) { 'a' <= c <= 'z' }

  function UpperChar(c: char): char {
    if IsLower(c) then (c as int - 32) as char else c
  }

  function Upper(s: string): (r: string)
    ensures |r| == |s|
    ensures forall i :: 0 <= i < |s| ==> r[i] == UpperChar(s[i])
    ensures forall i :: 0 <= i < |r| ==> !IsLower(r[i])
  {
    if s == [] then [] else [UpperChar(s[0])] + Upper(s[1..])
  }

  /** Upper-casing twice is upper-casing once. */
  lemma UpperIdempotent(s: string)
    ensures Upper(Upper(s)) == Upper(s)
  {
    assert forall i :: 0 <= i < |s| ==> UpperChar(Upper(s)[i]) == Upper(s)[i];
  }

  /** Two names that differ only in the case of their letters upper-case to the same name. */
  lemma UpperIgnoresCase(a: string, b: string)
    requires |a| == |b|
    requires forall i :: 0 <= i < |a| ==> a[i] == b[i] || UpperChar(a[i]) == UpperChar(b[i])
    ensures Upper(a) == Upper(b)
  {
  }

  // ---------------------------------------------------------------------------
  // Integers inside double-quoted strings are written in decimal

  predicate IsDigit(c: char) { '0' <= c <= '9' }

  predicate AllDigits(s: string) {
    forall i :: 0 <= i < |s| ==> IsDigit(s[i])
  }

  function DigitChar(d: nat): char
    requires d < 10
  {
    ('0' as int + d) as char
  }

  function DigitValue(c: char): nat
    requires IsDigit(c)
  {
    c as int - '0' as int
  }

  /** The decimal digits of `n`, most significant first, without leading zeros. */
  function Decimal(n: nat): (s: string)
    ensures s != [] && AllDigits(s)
    ensures s[0] == '0' ==> n == 0
    decreases n
  {
    if n < 10 then [DigitChar(n)] else Decimal(n / 10) + [DigitChar(n % 10)]
  }

  /** The number a string of decimal digits denotes. */
  function DecimalValue(s: string): nat
    requires AllDigits(s)
    decreases |s|
  {
    if s == [] then 0 else DecimalValue(s[..|s| - 1]) * 10 + DigitValue(s[|s| - 1])
  }

  /** Reading the digits back gives the number that was written. */
  lemma {:induction false} DecimalRoundTrip(n: nat)
    ensures DecimalValue(Decimal(n)) == n
    decreases n
  {
    var s := Decimal(n);
    if n >= 10 {
      DecimalRoundTrip(n / 10);
      assert s[..|s| - 1] == Decimal(n / 10);
    }
  }

  /** PHP's conversion of an integer to a string. */
  function IntToString(i: int): string {
    if i < 0 then "-" + Decimal(-i) else Decimal(i)
  }

  /** The length of the run of digits at the end of `s`. */
  function TrailingDigits(s: string): (k: nat)
    ensures k <= |s|
    ensures AllDigits(s[|s| - k..])
    ensures k < |s| ==> !IsDigit(s[|s| - k - 1])
    decreases |s|
  {
    if s == [] || !IsDigit(s[|s| - 1]) then 0 else 1 + TrailingDigits(s[..|s| - 1])
  }

  /** Digits appended after a non-digit form exactly the trailing run. */
  lemma {:induction false} TrailingDigitsAfter(x: string, d: string)
    requires x != [] && !IsDigit(x[|x| - 1])
    requires AllDigits(d)
    ensures TrailingDigits(x + d) == |d|
    decreases |d|
  {
    if d != [] {
      var d' := d[..|d| - 1];
      assert (x + d)[..|x + d| - 1] == x + d';
      TrailingDigitsAfter(x, d');
    } else {
      assert x + d == x;
    }
  }

  // ---------------------------------------------------------------------------
  // PHP arrays with string keys: ordered, each key at most once

  predicate DistinctKeys<V>(a: seq<(string, V)>) {
    forall i, j :: 0 <= i < j < |a| ==> a[i].0 != a[j].0
  }

  /** Reading an array entry: the value stored under `k`, if any. */
  function Lookup<V>(a: seq<(string, V)>, k: string): (r: Option<V>)
    ensures r.None? <==> forall i :: 0 <= i < |a| ==> a[i].0 != k
    ensures r.Some? ==> exists i :: 0 <= i < |a| && a[i] == (k, r.value)
    decreases |a|
  {
    if a == [] then None
    else if a[0].0 == k then Some(a[0].1)
    else Lookup(a[1..], k)
  }

  /** Assigning an array entry: overwrites in place when `k` is present, appends otherwise. */
  function Put<V(==)>(a: seq<(string, V)>, k: string, v: V): (r: seq<(string, V)>)
    ensures Lookup(r, k) == Some(v)
    ensures forall k' :: k' != k ==> Lookup(r, k') == Lookup(a, k')
    ensures |r| == if Lookup(a, k).Some? then |a| else |a| + 1
    ensures forall i :: 0 <= i < |a| ==> r[i].0 == a[i].0
    ensures forall i :: |a| <= i < |r| ==> r[i].0 == k
    decreases |a|
  {
    if a == [] then [(k, v)]
    else if a[0].0 == k then [(k, v)] + a[1..]
    else
      var rest := Put(a[1..], k, v);
      assert Lookup([a[0]] + rest, k) == Lookup(rest, k);
      [a[0]] + rest
  }

  /** Assigning an entry keeps the keys of an array unique. */
  lemma PutKeepsKeysDistinct<V>(a: seq<(string, V)>, k: string, v: V)
    requires DistinctKeys(a)
    ensures DistinctKeys(Put(a, k, v))
  {
    var r := Put(a, k, v);
    forall i, j | 0 <= i < j < |r|
      ensures r[i].0 != r[j].0
    {
      if j == |a| {
        assert Lookup(a, k).None?;
        assert r[i].0 == a[i].0 != k;
      }
    }
  }
}

/** The few pieces of JavaScript array semantics the engine relies on:
    reading a slot (undefined when out of range), `||` on string slots,
    `splice` as used by `Array.prototype.insert`, and which string keys of
    an array are array indices (the only keys `forEach` visits). */
module JsArrays {

  datatype Option<T> = None | Some(value: T)

  /** `a[i]` on a dense JavaScript array: the slot, or undefined. */
  function Get<T>(s: seq<T>, i: int): (r: Option<T>)
    ensures r.Some? <==> 0 <= i < |s|
    ensures r.Some? ==> r.value == s[i]
  {
    if 0 <= i < |s| then Some(s[i]) else None
  }

  /** A string slot is truthy when it is present and not the empty string. */
  predicate Truthy(s: Option<string>) {
    s.Some? && s.value != ""
  }

  /** `a || b` where `a` is a string slot and `b` a literal fallback. */
  function OrElse(a: Option<string>, b: string): (r: string)
    ensures Truthy(a) ==> r == a.value
    ensures !Truthy(a) ==> r == b
  {
    if Truthy(a) then a.value else b
  }

  /** The start position `splice(index, …)` uses on an array of length `len`:
      a negative index counts from the end, and both ends are clamped. */
  function SpliceStart(index: int, len: nat): (k: nat)
    ensures k <= len
    ensures 0 <= index <= len ==> k == index
    ensures index > len ==> k == len
    ensures index < 0 ==> k == (if len + index < 0 then 0 else len + index)
  {
    if index < 0 then (if len + index < 0 then 0 else len + index)
    else if index > len then len
    else index
  }

  /** `Array.prototype.insert(index, ...items)`: `splice(index, 0, ...items)`. */
  function Insert<T>(s: seq<T>, index: int, items: seq<T>): (r: seq<T>)
    ensures |r| == |s| + |items|
    ensures var k := SpliceStart(index, |s|);
      && (forall i :: 0 <= i < k ==> r[i] == s[i])
      && (forall j :: 0 <= j < |items| ==> r[k + j] == items[j])
      && (forall i :: k <= i < |s| ==> r[i + |items|] == s[i])
  {
    var k := SpliceStart(index, |s|);
    s[..k] + items + s[k..]
  }

  /** Taking the inserted items back out restores the array. */
  lemma InsertThenRemove<T>(s: seq<T>, index: int, items: seq<T>)
    ensures var k := SpliceStart(index, |s|);
      var r := Insert(s, index, items);
      r[k..k + |items|] == items && r[..k] + r[k + |items|..] == s
  {
    var k := SpliceStart(index, |s|);
    var r := Insert(s, index, items);
    assert r[k..k + |items|] == items;
    assert r[..k] == s[..k];
    assert r[k + |items|..] == s[k..];
    assert s[..k] + s[k..] == s;
  }

  // ---------------------------------------------------------------------
  // Array-index keys. A JavaScript array used as a string-keyed map keeps
  // every key, but `length` and `forEach` see only the keys that are the
  // canonical decimal form of an integer in [0, 2^32 - 2].

  /** One more than the largest array index. */
  const MaxArrayLength: nat := 4294967295

  predicate IsDigit(c: char) {
    '0' <= c <= '9'
  }

  predicate IsDigits(s: string) {
    forall i :: 0 <= i < |s| ==> IsDigit(s[i])
  }

  function DigitChar(d: nat): (c: char)
    requires d < 10
    ensures IsDigit(c)
  {
    ['0', '1', '2', '3', '4', '5', '6', '7', '8', '9'][d]
  }

  function DigitValue(c: char): (d: nat)
    requires IsDigit(c)
    ensures d < 10 && DigitChar(d) == c
  {
    (c as int - '0' as int) as nat
  }

  /** The decimal text of a natural number (JavaScript's `String(k)`). */
  function Decimal(k: nat): (s: string)
    ensures |s| > 0 && IsDigits(s)
    decreases k
  {
    if k < 10 then [DigitChar(k)] else Decimal(k / 10) + [DigitChar(k % 10)]
  }

  /** The value of a string of decimal digits. */
  function ParseDecimal(s: string): nat
    requires IsDigits(s)
    decreases |s|
  {
    if s == [] then 0
    else ParseDecimal(s[..|s| - 1]) * 10 + DigitValue(s[|s| - 1])
  }

  /** No sign, no leading zero, at least one digit. */
  predicate Canonical(s: string) {
    |s| > 0 && IsDigits(s) && (s[0] == '0' ==> |s| == 1)
  }

  predicate IsArrayIndex(key: string) {
    Canonical(key) && ParseDecimal(key) < MaxArrayLength
  }

  lemma {:induction false} DecimalCanonical(k: nat)
    ensures Canonical(Decimal(k)) && ParseDecimal(Decimal(k)) == k
    decreases k
  {
    if k >= 10 {
      DecimalCanonical(k / 10);
      var s := Decimal(k);
      assert s[..|s| - 1] == Decimal(k / 10);
      assert s[0] == Decimal(k / 10)[0];
      assert DigitValue(DigitChar(k % 10)) == k % 10;
    }
  }

  lemma {:induction false} ParseDecimalPositive(s: string)
    requires Canonical(s) && s[0] != '0'
    ensures ParseDecimal(s) >= 1
    decreases |s|
  {
    if |s| > 1 {
      var t := s[..|s| - 1];
      assert t[0] == s[0];
      ParseDecimalPositive(t);
    } else {
      assert s[..0] == [];
    }
  }

  /** Canonical digit strings and naturals are in one-to-one correspondence. */
  lemma {:induction false} CanonicalRoundTrip(s: string)
    requires Canonical(s)
    ensures Decimal(ParseDecimal(s)) == s
    decreases |s|
  {
    var last := DigitValue(s[|s| - 1]);
    if |s| == 1 {
      assert s[..0] == [];
      assert ParseDecimal(s) == last;
    } else {
      var t := s[..|s| - 1];
      assert t[0] == s[0];
      ParseDecimalPositive(t);
      CanonicalRoundTrip(t);
      var v := ParseDecimal(s);
      assert v == ParseDecimal(t) * 10 + last;
      assert v >= 10;
      assert v / 10 == ParseDecimal(t) && v % 10 == last;
      assert s == t + [s[|s| - 1]];
    }
  }

  /** `len` is the `length` of an array whose keys are `keys`. */
  predicate IsArrayLength(keys: set<string>, len: nat) {
    && (forall key :: key in keys && IsArrayIndex(key) ==> ParseDecimal(key) < len)
    && (len == 0 || (len <= MaxArrayLength && Decimal(len - 1) in keys))
  }

  /** The decimal text of a number below the largest length is an index key. */
  lemma IndexKey(k: nat)
    requires k < MaxArrayLength
    ensures IsArrayIndex(Decimal(k)) && ParseDecimal(Decimal(k)) == k
  {
    DecimalCanonical(k);
  }

  /** A length's last index is a key, so it is below any other length. */
  lemma ArrayLengthBound(keys: set<string>, a: nat, b: nat)
    requires IsArrayLength(keys, a) && IsArrayLength(keys, b)
    ensures a <= b
  {
    if a > 0 {
      IndexKey(a - 1);
    }
  }

  /** Every key set has exactly one such length. */
  lemma ArrayLengthUnique(keys: set<string>, a: nat, b: nat)
    requires IsArrayLength(keys, a) && IsArrayLength(keys, b)
    ensures a == b
  {
    ArrayLengthBound(keys, a, b);
    ArrayLengthBound(keys, b, a);
  }

  /** What the length loop knows after visiting `keys - rest`. */
  ghost predicate LengthSoFar(keys: set<string>, rest: set<string>, len: nat) {
    && rest <= keys
    && (forall key :: key in keys - rest && IsArrayIndex(key) ==> ParseDecimal(key) < len)
    && (len == 0 || (len <= MaxArrayLength && Decimal(len - 1) in keys))
  }

  /** Visiting one more key keeps `LengthSoFar`. */
  lemma LengthStep(keys: set<string>, rest: set<string>, len: nat, key: string)
    requires LengthSoFar(keys, rest, len) && key in rest
    ensures IsArrayIndex(key) && ParseDecimal(key) >= len ==>
      LengthSoFar(keys, rest - {key}, ParseDecimal(key) + 1)
    ensures !(IsArrayIndex(key) && ParseDecimal(key) >= len) ==>
      LengthSoFar(keys, rest - {key}, len)
  {
    if IsArrayIndex(key) && ParseDecimal(key) >= len {
      CanonicalRoundTrip(key);
    }
  }

  /** The `length` of an array, computed from its keys. The JavaScript
      runtime keeps `length` up to date by itself; this loop over the key
      set stands for no loop in the engine and only derives that value from
      the keys, for the `forEach` that reads it. */
  method ArrayLength(keys: set<string>) returns (len: nat)
    ensures IsArrayLength(keys, len)
  {
    len := 0;
    var rest := keys;
    while rest != {}
      invariant LengthSoFar(keys, rest, len)
      decreases rest
    {
      var key :| key in rest;
      LengthStep(keys, rest, len, key);
      if IsArrayIndex(key) && ParseDecimal(key) >= len {
        len := ParseDecimal(key) + 1;
      }
      rest := rest - {key};
    }
  }

  /** Concatenation regrouped. */
  lemma Associative<T>(a: seq<T>, b: seq<T>, c: seq<T>)
    ensures a + (b + c) == (a + b) + c
  {
  }
}

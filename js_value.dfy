/**
 * The JavaScript values that flow through the authentication state: JSON-like
 * trees whose leaves may also be byte buffers (Node's Buffer / Uint8Array).
 */
module JsValue {
  newtype byte = x: int | 0 <= x < 256

  /** A JavaScript value as the auth-state code sees it. Numbers are integral. */
  datatype Value =
    | Undefined
    | Null
    | Num(n: int)
    | Str(s: string)
    | Bool(b: bool)
    | Bytes(data: seq<byte>)
    | Arr(items: seq<Value>)
    | Obj(fields: map<string, Value>)

  /** JavaScript truthiness (`if (v)`, `v && …`, `v || …`). */
  predicate Truthy(v: Value) {
    match v
    case Undefined => false
    case Null => false
    case Num(n) => n != 0
    case Str(s) => s != ""
    case Bool(b) => b
    case _ => true
  }

  /** ToUint8 of an integral number: reduction modulo 2^8 into 0..255. */
  function ByteOf(n: int): (r: byte)
    ensures (r as int - n) % 256 == 0
  {
    (n % 256) as byte
  }

  predicate IsDigit(c: char) {
    '0' <= c <= '9'
  }

  /** The regular expression /^\d+$/ (ASCII digits, at least one). */
  predicate IsDigits(k: string) {
    |k| > 0 && forall i :: 0 <= i < |k| ==> IsDigit(k[i])
  }

  /** The number a string of decimal digits denotes (unary `+k` on such a key). */
  function DigitsValue(k: string): nat
    requires forall i :: 0 <= i < |k| ==> IsDigit(k[i])
  {
    if |k| == 0 then 0
    else
      assert IsDigit(k[|k| - 1]);
      DigitsValue(k[..|k| - 1]) * 10 + (k[|k| - 1] as int - '0' as int)
  }

  /**
   * The order in which an all-digit-keyed object's keys come out of
   * `Object.keys(v).sort((a, b) => +a - +b)`: ascending numeric value; among
   * keys of equal value (leading zeros) the shorter first.
   */
  predicate KeyBefore(a: string, b: string)
    requires IsDigits(a) && IsDigits(b)
  {
    DigitsValue(a) < DigitsValue(b) || (DigitsValue(a) == DigitsValue(b) && |a| < |b|)
  }

  /** Two digit strings of the same length and value are the same string. */
  lemma {:induction false} DigitsInjective(a: string, b: string)
    requires forall i :: 0 <= i < |a| ==> IsDigit(a[i])
    requires forall i :: 0 <= i < |b| ==> IsDigit(b[i])
    requires |a| == |b| && DigitsValue(a) == DigitsValue(b)
    ensures a == b
  {
    if |a| > 0 {
      var n := |a| - 1;
      var da, db := a[n] as int - '0' as int, b[n] as int - '0' as int;
      var pa, pb := DigitsValue(a[..n]), DigitsValue(b[..n]);
      assert IsDigit(a[n]) && IsDigit(b[n]);
      var v := pa * 10 + da;
      assert v == pb * 10 + db;
      assert da == v % 10 && db == v % 10;
      assert pa == v / 10 && pb == v / 10;
      DigitsInjective(a[..n], b[..n]);
      assert a == a[..n] + [a[n]];
      assert b == b[..n] + [b[n]];
    }
  }

  /** KeyBefore is a strict total order on digit strings. */
  lemma KeyBeforeTotal(a: string, b: string)
    requires IsDigits(a) && IsDigits(b) && a != b
    ensures KeyBefore(a, b) || KeyBefore(b, a)
  {
    if DigitsValue(a) == DigitsValue(b) && |a| == |b| {
      DigitsInjective(a, b);
    }
  }

  /** Every non-empty set of digit keys has a first key. */
  lemma {:induction false} FirstKeyExists(ks: set<string>)
    requires ks != {} && forall k :: k in ks ==> IsDigits(k)
    ensures exists m :: m in ks && forall j :: j in ks ==> j == m || KeyBefore(m, j)
  {
    var x :| x in ks;
    if ks != {x} {
      var rest := ks - {x};
      FirstKeyExists(rest);
      var m :| m in rest && forall j :: j in rest ==> j == m || KeyBefore(m, j);
      if KeyBefore(x, m) {
        forall j | j in ks
          ensures j == x || KeyBefore(x, j)
        {
          if j != x {
            assert j in rest;
          }
        }
      } else {
        KeyBeforeTotal(m, x);
        assert forall j :: j in ks ==> j == m || KeyBefore(m, j);
      }
    }
  }

  /** The keys of a set of digit keys, in the order the sort callback puts them. */
  function SortedKeys(ks: set<string>): (r: seq<string>)
    requires forall k :: k in ks ==> IsDigits(k)
    ensures |r| == |ks|
    ensures forall i :: 0 <= i < |r| ==> r[i] in ks
    ensures forall k :: k in ks ==> k in r
    ensures forall i, j :: 0 <= i < j < |r| ==> KeyBefore(r[i], r[j])
    decreases |ks|
  {
    if ks == {} then []
    else
      FirstKeyExists(ks);
      var m :| m in ks && forall j :: j in ks ==> j == m || KeyBefore(m, j);
      [m] + SortedKeys(ks - {m})
  }

  /**
   * `Uint8Array.from(arr)` on one element: JavaScript ToNumber followed by
   * ToUint8. Strings are read as decimal digits; every other string, and
   * every object, array or buffer, reads as NaN or 0 and gives 0.
   */
  function ToByte(v: Value): (r: byte)
    ensures v.Num? ==> (r as int - v.n) % 256 == 0
    ensures v.Bool? ==> r == if v.b then 1 else 0
    ensures v.Str? && IsDigits(v.s) ==> (r as int - DigitsValue(v.s)) % 256 == 0
    ensures !v.Num? && !v.Bool? && !v.Str? ==> r == 0
  {
    match v
    case Num(n) => ByteOf(n)
    case Bool(b) => if b then 1 else 0
    case Str(s) => if IsDigits(s) then ByteOf(DigitsValue(s)) else 0
    case _ => 0
  }
}

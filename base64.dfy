/**
 * Base 64 as Node's `Buffer` speaks it: encoding with the padded standard
 * alphabet of section 4 of RFC 4648 (`buf.toString("base64")`), and decoding
 * as `Buffer.from(text, "base64")` does, which is lenient: it also accepts the
 * URL-safe alphabet of section 5, skips characters outside both alphabets,
 * stops at the first '=', and decodes a trailing group of two or three
 * characters into one or two bytes.
 */
module Base64 {
  import opened Wrappers
  import opened JsValue

  /** Table 1 of RFC 4648: the character that encodes a 6-bit value. */
  function CharOf(x: int): (c: char)
    requires 0 <= x < 64
  {
    if x < 26 then ('A' as int + x) as char
    else if x < 52 then ('a' as int + (x - 26)) as char
    else if x < 62 then ('0' as int + (x - 52)) as char
    else if x == 62 then '+'
    else '/'
  }

  /** The decoder's table: the 6-bit value of a character of either alphabet. */
  function ValueOf(c: char): (r: Option<int>)
    ensures r.Some? ==> 0 <= r.value < 64
  {
    if 'A' <= c <= 'Z' then Some(c as int - 'A' as int)
    else if 'a' <= c <= 'z' then Some(c as int - 'a' as int + 26)
    else if '0' <= c <= '9' then Some(c as int - '0' as int + 52)
    else if c == '+' || c == '-' then Some(62)
    else if c == '/' || c == '_' then Some(63)
    else None
  }

  lemma ValueOfCharOf(x: int)
    requires 0 <= x < 64
    ensures ValueOf(CharOf(x)) == Some(x) && CharOf(x) != '='
  {
  }

  predicate IsSextets(q: seq<int>) {
    forall i :: 0 <= i < |q| ==> 0 <= q[i] < 64
  }

  /** The 6-bit groups of a byte string, without padding. */
  function EncodeSextets(b: seq<byte>): (q: seq<int>)
    ensures IsSextets(q)
    ensures |q| == |b| / 3 * 4 + (if |b| % 3 == 0 then 0 else |b| % 3 + 1)
  {
    if |b| == 0 then []
    else
      var b0 := b[0] as int;
      if |b| == 1 then [b0 / 4, b0 % 4 * 16]
      else
        var b1 := b[1] as int;
        if |b| == 2 then [b0 / 4, b0 % 4 * 16 + b1 / 16, b1 % 16 * 4]
        else
          var b2 := b[2] as int;
          [b0 / 4, b0 % 4 * 16 + b1 / 16, b1 % 16 * 4 + b2 / 64, b2 % 64] + EncodeSextets(b[3..])
  }

  function Padding(n: nat): string {
    if n % 3 == 1 then "==" else if n % 3 == 2 then "=" else ""
  }

  lemma EncodedLength(n: nat)
    ensures n / 3 * 4 + (if n % 3 == 0 then 0 else n % 3 + 1) + |Padding(n)| == (n + 2) / 3 * 4
  {
    var k, r := n / 3, n % 3;
    assert n == 3 * k + r;
    if r == 0 {
      assert (n + 2) / 3 == k;
    } else {
      assert (n + 2) / 3 == k + 1;
    }
  }

  /** `Buffer.from(b).toString("base64")`. */
  function Encode(b: seq<byte>): (s: string)
    ensures |s| == (|b| + 2) / 3 * 4
    ensures forall i :: 0 <= i < |s| ==> s[i] == '=' || ValueOf(s[i]).Some?
  {
    var q := EncodeSextets(b);
    var body := seq(|q|, i requires 0 <= i < |q| => CharOf(q[i]));
    forall i | 0 <= i < |q| ensures ValueOf(body[i]).Some? {
      ValueOfCharOf(q[i]);
    }
    EncodedLength(|b|);
    body + Padding(|b|)
  }

  /** The 6-bit values the decoder reads: up to the first '=', skipping foreign characters. */
  function Sextets(s: string): (q: seq<int>)
    ensures IsSextets(q) && |q| <= |s|
  {
    if |s| == 0 || s[0] == '=' then []
    else match ValueOf(s[0])
      case Some(x) => [x] + Sextets(s[1..])
      case None => Sextets(s[1..])
  }

  function DecodeSextets(q: seq<int>): (b: seq<byte>)
    requires IsSextets(q)
    ensures |b| == |q| / 4 * 3 + (if |q| % 4 <= 1 then 0 else |q| % 4 - 1)
  {
    if |q| < 2 then []
    else
      var first := (q[0] * 4 + q[1] / 16) as byte;
      if |q| == 2 then [first]
      else
        var second := (q[1] % 16 * 16 + q[2] / 4) as byte;
        if |q| == 3 then [first, second]
        else [first, second, (q[2] % 4 * 64 + q[3]) as byte] + DecodeSextets(q[4..])
  }

  /** `Buffer.from(s, "base64")`: total, never throws. */
  function Decode(s: string): (b: seq<byte>)
    ensures |b| <= |s|
  {
    DecodeSextets(Sextets(s))
  }

  lemma {:induction false} SextetsOfEncoded(q: seq<int>, pad: string)
    requires IsSextets(q)
    requires pad == "" || pad[0] == '='
    ensures Sextets(seq(|q|, i requires 0 <= i < |q| => CharOf(q[i])) + pad) == q
  {
    var s := seq(|q|, i requires 0 <= i < |q| => CharOf(q[i])) + pad;
    if q == [] {
      assert s == pad;
    } else {
      ValueOfCharOf(q[0]);
      assert s[0] == CharOf(q[0]);
      assert s[1..] == seq(|q[1..]|, i requires 0 <= i < |q[1..]| => CharOf(q[1..][i])) + pad;
      SextetsOfEncoded(q[1..], pad);
      assert q == [q[0]] + q[1..];
    }
  }

  lemma GroupRoundTrip(b0: int, b1: int, b2: int)
    requires 0 <= b0 < 256 && 0 <= b1 < 256 && 0 <= b2 < 256
    ensures (b0 / 4) * 4 + (b0 % 4 * 16 + b1 / 16) / 16 == b0
    ensures (b0 % 4 * 16 + b1 / 16) % 16 * 16 + (b1 % 16 * 4 + b2 / 64) / 4 == b1
    ensures (b1 % 16 * 4 + b2 / 64) % 4 * 64 + b2 % 64 == b2
  {
    assert (b0 % 4 * 16 + b1 / 16) / 16 == b0 % 4;
    assert (b0 % 4 * 16 + b1 / 16) % 16 == b1 / 16;
    assert (b1 % 16 * 4 + b2 / 64) / 4 == b1 % 16;
    assert (b1 % 16 * 4 + b2 / 64) % 4 == b2 / 64;
  }

  lemma {:induction false} DecodeEncodeSextets(b: seq<byte>)
    ensures DecodeSextets(EncodeSextets(b)) == b
  {
    if |b| >= 1 {
      var b0 := b[0] as int;
      var b1 := if |b| >= 2 then b[1] as int else 0;
      var b2 := if |b| >= 3 then b[2] as int else 0;
      GroupRoundTrip(b0, b1, b2);
      if |b| >= 3 {
        DecodeEncodeSextets(b[3..]);
        var q := EncodeSextets(b);
        assert q[4..] == EncodeSextets(b[3..]);
        assert b == [b[0], b[1], b[2]] + b[3..];
      }
    }
  }

  /** Decoding what the encoder produced gives back the original bytes. */
  lemma DecodeEncode(b: seq<byte>)
    ensures Decode(Encode(b)) == b
  {
    var q := EncodeSextets(b);
    var pad := Padding(|b|);
    SextetsOfEncoded(q, pad);
    DecodeEncodeSextets(b);
  }
}

/** Byte strings as the indexer sees them (`Bytes`, `Address`) and the two ways the
    handlers turn them into entity ids: `toHexString()` and `concatI32(i)`. */
module ByteStrings {

  type Byte = b: int | 0 <= b < 256

  type Bytes = seq<Byte>

  /** A log index that fits the `i32` that `BigInt.toI32()` produces. */
  type LogIndex = n: nat | n < 0x8000_0000

  /** Lower-case hexadecimal digit for 0..15. */
  function HexDigit(d: nat): (c: char)
    requires d < 16
    ensures d < 10 ==> c as int == '0' as int + d
    ensures d >= 10 ==> c as int == 'a' as int + (d - 10)
    ensures '0' <= c <= '9' || 'a' <= c <= 'f'
  {
    if d < 10 then (d + '0' as int) as char else (d - 10 + 'a' as int) as char
  }

  lemma HexDigitInjective(a: nat, b: nat)
    requires a < 16 && b < 16
    ensures HexDigit(a) == HexDigit(b) ==> a == b
  {
  }

  /** Two hex digits per byte, high nibble first. */
  function HexBody(b: Bytes): (r: string)
    ensures |r| == 2 * |b|
    ensures forall i :: 0 <= i < |b| ==> r[2 * i] == HexDigit(b[i] / 16) && r[2 * i + 1] == HexDigit(b[i] % 16)
  {
    if b == [] then []
    else
      var rest := HexBody(b[1..]);
      HexBodyCons(b, rest);
      [HexDigit(b[0] / 16), HexDigit(b[0] % 16)] + rest
  }

  /** The digits of the first byte followed by the digits of the rest are the digits of all. */
  lemma HexBodyCons(b: Bytes, rest: string)
    requires |b| > 0 && |rest| == 2 * (|b| - 1)
    requires forall i :: 0 <= i < |b| - 1 ==>
               rest[2 * i] == HexDigit(b[1..][i] / 16) && rest[2 * i + 1] == HexDigit(b[1..][i] % 16)
    ensures var r := [HexDigit(b[0] / 16), HexDigit(b[0] % 16)] + rest;
      forall i :: 0 <= i < |b| ==> r[2 * i] == HexDigit(b[i] / 16) && r[2 * i + 1] == HexDigit(b[i] % 16)
  {
    var r := [HexDigit(b[0] / 16), HexDigit(b[0] % 16)] + rest;
    forall i | 0 <= i < |b|
      ensures r[2 * i] == HexDigit(b[i] / 16) && r[2 * i + 1] == HexDigit(b[i] % 16)
    {
      if i > 0 {
        var j := i - 1;
        assert b[i] == b[1..][j];
        assert r[2 * i] == rest[2 * j] && r[2 * i + 1] == rest[2 * j + 1];
      }
    }
  }

  /** `Bytes.toHexString()`: "0x" followed by two lower-case hex digits per byte. */
  function HexString(b: Bytes): (r: string)
    ensures |r| == 2 + 2 * |b|
    ensures r[..2] == "0x"
    ensures forall i :: 0 <= i < |b| ==>
              r[2 + 2 * i] == HexDigit(b[i] / 16) && r[3 + 2 * i] == HexDigit(b[i] % 16)
  {
    "0x" + HexBody(b)
  }

  lemma {:induction false} HexBodyInjective(a: Bytes, b: Bytes)
    requires HexBody(a) == HexBody(b)
    ensures a == b
    decreases |a|
  {
    if a != [] {
      assert |b| == |a|;
      var ha, hb := HexBody(a), HexBody(b);
      assert ha[0] == hb[0] && ha[1] == hb[1];
      HexDigitInjective(a[0] / 16, b[0] / 16);
      HexDigitInjective(a[0] % 16, b[0] % 16);
      assert a[0] == b[0];
      assert ha[2..] == HexBody(a[1..]);
      assert hb[2..] == HexBody(b[1..]);
      HexBodyInjective(a[1..], b[1..]);
      assert a == [a[0]] + a[1..];
      assert b == [b[0]] + b[1..];
    }
  }

  /** Different byte strings have different hex renderings, so hex-keyed tables
      (operators, stakes) never merge records of different addresses or transactions. */
  lemma HexStringInjective(a: Bytes, b: Bytes)
    ensures HexString(a) == HexString(b) ==> a == b
  {
    if HexString(a) == HexString(b) {
      assert HexString(a)[2..] == HexBody(a);
      assert HexString(b)[2..] == HexBody(b);
      HexBodyInjective(a, b);
    }
  }

  /** The four little-endian bytes of a non-negative `i32`. */
  function I32Bytes(n: LogIndex): (r: Bytes)
    ensures |r| == 4
  {
    [n % 256, (n / 256) % 256, (n / 65536) % 256, n / 16777216]
  }

  function I32Value(r: Bytes): int
    requires |r| == 4
  {
    (r[0] as int) + 256 * (r[1] as int) + 65536 * (r[2] as int) + 16777216 * (r[3] as int)
  }

  /** `hash.concatI32(n)`: the hash followed by the four bytes of `n`. */
  function ConcatI32(hash: Bytes, n: LogIndex): (r: Bytes)
    ensures |r| == |hash| + 4
    ensures r[..|hash|] == hash
    ensures I32Value(r[|hash|..]) == n
  {
    I32RoundTrip(n);
    assert (hash + I32Bytes(n))[|hash|..] == I32Bytes(n);
    hash + I32Bytes(n)
  }

  /** Reading the four bytes back gives the log index. */
  lemma I32RoundTrip(n: LogIndex)
    ensures I32Value(I32Bytes(n)) == n
  {
    var q1 := n / 256;
    var q2 := n / 65536;
    var q3 := n / 16777216;
    assert n == n % 256 + 256 * q1;
    assert q1 == q1 % 256 + 256 * q2 by { assert q1 / 256 == q2; }
    assert q2 == q2 % 256 + 256 * q3 by { assert q2 / 256 == q3; }
  }

  /** Ledger keys are unique per (transaction hash, log index): two events share a key only
      when they come from the same log entry. */
  lemma ConcatI32Injective(h1: Bytes, n1: LogIndex, h2: Bytes, n2: LogIndex)
    ensures ConcatI32(h1, n1) == ConcatI32(h2, n2) ==> h1 == h2 && n1 == n2
  {
    if ConcatI32(h1, n1) == ConcatI32(h2, n2) {
      var k := ConcatI32(h1, n1);
      assert |h1| == |h2|;
      assert k[|h1|..] == I32Bytes(n1) && k[|h2|..] == I32Bytes(n2);
    }
  }
}

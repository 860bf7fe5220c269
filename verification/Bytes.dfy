/** Bytes, big-endian fields, XOR masking and decimal rendering, as the RPC stack uses them. */
module Bytes {
  import opened Wrappers

  type byte = x: int | 0 <= x < 0x100

  type Data = seq<byte>

  const U16: int := 0x1_0000
  const U32: int := 0x1_0000_0000

  function U16Bytes(n: nat): Data
    requires n < U16
  {
    [n / 0x100, n % 0x100]
  }

  function ReadU16(b: Data, i: nat): nat
    requires i + 2 <= |b|
  {
    b[i] as int * 0x100 + b[i + 1] as int
  }

  function U32Bytes(n: nat): Data
    requires n < U32
  {
    U16Bytes(n / U16) + U16Bytes(n % U16)
  }

  function ReadU32(b: Data, i: nat): nat
    requires i + 4 <= |b|
  {
    ReadU16(b, i) * U16 + ReadU16(b, i + 2)
  }

  lemma U32RoundTrip(n: nat)
    requires n < U32
    ensures |U32Bytes(n)| == 4 && ReadU32(U32Bytes(n), 0) == n
  {
    assert U32Bytes(n) == [n / U16 / 0x100, n / U16 % 0x100, n % U16 / 0x100, n % U16 % 0x100];
  }

  lemma U32Back(b: Data, i: nat)
    requires i + 4 <= |b|
    ensures ReadU32(b, i) < U32 && U32Bytes(ReadU32(b, i)) == b[i..i + 4]
  {
    var high, low := ReadU16(b, i), ReadU16(b, i + 2);
    assert ReadU32(b, i) / U16 == high && ReadU32(b, i) % U16 == low;
    assert U16Bytes(high) == [b[i], b[i + 1]] && U16Bytes(low) == [b[i + 2], b[i + 3]];
  }

  function Zeros(n: nat): (z: Data)
    ensures |z| == n && forall i :: 0 <= i < n ==> z[i] == 0
  {
    seq(n, i => 0)
  }

  // ---------------------------------------------------------------- XOR

  function Xor(a: nat, b: nat): nat
    decreases a + b
  {
    if a == 0 && b == 0 then 0 else 2 * Xor(a / 2, b / 2) + (a % 2 + b % 2) % 2
  }

  lemma {:induction false} XorZero(a: nat)
    ensures Xor(a, 0) == a
  {
    if a == 0 {
    } else {
      XorZero(a / 2);
    }
  }

  lemma XorStep(a: nat, b: nat)
    ensures Xor(a, b) / 2 == Xor(a / 2, b / 2) && Xor(a, b) % 2 == (a % 2 + b % 2) % 2
  {
  }

  lemma ParityBack(a: nat, k: nat, x: nat, y: nat)
    requires x % 2 == (a % 2 + k % 2) % 2 && y % 2 == (x % 2 + k % 2) % 2 && y / 2 == a / 2
    ensures y == a
  {
  }

  /** Masking twice with the same key gives the original value back. */
  lemma {:induction false} XorInvolution(a: nat, key: nat)
    ensures Xor(Xor(a, key), key) == a
    decreases a + key
  {
    if key == 0 {
      XorZero(a);
    } else {
      XorStep(a, key);
      XorStep(Xor(a, key), key);
      XorInvolution(a / 2, key / 2);
      ParityBack(a, key, Xor(a, key), Xor(Xor(a, key), key));
    }
  }

  function Bit(n: nat, k: nat): nat {
    if k == 0 then n % 2 else Bit(n / 2, k - 1)
  }

  /** Every bit of the masked value tells whether the bits of value and key differ. */
  lemma {:induction false} XorBits(a: nat, b: nat, k: nat)
    ensures Bit(Xor(a, b), k) == if Bit(a, k) == Bit(b, k) then 0 else 1
  {
    XorStep(a, b);
    if k == 0 {
    } else {
      XorBits(a / 2, b / 2, k - 1);
    }
  }

  function Pow2(k: nat): nat {
    if k == 0 then 1 else 2 * Pow2(k - 1)
  }

  /** Masking never needs more bits than its operands. */
  lemma {:induction false} XorBound(a: nat, b: nat, k: nat)
    requires a < Pow2(k) && b < Pow2(k)
    ensures Xor(a, b) < Pow2(k)
    decreases k
  {
    if k == 0 || (a == 0 && b == 0) {
    } else {
      XorBound(a / 2, b / 2, k - 1);
    }
  }

  lemma XorFits(a: nat, b: nat)
    ensures a < 0x100 && b < 0x100 ==> Xor(a, b) < 0x100
    ensures a < U16 && b < U16 ==> Xor(a, b) < U16
  {
    assert Pow2(4) == 16;
    assert Pow2(8) == 256;
    assert Pow2(12) == 4096;
    assert Pow2(16) == 65536;
    if a < 0x100 && b < 0x100 {
      XorBound(a, b, 8);
    }
    if a < U16 && b < U16 {
      XorBound(a, b, 16);
    }
  }

  function XorByte(a: byte, b: byte): byte {
    XorFits(a, b);
    Xor(a, b)
  }

  function Xor16(a: nat, b: nat): (r: nat)
    requires a < U16 && b < U16
    ensures r < U16
  {
    XorFits(a, b);
    Xor(a, b)
  }

  function XorData(d: Data, key: Data): (r: Data)
    requires |d| <= |key|
    ensures |r| == |d|
  {
    seq(|d|, i requires 0 <= i < |d| => XorByte(d[i], key[i]))
  }

  lemma MaskedDataBack(d: Data, key: Data)
    requires |d| <= |key|
    ensures XorData(XorData(d, key), key) == d
  {
    forall i | 0 <= i < |d| ensures XorByte(XorByte(d[i], key[i]), key[i]) == d[i] {
      XorInvolution(d[i], key[i]);
    }
  }

  lemma Masked16Back(a: nat, key: nat)
    requires a < U16 && key < U16
    ensures Xor16(Xor16(a, key), key) == a
  {
    XorInvolution(a, key);
  }

  // ------------------------------------------------------------ decimal

  function Digit(d: nat): char
    requires d < 10
  {
    "0123456789"[d]
  }

  function DigitValue(c: char): Option<nat> {
    if '0' <= c <= '9' then Some((c as int - '0' as int) as nat) else None
  }

  function ToDecimal(n: nat): (s: string)
    ensures s != []
  {
    if n < 10 then [Digit(n)] else ToDecimal(n / 10) + [Digit(n % 10)]
  }

  /** Number() on a string of decimal digits; anything else is None. */
  function ParseDecimal(s: string): Option<nat> {
    if s == [] then None
    else match DigitValue(s[|s| - 1])
      case None => None
      case Some(d) =>
        if |s| == 1 then Some(d)
        else match ParseDecimal(s[..|s| - 1])
          case None => None
          case Some(high) => Some(high * 10 + d)
  }

  function Pow10(k: nat): nat {
    if k == 0 then 1 else 10 * Pow10(k - 1)
  }

  /** The first digit of a number is the most significant one. */
  lemma {:induction false} DecimalPlaces(c: char, s: string)
    requires '0' <= c <= '9' && ParseDecimal(s).Some?
    ensures ParseDecimal([c] + s) == Some((c as int - '0' as int) * Pow10(|s|) + ParseDecimal(s).value)
  {
    var t, n := [c] + s, |s|;
    assert t[n] == s[n - 1] && t[..n] == [c] + s[..n - 1];
    if n == 1 {
      assert Pow10(1) == 10;
    } else {
      DecimalPlaces(c, s[..n - 1]);
      OneMorePlace(c as int - '0' as int, n, ParseDecimal(s[..n - 1]).value, DigitValue(s[n - 1]).value);
    }
  }

  lemma OneMorePlace(digit: nat, n: nat, high: nat, low: nat)
    requires 0 < n
    ensures (digit * Pow10(n - 1) + high) * 10 + low == digit * Pow10(n) + (high * 10 + low)
  {
    assert digit * Pow10(n) == digit * Pow10(n - 1) * 10;
  }

  lemma {:induction false} DecimalRoundTrip(n: nat)
    ensures ParseDecimal(ToDecimal(n)) == Some(n)
  {
    if n < 10 {
    } else {
      DecimalRoundTrip(n / 10);
      var s := ToDecimal(n);
      assert s[..|s| - 1] == ToDecimal(n / 10);
      assert DigitValue(s[|s| - 1]) == Some(n % 10);
      assert ParseDecimal(s) == Some((n / 10) * 10 + n % 10);
    }
  }

  lemma {:induction false} DecimalHasOnlyDigits(n: nat)
    ensures forall c :: c in ToDecimal(n) ==> '0' <= c <= '9'
  {
    if n < 10 {
    } else {
      DecimalHasOnlyDigits(n / 10);
    }
  }
}

/**
 * Bit-list helpers of the package root (src/computer/__init__.py).
 *
 * A byte or word is a Python list of ints, least-significant bit first.
 * `Val` is the package's unsigned reading `bits_to_int`: the sum of
 * s[i] * 2^i, defined for any ints (Python shifts any int); the arithmetic
 * facts below assume every element is 0 or 1 (`IsBits`).
 */
module Bits {

  function Pow2(n: nat): (p: int)
    ensures p >= 1
  {
    if n == 0 then 1 else 2 * Pow2(n - 1)
  }

  predicate IsBit(b: int) { b == 0 || b == 1 }

  predicate IsBits(s: seq<int>) { forall i :: 0 <= i < |s| ==> IsBit(s[i]) }

  function Zeros(n: nat): (z: seq<int>)
    ensures |z| == n && IsBits(z)
  {
    seq(n, i => 0)
  }

  /** bits_to_int(bits): the sum of bits[i] << i. */
  function Val(s: seq<int>): int
  {
    if |s| == 0 then 0 else Val(s[..|s| - 1]) + s[|s| - 1] * Pow2(|s| - 1)
  }

  // ---------------------------------------------------------------------
  // Arithmetic helpers
  // ---------------------------------------------------------------------

  lemma Pow2Add(a: nat, b: nat)
    ensures Pow2(a + b) == Pow2(a) * Pow2(b)
  {
    if b > 0 {
      Pow2Add(a, b - 1);
      assert Pow2(a + b) == 2 * Pow2(a + b - 1);
    }
  }

  lemma Pow2Mono(a: nat, b: nat)
    requires a <= b
    ensures Pow2(a) <= Pow2(b)
  {
    if a < b { Pow2Mono(a, b - 1); }
  }

  lemma MulAtLeast(x: int, d: int)
    requires x >= 1 && d > 0
    ensures x * d >= d
  {
    if x > 1 {
      MulAtLeast(x - 1, d);
      assert x * d == (x - 1) * d + d;
    }
  }

  /** Quotient and remainder are determined by the division equation. */
  lemma DivModUnique(m: int, d: int, k: int, r: int)
    requires d > 0 && m == k * d + r && 0 <= r < d
    ensures m / d == k && m % d == r
  {
    var q, s := m / d, m % d;
    assert m == q * d + s;
    var x := q - k;
    assert x * d == q * d - k * d;
    assert x * d == r - s;
    if x >= 1 {
      MulAtLeast(x, d);
    } else if x <= -1 {
      MulAtLeast(-x, d);
    }
  }

  /** Taking a remainder modulo a*b splits into a digit in base a and a remainder. */
  lemma ModMul(v: int, a: int, b: int)
    requires a > 0 && b > 0
    ensures v % (a * b) == ((v / a) % b) * a + v % a
    ensures v / (a * b) == (v / a) / b
  {
    var q := v / a;
    var hi, lo := q / b, q % b;
    assert v == q * a + v % a;
    assert q == hi * b + lo;
    assert v == hi * (a * b) + (lo * a + v % a) by {
      assert q * a == (hi * b + lo) * a;
      assert (hi * b + lo) * a == hi * (a * b) + lo * a;
    }
    assert 0 <= lo * a + v % a < a * b by {
      assert lo <= b - 1;
      assert lo * a <= (b - 1) * a;
      assert (b - 1) * a == a * b - a;
    }
    DivModUnique(v, a * b, hi, lo * a + v % a);
  }

  lemma ModPow2Step(m: int, k: nat)
    ensures m % Pow2(k + 1) == m % Pow2(k) + ((m / Pow2(k)) % 2) * Pow2(k)
    ensures m / Pow2(k + 1) == (m / Pow2(k)) / 2
  {
    assert Pow2(k + 1) == Pow2(k) * 2;
    ModMul(m, Pow2(k), 2);
  }

  /** The powers of two the 8-bit machine spells out. */
  lemma Pow2Eight()
    ensures Pow2(8) == 256
  {
    assert Pow2(4) == 16;
  }

  lemma Pow2Sixteen()
    ensures Pow2(16) == 65536
  {
    Pow2Eight();
    Pow2Add(8, 8);
  }

  lemma Pow2Values()
    ensures Pow2(1) == 2 && Pow2(2) == 4 && Pow2(3) == 8 && Pow2(4) == 16
    ensures Pow2(5) == 32 && Pow2(6) == 64 && Pow2(7) == 128 && Pow2(8) == 256
    ensures Pow2(16) == 65536
  {
    assert Pow2(1) == 2;
    assert Pow2(2) == 4;
    assert Pow2(3) == 8;
    assert Pow2(4) == 16;
    assert Pow2(5) == 32;
    assert Pow2(6) == 64;
    assert Pow2(7) == 128;
    assert Pow2(8) == 256;
    Pow2Add(8, 8);
  }

  // ---------------------------------------------------------------------
  // Facts about Val
  // ---------------------------------------------------------------------

  lemma {:induction false} ValAppend(a: seq<int>, b: seq<int>)
    ensures Val(a + b) == Val(a) + Pow2(|a|) * Val(b)
    decreases |b|
  {
    if |b| == 0 {
      assert a + b == a;
    } else {
      var b' := b[..|b| - 1];
      var x := b[|b| - 1];
      assert (a + b)[..|a + b| - 1] == a + b';
      ValAppend(a, b');
      Pow2Add(|a|, |b| - 1);
      var p, q := Pow2(|a|), Pow2(|b| - 1);
      assert Val(a + b) == Val(a + b') + x * (p * q);
      assert Val(b) == Val(b') + x * q;
      Distribute(p, Val(b'), x, q);
    }
  }

  lemma Distribute(p: int, v: int, x: int, q: int)
    ensures p * (v + x * q) == p * v + x * (p * q)
  {
  }

  lemma ValCons(x: int, s: seq<int>)
    ensures Val([x] + s) == x + 2 * Val(s)
  {
    ValAppend([x], s);
    assert [x][..0] == [];
  }

  lemma ValSingle(x: int)
    ensures Val([x]) == x
  {
    assert [x][..0] == [];
  }

  lemma {:induction false} ValZeros(n: nat)
    ensures Val(Zeros(n)) == 0
  {
    if n > 0 {
      assert Zeros(n)[..n - 1] == Zeros(n - 1);
      ValZeros(n - 1);
    }
  }

  /** Splitting off the least significant bit. */
  lemma ValHead(s: seq<int>)
    requires |s| > 0
    ensures Val(s) == s[0] + 2 * Val(s[1..])
  {
    hide Val;
    ValCons(s[0], s[1..]);
    assert s == [s[0]] + s[1..];
  }

  /** A zero on top does not change the value. */
  lemma ValPadZero(s: seq<int>)
    ensures Val(s + [0]) == Val(s)
  {
    assert (s + [0])[..|s|] == s;
  }

  /** Dropping the least significant bit and padding a zero on top halves the value. */
  lemma ValShiftDown(s: seq<int>)
    requires |s| > 0 && IsBit(s[0])
    ensures Val(s[1..] + [0]) == Val(s) / 2 && Val(s) % 2 == s[0]
  {
    ValPadZero(s[1..]);
    ValHead(s);
    DivModUnique(Val(s), 2, Val(s[1..]), s[0]);
  }

  /** One more bit of a prefix adds its weight. */
  lemma ValPrefix(s: seq<int>, k: nat)
    requires k < |s|
    ensures Val(s[..k + 1]) == Val(s[..k]) + s[k] * Pow2(k)
  {
    assert s[..k + 1][..k] == s[..k];
  }

  /** The value of a two-bit list, written out. */
  lemma Val2(s: seq<int>)
    requires |s| == 2
    ensures Val(s) == s[0] + 2 * s[1]
  {
    assert s[..0] == [] && s[..2] == s;
    ValPrefix(s, 0);
    ValPrefix(s, 1);
  }

  /** The value of a three-bit list, written out. */
  lemma Val3(s: seq<int>)
    requires |s| == 3
    ensures Val(s) == s[0] + 2 * s[1] + 4 * s[2]
  {
    Pow2Values();
    assert s[..0] == [] && s[..3] == s;
    ValPrefix(s, 0);
    ValPrefix(s, 1);
    ValPrefix(s, 2);
  }

  /** The value of a four-bit list, written out. */
  lemma Val4(s: seq<int>)
    requires |s| == 4
    ensures Val(s) == s[0] + 2 * s[1] + 4 * s[2] + 8 * s[3]
  {
    Pow2Values();
    assert s[..0] == [] && s[..4] == s;
    ValPrefix(s, 0);
    ValPrefix(s, 1);
    ValPrefix(s, 2);
    ValPrefix(s, 3);
  }

  /** The value of a byte, written out. */
  lemma Val8(s: seq<int>)
    requires |s| == 8
    ensures Val(s) == s[0] + 2 * s[1] + 4 * s[2] + 8 * s[3] + 16 * s[4] + 32 * s[5] + 64 * s[6] + 128 * s[7]
  {
    Pow2Values();
    assert s[..0] == [] && s[..8] == s;
    ValPrefix(s, 0);
    ValPrefix(s, 1);
    ValPrefix(s, 2);
    ValPrefix(s, 3);
    ValPrefix(s, 4);
    ValPrefix(s, 5);
    ValPrefix(s, 6);
    ValPrefix(s, 7);
  }

  /** An unsigned reading of n bits lies in [0, 2^n). */
  lemma {:induction false} ValRange(s: seq<int>)
    requires IsBits(s)
    ensures 0 <= Val(s) < Pow2(|s|)
  {
    if |s| > 0 {
      ValRange(s[..|s| - 1]);
    }
  }

  /** Equal-length bit lists with equal values are equal. */
  lemma {:induction false} ValInjective(a: seq<int>, b: seq<int>)
    requires IsBits(a) && IsBits(b) && |a| == |b|
    requires Val(a) == Val(b)
    ensures a == b
  {
    if |a| > 0 {
      var n := |a| - 1;
      ValRange(a[..n]);
      ValRange(b[..n]);
      if a[n] != b[n] {
        assert false;
      }
      ValInjective(a[..n], b[..n]);
      assert a == a[..n] + [a[n]];
      assert b == b[..n] + [b[n]];
    }
  }

  /** The top bit of a bit list says whether its value reaches 2^(n-1). */
  lemma TopBit(s: seq<int>)
    requires IsBits(s) && |s| > 0
    ensures s[|s| - 1] == 1 <==> Val(s) >= Pow2(|s| - 1)
  {
    ValRange(s[..|s| - 1]);
  }

  // ---------------------------------------------------------------------
  // int_to_bits
  // ---------------------------------------------------------------------

  /** The n low digits of m in base 2, least significant first. */
  function Digits(m: int, n: nat): (r: seq<int>)
    ensures |r| == n
  {
    seq(n, i requires 0 <= i < n => (m / Pow2(i)) % 2)
  }

  lemma {:induction false} DigitsValue(m: int, n: nat)
    ensures IsBits(Digits(m, n))
    ensures Val(Digits(m, n)) == m % Pow2(n)
  {
    if n > 0 {
      DigitsValue(m, n - 1);
      assert Digits(m, n)[..n - 1] == Digits(m, n - 1);
      ModPow2Step(m, n - 1);
    }
  }

  /** Adding the modulus does not change a remainder. */
  lemma ModShift(x: int, p: int)
    requires p > 0
    ensures (x + p) % p == x % p
  {
    assert x == (x / p) * p + x % p;
    assert x + p == (x / p + 1) * p + x % p;
    DivModUnique(x + p, p, x / p + 1, x % p);
  }

  /** int_to_bits(value, num_bits): negative values are first offset by 2^n, then masked. */
  function IntToBits(value: int, numBits: nat): (r: seq<int>)
    ensures |r| == numBits && IsBits(r)
    ensures Val(r) == value % Pow2(numBits)
  {
    var v := if value < 0 then Pow2(numBits) + value else value;
    var masked := v % Pow2(numBits);
    DigitsValue(masked, numBits);
    DivModUnique(masked, Pow2(numBits), 0, masked);
    if value < 0 then ModShift(value, Pow2(numBits)); Digits(masked, numBits)
    else Digits(masked, numBits)
  }

  /** bits_to_int(bits, signed): two's complement when signed and the top bit is 1. */
  function BitsToInt(bits: seq<int>, signed: bool): int
  {
    var result := Val(bits);
    if signed && |bits| > 0 && bits[|bits| - 1] == 1 then result - Pow2(|bits|) else result
  }

  lemma UnsignedRoundTrip(v: int, n: nat)
    ensures BitsToInt(IntToBits(v, n), false) == v % Pow2(n)
  {
  }

  /** Signed round trip: every value of the n-bit two's complement range survives. */
  lemma SignedRoundTrip(v: int, n: nat)
    requires n >= 1
    requires -Pow2(n - 1) <= v < Pow2(n - 1)
    ensures BitsToInt(IntToBits(v, n), true) == v
  {
    var r := IntToBits(v, n);
    assert Pow2(n) == 2 * Pow2(n - 1);
    TopBit(r);
    if v >= 0 {
      DivModUnique(v, Pow2(n), 0, v);
    } else {
      DivModUnique(v, Pow2(n), -1, v + Pow2(n));
    }
  }

  /** The unsigned reading lies in [0, 2^n), the signed one in [-2^(n-1), 2^(n-1)). */
  lemma BitsToIntRange(bits: seq<int>)
    requires IsBits(bits)
    ensures 0 <= BitsToInt(bits, false) < Pow2(|bits|)
    ensures |bits| > 0 ==> -Pow2(|bits| - 1) <= BitsToInt(bits, true) < Pow2(|bits| - 1)
  {
    ValRange(bits);
    if |bits| > 0 {
      TopBit(bits);
      assert Pow2(|bits|) == 2 * Pow2(|bits| - 1);
    }
  }

  lemma IntToBitsExample()
    ensures IntToBits(5, 8) == [1, 0, 1, 0, 0, 0, 0, 0]
  {
    Pow2Values();
    assert 5 % Pow2(8) == 5;
    var r := Digits(5, 8);
    assert IntToBits(5, 8) == r;
    assert r[0] == 1 && r[1] == 0 && r[2] == 1 && r[3] == 0;
    assert r[4] == 0 && r[5] == 0 && r[6] == 0 && r[7] == 0;
  }

  // ---------------------------------------------------------------------
  // bits_to_hex and bits_to_bin
  // ---------------------------------------------------------------------

  function HexChar(d: int): char
    requires 0 <= d < 16
  {
    "0123456789ABCDEF"[d]
  }

  predicate IsHexChar(c: char) { '0' <= c <= '9' || 'A' <= c <= 'F' }

  function HexCharValue(c: char): int
  {
    if '0' <= c <= '9' then c as int - '0' as int
    else if 'A' <= c <= 'F' then c as int - 'A' as int + 10
    else 0
  }

  /** The value of an upper-case hex numeral, most significant digit first. */
  function HexValue(s: string): int
  {
    if |s| == 0 then 0 else HexValue(s[..|s| - 1]) * 16 + HexCharValue(s[|s| - 1])
  }

  /** The w low hex digits of v, most significant first (the zero-padded `X` format). */
  function HexDigits(v: nat, w: nat): (r: string)
    ensures |r| == w
  {
    if w == 0 then "" else HexDigits(v / 16, w - 1) + [HexChar(v % 16)]
  }

  lemma {:induction false} HexDigitsValue(v: nat, w: nat)
    ensures forall i :: 0 <= i < w ==> IsHexChar(HexDigits(v, w)[i])
    ensures HexValue(HexDigits(v, w)) == v % Pow2(4 * w)
  {
    if w > 0 {
      HexDigitsValue(v / 16, w - 1);
      var d := HexDigits(v, w);
      assert d[..w - 1] == HexDigits(v / 16, w - 1);
      assert HexCharValue(HexChar(v % 16)) == v % 16;
      assert Pow2(4 * w) == 16 * Pow2(4 * (w - 1)) by {
        Pow2Add(4, 4 * (w - 1));
      }
      ModMul(v, 16, Pow2(4 * (w - 1)));
    }
  }

  /** bits_to_hex(bits): "0x" and ceil(len/4) upper-case hex digits (at least one). */
  function BitsToHex(bits: seq<int>): (r: string)
    requires IsBits(bits)
  {
    var width := (|bits| + 3) / 4;
    ValRange(bits);
    "0x" + (if width == 0 then "0" else HexDigits(Val(bits), width))
  }

  lemma BitsToHexSpec(bits: seq<int>)
    requires IsBits(bits)
    ensures var r := BitsToHex(bits);
      && r[..2] == "0x"
      && |r| == 2 + (if |bits| == 0 then 1 else (|bits| + 3) / 4)
      && (forall i :: 2 <= i < |r| ==> IsHexChar(r[i]))
      && HexValue(r[2..]) == Val(bits)
  {
    var w := (|bits| + 3) / 4;
    var r := BitsToHex(bits);
    ValRange(bits);
    if w == 0 {
      assert r[2..] == "0";
      assert HexValue("0") == HexValue("") * 16 + 0;
    } else {
      HexDigitsValue(Val(bits), w);
      assert r[2..] == HexDigits(Val(bits), w);
      Pow2Mono(|bits|, 4 * w);
      DivModUnique(Val(bits), Pow2(4 * w), 0, Val(bits));
    }
  }

  /** The value of a binary numeral, most significant digit first. */
  function BinValue(s: string): int
  {
    if |s| == 0 then 0 else BinValue(s[..|s| - 1]) * 2 + (if s[|s| - 1] == '1' then 1 else 0)
  }

  /** bits_to_bin(bits): the bits as '0'/'1' characters, most significant first. */
  function BitsToBin(bits: seq<int>): (r: string)
    requires IsBits(bits)
  {
    seq(|bits|, i requires 0 <= i < |bits| => if bits[|bits| - 1 - i] == 1 then '1' else '0')
  }

  /** The binary string has one character per bit and reads back as the unsigned value. */
  lemma {:induction false} BitsToBinSpec(bits: seq<int>)
    requires IsBits(bits)
    ensures |BitsToBin(bits)| == |bits|
    ensures forall i :: 0 <= i < |bits| ==> BitsToBin(bits)[i] in "01"
    ensures BinValue(BitsToBin(bits)) == Val(bits)
    decreases |bits|
  {
    if |bits| > 0 {
      var tail := bits[1..];
      BitsToBinSpec(tail);
      var r := BitsToBin(bits);
      assert r[..|r| - 1] == BitsToBin(tail);
      assert bits == [bits[0]] + tail;
      ValCons(bits[0], tail);
    }
  }
}

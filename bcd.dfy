/** Binary-coded decimal as the DS1339B driver writes and reads it.

    Encoding (`int2bcd`) is done on the microcontroller's 16-bit `int` and its
    result is stored in an 8-bit `char`; decoding is never a separate routine in
    the driver: the read functions turn the register byte straight into two
    ASCII digit characters, keeping only three bits of the tens nibble. */
module Bcd {
  import opened Types
  import opened Bits

  /** `x` as a 16-bit two's-complement bit pattern. */
  function Bits16(x: Int16): nat
  {
    x % 0x1_0000
  }

  /** The bit pattern of a value stored in an 8-bit `char`: its low byte. */
  function LowByte(w: nat): Byte
  {
    w % 0x100
  }

  /** `int2bcd` exactly as written: `(0x30 << 4) | input` below 10, otherwise
      `((input / 10) << 4) | (input % 10)`, as the bit pattern of the 8-bit
      `char` it is stored in (avr-gcc's `char` is signed; the pattern is what
      reaches the bus). There is no range check: below 10 the `0x300` is cut
      away and the low byte of `input` remains, from 10 on the low byte of
      `16 * tens + ones`. */
  function Int2BcdAsWritten(input: Int16): (r: Byte)
    ensures input < 10 ==> r == input % 0x100
    ensures input >= 10 ==> r == (16 * (input / 10) + input % 10) % 0x100
  {
    var ans :=
      if input < 10 then Or(Shl(0x30, 4), Bits16(input))
      else Or(Shl(input / 10, 4), input % 10);
    AsWrittenOperators(input);
    LowByte(ans)
  }

  /** The bit operators of `int2bcd` worked out: `0x30 << 4` is `3 * 0x100`,
      which lies wholly above the low byte, and the ones digit fits below the
      shifted tens digit, so that OR is an addition. */
  lemma AsWrittenOperators(input: Int16)
    ensures input < 10 ==> LowByte(Or(Shl(0x30, 4), Bits16(input))) == input % 0x100
    ensures input >= 10 ==> Or(Shl(input / 10, 4), input % 10) == 16 * (input / 10) + input % 10
  {
    if input < 10 {
      var x := Bits16(input);
      ShlFour(0x30);
      OrByte(3, x);
      LowBytePlus(Or(3, x / 0x100), x % 0x100);
      LowByteOfBits16(input);
    } else {
      ShlFour(input / 10);
      OrDisjointNibble(input / 10, input % 10);
    }
  }

  /** `int2bcd` with its bit operations worked out, the form the setpoint
      writes use. On 0..99 it is binary-coded decimal: the high nibble holds
      the tens digit and the low nibble the ones digit. */
  function Int2Bcd(input: Int16): (r: Byte)
    ensures 0 <= input <= 99 ==> r == 16 * (input / 10) + input % 10
    ensures 0 <= input <= 99 ==> r / 16 == input / 10 && r % 16 == input % 10
  {
    TwoDigitNibbles(input);
    if input < 10 then LowByte(Bits16(input))
    else LowByte(16 * (input / 10) + input % 10)
  }

  /** For 0..99, `16 * tens + ones` fits a byte and splits back into its
      digits; below 10 the 16-bit pattern is the value itself. */
  lemma TwoDigitNibbles(v: Int16)
    ensures 0 <= v < 10 ==> LowByte(Bits16(v)) == v
    ensures 0 <= v <= 99 ==>
              16 * (v / 10) + v % 10 < 0x100 &&
              (16 * (v / 10) + v % 10) / 16 == v / 10 && (16 * (v / 10) + v % 10) % 16 == v % 10
  {
    if 0 <= v <= 99 {
      var t, d := v / 10, v % 10;
      assert 0 <= t <= 9 && 0 <= d < 10;
      assert 16 * t + d < 0x100;
      SplitNibbles(16 * t + d, t, d);
      if v < 10 {
        assert Bits16(v) == v;
      }
    }
  }

  /** Both forms agree on every 16-bit input. */
  lemma Int2BcdIsAsWritten(input: Int16)
    ensures Int2Bcd(input) == Int2BcdAsWritten(input)
  {
    LowByteOfBits16(input);
  }

  lemma LowBytePlus(k: nat, r: nat)
    requires r < 0x100
    ensures (0x100 * k + r) % 0x100 == r
  {
  }

  /** The low byte of a 16-bit pattern is the low byte of the value. */
  lemma LowByteOfBits16(x: Int16)
    ensures Bits16(x) % 0x100 == x % 0x100
  {
    var q, r := Bits16(x) / 0x100, Bits16(x) % 0x100;
    assert x == 0x1_0000 * (x / 0x1_0000) + 0x100 * q + r;
    assert x == 0x100 * (0x100 * (x / 0x1_0000) + q) + r;
  }

  /** For 10..99 the encoding is the two decimal digits, one per nibble. */
  lemma Int2BcdNibbles(v: Int16)
    requires 10 <= v <= 99
    ensures Shr(Int2Bcd(v), 4) == v / 10
    ensures And(Int2Bcd(v), 0x0F) == v % 10
  {
    var b := Int2Bcd(v);
    ShrFour(b);
    AndLowNibble(b);
  }

  lemma SplitNibbles(b: nat, t: nat, d: nat)
    requires b == 16 * t + d && d < 16
    ensures b / 16 == t && b % 16 == d
  {
  }

  /** For 0..9 the `0x300` of `(0x30 << 4) | input` lies above the `char`'s
      eight bits, so the stored pattern is exactly `v`. */
  lemma Int2BcdSingleDigit(v: Int16)
    requires 0 <= v < 10
    ensures Int2BcdAsWritten(v) == v
  {
  }

  /** Tens digit as the read functions extract it: `(b & 0x70) >> 4`, which
      keeps bits 6..4 only. */
  function TensDigit(b: Byte): (d: nat)
    ensures d == b / 16 % 8
  {
    AndTensMask(b);
    ShrFour(And(b, 0x70));
    Shr(And(b, 0x70), 4)
  }

  /** Ones digit as the read functions extract it: `b & 0x0F`. */
  function OnesDigit(b: Byte): (d: nat)
    ensures d == b % 16
  {
    AndLowNibble(b);
    And(b, 0x0F)
  }

  /** The character `48 + ((b & 0x70) >> 4)` stamped for the tens place. */
  function TensChar(b: Byte): (c: char)
    ensures '0' <= c <= '7'
    ensures c as int - 48 == b / 16 % 8
  {
    (48 + TensDigit(b)) as char
  }

  /** The character `48 + (b & 0x0F)` stamped for the ones place. */
  function OnesChar(b: Byte): (c: char)
    ensures '0' <= c <= '?'
    ensures c as int - 48 == b % 16
  {
    (48 + OnesDigit(b)) as char
  }

  predicate IsDigit(c: char) { '0' <= c <= '9' }

  /** `10 * (hi - 48) + (lo - 48)`: the two-character decimal value that
      `give_me_number` computes, and that `atoi` yields on two digits. */
  function PairValue(hi: char, lo: char): (n: int)
    ensures IsDigit(hi) && IsDigit(lo) ==>
              0 <= n <= 99 && n / 10 == hi as int - 48 && n % 10 == lo as int - 48
  {
    10 * (hi as int - 48) + (lo as int - 48)
  }

  /** Conversion of an `int` to the AVR's signed 8-bit `char`. */
  function ToChar8(x: int): (r: int)
    ensures -128 <= r < 128
    ensures (x - r) % 256 == 0
    ensures -128 <= x < 128 ==> r == x
  {
    (x + 128) % 256 - 128
  }

  /** Stamping the encoding of `v` and reading the two characters back gives
      `v` for 0..79; for 80..99 the lost fourth tens bit subtracts 80. */
  lemma StampRoundTrip(v: Int16)
    requires 0 <= v <= 99
    ensures PairValue(TensChar(Int2Bcd(v)), OnesChar(Int2Bcd(v))) == if v < 80 then v else v - 80
  {
    var t, d := v / 10, v % 10;
    StampedPair(Int2Bcd(v), t, d);
    TruncatedTens(v, t, d);
  }

  /** A byte with nibbles `t` and `d` reads back as `10 * (t % 8) + d`. */
  lemma StampedPair(b: Byte, t: int, d: int)
    requires b / 16 == t && b % 16 == d
    ensures PairValue(TensChar(b), OnesChar(b)) == 10 * (t % 8) + d
  {
    PairOfDigits(TensChar(b), OnesChar(b), t % 8, d);
  }

  lemma TruncatedTens(v: int, t: int, d: int)
    requires 0 <= v <= 99 && t == v / 10 && d == v % 10
    ensures 10 * (t % 8) + d == if v < 80 then v else v - 80
  {
    if v < 80 {
      assert t < 8;
    } else {
      assert t >= 8 && t % 8 == t - 8;
    }
  }

  lemma PairOfDigits(hi: char, lo: char, t: int, d: int)
    requires hi as int == 48 + t && lo as int == 48 + d
    ensures PairValue(hi, lo) == 10 * t + d
  {
  }

  /** Stamped characters of a well-formed BCD byte are decimal digits, and the
      tens digit keeps three bits: `'0' + ((v / 10) & 7)`. */
  lemma StampedDigits(v: Int16)
    requires 0 <= v <= 99
    ensures IsDigit(TensChar(Int2Bcd(v))) && IsDigit(OnesChar(Int2Bcd(v)))
    ensures TensChar(Int2Bcd(v)) as int == 48 + v / 10 % 8
    ensures OnesChar(Int2Bcd(v)) as int == 48 + v % 10
  {
  }

  /** The documented truncation case: 85 is written as 0x85 and read back as 5. */
  lemma EightyFiveReadsAsFive()
    ensures Int2Bcd(85) == 0x85
    ensures TensChar(0x85) == '0' && OnesChar(0x85) == '5'
    ensures PairValue(TensChar(Int2Bcd(85)), OnesChar(Int2Bcd(85))) == 5
  {
    StampRoundTrip(85);
  }
}

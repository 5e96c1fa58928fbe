/** Small integers as tagged machine words, at every combination of word and payload width that
    a build can choose. Words are naturals below `2^W`; signed readings and casts are explicit. */
module Smi {
  datatype Config =
    | Tagged4On32  // 32-bit words, 31-bit payload
    | Tagged4On64  // 64-bit words, 31-bit payload: pointer compression or 31-bit Smis
    | Tagged8      // 64-bit words, 32-bit payload
  {
    /** `2^W` for the width `W` of `uintptr_t`. */
    function Words(): nat {
      if Tagged4On32? then TWO_32 else TWO_64
    }

    /** `kSmiTagSize + kSmiShiftSize`, as a power of two. */
    function Shift(): nat {
      if Tagged8? then TWO_32 else 2
    }

    /** `static_cast<intptr_t>(kUintptrAllBitsSet << (kSmiValueSize - 1))`. */
    function MinValue(): int {
      Signed(((Words() - 1) * (if Tagged8? then TWO_31 else TWO_30)) % Words(), Words())
    }

    function MaxValue(): int {
      -(MinValue() + 1)
    }
  }

  const TWO_30: nat := 0x4000_0000
  const TWO_31: nat := 0x8000_0000
  const TWO_32: nat := 0x1_0000_0000
  const TWO_64: nat := 0x1_0000_0000_0000_0000

  /** The signed reading of the low bits of `x`, for words of `m` values. */
  function Signed(x: int, m: nat): int
    requires m > 0
  {
    var low := x % m;
    if 2 * low < m then low else low - m
  }

  predicate FitsSigned(x: int, m: nat) {
    -(m as int) <= 2 * x < m
  }

  function IntToSmi(c: Config, value: int): nat {
    ((value % c.Words()) * c.Shift()) % c.Words()
  }

  function SmiToInt(c: Config, word: nat): int {
    if c.Tagged8? then Signed(Signed(word, TWO_64) / TWO_32, TWO_32)
    else Signed(word % TWO_32, TWO_32) / 2
  }

  predicate IsValidSmi(c: Config, value: int) {
    if c.Tagged8? then value == Signed(value, TWO_32)
    else
      var w := c.Words();
      (value % w - c.MinValue() % w) % w <= (c.MaxValue() % w - c.MinValue() % w) % w
  }

  /** `(value & kHeapObjectTagMask) == kHeapObjectTag`. */
  predicate HasHeapObjectTag(word: nat) {
    word % 4 == 1
  }

  lemma OnlyZeroMultiple(m: nat, d: int)
    requires -(m as int) < m * d < m
    ensures d == 0
  {
    assert d >= 1 ==> m * d >= m;
    assert d <= -1 ==> m * d <= -(m as int);
  }

  lemma ModOf(x: int, q: int, r: int, m: nat)
    requires 0 <= r < m && x == q * m + r
    ensures x % m == r && x / m == q
  {
    assert x == m * (x / m) + x % m;
    assert m * (q - x / m) == q * m - m * (x / m);
    OnlyZeroMultiple(m, q - x / m);
  }

  lemma Residue(x: int, m: nat)
    requires m > 0 && -(m as int) <= x < m
    ensures x % m == if x < 0 then x + m else x
  {
    ModOf(x, if x < 0 then -1 else 0, if x < 0 then x + m else x, m);
  }

  lemma Shifted(w: nat, k: nat)
    ensures (w - 1) * k == (k - 1) * w + (w - k)
  {
  }

  /** All bits set, shifted left. */
  lemma AllBitsShifted(w: nat, k: nat)
    requires 0 < k && 2 * k <= w
    ensures Signed(((w - 1) * k) % w, w) == 0 - k
  {
    Shifted(w, k);
    ModOf((w - 1) * k, k - 1, w - k, w);
    ModOf(w - k, 0, w - k, w);
  }

  lemma Bounds(c: Config)
    ensures c.MinValue() == if c.Tagged8? then 0 - TWO_31 else 0 - TWO_30
    ensures c.MaxValue() == if c.Tagged8? then TWO_31 - 1 else TWO_30 - 1
  {
    hide Signed;
    AllBitsShifted(c.Words(), if c.Tagged8? then TWO_31 else TWO_30);
  }

  lemma SignedRange(x: int, m: nat)
    requires m > 0 && m % 2 == 0
    ensures FitsSigned(Signed(x, m), m) && (FitsSigned(x, m) ==> Signed(x, m) == x)
  {
    assert 0 <= x % m < m;
    if FitsSigned(x, m) {
      Residue(x, m);
    }
  }

  /** A range test by unsigned subtraction, for signed bounds at any width. */
  lemma WrapAroundTest(value: int, low: int, high: int, w: nat)
    requires w > 0 && FitsSigned(value, w) && FitsSigned(low, w) && FitsSigned(high, w) && low <= high
    ensures (value % w - low % w) % w <= (high % w - low % w) % w <==> low <= value <= high
  {
    Residue(value, w);
    Residue(low, w);
    Residue(high, w);
    Residue(value % w - low % w, w);
    Residue(high % w - low % w, w);
  }

  /** The test by unsigned wrap-around, or by a cast, is the signed range test, for every value
      of `intptr_t`. */
  lemma ValidExactly(c: Config, value: int)
    requires FitsSigned(value, c.Words())
    ensures IsValidSmi(c, value) <==> c.MinValue() <= value <= c.MaxValue()
  {
    hide Signed, Config.MinValue;
    Bounds(c);
    if c.Tagged8? {
      SignedRange(value, TWO_32);
    } else {
      WrapAroundTest(value, c.MinValue(), c.MaxValue(), c.Words());
    }
  }

  /** Encoding a 32-bit integer and decoding it again gives it back exactly if it is valid. */
  lemma RoundTripExactly(c: Config, value: int)
    requires FitsSigned(value, TWO_32)
    ensures SmiToInt(c, IntToSmi(c, value)) == value <==> IsValidSmi(c, value)
  {
    hide Signed, Config.MinValue, SmiToInt, IntToSmi, IsValidSmi;
    ValidExactly(c, value);
    Bounds(c);
    DecodedIsWrapped(c, value);
    SignedRange(value, if c.Tagged8? then TWO_32 else TWO_31);
  }

  /** What comes back in general: the value wrapped to the width of the payload. */
  lemma DecodedIsWrapped(c: Config, value: int)
    requires FitsSigned(value, TWO_32)
    ensures SmiToInt(c, IntToSmi(c, value)) == Signed(value, if c.Tagged8? then TWO_32 else TWO_31)
  {
    if c.Tagged8? {
      Decoded32(value);
    } else {
      Encoded31(c, value);
      Decoded31(c, IntToSmi(c, value), value);
    }
  }

  lemma Decoded31(c: Config, word: nat, value: int)
    requires FitsSigned(value, TWO_32) && !c.Tagged8?
    requires word % TWO_32 == 2 * if value < 0 then value + TWO_31 else value
    ensures SmiToInt(c, word) == Signed(value, TWO_31)
  {
    var low := if value < 0 then value + TWO_31 else value;
    Residue(2 * low, TWO_32);
    Residue(value, TWO_31);
  }

  lemma Word31(c: Config, value: int)
    requires FitsSigned(value, TWO_32) && !c.Tagged8?
    ensures IntToSmi(c, value) == if value >= 0 then 2 * value
                                  else if c.Tagged4On32? then 2 * (value + TWO_31) else 2 * value + TWO_64
  {
    Residue(value, c.Words());
    if value >= 0 {
      ModOf(2 * value, 0, 2 * value, c.Words());
    } else if c.Tagged4On32? {
      ModOf(2 * (value + TWO_32), 1, 2 * (value + TWO_31), TWO_32);
    } else {
      ModOf(2 * (value + TWO_64), 1, 2 * value + TWO_64, TWO_64);
    }
  }

  lemma Encoded31(c: Config, value: int)
    requires FitsSigned(value, TWO_32) && !c.Tagged8?
    ensures IntToSmi(c, value) % TWO_32 == 2 * if value < 0 then value + TWO_31 else value
    ensures IntToSmi(c, value) % 2 == 0
  {
    hide IntToSmi, Config.Words;
    Word31(c, value);
    var low := if value < 0 then value + TWO_31 else value;
    ModOf(IntToSmi(c, value), if value < 0 && c.Tagged4On64? then TWO_32 - 1 else 0, 2 * low, TWO_32);
    var half := IntToSmi(c, value) / 2;
    assert IntToSmi(c, value) == 2 * half;
  }

  lemma Decoded32(value: int)
    requires FitsSigned(value, TWO_32)
    ensures IntToSmi(Tagged8, value) % TWO_32 == 0
    ensures SmiToInt(Tagged8, IntToSmi(Tagged8, value)) == Signed(value, TWO_32)
  {
    var low := if value < 0 then value + TWO_32 else value;
    Residue(value, TWO_64);
    Residue(value, TWO_32);
    var word := low * TWO_32;
    ModOf((value % TWO_64) * TWO_32, if value < 0 then TWO_32 - 1 else 0, word, TWO_64);
    Residue(word, TWO_64);
    ModOf(word, low, 0, TWO_32);
    ModOf(Signed(word, TWO_64), value, 0, TWO_32);
  }

  /** The bits below the payload of an encoded integer are zero, so it has the tag of a Smi and does not
      look like a pointer to a heap object. */
  lemma NoSmiIsAHeapObject(c: Config, value: int)
    requires FitsSigned(value, TWO_32)
    ensures IntToSmi(c, value) % (if c.Tagged8? then TWO_32 else 2) == 0 && !HasHeapObjectTag(IntToSmi(c, value))
  {
    if c.Tagged8? {
      Decoded32(value);
    } else {
      Encoded31(c, value);
    }
  }
}

/**
 * Integer widths of the driver and the encoding of 12-bit timing values into
 * the 16-bit words the PCA9685 stores in each pair of 8-bit registers.
 */
module Encoding {

  /** An unsigned 8-bit value (Rust `u8`). */
  type Byte = x: int | 0 <= x < 0x100

  /** An unsigned 16-bit value (Rust `u16`). */
  type U16 = x: int | 0 <= x < 0x1_0000

  /** Largest counter position of the 4096-step PWM cycle. */
  const MAX_TIMING: U16 := 4095

  /** Bit 12 of a counter word: the full-on / full-off override flag. */
  const FULL_FLAG: U16 := 0x1000

  /** A timing value the chip accepts: a 12-bit counter position. */
  predicate IsTiming(v: U16) {
    v <= MAX_TIMING
  }

  /** Low byte of a word, as the truncating cast `v as u8`. */
  function Lo(v: U16): (b: Byte)
    ensures (v - b) % 0x100 == 0
  {
    v % 0x100
  }

  /** High byte of a word, as `(v >> 8) as u8`; for a 16-bit word the cast never truncates. */
  function Hi(v: U16): (b: Byte)
    ensures 0x100 * b <= v < 0x100 * (b + 1)
  {
    v / 0x100
  }

  /** The word that a (low, high) register pair holds. */
  function Word(lo: Byte, hi: Byte): (w: U16)
    ensures Lo(w) == lo && Hi(w) == hi
  {
    lo + 0x100 * hi
  }

  /** Bitwise or of two unsigned integers, bit by bit from the least significant bit. */
  function BitOr(a: nat, b: nat): (r: nat)
    ensures a <= r && b <= r && r <= a + b
    decreases a + b
  {
    if a == 0 then b
    else if b == 0 then a
    else (if a % 2 == 1 || b % 2 == 1 then 1 else 0) + 2 * BitOr(a / 2, b / 2)
  }

  /** 2 to the power k. */
  function Pow2(k: nat): (p: nat)
    ensures p >= 1
  {
    if k == 0 then 1 else 2 * Pow2(k - 1)
  }

  /** The 12-bit counter part of a stored word. */
  function Counter(w: U16): (c: U16)
    ensures IsTiming(c)
  {
    w % 0x1000
  }

  /** Whether bit k of x is set. */
  predicate Bit(x: nat, k: nat) {
    (x / Pow2(k)) % 2 == 1
  }

  /** Whether the full-on / full-off override bit of a stored word is set. */
  predicate HasFullFlag(w: U16) {
    Bit(w, 12)
  }

  /** BitOr is bitwise or: bit k of the result is set exactly when it is set in a or in b. */
  lemma {:induction false} OrBits(a: nat, b: nat, k: nat)
    ensures Bit(BitOr(a, b), k) <==> Bit(a, k) || Bit(b, k)
    decreases k
  {
    if a != 0 && b != 0 && k > 0 {
      var o := BitOr(a, b);
      assert o / 2 == BitOr(a / 2, b / 2);
      ShiftBit(a, k);
      ShiftBit(b, k);
      ShiftBit(o, k);
      OrBits(a / 2, b / 2, k - 1);
    }
  }

  /** Bit k of x is bit k - 1 of x / 2. */
  lemma ShiftBit(x: nat, k: nat)
    requires k > 0
    ensures Bit(x, k) <==> Bit(x / 2, k - 1)
  {
    var n := Pow2(k - 1);
    var q, r := (x / 2) / n, 2 * ((x / 2) % n) + x % 2;
    assert x == 2 * n * q + r by {
      assert x == 2 * (x / 2) + x % 2;
      assert x / 2 == n * q + (x / 2) % n;
    }
    DivUnique(x, 2 * n, q, r);
  }

  /** Division is determined by quotient and remainder. */
  lemma DivUnique(x: nat, d: nat, q: nat, r: nat)
    requires d > 0 && 0 <= r < d && x == d * q + r
    ensures x / d == q
  {
    var q', r' := x / d, x % d;
    assert x == d * q' + r';
    if q' > q {
      MulMonotone(d, q + 1, q');
    } else if q' < q {
      MulMonotone(d, q' + 1, q);
    }
  }

  lemma MulMonotone(d: nat, a: nat, b: nat)
    requires a <= b
    ensures d * a <= d * b
  {
    assert d * b == d * a + d * (b - a);
  }

  /** The or of two words below 2^n is below 2^n: or-ing 16-bit words never leaves 16 bits. */
  lemma {:induction false} OrBelow(a: nat, b: nat, n: nat)
    requires a < Pow2(n) && b < Pow2(n)
    ensures BitOr(a, b) < Pow2(n)
  {
    if a != 0 && b != 0 {
      OrBelow(a / 2, b / 2, n - 1);
    }
  }

  /** Splitting a word into its two bytes and joining them again gives the word back. */
  lemma SplitJoin(v: U16)
    ensures Word(Lo(v), Hi(v)) == v
  {
  }

  /** A timing value splits into a low byte and a high byte of at most four bits. */
  lemma TimingBytes(v: U16)
    requires IsTiming(v)
    ensures Hi(v) <= 0x0F
    ensures Lo(v) + 0x100 * Hi(v) == v
  {
  }

  /** A plain timing value decodes to itself, with the override flag clear. */
  lemma TimingWord(v: U16)
    requires IsTiming(v)
    ensures Counter(v) == v && !HasFullFlag(v)
  {
  }

  /**
   * Or-ing the override flag into a timing value adds exactly 0x1000: the
   * low twelve bits keep the value and bit 12 is set.
   */
  lemma FullFlagWord(v: U16)
    requires IsTiming(v)
    ensures BitOr(v, FULL_FLAG) == v + FULL_FLAG
    ensures Counter(BitOr(v, FULL_FLAG)) == v && HasFullFlag(BitOr(v, FULL_FLAG))
    ensures Lo(BitOr(v, FULL_FLAG)) == Lo(v) && Hi(BitOr(v, FULL_FLAG)) == Hi(v) + 0x10
  {
    FlagOrIsAddition(v);
    FlaggedTiming(v);
  }

  lemma FlaggedTiming(v: U16)
    requires IsTiming(v)
    ensures Counter(v + FULL_FLAG) == v && HasFullFlag(v + FULL_FLAG)
    ensures Lo(v + FULL_FLAG) == Lo(v) && Hi(v + FULL_FLAG) == Hi(v) + 0x10
  {
    assert Pow2(12) == 0x1000;
  }

  lemma FlagOrIsAddition(v: U16)
    requires IsTiming(v)
    ensures BitOr(v, FULL_FLAG) == v + FULL_FLAG
  {
    assert Pow2(12) == FULL_FLAG;
    OrPowerOfTwo(v, 12);
  }

  /** Or-ing a single bit above every set bit of v adds that bit. */
  lemma {:induction false} OrPowerOfTwo(v: nat, k: nat)
    requires v < Pow2(k)
    ensures BitOr(v, Pow2(k)) == v + Pow2(k)
  {
    if v != 0 {
      assert k > 0;
      OrPowerOfTwo(v / 2, k - 1);
    }
  }

  /** The fixed full-off word has a zero counter and the override flag set. */
  lemma FullOffWord()
    ensures Counter(FULL_FLAG) == 0 && HasFullFlag(FULL_FLAG)
    ensures Lo(FULL_FLAG) == 0x00 && Hi(FULL_FLAG) == 0x10
  {
  }
}

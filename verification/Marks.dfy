/** The PolyWAN field of a 32-bit mark (crates/polywan/src/model.rs): eight
    contiguous bits holding a 2-bit class and a 6-bit uplink id. Marks are
    natural numbers below 2^32; the bitwise operators are defined bit by bit
    and their effect on the field is proved for every shift. */
module Marks {
  import opened Model

  /** `2 * half + odd`, a word from its upper bits and its lowest bit. */
  function Word(odd: bool, half: nat): (r: nat)
    ensures r / 2 == half && (r % 2 == 1) == odd
  {
    2 * half + if odd then 1 else 0
  }

  predicate Odd(a: nat) { a % 2 == 1 }

  /** The bitwise `a & b`. */
  function And(a: nat, b: nat): (r: nat)
  {
    if a == 0 then 0 else Word(Odd(a) && Odd(b), And(a / 2, b / 2))
  }

  /** The bitwise `a | b`. */
  function Or(a: nat, b: nat): (r: nat)
    decreases a + b
  {
    if a == 0 && b == 0 then 0 else Word(Odd(a) || Odd(b), Or(a / 2, b / 2))
  }

  /** The bitwise complement of `a` within `width` bits. */
  function Not(a: nat, width: nat): (r: nat)
    decreases width
  {
    if width == 0 then 0 else Word(!Odd(a), Not(a / 2, width - 1))
  }

  /** `a << k`. */
  function Shl(a: nat, k: nat): (r: nat) { if k == 0 then a else 2 * Shl(a, k - 1) }

  /** `a >> k`. */
  function Shr(a: nat, k: nat): (r: nat) { if k == 0 then a else Shr(a / 2, k - 1) }

  const BITS: nat := 32
  const LIMIT: nat := 0x1_0000_0000

  type Mark = m: nat | m < LIMIT

  /** The bit position of the field: the mask is eight contiguous bits. */
  type Shift = s: nat | s <= 24

  type FieldValue = v: nat | v < 256

  const CLASS_PATH: nat := 0
  const CLASS_PROBE: nat := 1
  const CLASS_POLICY_BALANCE: nat := 2
  const CLASS_POLICY_BLOCK: nat := 3

  /** The value of an uplink in a class: `class << 6 | id`. */
  function ValueOf(class_: nat, id: nat): (v: FieldValue)
    requires class_ < 4 && id < 64
    ensures v / 64 == class_ && v % 64 == id
  {
    64 * class_ + id
  }

  /** `encode`, `mask`, `class_mask` and `field` of `FwMask`. */
  function Encode(s: Shift, v: FieldValue): (m: nat) { Shl(v, s) }

  function Mask(s: Shift): (m: nat) { Encode(s, 255) }

  function ClassMask(s: Shift): (m: nat) { Encode(s, 192) }

  function Field(s: Shift, m: nat): (v: FieldValue) { Shr(m, s) % 256 }

  /** The constant-only write `m & !mask | encode(v)`. */
  function SetField(s: Shift, m: nat, v: FieldValue): (r: nat)
  {
    Or(And(m, Not(Mask(s), BITS)), Encode(s, v))
  }

  /** Whether a mark matches the selector `(value, mask)`. */
  predicate Selects(value: nat, mask: nat, m: nat) { And(m, mask) == value }

  /** The number of trailing zero bits, 32 for zero. */
  function TrailingZeros(m: nat): (k: nat)
  {
    if m == 0 then BITS else if Odd(m) then 0 else 1 + TrailingZeros(m / 2)
  }

  /** `FwMask::new`: accepts a mask of exactly eight contiguous bits. */
  function NewMask(mask: nat): (s: Option<nat>)
  {
    var k := TrailingZeros(mask);
    if mask != 0 && Shr(mask, k) == 255 then Some(k) else None
  }

  // ---------------------------------------------------------------- bits

  lemma {:induction false} AndStep(a: nat, b: nat)
    ensures And(a, b) == Word(Odd(a) && Odd(b), And(a / 2, b / 2))
  {
    if a == 0 { assert And(0, b / 2) == 0; }
  }

  lemma {:induction false} OrStep(a: nat, b: nat)
    ensures Or(a, b) == Word(Odd(a) || Odd(b), Or(a / 2, b / 2))
  {
    if a == 0 && b == 0 { assert Or(0, 0) == 0; }
  }

  lemma {:induction false} AndZero(a: nat)
    ensures And(a, 0) == 0
  {
    if a != 0 { AndZero(a / 2); }
  }

  /** Masking with a shifted selector is masking the bits above the shift. */
  lemma {:induction false} AndShifted(m: nat, y: nat, k: nat)
    ensures And(m, Shl(y, k)) == Shl(And(Shr(m, k), y), k)
  {
    if k != 0 {
      AndShifted(m / 2, y, k - 1);
      AndStep(m, Shl(y, k));
    }
  }

  lemma {:induction false} ShlInjective(a: nat, b: nat, k: nat)
    ensures Shl(a, k) == Shl(b, k) <==> a == b
  {
    if k != 0 { ShlInjective(a, b, k - 1); }
  }

  lemma {:induction false} OrDisjoint(h: nat, v: nat, k: nat)
    requires v < Shl(1, k)
    ensures Or(Shl(h, k), v) == Shl(h, k) + v
  {
    if k != 0 {
      OrDisjoint(h, v / 2, k - 1);
      OrStep(Shl(h, k), v);
    } else {
      OrZero(h);
    }
  }

  lemma {:induction false} OrZero(a: nat)
    ensures Or(a, 0) == a
  {
    if a != 0 { OrZero(a / 2); }
  }

  /** The `k` low bits. */
  function Low(x: nat, k: nat): (r: nat)
  {
    if k == 0 then 0 else Word(Odd(x), Low(x / 2, k - 1))
  }

  /** `&` acts on the bits above and below position `k` separately. */
  lemma {:induction false} AndSplit(x: nat, a: nat, b: nat, k: nat)
    requires b < Shl(1, k)
    ensures And(x, Shl(a, k) + b) == Shl(And(Shr(x, k), a), k) + And(Low(x, k), b)
    decreases k
  {
    if k != 0 {
      AndSplit(x / 2, a, b / 2, k - 1);
      AndStep(x, Shl(a, k) + b);
      AndStep(Low(x, k), b);
    }
  }

  /** `&` with `k` ones keeps the `k` low bits. */
  lemma {:induction false} AndOnes(x: nat, k: nat)
    ensures Shl(1, k) > 0 && And(x, Shl(1, k) - 1) == Low(x, k)
  {
    if k != 0 {
      AndOnes(x / 2, k - 1);
      AndStep(x, Shl(1, k) - 1);
    } else {
      AndZero(x);
    }
  }

  /** Shifts by two and by six are products and quotients. */
  lemma {:induction false} ShiftTwo(x: nat)
    ensures Shl(x, 2) == 4 * x && Shr(x, 2) == x / 4 && Low(x, 2) == x % 4
  {
    assert Shl(x, 1) == 2 * x;
    assert Shr(x, 2) == Shr(x / 2, 1) == Shr(x / 2 / 2, 0);
    assert Low(x / 2, 1) == x / 2 % 2 by { assert Low(x / 2 / 2, 0) == 0; }
  }

  lemma {:induction false} ShiftFour(x: nat)
    ensures Shl(x, 4) == 16 * x && Shr(x, 4) == x / 16 && Low(x, 4) == x % 16
  {
    ShiftTwo(x);
    ShiftTwo(x / 4);
    assert Shl(x, 3) == 8 * x;
    assert Shr(x, 4) == Shr(x / 2, 3) == Shr(x / 2 / 2, 2);
    assert x / 2 / 2 == x / 4;
    assert Low(x, 4) == Word(Odd(x), Low(x / 2, 3));
    assert Low(x / 2, 3) == Word(Odd(x / 2), Low(x / 4, 2));
  }

  lemma {:induction false} ShiftSix(x: nat)
    ensures Shl(x, 6) == 64 * x && Shr(x, 6) == x / 64 && Low(x, 6) == x % 64
  {
    ShiftFour(x);
    ShiftFour(x / 4);
    assert Shl(x, 5) == 32 * x;
    assert Shr(x, 6) == Shr(x / 2, 5) == Shr(x / 2 / 2, 4);
    assert x / 2 / 2 == x / 4 && x / 4 / 16 == x / 64;
    assert Low(x, 6) == Word(Odd(x), Low(x / 2, 5));
    assert Low(x / 2, 5) == Word(Odd(x / 2), Low(x / 4, 4));
  }

  lemma {:induction false} ShiftEight(x: nat)
    ensures Shl(x, 8) == 256 * x && Shr(x, 8) == x / 256 && Low(x, 8) == x % 256
  {
    ShiftSix(x);
    ShiftSix(x / 4);
    assert Shl(x, 7) == 128 * x;
    assert Shr(x, 8) == Shr(x / 2, 7) == Shr(x / 2 / 2, 6);
    assert x / 2 / 2 == x / 4 && x / 4 / 64 == x / 256;
    assert Low(x, 8) == Word(Odd(x), Low(x / 2, 7));
    assert Low(x / 2, 7) == Word(Odd(x / 2), Low(x / 4, 6));
  }

  // -------------------------------------------------- selectors of the field

  /** A selector on encoded values is a selector on the shifted mark. */
  lemma {:induction false} EncodedSelector(s: Shift, v: FieldValue, y: FieldValue, m: nat)
    ensures Selects(Encode(s, v), Encode(s, y), m) <==> And(Shr(m, s), y) == v
  {
    AndShifted(m, y, s);
    ShlInjective(And(Shr(m, s), y), v, s);
  }

  /** A full-mask selector matches exactly the marks whose field is the value. */
  lemma {:induction false} ValueSelector(s: Shift, v: FieldValue, m: nat)
    ensures Selects(Encode(s, v), Mask(s), m) <==> Field(s, m) == v
  {
    EncodedSelector(s, v, 255, m);
    ShiftEight(1);
    AndOnes(Shr(m, s), 8);
    ShiftEight(Shr(m, s));
  }

  lemma {:induction false} AndThree(y: nat)
    ensures And(y, 3) == y % 4
  {
    ShiftTwo(1);
    AndOnes(y, 2);
    ShiftTwo(y);
  }

  lemma {:induction false} AndSixBits(x: nat, a: nat, b: nat)
    requires b < 64
    ensures And(x, 64 * a + b) == 64 * And(x / 64, a) + And(x % 64, b)
  {
    ShiftSix(1);
    ShiftSix(a);
    ShiftSix(x);
    AndSplit(x, a, b, 6);
    ShiftSix(And(x / 64, a));
  }

  lemma {:induction false} ClassDigits(x: nat)
    ensures x % 256 / 64 == x / 64 % 4
  {
  }

  lemma {:induction false} AndClassBits(x: nat, b: nat)
    requires b < 64
    ensures And(x, 192 + b) == 64 * (x % 256 / 64) + And(x % 64, b)
  {
    ClassDigits(x);
    AndSixBits(x, 3, b);
    AndThree(x / 64);
  }

  /** A class-mask selector matches exactly the marks of the class. */
  lemma {:induction false} ClassSelector(s: Shift, class_: nat, m: nat)
    requires class_ < 4
    ensures Selects(Encode(s, ValueOf(class_, 0)), ClassMask(s), m) <==> Field(s, m) / 64 == class_
  {
    EncodedSelector(s, ValueOf(class_, 0), 192, m);
    AndClassBits(Shr(m, s), 0);
    AndZero(Shr(m, s) % 64);
  }

  /** `1 << k` for the six id bits. */
  function Bit(k: nat): (b: FieldValue)
    requires k < 6
    ensures 0 < b < 64
  {
    ShiftFour(1);
    assert Shl(1, 5) == 32 && Shl(1, 3) == 8 && Shl(1, 2) == 4 && Shl(1, 1) == 2;
    Shl(1, k)
  }

  predicate HasBit(x: nat, k: nat) { Odd(Shr(x, k)) }

  lemma {:induction false} ShlZero(k: nat)
    ensures Shl(0, k) == 0
  {
    if k != 0 { ShlZero(k - 1); }
  }

  lemma {:induction false} AndBit(y: nat, k: nat)
    requires k < 6
    ensures And(y, Bit(k)) == if HasBit(y, k) then Bit(k) else 0
  {
    AndShifted(y, 1, k);
    AndStep(Shr(y, k), 1);
    AndZero(Shr(y, k) / 2);
    ShlZero(k);
  }

  lemma {:induction false} GuardDigits(c: nat, low: nat, bit: nat, has: bool)
    requires 0 < bit < 64 && low == if has then bit else 0
    ensures 64 * c + low == bit <==> c == 0 && has
  {
  }

  lemma {:induction false} IdDigits(x: nat)
    ensures x % 256 % 64 == x % 64
  {
  }

  lemma {:induction false} GuardBits(x: nat, k: nat)
    requires k < 6
    ensures And(x, 192 + Bit(k)) == Bit(k) <==> x % 256 / 64 == 0 && HasBit(x % 256 % 64, k)
  {
    var c, id, bit := x % 256 / 64, x % 64, Bit(k);
    calc {
      And(x, 192 + bit) == bit;
      { AndClassBits(x, bit); }
      64 * c + And(id, bit) == bit;
      { AndBit(id, k); GuardDigits(c, And(id, bit), bit, HasBit(id, k)); }
      c == 0 && HasBit(id, k);
      { IdDigits(x); }
      c == 0 && HasBit(x % 256 % 64, k);
    }
  }

  /** The path guard of bit `k` matches the path values with that bit. */
  lemma {:induction false} GuardSelector(s: Shift, k: nat, m: nat)
    requires k < 6
    ensures Selects(Encode(s, Bit(k)), Encode(s, 192 + Bit(k)), m)
       <==> Field(s, m) / 64 == CLASS_PATH && HasBit(Field(s, m) % 64, k)
  {
    EncodedSelector(s, Bit(k), 192 + Bit(k), m);
    GuardBits(Shr(m, s), k);
  }

  lemma {:induction false} NoBit(id: nat, k: nat)
    requires id < Shl(1, k) && forall j :: 0 <= j < k ==> !HasBit(id, j)
    ensures id == 0
    decreases k
  {
    if k != 0 {
      assert !HasBit(id, 0);
      forall j | 0 <= j < k - 1 ensures !HasBit(id / 2, j) {
        assert !HasBit(id, j + 1);
      }
      NoBit(id / 2, k - 1);
    }
  }

  /** The six path guards cover exactly the 63 non-zero path values. */
  lemma {:induction false} GuardsCoverPathValues(s: Shift, m: nat)
    ensures (exists k :: 0 <= k < 6 && Selects(Encode(s, Bit(k)), Encode(s, 192 + Bit(k)), m))
       <==> Field(s, m) / 64 == CLASS_PATH && Field(s, m) % 64 != 0
  {
    var f := Field(s, m);
    forall k | 0 <= k < 6
      ensures Selects(Encode(s, Bit(k)), Encode(s, 192 + Bit(k)), m)
         <==> f / 64 == CLASS_PATH && HasBit(f % 64, k)
    {
      GuardSelector(s, k, m);
    }
    ShiftSix(1);
    if f / 64 == CLASS_PATH && f % 64 != 0 {
      if forall j :: 0 <= j < 6 ==> !HasBit(f % 64, j) {
        NoBit(f % 64, 6);
        assert false;
      }
    }
    if f % 64 == 0 {
      forall j | 0 <= j < 6 ensures !HasBit(f % 64, j) { ShrZero(j); }
    }
  }

  lemma {:induction false} ShrZero(k: nat)
    ensures Shr(0, k) == 0
  {
    if k != 0 { ShrZero(k - 1); }
  }

  // ------------------------------------------------------ writing the field

  /** `SetField` within `width` bits. */
  function Write(s: nat, m: nat, v: FieldValue, width: nat): (r: nat)
  {
    Or(And(m, Not(Shl(255, s), width)), Shl(v, s))
  }

  /** Below the field, a write copies the bits. */
  lemma {:induction false} WriteStep(s: nat, m: nat, v: FieldValue, width: nat)
    requires 0 < s && 0 < width
    ensures Write(s, m, v, width) == Word(Odd(m), Write(s - 1, m / 2, v, width - 1))
  {
    var n := Not(Shl(255, s), width);
    assert n == Word(true, Not(Shl(255, s - 1), width - 1));
    AndStep(m, n);
    OrStep(And(m, n), Shl(v, s));
  }

  lemma {:induction false} AndNotZero(a: nat, width: nat)
    requires a < Shl(1, width)
    ensures And(a, Not(0, width)) == a
  {
    if width != 0 {
      AndNotZero(a / 2, width - 1);
      AndStep(a, Not(0, width));
    }
  }

  lemma {:induction false} AndNotByte(m: nat, width: nat)
    requires width >= 8 && m < Shl(1, width)
    ensures And(m, Not(255, width)) == m / 256 * 256
  {
    AndNotOnes(m, 8, width);
    ShiftEight(1);
    ShiftEight(m);
    ShiftEight(m / 256);
  }

  /** Clearing the `k` low bits. */
  lemma {:induction false} AndNotOnes(m: nat, k: nat, width: nat)
    requires k <= width && m < Shl(1, width)
    ensures Shl(1, k) > 0 && And(m, Not(Shl(1, k) - 1, width)) == Shl(Shr(m, k), k)
    decreases k
  {
    if k == 0 {
      AndNotZero(m, width);
    } else {
      AndNotOnes(m / 2, k - 1, width - 1);
      AndStep(m, Not(Shl(1, k) - 1, width));
    }
  }

  lemma {:induction false} WriteLowByte(m: nat, v: FieldValue, width: nat)
    requires width >= 8 && m < Shl(1, width)
    ensures Write(0, m, v, width) == m / 256 * 256 + v
  {
    AndNotByte(m, width);
    ShiftEight(1);
    ShiftEight(m / 256);
    OrDisjoint(m / 256, v, 8);
  }

  ghost predicate Written(s: nat, m: nat, v: FieldValue, width: nat)
  {
    var r := Write(s, m, v, width);
    && r < Shl(1, width)
    && Shr(r, s) % 256 == v
    && And(r, Not(Shl(255, s), width)) == And(m, Not(Shl(255, s), width))
  }

  lemma {:induction false} LowByteReplaced(m: nat, v: FieldValue, w: nat)
    requires m < 256 * w
    ensures var r := m / 256 * 256 + v; r < 256 * w && r % 256 == v && r / 256 == m / 256
  {
  }

  lemma {:induction false} WrittenLowByte(m: nat, v: FieldValue, width: nat)
    requires 8 <= width && m < Shl(1, width)
    ensures Written(0, m, v, width)
  {
    var w := Shl(1, width - 8);
    ShlAdd(1, width - 8, 8);
    ShiftEight(w);
    LowByteReplaced(m, v, w);
    WriteLowByte(m, v, width);
    AndNotByte(m, width);
    AndNotByte(m / 256 * 256 + v, width);
  }

  /** Within any width: the field reads back, the other bits are kept. */
  lemma {:induction false} WriteMeaning(s: nat, m: nat, v: FieldValue, width: nat)
    requires s + 8 <= width && m < Shl(1, width)
    ensures Written(s, m, v, width)
    decreases s
  {
    if s == 0 {
      WrittenLowByte(m, v, width);
    } else {
      WriteMeaning(s - 1, m / 2, v, width - 1);
      WriteStep(s, m, v, width);
      var mask := Not(Shl(255, s), width);
      assert mask == Word(true, Not(Shl(255, s - 1), width - 1));
      AndStep(Write(s, m, v, width), mask);
      AndStep(m, mask);
    }
  }

  lemma {:induction false} ShlAdd(a: nat, j: nat, k: nat)
    ensures Shl(Shl(a, j), k) == Shl(a, j + k)
  {
    if k != 0 { ShlAdd(a, j, k - 1); }
  }

  lemma {:induction false} LimitIsShl()
    ensures Shl(1, BITS) == LIMIT
  {
    assert Shl(1, 4) == 16;
    assert Shl(1, 8) == 256;
    assert Shl(1, 12) == 4096;
    assert Shl(1, 16) == 65536;
    assert Shl(1, 20) == 0x10_0000;
    assert Shl(1, 24) == 0x100_0000;
    assert Shl(1, 28) == 0x1000_0000;
  }

  /** The written field reads back, the mark stays a 32-bit word, and every
      bit outside the field is preserved (FR-MARK-1, FR-MARK-3). */
  lemma {:induction false} SetFieldMeaning(s: Shift, m: Mark, v: FieldValue)
    ensures SetField(s, m, v) < LIMIT
    ensures Field(s, SetField(s, m, v)) == v
    ensures And(SetField(s, m, v), Not(Mask(s), BITS)) == And(m, Not(Mask(s), BITS))
  {
    LimitIsShl();
    WriteMeaning(s, m, v, BITS);
  }

  // --------------------------------------------------------- accepted masks

  lemma {:induction false} TrailingZerosShift(m: nat)
    requires m != 0
    ensures m == Shl(Shr(m, TrailingZeros(m)), TrailingZeros(m))
  {
    if !Odd(m) { TrailingZerosShift(m / 2); }
  }

  lemma {:induction false} TrailingZerosOfShifted(q: nat, k: nat)
    requires Odd(q)
    ensures Shl(q, k) != 0 && TrailingZeros(Shl(q, k)) == k && Shr(Shl(q, k), k) == q
  {
    if k != 0 { TrailingZerosOfShifted(q, k - 1); }
  }

  lemma {:induction false} ShlGrows(q: nat, a: nat, b: nat)
    requires a <= b
    ensures Shl(q, a) <= Shl(q, b)
    decreases b
  {
    if a < b { ShlGrows(q, a, b - 1); }
  }

  /** A mask is accepted if and only if it is `0xff` shifted by 0 to 24. */
  lemma {:induction false} MaskAccepted(mask: Mark, s: nat)
    ensures NewMask(mask) == Some(s) <==> s <= 24 && mask == Mask(s)
  {
    if NewMask(mask) == Some(s) {
      TrailingZerosShift(mask);
      if s > 24 {
        ByteShiftedOut(s);
        assert false;
      }
    }
    if s <= 24 && mask == Mask(s) {
      TrailingZerosOfShifted(255, s);
    }
  }

  lemma {:induction false} ByteShiftedOut(s: nat)
    requires s > 24
    ensures Shl(255, s) >= LIMIT
  {
    ShlGrows(255, 25, s);
    assert Shl(255, 5) == 255 * 32;
    assert Shl(255, 10) == 255 * 1024;
    assert Shl(255, 15) == 255 * 0x8000;
    assert Shl(255, 20) == 255 * 0x10_0000;
    assert Shl(255, 25) == 255 * 0x200_0000;
  }
}

/**
 * MurmurHash3 x64_128 on unbounded integers masked to 64 bits, as the cross-check computes it.
 * Every mixing step is a bijection on words, so inputs of one length that differ in a single
 * 16-byte piece never collide.
 */
module Murmur3 {

  const C1: Word := 0x87C37B91114253D5
  const C2: Word := 0x4CF5AD432745937F
  const F1: Word := 0xFF51AFD7ED558CCD
  const F2: Word := 0xC4CEB9FE1A85EC53

  type Word = x: nat | x < 0x1_0000_0000_0000_0000
  type Byte = x: nat | x < 256

  /** The low 64 bits of any integer. */
  function Mask(x: int): Word { x % 0x1_0000_0000_0000_0000 }

  lemma {:induction false} MaskOf(q: int, r: Word)
    ensures Mask(q * 0x1_0000_0000_0000_0000 + r) == r
  {
  }

  // ---- bits ------------------------------------------------------------------------

  function Pow2(n: nat): (p: nat)
    ensures p > 0
  {
    if n == 0 then 1 else 2 * Pow2(n - 1)
  }

  function Xor(a: nat, b: nat): nat {
    if a == 0 then b else if b == 0 then a else
    2 * Xor(a / 2, b / 2) + (if a % 2 != b % 2 then 1 else 0)
  }

  function Or(a: nat, b: nat): nat {
    if a == 0 then b else if b == 0 then a else
    2 * Or(a / 2, b / 2) + (if a % 2 == 1 || b % 2 == 1 then 1 else 0)
  }

  lemma {:induction false} XorCancels(a: nat, b: nat)
    ensures Xor(Xor(a, b), b) == a
  {
    if b == 0 {
    } else if a == 0 {
      XorSelf(b);
    } else {
      XorCancels(a / 2, b / 2);
      XorHalves(a, b);
      XorHalves(Xor(a, b), b);
    }
  }

  lemma {:induction false} XorSelf(b: nat)
    ensures Xor(b, b) == 0
  {
    if b != 0 { XorSelf(b / 2); }
  }

  lemma {:induction false} XorCommutes(a: nat, b: nat)
    ensures Xor(a, b) == Xor(b, a)
  {
    if a != 0 && b != 0 { XorCommutes(a / 2, b / 2); }
  }

  lemma {:induction false} XorHalves(a: nat, b: nat)
    ensures Xor(a, b) / 2 == Xor(a / 2, b / 2) && Xor(a, b) % 2 == (if a % 2 != b % 2 then 1 else 0)
  {
  }

  lemma {:induction false} XorBound(a: nat, b: nat, n: nat)
    requires a < Pow2(n) && b < Pow2(n)
    ensures Xor(a, b) < Pow2(n)
    decreases n
  {
    if n > 0 {
      XorBound(a / 2, b / 2, n - 1);
      XorHalves(a, b);
    }
  }

  function Shr(x: nat, n: nat): nat
    decreases x
  {
    if n == 0 || x == 0 then x else Shr(x / 2, n - 1)
  }

  function Shl(x: nat, n: nat): nat
    decreases n, x
  {
    if n == 0 then x else 2 * Shl(x, n - 1)
  }

  /** The lowest `n` bits. */
  function Low(x: nat, n: nat): nat
    decreases x
  {
    if n == 0 || x == 0 then 0 else 2 * Low(x / 2, n - 1) + x % 2
  }

  lemma {:induction false} ShlIs(x: nat, n: nat)
    ensures Shl(x, n) == x * Pow2(n)
    decreases n
  {
    if n > 0 { ShlIs(x, n - 1); }
  }

  /** Shifting right distributes over exclusive or. */
  lemma {:induction false} XorShifts(a: nat, b: nat, n: nat)
    ensures Shr(Xor(a, b), n) == Xor(Shr(a, n), Shr(b, n))
    decreases n
  {
    if n > 0 {
      XorHalves(a, b);
      XorShifts(a / 2, b / 2, n - 1);
    }
  }

  lemma {:induction false} ShrTwice(x: nat, m: nat, n: nat)
    ensures Shr(Shr(x, m), n) == Shr(x, m + n)
    decreases m
  {
    if m > 0 { ShrTwice(x / 2, m - 1, n); }
  }

  lemma {:induction false} DoubleProduct(h: nat, p: nat)
    ensures h * (2 * p) == 2 * (h * p)
  {
  }

  lemma {:induction false} HighAndLow(x: nat, n: nat)
    ensures x == Shr(x, n) * Pow2(n) + Low(x, n) && Low(x, n) < Pow2(n)
    decreases n
  {
    if n > 0 && x > 0 {
      HighAndLow(x / 2, n - 1);
      DoubleProduct(Shr(x / 2, n - 1), Pow2(n - 1));
    }
  }

  lemma {:induction false} Assemble(h: nat, l: nat, n: nat)
    requires l < Pow2(n)
    ensures Shr(h * Pow2(n) + l, n) == h && Low(h * Pow2(n) + l, n) == l
    decreases n
  {
    if n > 0 {
      var p := Pow2(n - 1);
      DoubleProduct(h, p);
      Assemble(h, l / 2, n - 1);
      HalfOf(h * p + l / 2, l % 2);
      var x := h * Pow2(n) + l;
      assert x == 2 * (h * p + l / 2) + l % 2;
    }
  }

  lemma {:induction false} HalfOf(y: nat, b: nat)
    requires b < 2
    ensures (2 * y + b) / 2 == y && (2 * y + b) % 2 == b
  {
  }

  lemma {:induction false} SmallShiftsOut(x: nat, n: nat)
    requires x < Pow2(n)
    ensures Shr(x, n) == 0
  {
    Assemble(0, x, n);
  }

  lemma {:induction false} PowersAdd(m: nat, n: nat)
    ensures Pow2(m) * Pow2(n) == Pow2(m + n)
    decreases m
  {
    if m > 0 { PowersAdd(m - 1, n); }
  }

  lemma {:induction false} WordIs64Bits()
    ensures Pow2(64) == 0x1_0000_0000_0000_0000
  {
    PowersAdd(8, 8);
    assert Pow2(16) == 0x1_0000;
    PowersAdd(16, 16);
    assert Pow2(32) == 0x1_0000_0000;
    PowersAdd(32, 32);
  }

  /** Bits above and below a line do not meet: exclusive or, like or, is the sum. */
  lemma {:induction false} DisjointBits(h: nat, l: nat, n: nat)
    requires l < Pow2(n)
    ensures Xor(h * Pow2(n), l) == Or(h * Pow2(n), l) == h * Pow2(n) + l
    decreases n
  {
    if n > 0 && h != 0 && l != 0 {
      DoubleProduct(h, Pow2(n - 1));
      HalfOf(h * Pow2(n - 1), 0);
      DisjointBits(h, l / 2, n - 1);
    }
  }

  // ---- words --------------------------------------------------------------------------

  function XorWords(a: Word, b: Word): Word {
    WordIs64Bits();
    XorBound(a, b, 64);
    Xor(a, b)
  }

  function Add(a: Word, b: Word): Word { Mask(a + b) }

  function Sub(a: Word, b: Word): Word { Mask(a - b) }

  function Mul(a: Word, b: Word): Word { Mask(a * b) }

  function Rotl(x: Word, r: nat): Word
    requires r <= 64
  {
    RotlIs(x, r);
    Or(Mask(x * Pow2(r)), Shr(x, 64 - r))
  }

  /** A rotation exchanges the high and the low part. */
  lemma {:induction false} RotlIs(x: Word, r: nat)
    requires r <= 64
    ensures Or(Mask(x * Pow2(r)), Shr(x, 64 - r)) == Low(x, 64 - r) * Pow2(r) + Shr(x, 64 - r)
    ensures Shr(x, 64 - r) < Pow2(r)
    ensures Low(x, 64 - r) * Pow2(r) + Shr(x, 64 - r) < 0x1_0000_0000_0000_0000
  {
    var h, l := Shr(x, 64 - r), Low(x, 64 - r);
    WordIs64Bits();
    PowersAdd(r, 64 - r);
    HighAndLow(x, 64 - r);
    ShiftedWord(x, h, l, Pow2(r), Pow2(64 - r));
    DisjointBits(l, h, r);
  }

  lemma {:induction false} ShiftedWord(x: Word, h: nat, l: nat, a: nat, b: nat)
    requires a > 0 && b > 0 && a * b == 0x1_0000_0000_0000_0000 && x == h * b + l && l < b
    ensures Mask(x * a) == l * a && h < a && l * a + h < 0x1_0000_0000_0000_0000
  {
    HighIsShort(h, l, a, b);
    RegroupProduct(h, l, a, b);
    MaskOf(h, l * a);
  }

  lemma {:induction false} HighIsShort(h: nat, l: nat, a: nat, b: nat)
    requires a > 0 && b > 0 && a * b == 0x1_0000_0000_0000_0000 && h * b + l < 0x1_0000_0000_0000_0000 && l < b
    ensures h < a && l * a + h < 0x1_0000_0000_0000_0000
  {
    assert h >= a ==> h * b >= a * b;
    assert l * a <= (b - 1) * a;
  }

  lemma {:induction false} RegroupProduct(h: nat, l: nat, a: nat, b: nat)
    requires a * b == 0x1_0000_0000_0000_0000
    ensures (h * b + l) * a == h * 0x1_0000_0000_0000_0000 + l * a
  {
    assert h * b * a == h * (a * b);
  }

  lemma {:induction false} RotlParts(x: Word, r: nat, k: nat, h: nat, l: nat)
    requires r + k == 64 && h == Shr(x, k) && l == Low(x, k)
    ensures Rotl(x, r) == l * Pow2(r) + h && h < Pow2(r)
  {
    RotlIs(x, r);
  }

  lemma {:induction false} RotlInverts(x: Word, r: nat, k: nat)
    requires r + k == 64
    ensures Rotl(Rotl(x, r), k) == x
  {
    var h, l := Shr(x, k), Low(x, k);
    RotlParts(x, r, k, h, l);
    Assemble(l, h, r);
    RotlParts(Rotl(x, r), k, r, l, h);
    HighAndLow(x, k);
  }

  lemma {:induction false} AddInverts(a: Word, b: Word)
    ensures Sub(Add(a, b), b) == a
  {
    MaskSum(a, b);
    MaskOf(0, a);
    MaskOf(-1, a);
  }

  lemma {:induction false} MaskSum(a: Word, b: Word)
    ensures var l := 0x1_0000_0000_0000_0000; Mask(a + b) == if a + b < l then a + b else a + b - l
  {
    if a + b < 0x1_0000_0000_0000_0000 { MaskOf(0, a + b); } else { MaskOf(1, a + b - 0x1_0000_0000_0000_0000); }
  }

  /** Multiplying by an odd word is undone by its inverse modulo 2^64. */
  lemma {:induction false} MulInverts(x: Word, c: Word, inverse: Word, k: nat)
    requires c * inverse == k * 0x1_0000_0000_0000_0000 + 1
    ensures Mul(Mul(x, c), inverse) == x
  {
    var l := 0x1_0000_0000_0000_0000;
    var q := (x * c) / l;
    assert Mul(x, c) == x * c - q * l;
    Regroup(x, c, inverse, q, k, l);
    MaskOf(x * k - q * inverse, x);
  }

  lemma {:induction false} Regroup(x: int, c: int, d: int, q: int, k: int, l: int)
    requires c * d == k * l + 1
    ensures (x * c - q * l) * d == (x * k - q * d) * l + x
  {
    calc {
      (x * c - q * l) * d;
      (x * c) * d - (q * l) * d;
      { assert (x * c) * d == x * (c * d); assert (q * l) * d == (q * d) * l; }
      x * (k * l + 1) - (q * d) * l;
      { assert x * (k * l + 1) == (x * k) * l + x; }
      (x * k) * l + x - (q * d) * l;
      (x * k - q * d) * l + x;
    }
  }

  // ---- mixing ---------------------------------------------------------------------------

  datatype State = State(h1: Word, h2: Word)

  const C1_INVERSE: Word := 0xA98409E882CE4D7D
  const C2_INVERSE: Word := 0xA81E14EDD9DE2C7F
  const F1_INVERSE: Word := 0x4F74430C22A54005
  const F2_INVERSE: Word := 0x9CB4B2F8129337DB
  const FIVE_INVERSE: Word := 0xCCCCCCCCCCCCCCCD

  lemma {:induction false} ConstantsInvert(x: Word)
    ensures Mul(Mul(x, C1), C1_INVERSE) == x && Mul(Mul(x, C2), C2_INVERSE) == x
    ensures Mul(Mul(x, F1), F1_INVERSE) == x && Mul(Mul(x, F2), F2_INVERSE) == x
    ensures Mul(Mul(x, 5), FIVE_INVERSE) == x
  {
    MulInverts(x, C1, C1_INVERSE, C1 * C1_INVERSE / 0x1_0000_0000_0000_0000);
    MulInverts(x, C2, C2_INVERSE, C2 * C2_INVERSE / 0x1_0000_0000_0000_0000);
    MulInverts(x, F1, F1_INVERSE, F1 * F1_INVERSE / 0x1_0000_0000_0000_0000);
    MulInverts(x, F2, F2_INVERSE, F2 * F2_INVERSE / 0x1_0000_0000_0000_0000);
    MulInverts(x, 5, FIVE_INVERSE, 5 * FIVE_INVERSE / 0x1_0000_0000_0000_0000);
  }

  function Mix1(k: Word): Word { Mul(Rotl(Mul(k, C1), 31), C2) }

  function Mix2(k: Word): Word { Mul(Rotl(Mul(k, C2), 33), C1) }

  function Unmix1(k: Word): Word { Mul(Rotl(Mul(k, C2_INVERSE), 33), C1_INVERSE) }

  function Unmix2(k: Word): Word { Mul(Rotl(Mul(k, C1_INVERSE), 31), C2_INVERSE) }

  lemma {:induction false} MixInverts(k: Word)
    ensures Unmix1(Mix1(k)) == k && Unmix2(Mix2(k)) == k
  {
    ConstantsInvert(Rotl(Mul(k, C1), 31));
    RotlInverts(Mul(k, C1), 31, 33);
    ConstantsInvert(Rotl(Mul(k, C2), 33));
    RotlInverts(Mul(k, C2), 33, 31);
    ConstantsInvert(k);
  }

  function XorShift(k: Word): Word {
    ShrBound(k, 33);
    XorWords(k, Shr(k, 33))
  }

  lemma {:induction false} ShrBound(k: nat, n: nat)
    ensures Shr(k, n) <= k
    decreases n
  {
    if n > 0 { ShrBound(k / 2, n - 1); }
  }

  /** Shifting by more than half the word makes the xor-shift its own inverse. */
  lemma {:induction false} XorShiftInverts(k: Word)
    ensures XorShift(XorShift(k)) == k
  {
    var high := Shr(k, 33);
    XorShifts(k, high, 33);
    ShrTwice(k, 33, 33);
    ShrTwice(k, 64, 2);
    WordIs64Bits();
    SmallShiftsOut(k, 64);
    assert Shr(high, 33) == 0;
    assert Xor(high, 0) == high;
    XorCancels(k, high);
  }

  function Fmix(k: Word): Word { XorShift(Mul(XorShift(Mul(XorShift(k), F1)), F2)) }

  function Unfmix(k: Word): Word { XorShift(Mul(XorShift(Mul(XorShift(k), F2_INVERSE)), F1_INVERSE)) }

  lemma {:induction false} FmixInverts(k: Word)
    ensures Unfmix(Fmix(k)) == k
  {
    var a := XorShift(k);
    var b := XorShift(Mul(a, F1));
    XorShiftInverts(Mul(b, F2));
    ConstantsInvert(b);
    XorShiftInverts(Mul(a, F1));
    ConstantsInvert(a);
    XorShiftInverts(k);
  }

  /** Half of a block step: fold a mixed key into one word, rotate, add the other, scale and shift. */
  function Stir(h: Word, mixed: Word, r: nat, other: Word, c: Word): Word
    requires r <= 64
  {
    Add(Mul(Add(Rotl(XorWords(h, mixed), r), other), 5), c)
  }

  function Unstir(g: Word, mixed: Word, r: nat, other: Word, c: Word): Word
    requires r <= 64
  {
    XorWords(Rotl(Sub(Mul(Sub(g, c), FIVE_INVERSE), other), 64 - r), mixed)
  }

  lemma {:induction false} StirInverts(h: Word, mixed: Word, r: nat, other: Word, c: Word)
    requires r <= 64
    ensures Unstir(Stir(h, mixed, r, other, c), mixed, r, other, c) == h
  {
    var x := XorWords(h, mixed);
    var y := Add(Rotl(x, r), other);
    AddInverts(Mul(y, 5), c);
    ConstantsInvert(y);
    AddInverts(Rotl(x, r), other);
    RotlInverts(x, r, 64 - r);
    XorCancels(h, mixed);
  }

  function Block(h: State, k1: Word, k2: Word): State {
    var h1 := Stir(h.h1, Mix1(k1), 27, h.h2, 0x52DCE729);
    State(h1, Stir(h.h2, Mix2(k2), 31, h1, 0x38495AB5))
  }

  /** A block step with known keys loses nothing of the state. */
  function Unblock(g: State, k1: Word, k2: Word): State {
    var h2 := Unstir(g.h2, Mix2(k2), 31, g.h1, 0x38495AB5);
    State(Unstir(g.h1, Mix1(k1), 27, h2, 0x52DCE729), h2)
  }

  lemma {:induction false} BlockInverts(h: State, k1: Word, k2: Word)
    ensures Unblock(Block(h, k1, k2), k1, k2) == h
  {
    var g := Block(h, k1, k2);
    StirInverts(h.h1, Mix1(k1), 27, h.h2, 0x52DCE729);
    StirInverts(h.h2, Mix2(k2), 31, g.h1, 0x38495AB5);
  }

  /** ... and a block step on a known state loses nothing of the keys. */
  lemma {:induction false} BlockSeparatesKeys(h: State, j1: Word, j2: Word, k1: Word, k2: Word)
    requires Block(h, j1, j2) == Block(h, k1, k2)
    ensures j1 == k1 && j2 == k2
  {
    var g := Block(h, j1, j2);
    StirSeparates(h.h1, Mix1(j1), Mix1(k1), 27, h.h2, 0x52DCE729);
    StirSeparates(h.h2, Mix2(j2), Mix2(k2), 31, g.h1, 0x38495AB5);
    MixSeparates(j1, k1);
    MixSeparates(j2, k2);
  }

  lemma {:induction false} StirSeparates(h: Word, a: Word, b: Word, r: nat, other: Word, c: Word)
    requires r <= 64 && Stir(h, a, r, other, c) == Stir(h, b, r, other, c)
    ensures a == b
  {
    XorCommutes(h, a);
    XorCommutes(h, b);
    StirInverts(a, h, r, other, c);
    StirInverts(b, h, r, other, c);
  }

  // ---- bytes ------------------------------------------------------------------------------

  function At(data: seq<Byte>, i: nat): Byte { if i < |data| then data[i] else 0 }

  /** The `n` bytes from `o` as a little-endian number, zero past the end of the data. */
  function Little(data: seq<Byte>, o: nat, n: nat): nat
    decreases n, o
  {
    if n == 0 then 0 else At(data, o) + 256 * Little(data, o + 1, n - 1)
  }

  lemma {:induction false} LittleBound(data: seq<Byte>, o: nat, n: nat)
    ensures Little(data, o, n) < Pow2(8 * n)
    decreases n
  {
    if n > 0 {
      LittleBound(data, o + 1, n - 1);
      PowersAdd(8, 8 * (n - 1));
      EightBits();
    }
  }

  lemma {:induction false} EightBits()
    ensures Pow2(8) == 256
  {
    PowersAdd(4, 4);
  }

  function WordAt(data: seq<Byte>, o: nat): Word {
    LittleBound(data, o, 8);
    WordIs64Bits();
    Little(data, o, 8)
  }

  /** A little-endian number determines its bytes. */
  lemma {:induction false} LittleSeparates(a: seq<Byte>, b: seq<Byte>, o: nat, n: nat, i: nat)
    requires Little(a, o, n) == Little(b, o, n) && o <= i < o + n
    ensures At(a, i) == At(b, i)
    decreases n
  {
    if i > o { LittleSeparates(a, b, o + 1, n - 1, i); }
  }

  lemma {:induction false} LittleAgrees(a: seq<Byte>, b: seq<Byte>, o: nat, n: nat)
    requires forall i :: o <= i < o + n ==> At(a, i) == At(b, i)
    ensures Little(a, o, n) == Little(b, o, n)
    decreases n
  {
    if n > 0 {
      assert At(a, o) == At(b, o);
      LittleAgrees(a, b, o + 1, n - 1);
    }
  }

  // ---- the hash ----------------------------------------------------------------------------

  function Fold(step: (State, nat) -> State, start: State, n: nat): State {
    if n == 0 then start else step(Fold(step, start, n - 1), n - 1)
  }

  /** The step of the data's `q`-th block. */
  function Step(data: seq<Byte>, h: State, q: nat): State { Block(h, WordAt(data, 16 * q), WordAt(data, 16 * q + 8)) }

  function Stepper(data: seq<Byte>): (State, nat) -> State { (h: State, q: nat) => Step(data, h, q) }

  /** The state after the first `n` whole blocks. */
  function Absorbed(data: seq<Byte>, seed: Word, n: nat): State {
    Fold(Stepper(data), State(seed, seed), n)
  }

  /** The tail is mixed in as two zero-padded words. */
  function WithTail(h: State, data: seq<Byte>): State {
    var o := 16 * (|data| / 16);
    WithKeys(h, WordAt(data, o), WordAt(data, o + 8))
  }

  function WithKeys(h: State, k1: Word, k2: Word): State { State(XorWords(h.h1, Mix1(k1)), XorWords(h.h2, Mix2(k2))) }

  function Cross(h: State): State {
    var h1 := Add(h.h1, h.h2);
    State(h1, Add(h.h2, h1))
  }

  function Uncross(g: State): State {
    var h2 := Sub(g.h2, g.h1);
    State(Sub(g.h1, h2), h2)
  }

  lemma {:induction false} CrossInverts(h: State)
    ensures Uncross(Cross(h)) == h
  {
    AddInverts(h.h2, Add(h.h1, h.h2));
    AddInverts(h.h1, h.h2);
  }

  function Measured(h: State, len: Word): State { State(XorWords(h.h1, len), XorWords(h.h2, len)) }

  function Finished(h: State, len: Word): State {
    var c := Cross(Measured(h, len));
    Cross(State(Fmix(c.h1), Fmix(c.h2)))
  }

  function Unfinished(g: State, len: Word): State {
    var f := Uncross(g);
    Measured(Uncross(State(Unfmix(f.h1), Unfmix(f.h2))), len)
  }

  lemma {:induction false} FinishInverts(h: State, len: Word)
    ensures Unfinished(Finished(h, len), len) == h
  {
    var m := Measured(h, len);
    var c := Cross(m);
    CrossInverts(State(Fmix(c.h1), Fmix(c.h2)));
    FmixInverts(c.h1);
    FmixInverts(c.h2);
    CrossInverts(m);
    XorCancels(h.h1, len);
    XorCancels(h.h2, len);
  }

  function Hash(data: seq<Byte>, seed: int): State {
    Finished(WithTail(Absorbed(data, Mask(seed), |data| / 16), data), Mask(|data|))
  }

  // ---- the hash as it is computed ---------------------------------------------------------------

  /** The fall-through switch on one half of the tail: bytes from the seventh down to position `j`. */
  function Gathered(tail: seq<Byte>, o: nat, j: nat): nat
    requires j <= 8
    decreases 8 - j
  {
    if j == 8 then 0 else
    var k := Gathered(tail, o, j + 1);
    if |tail| > o + j then Xor(k, Shl(tail[o + j], 8 * j)) else k
  }

  lemma {:induction false} LittlePastEnd(data: seq<Byte>, o: nat, n: nat)
    requires |data| <= o
    ensures Little(data, o, n) == 0
    decreases n
  {
    if n > 0 { LittlePastEnd(data, o + 1, n - 1); }
  }

  lemma {:induction false} ByteBelow(t: Byte, h: nat, j: nat)
    ensures t * Pow2(8 * j) < Pow2(8 * (j + 1))
    ensures h * Pow2(8 * (j + 1)) + t * Pow2(8 * j) == (t + 256 * h) * Pow2(8 * j)
  {
    EightBits();
    PowersAdd(8, 8 * j);
    var p := Pow2(8 * j);
    assert t * p <= 255 * p;
    assert h * (256 * p) == 256 * h * p;
  }

  lemma {:induction false} OneByteMore(h: nat, t: Byte, j: nat)
    ensures Xor(h * Pow2(8 * (j + 1)), Shl(t, 8 * j)) == (t + 256 * h) * Pow2(8 * j)
  {
    ByteBelow(t, h, j);
    ShlIs(t, 8 * j);
    DisjointBits(h, Shl(t, 8 * j), 8 * (j + 1));
  }

  lemma {:induction false} GatherOne(tail: seq<Byte>, o: nat, j: nat, h: nat)
    requires j < 8 && Gathered(tail, o, j + 1) == h * Pow2(8 * (j + 1)) && (|tail| <= o + j ==> h == 0)
    ensures Gathered(tail, o, j) == (At(tail, o + j) + 256 * h) * Pow2(8 * j)
  {
    if |tail| > o + j { OneByteMore(h, tail[o + j], j); }
  }

  /** The switch gathers the zero-padded little-endian word. */
  lemma {:induction false} SwitchIsZeroPadding(tail: seq<Byte>, o: nat, j: nat)
    requires j <= 8
    ensures Gathered(tail, o, j) == Little(tail, o + j, 8 - j) * Pow2(8 * j)
    decreases 8 - j
  {
    if j < 8 {
      SwitchIsZeroPadding(tail, o, j + 1);
      var h := Little(tail, o + j + 1, 7 - j);
      if |tail| <= o + j { LittlePastEnd(tail, o + j + 1, 7 - j); }
      GatherOne(tail, o, j, h);
    }
  }

  lemma {:induction false} SwitchIsWord(tail: seq<Byte>, o: nat, j: nat)
    requires j == 0
    ensures Gathered(tail, o, j) == WordAt(tail, o)
  {
    SwitchIsZeroPadding(tail, o, j);
  }

  method TailKey(tail: seq<Byte>, o: nat) returns (k: Word)
    ensures k == WordAt(tail, o)
  {
    var gathered, j := 0, 8;
    while j > 0
      invariant j <= 8 && gathered == Gathered(tail, o, j)
    {
      j := j - 1;
      if |tail| > o + j { gathered := Xor(gathered, Shl(tail[o + j], 8 * j)); }
    }
    SwitchIsWord(tail, o, j);
    k := gathered;
  }

  lemma {:induction false} MixZero()
    ensures Mix1(0) == 0 && Mix2(0) == 0
  {
    SmallShiftsOut(0, 31);
    SmallShiftsOut(0, 33);
    assert Mul(0, C1) == 0 && Mul(0, C2) == 0;
    assert Rotl(0, 31) == 0 && Rotl(0, 33) == 0;
  }

  lemma {:induction false} LowHalves(x: nat, n: nat)
    requires n > 0
    ensures Low(x, n) / 2 == Low(x / 2, n - 1) && Low(x, n) % 2 == x % 2
  {
    HalfOf(Low(x / 2, n - 1), x % 2);
  }

  lemma {:induction false} LowOfXor(a: nat, b: nat, n: nat)
    ensures Low(Xor(a, b), n) == Xor(Low(a, n), Low(b, n))
    decreases n
  {
    if n > 0 {
      LowOfXor(a / 2, b / 2, n - 1);
      XorHalves(a, b);
      LowHalves(a, n);
      LowHalves(b, n);
      LowHalves(Xor(a, b), n);
      XorHalves(Low(a, n), Low(b, n));
      SameHalves(Low(Xor(a, b), n), Xor(Low(a, n), Low(b, n)));
    }
  }

  lemma {:induction false} SameHalves(x: nat, y: nat)
    requires x / 2 == y / 2 && x % 2 == y % 2
    ensures x == y
  {
  }

  lemma {:induction false} LowIsMask(x: nat)
    ensures Low(x, 64) == Mask(x)
  {
    WordIs64Bits();
    HighAndLow(x, 64);
    MaskOf(Shr(x, 64), Low(x, 64));
  }

  lemma {:induction false} MaskedXor(a: nat, b: nat)
    ensures Mask(Xor(a, b)) == Xor(Mask(a), Mask(b))
  {
    LowOfXor(a, b, 64);
    LowIsMask(a);
    LowIsMask(b);
    LowIsMask(Xor(a, b));
  }

  lemma {:induction false} MaskedXorWord(a: Word, b: nat)
    ensures Mask(Xor(a, b)) == XorWords(a, Mask(b))
  {
    MaskedXor(a, b);
    assert Mask(a) == a;
  }

  lemma {:induction false} ShiftLittle(data: seq<Byte>, cut: nat, o: nat, n: nat)
    requires cut <= |data|
    ensures Little(data[cut..], o, n) == Little(data, cut + o, n)
    decreases n
  {
    if n > 0 { ShiftLittle(data, cut, o + 1, n - 1); }
  }

  method MixBlock(data: seq<Byte>, h: State, i: nat) returns (g: State)
    ensures g == Stepper(data)(h, i)
  {
    var o := i * 16;
    var h1, h2 := h.h1, h.h2;
    var k1, k2 := WordAt(data, o), WordAt(data, o + 8);
    k1 := Mul(k1, C1);
    k1 := Rotl(k1, 31);
    k1 := Mul(k1, C2);
    h1 := XorWords(h1, k1);
    h1 := Rotl(h1, 27);
    h1 := Add(h1, h2);
    h1 := Add(Mul(h1, 5), 0x52DCE729);
    k2 := Mul(k2, C2);
    k2 := Rotl(k2, 33);
    k2 := Mul(k2, C1);
    h2 := XorWords(h2, k2);
    h2 := Rotl(h2, 31);
    h2 := Add(h2, h1);
    h2 := Add(Mul(h2, 5), 0x38495AB5);
    g := State(h1, h2);
  }

  method MixBlocks(data: seq<Byte>, seed: Word) returns (s: State)
    ensures s == Absorbed(data, seed, |data| / 16)
  {
    s := State(seed, seed);
    for i := 0 to |data| / 16
      invariant s == Fold(Stepper(data), State(seed, seed), i)
    {
      s := MixBlock(data, s, i);
    }
  }

  lemma {:induction false} XorZero(h: Word)
    ensures XorWords(h, 0) == h
  {
  }

  /** A half with no bytes is skipped, which is what mixing a zero word does. */
  method MixTail(s: State, data: seq<Byte>) returns (t: State)
    ensures t == WithTail(s, data)
  {
    var cut := 16 * (|data| / 16);
    var tail := data[cut..];
    var n := |tail|;
    var k1 := TailKey(tail, 0);
    var k2 := TailKey(tail, 8);
    ShiftLittle(data, cut, 0, 8);
    ShiftLittle(data, cut, 8, 8);
    MixZero();
    var h1, h2 := s.h1, s.h2;
    if n >= 9 { h2 := XorWords(h2, Mix2(k2)); } else { LittlePastEnd(tail, 8, 8); XorZero(h2); }
    if n >= 1 { h1 := XorWords(h1, Mix1(k1)); } else { LittlePastEnd(tail, 0, 8); XorZero(h1); }
    t := State(h1, h2);
  }

  /** The length is folded in unmasked; the additions mask what it leaves. */
  method Measure(s: State, len: nat) returns (c: State)
    ensures c == Cross(Measured(s, Mask(len)))
  {
    var x1, x2 := Xor(s.h1, len), Xor(s.h2, len);
    var h1: Word := Mask(x1 + x2);
    var h2: Word := Mask(x2 + h1);
    MaskedCross(s, len);
    c := State(h1, h2);
  }

  method Fmix64(k: Word) returns (r: Word)
    ensures r == Fmix(k)
  {
    r := XorShift(k);
    r := Mul(r, F1);
    r := XorShift(r);
    r := Mul(r, F2);
    r := XorShift(r);
  }

  method Finalise(s: State, len: nat) returns (h: State)
    ensures h == Finished(s, Mask(len))
  {
    var c := Measure(s, len);
    var h1 := Fmix64(c.h1);
    var h2 := Fmix64(c.h2);
    h := Cross(State(h1, h2));
  }

  lemma {:induction false} MaskedCross(s: State, len: nat)
    ensures var x1, x2 := Xor(s.h1, len), Xor(s.h2, len);
            State(Mask(x1 + x2), Mask(x2 + Mask(x1 + x2))) == Cross(Measured(s, Mask(len)))
  {
    MaskedXorWord(s.h1, len);
    MaskedXorWord(s.h2, len);
    CrossMasks(Xor(s.h1, len), Xor(s.h2, len), Measured(s, Mask(len)));
  }

  lemma {:induction false} CrossMasks(x1: nat, x2: nat, m: State)
    requires Mask(x1) == m.h1 && Mask(x2) == m.h2
    ensures State(Mask(x1 + x2), Mask(x2 + Mask(x1 + x2))) == Cross(m)
  {
    MaskedSum(x1, x2);
    MaskedSum(x2, Mask(x1 + x2));
  }

  lemma {:induction false} MaskedSum(a: nat, b: nat)
    ensures Mask(a + b) == Add(Mask(a), Mask(b))
  {
    var l := 0x1_0000_0000_0000_0000;
    var p, q, x, y := a / l, b / l, Mask(a), Mask(b);
    assert a + b == (p + q) * l + (x + y);
    MaskSum(x, y);
    if x + y < l { MaskOf(p + q, x + y); } else { MaskOf(p + q + 1, x + y - l); }
  }

  method Murmur3x64x128(data: seq<Byte>, seed: int) returns (h: State)
    ensures h == Hash(data, seed)
  {
    var s := MixBlocks(data, Mask(seed));
    var t := MixTail(s, data);
    h := Finalise(t, |data|);
  }

  // ---- no collisions within one piece --------------------------------------------------------------

  /** The inputs agree outside the 16-byte piece `p`. */
  predicate AgreeOutside(a: seq<Byte>, b: seq<Byte>, p: nat) {
    |a| == |b| && forall i :: 0 <= i < |a| && i / 16 != p ==> a[i] == b[i]
  }

  lemma {:induction false} PieceAgrees(a: seq<Byte>, b: seq<Byte>, p: nat, q: nat)
    requires AgreeOutside(a, b, p) && q != p
    ensures WordAt(a, 16 * q) == WordAt(b, 16 * q) && WordAt(a, 16 * q + 8) == WordAt(b, 16 * q + 8)
  {
    forall i | 16 * q <= i < 16 * q + 16 ensures At(a, i) == At(b, i) { assert i / 16 == q; }
    LittleAgrees(a, b, 16 * q, 8);
    LittleAgrees(a, b, 16 * q + 8, 8);
  }

  lemma {:induction false} PieceDiffers(a: seq<Byte>, b: seq<Byte>, p: nat)
    requires AgreeOutside(a, b, p) && a != b
    ensures WordAt(a, 16 * p) != WordAt(b, 16 * p) || WordAt(a, 16 * p + 8) != WordAt(b, 16 * p + 8)
  {
    var i :| 0 <= i < |a| && a[i] != b[i];
    assert i / 16 == p;
    if WordAt(a, 16 * p) == WordAt(b, 16 * p) && WordAt(a, 16 * p + 8) == WordAt(b, 16 * p + 8) {
      if i < 16 * p + 8 { LittleSeparates(a, b, 16 * p, 8, i); } else { LittleSeparates(a, b, 16 * p + 8, 8, i); }
    }
  }

  lemma {:induction false} BlockKeepsDifference(g: State, h: State, k1: Word, k2: Word)
    requires g != h
    ensures Block(g, k1, k2) != Block(h, k1, k2)
  {
    BlockInverts(g, k1, k2);
    BlockInverts(h, k1, k2);
  }

  lemma {:induction false} BlockShowsKeys(h: State, j1: Word, j2: Word, k1: Word, k2: Word)
    requires j1 != k1 || j2 != k2
    ensures Block(h, j1, j2) != Block(h, k1, k2)
  {
    if Block(h, j1, j2) == Block(h, k1, k2) { BlockSeparatesKeys(h, j1, j2, k1, k2); }
  }

  lemma {:induction false} StepDiffers(a: seq<Byte>, b: seq<Byte>, g: State, h: State, p: nat, q: nat)
    requires AgreeOutside(a, b, p) && a != b && (g == h <==> q <= p)
    ensures Step(a, g, q) == Step(b, h, q) <==> q < p
  {
    if q == p {
      PieceDiffers(a, b, p);
      BlockShowsKeys(g, WordAt(a, 16 * q), WordAt(a, 16 * q + 8), WordAt(b, 16 * q), WordAt(b, 16 * q + 8));
    } else {
      PieceAgrees(a, b, p, q);
      if g != h { BlockKeepsDifference(g, h, WordAt(a, 16 * q), WordAt(a, 16 * q + 8)); }
    }
  }

  lemma {:induction false} FoldDiffers(f: (State, nat) -> State, g: (State, nat) -> State, start: State, p: nat, n: nat)
    requires forall x: State, y: State, q: nat {:trigger f(x, q), g(y, q)} :: (x == y <==> q <= p) ==> (f(x, q) == g(y, q) <==> q < p)
    ensures Fold(f, start, n) == Fold(g, start, n) <==> n <= p
    decreases n
  {
    if n > 0 { FoldDiffers(f, g, start, p, n - 1); }
  }

  /** Before the piece the states are equal; from it on they differ. */
  lemma {:induction false} AbsorbedDiffers(a: seq<Byte>, b: seq<Byte>, seed: Word, p: nat, n: nat)
    requires AgreeOutside(a, b, p) && a != b
    ensures Absorbed(a, seed, n) == Absorbed(b, seed, n) <==> n <= p
  {
    forall x: State, y: State, q: nat | x == y <==> q <= p ensures Step(a, x, q) == Step(b, y, q) <==> q < p {
      StepDiffers(a, b, x, y, p, q);
    }
    FoldDiffers(Stepper(a), Stepper(b), State(seed, seed), p, n);
  }

  lemma {:induction false} TailKeepsDifference(g: State, h: State, data: seq<Byte>)
    requires g != h
    ensures WithTail(g, data) != WithTail(h, data)
  {
    var o := 16 * (|data| / 16);
    KeysKeepDifference(g, h, WordAt(data, o), WordAt(data, o + 8));
  }

  lemma {:induction false} KeysKeepDifference(g: State, h: State, k1: Word, k2: Word)
    requires g != h
    ensures WithKeys(g, k1, k2) != WithKeys(h, k1, k2)
  {
    XorCancels(g.h1, Mix1(k1));
    XorCancels(h.h1, Mix1(k1));
    XorCancels(g.h2, Mix2(k2));
    XorCancels(h.h2, Mix2(k2));
  }

  lemma {:induction false} KeysShow(h: State, a1: Word, a2: Word, b1: Word, b2: Word)
    requires a1 != b1 || a2 != b2
    ensures WithKeys(h, a1, a2) != WithKeys(h, b1, b2)
  {
    XorSeparates(h.h1, Mix1(a1), Mix1(b1));
    XorSeparates(h.h2, Mix2(a2), Mix2(b2));
    MixSeparates(a1, b1);
    MixSeparates(a2, b2);
  }

  lemma {:induction false} TailShowsPiece(h: State, a: seq<Byte>, b: seq<Byte>)
    requires |a| == |b|
    requires var o := 16 * (|a| / 16); WordAt(a, o) != WordAt(b, o) || WordAt(a, o + 8) != WordAt(b, o + 8)
    ensures WithTail(h, a) != WithTail(h, b)
  {
    var o := 16 * (|a| / 16);
    KeysShow(h, WordAt(a, o), WordAt(a, o + 8), WordAt(b, o), WordAt(b, o + 8));
  }

  lemma {:induction false} MixSeparates(a: Word, b: Word)
    ensures Mix1(a) == Mix1(b) ==> a == b
    ensures Mix2(a) == Mix2(b) ==> a == b
  {
    MixInverts(a);
    MixInverts(b);
  }

  lemma {:induction false} TailAgrees(h: State, a: seq<Byte>, b: seq<Byte>, p: nat)
    requires AgreeOutside(a, b, p) && p != |a| / 16
    ensures WithTail(h, a) == WithTail(h, b)
  {
    PieceAgrees(a, b, p, |a| / 16);
  }

  lemma {:induction false} TailDiffers(g: State, h: State, a: seq<Byte>, b: seq<Byte>, p: nat)
    requires AgreeOutside(a, b, p) && a != b
    requires g == h <==> |a| / 16 <= p
    ensures WithTail(g, a) != WithTail(h, b)
  {
    if |a| / 16 <= p {
      TailPieceDiffers(a, b, p);
      TailShowsPiece(g, a, b);
    } else {
      TailAgrees(h, a, b, p);
      TailKeepsDifference(g, h, a);
    }
  }

  lemma {:induction false} TailPieceDiffers(a: seq<Byte>, b: seq<Byte>, p: nat)
    requires AgreeOutside(a, b, p) && a != b && |a| / 16 <= p
    ensures p == |a| / 16
    ensures WordAt(a, 16 * p) != WordAt(b, 16 * p) || WordAt(a, 16 * p + 8) != WordAt(b, 16 * p + 8)
  {
    var i :| 0 <= i < |a| && a[i] != b[i];
    assert i / 16 == p;
    PieceDiffers(a, b, p);
  }

  lemma {:induction false} XorSeparates(h: Word, a: Word, b: Word)
    ensures XorWords(h, a) == XorWords(h, b) ==> a == b
  {
    XorCommutes(h, a);
    XorCommutes(h, b);
    XorCancels(a, h);
    XorCancels(b, h);
  }

  /** Inputs of one length that differ only inside one 16-byte piece, full or partial, never collide. */
  lemma {:induction false} OnePieceNeverCollides(a: seq<Byte>, b: seq<Byte>, seed: int, p: nat)
    requires AgreeOutside(a, b, p) && a != b
    ensures Hash(a, seed) != Hash(b, seed)
  {
    var n := |a| / 16;
    var g, h := Absorbed(a, Mask(seed), n), Absorbed(b, Mask(seed), n);
    AbsorbedDiffers(a, b, Mask(seed), p, n);
    TailDiffers(g, h, a, b, p);
    FinishInverts(WithTail(g, a), Mask(|a|));
    FinishInverts(WithTail(h, b), Mask(|b|));
  }

  lemma {:induction false} FoldKeepsDifference(f: (State, nat) -> State, s: State, t: State, n: nat)
    requires s != t && forall x: State, y: State, q: nat {:trigger f(x, q), f(y, q)} :: x != y ==> f(x, q) != f(y, q)
    ensures Fold(f, s, n) != Fold(f, t, n)
    decreases n
  {
    if n > 0 { FoldKeepsDifference(f, s, t, n - 1); }
  }

  lemma {:induction false} AbsorbedKeepsSeed(data: seq<Byte>, s: Word, t: Word, n: nat)
    requires s != t
    ensures Absorbed(data, s, n) != Absorbed(data, t, n)
  {
    forall x: State, y: State, q: nat | x != y ensures Step(data, x, q) != Step(data, y, q) {
      BlockKeepsDifference(x, y, WordAt(data, 16 * q), WordAt(data, 16 * q + 8));
    }
    FoldKeepsDifference(Stepper(data), State(s, s), State(t, t), n);
  }

  /** One input under two seeds that differ as words never collides with itself. */
  lemma {:induction false} SeedsNeverCollide(data: seq<Byte>, s: int, t: int)
    requires Mask(s) != Mask(t)
    ensures Hash(data, s) != Hash(data, t)
  {
    var n := |data| / 16;
    AbsorbedKeepsSeed(data, Mask(s), Mask(t), n);
    var g, h := Absorbed(data, Mask(s), n), Absorbed(data, Mask(t), n);
    TailKeepsDifference(g, h, data);
    FinishInverts(WithTail(g, data), Mask(|data|));
    FinishInverts(WithTail(h, data), Mask(|data|));
  }
}

/** The 64-bit FNV-1a hash with a murmur3 finaliser. Words are integers below 2^64 and a Go
    string is a sequence of bytes. */
module Hash {
  import opened Numbers

  const MIX_SHIFT: nat := 33

  type Word = n: nat | n < TWO_64
  type Byte = n: nat | n < 256
  type Bytes = seq<Byte>

  const FNV_OFFSET: Word := 14695981039346656037
  const FNV_PRIME: Word := 1099511628211
  const MIX_PRIME_A: Word := 0xff51afd7ed558ccd
  const MIX_PRIME_B: Word := 0xc4ceb9fe1a85ec53

  // Inverses modulo 2^64 of the three odd multipliers.
  const FNV_PRIME_INVERSE: Word := 0xce965057aff6957b
  const MIX_PRIME_A_INVERSE: Word := 0x4f74430c22a54005
  const MIX_PRIME_B_INVERSE: Word := 0x9cb4b2f8129337db

  /** Bitwise exclusive or. */
  function Xor(a: nat, b: nat): nat
    decreases a + b
  {
    if a == 0 && b == 0 then 0 else (a + b) % 2 + 2 * Xor(a / 2, b / 2)
  }

  /** Multiplication that drops the bits above the word. */
  function Mul(a: Word, b: Word): Word {
    a * b % TWO_64
  }

  lemma {:induction false} XorBelow(a: nat, b: nat, bound: nat, bits: nat)
    requires bound == Pow2(bits) && a < bound && b < bound
    ensures Xor(a, b) < bound
    decreases bits
  {
    if bits > 0 && !(a == 0 && b == 0) {
      XorBelow(a / 2, b / 2, Pow2(bits - 1), bits - 1);
    }
  }

  lemma Sixteen()
    ensures Pow2(4) == 16 && Pow2(0) == 1
  {
  }

  lemma Doublings()
    ensures Pow2(33) == 2 * Pow2(32) && Pow2(32) == 2 * Pow2(31)
  {
  }

  lemma Pow2Values()
    ensures Pow2(64) == TWO_64 && Pow2(31) <= Pow2(MIX_SHIFT) && Pow2(0) == 1
  {
    Sixteen();
    Doublings();
    hide Pow2;
    Pow2Adds(4, 4);
    Pow2Adds(8, 8);
    Pow2Adds(16, 16);
    Pow2Adds(32, 32);
  }

  lemma XorIsWord(a: Word, b: Word)
    ensures Xor(a, b) < TWO_64
  {
    Pow2Values();
    XorBelow(a, b, TWO_64, 64);
  }

  /** The lowest bit and the rest. */
  lemma {:induction false} XorParts(a: nat, b: nat)
    ensures Xor(a, b) % 2 == (a + b) % 2
    ensures Xor(a, b) / 2 == Xor(a / 2, b / 2)
  {
    if a == 0 && b == 0 {
    } else {
      Halves(Xor(a, b), (a + b) % 2, Xor(a / 2, b / 2));
    }
  }

  lemma Halves(x: nat, bit: nat, rest: nat)
    requires bit < 2 && x == bit + 2 * rest
    ensures x % 2 == bit && x / 2 == rest
  {
  }

  lemma SameHalfAndBit(x: nat, y: nat)
    requires x / 2 == y / 2 && x % 2 == y % 2
    ensures x == y
  {
  }

  lemma {:induction false} XorCancels(a: nat, b: nat)
    ensures Xor(Xor(a, b), b) == a
    decreases a + b
  {
    if a == 0 && b == 0 {
    } else {
      XorCancels(a / 2, b / 2);
      CancelStep(a, b);
    }
  }

  lemma {:induction false} CancelStep(a: nat, b: nat)
    requires Xor(Xor(a / 2, b / 2), b / 2) == a / 2
    ensures Xor(Xor(a, b), b) == a
  {
    hide Xor;
    var x := Xor(a, b);
    XorParts(a, b);
    XorParts(x, b);
    SumParity(a, b, x);
    SameHalfAndBit(Xor(x, b), a);
  }

  lemma SumParity(a: nat, b: nat, x: nat)
    requires x % 2 == (a + b) % 2
    ensures (x + b) % 2 == a % 2
  {
  }

  lemma {:induction false} XorCommutes(a: nat, b: nat)
    ensures Xor(a, b) == Xor(b, a)
    decreases a + b
  {
    if a == 0 && b == 0 {
    } else {
      XorCommutes(a / 2, b / 2);
    }
  }

  lemma {:induction false} XorZero(a: nat)
    ensures Xor(a, 0) == a
  {
    if a > 0 {
      XorZero(a / 2);
    }
  }

  /** `x >> k` */
  function ShiftDown(x: nat, k: nat): nat {
    if k == 0 then x else ShiftDown(x / 2, k - 1)
  }

  lemma {:induction false} ShiftDownBelow(x: nat, k: nat, m: nat)
    requires x < Pow2(k + m)
    ensures ShiftDown(x, k) < Pow2(m)
  {
    if k > 0 {
      assert Pow2(k + m) == 2 * Pow2((k - 1) + m);
      ShiftDownBelow(x / 2, k - 1, m);
    }
  }

  /** Shifting right commutes with exclusive or. */
  lemma {:induction false} XorShiftedDown(a: nat, b: nat, k: nat)
    ensures ShiftDown(Xor(a, b), k) == Xor(ShiftDown(a, k), ShiftDown(b, k))
    decreases k
  {
    hide Xor;
    if k > 0 {
      XorParts(a, b);
      XorShiftedDown(a / 2, b / 2, k - 1);
    }
  }

  lemma {:induction false} ShiftDownShrinks(x: nat, k: nat)
    ensures ShiftDown(x, k) <= x
    decreases k
  {
    if k > 0 {
      ShiftDownShrinks(x / 2, k - 1);
    }
  }

  /** `h >> 33` leaves 31 bits, and shifting twice leaves none. */
  lemma HighPart(h: Word)
    ensures ShiftDown(h, MIX_SHIFT) < TWO_64
    ensures ShiftDown(ShiftDown(h, MIX_SHIFT), MIX_SHIFT) == 0
  {
    hide ShiftDown, Pow2;
    Pow2Values();
    ShiftDownShrinks(h, MIX_SHIFT);
    ShiftDownBelow(h, MIX_SHIFT, 31);
    ShiftDownBelow(ShiftDown(h, MIX_SHIFT), MIX_SHIFT, 0);
  }

  /** `h ^= h >> 33` */
  function XorShift(h: Word): (r: Word) {
    HighPart(h);
    XorIsWord(h, ShiftDown(h, MIX_SHIFT));
    Xor(h, ShiftDown(h, MIX_SHIFT))
  }

  lemma XorShiftIsItsOwnInverse(h: Word)
    ensures XorShift(XorShift(h)) == h
  {
    hide Xor, ShiftDown;
    var high := ShiftDown(h, MIX_SHIFT);
    HighPart(h);
    XorShiftedDown(h, high, MIX_SHIFT);
    XorZero(high);
    XorCancels(h, high);
  }

  /** Multiplying by a number that has an inverse modulo 2^64 loses nothing. */
  lemma MulInverse(h: Word, p: Word, q: Word)
    requires p * q % TWO_64 == 1
    ensures Mul(Mul(h, p), q) == h
  {
    var t := p * q / TWO_64;
    var k, r := h * p / TWO_64, Mul(h, p);
    assert p * q == TWO_64 * t + 1;
    assert r == h * p - TWO_64 * k;
    calc {
      r * q;
      (h * p - TWO_64 * k) * q;
      h * p * q - TWO_64 * k * q;
      h * (p * q) - TWO_64 * (k * q);
      h * (TWO_64 * t + 1) - TWO_64 * (k * q);
      TWO_64 * (h * t - k * q) + h;
    }
    SameResidue(r * q, h * t - k * q, h);
  }

  lemma SameResidue(x: nat, k: int, h: Word)
    requires x == TWO_64 * k + h
    ensures x % TWO_64 == h
  {
  }

  function Finalise(h: Word): Word {
    XorShift(Mul(XorShift(Mul(XorShift(h), MIX_PRIME_A)), MIX_PRIME_B))
  }

  function Unfinalise(h: Word): Word {
    XorShift(Mul(XorShift(Mul(XorShift(h), MIX_PRIME_B_INVERSE)), MIX_PRIME_A_INVERSE))
  }

  /** One mixing round, and its undoing. */
  lemma RoundIsInvertible(h: Word, p: Word, q: Word)
    requires p * q % TWO_64 == 1
    ensures Mul(XorShift(XorShift(Mul(h, p))), q) == h
  {
    XorShiftIsItsOwnInverse(Mul(h, p));
    MulInverse(h, p, q);
  }

  lemma MultipliersHaveInverses()
    ensures FNV_PRIME * FNV_PRIME_INVERSE % TWO_64 == 1
    ensures MIX_PRIME_A * MIX_PRIME_A_INVERSE % TWO_64 == 1 == MIX_PRIME_A_INVERSE * MIX_PRIME_A % TWO_64
    ensures MIX_PRIME_B * MIX_PRIME_B_INVERSE % TWO_64 == 1 == MIX_PRIME_B_INVERSE * MIX_PRIME_B % TWO_64
  {
  }

  lemma UnfinaliseUndoesFinalise(h: Word)
    ensures Unfinalise(Finalise(h)) == h
  {
    MultipliersHaveInverses();
    var a := XorShift(h);
    var b := XorShift(Mul(a, MIX_PRIME_A));
    assert Finalise(h) == XorShift(Mul(b, MIX_PRIME_B));
    RoundIsInvertible(b, MIX_PRIME_B, MIX_PRIME_B_INVERSE);
    RoundIsInvertible(a, MIX_PRIME_A, MIX_PRIME_A_INVERSE);
    XorShiftIsItsOwnInverse(h);
  }

  lemma FinaliseUndoesUnfinalise(h: Word)
    ensures Finalise(Unfinalise(h)) == h
  {
    MultipliersHaveInverses();
    var a := XorShift(h);
    var c := XorShift(Mul(a, MIX_PRIME_B_INVERSE));
    assert Unfinalise(h) == XorShift(Mul(c, MIX_PRIME_A_INVERSE));
    RoundIsInvertible(c, MIX_PRIME_A_INVERSE, MIX_PRIME_A);
    RoundIsInvertible(a, MIX_PRIME_B_INVERSE, MIX_PRIME_B);
    XorShiftIsItsOwnInverse(h);
  }

  /** The finaliser is a bijection on 64-bit words: `Unfinalise` undoes it on both sides. */
  lemma FinaliseIsABijection(h: Word)
    ensures Unfinalise(Finalise(h)) == h
    ensures Finalise(Unfinalise(h)) == h
  {
    UnfinaliseUndoesFinalise(h);
    FinaliseUndoesUnfinalise(h);
  }

  function Absorb(h: Word, b: Byte): Word {
    XorIsWord(h, b);
    Mul(Xor(h, b), FNV_PRIME)
  }

  /** The raw FNV state after reading a string from state `h`. */
  function Raw(h: Word, s: Bytes): Word
    decreases |s|
  {
    if s == [] then h else Raw(Absorb(h, s[0]), s[1..])
  }

  function Fnv64a(s: Bytes): Word {
    Finalise(Raw(FNV_OFFSET, s))
  }

  /** The hash loop over the bytes, then the three mixing rounds. */
  method Fnv64aLoop(s: Bytes) returns (h: Word)
    ensures h == Fnv64a(s)
  {
    h := FNV_OFFSET;
    for i := 0 to |s|
      invariant Raw(h, s[i..]) == Raw(FNV_OFFSET, s)
    {
      XorIsWord(h, s[i]);
      h := Xor(h, s[i]);
      h := Mul(h, FNV_PRIME);
      assert s[i..][1..] == s[i + 1..];
    }
    h := XorShift(h);
    h := Mul(h, MIX_PRIME_A);
    h := XorShift(h);
    h := Mul(h, MIX_PRIME_B);
    h := XorShift(h);
  }

  // ----- what the operations mean -----

  /** Shifting down divides by a power of two. */
  lemma {:induction false} ShiftDownDivides(x: nat, k: nat)
    ensures ShiftDown(x, k) == x / Pow2(k)
  {
    if k > 0 {
      ShiftDownDivides(x / 2, k - 1);
      DivideTwice(x, Pow2(k - 1));
    }
  }

  lemma DivideTwice(x: nat, p: nat)
    requires p > 0
    ensures x / 2 / p == x / (2 * p)
  {
    var h, r := x / 2, x % 2;
    var q, s := h / p, h % p;
    var rest := 2 * s + r;
    assert h == q * p + s && x == 2 * h + r;
    assert x == 2 * (q * p) + rest;
    Residue(x, q, rest, 2 * p);
  }

  /** Every bit of the exclusive or is set exactly if the bits of the operands differ. */
  lemma {:induction false} XorIsBitwise(a: nat, b: nat, k: nat)
    ensures ShiftDown(Xor(a, b), k) % 2 == 1 <==> ShiftDown(a, k) % 2 != ShiftDown(b, k) % 2
  {
    XorParts(a, b);
    if k == 0 {
      SumParity(a % 2, b % 2, Xor(a, b));
    } else {
      XorIsBitwise(a / 2, b / 2, k - 1);
    }
  }

  /** A byte is mixed in before the multiplication: the state becomes zero exactly if it was the byte. */
  lemma AbsorbingMeetsZero(h: Word, b: Byte)
    ensures Raw(h, [b]) == 0 <==> h == b
  {
    XorIsWord(h, b);
    assert [b][1..] == [];
    XorZero(b);
    XorCommutes(0, b);
    XorCancels(h, b);
    XorCancels(0, b);
    if Absorb(h, b) == 0 {
      MulIsInjective(Xor(h, b), 0);
    }
    assert Raw(h, [b]) == Raw(Absorb(h, b), []);
  }

  /** Two strings collide exactly when their raw FNV states do. */
  lemma CollisionsAreRawCollisions(s: Bytes, t: Bytes)
    ensures Fnv64a(s) == Fnv64a(t) <==> Raw(FNV_OFFSET, s) == Raw(FNV_OFFSET, t)
  {
    FinaliseIsABijection(Raw(FNV_OFFSET, s));
    FinaliseIsABijection(Raw(FNV_OFFSET, t));
  }

  lemma MulIsInjective(x: Word, y: Word)
    requires Mul(x, FNV_PRIME) == Mul(y, FNV_PRIME)
    ensures x == y
  {
    hide Mul;
    MultipliersHaveInverses();
    MulInverse(x, FNV_PRIME, FNV_PRIME_INVERSE);
    MulInverse(y, FNV_PRIME, FNV_PRIME_INVERSE);
  }

  lemma XorIsInjective(g: nat, h: nat, a: nat, b: nat)
    requires Xor(g, a) == Xor(h, b)
    ensures g == h <==> a == b
  {
    hide Xor;
    XorCancels(g, a);
    XorCancels(h, b);
    XorCommutes(g, a);
    XorCommutes(h, b);
    XorCancels(a, g);
    XorCancels(b, h);
  }

  lemma AbsorbIsInjective(g: Word, h: Word, a: Byte, b: Byte)
    requires Absorb(g, a) == Absorb(h, b)
    ensures g == h <==> a == b
  {
    hide Xor, Mul;
    XorIsWord(g, a);
    XorIsWord(h, b);
    MulIsInjective(Xor(g, a), Xor(h, b));
    XorIsInjective(g, h, a, b);
  }

  /** The same text read from different states leaves different states. */
  lemma {:induction false} RawIsInjectiveInState(g: Word, h: Word, s: Bytes)
    requires g != h
    ensures Raw(g, s) != Raw(h, s)
    decreases |s|
  {
    if s != [] {
      if Absorb(g, s[0]) == Absorb(h, s[0]) {
        AbsorbIsInjective(g, h, s[0], s[0]);
      }
      RawIsInjectiveInState(Absorb(g, s[0]), Absorb(h, s[0]), s[1..]);
    }
  }

  lemma {:induction false} RawOfConcat(h: Word, s: Bytes, t: Bytes)
    ensures Raw(h, s + t) == Raw(Raw(h, s), t)
    decreases |s|
  {
    if s == [] {
      assert s + t == t;
    } else {
      RawOfConcat(Absorb(h, s[0]), s[1..], t);
      assert (s + t)[1..] == s[1..] + t;
    }
  }

  /** Two strings of equal length that differ in exactly one byte never have the same hash. */
  lemma OneByteApartNeverCollide(s: Bytes, t: Bytes, i: nat)
    requires |s| == |t| && i < |s| && s[i] != t[i]
    requires forall j :: 0 <= j < |s| && j != i ==> s[j] == t[j]
    ensures Fnv64a(s) != Fnv64a(t)
  {
    var prefix, suffix := s[..i], s[i + 1..];
    assert s == prefix + ([s[i]] + suffix);
    assert t == prefix + ([t[i]] + suffix);
    var h := Raw(FNV_OFFSET, prefix);
    RawOfConcat(FNV_OFFSET, prefix, [s[i]] + suffix);
    RawOfConcat(FNV_OFFSET, prefix, [t[i]] + suffix);
    if Absorb(h, s[i]) == Absorb(h, t[i]) {
      AbsorbIsInjective(h, h, s[i], t[i]);
    }
    assert ([s[i]] + suffix)[1..] == suffix && ([t[i]] + suffix)[1..] == suffix;
    RawIsInjectiveInState(Absorb(h, s[i]), Absorb(h, t[i]), suffix);
    CollisionsAreRawCollisions(s, t);
  }

  /** So instance ids of equal length that differ in one digit never tie for a key. */
  lemma NeighbouringIdsNeverTie(key: Bytes, a: Bytes, b: Bytes, i: nat)
    requires |a| == |b| && i < |a| && a[i] != b[i]
    requires forall j :: 0 <= j < |a| && j != i ==> a[j] == b[j]
    ensures Fnv64a(key + a) != Fnv64a(key + b)
  {
    OneByteApartNeverCollide(key + a, key + b, |key| + i);
  }
}

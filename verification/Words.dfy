// Unsigned machine arithmetic as the queue code uses it: 64-bit indices that wrap, the bitwise
// AND of two unsigned values, powers of two, and ring slots.
module Words {

  const TWO_64: nat := 0x1_0000_0000_0000_0000

  // The value a uint64_t holds after computing x.
  function U64(x: int): (r: nat)
    ensures r < TWO_64
  {
    x % 0x1_0000_0000_0000_0000
  }

  // A 64-bit subtraction recovers the true distance whenever that distance fits in 64 bits,
  // however often either operand has wrapped.
  lemma DistanceSurvivesWrap(a: nat, b: nat, c: nat)
    requires b <= a + c < b + TWO_64
    ensures U64(U64(a) + c - U64(b)) == a + c - b
  {
    var qa, qb := a / 0x1_0000_0000_0000_0000, b / 0x1_0000_0000_0000_0000;
    assert U64(a) == a - qa * 0x1_0000_0000_0000_0000;
    assert U64(b) == b - qb * 0x1_0000_0000_0000_0000;
  }

  lemma U64Successor(x: nat)
    ensures U64(U64(x) + 1) == U64(x + 1)
  {
  }

  // Of two indices less than 2^64 apart, the stored 64-bit values keep the order exactly when no
  // multiple of 2^64 lies between them.
  lemma StoredOrder(a: nat, b: nat)
    requires a <= b < a + TWO_64
    ensures U64(a) <= U64(b) <==> a / 0x1_0000_0000_0000_0000 == b / 0x1_0000_0000_0000_0000
  {
    var qa, qb := a / 0x1_0000_0000_0000_0000, b / 0x1_0000_0000_0000_0000;
    assert U64(a) == a - qa * 0x1_0000_0000_0000_0000;
    assert U64(b) == b - qb * 0x1_0000_0000_0000_0000;
  }

  // C's & on unsigned operands, bit by bit.
  function BitAnd(a: nat, b: nat): nat
  {
    if a == 0 || b == 0 then 0
    else 2 * BitAnd(a / 2, b / 2) + (if a % 2 == 1 && b % 2 == 1 then 1 else 0)
  }

  function Pow2(k: nat): (r: nat)
    ensures r >= 1
  {
    if k == 0 then 1 else 2 * Pow2(k - 1)
  }

  ghost predicate PowerOfTwo(x: nat) {
    exists k: nat :: x == Pow2(k)
  }

  // The ring slot of index x. The definition subtracts whole turns; WrapIsModulo and
  // MaskedSlotIsWrap relate it to the two computations in the source.
  function Wrap(size: nat, x: nat): (r: nat)
    requires size >= 1
    ensures r < size && r <= x
    decreases x
  {
    if x < size then x else Wrap(size, x - size)
  }

  lemma {:induction false} WrapIsModulo(size: nat, x: nat)
    requires size >= 1
    ensures Wrap(size, x) == x % size
    decreases x
  {
    if x >= size {
      WrapIsModulo(size, x - size);
      OneTurnLess(size, x);
    }
  }

  lemma OneTurnLess(size: nat, x: nat)
    requires size >= 1 && x >= size
    ensures x % size == (x - size) % size
  {
    var q, r := (x - size) / size, (x - size) % size;
    assert x - size == size * q + r;
    assert size * (q + 1) == size * q + size;
    QuotientUnique(size, x, q + 1, r);
  }

  lemma QuotientUnique(size: nat, x: nat, q: nat, r: nat)
    requires size >= 1 && r < size && x == size * q + r
    ensures x % size == r
  {
    var q', r' := x / size, x % size;
    assert x == size * q' + r';
    assert size * (q - q') == r' - r;
    if q != q' { SmallMultiple(size, q - q'); }
  }

  lemma {:induction false} SmallMultiple(size: nat, d: int)
    requires size >= 1 && d != 0
    ensures size * d >= size || size * d + size <= 0
    ensures d > 0 <==> size * d > 0
    decreases if d > 0 then d else -d
  {
    if d > 1 {
      SmallMultiple(size, d - 1);
      assert size * d == size * (d - 1) + size;
    } else if d < -1 {
      SmallMultiple(size, d + 1);
      assert size * d == size * (d + 1) - size;
    }
  }

  // Two different indices less than one turn apart never share a slot.
  lemma {:induction false} WrapDistinct(size: nat, a: nat, b: nat)
    requires 1 <= size && a < b < a + size
    ensures Wrap(size, a) != Wrap(size, b)
    decreases a
  {
    if a >= size {
      WrapDistinct(size, a - size, b - size);
    } else if b >= size {
      assert Wrap(size, b) == Wrap(size, b - size) == b - size;
    }
  }

  lemma WindowDistinct(size: nat, lo: nat, w: nat)
    requires 1 <= size && lo <= w < lo + size
    ensures forall j: nat :: lo <= j < lo + size && j != w ==> Wrap(size, j) != Wrap(size, w)
  {
    forall j: nat | lo <= j < lo + size && j != w
      ensures Wrap(size, j) != Wrap(size, w)
    {
      if j < w { WrapDistinct(size, j, w); } else { WrapDistinct(size, w, j); }
    }
  }

  // Every slot is the slot of some index in any window of one turn.
  lemma {:induction false} SlotHasIndex(size: nat, lo: nat, k: nat) returns (j: nat)
    requires k < size
    ensures lo <= j < lo + size && Wrap(size, j) == k
    decreases lo
  {
    if lo == 0 {
      j := k;
    } else {
      j := SlotHasIndex(size, lo - 1, k);
      if j == lo - 1 { j := j + size; }
    }
  }

  // Offsets inside a turn that starts at slot 0.
  lemma {:induction false} WrapOffset(size: nat, x: nat, i: nat)
    requires size >= 1 && Wrap(size, x) == 0
    ensures i < size ==> Wrap(size, x + i) == i
    ensures Wrap(size, x + size) == 0
    decreases x
  {
    if x >= size { WrapOffset(size, x - size, i); }
  }

  lemma {:induction false} WrapHalves(m: nat, x: nat)
    requires m >= 1
    ensures Wrap(2 * m, x) == 2 * Wrap(m, x / 2) + x % 2
    decreases x
  {
    if x >= 2 * m {
      WrapHalves(m, x - 2 * m);
      assert (x - 2 * m) / 2 == x / 2 - m;
    }
  }

  lemma {:induction false} MaskIsWrap(k: nat, x: nat)
    ensures BitAnd(x, Pow2(k) - 1) == Wrap(Pow2(k), x)
  {
    if k == 0 {
      WrapOne(x);
    } else {
      MaskIsWrap(k - 1, x / 2);
      WrapHalves(Pow2(k - 1), x);
      if x != 0 {
        assert (Pow2(k) - 1) / 2 == Pow2(k - 1) - 1;
      }
    }
  }

  lemma {:induction false} WrapOne(x: nat)
    ensures Wrap(1, x) == 0
  {
    if x >= 1 { WrapOne(x - 1); }
  }

  lemma {:induction false} WrapWholeTurns(k: nat, e: nat, x: nat)
    requires k <= e
    ensures Wrap(Pow2(k), x + Pow2(e)) == Wrap(Pow2(k), x)
    decreases e
  {
    if k < e {
      WrapWholeTurns(k, e - 1, x);
      WrapWholeTurns(k, e - 1, x + Pow2(e - 1));
    }
  }

  lemma {:induction false} Pow2Grows(a: nat, b: nat)
    requires a <= b
    ensures Pow2(a) <= Pow2(b)
  {
    if a < b { Pow2Grows(a, b - 1); }
  }

  lemma Pow2PlusFour(k: nat)
    ensures Pow2(k + 4) == 16 * Pow2(k)
  {
    assert Pow2(k + 2) == 4 * Pow2(k);
    assert Pow2(k + 4) == 4 * Pow2(k + 2);
  }

  lemma WordSizes()
    ensures Pow2(32) == 0x1_0000_0000
    ensures Pow2(64) == TWO_64
  {
    Pow2PlusFour(0); Pow2PlusFour(4); Pow2PlusFour(8); Pow2PlusFour(12);
    Pow2PlusFour(16); Pow2PlusFour(20); Pow2PlusFour(24); Pow2PlusFour(28);
    Pow2PlusFour(32); Pow2PlusFour(36); Pow2PlusFour(40); Pow2PlusFour(44);
    Pow2PlusFour(48); Pow2PlusFour(52); Pow2PlusFour(56); Pow2PlusFour(60);
  }

  lemma ExponentBound(k: nat)
    requires Pow2(k) < 0x1_0000_0000
    ensures k < 32
  {
    WordSizes();
    if k >= 32 { Pow2Grows(32, k); }
  }

  lemma WrapAcrossWord(size: nat, x: nat)
    requires PowerOfTwo(size) && size < 0x1_0000_0000
    ensures Wrap(size, x + TWO_64) == Wrap(size, x)
  {
    var k: nat :| size == Pow2(k);
    ExponentBound(k);
    WordSizes();
    WrapWholeTurns(k, 64, x);
  }

  lemma U64Small(w: nat)
    requires w < TWO_64
    ensures U64(w) == w
  {
  }

  lemma U64Period(w: nat)
    requires w >= TWO_64
    ensures U64(w) == U64(w - TWO_64)
  {
  }

  // A power-of-two 32-bit size divides 2^64, so the slot sequence stays consecutive when the
  // 64-bit index wraps.
  lemma {:induction false} WrapOfWrapped(size: nat, w: nat)
    requires PowerOfTwo(size) && size < 0x1_0000_0000
    ensures Wrap(size, U64(w)) == Wrap(size, w)
    decreases w
  {
    hide Wrap, PowerOfTwo, U64, Pow2;
    if w >= TWO_64 {
      WrapOfWrapped(size, w - TWO_64);
      U64Period(w);
      WrapAcrossWord(size, w - TWO_64);
    } else {
      U64Small(w);
    }
  }

  // The masked slot of the enqueue functions and the modulo slot of the dispatch function are
  // the same slot, for every index and every number of 64-bit wraps.
  lemma MaskedSlotIsWrap(size: nat, w: nat)
    requires PowerOfTwo(size) && size < 0x1_0000_0000
    ensures BitAnd(U64(w), size - 1) == Wrap(size, w)
  {
    var k: nat :| size == Pow2(k);
    MaskIsWrap(k, U64(w));
    WrapOfWrapped(size, w);
  }

  lemma ModuloSlotIsWrap(size: nat, w: nat)
    requires PowerOfTwo(size) && size < 0x1_0000_0000
    ensures U64(w) % size == Wrap(size, w)
  {
    WrapOfWrapped(size, w);
    WrapIsModulo(size, U64(w));
  }

  // The unmasked slot agrees with the masked one exactly while the 64-bit index is in the first
  // turn: for every index below the ring size, and again just after each wrap.
  lemma UnmaskedSlotAgrees(size: nat, w: nat)
    requires PowerOfTwo(size) && size < 0x1_0000_0000
    ensures BitAnd(U64(w), size - 1) == U64(w) <==> U64(w) < size
  {
    hide U64, BitAnd;
    MaskedSlotIsWrap(size, w);
    WrapOfWrapped(size, w);
  }

  // agent_utils' test: nonzero and no bit in common with the predecessor.
  predicate IsPowerOfTwo(x: nat) {
    x != 0 && BitAnd(x, x - 1) == 0
  }

  lemma {:induction false} BitAndSelf(x: nat)
    ensures BitAnd(x, x) == x
  {
    if x != 0 { BitAndSelf(x / 2); }
  }

  lemma {:induction false} BitTrickIsPowerOfTwo(x: nat)
    ensures IsPowerOfTwo(x) <==> PowerOfTwo(x)
  {
    if x == 0 {
    } else if x == 1 {
      assert Pow2(0) == 1;
    } else if x % 2 == 1 {
      BitAndSelf(x / 2);
      assert (x - 1) / 2 == x / 2;
      OddPower(x);
    } else {
      BitTrickIsPowerOfTwo(x / 2);
      assert (x - 1) / 2 == x / 2 - 1;
      HalvePower(x);
    }
  }

  lemma OddPower(x: nat)
    requires x % 2 == 1 && x > 1
    ensures !PowerOfTwo(x)
  {
    forall k: nat
      ensures x != Pow2(k)
    {
      assert k > 0 ==> Pow2(k) == 2 * Pow2(k - 1);
    }
  }

  lemma HalvePower(x: nat)
    requires x % 2 == 0 && x > 1
    ensures PowerOfTwo(x / 2) <==> PowerOfTwo(x)
  {
    if PowerOfTwo(x) {
      var k: nat :| x == Pow2(k);
      assert x / 2 == Pow2(k - 1);
    }
    if PowerOfTwo(x / 2) {
      var k: nat :| x / 2 == Pow2(k);
      assert x == Pow2(k + 1);
    }
  }

  // test_helper_func's test: shift out zero bits, then compare with one.
  method IsPowerOfTwoLocal(x: nat) returns (r: bool)
    ensures r <==> PowerOfTwo(x)
    ensures r <==> IsPowerOfTwo(x)
  {
    var y: nat := x;
    while y % 2 == 0 && y > 1
      invariant PowerOfTwo(y) <==> PowerOfTwo(x)
    {
      HalvePower(y);
      y := y / 2;
    }
    r := y == 1;
    BitTrickIsPowerOfTwo(x);
    BitTrickIsPowerOfTwo(y);
    if y == 1 {
      assert Pow2(0) == 1;
    } else if y > 1 {
      OddPower(y);
    }
  }
}

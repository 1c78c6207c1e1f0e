/** The 64-bit occupancy map of a timer wheel: a word, read and changed bit by bit. */
module Bitmap {
  const SLOTS: nat := 64

  function Pow2(n: nat): (r: nat)
    ensures r >= 1
  {
    if n == 0 then 1 else 2 * Pow2(n - 1)
  }

  /** `m & (1 << i)` is not zero. */
  predicate Bit(m: nat, i: nat) { if i == 0 then m % 2 == 1 else Bit(m / 2, i - 1) }

  /** `m | (1 << i)`. */
  function SetBit(m: nat, i: nat): nat {
    if i == 0 then 2 * (m / 2) + 1 else 2 * SetBit(m / 2, i - 1) + m % 2
  }

  /** `m & ~(1 << i)`. */
  function ClearBit(m: nat, i: nat): nat {
    if i == 0 then 2 * (m / 2) else 2 * ClearBit(m / 2, i - 1) + m % 2
  }

  /** `m >> n`. */
  function Drop(m: nat, n: nat): nat { if n == 0 then m else Drop(m / 2, n - 1) }

  lemma {:induction false} SetBitAt(m: nat, i: nat, j: nat)
    ensures Bit(SetBit(m, i), j) <==> i == j || Bit(m, j)
  {
    if i > 0 && j > 0 { SetBitAt(m / 2, i - 1, j - 1); }
  }

  lemma {:induction false} ClearBitAt(m: nat, i: nat, j: nat)
    ensures Bit(ClearBit(m, i), j) <==> i != j && Bit(m, j)
  {
    if i > 0 && j > 0 { ClearBitAt(m / 2, i - 1, j - 1); }
  }

  lemma {:induction false} DropAt(m: nat, n: nat, j: nat)
    ensures Bit(Drop(m, n), j) <==> Bit(m, n + j)
  {
    if n > 0 { DropAt(m / 2, n - 1, j); }
  }

  /** The operations stay within a word. */
  lemma {:induction false} SetBitFits(m: nat, i: nat, n: nat)
    requires m < Pow2(n) && i < n
    ensures SetBit(m, i) < Pow2(n)
  {
    var half := m / 2;
    assert Pow2(n) == 2 * Pow2(n - 1);
    assert half < Pow2(n - 1) && m == 2 * half + m % 2;
    if i > 0 { SetBitFits(half, i - 1, n - 1); }
  }

  lemma {:induction false} ClearBitFits(m: nat, i: nat)
    ensures ClearBit(m, i) <= m
  {
    if i > 0 { ClearBitFits(m / 2, i - 1); }
  }

  lemma {:induction false} DropFits(m: nat, n: nat)
    ensures Drop(m, n) <= m
  {
    if n > 0 { DropFits(m / 2, n - 1); }
  }

  lemma {:induction false} HighBitsClear(m: nat, n: nat, i: nat)
    requires m < Pow2(n) && n <= i
    ensures !Bit(m, i)
  {
    if n > 0 { HighBitsClear(m / 2, n - 1, i - 1); }
    else if i > 0 { HighBitsClear(m / 2, 0, i - 1); }
  }

  lemma {:induction false} NoBits(m: nat, n: nat)
    requires m < Pow2(n) && forall i :: 0 <= i < n ==> !Bit(m, i)
    ensures m == 0
  {
    if n > 0 {
      forall i | 0 <= i < n - 1 ensures !Bit(m / 2, i) { assert !Bit(m, i + 1); }
      NoBits(m / 2, n - 1);
      assert !Bit(m, 0);
    }
  }

  lemma {:induction false} ZeroBit(i: nat)
    ensures !Bit(0, i)
  {
    if i > 0 { ZeroBit(i - 1); }
  }

  lemma OneBit(i: nat)
    ensures Bit(1, i) <==> i == 0
  {
    if i > 0 { ZeroBit(i - 1); }
  }

  predicate NoneSet(m: nat) { forall i :: 0 <= i < SLOTS ==> !Bit(m, i) }

  /** A word is zero exactly when no bit is set. */
  lemma ZeroMap(m: nat)
    requires m < Pow2(SLOTS)
    ensures m == 0 <==> NoneSet(m)
  {
    if m == 0 {
      forall i | 0 <= i < SLOTS ensures !Bit(m, i) { ZeroBit(i); }
    } else if NoneSet(m) {
      NoBits(m, SLOTS);
    }
  }

  /** countr_zero of a map that is not zero. */
  method FirstBit(m: nat) returns (i: nat)
    requires 0 < m < Pow2(SLOTS)
    ensures i < SLOTS && Bit(m, i) && forall j :: 0 <= j < i ==> !Bit(m, j)
  {
    i := 0;
    ZeroMap(m);
    while !Bit(m, i)
      invariant i < SLOTS && forall j :: 0 <= j < i ==> !Bit(m, j)
      decreases SLOTS - i
    {
      i := i + 1;
    }
  }
}

/** Offsets, slots and the log of executed tasks: the arithmetic of a timer wheel. */
module TimerItems {
  import opened Bitmap

  /** A task with its distance, in milliseconds, from the wheel's position. */
  datatype Item = Item(offset: nat, task: nat)

  function Pow64(n: nat): (r: nat)
    ensures r >= 1
  {
    if n == 0 then 1 else 64 * Pow64(n - 1)
  }

  /** `x >> k` on an unsigned word. */
  function Shr(x: nat, k: nat): nat { if k == 0 then x else Shr(x / 2, k - 1) }

  /** `x & ((1 << k) - 1)`. */
  function LowBits(x: nat, k: nat): nat { if k == 0 then 0 else 2 * LowBits(x / 2, k - 1) + x % 2 }

  lemma TwiceProduct(a: nat, b: nat)
    ensures a * (2 * b) == 2 * (a * b)
  {
  }

  lemma {:induction false} ShrSplit(x: nat, k: nat)
    ensures x == Shr(x, k) * Pow2(k) + LowBits(x, k) && LowBits(x, k) < Pow2(k)
  {
    if k > 0 {
      ShrSplit(x / 2, k - 1);
      TwiceProduct(Shr(x / 2, k - 1), Pow2(k - 1));
    }
  }

  lemma {:induction false} Pow64IsPow2(n: nat)
    ensures Pow2(6 * n) == Pow64(n)
  {
    if n > 0 {
      Pow64IsPow2(n - 1);
      var k := 6 * (n - 1);
      assert Pow2(k + 6) == 2 * Pow2(k + 5) == 4 * Pow2(k + 4) == 8 * Pow2(k + 3);
      assert Pow2(k + 3) == 2 * Pow2(k + 2) == 4 * Pow2(k + 1) == 8 * Pow2(k);
    }
  }

  lemma MulApart(e: int, d: nat)
    ensures e >= 1 ==> e * d >= d
    ensures e <= -1 ==> e * d + d <= 0
  {
  }

  lemma DivModUnique(x: nat, d: nat, q: nat, r: nat)
    requires d > 0 && x == q * d + r && r < d
    ensures x / d == q && x % d == r
  {
    var e := q - x / d;
    assert x == (x / d) * d + x % d;
    assert e * d == x % d - r;
    MulApart(e, d);
  }

  /** Shifting and masking by a wheel's constants is division by 64^level with remainder. */
  lemma ShiftMaskIsDivMod(x: nat, level: nat)
    ensures Shr(x, 6 * level) == x / Pow64(level) && LowBits(x, 6 * level) == x % Pow64(level)
  {
    ShrSplit(x, 6 * level);
    Pow64IsPow2(level);
    DivModUnique(x, Pow64(level), Shr(x, 6 * level), LowBits(x, 6 * level));
  }

  /** Where slot `i` starts: `i << shift`. */
  function At(i: nat, width: nat): nat { if i == 0 then 0 else At(i - 1, width) + width }

  lemma {:induction false} AtIsProduct(i: nat, width: nat)
    ensures At(i, width) == i * width
  {
    if i > 0 {
      AtIsProduct(i - 1, width);
      assert i * width == (i - 1) * width + width;
    }
  }

  lemma {:induction false} AtMono(i: nat, j: nat, width: nat)
    requires i <= j
    ensures At(i, width) <= At(j, width)
    decreases j
  {
    if i < j { AtMono(i, j - 1, width); }
  }

  /** The slot that an offset falls in, and its distance from where that slot starts. */
  function Slot(o: nat, width: nat): nat
    requires width >= 1
  {
    if o < width then 0 else 1 + Slot(o - width, width)
  }

  function Into(o: nat, width: nat): (r: nat)
    requires width >= 1
    ensures r < width
  {
    if o < width then o else Into(o - width, width)
  }

  lemma {:induction false} Locate(o: nat, width: nat)
    requires width >= 1
    ensures o == At(Slot(o, width), width) + Into(o, width)
  {
    if o >= width { Locate(o - width, width); }
  }

  lemma {:induction false} LocateUnique(i: nat, q: nat, width: nat)
    requires q < width
    ensures Slot(At(i, width) + q, width) == i && Into(At(i, width) + q, width) == q
  {
    if i > 0 { LocateUnique(i - 1, q, width); }
  }

  /** An offset lies before the start of slot `k` exactly when its own slot does. */
  lemma SlotBefore(o: nat, k: nat, width: nat)
    requires width >= 1
    ensures o < At(k, width) <==> Slot(o, width) < k
  {
    Locate(o, width);
    if Slot(o, width) < k { AtMono(Slot(o, width) + 1, k, width); } else { AtMono(k, Slot(o, width), width); }
  }

  /** Shifting and masking finds the slot and the distance. */
  lemma ShiftMaskLocates(x: nat, level: nat)
    ensures Shr(x, 6 * level) == Slot(x, Pow64(level)) && LowBits(x, 6 * level) == Into(x, Pow64(level))
  {
    var d := Pow64(level);
    Locate(x, d);
    AtIsProduct(Slot(x, d), d);
    DivModUnique(x, d, Slot(x, d), Into(x, d));
    ShiftMaskIsDivMod(x, level);
  }

  // The log of the tasks that a wheel executes.

  /** The same tasks, `d` later. */
  function Later(l: seq<Item>, d: nat): (r: seq<Item>)
    ensures |r| == |l| && forall i :: 0 <= i < |l| ==> r[i] == Item(l[i].offset + d, l[i].task)
  {
    seq(|l|, i requires 0 <= i < |l| => Item(l[i].offset + d, l[i].task))
  }

  predicate Sorted(l: seq<Item>) {
    forall i, j :: 0 <= i < j < |l| ==> l[i].offset <= l[j].offset
  }

  predicate Below(l: seq<Item>, hi: nat) { forall i :: 0 <= i < |l| ==> l[i].offset < hi }

  function Tasks(l: seq<Item>): (r: seq<nat>)
    ensures |r| == |l| && forall i :: 0 <= i < |l| ==> r[i] == l[i].task
  {
    seq(|l|, i requires 0 <= i < |l| => l[i].task)
  }

  /** How often task `t` is in the log at offset `o`. */
  function Times(l: seq<Item>, o: nat, t: nat): nat {
    if l == [] then 0 else (if l[0] == Item(o, t) then 1 else 0) + Times(l[1..], o, t)
  }

  lemma {:induction false} TimesAppend(a: seq<Item>, b: seq<Item>, o: nat, t: nat)
    ensures Times(a + b, o, t) == Times(a, o, t) + Times(b, o, t)
  {
    if a == [] {
      assert a + b == b;
    } else {
      assert (a + b)[1..] == a[1..] + b;
      TimesAppend(a[1..], b, o, t);
    }
  }

  lemma {:induction false} TimesLater(l: seq<Item>, d: nat, o: nat, t: nat)
    ensures Times(Later(l, d), o, t) == if o < d then 0 else Times(l, o - d, t)
  {
    if l != [] {
      assert Later(l, d)[1..] == Later(l[1..], d);
      TimesLater(l[1..], d, o, t);
    }
  }

  lemma {:induction false} TimesMultiset(l: seq<Item>, o: nat, t: nat)
    ensures Times(l, o, t) == multiset(l)[Item(o, t)]
  {
    if l != [] {
      assert l == [l[0]] + l[1..];
      TimesMultiset(l[1..], o, t);
    }
  }

  lemma SortedJoin(a: seq<Item>, b: seq<Item>, d: nat)
    requires Sorted(a) && Below(a, d) && Sorted(b)
    ensures Sorted(a + Later(b, d))
  {
  }
}

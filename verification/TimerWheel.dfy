/**
 * The hierarchical timer wheel.  Every child is owned by one parent pointer, so a wheel is a
 * value; the operations that change it take the wheel and give it back changed.
 */
module TimerWheel {
  import opened Prelude
  import opened Bitmap
  import opened TimerItems

  /** The highest level; its span is 64^7 ms. */
  const MAX_LEVEL: nat := 6

  /**
   * A leaf slot is the chain of the tasks of one millisecond, newest first.  An inner slot is
   * a child, created when it is first needed.
   */
  datatype Wheel =
    | Leaf(slotMap: nat, tasks: seq<seq<nat>>)
    | Inner(level: nat, slotMap: nat, kids: seq<Option<Wheel>>)

  function Level(w: Wheel): nat { if w.Leaf? then 0 else w.level }

  /** The milliseconds that one slot stands for. */
  function Width(w: Wheel): (r: nat)
    ensures r >= 1
  {
    Pow64(Level(w))
  }

  function Span(w: Wheel): nat { SLOTS * Width(w) }

  /** Sizes, levels, and bit i of the map set exactly when slot i is occupied. */
  predicate Valid(w: Wheel) {
    && w.slotMap < Pow2(SLOTS)
    && match w
       case Leaf(m, tasks) =>
         |tasks| == SLOTS && forall i :: 0 <= i < SLOTS ==> (Bit(m, i) <==> tasks[i] != [])
       case Inner(level, m, kids) =>
         && level >= 1 && |kids| == SLOTS
         && (forall i :: 0 <= i < SLOTS ==> (Bit(m, i) <==> kids[i].Some?))
         && (forall i :: 0 <= i < SLOTS && kids[i].Some? ==>
               Level(kids[i].value) == level - 1 && Valid(kids[i].value))
  }

  /**
   * No child is empty; with `first`, except along the chain of first slots: a wheel is raised by one level by
   * putting it, empty or not, into slot 0 of a new one.
   */
  predicate Tidy(w: Wheel, first: bool)
    requires Valid(w)
  {
    w.Inner? ==>
      forall i :: 0 <= i < SLOTS && w.kids[i].Some? ==>
        Tidy(w.kids[i].value, first && i == 0) && ((first && i == 0) || w.kids[i].value.slotMap != 0)
  }

  /** What an operation does to a wheel leaves it as tidy as it was. */
  ghost predicate StaysTidy(w: Wheel, t: Wheel)
    requires Valid(w) && Valid(t)
  {
    forall first: bool :: Tidy(w, first) ==> Tidy(t, first)
  }

  lemma {:induction false} TidyAnyway(w: Wheel)
    requires Valid(w) && Tidy(w, false)
    ensures Tidy(w, true)
  {
    if w.Inner? && w.kids[0].Some? { TidyAnyway(w.kids[0].value); }
  }

  /** A map with an occupied slot is not zero. */
  lemma OccupiedMap(w: Wheel, i: nat)
    requires Valid(w) && i < SLOTS && if w.Leaf? then w.tasks[i] != [] else w.kids[i].Some?
    ensures w.slotMap != 0
  {
    ZeroMap(w.slotMap);
    assert Bit(w.slotMap, i);
  }

  function Occurs(l: seq<nat>, t: nat): nat {
    if l == [] then 0 else (if l[0] == t then 1 else 0) + Occurs(l[1..], t)
  }

  lemma {:induction false} OccursAppend(a: seq<nat>, b: seq<nat>, t: nat)
    ensures Occurs(a + b, t) == Occurs(a, t) + Occurs(b, t)
  {
    if a == [] {
      assert a + b == b;
    } else {
      assert (a + b)[1..] == a[1..] + b;
      OccursAppend(a[1..], b, t);
    }
  }

  lemma OccursWithout(l: seq<nat>, i: nat, t: nat)
    requires i < |l|
    ensures Occurs(l, t) == Occurs(l[..i] + l[i + 1..], t) + if l[i] == t then 1 else 0
  {
    assert l == l[..i] + l[i..];
    OccursAppend(l[..i], l[i..], t);
    OccursAppend(l[..i], l[i + 1..], t);
  }

  lemma {:induction false} OccursNot(l: seq<nat>, t: nat)
    requires t !in l
    ensures Occurs(l, t) == 0
  {
    if l != [] { OccursNot(l[1..], t); }
  }

  /** What the wheel holds: how often task `t` is stored at offset `o`. */
  function Held(w: Wheel, o: nat, t: nat): nat
    requires Valid(w)
  {
    match w
    case Leaf(_, tasks) => if o < SLOTS then Occurs(tasks[o], t) else 0
    case Inner(level, _, kids) =>
      var i := Slot(o, Pow64(level));
      if i < SLOTS && kids[i].Some? then Held(kids[i].value, Into(o, Pow64(level)), t) else 0
  }

  /** The same by slot: slot `i` of an inner wheel holds what its child holds, moved to where the slot starts. */
  lemma HeldInSlot(w: Wheel, i: nat, q: nat, t: nat)
    requires w.Inner? && Valid(w) && q < Width(w)
    ensures Held(w, At(i, Width(w)) + q, t) == if i < SLOTS && w.kids[i].Some? then Held(w.kids[i].value, q, t) else 0
  {
    LocateUnique(i, q, Width(w));
  }

  /** No offset reaches the span. */
  lemma HeldInSpan(w: Wheel, o: nat, t: nat)
    requires Valid(w) && o >= Span(w)
    ensures Held(w, o, t) == 0
  {
    if w.Inner? {
      AtIsProduct(SLOTS, Width(w));
      SlotBefore(o, SLOTS, Width(w));
    }
  }

  /** An empty map means an empty wheel (not the converse: an empty wheel may sit in a set slot). */
  lemma EmptyHolds(w: Wheel, o: nat, t: nat)
    requires Valid(w) && w.slotMap == 0
    ensures Held(w, o, t) == 0
  {
    ZeroMap(0);
    if w.Leaf? {
      if o < SLOTS { assert !Bit(w.slotMap, o); }
    } else {
      var i := Slot(o, Width(w));
      if i < SLOTS { assert !Bit(w.slotMap, i); }
    }
  }

  function NewWheel(level: nat): Wheel {
    if level == 0 then Leaf(0, seq(SLOTS, i => [])) else Inner(level, 0, seq(SLOTS, i => None))
  }

  lemma NewWheelValid(level: nat)
    ensures Valid(NewWheel(level)) && Level(NewWheel(level)) == level
  {
    ZeroMap(0);
  }

  /** Slot `i` and its bit, changed together. */
  function SetChain(w: Wheel, i: nat, chain: seq<nat>): Wheel
    requires w.Leaf? && Valid(w) && i < SLOTS
  {
    Leaf(if chain == [] then ClearBit(w.slotMap, i) else SetBit(w.slotMap, i), w.tasks[i := chain])
  }

  function SetKid(w: Wheel, i: nat, kid: Option<Wheel>): Wheel
    requires w.Inner? && Valid(w) && i < SLOTS
  {
    Inner(w.level, if kid.None? then ClearBit(w.slotMap, i) else SetBit(w.slotMap, i), w.kids[i := kid])
  }

  lemma MapAfter(m: nat, i: nat, on: bool, t: nat)
    requires m < Pow2(SLOTS) && i < SLOTS
    requires t == if on then SetBit(m, i) else ClearBit(m, i)
    ensures t < Pow2(SLOTS)
    ensures forall j :: 0 <= j < SLOTS ==> (Bit(t, j) <==> if j == i then on else Bit(m, j))
  {
    SetBitFits(m, i, SLOTS);
    ClearBitFits(m, i);
    forall j | 0 <= j < SLOTS ensures Bit(t, j) <==> if j == i then on else Bit(m, j) {
      SetBitAt(m, i, j);
      ClearBitAt(m, i, j);
    }
  }

  lemma SetChainValid(w: Wheel, i: nat, chain: seq<nat>)
    requires w.Leaf? && Valid(w) && i < SLOTS
    ensures Valid(SetChain(w, i, chain))
  {
    MapAfter(w.slotMap, i, chain != [], SetChain(w, i, chain).slotMap);
  }

  lemma SetKidValid(w: Wheel, i: nat, kid: Option<Wheel>)
    requires w.Inner? && Valid(w) && i < SLOTS
    requires kid.Some? ==> Valid(kid.value) && Level(kid.value) == w.level - 1
    ensures Valid(SetKid(w, i, kid))
  {
    MapAfter(w.slotMap, i, kid.Some?, SetKid(w, i, kid).slotMap);
  }

  /** A child put in, or put back, that is tidy itself. */
  lemma SetKidTidy(w: Wheel, i: nat, kid: Option<Wheel>, first: bool)
    requires w.Inner? && Valid(w) && i < SLOTS && Tidy(w, first) && Valid(SetKid(w, i, kid))
    requires kid.Some? ==> Valid(kid.value) && Tidy(kid.value, first && i == 0) && kid.value.slotMap != 0
    ensures Tidy(SetKid(w, i, kid), first)
  {
  }

  /** Changing a child changes what is held within its slot and nothing else. */
  lemma SetKidHolds(w: Wheel, i: nat, kid: Option<Wheel>, o: nat, t: nat)
    requires w.Inner? && Valid(w) && i < SLOTS && Valid(SetKid(w, i, kid)) && (kid.Some? ==> Valid(kid.value))
    ensures Slot(o, Width(w)) != i ==> Held(SetKid(w, i, kid), o, t) == Held(w, o, t)
    ensures Slot(o, Width(w)) == i ==>
              Held(SetKid(w, i, kid), o, t) == if kid.None? then 0 else Held(kid.value, Into(o, Width(w)), t)
  {
  }
}

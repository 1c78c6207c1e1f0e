/** next_deadline_time, rotate, level_up and level_down. */
module TimerWheelTurn {
  import opened Prelude
  import opened Bitmap
  import opened TimerItems
  import opened TimerWheel

  // next_deadline_time

  ghost predicate IsFirst(m: nat, i: nat) { i < SLOTS && Bit(m, i) && forall j :: 0 <= j < i ==> !Bit(m, j) }

  /** Following the first occupied slot leads to a task: no empty child is met on the way. */
  ghost predicate EndsInTask(w: Wheel)
    requires Valid(w)
  {
    w.slotMap != 0 && (w.Inner? ==> forall i: nat :: IsFirst(w.slotMap, i) ==> EndsInTask(w.kids[i].value))
  }

  /** It leads to an empty wheel, which ends at offset `d`. */
  ghost predicate EndsEmpty(w: Wheel, d: nat)
    requires Valid(w)
  {
    if w.slotMap == 0 then d == Span(w)
    else
      w.Inner? && exists i: nat ::
        IsFirst(w.slotMap, i) && d >= At(i, Width(w)) && EndsEmpty(w.kids[i].value, d - At(i, Width(w)))
  }

  /** Only the chain of first slots can end like that, so the offset is the span of a wheel of some level. */
  lemma {:induction false} EmptyEnd(w: Wheel, d: nat) returns (level: nat)
    requires Valid(w) && Tidy(w, true) && EndsEmpty(w, d)
    ensures level <= Level(w) && d == SLOTS * Pow64(level)
  {
    level := Level(w);
    if w.slotMap != 0 {
      var i: nat :| IsFirst(w.slotMap, i) && d >= At(i, Width(w)) && EndsEmpty(w.kids[i].value, d - At(i, Width(w)));
      if i == 0 { level := EmptyEnd(w.kids[0].value, d); } else { FullEnd(w.kids[i].value, d - At(i, Width(w))); }
    }
  }

  lemma {:induction false} FullEnd(w: Wheel, d: nat)
    requires Valid(w) && Tidy(w, false) && w.slotMap != 0
    ensures !EndsEmpty(w, d)
  {
    if EndsEmpty(w, d) {
      var i: nat :| IsFirst(w.slotMap, i) && d >= At(i, Width(w)) && EndsEmpty(w.kids[i].value, d - At(i, Width(w)));
      FullEnd(w.kids[i].value, d - At(i, Width(w)));
    }
  }

  ghost predicate HasTask(w: Wheel, o: nat)
    requires Valid(w)
  {
    exists k: nat :: Held(w, o, k) > 0
  }

  /** A lower bound of every stored offset; a stored offset itself if the first chain of slots ends in a task. */
  method NextDeadline(w: Wheel) returns (d: nat)
    requires Valid(w)
    ensures forall o: nat, k: nat :: Held(w, o, k) > 0 ==> d <= o
    ensures if EndsInTask(w) then HasTask(w, d) else EndsEmpty(w, d)
    ensures d <= Span(w)
    decreases w
  {
    if w.slotMap == 0 {
      forall o: nat, k: nat ensures Held(w, o, k) == 0 { EmptyHolds(w, o, k); }
      return Span(w);
    }
    var first := FirstBit(w.slotMap);
    assert IsFirst(w.slotMap, first);
    if w.Leaf? {
      d := first;
      FirstInLeaf(w, first);
    } else {
      var child := NextDeadline(w.kids[first].value);
      d := At(first, Width(w)) + child;
      FirstInKid(w, first, child);
      DeadlineFits(first, child, Width(w));
      if EndsInTask(w) { HasTaskInKid(w, first, child); } else { EmptyInKid(w, first, child); }
    }
  }

  lemma EmptyInKid(w: Wheel, first: nat, child: nat)
    requires w.Inner? && Valid(w) && IsFirst(w.slotMap, first) && !EndsInTask(w) && w.slotMap != 0
    requires if EndsInTask(w.kids[first].value) then true else EndsEmpty(w.kids[first].value, child)
    ensures EndsEmpty(w, At(first, Width(w)) + child)
  {
    var i: nat :| IsFirst(w.slotMap, i) && !EndsInTask(w.kids[i].value);
    assert i == first;
  }

  lemma FirstInLeaf(w: Wheel, first: nat)
    requires w.Leaf? && Valid(w) && IsFirst(w.slotMap, first)
    ensures forall o: nat, k: nat :: Held(w, o, k) > 0 ==> first <= o
    ensures HasTask(w, first)
  {
    forall o: nat, k: nat | o < first ensures Held(w, o, k) == 0 { assert !Bit(w.slotMap, o); }
    assert Held(w, first, w.tasks[first][0]) > 0;
  }

  lemma FirstInKid(w: Wheel, first: nat, child: nat)
    requires w.Inner? && Valid(w) && IsFirst(w.slotMap, first) && child <= Width(w)
    requires forall o: nat, k: nat :: Held(w.kids[first].value, o, k) > 0 ==> child <= o
    ensures forall o: nat, k: nat :: Held(w, o, k) > 0 ==> At(first, Width(w)) + child <= o
  {
    forall o: nat, k: nat | Held(w, o, k) > 0 ensures At(first, Width(w)) + child <= o {
      FirstInKidAt(w, first, child, o, k);
    }
  }

  lemma DeadlineFits(first: nat, child: nat, width: nat)
    requires first < SLOTS && child <= width
    ensures At(first, width) + child <= SLOTS * width
  {
    AtMono(first + 1, SLOTS, width);
    AtIsProduct(SLOTS, width);
  }

  lemma FirstInKidAt(w: Wheel, first: nat, child: nat, o: nat, k: nat)
    requires w.Inner? && Valid(w) && IsFirst(w.slotMap, first) && child <= Width(w)
    requires forall o: nat, k: nat :: Held(w.kids[first].value, o, k) > 0 ==> child <= o
    requires Held(w, o, k) > 0
    ensures At(first, Width(w)) + child <= o
  {
    var i := Slot(o, Width(w));
    Locate(o, Width(w));
    assert Bit(w.slotMap, i);
    if i > first { AtMono(first + 1, i, Width(w)); }
  }

  // rotate

  /** Every offset lowered by `d`; what lay before `d` is gone. */
  ghost predicate Lowered(w: Wheel, t: Wheel, d: nat)
    requires Valid(w) && Valid(t)
  {
    forall o: nat, k: nat :: Held(t, o, k) == Held(w, o + d, k)
  }

  method Rotate(w: Wheel, start: nat) returns (t: Wheel)
    requires Valid(w)
    ensures Valid(t) && Level(t) == Level(w) && StaysTidy(w, t)
    ensures if start < SLOTS then Lowered(w, t, At(start, Width(w))) else t == w
  {
    if start == 0 || start >= SLOTS { return w; }
    if w.Leaf? {
      var tasks := ShiftDown(w.tasks, start, []);
      t := Leaf(Drop(w.slotMap, start), tasks);
      DropMap(w.slotMap, start);
      AtIsProduct(start, 1);
    } else {
      var kids := ShiftDown(w.kids, start, None);
      t := Inner(w.level, Drop(w.slotMap, start), kids);
      RotatedValid(w, t, start);
      RotatedInner(w, t, start);
      RotatedTidy(w, t, start);
    }
  }

  /** The slots moved forward, then the tail cleared. */
  method ShiftDown<T>(slots: seq<T>, start: nat, none: T) returns (r: seq<T>)
    requires |slots| == SLOTS && 0 < start < SLOTS
    ensures |r| == SLOTS
    ensures forall j :: 0 <= j < SLOTS ==> r[j] == if j < SLOTS - start then slots[j + start] else none
  {
    r := slots;
    for i := 0 to SLOTS - start
      invariant |r| == SLOTS
      invariant forall j :: 0 <= j < i ==> r[j] == slots[j + start]
      invariant forall j :: i + start <= j < SLOTS ==> r[j] == slots[j]
    {
      r := r[i := r[i + start]][i + start := none];
    }
    for i := SLOTS - start to SLOTS
      invariant |r| == SLOTS
      invariant forall j :: 0 <= j < i ==> r[j] == if j < SLOTS - start then slots[j + start] else none
    {
      r := r[i := none];
    }
  }

  lemma DropMap(m: nat, start: nat)
    requires m < Pow2(SLOTS) && start < SLOTS
    ensures Drop(m, start) < Pow2(SLOTS)
    ensures forall j :: 0 <= j < SLOTS ==> (Bit(Drop(m, start), j) <==> j < SLOTS - start && Bit(m, j + start))
  {
    DropFits(m, start);
    forall j | 0 <= j < SLOTS ensures Bit(Drop(m, start), j) <==> j < SLOTS - start && Bit(m, j + start) {
      DropAt(m, start, j);
      if j >= SLOTS - start { HighBitsClear(m, SLOTS, j + start); }
    }
  }

  predicate Moved(w: Wheel, t: Wheel, start: nat, i: nat)
    requires w.Inner? && t.Inner? && |w.kids| == |t.kids| == SLOTS
  {
    i < SLOTS ==> t.kids[i] == if i < SLOTS - start then w.kids[i + start] else None
  }

  lemma RotatedValid(w: Wheel, t: Wheel, start: nat)
    requires w.Inner? && Valid(w) && 0 < start < SLOTS && t.Inner? && t.level == w.level && |t.kids| == SLOTS
    requires t.slotMap == Drop(w.slotMap, start)
    requires forall j :: 0 <= j < SLOTS ==> t.kids[j] == if j < SLOTS - start then w.kids[j + start] else None
    ensures Valid(t) && forall i: nat :: Moved(w, t, start, i)
  {
    DropMap(w.slotMap, start);
  }

  lemma RotatedInner(w: Wheel, t: Wheel, start: nat)
    requires w.Inner? && Valid(w) && t.Inner? && Valid(t) && t.level == w.level && start < SLOTS
    requires forall i: nat :: Moved(w, t, start, i)
    ensures Lowered(w, t, At(start, Width(w)))
  {
    forall o: nat, k: nat ensures Held(t, o, k) == Held(w, o + At(start, Width(w)), k) {
      RotatedAt(w, t, start, Slot(o, Width(w)), o, k);
    }
  }

  lemma RotatedTidy(w: Wheel, t: Wheel, start: nat)
    requires w.Inner? && Valid(w) && t.Inner? && Valid(t) && t.level == w.level && 0 < start < SLOTS
    requires forall i: nat :: Moved(w, t, start, i)
    ensures StaysTidy(w, t)
  {
    forall first: bool | Tidy(w, first) ensures Tidy(t, first) {
      forall i | 0 <= i < SLOTS && t.kids[i].Some?
        ensures Tidy(t.kids[i].value, first && i == 0) && t.kids[i].value.slotMap != 0
      {
        assert Moved(w, t, start, i) && t.kids[i] == w.kids[i + start];
        if first && i == 0 { TidyAnyway(t.kids[i].value); }
      }
    }
  }

  lemma RotatedAt(w: Wheel, t: Wheel, start: nat, i: nat, o: nat, k: nat)
    requires w.Inner? && Valid(w) && t.Inner? && Valid(t) && t.level == w.level && start < SLOTS
    requires i == Slot(o, Width(w)) && Moved(w, t, start, i)
    ensures Held(t, o, k) == Held(w, o + At(start, Width(w)), k)
  {
    Locate(o, Width(w));
    AtAdds(i, start, Width(w));
    HeldInSlot(w, i + start, Into(o, Width(w)), k);
  }

  lemma {:induction false} AtAdds(i: nat, j: nat, width: nat)
    ensures At(i + j, width) == At(i, width) + At(j, width)
  {
    if i > 0 { AtAdds(i - 1, j, width); }
  }

  // level_up and level_down

  ghost predicate SameContents(w: Wheel, t: Wheel)
    requires Valid(w) && Valid(t)
  {
    forall o: nat, k: nat :: Held(t, o, k) == Held(w, o, k)
  }

  function LevelUp(w: Wheel): Wheel {
    Inner(Level(w) + 1, 1, seq(SLOTS, i => if i == 0 then Some(w) else None))
  }

  lemma LevelUpKeeps(w: Wheel)
    requires Valid(w)
    ensures Valid(LevelUp(w)) && SameContents(w, LevelUp(w))
    ensures Tidy(w, true) ==> Tidy(LevelUp(w), true)
  {
    var t := LevelUp(w);
    forall i | 0 <= i < SLOTS ensures Bit(1, i) <==> t.kids[i].Some? { OneBit(i); }
    assert 1 < Pow2(SLOTS);
    forall o: nat, k: nat ensures Held(t, o, k) == Held(w, o, k) { KidZeroHolds(t, o, k); }
  }

  /** An inner wheel with no child but the first holds what that child holds. */
  lemma KidZeroHolds(t: Wheel, o: nat, k: nat)
    requires t.Inner? && Valid(t) && t.kids[0].Some? && forall i :: 0 < i < SLOTS ==> t.kids[i].None?
    ensures Held(t, o, k) == Held(t.kids[0].value, o, k)
  {
    SlotBefore(o, 1, Width(t));
    if o < Width(t) {
      HeldInSlot(t, 0, o, k);
    } else {
      HeldInSpan(t.kids[0].value, o, k);
    }
  }

  predicate CanLevelDown(w: Wheel) { w.Inner? && ClearBit(w.slotMap, 0) == 0 }

  /** A tidy wheel that is not empty holds something. */
  lemma {:induction false} TidyHolds(w: Wheel) returns (o: nat)
    requires Valid(w) && Tidy(w, false) && w.slotMap != 0
    ensures HasTask(w, o)
  {
    ZeroMap(w.slotMap);
    var i :| 0 <= i < SLOTS && Bit(w.slotMap, i);
    if w.Leaf? {
      o := i;
      assert Held(w, i, w.tasks[i][0]) > 0;
    } else {
      var q := TidyHolds(w.kids[i].value);
      o := At(i, Width(w)) + q;
      HasTaskInKid(w, i, q);
    }
  }

  lemma HasTaskInKid(w: Wheel, i: nat, q: nat)
    requires w.Inner? && Valid(w) && i < SLOTS && w.kids[i].Some? && HasTask(w.kids[i].value, q)
    ensures HasTask(w, At(i, Width(w)) + q)
  {
    var k: nat :| Held(w.kids[i].value, q, k) > 0;
    if q >= Width(w) { HeldInSpan(w.kids[i].value, q, k); }
    HeldInSlot(w, i, q, k);
    assert Held(w, At(i, Width(w)) + q, k) > 0;
  }

  /** A tidy wheel that is not empty and cannot be lowered holds something, above level 0 beyond its first slot. */
  lemma HighestNeeded(w: Wheel) returns (o: nat)
    requires Valid(w) && Tidy(w, true) && w.slotMap != 0 && !CanLevelDown(w)
    ensures HasTask(w, o) && (w.Inner? ==> o >= Width(w))
  {
    if w.Leaf? {
      o := TidyHolds(w);
    } else {
      var m := ClearBit(w.slotMap, 0);
      ClearBitFits(w.slotMap, 0);
      ZeroMap(m);
      var i :| 0 <= i < SLOTS && Bit(m, i);
      ClearBitAt(w.slotMap, 0, i);
      var q := TidyHolds(w.kids[i].value);
      o := At(i, Width(w)) + q;
      HasTaskInKid(w, i, q);
      AtMono(1, i, Width(w));
      assert At(1, Width(w)) == Width(w);
    }
  }

  /** A map that is not zero but zero without bit 0 has bit 0. */
  lemma OnlyFirst(w: Wheel)
    requires Valid(w) && CanLevelDown(w) && w.slotMap != 0
    ensures w.kids[0].Some?
  {
    assert Bit(w.slotMap, 0);
  }

  lemma LevelDownKeeps(w: Wheel)
    requires Valid(w) && CanLevelDown(w) && w.kids[0].Some?
    ensures SameContents(w, w.kids[0].value)
    ensures Tidy(w, true) ==> Tidy(w.kids[0].value, true)
  {
    forall i | 0 < i < SLOTS ensures w.kids[i].None? {
      ClearBitAt(w.slotMap, 0, i);
      ZeroBit(i);
    }
    forall o: nat, k: nat ensures Held(w.kids[0].value, o, k) == Held(w, o, k) { KidZeroHolds(w, o, k); }
  }
}

/** The operations of the timer wheel, each proved against what the wheel holds. */
module TimerWheelOps {
  import opened Prelude
  import opened Bitmap
  import opened TimerItems
  import opened TimerWheel

  /**
   * The offset at which add_task stores: the interval when the wheel spans it; otherwise the
   * last slot, with the interval's remainder inside that slot.
   */
  function StoredOffset(level: nat, interval: nat): nat {
    if interval < SLOTS * Pow64(level) then interval
    else if level == 0 then interval % SLOTS
    else At(SLOTS - 1, Pow64(level)) + Into(interval, Pow64(level))
  }

  /** One more task `task` at offset `d`, and no other change. */
  ghost predicate Added(w: Wheel, t: Wheel, d: nat, task: nat)
    requires Valid(w) && Valid(t)
  {
    forall o, k :: Held(t, o, k) == Held(w, o, k) + if o == d && k == task then 1 else 0
  }

  lemma LeafSlot(interval: nat)
    ensures LowBits(interval, 6) == interval % SLOTS
  {
    ShiftMaskIsDivMod(interval, 1);
    assert Pow64(1) == 64;
  }

  method AddTask(w: Wheel, task: nat, interval: nat) returns (t: Wheel)
    requires Valid(w)
    ensures Valid(t) && Level(t) == Level(w) && t.slotMap != 0 && StaysTidy(w, t)
    ensures Added(w, t, StoredOffset(Level(w), interval), task)
    decreases Level(w)
  {
    if w.Leaf? {
      t := AddToLeaf(w, task, interval);
    } else {
      var slot := Shr(interval, 6 * w.level);
      if slot >= SLOTS { slot := SLOTS - 1; }
      var rest := LowBits(interval, 6 * w.level);
      SlotAndRest(w.level, interval, slot, rest);
      var kid := KidOrNew(w, slot);
      var grown := AddTask(kid, task, rest);
      t := SetKid(w, slot, Some(grown));
      KidGrown(w, slot, kid, grown, rest, task, StoredOffset(w.level, interval));
      KidTidier(w, slot, kid, grown);
    }
  }

  lemma KidTidier(w: Wheel, slot: nat, kid: Wheel, grown: Wheel)
    requires w.Inner? && Valid(w) && slot < SLOTS && kid == KidOrNew(w, slot)
    requires Valid(grown) && Valid(SetKid(w, slot, Some(grown))) && StaysTidy(kid, grown) && grown.slotMap != 0
    ensures StaysTidy(w, SetKid(w, slot, Some(grown))) && SetKid(w, slot, Some(grown)).slotMap != 0
  {
    OccupiedMap(SetKid(w, slot, Some(grown)), slot);
    forall first: bool | Tidy(w, first) ensures Tidy(SetKid(w, slot, Some(grown)), first) {
      assert Tidy(kid, first && slot == 0);
      SetKidTidy(w, slot, Some(grown), first);
    }
  }

  lemma SlotAndRest(level: nat, interval: nat, slot: nat, rest: nat)
    requires level >= 1 && rest == LowBits(interval, 6 * level)
    requires slot == if Shr(interval, 6 * level) >= SLOTS then SLOTS - 1 else Shr(interval, 6 * level)
    ensures slot < SLOTS && rest < Pow64(level) && StoredOffset(level - 1, rest) == rest
    ensures StoredOffset(level, interval) == At(slot, Pow64(level)) + rest
  {
    ShiftMaskLocates(interval, level);
    StoredInSlot(level, interval);
  }

  /** The child of a slot, made empty if there is none yet. */
  function KidOrNew(w: Wheel, slot: nat): (kid: Wheel)
    requires w.Inner? && Valid(w) && slot < SLOTS
    ensures Valid(kid) && Level(kid) == w.level - 1
  {
    NewWheelValid(w.level - 1);
    if w.kids[slot].Some? then w.kids[slot].value else NewWheel(w.level - 1)
  }

  /** The slot and the remainder give the stored offset. */
  lemma StoredInSlot(level: nat, interval: nat)
    requires level >= 1
    ensures var slot := Slot(interval, Pow64(level));
            StoredOffset(level, interval) ==
            At(if slot >= SLOTS then SLOTS - 1 else slot, Pow64(level)) + Into(interval, Pow64(level))
    ensures Into(interval, Pow64(level)) < SLOTS * Pow64(level - 1)
  {
    Locate(interval, Pow64(level));
    SlotBefore(interval, SLOTS, Pow64(level));
    AtIsProduct(SLOTS, Pow64(level));
  }

  method AddToLeaf(w: Wheel, task: nat, interval: nat) returns (t: Wheel)
    requires w.Leaf? && Valid(w)
    ensures Valid(t) && Level(t) == 0 && t.slotMap != 0
    ensures Added(w, t, interval % SLOTS, task)
  {
    var slot := LowBits(interval, 6);
    LeafSlot(interval);
    t := SetChain(w, slot, [task] + w.tasks[slot]);
    SetChainValid(w, slot, [task] + w.tasks[slot]);
    OccupiedMap(t, slot);
    forall o, k ensures Held(t, o, k) == Held(w, o, k) + if o == slot && k == task then 1 else 0 {
      assert ([task] + w.tasks[slot])[1..] == w.tasks[slot];
    }
  }

  lemma KidGrown(w: Wheel, slot: nat, kid: Wheel, grown: Wheel, q: nat, task: nat, d: nat)
    requires w.Inner? && Valid(w) && slot < SLOTS && q < Width(w) && kid == KidOrNew(w, slot)
    requires Valid(grown) && Level(grown) == w.level - 1 && Added(kid, grown, q, task)
    requires d == At(slot, Width(w)) + q
    ensures Valid(SetKid(w, slot, Some(grown))) && Added(w, SetKid(w, slot, Some(grown)), d, task)
  {
    SetKidValid(w, slot, Some(grown));
    forall o, k
      ensures Held(SetKid(w, slot, Some(grown)), o, k) == Held(w, o, k) + if o == d && k == task then 1 else 0
    {
      KidGrownAt(w, slot, kid, grown, q, task, o, k);
    }
  }

  lemma KidGrownAt(w: Wheel, slot: nat, kid: Wheel, grown: Wheel, q: nat, task: nat, o: nat, k: nat)
    requires w.Inner? && Valid(w) && slot < SLOTS && q < Width(w) && kid == KidOrNew(w, slot)
    requires Valid(grown) && Added(kid, grown, q, task) && Valid(SetKid(w, slot, Some(grown)))
    ensures Held(SetKid(w, slot, Some(grown)), o, k) ==
            Held(w, o, k) + if o == At(slot, Width(w)) + q && k == task then 1 else 0
  {
    Locate(o, Width(w));
    LocateUnique(slot, q, Width(w));
    SetKidHolds(w, slot, Some(grown), o, k);
    if Slot(o, Width(w)) == slot {
      if w.kids[slot].None? { EmptyHolds(kid, Into(o, Width(w)), k); }
      assert Held(w, o, k) == Held(kid, Into(o, Width(w)), k);
    }
  }

  // remove_task

  /** One `task` fewer at offset `d` if there was one, and no other change. */
  ghost predicate Removed(w: Wheel, t: Wheel, d: nat, task: nat)
    requires Valid(w) && Valid(t)
  {
    forall o, k :: Held(t, o, k) == Held(w, o, k) - if o == d && k == task && Held(w, o, k) > 0 then 1 else 0
  }

  /** Where remove_task looks: a leaf takes the interval modulo its span. */
  function SearchedOffset(level: nat, interval: nat): nat { if level == 0 then interval % SLOTS else interval }

  method RemoveTask(w: Wheel, task: nat, interval: nat) returns (t: Wheel)
    requires Valid(w)
    ensures Valid(t) && Level(t) == Level(w) && StaysTidy(w, t)
    ensures Removed(w, t, SearchedOffset(Level(w), interval), task)
    decreases w
  {
    if w.Leaf? {
      t := RemoveFromLeaf(w, task, interval);
    } else {
      ShiftMaskLocates(interval, w.level);
      var slot := Shr(interval, 6 * w.level);
      if slot >= SLOTS || w.kids[slot].None? {
        t := w;
        NotThere(w, interval, task);
      } else {
        RestInKid(w.level, interval);
        var less := RemoveTask(w.kids[slot].value, task, LowBits(interval, 6 * w.level));
        t := SetKid(w, slot, if less.slotMap == 0 then None else Some(less));
        KidShrunk(w, slot, less, interval, task);
        KidLess(w, slot, less);
      }
    }
  }

  lemma KidLess(w: Wheel, slot: nat, less: Wheel)
    requires w.Inner? && Valid(w) && slot < SLOTS && w.kids[slot].Some?
    requires Valid(less) && StaysTidy(w.kids[slot].value, less)
    requires Valid(SetKid(w, slot, if less.slotMap == 0 then None else Some(less)))
    ensures StaysTidy(w, SetKid(w, slot, if less.slotMap == 0 then None else Some(less)))
  {
    var kid := if less.slotMap == 0 then None else Some(less);
    forall first: bool | Tidy(w, first) ensures Tidy(SetKid(w, slot, kid), first) {
      SetKidTidy(w, slot, kid, first);
    }
  }

  lemma NotThere(w: Wheel, interval: nat, task: nat)
    requires w.Inner? && Valid(w)
    requires var slot := Slot(interval, Width(w)); slot >= SLOTS || w.kids[slot].None?
    ensures Removed(w, w, interval, task)
  {
  }

  lemma RestInKid(level: nat, interval: nat)
    requires level >= 1
    ensures SearchedOffset(level - 1, LowBits(interval, 6 * level)) == Into(interval, Pow64(level))
  {
    ShiftMaskLocates(interval, level);
    if level == 1 { assert Pow64(1) == SLOTS; }
  }

  method RemoveFromLeaf(w: Wheel, task: nat, interval: nat) returns (t: Wheel)
    requires w.Leaf? && Valid(w)
    ensures Valid(t) && Level(t) == 0
    ensures Removed(w, t, interval % SLOTS, task)
  {
    var slot := LowBits(interval, 6);
    LeafSlot(interval);
    var chain, i := w.tasks[slot], 0;
    while i < |chain| && chain[i] != task
      invariant i <= |chain| && task !in chain[..i]
    {
      i := i + 1;
    }
    if i < |chain| {
      var shorter := chain[..i] + chain[i + 1..];
      t := SetChain(w, slot, shorter);
      SetChainValid(w, slot, shorter);
      forall o, k
        ensures Held(t, o, k) == Held(w, o, k) - if o == slot && k == task && Held(w, o, k) > 0 then 1 else 0
      {
        OccursWithout(chain, i, k);
      }
    } else {
      t := w;
      OccursNot(chain, task);
    }
  }

  lemma KidShrunk(w: Wheel, slot: nat, less: Wheel, interval: nat, task: nat)
    requires w.Inner? && Valid(w) && slot < SLOTS && w.kids[slot].Some? && slot == Slot(interval, Width(w))
    requires Valid(less) && Level(less) == w.level - 1
    requires Removed(w.kids[slot].value, less, Into(interval, Width(w)), task)
    ensures var t := SetKid(w, slot, if less.slotMap == 0 then None else Some(less));
            Valid(t) && Removed(w, t, interval, task)
  {
    var kid := if less.slotMap == 0 then None else Some(less);
    SetKidValid(w, slot, kid);
    forall o, k
      ensures Held(SetKid(w, slot, kid), o, k) ==
              Held(w, o, k) - if o == interval && k == task && Held(w, o, k) > 0 then 1 else 0
    {
      Locate(o, Width(w));
      Locate(interval, Width(w));
      KidReplaced(w, slot, less, o, k);
    }
  }

  /** A child put back, or dropped when its map is empty: either way the slot holds what it holds. */
  lemma KidReplaced(w: Wheel, slot: nat, less: Wheel, o: nat, k: nat)
    requires w.Inner? && Valid(w) && slot < SLOTS
    requires Valid(less) && Level(less) == w.level - 1
    ensures var t := SetKid(w, slot, if less.slotMap == 0 then None else Some(less));
            && Valid(t)
            && Held(t, o, k) == if Slot(o, Width(w)) == slot then Held(less, Into(o, Width(w)), k) else Held(w, o, k)
  {
    var kid := if less.slotMap == 0 then None else Some(less);
    SetKidValid(w, slot, kid);
    SetKidHolds(w, slot, kid, o, k);
    if less.slotMap == 0 { EmptyHolds(less, Into(o, Width(w)), k); }
  }
}

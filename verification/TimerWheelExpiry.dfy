/** handle_expired_tasks: executes what lies before a given offset, in order of offset. */
module TimerWheelExpiry {
  import opened Prelude
  import opened Bitmap
  import opened TimerItems
  import opened TimerWheel
  import opened TimerWheelOps

  /** The log has exactly what `w` holds before `r`. */
  ghost predicate Logged(w: Wheel, log: seq<Item>, r: nat)
    requires Valid(w)
  {
    forall o: nat, k: nat :: Times(log, o, k) == if o < r then Held(w, o, k) else 0
  }

  /** `t` holds exactly what `w` holds from `r` on. */
  ghost predicate Expired(w: Wheel, t: Wheel, r: nat)
    requires Valid(w) && Valid(t)
  {
    forall o: nat, k: nat :: Held(t, o, k) == if o < r then 0 else Held(w, o, k)
  }

  /** The log is in order of offset, ends before `r`, and is what was executed. */
  ghost predicate InOrder(log: seq<Item>, executed: seq<nat>, r: nat) {
    Sorted(log) && Below(log, r) && executed == Tasks(log)
  }

  /** What lies before `r` has been executed, in order, and the rest is as it was. */
  ghost predicate Through(w: Wheel, t: Wheel, log: seq<Item>, executed: seq<nat>, r: nat)
    requires Valid(w) && Valid(t)
  {
    Expired(w, t, r) && Logged(w, log, r) && InOrder(log, executed, r)
  }

  /** Executes exactly the tasks with an offset below `r`, in non-decreasing order of offset. */
  method Expire(w: Wheel, r: nat) returns (t: Wheel, executed: seq<nat>, ghost log: seq<Item>)
    requires Valid(w)
    ensures Valid(t) && Level(t) == Level(w) && StaysTidy(w, t)
    ensures Expired(w, t, r) && Logged(w, log, r) && InOrder(log, executed, r)
    decreases w, 3
  {
    if w.Leaf? {
      t, executed, log := ExpireLeaf(w, r);
    } else if w.slotMap == 0 || r == 0 {
      t, executed, log := w, [], [];
      if w.slotMap == 0 {
        forall o: nat, k: nat ensures Held(w, o, k) == 0 { EmptyHolds(w, o, k); }
      }
    } else {
      t, executed, log := ExpireInner(w, r);
    }
  }

  // The leaf

  method ExpireLeaf(w: Wheel, r: nat) returns (t: Wheel, executed: seq<nat>, ghost log: seq<Item>)
    requires w.Leaf? && Valid(w)
    ensures Valid(t) && Level(t) == 0
    ensures Expired(w, t, r) && Logged(w, log, r) && InOrder(log, executed, r)
  {
    t, executed, log := w, [], [];
    var scan, i := if r < SLOTS then r else SLOTS, 0;
    while i < scan
      invariant i <= scan && t.Leaf? && Valid(t)
      invariant forall j :: 0 <= j < SLOTS ==> t.tasks[j] == if j < i then [] else w.tasks[j]
      invariant Logged(w, log, i) && InOrder(log, executed, i)
    {
      if Bit(t.slotMap, i) {
        var chain := t.tasks[i];
        SetChainValid(t, i, []);
        t := SetChain(t, i, []);
        executed, log := Drain(w, i, chain, executed, log);
      } else {
        forall k ensures Held(w, i, k) == 0 { assert w.tasks[i] == []; }
      }
      i := i + 1;
    }
  }

  /** Walks the chain of slot `i`, executing each task. */
  method Drain(ghost w: Wheel, ghost i: nat, chain: seq<nat>, before: seq<nat>, ghost logged: seq<Item>)
    returns (executed: seq<nat>, ghost log: seq<Item>)
    requires w.Leaf? && Valid(w) && i < SLOTS && chain == w.tasks[i]
    requires Logged(w, logged, i) && InOrder(logged, before, i)
    ensures Logged(w, log, i + 1) && InOrder(log, executed, i + 1)
  {
    var rest := chain;
    executed, log := before, logged;
    while rest != []
      invariant InOrder(log, executed, i + 1)
      invariant forall o: nat, k: nat ::
                  Times(log, o, k) ==
                  if o < i then Held(w, o, k) else if o == i then Occurs(chain, k) - Occurs(rest, k) else 0
    {
      forall o: nat, k: nat
        ensures Times(log + [Item(i, rest[0])], o, k) == Times(log, o, k) + if o == i && k == rest[0] then 1 else 0
      {
        TimesAppend(log, [Item(i, rest[0])], o, k);
        assert [Item(i, rest[0])][1..] == [];
      }
      executed, log := executed + [rest[0]], log + [Item(i, rest[0])];
      rest := rest[1..];
    }
  }

  // The inner wheel

  method ExpireInner(w: Wheel, r: nat) returns (t: Wheel, executed: seq<nat>, ghost log: seq<Item>)
    requires w.Inner? && Valid(w)
    ensures Valid(t) && Level(t) == Level(w) && StaysTidy(w, t) && Through(w, t, log, executed, r)
    decreases w, 2
  {
    ShiftMaskLocates(r, w.level);
    Locate(r, Width(w));
    var full, part := Shr(r, 6 * w.level), LowBits(r, 6 * w.level);
    var i;
    t, i, executed, log := ExpireFulls(w, full);
    if part > 0 && full < SLOTS {
      t, executed, log := ExpirePart(w, t, i, part, r, executed, log);
    } else if full >= SLOTS {
      AtMono(SLOTS, full, Width(w));
      PastSpan(w, t, i, r, log, executed);
    }
  }

  /** The slots that have expired as a whole. */
  method ExpireFulls(w: Wheel, full: nat) returns (t: Wheel, i: nat, executed: seq<nat>, ghost log: seq<Item>)
    requires w.Inner? && Valid(w)
    ensures t.Inner? && t.level == w.level && Valid(t) && StaysTidy(w, t)
    ensures i == (if full < SLOTS then full else SLOTS) && (i < SLOTS ==> t.kids[i] == w.kids[i])
    ensures Through(w, t, log, executed, At(i, Width(w)))
    decreases w, 1
  {
    t, executed, log := w, [], [];
    i := 0;
    while i < full && i < SLOTS
      invariant i <= full && i <= SLOTS && t.Inner? && t.level == w.level && Valid(t) && StaysTidy(w, t)
      invariant forall j :: i <= j < SLOTS ==> t.kids[j] == w.kids[j]
      invariant Through(w, t, log, executed, At(i, Width(w)))
    {
      t, executed, log := ExpireFull(w, t, i, executed, log);
      i := i + 1;
    }
  }

  /** A slot that has expired as a whole. */
  method ExpireFull(ghost w: Wheel, t: Wheel, i: nat, before: seq<nat>, ghost logged: seq<Item>)
    returns (u: Wheel, executed: seq<nat>, ghost log: seq<Item>)
    requires w.Inner? && Valid(w) && t.Inner? && Valid(t) && t.level == w.level && i < SLOTS
    requires t.kids[i] == w.kids[i] && Through(w, t, logged, before, At(i, Width(w)))
    ensures u.Inner? && u.level == w.level && Valid(u) && forall j :: i < j < SLOTS ==> u.kids[j] == t.kids[j]
    ensures StaysTidy(t, u)
    ensures Through(w, u, log, executed, At(i + 1, Width(w)))
    decreases w, 0
  {
    if Bit(t.slotMap, i) {
      var kid, ran, sub := Expire(t.kids[i].value, SLOTS * Pow64(t.level - 1));
      FullSlot(w, t, i);
      DroppedTidy(t, i);
      LogSlot(w, i, Width(w), logged, before, sub, ran);
      u, executed, log := SetKid(t, i, None), before + ran, logged + Later(sub, At(i, Width(w)));
    } else {
      SkipSlot(w, t, i, Width(w), logged, before);
      u, executed, log := t, before, logged;
    }
  }

  /** The slot of which only the beginning has expired. */
  method ExpirePart(
    ghost w: Wheel, t: Wheel, i: nat, q: nat, ghost r: nat, before: seq<nat>, ghost logged: seq<Item>)
    returns (u: Wheel, executed: seq<nat>, ghost log: seq<Item>)
    requires w.Inner? && Valid(w) && t.Inner? && Valid(t) && t.level == w.level && i < SLOTS
    requires q < Width(w) && r == At(i, Width(w)) + q
    requires t.kids[i] == w.kids[i] && Through(w, t, logged, before, At(i, Width(w)))
    ensures Valid(u) && Level(u) == Level(w) && StaysTidy(t, u) && Through(w, u, log, executed, r)
    decreases w, 0
  {
    if Bit(t.slotMap, i) {
      var kid, ran, sub := Expire(t.kids[i].value, q);
      PartSlot(w, t, i, q, kid);
      KidLess(t, i, kid);
      LogSlot(w, i, q, logged, before, sub, ran);
      u := SetKid(t, i, if kid.slotMap == 0 then None else Some(kid));
      executed, log := before + ran, logged + Later(sub, At(i, Width(w)));
    } else {
      SkipSlot(w, t, i, q, logged, before);
      u, executed, log := t, before, logged;
    }
  }

  lemma DroppedTidy(w: Wheel, i: nat)
    requires w.Inner? && Valid(w) && i < SLOTS && Valid(SetKid(w, i, None))
    ensures StaysTidy(w, SetKid(w, i, None))
  {
    forall first: bool | Tidy(w, first) ensures Tidy(SetKid(w, i, None), first) { SetKidTidy(w, i, None, first); }
  }

  /** Slot `i` emptied. */
  lemma FullSlot(w: Wheel, t: Wheel, i: nat)
    requires w.Inner? && Valid(w) && t.Inner? && Valid(t) && t.level == w.level && i < SLOTS
    requires Expired(w, t, At(i, Width(w)))
    ensures Valid(SetKid(t, i, None)) && Expired(w, SetKid(t, i, None), At(i + 1, Width(w)))
  {
    SetKidValid(t, i, None);
    forall o: nat, k: nat
      ensures Held(SetKid(t, i, None), o, k) == if o < At(i + 1, Width(w)) then 0 else Held(w, o, k)
    {
      SetKidHolds(t, i, None, o, k);
      SlotBefore(o, i, Width(w));
      SlotBefore(o, i + 1, Width(w));
    }
  }

  /** Slot `i` emptied before `q`; a child left empty is dropped. */
  lemma PartSlot(w: Wheel, t: Wheel, i: nat, q: nat, kid: Wheel)
    requires w.Inner? && Valid(w) && t.Inner? && Valid(t) && t.level == w.level && i < SLOTS && q < Width(w)
    requires Expired(w, t, At(i, Width(w))) && w.kids[i].Some?
    requires Valid(kid) && Level(kid) == w.level - 1 && Expired(w.kids[i].value, kid, q)
    ensures var u := SetKid(t, i, if kid.slotMap == 0 then None else Some(kid));
            Valid(u) && Expired(w, u, At(i, Width(w)) + q)
  {
    var kept := if kid.slotMap == 0 then None else Some(kid);
    SetKidValid(t, i, kept);
    forall o: nat, k: nat
      ensures Held(SetKid(t, i, kept), o, k) == if o < At(i, Width(w)) + q then 0 else Held(w, o, k)
    {
      SetKidHolds(t, i, kept, o, k);
      Before(o, i, q, Width(w));
      SlotBefore(o, i, Width(w));
      if kid.slotMap == 0 { EmptyHolds(kid, Into(o, Width(w)), k); }
    }
  }

  /** An offset lies before distance `q` into slot `i` when its slot is earlier, or its distance into `i` smaller. */
  lemma Before(o: nat, i: nat, q: nat, width: nat)
    requires 1 <= width && q <= width
    ensures o < At(i, width) + q <==> Slot(o, width) < i || (Slot(o, width) == i && Into(o, width) < q)
  {
    Locate(o, width);
    SlotBefore(o, i, width);
    SlotBefore(o, i + 1, width);
  }

  /** The log of slot `i` before distance `q`, put after the log of the slots before it. */
  lemma LogSlot(w: Wheel, i: nat, q: nat, log: seq<Item>, executed: seq<nat>, sub: seq<Item>, ran: seq<nat>)
    requires w.Inner? && Valid(w) && i < SLOTS && w.kids[i].Some? && q <= Width(w)
    requires Logged(w, log, At(i, Width(w))) && InOrder(log, executed, At(i, Width(w)))
    requires Logged(w.kids[i].value, sub, q) && InOrder(sub, ran, q)
    ensures Logged(w, log + Later(sub, At(i, Width(w))), At(i, Width(w)) + q)
    ensures InOrder(log + Later(sub, At(i, Width(w))), executed + ran, At(i, Width(w)) + q)
  {
    var d := At(i, Width(w));
    SortedJoin(log, sub, d);
    forall o: nat, k: nat ensures Times(log + Later(sub, d), o, k) == if o < d + q then Held(w, o, k) else 0 {
      LogSlotAt(w, i, q, log, sub, o, k);
    }
  }

  lemma LogSlotAt(w: Wheel, i: nat, q: nat, log: seq<Item>, sub: seq<Item>, o: nat, k: nat)
    requires w.Inner? && Valid(w) && i < SLOTS && w.kids[i].Some? && q <= Width(w)
    requires Logged(w, log, At(i, Width(w))) && Logged(w.kids[i].value, sub, q)
    ensures var d := At(i, Width(w)); Times(log + Later(sub, d), o, k) == if o < d + q then Held(w, o, k) else 0
  {
    var d := At(i, Width(w));
    TimesAppend(log, Later(sub, d), o, k);
    TimesLater(sub, d, o, k);
    if d <= o < d + q { HeldInSlot(w, i, o - d, k); }
  }

  /** A slot whose bit is clear holds nothing. */
  lemma SkipSlot(w: Wheel, t: Wheel, i: nat, q: nat, log: seq<Item>, executed: seq<nat>)
    requires w.Inner? && Valid(w) && Valid(t) && i < SLOTS && w.kids[i].None? && q <= Width(w)
    requires Through(w, t, log, executed, At(i, Width(w)))
    ensures Through(w, t, log, executed, At(i, Width(w)) + q)
  {
    SkippedIsEmpty(w, i, q);
  }

  lemma SkippedIsEmpty(w: Wheel, i: nat, q: nat)
    requires w.Inner? && Valid(w) && i < SLOTS && w.kids[i].None? && q <= Width(w)
    ensures forall o: nat, k: nat :: At(i, Width(w)) <= o < At(i, Width(w)) + q ==> Held(w, o, k) == 0
  {
    forall o: nat, k: nat | At(i, Width(w)) <= o < At(i, Width(w)) + q ensures Held(w, o, k) == 0 {
      HeldInSlot(w, i, o - At(i, Width(w)), k);
    }
  }

  /** Beyond the span there is nothing more to execute. */
  lemma PastSpan(w: Wheel, t: Wheel, i: nat, r: nat, log: seq<Item>, executed: seq<nat>)
    requires w.Inner? && Valid(w) && Valid(t) && i == SLOTS && At(i, Width(w)) <= r
    requires Through(w, t, log, executed, At(i, Width(w)))
    ensures Through(w, t, log, executed, r)
  {
    AtIsProduct(SLOTS, Width(w));
    forall o: nat, k: nat | o >= At(SLOTS, Width(w)) ensures Held(w, o, k) == 0 { HeldInSpan(w, o, k); }
  }
}

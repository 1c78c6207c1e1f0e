/** The per-worker timer: a wheel of the right level, its base time and its number of entries. */
module Timers {
  import opened Prelude
  import opened Bitmap
  import opened TimerItems
  import opened TimerWheel
  import opened TimerSpec
  import TimerWheelOps
  import TimerWheelExpiry
  import TimerWheelTurn

  class Timer {
    /** The base time, in nanoseconds. */
    var start: int
    var numEntries: nat
    var root: Option<Wheel>
    /** What the root holds. */
    ghost var pending: multiset<Item>

    ghost predicate Valid()
      reads this
    {
      Holds(root, pending) && numEntries <= |pending| && (root.Some? ==> Level(root.value) <= MAX_LEVEL)
    }

    ghost function View(): Snapshot
      reads this
    {
      Snapshot(start, numEntries, if root.None? then 0 else Width(root.value), pending)
    }

    lemma ViewInSpan()
      requires Valid()
      ensures InSpan(View())
    {
      forall x | x in pending ensures x.offset < SLOTS * View().width { RootInSpan(root, pending, x); }
    }

    constructor (now: int)
      ensures Valid() && View() == Snapshot(now, 0, 0, multiset{})
    {
      start, numEntries, root, pending := now, 0, None, multiset{};
    }

    method AddTask(now: int, deadline: int, task: nat)
      requires Valid() && start <= now
      modifies this
      ensures Valid() && AddRel(old(View()), View(), now, deadline, task)
    {
      var interval := Relative(start, now, deadline);
      EnsureCapacity(interval);
      AddToRoot(interval, task);
      numEntries := numEntries + 1;
      ViewInSpan();
    }

    method AddToRoot(interval: nat, task: nat)
      requires Valid() && root.Some? && (interval < Span(root.value) || Level(root.value) == MAX_LEVEL)
      modifies this`root, this`pending
      ensures Holds(root, pending) && root.Some? && Level(root.value) == Level(old(root).value)
      ensures pending == old(pending) + multiset{Item(TimerWheelOps.StoredOffset(MAX_LEVEL, interval), task)}
    {
      var w := root.value;
      var t := TimerWheelOps.AddTask(w, task, interval);
      StoredAnywhere(Level(w), interval);
      AfterAdd(w, t, pending, TimerWheelOps.StoredOffset(Level(w), interval), task);
      root := Some(t);
      pending := pending + multiset{Item(TimerWheelOps.StoredOffset(MAX_LEVEL, interval), task)};
    }

    /** Creates the root if there is none, and raises its level until it spans the interval or is the highest. */
    method EnsureCapacity(interval: nat)
      requires Valid()
      modifies this`root
      ensures Valid() && root.Some?
      ensures interval < Span(root.value) || Level(root.value) == MAX_LEVEL
      ensures Raised(old(View().width), interval, Width(root.value))
    {
      if root.None? {
        NewWheelHolds();
        root := Some(NewWheel(0));
        assert Width(root.value) == Pow64(0) == 1;
      }
      var w := root.value;
      ghost var was := Width(w);
      while interval >= Span(w) && Level(w) < MAX_LEVEL
        invariant Holds(Some(w), pending) && Level(w) <= MAX_LEVEL && Width(w) >= was
        invariant Width(w) == was || Width(w) <= interval
        decreases MAX_LEVEL - Level(w)
      {
        TimerWheelTurn.LevelUpKeeps(w);
        AfterSame(w, TimerWheelTurn.LevelUp(w), pending);
        w := TimerWheelTurn.LevelUp(w);
      }
      root := Some(w);
    }

    method Poll(now: int) returns (count: nat, executed: seq<nat>, ghost log: seq<Item>)
      requires Valid() && start <= now
      modifies this
      ensures Valid() && count == |executed|
      ensures PollRel(old(View()), View(), now, executed, log)
    {
      executed, log := [], [];
      if numEntries == 0 { return 0, [], []; }
      var elapsed := Ms(now - start);
      if elapsed == 0 { return 0, [], []; }
      executed, log := PollElapsed(elapsed);
      count := |executed|;
    }

    method PollElapsed(elapsed: nat) returns (executed: seq<nat>, ghost log: seq<Item>)
      requires Valid() && root.Some?
      modifies this
      ensures Valid() && Polled(old(View()), View(), elapsed, executed, log) && InSpan(View())
    {
      executed, log := PollWheel(elapsed);
      ViewInSpan();
    }

    method PollWheel(elapsed: nat) returns (executed: seq<nat>, ghost log: seq<Item>)
      requires Valid() && root.Some?
      modifies this
      ensures Valid() && Polled(old(View()), View(), elapsed, executed, log)
    {
      ghost var s := View();
      ghost var kept;
      executed, log, kept := FireAndAdvance(elapsed);
      assert View().width == s.width;
      Settle(|executed|);
      MakePolled(s, View(), elapsed, executed, log, kept);
    }

    method FireAndAdvance(elapsed: nat) returns (executed: seq<nat>, ghost log: seq<Item>, ghost kept: multiset<Item>)
      requires Valid() && root.Some?
      modifies this`start, this`root, this`pending
      ensures Holds(root, pending) && root.Some? && Level(root.value) == Level(old(root).value) <= MAX_LEVEL
      ensures start == old(start) + elapsed * MS && |pending| == |old(pending)| - |executed|
      ensures TimerWheelExpiry.InOrder(log, executed, elapsed)
      ensures multiset(log) <= old(pending) && kept == Survivors(old(View()), log) && From(kept, elapsed)
      ensures pending == LowerAll(kept, RoundDown(elapsed, old(View().width)))
    {
      var t;
      t, executed, log := Fire(elapsed);
      kept := pending;
      start := start + elapsed * MS;
      Advance(t, elapsed);
    }

    /** The counter and the level after `count` tasks were executed. */
    method Settle(count: nat)
      requires Holds(root, pending) && (root.Some? ==> Level(root.value) <= MAX_LEVEL)
      requires numEntries <= |pending| + count
      modifies this`root, this`numEntries
      ensures Valid() && numEntries == if old(numEntries) <= count then 0 else old(numEntries) - count
      ensures if count == 0 then root == old(root) else Settled(View())
    {
      if count > 0 {
        numEntries := if numEntries <= count then 0 else numEntries - count;
        TryLevelDown();
      }
    }

    /** The clock shows `now` at the first reading and `later` at the second. */
    method RemoveTask(now: int, later: int, deadline: int, task: nat)
      requires Valid() && start <= now <= later
      modifies this
      ensures Valid() && RemoveRel(old(View()), View(), now, later, deadline, task)
    {
      if deadline <= now { return; }
      var due, elapsed := Ms(deadline - start), Ms(later - start);
      if due <= elapsed || root.None? { return; }
      RemoveFromRoot(due - elapsed, task);
    }

    method RemoveFromRoot(interval: nat, task: nat)
      requires Valid() && root.Some?
      modifies this
      ensures Valid() && RemovedAt(old(View()), View(), interval, task)
    {
      TakeFromRoot(interval, task);
      if numEntries > 0 { numEntries := numEntries - 1; }
      TryLevelDown();
    }

    method TakeFromRoot(interval: nat, task: nat)
      requires Valid() && root.Some?
      modifies this`root, this`pending
      ensures Holds(root, pending) && root.Some? && Level(root.value) == Level(old(root).value)
      ensures pending == old(pending) - multiset{Item(Searched(old(View()).width, interval), task)}
      ensures numEntries <= |pending| + 1
    {
      var w := root.value;
      var t := TimerWheelOps.RemoveTask(w, task, interval);
      ghost var x := Item(TimerWheelOps.SearchedOffset(Level(w), interval), task);
      AfterRemove(w, t, pending, x.offset, task);
      root, pending := Some(t), pending - multiset{x};
    }

    /** How long until something is due, counted from now: None when nothing is pending. */
    method NextDeadlineMs(now: int) returns (r: Option<nat>)
      requires Valid() && start <= now
      ensures r.None? <==> numEntries == 0
      ensures r.Some? ==> forall x :: x in pending ==> r.value <= x.offset - Ms(now - start) || r.value == 0
      ensures r.Some? && TimerWheelTurn.EndsInTask(root.value) ==>
                exists x :: x in pending && (r.value == x.offset - Ms(now - start)
                                             || r.value == 0 >= x.offset - Ms(now - start))
      ensures r.Some? && !TimerWheelTurn.EndsInTask(root.value) ==>
                exists level ::
                  0 <= level <= MAX_LEVEL && TimerWheelTurn.EndsEmpty(root.value, SLOTS * Pow64(level))
                  && r.value == Until(SLOTS * Pow64(level), Ms(now - start))
    {
      if numEntries == 0 { return None; }
      var d := TimerWheelTurn.NextDeadline(root.value);
      var elapsed := Ms(now - start);
      r := Some(if d > elapsed then d - elapsed else 0);
      if !TimerWheelTurn.EndsInTask(root.value) { ghost var level := TimerWheelTurn.EmptyEnd(root.value, d); }
      forall x | x in pending ensures d <= x.offset { assert Held(root.value, x.offset, x.task) > 0; }
      if TimerWheelTurn.EndsInTask(root.value) {
        var k: nat :| Held(root.value, d, k) > 0;
        assert Item(d, k) in pending;
      }
    }

    /** Executes what is due in the root. */
    method Fire(elapsed: nat) returns (t: Wheel, executed: seq<nat>, ghost log: seq<Item>)
      requires Valid() && root.Some?
      modifies this`pending
      ensures Holds(Some(t), pending) && Level(t) == Level(root.value)
      ensures TimerWheelExpiry.InOrder(log, executed, elapsed)
      ensures multiset(log) <= old(pending) && pending == Survivors(old(View()), log) && From(pending, elapsed)
      ensures |pending| == |old(pending)| - |executed|
    {
      t, executed, log := TimerWheelExpiry.Expire(root.value, elapsed);
      AfterExpire(root.value, t, pending, log, elapsed);
      BagMinus(pending, multiset(log));
      pending := pending - multiset(log);
    }

    /** advance_start's rotation, by the whole slots that have gone by. */
    method Advance(t: Wheel, ms: nat)
      requires Holds(Some(t), pending) && From(pending, ms) && Level(t) <= MAX_LEVEL
      modifies this`root, this`pending
      ensures Holds(root, pending) && root.Some? && Level(root.value) == Level(t)
      ensures pending == LowerAll(old(pending), RoundDown(ms, Width(t))) && |pending| == |old(pending)|
    {
      ShiftMaskLocates(ms, Level(t));
      RoundDownIs(ms, Width(t));
      LowerAllSize(pending, RoundDown(ms, Width(t)));
      var slots := if t.Leaf? then ms else Shr(ms, 6 * t.level);
      assert slots == Slot(ms, Width(t));
      var u := TimerWheelTurn.Rotate(t, slots);
      if slots < SLOTS {
        AfterRotate(t, u, pending, RoundDown(ms, Width(t)));
      } else {
        RotatedAway(t, pending, ms);
      }
      root := Some(u);
      pending := LowerAll(pending, RoundDown(ms, Width(t)));
    }

    /** Drops an empty root, or replaces it by its first child while that is its only one. */
    method TryLevelDown()
      requires Holds(root, pending) && (root.Some? ==> Level(root.value) <= MAX_LEVEL)
      modifies this`root
      ensures Holds(root, pending) && (root.Some? ==> Level(root.value) <= MAX_LEVEL) && Settled(View())
    {
      while root.Some? && TimerWheelTurn.CanLevelDown(root.value) && root.value.slotMap != 0
        invariant Holds(root, pending) && (root.Some? ==> Level(root.value) <= MAX_LEVEL)
        decreases if root.Some? then Level(root.value) else 0
      {
        var w := root.value;
        TimerWheelTurn.OnlyFirst(w);
        TimerWheelTurn.LevelDownKeeps(w);
        AfterSame(w, w.kids[0].value, pending);
        root := Some(w.kids[0].value);
      }
      if root.Some? && root.value.slotMap == 0 {
        AfterEmpty(root.value, pending);
        root := None;
      }
      if root.Some? {
        ghost var o := TimerWheelTurn.HighestNeeded(root.value);
        ghost var k: nat :| Held(root.value, o, k) > 0;
        assert Item(o, k) in pending;
      }
    }
  }

  /** How much of `d` is left when `elapsed` has gone. */
  function Until(d: nat, elapsed: nat): nat { if d > elapsed then d - elapsed else 0 }

  lemma NewWheelHolds()
    ensures Holds(Some(NewWheel(0)), multiset{})
  {
    NewWheelValid(0);
    forall o: nat, k: nat ensures Held(NewWheel(0), o, k) == 0 { EmptyHolds(NewWheel(0), o, k); }
  }

  /** Whatever level the root was raised to, the stored offset is that of the highest level. */
  lemma StoredAnywhere(level: nat, interval: nat)
    requires level <= MAX_LEVEL && (interval < SLOTS * Pow64(level) || level == MAX_LEVEL)
    ensures TimerWheelOps.StoredOffset(level, interval) == TimerWheelOps.StoredOffset(MAX_LEVEL, interval)
  {
    Pow64Mono(level, MAX_LEVEL);
  }

  lemma {:induction false} Pow64Mono(i: nat, j: nat)
    requires i <= j
    ensures Pow64(i) <= Pow64(j)
    decreases j
  {
    if i < j { Pow64Mono(i, j - 1); }
  }

  lemma RotatedAway(t: Wheel, m: multiset<Item>, ms: nat)
    requires Holds(Some(t), m) && From(m, ms) && Slot(ms, Width(t)) >= SLOTS
    ensures m == multiset{} && forall d: nat :: LowerAll(m, d) == multiset{}
  {
    SlotBefore(ms, SLOTS, Width(t));
    AtIsProduct(SLOTS, Width(t));
    PastSpanEmpty(t, m, ms);
  }
}

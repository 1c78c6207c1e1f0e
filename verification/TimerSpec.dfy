/** What the per-worker timer does to its base time, its counter and the multiset of pending items. */
module TimerSpec {
  import opened Prelude
  import opened Bitmap
  import opened TimerItems
  import opened TimerWheel
  import TimerWheelOps
  import TimerWheelExpiry
  import TimerWheelTurn

  /** Nanoseconds in a millisecond. */
  const MS: int := 1_000_000

  /** to_ms: truncated, and never negative. */
  function Ms(ns: int): nat { if ns < 0 then 0 else ns / MS }

  /** The wheel holds exactly this multiset. */
  ghost predicate Holds(root: Option<Wheel>, pending: multiset<Item>) {
    if root.None? then pending == multiset{}
    else
      && Valid(root.value) && Tidy(root.value, true)
      && forall o: nat, k: nat :: Held(root.value, o, k) == pending[Item(o, k)]
  }

  // The multiset of pending items, under the operations

  lemma EmptyBag(m: multiset<Item>)
    requires forall o: nat, k: nat :: m[Item(o, k)] == 0
    ensures m == multiset{}
  {
    forall x: Item ensures m[x] == 0 { assert m[Item(x.offset, x.task)] == 0; }
  }

  ghost function Pick(m: multiset<Item>): (x: Item)
    requires m != multiset{}
    ensures x in m
  {
    var x :| x in m; x
  }

  function Lower(x: Item, d: nat): Item { Item(if x.offset >= d then x.offset - d else 0, x.task) }

  /** Every offset lowered by `d`. */
  ghost function LowerAll(m: multiset<Item>, d: nat): multiset<Item> {
    if m == multiset{} then multiset{} else LowerAll(m - multiset{Pick(m)}, d) + multiset{Lower(Pick(m), d)}
  }

  ghost predicate From(m: multiset<Item>, d: nat) { forall x :: x in m ==> x.offset >= d }

  lemma {:induction false} LowerAllAt(m: multiset<Item>, d: nat, o: nat, k: nat)
    requires From(m, d)
    ensures LowerAll(m, d)[Item(o, k)] == m[Item(o + d, k)]
  {
    if m != multiset{} {
      var x := Pick(m);
      var rest := m - multiset{x};
      LowerAllAt(rest, d, o, k);
      assert Lower(x, d) == Item(o, k) <==> x == Item(o + d, k);
      assert LowerAll(m, d)[Item(o, k)] == LowerAll(rest, d)[Item(o, k)] + if x == Item(o + d, k) then 1 else 0;
    }
  }

  lemma {:induction false} LowerAllSize(m: multiset<Item>, d: nat)
    ensures |LowerAll(m, d)| == |m|
  {
    if m != multiset{} { LowerAllSize(m - multiset{Pick(m)}, d); }
  }

  // What the operations do to the base time, the counter and the multiset

  /** A timer as seen from outside; `width` is the root's slot width, 0 when there is no root. */
  datatype Snapshot = Snapshot(start: int, entries: nat, width: nat, pending: multiset<Item>)

  /** The interval at which add_task and remove_task look, for a deadline and the time now. */
  function Relative(start: int, now: int, deadline: int): nat {
    var due, elapsed := Ms(deadline - start), Ms(now - start);
    if due > elapsed then due - elapsed else 0
  }

  /** `r` rounded down to the slot width. */
  function RoundDown(r: nat, width: nat): nat { if width == 0 then 0 else At(Slot(r, width), width) }

  lemma RoundDownIs(r: nat, width: nat)
    requires width >= 1
    ensures RoundDown(r, width) == r - r % width && RoundDown(r, width) <= r
  {
    Locate(r, width);
    AtIsProduct(Slot(r, width), width);
    DivModUnique(r, width, Slot(r, width), Into(r, width));
  }

  /** No pending offset reaches the root's span. */
  ghost predicate InSpan(s: Snapshot) { forall x :: x in s.pending ==> x.offset < SLOTS * s.width }

  lemma RootInSpan(root: Option<Wheel>, pending: multiset<Item>, x: Item)
    requires Holds(root, pending) && x in pending
    ensures root.Some? && x.offset < SLOTS * Width(root.value)
  {
    if root.Some? {
      assert Held(root.value, x.offset, x.task) == pending[Item(x.offset, x.task)];
      if x.offset >= Span(root.value) { HeldInSpan(root.value, x.offset, x.task); }
    }
  }

  /** `width` is that of a wheel of some level. */
  predicate IsWidth(width: nat) { exists l :: 0 <= l <= MAX_LEVEL && width == Pow64(l) }

  /**
   * The root after an add: raised until it spans the interval, or is of the highest level, and no further.
   * One level less would have had a span of `now`.
   */
  predicate Raised(was: nat, interval: nat, now: nat) {
    && IsWidth(now) && now >= was && (interval < SLOTS * now || now == Pow64(MAX_LEVEL))
    && (now == was || now == 1 || now <= interval)
  }

  /**
   * The root after tasks have gone: there is none exactly when nothing is pending, and otherwise it is of the
   * lowest level that spans what is.
   */
  ghost predicate Settled(s: Snapshot) {
    && (s.width == 0 <==> s.pending == multiset{})
    && (s.width != 0 ==> IsWidth(s.width))
    && (s.width > 1 ==> exists x :: x in s.pending && x.offset >= s.width)
  }

  ghost predicate AddRel(s: Snapshot, t: Snapshot, now: int, deadline: int, task: nat) {
    && t.start == s.start && t.entries == s.entries + 1 && InSpan(t)
    && Raised(s.width, Relative(s.start, now, deadline), t.width)
    && t.pending == s.pending +
       multiset{Item(TimerWheelOps.StoredOffset(MAX_LEVEL, Relative(s.start, now, deadline)), task)}
  }

  /** The part of `s` that a poll after `r` milliseconds leaves. */
  ghost function Survivors(s: Snapshot, log: seq<Item>): multiset<Item> { s.pending - multiset(log) }

  /** Exactly what lay before `r` was executed; the others came nearer by `r` rounded down to the slot width. */
  ghost predicate Polled(s: Snapshot, t: Snapshot, r: nat, executed: seq<nat>, log: seq<Item>) {
    && t.start == s.start + r * MS
    && t.entries == (if s.entries <= |log| then 0 else s.entries - |log|)
    && TimerWheelExpiry.InOrder(log, executed, r)
    && multiset(log) <= s.pending && From(Survivors(s, log), r)
    && t.pending == LowerAll(Survivors(s, log), RoundDown(r, s.width))
    && if log == [] then t.width == s.width else Settled(t)
  }

  lemma MakePolled(s: Snapshot, t: Snapshot, r: nat, executed: seq<nat>, log: seq<Item>, kept: multiset<Item>)
    requires t.start == s.start + r * MS
    requires t.entries == if s.entries <= |executed| then 0 else s.entries - |executed|
    requires TimerWheelExpiry.InOrder(log, executed, r)
    requires multiset(log) <= s.pending && kept == Survivors(s, log) && From(kept, r)
    requires t.pending == LowerAll(kept, RoundDown(r, s.width))
    requires if executed == [] then t.width == s.width else Settled(t)
    ensures Polled(s, t, r, executed, log)
  {
  }

  ghost predicate PollAfter(s: Snapshot, t: Snapshot, r: nat, executed: seq<nat>, log: seq<Item>) {
    if s.entries == 0 || r == 0 then t == s && executed == [] && log == []
    else Polled(s, t, r, executed, log) && InSpan(t)
  }

  ghost predicate PollRel(s: Snapshot, t: Snapshot, now: int, executed: seq<nat>, log: seq<Item>) {
    PollAfter(s, t, Ms(now - s.start), executed, log)
  }

  /** Where remove_task searches: at the interval from now, modulo the span in a root of level 0. */
  function Searched(width: nat, interval: nat): nat { if width == 1 then interval % SLOTS else interval }

  /** remove_task gives up on a deadline that is not in the future; it reads the clock twice. */
  predicate Removable(s: Snapshot, now: int, later: int, deadline: int) {
    s.width > 0 && deadline > now && Ms(deadline - s.start) > Ms(later - s.start)
  }

  ghost predicate RemovedAt(s: Snapshot, t: Snapshot, interval: nat, task: nat) {
    && t.start == s.start
    && t.entries == (if s.entries == 0 then 0 else s.entries - 1)
    && t.pending == s.pending - multiset{Item(Searched(s.width, interval), task)}
    && Settled(t)
  }

  ghost predicate RemoveRel(s: Snapshot, t: Snapshot, now: int, later: int, deadline: int, task: nat) {
    if Removable(s, now, later, deadline) then RemovedAt(s, t, Relative(s.start, later, deadline), task) else t == s
  }

  lemma AfterAdd(w: Wheel, t: Wheel, m: multiset<Item>, d: nat, task: nat)
    requires Holds(Some(w), m) && Valid(t) && StaysTidy(w, t) && TimerWheelOps.Added(w, t, d, task)
    ensures Holds(Some(t), m + multiset{Item(d, task)})
  {
  }

  lemma AfterRemove(w: Wheel, t: Wheel, m: multiset<Item>, d: nat, task: nat)
    requires Holds(Some(w), m) && Valid(t) && StaysTidy(w, t) && TimerWheelOps.Removed(w, t, d, task)
    ensures Holds(Some(t), m - multiset{Item(d, task)})
  {
  }

  lemma AfterExpire(w: Wheel, t: Wheel, m: multiset<Item>, log: seq<Item>, r: nat)
    requires Holds(Some(w), m) && Valid(t) && StaysTidy(w, t)
    requires TimerWheelExpiry.Expired(w, t, r) && TimerWheelExpiry.Logged(w, log, r)
    ensures multiset(log) <= m && From(m - multiset(log), r) && Holds(Some(t), m - multiset(log))
  {
    forall x: Item ensures multiset(log)[x] == if x.offset < r then m[x] else 0 {
      TimesMultiset(log, x.offset, x.task);
      assert Held(w, x.offset, x.task) == m[Item(x.offset, x.task)];
    }
  }

  lemma AfterRotate(w: Wheel, t: Wheel, m: multiset<Item>, d: nat)
    requires Holds(Some(w), m) && Valid(t) && StaysTidy(w, t) && TimerWheelTurn.Lowered(w, t, d) && From(m, d)
    ensures Holds(Some(t), LowerAll(m, d))
  {
    forall o: nat, k: nat ensures Held(t, o, k) == LowerAll(m, d)[Item(o, k)] { LowerAllAt(m, d, o, k); }
  }

  lemma AfterSame(w: Wheel, t: Wheel, m: multiset<Item>)
    requires Holds(Some(w), m) && Valid(t) && Tidy(t, true) && TimerWheelTurn.SameContents(w, t)
    ensures Holds(Some(t), m)
  {
  }

  lemma AfterEmpty(w: Wheel, m: multiset<Item>)
    requires Holds(Some(w), m) && w.slotMap == 0
    ensures m == multiset{}
  {
    forall o: nat, k: nat ensures m[Item(o, k)] == 0 {
      EmptyHolds(w, o, k);
      assert Held(w, o, k) == m[Item(o, k)];
    }
    EmptyBag(m);
  }

  lemma PastSpanEmpty(w: Wheel, m: multiset<Item>, r: nat)
    requires Holds(Some(w), m) && From(m, r) && r >= Span(w)
    ensures m == multiset{}
  {
    forall o: nat, k: nat ensures m[Item(o, k)] == 0 {
      if o >= r { HeldInSpan(w, o, k); assert Held(w, o, k) == m[Item(o, k)]; }
    }
    EmptyBag(m);
  }

  lemma BagMinus(m: multiset<Item>, n: multiset<Item>)
    requires n <= m
    ensures |m - n| == |m| - |n|
  {
    assert m == (m - n) + n;
  }
}

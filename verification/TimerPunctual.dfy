/** How high the root of a timer is, and what that means for when tasks run. */
module TimerPunctual {
  import opened Bitmap
  import opened TimerItems
  import opened TimerSpec
  import opened TimerWheel
  import opened TimerRun
  import TimerWheelOps

  /** No task was added for an interval of `span` or more. */
  ghost predicate AllBelow(states: seq<Snapshot>, events: seq<Event>, span: nat)
    requires |states| == |events| + 1
  {
    forall i :: 0 <= i < |events| && events[i].Add? ==>
      Relative(states[i].start, events[i].now, events[i].deadline) < span
  }

  lemma {:induction false} Pow64Grows(l: nat, m: nat)
    requires m > l
    ensures Pow64(m) >= SLOTS * Pow64(l)
    decreases m
  {
    if m > l + 1 { Pow64Grows(l, m - 1); }
  }

  lemma {:induction false} Pow64Least(l: nat, m: nat)
    requires m <= l
    ensures Pow64(m) <= Pow64(l)
    decreases l
  {
    if m < l { Pow64Least(l - 1, m); }
  }

  /** A width below the span of level `l` is at most the width of that level. */
  lemma WidthWithin(width: nat, l: nat)
    requires IsWidth(width) && width < SLOTS * Pow64(l)
    ensures width <= Pow64(l)
  {
    var m :| 0 <= m <= MAX_LEVEL && width == Pow64(m);
    if m > l { Pow64Grows(l, m); } else { Pow64Least(l, m); }
  }

  lemma StepNarrow(s: Snapshot, e: Event, t: Snapshot, l: nat)
    requires Step(s, e, t) && InSpan(s) && s.width <= Pow64(l)
    requires e.Add? ==> Relative(s.start, e.now, e.deadline) < SLOTS * Pow64(l)
    ensures t.width <= Pow64(l)
  {
    if e.Add? {
      if t.width != s.width && t.width != 1 { WidthWithin(t.width, l); }
    } else {
      var r := Ms(e.now - s.start);
      if Polled(s, t, r, e.executed, e.log) && e.log != [] && t.width > 1 { PollNarrow(s, t, r, e.executed, e.log, l); }
    }
  }

  lemma PollNarrow(s: Snapshot, t: Snapshot, r: nat, executed: seq<nat>, log: seq<Item>, l: nat)
    requires Polled(s, t, r, executed, log) && log != [] && t.width > 1 && InSpan(s) && s.width <= Pow64(l)
    ensures t.width <= Pow64(l)
  {
    var x :| x in t.pending && x.offset >= t.width;
    if s.width >= 1 { RoundDownIs(r, s.width); }
    LoweredFrom(Survivors(s, log), r, RoundDown(r, s.width), x);
    WidthWithin(t.width, l);
  }

  /** While all intervals are below 64^(l + 1) ms the root is of level `l` at most. */
  lemma {:induction false} RunNarrow(states: seq<Snapshot>, events: seq<Event>, l: nat)
    requires Run(states, events) && states[0].width <= Pow64(l) && AllBelow(states, events, SLOTS * Pow64(l))
    ensures states[|events|].width <= Pow64(l)
  {
    if |events| > 0 {
      var n := |events| - 1;
      RunPrefix(states, events);
      BelowPrefix(states, events, SLOTS * Pow64(l));
      RunNarrow(states[..n + 1], events[..n], l);
      RunInSpan(states[..n + 1], events[..n]);
      assert Took(states, events, n);
      StepNarrow(states[n], events[n], states[n + 1], l);
    }
  }

  lemma BelowPrefix(states: seq<Snapshot>, events: seq<Event>, span: nat)
    requires |states| == |events| + 1 > 1 && AllBelow(states, events, span)
    ensures AllBelow(states[..|events|], events[..|events| - 1], span)
  {
  }

  /** How many polls came after event `a`. */
  function Polls(events: seq<Event>, a: nat): nat {
    if |events| <= a + 1 then 0
    else Polls(events[..|events| - 1], a) + if events[|events| - 1].Poll? then 1 else 0
  }

  /** A poll loses less than a slot, and nothing when there is no root. */
  lemma LostWithin(s: Snapshot, e: Event, l: nat)
    requires InSpan(s) && s.entries == |s.pending| && s.width <= Pow64(l)
    ensures Lost(s, e) <= if e.Poll? then Pow64(l) - 1 else 0
  {
    if s.width == 0 { NoRootNoItems(s); }
  }

  lemma NoRootNoItems(s: Snapshot)
    requires InSpan(s) && s.width == 0
    ensures s.pending == multiset{}
  {
    if s.pending != multiset{} {
      var x := Pick(s.pending);
      assert false;
    }
  }

  /** So what is lost between an add and now is bounded by the number of polls in between. */
  lemma {:induction false} LagWithin(states: seq<Snapshot>, events: seq<Event>, a: nat, l: nat)
    requires Run(states, events) && states[0].width <= Pow64(l) && AllBelow(states, events, SLOTS * Pow64(l))
    ensures Lag(states, events, a) <= Polls(events, a) * (Pow64(l) - 1)
  {
    if |events| > a + 1 {
      var n := |events| - 1;
      RunPrefix(states, events);
      BelowPrefix(states, events, SLOTS * Pow64(l));
      LagWithin(states[..n + 1], events[..n], a, l);
      RunNarrow(states[..n + 1], events[..n], l);
      RunInSpan(states[..n + 1], events[..n]);
      RunCounts(states[..n + 1], events[..n]);
      LostWithin(states[n], events[n], l);
      var p, lost := Polls(events[..n], a), Pow64(l) - 1;
      assert (p + 1) * lost == p * lost + lost;
    }
  }

  /**
   * While all intervals are below 64 ms nothing is lost: a poll executes a task exactly when the clock has passed
   * the instant stored when it was added, by a millisecond.
   */
  lemma ShortRunsOnTime(
    states: seq<Snapshot>, events: seq<Event>, a: nat, now: int, executed: seq<nat>, log: seq<Item>, t: Snapshot)
    requires Run(states, events) && a < |events| && events[a].Add?
    requires Adds(events, events[a].task) == 1 && Executions(events, events[a].task) == 0
    requires states[|events|].start <= now && PollRel(states[|events|], t, now, executed, log)
    requires states[0].width <= 1 && AllBelow(states, events, SLOTS)
    ensures events[a].task in executed <==> Due(states[a], events[a]) + MS <= now
  {
    assert Pow64(0) == 1;
    LagWithin(states, events, a, 0);
    PollExecutes(states, events, a, now, executed, log, t);
  }

  /** No poll since event `a` had a millisecond to take off. */
  ghost predicate NoneGone(states: seq<Snapshot>, events: seq<Event>, a: nat)
    requires |states| == |events| + 1
  {
    forall i :: a < i < |events| && events[i].Poll? ==> Ms(events[i].now - states[i].start) == 0
  }

  lemma {:induction false} NothingLost(states: seq<Snapshot>, events: seq<Event>, a: nat)
    requires Run(states, events) && NoneGone(states, events, a) && a < |events| && events[a].Add?
    ensures Lag(states, events, a) == 0 && states[|events|].start == states[a].start
    decreases |events|
  {
    var n := |events| - 1;
    assert Took(states, events, n);
    if n > a {
      RunPrefix(states, events);
      NothingLost(states[..n + 1], events[..n], a);
      if events[n].Poll? { RoundLoses(states[n], 0); }
    }
  }

  /** A task that is already late when it is added runs at the first poll that has a millisecond to take off. */
  lemma LateRunsNext(
    states: seq<Snapshot>, events: seq<Event>, a: nat, now: int, executed: seq<nat>, log: seq<Item>, t: Snapshot)
    requires Run(states, events) && a < |events| && events[a].Add? && NoneGone(states, events, a)
    requires Adds(events, events[a].task) == 1 && Executions(events, events[a].task) == 0
    requires states[|events|].start <= now && PollRel(states[|events|], t, now, executed, log)
    requires events[a].deadline <= events[a].now
    ensures events[a].task in executed <==> Ms(now - states[|events|].start) >= 1
  {
    NothingLost(states, events, a);
    PollExecutes(states, events, a, now, executed, log, t);
    assert Due(states[a], events[a]) == states[a].start;
  }

  /** An interval that no wheel spans is cut to the last slot of the highest level: never later than asked for. */
  lemma ClampedSooner(interval: nat)
    requires interval >= SLOTS * Pow64(MAX_LEVEL)
    ensures var d := TimerWheelOps.StoredOffset(MAX_LEVEL, interval);
            (SLOTS - 1) * Pow64(MAX_LEVEL) <= d < SLOTS * Pow64(MAX_LEVEL)
            && d % Pow64(MAX_LEVEL) == interval % Pow64(MAX_LEVEL)
  {
    var width := Pow64(MAX_LEVEL);
    AtIsProduct(SLOTS - 1, width);
    Locate(interval, width);
    AtIsProduct(Slot(interval, width), width);
    DivModUnique(interval, width, Slot(interval, width), Into(interval, width));
    DivModUnique(At(SLOTS - 1, width) + Into(interval, width), width, SLOTS - 1, Into(interval, width));
  }
}

/** What holds of every run of a timer's operations under a clock that does not go back. */
module TimerRun {
  import opened Bitmap
  import opened TimerItems
  import opened TimerSpec
  import opened TimerWheel
  import TimerWheelOps

  datatype Event =
    | Add(now: int, deadline: int, task: nat)
    | Poll(now: int, executed: seq<nat>, log: seq<Item>)

  ghost predicate Step(s: Snapshot, e: Event, t: Snapshot) {
    match e
    case Add(now, deadline, task) => AddRel(s, t, now, deadline, task)
    case Poll(now, executed, log) => PollRel(s, t, now, executed, log)
  }

  ghost predicate Took(states: seq<Snapshot>, events: seq<Event>, i: nat)
    requires i < |events| && |states| == |events| + 1
  {
    states[i].start <= events[i].now && Step(states[i], events[i], states[i + 1])
  }

  /** `states[i]` is the timer before `events[i]`; the clock never shows less than the base time. */
  ghost predicate Run(states: seq<Snapshot>, events: seq<Event>) {
    && |states| == |events| + 1
    && states[0].entries == 0 && states[0].pending == multiset{}
    && forall i :: 0 <= i < |events| ==> Took(states, events, i)
  }

  lemma RunPrefix(states: seq<Snapshot>, events: seq<Event>)
    requires Run(states, events) && |events| > 0
    ensures Run(states[..|events|], events[..|events| - 1])
  {
    var shorter, before := states[..|events|], events[..|events| - 1];
    forall i | 0 <= i < |before| ensures Took(shorter, before, i) {
      assert Took(states, events, i);
    }
  }

  // Conservation, task by task

  /** How many pending items carry task `k`. */
  ghost function Pending(m: multiset<Item>, k: nat): nat {
    if m == multiset{} then 0 else Pending(m - multiset{Pick(m)}, k) + if Pick(m).task == k then 1 else 0
  }

  /** Any item may be taken out first. */
  lemma {:induction false} PendingWithout(m: multiset<Item>, x: Item, k: nat)
    requires x in m
    ensures Pending(m, k) == Pending(m - multiset{x}, k) + if x.task == k then 1 else 0
    decreases |m|
  {
    var y := Pick(m);
    if x != y {
      PendingWithout(m - multiset{y}, x, k);
      PendingWithout(m - multiset{x}, y, k);
      assert m - multiset{y} - multiset{x} == m - multiset{x} - multiset{y};
    }
  }

  lemma PendingWith(m: multiset<Item>, x: Item, k: nat)
    ensures Pending(m + multiset{x}, k) == Pending(m, k) + if x.task == k then 1 else 0
  {
    PendingWithout(m + multiset{x}, x, k);
    assert m + multiset{x} - multiset{x} == m;
  }

  lemma {:induction false} PendingMinus(m: multiset<Item>, log: seq<Item>, k: nat)
    requires multiset(log) <= m
    ensures Pending(m, k) == Pending(m - multiset(log), k) + Occurs(Tasks(log), k)
  {
    if log == [] {
      assert m - multiset(log) == m;
    } else {
      assert log == [log[0]] + log[1..];
      PendingWithout(m, log[0], k);
      PendingMinus(m - multiset{log[0]}, log[1..], k);
      assert m - multiset{log[0]} - multiset(log[1..]) == m - multiset(log);
      assert Tasks(log)[1..] == Tasks(log[1..]);
    }
  }

  lemma {:induction false} PendingLower(m: multiset<Item>, d: nat, k: nat)
    ensures Pending(LowerAll(m, d), k) == Pending(m, k)
  {
    if m != multiset{} {
      PendingLower(m - multiset{Pick(m)}, d, k);
      PendingWith(LowerAll(m - multiset{Pick(m)}, d), Lower(Pick(m), d), k);
    }
  }

  function Adds(events: seq<Event>, k: nat): nat {
    if events == [] then 0
    else
      var e := events[|events| - 1];
      Adds(events[..|events| - 1], k) + if e.Add? && e.task == k then 1 else 0
  }

  function Executions(events: seq<Event>, k: nat): nat {
    if events == [] then 0
    else
      var e := events[|events| - 1];
      Executions(events[..|events| - 1], k) + if e.Poll? then Occurs(e.executed, k) else 0
  }

  lemma PolledConserves(s: Snapshot, t: Snapshot, r: nat, executed: seq<nat>, log: seq<Item>, k: nat)
    requires Polled(s, t, r, executed, log)
    ensures Pending(t.pending, k) + Occurs(executed, k) == Pending(s.pending, k)
  {
    PendingMinus(s.pending, log, k);
    PendingLower(Survivors(s, log), RoundDown(r, s.width), k);
  }

  lemma AddConserves(s: Snapshot, e: Event, t: Snapshot, k: nat)
    requires e.Add? && AddRel(s, t, e.now, e.deadline, e.task)
    ensures Pending(t.pending, k) == Pending(s.pending, k) + if e.task == k then 1 else 0
  {
    var stored := TimerWheelOps.StoredOffset(MAX_LEVEL, Relative(s.start, e.now, e.deadline));
    PendingWith(s.pending, Item(stored, e.task), k);
  }

  lemma PollConserves(s: Snapshot, e: Event, t: Snapshot, k: nat)
    requires e.Poll? && PollRel(s, t, e.now, e.executed, e.log)
    ensures Pending(t.pending, k) + Occurs(e.executed, k) == Pending(s.pending, k)
  {
    var r := Ms(e.now - s.start);
    if Polled(s, t, r, e.executed, e.log) { PolledConserves(s, t, r, e.executed, e.log, k); }
  }

  /** Every task added is executed, or still pending: none is lost and none executed more often than added. */
  lemma {:induction false} RunConserves(states: seq<Snapshot>, events: seq<Event>, k: nat)
    requires Run(states, events)
    ensures Adds(events, k) == Executions(events, k) + Pending(states[|events|].pending, k)
  {
    if |events| > 0 {
      var n := |events| - 1;
      RunPrefix(states, events);
      RunConserves(states[..|events|], events[..n], k);
      assert Took(states, events, n);
      if events[n].Add? {
        AddConserves(states[n], events[n], states[n + 1], k);
      } else {
        PollConserves(states[n], events[n], states[n + 1], k);
      }
    }
  }

  /** The counter is the number of pending items. */
  lemma {:induction false} RunCounts(states: seq<Snapshot>, events: seq<Event>)
    requires Run(states, events)
    ensures states[|events|].entries == |states[|events|].pending|
  {
    if |events| > 0 {
      var n := |events| - 1;
      RunPrefix(states, events);
      RunCounts(states[..|events|], events[..n]);
      assert Took(states, events, n);
      StepCounts(states[n], events[n], states[n + 1]);
    }
  }

  lemma StepCounts(s: Snapshot, e: Event, t: Snapshot)
    requires Step(s, e, t) && s.entries == |s.pending|
    ensures t.entries == |t.pending|
  {
    if e.Poll? { PollCounts(s, t, e.now, e.executed, e.log); }
  }

  lemma PollCounts(s: Snapshot, t: Snapshot, now: int, executed: seq<nat>, log: seq<Item>)
    requires PollRel(s, t, now, executed, log) && s.entries == |s.pending|
    ensures t.entries == |t.pending|
  {
    var r := Ms(now - s.start);
    if Polled(s, t, r, executed, log) { PolledCounts(s, t, r, executed, log); }
  }

  lemma PolledCounts(s: Snapshot, t: Snapshot, r: nat, executed: seq<nat>, log: seq<Item>)
    requires Polled(s, t, r, executed, log) && s.entries == |s.pending|
    ensures t.entries == |t.pending|
  {
    BagMinus(s.pending, multiset(log));
    LowerAllSize(Survivors(s, log), RoundDown(r, s.width));
  }

  // No task is executed early, measured from the base time at which it was stored

  /** The instant that an Add stores for its task. */
  function Due(s: Snapshot, e: Event): int
    requires e.Add?
  {
    s.start + TimerWheelOps.StoredOffset(MAX_LEVEL, Relative(s.start, e.now, e.deadline)) * MS
  }

  /** The milliseconds that a poll does not take off the offsets, because it takes off whole slots. */
  function LostAt(s: Snapshot, r: nat): nat {
    if s.entries == 0 then 0 else if s.width == 0 then r else Into(r, s.width)
  }

  function Lost(s: Snapshot, e: Event): nat { if e.Add? then 0 else LostAt(s, Ms(e.now - s.start)) }

  /** What the polls after event `a` lost. */
  function Lag(states: seq<Snapshot>, events: seq<Event>, a: nat): nat
    requires |states| == |events| + 1
  {
    if |events| <= a + 1 then 0
    else
      var n := |events| - 1;
      Lag(states[..n + 1], events[..n], a) + Lost(states[n], events[n])
  }

  /** The item that event `a` added: it stands for the instant stored then, later by what was lost since. */
  predicate AddedBy(states: seq<Snapshot>, events: seq<Event>, a: nat, x: Item)
    requires |states| == |events| + 1
  {
    && a < |events| && events[a].Add? && events[a].task == x.task
    && states[|events|].start + x.offset * MS == Due(states[a], events[a]) + Lag(states, events, a) * MS
  }

  /** Every pending item was put in by some Add of the run, and its offset is told by the polls since. */
  lemma {:induction false} PendingAdded(states: seq<Snapshot>, events: seq<Event>, x: Item) returns (a: nat)
    requires Run(states, events) && x in states[|events|].pending
    ensures AddedBy(states, events, a, x)
  {
    var n := |events| - 1;
    assert |events| > 0;
    assert Took(states, events, n);
    RunPrefix(states, events);
    if events[n].Add? && x !in states[n].pending {
      a := n;
    } else {
      var y := StepOrigin(states[n], events[n], states[n + 1], x);
      a := PendingAdded(states[..n + 1], events[..n], y);
      AddedEarlier(states, events, a, x, y);
    }
  }

  lemma AddedEarlier(states: seq<Snapshot>, events: seq<Event>, a: nat, x: Item, y: Item)
    requires |states| == |events| + 1 > 1
    requires var n := |events| - 1;
             && AddedBy(states[..n + 1], events[..n], a, y)
             && Stems(states[n], states[n + 1], Lost(states[n], events[n]), x, y)
    ensures AddedBy(states, events, a, x)
  {
  }

  /** The item of `s` that `x` was, before a step that lost `lost` milliseconds. */
  predicate Stems(s: Snapshot, t: Snapshot, lost: nat, x: Item, y: Item) {
    y in s.pending && y.task == x.task && t.start + x.offset * MS == s.start + y.offset * MS + lost * MS
  }

  lemma StepOrigin(s: Snapshot, e: Event, t: Snapshot, x: Item) returns (y: Item)
    requires Step(s, e, t) && x in t.pending && (e.Add? ==> x in s.pending)
    ensures Stems(s, t, Lost(s, e), x, y)
  {
    y := x;
    if e.Poll? {
      var r := Gone(s, e, t);
      y := PollOrigin(s, t, r, e.executed, e.log, x);
    }
  }

  /** The milliseconds that a poll finds gone, and what it loses of them. */
  lemma Gone(s: Snapshot, e: Event, t: Snapshot) returns (r: nat)
    requires e.Poll?
    ensures Lost(s, e) == LostAt(s, r)
    ensures PollRel(s, t, e.now, e.executed, e.log) ==> PollAfter(s, t, r, e.executed, e.log)
  {
    r := Ms(e.now - s.start);
  }

  lemma PollOrigin(s: Snapshot, t: Snapshot, r: nat, executed: seq<nat>, log: seq<Item>, x: Item) returns (y: Item)
    requires PollAfter(s, t, r, executed, log) && x in t.pending
    ensures Stems(s, t, LostAt(s, r), x, y)
  {
    y := x;
    RoundLoses(s, r);
    if s.entries != 0 && Polled(s, t, r, executed, log) { y := PolledOrigin(s, t, r, executed, log, x); }
  }

  lemma PolledOrigin(s: Snapshot, t: Snapshot, r: nat, executed: seq<nat>, log: seq<Item>, x: Item) returns (y: Item)
    requires Polled(s, t, r, executed, log) && s.entries != 0 && x in t.pending
    ensures Stems(s, t, LostAt(s, r), x, y)
  {
    RoundLoses(s, r);
    y := LoweredOrigin(s, t, r, RoundDown(r, s.width), log, x);
  }

  lemma RoundLoses(s: Snapshot, r: nat)
    ensures s.entries != 0 ==> LostAt(s, r) + RoundDown(r, s.width) == r
    ensures s.entries == 0 || r == 0 ==> LostAt(s, r) == 0
  {
    if s.width >= 1 { Locate(r, s.width); }
  }

  lemma LoweredOrigin(s: Snapshot, t: Snapshot, r: nat, d: nat, log: seq<Item>, x: Item) returns (y: Item)
    requires t.start == s.start + r * MS && d <= r && From(Survivors(s, log), r)
    requires x in t.pending && t.pending == LowerAll(Survivors(s, log), d)
    ensures Stems(s, t, r - d, x, y)
  {
    y := Item(x.offset + d, x.task);
    LoweredFrom(Survivors(s, log), r, d, x);
  }

  lemma LoweredFrom(m: multiset<Item>, r: nat, d: nat, x: Item)
    requires From(m, r) && d <= r && x in LowerAll(m, d)
    ensures Item(x.offset + d, x.task) in m
  {
    LowerAllAt(m, d, x.offset, x.task);
  }

  /**
   * When poll `j` executes an item, the clock has passed the instant stored by the Add that put
   * it in, and what the polls in between lost on top, by a millisecond at least.
   */
  lemma NeverEarly(states: seq<Snapshot>, events: seq<Event>, j: nat, i: nat) returns (a: nat)
    requires Run(states, events) && j < |events| && events[j].Poll? && i < |events[j].log|
    ensures a < j && AddedBy(states[..j + 1], events[..j], a, events[j].log[i])
    ensures Due(states[a], events[a]) + Lag(states[..j + 1], events[..j], a) * MS + MS <= events[j].now
  {
    var s, e, x := states[j], events[j], events[j].log[i];
    assert Took(states, events, j);
    assert x in multiset(e.log) && x in s.pending;
    RunUpTo(states, events, j);
    a := PendingAdded(states[..j + 1], events[..j], x);
  }

  lemma {:induction false} RunUpTo(states: seq<Snapshot>, events: seq<Event>, j: nat)
    requires Run(states, events) && j <= |events|
    ensures Run(states[..j + 1], events[..j])
    decreases |events|
  {
    if j < |events| {
      RunPrefix(states, events);
      RunUpTo(states[..|events|], events[..|events| - 1], j);
      assert states[..|events|][..j + 1] == states[..j + 1] && events[..|events| - 1][..j] == events[..j];
    } else {
      assert states[..j + 1] == states && events[..j] == events;
    }
  }

  /** In a root of level 0 an item stands for the same instant after every poll. */
  lemma LeafKeepsInstants(s: Snapshot, t: Snapshot, r: nat, executed: seq<nat>, log: seq<Item>, x: Item)
    requires Polled(s, t, r, executed, log) && s.width == 1 && x in Survivors(s, log)
    ensures Lower(x, r) in t.pending && t.start + Lower(x, r).offset * MS == s.start + x.offset * MS
  {
    RoundDownIs(r, 1);
    LoweredIn(Survivors(s, log), r, x);
  }

  lemma LoweredIn(m: multiset<Item>, d: nat, x: Item)
    requires From(m, d) && x in m
    ensures x.offset >= d && Lower(x, d) in LowerAll(m, d)
  {
    LowerAllAt(m, d, x.offset - d, x.task);
  }

  // When a poll executes a task, and when that is early: an idle timer keeps its old base time

  /**
   * A poll in any run executes a task that is pending since event `a` exactly when the clock has passed the
   * instant stored then, and what polls lost since, by a millisecond at least.  Unless the task was late or
   * too far off, that is when its interval from the base time `b` of its add, and what polls lost since, are
   * less than the milliseconds gone since `b` by now and by the add together.
   */
  lemma PollExecutes(
    states: seq<Snapshot>, events: seq<Event>, a: nat, now: int, executed: seq<nat>, log: seq<Item>, t: Snapshot)
    requires Run(states, events) && a < |events| && events[a].Add?
    requires Adds(events, events[a].task) == 1 && Executions(events, events[a].task) == 0
    requires states[|events|].start <= now && PollRel(states[|events|], t, now, executed, log)
    ensures events[a].task in executed <==> Due(states[a], events[a]) + Lag(states, events, a) * MS + MS <= now
    ensures var b, added, deadline := states[a].start, events[a].now, events[a].deadline;
            Ms(added - b) <= Ms(deadline - b) < SLOTS * Pow64(MAX_LEVEL) ==>
              (events[a].task in executed <==> Ms(deadline - b) + Lag(states, events, a) < Ms(now - b) + Ms(added - b))
  {
    var x := ItemNow(states, events, a);
    PollExecutesItem(states[|events|], t, now, executed, log, x);
    DueIsInterval(states[a], events[a], states[|events|].start, now, x.offset, Lag(states, events, a));
  }

  /** The only pending item of a task is executed exactly when it lies before the milliseconds gone. */
  lemma PollExecutesItem(s: Snapshot, t: Snapshot, now: int, executed: seq<nat>, log: seq<Item>, x: Item)
    requires PollRel(s, t, now, executed, log) && s.entries == |s.pending|
    requires x in s.pending && forall y :: y in s.pending && y.task == x.task ==> y == x
    ensures x.task in executed <==> x.offset < Ms(now - s.start)
  {
    var r := Ms(now - s.start);
    if r != 0 && Polled(s, t, r, executed, log) { PolledExecutesItem(s, t, r, executed, log, x); }
  }

  lemma PolledExecutesItem(s: Snapshot, t: Snapshot, r: nat, executed: seq<nat>, log: seq<Item>, x: Item)
    requires Polled(s, t, r, executed, log)
    requires x in s.pending && forall y :: y in s.pending && y.task == x.task ==> y == x
    ensures x.task in executed <==> x.offset < r
  {
    if x.offset < r {
      assert x !in Survivors(s, log);
      assert x in multiset(log);
      var i :| 0 <= i < |log| && log[i] == x;
      assert Tasks(log)[i] == x.task;
    }
    if x.task in executed {
      var i :| 0 <= i < |executed| && executed[i] == x.task;
      assert log[i] in multiset(log) && log[i] in s.pending;
    }
  }

  /** Offsets and instants: base times differ by whole milliseconds. */
  lemma DueIsInterval(first: Snapshot, e: Event, start: int, now: int, offset: nat, lag: nat)
    requires e.Add? && first.start <= start <= now && start + offset * MS == Due(first, e) + lag * MS
    ensures offset < Ms(now - start) <==> Due(first, e) + lag * MS + MS <= now
    ensures Ms(e.now - first.start) <= Ms(e.deadline - first.start) < SLOTS * Pow64(MAX_LEVEL) ==>
              (offset < Ms(now - start) <==>
               Ms(e.deadline - first.start) + lag < Ms(now - first.start) + Ms(e.now - first.start))
  {
    var stored := TimerWheelOps.StoredOffset(MAX_LEVEL, Relative(first.start, e.now, e.deadline));
    var moved := stored + lag - offset;
    assert start == first.start + moved * MS;
    assert Ms(now - start) == Ms(now - first.start) - moved;
  }

  /**
   * A task added with no millisecond gone since the base time is never executed before its deadline, by any
   * poll of any run.
   */
  lemma OnTimeIfNoneGone(states: seq<Snapshot>, events: seq<Event>, j: nat, i: nat) returns (a: nat)
    requires Run(states, events) && j < |events| && events[j].Poll? && i < |events[j].log|
    ensures a < j && AddedBy(states[..j + 1], events[..j], a, events[j].log[i])
    ensures var first, e := states[a], events[a];
            Ms(e.now - first.start) == 0 && Ms(e.deadline - first.start) < SLOTS * Pow64(MAX_LEVEL) ==>
              e.deadline < events[j].now
  {
    a := NeverEarly(states, events, j, i);
    DueAtDeadline(states[a], events[a]);
  }

  lemma DueAtDeadline(s: Snapshot, e: Event)
    requires e.Add?
    ensures Ms(e.now - s.start) == 0 && Ms(e.deadline - s.start) < SLOTS * Pow64(MAX_LEVEL) ==>
              e.deadline < Due(s, e) + MS
  {
  }

  /** The same for the poll that comes right after the add, with no other event in between. */
  lemma NextPollExecutes(
    s: Snapshot, t: Snapshot, u: Snapshot, added: int, deadline: int, k: nat, r: nat, executed: seq<nat>,
    log: seq<Item>)
    requires AddRel(s, t, added, deadline, k) && Pending(s.pending, k) == 0 && Polled(t, u, r, executed, log)
    ensures k in executed <==> TimerWheelOps.StoredOffset(MAX_LEVEL, Relative(s.start, added, deadline)) < r
    ensures Ms(added - s.start) <= Ms(deadline - s.start) < SLOTS * Pow64(MAX_LEVEL) ==>
              (k in executed <==> Ms(deadline - s.start) < r + Ms(added - s.start))
  {
    NewestIs(s, t, u, added, deadline, k, r, executed, log);
  }

  lemma NewestIs(
    s: Snapshot, t: Snapshot, u: Snapshot, added: int, deadline: int, k: nat, r: nat, executed: seq<nat>,
    log: seq<Item>)
    requires AddRel(s, t, added, deadline, k) && Pending(s.pending, k) == 0 && Polled(t, u, r, executed, log)
    ensures k in executed <==> TimerWheelOps.StoredOffset(MAX_LEVEL, Relative(s.start, added, deadline)) < r
  {
    var stored := TimerWheelOps.StoredOffset(MAX_LEVEL, Relative(s.start, added, deadline));
    if Polled(t, u, r, executed, log) { NewestExecutes(s.pending, t, u, Item(stored, k), r, executed, log); }
  }

  lemma NewestExecutes(
    m: multiset<Item>, t: Snapshot, u: Snapshot, x: Item, r: nat, executed: seq<nat>, log: seq<Item>)
    requires t.pending == m + multiset{x} && Pending(m, x.task) == 0 && Polled(t, u, r, executed, log)
    ensures x.task in executed <==> x.offset < r
  {
    if x.offset < r {
      assert x in t.pending && x !in Survivors(t, log);
      assert x in multiset(log);
      var i :| 0 <= i < |log| && log[i] == x;
      assert Tasks(log)[i] == x.task;
    }
    if x.task in executed {
      var i :| 0 <= i < |executed| && executed[i] == x.task;
      assert log[i] in multiset(log) && log[i] in t.pending;
      if log[i] in m { PendingWithout(m, log[i], x.task); }
    }
  }

  lemma TopSpan()
    ensures Pow64(MAX_LEVEL) == 64 * 64 * 64 * 64 * 64 * 64
  {
    assert Pow64(4) == 64 * Pow64(3) && Pow64(3) == 64 * 64 * 64 * Pow64(0);
  }

  /** A timer idle for a second executes a task 99 ms before its deadline. */
  lemma IdleFiresEarly()
    ensures var idle := Snapshot(0, 0, 0, multiset{});
            var full := Snapshot(0, 1, 64, multiset{Item(100, 7)});
            && AddRel(idle, full, 1000 * MS, 1100 * MS, 7)
            && PollRel(full, Snapshot(1001 * MS, 0, 0, multiset{}), 1001 * MS, [7], [Item(100, 7)])
  {
    TopSpan();
    assert multiset([Item(100, 7)]) == multiset{Item(100, 7)};
    assert multiset{} + multiset{Item(100, 7)} == multiset{Item(100, 7)};
  }

  // remove_task

  /** A removal changes nothing when the deadline is not in the future, by either reading of the clock. */
  lemma RemoveGivesUp(s: Snapshot, t: Snapshot, now: int, later: int, deadline: int, task: nat)
    requires RemoveRel(s, t, now, later, deadline, task)
    requires s.width == 0 || deadline <= now || Ms(deadline - s.start) <= Ms(later - s.start)
    ensures t == s
  {
  }

  /** Removal keeps the counter exact if and only if the item is where it is searched for. */
  lemma RemoveCounts(s: Snapshot, t: Snapshot, now: int, later: int, deadline: int, task: nat)
    requires RemoveRel(s, t, now, later, deadline, task)
    requires s.width > 0 && deadline > now && Ms(deadline - s.start) > Ms(later - s.start)
    requires s.entries == |s.pending| > 0
    ensures t.entries == |t.pending| <==>
            Item(Searched(s.width, Relative(s.start, later, deadline)), task) in s.pending
  {
  }

  /**
   * A task stored at `added` is searched for where it was stored, with no poll in between,
   * if and only if the clock still shows the same millisecond since the base time.
   */
  lemma RemoveLooksWhereStored(start: int, added: int, later: int, deadline: int, width: nat)
    requires start <= added <= later && width >= 1
    requires Relative(start, added, deadline) < (if width == 1 then SLOTS else SLOTS * Pow64(MAX_LEVEL))
    requires Ms(deadline - start) > Ms(later - start)
    ensures Searched(width, Relative(start, later, deadline)) ==
            TimerWheelOps.StoredOffset(MAX_LEVEL, Relative(start, added, deadline)) <==>
            Ms(later - start) == Ms(added - start)
  {
  }

  lemma {:induction false} RunInSpan(states: seq<Snapshot>, events: seq<Event>)
    requires Run(states, events)
    ensures InSpan(states[|events|])
  {
    if |events| > 0 {
      RunPrefix(states, events);
      RunInSpan(states[..|events|], events[..|events| - 1]);
      assert Took(states, events, |events| - 1);
    }
  }

  /** The base time does not go back. */
  lemma {:induction false} StartGrows(states: seq<Snapshot>, events: seq<Event>, a: nat)
    requires Run(states, events) && a <= |events|
    ensures states[a].start <= states[|events|].start
  {
    if a < |events| {
      RunPrefix(states, events);
      StartGrows(states[..|events|], events[..|events| - 1], a);
      assert Took(states, events, |events| - 1);
    }
  }

  /** A task number added once is added by one event. */
  lemma {:induction false} AddedOnce(events: seq<Event>, a: nat, b: nat, k: nat)
    requires a < b < |events| && events[a].Add? && events[b].Add? && events[a].task == k == events[b].task
    ensures Adds(events, k) >= 2
  {
    var n := |events| - 1;
    if b < n { AddedOnce(events[..n], a, b, k); } else { AddedAtLeast(events[..n], a, k); }
  }

  lemma {:induction false} AddedAtLeast(events: seq<Event>, a: nat, k: nat)
    requires a < |events| && events[a].Add? && events[a].task == k
    ensures Adds(events, k) >= 1
  {
    if a < |events| - 1 { AddedAtLeast(events[..|events| - 1], a, k); }
  }

  lemma {:induction false} PendingMember(m: multiset<Item>, k: nat) returns (x: Item)
    requires Pending(m, k) > 0
    ensures x in m && x.task == k
    decreases |m|
  {
    x := Pick(m);
    if x.task != k { x := PendingMember(m - multiset{x}, k); }
  }

  /** A task added once and not yet executed is pending once, and its offset is told by the polls since. */
  lemma OnlyItem(states: seq<Snapshot>, events: seq<Event>, a: nat) returns (x: Item)
    requires Run(states, events) && a < |events| && events[a].Add?
    requires Adds(events, events[a].task) == 1 && Executions(events, events[a].task) == 0
    ensures x in states[|events|].pending && AddedBy(states, events, a, x)
    ensures forall y :: y in states[|events|].pending && y.task == x.task ==> y == x
  {
    var k := events[a].task;
    RunConserves(states, events, k);
    x := PendingMember(states[|events|].pending, k);
    forall y | y in states[|events|].pending && y.task == k ensures AddedBy(states, events, a, y) {
      var b := PendingAdded(states, events, y);
      if a < b { AddedOnce(events, a, b, k); } else if b < a { AddedOnce(events, b, a, k); }
    }
  }

  /** `later` is as far past the base time as the add `e` was past its own, less `lag`; modulo the span of a leaf. */
  predicate InStep(s: Snapshot, first: Snapshot, e: Event, later: int, lag: nat)
    requires e.Add?
  {
    var shift := Ms(later - s.start) + lag - Ms(e.now - first.start);
    if s.width == 1 then shift % SLOTS == 0 else shift == 0
  }

  /**
   * Removing a task after any adds and polls keeps the counter exact if and only if the clock shows as
   * many milliseconds past the base time as it did when the task was added, less what polls lost
   * since; modulo the span if the root is of level 0.
   */
  lemma RemovesIfAligned(states: seq<Snapshot>, events: seq<Event>, a: nat, now: int, later: int, t: Snapshot)
    requires Run(states, events) && a < |events| && events[a].Add?
    requires Adds(events, events[a].task) == 1 && Executions(events, events[a].task) == 0
    requires Relative(states[a].start, events[a].now, events[a].deadline) < SLOTS * Pow64(MAX_LEVEL)
    requires Ms(events[a].deadline - states[a].start) >= Ms(events[a].now - states[a].start)
    requires var s := states[|events|];
             && s.width > 0 && events[a].deadline > now && Ms(events[a].deadline - s.start) > Ms(later - s.start)
             && RemoveRel(s, t, now, later, events[a].deadline, events[a].task)
    ensures t.entries == |t.pending| <==> InStep(states[|events|], states[a], events[a], later, Lag(states, events, a))
  {
    var x := ItemNow(states, events, a);
    var s, e := states[|events|], events[a];
    RemovalCounts(s, t, now, later, e.deadline, e.task);
    SearchedIf(s, states[a], e, later, x, Lag(states, events, a));
  }

  lemma ItemNow(states: seq<Snapshot>, events: seq<Event>, a: nat) returns (x: Item)
    requires Run(states, events) && a < |events| && events[a].Add?
    requires Adds(events, events[a].task) == 1 && Executions(events, events[a].task) == 0
    ensures var s := states[|events|];
            && states[a].start <= s.start && s.entries == |s.pending| && InSpan(s)
            && x in s.pending && x.task == events[a].task && (forall y :: y in s.pending && y.task == x.task ==> y == x)
            && s.start + x.offset * MS == Due(states[a], events[a]) + Lag(states, events, a) * MS
  {
    x := OnlyItem(states, events, a);
    RunCounts(states, events);
    RunInSpan(states, events);
    StartGrows(states, events, a);
  }

  /** RemoveCounts as an implication. */
  lemma RemovalCounts(s: Snapshot, t: Snapshot, now: int, later: int, deadline: int, task: nat)
    ensures RemoveRel(s, t, now, later, deadline, task) && s.entries == |s.pending| > 0 && s.width > 0
            && deadline > now && Ms(deadline - s.start) > Ms(later - s.start) ==>
              (t.entries == |t.pending| <==>
               Item(Searched(s.width, Relative(s.start, later, deadline)), task) in s.pending)
  {
  }

  lemma SearchedIf(s: Snapshot, first: Snapshot, e: Event, later: int, x: Item, lag: nat)
    requires e.Add? && first.start <= s.start && InSpan(s) && Ms(e.deadline - s.start) > Ms(later - s.start)
    requires Relative(first.start, e.now, e.deadline) < SLOTS * Pow64(MAX_LEVEL)
    requires Ms(e.deadline - first.start) >= Ms(e.now - first.start)
    requires x in s.pending && x.task == e.task && forall y :: y in s.pending && y.task == x.task ==> y == x
    requires s.start + x.offset * MS == Due(first, e) + lag * MS
    ensures Item(Searched(s.width, Relative(s.start, later, e.deadline)), e.task) in s.pending <==>
            InStep(s, first, e, later, lag)
  {
    Aligned(first.start, s.start, e.now, later, e.deadline, x.offset, lag, s.width);
  }

  /** Where the item is, and where it is searched for, by the base times then and now. */
  lemma Aligned(first: int, start: int, added: int, later: int, deadline: int, offset: nat, lag: nat, width: nat)
    requires Ms(deadline - first) >= Ms(added - first) && Ms(deadline - start) > Ms(later - start)
    requires start + offset * MS == first + (Ms(deadline - first) - Ms(added - first)) * MS + lag * MS
    requires deadline >= first && offset < SLOTS * width
    ensures var shift := Ms(later - start) + lag - Ms(added - first);
            Searched(width, Relative(start, later, deadline)) == offset <==>
            if width == 1 then shift % SLOTS == 0 else shift == 0
  {
    var moved := Ms(deadline - first) - Ms(added - first) + lag - offset;
    assert start == first + moved * MS;
    assert Ms(deadline - start) == Ms(deadline - first) - moved;
  }

  /**
   * The counter does go wrong.  Task 7, stored for 10 ms at time 0, is searched for at 7 ms when it is
   * removed 3 ms later, and stays in the wheel uncounted; as long as the counter is 0 no poll
   * executes anything.
   */
  lemma RemoveMisses(now: int, executed: seq<nat>, log: seq<Item>, u: Snapshot)
    ensures var s := Snapshot(0, 1, 1, multiset{Item(10, 7)});
            var t := s.(entries := 0);
            && AddRel(Snapshot(0, 0, 0, multiset{}), s, 0, 10 * MS, 7)
            && RemoveRel(s, t, 3 * MS, 3 * MS, 10 * MS, 7)
            && (PollRel(t, u, now, executed, log) ==> u == t && executed == [])
  {
    TopSpan();
    assert multiset{} + multiset{Item(10, 7)} == multiset{Item(10, 7)};
    assert multiset{Item(10, 7)} - multiset{Item(7, 7)} == multiset{Item(10, 7)};
  }

  /**
   * From there a live task is stranded.  Task 8 is added, a poll executes the removed task 7, and the counter
   * is 0 with task 8 pending: no poll executes it until something else is added.
   */
  lemma RemoveStrands(now: int, executed: seq<nat>, log: seq<Item>, u: Snapshot)
    ensures var missed := Snapshot(0, 0, 1, multiset{Item(10, 7)});
            var added := Snapshot(0, 1, 1, multiset{Item(10, 7), Item(20, 8)});
            var polled := Snapshot(15 * MS, 0, 1, multiset{Item(5, 8)});
            && AddRel(missed, added, 3 * MS, 23 * MS, 8)
            && PollRel(added, polled, 15 * MS, [7], [Item(10, 7)])
            && (PollRel(polled, u, now, executed, log) ==> u == polled && executed == [])
  {
    AddedAt3();
    PolledAt15();
  }

  lemma AddedAt3()
    ensures AddRel(Snapshot(0, 0, 1, multiset{Item(10, 7)}), Snapshot(0, 1, 1, multiset{Item(10, 7), Item(20, 8)}),
                   3 * MS, 23 * MS, 8)
  {
    TopSpan();
    assert multiset{Item(10, 7)} + multiset{Item(20, 8)} == multiset{Item(10, 7), Item(20, 8)};
  }

  lemma PolledAt15()
    ensures Polled(Snapshot(0, 1, 1, multiset{Item(10, 7), Item(20, 8)}), Snapshot(15 * MS, 0, 1, multiset{Item(5, 8)}),
                   15, [7], [Item(10, 7)])
  {
    var log := [Item(10, 7)];
    assert Pow64(0) == 1;
    assert multiset(log) == multiset{Item(10, 7)};
    assert multiset{Item(10, 7), Item(20, 8)} - multiset(log) == multiset{Item(20, 8)};
    RoundDownIs(15, 1);
    LowerOne(Item(20, 8), 15);
  }

  lemma LowerOne(x: Item, d: nat)
    ensures LowerAll(multiset{x}, d) == multiset{Lower(x, d)}
  {
    assert Pick(multiset{x}) == x && multiset{x} - multiset{x} == multiset{};
  }
}

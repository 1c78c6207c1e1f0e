/** Left alone, searching, executing, falling asleep, waking another and waking by oneself do what they are for. */
module IdleWorkersAlone {
  import opened Prelude
  import opened IdleWorkers

  /** The state after `k` steps of agent `a` alone. */
  function Alone(s: State, a: nat, k: nat): State
    decreases k
  {
    if k == 0 then s else Alone(Next(s, Act(a, Go)), a, k - 1)
  }

  function Turns(a: nat, k: nat): seq<Action> { seq(k, i => Act(a, Go)) }

  lemma {:induction false} RunApart(s: State, first: Action, rest: seq<Action>)
    ensures Run(s, [first] + rest) == Run(Next(s, first), rest)
    decreases |rest|
  {
    var all := [first] + rest;
    if rest != [] {
      assert all[..|all| - 1] == [first] + rest[..|rest| - 1] && all[|all| - 1] == rest[|rest| - 1];
      RunApart(s, first, rest[..|rest| - 1]);
    }
  }

  /** It is a run. */
  lemma {:induction false} AloneRuns(s: State, a: nat, k: nat)
    ensures Alone(s, a, k) == Run(s, Turns(a, k))
    decreases k
  {
    if k > 0 {
      AloneRuns(Next(s, Act(a, Go)), a, k - 1);
      assert Turns(a, k) == [Act(a, Go)] + Turns(a, k - 1);
      RunApart(s, Act(a, Go), Turns(a, k - 1));
    }
  }

  /** Agent `a` stands as given. */
  function With(s: State, a: nat, flag: bool, pc: PC): State
    requires a < |s.agents|
  {
    s.(agents := s.agents[a := Agent(flag, pc)])
  }

  /** What an agent between two operations, or asleep, begins. */
  lemma Begins(s: State, a: nat)
    requires a < s.workers && a < |s.agents|
    ensures var flag := s.agents[a].flag;
            && (s.agents[a].pc.Awake? ==>
                  && Next(s, Act(a, WakeOne)) == With(s, a, flag, Notifying(false, FirstSearching))
                  && Next(s, Act(a, Sleep)) == With(s, a, flag, FallingAsleep(SleepLock))
                  && Next(s, Act(a, Search)) == (if flag then s else With(s, a, flag, Searching(LoadSearching)))
                  && Next(s, Act(a, Execute)) == if flag then With(s, a, flag, Executing(LowerFlag)) else s)
            && (s.agents[a].pc.Asleep? ==>
                  && Next(s, Act(a, HasTask)) == With(s, a, flag, Cancelling(CancelLock))
                  && Next(s, Act(a, NoTask)) == With(s, a, flag, Inspecting(ContainsLock)))
  {
  }

  /** A worker that wants to search does so exactly while fewer than half of the workers search. */
  lemma SearchAlone(s: State, a: nat)
    requires a < s.workers && a < |s.agents| && s.agents[a] == Agent(false, Searching(LoadSearching))
    ensures Alone(s, a, if 2 * s.searching < s.workers then 3 else 1) ==
            if 2 * s.searching < s.workers then With(s, a, true, Awake).(searching := Inc(s.searching))
            else With(s, a, false, Awake)
  {
    if 2 * s.searching < s.workers {
      var t := Next(s, Act(a, Go));
      var u := Next(t, Act(a, Go));
      assert Alone(s, a, 3) == Alone(t, a, 2) == Alone(u, a, 1) == Alone(Next(u, Act(a, Go)), a, 0);
      assert Next(u, Act(a, Go)).agents == s.agents[a := Agent(true, Awake)];
    } else {
      assert Alone(s, a, 1) == Alone(Next(s, Act(a, Go)), a, 0);
    }
  }

  /** A searching worker that starts to execute gives up its role, and the last of them goes on to wake another. */
  lemma ExecuteAlone(s: State, a: nat)
    requires a < |s.agents| && s.agents[a] == Agent(true, Executing(LowerFlag))
    ensures Alone(s, a, 2) ==
            With(s, a, false, if s.searching == 1 then Notifying(false, FirstSearching) else Awake)
            .(searching := Dec(s.searching))
  {
    var t := Next(s, Act(a, Go));
    assert Alone(s, a, 2) == Alone(t, a, 1) == Alone(Next(t, Act(a, Go)), a, 0);
    assert t.agents == s.agents[a := Agent(false, Executing(DecSearching))];
  }

  /** worker_to_notify: whether it wakes a worker. */
  predicate Wakes(s: State) { s.searching == 0 && s.working < s.workers && s.sleepers != [] }

  /** The locked section, from its second look at the counters. */
  lemma LockedAlone(s: State, a: nat, asleep: bool)
    requires a < |s.agents| && s.agents[a].pc == Notifying(asleep, SecondSearching) && s.lock == Some(a)
    requires s.searching == 0 && s.working < s.workers
    ensures var t := With(s, a, s.agents[a].flag, if asleep then Asleep else Awake).(lock := None);
            Alone(s, a, if s.sleepers == [] then 4 else 7) ==
            if s.sleepers == [] then t
            else t.(working := Inc(s.working), searching := Inc(s.searching),
                    sleepers := s.sleepers[..|s.sleepers| - 1])
  {
    var s2 := Next(s, Act(a, Go));
    var s3 := Next(s2, Act(a, Go));
    var s4 := Next(s3, Act(a, Go));
    if s.sleepers == [] {
      assert Alone(s, a, 4) == Alone(s2, a, 3) == Alone(s3, a, 2) == Alone(s4, a, 1);
      assert s4.agents == s.agents[a := Agent(s.agents[a].flag, Notifying(asleep, NotifyUnlock))];
      assert Alone(s4, a, 1) == Alone(Next(s4, Act(a, Go)), a, 0);
    } else {
      assert Alone(s, a, 7) == Alone(s2, a, 6) == Alone(s3, a, 5) == Alone(s4, a, 4);
      assert s4.agents == s.agents[a := Agent(s.agents[a].flag, Notifying(asleep, AddWorking))];
      ChosenAlone(s4, a, asleep);
    }
  }

  lemma ChosenAlone(s: State, a: nat, asleep: bool)
    requires a < |s.agents| && s.agents[a].pc == Notifying(asleep, AddWorking) && s.sleepers != []
    ensures Alone(s, a, 4) ==
            With(s, a, s.agents[a].flag, if asleep then Asleep else Awake)
            .(working := Inc(s.working), searching := Inc(s.searching),
              sleepers := s.sleepers[..|s.sleepers| - 1], lock := None)
  {
    var s2 := Next(s, Act(a, Go));
    var s3 := Next(s2, Act(a, Go));
    var s4 := Next(s3, Act(a, Go));
    assert Alone(s, a, 4) == Alone(s2, a, 3) == Alone(s3, a, 2) == Alone(s4, a, 1) == Alone(Next(s4, Act(a, Go)), a, 0);
    assert s4.agents == s.agents[a := Agent(s.agents[a].flag, Notifying(asleep, NotifyUnlock))];
  }

  /**
   * worker_to_notify, with the mutex free: if nobody searches, a worker does not work and one is on the sleeper
   * list, the last of the list leaves it and is counted as working and as searching; otherwise nothing changes.
   */
  lemma WakeAlone(s: State, a: nat, asleep: bool) returns (k: nat)
    requires a < |s.agents| && s.agents[a].pc == Notifying(asleep, FirstSearching) && s.lock.None?
    ensures var t := With(s, a, s.agents[a].flag, if asleep then Asleep else Awake);
            Alone(s, a, k) ==
            if Wakes(s) then
              t.(working := Inc(s.working), searching := 1, sleepers := s.sleepers[..|s.sleepers| - 1])
            else t
  {
    var s2 := Next(s, Act(a, Go));
    if s.searching != 0 {
      k := 1;
      assert Alone(s, a, 1) == Alone(s2, a, 0);
    } else {
      var s3 := Next(s2, Act(a, Go));
      if s.working >= s.workers {
        k := 2;
        assert Alone(s, a, 2) == Alone(s2, a, 1) == Alone(s3, a, 0);
        assert s3.agents == s.agents[a := Agent(s.agents[a].flag, if asleep then Asleep else Awake)];
      } else {
        var s4 := Next(s3, Act(a, Go));
        k := if s.sleepers == [] then 7 else 10;
        assert Alone(s, a, k) == Alone(s2, a, k - 1) == Alone(s3, a, k - 2) == Alone(s4, a, k - 3);
        assert s4.agents == s.agents[a := Agent(s.agents[a].flag, Notifying(asleep, SecondSearching))];
        LockedAlone(s4, a, asleep);
      }
    }
  }

  /** A worker falls asleep: last on the list, no longer working or searching, and told if it was the last to search. */
  lemma FallAsleepAlone(s: State, a: nat) returns (k: nat, t: State)
    requires a < |s.agents| && s.agents[a].pc == FallingAsleep(SleepLock) && s.lock.None?
    ensures var flag := s.agents[a].flag;
            && t == Alone(s, a, k)
            && t == With(s, a, flag, FallingAsleep(ResetFlag(flag && s.searching == 1)))
                    .(working := Dec(s.working), searching := if flag then Dec(s.searching) else s.searching,
                      sleepers := s.sleepers + [a])
  {
    var flag := s.agents[a].flag;
    var s2 := Next(s, Act(a, Go));
    var s3 := Next(s2, Act(a, Go));
    var s4 := if flag then Next(s3, Act(a, Go)) else s3;
    var s5 := Next(s4, Act(a, Go));
    var last := flag && s.searching == 1;
    assert s4.agents == s.agents[a := Agent(flag, FallingAsleep(PushSelf(last)))];
    k := if flag then 5 else 4;
    t := Next(s5, Act(a, Go));
    assert Alone(s, a, k) == Alone(s2, a, k - 1) == Alone(s3, a, k - 2) == Alone(s4, a, 2) == Alone(s5, a, 1);
    assert Alone(s5, a, 1) == Alone(t, a, 0);
    assert t.agents == s.agents[a := Agent(flag, FallingAsleep(ResetFlag(last)))];
  }

  /** Only the last that searched looks for work again before it sleeps, and wakes another if there is some. */
  lemma AsleepOrWaking(s: State, a: nat, last: bool, op: Op)
    requires a < |s.agents| && s.agents[a].pc == FallingAsleep(ResetFlag(last))
    ensures Next(s, Act(a, op)) ==
            With(s, a, false, if last && op == HasTask then Notifying(true, FirstSearching) else Asleep)
  {
  }

  /** A sleeper that has a task takes itself off the list, once; if it was not on it, it has been chosen to search. */
  lemma CancelAlone(s: State, a: nat)
    requires a < |s.agents| && s.agents[a].pc == Cancelling(CancelLock) && s.lock.None?
    ensures var found := a in s.sleepers;
            Alone(s, a, 4) ==
            With(s, a, !found, Awake)
            .(sleepers := RemoveFirst(s.sleepers, a), cancels := if found then s.cancels + 1 else s.cancels)
  {
    var s2 := Next(s, Act(a, Go));
    var s3 := Next(s2, Act(a, Go));
    var s4 := Next(s3, Act(a, Go));
    assert Alone(s, a, 4) == Alone(s2, a, 3) == Alone(s3, a, 2) == Alone(s4, a, 1) == Alone(Next(s4, Act(a, Go)), a, 0);
    assert s4.agents == s.agents[a := Agent(s.agents[a].flag, Cancelling(CancelFlag(a in s.sleepers)))];
  }

  /** A sleeper without a task sleeps on while it is on the list, and searches once it is not. */
  lemma InspectAlone(s: State, a: nat)
    requires a < |s.agents| && s.agents[a].pc == Inspecting(ContainsLock) && s.lock.None?
    ensures if a in s.sleepers then Alone(s, a, 3) == With(s, a, s.agents[a].flag, Asleep)
            else Alone(s, a, 4) == With(s, a, true, Awake)
  {
    var s2 := Next(s, Act(a, Go));
    var s3 := Next(s2, Act(a, Go));
    var s4 := Next(s3, Act(a, Go));
    assert Alone(s, a, 3) == Alone(s2, a, 2) == Alone(s3, a, 1) == Alone(s4, a, 0);
    assert Alone(s, a, 4) == Alone(s2, a, 3) == Alone(s3, a, 2) == Alone(s4, a, 1) == Alone(Next(s4, Act(a, Go)), a, 0);
    assert s4.agents ==
           s.agents[a := Agent(s.agents[a].flag, if a in s.sleepers then Asleep else Inspecting(ContainsFlag))];
  }

  // From any state

  /** How many steps of its own an agent still needs at most. */
  function Rank(pc: PC): nat {
    match pc
    case Searching(p) => if p.LoadSearching? then 3 else if p.IncSearching? then 2 else 1
    case Notifying(_, p) => NotifyRank(p)
    case Executing(p) => if p.LowerFlag? then 13 else 12
    case FallingAsleep(p) =>
      match p {
        case SleepLock => 6
        case DecWorking => 5
        case DecBoth => 4
        case PushSelf(_) => 3
        case SleepUnlock(_) => 2
        case ResetFlag(_) => 1
      }
    case Cancelling(p) => if p.CancelLock? then 4 else if p.Erase? then 3 else if p.CancelUnlock? then 2 else 1
    case Inspecting(p) => if p.ContainsLock? then 4 else if p.Test? then 3 else if p.ContainsUnlock? then 2 else 1
    case _ => 0
  }

  function NotifyRank(p: NotifyPC): nat {
    match p
    case FirstSearching => 10
    case FirstWorking => 9
    case NotifyLock => 8
    case SecondSearching => 7
    case SecondWorking => 6
    case AnySleeper => 5
    case AddWorking => 4
    case AddSearching => 3
    case PopSleeper => 2
    case NotifyUnlock => 1
  }

  predicate NeedsLock(pc: PC) {
    match pc
    case Notifying(_, p) => p.NotifyLock? || p.FirstSearching? || p.FirstWorking?
    case Executing(_) => true
    case FallingAsleep(p) => p.SleepLock?
    case Cancelling(p) => p.CancelLock?
    case Inspecting(p) => p.ContainsLock?
    case _ => false
  }

  lemma RankFalls(s: State, a: nat)
    requires a < |s.agents| && Rank(s.agents[a].pc) > 0 && (NeedsLock(s.agents[a].pc) ==> s.lock.None?)
    ensures var t := Next(s, Act(a, Go));
            && |t.agents| == |s.agents| && Rank(t.agents[a].pc) < Rank(s.agents[a].pc)
            && (NeedsLock(t.agents[a].pc) ==> t.lock.None?)
  {
    match s.agents[a].pc
    case Notifying(asleep, p) => NotifyFalls(s, a, asleep, p);
    case FallingAsleep(p) => SleepFalls(s, a, p);
    case _ =>
  }

  lemma NotifyFalls(s: State, a: nat, asleep: bool, p: NotifyPC)
    requires a < |s.agents| && s.agents[a].pc == Notifying(asleep, p) && (NeedsLock(s.agents[a].pc) ==> s.lock.None?)
    ensures var t := NotifyStep(s, a, asleep, p);
            && |t.agents| == |s.agents| && Rank(t.agents[a].pc) < NotifyRank(p)
            && (NeedsLock(t.agents[a].pc) ==> t.lock.None?)
  {
  }

  lemma SleepFalls(s: State, a: nat, p: SleepPC)
    requires a < |s.agents| && s.agents[a].pc == FallingAsleep(p) && (p.SleepLock? ==> s.lock.None?)
    ensures var t := SleepStep(s, a, p, Go);
            && |t.agents| == |s.agents| && Rank(t.agents[a].pc) < Rank(s.agents[a].pc)
            && (NeedsLock(t.agents[a].pc) ==> t.lock.None?)
  {
  }

  /** Unless another holds the mutex that it needs, an agent left alone ends what it is doing, awake or asleep. */
  lemma {:induction false} OperationEnds(s: State, a: nat) returns (k: nat)
    requires a < |s.agents| && (NeedsLock(s.agents[a].pc) ==> s.lock.None?)
    ensures |Alone(s, a, k).agents| == |s.agents|
    ensures Alone(s, a, k).agents[a].pc.Awake? || Alone(s, a, k).agents[a].pc.Asleep?
    decreases Rank(s.agents[a].pc)
  {
    if Rank(s.agents[a].pc) == 0 {
      k := 0;
    } else {
      RankFalls(s, a);
      k := OperationEnds(Next(s, Act(a, Go)), a);
      k := k + 1;
    }
  }
}

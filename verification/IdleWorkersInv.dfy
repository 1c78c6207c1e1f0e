/** What every step of searching, sleeping and waking keeps. */
module IdleWorkersInv {
  import opened Prelude
  import opened IdleWorkers
  import opened Lists
  import opened Sums

  /** Put on the sleeper list, and not yet resolved whether it left by itself or was chosen. */
  predicate Slept(pc: PC) {
    match pc
    case FallingAsleep(p) => p.SleepUnlock? || p.ResetFlag?
    case Notifying(asleep, _) => asleep
    case Asleep => true
    case Cancelling(p) => p.CancelLock? || p.Erase?
    case Inspecting(p) => !p.ContainsFlag?
    case _ => false
  }

  /** Holds the search role, or was chosen by worker_to_notify and has not left sleep. */
  predicate Counts(s: State, a: nat)
    requires a < |s.agents|
  {
    var pc := s.agents[a].pc;
    if Slept(pc) then a !in s.sleepers
    else
      match pc
      case Searching(p) => p.RaiseFlag?
      case Executing(_) => true
      case FallingAsleep(p) => !p.PushSelf? && s.agents[a].flag
      case Cancelling(p) => (p.CancelUnlock? || p.CancelFlag?) && !p.found
      case Inspecting(_) => true
      case _ => s.agents[a].flag
  }

  predicate HoldsLock(pc: PC) {
    match pc
    case FallingAsleep(p) => !p.SleepLock? && !p.ResetFlag?
    case Notifying(_, p) => !p.FirstSearching? && !p.FirstWorking? && !p.NotifyLock?
    case Cancelling(p) => p.Erase? || p.CancelUnlock?
    case Inspecting(p) => p.Test? || p.ContainsUnlock?
    case _ => false
  }

  function Number(b: bool): nat { if b then 1 else 0 }

  function Roles(s: State): seq<nat> {
    seq(|s.agents|, a requires 0 <= a < |s.agents| => Number(Counts(s, a)))
  }

  function LockPC(s: State): PC {
    if s.lock.Some? && s.lock.value < |s.agents| then s.agents[s.lock.value].pc else Awake
  }

  /** Counted as searching by a notifier that has not yet taken its sleeper off the list. */
  function Promised(s: State): nat {
    var pc := LockPC(s);
    Number(pc.Notifying? && pc.n.PopSleeper?)
  }

  /** A worker not yet on the list but no longer counted as working, or the other way round. */
  function Moving(s: State): int {
    match LockPC(s)
    case FallingAsleep(p) => if p.DecBoth? || p.PushSelf? then 1 else 0
    case Notifying(_, p) => if p.AddSearching? || p.PopSleeper? then -1 else 0
    case _ => 0
  }

  predicate AgentOK(s: State, a: nat)
    requires a < |s.agents|
  {
    var ag := s.agents[a];
    && (HoldsLock(ag.pc) <==> s.lock == Some(a))
    && (a in s.sleepers ==> Slept(ag.pc))
    && (a >= s.workers ==> !ag.flag && (ag.pc.Awake? || (ag.pc.Notifying? && !ag.pc.asleep)))
    && match ag.pc
       case Searching(_) => !ag.flag
       case Executing(p) => ag.flag == p.LowerFlag?
       case Notifying(_, p) => p.PopSleeper? || p.AddWorking? || p.AddSearching? ==> s.sleepers != []
       case FallingAsleep(p) => (p.DecBoth? ==> ag.flag) && (p.SleepUnlock? ==> a in s.sleepers)
       case Cancelling(p) => p.CancelUnlock? || p.CancelFlag? ==> a !in s.sleepers
       case Inspecting(p) => p.ContainsUnlock? ==> (p.found <==> a in s.sleepers)
       case _ => true
  }

  /** The searching counter is the number of workers in the role, chosen or promised. */
  predicate SearchOK(s: State) { s.searching == Sum(Roles(s), |s.agents|) + Promised(s) }

  /** Workers are working, asleep, or woke by themselves, which never gave `working` back. */
  predicate WorkOK(s: State) {
    s.working < WORD && (s.working + |s.sleepers| + s.cancels + Moving(s) - s.workers) % WORD == 0
  }

  ghost predicate Inv(s: State) {
    && s.workers <= |s.agents| && |s.agents| + 2 < WORD
    && NoDup(s.sleepers) && (forall i :: 0 <= i < |s.sleepers| ==> s.sleepers[i] < s.workers)
    && (s.lock.Some? ==> s.lock.value < |s.agents|)
    && SearchOK(s) && WorkOK(s)
    && forall a :: 0 <= a < |s.agents| ==> AgentOK(s, a)
  }

  /** Only agent `a` changed its standing: the total moves with it. */
  lemma RolesMove(s: State, t: State, a: nat)
    requires |t.agents| == |s.agents| && a < |s.agents|
    requires forall u :: 0 <= u < |s.agents| && u != a ==> Counts(t, u) == Counts(s, u)
    ensures Sum(Roles(t), |t.agents|) + Number(Counts(s, a)) == Sum(Roles(s), |s.agents|) + Number(Counts(t, a))
  {
    SumTwo(Roles(s), Roles(t), a, a, |s.agents|);
  }

  lemma RolesBound(s: State)
    ensures Sum(Roles(s), |s.agents|) <= |s.agents|
  {
    SumBound(Roles(s), |s.agents|);
  }

  /** A counted agent keeps the counter positive. */
  lemma RolesPositive(s: State, a: nat)
    requires a < |s.agents| && Counts(s, a)
    ensures 1 <= Sum(Roles(s), |s.agents|)
  {
    SumMember(Roles(s), a, |s.agents|);
  }

  /** What a step of `a` may do to the mutex. */
  predicate LockMoves(s: State, t: State, a: nat) {
    t.lock == s.lock || (s.lock.None? && t.lock == Some(a)) || (s.lock == Some(a) && t.lock.None?)
  }

  /** A step of `a` that leaves the sleeper list alone. */
  lemma Settle(s: State, t: State, a: nat)
    requires Inv(s) && a < |s.agents| == |t.agents| && t.workers == s.workers
    requires t.agents == s.agents[a := t.agents[a]] && t.sleepers == s.sleepers && LockMoves(s, t, a)
    requires AgentOK(t, a) && WorkOK(t)
    requires t.searching + Number(Counts(s, a)) + Promised(s) == s.searching + Number(Counts(t, a)) + Promised(t)
    ensures Inv(t)
  {
    forall u | 0 <= u < |s.agents| && u != a
      ensures AgentOK(t, u) && Counts(t, u) == Counts(s, u)
    {
      assert AgentOK(s, u);
    }
    RolesMove(s, t, a);
  }

  lemma AwakeKeeps(s: State, a: nat, op: Op)
    requires Inv(s) && a < |s.agents| && s.agents[a].pc.Awake?
    ensures Inv(AwakeStep(s, a, op))
  {
    var t := AwakeStep(s, a, op);
    assert AgentOK(s, a);
    Settle(s, t, a);
  }

  lemma AsleepKeeps(s: State, a: nat, op: Op)
    requires Inv(s) && a < |s.agents| && s.agents[a].pc.Asleep?
    ensures Inv(AsleepStep(s, a, op))
  {
    assert AgentOK(s, a);
    Settle(s, AsleepStep(s, a, op), a);
  }

  lemma SearchKeeps(s: State, a: nat, p: SearchPC)
    requires Inv(s) && a < |s.agents| && s.agents[a].pc == Searching(p)
    ensures Inv(SearchStep(s, a, p))
  {
    assert AgentOK(s, a);
    RolesBound(s);
    Settle(s, SearchStep(s, a, p), a);
  }

  /** cancel_searching: the asserted decrement finds the counter positive. */
  lemma ExecuteKeeps(s: State, a: nat, p: ExecutePC)
    requires Inv(s) && a < |s.agents| && s.agents[a].pc == Executing(p)
    ensures 1 <= s.searching && Inv(ExecuteStep(s, a, p))
  {
    assert AgentOK(s, a);
    RolesBound(s);
    RolesPositive(s, a);
    Settle(s, ExecuteStep(s, a, p), a);
  }

  lemma DecWord(x: nat, n: int)
    requires x < WORD && (x + n) % WORD == 0
    ensures Dec(x) < WORD && (Dec(x) + n + 1) % WORD == 0
  {
  }

  lemma IncWord(x: nat, n: int)
    requires x < WORD && (x + n) % WORD == 0
    ensures Inc(x) < WORD && (Inc(x) + n - 1) % WORD == 0
  {
  }

  /** dec_num_working: the asserted decrement of the searching counter finds it positive. */
  lemma FallingKeeps(s: State, a: nat, p: SleepPC, op: Op)
    requires Inv(s) && a < |s.agents| && s.agents[a].pc == FallingAsleep(p) && !p.PushSelf?
    ensures p.DecBoth? ==> 1 <= s.searching
    ensures Inv(SleepStep(s, a, p, op))
  {
    assert AgentOK(s, a);
    RolesBound(s);
    if p.DecBoth? { RolesPositive(s, a); }
    if p.DecWorking? { DecWord(s.working, |s.sleepers| + s.cancels - s.workers); }
    Settle(s, SleepStep(s, a, p, op), a);
  }

  lemma PushSelfKeeps(s: State, a: nat, last: bool)
    requires Inv(s) && a < |s.agents| && s.agents[a].pc == FallingAsleep(PushSelf(last))
    ensures Inv(SleepStep(s, a, PushSelf(last), Go))
  {
    var t := SleepStep(s, a, PushSelf(last), Go);
    assert AgentOK(s, a);
    assert a !in s.sleepers;
    forall u | 0 <= u < |s.agents| && u != a
      ensures AgentOK(t, u) && Counts(t, u) == Counts(s, u)
    {
      assert AgentOK(s, u);
    }
    RolesMove(s, t, a);
    assert AgentOK(t, a);
  }

  lemma NotifyKeeps(s: State, a: nat, asleep: bool, p: NotifyPC)
    requires Inv(s) && a < |s.agents| && s.agents[a].pc == Notifying(asleep, p) && !p.PopSleeper?
    ensures Inv(NotifyStep(s, a, asleep, p))
  {
    assert AgentOK(s, a);
    if p.AddWorking? || p.AddSearching? { PromiseKeeps(s, a, asleep, p); }
    else { Settle(s, NotifyStep(s, a, asleep, p), a); }
  }

  /** The sleeper about to be chosen is counted as working and as searching. */
  lemma PromiseKeeps(s: State, a: nat, asleep: bool, p: NotifyPC)
    requires Inv(s) && a < |s.agents| && s.agents[a].pc == Notifying(asleep, p) && (p.AddWorking? || p.AddSearching?)
    ensures Inv(NotifyStep(s, a, asleep, p))
  {
    assert AgentOK(s, a);
    RolesBound(s);
    if p.AddWorking? { IncWord(s.working, |s.sleepers| + s.cancels - s.workers); }
    Settle(s, NotifyStep(s, a, asleep, p), a);
  }

  lemma PopAgent(s: State, a: nat, asleep: bool, u: nat)
    requires Inv(s) && a < |s.agents| && s.agents[a].pc == Notifying(asleep, PopSleeper) && u < |s.agents|
    ensures var t := NotifyStep(s, a, asleep, PopSleeper);
            && |t.agents| == |s.agents| && s.sleepers != [] && AgentOK(t, u)
            && (u != s.sleepers[|s.sleepers| - 1] ==> Counts(t, u) == Counts(s, u))
  {
    assert AgentOK(s, a) && AgentOK(s, u);
    var n := |s.sleepers| - 1;
    assert s.sleepers == s.sleepers[..n] + [s.sleepers[n]];
  }

  /** The sleeper chosen takes over the count that the notifier promised. */
  lemma PopKeeps(s: State, a: nat, asleep: bool)
    requires Inv(s) && a < |s.agents| && s.agents[a].pc == Notifying(asleep, PopSleeper)
    ensures Inv(NotifyStep(s, a, asleep, PopSleeper))
  {
    var t := NotifyStep(s, a, asleep, PopSleeper);
    assert AgentOK(s, a);
    var n := |s.sleepers| - 1;
    var v := s.sleepers[n];
    assert AgentOK(s, v);
    forall u | 0 <= u < |s.agents|
      ensures AgentOK(t, u) && (u != v ==> Counts(t, u) == Counts(s, u))
    {
      PopAgent(s, a, asleep, u);
    }
    assert v !in t.sleepers;
    RolesMove(s, t, v);
  }

  lemma {:induction false} RemoveFirstOK(l: seq<nat>, x: nat)
    requires NoDup(l)
    ensures NoDup(RemoveFirst(l, x)) && |RemoveFirst(l, x)| == |l| - Number(x in l)
    ensures forall y :: y in RemoveFirst(l, x) <==> y in l && y != x
  {
    if l != [] {
      assert l == [l[0]] + l[1..];
      if l[0] != x {
        RemoveFirstOK(l[1..], x);
        var r := RemoveFirst(l[1..], x);
        forall j | 0 <= j < |r|
          ensures r[j] != l[0]
        {
          assert r[j] in r;
          var k :| 0 <= k < |l[1..]| && l[1..][k] == r[j];
          assert l[k + 1] == r[j];
        }
      }
    }
  }

  lemma EraseKeeps(s: State, a: nat)
    requires Inv(s) && a < |s.agents| && s.agents[a].pc == Cancelling(Erase)
    ensures Inv(CancelStep(s, a, Erase))
  {
    var t := CancelStep(s, a, Erase);
    assert AgentOK(s, a);
    RemoveFirstOK(s.sleepers, a);
    forall i | 0 <= i < |t.sleepers| ensures t.sleepers[i] < t.workers {
      assert t.sleepers[i] in t.sleepers;
    }
    forall u | 0 <= u < |s.agents| && u != a
      ensures AgentOK(t, u) && Counts(t, u) == Counts(s, u)
    {
      assert AgentOK(s, u);
    }
    RolesMove(s, t, a);
    assert AgentOK(t, a);
  }

  lemma CancelKeeps(s: State, a: nat, p: CancelPC)
    requires Inv(s) && a < |s.agents| && s.agents[a].pc == Cancelling(p) && !p.Erase?
    ensures Inv(CancelStep(s, a, p))
  {
    assert AgentOK(s, a);
    Settle(s, CancelStep(s, a, p), a);
  }

  lemma ContainsKeeps(s: State, a: nat, p: ContainsPC)
    requires Inv(s) && a < |s.agents| && s.agents[a].pc == Inspecting(p)
    ensures Inv(ContainsStep(s, a, p))
  {
    assert AgentOK(s, a);
    Settle(s, ContainsStep(s, a, p), a);
  }

  lemma StepKeepsInv(s: State, act: Action)
    requires Inv(s)
    ensures Inv(Next(s, act))
  {
    if act.a < |s.agents| {
      var a := act.a;
      match s.agents[a].pc
      case Awake => AwakeKeeps(s, a, act.op);
      case Searching(p) => SearchKeeps(s, a, p);
      case Executing(p) => ExecuteKeeps(s, a, p);
      case Notifying(asleep, p) => if p.PopSleeper? { PopKeeps(s, a, asleep); } else { NotifyKeeps(s, a, asleep, p); }
      case FallingAsleep(p) => if p.PushSelf? { PushSelfKeeps(s, a, p.last); } else { FallingKeeps(s, a, p, act.op); }
      case Asleep => AsleepKeeps(s, a, act.op);
      case Cancelling(p) => if p.Erase? { EraseKeeps(s, a); } else { CancelKeeps(s, a, p); }
      case Inspecting(p) => ContainsKeeps(s, a, p);
    }
  }

  lemma InitInv(workers: nat, others: nat)
    requires workers + others + 2 < WORD
    ensures Inv(Init(workers, others))
  {
    SumZero(Roles(Init(workers, others)), workers + others);
  }

  lemma {:induction false} RunInv(workers: nat, others: nat, actions: seq<Action>)
    requires workers + others + 2 < WORD
    ensures Inv(Run(Init(workers, others), actions))
    decreases |actions|
  {
    if actions == [] {
      InitInv(workers, others);
    } else {
      RunInv(workers, others, actions[..|actions| - 1]);
      StepKeepsInv(Run(Init(workers, others), actions[..|actions| - 1]), actions[|actions| - 1]);
    }
  }

  /**
   * In every run: the searching counter counts the workers in the search role, those chosen
   * by worker_to_notify that have not left sleep and the one being chosen; no decrement of it
   * underflows; the sleeper list has no duplicates; and a worker on it is asleep.
   */
  lemma SearchAccounting(workers: nat, others: nat, actions: seq<Action>)
    requires workers + others + 2 < WORD
    ensures var s := Run(Init(workers, others), actions);
            && s.searching == Sum(Roles(s), |s.agents|) + Promised(s)
            && NoDup(s.sleepers)
            && (forall a :: 0 <= a < |s.agents| ==>
                  && (a in s.sleepers ==> Slept(s.agents[a].pc))
                  && (s.agents[a].pc == Executing(DecSearching) || s.agents[a].pc == FallingAsleep(DecBoth) ==>
                        1 <= s.searching))
  {
    RunInv(workers, others, actions);
    var s := Run(Init(workers, others), actions);
    forall a | 0 <= a < |s.agents|
      ensures a in s.sleepers ==> Slept(s.agents[a].pc)
      ensures s.agents[a].pc == Executing(DecSearching) || s.agents[a].pc == FallingAsleep(DecBoth) ==> 1 <= s.searching
    {
      assert AgentOK(s, a);
      if Counts(s, a) { RolesPositive(s, a); }
    }
  }

  /** should_wakeup, as worker_to_notify evaluates it. */
  predicate ShouldWakeup(s: State) { s.searching == 0 && s.working < s.workers }

  /**
   * With the mutex free, `_working` is below the number of workers exactly while the sleepers
   * and all self-cancelled sleeps so far are between one and that number: the counter drifts.
   */
  lemma WorkingDrifts(workers: nat, others: nat, actions: seq<Action>)
    requires workers + others + 2 < WORD
    ensures var s := Run(Init(workers, others), actions);
            && s.workers == workers
            && (s.working + |s.sleepers| + s.cancels + Moving(s)) % WORD == workers
            && (s.lock.None? && |s.sleepers| + s.cancels < WORD ==>
                  (s.working < workers <==> 1 <= |s.sleepers| + s.cancels <= workers))
  {
    RunInv(workers, others, actions);
    RunWorkers(workers, others, actions);
    Drifts(Run(Init(workers, others), actions));
  }

  lemma Drifts(s: State)
    requires WorkOK(s) && s.workers < WORD
    ensures (s.working + |s.sleepers| + s.cancels + Moving(s)) % WORD == s.workers
    ensures s.lock.None? && |s.sleepers| + s.cancels < WORD ==>
              (s.working < s.workers <==> 1 <= |s.sleepers| + s.cancels <= s.workers)
  {
    Drift(s.working, |s.sleepers| + s.cancels + Moving(s), s.workers);
  }

  lemma Drift(working: nat, n: int, workers: nat)
    requires working < WORD && workers < WORD && (working + n - workers) % WORD == 0
    ensures (working + n) % WORD == workers
    ensures 0 <= n < WORD ==> (working < workers <==> 1 <= n <= workers)
  {
  }

  lemma {:induction false} RunWorkers(workers: nat, others: nat, actions: seq<Action>)
    ensures Run(Init(workers, others), actions).workers == workers
    decreases |actions|
  {
    if actions != [] { RunWorkers(workers, others, actions[..|actions| - 1]); }
  }

  lemma RunSnoc(s: State, actions: seq<Action>, a: Action)
    ensures Run(s, actions + [a]) == Next(Run(s, actions), a)
  {
    assert (actions + [a])[..|actions|] == actions;
  }

  /** One more step of agent 0 in a run that is known to reach `r`. */
  lemma Extend(s: State, actions: seq<Action>, r: State, op: Op) returns (longer: seq<Action>)
    requires Run(s, actions) == r
    ensures Run(s, longer) == Next(r, Act(0, op))
  {
    longer := actions + [Act(0, op)];
    RunSnoc(s, actions, Act(0, op));
  }

  /** The only worker finds nothing of its own and searches: nobody else does, so it may. */
  lemma StartSearch(s: State, before: seq<Action>, r: State) returns (actions: seq<Action>)
    requires Run(s, before) == r
    requires |r.agents| == 1 == r.workers && r.agents[0] == Agent(false, Awake) && r.searching == 0
    ensures Run(s, actions) == r.(searching := 1, agents := [Agent(true, Awake)])
  {
    actions := Extend(s, before, r, Search);
    for i := 0 to 3
      invariant Run(s, actions) ==
                if i == 0 then SetPC(r, 0, Searching(LoadSearching))
                else if i == 1 then SetPC(r, 0, Searching(IncSearching))
                else if i == 2 then SetPC(r, 0, Searching(RaiseFlag)).(searching := 1)
                else r.(searching := 1, agents := [Agent(true, Awake)])
    {
      actions := Extend(s, actions, Run(s, actions), Go);
    }
  }

  /** It finds nothing either way and goes to sleep, undisturbed, as the last that searched. */
  lemma FallAsleep(s: State, before: seq<Action>, r: State) returns (actions: seq<Action>)
    requires Run(s, before) == r
    requires r.agents == [Agent(true, Awake)] && r.workers == 1 && r.lock.None? && r.sleepers == [] && r.searching == 1
    ensures Run(s, actions) ==
            r.(working := Dec(r.working), searching := 0, sleepers := [0], agents := [Agent(false, Asleep)])
  {
    actions := Extend(s, before, r, Sleep);
    var t := r.(working := Dec(r.working), lock := Some(0));
    for i := 0 to 6
      invariant Run(s, actions) ==
                if i == 0 then SetPC(r, 0, FallingAsleep(SleepLock))
                else if i == 1 then SetPC(r, 0, FallingAsleep(DecWorking)).(lock := Some(0))
                else if i == 2 then SetPC(t, 0, FallingAsleep(DecBoth))
                else if i == 3 then SetPC(t, 0, FallingAsleep(PushSelf(true))).(searching := 0)
                else if i == 4 then SetPC(t, 0, FallingAsleep(SleepUnlock(true))).(searching := 0, sleepers := [0])
                else if i == 5 then
                  SetPC(t, 0, FallingAsleep(ResetFlag(true))).(searching := 0, sleepers := [0], lock := None)
                else t.(agents := [Agent(false, Asleep)], searching := 0, sleepers := [0], lock := None)
    {
      actions := Extend(s, actions, Run(s, actions), Go);
    }
  }

  /** It finds a task and takes itself off the list; `working` is not given back. */
  lemma SelfCancel(s: State, before: seq<Action>, r: State) returns (actions: seq<Action>)
    requires Run(s, before) == r
    requires r.agents == [Agent(false, Asleep)] && r.lock.None? && r.sleepers == [0]
    ensures Run(s, actions) == r.(sleepers := [], cancels := r.cancels + 1, agents := [Agent(false, Awake)])
  {
    actions := Extend(s, before, r, HasTask);
    for i := 0 to 4
      invariant Run(s, actions) ==
                if i == 0 then SetPC(r, 0, Cancelling(CancelLock))
                else if i == 1 then SetPC(r, 0, Cancelling(Erase)).(lock := Some(0))
                else if i == 2 then
                  SetPC(r, 0, Cancelling(CancelUnlock(true)))
                  .(lock := Some(0), sleepers := [], cancels := r.cancels + 1)
                else if i == 3 then
                  SetPC(r, 0, Cancelling(CancelFlag(true))).(sleepers := [], cancels := r.cancels + 1)
                else SetPC(r, 0, Awake).(sleepers := [], cancels := r.cancels + 1)
    {
      actions := Extend(s, actions, Run(s, actions), Go);
    }
  }

  /**
   * The drift matters: a run of one worker that searched and slept, woke by itself, searched and
   * sleeps again, in which worker_to_notify finds nobody to wake although the only worker is asleep.
   */
  lemma SleeperNotNotified() returns (actions: seq<Action>)
    ensures var s := Run(Init(1, 0), actions);
            && s.sleepers == [0] && s.agents == [Agent(false, Asleep)]
            && s.searching == 0 && s.lock.None? && !ShouldWakeup(s)
  {
    var s := Init(1, 0);
    assert s.agents == [Agent(false, Awake)];
    actions := StartSearch(s, [], s);
    actions := FallAsleep(s, actions, Run(s, actions));
    actions := SelfCancel(s, actions, Run(s, actions));
    actions := StartSearch(s, actions, Run(s, actions));
    actions := FallAsleep(s, actions, Run(s, actions));
  }
}

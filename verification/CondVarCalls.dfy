/** What a call of notify_one or notify_all has done when it returns, whatever steps come in between. */
module CondVarCalls {
  import opened Prelude
  import opened CondVar
  import opened CondVarInv
  import M = CoMutex
  import MutexInv = CoMutexInv

  /** A coroutine that is not in wait begins to notify, and nobody else notifies. */
  predicate Starts(s: State, a: Action, all: bool) {
    && a.w < |s.m.ws| && s.m.ws[a.w].pc.Running? && s.m.ws[a.w].pc.c < |s.phases|
    && s.phases[s.m.ws[a.w].pc.c].Plain? && s.notify.Quiet?
    && a.op == if all then NotifyAll else NotifyOne
  }

  lemma StartBegins(s: State, a: Action, all: bool)
    requires |s.phases| == |s.next| && Starts(s, a, all)
    ensures Next(s, a) == s.(notify := Load(s.m.ws[a.w].pc.c, a.w, all))
  {
  }

  /** The action is the compare-exchange that takes from the list. */
  predicate Takes(r: State, a: Action) {
    r.notify.Cas? && a.w == r.notify.w && r.head == r.notify.h && !a.op.Spurious? && (r.notify.all || r.list != [])
  }

  /** What a call takes: everybody, or the head of the list. */
  function Taking(r: State, all: bool): seq<nat>
    requires all || r.list != []
  {
    if all then r.list else [r.list[0]]
  }

  /** The call is under way, and has taken nothing yet. */
  predicate Pending(s: State, all: bool, woken: seq<nat>) {
    (s.notify.Load? || s.notify.Cas?) && s.notify.all == all && s.woken == woken && s.taken == []
  }

  /** The call has taken what it has to wake, and has woken some of it. */
  predicate Serving(s: State, goal: seq<nat>) {
    (s.notify.Unlink? || s.notify.Resume? || s.notify.Advance?) && s.notify.goal == goal
  }

  /** Steps of others leave a call alone. */
  lemma OthersLeave(s: State, a: Action)
    requires |s.phases| == |s.next| && !s.notify.Quiet? && a.w != s.notify.w
    ensures Next(s, a).notify == s.notify && Next(s, a).woken == s.woken && Next(s, a).taken == s.taken
  {
  }

  /** A step of the notifier: the mutex says that it is running. */
  lemma NotifierSteps(s: State, a: Action)
    requires CondOK(s) && !s.notify.Quiet? && a.w == s.notify.w
    ensures Next(s, a) == NotifyStep(s, a.op)
  {
  }

  /** notify_one gives up at its load, and only there, exactly if the list is empty. */
  lemma LoadStep(s: State, a: Action)
    requires CondOK(s) && s.notify.Load? && a.w == s.notify.w
    ensures var t := Next(s, a);
            && (t.notify.Quiet? <==> !s.notify.all && s.list == [])
            && (!t.notify.Quiet? ==> Pending(t, s.notify.all, s.woken))
            && t.woken == s.woken && t.list == s.list
  {
    NotifierSteps(s, a);
  }

  /** The exchange takes the whole list, or its head. */
  lemma CasStep(s: State, a: Action)
    requires CondOK(s) && s.notify.Cas? && a.w == s.notify.w
    ensures var t, all := Next(s, a), s.notify.all;
            && (all || s.list != []) && t.woken == s.woken
            && if Takes(s, a) then
                 && Serving(t, s.woken + Taking(s, all)) && t.taken == Taking(s, all)
                 && t.list == if all then [] else s.list[1..]
               else Pending(t, all, s.woken) && t.list == s.list
  {
    NotifierSteps(s, a);
  }

  /** From then on the call ends only when all it took are woken. */
  lemma ServeStep(s: State, a: Action, goal: seq<nat>)
    requires CondOK(s) && Serving(s, goal) && a.w == s.notify.w
    ensures Next(s, a).notify.Quiet? ==> s.taken == [] && Next(s, a).woken == goal
    ensures !Next(s, a).notify.Quiet? ==> Serving(Next(s, a), goal)
  {
    NotifierSteps(s, a);
    if s.notify.Resume? && s.taken != [] { FirstTaken(s); }
  }

  /** The action at which a call took, if it has taken. */
  ghost predicate Stage(s: State, actions: seq<Action>, all: bool, k: nat)
    requires |s.phases| == |s.next|
  {
    var u := Run(s, actions);
    || Pending(u, all, s.woken)
    || (k < |actions|
        && var r := Run(s, actions[..k]);
           && Takes(r, actions[k]) && Pending(r, all, s.woken) && Serving(u, s.woken + Taking(r, all)))
  }

  /** Somebody notifies in every state of the run. */
  ghost predicate Notifying(s: State, actions: seq<Action>)
    requires |s.phases| == |s.next|
  {
    forall i :: 0 <= i <= |actions| ==> NotifyingAt(s, actions, i)
  }

  predicate NotifyingAt(s: State, actions: seq<Action>, i: nat)
    requires |s.phases| == |s.next| && i <= |actions|
  {
    !Run(s, actions[..i]).notify.Quiet?
  }

  lemma NotifyingSo(s: State, actions: seq<Action>, n: nat)
    requires |s.phases| == |s.next| && Notifying(s, actions) && n <= |actions|
    ensures Notifying(s, actions[..n]) && !Run(s, actions[..n]).notify.Quiet?
  {
    forall i | 0 <= i <= n ensures NotifyingAt(s, actions[..n], i) {
      assert NotifyingAt(s, actions, i);
      assert actions[..n][..i] == actions[..i];
    }
    assert NotifyingAt(s, actions, n);
  }

  lemma {:induction false} CallStage(s: State, actions: seq<Action>, all: bool) returns (k: nat)
    requires Inv(s) && Pending(s, all, s.woken) && Notifying(s, actions)
    ensures Stage(s, actions, all, k)
    decreases |actions|
  {
    k := 0;
    if actions != [] {
      var n := |actions| - 1;
      NotifyingSo(s, actions, n);
      NotifyingSo(s, actions, n + 1);
      assert actions[..n + 1] == actions;
      RunFromInv(s, actions[..n]);
      k := CallStage(s, actions[..n], all);
      k := StageMoves(s, actions, all, k);
    }
  }

  lemma StageMoves(s: State, actions: seq<Action>, all: bool, j: nat) returns (k: nat)
    requires |s.phases| == |s.next| && actions != [] && Stage(s, actions[..|actions| - 1], all, j)
    requires CondOK(Run(s, actions[..|actions| - 1])) && !Run(s, actions).notify.Quiet?
    ensures Stage(s, actions, all, k)
  {
    var n := |actions| - 1;
    var u, a := Run(s, actions[..n]), actions[n];
    k := j;
    if Pending(u, all, s.woken) {
      if a.w == u.notify.w { k := n; }
      PendingMoves(u, a, all, s.woken);
    } else {
      assert actions[..n][..k] == actions[..k];
      ServingMoves(u, a, s.woken + Taking(Run(s, actions[..k]), all));
    }
  }

  lemma PendingMoves(u: State, a: Action, all: bool, woken: seq<nat>)
    requires CondOK(u) && Pending(u, all, woken) && !Next(u, a).notify.Quiet?
    ensures if a.w == u.notify.w && u.notify.Cas? && Takes(u, a) then Serving(Next(u, a), woken + Taking(u, all))
            else Pending(Next(u, a), all, woken)
  {
    if a.w != u.notify.w { OthersLeave(u, a); }
    else if u.notify.Load? { LoadStep(u, a); }
    else { CasStep(u, a); }
  }

  lemma ServingMoves(u: State, a: Action, goal: seq<nat>)
    requires CondOK(u) && Serving(u, goal) && !Next(u, a).notify.Quiet?
    ensures Serving(Next(u, a), goal)
  {
    if a.w != u.notify.w { OthersLeave(u, a); } else { ServeStep(u, a, goal); }
  }

  /**
   * A call of notify_one or notify_all, in any run, from its first step to its return at `last`: either it
   * is a notify_one, the list was empty when it loaded the head, and it woke nobody; or it took at its
   * exchange `between[k]` the head of the list, or the whole list, and has woken exactly what it took, in order.
   */
  lemma NotifyWakes(
    coroutines: nat, workers: nat, before: seq<Action>, start: Action, all: bool, between: seq<Action>, last: Action)
    returns (k: nat)
    requires Starts(Run(Init(coroutines, workers), before), start, all)
    requires var s := Next(Run(Init(coroutines, workers), before), start);
             Notifying(s, between) && Next(Run(s, between), last).notify.Quiet?
    ensures var s := Next(Run(Init(coroutines, workers), before), start);
            var u, t := Run(s, between), Next(Run(s, between), last);
            if u.notify.Load? then !all && u.list == [] && t.woken == s.woken
            else
              && k < |between|
              && var r := Run(s, between[..k]);
                 && Takes(r, between[k]) && (!all ==> r.list != []) && t.woken == s.woken + Taking(r, all)
                 && Next(r, between[k]).list == if all then [] else r.list[1..]
  {
    RunInv(coroutines, workers, before);
    var s := Next(Run(Init(coroutines, workers), before), start);
    StartBegins(Run(Init(coroutines, workers), before), start, all);
    StepKeepsInv(Run(Init(coroutines, workers), before), start);
    k := CallStage(s, between, all);
    NotifyingSo(s, between, |between|);
    assert between[..|between|] == between;
    CallEnds(s, between, last, all, k);
  }

  lemma CallEnds(s: State, between: seq<Action>, last: Action, all: bool, k: nat)
    requires Inv(s) && Stage(s, between, all, k)
    requires !Run(s, between).notify.Quiet? && Next(Run(s, between), last).notify.Quiet?
    ensures var u, t := Run(s, between), Next(Run(s, between), last);
            if u.notify.Load? then !all && u.list == [] && t.woken == s.woken
            else
              && k < |between|
              && var r := Run(s, between[..k]);
                 && Takes(r, between[k]) && (!all ==> r.list != []) && t.woken == s.woken + Taking(r, all)
                 && Next(r, between[k]).list == if all then [] else r.list[1..]
  {
    var u := Run(s, between);
    RunFromInv(s, between);
    if last.w != u.notify.w { OthersLeave(u, last); }
    if Pending(u, all, s.woken) {
      if u.notify.Load? { LoadStep(u, last); } else { CasStep(u, last); }
    } else {
      RunFromInv(s, between[..k]);
      ServeEnds(Run(s, between[..k]), between[k], u, last, s.woken, all);
    }
  }

  lemma ServeEnds(r: State, takes: Action, u: State, last: Action, woken: seq<nat>, all: bool)
    requires CondOK(r) && Takes(r, takes) && Pending(r, all, woken)
    requires CondOK(u) && Serving(u, woken + Taking(r, all)) && last.w == u.notify.w && Next(u, last).notify.Quiet?
    ensures Next(u, last).woken == woken + Taking(r, all)
    ensures Next(r, takes).list == if all then [] else r.list[1..]
  {
    ServeStep(u, last, woken + Taking(r, all));
    CasStep(r, takes);
  }

  // Left alone, a call returns

  /** How many steps of its own a call still needs at most, when nobody interferes. */
  function Rank(s: State): nat {
    match s.notify
    case Quiet => 0
    case Load(_, _, _) => 2 * |s.list| + 7
    case Cas(_, _, _, h) => 2 * |s.list| + if h == s.head then 5 else 6
    case Unlink(_, _, _, _) => 2 * |s.taken| + 2
    case Resume(_, _, _, _) => 2 * |s.taken| + 1
    case Advance(_, _, _, _) => 2 * |s.taken| + 2
  }

  lemma RankFalls(s: State)
    requires CondOK(s) && !s.notify.Quiet?
    ensures Rank(Next(s, Act(s.notify.w, Go))) < Rank(s)
    ensures var t := Next(s, Act(s.notify.w, Go)); t.notify.Quiet? || t.notify.w == s.notify.w
  {
    NotifierSteps(s, Act(s.notify.w, Go));
    var t := NotifyStep(s, Go);
    match s.notify
    case Resume(_, _, _, _) => if s.taken != [] { FirstTaken(s); assert |t.taken| < |s.taken|; }
    case Load(_, _, _) => assert t.list == s.list;
    case Cas(_, _, _, _) =>
      CasStep(s, Act(s.notify.w, Go));
      assert Rank(t) < Rank(s);
    case Unlink(_, _, x, _) => assert s.taken[0] == x;
    case Advance(_, _, _, _) =>
  }

  function Turns(w: nat, k: nat): seq<Action> { seq(k, i => Act(w, Go)) }

  lemma {:induction false} RunApart(s: State, first: Action, rest: seq<Action>)
    requires |s.phases| == |s.next|
    ensures Run(s, [first] + rest) == Run(Next(s, first), rest)
    decreases |rest|
  {
    var all := [first] + rest;
    if rest != [] {
      assert all[..|all| - 1] == [first] + rest[..|rest| - 1] && all[|all| - 1] == rest[|rest| - 1];
      RunApart(s, first, rest[..|rest| - 1]);
    }
  }

  /** Left alone, a call returns; what it has done by then is told by NotifyWakes. */
  lemma {:induction false} CallReturns(s: State) returns (k: nat)
    requires Inv(s) && !s.notify.Quiet?
    ensures Run(s, Turns(s.notify.w, k)).notify.Quiet?
    decreases Rank(s)
  {
    var w := s.notify.w;
    var t := Next(s, Act(w, Go));
    RankFalls(s);
    StepKeepsInv(s, Act(w, Go));
    k := 0;
    if !t.notify.Quiet? { k := CallReturns(t); }
    OneTurn(s, w, k);
    k := k + 1;
  }

  lemma OneTurn(s: State, w: nat, k: nat)
    requires |s.phases| == |s.next|
    ensures Run(s, Turns(w, k + 1)) == Run(Next(s, Act(w, Go)), Turns(w, k))
  {
    assert Turns(w, k + 1) == [Act(w, Go)] + Turns(w, k);
    RunApart(s, Act(w, Go), Turns(w, k));
  }

  // wait

  /** Whoever is inside sets the predicate, and nobody else does in one step. */
  lemma PredSet(s: State, w: nat, c: nat, b: bool)
    requires Acts(s, w, c) && s.phases[c].Plain? && |s.phases| == |s.next|
    ensures Next(s, Act(w, SetPred(b))) == if Inside(s, c) then s.(pred := b) else s
  {
  }

  /** wait finds the predicate true and returns with nothing changed. */
  lemma WaitPasses(s: State, w: nat, c: nat)
    requires Inv(s) && Acts(s, w, c) && Inside(s, c) && s.phases[c].Plain? && s.pred
    ensures Next(Next(s, Act(w, Wait)), Act(w, Go)) == s
  {
    assert s.phases[c := Check(w)][c := Plain] == s.phases;
  }

  /** Left alone, it finds the predicate false and sleeps at the head of the list, its worker unlocking. */
  lemma WaitSleeps(s: State, w: nat, c: nat)
    requires Inv(s) && Acts(s, w, c) && Inside(s, c) && s.phases[c].Plain? && !s.pred
    ensures var t := Next(Next(Next(Next(s, Act(w, Wait)), Act(w, Go)), Act(w, Go)), Act(w, Go));
            && c < |t.phases| && t.phases[c].Asleep? && t.list == [c] + s.list
            && t.m == M.Next(s.m, M.Act(w, M.Park)) && t.m.holder == M.Releasing(w)
            && forall d :: 0 <= d < |s.phases| && d != c ==> t.phases[d] == s.phases[d]
  {
    WaitLinks(s, w, c);
    PushSleeps(s, s.(phases := s.phases[c := Push(w)], next := s.next[c := s.head]), w, c);
  }

  lemma WaitLinks(s: State, w: nat, c: nat)
    requires CondOK(s) && Acts(s, w, c) && Inside(s, c) && s.phases[c].Plain? && !s.pred
    ensures Next(Next(Next(s, Act(w, Wait)), Act(w, Go)), Act(w, Go)) ==
            s.(phases := s.phases[c := Push(w)], next := s.next[c := s.head])
  {
    var check, link := s.phases[c := Check(w)], s.phases[c := Link(w)];
    assert Next(s, Act(w, Wait)) == s.(phases := check);
    assert check[c := Link(w)] == link && link[c := Push(w)] == s.phases[c := Push(w)];
    assert Next(s.(phases := check), Act(w, Go)) == s.(phases := link);
  }

  lemma PushSleeps(s: State, linked: State, w: nat, c: nat)
    requires CondOK(s) && Acts(s, w, c) && Inside(s, c)
    requires linked == s.(phases := s.phases[c := Push(w)], next := s.next[c := s.head])
    ensures var t := Next(linked, Act(w, Go));
            && c < |t.phases| && t.phases[c].Asleep? && t.list == [c] + s.list
            && t.m == M.Next(s.m, M.Act(w, M.Park)) && t.m.holder == M.Releasing(w)
            && forall d :: 0 <= d < |s.phases| && d != c ==> t.phases[d] == s.phases[d]
  {
  }

  /** Woken, it locks the mutex before it looks at the predicate again. */
  lemma WokenLocks(s: State, w: nat, c: nat)
    requires Inv(s) && Acts(s, w, c) && s.phases[c].Relock?
    ensures var t := Next(s, Act(w, Go));
            c < |t.phases| && if Inside(s, c) then t == s.(phases := s.phases[c := Check(w)])
            else t == s.(m := M.Next(s.m, M.Act(w, M.Lock)))
  {
  }

  /** From wherever it is in await_suspend, a coroutine left alone sleeps in the list. */
  lemma SuspendEnds(s: State, w: nat, c: nat)
    requires Inv(s) && Acts(s, w, c) && (s.phases[c].Link? || s.phases[c].Push?)
    ensures var t, u := Next(s, Act(w, Go)), Next(Next(s, Act(w, Go)), Act(w, Go));
            (c < |t.phases| && t.phases[c].Asleep?) || (c < |u.phases| && u.phases[c].Asleep?)
  {
    assert PhaseOK(s, c);
    if s.phases[c].Link? || s.head != s.next[c] {
      SuspendLinks(s, w, c);
      LinkedSleeps(Next(s, Act(w, Go)), w, c);
    } else {
      LinkedSleeps(s, w, c);
    }
  }

  lemma SuspendLinks(s: State, w: nat, c: nat)
    requires Sizes(s) && Acts(s, w, c) && Inside(s, c)
    requires s.phases[c].Link? || (s.phases[c].Push? && s.head != s.next[c])
    ensures var t := Next(s, Act(w, Go));
            && Sizes(t) && Acts(t, w, c) && Inside(t, c) && t.phases[c].Push? && t.next[c] == t.head
  {
  }

  lemma LinkedSleeps(s: State, w: nat, c: nat)
    requires Sizes(s) && Acts(s, w, c) && Inside(s, c) && s.phases[c].Push? && s.next[c] == s.head
    ensures c < |Next(s, Act(w, Go)).phases| && Next(s, Act(w, Go)).phases[c].Asleep?
  {
  }
}

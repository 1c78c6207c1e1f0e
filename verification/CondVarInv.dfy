/** What every step of waiting and notifying keeps, in every interleaving with the mutex's own steps. */
module CondVarInv {
  import opened Prelude
  import opened CondVar
  import opened Lists
  import M = CoMutex
  import MutexInv = CoMutexInv
  import Moves = CoMutexMoves

  predicate IsList(next: seq<Ptr>, p: Ptr, l: seq<nat>)
    decreases |l|
  {
    if l == [] then p.Nil?
    else p == Node(l[0]) && l[0] < |next| && IsList(next, next[l[0]], l[1..])
  }

  predicate Below(l: seq<nat>, n: nat) { forall i :: 0 <= i < |l| ==> l[i] < n }

  /** Saw the predicate false in wait and has not been woken since. */
  predicate SawFalse(p: Phase) { p.Link? || p.Push? || p.Asleep? }

  /** In wait, with the mutex, on worker `p.w`. */
  predicate Busy(p: Phase) { p.Check? || p.Link? || p.Push? }

  predicate Parked(s: State, c: nat) { c < |s.m.cs| && s.m.cs[c].tag.Parked? }

  predicate RunsOn(s: State, w: nat, c: nat) { w < |s.m.ws| && s.m.ws[w].pc == M.Running(c) }

  predicate PhaseOK(s: State, c: nat)
    requires c < |s.phases|
  {
    var p := s.phases[c];
    && (Busy(p) ==> RunsOn(s, p.w, c) && Inside(s, c))
    && (p.Link? || p.Push? ==> !s.pred)
    && (p.Asleep? <==> Parked(s, c))
    && (p.Asleep? <==> c in s.list || c in s.taken)
  }

  predicate NotifyOK(s: State) {
    && (!s.notify.Quiet? ==>
          s.notify.n < |s.phases| && s.phases[s.notify.n].Plain? && RunsOn(s, s.notify.w, s.notify.n))
    && match s.notify
       case Quiet => s.taken == []
       case Load(_, _, _) => s.taken == []
       case Cas(_, _, all, h) => s.taken == [] && (!all ==> s.list != [] && h.Node? && h.c in s.list)
       case Unlink(_, _, x, goal) => s.taken == [x] && s.woken + s.taken == goal
       case Resume(_, _, p, goal) => IsList(s.next, p, s.taken) && s.woken + s.taken == goal
       case Advance(_, w, x, goal) =>
         && x < |s.next| && x < |s.phases| && s.phases[x].Relock? && s.m.ws[w].cache == Some(x)
         && IsList(s.next, s.next[x], s.taken) && s.woken + s.taken == goal
  }

  predicate Sizes(s: State) { |s.next| == |s.phases| == |s.m.cs| }

  predicate ListsOK(s: State) {
    && IsList(s.next, s.head, s.list)
    && NoDup(s.list) && NoDup(s.taken)
    && Below(s.list, |s.phases|) && Below(s.taken, |s.phases|)
    && (forall i :: 0 <= i < |s.taken| ==> s.taken[i] !in s.list)
  }

  ghost predicate CondOK(s: State) {
    Sizes(s) && ListsOK(s) && NotifyOK(s) && forall c :: 0 <= c < |s.phases| ==> PhaseOK(s, c)
  }

  ghost predicate Inv(s: State) { CondOK(s) && MutexInv.Inv(s.m) }

  lemma {:induction false} ListFrame(next: seq<Ptr>, after: seq<Ptr>, p: Ptr, l: seq<nat>)
    requires IsList(next, p, l) && |after| == |next|
    requires forall c :: c in l && c < |next| ==> after[c] == next[c]
    ensures IsList(after, p, l)
    decreases |l|
  {
    if l != [] { ListFrame(next, after, next[l[0]], l[1..]); }
  }

  // Steps of the mutex

  /** `t` is `s` after worker `w` took a step of the mutex that parked and unparked nobody. */
  ghost predicate Quietly(s: State, t: State, w: nat) {
    && Sizes(s) && Sizes(t) && w < |s.m.ws|
    && t == s.(m := t.m) && Moves.Moved(s.m, t.m, w)
    && (forall c :: 0 <= c < |s.phases| ==> (Parked(t, c) <==> Parked(s, c)))
    && (forall c :: 0 <= c < |s.phases| && Inside(s, c) && !RunsOn(s, w, c) ==> Inside(t, c))
  }

  lemma QuietKeeps(s: State, t: State, w: nat)
    requires CondOK(s) && Quietly(s, t, w)
    requires !s.notify.Quiet? ==> s.notify.w != w
    requires forall c :: 0 <= c < |s.phases| && RunsOn(s, w, c) ==> !Busy(s.phases[c])
    ensures CondOK(t)
  {
    forall c | 0 <= c < |t.phases| ensures PhaseOK(t, c) { assert PhaseOK(s, c); }
  }

  lemma MutexQuiet(s: State, w: nat, op: M.Op)
    requires Sizes(s) && MutexInv.Inv(s.m) && w < |s.m.ws|
    requires !op.Park? && (op.Unpark? ==> !s.m.ws[w].pc.Running?)
    ensures Quietly(s, MutexStep(s, w, op), w) && MutexInv.Inv(MutexStep(s, w, op).m)
  {
    var t := MutexStep(s, w, op);
    MutexInv.StepKeepsInv(s.m, M.Act(w, op));
    Moves.StepMoves(s.m, M.Act(w, op));
    forall c | 0 <= c < |s.phases|
      ensures Parked(t, c) <==> Parked(s, c)
      ensures Inside(s, c) && !RunsOn(s, w, c) ==> Inside(t, c)
    {
      Moves.StepTags(s.m, M.Act(w, op), c);
    }
  }

  // Steps of a coroutine in wait

  /** The coroutine that a worker runs is not notifying, if the worker is not. */
  predicate Acts(s: State, w: nat, c: nat) {
    c < |s.phases| && RunsOn(s, w, c) && (!s.notify.Quiet? ==> s.notify.w != w)
  }

  /** The notifier, and whoever it has just woken, run elsewhere: the mutex says so. */
  lemma NotInvolved(s: State, w: nat, c: nat)
    requires Inv(s) && Acts(s, w, c)
    ensures !s.notify.Quiet? ==> s.notify.n != c
    ensures s.notify.Advance? ==> s.notify.x != c
  {
    if !s.notify.Quiet? && s.notify.n == c { Moves.OneWorker(s.m, w, s.notify.w, c); }
    if s.notify.Advance? && s.notify.x == c { Moves.OneWorker(s.m, w, s.notify.w, c); }
  }

  lemma CheckKeeps(s: State, w: nat, c: nat, p: Phase)
    requires Inv(s) && Acts(s, w, c) && Inside(s, c) && !s.phases[c].Asleep? && !p.Asleep? && !p.Relock?
    requires Busy(p) ==> p.w == w
    requires p.Link? || p.Push? ==> !s.pred
    ensures Inv(SetPhase(s, c, p))
  {
    var t := SetPhase(s, c, p);
    NotInvolved(s, w, c);
    forall d | 0 <= d < |t.phases| ensures PhaseOK(t, d) { assert PhaseOK(s, d); }
  }

  /** The predicate changes in the hands of the one coroutine inside, so nobody is about to push. */
  lemma SetPredKeeps(s: State, w: nat, c: nat, b: bool)
    requires Inv(s) && Acts(s, w, c) && Inside(s, c) && s.phases[c].Plain?
    ensures Inv(s.(pred := b))
    ensures forall d :: 0 <= d < |s.phases| && SawFalse(s.phases[d]) ==> s.phases[d].Asleep?
  {
    var t := s.(pred := b);
    forall d | 0 <= d < |t.phases|
      ensures PhaseOK(t, d) && (SawFalse(s.phases[d]) ==> s.phases[d].Asleep?)
    {
      assert PhaseOK(s, d);
      if Busy(s.phases[d]) { Moves.OneInside(s.m, c, d); }
    }
  }

  lemma StartKeeps(s: State, w: nat, c: nat, all: bool)
    requires Inv(s) && Acts(s, w, c) && s.phases[c].Plain? && s.notify.Quiet?
    ensures Inv(s.(notify := Load(c, w, all)))
  {
    var t := s.(notify := Load(c, w, all));
    forall d | 0 <= d < |t.phases| ensures PhaseOK(t, d) { assert PhaseOK(s, d); }
  }

  /** Writing the link of an awaiter that is in no list. */
  lemma LinkLists(s: State, c: nat)
    requires Sizes(s) && ListsOK(s) && NotifyOK(s) && c < |s.phases| && c !in s.list && c !in s.taken
    requires s.notify.Advance? ==> s.notify.x != c
    ensures var t := s.(next := s.next[c := s.head]); ListsOK(t) && NotifyOK(t)
  {
    var t := s.(next := s.next[c := s.head]);
    ListFrame(s.next, t.next, s.head, s.list);
    if s.notify.Resume? { ListFrame(s.next, t.next, s.notify.p, s.taken); }
    if s.notify.Advance? { ListFrame(s.next, t.next, s.next[s.notify.x], s.taken); }
  }

  lemma LinkKeeps(s: State, w: nat, c: nat)
    requires Inv(s) && Acts(s, w, c) && (s.phases[c].Link? || s.phases[c].Push?)
    ensures Inv(s.(next := s.next[c := s.head]))
  {
    var t := s.(next := s.next[c := s.head]);
    assert PhaseOK(s, c);
    NotInvolved(s, w, c);
    LinkLists(s, c);
    forall d | 0 <= d < |t.phases| ensures PhaseOK(t, d) { assert PhaseOK(s, d); }
  }

  /** await_suspend's compare-exchange: the coroutine is in the list, parked, and its worker unlocks. */
  lemma PushedLists(s: State, w: nat, c: nat)
    requires CondOK(s) && Acts(s, w, c) && s.phases[c].Push? && s.head == s.next[c]
    ensures ListsOK(PhaseStep(s, w, c, Go))
  {
    assert PhaseOK(s, c);
    assert ([c] + s.list)[1..] == s.list;
  }

  lemma PushedMutex(s: State, w: nat, c: nat)
    requires Sizes(s) && MutexInv.Inv(s.m) && Acts(s, w, c) && s.phases[c].Push? && s.head == s.next[c]
    ensures var t := PhaseStep(s, w, c, Go); Sizes(t) && MutexInv.Inv(t.m) && Moves.Moved(s.m, t.m, w)
  {
    MutexInv.StepKeepsInv(s.m, M.Act(w, M.Park));
    Moves.StepMoves(s.m, M.Act(w, M.Park));
  }

  lemma PushedPhase(s: State, w: nat, c: nat, d: nat)
    requires Inv(s) && Acts(s, w, c) && s.phases[c].Push? && s.head == s.next[c] && d < |s.phases|
    requires Sizes(PhaseStep(s, w, c, Go)) && Moves.Moved(s.m, PhaseStep(s, w, c, Go).m, w)
    ensures PhaseOK(PhaseStep(s, w, c, Go), d)
  {
    assert PhaseOK(s, c) && PhaseOK(s, d);
    Moves.StepTags(s.m, M.Act(w, M.Park), d);
  }

  lemma PushedNotify(s: State, w: nat, c: nat)
    requires CondOK(s) && Acts(s, w, c) && s.phases[c].Push? && s.head == s.next[c]
    requires (!s.notify.Quiet? ==> s.notify.n != c) && (s.notify.Advance? ==> s.notify.x != c)
    requires Sizes(PhaseStep(s, w, c, Go)) && Moves.Moved(s.m, PhaseStep(s, w, c, Go).m, w)
    ensures NotifyOK(PhaseStep(s, w, c, Go))
  {
  }

  lemma PushedKeeps(s: State, w: nat, c: nat)
    requires Inv(s) && Acts(s, w, c) && s.phases[c].Push? && s.head == s.next[c]
    ensures Inv(PhaseStep(s, w, c, Go))
  {
    PushedLists(s, w, c);
    PushedMutex(s, w, c);
    NotInvolved(s, w, c);
    PushedNotify(s, w, c);
    forall d | 0 <= d < |s.phases| ensures PhaseOK(PhaseStep(s, w, c, Go), d) { PushedPhase(s, w, c, d); }
  }

  lemma PlainKeeps(s: State, w: nat, c: nat, op: Op)
    requires Inv(s) && Acts(s, w, c) && s.phases[c].Plain?
    ensures Inv(PlainStep(s, w, c, op))
  {
    match op
    case Mutex(o) =>
      if o.Lock? || o.Unlock? || o.Yield? {
        MutexQuiet(s, w, o);
        QuietKeeps(s, MutexStep(s, w, o), w);
      }
    case Wait => if Inside(s, c) { CheckKeeps(s, w, c, Check(w)); }
    case SetPred(b) => if Inside(s, c) { SetPredKeeps(s, w, c, b); }
    case NotifyAll => if s.notify.Quiet? { StartKeeps(s, w, c, true); }
    case NotifyOne => if s.notify.Quiet? { StartKeeps(s, w, c, false); }
    case _ =>
  }

  lemma LinkedKeeps(s: State, w: nat, c: nat)
    requires Inv(s) && Acts(s, w, c) && s.phases[c].Link?
    ensures Inv(SetPhase(s.(next := s.next[c := s.head]), c, Push(w)))
  {
    assert PhaseOK(s, c);
    LinkKeeps(s, w, c);
    CheckKeeps(s.(next := s.next[c := s.head]), w, c, Push(w));
  }

  lemma RelockKeeps(s: State, w: nat, c: nat)
    requires Inv(s) && Acts(s, w, c) && s.phases[c].Relock?
    ensures Inv(MutexStep(s, w, M.Lock))
  {
    MutexQuiet(s, w, M.Lock);
    QuietKeeps(s, MutexStep(s, w, M.Lock), w);
  }

  lemma PhaseKeeps(s: State, w: nat, c: nat, op: Op)
    requires Inv(s) && Acts(s, w, c)
    ensures Inv(PhaseStep(s, w, c, op))
  {
    assert PhaseOK(s, c);
    match s.phases[c]
    case Plain => PlainKeeps(s, w, c, op);
    case Check(_) => CheckKeeps(s, w, c, if s.pred then Plain else Link(w));
    case Link(_) => LinkedKeeps(s, w, c);
    case Push(_) => if s.head == s.next[c] && !op.Spurious? { PushedKeeps(s, w, c); } else { LinkKeeps(s, w, c); }
    case Asleep =>
    case Relock =>
      if Inside(s, c) { CheckKeeps(s, w, c, Check(w)); } else { RelockKeeps(s, w, c); }
  }

  // Steps of the notifier

  lemma TakeLists(s: State, op: Op)
    requires Sizes(s) && ListsOK(s) && NotifyOK(s) && s.notify.Cas?
    ensures ListsOK(NotifyStep(s, op))
    ensures forall c :: c in s.list <==> c in NotifyStep(s, op).list || c in NotifyStep(s, op).taken
  {
    if s.list != [] { TailNoDup(s.list); }
  }

  lemma TakeNotify(s: State, op: Op)
    requires CondOK(s) && s.notify.Cas?
    ensures NotifyOK(NotifyStep(s, op))
  {
  }

  lemma TakeKeeps(s: State, op: Op)
    requires CondOK(s) && s.notify.Cas?
    ensures CondOK(NotifyStep(s, op)) && NotifyStep(s, op).m == s.m
  {
    var t := NotifyStep(s, op);
    TakeLists(s, op);
    TakeNotify(s, op);
    forall d | 0 <= d < |t.phases| ensures PhaseOK(t, d) { assert PhaseOK(s, d); }
  }

  lemma FollowKeeps(s: State, op: Op)
    requires CondOK(s) && !s.notify.Cas? && !s.notify.Resume?
    ensures CondOK(NotifyStep(s, op)) && NotifyStep(s, op).m == s.m
  {
    var t := NotifyStep(s, op);
    if s.notify.Unlink? {
      assert s.taken[0] == s.notify.x;
      ListFrame(s.next, t.next, s.head, s.list);
    }
    forall d | 0 <= d < |t.phases| ensures PhaseOK(t, d) { assert PhaseOK(s, d); }
  }

  /** The first of those taken, which sleeps: parked, and on no worker. */
  lemma FirstTaken(s: State)
    requires CondOK(s) && s.notify.Resume? && s.taken != []
    ensures s.notify.p == Node(s.taken[0]) && s.taken[0] < |s.phases| && s.phases[s.taken[0]].Asleep?
    ensures Parked(s, s.taken[0]) && s.notify.n != s.taken[0] && RunsOn(s, s.notify.w, s.notify.n)
  {
    assert PhaseOK(s, s.taken[0]);
  }

  lemma WokenMutex(s: State, op: Op)
    requires Inv(s) && s.notify.Resume? && s.taken != []
    ensures var t := NotifyStep(s, op);
            && Sizes(t) && MutexInv.Inv(t.m) && Moves.Moved(s.m, t.m, s.notify.w)
            && RunsOn(t, s.notify.w, s.notify.n) && t.m.ws[s.notify.w].cache == Some(s.taken[0])
  {
    FirstTaken(s);
    MutexInv.StepKeepsInv(s.m, M.Act(s.notify.w, M.Unpark(s.taken[0])));
    Moves.StepMoves(s.m, M.Act(s.notify.w, M.Unpark(s.taken[0])));
    Moves.StepTags(s.m, M.Act(s.notify.w, M.Unpark(s.taken[0])), s.taken[0]);
  }

  lemma WokenPhase(s: State, op: Op, d: nat)
    requires Inv(s) && s.notify.Resume? && s.taken != [] && d < |s.phases|
    requires Sizes(NotifyStep(s, op)) && Moves.Moved(s.m, NotifyStep(s, op).m, s.notify.w)
    requires RunsOn(NotifyStep(s, op), s.notify.w, s.notify.n)
    ensures PhaseOK(NotifyStep(s, op), d)
  {
    FirstTaken(s);
    TailNoDup(s.taken);
    assert PhaseOK(s, d) && PhaseOK(s, s.notify.n);
    Moves.StepTags(s.m, M.Act(s.notify.w, M.Unpark(s.taken[0])), d);
  }

  lemma WokenLists(s: State, op: Op)
    requires CondOK(s) && s.notify.Resume? && s.taken != []
    ensures ListsOK(NotifyStep(s, op))
  {
    FirstTaken(s);
    TailNoDup(s.taken);
  }

  lemma WokenNotify(s: State, op: Op)
    requires CondOK(s) && s.notify.Resume? && s.taken != []
    requires RunsOn(NotifyStep(s, op), s.notify.w, s.notify.n)
    requires NotifyStep(s, op).m.ws[s.notify.w].cache == Some(s.taken[0])
    ensures NotifyOK(NotifyStep(s, op))
  {
    FirstTaken(s);
    assert s.taken == [s.taken[0]] + s.taken[1..];
  }

  /** resume pushes the handle: unparked, and in the notifying worker's cache. */
  lemma ResumeKeeps(s: State, op: Op)
    requires Inv(s) && s.notify.Resume?
    ensures Inv(NotifyStep(s, op))
  {
    var t := NotifyStep(s, op);
    if s.taken != [] {
      WokenMutex(s, op);
      WokenLists(s, op);
      WokenNotify(s, op);
      forall d | 0 <= d < |s.phases| ensures PhaseOK(t, d) { WokenPhase(s, op, d); }
    } else {
      forall d | 0 <= d < |t.phases| ensures PhaseOK(t, d) { assert PhaseOK(s, d); }
    }
  }

  lemma StepKeepsInv(s: State, a: Action)
    requires Inv(s)
    ensures Inv(Next(s, a))
  {
    if a.w < |s.m.ws| {
      var pc := s.m.ws[a.w].pc;
      if !pc.Running? {
        if a.op.Mutex? {
          ParkNeedsRunning(s, a.w, a.op.op);
        }
      } else if pc.c < |s.phases| {
        if !s.notify.Quiet? && s.notify.w == a.w {
          if s.notify.Cas? { TakeKeeps(s, a.op); } else if s.notify.Resume? { ResumeKeeps(s, a.op); }
          else { FollowKeeps(s, a.op); }
        } else {
          PhaseKeeps(s, a.w, pc.c, a.op);
        }
      }
    }
  }

  /** A step of a worker that runs no coroutine: taking a handle, or a step of lock or unlock. */
  lemma ParkNeedsRunning(s: State, w: nat, op: M.Op)
    requires Inv(s) && w < |s.m.ws| && !s.m.ws[w].pc.Running?
    ensures Inv(MutexStep(s, w, op))
  {
    var o := if op.Park? then M.Go else op;
    assert M.Next(s.m, M.Act(w, op)) == M.Next(s.m, M.Act(w, o));
    MutexQuiet(s, w, o);
    QuietKeeps(s, MutexStep(s, w, o), w);
  }

  lemma InitCond(coroutines: nat, workers: nat)
    ensures CondOK(Init(coroutines, workers))
  {
  }

  lemma InitInv(coroutines: nat, workers: nat)
    ensures Inv(Init(coroutines, workers))
  {
    InitCond(coroutines, workers);
    MutexInv.InitInv(coroutines, workers);
  }

  lemma {:induction false} RunFromInv(s: State, actions: seq<Action>)
    requires Inv(s)
    ensures Inv(Run(s, actions))
    decreases |actions|
  {
    if actions != [] {
      RunFromInv(s, actions[..|actions| - 1]);
      StepKeepsInv(Run(s, actions[..|actions| - 1]), actions[|actions| - 1]);
    }
  }

  lemma RunInv(coroutines: nat, workers: nat, actions: seq<Action>)
    ensures Inv(Run(Init(coroutines, workers), actions))
  {
    InitInv(coroutines, workers);
    RunFromInv(Init(coroutines, workers), actions);
  }

  // No lost wake-up, over the run

  /** Woken in `t` at some time since `s`. */
  predicate WokenSince(s: State, t: State, c: nat) {
    |s.woken| <= |t.woken| && t.woken[..|s.woken|] == s.woken && c in t.woken[|s.woken|..]
  }

  /** A coroutine asleep stays asleep in a step, unless the step wakes it; wake-ups are never forgotten. */
  lemma StepWakes(s: State, a: Action, c: nat)
    requires |s.phases| == |s.next| && c < |s.phases| && s.phases[c].Asleep?
    ensures var t := Next(s, a);
            && c < |t.phases| && (t.phases[c].Asleep? || t.woken == s.woken + [c])
            && |s.woken| <= |t.woken| && t.woken[..|s.woken|] == s.woken
  {
  }

  lemma {:induction false} RunWakes(s: State, actions: seq<Action>, c: nat)
    requires |s.phases| == |s.next| && c < |s.phases| && s.phases[c].Asleep?
    ensures Run(s, actions).phases[c].Asleep? || WokenSince(s, Run(s, actions), c)
    decreases |actions|
  {
    if actions != [] {
      var before, a := actions[..|actions| - 1], actions[|actions| - 1];
      RunWakes(s, before, c);
      var t, u := Run(s, before), Run(s, actions);
      if t.phases[c].Asleep? {
        StepWakes(t, a, c);
        RunGrows(s, before);
        if !u.phases[c].Asleep? { assert u.woken[|t.woken|] == c && u.woken[|s.woken|..][|t.woken| - |s.woken|] == c; }
      } else {
        StepGrows(t, a);
        assert u.woken[|s.woken|..][..|t.woken| - |s.woken|] == t.woken[|s.woken|..];
      }
    }
  }

  lemma StepGrows(s: State, a: Action)
    requires |s.phases| == |s.next|
    ensures |s.woken| <= |Next(s, a).woken| && Next(s, a).woken[..|s.woken|] == s.woken
  {
  }

  lemma {:induction false} RunGrows(s: State, actions: seq<Action>)
    requires |s.phases| == |s.next|
    ensures |s.woken| <= |Run(s, actions).woken| && Run(s, actions).woken[..|s.woken|] == s.woken
    decreases |actions|
  {
    if actions != [] {
      RunGrows(s, actions[..|actions| - 1]);
      StepGrows(Run(s, actions[..|actions| - 1]), actions[|actions| - 1]);
    }
  }

  /** The action lets a coroutine that holds the mutex set the predicate. */
  predicate SetsPred(s: State, a: Action) {
    && a.op.SetPred? && a.w < |s.m.ws| && s.m.ws[a.w].pc.Running? && s.m.ws[a.w].pc.c < |s.phases|
    && (s.notify.Quiet? || s.notify.w != a.w)
    && s.phases[s.m.ws[a.w].pc.c].Plain? && Inside(s, s.m.ws[a.w].pc.c)
  }

  /** The action is the compare-exchange with which notify_all takes the list. */
  predicate TakesAll(s: State, a: Action) {
    && a.w < |s.m.ws| && s.m.ws[a.w].pc.Running? && s.m.ws[a.w].pc.c < |s.phases|
    && s.notify.Cas? && s.notify.all && s.notify.w == a.w && s.head == s.notify.h && !a.op.Spurious?
  }

  /**
   * No lost wake-up.  Whatever steps come before, in between and in which interleaving with the
   * mutex: if the predicate is set under the mutex and a notify_all takes the list later, every
   * coroutine that had seen it false in wait and not been woken is in the list taken, or was
   * woken in between.
   */
  lemma NoLostWakeup(
    coroutines: nat, workers: nat, before: seq<Action>, sets: Action, between: seq<Action>, takes: Action, c: nat)
    requires c < coroutines
    requires SetsPred(Run(Init(coroutines, workers), before), sets)
    requires var s := Run(Init(coroutines, workers), before); TakesAll(Run(Next(s, sets), between), takes)
    ensures var s := Run(Init(coroutines, workers), before);
            var u := Run(Next(s, sets), between);
            SawFalse(s.phases[c]) ==> c in Next(u, takes).taken || WokenSince(s, u, c)
  {
    RunInv(coroutines, workers, before);
    TakenOrWoken(Run(Init(coroutines, workers), before), sets, between, takes, c);
  }

  lemma TakenOrWoken(s: State, sets: Action, between: seq<Action>, takes: Action, c: nat)
    requires Inv(s) && c < |s.phases| && SetsPred(s, sets) && TakesAll(Run(Next(s, sets), between), takes)
    ensures var u := Run(Next(s, sets), between);
            SawFalse(s.phases[c]) ==> c in Next(u, takes).taken || WokenSince(s, u, c)
  {
    if SawFalse(s.phases[c]) {
      SetsPredAsleep(s, sets, c);
      RunWakes(Next(s, sets), between, c);
      if Run(Next(s, sets), between).phases[c].Asleep? {
        StepKeepsInv(s, sets);
        RunFromInv(Next(s, sets), between);
        AsleepTaken(Run(Next(s, sets), between), takes, c);
      }
    }
  }

  /** When the predicate is set, everyone who has seen it false is asleep. */
  lemma SetsPredAsleep(s: State, sets: Action, c: nat)
    requires Inv(s) && c < |s.phases| && SetsPred(s, sets) && SawFalse(s.phases[c])
    ensures Next(s, sets).phases == s.phases && s.phases[c].Asleep? && Next(s, sets).woken == s.woken
  {
    SetPredKeeps(s, sets.w, s.m.ws[sets.w].pc.c, sets.op.b);
  }

  lemma AsleepTaken(u: State, takes: Action, c: nat)
    requires Inv(u) && TakesAll(u, takes) && c < |u.phases| && u.phases[c].Asleep?
    ensures c in Next(u, takes).taken
  {
    assert PhaseOK(u, c);
  }

  /** A notify call returns when it has woken, in list order, exactly the list it took. */
  lemma NotifyReachesGoal(coroutines: nat, workers: nat, actions: seq<Action>, op: Op)
    ensures var s := Run(Init(coroutines, workers), actions);
            && (s.notify.Resume? && NotifyStep(s, op).notify.Quiet? ==> s.woken == s.notify.goal)
            && (s.notify.Cas? && s.notify.all && NotifyStep(s, op).notify.Resume? ==>
                  NotifyStep(s, op).notify.goal == s.woken + s.list && NotifyStep(s, op).list == [])
  {
    RunInv(coroutines, workers, actions);
    ReachesGoal(Run(Init(coroutines, workers), actions), op);
  }

  lemma ReachesGoal(s: State, op: Op)
    requires CondOK(s)
    ensures s.notify.Resume? && NotifyStep(s, op).notify.Quiet? ==> s.woken == s.notify.goal
    ensures s.notify.Cas? && s.notify.all && NotifyStep(s, op).notify.Resume? ==>
              NotifyStep(s, op).notify.goal == s.woken + s.list && NotifyStep(s, op).list == []
  {
    if s.notify.Resume? && s.taken != [] { FirstTaken(s); }
  }

  /**
   * The links that notify_one and resume follow belong to coroutines that no worker runs: still
   * in the list, and parked; or woken, with the handle in the notifying worker's cache.
   */
  lemma LinksAreLive(coroutines: nat, workers: nat, actions: seq<Action>, v: nat)
    ensures var s := Run(Init(coroutines, workers), actions);
            && (s.notify.Cas? && !s.notify.all ==>
                  && s.notify.h.Node? && Parked(s, s.notify.h.c)
                  && (v < |s.m.ws| ==> MutexInv.RunsOn(s.m.ws[v].pc) != Some(s.notify.h.c)))
            && (s.notify.Advance? ==>
                  && s.notify.x < |s.m.cs| && s.m.cs[s.notify.x].loc == M.Cached(s.notify.w)
                  && (v < |s.m.ws| ==> MutexInv.RunsOn(s.m.ws[v].pc) != Some(s.notify.x)))
  {
    RunInv(coroutines, workers, actions);
    var s := Run(Init(coroutines, workers), actions);
    if s.notify.Cas? && !s.notify.all {
      assert PhaseOK(s, s.notify.h.c);
      if v < |s.m.ws| { ParkedNowhere(s.m, s.notify.h.c, v); }
    }
    if s.notify.Advance? {
      CachedThere(s.m, s.notify.w, s.notify.x);
      if v < |s.m.ws| && MutexInv.RunsOn(s.m.ws[v].pc) == Some(s.notify.x) {
        Moves.OneWorker(s.m, v, s.notify.w, s.notify.x);
      }
    }
  }

  lemma ParkedNowhere(m: M.State, c: nat, v: nat)
    requires MutexInv.Inv(m) && c < |m.cs| && m.cs[c].tag.Parked? && v < |m.ws|
    ensures MutexInv.RunsOn(m.ws[v].pc) != Some(c)
  {
    assert MutexInv.CoOK(m, c) && MutexInv.WkOK(m, v);
  }

  lemma CachedThere(m: M.State, w: nat, c: nat)
    requires MutexInv.Inv(m) && w < |m.ws| && m.ws[w].cache == Some(c)
    ensures c < |m.cs| && m.cs[c].loc == M.Cached(w)
  {
    assert MutexInv.WkOK(m, w);
  }

  /** wait returns only with the predicate true, to the coroutine that holds the mutex. */
  lemma WaitReturns(coroutines: nat, workers: nat, actions: seq<Action>, a: Action, c: nat)
    requires c < coroutines
    ensures var s := Run(Init(coroutines, workers), actions);
            s.phases[c].Check? && Next(s, a).phases[c].Plain? ==> s.pred && s.m.holder == M.Held(c)
  {
    RunInv(coroutines, workers, actions);
    ReturnsHeld(Run(Init(coroutines, workers), actions), a, c);
  }

  lemma ReturnsHeld(s: State, a: Action, c: nat)
    requires Inv(s) && c < |s.phases|
    ensures s.phases[c].Check? && Next(s, a).phases[c].Plain? ==> s.pred && s.m.holder == M.Held(c)
  {
    if s.phases[c].Check? {
      assert PhaseOK(s, c);
      InsideHolds(s.m, c);
      if !s.pred { StaysInCheck(s, a, c); }
    }
  }

  lemma StaysInCheck(s: State, a: Action, c: nat)
    requires |s.phases| == |s.next| && c < |s.phases| && s.phases[c].Check? && !s.pred
    ensures !Next(s, a).phases[c].Plain?
  {
  }

  lemma InsideHolds(m: M.State, c: nat)
    requires MutexInv.Inv(m) && c < |m.cs| && m.cs[c].tag.Inside?
    ensures m.holder == M.Held(c)
  {
    assert MutexInv.CoOK(m, c);
  }

  /** The mutex under the condition variable is the mutex: its results hold in every such run. */
  lemma MutexStillExcludes(coroutines: nat, workers: nat, actions: seq<Action>, c: nat, d: nat)
    ensures var s := Run(Init(coroutines, workers), actions);
            && (Inside(s, c) && Inside(s, d) ==> c == d)
            && s.m.enqueued == s.m.granted + MutexInv.Waiters(s.m)
  {
    RunInv(coroutines, workers, actions);
    var s := Run(Init(coroutines, workers), actions);
    if Inside(s, c) && Inside(s, d) { Moves.OneInside(s.m, c, d); }
  }
}

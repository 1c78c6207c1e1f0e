/**
 * The condition variable on top of the mutex machine: one step per atomic access to the list
 * head or to the mutex.  Waiting parks a coroutine of that machine and notifying unparks it
 * through the notifying worker's task cache.  One notifier at a time.
 */
module CondVar {
  import opened Prelude
  import M = CoMutex

  datatype Ptr = Nil | Node(c: nat)

  /**
   * Where a coroutine stands in wait, and on which worker.  `Check` re-evaluates the predicate;
   * `Link` and `Push` are await_suspend up to its compare-exchange; `Relock` was unparked and
   * has to take the mutex again.
   */
  datatype Phase = Plain | Check(w: nat) | Link(w: nat) | Push(w: nat) | Asleep | Relock

  /** Coroutine `n` notifies on worker `w`; `goal` is the history of wake-ups that its call has to reach. */
  datatype Notify =
    | Quiet
    | Load(n: nat, w: nat, all: bool)
    | Cas(n: nat, w: nat, all: bool, h: Ptr)
    | Unlink(n: nat, w: nat, x: nat, goal: seq<nat>)
    | Resume(n: nat, w: nat, p: Ptr, goal: seq<nat>)
    | Advance(n: nat, w: nat, x: nat, goal: seq<nat>)

  /**
   * `m` is the mutex with its coroutines and workers; `head` and `next` are the condition
   * variable; `pred` is what the predicate reads.  `list`, `taken` and `woken` are history: what
   * the pointers stand for, what the notifier has taken and not yet woken, and every wake-up.
   */
  datatype State = State(
    m: M.State, pred: bool, head: Ptr, next: seq<Ptr>, phases: seq<Phase>, notify: Notify,
    list: seq<nat>, taken: seq<nat>, woken: seq<nat>)

  datatype Op = Mutex(op: M.Op) | Wait | SetPred(b: bool) | NotifyAll | NotifyOne | Go | Spurious

  datatype Action = Act(w: nat, op: Op)

  predicate Inside(s: State, c: nat) { c < |s.m.cs| && s.m.cs[c].tag.Inside? }

  function MutexStep(s: State, w: nat, op: M.Op): State { s.(m := M.Next(s.m, M.Act(w, op))) }

  function SetPhase(s: State, c: nat, p: Phase): State
    requires c < |s.phases|
  {
    s.(phases := s.phases[c := p])
  }

  /** The coroutine that runs on worker `w` and does not notify. */
  function PhaseStep(s: State, w: nat, c: nat, op: Op): (t: State)
    requires c < |s.phases| == |s.next|
    ensures |t.phases| == |t.next| == |s.phases|
  {
    match s.phases[c]
    case Plain => PlainStep(s, w, c, op)
    case Check(_) => SetPhase(s, c, if s.pred then Plain else Link(w))
    case Link(_) => SetPhase(s, c, Push(w)).(next := s.next[c := s.head])
    case Push(_) =>
      if s.head == s.next[c] && !op.Spurious? then
        MutexStep(SetPhase(s, c, Asleep), w, M.Park).(head := Node(c), list := [c] + s.list)
      else s.(next := s.next[c := s.head])
    case Asleep => s
    case Relock => if Inside(s, c) then SetPhase(s, c, Check(w)) else MutexStep(s, w, M.Lock)
  }

  function PlainStep(s: State, w: nat, c: nat, op: Op): (t: State)
    requires c < |s.phases|
    ensures |t.phases| == |s.phases| && t.next == s.next
  {
    match op
    case Mutex(o) => if o.Lock? || o.Unlock? || o.Yield? then MutexStep(s, w, o) else s
    case Wait => if Inside(s, c) then SetPhase(s, c, Check(w)) else s
    case SetPred(b) => if Inside(s, c) then s.(pred := b) else s
    case NotifyAll => if s.notify.Quiet? then s.(notify := Load(c, w, true)) else s
    case NotifyOne => if s.notify.Quiet? then s.(notify := Load(c, w, false)) else s
    case _ => s
  }

  function NotifyStep(s: State, op: Op): (t: State)
    requires |s.phases| == |s.next|
    ensures |t.phases| == |t.next| == |s.phases|
  {
    match s.notify
    case Quiet => s
    case Load(n, w, all) => s.(notify := if !all && s.head.Nil? then Quiet else Cas(n, w, all, s.head))
    case Cas(n, w, all, h) =>
      if s.head != h || op.Spurious? then s.(notify := Cas(n, w, all, s.head))
      else if all then
        s.(head := Nil, list := [], taken := s.list, notify := Resume(n, w, h, s.woken + s.list))
      else if h.Node? && h.c < |s.next| && s.list != [] then
        s.(head := s.next[h.c], list := s.list[1..], taken := [h.c], notify := Unlink(n, w, h.c, s.woken + [h.c]))
      else s
    case Unlink(n, w, x, goal) =>
      if x < |s.next| then s.(next := s.next[x := Nil], notify := Resume(n, w, Node(x), goal)) else s
    case Resume(n, w, p, goal) =>
      if p.Node? && p.c < |s.phases| && s.taken != [] then
        MutexStep(SetPhase(s, p.c, Relock), w, M.Unpark(p.c))
        .(taken := s.taken[1..], woken := s.woken + [p.c], notify := Advance(n, w, p.c, goal))
      else s.(notify := Quiet)
    case Advance(n, w, x, goal) => if x < |s.next| then s.(notify := Resume(n, w, s.next[x], goal)) else s
  }

  function Next(s: State, a: Action): (t: State)
    requires |s.phases| == |s.next|
    ensures |t.phases| == |t.next| == |s.phases|
  {
    if a.w >= |s.m.ws| then s
    else if !s.m.ws[a.w].pc.Running? then if a.op.Mutex? then MutexStep(s, a.w, a.op.op) else s
    else if s.m.ws[a.w].pc.c >= |s.phases| then s
    else if !s.notify.Quiet? && s.notify.w == a.w then NotifyStep(s, a.op)
    else PhaseStep(s, a.w, s.m.ws[a.w].pc.c, a.op)
  }

  function Init(coroutines: nat, workers: nat): State {
    State(M.Init(coroutines, workers), false, Nil, seq(coroutines, i => Nil), seq(coroutines, i => Plain), Quiet,
          [], [], [])
  }

  function Run(s: State, actions: seq<Action>): (t: State)
    requires |s.phases| == |s.next|
    ensures |t.phases| == |t.next| == |s.phases|
    decreases |actions|
  {
    if actions == [] then s
    else Next(Run(s, actions[..|actions| - 1]), actions[|actions| - 1])
  }
}

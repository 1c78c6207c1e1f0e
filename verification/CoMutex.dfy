/**
 * The coroutine mutex as a transition system: coroutines on worker threads, one step per
 * atomic access to the state pointer, with the workers' task caches through which a
 * woken coroutine travels.
 */
module CoMutex {
  import opened Prelude

  /** The state pointer: the mutex itself (unlocked), null, or the newest waiter. */
  datatype Ptr = Unlocked | Nil | Node(c: nat)

  /** What a coroutine may do next; `Parked` is suspended on something else than the mutex. */
  datatype Tag = Free | Inside | Waiting | Parked

  /** Where a coroutine's handle is; `Queued` is any place that other workers take from. */
  datatype Loc = Nowhere | On(w: nat) | Cached(w: nat) | Queued

  /** `next` is the link field of the awaiter in the coroutine's frame. */
  datatype Co = Co(tag: Tag, loc: Loc, next: Ptr)

  datatype LockPC = LoadState | Seen(st: Ptr) | Linked(st: Ptr)

  datatype UnlockPC =
    | CheckLocked | ReadFifo | ReloadState | ReleaseCas | Exchange
    | Reverse(lifo: Ptr) | Grant | Advance

  /** `Unlock(None, _)` finishes the unlock of a coroutine that is already suspended. */
  datatype PC =
    | Idle
    | Running(c: nat)
    | Locking(c: nat, lock: LockPC)
    | Unlocking(back: Option<nat>, unlock: UnlockPC)
    | Terminated

  datatype Worker = Worker(cache: Option<nat>, pc: PC)

  /** Who may touch what the mutex protects: a coroutine, or the worker that is unlocking. */
  datatype Holder = NoOne | Held(c: nat) | Releasing(w: nat)

  /**
   * `state` and `fifo` are the mutex.  The rest below `ws` is history that no step reads:
   * the holder, the lists that the pointers stand for, whether a granted waiter is still at
   * the head of `fifo`, the waiters in the order of their enqueuing, and those granted.
   */
  datatype State = State(
    state: Ptr, fifo: Ptr, cs: seq<Co>, ws: seq<Worker>,
    holder: Holder, stack: seq<nat>, rest: seq<nat>, fifos: seq<nat>, granting: bool,
    enqueued: seq<nat>, granted: seq<nat>, unlocks: nat)

  datatype Op =
    | Lock | Unlock | Park | Yield      // what a running coroutine does
    | Unpark(c: nat)                    // a running coroutine wakes a parked one
    | TakeCache | TakeQueued(c: nat)    // what an idle worker resumes
    | Go | Spurious

  datatype Action = Act(w: nat, op: Op)

  /** push_task_to_local_queue: into the worker's cache, whose old content becomes stealable. */
  function PushHandle(s: State, w: nat, c: nat): State
    requires w < |s.ws| && c < |s.cs|
  {
    var out := s.ws[w].cache;
    var cs := if out.Some? && out.value < |s.cs| then s.cs[out.value := s.cs[out.value].(loc := Queued)] else s.cs;
    s.(cs := cs[c := cs[c].(loc := Cached(w))], ws := s.ws[w := s.ws[w].(cache := Some(c))])
  }

  function SetPC(s: State, w: nat, pc: PC): State
    requires w < |s.ws|
  {
    s.(ws := s.ws[w := s.ws[w].(pc := pc)])
  }

  function SetCo(s: State, c: nat, co: Co): State
    requires c < |s.cs|
  {
    s.(cs := s.cs[c := co])
  }

  function IdleStep(s: State, w: nat, op: Op): State
    requires w < |s.ws|
  {
    match op
    case TakeCache =>
      var cache := s.ws[w].cache;
      if cache.Some? && cache.value < |s.cs| then
        var c := cache.value;
        SetCo(s, c, s.cs[c].(loc := On(w))).(ws := s.ws[w := Worker(None, Running(c))])
      else s
    case TakeQueued(c) =>
      if c < |s.cs| && s.cs[c].loc.Queued? then
        SetPC(SetCo(s, c, s.cs[c].(loc := On(w))), w, Running(c))
      else s
    case _ => s
  }

  function RunStep(s: State, w: nat, c: nat, op: Op): State
    requires w < |s.ws| && c < |s.cs|
  {
    match op
    case Lock => if s.cs[c].tag.Free? then SetPC(s, w, Locking(c, LoadState)) else s
    case Unlock =>
      if s.cs[c].tag.Inside? then
        SetPC(SetCo(s, c, s.cs[c].(tag := Free)), w, Unlocking(Some(c), CheckLocked)).(holder := Releasing(w))
      else s
    case Park =>
      if s.cs[c].tag.Inside? then
        SetPC(SetCo(s, c, s.cs[c].(tag := Parked, loc := Nowhere)), w, Unlocking(None, CheckLocked))
        .(holder := Releasing(w))
      else s
    case Yield => SetPC(SetCo(s, c, s.cs[c].(loc := Queued)), w, Idle)
    case Unpark(d) =>
      if d < |s.cs| && s.cs[d].tag.Parked? then
        PushHandle(SetCo(s, d, s.cs[d].(tag := Free)), w, d)
      else s
    case _ => s
  }

  function LockStep(s: State, w: nat, c: nat, p: LockPC, op: Op): State
    requires w < |s.ws| && c < |s.cs|
  {
    match p
    case LoadState => SetPC(s, w, Locking(c, Seen(s.state)))
    case Seen(st) =>
      if st.Unlocked? then
        if s.state == st && !op.Spurious? then
          SetPC(SetCo(s, c, s.cs[c].(tag := Inside)), w, Running(c)).(state := Nil, holder := Held(c))
        else SetPC(s, w, Locking(c, Seen(s.state)))
      else SetPC(SetCo(s, c, s.cs[c].(next := st)), w, Locking(c, Linked(st)))
    case Linked(st) =>
      if s.state == st && !op.Spurious? then
        SetPC(SetCo(s, c, s.cs[c].(tag := Waiting, loc := Nowhere)), w, Idle)
        .(state := Node(c), stack := [c] + s.stack, enqueued := s.enqueued + [c])
      else SetPC(s, w, Locking(c, Seen(s.state)))
  }

  function Done(back: Option<nat>): PC { if back.Some? then Running(back.value) else Idle }

  function UnlockStep(s: State, w: nat, back: Option<nat>, p: UnlockPC): State
    requires w < |s.ws|
  {
    match p
    case CheckLocked => SetPC(s, w, if s.state.Unlocked? then Terminated else Unlocking(back, ReadFifo))
    case ReadFifo => SetPC(s, w, Unlocking(back, if s.fifo.Nil? then ReloadState else Grant))
    case ReloadState => SetPC(s, w, Unlocking(back, if s.state.Nil? then ReleaseCas else Exchange))
    case ReleaseCas =>
      if s.state.Nil? then
        SetPC(s, w, Done(back)).(state := Unlocked, holder := NoOne, unlocks := s.unlocks + 1)
      else SetPC(s, w, Unlocking(back, Exchange))
    case Exchange =>
      SetPC(s, w, Unlocking(back, Reverse(s.state))).(state := Nil, stack := [], rest := s.stack)
    case Reverse(lifo) =>
      if lifo.Node? && lifo.c < |s.cs| && s.rest != [] then
        var next := s.cs[lifo.c].next;
        SetPC(SetCo(s, lifo.c, s.cs[lifo.c].(next := s.fifo)), w,
              Unlocking(back, if next.Nil? then Grant else Reverse(next)))
        .(fifo := lifo, fifos := [s.rest[0]] + s.fifos, rest := s.rest[1..])
      else SetPC(s, w, Terminated)   // dereferences null
    case Grant =>
      if s.fifo.Node? && s.fifo.c < |s.cs| then
        var f := s.fifo.c;
        SetPC(PushHandle(SetCo(s, f, s.cs[f].(tag := Inside)), w, f), w, Unlocking(back, Advance))
        .(holder := Held(f), granting := true, granted := s.granted + [f], unlocks := s.unlocks + 1)
      else SetPC(s, w, Terminated)   // dereferences null
    case Advance =>
      if s.fifo.Node? && s.fifo.c < |s.cs| && s.fifos != [] then
        SetPC(s, w, Done(back)).(fifo := s.cs[s.fifo.c].next, fifos := s.fifos[1..], granting := false)
      else SetPC(s, w, Terminated)   // dereferences null
  }

  function Next(s: State, a: Action): State {
    if a.w >= |s.ws| then s
    else
      match s.ws[a.w].pc
      case Idle => IdleStep(s, a.w, a.op)
      case Running(c) => if c < |s.cs| then RunStep(s, a.w, c, a.op) else s
      case Locking(c, p) => if c < |s.cs| then LockStep(s, a.w, c, p, a.op) else s
      case Unlocking(back, p) => UnlockStep(s, a.w, back, p)
      case Terminated => s
  }

  /** Any number of coroutines, ready to run, and idle workers. */
  function Init(coroutines: nat, workers: nat): State {
    State(Unlocked, Nil, seq(coroutines, i => Co(Free, Queued, Nil)), seq(workers, i => Worker(None, Idle)),
          NoOne, [], [], [], false, [], [], 0)
  }

  function Run(s: State, actions: seq<Action>): State
    decreases |actions|
  {
    if actions == [] then s
    else Next(Run(s, actions[..|actions| - 1]), actions[|actions| - 1])
  }
}

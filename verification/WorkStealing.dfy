/**
 * The work-stealing scheduler as a transition system: one step per atomic load,
 * store or compare-exchange, any number of workers, sequentially consistent memory.
 *
 * All index arithmetic takes a modulus `M`.  With `M == 0` the ring indices are
 * unbounded; with `M == WORD` they are the 32-bit words that the code keeps.  The
 * program text is the same in both, so the two machines differ in wrap-around only.
 */
module WorkStealing {
  import opened Prelude

  const CAPACITY: nat := 256
  const HALF: nat := 128
  const WORD: nat := 0x1_0000_0000

  /** A coroutine handle; the code stores null into emptied slots. */
  datatype Handle = Null | Task(id: nat)

  type Slots = s: seq<Handle> | |s| == CAPACITY witness seq(CAPACITY, i => Null)

  /**
   * A local queue.  `claimed` is bookkeeping that no step reads: the end of the
   * range that the thief between its claim and its commit took, or `steal`.
   */
  datatype Queue = Queue(slots: Slots, steal: nat, head: nat, tail: nat, claimed: nat)

  // Program counters; the arguments are the code's local variables.

  /** push_back, with handle_overflow. */
  datatype PushPC =
    | PushHead
    | PushTail(st: nat, lh: nat)
    | OverflowCas(lh: nat)
    | OverflowTake(lh: nat, vec: seq<Handle>)
    | OverflowFlush(vec: seq<Handle>)
    | PushGlobal
    | PushWrite(tl: nat)
    | PushStore(tl: nat)

  /** try_pop. */
  datatype PopPC = PopHead | PopTail(st: nat, lh: nat) | PopCas(st: nat, lh: nat) | PopTake(at: nat)

  /** be_stolen_by, run by the thief. */
  datatype ThiefPC =
    | OwnHead
    | OwnTail(own: nat)
    | SrcHead(dt: nat)
    | SrcTail(dt: nat, st: nat, lh: nat)
    | ClaimCas(dt: nat, st: nat, lh: nat, n: nat)
    | Copy(dt: nat, base: nat, n: nat, k: nat)
    | CommitCas(dt: nat, n: nat, st: nat, lh: nat)
    | TakeLast(dt: nat, n: nat)
    | StoreTail(last: Handle, nt: nat)

  /** get_next_task's batch: remain_size, try_pop_batch, push_back_batch. */
  datatype RefillPC =
    | RemainTail
    | RemainHead(tl: nat)
    | PopBatch(num: nat)
    | BatchTail(vec: seq<Handle>, last: Handle)
    | BatchWrite(vec: seq<Handle>, last: Handle, tl: nat, k: nat)
    | BatchStore(last: Handle, nt: nat)

  /** has_task, and the kernel wait that follows when it finds nothing. */
  datatype SleepPC = SizeTail | SizeHead(tl: nat) | Blocked

  /**
   * `Got` holds a handle about to be resumed.  In `Pushing`, `keep` is the handle that
   * goes into the task cache once the displaced handle `x` is queued.
   */
  datatype PC =
    | Idle
    | Got(h: Handle)
    | Pushing(x: Handle, keep: Option<Handle>, push: PushPC)
    | Popping(pop: PopPC)
    | Stealing(v: nat, thief: ThiefPC)
    | Refilling(refill: RefillPC)
    | Sleeping(sleep: SleepPC)

  datatype Worker = Worker(q: Queue, cache: Option<Handle>, pc: PC)

  /** `submitted` and `resumed` record every handle that entered and left the scheduler. */
  datatype State = State(ws: seq<Worker>, global: seq<Handle>,
                         submitted: multiset<Handle>, resumed: multiset<Handle>)

  /** What the next step of a worker is, where the code or its environment has a choice. */
  datatype Op =
    | Schedule(h: Handle)   // push_task_to_local_queue from a running coroutine
    | Enqueue(h: Handle)    // completed I/O or expired timer
    | TakeCache | TryPop | TakeGlobal | Refill | Steal(v: nat) | Sleep
    | Go                    // continue the operation in progress
    | Spurious              // continue, and a weak compare-exchange fails spuriously

  datatype Action = Submit(hs: seq<Handle>) | Act(w: nat, op: Op)

  /** What one step of a worker does to itself, to the queue it steals from and to the rest. */
  datatype Effect = Effect(wk: Worker, src: Queue, global: seq<Handle>,
                           submitted: multiset<Handle>, resumed: multiset<Handle>)

  function Add(M: nat, a: nat, b: nat): nat {
    if M == 0 then a + b else (a + b) % M
  }

  function Sub(M: nat, a: nat, b: nat): nat {
    if M == 0 then if b <= a then a - b else 0 else (a - b) % M
  }

  function At(slots: Slots, i: nat): Handle { slots[i % CAPACITY] }

  function Put(slots: Slots, i: nat, h: Handle): Slots { slots[i % CAPACITY := h] }

  /** End of push_back: the displaced handle is queued and `keep` enters the cache. */
  function Pushed(wk: Worker, keep: Option<Handle>): Worker {
    wk.(pc := Idle, cache := if keep.Some? then keep else wk.cache)
  }

  function PushStep(M: nat, wk: Worker, g: seq<Handle>, op: Op): (Worker, seq<Handle>)
    requires wk.pc.Pushing?
  {
    var (q, x, keep) := (wk.q, wk.pc.x, wk.pc.keep);
    match wk.pc.push
    case PushHead => (wk.(pc := Pushing(x, keep, PushTail(q.steal, q.head))), g)
    case PushTail(st, lh) =>
      var p := if Sub(M, q.tail, st) < CAPACITY then PushWrite(q.tail)
               else if st != lh then PushGlobal
               else OverflowCas(lh);
      (wk.(pc := Pushing(x, keep, p)), g)
    case OverflowCas(lh) =>
      if q.steal != lh || q.head != lh then (wk.(pc := Pushing(x, keep, PushHead)), g)
      else if op.Spurious? then (wk, g)
      else
        var nh := Add(M, lh, HALF);
        (wk.(q := q.(steal := nh, head := nh, claimed := nh),
             pc := Pushing(x, keep, OverflowTake(lh, []))), g)
    case OverflowTake(lh, vec) =>
      if |vec| < HALF then
        var i := Add(M, lh, |vec|);
        (wk.(q := q.(slots := Put(q.slots, i, Null)),
             pc := Pushing(x, keep, OverflowTake(lh, vec + [At(q.slots, i)]))), g)
      else (wk.(pc := Pushing(x, keep, OverflowFlush(vec))), g)
    case OverflowFlush(vec) => (Pushed(wk, keep), g + vec + [x])
    case PushGlobal => (Pushed(wk, keep), g + [x])
    case PushWrite(tl) =>
      (wk.(q := q.(slots := Put(q.slots, tl, x)), pc := Pushing(x, keep, PushStore(tl))), g)
    case PushStore(tl) => (Pushed(wk.(q := q.(tail := Add(M, tl, 1))), keep), g)
  }

  function PopStep(M: nat, wk: Worker, op: Op): Worker
    requires wk.pc.Popping?
  {
    var q := wk.q;
    match wk.pc.pop
    case PopHead => wk.(pc := Popping(PopTail(q.steal, q.head)))
    case PopTail(st, lh) => wk.(pc := if lh == q.tail then Idle else Popping(PopCas(st, lh)))
    case PopCas(st, lh) =>
      if q.steal != st || q.head != lh || op.Spurious? then
        wk.(pc := Popping(PopTail(q.steal, q.head)))
      else
        var nh := Add(M, lh, 1);
        wk.(q := if lh == st then q.(steal := nh, head := nh, claimed := nh) else q.(head := nh),
            pc := Popping(PopTake(lh)))
    case PopTake(i) =>
      wk.(q := q.(slots := Put(q.slots, i, Null)), pc := Got(At(q.slots, i)))
  }

  function ThiefStep(M: nat, wk: Worker, src: Queue, op: Op): (Worker, Queue)
    requires wk.pc.Stealing?
  {
    var (q, v) := (wk.q, wk.pc.v);
    match wk.pc.thief
    case OwnHead => (wk.(pc := Stealing(v, OwnTail(q.steal))), src)
    case OwnTail(own) =>
      (wk.(pc := if Sub(M, q.tail, own) > HALF then Idle else Stealing(v, SrcHead(q.tail))), src)
    case SrcHead(dt) => (wk.(pc := Stealing(v, SrcTail(dt, src.steal, src.head))), src)
    case SrcTail(dt, st, lh) =>
      var n := Sub(M, src.tail, lh) / 2;
      (wk.(pc := if st != lh || n == 0 then Idle else Stealing(v, ClaimCas(dt, st, lh, n))), src)
    case ClaimCas(dt, st, lh, n) =>
      if src.steal != st || src.head != lh || op.Spurious? then
        (wk.(pc := Stealing(v, SrcTail(dt, src.steal, src.head))), src)
      else
        var nh := Add(M, lh, n);
        (wk.(pc := Stealing(v, Copy(dt, st, n, 0))), src.(head := nh, claimed := nh))
    case Copy(dt, base, n, k) =>
      if k < n then
        (wk.(q := q.(slots := Put(q.slots, Add(M, dt, k), At(src.slots, Add(M, base, k)))),
             pc := Stealing(v, Copy(dt, base, n, k + 1))), src)
      else (wk.(pc := Stealing(v, CommitCas(dt, n, base, Add(M, base, n)))), src)
    case CommitCas(dt, n, st, lh) =>
      if src.steal != st || src.head != lh || op.Spurious? then
        (wk.(pc := Stealing(v, CommitCas(dt, n, src.steal, src.head))), src)
      else (wk.(pc := Stealing(v, TakeLast(dt, n))), src.(steal := lh, claimed := lh))
    case TakeLast(dt, n) =>
      var nt := Add(M, dt, if n > 0 then n - 1 else 0);
      (wk.(pc := if n <= 1 then Got(At(q.slots, nt)) else Stealing(v, StoreTail(At(q.slots, nt), nt))), src)
    case StoreTail(last, nt) => (wk.(q := q.(tail := nt), pc := Got(last)), src)
  }

  function RefillStep(M: nat, wk: Worker, g: seq<Handle>): (Worker, seq<Handle>)
    requires wk.pc.Refilling?
  {
    var q := wk.q;
    match wk.pc.refill
    case RemainTail => (wk.(pc := Refilling(RemainHead(q.tail))), g)
    case RemainHead(tl) =>
      var used := Sub(M, tl, q.steal);
      var remain := if used <= CAPACITY then CAPACITY - used else 0;
      var num := if remain < HALF then remain else HALF;
      (wk.(pc := if num == 0 then Idle else Refilling(PopBatch(num))), g)
    case PopBatch(num) =>
      var n := if |g| < num then |g| else num;
      if n == 0 then (wk.(pc := Idle), g)
      else
        var (vec, last) := (g[..n - 1], g[n - 1]);
        (wk.(pc := if vec == [] then Got(last) else Refilling(BatchTail(vec, last))), g[n..])
    case BatchTail(vec, last) => (wk.(pc := Refilling(BatchWrite(vec, last, q.tail, 0))), g)
    case BatchWrite(vec, last, tl, k) =>
      if k < |vec| then
        (wk.(q := q.(slots := Put(q.slots, Add(M, tl, k), vec[k])),
             pc := Refilling(BatchWrite(vec, last, tl, k + 1))), g)
      else (wk.(pc := Refilling(BatchStore(last, Add(M, tl, |vec|)))), g)
    case BatchStore(last, nt) => (wk.(q := q.(tail := nt), pc := Got(last)), g)
  }

  function SleepStep(M: nat, wk: Worker): Worker
    requires wk.pc.Sleeping?
  {
    match wk.pc.sleep
    case SizeTail => wk.(pc := Sleeping(SizeHead(wk.q.tail)))
    case SizeHead(tl) => wk.(pc := if Sub(M, tl, wk.q.head) == 0 then Sleeping(Blocked) else Idle)
    case Blocked => wk.(pc := Idle)
  }

  /** A worker between operations: in its run loop or inside a resumed coroutine. */
  function IdleStep(wk: Worker, src: Queue, g: seq<Handle>, op: Op): Effect {
    match op
    case Schedule(h) =>
      Effect(if wk.cache.None? then wk.(cache := Some(h))
             else wk.(cache := None, pc := Pushing(wk.cache.value, Some(h), PushHead)),
             src, g, multiset{h}, multiset{})
    case Enqueue(h) => Effect(wk.(pc := Pushing(h, None, PushHead)), src, g, multiset{h}, multiset{})
    case TakeGlobal =>
      if g == [] then Effect(wk, src, g, multiset{}, multiset{})
      else Effect(wk.(pc := Got(g[0])), src, g[1..], multiset{}, multiset{})
    case TakeCache =>
      Effect(if wk.cache.Some? then wk.(cache := None, pc := Got(wk.cache.value)) else wk,
             src, g, multiset{}, multiset{})
    case TryPop =>
      Effect(if wk.cache.Some? then wk else wk.(pc := Popping(PopHead)), src, g, multiset{}, multiset{})
    case Sleep =>
      Effect(if wk.cache.Some? then wk else wk.(pc := Sleeping(SizeTail)), src, g, multiset{}, multiset{})
    case Refill => Effect(wk.(pc := Refilling(RemainTail)), src, g, multiset{}, multiset{})
    case Steal(v) => Effect(wk.(pc := Stealing(v, OwnHead)), src, g, multiset{}, multiset{})
    case _ => Effect(wk, src, g, multiset{}, multiset{})
  }

  function Step(M: nat, wk: Worker, src: Queue, g: seq<Handle>, op: Op): Effect {
    match wk.pc
    case Idle => IdleStep(wk, src, g, op)
    case Got(h) => Effect(wk.(pc := Idle), src, g, multiset{}, multiset{h})
    case Pushing(_, _, _) =>
      var (r, g') := PushStep(M, wk, g, op);
      Effect(r, src, g', multiset{}, multiset{})
    case Popping(_) => Effect(PopStep(M, wk, op), src, g, multiset{}, multiset{})
    case Stealing(_, _) =>
      var (r, src') := ThiefStep(M, wk, src, op);
      Effect(r, src', g, multiset{}, multiset{})
    case Refilling(_) =>
      var (r, g') := RefillStep(M, wk, g);
      Effect(r, src, g', multiset{}, multiset{})
    case Sleeping(_) => Effect(SleepStep(M, wk), src, g, multiset{}, multiset{})
  }

  /** The worker that `w` is stealing from; `w` itself when it is not stealing. */
  function Victim(s: State, w: nat): (v: nat)
    requires w < |s.ws|
    ensures v < |s.ws|
  {
    if s.ws[w].pc.Stealing? && s.ws[w].pc.v < |s.ws| then s.ws[w].pc.v else w
  }

  /** Steps that the code cannot take: stealing from oneself or from nobody. */
  predicate Disabled(s: State, w: nat, op: Op) {
    || w >= |s.ws|
    || (op.Steal? && (op.v >= |s.ws| || op.v == w))
  }

  function Apply(s: State, w: nat, e: Effect): State
    requires w < |s.ws|
  {
    var v := Victim(s, w);
    State(s.ws[v := s.ws[v].(q := e.src)][w := e.wk], e.global,
          s.submitted + e.submitted, s.resumed + e.resumed)
  }

  function Next(M: nat, s: State, a: Action): State {
    match a
    case Submit(hs) => s.(global := s.global + hs, submitted := s.submitted + multiset(hs))
    case Act(w, op) =>
      if Disabled(s, w, op) then s
      else Apply(s, w, Step(M, s.ws[w], s.ws[Victim(s, w)].q, s.global, op))
  }

  function EmptyQueue(): Queue { Queue(seq(CAPACITY, i => Null), 0, 0, 0, 0) }

  function Init(n: nat): State {
    State(seq(n, i => Worker(EmptyQueue(), None, Idle)), [], multiset{}, multiset{})
  }

  function Run(M: nat, s: State, actions: seq<Action>): State
    decreases |actions|
  {
    if actions == [] then s
    else Next(M, Run(M, s, actions[..|actions| - 1]), actions[|actions| - 1])
  }
}

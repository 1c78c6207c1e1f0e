/** No step of the scheduler loses, copies or invents a handle. */
module WorkStealingConservation {
  import opened Prelude
  import opened WorkStealing
  import opened WorkStealingInv
  import opened Sums

  // How often handle `h` sits in each place.

  function One(x: Handle, h: Handle): nat { if x == h then 1 else 0 }

  function Opt(x: Option<Handle>, h: Handle): nat { if x.Some? then One(x.value, h) else 0 }

  function InSeq(xs: seq<Handle>, h: Handle): nat { multiset(xs)[h] }

  /** Among the `n` ring positions from `a` on. */
  function InRing(slots: Slots, a: nat, n: nat, h: Handle): nat {
    if n == 0 then 0 else InRing(slots, a, n - 1, h) + One(At(slots, a + n - 1), h)
  }

  /** Among the tasks that the owner may pop and a thief may claim. */
  function InQueue(M: nat, q: Queue, h: Handle): nat { InRing(q.slots, q.head, Sub(M, q.tail, q.head), h) }

  function InPush(q: Queue, x: Handle, p: PushPC, h: Handle): nat {
    match p
    case OverflowTake(lh, vec) =>
      InSeq(vec, h) + InRing(q.slots, lh + |vec|, if |vec| <= HALF then HALF - |vec| else 0, h) + One(x, h)
    case OverflowFlush(vec) => InSeq(vec, h) + One(x, h)
    case PushStore(tl) => One(At(q.slots, tl), h)
    case _ => One(x, h)
  }

  function InPop(q: Queue, p: PopPC, h: Handle): nat {
    if p.PopTake? then One(At(q.slots, p.at), h) else 0
  }

  /** What a thief has copied, and what it claimed and has still to copy. */
  function InTheft(M: nat, q: Queue, src: Queue, p: ThiefPC, h: Handle): nat {
    match p
    case Copy(dt, base, n, k) =>
      InRing(q.slots, dt, k, h) + InRing(src.slots, base + k, if k <= n then n - k else 0, h)
    case CommitCas(dt, n, _, _) => InRing(q.slots, dt, n, h)
    case TakeLast(dt, n) => InRing(q.slots, dt, n, h)
    case StoreTail(last, nt) => InRing(q.slots, q.tail, Sub(M, nt, q.tail), h) + One(last, h)
    case _ => 0
  }

  function InRefill(M: nat, q: Queue, p: RefillPC, h: Handle): nat {
    match p
    case BatchTail(vec, last) => InSeq(vec, h) + One(last, h)
    case BatchWrite(vec, last, tl, k) =>
      InRing(q.slots, tl, k, h) + (if k <= |vec| then InSeq(vec[k..], h) else 0) + One(last, h)
    case BatchStore(last, nt) => InRing(q.slots, q.tail, Sub(M, nt, q.tail), h) + One(last, h)
    case _ => 0
  }

  /** In the hands of a worker: taken from one place and not yet put in the next. */
  function InHand(M: nat, wk: Worker, src: Queue, h: Handle): nat {
    match wk.pc
    case Got(x) => One(x, h)
    case Pushing(x, keep, p) => InPush(wk.q, x, p, h) + Opt(keep, h)
    case Popping(p) => InPop(wk.q, p, h)
    case Stealing(_, p) => InTheft(M, wk.q, src, p, h)
    case Refilling(p) => InRefill(M, wk.q, p, h)
    case _ => 0
  }

  /** In a worker's queue, its task cache or its hands. */
  function InWorker(M: nat, wk: Worker, src: Queue, h: Handle): nat {
    InQueue(M, wk.q, h) + Opt(wk.cache, h) + InHand(M, wk, src, h)
  }

  function InWorkerAt(M: nat, s: State, w: nat, h: Handle): nat
    requires w < |s.ws|
  {
    InWorker(M, s.ws[w], s.ws[Victim(s, w)].q, h)
  }

  function InWorkers(M: nat, s: State, h: Handle): seq<nat> {
    seq(|s.ws|, w requires 0 <= w < |s.ws| => InWorkerAt(M, s, w, h))
  }

  /** In all the places that a submitted handle can be before it is resumed. */
  function Places(M: nat, s: State, h: Handle): nat {
    Sum(InWorkers(M, s, h), |s.ws|) + InSeq(s.global, h)
  }

  /** Every submission of `h` is in exactly one place, or has been resumed. */
  predicate Conserved(M: nat, s: State, h: Handle) {
    Places(M, s, h) + s.resumed[h] == s.submitted[h]
  }

  lemma {:induction false} RingSplit(slots: Slots, a: nat, n: nat, m: nat, h: Handle)
    ensures InRing(slots, a, n + m, h) == InRing(slots, a, n, h) + InRing(slots, a + n, m, h)
  {
    if m > 0 { RingSplit(slots, a, n, m - 1, h); }
  }

  lemma RingFirst(slots: Slots, a: nat, n: nat, h: Handle)
    requires 1 <= n
    ensures InRing(slots, a, n, h) == One(At(slots, a), h) + InRing(slots, a + 1, n - 1, h)
  {
    RingSplit(slots, a, 1, n - 1, h);
  }

  lemma {:induction false} RingSame(x: Slots, y: Slots, a: nat, n: nat, h: Handle)
    requires SameSlots(x, y, a, a + n)
    ensures InRing(x, a, n, h) == InRing(y, a, n, h)
  {
    if n > 0 { RingSame(x, y, a, n - 1, h); }
  }

  lemma RingFrame(slots: Slots, i: nat, x: Handle, a: nat, n: nat, h: Handle)
    requires a + n <= i < a + CAPACITY || (i < a && a + n <= i + CAPACITY)
    ensures InRing(Put(slots, i, x), a, n, h) == InRing(slots, a, n, h)
  {
    PutFrame(slots, i, x, a, a + n);
    RingSame(slots, Put(slots, i, x), a, n, h);
  }

  /** Taking position `i` out of a ring range that starts there, and clearing the slot. */
  lemma TakeFirst(slots: Slots, i: nat, n: nat, h: Handle)
    requires 1 <= n <= CAPACITY
    ensures InRing(slots, i, n, h) == One(At(slots, i), h) + InRing(Put(slots, i, Null), i + 1, n - 1, h)
  {
    RingFrame(slots, i, Null, i + 1, n - 1, h);
    RingFirst(slots, i, n, h);
  }

  /** Writing `x` just behind `n` filled positions extends them by it. */
  lemma PutLast(slots: Slots, a: nat, n: nat, x: Handle, h: Handle)
    requires n < CAPACITY
    ensures InRing(Put(slots, a + n, x), a, n + 1, h) == InRing(slots, a, n, h) + One(x, h)
  {
    RingFrame(slots, a + n, x, a, n, h);
  }

  /** handle_overflow after its compare-exchange, one handle at a time. */
  lemma OverflowTakeConserves(q: Queue, x: Handle, lh: nat, vec: seq<Handle>, h: Handle)
    requires Window(q) && PushInv(q, OverflowTake(lh, vec)) && |vec| < HALF
    ensures var i := lh + |vec|;
            var r := q.(slots := Put(q.slots, i, Null));
            && InQueue(0, r, h) == InQueue(0, q, h)
            && InPush(r, x, OverflowTake(lh, vec + [At(q.slots, i)]), h) == InPush(q, x, OverflowTake(lh, vec), h)
  {
    var i := lh + |vec|;
    OverflowTakeHand(q, x, lh, vec, h);
    RingFrame(q.slots, i, Null, q.head, q.tail - q.head, h);
  }

  lemma OverflowTakeHand(q: Queue, x: Handle, lh: nat, vec: seq<Handle>, h: Handle)
    requires |vec| < HALF
    ensures var i := lh + |vec|;
            InPush(q.(slots := Put(q.slots, i, Null)), x, OverflowTake(lh, vec + [At(q.slots, i)]), h) ==
            InPush(q, x, OverflowTake(lh, vec), h)
  {
    var i, more := lh + |vec|, vec + [At(q.slots, lh + |vec|)];
    InSeqAppend(vec, [At(q.slots, i)], h);
    TakeFirst(q.slots, i, HALF - |vec|, h);
    assert InSeq(more, h) == InSeq(vec, h) + One(At(q.slots, i), h);
    assert lh + |more| == i + 1 && HALF - |more| == HALF - |vec| - 1;
  }

  lemma InSeqAppend(xs: seq<Handle>, ys: seq<Handle>, h: Handle)
    ensures InSeq(xs + ys, h) == InSeq(xs, h) + InSeq(ys, h)
  {
  }

  /** The handles of a pushing worker and of the global queue balance across a step. */
  predicate PushBalance(wk: Worker, g: seq<Handle>, r: Worker, g': seq<Handle>, h: Handle)
    requires wk.pc.Pushing?
  {
    && (r.pc.Idle? || r.pc.Pushing?)
    && InQueue(0, r.q, h) + Opt(r.cache, h) + InSeq(g', h)
       + (if r.pc.Pushing? then InPush(r.q, r.pc.x, r.pc.push, h) + Opt(r.pc.keep, h) else 0)
       == InQueue(0, wk.q, h) + Opt(wk.cache, h) + InSeq(g, h)
          + InPush(wk.q, wk.pc.x, wk.pc.push, h) + Opt(wk.pc.keep, h)
  }

  /** handle_overflow's compare-exchange moves the older half of a full ring into the hand. */
  lemma OverflowCasConserves(wk: Worker, g: seq<Handle>, op: Op, h: Handle)
    requires wk.pc.Pushing? && wk.pc.push.OverflowCas? && Window(wk.q) && PushInv(wk.q, wk.pc.push)
    ensures PushBalance(wk, g, PushStep(0, wk, g, op).0, PushStep(0, wk, g, op).1, h)
  {
    var q, lh := wk.q, wk.pc.push.lh;
    if q.steal == lh && q.head == lh && !op.Spurious? {
      RingSplit(q.slots, lh, HALF, HALF, h);
      var r := q.(steal := lh + HALF, head := lh + HALF, claimed := lh + HALF);
      assert InQueue(0, q, h) == InRing(q.slots, lh, HALF, h) + InQueue(0, r, h);
      assert InPush(r, wk.pc.x, OverflowTake(lh, []), h) == InRing(q.slots, lh, HALF, h) + One(wk.pc.x, h);
    }
  }

  lemma OverflowMoveConserves(wk: Worker, g: seq<Handle>, op: Op, h: Handle)
    requires wk.pc.Pushing? && wk.pc.push.OverflowTake? && Window(wk.q) && PushInv(wk.q, wk.pc.push)
    ensures PushBalance(wk, g, PushStep(0, wk, g, op).0, PushStep(0, wk, g, op).1, h)
  {
    var vec := wk.pc.push.vec;
    if |vec| < HALF { OverflowTakeConserves(wk.q, wk.pc.x, wk.pc.push.lh, vec, h); }
  }

  lemma PushEndConserves(wk: Worker, g: seq<Handle>, op: Op, h: Handle)
    requires wk.pc.Pushing? && (wk.pc.keep.Some? ==> wk.cache.None?)
    requires wk.pc.push.PushGlobal? || wk.pc.push.OverflowFlush?
    ensures PushBalance(wk, g, PushStep(0, wk, g, op).0, PushStep(0, wk, g, op).1, h)
  {
    var x := wk.pc.x;
    InSeqAppend(g, [x], h);
    if wk.pc.push.OverflowFlush? {
      InSeqAppend(g, wk.pc.push.vec, h);
      InSeqAppend(g + wk.pc.push.vec, [x], h);
    }
  }

  lemma PushSlotConserves(wk: Worker, g: seq<Handle>, op: Op, h: Handle)
    requires wk.pc.Pushing? && Window(wk.q) && PushInv(wk.q, wk.pc.push)
    requires wk.pc.keep.Some? ==> wk.cache.None?
    requires wk.pc.push.PushWrite? || wk.pc.push.PushStore?
    ensures PushBalance(wk, g, PushStep(0, wk, g, op).0, PushStep(0, wk, g, op).1, h)
  {
    var q := wk.q;
    if wk.pc.push.PushWrite? {
      RingFrame(q.slots, wk.pc.push.tl, wk.pc.x, q.head, q.tail - q.head, h);
    }
  }

  /** push_back and handle_overflow move handles between queue, hand, cache and global queue. */
  lemma PushConserves(wk: Worker, g: seq<Handle>, op: Op, h: Handle)
    requires wk.pc.Pushing? && Window(wk.q) && PushInv(wk.q, wk.pc.push)
    requires wk.pc.keep.Some? ==> wk.cache.None?
    ensures PushBalance(wk, g, PushStep(0, wk, g, op).0, PushStep(0, wk, g, op).1, h)
  {
    match wk.pc.push
    case OverflowCas(_) => OverflowCasConserves(wk, g, op, h);
    case OverflowTake(_, _) => OverflowMoveConserves(wk, g, op, h);
    case PushWrite(_) => PushSlotConserves(wk, g, op, h);
    case PushStore(_) => PushSlotConserves(wk, g, op, h);
    case OverflowFlush(_) => PushEndConserves(wk, g, op, h);
    case PushGlobal => PushEndConserves(wk, g, op, h);
    case _ =>
  }

  predicate PopBalance(wk: Worker, r: Worker, h: Handle)
    requires wk.pc.Popping?
  {
    && r.cache == wk.cache && (r.pc.Idle? || r.pc.Got? || r.pc.Popping?)
    && InQueue(0, r.q, h)
       + (if r.pc.Got? then One(r.pc.h, h) else if r.pc.Popping? then InPop(r.q, r.pc.pop, h) else 0)
       == InQueue(0, wk.q, h) + InPop(wk.q, wk.pc.pop, h)
  }

  /** try_pop's compare-exchange moves the first handle of the queue into the hand. */
  lemma PopCasConserves(wk: Worker, op: Op, h: Handle)
    requires wk.pc.Popping? && wk.pc.pop.PopCas? && Window(wk.q) && PopInv(wk.q, wk.pc.pop)
    ensures PopBalance(wk, PopStep(0, wk, op), h)
  {
    var q, lh := wk.q, wk.pc.pop.lh;
    if q.head == lh { RingFirst(q.slots, lh, q.tail - lh, h); }
  }

  lemma PopConserves(wk: Worker, op: Op, h: Handle)
    requires wk.pc.Popping? && Window(wk.q) && PopInv(wk.q, wk.pc.pop)
    ensures PopBalance(wk, PopStep(0, wk, op), h)
  {
    match wk.pc.pop
    case PopCas(_, _) => PopCasConserves(wk, op, h);
    case PopTake(i) => RingFrame(wk.q.slots, i, Null, wk.q.head, wk.q.tail - wk.q.head, h);
    case _ =>
  }

  lemma CopyConserves(q: Queue, src: Queue, dt: nat, base: nat, n: nat, k: nat, h: Handle)
    requires Window(q) && ThiefOwnInv(q, Copy(dt, base, n, k)) && k < n
    ensures var r := q.(slots := Put(q.slots, dt + k, At(src.slots, base + k)));
            && InQueue(0, r, h) == InQueue(0, q, h)
            && InTheft(0, r, src, Copy(dt, base, n, k + 1), h) == InTheft(0, q, src, Copy(dt, base, n, k), h)
  {
    RingFrame(q.slots, dt + k, At(src.slots, base + k), q.head, q.tail - q.head, h);
    CopyHand(q, src, dt, base, n, k, h);
  }

  lemma CopyHand(q: Queue, src: Queue, dt: nat, base: nat, n: nat, k: nat, h: Handle)
    requires k < n <= CAPACITY
    ensures InTheft(0, q.(slots := Put(q.slots, dt + k, At(src.slots, base + k))), src, Copy(dt, base, n, k + 1), h) ==
            InTheft(0, q, src, Copy(dt, base, n, k), h)
  {
    PutLast(q.slots, dt, k, At(src.slots, base + k), h);
    RingFirst(src.slots, base + k, n - k, h);
  }

  /** The claimed handles, copied: the last goes to the caller, the others below the new tail. */
  lemma LastConserves(q: Queue, src: Queue, dt: nat, n: nat, h: Handle)
    requires ThiefOwnInv(q, TakeLast(dt, n))
    ensures InTheft(0, q, src, TakeLast(dt, n), h) ==
            InRing(q.slots, dt, n - 1, h) + One(At(q.slots, dt + n - 1), h)
    ensures n == 1 ==> InTheft(0, q, src, TakeLast(dt, n), h) == One(At(q.slots, dt), h)
  {
  }

  predicate ThiefBalance(wk: Worker, src: Queue, r: Worker, src': Queue, h: Handle)
    requires wk.pc.Stealing?
  {
    && r.cache == wk.cache && (r.pc.Idle? || r.pc.Got? || r.pc.Stealing?)
    && InQueue(0, r.q, h) + InQueue(0, src', h)
       + (if r.pc.Got? then One(r.pc.h, h)
          else if r.pc.Stealing? then InTheft(0, r.q, src', r.pc.thief, h) else 0)
       == InQueue(0, wk.q, h) + InQueue(0, src, h) + InTheft(0, wk.q, src, wk.pc.thief, h)
  }

  /** Claiming moves the older half of the victim's queue into the thief's hands. */
  lemma ClaimConserves(wk: Worker, src: Queue, op: Op, h: Handle)
    requires wk.pc.Stealing? && wk.pc.thief.ClaimCas? && Window(src)
    requires ThiefOwnInv(wk.q, wk.pc.thief) && VictimInv(src, wk.pc.thief)
    ensures ThiefBalance(wk, src, ThiefStep(0, wk, src, op).0, ThiefStep(0, wk, src, op).1, h)
  {
    var ClaimCas(dt, st, lh, n) := wk.pc.thief;
    if src.head == lh { RingSplit(src.slots, lh, n, src.tail - lh - n, h); }
  }

  lemma ThiefCopyConserves(wk: Worker, src: Queue, op: Op, h: Handle)
    requires wk.pc.Stealing? && wk.pc.thief.Copy? && Window(wk.q) && ThiefOwnInv(wk.q, wk.pc.thief)
    ensures ThiefBalance(wk, src, ThiefStep(0, wk, src, op).0, ThiefStep(0, wk, src, op).1, h)
  {
    var Copy(dt, base, n, k) := wk.pc.thief;
    if k < n { CopyConserves(wk.q, src, dt, base, n, k, h); }
  }

  lemma ThiefLastConserves(wk: Worker, src: Queue, op: Op, h: Handle)
    requires wk.pc.Stealing? && wk.pc.thief.TakeLast? && Window(wk.q) && ThiefOwnInv(wk.q, wk.pc.thief)
    ensures ThiefBalance(wk, src, ThiefStep(0, wk, src, op).0, ThiefStep(0, wk, src, op).1, h)
  {
    LastConserves(wk.q, src, wk.pc.thief.dt, wk.pc.thief.n, h);
  }

  lemma ThiefStoreConserves(wk: Worker, src: Queue, op: Op, h: Handle)
    requires wk.pc.Stealing? && wk.pc.thief.StoreTail? && Window(wk.q) && ThiefOwnInv(wk.q, wk.pc.thief)
    ensures ThiefBalance(wk, src, ThiefStep(0, wk, src, op).0, ThiefStep(0, wk, src, op).1, h)
  {
    var q := wk.q;
    RingSplit(q.slots, q.head, q.tail - q.head, wk.pc.thief.nt - q.tail, h);
  }

  lemma ThiefConserves(wk: Worker, src: Queue, op: Op, h: Handle)
    requires wk.pc.Stealing? && Window(wk.q) && ThiefOwnInv(wk.q, wk.pc.thief)
    requires Window(src) && VictimInv(src, wk.pc.thief)
    ensures ThiefBalance(wk, src, ThiefStep(0, wk, src, op).0, ThiefStep(0, wk, src, op).1, h)
  {
    var q := wk.q;
    match wk.pc.thief
    case ClaimCas(_, _, _, _) => ClaimConserves(wk, src, op, h);
    case Copy(_, _, _, _) => ThiefCopyConserves(wk, src, op, h);
    case TakeLast(_, _) => ThiefLastConserves(wk, src, op, h);
    case StoreTail(_, _) => ThiefStoreConserves(wk, src, op, h);
    case _ =>
  }

  lemma PopBatchConserves(g: seq<Handle>, n: nat, h: Handle)
    requires 1 <= n <= |g|
    ensures InSeq(g, h) == InSeq(g[..n - 1], h) + One(g[n - 1], h) + InSeq(g[n..], h)
  {
    assert g == g[..n - 1] + [g[n - 1]] + g[n..];
  }

  lemma BatchWriteConserves(q: Queue, vec: seq<Handle>, last: Handle, tl: nat, k: nat, h: Handle)
    requires Window(q) && RefillInv(q, BatchWrite(vec, last, tl, k)) && k < |vec|
    ensures var r := q.(slots := Put(q.slots, tl + k, vec[k]));
            && InQueue(0, r, h) == InQueue(0, q, h)
            && InRefill(0, r, BatchWrite(vec, last, tl, k + 1), h) == InRefill(0, q, BatchWrite(vec, last, tl, k), h)
  {
    RingFrame(q.slots, tl + k, vec[k], q.head, q.tail - q.head, h);
    PutLast(q.slots, tl, k, vec[k], h);
    assert vec[k..] == [vec[k]] + vec[k + 1..];
  }

  predicate RefillBalance(wk: Worker, g: seq<Handle>, r: Worker, g': seq<Handle>, h: Handle)
    requires wk.pc.Refilling?
  {
    && r.cache == wk.cache && (r.pc.Idle? || r.pc.Got? || r.pc.Refilling?)
    && InQueue(0, r.q, h) + InSeq(g', h)
       + (if r.pc.Got? then One(r.pc.h, h)
          else if r.pc.Refilling? then InRefill(0, r.q, r.pc.refill, h) else 0)
       == InQueue(0, wk.q, h) + InSeq(g, h) + InRefill(0, wk.q, wk.pc.refill, h)
  }

  lemma RefillStartConserves(wk: Worker, g: seq<Handle>, h: Handle)
    requires wk.pc.Refilling? && (wk.pc.refill.PopBatch? || wk.pc.refill.BatchTail?)
    ensures RefillBalance(wk, g, RefillStep(0, wk, g).0, RefillStep(0, wk, g).1, h)
  {
    match wk.pc.refill
    case PopBatch(num) =>
      var n := if |g| < num then |g| else num;
      if n > 0 { PopBatchConserves(g, n, h); }
    case BatchTail(vec, last) => assert vec[0..] == vec;
  }

  lemma RefillWriteConserves(wk: Worker, g: seq<Handle>, h: Handle)
    requires wk.pc.Refilling? && wk.pc.refill.BatchWrite? && Window(wk.q) && RefillInv(wk.q, wk.pc.refill)
    ensures RefillBalance(wk, g, RefillStep(0, wk, g).0, RefillStep(0, wk, g).1, h)
  {
    var p := wk.pc.refill;
    if p.k < |p.vec| { BatchWriteConserves(wk.q, p.vec, p.last, p.tl, p.k, h); }
  }

  lemma RefillStoreConserves(wk: Worker, g: seq<Handle>, h: Handle)
    requires wk.pc.Refilling? && wk.pc.refill.BatchStore? && Window(wk.q) && RefillInv(wk.q, wk.pc.refill)
    ensures RefillBalance(wk, g, RefillStep(0, wk, g).0, RefillStep(0, wk, g).1, h)
  {
    var q := wk.q;
    RingSplit(q.slots, q.head, q.tail - q.head, wk.pc.refill.nt - q.tail, h);
  }

  lemma RefillConserves(wk: Worker, g: seq<Handle>, h: Handle)
    requires wk.pc.Refilling? && Window(wk.q) && RefillInv(wk.q, wk.pc.refill)
    ensures RefillBalance(wk, g, RefillStep(0, wk, g).0, RefillStep(0, wk, g).1, h)
  {
    match wk.pc.refill
    case BatchWrite(_, _, _, _) => RefillWriteConserves(wk, g, h);
    case BatchStore(_, _) => RefillStoreConserves(wk, g, h);
    case PopBatch(_) => RefillStartConserves(wk, g, h);
    case BatchTail(_, _) => RefillStartConserves(wk, g, h);
    case _ =>
  }

  lemma IdleConserves(wk: Worker, src: Queue, g: seq<Handle>, op: Op, h: Handle)
    requires wk.pc.Idle?
    ensures var e := IdleStep(wk, src, g, op);
            && e.src == src
            && InWorker(0, e.wk, src, h) + InSeq(e.global, h) + e.resumed[h]
               == InWorker(0, wk, src, h) + InSeq(g, h) + e.submitted[h]
  {
    match op
    case TakeGlobal => if g != [] { FirstOfGlobal(g, h); }
    case Schedule(x) => ScheduleConserves(wk, src, g, op, h);
    case Enqueue(x) => ScheduleConserves(wk, src, g, op, h);
    case _ =>
  }

  lemma FirstOfGlobal(g: seq<Handle>, h: Handle)
    requires g != []
    ensures InSeq(g, h) == One(g[0], h) + InSeq(g[1..], h)
  {
    assert g == [g[0]] + g[1..];
  }

  lemma ScheduleConserves(wk: Worker, src: Queue, g: seq<Handle>, op: Op, h: Handle)
    requires wk.pc.Idle? && (op.Schedule? || op.Enqueue?)
    ensures var e := IdleStep(wk, src, g, op);
            && e.src == src
            && InWorker(0, e.wk, src, h) + InSeq(e.global, h) + e.resumed[h]
               == InWorker(0, wk, src, h) + InSeq(g, h) + e.submitted[h]
  {
    assert multiset{op.h}[h] == One(op.h, h);
  }

  /** What an effect takes from the worker, its victim and the global queue is what it resumed. */
  predicate Balances(wk: Worker, src: Queue, g: seq<Handle>, e: Effect, h: Handle) {
    InWorker(0, e.wk, e.src, h) + InQueue(0, e.src, h) + InSeq(e.global, h) + e.resumed[h]
    == InWorker(0, wk, src, h) + InQueue(0, src, h) + InSeq(g, h) + e.submitted[h]
  }

  lemma ThiefBalances(wk: Worker, src: Queue, g: seq<Handle>, op: Op, h: Handle)
    requires wk.pc.Stealing? && OwnInv(wk) && Window(src) && VictimInv(src, wk.pc.thief)
    ensures Balances(wk, src, g, Step(0, wk, src, g, op), h)
  {
    ThiefConserves(wk, src, op, h);
  }

  lemma PushBalances(wk: Worker, src: Queue, g: seq<Handle>, op: Op, h: Handle)
    requires wk.pc.Pushing? && OwnInv(wk)
    ensures Balances(wk, src, g, Step(0, wk, src, g, op), h)
  {
    PushConserves(wk, g, op, h);
  }

  /** One step of a worker. */
  lemma EffectConserves(wk: Worker, src: Queue, g: seq<Handle>, op: Op, h: Handle)
    requires OwnInv(wk) && (wk.pc.Stealing? ==> Window(src) && VictimInv(src, wk.pc.thief))
    ensures Balances(wk, src, g, Step(0, wk, src, g, op), h)
  {
    match wk.pc
    case Idle => IdleConserves(wk, src, g, op, h);
    case Got(_) =>
    case Pushing(_, _, _) => PushBalances(wk, src, g, op, h);
    case Popping(_) => PopConserves(wk, op, h);
    case Stealing(_, _) => ThiefBalances(wk, src, g, op, h);
    case Refilling(_) => RefillConserves(wk, g, h);
    case Sleeping(_) =>
  }

  /** A thief that does not move keeps the handles it claimed, whatever its victim's owner does. */
  lemma UncopiedStable(src: Queue, r: Queue, q: Queue, p: ThiefPC, h: Handle)
    requires VictimInv(src, p) && ThiefOwnInv(q, p)
    requires p.Copy? ==> SameSlots(src.slots, r.slots, src.steal, src.claimed)
    ensures InTheft(0, q, r, p, h) == InTheft(0, q, src, p, h)
  {
    if p.Copy? { RingSame(src.slots, r.slots, p.base + p.k, p.n - p.k, h); }
  }

  lemma OtherThief(s: State, w: nat, op: Op, u: nat, h: Handle)
    requires Inv(s) && !Disabled(s, w, op) && u < |s.ws| && u != w && s.ws[u].pc.Stealing?
    ensures var t := Next(0, s, Act(w, op));
            && |t.ws| == |s.ws| && s.ws[u].pc.v < |s.ws|
            && InTheft(0, s.ws[u].q, t.ws[s.ws[u].pc.v].q, s.ws[u].pc.thief, h)
               == InTheft(0, s.ws[u].q, s.ws[s.ws[u].pc.v].q, s.ws[u].pc.thief, h)
  {
    var t := Next(0, s, Act(w, op));
    var x := s.ws[u].pc.v;
    assert OwnInv(s.ws[u]) && StealInv(s, u);
    if x == w {
      assert OwnInv(s.ws[w]) && StealInv(s, w) && OwnInv(s.ws[Victim(s, w)]);
      EffectKeeps(s.ws[w], s.ws[Victim(s, w)].q, s.global, op);
    } else {
      OthersQueue(s, w, op, x);
    }
    UncopiedStable(s.ws[x].q, t.ws[x].q, s.ws[u].q, s.ws[u].pc.thief, h);
  }

  /** A robbed owner has the same in its hands: no thief writes its slots or its tail. */
  lemma RobbedHand(wk: Worker, r: Queue, src: Queue, h: Handle)
    requires Robbed(wk.q, r)
    ensures InHand(0, wk.(q := r), src, h) == InHand(0, wk, src, h)
  {
  }

  /** Workers other than the one that steps hold what they held, apart from a robbed queue. */
  lemma OthersHold(s: State, w: nat, op: Op, u: nat, h: Handle)
    requires Inv(s) && !Disabled(s, w, op) && u < |s.ws| && u != w
    ensures var t := Next(0, s, Act(w, op));
            && |t.ws| == |s.ws|
            && InWorkerAt(0, t, u, h) + InQueue(0, s.ws[u].q, h) == InWorkerAt(0, s, u, h) + InQueue(0, t.ws[u].q, h)
  {
    var t := Next(0, s, Act(w, op));
    OthersQueue(s, w, op, u);
    assert OwnInv(s.ws[u]) && StealInv(s, u);
    var v := Victim(s, u);
    assert Victim(t, u) == v;
    if s.ws[u].pc.Stealing? { OtherThief(s, w, op, u, h); }
    assert InHand(0, s.ws[u], t.ws[v].q, h) == InHand(0, s.ws[u], s.ws[v].q, h);
    if t.ws[u].q != s.ws[u].q { RobbedHand(s.ws[u], t.ws[u].q, t.ws[v].q, h); }
  }

  /** The queue that the hand's count refers to is the victim's as long as the theft lasts. */
  lemma StepHand(s: State, w: nat, op: Op, h: Handle)
    requires Inv(s) && !Disabled(s, w, op)
    ensures var t := Next(0, s, Act(w, op));
            var e := Step(0, s.ws[w], s.ws[Victim(s, w)].q, s.global, op);
            |t.ws| == |s.ws| && InWorkerAt(0, t, w, h) == InWorker(0, e.wk, e.src, h)
  {
    var v := Victim(s, w);
    assert OwnInv(s.ws[w]) && StealInv(s, w) && OwnInv(s.ws[v]);
    EffectKeeps(s.ws[w], s.ws[v].q, s.global, op);
  }

  lemma StepBalance(s: State, w: nat, op: Op, h: Handle)
    requires Inv(s) && !Disabled(s, w, op)
    ensures var t, v := Next(0, s, Act(w, op)), Victim(s, w);
            && |t.ws| == |s.ws|
            && InWorkerAt(0, t, w, h) + (if v != w then InWorkerAt(0, t, v, h) else 0)
               + InSeq(t.global, h) + t.resumed[h] + s.submitted[h]
               == InWorkerAt(0, s, w, h) + (if v != w then InWorkerAt(0, s, v, h) else 0)
                  + InSeq(s.global, h) + s.resumed[h] + t.submitted[h]
  {
    var v := Victim(s, w);
    assert OwnInv(s.ws[w]) && StealInv(s, w) && OwnInv(s.ws[v]);
    EffectConserves(s.ws[w], s.ws[v].q, s.global, op, h);
    StepHand(s, w, op, h);
    if v != w {
      OthersHold(s, w, op, v, h);
    } else {
      EffectKeeps(s.ws[w], s.ws[v].q, s.global, op);
    }
  }

  lemma StepConserves(s: State, w: nat, op: Op, h: Handle)
    requires Inv(s) && !Disabled(s, w, op)
    ensures var t := Next(0, s, Act(w, op));
            Places(0, t, h) + t.resumed[h] + s.submitted[h] == Places(0, s, h) + s.resumed[h] + t.submitted[h]
  {
    var t, v := Next(0, s, Act(w, op)), Victim(s, w);
    StepBalance(s, w, op, h);
    var xs, ys := InWorkers(0, s, h), InWorkers(0, t, h);
    forall u: nat | u < |s.ws| && u != w && u != v
      ensures ys[u] == xs[u]
    {
      OthersHold(s, w, op, u, h);
      OthersQueue(s, w, op, u);
    }
    SumTwo(xs, ys, w, v, |s.ws|);
  }

  /**
   * In every run of any number of workers, each submission of a handle is in exactly one
   * place -- a live slot, a task cache, a worker's hands, the global queue -- or was resumed.
   */
  lemma {:induction false} RunConserves(n: nat, actions: seq<Action>, h: Handle)
    ensures Conserved(0, Run(0, Init(n), actions), h)
    decreases |actions|
  {
    if actions == [] {
      SumZero(InWorkers(0, Init(n), h), n);
    } else {
      var before, a := actions[..|actions| - 1], actions[|actions| - 1];
      var s := Run(0, Init(n), before);
      RunInv(n, before);
      RunConserves(n, before, h);
      if a.Submit? {
        var t := Next(0, s, a);
        InSeqAppend(s.global, a.hs, h);
        assert InWorkers(0, t, h) == InWorkers(0, s, h);
      } else if !Disabled(s, a.w, a.op) {
        StepConserves(s, a.w, a.op, h);
      }
    }
  }
}

/**
 * The 32-bit machine does what the unbounded one does: the scheduler's words are the
 * unbounded indices modulo 2^32 in every run in which no thief, between reading its
 * victim's head word and claiming, sleeps through 2^32 tasks of the victim's queue.
 */
module WorkStealingWords {
  import opened Prelude
  import opened WorkStealing
  import opened WorkStealingInv
  import opened WorkStealingConservation

  function Low(x: nat): nat { x % WORD }

  function LowQueue(q: Queue): Queue {
    Queue(q.slots, Low(q.steal), Low(q.head), Low(q.tail), Low(q.claimed))
  }

  function LowPush(p: PushPC): PushPC {
    match p
    case PushTail(st, lh) => PushTail(Low(st), Low(lh))
    case OverflowCas(lh) => OverflowCas(Low(lh))
    case OverflowTake(lh, vec) => OverflowTake(Low(lh), vec)
    case PushWrite(tl) => PushWrite(Low(tl))
    case PushStore(tl) => PushStore(Low(tl))
    case _ => p
  }

  function LowPop(p: PopPC): PopPC {
    match p
    case PopHead => PopHead
    case PopTail(st, lh) => PopTail(Low(st), Low(lh))
    case PopCas(st, lh) => PopCas(Low(st), Low(lh))
    case PopTake(i) => PopTake(Low(i))
  }

  function LowThief(p: ThiefPC): ThiefPC {
    match p
    case OwnHead => OwnHead
    case OwnTail(own) => OwnTail(Low(own))
    case SrcHead(dt) => SrcHead(Low(dt))
    case SrcTail(dt, st, lh) => SrcTail(Low(dt), Low(st), Low(lh))
    case ClaimCas(dt, st, lh, n) => ClaimCas(Low(dt), Low(st), Low(lh), n)
    case Copy(dt, base, n, k) => Copy(Low(dt), Low(base), n, k)
    case CommitCas(dt, n, st, lh) => CommitCas(Low(dt), n, Low(st), Low(lh))
    case TakeLast(dt, n) => TakeLast(Low(dt), n)
    case StoreTail(last, nt) => StoreTail(last, Low(nt))
  }

  function LowRefill(p: RefillPC): RefillPC {
    match p
    case RemainHead(tl) => RemainHead(Low(tl))
    case BatchWrite(vec, last, tl, k) => BatchWrite(vec, last, Low(tl), k)
    case BatchStore(last, nt) => BatchStore(last, Low(nt))
    case _ => p
  }

  function LowPC(pc: PC): PC {
    match pc
    case Pushing(x, keep, p) => Pushing(x, keep, LowPush(p))
    case Popping(p) => Popping(LowPop(p))
    case Stealing(v, p) => Stealing(v, LowThief(p))
    case Refilling(p) => Refilling(LowRefill(p))
    case Sleeping(p) => Sleeping(if p.SizeHead? then SizeHead(Low(p.tl)) else p)
    case _ => pc
  }

  function LowWorker(wk: Worker): Worker { Worker(LowQueue(wk.q), wk.cache, LowPC(wk.pc)) }

  /** What the machine's memory holds when the unbounded machine is in state `s`. */
  function Words(s: State): State {
    s.(ws := seq(|s.ws|, w requires 0 <= w < |s.ws| => LowWorker(s.ws[w])))
  }

  /**
   * Since the thief read its victim's head word, fewer than 2^32 tasks were pushed past that head when the
   * thief is to read the tail, and fewer than 2^32 taken when it is to claim.
   */
  predicate FreshThief(src: Queue, p: ThiefPC) {
    && (p.SrcTail? ==> src.tail < p.lh + WORD)
    && (p.ClaimCas? ==> src.head < p.lh + WORD)
  }

  predicate Fresh(s: State) {
    forall w :: 0 <= w < |s.ws| ==>
      (s.ws[w].pc.Stealing? && s.ws[w].pc.v < |s.ws| ==>
         FreshThief(s.ws[s.ws[w].pc.v].q, s.ws[w].pc.thief))
  }

  lemma LowSub(a: nat, b: nat)
    requires b <= a < b + WORD
    ensures Sub(WORD, Low(a), Low(b)) == a - b == Sub(0, a, b)
  {
  }

  lemma LowAdd(a: nat, b: nat)
    ensures Add(WORD, Low(a), b) == Low(Add(0, a, b))
  {
  }

  lemma LowEq(a: nat, b: nat)
    requires a < b + WORD && b < a + WORD
    ensures Low(a) == Low(b) <==> a == b
  {
  }

  lemma LowSlot(slots: Slots, i: nat)
    ensures At(slots, Low(i)) == At(slots, i)
    ensures forall h :: Put(slots, Low(i), h) == Put(slots, i, h)
  {
    assert Low(i) % CAPACITY == i % CAPACITY;
  }

  predicate PushAgrees(wk: Worker, g: seq<Handle>, op: Op)
    requires wk.pc.Pushing?
  {
    PushStep(WORD, LowWorker(wk), g, op) == (LowWorker(PushStep(0, wk, g, op).0), PushStep(0, wk, g, op).1)
  }

  lemma OverflowWords(wk: Worker, g: seq<Handle>, op: Op)
    requires wk.pc.Pushing? && Window(wk.q) && PushInv(wk.q, wk.pc.push)
    requires wk.pc.push.OverflowCas? || wk.pc.push.OverflowTake?
    ensures PushAgrees(wk, g, op)
  {
    var q := wk.q;
    match wk.pc.push
    case OverflowCas(lh) => LowEq(q.steal, lh); LowEq(q.head, lh); LowAdd(lh, HALF);
    case OverflowTake(lh, vec) => LowAdd(lh, |vec|); LowSlot(q.slots, lh + |vec|);
  }

  lemma PushWords(wk: Worker, g: seq<Handle>, op: Op)
    requires wk.pc.Pushing? && Window(wk.q) && PushInv(wk.q, wk.pc.push)
    ensures PushAgrees(wk, g, op)
  {
    var q := wk.q;
    match wk.pc.push
    case PushTail(st, lh) => LowSub(q.tail, st); LowEq(st, lh);
    case OverflowCas(_) => OverflowWords(wk, g, op);
    case OverflowTake(_, _) => OverflowWords(wk, g, op);
    case PushWrite(tl) => LowSlot(q.slots, tl);
    case PushStore(tl) => LowAdd(tl, 1);
    case _ =>
  }

  lemma PopCasWords(wk: Worker, op: Op)
    requires wk.pc.Popping? && wk.pc.pop.PopCas? && Window(wk.q) && PopInv(wk.q, wk.pc.pop)
    ensures PopStep(WORD, LowWorker(wk), op) == LowWorker(PopStep(0, wk, op))
  {
    var st, lh := wk.pc.pop.st, wk.pc.pop.lh;
    LowEq(wk.q.steal, st);
    LowEq(wk.q.head, lh);
    LowEq(lh, st);
    LowAdd(lh, 1);
  }

  lemma PopWords(wk: Worker, op: Op)
    requires wk.pc.Popping? && Window(wk.q) && PopInv(wk.q, wk.pc.pop)
    ensures PopStep(WORD, LowWorker(wk), op) == LowWorker(PopStep(0, wk, op))
  {
    var q := wk.q;
    match wk.pc.pop
    case PopHead =>
    case PopTail(st, lh) => LowEq(lh, q.tail);
    case PopCas(_, _) => PopCasWords(wk, op);
    case PopTake(i) => LowSlot(q.slots, i);
  }

  predicate ThiefAgrees(wk: Worker, src: Queue, op: Op)
    requires wk.pc.Stealing?
  {
    ThiefStep(WORD, LowWorker(wk), LowQueue(src), op)
    == (LowWorker(ThiefStep(0, wk, src, op).0), LowQueue(ThiefStep(0, wk, src, op).1))
  }

  /** The compare-exchange of two words decides as that of the unbounded indices would. */
  lemma ClaimWords(wk: Worker, src: Queue, op: Op)
    requires wk.pc.Stealing? && (wk.pc.thief.ClaimCas? || wk.pc.thief.CommitCas?) && Window(src)
    requires ThiefOwnInv(wk.q, wk.pc.thief) && VictimInv(src, wk.pc.thief) && FreshThief(src, wk.pc.thief)
    ensures ThiefAgrees(wk, src, op)
  {
    var p := wk.pc.thief;
    LowEq(src.steal, p.st);
    LowEq(src.head, p.lh);
    if p.ClaimCas? { LowAdd(p.lh, p.n); }
  }

  lemma CopyWords(wk: Worker, src: Queue, op: Op)
    requires wk.pc.Stealing? && wk.pc.thief.Copy?
    ensures ThiefAgrees(wk, src, op)
  {
    var Copy(dt, base, n, k) := wk.pc.thief;
    LowAdd(dt, k);
    LowAdd(base, k);
    LowAdd(base, n);
    LowSlot(wk.q.slots, dt + k);
    LowSlot(src.slots, base + k);
  }

  lemma ThiefWords(wk: Worker, src: Queue, op: Op)
    requires wk.pc.Stealing? && Window(wk.q) && ThiefOwnInv(wk.q, wk.pc.thief)
    requires Window(src) && VictimInv(src, wk.pc.thief) && FreshThief(src, wk.pc.thief)
    ensures ThiefAgrees(wk, src, op)
  {
    var q := wk.q;
    match wk.pc.thief
    case OwnTail(own) => LowSub(q.tail, own);
    case SrcTail(dt, st, lh) => LowSub(src.tail, lh); LowEq(st, lh);
    case ClaimCas(_, _, _, _) => ClaimWords(wk, src, op);
    case Copy(_, _, _, _) => CopyWords(wk, src, op);
    case CommitCas(_, _, _, _) => ClaimWords(wk, src, op);
    case TakeLast(_, _) => TakeLastWords(wk, src, op);
    case _ =>
  }

  lemma TakeLastWords(wk: Worker, src: Queue, op: Op)
    requires wk.pc.Stealing? && wk.pc.thief.TakeLast? && Window(wk.q) && ThiefOwnInv(wk.q, wk.pc.thief)
    ensures ThiefAgrees(wk, src, op)
  {
    var dt, n := wk.pc.thief.dt, wk.pc.thief.n;
    LowAdd(dt, n - 1);
    LowSlot(wk.q.slots, dt + (n - 1));
  }

  lemma RefillWords(wk: Worker, g: seq<Handle>)
    requires wk.pc.Refilling? && Window(wk.q) && RefillInv(wk.q, wk.pc.refill)
    ensures RefillStep(WORD, LowWorker(wk), g) == (LowWorker(RefillStep(0, wk, g).0), RefillStep(0, wk, g).1)
  {
    var q := wk.q;
    match wk.pc.refill
    case RemainHead(tl) => LowSub(tl, q.steal);
    case BatchWrite(vec, last, tl, k) => LowAdd(tl, k); LowAdd(tl, |vec|); LowSlot(q.slots, tl + k);
    case _ =>
  }

  lemma SleepWords(wk: Worker)
    requires wk.pc.Sleeping? && Window(wk.q) && SleepInv(wk.q, wk.cache, wk.pc.sleep)
    ensures SleepStep(WORD, LowWorker(wk)) == LowWorker(SleepStep(0, wk))
  {
    if wk.pc.sleep.SizeHead? { LowSub(wk.pc.sleep.tl, wk.q.head); }
  }

  lemma IdleWords(wk: Worker, src: Queue, g: seq<Handle>, op: Op)
    requires wk.pc.Idle?
    ensures var e := IdleStep(wk, src, g, op);
            IdleStep(LowWorker(wk), LowQueue(src), g, op) == e.(wk := LowWorker(e.wk), src := LowQueue(e.src))
  {
  }

  lemma EffectWords(wk: Worker, src: Queue, g: seq<Handle>, op: Op)
    requires OwnInv(wk)
    requires wk.pc.Stealing? ==> Window(src) && VictimInv(src, wk.pc.thief) && FreshThief(src, wk.pc.thief)
    ensures var e := Step(0, wk, src, g, op);
            Step(WORD, LowWorker(wk), LowQueue(src), g, op) == e.(wk := LowWorker(e.wk), src := LowQueue(e.src))
  {
    match wk.pc
    case Idle => IdleWords(wk, src, g, op);
    case Got(_) =>
    case Pushing(_, _, _) => PushWords(wk, g, op);
    case Popping(_) => PopWords(wk, op);
    case Stealing(_, _) => ThiefWords(wk, src, op);
    case Refilling(_) => RefillWords(wk, g);
    case Sleeping(_) => SleepWords(wk);
  }

  lemma StepWords(s: State, a: Action)
    requires Inv(s) && Fresh(s)
    ensures Next(WORD, Words(s), a) == Words(Next(0, s, a))
  {
    if a.Act? && !Disabled(s, a.w, a.op) {
      var w, v := a.w, Victim(s, a.w);
      assert OwnInv(s.ws[w]) && StealInv(s, w) && OwnInv(s.ws[v]);
      EffectWords(s.ws[w], s.ws[v].q, s.global, a.op);
      ApplyWords(s, w, Step(0, s.ws[w], s.ws[v].q, s.global, a.op));
    }
  }

  /** Writing the words of an effect is the same as taking the words of the state it leads to. */
  lemma ApplyWords(s: State, w: nat, e: Effect)
    requires w < |s.ws|
    ensures Victim(Words(s), w) == Victim(s, w)
    ensures Apply(Words(s), w, e.(wk := LowWorker(e.wk), src := LowQueue(e.src))) == Words(Apply(s, w, e))
  {
    assert Apply(Words(s), w, e.(wk := LowWorker(e.wk), src := LowQueue(e.src))).ws == Words(Apply(s, w, e)).ws;
  }

  ghost predicate FreshRun(n: nat, actions: seq<Action>) {
    forall k :: 0 <= k < |actions| ==> Fresh(Run(0, Init(n), actions[..k]))
  }

  /** The machine on 32-bit words runs in step with the machine on unbounded indices. */
  lemma {:induction false} RunWords(n: nat, actions: seq<Action>)
    requires FreshRun(n, actions)
    ensures Run(WORD, Init(n), actions) == Words(Run(0, Init(n), actions))
    decreases |actions|
  {
    if actions == [] {
      assert Words(Init(n)).ws == Init(n).ws;
    } else {
      var before := actions[..|actions| - 1];
      forall k | 0 <= k < |before|
        ensures Fresh(Run(0, Init(n), before[..k]))
      {
        assert before[..k] == actions[..k];
      }
      RunWords(n, before);
      RunInv(n, before);
      StepWords(Run(0, Init(n), before), actions[|actions| - 1]);
    }
  }

  lemma LowShift(a: nat, i: nat)
    ensures (Low(a) + i) % CAPACITY == (a + i) % CAPACITY
  {
    assert a == WORD * (a / WORD) + Low(a);
  }

  lemma {:induction false} RingWords(slots: Slots, a: nat, i: nat, n: nat, h: Handle)
    ensures InRing(slots, Low(a) + i, n, h) == InRing(slots, a + i, n, h)
  {
    if n > 0 {
      RingWords(slots, a, i, n - 1, h);
      LowShift(a, i + n - 1);
    }
  }

  lemma QueueWords(q: Queue, h: Handle)
    requires Window(q)
    ensures InQueue(WORD, LowQueue(q), h) == InQueue(0, q, h)
  {
    LowSub(q.tail, q.head);
    RingWords(q.slots, q.head, 0, q.tail - q.head, h);
  }

  lemma PushHandWords(q: Queue, x: Handle, p: PushPC, h: Handle)
    requires PushInv(q, p)
    ensures InPush(LowQueue(q), x, LowPush(p), h) == InPush(q, x, p, h)
  {
    if p.OverflowTake? { RingWords(q.slots, p.lh, |p.vec|, HALF - |p.vec|, h); }
    if p.PushStore? { LowSlot(q.slots, p.tl); }
  }

  lemma RefillHandWords(q: Queue, p: RefillPC, h: Handle)
    requires Window(q) && RefillInv(q, p)
    ensures InRefill(WORD, LowQueue(q), LowRefill(p), h) == InRefill(0, q, p, h)
  {
    if p.BatchWrite? { RingWords(q.slots, p.tl, 0, p.k, h); }
    if p.BatchStore? { LowSub(p.nt, q.tail); RingWords(q.slots, q.tail, 0, p.nt - q.tail, h); }
  }

  lemma CopyHandWords(q: Queue, src: Queue, p: ThiefPC, h: Handle)
    requires p.Copy? && p.k <= p.n
    ensures InTheft(WORD, LowQueue(q), LowQueue(src), LowThief(p), h) == InTheft(0, q, src, p, h)
  {
    RingWords(q.slots, p.dt, 0, p.k, h);
    RingWords(src.slots, p.base, p.k, p.n - p.k, h);
  }

  lemma TheftWords(q: Queue, src: Queue, p: ThiefPC, h: Handle)
    requires Window(q) && ThiefOwnInv(q, p)
    ensures InTheft(WORD, LowQueue(q), LowQueue(src), LowThief(p), h) == InTheft(0, q, src, p, h)
  {
    if p.Copy? { CopyHandWords(q, src, p, h); }
    else if p.CommitCas? || p.TakeLast? { RingWords(q.slots, p.dt, 0, p.n, h); }
    else if p.StoreTail? { LowSub(p.nt, q.tail); RingWords(q.slots, q.tail, 0, p.nt - q.tail, h); }
  }

  lemma HandWords(wk: Worker, src: Queue, h: Handle)
    requires OwnInv(wk)
    ensures InHand(WORD, LowWorker(wk), LowQueue(src), h) == InHand(0, wk, src, h)
  {
    match wk.pc
    case Pushing(x, _, p) => PushHandWords(wk.q, x, p, h);
    case Popping(p) => if p.PopTake? { LowSlot(wk.q.slots, p.at); }
    case Stealing(_, p) => TheftWords(wk.q, src, p, h);
    case Refilling(p) => RefillHandWords(wk.q, p, h);
    case _ =>
  }

  lemma PlacesWords(s: State, h: Handle)
    requires Inv(s)
    ensures Places(WORD, Words(s), h) == Places(0, s, h)
  {
    forall w | 0 <= w < |s.ws|
      ensures InWorkerAt(WORD, Words(s), w, h) == InWorkerAt(0, s, w, h)
    {
      assert OwnInv(s.ws[w]);
      QueueWords(s.ws[w].q, h);
      HandWords(s.ws[w], s.ws[Victim(s, w)].q, h);
    }
    assert InWorkers(WORD, Words(s), h) == InWorkers(0, s, h);
  }

  /** The window in the code's own terms, by distance modulo 2^32. */
  predicate WordWindow(q: Queue) {
    Sub(WORD, q.head, q.steal) <= Sub(WORD, q.tail, q.steal) <= CAPACITY
  }

  /**
   * What the code does, in every fresh run: no ring overflows, no handle is lost or
   * duplicated, and a worker in the kernel wait has an empty cache and an empty queue.
   */
  lemma WordMachineSafe(n: nat, actions: seq<Action>, h: Handle)
    requires FreshRun(n, actions)
    ensures var s := Run(WORD, Init(n), actions);
            && Conserved(WORD, s, h)
            && (forall w :: 0 <= w < |s.ws| ==> WordWindow(s.ws[w].q))
            && (forall w :: 0 <= w < |s.ws| && s.ws[w].pc == Sleeping(Blocked) ==>
                  s.ws[w].cache.None? && s.ws[w].q.head == s.ws[w].q.tail)
  {
    RunWords(n, actions);
    RunInv(n, actions);
    RunConserves(n, actions, h);
    var s := Run(0, Init(n), actions);
    PlacesWords(s, h);
    forall w | 0 <= w < |s.ws|
      ensures WordWindow(Words(s).ws[w].q)
      ensures Words(s).ws[w].pc == Sleeping(Blocked) ==>
                Words(s).ws[w].cache.None? && Words(s).ws[w].q.head == Words(s).ws[w].q.tail
    {
      assert OwnInv(s.ws[w]);
      LowSub(s.ws[w].q.head, s.ws[w].q.steal);
      LowSub(s.ws[w].q.tail, s.ws[w].q.steal);
    }
  }

  // The head word: two 32-bit indices in one 64-bit atomic.

  function Pack(steal: nat, head: nat): nat { steal * WORD + head }

  function Unpack(word: nat): (nat, nat) { (word / WORD, word % WORD) }

  /** Nothing is lost in packing, so comparing words compares both indices. */
  lemma PackUnpack(steal: nat, head: nat)
    requires steal < WORD && head < WORD
    ensures Unpack(Pack(steal, head)) == (steal, head) && Pack(steal, head) < WORD * WORD
  {
  }
}

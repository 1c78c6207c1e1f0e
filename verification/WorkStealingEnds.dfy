/** From every reachable state a worker left alone ends what it is doing, whatever it has read meanwhile. */
module WorkStealingEnds {
  import opened Prelude
  import opened WorkStealing
  import opened WorkStealingInv
  import opened WorkStealingCalls
  import opened WorkStealingAlone

  // How many steps an operation still needs at most; what it has read may be out of date.

  function PushRank(q: Queue, p: PushPC): nat {
    match p
    case PushHead => HALF + 10
    case PushTail(st, lh) => if st == q.steal && lh == q.head then HALF + 9 else HALF + 12
    case OverflowCas(lh) => if lh == q.steal == q.head then HALF + 5 else HALF + 11
    case OverflowTake(_, vec) => if |vec| <= HALF then HALF - |vec| + 2 else 2
    case OverflowFlush(_) => 1
    case PushGlobal => 1
    case PushWrite(_) => 2
    case PushStore(_) => 1
  }

  function PopRank(q: Queue, p: PopPC): nat {
    match p
    case PopHead => 4
    case PopTail(st, lh) => if st == q.steal && lh == q.head then 3 else 6
    case PopCas(st, lh) => if st == q.steal && lh == q.head then 2 else 5
    case PopTake(_) => 1
  }

  function ThiefRank(src: Queue, p: ThiefPC): nat {
    match p
    case OwnHead => CAPACITY + 23
    case OwnTail(_) => CAPACITY + 22
    case SrcHead(_) => CAPACITY + 21
    case SrcTail(_, st, lh) => if st == src.steal && lh == src.head then CAPACITY + 12 else CAPACITY + 20
    case ClaimCas(_, st, lh, n) => if st == src.steal && lh == src.head then CAPACITY + 10 else CAPACITY + 13
    case Copy(_, _, n, k) => if k <= n then n - k + 8 else 8
    case CommitCas(_, _, st, lh) => if st == src.steal && lh == src.head then 5 else 6
    case TakeLast(_, _) => 2
    case StoreTail(_, _) => 1
  }

  function RefillRank(p: RefillPC): nat {
    match p
    case RemainTail => HALF + 20
    case RemainHead(_) => HALF + 19
    case PopBatch(num) => num + 10
    case BatchTail(vec, _) => |vec| + 5
    case BatchWrite(vec, _, _, k) => if k <= |vec| then |vec| - k + 3 else 3
    case BatchStore(_, _) => 1
  }

  /** In the kernel wait a worker rests until it is woken. */
  function Rank(wk: Worker, src: Queue): nat {
    match wk.pc
    case Pushing(_, _, p) => PushRank(wk.q, p)
    case Popping(p) => PopRank(wk.q, p)
    case Stealing(_, p) => ThiefRank(src, p)
    case Refilling(p) => RefillRank(p)
    case Sleeping(p) => if p.SizeTail? then 2 else if p.SizeHead? then 1 else 0
    case _ => 0
  }

  lemma PushFalls(wk: Worker, g: seq<Handle>)
    requires wk.pc.Pushing? && OwnInv(wk)
    ensures var r := PushStep(0, wk, g, Go).0; Rank(r, r.q) < PushRank(wk.q, wk.pc.push)
  {
  }

  lemma PopFalls(wk: Worker)
    requires wk.pc.Popping? && OwnInv(wk)
    ensures var r := PopStep(0, wk, Go); Rank(r, r.q) < PopRank(wk.q, wk.pc.pop)
  {
  }

  lemma ThiefFalls(wk: Worker, src: Queue)
    requires wk.pc.Stealing? && OwnInv(wk) && Window(src) && VictimInv(src, wk.pc.thief)
    ensures var r := ThiefStep(0, wk, src, Go); Rank(r.0, r.1) < ThiefRank(src, wk.pc.thief)
  {
  }

  lemma RefillFalls(wk: Worker, g: seq<Handle>)
    requires wk.pc.Refilling? && OwnInv(wk)
    ensures var r := RefillStep(0, wk, g).0; Rank(r, r.q) < RefillRank(wk.pc.refill)
  {
  }

  function RankAt(s: State, w: nat): nat
    requires w < |s.ws|
  {
    Rank(s.ws[w], s.ws[Victim(s, w)].q)
  }

  lemma RankFalls(s: State, w: nat)
    requires Inv(s) && w < |s.ws| && RankAt(s, w) > 0
    ensures var t := Next(0, s, Act(w, Go)); |t.ws| == |s.ws| && RankAt(t, w) < RankAt(s, w)
  {
    var wk := s.ws[w];
    assert OwnInv(wk) && StealInv(s, w);
    if wk.pc.Stealing? {
      var v := wk.pc.v;
      assert OwnInv(s.ws[v]);
      ThiefFalls(wk, s.ws[v].q);
      RobStep(s, w, v);
    } else {
      OwnFalls(wk, s.global);
      OwnStep(s, w);
    }
  }

  lemma OwnFalls(wk: Worker, g: seq<Handle>)
    requires OwnInv(wk) && !wk.pc.Stealing? && Rank(wk, wk.q) > 0
    ensures var r := Step(0, wk, wk.q, g, Go).wk; Rank(r, r.q) < Rank(wk, wk.q) && !r.pc.Stealing?
  {
    match wk.pc
    case Pushing(_, _, _) => PushFalls(wk, g);
    case Popping(_) => PopFalls(wk);
    case Refilling(_) => RefillFalls(wk, g);
    case Sleeping(_) =>
  }

  /** No operation can be blocked or kept waiting by a worker that does not move. */
  lemma {:induction false} OperationEnds(s: State, w: nat) returns (t: State)
    requires Inv(s) && w < |s.ws|
    ensures Reaches(s, w, t) && |t.ws| == |s.ws|
    ensures t.ws[w].pc.Idle? || t.ws[w].pc.Got? || t.ws[w].pc == Sleeping(Blocked)
    decreases RankAt(s, w)
  {
    if RankAt(s, w) == 0 {
      t := s;
      ReachSelf(s, w);
    } else {
      RankFalls(s, w);
      StepKeepsInv(s, Act(w, Go));
      t := OperationEnds(Next(0, s, Act(w, Go)), w);
      ReachStep(s, w, t);
    }
  }

  /** What a worker between two operations begins. */
  lemma Begins(s: State, w: nat, op: Op)
    requires w < |s.ws| && s.ws[w].pc.Idle?
    requires op.TryPop? || op.Sleep? || op.Refill? || (op.Steal? && op.v < |s.ws| && op.v != w)
    ensures Next(0, s, Act(w, op)) ==
            match op
            case TryPop => if s.ws[w].cache.Some? then s else WithPC(s, w, Popping(PopHead))
            case Sleep => if s.ws[w].cache.Some? then s else WithPC(s, w, Sleeping(SizeTail))
            case Refill => WithPC(s, w, Refilling(RemainTail))
            case Steal(v) => WithPC(s, w, Stealing(v, OwnHead))
            case _ => s
  {
    var e := IdleStep(s.ws[w], s.ws[w].q, s.global, op);
    assert s.ws[w := s.ws[w].(q := e.src)][w := e.wk] == s.ws[w := e.wk];
    assert e.wk == s.ws[w] ==> s.ws[w := e.wk] == s.ws;
    assert s.submitted + multiset{} == s.submitted && s.resumed + multiset{} == s.resumed;
  }

  /** A worker in the kernel wait is between two operations again when it is woken. */
  lemma Woken(s: State, w: nat)
    requires w < |s.ws| && s.ws[w].pc == Sleeping(Blocked)
    ensures Next(0, s, Act(w, Go)) == WithPC(s, w, Idle)
  {
    OwnStep(s, w);
  }

  /** What the outside submits goes behind what is in the global queue. */
  lemma SubmittedLast(s: State, hs: seq<Handle>)
    ensures Next(0, s, Submit(hs)) == s.(global := s.global + hs, submitted := s.submitted + multiset(hs))
  {
  }

  function WithPC(s: State, w: nat, pc: PC): State
    requires w < |s.ws|
  {
    s.(ws := s.ws[w := s.ws[w].(pc := pc)])
  }

  /**
   * A thief gives up only when the ring it looks at has fewer than two tasks, when another thief was at work
   * there as it read the head, or when its own ring was more than half full as it read its tail.
   */
  lemma ThiefGivesUp(s: State, w: nat, op: Op)
    requires Inv(s) && w < |s.ws| && s.ws[w].pc.Stealing? && !Disabled(s, w, op)
    ensures var t, v, p := Next(0, s, Act(w, op)), s.ws[w].pc.v, s.ws[w].pc.thief;
            && w < |t.ws| && v < |s.ws|
            && (t.ws[w].pc.Idle? ==>
                  || (p.SrcTail? && (|Ring(s.ws[v].q)| < 2 || p.st != p.lh))
                  || (p.OwnTail? && s.ws[w].q.tail > p.own + HALF))
  {
    assert OwnInv(s.ws[w]) && StealInv(s, w);
    assert OwnInv(s.ws[s.ws[w].pc.v]);
  }
}

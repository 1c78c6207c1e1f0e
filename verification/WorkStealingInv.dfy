/** What every step of the scheduler keeps: the ring window and the claims of thieves. */
module WorkStealingInv {
  import opened Prelude
  import opened WorkStealing

  /** steal <= head <= tail <= steal + CAPACITY, with the claimed range inside. */
  predicate Window(q: Queue) {
    && q.steal <= q.claimed <= q.head <= q.tail <= q.steal + CAPACITY
    && (q.claimed == q.steal ==> q.steal == q.head)
  }

  // What a worker's program counter says about its own queue.

  predicate PushInv(q: Queue, p: PushPC) {
    match p
    case PushTail(st, lh) => st <= lh && st <= q.steal && lh <= q.head && q.tail <= st + CAPACITY
    case OverflowCas(lh) => q.tail == lh + CAPACITY && lh <= q.steal
    case OverflowTake(lh, vec) => |vec| <= HALF && q.tail == lh + CAPACITY && lh + HALF <= q.steal
    case PushWrite(tl) => tl == q.tail < q.steal + CAPACITY
    case PushStore(tl) => tl == q.tail < q.steal + CAPACITY
    case _ => true
  }

  predicate PopInv(q: Queue, p: PopPC) {
    match p
    case PopHead => true
    case PopTail(st, lh) => st <= lh && st <= q.steal && lh <= q.head && q.tail <= st + CAPACITY
    case PopCas(st, lh) => st <= lh < q.tail <= st + CAPACITY && st <= q.steal && lh <= q.head
    case PopTake(i) => (i < q.steal || q.claimed <= i) && i < q.head && q.tail <= i + CAPACITY
  }

  predicate ThiefOwnInv(q: Queue, p: ThiefPC) {
    match p
    case OwnHead => true
    case OwnTail(own) => own <= q.steal && q.tail <= own + CAPACITY
    case SrcHead(dt) => dt == q.tail <= q.steal + HALF
    case SrcTail(dt, st, lh) => dt == q.tail <= q.steal + HALF && st <= lh <= st + CAPACITY
    case ClaimCas(dt, st, lh, n) => dt == q.tail <= q.steal + HALF && st == lh && 1 <= n
    case Copy(dt, _, n, k) => dt == q.tail && q.tail + n <= q.steal + CAPACITY && k <= n && 1 <= n
    case CommitCas(dt, n, st, lh) =>
      dt == q.tail && q.tail + n <= q.steal + CAPACITY && 1 <= n && st <= lh <= st + CAPACITY
    case TakeLast(dt, n) => dt == q.tail && q.tail + n <= q.steal + CAPACITY && 1 <= n
    case StoreTail(_, nt) => q.tail <= nt <= q.steal + CAPACITY
  }

  predicate RefillInv(q: Queue, p: RefillPC) {
    match p
    case RemainTail => true
    case RemainHead(tl) => tl == q.tail
    case PopBatch(num) => 1 <= num && q.tail + num <= q.steal + CAPACITY
    case BatchTail(vec, _) => vec != [] && q.tail + |vec| <= q.steal + CAPACITY
    case BatchWrite(vec, _, tl, k) => tl == q.tail && k <= |vec| && q.tail + |vec| <= q.steal + CAPACITY
    case BatchStore(_, nt) => q.tail <= nt <= q.steal + CAPACITY
  }

  predicate SleepInv(q: Queue, cache: Option<Handle>, p: SleepPC) {
    && cache.None?
    && match p
       case SizeTail => true
       case SizeHead(tl) => tl == q.tail
       case Blocked => q.head == q.tail
  }

  predicate OwnInv(wk: Worker) {
    && Window(wk.q)
    && match wk.pc
       case Pushing(_, keep, p) => PushInv(wk.q, p) && (keep.Some? ==> wk.cache.None?)
       case Popping(p) => PopInv(wk.q, p)
       case Stealing(_, p) => ThiefOwnInv(wk.q, p)
       case Refilling(p) => RefillInv(wk.q, p)
       case Sleeping(p) => SleepInv(wk.q, wk.cache, p)
       case _ => true
  }

  /** What a thief's program counter says about its victim's queue. */
  predicate VictimInv(src: Queue, p: ThiefPC) {
    match p
    case SrcTail(_, st, lh) => st <= src.steal && lh <= src.head
    case ClaimCas(_, st, lh, n) => st <= src.steal && lh <= src.head && lh + 2 * n <= src.tail
    case Copy(_, base, n, _) => src.steal == base && src.claimed == base + n
    case CommitCas(_, n, st, lh) => src.steal == st && src.claimed == st + n && lh <= src.head
    case _ => true
  }

  /** The thief is between its claim and its commit. */
  predicate HasClaim(p: ThiefPC) { p.Copy? || p.CommitCas? }

  predicate Claims(wk: Worker, v: nat) { wk.pc.Stealing? && wk.pc.v == v && HasClaim(wk.pc.thief) }

  predicate StealInv(s: State, w: nat)
    requires w < |s.ws|
  {
    s.ws[w].pc.Stealing? ==>
      && s.ws[w].pc.v < |s.ws| && s.ws[w].pc.v != w
      && VictimInv(s.ws[s.ws[w].pc.v].q, s.ws[w].pc.thief)
  }

  ghost predicate Exclusive(s: State) {
    forall u: nat, w: nat, v: nat ::
      u < |s.ws| && w < |s.ws| && Claims(s.ws[u], v) && Claims(s.ws[w], v) ==> u == w
  }

  ghost predicate Inv(s: State) {
    && (forall w :: 0 <= w < |s.ws| ==> OwnInv(s.ws[w]))
    && (forall w :: 0 <= w < |s.ws| ==> StealInv(s, w))
    && Exclusive(s)
  }

  /** The slots at positions `a` up to `b` hold the same handles. */
  predicate SameSlots(x: Slots, y: Slots, a: nat, b: nat) {
    forall i :: a <= i < b ==> At(x, i) == At(y, i)
  }

  /** How an owner's step may change its queue: forward, and around what a thief claimed. */
  predicate Advances(q: Queue, r: Queue) {
    && q.steal <= r.steal && q.head <= r.head && q.tail <= r.tail
    && (r.steal < r.claimed ==> q.steal < q.claimed)
    && (q.steal < q.claimed ==>
          r.steal == q.steal && r.claimed == q.claimed && SameSlots(q.slots, r.slots, q.steal, q.claimed))
  }

  /** How a thief's step may change its victim's queue. */
  predicate Robbed(q: Queue, r: Queue) {
    && r.slots == q.slots && r.tail == q.tail && Window(r)
    && q.steal <= r.steal && q.head <= r.head
    && (r.claimed == q.claimed || r.steal == r.head || q.head <= r.steal)
  }

  /** Writing one ring position leaves positions within a turn of it alone. */
  lemma PutFrame(x: Slots, i: nat, h: Handle, a: nat, b: nat)
    requires b <= i < a + CAPACITY || (i < a && b <= i + CAPACITY)
    ensures SameSlots(x, Put(x, i, h), a, b)
  {
  }

  lemma PushKeeps(wk: Worker, g: seq<Handle>, op: Op)
    requires wk.pc.Pushing? && Window(wk.q) && PushInv(wk.q, wk.pc.push)
    ensures var r := PushStep(0, wk, g, op).0;
            && Window(r.q) && Advances(wk.q, r.q)
            && (r.pc.Idle? || (r.pc.Pushing? && r.pc == Pushing(wk.pc.x, wk.pc.keep, r.pc.push)
                               && r.cache == wk.cache && PushInv(r.q, r.pc.push)))
  {
    var q := wk.q;
    match wk.pc.push
    case PushWrite(tl) => PutFrame(q.slots, tl, wk.pc.x, q.steal, q.claimed);
    case OverflowTake(lh, vec) =>
      if |vec| < HALF {
        PutFrame(q.slots, lh + |vec|, Null, q.steal, q.claimed);
      }
    case _ =>
  }

  lemma PopKeeps(wk: Worker, op: Op)
    requires wk.pc.Popping? && Window(wk.q) && PopInv(wk.q, wk.pc.pop)
    ensures var r := PopStep(0, wk, op);
            && Window(r.q) && Advances(wk.q, r.q)
            && (r.pc.Idle? || r.pc.Got? || (r.pc.Popping? && PopInv(r.q, r.pc.pop)))
  {
    var q := wk.q;
    if wk.pc.pop.PopTake? {
      PutFrame(q.slots, wk.pc.pop.at, Null, q.steal, q.claimed);
    }
  }

  lemma RefillKeeps(wk: Worker, g: seq<Handle>)
    requires wk.pc.Refilling? && Window(wk.q) && RefillInv(wk.q, wk.pc.refill)
    ensures var r := RefillStep(0, wk, g).0;
            && Window(r.q) && Advances(wk.q, r.q)
            && (r.pc.Idle? || r.pc.Got? || (r.pc.Refilling? && RefillInv(r.q, r.pc.refill)))
  {
    var q := wk.q;
    match wk.pc.refill
    case BatchWrite(vec, last, tl, k) =>
      if k < |vec| {
        PutFrame(q.slots, tl + k, vec[k], q.steal, q.claimed);
      }
    case _ =>
  }

  /** A thief's step seen from its own queue, from its victim's and from other thieves. */
  predicate ThiefKept(wk: Worker, src: Queue, r: Worker, src': Queue)
    requires wk.pc.Stealing?
  {
    && Window(r.q) && Advances(wk.q, r.q) && Robbed(src, src')
    && (src' != src ==> HasClaim(wk.pc.thief) || src.steal == src.head)
    && (src' != src || HasClaim(wk.pc.thief) ==>
          (src'.steal < src'.claimed <==> r.pc.Stealing? && HasClaim(r.pc.thief)))
    && (r.pc.Idle? || r.pc.Got? ||
        (r.pc.Stealing? && r.pc.v == wk.pc.v
         && ThiefOwnInv(r.q, r.pc.thief) && VictimInv(src', r.pc.thief)
         && (HasClaim(r.pc.thief) ==> HasClaim(wk.pc.thief) || src.steal == src.head)))
  }

  lemma ClaimKeeps(wk: Worker, src: Queue, op: Op)
    requires wk.pc.Stealing? && Window(wk.q) && ThiefOwnInv(wk.q, wk.pc.thief)
    requires Window(src) && VictimInv(src, wk.pc.thief) && (wk.pc.thief.ClaimCas? || HasClaim(wk.pc.thief))
    ensures ThiefKept(wk, src, ThiefStep(0, wk, src, op).0, ThiefStep(0, wk, src, op).1)
  {
    var q := wk.q;
    if wk.pc.thief.Copy? && wk.pc.thief.k < wk.pc.thief.n {
      var Copy(dt, base, n, k) := wk.pc.thief;
      PutFrame(q.slots, dt + k, At(src.slots, base + k), q.steal, q.claimed);
    }
  }

  lemma ThiefKeeps(wk: Worker, src: Queue, op: Op)
    requires wk.pc.Stealing? && Window(wk.q) && ThiefOwnInv(wk.q, wk.pc.thief)
    requires Window(src) && VictimInv(src, wk.pc.thief)
    ensures ThiefKept(wk, src, ThiefStep(0, wk, src, op).0, ThiefStep(0, wk, src, op).1)
  {
    if wk.pc.thief.ClaimCas? || HasClaim(wk.pc.thief) { ClaimKeeps(wk, src, op); }
  }

  lemma IdleKeeps(wk: Worker, src: Queue, g: seq<Handle>, op: Op)
    requires OwnInv(wk) && wk.pc.Idle?
    ensures var e := IdleStep(wk, src, g, op);
            && OwnInv(e.wk) && e.wk.q == wk.q && e.src == src
            && (e.wk.pc.Stealing? ==> op.Steal? && e.wk.pc == Stealing(op.v, OwnHead))
  {
  }

  /** One step: the worker's own knowledge and what it knows of its victim stay true. */
  lemma EffectKeeps(wk: Worker, src: Queue, g: seq<Handle>, op: Op)
    requires OwnInv(wk) && (wk.pc.Stealing? ==> Window(src) && VictimInv(src, wk.pc.thief))
    ensures var e := Step(0, wk, src, g, op);
            && OwnInv(e.wk) && Advances(wk.q, e.wk.q)
            && (wk.pc.Stealing? ==> Robbed(src, e.src))
            && (!wk.pc.Stealing? ==> e.src == src)
            && (e.src != src ==> HasClaim(wk.pc.thief) || src.steal == src.head)
            && (wk.pc.Stealing? && (e.src != src || HasClaim(wk.pc.thief)) ==>
                  (e.src.steal < e.src.claimed <==> e.wk.pc.Stealing? && HasClaim(e.wk.pc.thief)))
            && (e.wk.pc.Stealing? ==>
                  if wk.pc.Stealing? then
                    && e.wk.pc.v == wk.pc.v && VictimInv(e.src, e.wk.pc.thief)
                    && (HasClaim(e.wk.pc.thief) ==> HasClaim(wk.pc.thief) || src.steal == src.head)
                  else
                    op.Steal? && e.wk.pc == Stealing(op.v, OwnHead))
  {
    match wk.pc
    case Idle => IdleKeeps(wk, src, g, op);
    case Got(_) =>
    case Pushing(_, _, _) => PushKeeps(wk, g, op);
    case Popping(_) => PopKeeps(wk, op);
    case Stealing(_, _) => ThiefKeeps(wk, src, op);
    case Refilling(_) => RefillKeeps(wk, g);
    case Sleeping(_) =>
  }

  /** An owner's knowledge of its queue survives a thief's claim or commit. */
  lemma OwnStable(wk: Worker, r: Queue)
    requires OwnInv(wk) && Robbed(wk.q, r)
    ensures OwnInv(wk.(q := r))
  {
    match wk.pc
    case Pushing(_, _, p) => assert PushInv(r, p);
    case Popping(p) => assert PopInv(r, p);
    case Stealing(_, p) => assert ThiefOwnInv(r, p);
    case Refilling(p) => assert RefillInv(r, p);
    case Sleeping(p) => assert SleepInv(r, wk.cache, p);
    case _ =>
  }

  /** A thief's knowledge of its victim survives the steps of others. */
  lemma VictimStable(src: Queue, r: Queue, p: ThiefPC)
    requires VictimInv(src, p) && src.steal <= r.steal && src.head <= r.head && src.tail <= r.tail
    requires HasClaim(p) ==> r.steal == src.steal && r.claimed == src.claimed
    ensures VictimInv(r, p)
  {
  }

  lemma NoOtherClaim(s: State, w: nat, v: nat)
    requires Inv(s) && w < |s.ws| && v < |s.ws|
    requires Claims(s.ws[w], v) || s.ws[v].q.steal == s.ws[v].q.head
    ensures forall u: nat :: u < |s.ws| && u != w ==> !Claims(s.ws[u], v)
  {
    forall u: nat | u < |s.ws| && u != w
      ensures !Claims(s.ws[u], v)
    {
      assert StealInv(s, u) && OwnInv(s.ws[u]) && OwnInv(s.ws[v]);
    }
  }

  /** What a step of `w` does to the queue of any other worker `x`. */
  lemma OthersQueue(s: State, w: nat, op: Op, x: nat)
    requires Inv(s) && !Disabled(s, w, op) && x < |s.ws| && x != w
    ensures var t := Next(0, s, Act(w, op));
            && |t.ws| == |s.ws| && t.ws[x] == s.ws[x].(q := t.ws[x].q) && OwnInv(t.ws[x])
            && (t.ws[x].q == s.ws[x].q || (Robbed(s.ws[x].q, t.ws[x].q) && Victim(s, w) == x && s.ws[w].pc.Stealing?))
  {
    var v := Victim(s, w);
    assert OwnInv(s.ws[w]) && StealInv(s, w) && OwnInv(s.ws[v]) && OwnInv(s.ws[x]);
    EffectKeeps(s.ws[w], s.ws[v].q, s.global, op);
    if x == v {
      OwnStable(s.ws[x], Next(0, s, Act(w, op)).ws[x].q);
    }
  }

  /** Another thief `u` keeps its claim and its knowledge across a step of `w`. */
  lemma OthersClaim(s: State, w: nat, op: Op, u: nat)
    requires Inv(s) && !Disabled(s, w, op) && u < |s.ws| && u != w && s.ws[u].pc.Stealing?
    ensures |Next(0, s, Act(w, op)).ws| == |s.ws| && StealInv(Next(0, s, Act(w, op)), u)
  {
    var t := Next(0, s, Act(w, op));
    var x := s.ws[u].pc.v;
    assert StealInv(s, u) && OwnInv(s.ws[x]);
    OwnQueueMoves(s, w, op);
    OthersQueue(s, w, op, u);
    if x != w { UnclaimedElsewhere(s, w, op, u, x); }
    VictimStable(s.ws[x].q, t.ws[x].q, s.ws[u].pc.thief);
  }

  lemma OwnQueueMoves(s: State, w: nat, op: Op)
    requires Inv(s) && !Disabled(s, w, op)
    ensures |Next(0, s, Act(w, op)).ws| == |s.ws| && Advances(s.ws[w].q, Next(0, s, Act(w, op)).ws[w].q)
  {
    var v := Victim(s, w);
    assert OwnInv(s.ws[w]) && StealInv(s, w) && OwnInv(s.ws[v]);
    EffectKeeps(s.ws[w], s.ws[v].q, s.global, op);
  }

  /** A step of `w` changes the queue of another worker only as its sole claimant. */
  lemma UnclaimedElsewhere(s: State, w: nat, op: Op, u: nat, x: nat)
    requires Inv(s) && !Disabled(s, w, op) && u < |s.ws| && u != w && x < |s.ws| && x != w
    ensures var t := Next(0, s, Act(w, op));
            |t.ws| == |s.ws| && (t.ws[x].q == s.ws[x].q || (x == Victim(s, w) && !Claims(s.ws[u], x)))
  {
    OthersQueue(s, w, op, x);
    if Next(0, s, Act(w, op)).ws[x].q != s.ws[x].q { NoOtherClaim(s, w, x); }
  }

  lemma StepExclusive(s: State, w: nat, op: Op)
    requires Inv(s) && !Disabled(s, w, op)
    ensures Exclusive(Next(0, s, Act(w, op)))
  {
    var t := Next(0, s, Act(w, op));
    var v := Victim(s, w);
    assert OwnInv(s.ws[w]) && StealInv(s, w) && OwnInv(s.ws[v]);
    EffectKeeps(s.ws[w], s.ws[v].q, s.global, op);
    forall u: nat | u < |s.ws| && u != w
      ensures t.ws[u].pc == s.ws[u].pc
    {
      OthersQueue(s, w, op, u);
    }
    if t.ws[w].pc.Stealing? && HasClaim(t.ws[w].pc.thief) {
      NoOtherClaim(s, w, v);
    }
  }

  lemma StepKeepsInv(s: State, a: Action)
    requires Inv(s)
    ensures Inv(Next(0, s, a))
  {
    var t := Next(0, s, a);
    if a.Submit? || Disabled(s, a.w, a.op) {
      forall u | 0 <= u < |s.ws|
        ensures StealInv(t, u)
      {
        assert StealInv(s, u);
      }
    } else {
      var w, v := a.w, Victim(s, a.w);
      assert OwnInv(s.ws[w]) && StealInv(s, w) && OwnInv(s.ws[v]);
      EffectKeeps(s.ws[w], s.ws[v].q, s.global, a.op);
      StepExclusive(s, w, a.op);
      forall u | 0 <= u < |s.ws|
        ensures OwnInv(t.ws[u]) && StealInv(t, u)
      {
        if u != w {
          OthersQueue(s, w, a.op, u);
          if s.ws[u].pc.Stealing? { OthersClaim(s, w, a.op, u); }
        }
      }
    }
  }

  /** In every reachable state of any number of workers the invariant holds. */
  lemma {:induction false} RunInv(n: nat, actions: seq<Action>)
    ensures Inv(Run(0, Init(n), actions))
    decreases |actions|
  {
    if actions != [] {
      RunInv(n, actions[..|actions| - 1]);
      StepKeepsInv(Run(0, Init(n), actions[..|actions| - 1]), actions[|actions| - 1]);
    }
  }

  /**
   * No step of another worker writes a slot that thief `u`, between its claim and its
   * commit, has still to copy.
   */
  lemma NoOverwrite(s: State, w: nat, op: Op, u: nat)
    requires Inv(s) && !Disabled(s, w, op) && u < |s.ws| && u != w
    requires s.ws[u].pc.Stealing? && s.ws[u].pc.thief.Copy?
    ensures var t := Next(0, s, Act(w, op));
            var (x, p) := (s.ws[u].pc.v, s.ws[u].pc.thief);
            && t.ws[u].pc == s.ws[u].pc && x < |s.ws| == |t.ws|
            && SameSlots(s.ws[x].q.slots, t.ws[x].q.slots, p.base, p.base + p.n)
  {
    var x := s.ws[u].pc.v;
    assert OwnInv(s.ws[u]) && StealInv(s, u);
    OthersQueue(s, w, op, u);
    if x == w {
      var v := Victim(s, w);
      assert OwnInv(s.ws[w]) && StealInv(s, w) && OwnInv(s.ws[v]);
      EffectKeeps(s.ws[w], s.ws[v].q, s.global, op);
    } else {
      OthersQueue(s, w, op, x);
    }
  }

  /** A queue whose steal pointer lags behind its head has a thief that will commit. */
  ghost predicate ClaimsHeld(s: State) {
    forall v: nat :: v < |s.ws| && s.ws[v].q.steal < s.ws[v].q.head ==>
      exists u: nat :: u < |s.ws| && Claims(s.ws[u], v)
  }

  lemma StepClaimsHeld(s: State, w: nat, op: Op, v: nat)
    requires Inv(s) && ClaimsHeld(s) && !Disabled(s, w, op) && v < |s.ws|
    ensures var t := Next(0, s, Act(w, op));
            && |t.ws| == |s.ws|
            && (t.ws[v].q.steal < t.ws[v].q.head ==> exists u: nat :: u < |t.ws| && Claims(t.ws[u], v))
  {
    var t, x := Next(0, s, Act(w, op)), Victim(s, w);
    assert OwnInv(s.ws[w]) && StealInv(s, w) && OwnInv(s.ws[x]) && OwnInv(s.ws[v]);
    EffectKeeps(s.ws[w], s.ws[x].q, s.global, op);
    StepKeepsInv(s, Act(w, op));
    assert OwnInv(t.ws[v]);
    if t.ws[v].q.steal < t.ws[v].q.head {
      if v != w { OthersQueue(s, w, op, v); }
      if Claims(t.ws[w], v) {
      } else {
        assert s.ws[v].q.steal < s.ws[v].q.head;
        var u: nat :| u < |s.ws| && Claims(s.ws[u], v);
        if u != w { OthersQueue(s, w, op, u); }
        assert Claims(t.ws[u], v);
      }
    }
  }

  /** In every reachable state, steal and head differ exactly while some thief holds a claim. */
  lemma {:induction false} RunClaimsHeld(n: nat, actions: seq<Action>)
    ensures ClaimsHeld(Run(0, Init(n), actions))
    decreases |actions|
  {
    if actions != [] {
      var before, a := actions[..|actions| - 1], actions[|actions| - 1];
      var s := Run(0, Init(n), before);
      RunClaimsHeld(n, before);
      RunInv(n, before);
      if a.Act? && !Disabled(s, a.w, a.op) {
        forall v: nat | v < |s.ws|
          ensures Next(0, s, a).ws[v].q.steal < Next(0, s, a).ws[v].q.head ==>
                    exists u: nat :: u < |s.ws| && Claims(Next(0, s, a).ws[u], v)
        {
          StepClaimsHeld(s, a.w, a.op, v);
        }
      }
    }
  }
}

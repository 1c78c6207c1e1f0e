/**
 * Left alone, every operation of a worker ends, with the answer that its documentation promises: no branch
 * gives up, or goes to the global queue, when it need not.
 */
module WorkStealingAlone {
  import opened Prelude
  import opened WorkStealing
  import opened WorkStealingInv
  import opened WorkStealingCalls

  function Turns(w: nat, k: nat): seq<Action> { seq(k, i => Act(w, Go)) }

  /** Worker `w`, left alone in `s`, comes to `t`. */
  ghost predicate Reaches(s: State, w: nat, t: State) { exists k: nat :: Run(0, s, Turns(w, k)) == t }

  lemma {:induction false} RunApart(s: State, first: Action, rest: seq<Action>)
    ensures Run(0, s, [first] + rest) == Run(0, Next(0, s, first), rest)
    decreases |rest|
  {
    var all := [first] + rest;
    if rest != [] {
      assert all[..|all| - 1] == [first] + rest[..|rest| - 1] && all[|all| - 1] == rest[|rest| - 1];
      RunApart(s, first, rest[..|rest| - 1]);
    }
  }

  lemma ReachSelf(s: State, w: nat)
    ensures Reaches(s, w, s)
  {
    assert Run(0, s, Turns(w, 0)) == s;
  }

  lemma ReachStep(s: State, w: nat, t: State)
    requires Reaches(Next(0, s, Act(w, Go)), w, t)
    ensures Reaches(s, w, t)
  {
    var k: nat :| Run(0, Next(0, s, Act(w, Go)), Turns(w, k)) == t;
    assert Turns(w, k + 1) == [Act(w, Go)] + Turns(w, k);
    RunApart(s, Act(w, Go), Turns(w, k));
  }

  /** The state in which worker `w` and the global queue are as given. */
  function With(s: State, w: nat, wk: Worker, g: seq<Handle>): State
    requires w < |s.ws|
  {
    s.(ws := s.ws[w := wk], global := g)
  }

  /** A step of a worker that neither steals nor resumes. */
  lemma OwnStep(s: State, w: nat)
    requires w < |s.ws| && !s.ws[w].pc.Stealing? && !s.ws[w].pc.Idle? && !s.ws[w].pc.Got?
    ensures var e := Step(0, s.ws[w], s.ws[w].q, s.global, Go);
            Next(0, s, Act(w, Go)) == With(s, w, e.wk, e.global)
  {
    var e := Step(0, s.ws[w], s.ws[w].q, s.global, Go);
    assert s.ws[w := s.ws[w].(q := e.src)][w := e.wk] == s.ws[w := e.wk];
    assert s.submitted + multiset{} == s.submitted && s.resumed + multiset{} == s.resumed;
  }

  /** Between two operations, about to resume a task, or stealing. */
  predicate Rests(wk: Worker) { wk.pc.Idle? || wk.pc.Got? || wk.pc.Stealing? }

  /** What the worker and the global queue are after up to `k` steps of its operation. */
  function Going(wk: Worker, g: seq<Handle>, k: nat): (Worker, seq<Handle>)
    decreases k
  {
    if k == 0 || Rests(wk) then (wk, g)
    else Going(Step(0, wk, wk.q, g, Go).wk, Step(0, wk, wk.q, g, Go).global, k - 1)
  }

  lemma {:induction false} GoingReaches(s: State, w: nat, k: nat)
    requires w < |s.ws|
    ensures var r := Going(s.ws[w], s.global, k); Reaches(s, w, With(s, w, r.0, r.1))
    decreases k
  {
    if k == 0 || Rests(s.ws[w]) {
      assert s.ws[w := s.ws[w]] == s.ws;
      ReachSelf(s, w);
    } else {
      var t := Next(0, s, Act(w, Go));
      OwnStep(s, w);
      GoingReaches(t, w, k - 1);
      var r := Going(s.ws[w], s.global, k);
      assert t.ws[w := r.0] == s.ws[w := r.0];
      ReachStep(s, w, With(s, w, r.0, r.1));
    }
  }

  // push_back

  /** What a push leaves: an idle worker with this ring, and this in the global queue. */
  predicate PushedTo(wk: Worker, r: Worker, h: seq<Handle>, ring: seq<Handle>, g: seq<Handle>)
    requires wk.pc.Pushing?
  {
    && r.pc.Idle? && r.cache == (if wk.pc.keep.Some? then wk.pc.keep else wk.cache)
    && Ring(r.q) == ring && h == g
  }

  lemma RoomGoes(wk: Worker, g: seq<Handle>)
    requires wk.pc.Pushing? && wk.pc.push.PushWrite? && OwnInv(wk)
    ensures var r := Going(wk, g, 2); PushedTo(wk, r.0, r.1, Ring(wk.q) + [wk.pc.x], g)
  {
    var q, tl := wk.q, wk.pc.push.tl;
    var a := PushStep(0, wk, g, Go).0;
    SegmentPut(q.slots, tl, wk.pc.x, q.head, q.tail - q.head);
    StoreExtends(a.q, tl);
    assert Going(a, g, 1) == (PushStep(0, a, g, Go).0, g);
  }

  lemma EvictedOne(wk: Worker, g: seq<Handle>)
    requires wk.pc.Pushing? && wk.pc.push.OverflowTake? && OwnInv(wk) && |wk.pc.push.vec| < HALF
    ensures var q, lh, vec := wk.q, wk.pc.push.lh, wk.pc.push.vec;
            var more, slots := vec + [At(q.slots, lh + |vec|)], Put(q.slots, lh + |vec|, Null);
            var a := wk.(q := q.(slots := slots), pc := Pushing(wk.pc.x, wk.pc.keep, OverflowTake(lh, more)));
            && PushStep(0, wk, g, Go) == (a, g) && OwnInv(a) && Ring(a.q) == Ring(q)
            && more + Segment(slots, lh + |more|, HALF - |more|) == vec + Segment(q.slots, lh + |vec|, HALF - |vec|)
  {
    PushKeeps(wk, g, Go);
    EvictedSlot(wk.q, wk.pc.push.lh, wk.pc.push.vec);
  }

  lemma EvictedSlot(q: Queue, lh: nat, vec: seq<Handle>)
    requires Window(q) && PushInv(q, OverflowTake(lh, vec)) && |vec| < HALF
    ensures var more, slots := vec + [At(q.slots, lh + |vec|)], Put(q.slots, lh + |vec|, Null);
            && Ring(q.(slots := slots)) == Ring(q)
            && more + Segment(slots, lh + |more|, HALF - |more|) == vec + Segment(q.slots, lh + |vec|, HALF - |vec|)
  {
    RingPut(q, lh + |vec|, Null);
    OneMoreTaken(q.slots, lh, vec);
  }

  /** What was evicted and is not yet in hand is still in its slots. */
  lemma {:induction false} FlushGoes(wk: Worker, g: seq<Handle>)
    requires wk.pc.Pushing? && wk.pc.push.OverflowTake? && OwnInv(wk)
    ensures var q, lh, vec := wk.q, wk.pc.push.lh, wk.pc.push.vec;
            |vec| <= HALF
            && var r := Going(wk, g, HALF - |vec| + 2);
               PushedTo(wk, r.0, r.1, Ring(q), g + (vec + Segment(q.slots, lh + |vec|, HALF - |vec|)) + [wk.pc.x])
    decreases HALF - |wk.pc.push.vec|
  {
    var q, lh, vec := wk.q, wk.pc.push.lh, wk.pc.push.vec;
    var a := PushStep(0, wk, g, Go).0;
    if |vec| < HALF {
      EvictedOne(wk, g);
      FlushGoes(a, g);
      assert Going(wk, g, HALF - |vec| + 2) == Going(a, g, HALF - |vec| + 1);
    } else {
      assert vec + Segment(q.slots, lh + |vec|, HALF - |vec|) == vec;
      assert Going(a, g, 1) == (PushStep(0, a, g, Go).0, g + vec + [wk.pc.x]);
    }
  }

  lemma OverflowGoes(wk: Worker, g: seq<Handle>)
    requires wk.pc.Pushing? && wk.pc.push.OverflowCas? && OwnInv(wk)
    requires wk.q.steal == wk.q.head == wk.pc.push.lh
    ensures |Ring(wk.q)| == CAPACITY
    ensures var r := Going(wk, g, HALF + 3);
            PushedTo(wk, r.0, r.1, Ring(wk.q)[HALF..], g + Ring(wk.q)[..HALF] + [wk.pc.x])
  {
    var a := PushStep(0, wk, g, Go).0;
    EvictedHalf(wk, g);
    FlushGoes(a, g);
    assert Going(wk, g, HALF + 3) == Going(a, g, HALF + 2);
  }

  lemma EvictedHalf(wk: Worker, g: seq<Handle>)
    requires wk.pc.Pushing? && wk.pc.push.OverflowCas? && OwnInv(wk)
    requires wk.q.steal == wk.q.head == wk.pc.push.lh
    ensures var (a, h) := PushStep(0, wk, g, Go);
            && h == g && OwnInv(a) && a.cache == wk.cache
            && a.pc == Pushing(wk.pc.x, wk.pc.keep, OverflowTake(wk.pc.push.lh, []))
            && |Ring(wk.q)| == CAPACITY && Ring(a.q) == Ring(wk.q)[HALF..]
            && [] + Segment(a.q.slots, wk.pc.push.lh, HALF) == Ring(wk.q)[..HALF]
  {
    HalfLeaves(wk.q);
    PushKeeps(wk, g, Go);
  }

  /** The branch that push_back takes after reading head, steal and tail. */
  lemma PushBranches(wk: Worker, g: seq<Handle>)
    requires wk.pc.Pushing? && wk.pc.push.PushHead? && OwnInv(wk)
    ensures var q := wk.q;
            var p := if q.tail < q.steal + CAPACITY then PushWrite(q.tail)
                     else if q.steal != q.head then PushGlobal else OverflowCas(q.head);
            forall k :: k >= 2 ==> Going(wk, g, k) == Going(wk.(pc := Pushing(wk.pc.x, wk.pc.keep, p)), g, k - 2)
    ensures wk.q.tail == wk.q.steal + CAPACITY && wk.q.steal == wk.q.head ==>
              OwnInv(wk.(pc := Pushing(wk.pc.x, wk.pc.keep, OverflowCas(wk.q.head))))
  {
    var a := PushStep(0, wk, g, Go).0;
    var b := PushStep(0, a, g, Go).0;
    forall k | k >= 2 ensures Going(wk, g, k) == Going(b, g, k - 2) { assert Going(a, g, k - 1) == Going(b, g, k - 2); }
  }

  /**
   * push_back: the task goes to the ring if there is room; if not, and nobody is stealing, the older half of the
   * ring and then the task go to the global queue; and the task alone while a thief has a claim.
   */
  lemma PushAlone(s: State, w: nat) returns (t: State)
    requires Inv(s) && w < |s.ws| && s.ws[w].pc.Pushing? && s.ws[w].pc.push.PushHead?
    ensures Reaches(s, w, t) && |t.ws| == |s.ws| && t == With(s, w, t.ws[w], t.global)
    ensures var wk, r, q, x := s.ws[w], t.ws[w], s.ws[w].q, s.ws[w].pc.x;
            if q.tail < q.steal + 256 then PushedTo(wk, r, t.global, Ring(q) + [x], s.global)
            else if q.steal != q.head then PushedTo(wk, r, t.global, Ring(q), s.global + [x])
            else |Ring(q)| == 256 && PushedTo(wk, r, t.global, Ring(q)[128..], s.global + Ring(q)[..128] + [x])
  {
    var k, r, h := PushGoes(s.ws[w], s.global);
    GoingReaches(s, w, k);
    t := With(s, w, r, h);
  }

  lemma PushGoes(wk: Worker, g: seq<Handle>) returns (k: nat, r: Worker, h: seq<Handle>)
    requires wk.pc.Pushing? && wk.pc.push.PushHead? && OwnInv(wk)
    ensures Going(wk, g, k) == (r, h)
    ensures var q, x := wk.q, wk.pc.x;
            if q.tail < q.steal + CAPACITY then PushedTo(wk, r, h, Ring(q) + [x], g)
            else if q.steal != q.head then PushedTo(wk, r, h, Ring(q), g + [x])
            else |Ring(q)| == CAPACITY && PushedTo(wk, r, h, Ring(q)[HALF..], g + Ring(q)[..HALF] + [x])
  {
    PushBranches(wk, g);
    var q, x, keep := wk.q, wk.pc.x, wk.pc.keep;
    if q.tail < q.steal + CAPACITY {
      k := 4;
      RoomGoes(wk.(pc := Pushing(x, keep, PushWrite(q.tail))), g);
    } else if q.steal != q.head {
      k := 3;
      var b := wk.(pc := Pushing(x, keep, PushGlobal));
      assert Going(b, g, 1) == (PushStep(0, b, g, Go).0, g + [x]);
    } else {
      k := HALF + 5;
      OverflowGoes(wk.(pc := Pushing(x, keep, OverflowCas(q.head))), g);
    }
    r, h := Going(wk, g, k).0, Going(wk, g, k).1;
  }

  // try_pop

  /** The branch that try_pop takes after reading head, steal and tail. */
  lemma PopReads(wk: Worker, g: seq<Handle>, k: nat)
    requires wk.pc == Popping(PopHead) && OwnInv(wk)
    ensures Going(wk, g, k + 2) ==
            Going(wk.(pc := if Ring(wk.q) == [] then Idle else Popping(PopCas(wk.q.steal, wk.q.head))), g, k)
  {
    var a := PopStep(0, wk, Go);
    var b := PopStep(0, a, Go);
    assert Going(wk, g, k + 2) == Going(a, g, k + 1) == Going(b, g, k);
  }

  lemma TakeGoes(wk: Worker, g: seq<Handle>)
    requires wk.pc == Popping(PopCas(wk.q.steal, wk.q.head)) && Window(wk.q) && Ring(wk.q) != []
    ensures var r := Going(wk, g, 2);
            r.1 == g && r.0.cache == wk.cache && r.0.pc == Got(Ring(wk.q)[0]) && Ring(r.0.q) == Ring(wk.q)[1..]
  {
    var q := wk.q;
    var c := PopStep(0, wk, Go);
    assert Going(wk, g, 2) == Going(c, g, 1) == (PopStep(0, c, Go), g);
    FirstLeaves(q, c.q);
  }

  lemma FirstLeaves(q: Queue, r: Queue)
    requires Window(q) && q.head < q.tail && r.head == q.head + 1 && r.tail == q.tail && r.slots == q.slots
    ensures Ring(q)[0] == At(q.slots, q.head) && Ring(r) == Ring(q)[1..]
    ensures Ring(r.(slots := Put(q.slots, q.head, Null))) == Ring(q)[1..]
  {
    SegmentPut(q.slots, q.head, Null, q.head + 1, q.tail - q.head - 1);
  }

  /** try_pop gives the oldest task, and nothing exactly when there is none. */
  lemma PopAlone(s: State, w: nat) returns (t: State)
    requires Inv(s) && w < |s.ws| && s.ws[w].pc == Popping(PopHead)
    ensures Reaches(s, w, t) && |t.ws| == |s.ws| && t == With(s, w, t.ws[w], s.global)
    ensures t.ws[w].cache == s.ws[w].cache
    ensures var r := Ring(s.ws[w].q);
            if r == [] then t.ws[w].pc.Idle? && t.ws[w].q == s.ws[w].q
            else t.ws[w].pc == Got(r[0]) && Ring(t.ws[w].q) == r[1..]
  {
    var wk := s.ws[w];
    assert OwnInv(wk);
    var k := if Ring(wk.q) == [] then 2 else 4;
    PopReads(wk, s.global, k - 2);
    if Ring(wk.q) != [] { TakeGoes(wk.(pc := Popping(PopCas(wk.q.steal, wk.q.head))), s.global); }
    GoingReaches(s, w, k);
    t := With(s, w, Going(wk, s.global, k).0, s.global);
  }

  // get_next_task's batch

  /** Writing the `k`-th task of the batch behind those already written. */
  lemma BatchSlot(q: Queue, vec: seq<Handle>, tl: nat, k: nat)
    requires Window(q) && tl == q.tail && k < |vec| && tl + |vec| <= q.steal + CAPACITY
    requires Segment(q.slots, tl, k) == vec[..k]
    ensures var r := q.(slots := Put(q.slots, tl + k, vec[k]));
            Window(r) && Ring(r) == Ring(q) && Segment(r.slots, tl, k + 1) == vec[..k + 1]
  {
    RingPut(q, tl + k, vec[k]);
    SegmentWrites(q.slots, tl, k, vec[k]);
    assert vec[..k + 1] == vec[..k] + [vec[k]];
  }

  lemma SegmentWrites(slots: Slots, a: nat, k: nat, x: Handle)
    requires k < CAPACITY
    ensures Segment(Put(slots, a + k, x), a, k + 1) == Segment(slots, a, k) + [x]
  {
    SegmentPut(slots, a + k, x, a, k);
  }

  lemma BatchStep(wk: Worker, g: seq<Handle>)
    requires wk.pc.Refilling? && wk.pc.refill.BatchWrite? && OwnInv(wk) && wk.pc.refill.k < |wk.pc.refill.vec|
    requires var p := wk.pc.refill; Segment(wk.q.slots, p.tl, p.k) == p.vec[..p.k]
    ensures var p, a := wk.pc.refill, RefillStep(0, wk, g).0;
            && RefillStep(0, wk, g).1 == g
            && a == wk.(q := wk.q.(slots := a.q.slots), pc := Refilling(BatchWrite(p.vec, p.last, p.tl, p.k + 1)))
            && OwnInv(a) && Ring(a.q) == Ring(wk.q) && Segment(a.q.slots, p.tl, p.k + 1) == p.vec[..p.k + 1]
  {
    BatchSlot(wk.q, wk.pc.refill.vec, wk.pc.refill.tl, wk.pc.refill.k);
  }

  lemma {:induction false} BatchGoes(wk: Worker, g: seq<Handle>)
    requires wk.pc.Refilling? && wk.pc.refill.BatchWrite? && OwnInv(wk)
    requires var p := wk.pc.refill; Segment(wk.q.slots, p.tl, p.k) == p.vec[..p.k]
    ensures var p := wk.pc.refill;
            var r := Going(wk, g, |p.vec| - p.k + 2);
            r.1 == g && r.0.cache == wk.cache && r.0.pc == Got(p.last) && Ring(r.0.q) == Ring(wk.q) + p.vec
    decreases |wk.pc.refill.vec| - wk.pc.refill.k
  {
    var q := wk.q;
    var BatchWrite(vec, last, tl, k) := wk.pc.refill;
    var a := RefillStep(0, wk, g).0;
    if k < |vec| {
      BatchStep(wk, g);
      BatchGoes(a, g);
      assert Going(wk, g, |vec| - k + 2) == Going(a, g, |vec| - (k + 1) + 2);
    } else {
      var b := RefillStep(0, a, g).0;
      assert Going(wk, g, 2) == Going(a, g, 1) == Going(b, g, 0);
      TailExtends(q, |vec|);
    }
  }

  lemma TailExtends(q: Queue, n: nat)
    requires Window(q)
    ensures Ring(q.(tail := q.tail + n)) == Ring(q) + Segment(q.slots, q.tail, n)
  {
  }

  /** How many tasks the code wants: half the ring, or what fits. */
  function Wanted(q: Queue): nat {
    if q.tail - q.steal <= 128 then 128 else if q.tail <= q.steal + 256 then q.steal + 256 - q.tail else 0
  }

  function Least(a: nat, b: nat): nat { if a <= b then a else b }

  /** Reading the sizes and popping the batch. */
  lemma RefillReads(wk: Worker, g: seq<Handle>, k: nat)
    requires wk.pc == Refilling(RemainTail) && OwnInv(wk)
    ensures var n := Least(Wanted(wk.q), |g|);
            Going(wk, g, k + 3) ==
            if n == 0 then (wk.(pc := Idle), g)
            else if n == 1 then (wk.(pc := Got(g[0])), g[1..])
            else Going(wk.(pc := Refilling(BatchTail(g[..n - 1], g[n - 1]))), g[n..], k)
  {
    var a := RefillStep(0, wk, g).0;
    var b := RefillStep(0, a, g).0;
    assert Going(wk, g, k + 3) == Going(a, g, k + 2) == Going(b, g, k + 1);
    var n := Least(Wanted(wk.q), |g|);
    if Wanted(wk.q) > 0 {
      var c := RefillStep(0, b, g);
      assert Going(b, g, k + 1) == Going(c.0, c.1, k);
      if n == 1 { assert g[..0] == []; }
    }
  }

  lemma RefillGoes(wk: Worker, g: seq<Handle>) returns (k: nat, r: Worker, h: seq<Handle>)
    requires wk.pc == Refilling(RemainTail) && OwnInv(wk)
    ensures Going(wk, g, k) == (r, h) && r.cache == wk.cache
    ensures var n := Least(Wanted(wk.q), |g|);
            if n == 0 then r.pc.Idle? && Ring(r.q) == Ring(wk.q) && h == g
            else r.pc == Got(g[n - 1]) && Ring(r.q) == Ring(wk.q) + g[..n - 1] && h == g[n..]
  {
    var n := Least(Wanted(wk.q), |g|);
    k := if n <= 1 then 3 else 3 + 1 + n - 1 + 2;
    RefillReads(wk, g, k - 3);
    if n > 1 {
      var b := wk.(pc := Refilling(BatchTail(g[..n - 1], g[n - 1])));
      var c := wk.(pc := Refilling(BatchWrite(g[..n - 1], g[n - 1], wk.q.tail, 0)));
      assert Going(b, g[n..], k - 3) == Going(c, g[n..], k - 4);
      BatchGoes(c, g[n..]);
    }
    r, h := Going(wk, g, k).0, Going(wk, g, k).1;
  }

  /**
   * The batch: as many tasks as wanted and there, taken from the old end of the global queue; the last of
   * them is resumed and the others are in the ring, in their order.
   */
  lemma RefillAlone(s: State, w: nat) returns (t: State)
    requires Inv(s) && w < |s.ws| && s.ws[w].pc == Refilling(RemainTail)
    ensures Reaches(s, w, t) && |t.ws| == |s.ws| && t == With(s, w, t.ws[w], t.global)
    ensures var q, r, g := s.ws[w].q, t.ws[w], s.global;
            var n := Least(Wanted(q), |g|);
            && r.cache == s.ws[w].cache
            && if n == 0 then r.pc.Idle? && Ring(r.q) == Ring(q) && t.global == g
               else r.pc == Got(g[n - 1]) && Ring(r.q) == Ring(q) + g[..n - 1] && t.global == g[n..]
  {
    assert OwnInv(s.ws[w]);
    var k, r, h := RefillGoes(s.ws[w], s.global);
    GoingReaches(s, w, k);
    t := With(s, w, r, h);
  }

  // Going to sleep

  /** A worker goes into the kernel wait exactly when its ring is empty, with nothing changed. */
  lemma SleepAlone(s: State, w: nat)
    requires Inv(s) && w < |s.ws| && s.ws[w].pc == Sleeping(SizeTail)
    ensures var pc := if Ring(s.ws[w].q) == [] then Sleeping(Blocked) else Idle;
            Reaches(s, w, With(s, w, s.ws[w].(pc := pc), s.global))
  {
    var wk, g := s.ws[w], s.global;
    assert OwnInv(wk);
    var a := SleepStep(0, wk);
    assert Going(wk, g, 2) == Going(a, g, 1) == Going(SleepStep(0, a), g, 0);
    GoingReaches(s, w, 2);
  }

  // Stealing

  function Robbing(wk: Worker, src: Queue, k: nat): (Worker, Queue)
    decreases k
  {
    if k == 0 || !wk.pc.Stealing? then (wk, src)
    else Robbing(ThiefStep(0, wk, src, Go).0, ThiefStep(0, wk, src, Go).1, k - 1)
  }

  function WithBoth(s: State, w: nat, wk: Worker, v: nat, src: Queue): State
    requires w < |s.ws| && v < |s.ws|
  {
    s.(ws := s.ws[v := s.ws[v].(q := src)][w := wk])
  }

  lemma {:induction false} RobbingReaches(s: State, w: nat, v: nat, k: nat)
    requires Inv(s) && w < |s.ws| && v < |s.ws| && v != w && (s.ws[w].pc.Stealing? ==> s.ws[w].pc.v == v)
    ensures var r := Robbing(s.ws[w], s.ws[v].q, k); Reaches(s, w, WithBoth(s, w, r.0, v, r.1))
    decreases k
  {
    if k == 0 || !s.ws[w].pc.Stealing? {
      assert s.ws[v := s.ws[v].(q := s.ws[v].q)][w := s.ws[w]] == s.ws;
      ReachSelf(s, w);
    } else {
      var t := Next(0, s, Act(w, Go));
      RobStep(s, w, v);
      RobbingReaches(t, w, v, k - 1);
      var r := Robbing(s.ws[w], s.ws[v].q, k);
      SameBoth(s, t, w, v, r.0, r.1);
      ReachStep(s, w, WithBoth(s, w, r.0, v, r.1));
    }
  }

  lemma RobStep(s: State, w: nat, v: nat)
    requires Inv(s) && w < |s.ws| && v < |s.ws| && v != w && s.ws[w].pc.Stealing? && s.ws[w].pc.v == v
    ensures var t, r := Next(0, s, Act(w, Go)), ThiefStep(0, s.ws[w], s.ws[v].q, Go);
            t == WithBoth(s, w, r.0, v, r.1) && Inv(t) && (r.0.pc.Stealing? ==> r.0.pc.v == v)
  {
    StepKeepsInv(s, Act(w, Go));
    assert s.submitted + multiset{} == s.submitted && s.resumed + multiset{} == s.resumed;
  }

  lemma SameBoth(s: State, t: State, w: nat, v: nat, wk: Worker, src: Queue)
    requires w < |s.ws| && v < |s.ws| && v != w && exists x, y :: t == WithBoth(s, w, x, v, y)
    ensures WithBoth(t, w, wk, v, src) == WithBoth(s, w, wk, v, src)
  {
    assert WithBoth(t, w, wk, v, src).ws == WithBoth(s, w, wk, v, src).ws;
  }

  /** Copying what is left of the claim. */
  lemma {:induction false} CopyGoes(wk: Worker, src: Queue)
    requires wk.pc.Stealing? && wk.pc.thief.Copy? && OwnInv(wk)
    requires var p := wk.pc.thief; Segment(wk.q.slots, p.dt, p.k) == Segment(src.slots, p.base, p.k)
    ensures var p := wk.pc.thief;
            var r := Robbing(wk, src, p.n - p.k + 1);
            && r.1 == src && r.0.cache == wk.cache && Window(r.0.q) && Ring(r.0.q) == Ring(wk.q)
            && r.0.pc == Stealing(wk.pc.v, CommitCas(p.dt, p.n, p.base, p.base + p.n)) && OwnInv(r.0)
            && r.0.q.tail == wk.q.tail && r.0.q.steal == wk.q.steal
            && Segment(r.0.q.slots, p.dt, p.n) == Segment(src.slots, p.base, p.n)
    decreases wk.pc.thief.n - wk.pc.thief.k
  {
    var q := wk.q;
    var Copy(dt, base, n, k) := wk.pc.thief;
    var a := ThiefStep(0, wk, src, Go).0;
    if k < n {
      CopyStep(wk, src);
      CopyGoes(a, src);
      assert Robbing(wk, src, n - k + 1) == Robbing(a, src, n - (k + 1) + 1);
    } else {
      assert Robbing(wk, src, 1) == Robbing(a, src, 0);
    }
  }

  lemma CopyStep(wk: Worker, src: Queue)
    requires wk.pc.Stealing? && wk.pc.thief.Copy? && OwnInv(wk) && wk.pc.thief.k < wk.pc.thief.n
    requires var p := wk.pc.thief; Segment(wk.q.slots, p.dt, p.k) == Segment(src.slots, p.base, p.k)
    ensures var p, a := wk.pc.thief, ThiefStep(0, wk, src, Go).0;
            && a == wk.(q := wk.q.(slots := a.q.slots), pc := Stealing(wk.pc.v, Copy(p.dt, p.base, p.n, p.k + 1)))
            && OwnInv(a) && Ring(a.q) == Ring(wk.q)
            && Segment(a.q.slots, p.dt, p.k + 1) == Segment(src.slots, p.base, p.k + 1)
  {
    var p := wk.pc.thief;
    CopySlot(wk.q, src, p.dt, p.base, p.n, p.k);
  }

  lemma CopySlot(q: Queue, src: Queue, dt: nat, base: nat, n: nat, k: nat)
    requires Window(q) && ThiefOwnInv(q, Copy(dt, base, n, k)) && k < n
    requires Segment(q.slots, dt, k) == Segment(src.slots, base, k)
    ensures var r := q.(slots := Put(q.slots, dt + k, At(src.slots, base + k)));
            Window(r) && Ring(r) == Ring(q) && Segment(r.slots, dt, k + 1) == Segment(src.slots, base, k + 1)
  {
    RingPut(q, dt + k, At(src.slots, base + k));
    SegmentWrites(q.slots, dt, k, At(src.slots, base + k));
    assert Segment(src.slots, base, k + 1) == Segment(src.slots, base, k) + [At(src.slots, base + k)];
  }

  /** The last stolen task is resumed, the others are in the thief's ring. */
  lemma LastGoes(wk: Worker, src: Queue, stolen: seq<Handle>)
    requires wk.pc.Stealing? && wk.pc.thief.TakeLast? && OwnInv(wk)
    requires Segment(wk.q.slots, wk.pc.thief.dt, wk.pc.thief.n) == stolen
    ensures var r, n := Robbing(wk, src, 2), |stolen|;
            && 1 <= n && r.1 == src && r.0.cache == wk.cache
            && r.0.pc == Got(stolen[n - 1]) && Ring(r.0.q) == Ring(wk.q) + stolen[..n - 1]
  {
    var dt, n, q := wk.pc.thief.dt, wk.pc.thief.n, wk.q;
    var b := ThiefStep(0, wk, src, Go).0;
    assert At(q.slots, dt + (n - 1)) == stolen[n - 1];
    assert Robbing(wk, src, 2) == Robbing(b, src, 1);
    if n > 1 { assert Robbing(b, src, 1) == Robbing(ThiefStep(0, b, src, Go).0, src, 0); }
    TailExtends(q, n - 1);
    SegmentSplit(q.slots, dt, n, n - 1);
  }

  /** From the commit to the end. */
  lemma CommitGoes(wk: Worker, src: Queue, stolen: seq<Handle>)
    requires wk.pc.Stealing? && wk.pc.thief.CommitCas? && OwnInv(wk) && Window(src)
    requires var p := wk.pc.thief; src.steal == p.st && src.head == p.lh && Segment(wk.q.slots, p.dt, p.n) == stolen
    ensures var r, n := Robbing(wk, src, 3), |stolen|;
            && 1 <= n && Ring(r.1) == Ring(src) && r.1.steal == r.1.head && r.0.cache == wk.cache
            && r.0.pc == Got(stolen[n - 1]) && Ring(r.0.q) == Ring(wk.q) + stolen[..n - 1]
  {
    var a, after := ThiefStep(0, wk, src, Go).0, ThiefStep(0, wk, src, Go).1;
    assert Robbing(wk, src, 3) == Robbing(a, after, 2);
    LastGoes(a, after, stolen);
  }

  /** The thief gives up before its claim. */
  predicate GivesUp(q: Queue, src: Queue) { q.tail > q.steal + 128 || src.steal != src.head || |Ring(src)| < 2 }

  /** Reading its own size and the victim's. */
  lemma StealReads(wk: Worker, src: Queue, k: nat)
    requires wk.pc.Stealing? && wk.pc.thief.OwnHead? && OwnInv(wk) && Window(src)
    ensures Robbing(wk, src, k + 4) ==
            if GivesUp(wk.q, src) then (wk.(pc := Idle), src)
            else
              Robbing(wk.(pc := Stealing(wk.pc.v, ClaimCas(wk.q.tail, src.steal, src.head, |Ring(src)| / 2))), src, k)
  {
    var a := ThiefStep(0, wk, src, Go).0;
    var b := ThiefStep(0, a, src, Go).0;
    assert Robbing(wk, src, k + 4) == Robbing(a, src, k + 3) == Robbing(b, src, k + 2);
    if wk.q.tail <= wk.q.steal + HALF {
      var c := ThiefStep(0, b, src, Go).0;
      assert Robbing(b, src, k + 2) == Robbing(c, src, k + 1) == Robbing(ThiefStep(0, c, src, Go).0, src, k);
    }
  }

  lemma ClaimStep(wk: Worker, src: Queue)
    requires wk.pc.Stealing? && wk.pc.thief.ClaimCas? && OwnInv(wk) && Window(src) && VictimInv(src, wk.pc.thief)
    requires var p := wk.pc.thief; p.st == src.steal && p.lh == src.head
    ensures var p := wk.pc.thief;
            var a := wk.(pc := Stealing(wk.pc.v, Copy(p.dt, p.st, p.n, 0)));
            var after := src.(head := src.head + p.n, claimed := src.head + p.n);
            ThiefStep(0, wk, src, Go) == (a, after) && OwnInv(a) && Window(after)
  {
    ThiefKeeps(wk, src, Go);
  }

  lemma ClaimGoes(wk: Worker, src: Queue)
    requires wk.pc.Stealing? && wk.pc.thief.ClaimCas? && OwnInv(wk) && Window(src) && VictimInv(src, wk.pc.thief)
    requires var p := wk.pc.thief; p.st == src.steal && p.lh == src.head && p.n == |Ring(src)| / 2
    ensures var n, ring := |Ring(src)| / 2, Ring(src);
            var r := Robbing(wk, src, n + 5);
            && 1 <= n && Ring(r.1) == ring[n..] && r.0.cache == wk.cache
            && r.0.pc == Got(ring[n - 1]) && Ring(r.0.q) == Ring(wk.q) + ring[..n - 1]
  {
    var p, ring := wk.pc.thief, Ring(src);
    var n := p.n;
    var after := src.(head := src.head + n, claimed := src.head + n);
    var a := wk.(pc := Stealing(wk.pc.v, Copy(p.dt, p.st, n, 0)));
    ClaimStep(wk, src);
    assert Robbing(wk, src, n + 5) == Robbing(a, after, n + 4);
    ClaimedOldest(src, n);
    CopiedGoes(a, after, ring[..n]);
    assert ring[..n][..n - 1] == ring[..n - 1];
  }

  lemma ClaimedOldest(src: Queue, n: nat)
    requires Window(src) && n <= |Ring(src)|
    ensures Segment(src.slots, src.head, n) == Ring(src)[..n]
    ensures Ring(src.(head := src.head + n, claimed := src.head + n)) == Ring(src)[n..]
  {
    SegmentSplit(src.slots, src.head, src.tail - src.head, n);
  }

  lemma CopiedGoes(wk: Worker, src: Queue, stolen: seq<Handle>)
    requires wk.pc.Stealing? && wk.pc.thief.Copy? && wk.pc.thief.k == 0 && OwnInv(wk) && Window(src)
    requires var p := wk.pc.thief;
             src.steal == p.base && src.head == p.base + p.n && Segment(src.slots, p.base, p.n) == stolen
    ensures var r, n := Robbing(wk, src, wk.pc.thief.n + 4), |stolen|;
            && 1 <= n && Ring(r.1) == Ring(src) && r.0.cache == wk.cache
            && r.0.pc == Got(stolen[n - 1]) && Ring(r.0.q) == Ring(wk.q) + stolen[..n - 1]
  {
    var n := wk.pc.thief.n;
    var copied := Robbing(wk, src, n + 1).0;
    assert Segment(wk.q.slots, wk.pc.thief.dt, 0) == Segment(src.slots, wk.pc.thief.base, 0);
    CopyGoes(wk, src);
    RobbingOn(wk, src, n + 1, 3);
    assert Robbing(wk, src, n + 4) == Robbing(copied, src, 3);
    CommitGoes(copied, src, stolen);
  }

  lemma {:induction false} RobbingOn(wk: Worker, src: Queue, j: nat, k: nat)
    ensures var r := Robbing(wk, src, j); Robbing(wk, src, j + k) == Robbing(r.0, r.1, k)
    decreases j
  {
    if j > 0 && wk.pc.Stealing? {
      RobbingOn(ThiefStep(0, wk, src, Go).0, ThiefStep(0, wk, src, Go).1, j - 1, k);
    }
  }

  /**
   * Stealing: unless the thief is more than half full, the victim has fewer than two tasks or another thief is at
   * work there, half of the victim's tasks change hands, the oldest ones: the last of them is resumed, and the
   * others are in the thief's ring, in their order.
   */
  lemma StealAlone(s: State, w: nat) returns (t: State)
    requires Inv(s) && w < |s.ws| && s.ws[w].pc.Stealing? && s.ws[w].pc.thief.OwnHead?
    ensures Reaches(s, w, t) && |t.ws| == |s.ws| && s.ws[w].pc.v < |s.ws|
    ensures var v := s.ws[w].pc.v;
            var q, src, wk, after := s.ws[w].q, s.ws[v].q, t.ws[w], t.ws[v].q;
            && t == WithBoth(s, w, wk, v, after) && wk.cache == s.ws[w].cache
            && if GivesUp(q, src) then wk.pc.Idle? && wk.q == q && after == src
               else
                 var n, ring := |Ring(src)| / 2, Ring(src);
                 wk.pc == Got(ring[n - 1]) && Ring(wk.q) == Ring(q) + ring[..n - 1] && Ring(after) == ring[n..]
  {
    var v := s.ws[w].pc.v;
    assert OwnInv(s.ws[w]) && StealInv(s, w);
    assert OwnInv(s.ws[v]);
    var k, wk, after := StealGoes(s.ws[w], s.ws[v].q);
    RobbingReaches(s, w, v, k);
    t := WithBoth(s, w, wk, v, after);
  }

  lemma StealGoes(wk: Worker, src: Queue) returns (k: nat, r: Worker, after: Queue)
    requires wk.pc.Stealing? && wk.pc.thief.OwnHead? && OwnInv(wk) && Window(src)
    ensures Robbing(wk, src, k) == (r, after) && r.cache == wk.cache
    ensures if GivesUp(wk.q, src) then r.pc.Idle? && r.q == wk.q && after == src
            else
              var n, ring := |Ring(src)| / 2, Ring(src);
              r.pc == Got(ring[n - 1]) && Ring(r.q) == Ring(wk.q) + ring[..n - 1] && Ring(after) == ring[n..]
  {
    var n := |Ring(src)| / 2;
    k := if GivesUp(wk.q, src) then 4 else n + 9;
    StealReads(wk, src, k - 4);
    if !GivesUp(wk.q, src) {
      ClaimGoes(wk.(pc := Stealing(wk.pc.v, ClaimCas(wk.q.tail, src.steal, src.head, n))), src);
    }
    r, after := Robbing(wk, src, k).0, Robbing(wk, src, k).1;
  }
}

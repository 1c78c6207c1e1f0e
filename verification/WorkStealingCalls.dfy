/** What scheduling, push_back, try_pop, stealing, refilling and going to sleep have done when they end. */
module WorkStealingCalls {
  import opened Prelude
  import opened WorkStealing
  import opened WorkStealingInv

  /** The handles at `n` ring positions from `a` on. */
  function Segment(slots: Slots, a: nat, n: nat): (r: seq<Handle>)
    ensures |r| == n && forall i :: 0 <= i < n ==> r[i] == At(slots, a + i)
  {
    seq(n, i requires 0 <= i < n => At(slots, a + i))
  }

  /** The tasks in a queue, oldest first. */
  function Ring(q: Queue): seq<Handle> {
    if q.head <= q.tail then Segment(q.slots, q.head, q.tail - q.head) else []
  }

  lemma SegmentSplit(slots: Slots, a: nat, n: nat, m: nat)
    requires m <= n
    ensures Segment(slots, a, n)[..m] == Segment(slots, a, m)
    ensures Segment(slots, a, n)[m..] == Segment(slots, a + m, n - m)
  {
  }

  lemma SegmentPut(slots: Slots, i: nat, x: Handle, a: nat, n: nat)
    requires a + n <= i < a + CAPACITY || (i < a && a + n <= i + CAPACITY)
    ensures Segment(Put(slots, i, x), a, n) == Segment(slots, a, n)
  {
    PutFrame(slots, i, x, a, a + n);
  }

  /** Writing a slot outside the ring's tasks. */
  lemma RingPut(q: Queue, i: nat, x: Handle)
    requires q.head <= q.tail && (q.tail <= i < q.head + CAPACITY || (i < q.head && q.tail <= i + CAPACITY))
    ensures Ring(q.(slots := Put(q.slots, i, x))) == Ring(q)
  {
    SegmentPut(q.slots, i, x, q.head, q.tail - q.head);
  }

  // What the steps of others leave alone

  /**
   * A step of another worker leaves a worker's task cache and its place in the code alone, and takes tasks
   * out of its ring at the old end only.
   */
  lemma OthersTouch(s: State, w: nat, op: Op, u: nat)
    requires Inv(s) && !Disabled(s, w, op) && u < |s.ws| && u != w
    ensures var t := Next(0, s, Act(w, op));
            && |t.ws| == |s.ws| && t.ws[u].cache == s.ws[u].cache && t.ws[u].pc == s.ws[u].pc
            && t.ws[u].q.slots == s.ws[u].q.slots && IsEnd(Ring(s.ws[u].q), Ring(t.ws[u].q))
  {
    OthersQueue(s, w, op, u);
    assert OwnInv(s.ws[u]);
    RobbedRing(s.ws[u].q, Next(0, s, Act(w, op)).ws[u].q);
  }

  predicate IsEnd(l: seq<Handle>, r: seq<Handle>) { |r| <= |l| && r == l[|l| - |r|..] }

  lemma RobbedRing(q: Queue, r: Queue)
    requires Window(q) && (r == q || Robbed(q, r))
    ensures IsEnd(Ring(q), Ring(r))
  {
  }

  // A push, in any interleaving

  /** Worker `w` pushes `x`, then caches `keep`; nothing has been moved yet. */
  predicate Pushes(s: State, w: nat, x: Handle, keep: Option<Handle>, cache: Option<Handle>) {
    && w < |s.ws| && s.ws[w].cache == cache && s.ws[w].pc.Pushing? && s.ws[w].pc.x == x && s.ws[w].pc.keep == keep
    && !s.ws[w].pc.push.OverflowTake? && !s.ws[w].pc.push.OverflowFlush?
    && (s.ws[w].pc.push.PushStore? ==> At(s.ws[w].q.slots, s.ws[w].pc.push.tl) == x)
  }

  /** It has taken the handles `moved` out of its full ring, which go to the global queue before `x`. */
  predicate Overflows(
    s: State, w: nat, x: Handle, keep: Option<Handle>, cache: Option<Handle>, moved: seq<Handle>)
  {
    && w < |s.ws| && s.ws[w].cache == cache && s.ws[w].pc.Pushing? && s.ws[w].pc.x == x && s.ws[w].pc.keep == keep
    && match s.ws[w].pc.push
       case OverflowTake(lh, vec) =>
         |vec| <= HALF && moved == vec + Segment(s.ws[w].q.slots, lh + |vec|, HALF - |vec|)
       case OverflowFlush(vec) => moved == vec
       case _ => false
  }

  /** The exchange by which the older half of a full ring leaves it. */
  predicate Evicts(s: State, t: State, w: nat) {
    && w < |s.ws| && w < |t.ws|
    && |Ring(s.ws[w].q)| == CAPACITY && Ring(t.ws[w].q) == Ring(s.ws[w].q)[HALF..]
  }

  lemma PushesStep(s: State, w: nat, op: Op, x: Handle, keep: Option<Handle>, cache: Option<Handle>)
    requires Inv(s) && Pushes(s, w, x, keep, cache) && !Disabled(s, w, op)
    ensures var t := Next(0, s, Act(w, op));
            || (Pushes(t, w, x, keep, cache) && Ring(t.ws[w].q) == Ring(s.ws[w].q) && t.global == s.global)
            || (Evicts(s, t, w) && Overflows(t, w, x, keep, cache, Ring(s.ws[w].q)[..HALF]) && t.global == s.global)
            || Returned(s, t, w, x, keep, cache, [])
  {
    assert OwnInv(s.ws[w]);
    var q, p := s.ws[w].q, s.ws[w].pc.push;
    match p
    case PushWrite(tl) => RingPut(q, tl, x);
    case PushStore(tl) => StoreExtends(q, tl);
    case OverflowCas(lh) => CasStep(s, w, op, x, keep, cache);
    case _ =>
  }

  lemma CasStep(s: State, w: nat, op: Op, x: Handle, keep: Option<Handle>, cache: Option<Handle>)
    requires Pushes(s, w, x, keep, cache) && !Disabled(s, w, op) && s.ws[w].pc.push.OverflowCas? && OwnInv(s.ws[w])
    ensures var t := Next(0, s, Act(w, op));
            || (Pushes(t, w, x, keep, cache) && Ring(t.ws[w].q) == Ring(s.ws[w].q) && t.global == s.global)
            || (Evicts(s, t, w) && Overflows(t, w, x, keep, cache, Ring(s.ws[w].q)[..HALF]) && t.global == s.global)
  {
    PushCas(s.ws[w], s.global, op);
  }

  lemma PushCas(wk: Worker, g: seq<Handle>, op: Op)
    requires wk.pc.Pushing? && wk.pc.push.OverflowCas? && OwnInv(wk)
    ensures var (r, h) := PushStep(0, wk, g, op);
            && h == g && r.cache == wk.cache && r.pc.Pushing? && r.pc.x == wk.pc.x && r.pc.keep == wk.pc.keep
            && if r.pc.push.OverflowTake? then
                 && |Ring(wk.q)| == CAPACITY && Ring(r.q) == Ring(wk.q)[HALF..]
                 && r.pc.push.vec == [] && Segment(r.q.slots, r.pc.push.lh, HALF) == Ring(wk.q)[..HALF]
               else r.q == wk.q && (r.pc.push.PushHead? || r.pc.push.OverflowCas?)
  {
    if wk.q.steal == wk.pc.push.lh && wk.q.head == wk.pc.push.lh { HalfLeaves(wk.q); }
  }

  lemma StoreExtends(q: Queue, tl: nat)
    requires Window(q) && tl == q.tail
    ensures Ring(q.(tail := tl + 1)) == Ring(q) + [At(q.slots, tl)]
  {
  }

  lemma HalfLeaves(q: Queue)
    requires Window(q) && q.tail == q.head + CAPACITY
    ensures |Ring(q)| == CAPACITY && Ring(q.(head := q.head + HALF)) == Ring(q)[HALF..]
    ensures Ring(q)[..HALF] == Segment(q.slots, q.head, HALF) == [] + Segment(q.slots, q.head, HALF)
  {
    SegmentSplit(q.slots, q.head, CAPACITY, HALF);
  }

  /** The push ends: `x` is the newest task of the ring, or it is in the global queue, behind `moved`. */
  predicate Returned(
    s: State, t: State, w: nat, x: Handle, keep: Option<Handle>, cache: Option<Handle>, moved: seq<Handle>)
  {
    && w < |s.ws| && w < |t.ws| && t.ws[w].pc.Idle? && t.ws[w].cache == (if keep.Some? then keep else cache)
    && (if moved == [] && t.global == s.global then Ring(t.ws[w].q) == Ring(s.ws[w].q) + [x]
        else Ring(t.ws[w].q) == Ring(s.ws[w].q) && t.global == s.global + moved + [x])
  }

  lemma OverflowsStep(
    s: State, w: nat, op: Op, x: Handle, keep: Option<Handle>, cache: Option<Handle>, moved: seq<Handle>)
    requires Inv(s) && Overflows(s, w, x, keep, cache, moved) && moved != [] && !Disabled(s, w, op)
    ensures var t := Next(0, s, Act(w, op));
            || (Overflows(t, w, x, keep, cache, moved) && Ring(t.ws[w].q) == Ring(s.ws[w].q) && t.global == s.global)
            || Returned(s, t, w, x, keep, cache, moved)
  {
    assert OwnInv(s.ws[w]);
    if s.ws[w].pc.push.OverflowTake? && |s.ws[w].pc.push.vec| < HALF {
      TakeStep(s, w, op, x, keep, cache, moved);
    }
  }

  lemma TakeStep(
    s: State, w: nat, op: Op, x: Handle, keep: Option<Handle>, cache: Option<Handle>, moved: seq<Handle>)
    requires w < |s.ws| && OwnInv(s.ws[w]) && Overflows(s, w, x, keep, cache, moved) && !Disabled(s, w, op)
    requires s.ws[w].pc.push.OverflowTake? && |s.ws[w].pc.push.vec| < HALF
    ensures var t := Next(0, s, Act(w, op));
            Overflows(t, w, x, keep, cache, moved) && Ring(t.ws[w].q) == Ring(s.ws[w].q) && t.global == s.global
  {
    var q, lh, vec := s.ws[w].q, s.ws[w].pc.push.lh, s.ws[w].pc.push.vec;
    RingPut(q, lh + |vec|, Null);
    OneMoreTaken(q.slots, lh, vec);
  }

  lemma OneMoreTaken(slots: Slots, lh: nat, vec: seq<Handle>)
    requires |vec| < HALF
    ensures var more, rest := vec + [At(slots, lh + |vec|)], Put(slots, lh + |vec|, Null);
            more + Segment(rest, lh + |more|, HALF - |more|) == vec + Segment(slots, lh + |vec|, HALF - |vec|)
  {
    SegmentPut(slots, lh + |vec|, Null, lh + |vec| + 1, HALF - |vec| - 1);
  }

  // The run of a push

  lemma {:induction false} RunFromInv(s: State, actions: seq<Action>)
    requires Inv(s)
    ensures Inv(Run(0, s, actions))
    decreases |actions|
  {
    if actions != [] {
      RunFromInv(s, actions[..|actions| - 1]);
      StepKeepsInv(Run(0, s, actions[..|actions| - 1]), actions[|actions| - 1]);
    }
  }

  /** Worker `w` is in the middle of something in every state of the run. */
  ghost predicate Busy(s: State, actions: seq<Action>, w: nat) {
    forall i :: 0 <= i <= |actions| ==> BusyAt(s, actions, w, i)
  }

  predicate BusyAt(s: State, actions: seq<Action>, w: nat, i: nat)
    requires i <= |actions|
  {
    w < |Run(0, s, actions[..i]).ws| && !Run(0, s, actions[..i]).ws[w].pc.Idle?
  }

  lemma BusySo(s: State, actions: seq<Action>, w: nat, n: nat)
    requires Busy(s, actions, w) && n <= |actions|
    ensures Busy(s, actions[..n], w)
    ensures w < |Run(0, s, actions[..n]).ws| && !Run(0, s, actions[..n]).ws[w].pc.Idle?
  {
    forall i | 0 <= i <= n ensures BusyAt(s, actions[..n], w, i) {
      assert BusyAt(s, actions, w, i);
      assert actions[..n][..i] == actions[..i];
    }
    assert BusyAt(s, actions, w, n);
  }

  /** Worker `w` is between two operations again after `last`, for the first time. */
  ghost predicate EndsAt(s: State, w: nat, during: seq<Action>, last: Action) {
    && Busy(s, during, w)
    && w < |Next(0, Run(0, s, during), last).ws| && Next(0, Run(0, s, during), last).ws[w].pc.Idle?
  }

  /** What worker `w` is to have in the end: `x` queued, `keep` in its cache. */
  datatype Push = Push(w: nat, x: Handle, keep: Option<Handle>, cache: Option<Handle>)

  ghost predicate Evicted(s: State, actions: seq<Action>, w: nat, k: nat) {
    && k < |actions| && actions[k].Act? && actions[k].w == w
    && Evicts(Run(0, s, actions[..k]), Next(0, Run(0, s, actions[..k]), actions[k]), w)
  }

  function Moved(s: State, actions: seq<Action>, w: nat, k: nat): seq<Handle>
    requires k <= |actions|
  {
    var r := Run(0, s, actions[..k]);
    if w < |r.ws| && |Ring(r.ws[w].q)| >= HALF then Ring(r.ws[w].q)[..HALF] else []
  }

  /** Under way: nothing moved yet, or the older half evicted at action `k`. */
  ghost predicate Stage(s: State, actions: seq<Action>, p: Push, k: nat) {
    var u := Run(0, s, actions);
    || Pushes(u, p.w, p.x, p.keep, p.cache)
    || (Evicted(s, actions, p.w, k) && Overflows(u, p.w, p.x, p.keep, p.cache, Moved(s, actions, p.w, k)))
  }

  lemma {:induction false} PushStage(s: State, actions: seq<Action>, p: Push) returns (k: nat)
    requires Inv(s) && Pushes(s, p.w, p.x, p.keep, p.cache) && Busy(s, actions, p.w)
    ensures Stage(s, actions, p, k)
    decreases |actions|
  {
    k := 0;
    if actions != [] {
      var n := |actions| - 1;
      BusySo(s, actions, p.w, n);
      BusySo(s, actions, p.w, n + 1);
      assert actions[..n + 1] == actions;
      RunFromInv(s, actions[..n]);
      k := PushStage(s, actions[..n], p);
      k := StageMoves(s, actions, p, k);
    }
  }

  lemma StageMoves(s: State, actions: seq<Action>, p: Push, j: nat) returns (k: nat)
    requires actions != [] && Stage(s, actions[..|actions| - 1], p, j) && Inv(Run(0, s, actions[..|actions| - 1]))
    requires p.w < |Run(0, s, actions).ws| && !Run(0, s, actions).ws[p.w].pc.Idle?
    ensures Stage(s, actions, p, k)
  {
    var n := |actions| - 1;
    var u, a := Run(0, s, actions[..n]), actions[n];
    k := j;
    if Pushes(u, p.w, p.x, p.keep, p.cache) {
      if a.Act? && a.w == p.w { k := n; }
      PushesMoves(u, a, p);
    } else {
      assert actions[..n][..k] == actions[..k];
      OverflowsMoves(u, a, p, Moved(s, actions, p.w, k));
    }
  }

  lemma PushesMoves(u: State, a: Action, p: Push)
    requires Inv(u) && Pushes(u, p.w, p.x, p.keep, p.cache)
    requires p.w < |Next(0, u, a).ws| && !Next(0, u, a).ws[p.w].pc.Idle?
    ensures var t := Next(0, u, a);
            || Pushes(t, p.w, p.x, p.keep, p.cache)
            || (a.Act? && a.w == p.w && Evicts(u, t, p.w)
                && Overflows(t, p.w, p.x, p.keep, p.cache, Ring(u.ws[p.w].q)[..HALF]))
  {
    if a.Act? && !Disabled(u, a.w, a.op) {
      if a.w == p.w { PushesStep(u, p.w, a.op, p.x, p.keep, p.cache); } else { OthersTouch(u, a.w, a.op, p.w); }
    }
  }

  lemma OverflowsMoves(u: State, a: Action, p: Push, moved: seq<Handle>)
    requires Inv(u) && Overflows(u, p.w, p.x, p.keep, p.cache, moved) && moved != []
    requires p.w < |Next(0, u, a).ws| && !Next(0, u, a).ws[p.w].pc.Idle?
    ensures Overflows(Next(0, u, a), p.w, p.x, p.keep, p.cache, moved)
  {
    if a.Act? && !Disabled(u, a.w, a.op) {
      if a.w == p.w { OverflowsStep(u, p.w, a.op, p.x, p.keep, p.cache, moved); }
      else { OthersTouch(u, a.w, a.op, p.w); }
    }
  }

  /**
   * A push, whatever the others do meanwhile.  When it ends, `keep` is in the task cache, and `x` is the newest
   * task of the ring or behind all others in the global queue; in the second case the older half of the ring,
   * which was full at action `k`, may have gone there before it, and nothing else was moved.
   */
  lemma PushLands(s: State, p: Push, during: seq<Action>, last: Action) returns (k: nat, moved: seq<Handle>)
    requires Inv(s) && Pushes(s, p.w, p.x, p.keep, p.cache) && EndsAt(s, p.w, during, last)
    ensures var u := Run(0, s, during);
            Returned(u, Next(0, u, last), p.w, p.x, p.keep, p.cache, moved)
    ensures moved == [] || (Evicted(s, during, p.w, k) && moved == Moved(s, during, p.w, k))
  {
    var u := Run(0, s, during);
    k := PushStage(s, during, p);
    moved := if Pushes(u, p.w, p.x, p.keep, p.cache) then [] else Moved(s, during, p.w, k);
    RunFromInv(s, during);
    BusySo(s, during, p.w, |during|);
    assert during[..|during|] == during;
    if Pushes(u, p.w, p.x, p.keep, p.cache) {
      PushEnds(u, last, p);
    } else {
      OverflowEnds(u, last, p, moved);
    }
  }

  lemma PushEnds(u: State, last: Action, p: Push)
    requires Inv(u) && Pushes(u, p.w, p.x, p.keep, p.cache)
    requires p.w < |Next(0, u, last).ws| && Next(0, u, last).ws[p.w].pc.Idle?
    ensures Returned(u, Next(0, u, last), p.w, p.x, p.keep, p.cache, [])
  {
    if last.Act? && !Disabled(u, last.w, last.op) {
      if last.w == p.w { PushesStep(u, p.w, last.op, p.x, p.keep, p.cache); }
      else { OthersTouch(u, last.w, last.op, p.w); }
    }
  }

  lemma OverflowEnds(u: State, last: Action, p: Push, moved: seq<Handle>)
    requires Inv(u) && Overflows(u, p.w, p.x, p.keep, p.cache, moved) && moved != []
    requires p.w < |Next(0, u, last).ws| && Next(0, u, last).ws[p.w].pc.Idle?
    ensures Returned(u, Next(0, u, last), p.w, p.x, p.keep, p.cache, moved)
  {
    if last.Act? && !Disabled(u, last.w, last.op) {
      if last.w == p.w { OverflowsStep(u, p.w, last.op, p.x, p.keep, p.cache, moved); }
      else { OthersTouch(u, last.w, last.op, p.w); }
    }
  }

  // The task cache

  lemma ScheduleBegins(s: State, w: nat, h: Handle)
    requires Inv(s) && w < |s.ws| && s.ws[w].pc.Idle? && s.ws[w].cache.Some?
    ensures var t := Next(0, s, Act(w, Schedule(h))); Inv(t) && Pushes(t, w, s.ws[w].cache.value, Some(h), None)
  {
    StepKeepsInv(s, Act(w, Schedule(h)));
  }

  /**
   * A handle scheduled on a worker is in that worker's task cache when the worker is next between two
   * operations, whatever the others do meanwhile; and the handle that was there before is then the newest
   * task of the worker's ring or the last in the global queue.
   */
  lemma ScheduledIsCached(n: nat, before: seq<Action>, w: nat, h: Handle, during: seq<Action>, last: Action)
    requires var s := Run(0, Init(n), before);
             w < |s.ws| && s.ws[w].pc.Idle?
    requires EndsAt(Next(0, Run(0, Init(n), before), Act(w, Schedule(h))), w, during, last)
    ensures var s := Run(0, Init(n), before);
            var t := Next(0, Run(0, Next(0, s, Act(w, Schedule(h))), during), last);
            && t.ws[w].cache == Some(h) && s.ws[w].cache.Some?
            && (EndsWith(Ring(t.ws[w].q), s.ws[w].cache.value) || EndsWith(t.global, s.ws[w].cache.value))
  {
    RunInv(n, before);
    var s := Run(0, Init(n), before);
    var begun := Next(0, s, Act(w, Schedule(h)));
    BusySo(begun, during, w, 0);
    assert during[..0] == [];
    ScheduleBegins(s, w, h);
    LandsLast(begun, Push(w, s.ws[w].cache.value, Some(h), None), during, last);
  }

  predicate EndsWith(l: seq<Handle>, h: Handle) { l != [] && l[|l| - 1] == h }

  lemma LandsLast(s: State, p: Push, during: seq<Action>, last: Action)
    requires Inv(s) && Pushes(s, p.w, p.x, p.keep, p.cache) && EndsAt(s, p.w, during, last)
    ensures var t := Next(0, Run(0, s, during), last);
            && t.ws[p.w].cache == (if p.keep.Some? then p.keep else p.cache)
            && (EndsWith(Ring(t.ws[p.w].q), p.x) || EndsWith(t.global, p.x))
  {
    var k, moved := PushLands(s, p, during, last);
    ReturnedLast(Run(0, s, during), Next(0, Run(0, s, during), last), p, moved);
  }

  lemma ReturnedLast(u: State, t: State, p: Push, moved: seq<Handle>)
    requires Returned(u, t, p.w, p.x, p.keep, p.cache, moved)
    ensures t.ws[p.w].cache == (if p.keep.Some? then p.keep else p.cache)
    ensures EndsWith(Ring(t.ws[p.w].q), p.x) || EndsWith(t.global, p.x)
  {
  }

  /** With nothing in the cache it is there at once, and nothing else changes. */
  lemma ScheduledAtOnce(s: State, w: nat, h: Handle)
    requires w < |s.ws| && s.ws[w].pc.Idle? && s.ws[w].cache.None?
    ensures Next(0, s, Act(w, Schedule(h))) ==
            s.(ws := s.ws[w := s.ws[w].(cache := Some(h))], submitted := s.submitted + multiset{h})
  {
    assert Next(0, s, Act(w, Schedule(h))).ws == s.ws[w := s.ws[w].(cache := Some(h))];
  }

  /** A handle enqueued after I/O or by a timer goes to the ring or the global queue; the cache stays as it is. */
  lemma EnqueuedIsQueued(n: nat, before: seq<Action>, w: nat, h: Handle, during: seq<Action>, last: Action)
    requires var s := Run(0, Init(n), before);
             w < |s.ws| && s.ws[w].pc.Idle?
    requires EndsAt(Next(0, Run(0, Init(n), before), Act(w, Enqueue(h))), w, during, last)
    ensures var s := Run(0, Init(n), before);
            var t := Next(0, Run(0, Next(0, s, Act(w, Enqueue(h))), during), last);
            && t.ws[w].cache == s.ws[w].cache
            && (EndsWith(Ring(t.ws[w].q), h) || EndsWith(t.global, h))
  {
    RunInv(n, before);
    var s := Run(0, Init(n), before);
    StepKeepsInv(s, Act(w, Enqueue(h)));
    LandsLast(Next(0, s, Act(w, Enqueue(h))), Push(w, h, None, s.ws[w].cache), during, last);
  }

  // What an idle worker takes

  /** The oldest handle of the global queue, or the one in the cache; with nothing there, nothing. */
  lemma Takes(s: State, w: nat)
    requires w < |s.ws| && s.ws[w].pc.Idle?
    ensures Next(0, s, Act(w, TakeGlobal)) ==
            if s.global == [] then s
            else s.(ws := s.ws[w := s.ws[w].(pc := Got(s.global[0]))], global := s.global[1..])
    ensures Next(0, s, Act(w, TakeCache)) ==
            if s.ws[w].cache.None? then s
            else s.(ws := s.ws[w := s.ws[w].(pc := Got(s.ws[w].cache.value), cache := None)])
  {
    assert s.ws[w := s.ws[w]] == s.ws;
    assert s.submitted + multiset{} == s.submitted && s.resumed + multiset{} == s.resumed;
  }

  // try_pop and stealing, in any interleaving

  /**
   * A step of try_pop: it gives up only while the ring is empty, its exchange takes out the oldest task, and
   * that task is what it gives.
   */
  lemma PopStepTakes(s: State, w: nat, op: Op)
    requires Inv(s) && w < |s.ws| && s.ws[w].pc.Popping? && !Disabled(s, w, op)
    ensures var t, q, p := Next(0, s, Act(w, op)), s.ws[w].q, s.ws[w].pc.pop;
            && w < |t.ws|
            && match t.ws[w].pc
               case Idle => Ring(q) == [] && t.ws[w].q == q
               case Got(h) => p.PopTake? && h == At(q.slots, p.at) && Ring(t.ws[w].q) == Ring(q)
               case Popping(PopTake(i)) =>
                 Ring(q) != [] && At(t.ws[w].q.slots, i) == Ring(q)[0] && Ring(t.ws[w].q) == Ring(q)[1..]
               case Popping(_) => t.ws[w].q == q
               case _ => false
  {
    assert OwnInv(s.ws[w]);
    PopTakes(s.ws[w], op);
  }

  lemma PopTakes(wk: Worker, op: Op)
    requires wk.pc.Popping? && Window(wk.q) && PopInv(wk.q, wk.pc.pop)
    ensures var r, q, p := PopStep(0, wk, op), wk.q, wk.pc.pop;
            match r.pc
            case Idle => Ring(q) == [] && r.q == q
            case Got(h) => p.PopTake? && h == At(q.slots, p.at) && Ring(r.q) == Ring(q)
            case Popping(PopTake(i)) => Ring(q) != [] && At(r.q.slots, i) == Ring(q)[0] && Ring(r.q) == Ring(q)[1..]
            case Popping(_) => r.q == q
            case _ => false
  {
    var q, p := wk.q, wk.pc.pop;
    match p
    case PopTake(i) => RingPut(q, i, Null);
    case PopCas(st, lh) => if q.head == lh && q.steal == st && !op.Spurious? { OldestOut(q, PopStep(0, wk, op).q); }
    case _ =>
  }

  lemma OldestOut(q: Queue, r: Queue)
    requires q.head < q.tail && r.slots == q.slots && r.head == q.head + 1 && r.tail == q.tail
    ensures Ring(q) != [] && Ring(q)[0] == At(q.slots, q.head) && Ring(r) == Ring(q)[1..]
  {
    SegmentSplit(q.slots, q.head, q.tail - q.head, 1);
  }

  /** A claim takes the oldest tasks out of the victim's ring, at least one and at most half of them. */
  lemma ClaimTakes(s: State, w: nat, op: Op)
    requires Inv(s) && w < |s.ws| && s.ws[w].pc.Stealing? && s.ws[w].pc.thief.ClaimCas? && !Disabled(s, w, op)
    ensures var t, v, n := Next(0, s, Act(w, op)), s.ws[w].pc.v, s.ws[w].pc.thief.n;
            && w < |t.ws| && v < |s.ws| && v < |t.ws|
            && if t.ws[w].pc.Stealing? && t.ws[w].pc.thief.Copy? then
                 && 1 <= n && 2 * n <= |Ring(s.ws[v].q)| && Ring(t.ws[v].q) == Ring(s.ws[v].q)[n..]
                 && Segment(t.ws[v].q.slots, t.ws[w].pc.thief.base, n) == Ring(s.ws[v].q)[..n]
               else Ring(t.ws[v].q) == Ring(s.ws[v].q)
  {
    var v := s.ws[w].pc.v;
    assert OwnInv(s.ws[w]) && StealInv(s, w);
    assert OwnInv(s.ws[v]);
    ClaimTakesFrom(s.ws[w], s.ws[v].q, op);
  }

  lemma ClaimTakesFrom(wk: Worker, q: Queue, op: Op)
    requires wk.pc.Stealing? && wk.pc.thief.ClaimCas? && OwnInv(wk) && Window(q) && VictimInv(q, wk.pc.thief)
    ensures var (r, after) := ThiefStep(0, wk, q, op);
            var n := wk.pc.thief.n;
            if r.pc.Stealing? && r.pc.thief.Copy? then
              && 1 <= n && 2 * n <= |Ring(q)| && Ring(after) == Ring(q)[n..]
              && Segment(after.slots, r.pc.thief.base, n) == Ring(q)[..n]
            else Ring(after) == Ring(q)
  {
    var p := wk.pc.thief;
    if q.steal == p.st && q.head == p.lh && !op.Spurious? {
      assert ThiefStep(0, wk, q, op) ==
             (wk.(pc := Stealing(wk.pc.v, Copy(p.dt, p.st, p.n, 0))), q.(head := p.lh + p.n, claimed := p.lh + p.n));
      SegmentSplit(q.slots, q.head, q.tail - q.head, p.n);
    } else {
      assert ThiefStep(0, wk, q, op).1 == q && !ThiefStep(0, wk, q, op).0.pc.thief.Copy?;
    }
  }
}

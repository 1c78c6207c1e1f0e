/** A lock that serves its waiters first come, first served: what the mutex has to be. */
module FifoLock {
  /** Everyone granted the lock so far, those who wait for it, and the unlocks so far. */
  datatype Lock = Lock(granted: seq<nat>, waiting: seq<nat>, unlocks: nat)

  /** Nothing happens, one waiter more, a grant to the first waiter, or a free lock. */
  predicate Step(x: Lock, y: Lock) {
    || y == x
    || (|y.waiting| == |x.waiting| + 1 && y == x.(waiting := y.waiting) && y.waiting[..|x.waiting|] == x.waiting)
    || (x.waiting != [] && y == Lock(x.granted + [x.waiting[0]], x.waiting[1..], x.unlocks + 1))
    || (x.waiting == [] && y == x.(unlocks := x.unlocks + 1))
  }

  /**
   * From `x` to `y` the first `j` of those who waited in `x` were granted the lock, in order,
   * where `j` counts the unlocks in between, and the others are still the first to wait.
   */
  predicate Served(x: Lock, y: Lock) {
    && x.unlocks <= y.unlocks
    && var j, n := y.unlocks - x.unlocks, |x.waiting|;
       if j <= n then
         && y.granted == x.granted + x.waiting[..j]
         && n - j <= |y.waiting| && y.waiting[..n - j] == x.waiting[j..]
       else
         && |x.granted| + n <= |y.granted|
         && y.granted[..|x.granted| + n] == x.granted + x.waiting
  }

  lemma ServedStep(x: Lock, y: Lock, z: Lock)
    requires Served(x, y) && Step(y, z)
    ensures Served(x, z)
  {
    var j, n := y.unlocks - x.unlocks, |x.waiting|;
    if j < n && z.unlocks == y.unlocks + 1 {
      assert y.waiting[0] == y.waiting[..n - j][0] == x.waiting[j];
      assert x.waiting[..j + 1] == x.waiting[..j] + [x.waiting[j]];
      assert z.waiting[..n - j - 1] == y.waiting[..n - j][1..];
      assert x.waiting[j..][1..] == x.waiting[j + 1..];
    } else if j <= n && z.unlocks == y.unlocks {
      assert z.waiting[..n - j] == y.waiting[..n - j];
    } else if j == n {
      assert x.waiting[..j] == x.waiting;
    }
  }
}

/** What every step of the mutex protocol keeps. */
module CoMutexInv {
  import opened Prelude
  import opened CoMutex
  import opened Lists
  import FifoLock

  function Rev(l: seq<nat>): (r: seq<nat>)
    ensures |r| == |l|
  {
    if l == [] then [] else Rev(l[1..]) + [l[0]]
  }

  /** The chain of `next` links from `p` visits exactly `l` and ends in null. */
  predicate IsList(cs: seq<Co>, p: Ptr, l: seq<nat>)
    decreases |l|
  {
    if l == [] then p.Nil?
    else p == Node(l[0]) && l[0] < |cs| && IsList(cs, cs[l[0]].next, l[1..])
  }

  function Fifo(s: State): seq<nat> {
    if s.granting && s.fifos != [] then s.fifos[1..] else s.fifos
  }

  /** Everyone who waits, in the order in which the code will grant the lock. */
  function Waiters(s: State): seq<nat> { Rev(s.rest) + Fifo(s) + Rev(s.stack) }

  function RunsOn(pc: PC): Option<nat> {
    match pc
    case Running(c) => Some(c)
    case Locking(c, _) => Some(c)
    case Unlocking(back, _) => back
    case _ => None
  }

  predicate CoOK(s: State, c: nat)
    requires c < |s.cs|
  {
    var co := s.cs[c];
    && (co.tag.Inside? <==> s.holder == Held(c))
    && (co.tag.Waiting? <==> c in Waiters(s))
    && (co.loc.Nowhere? <==> co.tag.Waiting? || co.tag.Parked?)
    && (co.loc.On? ==> co.loc.w < |s.ws| && RunsOn(s.ws[co.loc.w].pc) == Some(c))
    && (co.loc.Cached? ==> co.loc.w < |s.ws| && s.ws[co.loc.w].cache == Some(c))
  }

  predicate UnlockOK(s: State, w: nat, p: UnlockPC)
    requires w < |s.ws|
  {
    && (p.Advance? || s.holder == Releasing(w))
    && match p
       case ReloadState => s.fifos == []
       case ReleaseCas => s.fifos == []
       case Exchange => s.fifos == [] && s.stack != []
       case Reverse(lifo) => s.rest != [] && IsList(s.cs, lifo, s.rest)
       case Grant => s.fifos != []
       case Advance => s.granting && s.fifos != [] && s.ws[w].cache == Some(s.fifos[0])
       case _ => true
  }

  predicate WkOK(s: State, w: nat)
    requires w < |s.ws|
  {
    var wk := s.ws[w];
    && (wk.cache.Some? ==> wk.cache.value < |s.cs| && s.cs[wk.cache.value].loc == Cached(w))
    && (RunsOn(wk.pc).Some? ==> RunsOn(wk.pc).value < |s.cs| && s.cs[RunsOn(wk.pc).value].loc == On(w))
    && match wk.pc
       case Locking(c, p) =>
         && s.cs[c].tag.Free?
         && (p.Linked? ==> !p.st.Unlocked? && s.cs[c].next == p.st)
       case Unlocking(back, p) =>
         && (back.Some? ==> s.cs[back.value].tag.Free?)
         && UnlockOK(s, w, p)
       case Terminated => false
       case _ => true
  }

  predicate IsUnlocking(s: State, w: nat) { w < |s.ws| && s.ws[w].pc.Unlocking? }

  predicate ListsOK(s: State) {
    && (s.state.Unlocked? <==> s.holder.NoOne?)
    && (if s.state.Unlocked? then s.stack == [] else IsList(s.cs, s.state, s.stack))
    && IsList(s.cs, s.fifo, s.fifos)
    && (s.holder.NoOne? ==> s.fifos == [])
    && (s.holder.Held? ==> s.holder.c < |s.cs|)
    && (s.holder.Releasing? ==> IsUnlocking(s, s.holder.w) && !s.ws[s.holder.w].pc.unlock.Advance?)
    && (s.rest != [] ==>
          s.holder.Releasing? && IsUnlocking(s, s.holder.w) && s.ws[s.holder.w].pc.unlock.Reverse?)
    && (s.granting ==>
          && s.fifos != [] && s.rest == [] && s.holder == Held(s.fifos[0])
          && s.cs[s.fifos[0]].loc.Cached?
          && IsUnlocking(s, s.cs[s.fifos[0]].loc.w) && s.ws[s.cs[s.fifos[0]].loc.w].pc.unlock.Advance?)
  }

  predicate OrderOK(s: State) {
    && NoDup(Waiters(s))
    && (forall c :: c in Waiters(s) ==> c < |s.cs|)
    && s.enqueued == s.granted + Waiters(s)
  }

  ghost predicate Inv(s: State) {
    && ListsOK(s) && OrderOK(s)
    && (forall c :: 0 <= c < |s.cs| ==> CoOK(s, c))
    && (forall w :: 0 <= w < |s.ws| ==> WkOK(s, w))
  }

  lemma {:induction false} ListFrame(cs: seq<Co>, ds: seq<Co>, p: Ptr, l: seq<nat>)
    requires IsList(cs, p, l) && |ds| == |cs|
    requires forall c :: c in l && c < |cs| ==> ds[c].next == cs[c].next
    ensures IsList(ds, p, l)
    decreases |l|
  {
    if l != [] { ListFrame(cs, ds, cs[l[0]].next, l[1..]); }
  }

  lemma {:induction false} RevMembers(l: seq<nat>, c: nat)
    ensures c in Rev(l) <==> c in l
  {
    if l != [] {
      RevMembers(l[1..], c);
      assert l == [l[0]] + l[1..];
    }
  }

  lemma WaitersMembers(s: State, c: nat)
    ensures c in Waiters(s) <==> c in s.rest || c in Fifo(s) || c in s.stack
  {
    RevMembers(s.rest, c);
    RevMembers(s.stack, c);
  }

  /** Members of the three lists wait; in particular a running coroutine is in none of them. */
  lemma ListedWait(s: State, c: nat)
    requires Inv(s) && c < |s.cs| && (c in s.rest || c in s.stack || c in Fifo(s))
    ensures s.cs[c].tag.Waiting? && s.cs[c].loc.Nowhere?
  {
    WaitersMembers(s, c);
    assert CoOK(s, c);
  }

  /** Whatever stood for the unreversed waiters still does. */
  ghost predicate RestKept(s: State, t: State) {
    forall p :: IsList(s.cs, p, s.rest) ==> IsList(t.cs, p, s.rest)
  }

  /** No waiter's link changed, so every pointer still stands for its list. */
  lemma ListsStay(s: State, t: State)
    requires Inv(s) && |t.cs| == |s.cs|
    requires forall c :: 0 <= c < |s.cs| && (s.cs[c].tag.Waiting? || s.holder == Held(c)) ==>
                           t.cs[c].next == s.cs[c].next
    ensures !s.state.Unlocked? ==> IsList(t.cs, s.state, s.stack)
    ensures IsList(t.cs, s.fifo, s.fifos)
    ensures RestKept(s, t)
  {
    forall c | c in s.stack || c in s.rest || c in s.fifos
      ensures c < |s.cs| ==> t.cs[c].next == s.cs[c].next
    {
      if c < |s.cs| {
        if s.granting && c == s.fifos[0] {
        } else {
          assert c in s.fifos ==> c in Fifo(s);
          ListedWait(s, c);
        }
      }
    }
    if !s.state.Unlocked? { ListFrame(s.cs, t.cs, s.state, s.stack); }
    ListFrame(s.cs, t.cs, s.fifo, s.fifos);
    forall p | IsList(s.cs, p, s.rest)
      ensures IsList(t.cs, p, s.rest)
    {
      ListFrame(s.cs, t.cs, p, s.rest);
    }
  }

  lemma TakeCacheWorker(s: State, w: nat, x: nat)
    requires Inv(s) && w < |s.ws| && s.ws[w].pc.Idle? && x < |s.ws| && RestKept(s, IdleStep(s, w, TakeCache))
    ensures |IdleStep(s, w, TakeCache).ws| == |s.ws| && WkOK(IdleStep(s, w, TakeCache), x)
  {
    assert WkOK(s, w) && WkOK(s, x);
  }

  lemma TakeCacheKeeps(s: State, w: nat)
    requires Inv(s) && w < |s.ws| && s.ws[w].pc.Idle?
    ensures Inv(IdleStep(s, w, TakeCache))
  {
    var t := IdleStep(s, w, TakeCache);
    assert WkOK(s, w);
    ListsStay(s, t);
    forall c | 0 <= c < |t.cs| ensures CoOK(t, c) { assert CoOK(s, c); }
    forall x | 0 <= x < |t.ws| ensures WkOK(t, x) { TakeCacheWorker(s, w, x); }
  }

  lemma TakeQueuedWorker(s: State, w: nat, d: nat, x: nat)
    requires Inv(s) && w < |s.ws| && s.ws[w].pc.Idle? && d < |s.cs| && s.cs[d].loc.Queued? && x < |s.ws|
    requires RestKept(s, IdleStep(s, w, TakeQueued(d)))
    ensures |IdleStep(s, w, TakeQueued(d)).ws| == |s.ws| && WkOK(IdleStep(s, w, TakeQueued(d)), x)
  {
    assert WkOK(s, w) && CoOK(s, d) && WkOK(s, x);
  }

  lemma TakeQueuedKeeps(s: State, w: nat, d: nat)
    requires Inv(s) && w < |s.ws| && s.ws[w].pc.Idle? && d < |s.cs| && s.cs[d].loc.Queued?
    ensures Inv(IdleStep(s, w, TakeQueued(d)))
  {
    var t := IdleStep(s, w, TakeQueued(d));
    assert CoOK(s, d);
    ListsStay(s, t);
    forall c | 0 <= c < |t.cs| ensures CoOK(t, c) { assert CoOK(s, c); }
    forall x | 0 <= x < |t.ws| ensures WkOK(t, x) { TakeQueuedWorker(s, w, d, x); }
  }

  /** A step that only moves a worker's program counter within one coroutine's lock or unlock. */
  lemma PCKeeps(s: State, w: nat, pc: PC)
    requires Inv(s) && w < |s.ws|
    requires RunsOn(pc) == RunsOn(s.ws[w].pc) && WkOK(SetPC(s, w, pc), w)
    requires s.ws[w].pc.Unlocking? <==> pc.Unlocking?
    requires pc.Unlocking? ==> !s.ws[w].pc.unlock.Reverse? && (pc.unlock.Advance? <==> s.ws[w].pc.unlock.Advance?)
    ensures Inv(SetPC(s, w, pc))
  {
    var t := SetPC(s, w, pc);
    forall d | 0 <= d < |t.cs| ensures CoOK(t, d) { assert CoOK(s, d); }
    forall x | 0 <= x < |t.ws| ensures WkOK(t, x) { assert WkOK(s, x); }
  }

  lemma YieldKeeps(s: State, w: nat, c: nat)
    requires Inv(s) && w < |s.ws| && s.ws[w].pc == Running(c) && c < |s.cs|
    ensures Inv(RunStep(s, w, c, Yield))
  {
    var t := RunStep(s, w, c, Yield);
    assert WkOK(s, w) && CoOK(s, c);
    ListsStay(s, t);
    forall d | 0 <= d < |t.cs| ensures CoOK(t, d) { assert CoOK(s, d); }
    forall x | 0 <= x < |t.ws| ensures WkOK(t, x) { YieldWorker(s, w, c, x); }
  }

  lemma YieldWorker(s: State, w: nat, c: nat, x: nat)
    requires Inv(s) && w < |s.ws| && s.ws[w].pc == Running(c) && c < |s.cs| && x < |s.ws|
    requires RestKept(s, RunStep(s, w, c, Yield))
    ensures |RunStep(s, w, c, Yield).ws| == |s.ws| && WkOK(RunStep(s, w, c, Yield), x)
  {
    assert WkOK(s, w) && CoOK(s, c) && WkOK(s, x);
  }

  lemma UnparkCo(s: State, w: nat, c: nat, d: nat, x: nat)
    requires Inv(s) && w < |s.ws| && s.ws[w].pc == Running(c) && c < |s.cs| && x < |s.cs|
    requires d < |s.cs| && s.cs[d].tag.Parked?
    ensures |RunStep(s, w, c, Unpark(d)).cs| == |s.cs| && CoOK(RunStep(s, w, c, Unpark(d)), x)
  {
    assert WkOK(s, w) && CoOK(s, d) && CoOK(s, x);
  }

  lemma UnparkWorker(s: State, w: nat, c: nat, d: nat, x: nat)
    requires Inv(s) && w < |s.ws| && s.ws[w].pc == Running(c) && c < |s.cs| && x < |s.ws|
    requires d < |s.cs| && s.cs[d].tag.Parked? && RestKept(s, RunStep(s, w, c, Unpark(d)))
    ensures |RunStep(s, w, c, Unpark(d)).ws| == |s.ws| && WkOK(RunStep(s, w, c, Unpark(d)), x)
  {
    assert WkOK(s, w) && CoOK(s, d) && WkOK(s, x);
    if x == w { UnparkSelf(s, w, c, d); }
  }

  lemma UnparkSelf(s: State, w: nat, c: nat, d: nat)
    requires w < |s.ws| && s.ws[w].pc == Running(c) && c < |s.cs| && s.cs[c].loc == On(w)
    requires d < |s.cs| && s.cs[d].tag.Parked? && s.cs[d].loc.Nowhere?
    requires s.ws[w].cache.Some? ==> s.ws[w].cache.value < |s.cs| && s.cs[s.ws[w].cache.value].loc == Cached(w)
    ensures WkOK(RunStep(s, w, c, Unpark(d)), w)
  {
  }

  lemma UnparkKeeps(s: State, w: nat, c: nat, d: nat)
    requires Inv(s) && w < |s.ws| && s.ws[w].pc == Running(c) && c < |s.cs|
    requires d < |s.cs| && s.cs[d].tag.Parked?
    ensures Inv(RunStep(s, w, c, Unpark(d)))
  {
    var t := RunStep(s, w, c, Unpark(d));
    assert WkOK(s, w) && CoOK(s, d);
    ListsStay(s, t);
    forall x | 0 <= x < |t.cs| ensures CoOK(t, x) { UnparkCo(s, w, c, d, x); }
    forall x | 0 <= x < |t.ws| ensures WkOK(t, x) { UnparkWorker(s, w, c, d, x); }
  }

  lemma BeginUnlockWorker(s: State, w: nat, c: nat, op: Op, x: nat)
    requires Inv(s) && w < |s.ws| && s.ws[w].pc == Running(c) && c < |s.cs| && x < |s.ws|
    requires (op.Unlock? || op.Park?) && s.cs[c].tag.Inside?
    ensures |RunStep(s, w, c, op).ws| == |s.ws| && WkOK(RunStep(s, w, c, op), x)
  {
    assert WkOK(s, w) && CoOK(s, c) && WkOK(s, x);
    assert s.rest == [] && !s.granting;
  }

  lemma BeginUnlockCo(s: State, w: nat, c: nat, op: Op, d: nat)
    requires Inv(s) && w < |s.ws| && s.ws[w].pc == Running(c) && c < |s.cs| && d < |s.cs|
    requires (op.Unlock? || op.Park?) && s.cs[c].tag.Inside?
    ensures |RunStep(s, w, c, op).cs| == |s.cs| && CoOK(RunStep(s, w, c, op), d)
  {
    assert WkOK(s, w) && CoOK(s, c) && CoOK(s, d);
  }

  /** unlock begins: the coroutine, suspended or not, passes the right to touch to its worker. */
  lemma BeginUnlockKeeps(s: State, w: nat, c: nat, op: Op)
    requires Inv(s) && w < |s.ws| && s.ws[w].pc == Running(c) && c < |s.cs|
    requires op.Unlock? || op.Park?
    ensures Inv(RunStep(s, w, c, op))
  {
    var t := RunStep(s, w, c, op);
    assert WkOK(s, w) && CoOK(s, c);
    if s.cs[c].tag.Inside? {
      ListsStay(s, t);
      assert !s.granting;
      forall d | 0 <= d < |t.cs| ensures CoOK(t, d) { BeginUnlockCo(s, w, c, op, d); }
      forall x | 0 <= x < |t.ws| ensures WkOK(t, x) { BeginUnlockWorker(s, w, c, op, x); }
    }
  }

  /** lock found the mutex taken and links its awaiter to the newest waiter. */
  lemma LinkKeeps(s: State, w: nat, c: nat, st: Ptr, op: Op)
    requires Inv(s) && w < |s.ws| && s.ws[w].pc == Locking(c, Seen(st)) && c < |s.cs| && !st.Unlocked?
    ensures Inv(LockStep(s, w, c, Seen(st), op))
  {
    var t := LockStep(s, w, c, Seen(st), op);
    assert WkOK(s, w) && CoOK(s, c);
    ListsStay(s, t);
    forall d | 0 <= d < |t.cs| ensures CoOK(t, d) { assert CoOK(s, d); }
    forall x | 0 <= x < |t.ws| ensures WkOK(t, x) { LinkWorker(s, w, c, st, op, x); }
  }

  lemma LinkWorker(s: State, w: nat, c: nat, st: Ptr, op: Op, x: nat)
    requires Inv(s) && w < |s.ws| && s.ws[w].pc == Locking(c, Seen(st)) && c < |s.cs| && !st.Unlocked?
    requires RestKept(s, LockStep(s, w, c, Seen(st), op)) && x < |s.ws|
    ensures |LockStep(s, w, c, Seen(st), op).ws| == |s.ws| && WkOK(LockStep(s, w, c, Seen(st), op), x)
  {
    assert WkOK(s, w) && CoOK(s, c) && WkOK(s, x);
  }

  /** lock takes a free mutex; nobody waits for a free mutex. */
  lemma AcquireKeeps(s: State, w: nat, c: nat, op: Op)
    requires Inv(s) && w < |s.ws| && s.ws[w].pc == Locking(c, Seen(Unlocked)) && c < |s.cs|
    requires s.state.Unlocked? && !op.Spurious?
    ensures Inv(LockStep(s, w, c, Seen(Unlocked), op)) && Waiters(s) == []
  {
    var t := LockStep(s, w, c, Seen(Unlocked), op);
    assert WkOK(s, w) && CoOK(s, c);
    assert Waiters(t) == Waiters(s) == [];
    forall d | 0 <= d < |t.cs| ensures CoOK(t, d) { assert CoOK(s, d); }
    forall x | 0 <= x < |t.ws| ensures WkOK(t, x) { assert WkOK(s, x); }
  }

  lemma EnqueueWorker(s: State, w: nat, c: nat, st: Ptr, op: Op, x: nat)
    requires Inv(s) && w < |s.ws| && s.ws[w].pc == Locking(c, Linked(st)) && c < |s.cs| && x < |s.ws|
    requires s.state == st && !op.Spurious? && RestKept(s, LockStep(s, w, c, Linked(st), op))
    ensures |LockStep(s, w, c, Linked(st), op).ws| == |s.ws| && WkOK(LockStep(s, w, c, Linked(st), op), x)
  {
    assert WkOK(s, w) && CoOK(s, c) && WkOK(s, x);
  }

  /** lock enqueues: the coroutine becomes the last of the waiters. */
  lemma EnqueueKeeps(s: State, w: nat, c: nat, st: Ptr, op: Op)
    requires Inv(s) && w < |s.ws| && s.ws[w].pc == Locking(c, Linked(st)) && c < |s.cs|
    requires s.state == st && !op.Spurious?
    ensures Inv(LockStep(s, w, c, Linked(st), op))
    ensures Waiters(LockStep(s, w, c, Linked(st), op)) == Waiters(s) + [c]
  {
    var t := LockStep(s, w, c, Linked(st), op);
    assert WkOK(s, w) && CoOK(s, c);
    EnqueueLists(s, w, c, st, op);
    EnqueueOrder(s, w, c, st, op);
    forall d | 0 <= d < |t.cs| ensures CoOK(t, d) { EnqueueCo(s, w, c, st, op, d); }
    forall x | 0 <= x < |t.ws| ensures WkOK(t, x) { EnqueueWorker(s, w, c, st, op, x); }
  }

  lemma EnqueueLists(s: State, w: nat, c: nat, st: Ptr, op: Op)
    requires Inv(s) && w < |s.ws| && s.ws[w].pc == Locking(c, Linked(st)) && c < |s.cs|
    requires s.state == st && !op.Spurious?
    ensures ListsOK(LockStep(s, w, c, Linked(st), op)) && RestKept(s, LockStep(s, w, c, Linked(st), op))
  {
    var t := LockStep(s, w, c, Linked(st), op);
    assert WkOK(s, w) && CoOK(s, c);
    ListsStay(s, t);
    assert t.stack[1..] == s.stack;
  }

  lemma EnqueueCo(s: State, w: nat, c: nat, st: Ptr, op: Op, d: nat)
    requires Inv(s) && w < |s.ws| && s.ws[w].pc == Locking(c, Linked(st)) && c < |s.cs| && d < |s.cs|
    requires s.state == st && !op.Spurious? && Waiters(LockStep(s, w, c, Linked(st), op)) == Waiters(s) + [c]
    ensures |LockStep(s, w, c, Linked(st), op).cs| == |s.cs| && CoOK(LockStep(s, w, c, Linked(st), op), d)
  {
    assert WkOK(s, w) && CoOK(s, c) && CoOK(s, d);
  }

  lemma EnqueueOrder(s: State, w: nat, c: nat, st: Ptr, op: Op)
    requires OrderOK(s) && w < |s.ws| && c < |s.cs| && c !in Waiters(s) && s.state == st && !op.Spurious?
    ensures var t := LockStep(s, w, c, Linked(st), op); OrderOK(t) && Waiters(t) == Waiters(s) + [c]
  {
    var t := LockStep(s, w, c, Linked(st), op);
    assert t.stack[1..] == s.stack;
    assert Waiters(t) == Waiters(s) + [c];
  }

  /** unlock's reads: it never finds the mutex unlocked. */
  lemma UnlockReadKeeps(s: State, w: nat, back: Option<nat>, p: UnlockPC)
    requires Inv(s) && w < |s.ws| && s.ws[w].pc == Unlocking(back, p)
    requires p.CheckLocked? || p.ReadFifo? || p.ReloadState? || (p.ReleaseCas? && !s.state.Nil?)
    ensures Inv(UnlockStep(s, w, back, p))
  {
    assert WkOK(s, w);
    PCKeeps(s, w, UnlockStep(s, w, back, p).ws[w].pc);
  }

  lemma ReleaseKeeps(s: State, w: nat, back: Option<nat>)
    requires Inv(s) && w < |s.ws| && s.ws[w].pc == Unlocking(back, ReleaseCas) && s.state.Nil?
    ensures Inv(UnlockStep(s, w, back, ReleaseCas)) && Waiters(s) == []
  {
    var t := UnlockStep(s, w, back, ReleaseCas);
    assert WkOK(s, w);
    assert s.stack == [] && s.rest == [];
    assert Waiters(t) == Waiters(s) == [];
    forall d | 0 <= d < |t.cs| ensures CoOK(t, d) { assert CoOK(s, d); }
    forall x | 0 <= x < |t.ws| ensures WkOK(t, x) { ReleaseWorker(s, w, back, x); }
  }

  lemma ReleaseWorker(s: State, w: nat, back: Option<nat>, x: nat)
    requires Inv(s) && w < |s.ws| && s.ws[w].pc == Unlocking(back, ReleaseCas) && s.state.Nil? && x < |s.ws|
    requires s.rest == [] && !s.granting
    ensures |UnlockStep(s, w, back, ReleaseCas).ws| == |s.ws| && WkOK(UnlockStep(s, w, back, ReleaseCas), x)
  {
    assert WkOK(s, w) && WkOK(s, x);
  }

  /** The exchanged list is never empty. */
  lemma ExchangeKeeps(s: State, w: nat, back: Option<nat>)
    requires Inv(s) && w < |s.ws| && s.ws[w].pc == Unlocking(back, Exchange)
    ensures s.state.Node? && Inv(UnlockStep(s, w, back, Exchange))
    ensures Waiters(UnlockStep(s, w, back, Exchange)) == Waiters(s)
  {
    var t := UnlockStep(s, w, back, Exchange);
    assert WkOK(s, w);
    assert s.rest == [] && s.fifos == [];
    assert Waiters(t) == Waiters(s);
    forall d | 0 <= d < |t.cs| ensures CoOK(t, d) { assert CoOK(s, d); }
    forall x | 0 <= x < |t.ws| ensures WkOK(t, x) { assert WkOK(s, x); }
  }

  lemma ReverseWorker(s: State, w: nat, back: Option<nat>, lifo: Ptr, x: nat)
    requires Inv(s) && w < |s.ws| && s.ws[w].pc == Unlocking(back, Reverse(lifo)) && x < |s.ws|
    ensures |UnlockStep(s, w, back, Reverse(lifo)).ws| == |s.ws|
    ensures WkOK(UnlockStep(s, w, back, Reverse(lifo)), x)
  {
    assert WkOK(s, w) && WkOK(s, x);
    var f := s.rest[0];
    assert lifo == Node(f) && IsList(s.cs, s.cs[f].next, s.rest[1..]);
    ListedWait(s, f);
    ReverseLists(s, f);
  }

  lemma ReverseCo(s: State, w: nat, back: Option<nat>, lifo: Ptr, d: nat)
    requires Inv(s) && w < |s.ws| && s.ws[w].pc == Unlocking(back, Reverse(lifo)) && d < |s.cs|
    requires Waiters(UnlockStep(s, w, back, Reverse(lifo))) == Waiters(s)
    ensures |UnlockStep(s, w, back, Reverse(lifo)).cs| == |s.cs|
    ensures CoOK(UnlockStep(s, w, back, Reverse(lifo)), d)
  {
    assert WkOK(s, w) && CoOK(s, d);
  }

  /** One round of the reversal moves the newest unreversed waiter in front of the others. */
  lemma ReverseKeeps(s: State, w: nat, back: Option<nat>, lifo: Ptr)
    requires Inv(s) && w < |s.ws| && s.ws[w].pc == Unlocking(back, Reverse(lifo))
    ensures Inv(UnlockStep(s, w, back, Reverse(lifo)))
    ensures Waiters(UnlockStep(s, w, back, Reverse(lifo))) == Waiters(s)
  {
    var t := UnlockStep(s, w, back, Reverse(lifo));
    assert WkOK(s, w);
    var f := s.rest[0];
    assert lifo == Node(f) && IsList(s.cs, s.cs[f].next, s.rest[1..]);
    ListedWait(s, f);
    ReverseLists(s, f);
    assert Waiters(t) == Waiters(s);
    assert t.rest == [] <==> s.cs[f].next.Nil?;
    forall d | 0 <= d < |t.cs| ensures CoOK(t, d) { ReverseCo(s, w, back, lifo, d); }
    forall x | 0 <= x < |t.ws| ensures WkOK(t, x) { ReverseWorker(s, w, back, lifo, x); }
  }

  /** Relinking the first of `rest` leaves the other lists alone. */
  lemma ReverseLists(s: State, f: nat)
    requires Inv(s) && s.rest != [] && f == s.rest[0] && f < |s.cs|
    ensures var ds := s.cs[f := s.cs[f].(next := s.fifo)];
            && IsList(ds, Node(f), [f] + s.fifos)
            && (!s.state.Unlocked? ==> IsList(ds, s.state, s.stack))
            && (forall p :: IsList(s.cs, p, s.rest[1..]) ==> IsList(ds, p, s.rest[1..]))
  {
    var ds := s.cs[f := s.cs[f].(next := s.fifo)];
    FirstOfRest(s);
    ListFrame(s.cs, ds, s.fifo, s.fifos);
    if !s.state.Unlocked? { ListFrame(s.cs, ds, s.state, s.stack); }
    forall p | IsList(s.cs, p, s.rest[1..])
      ensures IsList(ds, p, s.rest[1..])
    {
      ListFrame(s.cs, ds, p, s.rest[1..]);
    }
  }

  /** The first of `rest` occurs nowhere else. */
  lemma FirstOfRest(s: State)
    requires NoDup(Waiters(s)) && s.rest != [] && !s.granting
    ensures s.rest[0] !in s.rest[1..] && s.rest[0] !in s.fifos && s.rest[0] !in s.stack
  {
    var f, n := s.rest[0], |s.rest|;
    var ws := Waiters(s);
    assert ws[n - 1] == f;
    assert ws == Rev(s.rest[1..]) + [f] + s.fifos + Rev(s.stack);
    RevMembers(s.rest[1..], f);
    RevMembers(s.stack, f);
    assert forall i :: 0 <= i < |s.fifos| ==> ws[n + i] == s.fifos[i];
    assert forall i :: 0 <= i < |s.stack| ==> ws[n + |s.fifos| + i] == Rev(s.stack)[i];
    assert forall i :: 0 <= i < n - 1 ==> ws[i] == Rev(s.rest[1..])[i];
  }

  lemma GrantLists(s: State, w: nat, back: Option<nat>)
    requires Inv(s) && w < |s.ws| && s.ws[w].pc == Unlocking(back, Grant)
    ensures s.fifos != [] && s.fifo == Node(s.fifos[0]) && !s.granting && s.rest == []
    ensures Waiters(s) == s.fifos + Rev(s.stack)
    ensures var t := UnlockStep(s, w, back, Grant);
            && |t.cs| == |s.cs| && Waiters(t) == s.fifos[1..] + Rev(s.stack)
            && t.granted == s.granted + [s.fifos[0]] && t.enqueued == s.enqueued
  {
    assert WkOK(s, w);
  }

  /** The order of grants: the first waiter, and no other, leaves the list. */
  lemma GrantOrder(s: State, w: nat, back: Option<nat>)
    requires Inv(s) && w < |s.ws| && s.ws[w].pc == Unlocking(back, Grant)
    ensures s.fifos != [] && s.fifo == Node(s.fifos[0]) && !s.granting && s.rest == []
    ensures Waiters(s) == [s.fifos[0]] + s.fifos[1..] + Rev(s.stack)
    ensures var t := UnlockStep(s, w, back, Grant);
            && Waiters(t) == Waiters(s)[1..] && t.granted == s.granted + [Waiters(s)[0]]
            && OrderOK(t) && Waiters(s)[0] !in Waiters(t)
            && (forall c :: c in Waiters(s) <==> c == s.fifos[0] || c in Waiters(t))
  {
    GrantLists(s, w, back);
    FirstServed(Waiters(s), s.fifos, Rev(s.stack));
  }

  /** Taking the first off a list that starts with a FIFO list. */
  lemma FirstServed(l: seq<nat>, fifos: seq<nat>, rest: seq<nat>)
    requires fifos != [] && l == fifos + rest && NoDup(l)
    ensures l == [fifos[0]] + fifos[1..] + rest && l[1..] == fifos[1..] + rest && NoDup(l[1..]) && l[0] !in l[1..]
    ensures forall c :: c in l <==> c == fifos[0] || c in l[1..]
  {
    TailNoDup(l);
  }

  lemma GrantCo(s: State, w: nat, back: Option<nat>, d: nat)
    requires Inv(s) && w < |s.ws| && s.ws[w].pc == Unlocking(back, Grant) && d < |s.cs|
    ensures var t := UnlockStep(s, w, back, Grant);
            |t.cs| == |s.cs| && CoOK(t, d) && t.cs[d].next == s.cs[d].next
  {
    GrantOrder(s, w, back);
    ListedWait(s, s.fifos[0]);
    assert WkOK(s, w) && CoOK(s, d) && CoOK(s, s.fifos[0]);
  }

  lemma GrantWorker(s: State, w: nat, back: Option<nat>, x: nat)
    requires Inv(s) && w < |s.ws| && s.ws[w].pc == Unlocking(back, Grant) && x < |s.ws|
    ensures |UnlockStep(s, w, back, Grant).ws| == |s.ws| && WkOK(UnlockStep(s, w, back, Grant), x)
  {
    GrantOrder(s, w, back);
    ListedWait(s, s.fifos[0]);
    assert WkOK(s, w) && WkOK(s, x);
  }

  /** The head of the FIFO list becomes the holder; its handle is in this worker's cache. */
  lemma GrantKeeps(s: State, w: nat, back: Option<nat>)
    requires Inv(s) && w < |s.ws| && s.ws[w].pc == Unlocking(back, Grant)
    ensures Inv(UnlockStep(s, w, back, Grant))
  {
    var t := UnlockStep(s, w, back, Grant);
    GrantOrder(s, w, back);
    forall d | 0 <= d < |s.cs| ensures CoOK(t, d) && t.cs[d].next == s.cs[d].next { GrantCo(s, w, back, d); }
    forall x | 0 <= x < |s.ws| ensures WkOK(t, x) { GrantWorker(s, w, back, x); }
    ListsStay(s, t);
    ListedWait(s, s.fifos[0]);
    assert WkOK(t, w);
  }

  /**
   * Reading the link of the waiter just woken is safe: its handle has not left the cache
   * of the worker that reads, so the frame that holds the link is still suspended.
   */
  lemma AdvanceKeeps(s: State, w: nat, back: Option<nat>)
    requires Inv(s) && w < |s.ws| && s.ws[w].pc == Unlocking(back, Advance)
    ensures s.fifo.Node? && s.fifo.c < |s.cs| && s.cs[s.fifo.c].loc == Cached(w)
    ensures Inv(UnlockStep(s, w, back, Advance))
    ensures Waiters(UnlockStep(s, w, back, Advance)) == Waiters(s)
  {
    var t := UnlockStep(s, w, back, Advance);
    assert WkOK(s, w);
    assert Waiters(t) == Waiters(s);
    forall d | 0 <= d < |t.cs| ensures CoOK(t, d) { assert CoOK(s, d); }
    forall x | 0 <= x < |t.ws| ensures WkOK(t, x) { assert WkOK(s, x); }
  }

  lemma RunKeeps(s: State, w: nat, c: nat, op: Op)
    requires Inv(s) && w < |s.ws| && s.ws[w].pc == Running(c) && c < |s.cs|
    ensures Inv(RunStep(s, w, c, op))
  {
    match op
    case Lock => assert WkOK(s, w) && CoOK(s, c); if s.cs[c].tag.Free? { PCKeeps(s, w, Locking(c, LoadState)); }
    case Unlock => BeginUnlockKeeps(s, w, c, op);
    case Park => BeginUnlockKeeps(s, w, c, op);
    case Yield => YieldKeeps(s, w, c);
    case Unpark(d) => if d < |s.cs| && s.cs[d].tag.Parked? { UnparkKeeps(s, w, c, d); }
    case _ =>
  }

  lemma LockKeeps(s: State, w: nat, c: nat, p: LockPC, op: Op)
    requires Inv(s) && w < |s.ws| && s.ws[w].pc == Locking(c, p) && c < |s.cs|
    ensures Inv(LockStep(s, w, c, p, op))
  {
    assert WkOK(s, w) && CoOK(s, c);
    if p.Seen? && !p.st.Unlocked? { LinkKeeps(s, w, c, p.st, op); }
    else if p.Seen? && s.state == p.st && !op.Spurious? { AcquireKeeps(s, w, c, op); }
    else if p.Linked? && s.state == p.st && !op.Spurious? { EnqueueKeeps(s, w, c, p.st, op); }
    else { PCKeeps(s, w, Locking(c, Seen(s.state))); }
  }

  lemma UnlockKeeps(s: State, w: nat, back: Option<nat>, p: UnlockPC)
    requires Inv(s) && w < |s.ws| && s.ws[w].pc == Unlocking(back, p)
    ensures Inv(UnlockStep(s, w, back, p))
  {
    match p
    case Exchange => ExchangeKeeps(s, w, back);
    case Reverse(lifo) => ReverseKeeps(s, w, back, lifo);
    case Grant => GrantKeeps(s, w, back);
    case Advance => AdvanceKeeps(s, w, back);
    case ReleaseCas => if s.state.Nil? { ReleaseKeeps(s, w, back); } else { UnlockReadKeeps(s, w, back, p); }
    case _ => UnlockReadKeeps(s, w, back, p);
  }

  lemma StepKeepsInv(s: State, a: Action)
    requires Inv(s)
    ensures Inv(Next(s, a))
  {
    if a.w < |s.ws| {
      assert WkOK(s, a.w);
      match s.ws[a.w].pc
      case Idle =>
        if a.op.TakeCache? { TakeCacheKeeps(s, a.w); }
        else if a.op.TakeQueued? && a.op.c < |s.cs| && s.cs[a.op.c].loc.Queued? { TakeQueuedKeeps(s, a.w, a.op.c); }
      case Running(c) => RunKeeps(s, a.w, c, a.op);
      case Locking(c, p) => LockKeeps(s, a.w, c, p, a.op);
      case Unlocking(back, p) => UnlockKeeps(s, a.w, back, p);
    }
  }

  lemma {:induction false} RunFromInv(s: State, actions: seq<Action>)
    requires Inv(s)
    ensures Inv(Run(s, actions))
    decreases |actions|
  {
    if actions != [] {
      RunFromInv(s, actions[..|actions| - 1]);
      StepKeepsInv(Run(s, actions[..|actions| - 1]), actions[|actions| - 1]);
    }
  }

  lemma InitInv(coroutines: nat, workers: nat)
    ensures Inv(Init(coroutines, workers))
  {
  }

  /**
   * In every run of lock and unlock: at most one coroutine is inside, nobody unlocks an
   * unlocked mutex or follows a null link, and coroutines are granted the lock in exactly
   * the order in which they enqueued.
   */
  lemma MutualExclusion(coroutines: nat, workers: nat, actions: seq<Action>)
    ensures var s := Run(Init(coroutines, workers), actions);
            && (forall c, d :: 0 <= c < |s.cs| && 0 <= d < |s.cs| ==>
                  (s.cs[c].tag.Inside? && s.cs[d].tag.Inside? ==> c == d))
            && (forall w :: 0 <= w < |s.ws| ==> !s.ws[w].pc.Terminated?)
            && (s.state.Unlocked? ==> forall c :: 0 <= c < |s.cs| ==> !s.cs[c].tag.Inside? && !s.cs[c].tag.Waiting?)
            && s.enqueued == s.granted + Waiters(s)
            && (forall c :: 0 <= c < |s.cs| ==> (s.cs[c].tag.Waiting? <==> c in Waiters(s)))
  {
    InitInv(coroutines, workers);
    RunFromInv(Init(coroutines, workers), actions);
    var s := Run(Init(coroutines, workers), actions);
    forall c | 0 <= c < |s.cs|
      ensures s.cs[c].tag.Inside? <==> s.holder == Held(c)
      ensures s.cs[c].tag.Waiting? <==> c in Waiters(s)
    {
      assert CoOK(s, c);
    }
    forall w | 0 <= w < |s.ws| ensures !s.ws[w].pc.Terminated? { assert WkOK(s, w); }
    if s.state.Unlocked? { assert s.rest == [] && Waiters(s) == []; }
  }

  /** The mutex as a FIFO lock. */
  function View(s: State): FifoLock.Lock { FifoLock.Lock(s.granted, Waiters(s), s.unlocks) }

  /** Steps of idle workers and of running coroutines leave the waiters alone. */
  lemma QuietStep(s: State, w: nat, op: Op)
    requires w < |s.ws| && (s.ws[w].pc.Idle? || s.ws[w].pc.Running?)
    ensures var t := Next(s, Act(w, op));
            && View(t) == View(s)
            && (s.holder.NoOne? && !t.holder.NoOne? ==>
                  s.ws[w].pc.Running? && s.ws[w].pc.c < |s.cs| && s.cs[s.ws[w].pc.c].tag.Inside?)
  {
    var t := Next(s, Act(w, op));
    assert t.rest == s.rest && t.stack == s.stack && Fifo(t) == Fifo(s);
  }

  lemma LockIsFifo(s: State, w: nat, c: nat, p: LockPC, op: Op)
    requires Inv(s) && w < |s.ws| && s.ws[w].pc == Locking(c, p) && c < |s.cs|
    ensures FifoLock.Step(View(s), View(LockStep(s, w, c, p, op)))
    ensures s.holder.NoOne? && !LockStep(s, w, c, p, op).holder.NoOne? ==> Waiters(s) == []
  {
    if p.Linked? && s.state == p.st && !op.Spurious? { EnqueueKeeps(s, w, c, p.st, op); }
    else if p.Seen? && p.st.Unlocked? && s.state == p.st && !op.Spurious? {
      AcquireKeeps(s, w, c, op);
      assert Waiters(LockStep(s, w, c, p, op)) == [];
    }
    else {
      var t := LockStep(s, w, c, p, op);
      assert t.rest == s.rest && t.stack == s.stack && Fifo(t) == Fifo(s);
    }
  }

  /** The mutex refines a FIFO lock, and a newcomer takes it only when nobody waits. */
  lemma StepIsFifo(s: State, a: Action)
    requires Inv(s)
    ensures FifoLock.Step(View(s), View(Next(s, a)))
    ensures s.holder.NoOne? && !Next(s, a).holder.NoOne? ==> Waiters(s) == []
  {
    if a.w < |s.ws| {
      assert WkOK(s, a.w);
      match s.ws[a.w].pc
      case Idle => QuietStep(s, a.w, a.op);
      case Running(c) => QuietStep(s, a.w, a.op); assert CoOK(s, c);
      case Locking(c, p) => LockIsFifo(s, a.w, c, p, a.op);
      case Unlocking(back, p) => UnlockIsFifo(s, a.w, back, p);
    }
  }

  lemma UnlockIsFifo(s: State, w: nat, back: Option<nat>, p: UnlockPC)
    requires Inv(s) && w < |s.ws| && s.ws[w].pc == Unlocking(back, p)
    ensures FifoLock.Step(View(s), View(UnlockStep(s, w, back, p))) && !s.holder.NoOne?
  {
    assert WkOK(s, w);
    match p
    case Exchange => ExchangeKeeps(s, w, back);
    case Reverse(lifo) => ReverseKeeps(s, w, back, lifo);
    case Grant => GrantOrder(s, w, back);
    case Advance => AdvanceKeeps(s, w, back);
    case _ => ReadIsFifo(s, w, back, p);
  }

  lemma ReadIsFifo(s: State, w: nat, back: Option<nat>, p: UnlockPC)
    requires Inv(s) && w < |s.ws| && s.ws[w].pc == Unlocking(back, p)
    requires p.CheckLocked? || p.ReadFifo? || p.ReloadState? || p.ReleaseCas?
    ensures FifoLock.Step(View(s), View(UnlockStep(s, w, back, p))) && !s.holder.NoOne?
  {
    var t := UnlockStep(s, w, back, p);
    assert WkOK(s, w);
    assert Waiters(t) == Waiters(s);
    if p.ReleaseCas? && s.state.Nil? { ReleaseKeeps(s, w, back); }
  }

  /** Grants follow the waiting order in every run from every reachable state. */
  lemma {:induction false} RunServes(s: State, actions: seq<Action>)
    requires Inv(s)
    ensures FifoLock.Served(View(s), View(Run(s, actions)))
    decreases |actions|
  {
    if actions == [] {
      assert Waiters(s)[..|Waiters(s)|] == Waiters(s)[0..];
    } else {
      var before := actions[..|actions| - 1];
      RunServes(s, before);
      RunFromInv(s, before);
      StepIsFifo(Run(s, before), actions[|actions| - 1]);
      FifoLock.ServedStep(View(s), View(Run(s, before)), View(Run(s, actions)));
    }
  }

  /** A waiter with `k` others ahead of it is granted the lock by the `k + 1`st unlock. */
  lemma BoundedWaiting(s: State, k: nat, actions: seq<Action>)
    requires Inv(s) && k < |Waiters(s)|
    ensures var t := Run(s, actions);
            && (t.unlocks <= s.unlocks + k ==> Waiters(s)[k] in Waiters(t))
            && (t.unlocks == s.unlocks + k + 1 ==> t.granted == s.granted + Waiters(s)[..k + 1])
  {
    RunServes(s, actions);
    var t := Run(s, actions);
    var j := t.unlocks - s.unlocks;
    if j <= k { StillThere(Waiters(s), j, k); }
  }

  lemma StillThere(l: seq<nat>, j: int, k: nat)
    requires 0 <= j <= k < |l|
    ensures l[k] in l[j..]
  {
    assert l[k] == l[j..][k - j];
  }
}

/** What lock and unlock have done when they return, left alone: they do return. */
module CoMutexCalls {
  import opened Prelude
  import opened CoMutex
  import opened CoMutexInv

  function Turns(w: nat, k: nat): seq<Action> { seq(k, i => Act(w, Go)) }

  lemma {:induction false} RunApart(s: State, first: Action, rest: seq<Action>)
    ensures Run(s, [first] + rest) == Run(Next(s, first), rest)
    decreases |rest|
  {
    var all := [first] + rest;
    if rest != [] {
      assert all[..|all| - 1] == [first] + rest[..|rest| - 1] && all[|all| - 1] == rest[|rest| - 1];
      RunApart(s, first, rest[..|rest| - 1]);
    }
  }

  lemma OneTurn(s: State, w: nat, k: nat)
    ensures Run(s, Turns(w, k + 1)) == Run(Next(s, Act(w, Go)), Turns(w, k))
  {
    assert Turns(w, k + 1) == [Act(w, Go)] + Turns(w, k);
    RunApart(s, Act(w, Go), Turns(w, k));
  }

  /** lock, left alone, takes a free mutex and goes on. */
  lemma LockTakes(s: State, w: nat, c: nat)
    requires Inv(s) && w < |s.ws| && s.ws[w].pc == Running(c) && c < |s.cs| && s.cs[c].tag.Free? && s.state.Unlocked?
    ensures var t := Next(Next(Next(s, Act(w, Lock)), Act(w, Go)), Act(w, Go));
            && c < |t.cs| && w < |t.ws|
            && t.holder == Held(c) && t.cs[c].tag.Inside? && t.ws[w].pc == Running(c) && !t.state.Unlocked?
  {
    assert WkOK(s, w);
  }

  /** If the mutex is taken, lock suspends as the last of the waiters. */
  lemma LockWaits(s: State, w: nat, c: nat)
    requires Inv(s) && w < |s.ws| && s.ws[w].pc == Running(c) && c < |s.cs| && s.cs[c].tag.Free? && !s.state.Unlocked?
    ensures var t := Next(Next(Next(Next(s, Act(w, Lock)), Act(w, Go)), Act(w, Go)), Act(w, Go));
            && c < |t.cs| && w < |t.ws|
            && t.cs[c].tag.Waiting? && t.ws[w].pc.Idle? && Waiters(t) == Waiters(s) + [c] && t.holder == s.holder
  {
    var begun := Next(s, Act(w, Lock));
    var seen := Next(begun, Act(w, Go));
    var linked := Next(seen, Act(w, Go));
    StepKeepsInv(s, Act(w, Lock));
    StepKeepsInv(begun, Act(w, Go));
    StepKeepsInv(seen, Act(w, Go));
    LinkedLast(s, linked, w, c);
  }

  lemma LinkedLast(s: State, linked: State, w: nat, c: nat)
    requires Inv(linked) && w < |linked.ws| && c < |linked.cs| && !s.state.Unlocked?
    requires linked.ws[w].pc == Locking(c, Linked(s.state)) && linked.state == s.state && linked.holder == s.holder
    requires linked.rest == s.rest && Fifo(linked) == Fifo(s) && linked.stack == s.stack
    ensures var t := Next(linked, Act(w, Go));
            && c < |t.cs| && w < |t.ws|
            && t.cs[c].tag.Waiting? && t.ws[w].pc.Idle? && Waiters(t) == Waiters(s) + [c] && t.holder == s.holder
  {
    EnqueueKeeps(linked, w, c, s.state, Go);
  }

  /** How many steps an unlock still needs at most. */
  function Rank(s: State, p: UnlockPC): nat {
    match p
    case CheckLocked => |s.stack| + 8
    case ReadFifo => |s.stack| + 7
    case ReloadState => |s.stack| + 6
    case ReleaseCas => |s.stack| + 5
    case Exchange => |s.stack| + 4
    case Reverse(_) => |s.rest| + 3
    case Grant => 2
    case Advance => 1
  }

  /** The unlock that found the waiters `l` has let in the first of them, or freed the mutex. */
  predicate Served(s: State, t: State, w: nat, l: seq<nat>) {
    && w < |t.ws|
    && if l == [] then t.state.Unlocked? && t.granted == s.granted && Waiters(t) == []
       else
         && t.holder == Held(l[0]) && t.granted == s.granted + [l[0]] && Waiters(t) == l[1..]
         && t.ws[w].cache == Some(l[0])
  }

  /** A step before the mutex is passed on. */
  lemma BeforeGrant(s: State, w: nat, back: Option<nat>, p: UnlockPC)
    requires Inv(s) && w < |s.ws| && s.ws[w].pc == Unlocking(back, p) && !p.Grant? && !p.Advance?
    requires p.ReleaseCas? ==> !s.state.Nil?
    ensures var t := UnlockStep(s, w, back, p);
            && w < |t.ws| && t.ws[w].pc.Unlocking? && t.ws[w].pc.back == back && !t.ws[w].pc.unlock.Advance?
            && Rank(t, t.ws[w].pc.unlock) < Rank(s, p) && Waiters(t) == Waiters(s) && t.granted == s.granted
  {
    assert WkOK(s, w);
    if p.Exchange? {
      ExchangeKeeps(s, w, back);
    } else if p.Reverse? {
      ReverseFalls(s, w, back, p.lifo);
    } else {
      assert Waiters(UnlockStep(s, w, back, p)) == Waiters(s);
    }
  }

  lemma ReverseFalls(s: State, w: nat, back: Option<nat>, lifo: Ptr)
    requires Inv(s) && w < |s.ws| && s.ws[w].pc == Unlocking(back, Reverse(lifo))
    ensures var t := UnlockStep(s, w, back, Reverse(lifo));
            && w < |t.ws| && t.ws[w].pc.Unlocking? && t.ws[w].pc.back == back && !t.ws[w].pc.unlock.Advance?
            && Rank(t, t.ws[w].pc.unlock) < |s.rest| + 3 && Waiters(t) == Waiters(s) && t.granted == s.granted
  {
    assert WkOK(s, w);
    assert s.rest != [] && lifo == Node(s.rest[0]) && s.rest[0] < |s.cs|;
    ReverseKeeps(s, w, back, lifo);
  }

  lemma Granted(s: State, w: nat, back: Option<nat>)
    requires Inv(s) && w < |s.ws| && s.ws[w].pc == Unlocking(back, Grant)
    ensures var t := UnlockStep(s, w, back, Grant);
            w < |t.ws| && t.ws[w].pc == Unlocking(back, Advance) && Waiters(s) != [] && Served(s, t, w, Waiters(s))
  {
    assert WkOK(s, w);
    GrantOrder(s, w, back);
  }

  lemma Advanced(s: State, w: nat, back: Option<nat>, first: State, l: seq<nat>)
    requires Inv(s) && w < |s.ws| && s.ws[w].pc == Unlocking(back, Advance) && l != [] && Served(first, s, w, l)
    ensures var t := UnlockStep(s, w, back, Advance);
            w < |t.ws| && t.ws[w].pc == Done(back) && Served(first, t, w, l)
  {
    AdvanceKeeps(s, w, back);
  }

  lemma Freed(s: State, w: nat, back: Option<nat>)
    requires Inv(s) && w < |s.ws| && s.ws[w].pc == Unlocking(back, ReleaseCas) && s.state.Nil?
    ensures var t := UnlockStep(s, w, back, ReleaseCas);
            w < |t.ws| && t.ws[w].pc == Done(back) && Waiters(s) == [] && Served(s, t, w, [])
  {
    ReleaseKeeps(s, w, back);
    assert WkOK(s, w);
    assert Waiters(UnlockStep(s, w, back, ReleaseCas)) == [];
  }

  /** What one more step leaves: served and back, served and about to be back, or the same still to do. */
  predicate OneMore(s: State, t: State, w: nat, back: Option<nat>, p: UnlockPC, l: seq<nat>) {
    && w < |t.ws|
    && match t.ws[w].pc
       case Unlocking(b, q) =>
         b == back && if q.Advance? then l != [] && Served(s, t, w, l)
                      else Rank(t, q) < Rank(s, p) && Waiters(t) == l && t.granted == s.granted
       case pc => pc == Done(back) && Served(s, t, w, l)
  }

  lemma UnlockStepLeaves(s: State, w: nat, back: Option<nat>, p: UnlockPC)
    requires Inv(s) && w < |s.ws| && s.ws[w].pc == Unlocking(back, p) && !p.Advance?
    ensures OneMore(s, Next(s, Act(w, Go)), w, back, p, Waiters(s)) && Inv(Next(s, Act(w, Go)))
  {
    StepKeepsInv(s, Act(w, Go));
    if p.Grant? {
      Granted(s, w, back);
    } else if p.ReleaseCas? && s.state.Nil? {
      Freed(s, w, back);
    } else {
      BeforeGrant(s, w, back, p);
    }
  }

  predicate Back(s: State, t: State, w: nat, back: Option<nat>, l: seq<nat>) {
    w < |t.ws| && t.ws[w].pc == Done(back) && Served(s, t, w, l)
  }

  lemma AdvanceBack(s: State, t: State, w: nat, back: Option<nat>, l: seq<nat>)
    requires Inv(t) && w < |t.ws| && t.ws[w].pc == Unlocking(back, Advance) && l != [] && Served(s, t, w, l)
    ensures Back(s, Run(t, Turns(w, 1)), w, back, l)
  {
    Advanced(t, w, back, s, l);
    OneTurn(t, w, 0);
    assert Run(Next(t, Act(w, Go)), Turns(w, 0)) == Next(t, Act(w, Go));
  }

  /** unlock, left alone, returns, and has let in the first of the waiters or freed the mutex. */
  lemma {:induction false} UnlockReturns(s: State, w: nat) returns (k: nat)
    requires Inv(s) && w < |s.ws| && s.ws[w].pc.Unlocking? && !s.ws[w].pc.unlock.Advance?
    ensures Back(s, Run(s, Turns(w, k)), w, s.ws[w].pc.back, Waiters(s))
    decreases Rank(s, s.ws[w].pc.unlock)
  {
    var back, p, l := s.ws[w].pc.back, s.ws[w].pc.unlock, Waiters(s);
    var t := Next(s, Act(w, Go));
    UnlockStepLeaves(s, w, back, p);
    if !t.ws[w].pc.Unlocking? {
      k := 0;
      NoTurn(s, t, w, back, l);
    } else if t.ws[w].pc.unlock.Advance? {
      AdvanceBack(s, t, w, back, l);
      k := 1;
    } else {
      k := UnlockReturns(t, w);
      BackFrom(s, t, Run(t, Turns(w, k)), w, back, l);
    }
    OneTurn(s, w, k);
    k := k + 1;
  }

  lemma NoTurn(s: State, t: State, w: nat, back: Option<nat>, l: seq<nat>)
    requires w < |t.ws| && t.ws[w].pc == Done(back) && Served(s, t, w, l)
    ensures Back(s, Run(t, Turns(w, 0)), w, back, l)
  {
  }

  lemma BackFrom(s: State, t: State, u: State, w: nat, back: Option<nat>, l: seq<nat>)
    requires Back(t, u, w, back, l) && t.granted == s.granted
    ensures Back(s, u, w, back, l)
  {
  }

  /** The same from the call: the coroutine goes on outside. */
  lemma UnlockAlone(s: State, w: nat, c: nat) returns (k: nat)
    requires Inv(s) && w < |s.ws| && s.ws[w].pc == Running(c) && c < |s.cs| && s.cs[c].tag.Inside?
    ensures var t := Run(Next(s, Act(w, Unlock)), Turns(w, k));
            w < |t.ws| && t.ws[w].pc == Running(c) && Served(s, t, w, Waiters(s))
  {
    var t := Next(s, Act(w, Unlock));
    StepKeepsInv(s, Act(w, Unlock));
    assert Waiters(t) == Waiters(s);
    k := UnlockReturns(t, w);
    BackFrom(s, t, Run(t, Turns(w, k)), w, Some(c), Waiters(s));
  }

  /** Unlocking a mutex that nobody holds ends the program, and nothing else does that at this point. */
  lemma UnlockOfUnlocked(s: State, w: nat, back: Option<nat>)
    requires w < |s.ws| && s.ws[w].pc == Unlocking(back, CheckLocked)
    ensures w < |Next(s, Act(w, Go)).ws| && (Next(s, Act(w, Go)).ws[w].pc.Terminated? <==> s.state.Unlocked?)
  {
  }

  // From any state

  /** How many steps a lock still needs at most; what it has read may be out of date. */
  function LockRank(s: State, p: LockPC): nat {
    match p
    case LoadState => 5
    case Seen(st) => if st == s.state then if st.Unlocked? then 1 else 2 else if st.Unlocked? then 3 else 4
    case Linked(st) => if st == s.state then 1 else 3
  }

  /** lock, left alone, ends from wherever it is: inside, or suspended. */
  lemma {:induction false} LockEnds(s: State, w: nat, c: nat) returns (k: nat)
    requires Inv(s) && w < |s.ws| && s.ws[w].pc.Locking? && s.ws[w].pc.c == c && c < |s.cs|
    ensures var t := Run(s, Turns(w, k));
            && w < |t.ws| && c < |t.cs|
            && ((t.ws[w].pc == Running(c) && t.cs[c].tag.Inside?) || (t.ws[w].pc.Idle? && t.cs[c].tag.Waiting?))
    decreases LockRank(s, s.ws[w].pc.lock)
  {
    var t := Next(s, Act(w, Go));
    StepKeepsInv(s, Act(w, Go));
    LockFalls(s, w, c, s.ws[w].pc.lock);
    k := 0;
    if t.ws[w].pc.Locking? { k := LockEnds(t, w, c); }
    OneTurn(s, w, k);
    k := k + 1;
  }

  lemma LockFalls(s: State, w: nat, c: nat, p: LockPC)
    requires w < |s.ws| && s.ws[w].pc == Locking(c, p) && c < |s.cs|
    ensures var t := Next(s, Act(w, Go));
            && w < |t.ws| && c < |t.cs|
            && if t.ws[w].pc.Locking? then t.ws[w].pc.c == c && LockRank(t, t.ws[w].pc.lock) < LockRank(s, p)
               else (t.ws[w].pc == Running(c) && t.cs[c].tag.Inside?) || (t.ws[w].pc.Idle? && t.cs[c].tag.Waiting?)
  {
  }

  /** A worker resumes what is in its cache, or what is queued; a coroutine that yields can be taken by anyone. */
  lemma Resumes(s: State, w: nat, c: nat)
    requires w < |s.ws| && c < |s.cs|
    ensures s.ws[w].pc.Idle? && s.ws[w].cache == Some(c) ==>
              var t := Next(s, Act(w, TakeCache));
              w < |t.ws| && c < |t.cs| && t.ws[w] == Worker(None, Running(c)) && t.cs[c] == s.cs[c].(loc := On(w))
    ensures s.ws[w].pc.Idle? && s.cs[c].loc.Queued? ==>
              var t := Next(s, Act(w, TakeQueued(c)));
              w < |t.ws| && c < |t.cs| && t.ws[w].pc == Running(c) && t.ws[w].cache == s.ws[w].cache
              && t.cs[c] == s.cs[c].(loc := On(w))
    ensures s.ws[w].pc == Running(c) ==>
              var t := Next(s, Act(w, Yield));
              w < |t.ws| && c < |t.cs| && t.ws[w].pc.Idle? && t.cs[c] == s.cs[c].(loc := Queued)
  {
  }
}

/** What a step of the mutex machine leaves alone, for what is built on the mutex. */
module CoMutexMoves {
  import opened Prelude
  import opened CoMutex
  import opened CoMutexInv

  /** Only worker `v` took a step. */
  predicate Moved(s: State, t: State, v: nat) {
    |t.cs| == |s.cs| && |t.ws| == |s.ws| && forall w :: 0 <= w < |s.ws| && w != v ==> t.ws[w] == s.ws[w]
  }

  lemma UnlockMoves(s: State, w: nat, back: Option<nat>, p: UnlockPC)
    requires w < |s.ws|
    ensures Moved(s, UnlockStep(s, w, back, p), w)
  {
  }

  lemma RunMoves(s: State, w: nat, c: nat, op: Op)
    requires w < |s.ws| && c < |s.cs|
    ensures Moved(s, RunStep(s, w, c, op), w)
  {
  }

  lemma StepMoves(s: State, a: Action)
    requires a.w < |s.ws|
    ensures Moved(s, Next(s, a), a.w)
  {
    match s.ws[a.w].pc
    case Unlocking(back, p) => UnlockMoves(s, a.w, back, p);
    case Running(c) => if c < |s.cs| { RunMoves(s, a.w, c, a.op); }
    case _ =>
  }

  /** Whether the step parks or unparks `c`, or leaves that as it was. */
  predicate ParkedAfter(s: State, a: Action, c: nat)
    requires a.w < |s.ws| && c < |s.cs|
  {
    if s.ws[a.w].pc == Running(c) && a.op.Park? && s.cs[c].tag.Inside? then true
    else if s.ws[a.w].pc.Running? && s.ws[a.w].pc.c < |s.cs| && a.op == Unpark(c) then false
    else s.cs[c].tag.Parked?
  }

  /** Coroutines are parked by Park and unparked by Unpark; only the one that unlocks leaves the mutex. */
  predicate TagsMove(s: State, a: Action, t: State, c: nat)
    requires a.w < |s.ws| && c < |s.cs| == |t.cs|
  {
    && (t.cs[c].tag.Parked? <==> ParkedAfter(s, a, c))
    && (s.cs[c].tag.Inside? && !t.cs[c].tag.Inside? ==> s.ws[a.w].pc == Running(c) && (a.op.Unlock? || a.op.Park?))
  }

  lemma IdleTags(s: State, w: nat, op: Op, c: nat)
    requires Inv(s) && w < |s.ws| && c < |s.cs| && s.ws[w].pc.Idle?
    ensures |Next(s, Act(w, op)).cs| == |s.cs| && TagsMove(s, Act(w, op), Next(s, Act(w, op)), c)
  {
  }

  lemma RunTags(s: State, w: nat, op: Op, c: nat)
    requires Inv(s) && w < |s.ws| && c < |s.cs| && s.ws[w].pc.Running?
    ensures |Next(s, Act(w, op)).cs| == |s.cs| && TagsMove(s, Act(w, op), Next(s, Act(w, op)), c)
  {
    assert WkOK(s, w);
  }

  lemma LockTags(s: State, w: nat, op: Op, c: nat)
    requires Inv(s) && w < |s.ws| && c < |s.cs| && s.ws[w].pc.Locking?
    ensures |Next(s, Act(w, op)).cs| == |s.cs| && TagsMove(s, Act(w, op), Next(s, Act(w, op)), c)
  {
    assert WkOK(s, w);
  }

  lemma UnlockTags(s: State, w: nat, op: Op, c: nat)
    requires Inv(s) && w < |s.ws| && c < |s.cs| && s.ws[w].pc.Unlocking?
    ensures |Next(s, Act(w, op)).cs| == |s.cs| && TagsMove(s, Act(w, op), Next(s, Act(w, op)), c)
  {
    assert WkOK(s, w);
    if s.ws[w].pc.unlock.Grant? {
      GrantOrder(s, w, s.ws[w].pc.back);
      ListedWait(s, s.fifos[0]);
    }
  }

  lemma StepTags(s: State, a: Action, c: nat)
    requires Inv(s) && a.w < |s.ws| && c < |s.cs|
    ensures |Next(s, a).cs| == |s.cs| && TagsMove(s, a, Next(s, a), c)
  {
    match s.ws[a.w].pc
    case Idle => IdleTags(s, a.w, a.op, c);
    case Running(_) => RunTags(s, a.w, a.op, c);
    case Locking(_, _) => LockTags(s, a.w, a.op, c);
    case Unlocking(_, _) => UnlockTags(s, a.w, a.op, c);
    case Terminated =>
  }

  /** At most one coroutine is inside. */
  lemma OneInside(s: State, c: nat, d: nat)
    requires Inv(s) && c < |s.cs| && d < |s.cs| && s.cs[c].tag.Inside? && s.cs[d].tag.Inside?
    ensures c == d
  {
    assert CoOK(s, c) && CoOK(s, d);
  }

  /** A coroutine runs on one worker at a time, and on none while its handle is in a cache. */
  lemma OneWorker(s: State, v: nat, w: nat, c: nat)
    requires Inv(s) && v < |s.ws| && w < |s.ws| && RunsOn(s.ws[v].pc) == Some(c)
    requires RunsOn(s.ws[w].pc) == Some(c) || s.ws[w].cache == Some(c)
    ensures v == w && s.ws[w].cache != Some(c)
  {
    assert WkOK(s, v) && WkOK(s, w);
  }
}

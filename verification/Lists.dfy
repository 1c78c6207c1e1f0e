/** Sequences without repetition: queues and stacks in which nobody waits twice. */
module Lists {
  predicate NoDup(l: seq<nat>) { forall i, j :: 0 <= i < j < |l| ==> l[i] != l[j] }

  lemma TailNoDup(l: seq<nat>)
    requires NoDup(l) && l != []
    ensures NoDup(l[1..]) && l[0] !in l[1..]
    ensures forall c :: c in l <==> c == l[0] || c in l[1..]
  {
    assert l == [l[0]] + l[1..];
  }

  lemma PushNoDup(l: seq<nat>, x: nat)
    requires NoDup(l) && x !in l
    ensures NoDup(l + [x])
  {
  }
}

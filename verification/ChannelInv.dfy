/** What every operation on a channel keeps. */
module ChannelInv {
  import opened ChannelSpec
  import opened Lists

  /** Who waits, and when. */
  predicate Shape(c: Chan) {
    && |c.buffer| <= c.cap
    && (!c.closed && c.receivers != [] ==> c.buffer == [] && c.senders == [])
    && (c.senders != [] ==> !c.closed && |c.buffer| == c.cap)
    && (c.closed ==> c.numSenders == 0 || (c.numReceivers == 0 && c.receivers == []))
    && (!c.closed ==> c.numSenders >= 1 && c.numReceivers >= 1)
  }

  /** A message is in the buffer or with a receiver exactly when its send reports success. */
  predicate SendOK(c: Chan, i: nat) {
    && (i in c.senders <==> i in c.sends && c.sends[i] == Waiting)
    && (i in c.sends && c.sends[i] == Succeeded <==> i in c.buffer || i in c.log.to)
    && !(i in c.buffer && i in c.log.to)
  }

  /** Only a closed channel answers with the error. */
  predicate ErrorOK(c: Chan, x: nat) {
    && (x in c.sends && c.sends[x] == Failed ==> c.closed)
    && (x in c.recvs && c.recvs[x] == Refused ==> c.closed)
  }

  predicate RecvOK(c: Chan, j: nat, i: nat) {
    j in c.recvs && c.recvs[j] == Received(i) <==> i in c.log.to && c.log.to[i] == j
  }

  /** The queue holds the recvs that wait; after closing it still names those that were refused. */
  predicate QueueOK(c: Chan, j: nat) {
    && (j in c.receivers ==> j in c.recvs && c.recvs[j] == if c.closed then Refused else Awaiting)
    && (j in c.recvs && c.recvs[j] == Awaiting ==> j in c.receivers)
  }

  /** Arrival order: of waiting senders, of waiting receivers, of buffered messages. */
  predicate Ordered(c: Chan) {
    && (!c.closed ==> c.log.parkedSends == c.log.servedSends + c.senders)
    && c.log.servedSends <= c.log.parkedSends
    && c.log.parkedRecvs == c.log.servedRecvs + c.receivers
    && c.log.stored == c.log.taken + c.buffer
  }

  ghost predicate Inv(c: Chan) {
    && Shape(c) && Ordered(c)
    && NoDup(c.buffer) && NoDup(c.senders) && NoDup(c.receivers)
    && (forall i: nat :: SendOK(c, i))
    && (forall j: nat, i: nat :: RecvOK(c, j, i))
    && (forall j: nat :: QueueOK(c, j))
    && (forall x: nat :: ErrorOK(c, x))
  }

  lemma SendShape(c: Chan, i: nat)
    requires Inv(c) && Enabled(c, OpSend(i))
    ensures Shape(Send(c, i)) && Ordered(Send(c, i))
  {
  }

  lemma RecvShape(c: Chan, j: nat)
    requires Inv(c) && Enabled(c, OpRecv(j))
    ensures Shape(Recv(c, j)) && Ordered(Recv(c, j))
  {
  }

  /** A send that meets a waiting receiver. */
  lemma SendHands(c: Chan, i: nat)
    requires Inv(c) && Enabled(c, OpSend(i)) && c.receivers != []
    ensures Inv(Send(c, i))
  {
    var d := Send(c, i);
    SendShape(c, i);
    TailNoDup(c.receivers);
    assert SendOK(c, i);
    forall x: nat ensures SendOK(d, x) { assert SendOK(c, x); }
    forall j: nat, x: nat ensures RecvOK(d, j, x) {
      assert RecvOK(c, j, x) && RecvOK(c, j, i) && QueueOK(c, j);
    }
    forall j: nat ensures QueueOK(d, j) { assert QueueOK(c, j); }
    forall x: nat ensures ErrorOK(d, x) { assert ErrorOK(c, x); }
  }

  /** A send that stores its message, waits or fails. */
  lemma SendStays(c: Chan, i: nat)
    requires Inv(c) && Enabled(c, OpSend(i)) && c.receivers == []
    ensures Inv(Send(c, i))
  {
    var d := Send(c, i);
    SendShape(c, i);
    assert SendOK(c, i);
    PushNoDup(c.buffer, i);
    PushNoDup(c.senders, i);
    forall x: nat ensures SendOK(d, x) { assert SendOK(c, x); }
    forall j: nat, x: nat ensures RecvOK(d, j, x) { assert RecvOK(c, j, x); }
    forall j: nat ensures QueueOK(d, j) { assert QueueOK(c, j); }
    forall x: nat ensures ErrorOK(d, x) { assert ErrorOK(c, x); }
  }

  /** A recv that takes the message of a waiting sender. */
  lemma RecvPulls(c: Chan, j: nat)
    requires Inv(c) && Enabled(c, OpRecv(j)) && c.senders != []
    ensures Inv(Recv(c, j))
  {
    var d, i := Recv(c, j), c.senders[0];
    RecvShape(c, j);
    TailNoDup(c.senders);
    assert SendOK(c, i) && QueueOK(c, j);
    forall x: nat ensures SendOK(d, x) { assert SendOK(c, x); }
    forall k: nat, x: nat ensures RecvOK(d, k, x) { assert RecvOK(c, k, x) && RecvOK(c, j, x) && RecvOK(c, k, i); }
    forall k: nat ensures QueueOK(d, k) { assert QueueOK(c, k); }
    forall x: nat ensures ErrorOK(d, x) { assert ErrorOK(c, x); }
  }

  /** A recv that takes the oldest message of the buffer. */
  lemma RecvTakes(c: Chan, j: nat)
    requires Inv(c) && Enabled(c, OpRecv(j)) && c.senders == [] && c.buffer != []
    ensures Inv(Recv(c, j))
  {
    var d, i := Recv(c, j), c.buffer[0];
    RecvShape(c, j);
    TailNoDup(c.buffer);
    assert SendOK(c, i) && QueueOK(c, j);
    forall x: nat ensures SendOK(d, x) { assert SendOK(c, x); }
    forall k: nat, x: nat ensures RecvOK(d, k, x) { assert RecvOK(c, k, x) && RecvOK(c, j, x) && RecvOK(c, k, i); }
    forall k: nat ensures QueueOK(d, k) { assert QueueOK(c, k); }
    forall x: nat ensures ErrorOK(d, x) { assert ErrorOK(c, x); }
  }

  /** A recv that waits or is refused. */
  lemma RecvWaits(c: Chan, j: nat)
    requires Inv(c) && Enabled(c, OpRecv(j)) && c.senders == [] && c.buffer == []
    ensures Inv(Recv(c, j))
  {
    var d := Recv(c, j);
    RecvShape(c, j);
    assert QueueOK(c, j);
    PushNoDup(c.receivers, j);
    forall x: nat ensures SendOK(d, x) { assert SendOK(c, x); }
    forall k: nat, x: nat ensures RecvOK(d, k, x) { assert RecvOK(c, k, x); }
    forall k: nat ensures QueueOK(d, k) { assert QueueOK(c, k); }
    forall x: nat ensures ErrorOK(d, x) { assert ErrorOK(c, x); }
  }

  lemma DestroyKeeps(c: Chan, d: Chan)
    requires Inv(c) && c == d.(numSenders := c.numSenders, numReceivers := c.numReceivers)
    requires d.numSenders == 0 || (d.numReceivers == 0 && d.receivers == [])
    requires !c.closed
    ensures Inv(Destroy(d))
  {
    var e := Destroy(d);
    forall x: nat ensures SendOK(e, x) { assert SendOK(c, x); }
    forall k: nat, x: nat ensures RecvOK(e, k, x) { assert RecvOK(c, k, x); assert QueueOK(c, k); }
    forall k: nat ensures QueueOK(e, k) { assert QueueOK(c, k); }
    forall x: nat ensures ErrorOK(e, x) { assert ErrorOK(c, x); }
  }

  /** Adding or dropping a handle that is not the last. */
  lemma HandlesKeep(c: Chan, d: Chan)
    requires Inv(c) && c == d.(numSenders := c.numSenders, numReceivers := c.numReceivers) && Shape(d)
    ensures Inv(d)
  {
    forall x: nat ensures SendOK(d, x) { assert SendOK(c, x); }
    forall k: nat, x: nat ensures RecvOK(d, k, x) { assert RecvOK(c, k, x); }
    forall k: nat ensures QueueOK(d, k) { assert QueueOK(c, k); }
    forall x: nat ensures ErrorOK(d, x) { assert ErrorOK(c, x); }
  }

  lemma DropKeeps(c: Chan, op: Op)
    requires Inv(c) && Enabled(c, op) && (op.OpDropSender? || op.OpDropReceiver?)
    ensures Inv(Apply(c, op))
  {
    var d := if op.OpDropSender? then c.(numSenders := c.numSenders - 1) else c.(numReceivers := c.numReceivers - 1);
    if !c.closed && (d.numSenders == 0 || d.numReceivers == 0) {
      DestroyKeeps(c, d);
    } else {
      HandlesKeep(c, d);
    }
  }

  lemma StepKeepsInv(c: Chan, op: Op)
    requires Inv(c) && Enabled(c, op)
    ensures Inv(Apply(c, op))
  {
    match op
    case OpSend(i) => if c.receivers != [] { SendHands(c, i); } else { SendStays(c, i); }
    case OpRecv(j) =>
      if c.senders != [] { RecvPulls(c, j); } else if c.buffer != [] { RecvTakes(c, j); } else { RecvWaits(c, j); }
    case OpAddSender => HandlesKeep(c, Apply(c, op));
    case OpAddReceiver => HandlesKeep(c, Apply(c, op));
    case OpDropSender => DropKeeps(c, op);
    case OpDropReceiver => DropKeeps(c, op);
  }

  lemma {:induction false} RunInv(states: seq<Chan>, ops: seq<Op>, n: nat)
    requires Run(states, ops) && n <= |ops|
    ensures Inv(states[n])
  {
    if n > 0 {
      RunInv(states, ops, n - 1);
      assert Enabled(states[n - 1], ops[n - 1]) && states[n] == Apply(states[n - 1], ops[n - 1]);
      StepKeepsInv(states[n - 1], ops[n - 1]);
    }
  }

  // Conservation

  /** The receivers that got message `i`. */
  function Holders(c: Chan, i: nat): set<nat> { set j | j in c.recvs && c.recvs[j] == Received(i) }

  lemma {:induction false} NoDupOnce(s: seq<nat>, x: nat)
    requires NoDup(s)
    ensures multiset(s)[x] == if x in s then 1 else 0
  {
    if s != [] {
      TailNoDup(s);
      assert s == [s[0]] + s[1..];
      NoDupOnce(s[1..], x);
    }
  }

  /** A message is in one place, the buffer or one receiver, if its send succeeded, and nowhere if not. */
  lemma OnePlace(c: Chan, i: nat)
    requires Inv(c)
    ensures multiset(c.buffer)[i] + |Holders(c, i)| == if i in c.sends && c.sends[i] == Succeeded then 1 else 0
  {
    NoDupOnce(c.buffer, i);
    assert SendOK(c, i);
    if i in c.log.to {
      forall j: nat ensures j in Holders(c, i) <==> j == c.log.to[i] { assert RecvOK(c, j, i); }
      assert Holders(c, i) == {c.log.to[i]};
    } else {
      forall j: nat ensures j !in Holders(c, i) { assert RecvOK(c, j, i); }
      assert Holders(c, i) == {};
    }
  }

  /** In every reachable state the successful sends are the messages buffered and those delivered. */
  lemma RunConserves(states: seq<Chan>, ops: seq<Op>, n: nat, i: nat)
    requires Run(states, ops) && n <= |ops|
    ensures var c := states[n];
            multiset(c.buffer)[i] + |Holders(c, i)| == if i in c.sends && c.sends[i] == Succeeded then 1 else 0
  {
    RunInv(states, ops, n);
    OnePlace(states[n], i);
  }

  /** While the channel is open: a waiting receiver means nothing to receive, a waiting sender a full buffer. */
  lemma RunWaits(states: seq<Chan>, ops: seq<Op>, n: nat)
    requires Run(states, ops) && n <= |ops|
    ensures var c := states[n];
            && (!c.closed && c.receivers != [] ==> c.buffer == [] && c.senders == [])
            && (c.senders != [] ==> !c.closed && |c.buffer| == c.cap)
  {
    RunInv(states, ops, n);
  }

  /** Service in order of arrival, for each of the three queues. */
  lemma RunOrders(states: seq<Chan>, ops: seq<Op>, n: nat)
    requires Run(states, ops) && n <= |ops|
    ensures Ordered(states[n])
  {
    RunInv(states, ops, n);
  }

  /** Once closed, nothing waits: every operation pending at the close has its error. */
  lemma ClosedSettles(c: Chan, x: nat)
    requires Inv(c) && c.closed
    ensures x in c.sends ==> c.sends[x] != Waiting
    ensures x in c.recvs ==> c.recvs[x] != Awaiting
    ensures x in c.receivers ==> x in c.recvs && c.recvs[x] == Refused
  {
    assert SendOK(c, x) && QueueOK(c, x);
  }

  /** In every reachable state: an operation answered with the error was answered by a closed channel. */
  lemma RunErrors(states: seq<Chan>, ops: seq<Op>, n: nat, x: nat)
    requires Run(states, ops) && n <= |ops|
    ensures x in states[n].sends && states[n].sends[x] == Failed ==> states[n].closed
    ensures x in states[n].recvs && states[n].recvs[x] == Refused ==> states[n].closed
  {
    RunInv(states, ops, n);
    assert ErrorOK(states[n], x);
  }

  function Count(ops: seq<Op>, op: Op): nat {
    if ops == [] then 0 else Count(ops[..|ops| - 1], op) + if ops[|ops| - 1] == op then 1 else 0
  }

  /** The counts are those of the handles made and not yet dropped. */
  lemma {:induction false} RunHandles(states: seq<Chan>, ops: seq<Op>, n: nat)
    requires Run(states, ops) && n <= |ops|
    ensures states[n].numSenders == states[0].numSenders + Count(ops[..n], OpAddSender) - Count(ops[..n], OpDropSender)
    ensures states[n].numReceivers ==
            states[0].numReceivers + Count(ops[..n], OpAddReceiver) - Count(ops[..n], OpDropReceiver)
  {
    if n > 0 {
      RunHandles(states, ops, n - 1);
      assert ops[..n][..n - 1] == ops[..n - 1];
      assert Enabled(states[n - 1], ops[n - 1]) && states[n] == Apply(states[n - 1], ops[n - 1]);
    }
  }

  // What an operation answers at once

  /**
   * A send fails exactly on a closed channel that is full, waits exactly on an open one that is full, and
   * succeeds when a receiver is listed or there is room, closed or not.
   */
  lemma SendAnswers(c: Chan, i: nat)
    requires Inv(c) && i !in c.sends
    ensures var a, full := Send(c, i).sends[i], c.receivers == [] && |c.buffer| == c.cap;
            && (a == Failed <==> c.closed && full)
            && (a == Waiting <==> !c.closed && full)
            && (a == Succeeded <==> !full)
  {
    assert SendOK(c, i);
  }

  /** A recv is refused exactly on a closed channel with nothing to receive, and waits exactly on an open one. */
  lemma RecvAnswers(c: Chan, j: nat)
    requires Inv(c) && j !in c.recvs
    ensures var a, nothing := Recv(c, j).recvs[j], Outstanding(c) == [];
            && (a == Refused <==> c.closed && nothing)
            && (a == Awaiting <==> !c.closed && nothing)
            && (a.Received? <==> !nothing)
  {
  }

  /** The channel closes with the drop of the last sender or the last receiver, and with nothing else. */
  lemma ClosesWithLast(c: Chan, op: Op)
    requires Inv(c) && Enabled(c, op)
    ensures Apply(c, op).closed <==>
            c.closed || (op.OpDropSender? && c.numSenders == 1) || (op.OpDropReceiver? && c.numReceivers == 1)
  {
  }

  // The order across the buffer and the waiting senders

  /** The messages not yet received, in the order in which they were sent. */
  function Outstanding(c: Chan): seq<nat> { c.buffer + c.senders }

  /** A send that is neither handed over nor failed adds its message at the end. */
  lemma SendQueuesLast(c: Chan, i: nat)
    requires Inv(c) && i !in c.sends && c.receivers == []
    ensures Outstanding(Send(c, i)) == if Send(c, i).sends[i] == Failed then Outstanding(c) else Outstanding(c) + [i]
  {
  }

  /** A recv gets the oldest outstanding message exactly when not both the buffer and the list of senders hold one. */
  lemma RecvOldest(c: Chan, j: nat)
    requires Inv(c) && j !in c.recvs && Outstanding(c) != []
    ensures Recv(c, j).recvs[j] == Received(Outstanding(c)[0]) <==> c.buffer == [] || c.senders == []
    ensures Recv(c, j).recvs[j].Received? && Recv(c, j).recvs[j].message in Outstanding(c)
  {
    if c.buffer != [] && c.senders != [] {
      assert SendOK(c, c.buffer[0]) && c.buffer[0] in c.buffer && c.senders[0] in c.senders;
    }
  }

  // The list of receivers is not cleared on closing

  /** A send gives its message to a recv that was already refused exactly when it finds the list uncleared. */
  lemma LostExactly(c: Chan, i: nat)
    requires i !in c.sends && (forall j: nat :: QueueOK(c, j))
    ensures (exists j :: j in c.recvs && c.recvs[j] == Refused && Send(c, i).recvs[j] == Received(i)) <==>
            c.closed && c.receivers != []
  {
    if c.receivers != [] { assert QueueOK(c, c.receivers[0]); }
  }

  /**
   * That happens when a handle does not outlive the operation pending on it: the last receiver is
   * dropped while a recv waits, the recv is refused, then a send reports success.
   */
  lemma LostAfterClose()
    ensures var waiting := Recv(New(1, 1, 1), 0);
            var closed := DropReceiver(waiting);
            && waiting.recvs[0] == Awaiting && !Enabled(waiting, OpDropReceiver)
            && closed.closed && closed.recvs[0] == Refused && Enabled(closed, OpSend(5))
            && Send(closed, 5).sends[5] == Succeeded && Send(closed, 5).buffer == []
            && Send(closed, 5).recvs[0] == Received(5)
  {
  }

  /** Copy-assignment of the only sender to itself: it drops its count to 0 and then takes it back to 1. */
  function SelfAssignSender(c: Chan): Chan
    requires c.numSenders >= 1
  {
    var dropped := DropSender(c);
    dropped.(numSenders := dropped.numSenders + 1)
  }

  /** The same for receivers. */
  function SelfAssignReceiver(c: Chan): Chan
    requires c.numReceivers >= 1
  {
    var dropped := DropReceiver(c);
    dropped.(numReceivers := dropped.numReceivers + 1)
  }

  /** Closed with a stale list of receivers, and usable again: the next send is taken by the refused recv 0. */
  predicate Loses(closed: Chan) {
    && closed.numSenders == 1 && closed.numReceivers == 1
    && closed.closed && 0 in closed.recvs && closed.recvs[0] == Refused && Enabled(closed, OpSend(5))
    && Send(closed, 5).sends[5] == Succeeded && Send(closed, 5).recvs[0] == Received(5)
  }

  /**
   * It also happens after such an assignment of the only sender or the only receiver while a recv waits,
   * though every operation goes through a handle that outlives it.
   */
  lemma LostAfterSelfAssignment()
    ensures var waiting := Recv(New(1, 1, 1), 0);
            && Enabled(waiting, OpDropSender)
            && Loses(SelfAssignSender(waiting)) && Loses(SelfAssignReceiver(waiting))
  {
  }

  /** A self-assignment that is not of the only sender, or the only receiver, changes nothing. */
  lemma SelfAssignHarmless(c: Chan)
    requires c.numSenders >= 1 && c.numReceivers >= 1 && !c.closed
    ensures SelfAssignSender(c) == c <==> c.numSenders >= 2
    ensures SelfAssignReceiver(c) == c <==> c.numReceivers >= 2
  {
  }

  /** With handles that outlive their operations and whose count, once 0, stays 0: never. */
  lemma NeverLost(states: seq<Chan>, ops: seq<Op>, n: nat)
    requires Run(states, ops) && n < |ops| && ops[n].OpSend?
    ensures states[n].closed ==> states[n].receivers == []
  {
    RunInv(states, ops, n);
    assert Enabled(states[n], ops[n]);
  }
}

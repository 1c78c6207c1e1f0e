/**
 * The bounded channel as a state machine: every critical section is one step, and so is the
 * drop of the last handle, which closes the channel.  A message is named by the send that
 * carries it.
 */
module ChannelSpec {
  datatype SendState = Waiting | Succeeded | Failed
  datatype RecvState = Awaiting | Received(message: nat) | Refused

  /** `sends` and `recvs` are the results that the awaiters of the operations hold. */
  datatype Chan = Chan(
    cap: nat, buffer: seq<nat>, senders: seq<nat>, receivers: seq<nat>, closed: bool,
    numSenders: nat, numReceivers: nat, sends: map<nat, SendState>, recvs: map<nat, RecvState>, log: Log)

  /**
   * What a run did, in order: operations that had to wait, waiting operations that were served,
   * messages that went into the buffer and out of it; and who got each message.
   */
  datatype Log = Log(
    parkedSends: seq<nat>, servedSends: seq<nat>, parkedRecvs: seq<nat>, servedRecvs: seq<nat>,
    stored: seq<nat>, taken: seq<nat>, to: map<nat, nat>)

  function New(cap: nat, numSenders: nat, numReceivers: nat): Chan {
    Chan(cap, [], [], [], false, numSenders, numReceivers, map[], map[], Log([], [], [], [], [], [], map[]))
  }

  /** SendAwaiter: a waiting receiver first, then the buffer, else wait unless closed. */
  function Send(c: Chan, i: nat): Chan {
    if c.receivers != [] then
      var j := c.receivers[0];
      c.(receivers := c.receivers[1..], sends := c.sends[i := Succeeded], recvs := c.recvs[j := Received(i)],
         log := c.log.(servedRecvs := c.log.servedRecvs + [j], to := c.log.to[i := j]))
    else if |c.buffer| >= c.cap then
      if c.closed then c.(sends := c.sends[i := Failed])
      else c.(senders := c.senders + [i], sends := c.sends[i := Waiting],
              log := c.log.(parkedSends := c.log.parkedSends + [i]))
    else
      c.(buffer := c.buffer + [i], sends := c.sends[i := Succeeded], log := c.log.(stored := c.log.stored + [i]))
  }

  /** RecvAwaiter: a waiting sender first, then the buffer, else wait unless closed. */
  function Recv(c: Chan, j: nat): Chan {
    if c.senders != [] then
      var i := c.senders[0];
      c.(senders := c.senders[1..], sends := c.sends[i := Succeeded], recvs := c.recvs[j := Received(i)],
         log := c.log.(servedSends := c.log.servedSends + [i], to := c.log.to[i := j]))
    else if c.buffer == [] then
      if c.closed then c.(recvs := c.recvs[j := Refused])
      else c.(receivers := c.receivers + [j], recvs := c.recvs[j := Awaiting],
              log := c.log.(parkedRecvs := c.log.parkedRecvs + [j]))
    else
      var i := c.buffer[0];
      c.(buffer := c.buffer[1..], recvs := c.recvs[j := Received(i)],
         log := c.log.(taken := c.log.taken + [i], to := c.log.to[i := j]))
  }

  /** destroy: every waiting operation resumes with the error; only the list of senders is cleared. */
  function Destroy(c: Chan): Chan {
    if c.closed then c
    else c.(closed := true, senders := [],
            sends := map i | i in c.sends :: if i in c.senders then Failed else c.sends[i],
            recvs := map j | j in c.recvs :: if j in c.receivers then Refused else c.recvs[j])
  }

  function DropSender(c: Chan): Chan
    requires c.numSenders >= 1
  {
    var d := c.(numSenders := c.numSenders - 1);
    if d.numSenders == 0 then Destroy(d) else d
  }

  function DropReceiver(c: Chan): Chan
    requires c.numReceivers >= 1
  {
    var d := c.(numReceivers := c.numReceivers - 1);
    if d.numReceivers == 0 then Destroy(d) else d
  }

  datatype Op = OpSend(i: nat) | OpRecv(j: nat) | OpAddSender | OpAddReceiver | OpDropSender | OpDropReceiver

  /**
   * Operations go through a live handle, and a handle outlives the operations pending on it: the
   * last sender is not dropped while a send waits, nor the last receiver while a recv waits.  A
   * count that has reached 0 stays 0; self-assignment (ChannelInv.SelfAssignSender) is the way around that.
   */
  predicate Enabled(c: Chan, op: Op) {
    match op
    case OpSend(i) => c.numSenders >= 1 && i !in c.sends
    case OpRecv(j) => c.numReceivers >= 1 && j !in c.recvs
    case OpAddSender => c.numSenders >= 1
    case OpAddReceiver => c.numReceivers >= 1
    case OpDropSender => c.numSenders >= 1 && (c.numSenders == 1 ==> c.senders == [])
    case OpDropReceiver => c.numReceivers >= 1 && (c.numReceivers == 1 && !c.closed ==> c.receivers == [])
  }

  function Apply(c: Chan, op: Op): Chan
    requires Enabled(c, op)
  {
    match op
    case OpSend(i) => Send(c, i)
    case OpRecv(j) => Recv(c, j)
    case OpAddSender => c.(numSenders := c.numSenders + 1)
    case OpAddReceiver => c.(numReceivers := c.numReceivers + 1)
    case OpDropSender => DropSender(c)
    case OpDropReceiver => DropReceiver(c)
  }

  predicate Run(states: seq<Chan>, ops: seq<Op>) {
    && |states| == |ops| + 1 && states[0].numSenders >= 1 && states[0].numReceivers >= 1
    && states[0] == New(states[0].cap, states[0].numSenders, states[0].numReceivers)
    && forall n :: 0 <= n < |ops| ==> Enabled(states[n], ops[n]) && states[n + 1] == Apply(states[n], ops[n])
  }
}

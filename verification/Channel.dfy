/** The channel's fields and the critical sections that change them, proved against ChannelSpec. */
module Channels {
  import opened ChannelSpec
  import opened RingBuffers

  class Channel {
    var numSenders: nat
    var numReceivers: nat
    const buffer: RingBuffer<nat>
    var waitingSenders: seq<nat>
    var waitingReceivers: seq<nat>
    var closed: bool
    /** The results in the awaiters. */
    var sends: map<nat, SendState>
    var recvs: map<nat, RecvState>
    ghost var log: Log

    ghost predicate Valid()
      reads this, buffer, buffer.data
    {
      buffer.Valid()
    }

    ghost function View(): Chan
      requires Valid()
      reads this, buffer, buffer.data
    {
      Chan(buffer.data.Length - 1, buffer.Contents(), waitingSenders, waitingReceivers, closed,
           numSenders, numReceivers, sends, recvs, log)
    }

    constructor (numSenders: nat, numReceivers: nat, cap: nat)
      ensures Valid() && View() == New(cap, numSenders, numReceivers)
    {
      this.numSenders, this.numReceivers := numSenders, numReceivers;
      buffer := new RingBuffer<nat>(cap);
      waitingSenders, waitingReceivers, closed := [], [], false;
      sends, recvs := map[], map[];
      log := Log([], [], [], [], [], [], map[]);
    }

    /** SendAwaiter::await_suspend for the send named `i`; true when it has to wait. */
    method SendSuspend(i: nat) returns (suspend: bool)
      requires Valid()
      modifies this, buffer, buffer.data
      ensures Valid() && View() == Send(old(View()), i)
      ensures suspend <==> View().sends[i] == Waiting
    {
      if waitingReceivers != [] {
        var receiver := waitingReceivers[0];
        waitingReceivers := waitingReceivers[1..];
        recvs := recvs[receiver := Received(i)];
        sends := sends[i := Succeeded];
        log := log.(servedRecvs := log.servedRecvs + [receiver], to := log.to[i := receiver]);
        return false;
      }
      var full := buffer.IsFull();
      if full {
        if closed {
          sends := sends[i := Failed];
          return false;
        }
        waitingSenders := waitingSenders + [i];
        sends := sends[i := Waiting];
        log := log.(parkedSends := log.parkedSends + [i]);
        return true;
      } else {
        buffer.SafetyPush(i);
        sends := sends[i := Succeeded];
        log := log.(stored := log.stored + [i]);
        return false;
      }
    }

    /** RecvAwaiter::await_suspend for the recv named `j`. */
    method RecvSuspend(j: nat) returns (suspend: bool)
      requires Valid()
      modifies this, buffer, buffer.data
      ensures Valid() && View() == Recv(old(View()), j)
      ensures suspend <==> View().recvs[j] == Awaiting
    {
      if waitingSenders != [] {
        var sender := waitingSenders[0];
        waitingSenders := waitingSenders[1..];
        sends := sends[sender := Succeeded];
        recvs := recvs[j := Received(sender)];
        log := log.(servedSends := log.servedSends + [sender], to := log.to[sender := j]);
        return false;
      }
      var empty := buffer.IsEmpty();
      if empty {
        if closed {
          recvs := recvs[j := Refused];
          return false;
        }
        waitingReceivers := waitingReceivers + [j];
        recvs := recvs[j := Awaiting];
        log := log.(parkedRecvs := log.parkedRecvs + [j]);
        return true;
      } else {
        var i := buffer.SafetyPop();
        recvs := recvs[j := Received(i)];
        log := log.(taken := log.taken + [i], to := log.to[i := j]);
        return false;
      }
    }

    method AddSender()
      requires Valid()
      modifies this`numSenders
      ensures Valid() && View() == old(View()).(numSenders := old(numSenders) + 1)
    {
      numSenders := numSenders + 1;
    }

    method SubSender()
      requires Valid() && numSenders >= 1
      modifies this
      ensures Valid() && View() == DropSender(old(View()))
    {
      numSenders := numSenders - 1;
      if numSenders == 0 { CloseAll(); }
    }

    method AddReceiver()
      requires Valid()
      modifies this`numReceivers
      ensures Valid() && View() == old(View()).(numReceivers := old(numReceivers) + 1)
    {
      numReceivers := numReceivers + 1;
    }

    method SubReceiver()
      requires Valid() && numReceivers >= 1
      modifies this
      ensures Valid() && View() == DropReceiver(old(View()))
    {
      numReceivers := numReceivers - 1;
      if numReceivers == 0 { CloseAll(); }
    }

    /** destroy: resumes, with the error, every operation that waits. */
    method CloseAll()
      requires Valid()
      modifies this`closed, this`sends, this`recvs, this`waitingSenders
      ensures Valid() && View() == Destroy(old(View()))
    {
      if closed { return; }
      closed := true;
      sends := ResumeAll(sends, waitingSenders, Failed);
      recvs := ResumeAll(recvs, waitingReceivers, Refused);
      waitingSenders := [];
    }
  }

  /** Each operation of the list resumes with the result that its awaiter was made with, the error. */
  method ResumeAll<S>(results: map<nat, S>, list: seq<nat>, error: S) returns (r: map<nat, S>)
    ensures r == map i | i in results :: if i in list then error else results[i]
  {
    r := results;
    for n := 0 to |list|
      invariant r.Keys == results.Keys
      invariant forall i :: i in results ==> r[i] == if i in list[..n] then error else results[i]
    {
      if list[n] in r { r := r[list[n] := error]; }
    }
  }
}

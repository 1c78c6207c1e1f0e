/** The bounded ring under a channel: an array with one slot more than its capacity. */
module RingBuffers {
  import opened Prelude

  /** An index that has moved at most once past the end. */
  function Wrapped(i: nat, n: nat): (r: nat)
    requires n >= 1 && i <= n
    ensures r == if i == n then 0 else i
  {
    i % n
  }

  class RingBuffer<T(0)> {
    const data: array<T>
    var start: nat
    var end: nat

    ghost predicate Valid()
      reads this, data
    {
      data.Length >= 1 && start < data.Length && end < data.Length
    }

    /** The values from the oldest to the newest. */
    ghost function Contents(): (s: seq<T>)
      requires Valid()
      reads this, data
      ensures |s| <= data.Length - 1
    {
      if start <= end then data[start..end] else data[start..] + data[..end]
    }

    constructor (size: nat)
      ensures Valid() && Contents() == [] && data.Length == size + 1 && fresh(data)
    {
      data := new T[size + 1];
      start, end := 0, 0;
    }

    method IsEmpty() returns (r: bool)
      requires Valid()
      ensures r <==> Contents() == []
    {
      r := start == end;
    }

    method IsFull() returns (r: bool)
      requires Valid()
      ensures r <==> |Contents()| == data.Length - 1
    {
      r := Wrapped(end + 1, data.Length) == start;
    }

    /** The number of values, computed modulo the size of the array. */
    method Size() returns (r: nat)
      requires Valid()
      ensures r == |Contents()|
    {
      r := (end - start + data.Length) % data.Length;
    }

    method Capacity() returns (r: nat)
      requires Valid()
      ensures r == data.Length - 1
    {
      r := data.Length - 1;
    }

    method SafetyPush(x: T)
      requires Valid() && |Contents()| < data.Length - 1
      modifies this`end, data
      ensures Valid() && Contents() == old(Contents()) + [x]
    {
      data[end] := x;
      end := end + 1;
      end := Wrapped(end, data.Length);
    }

    method SafetyPop() returns (x: T)
      requires Valid() && Contents() != []
      modifies this`start
      ensures Valid() && old(Contents()) == [x] + Contents()
    {
      x := data[start];
      start := start + 1;
      start := Wrapped(start, data.Length);
    }

    method Push(x: T) returns (ok: bool)
      requires Valid()
      modifies this`end, data
      ensures Valid() && (ok <==> |old(Contents())| < data.Length - 1)
      ensures Contents() == if ok then old(Contents()) + [x] else old(Contents())
    {
      var full := IsFull();
      if full { return false; }
      SafetyPush(x);
      ok := true;
    }

    method Pop() returns (x: Option<T>)
      requires Valid()
      modifies this`start
      ensures Valid()
      ensures old(Contents()) == if x.None? then [] else [x.value] + Contents()
      ensures x.None? ==> Contents() == []
    {
      var empty := IsEmpty();
      if empty { return None; }
      var v := SafetyPop();
      x := Some(v);
    }
  }
}

/** The queue of contexts waiting for callback processing: a ring buffer in which
    a removed context leaves a hole that processing skips. */
module CallbackQueue {
  import opened Common

  type Pubnub = nat

  // ---------- the abstract queue ----------

  /** What is between tail and head; a removed context is a hole. */
  type Pending = seq<Option<Pubnub>>

  function Live(pending: Pending): seq<Pubnub> {
    if pending == [] then []
    else (if pending[0].Some? then [pending[0].value] else []) + Live(pending[1..])
  }

  /** Position of a context, or the length. */
  function Find(pending: Pending, pb: Pubnub): (i: nat)
    ensures i <= |pending|
    ensures i < |pending| ==> pending[i] == Some(pb)
    ensures forall k :: 0 <= k < i ==> pending[k] != Some(pb)
  {
    if pending == [] then 0 else if pending[0] == Some(pb) then 0 else 1 + Find(pending[1..], pb)
  }

  /** The first occurrence becomes a hole. */
  function Tombstoned(pending: Pending, pb: Pubnub): Pending {
    var i := Find(pending, pb);
    if i == |pending| then pending else pending[i := None]
  }

  // ---------- the ring ----------

  function Ring(data: seq<Option<Pubnub>>, tail: nat, head: nat): Pending
    requires tail < |data| && head < |data|
  {
    if tail <= head then data[tail..head] else data[tail..] + data[..head]
  }

  function After(i: nat, size: nat): nat {
    if i + 1 == size then 0 else i + 1
  }

  /** How far `i` is from the tail. */
  function Distance(tail: nat, i: nat, size: nat): int {
    if tail <= i then i - tail else i + size - tail
  }

  lemma RingSize(data: seq<Option<Pubnub>>, tail: nat, head: nat)
    requires tail < |data| && head < |data|
    ensures |Ring(data, tail, head)| == Distance(tail, head, |data|)
    ensures |Ring(data, tail, head)| <= |data| - 1
    ensures |Ring(data, tail, head)| == |data| - 1 <==> After(head, |data|) == tail
    ensures Ring(data, tail, head) == [] <==> head == tail
  {
  }

  lemma RingAt(data: seq<Option<Pubnub>>, tail: nat, head: nat, i: nat)
    requires tail < |data| && head < |data| && i < |data|
    requires Distance(tail, i, |data|) < Distance(tail, head, |data|)
    ensures Ring(data, tail, head)[Distance(tail, i, |data|)] == data[i]
  {
  }

  lemma RingPush(data: seq<Option<Pubnub>>, tail: nat, head: nat, pb: Pubnub)
    requires tail < |data| && head < |data| && After(head, |data|) != tail
    ensures Ring(data[head := Some(pb)], tail, After(head, |data|)) == Ring(data, tail, head) + [Some(pb)]
  {
  }

  lemma RingPop(data: seq<Option<Pubnub>>, tail: nat, head: nat)
    requires tail < |data| && head < |data| && head != tail
    ensures Ring(data, tail, head) == [data[tail]] + Ring(data, After(tail, |data|), head)
  {
  }

  lemma RingPunch(data: seq<Option<Pubnub>>, tail: nat, head: nat, i: nat)
    requires tail < |data| && head < |data| && i < |data|
    requires Distance(tail, i, |data|) < Distance(tail, head, |data|)
    ensures Ring(data[i := None], tail, head) == Ring(data, tail, head)[Distance(tail, i, |data|) := None]
  {
  }

  class ProcessingQueue {
    const apb: array<Option<Pubnub>>
    var head: nat
    var tail: nat

    ghost predicate Valid()
      reads this
    {
      head < apb.Length && tail < apb.Length
    }

    ghost function Contents(): Pending
      reads this, apb
      requires Valid()
    {
      Ring(apb[..], tail, head)
    }

    constructor (size: nat)
      requires size > 0
      ensures Valid() && apb.Length == size && fresh(apb) && Contents() == []
    {
      apb := new Option<Pubnub>[size](_ => None);
      head, tail := 0, 0;
    }

    /** Accepted exactly when fewer than `size - 1` entries, holes included, wait. */
    method EnqueueForProcessing(pb: Pubnub) returns (result: int)
      requires Valid()
      modifies this`head, apb
      ensures Valid()
      ensures result == if |old(Contents())| < apb.Length - 1 then 1 else -1
      ensures Contents() == if result == 1 then old(Contents()) + [Some(pb)] else old(Contents())
    {
      RingSize(apb[..], tail, head);
      var nextHead := head + 1;
      if nextHead == apb.Length { nextHead := 0; }
      if nextHead != tail {
        RingPush(apb[..], tail, head, pb);
        ghost var data := apb[..];
        apb[head] := Some(pb);
        assert apb[..] == data[head := Some(pb)];
        head := nextHead;
        result := 1;
      } else {
        result := -1;
      }
    }

    /** The scan both `requeue` and `remove` make, from the tail to the head. */
    method Search(pb: Pubnub) returns (found: bool, i: nat)
      requires Valid()
      ensures found <==> Find(Contents(), pb) < |Contents()|
      ensures found ==> i < apb.Length && Distance(tail, i, apb.Length) == Find(Contents(), pb)
    {
      ghost var pending := Contents();
      RingSize(apb[..], tail, head);
      i := tail;
      while i != head
        invariant i < apb.Length && Distance(tail, i, apb.Length) <= |pending|
        invariant forall k :: 0 <= k < Distance(tail, i, apb.Length) ==> pending[k] != Some(pb)
        decreases |pending| - Distance(tail, i, apb.Length)
      {
        RingAt(apb[..], tail, head, i);
        if apb[i] == Some(pb) { return true, i; }
        i := if i + 1 == apb.Length then 0 else i + 1;
      }
      return false, i;
    }

    /** Nothing to do when the context is already waiting. */
    method RequeueForProcessing(pb: Pubnub) returns (result: int)
      requires Valid()
      modifies this`head, apb
      ensures Valid()
      ensures result ==
        if Some(pb) in old(Contents()) then 0 else if |old(Contents())| < apb.Length - 1 then 1 else -1
      ensures Contents() == if result == 1 then old(Contents()) + [Some(pb)] else old(Contents())
    {
      var found, _ := Search(pb);
      if found { return 0; }
      result := EnqueueForProcessing(pb);
    }

    method RemoveFromQueue(pb: Pubnub)
      requires Valid()
      modifies apb
      ensures Valid() && Contents() == Tombstoned(old(Contents()), pb)
    {
      var found, i := Search(pb);
      if found {
        RingSize(apb[..], tail, head);
        RingPunch(apb[..], tail, head, i);
        ghost var data := apb[..];
        apb[i] := None;
        assert apb[..] == data[i := None];
      }
    }

    /** One turn of the processing loop: the oldest entry leaves the queue and is
        dispatched unless it is a hole. */
    method ProcessOne() returns (pb: Option<Pubnub>)
      requires Valid() && Contents() != []
      modifies this`tail
      ensures Valid()
      ensures pb == old(Contents())[0] && Contents() == old(Contents())[1..]
    {
      RingSize(apb[..], tail, head);
      RingPop(apb[..], tail, head);
      pb := apb[tail];
      tail := tail + 1;
      if tail == apb.Length { tail := 0; }
    }

    /** With nothing happening in between, a whole round dispatches what was live. */
    method ProcessQueue() returns (dispatched: seq<Pubnub>)
      requires Valid()
      modifies this`tail
      ensures Valid() && Contents() == [] && dispatched == Live(old(Contents()))
    {
      dispatched := [];
      RingSize(apb[..], tail, head);
      while head != tail
        invariant Valid()
        invariant dispatched + Live(Contents()) == Live(old(Contents()))
        decreases |Contents()|
      {
        RingSize(apb[..], tail, head);
        var pb := ProcessOne();
        if pb != None { dispatched := dispatched + [pb.value]; }
        RingSize(apb[..], tail, head);
      }
      RingSize(apb[..], tail, head);
    }
  }
}

/**
 The lock-free queue class, with its methods run one after another: each is an uninterrupted
 run of the protocol's steps.
 */
module SpscQueues {
  import opened SpscProtocol
  import opened Wrappers

  class SPSCRingBuffer<T(0)> {
    const size: uint32
    const buffer: array<T>
    ghost const default: T
    var head: uint32
    var tail: uint32
    ghost var sent: seq<T>
    ghost var received: seq<T>
    ghost var tailSeen: nat
    ghost var headSeen: nat

    ghost function State(): Machine<T>
      reads this, buffer
    {
      Machine(buffer[..], head as int, tail as int, sent, received, PIdle, CIdle, tailSeen, headSeen, default)
    }

    ghost predicate Valid()
      reads this, buffer
    {
      size as int == buffer.Length && Inv(State())
    }

    /** One cell more than asked for, so that a full queue differs from an empty one. */
    constructor (size: uint32, default: T)
      requires size as int + 1 < TWO_TO_THE_32
      ensures Valid() && fresh(buffer)
      ensures State() == Initial(size as int, default)
    {
      this.size := size + 1;
      this.default := default;
      buffer := new T[size + 1](_ => default);
      head, tail, sent, received, tailSeen, headSeen := 0, 0, [], [], 0, 0;
      new;
      InitialInv(size as int, default);
      assert buffer[..] == Initial(size as int, default).buffer;
    }

    method Push(item: T) returns (ok: bool)
      requires Valid()
      modifies this, buffer
      ensures Valid()
      ensures State() == PushAlone(old(State()), item)
      ensures ok <==> old(|sent| - |received|) < size as int - 1
    {
      ghost var was := State();
      PushAloneAppends(was, item);
      var h := head;
      var nextHead := (h + 1) % size;
      tailSeen := |received|;
      if nextHead == tail {
        return false;
      }
      buffer[h] := item;
      head := nextHead;
      sent := sent + [item];
      return true;
    }

    method Pop() returns (item: Option<T>)
      requires Valid()
      modifies this
      ensures Valid()
      ensures State() == PopAlone(old(State()))
      ensures item == if old(|received| < |sent|) then Some(old(sent)[old(|received|)]) else None
    {
      ghost var was := State();
      PopAloneDelivers(was);
      var t := tail;
      headSeen := |sent|;
      if t == head {
        return None;
      }
      item := Some(buffer[t]);
      tail := (t + 1) % size;
      received := received + [item.value];
    }

    method IsEmpty() returns (empty: bool)
      requires Valid()
      ensures empty <==> received == sent
    {
      SlotsApart(|received|, |sent|, size as int);
      return head == tail;
    }

    method IsFull() returns (full: bool)
      requires Valid()
      ensures full <==> |sent| - |received| == size as int - 1
    {
      NextIndex(|sent|, size as int);
      SlotsApart(|received|, |sent| + 1, size as int);
      var next := (head + 1) % size;
      return next == tail;
    }
  }
}

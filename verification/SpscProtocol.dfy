/**
 The lock-free queue as a protocol: one producer and one consumer, whose single loads, stores and
 buffer accesses interleave in any order. Each side may see an old value of the other's index,
 but never one older than it saw before.

 `sent` and `received` are what pushes and pops have published so far; the shared indices are
 their lengths modulo the number of cells. A cell read may return any value, the initial one
 included, that the release and acquire orderings do not rule out.
 */
module SpscProtocol {
  import opened Remainders
  import opened RingSpec
  import opened Wrappers

  /** Where the producer is inside `push`. */
  datatype Producer<T> =
    | PIdle
    | PLoadedHead(item: T, head: nat)
    | PHasRoom(item: T, head: nat, next: nat)
    | PWrote(next: nat, item: T)

  /** Where the consumer is inside `pop`. */
  datatype Consumer<T> =
    | CIdle
    | CLoadedTail(tail: nat)
    | CHasItem(tail: nat)
    | CRead(tail: nat, item: T)

  datatype Machine<T> = Machine(
    buffer: seq<T>, head: nat, tail: nat,
    sent: seq<T>, received: seq<T>,
    producer: Producer<T>, consumer: Consumer<T>,
    tailSeen: nat,  // how many pops the producer has seen
    headSeen: nat,  // how many pushes the consumer has seen
    default: T)     // what every cell holds before its first write

  datatype Step<T> =
    | PushLoadHead(item: T)
    | PushLoadTail(seen: nat)
    | PushWrite
    | PushStore
    | PopLoadTail
    | PopLoadHead(seen: nat)
    | PopRead(write: Option<nat>)
    | PopStore

  /** The cell of item number `i` among `n` cells. */
  function Slot(i: nat, n: nat): nat
    requires n > 0
    decreases i
  {
    if i < n then i else Slot(i - n, n)
  }

  /** The items written to cells so far; the last may not be published yet. */
  function Written<T>(m: Machine<T>): seq<T> {
    m.sent + (if m.producer.PWrote? then [m.producer.item] else [])
  }

  /** A push the consumer has seen wrote to the cell after write `i`. */
  ghost predicate Overwritten<T>(m: Machine<T>, cell: nat, i: int)
    requires |m.buffer| > 0
  {
    exists later: nat :: i < later < m.headSeen && Slot(later, |m.buffer|) == cell
  }

  /**
   What a read of a cell may return: the value of any write to it, or what it held at first, as
   long as no push the consumer has seen overwrote that.
   */
  ghost predicate Readable<T>(m: Machine<T>, cell: nat, write: Option<nat>)
    requires |m.buffer| > 0
  {
    match write
    case None => !Overwritten(m, cell, -1)
    case Some(i) => i < |Written(m)| && Slot(i, |m.buffer|) == cell && !Overwritten(m, cell, i)
  }

  ghost predicate Enabled<T>(m: Machine<T>, s: Step<T>)
    requires |m.buffer| > 0
  {
    match s
    case PushLoadHead(_) => m.producer.PIdle?
    case PushLoadTail(seen) => m.producer.PLoadedHead? && m.tailSeen <= seen <= |m.received|
    case PushWrite => m.producer.PHasRoom? && m.producer.head < |m.buffer|
    case PushStore => m.producer.PWrote?
    case PopLoadTail => m.consumer.CIdle?
    case PopLoadHead(seen) => m.consumer.CLoadedTail? && m.headSeen <= seen <= |m.sent|
    case PopRead(write) => m.consumer.CHasItem? && Readable(m, m.consumer.tail, write)
    case PopStore => m.consumer.CRead?
  }

  ghost function Next<T>(m: Machine<T>, s: Step<T>): (v: Machine<T>)
    requires |m.buffer| > 0 && Enabled(m, s)
    ensures |v.buffer| == |m.buffer|
  {
    var n := |m.buffer|;
    match s
    case PushLoadHead(item) => m.(producer := PLoadedHead(item, m.head))
    case PushLoadTail(seen) =>
      var next := (m.producer.head + 1) % n;
      if next == Slot(seen, n) then m.(producer := PIdle, tailSeen := seen)
      else m.(producer := PHasRoom(m.producer.item, m.producer.head, next), tailSeen := seen)
    case PushWrite =>
      m.(buffer := m.buffer[m.producer.head := m.producer.item], producer := PWrote(m.producer.next, m.producer.item))
    case PushStore =>
      m.(head := m.producer.next, sent := m.sent + [m.producer.item], producer := PIdle)
    case PopLoadTail => m.(consumer := CLoadedTail(m.tail))
    case PopLoadHead(seen) =>
      m.(consumer := if m.consumer.tail == Slot(seen, n) then CIdle else CHasItem(m.consumer.tail), headSeen := seen)
    case PopRead(write) =>
      m.(consumer := CRead(m.consumer.tail, if write.None? then m.default else Written(m)[write.value]))
    case PopStore =>
      m.(tail := (m.consumer.tail + 1) % n, received := m.received + [m.consumer.item], consumer := CIdle)
  }

  ghost predicate IsRun<T>(m: Machine<T>, steps: seq<Step<T>>)
    requires |m.buffer| > 0
    decreases |steps|
  {
    steps == [] || (Enabled(m, steps[0]) && IsRun(Next(m, steps[0]), steps[1..]))
  }

  ghost function Run<T>(m: Machine<T>, steps: seq<Step<T>>): (v: Machine<T>)
    requires |m.buffer| > 0 && IsRun(m, steps)
    ensures |v.buffer| == |m.buffer|
    decreases |steps|
  {
    if steps == [] then m else Run(Next(m, steps[0]), steps[1..])
  }

  /** A new queue for `size` items: one cell more, which stays free. */
  function Initial<T>(size: nat, default: T): Machine<T> {
    Machine(seq(size + 1, _ => default), 0, 0, [], [], PIdle, CIdle, 0, 0, default)
  }

  // Cells.

  lemma {:induction false} SlotNext(i: nat, n: nat)
    requires n > 0
    ensures Slot(i, n) < n
    ensures Slot(i + 1, n) == Wrap(Slot(i, n) + 1, n)
    decreases i
  {
    if i >= n {
      SlotNext(i - n, n);
    }
  }

  /** Within one lap different items have different cells. */
  lemma {:induction false} SlotsApart(i: nat, j: nat, n: nat)
    requires i <= j <= i + n && n > 0
    ensures Slot(i, n) == Slot(j, n) <==> j == i || j == i + n
    decreases i
  {
    if i >= n {
      SlotsApart(i - n, j - n, n);
    }
  }

  lemma {:induction false} SlotQuotient(i: nat, n: nat) returns (q: nat)
    requires n > 0
    ensures Slot(i, n) < n && i == q * n + Slot(i, n)
    decreases i
  {
    if i < n {
      q := 0;
    } else {
      var p := SlotQuotient(i - n, n);
      q := p + 1;
    }
  }

  lemma SlotIsRemainder(i: nat, n: nat)
    requires n > 0
    ensures Slot(i, n) == i % n
  {
    var q := SlotQuotient(i, n);
    RemainderIs(i, n, q, Slot(i, n));
  }

  // The invariant.

  ghost predicate Indices<T>(m: Machine<T>) {
    && |m.buffer| > 0
    && m.head == Slot(|m.sent|, |m.buffer|) && m.tail == Slot(|m.received|, |m.buffer|)
    && m.tailSeen <= |m.received| <= m.headSeen <= |m.sent| < m.tailSeen + |m.buffer|
  }

  ghost predicate Cells<T>(m: Machine<T>)
    requires |m.buffer| > 0
  {
    && |m.received| <= |m.sent|
    && m.received == m.sent[..|m.received|]
    && forall i :: |m.received| <= i < |m.sent| ==> Stored(m, i)
  }

  ghost predicate Stored<T>(m: Machine<T>, i: nat)
    requires |m.buffer| > 0 && i < |m.sent|
  {
    Slot(i, |m.buffer|) < |m.buffer| && m.buffer[Slot(i, |m.buffer|)] == m.sent[i]
  }

  ghost predicate ProducerOk<T>(m: Machine<T>)
    requires |m.buffer| > 0
  {
    match m.producer
    case PIdle => true
    case PLoadedHead(_, h) => h == m.head
    case PHasRoom(_, h, next) =>
      h == m.head && next == Slot(|m.sent| + 1, |m.buffer|) && |m.sent| + 1 < m.tailSeen + |m.buffer|
    case PWrote(next, item) =>
      && next == Slot(|m.sent| + 1, |m.buffer|) && |m.sent| + 1 < m.tailSeen + |m.buffer|
      && m.head < |m.buffer| && m.buffer[m.head] == item
  }

  ghost predicate ConsumerOk<T>(m: Machine<T>)
    requires |m.buffer| > 0
  {
    match m.consumer
    case CIdle => true
    case CLoadedTail(t) => t == m.tail
    case CHasItem(t) => t == m.tail && |m.received| < m.headSeen
    case CRead(t, item) =>
      && t == m.tail && |m.received| < m.headSeen && |m.received| < |m.sent|
      && item == m.sent[|m.received|]
  }

  ghost predicate Inv<T>(m: Machine<T>) {
    Indices(m) && Cells(m) && ProducerOk(m) && ConsumerOk(m)
  }

  lemma InitialInv<T>(size: nat, default: T)
    ensures Inv(Initial(size, default))
  {
  }

  lemma NextIndex(i: nat, n: nat)
    requires n > 0
    ensures Slot(i, n) < n && (Slot(i, n) + 1) % n == Slot(i + 1, n)
  {
    SlotNext(i, n);
    WrapIsRemainder(Slot(i, n) + 1, n);
  }

  lemma WriteKeepsInv<T>(m: Machine<T>)
    requires Inv(m) && Enabled(m, PushWrite)
    ensures Inv(Next(m, PushWrite))
  {
    var v, n := Next(m, PushWrite), |m.buffer|;
    forall i | |v.received| <= i < |v.sent|
      ensures Stored(v, i)
    {
      assert Stored(m, i);
      SlotsApart(i, |m.sent|, n);
    }
  }

  lemma StoreHeadKeepsInv<T>(m: Machine<T>)
    requires Inv(m) && Enabled(m, PushStore)
    ensures Inv(Next(m, PushStore))
  {
    var v := Next(m, PushStore);
    forall i | |v.received| <= i < |v.sent|
      ensures Stored(v, i)
    {
      if i < |m.sent| {
        assert Stored(m, i);
      }
    }
  }

  /**
   However late the reads of cells are, only one value can be read: the item that is due. Neither an
   older item nor what the cell held at first is left.
   */
  lemma OnlyDueIsReadable<T>(m: Machine<T>, write: Option<nat>)
    requires Inv(m) && m.consumer.CHasItem?
    ensures Readable(m, m.consumer.tail, write) <==> write == Some(|m.received|)
  {
    var due, n := |m.received|, |m.buffer|;
    assert due < m.headSeen && Slot(due, n) == m.consumer.tail;
    if write.Some? && Readable(m, m.consumer.tail, write) && write.value >= due {
      SlotsApart(due, write.value, n);
    }
    if later: nat :| due < later < m.headSeen && Slot(later, n) == m.consumer.tail {
      SlotsApart(due, later, n);
    }
  }

  lemma ReadKeepsInv<T>(m: Machine<T>, write: Option<nat>)
    requires Inv(m) && Enabled(m, PopRead(write))
    ensures Inv(Next(m, PopRead(write)))
  {
    OnlyDueIsReadable(m, write);
    SameCells(m, Next(m, PopRead(write)));
  }

  lemma StoreTailKeepsInv<T>(m: Machine<T>)
    requires Inv(m) && Enabled(m, PopStore)
    ensures Inv(Next(m, PopStore))
  {
    NextIndex(|m.received|, |m.buffer|);
    var v := Next(m, PopStore);
    forall i | |v.received| <= i < |v.sent|
      ensures Stored(v, i)
    {
      assert Stored(m, i);
    }
  }

  lemma StartKeepsInv<T>(m: Machine<T>, s: Step<T>)
    requires Inv(m) && Enabled(m, s) && (s.PushLoadHead? || s.PopLoadTail?)
    ensures Inv(Next(m, s))
  {
    SameCells(m, Next(m, s));
  }

  lemma SameCells<T>(m: Machine<T>, v: Machine<T>)
    requires |m.buffer| > 0 && Cells(m) && v.buffer == m.buffer && v.sent == m.sent && v.received == m.received
    ensures Cells(v)
  {
    forall i | |v.received| <= i < |v.sent|
      ensures Stored(v, i)
    {
      assert Stored(m, i);
    }
  }

  lemma LoadTailKeepsInv<T>(m: Machine<T>, seen: nat)
    requires Inv(m) && Enabled(m, PushLoadTail(seen))
    ensures Inv(Next(m, PushLoadTail(seen)))
  {
    NextIndex(|m.sent|, |m.buffer|);
    SlotsApart(seen, |m.sent| + 1, |m.buffer|);
    SameCells(m, Next(m, PushLoadTail(seen)));
  }

  lemma LoadHeadKeepsInv<T>(m: Machine<T>, seen: nat)
    requires Inv(m) && Enabled(m, PopLoadHead(seen))
    ensures Inv(Next(m, PopLoadHead(seen)))
  {
    SlotsApart(|m.received|, seen, |m.buffer|);
    SameCells(m, Next(m, PopLoadHead(seen)));
  }

  lemma StepKeepsInv<T>(m: Machine<T>, s: Step<T>)
    requires Inv(m) && Enabled(m, s)
    ensures Inv(Next(m, s))
  {
    match s
    case PushWrite => WriteKeepsInv(m);
    case PushStore => StoreHeadKeepsInv(m);
    case PopRead(write) => ReadKeepsInv(m, write);
    case PopStore => StoreTailKeepsInv(m);
    case PushLoadTail(seen) => LoadTailKeepsInv(m, seen);
    case PopLoadHead(seen) => LoadHeadKeepsInv(m, seen);
    case _ => StartKeepsInv(m, s);
  }

  lemma {:induction false} RunKeepsInv<T>(m: Machine<T>, steps: seq<Step<T>>)
    requires Inv(m) && IsRun(m, steps)
    ensures Inv(Run(m, steps))
    decreases |steps|
  {
    if steps != [] {
      StepKeepsInv(m, steps[0]);
      RunKeepsInv(Next(m, steps[0]), steps[1..]);
    }
  }

  // What holds over every interleaving.

  /** Pops deliver a prefix of the pushes, and never are more than `size` items in the queue. */
  lemma PopsArePrefix<T>(size: nat, default: T, steps: seq<Step<T>>)
    requires IsRun(Initial(size, default), steps)
    ensures var m := Run(Initial(size, default), steps);
            m.received <= m.sent && |m.sent| - |m.received| <= size
  {
    InitialInv(size, default);
    RunKeepsInv(Initial(size, default), steps);
  }

  /** Every cell access is in range, and no cell is written while it is about to be read. */
  lemma NeverSameCell<T>(size: nat, default: T, steps: seq<Step<T>>)
    requires IsRun(Initial(size, default), steps)
    ensures var m := Run(Initial(size, default), steps);
            && (m.producer.PHasRoom? ==> m.producer.head < size + 1)
            && (m.consumer.CHasItem? ==> m.consumer.tail < size + 1)
            && (m.producer.PHasRoom? && m.consumer.CHasItem? ==> m.producer.head != m.consumer.tail)
  {
    InitialInv(size, default);
    RunKeepsInv(Initial(size, default), steps);
    var m := Run(Initial(size, default), steps);
    SlotNext(|m.sent|, |m.buffer|);
    SlotNext(|m.received|, |m.buffer|);
    SlotsApart(|m.received|, |m.sent|, |m.buffer|);
  }

  /** A push fails exactly when, with the pops it sees, `size` items are in the queue. */
  lemma PushFailsWhenFull<T>(size: nat, default: T, steps: seq<Step<T>>, seen: nat)
    requires IsRun(Initial(size, default), steps)
    requires Enabled(Run(Initial(size, default), steps), PushLoadTail(seen))
    ensures var m := Run(Initial(size, default), steps);
            && (Next(m, PushLoadTail(seen)).producer.PIdle? <==> |m.sent| - seen == size)
            && (seen == |m.received| && |m.sent| - |m.received| < size
                ==> Next(m, PushLoadTail(seen)).producer.PHasRoom?)
  {
    InitialInv(size, default);
    RunKeepsInv(Initial(size, default), steps);
    var m := Run(Initial(size, default), steps);
    NextIndex(|m.sent|, |m.buffer|);
    SlotsApart(seen, |m.sent| + 1, |m.buffer|);
  }

  /** A pop fails exactly when, with the pushes it sees, the queue is empty. */
  lemma PopFailsWhenEmpty<T>(size: nat, default: T, steps: seq<Step<T>>, seen: nat)
    requires IsRun(Initial(size, default), steps)
    requires Enabled(Run(Initial(size, default), steps), PopLoadHead(seen))
    ensures var m := Run(Initial(size, default), steps);
            && (Next(m, PopLoadHead(seen)).consumer.CIdle? <==> seen == |m.received|)
            && (seen == |m.sent| && |m.received| < |m.sent| ==> Next(m, PopLoadHead(seen)).consumer.CHasItem?)
  {
    InitialInv(size, default);
    RunKeepsInv(Initial(size, default), steps);
    var m := Run(Initial(size, default), steps);
    SlotsApart(|m.received|, seen, |m.buffer|);
  }

  // What a run sends and receives, read off its steps.

  /** The load of the tail finds room for the item. */
  ghost predicate FindsRoom<T>(m: Machine<T>, s: Step<T>)
    requires |m.buffer| > 0 && Enabled(m, s)
  {
    s.PushLoadTail? && Next(m, s).producer.PHasRoom?
  }

  /** The load of the head finds an item. */
  ghost predicate FindsItem<T>(m: Machine<T>, s: Step<T>)
    requires |m.buffer| > 0 && Enabled(m, s)
  {
    s.PopLoadHead? && Next(m, s).consumer.CHasItem?
  }

  /**
   The items of the pushes that find room, in order: each is the item of the last step that began a
   push, which `offered` holds for a push already begun.
   */
  ghost function Accepted<T>(m: Machine<T>, steps: seq<Step<T>>, offered: seq<T>): seq<T>
    requires |m.buffer| > 0 && IsRun(m, steps)
    decreases |steps|
  {
    if steps == [] then [] else
      var next := Accepted(Next(m, steps[0]), steps[1..], if steps[0].PushLoadHead? then [steps[0].item] else offered);
      if FindsRoom(m, steps[0]) then offered + next else next
  }

  /** How many pops find an item. */
  ghost function Found<T>(m: Machine<T>, steps: seq<Step<T>>): nat
    requires |m.buffer| > 0 && IsRun(m, steps)
    decreases |steps|
  {
    if steps == [] then 0 else
      (if FindsItem(m, steps[0]) then 1 else 0) + Found(Next(m, steps[0]), steps[1..])
  }

  function PushStores<T>(steps: seq<Step<T>>): nat {
    if steps == [] then 0 else (if steps[0].PushStore? then 1 else 0) + PushStores(steps[1..])
  }

  function PopStores<T>(steps: seq<Step<T>>): nat {
    if steps == [] then 0 else (if steps[0].PopStore? then 1 else 0) + PopStores(steps[1..])
  }

  /** The item of a push that found room and has yet to store. */
  function Sending<T>(p: Producer<T>): seq<T> {
    match p
    case PHasRoom(item, _, _) => [item]
    case PWrote(_, item) => [item]
    case _ => []
  }

  /** Whether a pop found an item and has yet to store. */
  function Receiving<T>(c: Consumer<T>): nat {
    if c.CHasItem? || c.CRead? then 1 else 0
  }

  ghost predicate Offers<T>(m: Machine<T>, offered: seq<T>) {
    m.producer.PLoadedHead? ==> offered == [m.producer.item]
  }

  lemma StepSends<T>(m: Machine<T>, s: Step<T>, offered: seq<T>)
    requires |m.buffer| > 0 && Enabled(m, s) && Offers(m, offered)
    ensures var v := Next(m, s);
            && Offers(v, if s.PushLoadHead? then [s.item] else offered)
            && v.sent + Sending(v.producer) == m.sent + Sending(m.producer) + (if FindsRoom(m, s) then offered else [])
            && |v.sent| == |m.sent| + (if s.PushStore? then 1 else 0)
            && |v.received| == |m.received| + (if s.PopStore? then 1 else 0)
            && |v.received| + Receiving(v.consumer)
                 == |m.received| + Receiving(m.consumer) + (if FindsItem(m, s) then 1 else 0)
  {
  }

  lemma {:induction false} RunSends<T>(m: Machine<T>, steps: seq<Step<T>>, offered: seq<T>)
    requires |m.buffer| > 0 && IsRun(m, steps) && Offers(m, offered)
    ensures var v := Run(m, steps);
            && v.sent + Sending(v.producer) == m.sent + Sending(m.producer) + Accepted(m, steps, offered)
            && |v.sent| == |m.sent| + PushStores(steps)
            && |v.received| == |m.received| + PopStores(steps)
            && |v.received| + Receiving(v.consumer) == |m.received| + Receiving(m.consumer) + Found(m, steps)
    decreases |steps|
  {
    if steps != [] {
      StepSends(m, steps[0], offered);
      RunSends(Next(m, steps[0]), steps[1..], if steps[0].PushLoadHead? then [steps[0].item] else offered);
    }
  }

  /**
   Over every interleaving no accepted push is lost: what was sent, with the item a push is about to
   store, is the items of the pushes that found room, in order, and every store sends one. Likewise
   every pop that finds an item receives one.
   */
  lemma AcceptedIsSent<T>(size: nat, default: T, steps: seq<Step<T>>)
    requires IsRun(Initial(size, default), steps)
    ensures var start := Initial(size, default);
            var m := Run(start, steps);
            && m.sent + Sending(m.producer) == Accepted(start, steps, [])
            && |m.sent| == PushStores(steps)
            && |m.received| == PopStores(steps)
            && |m.received| + Receiving(m.consumer) == Found(start, steps)
  {
    RunSends(Initial(size, default), steps, []);
  }

  // A push or a pop that nothing interrupts.

  ghost function PushAlone<T>(m: Machine<T>, item: T): (v: Machine<T>)
    requires Inv(m) && m.producer.PIdle?
    ensures Inv(v)
  {
    var a := Next(m, PushLoadHead(item));
    StepKeepsInv(m, PushLoadHead(item));
    var b := Next(a, PushLoadTail(|m.received|));
    StepKeepsInv(a, PushLoadTail(|m.received|));
    SlotNext(|m.sent|, |m.buffer|);
    if b.producer.PIdle? then b else
      StepKeepsInv(b, PushWrite);
      StepKeepsInv(Next(b, PushWrite), PushStore);
      Next(Next(b, PushWrite), PushStore)
  }

  ghost function PopAlone<T>(m: Machine<T>): (v: Machine<T>)
    requires Inv(m) && m.consumer.CIdle?
    ensures Inv(v)
  {
    var a := Next(m, PopLoadTail);
    StepKeepsInv(m, PopLoadTail);
    var b := Next(a, PopLoadHead(|m.sent|));
    StepKeepsInv(a, PopLoadHead(|m.sent|));
    if b.consumer.CIdle? then b else
      OnlyDueIsReadable(b, Some(|m.received|));
      StepKeepsInv(b, PopRead(Some(|m.received|)));
      StepKeepsInv(Next(b, PopRead(Some(|m.received|))), PopStore);
      Next(Next(b, PopRead(Some(|m.received|))), PopStore)
  }

  /** Alone, a push appends exactly when fewer than `size` items are in the queue. */
  lemma PushAloneAppends<T>(m: Machine<T>, item: T)
    requires Inv(m) && m.producer.PIdle?
    ensures m.head < |m.buffer|
    ensures (m.head + 1) % |m.buffer| == m.tail <==> |m.sent| - |m.received| == |m.buffer| - 1
    ensures PushAlone(m, item) ==
            if |m.sent| - |m.received| < |m.buffer| - 1
            then m.(buffer := m.buffer[m.head := item], head := (m.head + 1) % |m.buffer|,
                    sent := m.sent + [item], tailSeen := |m.received|)
            else m.(tailSeen := |m.received|)
  {
    NextIndex(|m.sent|, |m.buffer|);
    SlotsApart(|m.received|, |m.sent| + 1, |m.buffer|);
  }

  /** Alone, a pop delivers the oldest item exactly when there is one. */
  lemma PopAloneDelivers<T>(m: Machine<T>)
    requires Inv(m) && m.consumer.CIdle?
    ensures m.tail < |m.buffer|
    ensures m.tail == m.head <==> |m.received| == |m.sent|
    ensures |m.received| < |m.sent| ==> m.buffer[m.tail] == m.sent[|m.received|]
    ensures PopAlone(m) ==
            if |m.received| < |m.sent|
            then m.(tail := (m.tail + 1) % |m.buffer|, received := m.received + [m.sent[|m.received|]],
                    headSeen := |m.sent|)
            else m.(headSeen := |m.sent|)
  {
    SlotNext(|m.received|, |m.buffer|);
    SlotsApart(|m.received|, |m.sent|, |m.buffer|);
    if |m.received| < |m.sent| {
      assert Stored(m, |m.received|);
    }
  }

  /** The steps of a push that nothing interrupts. */
  function PushSteps<T>(m: Machine<T>, item: T): seq<Step<T>> {
    [PushLoadHead(item), PushLoadTail(|m.received|)]
    + if |m.sent| - |m.received| < |m.buffer| - 1 then [PushWrite, PushStore] else []
  }

  function PopSteps<T>(m: Machine<T>): seq<Step<T>> {
    [PopLoadTail, PopLoadHead(|m.sent|)]
    + if |m.received| < |m.sent| then [PopRead(Some(|m.received|)), PopStore] else []
  }

  lemma OneStepRun<T>(m: Machine<T>, s: Step<T>, rest: seq<Step<T>>)
    requires |m.buffer| > 0 && Enabled(m, s) && IsRun(Next(m, s), rest)
    ensures IsRun(m, [s] + rest) && Run(m, [s] + rest) == Run(Next(m, s), rest)
  {
    assert ([s] + rest)[1..] == rest;
  }

  lemma TwoStepRun<T>(m: Machine<T>, s: Step<T>, t: Step<T>, rest: seq<Step<T>>)
    requires |m.buffer| > 0 && Enabled(m, s) && Enabled(Next(m, s), t) && IsRun(Next(Next(m, s), t), rest)
    ensures IsRun(m, [s, t] + rest) && Run(m, [s, t] + rest) == Run(Next(Next(m, s), t), rest)
  {
    OneStepRun(Next(m, s), t, rest);
    OneStepRun(m, s, [t] + rest);
    assert [s] + ([t] + rest) == [s, t] + rest;
  }

  /** With room the two loads of a push leave the producer about to write. */
  lemma PushLoads<T>(m: Machine<T>, item: T)
    requires Inv(m) && m.producer.PIdle?
    ensures Enabled(m, PushLoadHead(item)) && Enabled(Next(m, PushLoadHead(item)), PushLoadTail(|m.received|))
    ensures var b := Next(Next(m, PushLoadHead(item)), PushLoadTail(|m.received|));
            if |m.sent| - |m.received| < |m.buffer| - 1
            then Enabled(b, PushWrite) && Enabled(Next(b, PushWrite), PushStore)
                 && PushAlone(m, item) == Next(Next(b, PushWrite), PushStore)
            else PushAlone(m, item) == b
  {
    NextIndex(|m.sent|, |m.buffer|);
    SlotsApart(|m.received|, |m.sent| + 1, |m.buffer|);
  }

  /** They are a run of the protocol, and what they leave is what the contracts of the class speak of. */
  lemma PushAloneIsRun<T>(m: Machine<T>, item: T)
    requires Inv(m) && m.producer.PIdle?
    ensures IsRun(m, PushSteps(m, item)) && Run(m, PushSteps(m, item)) == PushAlone(m, item)
  {
    PushLoads(m, item);
    var a := Next(m, PushLoadHead(item));
    var b := Next(a, PushLoadTail(|m.received|));
    if |m.sent| - |m.received| < |m.buffer| - 1 {
      TwoStepRun(b, PushWrite, PushStore, []);
      assert [PushWrite, PushStore] + [] == [Step<T>.PushWrite, PushStore];
      TwoStepRun(m, PushLoadHead(item), PushLoadTail(|m.received|), [PushWrite, PushStore]);
    } else {
      TwoStepRun(m, PushLoadHead(item), PushLoadTail(|m.received|), []);
    }
  }

  lemma PopAloneIsRun<T>(m: Machine<T>)
    requires Inv(m) && m.consumer.CIdle?
    ensures IsRun(m, PopSteps(m)) && Run(m, PopSteps(m)) == PopAlone(m)
  {
    SlotsApart(|m.received|, |m.sent|, |m.buffer|);
    var b := Next(Next(m, PopLoadTail), PopLoadHead(|m.sent|));
    StepKeepsInv(m, PopLoadTail);
    StepKeepsInv(Next(m, PopLoadTail), PopLoadHead(|m.sent|));
    if b.consumer.CHasItem? {
      var read := PopRead(Some(|m.received|));
      OnlyDueIsReadable(b, Some(|m.received|));
      TwoStepRun(b, read, PopStore, []);
      assert [read, PopStore] + [] == [read, PopStore];
      TwoStepRun(m, PopLoadTail, PopLoadHead(|m.sent|), [read, PopStore]);
    } else {
      TwoStepRun(m, PopLoadTail, PopLoadHead(|m.sent|), []);
    }
  }

  /**
   An old view costs a push: after one push and one pop the queue of size one is empty, and a push
   that still sees no pop fails, where one that sees it finds room.
   */
  lemma OldViewRefuses<T>(x: T, y: T, default: T)
    ensures Inv(Initial(1, default))
    ensures var m := PopAlone(PushAlone(Initial(1, default), x));
            var b := Next(m, PushLoadHead(y));
            && m.sent == m.received == [x]
            && Enabled(b, PushLoadTail(0)) && Next(b, PushLoadTail(0)).producer.PIdle?
            && Enabled(b, PushLoadTail(1)) && Next(b, PushLoadTail(1)).producer.PHasRoom?
  {
    var start := Initial(1, default);
    InitialInv(1, default);
    PushAloneAppends(start, x);
    PopAloneDelivers(PushAlone(start, x));
  }
}

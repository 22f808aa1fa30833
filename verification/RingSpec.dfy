/**
 What the ring buffer's fields mean: a window of at most `|cells|` elements that drops its
 oldest element when one more is pushed. The operations here are the one-at-a-time ones, on
 field values; the batch operations of the class are proved equal to runs of these.
 */
module RingSpec {
  import opened Wrappers

  /** An index moved on by at most one lap. */
  function Wrap(i: nat, n: nat): nat
    requires i < 2 * n
  {
    if i < n then i else i - n
  }

  /** The remainder the code computes. */
  lemma WrapIsRemainder(i: nat, n: nat)
    requires i < 2 * n
    ensures i % n == Wrap(i, n)
  {
  }

  /** The cell `i` places after index `tail`. */
  function At<T>(cells: seq<T>, tail: nat, i: nat): T
    requires tail < |cells| && i < |cells|
  {
    cells[Wrap(tail + i, |cells|)]
  }

  /** Field values: `head` is the next cell to write, `tail` the next to read. */
  datatype Ring<T> = Ring(cells: seq<T>, head: nat, tail: nat, count: nat)
  {
    ghost predicate Valid() {
      && |cells| > 0 && tail < |cells| && count <= |cells|
      && head == Wrap(tail + count, |cells|)
    }

    /** The elements present, oldest first. */
    ghost function Contents(): (s: seq<T>)
      requires Valid()
    {
      seq(count, i requires 0 <= i < count => At(cells, tail, i))
    }

    /** Every cell the default value, nothing present. */
    static function Cleared(n: nat, default: T): Ring<T> {
      Ring(seq(n, i => default), 0, 0, 0)
    }

    function Push(x: T): Ring<T>
      requires Valid()
    {
      var full := count == |cells|;
      Ring(cells[head := x], Wrap(head + 1, |cells|),
           if full then Wrap(tail + 1, |cells|) else tail,
           if full then count else count + 1)
    }

    /** Elements pushed one at a time. */
    function PushAll(xs: seq<T>): Ring<T>
      requires Valid()
      ensures PushAll(xs).Valid() && |PushAll(xs).cells| == |cells|
      decreases |xs|
    {
      if xs == [] then this else
        PushKeepsValid(this, xs[0]);
        Push(xs[0]).PushAll(xs[1..])
    }

    /** The ring after its `n` oldest elements are removed. */
    function Skip(n: nat): Ring<T>
      requires Valid() && n <= count
    {
      Ring(cells, head, Wrap(tail + n, |cells|), count - n)
    }

    /** What `drain` delivers for a request of `n`. */
    ghost function Drained(n: nat): seq<T>
      requires Valid()
    {
      Contents()[..Min(n, count)]
    }

    /** What `drain` leaves. */
    ghost function AfterDrain(n: nat): Ring<T>
      requires Valid()
    {
      Skip(Min(n, count))
    }
  }

  lemma ClearedIsEmpty<T>(n: nat, default: T)
    requires n > 0
    ensures Ring.Cleared(n, default).Valid()
    ensures Ring.Cleared(n, default).Contents() == []
  {
  }

  /** After a reset the first element pushed goes to index 0 and is the next to be read. */
  lemma FirstPushAtZero<T>(n: nat, default: T, x: T)
    requires n > 0
    ensures var r := Ring.Cleared(n, default);
            && r.Valid() && |r.cells| == n
            && r.Push(x).cells[0] == x && r.Push(x).tail == 0 && r.Push(x).count == 1
            && (forall i :: 1 <= i < n ==> r.Push(x).cells[i] == default)
  {
  }

  lemma PushKeepsValid<T>(r: Ring<T>, x: T)
    requires r.Valid()
    ensures r.Push(x).Valid()
  {
  }

  lemma SkipKeepsValid<T>(r: Ring<T>, k: nat)
    requires r.Valid() && k <= r.count
    ensures r.Skip(k).Valid()
  {
  }

  lemma ContentsAt<T>(r: Ring<T>, i: nat)
    requires r.Valid() && i < r.count
    ensures r.Contents()[i] == At(r.cells, r.tail, i)
  {
  }

  lemma OldestAtTail<T>(r: Ring<T>)
    requires r.Valid() && r.count > 0
    ensures r.Contents()[0] == r.cells[r.tail]
  {
    ContentsAt(r, 0);
  }

  lemma LastAt<T>(n: nat, s: seq<T>, i: nat)
    requires i < Min(n, |s|)
    ensures Last(n, s)[i] == s[|s| - Min(n, |s|) + i]
  {
  }

  /** The cells after a push, seen from the read index after it. */
  lemma CellAfterPush<T>(cells: seq<T>, tail: nat, count: nat, x: T, tail': nat, count': nat, i: nat)
    requires tail < |cells| && count <= |cells| && i < count'
    requires tail' == (if count == |cells| then Wrap(tail + 1, |cells|) else tail)
    requires count' == (if count == |cells| then count else count + 1)
    ensures At(cells[Wrap(tail + count, |cells|) := x], tail', i)
         == if i + 1 == count' then x else At(cells, tail, i + count + 1 - count')
  {
  }

  lemma PushContentsAt<T>(r: Ring<T>, x: T, i: nat)
    requires r.Valid() && r.Push(x).Valid() && i < r.Push(x).count
    ensures r.Push(x).Contents()[i] == Last(|r.cells|, r.Contents() + [x])[i]
  {
    var p, c := r.Push(x), r.Contents();
    CellAfterPush(r.cells, r.tail, r.count, x, p.tail, p.count, i);
    ContentsAt(p, i);
    LastAt(|r.cells|, c + [x], i);
    if i + 1 < p.count {
      ContentsAt(r, i + r.count + 1 - p.count);
    }
  }

  /** A push appends, and drops the oldest element exactly when the ring was full. */
  lemma PushContents<T>(r: Ring<T>, x: T)
    requires r.Valid()
    ensures r.Push(x).Valid()
    ensures r.Push(x).Contents() == Last(|r.cells|, r.Contents() + [x])
  {
    PushKeepsValid(r, x);
    forall i | 0 <= i < r.Push(x).count
      ensures r.Push(x).Contents()[i] == Last(|r.cells|, r.Contents() + [x])[i]
    {
      PushContentsAt(r, x, i);
    }
  }

  lemma LastTwice<T>(n: nat, s: seq<T>, t: seq<T>)
    ensures Last(n, Last(n, s) + t) == Last(n, s + t)
  {
  }

  /** Pushing any number of elements keeps the last `|cells|` of what was there and what came. */
  lemma {:induction false} PushAllContents<T>(r: Ring<T>, xs: seq<T>)
    requires r.Valid()
    ensures r.PushAll(xs).Contents() == Last(|r.cells|, r.Contents() + xs)
    decreases |xs|
  {
    if xs == [] {
      assert r.Contents() + xs == r.Contents();
    } else {
      var n, c, p, rest := |r.cells|, r.Contents(), r.Push(xs[0]), xs[1..];
      PushContents(r, xs[0]);
      calc {
        r.PushAll(xs).Contents();
        p.PushAll(rest).Contents();
        { PushAllContents(p, rest); }
        Last(n, Last(n, c + [xs[0]]) + rest);
        { LastTwice(n, c + [xs[0]], rest); }
        Last(n, c + [xs[0]] + rest);
        { assert c + [xs[0]] + rest == c + xs; }
        Last(n, c + xs);
      }
    }
  }

  /** Removing the oldest elements leaves the rest in order. */
  lemma SkipContents<T>(r: Ring<T>, k: nat)
    requires r.Valid() && k <= r.count
    ensures r.Skip(k).Valid()
    ensures r.Skip(k).Contents() == r.Contents()[k..]
  {
    forall i | 0 <= i < r.count - k
      ensures r.Skip(k).Contents()[i] == r.Contents()[k..][i]
    {
      ContentsAt(r.Skip(k), i);
      ContentsAt(r, k + i);
    }
  }

  // The closed form of pushing a batch of at most `|cells|` elements.

  /** Cell `j` once `xs` was written to cells `head`, `head + 1`, ...; every other cell is as before. */
  function CellAfter<T>(cells: seq<T>, head: nat, xs: seq<T>, j: nat): T
    requires |xs| <= |cells| && head < |cells| && j < |cells|
  {
    var i := if j < head then j + |cells| - head else j - head;
    if i < |xs| then xs[i] else cells[j]
  }

  function Overwrite<T>(cells: seq<T>, head: nat, xs: seq<T>): (now: seq<T>)
    requires |xs| <= |cells| && head < |cells|
    ensures |now| == |cells|
  {
    seq(|cells|, j requires 0 <= j < |cells| => CellAfter(cells, head, xs, j))
  }

  /** A batch as two blocks: up to the end of the cells, and the rest from their start. */
  function OverwriteBatch<T>(cells: seq<T>, head: nat, xs: seq<T>): (now: seq<T>)
    requires head < |cells| && head + |xs| <= 2 * |cells|
    ensures |now| == |cells|
  {
    var k := Min(|xs|, |cells| - head);
    if k == |xs| then Overwrite(cells, head, xs) else Overwrite(Overwrite(cells, head, xs[..k]), 0, xs[k..])
  }

  lemma ShortBatch<T>(cells: seq<T>, head: nat, xs: seq<T>)
    requires head < |cells| && head + |xs| <= |cells|
    ensures OverwriteBatch(cells, head, xs) == Overwrite(cells, head, xs)
  {
  }

  lemma LongBatch<T>(cells: seq<T>, head: nat, xs: seq<T>, k: nat)
    requires head + k == |cells| && 0 < k < |xs| && |xs| - k <= |cells|
    ensures head + |xs| <= 2 * |cells|
    ensures OverwriteBatch(cells, head, xs) == Overwrite(Overwrite(cells, head, xs[..k]), 0, xs[k..])
  {
  }

  /** How many elements have to leave before `k` more fit. */
  function Excess<T>(r: Ring<T>, k: nat): nat {
    if r.count + k > |r.cells| then r.count + k - |r.cells| else 0
  }

  /** The counters after pushing `xs` element by element. */
  lemma {:induction false} PushAllCounters<T>(r: Ring<T>, xs: seq<T>)
    requires r.Valid() && |xs| <= |r.cells|
    ensures r.PushAll(xs).count == r.count + |xs| - Excess(r, |xs|)
    ensures r.PushAll(xs).tail == Wrap(r.tail + Excess(r, |xs|), |r.cells|)
    decreases |xs|
  {
    if xs == [] {
    } else {
      var p, rest := r.Push(xs[0]), xs[1..];
      PushKeepsValid(r, xs[0]);
      PushAllCounters(p, rest);
    }
  }

  /** The cells and the write index after pushing `xs` element by element. */
  lemma {:induction false} PushAllCells<T>(r: Ring<T>, xs: seq<T>)
    requires r.Valid() && |xs| <= |r.cells|
    ensures r.head < |r.cells| && r.PushAll(xs).cells == Overwrite(r.cells, r.head, xs)
    ensures r.PushAll(xs).head == Wrap(r.head + |xs|, |r.cells|)
    decreases |xs|
  {
    HeadInRange(r);
    if xs == [] {
      OverwriteNothing(r.cells, r.head);
    } else {
      var p, rest := r.Push(xs[0]), xs[1..];
      PushKeepsValid(r, xs[0]);
      PushAllCells(p, rest);
      OverwriteStep(r.cells, r.head, xs);
    }
  }

  lemma HeadInRange<T>(r: Ring<T>)
    requires r.Valid()
    ensures r.head < |r.cells|
  {
  }

  lemma OverwriteNothing<T>(cells: seq<T>, head: nat)
    requires head < |cells|
    ensures Overwrite(cells, head, []) == cells
  {
    forall j | 0 <= j < |cells|
      ensures Overwrite(cells, head, [])[j] == cells[j]
    {
      assert Overwrite(cells, head, [])[j] == CellAfter(cells, head, [], j);
    }
  }

  lemma OverwriteStep<T>(cells: seq<T>, head: nat, xs: seq<T>)
    requires 0 < |xs| <= |cells| && head < |cells|
    ensures Overwrite(cells[head := xs[0]], Wrap(head + 1, |cells|), xs[1..]) == Overwrite(cells, head, xs)
  {
    var next, at, rest := cells[head := xs[0]], Wrap(head + 1, |cells|), xs[1..];
    forall j | 0 <= j < |cells|
      ensures Overwrite(next, at, rest)[j] == Overwrite(cells, head, xs)[j]
    {
      assert Overwrite(next, at, rest)[j] == CellAfter(next, at, rest, j);
      assert Overwrite(cells, head, xs)[j] == CellAfter(cells, head, xs, j);
    }
  }

  /** A block that does not reach past the end of the cells. */
  lemma BlockIsOverwrite<T>(cells: seq<T>, at: nat, xs: seq<T>, now: seq<T>)
    requires at < |cells| == |now| && at + |xs| <= |cells|
    requires forall j :: 0 <= j < |cells| ==> now[j] == if at <= j < at + |xs| then xs[j - at] else cells[j]
    ensures now == Overwrite(cells, at, xs)
  {
    forall j | 0 <= j < |cells|
      ensures now[j] == Overwrite(cells, at, xs)[j]
    {
      assert Overwrite(cells, at, xs)[j] == CellAfter(cells, at, xs, j);
    }
  }

  lemma {:induction false} PushAllSplits<T>(r: Ring<T>, xs: seq<T>, k: nat)
    requires r.Valid() && k <= |xs|
    ensures r.PushAll(xs) == r.PushAll(xs[..k]).PushAll(xs[k..])
    decreases k
  {
    if k == 0 {
      assert xs[0..] == xs && xs[..0] == [];
    } else {
      PushKeepsValid(r, xs[0]);
      PushAllSplits(r.Push(xs[0]), xs[1..], k - 1);
      assert xs[..k][1..] == xs[1..][..k - 1] && xs[k..] == xs[1..][k - 1..];
    }
  }

  /** What pushing one block leaves, for a ring known by its write index. */
  lemma BlockPushed<T>(r: Ring<T>, xs: seq<T>, head: nat) returns (end: Ring<T>)
    requires r.Valid() && |xs| <= |r.cells| && r.head == head
    ensures head < |r.cells| && end == r.PushAll(xs) && end.Valid() && |end.cells| == |r.cells|
    ensures end.cells == Overwrite(r.cells, head, xs) && end.head == Wrap(head + |xs|, |r.cells|)
  {
    end := r.PushAll(xs);
    PushAllCells(r, xs);
  }

  lemma TwoBlocksPushed<T>(r: Ring<T>, xs: seq<T>, k: nat) returns (end: Ring<T>)
    requires r.Valid() && r.head + k == |r.cells| && k < |xs| && r.head + |xs| <= 2 * |r.cells|
    ensures end == r.PushAll(xs) && r.head < |r.cells|
    ensures end.cells == Overwrite(Overwrite(r.cells, r.head, xs[..k]), 0, xs[k..])
    ensures end.head == Wrap(|xs| - k, |r.cells|)
  {
    PushAllSplits(r, xs, k);
    var mid := BlockPushed(r, xs[..k], r.head);
    end := BlockPushed(mid, xs[k..], 0);
  }

  /** Pushing a batch writes its two blocks and leaves the write index after it. */
  lemma BatchCells<T>(r: Ring<T>, xs: seq<T>)
    requires r.Valid() && r.head + |xs| <= 2 * |r.cells|
    ensures r.head < |r.cells|
    ensures r.PushAll(xs).cells == OverwriteBatch(r.cells, r.head, xs)
    ensures r.PushAll(xs).head == if r.head + |xs| == 2 * |r.cells| then 0 else Wrap(r.head + |xs|, |r.cells|)
  {
    HeadInRange(r);
    var k := |r.cells| - r.head;
    if |xs| <= k {
      var end := BlockPushed(r, xs, r.head);
      ShortBatch(r.cells, r.head, xs);
    } else {
      var end := TwoBlocksPushed(r, xs, k);
      LongBatch(r.cells, r.head, xs, k);
    }
  }

  /** The counters after such a batch: only as many leave as do not fit. */
  lemma BatchCounters<T>(r: Ring<T>, xs: seq<T>)
    requires r.Valid() && r.head + |xs| <= 2 * |r.cells|
    ensures r.PushAll(xs).count == r.count + |xs| - Excess(r, |xs|)
    ensures var t := r.tail + Excess(r, |xs|);
            t <= 2 * |r.cells| && r.PushAll(xs).tail == if t == 2 * |r.cells| then 0 else Wrap(t, |r.cells|)
  {
    HeadInRange(r);
    var k := Min(|xs|, |r.cells| - r.head);
    var mid := r.PushAll(xs[..k]);
    PushAllSplits(r, xs, k);
    PushAllCounters(r, xs[..k]);
    PushAllCounters(mid, xs[k..]);
  }

  // Draining.

  /** Two drains in a row deliver and leave what one drain of both lengths does. */
  lemma DrainSplits<T>(r: Ring<T>, a: nat, b: nat)
    requires r.Valid()
    ensures r.AfterDrain(a).Valid()
    ensures r.Drained(a) + r.AfterDrain(a).Drained(b) == r.Drained(a + b)
    ensures r.AfterDrain(a).AfterDrain(b) == r.AfterDrain(a + b)
  {
    var k := Min(a, r.count);
    SkipContents(r, k);
    var l := Min(b, r.count - k);
    assert r.Contents()[..k] + r.Contents()[k..][..l] == r.Contents()[..k + l];
  }

  function Total(lens: seq<nat>): nat {
    if lens == [] then 0 else lens[0] + Total(lens[1..])
  }

  /** What a run of drains delivers in all, and the ring it leaves. */
  ghost function DrainChunks<T>(r: Ring<T>, lens: seq<nat>): (seq<T>, Ring<T>)
    requires r.Valid()
    decreases |lens|
  {
    if lens == [] then ([], r) else
      DrainSplits(r, lens[0], 0);
      var rest := DrainChunks(r.AfterDrain(lens[0]), lens[1..]);
      (r.Drained(lens[0]) + rest.0, rest.1)
  }

  /** However a request is cut into drains, the result is that of one large drain. */
  lemma {:induction false} ChunksAreOneDrain<T>(r: Ring<T>, lens: seq<nat>)
    requires r.Valid()
    ensures DrainChunks(r, lens) == (r.Drained(Total(lens)), r.AfterDrain(Total(lens)))
    decreases |lens|
  {
    if lens == [] {
      assert r.Drained(0) == [];
    } else {
      DrainSplits(r, lens[0], Total(lens[1..]));
      ChunksAreOneDrain(r.AfterDrain(lens[0]), lens[1..]);
    }
  }

  // Runs: everything pushed is accounted for, in order.

  datatype Op<T> = OpPush(x: T) | OpPushBatch(xs: seq<T>) | OpPop | OpDrain(n: nat)

  /** An element that left the ring: delivered to a caller, or overwritten. */
  datatype Departure<T> = Delivered(x: T) | Lost(x: T)

  datatype Trace<T> = Trace(ring: Ring<T>, pushed: seq<T>, departed: seq<Departure<T>>)

  function Items<T>(ds: seq<Departure<T>>): seq<T> {
    seq(|ds|, i requires 0 <= i < |ds| => ds[i].x)
  }

  function AsDelivered<T>(xs: seq<T>): seq<Departure<T>> {
    seq(|xs|, i requires 0 <= i < |xs| => Delivered(xs[i]))
  }

  function AsLost<T>(xs: seq<T>): seq<Departure<T>> {
    seq(|xs|, i requires 0 <= i < |xs| => Lost(xs[i]))
  }

  /** The elements a batch pushes out: the oldest of those present, only as many as do not fit. */
  ghost function Overflow<T>(r: Ring<T>, xs: seq<T>): seq<T>
    requires r.Valid()
  {
    var all := r.Contents() + xs;
    all[..|all| - Min(|all|, |r.cells|)]
  }

  ghost function StepTrace<T>(t: Trace<T>, op: Op<T>): Trace<T>
    requires t.ring.Valid()
  {
    match op
    case OpPush(x) =>
      Trace(t.ring.Push(x), t.pushed + [x], t.departed + AsLost(Overflow(t.ring, [x])))
    case OpPushBatch(xs) =>
      Trace(t.ring.PushAll(xs), t.pushed + xs, t.departed + AsLost(Overflow(t.ring, xs)))
    case OpPop =>
      Trace(t.ring.AfterDrain(1), t.pushed, t.departed + AsDelivered(t.ring.Drained(1)))
    case OpDrain(n) =>
      Trace(t.ring.AfterDrain(n), t.pushed, t.departed + AsDelivered(t.ring.Drained(n)))
  }

  /** Pushed elements are those that departed, in order, then those present, in order. */
  ghost predicate Conserved<T>(t: Trace<T>) {
    && t.ring.Valid()
    && t.pushed == Items(t.departed) + t.ring.Contents()
  }

  lemma ItemsSplit<T>(ds: seq<Departure<T>>, xs: seq<T>)
    ensures Items(ds + AsDelivered(xs)) == Items(ds) + xs
    ensures Items(ds + AsLost(xs)) == Items(ds) + xs
  {
  }

  lemma CutAt<T>(n: nat, all: seq<T>)
    ensures all == all[..|all| - Min(|all|, n)] + Last(n, all)
  {
  }

  lemma PushConserves<T>(t: Trace<T>, xs: seq<T>)
    requires Conserved(t)
    ensures t.pushed + xs == Items(t.departed) + Overflow(t.ring, xs) + t.ring.PushAll(xs).Contents()
  {
    PushAllContents(t.ring, xs);
    var d, c, n := Items(t.departed), t.ring.Contents(), |t.ring.cells|;
    CutAt(n, c + xs);
    calc {
      t.pushed + xs;
      (d + c) + xs;
      d + (c + xs);
      d + (Overflow(t.ring, xs) + Last(n, c + xs));
      d + Overflow(t.ring, xs) + Last(n, c + xs);
    }
  }

  lemma PushAllConserves<T>(t: Trace<T>, xs: seq<T>, ring: Ring<T>)
    requires Conserved(t) && ring == t.ring.PushAll(xs)
    ensures Conserved(Trace(ring, t.pushed + xs, t.departed + AsLost(Overflow(t.ring, xs))))
  {
    PushConserves(t, xs);
    ItemsSplit(t.departed, Overflow(t.ring, xs));
  }

  lemma PushIsPushAll<T>(r: Ring<T>, x: T)
    requires r.Valid()
    ensures r.Push(x) == r.PushAll([x])
  {
    PushKeepsValid(r, x);
    assert [x][1..] == [];
  }

  lemma DrainConserves<T>(t: Trace<T>, n: nat)
    requires Conserved(t)
    ensures Conserved(Trace(t.ring.AfterDrain(n), t.pushed, t.departed + AsDelivered(t.ring.Drained(n))))
  {
    var c, k := t.ring.Contents(), Min(n, t.ring.count);
    SkipContents(t.ring, k);
    ItemsSplit(t.departed, t.ring.Drained(n));
    assert Items(t.departed) + c == Items(t.departed) + c[..k] + c[k..];
  }

  lemma StepConserves<T>(t: Trace<T>, op: Op<T>)
    requires Conserved(t)
    ensures Conserved(StepTrace(t, op))
  {
    match op
    case OpPush(x) =>
      PushIsPushAll(t.ring, x);
      PushAllConserves(t, [x], t.ring.Push(x));
    case OpPushBatch(xs) =>
      PushAllConserves(t, xs, t.ring.PushAll(xs));
    case OpPop =>
      DrainConserves(t, 1);
    case OpDrain(n) =>
      DrainConserves(t, n);
  }

  ghost function RunTrace<T>(t: Trace<T>, ops: seq<Op<T>>): Trace<T>
    requires Conserved(t)
    decreases |ops|
  {
    if ops == [] then t else
      StepConserves(t, ops[0]);
      RunTrace(StepTrace(t, ops[0]), ops[1..])
  }

  /** Over every run nothing is invented, duplicated or reordered, and only overflow loses. */
  lemma {:induction false} RunConserves<T>(t: Trace<T>, ops: seq<Op<T>>)
    requires Conserved(t)
    ensures Conserved(RunTrace(t, ops))
    decreases |ops|
  {
    if ops != [] {
      StepConserves(t, ops[0]);
      RunConserves(StepTrace(t, ops[0]), ops[1..]);
    }
  }

  function Returned<T>(ds: seq<Departure<T>>): seq<T> {
    if ds == [] then [] else
      Returned(ds[..|ds| - 1]) + match ds[|ds| - 1] case Delivered(x) => [x] case Lost(_) => []
  }

  /** What one operation returns to its caller. */
  ghost function Result<T>(r: Ring<T>, op: Op<T>): seq<T>
    requires r.Valid()
  {
    match op
    case OpPop => r.Drained(1)
    case OpDrain(n) => r.Drained(n)
    case _ => []
  }

  /** What the pops and drains of a run return to their callers, in order. */
  ghost function Results<T>(t: Trace<T>, ops: seq<Op<T>>): seq<T>
    requires Conserved(t)
    decreases |ops|
  {
    if ops == [] then [] else
      StepConserves(t, ops[0]);
      Result(t.ring, ops[0]) + Results(StepTrace(t, ops[0]), ops[1..])
  }

  lemma ReturnedOne<T>(ds: seq<Departure<T>>, d: Departure<T>)
    ensures Returned(ds + [d]) == Returned(ds) + if d.Delivered? then [d.x] else []
  {
    assert (ds + [d])[..|ds|] == ds;
  }

  lemma {:induction false} DeliveredAppends<T>(ds: seq<Departure<T>>, xs: seq<T>)
    ensures Returned(ds + AsDelivered(xs)) == Returned(ds) + xs
    decreases |xs|
  {
    if xs == [] {
      assert ds + AsDelivered(xs) == ds;
    } else {
      var init, x := xs[..|xs| - 1], xs[|xs| - 1];
      DeliveredAppends(ds, init);
      ReturnedOne(ds + AsDelivered(init), Delivered(x));
      assert ds + AsDelivered(xs) == (ds + AsDelivered(init)) + [Delivered(x)];
      assert Returned(ds) + init + [x] == Returned(ds) + xs;
    }
  }

  lemma {:induction false} LostAppends<T>(ds: seq<Departure<T>>, xs: seq<T>)
    ensures Returned(ds + AsLost(xs)) == Returned(ds)
    decreases |xs|
  {
    if xs == [] {
      assert ds + AsLost(xs) == ds;
    } else {
      var init, x := xs[..|xs| - 1], xs[|xs| - 1];
      LostAppends(ds, init);
      ReturnedOne(ds + AsLost(init), Lost(x));
      assert ds + AsLost(xs) == (ds + AsLost(init)) + [Lost(x)];
    }
  }

  lemma StepReturns<T>(t: Trace<T>, op: Op<T>)
    requires Conserved(t)
    ensures Returned(StepTrace(t, op).departed) == Returned(t.departed) + Result(t.ring, op)
  {
    match op
    case OpPush(x) => LostAppends(t.departed, Overflow(t.ring, [x]));
    case OpPushBatch(xs) => LostAppends(t.departed, Overflow(t.ring, xs));
    case OpPop => DeliveredAppends(t.departed, t.ring.Drained(1));
    case OpDrain(n) => DeliveredAppends(t.departed, t.ring.Drained(n));
  }

  /** The departed elements that were delivered are what the pops and drains returned. */
  lemma {:induction false} RunReturns<T>(t: Trace<T>, ops: seq<Op<T>>)
    requires Conserved(t)
    ensures Returned(RunTrace(t, ops).departed) == Returned(t.departed) + Results(t, ops)
    decreases |ops|
  {
    if ops != [] {
      StepConserves(t, ops[0]);
      StepReturns(t, ops[0]);
      RunReturns(StepTrace(t, ops[0]), ops[1..]);
    }
  }

  // `drain_all` answers from the count it reads after unlocking, when other calls may have come between.

  predicate Adds<T>(op: Op<T>) {
    op.OpPush? || (op.OpPushBatch? && op.xs != [])
  }

  predicate Removes<T>(op: Op<T>) {
    op.OpPop? || (op.OpDrain? && op.n > 0)
  }

  predicate NoneAdds<T>(ops: seq<Op<T>>) {
    ops == [] || (!Adds(ops[0]) && NoneAdds(ops[1..]))
  }

  predicate NoneRemoves<T>(ops: seq<Op<T>>) {
    ops == [] || (!Removes(ops[0]) && NoneRemoves(ops[1..]))
  }

  /**
   The answer `drain_all` gives when `ops` came between its unlocking and its read of the count.
   It answers an empty ring before unlocking.
   */
  ghost predicate LateAnswer<T>(t: Trace<T>, maxLen: nat, ops: seq<Op<T>>)
    requires Conserved(t)
  {
    DrainConserves(t, maxLen);
    t.ring.count == 0 || RunTrace(StepTrace(t, OpDrain(maxLen)), ops).ring.count == 0
  }

  /** How many elements are present after an operation on `c` of at most `size`. */
  function CountAfter<T>(c: nat, size: nat, op: Op<T>): nat {
    match op
    case OpPush(_) => Min(c + 1, size)
    case OpPushBatch(xs) => Min(c + |xs|, size)
    case OpPop => c - Min(1, c)
    case OpDrain(n) => c - Min(n, c)
  }

  lemma StepCounts<T>(t: Trace<T>, op: Op<T>)
    requires Conserved(t)
    ensures Conserved(StepTrace(t, op)) && |StepTrace(t, op).ring.cells| == |t.ring.cells|
    ensures StepTrace(t, op).ring.count == CountAfter(t.ring.count, |t.ring.cells|, op)
  {
    StepConserves(t, op);
    match op
    case OpPush(x) =>
    case OpPushBatch(xs) =>
      PushAllContents(t.ring, xs);
    case OpPop =>
    case OpDrain(n) =>
  }

  /**
   How many elements at most may be present before `ops` for a ring of `size` cells to be empty
   after them: negative for none, `size` or more for any number. Only the lengths in `ops` matter.
   */
  function Emptied<T>(size: nat, ops: seq<Op<T>>): (most: int)
    requires size > 0
    decreases |ops|
  {
    if ops == [] then 0 else Before(size, ops[0], Emptied(size, ops[1..]))
  }

  /** How many may be present before `op` for at most `most` to be present after it. */
  function Before<T>(size: nat, op: Op<T>, most: int): int {
    match op
    case OpPush(_) => if size <= most then most else most - 1
    case OpPushBatch(xs) => if size <= most then most else most - |xs|
    case OpPop => if most < 0 then most else most + 1
    case OpDrain(n) => if most < 0 then most else most + n
  }

  lemma BeforeIsExact<T>(size: nat, op: Op<T>, most: int, c: nat)
    requires c <= size
    ensures CountAfter(c, size, op) <= most <==> c <= Before(size, op, most)
  {
  }

  lemma {:induction false} RunEmpties<T>(t: Trace<T>, ops: seq<Op<T>>)
    requires Conserved(t)
    ensures RunTrace(t, ops).ring.count == 0 <==> t.ring.count <= Emptied(|t.ring.cells|, ops)
    decreases |ops|
  {
    if ops != [] {
      StepCounts(t, ops[0]);
      RunEmpties(StepTrace(t, ops[0]), ops[1..]);
      BeforeIsExact(|t.ring.cells|, ops[0], Emptied(|t.ring.cells|, ops[1..]), t.ring.count);
    }
  }

  /** How many elements `ops` ask to remove. */
  function Taken<T>(ops: seq<Op<T>>): nat {
    if ops == [] then 0 else
      (match ops[0] case OpPop => 1 case OpDrain(n) => n case _ => 0) + Taken(ops[1..])
  }

  lemma {:induction false} EmptiedByRemovals<T>(size: nat, ops: seq<Op<T>>)
    requires size > 0
    ensures NoneAdds(ops) ==> Emptied(size, ops) == Taken(ops)
    ensures NoneRemoves(ops) ==> Emptied(size, ops) <= 0 && (Emptied(size, ops) == 0 <==> NoneAdds(ops))
    decreases |ops|
  {
    if ops != [] {
      EmptiedByRemovals(size, ops[1..]);
    }
  }

  /** What the caller wants to know: whether the drain delivered everything that was there. */
  ghost predicate AllDelivered<T>(t: Trace<T>, maxLen: nat)
    requires Conserved(t)
  {
    t.ring.Drained(maxLen) == t.ring.Contents()
  }

  /**
   The answer is true exactly when the calls in between clear what the drain left, which is when
   everything ever pushed has departed.
   */
  lemma LateAnswerIsExact<T>(t: Trace<T>, maxLen: nat, ops: seq<Op<T>>)
    requires Conserved(t) && t.ring.count > 0
    ensures LateAnswer(t, maxLen, ops)
       <==> t.ring.count - Min(maxLen, t.ring.count) <= Emptied(|t.ring.cells|, ops)
    ensures AllDelivered(t, maxLen) <==> t.ring.count <= maxLen
    ensures Conserved(StepTrace(t, OpDrain(maxLen)))
    ensures var end := RunTrace(StepTrace(t, OpDrain(maxLen)), ops);
            LateAnswer(t, maxLen, ops) <==> |end.departed| == |end.pushed|
  {
    DrainConserves(t, maxLen);
    RunConserves(StepTrace(t, OpDrain(maxLen)), ops);
    RunEmpties(StepTrace(t, OpDrain(maxLen)), ops);
    assert AllDelivered(t, maxLen) <==> |t.ring.Drained(maxLen)| == t.ring.count;
  }

  /**
   For any calls in between: when everything was delivered the answer is right exactly when those
   calls clear an empty ring; when something is left it is right exactly when they do not clear
   what is left. An empty ring is always answered rightly.
   */
  lemma LateAnswerIsRight<T>(t: Trace<T>, maxLen: nat, ops: seq<Op<T>>)
    requires Conserved(t)
    ensures (LateAnswer(t, maxLen, ops) <==> AllDelivered(t, maxLen))
       <==> (t.ring.count == 0
             || if t.ring.count <= maxLen then Emptied(|t.ring.cells|, ops) >= 0
                else Emptied(|t.ring.cells|, ops) < t.ring.count - maxLen)
  {
    if t.ring.count > 0 {
      LateAnswerIsExact(t, maxLen, ops);
    } else {
      assert t.ring.Contents() == [];
    }
  }

  /**
   With additions alone in between, the answer is right exactly when something was left over or
   nothing was added. With removals alone, it is right exactly when everything was delivered or the
   removals do not reach what was left.
   */
  lemma LateAnswerAlone<T>(t: Trace<T>, maxLen: nat, ops: seq<Op<T>>)
    requires Conserved(t) && t.ring.count > 0
    ensures NoneRemoves(ops) ==>
              ((LateAnswer(t, maxLen, ops) <==> AllDelivered(t, maxLen)) <==> t.ring.count > maxLen || NoneAdds(ops))
    ensures NoneAdds(ops) ==>
              ((LateAnswer(t, maxLen, ops) <==> AllDelivered(t, maxLen))
               <==> t.ring.count <= maxLen || maxLen + Taken(ops) < t.ring.count)
    ensures NoneRemoves(ops) ==> (LateAnswer(t, maxLen, ops) <==> t.ring.count <= maxLen && NoneAdds(ops))
    ensures NoneAdds(ops) ==> (LateAnswer(t, maxLen, ops) <==> t.ring.count <= maxLen + Taken(ops))
  {
    LateAnswerIsExact(t, maxLen, ops);
    EmptiedByRemovals(|t.ring.cells|, ops);
  }

  /** Both wrong answers happen: a push, or another caller's drain, before the read. */
  lemma LateAnswerMisleads<T>(x: T, y: T)
    ensures var one := Trace(Ring([x], 0, 0, 1), [x], []);
            && Conserved(one)
            && AllDelivered(one, 1) && !LateAnswer(one, 1, [OpPush(y)])
            && !AllDelivered(one, 0) && LateAnswer(one, 0, [OpDrain(1)])
  {
    var one := Trace(Ring([x], 0, 0, 1), [x], []);
    assert Items(one.departed) + one.ring.Contents() == [x];
    var drains, pushes := [Op<T>.OpDrain(1)], [OpPush(y)];
    assert drains[1..] == [] && pushes[1..] == [];
    assert Taken(drains) == 1 && NoneAdds(drains);
    LateAnswerAlone(one, 1, pushes);
    LateAnswerAlone(one, 0, drains);
    LateAnswerIsExact(one, 1, pushes);
    LateAnswerIsExact(one, 0, drains);
  }
}

/**
 The two topic classes and their subscriber. A region under a topic's lock is one atomic step; the
 submissions that the latest-value topic makes after unlocking interleave as in module Wakeup. The
 ghost log holds every message ever published; the contracts say that polling the fields is
 polling the log.
 */
module SrimbTopics {
  import opened RingBuffers
  import opened RingSpec
  import opened SrimbLog
  import opened WorkItems
  import opened Wrappers
  import Wakeup

  /** An unsigned 64-bit result. */
  function Wrap64(x: int): uint64 {
    (x % TWO_TO_THE_64) as uint64
  }

  /** `a - b + 1` in unsigned arithmetic: the subtraction wraps when `a + 1 == b`, the addition wraps back. */
  method DistancePlusOne(a: uint64, b: uint64) returns (r: uint64)
    requires b as int <= a as int + 1 < TWO_TO_THE_64
    ensures r as int == a as int + 1 - b as int
  {
    var d := Wrap64(a as int - b as int);
    r := Wrap64(d as int + 1);
  }

  /** Places between the oldest message held and the next one wanted. */
  method Offset(last: uint64, oldest: uint64, len: uint8) returns (offset: uint32)
    requires oldest as int <= last as int + 1 < oldest as int + len as int && last as int + 1 < TWO_TO_THE_64
    ensures offset as int == last as int + 1 - oldest as int
  {
    var d := DistancePlusOne(last, oldest);
    WrapIsRemainder(d as int, len as int);
    offset := (d % len as uint64) as uint32;
  }

  /** The generation of the last message seen, and the sticky missed flag. */
  class SRIMBSub {
    var lastGeneration: uint64
    var missed: bool

    constructor ()
      ensures AsCursor() == FRESH
    {
      lastGeneration, missed := 0, false;
    }

    ghost function AsCursor(): Cursor
      reads this
    {
      Cursor(lastGeneration as int, missed)
    }

    method SetLastGeneration(gen: uint64)
      modifies this`lastGeneration
      ensures lastGeneration == gen
    {
      lastGeneration := gen;
    }

    method SetMissed(missed: bool)
      modifies this`missed
      ensures this.missed == missed
    {
      this.missed := missed;
    }
  }

  /** A message with its generation, as the queue stores it. */
  datatype Topic<T> = Topic(data: T, generation: uint64)

  class SRIMBQueueTopic<T(0), W(==, 0)> {
    const queueLen: uint8
    const msgQueue: RingBuffer<Topic<T>>
    const workItems: array<Schedule<W>>
    var generation: uint64
    var oldestGeneration: uint64
    var workItemCount: nat
    ghost var log: seq<T>
    ghost var submissions: seq<W>

    ghost predicate Valid()
      reads this, msgQueue, msgQueue.buffer, workItems
    {
      QueueHoldsLog() && ItemsCount()
    }

    /** The queue holds the end of the log, and both generations say so. */
    ghost predicate QueueHoldsLog()
      reads this`generation, this`oldestGeneration, this`log, msgQueue, msgQueue.buffer
    {
      && 0 < queueLen
      && msgQueue.Valid() && msgQueue.size as int == queueLen as int
      && generation as int == |log|
      && oldestGeneration as int == Oldest(|log|, queueLen as nat)
      && msgQueue.State().count == Min(|log|, queueLen as nat)
      && Window(msgQueue.State().Contents(), log)
    }

    ghost predicate ItemsCount()
      reads this`workItemCount, workItems
    {
      workItems.Length == MAX_WORK_ITEM && workItemCount <= MAX_WORK_ITEM && AllCounting(Items())
    }

    /** The registered items, in order. */
    ghost function Items(): seq<Schedule<W>>
      reads this`workItemCount, workItems
      requires workItemCount <= workItems.Length
    {
      workItems[..workItemCount]
    }

    /** The cell `i` places after the read index holds the message `i` after the oldest. */
    lemma HeldAt(i: nat, idx: uint32)
      requires QueueHoldsLog() && i < msgQueue.State().count
               && idx as int == Wrap(msgQueue.tail as int + i, msgQueue.size as int)
      ensures idx < msgQueue.size
      ensures msgQueue.State().cells[idx].data == log[oldestGeneration as int - 1 + i]
      ensures msgQueue.State().cells[idx].generation as int == oldestGeneration as int + i
    {
      ContentsAt(msgQueue.State(), i);
    }

    constructor (queueLen: uint8, default: T)
      requires 0 < queueLen
      ensures Valid() && fresh(msgQueue) && fresh(msgQueue.buffer) && fresh(workItems)
      ensures this.queueLen == queueLen && log == [] && Items() == [] && submissions == []
    {
      this.queueLen := queueLen;
      msgQueue := new RingBuffer(queueLen as uint32, Topic(default, 0));
      workItems := new Schedule<W>[MAX_WORK_ITEM];
      generation, oldestGeneration, workItemCount := 0, 0, 0;
      log, submissions := [], [];
      new;
      ClearedIsEmpty(queueLen as int, Topic(default, 0));
    }

    /** Appends a message to the log and submits every item whose period it completes. */
    method Publish(msgData: T)
      requires Valid() && generation as int + 1 < TWO_TO_THE_64
      modifies this, msgQueue, msgQueue.buffer, workItems
      ensures Valid()
      ensures log == old(log) + [msgData]
      ensures Items() == TickAll(old(Items()))
      ensures submissions == old(submissions) + Submitted(old(Items()))
    {
      WindowSlides(msgQueue.State(), log, msgData);
      generation := generation + 1;
      msgQueue.Push(Topic(msgData, generation));
      log := log + [msgData];

      var tailIdx := msgQueue.GetTailIdx();
      var msg := msgQueue.Get(tailIdx);
      oldestGeneration := msg.value.generation;
      assert QueueHoldsLog();

      var _ := SubmitWorkItems();
    }

    /** Whether a message newer than the subscriber's cursor has been published. */
    method Updated(sub: SRIMBSub) returns (hasNew: bool)
      requires Valid() && sub.AsCursor().last <= |log|
      ensures hasNew <==> PollLog(log, queueLen as nat, sub.AsCursor()).0.Some?
    {
      return sub.lastGeneration < generation;
    }

    /** Delivers the next message still held, and moves the cursor onto it. */
    method Poll(sub: SRIMBSub) returns (out: Option<T>)
      requires Valid() && sub.AsCursor().last <= |log|
      modifies sub
      ensures Valid()
      ensures (out, sub.AsCursor()) == PollLog(log, queueLen as nat, old(sub.AsCursor()))
    {
      if sub.lastGeneration == generation {
        return None;
      }
      if sub.lastGeneration + 1 < oldestGeneration {
        sub.SetMissed(true);
        sub.SetLastGeneration(oldestGeneration - 1);
      }
      ghost var behind := sub.lastGeneration as int + 1 - oldestGeneration as int;
      assert 0 <= behind < msgQueue.State().count;
      var offset := Offset(sub.lastGeneration, oldestGeneration, queueLen);
      var tailIdx := msgQueue.GetTailIdx();
      var idx := Advance(tailIdx, offset, queueLen as uint32);
      HeldAt(behind, idx);
      var msg := msgQueue.Get(idx);
      sub.SetLastGeneration(msg.value.generation);
      return Some(msg.value.data);
    }

    /** Registers an item that is submitted at every publish. */
    method RegisterWorkItem(sub: W) returns (ok: bool)
      requires Valid()
      modifies this, workItems
      ensures Valid() && log == old(log) && submissions == old(submissions)
      ensures ok <==> |old(Items())| < MAX_WORK_ITEM
      ensures Items() == Registered(old(Items()), sub, 1)
    {
      ok := RegisterWorkItemEvery(sub, 1);
    }

    /** Registers an item that is submitted once every `requiredUpdates` publishes. */
    method RegisterWorkItemEvery(sub: W, requiredUpdates: uint8) returns (ok: bool)
      requires Valid()
      modifies this, workItems
      ensures Valid() && log == old(log) && submissions == old(submissions)
      ensures ok <==> |old(Items())| < MAX_WORK_ITEM
      ensures Items() == Registered(old(Items()), sub, requiredUpdates)
    {
      if workItemCount >= MAX_WORK_ITEM {
        return false;
      }
      workItems[workItemCount] := Schedule(sub, requiredUpdates, 0);
      workItemCount := workItemCount + 1;
      return true;
    }

    /** Changes the period of the first item with this handle. */
    method SetRequiredUpdates(sub: W, requiredUpdates: uint8) returns (found: bool)
      requires Valid()
      modifies workItems
      ensures Valid()
      ensures found <==> Holds(old(Items()), sub)
      ensures Items() == WithRequired(old(Items()), sub, requiredUpdates)
    {
      ghost var items := Items();
      for i := 0 to workItemCount
        invariant Items() == items
        invariant forall k :: 0 <= k < i ==> items[k].workItem != sub
      {
        if workItems[i].workItem == sub {
          assert items[i].workItem == sub;
          WithRequiredAt(items, sub, requiredUpdates, i);
          workItems[i] := Schedule(workItems[i].workItem, requiredUpdates, 0);
          return true;
        }
      }
      WithRequiredNowhere(items, sub, requiredUpdates);
      return false;
    }

    /** Counts this publish for every item and submits those that are due. */
    method SubmitWorkItems() returns (submitted: uint8)
      requires ItemsCount()
      modifies this`submissions, workItems
      ensures ItemsCount() && Items() == TickAll(old(Items()))
      ensures submissions == old(submissions) + Submitted(old(Items()))
      ensures submitted as int == |Submitted(old(Items()))|
    {
      ghost var items, ticks, before := Items(), TickAll(Items()), submissions;
      submitted := 0;
      for i := 0 to workItemCount
        invariant forall k :: i <= k < workItemCount ==> workItems[k] == items[k]
        invariant forall k :: 0 <= k < i ==> workItems[k] == ticks[k]
        invariant submissions == before + Handles(items, SubmittedAmong(items, i))
        invariant submitted as int == |SubmittedAmong(items, i)| <= i
      {
        var w := workItems[i];
        assert w == items[i] && ticks[i] == Tick(items[i]);
        var updates := w.updates + 1;
        if updates >= w.required {
          submissions := submissions + [w.workItem];
          submitted := submitted + 1;
          updates := 0;
        }
        workItems[i] := Schedule(w.workItem, w.required, updates);
      }
    }
  }

  /** The queue holds the last messages of the log, each with its generation. */
  ghost predicate Window<T>(held: seq<Topic<T>>, log: seq<T>) {
    && |held| <= |log|
    && forall i :: 0 <= i < |held| ==>
         && held[i].data == log[|log| - |held| + i]
         && held[i].generation as int == |log| - |held| + i + 1
  }

  lemma LastWindow<T>(held: seq<Topic<T>>, log: seq<T>, x: T, len: nat)
    requires Window(held, log) && |held| == Min(|log|, len) && 0 < len && |log| + 1 < TWO_TO_THE_64
    ensures var next := Last(len, held + [Topic(x, (|log| + 1) as uint64)]);
            && Window(next, log + [x]) && |next| == Min(|log| + 1, len)
            && next[0].generation as int == Oldest(|log| + 1, len)
  {
    var all, now := held + [Topic(x, (|log| + 1) as uint64)], log + [x];
    assert Window(all, now) by {
      forall i | 0 <= i < |all|
        ensures all[i].data == now[|now| - |all| + i] && all[i].generation as int == |now| - |all| + i + 1
      {
        assert i < |held| ==> all[i] == held[i];
      }
    }
    WindowEnd(all, now, len);
  }

  lemma WindowEnd<T>(held: seq<Topic<T>>, log: seq<T>, len: nat)
    requires Window(held, log)
    ensures Window(Last(len, held), log)
  {
    var next := Last(len, held);
    forall i | 0 <= i < |next|
      ensures next[i].data == log[|log| - |next| + i] && next[i].generation as int == |log| - |next| + i + 1
    {
      assert next[i] == held[|held| - |next| + i];
    }
  }

  /** One more message: the window slides along the log and the read index is on its oldest. */
  lemma WindowSlides<T>(r: Ring<Topic<T>>, log: seq<T>, x: T)
    requires r.Valid() && Window(r.Contents(), log) && r.count == Min(|log|, |r.cells|) && |log| + 1 < TWO_TO_THE_64
    ensures var next := r.Push(Topic(x, (|log| + 1) as uint64));
            && next.Valid() && Window(next.Contents(), log + [x]) && next.count == Min(|log| + 1, |r.cells|)
            && next.cells[next.tail].generation as int == Oldest(|log| + 1, |r.cells|)
  {
    var m := Topic(x, (|log| + 1) as uint64);
    PushContents(r, m);
    LastWindow(r.Contents(), log, x, |r.cells|);
    OldestAtTail(r.Push(m));
  }

  /** A topic that holds only the latest message. */
  class SRIMBTopic<T, W(0)> {
    const workItems: array<W>
    var data: T
    var generation: uint64
    var count: nat
    ghost var log: seq<T>
    ghost var submissions: seq<W>
    ghost var world: Wakeup.World<SRIMBSub>

    /** The protocol's cursors are those of the subscriber objects it has met. */
    ghost predicate CursorsAgree()
      reads this`world, world.cursors.Keys
    {
      forall sub :: sub in world.cursors ==>
        sub.lastGeneration as int == world.cursors[sub] <= world.generation
    }

    ghost predicate Valid()
      reads this, workItems, world.cursors.Keys
    {
      && CursorsAgree() && Wakeup.NoLostWakeup(world)
      && generation as int == |log| == world.generation
      && |world.items| == count
      && (log != [] ==> data == log[|log| - 1])
      && workItems.Length == MAX_WORK_ITEM && count <= MAX_WORK_ITEM
    }

    ghost function Items(): seq<W>
      reads this`count, workItems
      requires count <= workItems.Length
    {
      workItems[..count]
    }

    constructor (default: T, ghost publishers: nat)
      ensures Valid() && fresh(workItems) && log == [] && Items() == [] && submissions == []
      ensures world == Wakeup.Initial(publishers)
    {
      workItems := new W[MAX_WORK_ITEM];
      data, generation, count := default, 0, 0;
      log, submissions, world := [], [], Wakeup.Initial(publishers);
    }

    /**
     Makes the message the latest, then submits every registered item: an uninterrupted run of the
     steps of publisher `p`.
     */
    method Publish(msgData: T, ghost p: nat)
      requires Valid() && generation as int + 1 < TWO_TO_THE_64
      requires p < |world.publishers| && world.publishers[p].Idle?
      modifies this
      ensures Valid() && Items() == old(Items())
      ensures log == old(log) + [msgData]
      ensures submissions == old(submissions) + Items()
      ensures Wakeup.IsRun(old(world), Wakeup.PublishSteps(p, |Items()|))
      ensures world == Wakeup.Run(old(world), Wakeup.PublishSteps(p, |Items()|))
    {
      ghost var was := world;
      Wakeup.PublishAlone(was, p);
      Wakeup.RunKeepsCover(was, Wakeup.PublishSteps(p, count));
      StoreLatest(msgData, p);
      SubmitAllWorkItems(was, p);
    }

    /** The part of a publish that runs under the lock. */
    method StoreLatest(msgData: T, ghost p: nat)
      requires Valid() && generation as int + 1 < TWO_TO_THE_64
      requires p < |world.publishers| && world.publishers[p].Idle?
      modifies this`data, this`generation, this`log, this`world
      ensures Valid() && log == old(log) + [msgData]
      ensures world == Wakeup.Next(old(world), Wakeup.Bump(p))
    {
      data := msgData;
      generation := generation + 1;
      log := log + [msgData];
      Wakeup.StepKeepsCover(world, Wakeup.Bump(p));
      world := Wakeup.Next(world, Wakeup.Bump(p));
    }

    /**
     Delivers the latest message, unless the subscriber has seen it. When the handler of a work item
     calls it, `handler` is the number of the item.
     */
    method Poll(sub: SRIMBSub, ghost handler: Option<nat>) returns (out: Option<T>)
      requires Valid() && sub.AsCursor().last <= |log|
      requires handler.Some? ==>
                 && Wakeup.Enabled(world, Wakeup.HandlerPoll(handler.value))
                 && world.items[handler.value].sub == sub
      modifies this`world, sub`lastGeneration
      ensures Valid()
      ensures (out, sub.AsCursor()) == PollLatest(log, old(sub.AsCursor()))
      ensures var met := Wakeup.Met(old(world), sub, old(sub.AsCursor().last));
              Wakeup.Enabled(met, PollStep(sub, handler)) && world == Wakeup.Next(met, PollStep(sub, handler))
    {
      Wakeup.MetKeepsCover(world, sub, sub.lastGeneration as int);
      world := Wakeup.Met(world, sub, sub.lastGeneration as int);
      Wakeup.StepKeepsCover(world, PollStep(sub, handler));
      world := Wakeup.Next(world, PollStep(sub, handler));
      if sub.lastGeneration == generation {
        return None;
      }
      sub.SetLastGeneration(generation);
      return Some(data);
    }

    method Updated(sub: SRIMBSub) returns (hasNew: bool)
      requires Valid() && sub.AsCursor().last <= |log|
      ensures hasNew <==> PollLatest(log, sub.AsCursor()).0.Some?
    {
      if sub.lastGeneration == generation {
        return false;
      }
      return true;
    }

    /** Registers an item whose handler polls with `sub`. */
    method RegisterWorkItem(item: W, ghost sub: SRIMBSub) returns (ok: bool)
      requires Valid() && sub.AsCursor().last <= |log|
      modifies this, workItems
      ensures Valid() && log == old(log) && submissions == old(submissions)
      ensures ok <==> |old(Items())| < MAX_WORK_ITEM
      ensures Items() == if ok then old(Items()) + [item] else old(Items())
      ensures var met := Wakeup.Met(old(world), sub, sub.AsCursor().last);
              world == if ok then Wakeup.Next(met, Wakeup.Register(sub)) else old(world)
    {
      if count >= MAX_WORK_ITEM {
        return false;
      }
      workItems[count] := item;
      count := count + 1;
      Wakeup.MetKeepsCover(world, sub, sub.lastGeneration as int);
      world := Wakeup.Met(world, sub, sub.lastGeneration as int);
      Wakeup.StepKeepsCover(world, Wakeup.Register(sub));
      world := Wakeup.Next(world, Wakeup.Register(sub));
      return true;
    }

    /** The work queue takes item `k` and calls its handler, which is about to poll. */
    ghost method StartHandler(k: nat)
      requires Valid() && Wakeup.Enabled(world, Wakeup.Start(k))
      modifies this`world
      ensures Valid() && world == Wakeup.Next(old(world), Wakeup.Start(k))
      ensures Wakeup.Enabled(world, Wakeup.HandlerPoll(k))
    {
      Wakeup.StepKeepsCover(world, Wakeup.Start(k));
      world := Wakeup.Next(world, Wakeup.Start(k));
    }

    /**
     When no publisher, item or handler has anything left to do, the subscriber object of every item
     registered before the last publish has seen the latest message.
     */
    lemma QuietMeansLatestSeen(k: nat)
      requires Valid() && Wakeup.Quiescent(world)
      requires k < |world.items| && world.items[k].registeredAt < |log|
      ensures world.items[k].sub.lastGeneration == generation
      ensures PollLatest(log, world.items[k].sub.AsCursor()).0 == None
    {
      assert Wakeup.Covered(world, k);
    }

    /** Submits the items one by one, without the lock. */
    method SubmitAllWorkItems(ghost was: Wakeup.World<SRIMBSub>, ghost p: nat)
      requires count <= workItems.Length && |was.items| == count && p < |was.publishers| && was.publishers[p].Idle?
      requires world == Wakeup.Next(was, Wakeup.Bump(p))
      modifies this`submissions, this`world
      ensures submissions == old(submissions) + Items()
      ensures world == Wakeup.World(was.generation + 1, was.cursors, Wakeup.Queued(was.items, count), was.publishers)
    {
      assert Wakeup.Queued(was.items, 0) == was.items;
      for i := 0 to count
        invariant submissions == old(submissions) + workItems[..i]
        invariant world == Wakeup.Submitted(was, p, i)
      {
        submissions := submissions + [workItems[i]];
        Wakeup.SubmitOne(was, p, i);
        world := Wakeup.Next(world, Wakeup.SubmitNext(p));
      }
      world := Wakeup.Next(world, Wakeup.Finish(p));
      assert world.publishers == was.publishers;
    }
  }

  /** The step of the protocol that a poll is: of the handler that makes it, or of nobody's handler. */
  ghost function PollStep<S>(sub: S, handler: Option<nat>): Wakeup.Step<S> {
    if handler.Some? then Wakeup.HandlerPoll(handler.value) else Wakeup.Poll(sub)
  }

  /** Either kind of poll leaves the subscriber's cursor where polling the topic leaves it. */
  lemma HandlerPollsTopic<S, T>(log: seq<T>, w: Wakeup.World<S>, sub: S, handler: Option<nat>, missed: bool)
    requires w.generation == |log| && Wakeup.Enabled(w, PollStep(sub, handler))
    requires handler.Some? ==> w.items[handler.value].sub == sub
    requires sub in w.cursors && w.cursors[sub] <= |log|
    ensures Wakeup.Next(w, PollStep(sub, handler)).cursors
         == w.cursors[sub := PollLatest(log, Cursor(w.cursors[sub], missed)).1.last]
  {
  }
}

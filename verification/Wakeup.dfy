/**
 Waking subscribers of a latest-value topic. A publish raises the generation under the lock and,
 after unlocking, submits the registered work items one by one, so several publishers interleave
 with each other and with the work queue. A work item that runs polls once.
 */
module Wakeup {
  import opened WorkItems

  /** A publisher between publishes, or about to submit item `next`. */
  datatype Publisher = Idle | Submitting(next: nat)

  /**
   An item: the subscriber its handler polls with, whether it is queued, whether its handler was
   taken off the queue and has yet to poll, and the generation at registration. Items may share a
   subscriber.
   */
  datatype Item<S> = Item(sub: S, pending: bool, running: bool, registeredAt: nat)

  /** `cursors` has the generation each subscriber saw last. */
  datatype World<S(==)> = World(
    generation: nat, cursors: map<S, nat>, items: seq<Item<S>>, publishers: seq<Publisher>)

  datatype Step<S> =
    | Bump(p: nat)                 // publish: new data and generation, then unlock
    | SubmitNext(p: nat)           // queue one item; queueing a queued item changes nothing
    | Finish(p: nat)               // the submission loop ends
    | Start(k: nat)                // the work queue takes an item and calls its handler
    | HandlerPoll(k: nat)          // the handler polls under the lock
    | Arrive(sub: S, cursor: nat)  // a subscriber not met before, with the generation it saw last
    | Register(sub: S)             // one more item
    | Poll(sub: S)                 // a poll outside of any handler

  predicate Enabled<S>(w: World<S>, s: Step<S>) {
    match s
    case Bump(p) => p < |w.publishers| && w.publishers[p].Idle?
    case SubmitNext(p) => p < |w.publishers| && w.publishers[p].Submitting? && w.publishers[p].next < |w.items|
    case Finish(p) => p < |w.publishers| && w.publishers[p].Submitting? && w.publishers[p].next >= |w.items|
    case Start(k) => k < |w.items| && w.items[k].pending && !w.items[k].running
    case HandlerPoll(k) => k < |w.items| && w.items[k].running
    case Register(sub) => |w.items| < MAX_WORK_ITEM && sub in w.cursors
    case Arrive(sub, cursor) => sub !in w.cursors && cursor <= w.generation
    case Poll(sub) => sub in w.cursors
  }

  function Next<S>(w: World<S>, s: Step<S>): World<S>
    requires Enabled(w, s)
  {
    match s
    case Bump(p) => w.(generation := w.generation + 1, publishers := w.publishers[p := Submitting(0)])
    case SubmitNext(p) =>
      var i := w.publishers[p].next;
      w.(items := w.items[i := w.items[i].(pending := true)], publishers := w.publishers[p := Submitting(i + 1)])
    case Finish(p) => w.(publishers := w.publishers[p := Idle])
    case Start(k) => w.(items := w.items[k := w.items[k].(pending := false, running := true)])
    case HandlerPoll(k) =>
      w.(cursors := w.cursors[w.items[k].sub := w.generation], items := w.items[k := w.items[k].(running := false)])
    case Register(sub) => w.(items := w.items + [Item(sub, false, false, w.generation)])
    case Arrive(sub, cursor) => w.(cursors := w.cursors[sub := cursor])
    case Poll(sub) => w.(cursors := w.cursors[sub := w.generation])
  }

  /** The world once subscriber `sub`, whose cursor is `cursor`, has been met. */
  function Met<S>(w: World<S>, sub: S, cursor: nat): World<S>
    requires cursor <= w.generation
  {
    if sub in w.cursors then w else Next(w, Arrive(sub, cursor))
  }

  predicate IsRun<S>(w: World<S>, steps: seq<Step<S>>)
    decreases |steps|
  {
    steps == [] || (Enabled(w, steps[0]) && IsRun(Next(w, steps[0]), steps[1..]))
  }

  function Run<S>(w: World<S>, steps: seq<Step<S>>): World<S>
    requires IsRun(w, steps)
    decreases |steps|
  {
    if steps == [] then w else Run(Next(w, steps[0]), steps[1..])
  }

  function Initial<S>(publishers: nat): World<S> {
    World(0, map[], [], seq(publishers, _ => Idle))
  }

  // No wakeup is lost.

  /** Some publisher has yet to submit item `k`. */
  ghost predicate Owed<S>(w: World<S>, k: nat) {
    exists p :: 0 <= p < |w.publishers| && w.publishers[p].Submitting? && w.publishers[p].next <= k
  }

  /** The subscriber of item `k` has seen the last publish. */
  predicate UpToDate<S>(w: World<S>, k: nat)
    requires k < |w.items|
  {
    w.items[k].sub in w.cursors && w.cursors[w.items[k].sub] == w.generation
  }

  /** Item `k` is up to date, will be woken, or was registered after the last publish. */
  ghost predicate Covered<S>(w: World<S>, k: nat)
    requires k < |w.items|
  {
    && w.items[k].sub in w.cursors
    && (|| UpToDate(w, k)
        || w.items[k].pending
        || w.items[k].running
        || Owed(w, k)
        || w.items[k].registeredAt == w.generation)
  }

  ghost predicate NoLostWakeup<S>(w: World<S>) {
    forall k :: 0 <= k < |w.items| ==> Covered(w, k)
  }

  lemma StepKeepsItem<S>(w: World<S>, s: Step<S>, k: nat)
    requires Enabled(w, s) && k < |w.items| && Covered(w, k)
    ensures Covered(Next(w, s), k)
  {
    var v := Next(w, s);
    if s.Bump? {
      assert v.publishers[s.p] == Submitting(0);
    } else if Owed(w, k) {
      var p :| 0 <= p < |w.publishers| && w.publishers[p].Submitting? && w.publishers[p].next <= k;
      if s.SubmitNext? && s.p == p && w.publishers[p].next == k {
        assert v.items[k].pending;
      } else {
        assert v.publishers[p].Submitting? && v.publishers[p].next <= k;
      }
    }
  }

  lemma StepKeepsCover<S>(w: World<S>, s: Step<S>)
    requires Enabled(w, s) && NoLostWakeup(w)
    ensures NoLostWakeup(Next(w, s))
  {
    forall k | 0 <= k < |Next(w, s).items|
      ensures Covered(Next(w, s), k)
    {
      if k < |w.items| {
        StepKeepsItem(w, s, k);
      }
    }
  }

  lemma MetKeepsCover<S>(w: World<S>, sub: S, cursor: nat)
    requires cursor <= w.generation && NoLostWakeup(w)
    ensures NoLostWakeup(Met(w, sub, cursor))
  {
    if sub !in w.cursors {
      StepKeepsCover(w, Arrive(sub, cursor));
    }
  }

  lemma {:induction false} RunKeepsCover<S>(w: World<S>, steps: seq<Step<S>>)
    requires IsRun(w, steps) && NoLostWakeup(w)
    ensures NoLostWakeup(Run(w, steps))
    decreases |steps|
  {
    if steps != [] {
      StepKeepsCover(w, steps[0]);
      RunKeepsCover(Next(w, steps[0]), steps[1..]);
    }
  }

  ghost predicate Quiescent<S>(w: World<S>) {
    && (forall p :: 0 <= p < |w.publishers| ==> w.publishers[p].Idle?)
    && (forall k :: 0 <= k < |w.items| ==> !w.items[k].pending && !w.items[k].running)
  }

  /** Whenever nothing is left to do, every item registered before the last publish has seen it. */
  lemma QuietMeansSeen<S>(publishers: nat, steps: seq<Step<S>>, k: nat)
    requires IsRun(Initial(publishers), steps)
    requires var w := Run(Initial(publishers), steps);
             Quiescent(w) && k < |w.items| && w.items[k].registeredAt < w.generation
    ensures UpToDate(Run(Initial(publishers), steps), k)
  {
    RunKeepsCover(Initial(publishers), steps);
    assert Covered(Run(Initial(publishers), steps), k);
  }

  // Without new publishes or registrations every schedule comes to rest.

  predicate Internal<S>(s: Step<S>) {
    s.SubmitNext? || s.Finish? || s.Start? || s.HandlerPoll?
  }

  function PublisherWork(p: Publisher, items: nat): nat {
    match p
    case Idle => 0
    case Submitting(i) => 1 + (if i < items then 3 * (items - i) else 0)
  }

  function ItemWork<S>(i: Item<S>): nat {
    (if i.pending then 2 else 0) + (if i.running then 1 else 0)
  }

  function PublishersWork(ps: seq<Publisher>, items: nat): nat {
    if ps == [] then 0 else PublisherWork(ps[0], items) + PublishersWork(ps[1..], items)
  }

  function ItemsWork<S>(items: seq<Item<S>>): nat {
    if items == [] then 0 else ItemWork(items[0]) + ItemsWork(items[1..])
  }

  function Work<S>(w: World<S>): nat {
    PublishersWork(w.publishers, |w.items|) + ItemsWork(w.items)
  }

  lemma {:induction false} PublisherReplaced(ps: seq<Publisher>, items: nat, p: nat, x: Publisher)
    requires p < |ps|
    ensures PublishersWork(ps[p := x], items) + PublisherWork(ps[p], items)
              == PublishersWork(ps, items) + PublisherWork(x, items)
  {
    if p == 0 {
      assert ps[p := x][1..] == ps[1..];
    } else {
      assert ps[p := x][1..] == ps[1..][p - 1 := x];
      PublisherReplaced(ps[1..], items, p - 1, x);
    }
  }

  lemma {:induction false} ItemReplaced<S>(items: seq<Item<S>>, k: nat, x: Item<S>)
    requires k < |items|
    ensures ItemsWork(items[k := x]) + ItemWork(items[k]) == ItemsWork(items) + ItemWork(x)
  {
    if k == 0 {
      assert items[k := x][1..] == items[1..];
    } else {
      assert items[k := x][1..] == items[1..][k - 1 := x];
      ItemReplaced(items[1..], k - 1, x);
    }
  }

  lemma InternalStepWorks<S>(w: World<S>, s: Step<S>)
    requires Enabled(w, s) && Internal(s)
    ensures Work(Next(w, s)) < Work(w)
  {
    var v, n := Next(w, s), |w.items|;
    match s
    case SubmitNext(p) =>
      var i := w.publishers[p].next;
      PublisherReplaced(w.publishers, n, p, v.publishers[p]);
      ItemReplaced(w.items, i, v.items[i]);
    case Finish(p) =>
      PublisherReplaced(w.publishers, n, p, Idle);
    case Start(k) =>
      ItemReplaced(w.items, k, v.items[k]);
    case HandlerPoll(k) =>
      ItemReplaced(w.items, k, v.items[k]);
  }

  /** A run of internal steps is no longer than the work there was at its start. */
  lemma {:induction false} InternalRunsEnd<S>(w: World<S>, steps: seq<Step<S>>)
    requires IsRun(w, steps) && forall i :: 0 <= i < |steps| ==> Internal(steps[i])
    ensures |steps| + Work(Run(w, steps)) <= Work(w)
    decreases |steps|
  {
    if steps != [] {
      InternalStepWorks(w, steps[0]);
      InternalRunsEnd(Next(w, steps[0]), steps[1..]);
    }
  }

  /** There is something left to do exactly when an internal step can be taken. */
  lemma BusyCanStep<S>(w: World<S>)
    ensures !Quiescent(w) <==> exists s :: Internal(s) && Enabled(w, s)
  {
    if p :| 0 <= p < |w.publishers| && !w.publishers[p].Idle? {
      assert Enabled(w, SubmitNext(p)) || Enabled(w, Finish(p));
    } else if k :| 0 <= k < |w.items| && (w.items[k].pending || w.items[k].running) {
      assert Enabled(w, Start(k)) || Enabled(w, HandlerPoll(k));
    }
  }

  /**
   From every reachable state, any schedule of internal steps that cannot be extended leaves
   every item registered before the last publish with that publish seen.
   */
  lemma EveryScheduleDelivers<S>(publishers: nat, before: seq<Step<S>>, after: seq<Step<S>>, k: nat)
    requires IsRun(Initial(publishers), before)
    requires var w := Run(Initial(publishers), before);
             && IsRun(w, after) && (forall i :: 0 <= i < |after| ==> Internal(after[i]))
             && k < |Run(w, after).items|
    requires !exists s :: Internal(s) && Enabled(Run(Run(Initial(publishers), before), after), s)
    ensures var w := Run(Initial(publishers), before);
            && |after| <= Work(w)
            && Run(w, after).generation == w.generation
            && (Run(w, after).items[k].registeredAt < w.generation ==> UpToDate(Run(w, after), k))
  {
    var w := Run(Initial(publishers), before);
    RunKeepsCover(Initial(publishers), before);
    RunKeepsCover(w, after);
    InternalRunsEnd(w, after);
    InternalKeepsGeneration(w, after);
    BusyCanStep(Run(w, after));
    assert Covered(Run(w, after), k);
  }

  lemma {:induction false} InternalKeepsGeneration<S>(w: World<S>, steps: seq<Step<S>>)
    requires IsRun(w, steps) && forall i :: 0 <= i < |steps| ==> Internal(steps[i])
    ensures Run(w, steps).generation == w.generation
    decreases |steps|
  {
    if steps != [] {
      InternalKeepsGeneration(Next(w, steps[0]), steps[1..]);
    }
  }

  // A publish that nothing interrupts.

  function PublishSteps<S>(p: nat, items: nat): seq<Step<S>> {
    [Bump(p)] + seq(items, _ => SubmitNext(p)) + [Finish(p)]
  }

  function Queued<S>(items: seq<Item<S>>, n: nat): seq<Item<S>>
    requires n <= |items|
  {
    seq(|items|, k requires 0 <= k < |items| => if k < n then items[k].(pending := true) else items[k])
  }

  /** After the bump and the first `n` submissions. */
  function Submitted<S>(w: World<S>, p: nat, n: nat): World<S>
    requires p < |w.publishers| && n <= |w.items|
  {
    World(w.generation + 1, w.cursors, Queued(w.items, n), w.publishers[p := Submitting(n)])
  }

  lemma SubmitOne<S>(w: World<S>, p: nat, n: nat)
    requires p < |w.publishers| && n < |w.items|
    ensures Enabled(Submitted(w, p, n), SubmitNext(p))
            && Next(Submitted(w, p, n), SubmitNext(p)) == Submitted(w, p, n + 1)
  {
    var a, b := Next(Submitted(w, p, n), SubmitNext(p)), Submitted(w, p, n + 1);
    assert a.items == b.items;
    assert a.publishers == b.publishers;
  }

  lemma {:induction false} RunAppend<S>(w: World<S>, a: seq<Step<S>>, b: seq<Step<S>>)
    requires IsRun(w, a) && IsRun(Run(w, a), b)
    ensures IsRun(w, a + b) && Run(w, a + b) == Run(Run(w, a), b)
    decreases |a|
  {
    if a == [] {
      assert a + b == b;
    } else {
      RunAppend(Next(w, a[0]), a[1..], b);
      assert (a + b)[1..] == a[1..] + b;
    }
  }

  lemma {:induction false} SubmitMany<S>(w: World<S>, p: nat, n: nat)
    requires p < |w.publishers| && w.publishers[p].Idle? && n <= |w.items|
    ensures IsRun(w, [Bump(p)] + seq(n, _ => SubmitNext(p)))
    ensures Run(w, [Bump(p)] + seq(n, _ => SubmitNext(p))) == Submitted(w, p, n)
  {
    if n == 0 {
      var start := [Step<S>.Bump(p)];
      assert start + seq(0, _ => SubmitNext(p)) == start;
      assert start[1..] == [];
      assert Queued(w.items, 0) == w.items;
    } else {
      var before := [Bump(p)] + seq(n - 1, _ => SubmitNext(p));
      SubmitMany(w, p, n - 1);
      SubmitOne(w, p, n - 1);
      var last := [Step<S>.SubmitNext(p)];
      assert last[1..] == [];
      RunAppend(w, before, last);
      assert [Bump(p)] + seq(n, _ => SubmitNext(p)) == before + [SubmitNext(p)];
    }
  }

  /**
   Bump, submit each item, finish: the generation is one higher, every item is queued, the
   publisher is idle again.
   */
  lemma PublishAlone<S>(w: World<S>, p: nat)
    requires p < |w.publishers| && w.publishers[p].Idle?
    ensures IsRun(w, PublishSteps(p, |w.items|))
    ensures Run(w, PublishSteps(p, |w.items|))
         == World(w.generation + 1, w.cursors, Queued(w.items, |w.items|), w.publishers)
  {
    var n := |w.items|;
    SubmitMany(w, p, n);
    var finish := [Step<S>.Finish(p)];
    assert finish[1..] == [];
    RunAppend(w, [Bump(p)] + seq(n, _ => SubmitNext(p)), finish);
    assert Submitted(w, p, n).publishers[p := Idle] == w.publishers;
  }

  // The state read off the steps that led to it, each field by the last step that concerns it.

  function Bumps<S>(steps: seq<Step<S>>): nat {
    if steps == [] then 0 else Bumps(steps[..|steps| - 1]) + if steps[|steps| - 1].Bump? then 1 else 0
  }

  /** The next item of publisher `p`: the number of its submissions since its last bump. */
  function PublisherAfter<S>(steps: seq<Step<S>>, p: nat): Publisher {
    if steps == [] then Idle else
      var before, last := steps[..|steps| - 1], steps[|steps| - 1];
      match last
      case Bump(q) => if q == p then Submitting(0) else PublisherAfter(before, p)
      case SubmitNext(q) =>
        if q == p then Submitting(Position(PublisherAfter(before, p)) + 1) else PublisherAfter(before, p)
      case Finish(q) => if q == p then Idle else PublisherAfter(before, p)
      case _ => PublisherAfter(before, p)
  }

  function Position(p: Publisher): nat {
    if p.Submitting? then p.next else 0
  }

  /** The subscribers of the items registered, each with the number of bumps before. */
  function Registrations<S>(steps: seq<Step<S>>): seq<(S, nat)> {
    if steps == [] then [] else
      var before, last := steps[..|steps| - 1], steps[|steps| - 1];
      Registrations(before) + if last.Register? then [(last.sub, Bumps(before))] else []
  }

  /** Item `k` was submitted by any publisher since its handler was last called. */
  predicate PendingAfter<S>(steps: seq<Step<S>>, k: nat) {
    steps != [] &&
    var before, last := steps[..|steps| - 1], steps[|steps| - 1];
    match last
    case SubmitNext(q) => Position(PublisherAfter(before, q)) == k || PendingAfter(before, k)
    case Start(i) => i != k && PendingAfter(before, k)
    case _ => PendingAfter(before, k)
  }

  /** The handler of item `k` was called and has not polled since. */
  predicate RunningAfter<S>(steps: seq<Step<S>>, k: nat) {
    steps != [] &&
    var before, last := steps[..|steps| - 1], steps[|steps| - 1];
    match last
    case Start(i) => i == k || RunningAfter(before, k)
    case HandlerPoll(i) => i != k && RunningAfter(before, k)
    case _ => RunningAfter(before, k)
  }

  /** The number of bumps before each subscriber's last poll, or the cursor it came with. */
  function SeenAfter<S>(steps: seq<Step<S>>): map<S, nat> {
    if steps == [] then map[] else
      var before, last := steps[..|steps| - 1], steps[|steps| - 1];
      match last
      case HandlerPoll(k) =>
        if k < |Registrations(before)| then SeenAfter(before)[Registrations(before)[k].0 := Bumps(before)]
        else SeenAfter(before)
      case Poll(sub) => SeenAfter(before)[sub := Bumps(before)]
      case Arrive(sub, cursor) => SeenAfter(before)[sub := cursor]
      case _ => SeenAfter(before)
  }

  ghost predicate ItemReadsOff<S>(i: Item<S>, steps: seq<Step<S>>, k: nat) {
    && k < |Registrations(steps)| && (i.sub, i.registeredAt) == Registrations(steps)[k]
    && i.pending == PendingAfter(steps, k) && i.running == RunningAfter(steps, k)
  }

  ghost predicate ReadsOff<S>(w: World<S>, steps: seq<Step<S>>) {
    && w.generation == Bumps(steps) && w.cursors == SeenAfter(steps)
    && |w.items| == |Registrations(steps)|
    && (forall p :: 0 <= p < |w.publishers| ==> w.publishers[p] == PublisherAfter(steps, p))
    && (forall k :: 0 <= k < |w.items| ==> ItemReadsOff(w.items[k], steps, k))
    && (forall k: nat :: k >= |w.items| ==> !PendingAfter(steps, k) && !RunningAfter(steps, k))
  }

  lemma LastStep<S>(before: seq<Step<S>>, s: Step<S>)
    ensures before + [s] != [] && (before + [s])[..|before + [s]| - 1] == before
    ensures (before + [s])[|before + [s]| - 1] == s
  {
  }

  lemma StepPublishers<S>(w: World<S>, before: seq<Step<S>>, s: Step<S>, p: nat)
    requires ReadsOff(w, before) && Enabled(w, s) && p < |w.publishers|
    ensures Next(w, s).publishers[p] == PublisherAfter(before + [s], p)
    ensures Next(w, s).generation == Bumps(before + [s])
  {
    LastStep(before, s);
  }

  lemma StepRegistrations<S>(w: World<S>, before: seq<Step<S>>, s: Step<S>)
    requires ReadsOff(w, before) && Enabled(w, s)
    ensures Registrations(before + [s])
         == Registrations(before) + if s.Register? then [(s.sub, w.generation)] else []
    ensures Next(w, s).cursors == SeenAfter(before + [s])
  {
    LastStep(before, s);
    if s.HandlerPoll? {
      assert ItemReadsOff(w.items[s.k], before, s.k);
    }
  }

  lemma StepFlags<S>(w: World<S>, before: seq<Step<S>>, s: Step<S>, k: nat)
    requires ReadsOff(w, before) && Enabled(w, s)
    ensures var v := Next(w, s);
            && PendingAfter(before + [s], k) == (k < |v.items| && v.items[k].pending)
            && RunningAfter(before + [s], k) == (k < |v.items| && v.items[k].running)
  {
    LastStep(before, s);
    if k < |w.items| {
      assert ItemReadsOff(w.items[k], before, k);
    } else {
      assert !PendingAfter(before, k) && !RunningAfter(before, k);
    }
    if s.SubmitNext? {
      assert w.publishers[s.p] == PublisherAfter(before, s.p);
    }
  }

  lemma StepReadsOff<S>(w: World<S>, before: seq<Step<S>>, s: Step<S>)
    requires ReadsOff(w, before) && Enabled(w, s)
    ensures ReadsOff(Next(w, s), before + [s])
  {
    var v, steps := Next(w, s), before + [s];
    StepRegistrations(w, before, s);
    if w.publishers == [] {
      LastStep(before, s);
    }
    forall p | 0 <= p < |v.publishers|
      ensures v.publishers[p] == PublisherAfter(steps, p)
    {
      StepPublishers(w, before, s, p);
    }
    forall k | 0 <= k < |v.items|
      ensures ItemReadsOff(v.items[k], steps, k)
    {
      StepFlags(w, before, s, k);
      if k < |w.items| {
        assert ItemReadsOff(w.items[k], before, k);
      }
    }
    forall k: nat | k >= |v.items|
      ensures !PendingAfter(steps, k) && !RunningAfter(steps, k)
    {
      StepFlags(w, before, s, k);
    }
    LastStep(before, s);
  }

  lemma {:induction false} RunEndsWith<S>(w: World<S>, before: seq<Step<S>>, s: Step<S>)
    requires IsRun(w, before + [s])
    ensures IsRun(w, before) && Enabled(Run(w, before), s)
    ensures Run(w, before + [s]) == Next(Run(w, before), s)
    decreases |before|
  {
    var steps := before + [s];
    if before == [] {
      assert steps[1..] == [];
    } else {
      assert steps[1..] == before[1..] + [s];
      RunEndsWith(Next(w, before[0]), before[1..], s);
    }
  }

  /** Over every interleaving the state is what the steps so far say, field by field. */
  lemma {:induction false} RunReadsOff<S>(publishers: nat, steps: seq<Step<S>>)
    requires IsRun(Initial(publishers), steps)
    ensures ReadsOff(Run(Initial(publishers), steps), steps)
    ensures |Run(Initial(publishers), steps).publishers| == publishers
    decreases |steps|
  {
    if steps != [] {
      var before, s := steps[..|steps| - 1], steps[|steps| - 1];
      assert steps == before + [s];
      RunEndsWith(Initial(publishers), before, s);
      RunReadsOff(publishers, before);
      StepReadsOff(Run(Initial(publishers), before), before, s);
    }
  }
}

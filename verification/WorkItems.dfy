/**
 The work items a queue topic schedules: each is submitted once every so many publishes.
 A handle of type `W` stands for the registered object.
 */
module WorkItems {
  import opened Remainders
  import opened Wrappers

  const MAX_WORK_ITEM := 32

  datatype Schedule<W> = Schedule(workItem: W, required: uint8, updates: uint8)

  /** How many publishes make one submission; asking for none is as asking for one. */
  function Period<W>(s: Schedule<W>): nat {
    if s.required == 0 then 1 else s.required as nat
  }

  /** The counter is below its period. */
  ghost predicate Counting<W>(s: Schedule<W>) {
    s.updates as nat < Period(s)
  }

  /** This publish completes a period. */
  predicate Due<W>(s: Schedule<W>) {
    s.updates as int + 1 >= s.required as int
  }

  function Tick<W>(s: Schedule<W>): Schedule<W>
    requires Counting(s)
  {
    Schedule(s.workItem, s.required, if Due(s) then 0 else s.updates + 1)
  }

  ghost predicate AllCounting<W>(items: seq<Schedule<W>>) {
    forall i :: 0 <= i < |items| ==> Counting(items[i])
  }

  function TickAll<W>(items: seq<Schedule<W>>): (r: seq<Schedule<W>>)
    requires AllCounting(items)
    ensures |r| == |items| && AllCounting(r)
  {
    seq(|items|, i requires 0 <= i < |items| => Tick(items[i]))
  }

  /** The items one publish submits among the first `n`, by number and in order of registration. */
  function SubmittedAmong<W>(items: seq<Schedule<W>>, n: nat): (numbers: seq<nat>)
    requires n <= |items|
    ensures forall k :: 0 <= k < |numbers| ==> numbers[k] < n
  {
    if n == 0 then [] else
      SubmittedAmong(items, n - 1) + (if Due(items[n - 1]) then [n - 1] else [])
  }

  function Handles<W>(items: seq<Schedule<W>>, numbers: seq<nat>): (handles: seq<W>)
    requires forall k :: 0 <= k < |numbers| ==> numbers[k] < |items|
    ensures |handles| == |numbers|
  {
    seq(|numbers|, k requires 0 <= k < |numbers| => items[numbers[k]].workItem)
  }

  /** The handles one publish submits. */
  function Submitted<W>(items: seq<Schedule<W>>): seq<W> {
    Handles(items, SubmittedAmong(items, |items|))
  }

  function Registered<W>(items: seq<Schedule<W>>, w: W, required: uint8): seq<Schedule<W>> {
    if |items| >= MAX_WORK_ITEM then items else items + [Schedule(w, required, 0)]
  }

  /** The first item with this handle gets a new period and starts counting afresh. */
  function WithRequired<W(==)>(items: seq<Schedule<W>>, w: W, required: uint8): seq<Schedule<W>> {
    if items == [] then [] else
    if items[0].workItem == w then [Schedule(w, required, 0)] + items[1..]
    else [items[0]] + WithRequired(items[1..], w, required)
  }

  /** Index `i` is the first with handle `w`. */
  ghost predicate FirstWith<W>(items: seq<Schedule<W>>, w: W, i: nat) {
    && i < |items| && items[i].workItem == w
    && forall k :: 0 <= k < i ==> items[k].workItem != w
  }

  ghost predicate Holds<W>(items: seq<Schedule<W>>, w: W) {
    exists i :: 0 <= i < |items| && items[i].workItem == w
  }

  lemma {:induction false} WithRequiredAt<W>(items: seq<Schedule<W>>, w: W, required: uint8, i: nat)
    requires FirstWith(items, w, i)
    ensures WithRequired(items, w, required) == items[i := Schedule(w, required, 0)]
  {
    if i > 0 {
      assert FirstWith(items[1..], w, i - 1);
      WithRequiredAt(items[1..], w, required, i - 1);
    }
  }

  lemma {:induction false} WithRequiredNowhere<W>(items: seq<Schedule<W>>, w: W, required: uint8)
    requires !Holds(items, w)
    ensures WithRequired(items, w, required) == items
  {
    if items != [] {
      assert items[0].workItem != w;
      WithRequiredNowhere(items[1..], w, required);
    }
  }

  // Histories.

  datatype TopicOp<W> = Publishes | Registers(w: W, required: uint8) | SetsRequired(w: W, required: uint8)

  function Apply<W(==)>(items: seq<Schedule<W>>, op: TopicOp<W>): seq<Schedule<W>>
    requires AllCounting(items)
  {
    match op
    case Publishes => TickAll(items)
    case Registers(w, r) => Registered(items, w, r)
    case SetsRequired(w, r) => WithRequired(items, w, r)
  }

  lemma {:induction false} WithRequiredKeeps<W>(items: seq<Schedule<W>>, w: W, required: uint8)
    requires AllCounting(items)
    ensures AllCounting(WithRequired(items, w, required)) && |WithRequired(items, w, required)| == |items|
  {
    if items != [] {
      WithRequiredKeeps(items[1..], w, required);
    }
  }

  lemma ApplyKeepsCounting<W>(items: seq<Schedule<W>>, op: TopicOp<W>)
    requires AllCounting(items)
    ensures AllCounting(Apply(items, op))
    ensures |Apply(items, op)| == if op.Registers? && |items| < MAX_WORK_ITEM then |items| + 1 else |items|
  {
    if op.SetsRequired? {
      WithRequiredKeeps(items, op.w, op.required);
    }
  }

  /** The items after a history that starts with none registered. */
  function After<W(==)>(ops: seq<TopicOp<W>>): (items: seq<Schedule<W>>)
    ensures AllCounting(items) && |items| <= MAX_WORK_ITEM
  {
    if ops == [] then [] else
      ApplyKeepsCounting(After(ops[..|ops| - 1]), ops[|ops| - 1]);
      Apply(After(ops[..|ops| - 1]), ops[|ops| - 1])
  }

  /** The operation registers item `i`, or sets its period. */
  ghost predicate Restarts<W>(items: seq<Schedule<W>>, op: TopicOp<W>, i: nat) {
    match op
    case Publishes => false
    case Registers(_, _) => i >= |items|
    case SetsRequired(w, _) => FirstWith(items, w, i)
  }

  /** Publishes since item `i` was registered or last had its period set. */
  ghost function PublishesSince<W>(ops: seq<TopicOp<W>>, i: nat): nat {
    if ops == [] then 0 else
      var before, op := ops[..|ops| - 1], ops[|ops| - 1];
      var now := if op.Publishes? then 1 else 0;
      if Restarts(After(before), op, i) then 0 else PublishesSince(before, i) + now
  }

  /** How often a publish submits item `i`. */
  ghost function TimesSubmitted<W>(items: seq<Schedule<W>>, i: nat): nat {
    multiset(SubmittedAmong(items, |items|))[i]
  }

  lemma CountWithLast(before: seq<nat>, after: seq<nat>, x: nat, i: nat, appends: bool)
    requires after == before + (if appends then [x] else [])
    ensures multiset(after)[i] == multiset(before)[i] + if appends && x == i then 1 else 0
  {
  }

  /** A publish submits an item once when it is due, and otherwise not at all. */
  lemma {:induction false} SubmittedOnceWhenDue<W>(items: seq<Schedule<W>>, n: nat, i: nat)
    requires n <= |items|
    ensures multiset(SubmittedAmong(items, n))[i] == if i < n && Due(items[i]) then 1 else 0
  {
    if n > 0 {
      SubmittedOnceWhenDue(items, n - 1, i);
      CountWithLast(SubmittedAmong(items, n - 1), SubmittedAmong(items, n), n - 1, i, Due(items[n - 1]));
    }
  }

  /** Strictly increasing, below `n`. */
  ghost predicate Increasing(numbers: seq<nat>, n: nat) {
    && (forall j, k :: 0 <= j < k < |numbers| ==> numbers[j] < numbers[k])
    && (forall k :: 0 <= k < |numbers| ==> numbers[k] < n)
  }

  lemma IncreasingAppended(numbers: seq<nat>, x: nat)
    requires Increasing(numbers, x)
    ensures Increasing(numbers, x + 1) && Increasing(numbers + [x], x + 1)
  {
  }

  lemma {:induction false} SubmittedInOrder<W>(items: seq<Schedule<W>>, n: nat)
    requires n <= |items|
    ensures Increasing(SubmittedAmong(items, n), n)
  {
    if n > 0 {
      SubmittedInOrder(items, n - 1);
      IncreasingAppended(SubmittedAmong(items, n - 1), n - 1);
      assert !Due(items[n - 1]) ==> SubmittedAmong(items, n) == SubmittedAmong(items, n - 1);
    }
  }

  /** Submissions of item `i` over the same stretch. */
  ghost function SubmissionsSince<W>(ops: seq<TopicOp<W>>, i: nat): nat {
    if ops == [] then 0 else
      var before, op := ops[..|ops| - 1], ops[|ops| - 1];
      var now := if op.Publishes? then TimesSubmitted(After(before), i) else 0;
      if Restarts(After(before), op, i) then 0 else SubmissionsSince(before, i) + now
  }

  /** An operation that is not a publish and does not restart item `i` leaves it alone. */
  lemma OthersUntouched<W>(items: seq<Schedule<W>>, op: TopicOp<W>, i: nat)
    requires AllCounting(items) && i < |items| && !op.Publishes? && !Restarts(items, op, i)
    ensures |Apply(items, op)| >= |items| && Apply(items, op)[i] == items[i]
  {
    match op
    case Registers(w, r) =>
    case SetsRequired(w, r) =>
      if Holds(items, w) {
        var k := FirstIndex(items, w);
        WithRequiredAt(items, w, r, k);
      } else {
        WithRequiredNowhere(items, w, r);
      }
  }

  lemma FirstIndex<W>(items: seq<Schedule<W>>, w: W) returns (k: nat)
    requires Holds(items, w)
    ensures FirstWith(items, w, k)
  {
    var some :| 0 <= some < |items| && items[some].workItem == w;
    k := 0;
    while items[k].workItem != w
      invariant k <= some
      invariant forall j :: 0 <= j < k ==> items[j].workItem != w
      decreases some - k
    {
      k := k + 1;
    }
  }

  lemma RestartedIsFresh<W>(items: seq<Schedule<W>>, op: TopicOp<W>, i: nat)
    requires AllCounting(items) && Restarts(items, op, i) && i < |Apply(items, op)|
    ensures Apply(items, op)[i].updates == 0
  {
    if op.SetsRequired? {
      WithRequiredAt(items, op.w, op.required, i);
    }
  }

  /**
   Over every history and for every item: since its period was fixed, publishes are
   submissions times the period plus the counter, and the counter is below the period, so it
   never reaches 255 and wraps.
   */
  lemma {:induction false} RateIsExact<W>(ops: seq<TopicOp<W>>, i: nat)
    requires i < |After(ops)|
    ensures var s := After(ops)[i];
            && PublishesSince(ops, i) == SubmissionsSince(ops, i) * Period(s) + s.updates as nat
            && s.updates as nat < Period(s)
            && s.updates < 255
    decreases |ops|
  {
    var before, op := ops[..|ops| - 1], ops[|ops| - 1];
    var items := After(before);
    if Restarts(items, op, i) {
      RestartedIsFresh(items, op, i);
    } else {
      ApplyKeepsCounting(items, op);
      RateIsExact(before, i);
      if op.Publishes? {
        SubmittedOnceWhenDue(items, |items|, i);
        TickCounts(items[i], PublishesSince(before, i), SubmissionsSince(before, i));
      } else {
        OthersUntouched(items, op, i);
      }
    }
  }

  lemma TickCounts<W>(s: Schedule<W>, published: nat, submitted: nat)
    requires Counting(s) && published == submitted * Period(s) + s.updates as nat
    ensures published + 1 == (submitted + (if Due(s) then 1 else 0)) * Period(Tick(s)) + Tick(s).updates as nat
  {
  }

  /** The next publish submits item `i` exactly when it makes a multiple of the period. */
  lemma DueEveryPeriod<W>(ops: seq<TopicOp<W>>, i: nat)
    requires i < |After(ops)|
    ensures Due(After(ops)[i]) <==> (PublishesSince(ops, i) + 1) % Period(After(ops)[i]) == 0
  {
    RateIsExact(ops, i);
    var s, k := After(ops)[i], SubmissionsSince(ops, i);
    MultipleWhenFull(k, Period(s), s.updates as nat + 1);
  }

  // What was asked for.

  /** The handle item `i` was registered with. */
  ghost function HandleGiven<W>(ops: seq<TopicOp<W>>, i: nat): Option<W> {
    if ops == [] then None else
      var before, op := ops[..|ops| - 1], ops[|ops| - 1];
      if op.Registers? && i == |After(before)| < MAX_WORK_ITEM then Some(op.w) else HandleGiven(before, i)
  }

  /** The period last asked for item `i`, when it was registered or set. */
  ghost function PeriodAsked<W>(ops: seq<TopicOp<W>>, i: nat): uint8 {
    if ops == [] then 0 else
      var before, op := ops[..|ops| - 1], ops[|ops| - 1];
      if op.Registers? && i == |After(before)| < MAX_WORK_ITEM then op.required
      else if op.SetsRequired? && FirstWith(After(before), op.w, i) then op.required
      else PeriodAsked(before, i)
  }

  /** Over every history each item has the handle it was given and the period last asked for. */
  lemma {:induction false} ItemsAreAsAsked<W>(ops: seq<TopicOp<W>>, i: nat)
    requires i < |After(ops)|
    ensures HandleGiven(ops, i) == Some(After(ops)[i].workItem)
    ensures After(ops)[i].required == PeriodAsked(ops, i)
    decreases |ops|
  {
    var before, op := ops[..|ops| - 1], ops[|ops| - 1];
    var items := After(before);
    ApplyKeepsCounting(items, op);
    if i < |items| {
      ItemsAreAsAsked(before, i);
      if op.SetsRequired? && FirstWith(items, op.w, i) {
        WithRequiredAt(items, op.w, op.required, i);
      } else if !op.Publishes? {
        OthersUntouched(items, op, i);
      }
    }
  }

  /** One more publish makes a multiple of the period asked for item `i`. */
  ghost predicate CompletesPeriod<W>(ops: seq<TopicOp<W>>, i: nat) {
    var asked := PeriodAsked(ops, i) as nat;
    asked == 0 || (PublishesSince(ops, i) + 1) % asked == 0
  }

  lemma DueIsAsked<W>(ops: seq<TopicOp<W>>, i: nat)
    requires i < |After(ops)|
    ensures Due(After(ops)[i]) <==> CompletesPeriod(ops, i)
  {
    DueEveryPeriod(ops, i);
    ItemsAreAsAsked(ops, i);
  }

  /**
   The handles the next publish submits, after any history: those given for exactly the items for
   which it makes a multiple of the period last asked for, each once and in order of registration.
   Asking for 0 is as asking for 1.
   */
  lemma SubmittedAreDue<W>(ops: seq<TopicOp<W>>) returns (numbers: seq<nat>)
    ensures var items := After(ops);
            && Increasing(numbers, |items|) && |numbers| == |Submitted(items)|
            && (forall k :: 0 <= k < |numbers| ==> HandleGiven(ops, numbers[k]) == Some(Submitted(items)[k]))
            && (forall i: nat :: i in numbers <==> i < |items| && CompletesPeriod(ops, i))
  {
    var items := After(ops);
    numbers := SubmittedAmong(items, |items|);
    SubmittedInOrder(items, |items|);
    forall k | 0 <= k < |numbers|
      ensures HandleGiven(ops, numbers[k]) == Some(Submitted(items)[k])
    {
      ItemsAreAsAsked(ops, numbers[k]);
    }
    forall i: nat
      ensures i in numbers <==> i < |items| && CompletesPeriod(ops, i)
    {
      SubmittedOnceWhenDue(items, |items|, i);
      assert i in numbers <==> i in multiset(numbers);
      if i < |items| {
        DueIsAsked(ops, i);
      }
    }
  }
}

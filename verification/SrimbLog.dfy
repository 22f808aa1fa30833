/**
 The message bus as its users see it: an unbounded log of messages and a cursor per
 subscriber. Message number `g`, its generation, is `log[g - 1]`; a topic that holds the last
 `len` messages serves a cursor the next message it still holds.
 */
module SrimbLog {
  import opened Wrappers

  /** The generation a subscriber saw last, and whether it was told that it missed some. */
  datatype Cursor = Cursor(last: nat, missed: bool)

  /** The oldest generation still held; 0 before the first message. */
  function Oldest(total: nat, len: nat): nat {
    if total == 0 then 0 else if total <= len then 1 else total - len + 1
  }

  /** The generation the next successful poll delivers. */
  function NextGeneration(total: nat, len: nat, last: nat): nat {
    if last + 1 < Oldest(total, len) then Oldest(total, len) else last + 1
  }

  function PollLog<T>(log: seq<T>, len: nat, c: Cursor): (Option<T>, Cursor)
    requires c.last <= |log| && 0 < len
  {
    if c.last == |log| then (None, c) else
      var g := NextGeneration(|log|, len, c.last);
      (Some(log[g - 1]), Cursor(g, c.missed || c.last + 1 < g))
  }

  /** Generation `g` is among the last `len`. */
  ghost predicate Held(total: nat, len: nat, g: nat) {
    1 <= g <= total && total - g < len
  }

  /** A poll succeeds exactly when a held generation is newer than the cursor, and delivers the oldest such. */
  lemma PollDeliversNextHeld<T>(log: seq<T>, len: nat, c: Cursor)
    requires c.last <= |log| && 0 < len
    ensures var (out, next) := PollLog(log, len, c);
            && (out.Some? <==> exists g :: c.last < g && Held(|log|, len, g))
            && (out.Some? ==> c.last < next.last && Held(|log|, len, next.last) && out.value == log[next.last - 1])
            && (out.Some? ==> forall g :: c.last < g && Held(|log|, len, g) ==> next.last <= g)
            && (next.missed <==> c.missed || exists g :: c.last < g < next.last && !Held(|log|, len, g))
  {
    if c.last < |log| {
      assert Held(|log|, len, |log|);
      var next := NextGeneration(|log|, len, c.last);
      assert c.last + 1 < next ==> !Held(|log|, len, c.last + 1);
    }
  }

  // Runs with any number of subscribers.

  datatype Delivery<T> = Delivery(generation: nat, payload: T)

  /** A subscriber's cursor and everything it received, in order. */
  datatype Subscriber<T> = Subscriber(cursor: Cursor, got: seq<Delivery<T>>)

  datatype Bus<T> = Bus(log: seq<T>, subs: seq<Subscriber<T>>)

  datatype Event<T> = Publish(x: T) | Poll(s: nat)

  const FRESH := Cursor(0, false)

  ghost predicate WithinLog<T>(b: Bus<T>) {
    forall s :: 0 <= s < |b.subs| ==> b.subs[s].cursor.last <= |b.log|
  }

  function PollSubscriber<T>(log: seq<T>, len: nat, sub: Subscriber<T>): Subscriber<T>
    requires sub.cursor.last <= |log| && 0 < len
  {
    var (out, c) := PollLog(log, len, sub.cursor);
    Subscriber(c, if out.Some? then sub.got + [Delivery(c.last, out.value)] else sub.got)
  }

  ghost function StepBus<T>(b: Bus<T>, len: nat, e: Event<T>): (r: Bus<T>)
    requires WithinLog(b) && 0 < len
    ensures WithinLog(r) && |r.subs| == |b.subs|
  {
    match e
    case Publish(x) => Bus(b.log + [x], b.subs)
    case Poll(s) =>
      if s < |b.subs| then Bus(b.log, b.subs[s := PollSubscriber(b.log, len, b.subs[s])]) else b
  }

  ghost function RunBus<T>(b: Bus<T>, len: nat, es: seq<Event<T>>): (r: Bus<T>)
    requires WithinLog(b) && 0 < len
    ensures WithinLog(r) && |r.subs| == |b.subs|
    decreases |es|
  {
    if es == [] then b else StepBus(RunBus(b, len, es[..|es| - 1]), len, es[|es| - 1])
  }

  /** No messages, and `n` subscribers that have seen none. */
  function NewBus<T>(n: nat): Bus<T> {
    Bus([], seq(n, _ => Subscriber(FRESH, [])))
  }

  // What every subscriber received.

  /** Generations strictly increase up to the cursor, and each payload is the message of its generation. */
  ghost predicate Faithful<T>(log: seq<T>, sub: Subscriber<T>) {
    && (forall i, j :: 0 <= i < j < |sub.got| ==> sub.got[i].generation < sub.got[j].generation)
    && (forall i :: 0 <= i < |sub.got| ==>
          1 <= sub.got[i].generation <= |log| && sub.got[i].payload == log[sub.got[i].generation - 1])
    && sub.cursor.last == (if sub.got == [] then 0 else sub.got[|sub.got| - 1].generation)
  }

  /** Generation `g` is behind the cursor and was never delivered. */
  ghost predicate Skipped<T>(sub: Subscriber<T>, g: nat) {
    1 <= g <= sub.cursor.last && forall i :: 0 <= i < |sub.got| ==> sub.got[i].generation != g
  }

  ghost predicate Gapless<T>(sub: Subscriber<T>) {
    && |sub.got| == sub.cursor.last
    && forall i :: 0 <= i < |sub.got| ==> sub.got[i].generation == i + 1
  }

  /** The flag is up exactly when some generation was skipped. */
  ghost predicate FlagIsHonest<T>(sub: Subscriber<T>) {
    && (sub.cursor.missed ==> exists g :: Skipped(sub, g))
    && (!sub.cursor.missed ==> Gapless(sub))
  }

  lemma AppendKeepsFaithful<T>(log: seq<T>, sub: Subscriber<T>, g: nat, missed: bool)
    requires Faithful(log, sub) && sub.cursor.last < g <= |log|
    ensures Faithful(log, Subscriber(Cursor(g, missed), sub.got + [Delivery(g, log[g - 1])]))
  {
    var got := sub.got + [Delivery(g, log[g - 1])];
    forall i, j | 0 <= i < j < |got|
      ensures got[i].generation < got[j].generation
    {
      assert sub.got[i].generation <= sub.cursor.last;
    }
  }

  lemma PublishKeepsFaithful<T>(log: seq<T>, x: T, sub: Subscriber<T>)
    requires Faithful(log, sub)
    ensures Faithful(log + [x], sub)
  {
  }

  /** A poll either changes nothing or delivers one message with a larger generation. */
  lemma PollDelivers<T>(log: seq<T>, len: nat, sub: Subscriber<T>)
    requires sub.cursor.last <= |log| && 0 < len
    ensures var g := NextGeneration(|log|, len, sub.cursor.last);
            PollSubscriber(log, len, sub)
            == if sub.cursor.last == |log| then sub
               else Subscriber(Cursor(g, sub.cursor.missed || sub.cursor.last + 1 < g),
                               sub.got + [Delivery(g, log[g - 1])])
  {
  }

  lemma PollKeepsFaithful<T>(log: seq<T>, len: nat, sub: Subscriber<T>)
    requires sub.cursor.last <= |log| && 0 < len && Faithful(log, sub)
    ensures Faithful(log, PollSubscriber(log, len, sub))
  {
    PollDelivers(log, len, sub);
    if sub.cursor.last < |log| {
      var g := NextGeneration(|log|, len, sub.cursor.last);
      AppendKeepsFaithful(log, sub, g, sub.cursor.missed || sub.cursor.last + 1 < g);
    }
  }

  lemma GaplessSkipsNothing<T>(sub: Subscriber<T>, g: nat)
    requires Gapless(sub)
    ensures !Skipped(sub, g)
  {
    if 1 <= g <= sub.cursor.last {
      assert sub.got[g - 1].generation == g;
    }
  }

  lemma PollKeepsFlag<T>(log: seq<T>, len: nat, sub: Subscriber<T>)
    requires sub.cursor.last <= |log| && 0 < len && Faithful(log, sub) && FlagIsHonest(sub)
    ensures FlagIsHonest(PollSubscriber(log, len, sub))
  {
    var next := PollSubscriber(log, len, sub);
    if sub.cursor.missed {
      var g :| Skipped(sub, g);
      assert Skipped(next, g);
    } else if sub.cursor.last + 1 < next.cursor.last {
      assert Skipped(next, sub.cursor.last + 1);
    }
  }

  lemma StepKeepsFaithful<T>(b: Bus<T>, len: nat, e: Event<T>, s: nat)
    requires WithinLog(b) && 0 < len && s < |b.subs|
    requires Faithful(b.log, b.subs[s]) && FlagIsHonest(b.subs[s])
    ensures Faithful(StepBus(b, len, e).log, StepBus(b, len, e).subs[s]) && FlagIsHonest(StepBus(b, len, e).subs[s])
  {
    match e
    case Publish(x) =>
      PublishKeepsFaithful(b.log, x, b.subs[s]);
    case Poll(k) =>
      if k == s {
        PollKeepsFaithful(b.log, len, b.subs[s]);
        PollKeepsFlag(b.log, len, b.subs[s]);
      }
  }

  /** Over every run, for every subscriber: faithful deliveries and an honest flag. */
  lemma {:induction false} RunIsFaithful<T>(n: nat, len: nat, es: seq<Event<T>>, s: nat)
    requires 0 < len && s < n
    ensures var b := RunBus(NewBus(n), len, es);
            Faithful(b.log, b.subs[s]) && FlagIsHonest(b.subs[s])
    decreases |es|
  {
    if es != [] {
      var before := es[..|es| - 1];
      RunIsFaithful(n, len, before, s);
      StepKeepsFaithful(RunBus(NewBus(n), len, before), len, es[|es| - 1], s);
    }
  }

  /** The two halves of the flag as one statement about any run. */
  lemma FlagMeansSkipped<T>(n: nat, len: nat, es: seq<Event<T>>, s: nat)
    requires 0 < len && s < n
    ensures var sub := RunBus(NewBus(n), len, es).subs[s];
            sub.cursor.missed <==> exists g :: Skipped(sub, g)
  {
    RunIsFaithful(n, len, es, s);
    var sub := RunBus(NewBus(n), len, es).subs[s];
    if g :| Skipped(sub, g) && !sub.cursor.missed {
      GaplessSkipsNothing(sub, g);
    }
  }

  /** At every poll of `s` during the run, at most `len` messages are waiting for it. */
  ghost predicate KeepsUp<T>(n: nat, len: nat, es: seq<Event<T>>, s: nat)
    requires 0 < len && s < n
  {
    forall k :: 0 <= k < |es| && es[k] == Poll(s) ==>
      var b := RunBus(NewBus(n), len, es[..k]);
      |b.log| - b.subs[s].cursor.last <= len
  }

  /** What was received is a prefix of the log, message by message, and the flag is down. */
  ghost predicate UpToDate<T>(log: seq<T>, sub: Subscriber<T>) {
    && !sub.cursor.missed
    && |sub.got| == sub.cursor.last <= |log|
    && forall i :: 0 <= i < |sub.got| ==> sub.got[i] == Delivery(i + 1, log[i])
  }

  lemma PollKeepsUp<T>(log: seq<T>, len: nat, sub: Subscriber<T>)
    requires 0 < len && UpToDate(log, sub) && |log| - sub.cursor.last <= len
    ensures UpToDate(log, PollSubscriber(log, len, sub))
  {
  }

  lemma KeepsUpBefore<T>(n: nat, len: nat, es: seq<Event<T>>, s: nat)
    requires 0 < len && s < n && es != [] && KeepsUp(n, len, es, s)
    ensures KeepsUp(n, len, es[..|es| - 1], s)
  {
    var before := es[..|es| - 1];
    forall k | 0 <= k < |before| && before[k] == Poll(s)
      ensures var b := RunBus(NewBus(n), len, before[..k]);
              |b.log| - b.subs[s].cursor.last <= len
    {
      assert es[k] == Poll(s) && before[..k] == es[..k];
    }
  }

  /** A subscriber that keeps up is never flagged and receives every message in order. */
  lemma {:induction false} KeepingUpMissesNothing<T>(n: nat, len: nat, es: seq<Event<T>>, s: nat)
    requires 0 < len && s < n && KeepsUp(n, len, es, s)
    ensures UpToDate(RunBus(NewBus(n), len, es).log, RunBus(NewBus(n), len, es).subs[s])
    decreases |es|
  {
    if es != [] {
      KeepsUpBefore(n, len, es, s);
      KeepingUpMissesNothing(n, len, es[..|es| - 1], s);
      var b := RunBus(NewBus(n), len, es[..|es| - 1]);
      if es[|es| - 1] == Poll(s) {
        PollKeepsUp(b.log, len, b.subs[s]);
      }
    }
  }

  // Polling without new messages.

  function PollTimes<T>(log: seq<T>, len: nat, c: Cursor, k: nat): (r: Cursor)
    requires c.last <= |log| && 0 < len
    ensures r.last <= |log|
  {
    if k == 0 then c else PollLog(log, len, PollTimes(log, len, c, k - 1)).1
  }

  function Lag<T>(log: seq<T>, c: Cursor): nat
    requires c.last <= |log|
  {
    |log| - c.last
  }

  /**
   Poll number `k`, counted from 0, succeeds exactly while messages held are waiting, and delivers
   the `k`-th of them.
   */
  lemma {:induction false} PollsUntilDrained<T>(log: seq<T>, len: nat, c: Cursor, k: nat)
    requires c.last <= |log| && 0 < len
    ensures var waiting := Min(Lag(log, c), len);
            PollLog(log, len, PollTimes(log, len, c, k)).0
            == if k < waiting then Some(log[|log| - waiting + k]) else None
    decreases k
  {
    if k == 0 {
    } else {
      PollsUntilDrained(log, len, c, k - 1);
      PollTimesLast(log, len, c, k);
    }
  }

  lemma {:induction false} PollTimesLast<T>(log: seq<T>, len: nat, c: Cursor, k: nat)
    requires c.last <= |log| && 0 < len
    ensures k > 0 ==> PollTimes(log, len, c, k).last == |log| - Min(Lag(log, c), len) + Min(k, Min(Lag(log, c), len))
    decreases k
  {
    if k > 1 {
      PollTimesLast(log, len, c, k - 1);
    }
  }

  // What a run leaves, read off its events.

  function Published<T>(es: seq<Event<T>>): seq<T> {
    if es == [] then [] else
      Published(es[..|es| - 1]) + match es[|es| - 1] case Publish(x) => [x] case Poll(_) => []
  }

  /** The log is what was published, in order. */
  lemma {:induction false} LogIsPublished<T>(b: Bus<T>, len: nat, es: seq<Event<T>>)
    requires WithinLog(b) && 0 < len
    ensures RunBus(b, len, es).log == b.log + Published(es)
    decreases |es|
  {
    if es != [] {
      LogIsPublished(b, len, es[..|es| - 1]);
    }
  }

  /** Events of others leave a subscriber as it was. */
  lemma {:induction false} OthersLeaveAlone<T>(b: Bus<T>, len: nat, es: seq<Event<T>>, s: nat)
    requires WithinLog(b) && 0 < len && s < |b.subs| && Poll(s) !in es
    ensures RunBus(b, len, es).subs[s] == b.subs[s]
    decreases |es|
  {
    if es != [] {
      OthersLeaveAlone(b, len, es[..|es| - 1], s);
    }
  }

  /** Messages `from + 1` to `from + k` of the log, with their generations. */
  function Deliveries<T>(log: seq<T>, from: nat, k: nat): seq<Delivery<T>>
    requires from + k <= |log|
  {
    seq(k, i requires 0 <= i < k => Delivery(from + i + 1, log[from + i]))
  }

  /** A subscriber after `k` polls of the same log. */
  function PolledTimes<T>(log: seq<T>, len: nat, sub: Subscriber<T>, k: nat): (r: Subscriber<T>)
    requires sub.cursor.last <= |log| && 0 < len
    ensures r.cursor.last <= |log|
  {
    if k == 0 then sub else PollSubscriber(log, len, PolledTimes(log, len, sub, k - 1))
  }

  lemma {:induction false} PollsReceive<T>(log: seq<T>, len: nat, sub: Subscriber<T>, k: nat)
    requires sub.cursor.last <= |log| && 0 < len && k <= Min(Lag(log, sub.cursor), len)
    ensures var from := |log| - Min(Lag(log, sub.cursor), len);
            PolledTimes(log, len, sub, k)
              == if k == 0 then sub else
                   Subscriber(Cursor(from + k, sub.cursor.missed || from > sub.cursor.last),
                              sub.got + Deliveries(log, from, k))
  {
    if k > 0 {
      var from := |log| - Min(Lag(log, sub.cursor), len);
      PollsReceive(log, len, sub, k - 1);
      PollDelivers(log, len, PolledTimes(log, len, sub, k - 1));
      assert Deliveries(log, from, k) == Deliveries(log, from, k - 1) + [Delivery(from + k, log[from + k - 1])];
      assert k == 1 ==> Deliveries(log, from, k - 1) == [];
    }
  }

  lemma RunBusExtends<T>(b: Bus<T>, len: nat, es: seq<Event<T>>, e: Event<T>)
    requires WithinLog(b) && 0 < len
    ensures RunBus(b, len, es + [e]) == StepBus(RunBus(b, len, es), len, e)
  {
    assert (es + [e])[..|es|] == es;
  }

  lemma PollReplaces<T>(b: Bus<T>, len: nat, s: nat, x: Subscriber<T>, r: Bus<T>)
    requires WithinLog(b) && 0 < len && s < |b.subs| && x.cursor.last <= |b.log|
    requires r == Bus(b.log, b.subs[s := x])
    ensures WithinLog(r)
    ensures StepBus(r, len, Poll(s)) == Bus(b.log, b.subs[s := PollSubscriber(b.log, len, x)])
  {
  }

  lemma {:induction false} PollsOnBus<T>(b: Bus<T>, len: nat, s: nat, k: nat)
    requires WithinLog(b) && 0 < len && s < |b.subs|
    ensures RunBus(b, len, seq(k, _ => Poll(s))) == Bus(b.log, b.subs[s := PolledTimes(b.log, len, b.subs[s], k)])
  {
    if k > 0 {
      var before, x := seq(k - 1, _ => Poll(s)), PolledTimes(b.log, len, b.subs[s], k - 1);
      PollsOnBus(b, len, s, k - 1);
      RunBusExtends(b, len, before, Poll(s));
      PollReplaces(b, len, s, x, RunBus(b, len, before));
      assert seq(k, _ => Poll(s)) == before + [Poll(s)];
    } else {
      assert seq(0, _ => Event<T>.Poll(s)) == [];
    }
  }

  /**
   A subscriber of a bus in any state that polls while nobody publishes receives the messages still
   held that it has not seen, oldest first, and each poll brings the next.
   */
  lemma CatchesUp<T>(b: Bus<T>, len: nat, s: nat, k: nat)
    requires WithinLog(b) && 0 < len && s < |b.subs|
    requires 0 < k <= Min(Lag(b.log, b.subs[s].cursor), len)
    ensures var sub := RunBus(b, len, seq(k, _ => Poll(s))).subs[s];
            var from := |b.log| - Min(Lag(b.log, b.subs[s].cursor), len);
            && sub.got == b.subs[s].got + Deliveries(b.log, from, k)
            && sub.cursor == Cursor(from + k, b.subs[s].cursor.missed || from > b.subs[s].cursor.last)
  {
    PollsOnBus(b, len, s, k);
    PollsReceive(b.log, len, b.subs[s], k);
  }

  // A topic that keeps only the latest message.

  function PollLatest<T>(log: seq<T>, c: Cursor): (Option<T>, Cursor)
    requires c.last <= |log|
  {
    if c.last == |log| then (None, c) else (Some(log[|log| - 1]), Cursor(|log|, c.missed))
  }

  /** What a caller can observe of a topic, flag aside. */
  datatype Observation<T> = Polled(out: Option<T>, last: nat) | Updated(hasNew: bool)

  datatype Call<T> = CallPublish(x: T) | CallPoll(s: nat) | CallUpdated(s: nat)

  ghost predicate CursorsWithin(cs: seq<Cursor>, total: nat) {
    forall s :: 0 <= s < |cs| ==> cs[s].last <= total
  }

  /** The observations of a run on a queue topic that holds `len` messages. */
  ghost function ObserveQueue<T>(log: seq<T>, len: nat, cs: seq<Cursor>, calls: seq<Call<T>>): seq<Observation<T>>
    requires 0 < len && CursorsWithin(cs, |log|)
    decreases |calls|
  {
    if calls == [] then [] else
      match calls[0]
      case CallPublish(x) => ObserveQueue(log + [x], len, cs, calls[1..])
      case CallPoll(s) =>
        if s >= |cs| then ObserveQueue(log, len, cs, calls[1..]) else
          var (out, c) := PollLog(log, len, cs[s]);
          [Polled(out, c.last)] + ObserveQueue(log, len, cs[s := c], calls[1..])
      case CallUpdated(s) =>
        if s >= |cs| then ObserveQueue(log, len, cs, calls[1..]) else
          [Updated(cs[s].last < |log|)] + ObserveQueue(log, len, cs, calls[1..])
  }

  /** The observations of the same run on a topic that holds the latest message. */
  ghost function ObserveLatest<T>(log: seq<T>, cs: seq<Cursor>, calls: seq<Call<T>>): seq<Observation<T>>
    requires CursorsWithin(cs, |log|)
    decreases |calls|
  {
    if calls == [] then [] else
      match calls[0]
      case CallPublish(x) => ObserveLatest(log + [x], cs, calls[1..])
      case CallPoll(s) =>
        if s >= |cs| then ObserveLatest(log, cs, calls[1..]) else
          var (out, c) := PollLatest(log, cs[s]);
          [Polled(out, c.last)] + ObserveLatest(log, cs[s := c], calls[1..])
      case CallUpdated(s) =>
        if s >= |cs| then ObserveLatest(log, cs, calls[1..]) else
          [Updated(cs[s].last != |log|)] + ObserveLatest(log, cs, calls[1..])
  }

  ghost predicate SameLast(cs: seq<Cursor>, ds: seq<Cursor>) {
    |cs| == |ds| && forall s :: 0 <= s < |cs| ==> cs[s].last == ds[s].last
  }

  /** A queue of length one and a latest-value topic cannot be told apart on any run. */
  lemma {:induction false} QueueOfOneIsLatest<T>(log: seq<T>, cs: seq<Cursor>, ds: seq<Cursor>, calls: seq<Call<T>>)
    requires CursorsWithin(cs, |log|) && SameLast(cs, ds)
    ensures CursorsWithin(ds, |log|)
    ensures ObserveQueue(log, 1, cs, calls) == ObserveLatest(log, ds, calls)
    decreases |calls|
  {
    if calls == [] {
    } else {
      match calls[0]
      case CallPublish(x) =>
        QueueOfOneIsLatest(log + [x], cs, ds, calls[1..]);
      case CallPoll(s) =>
        if s < |cs| {
          QueueOfOneIsLatest(log, cs[s := PollLog(log, 1, cs[s]).1], ds[s := PollLatest(log, ds[s]).1], calls[1..]);
        } else {
          QueueOfOneIsLatest(log, cs, ds, calls[1..]);
        }
      case CallUpdated(s) =>
        QueueOfOneIsLatest(log, cs, ds, calls[1..]);
    }
  }

  /** On both topics a publish is observed by the next update query and poll of anyone, and by one poll only. */
  lemma PublishIsObserved<T>(log: seq<T>, cs: seq<Cursor>, x: T, s: nat)
    requires CursorsWithin(cs, |log|) && s < |cs|
    ensures ObserveLatest(log, cs, [CallPublish(x), CallUpdated(s), CallPoll(s), CallUpdated(s), CallPoll(s)])
         == [Updated(true), Polled(Some(x), |log| + 1), Updated(false), Polled(None, |log| + 1)]
  {
    var now, after := log + [x], cs[s := Cursor(|log| + 1, cs[s].missed)];
    var last := [CallPoll(s)];
    ObserveOne(now, after, CallPoll(s), []);
    ObserveOne(now, after, CallUpdated(s), last);
    ObserveOne(now, cs, CallPoll(s), [CallUpdated(s)] + last);
    ObserveOne(now, cs, CallUpdated(s), [CallPoll(s)] + ([CallUpdated(s)] + last));
    ObserveOne(log, cs, CallPublish(x), [CallUpdated(s)] + ([CallPoll(s)] + ([CallUpdated(s)] + last)));
    assert after[s := after[s]] == after;
    assert [CallPublish(x), CallUpdated(s), CallPoll(s), CallUpdated(s), CallPoll(s)]
        == [CallPublish(x)] + ([CallUpdated(s)] + ([CallPoll(s)] + ([CallUpdated(s)] + last)));
  }

  lemma ObserveOne<T>(log: seq<T>, cs: seq<Cursor>, call: Call<T>, rest: seq<Call<T>>)
    requires CursorsWithin(cs, |log|)
    ensures ObserveLatest(log, cs, [call] + rest) ==
            match call
            case CallPublish(x) => ObserveLatest(log + [x], cs, rest)
            case CallPoll(s) =>
              if s >= |cs| then ObserveLatest(log, cs, rest) else
                [Polled(PollLatest(log, cs[s]).0, PollLatest(log, cs[s]).1.last)]
                + ObserveLatest(log, cs[s := PollLatest(log, cs[s]).1], rest)
            case CallUpdated(s) =>
              if s >= |cs| then ObserveLatest(log, cs, rest) else
                [Updated(cs[s].last != |log|)] + ObserveLatest(log, cs, rest)
  {
    assert ([call] + rest)[1..] == rest;
  }
}

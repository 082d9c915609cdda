/** Event fan-out: one bounded queue per subscriber, and a sentinel that always gets through. */
module FanOut {
  import opened Basics

  type Event = string
  datatype Item = Carry(event: Event) | Sentinel

  const CAPACITY := 1000

  /** `put_nowait` on a full queue raises, and the event is dropped. */
  function Offer(items: seq<Item>, e: Event): seq<Item> {
    if |items| < CAPACITY then items + [Carry(e)] else items
  }

  /** On a full queue the oldest item makes room for the sentinel. */
  function OfferSentinel(items: seq<Item>): seq<Item> {
    var room := if |items| < CAPACITY then items else items[1..];
    if |room| < CAPACITY then room + [Sentinel] else room
  }

  /** A thousand items fill a queue: an event finds no place, a sentinel takes that of the oldest item. */
  lemma {:induction false} OfferedTo(items: seq<Item>, e: Event)
    ensures |items| <= 999 ==> Offer(items, e) == items + [Carry(e)] && OfferSentinel(items) == items + [Sentinel]
    ensures |items| >= 1000 ==> Offer(items, e) == items
    ensures |items| == 1000 ==> OfferSentinel(items) == items[1..] + [Sentinel]
  {
  }

  // ----- one subscriber's view -----

  /** Its queue, what it has been handed so far, and whether it met the sentinel and left. */
  datatype Subscriber = Subscriber(queue: seq<Item>, got: seq<Event>, stopped: bool)

  datatype Step = Publish(event: Event) | PublishSentinel | Get

  const Fresh := Subscriber([], [], false)

  /** A get on an empty queue times out and only yields a keepalive; a subscriber that left is no longer offered anything. */
  function Next(s: Subscriber, step: Step): Subscriber {
    if s.stopped then s
    else
      match step
      case Publish(e) => s.(queue := Offer(s.queue, e))
      case PublishSentinel => s.(queue := OfferSentinel(s.queue))
      case Get =>
        if s.queue == [] then s
        else
          match s.queue[0]
          case Sentinel => s.(queue := s.queue[1..], stopped := true)
          case Carry(e) => s.(queue := s.queue[1..], got := s.got + [e])
  }

  function Play(s: Subscriber, steps: seq<Step>): Subscriber
    decreases steps
  {
    if steps == [] then s else Play(Next(s, steps[0]), steps[1..])
  }

  function Events(items: seq<Item>): seq<Event> {
    if items == [] then []
    else (match items[0] case Carry(e) => [e] case Sentinel => []) + Events(items[1..])
  }

  /** The events published to the subscriber while it was there. */
  function Published(s: Subscriber, steps: seq<Step>): seq<Event>
    decreases steps
  {
    if steps == [] || s.stopped then []
    else (match steps[0] case Publish(e) => [e] case _ => []) + Published(Next(s, steps[0]), steps[1..])
  }

  /**
   Steps that cost the queue an event: one offered when it is full, or the oldest one
   displaced by a sentinel. Events behind a sentinel are not lost here, yet never read.
   */
  predicate Loses(s: Subscriber, step: Step) {
    && !s.stopped && |s.queue| >= CAPACITY
    && (step.Publish? || (step.PublishSentinel? && s.queue[0].Carry?))
  }

  function Losses(s: Subscriber, steps: seq<Step>): nat
    decreases steps
  {
    if steps == [] then 0 else (if Loses(s, steps[0]) then 1 else 0) + Losses(Next(s, steps[0]), steps[1..])
  }

  /** What it has and what stands in its queue, read or not: behind a sentinel it stays unread. */
  function Held(s: Subscriber): seq<Event> { s.got + Events(s.queue) }

  lemma {:induction false} EventsConcat(a: seq<Item>, b: seq<Item>)
    ensures Events(a + b) == Events(a) + Events(b)
  {
    if a == [] {
      assert a + b == b;
    } else {
      assert (a + b)[0] == a[0] && (a + b)[1..] == a[1..] + b;
      EventsConcat(a[1..], b);
    }
  }

  // ----- order and loss -----

  lemma {:induction false} SubsequenceRefl<T>(s: seq<T>)
    ensures Subsequence(s, s)
  {
    if s != [] {
      SubsequenceRefl(s[1..]);
    }
  }

  lemma {:induction false} SubsequenceTrans<T>(a: seq<T>, b: seq<T>, c: seq<T>)
    requires Subsequence(a, b) && Subsequence(b, c)
    ensures Subsequence(a, c)
    decreases |c|
  {
    if a != [] {
      if b[0] == c[0] && Subsequence(b[1..], c[1..]) {
        if a[0] == b[0] && Subsequence(a[1..], b[1..]) {
          SubsequenceTrans(a[1..], b[1..], c[1..]);
        } else {
          SubsequenceTrans(a, b[1..], c[1..]);
        }
      } else {
        SubsequenceTrans(a, b, c[1..]);
      }
    }
  }

  lemma {:induction false} SubsequenceTail<T>(a: seq<T>, b: seq<T>, tail: seq<T>)
    requires Subsequence(a, b)
    ensures Subsequence(a + tail, b + tail)
    decreases b
  {
    if a == [] {
      assert a + tail == tail;
      SubsequencePrefix(b, tail);
    } else {
      assert (b + tail)[0] == b[0] && (b + tail)[1..] == b[1..] + tail;
      assert (a + tail)[0] == a[0] && (a + tail)[1..] == a[1..] + tail;
      if a[0] == b[0] && Subsequence(a[1..], b[1..]) {
        SubsequenceTail(a[1..], b[1..], tail);
      } else {
        SubsequenceTail(a, b[1..], tail);
      }
    }
  }

  lemma {:induction false} SubsequenceRemove<T>(a: seq<T>, x: seq<T>, b: seq<T>)
    ensures Subsequence(a + b, a + x + b)
  {
    if a == [] {
      assert a + b == b && a + x + b == x + b;
      SubsequenceRefl(b);
      SubsequencePrefix(x, b);
    } else {
      assert (a + b)[0] == a[0] && (a + b)[1..] == a[1..] + b;
      assert (a + x + b)[0] == a[0] && (a + x + b)[1..] == a[1..] + x + b;
      SubsequenceRemove(a[1..], x, b);
    }
  }

  lemma {:induction false} SubsequencePrefix<T>(x: seq<T>, b: seq<T>)
    ensures Subsequence(b, x + b)
  {
    if x == [] {
      assert x + b == b;
      SubsequenceRefl(b);
    } else {
      assert (x + b)[1..] == x[1..] + b;
      SubsequencePrefix(x[1..], b);
    }
  }

  function New(step: Step): seq<Event> { match step case Publish(e) => [e] case _ => [] }

  /** One step keeps order, and its length accounts for every loss. */
  ghost predicate Accounts(s: Subscriber, step: Step) {
    && Subsequence(Held(Next(s, step)), Held(s) + New(step))
    && |Held(Next(s, step))| + (if Loses(s, step) then 1 else 0) == |Held(s)| + |New(step)|
    && (!Loses(s, step) ==> Held(Next(s, step)) == Held(s) + New(step))
  }

  lemma {:induction false} PublishAccounts(s: Subscriber, e: Event)
    requires !s.stopped
    ensures Accounts(s, Publish(e))
  {
    if |s.queue| < CAPACITY {
      EventsConcat(s.queue, [Carry(e)]);
      assert Events([Carry(e)]) == [e];
      assert Held(Next(s, Publish(e))) == Held(s) + [e];
      SubsequenceRefl(Held(s) + [e]);
    } else {
      SubsequenceRemove(Held(s), [e], []);
      assert Held(s) + [] == Held(s) && Held(s) + [e] + [] == Held(s) + [e];
    }
  }

  lemma {:induction false} DisplacedBySentinel(s: Subscriber)
    requires !s.stopped && |s.queue| == CAPACITY
    ensures Held(Next(s, PublishSentinel)) == s.got + Events(s.queue[1..])
    ensures Held(s) == s.got + HeadEvents(s.queue) + Events(s.queue[1..])
  {
    EventsConcat(s.queue[1..], [Sentinel]);
    assert Events([Sentinel]) == [];
  }

  function HeadEvents(items: seq<Item>): seq<Event>
    requires items != []
  {
    match items[0] case Carry(e) => [e] case Sentinel => []
  }

  lemma {:induction false} SentinelAccounts(s: Subscriber)
    requires !s.stopped && |s.queue| <= CAPACITY
    ensures Accounts(s, PublishSentinel)
  {
    assert Held(s) + [] == Held(s);
    if |s.queue| < CAPACITY {
      EventsConcat(s.queue, [Sentinel]);
      assert Events([Sentinel]) == [];
      assert Held(Next(s, PublishSentinel)) == Held(s);
      SubsequenceRefl(Held(s));
    } else {
      DisplacedBySentinel(s);
      SubsequenceRemove(s.got, HeadEvents(s.queue), Events(s.queue[1..]));
    }
  }

  lemma {:induction false} GetAccounts(s: Subscriber)
    requires !s.stopped
    ensures Accounts(s, Get)
  {
    assert Held(s) + [] == Held(s);
    assert Held(Next(s, Get)) == Held(s);
    SubsequenceRefl(Held(s));
  }

  lemma {:induction false} StepAccounts(s: Subscriber, step: Step)
    requires !s.stopped && |s.queue| <= CAPACITY
    ensures Accounts(s, step) && |Next(s, step).queue| <= CAPACITY
  {
    match step
    case Publish(e) => PublishAccounts(s, e);
    case PublishSentinel => SentinelAccounts(s);
    case Get => GetAccounts(s);
  }

  lemma {:induction false} StoppedStays(s: Subscriber, steps: seq<Step>)
    requires s.stopped
    ensures Play(s, steps) == s && Losses(s, steps) == 0
    decreases steps
  {
    if steps != [] {
      StoppedStays(Next(s, steps[0]), steps[1..]);
    }
  }

  /**
   From any state: what the subscriber holds in the end is an in-order subsequence of
   what it held plus what was published to it, shorter by exactly the losses.
   */
  lemma {:induction false} PlayAccounts(s: Subscriber, steps: seq<Step>)
    requires |s.queue| <= CAPACITY
    ensures Subsequence(Held(Play(s, steps)), Held(s) + Published(s, steps))
    ensures |Held(Play(s, steps))| + Losses(s, steps) == |Held(s)| + |Published(s, steps)|
    ensures Losses(s, steps) == 0 ==> Held(Play(s, steps)) == Held(s) + Published(s, steps)
    decreases steps
  {
    if steps == [] || s.stopped {
      if s.stopped { StoppedStays(s, steps); }
      assert Held(s) + [] == Held(s);
      SubsequenceRefl(Held(s));
    } else {
      var t, rest := Next(s, steps[0]), steps[1..];
      StepAccounts(s, steps[0]);
      PlayAccounts(t, rest);
      assert Published(s, steps) == New(steps[0]) + Published(t, rest);
      assert Held(s) + Published(s, steps) == Held(s) + New(steps[0]) + Published(t, rest);
      SubsequenceTail(Held(t), Held(s) + New(steps[0]), Published(t, rest));
      SubsequenceTrans(Held(Play(s, steps)), Held(t) + Published(t, rest), Held(s) + Published(s, steps));
    }
  }

  /** Over every schedule a subscriber sees published events only, in order, each at most once. */
  lemma {:induction false} SeenInOrder(steps: seq<Step>)
    ensures Subsequence(Play(Fresh, steps).got, Published(Fresh, steps))
  {
    var s := Play(Fresh, steps);
    PlayAccounts(Fresh, steps);
    assert Held(Fresh) + Published(Fresh, steps) == Published(Fresh, steps);
    SubsequenceRemove(s.got, Events(s.queue), []);
    assert s.got + [] == s.got && s.got + Events(s.queue) + [] == Held(s);
    SubsequenceTrans(s.got, Held(s), Published(Fresh, steps));
  }

  /** Fewer than 1000 are waiting whenever something is published. */
  predicate NeverFull(s: Subscriber, steps: seq<Step>)
    decreases steps
  {
    steps == [] || ((steps[0] != Get && !s.stopped ==> |s.queue| < CAPACITY) && NeverFull(Next(s, steps[0]), steps[1..]))
  }

  lemma {:induction false} NeverFullLosesNothing(s: Subscriber, steps: seq<Step>)
    requires NeverFull(s, steps)
    ensures Losses(s, steps) == 0
    decreases steps
  {
    if steps != [] {
      NeverFullLosesNothing(Next(s, steps[0]), steps[1..]);
    }
  }

  // ----- the sentinel -----

  function Count(step: Step, steps: seq<Step>): nat {
    if steps == [] then 0 else (if steps[0] == step then 1 else 0) + Count(step, steps[1..])
  }

  predicate Bounded(s: Subscriber) { |s.queue| <= CAPACITY }

  lemma {:induction false} NextBounded(s: Subscriber, step: Step)
    requires Bounded(s)
    ensures Bounded(Next(s, step))
  {
  }

  /** The sentinel stands at position `p` of the queue. */
  predicate WaitsAt(s: Subscriber, p: nat) { p < |s.queue| && s.queue[p] == Sentinel }

  /** A full thousand gets per sentinel still to come, and those in front of the waiting one, are enough. */
  lemma {:induction false} WaitingSentinelArrives(s: Subscriber, steps: seq<Step>, p: nat)
    requires Bounded(s) && !s.stopped && WaitsAt(s, p)
    requires Count(Get, steps) >= p + 1 + CAPACITY * Count(PublishSentinel, steps)
    ensures Play(s, steps).stopped
    decreases steps
  {
    if steps != [] {
      var t, rest := Next(s, steps[0]), steps[1..];
      NextBounded(s, steps[0]);
      if t.stopped {
        StoppedStays(t, rest);
      } else {
        match steps[0]
        case Publish(_) => WaitingSentinelArrives(t, rest, p);
        case Get => WaitingSentinelArrives(t, rest, p - 1);
        case PublishSentinel =>
          if |s.queue| < CAPACITY {
            WaitingSentinelArrives(t, rest, p);
          } else if p > 0 {
            WaitingSentinelArrives(t, rest, p - 1);
          } else {
            assert WaitsAt(t, CAPACITY - 1);
            WaitingSentinelArrives(t, rest, CAPACITY - 1);
          }
      }
    }
  }

  /** From the moment of a published sentinel, a thousand gets end the subscription, even if the queue was full. */
  lemma {:induction false} SentinelArrives(s: Subscriber, rest: seq<Step>)
    requires Bounded(s) && !s.stopped && Count(Get, rest) >= CAPACITY * (1 + Count(PublishSentinel, rest))
    ensures Play(s, [PublishSentinel] + rest).stopped
  {
    var t := Next(s, PublishSentinel);
    NextBounded(s, PublishSentinel);
    assert ([PublishSentinel] + rest)[1..] == rest;
    assert WaitsAt(t, |t.queue| - 1);
    WaitingSentinelArrives(t, rest, |t.queue| - 1);
  }

  /** And only a published sentinel ends it: a subscriber arriving after the last one waits forever. */
  lemma {:induction false} NoSentinelNoEnd(s: Subscriber, steps: seq<Step>)
    requires !s.stopped && Sentinel !in s.queue && Count(PublishSentinel, steps) == 0
    ensures !Play(s, steps).stopped
    decreases steps
  {
    if steps != [] {
      NoSentinelNoEnd(Next(s, steps[0]), steps[1..]);
    }
  }

  // ----- the queues and the manager -----

  class EventQueue {
    var items: seq<Item>

    constructor ()
      ensures items == []
    {
      items := [];
    }

    /** Fails, as an exception does, when the queue is full. */
    method PutNowait(item: Item) returns (ok: bool)
      modifies this
      ensures ok <==> |old(items)| < CAPACITY
      ensures items == if ok then old(items) + [item] else old(items)
    {
      ok := |items| < CAPACITY;
      if ok { items := items + [item]; }
    }

    method GetNowait() returns (item: Option<Item>)
      modifies this
      ensures item == if old(items) == [] then None else Some(old(items)[0])
      ensures items == if old(items) == [] then [] else old(items)[1..]
    {
      if items == [] { return None; }
      item := Some(items[0]);
      items := items[1..];
    }
  }

  class Publisher {
    var subscribers: map<string, seq<EventQueue>>

    function Queues(job: string): seq<EventQueue>
      reads this
    {
      if job in subscribers then subscribers[job] else []
    }

    constructor ()
      ensures subscribers == map[]
    {
      subscribers := map[];
    }

    /** `publish_event`. */
    method PublishEvent(job: string, e: Event)
      requires Distinct(Queues(job))
      modifies set q | q in Queues(job)
      ensures forall q :: q in Queues(job) ==> q.items == Offer(old(q.items), e)
    {
      var queues := Queues(job);
      for i := 0 to |queues|
        invariant queues == Queues(job)
        invariant forall j :: 0 <= j < i ==> queues[j].items == Offer(old(queues[j].items), e)
        invariant forall j :: i <= j < |queues| ==> queues[j].items == old(queues[j].items)
      {
        var _ := queues[i].PutNowait(Carry(e));
      }
    }

    /** `publish_sentinel`. */
    method PublishDone(job: string)
      requires Distinct(Queues(job))
      modifies set q | q in Queues(job)
      ensures forall q :: q in Queues(job) ==> q.items == OfferSentinel(old(q.items))
    {
      var queues := Queues(job);
      for i := 0 to |queues|
        invariant queues == Queues(job)
        invariant forall j :: 0 <= j < i ==> queues[j].items == OfferSentinel(old(queues[j].items))
        invariant forall j :: i <= j < |queues| ==> queues[j].items == old(queues[j].items)
      {
        var ok := queues[i].PutNowait(Sentinel);
        if !ok {
          var _ := queues[i].GetNowait();
          var _ := queues[i].PutNowait(Sentinel);
        }
      }
    }

    /** The first part of `subscribe`: a new queue joins the job's list. */
    method Subscribe(job: string) returns (q: EventQueue)
      requires Distinct(Queues(job))
      modifies this
      ensures fresh(q) && q.items == [] && Queues(job) == old(Queues(job)) + [q] && Distinct(Queues(job))
      ensures forall other :: other != job ==> Queues(other) == old(Queues(other))
    {
      q := new EventQueue();
      subscribers := subscribers[job := Queues(job) + [q]];
    }
  }
}

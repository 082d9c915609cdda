/** What a subscriber that has left has seen: the sentinel it met decides, not only the full queues. */
module FanOutTheorems {
  import opened Basics
  import opened FanOut

  lemma {:induction false} PlayConcat(s: Subscriber, a: seq<Step>, b: seq<Step>)
    ensures Play(s, a + b) == Play(Play(s, a), b)
    ensures Losses(s, a + b) == Losses(s, a) + Losses(Play(s, a), b)
    ensures Published(s, a + b) == Published(s, a) + Published(Play(s, a), b)
    decreases a
  {
    if a == [] {
      assert a + b == b;
    } else {
      assert (a + b)[0] == a[0] && (a + b)[1..] == a[1..] + b;
      PlayConcat(Next(s, a[0]), a[1..], b);
      if s.stopped { StoppedPublishesNothing(s, a, b); }
    }
  }

  lemma {:induction false} StoppedPublishesNothing(s: Subscriber, a: seq<Step>, b: seq<Step>)
    requires s.stopped
    ensures Published(s, a + b) == Published(s, a) + Published(Play(s, a), b)
  {
    StoppedStays(s, a);
  }

  /** The events of a schedule, whoever is there. */
  function Publishes(steps: seq<Step>): seq<Event> { if steps == [] then [] else New(steps[0]) + Publishes(steps[1..]) }

  lemma {:induction false} PublishesConcat(a: seq<Step>, b: seq<Step>)
    ensures Publishes(a + b) == Publishes(a) + Publishes(b)
  {
    if a == [] {
      assert a + b == b;
    } else {
      assert (a + b)[0] == a[0] && (a + b)[1..] == a[1..] + b;
      PublishesConcat(a[1..], b);
    }
  }

  /** While the subscriber stays, everything published is published to it. */
  lemma {:induction false} StayingMeansAll(s: Subscriber, steps: seq<Step>)
    requires !Play(s, steps).stopped
    ensures !s.stopped && Published(s, steps) == Publishes(steps)
    decreases steps
  {
    if s.stopped { StoppedStays(s, steps); }
    if steps != [] {
      StayingMeansAll(Next(s, steps[0]), steps[1..]);
    }
  }

  lemma {:induction false} PlayBounded(s: Subscriber, steps: seq<Step>)
    requires Bounded(s)
    ensures Bounded(Play(s, steps))
    decreases steps
  {
    if steps != [] {
      NextBounded(s, steps[0]);
      PlayBounded(Next(s, steps[0]), steps[1..]);
    }
  }

  // ----- following one item -----

  /** Where the item at `pos` stands after a step: taken and displaced items are nowhere. */
  function Moved(s: Subscriber, pos: nat, step: Step): Option<nat>
    requires pos < |s.queue|
  {
    if s.stopped then Some(pos)
    else if step == Get || (step == PublishSentinel && |s.queue| >= CAPACITY) then if pos == 0 then None else Some(pos - 1)
    else Some(pos)
  }

  lemma {:induction false} MovedIsThere(s: Subscriber, pos: nat, step: Step)
    requires Bounded(s) && pos < |s.queue| && Moved(s, pos, step).Some?
    ensures Moved(s, pos, step).value < |Next(s, step).queue|
    ensures Next(s, step).queue[Moved(s, pos, step).value] == s.queue[pos]
  {
  }

  function Place(s: Subscriber, pos: nat, steps: seq<Step>): Option<nat>
    requires Bounded(s) && pos < |s.queue|
    decreases steps
  {
    if steps == [] then Some(pos)
    else
      match Moved(s, pos, steps[0])
      case None => None
      case Some(p) => MovedIsThere(s, pos, steps[0]); NextBounded(s, steps[0]); Place(Next(s, steps[0]), p, steps[1..])
  }

  lemma {:induction false} PlaceHolds(s: Subscriber, pos: nat, steps: seq<Step>)
    requires Bounded(s) && pos < |s.queue| && Place(s, pos, steps).Some?
    ensures Place(s, pos, steps).value < |Play(s, steps).queue|
    ensures Play(s, steps).queue[Place(s, pos, steps).value] == s.queue[pos]
    decreases steps
  {
    if steps != [] {
      MovedIsThere(s, pos, steps[0]);
      NextBounded(s, steps[0]);
      PlaceHolds(Next(s, steps[0]), Moved(s, pos, steps[0]).value, steps[1..]);
    }
  }

  lemma {:induction false} PlaceAppend(s: Subscriber, pos: nat, steps: seq<Step>, last: Step)
    requires Bounded(s) && pos < |s.queue| && Place(s, pos, steps).Some?
    ensures Place(s, pos, steps).value < |Play(s, steps).queue|
    ensures Place(s, pos, steps + [last]) == Moved(Play(s, steps), Place(s, pos, steps).value, last)
    decreases steps
  {
    PlaceHolds(s, pos, steps);
    if steps == [] {
      assert steps + [last] == [last] && [last][1..] == [];
    } else {
      assert (steps + [last])[0] == steps[0] && (steps + [last])[1..] == steps[1..] + [last];
      MovedIsThere(s, pos, steps[0]);
      NextBounded(s, steps[0]);
      PlaceAppend(Next(s, steps[0]), Moved(s, pos, steps[0]).value, steps[1..], last);
    }
  }

  /** The events that wait behind a position. */
  function Following(s: Subscriber, pos: nat): seq<Event>
    requires pos < |s.queue|
  {
    Events(s.queue[pos + 1..])
  }

  /** Without losses, exactly what is published lines up behind a waiting item. */
  lemma {:induction false} OneStepBehind(s: Subscriber, pos: nat, step: Step)
    requires Bounded(s) && !s.stopped && pos < |s.queue| && Moved(s, pos, step).Some? && !Loses(s, step)
    ensures Moved(s, pos, step).value < |Next(s, step).queue|
    ensures Following(Next(s, step), Moved(s, pos, step).value) == Following(s, pos) + New(step)
  {
    MovedIsThere(s, pos, step);
    var p, queue := Moved(s, pos, step).value, Next(s, step).queue;
    match step
    case Publish(e) =>
      assert queue[p + 1..] == s.queue[pos + 1..] + [Carry(e)];
      EventsConcat(s.queue[pos + 1..], [Carry(e)]);
      assert Events([Carry(e)]) == [e];
    case PublishSentinel =>
      assert queue[p + 1..] == s.queue[pos + 1..] + [Sentinel];
      EventsConcat(s.queue[pos + 1..], [Sentinel]);
      assert Events([Sentinel]) == [];
    case Get =>
      assert queue[p + 1..] == s.queue[pos + 1..];
  }

  /** The first of steps that a subscriber stays through without losses. */
  lemma {:induction false} StayedStep(s: Subscriber, pos: nat, steps: seq<Step>)
    requires Bounded(s) && pos < |s.queue| && steps != [] && Place(s, pos, steps).Some?
    requires !Play(s, steps).stopped && Losses(s, steps) == 0
    ensures !s.stopped && !Loses(s, steps[0]) && Moved(s, pos, steps[0]).Some?
    ensures var t, p := Next(s, steps[0]), Moved(s, pos, steps[0]).value;
      && Bounded(t) && p < |t.queue| && Play(s, steps) == Play(t, steps[1..])
      && Place(s, pos, steps) == Place(t, p, steps[1..]) && Losses(t, steps[1..]) == 0
  {
    StayingMeansAll(s, steps);
    MovedIsThere(s, pos, steps[0]);
    NextBounded(s, steps[0]);
  }

  lemma {:induction false} LinedUpBehind(s: Subscriber, pos: nat, steps: seq<Step>)
    requires Bounded(s) && pos < |s.queue| && Place(s, pos, steps).Some?
    requires !Play(s, steps).stopped && Losses(s, steps) == 0
    ensures Place(s, pos, steps).value < |Play(s, steps).queue|
    ensures Following(Play(s, steps), Place(s, pos, steps).value) == Following(s, pos) + Publishes(steps)
    decreases steps
  {
    if steps == [] {
      assert Following(s, pos) + [] == Following(s, pos);
    } else {
      var t, p, rest := Next(s, steps[0]), Moved(s, pos, steps[0]), steps[1..];
      StayedStep(s, pos, steps);
      OneStepBehind(s, pos, steps[0]);
      LinedUpBehind(t, p.value, rest);
      calc {
        Following(Play(t, rest), Place(t, p.value, rest).value);
        Following(t, p.value) + Publishes(rest);
        (Following(s, pos) + New(steps[0])) + Publishes(rest);
        { Reassociate(Following(s, pos), New(steps[0]), Publishes(rest)); }
        Following(s, pos) + (New(steps[0]) + Publishes(rest));
      }
    }
  }

  lemma {:induction false} Reassociate<T>(a: seq<T>, b: seq<T>, c: seq<T>)
    ensures (a + b) + c == a + (b + c)
  {
  }

  // ----- the sentinel a subscriber leaves at -----

  lemma {:induction false} SentinelAtEnd(s: Subscriber)
    requires Bounded(s) && !s.stopped
    ensures var t := Next(s, PublishSentinel); Bounded(t) && t.queue != [] && t.queue[|t.queue| - 1] == Sentinel && !t.stopped
    ensures Events(Next(s, PublishSentinel).queue[|Next(s, PublishSentinel).queue|..]) == []
  {
  }

  /** The subscriber after the steps before the sentinel and the sentinel itself. */
  function AtSentinel(before: seq<Step>): Subscriber { Next(Play(Fresh, before), PublishSentinel) }

  /** The sentinel published after `before` has come to the front of the queue `during` steps later. */
  predicate MeetsAfter(before: seq<Step>, during: seq<Step>) {
    && !Play(AtSentinel(before), during).stopped
    && Bounded(AtSentinel(before)) && AtSentinel(before).queue != []
    && Place(AtSentinel(before), |AtSentinel(before).queue| - 1, during) == Some(0)
  }

  lemma {:induction false} MetSentinel(before: seq<Step>, during: seq<Step>)
    requires MeetsAfter(before, during)
    ensures !Play(Fresh, before).stopped
    ensures Play(AtSentinel(before), during).queue != [] && Play(AtSentinel(before), during).queue[0] == Sentinel
  {
    if Play(Fresh, before).stopped {
      StoppedStays(Play(Fresh, before), [PublishSentinel] + during);
      StoppedStays(AtSentinel(before), during);
      assert false;
    }
    PlayBounded(Fresh, before);
    SentinelAtEnd(Play(Fresh, before));
    PlaceHolds(AtSentinel(before), |AtSentinel(before).queue| - 1, during);
  }

  function LeavingRun(before: seq<Step>, during: seq<Step>, after: seq<Step>): seq<Step> {
    before + ([PublishSentinel] + during) + ([Get] + after)
  }

  lemma {:induction false} AfterDuring(before: seq<Step>, during: seq<Step>)
    ensures Play(Fresh, before + ([PublishSentinel] + during)) == Play(AtSentinel(before), during)
  {
    PlayConcat(Fresh, before, [PublishSentinel] + during);
    assert ([PublishSentinel] + during)[1..] == during;
  }

  lemma {:induction false} GetsTheSentinel(s: Subscriber, after: seq<Step>)
    requires !s.stopped && s.queue != [] && s.queue[0] == Sentinel
    ensures Play(s, [Get] + after) == s.(queue := s.queue[1..], stopped := true)
    ensures Losses(s, [Get] + after) == 0 && Published(s, [Get] + after) == []
  {
    assert ([Get] + after)[1..] == after;
    StoppedStays(Next(s, Get), after);
  }

  /** The run ends at that get: what was seen and what is left in the queue. */
  lemma {:induction false} Leaves(before: seq<Step>, during: seq<Step>, after: seq<Step>)
    requires MeetsAfter(before, during)
    ensures var s, t := Play(AtSentinel(before), during), Play(Fresh, LeavingRun(before, during, after));
      s.queue != [] && t == s.(queue := s.queue[1..], stopped := true)
    ensures Losses(Fresh, LeavingRun(before, during, after)) == Losses(Fresh, before + ([PublishSentinel] + during))
    ensures Published(Fresh, LeavingRun(before, during, after)) == Published(Fresh, before + ([PublishSentinel] + during))
  {
    AfterDuring(before, during);
    MetSentinel(before, during);
    PlayConcat(Fresh, before + ([PublishSentinel] + during), [Get] + after);
    GetsTheSentinel(Play(AtSentinel(before), during), after);
  }

  lemma {:induction false} LeavesPublished(before: seq<Step>, during: seq<Step>, after: seq<Step>)
    requires MeetsAfter(before, during)
    ensures Published(Fresh, LeavingRun(before, during, after)) == Publishes(before) + Publishes(during)
  {
    AfterDuring(before, during);
    Leaves(before, during, after);
    StayingMeansAll(Fresh, before + ([PublishSentinel] + during));
    PublishesConcat(before, [PublishSentinel] + during);
    assert ([PublishSentinel] + during)[1..] == during;
    assert Publishes([PublishSentinel] + during) == Publishes(during);
  }

  /** What is seen is everything published exactly when nothing was lost and nothing is left unread. */
  lemma {:induction false} NothingMissedIff(steps: seq<Step>)
    ensures Play(Fresh, steps).got == Published(Fresh, steps) <==>
      Losses(Fresh, steps) == 0 && Events(Play(Fresh, steps).queue) == []
  {
    PlayAccounts(Fresh, steps);
    var s := Play(Fresh, steps);
    assert Held(Fresh) + Published(Fresh, steps) == Published(Fresh, steps);
    if Events(s.queue) == [] { assert Held(s) == s.got; }
  }

  /**
   A subscriber that left has seen everything published while it was there exactly when
   no full queue cost it an event and nothing was published between the sentinel it met
   and its leaving; without losses it has seen exactly what preceded that sentinel.
   */
  lemma {:induction false} LeaverMissesNothingIff(before: seq<Step>, during: seq<Step>, after: seq<Step>)
    requires MeetsAfter(before, during)
    ensures var steps := LeavingRun(before, during, after);
      && Play(Fresh, steps).stopped
      && (Play(Fresh, steps).got == Published(Fresh, steps) <==> Losses(Fresh, steps) == 0 && Publishes(during) == [])
      && (Losses(Fresh, steps) == 0 ==> Play(Fresh, steps).got == Publishes(before))
  {
    var steps := LeavingRun(before, during, after);
    Leaves(before, during, after);
    LeavesPublished(before, during, after);
    NothingMissedIff(steps);
    if Losses(Fresh, steps) == 0 {
      QueueAtLeaving(before, during);
      PlayAccounts(Fresh, steps);
      var s := Play(Fresh, steps);
      assert Held(s) == s.got + Publishes(during) == Publishes(before) + Publishes(during);
      assert s.got == (s.got + Publishes(during))[..|s.got|];
      assert Publishes(before) == (Publishes(before) + Publishes(during))[..|Publishes(before)|];
    }
  }

  lemma {:induction false} QueueAtLeaving(before: seq<Step>, during: seq<Step>)
    requires MeetsAfter(before, during) && Losses(Fresh, before + ([PublishSentinel] + during)) == 0
    ensures Play(AtSentinel(before), during).queue != []
    ensures Events(Play(AtSentinel(before), during).queue[1..]) == Publishes(during)
  {
    MetSentinel(before, during);
    PlayConcat(Fresh, before, [PublishSentinel] + during);
    assert ([PublishSentinel] + during)[1..] == during;
    PlayBounded(Fresh, before);
    SentinelAtEnd(Play(Fresh, before));
    LinedUpBehind(AtSentinel(before), |AtSentinel(before).queue| - 1, during);
  }

  // ----- every leaver met a sentinel -----

  lemma {:induction false} PlayLast(s: Subscriber, r: seq<Step>, x: Step)
    ensures Play(s, r + [x]) == Next(Play(s, r), x)
  {
    PlayConcat(s, r, [x]);
    assert [x][1..] == [];
  }

  /** Where a waiting sentinel stood before the step, unless the step published it. */
  lemma {:induction false} StoodBefore(s: Subscriber, x: Step, i: nat) returns (j: nat)
    requires Bounded(s) && !Next(s, x).stopped && WaitsAt(Next(s, x), i) && !(x == PublishSentinel && i == |Next(s, x).queue| - 1)
    ensures !s.stopped && WaitsAt(s, j) && Moved(s, j, x) == Some(i)
  {
    j := if (x == Get && s.queue != []) || (x == PublishSentinel && |s.queue| >= CAPACITY) then i + 1 else i;
  }

  /** Each waiting sentinel was published at some step and has been moving up since. */
  lemma {:induction false} Origin(run: seq<Step>, i: nat) returns (before: seq<Step>, during: seq<Step>)
    requires !Play(Fresh, run).stopped && WaitsAt(Play(Fresh, run), i)
    ensures run == before + ([PublishSentinel] + during)
    ensures Bounded(AtSentinel(before)) && AtSentinel(before).queue != []
    ensures Place(AtSentinel(before), |AtSentinel(before).queue| - 1, during) == Some(i)
    decreases |run|
  {
    var n := |run| - 1;
    var r, x := run[..n], run[n];
    assert run == r + [x];
    PlayLast(Fresh, r, x);
    PlayBounded(Fresh, r);
    if x == PublishSentinel && i == |Next(Play(Fresh, r), x).queue| - 1 {
      NextBounded(Play(Fresh, r), x);
      before, during := r, [];
      assert [PublishSentinel] + during == [x];
    } else {
      var j := StoodBefore(Play(Fresh, r), x, i);
      before, during := Origin(r, j);
      OriginGrows(before, during, r, x, j);
      during := during + [x];
    }
  }

  lemma {:induction false} OriginGrows(before: seq<Step>, d: seq<Step>, r: seq<Step>, x: Step, j: nat)
    requires r == before + ([PublishSentinel] + d)
    requires Bounded(AtSentinel(before)) && AtSentinel(before).queue != []
    requires Place(AtSentinel(before), |AtSentinel(before).queue| - 1, d) == Some(j)
    ensures r + [x] == before + ([PublishSentinel] + (d + [x])) && j < |Play(Fresh, r).queue|
    ensures Place(AtSentinel(before), |AtSentinel(before).queue| - 1, d + [x]) == Moved(Play(Fresh, r), j, x)
  {
    AfterDuring(before, d);
    PlaceAppend(AtSentinel(before), |AtSentinel(before).queue| - 1, d, x);
    assert r + [x] == before + ([PublishSentinel] + (d + [x]));
  }

  lemma {:induction false} StoppingStep(steps: seq<Step>) returns (run: seq<Step>, after: seq<Step>)
    requires Play(Fresh, steps).stopped
    ensures steps == run + ([Get] + after) && !Play(Fresh, run).stopped && WaitsAt(Play(Fresh, run), 0)
    decreases steps
  {
    var n := |steps| - 1;
    var r, x := steps[..n], steps[n];
    assert steps == r + [x];
    PlayConcat(Fresh, r, [x]);
    assert [x][1..] == [] && Play(Fresh, steps) == Next(Play(Fresh, r), x);
    if Play(Fresh, r).stopped {
      var a: seq<Step>;
      run, a := StoppingStep(r);
      after := a + [x];
      assert r + [x] == run + ([Get] + after);
    } else {
      run, after := r, [];
      assert [Get] + after == [x];
    }
  }

  /** So the condition covers every subscriber that left. */
  lemma {:induction false} EveryLeaverMetOne(steps: seq<Step>) returns (before: seq<Step>, during: seq<Step>, after: seq<Step>)
    requires Play(Fresh, steps).stopped
    ensures MeetsAfter(before, during) && steps == LeavingRun(before, during, after)
  {
    var run: seq<Step>;
    run, after := StoppingStep(steps);
    before, during := Origin(run, 0);
    AfterDuring(before, during);
  }

  /**
   The run after a cancel: the handler publishes the sentinel, the runner then publishes
   its last status, and the subscriber leaves without it although no queue was full.
   */
  lemma {:induction false} CancelHidesLastStatus(status: Event)
    ensures var steps := [PublishSentinel, Publish(status), Get];
      && Play(Fresh, steps).stopped && Play(Fresh, steps).got == [] && Published(Fresh, steps) == [status]
      && Losses(Fresh, steps) == 0 && NeverFull(Fresh, steps)
  {
    var steps := [PublishSentinel, Publish(status), Get];
    assert steps[1..][0] == Publish(status) && steps[1..][1..][0] == Get && steps[1..][1..][1..] == [];
    var s1 := Next(Fresh, PublishSentinel);
    var s2 := Next(s1, Publish(status));
    var s3 := Next(s2, Get);
    assert s1.queue == [Sentinel] && s2.queue == [Sentinel, Carry(status)] && s3.stopped && s3.got == [];
    assert Play(s2, steps[1..][1..]) == s3 && Play(s1, steps[1..]) == s3;
    assert Published(s2, steps[1..][1..]) == [] && Published(s1, steps[1..]) == [status];
    assert Losses(s2, steps[1..][1..]) == 0 && Losses(s1, steps[1..]) == 0;
    assert NeverFull(s2, steps[1..][1..]) && NeverFull(s1, steps[1..]);
  }

  /** While fewer than 1000 wait, a leaver has seen exactly what was published before the sentinel it met. */
  lemma {:induction false} RoomyLeaverSawAllBefore(before: seq<Step>, during: seq<Step>, after: seq<Step>)
    requires MeetsAfter(before, during) && NeverFull(Fresh, LeavingRun(before, during, after))
    ensures Play(Fresh, LeavingRun(before, during, after)).got == Publishes(before)
  {
    NeverFullLosesNothing(Fresh, LeavingRun(before, during, after));
    LeaverMissesNothingIff(before, during, after);
  }
}

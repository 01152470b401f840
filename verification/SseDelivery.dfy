/**
 What a subscriber of the broker gets, told from the calls alone
 (apps/go-api/internal/provider/sse.go): every matching event published while it is
 subscribed, under the id it went out with, except those published while sixteen were waiting.
 */
module SseDelivery {
  import opened Wrappers
  import opened Sequences
  import opened SseBroker

  // ---- Topics -----------------------------------------------------------

  /** A topic matches itself, the wildcard, and the part before its first colon unless that is empty. */
  lemma MatchesMeans(topics: set<string>, topic: string)
    ensures Matches(topics, topic) <==>
      || topic in topics || "*" in topics
      || exists i :: 0 < i < |topic| && topic[i] == ':' && ':' !in topic[..i] && topic[..i] in topics
  {
    match IndexOfColon(topic)
    case Some(i) =>
      forall j | 0 < j < |topic| && topic[j] == ':' && ':' !in topic[..j] ensures j == i { FirstColon(topic, i, j); }
    case None =>
  }

  lemma FirstColon(topic: string, i: nat, j: nat)
    requires i < |topic| && topic[i] == ':' && (forall k :: 0 <= k < i ==> topic[k] != ':')
    requires j < |topic| && topic[j] == ':' && ':' !in topic[..j]
    ensures i == j
  {
    assert forall k :: 0 <= k < j ==> topic[k] in topic[..j];
  }

  // ---- What was published -----------------------------------------------

  function IsAnonymous(step: Step): bool { step.Publish? && step.event.id == Absent }

  /** The calls so far that published an event without an id. */
  function Anonymous(steps: seq<Step>): nat
  {
    if steps == [] then 0
    else Anonymous(steps[..|steps| - 1]) + if IsAnonymous(steps[|steps| - 1]) then 1 else 0
  }

  function Subscriptions(steps: seq<Step>): nat
  {
    if steps == [] then 0
    else Subscriptions(steps[..|steps| - 1]) + if steps[|steps| - 1].Subscribe? then 1 else 0
  }

  /** The events published, in order: one without an id goes out under its number among those. */
  function Sent(steps: seq<Step>): seq<Event>
  {
    if steps == [] then []
    else
      var before, last := steps[..|steps| - 1], steps[|steps| - 1];
      Sent(before) +
      if !last.Publish? then []
      else if last.event.id == Absent then [last.event.(id := Assigned(Anonymous(before) + 1))]
      else [last.event]
  }

  lemma {:induction false} RunSnoc(s: State, steps: seq<Step>, last: Step)
    requires Runnable(s, steps + [last])
    ensures Runnable(s, steps) && Enabled(Exec(s, steps), last)
    ensures Exec(s, steps + [last]) == Apply(Exec(s, steps), last)
    decreases |steps|
  {
    if steps == [] {
      assert [last][1..] == [];
    } else {
      assert (steps + [last])[1..] == steps[1..] + [last] && (steps + [last])[0] == steps[0];
      RunSnoc(Apply(s, steps[0]), steps[1..], last);
    }
  }

  lemma {:induction false} CountsBounded(steps: seq<Step>)
    ensures Anonymous(steps) <= |steps| && Subscriptions(steps) <= |steps|
  {
    if steps != [] { CountsBounded(steps[..|steps| - 1]); }
  }

  predicate Tells(s: State, steps: seq<Step>)
  {
    s.log == Sent(steps) && s.nextId == Anonymous(steps) && s.nextSubId == Subscriptions(steps)
  }

  lemma TellsOn(s: State, steps: seq<Step>, last: Step)
    requires Tells(s, steps) && Enabled(s, last) && |steps| + 1 < WRAP
    ensures Tells(Apply(s, last), steps + [last])
  {
    CountsBounded(steps);
    assert (steps + [last])[..|steps|] == steps;
  }

  /** The broker's log is what the calls published, its counters how many of each there were. */
  lemma {:induction false} LogIsSent(steps: seq<Step>)
    requires Runnable(EMPTY, steps) && |steps| < WRAP
    ensures Tells(Exec(EMPTY, steps), steps)
  {
    if steps != [] {
      var n := |steps| - 1;
      assert steps == steps[..n] + [steps[n]];
      RunSnoc(EMPTY, steps[..n], steps[n]);
      LogIsSent(steps[..n]);
      TellsOn(Exec(EMPTY, steps[..n]), steps[..n], steps[n]);
    }
  }

  lemma {:induction false} AnonymousGrows(a: seq<Step>, b: seq<Step>)
    ensures Anonymous(a) <= Anonymous(a + b)
  {
    if b == [] {
      assert a + b == a;
    } else {
      assert (a + b)[..|a + b| - 1] == a + b[..|b| - 1];
      AnonymousGrows(a, b[..|b| - 1]);
    }
  }

  /** An event without an id gets the number of such events so far. */
  lemma StampedNext(steps: seq<Step>, n: nat)
    requires Runnable(EMPTY, steps) && |steps| < WRAP && n < |steps| && IsAnonymous(steps[n])
    ensures Runnable(EMPTY, steps[..n])
    ensures Stamp(Exec(EMPTY, steps[..n]), steps[n].event).id == Assigned(Anonymous(steps[..n]) + 1)
  {
    RunPrefix(steps, n);
    LogIsSent(steps[..n]);
    CountsBounded(steps[..n]);
  }

  lemma AnonymousBefore(steps: seq<Step>, i: nat, j: nat)
    requires i < j < |steps| && IsAnonymous(steps[i])
    ensures Anonymous(steps[..i]) < Anonymous(steps[..j])
  {
    assert steps[..j] == steps[..i + 1] + steps[i + 1..j];
    AnonymousGrows(steps[..i + 1], steps[i + 1..j]);
    assert steps[..i + 1][..i] == steps[..i];
  }

  /** Of two events published without an id, at any distance in a run, the later one gets the greater number. */
  lemma FreshIds(steps: seq<Step>, i: nat, j: nat)
    requires Runnable(EMPTY, steps) && |steps| < WRAP && i < j < |steps|
    requires IsAnonymous(steps[i]) && IsAnonymous(steps[j])
    ensures Runnable(EMPTY, steps[..i]) && Runnable(EMPTY, steps[..j])
    ensures var a, b := Stamp(Exec(EMPTY, steps[..i]), steps[i].event), Stamp(Exec(EMPTY, steps[..j]), steps[j].event);
      a.id.Assigned? && b.id.Assigned? && a.id.number < b.id.number
  {
    StampedNext(steps, i);
    StampedNext(steps, j);
    AnonymousBefore(steps, i, j);
  }

  lemma {:induction false} RunPrefix(steps: seq<Step>, n: nat)
    requires Runnable(EMPTY, steps) && n <= |steps|
    ensures Runnable(EMPTY, steps[..n])
    decreases |steps| - n
  {
    if n == |steps| {
      assert steps[..n] == steps;
    } else {
      RunPrefix(steps, n + 1);
      assert steps[..n + 1] == steps[..n] + [steps[n]];
      RunSnoc(EMPTY, steps[..n], steps[n]);
    }
  }

  lemma RunGood(steps: seq<Step>)
    requires Runnable(EMPTY, steps) && |steps| < WRAP
    ensures Inv(ChannelInv, Exec(EMPTY, steps), |steps|)
  {
    ChannelInvPreserved();
    RunInv(ChannelInv, EMPTY, steps, 0);
  }

  // ---- Losses -----------------------------------------------------------

  /** A matching event is published to an open subscription while sixteen events are waiting. */
  predicate LostAt(s: State, step: Step, id: nat)
  {
    && step.Publish? && id in s.channels && s.channels[id].until.None?
    && Matches(s.channels[id].topics, step.event.topic) && |s.channels[id].buffer| >= 16
  }

  function Missing(log: Log, c: Channel): int { |Due(log, c)| - |Delivered(c)| }

  lemma PublishMissing(log: Log, c: Channel, e: Event)
    requires ChannelInv(log, c)
    ensures Missing(log + [e], AfterPublish(c, e)) == Missing(log, c)
      + if c.until.None? && Matches(c.topics, e.topic) && |c.buffer| >= 16 then 1 else 0
  {
    if c.until.Some? {
      assert (log + [e])[c.from..c.until.value] == log[c.from..c.until.value];
    } else {
      DueGrows(log, c, e);
      assert Due(log + [e], AfterPublish(c, e)) == Due(log + [e], c);
    }
  }

  lemma StampKeepsTopic(s: State, e: Event)
    ensures Stamp(s, e).topic == e.topic
  {}

  lemma ReceiveMissing(log: Log, c: Channel)
    requires c.buffer != []
    ensures Missing(log, Taken(c)) == Missing(log, c)
  {
    assert Delivered(Taken(c)) == Delivered(c);
    assert Due(log, Taken(c)) == Due(log, c);
  }

  lemma CloseMissing(log: Log, c: Channel)
    requires ChannelInv(log, c) && c.until.None?
    ensures Missing(log, c.(until := Some(|log|))) == Missing(log, c)
  {}

  /** Nothing is asked of a channel. */
  predicate AnyChannel(log: Log, c: Channel) { true }

  /** Channels are numbered from 1, and the registered ones are those still open. */
  ghost predicate Shaped(s: State, taken: nat) { Inv(AnyChannel, s, taken) }

  lemma ShapedStep(s: State, step: Step, taken: nat)
    requires Shaped(s, taken) && Enabled(s, step) && taken + 1 < WRAP
    ensures Shaped(Apply(s, step), taken + 1)
  {
    StepInv(AnyChannel, s, step, taken);
  }

  lemma RunShaped(steps: seq<Step>)
    requires Runnable(EMPTY, steps) && |steps| < WRAP
    ensures Shaped(Exec(EMPTY, steps), |steps|)
  {
    RunInv(AnyChannel, EMPTY, steps, 0);
  }

  /** The channel after one more call. */
  lemma PublishChannel(s: State, event: Event, id: nat, taken: nat)
    requires Shaped(s, taken) && id in s.channels
    ensures var t := Apply(s, Publish(event));
      && id in t.channels && t.channels[id] == AfterPublish(s.channels[id], Stamp(s, event))
      && t.log == s.log + [Stamp(s, event)]
  {}

  lemma ReceiveChannel(s: State, r: nat, id: nat)
    requires Enabled(s, Receive(r)) && id in s.channels
    ensures var c, t := s.channels[id], Apply(s, Receive(r));
      id in t.channels && t.log == s.log && t.channels[id] == if r == id then Taken(c) else c
  {}

  lemma CloseChannel(s: State, r: nat, id: nat, taken: nat)
    requires Shaped(s, taken) && Enabled(s, Close(r)) && id in s.channels
    ensures var c, t := s.channels[id], Apply(s, Close(r));
      && id in t.channels && t.log == s.log
      && t.channels[id] == if r == id && c.until.None? then c.(until := Some(|s.log|)) else c
  {}

  lemma SubscribeChannel(s: State, topics: set<string>, id: nat, taken: nat)
    requires Shaped(s, taken) && taken + 1 < WRAP && id in s.channels && Enabled(s, Subscribe(topics))
    ensures var t := Apply(s, Subscribe(topics)); id in t.channels && t.log == s.log && t.channels[id] == s.channels[id]
  {
    assert id != s.nextSubId + 1;
  }

  /** How many events a subscription misses after one more call. */
  lemma StepMissing(s: State, step: Step, id: nat, taken: nat)
    requires Shaped(s, taken) && taken + 1 < WRAP && Enabled(s, step)
    requires id in s.channels && ChannelInv(s.log, s.channels[id])
    ensures id in Apply(s, step).channels
    ensures Missing(Apply(s, step).log, Apply(s, step).channels[id])
      == Missing(s.log, s.channels[id]) + if LostAt(s, step, id) then 1 else 0
  {
    var c := s.channels[id];
    match step
    case Publish(event) =>
      PublishChannel(s, event, id, taken);
      StampKeepsTopic(s, event);
      PublishMissing(s.log, c, Stamp(s, event));
    case Receive(r) =>
      ReceiveChannel(s, r, id);
      if r == id { ReceiveMissing(s.log, c); }
    case Subscribe(topics) => SubscribeChannel(s, topics, id, taken);
    case Close(r) =>
      CloseChannel(s, r, id, taken);
      if r == id && c.until.None? { CloseMissing(s.log, c); }
  }

  /** A call that opens a subscription opens it with nothing missing. */
  lemma OpenedMissing(s: State, step: Step, id: nat)
    requires Enabled(s, step) && id !in s.channels && id in Apply(s, step).channels
    ensures Missing(Apply(s, step).log, Apply(s, step).channels[id]) == 0
  {}

  /** The last call of a run loses an event of the subscription. */
  ghost predicate LostLast(steps: seq<Step>, id: nat)
  {
    && steps != [] && Runnable(EMPTY, steps[..|steps| - 1])
    && LostAt(Exec(EMPTY, steps[..|steps| - 1]), steps[|steps| - 1], id)
  }

  /** The n-th call of a run loses an event of the subscription. */
  ghost predicate LostIn(steps: seq<Step>, n: int, id: nat) { 0 <= n < |steps| && LostLast(steps[..n + 1], id) }

  /** How many calls lost an event of the subscription. */
  ghost function Losses(steps: seq<Step>, id: nat): nat
  {
    if steps == [] then 0 else Losses(steps[..|steps| - 1], id) + if LostLast(steps, id) then 1 else 0
  }

  lemma {:induction false} MissingIsLosses(steps: seq<Step>, id: nat)
    requires Runnable(EMPTY, steps) && |steps| < WRAP
    ensures var s := Exec(EMPTY, steps);
      if id in s.channels then Missing(s.log, s.channels[id]) == Losses(steps, id) else Losses(steps, id) == 0
  {
    if steps != [] {
      var n := |steps| - 1;
      var front, last := steps[..n], steps[n];
      assert steps == front + [last];
      RunSnoc(EMPTY, front, last);
      MissingIsLosses(front, id);
      RunGood(front);
      RunShaped(front);
      if id in Exec(EMPTY, front).channels {
        StepMissing(Exec(EMPTY, front), last, id, n);
      } else if id in Exec(EMPTY, steps).channels {
        OpenedMissing(Exec(EMPTY, front), last, id);
      }
    }
  }

  lemma {:induction false} NoLosses(steps: seq<Step>, id: nat)
    ensures Losses(steps, id) == 0 <==> forall n :: 0 <= n < |steps| ==> !LostIn(steps, n, id)
  {
    if steps != [] {
      var m := |steps| - 1;
      NoLosses(steps[..m], id);
      assert steps[..m + 1] == steps;
      assert LostIn(steps, m, id) <==> LostLast(steps, id);
      forall n | 0 <= n < m ensures LostIn(steps[..m], n, id) <==> LostIn(steps, n, id) {
        assert steps[..m][..n + 1] == steps[..n + 1];
      }
    }
  }

  lemma {:induction false} SubsequenceShorter(a: seq<Event>, b: seq<Event>)
    requires Subsequence(a, b)
    ensures |a| <= |b| && (|a| == |b| ==> a == b)
    decreases |b|
  {
    if a != [] {
      var n, m := |a| - 1, |b| - 1;
      if a[n] == b[m] && Subsequence(a[..n], b[..m]) {
        SubsequenceShorter(a[..n], b[..m]);
      } else {
        SubsequenceShorter(a, b[..m]);
      }
    }
  }

  /**
   Delivery exactly: what a subscriber has received plus what is buffered for it is everything it was due if and
   only if no matching event was published while sixteen were waiting.
   */
  lemma DeliveryExactly(steps: seq<Step>, id: nat)
    requires Runnable(EMPTY, steps) && |steps| < WRAP && id in Exec(EMPTY, steps).channels
    ensures var s := Exec(EMPTY, steps);
      var c := s.channels[id];
      c.received + c.buffer == Due(s.log, c) <==> forall n :: 0 <= n < |steps| ==> !LostIn(steps, n, id)
  {
    MissingIsLosses(steps, id);
    NoLosses(steps, id);
    Delivery(steps, id);
    var s := Exec(EMPTY, steps);
    SubsequenceShorter(Delivered(s.channels[id]), Due(s.log, s.channels[id]));
  }

  // ---- A subscription from its call on ----------------------------------

  predicate NeverCloses(steps: seq<Step>, id: nat) { forall n :: 0 <= n < |steps| ==> steps[n] != Close(id) }

  lemma OpenStep(s: State, step: Step, id: nat, taken: nat)
    requires Shaped(s, taken) && taken + 1 < WRAP && Enabled(s, step) && id in s.channels
    requires step != Close(id) && s.channels[id].until.None?
    ensures var t := Apply(s, step);
      && id in t.channels && t.channels[id].until.None?
      && t.channels[id].topics == s.channels[id].topics && t.channels[id].from == s.channels[id].from
  {
    match step
    case Publish(event) => PublishChannel(s, event, id, taken);
    case Receive(r) => ReceiveChannel(s, r, id);
    case Subscribe(topics) => SubscribeChannel(s, topics, id, taken);
    case Close(r) => CloseChannel(s, r, id, taken);
  }

  lemma ClosedStep(s: State, step: Step, id: nat, taken: nat)
    requires Shaped(s, taken) && taken + 1 < WRAP && Enabled(s, step) && id in s.channels
    requires s.channels[id].until.Some?
    ensures var t := Apply(s, step);
      && id in t.channels && t.channels[id].until == s.channels[id].until
      && Delivered(t.channels[id]) == Delivered(s.channels[id])
  {
    match step
    case Publish(event) => PublishChannel(s, event, id, taken);
    case Receive(r) =>
      ReceiveChannel(s, r, id);
      if r == id { assert Delivered(Taken(s.channels[id])) == Delivered(s.channels[id]); }
    case Subscribe(topics) => SubscribeChannel(s, topics, id, taken);
    case Close(r) => CloseChannel(s, r, id, taken);
  }

  /** A subscription keeps its topics and its place in the log, and stays open until its own close. */
  lemma {:induction false} StaysOpen(s: State, steps: seq<Step>, id: nat, taken: nat)
    requires Shaped(s, taken) && Runnable(s, steps) && taken + |steps| < WRAP && id in s.channels
    requires NeverCloses(steps, id) && s.channels[id].until.None?
    ensures var t := Exec(s, steps);
      && id in t.channels && t.channels[id].until.None?
      && t.channels[id].topics == s.channels[id].topics && t.channels[id].from == s.channels[id].from
    decreases |steps|
  {
    if steps != [] {
      var step := steps[0];
      OpenStep(s, step, id, taken);
      ShapedStep(s, step, taken);
      StaysOpen(Apply(s, step), steps[1..], id, taken + 1);
    }
  }

  lemma {:induction false} RunSplit(s: State, a: seq<Step>, b: seq<Step>)
    requires Runnable(s, a + b)
    ensures Runnable(s, a) && Runnable(Exec(s, a), b) && Exec(s, a + b) == Exec(Exec(s, a), b)
    decreases |a|
  {
    if a == [] {
      assert a + b == b;
    } else {
      assert (a + b)[1..] == a[1..] + b && (a + b)[0] == a[0];
      RunSplit(Apply(s, a[0]), a[1..], b);
    }
  }

  lemma Opens(before: seq<Step>, topics: set<string>)
    requires Runnable(EMPTY, before + [Subscribe(topics)]) && |before| + 1 < WRAP
    ensures var id, s := Subscriptions(before) + 1, Exec(EMPTY, before + [Subscribe(topics)]);
      id in s.channels && s.channels[id] == Channel(topics, [], [], |Sent(before)|, None)
  {
    RunSnoc(EMPTY, before, Subscribe(topics));
    LogIsSent(before);
    CountsBounded(before);
  }

  /** No matching event was published to the subscription while sixteen were waiting. */
  ghost predicate KeepsUp(steps: seq<Step>, id: nat) { forall n :: 0 <= n < |steps| ==> !LostIn(steps, n, id) }

  lemma StillSubscribed(first: seq<Step>, after: seq<Step>, id: nat, topics: set<string>, from: nat)
    requires Runnable(EMPTY, first + after) && |first| + |after| < WRAP && Runnable(EMPTY, first)
    requires id in Exec(EMPTY, first).channels && Exec(EMPTY, first).channels[id] == Channel(topics, [], [], from, None)
    requires NeverCloses(after, id)
    ensures id in Exec(EMPTY, first + after).channels
    ensures var c := Exec(EMPTY, first + after).channels[id]; c.until.None? && c.topics == topics && c.from == from
  {
    RunSplit(EMPTY, first, after);
    RunShaped(first);
    StaysOpen(Exec(EMPTY, first), after, id, |first|);
  }

  lemma OpenDue(log: Log, c: Channel)
    requires c.until.None? && c.from <= |log|
    ensures Due(log, c) == Filter((e: Event) => Matches(c.topics, e.topic), log[c.from..])
  {
    assert log[c.from..|log|] == log[c.from..];
    FilterAgree((e: Event) => Matches(c.topics, e.topic), Wanted(c.topics), log[c.from..]);
  }

  /**
   What a subscription gets, from the calls alone: it takes the next number; and as long as it is not closed and no
   matching event is published while sixteen are waiting, what its client has received and what is waiting are together
   the events published since whose topic matches, each once, in order and under the id it went out with.
   */
  lemma SubscriberGets(before: seq<Step>, topics: set<string>, after: seq<Step>, steps: seq<Step>, id: nat)
    requires steps == before + [Subscribe(topics)] + after && Runnable(EMPTY, steps) && |steps| < WRAP
    requires id == Subscriptions(before) + 1 && NeverCloses(after, id) && KeepsUp(steps, id)
    ensures id in Exec(EMPTY, steps).channels && |Sent(before)| <= |Sent(steps)|
    ensures var c := Exec(EMPTY, steps).channels[id];
      c.received + c.buffer == Filter((e: Event) => Matches(topics, e.topic), Sent(steps)[|Sent(before)|..])
  {
    var first := before + [Subscribe(topics)];
    RunSplit(EMPTY, first, after);
    Opens(before, topics);
    StillSubscribed(first, after, id, topics, |Sent(before)|);
    LogIsSent(steps);
    RunGood(steps);
    DeliveryExactly(steps, id);
    var c := Exec(EMPTY, steps).channels[id];
    assert ChannelInv(Sent(steps), c);
    OpenDue(Sent(steps), c);
  }

  /** Once closed, a subscription gets nothing more. */
  lemma {:induction false} ClosedGetsNothing(s: State, steps: seq<Step>, id: nat, taken: nat)
    requires Shaped(s, taken) && Runnable(s, steps) && taken + |steps| < WRAP && id in s.channels
    requires s.channels[id].until.Some?
    ensures var t := Exec(s, steps);
      && id in t.channels && t.channels[id].until == s.channels[id].until
      && t.channels[id].received + t.channels[id].buffer == s.channels[id].received + s.channels[id].buffer
    decreases |steps|
  {
    if steps != [] {
      var step := steps[0];
      ClosedStep(s, step, id, taken);
      ShapedStep(s, step, taken);
      ClosedGetsNothing(Apply(s, step), steps[1..], id, taken + 1);
    }
  }
}

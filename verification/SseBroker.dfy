/**
 The server-sent-events broker (apps/go-api/internal/provider/sse.go) as a state machine.
 Every broker operation runs under one mutex, and a receive takes one event off one
 channel, so a run is a sequence of these steps.
 */
module SseBroker {
  import opened Wrappers
  import opened Sequences
  import opened Text

  const CAPACITY := 16
  const WRAP := 0x1_0000_0000_0000_0000

  /** An event id: absent, chosen by the publisher, or assigned by the broker. */
  datatype EventId = Absent | Given(text: string) | Assigned(number: nat)

  datatype Event = Event(id: EventId, kind: string, topic: string, data: string)

  // ---- Topics -----------------------------------------------------------

  /** The part of a topic before its first colon; empty when there is none. */
  function Root(topic: string): string
  {
    match IndexOfColon(topic)
    case None => ""
    case Some(i) => topic[..i]
  }

  function IndexOfColon(s: string): (r: Option<nat>)
    ensures r.Some? ==> r.value < |s| && s[r.value] == ':' && forall i :: 0 <= i < r.value ==> s[i] != ':'
    ensures r.None? ==> ':' !in s
  {
    if s == [] then None
    else if s[0] == ':' then Some(0)
    else match IndexOfColon(s[1..]) case None => None case Some(i) => Some(i + 1)
  }

  predicate Matches(topics: set<string>, topic: string)
  {
    topic in topics || "*" in topics || (Root(topic) != "" && Root(topic) in topics)
  }

  function Wanted(topics: set<string>): Event -> bool { (e: Event) => Matches(topics, e.topic) }

  /** The checks `Publish` makes before it takes the lock. */
  predicate Publishable(topic: string, e: Event)
  {
    Trim(topic) != "" && e.topic == Trim(topic) && Trim(e.kind) != "" && e.data != ""
  }

  /** A published event: its topic is the one given without white space around it, and nothing is missing. */
  lemma PublishableMeans(topic: string, e: Event)
    ensures Publishable(topic, e) <==>
      IsTrimmed(topic, e.topic) && e.topic != "" && !Blank(e.kind) && e.data != ""
  {
    TrimMeans(topic, e.topic);
    BlankMeans(e.kind);
  }

  /** The topics a subscription registers: trimmed, empty ones dropped. */
  function Registered(topics: seq<string>): set<string>
  {
    if topics == [] then {}
    else
      var last := Trim(topics[|topics| - 1]);
      Registered(topics[..|topics| - 1]) + if last == "" then {} else {last}
  }

  /** Exactly the topics given, without white space around them, but the empty one. */
  lemma {:induction false} RegisteredMeans(topics: seq<string>, t: string)
    ensures t in Registered(topics) <==> t != "" && exists i :: 0 <= i < |topics| && IsTrimmed(topics[i], t)
  {
    if topics != [] {
      var n := |topics| - 1;
      RegisteredMeans(topics[..n], t);
      TrimMeans(topics[n], t);
      if t in Registered(topics[..n]) {
        var i :| 0 <= i < n && IsTrimmed(topics[..n][i], t);
        assert IsTrimmed(topics[i], t);
      }
    }
  }

  lemma {:induction false} SomeRegistered(topics: seq<string>)
    ensures Registered(topics) != {} <==> exists i :: 0 <= i < |topics| && !Blank(topics[i])
  {
    if topics != [] {
      var n := |topics| - 1;
      SomeRegistered(topics[..n]);
      BlankMeans(topics[n]);
      if Registered(topics[..n]) != {} {
        var i :| 0 <= i < n && !Blank(topics[..n][i]);
        assert !Blank(topics[i]);
      }
      if Trim(topics[n]) != "" { assert Trim(topics[n]) in Registered(topics); }
    }
  }

  // ---- State ------------------------------------------------------------

  /** A subscription and its channel, with the stretch of the log published while it was registered. */
  datatype Channel = Channel(
    topics: set<string>, buffer: seq<Event>, received: seq<Event>, from: nat, until: Option<nat>)

  datatype State = State(
    nextId: nat,
    nextSubId: nat,
    registered: set<nat>,
    channels: map<nat, Channel>,
    // History: every event published, with the id it went out under.
    log: seq<Event>)

  /** The operations after their arguments were checked; a rejected call is no step. */
  datatype Step = Subscribe(topics: set<string>) | Publish(event: Event) | Receive(id: nat) | Close(id: nat)

  predicate Enabled(s: State, step: Step)
  {
    match step
    case Subscribe(topics) => topics != {}
    case Publish(_) => true
    case Receive(id) => id in s.channels && s.channels[id].buffer != []
    case Close(id) => id in s.channels
  }

  function Stamp(s: State, e: Event): Event { if e.id == Absent then e.(id := Assigned((s.nextId + 1) % WRAP)) else e }

  /** A send that never blocks: dropped when the buffer is full. */
  function Offer(c: Channel, e: Event): Channel
  {
    if |c.buffer| < CAPACITY then c.(buffer := c.buffer + [e]) else c
  }

  function Deliver(s: State, e: Event): map<nat, Channel>
  {
    map id | id in s.channels ::
      if id in s.registered && Matches(s.channels[id].topics, e.topic) then Offer(s.channels[id], e) else s.channels[id]
  }

  function Apply(s: State, step: Step): State
    requires Enabled(s, step)
  {
    match step
    case Subscribe(topics) =>
      var id := (s.nextSubId + 1) % WRAP;
      s.(nextSubId := id, registered := s.registered + {id},
         channels := s.channels[id := Channel(topics, [], [], |s.log|, None)])
    case Publish(event) =>
      var e := Stamp(s, event);
      s.(nextId := if event.id == Absent then (s.nextId + 1) % WRAP else s.nextId,
         channels := Deliver(s, e), log := s.log + [e])
    case Receive(id) =>
      var c := s.channels[id];
      s.(channels := s.channels[id := c.(buffer := c.buffer[1..], received := c.received + [c.buffer[0]])])
    case Close(id) =>
      if id !in s.registered then s
      else
        var c := s.channels[id];
        s.(registered := s.registered - {id}, channels := s.channels[id := c.(until := Some(|s.log|))])
  }

  predicate Runnable(s: State, steps: seq<Step>)
    decreases |steps|
  {
    steps == [] || (Enabled(s, steps[0]) && Runnable(Apply(s, steps[0]), steps[1..]))
  }

  function Exec(s: State, steps: seq<Step>): State
    requires Runnable(s, steps)
    decreases |steps|
  {
    if steps == [] then s else Exec(Apply(s, steps[0]), steps[1..])
  }

  const EMPTY := State(0, 0, {}, map[], [])

  // ---- Subsequences -----------------------------------------------------

  /** `a` arises from `b` by leaving events out. */
  predicate Subsequence(a: seq<Event>, b: seq<Event>)
    decreases |b|
  {
    a == [] ||
    (b != [] &&
     ((a[|a| - 1] == b[|b| - 1] && Subsequence(a[..|a| - 1], b[..|b| - 1])) || Subsequence(a, b[..|b| - 1])))
  }

  /** That is: there are strictly increasing positions of `b` at which `a` is found. */
  lemma {:induction false} SubsequencePositions(a: seq<Event>, b: seq<Event>) returns (at: seq<nat>)
    requires Subsequence(a, b)
    ensures |at| == |a| && (forall i :: 0 <= i < |a| ==> at[i] < |b| && b[at[i]] == a[i])
    ensures forall i, j :: 0 <= i < j < |a| ==> at[i] < at[j]
    decreases |b|
  {
    if a == [] {
      at := [];
    } else {
      var n, m := |a| - 1, |b| - 1;
      if a[n] == b[m] && Subsequence(a[..n], b[..m]) {
        var front := SubsequencePositions(a[..n], b[..m]);
        at := front + [m];
      } else {
        at := SubsequencePositions(a, b[..m]);
      }
    }
  }

  lemma SubsequenceSnoc(a: seq<Event>, b: seq<Event>, e: Event)
    requires Subsequence(a, b)
    ensures Subsequence(a + [e], b + [e]) && Subsequence(a, b + [e])
  {}

  // ---- The invariant ----------------------------------------------------

  type Log = seq<Event>

  /** The matching events published while the subscription was registered. */
  function Due(log: Log, c: Channel): seq<Event>
  {
    var end := if c.until.Some? && c.until.value <= |log| then c.until.value else |log|;
    if c.from <= end then Filter(Wanted(c.topics), log[c.from..end]) else []
  }

  function Delivered(c: Channel): seq<Event> { c.received + c.buffer }

  predicate ChannelInv(log: Log, c: Channel)
  {
    && c.from <= |log| && (c.until.Some? ==> c.from <= c.until.value <= |log|)
    && |c.buffer| <= CAPACITY
    && Subsequence(Delivered(c), Due(log, c))
  }

  lemma DueGrows(log: Log, c: Channel, e: Event)
    requires c.from <= |log| && c.until.None?
    ensures Due(log + [e], c) == Due(log, c) + if Matches(c.topics, e.topic) then [e] else []
  {
    assert (log + [e])[c.from..|log| + 1] == log[c.from..|log|] + [e];
    FilterSnoc(Wanted(c.topics), log[c.from..|log|], e);
  }

  lemma FrozenInv(log: Log, c: Channel, e: Event)
    requires c.until.Some? && ChannelInv(log, c)
    ensures ChannelInv(log + [e], c)
  {
    assert (log + [e])[c.from..c.until.value] == log[c.from..c.until.value];
  }

  lemma OfferInv(log: Log, c: Channel, e: Event)
    requires ChannelInv(log, c) && c.until.None? && Matches(c.topics, e.topic)
    ensures ChannelInv(log + [e], Offer(c, e))
  {
    var after := Offer(c, e);
    DueGrows(log, c, e);
    SubsequenceSnoc(Delivered(c), Due(log, c), e);
    assert Due(log + [e], after) == Due(log + [e], c);
    if |c.buffer| < CAPACITY { assert Delivered(after) == Delivered(c) + [e]; }
  }

  lemma PassedOverInv(log: Log, c: Channel, e: Event)
    requires ChannelInv(log, c) && c.until.None? && !Matches(c.topics, e.topic)
    ensures ChannelInv(log + [e], c)
  {
    DueGrows(log, c, e);
    assert Due(log, c) + [] == Due(log, c);
  }

  lemma OpenedInv(log: Log, topics: set<string>)
    ensures ChannelInv(log, Channel(topics, [], [], |log|, None))
  {}

  function Taken(c: Channel): Channel
    requires c.buffer != []
  {
    c.(buffer := c.buffer[1..], received := c.received + [c.buffer[0]])
  }

  lemma TakenInv(log: Log, c: Channel)
    requires ChannelInv(log, c) && c.buffer != []
    ensures ChannelInv(log, Taken(c))
  {
    assert Delivered(Taken(c)) == Delivered(c);
    assert Due(log, Taken(c)) == Due(log, c);
  }

  lemma ClosedInv(log: Log, c: Channel)
    requires ChannelInv(log, c) && c.until.None?
    ensures ChannelInv(log, c.(until := Some(|log|)))
  {}

  // ---- Every step keeps it ----------------------------------------------

  type Good = (Log, Channel) -> bool

  /** After `taken` steps: channels are good, and the registered ones are exactly those still open. */
  ghost predicate Inv(good: Good, s: State, taken: nat)
  {
    && s.nextId <= taken && s.nextSubId <= taken
    && (forall id :: id in s.channels ==> 1 <= id <= s.nextSubId && good(s.log, s.channels[id]))
    && (forall id :: id in s.registered ==> id in s.channels)
    && (forall id :: id in s.channels ==> (id in s.registered <==> s.channels[id].until.None?))
  }

  /** What each step does to a channel keeps it good. */
  ghost predicate Preserved(good: Good)
  {
    && (forall log, topics :: good(log, Channel(topics, [], [], |log|, None)))
    && (forall log, c: Channel :: good(log, c) && c.buffer != [] ==> good(log, Taken(c)))
    && (forall log, c: Channel :: good(log, c) && c.until.None? ==> good(log, c.(until := Some(|log|))))
    && (forall log, c, e :: good(log, c) ==> good(log + [e], AfterPublish(c, e)))
  }

  /** A channel once an event was published: offered to it if it is open and matches. */
  function AfterPublish(c: Channel, e: Event): Channel
  {
    if c.until.None? && Matches(c.topics, e.topic) then Offer(c, e) else c
  }

  lemma ChannelInvPreserved()
    ensures Preserved(ChannelInv)
  {
    forall log: Log, topics: set<string>
      ensures ChannelInv(log, Channel(topics, [], [], |log|, None))
    {
      OpenedInv(log, topics);
    }
    forall log: Log, c: Channel | ChannelInv(log, c) && c.buffer != []
      ensures ChannelInv(log, Taken(c))
    {
      TakenInv(log, c);
    }
    forall log: Log, c: Channel | ChannelInv(log, c) && c.until.None?
      ensures ChannelInv(log, c.(until := Some(|log|)))
    {
      ClosedInv(log, c);
    }
    forall log: Log, c: Channel, e: Event | ChannelInv(log, c) ensures ChannelInv(log + [e], AfterPublish(c, e)) {
      if c.until.Some? {
        FrozenInv(log, c, e);
      } else if Matches(c.topics, e.topic) {
        OfferInv(log, c, e);
      } else {
        PassedOverInv(log, c, e);
      }
    }
  }

  lemma PublishInv(good: Good, s: State, event: Event, taken: nat)
    requires Preserved(good) && Inv(good, s, taken) && Enabled(s, Publish(event)) && taken + 1 < WRAP
    ensures Inv(good, Apply(s, Publish(event)), taken + 1)
  {
    var t, e := Apply(s, Publish(event)), Stamp(s, event);
    assert t.channels.Keys == s.channels.Keys;
    forall id | id in s.channels ensures good(t.log, t.channels[id]) && t.channels[id].until == s.channels[id].until {
      assert good(s.log, s.channels[id]);
      assert t.channels[id] == AfterPublish(s.channels[id], e);
    }
  }

  lemma SubscribeInv(good: Good, s: State, topics: set<string>, taken: nat)
    requires Preserved(good) && Inv(good, s, taken) && Enabled(s, Subscribe(topics)) && taken + 1 < WRAP
    ensures Inv(good, Apply(s, Subscribe(topics)), taken + 1)
  {
    var t, id := Apply(s, Subscribe(topics)), s.nextSubId + 1;
    assert id !in s.channels && t.nextSubId == id && t.log == s.log;
    assert good(t.log, t.channels[id]);
  }

  lemma ReceiveInv(good: Good, s: State, id: nat, taken: nat)
    requires Preserved(good) && Inv(good, s, taken) && Enabled(s, Receive(id))
    ensures Inv(good, Apply(s, Receive(id)), taken + 1)
  {
    assert Apply(s, Receive(id)).channels == s.channels[id := Taken(s.channels[id])];
  }

  lemma CloseInv(good: Good, s: State, id: nat, taken: nat)
    requires Preserved(good) && Inv(good, s, taken) && Enabled(s, Close(id))
    ensures Inv(good, Apply(s, Close(id)), taken + 1)
  {}

  lemma StepInv(good: Good, s: State, step: Step, taken: nat)
    requires Preserved(good) && Inv(good, s, taken) && Enabled(s, step) && taken + 1 < WRAP
    ensures Inv(good, Apply(s, step), taken + 1)
  {
    match step
    case Subscribe(topics) => SubscribeInv(good, s, topics, taken);
    case Publish(event) => PublishInv(good, s, event, taken);
    case Receive(id) => ReceiveInv(good, s, id, taken);
    case Close(id) => CloseInv(good, s, id, taken);
  }

  lemma {:induction false} RunInv(good: Good, s: State, steps: seq<Step>, taken: nat)
    requires Preserved(good) && Inv(good, s, taken) && Runnable(s, steps) && taken + |steps| < WRAP
    ensures Inv(good, Exec(s, steps), taken + |steps|)
    decreases |steps|
  {
    if steps != [] {
      StepInv(good, s, steps[0], taken);
      RunInv(good, Apply(s, steps[0]), steps[1..], taken + 1);
    }
  }

  // ---- Main results -----------------------------------------------------

  /**
   Delivery, over every run shorter than 2^64 steps: what a subscriber has received plus what is buffered
   for it is an in-order selection of the matching events published while it was subscribed, and the buffer
   holds at most sixteen.
   */
  lemma Delivery(steps: seq<Step>, id: nat)
    requires Runnable(EMPTY, steps) && |steps| < WRAP && id in Exec(EMPTY, steps).channels
    ensures var s := Exec(EMPTY, steps); var c := s.channels[id];
      Subsequence(c.received + c.buffer, Due(s.log, c)) && |c.buffer| <= 16
  {
    ChannelInvPreserved();
    RunInv(ChannelInv, EMPTY, steps, 0);
  }

  /** The step would send on a closed channel, or close one that is closed. */
  predicate Panics(s: State, step: Step)
  {
    match step
    case Publish(event) =>
      exists id :: id in s.channels && id in s.registered && s.channels[id].until.Some?
        && Matches(s.channels[id].topics, event.topic)
    case Close(id) => id in s.channels && id in s.registered && s.channels[id].until.Some?
    case _ => false
  }

  /** No run sends on a closed channel or closes one twice. */
  lemma NoPanic(steps: seq<Step>, step: Step)
    requires Runnable(EMPTY, steps) && |steps| < WRAP
    ensures !Panics(Exec(EMPTY, steps), step)
  {
    ChannelInvPreserved();
    RunInv(ChannelInv, EMPTY, steps, 0);
  }

  // ---- The broker object ------------------------------------------------

  function OfferBuffer(buffer: seq<Event>, e: Event): seq<Event>
  {
    if |buffer| < CAPACITY then buffer + [e] else buffer
  }

  function Interested(topic: string): set<string> -> bool { (topics: set<string>) => Matches(topics, topic) }

  /** A buffer once the event was offered to the interested subscribers. */
  function Offered(buffer: seq<Event>, subscribers: map<nat, set<string>>, want: set<string> -> bool, e: Event,
                   id: nat): seq<Event>
  {
    if id in subscribers && want(subscribers[id]) then OfferBuffer(buffer, e) else buffer
  }

  type Buffers = map<nat, seq<Event>>

  /** Send to each interested subscriber in turn, without blocking. */
  method Broadcast(buffers: Buffers, subscribers: map<nat, set<string>>, want: set<string> -> bool, e: Event)
    returns (after: Buffers)
    requires forall id :: id in subscribers ==> id in buffers
    ensures after.Keys == buffers.Keys
    ensures forall id :: id in buffers ==> after[id] == Offered(buffers[id], subscribers, want, e, id)
  {
    after := buffers;
    var todo := subscribers.Keys;
    while todo != {}
      invariant todo <= subscribers.Keys && after.Keys == buffers.Keys
      invariant forall id :: id in buffers ==>
        after[id] == if id in todo then buffers[id] else Offered(buffers[id], subscribers, want, e, id)
      decreases todo
    {
      var id :| id in todo;
      if want(subscribers[id]) {
        after := after[id := OfferBuffer(after[id], e)];
      }
      todo := todo - {id};
    }
  }

  /** Offering to every registered subscriber is what the model's delivery does to the buffers. */
  lemma OfferedIsDelivery(s: State, buffers: map<nat, seq<Event>>, subscribers: map<nat, set<string>>, e: Event,
                          id: nat)
    requires subscribers.Keys == s.registered && buffers.Keys == s.channels.Keys && id in s.channels
    requires buffers[id] == s.channels[id].buffer && (id in subscribers ==> subscribers[id] == s.channels[id].topics)
    ensures Offered(buffers[id], subscribers, Interested(e.topic), e, id) == Deliver(s, e)[id].buffer
    ensures Deliver(s, e)[id].topics == s.channels[id].topics
  {}

  /** The broker's maps say the same as the state. */
  ghost predicate Mirrors(s: State, subscribers: map<nat, set<string>>, buffers: Buffers)
  {
    && subscribers.Keys == s.registered && buffers.Keys == s.channels.Keys
    && (forall id :: id in s.channels ==> buffers[id] == s.channels[id].buffer)
    && (forall id :: id in subscribers ==> id in s.channels && subscribers[id] == s.channels[id].topics)
  }

  lemma SendMirrors(s: State, subscribers: map<nat, set<string>>, buffers: Buffers, after: Buffers, event: Event)
    requires Mirrors(s, subscribers, buffers) && after.Keys == buffers.Keys
    requires forall id :: id in buffers ==>
      after[id] == Offered(buffers[id], subscribers, Interested(event.topic), Stamp(s, event), id)
    ensures Mirrors(Apply(s, Step.Publish(event)), subscribers, after)
  {
    var e, t := Stamp(s, event), Apply(s, Step.Publish(event));
    assert t.channels == Deliver(s, e) && t.channels.Keys == s.channels.Keys;
    forall id | id in s.channels
      ensures after[id] == t.channels[id].buffer && t.channels[id].topics == s.channels[id].topics
    {
      OfferedIsDelivery(s, buffers, subscribers, e, id);
    }
  }

  class Broker {
    var nextId: nat
    var nextSubId: nat
    var subscribers: map<nat, set<string>>
    var buffers: Buffers    // the contents of every channel ever opened
    ghost var model: State

    ghost predicate Valid()
      reads this
    {
      nextId == model.nextId && nextSubId == model.nextSubId && Mirrors(model, subscribers, buffers)
    }

    constructor ()
      ensures Valid() && model == EMPTY
    {
      nextId, nextSubId, subscribers, buffers := 0, 0, map[], map[];
      model := EMPTY;
    }

    /** Assign an id if there is none, and send to every interested subscriber. */
    method Send(event: Event)
      requires Valid()
      modifies this
      ensures Valid() && model == Apply(old(model), Step.Publish(event))
    {
      var e := event;
      if event.id == Absent {
        nextId := (nextId + 1) % WRAP;
        e := event.(id := Assigned(nextId));
      }
      ghost var before := buffers;
      buffers := Broadcast(buffers, subscribers, Interested(event.topic), e);
      SendMirrors(model, subscribers, before, buffers, event);
      model := Apply(model, Step.Publish(event));
    }

    method Publish(topic: string, event: Event) returns (ok: bool)
      requires Valid()
      modifies this
      ensures Valid()
      ensures ok <==> IsTrimmed(topic, event.topic) && event.topic != "" && !Blank(event.kind) && event.data != ""
      ensures model == if ok then Apply(old(model), Step.Publish(event)) else old(model)
    {
      PublishableMeans(topic, event);
      ok := Publishable(topic, event);
      if ok {
        Send(event);
      }
    }

    method Subscribe(topics: seq<string>) returns (id: Option<nat>)
      requires Valid()
      modifies this
      ensures Valid()
      ensures id.Some? <==> Registered(topics) != {}
      ensures id.Some? <==> exists i :: 0 <= i < |topics| && !Blank(topics[i])
      ensures model == if id.Some? then Apply(old(model), Step.Subscribe(Registered(topics))) else old(model)
      ensures id.Some? ==> id.value == model.nextSubId
    {
      var names := Registered(topics);
      SomeRegistered(topics);
      if names == {} {
        return None;
      }
      nextSubId := (nextSubId + 1) % WRAP;
      subscribers := subscribers[nextSubId := names];
      buffers := buffers[nextSubId := []];
      model := Apply(model, Step.Subscribe(names));
      id := Some(nextSubId);
    }

    /** Unregister and close, unless that was done before. */
    method Close(id: nat)
      requires Valid() && id in buffers
      modifies this
      ensures Valid() && model == Apply(old(model), Step.Close(id))
    {
      model := Apply(model, Step.Close(id));
      subscribers := subscribers - {id};
    }

    /** A client takes the next event off its channel. */
    method Receive(id: nat) returns (e: Event)
      requires Valid() && id in buffers && buffers[id] != []
      modifies this
      ensures Valid() && model == Apply(old(model), Step.Receive(id)) && e == old(buffers[id][0])
    {
      e := buffers[id][0];
      buffers := buffers[id := buffers[id][1..]];
      model := Apply(model, Step.Receive(id));
    }
  }
}

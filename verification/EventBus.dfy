/** The in-process event bus.  Publishers fan out under a read lock; subscribing, unsubscribing and
    closing change the subscriber list under the write lock but close channels after releasing
    it; each subscriber's workers drain its channel.  internal/server/event/bus.go */
module EventBus {
  import opened JobModel
  import GlobLike

  datatype BusEvent = BusEvent(id: nat, eventType: string)

  /** A subscription, by identity, with its normalised options. */
  datatype Sub = Sub(id: nat, pattern: string, bufferSize: nat, concurrency: nat)

  // ---------------------------------------------------------------------------------------------
  // The subscriber list
  // ---------------------------------------------------------------------------------------------

  function Without(subs: seq<Sub>, sub: Sub): (r: seq<Sub>)
    ensures sub !in r
    ensures forall x :: x in r <==> x in subs && x != sub
  {
    if subs == [] then []
    else (if subs[0] == sub then [] else [subs[0]]) + Without(subs[1..], sub)
  }

  lemma WithoutUnfolds(subs: seq<Sub>, sub: Sub)
    ensures Without(subs, sub) ==
      if subs == [] then [] else (if subs[0] == sub then [] else [subs[0]]) + Without(subs[1..], sub)
  {
  }

  // ---------------------------------------------------------------------------------------------
  // The protocol
  // ---------------------------------------------------------------------------------------------

  /** One attempt to send an event to a subscriber; not `ok` if its buffer was full. */
  datatype Attempt = Attempt(publisher: nat, event: BusEvent, ok: bool)

  datatype Channel = Channel(
    buffer: seq<BusEvent>,
    closes: nat,
    attempts: seq<Attempt>,
    /** Events taken by the workers; with one worker, the order of the handler's calls. */
    received: seq<BusEvent>,
    active: nat,
    exited: nat)

  datatype Fanout = Fanout(event: BusEvent, next: nat)

  datatype State = State(
    closed: bool,
    subscribers: seq<Sub>,
    channels: map<Sub, Channel>,
    /** Subscriptions not registered yet, and those some goroutine is about to close. */
    pending: set<Sub>,
    toClose: set<Sub>,
    /** Publishers that found the bus open, and those that hold the read lock. */
    persisting: map<nat, BusEvent>,
    fanouts: map<nat, Fanout>,
    used: set<nat>,
    panicked: bool)

  datatype Event =
    | Subscribe(sub: Sub)
    | Register(sub: Sub)
    | Unsubscribe(sub: Sub)
    | CloseBus
    | CloseChannel(sub: Sub)
    | BeginPublish(p: nat, event: BusEvent)
    | BeginFanout(p: nat)
    | Offer(p: nat)
    | EndPublish(p: nat)
    | Receive(sub: Sub)
    | Finish(sub: Sub)
    | Exit(sub: Sub)

  const START := State(false, [], map[], {}, {}, map[], map[], {}, false)

  predicate Free(s: State, sub: Sub) {
    sub in s.channels && s.channels[sub].active + s.channels[sub].exited < sub.concurrency
  }

  /** The write lock is free of readers. */
  predicate Writable(s: State) { s.fanouts == map[] }

  predicate Enabled(s: State, e: Event) {
    match e
    case Subscribe(sub) => sub !in s.channels
    case Register(sub) => sub in s.pending && Writable(s)
    case Unsubscribe(sub) => sub in s.channels && sub !in s.pending && Writable(s)
    case CloseBus => Writable(s)
    case CloseChannel(sub) => sub in s.toClose
    case BeginPublish(p, _) => p !in s.used
    case BeginFanout(p) => p in s.persisting
    case Offer(p) => p in s.fanouts && s.fanouts[p].next < |s.subscribers|
    case EndPublish(p) => p in s.fanouts && s.fanouts[p].next == |s.subscribers|
    case Receive(sub) => Free(s, sub) && s.channels[sub].buffer != []
    case Finish(sub) => sub in s.channels && s.channels[sub].active > 0
    case Exit(sub) => Free(s, sub) && s.channels[sub].buffer == [] && s.channels[sub].closes > 0
  }

  predicate Wants(sub: Sub, event: BusEvent) { GlobLike.MatchPattern(sub.pattern, event.eventType) }

  function Offered(sub: Sub, c: Channel, p: nat, event: BusEvent): Channel {
    var ok := |c.buffer| < sub.bufferSize;
    c.(attempts := c.attempts + [Attempt(p, event, ok)],
       buffer := if ok then c.buffer + [event] else c.buffer)
  }

  function Put(s: State, sub: Sub, c: Channel): State { s.(channels := s.channels[sub := c]) }

  function Next(s: State, e: Event): State
    requires Enabled(s, e)
  {
    match e
    case Subscribe(sub) => Put(s, sub, Channel([], 0, [], [], 0, 0)).(pending := s.pending + {sub})
    case Register(sub) =>
      var t := s.(pending := s.pending - {sub});
      if s.closed then t.(toClose := s.toClose + {sub}) else t.(subscribers := s.subscribers + [sub])
    case Unsubscribe(sub) => s.(subscribers := Without(s.subscribers, sub), toClose := s.toClose + {sub})
    case CloseBus =>
      if s.closed then s
      else s.(closed := true, subscribers := [], toClose := s.toClose + set x | x in s.subscribers)
    case CloseChannel(sub) =>
      // guarded by the subscriber's sync.Once
      if sub in s.channels && s.channels[sub].closes == 0
      then Put(s, sub, s.channels[sub].(closes := 1))
      else s
    case BeginPublish(p, event) =>
      var t := s.(used := s.used + {p});
      if s.closed then t else t.(persisting := s.persisting[p := event])
    case BeginFanout(p) =>
      var t := s.(persisting := s.persisting - {p});
      if s.closed then t else t.(fanouts := s.fanouts[p := Fanout(s.persisting[p], 0)])
    case Offer(p) =>
      var f := s.fanouts[p];
      var sub := s.subscribers[f.next];
      var t := s.(fanouts := s.fanouts[p := f.(next := f.next + 1)]);
      if !Wants(sub, f.event) then t
      else if sub !in s.channels || s.channels[sub].closes > 0 then t.(panicked := true)
      else Put(t, sub, Offered(sub, s.channels[sub], p, f.event))
    case EndPublish(p) => s.(fanouts := s.fanouts - {p})
    case Receive(sub) =>
      var c := s.channels[sub];
      Put(s, sub, c.(buffer := c.buffer[1..], received := c.received + [c.buffer[0]], active := c.active + 1))
    case Finish(sub) => Put(s, sub, s.channels[sub].(active := s.channels[sub].active - 1))
    case Exit(sub) => Put(s, sub, s.channels[sub].(exited := s.channels[sub].exited + 1))
  }

  ghost predicate Execution(states: seq<State>, events: seq<Event>) {
    && |states| == |events| + 1 && states[0] == START
    && forall i {:trigger events[i]} :: 0 <= i < |events| ==>
         Enabled(states[i], events[i]) && states[i + 1] == Next(states[i], events[i])
  }

  // ---------------------------------------------------------------------------------------------
  // The invariant
  // ---------------------------------------------------------------------------------------------

  function Accepted(attempts: seq<Attempt>): seq<BusEvent> {
    if attempts == [] then []
    else
      var a := attempts[|attempts| - 1];
      Accepted(attempts[..|attempts| - 1]) + if a.ok then [a.event] else []
  }

  predicate TriedBy(attempts: seq<Attempt>, p: nat) {
    exists k :: 0 <= k < |attempts| && attempts[k].publisher == p
  }

  predicate OncePerPublisher(attempts: seq<Attempt>) {
    forall i, j :: 0 <= i < j < |attempts| ==> attempts[i].publisher != attempts[j].publisher
  }

  /** A channel neither loses, repeats nor reorders what it accepted, and workers leave it only
      once it is closed and empty. */
  predicate Faithful(sub: Sub, c: Channel) {
    && c.closes <= 1
    && c.received + c.buffer == Accepted(c.attempts)
    && |c.buffer| <= sub.bufferSize
    && c.active + c.exited <= sub.concurrency
    && (c.exited > 0 ==> c.closes == 1 && c.buffer == [])
  }

  predicate Roles(s: State, sub: Sub)
    requires sub in s.channels
  {
    && (sub in s.subscribers || sub in s.pending ==> s.channels[sub].closes == 0 && sub !in s.toClose)
    && (s.channels[sub].closes > 0 ==> sub in s.toClose)
    && !(sub in s.subscribers && sub in s.pending)
  }

  predicate Logged(s: State, sub: Sub)
    requires sub in s.channels
  {
    && OncePerPublisher(s.channels[sub].attempts)
    && (forall k :: 0 <= k < |s.channels[sub].attempts| ==> s.channels[sub].attempts[k].publisher in s.used)
  }

  predicate SubInv(s: State, sub: Sub)
    requires sub in s.channels
  {
    Faithful(sub, s.channels[sub]) && Roles(s, sub) && Logged(s, sub)
  }

  /** A publisher in its fan-out has tried the wanted subscribers it has passed, and no other. */
  predicate FanoutInv(s: State, p: nat, j: nat)
    requires p in s.fanouts && j < |s.subscribers|
  {
    s.subscribers[j] in s.channels &&
    (TriedBy(s.channels[s.subscribers[j]].attempts, p) <==> j < s.fanouts[p].next && Wants(s.subscribers[j], s.fanouts[p].event))
  }

  predicate PublisherInv(s: State) {
    && s.fanouts.Keys <= s.used && s.persisting.Keys <= s.used && s.fanouts.Keys !! s.persisting.Keys
    && (forall p :: p in s.fanouts ==> s.fanouts[p].next <= |s.subscribers|)
    && (forall p, sub :: p in s.persisting && sub in s.channels ==> !TriedBy(s.channels[sub].attempts, p))
  }

  ghost predicate Inv(s: State) {
    && !s.panicked
    && Distinct(s.subscribers)
    && (forall sub :: sub in s.subscribers || sub in s.pending || sub in s.toClose ==> sub in s.channels)
    && (s.closed ==> s.subscribers == [] && s.fanouts == map[])
    && (forall sub {:trigger SubInv(s, sub)} :: sub in s.channels ==> SubInv(s, sub))
    && PublisherInv(s)
    && (forall p, j {:trigger FanoutInv(s, p, j)} :: p in s.fanouts && 0 <= j < |s.subscribers| ==> FanoutInv(s, p, j))
  }

  // Each step keeps it.

  lemma OfferedChannel(sub: Sub, c: Channel, p: nat, event: BusEvent)
    requires Faithful(sub, c) && c.closes == 0
    ensures Faithful(sub, Offered(sub, c, p, event))
  {
    var a := Attempt(p, event, |c.buffer| < sub.bufferSize);
    assert (c.attempts + [a])[..|c.attempts|] == c.attempts;
  }

  lemma OfferedTried(sub: Sub, c: Channel, p: nat, event: BusEvent, q: nat)
    ensures TriedBy(Offered(sub, c, p, event).attempts, q) <==> TriedBy(c.attempts, q) || p == q
  {
    var d := Offered(sub, c, p, event);
    assert d.attempts[|c.attempts|].publisher == p;
    if TriedBy(c.attempts, q) {
      var k :| 0 <= k < |c.attempts| && c.attempts[k].publisher == q;
      assert d.attempts[k].publisher == q;
    }
  }

  /** An offer finds an open channel that its publisher has not tried. */
  lemma OfferIsSafe(s: State, p: nat)
    requires Inv(s) && Enabled(s, Offer(p))
    ensures
      var sub := s.subscribers[s.fanouts[p].next];
      sub in s.channels && s.channels[sub].closes == 0 && !TriedBy(s.channels[sub].attempts, p)
  {
    var j := s.fanouts[p].next;
    var sub := s.subscribers[j];
    assert sub in s.subscribers;
    assert SubInv(s, sub) && FanoutInv(s, p, j);
  }

  /** The channel a step works on, and what it makes of it. */
  function Changed(s: State, e: Event, sub: Sub): Channel
    requires Enabled(s, e) && sub in s.channels
  {
    ChannelStays(s, e, sub);
    Next(s, e).channels[sub]
  }

  lemma ChannelStays(s: State, e: Event, sub: Sub)
    requires Enabled(s, e) && sub in s.channels
    ensures sub in Next(s, e).channels
  {
    match e
    case Offer(p) => hide Offered, Wants;
    case _ => hide Wants;
  }

  lemma NextAttempts(s: State, e: Event, sub: Sub)
    requires Inv(s) && Enabled(s, e) && sub in s.channels
    ensures
      if e.Offer? && sub == s.subscribers[s.fanouts[e.p].next] && Wants(sub, s.fanouts[e.p].event)
      then Changed(s, e, sub) == Offered(sub, s.channels[sub], e.p, s.fanouts[e.p].event)
      else Changed(s, e, sub).attempts == s.channels[sub].attempts
  {
    if e.Offer? { OfferIsSafe(s, e.p); }
    hide Inv, Offered;
  }

  lemma NextKeepsFaithful(s: State, e: Event, sub: Sub)
    requires Inv(s) && Enabled(s, e) && sub in s.channels
    ensures Faithful(sub, Changed(s, e, sub))
  {
    assert SubInv(s, sub);
    var c := s.channels[sub];
    if e.Offer? {
      OfferIsSafe(s, e.p);
      if sub == s.subscribers[s.fanouts[e.p].next] { OfferedChannel(sub, c, e.p, s.fanouts[e.p].event); }
    }
    if e == Receive(sub) {
      assert c.received + c.buffer == c.received + [c.buffer[0]] + c.buffer[1..];
    }
    hide Inv, Offered, Accepted, OncePerPublisher;
  }

  lemma NextKeepsRoles(s: State, e: Event, sub: Sub)
    requires Inv(s) && Enabled(s, e) && sub in Next(s, e).channels
    ensures Roles(Next(s, e), sub)
  {
    hide Faithful, FanoutInv, PublisherInv, Wants, Logged, OncePerPublisher, TriedBy, Distinct;
    if sub in s.channels { assert SubInv(s, sub); }
    if e.Offer? {
      OfferIsSafe(s, e.p);
    } else {
      hide Offered;
    }
  }

  lemma NextKeepsLogged(s: State, e: Event, sub: Sub)
    requires Inv(s) && Enabled(s, e) && sub in Next(s, e).channels
    ensures Logged(Next(s, e), sub)
  {
    if sub in s.channels {
      assert SubInv(s, sub);
      NextAttempts(s, e, sub);
      if e.Offer? { OfferIsSafe(s, e.p); }
    }
    assert s.used <= Next(s, e).used;
    hide Faithful, FanoutInv, Roles, Wants;
  }

  lemma NextKeepsSub(s: State, e: Event, sub: Sub)
    requires Inv(s) && Enabled(s, e) && sub in Next(s, e).channels
    ensures SubInv(Next(s, e), sub)
  {
    NextKeepsRoles(s, e, sub);
    NextKeepsLogged(s, e, sub);
    if sub in s.channels {
      NextKeepsFaithful(s, e, sub);
    } else {
      assert Next(s, e).channels[sub] == Channel([], 0, [], [], 0, 0);
    }
  }

  lemma NextKeepsFanout(s: State, e: Event, p: nat, j: nat)
    requires Inv(s) && Enabled(s, e) && p in Next(s, e).fanouts && j < |Next(s, e).subscribers|
    ensures FanoutInv(Next(s, e), p, j)
  {
    SubscribersStay(s, e, p);
    var sub := s.subscribers[j];
    assert sub in s.subscribers && sub in s.channels;
    NextAttempts(s, e, sub);
    if p in s.fanouts { assert FanoutInv(s, p, j); }
    ChannelStays(s, e, sub);
    if e.Offer? {
      OfferIsSafe(s, e.p);
      OfferedTried(sub, s.channels[sub], e.p, s.fanouts[e.p].event, p);
      hide Inv, Offered, TriedBy, Wants;
    } else {
      assert p in s.persisting ==> !TriedBy(s.channels[sub].attempts, p);
      hide Inv, Offered, TriedBy, Wants;
    }
  }

  /** No subscriber comes or goes while a publisher is in its fan-out. */
  lemma SubscribersStay(s: State, e: Event, p: nat)
    requires Inv(s) && Enabled(s, e) && p in Next(s, e).fanouts
    ensures Next(s, e).subscribers == s.subscribers
  {
    hide SubInv, FanoutInv, PublisherInv, Offered, Wants, Without;
  }

  lemma NextKeepsPublishers(s: State, e: Event)
    requires Inv(s) && Enabled(s, e)
    ensures PublisherInv(Next(s, e))
  {
    var t := Next(s, e);
    forall p, sub | p in t.persisting && sub in t.channels ensures !TriedBy(t.channels[sub].attempts, p) {
      NotYetTried(s, e, p, sub);
    }
    hide SubInv, FanoutInv, TriedBy, Offered, Without;
  }

  lemma NotYetTried(s: State, e: Event, p: nat, sub: Sub)
    requires Inv(s) && Enabled(s, e) && p in Next(s, e).persisting && sub in Next(s, e).channels
    ensures !TriedBy(Next(s, e).channels[sub].attempts, p)
  {
    if sub in s.channels {
      assert SubInv(s, sub);
      NextAttempts(s, e, sub);
      if e.Offer? { OfferedTried(sub, s.channels[sub], e.p, s.fanouts[e.p].event, p); }
      hide FanoutInv, Faithful, Roles, Offered, Without;
    }
  }

  lemma NextKeepsShape(s: State, e: Event)
    requires Inv(s) && Enabled(s, e)
    ensures var t := Next(s, e);
      && !t.panicked && Distinct(t.subscribers)
      && (forall sub :: sub in t.subscribers || sub in t.pending || sub in t.toClose ==> sub in t.channels)
      && (t.closed ==> t.subscribers == [] && t.fanouts == map[])
  {
    if e.Offer? { OfferIsSafe(s, e.p); }
    if e.Unsubscribe? { WithoutDistinct(s.subscribers, e.sub); }
    if e.Register? { assert SubInv(s, e.sub); }
    hide FanoutInv;
  }

  lemma {:induction false} WithoutDistinct(subs: seq<Sub>, sub: Sub)
    requires Distinct(subs)
    ensures Distinct(Without(subs, sub))
  {
    if subs != [] {
      WithoutDistinct(subs[1..], sub);
      assert subs[0] !in subs[1..];
    }
  }

  lemma NextKeepsInv(s: State, e: Event)
    requires Inv(s) && Enabled(s, e)
    ensures Inv(Next(s, e))
  {
    var t := Next(s, e);
    NextKeepsShape(s, e);
    NextKeepsPublishers(s, e);
    forall sub | sub in t.channels ensures SubInv(t, sub) { NextKeepsSub(s, e, sub); }
    forall p, j | p in t.fanouts && 0 <= j < |t.subscribers| ensures FanoutInv(t, p, j) { NextKeepsFanout(s, e, p, j); }
    hide Next, SubInv, FanoutInv, PublisherInv;
  }

  // ---------------------------------------------------------------------------------------------
  // The object: its write-locked sections
  // ---------------------------------------------------------------------------------------------

  /** The bus's fields, with the state of the protocol around them. */
  class Bus {
    var subscribers: seq<Sub>
    var closed: bool
    ghost var world: State

    ghost predicate Valid()
      reads this
    {
      subscribers == world.subscribers && closed == world.closed && Inv(world)
    }

    constructor ()
      ensures Valid() && world == START
    {
      subscribers, closed, world := [], false, START;
    }

    /** False if the bus is closed already; the caller must then close the new channel. */
    method RegisterSub(sub: Sub) returns (ok: bool)
      requires Valid() && Enabled(world, Register(sub))
      modifies this
      ensures Valid() && world == Next(old(world), Register(sub))
      ensures ok <==> !old(closed)
      ensures if ok then subscribers == old(subscribers) + [sub] else subscribers == old(subscribers) && sub in world.toClose
    {
      NextKeepsInv(world, Register(sub));
      world := Next(world, Register(sub));
      ok := !closed;
      if ok { subscribers := subscribers + [sub]; }
    }

    method UnsubscribeSub(sub: Sub)
      requires Valid() && Enabled(world, Unsubscribe(sub))
      modifies this
      ensures Valid() && world == Next(old(world), Unsubscribe(sub))
      ensures forall x :: x in subscribers <==> x in old(subscribers) && x != sub
    {
      hide Without, Inv;
      var updated := [];
      assert subscribers[0..] == subscribers;
      for i := 0 to |subscribers|
        invariant subscribers == old(subscribers) && closed == old(closed) && world == old(world)
        invariant updated + Without(subscribers[i..], sub) == Without(subscribers, sub)
      {
        WithoutUnfolds(subscribers[i..], sub);
        assert subscribers[i..][1..] == subscribers[i + 1..];
        if subscribers[i] != sub { updated := updated + [subscribers[i]]; }
      }
      WithoutUnfolds([], sub);
      NextKeepsInv(world, Unsubscribe(sub));
      subscribers := updated;
      world := Next(world, Unsubscribe(sub));
    }

    /** The subscribers whose channels the caller must close. */
    method Close() returns (subs: seq<Sub>)
      requires Valid() && Enabled(world, CloseBus)
      modifies this
      ensures Valid() && closed && world == Next(old(world), CloseBus)
      ensures subs == if old(closed) then [] else old(subscribers)
    {
      NextKeepsInv(world, CloseBus);
      world := Next(world, CloseBus);
      subs := [];
      if !closed {
        closed := true;
        subs := subscribers;
        subscribers := [];
      }
    }
  }

  lemma {:induction false} ExecutionInv(states: seq<State>, events: seq<Event>, i: nat)
    requires Execution(states, events) && i <= |events|
    ensures Inv(states[i])
  {
    if i > 0 {
      ExecutionInv(states, events, i - 1);
      NextKeepsInv(states[i - 1], events[i - 1]);
    }
  }

  // ---------------------------------------------------------------------------------------------
  // What every run guarantees
  // ---------------------------------------------------------------------------------------------

  /** No send ever meets a closed channel, and no channel is closed twice. */
  lemma NeverPanics(states: seq<State>, events: seq<Event>, i: nat, sub: Sub)
    requires Execution(states, events) && i <= |events|
    ensures !states[i].panicked
    ensures sub in states[i].channels ==> states[i].channels[sub].closes <= 1
  {
    ExecutionInv(states, events, i);
    if sub in states[i].channels { assert SubInv(states[i], sub); }
  }

  /** What the workers have taken, followed by what is buffered, is exactly what was accepted, in
      order; so a single worker's handler sees the attempts in order, without those dropped. */
  lemma DeliveryInOrder(states: seq<State>, events: seq<Event>, i: nat, sub: Sub)
    requires Execution(states, events) && i <= |events| && sub in states[i].channels
    ensures var c := states[i].channels[sub];
      c.received + c.buffer == Accepted(c.attempts) && OncePerPublisher(c.attempts)
  {
    ExecutionInv(states, events, i);
    assert SubInv(states[i], sub);
  }

  /** An attempt is dropped only on a full buffer. */
  lemma DroppedOnlyWhenFull(states: seq<State>, events: seq<Event>, i: nat, sub: Sub)
    requires Execution(states, events) && i < |events| && sub in states[i].channels && sub in states[i + 1].channels
    requires |states[i + 1].channels[sub].attempts| > |states[i].channels[sub].attempts|
    ensures
      var before, after := states[i].channels[sub], states[i + 1].channels[sub];
      && events[i].Offer? && |after.attempts| == |before.attempts| + 1
      && events[i].p in states[i].fanouts
      && after.attempts == before.attempts + [Attempt(events[i].p, states[i].fanouts[events[i].p].event, |before.buffer| < sub.bufferSize)]
      && PatternCovers(sub.pattern, after.attempts[|before.attempts|].event.eventType)
  {
    assert Enabled(states[i], events[i]);
    ExecutionInv(states, events, i);
    NextAttempts(states[i], events[i], sub);
    WantedIsCovered(sub, states[i + 1].channels[sub].attempts[|states[i].channels[sub].attempts|].event);
  }

  /** The pattern is a lone star, the type itself, or a prefix of it up to a dot followed by a star. */
  predicate PatternCovers(pattern: string, eventType: string) {
    || pattern == "*"
    || pattern == eventType
    || exists n :: 0 < n <= |eventType| && eventType[n - 1] == '.' && pattern == eventType[..n] + "*"
  }

  lemma WantedIsCovered(sub: Sub, event: BusEvent)
    requires Wants(sub, event)
    ensures PatternCovers(sub.pattern, event.eventType)
  {
    var p, t := sub.pattern, event.eventType;
    if p != "*" && p != t {
      var n := |p| - 1;
      assert p[n - 1] == p[n - 1..][0] && p[n] == p[n - 1..][1];
      assert p == p[..n] + [p[n]] && p[..n] == t[..n];
      assert 0 < n <= |t| && t[n - 1] == '.' && p == t[..n] + "*";
    }
  }

  lemma CoveredIsWanted(sub: Sub, event: BusEvent)
    requires PatternCovers(sub.pattern, event.eventType)
    ensures Wants(sub, event)
  {
    var p, t := sub.pattern, event.eventType;
    if p == t {
      SelfMatches(p);
    } else if p != "*" {
      var n :| 0 < n <= |t| && t[n - 1] == '.' && p == t[..n] + "*";
      PrefixMatches(p, t, n);
    }
    hide PatternCovers;
  }

  lemma SelfMatches(p: string)
    ensures GlobLike.MatchPattern(p, p)
  {
  }

  lemma PrefixMatches(p: string, t: string, n: nat)
    requires 0 < n <= |t| && t[n - 1] == '.' && p == t[..n] + "*"
    ensures GlobLike.MatchPattern(p, t)
  {
    assert |p| == n + 1 && p[n - 1] == '.' && p[n] == '*';
    assert p[n - 1..] == ".*" && p[..n] == t[..n];
  }

  /** When a fan-out ends, exactly the registered subscribers whose pattern covers the event's type
      were tried, each once. */
  lemma FanoutReachesAll(states: seq<State>, events: seq<Event>, i: nat, sub: Sub)
    requires Execution(states, events) && i < |events| && events[i].EndPublish?
    requires sub in states[i].subscribers
    ensures sub in states[i].channels && events[i].p in states[i].fanouts
    ensures
      var attempts := states[i].channels[sub].attempts;
      && OncePerPublisher(attempts)
      && (TriedBy(attempts, events[i].p) <==> PatternCovers(sub.pattern, states[i].fanouts[events[i].p].event.eventType))
  {
    assert Enabled(states[i], events[i]);
    ExecutionInv(states, events, i);
    assert SubInv(states[i], sub);
    var j :| 0 <= j < |states[i].subscribers| && states[i].subscribers[j] == sub;
    assert FanoutInv(states[i], events[i].p, j);
    var event := states[i].fanouts[events[i].p].event;
    if Wants(sub, event) { WantedIsCovered(sub, event); }
    if PatternCovers(sub.pattern, event.eventType) { CoveredIsWanted(sub, event); }
    hide PatternCovers, Wants;
  }

  /** Workers leave nothing behind: after the first has exited, every accepted event has been
      taken, so what was buffered at an unsubscribe or at Close is still handled. */
  lemma BufferedEventsSurvive(states: seq<State>, events: seq<Event>, i: nat, sub: Sub)
    requires Execution(states, events) && i <= |events| && sub in states[i].channels
    requires states[i].channels[sub].exited > 0
    ensures states[i].channels[sub].received == Accepted(states[i].channels[sub].attempts)
  {
    ExecutionInv(states, events, i);
    assert SubInv(states[i], sub);
  }

  // Waiting for the workers of a closed channel ends.

  function Work(s: State, sub: Sub): int
    requires sub in s.channels
  {
    var c := s.channels[sub];
    2 * |c.buffer| + c.active + (sub.concurrency - c.exited)
  }

  predicate WorkerStep(e: Event, sub: Sub) { e == Receive(sub) || e == Finish(sub) || e == Exit(sub) }

  /** As long as some worker of a closed channel is left, one can move. */
  lemma WorkersNeverStuck(s: State, sub: Sub)
    requires Inv(s) && sub in s.channels && s.channels[sub].closes == 1 && s.channels[sub].exited < sub.concurrency
    ensures Enabled(s, Receive(sub)) || Enabled(s, Finish(sub)) || Enabled(s, Exit(sub))
  {
    assert SubInv(s, sub);
  }

  /** Every worker step brings the end closer, and no other step pushes it back. */
  lemma WaitEnds(s: State, e: Event, sub: Sub)
    requires Inv(s) && Enabled(s, e) && sub in s.channels && s.channels[sub].closes == 1
    ensures sub in Next(s, e).channels && Next(s, e).channels[sub].closes == 1
    ensures 0 <= Work(Next(s, e), sub) <= Work(s, sub)
    ensures WorkerStep(e, sub) ==> Work(Next(s, e), sub) < Work(s, sub)
  {
    hide Accepted, Offered, Without, FanoutInv, PublisherInv, Roles, Logged;
    assert SubInv(s, sub);
    NextKeepsFaithful(s, e, sub);
    ChannelStays(s, e, sub);
    if WorkerStep(e, sub) {
      hide Inv, SubInv, Wants;
    } else {
      OthersLeaveWork(s, e, sub);
      hide Inv, SubInv, Next;
    }
  }

  lemma OthersLeaveWork(s: State, e: Event, sub: Sub)
    requires Inv(s) && Enabled(s, e) && sub in s.channels && s.channels[sub].closes == 1 && !WorkerStep(e, sub)
    ensures sub in Next(s, e).channels && Next(s, e).channels[sub] == s.channels[sub]
  {
    if e.Offer? { OfferIsSafe(s, e.p); }
    hide Inv, Offered, Without, Wants;
  }

  /** Hence waiting for a closed channel can always end, within as many worker steps as there is
      work, and then everything accepted has been taken. */
  lemma {:induction false} WaitCanEnd(s: State, sub: Sub) returns (states: seq<State>, events: seq<Event>)
    requires Inv(s) && sub in s.channels && s.channels[sub].closes == 1
    ensures |states| == |events| + 1 && states[0] == s && |events| <= Work(s, sub)
    ensures forall i :: 0 <= i < |events| ==>
      WorkerStep(events[i], sub) && Enabled(states[i], events[i]) && states[i + 1] == Next(states[i], events[i])
    ensures sub in states[|events|].channels && states[|events|].channels[sub].exited == sub.concurrency
    ensures sub.concurrency > 0 ==> states[|events|].channels[sub].received == Accepted(states[|events|].channels[sub].attempts)
    decreases Work(s, sub)
  {
    assert SubInv(s, sub);
    states, events := [s], [];
    if s.channels[sub].exited < sub.concurrency {
      WorkersNeverStuck(s, sub);
      var e := if Enabled(s, Receive(sub)) then Receive(sub) else if Enabled(s, Finish(sub)) then Finish(sub) else Exit(sub);
      WaitEnds(s, e, sub);
      NextKeepsInv(s, e);
      var rest, more := WaitCanEnd(Next(s, e), sub);
      hide *;
      states, events := [s] + rest, [e] + more;
      forall i | 0 <= i < |events|
        ensures WorkerStep(events[i], sub) && Enabled(states[i], events[i]) && states[i + 1] == Next(states[i], events[i])
      {
        if i > 0 { assert events[i] == more[i - 1] && states[i] == rest[i - 1] && states[i + 1] == rest[i]; }
      }
    }
  }

  /** Every event tried, whether accepted or dropped. */
  function Tried(attempts: seq<Attempt>): seq<BusEvent> {
    seq(|attempts|, i requires 0 <= i < |attempts| => attempts[i].event)
  }

  /** If the step tries an event on the subscriber, its buffer has room. */
  predicate RoomFor(s: State, t: State, sub: Sub) {
    sub in s.channels && sub in t.channels && |t.channels[sub].attempts| > |s.channels[sub].attempts| ==>
      |s.channels[sub].buffer| < sub.bufferSize
  }

  /** A subscriber whose buffer never was full when an event came for it misses none: what its
      workers took followed by what is buffered is every event tried on it, in order. */
  lemma {:induction false} NothingMissed(states: seq<State>, events: seq<Event>, i: nat, sub: Sub)
    requires Execution(states, events) && i <= |events| && sub in states[i].channels
    requires forall j {:trigger events[j]} :: 0 <= j < i ==> RoomFor(states[j], states[j + 1], sub)
    ensures forall k :: 0 <= k < |states[i].channels[sub].attempts| ==> states[i].channels[sub].attempts[k].ok
    ensures states[i].channels[sub].received + states[i].channels[sub].buffer == Tried(states[i].channels[sub].attempts)
  {
    if i > 0 {
      var s, e, t := states[i - 1], events[i - 1], states[i];
      ExecutionInv(states, events, i - 1);
      assert Enabled(s, e) && RoomFor(s, t, sub);
      forall j | 0 <= j < i - 1 ensures RoomFor(states[j], states[j + 1], sub) { assert Enabled(states[j], events[j]); }
      if sub in s.channels {
        NothingMissed(states, events, i - 1, sub);
        NextAttempts(s, e, sub);
        if |t.channels[sub].attempts| > |s.channels[sub].attempts| { DroppedOnlyWhenFull(states, events, i - 1, sub); }
      }
    }
    AllAccepted(states[i].channels[sub].attempts);
    DeliveryInOrder(states, events, i, sub);
  }

  lemma {:induction false} AllAccepted(attempts: seq<Attempt>)
    requires forall k :: 0 <= k < |attempts| ==> attempts[k].ok
    ensures Accepted(attempts) == Tried(attempts)
  {
    if attempts != [] {
      var n := |attempts| - 1;
      AllAccepted(attempts[..n]);
      assert Tried(attempts) == Tried(attempts[..n]) + [attempts[n].event];
    }
  }

  // ---------------------------------------------------------------------------------------------
  // The protocol by its history: what the bus holds is told by the steps taken so far
  // ---------------------------------------------------------------------------------------------

  /** A subscription is on the list from its registration to its unsubscription, unless the bus has
      closed; whoever takes it off the list, or finds the bus closed, closes its channel. */
  ghost predicate ToldBySub(s: State, past: seq<Event>, sub: Sub) {
    && (s.closed <==> CloseBus in past)
    && (sub in s.channels <==> Subscribe(sub) in past)
    && (sub in s.pending <==> Subscribe(sub) in past && Register(sub) !in past)
    && (sub in s.subscribers <==> Register(sub) in past && Unsubscribe(sub) !in past && CloseBus !in past)
    && (sub in s.toClose <==> Unsubscribe(sub) in past || (Register(sub) in past && CloseBus in past))
    && (Unsubscribe(sub) in past ==> Register(sub) in past)
    && (Register(sub) in past ==> Subscribe(sub) in past)
  }

  lemma {:induction false} SubscriberByHistory(states: seq<State>, events: seq<Event>, i: nat, sub: Sub)
    requires Execution(states, events) && i <= |events|
    ensures ToldBySub(states[i], events[..i], sub)
  {
    if i > 0 {
      SubscriberByHistory(states, events, i - 1, sub);
      assert Enabled(states[i - 1], events[i - 1]);
      PastGrows(events, i - 1);
      StepToldBySub(states[i - 1], events[i - 1], events[..i - 1], events[..i], sub);
    }
  }

  lemma StepToldBySub(s: State, e: Event, past: seq<Event>, more: seq<Event>, sub: Sub)
    requires Enabled(s, e) && ToldBySub(s, past, sub)
    requires forall x :: x in more <==> x in past || x == e
    ensures ToldBySub(Next(s, e), more, sub)
  {
    ListsChange(s, e, sub);
    hide Next, Enabled;
  }

  lemma ListsChange(s: State, e: Event, sub: Sub)
    requires Enabled(s, e)
    ensures var t := Next(s, e);
      && (t.closed <==> s.closed || e == CloseBus)
      && (sub in t.channels <==> sub in s.channels || e == Subscribe(sub))
      && (sub in t.pending <==> (sub in s.pending && e != Register(sub)) || e == Subscribe(sub))
      && (sub in t.subscribers <==> (sub in s.subscribers && e != Unsubscribe(sub) && (e != CloseBus || s.closed)) || (e == Register(sub) && !s.closed))
      && (sub in t.toClose <==> sub in s.toClose || e == Unsubscribe(sub) || (e == Register(sub) && s.closed)
                                || (e == CloseBus && !s.closed && sub in s.subscribers))
      && (e == Subscribe(sub) ==> sub !in s.channels)
      && (e == Register(sub) ==> sub in s.pending)
      && (e == Unsubscribe(sub) ==> sub in s.channels && sub !in s.pending)
  {
    if e.Subscribe? || e.Register? || e.Unsubscribe? || e.CloseBus? {
      ListStepChanges(s, e, sub);
    } else if e.Offer? {
      OfferLeavesLists(s, e.p);
    } else {
      OthersLeaveLists(s, e);
    }
    hide Next, Enabled;
  }

  lemma ListStepChanges(s: State, e: Event, sub: Sub)
    requires Enabled(s, e) && (e.Subscribe? || e.Register? || e.Unsubscribe? || e.CloseBus?)
    ensures var t := Next(s, e);
      && (t.closed <==> s.closed || e == CloseBus)
      && (sub in t.channels <==> sub in s.channels || e == Subscribe(sub))
      && (sub in t.pending <==> (sub in s.pending && e != Register(sub)) || e == Subscribe(sub))
      && (sub in t.subscribers <==> (sub in s.subscribers && e != Unsubscribe(sub) && (e != CloseBus || s.closed)) || (e == Register(sub) && !s.closed))
      && (sub in t.toClose <==> sub in s.toClose || e == Unsubscribe(sub) || (e == Register(sub) && s.closed)
                                || (e == CloseBus && !s.closed && sub in s.subscribers))
      && (e == Subscribe(sub) ==> sub !in s.channels)
      && (e == Register(sub) ==> sub in s.pending)
      && (e == Unsubscribe(sub) ==> sub in s.channels && sub !in s.pending)
  {
    match e
    case Subscribe(x) =>
    case Register(x) =>
    case Unsubscribe(x) =>
    case CloseBus =>
  }

  lemma OfferLeavesLists(s: State, p: nat)
    requires Enabled(s, Offer(p))
    ensures var t := Next(s, Offer(p));
      t.closed == s.closed && t.channels.Keys == s.channels.Keys && t.pending == s.pending
      && t.subscribers == s.subscribers && t.toClose == s.toClose
  {
    hide Wants, Offered;
  }

  lemma OthersLeaveLists(s: State, e: Event)
    requires Enabled(s, e) && !e.Subscribe? && !e.Register? && !e.Unsubscribe? && !e.CloseBus? && !e.Offer?
    ensures var t := Next(s, e);
      t.closed == s.closed && t.channels.Keys == s.channels.Keys && t.pending == s.pending
      && t.subscribers == s.subscribers && t.toClose == s.toClose
  {
    hide Wants, Offered, Without;
  }

  /** A channel is closed by the first CloseChannel, and its workers are where their steps have
      brought them. No more of them handle events at a time than the subscription asked for. */
  ghost predicate ToldByWorkers(s: State, past: seq<Event>, sub: Sub)
    requires sub in s.channels
  {
    var c := s.channels[sub];
    && (c.closes > 0 <==> CloseChannel(sub) in past)
    && |c.received| == multiset(past)[Receive(sub)]
    && c.active + multiset(past)[Finish(sub)] == multiset(past)[Receive(sub)]
    && c.exited == multiset(past)[Exit(sub)]
  }

  lemma {:induction false} WorkersByHistory(states: seq<State>, events: seq<Event>, i: nat, sub: Sub)
    requires Execution(states, events) && i <= |events| && sub in states[i].channels
    ensures ToldByWorkers(states[i], events[..i], sub)
    ensures states[i].channels[sub].active + states[i].channels[sub].exited <= sub.concurrency
  {
    ExecutionInv(states, events, i);
    assert SubInv(states[i], sub);
    hide Inv;
    var s, e := states[i - 1], events[i - 1];
    assert Enabled(s, e);
    PastGrows(events, i - 1);
    if sub in s.channels {
      WorkersByHistory(states, events, i - 1, sub);
      ExecutionInv(states, events, i - 1);
      StepToldByWorkers(s, e, events[..i - 1], events[..i], sub);
      hide SubInv;
    } else {
      NoWorkBefore(states, events, i - 1, sub);
      FirstToldByWorkers(s, e, events[..i - 1], events[..i], sub);
      hide SubInv;
    }
    hide Next, Enabled;
  }

  lemma FirstToldByWorkers(s: State, e: Event, past: seq<Event>, more: seq<Event>, sub: Sub)
    requires Enabled(s, e) && sub !in s.channels && sub in Next(s, e).channels
    requires CloseChannel(sub) !in past && Receive(sub) !in past && Finish(sub) !in past && Exit(sub) !in past
    requires forall x :: x in more <==> x in past || x == e
    requires forall x :: multiset(more)[x] == multiset(past)[x] + if x == e then 1 else 0
    ensures ToldByWorkers(Next(s, e), more, sub)
  {
    hide Wants, Offered, Without;
  }

  lemma StepToldByWorkers(s: State, e: Event, past: seq<Event>, more: seq<Event>, sub: Sub)
    requires Inv(s) && Enabled(s, e) && sub in s.channels && ToldByWorkers(s, past, sub)
    requires forall x :: x in more <==> x in past || x == e
    requires forall x :: multiset(more)[x] == multiset(past)[x] + if x == e then 1 else 0
    ensures sub in Next(s, e).channels && ToldByWorkers(Next(s, e), more, sub)
  {
    hide Wants, Without, SubInv, FanoutInv, PublisherInv;
    if e.Offer? { OfferIsSafe(s, e.p); }
    hide Inv;
    if e.Offer? { OfferToldByWorkers(s, e.p, past, more, sub); } else { OtherToldByWorkers(s, e, past, more, sub); }
    hide Next, ToldByWorkers;
  }

  lemma OfferToldByWorkers(s: State, p: nat, past: seq<Event>, more: seq<Event>, sub: Sub)
    requires Enabled(s, Offer(p)) && sub in s.channels && ToldByWorkers(s, past, sub)
    requires var sub' := s.subscribers[s.fanouts[p].next]; sub' in s.channels && s.channels[sub'].closes == 0
    requires forall x :: x in more <==> x in past || x == Offer(p)
    requires forall x :: multiset(more)[x] == multiset(past)[x] + if x == Offer(p) then 1 else 0
    ensures sub in Next(s, Offer(p)).channels && ToldByWorkers(Next(s, Offer(p)), more, sub)
  {
    hide Wants, Without;
  }

  lemma OtherToldByWorkers(s: State, e: Event, past: seq<Event>, more: seq<Event>, sub: Sub)
    requires Enabled(s, e) && !e.Offer? && sub in s.channels && ToldByWorkers(s, past, sub)
    requires forall x :: x in more <==> x in past || x == e
    requires forall x :: multiset(more)[x] == multiset(past)[x] + if x == e then 1 else 0
    ensures sub in Next(s, e).channels && ToldByWorkers(Next(s, e), more, sub)
  {
    ChannelStep(s, e, sub);
    hide Next, Enabled;
  }

  lemma ChannelStep(s: State, e: Event, sub: Sub)
    requires Enabled(s, e) && !e.Offer? && sub in s.channels
    ensures sub in Next(s, e).channels
    ensures var c, d := s.channels[sub], Next(s, e).channels[sub];
      && (d.closes > 0 <==> c.closes > 0 || e == CloseChannel(sub))
      && |d.received| == |c.received| + (if e == Receive(sub) then 1 else 0)
      && d.active == c.active + (if e == Receive(sub) then 1 else 0) - (if e == Finish(sub) then 1 else 0)
      && d.exited == c.exited + (if e == Exit(sub) then 1 else 0)
  {
    hide Wants, Without, Offered;
  }

  lemma {:induction false} NoWorkBefore(states: seq<State>, events: seq<Event>, i: nat, sub: Sub)
    requires Execution(states, events) && i <= |events| && sub !in states[i].channels
    ensures CloseChannel(sub) !in events[..i] && Receive(sub) !in events[..i] && Finish(sub) !in events[..i] && Exit(sub) !in events[..i]
  {
    if i > 0 {
      var s, e := states[i - 1], events[i - 1];
      assert Enabled(s, e);
      ExecutionInv(states, events, i - 1);
      if sub in s.channels { ChannelStays(s, e, sub); }
      NoWorkBefore(states, events, i - 1, sub);
      PastGrows(events, i - 1);
    }
  }

  /** Given that p began to publish event after before: a publisher that began while the bus was open
      has its event persisted, and then fanned out, to one subscriber after the other, unless the
      bus has closed meanwhile. */
  ghost predicate ToldByPublisher(s: State, before: seq<Event>, past: seq<Event>, p: nat, event: BusEvent) {
    && p in s.used && (s.closed <==> CloseBus in past)
    && (p in s.persisting <==> CloseBus !in before && BeginFanout(p) !in past)
    && (p in s.persisting ==> s.persisting[p] == event)
    && (p in s.fanouts <==> BeginFanout(p) in past && EndPublish(p) !in past && CloseBus !in past)
    && (p in s.fanouts ==> s.fanouts[p] == Fanout(event, multiset(past)[Offer(p)]))
    && (Offer(p) in past || EndPublish(p) in past ==> BeginFanout(p) in past)
  }

  lemma {:induction false} PublisherByHistory(states: seq<State>, events: seq<Event>, j: nat, i: nat, p: nat, event: BusEvent)
    requires Execution(states, events) && j < i <= |events| && events[j] == BeginPublish(p, event)
    ensures ToldByPublisher(states[i], events[..j], events[..i], p, event)
  {
    hide Next, Enabled, ToldByPublisher;
    var s, e := states[i - 1], events[i - 1];
    assert Enabled(s, e);
    PastGrows(events, i - 1);
    if i == j + 1 {
      BeginsUnused(s, p, event);
      SilentBefore(states, events, j, p);
      FirstToldByPublisher(s, events[..j], events[..i], p, event);
    } else {
      PublisherByHistory(states, events, j, i - 1, p, event);
      assert events[..j] <= events[..i - 1];
      StepToldByPublisher(s, e, events[..j], events[..i - 1], events[..i], p, event);
    }
  }

  lemma BeginsUnused(s: State, p: nat, event: BusEvent)
    requires Enabled(s, BeginPublish(p, event))
    ensures p !in s.used
  {
  }

  lemma FirstToldByPublisher(s: State, past: seq<Event>, more: seq<Event>, p: nat, event: BusEvent)
    requires Enabled(s, BeginPublish(p, event)) && p !in s.persisting && p !in s.fanouts && (s.closed <==> CloseBus in past)
    requires BeginFanout(p) !in past && Offer(p) !in past && EndPublish(p) !in past
    requires forall x :: x in more <==> x in past || x == BeginPublish(p, event)
    ensures ToldByPublisher(Next(s, BeginPublish(p, event)), past, more, p, event)
  {
  }

  lemma StepToldByPublisher(s: State, e: Event, before: seq<Event>, past: seq<Event>, more: seq<Event>, p: nat, event: BusEvent)
    requires Enabled(s, e) && ToldByPublisher(s, before, past, p, event) && before <= past
    requires forall x :: x in more <==> x in past || x == e
    requires forall x :: multiset(more)[x] == multiset(past)[x] + if x == e then 1 else 0
    ensures ToldByPublisher(Next(s, e), before, more, p, event)
  {
    hide Wants, Offered, Without;
  }

  /** Who has not begun to publish has done nothing else either. */
  lemma {:induction false} SilentBefore(states: seq<State>, events: seq<Event>, i: nat, p: nat)
    requires Execution(states, events) && i <= |events| && p !in states[i].used
    ensures p !in states[i].persisting && p !in states[i].fanouts && (states[i].closed <==> CloseBus in events[..i])
    ensures BeginFanout(p) !in events[..i] && Offer(p) !in events[..i] && EndPublish(p) !in events[..i]
    ensures forall event :: BeginPublish(p, event) !in events[..i]
  {
    if i > 0 {
      hide Next, Enabled;
      var s, e := states[i - 1], events[i - 1];
      assert Enabled(s, e);
      SilentStep(s, e, p);
      SilentBefore(states, events, i - 1, p);
      PastGrows(events, i - 1);
    }
  }

  lemma SilentStep(s: State, e: Event, p: nat)
    requires Enabled(s, e) && p !in Next(s, e).used
    ensures p !in s.used && (Next(s, e).closed <==> s.closed || e == CloseBus)
    ensures p !in s.persisting && p !in s.fanouts ==>
      && p !in Next(s, e).persisting && p !in Next(s, e).fanouts
      && e != BeginFanout(p) && e != Offer(p) && e != EndPublish(p) && forall event :: e != BeginPublish(p, event)
  {
    hide Wants, Offered, Without;
  }

  /** Subscribers are tried in the order in which they registered. */
  lemma {:induction false} ListedInOrder(states: seq<State>, events: seq<Event>, i: nat, x: nat, y: nat)
    requires Execution(states, events) && i <= |events| && x < y < |states[i].subscribers|
    ensures Precede(events[..i], Register(states[i].subscribers[x]), Register(states[i].subscribers[y]))
  {
    hide Next, Enabled, Precede;
    var s, e, t := states[i - 1], events[i - 1], states[i];
    assert Enabled(s, e) && t == Next(s, e);
    PastGrows(events, i - 1);
    var added, x', y' := ListStep(s, e, x, y);
    if added {
      assert t.subscribers[x] in s.subscribers;
      SubscriberByHistory(states, events, i - 1, t.subscribers[x]);
      hide Execution;
      LastPrecedes(events[..i - 1], Register(t.subscribers[x]), e);
    } else {
      ListedInOrder(states, events, i - 1, x', y');
      hide Execution;
      StillPrecedes(events[..i - 1], e, Register(t.subscribers[x]), Register(t.subscribers[y]));
    }
  }

  /** Where two subscribers stood before the step; or the second one has just been added. */
  lemma ListStep(s: State, e: Event, x: nat, y: nat) returns (added: bool, x': nat, y': nat)
    requires Enabled(s, e) && x < y < |Next(s, e).subscribers|
    ensures var t := Next(s, e);
      if added then x < |s.subscribers| && t.subscribers[x] == s.subscribers[x] && e == Register(t.subscribers[y])
      else x' < y' < |s.subscribers| && s.subscribers[x'] == t.subscribers[x] && s.subscribers[y'] == t.subscribers[y]
  {
    hide Wants, Offered, Without;
    added, x', y' := e.Register? && y == |s.subscribers|, x, y;
    if e.Unsubscribe? { x', y' := WithoutKeepsOrder(s.subscribers, e.sub, x, y); }
  }

  lemma LastPrecedes(past: seq<Event>, a: Event, b: Event)
    requires a in past
    ensures Precede(past + [b], a, b)
  {
    var j :| 0 <= j < |past| && past[j] == a;
    assert (past + [b])[j] == a && (past + [b])[|past|] == b;
  }

  lemma StillPrecedes(past: seq<Event>, e: Event, a: Event, b: Event)
    requires Precede(past, a, b)
    ensures Precede(past + [e], a, b)
  {
    var j, k :| 0 <= j < k < |past| && past[j] == a && past[k] == b;
    assert (past + [e])[j] == a && (past + [e])[k] == b;
  }

  ghost predicate Precede(past: seq<Event>, a: Event, b: Event) {
    exists j, k :: 0 <= j < k < |past| && past[j] == a && past[k] == b
  }

  lemma {:induction false} WithoutKeepsOrder(subs: seq<Sub>, sub: Sub, x: nat, y: nat) returns (x': nat, y': nat)
    requires x < y < |Without(subs, sub)|
    ensures x' < y' < |subs| && subs[x'] == Without(subs, sub)[x] && subs[y'] == Without(subs, sub)[y]
  {
    if subs[0] == sub {
      x', y' := WithoutKeepsOrder(subs[1..], sub, x, y);
      x', y' := x' + 1, y' + 1;
    } else if x == 0 {
      var rest := Without(subs[1..], sub);
      assert Without(subs, sub)[y] == rest[y - 1];
      assert rest[y - 1] in subs[1..];
      var k :| 0 <= k < |subs[1..]| && subs[1..][k] == rest[y - 1];
      x', y' := 0, k + 1;
    } else {
      x', y' := WithoutKeepsOrder(subs[1..], sub, x - 1, y - 1);
      x', y' := x' + 1, y' + 1;
    }
  }

  /** Which steps are possible, told by the history: a subscription is registered and taken off the
      list once, while no publisher is in its fan-out, and nothing else stands in anyone's way. */
  lemma PossibleByHistory(states: seq<State>, events: seq<Event>, i: nat, sub: Sub, p: nat, event: BusEvent)
    requires Execution(states, events) && i <= |events|
    ensures var s, past := states[i], events[..i];
      && (Enabled(s, Subscribe(sub)) <==> Subscribe(sub) !in past)
      && (Enabled(s, Register(sub)) <==> Subscribe(sub) in past && Register(sub) !in past && s.fanouts == map[])
      && (Enabled(s, Unsubscribe(sub)) <==> Register(sub) in past && s.fanouts == map[])
      && (Enabled(s, CloseBus) <==> s.fanouts == map[])
      && (Enabled(s, CloseChannel(sub)) <==> Unsubscribe(sub) in past || (Register(sub) in past && CloseBus in past))
      && (Enabled(s, BeginPublish(p, event)) <==> forall x :: BeginPublish(p, x) !in past)
      && (Enabled(s, BeginFanout(p)) <==> p in s.persisting)
      && (Enabled(s, Offer(p)) || Enabled(s, EndPublish(p)) <==> p in s.fanouts)
      && (Enabled(s, EndPublish(p)) ==> s.fanouts[p].next == |s.subscribers|)
  {
    SubscriberByHistory(states, events, i, sub);
    ExecutionInv(states, events, i);
    if p !in states[i].used { SilentBefore(states, events, i, p); } else { UsedBegan(states, events, i, p); }
    hide SubInv, FanoutInv;
  }

  /** A worker that is not handling an event may take one whenever there is one, also before the
      channel is closed, and leaves once it is closed and empty. */
  lemma WorkersPossible(states: seq<State>, events: seq<Event>, i: nat, sub: Sub)
    requires Execution(states, events) && i <= |events| && sub in states[i].channels
    ensures var s, past := states[i], multiset(events[..i]);
      var c, free := s.channels[sub], past[Receive(sub)] - past[Finish(sub)] + past[Exit(sub)] < sub.concurrency;
      && (Enabled(s, Receive(sub)) <==> c.buffer != [] && free)
      && (Enabled(s, Finish(sub)) <==> past[Receive(sub)] > past[Finish(sub)])
      && (Enabled(s, Exit(sub)) <==> c.buffer == [] && free && CloseChannel(sub) in past)
  {
    hide Enabled, Next, ToldByWorkers, Inv;
    WorkersByHistory(states, events, i, sub);
    ToldMeansPossible(states[i], events[..i], sub);
  }

  lemma ToldMeansPossible(s: State, past: seq<Event>, sub: Sub)
    requires sub in s.channels && ToldByWorkers(s, past, sub)
    ensures var n := multiset(past);
      var c, free := s.channels[sub], n[Receive(sub)] - n[Finish(sub)] + n[Exit(sub)] < sub.concurrency;
      && (Enabled(s, Receive(sub)) <==> c.buffer != [] && free)
      && (Enabled(s, Finish(sub)) <==> n[Receive(sub)] > n[Finish(sub)])
      && (Enabled(s, Exit(sub)) <==> c.buffer == [] && free && CloseChannel(sub) in n)
  {
  }

  lemma {:induction false} UsedBegan(states: seq<State>, events: seq<Event>, i: nat, p: nat)
    requires Execution(states, events) && i <= |events| && p in states[i].used
    ensures exists x :: BeginPublish(p, x) in events[..i]
  {
    hide Enabled;
    assert Enabled(states[i - 1], events[i - 1]);
    PastGrows(events, i - 1);
    if p in states[i - 1].used { UsedBegan(states, events, i - 1, p); } else { UsedByBegin(states[i - 1], events[i - 1], p); }
    hide Next;
  }

  lemma UsedByBegin(s: State, e: Event, p: nat)
    requires Enabled(s, e) && p !in s.used && p in Next(s, e).used
    ensures e.BeginPublish? && e == BeginPublish(p, e.event)
  {
    hide Wants, Offered, Without;
  }
}

/** Text injected into a running session: each session with pending injections has a bounded queue
    and one goroutine that drains it to the agent.  Callers of Enqueue, the drainers and session
    events interleave at the granularity of the lock and of channel operations.
    internal/server/session/injection_queue.go */
module InjectionQueue {
  import opened JobModel

  const QUEUE_CAPACITY := 32

  // ---------------------------------------------------------------------------------------------
  // The protocol, seen from one session
  // ---------------------------------------------------------------------------------------------

  /** Queue objects and Enqueue calls, by identity.  An injection is its position among the
      session's accepted injections. */
  type QueueId = nat
  type CallId = nat

  /** Why a drainer gives up on an injection it has taken. */
  datatype Reason = Stale | StatusUnknown | Terminated | ShutDown | NoAgent | SendFailed

  datatype Drainer = Waiting | Processing(item: nat) | Sent(item: nat) | ShuttingDown | Exiting | Exited

  datatype State = State(
    accepted: nat,
    /** The session's entry in the queue map. */
    current: Option<QueueId>,
    items: map<QueueId, seq<nat>>,
    done: set<QueueId>,
    drainers: map<QueueId, Drainer>,
    calls: map<CallId, QueueId>,
    sent: seq<nat>,
    delivered: set<nat>,
    failed: set<nat>,
    dropped: set<nat>,
    /** One more than the last position taken out of a queue. */
    received: nat)

  datatype Event =
    | GetQueue(c: CallId, q: QueueId)
    | Offer(c: CallId)
    | Receive(q: QueueId)
    | GiveUp(q: QueueId, why: Reason)
    | Send(q: QueueId)
    | MarkDelivered(q: QueueId)
    | CloseDone(q: QueueId)
    | SeeDone(q: QueueId)
    | DrainOne(q: QueueId)
    | DrainEnd(q: QueueId)
    | IdleExit(q: QueueId)
    | Remove(q: QueueId)

  const START := State(0, None, map[], {}, map[], map[], [], {}, {}, {}, 0)

  predicate At(s: State, q: QueueId, d: Drainer) { q in s.drainers && s.drainers[q] == d }

  predicate Busy(s: State, q: QueueId) { q in s.drainers && s.drainers[q].Processing? }

  predicate Nonempty(s: State, q: QueueId) { q in s.items && s.items[q] != [] }

  /** A drainer notices a shutdown during an item's delay only once its done channel is closed. */
  predicate Enabled(s: State, e: Event) {
    match e
    case GetQueue(c, q) => c !in s.calls && (match s.current case Some(p) => q == p case None => q !in s.items)
    case Offer(c) => c in s.calls && s.calls[c] in s.items
    case Receive(q) => At(s, q, Waiting) && Nonempty(s, q)
    case GiveUp(q, why) => Busy(s, q) && (why == ShutDown ==> q in s.done)
    case Send(q) => Busy(s, q)
    case MarkDelivered(q) => q in s.drainers && s.drainers[q].Sent?
    case CloseDone(q) => q in s.items
    case SeeDone(q) => At(s, q, Waiting) && q in s.done
    case DrainOne(q) => At(s, q, ShuttingDown) && Nonempty(s, q)
    case DrainEnd(q) => At(s, q, ShuttingDown) && !Nonempty(s, q)
    case IdleExit(q) => At(s, q, Waiting) && !Nonempty(s, q)
    case Remove(q) => At(s, q, Exiting)
  }

  function To(s: State, q: QueueId, d: Drainer): State { s.(drainers := s.drainers[q := d]) }

  function Popped(s: State, q: QueueId): State
    requires Nonempty(s, q)
  {
    s.(items := s.items[q := s.items[q][1..]], received := s.items[q][0] + 1)
  }

  function Next(s: State, e: Event): State
    requires Enabled(s, e)
  {
    match e
    case GetQueue(c, q) =>
      var t := s.(calls := s.calls[c := q]);
      if s.current.Some? then t
      else t.(current := Some(q), items := s.items[q := []], drainers := s.drainers[q := Waiting])
    case Offer(c) =>
      var q, t := s.calls[c], s.(calls := s.calls - {c});
      if |s.items[q]| < QUEUE_CAPACITY
      then t.(accepted := s.accepted + 1, items := s.items[q := s.items[q] + [s.accepted]])
      else t
    case Receive(q) => To(Popped(s, q), q, Processing(s.items[q][0]))
    case GiveUp(q, why) =>
      // only these two are recorded, the others are dropped silently
      if why == Terminated || why == ShutDown
      then To(s, q, Waiting).(failed := s.failed + {s.drainers[q].item})
      else To(s, q, Waiting).(dropped := s.dropped + {s.drainers[q].item})
    case Send(q) => To(s, q, Sent(s.drainers[q].item)).(sent := s.sent + [s.drainers[q].item])
    case MarkDelivered(q) => To(s, q, Waiting).(delivered := s.delivered + {s.drainers[q].item})
    case CloseDone(q) => s.(done := s.done + {q})
    case SeeDone(q) => To(s, q, ShuttingDown)
    case DrainOne(q) => Popped(s, q).(failed := s.failed + {s.items[q][0]})
    case DrainEnd(q) => To(s, q, Exiting)
    case IdleExit(q) => To(s, q, Exiting)
    case Remove(q) => To(s, q, Exited).(current := None)
  }

  ghost predicate Execution(states: seq<State>, events: seq<Event>) {
    && |states| == |events| + 1 && states[0] == START
    && forall i {:trigger events[i]} :: 0 <= i < |events| ==>
         Enabled(states[i], events[i]) && states[i + 1] == Next(states[i], events[i])
  }

  // ---------------------------------------------------------------------------------------------
  // The invariant
  // ---------------------------------------------------------------------------------------------

  predicate Ascending(ps: seq<nat>) {
    forall i, j :: 0 <= i < j < |ps| ==> ps[i] < ps[j]
  }

  lemma AscendingAppend(ps: seq<nat>, x: nat)
    requires Ascending(ps) && forall p :: p in ps ==> p < x
    ensures Ascending(ps + [x])
  {
    forall i, j | 0 <= i < j < |ps| + 1 ensures (ps + [x])[i] < (ps + [x])[j] {
      assert ps[i] in ps;
    }
  }

  predicate Settled(s: State, p: nat) { p in s.sent || p in s.failed || p in s.dropped }

  /** Where an accepted injection is. */
  predicate Queued(s: State, p: nat, q: QueueId) { q in s.items && p in s.items[q] }

  predicate QueueInv(s: State, q: QueueId)
    requires q in s.items
  {
    && q in s.drainers
    && (s.drainers[q] != Exited <==> s.current == Some(q))
    && Ascending(s.items[q])
    && (Busy(s, q) ==> s.drainers[q].item + 1 == s.received)
    && (s.drainers[q].Sent? ==> s.drainers[q].item in s.sent)
  }

  /** A queued injection is in one queue only and nowhere else; the live queue holds only
      injections later than any that was taken out. */
  ghost predicate ItemInv(s: State, p: nat, q: QueueId) {
    && (Queued(s, p, q) ==>
          && p < s.accepted && !Settled(s, p)
          && (forall r :: Queued(s, p, r) ==> q == r)
          && (s.current == Some(q) ==> s.received <= p))
    && (At(s, q, Processing(p)) ==> !Settled(s, p) && forall r :: !Queued(s, p, r))
  }

  ghost predicate Located(s: State, p: nat) {
    Settled(s, p) || (exists q :: Queued(s, p, q)) || (exists q :: At(s, q, Processing(p)))
  }

  predicate LogInv(s: State) {
    && Ascending(s.sent)
    && s.received <= s.accepted
    && s.delivered <= (set p | p in s.sent)
    && (forall p :: p in s.failed ==> p !in s.sent)
  }

  ghost predicate Inv(s: State) {
    && s.drainers.Keys == s.items.Keys && (s.current.Some? ==> s.current.value in s.items)
    && (forall c :: c in s.calls ==> s.calls[c] in s.items)
    && (forall q {:trigger QueueInv(s, q)} :: q in s.items ==> QueueInv(s, q))
    && (forall p, q {:trigger ItemInv(s, p, q)} :: ItemInv(s, p, q))
    && (forall p: nat {:trigger Settled(s, p)} :: Settled(s, p) ==> p < s.received)
    && (forall p {:trigger Located(s, p)} :: 0 <= p < s.accepted ==> Located(s, p))
    && LogInv(s)
  }

  predicate Takes(s: State, e: Event, p: nat, q: QueueId) {
    (e == Receive(q) || e == DrainOne(q)) && Nonempty(s, q) && s.items[q][0] == p
  }

  predicate Settles(s: State, e: Event, p: nat, q: QueueId) {
    || (((e.GiveUp? && e.q == q) || e == Send(q)) && At(s, q, Processing(p)))
    || (e == DrainOne(q) && Takes(s, e, p, q))
  }

  predicate Accepts(s: State, e: Event, p: nat, q: QueueId) {
    && e.Offer? && e.c in s.calls && s.calls[e.c] == q && q in s.items
    && |s.items[q]| < QUEUE_CAPACITY && p == s.accepted
  }

  // Where an injection is after a step.

  lemma NextSettled(s: State, e: Event, p: nat)
    requires Enabled(s, e)
    ensures Settled(Next(s, e), p) <==> Settled(s, p) || exists q :: Settles(s, e, p, q)
  {
    var t := Next(s, e);
    if Settled(t, p) && !Settled(s, p) {
      assert Settles(s, e, p, e.q);
    }
  }

  lemma NextQueued(s: State, e: Event, p: nat, q: QueueId)
    requires Inv(s) && Enabled(s, e)
    ensures Queued(Next(s, e), p, q) <==> (Queued(s, p, q) && !Takes(s, e, p, q)) || Accepts(s, e, p, q)
  {
    hide Located, ItemInv, LogInv, Settled;
    if q in s.items {
      assert QueueInv(s, q);
      if Nonempty(s, q) {
        assert s.items[q] == [s.items[q][0]] + s.items[q][1..];
        assert s.items[q][0] !in s.items[q][1..];
      }
    }
  }

  lemma NextProcessing(s: State, e: Event, p: nat, q: QueueId)
    requires Inv(s) && Enabled(s, e)
    ensures At(Next(s, e), q, Processing(p)) <==>
      (At(s, q, Processing(p)) && !Settles(s, e, p, q)) || (e == Receive(q) && Takes(s, e, p, q))
  {
    hide QueueInv, ItemInv, Located, LogInv, Settled;
  }

  /** Only the live queue is read, and what it gives is new. */
  lemma TakenIsNext(s: State, e: Event, p: nat, q: QueueId)
    requires Inv(s) && Enabled(s, e) && (Takes(s, e, p, q) || Settles(s, e, p, q))
    ensures s.current == Some(q) && !Settled(s, p) && p < s.accepted
    ensures Takes(s, e, p, q) ==> Queued(s, p, q) && s.received <= p && Next(s, e).received == p + 1
    ensures !Takes(s, e, p, q) ==> s.received == p + 1 == Next(s, e).received && forall r :: !Queued(s, p, r)
  {
    hide Located, Settled;
    assert q in s.items;
    assert QueueInv(s, q) && ItemInv(s, p, q);
  }

  /** An event of a drainer is one of the live queue's. */
  lemma DrainerIsCurrent(s: State, e: Event)
    requires Inv(s) && Enabled(s, e) && !e.GetQueue? && !e.Offer? && !e.CloseDone?
    ensures s.current == Some(e.q) && e.q in s.items
  {
    hide ItemInv, Located, LogInv, Settled;
    assert QueueInv(s, e.q);
  }

  lemma NextKeepsQueue(s: State, e: Event, q: QueueId)
    requires Inv(s) && Enabled(s, e) && q in Next(s, e).items
    ensures QueueInv(Next(s, e), q)
  {
    if q in s.items {
      assert QueueInv(s, q);
      forall p | p in s.items[q] ensures p < s.accepted { assert Queued(s, p, q) && ItemInv(s, p, q); }
      AscendingAppend(s.items[q], s.accepted);
    }
    if !e.GetQueue? && !e.Offer? && !e.CloseDone? { DrainerIsCurrent(s, e); }
  }

  lemma NextKeepsItem(s: State, e: Event, p: nat, q: QueueId)
    requires Inv(s) && Enabled(s, e)
    ensures ItemInv(Next(s, e), p, q)
  {
    var t := Next(s, e);
    assert ItemInv(s, p, q);
    if q in s.items { assert QueueInv(s, q); }
    NextSettled(s, e, p);
    NextProcessing(s, e, p, q);
    forall r ensures Queued(t, p, r) <==> (Queued(s, p, r) && !Takes(s, e, p, r)) || Accepts(s, e, p, r) {
      NextQueued(s, e, p, r);
      assert ItemInv(s, p, r);
    }
    if r :| Takes(s, e, p, r) || Settles(s, e, p, r) {
      TakenIsNext(s, e, p, r);
      assert ItemInv(s, p, r);
    }
    NextReceived(s, e, p, q);
  }

  lemma NextReceived(s: State, e: Event, p: nat, q: QueueId)
    requires Inv(s) && Enabled(s, e)
    ensures Queued(Next(s, e), p, q) ==> p < Next(s, e).accepted
    ensures Queued(Next(s, e), p, q) && Next(s, e).current == Some(q) ==> Next(s, e).received <= p
    ensures Accepts(s, e, p, q) ==> !Settled(s, p) && forall r :: !Queued(s, p, r)
  {
    NextQueued(s, e, p, q);
    assert ItemInv(s, p, q);
    if Queued(s, p, q) { assert QueueInv(s, q); }
    forall r ensures !Queued(s, s.accepted, r) { assert ItemInv(s, s.accepted, r); }
    if !e.GetQueue? && !e.Offer? && !e.CloseDone? { DrainerIsCurrent(s, e); }
    hide Located, Settled;
  }

  lemma NextKeepsLocated(s: State, e: Event, p: nat)
    requires Inv(s) && Enabled(s, e) && p < Next(s, e).accepted
    ensures Located(Next(s, e), p)
  {
    var t := Next(s, e);
    NextSettled(s, e, p);
    if p >= s.accepted {
      assert Accepts(s, e, p, s.calls[e.c]);
      NextQueued(s, e, p, s.calls[e.c]);
    } else {
      assert Located(s, p);
      if q :| Queued(s, p, q) {
        NextQueued(s, e, p, q);
        NextProcessing(s, e, p, q);
        assert Takes(s, e, p, q) ==> e == Receive(q) || Settles(s, e, p, q);
      } else if q :| At(s, q, Processing(p)) {
        NextProcessing(s, e, p, q);
      }
    }
  }

  lemma ReceivedGrows(s: State, e: Event)
    requires Inv(s) && Enabled(s, e)
    ensures s.received <= Next(s, e).received <= Next(s, e).accepted
  {
    if e.Receive? || e.DrainOne? {
      TakenIsNext(s, e, s.items[e.q][0], e.q);
    }
    hide QueueInv, ItemInv, Located, Settled;
  }

  lemma NextKeepsBound(s: State, e: Event, p: nat)
    requires Inv(s) && Enabled(s, e) && Settled(Next(s, e), p)
    ensures p < Next(s, e).received
  {
    ReceivedGrows(s, e);
    NextSettled(s, e, p);
    if q :| Settles(s, e, p, q) { TakenIsNext(s, e, p, q); }
    hide QueueInv, ItemInv, Located, Next, LogInv, Settles, Takes;
  }

  lemma NextKeepsLog(s: State, e: Event)
    requires Inv(s) && Enabled(s, e)
    ensures LogInv(Next(s, e))
  {
    ReceivedGrows(s, e);
    if e.GiveUp? || e.Send? {
      var p := s.drainers[e.q].item;
      assert Settles(s, e, p, e.q);
      TakenIsNext(s, e, p, e.q);
      forall x | x in s.sent ensures x < p { assert Settled(s, x); }
      AscendingAppend(s.sent, p);
    } else if e.DrainOne? {
      TakenIsNext(s, e, s.items[e.q][0], e.q);
    } else if e.MarkDelivered? {
      assert QueueInv(s, e.q);
    }
  }

  lemma NextKeepsInv(s: State, e: Event)
    requires Inv(s) && Enabled(s, e)
    ensures Inv(Next(s, e))
  {
    var t := Next(s, e);
    forall q | q in t.items ensures QueueInv(t, q) { NextKeepsQueue(s, e, q); }
    forall p, q ensures ItemInv(t, p, q) { NextKeepsItem(s, e, p, q); }
    forall p | 0 <= p < t.accepted ensures Located(t, p) { NextKeepsLocated(s, e, p); }
    NextKeepsLog(s, e);
    forall p: nat | Settled(t, p) ensures p < t.received { NextKeepsBound(s, e, p); }
    hide QueueInv, ItemInv, Located, LogInv, Settled;
  }

  /** What a drainer meets with while it works on one injection; doneFirst if the shutdown comes
      before the injection's delay is over. */
  datatype Seen = Seen(stale: bool, statusKnown: bool, terminal: bool, doneFirst: bool, connected: bool, sendOk: bool)

  // ---------------------------------------------------------------------------------------------
  // The object
  // ---------------------------------------------------------------------------------------------

  /** One session's entry in the queue map and the channels made for it, with the state of the
      protocol around them. */
  class SessionInjections {
    var current: Option<QueueId>
    var items: map<QueueId, seq<nat>>
    var nextId: QueueId
    var accepted: nat
    ghost var world: State

    ghost predicate Valid()
      reads this
    {
      && current == world.current && items == world.items && accepted == world.accepted && Inv(world)
      && forall q :: q in items ==> q < nextId
    }

    constructor ()
      ensures Valid() && world == START
    {
      current, items, nextId, accepted, world := None, map[], 0, 0, START;
    }

    /** A drainer is started only when no other is at work. */
    method GetOrCreateQueue(c: CallId) returns (q: QueueId, created: bool)
      requires Valid() && c !in world.calls
      modifies this
      ensures Valid() && Enabled(old(world), GetQueue(c, q)) && world == Next(old(world), GetQueue(c, q))
      ensures created ==> forall r :: r in old(world).drainers ==> old(world).drainers[r] == Exited
    {
      if current.Some? {
        q, created := current.value, false;
      } else {
        q, created := nextId, true;
        forall r | r in world.drainers ensures world.drainers[r] == Exited { assert QueueInv(world, r); }
      }
      NextKeepsInv(world, GetQueue(c, q));
      hide Inv;
      world := Next(world, GetQueue(c, q));
      if created { current, items, nextId := Some(q), items[q := []], q + 1; }
    }

    /** The non-blocking send of Enqueue; false is ErrQueueFull. */
    method TrySend(c: CallId, q: QueueId) returns (ok: bool)
      requires Valid() && Enabled(world, Offer(c)) && q == world.calls[c]
      modifies this
      ensures Valid() && world == Next(old(world), Offer(c))
      ensures ok <==> |old(items)[q]| < 32
      ensures items == if ok then old(items)[q := old(items)[q] + [old(accepted)]] else old(items)
      ensures ok ==> Queued(world, old(world).accepted, q)
    {
      NextKeepsInv(world, Offer(c));
      hide Inv;
      ok := |items[q]| < QUEUE_CAPACITY;
      world := Next(world, Offer(c));
      if ok {
        items := items[q := items[q] + [accepted]];
        accepted := accepted + 1;
        assert items[q][|items[q]| - 1] == accepted - 1;
      }
    }

    /** A drainer's receive: what it takes was accepted later than all that went before. */
    method TakeItem(q: QueueId, ghost e: Event) returns (item: nat)
      requires Valid() && Enabled(world, e) && (e == Receive(q) || e == DrainOne(q))
      modifies this
      ensures Valid() && world == Next(old(world), e)
      ensures old(items)[q] != [] && items == old(items)[q := old(items)[q][1..]] && item == old(items)[q][0]
      ensures forall p: nat {:trigger Settled(old(world), p)} :: Settled(old(world), p) ==> p < item
    {
      TakenIsNext(world, e, items[q][0], q);
      NextKeepsInv(world, e);
      item := items[q][0];
      items := items[q := items[q][1..]];
      world := Next(world, e);
    }

    /** The drainer works on the injection it has taken: the first check that fails decides. */
    method ProcessItem(q: QueueId, seen: Seen)
      requires Valid() && Busy(world, q) && (seen.doneFirst ==> q in world.done)
      modifies this`world
      ensures Valid() && At(world, q, Waiting)
      ensures var p := old(world).drainers[q].item;
        var marked := !seen.stale && seen.statusKnown && (seen.terminal || seen.doneFirst);
        var sent := !seen.stale && seen.statusKnown && !marked && seen.connected && seen.sendOk;
        && world.failed == old(world).failed + (if marked then {p} else {})
        && world.dropped == old(world).dropped + (if marked || sent then {} else {p})
        && world.sent == old(world).sent + (if sent then [p] else [])
        && world.delivered == old(world).delivered + (if sent then {p} else {})
    {
      hide Inv, QueueInv, ItemInv, Located, LogInv, Settled;
      if seen.stale {
        Step(GiveUp(q, Stale));
      } else if !seen.statusKnown {
        Step(GiveUp(q, StatusUnknown));
      } else if seen.terminal {
        Step(GiveUp(q, Terminated));
      } else if seen.doneFirst {
        Step(GiveUp(q, ShutDown));
      } else if !seen.connected {
        Step(GiveUp(q, NoAgent));
      } else if !seen.sendOk {
        Step(GiveUp(q, SendFailed));
      } else {
        Step(Send(q));
        Step(MarkDelivered(q));
      }
    }

    ghost method Step(e: Event)
      requires Inv(world) && Enabled(world, e)
      modifies this`world
      ensures Inv(world) && world == Next(old(world), e)
    {
      NextKeepsInv(world, e);
      world := Next(world, e);
    }

    /** On shutdown everything still queued is marked failed, and nothing else changes hands. */
    method DrainRemaining(q: QueueId) returns (drained: seq<nat>)
      requires Valid() && At(world, q, ShuttingDown)
      modifies this
      ensures Valid() && At(world, q, Exiting) && drained == old(items)[q] && items[q] == []
      ensures world.failed == old(world).failed + set p | p in drained
      ensures world.sent == old(world).sent && world.dropped == old(world).dropped
    {
      drained := [];
      while items[q] != []
        invariant Valid() && At(world, q, ShuttingDown) && q in items && q in old(items)
        invariant drained + items[q] == old(items)[q]
        invariant world.failed == old(world).failed + set p | p in drained
        invariant world.sent == old(world).sent && world.dropped == old(world).dropped
        decreases |items[q]|
      {
        var item := TakeItem(q, DrainOne(q));
        drained := drained + [item];
      }
      NextKeepsInv(world, DrainEnd(q));
      world := Next(world, DrainEnd(q));
    }

    method RemoveQueue(q: QueueId)
      requires Valid() && Enabled(world, Remove(q))
      modifies this
      ensures Valid() && current == None && world == Next(old(world), Remove(q))
    {
      NextKeepsInv(world, Remove(q));
      hide Inv;
      current := None;
      world := Next(world, Remove(q));
    }
  }

  lemma {:induction false} ExecutionInv(states: seq<State>, events: seq<Event>, i: nat)
    requires Execution(states, events) && i <= |events|
    ensures Inv(states[i])
  {
    if i > 0 {
      ExecutionInv(states, events, i - 1);
      NextKeepsInv(states[i - 1], events[i - 1]);
    }
  }

  // ---------------------------------------------------------------------------------------------
  // What every run guarantees
  // ---------------------------------------------------------------------------------------------

  /** At any time at most one drainer of the session is at work, and it serves the queue that
      Enqueue finds. */
  lemma OneDrainer(states: seq<State>, events: seq<Event>, i: nat, q: QueueId)
    requires Execution(states, events) && i <= |events| && q in states[i].drainers && states[i].drainers[q] != Exited
    ensures states[i].current == Some(q)
  {
    ExecutionInv(states, events, i);
    assert QueueInv(states[i], q);
  }

  // What becomes of an injection is decided by what its drainer met with.

  /** The step records p as failed: its drainer found the session terminated, or was shut down
      during p's delay, or found p still queued after a shutdown. */
  predicate FailsNow(s: State, e: Event, p: nat, q: QueueId) {
    || ((e == GiveUp(q, Terminated) || e == GiveUp(q, ShutDown)) && At(s, q, Processing(p)))
    || (e == DrainOne(q) && At(s, q, ShuttingDown) && q in s.items && s.items[q] != [] && s.items[q][0] == p)
  }

  /** The step drops p without a record. */
  predicate DropsNow(s: State, e: Event, p: nat, q: QueueId) {
    && (e == GiveUp(q, Stale) || e == GiveUp(q, StatusUnknown) || e == GiveUp(q, NoAgent) || e == GiveUp(q, SendFailed))
    && At(s, q, Processing(p))
  }

  predicate SendsNow(s: State, e: Event, p: nat, q: QueueId) { e == Send(q) && At(s, q, Processing(p)) }

  predicate DeliversNow(s: State, e: Event, p: nat, q: QueueId) { e == MarkDelivered(q) && At(s, q, Sent(p)) }

  // What one step adds to the records.

  lemma LossesGrow(s: State, e: Event, p: nat)
    requires Enabled(s, e)
    ensures p in Next(s, e).failed <==> p in s.failed || exists q :: FailsNow(s, e, p, q)
    ensures p in Next(s, e).dropped <==> p in s.dropped || exists q :: DropsNow(s, e, p, q)
  {
    match e {
      case GiveUp(q, why) => assert At(s, q, Processing(p)) ==> FailsNow(s, e, p, q) || DropsNow(s, e, p, q);
      case DrainOne(q) => assert s.items[q][0] == p ==> FailsNow(s, e, p, q);
      case _ =>
    }
  }

  lemma SendsGrow(s: State, e: Event, p: nat)
    requires Enabled(s, e)
    ensures p in Next(s, e).sent <==> p in s.sent || exists q :: SendsNow(s, e, p, q)
    ensures p in Next(s, e).delivered <==> p in s.delivered || exists q :: DeliversNow(s, e, p, q)
  {
    match e {
      case Send(q) => assert At(s, q, Processing(p)) ==> SendsNow(s, e, p, q);
      case MarkDelivered(q) => assert At(s, q, Sent(p)) ==> DeliversNow(s, e, p, q);
      case _ =>
    }
  }

  /** One of the first i steps did this to p. */
  ghost predicate Earlier(states: seq<State>, events: seq<Event>, i: nat, now: (State, Event, nat, QueueId) -> bool, p: nat)
    requires i <= |events| < |states|
  {
    exists j, q :: 0 <= j < i && now(states[j], events[j], p, q)
  }

  lemma EarlierGrows(states: seq<State>, events: seq<Event>, i: nat, now: (State, Event, nat, QueueId) -> bool, p: nat)
    requires i < |events| < |states|
    ensures Earlier(states, events, i + 1, now, p) <==>
      Earlier(states, events, i, now, p) || exists q :: now(states[i], events[i], p, q)
  {
    if j, q :| 0 <= j < i + 1 && now(states[j], events[j], p, q) {
      assert j == i || Earlier(states, events, i, now, p);
    }
  }

  /** An injection is recorded as failed, dropped, sent or marked delivered exactly if at some
      earlier step its drainer had the cause to. */
  lemma {:induction false} RecordedForCause(states: seq<State>, events: seq<Event>, i: nat, p: nat)
    requires Execution(states, events) && i <= |events|
    ensures p in states[i].failed <==> Earlier(states, events, i, FailsNow, p)
    ensures p in states[i].dropped <==> Earlier(states, events, i, DropsNow, p)
    ensures p in states[i].sent <==> Earlier(states, events, i, SendsNow, p)
    ensures p in states[i].delivered <==> Earlier(states, events, i, DeliversNow, p)
  {
    if i > 0 {
      var n := i - 1;
      RecordedForCause(states, events, n, p);
      assert Enabled(states[n], events[n]);
      LossesGrow(states[n], events[n], p);
      SendsGrow(states[n], events[n], p);
      EarlierGrows(states, events, n, FailsNow, p);
      EarlierGrows(states, events, n, DropsNow, p);
      EarlierGrows(states, events, n, SendsNow, p);
      EarlierGrows(states, events, n, DeliversNow, p);
      hide FailsNow, DropsNow, SendsNow, DeliversNow, Next, Enabled, Earlier;
    }
  }

  /** What reaches the agent is a subsequence of the accepted injections, in their order and
      without repetition; only what was sent is marked delivered, and nothing sent is marked
      failed. */
  lemma SentInOrder(states: seq<State>, events: seq<Event>, i: nat)
    requires Execution(states, events) && i <= |events|
    ensures Ascending(states[i].sent)
    ensures forall p :: p in states[i].sent ==> p < states[i].accepted
    ensures forall p :: p in states[i].delivered ==> p in states[i].sent
    ensures forall p :: p in states[i].failed ==> p !in states[i].sent && p !in states[i].delivered
  {
    ExecutionInv(states, events, i);
    assert forall p :: p in states[i].sent ==> Settled(states[i], p);
  }

  /** No accepted injection vanishes: it is settled, being processed, or in a queue. */
  lemma NothingVanishes(states: seq<State>, events: seq<Event>, i: nat, p: nat)
    requires Execution(states, events) && i <= |events| && p < states[i].accepted
    ensures Located(states[i], p)
  {
    ExecutionInv(states, events, i);
  }

  /** An injection left in a queue whose drainer has exited is never sent, failed or dropped. */
  lemma {:induction false} StrandedForever(states: seq<State>, events: seq<Event>, i: nat, j: nat, p: nat, q: QueueId)
    requires Execution(states, events) && i <= j <= |events|
    requires Queued(states[i], p, q) && At(states[i], q, Exited)
    ensures Queued(states[j], p, q) && At(states[j], q, Exited) && !Settled(states[j], p)
  {
    ExecutionInv(states, events, j);
    if i < j {
      StrandedForever(states, events, i, j - 1, p, q);
      ExecutionInv(states, events, j - 1);
      ExitedStays(states[j - 1], events[j - 1], p, q);
    }
    assert ItemInv(states[j], p, q);
    hide Inv, Settled;
  }

  lemma ExitedStays(s: State, e: Event, p: nat, q: QueueId)
    requires Inv(s) && Enabled(s, e) && Queued(s, p, q) && At(s, q, Exited)
    ensures Queued(Next(s, e), p, q) && At(Next(s, e), q, Exited)
  {
    NextQueued(s, e, p, q);
    if !e.GetQueue? && !e.Offer? && !e.CloseDone? { DrainerIsCurrent(s, e); }
    assert QueueInv(s, q);
    hide ItemInv, Located, LogInv, Settled;
  }

  /** It does happen: a caller that fetched the queue may be overtaken by the drainer's idle
      timeout, and its injection is accepted into a queue nobody reads. */
  lemma StrandingHappens() returns (states: seq<State>, events: seq<Event>)
    ensures Execution(states, events)
    ensures Queued(states[|events|], 0, 0) && At(states[|events|], 0, Exited)
  {
    var s1 := Next(START, GetQueue(0, 0));
    var s2 := Next(s1, IdleExit(0));
    var s3 := Next(s2, Remove(0));
    var s4 := Next(s3, Offer(0));
    events := [GetQueue(0, 0), IdleExit(0), Remove(0), Offer(0)];
    states := [START, s1, s2, s3, s4];
  }

  // ---------------------------------------------------------------------------------------------
  // Which injections are stranded
  // ---------------------------------------------------------------------------------------------

  /** The drainer has left its loop. */
  predicate Left(s: State, q: QueueId) { At(s, q, Exiting) || At(s, q, Exited) }

  /** If the injection is anywhere it is in q or with q's drainer, and if it is in q then q's drainer
      has left exactly if it came too late. */
  ghost predicate Tracked(s: State, p: nat, q: QueueId, late: bool) {
    && p < s.accepted && q in s.drainers
    && (forall r :: Queued(s, p, r) ==> r == q)
    && (forall r :: At(s, r, Processing(p)) ==> r == q)
    && (if late then Queued(s, p, q) && Left(s, q) else Queued(s, p, q) ==> !Left(s, q))
  }

  lemma OfferIsTracked(s: State, c: CallId)
    requires Inv(s) && Enabled(s, Offer(c)) && Next(s, Offer(c)).accepted > s.accepted
    ensures Tracked(Next(s, Offer(c)), s.accepted, s.calls[c], Left(s, s.calls[c]))
  {
    var t, p, q := Next(s, Offer(c)), s.accepted, s.calls[c];
    NextKeepsInv(s, Offer(c));
    NextQueued(s, Offer(c), p, q);
    assert Accepts(s, Offer(c), p, q);
    forall r ensures (Queued(t, p, r) ==> r == q) && !At(t, r, Processing(p)) {
      assert ItemInv(t, p, q) && ItemInv(t, p, r);
    }
    hide Inv;
  }

  lemma NextKeepsTracked(s: State, e: Event, p: nat, q: QueueId, late: bool)
    requires Inv(s) && Enabled(s, e) && Tracked(s, p, q, late)
    ensures Tracked(Next(s, e), p, q, late)
  {
    var t := Next(s, e);
    forall r ensures Queued(t, p, r) <==> Queued(s, p, r) && !Takes(s, e, p, r) { NextQueued(s, e, p, r); }
    forall r ensures At(t, r, Processing(p)) ==> At(s, r, Processing(p)) || Takes(s, e, p, r) { NextProcessing(s, e, p, r); }
    forall r | Takes(s, e, p, r) ensures r == q {
      assert p in s.items[r];
      assert Queued(s, p, r);
    }
    if Queued(s, p, q) { assert Nonempty(s, q); }
    hide Inv;
  }

  lemma {:induction false} StaysTracked(states: seq<State>, events: seq<Event>, i: nat, j: nat, p: nat, q: QueueId, late: bool)
    requires Execution(states, events) && i <= j <= |events| && Tracked(states[i], p, q, late)
    ensures Tracked(states[j], p, q, late)
  {
    if i < j {
      StaysTracked(states, events, i, j - 1, p, q, late);
      ExecutionInv(states, events, j - 1);
      NextKeepsTracked(states[j - 1], events[j - 1], p, q, late);
    }
  }

  /** An accepted injection is stranded exactly if it was offered to a queue whose drainer had
      already left its loop: once the drainer has exited, such an injection lies in the queue
      unsettled, and every other one offered to that queue is settled. */
  lemma StrandedIffLate(states: seq<State>, events: seq<Event>, i: nat, j: nat, c: CallId)
    requires Execution(states, events) && i < j <= |events| && events[i] == Offer(c) && c in states[i].calls
    requires states[i + 1].accepted > states[i].accepted && At(states[j], states[i].calls[c], Exited)
    ensures var p, q := states[i].accepted, states[i].calls[c];
      && (Queued(states[j], p, q) <==> Left(states[i], q))
      && (!Settled(states[j], p) <==> Left(states[i], q))
  {
    var p, q := states[i].accepted, states[i].calls[c];
    assert Enabled(states[i], events[i]);
    ExecutionInv(states, events, i);
    OfferIsTracked(states[i], c);
    StaysTracked(states, events, i + 1, j, p, q, Left(states[i], q));
    ExecutionInv(states, events, j);
    assert Located(states[j], p) && ItemInv(states[j], p, q);
  }

  // ---------------------------------------------------------------------------------------------
  // The protocol by its history: where a drainer is, is told by the steps taken so far
  // ---------------------------------------------------------------------------------------------

  /** A drainer leaves its loop when its done channel is closed, and then marks what is queued before it
      exits, or when it has been idle; until then it waits for injections or works on one. */
  ghost predicate ToldByHistory(s: State, past: seq<Event>, q: QueueId) {
    && (q in s.items <==> q in s.drainers)
    && (q in s.done <==> CloseDone(q) in past)
    && (At(s, q, ShuttingDown) <==> SeeDone(q) in past && DrainEnd(q) !in past)
    && (At(s, q, Exiting) <==> (IdleExit(q) in past || DrainEnd(q) in past) && Remove(q) !in past)
    && (At(s, q, Exited) <==> Remove(q) in past)
    && (SeeDone(q) in past ==> CloseDone(q) in past && IdleExit(q) !in past && q in s.drainers)
    && (DrainEnd(q) in past ==> SeeDone(q) in past)
    && (IdleExit(q) in past ==> q in s.drainers)
    && (Remove(q) in past ==> IdleExit(q) in past || DrainEnd(q) in past)
  }

  lemma {:induction false} DrainerByHistory(states: seq<State>, events: seq<Event>, i: nat, q: QueueId)
    requires Execution(states, events) && i <= |events|
    ensures ToldByHistory(states[i], events[..i], q)
  {
    hide Next, Enabled, ToldByHistory, Inv;
    if i > 0 {
      assert Enabled(states[i - 1], events[i - 1]);
      ExecutionInv(states, events, i - 1);
      DrainerByHistory(states, events, i - 1, q);
      PastGrows(events, i - 1);
      StepToldByHistory(states[i - 1], events[i - 1], events[..i - 1], events[..i], q);
    } else {
      NothingTold(q);
    }
  }

  lemma NothingTold(q: QueueId)
    ensures ToldByHistory(START, [], q)
  {
  }

  /** The step is one of q's drainer. */
  predicate OwnStep(e: Event, q: QueueId) {
    !e.GetQueue? && !e.Offer? && !e.CloseDone? && e.q == q
  }

  lemma StepToldByHistory(s: State, e: Event, past: seq<Event>, more: seq<Event>, q: QueueId)
    requires Inv(s) && Enabled(s, e) && ToldByHistory(s, past, q)
    requires forall x :: x in more <==> x in past || x == e
    ensures ToldByHistory(Next(s, e), more, q)
  {
    if OwnStep(e, q) {
      DrainerIsCurrent(s, e);
      hide Inv;
      OwnStepTold(s, e, past, more, q);
    } else {
      OtherStepSame(s, e, q);
      hide Next, Inv;
    }
  }

  lemma OwnStepTold(s: State, e: Event, past: seq<Event>, more: seq<Event>, q: QueueId)
    requires Enabled(s, e) && OwnStep(e, q) && q in s.items && ToldByHistory(s, past, q)
    requires forall x :: x in more <==> x in past || x == e
    ensures ToldByHistory(Next(s, e), more, q)
  {
  }

  /** Other steps leave the drainer where it is; GetQueue may create it. */
  lemma OtherStepSame(s: State, e: Event, q: QueueId)
    requires Inv(s) && Enabled(s, e) && !OwnStep(e, q)
    ensures var t := Next(s, e);
      && (q in s.drainers ==> q in t.drainers && t.drainers[q] == s.drainers[q])
      && (q !in s.drainers && q in t.drainers ==> t.drainers[q] == Waiting)
      && (q in t.items <==> q in t.drainers)
      && (q in t.done <==> q in s.done || e == CloseDone(q))
      && (e == CloseDone(q) ==> q in s.items)
  {
    if !e.GetQueue? && !e.Offer? && !e.CloseDone? { DrainerIsCurrent(s, e); }
    if s.current.Some? { assert s.current.value in s.items; }
    CallsHaveQueues(s, if e.Offer? then e.c else 0);
    hide QueueInv, ItemInv, Located, LogInv, Settled;
  }

  /** A queue exists once it has been given to a call. */
  lemma {:induction false} QueueByHistory(states: seq<State>, events: seq<Event>, i: nat, q: QueueId)
    requires Execution(states, events) && i <= |events|
    ensures q in states[i].items <==> exists c :: GetQueue(c, q) in events[..i]
  {
    hide Next, Enabled, Inv;
    if i > 0 {
      assert Enabled(states[i - 1], events[i - 1]);
      ExecutionInv(states, events, i - 1);
      QueueByHistory(states, events, i - 1, q);
      PastGrows(events, i - 1);
      QueueMade(states[i - 1], events[i - 1], q);
    }
  }

  lemma QueueMade(s: State, e: Event, q: QueueId)
    requires Inv(s) && Enabled(s, e)
    ensures q in Next(s, e).items <==> q in s.items || (e.GetQueue? && e == GetQueue(e.c, q))
  {
    if s.current.Some? { assert s.current.value in s.items; }
    CallsHaveQueues(s, if e.Offer? then e.c else 0);
    hide QueueInv, ItemInv, Located, LogInv, Settled;
  }

  /** Which steps are possible, told by the history. */
  ghost predicate Possible(s: State, past: seq<Event>, c: CallId, q: QueueId, why: Reason) {
    var waiting := q in s.drainers && s.drainers[q] == Waiting;
    var busy := q in s.drainers && s.drainers[q].Processing?;
    && (Enabled(s, Offer(c)) <==> c in s.calls)
    && (Enabled(s, Receive(q)) <==> waiting && q in s.items && s.items[q] != [])
    && (Enabled(s, GiveUp(q, why)) <==> busy && (why == ShutDown ==> CloseDone(q) in past))
    && (Enabled(s, Send(q)) <==> busy)
    && (Enabled(s, MarkDelivered(q)) <==> q in s.drainers && s.drainers[q].Sent?)
    && (Enabled(s, CloseDone(q)) <==> q in s.items)
    && (Enabled(s, SeeDone(q)) <==> waiting && CloseDone(q) in past)
    && (Enabled(s, DrainOne(q)) <==> SeeDone(q) in past && DrainEnd(q) !in past && q in s.items && s.items[q] != [])
    && (Enabled(s, DrainEnd(q)) <==> SeeDone(q) in past && DrainEnd(q) !in past && q in s.items && s.items[q] == [])
    && (Enabled(s, IdleExit(q)) <==> waiting && q in s.items && s.items[q] == [])
    && (Enabled(s, Remove(q)) <==> (IdleExit(q) in past || DrainEnd(q) in past) && Remove(q) !in past)
  }

  lemma PossibleByHistory(states: seq<State>, events: seq<Event>, i: nat, c: CallId, q: QueueId, why: Reason)
    requires Execution(states, events) && i <= |events|
    ensures Possible(states[i], events[..i], c, q, why)
  {
    DrainerByHistory(states, events, i, q);
    ExecutionInv(states, events, i);
    CallsHaveQueues(states[i], c);
    hide Inv, Execution, Next;
    ToldMeansPossible(states[i], events[..i], c, q, why);
  }

  lemma ToldMeansPossible(s: State, past: seq<Event>, c: CallId, q: QueueId, why: Reason)
    requires ToldByHistory(s, past, q) && (c in s.calls ==> s.calls[c] in s.items)
    ensures Possible(s, past, c, q, why)
  {
  }

  lemma CallsHaveQueues(s: State, c: CallId)
    requires Inv(s)
    ensures c in s.calls ==> s.calls[c] in s.items
  {
  }

  /** A call has the queue it was given until it offers its injection, and is given the queue that the
      map holds, or a new one. */
  lemma CallHoldsQueue(states: seq<State>, events: seq<Event>, j: nat, i: nat, c: CallId, q: QueueId)
    requires Execution(states, events) && j < i <= |events| && events[j] == GetQueue(c, q)
    requires forall k :: j < k < i ==> events[k] != Offer(c)
    ensures c in states[i].calls && states[i].calls[c] == q
    ensures states[j].current == Some(q) || (states[j].current == None && q !in states[j].items && states[j + 1].items[q] == [])
    ensures states[j + 1].current == Some(q)
    decreases i
  {
    assert Enabled(states[j], events[j]);
    if i > j + 1 {
      assert Enabled(states[i - 1], events[i - 1]);
      CallHoldsQueue(states, events, j, i - 1, c, q);
    }
  }

  /** After its offer a call is over. */
  lemma CallEnds(states: seq<State>, events: seq<Event>, i: nat, c: CallId)
    requires Execution(states, events) && i < |events| && events[i] == Offer(c)
    ensures c !in states[i + 1].calls && c in states[i].calls
  {
    assert Enabled(states[i], events[i]);
  }
}

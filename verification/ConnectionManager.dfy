/** The registry of connected agents.  Every agent is one stream; several streams of the same
    machine may overlap while it reconnects, so each lock section of Register (with its
    rollbacks), DisconnectIfMatch and the stale sweep is one step of a state machine.
    internal/server/connmgr/manager.go, internal/server/grpc/server.go */
module ConnectionManager {
  import opened JobModel

  /** One stream's registration; `id` stands for the pointer. */
  datatype Agent = Agent(id: nat, machine: string)

  type Agents = map<string, Agent>

  // ---------------------------------------------------------------------------------------------
  // The lock sections
  // ---------------------------------------------------------------------------------------------

  /** Removes an agent unless another one has taken its place. */
  function DropIfMatch(agents: Agents, a: Agent): Agents {
    if Find(agents, a.machine) == Some(a) then agents - {a.machine} else agents
  }

  // ---------------------------------------------------------------------------------------------
  // The protocol
  // ---------------------------------------------------------------------------------------------

  /** Where a stream is: it has just swapped itself in and owes its predecessor a cancel; it is
      writing to the database; it serves; it has left the map after a database error or at its
      end and owes itself a cancel; it is over. */
  datatype Phase = Replacing(previous: Option<Agent>) | Persisting | Serving | Leaving | Gone

  datatype State = State(
    agents: Agents,
    phase: map<Agent, Phase>,
    /** The last agent to register for each machine. */
    newest: Agents,
    dead: set<Agent>,
    cancelled: set<Agent>,
    stale: set<Agent>,
    swept: set<Agent>,
    sweepOwes: set<Agent>)
  {
    /** The agent's context is over: its transport died, or it was cancelled. */
    predicate Done(a: Agent) { a in dead || a in cancelled }
  }

  datatype Event =
    | Register(a: Agent)
    | CancelOld(a: Agent)
    | Persist(a: Agent, ok: bool)
    | Close(a: Agent)
    | CancelSelf(a: Agent)
    | TransportDies(a: Agent)
    | SweepScan
    | SweepDrop(a: Agent)
    | SweepCancel(a: Agent)

  const START := State(map[], map[], map[], {}, {}, {}, {}, {})

  predicate In(s: State, a: Agent, p: Phase) { a in s.phase && s.phase[a] == p }

  predicate Enabled(s: State, e: Event) {
    match e
    case Register(a) => a !in s.phase
    case CancelOld(a) => a in s.phase && s.phase[a].Replacing?
    case Persist(a, _) => In(s, a, Persisting)
    case Close(a) => In(s, a, Serving)
    case CancelSelf(a) => In(s, a, Leaving)
    case TransportDies(a) => a in s.phase
    case SweepScan => true
    case SweepDrop(a) => a in s.stale
    case SweepCancel(a) => a in s.sweepOwes
  }

  function Next(s: State, e: Event): State
    requires Enabled(s, e)
  {
    match e
    case Register(a) =>
      s.(agents := s.agents[a.machine := a],
         newest := s.newest[a.machine := a],
         phase := s.phase[a := Replacing(Find(s.agents, a.machine))])
    case CancelOld(a) =>
      s.(phase := s.phase[a := Persisting],
         cancelled := s.cancelled + match s.phase[a].previous { case Some(p) => {p} case None => {} })
    case Persist(a, ok) =>
      if ok then s.(phase := s.phase[a := Serving])
      else s.(phase := s.phase[a := Leaving], agents := DropIfMatch(s.agents, a))
    case Close(a) => s.(phase := s.phase[a := Leaving], agents := DropIfMatch(s.agents, a))
    case CancelSelf(a) => s.(phase := s.phase[a := Gone], cancelled := s.cancelled + {a})
    case TransportDies(a) => s.(dead := s.dead + {a})
    case SweepScan => s.(stale := s.stale + set a | a in s.agents.Values && s.Done(a))
    case SweepDrop(a) =>
      var t := s.(stale := s.stale - {a});
      if Find(s.agents, a.machine) == Some(a)
      then t.(agents := DropIfMatch(s.agents, a), swept := s.swept + {a}, sweepOwes := s.sweepOwes + {a})
      else t
    case SweepCancel(a) => s.(sweepOwes := s.sweepOwes - {a}, cancelled := s.cancelled + {a})
  }

  ghost predicate Execution(states: seq<State>, events: seq<Event>) {
    && |states| == |events| + 1 && states[0] == START
    && forall i {:trigger events[i]} :: 0 <= i < |events| ==>
         Enabled(states[i], events[i]) && states[i + 1] == Next(states[i], events[i])
  }

  // ---------------------------------------------------------------------------------------------
  // The invariant
  // ---------------------------------------------------------------------------------------------

  /** The agent's own stream has ended or failed to register, or a sweep removed it. */
  predicate LeftByItself(s: State, a: Agent) {
    a in s.swept || In(s, a, Leaving) || In(s, a, Gone)
  }

  /** A newer stream took this agent's place and has not cancelled it yet. */
  ghost predicate Displaced(s: State, a: Agent) { exists b :: In(s, b, Replacing(Some(a))) }

  /** Someone still has a cancel of this agent to perform. */
  ghost predicate CancelOwed(s: State, a: Agent) {
    a in s.sweepOwes || In(s, a, Leaving) || Displaced(s, a)
  }

  /** A newer stream of the same machine has registered. */
  predicate Replaced(s: State, a: Agent) {
    a.machine in s.newest && s.newest[a.machine] != a
  }

  /** The map holds a machine's newest agent, or nothing if that one left by itself. */
  predicate Current(s: State, m: string)
    requires m in s.newest
  {
    var a := s.newest[m];
    && a in s.phase && a.machine == m
    && Find(s.agents, m) == if LeftByItself(s, a) then None else Some(a)
  }

  ghost predicate AgentInv(s: State, a: Agent)
    requires a in s.phase
  {
    && a.machine in s.newest
    && (Find(s.agents, a.machine) != Some(a) ==> a in s.cancelled || CancelOwed(s, a))
    && (a in s.cancelled || CancelOwed(s, a) ==> Replaced(s, a) || LeftByItself(s, a))
    && (a in s.swept || a in s.stale ==> s.Done(a))
  }

  ghost predicate Inv(s: State) {
    && s.agents.Keys <= s.newest.Keys
    && (forall m {:trigger Current(s, m)} :: m in s.newest ==> Current(s, m))
    && (forall a {:trigger AgentInv(s, a)} :: a in s.phase ==> AgentInv(s, a))
    && s.cancelled + s.sweepOwes + s.swept + s.stale + s.dead <= s.phase.Keys
    && (forall b :: b in s.phase && s.phase[b].Replacing? && s.phase[b].previous.Some? ==> s.phase[b].previous.value in s.phase)
  }

  lemma NextKeepsCurrent(s: State, e: Event, m: string)
    requires Inv(s) && Enabled(s, e) && m in Next(s, e).newest
    ensures Current(Next(s, e), m)
  {
    if m in s.newest { assert Current(s, m); }
    if e.SweepDrop? { assert e.a in s.phase; }
    if e.Register? { assert e.a !in s.swept; }
    hide Inv;
    CurrentMoves(s, e, m);
  }

  lemma CurrentMoves(s: State, e: Event, m: string)
    requires Enabled(s, e) && m in Next(s, e).newest && (m in s.newest ==> Current(s, m))
    requires (e.SweepDrop? ==> e.a in s.phase) && (e.Register? ==> e.a !in s.swept)
    ensures Current(Next(s, e), m)
  {
  }

  /** Which stream owes which a cancel changes only when one registers or pays. */
  lemma NextOwed(s: State, e: Event, a: Agent, b: Agent)
    requires Inv(s) && Enabled(s, e)
    ensures In(Next(s, e), b, Replacing(Some(a))) <==>
      (In(s, b, Replacing(Some(a))) && e != CancelOld(b)) || (e == Register(b) && Find(s.agents, b.machine) == Some(a))
    ensures In(Next(s, e), b, Replacing(Some(a))) ==> a in s.phase
    ensures e == Register(b) && Find(s.agents, b.machine) == Some(a) ==> a.machine == b.machine && a in s.phase
  {
    hide AgentInv, LeftByItself;
    if e.Register? && e.a.machine in s.agents { assert Current(s, e.a.machine); }
  }

  /** An agent is displaced by the stream that finds it in the map; its cancel is then paid once. */
  lemma NextDisplaced(s: State, e: Event, a: Agent)
    requires Inv(s) && Enabled(s, e)
    ensures var t := Next(s, e); var found := e.Register? && Find(s.agents, e.a.machine) == Some(a);
      && (Displaced(t, a) ==> Displaced(s, a) || found)
      && (found ==> Displaced(t, a))
      && (Displaced(s, a) ==> Displaced(t, a) || a in t.cancelled)
      && (Displaced(t, a) ==> a in s.phase)
      && (e.CancelOld? && In(s, e.a, Replacing(Some(a))) ==> Displaced(s, a))
  {
    var t := Next(s, e);
    forall b ensures In(t, b, Replacing(Some(a))) <==>
        (In(s, b, Replacing(Some(a))) && e != CancelOld(b)) || (e == Register(b) && Find(s.agents, b.machine) == Some(a))
    {
      NextOwed(s, e, a, b);
    }
    forall b | In(t, b, Replacing(Some(a))) ensures a in s.phase { NextOwed(s, e, a, b); }
    if e.Register? && Find(s.agents, e.a.machine) == Some(a) { assert In(t, e.a, Replacing(Some(a))); }
    if Displaced(s, a) {
      var b :| In(s, b, Replacing(Some(a)));
      if e != CancelOld(b) { assert In(t, b, Replacing(Some(a))); }
    }
    hide Inv;
  }

  lemma NextKeepsAgent(s: State, e: Event, a: Agent)
    requires Inv(s) && Enabled(s, e) && a in Next(s, e).phase
    ensures AgentInv(Next(s, e), a)
  {
    NextCancels(s, e, a);
    NextWarrants(s, e, a);
    if a in s.phase { assert AgentInv(s, a) && Current(s, a.machine); }
    hide Inv, CancelOwed, LeftByItself, Replaced;
  }

  /** An agent that leaves the map is cancelled, or someone owes it that. */
  lemma NextCancels(s: State, e: Event, a: Agent)
    requires Inv(s) && Enabled(s, e) && a in Next(s, e).phase
    ensures var t := Next(s, e); Find(t.agents, a.machine) != Some(a) ==> a in t.cancelled || CancelOwed(t, a)
  {
    NextDisplaced(s, e, a);
    if a in s.phase { assert AgentInv(s, a) && Current(s, a.machine); }
    hide Inv, Displaced, LeftByItself, Replaced;
  }

  /** No cancel is performed or owed without its cause. */
  lemma NextWarrants(s: State, e: Event, a: Agent)
    requires Inv(s) && Enabled(s, e) && a in Next(s, e).phase
    ensures var t := Next(s, e); a in t.cancelled || CancelOwed(t, a) ==> Replaced(t, a) || LeftByItself(t, a)
  {
    NextDisplaced(s, e, a);
    if e.Register? { NextOwed(s, e, a, e.a); }
    if a in s.phase { assert AgentInv(s, a) && Current(s, a.machine); }
    hide Inv, Displaced;
  }

  lemma NextKeepsInv(s: State, e: Event)
    requires Inv(s) && Enabled(s, e)
    ensures Inv(Next(s, e))
  {
    hide AgentInv, LeftByItself;
    var t := Next(s, e);
    forall m | m in t.newest ensures Current(t, m) { NextKeepsCurrent(s, e, m); }
    forall a | a in t.phase ensures AgentInv(t, a) { NextKeepsAgent(s, e, a); }
    forall b | b in t.phase && t.phase[b].Replacing? && t.phase[b].previous.Some?
      ensures t.phase[b].previous.value in t.phase
    {
      NextOwed(s, e, t.phase[b].previous.value, b);
    }
    NextKeepsMembers(s, e);
  }

  lemma NextKeepsMembers(s: State, e: Event)
    requires Inv(s) && Enabled(s, e)
    ensures var t := Next(s, e);
      t.agents.Keys <= t.newest.Keys && t.cancelled + t.sweepOwes + t.swept + t.stale + t.dead <= t.phase.Keys
  {
    hide AgentInv, LeftByItself;
    if e.SweepScan? {
      forall a | a in s.agents.Values ensures a in s.phase {
        var m :| m in s.agents && s.agents[m] == a;
        assert Current(s, m);
      }
    }
  }

  // ---------------------------------------------------------------------------------------------
  // The object
  // ---------------------------------------------------------------------------------------------

  /** The manager's map, with the state of the protocol around it. */
  class Manager {
    var agents: Agents
    ghost var world: State

    ghost predicate Valid()
      reads this
    {
      agents == world.agents && Inv(world)
    }

    constructor ()
      ensures Valid() && world == START
    {
      agents, world := map[], START;
    }

    /** The first section of Register: the caller must cancel the agent it displaces. */
    method Swap(agent: Agent) returns (previous: Option<Agent>)
      requires Valid() && Enabled(world, Register(agent))
      modifies this
      ensures Valid() && world == Next(old(world), Register(agent))
      ensures In(world, agent, Replacing(previous))
      ensures agents == old(agents)[agent.machine := agent]
      ensures previous == if agent.machine in old(agents) then Some(old(agents)[agent.machine]) else None
    {
      NextKeepsInv(world, Register(agent));
      previous := None;
      if agent.machine in agents { previous := Some(agents[agent.machine]); }
      agents := agents[agent.machine := agent];
      world := Next(world, Register(agent));
    }

    /** The section shared by Register's two rollbacks, DisconnectIfMatch and the sweep. */
    method DisconnectIfMatch(agent: Agent, ghost e: Event) returns (removed: bool)
      requires Valid() && Enabled(world, e)
      requires e == Persist(agent, false) || e == Close(agent) || e == SweepDrop(agent)
      modifies this
      ensures Valid() && world == Next(old(world), e)
      ensures removed <==> agent.machine in old(agents) && old(agents)[agent.machine] == agent
      ensures agents == if removed then old(agents) - {agent.machine} else old(agents)
      ensures removed && e.SweepDrop? ==> agent in world.swept && agent in world.sweepOwes
    {
      NextKeepsInv(world, e);
      removed := agent.machine in agents && agents[agent.machine] == agent;
      if removed { agents := agents - {agent.machine}; }
      world := Next(world, e);
    }

    /** The sweep's read section; `done` are the agents whose context is over. */
    method StaleAgents(done: set<Agent>) returns (stale: seq<Agent>)
      requires Valid() && done == world.dead + world.cancelled
      modifies this`world
      ensures Valid() && world == Next(old(world), SweepScan)
      ensures forall a :: a in stale <==> a in agents.Values && a in done
    {
      stale := CollectDone(done);
      NextKeepsInv(world, SweepScan);
      hide Inv;
      world := Next(world, SweepScan);
    }

    method CollectDone(done: set<Agent>) returns (stale: seq<Agent>)
      ensures forall a :: a in stale <==> a in agents.Values && a in done
    {
      stale := [];
      var rest := agents.Keys;
      while rest != {}
        invariant rest <= agents.Keys
        invariant forall a :: a in stale <==> a in done && exists m :: m in agents.Keys - rest && agents[m] == a
        decreases |rest|
      {
        var m :| m in rest;
        var agent := agents[m];
        ghost var was, before := rest, stale;
        if agent in done { stale := stale + [agent]; }
        rest := rest - {m};
        forall a ensures a in stale <==> a in done && exists n :: n in agents.Keys - rest && agents[n] == a {
          assert m in agents.Keys - rest;
          if a in before {
            var n :| n in agents.Keys - was && agents[n] == a;
            assert n in agents.Keys - rest;
          }
        }
      }
    }
  }

  lemma {:induction false} ExecutionInv(states: seq<State>, events: seq<Event>, i: nat)
    requires Execution(states, events) && i <= |events|
    ensures Inv(states[i])
  {
    if i > 0 {
      ExecutionInv(states, events, i - 1);
      NextKeepsInv(states[i - 1], events[i - 1]);
    }
  }

  // ---------------------------------------------------------------------------------------------
  // What every run guarantees
  // ---------------------------------------------------------------------------------------------

  /** An agent leaves the map only by its own close, its own rollback, its own sweep, or because
      a newer stream of its machine registers. */
  lemma LeavesOnlyBy(states: seq<State>, events: seq<Event>, i: nat, a: Agent)
    requires Execution(states, events) && i < |events|
    requires Find(states[i].agents, a.machine) == Some(a) != Find(states[i + 1].agents, a.machine)
    ensures Removes(events[i], a)
  {
    assert Enabled(states[i], events[i]);
    ExecutionInv(states, events, i);
    assert Current(states[i], a.machine);
  }

  predicate Removes(e: Event, a: Agent) {
    || e == Close(a) || e == Persist(a, false) || e == SweepDrop(a)
    || (e.Register? && e.a != a && e.a.machine == a.machine)
  }

  /** So an agent that was registered and is so no longer was removed by itself, by a sweep, or by a
      newer stream of its machine, at some point in between. */
  lemma {:induction false} LeftBecause(states: seq<State>, events: seq<Event>, i: nat, j: nat, a: Agent) returns (k: nat)
    requires Execution(states, events) && i <= j <= |events|
    requires Find(states[i].agents, a.machine) == Some(a) != Find(states[j].agents, a.machine)
    ensures i <= k < j && Removes(events[k], a)
    ensures Find(states[k].agents, a.machine) == Some(a) != Find(states[k + 1].agents, a.machine)
  {
    if Find(states[j - 1].agents, a.machine) == Some(a) {
      k := j - 1;
      LeavesOnlyBy(states, events, k, a);
    } else {
      k := LeftBecause(states, events, i, j - 1, a);
    }
  }

  /** Lookups always give the newest stream of a machine, as long as that stream goes on and its
      transport lives, however its predecessors end. */
  lemma NewestIsFound(states: seq<State>, events: seq<Event>, i: nat, m: string)
    requires Execution(states, events) && i <= |events| && m in states[i].newest
    ensures
      var a := states[i].newest[m];
      && (Find(states[i].agents, m) == Some(a) || Find(states[i].agents, m) == None)
      && (!In(states[i], a, Leaving) && !In(states[i], a, Gone) && !states[i].Done(a) ==>
            Find(states[i].agents, m) == Some(a))
  {
    ExecutionInv(states, events, i);
    assert Current(states[i], m);
    assert AgentInv(states[i], states[i].newest[m]);
  }

  /** No agent is cancelled without cause. */
  lemma CancelledForCause(states: seq<State>, events: seq<Event>, i: nat, a: Agent)
    requires Execution(states, events) && i <= |events| && a in states[i].cancelled
    ensures
      || (a.machine in states[i].newest && states[i].newest[a.machine] != a)
      || In(states[i], a, Leaving) || In(states[i], a, Gone) || a in states[i].swept
  {
    ExecutionInv(states, events, i);
    assert AgentInv(states[i], a);
  }

  /** Nothing is left to do except by streams that serve. */
  predicate Quiescent(s: State) {
    && s.sweepOwes == {}
    && forall a :: a in s.phase ==> s.phase[a] == Serving || s.phase[a] == Gone
  }

  /** At quiescence the agents out of the map are exactly the cancelled ones. */
  lemma DisplacedAreCancelled(states: seq<State>, events: seq<Event>, i: nat, a: Agent)
    requires Execution(states, events) && i <= |events| && Quiescent(states[i]) && a in states[i].phase
    ensures a in states[i].cancelled <==> Find(states[i].agents, a.machine) != Some(a)
  {
    ExecutionInv(states, events, i);
    assert AgentInv(states[i], a) && Current(states[i], a.machine);
  }

  // ---------------------------------------------------------------------------------------------
  // The protocol by its history: where a stream is, is told by the steps taken so far
  // ---------------------------------------------------------------------------------------------

  /** A stream registers, cancels the agent it displaced, persists, serves until it is closed, and
      cancels its own context last; if the database fails it leaves without serving. */
  ghost predicate ToldByStream(s: State, past: seq<Event>, a: Agent) {
    && (a in s.phase <==> Register(a) in past)
    && (a in s.phase && s.phase[a].Replacing? <==> Register(a) in past && CancelOld(a) !in past)
    && (In(s, a, Persisting) <==> CancelOld(a) in past && Persist(a, true) !in past && Persist(a, false) !in past)
    && (In(s, a, Serving) <==> Persist(a, true) in past && Close(a) !in past)
    && (In(s, a, Leaving) <==> (Persist(a, false) in past || Close(a) in past) && CancelSelf(a) !in past)
    && (In(s, a, Gone) <==> CancelSelf(a) in past)
    && (CancelOld(a) in past ==> Register(a) in past)
    && (Persist(a, true) in past || Persist(a, false) in past ==> CancelOld(a) in past)
    && !(Persist(a, true) in past && Persist(a, false) in past)
    && (Close(a) in past ==> Persist(a, true) in past)
    && (CancelSelf(a) in past ==> Persist(a, false) in past || Close(a) in past)
    && (a in s.dead <==> TransportDies(a) in past)
  }

  lemma {:induction false} StreamByHistory(states: seq<State>, events: seq<Event>, i: nat, a: Agent)
    requires Execution(states, events) && i <= |events|
    ensures ToldByStream(states[i], events[..i], a)
  {
    hide Next, Enabled, ToldByStream;
    if i > 0 {
      assert Enabled(states[i - 1], events[i - 1]);
      StreamByHistory(states, events, i - 1, a);
      PastGrows(events, i - 1);
      StepToldByStream(states[i - 1], events[i - 1], events[..i - 1], events[..i], a);
    } else {
      NothingTold(a);
    }
  }

  lemma NothingTold(a: Agent)
    ensures ToldByStream(START, [], a)
  {
  }

  lemma StepToldByStream(s: State, e: Event, past: seq<Event>, more: seq<Event>, a: Agent)
    requires Enabled(s, e) && ToldByStream(s, past, a)
    requires forall x :: x in more <==> x in past || x == e
    ensures ToldByStream(Next(s, e), more, a)
  {
    PhaseStep(s, e, a);
    hide Next, Find, DropIfMatch;
  }

  lemma PhaseStep(s: State, e: Event, a: Agent)
    requires Enabled(s, e)
    ensures var p, q := Find(s.phase, a), Find(Next(s, e).phase, a);
      match e
      case Register(b) => if b == a then p == None && q.Some? && q.value.Replacing? else q == p
      case CancelOld(b) => if b == a then p.Some? && p.value.Replacing? && q == Some(Persisting) else q == p
      case Persist(b, ok) => if b == a then p == Some(Persisting) && q == Some(if ok then Serving else Leaving) else q == p
      case Close(b) => if b == a then p == Some(Serving) && q == Some(Leaving) else q == p
      case CancelSelf(b) => if b == a then p == Some(Leaving) && q == Some(Gone) else q == p
      case _ => q == p
    ensures a in Next(s, e).dead <==> a in s.dead || e == TransportDies(a)
  {
    hide DropIfMatch;
  }

  /** The step takes agent a's place in the map away from it, because its stream ends or has failed to
      persist, or because a sweep found its context over. */
  predicate Unlists(e: Event, a: Agent) {
    e == Persist(a, false) || e == Close(a) || e == SweepDrop(a)
  }

  /** What one step of an execution does to the map, the contexts and the sweep. */
  lemma StepRule(states: seq<State>, events: seq<Event>, i: nat, a: Agent)
    requires Execution(states, events) && i < |events|
    ensures var s, e, t := states[i], events[i], states[i + 1];
      var listed := a.machine in s.agents && s.agents[a.machine] == a;
      && (a.machine in t.agents && t.agents[a.machine] == a <==>
            e == Register(a) || (listed && !Unlists(e, a) && !(e.Register? && e.a.machine == a.machine)))
      && (e.Register? ==> t.newest == s.newest[e.a.machine := e.a])
      && (!e.Register? ==> t.newest == s.newest)
      && (a in t.cancelled <==>
            a in s.cancelled || e == CancelSelf(a) || e == SweepCancel(a) || (e.CancelOld? && In(s, e.a, Replacing(Some(a)))))
      && (a in t.stale <==> (a in s.stale && e != SweepDrop(a)) || (e == SweepScan && listed && (a in s.dead || a in s.cancelled)))
      && (a in t.swept <==> a in s.swept || (e == SweepDrop(a) && listed))
      && (a in t.sweepOwes <==> (a in s.sweepOwes && e != SweepCancel(a)) || (e == SweepDrop(a) && listed))
  {
    assert Enabled(states[i], events[i]);
    ExecutionInv(states, events, i);
    MapStep(states[i], events[i], a);
    SweepStep(states[i], events[i], a);
    hide Execution, Inv, Next;
  }

  lemma MapStep(s: State, e: Event, a: Agent)
    requires Enabled(s, e)
    ensures var t := Next(s, e);
      var listed := a.machine in s.agents && s.agents[a.machine] == a;
      && (a.machine in t.agents && t.agents[a.machine] == a <==>
            e == Register(a) || (listed && !Unlists(e, a) && !(e.Register? && e.a.machine == a.machine)))
      && (e.Register? ==> t.newest == s.newest[e.a.machine := e.a])
      && (!e.Register? ==> t.newest == s.newest)
  {
  }

  lemma SweepStep(s: State, e: Event, a: Agent)
    requires Inv(s) && Enabled(s, e)
    ensures var t := Next(s, e);
      var listed := a.machine in s.agents && s.agents[a.machine] == a;
      && (a in t.cancelled <==>
            a in s.cancelled || e == CancelSelf(a) || e == SweepCancel(a) || (e.CancelOld? && In(s, e.a, Replacing(Some(a)))))
      && (a in t.stale <==> (a in s.stale && e != SweepDrop(a)) || (e == SweepScan && listed && (a in s.dead || a in s.cancelled)))
      && (a in t.swept <==> a in s.swept || (e == SweepDrop(a) && listed))
      && (a in t.sweepOwes <==> (a in s.sweepOwes && e != SweepCancel(a)) || (e == SweepDrop(a) && listed))
  {
    ListedValues(s, a);
    hide Inv, DropIfMatch;
  }

  /** Every agent in the map is there under its own machine. */
  lemma ListedValues(s: State, a: Agent)
    requires Inv(s)
    ensures a in s.agents.Values <==> a.machine in s.agents && s.agents[a.machine] == a
  {
    if a in s.agents.Values {
      var m :| m in s.agents && s.agents[m] == a;
      assert Current(s, m);
    }
    hide Inv;
  }

  /** Which steps are possible: a stream moves on by itself, and sweeps come when they like. */
  ghost predicate Possible(s: State, past: seq<Event>, a: Agent, ok: bool) {
    && (Enabled(s, Register(a)) <==> Register(a) !in past)
    && (Enabled(s, CancelOld(a)) <==> Register(a) in past && CancelOld(a) !in past)
    && (Enabled(s, Persist(a, ok)) <==> CancelOld(a) in past && Persist(a, true) !in past && Persist(a, false) !in past)
    && (Enabled(s, Close(a)) <==> Persist(a, true) in past && Close(a) !in past)
    && (Enabled(s, CancelSelf(a)) <==> (Persist(a, false) in past || Close(a) in past) && CancelSelf(a) !in past)
    && (Enabled(s, TransportDies(a)) <==> Register(a) in past)
    && Enabled(s, SweepScan)
    && (Enabled(s, SweepDrop(a)) <==> a in s.stale)
    && (Enabled(s, SweepCancel(a)) <==> a in s.sweepOwes)
  }

  lemma PossibleByHistory(states: seq<State>, events: seq<Event>, i: nat, a: Agent, ok: bool)
    requires Execution(states, events) && i <= |events|
    ensures Possible(states[i], events[..i], a, ok)
  {
    hide Enabled, Next, ToldByStream, Possible;
    StreamByHistory(states, events, i, a);
    ToldMeansPossible(states[i], events[..i], a, ok);
  }

  lemma ToldMeansPossible(s: State, past: seq<Event>, a: Agent, ok: bool)
    requires ToldByStream(s, past, a)
    ensures Possible(s, past, a, ok)
  {
  }
}

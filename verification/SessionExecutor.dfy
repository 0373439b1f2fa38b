/** The executor that answers the scheduler: it starts a session on an agent for each step it is
    handed, or reuses the run's shared session for the step's session key, and reports the end of
    the step through a callback.  Idle events, session monitors, timeouts, cancellations and send
    failures race for that callback; they meet in the map from sessions to tracked steps.
    internal/server/executor/session_executor.go */
module SessionExecutor {
  import opened JobModel

  type SessionId = string

  /** One call of ExecuteStep.  Only a Claude step with a session key has a non-empty `key`. */
  datatype Exec = Exec(id: nat, run: string, key: string)

  datatype SharedKey = SharedKey(run: string, key: string)

  const FAILURE_EXIT_CODE := 1
  const TIMEOUT_EXIT_CODE := 124
  const MAX_NOT_FOUND_RETRIES := 5

  // ---------------------------------------------------------------------------------------------
  // The session monitor
  // ---------------------------------------------------------------------------------------------

  /** What one round of the monitor's select sees. */
  datatype Poll = ContextDone | DeadlinePassed | NotFound | StoreError | Read(status: Status) | ReadTerminated | ReadLive

  predicate Answered(p: Poll) { p.Read? || p.ReadTerminated? || p.ReadLive? }

  /** Sessions not found since the store last answered; other store errors do not reset it. */
  function Misses(polls: seq<Poll>): nat {
    if polls == [] then 0
    else
      var p := polls[|polls| - 1];
      if Answered(p) then 0 else Misses(polls[..|polls| - 1]) + if p.NotFound? then 1 else 0
  }

  /** Two rounds that did not find the session, with no read answered in between. */
  ghost predicate MissedAgain(polls: seq<Poll>, j: nat, i: nat) {
    && j < i < |polls| && polls[j] == NotFound && polls[i] == NotFound
    && forall k :: j < k < i ==> !polls[k].Read? && polls[k] != ReadTerminated && polls[k] != ReadLive
  }

  /** Round i is the fifth or a later one of such rounds in a row. */
  ghost predicate FifthMiss(polls: seq<Poll>, i: nat) {
    exists a: nat, b: nat, c: nat, d: nat :: MissedAgain(polls, a, b) && MissedAgain(polls, b, c) && MissedAgain(polls, c, d) && MissedAgain(polls, d, i)
  }

  /** Round i ends the step. */
  ghost predicate Decisive(polls: seq<Poll>, i: nat) {
    && i < |polls|
    && (polls[i] == Read(Completed) || polls[i] == DeadlinePassed || polls[i] == ContextDone
        || polls[i] == Read(Failed) || polls[i] == ReadTerminated || FifthMiss(polls, i))
  }

  /** A miss that is not the first has another one before it. */
  lemma {:induction false} EarlierMiss(polls: seq<Poll>, n: nat, i: nat) returns (j: nat)
    requires n <= i < |polls| && polls[i] == NotFound && Misses(polls[..n]) > 0
    requires forall k :: n <= k < i ==> !Answered(polls[k]) && polls[k] != NotFound
    ensures MissedAgain(polls, j, i) && Misses(polls[..j + 1]) == Misses(polls[..n])
  {
    assert polls[..n][..n - 1] == polls[..n - 1];
    if polls[n - 1] == NotFound { j := n - 1; } else { j := EarlierMiss(polls, n - 1, i); }
  }

  /** Counting misses finds them at their positions. */
  lemma MissBefore(polls: seq<Poll>, i: nat) returns (j: nat)
    requires i < |polls| && polls[i] == NotFound && Misses(polls[..i + 1]) > 1
    ensures MissedAgain(polls, j, i) && Misses(polls[..j + 1]) == Misses(polls[..i + 1]) - 1
  {
    assert polls[..i + 1][..i] == polls[..i];
    j := EarlierMiss(polls, i, i);
  }

  lemma {:induction false} MissesGrow(polls: seq<Poll>, j: nat, i: nat)
    requires j < i <= |polls| && polls[j] == NotFound && forall k :: j < k < i ==> !Answered(polls[k])
    ensures Misses(polls[..i]) >= Misses(polls[..j + 1])
  {
    if i > j + 1 {
      MissesGrow(polls, j, i - 1);
      assert polls[..i][..i - 1] == polls[..i - 1];
    }
  }

  lemma MissedAgainCounts(polls: seq<Poll>, j: nat, i: nat)
    requires MissedAgain(polls, j, i)
    ensures Misses(polls[..i + 1]) >= Misses(polls[..j + 1]) + 1 >= 2
  {
    MissesGrow(polls, j, i);
    assert polls[..j + 1][..j] == polls[..j];
    assert polls[..i + 1][..i] == polls[..i];
  }

  lemma FifthMissIff(polls: seq<Poll>, i: nat)
    requires i < |polls| && polls[i] == NotFound
    ensures FifthMiss(polls, i) <==> Misses(polls[..i + 1]) >= 5
  {
    if FifthMiss(polls, i) { FifthMissCounts(polls, i); }
    hide MissedAgain, Misses;
    if Misses(polls[..i + 1]) >= 5 {
      var d := MissBefore(polls, i);
      var c := MissedAt(polls, d, i);
      var b := MissedAt(polls, c, d);
      var a := MissedAt(polls, b, c);
    }
  }

  lemma FifthMissCounts(polls: seq<Poll>, i: nat)
    requires FifthMiss(polls, i)
    ensures i < |polls| && Misses(polls[..i + 1]) >= 5
  {
    var a: nat, b: nat, c: nat, d: nat :| MissedAgain(polls, a, b) && MissedAgain(polls, b, c) && MissedAgain(polls, c, d) && MissedAgain(polls, d, i);
    MissedAgainCounts(polls, a, b);
    MissedAgainCounts(polls, b, c);
    MissedAgainCounts(polls, c, d);
    MissedAgainCounts(polls, d, i);
    hide FifthMiss, Misses;
  }

  /** The miss before an earlier miss. */
  lemma MissedAt(polls: seq<Poll>, j: nat, i: nat) returns (k: nat)
    requires MissedAgain(polls, j, i) && Misses(polls[..j + 1]) > 1
    ensures MissedAgain(polls, k, j) && Misses(polls[..k + 1]) == Misses(polls[..j + 1]) - 1
  {
    k := MissBefore(polls, j);
  }

  /** The monitor ends the step at the first decisive poll: with 0 if the session completed, with 124 if
      the deadline passed, and with 1 if the context was cancelled, the session failed or was
      terminated, or was not found five times with no answered read in between. */
  method MonitorSessionExit(polls: seq<Poll>) returns (exit: Option<(nat, int)>)
    ensures exit.Some? ==> Decisive(polls, exit.value.0)
    ensures exit.Some? ==>
      var (i, code) := exit.value;
      && (code == 0 <==> polls[i] == Read(Completed))
      && (code == 124 <==> polls[i] == DeadlinePassed)
      && (code == 1 <==> polls[i] == ContextDone || polls[i] == Read(Failed) || polls[i] == ReadTerminated || FifthMiss(polls, i))
      && (code == 0 || code == 1 || code == 124)
    ensures forall j :: 0 <= j < (if exit.Some? then exit.value.0 else |polls|) ==> !Decisive(polls, j)
  {
    var notFoundCount := 0;
    for i := 0 to |polls|
      invariant notFoundCount == Misses(polls[..i])
      invariant forall j :: 0 <= j < i ==> !Decisive(polls, j)
    {
      assert polls[..i + 1][..i] == polls[..i];
      if polls[i] == NotFound { FifthMissIff(polls, i); }
      match polls[i] {
        case ContextDone => return Some((i, FAILURE_EXIT_CODE));
        case DeadlinePassed => return Some((i, TIMEOUT_EXIT_CODE));
        case NotFound =>
          notFoundCount := notFoundCount + 1;
          if notFoundCount >= MAX_NOT_FOUND_RETRIES { return Some((i, FAILURE_EXIT_CODE)); }
        case StoreError =>
        case Read(status) =>
          notFoundCount := 0;
          if status == Completed { return Some((i, 0)); }
          if status == Failed { return Some((i, FAILURE_EXIT_CODE)); }
        case ReadTerminated => return Some((i, FAILURE_EXIT_CODE));
        case ReadLive => notFoundCount := 0;
      }
    }
    exit := None;
  }

  // ---------------------------------------------------------------------------------------------
  // The protocol
  // ---------------------------------------------------------------------------------------------

  /** How far an ExecuteStep call has got before its step is tracked. */
  datatype Plan =
    | Looking
    | OwnSession
    | FirstOfKey
    | Shared(session: SessionId)
    | Reuse(session: SessionId)

  datatype State = State(
    launched: set<Exec>,
    starting: map<Exec, Plan>,
    sessionToStep: map<SessionId, Exec>,
    sharedSessions: map<SharedKey, SessionId>,
    monitors: set<SessionId>,
    /** Reused sessions whose prompt is being sent; a failure completes the session's step. */
    sending: map<Exec, SessionId>,
    /** Entries taken out of the map whose callback is about to be invoked, and those invoked. */
    inHand: multiset<Exec>,
    calls: multiset<Exec>,
    /** Session identifiers in use, with the shared key a session was made for, if any. */
    owner: map<SessionId, Option<SharedKey>>)

  datatype Event =
    | Launch(x: Exec)
    | Look(x: Exec)
    | AnswerDirectly(x: Exec)
    | TrackOwn(x: Exec, session: SessionId)
    | ShareNew(x: Exec, session: SessionId)
    | TrackFirst(x: Exec)
    | TrackReuse(x: Exec)
    | SendDone(x: Exec, ok: bool)
    | Idle(session: SessionId)
    | MonitorExit(session: SessionId)
    | Invoke(x: Exec)
    | Cleanup(run: string)

  const START := State({}, map[], map[], map[], {}, map[], multiset{}, multiset{}, map[])

  predicate Planned(s: State, x: Exec, p: Plan) { x in s.starting && s.starting[x] == p }

  function KeyOf(x: Exec): SharedKey { SharedKey(x.run, x.key) }

  predicate Enabled(s: State, e: Event) {
    match e
    case Launch(x) => x !in s.launched
    case Look(x) => Planned(s, x, Looking)
    case AnswerDirectly(x) => x in s.starting && s.starting[x] != Looking && !s.starting[x].Shared?
    case TrackOwn(x, session) => Planned(s, x, OwnSession) && session !in s.owner
    case ShareNew(x, session) => Planned(s, x, FirstOfKey) && session !in s.owner
    case TrackFirst(x) => x in s.starting && s.starting[x].Shared?
    case TrackReuse(x) => x in s.starting && s.starting[x].Reuse?
    case SendDone(x, _) => x in s.sending
    case Idle(_) => true
    case MonitorExit(session) => session in s.monitors
    case Invoke(x) => x in s.inHand
    case Cleanup(_) => true
  }

  function Begin(s: State, x: Exec, p: Plan): State { s.(starting := s.starting[x := p]) }

  function Taken(s: State, session: SessionId): State {
    s.(sessionToStep := s.sessionToStep - {session},
       inHand := s.inHand + match Find(s.sessionToStep, session) { case Some(x) => multiset{x} case None => multiset{} })
  }

  function Tracked(s: State, x: Exec, session: SessionId): State {
    s.(starting := s.starting - {x}, sessionToStep := s.sessionToStep[session := x])
  }

  function Next(s: State, e: Event): State
    requires Enabled(s, e)
  {
    match e
    case Launch(x) => Begin(s, x, Looking).(launched := s.launched + {x})
    case Look(x) =>
      Begin(s, x,
        if x.key == "" then OwnSession
        else match Find(s.sharedSessions, KeyOf(x)) { case Some(session) => Reuse(session) case None => FirstOfKey })
    case AnswerDirectly(x) => s.(starting := s.starting - {x}, calls := s.calls + multiset{x})
    case TrackOwn(x, session) =>
      Tracked(s, x, session).(monitors := s.monitors + {session}, owner := s.owner[session := None])
    case ShareNew(x, session) =>
      Begin(s, x, Shared(session)).(sharedSessions := s.sharedSessions[KeyOf(x) := session],
                                    owner := s.owner[session := Some(KeyOf(x))])
    case TrackFirst(x) =>
      var session := s.starting[x].session;
      Tracked(s, x, session).(monitors := s.monitors + {session})
    case TrackReuse(x) =>
      var session := s.starting[x].session;
      Tracked(s, x, session).(sending := s.sending[x := session])
    case SendDone(x, ok) =>
      var t := s.(sending := s.sending - {x});
      if ok then t else Taken(t, s.sending[x])
    case Idle(session) => Taken(s, session)
    case MonitorExit(session) => Taken(s, session).(monitors := s.monitors - {session})
    case Invoke(x) => s.(inHand := s.inHand - multiset{x}, calls := s.calls + multiset{x})
    case Cleanup(run) =>
      s.(sharedSessions := map k | k in s.sharedSessions && k.run != run :: s.sharedSessions[k])
  }

  ghost predicate Execution(states: seq<State>, events: seq<Event>) {
    && |states| == |events| + 1 && states[0] == START
    && forall i {:trigger events[i]} :: 0 <= i < |events| ==>
         Enabled(states[i], events[i]) && states[i + 1] == Next(states[i], events[i])
  }

  // ---------------------------------------------------------------------------------------------
  // At most one callback, whatever the schedule
  // ---------------------------------------------------------------------------------------------

  function Spent(s: State, x: Exec): nat { s.inHand[x] + s.calls[x] }

  /** No execution has two chances of a callback left, or one left and one used. */
  ghost predicate OneChance(s: State, x: Exec) {
    && Spent(s, x) <= 1
    && (Spent(s, x) == 1 || x in s.starting ==> x in s.launched)
    && (x in s.starting ==> Spent(s, x) == 0)
    && (forall i :: i in s.sessionToStep && s.sessionToStep[i] == x ==>
          x in s.launched && x !in s.starting && Spent(s, x) == 0)
    && (forall i, j :: i in s.sessionToStep && j in s.sessionToStep && s.sessionToStep[i] == x == s.sessionToStep[j] ==> i == j)
  }

  lemma TakenKeepsOneChance(s: State, i: SessionId, x: Exec)
    requires OneChance(s, x)
    ensures OneChance(Taken(s, i), x)
  {
  }

  lemma TrackedKeepsOneChance(s: State, y: Exec, i: SessionId, x: Exec)
    requires OneChance(s, x) && y in s.starting
    ensures OneChance(Tracked(s, y, i), x)
  {
  }

  lemma BegunKeepsOneChance(s: State, y: Exec, p: Plan, x: Exec)
    requires OneChance(s, x) && (y in s.starting || y !in s.launched)
    ensures OneChance(Begin(s, y, p).(launched := s.launched + {y}), x)
  {
  }

  lemma BegunLaunched(s: State, y: Exec, p: Plan, x: Exec)
    requires OneChance(s, x) && y in s.starting
    ensures OneChance(Begin(s, y, p), x)
  {
  }

  lemma AnsweredKeepsOneChance(s: State, y: Exec, x: Exec)
    requires OneChance(s, x) && Enabled(s, AnswerDirectly(y))
    ensures OneChance(Next(s, AnswerDirectly(y)), x)
  {
  }

  lemma InvokedKeepsOneChance(s: State, y: Exec, x: Exec)
    requires OneChance(s, x) && Enabled(s, Invoke(y))
    ensures OneChance(Next(s, Invoke(y)), x)
  {
  }

  /** The chances of an execution do not depend on the shared sessions, monitors and senders. */
  lemma OneChanceFrame(s: State, t: State, x: Exec)
    requires OneChance(s, x)
    requires t == s.(sharedSessions := t.sharedSessions, monitors := t.monitors, sending := t.sending, owner := t.owner)
    ensures OneChance(t, x)
  {
  }

  lemma NextKeepsOneChance(s: State, e: Event, x: Exec)
    requires OneChance(s, x) && Enabled(s, e)
    ensures OneChance(Next(s, e), x)
  {
    var t := Next(s, e);
    match e {
      case TrackOwn(y, i) =>
        TrackedKeepsOneChance(s, y, i, x);
        hide OneChance;
        OneChanceFrame(Tracked(s, y, i), t, x);
      case TrackFirst(y) =>
        TrackedKeepsOneChance(s, y, s.starting[y].session, x);
        hide OneChance;
        OneChanceFrame(Tracked(s, y, s.starting[y].session), t, x);
      case TrackReuse(y) =>
        TrackedKeepsOneChance(s, y, s.starting[y].session, x);
        hide OneChance;
        OneChanceFrame(Tracked(s, y, s.starting[y].session), t, x);
      case SendDone(y, ok) =>
        hide OneChance;
        var u := s.(sending := s.sending - {y});
        OneChanceFrame(s, u, x);
        if !ok { TakenKeepsOneChance(u, s.sending[y], x); }
      case Idle(i) =>
        TakenKeepsOneChance(s, i, x);
      case MonitorExit(i) =>
        TakenKeepsOneChance(s, i, x);
        hide OneChance;
        OneChanceFrame(Taken(s, i), t, x);
      case Launch(y) =>
        BegunKeepsOneChance(s, y, Looking, x);
      case Look(y) =>
        BegunLaunched(s, y, t.starting[y], x);
      case ShareNew(y, i) =>
        BegunLaunched(s, y, Shared(i), x);
        hide OneChance;
        OneChanceFrame(Begin(s, y, Shared(i)), t, x);
      case AnswerDirectly(y) =>
        AnsweredKeepsOneChance(s, y, x);
      case Invoke(y) =>
        InvokedKeepsOneChance(s, y, x);
      case Cleanup(_) =>
        hide OneChance;
        OneChanceFrame(s, t, x);
    }
  }

  // ---------------------------------------------------------------------------------------------
  // The object
  // ---------------------------------------------------------------------------------------------

  /** The executor's two maps, with the state of the protocol around them. */
  class Tracker {
    var sessionToStep: map<SessionId, Exec>
    var sharedSessions: map<SharedKey, SessionId>
    ghost var world: State

    ghost predicate Valid()
      reads this
    {
      && sessionToStep == world.sessionToStep && sharedSessions == world.sharedSessions
      && forall x {:trigger OneChance(world, x)} :: OneChance(world, x)
    }

    constructor ()
      ensures Valid() && world == START
    {
      sessionToStep, sharedSessions, world := map[], map[], START;
    }

    ghost method Step(e: Event)
      requires Enabled(world, e) && forall x {:trigger OneChance(world, x)} :: OneChance(world, x)
      modifies this`world
      ensures world == Next(old(world), e) && forall x {:trigger OneChance(world, x)} :: OneChance(world, x)
    {
      forall x ensures OneChance(Next(world, e), x) { NextKeepsOneChance(world, e, x); }
      world := Next(world, e);
    }

    /** executeSharedSession's choice between reusing the key's session and creating one. */
    method FindShared(x: Exec) returns (session: Option<SessionId>)
      requires Valid() && x.key != "" && Enabled(world, Look(x))
      modifies this`world
      ensures Valid() && world == Next(old(world), Look(x))
      ensures Planned(world, x, if session.Some? then Reuse(session.value) else FirstOfKey)
      ensures session == if SharedKey(x.run, x.key) in sharedSessions then Some(sharedSessions[SharedKey(x.run, x.key)]) else None
    {
      session := None;
      if KeyOf(x) in sharedSessions { session := Some(sharedSessions[KeyOf(x)]); }
      Step(Look(x));
    }

    method Track(session: SessionId, x: Exec, ghost e: Event)
      requires Valid() && Enabled(world, e)
      requires e == TrackOwn(x, session) || ((e == TrackFirst(x) || e == TrackReuse(x)) && world.starting[x].session == session)
      modifies this
      ensures Valid() && world == Next(old(world), e)
      ensures sessionToStep == old(sessionToStep)[session := x] && sharedSessions == old(sharedSessions)
      ensures x !in world.starting && (session in world.monitors <==> e != TrackReuse(x) || session in old(world).monitors)
    {
      Step(e);
      sessionToStep := sessionToStep[session := x];
    }

    /** The section that completeStep and completeSharedStep share: whoever takes the entry out
        must invoke its callback. */
    method Take(session: SessionId, ghost e: Event) returns (tracking: Option<Exec>)
      requires Valid() && Enabled(world, e)
      requires e == Idle(session) || e == MonitorExit(session) || (e.SendDone? && !e.ok && world.sending[e.x] == session)
      modifies this
      ensures Valid() && world == Next(old(world), e)
      ensures tracking == if session in old(sessionToStep) then Some(old(sessionToStep)[session]) else None
      ensures sessionToStep == old(sessionToStep) - {session} && sharedSessions == old(sharedSessions)
      ensures world.inHand == old(world).inHand + match tracking { case Some(x) => multiset{x} case None => multiset{} }
    {
      Step(e);
      tracking := None;
      if session in sessionToStep {
        tracking := Some(sessionToStep[session]);
        sessionToStep := sessionToStep - {session};
      }
    }

    method Share(x: Exec, session: SessionId)
      requires Valid() && Enabled(world, ShareNew(x, session))
      modifies this
      ensures Valid() && world == Next(old(world), ShareNew(x, session))
      ensures sharedSessions == old(sharedSessions)[SharedKey(x.run, x.key) := session] && sessionToStep == old(sessionToStep)
    {
      Step(ShareNew(x, session));
      sharedSessions := sharedSessions[KeyOf(x) := session];
    }

    /** Forgets the shared sessions of a run and returns them for killing. */
    method CleanupRunSessions(run: string) returns (toClean: set<SessionId>)
      requires Valid()
      modifies this
      ensures Valid() && world == Next(old(world), Cleanup(run))
      ensures toClean == set k | k in old(sharedSessions) && k.run == run :: old(sharedSessions)[k]
      ensures sharedSessions == map k | k in old(sharedSessions) && k.run != run :: old(sharedSessions)[k]
      ensures sessionToStep == old(sessionToStep)
    {
      toClean := {};
      var rest := sharedSessions.Keys;
      ghost var all := sharedSessions;
      while rest != {}
        invariant rest <= all.Keys && sessionToStep == old(sessionToStep) && world == old(world)
        invariant sharedSessions == map k | k in all && (k.run != run || k in rest) :: all[k]
        invariant toClean == set k | k in all && k.run == run && k !in rest :: all[k]
        decreases |rest|
      {
        var key :| key in rest;
        if key.run == run {
          toClean := toClean + {sharedSessions[key]};
          sharedSessions := sharedSessions - {key};
        }
        rest := rest - {key};
      }
      Step(Cleanup(run));
    }
  }

  lemma StartHasOneChance(x: Exec)
    ensures OneChance(START, x)
  {
  }

  lemma {:induction false} ExecutionOneChance(states: seq<State>, events: seq<Event>, i: nat, x: Exec)
    requires Execution(states, events) && i <= |events|
    ensures OneChance(states[i], x)
  {
    hide OneChance, Enabled, Next;
    if i == 0 {
      StartHasOneChance(x);
    } else {
      ExecutionOneChance(states, events, i - 1, x);
      NextKeepsOneChance(states[i - 1], events[i - 1], x);
    }
  }

  /** Every ExecuteStep call's callback is invoked at most once, over any interleaving of idle
      events, monitor exits, send failures, cancellations and cleanups. */
  lemma CallsAtMostOnce(states: seq<State>, events: seq<Event>, i: nat, x: Exec)
    requires Execution(states, events) && i <= |events|
    ensures states[i].calls[x] <= 1
    ensures states[i].calls[x] == 1 ==> x in states[i].launched
  {
    ExecutionOneChance(states, events, i, x);
  }

  // ---------------------------------------------------------------------------------------------
  // No callback is lost, if steps that share a key are not launched together
  // ---------------------------------------------------------------------------------------------

  predicate Open(s: State, x: Exec) { x in s.launched && s.calls[x] == 0 }

  predicate Rivals(x: Exec, y: Exec) { x != y && x.key != "" && KeyOf(x) == KeyOf(y) }

  /** What the scheduler's session keys guarantee: at a launch no other step with the same key of
      the same run is waiting for its callback. */
  ghost predicate Exclusive(states: seq<State>, events: seq<Event>)
    requires |states| == |events| + 1
  {
    forall i, y :: 0 <= i < |events| && events[i].Launch? && Open(states[i], y) ==> !Rivals(events[i].x, y)
  }

  ghost predicate SessionInv(s: State, i: SessionId) {
    && (i in s.sessionToStep ==>
          i in s.owner && match s.owner[i] { case None => true case Some(k) => s.sessionToStep[i].key != "" && KeyOf(s.sessionToStep[i]) == k })
  }

  ghost predicate PlanInv(s: State, x: Exec) {
    x in s.starting ==>
      match s.starting[x]
      case Shared(i) => x.key != "" && i in s.owner && s.owner[i] == Some(KeyOf(x))
      case Reuse(i) => x.key != "" && i in s.owner && s.owner[i] == Some(KeyOf(x))
      case FirstOfKey => x.key != ""
      case _ => true
  }

  ghost predicate Held(s: State, x: Exec) {
    x in s.starting || (exists i :: i in s.sessionToStep && s.sessionToStep[i] == x) || Spent(s, x) == 1
  }

  ghost predicate KeyInv(s: State) {
    && (forall x, y :: Open(s, x) && Open(s, y) ==> !Rivals(x, y))
    && (forall i {:trigger SessionInv(s, i)} :: SessionInv(s, i))
    && (forall x {:trigger PlanInv(s, x)} :: PlanInv(s, x))
    && (forall k :: k in s.sharedSessions ==> s.sharedSessions[k] in s.owner && s.owner[s.sharedSessions[k]] == Some(k))
    && (forall x {:trigger OneChance(s, x)} :: OneChance(s, x))
  }

  predicate Admitted(s: State, e: Event) {
    Enabled(s, e) && (e.Launch? ==> forall y :: y in s.launched && Open(s, y) ==> !Rivals(e.x, y))
  }

  /** A step is never tracked over another step's live entry. */
  lemma NothingOverwritten(s: State, x: Exec)
    requires KeyInv(s) && x in s.starting && (s.starting[x].Shared? || s.starting[x].Reuse?)
    ensures s.starting[x].session !in s.sessionToStep
  {
    var i := s.starting[x].session;
    forall y ensures !EntryIs(s, i, y) { NotTheEntry(s, x, i, y); }
    assert i in s.sessionToStep ==> EntryIs(s, i, s.sessionToStep[i]);
  }

  predicate EntryIs(s: State, i: SessionId, y: Exec) { i in s.sessionToStep && s.sessionToStep[i] == y }

  lemma NotTheEntry(s: State, x: Exec, i: SessionId, y: Exec)
    requires KeyInv(s) && (Planned(s, x, Shared(i)) || Planned(s, x, Reuse(i)))
    ensures !EntryIs(s, i, y)
  {
    assert PlanInv(s, x) && SessionInv(s, i) && OneChance(s, x) && OneChance(s, y);
    assert Open(s, x);
    assert Open(s, y) ==> !Rivals(x, y);
  }

  lemma NextKeepsKeyInv(s: State, e: Event)
    requires KeyInv(s) && Admitted(s, e)
    ensures KeyInv(Next(s, e))
  {
    hide Next, Enabled, OneChance, SessionInv, PlanInv, Open, Rivals, Admitted;
    AdmittedIsEnabled(s, e);
    var t := Next(s, e);
    forall x ensures OneChance(t, x) { assert OneChance(s, x); NextKeepsOneChance(s, e, x); }
    forall i ensures SessionInv(t, i) { NextKeepsSession(s, e, i); }
    forall x ensures PlanInv(t, x) { NextKeepsPlan(s, e, x); }
    forall x, y | Open(t, x) && Open(t, y) ensures !Rivals(x, y) { OpenAreNoRivals(s, e, x, y); }
    NextKeepsShared(s, e);
  }

  lemma OpenAreNoRivals(s: State, e: Event, x: Exec, y: Exec)
    requires Admitted(s, e) && Enabled(s, e) && Open(Next(s, e), x) && Open(Next(s, e), y)
    requires Open(s, x) && Open(s, y) ==> !Rivals(x, y)
    ensures !Rivals(x, y)
  {
    OpenBefore(s, e, x);
    OpenBefore(s, e, y);
    hide Next, Enabled;
  }

  lemma OpenBefore(s: State, e: Event, x: Exec)
    requires Enabled(s, e) && Open(Next(s, e), x)
    ensures Open(s, x) || e == Launch(x)
  {
  }

  lemma NextKeepsShared(s: State, e: Event)
    requires KeyInv(s) && Admitted(s, e)
    ensures var t := Next(s, e);
      forall k :: k in t.sharedSessions ==> t.sharedSessions[k] in t.owner && t.owner[t.sharedSessions[k]] == Some(k)
  {
    hide SessionInv, PlanInv, OneChance;
  }

  lemma NextKeepsSession(s: State, e: Event, i: SessionId)
    requires KeyInv(s) && Admitted(s, e)
    ensures SessionInv(Next(s, e), i)
  {
    assert SessionInv(s, i);
    if e.TrackFirst? || e.TrackReuse? { assert PlanInv(s, e.x); }
    AdmittedIsEnabled(s, e);
    hide KeyInv, Admitted, OneChance;
  }

  lemma OwnersStay(s: State, e: Event)
    requires Enabled(s, e)
    ensures forall i :: i in s.owner ==> i in Next(s, e).owner && Next(s, e).owner[i] == s.owner[i]
  {
  }

  lemma PlansStay(s: State, e: Event, x: Exec)
    requires Enabled(s, e) && e != Look(x) && e != Launch(x) && !(e.ShareNew? && e.x == x)
    ensures x in Next(s, e).starting ==> x in s.starting && Next(s, e).starting[x] == s.starting[x]
  {
  }

  lemma NextKeepsPlan(s: State, e: Event, x: Exec)
    requires KeyInv(s) && Admitted(s, e)
    ensures PlanInv(Next(s, e), x)
  {
    assert PlanInv(s, x);
    var t := Next(s, e);
    OwnersStay(s, e);
    if e == Look(x) || e == Launch(x) || (e.ShareNew? && e.x == x) {
      hide OneChance, SessionInv;
    } else {
      PlansStay(s, e, x);
      hide KeyInv, OneChance, Next;
    }
  }

  lemma TrackedStaysHeld(s: State, e: Event, x: Exec, i: SessionId)
    requires KeyInv(s) && Admitted(s, e) && i in s.sessionToStep && s.sessionToStep[i] == x
    ensures Held(Next(s, e), x)
  {
    assert OneChance(s, x);
    assert Spent(s, x) == 0;
    assert (e.TrackFirst? || e.TrackReuse?) ==> s.starting[e.x].session != i by {
      if e.TrackFirst? || e.TrackReuse? { NothingOverwritten(s, e.x); }
    }
    assert i in s.owner by { assert SessionInv(s, i); }
    AdmittedIsEnabled(s, e);
    hide KeyInv, SessionInv, PlanInv, OneChance, Admitted, Enabled;
    EntryStays(s, e, x, i);
    hide Next;
  }

  /** An entry that is not overwritten stays, or is taken with its one callback. */
  lemma EntryStays(s: State, e: Event, x: Exec, i: SessionId)
    requires Enabled(s, e) && i in s.sessionToStep && s.sessionToStep[i] == x && Spent(s, x) == 0 && i in s.owner
    requires (e.TrackFirst? || e.TrackReuse?) ==> s.starting[e.x].session != i
    ensures var t := Next(s, e); (i in t.sessionToStep && t.sessionToStep[i] == x) || Spent(t, x) >= 1
    ensures x !in s.starting ==> Spent(Next(s, e), x) <= 1 || i !in Next(s, e).sessionToStep
  {
  }

  lemma StartedStaysHeld(s: State, e: Event, x: Exec)
    requires OneChance(s, x) && Enabled(s, e) && x in s.starting
    ensures Held(Next(s, e), x)
  {
    var t := Next(s, e);
    if (e.TrackFirst? || e.TrackReuse? || e.TrackOwn?) && e.x == x {
      var i := if e.TrackOwn? then e.session else s.starting[x].session;
      assert i in t.sessionToStep && t.sessionToStep[i] == x;
    }
  }

  lemma NextKeepsHeld(s: State, e: Event, x: Exec)
    requires KeyInv(s) && Admitted(s, e) && (x in s.launched ==> Held(s, x)) && x in Next(s, e).launched
    ensures Held(Next(s, e), x)
  {
    assert OneChance(s, x);
    hide KeyInv, OneChance, Admitted;
    assert Enabled(s, e) by { AdmittedIsEnabled(s, e); }
    if i :| i in s.sessionToStep && s.sessionToStep[i] == x {
      TrackedStaysHeld(s, e, x, i);
    } else if x in s.starting {
      StartedStaysHeld(s, e, x);
    } else if x in s.launched {
      SpentStaysHeld(s, e, x);
    } else {
      assert e == Launch(x);
      assert x in Next(s, e).starting;
    }
  }

  lemma AdmittedIsEnabled(s: State, e: Event)
    requires Admitted(s, e)
    ensures Enabled(s, e)
  {
  }

  lemma SpentStaysHeld(s: State, e: Event, x: Exec)
    requires Enabled(s, e) && OneChance(s, x) && Spent(s, x) == 1
    ensures Held(Next(s, e), x)
  {
    NextKeepsOneChance(s, e, x);
    SpentGrows(s, e, x);
    hide Enabled, Next;
  }

  lemma SpentGrows(s: State, e: Event, x: Exec)
    requires Enabled(s, e)
    ensures Spent(Next(s, e), x) >= Spent(s, x)
  {
    if e.SendDone? || e.Idle? || e.MonitorExit? {
      hide Begin, Tracked;
      if e.SendDone? {
        if !e.ok { TakenKeepsSpent(s.(sending := s.sending - {e.x}), s.sending[e.x], x); }
      } else {
        TakenKeepsSpent(s, e.session, x);
      }
      hide Taken;
    } else {
      OthersKeepSpent(s, e, x);
      hide Next;
    }
  }

  lemma OthersKeepSpent(s: State, e: Event, x: Exec)
    requires Enabled(s, e) && !e.SendDone? && !e.Idle? && !e.MonitorExit?
    ensures Spent(Next(s, e), x) >= Spent(s, x)
  {
    hide Taken;
  }

  lemma TakenKeepsSpent(s: State, i: SessionId, x: Exec)
    ensures Spent(Taken(s, i), x) >= Spent(s, x)
  {
  }

  lemma {:induction false} ExecutionKeyInv(states: seq<State>, events: seq<Event>, i: nat, x: Exec)
    requires Execution(states, events) && Exclusive(states, events) && i <= |events|
    ensures KeyInv(states[i]) && (x in states[i].launched ==> Held(states[i], x))
  {
    if i > 0 {
      ExecutionKeyInv(states, events, i - 1, x);
      assert Admitted(states[i - 1], events[i - 1]);
      NextKeepsKeyInv(states[i - 1], events[i - 1]);
      if x in states[i].launched { NextKeepsHeld(states[i - 1], events[i - 1], x); }
    }
  }

  /** Tracking a step never displaces the live entry of another. */
  lemma NeverOverwritten(states: seq<State>, events: seq<Event>, i: nat, session: SessionId)
    requires Execution(states, events) && Exclusive(states, events) && i < |events|
    requires session in states[i].sessionToStep && session in states[i + 1].sessionToStep
    ensures states[i + 1].sessionToStep[session] == states[i].sessionToStep[session]
  {
    var s, e := states[i], events[i];
    ExecutionKeyInv(states, events, i, s.sessionToStep[session]);
    assert SessionInv(s, session);
    assert Enabled(s, e);
    if e.TrackFirst? || e.TrackReuse? { NothingOverwritten(s, e.x); }
  }

  /** Every launched step is still being started, tracked by exactly one session, or has its one
      callback under way or done: none is ever lost. */
  lemma CallbackNeverLost(states: seq<State>, events: seq<Event>, i: nat, x: Exec)
    requires Execution(states, events) && Exclusive(states, events) && i <= |events| && x in states[i].launched
    ensures Held(states[i], x) && OneChance(states[i], x)
    ensures x !in states[i].starting && x !in states[i].sessionToStep.Values && x !in states[i].inHand ==> states[i].calls[x] == 1
  {
    ExecutionKeyInv(states, events, i, x);
    assert OneChance(states[i], x);
  }

  /** A launched step that is nowhere to be found. */
  ghost predicate Lost(s: State, x: Exec) { x in s.launched && !Held(s, x) }

  /** It stays so, and its callback never comes. */
  lemma {:induction false} LostForever(states: seq<State>, events: seq<Event>, i: nat, j: nat, x: Exec)
    requires Execution(states, events) && i <= j <= |events| && Lost(states[i], x)
    ensures Lost(states[j], x) && states[j].calls[x] == 0
  {
    hide Lost, OneChance;
    ExecutionOneChance(states, events, j, x);
    if i < j {
      LostForever(states, events, i, j - 1, x);
      ExecutionOneChance(states, events, j - 1, x);
      LostStays(states[j - 1], events[j - 1], x);
    }
    LostIsUncalled(states[j], x);
  }

  lemma LostIsUncalled(s: State, x: Exec)
    requires Lost(s, x) && OneChance(s, x)
    ensures s.inHand[x] == 0 && s.calls[x] == 0 && x !in s.starting
    ensures forall i :: i in s.sessionToStep ==> s.sessionToStep[i] != x
  {
  }

  lemma LostStays(s: State, e: Event, x: Exec)
    requires Enabled(s, e) && Lost(s, x) && OneChance(s, x)
    ensures Lost(Next(s, e), x)
  {
    LostIsUncalled(s, x);
    hide OneChance, Held;
    assert x in s.launched;
    hide Lost;
    StaysNowhere(s, e, x);
    NowhereIsLost(Next(s, e), x);
  }

  lemma StaysNowhere(s: State, e: Event, x: Exec)
    requires Enabled(s, e) && x in s.launched && s.inHand[x] == 0 && s.calls[x] == 0 && x !in s.starting
    requires forall i :: i in s.sessionToStep ==> s.sessionToStep[i] != x
    ensures var t := Next(s, e);
      && x in t.launched && t.inHand[x] == 0 && t.calls[x] == 0 && x !in t.starting
      && forall i :: i in t.sessionToStep ==> t.sessionToStep[i] != x
  {
    NotTracked(s, e, x);
    match e {
      case SendDone(y, ok) => if !ok { NotTaken(s, s.sending[y], x); }
      case Idle(i) => NotTaken(s, i, x);
      case MonitorExit(i) => NotTaken(s, i, x);
      case _ => hide Taken;
    }
  }

  lemma NotTaken(s: State, i: SessionId, x: Exec)
    requires s.inHand[x] == 0 && forall j :: j in s.sessionToStep ==> s.sessionToStep[j] != x
    ensures Taken(s, i).inHand[x] == 0
  {
  }

  lemma NotTracked(s: State, e: Event, x: Exec)
    requires Enabled(s, e) && x !in s.starting
    requires forall i :: i in s.sessionToStep ==> s.sessionToStep[i] != x
    ensures forall i :: i in Next(s, e).sessionToStep ==> Next(s, e).sessionToStep[i] != x
  {
  }

  lemma NowhereIsLost(s: State, x: Exec)
    requires x in s.launched && s.inHand[x] == 0 && s.calls[x] == 0 && x !in s.starting
    requires forall i :: i in s.sessionToStep ==> s.sessionToStep[i] != x
    ensures Lost(s, x)
  {
  }

  /** Exclusion is needed: two steps launched together on one key can lose a callback for good. */
  lemma LostWithoutExclusion() returns (states: seq<State>, events: seq<Event>, x: Exec)
    ensures Execution(states, events) && Lost(states[|events|], x)
  {
    x := Exec(0, "run", "key");
    var y := Exec(1, "run", "key");
    var i := "session";
    states, events := [START], [];
    states, events := Extend(states, events, Launch(x));
    states, events := Extend(states, events, Look(x));
    states, events := Extend(states, events, ShareNew(x, i));
    states, events := Extend(states, events, Launch(y));
    states, events := Extend(states, events, Look(y));
    states, events := Extend(states, events, TrackFirst(x));
    states, events := Extend(states, events, TrackReuse(y));
    assert states[|events|].sessionToStep == map[i := y];
  }

  lemma Extend(states: seq<State>, events: seq<Event>, e: Event) returns (longer: seq<State>, more: seq<Event>)
    requires Execution(states, events) && Enabled(states[|events|], e)
    ensures longer == states + [Next(states[|events|], e)] && more == events + [e]
    ensures Execution(longer, more)
  {
    longer, more := states + [Next(states[|events|], e)], events + [e];
  }

  // ---------------------------------------------------------------------------------------------
  // The protocol by its history: how far a call has got is told by the steps taken so far
  // ---------------------------------------------------------------------------------------------

  predicate EndsStart(e: Event, x: Exec) {
    e == AnswerDirectly(x) || e == TrackFirst(x) || e == TrackReuse(x) || (e.TrackOwn? && e.x == x)
  }

  /** A launched call looks for its session once, is then tracked or answered directly, and its
      callback is invoked by those steps alone. */
  ghost predicate ToldByCall(s: State, past: seq<Event>, x: Exec) {
    && (x in s.launched <==> Launch(x) in past)
    && (x in s.starting <==> Launch(x) in past && forall e :: e in past ==> !EndsStart(e, x))
    && (Planned(s, x, Looking) <==> Launch(x) in past && Look(x) !in past)
    && (forall e :: e in past && EndsStart(e, x) ==> Look(x) in past)
    && (Look(x) in past ==> Launch(x) in past)
    && s.calls[x] == multiset(past)[Invoke(x)] + multiset(past)[AnswerDirectly(x)]
    && (x in s.sending <==> TrackReuse(x) in past && SendDone(x, true) !in past && SendDone(x, false) !in past)
    && (SendDone(x, true) in past || SendDone(x, false) in past ==> TrackReuse(x) in past)
  }

  lemma {:induction false} CallByHistory(states: seq<State>, events: seq<Event>, i: nat, x: Exec)
    requires Execution(states, events) && i <= |events|
    ensures ToldByCall(states[i], events[..i], x)
  {
    hide Next, Enabled, ToldByCall;
    if i > 0 {
      assert Enabled(states[i - 1], events[i - 1]);
      CallByHistory(states, events, i - 1, x);
      PastGrows(events, i - 1);
      StepToldByCall(states[i - 1], events[i - 1], events[..i - 1], events[..i], x);
    } else {
      NothingTold(x);
    }
  }

  lemma NothingTold(x: Exec)
    ensures ToldByCall(START, [], x)
  {
  }

  lemma StepToldByCall(s: State, e: Event, past: seq<Event>, more: seq<Event>, x: Exec)
    requires Enabled(s, e) && ToldByCall(s, past, x)
    requires forall y :: y in more <==> y in past || y == e
    requires forall y :: multiset(more)[y] == multiset(past)[y] + if y == e then 1 else 0
    ensures ToldByCall(Next(s, e), more, x)
  {
    assert EndsStart(TrackReuse(x), x);
    hide Next, Enabled, EndsStart, Planned;
    StartStep(s, e, x);
    LookStep(s, e, x);
    LaunchStep(s, e, x);
    SendingStep(s, e, x);
    CallsStep(s, e, x);
    assert forall y :: y in past ==> y in more;
    assert e in more;
  }

  lemma StartStep(s: State, e: Event, x: Exec)
    requires Enabled(s, e)
    ensures var t := Next(s, e); x in t.starting <==> e == Launch(x) || (x in s.starting && !EndsStart(e, x))
    ensures var t := Next(s, e); Planned(t, x, Looking) <==> e == Launch(x) || (Planned(s, x, Looking) && e != Look(x))
  {
    hide Next, Enabled;
    StartingChanges(s, e);
    LookStep(s, e, x);
  }

  lemma StartingChanges(s: State, e: Event)
    requires Enabled(s, e)
    ensures var before, after := s.starting, Next(s, e).starting;
      if e.Launch? || e.Look? || e.ShareNew? then e.x in after && after == before[e.x := after[e.x]] && (after[e.x] == Looking <==> e.Launch?)
      else if e.AnswerDirectly? || e.TrackOwn? || e.TrackFirst? || e.TrackReuse? then after == before - {e.x}
      else after == before
  {
    if e.Launch? || e.Look? || e.ShareNew? {
      PlanChanges(s, e);
    } else if e.AnswerDirectly? || e.TrackOwn? || e.TrackFirst? || e.TrackReuse? {
      StartEnds(s, e);
    } else {
      StartStays(s, e);
    }
    hide Next, Enabled;
  }

  lemma PlanChanges(s: State, e: Event)
    requires Enabled(s, e) && (e.Launch? || e.Look? || e.ShareNew?)
    ensures var t := Next(s, e); e.x in t.starting && t.starting == s.starting[e.x := t.starting[e.x]] && (t.starting[e.x] == Looking <==> e.Launch?)
  {
    hide Taken, Tracked;
  }

  lemma StartEnds(s: State, e: Event)
    requires Enabled(s, e) && (e.AnswerDirectly? || e.TrackOwn? || e.TrackFirst? || e.TrackReuse?)
    ensures Next(s, e).starting == s.starting - {e.x}
  {
    hide Taken, Begin;
  }

  lemma StartStays(s: State, e: Event)
    requires Enabled(s, e) && (e.SendDone? || e.Idle? || e.MonitorExit? || e.Invoke? || e.Cleanup?)
    ensures Next(s, e).starting == s.starting
  {
    if e.SendDone? {
      TakenKeepsStart(s.(sending := s.sending - {e.x}), s.sending[e.x]);
    } else if e.Idle? || e.MonitorExit? {
      TakenKeepsStart(s, e.session);
    }
    hide Begin, Tracked, Taken;
  }

  lemma TakenKeepsStart(s: State, i: SessionId)
    ensures Taken(s, i).starting == s.starting && Taken(s, i).sending == s.sending
  {
  }

  lemma LookStep(s: State, e: Event, x: Exec)
    requires Enabled(s, e)
    ensures EndsStart(e, x) ==> x in s.starting && !Planned(s, x, Looking)
    ensures e == Look(x) ==> Planned(s, x, Looking)
    ensures e.ShareNew? && e.x == x ==> x in s.starting && !Planned(s, x, Looking)
  {
  }

  lemma LaunchStep(s: State, e: Event, x: Exec)
    requires Enabled(s, e)
    ensures var t := Next(s, e);
      (x in t.launched <==> x in s.launched || e == Launch(x)) && (e == Launch(x) ==> x !in s.launched)
  {
  }

  lemma SendingStep(s: State, e: Event, x: Exec)
    requires Enabled(s, e)
    ensures var t := Next(s, e);
      && (x in t.sending <==> e == TrackReuse(x) || (x in s.sending && e != SendDone(x, true) && e != SendDone(x, false)))
      && (e == SendDone(x, true) || e == SendDone(x, false) ==> x in s.sending)
  {
    if e.TrackReuse? {
      PromptBegins(s, e);
    } else if e.SendDone? {
      PromptEnds(s, e);
    } else {
      PromptsStay(s, e);
    }
    hide Next, Enabled;
  }

  lemma PromptBegins(s: State, e: Event)
    requires Enabled(s, e) && e.TrackReuse?
    ensures Next(s, e).sending.Keys == s.sending.Keys + {e.x}
  {
  }

  lemma PromptEnds(s: State, e: Event)
    requires Enabled(s, e) && e.SendDone?
    ensures Next(s, e).sending == s.sending - {e.x} && e.x in s.sending
  {
  }

  lemma PromptsStay(s: State, e: Event)
    requires Enabled(s, e) && !e.TrackReuse? && !e.SendDone?
    ensures Next(s, e).sending == s.sending
  {
    if e.Idle? || e.MonitorExit? {
      TakenKeepsStart(s, e.session);
      hide Taken, Begin, Tracked;
    } else {
      hide Taken;
    }
  }

  lemma CallsStep(s: State, e: Event, x: Exec)
    requires Enabled(s, e)
    ensures Next(s, e).calls[x] == s.calls[x] + (if e == Invoke(x) || e == AnswerDirectly(x) then 1 else 0)
  {
  }

  /** What a call that looks for its session finds: a step without a key makes a session of its own,
      one with a key reuses the run's session for the key, or is the first to need it. */
  lemma LookRule(states: seq<State>, events: seq<Event>, i: nat, x: Exec)
    requires Execution(states, events) && i < |events| && events[i] == Look(x)
    ensures x in states[i + 1].starting
    ensures var shared, plan := states[i].sharedSessions, states[i + 1].starting[x];
      && (plan == OwnSession <==> x.key == "")
      && (plan.Reuse? <==> x.key != "" && SharedKey(x.run, x.key) in shared)
      && (plan.Reuse? ==> plan.session == shared[SharedKey(x.run, x.key)])
      && (plan == FirstOfKey <==> x.key != "" && SharedKey(x.run, x.key) !in shared)
  {
    assert Enabled(states[i], events[i]);
  }

  /** The step tracks x on the session: on one of its own, on one it has just made for its key, or on
      one it found. */
  predicate Tracks(s: State, e: Event, x: Exec, session: SessionId) {
    || e == TrackOwn(x, session)
    || (e == TrackFirst(x) && Planned(s, x, Shared(session)))
    || (e == TrackReuse(x) && Planned(s, x, Reuse(session)))
  }

  /** The step takes the session's entry out: an idle event, the end of the monitor, or a prompt that
      could not be sent. */
  predicate Takes(s: State, e: Event, session: SessionId) {
    e == Idle(session) || e == MonitorExit(session) || (e.SendDone? && !e.ok && e.x in s.sending && s.sending[e.x] == session)
  }

  /** What happens to a session in one step of an execution: its entry is set by tracking and removed
      by taking, and whoever takes it has its callback in hand; it is monitored from its first
      tracking until its monitor exits. */
  lemma SessionRule(states: seq<State>, events: seq<Event>, i: nat, session: SessionId, x: Exec)
    requires Execution(states, events) && i < |events|
    ensures var s, e, t := states[i], events[i], states[i + 1];
      && (Tracks(s, e, x, session) ==> t.sessionToStep == s.sessionToStep[session := x] && t.inHand == s.inHand)
      && (Tracks(s, e, x, session) && e != TrackReuse(x) ==> t.monitors == s.monitors + {session})
      && (Takes(s, e, session) ==> t.sessionToStep == s.sessionToStep - {session})
      && (Takes(s, e, session) ==> t.inHand == s.inHand + if session in s.sessionToStep then multiset{s.sessionToStep[session]} else multiset{})
      && (e == MonitorExit(session) ==> t.monitors == s.monitors - {session})
  {
    assert Enabled(states[i], events[i]);
  }

  /** A step that neither tracks nor takes changes no entry and no monitor, and puts no callback into
      anyone's hands. */
  lemma OtherSteps(states: seq<State>, events: seq<Event>, i: nat)
    requires Execution(states, events) && i < |events|
    ensures var s, e, t := states[i], events[i], states[i + 1];
      && (!e.TrackOwn? && !e.TrackFirst? && !e.TrackReuse? && !e.Idle? && !e.MonitorExit? && !(e.SendDone? && !e.ok) ==>
            t.sessionToStep == s.sessionToStep && t.monitors == s.monitors
            && t.inHand == s.inHand - if e.Invoke? then multiset{e.x} else multiset{})
      && (e.TrackReuse? || e.Idle? || e.SendDone? ==> t.monitors == s.monitors)
  {
    assert Enabled(states[i], events[i]);
  }

  /** A step is tracked first on the session made for it, and later steps on the one they found; only
      TrackOwn and ShareNew make sessions. */
  lemma TrackedWhere(states: seq<State>, events: seq<Event>, i: nat)
    requires Execution(states, events) && i < |events|
    ensures var s, e, t := states[i], events[i], states[i + 1];
      && (e.TrackFirst? ==> Planned(s, e.x, Shared(s.starting[e.x].session)))
      && (e.TrackReuse? ==> Planned(s, e.x, Reuse(s.starting[e.x].session)) && t.sending == s.sending[e.x := s.starting[e.x].session])
      && t.owner.Keys == s.owner.Keys + if e.TrackOwn? || e.ShareNew? then {e.session} else {}
  {
    assert Enabled(states[i], events[i]);
  }

  /** The sessions shared by a key: made by ShareNew, forgotten with their run. */
  lemma SharedRule(states: seq<State>, events: seq<Event>, i: nat)
    requires Execution(states, events) && i < |events|
    ensures var s, e, t := states[i], events[i], states[i + 1];
      && (e.ShareNew? ==> t.sharedSessions == s.sharedSessions[SharedKey(e.x.run, e.x.key) := e.session] && Planned(t, e.x, Shared(e.session)))
      && (e.Cleanup? ==> t.sharedSessions == map k | k in s.sharedSessions && k.run != e.run :: s.sharedSessions[k])
      && (!e.ShareNew? && !e.Cleanup? ==> t.sharedSessions == s.sharedSessions)
  {
    assert Enabled(states[i], events[i]);
  }

  /** Which steps are possible: nothing but its own progress keeps a call from being answered. */
  ghost predicate Possible(s: State, past: seq<Event>, x: Exec, session: SessionId, ok: bool, run: string) {
    var plan := Find(s.starting, x);
    && (Enabled(s, Launch(x)) <==> Launch(x) !in past)
    && (Enabled(s, Look(x)) <==> Launch(x) in past && Look(x) !in past)
    && (Enabled(s, AnswerDirectly(x)) <==> plan == Some(OwnSession) || plan == Some(FirstOfKey) || (plan.Some? && plan.value.Reuse?))
    && (Enabled(s, TrackOwn(x, session)) <==> plan == Some(OwnSession) && session !in s.owner)
    && (Enabled(s, ShareNew(x, session)) <==> plan == Some(FirstOfKey) && session !in s.owner)
    && (Enabled(s, TrackFirst(x)) <==> plan.Some? && plan.value.Shared?)
    && (Enabled(s, TrackReuse(x)) <==> plan.Some? && plan.value.Reuse?)
    && (Enabled(s, SendDone(x, ok)) <==> TrackReuse(x) in past && SendDone(x, true) !in past && SendDone(x, false) !in past)
    && Enabled(s, Idle(session)) && Enabled(s, Cleanup(run))
    && (Enabled(s, MonitorExit(session)) <==> session in s.monitors)
    && (Enabled(s, Invoke(x)) <==> x in s.inHand)
  }

  lemma PossibleByHistory(states: seq<State>, events: seq<Event>, i: nat, x: Exec, session: SessionId, ok: bool, run: string)
    requires Execution(states, events) && i <= |events|
    ensures Possible(states[i], events[..i], x, session, ok, run)
  {
    CallByHistory(states, events, i, x);
    hide Execution, Next, Enabled, ToldByCall, Possible;
    ToldMeansPossible(states[i], events[..i], x, session, ok, run);
  }

  lemma ToldMeansPossible(s: State, past: seq<Event>, x: Exec, session: SessionId, ok: bool, run: string)
    requires ToldByCall(s, past, x)
    ensures Possible(s, past, x, session, ok, run)
  {
    hide EndsStart, Next;
  }
}

/** The limit on concurrent runs of a job.  CreateRun reserves a slot under the orchestrator's
    lock, does its store work unlocked, and then either gives the slot back or turns it into a
    runner; a runner that is done writes the run's terminal status and only then, in a section of
    its own, deletes the run's entry; cancellations and rebuilds come in between.
    internal/server/orchestrator/orchestrator.go */
module ConcurrencyCap {
  import opened JobModel

  type JobId = string
  type RunId = string

  /** Keys of the activeRuns map: the placeholder of one CreateRun call, or a run. */
  datatype Key = Reservation(token: nat) | Run(id: RunId)

  /** A placeholder, or a runner by identity. */
  datatype Slot = Placeholder(job: JobId) | Runner(job: JobId, id: nat)

  type ActiveRuns = map<Key, Slot>

  function Slots(active: ActiveRuns, job: JobId): set<Key> {
    set k | k in active && active[k].job == job
  }

  // MaxConcurrentRuns of zero or less means no limit.

  predicate WithinCap(active: ActiveRuns, job: JobId, cap: int) {
    cap > 0 ==> |Slots(active, job)| <= cap
  }

  predicate AtCap(active: ActiveRuns, job: JobId, cap: int) {
    cap > 0 && |Slots(active, job)| >= cap
  }

  /** The runner entered for a run. */
  function Holder(active: ActiveRuns, run: RunId): set<nat> {
    if Run(run) in active && active[Run(run)].Runner? then {active[Run(run)].id} else {}
  }

  // ---------------------------------------------------------------------------------------------
  // The protocol
  // ---------------------------------------------------------------------------------------------

  datatype State = State(
    active: ActiveRuns,
    /** CreateRun calls between reservation and outcome. */
    creating: map<nat, JobId>,
    tokens: set<nat>,
    /** Every run installed so far with its job, and every runner made with its run. */
    runs: map<RunId, JobId>,
    runners: map<nat, RunId>,
    /** Runners entered but not started, runners started, and runners that have accepted their last
        callback and are on their way through the completion callback: true once the status is
        written. */
    installed: set<nat>,
    executing: set<nat>,
    finishing: map<nat, bool>,
    /** Runs whose stored status is terminal. */
    terminal: set<RunId>)

  datatype Event =
    | Reserve(token: nat, job: JobId)
    | CreationFails(token: nat)
    | Install(token: nat, run: RunId, runner: nat)
    | Begin(runner: nat)
    | Finish(runner: nat)
    | WriteStatus(runner: nat)
    | Delete(runner: nat)
    | Cancel(run: RunId)
    | MarkCancelled(run: RunId)
    | Rebuild(run: RunId, runner: nat, repair: bool)

  const START := State(map[], map[], {}, map[], map[], {}, {}, map[], {})

  /** Tokens, run identifiers and runners are fresh; any string may be given to CancelRun.
      RepairRun asks for a terminal status, RetryStep does not. */
  predicate Enabled(s: State, e: Event) {
    match e
    case Reserve(token, _) => token !in s.tokens
    case CreationFails(token) => token in s.creating
    case Install(token, run, runner) => token in s.creating && run !in s.runs && runner !in s.runners
    case Begin(runner) => runner in s.installed
    case Finish(runner) => runner in s.executing && runner in s.runners
    case WriteStatus(runner) => runner in s.finishing && !s.finishing[runner] && runner in s.runners
    case Delete(runner) => runner in s.finishing && s.finishing[runner] && runner in s.runners
    case Cancel(_) => true
    case MarkCancelled(run) => run in s.runs
    case Rebuild(run, runner, repair) => run in s.runs && runner !in s.runners && (repair ==> run in s.terminal)
  }

  function Next(cap: map<JobId, int>, s: State, e: Event): State
    requires Enabled(s, e)
  {
    match e
    case Reserve(token, job) =>
      var t := s.(tokens := s.tokens + {token});
      if AtCap(s.active, job, Cap(cap, job)) then t
      else t.(active := s.active[Reservation(token) := Placeholder(job)], creating := s.creating[token := job])
    case CreationFails(token) =>
      s.(active := s.active - {Reservation(token)}, creating := s.creating - {token})
    case Install(token, run, runner) =>
      var job := s.creating[token];
      s.(active := (s.active - {Reservation(token)})[Run(run) := Runner(job, runner)], creating := s.creating - {token},
         runs := s.runs[run := job], runners := s.runners[runner := run], installed := s.installed + {runner})
    case Begin(runner) => // even if the run was cancelled meanwhile
      s.(installed := s.installed - {runner}, executing := s.executing + {runner})
    case Finish(runner) =>
      s.(executing := s.executing - {runner}, finishing := s.finishing[runner := false])
    case WriteStatus(runner) =>
      s.(finishing := s.finishing[runner := true], terminal := s.terminal + {s.runners[runner]})
    case Delete(runner) => // by run identifier, whichever runner is entered
      s.(finishing := s.finishing - {runner}, active := s.active - {Run(s.runners[runner])})
    case Cancel(run) => // a runner that has not started has no context to cancel
      s.(active := s.active - {Run(run)}, executing := s.executing - Holder(s.active, run))
    case MarkCancelled(run) => s.(terminal := s.terminal + {run})
    case Rebuild(run, runner, _) => // the old runner is cancelled likewise, nothing is counted
      s.(active := s.active[Run(run) := Runner(s.runs[run], runner)], runners := s.runners[runner := run],
         executing := s.executing - Holder(s.active, run), installed := s.installed + {runner}, terminal := s.terminal - {run})
  }

  function Cap(cap: map<JobId, int>, job: JobId): int { if job in cap then cap[job] else 0 }

  /** events lead from states[0] through states. */
  ghost predicate Leads(cap: map<JobId, int>, states: seq<State>, events: seq<Event>) {
    && |states| == |events| + 1
    && forall i {:trigger events[i]} :: 0 <= i < |events| ==>
         Enabled(states[i], events[i]) && states[i + 1] == Next(cap, states[i], events[i])
  }

  ghost predicate Execution(cap: map<JobId, int>, states: seq<State>, events: seq<Event>) {
    Leads(cap, states, events) && states[0] == START
  }

  // ---------------------------------------------------------------------------------------------
  // What holds whatever is rebuilt when
  // ---------------------------------------------------------------------------------------------

  /** An entry belongs to a CreateRun call in progress, or to a runner that is to start,
      executes or finishes. */
  predicate Owned(s: State, k: Key) {
    match k
    case Reservation(t) =>
      (k in s.active <==> t in s.creating) && (k in s.active ==> s.active[k] == Placeholder(s.creating[t]) && t in s.tokens)
    case Run(r) =>
      k in s.active ==>
        && s.active[k].Runner? && r in s.runs && s.active[k].job == s.runs[r]
        && s.active[k].id in s.runners && s.runners[s.active[k].id] == r
        && (Live(s, s.active[k].id) || s.active[k].id in s.finishing)
  }

  predicate Known(s: State, k: nat) {
    && (Live(s, k) || k in s.finishing ==> k in s.runners)
    && (k in s.runners ==> s.runners[k] in s.runs)
    && !(k in s.installed && k in s.executing) && !(Live(s, k) && k in s.finishing)
  }

  /** The runner executes or is going to. */
  predicate Live(s: State, k: nat) { k in s.installed || k in s.executing }

  ghost predicate Basic(s: State) {
    && (forall k {:trigger Owned(s, k)} :: Owned(s, k))
    && (forall k {:trigger Known(s, k)} :: Known(s, k))
  }

  lemma NextKeepsOwned(cap: map<JobId, int>, s: State, e: Event, k: Key)
    requires Enabled(s, e) && Basic(s)
    ensures Owned(Next(cap, s, e), k)
  {
    assert Owned(s, k);
    if e.Reserve? || e.Install? { assert Owned(s, Reservation(e.token)); }
    if k.Run? && k in s.active && s.active[k].Runner? { assert Known(s, s.active[k].id); }
    if e.Cancel? || e.Rebuild? { assert Owned(s, Run(e.run)); }
  }

  lemma NextKeepsKnown(cap: map<JobId, int>, s: State, e: Event, k: nat)
    requires Enabled(s, e) && Basic(s)
    ensures Known(Next(cap, s, e), k)
  {
    assert Known(s, k);
  }

  lemma NextKeepsBasic(cap: map<JobId, int>, s: State, e: Event)
    requires Enabled(s, e) && Basic(s)
    ensures Basic(Next(cap, s, e))
  {
    forall k ensures Owned(Next(cap, s, e), k) { NextKeepsOwned(cap, s, e, k); }
    forall k ensures Known(Next(cap, s, e), k) { NextKeepsKnown(cap, s, e, k); }
    hide Owned, Known;
  }

  // ---------------------------------------------------------------------------------------------
  // What holds as long as rebuilds keep out of the way
  // ---------------------------------------------------------------------------------------------

  predicate Mine(s: State, k: nat, job: JobId) {
    k in s.runners && s.runners[k] in s.runs && s.runs[s.runners[k]] == job
  }

  /** The runner is the one entered for its run, so that CancelRun finds it. */
  predicate Held(s: State, k: nat) {
    k in s.runners && Holder(s.active, s.runners[k]) == {k}
  }

  /** A rebuild of one of the job's runs finds that run still entered or a slot free, and no earlier
      runner of the run is still in its completion callback; and a rebuild or cancellation finds
      the runner it cancels started. */
  ghost predicate Polite(cap: map<JobId, int>, s: State, e: Event, job: JobId) {
    (e.Rebuild? || e.Cancel?) && e.run in s.runs && s.runs[e.run] == job ==>
      && (e.Rebuild? ==> Run(e.run) in s.active || !AtCap(s.active, job, Cap(cap, job)))
      && (e.Rebuild? ==> forall k :: k in s.finishing && k in s.runners ==> s.runners[k] != e.run)
      && Holder(s.active, e.run) !! s.installed
  }

  /** What the cap is for: the job's entries are within it, and every live runner has one. */
  ghost predicate Sound(cap: map<JobId, int>, s: State, job: JobId) {
    && WithinCap(s.active, job, Cap(cap, job))
    && (forall k {:trigger Held(s, k)} :: Live(s, k) && Mine(s, k, job) ==> Held(s, k))
  }

  /** No runner of the job is live while another runner of its run finishes. */
  ghost predicate Apart(s: State, job: JobId) {
    forall k, j {:trigger Mine(s, k, job), s.finishing[j]} ::
      Live(s, k) && Mine(s, k, job) && j in s.finishing && j in s.runners ==> s.runners[j] != s.runners[k]
  }

  lemma SwapKeepsCount(a: set<Key>, b: set<Key>, k: Key, r: Key)
    requires k in a && b <= a - {k} + {r}
    ensures |b| <= |a|
  {
    SubsetSize(b, a - {k} + {r});
  }

  /** A step takes at most one new slot of a job, and only below the cap. */
  lemma NextKeepsCap(cap: map<JobId, int>, s: State, e: Event, job: JobId)
    requires Enabled(s, e) && Basic(s) && WithinCap(s.active, job, Cap(cap, job))
    requires e.Rebuild? && s.runs[e.run] == job ==> Run(e.run) in s.active || !AtCap(s.active, job, Cap(cap, job))
    ensures WithinCap(Next(cap, s, e).active, job, Cap(cap, job))
  {
    var a, b := Slots(s.active, job), Slots(Next(cap, s, e).active, job);
    if e.Install? { assert Owned(s, Reservation(e.token)); }
    if e.Rebuild? { assert Owned(s, Run(e.run)); }
    hide Basic, Owned;
    match e {
      case Reserve(token, j) =>
        if j == job && !AtCap(s.active, job, Cap(cap, job)) {
          assert b <= a + {Reservation(token)};
          SubsetSize(b, a + {Reservation(token)});
        } else {
          assert b <= a;
          SubsetSize(b, a);
        }
      case Install(token, run, _) =>
        if s.creating[token] == job {
          SwapKeepsCount(a, b, Reservation(token), Run(run));
        } else {
          assert b <= a;
          SubsetSize(b, a);
        }
      case Rebuild(run, _, _) =>
        if s.runs[run] == job && Run(run) !in s.active {
          assert b <= a + {Run(run)};
          SubsetSize(b, a + {Run(run)});
        } else {
          assert b <= a;
          SubsetSize(b, a);
        }
      case _ =>
        assert b <= a;
        SubsetSize(b, a);
    }
  }

  lemma NextKeepsHeld(cap: map<JobId, int>, s: State, e: Event, job: JobId, k: nat)
    requires Enabled(s, e) && Basic(s) && Sound(cap, s, job) && Apart(s, job)
    requires Polite(cap, s, e, job) && Live(Next(cap, s, e), k) && Mine(Next(cap, s, e), k, job)
    ensures Held(Next(cap, s, e), k)
  {
    assert Known(s, k);
    if Live(s, k) {
      assert Mine(s, k, job) && Held(s, k);
      if e.Install? || e.Rebuild? { assert Owned(s, Run(e.run)); }
      if e.Delete? { assert s.finishing[e.runner]; }
    }
    hide Basic, Sound, Apart, AtCap;
  }

  lemma NextKeepsApart(cap: map<JobId, int>, s: State, e: Event, job: JobId)
    requires Enabled(s, e) && Basic(s) && Sound(cap, s, job) && Apart(s, job) && Polite(cap, s, e, job)
    ensures Apart(Next(cap, s, e), job)
  {
    var t := Next(cap, s, e);
    forall k, j | Live(t, k) && Mine(t, k, job) && j in t.finishing && j in t.runners
      ensures t.runners[j] != t.runners[k]
    {
      assert Known(s, k) && Known(s, j);
      if Live(s, k) {
        assert Mine(s, k, job) && Held(s, k);
        if e == Finish(j) { assert Mine(s, j, job) ==> Held(s, j); }
        if j in s.finishing { assert s.finishing[j] || !s.finishing[j]; }
      }
    }
  }

  lemma NextKeepsSound(cap: map<JobId, int>, s: State, e: Event, job: JobId)
    requires Enabled(s, e) && Basic(s) && Sound(cap, s, job) && Apart(s, job) && Polite(cap, s, e, job)
    ensures Sound(cap, Next(cap, s, e), job) && Apart(Next(cap, s, e), job)
  {
    var t := Next(cap, s, e);
    NextKeepsCap(cap, s, e, job);
    NextKeepsApart(cap, s, e, job);
    forall k | Live(t, k) && Mine(t, k, job) ensures Held(t, k) { NextKeepsHeld(cap, s, e, job, k); }
    hide Basic, Apart, Polite, Held, Mine, WithinCap;
  }

  // ---------------------------------------------------------------------------------------------
  // The object
  // ---------------------------------------------------------------------------------------------

  /** The orchestrator's map, with the state of the protocol around it. */
  class Orchestrator {
    var activeRuns: ActiveRuns
    ghost const cap: map<JobId, int>
    ghost var world: State

    ghost predicate Valid()
      reads this
    {
      activeRuns == world.active && Basic(world)
    }

    constructor (ghost cap: map<JobId, int>)
      ensures Valid() && world == START && this.cap == cap
    {
      activeRuns, this.cap, world := map[], cap, START;
    }

    ghost method Step(e: Event)
      requires Basic(world) && Enabled(world, e)
      modifies this`world
      ensures world == Next(cap, old(world), e) && Basic(world)
    {
      NextKeepsBasic(cap, world, e);
      world := Next(cap, world, e);
    }

    method CountActiveRunsForJob(job: JobId) returns (count: nat)
      ensures count == |Slots(activeRuns, job)| == |set k | k in activeRuns && activeRuns[k].job == job|
    {
      count := 0;
      var rest := activeRuns.Keys;
      ghost var seen: set<Key> := {};
      while rest != {}
        invariant rest <= activeRuns.Keys
        invariant seen == set k | k in activeRuns.Keys - rest && activeRuns[k].job == job
        invariant count == |seen|
        decreases |rest|
      {
        var k :| k in rest;
        if activeRuns[k].job == job {
          count := count + 1;
          seen := seen + {k};
        }
        rest := rest - {k};
      }
      assert seen == Slots(activeRuns, job);
    }

    /** False is ErrMaxConcurrentRuns. */
    method ReserveSlot(token: nat, job: JobId, maxConcurrentRuns: int) returns (ok: bool)
      requires Valid() && Enabled(world, Reserve(token, job)) && maxConcurrentRuns == Cap(cap, job)
      modifies this
      ensures Valid() && world == Next(cap, old(world), Reserve(token, job))
      ensures ok <==> token in world.creating
      ensures ok <==> maxConcurrentRuns <= 0 || |set k | k in old(activeRuns) && old(activeRuns)[k].job == job| < maxConcurrentRuns
      ensures activeRuns == if ok then old(activeRuns)[Reservation(token) := Placeholder(job)] else old(activeRuns)
    {
      assert Owned(world, Reservation(token));
      hide Basic;
      var activeCount := CountActiveRunsForJob(job);
      ok := !(maxConcurrentRuns > 0 && activeCount >= maxConcurrentRuns);
      Step(Reserve(token, job));
      if ok { activeRuns := activeRuns[Reservation(token) := Placeholder(job)]; }
    }

    method RemoveReservation(token: nat)
      requires Valid() && Enabled(world, CreationFails(token))
      modifies this
      ensures Valid() && world == Next(cap, old(world), CreationFails(token))
      ensures activeRuns == old(activeRuns) - {Reservation(token)}
    {
      hide Basic;
      Step(CreationFails(token));
      activeRuns := activeRuns - {Reservation(token)};
    }

    method InstallRunner(token: nat, run: RunId, job: JobId, runner: nat)
      requires Valid() && Enabled(world, Install(token, run, runner)) && job == world.creating[token]
      modifies this
      ensures Valid() && world == Next(cap, old(world), Install(token, run, runner))
      ensures activeRuns == (old(activeRuns) - {Reservation(token)})[Run(run) := Runner(job, runner)]
    {
      hide Basic;
      Step(Install(token, run, runner));
      activeRuns := activeRuns - {Reservation(token)};
      activeRuns := activeRuns[Run(run) := Runner(job, runner)];
    }

    /** The locked section of a runner's completion callback. */
    method RemoveRun(run: RunId, ghost runner: nat)
      requires Valid() && Enabled(world, Delete(runner)) && run == world.runners[runner]
      modifies this
      ensures Valid() && world == Next(cap, old(world), Delete(runner))
      ensures activeRuns == old(activeRuns) - {Run(run)}
    {
      hide Basic;
      Step(Delete(runner));
      activeRuns := activeRuns - {Run(run)};
    }

    /** The locked section of CancelRun; the runner found is cancelled. */
    method TakeRun(run: RunId) returns (found: Option<nat>)
      requires Valid()
      modifies this
      ensures Valid() && world == Next(cap, old(world), Cancel(run))
      ensures activeRuns == old(activeRuns) - {Run(run)} && (found.Some? <==> Run(run) in old(activeRuns))
      ensures world.executing == old(world).executing - (if found.Some? then {found.value} else {})
      ensures found.Some? ==> old(activeRuns)[Run(run)].Runner? && old(activeRuns)[Run(run)].id == found.value
    {
      assert Owned(world, Run(run));
      hide Basic;
      found := None;
      if Run(run) in activeRuns { found := Some(activeRuns[Run(run)].id); }
      Step(Cancel(run));
      activeRuns := activeRuns - {Run(run)};
    }

    /** The locked section of a rebuild; the runner found is cancelled. */
    method ReplaceRunner(run: RunId, job: JobId, runner: nat, ghost repair: bool) returns (found: Option<nat>)
      requires Valid() && Enabled(world, Rebuild(run, runner, repair)) && job == world.runs[run]
      modifies this
      ensures Valid() && world == Next(cap, old(world), Rebuild(run, runner, repair))
      ensures activeRuns == old(activeRuns)[Run(run) := Runner(job, runner)] && (found.Some? <==> Run(run) in old(activeRuns))
      ensures found.Some? ==> old(activeRuns)[Run(run)].Runner? && old(activeRuns)[Run(run)].id == found.value
      ensures world.executing == old(world).executing - (if found.Some? then {found.value} else {})
      ensures world.installed == old(world).installed + {runner}
    {
      assert Owned(world, Run(run));
      hide Basic;
      found := None;
      if Run(run) in activeRuns { found := Some(activeRuns[Run(run)].id); }
      Step(Rebuild(run, runner, repair));
      activeRuns := activeRuns[Run(run) := Runner(job, runner)];
    }
  }

  // ---------------------------------------------------------------------------------------------
  // What every run of the protocol guarantees
  // ---------------------------------------------------------------------------------------------

  lemma {:induction false} ExecutionBasic(cap: map<JobId, int>, states: seq<State>, events: seq<Event>, i: nat)
    requires Leads(cap, states, events) && i <= |events| && Basic(states[0])
    ensures Basic(states[i])
  {
    if i > 0 {
      ExecutionBasic(cap, states, events, i - 1);
      NextKeepsBasic(cap, states[i - 1], events[i - 1]);
    }
  }

  lemma StartIsBasic()
    ensures Basic(START)
  {
  }

  /** No slot leaks: each entry belongs to a CreateRun call still in progress, or to a runner that
      is to start, executes, or is in its completion callback. A failed creation leaves none. */
  lemma SlotsAreOwned(cap: map<JobId, int>, states: seq<State>, events: seq<Event>, i: nat, k: Key)
    requires Execution(cap, states, events) && i <= |events|
    ensures Owned(states[i], k)
  {
    StartIsBasic();
    ExecutionBasic(cap, states, events, i);
  }

  /** Everything that uses up the job's capacity: calls in progress and live runners. */
  datatype Unit = Creating(token: nat) | Executing(runner: nat)

  ghost function Load(s: State, job: JobId): set<Unit> {
    (set t | t in s.creating && s.creating[t] == job :: Creating(t))
    + (set k | k in s.runners && Live(s, k) && Mine(s, k, job) :: Executing(k))
  }

  /** The entry that stands for a unit. */
  ghost function EntryOf(s: State, u: Unit): Key {
    match u
    case Creating(t) => Reservation(t)
    case Executing(k) => Run(if k in s.runners then s.runners[k] else "")
  }

  lemma EntryIsSlot(cap: map<JobId, int>, s: State, job: JobId, u: Unit)
    requires Basic(s) && Sound(cap, s, job) && u in Load(s, job)
    ensures EntryOf(s, u) in Slots(s.active, job)
    ensures u.Executing? ==> s.active[EntryOf(s, u)] == Runner(job, u.runner)
  {
    assert Owned(s, EntryOf(s, u));
    if u.Executing? { assert Held(s, u.runner); }
  }

  lemma {:induction false} LoadFits(cap: map<JobId, int>, s: State, job: JobId, units: set<Unit>)
    requires Basic(s) && Sound(cap, s, job) && units <= Load(s, job)
    ensures |units| == |set u | u in units :: EntryOf(s, u)|
  {
    if units == {} {
      assert (set u | u in units :: EntryOf(s, u)) == {};
    } else {
      var v :| v in units;
      LoadFits(cap, s, job, units - {v});
      EntryIsSlot(cap, s, job, v);
      hide Basic, Sound, Load;
      forall u | u in units && u != v ensures EntryOf(s, u) != EntryOf(s, v) { EntryIsSlot(cap, s, job, u); }
      assert (set u | u in units :: EntryOf(s, u)) == (set u | u in units - {v} :: EntryOf(s, u)) + {EntryOf(s, v)};
    }
  }

  /** Where entries are within the cap and every live runner has one, calls in progress and live
      runners together are within it. */
  lemma SoundMeansCapped(cap: map<JobId, int>, s: State, job: JobId)
    requires Basic(s) && Sound(cap, s, job) && Cap(cap, job) > 0
    ensures |Load(s, job)| <= Cap(cap, job)
  {
    LoadFits(cap, s, job, Load(s, job));
    var entries := set u | u in Load(s, job) :: EntryOf(s, u);
    forall u | u in Load(s, job) ensures EntryOf(s, u) in Slots(s.active, job) { EntryIsSlot(cap, s, job, u); }
    SubsetSize(entries, Slots(s.active, job));
  }

  lemma {:induction false} PoliteStaysSound(cap: map<JobId, int>, states: seq<State>, events: seq<Event>, i: nat, job: JobId)
    requires Leads(cap, states, events) && i <= |events|
    requires Basic(states[0]) && Sound(cap, states[0], job) && Apart(states[0], job)
    requires forall j :: 0 <= j < i ==> Polite(cap, states[j], events[j], job)
    ensures Sound(cap, states[i], job) && Apart(states[i], job)
  {
    if i > 0 {
      PoliteStaysSound(cap, states, events, i - 1, job);
      ExecutionBasic(cap, states, events, i - 1);
      NextKeepsSound(cap, states[i - 1], events[i - 1], job);
    }
  }

  lemma StartIsSound(cap: map<JobId, int>, job: JobId)
    ensures Basic(START) && Sound(cap, START, job) && Apart(START, job)
  {
    assert Slots(map[], job) == {};
  }

  /** As long as rebuilds and cancellations are polite, the job's calls in progress and live runners
      never exceed its cap, and CancelRun finds every live runner, over all interleavings of
      CreateRun, starts, completions in three phases, cancellations and rebuilds. */
  lemma CapHolds(cap: map<JobId, int>, states: seq<State>, events: seq<Event>, i: nat, job: JobId)
    requires Execution(cap, states, events) && i <= |events|
    requires forall j :: 0 <= j < i ==> Polite(cap, states[j], events[j], job)
    ensures job in cap && cap[job] > 0 ==> |Load(states[i], job)| <= cap[job]
    ensures forall k :: Live(states[i], k) && Mine(states[i], k, job) ==> Held(states[i], k)
  {
    StartIsSound(cap, job);
    PoliteStaysSound(cap, states, events, i, job);
    ExecutionBasic(cap, states, events, i);
    if Cap(cap, job) > 0 { SoundMeansCapped(cap, states[i], job); }
  }

  // ---------------------------------------------------------------------------------------------
  // Politeness is needed
  // ---------------------------------------------------------------------------------------------

  /** A polite continuation from s. */
  ghost predicate Continues(cap: map<JobId, int>, s: State, states: seq<State>, events: seq<Event>, job: JobId) {
    && Leads(cap, states, events) && states[0] == s
    && forall j {:trigger events[j]} :: 0 <= j < |events| ==> Polite(cap, states[j], events[j], job)
  }

  ghost predicate StaysSound(cap: map<JobId, int>, s: State, job: JobId) {
    forall states, events :: Continues(cap, s, states, events, job) ==> Sound(cap, states[|events|], job)
  }

  /** A step is safe, in the sense that everything stays sound however things go on politely,
      exactly if it is polite; and that can be seen before the step. */
  lemma SafeIffPolite(cap: map<JobId, int>, s: State, e: Event, job: JobId)
    requires Basic(s) && Sound(cap, s, job) && Apart(s, job) && Enabled(s, e)
    ensures Polite(cap, s, e, job) <==> StaysSound(cap, Next(cap, s, e), job)
  {
    var t := Next(cap, s, e);
    NextKeepsBasic(cap, s, e);
    if Polite(cap, s, e, job) {
      NextKeepsSound(cap, s, e, job);
      forall states, events | Continues(cap, t, states, events, job) ensures Sound(cap, states[|events|], job) {
        PoliteStaysSound(cap, states, events, |events|, job);
      }
    } else {
      ImpoliteLeads(cap, s, e, job);
    }
  }

  lemma ImpoliteLeads(cap: map<JobId, int>, s: State, e: Event, job: JobId)
    requires Basic(s) && Sound(cap, s, job) && Apart(s, job) && Enabled(s, e) && !Polite(cap, s, e, job)
    ensures !StaysSound(cap, Next(cap, s, e), job)
  {
    var t := Next(cap, s, e);
    assert Owned(s, Run(e.run));
    if k :| k in Holder(s.active, e.run) && k in s.installed {
      UnstartedIsLost(cap, s, e, job, k);
    } else if e.Rebuild? && Run(e.run) !in s.active && AtCap(s.active, job, Cap(cap, job)) {
      assert Slots(t.active, job) == Slots(s.active, job) + {Run(e.run)};
      assert !Sound(cap, t, job);
    } else {
      var k :| k in s.finishing && k in s.runners && s.runners[k] == e.run;
      FinisherEvicts(cap, s, e, job, k);
      return;
    }
    assert Continues(cap, t, [t], [], job);
  }

  /** The runner was cancelled in vain, and is not entered any more. */
  lemma UnstartedIsLost(cap: map<JobId, int>, s: State, e: Event, job: JobId, k: nat)
    requires Basic(s) && Enabled(s, e) && (e.Rebuild? || e.Cancel?) && e.run in s.runs && s.runs[e.run] == job
    requires k in Holder(s.active, e.run) && k in s.installed
    ensures !Sound(cap, Next(cap, s, e), job)
  {
    assert Owned(s, Run(e.run)) && Known(s, k);
    var t := Next(cap, s, e);
    assert Live(t, k) && Mine(t, k, job) && !Held(t, k);
  }

  /** The earlier runner's delete takes the new runner's entry away. */
  lemma FinisherEvicts(cap: map<JobId, int>, s: State, e: Event, job: JobId, k: nat)
    requires Basic(s) && Enabled(s, e) && e.Rebuild? && s.runs[e.run] == job
    requires k in s.finishing && k in s.runners && s.runners[k] == e.run
    ensures !StaysSound(cap, Next(cap, s, e), job)
  {
    var t := Next(cap, s, e);
    assert Known(s, k) && k != e.runner;
    var states, events := [t], [];
    assert Continues(cap, t, states, events, job);
    if !t.finishing[k] { states, events := Extend(cap, t, states, events, WriteStatus(k), job); }
    states, events := Extend(cap, t, states, events, Delete(k), job);
    var u := states[|events|];
    assert Live(u, e.runner) && Mine(u, e.runner, job) && !Held(u, e.runner);
  }

  lemma Extend(cap: map<JobId, int>, s: State, states: seq<State>, events: seq<Event>, e: Event, job: JobId)
    returns (longer: seq<State>, more: seq<Event>)
    requires Continues(cap, s, states, events, job) && Enabled(states[|events|], e) && Polite(cap, states[|events|], e, job)
    ensures longer == states + [Next(cap, states[|events|], e)] && more == events + [e]
    ensures Continues(cap, s, longer, more, job)
  {
    longer, more := states + [Next(cap, states[|events|], e)], events + [e];
  }

  // Each kind of impoliteness happens. The job has room for one run.

  /** A finished run is rebuilt while another run of its job is live. */
  lemma RebuildExceedsCap() returns (states: seq<State>, events: seq<Event>)
    ensures Execution(map["job" := 1], states, events)
    ensures |Load(states[|events|], "job")| > 1
  {
    var cap: map<JobId, int> := map["job" := 1];
    assert "new"[0] != "old"[0];
    states, events := OneRunDone(cap, "job", "old");
    states, events := Append(cap, states, events, Delete(0));
    assert states[|events|].active == map[];
    states, events := NewRun(cap, states, events, "job", 1, "new", 1);
    states, events := Append(cap, states, events, Rebuild("old", 2, true));
    TwoUnits(states[|events|], "job", 1, 2);
  }

  /** A run is repaired between the write of its terminal status and the delete of its entry: the
      delete takes the new runner's entry, CancelRun does not find that runner, and CreateRun
      goes past the cap. */
  lemma LateDeleteExceedsCap() returns (states: seq<State>, events: seq<Event>)
    ensures Execution(map["job" := 1], states, events)
    ensures |Load(states[|events|], "job")| > 1
    ensures 1 in states[|events|].installed && !Held(states[|events|], 1)
  {
    var cap: map<JobId, int> := map["job" := 1];
    assert "new"[0] != "old"[0];
    states, events := OneRunDone(cap, "job", "old");
    states, events := Append(cap, states, events, Rebuild("old", 1, true));
    states, events := Append(cap, states, events, Delete(0));
    assert states[|events|].active == map[];
    states, events := NewRun(cap, states, events, "job", 1, "new", 2);
    TwoUnits(states[|events|], "job", 1, 2);
  }

  /** A run is cancelled between its installation and its start, and starts all the same. */
  lemma EarlyCancelExceedsCap() returns (states: seq<State>, events: seq<Event>)
    ensures Execution(map["job" := 1], states, events)
    ensures |Load(states[|events|], "job")| > 1
  {
    var cap: map<JobId, int> := map["job" := 1];
    assert "new"[0] != "old"[0];
    states, events := NewRun(cap, [START], [], "job", 0, "old", 0);
    states, events := Append(cap, states, events, Cancel("old"));
    assert states[|events|].active == map[];
    states, events := Append(cap, states, events, Begin(0));
    states, events := NewRun(cap, states, events, "job", 1, "new", 1);
    TwoUnits(states[|events|], "job", 0, 1);
  }

  /** CreateRun when no slot is taken. */
  lemma NewRun(cap: map<JobId, int>, states: seq<State>, events: seq<Event>, job: JobId, token: nat, run: RunId, runner: nat)
    returns (longer: seq<State>, more: seq<Event>)
    requires Execution(cap, states, events) && Cap(cap, job) == 1
    requires var s := states[|events|]; s.active == map[] && s.creating == map[] && token !in s.tokens && run !in s.runs && runner !in s.runners
    ensures Execution(cap, longer, more)
    ensures var s := states[|events|];
      longer[|more|] == s.(active := map[Run(run) := Runner(job, runner)], tokens := s.tokens + {token},
        runs := s.runs[run := job], runners := s.runners[runner := run], installed := s.installed + {runner})
  {
    assert Slots(map[], job) == {};
    longer, more := Append(cap, states, events, Reserve(token, job));
    longer, more := Append(cap, longer, more, Install(token, run, runner));
  }

  /** A run that has ended and written its status, its entry not yet deleted. */
  lemma OneRunDone(cap: map<JobId, int>, job: JobId, run: RunId) returns (states: seq<State>, events: seq<Event>)
    requires Cap(cap, job) == 1
    ensures Execution(cap, states, events)
    ensures states[|events|] == State(map[Run(run) := Runner(job, 0)], map[], {0}, map[run := job], map[0 := run], {}, {}, map[0 := true], {run})
  {
    states, events := NewRun(cap, [START], [], job, 0, run, 0);
    states, events := Append(cap, states, events, Begin(0));
    states, events := Append(cap, states, events, Finish(0));
    states, events := Append(cap, states, events, WriteStatus(0));
  }

  lemma TwoUnits(s: State, job: JobId, a: nat, b: nat)
    requires a != b && a in s.runners && b in s.runners && Live(s, a) && Live(s, b) && Mine(s, a, job) && Mine(s, b, job)
    ensures |Load(s, job)| > 1
  {
    SubsetSize({Executing(a), Executing(b)}, Load(s, job));
  }

  lemma Append(cap: map<JobId, int>, states: seq<State>, events: seq<Event>, e: Event) returns (longer: seq<State>, more: seq<Event>)
    requires Execution(cap, states, events) && Enabled(states[|events|], e)
    ensures longer == states + [Next(cap, states[|events|], e)] && more == events + [e]
    ensures Execution(cap, longer, more)
  {
    longer, more := states + [Next(cap, states[|events|], e)], events + [e];
  }

  // ---------------------------------------------------------------------------------------------
  // The protocol by its history: where a runner is, is told by the steps taken so far
  // ---------------------------------------------------------------------------------------------

  /** A runner is to start until it begins, executes at most until it has heard its last callback, and
      then finishes: its status is written first, and its run's entry deleted after that. */
  ghost predicate ToldByRunner(s: State, past: seq<Event>, k: nat) {
    && (k in s.installed <==> k in s.runners && Begin(k) !in past)
    && (k in s.executing ==> Begin(k) in past && Finish(k) !in past)
    && (k in s.finishing <==> Finish(k) in past && Delete(k) !in past)
    && (k in s.finishing ==> (s.finishing[k] <==> WriteStatus(k) in past))
    && (Begin(k) in past ==> k in s.runners)
    && (Finish(k) in past ==> Begin(k) in past)
    && (WriteStatus(k) in past ==> Finish(k) in past)
    && (Delete(k) in past ==> WriteStatus(k) in past)
  }

  lemma {:induction false} RunnerByHistory(cap: map<JobId, int>, states: seq<State>, events: seq<Event>, i: nat, k: nat)
    requires Execution(cap, states, events) && i <= |events|
    ensures ToldByRunner(states[i], events[..i], k)
  {
    hide Next, Enabled, ToldByRunner;
    if i > 0 {
      assert Enabled(states[i - 1], events[i - 1]);
      RunnerByHistory(cap, states, events, i - 1, k);
      PastGrows(events, i - 1);
      StepToldByRunner(cap, states[i - 1], events[i - 1], events[..i - 1], events[..i], k);
    } else {
      NothingTold(k);
    }
  }

  lemma NothingTold(k: nat)
    ensures ToldByRunner(START, [], k)
  {
  }

  lemma StepToldByRunner(cap: map<JobId, int>, s: State, e: Event, past: seq<Event>, more: seq<Event>, k: nat)
    requires Enabled(s, e) && ToldByRunner(s, past, k)
    requires forall x :: x in more <==> x in past || x == e
    ensures ToldByRunner(Next(cap, s, e), more, k)
  {
    hide AtCap, Cap;
  }

  /** The step cancels the context of runner k: it finds k entered for the run it is about. */
  predicate Strikes(s: State, e: Event, k: nat) {
    && (e.Cancel? || e.Rebuild?)
    && Run(e.run) in s.active && s.active[Run(e.run)].Runner? && s.active[Run(e.run)].id == k
  }

  /** What one step of an execution does to runners, runs and stored statuses. */
  lemma StepRule(cap: map<JobId, int>, states: seq<State>, events: seq<Event>, i: nat, k: nat, run: RunId)
    requires Execution(cap, states, events) && i < |events|
    ensures var s, e, t := states[i], events[i], states[i + 1];
      && (k in t.executing <==> e == Begin(k) || (k in s.executing && e != Finish(k) && !Strikes(s, e, k)))
      && (run in t.terminal <==>
            || e == MarkCancelled(run)
            || (e.WriteStatus? && e.runner in s.runners && s.runners[e.runner] == run)
            || (run in s.terminal && !(e.Rebuild? && e.run == run)))
      && t.runners == (if e.Install? || e.Rebuild? then s.runners[e.runner := e.run] else s.runners)
      && (e.Install? ==> e.token in s.creating && t.runs == s.runs[e.run := s.creating[e.token]])
      && (!e.Install? ==> t.runs == s.runs)
      && t.tokens == s.tokens + (if e.Reserve? then {e.token} else {})
      && (e.Begin? || e.Finish? || e.WriteStatus? || e.MarkCancelled? ==> t.active == s.active)
  {
    assert Enabled(states[i], events[i]);
    hide AtCap, Cap;
  }

  /** Which steps are possible: any string may be cancelled, any known run rebuilt by RetryStep, and a
      run with a terminal status by RepairRun. */
  lemma PossibleByHistory(cap: map<JobId, int>, states: seq<State>, events: seq<Event>, i: nat, k: nat, token: nat, run: RunId, job: JobId)
    requires Execution(cap, states, events) && i <= |events|
    ensures var s, past := states[i], events[..i];
      && (Enabled(s, Reserve(token, job)) <==> token !in s.tokens)
      && (Enabled(s, CreationFails(token)) <==> token in s.creating)
      && (Enabled(s, Install(token, run, k)) <==> token in s.creating && run !in s.runs && k !in s.runners)
      && (Enabled(s, Begin(k)) <==> k in s.runners && Begin(k) !in past)
      && (Enabled(s, Finish(k)) <==> k in s.executing)
      && (Enabled(s, WriteStatus(k)) <==> Finish(k) in past && WriteStatus(k) !in past)
      && (Enabled(s, Delete(k)) <==> WriteStatus(k) in past && Delete(k) !in past)
      && Enabled(s, Cancel(run))
      && (Enabled(s, MarkCancelled(run)) <==> run in s.runs)
      && (Enabled(s, Rebuild(run, k, false)) <==> run in s.runs && k !in s.runners)
      && (Enabled(s, Rebuild(run, k, true)) <==> run in s.runs && k !in s.runners && run in s.terminal)
  {
    RunnerByHistory(cap, states, events, i, k);
    StartIsBasic();
    ExecutionBasic(cap, states, events, i);
    assert Known(states[i], k);
    hide Execution, Basic, Next;
  }
}

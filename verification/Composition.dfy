/** Schedulers and the executor together: every scheduler hands the steps it launches to the one
    executor, and the executor's callbacks come back to that scheduler, each some time after the
    fact.  A run may get a new scheduler while steps of the old one are still in the executor's
    hands.  What the schedulers need of the executor holds in any case; what the executor needs of
    them holds as long as the schedulers of a run take turns at a session key. */
module Composition {
  import opened JobModel
  import opened RunMachine
  import RunInvariant
  import SessionExecutor

  type Exec = SessionExecutor.Exec

  /** A scheduler, by identity. */
  type RunnerId = nat

  /** What is fixed about a scheduler. One that has not started yet does nothing. */
  datatype Setup = Setup(run: string, job: Job, origin: Origin) {
    ghost predicate Valid() { job.Valid() && ValidOrigin(job, origin) }
  }

  type Setups = map<RunnerId, Setup>

  /** A scheduler's run, and its steps on the way to the executor and on the way back: launched but
      not yet given to ExecuteStep, and answered by a callback the scheduler has not processed. */
  datatype Part = Part(s: RunState, handing: set<StepId>, returned: set<StepId>)

  /** Whose step an execution is for. The callback goes to that scheduler. */
  datatype Purpose = Purpose(runner: RunnerId, step: StepId)

  datatype World = World(
    executor: SessionExecutor.State,
    parts: map<RunnerId, Part>,
    purpose: map<Exec, Purpose>)

  datatype Event =
    | Scheduler(runner: RunnerId, event: RunMachine.Event)
    | HandOver(runner: RunnerId, x: Exec, step: StepId)
    | Executor(action: SessionExecutor.Event)

  ghost predicate Initially(setups: Setups, w: World) {
    && w.executor == SessionExecutor.START && w.purpose == map[] && w.parts.Keys == setups.Keys
    && forall r :: r in setups ==> w.parts[r] == Part(Initial(setups[r].job, setups[r].origin), {}, {})
  }

  /** The steps a scheduler event launches. */
  function Launches(s: RunState, e: RunMachine.Event, t: RunState): set<StepId> {
    t.outstanding - (if e.Callback? then s.outstanding - {e.step} else s.outstanding)
  }

  /** The execution whose callback an executor event invokes. */
  function Answered(e: SessionExecutor.Event): Option<Exec> {
    match e
    case Invoke(x) => Some(x)
    case AnswerDirectly(x) => Some(x)
    case _ => None
  }

  ghost predicate SchedulerStep(setups: Setups, w: World, r: RunnerId, e: RunMachine.Event, u: World) {
    && r in setups && setups[r].Valid() && r in w.parts && r in u.parts && Shaped(setups[r].job, w.parts[r].s)
    && (e.Callback? ==> e.step in w.parts[r].returned)
    && RunMachine.Next(setups[r].job, w.parts[r].s, e, u.parts[r].s)
    && u == w.(parts := w.parts[r := Part(
         u.parts[r].s,
         w.parts[r].handing + Launches(w.parts[r].s, e, u.parts[r].s),
         if e.Callback? then w.parts[r].returned - {e.step} else w.parts[r].returned)])
  }

  ghost predicate HandOverStep(setups: Setups, w: World, r: RunnerId, x: Exec, step: StepId, u: World) {
    && r in setups && r in w.parts && x.run == setups[r].run && step in w.parts[r].handing && step in setups[r].job.config
    && (x.key == "" || x.key == setups[r].job.Key(step))
    && SessionExecutor.Enabled(w.executor, SessionExecutor.Launch(x))
    && u == World(SessionExecutor.Next(w.executor, SessionExecutor.Launch(x)),
                  w.parts[r := w.parts[r].(handing := w.parts[r].handing - {step})],
                  w.purpose[x := Purpose(r, step)])
  }

  ghost predicate ExecutorStep(w: World, e: SessionExecutor.Event, u: World) {
    && !e.Launch? && SessionExecutor.Enabled(w.executor, e)
    && (Answered(e).Some? ==> Returns(w, Answered(e).value))
    && u == World(SessionExecutor.Next(w.executor, e), Answer(w, Answered(e)), w.purpose)
  }

  ghost predicate Next(setups: Setups, w: World, e: Event, u: World) {
    && w.parts.Keys == setups.Keys == u.parts.Keys
    && match e
       case Scheduler(r, event) => SchedulerStep(setups, w, r, event, u)
       case HandOver(r, x, step) => HandOverStep(setups, w, r, x, step, u)
       case Executor(action) => ExecutorStep(w, action, u)
  }

  /** A callback that has been invoked is on its way to its scheduler. */
  function Answer(w: World, x: Option<Exec>): map<RunnerId, Part>
    requires x.Some? ==> Returns(w, x.value)
  {
    match x
    case None => w.parts
    case Some(x) =>
      var p := w.purpose[x];
      w.parts[p.runner := w.parts[p.runner].(returned := w.parts[p.runner].returned + {p.step})]
  }

  predicate Returns(w: World, x: Exec) { x in w.purpose && w.purpose[x].runner in w.parts }

  ghost predicate Execution(setups: Setups, worlds: seq<World>, events: seq<Event>) {
    && |worlds| == |events| + 1 && Initially(setups, worlds[0])
    && forall i {:trigger events[i]} :: 0 <= i < |events| ==> Next(setups, worlds[i], events[i], worlds[i + 1])
  }

  // ---------------------------------------------------------------------------------------------
  // The invariant
  // ---------------------------------------------------------------------------------------------

  /** The execution is in the executor's hands for this step of this scheduler. */
  ghost predicate Carries(w: World, x: Exec, r: RunnerId, step: StepId) {
    SessionExecutor.Open(w.executor, x) && x in w.purpose && w.purpose[x] == Purpose(r, step)
  }

  ghost predicate RunInv(setup: Setup, p: Part)
    requires setup.Valid()
  {
    && Inv(setup.job, setup.origin, p.s)
    && Exclusive(setup.job, p.s.outstanding)
    && p.handing + p.returned <= p.s.outstanding && p.handing !! p.returned
  }

  ghost predicate Made(setups: Setups, w: World, x: Exec) {
    x in w.purpose &&
    var p := w.purpose[x];
    && p.runner in setups && x.run == setups[p.runner].run && p.step in setups[p.runner].job.config
    && (x.key == "" || x.key == setups[p.runner].job.Key(p.step))
  }

  /** An execution in the executor's hands answers for a step that its scheduler waits for, and
      that is neither on its way there nor on its way back. */
  ghost predicate ExecInv(setups: Setups, w: World, x: Exec)
    requires w.parts.Keys == setups.Keys
  {
    && (x in w.executor.launched ==> Made(setups, w, x))
    && (SessionExecutor.Open(w.executor, x) && Returns(w, x) ==> Away(w.parts[w.purpose[x].runner], w.purpose[x].step))
  }

  predicate Away(p: Part, step: StepId) {
    step in p.s.outstanding && step !in p.handing && step !in p.returned
  }

  ghost predicate OneCarrier(w: World, x: Exec, y: Exec) {
    forall r, step {:trigger Carries(w, x, r, step)} :: Carries(w, x, r, step) && Carries(w, y, r, step) ==> x == y
  }

  /** A step its scheduler waits for is on its way to the executor, in its hands, or on its way back. */
  ghost predicate Covered(w: World, r: RunnerId, step: StepId)
    requires r in w.parts
  {
    step in w.parts[r].s.outstanding ==>
      step in w.parts[r].handing || step in w.parts[r].returned || exists x :: Carries(w, x, r, step)
  }

  ghost predicate WorldInv(setups: Setups, w: World) {
    && w.parts.Keys == setups.Keys
    && (forall r :: r in setups ==> setups[r].Valid())
    && (forall r {:trigger w.parts[r]} :: r in setups ==> RunInv(setups[r], w.parts[r]))
    && (forall x {:trigger ExecInv(setups, w, x)} :: ExecInv(setups, w, x))
    && (forall x, y {:trigger OneCarrier(w, x, y)} :: OneCarrier(w, x, y))
    && (forall r, step {:trigger Covered(w, r, step)} :: r in setups ==> Covered(w, r, step))
    && ExecutorInv(w.executor)
  }

  ghost predicate ExecutorInv(s: SessionExecutor.State) {
    forall x {:trigger SessionExecutor.OneChance(s, x)} :: SessionExecutor.OneChance(s, x)
  }

  lemma WorldFacts(setups: Setups, w: World)
    requires WorldInv(setups, w)
    ensures w.parts.Keys == setups.Keys && ExecutorInv(w.executor)
    ensures forall r :: r in setups ==> setups[r].Valid()
    ensures forall r {:trigger w.parts[r]} :: r in setups ==> RunInv(setups[r], w.parts[r])
  {
  }

  lemma WorldAssembles(setups: Setups, w: World)
    requires w.parts.Keys == setups.Keys && ExecutorInv(w.executor) && forall r :: r in setups ==> setups[r].Valid()
    requires forall r {:trigger w.parts[r]} :: r in setups ==> RunInv(setups[r], w.parts[r])
    requires forall x {:trigger ExecInv(setups, w, x)} :: ExecInv(setups, w, x)
    requires forall x, y {:trigger OneCarrier(w, x, y)} :: OneCarrier(w, x, y)
    requires forall r, step {:trigger Covered(w, r, step)} :: r in setups ==> Covered(w, r, step)
    ensures WorldInv(setups, w)
  {
  }

  // ---------------------------------------------------------------------------------------------
  // A scheduler moves
  // ---------------------------------------------------------------------------------------------

  lemma OutstandingMoves(setup: Setup, s: RunState, e: RunMachine.Event, t: RunState)
    requires setup.Valid() && Inv(setup.job, setup.origin, s) && RunMachine.Next(setup.job, s, e, t)
    requires Exclusive(setup.job, s.outstanding)
    ensures Inv(setup.job, setup.origin, t) && Exclusive(setup.job, t.outstanding)
    ensures (if e.Callback? then s.outstanding - {e.step} else s.outstanding) <= t.outstanding
  {
    RunInvariant.NextKeepsInv(setup.job, setup.origin, s, e, t);
    if t.stopped { assert t.outstanding <= s.outstanding; }
    hide StepInv, NoStarvation, Moved, Ready, Runnable, Bounded, ReportInv, Swept;
  }

  lemma SchedulerKeepsRun(setup: Setup, p: Part, e: RunMachine.Event, t: RunState)
    requires setup.Valid() && RunInv(setup, p) && Shaped(setup.job, p.s) && RunMachine.Next(setup.job, p.s, e, t)
    requires e.Callback? ==> e.step in p.returned
    ensures RunInv(setup, Part(t, p.handing + Launches(p.s, e, t), if e.Callback? then p.returned - {e.step} else p.returned))
  {
    hide Inv, RunMachine.Next, Exclusive, Shaped;
    OutstandingMoves(setup, p.s, e, t);
  }

  lemma SchedulerKeepsAway(setup: Setup, p: Part, e: RunMachine.Event, t: RunState, step: StepId)
    requires setup.Valid() && RunInv(setup, p) && Shaped(setup.job, p.s) && RunMachine.Next(setup.job, p.s, e, t)
    requires (e.Callback? ==> e.step in p.returned) && Away(p, step)
    ensures Away(Part(t, p.handing + Launches(p.s, e, t), if e.Callback? then p.returned - {e.step} else p.returned), step)
  {
    OutstandingMoves(setup, p.s, e, t);
    hide Inv, RunMachine.Next, Exclusive;
  }

  lemma SchedulerKeepsExec(setups: Setups, w: World, e: Event, u: World, x: Exec)
    requires WorldInv(setups, w) && e.Scheduler? && Next(setups, w, e, u)
    ensures ExecInv(setups, u, x)
  {
    assert ExecInv(setups, w, x);
    assert u.executor == w.executor && u.purpose == w.purpose;
    var p := w.parts[e.runner];
    assert RunInv(setups[e.runner], p);
    if x in w.purpose && Away(p, w.purpose[x].step) {
      SchedulerKeepsAway(setups[e.runner], p, e.event, u.parts[e.runner].s, w.purpose[x].step);
    }
    assert Returns(w, x) && w.purpose[x].runner != e.runner ==> u.parts[w.purpose[x].runner] == w.parts[w.purpose[x].runner];
    hide WorldInv, RunInv, RunMachine.Next, Shaped, Launches, Made, SessionExecutor.Open;
    assert Made(setups, u, x) == Made(setups, w, x) by { SameMade(setups, w, u, x); }
  }

  lemma SchedulerKeepsCovered(setups: Setups, w: World, e: Event, u: World, r: RunnerId, step: StepId)
    requires WorldInv(setups, w) && e.Scheduler? && Next(setups, w, e, u) && r in setups
    ensures Covered(u, r, step)
  {
    assert Covered(w, r, step);
    hide WorldInv, Inv, RunMachine.Next, Exclusive, Shaped;
    if x :| Carries(w, x, r, step) { assert Carries(u, x, r, step); }
  }

  lemma SchedulerKeepsInv(setups: Setups, w: World, e: Event, u: World)
    requires WorldInv(setups, w) && e.Scheduler? && Next(setups, w, e, u)
    ensures WorldInv(setups, u)
  {
    hide WorldInv, RunInv, ExecInv, OneCarrier, Covered, ExecutorInv, SchedulerStep;
    WorldFacts(setups, w);
    SchedulerLeavesExecutor(setups, w, e, u);
    forall x ensures ExecInv(setups, u, x) { SchedulerKeepsExec(setups, w, e, u, x); }
    forall r, step | r in setups ensures Covered(u, r, step) { SchedulerKeepsCovered(setups, w, e, u, r, step); }
    forall x, y ensures OneCarrier(u, x, y) { SchedulerKeepsCarrier(setups, w, e, u, x, y); }
    forall r | r in setups ensures RunInv(setups[r], u.parts[r]) { SchedulerKeepsRuns(setups, w, e, u, r); }
    WorldAssembles(setups, u);
  }

  lemma SchedulerLeavesExecutor(setups: Setups, w: World, e: Event, u: World)
    requires e.Scheduler? && Next(setups, w, e, u)
    ensures u.executor == w.executor
  {
  }

  lemma SchedulerKeepsRuns(setups: Setups, w: World, e: Event, u: World, r: RunnerId)
    requires WorldInv(setups, w) && e.Scheduler? && Next(setups, w, e, u) && r in setups
    ensures RunInv(setups[r], u.parts[r])
  {
    assert RunInv(setups[r], w.parts[r]);
    if r == e.runner { SchedulerKeepsRun(setups[r], w.parts[r], e.event, u.parts[r].s); }
    hide WorldInv, RunInv, RunMachine.Next, Shaped;
  }

  lemma SchedulerKeepsCarrier(setups: Setups, w: World, e: Event, u: World, x: Exec, y: Exec)
    requires WorldInv(setups, w) && e.Scheduler? && Next(setups, w, e, u)
    ensures OneCarrier(u, x, y)
  {
    assert OneCarrier(w, x, y);
    hide WorldInv, RunMachine.Next;
    assert u.executor == w.executor && u.purpose == w.purpose;
    forall r, step | Carries(u, x, r, step) && Carries(u, y, r, step) ensures x == y {
      assert Carries(w, x, r, step) && Carries(w, y, r, step);
    }
  }

  // ---------------------------------------------------------------------------------------------
  // A step is handed over
  // ---------------------------------------------------------------------------------------------

  /** No other scheduler of the run has a rival in the executor's hands. */
  ghost predicate TakesTurns(w: World, r: RunnerId, x: Exec) {
    forall y :: SessionExecutor.Open(w.executor, y) && y in w.purpose && w.purpose[y].runner != r ==> !SessionExecutor.Rivals(x, y)
  }

  /** A scheduler's session keys keep its own steps apart. */
  lemma OwnStepsAreExclusive(setups: Setups, w: World, r: RunnerId, x: Exec, step: StepId, y: Exec)
    requires WorldInv(setups, w) && r in setups && step in w.parts[r].handing && step in setups[r].job.config
    requires x.key == "" || x.key == setups[r].job.Key(step)
    requires SessionExecutor.Open(w.executor, y) && y in w.purpose && w.purpose[y].runner == r
    ensures !SessionExecutor.Rivals(x, y)
  {
    assert ExecInv(setups, w, y) && RunInv(setups[r], w.parts[r]);
    assert !Conflict(setups[r].job, step, w.purpose[y].step);
  }

  lemma HandOverOpens(s: SessionExecutor.State, x: Exec)
    requires ExecutorInv(s) && SessionExecutor.Enabled(s, SessionExecutor.Launch(x))
    ensures var t := SessionExecutor.Next(s, SessionExecutor.Launch(x));
      && t.launched == s.launched + {x} && SessionExecutor.Open(t, x) && !SessionExecutor.Open(s, x)
      && forall y :: y != x ==> SessionExecutor.Open(t, y) == SessionExecutor.Open(s, y)
  {
    assert SessionExecutor.OneChance(s, x);
    hide ExecutorInv;
  }

  lemma HandOverKeepsMade(setups: Setups, w: World, e: Event, u: World, y: Exec)
    requires e.HandOver? && Next(setups, w, e, u) && (y == e.x || Made(setups, w, y))
    ensures Made(setups, u, y)
  {
    hide SessionExecutor.Next, SessionExecutor.Enabled;
  }

  lemma HandOverKeepsAway(setups: Setups, w: World, e: Event, u: World, r: RunnerId, step: StepId)
    requires e.HandOver? && Next(setups, w, e, u) && r in w.parts
    requires Away(w.parts[r], step) || (r == e.runner && step == e.step && step in w.parts[r].s.outstanding && step !in w.parts[r].returned)
    ensures Away(u.parts[r], step)
  {
    hide SessionExecutor.Next, SessionExecutor.Enabled;
  }

  lemma HandOverKeepsExec(setups: Setups, w: World, e: Event, u: World, y: Exec)
    requires WorldInv(setups, w) && e.HandOver? && Next(setups, w, e, u)
    ensures ExecInv(setups, u, y)
  {
    HandOverOpens(w.executor, e.x);
    assert ExecInv(setups, w, y) && RunInv(setups[e.runner], w.parts[e.runner]);
    assert u.purpose == w.purpose[e.x := Purpose(e.runner, e.step)];
    assert u.executor == SessionExecutor.Next(w.executor, SessionExecutor.Launch(e.x)) && u.parts.Keys == w.parts.Keys;
    if y in u.executor.launched { HandOverKeepsMade(setups, w, e, u, y); }
    if SessionExecutor.Open(u.executor, y) && Returns(u, y) {
      HandOverKeepsAway(setups, w, e, u, u.purpose[y].runner, u.purpose[y].step);
    }
    hide WorldInv, RunInv, Made, Away, Next, SessionExecutor.Next, SessionExecutor.Enabled, SessionExecutor.Open;
  }

  lemma HandOverKeepsCarrier(setups: Setups, w: World, e: Event, u: World, y: Exec, z: Exec)
    requires WorldInv(setups, w) && e.HandOver? && Next(setups, w, e, u)
    ensures OneCarrier(u, y, z)
  {
    HandOverOpens(w.executor, e.x);
    assert OneCarrier(w, y, z) && ExecInv(setups, w, y) && ExecInv(setups, w, z);
    hide WorldInv, SessionExecutor.Next, SessionExecutor.Enabled, SessionExecutor.Open;
    forall r, step | Carries(u, y, r, step) && Carries(u, z, r, step) ensures y == z {
      assert y != e.x ==> Carries(w, y, r, step);
      assert z != e.x ==> Carries(w, z, r, step);
    }
  }

  lemma HandOverParts(setups: Setups, w: World, e: Event, u: World, r: RunnerId, step: StepId)
    requires e.HandOver? && Next(setups, w, e, u) && r in w.parts
    ensures r in u.parts && u.parts[r].s == w.parts[r].s && u.parts[r].returned == w.parts[r].returned
    ensures step in w.parts[r].handing && !(r == e.runner && step == e.step) ==> step in u.parts[r].handing
    ensures u.purpose == w.purpose[e.x := Purpose(e.runner, e.step)]
    ensures u.executor == SessionExecutor.Next(w.executor, SessionExecutor.Launch(e.x))
    ensures SessionExecutor.Enabled(w.executor, SessionExecutor.Launch(e.x))
  {
    hide SessionExecutor.Next, SessionExecutor.Enabled;
  }

  lemma HandOverCovers(w: World, x: Exec, given: Purpose, u: World, r: RunnerId, step: StepId)
    requires r in w.parts && r in u.parts && u.parts[r].s == w.parts[r].s && u.parts[r].returned == w.parts[r].returned
    requires step in w.parts[r].handing && given != Purpose(r, step) ==> step in u.parts[r].handing
    requires u.purpose == w.purpose[x := given] && SessionExecutor.Open(u.executor, x) && !SessionExecutor.Open(w.executor, x)
    requires forall y :: y != x ==> SessionExecutor.Open(u.executor, y) == SessionExecutor.Open(w.executor, y)
    requires Covered(w, r, step)
    ensures Covered(u, r, step)
  {
    hide SessionExecutor.Open;
    if given == Purpose(r, step) {
      assert Carries(u, x, r, step);
    } else if y :| Carries(w, y, r, step) {
      assert y != x;
      assert Carries(u, y, r, step);
    }
  }

  lemma HandOverKeepsCovered(setups: Setups, w: World, e: Event, u: World, r: RunnerId, step: StepId)
    requires WorldInv(setups, w) && e.HandOver? && Next(setups, w, e, u) && r in setups
    ensures Covered(u, r, step)
  {
    assert Covered(w, r, step);
    HandOverOpens(w.executor, e.x);
    HandOverParts(setups, w, e, u, r, step);
    hide WorldInv, Next, Covered, SessionExecutor.Next, SessionExecutor.Enabled, SessionExecutor.Open;
    HandOverCovers(w, e.x, Purpose(e.runner, e.step), u, r, step);
  }

  lemma HandOverKeepsInv(setups: Setups, w: World, e: Event, u: World)
    requires WorldInv(setups, w) && e.HandOver? && Next(setups, w, e, u)
    ensures WorldInv(setups, u)
  {
    hide WorldInv, RunInv, ExecInv, OneCarrier, Covered, ExecutorInv;
    WorldFacts(setups, w);
    ExecutorMoves(w.executor, SessionExecutor.Launch(e.x));
    forall y ensures ExecInv(setups, u, y) { HandOverKeepsExec(setups, w, e, u, y); }
    forall y, z ensures OneCarrier(u, y, z) { HandOverKeepsCarrier(setups, w, e, u, y, z); }
    forall r, step | r in setups ensures Covered(u, r, step) { HandOverKeepsCovered(setups, w, e, u, r, step); }
    forall r | r in setups ensures RunInv(setups[r], u.parts[r]) { HandOverKeepsRun(setups, w, e, u, r); }
    WorldAssembles(setups, u);
  }

  lemma HandOverKeepsRun(setups: Setups, w: World, e: Event, u: World, r: RunnerId)
    requires WorldInv(setups, w) && e.HandOver? && Next(setups, w, e, u) && r in setups
    ensures RunInv(setups[r], u.parts[r])
  {
    assert RunInv(setups[r], w.parts[r]);
    hide WorldInv, Inv, Exclusive, SessionExecutor.Next, SessionExecutor.Enabled;
  }

  // ---------------------------------------------------------------------------------------------
  // The executor moves
  // ---------------------------------------------------------------------------------------------

  /** Only a callback closes an execution, and a callback comes to an open one. */
  lemma ExecutorAnswers(s: SessionExecutor.State, e: SessionExecutor.Event)
    requires ExecutorInv(s) && SessionExecutor.Enabled(s, e) && !e.Launch?
    ensures var t := SessionExecutor.Next(s, e);
      && t.launched == s.launched
      && (Answered(e).Some? ==> SessionExecutor.Open(s, Answered(e).value) && !SessionExecutor.Open(t, Answered(e).value))
      && (forall x :: Answered(e) != Some(x) ==> SessionExecutor.Open(t, x) == SessionExecutor.Open(s, x))
  {
    CallsMove(s, e);
    if Answered(e).Some? { assert SessionExecutor.OneChance(s, Answered(e).value); }
    hide ExecutorInv, SessionExecutor.Next;
  }

  lemma CallsMove(s: SessionExecutor.State, e: SessionExecutor.Event)
    requires SessionExecutor.Enabled(s, e) && !e.Launch?
    ensures var t := SessionExecutor.Next(s, e);
      t.launched == s.launched && t.calls == s.calls + match Answered(e) { case Some(x) => multiset{x} case None => multiset{} }
  {
    match e
    case SendDone(x, _) => TakenCalls(s.(sending := s.sending - {x}), s.sending[x]);
    case Idle(i) => TakenCalls(s, i);
    case MonitorExit(i) => TakenCalls(s, i);
    case _ =>
  }

  lemma TakenCalls(s: SessionExecutor.State, i: SessionExecutor.SessionId)
    ensures SessionExecutor.Taken(s, i).launched == s.launched && SessionExecutor.Taken(s, i).calls == s.calls
  {
  }

  lemma AnswerKeepsAway(w: World, x: Exec, y: Exec)
    requires Returns(w, x) && Returns(w, y) && w.purpose[x] != w.purpose[y]
    requires Away(w.parts[w.purpose[y].runner], w.purpose[y].step)
    ensures w.purpose[y].runner in Answer(w, Some(x)) && Away(Answer(w, Some(x))[w.purpose[y].runner], w.purpose[y].step)
  {
  }

  lemma ExecutorMoves(s: SessionExecutor.State, e: SessionExecutor.Event)
    requires ExecutorInv(s) && SessionExecutor.Enabled(s, e)
    ensures ExecutorInv(SessionExecutor.Next(s, e))
  {
    hide SessionExecutor.Enabled, SessionExecutor.Next, SessionExecutor.OneChance;
    forall x ensures SessionExecutor.OneChance(SessionExecutor.Next(s, e), x) { SessionExecutor.NextKeepsOneChance(s, e, x); }
  }

  lemma ExecutorKeepsExec(setups: Setups, w: World, e: Event, u: World, y: Exec)
    requires WorldInv(setups, w) && e.Executor? && Next(setups, w, e, u)
    ensures ExecInv(setups, u, y)
  {
    ExecutorAnswers(w.executor, e.action);
    assert ExecInv(setups, w, y);
    if x :| Answered(e.action) == Some(x) {
      assert ExecInv(setups, w, x) && OneCarrier(w, x, y);
      assert Carries(w, x, w.purpose[x].runner, w.purpose[x].step);
      if y != x && SessionExecutor.Open(w.executor, y) && Returns(w, y) {
        AnswerKeepsAway(w, x, y);
      }
    }
    hide WorldInv, SessionExecutor.Next, SessionExecutor.Enabled, SessionExecutor.Open, Away, Made, Answer;
    assert Made(setups, u, y) == Made(setups, w, y) by { SameMade(setups, w, u, y); }
  }

  lemma SameMade(setups: Setups, w: World, u: World, y: Exec)
    requires w.purpose == u.purpose
    ensures Made(setups, u, y) == Made(setups, w, y)
  {
  }

  lemma ExecutorKeepsCarrier(setups: Setups, w: World, e: Event, u: World, y: Exec, z: Exec)
    requires WorldInv(setups, w) && e.Executor? && Next(setups, w, e, u)
    ensures OneCarrier(u, y, z)
  {
    ExecutorAnswers(w.executor, e.action);
    assert OneCarrier(w, y, z);
    hide WorldInv, SessionExecutor.Next, SessionExecutor.Enabled, SessionExecutor.Open;
    forall r, step | Carries(u, y, r, step) && Carries(u, z, r, step) ensures y == z {
      assert Carries(w, y, r, step) && Carries(w, z, r, step);
    }
  }

  lemma ExecutorKeepsCovered(setups: Setups, w: World, e: Event, u: World, r: RunnerId, step: StepId)
    requires WorldInv(setups, w) && e.Executor? && Next(setups, w, e, u) && r in setups
    ensures Covered(u, r, step)
  {
    ExecutorAnswers(w.executor, e.action);
    assert Covered(w, r, step);
    hide WorldInv, SessionExecutor.Next, SessionExecutor.Enabled, SessionExecutor.Open;
    if y :| Carries(w, y, r, step) {
      if Answered(e.action) != Some(y) { assert Carries(u, y, r, step); }
    }
  }

  lemma ExecutorKeepsRun(setups: Setups, w: World, e: Event, u: World, r: RunnerId)
    requires WorldInv(setups, w) && e.Executor? && Next(setups, w, e, u) && r in setups
    ensures RunInv(setups[r], u.parts[r])
  {
    ExecutorAnswers(w.executor, e.action);
    assert RunInv(setups[r], w.parts[r]);
    if x :| Answered(e.action) == Some(x) {
      assert ExecInv(setups, w, x);
      assert Returns(w, x) && Away(w.parts[w.purpose[x].runner], w.purpose[x].step);
      hide *;
      AnswerKeepsRun(setups, w, u, x, r);
    } else {
      assert u.parts == w.parts;
      hide *;
    }
  }

  lemma AnswerKeepsRun(setups: Setups, w: World, u: World, x: Exec, r: RunnerId)
    requires r in setups && r in w.parts && setups[r].Valid() && RunInv(setups[r], w.parts[r])
    requires Returns(w, x) && Away(w.parts[w.purpose[x].runner], w.purpose[x].step) && u.parts == Answer(w, Some(x))
    ensures r in u.parts && RunInv(setups[r], u.parts[r])
  {
    hide Inv, Exclusive;
  }

  lemma ExecutorKeepsInv(setups: Setups, w: World, e: Event, u: World)
    requires WorldInv(setups, w) && e.Executor? && Next(setups, w, e, u)
    ensures WorldInv(setups, u)
  {
    hide WorldInv, RunInv, ExecInv, OneCarrier, Covered, ExecutorInv;
    WorldFacts(setups, w);
    ExecutorMoves(w.executor, e.action);
    forall y ensures ExecInv(setups, u, y) { ExecutorKeepsExec(setups, w, e, u, y); }
    forall y, z ensures OneCarrier(u, y, z) { ExecutorKeepsCarrier(setups, w, e, u, y, z); }
    forall r, step | r in setups ensures Covered(u, r, step) { ExecutorKeepsCovered(setups, w, e, u, r, step); }
    forall r | r in setups ensures RunInv(setups[r], u.parts[r]) { ExecutorKeepsRun(setups, w, e, u, r); }
    WorldAssembles(setups, u);
  }

  // ---------------------------------------------------------------------------------------------
  // What every run of the whole guarantees
  // ---------------------------------------------------------------------------------------------

  lemma InitialWorld(setups: Setups, w: World)
    requires Initially(setups, w) && forall r :: r in setups ==> setups[r].Valid()
    ensures WorldInv(setups, w)
  {
    hide WorldInv, RunInv, ExecutorInv, Initial;
    forall r | r in setups ensures RunInv(setups[r], w.parts[r]) { InitialPart(setups[r]); }
    StartIsFresh();
    forall r, step | r in setups ensures Covered(w, r, step) { NothingOutstanding(setups[r]); }
    WorldAssembles(setups, w);
  }

  lemma NothingOutstanding(setup: Setup)
    ensures Initial(setup.job, setup.origin).outstanding == {}
  {
  }

  lemma InitialPart(setup: Setup)
    requires setup.Valid()
    ensures RunInv(setup, Part(Initial(setup.job, setup.origin), {}, {}))
  {
    RunInvariant.InitialInv(setup.job, setup.origin);
  }

  lemma StartIsFresh()
    ensures ExecutorInv(SessionExecutor.START)
  {
  }

  lemma NextKeepsWorld(setups: Setups, w: World, e: Event, u: World)
    requires WorldInv(setups, w) && Next(setups, w, e, u)
    ensures WorldInv(setups, u)
  {
    hide SchedulerStep, HandOverStep, ExecutorStep, WorldInv;
    match e
    case Scheduler(_, _) => SchedulerKeepsInv(setups, w, e, u);
    case HandOver(_, _, _) => HandOverKeepsInv(setups, w, e, u);
    case Executor(_) => ExecutorKeepsInv(setups, w, e, u);
  }

  lemma {:induction false} WorldHolds(setups: Setups, worlds: seq<World>, events: seq<Event>, i: nat)
    requires Execution(setups, worlds, events) && i <= |events| && forall r :: r in setups ==> setups[r].Valid()
    ensures WorldInv(setups, worlds[i])
  {
    hide WorldInv, Initially, Next;
    if i == 0 {
      InitialWorld(setups, worlds[0]);
    } else {
      WorldHolds(setups, worlds, events, i - 1);
      NextKeepsWorld(setups, worlds[i - 1], events[i - 1], worlds[i]);
    }
  }

  /** A hand-over meets no rival at all exactly if it meets none of another scheduler of its run. */
  lemma HandOverIsExclusiveIff(setups: Setups, worlds: seq<World>, events: seq<Event>, i: nat)
    requires Execution(setups, worlds, events) && i < |events| && (forall r :: r in setups ==> setups[r].Valid())
    requires events[i].HandOver?
    ensures TakesTurns(worlds[i], events[i].runner, events[i].x) <==>
      forall y :: SessionExecutor.Open(worlds[i].executor, y) && y != events[i].x && y.run == events[i].x.run && y.key == events[i].x.key ==>
        y.key == ""
  {
    hide WorldInv, Next;
    var w, e := worlds[i], events[i];
    WorldHolds(setups, worlds, events, i);
    assert Next(setups, w, e, worlds[i + 1]);
    if TakesTurns(w, e.runner, e.x) {
      forall y | SessionExecutor.Open(w.executor, y) ensures !SessionExecutor.Rivals(e.x, y) { TurnsAreExclusive(setups, w, e, y); }
    } else {
      var y :| SessionExecutor.Open(w.executor, y) && SessionExecutor.Rivals(e.x, y);
    }
  }

  lemma TurnsAreExclusive(setups: Setups, w: World, e: Event, y: Exec)
    requires WorldInv(setups, w) && e.HandOver? && (exists u :: Next(setups, w, e, u)) && TakesTurns(w, e.runner, e.x)
    requires SessionExecutor.Open(w.executor, y)
    ensures !SessionExecutor.Rivals(e.x, y)
  {
    assert ExecInv(setups, w, y);
    if w.purpose[y].runner == e.runner { OwnStepsAreExclusive(setups, w, e.runner, e.x, e.step, y); }
  }

  /** If a run never gets a second scheduler, turns are taken. */
  lemma SoleSchedulersTakeTurns(setups: Setups, worlds: seq<World>, events: seq<Event>, i: nat)
    requires Execution(setups, worlds, events) && i < |events| && (forall r :: r in setups ==> setups[r].Valid())
    requires events[i].HandOver? && forall r, q :: r in setups && q in setups && r != q ==> setups[r].run != setups[q].run
    ensures TakesTurns(worlds[i], events[i].runner, events[i].x)
  {
    var w, e := worlds[i], events[i];
    WorldHolds(setups, worlds, events, i);
    assert Next(setups, w, e, worlds[i + 1]);
    forall y | SessionExecutor.Open(w.executor, y) && y in w.purpose && w.purpose[y].runner != e.runner
      ensures !SessionExecutor.Rivals(e.x, y)
    {
      assert ExecInv(setups, w, y);
    }
  }

  ghost predicate Keyed(s: SessionExecutor.State) {
    && SessionExecutor.KeyInv(s)
    && (forall x {:trigger SessionExecutor.Held(s, x)} :: x in s.launched ==> SessionExecutor.Held(s, x))
  }

  lemma AdmittedKeepsKeyed(s: SessionExecutor.State, e: SessionExecutor.Event)
    requires Keyed(s) && SessionExecutor.Admitted(s, e)
    ensures Keyed(SessionExecutor.Next(s, e))
  {
    SessionExecutor.NextKeepsKeyInv(s, e);
    var t := SessionExecutor.Next(s, e);
    forall x | x in t.launched ensures SessionExecutor.Held(t, x) { SessionExecutor.NextKeepsHeld(s, e, x); }
  }

  lemma NextKeepsKeyed(setups: Setups, w: World, e: Event, u: World)
    requires WorldInv(setups, w) && Next(setups, w, e, u) && Keyed(w.executor)
    requires e.HandOver? ==> TakesTurns(w, e.runner, e.x)
    ensures Keyed(u.executor)
  {
    match e
    case Scheduler(_, _) => hide *;
      assert u.executor == w.executor by { SchedulerLeavesExecutor(setups, w, e, u); }
    case HandOver(_, x, _) =>
      forall y | y in w.executor.launched && SessionExecutor.Open(w.executor, y) ensures !SessionExecutor.Rivals(x, y) {
        TurnsAreExclusive(setups, w, e, y);
      }
      hide WorldInv, Keyed;
      AdmittedKeepsKeyed(w.executor, SessionExecutor.Launch(x));
    case Executor(action) =>
      hide WorldInv, Keyed;
      AdmittedKeepsKeyed(w.executor, action);
  }

  lemma StartIsKeyed()
    ensures Keyed(SessionExecutor.START)
  {
  }

  lemma {:induction false} KeyedHolds(setups: Setups, worlds: seq<World>, events: seq<Event>, i: nat)
    requires Execution(setups, worlds, events) && i <= |events| && forall r :: r in setups ==> setups[r].Valid()
    requires forall j {:trigger events[j]} :: 0 <= j < i && events[j].HandOver? ==> TakesTurns(worlds[j], events[j].runner, events[j].x)
    ensures Keyed(worlds[i].executor)
  {
    hide WorldInv, Keyed, Next, TakesTurns;
    if i == 0 {
      StartIsKeyed();
    } else {
      KeyedHolds(setups, worlds, events, i - 1);
      WorldHolds(setups, worlds, events, i - 1);
      NextKeepsKeyed(setups, worlds[i - 1], events[i - 1], worlds[i]);
    }
  }

  /** As long as the schedulers of each run take turns, no callback is lost, for any step of any
      run: it is being started, tracked by one session, about to be called back, or called back
      once. */
  lemma NoCallbackLost(setups: Setups, worlds: seq<World>, events: seq<Event>, i: nat, x: Exec)
    requires Execution(setups, worlds, events) && i <= |events| && forall r :: r in setups ==> setups[r].Valid()
    requires forall j {:trigger events[j]} :: 0 <= j < i && events[j].HandOver? ==> TakesTurns(worlds[j], events[j].runner, events[j].x)
    requires x in worlds[i].executor.launched
    ensures SessionExecutor.Held(worlds[i].executor, x) && worlds[i].executor.calls[x] <= 1
  {
    KeyedHolds(setups, worlds, events, i);
    assert SessionExecutor.OneChance(worlds[i].executor, x);
  }

  /** A scheduler hears only about steps it waits for, however many schedulers its run has had and
      whatever is still under way for them: every callback on its way back to it is for an
      outstanding step, and each step it waits for is on its way, in the executor's hands, or on
      its way back. */
  lemma CallbacksAreExpected(setups: Setups, worlds: seq<World>, events: seq<Event>, i: nat, r: RunnerId, step: StepId)
    requires Execution(setups, worlds, events) && i <= |events| && forall k :: k in setups ==> setups[k].Valid()
    requires r in setups
    ensures r in worlds[i].parts
    ensures step in worlds[i].parts[r].returned ==> step in worlds[i].parts[r].s.outstanding
    ensures Covered(worlds[i], r, step)
  {
    WorldHolds(setups, worlds, events, i);
    assert RunInv(setups[r], worlds[i].parts[r]) && Covered(worlds[i], r, step);
  }

  /** Nor does the composition hold the executor back: each of its steps but a launch is possible,
      since whoever is called back was launched for a step of a run. */
  lemma ExecutorIsFree(setups: Setups, worlds: seq<World>, events: seq<Event>, i: nat, e: SessionExecutor.Event)
    requires Execution(setups, worlds, events) && i <= |events| && forall k :: k in setups ==> setups[k].Valid()
    requires !e.Launch? && SessionExecutor.Enabled(worlds[i].executor, e)
    ensures exists u :: ExecutorStep(worlds[i], e, u) && u.parts.Keys == worlds[i].parts.Keys
  {
    WorldHolds(setups, worlds, events, i);
    ExecutorCanMove(setups, worlds[i], e);
  }

  lemma ExecutorCanMove(setups: Setups, w: World, e: SessionExecutor.Event)
    requires WorldInv(setups, w) && !e.Launch? && SessionExecutor.Enabled(w.executor, e)
    ensures exists u :: ExecutorStep(w, e, u) && u.parts.Keys == w.parts.Keys
  {
    ExecutorAnswers(w.executor, e);
    if Answered(e).Some? { assert ExecInv(setups, w, Answered(e).value); }
    hide WorldInv, SessionExecutor.Next, SessionExecutor.Enabled;
    assert ExecutorStep(w, e, World(SessionExecutor.Next(w.executor, e), Answer(w, Answered(e)), w.purpose));
  }

  /** A step that its scheduler has launched can be handed over at once by a new call of ExecuteStep,
      with its session key or, if it is no Claude step, without. */
  lemma HandOverIsFree(setups: Setups, worlds: seq<World>, events: seq<Event>, i: nat, r: RunnerId, x: Exec, step: StepId)
    requires Execution(setups, worlds, events) && i <= |events| && forall k :: k in setups ==> setups[k].Valid()
    requires r in worlds[i].parts && step in worlds[i].parts[r].handing && x !in worlds[i].executor.launched
    ensures r in setups && step in setups[r].job.config
    ensures x.run == setups[r].run && (x.key == "" || x.key == setups[r].job.config[step].sessionKey) <==>
      exists u :: Next(setups, worlds[i], HandOver(r, x, step), u)
  {
    WorldHolds(setups, worlds, events, i);
    HandedStep(setups, worlds[i], r, step);
    hide WorldInv, Execution, Next;
    HandOverCanMove(setups, worlds[i], r, x, step);
  }

  lemma HandedStep(setups: Setups, w: World, r: RunnerId, step: StepId)
    requires WorldInv(setups, w) && r in w.parts && step in w.parts[r].handing
    ensures w.parts.Keys == setups.Keys && step in setups[r].job.config
  {
    assert RunInv(setups[r], w.parts[r]) && Shaped(setups[r].job, w.parts[r].s);
    hide WorldInv;
  }

  lemma HandOverCanMove(setups: Setups, w: World, r: RunnerId, x: Exec, step: StepId)
    requires w.parts.Keys == setups.Keys && r in setups && step in setups[r].job.config
    requires step in w.parts[r].handing && x !in w.executor.launched
    ensures x.run == setups[r].run && (x.key == "" || x.key == setups[r].job.config[step].sessionKey) <==>
      exists u :: Next(setups, w, HandOver(r, x, step), u)
  {
    hide SessionExecutor.Next;
    if x.run == setups[r].run && (x.key == "" || x.key == setups[r].job.config[step].sessionKey) {
      var u := World(SessionExecutor.Next(w.executor, SessionExecutor.Launch(x)),
                     w.parts[r := w.parts[r].(handing := w.parts[r].handing - {step})],
                     w.purpose[x := Purpose(r, step)]);
      assert Next(setups, w, HandOver(r, x, step), u);
    }
  }
}

/** The mission executor: one step with its retries and resolver, a wave, a session,
    and any sequence of crashes and resumes of the same mission. */
module MissionEngine {
  import opened Common
  import opened MissionSpec
  import R = Resolver

  datatype StepStatus = Succeeded | Failed | Skipped | Degraded | Resolved

  datatype StepResult = StepResult(step: string, status: StepStatus)

  /** What escapes a step and is turned into a failed result by the wave. */
  datatype StepError = BudgetExceeded | Refusal

  /** One dispatch: a result that is not failed, any failure or timeout, or the budget running out. */
  datatype Dispatch = Done(output: string) | Failing | OverBudget

  /** How the world answers one execution of a step. `smallerScope` is the outcome of
      the reduced-scope retry; `signature` the class of problem its last error falls in. */
  datatype StepWorld = StepWorld(
    conditionParses: bool,
    conditionHolds: bool,
    budgetLeft: bool,
    dispatch: nat -> Dispatch,
    signature: string,
    smallerScope: R.Outcome)

  const GAP := "record_gap"

  /** The ladder's alternative routes for a failed step. */
  function AlternativeRoutes(step: Step): seq<R.Route> {
    (if step.kind == Tool && step.hasArgs then [SMALLER_ROUTE] else []) + [GAP_ROUTE]
  }

  /** How those routes answer: noting the gap always yields its note. */
  function RoutesWorld(smallerScope: R.Outcome): R.World {
    n => if n == GAP then R.Yields("unavailable") else if n == SMALLER_ROUTE.name then smallerScope else R.Nothing
  }

  /** No earlier resolution has marked the gap route dead or asked for a person. */
  ghost predicate GapAlive(memory: map<string, R.Record>) {
    forall sig :: sig in memory ==> GAP !in memory[sig].failedRoutes && !memory[sig].humanRequired
  }

  const GAP_ROUTE := R.Route(GAP, 5, 0.3, false)

  const SMALLER_ROUTE := R.Route("retry_smaller_scope", 2, 0.7, false)

  lemma RoutesAreAllowed()
    ensures !R.Forbidden(GAP_ROUTE) && !R.Forbidden(SMALLER_ROUTE)
    ensures GAP_ROUTE.name != SMALLER_ROUTE.name
  {
    assert |GAP| == 10 && |SMALLER_ROUTE.name| == 19;
    assert GAP[0] == 'r' && "force_push"[0] == 'f';
  }

  lemma LadderIsRoutes(step: Step, prior: Option<R.Record>)
    ensures R.Ladder(R.Reordered(AlternativeRoutes(step), prior)) == AlternativeRoutes(step)
  {
    hide R.Reordered;
    RoutesAreAllowed();
    var routes := AlternativeRoutes(step);
    R.LadderIgnoresRecall(routes, prior);
    assert [GAP_ROUTE][1..] == [];
    if |routes| == 2 {
      assert routes[1..] == [GAP_ROUTE];
      assert R.Ladder([GAP_ROUTE]) == [GAP_ROUTE];
    }
  }

  /** The climb of that ladder while the gap route is alive. */
  lemma GapClimb(step: Step, dead: set<string>, smallerScope: R.Outcome)
    requires GAP !in dead
    ensures var c := R.Climb(AlternativeRoutes(step), dead, true, RoutesWorld(smallerScope));
            && (c.end.Refused? ==> smallerScope == R.Refuses)
            && (!c.end.Refused? ==>
                  && c.end.Won? && c.end.winner.fidelity < 1.0 && GAP !in R.FailedNames(c.attempts)
                  && (c.end.value == "unavailable" || smallerScope == R.Yields(c.end.value)))
  {
    RoutesAreAllowed();
    hide R.Forbidden;
    var routes, world := AlternativeRoutes(step), RoutesWorld(smallerScope);
    var last := R.Climbed([R.Attempt(5, GAP, true)], [], R.Won(GAP_ROUTE, "unavailable"));
    assert R.Climb([GAP_ROUTE], dead, true, world) == last;
    assert last.attempts[1..] == [];
    assert R.FailedNames(last.attempts) == [];
    if |routes| == 2 {
      assert routes[0] == SMALLER_ROUTE && routes[1..] == [GAP_ROUTE];
      var lost := [R.Attempt(2, SMALLER_ROUTE.name, false)];
      assert (lost + last.attempts)[1..] == last.attempts;
      assert R.FailedNames(lost + last.attempts) == [SMALLER_ROUTE.name];
      assert [R.Attempt(2, SMALLER_ROUTE.name, true)][1..] == [];
    }
  }

  /** A step's ladder always ends in a degraded resolution that leaves the gap route
      alive, unless its reduced-scope retry is refused. */
  lemma GapResolves(step: Step, prior: Option<R.Record>, smallerScope: R.Outcome)
    requires GAP !in R.DeadRoutes(prior)
    ensures var c := R.Answer(AlternativeRoutes(step), true, prior, RoutesWorld(smallerScope));
            var after := R.Remembered(AlternativeRoutes(step), true, prior, RoutesWorld(smallerScope));
            && (c.end.Refused? ==> smallerScope == R.Refuses && after == prior)
            && (!c.end.Refused? ==>
                  && c.end.Won? && c.end.winner.fidelity < 1.0
                  && (c.end.value == "unavailable" || smallerScope == R.Yields(c.end.value))
                  && after.Some? && GAP !in after.value.failedRoutes && !after.value.humanRequired)
  {
    LadderIsRoutes(step, prior);
    GapClimb(step, ToSet(R.DeadRoutes(prior)), smallerScope);
    hide R.Climb, R.FailedNames, R.Ladder, R.Reordered, R.RecallLog, AlternativeRoutes, RoutesWorld;
    R.RecallIsNoFailure(AlternativeRoutes(step), prior,
                        R.Answer(AlternativeRoutes(step), true, prior, RoutesWorld(smallerScope)).attempts);
  }

  // ---------- one step ----------

  /** The retry loop: the first dispatch that does not fail, after at most retries + 1 tries. */
  function Retry(dispatch: nat -> Dispatch, attempt: nat, retries: int): Dispatch
    decreases retries - attempt + 1
  {
    if attempt > retries then Failing
    else if dispatch(attempt + 1).Failing? then Retry(dispatch, attempt + 1, retries)
    else dispatch(attempt + 1)
  }

  predicate Starts(world: StepWorld) {
    world.conditionParses && world.conditionHolds && world.budgetLeft
  }

  /** Every dispatch failed and the step hands over to the resolver. */
  predicate ReachesResolver(step: Step, world: StepWorld) {
    Starts(world) && Retry(world.dispatch, 0, step.retries).Failing? && step.onError == Resolve
  }

  /** The outcome of a step whose condition was false, whose budget was gone or that
      gave up without the resolver. */
  function PlainStatus(step: Step, world: StepWorld): StepStatus {
    if !world.conditionParses then Failed
    else if !world.conditionHolds || !world.budgetLeft then Skipped
    else if step.optional || step.onError == Continue then Skipped
    else Failed
  }

  /** What one execution of a step comes to: its result, the outputs and the resolver's
      memory it leaves. */
  datatype Effect = Effect(result: Result<StepResult, StepError>, outputs: map<string, string>, memory: map<string, R.Record>)

  /** A step whose every dispatch failed, handed to the resolver. */
  function ResolverEffect(step: Step, world: StepWorld, outputs: map<string, string>, memory: map<string, R.Record>): Effect {
    var prior := if world.signature in memory then Some(memory[world.signature]) else None;
    var routes, answers := AlternativeRoutes(step), RoutesWorld(world.smallerScope);
    var c := R.Answer(routes, true, prior, answers);
    if c.end.Refused? then Effect(Err(Refusal), outputs, memory)
    else
      var after := memory[world.signature := R.Remembered(routes, true, prior, answers).value];
      if c.end.Won? then
        Effect(Ok(StepResult(step.id, if c.end.winner.fidelity < 1.0 then Degraded else Resolved)),
               outputs[step.OutputKey() := c.end.value], after)
      else
        Effect(Ok(StepResult(step.id, if step.optional then Skipped else Failed)), outputs, after)
  }

  function StepEffect(step: Step, world: StepWorld, outputs: map<string, string>, memory: map<string, R.Record>): Effect {
    if !Starts(world) then Effect(Ok(StepResult(step.id, PlainStatus(step, world))), outputs, memory)
    else
      match Retry(world.dispatch, 0, step.retries)
      case Done(output) => Effect(Ok(StepResult(step.id, Succeeded)), outputs[step.OutputKey() := output], memory)
      case OverBudget => Effect(Err(BudgetExceeded), outputs, memory)
      case Failing =>
        if step.onError == Resolve then ResolverEffect(step, world, outputs, memory)
        else Effect(Ok(StepResult(step.id, PlainStatus(step, world))), outputs, memory)
  }

  /** What the retry loop comes to: the first answer among retries + 1 tries that is
      not a failure, and a failure if and only if there is none. */
  lemma {:induction false} RetryIsFirstAnswer(dispatch: nat -> Dispatch, attempt: nat, retries: int)
    ensures Retry(dispatch, attempt, retries).Failing? <==>
            forall k: nat :: attempt < k <= retries + 1 ==> dispatch(k).Failing?
    ensures !Retry(dispatch, attempt, retries).Failing? ==>
              exists k: nat :: attempt < k <= retries + 1 && dispatch(k) == Retry(dispatch, attempt, retries)
                               && forall j: nat :: attempt < j < k ==> dispatch(j).Failing?
    decreases retries - attempt + 1
  {
    if attempt <= retries {
      RetryIsFirstAnswer(dispatch, attempt + 1, retries);
      if !dispatch(attempt + 1).Failing? {
        assert dispatch(attempt + 1) == Retry(dispatch, attempt, retries);
      }
    }
  }

  /** Whatever earlier resolutions remembered, a step that reaches the resolver ends
      degraded with its output in place, never failed and never escalated to a person;
      only a refusal of its reduced-scope retry can keep it from that. */
  lemma ResolverNeverGivesUp(step: Step, world: StepWorld, outputs: map<string, string>, memory: map<string, R.Record>)
    requires GapAlive(memory) && ReachesResolver(step, world)
    ensures var e := StepEffect(step, world, outputs, memory);
            && GapAlive(e.memory)
            && (e.result.Err? ==> e.result == Err(Refusal) && world.smallerScope == R.Refuses
                                  && e.outputs == outputs && e.memory == memory)
            && (e.result.Ok? ==> e.result == Ok(StepResult(step.id, Degraded))
                                 && step.OutputKey() in e.outputs
                                 && var stored := e.outputs[step.OutputKey()];
                                    && e.outputs == outputs[step.OutputKey() := stored]
                                    && (stored == "unavailable" || world.smallerScope == R.Yields(stored)))
  {
    var prior := if world.signature in memory then Some(memory[world.signature]) else None;
    GapResolves(step, prior, world.smallerScope);
    hide R.Answer, R.Remembered, AlternativeRoutes, RoutesWorld;
    var c := R.Answer(AlternativeRoutes(step), true, prior, RoutesWorld(world.smallerScope));
    if c.end.Won? {
      assert StepEffect(step, world, outputs, memory).outputs == outputs[step.OutputKey() := c.end.value];
    }
  }

  /** The reduced-scope retry runs its tool through an executor that turns a refusal into
      a failed outcome, so it never refuses: such a step always ends degraded. */
  lemma ResolverAlwaysCovers(step: Step, world: StepWorld, outputs: map<string, string>, memory: map<string, R.Record>)
    requires GapAlive(memory) && ReachesResolver(step, world) && !world.smallerScope.Refuses?
    ensures var e := StepEffect(step, world, outputs, memory);
            && GapAlive(e.memory) && e.result == Ok(StepResult(step.id, Degraded)) && step.OutputKey() in e.outputs
            && var stored := e.outputs[step.OutputKey()];
               && e.outputs == outputs[step.OutputKey() := stored]
               && (stored == "unavailable" || world.smallerScope == R.Yields(stored))
  {
    ResolverNeverGivesUp(step, world, outputs, memory);
  }

  /** Over any sequence of resolutions of a step's problem no route of its ladder fails
      twice, whatever the reduced-scope retry answers: behind it only the gap is noted. */
  lemma NoStepRouteFailsTwice(step: Step, worlds: seq<R.World>, name: string)
    requires forall w :: w in worlds ==> exists smallerScope :: w == RoutesWorld(smallerScope)
    ensures R.FailingRuns(AlternativeRoutes(step), true, None, worlds, name) <= 1
  {
    var routes, mayRefuse := AlternativeRoutes(step), {SMALLER_ROUTE.name};
    hide R.FailingRuns, R.Ladder, R.Forbidden, R.CanRun;
    RoutesAreAllowed();
    LadderIsRoutes(step, None);
    assert R.Reordered(routes, None) == routes;
    assert R.OnlyTheseRefuse(worlds, mayRefuse);
    assert R.NoStopBehind(routes, true, mayRefuse);
    R.NoRouteFailsTwiceExactly(routes, true, mayRefuse);
  }

  predicate HasOutput(status: StepStatus) {
    status in {Succeeded, Degraded, Resolved}
  }

  /** What every execution keeps: the gap route stays alive, no output disappears, and
      a result with an output has it on the blackboard. */
  lemma EveryStepKeeps(step: Step, world: StepWorld, outputs: map<string, string>, memory: map<string, R.Record>)
    requires GapAlive(memory)
    ensures var e := StepEffect(step, world, outputs, memory);
            && GapAlive(e.memory) && outputs.Keys <= e.outputs.Keys
            && (e.result.Ok? ==> e.result.value.step == step.id)
            && (e.result.Ok? && HasOutput(e.result.value.status) ==> step.OutputKey() in e.outputs)
  {
    if ReachesResolver(step, world) {
      ResolverNeverGivesUp(step, world, outputs, memory);
    }
    hide ResolverEffect, GapAlive;
  }

  // ---------- how a step ends, told without the functions above ----------

  /** The first of retries + 1 tries that is not a failure. */
  ghost predicate AnswersAt(step: Step, world: StepWorld, k: nat) {
    && 1 <= k <= step.retries + 1 && !world.dispatch(k).Failing?
    && forall j: nat :: 1 <= j < k ==> world.dispatch(j).Failing?
  }

  ghost predicate NeverAnswers(step: Step, world: StepWorld) {
    forall k: nat :: 1 <= k <= step.retries + 1 ==> world.dispatch(k).Failing?
  }

  ghost predicate WritesUnder(step: Step, value: string, outputs: map<string, string>, after: map<string, string>) {
    after == outputs[(if step.stores.Some? && step.stores.value != "" then step.stores.value else step.id) := value]
  }

  ghost predicate Untouched(outputs: map<string, string>, memory: map<string, R.Record>, e: Effect) {
    e.outputs == outputs && e.memory == memory
  }

  /** A step that is not run. */
  ghost predicate EndsBeforeStart(step: Step, world: StepWorld, outputs: map<string, string>, memory: map<string, R.Record>, e: Effect) {
    && (!world.conditionParses ==> e.result == Ok(StepResult(step.id, Failed)) && Untouched(outputs, memory, e))
    && (world.conditionParses && (!world.conditionHolds || !world.budgetLeft) ==>
          e.result == Ok(StepResult(step.id, Skipped)) && Untouched(outputs, memory, e))
  }

  /** A step that runs and does not end with the resolver: its first answer decides, and
      if there is none its `on_error` and whether it is optional. */
  ghost predicate EndsByItself(step: Step, world: StepWorld, outputs: map<string, string>, memory: map<string, R.Record>, e: Effect) {
    world.conditionParses && world.conditionHolds && world.budgetLeft ==>
      && (forall k: nat {:trigger world.dispatch(k)} :: AnswersAt(step, world, k) ==>
            match world.dispatch(k)
            case Done(value) =>
              e.result == Ok(StepResult(step.id, Succeeded)) && WritesUnder(step, value, outputs, e.outputs) && e.memory == memory
            case OverBudget => e.result == Err(BudgetExceeded) && Untouched(outputs, memory, e)
            case Failing => false)
      && (NeverAnswers(step, world) && step.onError != Resolve ==>
            && e.result == Ok(StepResult(step.id, if step.optional || step.onError == Continue then Skipped else Failed))
            && Untouched(outputs, memory, e))
  }

  /** A step the resolver ends: with the answer of the reduced-scope retry, if it is a tool
      step with arguments, that retry yields and has not failed for this problem before;
      otherwise with the gap. */
  ghost predicate EndsResolved(step: Step, world: StepWorld, outputs: map<string, string>, memory: map<string, R.Record>, e: Effect) {
    && world.conditionParses && world.conditionHolds && world.budgetLeft && NeverAnswers(step, world) && step.onError == Resolve
    && GapAlive(memory) && !world.smallerScope.Refuses? ==>
      var tried := step.kind == Tool && step.hasArgs;
      var knownDead := world.signature in memory && "retry_smaller_scope" in memory[world.signature].failedRoutes;
      var smaller := tried && !knownDead && world.smallerScope.Yields?;
      && e.result == Ok(StepResult(step.id, Degraded))
      && WritesUnder(step, if smaller then world.smallerScope.value else "unavailable", outputs, e.outputs)
      && e.memory == memory[world.signature :=
           R.Record(if tried && !smaller then ["retry_smaller_scope"] else [],
                    Some(if smaller then "retry_smaller_scope" else "record_gap"), false)]
  }

  ghost predicate EndsRight(step: Step, world: StepWorld, outputs: map<string, string>, memory: map<string, R.Record>, e: Effect) {
    && EndsBeforeStart(step, world, outputs, memory, e)
    && EndsByItself(step, world, outputs, memory, e)
    && EndsResolved(step, world, outputs, memory, e)
  }

  lemma {:induction false} RetryStopsThere(dispatch: nat -> Dispatch, attempt: nat, retries: int, k: nat)
    requires attempt < k <= retries + 1 && !dispatch(k).Failing? && forall j: nat :: attempt < j < k ==> dispatch(j).Failing?
    ensures Retry(dispatch, attempt, retries) == dispatch(k)
    decreases k - attempt
  {
    if attempt + 1 < k {
      assert dispatch(attempt + 1).Failing?;
      RetryStopsThere(dispatch, attempt + 1, retries, k);
    }
  }

  lemma ItselfIsRight(step: Step, world: StepWorld, outputs: map<string, string>, memory: map<string, R.Record>)
    ensures EndsByItself(step, world, outputs, memory, StepEffect(step, world, outputs, memory))
  {
    hide Retry, ResolverEffect;
    forall k: nat | AnswersAt(step, world, k)
      ensures Retry(world.dispatch, 0, step.retries) == world.dispatch(k)
    {
      RetryStopsThere(world.dispatch, 0, step.retries, k);
    }
    RetryIsFirstAnswer(world.dispatch, 0, step.retries);
  }

  /** The climb of a step's ladder while nothing refuses. */
  lemma LadderClimb(step: Step, dead: set<string>, smallerScope: R.Outcome)
    requires GAP !in dead && !smallerScope.Refuses?
    ensures var c := R.Climb(AlternativeRoutes(step), dead, true, RoutesWorld(smallerScope));
            var tried := step.kind == Tool && step.hasArgs;
            var smaller := tried && SMALLER_ROUTE.name !in dead && smallerScope.Yields?;
            && c.end == R.Won(if smaller then SMALLER_ROUTE else GAP_ROUTE, if smaller then smallerScope.value else "unavailable")
            && R.FailedNames(c.attempts) == if tried && !smaller then [SMALLER_ROUTE.name] else []
  {
    RoutesAreAllowed();
    hide R.Forbidden, R.FailedNames;
    var routes, world := AlternativeRoutes(step), RoutesWorld(smallerScope);
    var noted := [R.Attempt(5, GAP, true)];
    assert R.Climb([GAP_ROUTE], dead, true, world) == R.Climbed(noted, [], R.Won(GAP_ROUTE, "unavailable"));
    R.NoFailedNames();
    R.FailedNamesOfMore(R.Attempt(2, SMALLER_ROUTE.name, false), noted);
    R.FailedNamesOfMore(R.Attempt(5, GAP, true), []);
    R.FailedNamesOfMore(R.Attempt(2, SMALLER_ROUTE.name, true), []);
    if |routes| == 2 {
      assert routes[0] == SMALLER_ROUTE && routes[1..] == [GAP_ROUTE];
    }
  }

  lemma ResolverIsRight(step: Step, world: StepWorld, outputs: map<string, string>, memory: map<string, R.Record>)
    requires GapAlive(memory) && !world.smallerScope.Refuses?
    ensures var tried := step.kind == Tool && step.hasArgs;
            var knownDead := world.signature in memory && SMALLER_ROUTE.name in memory[world.signature].failedRoutes;
            var smaller := tried && !knownDead && world.smallerScope.Yields?;
            ResolverEffect(step, world, outputs, memory) ==
            Effect(Ok(StepResult(step.id, Degraded)),
                   outputs[step.OutputKey() := if smaller then world.smallerScope.value else "unavailable"],
                   memory[world.signature := R.Record(if tried && !smaller then [SMALLER_ROUTE.name] else [],
                                                      Some(if smaller then SMALLER_ROUTE.name else GAP), false)])
  {
    var prior := if world.signature in memory then Some(memory[world.signature]) else None;
    LadderIsRoutes(step, prior);
    LadderClimb(step, ToSet(R.DeadRoutes(prior)), world.smallerScope);
    hide R.Climb, R.FailedNames, R.Ladder, R.Reordered, R.RecallLog, AlternativeRoutes, RoutesWorld;
    R.RecallIsNoFailure(AlternativeRoutes(step), prior, R.Answer(AlternativeRoutes(step), true, prior, RoutesWorld(world.smallerScope)).attempts);
  }

  lemma ResolvedIsRight(step: Step, world: StepWorld, outputs: map<string, string>, memory: map<string, R.Record>)
    ensures EndsResolved(step, world, outputs, memory, StepEffect(step, world, outputs, memory))
  {
    hide Retry, ResolverEffect, GapAlive, NeverAnswers;
    RetryTellsNever(step, world);
    if GapAlive(memory) && !world.smallerScope.Refuses? {
      ResolverIsRight(step, world, outputs, memory);
    }
  }

  lemma RetryTellsNever(step: Step, world: StepWorld)
    ensures Retry(world.dispatch, 0, step.retries).Failing? <==> NeverAnswers(step, world)
  {
    RetryIsFirstAnswer(world.dispatch, 0, step.retries);
  }

  /** However a step ends, it ends as its world and its definition say. */
  lemma StepEndsRight(step: Step, world: StepWorld, outputs: map<string, string>, memory: map<string, R.Record>)
    ensures EndsRight(step, world, outputs, memory, StepEffect(step, world, outputs, memory))
  {
    ItselfIsRight(step, world, outputs, memory);
    ResolvedIsRight(step, world, outputs, memory);
    hide Retry, ResolverEffect, EndsByItself, EndsResolved;
  }

  /** The blackboard a session works on, with the resolver whose memory lives on it. */
  class Blackboard {
    var outputs: map<string, string>
    const resolver: R.Resolver

    constructor (outputs: map<string, string>, memory: map<string, R.Record>)
      ensures this.outputs == outputs && fresh(resolver) && resolver.memory == memory
    {
      this.outputs := outputs;
      resolver := new R.Resolver(memory);
    }
  }

  /** Executes one step: condition, budget share, retries, then the resolver. */
  method ExecuteStep(step: Step, board: Blackboard, world: StepWorld) returns (r: Result<StepResult, StepError>)
    modifies board`outputs, board.resolver
    ensures Effect(r, board.outputs, board.resolver.memory)
            == StepEffect(step, world, old(board.outputs), old(board.resolver.memory))
    ensures EndsRight(step, world, old(board.outputs), old(board.resolver.memory), Effect(r, board.outputs, board.resolver.memory))
  {
    hide EndsRight;
    StepEndsRight(step, world, board.outputs, board.resolver.memory);
    if !world.conditionParses {
      return Ok(StepResult(step.id, Failed));
    }
    if !world.conditionHolds {
      return Ok(StepResult(step.id, Skipped));
    }
    if !world.budgetLeft {
      return Ok(StepResult(step.id, Skipped));
    }
    var attempt := 0;
    while attempt <= step.retries
      invariant Retry(world.dispatch, 0, step.retries) == Retry(world.dispatch, attempt, step.retries)
      decreases step.retries - attempt + 1
    {
      attempt := attempt + 1;
      match world.dispatch(attempt) {
        case Done(output) =>
          board.outputs := board.outputs[step.OutputKey() := output];
          return Ok(StepResult(step.id, Succeeded));
        case OverBudget =>
          return Err(BudgetExceeded);
        case Failing =>
      }
    }
    if step.onError == Resolve {
      r := TryResolver(step, board, world);
      return;
    }
    return Ok(StepResult(step.id, if step.optional || step.onError == Continue then Skipped else Failed));
  }

  /** The resolver's turn. */
  method TryResolver(step: Step, board: Blackboard, world: StepWorld) returns (r: Result<StepResult, StepError>)
    modifies board`outputs, board.resolver
    ensures Effect(r, board.outputs, board.resolver.memory)
            == ResolverEffect(step, world, old(board.outputs), old(board.resolver.memory))
  {
    hide R.Answer, R.RecallLog, AlternativeRoutes, RoutesWorld;
    var resolution := board.resolver.Resolve(world.signature, AlternativeRoutes(step), true, RoutesWorld(world.smallerScope));
    if resolution.Err? {
      return Err(Refusal);
    }
    if resolution.value.resolved && resolution.value.value.Some? {
      board.outputs := board.outputs[step.OutputKey() := resolution.value.value.value];
      return Ok(StepResult(step.id, if resolution.value.Degraded() then Degraded else Resolved));
    }
    return Ok(StepResult(step.id, if step.optional then Skipped else Failed));
  }

  // ---------- the run record and its history ----------

  datatype RunStatus = Running | RunSucceeded | RunPartial | RunFailed | RunCancelled

  /** What the database holds of a run: completed step ids, outputs, resolver memory. */
  datatype Saved = Saved(completed: set<string>, outputs: map<string, string>, memory: map<string, R.Record>)

  /** Starting a step, and committing the checkpoint at the end of a wave. */
  datatype Event = Started(step: string) | Committed(steps: set<string>)

  class MissionRun {
    var status: RunStatus
    var saved: Saved
    ghost var history: seq<Event>

    /** A new run: nothing completed, nothing remembered. */
    constructor (steps: seq<Step>)
      ensures saved == Saved({}, map[], map[]) && history == [] && status == Running
      ensures GapAlive(saved.memory)
    {
      status, saved, history := Running, Saved({}, map[], map[]), [];
    }
  }

  ghost function CommittedBy(history: seq<Event>): set<string> {
    if history == [] then {}
    else
      var last := history[|history| - 1];
      CommittedBy(history[..|history| - 1]) + (if last.Committed? then last.steps else {})
  }

  /** A step may start when all its needs are committed and it is not. */
  ghost predicate MayStart(steps: seq<Step>, id: string, committed: set<string>) {
    id !in committed && exists s :: s in steps && s.id == id && NeedsWithin(s, committed)
  }

  /** A start needs all its needs committed; a commit covers only steps that were started. */
  ghost predicate Allowed(steps: seq<Step>, before: seq<Event>, e: Event) {
    match e
    case Started(id) => MayStart(steps, id, CommittedBy(before))
    case Committed(ids) => forall id :: id in ids ==> Started(id) in before
  }

  /** Every event in the history was allowed at its time. */
  ghost predicate SafeHistory(steps: seq<Step>, history: seq<Event>) {
    forall j :: 0 <= j < |history| ==> Allowed(steps, history[..j], history[j])
  }

  ghost predicate WavePrefix(waves: seq<seq<Step>>, completed: set<string>, k: nat) {
    k <= |waves| && completed == Ids(Flatten(waves[..k]))
  }

  /** What holds between sessions, however they ended. */
  ghost predicate RunInvariant(steps: seq<Step>, waves: seq<seq<Step>>, saved: Saved, history: seq<Event>) {
    && (exists k: nat :: WavePrefix(waves, saved.completed, k))
    && saved.completed == CommittedBy(history)
    && SafeHistory(steps, history)
    && GapAlive(saved.memory)
  }

  function StartEvents(pending: seq<Step>): seq<Event> {
    if pending == [] then [] else StartEvents(pending[..|pending| - 1]) + [Started(pending[|pending| - 1].id)]
  }

  lemma {:induction false} StartsCommitNothing(history: seq<Event>, pending: seq<Step>)
    ensures CommittedBy(history + StartEvents(pending)) == CommittedBy(history)
  {
    if pending == [] {
      assert history + [] == history;
    } else {
      var front := pending[..|pending| - 1];
      var longer := history + StartEvents(pending);
      assert longer[..|longer| - 1] == history + StartEvents(front);
      StartsCommitNothing(history, front);
    }
  }

  /** Starting any part of a wave whose needs are committed keeps the history safe. */
  lemma {:induction false} StartsAreSafe(steps: seq<Step>, history: seq<Event>, pending: seq<Step>)
    requires SafeHistory(steps, history)
    requires forall s :: s in pending ==> s in steps && s.id !in CommittedBy(history) && NeedsWithin(s, CommittedBy(history))
    ensures SafeHistory(steps, history + StartEvents(pending))
  {
    hide SafeHistory, Allowed, NeedsWithin, CommittedBy;
    if pending == [] {
      assert history + [] == history;
    } else {
      var front, s := pending[..|pending| - 1], pending[|pending| - 1];
      assert s in pending && forall t :: t in front ==> t in pending;
      StartsAreSafe(steps, history, front);
      StartIsAllowed(steps, history, front, s);
      OneMoreEvent(steps, history + StartEvents(front), Started(s.id));
      assert history + StartEvents(pending) == history + StartEvents(front) + [Started(s.id)];
    }
  }

  lemma StartIsAllowed(steps: seq<Step>, history: seq<Event>, front: seq<Step>, s: Step)
    requires s in steps && s.id !in CommittedBy(history) && NeedsWithin(s, CommittedBy(history))
    ensures Allowed(steps, history + StartEvents(front), Started(s.id))
  {
    hide CommittedBy, NeedsWithin;
    StartsCommitNothing(history, front);
  }

  lemma OneMoreEvent(steps: seq<Step>, history: seq<Event>, e: Event)
    requires SafeHistory(steps, history)
    requires Allowed(steps, history, e)
    ensures SafeHistory(steps, history + [e])
    ensures CommittedBy(history + [e]) == CommittedBy(history) + (if e.Committed? then e.steps else {})
  {
    hide Allowed;
    var longer := history + [e];
    assert longer[..|longer| - 1] == history;
    forall j | 0 <= j < |longer|
      ensures Allowed(steps, longer[..j], longer[j])
    {
      assert longer[..j] == history[..j];
      if j == |history| { assert history[..j] == history; }
    }
  }

  lemma {:induction false} EveryStepStarts(pending: seq<Step>)
    ensures forall s :: s in pending ==> Started(s.id) in StartEvents(pending)
  {
    if pending != [] {
      EveryStepStarts(pending[..|pending| - 1]);
      assert pending == pending[..|pending| - 1] + [pending[|pending| - 1]];
    }
  }

  /** What one committed wave leaves true. */
  lemma CommitStep(steps: seq<Step>, history: seq<Event>, pending: seq<Step>)
    requires SafeHistory(steps, history)
    requires forall s :: s in pending ==> s in steps && s.id !in CommittedBy(history) && NeedsWithin(s, CommittedBy(history))
    ensures var after := history + StartEvents(pending) + [Committed(Ids(pending))];
            SafeHistory(steps, after) && CommittedBy(after) == CommittedBy(history) + Ids(pending)
  {
    StartsAreSafe(steps, history, pending);
    StartsCommitNothing(history, pending);
    EveryStepStarts(pending);
    OneMoreEvent(steps, history + StartEvents(pending), Committed(Ids(pending)));
  }

  // ---------- waves against the completed set ----------

  /** Steps of earlier waves are all completed; from wave k on none is. */
  lemma PendingIsAllOrNothing(steps: seq<Step>, waves: seq<seq<Step>>, completed: set<string>, k: nat, w: nat)
    requires IsExecutionOrder(steps, waves) && WavePrefix(waves, completed, k) && w < |waves|
    ensures w < k ==> Without(waves[w], completed) == []
    ensures w >= k ==> Without(waves[w], completed) == waves[w]
  {
    FlattenHolds(waves[..k]);
    if w < k {
      assert waves[..k][w] == waves[w];
      forall s | s in waves[w]
        ensures s.id in completed
      {
        assert s in Flatten(waves[..k]);
      }
      WithoutAll(waves[w], completed);
    } else {
      forall s | s in waves[w]
        ensures s.id !in completed
      {
        assert StandsAt(steps, s, w);
        forall t | t in Flatten(waves[..k])
          ensures t.id != s.id
        {
          var v :| 0 <= v < k && t in waves[..k][v];
          assert t in waves[v] && StandsAt(steps, t, v);
          DepthsDiffer(steps, t.id, v + 1, s.id, w + 1);
        }
      }
      WithoutNone(waves[w], completed);
    }
  }

  lemma {:induction false} WithoutAll(wave: seq<Step>, ids: set<string>)
    requires forall s :: s in wave ==> s.id in ids
    ensures Without(wave, ids) == []
  {
    if wave != [] {
      assert wave[0] in wave && forall s :: s in wave[1..] ==> s in wave;
      WithoutAll(wave[1..], ids);
    }
  }

  lemma {:induction false} WithoutNone(wave: seq<Step>, ids: set<string>)
    requires forall s :: s in wave ==> s.id !in ids
    ensures Without(wave, ids) == wave
  {
    if wave != [] {
      assert wave == [wave[0]] + wave[1..];
      assert wave[0] in wave && forall s :: s in wave[1..] ==> s in wave;
      WithoutNone(wave[1..], ids);
    }
  }

  /** The next wave may start, and committing it extends the prefix by one wave. */
  lemma NextWave(steps: seq<Step>, waves: seq<seq<Step>>, completed: set<string>, k: nat)
    requires IsExecutionOrder(steps, waves) && WavePrefix(waves, completed, k) && k < |waves|
    ensures forall s :: s in waves[k] ==> s in steps && s.id !in completed && NeedsWithin(s, completed)
    ensures WavePrefix(waves, completed + Ids(waves[k]), k + 1)
  {
    PendingIsAllOrNothing(steps, waves, completed, k, k);
    WithoutMeaning(waves[k], completed);
    FlattenHolds(waves);
    SameElements(Flatten(waves), steps);
    forall s | s in waves[k]
      ensures s in steps && NeedsWithin(s, completed)
    {
      assert NeedsWithin(s, Ids(Flatten(waves[..k])));
    }
    assert waves[..k + 1][..k] == waves[..k];
    assert Flatten(waves[..k + 1]) == Flatten(waves[..k]) + waves[k];
  }

  // ---------- sessions ----------

  /** Whether a wave runs through, or the process dies or is cancelled after starting
      some of its steps. */
  datatype Interruption =
    | RunsOn
    | Dies(started: set<string>, finished: set<string>)
    | IsCancelled(started: set<string>, finished: set<string>)
  {
    predicate Starts(id: string) {
      RunsOn? || id in started
    }

    predicate Finishes(id: string) {
      RunsOn? || (id in started && id in finished)
    }

    /** The steps of a wave that are started, and those that come to an end. */
    function Reached(wave: seq<Step>): seq<Step> {
      if wave == [] then []
      else Reached(wave[..|wave| - 1]) + if Starts(wave[|wave| - 1].id) then [wave[|wave| - 1]] else []
    }

    function Ended(wave: seq<Step>): seq<Step> {
      if wave == [] then []
      else Ended(wave[..|wave| - 1]) + if Finishes(wave[|wave| - 1].id) then [wave[|wave| - 1]] else []
    }
  }

  lemma {:induction false} NothingCut(wave: seq<Step>)
    ensures RunsOn.Reached(wave) == wave && RunsOn.Ended(wave) == wave
  {
    if wave != [] {
      NothingCut(wave[..|wave| - 1]);
    }
  }

  lemma {:induction false} PartOfWave(interruption: Interruption, wave: seq<Step>)
    ensures forall s :: s in interruption.Reached(wave) ==> s in wave
    ensures forall s :: s in interruption.Ended(wave) ==> s in wave
  {
    if wave != [] {
      PartOfWave(interruption, wave[..|wave| - 1]);
    }
  }

  /** What is started of a wave, and what comes to an end: all of it if nothing interrupts it,
      and otherwise the steps the interruption names. */
  lemma {:induction false} CutExactly(interruption: Interruption, wave: seq<Step>, s: Step)
    ensures s in interruption.Reached(wave) <==> s in wave && (interruption.RunsOn? || s.id in interruption.started)
    ensures s in interruption.Ended(wave) <==>
            s in wave && (interruption.RunsOn? || (s.id in interruption.started && s.id in interruption.finished))
  {
    if wave != [] {
      CutExactly(interruption, wave[..|wave| - 1], s);
      assert wave == wave[..|wave| - 1] + [wave[|wave| - 1]];
    }
  }

  lemma OneMoreOfWave(interruption: Interruption, wave: seq<Step>, s: Step)
    ensures interruption.Reached(wave + [s]) == interruption.Reached(wave) + (if interruption.Starts(s.id) then [s] else [])
    ensures interruption.Ended(wave + [s]) == interruption.Ended(wave) + (if interruption.Finishes(s.id) then [s] else [])
  {
    assert (wave + [s])[..|wave|] == wave;
  }

  /** The world during one session: by wave number, the clock, the budget and
      interruptions; by step id, how the step's execution goes. */
  datatype Session = Session(
    pastDeadline: nat -> bool,
    overBudget: nat -> bool,
    interruption: nat -> Interruption,
    worlds: string -> StepWorld)

  /** The engine's verdict, from the results of the current session alone. */
  function FinalStatus(results: seq<StepResult>): RunStatus {
    if exists r :: r in results && r.status in {Failed, Degraded, Resolved} then RunPartial else RunSucceeded
  }

  predicate Fatal(step: Step, result: StepResult) {
    result.status == Failed && step.onError == Fail && !step.optional
  }

  datatype WaveEffect = WaveEffect(results: seq<StepResult>, outputs: map<string, string>, memory: map<string, R.Record>)

  /** A step's result as the wave records it: whatever escaped the step counts as failed. */
  function Settled(step: Step, r: Result<StepResult, StepError>): StepResult {
    if r.Ok? then r.value else StepResult(step.id, Failed)
  }

  /** Executing the steps of a wave one after another. */
  function EffectOf(pending: seq<Step>, worlds: string -> StepWorld, outputs: map<string, string>, memory: map<string, R.Record>): (e: WaveEffect)
    ensures |e.results| == |pending|
  {
    if pending == [] then WaveEffect([], outputs, memory)
    else
      var before, s := EffectOf(pending[..|pending| - 1], worlds, outputs, memory), pending[|pending| - 1];
      var e := StepEffect(s, worlds(s.id), before.outputs, before.memory);
      WaveEffect(before.results + [Settled(s, e.result)], e.outputs, e.memory)
  }

  /** Where a session leaves a run: what is saved, the results it committed, its status. */
  datatype Ending = Ending(saved: Saved, results: seq<StepResult>, status: RunStatus, reachedEnd: bool)

  predicate AnyFatal(wave: seq<Step>, results: seq<StepResult>)
    requires |results| == |wave|
  {
    exists i :: 0 <= i < |wave| && Fatal(wave[i], results[i])
  }

  /** A session from wave `w` on, with the results it has committed so far. */
  function SessionFrom(waves: seq<seq<Step>>, w: nat, saved: Saved, results: seq<StepResult>, session: Session): Ending
    requires w <= |waves|
    decreases |waves| - w
  {
    if w == |waves| then Ending(saved, results, FinalStatus(results), true)
    else
      var pending := Without(waves[w], saved.completed);
      if pending == [] then SessionFrom(waves, w + 1, saved, results, session)
      else if session.pastDeadline(w) || session.overBudget(w) then Ending(saved, results, RunPartial, false)
      else
        match session.interruption(w)
        case Dies(_, _) => Ending(saved, results, Running, false)
        case IsCancelled(_, _) =>
          var e := EffectOf(session.interruption(w).Ended(pending), session.worlds, saved.outputs, saved.memory);
          Ending(Saved(saved.completed, e.outputs, e.memory), results, RunCancelled, false)
        case RunsOn =>
          var e := EffectOf(pending, session.worlds, saved.outputs, saved.memory);
          var after := Saved(saved.completed + Ids(pending), e.outputs, e.memory);
          if AnyFatal(pending, e.results) then Ending(after, results + e.results, RunFailed, false)
          else SessionFrom(waves, w + 1, after, results + e.results, session)
  }

  lemma SessionSkips(waves: seq<seq<Step>>, w: nat, saved: Saved, results: seq<StepResult>, session: Session)
    requires w < |waves| && Without(waves[w], saved.completed) == []
    ensures SessionFrom(waves, w, saved, results, session) == SessionFrom(waves, w + 1, saved, results, session)
  {
  }

  lemma SessionEnds(waves: seq<seq<Step>>, saved: Saved, results: seq<StepResult>, session: Session)
    ensures SessionFrom(waves, |waves|, saved, results, session) == Ending(saved, results, FinalStatus(results), true)
  {
  }

  /** Each result belongs to its step, and whoever has an output has it on the blackboard. */
  ghost predicate ResultsFor(results: seq<StepResult>, pending: seq<Step>, outputs: map<string, string>) {
    && |results| == |pending|
    && forall i :: 0 <= i < |results| ==>
         && results[i].step == pending[i].id
         && (HasOutput(results[i].status) ==> pending[i].OutputKey() in outputs)
  }

  lemma {:induction false} WaveKeeps(pending: seq<Step>, worlds: string -> StepWorld, outputs: map<string, string>, memory: map<string, R.Record>)
    requires GapAlive(memory)
    ensures var e := EffectOf(pending, worlds, outputs, memory);
            GapAlive(e.memory) && outputs.Keys <= e.outputs.Keys && ResultsFor(e.results, pending, e.outputs)
  {
    if pending != [] {
      var front, s := pending[..|pending| - 1], pending[|pending| - 1];
      WaveKeeps(front, worlds, outputs, memory);
      var before := EffectOf(front, worlds, outputs, memory);
      EveryStepKeeps(s, worlds(s.id), before.outputs, before.memory);
      hide StepEffect, GapAlive;
    }
  }

  lemma OneMoreStep(interruption: Interruption, wave: seq<Step>, s: Step, worlds: string -> StepWorld,
                    outputs: map<string, string>, memory: map<string, R.Record>)
    ensures StartEvents(interruption.Reached(wave + [s])) ==
            StartEvents(interruption.Reached(wave)) + if interruption.Starts(s.id) then [Started(s.id)] else []
    ensures var before := EffectOf(interruption.Ended(wave), worlds, outputs, memory);
            EffectOf(interruption.Ended(wave + [s]), worlds, outputs, memory) ==
            if interruption.Finishes(s.id) then
              var e := StepEffect(s, worlds(s.id), before.outputs, before.memory);
              WaveEffect(before.results + [Settled(s, e.result)], e.outputs, e.memory)
            else before
  {
    hide StepEffect, EffectOf, StartEvents, interruption.Reached, interruption.Ended;
    OneMoreOfWave(interruption, wave, s);
    var reached, ended := interruption.Reached(wave), interruption.Ended(wave);
    StartsOneMore(reached, s);
    EffectOneMore(ended, s, worlds, outputs, memory);
    assert reached + [] == reached && ended + [] == ended;
    assert StartEvents(reached) + [] == StartEvents(reached);
  }

  lemma NothingStarted(interruption: Interruption, worlds: string -> StepWorld, outputs: map<string, string>, memory: map<string, R.Record>)
    ensures StartEvents(interruption.Reached([])) == []
    ensures EffectOf(interruption.Ended([]), worlds, outputs, memory) == WaveEffect([], outputs, memory)
  {
  }

  lemma StartsOneMore(wave: seq<Step>, s: Step)
    ensures StartEvents(wave + [s]) == StartEvents(wave) + [Started(s.id)]
  {
    assert (wave + [s])[..|wave|] == wave;
  }

  lemma EffectOneMore(wave: seq<Step>, s: Step, worlds: string -> StepWorld, outputs: map<string, string>, memory: map<string, R.Record>)
    ensures var before := EffectOf(wave, worlds, outputs, memory);
            var e := StepEffect(s, worlds(s.id), before.outputs, before.memory);
            EffectOf(wave + [s], worlds, outputs, memory) == WaveEffect(before.results + [Settled(s, e.result)], e.outputs, e.memory)
  {
    hide StepEffect;
    assert (wave + [s])[..|wave|] == wave;
  }

  /** Executes the pending steps of a wave. An interruption may have let any of them
      start, and any of those end. */
  method RunWave(run: MissionRun, board: Blackboard, pending: seq<Step>, worlds: string -> StepWorld,
                 interruption: Interruption)
    returns (results: seq<StepResult>)
    modifies run`history, board`outputs, board.resolver
    ensures run.history == old(run.history) + StartEvents(interruption.Reached(pending))
    ensures WaveEffect(results, board.outputs, board.resolver.memory)
            == EffectOf(interruption.Ended(pending), worlds, old(board.outputs), old(board.resolver.memory))
  {
    hide StepEffect, interruption.Reached, interruption.Ended, interruption.Starts, interruption.Finishes, EffectOf, StartEvents;
    results := [];
    ghost var past, outputs, memory := run.history, board.outputs, board.resolver.memory;
    assert pending[..0] == [];
    NothingStarted(interruption, worlds, outputs, memory);
    for i := 0 to |pending|
      invariant run.history == past + StartEvents(interruption.Reached(pending[..i]))
      invariant WaveEffect(results, board.outputs, board.resolver.memory)
                == EffectOf(interruption.Ended(pending[..i]), worlds, outputs, memory)
    {
      assert pending[..i + 1] == pending[..i] + [pending[i]];
      OneMoreStep(interruption, pending[..i], pending[i], worlds, outputs, memory);
      if interruption.Starts(pending[i].id) {
        run.history := run.history + [Started(pending[i].id)];
      }
      if interruption.Finishes(pending[i].id) {
        var r := ExecuteStep(pending[i], board, worlds(pending[i].id));
        results := results + [Settled(pending[i], r)];
      }
    }
    assert pending[..|pending|] == pending;
  }

  /** Whose results a session has. */
  function StepsOf(results: seq<StepResult>): set<string> {
    set r | r in results :: r.step
  }

  /** Every result with an output still has it among the saved outputs. */
  ghost predicate OutputsSaved(steps: seq<Step>, results: seq<StepResult>, outputs: map<string, string>) {
    forall s, r :: s in steps && r in results && r.step == s.id && HasOutput(r.status) ==> s.OutputKey() in outputs
  }

  /** Why a session that did not reach the end stopped. */
  ghost predicate StoppedFor(steps: seq<Step>, results: seq<StepResult>, status: RunStatus, session: Session) {
    match status
    case RunPartial => exists w :: session.pastDeadline(w) || session.overBudget(w)
    case RunFailed => exists s, r :: s in steps && r in results && r.step == s.id && Fatal(s, r)
    case RunCancelled => exists w :: session.interruption(w).IsCancelled?
    case Running => exists w :: session.interruption(w).Dies?
    case RunSucceeded => false
  }

  /** Runs a mission from its saved state until it ends, stops or is interrupted. */
  method RunSession(steps: seq<Step>, waves: seq<seq<Step>>, run: MissionRun, session: Session)
    returns (results: seq<StepResult>, reachedEnd: bool)
    requires UniqueIds(steps) && IsExecutionOrder(steps, waves)
    requires RunInvariant(steps, waves, run.saved, run.history)
    modifies run
    ensures RunInvariant(steps, waves, run.saved, run.history)
    ensures old(run.history) <= run.history
    ensures old(run.saved.completed) <= run.saved.completed
    ensures StepsOf(results) == run.saved.completed - old(run.saved.completed)
    ensures old(run.saved.outputs).Keys <= run.saved.outputs.Keys && OutputsSaved(steps, results, run.saved.outputs)
    ensures reachedEnd ==> run.saved.completed == Ids(steps) && run.status == FinalStatus(results)
    ensures !reachedEnd ==> StoppedFor(steps, results, run.status, session)
    ensures Ending(run.saved, results, run.status, reachedEnd) == SessionFrom(waves, 0, old(run.saved), [], session)
  {
    hide *;
    run.status := Running;
    results, reachedEnd := [], false;
    var board := new Blackboard(run.saved.outputs, run.saved.memory);
    var completed := run.saved.completed;
    ghost var k := ResumePoint(steps, waves, run.saved, run.history);
    NoResultsYet(steps, board.outputs);

    for w := 0 to |waves|
      invariant w <= k && WavePrefix(waves, completed, k)
      invariant RunInvariant(steps, waves, run.saved, run.history)
      invariant completed == run.saved.completed && run.saved.memory == board.resolver.memory
      invariant GapAlive(board.resolver.memory)
      invariant old(run.history) <= run.history && old(run.saved.completed) <= completed
      invariant run.status == Running
      invariant StepsOf(results) == completed - old(run.saved.completed)
      invariant run.saved.outputs == board.outputs && old(run.saved.outputs).Keys <= board.outputs.Keys
      invariant OutputsSaved(steps, results, board.outputs)
      invariant SessionFrom(waves, w, run.saved, results, session) == SessionFrom(waves, 0, old(run.saved), [], session)
    {
      var pending := Without(waves[w], completed);
      PendingIsAllOrNothing(steps, waves, completed, k, w);
      if pending == [] {
        EmptyWaveIsDone(steps, waves, k, w);
        SessionSkips(waves, w, run.saved, results, session);
        continue;
      }
      if session.pastDeadline(w) || session.overBudget(w) {
        Halted(steps, waves, run.saved, results, w, session);
        run.status := RunPartial;
        return;
      }
      NextWave(steps, waves, completed, k);
      ghost var before := run.history;
      var waveResults := RunWave(run, board, pending, session.worlds, session.interruption(w));
      WaveKeeps(session.interruption(w).Ended(pending), session.worlds, run.saved.outputs, run.saved.memory);
      PartOfWave(session.interruption(w), pending);
      if !session.interruption(w).RunsOn? {
        Interrupted(steps, waves, run.saved, before, session.interruption(w).Reached(pending), run.saved.outputs, run.saved.memory);
        Interrupted(steps, waves, run.saved, before, session.interruption(w).Reached(pending), board.outputs, board.resolver.memory);
        OutputsStay(steps, results, run.saved.outputs, board.outputs);
        Broken(steps, waves, run.saved, results, w, session);
        if session.interruption(w).IsCancelled? {
          run.status := RunCancelled;
          run.saved := Saved(completed, board.outputs, board.resolver.memory);
        }
        return;
      }
      NothingCut(pending);
      PendingIsNew(steps, pending, results, waveResults, run.saved.outputs, board.outputs, old(run.saved.completed), completed);
      Gathered(waves, run.saved, results, w, session);
      results := results + waveResults;
      completed := completed + Ids(pending);
      Checkpoint(steps, waves, run.saved, before, pending, k, board.outputs, board.resolver.memory);
      run.saved := Saved(completed, board.outputs, board.resolver.memory);
      run.history := run.history + [Committed(Ids(pending))];
      k := k + 1;
      if i :| 0 <= i < |waveResults| && i < |pending| && Fatal(pending[i], waveResults[i]) {
        StoppedByStep(steps, results, pending, waveResults, board.outputs, i, session);
        run.status := RunFailed;
        return;
      }
    }
    AllWavesDone(steps, waves, completed, k);
    SessionEnds(waves, run.saved, results, session);
    run.status := FinalStatus(results);
    reachedEnd := true;
  }

  lemma ResumePoint(steps: seq<Step>, waves: seq<seq<Step>>, saved: Saved, history: seq<Event>) returns (k: nat)
    requires RunInvariant(steps, waves, saved, history)
    ensures WavePrefix(waves, saved.completed, k) && GapAlive(saved.memory)
  {
    k :| WavePrefix(waves, saved.completed, k);
  }

  lemma EmptyWaveIsDone(steps: seq<Step>, waves: seq<seq<Step>>, k: nat, w: nat)
    requires IsExecutionOrder(steps, waves) && w < |waves|
    ensures waves[w] != []
  {
  }

  /** An interrupted wave has started some steps but committed none. */
  lemma Interrupted(steps: seq<Step>, waves: seq<seq<Step>>, saved: Saved, history: seq<Event>, reached: seq<Step>,
                    outputs: map<string, string>, memory: map<string, R.Record>)
    requires RunInvariant(steps, waves, saved, history) && GapAlive(memory)
    requires forall s :: s in reached ==> s in steps && s.id !in saved.completed && NeedsWithin(s, saved.completed)
    ensures RunInvariant(steps, waves, Saved(saved.completed, outputs, memory), history + StartEvents(reached))
  {
    StartsAreSafe(steps, history, reached);
    StartsCommitNothing(history, reached);
  }

  /** A completed wave is committed as a whole. */
  lemma Checkpoint(steps: seq<Step>, waves: seq<seq<Step>>, saved: Saved, history: seq<Event>, pending: seq<Step>,
                   k: nat, outputs: map<string, string>, memory: map<string, R.Record>)
    requires RunInvariant(steps, waves, saved, history) && GapAlive(memory)
    requires forall s :: s in pending ==> s in steps && s.id !in saved.completed && NeedsWithin(s, saved.completed)
    requires WavePrefix(waves, saved.completed + Ids(pending), k + 1)
    ensures RunInvariant(steps, waves, Saved(saved.completed + Ids(pending), outputs, memory),
                         history + StartEvents(pending) + [Committed(Ids(pending))])
  {
    hide WavePrefix;
    CommitStep(steps, history, pending);
  }

  /** Adding a wave's results keeps them in step with the completed set and the outputs. */
  lemma PendingIsNew(steps: seq<Step>, pending: seq<Step>, results: seq<StepResult>, more: seq<StepResult>,
                     outputs: map<string, string>, after: map<string, string>, before: set<string>, completed: set<string>)
    requires UniqueIds(steps) && before <= completed && StepsOf(results) == completed - before
    requires OutputsSaved(steps, results, outputs) && outputs.Keys <= after.Keys && ResultsFor(more, pending, after)
    requires forall s :: s in pending ==> s in steps && s.id !in completed
    ensures StepsOf(results + more) == completed + Ids(pending) - before
    ensures OutputsSaved(steps, results + more, after)
  {
    UniqueIdsMeanSameStep(steps);
    hide UniqueIds;
    forall r | r in more
      ensures exists s :: s in pending && s.id == r.step && (HasOutput(r.status) ==> s.OutputKey() in after)
    {
      var i :| 0 <= i < |more| && more[i] == r;
      assert pending[i] in pending;
    }
    forall s | s in pending
      ensures s.id in StepsOf(more)
    {
      var i :| 0 <= i < |pending| && pending[i] == s;
      assert more[i] in more;
    }
    assert StepsOf(results + more) == StepsOf(results) + StepsOf(more);
    assert StepsOf(more) == Ids(pending);
  }

  lemma NoResultsYet(steps: seq<Step>, outputs: map<string, string>)
    ensures StepsOf([]) == {} && OutputsSaved(steps, [], outputs)
  {
  }

  lemma OutputsStay(steps: seq<Step>, results: seq<StepResult>, outputs: map<string, string>, after: map<string, string>)
    requires OutputsSaved(steps, results, outputs) && outputs.Keys <= after.Keys
    ensures OutputsSaved(steps, results, after)
  {
  }

  lemma Halted(steps: seq<Step>, waves: seq<seq<Step>>, saved: Saved, results: seq<StepResult>, w: nat, session: Session)
    requires w < |waves| && Without(waves[w], saved.completed) != []
    requires session.pastDeadline(w) || session.overBudget(w)
    ensures StoppedFor(steps, results, RunPartial, session)
    ensures SessionFrom(waves, w, saved, results, session) == Ending(saved, results, RunPartial, false)
  {
  }

  lemma Broken(steps: seq<Step>, waves: seq<seq<Step>>, saved: Saved, results: seq<StepResult>, w: nat, session: Session)
    requires w < |waves| && Without(waves[w], saved.completed) != []
    requires !session.pastDeadline(w) && !session.overBudget(w) && !session.interruption(w).RunsOn?
    ensures StoppedFor(steps, results, if session.interruption(w).IsCancelled? then RunCancelled else Running, session)
    ensures var pending := Without(waves[w], saved.completed);
            var e := EffectOf(session.interruption(w).Ended(pending), session.worlds, saved.outputs, saved.memory);
            SessionFrom(waves, w, saved, results, session) ==
            if session.interruption(w).IsCancelled? then Ending(Saved(saved.completed, e.outputs, e.memory), results, RunCancelled, false)
            else Ending(saved, results, Running, false)
  {
  }

  lemma Gathered(waves: seq<seq<Step>>, saved: Saved, results: seq<StepResult>, w: nat, session: Session)
    requires w < |waves| && Without(waves[w], saved.completed) != []
    requires !session.pastDeadline(w) && !session.overBudget(w) && session.interruption(w).RunsOn?
    ensures var pending := Without(waves[w], saved.completed);
            var e := EffectOf(pending, session.worlds, saved.outputs, saved.memory);
            var after := Saved(saved.completed + Ids(pending), e.outputs, e.memory);
            SessionFrom(waves, w, saved, results, session) ==
            if exists i :: 0 <= i < |pending| && Fatal(pending[i], e.results[i]) then Ending(after, results + e.results, RunFailed, false)
            else SessionFrom(waves, w + 1, after, results + e.results, session)
  {
  }

  lemma StoppedByStep(steps: seq<Step>, results: seq<StepResult>, pending: seq<Step>, waveResults: seq<StepResult>,
                      outputs: map<string, string>, i: nat, session: Session)
    requires ResultsFor(waveResults, pending, outputs) && i < |pending| && Fatal(pending[i], waveResults[i])
    requires forall s :: s in pending ==> s in steps
    requires waveResults[i] in results
    ensures StoppedFor(steps, results, RunFailed, session)
  {
    assert pending[i] in pending;
  }

  lemma AllWavesDone(steps: seq<Step>, waves: seq<seq<Step>>, completed: set<string>, k: nat)
    requires IsExecutionOrder(steps, waves) && WavePrefix(waves, completed, k) && k >= |waves|
    ensures completed == Ids(steps)
  {
    assert waves[..k] == waves;
    SameElements(Flatten(waves), steps);
  }
}

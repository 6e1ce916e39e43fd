/** When the order of a wave does not show: an exact condition for waves of agent steps
    and steps that use no model. */
module AgentWave {
  import opened Common
  import opened WaveInterleaving
  import E = MissionEngine

  /** What an agent does between two suspensions: it asks the model, or uses a tool. */
  datatype Item = Ask(projected: real, usd: real) | UseTool(cost: real)

  /** The engine looks at the budget and then dispatches an agent, as a task of its own. */
  const DISPATCH := UseTool(0.0)

  /** A step of the wave. An agent is dispatched, runs through its beats and stores its
      answer. If a guard refuses one of its model calls the attempt is over: it is
      dispatched again, at most `retries` times, and then ends as `refused`, which is where
      the resolver leaves it. A plain step pauses some times and ends. */
  datatype Step =
    | Agent(output: Key, ceiling: real, retries: nat, beats: seq<Item>, answer: Value, refused: Outcome)
    | Plain(output: Key, pauses: nat, outcome: Outcome)

  /** Where a step stands: which attempt it is in, and how many beats of it are done. */
  datatype Place = At(attempt: nat, beat: nat)

  const SKIPPED := Outcome(E.Skipped, None)

  /** What beats cost in all, and what they charge to a guard. */
  function Cost(items: seq<Item>): real {
    if items == [] then 0.0
    else
      var last := items[|items| - 1];
      Cost(items[..|items| - 1]) + if last.Ask? then last.usd else last.cost
  }

  function Charge(items: seq<Item>): real {
    if items == [] then 0.0
    else
      var last := items[|items| - 1];
      Charge(items[..|items| - 1]) + if last.Ask? then last.usd else 0.0
  }

  function Length(step: Step): nat {
    if step.Agent? then |step.beats| else step.pauses
  }

  /** How a step ends when nothing is refused or skipped. */
  function Expected(step: Step): Outcome {
    if step.Agent? then Outcome(E.Succeeded, Some(step.answer)) else step.outcome
  }

  /** Going on after `k` beats of an attempt: the next one, or the end, where an agent
      books its cost on the mission's budget. */
  function GoOn(step: Step, attempt: nat, k: nat): Op<Place>
    requires k <= Length(step)
  {
    match step
    case Agent(_, _, _, beats, _, _) =>
      if k == |beats| then Spend(Cost(beats), Finish(Expected(step)))
      else if beats[k].Ask? then Check(beats[k].projected, Suspend(At(attempt, k + 1)), GiveUp(step, attempt, k))
      else Suspend(At(attempt, k + 1))
    case Plain(_, pauses, outcome) =>
      if k == pauses then Finish(outcome) else Suspend(At(attempt, k + 1))
  }

  /** A refused attempt books what it has cost, and is followed by another dispatch, if any
      is left, after a pause and without another look at the budget. */
  function GiveUp(step: Step, attempt: nat, k: nat): Op<Place>
    requires step.Agent? && k <= |step.beats|
  {
    Spend(Cost(step.beats[..k]), if attempt < step.retries then Suspend(At(attempt + 1, 1)) else Finish(step.refused))
  }

  /** The stretch of a step resumed with `k` beats done, the last of them to be charged.
      It looks at the budget first, and a dispatched agent puts its guard into the slot. */
  function Stretch(step: Step, attempt: nat, k: nat): Op<Place> {
    if k == 0 || k > Length(step) then
      Look(GoOn(step, attempt, 0), Finish(SKIPPED))
    else if step.Agent? && k == 1 then Install(step.ceiling, GoOn(step, attempt, 1))
    else if step.Agent? && step.beats[k - 1].Ask? then Record(step.beats[k - 1].usd, GoOn(step, attempt, k))
    else GoOn(step, attempt, k)
  }

  function TaskOf(step: Step): Task<Place> {
    Task(step.output, At(0, 0), (place: Place, board: Board) => Stretch(step, place.attempt, place.beat))
  }

  /** Running a wave of such steps. */
  datatype Stage = Stage(steps: seq<Step>, limit: real, board: Board, money: Money)
  {
    function Tasks(): (ts: seq<Task<Place>>)
      ensures |ts| == |steps| && forall i :: 0 <= i < |ts| ==> ts[i] == TaskOf(steps[i])
    {
      seq(|steps|, i requires 0 <= i < |steps| => TaskOf(steps[i]))
    }

    function After(schedule: Schedule): (c: Config<Place>)
      requires ScheduleFor(schedule, |steps|)
      ensures |c.states| == |steps|
    {
      Run(Tasks(), limit, Initial(Tasks(), board, money), schedule)
    }

    ghost predicate Complete(schedule: Schedule) {
      ScheduleFor(schedule, |steps|) && AllOver(After(schedule))
    }

    function Caps(): (caps: seq<Ledger>)
      ensures |caps| == |steps| && forall i :: 0 <= i < |caps| ==> caps[i] == CapOf(steps[i])
    {
      seq(|steps|, i requires 0 <= i < |steps| => CapOf(steps[i]))
    }

    /** What the steps other than `i` book in all. */
    function Others(i: nat): Ledger
      requires i < |steps|
    {
      Total(Caps()).Minus(CapOf(steps[i]))
    }
  }

  /** All a step can book: its cost on the mission's budget, its model calls on guards. */
  function CapOf(step: Step): Ledger {
    if step.Agent? then Ledger(Cost(step.beats), Charge(step.beats), Cost(step.beats)) else NOTHING
  }

  /** Refused and skipped look different from the expected end. */
  ghost predicate EndsDiffer(step: Step) {
    match step
    case Agent(_, _, _, _, _, refused) => refused.status != E.Succeeded
    case Plain(_, _, outcome) => outcome.status != E.Skipped
  }

  /** A step that finishes as expected when it has budget and router to itself. */
  ghost predicate FinishesAlone(step: Step, orgRemaining: real) {
    && EndsDiffer(step)
    && match step
       case Agent(_, ceiling, _, beats, _, _) =>
         && beats != [] && beats[0] == DISPATCH
         && (forall k :: 0 <= k < |beats| && beats[k].UseTool? ==> beats[k].cost >= 0.0)
         && (forall k :: 0 <= k < |beats| && beats[k].Ask? ==>
               && beats[k].usd >= 0.0
               && Charge(beats[..k]) + beats[k].projected <= ceiling
               && Charge(beats[..k]) + beats[k].projected <= orgRemaining)
       case Plain(_, _, _) => true
  }

  ghost predicate Proper(s: Stage) {
    && (forall i, j :: 0 <= i < j < |s.steps| ==> s.steps[i].output != s.steps[j].output)
    && (forall i :: 0 <= i < |s.steps| ==> FinishesAlone(s.steps[i], s.money.orgRemaining))
    && s.money.spent < s.limit
  }

  predicate IsAgent(s: Stage, a: nat) {
    a < |s.steps| && s.steps[a].Agent?
  }

  predicate Asks(s: Stage, b: nat, k: nat) {
    IsAgent(s, b) && k < |s.steps[b].beats| && s.steps[b].beats[k].Ask?
  }

  /** Model call `k` of agent `b` fits under ceiling `a` and the organisation's remainder
      after everything all the others can book. A call right after the dispatch is checked
      in the very stretch that puts the agent's own fresh guard into the slot. */
  predicate CallFits(s: Stage, b: nat, k: nat, a: nat)
    requires Asks(s, b, k) && IsAgent(s, a)
  {
    var need := Charge(s.steps[b].beats[..k]) + s.steps[b].beats[k].projected;
    && need + s.Others(b).drawn <= s.money.orgRemaining
    && (k == 1 || need + s.Others(b).charged <= s.steps[a].ceiling)
  }

  /** No step can find the run limit reached by the others, and no model call can find a
      guard used up by them, whichever agent started last. */
  ghost predicate Fits(s: Stage) {
    && (forall i :: 0 <= i < |s.steps| ==> s.money.spent + s.Others(i).spent < s.limit)
    && (forall b: nat, k: nat, a: nat :: Asks(s, b, k) && IsAgent(s, a) ==> CallFits(s, b, k, a))
  }

  /** Where an agent may try again, a refused attempt that got beyond its first beat has
      cost something. */
  ghost predicate RetriesCost(s: Stage) {
    forall a: nat :: IsAgent(s, a) && s.steps[a].retries > 0 && |s.steps[a].beats| >= 2 ==> Cost(s.steps[a].beats[..2]) > 0.0
  }

  /** Every complete schedule ends every step as expected, and no attempt is made twice. */
  ghost predicate AllAsExpected(s: Stage) {
    forall schedule :: s.Complete(schedule) ==> AsPlanned(s, s.After(schedule))
  }

  ghost predicate AsPlanned(s: Stage, c: Config<Place>)
    requires |c.states| == |s.steps|
  {
    AsExpected(s, c) && c.money.spent == s.money.spent + Total(s.Caps()).spent
  }

  ghost predicate AsExpected(s: Stage, c: Config<Place>)
    requires |c.states| == |s.steps|
  {
    forall i :: 0 <= i < |s.steps| ==> c.states[i] == Over(Expected(s.steps[i]))
  }

  /** All complete schedules end alike. */
  ghost predicate Agreed(s: Stage) {
    forall one, other :: s.Complete(one) && s.Complete(other) ==> SameOutcome(s.After(one), s.After(other))
  }

  // ---------- the calm trail of a step ----------

  lemma {:induction false} CostOfPrefix(items: seq<Item>, k: nat)
    requires k < |items|
    ensures Cost(items[..k + 1]) == Cost(items[..k]) + if items[k].Ask? then items[k].usd else items[k].cost
    ensures Charge(items[..k + 1]) == Charge(items[..k]) + if items[k].Ask? then items[k].usd else 0.0
  {
    assert items[..k + 1][..k] == items[..k];
  }

  ghost predicate Nonnegative(items: seq<Item>) {
    forall k :: 0 <= k < |items| ==> (items[k].Ask? ==> items[k].usd >= 0.0) && (items[k].UseTool? ==> items[k].cost >= 0.0)
  }

  ghost predicate WellCosted(step: Step) {
    step.Agent? ==> step.beats != [] && step.beats[0] == DISPATCH && Nonnegative(step.beats)
  }

  lemma {:induction false} PrefixesBelow(items: seq<Item>, k: nat)
    requires Nonnegative(items) && k <= |items|
    ensures 0.0 <= Charge(items[..k]) <= Charge(items) <= Cost(items)
    ensures Charge(items[..k]) <= Cost(items[..k]) <= Cost(items)
    decreases |items|
  {
    if k == |items| {
      assert items[..k] == items;
      if items != [] {
        PrefixesBelow(items[..|items| - 1], |items| - 1);
        assert items[..|items| - 1][..|items| - 1] == items[..|items| - 1];
      }
    } else {
      PrefixesBelow(items[..|items| - 1], k);
      assert items[..|items| - 1][..k] == items[..k];
    }
  }

  /** What a step has booked with `k` beats done and charged. */
  function LedgerAt(step: Step, k: nat): Ledger
    requires k <= Length(step)
  {
    if step.Agent? then Ledger(0.0, Charge(step.beats[..k]), Charge(step.beats[..k])) else NOTHING
  }

  /** The trail in closed form: resumed `n` times the step has `n - 1` beats charged. */
  function TrailAt(step: Step, n: nat): Trail<Place> {
    if n == 0 then Trail(Running(At(0, 0)), NOTHING)
    else if n <= Length(step) then Trail(Running(At(0, n)), LedgerAt(step, n - 1))
    else Trail(Over(Expected(step)), CapOf(step))
  }

  lemma {:induction false} CalmIsTrail(step: Step, board: Board, n: nat)
    requires WellCosted(step)
    ensures Calm(TaskOf(step), board, n) == TrailAt(step, n)
  {
    if n > 0 {
      CalmIsTrail(step, board, n - 1);
      if n - 1 <= Length(step) {
        StretchAlongTrail(step, n - 1);
      }
    }
  }

  lemma StretchAlongTrail(step: Step, k: nat)
    requires k <= Length(step) && WellCosted(step)
    ensures Follow(Stretch(step, 0, k)) == TrailAt(step, k + 1).state
    ensures Booked(Stretch(step, 0, k), TrailAt(step, k).ledger) == TrailAt(step, k + 1).ledger
  {
    GoOnAlongTrail(step, k);
    if step.Agent? {
      assert step.beats[..0] == [];
      if k > 0 {
        CostOfPrefix(step.beats, k - 1);
      }
    }
    hide GoOn, Charge, Cost;
  }

  lemma GoOnAlongTrail(step: Step, k: nat)
    requires k <= Length(step) && WellCosted(step)
    ensures Follow(GoOn(step, 0, k)) == TrailAt(step, k + 1).state
    ensures Booked(GoOn(step, 0, k), LedgerAt(step, k)) == TrailAt(step, k + 1).ledger
  {
    if step.Agent? && k == |step.beats| {
      PrefixesBelow(step.beats, k);
      assert step.beats[..k] == step.beats;
    }
    hide Charge, Cost;
  }

  lemma TrailWithinCap(step: Step, n: nat)
    requires WellCosted(step)
    ensures TrailAt(step, n).ledger.Within(CapOf(step)) && TrailAt(step, n).ledger.Sound() && CapOf(step).Sound()
  {
    if step.Agent? {
      PrefixesBelow(step.beats, if 1 <= n <= |step.beats| then n - 1 else 0);
    }
  }

  lemma ProperIsNonnegative(s: Stage, i: nat)
    requires Proper(s) && i < |s.steps|
    ensures WellCosted(s.steps[i])
  {
    assert FinishesAlone(s.steps[i], s.money.orgRemaining);
  }

  // ---------- a wave that fits is harmless ----------

  ghost function LeastCeiling(steps: seq<Step>): (floor: real)
    ensures forall i :: 0 <= i < |steps| && steps[i].Agent? ==> floor <= steps[i].ceiling
    ensures (exists i :: 0 <= i < |steps| && steps[i].Agent?) ==>
              exists i :: 0 <= i < |steps| && steps[i].Agent? && floor == steps[i].ceiling
  {
    if steps == [] then 0.0
    else
      var front, last := steps[..|steps| - 1], steps[|steps| - 1];
      var floor := LeastCeiling(front);
      if last.Plain? then floor
      else if (forall i :: 0 <= i < |front| ==> front[i].Plain?) || last.ceiling <= floor then last.ceiling
      else floor
  }

  ghost function SetupOf(s: Stage): Setup<Place> {
    Setup(s.Tasks(), seq(|s.steps|, i => {}), Crowd(s.Caps(), LeastCeiling(s.steps)), s.limit, s.board, s.money)
  }

  function RoomOf(s: Stage, floor: real, i: nat): Room
    requires i < |s.steps|
  {
    RoomFor(s.limit, s.money, s.Caps(), floor, i)
  }

  lemma GoOnUnbound(s: Stage, floor: real, i: nat, k: nat)
    requires Proper(s) && Fits(s) && i < |s.steps| && k <= Length(s.steps[i]) && floor == LeastCeiling(s.steps)
    ensures Unbound(GoOn(s.steps[i], 0, k), LedgerAt(s.steps[i], k),
                    if k == 1 && s.steps[i].Agent? then Some(s.steps[i].ceiling) else None, RoomOf(s, floor, i))
  {
    hide Charge, Cost, Total, Proper, Fits, s.Caps;
    var step := s.steps[i];
    ProperIsNonnegative(s, i);
    if step.Agent? {
      PrefixesBelow(step.beats, |step.beats|);
      assert step.beats[..|step.beats|] == step.beats;
      if k < |step.beats| && step.beats[k].Ask? {
        CallIsUnbound(s, floor, i, k);
      }
    }
  }

  /** A call that fits passes whatever the others have taken. */
  lemma CallIsUnbound(s: Stage, floor: real, b: nat, k: nat)
    requires Proper(s) && Fits(s) && Asks(s, b, k) && floor == LeastCeiling(s.steps)
    ensures var (step, need) := (s.steps[b], Charge(s.steps[b].beats[..k]) + s.steps[b].beats[k].projected);
            && k >= 1 && need <= RoomOf(s, floor, b).drawn
            && (if k == 1 then step.beats[k].projected <= step.ceiling else need <= RoomOf(s, floor, b).charged)
  {
    hide Cost, Total, s.Caps;
    var a: nat :| IsAgent(s, a) && floor == s.steps[a].ceiling;
    assert CallFits(s, b, k, a);
    assert FinishesAlone(s.steps[b], s.money.orgRemaining);
    NothingInDispatch(s.steps[b].beats);
    hide Charge;
  }

  lemma StretchUnbound(s: Stage, floor: real, i: nat, k: nat)
    requires Proper(s) && Fits(s) && i < |s.steps| && k <= Length(s.steps[i]) && floor == LeastCeiling(s.steps)
    ensures Unbound(Stretch(s.steps[i], 0, k), TrailAt(s.steps[i], k).ledger, None, RoomOf(s, floor, i))
  {
    GoOnUnbound(s, floor, i, k);
    ProperIsNonnegative(s, i);
    assert s.money.spent + s.Others(i).spent < s.limit;
    hide Fits, Proper;
    StretchFromGoOn(s, floor, i, k);
  }

  lemma StretchFromGoOn(s: Stage, floor: real, i: nat, k: nat)
    requires i < |s.steps| && k <= Length(s.steps[i]) && WellCosted(s.steps[i])
    requires s.money.spent + s.Others(i).spent < s.limit && (s.steps[i].Agent? ==> floor <= s.steps[i].ceiling)
    requires Unbound(GoOn(s.steps[i], 0, k), LedgerAt(s.steps[i], k),
                     if k == 1 && s.steps[i].Agent? then Some(s.steps[i].ceiling) else None, RoomOf(s, floor, i))
    ensures Unbound(Stretch(s.steps[i], 0, k), TrailAt(s.steps[i], k).ledger, None, RoomOf(s, floor, i))
  {
    var step := s.steps[i];
    if step.Agent? {
      NothingInDispatch(step.beats);
      if k > 0 {
        CostOfPrefix(step.beats, k - 1);
      }
    }
    hide GoOn, Charge, Cost, Total;
  }

  lemma StepBringsGuard(step: Step)
    requires WellCosted(step)
    ensures BringsGuard(TaskOf(step)) && ReadsOnly(TaskOf(step), {})
  {
    var task: Task<Place>, end: Op<Place> := TaskOf(step), Finish(SKIPPED);
    var early: Place -> bool := (place: Place) => step.Plain? || place.beat <= 1;
    forall place: Place, board: Board | early(place)
      ensures OpensGuard(task.move(place, board)) || StaysEarly<Place>(task.move(place, board), early)
    {
      var attempt, k := place.attempt, place.beat;
      assert StaysEarly(end, early) && StaysEarly(GoOn(step, attempt, 0), early);
      if step.Plain? {
        assert k <= Length(step) ==> StaysEarly(GoOn(step, attempt, k), early);
      } else {
        assert OpensGuard(Install(step.ceiling, GoOn(step, attempt, 1)));
      }
    }
    assert OpensInTime(task, early);
  }

  lemma FittingIsReady(s: Stage)
    requires Proper(s) && Fits(s)
    ensures Ready(SetupOf(s))
  {
    var t, floor := SetupOf(s), LeastCeiling(s.steps);
    forall i | 0 <= i < |s.steps|
      ensures BringsGuard(t.tasks[i]) && ReadsOnly(t.tasks[i], t.inputs[i])
      ensures forall n: nat :: Calm(t.tasks[i], s.board, n).ledger.Within(s.Caps()[i])
      ensures CalmlyUnbound(t.tasks[i], s.board, RoomOf(s, floor, i))
    {
      ProperIsNonnegative(s, i);
      StepBringsGuard(s.steps[i]);
      forall n: nat
        ensures Calm(t.tasks[i], s.board, n) == TrailAt(s.steps[i], n)
        ensures TrailAt(s.steps[i], n).ledger.Within(CapOf(s.steps[i]))
        ensures n <= Length(s.steps[i]) ==>
                  Unbound(Stretch(s.steps[i], 0, n), TrailAt(s.steps[i], n).ledger, None,
                          RoomOf(s, floor, i))
      {
        CalmIsTrail(s.steps[i], s.board, n);
        TrailWithinCap(s.steps[i], n);
        if n <= Length(s.steps[i]) {
          StretchUnbound(s, floor, i, n);
        }
      }
    }
  }

  lemma FittingEnds(s: Stage, schedule: Schedule)
    requires Proper(s) && Ready(SetupOf(s)) && s.Complete(schedule)
    ensures AsPlanned(s, s.After(schedule))
  {
    hide Proper, Ready, Total, Calm, CapOf;
    var t, counts := SetupOf(s), Counts(schedule, |s.steps|);
    AnySchedule(t, schedule);
    forall i | 0 <= i < |s.steps|
      ensures s.After(schedule).states[i] == Over(Expected(s.steps[i]))
      ensures t.Ledgers(counts)[i] == CapOf(s.steps[i])
    {
      ProperIsNonnegative(s, i);
      CalmIsTrail(s.steps[i], s.board, counts[i]);
    }
    assert t.Ledgers(counts) == s.Caps();
  }

  /** A wave that fits ends every step as expected, and all schedules end alike. */
  lemma FittingIsEnough(s: Stage)
    requires Proper(s) && Fits(s)
    ensures AllAsExpected(s) && Agreed(s)
  {
    var t := SetupOf(s);
    FittingIsReady(s);
    forall schedule | s.Complete(schedule)
      ensures AsPlanned(s, s.After(schedule))
    {
      FittingEnds(s, schedule);
    }
    forall one, other | s.Complete(one) && s.Complete(other)
      ensures SameOutcome(s.After(one), s.After(other))
    {
      assert t.(money := t.money.(slot := s.money.slot)) == t;
      WaveIsConfluent(t, s.money.slot, one, other);
    }
  }

  // ---------- one resumption ----------

  /** The money once the charge for the last item, or a starting agent's guard, is in. */
  function Entering(step: Step, k: nat, m: Money): Money
    requires k <= Length(step)
  {
    if step.Plain? || k == 0 then m
    else if k == 1 then m.(slot := Some(Guard(step.ceiling, m.orgRemaining, 0.0)))
    else if step.beats[k - 1].Ask? && m.slot.Some? then m.(slot := Some(m.slot.value.Charged(step.beats[k - 1].usd)))
    else m
  }

  predicate TestsPass(step: Step, k: nat, limit: real, m: Money)
    requires k <= Length(step)
  {
    && (k == 0 ==> Rich(limit, m))
    && (step.Agent? && k < |step.beats| && step.beats[k].Ask? ==>
          Entering(step, k, m).slot.None? || Entering(step, k, m).slot.value.Passes(step.beats[k].projected))
  }

  function Paying(m: Money, cost: real): Money {
    m.(spent := m.spent + cost, orgRemaining := m.orgRemaining - cost)
  }

  function Leaving(step: Step, k: nat, m: Money): Money
    requires k <= Length(step)
  {
    var entered := Entering(step, k, m);
    if step.Agent? && k == |step.beats| then Paying(entered, Cost(step.beats)) else entered
  }

  /** Where a step is after a stretch whose tests pass. */
  function Onward(step: Step, attempt: nat, k: nat): TaskState<Place> {
    if k < Length(step) then Running(At(attempt, k + 1)) else Over(Expected(step))
  }

  /** And after one whose tests do not. */
  function Stopped(step: Step, attempt: nat, k: nat): TaskState<Place> {
    if k == 0 || step.Plain? then Over(SKIPPED)
    else if attempt < step.retries then Running(At(attempt + 1, 1))
    else Over(step.refused)
  }

  /** A stretch goes on if its tests pass, and otherwise ends the attempt. */
  lemma StretchRuns(step: Step, attempt: nat, k: nat, limit: real, m: Money)
    requires k <= Length(step) && WellCosted(step)
    ensures Exec(Stretch(step, attempt, k), limit, m) ==
            if TestsPass(step, k, limit, m) then (Onward(step, attempt, k), Leaving(step, k, m))
            else (Stopped(step, attempt, k), Paying(Entering(step, k, m), if step.Agent? && k > 0 then Cost(step.beats[..k]) else 0.0))
  {
    GoOnRuns(step, attempt, k, limit, Entering(step, k, m));
    hide GoOn, Cost;
  }

  lemma GoOnRuns(step: Step, attempt: nat, k: nat, limit: real, m: Money)
    requires k <= Length(step) && WellCosted(step)
    ensures var passes := step.Agent? && k < |step.beats| && step.beats[k].Ask? ==>
                            m.slot.None? || m.slot.value.Passes(step.beats[k].projected);
            Exec(GoOn(step, attempt, k), limit, m) ==
            if passes then (Onward(step, attempt, k), if step.Agent? && k == |step.beats| then Paying(m, Cost(step.beats)) else m)
            else (Stopped(step, attempt, k), Paying(m, Cost(step.beats[..k])))
  {
    hide Cost;
    if step.Agent? && k < |step.beats| && step.beats[k].Ask? {
      var cost := Cost(step.beats[..k]);
      var rest: Op<Place> := if attempt < step.retries then Suspend(At(attempt + 1, 1)) else Finish(step.refused);
      assert Exec(GiveUp(step, attempt, k), limit, m) == Exec(rest, limit, Paying(m, cost));
    }
  }

  // ---------- along a schedule that ends as expected ----------

  /** `prefix` is how the schedule begins. */
  predicate BeginsWith(schedule: Schedule, prefix: Schedule) {
    schedule == prefix || (schedule.Then? && BeginsWith(schedule.before, prefix))
  }

  lemma {:induction false} BeginsWithBefore(schedule: Schedule, prefix: Schedule)
    requires BeginsWith(schedule, prefix) && prefix.Then?
    ensures BeginsWith(schedule, prefix.before)
  {
    if schedule != prefix {
      BeginsWithBefore(schedule.before, prefix);
    }
  }

  lemma {:induction false} PrefixScheduled(schedule: Schedule, prefix: Schedule, n: nat)
    requires ScheduleFor(schedule, n) && BeginsWith(schedule, prefix)
    ensures ScheduleFor(prefix, n)
  {
    if schedule != prefix {
      PrefixScheduled(schedule.before, prefix, n);
    }
  }

  function Retries(step: Step): nat {
    if step.Agent? then step.retries else 0
  }

  /** How many resumptions end a step at the latest, over all its attempts. */
  function Patience(length: nat, retries: nat): (n: nat)
    ensures n >= 1
  {
    if retries == 0 then 1 else length + Patience(length, retries - 1)
  }

  predicate Standing(step: Step, place: Place) {
    place.attempt <= Retries(step) && place.beat <= Length(step)
  }

  function Left(step: Step, place: Place): nat
    requires Standing(step, place)
  {
    Length(step) - place.beat + Patience(Length(step), Retries(step) - place.attempt)
  }

  /** Enough resumptions to end a step. */
  function Enough(s: Stage, i: nat): nat {
    if i < |s.steps| then Left(s.steps[i], At(0, 0)) else 0
  }

  /** A step that is not over uses up its patience with every resumption. */
  lemma {:induction false} Progress(s: Stage, schedule: Schedule, i: nat)
    requires ScheduleFor(schedule, |s.steps|) && i < |s.steps| && WellCosted(s.steps[i])
    ensures var (state, n) := (s.After(schedule).states[i], Counts(schedule, |s.steps|)[i]);
            state.Running? ==> Standing(s.steps[i], state.local) && n + Left(s.steps[i], state.local) <= Enough(s, i)
  {
    if schedule.Then? {
      Progress(s, schedule.before, i);
      var c := s.After(schedule.before);
      if schedule.task == i && c.states[i].Running? {
        StretchRuns(s.steps[i], c.states[i].local.attempt, c.states[i].local.beat, s.limit, c.money);
        hide Exec, Stretch, TestsPass, WellCosted;
      }
    }
  }

  /** Whatever is over stays as it is. */
  lemma {:induction false} OverStays(s: Stage, schedule: Schedule, prefix: Schedule, i: nat)
    requires ScheduleFor(schedule, |s.steps|) && ScheduleFor(prefix, |s.steps|) && BeginsWith(schedule, prefix)
    requires i < |s.steps| && s.After(prefix).states[i].Over?
    ensures s.After(schedule).states[i] == s.After(prefix).states[i]
  {
    if schedule != prefix {
      OverStays(s, schedule.before, prefix, i);
      hide Exec;
    }
  }

  ghost function LedgersAt(s: Stage, counts: seq<nat>): (ls: seq<Ledger>)
    requires |counts| == |s.steps|
    ensures |ls| == |counts| && forall i :: 0 <= i < |ls| ==> ls[i] == TrailAt(s.steps[i], counts[i]).ledger
  {
    seq(|counts|, i requires 0 <= i < |counts| => TrailAt(s.steps[i], counts[i]).ledger)
  }

  /** Every step is on its trail, and the mission's budget is what the trails booked. */
  ghost predicate OnTrailsAt(s: Stage, c: Config<Place>, counts: seq<nat>)
    requires |c.states| == |s.steps| == |counts|
  {
    var booked := Total(LedgersAt(s, counts));
    && (forall i :: 0 <= i < |s.steps| ==> c.states[i] == TrailAt(s.steps[i], counts[i]).state)
    && c.money.spent == s.money.spent + booked.spent && c.money.orgRemaining == s.money.orgRemaining - booked.spent
  }

  ghost predicate OnTrails(s: Stage, prefix: Schedule)
    requires ScheduleFor(prefix, |s.steps|)
  {
    OnTrailsAt(s, s.After(prefix), Counts(prefix, |s.steps|))
  }

  ghost predicate EndsWell(s: Stage, schedule: Schedule) {
    Proper(s) && RetriesCost(s) && s.Complete(schedule) && AsPlanned(s, s.After(schedule))
  }

  // ---------- a refused attempt leaves its mark ----------

  /** What the steps still under way will book if they end as expected. */
  ghost function Owed(s: Stage, states: seq<TaskState<Place>>): (ls: seq<Ledger>)
    requires |states| == |s.steps|
    ensures |ls| == |states| && forall i :: 0 <= i < |ls| ==> ls[i] == if states[i].Running? then CapOf(s.steps[i]) else NOTHING
  {
    seq(|states|, i requires 0 <= i < |states| => if states[i].Running? then CapOf(s.steps[i]) else NOTHING)
  }

  /** The spend a schedule is heading for. */
  ghost function Due(s: Stage, c: Config<Place>): real
    requires |c.states| == |s.steps|
  {
    c.money.spent + Total(Owed(s, c.states)).spent
  }

  lemma OwedMoves(s: Stage, states: seq<TaskState<Place>>, i: nat, state: TaskState<Place>)
    requires i < |s.steps| == |states|
    ensures Total(Owed(s, states[i := state])) ==
            Total(Owed(s, states)).Minus(if states[i].Running? then CapOf(s.steps[i]) else NOTHING)
              .Plus(if state.Running? then CapOf(s.steps[i]) else NOTHING)
  {
    hide CapOf, Total;
    var now := if state.Running? then CapOf(s.steps[i]) else NOTHING;
    assert Owed(s, states[i := state]) == Owed(s, states)[i := now];
    TotalUpdate(Owed(s, states), i, now);
  }

  /** What one stretch adds to the spend a step is heading for. */
  function Extra(step: Step, k: nat, limit: real, m: Money): real
    requires k <= Length(step)
  {
    if step.Agent? && k > 0 && !TestsPass(step, k, limit, m) then Cost(step.beats[..k]) else 0.0
  }

  lemma StretchIsDue(step: Step, attempt: nat, k: nat, limit: real, m: Money)
    requires k <= Length(step) && WellCosted(step)
    ensures var (state, money) := Exec(Stretch(step, attempt, k), limit, m);
            && Extra(step, k, limit, m) >= 0.0 && money.orgRemaining <= m.orgRemaining
            && (state.Running? ==> money.spent == m.spent + Extra(step, k, limit, m))
            && (state == Over(Expected(step)) && EndsDiffer(step) ==>
                  money.spent == m.spent + CapOf(step).spent && Extra(step, k, limit, m) == 0.0)
  {
    StretchRuns(step, attempt, k, limit, m);
    if step.Agent? {
      PrefixesBelow(step.beats, k);
      PrefixesBelow(step.beats, |step.beats|);
    }
    hide Exec, Stretch, Charge, Cost, TestsPass;
  }

  lemma ResumedDue(s: Stage, before: Schedule, i: nat)
    requires Proper(s) && ScheduleFor(Then(before, i), |s.steps|)
    requires var state := s.After(Then(before, i)).states[i]; state.Over? ==> state == Over(Expected(s.steps[i]))
    ensures var (c, d) := (s.After(before), s.After(Then(before, i)));
            && d.money.orgRemaining <= c.money.orgRemaining && Due(s, d) >= Due(s, c)
            && (c.states[i].Running? ==>
                  && c.states[i].local.beat <= Length(s.steps[i])
                  && Due(s, d) == Due(s, c) + Extra(s.steps[i], c.states[i].local.beat, s.limit, c.money))
  {
    var c, d, step := s.After(before), s.After(Then(before, i)), s.steps[i];
    ProperIsNonnegative(s, i);
    if c.states[i].Running? {
      Progress(s, before, i);
      assert FinishesAlone(step, s.money.orgRemaining);
      StretchIsDue(step, c.states[i].local.attempt, c.states[i].local.beat, s.limit, c.money);
      OwedMoves(s, c.states, i, d.states[i]);
    }
    hide Exec, Stretch, Total, CapOf, Extra, FinishesAlone, Proper, Owed;
  }

  /** Towards an expected end the spend a schedule is heading for only grows. */
  lemma {:induction false} DueGrows(s: Stage, whole: Schedule, schedule: Schedule, prefix: Schedule)
    requires Proper(s) && s.Complete(whole) && AsExpected(s, s.After(whole))
    requires BeginsWith(whole, schedule) && BeginsWith(schedule, prefix)
    ensures ScheduleFor(schedule, |s.steps|) && ScheduleFor(prefix, |s.steps|)
    ensures Due(s, s.After(schedule)) >= Due(s, s.After(prefix))
    decreases schedule
  {
    PrefixScheduled(whole, schedule, |s.steps|);
    PrefixScheduled(schedule, prefix, |s.steps|);
    if schedule != prefix {
      hide Due, Proper, s.After;
      BeginsWithBefore(whole, schedule);
      DueGrows(s, whole, schedule.before, prefix);
      EndsAsWhole(s, whole, schedule, schedule.task);
      ResumedDue(s, schedule.before, schedule.task);
    }
  }

  lemma EndsAsWhole(s: Stage, whole: Schedule, prefix: Schedule, i: nat)
    requires s.Complete(whole) && AsExpected(s, s.After(whole)) && BeginsWith(whole, prefix) && ScheduleFor(prefix, |s.steps|)
    requires i < |s.steps|
    ensures var state := s.After(prefix).states[i]; state.Over? ==> state == Over(Expected(s.steps[i]))
  {
    if s.After(prefix).states[i].Over? {
      OverStays(s, whole, prefix, i);
    }
  }

  lemma DueAtStart(s: Stage)
    ensures Due(s, s.After(Start)) == s.money.spent + Total(s.Caps()).spent
  {
    assert Owed(s, s.After(Start).states) == s.Caps();
  }

  lemma DueAtEnd(s: Stage, schedule: Schedule)
    requires s.Complete(schedule)
    ensures Due(s, s.After(schedule)) == s.After(schedule).money.spent
  {
    TotalOfNothing(Owed(s, s.After(schedule).states));
  }

  /** A first call that asks for more than the organisation has left is refused again and
      again. */
  ghost predicate Doomed(s: Stage, c: Config<Place>, i: nat)
    requires |c.states| == |s.steps|
  {
    && Asks(s, i, 1)
    && match c.states[i]
       case Running(place) => place.beat == 1 && c.money.orgRemaining < s.steps[i].beats[1].projected
       case Over(outcome) => outcome != Expected(s.steps[i])
  }

  lemma DoomedAgain(s: Stage, before: Schedule, i: nat)
    requires Proper(s) && ScheduleFor(Then(before, i), |s.steps|) && Doomed(s, s.After(before), i)
    ensures Doomed(s, s.After(Then(before, i)), i)
  {
    var c, step := s.After(before), s.steps[i];
    ProperIsNonnegative(s, i);
    if c.states[i].Running? {
      Progress(s, before, i);
      assert FinishesAlone(step, s.money.orgRemaining);
      NothingInDispatch(step.beats);
      StretchRuns(step, c.states[i].local.attempt, 1, s.limit, c.money);
    }
    hide Exec, Stretch, Charge, Cost;
  }

  lemma OthersNeverHelp(s: Stage, before: Schedule, j: nat)
    requires Proper(s) && ScheduleFor(Then(before, j), |s.steps|)
    ensures s.After(Then(before, j)).money.orgRemaining <= s.After(before).money.orgRemaining
  {
    var c := s.After(before);
    ProperIsNonnegative(s, j);
    if c.states[j].Running? {
      Progress(s, before, j);
      StretchIsDue(s.steps[j], c.states[j].local.attempt, c.states[j].local.beat, s.limit, c.money);
    }
    hide Exec, Stretch, Extra, Proper;
  }

  lemma {:induction false} StaysDoomed(s: Stage, schedule: Schedule, prefix: Schedule, i: nat)
    requires Proper(s) && ScheduleFor(schedule, |s.steps|) && ScheduleFor(prefix, |s.steps|) && BeginsWith(schedule, prefix)
    requires Doomed(s, s.After(prefix), i)
    ensures Doomed(s, s.After(schedule), i)
  {
    if schedule != prefix {
      StaysDoomed(s, schedule.before, prefix, i);
      if schedule.task == i {
        DoomedAgain(s, schedule.before, i);
      } else {
        OthersNeverHelp(s, schedule.before, schedule.task);
      }
      hide Exec, Proper;
    }
  }

  /** A first call that its own fresh guard refuses dooms the step. */
  lemma RefusedAtOnce(s: Stage, before: Schedule, i: nat)
    requires Proper(s) && ScheduleFor(Then(before, i), |s.steps|) && Asks(s, i, 1)
    requires var c := s.After(before); c.states[i] == Running(At(0, 1)) && !TestsPass(s.steps[i], 1, s.limit, c.money)
    ensures Doomed(s, s.After(Then(before, i)), i)
  {
    var c, step := s.After(before), s.steps[i];
    ProperIsNonnegative(s, i);
    assert FinishesAlone(step, s.money.orgRemaining);
    NothingInDispatch(step.beats);
    StretchRuns(step, 0, 1, s.limit, c.money);
    hide Exec, Stretch, Charge, Cost;
  }

  /** On a schedule that ends well no step on its trail fails a test. */
  lemma NeverStopped(s: Stage, schedule: Schedule, prefix: Schedule, i: nat)
    requires EndsWell(s, schedule) && BeginsWith(schedule, Then(prefix, i)) && ScheduleFor(Then(prefix, i), |s.steps|)
    requires s.After(prefix).states[i].Running? && s.After(prefix).states[i].local.attempt == 0
    ensures var (c, k) := (s.After(prefix), s.After(prefix).states[i].local.beat);
            k <= Length(s.steps[i]) && TestsPass(s.steps[i], k, s.limit, c.money)
  {
    var c, step, k := s.After(prefix), s.steps[i], s.After(prefix).states[i].local.beat;
    ProperIsNonnegative(s, i);
    Progress(s, prefix, i);
    if !TestsPass(step, k, s.limit, c.money) {
      StretchRuns(step, 0, k, s.limit, c.money);
      assert FinishesAlone(step, s.money.orgRemaining);
      EndsAsWhole(s, schedule, Then(prefix, i), i);
      hide Exec, Stretch;
      if k == 1 {
        RefusedAtOnce(s, prefix, i);
        StaysDoomed(s, schedule, Then(prefix, i), i);
      } else {
        CostsMore(s, schedule, prefix, i);
      }
    }
  }

  /** An attempt refused after its first beat is paid for on top of all the rest. */
  lemma CostsMore(s: Stage, schedule: Schedule, prefix: Schedule, i: nat)
    requires Proper(s) && RetriesCost(s) && s.Complete(schedule) && AsExpected(s, s.After(schedule))
    requires BeginsWith(schedule, Then(prefix, i)) && ScheduleFor(Then(prefix, i), |s.steps|) && IsAgent(s, i) && s.steps[i].retries > 0
    requires s.After(prefix).states[i].Running? && s.After(Then(prefix, i)).states[i].Running?
    requires var k := s.After(prefix).states[i].local.beat;
             2 <= k <= Length(s.steps[i]) && !TestsPass(s.steps[i], k, s.limit, s.After(prefix).money)
    ensures s.After(schedule).money.spent > s.money.spent + Total(s.Caps()).spent
  {
    hide Cost, Charge, TestsPass, s.After, Proper, Due, Total;
    var step, k := s.steps[i], s.After(prefix).states[i].local.beat;
    ProperIsNonnegative(s, i);
    PrefixesBelow(step.beats[..k], 2);
    assert step.beats[..k][..2] == step.beats[..2];
    BeginsWithBefore(schedule, Then(prefix, i));
    StartBegins(prefix);
    ResumedDue(s, prefix, i);
    DueGrows(s, schedule, prefix, Start);
    DueGrows(s, schedule, schedule, Then(prefix, i));
    DueAtStart(s);
    DueAtEnd(s, schedule);
  }

  lemma {:induction false} StartBegins(schedule: Schedule)
    ensures BeginsWith(schedule, Start)
  {
    if schedule.Then? {
      StartBegins(schedule.before);
    }
  }

  /** What the next resumption of a schedule that ends well must have found. */
  lemma NextPasses(s: Stage, schedule: Schedule, prefix: Schedule, i: nat)
    requires EndsWell(s, schedule) && BeginsWith(schedule, Then(prefix, i)) && ScheduleFor(Then(prefix, i), |s.steps|)
    requires OnTrails(s, prefix) && Counts(prefix, |s.steps|)[i] <= Length(s.steps[i])
    ensures var (c, k) := (s.After(prefix), Counts(prefix, |s.steps|)[i]);
            && TestsPass(s.steps[i], k, s.limit, c.money)
            && s.After(Then(prefix, i)).states == c.states[i := TrailAt(s.steps[i], k + 1).state]
            && s.After(Then(prefix, i)).money == Leaving(s.steps[i], k, c.money)
  {
    hide Exec, Stretch, TestsPass, Leaving, OnTrails, Counts, Proper, BeginsWith, AsPlanned;
    var c, k := s.After(prefix), Counts(prefix, |s.steps|)[i];
    StandsOnTrail(s, prefix, i);
    NeverStopped(s, schedule, prefix, i);
    ProperIsNonnegative(s, i);
    StretchRuns(s.steps[i], 0, k, s.limit, c.money);
  }

  lemma LedgersGrow(s: Stage, counts: seq<nat>, i: nat)
    requires i < |s.steps| == |counts|
    ensures var more := counts[i := counts[i] + 1];
            && LedgersAt(s, more) == LedgersAt(s, counts)[i := TrailAt(s.steps[i], counts[i] + 1).ledger]
            && Total(LedgersAt(s, more)) ==
               Total(LedgersAt(s, counts)).Minus(LedgersAt(s, counts)[i]).Plus(TrailAt(s.steps[i], counts[i] + 1).ledger)
  {
    var more := counts[i := counts[i] + 1];
    assert LedgersAt(s, more) == LedgersAt(s, counts)[i := TrailAt(s.steps[i], counts[i] + 1).ledger];
    TotalUpdate(LedgersAt(s, counts), i, TrailAt(s.steps[i], counts[i] + 1).ledger);
  }

  lemma NothingAtStart(s: Stage)
    ensures OnTrails(s, Start)
  {
    TotalOfNothing(LedgersAt(s, Counts(Start, |s.steps|)));
  }

  lemma LeavingBooks(step: Step, k: nat, m: Money)
    requires k <= Length(step)
    ensures var cost := TrailAt(step, k + 1).ledger.spent - TrailAt(step, k).ledger.spent;
            Leaving(step, k, m).spent == m.spent + cost && Leaving(step, k, m).orgRemaining == m.orgRemaining - cost
  {
    hide Cost, Charge;
  }

  /** One step moving along its trail, or idle at its end, keeps all on their trails. */
  lemma TrailMoves(s: Stage, c: Config<Place>, d: Config<Place>, counts: seq<nat>, i: nat)
    requires i < |s.steps| == |c.states| == |d.states| == |counts| && OnTrailsAt(s, c, counts)
    requires d.states == c.states[i := TrailAt(s.steps[i], counts[i] + 1).state]
    requires var cost := TrailAt(s.steps[i], counts[i] + 1).ledger.spent - TrailAt(s.steps[i], counts[i]).ledger.spent;
             d.money.spent == c.money.spent + cost && d.money.orgRemaining == c.money.orgRemaining - cost
    ensures OnTrailsAt(s, d, counts[i := counts[i] + 1])
  {
    hide Total, TrailAt;
    LedgersGrow(s, counts, i);
  }

  /** A step that is over is not moved by one more resumption. */
  lemma OverIsIdle(s: Stage, prefix: Schedule, i: nat)
    requires ScheduleFor(Then(prefix, i), |s.steps|) && s.After(prefix).states[i].Over?
    ensures s.After(Then(prefix, i)) == s.After(prefix)
  {
  }

  lemma TrailsGrow(s: Stage, schedule: Schedule, prefix: Schedule, i: nat)
    requires EndsWell(s, schedule) && BeginsWith(schedule, Then(prefix, i)) && ScheduleFor(Then(prefix, i), |s.steps|)
    requires OnTrails(s, prefix)
    ensures OnTrails(s, Then(prefix, i))
  {
    var counts, c := Counts(prefix, |s.steps|), s.After(prefix);
    assert c.states[i] == TrailAt(s.steps[i], counts[i]).state;
    assert Counts(Then(prefix, i), |s.steps|) == counts[i := counts[i] + 1];
    hide OnTrailsAt, EndsWell, TestsPass, Leaving, Counts, s.After;
    if counts[i] <= Length(s.steps[i]) {
      NextPasses(s, schedule, prefix, i);
      LeavingBooks(s.steps[i], counts[i], c.money);
    } else {
      OverIsIdle(s, prefix, i);
    }
    hide TrailAt, Length;
    TrailMoves(s, c, s.After(Then(prefix, i)), counts, i);
  }

  lemma {:induction false} StaysOnTrails(s: Stage, schedule: Schedule, prefix: Schedule)
    requires EndsWell(s, schedule) && BeginsWith(schedule, prefix)
    ensures ScheduleFor(prefix, |s.steps|) && OnTrails(s, prefix)
    decreases prefix
  {
    PrefixScheduled(schedule, prefix, |s.steps|);
    hide EndsWell, OnTrails;
    match prefix {
      case Start => NothingAtStart(s);
      case Then(before, i) =>
        BeginsWithBefore(schedule, prefix);
        StaysOnTrails(s, schedule, before);
        TrailsGrow(s, schedule, before, i);
    }
  }

  /** The charges a resumption adds to the guard in the slot. */
  lemma EnteringCharges(step: Step, k: nat, m: Money)
    requires k <= Length(step) && m.slot.Some? && (step.Agent? ==> k >= 2)
    ensures var usd := TrailAt(step, k + 1).ledger.charged - TrailAt(step, k).ledger.charged;
            Entering(step, k, m).slot == Some(m.slot.value.Charged(usd)) && Leaving(step, k, m).slot == Entering(step, k, m).slot
  {
    if step.Agent? {
      CostOfPrefix(step.beats, k - 1);
      assert step.beats[..|step.beats|] == step.beats;
    }
    hide Cost, Charge;
  }

  ghost function ChargedBy(s: Stage, prefix: Schedule): real
    requires ScheduleFor(prefix, |s.steps|)
  {
    Total(LedgersAt(s, Counts(prefix, |s.steps|))).charged
  }

  ghost predicate AllStarted(s: Stage, prefix: Schedule)
    requires ScheduleFor(prefix, |s.steps|)
  {
    forall i :: 0 <= i < |s.steps| && s.steps[i].Agent? ==> Counts(prefix, |s.steps|)[i] >= 2
  }

  lemma ChargeGrows(s: Stage, counts: seq<nat>, i: nat)
    requires i < |s.steps| == |counts|
    ensures Total(LedgersAt(s, counts[i := counts[i] + 1])).charged - Total(LedgersAt(s, counts)).charged ==
            TrailAt(s.steps[i], counts[i] + 1).ledger.charged - TrailAt(s.steps[i], counts[i]).ledger.charged
  {
    hide Total, TrailAt, LedgersAt;
    LedgersGrow(s, counts, i);
  }

  lemma StandsOnTrail(s: Stage, prefix: Schedule, i: nat)
    requires ScheduleFor(prefix, |s.steps|) && i < |s.steps| && OnTrails(s, prefix)
    ensures s.After(prefix).states[i] == TrailAt(s.steps[i], Counts(prefix, |s.steps|)[i]).state
  {
    hide TrailAt, Counts, s.After, Total;
  }

  /** The guard in the slot takes the charge of a step that had started. */
  lemma SlotCharged(s: Stage, schedule: Schedule, prefix: Schedule, i: nat, g: Guard)
    requires EndsWell(s, schedule) && BeginsWith(schedule, Then(prefix, i)) && ScheduleFor(Then(prefix, i), |s.steps|)
    requires OnTrails(s, prefix) && (s.steps[i].Agent? ==> Counts(prefix, |s.steps|)[i] >= 2) && s.After(prefix).money.slot == Some(g)
    ensures var (step, k) := (s.steps[i], Counts(prefix, |s.steps|)[i]);
            s.After(Then(prefix, i)).money.slot == Some(g.Charged(TrailAt(step, k + 1).ledger.charged - TrailAt(step, k).ledger.charged))
  {
    hide EndsWell, Proper, TestsPass, Entering, Leaving, Counts, Total, LedgersAt, s.After, BeginsWith, OnTrails;
    var k := Counts(prefix, |s.steps|)[i];
    StandsOnTrail(s, prefix, i);
    if k <= Length(s.steps[i]) {
      hide TrailAt;
      NextPasses(s, schedule, prefix, i);
      EnteringCharges(s.steps[i], k, s.After(prefix).money);
    } else {
      OverIsIdle(s, prefix, i);
    }
  }

  /** Once every step has started, the guard in the slot stays and takes the charges. */
  lemma SlotStep(s: Stage, schedule: Schedule, prefix: Schedule, i: nat, g: Guard)
    requires EndsWell(s, schedule) && BeginsWith(schedule, Then(prefix, i)) && ScheduleFor(Then(prefix, i), |s.steps|)
    requires AllStarted(s, prefix) && s.After(prefix).money.slot == Some(g)
    ensures s.After(Then(prefix, i)).money.slot == Some(g.Charged(ChargedBy(s, Then(prefix, i)) - ChargedBy(s, prefix)))
  {
    hide EndsWell, OnTrails, OnTrailsAt, Total, LedgersAt, TrailAt, s.After, BeginsWith, Proper;
    var counts := Counts(prefix, |s.steps|);
    assert Counts(Then(prefix, i), |s.steps|) == counts[i := counts[i] + 1];
    hide Counts;
    BeginsWithBefore(schedule, Then(prefix, i));
    StaysOnTrails(s, schedule, prefix);
    SlotCharged(s, schedule, prefix, i, g);
    ChargeGrows(s, counts, i);
  }

  lemma {:induction false} SlotSince(s: Stage, schedule: Schedule, first: Schedule, prefix: Schedule, g: Guard)
    requires EndsWell(s, schedule) && BeginsWith(schedule, prefix) && BeginsWith(prefix, first)
    requires ScheduleFor(prefix, |s.steps|) && ScheduleFor(first, |s.steps|)
    requires AllStarted(s, first) && s.After(first).money.slot == Some(g)
    ensures AllStarted(s, prefix)
    ensures s.After(prefix).money.slot == Some(g.Charged(ChargedBy(s, prefix) - ChargedBy(s, first)))
    decreases prefix
  {
    hide ChargedBy, EndsWell, Proper, AllStarted, s.After;
    if prefix == first {
      assert g.Charged(0.0) == g;
    } else {
      BeginsWithBefore(schedule, prefix);
      SlotSince(s, schedule, first, prefix.before, g);
      var was, now := ChargedBy(s, prefix.before) - ChargedBy(s, first), ChargedBy(s, prefix) - ChargedBy(s, prefix.before);
      SlotStep(s, schedule, prefix.before, prefix.task, g.Charged(was));
      assert g.Charged(was).Charged(now) == g.Charged(ChargedBy(s, prefix) - ChargedBy(s, first));
      StaysStarted(s, prefix);
    }
  }

  lemma StaysStarted(s: Stage, prefix: Schedule)
    requires prefix.Then? && ScheduleFor(prefix, |s.steps|) && AllStarted(s, prefix.before)
    ensures AllStarted(s, prefix)
  {
  }

  // ---------- the schedules that decide ----------

  /** `before`, and then step `i` resumed `k` times. */
  function Times(before: Schedule, i: nat, k: nat): Schedule {
    if k == 0 then before else Then(Times(before, i, k - 1), i)
  }

  /** Each of the first `m` steps but one resumed twice: its agent has started. */
  function StartBut(m: nat, skip: nat): Schedule {
    if m == 0 then Start
    else if m - 1 == skip then StartBut(m - 1, skip)
    else Then(Then(StartBut(m - 1, skip), m - 1), m - 1)
  }

  /** Each of the first `m` steps but one resumed to its end, one after another. */
  function FinishBut(s: Stage, before: Schedule, m: nat, skip: nat): Schedule {
    if m == 0 then before
    else if m - 1 == skip then FinishBut(s, before, m - 1, skip)
    else Times(FinishBut(s, before, m - 1, skip), m - 1, Enough(s, m - 1))
  }

  lemma {:induction false} CountsOfTimes(before: Schedule, j: nat, k: nat, n: nat)
    requires ScheduleFor(before, n) && j < n
    ensures ScheduleFor(Times(before, j, k), n)
    ensures Counts(Times(before, j, k), n) == Counts(before, n)[j := Counts(before, n)[j] + k]
  {
    if k > 0 {
      CountsOfTimes(before, j, k - 1, n);
    }
  }

  lemma {:induction false} CountsOfStart(m: nat, skip: nat, n: nat, i: nat)
    requires m <= n && i < n
    ensures ScheduleFor(StartBut(m, skip), n) && Counts(StartBut(m, skip), n)[i] == if i < m && i != skip then 2 else 0
  {
    if m > 0 {
      CountsOfStart(m - 1, skip, n, i);
    }
  }

  lemma {:induction false} CountsOfFinish(s: Stage, before: Schedule, m: nat, skip: nat, i: nat)
    requires m <= |s.steps| && i < |s.steps| && ScheduleFor(before, |s.steps|)
    ensures ScheduleFor(FinishBut(s, before, m, skip), |s.steps|)
    ensures Counts(FinishBut(s, before, m, skip), |s.steps|)[i] ==
            Counts(before, |s.steps|)[i] + if i < m && i != skip then Enough(s, i) else 0
  {
    if m > 0 {
      CountsOfFinish(s, before, m - 1, skip, i);
      if m - 1 != skip {
        CountsOfTimes(FinishBut(s, before, m - 1, skip), m - 1, Enough(s, m - 1), |s.steps|);
        hide Times, Counts, Enough;
      }
    }
  }

  lemma {:induction false} TimesBegins(before: Schedule, i: nat, n: nat, k: nat)
    requires k <= n
    ensures BeginsWith(Times(before, i, n), Times(before, i, k))
    ensures k < n ==> BeginsWith(Times(before, i, n), Then(Times(before, i, k), i))
  {
    if k < n {
      TimesBegins(before, i, n - 1, k);
    }
  }

  lemma {:induction false} BeginsTwice(a: Schedule, b: Schedule, c: Schedule)
    requires BeginsWith(a, b) && BeginsWith(b, c)
    ensures BeginsWith(a, c)
  {
    if a != b {
      BeginsTwice(a.before, b, c);
    }
  }

  lemma {:induction false} FinishBegins(s: Stage, before: Schedule, m: nat, skip: nat)
    ensures BeginsWith(FinishBut(s, before, m, skip), before)
  {
    if m > 0 {
      FinishBegins(s, before, m - 1, skip);
      if m - 1 != skip {
        var front := FinishBut(s, before, m - 1, skip);
        TimesBegins(front, m - 1, Enough(s, m - 1), 0);
        BeginsTwice(Times(front, m - 1, Enough(s, m - 1)), front, before);
      }
    }
  }

  lemma {:induction false} FinishGoesOn(s: Stage, before: Schedule, n: nat, m: nat, skip: nat)
    requires m <= n
    ensures BeginsWith(FinishBut(s, before, n, skip), FinishBut(s, before, m, skip))
  {
    if m < n {
      FinishGoesOn(s, before, n - 1, m, skip);
      if n - 1 != skip {
        var front := FinishBut(s, before, n - 1, skip);
        TimesBegins(front, n - 1, Enough(s, n - 1), 0);
        BeginsTwice(Times(front, n - 1, Enough(s, n - 1)), front, FinishBut(s, before, m, skip));
      }
    }
  }

  /** A schedule that resumes every step often enough is complete. */
  lemma EnoughCompletes(s: Stage, schedule: Schedule)
    requires Proper(s) && ScheduleFor(schedule, |s.steps|)
    requires forall i :: 0 <= i < |s.steps| ==> Counts(schedule, |s.steps|)[i] >= Enough(s, i)
    ensures s.Complete(schedule)
  {
    forall i | 0 <= i < |s.steps|
      ensures s.After(schedule).states[i].Over?
    {
      ProperIsNonnegative(s, i);
      Progress(s, schedule, i);
    }
    hide Proper, s.After, Counts;
  }

  /** All but `b` to their end, and then `b` resumed `k` times. */
  function LastOf(s: Stage, before: Schedule, b: nat, k: nat): Schedule {
    Times(FinishBut(s, before, |s.steps|, b), b, k)
  }

  lemma LastBegins(s: Stage, before: Schedule, b: nat, n: nat, k: nat)
    requires k <= n
    ensures BeginsWith(LastOf(s, before, b, n), LastOf(s, before, b, k)) && BeginsWith(LastOf(s, before, b, k), before)
    ensures k < n ==> BeginsWith(LastOf(s, before, b, n), Then(LastOf(s, before, b, k), b))
    ensures LastOf(s, before, b, k + 1) == Then(LastOf(s, before, b, k), b)
  {
    var front := FinishBut(s, before, |s.steps|, b);
    TimesBegins(front, b, n, k);
    TimesBegins(front, b, k, 0);
    FinishBegins(s, before, |s.steps|, b);
    BeginsTwice(LastOf(s, before, b, k), front, before);
  }

  lemma CountsOfLast(s: Stage, before: Schedule, b: nat, k: nat, i: nat)
    requires ScheduleFor(before, |s.steps|) && b < |s.steps| && i < |s.steps|
    ensures ScheduleFor(LastOf(s, before, b, k), |s.steps|)
    ensures Counts(LastOf(s, before, b, k), |s.steps|)[i] ==
            Counts(before, |s.steps|)[i] + if i == b then k else Enough(s, i)
  {
    CountsOfFinish(s, before, |s.steps|, b, i);
    CountsOfTimes(FinishBut(s, before, |s.steps|, b), b, k, |s.steps|);
    hide Counts, Times, FinishBut;
  }

  /** With all but `b` at their end, the others have booked all they can. */
  lemma OthersAreDone(s: Stage, counts: seq<nat>, b: nat)
    requires b < |s.steps| == |counts|
    requires forall i :: 0 <= i < |s.steps| && i != b ==> counts[i] >= Enough(s, i)
    ensures Total(LedgersAt(s, counts)) == s.Others(b).Plus(TrailAt(s.steps[b], counts[b]).ledger)
  {
    var own := TrailAt(s.steps[b], counts[b]).ledger;
    assert LedgersAt(s, counts) == s.Caps()[b := own];
    TotalUpdate(s.Caps(), b, own);
  }

  /** With every step just started, nothing is charged yet. */
  lemma NothingChargedYet(s: Stage, counts: seq<nat>)
    requires |counts| == |s.steps| && forall i :: 0 <= i < |s.steps| ==> counts[i] == 2 && WellCosted(s.steps[i])
    ensures Total(LedgersAt(s, counts)) == NOTHING
  {
    forall i | 0 <= i < |s.steps|
      ensures LedgersAt(s, counts)[i] == NOTHING
    {
      if s.steps[i].Agent? { NothingInDispatch(s.steps[i].beats); }
    }
    TotalOfNothing(LedgersAt(s, counts));
  }

  lemma OthersDrawWhatTheySpend(s: Stage, b: nat)
    requires b < |s.steps|
    ensures s.Others(b).drawn == s.Others(b).spent
  {
    hide Total, Cost, Charge;
    SpentIsDrawn(s.Caps());
  }

  lemma {:induction false} SpentIsDrawn(ls: seq<Ledger>)
    requires forall i :: 0 <= i < |ls| ==> ls[i].spent == ls[i].drawn
    ensures Total(ls).spent == Total(ls).drawn
  {
    if ls != [] {
      SpentIsDrawn(ls[..|ls| - 1]);
    }
  }

  // ---------- what must fit when every schedule ends as expected ----------

  /** The whole schedule that runs all but `b` to their end and then `b`. */
  lemma LastEndsWell(s: Stage, before: Schedule, b: nat)
    requires Proper(s) && RetriesCost(s) && AllAsExpected(s) && ScheduleFor(before, |s.steps|) && b < |s.steps|
    ensures EndsWell(s, LastOf(s, before, b, Enough(s, b)))
  {
    var whole := LastOf(s, before, b, Enough(s, b));
    CountsOfLast(s, before, b, Enough(s, b), b);
    forall i | 0 <= i < |s.steps|
      ensures Counts(whole, |s.steps|)[i] >= Enough(s, i)
    {
      CountsOfLast(s, before, b, Enough(s, b), i);
    }
    hide LastOf, Counts, Enough;
    EnoughCompletes(s, whole);
  }

  /** The counts and ledgers when all but `b` are at their end and `b` has been resumed
      `k` more times. */
  lemma LastCounts(s: Stage, before: Schedule, b: nat, k: nat)
    requires ScheduleFor(before, |s.steps|) && b < |s.steps|
    ensures ScheduleFor(LastOf(s, before, b, k), |s.steps|)
    ensures Counts(LastOf(s, before, b, k), |s.steps|)[b] == Counts(before, |s.steps|)[b] + k
    ensures Total(LedgersAt(s, Counts(LastOf(s, before, b, k), |s.steps|))) ==
            s.Others(b).Plus(TrailAt(s.steps[b], Counts(before, |s.steps|)[b] + k).ledger)
  {
    hide Counts, Total, LedgersAt, LastOf, Enough, TrailAt, s.Others;
    var prefix := LastOf(s, before, b, k);
    CountsOfLast(s, before, b, k, b);
    forall i | 0 <= i < |s.steps| && i != b
      ensures Counts(prefix, |s.steps|)[i] >= Enough(s, i)
    {
      CountsOfLast(s, before, b, k, i);
    }
    OthersAreDone(s, Counts(prefix, |s.steps|), b);
  }

  /** The trails there, and the next resumption. */
  lemma LastStands(s: Stage, before: Schedule, b: nat, k: nat)
    requires Proper(s) && RetriesCost(s) && AllAsExpected(s) && ScheduleFor(before, |s.steps|) && b < |s.steps| && k <= Length(s.steps[b])
    ensures var (whole, prefix) := (LastOf(s, before, b, Enough(s, b)), LastOf(s, before, b, k));
            && EndsWell(s, whole) && BeginsWith(whole, Then(prefix, b)) && BeginsWith(whole, prefix)
            && ScheduleFor(prefix, |s.steps|) && OnTrails(s, prefix)
  {
    hide EndsWell, OnTrails, LastOf, Proper, AllAsExpected, RetriesCost;
    LastEndsWell(s, before, b);
    LastBegins(s, before, b, Enough(s, b), k);
    StaysOnTrails(s, LastOf(s, before, b, Enough(s, b)), LastOf(s, before, b, k));
  }

  /** The next resumption of `b` with everyone else done. */
  lemma StepOfLast(s: Stage, before: Schedule, b: nat, k: nat)
    requires Proper(s) && RetriesCost(s) && AllAsExpected(s) && ScheduleFor(before, |s.steps|) && b < |s.steps|
    requires Counts(before, |s.steps|)[b] + k <= Length(s.steps[b])
    ensures ScheduleFor(LastOf(s, before, b, k), |s.steps|) && ScheduleFor(LastOf(s, before, b, k + 1), |s.steps|)
    ensures TestsPass(s.steps[b], Counts(before, |s.steps|)[b] + k, s.limit, s.After(LastOf(s, before, b, k)).money)
    ensures s.After(LastOf(s, before, b, k + 1)).money ==
            Leaving(s.steps[b], Counts(before, |s.steps|)[b] + k, s.After(LastOf(s, before, b, k)).money)
  {
    hide EndsWell, OnTrails, TestsPass, Leaving, AllAsExpected, RetriesCost, Proper, s.After, LastOf, Counts, LedgersAt, Total;
    LastCounts(s, before, b, k);
    LastCounts(s, before, b, k + 1);
    LastStands(s, before, b, k);
    LastBegins(s, before, b, Enough(s, b), k);
    NextPasses(s, LastOf(s, before, b, Enough(s, b)), LastOf(s, before, b, k), b);
  }

  lemma NoneResumed(n: nat, i: nat)
    requires i < n
    ensures Counts(Start, n)[i] == 0
  {
  }

  /** The budget with everyone but `b` done, `b` about to be resumed once more than `k`
      times, and nothing booked by `b` yet. */
  lemma FirstOfLast(s: Stage, b: nat, k: nat)
    requires Proper(s) && RetriesCost(s) && AllAsExpected(s) && b < |s.steps| && k <= Length(s.steps[b]) && TrailAt(s.steps[b], k).ledger == NOTHING
    ensures ScheduleFor(LastOf(s, Start, b, k), |s.steps|) && ScheduleFor(LastOf(s, Start, b, k + 1), |s.steps|)
    ensures var m := s.After(LastOf(s, Start, b, k)).money;
            && m.spent == s.money.spent + s.Others(b).spent && m.orgRemaining == s.money.orgRemaining - s.Others(b).spent
            && TestsPass(s.steps[b], k, s.limit, m)
            && s.After(LastOf(s, Start, b, k + 1)).money == Leaving(s.steps[b], k, m)
  {
    hide EndsWell, Counts, LedgersAt, Total, LastOf, TestsPass, Leaving, CapOf, AllAsExpected, RetriesCost, Proper, s.After, BeginsWith, TrailAt;
    NoneResumed(|s.steps|, b);
    LastStands(s, Start, b, k);
    LastCounts(s, Start, b, k);
    StepOfLast(s, Start, b, k);
  }

  /** With everyone else done first, `b` must still find budget, and its own fresh guard
      enough of the organisation's remainder. */
  lemma MustAfford(s: Stage, b: nat)
    requires Proper(s) && RetriesCost(s) && AllAsExpected(s) && b < |s.steps|
    ensures s.money.spent + s.Others(b).spent < s.limit
    ensures Asks(s, b, 1) ==> s.steps[b].beats[1].projected + s.Others(b).drawn <= s.money.orgRemaining
  {
    hide AllAsExpected, RetriesCost, Proper, Total, LastOf, s.After;
    FirstOfLast(s, b, 0);
    if Asks(s, b, 1) {
      NothingAtDispatch(s, b);
      FirstOfLast(s, b, 1);
      OthersDrawWhatTheySpend(s, b);
    }
  }

  lemma NothingAtDispatch(s: Stage, b: nat)
    requires Proper(s) && IsAgent(s, b)
    ensures Length(s.steps[b]) >= 1 && TrailAt(s.steps[b], 1).ledger == NOTHING
    ensures s.steps[b].beats[0] == DISPATCH && Charge(s.steps[b].beats[..1]) == 0.0
  {
    ProperIsNonnegative(s, b);
    NothingInDispatch(s.steps[b].beats);
  }

  /** The next model call of `b`, item `k`, as the guard in the slot sees it. */
  lemma CallAgainstSlot(s: Stage, before: Schedule, b: nat, k: nat, k0: nat, g: Guard)
    requires Proper(s) && RetriesCost(s) && AllAsExpected(s) && ScheduleFor(before, |s.steps|) && Asks(s, b, k) && k >= 2
    requires Counts(before, |s.steps|)[b] + k0 == k && ScheduleFor(LastOf(s, before, b, k0), |s.steps|)
    requires s.After(LastOf(s, before, b, k0)).money.slot == Some(g)
    ensures g.Charged(if s.steps[b].beats[k - 1].Ask? then s.steps[b].beats[k - 1].usd else 0.0).Passes(s.steps[b].beats[k].projected)
  {
    hide Counts, LastOf, AllAsExpected, RetriesCost, Proper, s.After;
    StepOfLast(s, before, b, k0);
  }

  /** What the guard in the slot has taken once everyone but `b` is done. */
  lemma SlotAtLast(s: Stage, before: Schedule, first: Schedule, b: nat, k: nat, g: Guard)
    requires Proper(s) && RetriesCost(s) && AllAsExpected(s) && ScheduleFor(before, |s.steps|) && b < |s.steps| && k <= Length(s.steps[b])
    requires ScheduleFor(first, |s.steps|) && AllStarted(s, first) && s.After(first).money.slot == Some(g)
    requires BeginsWith(LastOf(s, before, b, k), first)
    ensures ScheduleFor(LastOf(s, before, b, k), |s.steps|)
    ensures s.After(LastOf(s, before, b, k)).money.slot ==
            Some(g.Charged(s.Others(b).charged + TrailAt(s.steps[b], Counts(before, |s.steps|)[b] + k).ledger.charged
                           - ChargedBy(s, first)))
  {
    hide EndsWell, Counts, Total, LedgersAt, LastOf, OnTrails, CapOf, TrailAt, AllAsExpected, RetriesCost, Proper, AllStarted, s.After;
    LastStands(s, before, b, k);
    LastCounts(s, before, b, k);
    SlotSince(s, LastOf(s, before, b, Enough(s, b)), first, LastOf(s, before, b, k), g);
  }

  /** Everyone started, agent `a` last: its fresh guard is in the slot, nothing is charged. */
  function StartLast(s: Stage, a: nat): Schedule {
    Then(Then(StartBut(|s.steps|, a), a), a)
  }

  lemma CountsOfStartLast(s: Stage, a: nat)
    requires a < |s.steps|
    ensures ScheduleFor(StartLast(s, a).before, |s.steps|) && ScheduleFor(StartLast(s, a), |s.steps|)
    ensures Counts(StartLast(s, a).before, |s.steps|)[a] == 1
    ensures forall i :: 0 <= i < |s.steps| ==> Counts(StartLast(s, a), |s.steps|)[i] == 2
  {
    var n := |s.steps|;
    CountsOfStart(n, a, n, a);
    forall i | 0 <= i < n
      ensures Counts(StartLast(s, a), n)[i] == 2
    {
      CountsOfStart(n, a, n, i);
    }
  }

  lemma SlotAfterStart(s: Stage, a: nat, b: nat)
    requires Proper(s) && RetriesCost(s) && AllAsExpected(s) && IsAgent(s, a) && b < |s.steps|
    ensures ScheduleFor(StartLast(s, a), |s.steps|)
    ensures exists org :: s.After(StartLast(s, a)).money.slot == Some(Guard(s.steps[a].ceiling, org, 0.0))
  {
    CountsOfStartLast(s, a);
    var before, rest := StartLast(s, a), StartLast(s, a).before;
    var whole := LastOf(s, before, b, Enough(s, b));
    hide EndsWell, OnTrails, TestsPass, AllAsExpected, RetriesCost, Proper, s.After, LastOf, Counts;
    LastEndsWell(s, before, b);
    LastBegins(s, before, b, Enough(s, b), Enough(s, b));
    BeginsWithBefore(whole, before);
    StaysOnTrails(s, whole, rest);
    NextPasses(s, whole, rest, a);
    assert s.After(before).money.slot == Some(Guard(s.steps[a].ceiling, s.After(rest).money.orgRemaining, 0.0));
  }

  /** The slot of that start, once all but `b` are done and `b` has come to its item `k`. */
  lemma SlotAtCall(s: Stage, a: nat, b: nat, k: nat) returns (g: Guard)
    requires Proper(s) && RetriesCost(s) && AllAsExpected(s) && IsAgent(s, a) && Asks(s, b, k) && k >= 2
    ensures ScheduleFor(StartLast(s, a), |s.steps|) && Counts(StartLast(s, a), |s.steps|)[b] == 2
    ensures ScheduleFor(LastOf(s, StartLast(s, a), b, k - 2), |s.steps|)
    ensures s.After(LastOf(s, StartLast(s, a), b, k - 2)).money.slot == Some(g)
    ensures g.limit == s.steps[a].ceiling && g.spent == s.Others(b).charged + Charge(s.steps[b].beats[..k - 1])
  {
    hide Counts, Total, LedgersAt, LastOf, CapOf, Charge, Cost, StartLast, s.After, Proper, AllAsExpected, RetriesCost;
    CountsOfStartLast(s, a);
    SlotAfterStart(s, a, b);
    var before := StartLast(s, a);
    var org :| s.After(before).money.slot == Some(Guard(s.steps[a].ceiling, org, 0.0));
    forall i | 0 <= i < |s.steps|
      ensures WellCosted(s.steps[i])
    {
      ProperIsNonnegative(s, i);
    }
    NothingChargedYet(s, Counts(before, |s.steps|));
    LastBegins(s, before, b, k - 2, k - 2);
    SlotAtLast(s, before, before, b, k - 2, Guard(s.steps[a].ceiling, org, 0.0));
    g := s.After(LastOf(s, before, b, k - 2)).money.slot.value;
  }

  /** Under the guard of any agent that started last, with everyone else's calls charged,
      the later model calls of `b` must still pass. */
  lemma MustPass(s: Stage, b: nat, k: nat, a: nat)
    requires Proper(s) && RetriesCost(s) && AllAsExpected(s) && Asks(s, b, k) && IsAgent(s, a) && k >= 2
    ensures Charge(s.steps[b].beats[..k]) + s.steps[b].beats[k].projected + s.Others(b).charged <= s.steps[a].ceiling
  {
    hide Counts, Total, LastOf, StartLast, AllAsExpected, RetriesCost, Proper, Charge, Cost, CapOf, s.After;
    var g := SlotAtCall(s, a, b, k);
    CallAgainstSlot(s, StartLast(s, a), b, k, k - 2, g);
    CostOfPrefix(s.steps[b].beats, k - 1);
  }

  /** The slot when `b` has come to its item `k` with everyone else done before it started. */
  lemma SlotOfOwn(s: Stage, b: nat, k: nat) returns (g: Guard)
    requires Proper(s) && RetriesCost(s) && AllAsExpected(s) && Asks(s, b, k) && k >= 2
    ensures ScheduleFor(LastOf(s, Start, b, k), |s.steps|) && s.After(LastOf(s, Start, b, k)).money.slot == Some(g)
    ensures g.orgRemaining == s.money.orgRemaining - s.Others(b).spent - Charge(s.steps[b].beats[..k - 1])
  {
    hide Counts, Total, LedgersAt, LastOf, CapOf, Charge, Cost, Proper, AllAsExpected, RetriesCost, s.After, AllStarted, BeginsWith, TestsPass;
    var first := LastOf(s, Start, b, 2);
    NoneResumed(|s.steps|, b);
    NothingAtDispatch(s, b);
    LastCounts(s, Start, b, 2);
    LastStarted(s, b);
    FirstOfLast(s, b, 1);
    LastBegins(s, Start, b, k, 2);
    SlotAtLast(s, Start, first, b, k, Guard(s.steps[b].ceiling, s.money.orgRemaining - s.Others(b).spent, 0.0));
    g := s.After(LastOf(s, Start, b, k)).money.slot.value;
  }

  lemma LastStarted(s: Stage, b: nat)
    requires Proper(s) && b < |s.steps|
    ensures ScheduleFor(LastOf(s, Start, b, 2), |s.steps|) && AllStarted(s, LastOf(s, Start, b, 2))
  {
    CountsOfLast(s, Start, b, 2, b);
    forall i | 0 <= i < |s.steps| && s.steps[i].Agent?
      ensures Counts(LastOf(s, Start, b, 2), |s.steps|)[i] >= 2
    {
      ProperIsNonnegative(s, i);
      CountsOfLast(s, Start, b, 2, i);
    }
  }

  /** With everyone else done first, the later calls of `b` draw on its own guard alone. */
  lemma MustDraw(s: Stage, b: nat, k: nat)
    requires Proper(s) && RetriesCost(s) && AllAsExpected(s) && Asks(s, b, k) && k >= 2
    ensures Charge(s.steps[b].beats[..k]) + s.steps[b].beats[k].projected + s.Others(b).drawn <= s.money.orgRemaining
  {
    hide Counts, Total, LastOf, AllAsExpected, RetriesCost, Proper, Charge, Cost, CapOf, s.After;
    NoneResumed(|s.steps|, b);
    var g := SlotOfOwn(s, b, k);
    OthersDrawWhatTheySpend(s, b);
    CostOfPrefix(s.steps[b].beats, k - 1);
    CallAgainstSlot(s, Start, b, k, k, g);
  }

  lemma ExpectedMustFit(s: Stage)
    requires Proper(s) && RetriesCost(s) && AllAsExpected(s)
    ensures Fits(s)
  {
    hide AllAsExpected, RetriesCost, Proper, Charge;
    forall i | 0 <= i < |s.steps|
      ensures s.money.spent + s.Others(i).spent < s.limit
    {
      MustAfford(s, i);
    }
    forall b: nat, k: nat, a: nat | Asks(s, b, k) && IsAgent(s, a)
      ensures CallFits(s, b, k, a)
    {
      NothingAtDispatch(s, b);
      if k == 1 {
        MustAfford(s, b);
      } else {
        MustPass(s, b, k, a);
        MustDraw(s, b, k);
      }
    }
  }

  lemma NothingInDispatch(beats: seq<Item>)
    requires beats != [] && beats[0] == DISPATCH
    ensures beats[..0] == [] && Charge(beats[..1]) == 0.0 && Cost(beats[..1]) == 0.0
    ensures |beats| == 1 ==> Charge(beats) == 0.0 && Cost(beats) == 0.0
  {
    assert beats[..1] == [DISPATCH] && [DISPATCH][..0] == [];
    if |beats| == 1 {
      assert beats == [DISPATCH];
    }
  }

  // ---------- a step that has budget and router to itself ----------

  /** A step resumed `n` times from money `m` with nobody else in between: on its trail,
      under its own guard. */
  ghost predicate AloneAt(step: Step, m: Money, n: nat, state: TaskState<Place>, money: Money) {
    && state == TrailAt(step, n).state
    && (n <= 1 <= Length(step) ==> money == m)
    && (2 <= n <= Length(step) && step.Agent? ==>
          money.slot == Some(Guard(step.ceiling, m.orgRemaining, 0.0).Charged(Charge(step.beats[..n - 1]))))
    && var booked := if n <= Length(step) then 0.0 else CapOf(step).spent;
       money.spent == m.spent + booked && money.orgRemaining == m.orgRemaining - booked
  }

  lemma {:induction false} AloneOnTrail(step: Step, limit: real, board: Board, m: Money, n: nat)
    requires FinishesAlone(step, m.orgRemaining) && m.spent < limit
    ensures var (state, money) := Alone(TaskOf(step), limit, board, m, n); AloneAt(step, m, n, state, money)
  {
    if n > 0 {
      AloneOnTrail(step, limit, board, m, n - 1);
      var (state, money) := Alone(TaskOf(step), limit, board, m, n - 1);
      if n - 1 <= Length(step) {
        AloneGoesOn(step, limit, m, n - 1, money);
      }
      hide AloneAt, FinishesAlone, Exec, Stretch;
    }
  }

  /** Alone, the tests of a stretch pass and its charges are the step's own. */
  lemma AloneGoesOn(step: Step, limit: real, m: Money, k: nat, money: Money)
    requires k <= Length(step) && FinishesAlone(step, m.orgRemaining) && m.spent < limit
    requires AloneAt(step, m, k, TrailAt(step, k).state, money)
    ensures var (after, left) := Exec(Stretch(step, 0, k), limit, money); AloneAt(step, m, k + 1, after, left)
  {
    if step.Agent? {
      NothingInDispatch(step.beats);
      if k >= 1 {
        CostOfPrefix(step.beats, k - 1);
      }
    }
    hide Cost, Charge, Exec, Stretch;
    StretchRuns(step, 0, k, limit, money);
  }

  /** A step resumed alone that will be refused at its beat `k`, if not before, in every
      attempt: the organisation has too little left for it. */
  ghost predicate Stuck(step: Step, org: real, k: nat, state: TaskState<Place>, money: Money)
    requires step.Agent?
  {
    match state
    case Over(outcome) => outcome != Expected(step)
    case Running(place) =>
      && place.beat <= k <= |step.beats| && money.orgRemaining <= org
      && (place.beat >= 2 ==> money.slot.Some? && money.slot.value.orgRemaining <= org - Charge(step.beats[..place.beat - 1]))
  }

  lemma {:induction false} AloneIsStuck(step: Step, limit: real, board: Board, m: Money, k: nat, n: nat)
    requires step.Agent? && WellCosted(step) && EndsDiffer(step) && k < |step.beats| && step.beats[k].Ask?
    requires m.orgRemaining < Charge(step.beats[..k]) + step.beats[k].projected
    ensures var (state, money) := Alone(TaskOf(step), limit, board, m, n); Stuck(step, m.orgRemaining, k, state, money)
  {
    if n > 0 {
      AloneIsStuck(step, limit, board, m, k, n - 1);
      var (state, money) := Alone(TaskOf(step), limit, board, m, n - 1);
      if state.Running? {
        StuckAgain(step, limit, m.orgRemaining, k, state.local, money);
      }
      hide Stuck, WellCosted, EndsDiffer, Exec, Stretch;
    }
  }

  lemma StuckAgain(step: Step, limit: real, org: real, k: nat, place: Place, m: Money)
    requires step.Agent? && WellCosted(step) && EndsDiffer(step) && k < |step.beats| && step.beats[k].Ask?
    requires org < Charge(step.beats[..k]) + step.beats[k].projected && Stuck(step, org, k, Running(place), m)
    ensures var (state, money) := Exec(Stretch(step, place.attempt, place.beat), limit, m); Stuck(step, org, k, state, money)
  {
    hide Cost, Charge, Exec, Stretch;
    StretchRuns(step, place.attempt, place.beat, limit, m);
    NothingInDispatch(step.beats);
    PrefixesBelow(step.beats, place.beat);
    hide Nonnegative;
    if place.beat >= 1 {
      CostOfPrefix(step.beats, place.beat - 1);
      StuckEntering(step, org, k, place.beat, m);
    }
  }

  /** What the guard in the slot has left of the organisation's remainder. */
  lemma StuckEntering(step: Step, org: real, k: nat, j: nat, m: Money)
    requires step.Agent? && 1 <= j <= k < |step.beats| && Stuck(step, org, k, Running(At(0, j)), m)
    requires Charge(step.beats[..j]) == Charge(step.beats[..j - 1]) + if step.beats[j - 1].Ask? then step.beats[j - 1].usd else 0.0
    requires j == 1 ==> Charge(step.beats[..1]) == 0.0
    ensures var slot := Entering(step, j, m).slot; slot.Some? && slot.value.orgRemaining <= org - Charge(step.beats[..j])
    ensures Entering(step, j, m).orgRemaining <= org
  {
    hide Charge;
  }

  /** Resuming one step several times in a row is resuming it alone. */
  lemma {:induction false} TimesIsAlone(s: Stage, before: Schedule, i: nat, n: nat)
    requires ScheduleFor(before, |s.steps|) && i < |s.steps| && s.After(before).states[i] == Running(At(0, 0))
    ensures ScheduleFor(Times(before, i, n), |s.steps|)
    ensures var (state, money) := Alone(TaskOf(s.steps[i]), s.limit, s.board, s.After(before).money, n);
            && s.After(Times(before, i, n)).states == s.After(before).states[i := state]
            && s.After(Times(before, i, n)).money == money
  {
    if n > 0 {
      TimesIsAlone(s, before, i, n - 1);
      hide Exec, Stretch;
    }
  }

  // ---------- agreement ----------

  /** A step that goes first ends as expected. */
  lemma FirstEndsAsExpected(s: Stage, i: nat) returns (schedule: Schedule)
    requires Proper(s) && i < |s.steps|
    ensures s.Complete(schedule) && s.After(schedule).states[i] == Over(Expected(s.steps[i]))
  {
    var n, first := |s.steps|, Times(Start, i, Enough(s, i));
    schedule := FinishBut(s, first, n, i);
    AloneOnTrail(s.steps[i], s.limit, s.board, s.money, Enough(s, i));
    TimesIsAlone(s, Start, i, Enough(s, i));
    CountsOfTimes(Start, i, Enough(s, i), n);
    CountsOfFinish(s, first, n, i, i);
    forall j | 0 <= j < n
      ensures Counts(schedule, n)[j] >= Enough(s, j)
    {
      CountsOfFinish(s, first, n, i, j);
    }
    hide Counts, Times, FinishBut, Alone, Proper;
    EnoughCompletes(s, schedule);
    FinishBegins(s, first, n, i);
    OverStays(s, schedule, first, i);
  }

  /** One step after another, each to its end. */
  function OneByOne(s: Stage, m: nat): Schedule {
    FinishBut(s, Start, m, |s.steps|)
  }

  lemma OneByOneCompletes(s: Stage)
    requires Proper(s)
    ensures s.Complete(OneByOne(s, |s.steps|))
  {
    var n := |s.steps|;
    forall j | 0 <= j < n
      ensures ScheduleFor(OneByOne(s, n), n) && Counts(OneByOne(s, n), n)[j] >= Enough(s, j)
    {
      CountsOfFinish(s, Start, n, n, j);
    }
    OneByOneScheduled(s, n);
    hide Counts, OneByOne, Proper, Enough;
    EnoughCompletes(s, OneByOne(s, n));
  }

  lemma {:induction false} OneByOneScheduled(s: Stage, m: nat)
    requires m <= |s.steps|
    ensures ScheduleFor(OneByOne(s, m), |s.steps|)
  {
    if m > 0 {
      CountsOfFinish(s, Start, m, |s.steps|, 0);
    }
  }

  /** Steps that run one by one and end as expected cost what they cost. */
  lemma {:induction false} OneByOneCosts(s: Stage, m: nat)
    requires Proper(s) && m <= |s.steps| && s.Complete(OneByOne(s, |s.steps|)) && AsExpected(s, s.After(OneByOne(s, |s.steps|)))
    ensures ScheduleFor(OneByOne(s, m), |s.steps|)
    ensures var c, cost := s.After(OneByOne(s, m)), Total(s.Caps()[..m]).spent;
            && c.money.spent == s.money.spent + cost && c.money.orgRemaining == s.money.orgRemaining - cost
            && forall j :: m <= j < |s.steps| ==> c.states[j] == Running(At(0, 0))
  {
    OneByOneScheduled(s, m);
    if m > 0 {
      OneByOneCosts(s, m - 1);
      hide Proper, Total, Alone, FinishesAlone, CapOf, s.After;
      var i, front := m - 1, OneByOne(s, m - 1);
      EndsAlone(s, i);
      var c := s.After(front);
      AloneOnTrail(s.steps[i], s.limit, s.board, c.money, Enough(s, i));
      TimesIsAlone(s, front, i, Enough(s, i));
      TotalOfFront(s.Caps(), i);
    }
  }

  lemma TotalOfFront(ls: seq<Ledger>, i: nat)
    requires i < |ls|
    ensures Total(ls[..i + 1]) == Total(ls[..i]).Plus(ls[i])
  {
    assert ls[..i + 1][..i] == ls[..i];
  }

  /** A step that ends as expected when it runs by itself had enough of everything. */
  lemma EndsAlone(s: Stage, i: nat)
    requires Proper(s) && i < |s.steps| && s.Complete(OneByOne(s, |s.steps|)) && AsExpected(s, s.After(OneByOne(s, |s.steps|)))
    requires ScheduleFor(OneByOne(s, i), |s.steps|) && s.After(OneByOne(s, i)).states[i] == Running(At(0, 0))
    ensures var m := s.After(OneByOne(s, i)).money; FinishesAlone(s.steps[i], m.orgRemaining) && m.spent < s.limit
  {
    var step, front, m, n := s.steps[i], OneByOne(s, i), s.After(OneByOne(s, i)).money, Enough(s, i);
    var (state, money) := Alone(TaskOf(step), s.limit, s.board, m, n);
    ProperIsNonnegative(s, i);
    assert FinishesAlone(step, s.money.orgRemaining);
    TimesIsAlone(s, front, i, n);
    OverByThen(s, i);
    FinishGoesOn(s, Start, |s.steps|, i + 1, |s.steps|);
    EndsAsWhole(s, OneByOne(s, |s.steps|), OneByOne(s, i + 1), i);
    assert state == Over(Expected(step));
    hide Alone, s.After, Charge, Cost, Proper;
    if !(m.spent < s.limit) {
      AlonePoor(step, s.limit, s.board, m, n);
    }
    if k: nat :| step.Agent? && k < |step.beats| && step.beats[k].Ask? && m.orgRemaining < Charge(step.beats[..k]) + step.beats[k].projected {
      AloneIsStuck(step, s.limit, s.board, m, k, n);
    }
  }

  lemma OverByThen(s: Stage, i: nat)
    requires Proper(s) && i < |s.steps| && ScheduleFor(OneByOne(s, i), |s.steps|)
    ensures ScheduleFor(OneByOne(s, i + 1), |s.steps|) && s.After(OneByOne(s, i + 1)).states[i].Over?
  {
    CountsOfFinish(s, Start, i + 1, |s.steps|, i);
    ProperIsNonnegative(s, i);
    Progress(s, OneByOne(s, i + 1), i);
    hide s.After, Counts;
  }

  lemma AlonePoor(step: Step, limit: real, board: Board, m: Money, n: nat)
    requires EndsDiffer(step) && m.spent >= limit && n >= 1
    ensures Alone(TaskOf(step), limit, board, m, n).0 != Over(Expected(step))
  {
    var end: Op<Place> := Finish(SKIPPED);
    assert Alone(TaskOf(step), limit, board, m, 0) == (Running(At(0, 0)), m);
    assert Exec(Stretch(step, 0, 0), limit, m) == Exec(end, limit, m);
    assert Alone(TaskOf(step), limit, board, m, 1).0 == Over(SKIPPED);
    AloneStaysOver(TaskOf(step), limit, board, m, 1, n);
  }

  /** If all schedules agree, every step ends as when it goes first, and the spend is that
      of the steps one by one. */
  lemma AgreedMeansExpected(s: Stage)
    requires Proper(s) && Agreed(s)
    ensures AllAsExpected(s)
  {
    hide Proper, FinishBut;
    forall schedule | s.Complete(schedule)
      ensures AsExpected(s, s.After(schedule))
    {
      forall i | 0 <= i < |s.steps|
        ensures s.After(schedule).states[i] == Over(Expected(s.steps[i]))
      {
        var first := FirstEndsAsExpected(s, i);
        assert SameOutcome(s.After(first), s.After(schedule));
      }
    }
    var all := OneByOne(s, |s.steps|);
    OneByOneCompletes(s);
    OneByOneCosts(s, |s.steps|);
    assert s.Caps()[..|s.steps|] == s.Caps();
    forall schedule | s.Complete(schedule)
      ensures AsPlanned(s, s.After(schedule))
    {
      assert SameOutcome(s.After(all), s.After(schedule));
    }
  }

  /** The order of a wave does not show if and only if it fits: every complete schedule
      ends alike exactly when no step can find the run limit reached by the others and no
      model call can find a guard used up by them; and then every step ends as expected at
      its first attempt. Agents may try again after a refusal, for that costs something. */
  lemma OrderIsInvisibleExactly(s: Stage)
    requires Proper(s) && RetriesCost(s)
    ensures Agreed(s) <==> Fits(s)
    ensures AllAsExpected(s) <==> Fits(s)
  {
    hide Agreed, AllAsExpected, Fits, Proper, RetriesCost;
    if Fits(s) {
      FittingIsEnough(s);
    }
    if Agreed(s) {
      AgreedMeansExpected(s);
    }
    if AllAsExpected(s) {
      ExpectedMustFit(s);
    }
  }

  // ---------- waves this decides ----------

  lemma OthersAfter(s: Stage, i: nat, l: Ledger)
    requires i < |s.steps|
    ensures s.Others(i) == Total(s.Caps()[i := l]).Minus(l)
  {
    hide CapOf, Total;
    TotalUpdate(s.Caps(), i, l);
  }

  lemma TotalOfMore(ls: seq<Ledger>, l: Ledger)
    ensures Total(ls + [l]) == Total(ls).Plus(l)
  {
    assert (ls + [l])[..|ls|] == ls;
  }

  /** With one agent at most, only a step beside it can be hurt: by finding the run limit
      reached. A step alone in its wave may spend all that is left. */
  lemma OneAgentFitsExactly(s: Stage, a: nat)
    requires Proper(s) && RetriesCost(s) && a < |s.steps| && forall i :: 0 <= i < |s.steps| && i != a ==> s.steps[i].Plain?
    ensures Agreed(s) <==> |s.steps| == 1 || s.money.spent + CapOf(s.steps[a]).spent < s.limit
  {
    hide Agreed, AllAsExpected, RetriesCost, CapOf, Total;
    forall i: nat | i < |s.steps|
      ensures s.Others(i) == if i == a then NOTHING else CapOf(s.steps[a])
    {
      OnlyOneBooks(s, a, i);
    }
    forall b: nat, k: nat, c: nat | Asks(s, b, k) && IsAgent(s, c)
      ensures CallFits(s, b, k, c)
    {
      assert b == a == c && FinishesAlone(s.steps[a], s.money.orgRemaining);
    }
    if |s.steps| > 1 {
      var i: nat := if a == 0 then 1 else 0;
      assert s.Others(i) == CapOf(s.steps[a]);
    }
    OrderIsInvisibleExactly(s);
  }

  lemma OnlyOneBooks(s: Stage, a: nat, i: nat)
    requires a < |s.steps| && i < |s.steps| && forall j :: 0 <= j < |s.steps| && j != a ==> s.steps[j].Plain?
    ensures s.Others(i) == if i == a then NOTHING else CapOf(s.steps[a])
  {
    var idle := s.Caps()[a := NOTHING];
    TotalOfNothing(idle);
    OthersAfter(s, a, NOTHING);
    assert i != a ==> s.Caps()[i] == NOTHING;
  }
}

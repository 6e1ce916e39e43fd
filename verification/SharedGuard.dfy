/** What agents that share the router's guard do to one another: agents of one wave that
    each ask the model twice and may try once more. */
module SharedGuard {
  import opened Common
  import opened WaveInterleaving
  import opened AgentWave
  import E = MissionEngine

  /** An agent that asks, uses a tool that costs nothing, and asks again. */
  function TwoCalls(usd: real): seq<Item> {
    [DISPATCH, Ask(usd, usd), UseTool(0.0), Ask(usd, usd)]
  }

  /** A wave of such agents, each fine on its own, which may try again once. */
  ghost predicate Callers(s: Stage, usd: real) {
    && usd > 0.0 && Proper(s)
    && forall i :: 0 <= i < |s.steps| ==> IsAgent(s, i) && s.steps[i].beats == TwoCalls(usd) && s.steps[i].retries == 1
  }

  lemma CostOfTwoCalls(usd: real)
    ensures var beats := TwoCalls(usd);
            && Charge(beats[..0]) == 0.0 && Charge(beats[..1]) == 0.0 && Charge(beats[..3]) == usd
            && Cost(beats[..2]) == usd == Cost(beats[..3]) && Charge(beats) == Cost(beats) == 2.0 * usd
  {
    var beats := TwoCalls(usd);
    assert beats[..0] == [] && beats[..3 + 1] == beats;
    CostOfPrefix(beats, 0);
    CostOfPrefix(beats, 1);
    CostOfPrefix(beats, 2);
    CostOfPrefix(beats, 3);
    hide Charge, Cost;
    NothingInDispatch(beats);
  }

  lemma CallerIsFine(s: Stage, usd: real, i: nat)
    requires Callers(s, usd) && i < |s.steps|
    ensures WellCosted(s.steps[i]) && EndsDiffer(s.steps[i])
    ensures 2.0 * usd <= s.steps[i].ceiling && 2.0 * usd <= s.money.orgRemaining
  {
    assert FinishesAlone(s.steps[i], s.money.orgRemaining);
    assert s.steps[i].beats[3].Ask?;
    CostOfTwoCalls(usd);
    hide Charge, Cost;
  }

  /** The money after a caller's stretch whose test passes. */
  function Onto(ceiling: real, usd: real, k: nat, m: Money): Money {
    if k == 1 then m.(slot := Some(Guard(ceiling, m.orgRemaining, 0.0)))
    else
      var charged := if (k == 2 || k == 4) && m.slot.Some? then m.(slot := Some(m.slot.value.Charged(usd))) else m;
      if k == 4 then Paying(charged, 2.0 * usd) else charged
  }

  predicate CallerPasses(ceiling: real, usd: real, k: nat, limit: real, m: Money) {
    && (k == 0 ==> Rich(limit, m))
    && (k == 1 ==> usd <= ceiling && usd <= m.orgRemaining)
    && (k == 3 ==> m.slot.None? || m.slot.value.Passes(usd))
  }

  lemma CallerRuns(step: Step, usd: real, attempt: nat, k: nat, limit: real, m: Money)
    requires step.Agent? && step.beats == TwoCalls(usd) && k <= 4 && usd >= 0.0
    ensures Exec(Stretch(step, attempt, k), limit, m) ==
            if CallerPasses(step.ceiling, usd, k, limit, m) then (Onward(step, attempt, k), Onto(step.ceiling, usd, k, m))
            else (Stopped(step, attempt, k),
                  Paying(if k == 1 then Onto(step.ceiling, usd, 1, m) else m, if k == 3 then usd else 0.0))
  {
    CostOfTwoCalls(usd);
    assert step.beats[0] == DISPATCH && step.beats[2] == UseTool(0.0);
    hide Exec, Stretch, Charge, Cost;
    StretchRuns(step, attempt, k, limit, m);
  }

  // ---------- any number of agents can starve one of them ----------

  /** Each of the first `m` steps but one resumed once more. */
  function EachBut(before: Schedule, m: nat, skip: nat): Schedule {
    if m == 0 then before
    else if m - 1 == skip then EachBut(before, m - 1, skip)
    else Then(EachBut(before, m - 1, skip), m - 1)
  }

  /** The first `m` steps but `v` have `k + 1` beats done and the rest `k`; `v` stands apart. */
  ghost predicate Lined(s: Stage, v: nat, m: nat, k: nat, apart: TaskState<Place>, c: Config<Place>) {
    && v < |s.steps| == |c.states| && c.states[v] == apart
    && forall i :: 0 <= i < |s.steps| && i != v ==> c.states[i] == TrailAt(s.steps[i], if i < m then k + 1 else k).state
  }

  function Others(m: nat, v: nat): nat {
    if v < m then m - 1 else m
  }

  /** The money once `q` of them have taken that step. */
  predicate MoneyAfter(usd: real, k: nat, q: nat, m: Money, now: Money) {
    && now.spent == m.spent + (if k == 4 then q as real * (2.0 * usd) else 0.0)
    && now.orgRemaining == m.orgRemaining - (if k == 4 then q as real * (2.0 * usd) else 0.0)
    && (k >= 2 && m.slot.Some? ==> now.slot == Some(m.slot.value.Charged(if k == 2 || k == 4 then q as real * usd else 0.0)))
  }

  lemma {:induction false} EachRuns(s: Stage, usd: real, before: Schedule, m: nat, v: nat, k: nat, apart: TaskState<Place>)
    requires Callers(s, usd) && m <= |s.steps| && ScheduleFor(before, |s.steps|) && Lined(s, v, 0, k, apart, s.After(before)) && k <= 4
    requires var money := s.After(before).money;
             && (k == 0 ==> Rich(s.limit, money)) && (k == 1 ==> usd <= money.orgRemaining)
             && (k >= 2 ==> money.slot.Some?) && (k == 3 ==> money.slot.value.Passes(usd))
    ensures ScheduleFor(EachBut(before, m, v), |s.steps|)
    ensures Lined(s, v, m, k, apart, s.After(EachBut(before, m, v)))
    ensures MoneyAfter(usd, k, Others(m, v), s.After(before).money, s.After(EachBut(before, m, v)).money)
  {
    hide Callers, Lined, Onto, s.After;
    if m > 0 {
      EachRuns(s, usd, before, m - 1, v, k, apart);
      if m - 1 == v {
        PastVictim(s, v, k, apart, s.After(EachBut(before, m - 1, v)));
      } else {
        var front := EachBut(before, m - 1, v);
        CallerIsFine(s, usd, m - 1);
        Positive(s, usd);
        StillPasses(usd, s.steps[m - 1].ceiling, k, Others(m - 1, v), s.limit, s.After(before).money, s.After(front).money);
        OtherRuns(s, usd, front, m - 1, v, k, apart);
        OneMorePays(usd, s.steps[m - 1].ceiling, k, Others(m - 1, v), s.After(before).money, s.After(front).money);
      }
    }
  }

  lemma PastVictim(s: Stage, v: nat, k: nat, apart: TaskState<Place>, c: Config<Place>)
    requires Lined(s, v, v, k, apart, c)
    ensures Lined(s, v, v + 1, k, apart, c)
  {
    hide TrailAt;
  }

  /** The test of the next of them is no harder than that of the first. */
  lemma StillPasses(usd: real, ceiling: real, k: nat, q: nat, limit: real, m: Money, now: Money)
    requires usd > 0.0 && k <= 4 && usd <= ceiling && MoneyAfter(usd, k, q, m, now)
    requires (k == 0 ==> Rich(limit, m)) && (k == 1 ==> usd <= m.orgRemaining) && (k == 3 ==> m.slot.Some? && m.slot.value.Passes(usd))
    ensures CallerPasses(ceiling, usd, k, limit, now)
  {
  }

  lemma OtherRuns(s: Stage, usd: real, before: Schedule, i: nat, v: nat, k: nat, apart: TaskState<Place>)
    requires Callers(s, usd) && ScheduleFor(before, |s.steps|) && i < |s.steps| && i != v && k <= 4
    requires Lined(s, v, i, k, apart, s.After(before)) && CallerPasses(s.steps[i].ceiling, usd, k, s.limit, s.After(before).money)
    ensures ScheduleFor(Then(before, i), |s.steps|) && Lined(s, v, i + 1, k, apart, s.After(Then(before, i)))
    ensures s.After(Then(before, i)).money == Onto(s.steps[i].ceiling, usd, k, s.After(before).money)
  {
    hide Exec, Stretch, Onto, CallerPasses;
    CallerRuns(s.steps[i], usd, 0, k, s.limit, s.After(before).money);
  }

  lemma OneMorePays(usd: real, ceiling: real, k: nat, q: nat, m: Money, now: Money)
    requires k <= 4 && MoneyAfter(usd, k, q, m, now)
    ensures MoneyAfter(usd, k, q + 1, m, Onto(ceiling, usd, k, now))
  {
    assert (q + 1) as real * usd == q as real * usd + usd;
    assert (q + 1) as real * (2.0 * usd) == q as real * (2.0 * usd) + 2.0 * usd;
  }

  /** One agent's own resumption, from a place on its two attempts. */
  lemma VictimRuns(s: Stage, usd: real, before: Schedule, v: nat, m: nat, k: nat, place: Place)
    requires Callers(s, usd) && ScheduleFor(before, |s.steps|) && Lined(s, v, m, k, Running(place), s.After(before)) && place.beat <= 4
    ensures ScheduleFor(Then(before, v), |s.steps|)
    ensures var (c, d, step) := (s.After(before), s.After(Then(before, v)), s.steps[v]);
            if CallerPasses(step.ceiling, usd, place.beat, s.limit, c.money) then
              && Lined(s, v, m, k, Onward(step, place.attempt, place.beat), d) && d.money == Onto(step.ceiling, usd, place.beat, c.money)
            else
              && Lined(s, v, m, k, Stopped(step, place.attempt, place.beat), d)
              && (place.beat == 3 ==> d.money == Paying(c.money, usd))
  {
    CallerRuns(s.steps[v], usd, place.attempt, place.beat, s.limit, s.After(before).money);
    hide Exec, Stretch, Onto, CallerPasses, Onward, Stopped;
  }

  lemma NextLine(s: Stage, v: nat, k: nat, apart: TaskState<Place>, c: Config<Place>)
    requires Lined(s, v, |s.steps|, k, apart, c)
    ensures Lined(s, v, 0, k + 1, apart, c)
  {
    hide TrailAt;
  }

  /** All others and then `v` are dispatched: `v` has its own guard in the slot. */
  lemma AllDispatched(s: Stage, usd: real, v: nat) returns (schedule: Schedule)
    requires Callers(s, usd) && v < |s.steps|
    ensures ScheduleFor(schedule, |s.steps|) && Lined(s, v, 0, 2, Running(At(0, 2)), s.After(schedule))
    ensures s.After(schedule).money == s.money.(slot := Some(Guard(s.steps[v].ceiling, s.money.orgRemaining, 0.0)))
  {
    hide Lined, Callers, s.After;
    var n := |s.steps|;
    CallerIsFine(s, usd, v);
    Positive(s, usd);
    var apart: TaskState<Place> := Running(At(0, 0));
    AtTheStart(s, usd, v);
    EachRuns(s, usd, Start, n, v, 0, apart);
    var looked := EachBut(Start, n, v);
    NextLine(s, v, 0, apart, s.After(looked));
    EachRuns(s, usd, looked, n, v, 1, apart);
    var started := EachBut(looked, n, v);
    NextLine(s, v, 1, apart, s.After(started));
    VictimRuns(s, usd, started, v, 0, 2, At(0, 0));
    VictimRuns(s, usd, Then(started, v), v, 0, 2, At(0, 1));
    schedule := Then(Then(started, v), v);
  }

  lemma AtTheStart(s: Stage, usd: real, v: nat)
    requires Callers(s, usd) && v < |s.steps|
    ensures s.After(Start).money == s.money && Rich(s.limit, s.money) && usd > 0.0
    ensures Lined(s, v, 0, 0, Running(At(0, 0)), s.After(Start))
  {
  }

  /** Everyone's first call lands on the guard of `v`, which then refuses its second. */
  lemma FirstRefusal(s: Stage, usd: real, v: nat) returns (schedule: Schedule)
    requires Callers(s, usd) && v < |s.steps| && s.steps[v].ceiling < (|s.steps| + 1) as real * usd
    ensures ScheduleFor(schedule, |s.steps|) && Lined(s, v, 0, 3, Running(At(1, 2)), s.After(schedule))
    ensures var m, g := s.After(schedule).money, Guard(s.steps[v].ceiling, s.money.orgRemaining - usd, 0.0);
            m.slot == Some(g) && g.Passes(usd)
  {
    hide Lined, Callers, s.After;
    var n := |s.steps|;
    CallerIsFine(s, usd, v);
    Positive(s, usd);
    var before := AllDispatched(s, usd, v);
    EachRuns(s, usd, before, n, v, 2, Running(At(0, 2)));
    var asked := EachBut(before, n, v);
    NextLine(s, v, 2, Running(At(0, 2)), s.After(asked));
    VictimRuns(s, usd, asked, v, 0, 3, At(0, 2));
    VictimRuns(s, usd, Then(asked, v), v, 0, 3, At(0, 3));
    Overfull(n, usd, s.steps[v].ceiling);
    VictimRuns(s, usd, Then(Then(asked, v), v), v, 0, 3, At(1, 1));
    schedule := Then(Then(Then(asked, v), v), v);
  }

  lemma Overfull(n: nat, usd: real, ceiling: real)
    requires n >= 1 && ceiling < (n + 1) as real * usd
    ensures (n - 1) as real * usd + usd + usd > ceiling
  {
    assert (n + 1) as real * usd == (n - 1) as real * usd + usd + usd;
  }

  lemma Positive(s: Stage, usd: real)
    requires Callers(s, usd)
    ensures usd > 0.0
    ensures forall i :: 0 <= i < |s.steps| ==> s.steps[i].Agent? && s.steps[i].retries == 1
    ensures forall i :: 0 <= i < |s.steps| ==> Length(s.steps[i]) == 4
  {
  }

  /** Everyone's second call lands on its next guard, which refuses it again. */
  lemma SecondRefusal(s: Stage, usd: real, v: nat) returns (schedule: Schedule)
    requires Callers(s, usd) && v < |s.steps| && s.steps[v].ceiling < (|s.steps| + 1) as real * usd
    ensures ScheduleFor(schedule, |s.steps|) && Lined(s, v, 0, 5, Over(s.steps[v].refused), s.After(schedule))
  {
    hide Lined, Callers, s.After;
    var n := |s.steps|;
    CallerIsFine(s, usd, v);
    Positive(s, usd);
    var before := FirstRefusal(s, usd, v);
    EachRuns(s, usd, before, n, v, 3, Running(At(1, 2)));
    var checked := EachBut(before, n, v);
    NextLine(s, v, 3, Running(At(1, 2)), s.After(checked));
    EachRuns(s, usd, checked, n, v, 4, Running(At(1, 2)));
    var ended := EachBut(checked, n, v);
    NextLine(s, v, 4, Running(At(1, 2)), s.After(ended));
    VictimRuns(s, usd, ended, v, 0, 5, At(1, 2));
    Overfull(n, usd, s.steps[v].ceiling);
    VictimRuns(s, usd, Then(ended, v), v, 0, 5, At(1, 3));
    schedule := Then(Then(ended, v), v);
  }

  /** Agents of one wave that together ask for more than one of them is allowed: on some
      complete schedule that one is refused in both its attempts, although nobody
      overspends and whatever the mission's budget. So the order shows in how it ends. */
  lemma OneCanStarve(s: Stage, usd: real, v: nat) returns (schedule: Schedule)
    requires Callers(s, usd) && v < |s.steps| && s.steps[v].ceiling < (|s.steps| + 1) as real * usd
    ensures s.Complete(schedule) && s.After(schedule).states[v] == Over(s.steps[v].refused)
    ensures s.steps[v].refused != Expected(s.steps[v]) && !Agreed(s)
  {
    schedule := SecondRefusal(s, usd, v);
    CallerIsFine(s, usd, v);
    Positive(s, usd);
    var first := FirstEndsAsExpected(s, v);
    hide s.After, Proper;
    assert !SameOutcome(s.After(first), s.After(schedule));
  }

  // ---------- two agents: what one more attempt saves ----------

  /** Neither the mission's budget nor the organisation's remainder can bind. */
  predicate Plenty(s: Stage, usd: real) {
    s.money.spent + 3.0 * usd < s.limit && 9.0 * usd <= s.money.orgRemaining
  }

  /** One of two agents that has made `own` charges in all its attempts and its rival
      `rival`, while the guard in the slot has taken `u`. */
  ghost predicate Holding(step: Step, state: TaskState<Place>, own: nat, rival: nat, u: nat) {
    match state
    case Over(outcome) => outcome == Expected(step) && own <= 3
    case Running(place) =>
      && place.attempt <= 1 && place.beat <= 4 && (place.attempt == 1 ==> place.beat >= 1 && rival >= 2)
      && own == place.attempt + Asked(place)
      && (place.beat >= 2 ==> u + 2 * place.attempt <= rival + Asked(place))
  }

  /** The charges of the current attempt. */
  function Asked(place: Place): nat {
    if place.beat >= 3 then 1 else 0
  }

  /** What an agent has booked at most. */
  function BookedBy(usd: real, state: TaskState<Place>): real {
    if state.Over? then 3.0 * usd else if state.local.attempt >= 1 then usd else 0.0
  }

  ghost predicate SlotHolds(s: Stage, usd: real, slot: Option<Guard>, u: nat) {
    slot.Some? && GuardHolds(s, usd, slot.value, u)
  }

  ghost predicate GuardHolds(s: Stage, usd: real, g: Guard, u: nat) {
    && g.spent == u as real * usd && g.limit >= 3.0 * usd
    && g.orgRemaining >= s.money.orgRemaining - 6.0 * usd - u as real * usd
  }

  ghost predicate MoneyHolds(s: Stage, m: Money, booked: real) {
    m.spent <= s.money.spent + booked && m.orgRemaining >= s.money.orgRemaining - booked
  }

  predicate Dispatched(state: TaskState<Place>) {
    state.Running? && state.local.beat >= 2
  }

  ghost predicate Duel(s: Stage, usd: real, c: Config<Place>, own: seq<nat>, u: nat) {
    && |s.steps| == |c.states| == |own| == 2 && u <= own[0] + own[1]
    && Holding(s.steps[0], c.states[0], own[0], own[1], u) && Holding(s.steps[1], c.states[1], own[1], own[0], u)
    && MoneyHolds(s, c.money, BookedBy(usd, c.states[0]) + BookedBy(usd, c.states[1]))
    && (Dispatched(c.states[0]) || Dispatched(c.states[1]) ==> SlotHolds(s, usd, c.money.slot, u))
  }

  /** A guard that has taken two charges at most lets a call through. */
  lemma TwoChargesLeaveRoom(s: Stage, usd: real, g: Guard, u: nat)
    requires usd > 0.0 && Plenty(s, usd) && GuardHolds(s, usd, g, u) && u <= 2
    ensures g.Passes(usd)
  {
    assert u as real * usd <= 2.0 * usd;
  }

  /** What one resumption of agent `i` makes of its state, its charges and the guard's. */
  lemma DuelMoves(s: Stage, usd: real, step: Step, place: Place, m: Money, own: nat, rival: nat, u: nat, others: real)
    returns (more: nat, taken: nat)
    requires usd > 0.0 && Plenty(s, usd) && step.Agent? && step.beats == TwoCalls(usd) && step.retries == 1 && step.ceiling >= 3.0 * usd
    requires Holding(step, Running(place), own, rival, u) && rival <= 3 && u <= own + rival && 0.0 <= others <= 3.0 * usd
    requires MoneyHolds(s, m, BookedBy(usd, Running(place)) + others) && (place.beat >= 2 ==> SlotHolds(s, usd, m.slot, u))
    ensures var (state, money) := Exec(Stretch(step, place.attempt, place.beat), s.limit, m);
            && Holding(step, state, more, rival, taken) && own <= more && taken <= more + rival
            && (taken == 0 || taken + own == u + more)
            && MoneyHolds(s, money, BookedBy(usd, state) + others)
            && (Dispatched(state) || SlotHolds(s, usd, m.slot, u) ==> SlotHolds(s, usd, money.slot, taken))
  {
    CallerRuns(step, usd, place.attempt, place.beat, s.limit, m);
    hide Exec, Stretch;
    var k := place.beat;
    more := own + if k == 2 || k == 4 then 1 else 0;
    taken := if k == 1 then 0 else if k == 2 || k == 4 then u + 1 else u;
    assert (u + 1) as real * usd == u as real * usd + usd;
    if k == 3 && u <= 2 {
      TwoChargesLeaveRoom(s, usd, m.slot.value, u);
    }
  }

  lemma RivalHolds(step: Step, state: TaskState<Place>, own: nat, rival: nat, more: nat, u: nat, taken: nat)
    requires Holding(step, state, own, rival, u) && rival <= more && (taken == 0 || taken + rival == u + more)
    ensures Holding(step, state, own, more, taken) && own <= 3
  {
  }

  lemma DuelResumes(s: Stage, usd: real, c: Config<Place>, own: seq<nat>, u: nat, i: nat) returns (more: seq<nat>, taken: nat)
    requires Callers(s, usd) && Plenty(s, usd) && (forall j :: 0 <= j < |s.steps| ==> s.steps[j].ceiling >= 3.0 * usd)
    requires i < |s.steps| && Duel(s, usd, c, own, u)
    ensures |Resume(s.Tasks(), s.limit, c, i).states| == |s.steps|
    ensures Duel(s, usd, Resume(s.Tasks(), s.limit, c, i), more, taken)
  {
    hide Exec, Stretch, Holding, MoneyHolds, SlotHolds, Plenty, BookedBy, Dispatched, Proper;
    more, taken := own, u;
    if c.states[i].Running? {
      var j, place, others := 1 - i, c.states[i].local, BookedBy(usd, c.states[1 - i]);
      InDuel(s, usd, c, own, u, i);
      hide Duel;
      var z, t := DuelMoves(s, usd, s.steps[i], place, c.money, own[i], own[j], u, others);
      var (state, money) := Exec(Stretch(s.steps[i], place.attempt, place.beat), s.limit, c.money);
      more, taken := own[i := z], t;
      DuelGoesOn(s, usd, c, own, u, i, state, z, t, Resume(s.Tasks(), s.limit, c, i));
    }
  }

  /** What agent `i` needs to know of a duel. */
  lemma InDuel(s: Stage, usd: real, c: Config<Place>, own: seq<nat>, u: nat, i: nat)
    requires usd > 0.0 && Duel(s, usd, c, own, u) && i < 2 && c.states[i].Running?
    ensures var j := 1 - i;
            && Holding(s.steps[i], c.states[i], own[i], own[j], u) && own[j] <= 3 && u <= own[i] + own[j]
            && 0.0 <= BookedBy(usd, c.states[j]) <= 3.0 * usd
            && MoneyHolds(s, c.money, BookedBy(usd, c.states[i]) + BookedBy(usd, c.states[j]))
            && (c.states[i].local.beat >= 2 ==> SlotHolds(s, usd, c.money.slot, u))
  {
    hide SlotHolds;
  }

  lemma DuelGoesOn(s: Stage, usd: real, c: Config<Place>, own: seq<nat>, u: nat, i: nat, state: TaskState<Place>, z: nat, t: nat,
                   d: Config<Place>)
    requires Duel(s, usd, c, own, u) && i < 2 && |d.states| == 2 && d.states == c.states[i := state]
    requires var j := 1 - i;
             && Holding(s.steps[i], state, z, own[j], t) && own[i] <= z && t <= z + own[j] && (t == 0 || t + own[i] == u + z)
             && MoneyHolds(s, d.money, BookedBy(usd, state) + BookedBy(usd, c.states[j]))
             && (Dispatched(state) || SlotHolds(s, usd, c.money.slot, u) ==> SlotHolds(s, usd, d.money.slot, t))
    ensures Duel(s, usd, d, own[i := z], t)
  {
    hide SlotHolds, MoneyHolds, BookedBy, Holding;
    RivalHolds(s.steps[1 - i], c.states[1 - i], own[1 - i], own[i], z, u, t);
  }

  lemma {:induction false} DuelLasts(s: Stage, usd: real, schedule: Schedule) returns (own: seq<nat>, u: nat)
    requires Callers(s, usd) && Plenty(s, usd) && |s.steps| == 2 && (forall j :: 0 <= j < 2 ==> s.steps[j].ceiling >= 3.0 * usd)
    requires ScheduleFor(schedule, 2)
    ensures Duel(s, usd, s.After(schedule), own, u)
  {
    match schedule {
      case Start =>
        own, u := [0, 0], 0;
      case Then(before, i) =>
        own, u := DuelLasts(s, usd, before);
        own, u := DuelResumes(s, usd, s.After(before), own, u, i);
    }
    hide Callers, Plenty;
  }

  /** When every ceiling leaves room for three calls, both agents end as expected, if not
      at the first attempt then at the second. */
  lemma BothRecover(s: Stage, usd: real, schedule: Schedule)
    requires Callers(s, usd) && Plenty(s, usd) && |s.steps| == 2 && (forall j :: 0 <= j < 2 ==> s.steps[j].ceiling >= 3.0 * usd)
    requires s.Complete(schedule)
    ensures AsExpected(s, s.After(schedule))
  {
    hide Callers, Plenty, s.After;
    var own, u := DuelLasts(s, usd, schedule);
  }

  lemma OthersOfTwo(s: Stage, i: nat)
    requires |s.steps| == 2 && i < 2
    ensures s.Others(i) == CapOf(s.steps[1 - i])
  {
    hide CapOf, Total;
    var a, b := CapOf(s.steps[0]), CapOf(s.steps[1]);
    assert s.Caps() == [] + [a] + [b];
    TotalOfMore([], a);
    TotalOfMore([] + [a], b);
    TotalOfNothing([]);
  }

  lemma RivalBooks(s: Stage, usd: real, i: nat)
    requires Callers(s, usd) && |s.steps| == 2 && i < 2
    ensures s.Others(i) == Ledger(2.0 * usd, 2.0 * usd, 2.0 * usd)
  {
    hide Proper, Charge, Cost, Total, s.Others;
    CostOfTwoCalls(usd);
    OthersOfTwo(s, i);
  }

  lemma CallOfTwo(s: Stage, usd: real, b: nat, k: nat, a: nat)
    requires Callers(s, usd) && Plenty(s, usd) && |s.steps| == 2 && Asks(s, b, k) && IsAgent(s, a)
    ensures (k == 1 || k == 3) && (CallFits(s, b, k, a) <==> k == 1 || s.steps[a].ceiling >= 4.0 * usd)
  {
    hide Proper, Charge, Cost, s.Others;
    CostOfTwoCalls(usd);
    RivalBooks(s, usd, b);
    assert s.steps[b].beats == TwoCalls(usd);
  }

  lemma TwoFitExactly(s: Stage, usd: real)
    requires Callers(s, usd) && Plenty(s, usd) && |s.steps| == 2
    ensures Fits(s) <==> s.steps[0].ceiling >= 4.0 * usd && s.steps[1].ceiling >= 4.0 * usd
  {
    hide Proper, CallFits, s.Others;
    RivalBooks(s, usd, 0);
    RivalBooks(s, usd, 1);
    assert Asks(s, 0, 3) && IsAgent(s, 0) && IsAgent(s, 1);
    hide Asks, IsAgent;
    forall b: nat, k: nat, a: nat | Asks(s, b, k) && IsAgent(s, a)
      ensures a < 2 && (CallFits(s, b, k, a) <==> k == 1 || s.steps[a].ceiling >= 4.0 * usd)
    {
      AgentsAreSteps(s, a);
      CallOfTwo(s, usd, b, k, a);
    }
  }

  lemma AgentsAreSteps(s: Stage, a: nat)
    requires IsAgent(s, a)
    ensures a < |s.steps|
  {
  }

  /** Two agents with one retry and money enough. The order does not show at all if and
      only if either ceiling leaves room for the calls of both. It shows in how a step ends
      if and only if one ceiling has no room for three; in between, the retry saves both
      and only the spend tells. */
  lemma TwoAgentsShareOneGuard(s: Stage, usd: real)
    requires Callers(s, usd) && Plenty(s, usd) && |s.steps| == 2
    ensures Agreed(s) <==> s.steps[0].ceiling >= 4.0 * usd && s.steps[1].ceiling >= 4.0 * usd
    ensures (forall schedule :: s.Complete(schedule) ==> AsExpected(s, s.After(schedule))) <==>
            s.steps[0].ceiling >= 3.0 * usd && s.steps[1].ceiling >= 3.0 * usd
  {
    hide Fits, Agreed, AllAsExpected, Proper, RetriesCost, Plenty, AsExpected;
    TwoFitExactly(s, usd);
    RetriesAreCharged(s, usd);
    OrderIsInvisibleExactly(s);
    TwoEndExactly(s, usd);
  }

  lemma TwoEndExactly(s: Stage, usd: real)
    requires Callers(s, usd) && Plenty(s, usd) && |s.steps| == 2
    ensures (forall schedule :: s.Complete(schedule) ==> AsExpected(s, s.After(schedule))) <==>
            s.steps[0].ceiling >= 3.0 * usd && s.steps[1].ceiling >= 3.0 * usd
  {
    hide Agreed, Plenty, s.After, Callers;
    Positive(s, usd);
    if v: nat :| v < 2 && s.steps[v].ceiling < 3.0 * usd {
      var schedule := OneCanStarve(s, usd, v);
      assert !AsExpected(s, s.After(schedule));
    } else {
      hide AsExpected;
      assert s.steps[0].ceiling >= 3.0 * usd && s.steps[1].ceiling >= 3.0 * usd;
      forall schedule | s.Complete(schedule)
        ensures AsExpected(s, s.After(schedule))
      {
        BothRecover(s, usd, schedule);
      }
    }
  }

  lemma RetriesAreCharged(s: Stage, usd: real)
    requires Callers(s, usd)
    ensures Proper(s) && RetriesCost(s)
  {
    CostOfTwoCalls(usd);
    hide Cost, Charge;
  }

  // ---------- the weekly growth cycle ----------

  /** The third wave of the weekly growth cycle: three agents under the ceilings of their
      profiles, with the default retry and the gap the resolver notes after it; two model
      calls of a dollar each, and ten dollars for the mission. */
  function GrowthCycle(answer: Value, gap: Value, board: Board): Stage {
    var refused := Outcome(E.Degraded, Some(gap));
    Stage([Agent("regression_check", 3.0, 1, TwoCalls(1.0), answer, refused),
           Agent("technical", 3.0, 1, TwoCalls(1.0), answer, refused),
           Agent("content_pipeline", 3.5, 1, TwoCalls(1.0), answer, refused)], 10.0, board, Money(0.0, 100.0, None))
  }

  /** Each agent costs two dollars and is allowed three, the mission costs six and is
      allowed ten: still, on some complete schedule the regression check only notes a gap. */
  lemma GrowthCycleDependsOnOrder(answer: Value, gap: Value, board: Board) returns (schedule: Schedule)
    ensures var s := GrowthCycle(answer, gap, board);
            && Callers(s, 1.0) && Total(s.Caps()).spent == 6.0 < s.limit && !Agreed(s)
            && s.Complete(schedule) && s.After(schedule).states[0] == Over(Outcome(E.Degraded, Some(gap)))
  {
    var s := GrowthCycle(answer, gap, board);
    CostOfTwoCalls(1.0);
    var cap := Ledger(2.0, 2.0, 2.0);
    assert s.Caps() == [cap, cap, cap];
    ThreeTimes(cap);
    forall i | 0 <= i < 3
      ensures FinishesAlone(s.steps[i], 100.0)
    {
    }
    hide FinishesAlone, Agreed, s.After;
    schedule := OneCanStarve(s, 1.0, 0);
  }

  lemma ThreeTimes(cap: Ledger)
    ensures Total([cap, cap, cap]) == Ledger(3.0 * cap.spent, 3.0 * cap.charged, 3.0 * cap.drawn)
  {
    hide Total;
    assert [cap, cap, cap] == [] + [cap] + [cap] + [cap];
    TotalOfNothing([]);
    TotalOfMore([], cap);
    TotalOfMore([] + [cap], cap);
    TotalOfMore([] + [cap] + [cap], cap);
  }

  // ---------- retries that cost nothing ----------

  /** An agent whose first call is free. */
  const FREE_FIRST := [DISPATCH, Ask(0.0, 0.0), UseTool(0.0), Ask(1.0, 1.0)]

  /** Two such agents under ceilings that have room for one paid call. */
  function FreeWave(answer: Value, refused: Outcome, board: Board): Stage {
    Stage([Agent("a", 1.0, 1, FREE_FIRST, answer, refused), Agent("b", 1.0, 1, FREE_FIRST, answer, refused)],
          10.0, board, Money(0.0, 100.0, None))
  }

  lemma CostOfFreeFirst()
    ensures WellCosted(Agent("", 1.0, 1, FREE_FIRST, "", SKIPPED))
    ensures forall k :: 0 <= k <= 3 ==> Charge(FREE_FIRST[..k]) == 0.0 == Cost(FREE_FIRST[..k])
    ensures Charge(FREE_FIRST) == Cost(FREE_FIRST) == 1.0
  {
    var beats := FREE_FIRST;
    assert beats[..0] == [] && beats[..3 + 1] == beats;
    CostOfPrefix(beats, 0);
    CostOfPrefix(beats, 1);
    CostOfPrefix(beats, 2);
    CostOfPrefix(beats, 3);
    hide Charge, Cost;
  }

  function FreePlace(step: Step, attempt: nat, k: nat, m: Money): TaskState<Place> {
    if k == 3 && m.slot.Some? && !m.slot.value.Passes(1.0) then Stopped(step, attempt, 3) else Onward(step, attempt, k)
  }

  function FreeMoney(k: nat, m: Money): Money {
    if k == 1 then m.(slot := Some(Guard(1.0, m.orgRemaining, 0.0)))
    else if k == 4 then
      Paying(if m.slot.Some? then m.(slot := Some(m.slot.value.Charged(1.0))) else m, 1.0)
    else m
  }

  lemma FreeRuns(step: Step, attempt: nat, k: nat, m: Money)
    requires step.Agent? && step.beats == FREE_FIRST && step.ceiling == 1.0 && k <= 4
    requires m.spent < 10.0 && m.orgRemaining >= 0.0
    ensures Exec(Stretch(step, attempt, k), 10.0, m) == (FreePlace(step, attempt, k, m), FreeMoney(k, m))
  {
    CostOfFreeFirst();
    hide Exec, Stretch, Charge, Cost;
    StretchRuns(step, attempt, k, 10.0, m);
    if m.slot.Some? {
      assert m.slot.value.Charged(0.0) == m.slot.value && m.(slot := Some(m.slot.value)) == m;
    }
    assert Paying(m, 0.0) == m;
  }

  /** Where one of them can be: it tries again only after the other is over. */
  ghost predicate Freely(step: Step, state: TaskState<Place>, rival: TaskState<Place>, slot: Option<Guard>) {
    match state
    case Over(outcome) => outcome == Expected(step)
    case Running(place) =>
      && place.attempt <= 1 && place.beat <= 4 && (place.attempt == 1 ==> place.beat >= 1 && rival.Over?)
      && (place.beat >= 2 ==>
            && slot.Some? && slot.value.limit == 1.0 && slot.value.orgRemaining >= 50.0 - slot.value.spent
            && (slot.value.spent == 0.0 || (place.attempt == 0 && rival.Over?)))
  }

  function Ends(state: TaskState<Place>): real {
    if state.Over? then 1.0 else 0.0
  }

  function Written(board: Board, answer: Value, a: TaskState<Place>, b: TaskState<Place>): Board {
    var first := if a.Over? then board["a" := answer] else board;
    if b.Over? then first["b" := answer] else first
  }

  ghost predicate FreeRun(s: Stage, c: Config<Place>)
    requires |s.steps| == |c.states| == 2 && s.steps[0].Agent?
  {
    var a, b := c.states[0], c.states[1];
    && Freely(s.steps[0], a, b, c.money.slot) && Freely(s.steps[1], b, a, c.money.slot)
    && c.money.spent == Ends(a) + Ends(b) && c.money.orgRemaining == 100.0 - Ends(a) - Ends(b)
    && c.board == Written(s.board, s.steps[0].answer, a, b)
  }

  lemma FreeMoves(step: Step, place: Place, rival: TaskState<Place>, other: Step, m: Money)
    requires step.Agent? && step.beats == FREE_FIRST && step.ceiling == 1.0 && step.retries == 1 && m.spent < 10.0 && m.orgRemaining >= 50.0
    requires Freely(step, Running(place), rival, m.slot) && Freely(other, rival, Running(place), m.slot)
    ensures var (state, money) := Exec(Stretch(step, place.attempt, place.beat), 10.0, m);
            && Freely(step, state, rival, money.slot) && Freely(other, rival, state, money.slot)
            && money.spent == m.spent + Ends(state) && money.orgRemaining == m.orgRemaining - Ends(state)
  {
    FreeRuns(step, place.attempt, place.beat, m);
    hide Exec, Stretch;
  }

  lemma FreeResumes(s: Stage, c: Config<Place>, i: nat)
    requires exists answer, refused, board :: s == FreeWave(answer, refused, board)
    requires i < |s.steps| == |c.states| && FreeRun(s, c)
    ensures |Resume(s.Tasks(), s.limit, c, i).states| == |s.steps| && FreeRun(s, Resume(s.Tasks(), s.limit, c, i))
  {
    if c.states[i].Running? {
      FreeMoves(s.steps[i], c.states[i].local, c.states[1 - i], s.steps[1 - i], c.money);
      hide Exec, Stretch, Freely;
      var state := Exec(Stretch(s.steps[i], c.states[i].local.attempt, c.states[i].local.beat), s.limit, c.money).0;
      FreelyOver(s.steps[i], state, c.states[1 - i], Exec(Stretch(s.steps[i], c.states[i].local.attempt, c.states[i].local.beat), s.limit, c.money).1.slot);
      WriteInOrder(s.board, s.steps[0].answer);
    }
  }

  lemma FreelyOver(step: Step, state: TaskState<Place>, rival: TaskState<Place>, slot: Option<Guard>)
    requires Freely(step, state, rival, slot) && step.Agent?
    ensures state.Over? ==> state.outcome.stored == Some(step.answer)
  {
  }

  lemma WriteInOrder(board: Board, answer: Value)
    ensures board["a" := answer]["b" := answer] == board["b" := answer]["a" := answer]
  {
    assert "a"[0] == 'a' && "b"[0] == 'b';
  }

  lemma {:induction false} FreeSchedules(s: Stage, schedule: Schedule)
    requires exists answer, refused, board :: s == FreeWave(answer, refused, board)
    requires ScheduleFor(schedule, 2)
    ensures FreeRun(s, s.After(schedule))
  {
    if schedule.Then? {
      FreeSchedules(s, schedule.before);
      FreeResumes(s, s.After(schedule.before), schedule.task);
    }
  }

  lemma FreeIsProper(answer: Value, refused: Outcome, board: Board)
    requires refused.status != E.Succeeded
    ensures var s := FreeWave(answer, refused, board); Proper(s) && !RetriesCost(s)
  {
    var s := FreeWave(answer, refused, board);
    CostOfFreeFirst();
    assert FREE_FIRST[..2] == s.steps[0].beats[..2] && IsAgent(s, 0);
    assert "a"[0] == 'a' && "b"[0] == 'b';
    hide Charge, Cost;
    forall i | 0 <= i < 2
      ensures FinishesAlone(s.steps[i], 100.0)
    {
    }
    hide FinishesAlone;
  }

  lemma FreeDoesNotFit(answer: Value, refused: Outcome, board: Board)
    ensures !Fits(FreeWave(answer, refused, board))
  {
    var s := FreeWave(answer, refused, board);
    CostOfFreeFirst();
    hide Charge, Cost, s.Others;
    OthersOfTwo(s, 0);
    assert Asks(s, 0, 3) && IsAgent(s, 0) && !CallFits(s, 0, 3, 0);
  }

  lemma FreeAgrees(answer: Value, refused: Outcome, board: Board)
    ensures Agreed(FreeWave(answer, refused, board))
  {
    var s := FreeWave(answer, refused, board);
    hide s.After;
    forall one, other | s.Complete(one) && s.Complete(other)
      ensures SameOutcome(s.After(one), s.After(other))
    {
      FreeSchedules(s, one);
      FreeSchedules(s, other);
    }
  }

  /** That a retried attempt costs something is needed: in this wave a call does not fit,
      but the retry always succeeds and leaves no trace, so all schedules agree. */
  lemma FreeRetriesLeaveNoTrace(answer: Value, refused: Outcome, board: Board)
    requires refused.status != E.Succeeded
    ensures var s := FreeWave(answer, refused, board); Proper(s) && !RetriesCost(s) && Agreed(s) && !Fits(s)
  {
    hide *;
    FreeIsProper(answer, refused, board);
    FreeDoesNotFit(answer, refused, board);
    FreeAgrees(answer, refused, board);
  }
}

/** What one session of a mission does, told from its steps and the world alone: where it
    stops, how each of its steps ends, and which outputs it leaves. */
module SessionResults {
  import opened Common
  import opened MissionSpec
  import opened MissionEngine
  import opened RunVerdict
  import R = Resolver

  // ---------- where a session stops ----------

  /** Nothing keeps wave `v` from running to its end. */
  ghost predicate RunsThrough(session: Session, v: nat) {
    !session.pastDeadline(v) && !session.overBudget(v) && session.interruption(v).RunsOn?
  }

  /** The session has the result of a required step that failed and stops the mission. */
  ghost predicate StoppingResult(wave: seq<Step>, results: seq<StepResult>) {
    exists s, r :: s in wave && r in results && r.step == s.id
                   && r.status == Failed && s.onError == Fail && !s.optional
  }

  /** Why a session that had `j` waves completed in the end went no further. */
  ghost predicate EndsAfter(waves: seq<seq<Step>>, j: nat, session: Session, e: Ending) {
    if e.reachedEnd then j == |waves|
    else
      match e.status
      case RunFailed => true
      case RunPartial => j < |waves| && (session.pastDeadline(j) || session.overBudget(j))
      case RunCancelled => j < |waves| && !session.pastDeadline(j) && !session.overBudget(j) && session.interruption(j).IsCancelled?
      case Running => j < |waves| && !session.pastDeadline(j) && !session.overBudget(j) && session.interruption(j).Dies?
      case RunSucceeded => false
  }

  /** A session that found `k` waves completed runs the next ones in order, up to the first
      that meets the deadline, the budget's end or an interruption, or up to and including
      the first with a stopping result, or to the end. */
  ghost predicate StopsRight(waves: seq<seq<Step>>, k: nat, session: Session, e: Ending) {
    exists j: nat ::
      && k <= j && WavePrefix(waves, e.saved.completed, j)
      && (forall v: nat :: k <= v < j ==> RunsThrough(session, v))
      && (forall v: nat :: v < |waves| && StoppingResult(waves[v], e.results) ==> v + 1 == j && k < j)
      && (!e.reachedEnd && e.status == RunFailed <==> exists v: nat :: v < |waves| && StoppingResult(waves[v], e.results))
      && EndsAfter(waves, j, session, e)
  }

  ghost predicate NoneStops(waves: seq<seq<Step>>, results: seq<StepResult>) {
    forall v: nat :: v < |waves| ==> !StoppingResult(waves[v], results)
  }

  lemma FatalMeansStopping(waves: seq<seq<Step>>, j: nat, results: seq<StepResult>, more: seq<StepResult>)
    requires j < |waves| && |more| == |waves[j]| && forall i :: 0 <= i < |more| ==> more[i].step == waves[j][i].id
    requires NoneStops(waves, results) && DistinctAcross(waves)
    ensures forall v: nat :: v < |waves| && StoppingResult(waves[v], results + more) ==> v == j
    ensures StoppingResult(waves[j], results + more) <==> AnyFatal(waves[j], more)
  {
    forall v: nat | v < |waves| && StoppingResult(waves[v], results + more)
      ensures v == j && AnyFatal(waves[j], more)
    {
      var s, r :| s in waves[v] && r in results + more && r.step == s.id && r.status == Failed && s.onError == Fail && !s.optional;
      assert !StoppingResult(waves[v], results);
      var i :| 0 <= i < |more| && more[i] == r;
      assert waves[j][i] in waves[j] && waves[j][i].id == s.id;
    }
    if i :| 0 <= i < |waves[j]| && Fatal(waves[j][i], more[i]) {
      assert waves[j][i] in waves[j] && more[i] in results + more;
    }
  }

  /** A step id stands in one wave and for one step only. */
  ghost predicate DistinctAcross(waves: seq<seq<Step>>) {
    forall v: nat, w: nat, s, t :: v < |waves| && w < |waves| && s in waves[v] && t in waves[w] && s.id == t.id ==> v == w && s == t
  }

  lemma WavesAreDistinct(steps: seq<Step>, waves: seq<seq<Step>>)
    requires UniqueIds(steps) && IsExecutionOrder(steps, waves)
    ensures DistinctAcross(waves)
  {
    hide UniqueIds, IsExecutionOrder;
    forall v: nat, w: nat, s, t | v < |waves| && w < |waves| && s in waves[v] && t in waves[w] && s.id == t.id
      ensures v == w && s == t
    {
      OneWaveEach(steps, waves, v, w, s, t);
    }
  }

  lemma OneWaveEach(steps: seq<Step>, waves: seq<seq<Step>>, v: nat, w: nat, s: Step, t: Step)
    requires UniqueIds(steps) && IsExecutionOrder(steps, waves)
    requires v < |waves| && w < |waves| && s in waves[v] && t in waves[w] && s.id == t.id
    ensures v == w && s == t
  {
    hide UniqueIds, NeedsEarlier, StandsAt, Flatten;
    FlattenHolds(waves);
    SameElements(Flatten(waves), steps);
    SameIdSameStep(steps, s, t);
    assert StandsAt(steps, s, v) && StandsAt(steps, t, w);
    if v != w {
      StandOnce(steps, s, v, w);
    }
  }

  lemma StandOnce(steps: seq<Step>, s: Step, v: nat, w: nat)
    requires StandsAt(steps, s, v) && StandsAt(steps, s, w)
    ensures v == w
  {
    if v != w {
      DepthsDiffer(steps, s.id, v + 1, s.id, w + 1);
    }
  }

  lemma {:induction false} SessionStops(steps: seq<Step>, waves: seq<seq<Step>>, w: nat, k: nat, j: nat, saved: Saved,
                                        results: seq<StepResult>, session: Session)
    requires IsExecutionOrder(steps, waves) && DistinctAcross(waves) && w <= j && k <= j && w <= |waves|
    requires WavePrefix(waves, saved.completed, j) && NoneStops(waves, results)
    requires forall v: nat :: k <= v < j ==> RunsThrough(session, v)
    ensures StopsRight(waves, k, session, SessionFrom(waves, w, saved, results, session))
    decreases |waves| - w
  {
    hide DistinctAcross, StoppingResult, EffectOf, IsExecutionOrder, Flatten, AnyFatal, WavePrefix, Without, StopsRight, SessionFrom;
    if w < |waves| {
      PendingIsAllOrNothing(steps, waves, saved.completed, j, w);
      if w < j {
        SessionSkips(waves, w, saved, results, session);
        SessionStops(steps, waves, w + 1, k, j, saved, results, session);
      } else {
        OpenWave(steps, waves, w, k, saved, results, session);
        if RunsThrough(session, w) {
          var e := EffectOf(waves[w], session.worlds, saved.outputs, saved.memory);
          var after := Saved(saved.completed + Ids(waves[w]), e.outputs, e.memory);
          if !AnyFatal(waves[w], e.results) {
            SessionStops(steps, waves, w + 1, k, j + 1, after, results + e.results, session);
          }
        }
      }
    } else {
      Finished(waves, k, j, saved, results, session);
    }
  }

  lemma Finished(waves: seq<seq<Step>>, k: nat, j: nat, saved: Saved, results: seq<StepResult>, session: Session)
    requires k <= j && |waves| <= j && WavePrefix(waves, saved.completed, j) && NoneStops(waves, results)
    requires forall v: nat :: k <= v < j ==> RunsThrough(session, v)
    ensures StopsRight(waves, k, session, SessionFrom(waves, |waves|, saved, results, session))
  {
    hide StoppingResult, Flatten;
    var e := SessionFrom(waves, |waves|, saved, results, session);
    assert k <= j && WavePrefix(waves, e.saved.completed, j) && EndsAfter(waves, j, session, e);
  }

  /** The first wave that is not completed: the session ends there, or runs it. */
  lemma OpenWave(steps: seq<Step>, waves: seq<seq<Step>>, w: nat, k: nat, saved: Saved, results: seq<StepResult>, session: Session)
    requires IsExecutionOrder(steps, waves) && DistinctAcross(waves) && k <= w < |waves|
    requires WavePrefix(waves, saved.completed, w) && NoneStops(waves, results)
    requires forall v: nat :: k <= v < w ==> RunsThrough(session, v)
    ensures var e := EffectOf(waves[w], session.worlds, saved.outputs, saved.memory);
            var after := Saved(saved.completed + Ids(waves[w]), e.outputs, e.memory);
            var ending := SessionFrom(waves, w, saved, results, session);
            if !RunsThrough(session, w) || AnyFatal(waves[w], e.results) then StopsRight(waves, k, session, ending)
            else
              && WavePrefix(waves, after.completed, w + 1) && NoneStops(waves, results + e.results)
              && ending == SessionFrom(waves, w + 1, after, results + e.results, session)
  {
    hide DistinctAcross, StoppingResult, EffectOf, IsExecutionOrder, Flatten, AnyFatal, WavePrefix, Without;
    PendingIsAllOrNothing(steps, waves, saved.completed, w, w);
    EmptyWaveIsDone(steps, waves, w, w);
    NextWave(steps, waves, saved.completed, w);
    var e := EffectOf(waves[w], session.worlds, saved.outputs, saved.memory);
    EffectNames(waves[w], session.worlds, saved.outputs, saved.memory);
    FatalMeansStopping(waves, w, results, e.results);
    var ending := SessionFrom(waves, w, saved, results, session);
    if !RunsThrough(session, w) {
      assert k <= w && WavePrefix(waves, ending.saved.completed, w) && EndsAfter(waves, w, session, ending);
    } else if AnyFatal(waves[w], e.results) {
      assert k <= w + 1 && WavePrefix(waves, ending.saved.completed, w + 1) && EndsAfter(waves, w + 1, session, ending);
    }
  }

  /** Where any session stops, and why. */
  lemma SessionStopsRight(steps: seq<Step>, waves: seq<seq<Step>>, k: nat, saved: Saved, session: Session)
    requires UniqueIds(steps) && IsExecutionOrder(steps, waves) && WavePrefix(waves, saved.completed, k)
    ensures StopsRight(waves, k, session, SessionFrom(waves, 0, saved, [], session))
  {
    WavesAreDistinct(steps, waves);
    SessionStops(steps, waves, 0, k, k, saved, [], session);
  }

  // ---------- how its steps end, and what they leave ----------

  /** The status a step's definition and its world ask for. */
  ghost predicate StatusRight(step: Step, world: StepWorld, status: StepStatus) {
    var runs := world.conditionParses && world.conditionHolds && world.budgetLeft;
    var never := runs && NeverAnswers(step, world);
    && (status == Succeeded <==> runs && exists k: nat :: AnswersAt(step, world, k) && world.dispatch(k).Done?)
    && (status == Skipped <==>
          || (world.conditionParses && !runs)
          || (never && step.onError != Resolve && (step.optional || step.onError == Continue)))
    && (status == Degraded ==> never && step.onError == Resolve)
    && (never && step.onError == Resolve ==> status == Degraded || (status == Failed && world.smallerScope.Refuses?))
    && status != Resolved
  }

  /** The output a step leaves: its dispatch's value, or what the resolver put in its place. */
  ghost predicate ValueRight(step: Step, world: StepWorld, status: StepStatus, outputs: map<string, string>) {
    var key := if step.stores.Some? && step.stores.value != "" then step.stores.value else step.id;
    && (status == Succeeded ==>
          forall k: nat {:trigger world.dispatch(k)} :: AnswersAt(step, world, k) ==>
            key in outputs && world.dispatch(k) == Done(outputs[key]))
    && (status == Degraded ==>
          key in outputs && (outputs[key] == "unavailable" || world.smallerScope == R.Yields(outputs[key])))
  }

  /** No other step of the mission that writes the same output comes after position `i`
      of the session's results, or is still to come. */
  ghost predicate WritesLast(steps: seq<Step>, before: set<string>, results: seq<StepResult>, i: nat, s: Step)
    requires i < |results|
  {
    forall t :: t in steps && t.id != s.id && t.OutputKey() == s.OutputKey() ==>
      t.id in before || exists j :: 0 <= j < i && results[j].step == t.id
  }

  ghost predicate ResultsRight(steps: seq<Step>, before: set<string>, results: seq<StepResult>, worlds: string -> StepWorld,
                               outputs: map<string, string>) {
    forall i, s {:trigger results[i], s in steps} :: 0 <= i < |results| && s in steps && s.id == results[i].step ==>
      && StatusRight(s, worlds(s.id), results[i].status)
      && (WritesLast(steps, before, results, i, s) ==> ValueRight(s, worlds(s.id), results[i].status, outputs))
  }

  lemma EffectIsRight(step: Step, world: StepWorld, outputs: map<string, string>, memory: map<string, R.Record>)
    requires GapAlive(memory)
    ensures var e := StepEffect(step, world, outputs, memory);
            && StatusRight(step, world, Settled(step, e.result).status)
            && ValueRight(step, world, Settled(step, e.result).status, e.outputs)
            && Settled(step, e.result).step == step.id && GapAlive(e.memory)
            && (forall key :: key != step.OutputKey() ==> (key in e.outputs <==> key in outputs) && (key in outputs ==> e.outputs[key] == outputs[key]))
  {
    hide MissionEngine.Retry, ResolverEffect, GapAlive, AnswersAt, NeverAnswers;
    StepEndsRight(step, world, outputs, memory);
    EveryStepKeeps(step, world, outputs, memory);
    AnswersOrNever(step, world);
    RetryTells(step, world);
    if ReachesResolver(step, world) {
      ResolverNeverGivesUp(step, world, outputs, memory);
    }
  }

  lemma RetryTells(step: Step, world: StepWorld)
    ensures MissionEngine.Retry(world.dispatch, 0, step.retries).Failing? <==> NeverAnswers(step, world)
    ensures forall k: nat :: AnswersAt(step, world, k) ==> MissionEngine.Retry(world.dispatch, 0, step.retries) == world.dispatch(k)
  {
    RetryIsFirstAnswer(world.dispatch, 0, step.retries);
    forall k: nat | AnswersAt(step, world, k)
      ensures MissionEngine.Retry(world.dispatch, 0, step.retries) == world.dispatch(k)
    {
      RetryStopsThere(world.dispatch, 0, step.retries, k);
    }
  }

  lemma AnswersOrNever(step: Step, world: StepWorld)
    ensures NeverAnswers(step, world) <==> !exists k: nat :: AnswersAt(step, world, k)
  {
    if k: nat :| AnswersAt(step, world, k) {
      assert !world.dispatch(k).Failing?;
    }
    if !NeverAnswers(step, world) {
      var k := FirstAnswering(step, world);
    }
  }

  lemma FirstAnswering(step: Step, world: StepWorld) returns (k: nat)
    requires !NeverAnswers(step, world)
    ensures AnswersAt(step, world, k)
  {
    var m: nat :| 1 <= m <= step.retries + 1 && !world.dispatch(m).Failing?;
    k := Search(step, world, 1, m);
  }

  lemma {:induction false} Search(step: Step, world: StepWorld, j: nat, m: nat) returns (k: nat)
    requires 1 <= j <= m <= step.retries + 1 && !world.dispatch(m).Failing?
    requires forall i: nat :: 1 <= i < j ==> world.dispatch(i).Failing?
    ensures AnswersAt(step, world, k)
    decreases m - j
  {
    if world.dispatch(j).Failing? {
      k := Search(step, world, j + 1, m);
    } else {
      k := j;
    }
  }

  lemma OneMoreRight(steps: seq<Step>, before: set<string>, results: seq<StepResult>, worlds: string -> StepWorld,
                     s: Step, outputs: map<string, string>, memory: map<string, R.Record>)
    requires ResultsRight(steps, before, results, worlds, outputs) && GapAlive(memory) && UniqueIds(steps)
    requires s in steps && s.id !in before && forall i :: 0 <= i < |results| ==> results[i].step != s.id
    ensures var e := StepEffect(s, worlds(s.id), outputs, memory);
            ResultsRight(steps, before, results + [Settled(s, e.result)], worlds, e.outputs)
  {
    hide StepEffect, StatusRight, GapAlive;
    EffectIsRight(s, worlds(s.id), outputs, memory);
    var e := StepEffect(s, worlds(s.id), outputs, memory);
    var longer := results + [Settled(s, e.result)];
    forall i, t | 0 <= i < |longer| && t in steps && t.id == longer[i].step
      ensures StatusRight(t, worlds(t.id), longer[i].status)
      ensures WritesLast(steps, before, longer, i, t) ==> ValueRight(t, worlds(t.id), longer[i].status, e.outputs)
    {
      if i == |results| {
        SameIdSameStep(steps, s, t);
      } else {
        assert longer[i] == results[i];
        if WritesLast(steps, before, longer, i, t) {
          assert WritesLast(steps, before, results, i, t);
          assert t.OutputKey() != s.OutputKey();
          SameValue(t, worlds(t.id), longer[i].status, outputs, e.outputs);
        }
      }
    }
  }

  lemma SameValue(t: Step, world: StepWorld, status: StepStatus, outputs: map<string, string>, after: map<string, string>)
    requires ValueRight(t, world, status, outputs)
    requires var key := t.OutputKey(); (key in after <==> key in outputs) && (key in outputs ==> after[key] == outputs[key])
    ensures ValueRight(t, world, status, after)
  {
    var key := t.OutputKey();
    if status == Succeeded {
      forall k: nat | AnswersAt(t, world, k)
        ensures key in after && world.dispatch(k) == Done(after[key])
      {
        assert key in outputs && world.dispatch(k) == Done(outputs[key]);
      }
    }
  }

  lemma {:induction false} WaveRight(steps: seq<Step>, before: set<string>, results: seq<StepResult>, worlds: string -> StepWorld,
                                     pending: seq<Step>, outputs: map<string, string>, memory: map<string, R.Record>)
    requires UniqueIds(steps) && UniqueIds(pending) && GapAlive(memory) && ResultsRight(steps, before, results, worlds, outputs)
    requires forall s :: s in pending ==> s in steps && s.id !in before && forall i :: 0 <= i < |results| ==> results[i].step != s.id
    ensures var e := EffectOf(pending, worlds, outputs, memory);
            ResultsRight(steps, before, results + e.results, worlds, e.outputs) && GapAlive(e.memory)
  {
    hide ResultsRight, GapAlive, StepEffect, UniqueIds, ResultsFor;
    WaveKeeps(pending, worlds, outputs, memory);
    if pending == [] {
      assert results + [] == results;
    } else {
      var n := |pending| - 1;
      var front, s := pending[..n], pending[n];
      FrontIsFresh(pending);
      WaveRight(steps, before, results, worlds, front, outputs, memory);
      WaveKeeps(front, worlds, outputs, memory);
      EffectNames(front, worlds, outputs, memory);
      var e := EffectOf(front, worlds, outputs, memory);
      var last := StepEffect(s, worlds(s.id), e.outputs, e.memory);
      OneMoreRight(steps, before, results + e.results, worlds, s, e.outputs, e.memory);
      assert results + (e.results + [Settled(s, last.result)]) == results + e.results + [Settled(s, last.result)];
    }
  }

  lemma FrontIsFresh(pending: seq<Step>)
    requires pending != [] && UniqueIds(pending)
    ensures var front, s := pending[..|pending| - 1], pending[|pending| - 1];
            && UniqueIds(front) && s in pending && (forall t :: t in front ==> t in pending)
            && (forall t :: t in front ==> t.id != s.id)
            && forall i :: 0 <= i < |front| ==> pending[i] == front[i] && front[i].id != s.id
  {
  }

  /** Leaving out the last results leaves the others right. */
  lemma FewerRight(steps: seq<Step>, before: set<string>, results: seq<StepResult>, more: seq<StepResult>,
                   worlds: string -> StepWorld, outputs: map<string, string>)
    requires ResultsRight(steps, before, results + more, worlds, outputs)
    ensures ResultsRight(steps, before, results, worlds, outputs)
  {
    hide StatusRight, ValueRight;
    forall i, s | 0 <= i < |results| && s in steps && s.id == results[i].step
      ensures StatusRight(s, worlds(s.id), results[i].status)
      ensures WritesLast(steps, before, results, i, s) ==> ValueRight(s, worlds(s.id), results[i].status, outputs)
    {
      assert (results + more)[i] == results[i];
      if WritesLast(steps, before, results, i, s) {
        assert forall j :: 0 <= j < i ==> (results + more)[j] == results[j];
        assert WritesLast(steps, before, results + more, i, s);
      }
    }
  }

  /** The results so far belong to steps completed in this session. */
  ghost predicate Ours(before: set<string>, saved: Saved, results: seq<StepResult>) {
    before <= saved.completed && forall i :: 0 <= i < |results| ==> results[i].step in saved.completed
  }

  lemma {:induction false} SessionFromIsRight(steps: seq<Step>, waves: seq<seq<Step>>, w: nat, before: set<string>, saved: Saved,
                                              results: seq<StepResult>, session: Session)
    requires UniqueIds(steps) && IsExecutionOrder(steps, waves) && w <= |waves| && GapAlive(saved.memory)
    requires Ours(before, saved, results) && ResultsRight(steps, before, results, session.worlds, saved.outputs)
    ensures var e := SessionFrom(waves, w, saved, results, session);
            ResultsRight(steps, before, e.results, session.worlds, e.saved.outputs)
    decreases |waves| - w
  {
    hide ResultsRight, UniqueIds, IsExecutionOrder, EffectOf, Without, AnyFatal, GapAlive, Ours;
    if w < |waves| {
      var pending := Without(waves[w], saved.completed);
      if pending == [] {
        SessionFromIsRight(steps, waves, w + 1, before, saved, results, session);
      } else {
        NextWaveIsRight(steps, waves, w, before, saved, results, session);
        var e := EffectOf(pending, session.worlds, saved.outputs, saved.memory);
        var after := Saved(saved.completed + Ids(pending), e.outputs, e.memory);
        SessionFromIsRight(steps, waves, w + 1, before, after, results + e.results, session);
      }
    }
  }

  lemma NextWaveIsRight(steps: seq<Step>, waves: seq<seq<Step>>, w: nat, before: set<string>, saved: Saved,
                        results: seq<StepResult>, session: Session)
    requires UniqueIds(steps) && IsExecutionOrder(steps, waves) && w < |waves| && GapAlive(saved.memory)
    requires Ours(before, saved, results) && ResultsRight(steps, before, results, session.worlds, saved.outputs)
    ensures var pending := Without(waves[w], saved.completed);
            var e := EffectOf(pending, session.worlds, saved.outputs, saved.memory);
            var cut := EffectOf(session.interruption(w).Ended(pending), session.worlds, saved.outputs, saved.memory);
            && ResultsRight(steps, before, results + e.results, session.worlds, e.outputs) && GapAlive(e.memory)
            && Ours(before, Saved(saved.completed + Ids(pending), e.outputs, e.memory), results + e.results)
            && ResultsRight(steps, before, results, session.worlds, cut.outputs)
  {
    hide ResultsRight, UniqueIds, EffectOf, Without, GapAlive, Flatten, Ids;
    var pending := Without(waves[w], saved.completed);
    PendingIsFresh(steps, waves, w, before, saved, results);
    var ended := session.interruption(w).Ended(pending);
    PartOfWave(session.interruption(w), pending);
    EndedIsUnique(session.interruption(w), pending);
    WaveRight(steps, before, results, session.worlds, pending, saved.outputs, saved.memory);
    WaveRight(steps, before, results, session.worlds, ended, saved.outputs, saved.memory);
    FewerRight(steps, before, results, EffectOf(ended, session.worlds, saved.outputs, saved.memory).results, session.worlds,
               EffectOf(ended, session.worlds, saved.outputs, saved.memory).outputs);
    EffectNames(pending, session.worlds, saved.outputs, saved.memory);
    StillOurs(before, saved, results, pending, EffectOf(pending, session.worlds, saved.outputs, saved.memory));
  }

  lemma StillOurs(before: set<string>, saved: Saved, results: seq<StepResult>, pending: seq<Step>, e: WaveEffect)
    requires Ours(before, saved, results) && |e.results| == |pending|
    requires forall i :: 0 <= i < |pending| ==> e.results[i].step == pending[i].id
    ensures Ours(before, Saved(saved.completed + Ids(pending), e.outputs, e.memory), results + e.results)
  {
    forall i | 0 <= i < |pending|
      ensures pending[i].id in Ids(pending)
    {
      assert pending[i] in pending;
    }
  }

  lemma PendingIsFresh(steps: seq<Step>, waves: seq<seq<Step>>, w: nat, before: set<string>, saved: Saved, results: seq<StepResult>)
    requires UniqueIds(steps) && IsExecutionOrder(steps, waves) && w < |waves| && Ours(before, saved, results)
    ensures var pending := Without(waves[w], saved.completed);
            && UniqueIds(pending)
            && forall s :: s in pending ==> s in steps && s.id !in before && forall i :: 0 <= i < |results| ==> results[i].step != s.id
  {
    hide UniqueIds, Flatten, NeedsEarlier, AtChainDepth;
    UniqueInWave(steps, waves, w);
    WithoutKeepsUnique(waves[w], saved.completed);
    WithoutMeaning(waves[w], saved.completed);
    FlattenHolds(waves);
    SameElements(Flatten(waves), steps);
  }

  lemma {:induction false} EndedIsUnique(interruption: Interruption, wave: seq<Step>)
    requires UniqueIds(wave)
    ensures UniqueIds(interruption.Ended(wave))
  {
    if wave != [] {
      var front := wave[..|wave| - 1];
      FrontIsFresh(wave);
      EndedIsUnique(interruption, front);
      PartOfWave(interruption, front);
      assert forall t :: t in interruption.Ended(front) ==> t in front && t.id != wave[|wave| - 1].id;
    }
  }

  /** Every result a session commits has the status its step's definition and world ask
      for, and the output a step leaves is saved as it left it, unless another step that
      writes the same output came later. */
  lemma SessionIsRight(steps: seq<Step>, waves: seq<seq<Step>>, saved: Saved, session: Session)
    requires UniqueIds(steps) && IsExecutionOrder(steps, waves) && GapAlive(saved.memory)
    ensures var e := SessionFrom(waves, 0, saved, [], session);
            ResultsRight(steps, saved.completed, e.results, session.worlds, e.saved.outputs)
  {
    SessionFromIsRight(steps, waves, 0, saved.completed, saved, [], session);
  }
}

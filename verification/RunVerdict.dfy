/** Any sequence of crashes, stops and resumes of one mission run, and what its final
    status says about it. */
module RunVerdict {
  import opened Common
  import opened MissionSpec
  import opened MissionEngine
  import R = Resolver

  /** A run after some sessions: the results earlier sessions committed, and how the
      last one left it. */
  datatype Tale = Tale(earlier: seq<StepResult>, last: Ending)
  {
    function Results(): seq<StepResult> {
      earlier + last.results
    }
  }

  const NEW_RUN := Saved({}, map[], map[])

  function Told(waves: seq<seq<Step>>, sessions: seq<Session>): Tale {
    if sessions == [] then Tale([], Ending(NEW_RUN, [], Running, false))
    else
      var before := Told(waves, sessions[..|sessions| - 1]);
      Tale(before.Results(), SessionFrom(waves, 0, before.last.saved, [], sessions[|sessions| - 1]))
  }

  predicate Troubled(r: StepResult) {
    r.status in {Failed, Degraded, Resolved}
  }

  /** Any sequence of sessions of one mission run, each dying, cancelled, stopped or
      finished as it may: every start in the whole history was allowed, the completed
      set is a prefix of waves, and reaching the end once covers every step for good. */
  method Relaunch(steps: seq<Step>, waves: seq<seq<Step>>, sessions: seq<Session>)
    returns (run: MissionRun, everReachedEnd: bool)
    requires UniqueIds(steps) && IsExecutionOrder(steps, waves)
    ensures fresh(run) && RunInvariant(steps, waves, run.saved, run.history)
    ensures everReachedEnd ==> run.saved.completed == Ids(steps)
    ensures var last := Told(waves, sessions).last; run.saved == last.saved && run.status == last.status
  {
    run := new MissionRun(steps);
    everReachedEnd := false;
    NewRunInvariant(steps, waves);
    for i := 0 to |sessions|
      invariant RunInvariant(steps, waves, run.saved, run.history)
      invariant everReachedEnd ==> run.saved.completed == Ids(steps)
      invariant var last := Told(waves, sessions[..i]).last; run.saved == last.saved && run.status == last.status
    {
      assert sessions[..i + 1][..i] == sessions[..i];
      CompletedAreSteps(steps, waves, run.saved, run.history);
      var results, reachedEnd := RunSession(steps, waves, run, sessions[i]);
      CompletedAreSteps(steps, waves, run.saved, run.history);
      everReachedEnd := everReachedEnd || reachedEnd;
    }
    assert sessions[..|sessions|] == sessions;
  }

  lemma NewRunInvariant(steps: seq<Step>, waves: seq<seq<Step>>)
    ensures RunInvariant(steps, waves, Saved({}, map[], map[]), [])
  {
    assert WavePrefix(waves, {}, 0);
  }

  lemma CompletedAreSteps(steps: seq<Step>, waves: seq<seq<Step>>, saved: Saved, history: seq<Event>)
    requires IsExecutionOrder(steps, waves) && RunInvariant(steps, waves, saved, history)
    ensures saved.completed <= Ids(steps)
  {
    hide GapAlive, SafeHistory;
    var k: nat :| WavePrefix(waves, saved.completed, k);
    SameElements(Flatten(waves), steps);
    FlattenHolds(waves);
    FlattenHolds(waves[..k]);
    forall id | id in saved.completed
      ensures id in Ids(steps)
    {
      var s :| s in Flatten(waves[..k]) && s.id == id;
      var w :| 0 <= w < k && s in waves[..k][w];
      assert s in waves[w];
    }
  }

  // ---------- one result for each step ----------

  /** The results are those of the completed steps, one for each. */
  ghost predicate OneEach(results: seq<StepResult>, completed: set<string>) {
    && (forall i, j :: 0 <= i < j < |results| ==> results[i].step != results[j].step)
    && StepsOf(results) == completed
  }

  lemma {:induction false} EffectNames(pending: seq<Step>, worlds: string -> StepWorld, outputs: map<string, string>,
                                       memory: map<string, R.Record>)
    ensures var e := EffectOf(pending, worlds, outputs, memory);
            forall i :: 0 <= i < |pending| ==> e.results[i].step == pending[i].id
  {
    if pending != [] {
      EffectNames(pending[..|pending| - 1], worlds, outputs, memory);
    }
  }

  lemma {:induction false} WithoutKeepsUnique(wave: seq<Step>, ids: set<string>)
    requires UniqueIds(wave)
    ensures UniqueIds(Without(wave, ids))
  {
    if wave != [] {
      var rest := wave[1..];
      assert forall i :: 0 <= i < |rest| ==> rest[i] == wave[i + 1];
      WithoutKeepsUnique(rest, ids);
      WithoutMeaning(rest, ids);
    }
  }

  lemma {:induction false} WaveWithinFlat(waves: seq<seq<Step>>, w: nat)
    requires w < |waves|
    ensures multiset(waves[w]) <= multiset(Flatten(waves))
  {
    var last := |waves| - 1;
    if w < last {
      WaveWithinFlat(waves[..last], w);
    }
  }

  lemma UniqueInWave(steps: seq<Step>, waves: seq<seq<Step>>, w: nat)
    requires UniqueIds(steps) && multiset(Flatten(waves)) == multiset(steps) && w < |waves|
    ensures UniqueIds(waves[w])
  {
    WaveWithinFlat(waves, w);
    UniqueInPart(steps, waves[w]);
  }

  lemma UniqueInPart(steps: seq<Step>, part: seq<Step>)
    requires UniqueIds(steps) && multiset(part) <= multiset(steps)
    ensures UniqueIds(part)
  {
    forall i: nat, j: nat | i < j < |part|
      ensures part[i].id != part[j].id
    {
      assert part[i] in multiset(part) && part[j] in multiset(part);
      if part[i].id == part[j].id {
        SameIdSameStep(steps, part[i], part[j]);
        TwiceAmong(part, i, j);
        OnceAmong(steps, part[i]);
      }
    }
  }

  lemma SameIdSameStep(steps: seq<Step>, a: Step, b: Step)
    requires UniqueIds(steps) && a in steps && b in steps && a.id == b.id
    ensures a == b
  {
  }

  lemma TwiceAmong(wave: seq<Step>, i: nat, j: nat)
    requires i < j < |wave| && wave[i] == wave[j]
    ensures multiset(wave)[wave[i]] >= 2
  {
    assert wave == wave[..i] + [wave[i]] + wave[i + 1..j] + [wave[j]] + wave[j + 1..];
  }

  lemma OnceAmong(steps: seq<Step>, s: Step)
    requires UniqueIds(steps) && s in steps
    ensures multiset(steps)[s] == 1
  {
    var i :| 0 <= i < |steps| && steps[i] == s;
    assert steps == steps[..i] + [s] + steps[i + 1..];
    assert s !in steps[..i] && s !in steps[i + 1..];
  }

  lemma MoreEach(results: seq<StepResult>, completed: set<string>, pending: seq<Step>, more: seq<StepResult>)
    requires OneEach(results, completed) && UniqueIds(pending) && (forall s :: s in pending ==> s.id !in completed)
    requires |more| == |pending| && forall i :: 0 <= i < |pending| ==> more[i].step == pending[i].id
    ensures OneEach(results + more, completed + Ids(pending))
  {
    forall r | r in results
      ensures r.step in completed
    {
      assert r.step in StepsOf(results);
    }
    forall s | s in pending
      ensures s.id in StepsOf(more)
    {
      var i :| 0 <= i < |pending| && pending[i] == s;
      assert more[i] in more;
    }
    assert StepsOf(results + more) == StepsOf(results) + StepsOf(more);
    assert StepsOf(more) == Ids(pending);
  }

  lemma WaveTallies(steps: seq<Step>, waves: seq<seq<Step>>, w: nat, saved: Saved, earlier: seq<StepResult>,
                    results: seq<StepResult>, session: Session)
    requires UniqueIds(steps) && multiset(Flatten(waves)) == multiset(steps) && w < |waves|
    requires OneEach(earlier + results, saved.completed)
    ensures var pending := Without(waves[w], saved.completed);
            var e := EffectOf(pending, session.worlds, saved.outputs, saved.memory);
            OneEach(earlier + (results + e.results), saved.completed + Ids(pending))
  {
    hide OneEach, UniqueIds, EffectOf, Without, Ids, Flatten;
    var pending := Without(waves[w], saved.completed);
    var e := EffectOf(pending, session.worlds, saved.outputs, saved.memory);
    EffectNames(pending, session.worlds, saved.outputs, saved.memory);
    UniqueInWave(steps, waves, w);
    WithoutKeepsUnique(waves[w], saved.completed);
    WithoutMeaning(waves[w], saved.completed);
    MoreEach(earlier + results, saved.completed, pending, e.results);
    assert earlier + (results + e.results) == earlier + results + e.results;
  }

  lemma {:induction false} SessionTallies(steps: seq<Step>, waves: seq<seq<Step>>, w: nat, saved: Saved, earlier: seq<StepResult>,
                                          results: seq<StepResult>, session: Session)
    requires UniqueIds(steps) && multiset(Flatten(waves)) == multiset(steps) && w <= |waves|
    requires OneEach(earlier + results, saved.completed)
    ensures var e := SessionFrom(waves, w, saved, results, session); OneEach(earlier + e.results, e.saved.completed)
    decreases |waves| - w
  {
    if w < |waves| {
      hide OneEach, UniqueIds, EffectOf, Without, Ids, Flatten, AnyFatal;
      var pending := Without(waves[w], saved.completed);
      if pending == [] {
        SessionTallies(steps, waves, w + 1, saved, earlier, results, session);
      } else {
        var e := EffectOf(pending, session.worlds, saved.outputs, saved.memory);
        WaveTallies(steps, waves, w, saved, earlier, results, session);
        SessionTallies(steps, waves, w + 1, Saved(saved.completed + Ids(pending), e.outputs, e.memory), earlier,
                       results + e.results, session);
      }
    }
  }

  /** Over any sequence of sessions every completed step has one committed result, and
      no other step has any: nothing completed is ever executed again. */
  lemma {:induction false} OneResultEach(steps: seq<Step>, waves: seq<seq<Step>>, sessions: seq<Session>)
    requires UniqueIds(steps) && multiset(Flatten(waves)) == multiset(steps)
    ensures var t := Told(waves, sessions); OneEach(t.Results(), t.last.saved.completed)
  {
    if sessions == [] {
      assert StepsOf([]) == {};
    } else {
      OneResultEach(steps, waves, sessions[..|sessions| - 1]);
      var before := Told(waves, sessions[..|sessions| - 1]);
      assert before.Results() + [] == before.Results();
      SessionTallies(steps, waves, 0, before.last.saved, before.Results(), [], sessions[|sessions| - 1]);
    }
  }

  // ---------- the final status ----------

  /** The run counts as a success although one of its steps failed or fell back. */
  ghost predicate HidesTrouble(t: Tale) {
    t.last.reachedEnd && t.last.status == RunSucceeded && exists r :: r in t.Results() && Troubled(r)
  }

  lemma {:induction false} EndMeansVerdict(waves: seq<seq<Step>>, w: nat, saved: Saved, results: seq<StepResult>, session: Session)
    requires w <= |waves|
    ensures var e := SessionFrom(waves, w, saved, results, session); e.reachedEnd ==> e.status == FinalStatus(e.results)
    ensures SessionFrom(waves, w, saved, results, session).status == RunSucceeded ==> SessionFrom(waves, w, saved, results, session).reachedEnd
    decreases |waves| - w
  {
    if w < |waves| {
      var pending := Without(waves[w], saved.completed);
      if pending == [] {
        EndMeansVerdict(waves, w + 1, saved, results, session);
      } else {
        var e := EffectOf(pending, session.worlds, saved.outputs, saved.memory);
        EndMeansVerdict(waves, w + 1, Saved(saved.completed + Ids(pending), e.outputs, e.memory), results + e.results, session);
      }
    }
  }

  /** At the end of any sequence of sessions the status says success if and only if no
      step the last session executed failed or fell back; so it is right about the whole
      run exactly when the earlier sessions committed no such step, or the last one did. */
  lemma VerdictExactly(steps: seq<Step>, waves: seq<seq<Step>>, sessions: seq<Session>)
    requires Told(waves, sessions).last.reachedEnd
    ensures var t := Told(waves, sessions);
            && (t.last.status == RunSucceeded <==> forall r :: r in t.last.results ==> !Troubled(r))
            && ((t.last.status == RunSucceeded <==> forall r :: r in t.Results() ==> !Troubled(r)) <==>
                  (forall r :: r in t.earlier ==> !Troubled(r)) || (exists r :: r in t.last.results && Troubled(r)))
  {
    var before := Told(waves, sessions[..|sessions| - 1]);
    EndMeansVerdict(waves, 0, before.last.saved, [], sessions[|sessions| - 1]);
  }

  // ---------- when a resume can hide trouble ----------

  /** A session nothing interrupts and in which every step's condition is false. */
  const IDLE := Session(w => false, w => false, w => RunsOn, id => StepWorld(true, false, true, k => Failing, "", R.Nothing))

  lemma {:induction false} IdleSkips(pending: seq<Step>, outputs: map<string, string>, memory: map<string, R.Record>)
    ensures forall r :: r in EffectOf(pending, IDLE.worlds, outputs, memory).results ==> r.status == Skipped
  {
    if pending != [] {
      IdleSkips(pending[..|pending| - 1], outputs, memory);
    }
  }

  lemma {:induction false} IdleSucceeds(waves: seq<seq<Step>>, w: nat, saved: Saved, results: seq<StepResult>)
    requires w <= |waves| && forall r :: r in results ==> r.status == Skipped
    ensures var e := SessionFrom(waves, w, saved, results, IDLE); e.reachedEnd && e.status == RunSucceeded
    decreases |waves| - w
  {
    if w < |waves| {
      var pending := Without(waves[w], saved.completed);
      if pending == [] {
        IdleSucceeds(waves, w + 1, saved, results);
      } else {
        var e := EffectOf(pending, IDLE.worlds, saved.outputs, saved.memory);
        IdleSkips(pending, saved.outputs, saved.memory);
        assert forall i :: 0 <= i < |pending| ==> e.results[i] in e.results;
        hide EffectOf;
        IdleSucceeds(waves, w + 1, Saved(saved.completed + Ids(pending), e.outputs, e.memory), results + e.results);
      }
    }
  }

  /** Resuming a run can end in a success that hides trouble if and only if a step that
      failed or fell back is already committed. */
  lemma ResumeHidesExactly(waves: seq<seq<Step>>, sessions: seq<Session>)
    ensures (exists next :: HidesTrouble(Told(waves, sessions + [next]))) <==>
            exists r :: r in Told(waves, sessions).Results() && Troubled(r)
  {
    var t := Told(waves, sessions);
    forall next
      ensures Told(waves, sessions + [next]) == Tale(t.Results(), SessionFrom(waves, 0, t.last.saved, [], next))
    {
      assert (sessions + [next])[..|sessions|] == sessions;
    }
    if r :| r in t.Results() && Troubled(r) {
      IdleSucceeds(waves, 0, t.last.saved, []);
      assert r in Told(waves, sessions + [IDLE]).Results();
      assert HidesTrouble(Told(waves, sessions + [IDLE]));
    }
    if next :| HidesTrouble(Told(waves, sessions + [next])) {
      EndMeansVerdict(waves, 0, t.last.saved, [], next);
    }
  }

  /** A session nothing interrupts and in which every step runs and succeeds at once. */
  const WORKING := Session(w => false, w => false, w => RunsOn, id => StepWorld(true, true, true, k => Done(""), "", R.Nothing))

  ghost predicate AllTry(waves: seq<seq<Step>>) {
    forall w, s :: 0 <= w < |waves| && s in waves[w] ==> s.retries >= 0
  }

  lemma {:induction false} WorkingSucceeds(pending: seq<Step>, outputs: map<string, string>, memory: map<string, R.Record>)
    requires forall s :: s in pending ==> s.retries >= 0
    ensures forall r :: r in EffectOf(pending, WORKING.worlds, outputs, memory).results ==> r.status == Succeeded
  {
    if pending != [] {
      var front, s := pending[..|pending| - 1], pending[|pending| - 1];
      WorkingSucceeds(front, outputs, memory);
      var before := EffectOf(front, WORKING.worlds, outputs, memory);
      assert s in pending && MissionEngine.Retry(WORKING.worlds(s.id).dispatch, 0, s.retries) == Done("");
    }
  }

  lemma {:induction false} WorkEndsWell(waves: seq<seq<Step>>, w: nat, saved: Saved, results: seq<StepResult>)
    requires w <= |waves| && AllTry(waves) && forall r :: r in results ==> r.status == Succeeded
    ensures var e := SessionFrom(waves, w, saved, results, WORKING); e.reachedEnd && e.status == RunSucceeded
    decreases |waves| - w
  {
    if w < |waves| {
      var pending := Without(waves[w], saved.completed);
      if pending == [] {
        WorkEndsWell(waves, w + 1, saved, results);
      } else {
        var e := EffectOf(pending, WORKING.worlds, saved.outputs, saved.memory);
        WithoutMeaning(waves[w], saved.completed);
        WorkingSucceeds(pending, saved.outputs, saved.memory);
        assert forall i :: 0 <= i < |pending| ==> e.results[i] in e.results;
        hide EffectOf;
        WorkEndsWell(waves, w + 1, Saved(saved.completed + Ids(pending), e.outputs, e.memory), results + e.results);
      }
    }
  }

  /** It takes no skipping for that: a resume in which every step runs and succeeds hides
      the trouble as well, if and only if there is any. */
  lemma ResumeHidesByWork(waves: seq<seq<Step>>, sessions: seq<Session>)
    requires AllTry(waves)
    ensures HidesTrouble(Told(waves, sessions + [WORKING])) <==> exists r :: r in Told(waves, sessions).Results() && Troubled(r)
  {
    var t, next := Told(waves, sessions), Told(waves, sessions + [WORKING]);
    assert (sessions + [WORKING])[..|sessions|] == sessions;
    WorkEndsWell(waves, 0, t.last.saved, []);
    EndMeansVerdict(waves, 0, t.last.saved, [], WORKING);
    assert forall r :: r in t.Results() ==> r in next.Results();
    hide SessionFrom;
  }

  /** Resuming a run whose every step is completed executes nothing and succeeds,
      whatever became of the steps. */
  lemma {:induction false} FinishedRunSucceeds(waves: seq<seq<Step>>, w: nat, saved: Saved, session: Session)
    requires w <= |waves| && forall v :: w <= v < |waves| ==> Without(waves[v], saved.completed) == []
    ensures SessionFrom(waves, w, saved, [], session) == Ending(saved, [], RunSucceeded, true)
    decreases |waves| - w
  {
    if w < |waves| {
      FinishedRunSucceeds(waves, w + 1, saved, session);
    }
  }

  /** The shortest such run: its only step fails and stops the mission, and a resume
      turns that into a success. */
  lemma FailedStepEndsInSuccess(step: Step, failing: Session, resume: Session)
    requires step.onError == Fail && !step.optional && !failing.worlds(step.id).conditionParses
    requires !failing.pastDeadline(0) && !failing.overBudget(0) && failing.interruption(0).RunsOn?
    ensures var first, whole := Told([[step]], [failing]), Told([[step]], [failing, resume]);
            && first.last.status == RunFailed && first.Results() == [StepResult(step.id, Failed)]
            && whole.last.status == RunSucceeded && whole.last.results == [] && HidesTrouble(whole)
  {
    var waves, sessions := [[step]], [failing, resume];
    var first, whole := Told(waves, [failing]), Told(waves, sessions);
    assert sessions[..1] == [failing] && [failing][..0] == [];
    OnlyStepFails(step, failing);
    assert Told(waves, []).last.saved == NEW_RUN && Told(waves, []).Results() == [];
    assert first.last == Ending(Saved({step.id}, map[], map[]), [StepResult(step.id, Failed)], RunFailed, false);
    assert Without([step], {step.id}) == [];
    FinishedRunSucceeds(waves, 0, first.last.saved, resume);
    hide SessionFrom;
    assert first.Results()[0] == StepResult(step.id, Failed) && whole.Results()[0] == first.Results()[0];
    assert whole.Results()[0] in whole.Results() && Troubled(whole.Results()[0]);
  }

  lemma OnlyStepFails(step: Step, failing: Session)
    requires step.onError == Fail && !step.optional && !failing.worlds(step.id).conditionParses
    requires !failing.pastDeadline(0) && !failing.overBudget(0) && failing.interruption(0).RunsOn?
    ensures var e := SessionFrom([[step]], 0, NEW_RUN, [], failing);
            e == Ending(Saved({step.id}, map[], map[]), [StepResult(step.id, Failed)], RunFailed, false)
  {
    assert Without([step], {}) == [step] && [step][..0] == [];
    var none := EffectOf([], failing.worlds, map[], map[]);
    var e := EffectOf([step], failing.worlds, map[], map[]);
    assert none == WaveEffect([], map[], map[]);
    assert StepEffect(step, failing.worlds(step.id), map[], map[]) == Effect(Ok(StepResult(step.id, Failed)), map[], map[]);
    assert e == WaveEffect([StepResult(step.id, Failed)], map[], map[]);
    assert Fatal([step][0], e.results[0]);
    assert Ids([step]) == {step.id};
    hide EffectOf, Without;
  }
}

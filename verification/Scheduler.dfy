/** The scheduler: leases on due schedules, and several workers sharing the table. */
module Scheduler {
  import opened Common

  type Id = string
  type Worker = string
  type Time = int  // minutes

  const LEASE_MINUTES := 90

  datatype Row = Row(
    enabled: bool,
    nextRunAt: Option<Time>,
    lockedBy: Option<Worker>,
    lockedUntil: Option<Time>,
    consecutiveFailures: nat)

  // ---------- claiming ----------

  predicate Due(row: Row, now: Time) {
    && row.enabled
    && row.nextRunAt.Some? && row.nextRunAt.value <= now
    && (row.lockedUntil.None? || row.lockedUntil.value < now)
  }

  function DueIds(rows: map<Id, Row>, now: Time): set<Id> {
    set id | id in rows && Due(rows[id], now)
  }

  function NextRun(rows: map<Id, Row>, id: Id): Time {
    if id in rows && rows[id].nextRunAt.Some? then rows[id].nextRunAt.value else 0
  }

  /** The answer to the query: the due rows in order of their next run, up to a limit. */
  ghost predicate DueSelection(rows: map<Id, Row>, now: Time, limit: nat, ids: seq<Id>) {
    && Distinct(ids)
    && (forall id :: id in ids ==> id in DueIds(rows, now))
    && |ids| == Min(limit, |DueIds(rows, now)|)
    && (forall i, j :: 0 <= i < j < |ids| ==> NextRun(rows, ids[i]) <= NextRun(rows, ids[j]))
    && (forall id, i :: id in DueIds(rows, now) && id !in ids && 0 <= i < |ids| ==>
          NextRun(rows, ids[i]) <= NextRun(rows, id))
  }

  function Locked(row: Row, worker: Worker, now: Time): Row {
    row.(lockedBy := Some(worker), lockedUntil := Some(now + LEASE_MINUTES))
  }

  /** The table after a worker has taken its leases. */
  function WithLeases(rows: map<Id, Row>, ids: seq<Id>, worker: Worker, now: Time): map<Id, Row> {
    map id | id in rows :: if id in ids then Locked(rows[id], worker, now) else rows[id]
  }

  /** Enabled, its next run has come, and no lease is still running. */
  ghost predicate Waiting(row: Row, now: Time) {
    && row.enabled
    && (exists due :: row.nextRunAt == Some(due) && due <= now)
    && !(exists until :: row.lockedUntil == Some(until) && until >= now)
  }

  /** Each selected row's next run is no later than that of any waiting row after it. */
  ghost predicate EarliestFirst(rows: map<Id, Row>, now: Time, ids: seq<Id>) {
    forall i, id :: 0 <= i < |ids| && ids[i] in rows && id in rows && Waiting(rows[id], now) && id !in ids[..i] ==>
      NoLater(rows[ids[i]], rows[id])
  }

  ghost predicate NoLater(a: Row, b: Row) {
    exists first, second :: a.nextRunAt == Some(first) && b.nextRunAt == Some(second) && first <= second
  }

  lemma DueIsWaiting(row: Row, now: Time)
    ensures Due(row, now) <==> Waiting(row, now)
  {
  }

  /** The query's answer, told from the rows themselves. */
  lemma DueMeansWaiting(rows: map<Id, Row>, now: Time, limit: nat, ids: seq<Id>)
    requires DueSelection(rows, now, limit, ids)
    ensures forall id :: id in rows ==> (id in DueIds(rows, now) <==> Waiting(rows[id], now))
    ensures forall id :: id in ids ==> id in rows
    ensures |ids| != limit ==> forall id :: id in rows && Waiting(rows[id], now) ==> id in ids
    ensures EarliestFirst(rows, now, ids)
  {
    forall id | id in rows
      ensures Due(rows[id], now) <==> Waiting(rows[id], now)
    {
      DueIsWaiting(rows[id], now);
    }
    hide Due, Waiting;
    if |ids| != limit {
      NoneLeftOut(rows, now, limit, ids);
    }
    EarliestAreFirst(rows, now, limit, ids);
  }

  lemma NoneLeftOut(rows: map<Id, Row>, now: Time, limit: nat, ids: seq<Id>)
    requires DueSelection(rows, now, limit, ids) && |ids| != limit
    ensures forall id :: id in DueIds(rows, now) ==> id in ids
  {
    hide Due, NextRun;
    if id :| id in DueIds(rows, now) && id !in ids {
      DistinctFits(ids, DueIds(rows, now) - {id});
    }
  }

  lemma EarliestAreFirst(rows: map<Id, Row>, now: Time, limit: nat, ids: seq<Id>)
    requires DueSelection(rows, now, limit, ids)
    ensures EarliestFirst(rows, now, ids)
  {
    forall i, id | 0 <= i < |ids| && ids[i] in rows && id in rows && Waiting(rows[id], now) && id !in ids[..i]
      ensures NoLater(rows[ids[i]], rows[id])
    {
      DueIsWaiting(rows[id], now);
      assert ids[i] in DueIds(rows, now) && id in DueIds(rows, now);
      NoEarlier(rows, now, limit, ids, i, id);
      NextRunsOrdered(rows, now, ids[i], id);
    }
  }

  lemma NoEarlier(rows: map<Id, Row>, now: Time, limit: nat, ids: seq<Id>, i: nat, id: Id)
    requires DueSelection(rows, now, limit, ids) && i < |ids| && id in DueIds(rows, now) && id !in ids[..i]
    ensures NextRun(rows, ids[i]) <= NextRun(rows, id)
  {
    hide Due, NextRun, DueIds;
    assert forall j :: 0 <= j < i ==> ids[j] in ids[..i];
    if id in ids {
      var j :| 0 <= j < |ids| && ids[j] == id;
    }
  }

  lemma NextRunsOrdered(rows: map<Id, Row>, now: Time, a: Id, b: Id)
    requires a in DueIds(rows, now) && b in DueIds(rows, now) && NextRun(rows, a) <= NextRun(rows, b)
    ensures NoLater(rows[a], rows[b])
  {
  }

  // ---------- advancing ----------

  /** How a claimed schedule's run ended; a run that raised counts as failed. */
  datatype RunResult = Raised | Finished(failed: bool)

  function Pow2(n: nat): nat {
    if n == 0 then 1 else 2 * Pow2(n - 1)
  }

  /** The row after its run: lock cleared, failures counted, next run moved on.
      `cronNext` is the next instant of its cron, or None when the cron is invalid. */
  function Advanced(row: Row, now: Time, result: RunResult, cronNext: Option<Time>): Row {
    var failures := if result.Raised? || result.failed then row.consecutiveFailures + 1 else 0;
    var released := Row(row.enabled, row.nextRunAt, None, None, failures);
    if cronNext.None? then released.(enabled := false)
    else
      var next := if failures >= 3 then now + 60 * Min(Pow2(failures), 48) else cronNext.value;
      released.(nextRunAt := Some(next), enabled := row.enabled && failures < 8)
  }

  lemma {:induction false} Pow2Positive(n: nat)
    ensures Pow2(n) >= 1
  {
    if n > 0 { Pow2Positive(n - 1); }
  }

  /** An advanced schedule is free, and either disabled or due strictly later. */
  lemma AdvanceMovesOn(row: Row, now: Time, result: RunResult, cronNext: Option<Time>)
    requires cronNext.Some? ==> cronNext.value > now
    ensures var after := Advanced(row, now, result, cronNext);
            && after.lockedBy.None? && after.lockedUntil.None?
            && (after.enabled ==> row.enabled && after.nextRunAt.Some? && after.nextRunAt.value > now)
            && !Due(after, now)
  {
    var failures := if result.Raised? || result.failed then row.consecutiveFailures + 1 else 0;
    Pow2Positive(failures);
  }

  /** What an advance does, case by case: an invalid cron disables the schedule; otherwise
      its next run is the cron's, but 8, 16, 32 and then always 48 hours away from the third
      failure in a row on, and the eighth disables it. */
  ghost predicate MovedOn(row: Row, now: Time, result: RunResult, cronNext: Option<Time>, after: Row) {
    var before := row.consecutiveFailures;
    && after.lockedBy == None && after.lockedUntil == None
    && after.consecutiveFailures == (if result == Finished(false) then 0 else before + 1)
    && (cronNext == None ==> !after.enabled && after.nextRunAt == row.nextRunAt)
    && (cronNext.Some? ==>
          && (after.enabled <==> row.enabled && (result == Finished(false) || before < 7))
          && after.nextRunAt ==
             if result == Finished(false) || before < 2 then cronNext
             else Some(now + 60 * (if before == 2 then 8 else if before == 3 then 16 else if before == 4 then 32 else 48)))
  }

  lemma AdvancedMovesOn(row: Row, now: Time, result: RunResult, cronNext: Option<Time>)
    ensures MovedOn(row, now, result, cronNext, Advanced(row, now, result, cronNext))
  {
    assert Pow2(3) == 8 && Pow2(4) == 16 && Pow2(5) == 32;
    if row.consecutiveFailures >= 5 {
      Pow2Grows(6, row.consecutiveFailures + 1);
    }
  }

  lemma {:induction false} Pow2Grows(m: nat, n: nat)
    requires m <= n
    ensures Pow2(m) <= Pow2(n)
  {
    if m < n { Pow2Grows(m, n - 1); }
  }

  // ---------- a schedule over its runs ----------

  /** One run of a schedule, at its time. */
  datatype Run = Run(at: Time, result: RunResult, cronNext: Option<Time>)

  /** The row after a list of runs, the earliest first. */
  function AfterRuns(row: Row, runs: seq<Run>): Row {
    if runs == [] then row
    else
      var last := runs[|runs| - 1];
      Advanced(AfterRuns(row, runs[..|runs| - 1]), last.at, last.result, last.cronNext)
  }

  /** The last `k` runs failed, and the one before them, if any, did not. */
  ghost predicate FailedLast(runs: seq<Run>, k: nat) {
    && k <= |runs|
    && (forall i :: |runs| - k <= i < |runs| ==> runs[i].result != Finished(false))
    && (k < |runs| ==> runs[|runs| - k - 1].result == Finished(false))
  }

  /** Why a schedule is disabled: an invalid cron, or eight failures in a row. */
  ghost predicate GaveUp(runs: seq<Run>) {
    || (exists i :: 0 <= i < |runs| && runs[i].cronNext == None)
    || (exists i :: 0 <= i <= |runs| - 8 && FailsFrom(runs, i))
  }

  ghost predicate FailsFrom(runs: seq<Run>, i: nat) {
    i + 8 <= |runs| && forall j :: i <= j < i + 8 ==> runs[j].result != Finished(false)
  }

  /** Over any runs of a fresh schedule: its failure count is that of the failures in a
      row, and it is disabled exactly if a cron was invalid or eight in a row failed. */
  lemma {:induction false} DisabledExactly(row: Row, runs: seq<Run>)
    requires row.enabled && row.consecutiveFailures == 0
    ensures FailedLast(runs, AfterRuns(row, runs).consecutiveFailures)
    ensures AfterRuns(row, runs).enabled <==> !GaveUp(runs)
  {
    if runs != [] {
      var front, last := runs[..|runs| - 1], runs[|runs| - 1];
      DisabledExactly(row, front);
      AdvancedMovesOn(AfterRuns(row, front), last.at, last.result, last.cronNext);
      hide Advanced;
      var failures := AfterRuns(row, front).consecutiveFailures;
      OneMoreRun(runs, failures);
    }
  }

  lemma OneMoreRun(runs: seq<Run>, failures: nat)
    requires runs != [] && FailedLast(runs[..|runs| - 1], failures)
    ensures var last := runs[|runs| - 1];
            && FailedLast(runs, if last.result == Finished(false) then 0 else failures + 1)
            && (GaveUp(runs) <==> GaveUp(runs[..|runs| - 1]) || last.cronNext == None || (last.result != Finished(false) && failures >= 7))
  {
    var front, last := runs[..|runs| - 1], runs[|runs| - 1];
    if last.cronNext == None {
      assert GaveUp(runs);
    }
    if GaveUp(front) {
      if i :| 0 <= i < |front| && front[i].cronNext == None {
        assert runs[i].cronNext == None;
      } else {
        var i :| 0 <= i <= |front| - 8 && FailsFrom(front, i);
        assert FailsFrom(runs, i) by {
          forall j | i <= j < i + 8
            ensures runs[j].result != Finished(false)
          {
            assert front[j].result != Finished(false);
          }
        }
      }
    }
    if last.result != Finished(false) && failures >= 7 {
      assert FailsFrom(runs, |runs| - 8) by {
        forall j | |runs| - 8 <= j < |runs|
          ensures runs[j].result != Finished(false)
        {
          if j < |front| { assert front[j].result != Finished(false); }
        }
      }
    }
    forall i | 0 <= i <= |runs| - 8 && FailsFrom(runs, i)
      ensures FailsFrom(front, i) || (last.result != Finished(false) && failures >= 7)
    {
      FailsBefore(runs, failures, i);
    }
    forall i | 0 <= i < |front|
      ensures front[i].cronNext == runs[i].cronNext
    {
    }
  }

  lemma FailsBefore(runs: seq<Run>, failures: nat, i: nat)
    requires runs != [] && FailedLast(runs[..|runs| - 1], failures) && FailsFrom(runs, i)
    ensures FailsFrom(runs[..|runs| - 1], i) || (runs[|runs| - 1].result != Finished(false) && failures >= 7)
  {
  }

  /** The schedule table as the service code updates it. */
  class ScheduleTable {
    var rows: map<Id, Row>

    constructor (rows: map<Id, Row>)
      ensures this.rows == rows
    {
      this.rows := rows;
    }

    /** Takes leases on the due schedules the query returned. */
    method ClaimDueSchedules(worker: Worker, limit: nat, now: Time) returns (claimed: seq<Id>)
      modifies this
      ensures DueSelection(old(rows), now, limit, claimed)
      ensures rows == WithLeases(old(rows), claimed, worker, now)
      ensures rows.Keys == old(rows).Keys && EarliestFirst(old(rows), now, claimed)
      ensures forall id :: id in rows ==>
                var row := old(rows)[id];
                && (id in claimed ==> Waiting(row, now) && rows[id] == row.(lockedBy := Some(worker), lockedUntil := Some(now + 90)))
                && (id !in claimed ==> rows[id] == row && (Waiting(row, now) ==> |claimed| == limit))
    {
      hide Due, Waiting, EarliestFirst;
      var ids := SelectDue(rows, now, limit);
      claimed := [];
      for i := 0 to |ids|
        invariant claimed == ids[..i]
        invariant rows == WithLeases(old(rows), ids[..i], worker, now)
      {
        assert ids[..i + 1] == ids[..i] + [ids[i]];
        assert ids[i] in ids && ids[i] in DueIds(old(rows), now);
        assert ids[i] !in ids[..i];
        rows := rows[ids[i] := Locked(rows[ids[i]], worker, now)];
        claimed := claimed + [ids[i]];
      }
      assert ids[..|ids|] == ids;
      DueMeansWaiting(old(rows), now, limit, ids);
    }

    /** Releases a schedule after its run and moves it on. */
    method AdvanceSchedule(id: Id, now: Time, result: RunResult, cronNext: Option<Time>)
      requires id in rows
      modifies this
      ensures rows == old(rows)[id := Advanced(old(rows)[id], now, result, cronNext)]
      ensures MovedOn(old(rows)[id], now, result, cronNext, rows[id])
    {
      AdvancedMovesOn(rows[id], now, result, cronNext);
      var row := rows[id].(lockedBy := None, lockedUntil := None);
      if result.Raised? || result.failed {
        row := row.(consecutiveFailures := row.consecutiveFailures + 1);
      } else {
        row := row.(consecutiveFailures := 0);
      }
      if cronNext.None? {
        rows := rows[id := row.(enabled := false)];
        return;
      }
      row := row.(nextRunAt := cronNext);
      if row.consecutiveFailures >= 3 {
        row := row.(nextRunAt := Some(now + 60 * Min(Pow2(row.consecutiveFailures), 48)));
      }
      if row.consecutiveFailures >= 8 {
        row := row.(enabled := false);
      }
      rows := rows[id := row];
    }
  }

  /** The selection while it is being built: `ids` taken, `rest` still to choose from. */
  ghost predicate Selecting(rows: map<Id, Row>, due: set<Id>, ids: seq<Id>, rest: set<Id>) {
    && Distinct(ids) && |ids| + |rest| == |due|
    && (forall id :: id in due <==> id in ids || id in rest)
    && (forall id :: id in ids ==> id !in rest)
    && (forall i, j :: 0 <= i < j < |ids| ==> NextRun(rows, ids[i]) <= NextRun(rows, ids[j]))
    && (forall id, i :: id in rest && 0 <= i < |ids| ==> NextRun(rows, ids[i]) <= NextRun(rows, id))
  }

  lemma SelectOne(rows: map<Id, Row>, due: set<Id>, ids: seq<Id>, rest: set<Id>, id: Id)
    requires Selecting(rows, due, ids, rest) && id in rest
    requires forall other :: other in rest ==> NextRun(rows, id) <= NextRun(rows, other)
    ensures Selecting(rows, due, ids + [id], rest - {id})
  {
    var longer := ids + [id];
    forall i, j | 0 <= i < j < |longer|
      ensures NextRun(rows, longer[i]) <= NextRun(rows, longer[j])
    {
      assert longer[i] == ids[i];
    }
  }

  /** The query itself: repeatedly the due row with the earliest next run. */
  method SelectDue(rows: map<Id, Row>, now: Time, limit: nat) returns (ids: seq<Id>)
    ensures DueSelection(rows, now, limit, ids)
  {
    var rest := DueIds(rows, now);
    ids := [];
    while rest != {} && |ids| < limit
      invariant Selecting(rows, DueIds(rows, now), ids, rest) && |ids| <= limit
      decreases |rest|
    {
      hide Selecting, NextRun;
      EarliestExists(rows, rest);
      var id :| id in rest && forall other :: other in rest ==> NextRun(rows, id) <= NextRun(rows, other);
      SelectOne(rows, DueIds(rows, now), ids, rest, id);
      ids := ids + [id];
      rest := rest - {id};
    }
  }

  lemma {:induction false} EarliestExists(rows: map<Id, Row>, ids: set<Id>)
    requires ids != {}
    ensures exists id :: id in ids && forall other :: other in ids ==> NextRun(rows, id) <= NextRun(rows, other)
  {
    var x :| x in ids;
    if ids != {x} {
      EarliestExists(rows, ids - {x});
      var y :| y in ids - {x} &&
               forall other :: other in ids - {x} ==> NextRun(rows, y) <= NextRun(rows, other);
      if NextRun(rows, x) <= NextRun(rows, y) {
        assert forall other :: other in ids ==> NextRun(rows, x) <= NextRun(rows, other);
      } else {
        assert forall other :: other in ids ==> NextRun(rows, y) <= NextRun(rows, other);
      }
    }
  }

  // ---------- several workers ----------

  /** A worker between ticks, in the middle of a claimed batch, or dead in the middle of one. */
  datatype WorkerState = Idle | Working(claimedAt: Time, todo: seq<Id>) | Dead(claimedAt: Time, todo: seq<Id>)

  /** A finished run: which schedule, and the due instant it was run for. */
  datatype Completion = Completion(id: Id, due: Time)

  /** `completed` is a history of finished runs, kept for the statements below. */
  datatype State = State(
    now: Time,
    rows: map<Id, Row>,
    workers: map<Worker, WorkerState>,
    completed: seq<Completion>)

  datatype Action =
    | Claim(worker: Worker, limit: nat, ids: seq<Id>)
    | FinishHead(worker: Worker, result: RunResult, cronNext: Option<Time>)
    | Die(worker: Worker)
    | Restart(worker: Worker)
    | Wait(until: Time)

  /** One atomic step of the workers or the clock. */
  ghost predicate Next(s: State, a: Action, t: State) {
    match a
    case Claim(w, limit, ids) =>
      && w in s.workers && s.workers[w].Idle?
      && DueSelection(s.rows, s.now, limit, ids)
      && t == s.(rows := WithLeases(s.rows, ids, w, s.now),
                 workers := s.workers[w := if ids == [] then Idle else Working(s.now, ids)])
    case FinishHead(w, result, cronNext) =>
      && w in s.workers && s.workers[w].Working? && s.workers[w].todo != []
      && (cronNext.Some? ==> cronNext.value > s.now)
      && var id := s.workers[w].todo[0];
         var rest := s.workers[w].todo[1..];
         && id in s.rows
         && t == s.(rows := s.rows[id := Advanced(s.rows[id], s.now, result, cronNext)],
                    workers := s.workers[w := if rest == [] then Idle else Working(s.workers[w].claimedAt, rest)],
                    completed := s.completed + [Completion(id, NextRun(s.rows, id))])
    case Die(w) =>
      && w in s.workers && s.workers[w].Working?
      && t == s.(workers := s.workers[w := Dead(s.workers[w].claimedAt, s.workers[w].todo)])
    case Restart(w) =>
      && w in s.workers && s.workers[w].Dead?
      && t == s.(workers := s.workers[w := Idle])
    case Wait(until) =>
      until >= s.now && t == s.(now := until)
  }

  ghost predicate Start(s: State) {
    && (forall w :: w in s.workers ==> s.workers[w].Idle?)
    && s.completed == []
  }

  /** A live worker is still inside the lease it took for its whole batch. */
  ghost predicate InTime(s: State, w: Worker)
    requires w in s.workers
  {
    s.workers[w].Working? ==> s.now <= s.workers[w].claimedAt + LEASE_MINUTES
  }

  ghost predicate Timely(s: State) {
    forall w :: w in s.workers ==> InTime(s, w)
  }

  ghost predicate Holds(s: State, w: Worker, id: Id) {
    w in s.workers && s.workers[w].Working? && id in s.workers[w].todo
  }

  /** Nobody else runs what a live worker runs. */
  ghost predicate Exclusive(s: State) {
    forall v, w, id :: Holds(s, v, id) && Holds(s, w, id) ==> v == w
  }

  /** The lease of the batch claimed by `w` at time `c` is on the row, untouched since. */
  ghost predicate LeaseIntact(rows: map<Id, Row>, id: Id, w: Worker, c: Time) {
    && id in rows
    && rows[id].lockedBy == Some(w) && rows[id].lockedUntil == Some(c + LEASE_MINUTES)
    && rows[id].enabled && rows[id].nextRunAt.Some? && rows[id].nextRunAt.value <= c
  }

  ghost predicate BatchIntact(s: State, w: Worker)
    requires w in s.workers
  {
    s.workers[w].Working? ==>
      && s.workers[w].claimedAt <= s.now
      && Distinct(s.workers[w].todo)
      && forall id :: id in s.workers[w].todo ==> LeaseIntact(s.rows, id, w, s.workers[w].claimedAt)
  }

  /** A dead worker's schedules are as it left them, or someone has taken them over. */
  ghost predicate LeftBehind(s: State, w: Worker)
    requires w in s.workers
  {
    s.workers[w].Dead? ==>
      forall id :: id in s.workers[w].todo && id in s.rows && s.rows[id].lockedBy == Some(w) ==>
        LeaseIntact(s.rows, id, w, s.workers[w].claimedAt)
  }

  /** A due instant already completed is behind the schedule's next run. */
  ghost predicate CompletedBehind(s: State) {
    && (forall c :: c in s.completed ==>
          c.id in s.rows && (s.rows[c.id].enabled ==> s.rows[c.id].nextRunAt.Some? && s.rows[c.id].nextRunAt.value > c.due))
    && (forall i, j :: 0 <= i < j < |s.completed| && s.completed[i].id == s.completed[j].id ==>
          s.completed[i].due < s.completed[j].due)
  }

  ghost predicate Inv(s: State) {
    && (forall w :: w in s.workers ==> BatchIntact(s, w) && LeftBehind(s, w))
    && CompletedBehind(s)
  }

  lemma InvMeansExclusive(s: State)
    requires Inv(s)
    ensures Exclusive(s)
  {
    forall v, w, id | Holds(s, v, id) && Holds(s, w, id)
      ensures v == w
    {
      assert BatchIntact(s, v) && BatchIntact(s, w);
    }
  }

  lemma ClaimKeepsInv(s: State, a: Action, t: State)
    requires a.Claim? && Next(s, a, t) && Inv(s) && Timely(s)
    ensures Inv(t)
  {
    forall w | w in t.workers
      ensures BatchIntact(t, w) && LeftBehind(t, w)
    {
      assert BatchIntact(s, w) && LeftBehind(s, w) && InTime(s, w);
    }
  }

  lemma FinishKeepsBatch(s: State, a: Action, t: State, v: Worker)
    requires a.FinishHead? && Next(s, a, t) && Inv(s) && v in t.workers
    ensures BatchIntact(t, v) && LeftBehind(t, v)
  {
    hide CompletedBehind, NextRun;
    var w, todo := a.worker, s.workers[a.worker].todo;
    assert BatchIntact(s, v) && LeftBehind(s, v) && BatchIntact(s, w);
    assert todo[0] in todo && LeaseIntact(s.rows, todo[0], w, s.workers[w].claimedAt);
    if v == w {
      forall other | other in todo[1..]
        ensures other in todo && other != todo[0]
      {
        var i :| 1 <= i < |todo| && todo[i] == other;
      }
      assert Distinct(todo[1..]);
    }
  }

  lemma FinishKeepsCompletions(s: State, a: Action, t: State)
    requires a.FinishHead? && Next(s, a, t) && Inv(s)
    ensures CompletedBehind(t)
    ensures s.rows[s.workers[a.worker].todo[0]].lockedBy == Some(a.worker)
  {
    var w, id := a.worker, s.workers[a.worker].todo[0];
    assert BatchIntact(s, w) && id in s.workers[w].todo;
    assert LeaseIntact(s.rows, id, w, s.workers[w].claimedAt);
    AdvanceMovesOn(s.rows[id], s.now, a.result, a.cronNext);
    hide BatchIntact, LeftBehind, Advanced;
    forall i, j | 0 <= i < j < |t.completed| && t.completed[i].id == t.completed[j].id
      ensures t.completed[i].due < t.completed[j].due
    {
      assert t.completed[i] == s.completed[i] && s.completed[i] in s.completed;
    }
  }

  /** A finishing worker releases its own lease, never another's. */
  lemma FinishKeepsInv(s: State, a: Action, t: State)
    requires a.FinishHead? && Next(s, a, t) && Inv(s)
    ensures Inv(t)
    ensures s.rows[s.workers[a.worker].todo[0]].lockedBy == Some(a.worker)
  {
    FinishKeepsCompletions(s, a, t);
    forall v | v in t.workers
      ensures BatchIntact(t, v) && LeftBehind(t, v)
    {
      FinishKeepsBatch(s, a, t, v);
    }
  }

  /** Every step from a timely state keeps the invariant. */
  lemma StepKeepsInv(s: State, a: Action, t: State)
    requires Next(s, a, t) && Inv(s) && Timely(s)
    ensures Inv(t)
  {
    match a {
      case Claim(_, _, _) => ClaimKeepsInv(s, a, t);
      case FinishHead(_, _, _) => FinishKeepsInv(s, a, t);
      case _ =>
        forall w | w in t.workers
          ensures BatchIntact(t, w) && LeftBehind(t, w)
        {
          assert BatchIntact(s, w) && LeftBehind(s, w);
        }
    }
  }

  // ---------- whole runs ----------

  ghost predicate IsRun(states: seq<State>, actions: seq<Action>) {
    && |states| == |actions| + 1 && Start(states[0])
    && forall i :: 0 <= i < |actions| ==> Next(states[i], actions[i], states[i + 1])
  }

  lemma {:induction false} RunKeepsInv(states: seq<State>, actions: seq<Action>, n: nat)
    requires IsRun(states, actions) && n < |states|
    requires forall i :: 0 <= i < |states| - 1 ==> Timely(states[i])
    ensures Inv(states[n])
  {
    hide Inv, Next;
    if n == 0 {
      StartHasInv(states[0]);
    } else {
      RunKeepsInv(states, actions, n - 1);
      assert Next(states[n - 1], actions[n - 1], states[n - 1 + 1]);
      StepKeepsInv(states[n - 1], actions[n - 1], states[n]);
    }
  }

  lemma StartHasInv(s: State)
    requires Start(s)
    ensures Inv(s)
  {
  }

  /** A finishing worker finds its own lock on the row it releases. */
  ghost predicate ReleasesOwn(s: State, a: Action) {
    a.FinishHead? ==>
      && a.worker in s.workers && s.workers[a.worker].Working? && s.workers[a.worker].todo != []
      && s.workers[a.worker].todo[0] in s.rows
      && s.rows[s.workers[a.worker].todo[0]].lockedBy == Some(a.worker)
  }

  ghost predicate NoneTwice(s: State) {
    Distinct(s.completed)
  }

  /** If every live worker stays within its lease, then throughout any run no two
      workers hold the same schedule, no finishing worker clears a lease that is not
      its own, and no due instant of a schedule is completed twice. */
  lemma LeasesExclude(states: seq<State>, actions: seq<Action>)
    requires IsRun(states, actions)
    requires forall i :: 0 <= i < |states| - 1 ==> Timely(states[i])
    ensures forall i :: 0 <= i < |states| ==> Exclusive(states[i])
    ensures forall i :: 0 <= i < |actions| ==> ReleasesOwn(states[i], actions[i])
    ensures forall i :: 0 <= i < |states| ==> NoneTwice(states[i])
  {
    forall n | 0 <= n < |states|
      ensures Exclusive(states[n]) && NoneTwice(states[n])
    {
      RunKeepsInv(states, actions, n);
      InvMeansExclusive(states[n]);
    }
    forall i | 0 <= i < |actions|
      ensures ReleasesOwn(states[i], actions[i])
    {
      RunKeepsInv(states, actions, i);
      assert Next(states[i], actions[i], states[i + 1]);
      if actions[i].FinishHead? {
        FinishKeepsInv(states[i], actions[i], states[i + 1]);
      }
    }
  }

  /** The lease protects a schedule exactly as long as it lasts: what a live worker
      holds can be claimed by another if and only if its batch has outlived the lease. */
  lemma HeldIsDueExactlyWhenOverrun(s: State, w: Worker, id: Id)
    requires Inv(s) && Holds(s, w, id)
    ensures id in DueIds(s.rows, s.now) <==> s.now > s.workers[w].claimedAt + LEASE_MINUTES
  {
    assert BatchIntact(s, w);
    assert LeaseIntact(s.rows, id, w, s.workers[w].claimedAt);
  }

  /** A dead worker's schedule that nobody took over becomes claimable exactly when
      its lease has passed. */
  lemma DeadWorkersLeaseExpires(s: State, w: Worker, id: Id)
    requires Inv(s) && w in s.workers && s.workers[w].Dead? && id in s.workers[w].todo
    requires id in s.rows && s.rows[id].lockedBy == Some(w)
    ensures id in DueIds(s.rows, s.now) <==> s.now > s.workers[w].claimedAt + LEASE_MINUTES
  {
    assert LeftBehind(s, w);
    assert LeaseIntact(s.rows, id, w, s.workers[w].claimedAt);
  }

  /** An overrun does break exclusion: once a live worker's batch outlives its lease,
      an idle worker's next claim that is not cut short takes the same schedule. */
  lemma OverrunBreaksExclusion(s: State, w: Worker, id: Id, other: Worker, limit: nat, ids: seq<Id>)
    returns (t: State)
    requires Inv(s) && Holds(s, w, id) && !InTime(s, w)
    requires other in s.workers && s.workers[other].Idle?
    requires DueSelection(s.rows, s.now, limit, ids) && limit >= |DueIds(s.rows, s.now)|
    ensures Next(s, Claim(other, limit, ids), t)
    ensures Holds(t, w, id) && Holds(t, other, id) && w != other && !Exclusive(t)
  {
    HeldIsDueExactlyWhenOverrun(s, w, id);
    AllDueSelected(s.rows, s.now, limit, ids, id);
    t := s.(rows := WithLeases(s.rows, ids, other, s.now),
            workers := s.workers[other := if ids == [] then Idle else Working(s.now, ids)]);
    assert Holds(t, w, id) && Holds(t, other, id);
  }

  lemma AllDueSelected(rows: map<Id, Row>, now: Time, limit: nat, ids: seq<Id>, id: Id)
    requires DueSelection(rows, now, limit, ids) && limit >= |DueIds(rows, now)| && id in DueIds(rows, now)
    ensures id in ids
  {
    if id !in ids {
      DistinctFits(ids, DueIds(rows, now) - {id});
    }
  }
}

/** Approvals: raising, deciding, sweeping, expiring, and replaying the stored action. */
module Approvals {
  import opened Common
  import P = ApprovalPolicy

  type Id = string
  type Time = int  // hours

  const EXPIRY := 21 * 24

  datatype Status = Pending | Approved | Rejected | ChangesRequested | AutoApproved | Executed | Failed | Expired

  datatype Approval = Approval(
    status: Status,
    rule: P.Rule,
    tool: string,
    autoApproveAt: Option<Time>,
    expiresAt: Time,
    decidedAt: Option<Time>,
    decidedBy: Option<string>,
    executedAt: Option<Time>)

  datatype DecideError = NotFound | AlreadyDecided | UnknownDecision

  datatype Event =
    | Raised(id: Id)
    | Decided(id: Id, decision: Status)  // by a person
    | Swept(id: Id)                      // approved by a standing instruction
    | Lapsed(id: Id)
    | Performed(id: Id)                  // the stored action reached the executor

  /** Some release of the action precedes position `j`: a person's approval, or the
      sweep where the rule leaves room for it. */
  ghost predicate ReleasedBefore(a: Approval, id: Id, history: seq<Event>, j: nat) {
    exists i :: 0 <= i < j && i < |history| &&
      (history[i] == Decided(id, Approved) || (history[i] == Swept(id) && !P.HumanOnly(a.rule)))
  }

  /** Every performance was released first, and none is repeated. */
  ghost predicate SafelyPerformed(a: Approval, id: Id, history: seq<Event>) {
    && (forall j :: 0 <= j < |history| && history[j] == Performed(id) ==> ReleasedBefore(a, id, history, j))
    && (forall i, j :: 0 <= i < j < |history| && history[i] == Performed(id) ==> history[j] != Performed(id))
  }

  ghost predicate ApprovalOk(a: Approval, id: Id, history: seq<Event>) {
    && SafelyPerformed(a, id, history)
    && (P.HumanOnly(a.rule) ==> a.autoApproveAt.None?)
    && (a.executedAt.None? ==> Performed(id) !in history)
    && (a.status == Pending ==> a.executedAt.None?)
    && (a.status == Approved ==> Decided(id, Approved) in history)
    && (a.status == AutoApproved ==> Swept(id) in history && !P.HumanOnly(a.rule))
  }

  lemma EventElsewhere(a: Approval, id: Id, history: seq<Event>, e: Event)
    requires ApprovalOk(a, id, history) && e != Performed(id)
    ensures ApprovalOk(a, id, history + [e])
  {
    var longer := history + [e];
    forall j | 0 <= j < |longer| && longer[j] == Performed(id)
      ensures ReleasedBefore(a, id, longer, j)
    {
      assert history[j] == Performed(id) && ReleasedBefore(a, id, history, j);
      var i :| 0 <= i < j && i < |history| &&
               (history[i] == Decided(id, Approved) || (history[i] == Swept(id) && !P.HumanOnly(a.rule)));
      assert longer[i] == history[i];
    }
  }

  /** Performing keeps the promise if and only if a release came before. */
  lemma PerformNow(a: Approval, id: Id, history: seq<Event>, b: Approval)
    requires ApprovalOk(a, id, history) && a.executedAt.None?
    requires b.rule == a.rule && b.autoApproveAt == a.autoApproveAt && b.executedAt.Some? && b.status in {Executed, Failed}
    ensures ApprovalOk(b, id, history + [Performed(id)]) <==> ReleasedBefore(a, id, history, |history|)
  {
    var longer := history + [Performed(id)];
    assert longer[|history|] == Performed(id);
    assert forall i :: 0 <= i < |history| ==> longer[i] == history[i];
    assert ReleasedBefore(b, id, longer, |history|) <==> ReleasedBefore(a, id, history, |history|);
    forall j | 0 <= j < |longer| && longer[j] == Performed(id)
      ensures j == |history|
    {
    }
  }

  lemma StatusMeansReleased(a: Approval, id: Id, history: seq<Event>)
    requires ApprovalOk(a, id, history) && a.status in {Approved, AutoApproved}
    ensures ReleasedBefore(a, id, history, |history|)
  {
    var release := if a.status == Approved then Decided(id, Approved) else Swept(id);
    var i :| 0 <= i < |history| && history[i] == release;
  }

  /** Whether the executor reports success for an approval's action. */
  type Executor = Id -> bool

  class ApprovalsService {
    var approvals: map<Id, Approval>
    const executor: Option<Executor>
    ghost var history: seq<Event>

    constructor (executor: Option<Executor>)
      ensures Valid() && approvals == map[] && history == [] && this.executor == executor
    {
      approvals := map[];
      history := [];
      this.executor := executor;
    }

    ghost predicate Valid()
      reads this
    {
      && (forall id :: id in approvals ==> ApprovalOk(approvals[id], id, history))
      && (forall j :: 0 <= j < |history| ==> history[j].id in approvals)
    }

    /** Raises an approval for a policy decision that asked for one. */
    method RequestApproval(id: Id, tool: P.Tool, args: P.Args, site: P.SitePolicy, now: Time)
      requires Valid() && id !in approvals && P.Evaluate(site, tool, args).requiresApproval
      modifies this
      ensures Valid() && history == old(history) + [Raised(id)]
      ensures var d := P.Evaluate(site, tool, args);
              approvals == old(approvals)[id := Approval(
                Pending, d.rule, tool.name,
                if d.autoApproveAfter.Some? then Some(now + d.autoApproveAfter.value) else None,
                now + EXPIRY, None, None, None)]
    {
      var d := P.Evaluate(site, tool, args);
      P.WaitingPeriodsAreNarrow(site, tool, args);
      hide P.Evaluate, SafelyPerformed;
      var autoApproveAt := if d.autoApproveAfter.Some? then Some(now + d.autoApproveAfter.value) else None;
      var raised := Approval(Pending, d.rule, tool.name, autoApproveAt, now + EXPIRY, None, None, None);
      forall other | other in approvals
        ensures ApprovalOk(approvals[other], other, history + [Raised(id)])
      {
        EventElsewhere(approvals[other], other, history, Raised(id));
      }
      NothingYet(raised, id, history);
      EventElsewhere(raised, id, history, Raised(id));
      approvals := approvals[id := raised];
      history := history + [Raised(id)];
    }

    lemma NothingYet(a: Approval, id: Id, history: seq<Event>)
      requires forall j :: 0 <= j < |history| ==> history[j].id != id
      requires P.HumanOnly(a.rule) ==> a.autoApproveAt.None?
      requires a.status == Pending && a.executedAt.None?
      ensures ApprovalOk(a, id, history)
    {
    }

    /** The approval after its status moved without performing anything. */
    method Record(id: Id, after: Approval, e: Event)
      requires Valid() && id in approvals && e.id == id && !e.Performed?
      requires after.rule == approvals[id].rule && after.autoApproveAt == approvals[id].autoApproveAt
      requires after.executedAt.Some? || approvals[id].executedAt.None?
      requires after.status == Pending ==> after.executedAt.None?
      requires after.status == Approved ==> e == Decided(id, Approved)
      requires after.status == AutoApproved ==> e == Swept(id) && !P.HumanOnly(after.rule)
      modifies this
      ensures Valid() && approvals == old(approvals)[id := after] && history == old(history) + [e]
    {
      hide P.HumanOnly;
      forall other | other in approvals
        ensures ApprovalOk(approvals[other], other, history + [e])
      {
        EventElsewhere(approvals[other], other, history, e);
      }
      MoveStatus(approvals[id], after, id, history, e);
      approvals := approvals[id := after];
      history := history + [e];
    }

    lemma MoveStatus(a: Approval, after: Approval, id: Id, history: seq<Event>, e: Event)
      requires ApprovalOk(a, id, history + [e])
      requires after.rule == a.rule && after.autoApproveAt == a.autoApproveAt
      requires after.executedAt.Some? || a.executedAt.None?
      requires after.status == Pending ==> after.executedAt.None?
      requires after.status == Approved ==> e == Decided(id, Approved)
      requires after.status == AutoApproved ==> e == Swept(id) && !P.HumanOnly(after.rule)
      ensures ApprovalOk(after, id, history + [e])
    {
      forall j | 0 <= j < |history + [e]| && (history + [e])[j] == Performed(id)
        ensures ReleasedBefore(after, id, history + [e], j)
      {
        assert ReleasedBefore(a, id, history + [e], j);
      }
      assert (history + [e])[|history|] == e;
    }

    /** A person's decision; an approval is executed at once. */
    method Decide(id: Id, decision: Status, user: string, now: Time) returns (r: Result<Approval, DecideError>)
      requires Valid()
      modifies this
      ensures Valid()
      ensures r == Err(NotFound) <==> id !in old(approvals)
      ensures r == Err(AlreadyDecided) <==> id in old(approvals) && old(approvals)[id].status != Pending
      ensures r == Err(UnknownDecision) <==>
                id in old(approvals) && old(approvals)[id].status == Pending && decision !in {Approved, Rejected, ChangesRequested}
      ensures r.Err? ==> approvals == old(approvals) && history == old(history)
      ensures r.Ok? ==>
                && var decided := old(approvals)[id].(status := decision, decidedAt := Some(now), decidedBy := Some(user));
                && r.value == (if decision == Approved then Replayed(id, decided, now) else decided)
                && approvals == old(approvals)[id := r.value]
                && history == old(history) + [Decided(id, decision)] +
                   (if decision == Approved && Performs(decided) then [Performed(id)] else [])
    {
      if id !in approvals {
        return Err(NotFound);
      }
      if approvals[id].status != Pending {
        return Err(AlreadyDecided);
      }
      if decision != Approved && decision != Rejected && decision != ChangesRequested {
        return Err(UnknownDecision);
      }
      PendingNotExecuted(id);
      hide Valid, Replayed, Performs, P.HumanOnly;
      var decided := approvals[id].(status := decision, decidedAt := Some(now), decidedBy := Some(user));
      Record(id, decided, Decided(id, decision));
      if decision == Approved {
        ApprovedIsReleased(id);
        Execute(id, now);
      }
      r := Ok(approvals[id]);
    }

    /** Whether replaying an approval reaches the executor. */
    predicate Performs(a: Approval) {
      a.executedAt.None? && a.tool != "" && executor.Some?
    }

    /** An approval after its stored action has been replayed. */
    function Replayed(id: Id, a: Approval, now: Time): Approval {
      if a.executedAt.Some? then a
      else if a.tool == "" then a.(status := Executed, executedAt := Some(now))
      else if executor.None? then a
      else a.(status := if executor.value(id) then Executed else Failed, executedAt := Some(now))
    }

    /** What a replay leaves behind: executed if the executor reports success or there was
        nothing to do, failed if it reports failure; nothing happens to what was executed
        before, nor, while there is something to do, without an executor. */
    ghost predicate Outcome(id: Id, before: Approval, now: Time, after: Approval) {
      if before.executedAt.Some? then after == before
      else if before.tool == "" || (executor.Some? && executor.value(id)) then
        after == before.(status := Executed, executedAt := Some(now))
      else if executor.Some? then after == before.(status := Failed, executedAt := Some(now))
      else after == before
    }

    /** Replays the stored action, without a look at the status: that keeps the promise if
        and only if the action does not reach the executor or was released before. */
    method Execute(id: Id, now: Time)
      requires Valid() && id in approvals
      modifies this
      ensures approvals == old(approvals)[id := Replayed(id, old(approvals)[id], now)]
      ensures history == old(history) + (if Performs(old(approvals)[id]) then [Performed(id)] else [])
      ensures Outcome(id, old(approvals)[id], now, approvals[id])
      ensures Valid() <==> !Performs(old(approvals)[id]) ||
                           ReleasedBefore(old(approvals)[id], id, old(history), |old(history)|)
    {
      var a := approvals[id];
      assert ApprovalOk(a, id, history);
      if a.executedAt.Some? {
        return;
      }
      if a.tool == "" {
        assert ApprovalOk(a.(status := Executed, executedAt := Some(now)), id, history) by { Close(a, id, history, now); }
        approvals := approvals[id := a.(status := Executed, executedAt := Some(now))];
        return;
      }
      if executor.None? {
        return;
      }
      var ok := executor.value(id);
      var after := a.(status := if ok then Executed else Failed, executedAt := Some(now));
      PerformNow(a, id, history, after);
      forall other | other in approvals && other != id
        ensures ApprovalOk(approvals[other], other, history + [Performed(id)])
      {
        EventElsewhere(approvals[other], other, history, Performed(id));
      }
      hide ApprovalOk;
      history := history + [Performed(id)];
      approvals := approvals[id := after];
    }

    /** What stands approved was released. */
    lemma ApprovedIsReleased(id: Id)
      requires Valid() && id in approvals && approvals[id].status in {Approved, AutoApproved}
      ensures ReleasedBefore(approvals[id], id, history, |history|)
    {
      StatusMeansReleased(approvals[id], id, history);
    }

    lemma Close(a: Approval, id: Id, history: seq<Event>, now: Time)
      requires ApprovalOk(a, id, history)
      ensures ApprovalOk(a.(status := Executed, executedAt := Some(now)), id, history)
    {
      forall j | 0 <= j < |history| && history[j] == Performed(id)
        ensures ReleasedBefore(a.(status := Executed, executedAt := Some(now)), id, history, j)
      {
        assert ReleasedBefore(a, id, history, j);
      }
    }

    ghost function Sweepable(now: Time): set<Id>
      reads this
    {
      set id | id in approvals && approvals[id].status == Pending
               && approvals[id].autoApproveAt.Some? && approvals[id].autoApproveAt.value <= now
    }

    /** The approval of one swept item. */
    function SweptTo(id: Id, a: Approval, now: Time): Approval {
      Replayed(id, a.(status := AutoApproved, decidedAt := Some(now)), now)
    }

    function SweepEvents(ids: seq<Id>, before: map<Id, Approval>): seq<Event>
      requires forall id :: id in ids ==> id in before
    {
      if ids == [] then []
      else
        var id := ids[|ids| - 1];
        SweepEvents(ids[..|ids| - 1], before) + [Swept(id)]
        + (if Performs(before[id].(status := AutoApproved)) then [Performed(id)] else [])
    }

    function AfterSweep(before: map<Id, Approval>, ids: seq<Id>, now: Time): map<Id, Approval> {
      map id | id in before :: if id in ids then SweptTo(id, before[id], now) else before[id]
    }

    lemma OneMoreSwept(before: map<Id, Approval>, ids: seq<Id>, id: Id, now: Time)
      requires id in before && id !in ids && forall i :: i in ids ==> i in before
      ensures id in AfterSweep(before, ids, now) && AfterSweep(before, ids, now)[id] == before[id]
      ensures AfterSweep(before, ids + [id], now) == AfterSweep(before, ids, now)[id := SweptTo(id, before[id], now)]
      ensures forall i :: i in ids + [id] ==> i in before
      ensures SweepEvents(ids + [id], before) == SweepEvents(ids, before) + [Swept(id)]
              + (if Performs(before[id].(status := AutoApproved)) then [Performed(id)] else [])
    {
      hide SweptTo;
      assert (ids + [id])[..|ids|] == ids;
    }

    /** Standing instructions: up to `limit` of the pending items whose waiting period
        is over are approved and executed; nothing else changes. */
    method SweepAutoApprovals(limit: nat, now: Time) returns (ids: seq<Id>)
      requires Valid()
      modifies this
      ensures Valid()
      ensures Distinct(ids) && |ids| == Min(limit, |old(Sweepable(now))|)
      ensures forall id :: id in ids ==> id in old(Sweepable(now)) && !P.HumanOnly(old(approvals)[id].rule)
      ensures forall id :: id in old(approvals) && id in ids ==> Waited(old(approvals)[id], now)
      ensures |ids| < limit ==> forall id :: id in old(approvals) && Waited(old(approvals)[id], now) ==> id in ids
      ensures approvals == AfterSweep(old(approvals), ids, now)
      ensures history == old(history) + SweepEvents(ids, old(approvals))
    {
      hide P.HumanOnly, SweptTo, Valid, SweepEvents, Performs, AfterSweep, Waited, Sweeping, Distinct;
      ghost var before, due := approvals, Sweepable(now);
      var rest := set id | id in approvals && approvals[id].status == Pending
                           && approvals[id].autoApproveAt.Some? && approvals[id].autoApproveAt.value <= now;
      ids := [];
      NothingSwept(before, due, now);
      while rest != {} && |ids| < limit
        invariant Valid() && Sweeping(before, due, ids, rest) && |ids| <= limit
        invariant forall id :: id in ids ==> id in before
        invariant approvals == AfterSweep(before, ids, now)
        invariant history == old(history) + SweepEvents(ids, before)
        decreases |rest|
      {
        var id :| id in rest;
        StillToSweep(before, due, ids, rest, id);
        OneMoreSwept(before, ids, id, now);
        SweepOne(id, now);
        SweepOn(before, due, ids, rest, id);
        ids := ids + [id];
        rest := rest - {id};
      }
      SweepEnds(before, due, ids, rest);
      SweepableExactly(before, due, now);
    }

    /** The sweep while it is under way: `ids` swept, `rest` still to be swept. */
    ghost predicate Sweeping(before: map<Id, Approval>, due: set<Id>, ids: seq<Id>, rest: set<Id>) {
      && Distinct(ids) && rest <= due <= before.Keys && due <= ToSet(ids) + rest
      && |ids| + |rest| == |due|
      && (forall id :: id in due ==> before[id].status == Pending && before[id].autoApproveAt.Some?)
      && (forall id :: id in ids ==> id in due && id !in rest && !P.HumanOnly(before[id].rule))
    }

    lemma StillToSweep(before: map<Id, Approval>, due: set<Id>, ids: seq<Id>, rest: set<Id>, id: Id)
      requires Sweeping(before, due, ids, rest) && id in rest
      ensures id in before && id !in ids && (forall i :: i in ids ==> i in before)
      ensures before[id].status == Pending && before[id].autoApproveAt.Some?
    {
    }

    lemma SweepOn(before: map<Id, Approval>, due: set<Id>, ids: seq<Id>, rest: set<Id>, id: Id)
      requires Sweeping(before, due, ids, rest) && id in rest && !P.HumanOnly(before[id].rule)
      ensures Sweeping(before, due, ids + [id], rest - {id})
    {
      hide P.HumanOnly;
      assert |rest - {id}| == |rest| - 1 && ToSet(ids + [id]) == ToSet(ids) + {id};
      assert Distinct(ids + [id]);
    }

    lemma SweepEnds(before: map<Id, Approval>, due: set<Id>, ids: seq<Id>, rest: set<Id>)
      requires Sweeping(before, due, ids, rest)
      ensures Distinct(ids) && |ids| + |rest| == |due| && forall id :: id in ids ==> id in due && id in before && !P.HumanOnly(before[id].rule)
      ensures rest == {} ==> forall id :: id in due ==> id in ids
    {
      hide P.HumanOnly;
    }

    /** Its waiting period is over and nobody has decided. */
    ghost predicate Waited(a: Approval, now: Time) {
      a.status == Pending && exists at :: a.autoApproveAt == Some(at) && at <= now
    }

    lemma SweepableExactly(before: map<Id, Approval>, due: set<Id>, now: Time)
      requires due == set id | id in before && before[id].status == Pending
                               && before[id].autoApproveAt.Some? && before[id].autoApproveAt.value <= now
      ensures forall id :: id in before ==> (id in due <==> Waited(before[id], now))
    {
    }

    lemma NothingSwept(before: map<Id, Approval>, due: set<Id>, now: Time)
      requires forall id :: id in due ==> id in before && before[id].status == Pending && before[id].autoApproveAt.Some?
      ensures AfterSweep(before, [], now) == before && SweepEvents([], before) == []
      ensures Sweeping(before, due, [], due)
    {
    }

    method SweepOne(id: Id, now: Time)
      requires Valid() && id in approvals && approvals[id].status == Pending && approvals[id].autoApproveAt.Some?
      modifies this
      ensures Valid() && !P.HumanOnly(old(approvals)[id].rule)
      ensures approvals == old(approvals)[id := SweptTo(id, old(approvals)[id], now)]
      ensures history == old(history) + [Swept(id)] +
                (if Performs(old(approvals)[id].(status := AutoApproved)) then [Performed(id)] else [])
    {
      assert ApprovalOk(approvals[id], id, history);
      Record(id, approvals[id].(status := AutoApproved, decidedAt := Some(now)), Swept(id));
      ApprovedIsReleased(id);
      Execute(id, now);
    }

    ghost function Stale(now: Time): set<Id>
      reads this
    {
      set id | id in approvals && approvals[id].status == Pending && approvals[id].expiresAt <= now
    }

    ghost function AfterExpiry(before: map<Id, Approval>, lapsed: set<Id>): map<Id, Approval> {
      map id | id in before :: if id in lapsed then before[id].(status := Expired) else before[id]
    }

    lemma OneMoreExpired(before: map<Id, Approval>, lapsed: set<Id>, id: Id)
      requires id in before && id !in lapsed
      ensures id in AfterExpiry(before, lapsed) && AfterExpiry(before, lapsed)[id] == before[id]
      ensures AfterExpiry(before, lapsed + {id}) == AfterExpiry(before, lapsed)[id := before[id].(status := Expired)]
    {
    }

    lemma NothingExpired(before: map<Id, Approval>)
      ensures AfterExpiry(before, {}) == before
    {
    }

    /** The events since then: one lapse of each of these approvals, and no more. */
    ghost predicate OnlyLapsed(before: seq<Event>, after: seq<Event>, lapsed: set<Id>) {
      && before <= after
      && (forall j :: |before| <= j < |after| ==> after[j].Lapsed? && after[j].id in lapsed)
      && (forall id :: id in lapsed ==> Lapsed(id) in after[|before|..])
    }

    lemma NothingLapsed(history: seq<Event>)
      ensures OnlyLapsed(history, history, {})
    {
    }

    lemma OneMoreLapsed(before: seq<Event>, after: seq<Event>, lapsed: set<Id>, id: Id)
      requires OnlyLapsed(before, after, lapsed)
      ensures OnlyLapsed(before, after + [Lapsed(id)], lapsed + {id})
    {
      assert (after + [Lapsed(id)])[|before|..] == after[|before|..] + [Lapsed(id)];
    }

    method ExpireOne(id: Id)
      requires Valid() && id in approvals && approvals[id].status == Pending
      modifies this
      ensures Valid() && history == old(history) + [Lapsed(id)]
      ensures approvals == old(approvals)[id := old(approvals)[id].(status := Expired)]
    {
      PendingNotExecuted(id);
      hide Valid;
      Record(id, approvals[id].(status := Expired), Lapsed(id));
    }

    /** Pending approvals past their expiry lapse; nothing is performed. */
    method ExpireStale(now: Time) returns (count: nat)
      requires Valid()
      modifies this
      ensures Valid() && count == |old(Stale(now))|
      ensures approvals == AfterExpiry(old(approvals), old(Stale(now)))
      ensures OnlyLapsed(old(history), history, old(Stale(now)))
      ensures approvals.Keys == old(approvals).Keys
      ensures forall id :: id in approvals ==>
                var a := old(approvals)[id];
                approvals[id] == if a.status == Pending && a.expiresAt <= now then a.(status := Expired) else a
    {
      hide Valid, OnlyLapsed;
      ghost var before, stale := approvals, Stale(now);
      var rest := set id | id in approvals && approvals[id].status == Pending && approvals[id].expiresAt <= now;
      count := 0;
      NothingExpired(before);
      NothingLapsed(history);
      assert stale - rest == {};
      hide AfterExpiry;
      while rest != {}
        invariant Valid() && rest <= stale && count + |rest| == |stale|
        invariant approvals == AfterExpiry(before, stale - rest)
        invariant OnlyLapsed(old(history), history, stale - rest)
        decreases |rest|
      {
        var id :| id in rest;
        OneMoreExpired(before, stale - rest, id);
        OneMoreLapsed(old(history), history, stale - rest, id);
        ExpireOne(id);
        assert stale - (rest - {id}) == stale - rest + {id};
        rest := rest - {id};
        count := count + 1;
      }
      assert stale - rest == stale;
      AfterExpiryMeaning(before, stale);
    }

    lemma AfterExpiryMeaning(before: map<Id, Approval>, lapsed: set<Id>)
      ensures AfterExpiry(before, lapsed).Keys == before.Keys
      ensures forall id :: id in before ==>
                AfterExpiry(before, lapsed)[id] == if id in lapsed then before[id].(status := Expired) else before[id]
    {
    }

    // ---------- what the events tell ----------

    /** An approval stands where the events about it have brought it. It is rejected, sent
        back or expired exactly if it was decided so or has lapsed. If it was released its
        action was tried at once and it is executed or failed, as the executor answered,
        unless there is no executor to try it. */
    ghost predicate Settled(a: Approval, id: Id, events: seq<Event>) {
      && (a.status == Rejected <==> Decided(id, Rejected) in events)
      && (a.status == ChangesRequested <==> Decided(id, ChangesRequested) in events)
      && (a.status == Expired <==> Lapsed(id) in events)
      && (a.status in {Approved, AutoApproved, Executed, Failed} <==> Decided(id, Approved) in events || Swept(id) in events)
      && (a.status in {Approved, AutoApproved} ==> a.tool != "" && executor.None?)
      && (a.status == Executed ==> a.tool == "" || (executor.Some? && executor.value(id)))
      && (a.status == Failed ==> a.tool != "" && executor.Some? && !executor.value(id))
      && (a.executedAt.Some? <==> a.status in {Executed, Failed})
      && (Performed(id) in events <==> a.executedAt.Some? && a.tool != "")
    }

    ghost predicate AllSettled(all: map<Id, Approval>, events: seq<Event>) {
      forall id :: id in all ==> Settled(all[id], id, events)
    }

    lemma StaysSettled(a: Approval, id: Id, events: seq<Event>, more: seq<Event>)
      requires Settled(a, id, events) && forall e :: e in more ==> e.id != id
      ensures Settled(a, id, events + more)
    {
    }

    lemma RaisedSettles(a: Approval, id: Id, events: seq<Event>)
      requires forall e :: e in events ==> e.id != id
      requires a.status == Pending && a.executedAt.None?
      ensures Settled(a, id, events + [Raised(id)])
    {
    }

    lemma DecidedSettles(a: Approval, id: Id, events: seq<Event>, decision: Status, now: Time, user: string)
      requires Settled(a, id, events) && a.status == Pending && decision in {Approved, Rejected, ChangesRequested}
      ensures var decided := a.(status := decision, decidedAt := Some(now), decidedBy := Some(user));
              Settled(if decision == Approved then Replayed(id, decided, now) else decided, id,
                      events + [Decided(id, decision)] + (if decision == Approved && Performs(decided) then [Performed(id)] else []))
    {
    }

    lemma SweptSettles(a: Approval, id: Id, events: seq<Event>, more: seq<Event>, now: Time)
      requires Settled(a, id, events) && a.status == Pending && Swept(id) in more
      requires forall e :: e in more && e.id == id ==> e in {Swept(id), Performed(id)}
      requires Performed(id) in more <==> Performs(a)
      ensures Settled(SweptTo(id, a, now), id, events + more)
    {
    }

    lemma LapsedSettles(a: Approval, id: Id, events: seq<Event>, more: seq<Event>)
      requires Settled(a, id, events) && a.status == Pending && Lapsed(id) in more && forall e :: e in more ==> e.Lapsed?
      ensures Settled(a.(status := Expired), id, events + more)
    {
    }

    lemma {:induction false} SweepEventsTell(ids: seq<Id>, before: map<Id, Approval>, e: Event)
      requires forall id :: id in ids ==> id in before
      ensures e in SweepEvents(ids, before) <==>
              e.id in ids && (e == Swept(e.id) || (e == Performed(e.id) && Performs(before[e.id])))
    {
      if ids != [] {
        SweepEventsTell(ids[..|ids| - 1], before, e);
        assert ids == ids[..|ids| - 1] + [ids[|ids| - 1]];
      }
    }

    lemma DecideSettlesAll(before: map<Id, Approval>, events: seq<Event>, id: Id, decision: Status, now: Time, user: string)
      requires AllSettled(before, events) && id in before && before[id].status == Pending
      requires decision in {Approved, Rejected, ChangesRequested}
      ensures var decided := before[id].(status := decision, decidedAt := Some(now), decidedBy := Some(user));
              AllSettled(before[id := if decision == Approved then Replayed(id, decided, now) else decided],
                         events + [Decided(id, decision)] + (if decision == Approved && Performs(decided) then [Performed(id)] else []))
    {
      hide Settled, Replayed, Performs;
      var decided := before[id].(status := decision, decidedAt := Some(now), decidedBy := Some(user));
      var more := [Decided(id, decision)] + (if decision == Approved && Performs(decided) then [Performed(id)] else []);
      DecidedSettles(before[id], id, events, decision, now, user);
      assert events + more == events + [Decided(id, decision)] + (if decision == Approved && Performs(decided) then [Performed(id)] else []);
      forall other | other in before && other != id
        ensures Settled(before[other], other, events + more)
      {
        StaysSettled(before[other], other, events, more);
      }
    }

    lemma RaiseSettlesAll(before: map<Id, Approval>, events: seq<Event>, id: Id, raised: Approval)
      requires AllSettled(before, events) && id !in before && forall j :: 0 <= j < |events| ==> events[j].id in before
      requires raised.status == Pending && raised.executedAt.None?
      ensures AllSettled(before[id := raised], events + [Raised(id)])
    {
      hide Settled;
      RaisedSettles(raised, id, events);
      forall other | other in before
        ensures Settled(before[other], other, events + [Raised(id)])
      {
        StaysSettled(before[other], other, events, [Raised(id)]);
      }
    }

    lemma SweepSettlesAll(before: map<Id, Approval>, events: seq<Event>, ids: seq<Id>, now: Time)
      requires AllSettled(before, events)
      requires forall id :: id in ids ==> id in before && before[id].status == Pending
      ensures AllSettled(AfterSweep(before, ids, now), events + SweepEvents(ids, before))
    {
      hide Settled, SweptTo, SweepEvents, Performs;
      var more := SweepEvents(ids, before);
      forall e
        ensures e in more <==> e.id in ids && (e == Swept(e.id) || (e == Performed(e.id) && Performs(before[e.id])))
      {
        SweepEventsTell(ids, before, e);
      }
      forall id | id in before
        ensures Settled(AfterSweep(before, ids, now)[id], id, events + more)
      {
        if id in ids {
          assert Swept(id) in more && (Performed(id) in more <==> Performs(before[id]));
          SweptSettles(before[id], id, events, more, now);
        } else {
          StaysSettled(before[id], id, events, more);
        }
      }
    }

    lemma ExpirySettlesAll(before: map<Id, Approval>, events: seq<Event>, lapsed: set<Id>, after: seq<Event>)
      requires AllSettled(before, events) && OnlyLapsed(events, after, lapsed)
      requires forall id :: id in lapsed ==> id in before && before[id].status == Pending
      ensures AllSettled(AfterExpiry(before, lapsed), after)
    {
      hide Settled;
      var more := after[|events|..];
      assert after == events + more;
      forall id | id in before
        ensures Settled(AfterExpiry(before, lapsed)[id], id, after)
      {
        if id in lapsed { LapsedSettles(before[id], id, events, more); } else { StaysSettled(before[id], id, events, more); }
      }
    }

    lemma EventsKnown()
      requires Valid()
      ensures forall j :: 0 <= j < |history| ==> history[j].id in approvals
    {
    }

    lemma PendingNotExecuted(id: Id)
      requires Valid() && id in approvals && approvals[id].status == Pending
      ensures approvals[id].executedAt.None?
    {
      assert ApprovalOk(approvals[id], id, history);
    }
  }

  // ---------- whole runs ----------

  datatype Operation =
    | Raise(id: Id, tool: P.Tool, args: P.Args, site: P.SitePolicy)
    | DecideOn(id: Id, decision: Status, user: string)
    | Sweep(limit: nat)
    | Expire

  /** The promise over a whole history: an action is performed at most once, only
      after its release, and by a person's approval where the rule demands one. */
  ghost predicate PromiseKept(approvals: map<Id, Approval>, history: seq<Event>) {
    && (forall i, j :: 0 <= i < j < |history| && history[i].Performed? ==> history[i] != history[j])
    && (forall j :: 0 <= j < |history| && history[j].Performed? ==>
          && history[j].id in approvals
          && ReleasedBefore(approvals[history[j].id], history[j].id, history, j))
  }

  lemma ReservedMeansPerson(approvals: map<Id, Approval>, history: seq<Event>, j: nat)
    requires PromiseKept(approvals, history) && j < |history| && history[j].Performed?
    requires P.HumanOnly(approvals[history[j].id].rule)
    ensures exists i :: 0 <= i < j && history[i] == Decided(history[j].id, Approved)
  {
    assert ReleasedBefore(approvals[history[j].id], history[j].id, history, j);
  }

  /** Any run of operations at any times keeps the promise, and leaves every approval
      where the decisions, sweeps, lapses and the executor's answers have brought it. */
  method Operate(executor: Option<Executor>, operations: seq<Operation>, times: seq<Time>)
    returns (service: ApprovalsService)
    requires |times| == |operations|
    ensures service.Valid() && PromiseKept(service.approvals, service.history)
    ensures service.executor == executor && service.AllSettled(service.approvals, service.history)
  {
    service := new ApprovalsService(executor);
    for k := 0 to |operations|
      invariant service.Valid() && fresh(service)
      invariant service.AllSettled(service.approvals, service.history)
    {
      OperateOnce(service, operations[k], times[k]);
    }
    ValidMeansPromise(service.approvals, service.history);
  }

  method OperateOnce(service: ApprovalsService, operation: Operation, now: Time)
    requires service.Valid() && service.AllSettled(service.approvals, service.history)
    modifies service
    ensures service.Valid() && service.AllSettled(service.approvals, service.history)
  {
    hide service.Valid, service.AllSettled, P.Evaluate, service.SweepEvents, service.AfterSweep, service.Replayed, service.Performs;
    ghost var before, events := service.approvals, service.history;
    match operation {
      case Raise(id, tool, args, site) =>
        if id !in service.approvals && P.Evaluate(site, tool, args).requiresApproval {
          service.EventsKnown();
          service.RequestApproval(id, tool, args, site, now);
          service.RaiseSettlesAll(before, events, id, service.approvals[id]);
        }
      case DecideOn(id, decision, user) =>
        var r := service.Decide(id, decision, user, now);
        if r.Ok? {
          service.DecideSettlesAll(before, events, id, decision, now, user);
        }
      case Sweep(limit) =>
        ghost var due := service.Sweepable(now);
        var ids := service.SweepAutoApprovals(limit, now);
        service.SweepSettlesAll(before, events, ids, now);
      case Expire =>
        ghost var stale := service.Stale(now);
        var count := service.ExpireStale(now);
        service.ExpirySettlesAll(before, events, stale, service.history);
    }
  }

  lemma ValidMeansPromise(approvals: map<Id, Approval>, history: seq<Event>)
    requires forall id :: id in approvals ==> ApprovalOk(approvals[id], id, history)
    requires forall j :: 0 <= j < |history| ==> history[j].id in approvals
    ensures PromiseKept(approvals, history)
  {
    forall j | 0 <= j < |history| && history[j].Performed?
      ensures ReleasedBefore(approvals[history[j].id], history[j].id, history, j)
      ensures forall i :: 0 <= i < j ==> history[i] != history[j]
    {
      var id := history[j].id;
      assert ApprovalOk(approvals[id], id, history) && history[j] == Performed(id);
    }
  }
}

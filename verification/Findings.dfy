/** Findings: merging a scan's drafts, and reconciling them with the stored rows. */
module Findings {
  import opened Common

  /** What a check emits. */
  datatype Draft = Draft(
    code: string,
    url: Option<string>,
    category: string,
    severity: string,
    detail: string,
    affectedUrls: seq<string>)

  /** Identity across scans: the pair the fingerprint hashes. */
  datatype Fingerprint = Fingerprint(code: string, place: string)

  function HasUrl(d: Draft): bool {
    d.url.Some? && d.url.value != ""
  }

  function FingerprintOf(d: Draft): Fingerprint {
    if HasUrl(d) then Fingerprint(d.code, d.url.value)
    else Fingerprint(d.code, if d.affectedUrls != [] then "site-wide" else "")
  }

  /** When two findings are the same problem: one code, and one address, or no address and
      both or neither of them with affected ones. An address spelled `site-wide` is taken
      for the latter. */
  predicate SameProblem(d: Draft, e: Draft) {
    var here, there := d.url.Some? && d.url.value != "", e.url.Some? && e.url.value != "";
    && d.code == e.code
    && if here && there then d.url.value == e.url.value
       else if here then d.url.value == "site-wide" && e.affectedUrls != []
       else if there then e.url.value == "site-wide" && d.affectedUrls != []
       else d.affectedUrls == [] <==> e.affectedUrls == []
  }

  /** Two findings share a fingerprint exactly when they are the same problem. */
  lemma SamePrintExactly(d: Draft, e: Draft)
    ensures FingerprintOf(d) == FingerprintOf(e) <==> SameProblem(d, e)
  {
    assert |"site-wide"| == 9;
  }

  function Prints(drafts: seq<Draft>): set<Fingerprint> {
    set d | d in drafts :: FingerprintOf(d)
  }

  ghost predicate DistinctPrints(drafts: seq<Draft>) {
    forall i, j :: 0 <= i < j < |drafts| ==> FingerprintOf(drafts[i]) != FingerprintOf(drafts[j])
  }

  // ---------- one finding per fingerprint ----------

  /** The addresses a repeated finding contributes to the one already merged. */
  function Contribution(d: Draft): seq<string> {
    if d.affectedUrls != [] then d.affectedUrls else if HasUrl(d) then [d.url.value] else []
  }

  /** Appends the non-empty addresses that are not there yet, in order. */
  function AppendNew(have: seq<string>, more: seq<string>): seq<string>
    decreases |more|
  {
    if more == [] then have
    else AppendNew(if more[0] != "" && more[0] !in have then have + [more[0]] else have, more[1..])
  }

  lemma {:induction false} AppendNewMeaning(have: seq<string>, more: seq<string>)
    ensures have <= AppendNew(have, more)
    ensures forall u :: u in AppendNew(have, more) <==> u in have || (u in more && u != "")
    ensures Distinct(have) ==> Distinct(AppendNew(have, more))
    decreases |more|
  {
    if more != [] {
      assert more == [more[0]] + more[1..];
      var next := if more[0] != "" && more[0] !in have then have + [more[0]] else have;
      AppendNewMeaning(next, more[1..]);
    }
  }

  /** The addresses gathered for a fingerprint over a list of findings: those of its
      first finding, and every address later ones contribute. */
  ghost function Gathered(findings: seq<Draft>, fp: Fingerprint): set<string> {
    if findings == [] then {}
    else
      var front, d := findings[..|findings| - 1], findings[|findings| - 1];
      if FingerprintOf(d) != fp then Gathered(front, fp)
      else if fp in Prints(front) then Gathered(front, fp) + (set u | u in Contribution(d) && u != "")
      else ToSet(d.affectedUrls)
  }

  /** The first finding with a fingerprint. */
  function FirstWith(findings: seq<Draft>, fp: Fingerprint): Draft
    requires fp in Prints(findings)
    decreases |findings|
  {
    var front, d := findings[..|findings| - 1], findings[|findings| - 1];
    if fp in Prints(front) then FirstWith(front, fp)
    else assert d in findings; d
  }

  /** A merged finding is the first of its kind, with all addresses of the kind. */
  ghost predicate MergedFrom(findings: seq<Draft>, m: Draft) {
    var fp := FingerprintOf(m);
    && fp in Prints(findings)
    && m == FirstWith(findings, fp).(affectedUrls := m.affectedUrls)
    && FirstWith(findings, fp).affectedUrls <= m.affectedUrls
    && ToSet(m.affectedUrls) == Gathered(findings, fp)
  }

  function Keys(drafts: seq<Draft>): seq<Fingerprint> {
    seq(|drafts|, i requires 0 <= i < |drafts| => FingerprintOf(drafts[i]))
  }

  /** The fingerprints of a list of findings in order of first sight. */
  function FirstSeen(findings: seq<Draft>): seq<Fingerprint> {
    if findings == [] then []
    else
      var front, fp := findings[..|findings| - 1], FingerprintOf(findings[|findings| - 1]);
      FirstSeen(front) + (if fp in Prints(front) then [] else [fp])
  }

  ghost predicate Deduplicated(findings: seq<Draft>, merged: seq<Draft>) {
    && DistinctPrints(merged)
    && Prints(merged) == Prints(findings)
    && Keys(merged) == FirstSeen(findings)
    && forall m :: m in merged ==> MergedFrom(findings, m)
  }

  function PositionOf(merged: seq<Draft>, fp: Fingerprint): (i: nat)
    requires fp in Prints(merged)
    ensures i < |merged| && FingerprintOf(merged[i]) == fp
  {
    if FingerprintOf(merged[0]) == fp then 0
    else
      assert merged == [merged[0]] + merged[1..];
      1 + PositionOf(merged[1..], fp)
  }

  /** Growing the addresses of a finding does not change which finding it is. */
  lemma SamePrint(d: Draft, more: seq<string>)
    ensures FingerprintOf(d.(affectedUrls := AppendNew(d.affectedUrls, more))) == FingerprintOf(d) ||
            (!HasUrl(d) && d.affectedUrls == [])
  {
    AppendNewMeaning(d.affectedUrls, more);
  }

  lemma PrintsGrow(findings: seq<Draft>, d: Draft)
    ensures (findings + [d])[..|findings|] == findings
    ensures Prints(findings + [d]) == Prints(findings) + {FingerprintOf(d)}
    ensures Keys(findings + [d]) == Keys(findings) + [FingerprintOf(d)]
  {
  }

  lemma OtherKindsUnchanged(findings: seq<Draft>, d: Draft, m: Draft)
    requires MergedFrom(findings, m) && FingerprintOf(m) != FingerprintOf(d)
    ensures MergedFrom(findings + [d], m)
  {
    PrintsGrow(findings, d);
  }

  lemma FirstOfItsKind(findings: seq<Draft>, d: Draft)
    requires FingerprintOf(d) !in Prints(findings)
    ensures MergedFrom(findings + [d], d)
  {
    PrintsGrow(findings, d);
  }

  lemma DedupNew(findings: seq<Draft>, merged: seq<Draft>, d: Draft)
    requires Deduplicated(findings, merged) && FingerprintOf(d) !in Prints(findings)
    ensures Deduplicated(findings + [d], merged + [d])
  {
    hide MergedFrom, FingerprintOf;
    PrintsGrow(findings, d);
    PrintsGrow(merged, d);
    FirstOfItsKind(findings, d);
    forall m | m in merged
      ensures MergedFrom(findings + [d], m) && FingerprintOf(m) != FingerprintOf(d)
    {
      assert FingerprintOf(m) in Prints(merged);
      OtherKindsUnchanged(findings, d, m);
    }
  }

  lemma DedupRepeat(findings: seq<Draft>, merged: seq<Draft>, d: Draft, i: nat)
    requires Deduplicated(findings, merged) && i < |merged| && FingerprintOf(d) == FingerprintOf(merged[i])
    ensures var grown := merged[i].(affectedUrls := AppendNew(merged[i].affectedUrls, Contribution(d)));
            Deduplicated(findings + [d], merged[i := grown])
  {
    var after := findings + [d];
    var grown := merged[i].(affectedUrls := AppendNew(merged[i].affectedUrls, Contribution(d)));
    assert after[..|findings|] == findings;
    assert merged[i] in merged;
    AppendNewMeaning(merged[i].affectedUrls, Contribution(d));
    SamePrint(merged[i], Contribution(d));
    assert FingerprintOf(d) in Prints(merged);
    assert Prints(after) == Prints(findings);
    var updated := merged[i := grown];
    forall j | 0 <= j < |merged|
      ensures FingerprintOf(updated[j]) == FingerprintOf(merged[j])
    {
    }
    assert Keys(updated) == Keys(merged);
    assert Prints(updated) == Prints(merged) by {
      forall fp | fp in Prints(merged)
        ensures fp in Prints(updated)
      {
        var j := PositionOf(merged, fp);
        assert updated[j] in updated;
      }
      forall fp | fp in Prints(updated)
        ensures fp in Prints(merged)
      {
        var j := PositionOf(updated, fp);
        assert merged[j] in merged;
      }
    }
    forall m | m in updated
      ensures MergedFrom(after, m)
    {
      var j :| 0 <= j < |updated| && updated[j] == m;
      assert merged[j] in merged && MergedFrom(findings, merged[j]);
      if j == i {
        assert ToSet(grown.affectedUrls) == ToSet(merged[i].affectedUrls) + (set u | u in Contribution(d) && u != "");
      }
    }
  }

  /** One finding per fingerprint, in order of first sight; repeats merge their addresses. */
  method Deduplicate(findings: seq<Draft>) returns (merged: seq<Draft>)
    ensures Deduplicated(findings, merged)
  {
    merged := [];
    for k := 0 to |findings|
      invariant Deduplicated(findings[..k], merged)
    {
      hide Deduplicated, Contribution, FingerprintOf, AppendNew;
      var d := findings[k];
      var key := FingerprintOf(d);
      assert findings[..k + 1] == findings[..k] + [d];
      SamePrints(findings[..k], merged);
      if key !in Prints(merged) {
        DedupNew(findings[..k], merged, d);
        merged := merged + [d];
      } else {
        var i := PositionOf(merged, key);
        DedupRepeat(findings[..k], merged, d, i);
        var urls := merged[i].affectedUrls;
        var more := Contribution(d);
        for j := 0 to |more|
          invariant AppendNew(merged[i].affectedUrls, more) == AppendNew(urls, more[j..])
        {
          AppendNewUnfolds(urls, more[j..]);
          if more[j] != "" && more[j] !in urls {
            urls := urls + [more[j]];
          }
        }
        AppendNewUnfolds(urls, more[|more|..]);
        merged := merged[i := merged[i].(affectedUrls := urls)];
      }
    }
    assert findings[..|findings|] == findings;
  }

  lemma SamePrints(findings: seq<Draft>, merged: seq<Draft>)
    requires Deduplicated(findings, merged)
    ensures Prints(merged) == Prints(findings)
  {
  }

  lemma AppendNewUnfolds(have: seq<string>, more: seq<string>)
    ensures more == [] ==> AppendNew(have, more) == have
    ensures more != [] ==>
              AppendNew(have, more) ==
              AppendNew(if more[0] != "" && more[0] !in have then have + [more[0]] else have, more[1..])
  {
  }

  /** A repeat adds the address `u`: it is one of its affected ones, or its own if it
      lists none. */
  predicate Adds(d: Draft, u: string) {
    u != "" && if d.affectedUrls != [] then u in d.affectedUrls else d.url == Some(u)
  }

  /** `f` is where the problem of finding `k` is first found. */
  ghost predicate FirstFound(findings: seq<Draft>, k: nat, f: nat) {
    && f <= k < |findings| && SameProblem(findings[f], findings[k])
    && forall i :: 0 <= i < f ==> !SameProblem(findings[i], findings[k])
  }

  lemma {:induction false} GatheredExactly(findings: seq<Draft>, fp: Fingerprint, f: nat, u: string)
    requires f < |findings| && FingerprintOf(findings[f]) == fp && forall i :: 0 <= i < f ==> FingerprintOf(findings[i]) != fp
    ensures u in Gathered(findings, fp) <==>
            u in findings[f].affectedUrls ||
            exists k :: f < k < |findings| && FingerprintOf(findings[k]) == fp && Adds(findings[k], u)
    ensures FirstWith(findings, fp) == findings[f]
  {
    hide FingerprintOf;
    var front, last := findings[..|findings| - 1], |findings| - 1;
    assert findings[f] in findings;
    if f < last {
      assert front[f] in front;
      GatheredExactly(front, fp, f, u);
    } else {
      NotInFront(findings, fp);
    }
  }

  lemma NotInFront(findings: seq<Draft>, fp: Fingerprint)
    requires findings != [] && forall i :: 0 <= i < |findings| - 1 ==> FingerprintOf(findings[i]) != fp
    ensures fp !in Prints(findings[..|findings| - 1])
  {
    hide FingerprintOf;
  }

  /** Every finding of a scan is in exactly one merged finding: the first of its problem,
      with the affected addresses of that first one, those each repeat lists, and the
      address of a repeat that lists none. */
  lemma MergedExactly(findings: seq<Draft>, merged: seq<Draft>, k: nat, f: nat) returns (i: nat)
    requires Deduplicated(findings, merged) && FirstFound(findings, k, f)
    ensures i < |merged| && merged[i] == findings[f].(affectedUrls := merged[i].affectedUrls)
    ensures forall u :: u in merged[i].affectedUrls <==>
              u in findings[f].affectedUrls ||
              exists j :: f < j < |findings| && SameProblem(findings[j], findings[f]) && Adds(findings[j], u)
    ensures forall j :: 0 <= j < |merged| && FingerprintOf(merged[j]) == FingerprintOf(findings[k]) ==> j == i
  {
    var fp := FingerprintOf(findings[k]);
    forall j | 0 <= j < |findings|
      ensures FingerprintOf(findings[j]) == fp <==> SameProblem(findings[j], findings[k])
      ensures FingerprintOf(findings[j]) == fp <==> SameProblem(findings[j], findings[f])
    {
      SamePrintExactly(findings[j], findings[k]);
      SamePrintExactly(findings[f], findings[k]);
      SamePrintExactly(findings[j], findings[f]);
    }
    hide FingerprintOf, SameProblem, Gathered, FirstWith, FirstSeen, Keys;
    assert findings[k] in findings && fp in Prints(findings);
    i := PositionOf(merged, fp);
    assert merged[i] in merged && MergedFrom(findings, merged[i]);
    forall u
      ensures u in Gathered(findings, fp) <==>
              u in findings[f].affectedUrls || exists j :: f < j < |findings| && FingerprintOf(findings[j]) == fp && Adds(findings[j], u)
    {
      GatheredExactly(findings, fp, f, u);
    }
    GatheredExactly(findings, fp, f, "");
    assert forall u :: u in merged[i].affectedUrls <==> u in ToSet(merged[i].affectedUrls);
  }

  // ---------- reconciliation ----------

  datatype Status = Open | InProgress | AwaitingApproval | Regressed | Fixed | Verified | WontFix | AcceptedRisk

  /** A stored finding. */
  datatype Row = Row(
    fingerprint: Fingerprint,
    category: string,
    severity: string,
    detail: string,
    affectedUrls: seq<string>,
    affectedCount: nat,
    status: Status,
    regressionCount: nat)

  predicate Closed(status: Status) {
    status in {Fixed, Verified, WontFix, AcceptedRisk}
  }

  /** The status of a stored finding that a scan sees again. */
  function SeenStatus(status: Status): Status {
    if Closed(status) && status != WontFix then Regressed
    else if status == Regressed then Open
    else status
  }

  function Truncated(urls: seq<string>): seq<string> {
    if |urls| > 500 then urls[..500] else urls
  }

  function CountOf(d: Draft): nat {
    if |d.affectedUrls| > 0 then |d.affectedUrls| else 1
  }

  /** A stored finding after a scan saw it. */
  function SeenRow(row: Row, d: Draft): Row {
    row.(status := SeenStatus(row.status),
         regressionCount := row.regressionCount + if SeenStatus(row.status) == Regressed then 1 else 0,
         detail := if d.detail != "" then d.detail else row.detail,
         affectedUrls := if Truncated(d.affectedUrls) != [] then Truncated(d.affectedUrls) else row.affectedUrls,
         affectedCount := CountOf(d),
         severity := d.severity)
  }

  function NewRow(d: Draft): Row {
    Row(FingerprintOf(d), d.category, d.severity, d.detail, Truncated(d.affectedUrls), CountOf(d), Open, 0)
  }

  /** Whether a scan looked at a category; one of no particular categories looks at all. */
  predicate Covers(categories: Option<set<string>>, category: string) {
    categories.None? || categories.value == {} || category in categories.value
  }

  /** A stored finding after a scan did not see it. */
  function UnseenRow(row: Row, categories: Option<set<string>>): Row {
    if Closed(row.status) || !Covers(categories, row.category) then row else row.(status := Fixed)
  }

  ghost predicate DistinctRows(rows: seq<Row>) {
    forall i, j :: 0 <= i < j < |rows| ==> rows[i].fingerprint != rows[j].fingerprint
  }

  function RowPrints(rows: seq<Row>): set<Fingerprint> {
    set r | r in rows :: r.fingerprint
  }

  /** The last stored row with a fingerprint, as a dictionary built from the rows holds it. */
  function RowOf(rows: seq<Row>, fp: Fingerprint): Option<nat> {
    if rows == [] then None
    else if rows[|rows| - 1].fingerprint == fp then Some(|rows| - 1)
    else RowOf(rows[..|rows| - 1], fp)
  }

  lemma {:induction false} RowOfMeaning(rows: seq<Row>, fp: Fingerprint)
    ensures RowOf(rows, fp).Some? <==> fp in RowPrints(rows)
    ensures RowOf(rows, fp).Some? ==> RowOf(rows, fp).value < |rows| && rows[RowOf(rows, fp).value].fingerprint == fp
  {
    if rows != [] {
      RowOfMeaning(rows[..|rows| - 1], fp);
      assert rows == rows[..|rows| - 1] + [rows[|rows| - 1]];
    }
  }

  /** One draft against the rows that were stored when the scan began (the first `known`). */
  function MergeDraft(rows: seq<Row>, known: nat, d: Draft): (merged: seq<Row>)
    requires known <= |rows|
    ensures |merged| >= |rows|
  {
    var at := RowOf(rows[..known], FingerprintOf(d));
    if at.None? then rows + [NewRow(d)]
    else
      RowOfMeaning(rows[..known], FingerprintOf(d));
      rows[at.value := SeenRow(rows[at.value], d)]
  }

  function MergeDrafts(rows: seq<Row>, known: nat, drafts: seq<Draft>): (merged: seq<Row>)
    requires known <= |rows|
    ensures |merged| >= |rows|
  {
    if drafts == [] then rows
    else MergeDraft(MergeDrafts(rows, known, drafts[..|drafts| - 1]), known, drafts[|drafts| - 1])
  }

  lemma MergeOneMore(rows: seq<Row>, known: nat, drafts: seq<Draft>, d: Draft)
    requires known <= |rows|
    ensures MergeDrafts(rows, known, drafts + [d]) == MergeDraft(MergeDrafts(rows, known, drafts), known, d)
  {
    assert (drafts + [d])[..|drafts|] == drafts;
  }

  lemma NothingToMerge(rows: seq<Row>)
    ensures MergeDrafts(rows, |rows|, []) == rows && Prints([]) == {}
  {
  }

  /** Row `i` of the stored rows once the scan is over. */
  function CloseRow(stored: seq<Row>, row: Row, i: nat, seen: set<Fingerprint>, categories: Option<set<string>>): Row {
    if row.fingerprint !in seen && RowOf(stored, row.fingerprint) == Some(i) then UnseenRow(row, categories) else row
  }

  /** Closes the stored rows that were not seen. */
  function CloseOut(rows: seq<Row>, known: nat, seen: set<Fingerprint>, categories: Option<set<string>>): (closed: seq<Row>)
    requires known <= |rows|
    ensures |closed| == |rows|
    ensures forall i :: 0 <= i < |rows| ==>
              closed[i] == if i < known then CloseRow(rows[..known], rows[i], i, seen, categories) else rows[i]
  {
    seq(|rows|, i requires 0 <= i < |rows| =>
      if i < known then CloseRow(rows[..known], rows[i], i, seen, categories) else rows[i])
  }

  class FindingsTable {
    var rows: seq<Row>

    constructor ()
      ensures rows == []
    {
      rows := [];
    }

    /** Adds or updates the row of every draft. */
    method MergeAll(drafts: seq<Draft>) returns (seen: set<Fingerprint>)
      modifies this
      ensures rows == MergeDrafts(old(rows), |old(rows)|, drafts) && seen == Prints(drafts)
    {
      hide FingerprintOf, MergeDraft, MergeDrafts, Prints;
      ghost var before := rows;
      var known := |rows|;
      seen := {};
      NothingToMerge(rows);
      assert drafts[..0] == [];
      for k := 0 to |drafts|
        invariant known <= |rows| && rows == MergeDrafts(before, known, drafts[..k])
        invariant seen == Prints(drafts[..k])
      {
        var d := drafts[k];
        PrintsGrow(drafts[..k], d);
        assert drafts[..k + 1] == drafts[..k] + [d];
        MergeOneMore(before, known, drafts[..k], d);
        seen := seen + {FingerprintOf(d)};
        MergeOne(known, d);
      }
      assert drafts[..|drafts|] == drafts;
    }

    /** Adds a row for a new finding, or updates the one among the first `known`. */
    method MergeOne(known: nat, d: Draft)
      requires known <= |rows|
      modifies this
      ensures rows == MergeDraft(old(rows), known, d)
    {
      var at := RowOf(rows[..known], FingerprintOf(d));
      RowOfMeaning(rows[..known], FingerprintOf(d));
      hide RowOf, FingerprintOf, SeenStatus, SeenRow;
      if at.None? {
        rows := rows + [NewRow(d)];
      } else {
        var updated := Update(rows[at.value], d);
        rows := rows[at.value := updated];
      }
    }

    /** A stored row that the scan sees again. */
    static method Update(row: Row, d: Draft) returns (updated: Row)
      ensures updated == SeenRow(row, d)
    {
      var wasClosed := Closed(row.status);
      var status, regressions := row.status, row.regressionCount;
      if wasClosed && row.status != WontFix {
        status, regressions := Regressed, regressions + 1;
      } else if row.status != WontFix && row.status != AcceptedRisk {
        status := if row.status != Regressed then row.status else Open;
      }
      updated := row.(
        status := status,
        regressionCount := regressions,
        detail := if d.detail != "" then d.detail else row.detail,
        affectedUrls := if Truncated(d.affectedUrls) != [] then Truncated(d.affectedUrls) else row.affectedUrls,
        affectedCount := CountOf(d),
        severity := d.severity);
    }

    /** Closes what the scan no longer sees, among the first `known` rows. */
    method CloseAll(known: nat, seen: set<Fingerprint>, categories: Option<set<string>>)
      requires known <= |rows|
      modifies this
      ensures rows == CloseOut(old(rows), known, seen, categories)
    {
      var merged := rows;
      ghost var target := CloseOut(rows, known, seen, categories);
      for i := 0 to known
        invariant |rows| == |merged|
        invariant forall j :: 0 <= j < |rows| ==> rows[j] == if j < i then target[j] else merged[j]
      {
        hide RowOf, Closed, Covers, CloseOut;
        if rows[i].fingerprint !in seen && RowOf(merged[..known], rows[i].fingerprint) == Some(i) {
          if !Closed(rows[i].status) && Covers(categories, rows[i].category) {
            rows := rows[i := rows[i].(status := Fixed)];
          }
        }
      }
      assert rows == target;
    }

    /** Merges a fresh set of drafts into the stored findings. */
    method Reconcile(drafts: seq<Draft>, categories: Option<set<string>>)
      modifies this
      ensures rows == CloseOut(MergeDrafts(old(rows), |old(rows)|, drafts), |old(rows)|, Prints(drafts), categories)
    {
      var known := |rows|;
      var seen := MergeAll(drafts);
      CloseAll(known, seen, categories);
    }
  }

  // ---------- what one scan does ----------

  /** The draft a duplicate-free scan has for a fingerprint. */
  function DraftFor(drafts: seq<Draft>, fp: Fingerprint): Option<Draft> {
    if drafts == [] then None
    else if FingerprintOf(drafts[|drafts| - 1]) == fp then Some(drafts[|drafts| - 1])
    else DraftFor(drafts[..|drafts| - 1], fp)
  }

  lemma {:induction false} DraftForMeaning(drafts: seq<Draft>, fp: Fingerprint)
    ensures DraftFor(drafts, fp).Some? <==> fp in Prints(drafts)
    ensures DraftFor(drafts, fp).Some? ==> FingerprintOf(DraftFor(drafts, fp).value) == fp
  {
    if drafts != [] {
      var front, d := drafts[..|drafts| - 1], drafts[|drafts| - 1];
      DraftForMeaning(front, fp);
      assert drafts == front + [d];
      PrintsGrow(front, d);
    }
  }

  /** The stored rows after merging: each seen row updated once, unseen rows as they
      were, then one new row for each fingerprint not stored before. */
  ghost predicate MergedOnce(rows: seq<Row>, drafts: seq<Draft>, merged: seq<Row>) {
    && |rows| <= |merged| && DistinctRows(merged)
    && (forall i :: 0 <= i < |rows| ==>
          merged[i] == match DraftFor(drafts, rows[i].fingerprint)
                       case Some(d) => SeenRow(rows[i], d)
                       case None => rows[i])
    && (forall i :: |rows| <= i < |merged| ==>
          && merged[i].fingerprint in Prints(drafts) && merged[i].fingerprint !in RowPrints(rows)
          && DraftFor(drafts, merged[i].fingerprint).Some?
          && merged[i] == NewRow(DraftFor(drafts, merged[i].fingerprint).value))
    && RowPrints(merged) == RowPrints(rows) + Prints(drafts)
  }

  lemma RowOfDistinct(rows: seq<Row>, i: nat)
    requires DistinctRows(rows) && i < |rows|
    ensures RowOf(rows, rows[i].fingerprint) == Some(i)
  {
    assert rows[i] in rows;
    RowOfMeaning(rows, rows[i].fingerprint);
  }

  lemma {:induction false} MergeDraftsOnce(rows: seq<Row>, drafts: seq<Draft>)
    requires DistinctRows(rows) && DistinctPrints(drafts)
    ensures MergedOnce(rows, drafts, MergeDrafts(rows, |rows|, drafts))
  {
    hide MergedOnce, MergeDraft, FingerprintOf;
    if drafts == [] {
      NothingMerged(rows);
    } else {
      var front, d := drafts[..|drafts| - 1], drafts[|drafts| - 1];
      MergeDraftsOnce(rows, front);
      assert drafts == front + [d];
      OneMoreDraft(rows, front, d, MergeDrafts(rows, |rows|, front));
    }
  }

  lemma NothingMerged(rows: seq<Row>)
    requires DistinctRows(rows)
    ensures MergedOnce(rows, [], rows)
  {
  }

  lemma OneMoreDraft(rows: seq<Row>, front: seq<Draft>, d: Draft, merged: seq<Row>)
    requires DistinctRows(rows) && MergedOnce(rows, front, merged) && DistinctPrints(front + [d])
    ensures MergedOnce(rows, front + [d], MergeDraft(merged, |rows|, d))
  {
    var fp := FingerprintOf(d);
    forall e | e in front
      ensures FingerprintOf(e) != fp
    {
      var i :| 0 <= i < |front| && front[i] == e;
      assert (front + [d])[i] == e && (front + [d])[|front|] == d;
    }
    DraftForMeaning(front, fp);
    SameRowPrints(rows, front, merged);
    RowOfMeaning(merged[..|rows|], fp);
    var at := RowOf(merged[..|rows|], fp);
    if at.Some? {
      KnownDraft(rows, front, d, merged, at.value);
    } else {
      FreshDraft(rows, front, d, merged);
    }
  }

  lemma KnownDraft(rows: seq<Row>, front: seq<Draft>, d: Draft, merged: seq<Row>, at: nat)
    requires DistinctRows(rows) && MergedOnce(rows, front, merged) && at < |rows|
    requires FingerprintOf(d) == merged[at].fingerprint == rows[at].fingerprint
    requires DraftFor(front, FingerprintOf(d)).None?
    ensures MergedOnce(rows, front + [d], merged[at := SeenRow(merged[at], d)])
  {
    hide FingerprintOf, SeenStatus, Truncated;
    var drafts, after := front + [d], merged[at := SeenRow(merged[at], d)];
    PrintsGrow(front, d);
    RowPrintsOfUpdate(merged, at, SeenRow(merged[at], d));
    assert rows[at] in rows;
    assert drafts[..|drafts| - 1] == front;
    forall i | 0 <= i < |rows|
      ensures DraftFor(drafts, rows[i].fingerprint) ==
              if i == at then Some(d) else DraftFor(front, rows[i].fingerprint)
    {
      assert i != at ==> rows[i].fingerprint != rows[at].fingerprint;
    }
  }

  lemma FreshDraft(rows: seq<Row>, front: seq<Draft>, d: Draft, merged: seq<Row>)
    requires MergedOnce(rows, front, merged)
    requires FingerprintOf(d) !in RowPrints(rows) && FingerprintOf(d) !in Prints(front)
    ensures MergedOnce(rows, front + [d], merged + [NewRow(d)])
  {
    hide FingerprintOf, SeenStatus, Truncated;
    var drafts := front + [d];
    PrintsGrow(front, d);
    RowPrintsOfAppend(merged, NewRow(d));
    assert drafts[..|drafts| - 1] == front;
    forall i | 0 <= i < |merged|
      ensures merged[i].fingerprint != FingerprintOf(d)
    {
      assert merged[i] in merged && merged[i].fingerprint in RowPrints(merged);
    }
    forall i | 0 <= i < |rows|
      ensures DraftFor(drafts, rows[i].fingerprint) == DraftFor(front, rows[i].fingerprint)
    {
      assert rows[i] in rows;
    }
  }

  lemma SameRowPrints(rows: seq<Row>, drafts: seq<Draft>, merged: seq<Row>)
    requires MergedOnce(rows, drafts, merged)
    ensures RowPrints(merged[..|rows|]) == RowPrints(rows)
    ensures forall i :: 0 <= i < |rows| ==> merged[i].fingerprint == rows[i].fingerprint
  {
    forall i | 0 <= i < |rows|
      ensures merged[i].fingerprint == rows[i].fingerprint
      ensures rows[i].fingerprint in RowPrints(merged[..|rows|]) && merged[i].fingerprint in RowPrints(rows)
    {
      assert merged[..|rows|][i] in merged[..|rows|] && rows[i] in rows;
    }
    forall r | r in merged[..|rows|]
      ensures r.fingerprint in RowPrints(rows)
    {
      var i :| 0 <= i < |rows| && merged[..|rows|][i] == r;
    }
    forall r | r in rows
      ensures r.fingerprint in RowPrints(merged[..|rows|])
    {
      var i :| 0 <= i < |rows| && rows[i] == r;
    }
  }

  lemma RowPrintsOfUpdate(rows: seq<Row>, i: nat, row: Row)
    requires i < |rows| && row.fingerprint == rows[i].fingerprint
    ensures RowPrints(rows[i := row]) == RowPrints(rows)
  {
    var after := rows[i := row];
    forall fp | fp in RowPrints(rows)
      ensures fp in RowPrints(after)
    {
      var r :| r in rows && r.fingerprint == fp;
      var j :| 0 <= j < |rows| && rows[j] == r;
      assert after[j] in after;
    }
    forall fp | fp in RowPrints(after)
      ensures fp in RowPrints(rows)
    {
      var r :| r in after && r.fingerprint == fp;
      var j :| 0 <= j < |rows| && after[j] == r;
      assert rows[j] in rows;
    }
  }

  lemma RowPrintsOfAppend(rows: seq<Row>, row: Row)
    ensures RowPrints(rows + [row]) == RowPrints(rows) + {row.fingerprint}
  {
  }

  /** What a row shows of the draft that a scan saw it as: an empty detail or list of
      addresses leaves what was there, and a long list is cut to 500 addresses, though all
      of them count. */
  ghost predicate Shows(after: Row, d: Draft, detail: string, urls: seq<string>) {
    && after.severity == d.severity
    && after.detail == (if d.detail == "" then detail else d.detail)
    && (d.affectedUrls == [] ==> after.affectedUrls == urls && after.affectedCount == 1)
    && (d.affectedUrls != [] ==> after.affectedUrls <= d.affectedUrls && after.affectedCount == |d.affectedUrls|)
    && (0 < |d.affectedUrls| < 500 ==> after.affectedUrls == d.affectedUrls)
    && (|d.affectedUrls| >= 500 ==> |after.affectedUrls| == 500)
  }

  /** A closed row that is seen again regresses and counts it, unless it is a won't-fix;
      a regressed one that is seen once more is open; any other status stays. */
  ghost predicate SeenAgain(row: Row, d: Draft, after: Row) {
    && after.fingerprint == row.fingerprint && after.category == row.category
    && Shows(after, d, row.detail, row.affectedUrls)
    && match row.status
       case Fixed => after.status == Regressed && after.regressionCount == row.regressionCount + 1
       case Verified => after.status == Regressed && after.regressionCount == row.regressionCount + 1
       case AcceptedRisk => after.status == Regressed && after.regressionCount == row.regressionCount + 1
       case Regressed => after.status == Open && after.regressionCount == row.regressionCount
       case _ => after.status == row.status && after.regressionCount == row.regressionCount
  }

  /** A row that is not seen is fixed now, unless it was closed already or the scan was of
      other categories; nothing else of it changes. */
  ghost predicate Missed(row: Row, categories: Option<set<string>>, after: Row) {
    if || row.status in {Fixed, Verified, WontFix, AcceptedRisk}
       || (categories.Some? && categories.value != {} && row.category !in categories.value)
    then after == row
    else after == row.(status := Fixed)
  }

  /** What a scan makes of a stored row. */
  ghost predicate ScannedAs(row: Row, drafts: seq<Draft>, categories: Option<set<string>>, after: Row) {
    match DraftFor(drafts, row.fingerprint)
    case Some(d) => SeenAgain(row, d, after)
    case None => Missed(row, categories, after)
  }

  /** A new row: an open finding that nobody stored before. */
  ghost predicate AddedBy(rows: seq<Row>, drafts: seq<Draft>, row: Row) {
    && row.fingerprint !in RowPrints(rows) && DraftFor(drafts, row.fingerprint).Some?
    && var d := DraftFor(drafts, row.fingerprint).value;
       && row.category == d.category && row.status == Open && row.regressionCount == 0
       && Shows(row, d, "", [])
  }

  lemma SeenRowIsSeenAgain(row: Row, d: Draft)
    ensures SeenAgain(row, d, SeenRow(row, d))
  {
  }

  lemma UnseenRowIsMissed(row: Row, categories: Option<set<string>>)
    ensures Missed(row, categories, UnseenRow(row, categories))
  {
  }

  /** A scan without repeats: what becomes of every fingerprint. */
  ghost predicate Scanned(rows: seq<Row>, drafts: seq<Draft>, categories: Option<set<string>>, after: seq<Row>) {
    && DistinctRows(after) && |rows| <= |after|
    && RowPrints(after) == RowPrints(rows) + Prints(drafts)
    && (forall i :: 0 <= i < |rows| ==> ScannedAs(rows[i], drafts, categories, after[i]))
    && (forall i :: |rows| <= i < |after| ==> AddedBy(rows, drafts, after[i]))
  }

  lemma OneRowScanned(rows: seq<Row>, drafts: seq<Draft>, categories: Option<set<string>>, merged: seq<Row>, i: nat)
    requires MergedOnce(rows, drafts, merged) && i < |merged|
    ensures var after := CloseOut(merged, |rows|, Prints(drafts), categories)[i];
            && after.fingerprint == merged[i].fingerprint
            && if i < |rows| then ScannedAs(rows[i], drafts, categories, after) else AddedBy(rows, drafts, after)
  {
    hide SeenRow, UnseenRow, SeenAgain, Missed, RowPrints, Prints, FingerprintOf;
    if i < |rows| {
      RowOfDistinct(merged[..|rows|], i);
      DraftForMeaning(drafts, rows[i].fingerprint);
      UnseenRowIsMissed(rows[i], categories);
      match DraftFor(drafts, rows[i].fingerprint)
      case Some(d) => SeenRowIsSeenAgain(rows[i], d);
      case None =>
    }
  }

  lemma OneScan(rows: seq<Row>, drafts: seq<Draft>, categories: Option<set<string>>)
    requires DistinctRows(rows) && DistinctPrints(drafts)
    ensures Scanned(rows, drafts, categories,
                    CloseOut(MergeDrafts(rows, |rows|, drafts), |rows|, Prints(drafts), categories))
  {
    hide ScannedAs, AddedBy, CloseRow, MergeDrafts, DraftFor, RowPrints, Prints, RowOf, FingerprintOf, MergedOnce, CloseOut;
    MergeDraftsOnce(rows, drafts);
    var merged := MergeDrafts(rows, |rows|, drafts);
    forall i | 0 <= i < |merged|
      ensures var after := CloseOut(merged, |rows|, Prints(drafts), categories)[i];
              && after.fingerprint == merged[i].fingerprint
              && if i < |rows| then ScannedAs(rows[i], drafts, categories, after) else AddedBy(rows, drafts, after)
    {
      OneRowScanned(rows, drafts, categories, merged, i);
    }
    MergedPrints(rows, drafts, merged);
    SamePrintsRowwise(merged, CloseOut(merged, |rows|, Prints(drafts), categories));
    SameDistinct(merged, CloseOut(merged, |rows|, Prints(drafts), categories));
    hide DistinctRows;
  }

  lemma SameDistinct(a: seq<Row>, b: seq<Row>)
    requires DistinctRows(a) && |a| == |b| && forall i :: 0 <= i < |a| ==> b[i].fingerprint == a[i].fingerprint
    ensures DistinctRows(b)
  {
  }

  lemma MergedPrints(rows: seq<Row>, drafts: seq<Draft>, merged: seq<Row>)
    requires MergedOnce(rows, drafts, merged)
    ensures RowPrints(merged) == RowPrints(rows) + Prints(drafts) && DistinctRows(merged)
  {
    hide RowPrints, Prints, DraftFor;
  }

  lemma SamePrintsRowwise(a: seq<Row>, b: seq<Row>)
    requires |a| == |b| && forall i :: 0 <= i < |a| ==> a[i].fingerprint == b[i].fingerprint
    ensures RowPrints(a) == RowPrints(b)
  {
    forall r | r in a
      ensures r.fingerprint in RowPrints(b)
    {
      var i :| 0 <= i < |a| && a[i] == r;
      assert b[i] in b;
    }
    forall r | r in b
      ensures r.fingerprint in RowPrints(a)
    {
      var i :| 0 <= i < |b| && b[i] == r;
      assert a[i] in a;
    }
  }

  // ---------- the stored state as a function of the history ----------

  /** What happens to a site's findings: a scan of all or some categories, or a mark that
      somebody sets by hand. */
  datatype Event = Scan(findings: seq<Draft>, categories: Option<set<string>>) | Mark(of: Fingerprint, status: Status)

  datatype Life = Unknown | Stored(category: string, status: Status, regressions: nat)

  /** What an event does to the life of one fingerprint. */
  function Lives(life: Life, e: Event, fp: Fingerprint): Life {
    match e
    case Mark(of, status) =>
      if of == fp && life.Stored? then life.(status := status) else life
    case Scan(findings, categories) =>
      if fp in Prints(findings) then
        if life.Unknown? then Stored(FirstWith(findings, fp).category, Open, 0)
        else life.(status := SeenStatus(life.status),
                   regressions := life.regressions + if SeenStatus(life.status) == Regressed then 1 else 0)
      else if life.Unknown? || Closed(life.status) || !Covers(categories, life.category) then life
      else life.(status := Fixed)
  }

  function Lived(history: seq<Event>, fp: Fingerprint): Life {
    if history == [] then Unknown else Lives(Lived(history[..|history| - 1], fp), history[|history| - 1], fp)
  }

  function LifeOf(row: Row): Life {
    Stored(row.category, row.status, row.regressionCount)
  }

  /** Exactly one row per fingerprint ever seen, at the point its life has come to. */
  ghost predicate RowsFollow(history: seq<Event>, rows: seq<Row>) {
    && DistinctRows(rows)
    && (forall fp :: fp in RowPrints(rows) <==> Lived(history, fp).Stored?)
    && (forall i :: 0 <= i < |rows| ==> Lived(history, rows[i].fingerprint) == LifeOf(rows[i]))
  }

  lemma LivedOn(history: seq<Event>, e: Event, fp: Fingerprint)
    ensures Lived(history + [e], fp) == Lives(Lived(history, fp), e, fp)
  {
    assert (history + [e])[..|history|] == history;
  }

  lemma MergedCategory(findings: seq<Draft>, drafts: seq<Draft>, fp: Fingerprint)
    requires Deduplicated(findings, drafts) && DraftFor(drafts, fp).Some?
    ensures fp in Prints(findings) && DraftFor(drafts, fp).value.category == FirstWith(findings, fp).category
  {
    hide FingerprintOf, FirstWith;
    DraftForMeaning(drafts, fp);
    DraftIsIn(drafts, fp);
    assert MergedFrom(findings, DraftFor(drafts, fp).value);
  }

  lemma {:induction false} DraftIsIn(drafts: seq<Draft>, fp: Fingerprint)
    requires DraftFor(drafts, fp).Some?
    ensures DraftFor(drafts, fp).value in drafts
  {
    if FingerprintOf(drafts[|drafts| - 1]) != fp {
      DraftIsIn(drafts[..|drafts| - 1], fp);
    }
  }

  lemma StoredLives(row: Row, drafts: seq<Draft>, categories: Option<set<string>>, after: Row)
    requires ScannedAs(row, drafts, categories, after)
    ensures LifeOf(after) == if row.fingerprint in Prints(drafts) then
                               Stored(row.category, SeenStatus(row.status),
                                      row.regressionCount + if SeenStatus(row.status) == Regressed then 1 else 0)
                             else if Closed(row.status) || !Covers(categories, row.category) then LifeOf(row)
                             else Stored(row.category, Fixed, row.regressionCount)
  {
    hide Prints, DraftFor, Shows;
    DraftForMeaning(drafts, row.fingerprint);
  }

  lemma RowLives(history: seq<Event>, rows: seq<Row>, findings: seq<Draft>, drafts: seq<Draft>,
                 categories: Option<set<string>>, after: seq<Row>, i: nat)
    requires RowsFollow(history, rows) && Deduplicated(findings, drafts) && Scanned(rows, drafts, categories, after)
    requires i < |after|
    ensures Lives(Lived(history, after[i].fingerprint), Scan(findings, categories), after[i].fingerprint) == LifeOf(after[i])
  {
    hide FirstWith, FingerprintOf, DraftFor, MergedFrom, Keys, FirstSeen, DistinctRows, DistinctPrints, SeenStatus, Shows;
    hide SeenAgain, Missed, Prints, RowPrints, Closed, Covers, Lived;
    var fp := after[i].fingerprint;
    SamePrints(findings, drafts);
    if i < |rows| {
      SameRow(rows[i], drafts, categories, after[i]);
      StoredLives(rows[i], drafts, categories, after[i]);
      assert Lived(history, rows[i].fingerprint) == LifeOf(rows[i]);
    } else {
      assert AddedBy(rows, drafts, after[i]);
      MergedCategory(findings, drafts, fp);
      assert Lived(history, fp).Unknown?;
    }
  }

  lemma SameRow(row: Row, drafts: seq<Draft>, categories: Option<set<string>>, after: Row)
    requires ScannedAs(row, drafts, categories, after)
    ensures after.fingerprint == row.fingerprint
  {
    hide Shows, DraftFor;
  }

  lemma ScanFollows(history: seq<Event>, rows: seq<Row>, findings: seq<Draft>, drafts: seq<Draft>,
                    categories: Option<set<string>>, after: seq<Row>)
    requires RowsFollow(history, rows) && Deduplicated(findings, drafts) && Scanned(rows, drafts, categories, after)
    ensures RowsFollow(history + [Scan(findings, categories)], after)
  {
    hide FirstWith, FingerprintOf, DraftFor, MergedFrom, ScannedAs, AddedBy, LifeOf, Prints, RowPrints, Lived;
    SamePrints(findings, drafts);
    forall fp
      ensures Lived(history + [Scan(findings, categories)], fp) == Lives(Lived(history, fp), Scan(findings, categories), fp)
    {
      LivedOn(history, Scan(findings, categories), fp);
    }
    forall i | 0 <= i < |after|
      ensures Lived(history + [Scan(findings, categories)], after[i].fingerprint) == LifeOf(after[i])
    {
      RowLives(history, rows, findings, drafts, categories, after, i);
    }
    hide Deduplicated;
  }

  function Marked(rows: seq<Row>, fp: Fingerprint, status: Status): (after: seq<Row>)
    ensures |after| == |rows|
    ensures forall i :: 0 <= i < |rows| ==> after[i] == if rows[i].fingerprint == fp then rows[i].(status := status) else rows[i]
  {
    seq(|rows|, i requires 0 <= i < |rows| => if rows[i].fingerprint == fp then rows[i].(status := status) else rows[i])
  }

  lemma MarkFollows(history: seq<Event>, rows: seq<Row>, fp: Fingerprint, status: Status)
    requires RowsFollow(history, rows)
    ensures RowsFollow(history + [Mark(fp, status)], Marked(rows, fp, status))
  {
    hide RowPrints, Lived;
    SamePrintsRowwise(rows, Marked(rows, fp, status));
    forall other
      ensures Lived(history + [Mark(fp, status)], other) == Lives(Lived(history, other), Mark(fp, status), other)
    {
      LivedOn(history, Mark(fp, status), other);
    }
  }

  // ---------- the status since the last mark ----------

  predicate MarksAway(history: seq<Event>, fp: Fingerprint) {
    forall e :: e in history ==> !(e.Mark? && e.of == fp)
  }

  /** The scans that concern a stored finding: those that see it, and those that miss
      it although they cover its category. */
  function Sightings(history: seq<Event>, fp: Fingerprint, category: string): seq<bool> {
    if history == [] then []
    else
      var e := history[|history| - 1];
      Sightings(history[..|history| - 1], fp, category)
      + if e.Mark? then [] else if fp in Prints(e.findings) then [true] else if Covers(e.categories, category) then [false] else []
  }

  /** The last of these scans found again what the one before it, or the mark, had closed. */
  predicate ComesBack(marked: Status, sightings: seq<bool>) {
    var n := |sightings|;
    n >= 1 && sightings[n - 1] && marked != WontFix && if n == 1 then Closed(marked) else !sightings[n - 2]
  }

  predicate Has(sightings: seq<bool>, seen: bool) {
    seen in sightings
  }

  /** The status in closed form: won't-fix stays; missed means fixed, unless it was closed
      by hand and not seen since; back again means regressed; otherwise it is open, or
      as marked if that is in progress or awaiting approval and no scan has missed it. */
  function Since(marked: Status, sightings: seq<bool>): Status {
    var n := |sightings|;
    if marked == WontFix || n == 0 then marked
    else if !sightings[n - 1] then if Closed(marked) && !Has(sightings, true) then marked else Fixed
    else if ComesBack(marked, sightings) then Regressed
    else if marked in {InProgress, AwaitingApproval} && !Has(sightings, false) then marked
    else Open
  }

  function Comebacks(marked: Status, sightings: seq<bool>): nat {
    if sightings == [] then 0
    else Comebacks(marked, sightings[..|sightings| - 1]) + if ComesBack(marked, sightings) then 1 else 0
  }

  lemma SinceOneMore(marked: Status, sightings: seq<bool>, seen: bool)
    ensures var was, now := Since(marked, sightings), Since(marked, sightings + [seen]);
            && now == (if seen then SeenStatus(was) else if Closed(was) then was else Fixed)
            && (ComesBack(marked, sightings + [seen]) <==> seen && now == Regressed)
  {
    hide ComesBack, Has;
    ComesBackAfter(marked, sightings, seen);
    HasMore(sightings, seen);
    assert (sightings + [seen])[|sightings|] == seen;
    if sightings != [] {
      LastSighting(marked, sightings);
    }
  }

  lemma ComebacksOneMore(marked: Status, sightings: seq<bool>, seen: bool)
    ensures Comebacks(marked, sightings + [seen]) == Comebacks(marked, sightings) + if ComesBack(marked, sightings + [seen]) then 1 else 0
  {
    assert (sightings + [seen])[..|sightings|] == sightings;
    hide ComesBack;
  }

  lemma HasMore(sightings: seq<bool>, seen: bool)
    ensures forall x :: Has(sightings + [seen], x) <==> Has(sightings, x) || x == seen
    ensures forall x :: !Has([], x)
  {
  }

  lemma ComesBackAfter(marked: Status, sightings: seq<bool>, seen: bool)
    ensures ComesBack(marked, sightings + [seen]) <==>
            seen && marked != WontFix && if sightings == [] then Closed(marked) else !sightings[|sightings| - 1]
  {
  }

  /** The last sighting is one; and what comes back was closed by the mark or missed before. */
  lemma LastSighting(marked: Status, sightings: seq<bool>)
    requires sightings != []
    ensures Has(sightings, sightings[|sightings| - 1])
    ensures ComesBack(marked, sightings) ==> sightings[|sightings| - 1] && (Closed(marked) || Has(sightings, false))
  {
    if ComesBack(marked, sightings) && |sightings| >= 2 {
      assert sightings[|sightings| - 2] in sightings;
    }
  }

  /** After a mark, or any other point of its life, a finding's status and the number of
      its regressions depend only on which of the scans that concern it saw it, whatever
      categories the scans had and whatever else was marked between them. */
  lemma {:induction false} StatusSinceMark(history: seq<Event>, more: seq<Event>, fp: Fingerprint)
    requires Lived(history, fp).Stored? && MarksAway(more, fp)
    ensures var (was, now) := (Lived(history, fp), Lived(history + more, fp));
            var sightings := Sightings(more, fp, was.category);
            now == Stored(was.category, Since(was.status, sightings), was.regressions + Comebacks(was.status, sightings))
    decreases |more|
  {
    hide Since, Comebacks, ComesBack, Lived, SeenStatus, Closed, Covers, Prints, FirstWith;
    if more == [] {
      assert history + more == history;
      NoScanYet(Lived(history, fp).status);
    } else {
      var front, e := more[..|more| - 1], more[|more| - 1];
      assert history + more == (history + front) + [e] && e in more;
      assert forall x :: x in front ==> x in more;
      StatusSinceMark(history, front, fp);
      LivedOn(history + front, e, fp);
      var life := Lived(history, fp);
      var sightings := Sightings(front, fp, life.category);
      SinceOneMore(life.status, sightings, true);
      SinceOneMore(life.status, sightings, false);
      ComebacksOneMore(life.status, sightings, true);
      ComebacksOneMore(life.status, sightings, false);
      assert sightings + [] == sightings;
    }
  }

  lemma NoScanYet(marked: Status)
    ensures Since(marked, []) == marked && Comebacks(marked, []) == 0
  {
  }

  /** Won't-fix is final: no scan ever moves it. */
  lemma WontFixStays(history: seq<Event>, more: seq<Event>, fp: Fingerprint)
    requires Lived(history, fp).Stored? && Lived(history, fp).status == WontFix && MarksAway(more, fp)
    ensures Lived(history + more, fp) == Lived(history, fp)
  {
    StatusSinceMark(history, more, fp);
    NeverComesBack(Sightings(more, fp, Lived(history, fp).category));
  }

  lemma {:induction false} NeverComesBack(sightings: seq<bool>)
    ensures Comebacks(WontFix, sightings) == 0
  {
    if sightings != [] {
      NeverComesBack(sightings[..|sightings| - 1]);
    }
  }

  /** Scans of other categories that do not meet a finding never close it. */
  lemma {:induction false} OtherScopesLeaveItAlone(history: seq<Event>, more: seq<Event>, fp: Fingerprint)
    requires Lived(history, fp).Stored? && MarksAway(more, fp)
    requires forall e :: e in more && e.Scan? ==> fp !in Prints(e.findings) && !Covers(e.categories, Lived(history, fp).category)
    ensures Lived(history + more, fp) == Lived(history, fp)
  {
    StatusSinceMark(history, more, fp);
    NoSightings(more, fp, Lived(history, fp).category);
  }

  lemma {:induction false} NoSightings(more: seq<Event>, fp: Fingerprint, category: string)
    requires forall e :: e in more && e.Scan? ==> fp !in Prints(e.findings) && !Covers(e.categories, category)
    ensures Sightings(more, fp, category) == []
  {
    if more != [] {
      assert more[|more| - 1] in more && forall e :: e in more[..|more| - 1] ==> e in more;
      NoSightings(more[..|more| - 1], fp, category);
    }
  }

  // ---------- full scans only ----------

  /** Whether any of the scans saw the fingerprint. */
  ghost predicate EverSeen(scans: seq<set<Fingerprint>>, fp: Fingerprint) {
    exists i :: 0 <= i < |scans| && fp in scans[i]
  }

  /** The latest scan saw the fingerprint again after it had been seen and then missed. */
  ghost predicate Reappears(scans: seq<set<Fingerprint>>, fp: Fingerprint) {
    && |scans| >= 2 && fp in scans[|scans| - 1] && fp !in scans[|scans| - 2]
    && EverSeen(scans[..|scans| - 2], fp)
  }

  /** Fixed if and only if absent from the latest scan; regressed if and only if it has
      just reappeared; open otherwise. */
  ghost function Told(scans: seq<set<Fingerprint>>, fp: Fingerprint): Status {
    if scans == [] || fp !in scans[|scans| - 1] then Fixed else if Reappears(scans, fp) then Regressed else Open
  }

  ghost function Reappearances(scans: seq<set<Fingerprint>>, fp: Fingerprint): nat {
    if scans == [] then 0
    else Reappearances(scans[..|scans| - 1], fp) + if Reappears(scans, fp) then 1 else 0
  }

  lemma EverSeenGrows(scans: seq<set<Fingerprint>>, seen: set<Fingerprint>, fp: Fingerprint)
    ensures EverSeen(scans + [seen], fp) <==> EverSeen(scans, fp) || fp in seen
  {
    var longer := scans + [seen];
    if EverSeen(scans, fp) {
      var i :| 0 <= i < |scans| && fp in scans[i];
      assert fp in longer[i];
    }
    if fp in seen { assert fp in longer[|scans|]; }
  }

  /** One more scan, told from the outside: what it does to the status and the count. */
  lemma TellOneMore(scans: seq<set<Fingerprint>>, seen: set<Fingerprint>, fp: Fingerprint)
    ensures EverSeen(scans, fp) ==>
              && Told(scans + [seen], fp) == (if fp in seen then SeenStatus(Told(scans, fp)) else Fixed)
              && Reappearances(scans + [seen], fp) == Reappearances(scans, fp) +
                 if fp in seen && SeenStatus(Told(scans, fp)) == Regressed then 1 else 0
    ensures !EverSeen(scans, fp) && fp in seen ==>
              && Told(scans + [seen], fp) == Open
              && Reappearances(scans + [seen], fp) == Reappearances(scans, fp)
  {
    var longer := scans + [seen];
    assert longer[..|longer| - 1] == scans;
    EverSeenGrows(scans, seen, fp);
    if |scans| >= 1 {
      assert longer[..|longer| - 2] == scans[..|scans| - 1];
      assert scans == scans[..|scans| - 1] + [scans[|scans| - 1]];
      EverSeenGrows(scans[..|scans| - 1], scans[|scans| - 1], fp);
    }
  }

  lemma {:induction false} NeverSeenNeverReappears(scans: seq<set<Fingerprint>>, fp: Fingerprint)
    requires !EverSeen(scans, fp)
    ensures Reappearances(scans, fp) == 0
  {
    if scans != [] {
      var front := scans[..|scans| - 1];
      assert scans == front + [scans[|scans| - 1]];
      EverSeenGrows(front, scans[|scans| - 1], fp);
      NeverSeenNeverReappears(front, fp);
      assert fp !in scans[|scans| - 1];
    }
  }

  ghost predicate FullScans(history: seq<Event>) {
    forall e :: e in history ==> e.Scan? && (e.categories.None? || e.categories.value == {})
  }

  ghost function SeenBy(history: seq<Event>): seq<set<Fingerprint>>
    requires FullScans(history)
  {
    if history == [] then []
    else
      assert history[|history| - 1] in history;
      SeenBy(history[..|history| - 1]) + [Prints(history[|history| - 1].findings)]
  }

  /** With full scans and no marks a finding is fixed if and only if the latest scan
      misses it, regressed if and only if it has just reappeared, and open otherwise. */
  lemma {:induction false} FullScansTell(history: seq<Event>, fp: Fingerprint)
    requires FullScans(history)
    ensures Lived(history, fp).Stored? <==> EverSeen(SeenBy(history), fp)
    ensures Lived(history, fp).Stored? ==>
              && Lived(history, fp).status == Told(SeenBy(history), fp)
              && Lived(history, fp).regressions == Reappearances(SeenBy(history), fp)
  {
    if history != [] {
      var front, e := history[..|history| - 1], history[|history| - 1];
      assert e in history && forall x :: x in front ==> x in history;
      FullScansTell(front, fp);
      EverSeenGrows(SeenBy(front), Prints(e.findings), fp);
      TellOneMore(SeenBy(front), Prints(e.findings), fp);
      if EverSeen(SeenBy(front), fp) {
        ToldCloses(SeenBy(front), fp);
      } else {
        NeverSeenNeverReappears(SeenBy(front), fp);
      }
      hide Told, Reappearances, SeenStatus, EverSeen, Prints, FirstWith;
    }
  }

  lemma ToldCloses(scans: seq<set<Fingerprint>>, fp: Fingerprint)
    requires EverSeen(scans, fp)
    ensures Closed(Told(scans, fp)) ==> Told(scans, fp) == Fixed
  {
  }

  /** The rows are those of a scan of the merged findings. */
  ghost predicate ScannedInto(rows: seq<Row>, findings: seq<Draft>, categories: Option<set<string>>, after: seq<Row>) {
    exists drafts :: Deduplicated(findings, drafts) && Scanned(rows, drafts, categories, after)
  }

  ghost predicate IsRowOf(rows: seq<Row>, i: nat, d: Draft) {
    i < |rows| && rows[i].fingerprint == FingerprintOf(d)
  }

  /** Every finding has a row, and two findings have the same one exactly when they are
      the same problem. */
  ghost predicate RowPerProblem(findings: seq<Draft>, rows: seq<Row>) {
    && (forall d :: d in findings ==> exists i :: IsRowOf(rows, i, d))
    && (forall d, e, i, j :: d in findings && e in findings && IsRowOf(rows, i, d) && IsRowOf(rows, j, e) ==>
          (i == j <==> SameProblem(d, e)))
  }

  lemma EachProblemHasItsRow(rows: seq<Row>, findings: seq<Draft>, drafts: seq<Draft>,
                             categories: Option<set<string>>, after: seq<Row>)
    requires Deduplicated(findings, drafts) && Scanned(rows, drafts, categories, after)
    ensures RowPerProblem(findings, after)
  {
    hide FingerprintOf, SameProblem, ScannedAs, AddedBy;
    SamePrints(findings, drafts);
    forall d | d in findings
      ensures exists i :: IsRowOf(after, i, d)
    {
      assert FingerprintOf(d) in RowPrints(after);
      var row :| row in after && row.fingerprint == FingerprintOf(d);
      var i :| 0 <= i < |after| && after[i] == row;
      assert IsRowOf(after, i, d);
    }
    forall d, e, i, j | d in findings && e in findings && IsRowOf(after, i, d) && IsRowOf(after, j, e)
      ensures i == j <==> SameProblem(d, e)
    {
      SamePrintExactly(d, e);
    }
  }

  /** A site's findings over any history of scans and marks. */
  class SiteFindings {
    const table: FindingsTable
    ghost var history: seq<Event>

    ghost predicate Valid()
      reads this, table
    {
      RowsFollow(history, table.rows)
    }

    constructor ()
      ensures Valid() && fresh(table) && history == [] && table.rows == []
    {
      table := new FindingsTable();
      history := [];
    }

    /** One audit: the raw findings are merged by fingerprint, then reconciled. */
    method Audit(findings: seq<Draft>, categories: Option<set<string>>)
      requires Valid()
      modifies this, table
      ensures Valid() && history == old(history) + [Scan(findings, categories)]
      ensures ScannedInto(old(table.rows), findings, categories, table.rows)
      ensures RowPerProblem(findings, table.rows)
    {
      ghost var before := table.rows;
      var drafts := Deduplicate(findings);
      table.Reconcile(drafts, categories);
      OneScan(before, drafts, categories);
      EachProblemHasItsRow(before, findings, drafts, categories, table.rows);
      ScanFollows(history, before, findings, drafts, categories, table.rows);
      history := history + [Scan(findings, categories)];
    }

    /** Sets the status of one finding by hand, if there is such a finding. */
    method SetMark(fp: Fingerprint, status: Status) returns (found: bool)
      requires Valid()
      modifies this, table
      ensures Valid() && history == old(history) + [Mark(fp, status)]
      ensures found <==> fp in old(RowPrints(table.rows))
      ensures |table.rows| == |old(table.rows)|
      ensures forall i :: 0 <= i < |table.rows| ==>
                table.rows[i] == var row := old(table.rows)[i]; if row.fingerprint == fp then row.(status := status) else row
    {
      ghost var before := table.rows;
      var at := RowOf(table.rows, fp);
      RowOfMeaning(table.rows, fp);
      found := at.Some?;
      if found {
        table.rows := table.rows[at.value := table.rows[at.value].(status := status)];
      }
      OnlyThatRow(before, fp, status);
      MarkFollows(history, before, fp, status);
      history := history + [Mark(fp, status)];
    }
  }

  lemma OnlyThatRow(rows: seq<Row>, fp: Fingerprint, status: Status)
    requires DistinctRows(rows)
    ensures Marked(rows, fp, status) ==
            match RowOf(rows, fp) case Some(i) => (RowOfMeaning(rows, fp); rows[i := rows[i].(status := status)]) case None => rows
  {
    RowOfMeaning(rows, fp);
    assert forall r :: r in rows ==> r.fingerprint in RowPrints(rows);
  }

  /** Re-seen rows keep their status exactly when it is open, in progress, awaiting approval or
      won't-fix; an accepted risk that is seen again is reopened as a regression. */
  lemma AcceptedRiskIsReopened(row: Row, d: Draft)
    ensures SeenRow(row, d).status == row.status <==> row.status in {Open, InProgress, AwaitingApproval, WontFix}
    ensures row.status == AcceptedRisk ==>
              SeenRow(row, d).status == Regressed && SeenRow(row, d).regressionCount == row.regressionCount + 1
  {
  }

  /** Repeats inside one scan show why the merge is needed: without it a new problem
      reported twice is stored twice. */
  lemma RepeatsAreStoredTwice(d: Draft)
    ensures MergeDrafts([], 0, [d, d]) == [NewRow(d), NewRow(d)]
  {
    assert [d, d][..1] == [d] && [d][..0] == [];
    var none: seq<Row> := [];
    assert none[..0] == none && [NewRow(d)][..0] == none;
    assert MergeDrafts(none, 0, [d]) == [NewRow(d)];
  }
}

/** The content state machine and its gates. */
module ContentLifecycle {
  import opened Common

  datatype Stage =
    | Idea | Briefed | Drafting | Editing | Qa | Review | ChangesRequested | Approved
    | Scheduled | Publishing | Published | Updating | Rejected | Archived

  function Transitions(from: Stage): set<Stage> {
    match from
    case Idea => {Briefed, Rejected, Archived}
    case Briefed => {Drafting, Idea, Rejected, Archived}
    case Drafting => {Editing, Briefed, Rejected}
    case Editing => {Qa, Drafting, Rejected}
    case Qa => {Review, Editing, Rejected}
    case Review => {Approved, ChangesRequested, Rejected}
    case ChangesRequested => {Drafting, Editing, Rejected, Archived}
    case Approved => {Scheduled, Publishing, ChangesRequested}
    case Scheduled => {Publishing, Approved, ChangesRequested}
    case Publishing => {Published, Approved}
    case Published => {Updating, Archived}
    case Updating => {Editing, Published}
    case Rejected => {Idea, Archived}
    case Archived => {Idea}
  }

  /** The parts of an item its gates look at. */
  datatype Draft = Draft(
    words: nat,
    brandScore: Option<real>,
    qualityScore: Option<real>,
    aiPatternScore: Option<real>,
    unverifiedClaims: nat,
    hasMetaTitle: bool,
    hasMetaDescription: bool)

  datatype Gate = BodyTooShort | BrandVoice | Quality | MachineWriting | UnverifiedClaims | MissingMeta

  predicate Below(score: Option<real>, threshold: real) {
    score.Some? && score.value < threshold
  }

  /** Which gates a draft fails, in the order they are checked. */
  function FailingGates(d: Draft): seq<Gate> {
    (if d.words < 120 then [BodyTooShort] else [])
    + (if Below(d.brandScore, 70.0) then [BrandVoice] else [])
    + (if Below(d.qualityScore, 70.0) then [Quality] else [])
    + (if Below(d.aiPatternScore, 75.0) then [MachineWriting] else [])
    + (if d.unverifiedClaims > 0 then [UnverifiedClaims] else [])
    + (if !d.hasMetaTitle || !d.hasMetaDescription then [MissingMeta] else [])
  }

  /** A draft fails no gate exactly when it is long enough, every score it has clears
      its threshold, every claim is verified and both meta fields are filled; a score
      that was never taken does not count against it. */
  lemma ReadyExactly(d: Draft)
    ensures FailingGates(d) == [] <==>
            && d.words >= 120 && d.unverifiedClaims == 0 && d.hasMetaTitle && d.hasMetaDescription
            && (d.brandScore.Some? ==> d.brandScore.value >= 70.0)
            && (d.qualityScore.Some? ==> d.qualityScore.value >= 70.0)
            && (d.aiPatternScore.Some? ==> d.aiPatternScore.value >= 75.0)
  {
    if FailingGates(d) == [] {
      assert |FailingGates(d)| == 0;
    }
  }

  lemma InOneOfSix(a: seq<Gate>, b: seq<Gate>, c: seq<Gate>, d: seq<Gate>, e: seq<Gate>, f: seq<Gate>, g: Gate)
    ensures g in a + b + c + d + e + f <==> g in a || g in b || g in c || g in d || g in e || g in f
  {
    assert g in a + b <==> g in a || g in b;
    assert g in a + b + c <==> g in a + b || g in c;
    assert g in a + b + c + d <==> g in a + b + c || g in d;
    assert g in a + b + c + d + e <==> g in a + b + c + d || g in e;
  }

  /** Whether a draft fails a given gate. */
  lemma GateExactly(d: Draft, g: Gate)
    ensures g in FailingGates(d) <==>
            match g
            case BodyTooShort => d.words < 120
            case BrandVoice => exists x :: d.brandScore == Some(x) && x < 70.0
            case Quality => exists x :: d.qualityScore == Some(x) && x < 70.0
            case MachineWriting => exists x :: d.aiPatternScore == Some(x) && x < 75.0
            case UnverifiedClaims => d.unverifiedClaims > 0
            case MissingMeta => !(d.hasMetaTitle && d.hasMetaDescription)
  {
    InOneOfSix(if d.words < 120 then [BodyTooShort] else [],
               if Below(d.brandScore, 70.0) then [BrandVoice] else [],
               if Below(d.qualityScore, 70.0) then [Quality] else [],
               if Below(d.aiPatternScore, 75.0) then [MachineWriting] else [],
               if d.unverifiedClaims > 0 then [UnverifiedClaims] else [],
               if !d.hasMetaTitle || !d.hasMetaDescription then [MissingMeta] else [], g);
  }

  datatype Refusal = NotAllowed | NotReady(gates: seq<Gate>)

  /** Entering a stage, and the gates the draft failed at that moment. */
  datatype Entry = Entry(stage: Stage, failing: seq<Gate>)

  /** Stages a client's approval is needed to reach. */
  predicate Released(stage: Stage) {
    stage in {Approved, Scheduled, Publishing, Published, Updating}
  }

  /** Stages in which the text is being worked on. */
  predicate InTheWorks(stage: Stage) {
    stage in {Drafting, Editing, Qa}
  }

  /** Position `j` is the latest entry to review, clean, and no work was done since. */
  ghost predicate ReviewedAt(history: seq<Entry>, j: nat) {
    && j < |history| && history[j] == Entry(Review, [])
    && forall k :: j < k < |history| ==> history[k].stage != Review && !InTheWorks(history[k].stage)
  }

  ghost predicate Reviewed(history: seq<Entry>) {
    exists j: nat :: ReviewedAt(history, j)
  }

  function Revisions(history: seq<Entry>): nat {
    if history == [] then 0
    else Revisions(history[..|history| - 1]) + if history[|history| - 1].stage == ChangesRequested then 1 else 0
  }

  ghost predicate LegalHistory(history: seq<Entry>) {
    && |history| >= 1 && history[0].stage == Idea
    && (forall k :: 0 <= k < |history| - 1 ==> history[k + 1].stage in Transitions(history[k].stage))
    && (forall k :: 0 <= k < |history| && history[k].stage == Review ==> history[k].failing == [])
  }

  /** A released stage is entered only from review or another released stage. */
  lemma ReleasedIsEntered(from: Stage, to: Stage)
    requires Released(to) && to in Transitions(from)
    ensures (from == Review || Released(from)) && to != Review && !InTheWorks(to)
  {
  }

  /** In any legal history, an item in a released stage went through a clean review
      after the last time its text was worked on. */
  lemma {:induction false} ReleasedMeansReviewed(history: seq<Entry>)
    requires LegalHistory(history)
    ensures Released(history[|history| - 1].stage) || history[|history| - 1].stage == Review ==> Reviewed(history)
  {
    var last := |history| - 1;
    var stage := history[last].stage;
    if stage == Review {
      assert ReviewedAt(history, last);
    } else if Released(stage) {
      var front := history[..last];
      assert history[last - 1 + 1].stage in Transitions(history[last - 1].stage);
      ReleasedIsEntered(history[last - 1].stage, stage);
      hide Transitions, Released, InTheWorks;
      assert LegalHistory(front);
      ReleasedMeansReviewed(front);
      var j: nat :| ReviewedAt(front, j);
      assert ReviewedAt(history, j);
    }
  }

  lemma MoveIsLegal(history: seq<Entry>, e: Entry)
    requires LegalHistory(history) && e.stage in Transitions(history[|history| - 1].stage)
    requires e.stage == Review ==> e.failing == []
    ensures LegalHistory(history + [e])
    ensures Revisions(history + [e]) == Revisions(history) + if e.stage == ChangesRequested then 1 else 0
  {
    hide Transitions;
    var longer := history + [e];
    assert longer[..|longer| - 1] == history;
    forall k | 0 <= k < |longer| - 1
      ensures longer[k + 1].stage in Transitions(longer[k].stage)
    {
      if k < |history| - 1 { assert history[k + 1].stage in Transitions(history[k].stage); }
    }
  }

  class ContentItem {
    var status: Stage
    var draft: Draft
    var revisionCount: nat
    var version: nat
    ghost var history: seq<Entry>

    ghost predicate Valid()
      reads this
    {
      && LegalHistory(history) && history[|history| - 1].stage == status
      && revisionCount == Revisions(history)
    }

    constructor (draft: Draft)
      ensures Valid() && status == Idea && this.draft == draft && revisionCount == 0 && version == 0
      ensures history == [Entry(Idea, FailingGates(draft))]
    {
      status, this.draft, revisionCount, version := Idea, draft, 0, 0;
      history := [Entry(Idea, FailingGates(draft))];
      new;
      assert history[..0] == [];
    }

    /** Moves the item, or refuses and leaves it untouched. */
    method Transition(next: Stage, snapshot: bool) returns (r: Result<Stage, Refusal>)
      requires Valid()
      modifies this
      ensures Valid() && draft == old(draft)
      ensures r == Err(NotAllowed) <==> next !in Transitions(old(status))
      ensures r.Err? && r.error.NotReady? <==>
                next in Transitions(old(status)) && next == Review && FailingGates(draft) != []
      ensures r.Err? && r.error.NotReady? ==> r.error.gates == FailingGates(draft)
      ensures r.Err? ==> unchanged(this)
      ensures r.Ok? ==>
                && status == next && history == old(history) + [Entry(next, FailingGates(draft))]
                && version == old(version) + (if snapshot then 1 else 0)
                && revisionCount == old(revisionCount) + (if next == ChangesRequested then 1 else 0)
    {
      hide FailingGates, Transitions, LegalHistory, Revisions;
      if next !in Transitions(status) {
        return Err(NotAllowed);
      }
      if next == Review {
        var failures := FailingGates(draft);
        if failures != [] {
          return Err(NotReady(failures));
        }
      }
      MoveIsLegal(history, Entry(next, FailingGates(draft)));
      status := next;
      if next == ChangesRequested {
        revisionCount := revisionCount + 1;
      }
      if snapshot {
        version := version + 1;
      }
      history := history + [Entry(next, FailingGates(draft))];
      r := Ok(next);
    }

    /** Any edit of the text or its scores, in any stage. */
    method Edit(changed: Draft)
      requires Valid()
      modifies this`draft
      ensures Valid() && draft == changed
    {
      draft := changed;
    }
  }

  datatype Operation = MoveTo(next: Stage, snapshot: bool) | Rewrite(draft: Draft)

  // ---------- what is released, and what was reviewed ----------

  datatype Item = Item(stage: Stage, draft: Draft)

  predicate Moves(item: Item, next: Stage) {
    next in Transitions(item.stage) && (next == Review ==> FailingGates(item.draft) == [])
  }

  function Operated(item: Item, op: Operation): Item {
    match op
    case MoveTo(next, _) => if Moves(item, next) then item.(stage := next) else item
    case Rewrite(changed) => item.(draft := changed)
  }

  /** An item after a run of operations. */
  function After(draft: Draft, operations: seq<Operation>): Item {
    if operations == [] then Item(Idea, draft)
    else Operated(After(draft, operations[..|operations| - 1]), operations[|operations| - 1])
  }

  predicate EntersReview(item: Item, op: Operation) {
    op.MoveTo? && op.next == Review && Moves(item, Review)
  }

  /** The draft the latest review was given. */
  function Seen(draft: Draft, operations: seq<Operation>): Option<Draft> {
    if operations == [] then None
    else
      var before := After(draft, operations[..|operations| - 1]);
      if EntersReview(before, operations[|operations| - 1]) then Some(before.draft)
      else Seen(draft, operations[..|operations| - 1])
  }

  /** The latest rewrite since that review. */
  function Rewritten(draft: Draft, operations: seq<Operation>): Option<Draft> {
    if operations == [] then None
    else
      var op := operations[|operations| - 1];
      if EntersReview(After(draft, operations[..|operations| - 1]), op) then None
      else if op.Rewrite? then Some(op.draft)
      else Rewritten(draft, operations[..|operations| - 1])
  }

  lemma {:induction false} DraftSinceReview(draft: Draft, operations: seq<Operation>)
    ensures var item, seen := After(draft, operations), Seen(draft, operations);
            && (Released(item.stage) || item.stage == Review ==> seen.Some?)
            && (seen.Some? ==>
                  && FailingGates(seen.value) == []
                  && item.draft == match Rewritten(draft, operations) case Some(changed) => changed case None => seen.value)
  {
    if operations != [] {
      var front, op := operations[..|operations| - 1], operations[|operations| - 1];
      DraftSinceReview(draft, front);
      var before := After(draft, front);
      if op.MoveTo? && Moves(before, op.next) && Released(op.next) {
        ReleasedIsEntered(before.stage, op.next);
      }
      hide FailingGates, Transitions;
    }
  }

  /** What is released was reviewed clean, but editing is allowed in every stage: the
      released draft is the reviewed one if nobody has rewritten it since, and passes the
      gates if and only if nobody has, or the latest rewrite passes them too. */
  lemma ReleasedPassesExactly(draft: Draft, operations: seq<Operation>)
    requires Released(After(draft, operations).stage)
    ensures var item, seen, rewritten := After(draft, operations), Seen(draft, operations), Rewritten(draft, operations);
            && seen.Some? && FailingGates(seen.value) == []
            && (rewritten.None? ==> item.draft == seen.value)
            && (FailingGates(item.draft) == [] <==> rewritten.None? || FailingGates(rewritten.value) == [])
  {
    DraftSinceReview(draft, operations);
  }

  const TO_PUBLISHED := [MoveTo(Briefed, false), MoveTo(Drafting, false), MoveTo(Editing, false), MoveTo(Qa, false),
                         MoveTo(Review, false), MoveTo(Approved, false), MoveTo(Publishing, false), MoveTo(Published, false)]

  lemma NextOperation(draft: Draft, operations: seq<Operation>, n: nat)
    requires n < |operations|
    ensures After(draft, operations[..n + 1]) == Operated(After(draft, operations[..n]), operations[n])
  {
    assert operations[..n + 1][..n] == operations[..n];
  }

  /** What is published can fail any gate: a clean draft goes through, and is rewritten. */
  lemma PublishedMayFail(clean: Draft, changed: Draft)
    requires FailingGates(clean) == []
    ensures After(clean, TO_PUBLISHED + [Rewrite(changed)]) == Item(Published, changed)
  {
    hide FailingGates;
    var operations := TO_PUBLISHED;
    for n := 0 to 8
      invariant After(clean, operations[..n]) == Item(if n == 0 then Idea else operations[n - 1].next, clean)
    {
      NextOperation(clean, operations, n);
    }
    assert operations[..8] == operations;
    NextOperation(clean, operations + [Rewrite(changed)], 8);
    assert (operations + [Rewrite(changed)])[..8] == operations && (operations + [Rewrite(changed)])[..9] == operations + [Rewrite(changed)];
  }

  /** Any run of moves and edits: a released item has passed a clean review after its
      last work, and its revision count is the number of change requests. */
  method Live(draft: Draft, operations: seq<Operation>) returns (item: ContentItem)
    ensures item.Valid() && fresh(item)
    ensures Item(item.status, item.draft) == After(draft, operations)
    ensures Released(item.status) ==> Reviewed(item.history)
    ensures item.revisionCount == Revisions(item.history)
  {
    hide FailingGates, Transitions, LegalHistory, Revisions;
    item := new ContentItem(draft);
    for k := 0 to |operations|
      invariant item.Valid() && fresh(item)
      invariant Item(item.status, item.draft) == After(draft, operations[..k])
    {
      NextOperation(draft, operations, k);
      match operations[k] {
        case MoveTo(next, snapshot) =>
          var r := item.Transition(next, snapshot);
        case Rewrite(changed) =>
          item.Edit(changed);
      }
    }
    assert operations[..|operations|] == operations;
    ReleasedMeansReviewed(item.history);
  }
}

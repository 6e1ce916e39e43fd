/** Scores: size-normalised penalties under severity caps. */
module Scoring {
  import opened Common

  datatype Severity = Critical | High | Medium | Low | Info | OtherSeverity

  datatype Finding = Finding(category: string, severity: Severity, affected: nat)

  function Weight(s: Severity): real {
    match s
    case Critical => 12.0
    case High => 6.0
    case Medium => 2.5
    case Low => 1.0
    case Info => 0.25
    case OtherSeverity => 1.0
  }

  /** A site's size: its page count and the square root the penalties are divided by. */
  datatype Size = Size(pages: nat, root: real)

  ghost predicate RightRoot(size: Size) {
    size.root > 0.0 && size.root * size.root == AtLeastOne(size.pages) as real
  }

  function AtLeastOne(n: nat): nat {
    if n > 1 then n else 1
  }

  function Penalty(f: Finding, size: Size): (p: real)
    ensures p >= Weight(f.severity) >= 0.25
  {
    var breadth := 1.0 + MinReal(f.affected as real / AtLeastOne(size.pages) as real, 2.0);
    assert breadth >= 1.0 && Weight(f.severity) >= 0.25;
    assert Weight(f.severity) * breadth - Weight(f.severity) == Weight(f.severity) * (breadth - 1.0) >= 0.0;
    Weight(f.severity) * breadth
  }

  function TotalPenalty(fs: seq<Finding>, size: Size): (p: real)
    ensures p >= 0.0
  {
    if fs == [] then 0.0 else TotalPenalty(fs[..|fs| - 1], size) + Penalty(fs[|fs| - 1], size)
  }

  function Relevant(fs: seq<Finding>, category: string): seq<Finding> {
    if fs == [] then []
    else
      Relevant(fs[..|fs| - 1], category)
      + (if fs[|fs| - 1].category == category then [fs[|fs| - 1]] else [])
  }

  function Count(fs: seq<Finding>, s: Severity): nat {
    if fs == [] then 0 else Count(fs[..|fs| - 1], s) + if fs[|fs| - 1].severity == s then 1 else 0
  }

  /** The cap for a severity, lowered four percent for each further finding, at most eight times. */
  function Cap(base: real, n: nat): real
    requires n >= 1
  {
    base - (if n - 1 <= 8 then n - 1 else 8) as real * (base * 0.04)
  }

  /** The cap of a category: that of the worst severity present. */
  function Ceiling(fs: seq<Finding>): real {
    if Count(fs, Critical) > 0 then MinReal(100.0, Cap(55.0, Count(fs, Critical)))
    else if Count(fs, High) > 0 then MinReal(100.0, Cap(78.0, Count(fs, High)))
    else if Count(fs, Medium) > 0 then MinReal(100.0, Cap(92.0, Count(fs, Medium)))
    else 100.0
  }

  function Normalised(fs: seq<Finding>, size: Size): real
    requires size.root > 0.0
  {
    TotalPenalty(fs, size) / size.root * 2.2
  }

  /** A category's score from its relevant findings, before rounding. */
  function RawScore(fs: seq<Finding>, size: Size): real
    requires size.root > 0.0
  {
    if fs == [] then 100.0
    else MaxReal(0.0, MinReal(100.0 - Normalised(fs, size), Ceiling(fs)))
  }

  /** Rounding: monotone, and exact on the numbers the caps are stated in. */
  ghost predicate Rounds(round: real -> real) {
    && (forall a, b :: a <= b ==> round(a) <= round(b))
    && round(0.0) == 0.0 && round(100.0) == 100.0 && round(69.0) == 69.0 && round(87.0) == 87.0
  }

  /** A category's score. */
  function Component(fs: seq<Finding>, category: string, size: Size, round: real -> real): real
    requires size.root > 0.0
  {
    if Relevant(fs, category) == [] then 100.0 else round(RawScore(Relevant(fs, category), size))
  }

  /** Scores one category. */
  method CategoryScore(fs: seq<Finding>, category: string, size: Size, round: real -> real) returns (score: real)
    requires RightRoot(size)
    ensures score == Component(fs, category, size, round)
  {
    var relevant := Relevant(fs, category);
    if relevant == [] {
      return 100.0;
    }
    var penalty := 0.0;
    for i := 0 to |relevant|
      invariant penalty == TotalPenalty(relevant[..i], size)
    {
      assert relevant[..i + 1][..i] == relevant[..i];
      penalty := penalty + Penalty(relevant[i], size);
    }
    assert relevant[..|relevant|] == relevant;
    var normalised := penalty / size.root * 2.2;
    var ceiling := 100.0;
    var caps := [(Critical, 55.0), (High, 78.0), (Medium, 92.0)];
    for k := 0 to 3
      invariant ceiling == 100.0
      invariant k > 0 ==> Count(relevant, Critical) == 0
      invariant k > 1 ==> Count(relevant, High) == 0
      invariant k > 2 ==> Count(relevant, Medium) == 0
    {
      var matching := Count(relevant, caps[k].0);
      if matching > 0 {
        ceiling := MinReal(ceiling, Cap(caps[k].1, matching));
        assert ceiling == Ceiling(relevant);
        break;
      }
    }
    assert ceiling == Ceiling(relevant);
    return round(MaxReal(0.0, MinReal(100.0 - normalised, ceiling)));
  }

  /** What a severity weighs. */
  ghost predicate Weighing(s: Severity, w: real) {
    match s
    case Critical => w == 12.0
    case High => w == 6.0
    case Medium => w == 2.5
    case Low => w == 1.0
    case Info => w == 0.25
    case OtherSeverity => w == 1.0
  }

  /** What one more finding takes off a category's score before caps and rounding: 2.2 times
      its weight over the root of the site's size, widened by the share of the site it
      affects and at most threefold. Nothing is taken off where there is no finding. */
  lemma PenaltyExactly(fs: seq<Finding>, f: Finding, size: Size, w: real)
    requires size.root > 0.0 && Weighing(f.severity, w)
    ensures var pages := (if size.pages == 0 then 1 else size.pages) as real;
            var extra := Normalised(fs + [f], size) - Normalised(fs, size);
            && (f.affected as real <= 2.0 * pages ==> extra * size.root * pages == 2.2 * w * (pages + f.affected as real))
            && (f.affected as real >= 2.0 * pages ==> extra * size.root == 6.6 * w)
    ensures Normalised([], size) == 0.0
  {
    hide Penalty, TotalPenalty, Count;
    OneMoreCounts(fs, f, size);
    NothingToPay(size);
    OneMoreNormalised(TotalPenalty(fs, size), Penalty(f, size), size.root);
    var pages := (if size.pages == 0 then 1 else size.pages) as real;
    var extra := Normalised(fs + [f], size) - Normalised(fs, size);
    assert extra * size.root == 2.2 * Penalty(f, size);
    PenaltyOfOne(f, size, w);
    hide Normalised;
    if f.affected as real <= 2.0 * pages {
      TimesBoth(extra * size.root, Penalty(f, size), pages, w * (pages + f.affected as real));
    }
  }

  lemma NothingToPay(size: Size)
    requires size.root > 0.0
    ensures TotalPenalty([], size) == 0.0 && 0.0 / size.root * 2.2 == 0.0
  {
  }

  lemma OneMoreNormalised(total: real, penalty: real, root: real)
    requires root > 0.0
    ensures ((total + penalty) / root * 2.2 - total / root * 2.2) * root == 2.2 * penalty
  {
    assert (total + penalty) / root == total / root + penalty / root;
    assert penalty / root * root == penalty;
  }

  lemma TimesBoth(a: real, b: real, c: real, d: real)
    requires a == 2.2 * b && b * c == d
    ensures a * c == 2.2 * d
  {
  }

  lemma PenaltyOfOne(f: Finding, size: Size, w: real)
    requires Weighing(f.severity, w)
    ensures var pages := (if size.pages == 0 then 1 else size.pages) as real;
            && (f.affected as real <= 2.0 * pages ==> Penalty(f, size) * pages == w * (pages + f.affected as real))
            && (f.affected as real >= 2.0 * pages ==> Penalty(f, size) == 3.0 * w)
  {
    Widened(w, f.affected as real, AtLeastOne(size.pages) as real);
  }

  lemma Widened(w: real, affected: real, pages: real)
    requires pages > 0.0
    ensures affected <= 2.0 * pages ==> w * (1.0 + MinReal(affected / pages, 2.0)) * pages == w * (pages + affected)
    ensures affected >= 2.0 * pages ==> w * (1.0 + MinReal(affected / pages, 2.0)) == 3.0 * w
  {
    var share := affected / pages;
    assert share * pages == affected;
    ScaleKeepsOrder(share, 2.0, pages);
    if affected <= 2.0 * pages {
      assert (1.0 + share) * pages == pages + affected;
      TimesThree(w, 1.0 + share, pages);
    }
  }

  lemma ScaleKeepsOrder(a: real, b: real, c: real)
    requires c > 0.0
    ensures a * c <= b * c <==> a <= b
  {
    assert (b - a) * c == b * c - a * c;
    if a > b { assert (a - b) * c > 0.0; } else { assert (b - a) * c >= 0.0; }
  }

  lemma TimesThree(a: real, b: real, c: real)
    ensures a * b * c == a * (b * c)
  {
  }

  /** Where the findings of a severity are. */
  ghost function Places(fs: seq<Finding>, s: Severity): set<nat> {
    set i: nat | i < |fs| && fs[i].severity == s
  }

  lemma PlacesOneMore(front: seq<Finding>, f: Finding, s: Severity)
    ensures Places(front + [f], s) == Places(front, s) + if f.severity == s then {|front|} else {}
    ensures |front| !in Places(front, s) && Places([], s) == {}
  {
    forall i: nat
      ensures i in Places(front + [f], s) <==> i in Places(front, s) || (i == |front| && f.severity == s)
    {
    }
  }

  lemma {:induction false} CountExactly(fs: seq<Finding>, s: Severity)
    ensures Count(fs, s) == |Places(fs, s)|
  {
    hide Places;
    if fs == [] {
      PlacesOneMore([], Finding("", s, 0), s);
    } else {
      var front, f := fs[..|fs| - 1], fs[|fs| - 1];
      CountExactly(front, s);
      PlacesOneMore(front, f, s);
      assert fs == front + [f];
    }
  }

  /** The cap is 55, 78 or 92 for one finding of the worst severity that has a cap, and
      four percent of that lower for each further one up to the ninth. */
  lemma CeilingExactly(fs: seq<Finding>, s: Severity)
    requires Count(fs, s) > 0
    requires s == Critical || (s == High && Count(fs, Critical) == 0) ||
             (s == Medium && Count(fs, Critical) == Count(fs, High) == 0)
    ensures var top := if s == Critical then 55.0 else if s == High then 78.0 else 92.0;
            && (Count(fs, s) == 1 ==> Ceiling(fs) == top)
            && (Count(fs, s) <= 9 ==> Ceiling(fs) == top - (Count(fs, s) - 1) as real * 0.04 * top)
            && (Count(fs, s) >= 9 ==> Ceiling(fs) == 0.68 * top)
  {
    hide Count;
  }

  /** A category without critical, high or medium findings is not capped. */
  lemma NoCeilingExactly(fs: seq<Finding>)
    ensures Ceiling(fs) == 100.0 <==> Count(fs, Critical) == Count(fs, High) == Count(fs, Medium) == 0
  {
    hide Count;
  }

  /** Adding the first critical to nine or more highs, or the first high to five or more
      mediums, is where the cap formula rises. */
  predicate CapRises(fs: seq<Finding>, f: Finding) {
    || (f.severity == Critical && Count(fs, Critical) == 0 && Count(fs, High) >= 9)
    || (f.severity == High && Count(fs, Critical) == 0 && Count(fs, High) == 0 && Count(fs, Medium) >= 5)
  }

  lemma OneMoreCounts(fs: seq<Finding>, f: Finding, size: Size)
    ensures forall s :: Count(fs + [f], s) == Count(fs, s) + if f.severity == s then 1 else 0
    ensures TotalPenalty(fs + [f], size) == TotalPenalty(fs, size) + Penalty(f, size)
  {
    assert (fs + [f])[..|fs|] == fs;
  }

  lemma CeilingRisesExactly(fs: seq<Finding>, f: Finding)
    ensures Ceiling(fs + [f]) > Ceiling(fs) <==> CapRises(fs, f)
    ensures 0.0 < Ceiling(fs) <= 100.0
  {
    OneMoreCounts(fs, f, Size(1, 1.0));
  }

  lemma PenaltiesGrow(fs: seq<Finding>, f: Finding, size: Size)
    requires size.root > 0.0
    ensures Normalised(fs + [f], size) > Normalised(fs, size) >= 0.0
  {
    hide Penalty, TotalPenalty;
    OneMoreCounts(fs, f, size);
    ScaledGrows(TotalPenalty(fs, size), Penalty(f, size), size.root);
  }

  lemma ScaledGrows(a: real, d: real, root: real)
    requires a >= 0.0 && d > 0.0 && root > 0.0
    ensures (a + d) / root * 2.2 > a / root * 2.2 >= 0.0
  {
    assert (a + d) / root == a / root + d / root;
  }

  /** Adding a finding raises a category's score exactly when the cap formula rises and
      the penalties leave room for it to show; otherwise the score never goes up. */
  lemma ScoreRisesExactly(fs: seq<Finding>, f: Finding, size: Size)
    requires size.root > 0.0
    ensures RawScore(fs + [f], size) > RawScore(fs, size) <==>
            CapRises(fs, f) && 100.0 - Normalised(fs + [f], size) > Ceiling(fs)
    ensures 0.0 <= RawScore(fs, size) <= 100.0
  {
    CeilingRisesExactly(fs, f);
    PenaltiesGrow(fs, f, size);
    if fs == [] {
      OneMoreCounts(fs, f, size);
    }
  }

  /** Adding a finding leaves every other category's score alone and, unless the cap
      formula rises, never raises the score of its own. */
  lemma AddingAFinding(fs: seq<Finding>, f: Finding, category: string, size: Size, round: real -> real)
    requires size.root > 0.0 && Rounds(round)
    ensures f.category != category ==> Component(fs + [f], category, size, round) == Component(fs, category, size, round)
    ensures f.category == category && !CapRises(Relevant(fs, category), f) ==>
              Component(fs + [f], category, size, round) <= Component(fs, category, size, round)
  {
    RelevantGrows(fs, f, category);
    var relevant := Relevant(fs, category);
    ScoreRisesExactly(relevant, f, size);
    ScoreRisesExactly(relevant + [f], f, size);
    hide RawScore, CapRises, Relevant, Ceiling, Normalised;
    if f.category == category && !CapRises(relevant, f) {
      assert relevant + [f] != [];
      assert round(RawScore(relevant + [f], size)) <= round(if relevant == [] then 100.0 else RawScore(relevant, size));
    }
  }

  lemma RelevantGrows(fs: seq<Finding>, f: Finding, category: string)
    ensures Relevant(fs + [f], category) ==
            if f.category == category then Relevant(fs, category) + [f] else Relevant(fs, category)
  {
    assert (fs + [f])[..|fs|] == fs;
  }

  function Copies(f: Finding, n: nat): seq<Finding> {
    if n == 0 then [] else Copies(f, n - 1) + [f]
  }

  lemma {:induction false} CountCopies(f: Finding, n: nat, s: Severity)
    ensures Count(Copies(f, n), s) == if s == f.severity then n else 0
  {
    if n > 0 {
      CountCopies(f, n - 1, s);
      assert Copies(f, n)[..n - 1] == Copies(f, n - 1) by { CopiesLength(f, n - 1); }
    }
  }

  lemma {:induction false} TotalOfHighs(f: Finding, n: nat, size: Size)
    requires Penalty(f, size) == 6.0
    ensures TotalPenalty(Copies(f, n), size) == n as real * 6.0
  {
    if n > 0 {
      hide Penalty;
      TotalOfHighs(f, n - 1, size);
      CopiesLength(f, n - 1);
      assert Copies(f, n)[..n - 1] == Copies(f, n - 1);
    }
  }

  lemma {:induction false} CopiesLength(f: Finding, n: nat)
    ensures |Copies(f, n)| == n
  {
    if n > 0 { CopiesLength(f, n - 1); }
  }

  const LARGE := Size(1000000, 1000.0)

  function NineHighs(category: string): seq<Finding> {
    Copies(Finding(category, High, 0), 9)
  }

  lemma PenaltiesOfNine(category: string)
    ensures Normalised(NineHighs(category), LARGE) == 54.0 / 1000.0 * 2.2
    ensures Normalised(NineHighs(category) + [Finding(category, Critical, 0)], LARGE) == 66.0 / 1000.0 * 2.2
  {
    hide Copies, Penalty, TotalPenalty, Count;
    var high, critical := Finding(category, High, 0), Finding(category, Critical, 0);
    UnspreadPenalty(high);
    UnspreadPenalty(critical);
    TotalOfHighs(high, 9, LARGE);
    OneMoreCounts(NineHighs(category), critical, LARGE);
  }

  /** A finding that affects no page in particular is not widened. */
  lemma UnspreadPenalty(f: Finding)
    requires f.affected == 0
    ensures Penalty(f, LARGE) == Weight(f.severity)
  {
    assert 0 as real / 1000000 as real == 0.0;
    hide Weight;
  }

  lemma CapsOfNine(category: string)
    ensures Ceiling(NineHighs(category)) == Cap(78.0, 9)
    ensures Ceiling(NineHighs(category) + [Finding(category, Critical, 0)]) == Cap(55.0, 1)
  {
    var high, critical := Finding(category, High, 0), Finding(category, Critical, 0);
    CountCopies(high, 9, High);
    CountCopies(high, 9, Critical);
    OneMoreCounts(NineHighs(category), critical, LARGE);
    hide Copies, Count;
  }

  /** The rise is real: nine highs and then a critical on a large site score better. */
  lemma CriticalCanRaiseTheScore(category: string)
    ensures RawScore(NineHighs(category), LARGE) == 53.04
    ensures RawScore(NineHighs(category) + [Finding(category, Critical, 0)], LARGE) == 55.0
  {
    hide Copies, Normalised, Ceiling;
    PenaltiesOfNine(category);
    CapsOfNine(category);
    CopiesLength(Finding(category, High, 0), 9);
  }

  // ---------- the headline ----------

  type Weights = seq<(string, real)>

  function WeightSum(ws: Weights): real {
    if ws == [] then 0.0 else WeightSum(ws[..|ws| - 1]) + ws[|ws| - 1].1
  }

  const HEALTH: Weights := [("technical", 0.26), ("content", 0.22), ("performance", 0.16), ("schema", 0.10),
                            ("ux", 0.10), ("analytics", 0.08), ("compliance", 0.08)]

  const AEO: Weights := [("aeo", 0.70), ("schema", 0.18), ("content", 0.12)]

  const AUTHORITY: Weights := [("offpage", 0.75), ("local", 0.25)]

  predicate Weighs(ws: Weights, category: string) {
    exists i :: 0 <= i < |ws| && ws[i].0 == category
  }

  predicate Present(fs: seq<Finding>, ws: Weights, s: Severity) {
    exists i :: 0 <= i < |fs| && fs[i].severity == s && Weighs(ws, fs[i].category)
  }

  function Share(component: real, weight: real): real {
    component * weight
  }

  function WeightedSum(fs: seq<Finding>, ws: Weights, size: Size, round: real -> real): real
    requires size.root > 0.0
  {
    if ws == [] then 0.0
    else
      WeightedSum(fs, ws[..|ws| - 1], size, round)
      + Share(Component(fs, ws[|ws| - 1].0, size, round), ws[|ws| - 1].1)
  }

  /** The most a headline may be, by the worst severity in its categories. */
  function HeadlineCap(fs: seq<Finding>, ws: Weights): real {
    if Present(fs, ws, Critical) then 69.0 else if Present(fs, ws, High) then 87.0 else 100.0
  }

  function Headline(fs: seq<Finding>, ws: Weights, size: Size, round: real -> real): real
    requires size.root > 0.0
  {
    MinReal(WeightedSum(fs, ws, size, round), HeadlineCap(fs, ws))
  }

  /** The weighted headline of a set of categories: in range, and capped by the worst
      severity outstanding. */
  method Weighted(fs: seq<Finding>, ws: Weights, size: Size, round: real -> real) returns (score: real)
    requires RightRoot(size) && Rounds(round)
    requires WeightSum(ws) == 1.0 && forall i :: 0 <= i < |ws| ==> ws[i].1 >= 0.0
    ensures score == round(Headline(fs, ws, size, round))
    ensures 0.0 <= score <= HeadlineCap(fs, ws)
    ensures var sum := WeightedSum(fs, ws, size, round);
            score == round(if Present(fs, ws, Critical) && sum > 69.0 then 69.0
                           else if !Present(fs, ws, Critical) && Present(fs, ws, High) && sum > 87.0 then 87.0
                           else sum)
  {
    hide Component, Present;
    var total := 0.0;
    for i := 0 to |ws|
      invariant total == WeightedSum(fs, ws[..i], size, round)
    {
      assert ws[..i + 1][..i] == ws[..i];
      var component := CategoryScore(fs, ws[i].0, size, round);
      total := total + component * ws[i].1;
    }
    assert ws[..|ws|] == ws;
    WeightedInRange(fs, ws, size, round);
    if Present(fs, ws, Critical) {
      total := MinReal(total, 69.0);
    } else if Present(fs, ws, High) {
      total := MinReal(total, 87.0);
    }
    return round(total);
  }

  lemma {:induction false} WeightedInRange(fs: seq<Finding>, ws: Weights, size: Size, round: real -> real)
    requires size.root > 0.0 && Rounds(round) && forall i :: 0 <= i < |ws| ==> ws[i].1 >= 0.0
    ensures 0.0 <= WeightedSum(fs, ws, size, round) <= 100.0 * WeightSum(ws)
  {
    if ws != [] {
      hide Component, Rounds, Share;
      var last := |ws| - 1;
      WeightedInRange(fs, ws[..last], size, round);
      ComponentInRange(fs, ws[last].0, size, round);
      AddShare(WeightedSum(fs, ws[..last], size, round), WeightSum(ws[..last]),
               Component(fs, ws[last].0, size, round), ws[last].1);
    }
  }

  lemma AddShare(sum: real, weights: real, component: real, weight: real)
    requires 0.0 <= sum <= 100.0 * weights && 0.0 <= component <= 100.0 && weight >= 0.0
    ensures 0.0 <= sum + Share(component, weight) <= 100.0 * (weights + weight)
  {
    ShareInRange(component, weight);
  }

  lemma ShareInRange(component: real, weight: real)
    requires 0.0 <= component <= 100.0 && weight >= 0.0
    ensures 0.0 <= Share(component, weight) <= 100.0 * weight
  {
    assert 100.0 * weight - component * weight == (100.0 - component) * weight >= 0.0;
  }

  lemma ComponentInRange(fs: seq<Finding>, category: string, size: Size, round: real -> real)
    requires size.root > 0.0 && Rounds(round)
    ensures 0.0 <= Component(fs, category, size, round) <= 100.0
  {
    ScoreRisesExactly(Relevant(fs, category), Finding("", Low, 0), size);
  }

  /** How heavily a category counts. */
  function WeightOf(ws: Weights, category: string): real {
    if ws == [] then 0.0
    else WeightOf(ws[..|ws| - 1], category) + if ws[|ws| - 1].0 == category then ws[|ws| - 1].1 else 0.0
  }

  lemma {:induction false} SumMovesByShare(fs: seq<Finding>, f: Finding, ws: Weights, size: Size, round: real -> real)
    requires size.root > 0.0 && Rounds(round) && forall i :: 0 <= i < |ws| ==> ws[i].1 >= 0.0
    ensures WeightOf(ws, f.category) >= 0.0
    ensures WeightedSum(fs + [f], ws, size, round) == WeightedSum(fs, ws, size, round)
            + Share(Component(fs + [f], f.category, size, round) - Component(fs, f.category, size, round), WeightOf(ws, f.category))
  {
    hide Component, Rounds, Share;
    var was, now := Component(fs, f.category, size, round), Component(fs + [f], f.category, size, round);
    if ws == [] {
      NothingToShare(now - was);
    } else {
      var front, last := ws[..|ws| - 1], ws[|ws| - 1];
      SumMovesByShare(fs, f, front, size, round);
      AddingAFinding(fs, f, last.0, size, round);
      ShareMoves(was, now, WeightOf(front, f.category), last.1);
    }
  }

  lemma {:induction false} CountsAtLeast(ws: Weights, i: nat)
    requires i < |ws| && forall j :: 0 <= j < |ws| ==> ws[j].1 >= 0.0
    ensures WeightOf(ws, ws[i].0) >= ws[i].1
  {
    if i < |ws| - 1 {
      CountsAtLeast(ws[..|ws| - 1], i);
    } else {
      NeverNegative(ws[..i], ws[i].0);
    }
  }

  lemma {:induction false} NeverNegative(ws: Weights, category: string)
    requires forall j :: 0 <= j < |ws| ==> ws[j].1 >= 0.0
    ensures WeightOf(ws, category) >= 0.0
  {
    if ws != [] {
      NeverNegative(ws[..|ws| - 1], category);
    }
  }

  lemma NothingToShare(d: real)
    ensures Share(d, 0.0) == 0.0
  {
  }

  lemma ShareMoves(was: real, now: real, a: real, b: real)
    ensures Share(now, b) == Share(was, b) + Share(now - was, b)
    ensures Share(now - was, a + b) == Share(now - was, a) + Share(now - was, b)
  {
  }

  lemma CapsOnlyFall(fs: seq<Finding>, f: Finding, ws: Weights)
    ensures HeadlineCap(fs + [f], ws) <= HeadlineCap(fs, ws)
  {
    forall s | Present(fs, ws, s)
      ensures Present(fs + [f], ws, s)
    {
      var i :| 0 <= i < |fs| && fs[i].severity == s && Weighs(ws, fs[i].category);
      assert (fs + [f])[i] == fs[i];
    }
  }

  /** Adding a finding raises the headline, before it is rounded, if and only if its
      category counts, that category's own score goes up, and the severity now present
      leaves room above the old average: which only happens where the cap formula rises. */
  lemma HeadlineRisesExactly(fs: seq<Finding>, f: Finding, ws: Weights, size: Size, round: real -> real)
    requires size.root > 0.0 && Rounds(round) && forall i :: 0 <= i < |ws| ==> ws[i].1 >= 0.0
    ensures Headline(fs + [f], ws, size, round) > Headline(fs, ws, size, round) <==>
            && WeightOf(ws, f.category) > 0.0
            && Component(fs + [f], f.category, size, round) > Component(fs, f.category, size, round)
            && HeadlineCap(fs + [f], ws) > WeightedSum(fs, ws, size, round)
    ensures Headline(fs + [f], ws, size, round) > Headline(fs, ws, size, round) ==> CapRises(Relevant(fs, f.category), f)
  {
    SumMovesByShare(fs, f, ws, size, round);
    CapsOnlyFall(fs, f, ws);
    AddingAFinding(fs, f, f.category, size, round);
    hide Component, HeadlineCap, WeightedSum, WeightOf, CapRises, Relevant, Share, MinReal, Rounds;
    var rise := Component(fs + [f], f.category, size, round) - Component(fs, f.category, size, round);
    SignOfShare(rise, WeightOf(ws, f.category));
    CappedRises(WeightedSum(fs, ws, size, round), Share(rise, WeightOf(ws, f.category)), HeadlineCap(fs, ws), HeadlineCap(fs + [f], ws));
  }

  lemma CappedRises(sum: real, rise: real, cap: real, lower: real)
    requires lower <= cap
    ensures MinReal(sum + rise, lower) > MinReal(sum, cap) <==> rise > 0.0 && lower > sum
  {
  }

  /** Where the cap formula rises it rises by more than any rounding. */
  lemma RiseIsLarge(fs: seq<Finding>, f: Finding)
    requires CapRises(fs, f)
    ensures Ceiling(fs + [f]) >= Ceiling(fs) + 0.7
  {
    OneMoreCounts(fs, f, LARGE);
    hide Count;
  }

  /** The room the penalties leave above the old cap. */
  function RoomAbove(fs: seq<Finding>, f: Finding, size: Size): real
    requires size.root > 0.0
  {
    100.0 - Normalised(fs + [f], size) - Ceiling(fs)
  }

  /** A category's rounded score rises only where the cap formula rises and the penalties
      leave room, and it does where they leave more room than rounding to one decimal can
      take away. */
  lemma ComponentRises(fs: seq<Finding>, f: Finding, size: Size, round: real -> real)
    requires size.root > 0.0 && Rounds(round) && forall x :: x - 0.05 <= round(x) <= x + 0.05
    ensures var (was, now) := (Component(fs, f.category, size, round), Component(fs + [f], f.category, size, round));
            var relevant := Relevant(fs, f.category);
            && (now > was ==> CapRises(relevant, f) && RoomAbove(relevant, f, size) > 0.0)
            && (CapRises(relevant, f) && RoomAbove(relevant, f, size) > 0.1 ==> now > was)
  {
    hide Relevant, Normalised, Ceiling, CapRises;
    var relevant := Relevant(fs, f.category);
    RelevantGrows(fs, f, f.category);
    ScoreRisesExactly(relevant, f, size);
    ScoreRisesExactly(relevant + [f], f, size);
    CapRisesBeside(relevant, f);
    if CapRises(relevant, f) && RoomAbove(relevant, f, size) > 0.1 {
      RiseIsLarge(relevant, f);
      PenaltiesGrow(relevant, f, size);
      CeilingRisesExactly(relevant, f);
      assert RawScore(relevant, size) == Ceiling(relevant);
      assert RawScore(relevant + [f], size) > RawScore(relevant, size) + 0.1;
    }
  }

  lemma CapRisesBeside(fs: seq<Finding>, f: Finding)
    ensures CapRises(fs, f) ==> fs != []
  {
  }

  /** So a headline rises only if a category that counts has its cap raised with room
      above it and the worst severity now present leaves room above the old average; and
      that is enough where the first room is more than a tenth. */
  lemma HeadlineRisesWithTheCap(fs: seq<Finding>, f: Finding, ws: Weights, size: Size, round: real -> real)
    requires size.root > 0.0 && Rounds(round) && (forall x :: x - 0.05 <= round(x) <= x + 0.05)
    requires forall i :: 0 <= i < |ws| ==> ws[i].1 >= 0.0
    ensures var relevant := Relevant(fs, f.category);
            var rises := Headline(fs + [f], ws, size, round) > Headline(fs, ws, size, round);
            var counts := WeightOf(ws, f.category) > 0.0 && HeadlineCap(fs + [f], ws) > WeightedSum(fs, ws, size, round);
            && (rises ==> counts && CapRises(relevant, f) && RoomAbove(relevant, f, size) > 0.0)
            && (counts && CapRises(relevant, f) && RoomAbove(relevant, f, size) > 0.1 ==> rises)
  {
    hide Relevant, Component, CapRises, RoomAbove, Headline, WeightedSum, WeightOf, HeadlineCap;
    HeadlineRisesExactly(fs, f, ws, size, round);
    ComponentRises(fs, f, size, round);
  }

  lemma SignOfShare(d: real, weight: real)
    requires weight >= 0.0
    ensures Share(d, weight) > 0.0 <==> d > 0.0 && weight > 0.0
  {
    if weight > 0.0 && d <= 0.0 {
      assert (-d) * weight >= 0.0;
    }
  }

  lemma {:induction false} OnlyIn(f: Finding, n: nat, category: string)
    ensures Relevant(Copies(f, n), category) == if category == f.category then Copies(f, n) else []
  {
    if n > 0 {
      CopiesLength(f, n - 1);
      OnlyIn(f, n - 1, category);
      RelevantGrows(Copies(f, n - 1), f, category);
    }
  }

  lemma NextShare(fs: seq<Finding>, ws: Weights, n: nat, size: Size, round: real -> real)
    requires n < |ws| && size.root > 0.0
    ensures WeightedSum(fs, ws[..n + 1], size, round)
            == WeightedSum(fs, ws[..n], size, round) + Share(Component(fs, ws[n].0, size, round), ws[n].1)
    ensures forall c :: WeightOf(ws[..n + 1], c) == WeightOf(ws[..n], c) + if ws[n].0 == c then ws[n].1 else 0.0
  {
    assert ws[..n + 1][..n] == ws[..n];
  }

  lemma AeoSum(fs: seq<Finding>, size: Size, round: real -> real)
    requires size.root > 0.0
    ensures WeightedSum(fs, AEO, size, round)
            == Share(Component(fs, "aeo", size, round), 0.70) + Share(Component(fs, "schema", size, round), 0.18)
               + Share(Component(fs, "content", size, round), 0.12)
    ensures WeightOf(AEO, "aeo") > 0.0
  {
    hide Component, Share, WeightedSum, WeightOf;
    assert "aeo"[0] == 'a' && "schema"[0] == 's' && "content"[0] == 'c';
    NextShare(fs, AEO, 0, size, round);
    NextShare(fs, AEO, 1, size, round);
    NextShare(fs, AEO, 2, size, round);
    NoShare(fs, AEO, size, round);
    assert AEO[..3] == AEO;
    CountsAtLeast(AEO, 0);
  }

  lemma NoShare(fs: seq<Finding>, ws: Weights, size: Size, round: real -> real)
    requires size.root > 0.0
    ensures WeightedSum(fs, ws[..0], size, round) == 0.0 && forall c :: WeightOf(ws[..0], c) == 0.0
  {
  }

  lemma AeoOfNine(round: real -> real)
    requires Rounds(round) && round(53.04) == 53.0 && round(55.0) == 55.0
    ensures var nine, critical := NineHighs("aeo"), Finding("aeo", Critical, 0);
            && Component(nine, "aeo", LARGE, round) == 53.0 && Component(nine + [critical], "aeo", LARGE, round) == 55.0
            && WeightedSum(nine, AEO, LARGE, round) < 69.0
  {
    hide RawScore, Relevant, WeightedSum, Copies;
    var high, critical, nine := Finding("aeo", High, 0), Finding("aeo", Critical, 0), NineHighs("aeo");
    assert "aeo"[0] == 'a' && "schema"[0] == 's' && "content"[0] == 'c';
    CriticalCanRaiseTheScore("aeo");
    OnlyIn(high, 9, "aeo"); OnlyIn(high, 9, "schema"); OnlyIn(high, 9, "content");
    RelevantGrows(nine, critical, "aeo");
    CopiesLength(high, 9);
    AeoSum(nine, LARGE, round);
  }

  /** It happens: on a large site with nine high findings in the answer-engine category
      and none elsewhere, one more that is critical improves that headline. */
  lemma CriticalCanRaiseTheHeadline(round: real -> real)
    requires Rounds(round) && round(53.04) == 53.0 && round(55.0) == 55.0
    ensures Headline(NineHighs("aeo") + [Finding("aeo", Critical, 0)], AEO, LARGE, round) > Headline(NineHighs("aeo"), AEO, LARGE, round)
  {
    hide Component, WeightedSum, WeightOf, Headline, Copies, Relevant;
    var nine, critical := NineHighs("aeo"), Finding("aeo", Critical, 0);
    AeoOfNine(round);
    AeoSum(nine, LARGE, round);
    HeadlineRisesExactly(nine, critical, AEO, LARGE, round);
  }

  lemma NextWeight(ws: Weights, n: nat)
    requires n < |ws|
    ensures WeightSum(ws[..n + 1]) == WeightSum(ws[..n]) + ws[n].1
  {
    assert ws[..n + 1][..n] == ws[..n];
  }

  /** The three headline scores are true averages. */
  lemma HeadlinesAreAverages()
    ensures WeightSum(HEALTH) == 1.0 && WeightSum(AEO) == 1.0 && WeightSum(AUTHORITY) == 1.0
  {
    NextWeight(HEALTH, 0); NextWeight(HEALTH, 1); NextWeight(HEALTH, 2); NextWeight(HEALTH, 3);
    NextWeight(HEALTH, 4); NextWeight(HEALTH, 5); NextWeight(HEALTH, 6);
    NextWeight(AEO, 0); NextWeight(AEO, 1); NextWeight(AEO, 2);
    NextWeight(AUTHORITY, 0); NextWeight(AUTHORITY, 1);
    assert HEALTH[..7] == HEALTH && AEO[..3] == AEO && AUTHORITY[..2] == AUTHORITY;
  }
}

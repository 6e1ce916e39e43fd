/** Mission definitions: validation and the grouping of steps into waves. */
module MissionSpec {
  import opened Common

  datatype OnError = Fail | Continue | Resolve | Retry

  datatype Kind = Tool | Agent | Gate | Foreach | Checkpoint

  datatype Step = Step(
    id: string,
    kind: Kind,
    needs: seq<string>,
    onError: OnError,
    retries: int,
    optional: bool,
    stores: Option<string>,
    hasArgs: bool)
  {
    /** The blackboard key a step writes; its own id unless it names another. */
    function OutputKey(): string {
      if stores.Some? && stores.value != "" then stores.value else id
    }
  }

  datatype SpecError =
    | DuplicateIds
    | UnknownNeed(step: string)
    | DependencyCycle(among: set<string>)

  // ---------- what validation asks of a list of steps ----------

  function Ids(steps: seq<Step>): set<string> {
    set s | s in steps :: s.id
  }

  ghost predicate UniqueIds(steps: seq<Step>) {
    forall i, j :: 0 <= i < j < |steps| ==> steps[i].id != steps[j].id
  }

  ghost predicate KnownNeeds(steps: seq<Step>) {
    forall s, n :: s in steps && n in s.needs ==> n in Ids(steps)
  }

  /** Step `later` lists `earlier` among its needs. */
  ghost predicate Needs(steps: seq<Step>, later: string, earlier: string) {
    exists s :: s in steps && s.id == later && earlier in s.needs
  }

  /** A dependency chain, written from the deepest dependency upwards. */
  ghost predicate IsChain(steps: seq<Step>, c: seq<string>) {
    && |c| >= 1
    && (forall i :: 0 <= i < |c| ==> c[i] in Ids(steps))
    && (forall i :: 0 <= i < |c| - 1 ==> Needs(steps, c[i + 1], c[i]))
  }

  ghost predicate IsCycle(steps: seq<Step>, c: seq<string>) {
    IsChain(steps, c) && |c| >= 2 && c[0] == c[|c| - 1]
  }

  ghost predicate Cyclic(steps: seq<Step>) {
    exists c :: IsCycle(steps, c)
  }

  ghost predicate EndsAt(c: seq<string>, id: string) {
    |c| >= 1 && c[|c| - 1] == id
  }

  ghost predicate HasChain(steps: seq<Step>, id: string, n: nat) {
    exists c :: IsChain(steps, c) && EndsAt(c, id) && |c| == n
  }

  ghost predicate ChainsAtMost(steps: seq<Step>, id: string, n: nat) {
    forall c :: IsChain(steps, c) && EndsAt(c, id) ==> |c| <= n
  }

  /** The longest dependency chain that ends at `id` has exactly `n` steps. */
  ghost predicate LongestChain(steps: seq<Step>, id: string, n: nat) {
    HasChain(steps, id, n) && ChainsAtMost(steps, id, n)
  }

  // ---------- waves ----------

  function Flatten(waves: seq<seq<Step>>): seq<Step> {
    if waves == [] then [] else Flatten(waves[..|waves| - 1]) + waves[|waves| - 1]
  }

  ghost predicate StandsAt(steps: seq<Step>, s: Step, w: nat) {
    LongestChain(steps, s.id, w + 1)
  }

  /** Every step of wave `w` sits exactly as high as its longest dependency chain. */
  ghost predicate AtChainDepth(steps: seq<Step>, waves: seq<seq<Step>>) {
    forall w: nat, s {:trigger StandsAt(steps, s, w)} ::
      w < |waves| && s in waves[w] ==> StandsAt(steps, s, w)
  }

  ghost predicate NeedsWithin(s: Step, done: set<string>) {
    forall n :: n in s.needs ==> n in done
  }

  /** Every need of a step in wave `w` lies in a strictly earlier wave. */
  ghost predicate NeedsEarlier(waves: seq<seq<Step>>) {
    forall w: nat, s {:trigger NeedsWithin(s, Ids(Flatten(waves[..w])))} ::
      w < |waves| && s in waves[w] ==> NeedsWithin(s, Ids(Flatten(waves[..w])))
  }

  function Ready(remaining: seq<Step>, done: set<string>): seq<Step> {
    if remaining == [] then []
    else (if forall n :: n in remaining[0].needs ==> n in done then [remaining[0]] else [])
         + Ready(remaining[1..], done)
  }

  function Without(remaining: seq<Step>, ids: set<string>): seq<Step> {
    if remaining == [] then []
    else (if remaining[0].id in ids then [] else [remaining[0]]) + Without(remaining[1..], ids)
  }

  lemma {:induction false} ReadyMeaning(remaining: seq<Step>, done: set<string>)
    ensures forall s :: s in Ready(remaining, done) <==>
                        s in remaining && forall n :: n in s.needs ==> n in done
  {
    if remaining != [] {
      ReadyMeaning(remaining[1..], done);
      assert remaining == [remaining[0]] + remaining[1..];
    }
  }

  lemma {:induction false} WithoutMeaning(remaining: seq<Step>, ids: set<string>)
    ensures forall s :: s in Without(remaining, ids) <==> s in remaining && s.id !in ids
  {
    if remaining != [] {
      WithoutMeaning(remaining[1..], ids);
      assert remaining == [remaining[0]] + remaining[1..];
    }
  }

  lemma {:induction false} WithoutTwice(remaining: seq<Step>, a: set<string>, b: set<string>)
    ensures Without(Without(remaining, a), b) == Without(remaining, a + b)
  {
    if remaining != [] {
      WithoutTwice(remaining[1..], a, b);
      var head, tail := remaining[0], Without(remaining[1..], a);
      if head.id in a {
        assert Without(remaining, a) == [] + tail == tail;
      } else {
        assert Without(remaining, a) == [head] + tail;
        assert ([head] + tail)[1..] == tail;
      }
    }
  }

  lemma {:induction false} WithoutNothing(remaining: seq<Step>)
    ensures Without(remaining, {}) == remaining
  {
    if remaining != [] {
      WithoutNothing(remaining[1..]);
    }
  }

  ghost predicate OneStepPerId(steps: seq<Step>) {
    forall s, t :: s in steps && t in steps && s.id == t.id ==> s == t
  }

  /** If `ids` marks exactly the ready steps, taking them out splits the steps without
      loss or repeat. */
  lemma {:induction false} ReadySplits(remaining: seq<Step>, done: set<string>, ids: set<string>)
    requires forall s :: s in remaining ==> (s.id in ids <==> NeedsWithin(s, done))
    ensures multiset(remaining) == multiset(Ready(remaining, done)) + multiset(Without(remaining, ids))
  {
    if remaining != [] {
      hide Ready, Without, NeedsWithin;
      var head, tail := remaining[0], remaining[1..];
      assert head in remaining && forall s :: s in tail ==> s in remaining;
      ReadySplits(tail, done, ids);
      HeadIsPlaced(remaining, done, ids);
      OneMoreOfTwo(remaining, Ready(tail, done), Without(tail, ids), Ready(remaining, done), Without(remaining, ids));
    }
  }

  lemma HeadIsPlaced(remaining: seq<Step>, done: set<string>, ids: set<string>)
    requires remaining != []
    ensures var head, tail := remaining[0], remaining[1..];
            && Ready(remaining, done) == (if NeedsWithin(head, done) then [head] + Ready(tail, done) else Ready(tail, done))
            && Without(remaining, ids) == (if head.id in ids then Without(tail, ids) else [head] + Without(tail, ids))
  {
    var tail := remaining[1..];
    assert [] + Ready(tail, done) == Ready(tail, done) && [] + Without(tail, ids) == Without(tail, ids);
  }

  lemma OneMoreOfTwo(whole: seq<Step>, a: seq<Step>, b: seq<Step>, r: seq<Step>, w: seq<Step>)
    requires whole != [] && multiset(whole[1..]) == multiset(a) + multiset(b)
    requires (r == [whole[0]] + a && w == b) || (r == a && w == [whole[0]] + b)
    ensures multiset(whole) == multiset(r) + multiset(w)
  {
    var head := [whole[0]];
    assert whole == head + whole[1..];
    assert multiset(head + a) == multiset(head) + multiset(a);
    assert multiset(head + b) == multiset(head) + multiset(b);
  }

  /** Taking a ready wave out of the remaining steps splits them without loss or repeat. */
  lemma WaveSplits(remaining: seq<Step>, done: set<string>)
    requires OneStepPerId(remaining)
    ensures multiset(remaining) ==
            multiset(Ready(remaining, done)) + multiset(Without(remaining, Ids(Ready(remaining, done))))
  {
    var ids := Ids(Ready(remaining, done));
    forall s | s in remaining
      ensures s.id in ids <==> NeedsWithin(s, done)
    {
      ReadyById(remaining, done, s);
    }
    ReadySplits(remaining, done, ids);
  }

  lemma ReadyById(remaining: seq<Step>, done: set<string>, step: Step)
    requires step in remaining && OneStepPerId(remaining)
    ensures step.id in Ids(Ready(remaining, done)) <==> NeedsWithin(step, done)
  {
    ReadyMeaning(remaining, done);
  }

  lemma MultisetLengths(whole: seq<Step>, a: seq<Step>, b: seq<Step>)
    requires multiset(whole) == multiset(a) + multiset(b)
    ensures |whole| == |a| + |b|
  {
    assert |multiset(whole)| == |whole| && |multiset(a) + multiset(b)| == |a| + |b|;
  }

  lemma UniqueIdsMeanSameStep(steps: seq<Step>)
    requires UniqueIds(steps)
    ensures OneStepPerId(steps)
  {
    forall s, t | s in steps && t in steps && s.id == t.id
      ensures s == t
    {
      var i :| 0 <= i < |steps| && steps[i] == s;
      var j :| 0 <= j < |steps| && steps[j] == t;
    }
  }

  lemma SameElements(a: seq<Step>, b: seq<Step>)
    requires multiset(a) == multiset(b)
    ensures forall s :: s in a <==> s in b
    ensures Ids(a) == Ids(b)
  {
    forall s
      ensures s in a <==> s in b
    {
      assert s in a <==> s in multiset(a);
      assert s in b <==> s in multiset(b);
    }
  }

  lemma {:induction false} FlattenHolds(waves: seq<seq<Step>>)
    ensures forall w, s :: 0 <= w < |waves| && s in waves[w] ==> s in Flatten(waves)
    ensures forall s :: s in Flatten(waves) ==> exists w :: 0 <= w < |waves| && s in waves[w]
  {
    if waves != [] {
      var front := waves[..|waves| - 1];
      FlattenHolds(front);
      forall s | s in Flatten(waves)
        ensures exists w :: 0 <= w < |waves| && s in waves[w]
      {
        if s in waves[|waves| - 1] {
        } else {
          assert s in Flatten(front);
          var w :| 0 <= w < |front| && s in front[w];
          assert s in waves[w];
        }
      }
    }
  }

  // ---------- cycles ----------

  ghost predicate NeedsOneOf(steps: seq<Step>, x: string, among: set<string>) {
    exists y :: y in among && Needs(steps, x, y)
  }

  /** A step below a chain's head extends it downwards. */
  lemma ChainDown(steps: seq<Step>, y: string, c: seq<string>)
    requires IsChain(steps, c) && y in Ids(steps) && Needs(steps, c[0], y)
    ensures IsChain(steps, [y] + c)
  {
    var longer := [y] + c;
    forall i | 0 <= i < |longer| - 1
      ensures Needs(steps, longer[i + 1], longer[i])
    {
      if i > 0 { assert Needs(steps, c[i - 1 + 1], c[i - 1]); }
    }
  }

  /** A step above a chain's end extends it upwards. */
  lemma ChainUp(steps: seq<Step>, c: seq<string>, s: string)
    requires IsChain(steps, c) && s in Ids(steps) && Needs(steps, s, c[|c| - 1])
    ensures IsChain(steps, c + [s])
  {
    var longer := c + [s];
    forall i | 0 <= i < |longer| - 1
      ensures Needs(steps, longer[i + 1], longer[i])
    {
      if i < |c| - 1 { assert Needs(steps, c[i + 1], c[i]); }
    }
  }

  lemma ChainPrefix(steps: seq<Step>, c: seq<string>, n: nat)
    requires IsChain(steps, c) && 1 <= n <= |c|
    ensures IsChain(steps, c[..n])
  {
    forall i | 0 <= i < n - 1
      ensures Needs(steps, c[..n][i + 1], c[..n][i])
    {
      assert Needs(steps, c[i + 1], c[i]);
    }
  }

  /** A non-empty set of steps, each needing another of them, contains a cycle. */
  lemma StuckMeansCycle(steps: seq<Step>, stuck: set<string>)
    requires stuck != {} && stuck <= Ids(steps)
    requires forall x {:trigger NeedsOneOf(steps, x, stuck)} :: x in stuck ==> NeedsOneOf(steps, x, stuck)
    ensures Cyclic(steps)
  {
    var x :| x in stuck;
    WalkToCycle(steps, stuck, [x]);
  }

  /** Follows needs downwards inside `stuck` until a step repeats. */
  lemma {:induction false} WalkToCycle(steps: seq<Step>, stuck: set<string>, walk: seq<string>)
    requires stuck <= Ids(steps)
    requires forall x {:trigger NeedsOneOf(steps, x, stuck)} :: x in stuck ==> NeedsOneOf(steps, x, stuck)
    requires IsChain(steps, walk) && Distinct(walk)
    requires forall x :: x in walk ==> x in stuck
    ensures Cyclic(steps)
    decreases |stuck| - |walk|
  {
    DistinctFits(walk, stuck);
    assert walk[0] in stuck && NeedsOneOf(steps, walk[0], stuck);
    var y :| y in stuck && Needs(steps, walk[0], y);
    ChainDown(steps, y, walk);
    var longer := [y] + walk;
    if y in walk {
      var k :| 0 <= k < |walk| && walk[k] == y;
      ChainPrefix(steps, longer, k + 2);
      assert IsCycle(steps, longer[..k + 2]);
    } else {
      DistinctFits(longer, stuck);
      WalkToCycle(steps, stuck, longer);
    }
  }

  /** Along a chain the level of any valid layering rises at every link. */
  lemma {:induction false} LevelsRise(steps: seq<Step>, level: map<string, nat>, c: seq<string>)
    requires ValidLayering(steps, level) && IsChain(steps, c)
    ensures level[c[|c| - 1]] >= level[c[0]] + |c| - 1
  {
    if |c| > 1 {
      var front := c[..|c| - 1];
      ChainPrefix(steps, c, |c| - 1);
      LevelsRise(steps, level, front);
      assert Needs(steps, c[|c| - 2 + 1], c[|c| - 2]);
    }
  }

  /** Any assignment of steps to numbered waves in which needs come strictly earlier. */
  ghost predicate ValidLayering(steps: seq<Step>, level: map<string, nat>) {
    && (forall id :: id in Ids(steps) ==> id in level)
    && (forall a, b :: a in Ids(steps) && b in Ids(steps) && Needs(steps, a, b) ==> level[b] < level[a])
  }

  /** No layering, however built, puts a step in an earlier wave than the length
      of its longest chain allows. */
  lemma NoLayeringIsShallower(steps: seq<Step>, level: map<string, nat>, id: string, n: nat)
    requires ValidLayering(steps, level) && LongestChain(steps, id, n)
    ensures id in level && level[id] + 1 >= n
  {
    var c :| IsChain(steps, c) && EndsAt(c, id) && |c| == n;
    LevelsRise(steps, level, c);
  }

  /** A set of steps that can be layered has no dependency cycle. */
  lemma LayeredMeansAcyclic(steps: seq<Step>, level: map<string, nat>)
    requires ValidLayering(steps, level)
    ensures !Cyclic(steps)
  {
    if c :| IsCycle(steps, c) {
      LevelsRise(steps, level, c);
    }
  }

  // ---------- execution order ----------

  /** What the waves built so far promise, `rest` being the steps not yet placed. */
  ghost predicate PartialOrder(steps: seq<Step>, waves: seq<seq<Step>>, rest: seq<Step>) {
    && multiset(Flatten(waves)) + multiset(rest) == multiset(steps)
    && AtChainDepth(steps, waves)
    && NeedsEarlier(waves)
    && (|waves| > 0 ==>
          forall s {:trigger NeedsWithin(s, Ids(Flatten(waves[..|waves| - 1])))} ::
            s in rest ==> !NeedsWithin(s, Ids(Flatten(waves[..|waves| - 1]))))
  }

  /** The finished grouping: a partition of the steps in which every step stands
      in the wave its longest dependency chain dictates. */
  ghost predicate IsExecutionOrder(steps: seq<Step>, waves: seq<seq<Step>>) {
    && multiset(Flatten(waves)) == multiset(steps)
    && AtChainDepth(steps, waves)
    && NeedsEarlier(waves)
    && forall w :: 0 <= w < |waves| ==> waves[w] != []
  }

  lemma PlacedOrLeft(steps: seq<Step>, waves: seq<seq<Step>>, rest: seq<Step>)
    requires multiset(Flatten(waves)) + multiset(rest) == multiset(steps)
    ensures forall s :: s in steps <==> s in Flatten(waves) || s in rest
    ensures Ids(steps) == Ids(Flatten(waves)) + Ids(rest)
  {
    forall s
      ensures s in steps <==> s in Flatten(waves) || s in rest
    {
      assert s in steps <==> s in multiset(steps);
      assert s in Flatten(waves) <==> s in multiset(Flatten(waves));
      assert s in rest <==> s in multiset(rest);
    }
  }

  /** Chains through a step are one longer than chains through its needs. */
  lemma ChainsRise(steps: seq<Step>, s: Step, h: nat)
    requires UniqueIds(steps) && s in steps
    requires forall n :: n in s.needs ==> ChainsAtMost(steps, n, h)
    ensures ChainsAtMost(steps, s.id, h + 1)
  {
    forall c | IsChain(steps, c) && EndsAt(c, s.id)
      ensures |c| <= h + 1
    {
      if |c| > 1 {
        UniqueIdsMeanSameStep(steps);
        assert Needs(steps, c[|c| - 2 + 1], c[|c| - 2]);
        ChainPrefix(steps, c, |c| - 1);
        assert EndsAt(c[..|c| - 1], c[|c| - 2]);
      }
    }
  }

  lemma ChainGrows(steps: seq<Step>, s: Step, n: string, h: nat)
    requires s in steps && n in s.needs && HasChain(steps, n, h)
    ensures HasChain(steps, s.id, h + 1)
  {
    var c :| IsChain(steps, c) && EndsAt(c, n) && |c| == h;
    ChainUp(steps, c, s.id);
    assert EndsAt(c + [s.id], s.id);
  }

  lemma SingleStepChain(steps: seq<Step>, s: Step)
    requires s in steps
    ensures HasChain(steps, s.id, 1)
  {
    assert IsChain(steps, [s.id]) && EndsAt([s.id], s.id) && |[s.id]| == 1;
  }

  /** A need placed in an earlier wave caps the chains that end at it. */
  lemma PlacedChains(steps: seq<Step>, waves: seq<seq<Step>>, n: string)
    requires AtChainDepth(steps, waves) && n in Ids(Flatten(waves))
    ensures ChainsAtMost(steps, n, |waves|)
  {
    FlattenHolds(waves);
    var t :| t in Flatten(waves) && t.id == n;
    var w :| 0 <= w < |waves| && t in waves[w];
    assert StandsAt(steps, t, w);
  }

  /** A step ready now but not one wave ago needs a step of the last wave. */
  lemma LastWaveNeed(steps: seq<Step>, waves: seq<seq<Step>>, s: Step) returns (n: string)
    requires |waves| > 0 && AtChainDepth(steps, waves)
    requires NeedsWithin(s, Ids(Flatten(waves)))
    requires !NeedsWithin(s, Ids(Flatten(waves[..|waves| - 1])))
    ensures n in s.needs && HasChain(steps, n, |waves|)
  {
    hide ChainsAtMost, HasChain;
    var last := |waves| - 1;
    n :| n in s.needs && n !in Ids(Flatten(waves[..last]));
    var t :| t in Flatten(waves) && t.id == n;
    assert t in waves[last] && StandsAt(steps, t, last);
  }

  /** A step that becomes ready in wave |waves| heads a chain of exactly that height. */
  lemma ReadyDepth(steps: seq<Step>, waves: seq<seq<Step>>, rest: seq<Step>, s: Step)
    requires UniqueIds(steps) && PartialOrder(steps, waves, rest)
    requires s in rest && NeedsWithin(s, Ids(Flatten(waves)))
    ensures StandsAt(steps, s, |waves|)
  {
    hide ChainsAtMost, HasChain;
    assert s in steps by { PlacedOrLeft(steps, waves, rest); }
    forall n | n in s.needs
      ensures ChainsAtMost(steps, n, |waves|)
    {
      PlacedChains(steps, waves, n);
    }
    ChainsRise(steps, s, |waves|);
    if |waves| == 0 {
      SingleStepChain(steps, s);
    } else {
      assert !NeedsWithin(s, Ids(Flatten(waves[..|waves| - 1])));
      var n := LastWaveNeed(steps, waves, s);
      ChainGrows(steps, s, n, |waves|);
    }
  }

  lemma AppendDepth(steps: seq<Step>, waves: seq<seq<Step>>, rest: seq<Step>, wave: seq<Step>)
    requires UniqueIds(steps) && PartialOrder(steps, waves, rest)
    requires wave == Ready(rest, Ids(Flatten(waves)))
    ensures AtChainDepth(steps, waves + [wave])
  {
    ReadyMeaning(rest, Ids(Flatten(waves)));
    forall w: nat, s: Step {:trigger StandsAt(steps, s, w)} | w < |waves + [wave]| && s in (waves + [wave])[w]
      ensures StandsAt(steps, s, w)
    {
      if w == |waves| { ReadyDepth(steps, waves, rest, s); } else { assert s in waves[w]; }
    }
  }

  lemma AppendNeeds(waves: seq<seq<Step>>, rest: seq<Step>, wave: seq<Step>)
    requires NeedsEarlier(waves) && wave == Ready(rest, Ids(Flatten(waves)))
    ensures NeedsEarlier(waves + [wave])
  {
    var grown := waves + [wave];
    ReadyMeaning(rest, Ids(Flatten(waves)));
    forall w: nat, s: Step {:trigger NeedsWithin(s, Ids(Flatten(grown[..w])))} | w < |grown| && s in grown[w]
      ensures NeedsWithin(s, Ids(Flatten(grown[..w])))
    {
      assert grown[..w] == waves[..w];
      if w == |waves| {
        assert waves[..w] == waves;
      } else {
        assert s in waves[w] && NeedsWithin(s, Ids(Flatten(waves[..w])));
      }
    }
  }

  /** Appending the wave of all ready steps keeps the partial order. */
  lemma AppendWave(steps: seq<Step>, waves: seq<seq<Step>>, rest: seq<Step>, wave: seq<Step>, left: seq<Step>)
    requires UniqueIds(steps) && PartialOrder(steps, waves, rest)
    requires wave == Ready(rest, Ids(Flatten(waves)))
    requires left == Without(rest, Ids(wave))
    ensures PartialOrder(steps, waves + [wave], left)
    ensures multiset(rest) == multiset(wave) + multiset(left)
    ensures Ids(Flatten(waves + [wave])) == Ids(Flatten(waves)) + Ids(wave)
  {
    var done := Ids(Flatten(waves));
    var grown := waves + [wave];
    AppendDepth(steps, waves, rest, wave);
    AppendNeeds(waves, rest, wave);
    PlacedOrLeft(steps, waves, rest);
    UniqueIdsMeanSameStep(steps);
    WaveSplits(rest, done);
    NoneLeftIsReady(rest, done);
    assert grown[..|grown| - 1] == waves;
    hide AtChainDepth, NeedsEarlier, UniqueIds, OneStepPerId, NeedsWithin, Without, Ready, Ids;
    IdsOfBoth(Flatten(waves), wave);
  }

  lemma NoneLeftIsReady(rest: seq<Step>, done: set<string>)
    ensures forall s :: s in Without(rest, Ids(Ready(rest, done))) ==> !NeedsWithin(s, done)
  {
    ReadyMeaning(rest, done);
    WithoutMeaning(rest, Ids(Ready(rest, done)));
  }

  lemma IdsOfBoth(a: seq<Step>, b: seq<Step>)
    ensures Ids(a + b) == Ids(a) + Ids(b)
  {
  }

  /** When no remaining step is ready, the remaining steps hold a cycle. */
  lemma NothingReadyMeansCycle(steps: seq<Step>, waves: seq<seq<Step>>, rest: seq<Step>)
    requires KnownNeeds(steps) && PartialOrder(steps, waves, rest)
    requires rest != [] && Ready(rest, Ids(Flatten(waves))) == []
    ensures Cyclic(steps)
    ensures {} < Ids(rest) <= Ids(steps)
  {
    PlacedOrLeft(steps, waves, rest);
    assert rest[0].id in Ids(rest);
    forall x | x in Ids(rest)
      ensures NeedsOneOf(steps, x, Ids(rest))
    {
      var s :| s in rest && s.id == x;
      assert s !in Ready(rest, Ids(Flatten(waves)));
      ReadyMeaning(rest, Ids(Flatten(waves)));
      var n :| n in s.needs && n !in Ids(Flatten(waves));
      assert s in steps && Needs(steps, x, n);
      assert n in Ids(steps);
    }
    StuckMeansCycle(steps, Ids(rest));
  }

  ghost function ChainDepth(steps: seq<Step>, id: string): nat
    requires exists n: nat :: LongestChain(steps, id, n)
  {
    var n: nat :| LongestChain(steps, id, n); n
  }

  lemma DepthIsUnique(steps: seq<Step>, id: string, m: nat, n: nat)
    requires LongestChain(steps, id, m) && LongestChain(steps, id, n)
    ensures m == n
  {
  }

  lemma DepthsDiffer(steps: seq<Step>, a: string, m: nat, b: string, n: nat)
    requires LongestChain(steps, a, m) && LongestChain(steps, b, n) && m != n
    ensures a != b
  {
  }

  lemma OrderedMeansAcyclic(steps: seq<Step>, waves: seq<seq<Step>>)
    requires UniqueIds(steps) && IsExecutionOrder(steps, waves)
    ensures !Cyclic(steps)
  {
    SameElements(Flatten(waves), steps);
    FlattenHolds(waves);
    UniqueIdsMeanSameStep(steps);
    forall id | id in Ids(steps)
      ensures exists n: nat :: LongestChain(steps, id, n)
    {
      var s :| s in steps && s.id == id;
      var w :| 0 <= w < |waves| && s in waves[w];
      assert StandsAt(steps, s, w);
    }
    var level := map id | id in Ids(steps) :: ChainDepth(steps, id);
    forall a, b | a in Ids(steps) && b in Ids(steps) && Needs(steps, a, b)
      ensures level[b] < level[a]
    {
      var s :| s in steps && s.id == a && b in s.needs;
      var w :| 0 <= w < |waves| && s in waves[w];
      FlattenHolds(waves[..w]);
      assert NeedsWithin(s, Ids(Flatten(waves[..w])));
      var t :| t in Flatten(waves[..w]) && t.id == b;
      var v :| 0 <= v < w && t in waves[..w][v];
      assert t in waves[v];
      assert StandsAt(steps, s, w) && StandsAt(steps, t, v);
      DepthIsUnique(steps, a, level[a], w + 1);
      DepthIsUnique(steps, b, level[b], v + 1);
    }
    LayeredMeansAcyclic(steps, level);
  }

  lemma StartOrder(steps: seq<Step>)
    ensures PartialOrder(steps, [], steps)
    ensures Ids(Flatten([])) == {}
  {
  }

  lemma NothingLeft(steps: seq<Step>, waves: seq<seq<Step>>, rest: seq<Step>)
    requires UniqueIds(steps) && PartialOrder(steps, waves, rest) && rest == []
    requires forall w :: 0 <= w < |waves| ==> waves[w] != []
    ensures IsExecutionOrder(steps, waves) && !Cyclic(steps)
  {
    assert multiset(rest) == multiset{};
    OrderedMeansAcyclic(steps, waves);
  }

  /** Marks a wave done and takes its steps out of the remaining ones. */
  method TakeWave(remaining: seq<Step>, done: set<string>, wave: seq<Step>)
    returns (left: seq<Step>, marked: set<string>)
    ensures left == Without(remaining, Ids(wave))
    ensures marked == done + Ids(wave)
  {
    left, marked := remaining, done;
    assert Ids(wave[..0]) == {};
    WithoutNothing(remaining);
    for k := 0 to |wave|
      invariant marked == done + Ids(wave[..k])
      invariant left == Without(remaining, Ids(wave[..k]))
    {
      WithoutTwice(remaining, Ids(wave[..k]), {wave[k].id});
      assert wave[..k + 1] == wave[..k] + [wave[k]];
      assert Ids(wave[..k + 1]) == Ids(wave[..k]) + {wave[k].id};
      marked := marked + {wave[k].id};
      left := Without(left, {wave[k].id});
    }
    assert wave[..|wave|] == wave;
  }

  /** Groups steps into waves that may run concurrently, or reports the steps
      left over when the needs relation has a cycle. */
  method ExecutionOrder(steps: seq<Step>) returns (r: Result<seq<seq<Step>>, SpecError>)
    requires UniqueIds(steps) && KnownNeeds(steps)
    ensures r.Err? <==> Cyclic(steps)
    ensures r.Err? ==> r.error.DependencyCycle? && {} < r.error.among <= Ids(steps)
    ensures r.Ok? ==> IsExecutionOrder(steps, r.value)
  {
    hide *;
    StartOrder(steps);
    var remaining := steps;
    var done: set<string> := {};
    var waves: seq<seq<Step>> := [];

    while remaining != []
      invariant PartialOrder(steps, waves, remaining)
      invariant done == Ids(Flatten(waves))
      invariant forall w :: 0 <= w < |waves| ==> waves[w] != []
      decreases |remaining|
    {
      var wave := Ready(remaining, done);
      if wave == [] {
        NothingReadyMeansCycle(steps, waves, remaining);
        return Err(DependencyCycle(Ids(remaining)));
      }
      var left, marked := TakeWave(remaining, done, wave);
      AppendWave(steps, waves, remaining, wave, left);
      MultisetLengths(remaining, wave, left);
      remaining, done, waves := left, marked, waves + [wave];
    }
    NothingLeft(steps, waves, remaining);
    return Ok(waves);
  }

  /** Validation of a parsed mission: the first problem in the original's order,
      or the waves. */
  method FromDict(steps: seq<Step>) returns (r: Result<seq<seq<Step>>, SpecError>)
    ensures r.Ok? <==> UniqueIds(steps) && KnownNeeds(steps) && !Cyclic(steps)
    ensures r.Ok? ==> IsExecutionOrder(steps, r.value)
    ensures r == Err(DuplicateIds) <==> !UniqueIds(steps)
    ensures r.Err? && r.error.UnknownNeed? <==> UniqueIds(steps) && !KnownNeeds(steps)
    ensures r.Err? && r.error.UnknownNeed? ==>
              exists s, n :: s in steps && s.id == r.error.step && n in s.needs && n !in Ids(steps)
    ensures r.Err? && r.error.DependencyCycle? <==>
              UniqueIds(steps) && KnownNeeds(steps) && Cyclic(steps)
  {
    if exists i, j | 0 <= i < j < |steps| :: steps[i].id == steps[j].id {
      return Err(DuplicateIds);
    }
    var known := Ids(steps);
    for k := 0 to |steps|
      invariant forall s, n :: s in steps[..k] && n in s.needs ==> n in known
    {
      if exists n | n in steps[k].needs :: n !in known {
        return Err(UnknownNeed(steps[k].id));
      }
    }
    assert steps[..|steps|] == steps;
    r := ExecutionOrder(steps);
  }
}

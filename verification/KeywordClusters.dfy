/** Greedy lexical clustering of keywords. */
module KeywordClusters {
  import opened Common

  type Keyword = string

  datatype Cluster = Cluster(intent: string, keywords: seq<Keyword>)

  /** The two text functions the clustering rests on. */
  datatype Lexicon = Lexicon(terms: Keyword -> set<string>, intent: Keyword -> string)
  {
    /** At least half of the smaller term set is shared, and the intents match. */
    predicate Together(seed: Keyword, k: Keyword) {
      var smaller := Min(|terms(seed)|, |terms(k)|);
      && |terms(seed) * terms(k)| as real / (if smaller > 1 then smaller else 1) as real >= 0.5
      && intent(k) == intent(seed)
    }

    predicate Eligible(k: Keyword) {
      k != "" && terms(k) != {}
    }
  }

  /** A keyword goes with an eligible seed exactly if it means to do the same and shares
      half of the seed's terms, or half of its own. */
  lemma TogetherExactly(lex: Lexicon, seed: Keyword, k: Keyword)
    requires lex.Eligible(seed)
    ensures lex.Together(seed, k) <==>
            && lex.intent(seed) == lex.intent(k)
            && |lex.terms(k)| > 0
            && var shared := |lex.terms(seed) * lex.terms(k)|;
               2 * shared >= |lex.terms(seed)| || 2 * shared >= |lex.terms(k)|
  {
    var shared, smaller := |lex.terms(seed) * lex.terms(k)|, Min(|lex.terms(seed)|, |lex.terms(k)|);
    assert lex.terms(seed) != {};
    if lex.terms(k) == {} {
      assert shared == 0;
    } else {
      HalfExactly(shared, smaller);
    }
  }

  lemma HalfExactly(shared: nat, smaller: nat)
    requires smaller >= 1
    ensures shared as real / smaller as real >= 0.5 <==> 2 * shared >= smaller
  {
    var ratio := shared as real / smaller as real;
    assert ratio * smaller as real == shared as real;
    if ratio >= 0.5 {
      assert ratio * smaller as real >= 0.5 * smaller as real;
    } else {
      assert ratio * smaller as real < 0.5 * smaller as real;
    }
  }

  /** Every eligible keyword is together with itself. */
  lemma TogetherWithItself(lex: Lexicon, k: Keyword)
    requires lex.Eligible(k)
    ensures lex.Together(k, k)
  {
    assert lex.terms(k) * lex.terms(k) == lex.terms(k);
    var n := |lex.terms(k)|;
    assert n >= 1;
    assert n as real / n as real == 1.0;
  }

  /** Keywords still to be placed: eligible, and each once. */
  ghost predicate IsPool(lex: Lexicon, pool: seq<Keyword>) {
    Distinct(pool) && forall k :: k in pool ==> lex.Eligible(k)
  }

  /** The eligible keywords without repeats, in order of first mention. */
  function EligibleOnce(lex: Lexicon, keywords: seq<Keyword>): (once: seq<Keyword>)
    ensures IsPool(lex, once)
    ensures forall k :: k in once <==> k in keywords && lex.Eligible(k)
  {
    if keywords == [] then []
    else
      assert keywords == keywords[..|keywords| - 1] + [keywords[|keywords| - 1]];
      var front, k := EligibleOnce(lex, keywords[..|keywords| - 1]), keywords[|keywords| - 1];
      if lex.Eligible(k) && k !in front then front + [k] else front
  }

  // ---------- one round ----------

  /** The first keyword with the most terms. */
  function SeedOf(lex: Lexicon, pool: seq<Keyword>): Keyword
    requires pool != []
  {
    if |pool| == 1 then pool[0]
    else
      var front, last := SeedOf(lex, pool[..|pool| - 1]), pool[|pool| - 1];
      if |lex.terms(last)| > |lex.terms(front)| then last else front
  }

  lemma {:induction false} SeedMeaning(lex: Lexicon, pool: seq<Keyword>)
    requires pool != []
    ensures SeedOf(lex, pool) in pool
    ensures forall k :: k in pool ==> |lex.terms(k)| <= |lex.terms(SeedOf(lex, pool))|
  {
    if |pool| > 1 {
      SeedMeaning(lex, pool[..|pool| - 1]);
      assert pool == pool[..|pool| - 1] + [pool[|pool| - 1]];
    }
  }

  /** No keyword before the seed has as many terms. */
  lemma {:induction false} SeedIsFirst(lex: Lexicon, pool: seq<Keyword>) returns (i: nat)
    requires pool != []
    ensures i < |pool| && pool[i] == SeedOf(lex, pool)
    ensures forall j :: 0 <= j < i ==> |lex.terms(pool[j])| < |lex.terms(pool[i])|
  {
    i := 0;
    if |pool| > 1 {
      var front := pool[..|pool| - 1];
      i := SeedIsFirst(lex, front);
      if SeedOf(lex, pool) != front[i] {
        i := |pool| - 1;
        SeedMeaning(lex, front);
        assert forall j :: 0 <= j < i ==> pool[j] in front;
      }
    }
  }

  /** The keywords that go with a seed, and those that stay, in order. */
  function Members(lex: Lexicon, seed: Keyword, pool: seq<Keyword>): seq<Keyword> {
    if pool == [] then []
    else
      var last := |pool| - 1;
      Members(lex, seed, pool[..last]) + (if lex.Together(seed, pool[last]) then [pool[last]] else [])
  }

  function Leftover(lex: Lexicon, seed: Keyword, pool: seq<Keyword>): seq<Keyword> {
    if pool == [] then []
    else
      var last := |pool| - 1;
      Leftover(lex, seed, pool[..last]) + (if lex.Together(seed, pool[last]) then [] else [pool[last]])
  }

  lemma {:induction false} SplitMeaning(lex: Lexicon, seed: Keyword, pool: seq<Keyword>)
    requires Distinct(pool)
    ensures Distinct(Members(lex, seed, pool)) && Distinct(Leftover(lex, seed, pool))
    ensures forall k :: k in Members(lex, seed, pool) <==> k in pool && lex.Together(seed, k)
    ensures forall k :: k in Leftover(lex, seed, pool) <==> k in pool && !lex.Together(seed, k)
    ensures |Members(lex, seed, pool)| + |Leftover(lex, seed, pool)| == |pool|
  {
    if pool != [] {
      var front, last := pool[..|pool| - 1], pool[|pool| - 1];
      SplitMeaning(lex, seed, front);
      assert pool == front + [last];
      NewAt(pool, |pool| - 1);
      hide Distinct, lex.Together;
      AppendDistinct(Members(lex, seed, front), last);
      AppendDistinct(Leftover(lex, seed, front), last);
    }
  }

  lemma NewAt(s: seq<Keyword>, i: nat)
    requires Distinct(s) && i < |s|
    ensures s[i] !in s[..i] && Distinct(s[..i])
  {
  }

  lemma AppendDistinct(s: seq<Keyword>, k: Keyword)
    requires Distinct(s) && k !in s
    ensures Distinct(s + [k]) && s + [] == s
  {
  }

  /** Of any two keywords of the part the earlier one is mentioned first in the whole. */
  ghost predicate InOrder(part: seq<Keyword>, whole: seq<Keyword>) {
    forall i, j :: 0 <= i < j < |part| ==> MentionedFirst(part[i], part[j], whole)
  }

  ghost predicate MentionedFirst(a: Keyword, b: Keyword, whole: seq<Keyword>) {
    exists p :: 0 <= p < |whole| && whole[p] == a && b !in whole[..p + 1]
  }

  lemma OneMoreInOrder(part: seq<Keyword>, whole: seq<Keyword>, k: Keyword)
    requires InOrder(part, whole) && forall x :: x in part ==> x in whole
    ensures InOrder(part, whole + [k])
    ensures k !in whole ==> InOrder(part + [k], whole + [k])
  {
    var longer := whole + [k];
    forall a, b | MentionedFirst(a, b, whole)
      ensures MentionedFirst(a, b, longer)
    {
      var p :| 0 <= p < |whole| && whole[p] == a && b !in whole[..p + 1];
      assert longer[..p + 1] == whole[..p + 1];
    }
    forall a | a in whole && k !in whole
      ensures MentionedFirst(a, k, longer)
    {
      var p :| 0 <= p < |whole| && whole[p] == a;
      assert longer[..p + 1] == whole[..p + 1];
    }
  }

  /** Splitting keeps the order, in both parts. */
  lemma {:induction false} SplitKeepsOrder(lex: Lexicon, seed: Keyword, pool: seq<Keyword>)
    requires Distinct(pool)
    ensures InOrder(Members(lex, seed, pool), pool) && InOrder(Leftover(lex, seed, pool), pool)
  {
    if pool != [] {
      var front, last := pool[..|pool| - 1], pool[|pool| - 1];
      SplitKeepsOrder(lex, seed, front);
      SplitMeaning(lex, seed, front);
      NewAt(pool, |pool| - 1);
      assert pool == front + [last];
      hide InOrder, Distinct, lex.Together;
      OneMoreInOrder(Members(lex, seed, front), front, last);
      OneMoreInOrder(Leftover(lex, seed, front), front, last);
      assert forall s: seq<Keyword> :: s + [] == s;
    }
  }

  /** The keywords to be clustered stand in the order of their first mention. */
  lemma {:induction false} EligibleInOrder(lex: Lexicon, keywords: seq<Keyword>)
    ensures InOrder(EligibleOnce(lex, keywords), keywords)
  {
    if keywords != [] {
      var front, last := keywords[..|keywords| - 1], keywords[|keywords| - 1];
      EligibleInOrder(lex, front);
      assert keywords == front + [last];
      hide InOrder, lex.Eligible;
      OneMoreInOrder(EligibleOnce(lex, front), front, last);
    }
  }

  function Remove(s: seq<Keyword>, k: Keyword): seq<Keyword> {
    if s == [] then []
    else if s[|s| - 1] == k then Remove(s[..|s| - 1], k)
    else Remove(s[..|s| - 1], k) + [s[|s| - 1]]
  }

  lemma {:induction false} RemoveMeaning(s: seq<Keyword>, k: Keyword)
    requires Distinct(s)
    ensures Distinct(Remove(s, k)) && |Remove(s, k)| == |s| - if k in s then 1 else 0
    ensures forall x :: x in Remove(s, k) <==> x in s && x != k
  {
    if s != [] {
      var front, last := s[..|s| - 1], s[|s| - 1];
      RemoveMeaning(front, k);
      assert s == front + [last];
      NewAt(s, |s| - 1);
      if last != k { AppendDistinct(Remove(front, k), last); }
    }
  }

  lemma DistinctBoth(a: seq<Keyword>, b: seq<Keyword>)
    requires Distinct(a) && Distinct(b) && forall k :: k in a ==> k !in b
    ensures Distinct(a + b)
  {
    forall i, j | 0 <= i < j < |a + b|
      ensures (a + b)[i] != (a + b)[j]
    {
      if i < |a| <= j { assert a[i] in a && b[j - |a|] in b; }
    }
  }

  predicate BigEnough(lex: Lexicon, minSize: int, pool: seq<Keyword>)
    requires pool != []
  {
    |Members(lex, SeedOf(lex, pool), pool)| >= minSize
  }

  /** What is left after a round: without the new cluster, or without the rejected seed. */
  function NextPool(lex: Lexicon, minSize: int, pool: seq<Keyword>): seq<Keyword>
    requires pool != []
  {
    var seed := SeedOf(lex, pool);
    if BigEnough(lex, minSize, pool) then Leftover(lex, seed, pool)
    else Leftover(lex, seed, pool) + Remove(Members(lex, seed, pool), seed)
  }

  lemma NextPoolMeaning(lex: Lexicon, minSize: int, pool: seq<Keyword>)
    requires IsPool(lex, pool) && pool != []
    ensures var next := NextPool(lex, minSize, pool);
            && IsPool(lex, next) && |next| < |pool|
            && forall k :: k in next <==>
                 k in pool && if BigEnough(lex, minSize, pool) then !lex.Together(SeedOf(lex, pool), k) else k != SeedOf(lex, pool)
  {
    var seed := SeedOf(lex, pool);
    var members, left := Members(lex, seed, pool), Leftover(lex, seed, pool);
    SeedMeaning(lex, pool);
    TogetherWithItself(lex, seed);
    SplitMeaning(lex, seed, pool);
    RemoveMeaning(members, seed);
    hide lex.Together, lex.Eligible;
    assert seed in members;
    DistinctBoth(left, Remove(members, seed));
  }

  // ---------- the whole clustering ----------

  /** The pools of the successive rounds. */
  ghost function Rounds(lex: Lexicon, minSize: int, pool: seq<Keyword>): seq<seq<Keyword>>
    requires IsPool(lex, pool)
    decreases |pool|
  {
    if pool == [] then []
    else
      NextPoolMeaning(lex, minSize, pool);
      [pool] + Rounds(lex, minSize, NextPool(lex, minSize, pool))
  }

  /** The cluster a round makes. */
  function ClusterOf(lex: Lexicon, pool: seq<Keyword>): Cluster
    requires pool != []
  {
    var seed := SeedOf(lex, pool);
    Cluster(lex.intent(seed), Members(lex, seed, pool))
  }

  ghost function Clusters(lex: Lexicon, minSize: int, pool: seq<Keyword>): seq<Cluster>
    requires IsPool(lex, pool)
    decreases |pool|
  {
    if pool == [] then []
    else
      NextPoolMeaning(lex, minSize, pool);
      (if BigEnough(lex, minSize, pool) then [ClusterOf(lex, pool)] else [])
      + Clusters(lex, minSize, NextPool(lex, minSize, pool))
  }

  ghost predicate InCluster(clusters: seq<Cluster>, k: Keyword) {
    exists c :: c in clusters && k in c.keywords
  }

  /** The keyword was the seed of a round whose group was too small. */
  ghost predicate Rejected(lex: Lexicon, minSize: int, rounds: seq<seq<Keyword>>, k: Keyword) {
    exists pool :: pool in rounds && RejectedIn(lex, minSize, pool, k)
  }

  ghost predicate RejectedIn(lex: Lexicon, minSize: int, pool: seq<Keyword>, k: Keyword) {
    pool != [] && SeedOf(lex, pool) == k && !BigEnough(lex, minSize, pool)
  }

  ghost predicate MadeIn(lex: Lexicon, minSize: int, rounds: seq<seq<Keyword>>, c: Cluster) {
    exists pool :: pool in rounds && pool != [] && BigEnough(lex, minSize, pool) && c == ClusterOf(lex, pool)
  }

  ghost predicate Disjoint(clusters: seq<Cluster>) {
    forall i, j, k :: 0 <= i < j < |clusters| && k in clusters[i].keywords ==> k !in clusters[j].keywords
  }

  /** Clusters are disjoint, each is a round's seed with all of the round's pool that goes
      with it, and a keyword is left out if and only if it was once a seed whose group was
      too small. */
  ghost predicate Partitioned(lex: Lexicon, minSize: int, pool: seq<Keyword>, clusters: seq<Cluster>, rounds: seq<seq<Keyword>>) {
    && Disjoint(clusters)
    && (forall c :: c in clusters ==> MadeIn(lex, minSize, rounds, c))
    && (forall k :: InCluster(clusters, k) || Rejected(lex, minSize, rounds, k) <==> k in pool)
    && (forall k :: InCluster(clusters, k) ==> !Rejected(lex, minSize, rounds, k))
  }

  lemma {:induction false} ClustersPartition(lex: Lexicon, minSize: int, pool: seq<Keyword>)
    requires IsPool(lex, pool)
    ensures Partitioned(lex, minSize, pool, Clusters(lex, minSize, pool), Rounds(lex, minSize, pool))
    decreases |pool|
  {
    if pool != [] {
      NextPoolMeaning(lex, minSize, pool);
      var next := NextPool(lex, minSize, pool);
      ClustersPartition(lex, minSize, next);
      SeedMeaning(lex, pool);
      SplitMeaning(lex, SeedOf(lex, pool), pool);
      var clusters, rounds := Clusters(lex, minSize, next), Rounds(lex, minSize, next);
      if BigEnough(lex, minSize, pool) {
        OneMoreCluster(lex, minSize, pool, next, clusters, rounds);
      } else {
        OneMoreRejected(lex, minSize, pool, next, clusters, rounds);
        assert [] + clusters == clusters;
      }
    }
  }

  lemma OneMoreRound(lex: Lexicon, minSize: int, pool: seq<Keyword>, rounds: seq<seq<Keyword>>)
    requires pool != []
    ensures forall k :: Rejected(lex, minSize, [pool] + rounds, k) <==>
                        Rejected(lex, minSize, rounds, k) || RejectedIn(lex, minSize, pool, k)
    ensures forall c :: MadeIn(lex, minSize, rounds, c) ==> MadeIn(lex, minSize, [pool] + rounds, c)
    ensures BigEnough(lex, minSize, pool) ==> MadeIn(lex, minSize, [pool] + rounds, ClusterOf(lex, pool))
  {
    hide RejectedIn, BigEnough, ClusterOf;
    assert forall p :: p in [pool] + rounds <==> p == pool || p in rounds;
  }

  lemma OneMoreCluster(lex: Lexicon, minSize: int, pool: seq<Keyword>, next: seq<Keyword>, clusters: seq<Cluster>, rounds: seq<seq<Keyword>>)
    requires pool != [] && BigEnough(lex, minSize, pool) && Partitioned(lex, minSize, next, clusters, rounds)
    requires forall k :: k in pool <==> k in ClusterOf(lex, pool).keywords || k in next
    requires forall k :: k in ClusterOf(lex, pool).keywords ==> k !in next
    ensures Partitioned(lex, minSize, pool, [ClusterOf(lex, pool)] + clusters, [pool] + rounds)
  {
    var c := ClusterOf(lex, pool);
    OneMoreRound(lex, minSize, pool, rounds);
    hide ClusterOf, Rejected, MadeIn, BigEnough;
    assert forall d :: d in [c] + clusters <==> d == c || d in clusters;
    forall k
      ensures InCluster([c] + clusters, k) <==> k in c.keywords || InCluster(clusters, k)
    {
    }
    forall i, k | 0 <= i < |clusters| && k in clusters[i].keywords
      ensures k !in c.keywords
    {
      assert InCluster(clusters, k);
    }
  }

  lemma OneMoreRejected(lex: Lexicon, minSize: int, pool: seq<Keyword>, next: seq<Keyword>, clusters: seq<Cluster>, rounds: seq<seq<Keyword>>)
    requires pool != [] && !BigEnough(lex, minSize, pool) && Partitioned(lex, minSize, next, clusters, rounds)
    requires forall k :: k in next <==> k in pool && k != SeedOf(lex, pool)
    requires SeedOf(lex, pool) in pool
    ensures Partitioned(lex, minSize, pool, clusters, [pool] + rounds)
  {
    OneMoreRound(lex, minSize, pool, rounds);
    hide Rejected, MadeIn, InCluster;
  }

  /** What the clustering means for one keyword of the input: an eligible one is in exactly
      one cluster unless it was once a seed with too small a group, and then in none; an
      ineligible one is in none. */
  lemma PlacedOrRejected(lex: Lexicon, minSize: int, keywords: seq<Keyword>, k: Keyword)
    requires k in keywords
    ensures var pool := EligibleOnce(lex, keywords);
            var clusters := Clusters(lex, minSize, pool);
            && (InCluster(clusters, k) <==> lex.Eligible(k) && !Rejected(lex, minSize, Rounds(lex, minSize, pool), k))
            && (forall i, j :: 0 <= i < j < |clusters| && k in clusters[i].keywords ==> k !in clusters[j].keywords)
  {
    ClustersPartition(lex, minSize, EligibleOnce(lex, keywords));
  }

  /** Every cluster is large enough, holds no keyword twice, and its members share its
      intent and overlap by half with one of them that has the most terms. */
  lemma ClustersHoldTogether(lex: Lexicon, minSize: int, pool: seq<Keyword>, c: Cluster) returns (seed: Keyword)
    requires IsPool(lex, pool) && c in Clusters(lex, minSize, pool)
    ensures |c.keywords| >= minSize && Distinct(c.keywords) && seed in c.keywords
    ensures forall k :: k in c.keywords ==>
              lex.Together(seed, k) && lex.intent(k) == c.intent && |lex.terms(k)| <= |lex.terms(seed)|
  {
    ClustersPartition(lex, minSize, pool);
    var round :| round in Rounds(lex, minSize, pool) && round != [] && BigEnough(lex, minSize, round) && c == ClusterOf(lex, round);
    RoundsArePools(lex, minSize, pool, round);
    seed := SeedOf(lex, round);
    SeedMeaning(lex, round);
    SplitMeaning(lex, seed, round);
    TogetherWithItself(lex, seed);
  }

  lemma {:induction false} RoundsArePools(lex: Lexicon, minSize: int, pool: seq<Keyword>, round: seq<Keyword>)
    requires IsPool(lex, pool) && round in Rounds(lex, minSize, pool)
    ensures IsPool(lex, round)
    decreases |pool|
  {
    NextPoolMeaning(lex, minSize, pool);
    if round != pool {
      RoundsArePools(lex, minSize, NextPool(lex, minSize, pool), round);
    }
  }

  // ---------- the clustering loop ----------

  method PickSeed(lex: Lexicon, remaining: seq<Keyword>) returns (seed: Keyword)
    requires remaining != []
    ensures seed == SeedOf(lex, remaining)
  {
    seed := remaining[0];
    for i := 1 to |remaining|
      invariant seed == SeedOf(lex, remaining[..i])
    {
      assert remaining[..i + 1][..i] == remaining[..i];
      if |lex.terms(remaining[i])| > |lex.terms(seed)| {
        seed := remaining[i];
      }
    }
    assert remaining[..|remaining|] == remaining;
  }

  /** Splits the remaining keywords by whether they go with the seed. */
  method Split(lex: Lexicon, remaining: seq<Keyword>, seed: Keyword) returns (members: seq<Keyword>, leftover: seq<Keyword>)
    ensures members == Members(lex, seed, remaining) && leftover == Leftover(lex, seed, remaining)
  {
    members, leftover := [], [];
    for i := 0 to |remaining|
      invariant members == Members(lex, seed, remaining[..i]) && leftover == Leftover(lex, seed, remaining[..i])
    {
      hide lex.Together;
      assert remaining[..i + 1][..i] == remaining[..i];
      if lex.Together(seed, remaining[i]) {
        members := members + [remaining[i]];
      } else {
        leftover := leftover + [remaining[i]];
      }
    }
    assert remaining[..|remaining|] == remaining;
  }

  lemma OneRound(lex: Lexicon, minSize: int, done: seq<Cluster>, pool: seq<Keyword>)
    requires IsPool(lex, pool) && pool != []
    ensures var next := NextPool(lex, minSize, pool);
            && IsPool(lex, next) && |next| < |pool|
            && done + Clusters(lex, minSize, pool) ==
               (if BigEnough(lex, minSize, pool) then done + [ClusterOf(lex, pool)] else done) + Clusters(lex, minSize, next)
  {
    hide Members, Leftover, SeedOf, IsPool;
    NextPoolMeaning(lex, minSize, pool);
  }

  /** Clusters the keywords, round by round. */
  method ClusterKeywords(lex: Lexicon, keywords: seq<Keyword>, minSize: int) returns (clusters: seq<Cluster>)
    ensures clusters == Clusters(lex, minSize, EligibleOnce(lex, keywords))
  {
    var remaining := EligibleOnce(lex, keywords);
    clusters := [];
    while remaining != []
      invariant IsPool(lex, remaining)
      invariant Clusters(lex, minSize, EligibleOnce(lex, keywords)) == clusters + Clusters(lex, minSize, remaining)
      decreases |remaining|
    {
      OneRound(lex, minSize, clusters, remaining);
      hide IsPool, Clusters, Members, Leftover, SeedOf, EligibleOnce;
      var seed := PickSeed(lex, remaining);
      var members, leftover := Split(lex, remaining, seed);
      if |members| >= minSize {
        clusters := clusters + [Cluster(lex.intent(seed), members)];
        remaining := leftover;
      } else {
        remaining := leftover + Remove(members, seed);
      }
    }
  }
}

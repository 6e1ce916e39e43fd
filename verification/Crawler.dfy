/** The breadth-first site crawler: frontier, seen-set, batches, page and depth caps. */
module Crawler {
  import opened Common

  type Url = string
  type Key = string

  /** What a fetch can come to. `signals` is the list of internal links of a parsed page. */
  datatype Fetch = Raised | Fetched(ok: bool, signals: Option<seq<Url>>)

  /** A frontier element. */
  datatype Entry = Entry(url: Url, depth: nat, parent: Option<Url>)

  datatype Page = Page(url: Url, depth: nat, parent: Option<Url>, ok: bool, signals: Option<seq<Url>>, inSitemap: bool)

  /** The crawler's settings, and the web as it answers. `normalise` collapses trivial
      variants of an address; `sitemap` is the sorted list of sitemap addresses. */
  datatype Site = Site(
    base: Url,
    maxPages: nat,
    maxDepth: int,
    sitemap: seq<Url>,
    normalise: Url -> Key,
    inScope: Url -> bool,
    fetch: Url -> Fetch)
  {
    /** One of the first `maxPages` sitemap addresses. */
    ghost predicate Seeded(v: Url) {
      exists i :: 0 <= i < |sitemap| && i < maxPages && sitemap[i] == v
    }

    /** The links the crawler sees on a page: none unless it is ok and was parsed. */
    function Targets(u: Url): seq<Url> {
      match fetch(u)
      case Fetched(true, Some(links)) => links
      case _ => []
    }

    /** One click, or the step from the start to a seeded sitemap address. */
    ghost predicate Edge(u: Url, v: Url) {
      inScope(v) && (v in Targets(u) || (u == base && Seeded(v)))
    }

    ghost predicate IsPath(p: seq<Url>) {
      && |p| >= 1
      && p[0] == base
      && forall i :: 0 <= i < |p| - 1 ==> Edge(p[i], p[i + 1])
    }
  }

  // ---------- what the crawl knows ----------

  ghost predicate Knows(site: Site, queued: map<Key, Entry>, u: Url) {
    site.normalise(u) in queued
  }

  ghost function EntryOf(site: Site, queued: map<Key, Entry>, u: Url): Entry
    requires Knows(site, queued, u)
  {
    queued[site.normalise(u)]
  }

  /** No page on `p` before its end was replaced by a variant that links elsewhere. */
  ghost predicate Faithful(site: Site, queued: map<Key, Entry>, p: seq<Url>) {
    forall i :: 0 <= i < |p| - 1 && Knows(site, queued, p[i]) ==>
      ToSet(site.Targets(p[i])) <= ToSet(site.Targets(EntryOf(site, queued, p[i]).url))
  }

  /** All variants of an address are the same page. */
  ghost predicate VariantsAgree(site: Site) {
    forall u, v :: site.normalise(u) == site.normalise(v) ==> ToSet(site.Targets(u)) == ToSet(site.Targets(v))
  }

  ghost predicate ClickPath(site: Site, queued: map<Key, Entry>, p: seq<Url>) {
    site.IsPath(p) && Faithful(site, queued, p)
  }

  ghost predicate Reaches(p: seq<Url>, u: Url, depth: nat) {
    |p| == depth + 1 && p[depth] == u
  }

  /** `depth` is the exact distance from the start: a path of that length leads to `u`,
      and no path to any variant of `u` is shorter. */
  ghost predicate ExactDepth(site: Site, queued: map<Key, Entry>, u: Url, depth: nat) {
    && (exists p :: ClickPath(site, queued, p) && Reaches(p, u, depth))
    && (forall p :: ClickPath(site, queued, p) && site.normalise(p[|p| - 1]) == site.normalise(u) ==>
          depth <= |p| - 1)
  }

  /** With well-behaved variants every path is a click path. */
  lemma EveryPathIsClickPath(site: Site, queued: map<Key, Entry>, p: seq<Url>)
    requires VariantsAgree(site) && (forall k :: k in queued ==> site.normalise(queued[k].url) == k) && site.IsPath(p)
    ensures ClickPath(site, queued, p)
  {
    forall i | 0 <= i < |p| - 1 && Knows(site, queued, p[i])
      ensures ToSet(site.Targets(p[i])) <= ToSet(site.Targets(EntryOf(site, queued, p[i]).url))
    {
      assert site.normalise(EntryOf(site, queued, p[i]).url) == site.normalise(p[i]);
    }
  }

  /** So the depth is the distance in the site's own link graph. */
  lemma ExactOnSite(site: Site, queued: map<Key, Entry>, u: Url, depth: nat, p: seq<Url>)
    requires VariantsAgree(site) && ExactDepth(site, queued, u, depth)
    requires forall k :: k in queued ==> site.normalise(queued[k].url) == k
    requires site.IsPath(p) && site.normalise(p[|p| - 1]) == site.normalise(u)
    ensures depth <= |p| - 1
  {
    EveryPathIsClickPath(site, queued, p);
  }

  // ---------- the search invariant ----------

  /** Where an entry came from: the start, a seed, or an expanded page one level up. */
  ghost predicate Discovered(site: Site, queued: map<Key, Entry>, attempted: set<Key>, e: Entry) {
    || e == Entry(site.base, 0, None)
    || IsSeed(site, e)
    || (exists k :: k in attempted && k in queued && FoundOn(site, queued[k], e))
  }

  ghost predicate FoundOn(site: Site, source: Entry, e: Entry) {
    && source.depth < site.maxDepth
    && e.depth == source.depth + 1
    && e.parent == Some(source.url)
    && e.url in site.Targets(source.url)
    && site.inScope(e.url)
  }

  /** Every in-scope link of an expanded page is known, at most one level deeper. */
  ghost predicate Expanded(site: Site, queued: map<Key, Entry>, e: Entry) {
    e.depth < site.maxDepth ==>
      forall t :: t in site.Targets(e.url) && site.inScope(t) ==>
        Knows(site, queued, t) && EntryOf(site, queued, t).depth <= e.depth + 1
  }

  /** The in-scope addresses among the first `n` of the sitemap are known. */
  ghost predicate SeedsKnown(site: Site, queued: map<Key, Entry>, n: nat) {
    forall i :: 0 <= i < |site.sitemap| && i < n && site.inScope(site.sitemap[i]) ==>
      Knows(site, queued, site.sitemap[i]) && EntryOf(site, queued, site.sitemap[i]).depth <= 1
  }

  ghost predicate KeysAreRight(site: Site, queued: map<Key, Entry>) {
    && (forall k :: k in queued ==> site.normalise(queued[k].url) == k)
    && site.normalise(site.base) in queued
    && queued[site.normalise(site.base)] == Entry(site.base, 0, None)
  }

  /** `pending` holds exactly the known entries not yet attempted, each once. */
  ghost predicate Pending(site: Site, queued: map<Key, Entry>, attempted: set<Key>, pending: seq<Entry>) {
    && attempted <= queued.Keys
    && (forall i :: 0 <= i < |pending| ==>
          && site.normalise(pending[i].url) in queued
          && site.normalise(pending[i].url) !in attempted
          && queued[site.normalise(pending[i].url)] == pending[i])
    && (forall i, j :: 0 <= i < j < |pending| ==>
          site.normalise(pending[i].url) != site.normalise(pending[j].url))
    && (forall k :: k in queued && k !in attempted ==> queued[k] in pending)
  }

  /** The queue is sorted by depth, spans at most two levels, and nothing attempted
      is deeper than anything queued. */
  ghost predicate Level(queued: map<Key, Entry>, attempted: set<Key>, pending: seq<Entry>) {
    && (forall i, j :: 0 <= i <= j < |pending| ==>
          pending[i].depth <= pending[j].depth <= pending[i].depth + 1)
    && (forall k, i :: k in attempted && k in queued && 0 <= i < |pending| ==>
          queued[k].depth <= pending[i].depth)
  }

  ghost predicate Searching(site: Site, queued: map<Key, Entry>, attempted: set<Key>, pending: seq<Entry>) {
    && KeysAreRight(site, queued)
    && Pending(site, queued, attempted, pending)
    && Level(queued, attempted, pending)
    && (forall k {:trigger Discovered(site, queued, attempted, queued[k])} ::
          k in queued ==> Discovered(site, queued, attempted, queued[k]))
    && (forall k :: k in attempted && k in queued ==> Expanded(site, queued, queued[k]))
    && SeedsKnown(site, queued, site.maxPages)
  }

  // ---------- consequences of the invariant ----------

  lemma DepthCapped(site: Site, queued: map<Key, Entry>, attempted: set<Key>, pending: seq<Entry>, k: Key)
    requires Searching(site, queued, attempted, pending) && k in queued
    ensures queued[k].depth <= site.maxDepth || queued[k].depth <= 1
  {
    assert Discovered(site, queued, attempted, queued[k]);
  }

  lemma OneMoreClick(site: Site, queued: map<Key, Entry>, q: seq<Url>, source: Entry, e: Entry)
    requires ClickPath(site, queued, q) && Reaches(q, source.url, source.depth) && FoundOn(site, source, e)
    requires Knows(site, queued, source.url) && EntryOf(site, queued, source.url) == source
    ensures ClickPath(site, queued, q + [e.url])
  {
    var p := q + [e.url];
    forall i | 0 <= i < |p| - 1
      ensures site.Edge(p[i], p[i + 1])
    {
      if i < |q| - 1 { assert site.Edge(q[i], q[i + 1]); }
    }
  }

  /** Every entry is reached by a click path as long as its depth. */
  lemma {:induction false} PathTo(site: Site, queued: map<Key, Entry>, attempted: set<Key>, pending: seq<Entry>, k: Key)
    returns (p: seq<Url>)
    requires Searching(site, queued, attempted, pending) && k in queued
    ensures ClickPath(site, queued, p) && Reaches(p, queued[k].url, queued[k].depth)
    decreases queued[k].depth
  {
    var e := queued[k];
    assert Discovered(site, queued, attempted, e);
    if e == Entry(site.base, 0, None) {
      p := [e.url];
    } else if IsSeed(site, e) {
      p := [site.base, e.url];
      assert site.Edge(site.base, e.url);
    } else {
      var j :| j in attempted && j in queued && FoundOn(site, queued[j], e);
      var q := PathTo(site, queued, attempted, pending, j);
      p := q + [e.url];
      OneMoreClick(site, queued, q, queued[j], e);
    }
  }

  /** An attempted page shallow enough for its links to be followed. */
  ghost predicate Open(site: Site, queued: map<Key, Entry>, attempted: set<Key>, u: Url) {
    Knows(site, queued, u) && site.normalise(u) in attempted && EntryOf(site, queued, u).depth < site.maxDepth
  }

  /** `u` is known at depth at most `bound`. */
  ghost predicate KnownWithin(site: Site, queued: map<Key, Entry>, u: Url, bound: nat) {
    Knows(site, queued, u) && EntryOf(site, queued, u).depth <= bound
  }

  lemma StepAlong(site: Site, queued: map<Key, Entry>, attempted: set<Key>, pending: seq<Entry>, p: seq<Url>, i: nat)
    requires Searching(site, queued, attempted, pending) && ClickPath(site, queued, p) && i < |p| - 1
    requires KnownWithin(site, queued, p[i], i) && Open(site, queued, attempted, p[i])
    ensures KnownWithin(site, queued, p[i + 1], i + 1)
  {
    assert site.Edge(p[i], p[i + 1]);
    var e := EntryOf(site, queued, p[i]);
    assert Expanded(site, queued, e);
    if p[i + 1] in site.Targets(p[i]) {
      assert p[i + 1] in ToSet(site.Targets(p[i]));
      assert p[i + 1] in ToSet(site.Targets(e.url));
    } else {
      assert site.Seeded(p[i + 1]);
    }
  }

  /** Along a click path the knowledge keeps pace with the clicks, or it stopped at
      a page that is not open. */
  lemma {:induction false} Along(site: Site, queued: map<Key, Entry>, attempted: set<Key>, pending: seq<Entry>, p: seq<Url>, i: nat)
    returns (j: nat)
    requires Searching(site, queued, attempted, pending) && ClickPath(site, queued, p) && i < |p|
    ensures j <= i && KnownWithin(site, queued, p[j], j)
    ensures j < i ==> !Open(site, queued, attempted, p[j])
  {
    if i == 0 {
      j := 0;
    } else {
      j := Along(site, queued, attempted, pending, p, i - 1);
      if j == i - 1 && Open(site, queued, attempted, p[j]) {
        StepAlong(site, queued, attempted, pending, p, j);
        j := i;
      }
    }
  }

  /** A page that is not open bounds the depth of everything known. */
  lemma ClosedBounds(site: Site, queued: map<Key, Entry>, attempted: set<Key>, pending: seq<Entry>, u: Url, v: Url)
    requires Searching(site, queued, attempted, pending)
    requires Knows(site, queued, u) && !Open(site, queued, attempted, u) && Knows(site, queued, v)
    ensures EntryOf(site, queued, v).depth <= EntryOf(site, queued, u).depth + 1
  {
    var e, f := EntryOf(site, queued, u), EntryOf(site, queued, v);
    if site.normalise(u) in attempted {
      DepthCapped(site, queued, attempted, pending, site.normalise(v));
    } else {
      var i :| 0 <= i < |pending| && pending[i] == e;
      if site.normalise(v) !in attempted {
        var j :| 0 <= j < |pending| && pending[j] == f;
      }
    }
  }

  /** The depth of every known page is its exact distance, at every point of a crawl. */
  lemma DepthsAreExact(site: Site, queued: map<Key, Entry>, attempted: set<Key>, pending: seq<Entry>, k: Key)
    requires Searching(site, queued, attempted, pending) && k in queued
    ensures ExactDepth(site, queued, queued[k].url, queued[k].depth)
  {
    var e := queued[k];
    var q := PathTo(site, queued, attempted, pending, k);
    forall p | ClickPath(site, queued, p) && site.normalise(p[|p| - 1]) == site.normalise(e.url)
      ensures e.depth <= |p| - 1
    {
      var n := |p| - 1;
      var j := Along(site, queued, attempted, pending, p, n);
      assert EntryOf(site, queued, p[n]) == e;
      if j < n {
        ClosedBounds(site, queued, attempted, pending, p[j], p[n]);
      }
    }
  }

  /** Once the queue is empty, everything within the depth cap has been attempted. */
  lemma NothingMissed(site: Site, queued: map<Key, Entry>, attempted: set<Key>, p: seq<Url>)
    requires Searching(site, queued, attempted, []) && ClickPath(site, queued, p) && |p| - 1 <= site.maxDepth
    ensures site.normalise(p[|p| - 1]) in attempted
  {
    var n := |p| - 1;
    var j := Along(site, queued, attempted, [], p, n);
    assert forall k :: k in queued ==> k in attempted;
  }

  ghost predicate Near(site: Site, u: Url) {
    exists p :: site.IsPath(p) && |p| - 1 <= site.maxDepth && site.normalise(p[|p| - 1]) == site.normalise(u)
  }

  /** With well-behaved variants a finished crawl has attempted exactly the addresses
      within the depth cap in the site's own link graph. */
  lemma FinishedCrawlIsTheNearSite(site: Site, queued: map<Key, Entry>, attempted: set<Key>, u: Url)
    requires VariantsAgree(site) && site.maxDepth >= 1 && Searching(site, queued, attempted, [])
    ensures site.normalise(u) in attempted <==> Near(site, u)
  {
    var k := site.normalise(u);
    if k in attempted {
      var p := PathTo(site, queued, attempted, [], k);
      DepthCapped(site, queued, attempted, [], k);
      assert site.IsPath(p) && site.normalise(p[|p| - 1]) == k;
    }
    if p :| site.IsPath(p) && |p| - 1 <= site.maxDepth && site.normalise(p[|p| - 1]) == k {
      EveryPathIsClickPath(site, queued, p);
      NothingMissed(site, queued, attempted, p);
    }
  }

  // ---------- one step of the search ----------

  /** `grown` adds exactly `added` to `queued`, all of it found on `e`. */
  ghost predicate Grown(site: Site, queued: map<Key, Entry>, grown: map<Key, Entry>, added: seq<Entry>, e: Entry) {
    && queued.Keys <= grown.Keys
    && (forall k :: k in queued ==> grown[k] == queued[k])
    && (forall k :: k in grown && k !in queued ==> grown[k] in added && site.normalise(grown[k].url) == k)
    && (forall i :: 0 <= i < |added| ==>
          && FoundOn(site, e, added[i])
          && site.normalise(added[i].url) !in queued
          && site.normalise(added[i].url) in grown
          && grown[site.normalise(added[i].url)] == added[i])
    && (forall i, j :: 0 <= i < j < |added| ==>
          site.normalise(added[i].url) != site.normalise(added[j].url))
  }

  lemma PendingStep(site: Site, queued: map<Key, Entry>, attempted: set<Key>, pending: seq<Entry>,
                    grown: map<Key, Entry>, added: seq<Entry>)
    requires pending != [] && Pending(site, queued, attempted, pending) && KeysAreRight(site, queued)
    requires Grown(site, queued, grown, added, pending[0])
    ensures KeysAreRight(site, grown)
    ensures Pending(site, grown, attempted + {site.normalise(pending[0].url)}, pending[1..] + added)
  {
    var after := pending[1..] + added;
    forall k | k in grown && k !in attempted + {site.normalise(pending[0].url)}
      ensures grown[k] in after
    {
      if k in queued {
        var i :| 0 <= i < |pending| && pending[i] == queued[k];
        assert i > 0 && after[i - 1] == grown[k];
      }
    }
  }

  lemma LevelStep(site: Site, queued: map<Key, Entry>, attempted: set<Key>, pending: seq<Entry>,
                  grown: map<Key, Entry>, added: seq<Entry>)
    requires pending != [] && Pending(site, queued, attempted, pending) && Level(queued, attempted, pending)
    requires Grown(site, queued, grown, added, pending[0])
    ensures Level(grown, attempted + {site.normalise(pending[0].url)}, pending[1..] + added)
  {
    var after, e := pending[1..] + added, pending[0];
    forall i | 0 <= i < |after|
      ensures e.depth <= after[i].depth <= e.depth + 1
      ensures i >= |pending| - 1 ==> after[i].depth == e.depth + 1
    {
      var m := |pending| - 1;
      if i < m { assert after[i] == pending[i + 1]; } else { assert after[i] == added[i - m]; }
    }
    forall i, j | 0 <= i <= j < |after|
      ensures after[i].depth <= after[j].depth
    {
      if j < |pending| - 1 { assert after[i] == pending[i + 1] && after[j] == pending[j + 1]; }
    }
  }

  /** Attempting the head of the queue, with whatever its links add, keeps the search going. */
  lemma Attempt(site: Site, queued: map<Key, Entry>, attempted: set<Key>, pending: seq<Entry>,
                grown: map<Key, Entry>, added: seq<Entry>)
    requires pending != [] && Searching(site, queued, attempted, pending)
    requires Grown(site, queued, grown, added, pending[0]) && Expanded(site, grown, pending[0])
    ensures Searching(site, grown, attempted + {site.normalise(pending[0].url)}, pending[1..] + added)
  {
    var e := pending[0];
    var tried := attempted + {site.normalise(e.url)};
    PendingStep(site, queued, attempted, pending, grown, added);
    LevelStep(site, queued, attempted, pending, grown, added);
    forall k {:trigger Discovered(site, grown, tried, grown[k])} | k in grown
      ensures Discovered(site, grown, tried, grown[k])
    {
      if k in queued {
        assert Discovered(site, queued, attempted, queued[k]);
      } else {
        assert FoundOn(site, grown[site.normalise(e.url)], grown[k]);
      }
    }
    forall k | k in tried && k in grown
      ensures Expanded(site, grown, grown[k])
    {
      if k in attempted { assert Expanded(site, queued, queued[k]); }
    }
  }

  lemma KnownDepths(site: Site, queued: map<Key, Entry>, attempted: set<Key>, pending: seq<Entry>)
    requires pending != [] && Searching(site, queued, attempted, pending)
    ensures forall k :: k in queued ==> queued[k].depth <= pending[0].depth + 1
  {
    forall k | k in queued
      ensures queued[k].depth <= pending[0].depth + 1
    {
      if k !in attempted {
        var i :| 0 <= i < |pending| && pending[i] == queued[k];
      }
    }
  }

  // ---------- the crawl ----------

  /** The record made of a fetched entry. */
  function PageOf(site: Site, e: Entry): Page
    requires site.fetch(e.url).Fetched?
  {
    Page(e.url, e.depth, e.parent, site.fetch(e.url).ok, site.fetch(e.url).signals, e.url in site.sitemap)
  }

  class CrawlReport {
    var pages: map<Url, Page>
    var inlinks: map<Url, set<Url>>  // page to the targets it links to
    var limitReached: bool

    constructor ()
      ensures pages == map[] && inlinks == map[] && !limitReached
    {
      pages, inlinks, limitReached := map[], map[], false;
    }
  }

  /** Pages are exactly the attempted entries that answered; `inlinks` holds the
      links of every expanded page that has any. */
  ghost predicate Recorded(site: Site, queued: map<Key, Entry>, attempted: set<Key>,
                           pages: map<Url, Page>, inlinks: map<Url, set<Url>>)
  {
    && (forall k :: k in attempted && k in queued ==>
          (queued[k].url in pages <==> site.fetch(queued[k].url).Fetched?))
    && (forall u :: u in pages ==>
          && site.normalise(u) in attempted
          && Knows(site, queued, u)
          && EntryOf(site, queued, u).url == u
          && site.fetch(u).Fetched?
          && pages[u] == PageOf(site, EntryOf(site, queued, u)))
    && LinksRecorded(site, pages, inlinks)
  }

  ghost predicate LinksRecorded(site: Site, pages: map<Url, Page>, inlinks: map<Url, set<Url>>) {
    && (forall u :: u in inlinks <==>
          u in pages && pages[u].depth < site.maxDepth && site.Targets(u) != [])
    && (forall u :: u in inlinks ==> inlinks[u] == ToSet(site.Targets(u)))
  }

  /** The queue while seeds are being added: the start, then seeds at depth 1. */
  ghost predicate Seeding(site: Site, queued: map<Key, Entry>, frontier: seq<Entry>) {
    && KeysAreRight(site, queued)
    && Pending(site, queued, {}, frontier)
    && (forall k :: k in queued ==> queued[k] == Entry(site.base, 0, None) || IsSeed(site, queued[k]))
    && |frontier| >= 1 && frontier[0] == Entry(site.base, 0, None)
    && (forall j :: 1 <= j < |frontier| ==> IsSeed(site, frontier[j]))
  }

  ghost predicate IsSeed(site: Site, e: Entry) {
    site.Seeded(e.url) && site.inScope(e.url) && e.depth == 1 && e.parent == Some("sitemap")
  }

  lemma StartSeeding(site: Site)
    ensures Seeding(site, map[site.normalise(site.base) := Entry(site.base, 0, None)], [Entry(site.base, 0, None)])
  {
    assert [Entry(site.base, 0, None)][0] == Entry(site.base, 0, None);
  }

  lemma AddSeed(site: Site, queued: map<Key, Entry>, frontier: seq<Entry>, e: Entry)
    requires Seeding(site, queued, frontier) && IsSeed(site, e) && !Knows(site, queued, e.url)
    ensures Seeding(site, queued[site.normalise(e.url) := e], frontier + [e])
  {
    var more, longer := queued[site.normalise(e.url) := e], frontier + [e];
    forall k | k in more
      ensures more[k] in longer
    {
      if k in queued {
        var i :| 0 <= i < |frontier| && frontier[i] == queued[k];
        assert longer[i] == more[k];
      } else {
        assert longer[|frontier|] == more[k];
      }
    }
  }

  lemma SeededSearch(site: Site, queued: map<Key, Entry>, frontier: seq<Entry>)
    requires Seeding(site, queued, frontier) && SeedsKnown(site, queued, site.maxPages)
    ensures Searching(site, queued, {}, frontier)
  {
  }

  /** Queues the base and the seeds. */
  method SeedFrontier(site: Site) returns (seen: set<Key>, frontier: seq<Entry>, ghost queued: map<Key, Entry>)
    ensures seen == queued.Keys && Searching(site, queued, {}, frontier)
  {
    hide Seeding, KeysAreRight, Searching;
    var start := Entry(site.base, 0, None);
    StartSeeding(site);
    frontier := [start];
    seen := {site.normalise(site.base)};
    queued := map[site.normalise(site.base) := start];
    for i := 0 to Min(|site.sitemap|, site.maxPages)
      invariant seen == queued.Keys && Seeding(site, queued, frontier)
      invariant SeedsKnown(site, queued, i)
    {
      var url := site.sitemap[i];
      var key := site.normalise(url);
      if key !in seen && site.inScope(url) {
        AddSeed(site, queued, frontier, Entry(url, 1, Some("sitemap")));
        seen := seen + {key};
        frontier := frontier + [Entry(url, 1, Some("sitemap"))];
        queued := queued[key := Entry(url, 1, Some("sitemap"))];
      } else {
        SeedsAreShallow(site, queued, frontier);
      }
    }
    SeededSearch(site, queued, frontier);
  }

  lemma SeedsAreShallow(site: Site, queued: map<Key, Entry>, frontier: seq<Entry>)
    requires Seeding(site, queued, frontier)
    ensures forall k :: k in queued ==> queued[k].depth <= 1
  {
  }

  lemma AddLink(site: Site, queued: map<Key, Entry>, grown: map<Key, Entry>, added: seq<Entry>, e: Entry, found: Entry)
    requires Grown(site, queued, grown, added, e)
    requires FoundOn(site, e, found) && !Knows(site, grown, found.url)
    ensures Grown(site, queued, grown[site.normalise(found.url) := found], added + [found], e)
  {
    var more, longer := grown[site.normalise(found.url) := found], added + [found];
    forall k | k in more && k !in queued
      ensures more[k] in longer
    {
      if k in grown {
        var i :| 0 <= i < |added| && added[i] == grown[k];
        assert longer[i] == more[k];
      } else {
        assert longer[|added|] == more[k];
      }
    }
  }

  /** The link table after a page's links are entered; a page without links gets no row. */
  function WithLinks(table: map<Url, set<Url>>, from: Url, links: seq<Url>): map<Url, set<Url>> {
    if links == [] then table else table[from := ToSet(links)]
  }

  lemma OneMoreLink(table: map<Url, set<Url>>, from: Url, links: seq<Url>, target: Url)
    requires from !in table
    ensures var t := WithLinks(table, from, links);
            WithLinks(table, from, links + [target]) == t[from := (if from in t then t[from] else {}) + {target}]
  {
    assert ToSet(links + [target]) == ToSet(links) + {target};
    if links == [] { assert ToSet(links) == {}; }
  }

  /** Records the links of an expanded page and queues the new ones. */
  method FollowLinks(site: Site, report: CrawlReport, e: Entry, links: seq<Url>,
                     seenBefore: set<Key>, frontierBefore: seq<Entry>, ghost queued: map<Key, Entry>)
    returns (seen: set<Key>, frontier: seq<Entry>, ghost grown: map<Key, Entry>, ghost added: seq<Entry>)
    requires e.depth < site.maxDepth && links == site.Targets(e.url)
    requires seenBefore == queued.Keys && e.url !in report.inlinks
    requires forall k :: k in queued ==> queued[k].depth <= e.depth + 1
    modifies report`inlinks
    ensures seen == grown.Keys && frontier == frontierBefore + added
    ensures Grown(site, queued, grown, added, e) && Expanded(site, grown, e)
    ensures report.inlinks == WithLinks(old(report.inlinks), e.url, links)
  {
    assert WithLinks(report.inlinks, e.url, links[..0]) == report.inlinks;
    NothingAdded(site, queued, e);
    hide Grown, WithLinks;
    ghost var before := report.inlinks;
    seen, frontier, grown, added := seenBefore, frontierBefore, queued, [];
    for i := 0 to |links|
      invariant seen == grown.Keys && frontier == frontierBefore + added
      invariant Grown(site, queued, grown, added, e)
      invariant forall k :: k in grown ==> grown[k].depth <= e.depth + 1
      invariant forall t :: t in links[..i] && site.inScope(t) ==> site.normalise(t) in grown
      invariant report.inlinks == WithLinks(before, e.url, links[..i])
    {
      var target := links[i];
      assert links[..i + 1] == links[..i] + [target];
      var known := if e.url in report.inlinks then report.inlinks[e.url] else {};
      report.inlinks := report.inlinks[e.url := known + {target}];
      OneMoreLink(before, e.url, links[..i], target);
      var key := site.normalise(target);
      if key !in seen && site.inScope(target) {
        var found := Entry(target, e.depth + 1, Some(e.url));
        AddLink(site, queued, grown, added, e, found);
        seen := seen + {key};
        frontier := frontier + [found];
        grown, added := grown[key := found], added + [found];
      }
    }
    assert links[..|links|] == links;
  }

  /** Takes up to ten entries off the front of the queue, never more than the page
      cap still allows. */
  method TakeBatch(queue: seq<Entry>, pages: nat, maxPages: nat) returns (batch: seq<Entry>, frontier: seq<Entry>)
    ensures batch + frontier == queue
    ensures |batch| <= 10 && (pages <= maxPages ==> pages + |batch| <= maxPages)
    ensures frontier == [] || |batch| == 10 || pages + |batch| >= maxPages
  {
    batch, frontier := [], queue;
    while frontier != [] && |batch| < 10 && pages + |batch| < maxPages
      invariant batch + frontier == queue
      invariant |batch| <= 10 && (pages <= maxPages ==> pages + |batch| <= maxPages)
    {
      batch, frontier := batch + [frontier[0]], frontier[1..];
    }
  }

  /** The head of the queue has left no trace in the report yet. */
  lemma NewHere(site: Site, queued: map<Key, Entry>, attempted: set<Key>, pending: seq<Entry>,
                pages: map<Url, Page>, inlinks: map<Url, set<Url>>)
    requires pending != [] && Searching(site, queued, attempted, pending)
    requires Recorded(site, queued, attempted, pages, inlinks)
    ensures pending[0].url !in pages && pending[0].url !in inlinks
  {
  }

  lemma LinksStep(site: Site, pages: map<Url, Page>, inlinks: map<Url, set<Url>>, e: Entry,
                  after: map<Url, Page>, links: map<Url, set<Url>>)
    requires LinksRecorded(site, pages, inlinks) && e.url !in pages && e.url !in inlinks
    requires after == if site.fetch(e.url).Fetched? then pages[e.url := PageOf(site, e)] else pages
    requires links == if e.depth < site.maxDepth then WithLinks(inlinks, e.url, site.Targets(e.url)) else inlinks
    ensures LinksRecorded(site, after, links)
  {
  }

  /** Filing the head of the queue keeps the report in step with the search. */
  lemma RecordStep(site: Site, queued: map<Key, Entry>, attempted: set<Key>, pending: seq<Entry>,
                   pages: map<Url, Page>, inlinks: map<Url, set<Url>>,
                   grown: map<Key, Entry>, added: seq<Entry>, after: map<Url, Page>, links: map<Url, set<Url>>)
    requires pending != [] && Searching(site, queued, attempted, pending)
    requires Recorded(site, queued, attempted, pages, inlinks)
    requires Grown(site, queued, grown, added, pending[0])
    requires after == if site.fetch(pending[0].url).Fetched? then pages[pending[0].url := PageOf(site, pending[0])] else pages
    requires links == if pending[0].depth < site.maxDepth
                      then WithLinks(inlinks, pending[0].url, site.Targets(pending[0].url)) else inlinks
    ensures Recorded(site, grown, attempted + {site.normalise(pending[0].url)}, after, links)
  {
    hide Level, Discovered, Expanded, SeedsKnown, FoundOn;
    var e := pending[0];
    NewHere(site, queued, attempted, pending, pages, inlinks);
    LinksStep(site, pages, inlinks, e, after, links);
    hide LinksRecorded;
    forall k | k in attempted + {site.normalise(e.url)} && k in grown
      ensures grown[k].url in after <==> site.fetch(grown[k].url).Fetched?
    {
      assert k in queued && site.normalise(queued[k].url) == k;
    }
    forall u | u in after
      ensures site.normalise(u) in attempted + {site.normalise(e.url)} && Knows(site, grown, u)
      ensures EntryOf(site, grown, u).url == u && site.fetch(u).Fetched?
      ensures after[u] == PageOf(site, EntryOf(site, grown, u))
    {
      if u != e.url { assert u in pages; }
    }
  }

  /** Files one gathered result: an exception leaves no page; a page is recorded and,
      if it is ok, parsed and shallow enough, its links are followed. */
  method FileResult(site: Site, report: CrawlReport, e: Entry, ghost batchRest: seq<Entry>,
                    seenBefore: set<Key>, frontierBefore: seq<Entry>,
                    ghost queued: map<Key, Entry>, ghost attempted: set<Key>)
    returns (seen: set<Key>, frontier: seq<Entry>, ghost grown: map<Key, Entry>)
    requires seenBefore == queued.Keys
    requires Searching(site, queued, attempted, [e] + batchRest + frontierBefore)
    requires Recorded(site, queued, attempted, report.pages, report.inlinks)
    modifies report`pages, report`inlinks
    ensures seen == grown.Keys
    ensures Searching(site, grown, attempted + {site.normalise(e.url)}, batchRest + frontier)
    ensures Recorded(site, grown, attempted + {site.normalise(e.url)}, report.pages, report.inlinks)
    ensures site.fetch(e.url).Fetched? ==> |report.pages| == |old(report.pages)| + 1
    ensures site.fetch(e.url).Raised? ==> report.pages == old(report.pages) && frontier == frontierBefore
  {
    hide Searching, Recorded, Grown, Expanded;
    ghost var pending := [e] + batchRest + frontierBefore;
    assert pending[0] == e && pending[1..] == batchRest + frontierBefore;
    seen, frontier, grown := seenBefore, frontierBefore, queued;
    ghost var added: seq<Entry> := [];
    var answer := site.fetch(e.url);
    NewHere(site, queued, attempted, pending, report.pages, report.inlinks);
    NothingAdded(site, queued, e);
    if answer.Fetched? {
      var page := PageOf(site, e);
      report.pages := report.pages[e.url := page];
      if page.ok && page.signals.Some? && page.depth < site.maxDepth {
        KnownDepths(site, queued, attempted, pending);
        seen, frontier, grown, added := FollowLinks(site, report, e, page.signals.value, seen, frontier, queued);
      }
    }
    Attempt(site, queued, attempted, pending, grown, added);
    RecordStep(site, queued, attempted, pending, old(report.pages), old(report.inlinks),
               grown, added, report.pages, report.inlinks);
    assert pending[1..] + added == batchRest + frontier;
  }

  /** A page that is not expanded adds nothing, and misses nothing it would have had to add. */
  lemma NothingAdded(site: Site, queued: map<Key, Entry>, e: Entry)
    ensures Grown(site, queued, queued, [], e)
    ensures e.depth >= site.maxDepth || site.Targets(e.url) == [] ==> Expanded(site, queued, e)
  {
  }

  /** Files the gathered results of a batch in order. */
  method FileBatch(site: Site, report: CrawlReport, batch: seq<Entry>, seenBefore: set<Key>,
                   frontierBefore: seq<Entry>, ghost queuedBefore: map<Key, Entry>, ghost attemptedBefore: set<Key>)
    returns (seen: set<Key>, frontier: seq<Entry>, ghost queued: map<Key, Entry>, ghost attempted: set<Key>)
    requires seenBefore == queuedBefore.Keys
    requires Searching(site, queuedBefore, attemptedBefore, batch + frontierBefore)
    requires Recorded(site, queuedBefore, attemptedBefore, report.pages, report.inlinks)
    modifies report`pages, report`inlinks
    ensures seen == queued.Keys
    ensures Searching(site, queued, attempted, frontier)
    ensures Recorded(site, queued, attempted, report.pages, report.inlinks)
    ensures |old(report.pages)| <= |report.pages| <= |old(report.pages)| + |batch|
    ensures |report.pages| == |old(report.pages)| ==> frontier == frontierBefore
  {
    hide *;
    seen, frontier, queued, attempted := seenBefore, frontierBefore, queuedBefore, attemptedBefore;
    assert batch[0..] + frontier == batch + frontierBefore;
    for i := 0 to |batch|
      invariant seen == queued.Keys
      invariant Searching(site, queued, attempted, batch[i..] + frontier)
      invariant Recorded(site, queued, attempted, report.pages, report.inlinks)
      invariant |old(report.pages)| <= |report.pages| <= |old(report.pages)| + i
      invariant |report.pages| == |old(report.pages)| ==> frontier == frontierBefore
    {
      assert batch[i..] + frontier == [batch[i]] + batch[i + 1..] + frontier;
      seen, frontier, queued :=
        FileResult(site, report, batch[i], batch[i + 1..], seen, frontier, queued, attempted);
      attempted := attempted + {site.normalise(batch[i].url)};
    }
    assert batch[|batch|..] + frontier == frontier;
  }

  /** `e` is the start, a seed, or a link on the recorded page it names, one level up. */
  ghost predicate RightParent(site: Site, pages: map<Url, Page>, e: Entry) {
    || e == Entry(site.base, 0, None)
    || IsSeed(site, e)
    || (&& e.parent.Some? && e.parent.value in pages
        && pages[e.parent.value].depth < site.maxDepth
        && e.depth == pages[e.parent.value].depth + 1
        && pages[e.parent.value].ok && pages[e.parent.value].signals.Some?
        && e.url in pages[e.parent.value].signals.value && site.inScope(e.url))
  }

  ghost predicate ParentsReported(site: Site, pages: map<Url, Page>, left: seq<Entry>) {
    && (forall u :: u in pages ==> RightParent(site, pages, Entry(u, pages[u].depth, pages[u].parent)))
    && (forall e :: e in left ==> RightParent(site, pages, e))
  }

  /** Every address the crawl let stand for its variants is recorded, queued, or
      could not be fetched. */
  ghost predicate KnownIsAccountedFor(site: Site, queued: map<Key, Entry>, pages: map<Url, Page>, left: seq<Entry>) {
    forall k :: k in queued ==>
      && site.normalise(queued[k].url) == k
      && (queued[k] in left || queued[k].url in pages || site.fetch(queued[k].url).Raised?)
  }

  /** Every recorded page was fetched as recorded, and carries its exact distance;
      so does everything still queued. */
  ghost predicate DepthsReported(site: Site, queued: map<Key, Entry>, pages: map<Url, Page>, left: seq<Entry>) {
    && (forall u :: u in pages ==>
          && site.fetch(u).Fetched?
          && pages[u].url == u && pages[u].ok == site.fetch(u).ok && pages[u].signals == site.fetch(u).signals
          && (pages[u].inSitemap <==> u in site.sitemap)
          && ExactDepth(site, queued, u, pages[u].depth))
    && (forall e :: e in left ==> ExactDepth(site, queued, e.url, e.depth))
  }

  /** Each in-scope address among the first `maxPages` of the sitemap is known at depth 1 at
      most, in some spelling that is recorded, left in the queue or could not be fetched;
      and whatever is at depth 1 is one of them or a link on the start page. */
  ghost predicate SitemapReported(site: Site, queued: map<Key, Entry>, pages: map<Url, Page>, left: seq<Entry>) {
    && (forall i :: 0 <= i < |site.sitemap| && i < site.maxPages && site.inScope(site.sitemap[i]) ==>
          && site.normalise(site.sitemap[i]) in queued
          && var e := queued[site.normalise(site.sitemap[i])];
             e.depth <= 1 && (e in left || e.url in pages || site.fetch(e.url).Raised?))
    && (forall k :: k in queued && queued[k].depth == 1 ==>
          || (queued[k].parent == Some("sitemap") &&
              exists i :: 0 <= i < |site.sitemap| && i < site.maxPages && site.sitemap[i] == queued[k].url)
          || LinkedFromBase(site, queued[k]))
  }

  /** Every link of a recorded page that is ok, was parsed and lies above the depth cap is in
      the link table, and known one level deeper at most if it is in scope; no other page
      is in the table. */
  ghost predicate LinksFollowed(site: Site, queued: map<Key, Entry>, pages: map<Url, Page>, inlinks: map<Url, set<Url>>) {
    && (forall u, links, t :: u in pages && Follows(site, pages[u], links) && t in links ==>
          && u in inlinks && t in inlinks[u]
          && (site.inScope(t) ==> site.normalise(t) in queued && queued[site.normalise(t)].depth <= pages[u].depth + 1))
    && (forall u, t :: u in inlinks && t in inlinks[u] ==>
          u in pages && exists links :: Follows(site, pages[u], links) && t in links)
  }

  ghost predicate Follows(site: Site, page: Page, links: seq<Url>) {
    page.ok && page.depth < site.maxDepth && page.signals == Some(links)
  }

  /** No two recorded or queued addresses share a normalised key. */
  ghost predicate KeysReportedOnce(site: Site, pages: map<Url, Page>, left: seq<Entry>) {
    && (forall u, v :: u in pages && v in pages && site.normalise(u) == site.normalise(v) ==> u == v)
    && (forall i, j :: 0 <= i < j < |left| ==> site.normalise(left[i].url) != site.normalise(left[j].url))
    && (forall u, e :: u in pages && e in left ==> site.normalise(u) != site.normalise(e.url))
  }

  /** Whatever is within the depth cap was attempted: recorded, or its fetch raised. */
  ghost predicate AllAttempted(site: Site, queued: map<Key, Entry>, pages: map<Url, Page>) {
    forall p :: ClickPath(site, queued, p) && |p| - 1 <= site.maxDepth ==>
      Knows(site, queued, p[|p| - 1]) &&
      var tried := EntryOf(site, queued, p[|p| - 1]).url;
      tried in pages || site.fetch(tried).Raised?
  }

  /** With well-behaved variants the report of a crawl that left nothing queued has a
      page for every path of the site within the depth cap, unless its fetch raised. */
  lemma ReportIsComplete(site: Site, queued: map<Key, Entry>, pages: map<Url, Page>, p: seq<Url>) returns (stand: Url)
    requires VariantsAgree(site) && AllAttempted(site, queued, pages) && KnownIsAccountedFor(site, queued, pages, [])
    requires site.IsPath(p) && |p| - 1 <= site.maxDepth
    ensures site.normalise(stand) == site.normalise(p[|p| - 1]) && (stand in pages || site.fetch(stand).Raised?)
  {
    EveryPathIsClickPath(site, queued, p);
    stand := EntryOf(site, queued, p[|p| - 1]).url;
  }

  lemma NothingRecorded(site: Site)
    ensures forall queued :: Recorded(site, queued, {}, map[], map[])
  {
  }

  /** The whole crawl. `left` is the queue it stops with and `queued` the variant
      that stood for each key it met. */
  method Crawl(site: Site) returns (report: CrawlReport, left: seq<Entry>, ghost queued: map<Key, Entry>)
    ensures |report.pages| <= site.maxPages
    ensures report.limitReached <==> left != []
    ensures left != [] ==> |report.pages| == site.maxPages
    ensures DepthsReported(site, queued, report.pages, left)
    ensures KeysReportedOnce(site, report.pages, left)
    ensures left == [] ==> AllAttempted(site, queued, report.pages)
    ensures ParentsReported(site, report.pages, left)
    ensures LinksRecorded(site, report.pages, report.inlinks)
    ensures KnownIsAccountedFor(site, queued, report.pages, left)
    ensures SitemapReported(site, queued, report.pages, left)
    ensures LinksFollowed(site, queued, report.pages, report.inlinks)
  {
    hide *;
    report := new CrawlReport();
    NothingRecorded(site);
    var seen, frontier;
    seen, frontier, queued := SeedFrontier(site);
    ghost var attempted: set<Key> := {};

    while frontier != [] && |report.pages| < site.maxPages
      invariant seen == queued.Keys
      invariant Searching(site, queued, attempted, frontier)
      invariant Recorded(site, queued, attempted, report.pages, report.inlinks)
      invariant |report.pages| <= site.maxPages && !report.limitReached
      decreases site.maxPages - |report.pages|, |frontier|
    {
      var batch;
      batch, frontier := TakeBatch(frontier, |report.pages|, site.maxPages);
      seen, frontier, queued, attempted := FileBatch(site, report, batch, seen, frontier, queued, attempted);
    }
    left := frontier;
    report.limitReached := frontier != [];
    Conclude(site, queued, attempted, left, report.pages, report.inlinks);
  }

  lemma EverythingAttempted(site: Site, queued: map<Key, Entry>, attempted: set<Key>,
                            pages: map<Url, Page>, inlinks: map<Url, set<Url>>)
    requires Searching(site, queued, attempted, []) && Recorded(site, queued, attempted, pages, inlinks)
    ensures AllAttempted(site, queued, pages)
  {
    hide Level, Discovered, Expanded, SeedsKnown, Faithful, LinksRecorded;
    forall p | ClickPath(site, queued, p) && |p| - 1 <= site.maxDepth
      ensures site.normalise(p[|p| - 1]) in attempted
    {
      NothingMissed(site, queued, attempted, p);
    }
  }

  lemma EveryParentIsRight(site: Site, queued: map<Key, Entry>, attempted: set<Key>, left: seq<Entry>,
                           pages: map<Url, Page>, inlinks: map<Url, set<Url>>)
    requires Searching(site, queued, attempted, left) && Recorded(site, queued, attempted, pages, inlinks)
    ensures ParentsReported(site, pages, left)
  {
    forall k | k in queued
      ensures RightParent(site, pages, queued[k])
    {
      ParentRecorded(site, queued, attempted, left, pages, inlinks, k);
    }
    hide RightParent, LinksRecorded, Level, Discovered, Expanded, SeedsKnown;
    assert forall u :: u in pages ==> EntryOf(site, queued, u) == Entry(u, pages[u].depth, pages[u].parent);
  }

  lemma NothingKnownIsLost(site: Site, queued: map<Key, Entry>, attempted: set<Key>, left: seq<Entry>,
                           pages: map<Url, Page>, inlinks: map<Url, set<Url>>)
    requires Searching(site, queued, attempted, left) && Recorded(site, queued, attempted, pages, inlinks)
    ensures KeysReportedOnce(site, pages, left)
    ensures KnownIsAccountedFor(site, queued, pages, left)
  {
    hide LinksRecorded, Level, Discovered, Expanded, SeedsKnown;
  }

  lemma EveryDepthIsExact(site: Site, queued: map<Key, Entry>, attempted: set<Key>, left: seq<Entry>,
                          pages: map<Url, Page>, inlinks: map<Url, set<Url>>)
    requires Searching(site, queued, attempted, left) && Recorded(site, queued, attempted, pages, inlinks)
    ensures DepthsReported(site, queued, pages, left)
  {
    hide ExactDepth, Level, Discovered, Expanded, SeedsKnown, LinksRecorded;
    forall u | u in pages
      ensures ExactDepth(site, queued, u, pages[u].depth)
    {
      DepthsAreExact(site, queued, attempted, left, site.normalise(u));
    }
    forall e | e in left
      ensures ExactDepth(site, queued, e.url, e.depth)
    {
      DepthsAreExact(site, queued, attempted, left, site.normalise(e.url));
    }
  }

  lemma SitemapIsReported(site: Site, queued: map<Key, Entry>, attempted: set<Key>, left: seq<Entry>,
                          pages: map<Url, Page>, inlinks: map<Url, set<Url>>)
    requires Searching(site, queued, attempted, left) && Recorded(site, queued, attempted, pages, inlinks)
    ensures SitemapReported(site, queued, pages, left)
  {
    NothingKnownIsLost(site, queued, attempted, left, pages, inlinks);
    forall k | k in queued && queued[k].depth == 1
      ensures IsSeed(site, queued[k]) || LinkedFromBase(site, queued[k])
    {
      FirstLevel(site, queued, attempted, left, k);
    }
    hide Recorded, LinksRecorded, Level, Expanded, Pending, Discovered;
  }

  ghost predicate LinkedFromBase(site: Site, e: Entry) {
    e.parent == Some(site.base) && exists links :: site.fetch(site.base) == Fetched(true, Some(links)) && e.url in links
  }

  lemma FirstLevel(site: Site, queued: map<Key, Entry>, attempted: set<Key>, pending: seq<Entry>, k: Key)
    requires Searching(site, queued, attempted, pending) && k in queued && queued[k].depth == 1
    ensures IsSeed(site, queued[k]) || LinkedFromBase(site, queued[k])
  {
    hide Level, Expanded, Pending, SeedsKnown;
    assert Discovered(site, queued, attempted, queued[k]);
    if !IsSeed(site, queued[k]) {
      var j :| j in attempted && j in queued && FoundOn(site, queued[j], queued[k]);
      assert Discovered(site, queued, attempted, queued[j]);
      assert site.fetch(site.base) == Fetched(true, Some(site.Targets(site.base)));
    }
  }

  /** What the search invariant and the records say once the crawl has stopped. */
  lemma Conclude(site: Site, queued: map<Key, Entry>, attempted: set<Key>, left: seq<Entry>,
                 pages: map<Url, Page>, inlinks: map<Url, set<Url>>)
    requires Searching(site, queued, attempted, left) && Recorded(site, queued, attempted, pages, inlinks)
    ensures DepthsReported(site, queued, pages, left)
    ensures KeysReportedOnce(site, pages, left)
    ensures left == [] ==> AllAttempted(site, queued, pages)
    ensures ParentsReported(site, pages, left)
    ensures LinksRecorded(site, pages, inlinks)
    ensures KnownIsAccountedFor(site, queued, pages, left)
    ensures SitemapReported(site, queued, pages, left)
    ensures LinksFollowed(site, queued, pages, inlinks)
  {
    LinksAreFollowed(site, queued, attempted, left, pages, inlinks);
    EveryDepthIsExact(site, queued, attempted, left, pages, inlinks);
    if left == [] {
      EverythingAttempted(site, queued, attempted, pages, inlinks);
    }
    EveryParentIsRight(site, queued, attempted, left, pages, inlinks);
    NothingKnownIsLost(site, queued, attempted, left, pages, inlinks);
    SitemapIsReported(site, queued, attempted, left, pages, inlinks);
    hide DepthsReported, KeysReportedOnce, AllAttempted, ParentsReported, LinksRecorded, KnownIsAccountedFor, SitemapReported, Searching, LinksFollowed;
  }

  lemma LinksAreFollowed(site: Site, queued: map<Key, Entry>, attempted: set<Key>, left: seq<Entry>,
                         pages: map<Url, Page>, inlinks: map<Url, set<Url>>)
    requires Searching(site, queued, attempted, left) && Recorded(site, queued, attempted, pages, inlinks)
    ensures LinksFollowed(site, queued, pages, inlinks)
  {
    hide Level, Discovered, SeedsKnown, Pending, KeysAreRight;
    forall u, links, t | u in pages && Follows(site, pages[u], links) && t in links
      ensures u in inlinks && t in inlinks[u]
      ensures site.inScope(t) ==> site.normalise(t) in queued && queued[site.normalise(t)].depth <= pages[u].depth + 1
    {
      assert pages[u] == PageOf(site, EntryOf(site, queued, u)) && site.Targets(u) == links;
      assert Expanded(site, queued, EntryOf(site, queued, u));
    }
    forall u, t | u in inlinks && t in inlinks[u]
      ensures u in pages && exists links :: Follows(site, pages[u], links) && t in links
    {
      assert u in pages && pages[u] == PageOf(site, EntryOf(site, queued, u));
      assert t in site.Targets(u) && Follows(site, pages[u], site.Targets(u));
    }
  }

  lemma ParentRecorded(site: Site, queued: map<Key, Entry>, attempted: set<Key>, left: seq<Entry>,
                       pages: map<Url, Page>, inlinks: map<Url, set<Url>>, k: Key)
    requires Searching(site, queued, attempted, left) && Recorded(site, queued, attempted, pages, inlinks)
    requires k in queued
    ensures RightParent(site, pages, queued[k])
  {
    var e := queued[k];
    assert Discovered(site, queued, attempted, e);
    if e != Entry(site.base, 0, None) && !IsSeed(site, e) {
      var j :| j in attempted && j in queued && FoundOn(site, queued[j], e);
      assert EntryOf(site, queued, queued[j].url) == queued[j];
      assert pages[queued[j].url] == PageOf(site, queued[j]);
    }
  }

  // ---------- orphans ----------

  /** An address without its trailing slashes. */
  function Stripped(u: Url): Url {
    if u != "" && u[|u| - 1] == '/' then Stripped(u[..|u| - 1]) else u
  }

  /** Only slashes are taken off, and all of them. */
  lemma {:induction false} StrippedExactly(u: Url)
    ensures Stripped(u) <= u && forall i :: |Stripped(u)| <= i < |u| ==> u[i] == '/'
    ensures Stripped(u) != "" ==> Stripped(u)[|Stripped(u)| - 1] != '/'
  {
    if u != "" && u[|u| - 1] == '/' {
      StrippedExactly(u[..|u| - 1]);
    }
  }

  function Orphans(site: Site, pages: map<Url, Page>, inlinks: map<Url, set<Url>>): set<Url> {
    var linked := set from, target | from in inlinks && target in inlinks[from] :: target;
    var candidates := (set u | u in pages && pages[u].ok && pages[u].signals.Some?) + ToSet(site.sitemap);
    set u | u in candidates && u !in linked && Stripped(u) != Stripped(site.base)
  }

  /** What a finished crawl calls an orphan: an address other than the start that no
      recorded page above the depth cap links to, spelled just so. Every one of them
      is in the sitemap. */
  lemma OrphansAreUnlinkedSitemapUrls(site: Site, queued: map<Key, Entry>, pages: map<Url, Page>, inlinks: map<Url, set<Url>>,
                                      left: seq<Entry>, u: Url)
    requires LinksFollowed(site, queued, pages, inlinks) && ParentsReported(site, pages, left)
    ensures u in Orphans(site, pages, inlinks) <==>
            && u in site.sitemap && Stripped(u) != Stripped(site.base)
            && forall v, links :: v in pages && Follows(site, pages[v], links) ==> u !in links
  {
    hide Follows, RightParent, Stripped;
    forall v, links | v in pages && Follows(site, pages[v], links) && u in links
      ensures u !in Orphans(site, pages, inlinks)
    {
      assert v in inlinks && u in inlinks[v];
    }
    if u in pages && u !in site.sitemap && Stripped(u) != Stripped(site.base) {
      var v, links := LinkedFrom(site, pages, left, u);
    }
  }

  /** A recorded page other than the start and the sitemap's is linked to by another. */
  lemma LinkedFrom(site: Site, pages: map<Url, Page>, left: seq<Entry>, u: Url) returns (v: Url, links: seq<Url>)
    requires ParentsReported(site, pages, left) && u in pages && u !in site.sitemap && u != site.base
    ensures v in pages && Follows(site, pages[v], links) && u in links
  {
    var e := Entry(u, pages[u].depth, pages[u].parent);
    assert RightParent(site, pages, e);
    v, links := e.parent.value, pages[e.parent.value].signals.value;
  }
}

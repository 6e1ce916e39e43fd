/** The unblocker: a ladder of alternative routes and the memory of what failed. */
module Resolver {
  import opened Common

  /** What running a route comes to: a usable value, nothing (or False), an
      ordinary exception, or a safety refusal. */
  datatype Outcome = Yields(value: string) | Nothing | Raises | Refuses

  /** How the routes answer during one call, by route name. */
  type World = string -> Outcome

  datatype Route = Route(name: string, rung: int, fidelity: real, forbidden: bool)

  datatype Attempt = Attempt(rung: int, strategy: string, succeeded: bool)

  datatype Resolution = Resolution(
    resolved: bool,
    value: Option<string>,
    fidelity: real,
    rungReached: int,
    routeUsed: Option<string>,
    attempts: seq<Attempt>,
    humanRequired: bool)
  {
    predicate Degraded() {
      resolved && fidelity < 1.0
    }
  }

  datatype SafetyRefusal = SafetyRefusal(route: string)

  /** What is remembered for one problem signature. */
  datatype Record = Record(failedRoutes: seq<string>, decisionRoute: Option<string>, humanRequired: bool)

  const FORBIDDEN_RESOLUTIONS: set<string> := {
    "disable_quality_gate", "publish_without_required_approval", "bypass_tester", "force_push",
    "silence_failing_check", "buy_links", "exchange_links", "private_blog_network", "cloaking",
    "doorway_pages", "scraped_content", "fake_reviews", "review_gating", "mass_community_posting",
    "impersonation", "hidden_text", "expired_domain_abuse"}

  predicate Forbidden(r: Route) {
    r.forbidden || r.name in FORBIDDEN_RESOLUTIONS
  }

  // ---------- the ladder ----------

  /** `a` sorts strictly before `b`: lower rung first, then higher fidelity. */
  predicate Before(a: Route, b: Route) {
    a.rung < b.rung || (a.rung == b.rung && a.fidelity > b.fidelity)
  }

  function Insert(r: Route, s: seq<Route>): seq<Route> {
    if s == [] then [r]
    else if Before(s[0], r) then [s[0]] + Insert(r, s[1..])
    else [r] + s
  }

  /** The stable sort by (rung, -fidelity). */
  function Ladder(routes: seq<Route>): seq<Route> {
    if routes == [] then [] else Insert(routes[0], Ladder(routes[1..]))
  }

  ghost predicate DistinctKeys(routes: seq<Route>) {
    forall i, j :: 0 <= i < j < |routes| ==> Before(routes[i], routes[j]) || Before(routes[j], routes[i])
  }

  ghost predicate DistinctNames(routes: seq<Route>) {
    forall i, j :: 0 <= i < j < |routes| ==> routes[i].name != routes[j].name
  }

  function Others(routes: seq<Route>, name: string): seq<Route> {
    if routes == [] then []
    else (if routes[0].name != name then [routes[0]] else []) + Others(routes[1..], name)
  }

  function Named(routes: seq<Route>, name: string): Option<Route> {
    if routes == [] then None
    else if routes[0].name == name then Some(routes[0])
    else Named(routes[1..], name)
  }

  /** A remembered decision moves its route to the front before sorting. */
  function Recalled(routes: seq<Route>, prior: Option<Record>): Option<Route> {
    if prior.Some? && prior.value.decisionRoute.Some? && prior.value.decisionRoute.value != ""
    then Named(routes, prior.value.decisionRoute.value)
    else None
  }

  function Reordered(routes: seq<Route>, prior: Option<Record>): seq<Route> {
    var known := Recalled(routes, prior);
    if known.Some? then [known.value] + Others(routes, known.value.name) else routes
  }

  lemma {:induction false} InsertCommutes(a: Route, b: Route, s: seq<Route>)
    requires Before(a, b) || Before(b, a)
    ensures Insert(a, Insert(b, s)) == Insert(b, Insert(a, s))
  {
    if s != [] {
      InsertCommutes(a, b, s[1..]);
      var h, t := s[0], s[1..];
      assert s == [h] + t;
      assert ([h] + Insert(b, t))[1..] == Insert(b, t);
      assert ([h] + Insert(a, t))[1..] == Insert(a, t);
      assert ([b] + s)[1..] == s && ([a] + s)[1..] == s;
    } else {
      assert [a][1..] == [] && [b][1..] == [];
    }
  }

  lemma {:induction false} NothingElseNamed(routes: seq<Route>, name: string)
    requires forall r :: r in routes ==> r.name != name
    ensures Others(routes, name) == routes
  {
    if routes != [] {
      assert forall r :: r in routes[1..] ==> r in routes;
      NothingElseNamed(routes[1..], name);
    }
  }

  /** With distinct keys, moving a route to the front does not change the ladder. */
  lemma {:induction false} MovedToFront(routes: seq<Route>, known: Route)
    requires DistinctKeys(routes) && DistinctNames(routes) && Named(routes, known.name) == Some(known)
    ensures Ladder([known] + Others(routes, known.name)) == Ladder(routes)
  {
    var head, tail := routes[0], routes[1..];
    assert forall i :: 0 <= i < |tail| ==> tail[i] == routes[i + 1];
    assert ([known] + Others(routes, known.name))[1..] == Others(routes, known.name);
    if head.name == known.name {
      NothingElseNamed(tail, known.name);
      assert Others(routes, known.name) == [] + tail == tail;
    } else {
      MovedToFront(tail, known);
      NamedIsIn(tail, known.name);
      var rest := Others(tail, known.name);
      assert Others(routes, known.name) == [head] + rest;
      assert ([known] + rest)[1..] == rest && ([head] + rest)[1..] == rest;
      InsertCommutes(known, head, Ladder(rest));
    }
  }

  lemma {:induction false} NamedIsIn(routes: seq<Route>, name: string)
    ensures Named(routes, name).Some? ==> Named(routes, name).value in routes && Named(routes, name).value.name == name
    ensures Named(routes, name).None? ==> forall r :: r in routes ==> r.name != name
  {
    if routes != [] {
      NamedIsIn(routes[1..], name);
      assert routes == [routes[0]] + routes[1..];
    }
  }

  /** Recall never changes the order in which distinct keys are tried. */
  lemma LadderIgnoresRecall(routes: seq<Route>, prior: Option<Record>)
    requires DistinctKeys(routes) && DistinctNames(routes)
    ensures Ladder(Reordered(routes, prior)) == Ladder(routes)
  {
    var known := Recalled(routes, prior);
    if known.Some? {
      NamedIsIn(routes, prior.value.decisionRoute.value);
      MovedToFront(routes, known.value);
    }
  }

  ghost predicate Sorted(s: seq<Route>) {
    forall i, j :: 0 <= i < j < |s| ==> !Before(s[j], s[i])
  }

  /** The ladder holds the same routes, none after a route that sorts later. */
  lemma {:induction false} LadderIsSorted(routes: seq<Route>)
    ensures multiset(Ladder(routes)) == multiset(routes)
    ensures Sorted(Ladder(routes))
  {
    if routes != [] {
      LadderIsSorted(routes[1..]);
      InsertKeeps(routes[0], Ladder(routes[1..]));
      InsertSorts(routes[0], Ladder(routes[1..]));
      assert routes == [routes[0]] + routes[1..];
    }
  }

  /** Lower rungs come first, and on one rung the more faithful routes. */
  lemma LadderByRung(routes: seq<Route>)
    ensures forall i, j :: 0 <= i < j < |Ladder(routes)| ==>
              var a, b := Ladder(routes)[i], Ladder(routes)[j];
              a.rung < b.rung || (a.rung == b.rung && a.fidelity >= b.fidelity)
  {
    LadderIsSorted(routes);
  }

  lemma {:induction false} InsertKeeps(r: Route, s: seq<Route>)
    ensures multiset(Insert(r, s)) == multiset([r]) + multiset(s)
    ensures forall x :: x in Insert(r, s) ==> x == r || x in s
  {
    if s != [] && Before(s[0], r) {
      InsertKeeps(r, s[1..]);
      assert s == [s[0]] + s[1..];
    }
  }

  lemma {:induction false} InsertSorts(r: Route, s: seq<Route>)
    requires Sorted(s)
    ensures Sorted(Insert(r, s))
  {
    if s != [] && Before(s[0], r) {
      InsertSorts(r, s[1..]);
      InsertKeeps(r, s[1..]);
      forall x | x in Insert(r, s[1..])
        ensures !Before(x, s[0])
      {
        if x != r { var i :| 0 <= i < |s| - 1 && s[1..][i] == x; }
      }
    }
  }

  // ---------- one climb ----------

  datatype End = Won(winner: Route, value: string) | Exhausted | Refused(at: string)

  /** A climb: the attempts logged, the routes actually run that failed, and how it ended. */
  datatype Climbed = Climbed(attempts: seq<Attempt>, failures: seq<string>, end: End)
  {
    function Prefixed(log: seq<Attempt>, failed: seq<string>): Climbed {
      Climbed(log + attempts, failed + failures, end)
    }
  }

  predicate Eligible(r: Route, allowDegraded: bool) {
    allowDegraded || r.fidelity >= 1.0
  }

  function Climb(ladder: seq<Route>, dead: set<string>, allowDegraded: bool, world: World): Climbed {
    if ladder == [] then Climbed([], [], Exhausted)
    else
      var r, rest := ladder[0], ladder[1..];
      var lost := Attempt(r.rung, r.name, false);
      if Forbidden(r) then Climbed([], [], Refused(r.name))
      else if r.name in dead then Climb(rest, dead, allowDegraded, world).Prefixed([lost], [])
      else if !Eligible(r, allowDegraded) then Climb(rest, dead, allowDegraded, world)
      else
        match world(r.name)
        case Refuses => Climbed([], [], Refused(r.name))
        case Yields(v) => Climbed([Attempt(r.rung, r.name, true)], [], Won(r, v))
        case _ => Climb(rest, dead, allowDegraded, world).Prefixed([lost], [r.name])
  }

  function FailedNames(attempts: seq<Attempt>): seq<string> {
    if attempts == [] then []
    else (if attempts[0].succeeded then [] else [attempts[0].strategy]) + FailedNames(attempts[1..])
  }

  function Names(routes: seq<Route>): (ns: seq<string>)
    ensures |ns| == |routes| && forall i :: 0 <= i < |routes| ==> ns[i] == routes[i].name
  {
    seq(|routes|, i requires 0 <= i < |routes| => routes[i].name)
  }

  /** The routes of a ladder a call may run. */
  function EligibleRoutes(ladder: seq<Route>, allowDegraded: bool): seq<Route> {
    if ladder == [] then []
    else (if Eligible(ladder[0], allowDegraded) then [ladder[0]] else [])
         + EligibleRoutes(ladder[1..], allowDegraded)
  }

  /** The climb `c` failed on exactly the first `m` eligible routes, each of them
      known dead or failing now, and won on the next one or had none left. */
  ghost predicate FailsUpTo(es: seq<Route>, dead: set<string>, world: World, c: Climbed, m: nat) {
    && m <= |es|
    && FailedNames(c.attempts) == Names(es[..m])
    && (c.end.Exhausted? <==> m == |es|)
    && (forall i :: 0 <= i < m ==> es[i].name in dead || world(es[i].name) in {Nothing, Raises})
    && (c.end.Won? ==>
          m < |es| && c.end.winner == es[m] && es[m].name !in dead && world(es[m].name) == Yields(c.end.value))
  }

  lemma OneMoreLost(es: seq<Route>, dead: set<string>, world: World, c: Climbed, m: nat, r: Route, failed: seq<string>)
    requires FailsUpTo(es, dead, world, c, m) && (r.name in dead || world(r.name) in {Nothing, Raises})
    ensures FailsUpTo([r] + es, dead, world, c.Prefixed([Attempt(r.rung, r.name, false)], failed), m + 1)
  {
    var lost := [Attempt(r.rung, r.name, false)];
    assert (lost + c.attempts)[1..] == c.attempts;
    assert Names(([r] + es)[..m + 1]) == [r.name] + Names(es[..m]);
    forall i | 0 <= i < m + 1
      ensures ([r] + es)[i].name in dead || world(([r] + es)[i].name) in {Nothing, Raises}
    {
      if i > 0 { assert ([r] + es)[i] == es[i - 1]; }
    }
  }

  /** What a climb that was not refused leaves behind: the failed routes are exactly
      the eligible routes up to the winner. */
  lemma {:induction false} ClimbFailsAPrefix(ladder: seq<Route>, dead: set<string>, allowDegraded: bool, world: World)
    returns (m: nat)
    requires forall r :: r in ladder && r.name in dead ==> Eligible(r, allowDegraded)
    requires !Climb(ladder, dead, allowDegraded, world).end.Refused?
    ensures FailsUpTo(EligibleRoutes(ladder, allowDegraded), dead, world,
                      Climb(ladder, dead, allowDegraded, world), m)
  {
    if ladder == [] {
      m := 0;
    } else {
      var r, rest := ladder[0], ladder[1..];
      assert r in ladder && forall x :: x in rest ==> x in ladder;
      var below := EligibleRoutes(rest, allowDegraded);
      var inner := Climb(rest, dead, allowDegraded, world);
      if r.name in dead || (Eligible(r, allowDegraded) && !world(r.name).Yields?) {
        m := ClimbFailsAPrefix(rest, dead, allowDegraded, world);
        OneMoreLost(below, dead, world, inner, m, r, if r.name in dead then [] else [r.name]);
        m := m + 1;
      } else if !Eligible(r, allowDegraded) {
        m := ClimbFailsAPrefix(rest, dead, allowDegraded, world);
        assert [] + below == below;
      } else {
        m := 0;
        WonAtOnce([r] + below, dead, world, r);
      }
    }
  }

  lemma WonAtOnce(es: seq<Route>, dead: set<string>, world: World, r: Route)
    requires es != [] && es[0] == r && r.name !in dead && world(r.name).Yields?
    ensures FailsUpTo(es, dead, world, Climbed([Attempt(r.rung, r.name, true)], [], Won(r, world(r.name).value)), 0)
  {
    assert [Attempt(r.rung, r.name, true)][1..] == [];
  }

  /** Only eligible, live routes that failed in this world are run and fail, each once. */
  lemma {:induction false} ClimbFailures(ladder: seq<Route>, dead: set<string>, allowDegraded: bool, world: World)
    requires DistinctNames(ladder)
    ensures var c := Climb(ladder, dead, allowDegraded, world);
            && Distinct(c.failures)
            && (forall n :: n in c.failures ==> n !in dead && world(n) in {Nothing, Raises} && n in Names(ladder))
            && (!c.end.Refused? ==> forall n :: n in c.failures ==> n in FailedNames(c.attempts))
  {
    if ladder != [] {
      var r, rest := ladder[0], ladder[1..];
      ClimbFailures(rest, dead, allowDegraded, world);
      var c, inner := Climb(ladder, dead, allowDegraded, world), Climb(rest, dead, allowDegraded, world);
      forall n | n in Names(rest)
        ensures n in Names(ladder) && n != r.name
      {
        var i :| 0 <= i < |rest| && Names(rest)[i] == n;
        assert Names(ladder)[i + 1] == n;
      }
      assert Names(ladder)[0] == r.name;
      if !Forbidden(r) && (r.name in dead || (Eligible(r, allowDegraded) && world(r.name) in {Nothing, Raises})) {
        assert c.attempts[1..] == inner.attempts;
      }
    }
  }

  /** Nothing at or after a forbidden route is ever run: the climb wins before it or
      is refused. */
  lemma {:induction false} ForbiddenStopsTheClimb(ladder: seq<Route>, dead: set<string>, allowDegraded: bool, world: World, i: nat)
    requires i < |ladder| && Forbidden(ladder[i])
    ensures var c := Climb(ladder, dead, allowDegraded, world);
            && !c.end.Exhausted?
            && (c.end.Won? ==> !Forbidden(c.end.winner) && c.end.winner in ladder[..i])
            && (forall n :: n in c.failures ==> n in Names(ladder[..i]))
  {
    var r, rest := ladder[0], ladder[1..];
    if i > 0 && !Forbidden(r) {
      ForbiddenStopsTheClimb(rest, dead, allowDegraded, world, i - 1);
      hide Forbidden;
      assert ladder[..i] == [r] + rest[..i - 1];
      assert Names(ladder[..i]) == [r.name] + Names(rest[..i - 1]);
    }
  }

  // ---------- one call, and the memory it leaves ----------

  function DeadRoutes(prior: Option<Record>): seq<string> {
    if prior.Some? then prior.value.failedRoutes else []
  }

  /** The climb one call makes, given what is remembered for its signature. */
  function Answer(routes: seq<Route>, allowDegraded: bool, prior: Option<Record>, world: World): Climbed {
    Climb(Ladder(Reordered(routes, prior)), ToSet(DeadRoutes(prior)), allowDegraded, world)
  }

  function RecallLog(routes: seq<Route>, prior: Option<Record>): seq<Attempt> {
    if Recalled(routes, prior).Some? then [Attempt(0, "recall", true)] else []
  }

  function ResolutionOf(log: seq<Attempt>, c: Climbed): Resolution
    requires !c.end.Refused?
  {
    if c.end.Won? then
      Resolution(true, Some(c.end.value), c.end.winner.fidelity, c.end.winner.rung, Some(c.end.winner.name),
                 log + c.attempts, false)
    else
      Resolution(false, None, 1.0, 7, None, log + c.attempts, true)
  }

  /** The entry for a signature after a call; a refused call records nothing. */
  function Remembered(routes: seq<Route>, allowDegraded: bool, prior: Option<Record>, world: World): Option<Record> {
    var c := Answer(routes, allowDegraded, prior, world);
    if c.end.Refused? then prior
    else
      var res := ResolutionOf(RecallLog(routes, prior), c);
      Some(Record(FailedNames(res.attempts), res.routeUsed, res.humanRequired))
  }

  lemma {:induction false} FailedNamesAppend(a: seq<Attempt>, b: seq<Attempt>)
    ensures FailedNames(a + b) == FailedNames(a) + FailedNames(b)
  {
    if a == [] {
      assert a + b == b;
    } else {
      var rest, head := a[1..], if a[0].succeeded then [] else [a[0].strategy];
      FailedNamesAppend(rest, b);
      assert (a + b)[0] == a[0] && (a + b)[1..] == rest + b;
      assert head + (FailedNames(rest) + FailedNames(b)) == (head + FailedNames(rest)) + FailedNames(b);
    }
  }

  /** The recall note is a success, so it never enters the list of failed routes. */
  lemma RecallIsNoFailure(routes: seq<Route>, prior: Option<Record>, attempts: seq<Attempt>)
    ensures FailedNames(RecallLog(routes, prior) + attempts) == FailedNames(attempts)
  {
    FailedNamesAppend(RecallLog(routes, prior), attempts);
    assert [Attempt(0, "recall", true)][1..] == [];
  }

  /** Runs the routes of a ladder in order until one yields, one refuses or none is left. */
  method TryRoutes(ladder: seq<Route>, dead: set<string>, allowDegraded: bool, world: World, log: seq<Attempt>)
    returns (attempts: seq<Attempt>, end: End)
    ensures end == Climb(ladder, dead, allowDegraded, world).end
    ensures !end.Refused? ==> attempts == log + Climb(ladder, dead, allowDegraded, world).attempts
  {
    attempts := log;
    ghost var whole := Climb(ladder, dead, allowDegraded, world);
    assert ladder[0..] == ladder;
    for i := 0 to |ladder|
      invariant whole.end == Climb(ladder[i..], dead, allowDegraded, world).end
      invariant log + whole.attempts == attempts + Climb(ladder[i..], dead, allowDegraded, world).attempts
    {
      var route := ladder[i];
      var lost := Attempt(route.rung, route.name, false);
      ghost var rest := Climb(ladder[i + 1..], dead, allowDegraded, world).attempts;
      assert ladder[i..] == [route] + ladder[i + 1..];
      assert attempts + ([lost] + rest) == (attempts + [lost]) + rest;
      if Forbidden(route) {
        return attempts, Refused(route.name);
      }
      if route.name in dead {
        attempts := attempts + [lost];
        continue;
      }
      if !allowDegraded && route.fidelity < 1.0 {
        continue;
      }
      match world(route.name) {
        case Refuses =>
          return attempts, Refused(route.name);
        case Yields(value) =>
          return attempts + [Attempt(route.rung, route.name, true)], Won(route, value);
        case _ =>
          attempts := attempts + [lost];
      }
    }
    assert ladder[|ladder|..] == [];
    return attempts, Exhausted;
  }

  // ---------- what a call answers, told without the climb ----------

  /** A route the climb leaves behind: known dead, not good enough, or tried in vain. */
  predicate GivesWay(r: Route, dead: seq<string>, allowDegraded: bool, world: World) {
    && !r.forbidden && r.name !in FORBIDDEN_RESOLUTIONS
    && (r.name in dead || (!allowDegraded && r.fidelity < 1.0) || world(r.name).Nothing? || world(r.name).Raises?)
  }

  /** `w` is the first route that does not give way, or there is none. */
  ghost predicate ComesTo(ladder: seq<Route>, dead: seq<string>, allowDegraded: bool, world: World, w: nat) {
    && w <= |ladder| && (forall i :: 0 <= i < w ==> GivesWay(ladder[i], dead, allowDegraded, world))
    && (w < |ladder| ==> !GivesWay(ladder[w], dead, allowDegraded, world))
  }

  /** The failures logged on the way: every route but those that were not good enough. */
  function Losses(passed: seq<Route>, dead: seq<string>, allowDegraded: bool): seq<Attempt> {
    if passed == [] then []
    else
      (if passed[0].name in dead || allowDegraded || passed[0].fidelity >= 1.0
       then [Attempt(passed[0].rung, passed[0].name, false)] else [])
      + Losses(passed[1..], dead, allowDegraded)
  }

  ghost predicate IsRecalled(routes: seq<Route>, prior: Option<Record>) {
    && prior.Some? && prior.value.decisionRoute.Some? && prior.value.decisionRoute.value != ""
    && exists r :: r in routes && r.name == prior.value.decisionRoute.value
  }

  /** What a call says, and what it makes the memory say, when its ladder comes to `w`. */
  ghost predicate Says(ladder: seq<Route>, w: nat, recalled: bool, dead: seq<string>, allowDegraded: bool, world: World,
                       prior: Option<Record>, r: Result<Resolution, SafetyRefusal>, after: Option<Record>)
    requires w <= |ladder|
  {
    var note := (if recalled then [Attempt(0, "recall", true)] else []) + Losses(ladder[..w], dead, allowDegraded);
    if w == |ladder| then
      && r.Ok? && !r.value.resolved && r.value.value == None && r.value.routeUsed == None && r.value.rungReached == 7
      && r.value.fidelity == 1.0 && r.value.humanRequired && r.value.attempts == note
      && after.Some? && after.value.humanRequired && after.value.decisionRoute == None
    else
      var at := ladder[w];
      match world(at.name)
      case Yields(value) =>
        if at.forbidden || at.name in FORBIDDEN_RESOLUTIONS then r == Err(SafetyRefusal(at.name)) && after == prior
        else
          && r == Ok(Resolution(true, Some(value), at.fidelity, at.rung, Some(at.name),
                                note + [Attempt(at.rung, at.name, true)], false))
          && after.Some? && !after.value.humanRequired && after.value.decisionRoute == Some(at.name)
      case _ => r == Err(SafetyRefusal(at.name)) && after == prior
  }

  /** The whole answer: the ladder holds the routes in order, the call comes to the first
      that does not give way, and the memory lists the names of the failures it logged. */
  ghost predicate AnswersRight(routes: seq<Route>, allowDegraded: bool, prior: Option<Record>, world: World,
                               r: Result<Resolution, SafetyRefusal>, after: Option<Record>) {
    var ladder, dead := Ladder(Reordered(routes, prior)), if prior.Some? then prior.value.failedRoutes else [];
    exists w: nat :: ComesTo(ladder, dead, allowDegraded, world, w)
      && Says(ladder, w, IsRecalled(routes, prior), dead, allowDegraded, world, prior, r, after)
      && (r.Ok? ==> after.Some? && IsNamesOf(after.value.failedRoutes, Losses(ladder[..w], dead, allowDegraded)))
  }

  ghost predicate IsNamesOf(names: seq<string>, attempts: seq<Attempt>) {
    |names| == |attempts| && forall i :: 0 <= i < |names| ==> names[i] == attempts[i].strategy
  }

  /** The climb logs the failures on the way to `w` and ends there. */
  ghost predicate ClimbsTo(ladder: seq<Route>, dead: seq<string>, allowDegraded: bool, world: World, w: nat)
    requires w <= |ladder|
  {
    var c, losses := Climb(ladder, ToSet(dead), allowDegraded, world), Losses(ladder[..w], dead, allowDegraded);
    if w == |ladder| then c.end == Exhausted && c.attempts == losses
    else if !Forbidden(ladder[w]) && world(ladder[w].name).Yields? then
      && c.end == Won(ladder[w], world(ladder[w].name).value)
      && c.attempts == losses + [Attempt(ladder[w].rung, ladder[w].name, true)]
    else c.end == Refused(ladder[w].name)
  }

  lemma {:induction false} ClimbComesTo(ladder: seq<Route>, dead: seq<string>, allowDegraded: bool, world: World) returns (w: nat)
    ensures ComesTo(ladder, dead, allowDegraded, world, w) && ClimbsTo(ladder, dead, allowDegraded, world, w)
  {
    hide ClimbsTo, FORBIDDEN_RESOLUTIONS;
    if ladder == [] {
      w := 0;
      ClimbsAtOnce(ladder, dead, allowDegraded, world);
    } else if GivesWay(ladder[0], dead, allowDegraded, world) {
      w := ClimbComesTo(ladder[1..], dead, allowDegraded, world);
      ClimbsOn(ladder, dead, allowDegraded, world, w);
      assert forall i :: 1 <= i < |ladder| ==> ladder[i] == ladder[1..][i - 1];
      w := w + 1;
    } else {
      w := 0;
      ClimbsAtOnce(ladder, dead, allowDegraded, world);
    }
  }

  lemma ClimbsAtOnce(ladder: seq<Route>, dead: seq<string>, allowDegraded: bool, world: World)
    requires ladder != [] ==> !GivesWay(ladder[0], dead, allowDegraded, world)
    ensures ClimbsTo(ladder, dead, allowDegraded, world, 0)
  {
    assert ladder[..0] == [];
    NoLosses(dead, allowDegraded);
    if ladder != [] {
      ClimbFirst(ladder, ToSet(dead), allowDegraded, world);
      hide Climb, Losses, FORBIDDEN_RESOLUTIONS;
      assert [] + [Attempt(ladder[0].rung, ladder[0].name, true)] == [Attempt(ladder[0].rung, ladder[0].name, true)];
    }
  }

  lemma ClimbsOn(ladder: seq<Route>, dead: seq<string>, allowDegraded: bool, world: World, w: nat)
    requires ladder != [] && w < |ladder| && GivesWay(ladder[0], dead, allowDegraded, world)
    requires ClimbsTo(ladder[1..], dead, allowDegraded, world, w)
    ensures ClimbsTo(ladder, dead, allowDegraded, world, w + 1)
  {
    hide Climb, Losses, FORBIDDEN_RESOLUTIONS;
    ClimbFirst(ladder, ToSet(dead), allowDegraded, world);
    LossesGrow(ladder, w + 1, dead, allowDegraded);
    var lost, losses := [Attempt(ladder[0].rung, ladder[0].name, false)], Losses(ladder[1..][..w], dead, allowDegraded);
    assert [] + losses == losses;
    if w + 1 < |ladder| {
      var won := [Attempt(ladder[w + 1].rung, ladder[w + 1].name, true)];
      assert lost + (losses + won) == lost + losses + won;
    }
  }

  lemma NoLosses(dead: seq<string>, allowDegraded: bool)
    ensures Losses([], dead, allowDegraded) == []
  {
  }

  lemma LossesGrow(ladder: seq<Route>, w: nat, dead: seq<string>, allowDegraded: bool)
    requires 1 <= w <= |ladder|
    ensures var r := ladder[0];
            Losses(ladder[..w], dead, allowDegraded) ==
            (if r.name in dead || allowDegraded || r.fidelity >= 1.0 then [Attempt(r.rung, r.name, false)] else [])
            + Losses(ladder[1..][..w - 1], dead, allowDegraded)
  {
    assert ladder[..w][1..] == ladder[1..][..w - 1];
  }

  lemma {:induction false} LossesAreFailures(passed: seq<Route>, dead: seq<string>, allowDegraded: bool)
    ensures IsNamesOf(FailedNames(Losses(passed, dead, allowDegraded)), Losses(passed, dead, allowDegraded))
    ensures forall won: Attempt :: won.succeeded ==>
              FailedNames(Losses(passed, dead, allowDegraded) + [won]) == FailedNames(Losses(passed, dead, allowDegraded))
  {
    var losses := Losses(passed, dead, allowDegraded);
    if passed != [] {
      var rest := Losses(passed[1..], dead, allowDegraded);
      LossesAreFailures(passed[1..], dead, allowDegraded);
      var lost := Attempt(passed[0].rung, passed[0].name, false);
      FailedNamesOfMore(lost, rest);
      assert [] + rest == rest;
    }
    hide Losses;
    forall won: Attempt | won.succeeded
      ensures FailedNames(losses + [won]) == FailedNames(losses)
    {
      FailedNamesAppend(losses, [won]);
      FailedNamesOfMore(won, []);
    }
  }

  lemma RecalledExactly(routes: seq<Route>, prior: Option<Record>)
    ensures Recalled(routes, prior).Some? <==> IsRecalled(routes, prior)
  {
    if prior.Some? && prior.value.decisionRoute.Some? {
      NamedIsIn(routes, prior.value.decisionRoute.value);
    }
  }

  /** What the climb comes to, as an answer and a memory. */
  function Told(c: Climbed, note: seq<Attempt>): Result<Resolution, SafetyRefusal> {
    if c.end.Refused? then Err(SafetyRefusal(c.end.at)) else Ok(ResolutionOf(note, c))
  }

  lemma ToldIsSaid(ladder: seq<Route>, w: nat, recalled: bool, dead: seq<string>, allowDegraded: bool, world: World,
                   prior: Option<Record>, failed: seq<string>)
    requires w <= |ladder| && ClimbsTo(ladder, dead, allowDegraded, world, w)
    requires w < |ladder| && !Forbidden(ladder[w]) ==> world(ladder[w].name).Yields? || world(ladder[w].name).Refuses?
    ensures var c, note := Climb(ladder, ToSet(dead), allowDegraded, world), if recalled then [Attempt(0, "recall", true)] else [];
            var after := if c.end.Refused? then prior
                         else Some(Record(failed, ResolutionOf(note, c).routeUsed, ResolutionOf(note, c).humanRequired));
            Says(ladder, w, recalled, dead, allowDegraded, world, prior, Told(c, note), after)
  {
    hide Losses, Climb, FORBIDDEN_RESOLUTIONS;
    var note, losses := if recalled then [Attempt(0, "recall", true)] else [], Losses(ladder[..w], dead, allowDegraded);
    if w < |ladder| {
      var won := [Attempt(ladder[w].rung, ladder[w].name, true)];
      assert note + (losses + won) == note + losses + won;
    }
  }

  /** The climb answers right. */
  lemma CallAnswersRight(routes: seq<Route>, allowDegraded: bool, prior: Option<Record>, world: World)
    ensures var c := Answer(routes, allowDegraded, prior, world);
            AnswersRight(routes, allowDegraded, prior, world, Told(c, RecallLog(routes, prior)),
                         Remembered(routes, allowDegraded, prior, world))
  {
    hide Climb, Ladder, Reordered, Losses, FailedNames, Recalled, IsRecalled, Forbidden, FORBIDDEN_RESOLUTIONS, Says, IsNamesOf;
    var ladder, dead := Ladder(Reordered(routes, prior)), DeadRoutes(prior);
    var w := ClimbComesTo(ladder, dead, allowDegraded, world);
    var c := Answer(routes, allowDegraded, prior, world);
    LossesAreFailures(ladder[..w], dead, allowDegraded);
    RecalledExactly(routes, prior);
    RecallIsNoFailure(routes, prior, c.attempts);
    NoWayLeft(ladder, dead, allowDegraded, world, w);
    ToldIsSaid(ladder, w, IsRecalled(routes, prior), dead, allowDegraded, world, prior, FailedNames(RecallLog(routes, prior) + c.attempts));
  }

  lemma NoWayLeft(ladder: seq<Route>, dead: seq<string>, allowDegraded: bool, world: World, w: nat)
    requires ComesTo(ladder, dead, allowDegraded, world, w)
    ensures w < |ladder| && !Forbidden(ladder[w]) ==> world(ladder[w].name).Yields? || world(ladder[w].name).Refuses?
  {
    hide FORBIDDEN_RESOLUTIONS;
  }

  class Resolver {
    var memory: map<string, Record>

    constructor (memory: map<string, Record>)
      ensures this.memory == memory
    {
      this.memory := memory;
    }

    ghost function Prior(signature: string): Option<Record>
      reads this
    {
      if signature in memory then Some(memory[signature]) else None
    }

    /** Climbs the ladder for one blocked operation and records how it went. */
    method Resolve(signature: string, routes: seq<Route>, allowDegraded: bool, world: World)
      returns (r: Result<Resolution, SafetyRefusal>)
      modifies this
      ensures var prior := old(Prior(signature));
              var c := Answer(routes, allowDegraded, prior, world);
              if c.end.Refused? then
                r == Err(SafetyRefusal(c.end.at)) && memory == old(memory)
              else
                && r == Ok(ResolutionOf(RecallLog(routes, prior), c))
                && memory == old(memory)[signature := Remembered(routes, allowDegraded, prior, world).value]
      ensures AnswersRight(routes, allowDegraded, old(Prior(signature)), world, r, Prior(signature))
      ensures forall other :: other != signature ==> Prior(other) == old(Prior(other))
    {
      CallAnswersRight(routes, allowDegraded, Prior(signature), world);
      hide AnswersRight;
      var prior := if signature in memory then Some(memory[signature]) else None;
      var attempts, end := TryRoutes(Ladder(Reordered(routes, prior)), ToSet(DeadRoutes(prior)),
                                     allowDegraded, world, RecallLog(routes, prior));
      match end {
        case Refused(at) =>
          return Err(SafetyRefusal(at));
        case Won(route, value) =>
          var resolution := Resolution(true, Some(value), route.fidelity, route.rung, Some(route.name), attempts, false);
          NoteResolution(signature, resolution);
          return Ok(resolution);
        case Exhausted =>
          var resolution := Resolution(false, None, 1.0, 7, None, attempts, true);
          NoteResolution(signature, resolution);
          return Ok(resolution);
      }
    }

    method NoteResolution(signature: string, resolution: Resolution)
      modifies this
      ensures memory == old(memory)[signature := Record(FailedNames(resolution.attempts), resolution.routeUsed, resolution.humanRequired)]
    {
      memory := memory[signature := Record(FailedNames(resolution.attempts), resolution.routeUsed, resolution.humanRequired)];
    }
  }

  // ---------- any sequence of calls for one problem ----------

  function LadderOf(routes: seq<Route>, allowDegraded: bool): seq<Route> {
    EligibleRoutes(Ladder(routes), allowDegraded)
  }

  /** The known-dead routes are a prefix of the ladder's eligible routes. */
  ghost predicate DeadIsPrefix(routes: seq<Route>, allowDegraded: bool, prior: Option<Record>) {
    DeadRoutes(prior) <= Names(LadderOf(routes, allowDegraded))
  }

  ghost predicate GoodLadder(routes: seq<Route>) {
    DistinctKeys(routes) && DistinctNames(routes)
  }

  lemma {:induction false} EligibleOnly(ladder: seq<Route>, allowDegraded: bool)
    ensures forall r :: r in EligibleRoutes(ladder, allowDegraded) <==> r in ladder && Eligible(r, allowDegraded)
  {
    if ladder != [] {
      EligibleOnly(ladder[1..], allowDegraded);
      assert ladder == [ladder[0]] + ladder[1..];
    }
  }

  lemma SamePermutationNames(a: seq<Route>, b: seq<Route>)
    requires multiset(a) == multiset(b) && DistinctNames(b)
    ensures DistinctNames(a)
    ensures forall r :: r in a <==> r in b
  {
    forall r
      ensures r in a <==> r in b
    {
      assert r in a <==> r in multiset(a);
      assert r in b <==> r in multiset(b);
    }
    forall i, j | 0 <= i < j < |a|
      ensures a[i].name != a[j].name
    {
      if a[i].name == a[j].name {
        assert a[i] in b && a[j] in b;
        var x :| 0 <= x < |b| && b[x] == a[i];
        var y :| 0 <= y < |b| && b[y] == a[j];
        TwiceInMultiset(a, i, j);
        OnceInMultiset(b, x);
      }
    }
  }

  lemma TwiceInMultiset(a: seq<Route>, i: nat, j: nat)
    requires i < j < |a| && a[i] == a[j]
    ensures multiset(a)[a[i]] >= 2
  {
    assert a == a[..i] + [a[i]] + a[i + 1..j] + [a[j]] + a[j + 1..];
  }

  lemma OnceInMultiset(b: seq<Route>, x: nat)
    requires x < |b| && DistinctNames(b)
    ensures multiset(b)[b[x]] == 1
  {
    assert b == b[..x] + [b[x]] + b[x + 1..];
    assert b[x] !in b[..x] && b[x] !in b[x + 1..];
  }

  /** One recorded call extends the dead prefix, up to the first live route that yields. */
  lemma CallExtendsPrefix(routes: seq<Route>, allowDegraded: bool, prior: Option<Record>, world: World)
    requires GoodLadder(routes) && DeadIsPrefix(routes, allowDegraded, prior)
    ensures var after := Remembered(routes, allowDegraded, prior, world);
            var c := Answer(routes, allowDegraded, prior, world);
            var ladder := LadderOf(routes, allowDegraded);
            var m := |DeadRoutes(after)|;
            && DeadIsPrefix(routes, allowDegraded, after)
            && DeadRoutes(prior) <= DeadRoutes(after)
            && (c.end.Refused? ==> after == prior)
            && (c.end.Exhausted? ==> m == |ladder|)
            && (c.end.Won? ==> m < |ladder| && c.end.winner == ladder[m] && world(ladder[m].name) == Yields(c.end.value))
            && (!c.end.Refused? ==>
                  forall i :: |DeadRoutes(prior)| <= i < m ==> world(ladder[i].name) in {Nothing, Raises})
  {
    var c := Answer(routes, allowDegraded, prior, world);
    if !c.end.Refused? {
      LadderIgnoresRecall(routes, prior);
      LadderIsSorted(routes);
      SamePermutationNames(Ladder(routes), routes);
      var es := LadderOf(routes, allowDegraded);
      var dead := ToSet(DeadRoutes(prior));
      DeadAreEligible(Ladder(routes), DeadRoutes(prior), allowDegraded);
      var m := ClimbFailsAPrefix(Ladder(routes), dead, allowDegraded, world);
      RecallIsNoFailure(routes, prior, c.attempts);
      DistinctEligible(Ladder(routes), allowDegraded);
      hide Ladder, EligibleRoutes, Climb, FailedNames, DistinctKeys, DistinctNames, RecallLog;
      DeadPrefixGrows(es, DeadRoutes(prior), world, c, m);
    }
  }

  lemma DeadAreEligible(ladder: seq<Route>, dead: seq<string>, allowDegraded: bool)
    requires DistinctNames(ladder) && dead <= Names(EligibleRoutes(ladder, allowDegraded))
    ensures forall r :: r in ladder && r.name in ToSet(dead) ==> Eligible(r, allowDegraded)
  {
    EligibleOnly(ladder, allowDegraded);
    var es := EligibleRoutes(ladder, allowDegraded);
    hide EligibleRoutes;
    forall r | r in ladder && r.name in ToSet(dead)
      ensures Eligible(r, allowDegraded)
    {
      var i :| 0 <= i < |dead| && dead[i] == r.name;
      assert Names(es)[i] == r.name && es[i] in es;
      SameNameSameRoute(ladder, r, es[i]);
    }
  }

  lemma DeadPrefixGrows(es: seq<Route>, prior: seq<string>, world: World, c: Climbed, m: nat)
    requires DistinctNames(es) && prior <= Names(es) && FailsUpTo(es, ToSet(prior), world, c, m) && !c.end.Refused?
    ensures |FailedNames(c.attempts)| == m && prior <= FailedNames(c.attempts) <= Names(es)
    ensures forall i :: |prior| <= i < m ==> world(es[i].name) in {Nothing, Raises}
  {
    hide FailedNames;
    assert Names(es[..m]) == Names(es)[..m];
    forall i | 0 <= i < |prior|
      ensures es[i].name in ToSet(prior)
    {
      assert prior[i] == Names(es)[i];
    }
    forall i | |prior| <= i < m
      ensures es[i].name !in ToSet(prior)
    {
      forall j | 0 <= j < |prior|
        ensures prior[j] != es[i].name
      {
        assert prior[j] == Names(es)[j] == es[j].name;
      }
    }
  }

  lemma SameNameSameRoute(routes: seq<Route>, a: Route, b: Route)
    requires DistinctNames(routes) && a in routes && b in routes && a.name == b.name
    ensures a == b
  {
    var i :| 0 <= i < |routes| && routes[i] == a;
    var j :| 0 <= j < |routes| && routes[j] == b;
  }

  lemma {:induction false} DistinctEligible(ladder: seq<Route>, allowDegraded: bool)
    requires DistinctNames(ladder)
    ensures DistinctNames(EligibleRoutes(ladder, allowDegraded))
  {
    if ladder != [] {
      var rest := ladder[1..];
      assert forall i :: 0 <= i < |rest| ==> rest[i] == ladder[i + 1];
      DistinctEligible(rest, allowDegraded);
      EligibleOnly(rest, allowDegraded);
      forall r | r in EligibleRoutes(rest, allowDegraded)
        ensures r.name != ladder[0].name
      {
        var i :| 0 <= i < |rest| && rest[i] == r;
      }
    }
  }

  /** In how many of the calls the named route was run and failed. */
  function FailingRuns(routes: seq<Route>, allowDegraded: bool, prior: Option<Record>, worlds: seq<World>, name: string): nat
    decreases |worlds|
  {
    if worlds == [] then 0
    else (if name in Answer(routes, allowDegraded, prior, worlds[0]).failures then 1 else 0)
         + FailingRuns(routes, allowDegraded, Remembered(routes, allowDegraded, prior, worlds[0]), worlds[1..], name)
  }

  /** How many of the calls ended in a safety refusal. */
  function RefusedCalls(routes: seq<Route>, allowDegraded: bool, prior: Option<Record>, worlds: seq<World>): nat
    decreases |worlds|
  {
    if worlds == [] then 0
    else (if Answer(routes, allowDegraded, prior, worlds[0]).end.Refused? then 1 else 0)
         + RefusedCalls(routes, allowDegraded, Remembered(routes, allowDegraded, prior, worlds[0]), worlds[1..])
  }

  /** Over any sequence of calls a route fails at most once, plus once for each call
      that a safety refusal kept from being recorded; a route known dead never runs. */
  lemma {:induction false} AtMostOneFailingRun(routes: seq<Route>, allowDegraded: bool, prior: Option<Record>, worlds: seq<World>, name: string)
    requires GoodLadder(routes) && DeadIsPrefix(routes, allowDegraded, prior)
    ensures name in DeadRoutes(prior) ==> FailingRuns(routes, allowDegraded, prior, worlds, name) == 0
    ensures FailingRuns(routes, allowDegraded, prior, worlds, name)
            <= 1 + RefusedCalls(routes, allowDegraded, prior, worlds)
    decreases |worlds|
  {
    if worlds != [] {
      var after := Remembered(routes, allowDegraded, prior, worlds[0]);
      var c := Answer(routes, allowDegraded, prior, worlds[0]);
      CallExtendsPrefix(routes, allowDegraded, prior, worlds[0]);
      FailuresAreRecorded(routes, allowDegraded, prior, worlds[0]);
      hide Answer, Remembered, DeadIsPrefix, GoodLadder;
      AtMostOneFailingRun(routes, allowDegraded, after, worlds[1..], name);
    }
  }

  /** A call runs no route already known dead, and unless it is refused it records
      every route it ran without success. */
  lemma FailuresAreRecorded(routes: seq<Route>, allowDegraded: bool, prior: Option<Record>, world: World)
    requires GoodLadder(routes)
    ensures var c := Answer(routes, allowDegraded, prior, world);
            forall n :: n in c.failures ==>
              && n !in DeadRoutes(prior)
              && (!c.end.Refused? ==> n in DeadRoutes(Remembered(routes, allowDegraded, prior, world)))
  {
    LadderIgnoresRecall(routes, prior);
    LadderIsSorted(routes);
    SamePermutationNames(Ladder(routes), routes);
    ClimbFailures(Ladder(routes), ToSet(DeadRoutes(prior)), allowDegraded, world);
    RecallIsNoFailure(routes, prior, Answer(routes, allowDegraded, prior, world).attempts);
    hide DistinctNames, DistinctKeys, Ladder, Climb, FailedNames, Reordered;
  }

  lemma OneCallThenMore(routes: seq<Route>, allowDegraded: bool, prior: Option<Record>, world: World, more: seq<World>, name: string)
    ensures FailingRuns(routes, allowDegraded, prior, [world] + more, name) ==
            (if name in Answer(routes, allowDegraded, prior, world).failures then 1 else 0)
            + FailingRuns(routes, allowDegraded, Remembered(routes, allowDegraded, prior, world), more, name)
    ensures RefusedCalls(routes, allowDegraded, prior, [world] + more) ==
            (if Answer(routes, allowDegraded, prior, world).end.Refused? then 1 else 0)
            + RefusedCalls(routes, allowDegraded, Remembered(routes, allowDegraded, prior, world), more)
  {
    hide Answer, Remembered;
    assert ([world] + more)[1..] == more;
  }

  // ---------- refusals make a ladder forget ----------

  /** A climb that comes to `r` may end in a refusal there. */
  predicate MayStop(r: Route, allowDegraded: bool, mayRefuse: set<string>) {
    Forbidden(r) || (Eligible(r, allowDegraded) && r.name in mayRefuse)
  }

  /** Some climb runs the route at `i`: it is eligible and nothing up to it is forbidden. */
  ghost predicate CanRun(ladder: seq<Route>, allowDegraded: bool, i: nat) {
    && i < |ladder| && Eligible(ladder[i], allowDegraded)
    && forall m :: 0 <= m <= i ==> !Forbidden(ladder[m])
  }

  /** No forbidden or refusing route stands behind one that can be run. */
  ghost predicate NoStopBehind(ladder: seq<Route>, allowDegraded: bool, mayRefuse: set<string>) {
    forall i: nat, j: nat :: i < j < |ladder| && CanRun(ladder, allowDegraded, i) ==> !MayStop(ladder[j], allowDegraded, mayRefuse)
  }

  /** In none of the calls does a route outside the set refuse. */
  ghost predicate OnlyTheseRefuse(worlds: seq<World>, mayRefuse: set<string>) {
    forall w, name :: w in worlds && w(name).Refuses? ==> name in mayRefuse
  }

  lemma {:induction false} NothingStops(ladder: seq<Route>, dead: set<string>, allowDegraded: bool, mayRefuse: set<string>, world: World)
    requires forall r :: r in ladder ==> !MayStop(r, allowDegraded, mayRefuse)
    requires OnlyTheseRefuse([world], mayRefuse)
    ensures !Climb(ladder, dead, allowDegraded, world).end.Refused?
  {
    if ladder != [] {
      assert ladder == [ladder[0]] + ladder[1..] && !MayStop(ladder[0], allowDegraded, mayRefuse) && world in [world];
      NothingStops(ladder[1..], dead, allowDegraded, mayRefuse, world);
    }
  }

  lemma TailHasNoStopBehind(ladder: seq<Route>, allowDegraded: bool, mayRefuse: set<string>)
    requires ladder != [] && NoStopBehind(ladder, allowDegraded, mayRefuse) && !Forbidden(ladder[0])
    ensures NoStopBehind(ladder[1..], allowDegraded, mayRefuse)
    ensures Eligible(ladder[0], allowDegraded) ==> forall r :: r in ladder[1..] ==> !MayStop(r, allowDegraded, mayRefuse)
  {
    hide Forbidden, Eligible;
    var rest := ladder[1..];
    forall i: nat, j: nat | i < j < |rest| && CanRun(rest, allowDegraded, i)
      ensures !MayStop(rest[j], allowDegraded, mayRefuse)
    {
      assert forall m :: 1 <= m <= i + 1 ==> ladder[m] == rest[m - 1];
      assert CanRun(ladder, allowDegraded, i + 1) && ladder[j + 1] == rest[j];
    }
    if Eligible(ladder[0], allowDegraded) {
      assert CanRun(ladder, allowDegraded, 0);
      forall j: nat | j < |rest|
        ensures !MayStop(rest[j], allowDegraded, mayRefuse)
      {
        assert ladder[j + 1] == rest[j];
      }
    }
  }

  /** When nothing can stop the climb behind a route that runs, a refused call has run nothing. */
  lemma {:induction false} RefusedBeforeRunning(ladder: seq<Route>, dead: set<string>, allowDegraded: bool, mayRefuse: set<string>,
                                                world: World)
    requires NoStopBehind(ladder, allowDegraded, mayRefuse) && OnlyTheseRefuse([world], mayRefuse)
    ensures var c := Climb(ladder, dead, allowDegraded, world); c.end.Refused? ==> c.failures == []
  {
    if ladder != [] && !Forbidden(ladder[0]) {
      var r, rest := ladder[0], ladder[1..];
      TailHasNoStopBehind(ladder, allowDegraded, mayRefuse);
      hide Forbidden, NoStopBehind, OnlyTheseRefuse, MayStop;
      RefusedBeforeRunning(rest, dead, allowDegraded, mayRefuse, world);
      if r.name !in dead && Eligible(r, allowDegraded) {
        NothingStops(rest, dead, allowDegraded, mayRefuse, world);
      }
    }
  }

  lemma {:induction false} FailsOnceAtMost(routes: seq<Route>, allowDegraded: bool, mayRefuse: set<string>, prior: Option<Record>,
                                           worlds: seq<World>, name: string)
    requires GoodLadder(routes) && DeadIsPrefix(routes, allowDegraded, prior)
    requires NoStopBehind(Ladder(routes), allowDegraded, mayRefuse) && OnlyTheseRefuse(worlds, mayRefuse)
    ensures FailingRuns(routes, allowDegraded, prior, worlds, name) <= if name in DeadRoutes(prior) then 0 else 1
    decreases |worlds|
  {
    if worlds != [] {
      var world, after := worlds[0], Remembered(routes, allowDegraded, prior, worlds[0]);
      assert OnlyTheseRefuse([world], mayRefuse);
      CallExtendsPrefix(routes, allowDegraded, prior, world);
      FailuresAreRecorded(routes, allowDegraded, prior, world);
      LadderIgnoresRecall(routes, prior);
      RefusedBeforeRunning(Ladder(routes), ToSet(DeadRoutes(prior)), allowDegraded, mayRefuse, world);
      assert Answer(routes, allowDegraded, prior, world).end.Refused? ==> Answer(routes, allowDegraded, prior, world).failures == [];
      hide Answer, Remembered, DeadIsPrefix, GoodLadder, NoStopBehind;
      FailsOnceAtMost(routes, allowDegraded, mayRefuse, after, worlds[1..], name);
    }
  }

  /** A world in which every route comes to nothing, but for one that may refuse. */
  function Silent(refusing: Option<string>): World {
    n => if refusing == Some(n) then Refuses else Nothing
  }

  lemma {:induction false} ClimbIsStopped(ladder: seq<Route>, allowDegraded: bool, refusing: Option<string>, j: nat)
    requires j < |ladder|
    requires Forbidden(ladder[j]) || (Eligible(ladder[j], allowDegraded) && refusing == Some(ladder[j].name))
    ensures Climb(ladder, {}, allowDegraded, Silent(refusing)).end.Refused?
  {
    if j > 0 {
      ClimbIsStopped(ladder[1..], allowDegraded, refusing, j - 1);
    }
  }

  /** A route that runs before the climb is stopped has failed and is not recorded. */
  lemma {:induction false} FailsBeforeTheStop(ladder: seq<Route>, allowDegraded: bool, refusing: Option<string>, i: nat, j: nat)
    requires i < j < |ladder| && CanRun(ladder, allowDegraded, i)
    requires Forbidden(ladder[j]) || (Eligible(ladder[j], allowDegraded) && refusing == Some(ladder[j].name))
    requires forall m :: 0 <= m <= i ==> refusing != Some(ladder[m].name)
    ensures var c := Climb(ladder, {}, allowDegraded, Silent(refusing)); c.end.Refused? && ladder[i].name in c.failures
  {
    var rest := ladder[1..];
    assert !Forbidden(ladder[0]);
    if i > 0 {
      assert forall m :: 0 <= m < |rest| ==> rest[m] == ladder[m + 1];
      assert CanRun(rest, allowDegraded, i - 1);
      FailsBeforeTheStop(rest, allowDegraded, refusing, i - 1, j - 1);
    } else {
      ClimbIsStopped(rest, allowDegraded, refusing, j - 1);
    }
    hide Forbidden;
  }

  function Again(world: World, n: nat, last: seq<World>): seq<World> {
    if n == 0 then last else [world] + Again(world, n - 1, last)
  }

  /** A refused call leaves no trace, so it can be repeated: each time the same routes fail. */
  lemma {:induction false} RefusedAgain(routes: seq<Route>, allowDegraded: bool, world: World, n: nat, rest: seq<World>, name: string)
    requires var c := Answer(routes, allowDegraded, None, world); c.end.Refused? && name in c.failures
    ensures FailingRuns(routes, allowDegraded, None, Again(world, n, rest), name) == n + FailingRuns(routes, allowDegraded, None, rest, name)
    ensures RefusedCalls(routes, allowDegraded, None, Again(world, n, rest)) == n + RefusedCalls(routes, allowDegraded, None, rest)
  {
    if n > 0 {
      RefusedAgain(routes, allowDegraded, world, n - 1, rest, name);
      OneCallThenMore(routes, allowDegraded, None, world, Again(world, n - 1, rest), name);
      assert Remembered(routes, allowDegraded, None, world) == None;
      hide Answer, FailingRuns, RefusedCalls;
    }
  }

  /** What a route that may stop the climb behind one that runs makes possible: any
      number of calls in a row in which that one is run and fails. */
  lemma StoppedCallsRepeat(routes: seq<Route>, allowDegraded: bool, mayRefuse: set<string>, i: nat, j: nat, n: nat)
    returns (worlds: seq<World>)
    requires DistinctNames(routes) && i < j < |Ladder(routes)| && CanRun(Ladder(routes), allowDegraded, i)
    requires MayStop(Ladder(routes)[j], allowDegraded, mayRefuse)
    ensures OnlyTheseRefuse(worlds, mayRefuse)
    ensures FailingRuns(routes, allowDegraded, None, worlds, Ladder(routes)[i].name) == n
            == RefusedCalls(routes, allowDegraded, None, worlds)
  {
    var ladder := Ladder(routes);
    LadderIsSorted(routes);
    SamePermutationNames(ladder, routes);
    hide Ladder, Climb, Forbidden, CanRun, FailingRuns, RefusedCalls, DistinctKeys, Sorted;
    var refusing := if Forbidden(ladder[j]) then None else Some(ladder[j].name);
    FailsBeforeTheStop(ladder, allowDegraded, refusing, i, j);
    assert ToSet(DeadRoutes(None)) == {};
    RefusedAgain(routes, allowDegraded, Silent(refusing), n, [], ladder[i].name);
    worlds := Again(Silent(refusing), n, []);
    AgainHolds(Silent(refusing), n, []);
  }

  lemma {:induction false} AgainHolds(world: World, n: nat, rest: seq<World>)
    ensures forall w :: w in Again(world, n, rest) ==> w == world || w in rest
  {
    if n > 0 { AgainHolds(world, n - 1, rest); }
  }

  /** The promise itself, exactly: on a good ladder no route ever fails twice if and only
      if no forbidden route, and none that may refuse, stands behind a route that can run. */
  lemma NoRouteFailsTwiceExactly(routes: seq<Route>, allowDegraded: bool, mayRefuse: set<string>)
    requires GoodLadder(routes)
    ensures NoStopBehind(Ladder(routes), allowDegraded, mayRefuse) <==>
            forall worlds, name :: OnlyTheseRefuse(worlds, mayRefuse) ==>
              FailingRuns(routes, allowDegraded, None, worlds, name) <= 1
  {
    var ladder := Ladder(routes);
    if NoStopBehind(ladder, allowDegraded, mayRefuse) {
      forall worlds, name | OnlyTheseRefuse(worlds, mayRefuse)
        ensures FailingRuns(routes, allowDegraded, None, worlds, name) <= 1
      {
        FailsOnceAtMost(routes, allowDegraded, mayRefuse, None, worlds, name);
      }
    } else {
      var i: nat, j: nat :| i < j < |ladder| && CanRun(ladder, allowDegraded, i) && MayStop(ladder[j], allowDegraded, mayRefuse);
      var worlds := StoppedCallsRepeat(routes, allowDegraded, mayRefuse, i, j, 2);
      assert FailingRuns(routes, allowDegraded, None, worlds, ladder[i].name) == 2;
    }
  }

  /** The bound on failing runs is reached: n refused calls and one more make n + 1. */
  lemma RefusalsAreForgotten(first: Route, second: Route, n: nat)
    requires Before(first, second) && first.name != second.name && !Forbidden(first) && !Forbidden(second)
    ensures exists worlds ::
              && FailingRuns([first, second], true, None, worlds, first.name) == n + 1
              && RefusedCalls([first, second], true, None, worlds) == n
  {
    var routes, refuses, silent := [first, second], Silent(Some(second.name)), Silent(None);
    TwoSilentRoutes(first, second, second.name);
    hide Answer, Forbidden, Silent;
    RefusedAgain(routes, true, refuses, n, [silent], first.name);
    OneCallThenMore(routes, true, None, silent, [], first.name);
    assert [silent] + [] == [silent];
    var worlds := Again(refuses, n, [silent]);
    assert FailingRuns(routes, true, None, worlds, first.name) == n + 1;
  }

  lemma TwoSilentRoutes(first: Route, second: Route, refusing: string)
    requires Before(first, second) && first.name != second.name == refusing && !Forbidden(first) && !Forbidden(second)
    ensures var c := Answer([first, second], true, None, Silent(Some(refusing))); c.end.Refused? && first.name in c.failures
    ensures var c := Answer([first, second], true, None, Silent(None)); !c.end.Refused? && first.name in c.failures
  {
    hide Forbidden;
    var routes := [first, second];
    assert routes[1..] == [second] && [second][1..] == [];
    assert Ladder([second]) == [second] && Ladder(routes) == routes;
    assert ToSet(DeadRoutes(None)) == {};
    assert Climb([second], {}, true, Silent(None)).end == Exhausted;
    assert Climb([second], {}, true, Silent(Some(refusing))).end.Refused?;
  }

  // ---------- ties between keys break the memory ----------

  ghost predicate Precedes(s: seq<Route>, a: Route, b: Route) {
    exists p, q :: 0 <= p < q < |s| && s[p] == a && s[q] == b
  }

  lemma HeadPrecedes(a: Route, s: seq<Route>, b: Route)
    requires b in s
    ensures Precedes([a] + s, a, b)
  {
    var j :| 0 <= j < |s| && s[j] == b;
    assert ([a] + s)[0] == a && ([a] + s)[j + 1] == b;
  }

  lemma PrependKeepsOrder(x: Route, s: seq<Route>, a: Route, b: Route)
    requires Precedes(s, a, b)
    ensures Precedes([x] + s, a, b)
  {
    var i, j :| 0 <= i < j < |s| && s[i] == a && s[j] == b;
    assert ([x] + s)[i + 1] == a && ([x] + s)[j + 1] == b;
  }

  lemma {:induction false} InsertBeforeTied(a: Route, b: Route, s: seq<Route>)
    requires b in s && !Before(b, a)
    requires Sorted(s)
    ensures Precedes(Insert(a, s), a, b)
  {
    if Before(s[0], a) {
      var q :| 0 <= q < |s| && s[q] == b;
      assert s[1..][q - 1] == b;
      InsertBeforeTied(a, b, s[1..]);
      PrependKeepsOrder(s[0], Insert(a, s[1..]), a, b);
    } else {
      HeadPrecedes(a, s, b);
    }
  }

  lemma {:induction false} InsertKeepsOrder(r: Route, s: seq<Route>, a: Route, b: Route)
    requires Precedes(s, a, b)
    ensures Precedes(Insert(r, s), a, b)
  {
    var p, q :| 0 <= p < q < |s| && s[p] == a && s[q] == b;
    var tail := s[1..];
    assert tail[q - 1] == b;
    if !Before(s[0], r) {
      PrependKeepsOrder(r, s, a, b);
    } else if p == 0 {
      StillInserted(r, tail, b);
      HeadPrecedes(a, Insert(r, tail), b);
    } else {
      assert tail[p - 1] == a;
      InsertKeepsOrder(r, tail, a, b);
      PrependKeepsOrder(s[0], Insert(r, tail), a, b);
    }
  }

  lemma StillInserted(r: Route, s: seq<Route>, b: Route)
    requires b in s
    ensures b in Insert(r, s)
  {
    InsertKeeps(r, s);
    assert b in multiset(Insert(r, s));
  }

  /** The sort is stable: of two tied routes the one listed first is tried first. */
  lemma {:induction false} TiesKeepListOrder(routes: seq<Route>, i: nat, j: nat)
    requires i < j < |routes| && !Before(routes[j], routes[i])
    ensures Precedes(Ladder(routes), routes[i], routes[j])
  {
    var tail := routes[1..];
    LadderIsSorted(tail);
    if i == 0 {
      assert tail[j - 1] == routes[j];
      assert routes[j] in multiset(tail);
      InsertBeforeTied(routes[0], routes[j], Ladder(tail));
    } else {
      TiesKeepListOrder(tail, i - 1, j - 1);
      InsertKeepsOrder(routes[0], Ladder(tail), routes[i], routes[j]);
    }
  }

  ghost predicate NoneForbidden(s: seq<Route>) {
    forall r :: r in s ==> !Forbidden(r)
  }

  /** In a world where only `winner` yields, a climb logs and remembers exactly the
      routes before it; where nothing yields, it tries everything not yet dead. */
  lemma {:induction false} ClimbToWinner(ladder: seq<Route>, dead: set<string>, winner: Route, w: nat)
    requires w < |ladder| && ladder[w] == winner && winner.name !in dead
    requires DistinctNames(ladder) && NoneForbidden(ladder)
    ensures var c := Climb(ladder, dead, true, OnlyYields(winner.name));
            && c.end == Won(winner, "")
            && FailedNames(c.attempts) == Names(ladder[..w])
            && (forall n :: n in c.failures <==> n in Names(ladder[..w]) && n !in dead)
  {
    var rest := ladder[1..];
    assert ladder[0] in ladder;
    ClimbPast(ladder, dead, winner.name);
    if w > 0 {
      assert ladder[0].name != ladder[w].name;
      TailIsGood(ladder);
      hide DistinctNames, NoneForbidden, Climb, FailedNames;
      ClimbToWinner(rest, dead, winner, w - 1);
      var inner := Climb(rest, dead, true, OnlyYields(winner.name));
      OneMoreFailure(ladder[0], dead, inner, Names(rest[..w - 1]));
      assert Names(ladder[..w]) == [ladder[0].name] + Names(rest[..w - 1]);
    } else {
      hide DistinctNames, NoneForbidden, Climb;
      assert [Attempt(winner.rung, winner.name, true)][1..] == [];
    }
  }

  lemma TailIsGood(ladder: seq<Route>)
    requires ladder != [] && DistinctNames(ladder) && NoneForbidden(ladder)
    ensures DistinctNames(ladder[1..]) && NoneForbidden(ladder[1..])
  {
    assert forall i :: 0 <= i < |ladder| - 1 ==> ladder[1..][i] == ladder[i + 1];
  }

  /** The first route of a climb, when it is neither forbidden nor the one that yields. */
  lemma ClimbPast(ladder: seq<Route>, dead: set<string>, winner: string)
    requires ladder != [] && !Forbidden(ladder[0])
    ensures var r := ladder[0];
            r.name != winner ==>
              Climb(ladder, dead, true, OnlyYields(winner)) ==
              Climb(ladder[1..], dead, true, OnlyYields(winner))
                .Prefixed([Attempt(r.rung, r.name, false)], if r.name in dead then [] else [r.name])
    ensures var r := ladder[0];
            r.name == winner && winner !in dead ==>
              Climb(ladder, dead, true, OnlyYields(winner)) == Climbed([Attempt(r.rung, r.name, true)], [], Won(r, ""))
  {
  }

  lemma OneMoreFailure(r: Route, dead: set<string>, c: Climbed, names: seq<string>)
    requires FailedNames(c.attempts) == names && forall n :: n in c.failures <==> n in names && n !in dead
    ensures var more := c.Prefixed([Attempt(r.rung, r.name, false)], if r.name in dead then [] else [r.name]);
            && FailedNames(more.attempts) == [r.name] + names
            && (forall n :: n in more.failures <==> n in [r.name] + names && n !in dead)
  {
    assert ([Attempt(r.rung, r.name, false)] + c.attempts)[1..] == c.attempts;
  }

  function OnlyYields(name: string): World {
    n => if n == name then Yields("") else Nothing
  }

  lemma {:induction false} ClimbToTheEnd(ladder: seq<Route>, dead: set<string>)
    requires NoneForbidden(ladder)
    ensures var c := Climb(ladder, dead, true, n => Nothing);
            c.end == Exhausted && forall r :: r in ladder && r.name !in dead ==> r.name in c.failures
  {
    if ladder != [] {
      assert ladder == [ladder[0]] + ladder[1..];
      assert ladder[0] in ladder && forall r :: r in ladder[1..] ==> r in ladder;
      ClimbToTheEnd(ladder[1..], dead);
    }
  }

  lemma {:induction false} OthersAreTheRest(routes: seq<Route>, known: Route)
    requires DistinctNames(routes) && known in routes
    ensures Named(routes, known.name) == Some(known)
    ensures multiset([known] + Others(routes, known.name)) == multiset(routes)
  {
    var head, tail := routes[0], routes[1..];
    assert routes == [head] + tail;
    assert forall i :: 0 <= i < |tail| ==> tail[i] == routes[i + 1];
    if head.name == known.name {
      SameNameSameRoute(routes, head, known);
      NothingElseNamed(tail, known.name);
      assert Others(routes, known.name) == [] + tail == tail;
    } else {
      OthersAreTheRest(tail, known);
      assert Others(routes, known.name) == [head] + Others(tail, known.name);
    }
  }

  lemma {:induction false} InsertedAhead(b: Route, s: seq<Route>) returns (w: nat)
    ensures w < |Insert(b, s)| && Insert(b, s)[w] == b
    ensures forall i :: 0 <= i < w ==> Before(Insert(b, s)[i], b)
  {
    w := 0;
    if s != [] && Before(s[0], b) {
      w := InsertedAhead(b, s[1..]);
      w := w + 1;
    }
  }

  /** A remembered route is tried before every route it ties with. */
  lemma RecalledLadder(routes: seq<Route>, a: Route, b: Route, prior: Option<Record>) returns (w: nat)
    requires DistinctNames(routes) && a in routes && b in routes && !Before(a, b) && b.name != ""
    requires prior.Some? && prior.value.decisionRoute == Some(b.name)
    ensures var ladder := Ladder(Reordered(routes, prior));
            && DistinctNames(ladder) && (forall r :: r in ladder <==> r in routes)
            && w < |ladder| && ladder[w] == b && a.name !in Names(ladder[..w])
  {
    var front := [b] + Others(routes, b.name);
    OthersAreTheRest(routes, b);
    LadderIsSorted(front);
    SamePermutationNames(Ladder(front), routes);
    assert front[1..] == Others(routes, b.name);
    w := InsertedAhead(b, Ladder(Others(routes, b.name)));
    var ladder := Ladder(front);
    assert a in ladder;
    var x :| 0 <= x < |ladder| && ladder[x] == a;
    forall i | 0 <= i < w
      ensures Names(ladder[..w])[i] != a.name
    {
      assert Before(ladder[i], b) && i != x;
    }
  }

  ghost predicate Tied(routes: seq<Route>, a: Route, b: Route) {
    && DistinctNames(routes) && NoneForbidden(routes)
    && a in routes && b in routes && a.name != b.name && b.name != ""
    && !Before(a, b) && !Before(b, a)
  }

  lemma FirstTiedCall(routes: seq<Route>, i: nat, j: nat)
    requires i < j < |routes| && Tied(routes, routes[i], routes[j])
    ensures var c := Answer(routes, true, None, OnlyYields(routes[j].name));
            var after := Remembered(routes, true, None, OnlyYields(routes[j].name));
            && routes[i].name in c.failures && c.end.Won?
            && after.Some? && after.value.decisionRoute == Some(routes[j].name)
            && routes[j].name !in DeadRoutes(after)
  {
    var a, b := routes[i], routes[j];
    var ladder := Ladder(routes);
    LadderIsSorted(routes);
    SamePermutationNames(ladder, routes);
    TiesKeepListOrder(routes, i, j);
    var p, q :| 0 <= p < q < |ladder| && ladder[p] == a && ladder[q] == b;
    LaterWinner(ladder, p, q);
    assert ToSet(DeadRoutes(None)) == {};
    hide Ladder, Climb, FailedNames, NoneForbidden, DistinctNames, Before;
    RecallIsNoFailure(routes, None, Answer(routes, true, None, OnlyYields(b.name)).attempts);
  }

  lemma LaterWinner(ladder: seq<Route>, p: nat, q: nat)
    requires p < q < |ladder| && DistinctNames(ladder) && NoneForbidden(ladder)
    ensures var c := Climb(ladder, {}, true, OnlyYields(ladder[q].name));
            && ladder[p].name in c.failures && c.end == Won(ladder[q], "")
            && ladder[q].name !in FailedNames(c.attempts)
  {
    ClimbToWinner(ladder, {}, ladder[q], q);
    assert Names(ladder[..q])[p] == ladder[p].name;
    forall k | 0 <= k < q
      ensures Names(ladder[..q])[k] != ladder[q].name
    {
      assert ladder[k].name != ladder[q].name;
    }
  }

  lemma SecondTiedCall(routes: seq<Route>, a: Route, b: Route, prior: Option<Record>)
    requires Tied(routes, a, b)
    requires prior.Some? && prior.value.decisionRoute == Some(b.name) && b.name !in DeadRoutes(prior)
    ensures var after := Remembered(routes, true, prior, OnlyYields(b.name));
            && Answer(routes, true, prior, OnlyYields(b.name)).end.Won?
            && after.Some? && after.value.decisionRoute == Some(b.name)
            && a.name !in DeadRoutes(after)
  {
    var w := RecalledLadder(routes, a, b, prior);
    ClimbToWinner(Ladder(Reordered(routes, prior)), ToSet(DeadRoutes(prior)), b, w);
    RecallIsNoFailure(routes, prior, Answer(routes, true, prior, OnlyYields(b.name)).attempts);
  }

  lemma ThirdTiedCall(routes: seq<Route>, a: Route, b: Route, prior: Option<Record>)
    requires Tied(routes, a, b)
    requires prior.Some? && prior.value.decisionRoute == Some(b.name) && a.name !in DeadRoutes(prior)
    ensures var c := Answer(routes, true, prior, n => Nothing);
            a.name in c.failures && c.end.Exhausted?
  {
    var w := RecalledLadder(routes, a, b, prior);
    ClimbToTheEnd(Ladder(Reordered(routes, prior)), ToSet(DeadRoutes(prior)));
  }

  /** Whenever two usable routes tie, three calls make one of them fail twice: the
      first call records its failure, a second call that reuses the remembered tied
      route overwrites the record, and a third runs it again. */
  lemma TiesBreakMemory(routes: seq<Route>, i: nat, j: nat) returns (worlds: seq<World>)
    requires i < j < |routes| && Tied(routes, routes[i], routes[j])
    ensures FailingRuns(routes, true, None, worlds, routes[i].name) >= 2
    ensures RefusedCalls(routes, true, None, worlds) == 0 && OnlyTheseRefuse(worlds, {})
  {
    hide Answer, Remembered, Ladder, Tied;
    var a, b := routes[i], routes[j];
    var works, silent: World := OnlyYields(b.name), n => Nothing;
    FirstTiedCall(routes, i, j);
    var after1 := Remembered(routes, true, None, works);
    SecondTiedCall(routes, a, b, after1);
    var after2 := Remembered(routes, true, after1, works);
    ThirdTiedCall(routes, a, b, after2);
    var after3 := Remembered(routes, true, after2, silent);
    OneCallThenMore(routes, true, after2, silent, [], a.name);
    OneCallThenMore(routes, true, after1, works, [silent] + [], a.name);
    OneCallThenMore(routes, true, None, works, [works] + ([silent] + []), a.name);
    worlds := [works] + ([works] + ([silent] + []));
  }

  /** For a ladder of usable, distinctly named routes: no route ever fails twice, but for
      once more in each refused call, exactly when no two routes share a (rung, fidelity)
      key. */
  lemma MemoryHoldsExactlyWithoutTies(routes: seq<Route>)
    requires DistinctNames(routes) && NoneForbidden(routes) && forall r :: r in routes ==> r.name != ""
    ensures DistinctKeys(routes) <==>
            forall worlds, name ::
              FailingRuns(routes, true, None, worlds, name) <= 1 + RefusedCalls(routes, true, None, worlds)
  {
    if DistinctKeys(routes) {
      forall worlds, name
        ensures FailingRuns(routes, true, None, worlds, name) <= 1 + RefusedCalls(routes, true, None, worlds)
      {
        AtMostOneFailingRun(routes, true, None, worlds, name);
      }
    } else {
      var i, j :| 0 <= i < j < |routes| && !Before(routes[i], routes[j]) && !Before(routes[j], routes[i]);
      assert routes[i] in routes && routes[j] in routes;
      var worlds := TiesBreakMemory(routes, i, j);
      assert FailingRuns(routes, true, None, worlds, routes[i].name) > 1 + RefusedCalls(routes, true, None, worlds);
    }
  }

  // ---------- ties and stops together ----------

  /** No two routes that can be run tie. */
  ghost predicate NoTieToRun(ladder: seq<Route>, allowDegraded: bool) {
    forall i: nat, j: nat :: i < j < |ladder| && CanRun(ladder, allowDegraded, i) && CanRun(ladder, allowDegraded, j) ==>
      Before(ladder[i], ladder[j]) || Before(ladder[j], ladder[i])
  }

  /** Where something is forbidden and nothing can be run before it, nothing is run at all. */
  lemma {:induction false} NothingRuns(ladder: seq<Route>, allowDegraded: bool, world: World, f: nat)
    requires f < |ladder| && Forbidden(ladder[f]) && forall i: nat :: i < |ladder| ==> !CanRun(ladder, allowDegraded, i)
    ensures var c := Climb(ladder, {}, allowDegraded, world); c.end.Refused? && c.failures == []
  {
    if !Forbidden(ladder[0]) {
      var rest := ladder[1..];
      assert !CanRun(ladder, allowDegraded, 0);
      forall i: nat | i < |rest|
        ensures !CanRun(rest, allowDegraded, i)
      {
        assert !CanRun(ladder, allowDegraded, i + 1) && forall m :: 1 <= m <= i + 1 ==> ladder[m] == rest[m - 1];
      }
      NothingRuns(rest, allowDegraded, world, f - 1);
    }
  }

  lemma {:induction false} NothingFails(routes: seq<Route>, allowDegraded: bool, worlds: seq<World>, name: string, f: nat)
    requires f < |Ladder(routes)| && Forbidden(Ladder(routes)[f])
    requires forall i: nat :: i < |Ladder(routes)| ==> !CanRun(Ladder(routes), allowDegraded, i)
    ensures FailingRuns(routes, allowDegraded, None, worlds, name) == 0
  {
    if worlds != [] {
      NothingRuns(Ladder(routes), allowDegraded, worlds[0], f);
      assert ToSet(DeadRoutes(None)) == {};
      hide Ladder, Climb, CanRun;
      NothingFails(routes, allowDegraded, worlds[1..], name, f);
    }
  }

  lemma {:induction false} InsertEligible(r: Route, s: seq<Route>, allowDegraded: bool)
    requires Sorted(s)
    ensures EligibleRoutes(Insert(r, s), allowDegraded) ==
            if Eligible(r, allowDegraded) then Insert(r, EligibleRoutes(s, allowDegraded)) else EligibleRoutes(s, allowDegraded)
  {
    if s != [] && Before(s[0], r) {
      InsertEligible(r, s[1..], allowDegraded);
      assert ([s[0]] + Insert(r, s[1..]))[1..] == Insert(r, s[1..]);
      var rest := EligibleRoutes(s[1..], allowDegraded);
      assert [] + rest == rest && ([s[0]] + rest)[1..] == rest;
    } else {
      assert ([r] + s)[1..] == s;
      NoneBefore(r, s, allowDegraded);
    }
  }

  lemma NoneBefore(r: Route, s: seq<Route>, allowDegraded: bool)
    requires Sorted(s) && (s != [] ==> !Before(s[0], r))
    ensures Insert(r, EligibleRoutes(s, allowDegraded)) == [r] + EligibleRoutes(s, allowDegraded)
  {
    var es := EligibleRoutes(s, allowDegraded);
    EligibleOnly(s, allowDegraded);
    if es != [] {
      assert es[0] in s;
      var i :| 0 <= i < |s| && s[i] == es[0];
      assert i > 0 ==> !Before(s[i], s[0]);
    }
  }

  /** Sorting and leaving out what is not eligible may change places. */
  lemma {:induction false} LadderOfEligible(routes: seq<Route>, allowDegraded: bool)
    ensures EligibleRoutes(Ladder(routes), allowDegraded) == Ladder(EligibleRoutes(routes, allowDegraded))
  {
    if routes != [] {
      var rest := EligibleRoutes(routes[1..], allowDegraded);
      LadderOfEligible(routes[1..], allowDegraded);
      LadderIsSorted(routes[1..]);
      InsertEligible(routes[0], Ladder(routes[1..]), allowDegraded);
      assert [] + rest == rest && ([routes[0]] + rest)[1..] == rest;
      hide Insert, Sorted;
    }
  }

  lemma {:induction false} OthersOfEligible(routes: seq<Route>, name: string, allowDegraded: bool)
    ensures EligibleRoutes(Others(routes, name), allowDegraded) == Others(EligibleRoutes(routes, allowDegraded), name)
  {
    if routes != [] {
      OthersOfEligible(routes[1..], name, allowDegraded);
      var head, others, rest := routes[0], Others(routes[1..], name), EligibleRoutes(routes[1..], allowDegraded);
      assert ([head] + others)[1..] == others && [] + others == others;
      assert ([head] + rest)[1..] == rest && [] + rest == rest;
      assert EligibleRoutes([head] + others, allowDegraded) ==
             (if Eligible(head, allowDegraded) then [head] else []) + EligibleRoutes(others, allowDegraded);
      hide Eligible;
    }
  }

  lemma {:induction false} NamedOfEligible(routes: seq<Route>, name: string, allowDegraded: bool)
    requires Named(routes, name).Some? ==> Eligible(Named(routes, name).value, allowDegraded)
    ensures Named(EligibleRoutes(routes, allowDegraded), name) == Named(routes, name)
  {
    if routes != [] {
      var rest := EligibleRoutes(routes[1..], allowDegraded);
      assert ([routes[0]] + rest)[1..] == rest && [] + rest == rest;
      if routes[0].name != name {
        NamedOfEligible(routes[1..], name, allowDegraded);
      }
    }
  }

  /** What is remembered speaks of eligible routes only. */
  ghost predicate RemembersEligible(routes: seq<Route>, allowDegraded: bool, prior: Option<Record>) {
    && (forall r :: r in routes && r.name in DeadRoutes(prior) ==> Eligible(r, allowDegraded))
    && (Recalled(routes, prior).Some? ==> Eligible(Recalled(routes, prior).value, allowDegraded))
  }

  lemma ReorderedEligible(routes: seq<Route>, allowDegraded: bool, prior: Option<Record>)
    requires RemembersEligible(routes, allowDegraded, prior)
    ensures Recalled(EligibleRoutes(routes, allowDegraded), prior) == Recalled(routes, prior)
    ensures EligibleRoutes(Reordered(routes, prior), allowDegraded) == Reordered(EligibleRoutes(routes, allowDegraded), prior)
  {
    if prior.Some? && prior.value.decisionRoute.Some? && prior.value.decisionRoute.value != "" {
      NamedOfEligible(routes, prior.value.decisionRoute.value, allowDegraded);
    }
    var known := Recalled(routes, prior);
    if known.Some? {
      var others := Others(routes, known.value.name);
      OthersOfEligible(routes, known.value.name, allowDegraded);
      assert ([known.value] + others)[1..] == others;
    }
    hide Named, Others;
  }

  /** Without forbidden routes a climb is one of the eligible routes. */
  lemma {:induction false} ClimbOfEligible(ladder: seq<Route>, dead: set<string>, allowDegraded: bool, world: World)
    requires NoneForbidden(ladder) && forall r :: r in ladder && r.name in dead ==> Eligible(r, allowDegraded)
    ensures Climb(ladder, dead, allowDegraded, world) == Climb(EligibleRoutes(ladder, allowDegraded), dead, true, world)
  {
    if ladder != [] {
      var rest := EligibleRoutes(ladder[1..], allowDegraded);
      assert ladder[0] in ladder && forall r :: r in ladder[1..] ==> r in ladder;
      hide Climb, Forbidden, EligibleRoutes;
      ClimbOfEligible(ladder[1..], dead, allowDegraded, world);
      ClimbFirst(ladder, dead, allowDegraded, world);
      UnfoldEligible(ladder, allowDegraded);
      if Eligible(ladder[0], allowDegraded) {
        assert ([ladder[0]] + rest)[1..] == rest;
        ClimbFirst([ladder[0]] + rest, dead, true, world);
      } else {
        assert [] + rest == rest;
      }
    } else {
      assert EligibleRoutes(ladder, allowDegraded) == ladder == [];
      NowhereToClimb(dead, allowDegraded, world);
    }
  }

  lemma NowhereToClimb(dead: set<string>, allowDegraded: bool, world: World)
    ensures Climb([], dead, allowDegraded, world) == Climb([], dead, true, world)
  {
  }

  /** The first route of a climb. */
  lemma ClimbFirst(ladder: seq<Route>, dead: set<string>, allowDegraded: bool, world: World)
    requires ladder != []
    ensures var (r, c, rest) := (ladder[0], Climb(ladder, dead, allowDegraded, world), Climb(ladder[1..], dead, allowDegraded, world));
            var lost := [Attempt(r.rung, r.name, false)];
            if Forbidden(r) then c == Climbed([], [], Refused(r.name))
            else if r.name in dead then c == rest.Prefixed(lost, [])
            else if !Eligible(r, allowDegraded) then c == rest
            else if world(r.name).Refuses? then c == Climbed([], [], Refused(r.name))
            else if world(r.name).Yields? then c == Climbed([Attempt(r.rung, r.name, true)], [], Won(r, world(r.name).value))
            else c == rest.Prefixed(lost, [r.name])
  {
  }

  lemma ReorderedHolds(routes: seq<Route>, prior: Option<Record>)
    ensures forall r :: r in Ladder(Reordered(routes, prior)) ==> r in routes
  {
    var known := Recalled(routes, prior);
    LadderIsSorted(Reordered(routes, prior));
    forall r | r in Ladder(Reordered(routes, prior))
      ensures r in routes
    {
      assert r in multiset(Reordered(routes, prior));
      if known.Some? {
        NamedIsIn(routes, prior.value.decisionRoute.value);
        OthersHold(routes, known.value.name);
      }
    }
  }

  lemma {:induction false} OthersHold(routes: seq<Route>, name: string)
    ensures forall r :: r in Others(routes, name) ==> r in routes
  {
    if routes != [] {
      OthersHold(routes[1..], name);
    }
  }

  lemma AnswerOfEligible(routes: seq<Route>, allowDegraded: bool, prior: Option<Record>, world: World)
    requires NoneForbidden(routes) && RemembersEligible(routes, allowDegraded, prior)
    ensures var es := EligibleRoutes(routes, allowDegraded);
            && Answer(routes, allowDegraded, prior, world) == Answer(es, true, prior, world)
            && Remembered(routes, allowDegraded, prior, world) == Remembered(es, true, prior, world)
  {
    ReorderedHolds(routes, prior);
    ReorderedEligible(routes, allowDegraded, prior);
    LadderOfEligible(Reordered(routes, prior), allowDegraded);
    hide Ladder, Reordered, Recalled, Climb, EligibleRoutes, Eligible, FailedNames, Forbidden;
    ClimbOfEligible(Ladder(Reordered(routes, prior)), ToSet(DeadRoutes(prior)), allowDegraded, world);
  }

  lemma {:induction false} ClimbSpeaksOf(ladder: seq<Route>, dead: set<string>, world: World)
    ensures var c := Climb(ladder, dead, true, world);
            && (forall n :: n in FailedNames(c.attempts) ==> n in Names(ladder))
            && (c.end.Won? ==> c.end.winner in ladder)
  {
    if ladder == [] {
      NoFailedNames();
    } else {
      ClimbSpeaksOf(ladder[1..], dead, world);
      hide Forbidden, Names, FailedNames, Climb;
      var r, rest := ladder[0], ladder[1..];
      ClimbFirst(ladder, dead, true, world);
      NamesOfMore(ladder);
      FailedNamesOfMore(Attempt(r.rung, r.name, false), Climb(rest, dead, true, world).attempts);
      FailedNamesOfMore(Attempt(r.rung, r.name, true), []);
      assert ladder[0] in ladder && forall x :: x in rest ==> x in ladder;
    }
  }

  lemma NoFailedNames()
    ensures FailedNames([]) == []
  {
  }

  lemma NamesOfMore(ladder: seq<Route>)
    requires ladder != []
    ensures forall n :: n in Names(ladder) <==> n == ladder[0].name || n in Names(ladder[1..])
  {
    assert Names(ladder) == [ladder[0].name] + Names(ladder[1..]);
  }

  lemma FailedNamesOfMore(a: Attempt, attempts: seq<Attempt>)
    ensures FailedNames([a] + attempts) == (if a.succeeded then [] else [a.strategy]) + FailedNames(attempts)
    ensures FailedNames([]) == [] && FailedNames([a]) == if a.succeeded then [] else [a.strategy]
  {
    assert ([a] + attempts)[1..] == attempts;
  }

  /** Calls without forbidden routes go on remembering eligible routes only. */
  lemma StillRemembersEligible(routes: seq<Route>, allowDegraded: bool, prior: Option<Record>, world: World)
    requires DistinctNames(routes) && NoneForbidden(routes) && RemembersEligible(routes, allowDegraded, prior)
    ensures RemembersEligible(routes, allowDegraded, Remembered(routes, allowDegraded, prior, world))
  {
    var es := EligibleRoutes(routes, allowDegraded);
    AnswerOfEligible(routes, allowDegraded, prior, world);
    ReorderedHolds(es, prior);
    EligibleOnly(routes, allowDegraded);
    var ladder := Ladder(Reordered(es, prior));
    ClimbSpeaksOf(ladder, ToSet(DeadRoutes(prior)), world);
    RecallIsNoFailure(es, prior, Answer(es, true, prior, world).attempts);
    hide Ladder, Reordered, Climb, EligibleRoutes, Eligible, FailedNames, Forbidden, RecallLog;
    var after := Remembered(es, true, prior, world);
    if !Answer(es, true, prior, world).end.Refused? {
      forall r | r in routes && r.name in DeadRoutes(after)
        ensures Eligible(r, allowDegraded)
      {
        var i :| 0 <= i < |ladder| && Names(ladder)[i] == r.name;
        SameNameSameRoute(routes, r, ladder[i]);
      }
      RecallsWinner(routes, allowDegraded, after, Answer(es, true, prior, world).end);
    }
  }

  lemma RecallsWinner(routes: seq<Route>, allowDegraded: bool, after: Option<Record>, end: End)
    requires DistinctNames(routes) && after.Some?
    requires after.value.decisionRoute == if end.Won? then Some(end.winner.name) else None
    requires end.Won? ==> end.winner in routes && Eligible(end.winner, allowDegraded)
    ensures Recalled(routes, after).Some? ==> Eligible(Recalled(routes, after).value, allowDegraded)
  {
    if end.Won? {
      NamedIsIn(routes, end.winner.name);
      if Named(routes, end.winner.name).Some? {
        SameNameSameRoute(routes, end.winner, Named(routes, end.winner.name).value);
      }
    }
  }

  lemma {:induction false} FailuresOfEligible(routes: seq<Route>, allowDegraded: bool, prior: Option<Record>, worlds: seq<World>, name: string)
    requires DistinctNames(routes) && NoneForbidden(routes) && RemembersEligible(routes, allowDegraded, prior)
    ensures FailingRuns(routes, allowDegraded, prior, worlds, name) ==
            FailingRuns(EligibleRoutes(routes, allowDegraded), true, prior, worlds, name)
    decreases |worlds|
  {
    if worlds != [] {
      AnswerOfEligible(routes, allowDegraded, prior, worlds[0]);
      StillRemembersEligible(routes, allowDegraded, prior, worlds[0]);
      hide Answer, Remembered, RemembersEligible, EligibleRoutes, NoneForbidden, DistinctNames;
      FailuresOfEligible(routes, allowDegraded, Remembered(routes, allowDegraded, prior, worlds[0]), worlds[1..], name);
    }
  }

  lemma {:induction false} EligibleHasNoStopBehind(ladder: seq<Route>, allowDegraded: bool, mayRefuse: set<string>)
    requires NoneForbidden(ladder) && NoStopBehind(ladder, allowDegraded, mayRefuse)
    ensures NoStopBehind(EligibleRoutes(ladder, allowDegraded), true, mayRefuse)
  {
    if ladder != [] {
      var head, tail := ladder[0], ladder[1..];
      var rest := EligibleRoutes(tail, allowDegraded);
      assert head in ladder && forall r :: r in tail ==> r in ladder;
      TailHasNoStopBehind(ladder, allowDegraded, mayRefuse);
      EligibleHasNoStopBehind(tail, allowDegraded, mayRefuse);
      EligibleOnly(tail, allowDegraded);
      hide Forbidden, EligibleRoutes;
      assert [] + rest == rest;
      hide NoStopBehind, MayStop;
      UnfoldEligible(ladder, allowDegraded);
      if Eligible(head, allowDegraded) {
        forall r | r in rest
          ensures !MayStop(r, true, mayRefuse)
        {
          SameStop(r, allowDegraded, mayRefuse);
        }
        NoStopInTail(head, rest, mayRefuse);
      }
    }
  }

  lemma SameStop(r: Route, allowDegraded: bool, mayRefuse: set<string>)
    requires Eligible(r, allowDegraded)
    ensures MayStop(r, true, mayRefuse) <==> MayStop(r, allowDegraded, mayRefuse)
  {
  }

  lemma NoStopInTail(head: Route, rest: seq<Route>, mayRefuse: set<string>)
    requires forall r :: r in rest ==> !MayStop(r, true, mayRefuse)
    ensures NoStopBehind([head] + rest, true, mayRefuse)
  {
    hide MayStop, CanRun;
  }

  lemma UnfoldEligible(ladder: seq<Route>, allowDegraded: bool)
    requires ladder != []
    ensures EligibleRoutes(ladder, allowDegraded) ==
            (if Eligible(ladder[0], allowDegraded) then [ladder[0]] else []) + EligibleRoutes(ladder[1..], allowDegraded)
  {
  }

  /** Without forbidden routes: no two routes that can be run tie if and only if the
      eligible ones have distinct keys. */
  lemma UntiedExactly(routes: seq<Route>, allowDegraded: bool)
    requires DistinctNames(routes) && NoneForbidden(routes)
    ensures NoTieToRun(Ladder(routes), allowDegraded) <==> DistinctKeys(EligibleRoutes(routes, allowDegraded))
  {
    var ladder, es := Ladder(routes), EligibleRoutes(routes, allowDegraded);
    LadderIsSorted(routes);
    SamePermutationNames(ladder, routes);
    EligibleOnly(routes, allowDegraded);
    DistinctEligible(routes, allowDegraded);
    hide Ladder, EligibleRoutes, Forbidden, Eligible, Before, DistinctNames, NoTieToRun, DistinctKeys;
    if DistinctKeys(es) {
      UntiedLadder(ladder, es, allowDegraded);
    }
    if NoTieToRun(ladder, allowDegraded) {
      UntiedEligible(ladder, es, allowDegraded);
    }
  }

  lemma UntiedLadder(ladder: seq<Route>, es: seq<Route>, allowDegraded: bool)
    requires DistinctNames(ladder) && DistinctKeys(es) && forall r :: r in ladder && Eligible(r, allowDegraded) ==> r in es
    ensures NoTieToRun(ladder, allowDegraded)
  {
    hide Forbidden, Before, Eligible;
    forall i: nat, j: nat | i < j < |ladder| && CanRun(ladder, allowDegraded, i) && CanRun(ladder, allowDegraded, j)
      ensures Before(ladder[i], ladder[j]) || Before(ladder[j], ladder[i])
    {
      assert ladder[i] in es && ladder[j] in es && ladder[i].name != ladder[j].name;
      var p :| 0 <= p < |es| && es[p] == ladder[i];
      var q :| 0 <= q < |es| && es[q] == ladder[j];
    }
  }

  lemma UntiedEligible(ladder: seq<Route>, es: seq<Route>, allowDegraded: bool)
    requires DistinctNames(es) && NoTieToRun(ladder, allowDegraded) && (forall r :: r in es ==> r in ladder && Eligible(r, allowDegraded))
    requires forall r :: r in ladder ==> !Forbidden(r)
    ensures DistinctKeys(es)
  {
    hide Forbidden, Before, Eligible;
    forall i, j | 0 <= i < j < |es|
      ensures Before(es[i], es[j]) || Before(es[j], es[i])
    {
      assert es[i] in ladder && es[j] in ladder && es[i].name != es[j].name;
      var p: nat :| p < |ladder| && ladder[p] == es[i];
      var q: nat :| q < |ladder| && ladder[q] == es[j];
      assert CanRun(ladder, allowDegraded, p) && CanRun(ladder, allowDegraded, q);
    }
  }

  /** The promise itself over every list of named routes, ties and stops together: no route
      ever fails twice if and only if nothing that may stop a climb stands behind a route
      that can be run, and no two routes that can be run tie. */
  lemma NothingFailsTwiceExactly(routes: seq<Route>, allowDegraded: bool, mayRefuse: set<string>)
    requires DistinctNames(routes) && forall r :: r in routes ==> r.name != ""
    ensures NoStopBehind(Ladder(routes), allowDegraded, mayRefuse) && NoTieToRun(Ladder(routes), allowDegraded) <==>
            forall worlds, name :: OnlyTheseRefuse(worlds, mayRefuse) ==>
              FailingRuns(routes, allowDegraded, None, worlds, name) <= 1
  {
    hide Ladder, FailingRuns, Forbidden, CanRun, DistinctNames;
    var ladder := Ladder(routes);
    if !NoStopBehind(ladder, allowDegraded, mayRefuse) {
      var i: nat, j: nat :| i < j < |ladder| && CanRun(ladder, allowDegraded, i) && MayStop(ladder[j], allowDegraded, mayRefuse);
      var worlds := StoppedCallsRepeat(routes, allowDegraded, mayRefuse, i, j, 2);
      assert FailingRuns(routes, allowDegraded, None, worlds, ladder[i].name) == 2;
    } else if f: nat :| f < |ladder| && Forbidden(ladder[f]) {
      NothingBeforeForbidden(ladder, allowDegraded, mayRefuse, f);
      forall worlds, name
        ensures FailingRuns(routes, allowDegraded, None, worlds, name) == 0
      {
        NothingFails(routes, allowDegraded, worlds, name, f);
      }
    } else {
      NoneForbiddenInLadder(routes);
      WithoutForbidden(routes, allowDegraded, mayRefuse);
    }
  }

  lemma NothingBeforeForbidden(ladder: seq<Route>, allowDegraded: bool, mayRefuse: set<string>, f: nat)
    requires NoStopBehind(ladder, allowDegraded, mayRefuse) && f < |ladder| && Forbidden(ladder[f])
    ensures forall i: nat :: i < |ladder| ==> !CanRun(ladder, allowDegraded, i)
  {
    hide Forbidden;
  }

  lemma NoneForbiddenInLadder(routes: seq<Route>)
    requires forall f: nat :: f < |Ladder(routes)| ==> !Forbidden(Ladder(routes)[f])
    ensures NoneForbidden(routes) && NoneForbidden(Ladder(routes))
  {
    LadderIsSorted(routes);
    hide Forbidden, Ladder;
    forall r | r in routes
      ensures !Forbidden(r)
    {
      assert r in multiset(Ladder(routes));
      var f: nat :| f < |Ladder(routes)| && Ladder(routes)[f] == r;
    }
  }

  lemma WithoutForbidden(routes: seq<Route>, allowDegraded: bool, mayRefuse: set<string>)
    requires DistinctNames(routes) && (forall r :: r in routes ==> r.name != "")
    requires NoneForbidden(routes) && NoneForbidden(Ladder(routes)) && NoStopBehind(Ladder(routes), allowDegraded, mayRefuse)
    ensures NoTieToRun(Ladder(routes), allowDegraded) <==>
            forall worlds, name :: OnlyTheseRefuse(worlds, mayRefuse) ==>
              FailingRuns(routes, allowDegraded, None, worlds, name) <= 1
  {
    var es := EligibleRoutes(routes, allowDegraded);
    hide Ladder, EligibleRoutes, Forbidden, FailingRuns, NoStopBehind, NoTieToRun, DistinctNames, OnlyTheseRefuse;
    UntiedExactly(routes, allowDegraded);
    EligibleOnly(routes, allowDegraded);
    DistinctEligible(routes, allowDegraded);
    EligibleHasNoStopBehind(Ladder(routes), allowDegraded, mayRefuse);
    LadderOfEligible(routes, allowDegraded);
    forall worlds, name
      ensures FailingRuns(routes, allowDegraded, None, worlds, name) == FailingRuns(es, true, None, worlds, name)
    {
      FailuresOfEligible(routes, allowDegraded, None, worlds, name);
    }
    if DistinctKeys(es) {
      NoRouteFailsTwiceExactly(es, true, mayRefuse);
      forall worlds, name | OnlyTheseRefuse(worlds, mayRefuse)
        ensures FailingRuns(routes, allowDegraded, None, worlds, name) <= 1
      {
        assert FailingRuns(es, true, None, worlds, name) <= 1;
      }
    } else {
      var worlds, name := TiesFailTwice(es, mayRefuse);
      assert FailingRuns(routes, allowDegraded, None, worlds, name) >= 2;
    }
  }

  lemma TiesFailTwice(es: seq<Route>, mayRefuse: set<string>) returns (worlds: seq<World>, name: string)
    requires DistinctNames(es) && !DistinctKeys(es) && NoneForbidden(es) && forall r :: r in es ==> r.name != ""
    ensures OnlyTheseRefuse(worlds, mayRefuse) && FailingRuns(es, true, None, worlds, name) >= 2
  {
    hide FailingRuns, Forbidden, Before;
    var i, j :| 0 <= i < j < |es| && !Before(es[i], es[j]) && !Before(es[j], es[i]);
    assert es[i] in es && es[j] in es;
    TiedNames(es, i, j);
    worlds := TiesBreakMemory(es, i, j);
    name := es[i].name;
  }

  lemma TiedNames(es: seq<Route>, i: nat, j: nat)
    requires DistinctNames(es) && i < j < |es|
    ensures es[i].name != es[j].name
  {
  }
}

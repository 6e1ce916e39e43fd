/** The agent roster's delegation check: a three-colour depth-first search. */
module AgentRegistry {
  import opened Common

  /** Each known agent with the names it may delegate to. */
  type Roster = map<string, seq<string>>

  datatype Colour = White | Grey | Black

  /** Agent `a` delegates to the known agent `b`. */
  ghost predicate Delegates(specs: Roster, a: string, b: string) {
    a in specs && b in specs && b in specs[a]
  }

  ghost predicate IsWalk(specs: Roster, w: seq<string>) {
    && |w| >= 1
    && (forall i :: 0 <= i < |w| ==> w[i] in specs)
    && (forall i :: 0 <= i < |w| - 1 ==> Delegates(specs, w[i], w[i + 1]))
  }

  /** A closed walk along delegations. */
  ghost predicate IsLoop(specs: Roster, w: seq<string>) {
    IsWalk(specs, w) && |w| >= 2 && w[0] == w[|w| - 1]
  }

  ghost predicate Cyclic(specs: Roster) {
    exists w :: IsLoop(specs, w)
  }

  /** The delegation of `a` to `b` is the one that closes a reported loop. */
  ghost predicate Closes(loops: set<seq<string>>, a: string, b: string) {
    exists loop :: loop in loops && |loop| >= 2 && loop[|loop| - 2] == a && loop[|loop| - 1] == b
  }

  /** A walk uses a delegation that closes a reported loop. */
  ghost predicate Cut(loops: set<seq<string>>, w: seq<string>) {
    exists i :: 0 <= i < |w| - 1 && Closes(loops, w[i], w[i + 1])
  }

  /** Every agent stands after all the agents it delegates to, but for the delegations
      that close the given loops. */
  ghost predicate DelegatesFirst(specs: Roster, order: seq<string>, loops: set<seq<string>>) {
    forall i, b :: 0 <= i < |order| && Delegates(specs, order[i], b) ==> b in order[..i] || Closes(loops, order[i], b)
  }

  /** A topological order of the whole roster without the delegations that close the
      given loops. */
  ghost predicate DelegationOrder(specs: Roster, order: seq<string>, loops: set<seq<string>>) {
    && Distinct(order)
    && ToSet(order) == specs.Keys
    && DelegatesFirst(specs, order, loops)
  }

  lemma ExtendWalk(specs: Roster, w: seq<string>, b: string)
    requires IsWalk(specs, w) && Delegates(specs, w[|w| - 1], b)
    ensures IsWalk(specs, w + [b])
  {
    var longer := w + [b];
    forall i | 0 <= i < |longer| - 1
      ensures Delegates(specs, longer[i], longer[i + 1])
    {
      if i < |w| - 1 { assert Delegates(specs, w[i], w[i + 1]); }
    }
  }

  lemma WalkSuffix(specs: Roster, w: seq<string>, k: nat)
    requires IsWalk(specs, w) && k < |w|
    ensures IsWalk(specs, w[k..])
  {
    forall i | 0 <= i < |w[k..]| - 1
      ensures Delegates(specs, w[k..][i], w[k..][i + 1])
    {
      assert Delegates(specs, w[k + i], w[k + i + 1]);
    }
  }

  lemma CutSuffix(loops: set<seq<string>>, w: seq<string>)
    requires w != [] && Cut(loops, w[1..])
    ensures Cut(loops, w)
  {
    hide Closes;
    var i :| 0 <= i < |w[1..]| - 1 && Closes(loops, w[1..][i], w[1..][i + 1]);
    assert Closes(loops, w[i + 1], w[(i + 1) + 1]);
  }

  /** Along a walk that uses no closing delegation, the order is left strictly behind. */
  lemma {:induction false} WalkDescends(specs: Roster, order: seq<string>, loops: set<seq<string>>, w: seq<string>, i: nat)
    requires DelegatesFirst(specs, order, loops) && IsWalk(specs, w) && |w| >= 2 && !Cut(loops, w)
    requires i < |order| && order[i] == w[0]
    ensures w[|w| - 1] in order[..i]
  {
    hide Closes;
    assert Delegates(specs, w[0], w[0 + 1]) && !Closes(loops, w[0], w[0 + 1]);
    if |w| > 2 {
      var j :| 0 <= j < i && order[..i][j] == w[1];
      WalkSuffix(specs, w, 1);
      if Cut(loops, w[1..]) { CutSuffix(loops, w); }
      WalkDescends(specs, order, loops, w[1..], j);
      assert order[..j] <= order[..i];
    }
  }

  /** With such an order every closed walk uses a closing delegation. */
  lemma EveryLoopIsCut(specs: Roster, order: seq<string>, loops: set<seq<string>>, w: seq<string>)
    requires DelegationOrder(specs, order, loops) && IsLoop(specs, w)
    ensures Cut(loops, w)
  {
    if !Cut(loops, w) {
      assert w[0] in ToSet(order);
      var i :| 0 <= i < |order| && order[i] == w[0];
      WalkDescends(specs, order, loops, w, i);
    }
  }

  function IndexOf(path: seq<string>, target: string): (i: nat)
    requires target in path
    ensures i < |path| && path[i] == target && target !in path[..i]
  {
    if path[0] == target then 0 else 1 + IndexOf(path[1..], target)
  }

  /** What is reported when `key`, at the end of `path`, delegates to a grey agent. */
  function LoopAt(key: string, path: seq<string>, target: string): seq<string> {
    if target in path then path[IndexOf(path, target)..] + [target] else [key, target]
  }

  lemma LoopIsReal(specs: Roster, path: seq<string>, target: string)
    requires IsWalk(specs, path) && target in path && Delegates(specs, path[|path| - 1], target)
    ensures IsLoop(specs, LoopAt(path[|path| - 1], path, target))
    ensures var loop := LoopAt(path[|path| - 1], path, target);
            |loop| >= 2 && loop[|loop| - 2] == path[|path| - 1] && loop[|loop| - 1] == target
  {
    var k := IndexOf(path, target);
    WalkSuffix(specs, path, k);
    ExtendWalk(specs, path[k..], target);
  }

  lemma DelegatesFirstGrows(specs: Roster, order: seq<string>, loops: set<seq<string>>, key: string)
    requires DelegatesFirst(specs, order, loops)
    requires forall t :: Delegates(specs, key, t) ==> t in order || Closes(loops, key, t)
    ensures DelegatesFirst(specs, order + [key], loops)
  {
    hide Closes;
    var longer := order + [key];
    forall i, b | 0 <= i < |longer| && Delegates(specs, longer[i], b)
      ensures b in longer[..i] || Closes(loops, longer[i], b)
    {
      assert longer[..i] == order[..i];
      if i == |order| { assert order[..i] == order; }
    }
  }

  function Whites(colour: map<string, Colour>): set<string> {
    set k | k in colour && colour[k] == White
  }

  /** Colours only darken, and only away from the current path. */
  ghost predicate Darkens(before: map<string, Colour>, after: map<string, Colour>) {
    before.Keys == after.Keys && forall k :: k in before && before[k] != White ==> after[k] == before[k]
  }

  lemma DarkensTwice(a: map<string, Colour>, b: map<string, Colour>, c: map<string, Colour>)
    requires Darkens(a, b) && Darkens(b, c)
    ensures Darkens(a, c) && Whites(c) <= Whites(a)
  {
  }

  /** Turning a white agent grey for a visit and black after it only darkens. */
  lemma VisitDarkens(before: map<string, Colour>, visited: map<string, Colour>, key: string)
    requires key in before && before[key] == White && Darkens(before[key := Grey], visited)
    ensures Darkens(before, visited[key := Black])
  {
  }

  /** The delegation of `key` to `t` needs no further look: `t` is fully explored, or the
      loop it closes is reported. */
  ghost predicate Explored(colour: map<string, Colour>, loops: set<seq<string>>, key: string, t: string) {
    t in colour && colour[t] != White && (colour[t] == Black || Closes(loops, key, t))
  }

  lemma ExploredStays(before: map<string, Colour>, was: set<seq<string>>, after: map<string, Colour>, loops: set<seq<string>>,
                      key: string, t: string)
    requires Explored(before, was, key, t) && Darkens(before, after) && was <= loops
    ensures Explored(after, loops, key, t)
  {
  }

  lemma ReportKeeps(specs: Roster, order: seq<string>, loops: set<seq<string>>, loop: seq<string>)
    requires DelegatesFirst(specs, order, loops)
    ensures DelegatesFirst(specs, order, loops + {loop})
  {
  }

  /** The mutable state of one validation: colours and the loops reported so far. */
  class DelegationSearch {
    const specs: Roster
    var colour: map<string, Colour>
    var cycles: set<seq<string>>
    ghost var finished: seq<string>  // black agents, in the order they turned black

    constructor (specs: Roster)
      ensures this.specs == specs && Valid() && cycles == {}
      ensures forall k :: k in specs ==> colour[k] == White
    {
      this.specs := specs;
      colour := map k | k in specs :: White;
      cycles := {};
      finished := [];
    }

    ghost predicate Valid()
      reads this
    {
      && colour.Keys == specs.Keys
      && Distinct(finished)
      && (forall k :: k in finished <==> k in specs && colour[k] == Black)
      && (forall loop :: loop in cycles ==> IsLoop(specs, loop))
      && (forall a, b :: Delegates(specs, a, b) && colour[a] == Black ==> colour[b] != White)
      && DelegatesFirst(specs, finished, cycles)
    }

    /** Grey agents are exactly the ones on the current path. */
    ghost predicate GreyPath(path: seq<string>)
      reads this
    {
      forall k :: k in colour ==> (colour[k] == Grey <==> k in path)
    }

    /** Ends a visit: everything `key` delegates to has been explored. */
    method Leave(key: string, path: seq<string>)
      requires Valid() && |path| >= 1 && path[|path| - 1] == key && Distinct(path) && GreyPath(path)
      requires key in specs && forall j :: 0 <= j < |specs[key]| && specs[key][j] in specs ==> Explored(colour, cycles, key, specs[key][j])
      modifies `colour, `finished
      ensures Valid() && colour == old(colour)[key := Black]
      ensures GreyPath(path[..|path| - 1])
    {
      hide IsLoop;
      assert path == path[..|path| - 1] + [key];
      assert forall t :: Delegates(specs, key, t) ==> Explored(colour, cycles, key, t);
      DelegatesFirstGrows(specs, finished, cycles, key);
      hide DelegatesFirst, Delegates;
      colour := colour[key := Black];
      finished := finished + [key];
    }

    /** Starts a visit: `key` joins the current path. */
    method Enter(key: string, path: seq<string>)
      requires Valid() && key in specs && colour[key] == White
      requires |path| >= 1 && path[|path| - 1] == key && GreyPath(path[..|path| - 1])
      modifies `colour
      ensures Valid() && colour == old(colour)[key := Grey] && GreyPath(path)
      ensures Whites(colour) < old(Whites(colour))
    {
      assert path == path[..|path| - 1] + [key];
      colour := colour[key := Grey];
      assert key in old(Whites(colour)) && key !in Whites(colour);
    }

    /** Reports the loop closed by a delegation to a grey agent. */
    method Report(key: string, path: seq<string>, target: string)
      requires Valid() && IsWalk(specs, path) && path[|path| - 1] == key
      requires target in path && Delegates(specs, key, target)
      modifies `cycles
      ensures Valid() && cycles == old(cycles) + {LoopAt(key, path, target)} && Closes(cycles, key, target)
    {
      LoopIsReal(specs, path, target);
      ReportKeeps(specs, finished, cycles, LoopAt(key, path, target));
      cycles := cycles + {LoopAt(key, path, target)};
    }

    /** Since then colours only darkened, and reported loops stayed reported. */
    twostate predicate OnlyDarkens()
      reads this
    {
      Darkens(old(colour), colour) && old(cycles) <= cycles
    }

    /** Follows one delegation of `key`: reports a loop, descends, or does nothing. */
    method Follow(key: string, path: seq<string>, target: string)
      requires Valid() && IsWalk(specs, path) && Distinct(path) && path[|path| - 1] == key
      requires Delegates(specs, key, target) && GreyPath(path)
      modifies this
      ensures Valid() && GreyPath(path) && Explored(colour, cycles, key, target) && OnlyDarkens()
      decreases Whites(colour), 1
    {
      if colour[target] == Grey {
        Report(key, path, target);
      } else if colour[target] == White {
        ExtendWalk(specs, path, target);
        assert (path + [target])[..|path|] == path;
        Visit(target, path + [target]);
      }
    }

    /** Explores everything below `key`; `path` is the walk that led to it. */
    method Visit(key: string, path: seq<string>)
      requires Valid() && key in specs && colour[key] == White
      requires IsWalk(specs, path) && Distinct(path) && path[|path| - 1] == key
      requires GreyPath(path[..|path| - 1])
      modifies this
      ensures Valid() && colour[key] == Black
      ensures GreyPath(path[..|path| - 1]) && OnlyDarkens()
      decreases Whites(colour), 0
    {
      assert |path| >= 1 && key in colour;
      hide Valid, IsWalk, Distinct, GreyPath;
      Enter(key, path);
      assert Darkens(colour, colour);
      hide Whites, Darkens, Explored;
      ghost var entered := colour;
      var targets := specs[key];
      for i := 0 to |targets|
        invariant Valid() && GreyPath(path) && Darkens(entered, colour) && old(cycles) <= cycles
        invariant forall j :: 0 <= j < i && targets[j] in specs ==> Explored(colour, cycles, key, targets[j])
      {
        if targets[i] in specs {
          DarkensTwice(entered, entered, colour);
          ghost var before, was := colour, cycles;
          Follow(key, path, targets[i]);
          DarkensTwice(entered, before, colour);
          forall j | 0 <= j < i && targets[j] in specs
            ensures Explored(colour, cycles, key, targets[j])
          {
            ExploredStays(before, was, colour, cycles, key, targets[j]);
          }
        }
      }
      VisitDarkens(old(colour), colour, key);
      Leave(key, path);
    }

    /** Visits every agent in dictionary order and leaves the loops in `cycles`. */
    method FindCycles(keys: seq<string>) returns (ghost order: seq<string>)
      requires Valid() && cycles == {} && ToSet(keys) == specs.Keys
      requires forall k :: k in specs ==> colour[k] == White
      modifies this
      ensures forall loop :: loop in cycles ==> IsLoop(specs, loop)
      ensures forall w :: IsLoop(specs, w) ==> Cut(cycles, w)
      ensures DelegationOrder(specs, order, cycles)
    {
      for i := 0 to |keys|
        invariant Valid() && GreyPath([])
        invariant forall k :: k in keys[..i] ==> colour[k] == Black
      {
        if colour[keys[i]] == White {
          Visit(keys[i], [keys[i]]);
        }
      }
      assert keys[..|keys|] == keys;
      order := finished;
      forall w | IsLoop(specs, w)
        ensures Cut(cycles, w)
      {
        EveryLoopIsCut(specs, order, cycles, w);
      }
    }
  }

  /** The delegation check of the roster. Every reported loop is one, and every closed
      walk uses a delegation that closes a reported loop: with those delegations gone the
      roster has a topological order. So none is reported exactly when there is none. */
  method Validate(specs: Roster, keys: seq<string>) returns (loops: set<seq<string>>, ghost order: seq<string>)
    requires ToSet(keys) == specs.Keys
    ensures forall loop :: loop in loops ==> IsLoop(specs, loop)
    ensures forall w :: IsLoop(specs, w) ==> Cut(loops, w)
    ensures loops == {} <==> !Cyclic(specs)
    ensures DelegationOrder(specs, order, loops)
  {
    var search := new DelegationSearch(specs);
    order := search.FindCycles(keys);
    loops := search.cycles;
    NoneReportedExactly(specs, loops);
  }

  lemma NoneReportedExactly(specs: Roster, loops: set<seq<string>>)
    requires forall loop :: loop in loops ==> IsLoop(specs, loop)
    requires forall w :: IsLoop(specs, w) ==> Cut(loops, w)
    ensures loops == {} <==> !Cyclic(specs)
  {
    hide IsLoop;
    if loops != {} {
      var loop :| loop in loops;
    }
  }
}

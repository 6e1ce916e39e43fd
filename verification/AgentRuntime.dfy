/** The agent executor: a bounded tool-use loop that may delegate to other agents. */
module AgentRuntime {

  datatype AgentSpec = AgentSpec(maxIterations: int, delegatesTo: set<string>, wantsJson: bool, hasSchema: bool)

  /** A tool call the model asks for: an ordinary tool, or a delegation. */
  datatype Use = ToolCall | Delegate(target: string)

  /** How one model call goes. */
  datatype Turn =
    | Answers(cost: real, text: string)
    | WantsTools(cost: real, text: string, uses: seq<Use>)
    | OverBudget
    | Crashes

  /** Where in the tree of delegations a run stands: the turn and the use that led to
      it, from the root down. Its length is the delegation depth. */
  type Path = seq<(nat, nat)>

  /** The world: model replies by run and turn, tool costs by run, turn and use. */
  datatype World = World(
    turn: (Path, nat) -> Turn,
    toolCost: (Path, nat, nat) -> real,
    pastDeadline: (Path, nat) -> bool,
    parses: string -> bool)

  datatype AgentResult = AgentResult(
    ok: bool,
    text: string,
    iterations: nat,
    toolCalls: nat,
    cost: real,
    failed: bool)

  /** One expense, as it is incurred: the completion of a run's turn, or a tool call of
      that turn. */
  datatype Charge = CompletionOf(run: Path, turn: nat, usd: real) | ToolOf(run: Path, turn: nat, use: nat, usd: real)

  function Total(charges: seq<Charge>): real {
    if charges == [] then 0.0 else Total(charges[..|charges| - 1]) + charges[|charges| - 1].usd
  }

  lemma {:induction false} TotalOfBoth(a: seq<Charge>, b: seq<Charge>)
    ensures Total(a + b) == Total(a) + Total(b)
  {
    if b == [] {
      assert a + b == a;
    } else {
      assert (a + b)[..|a + b| - 1] == a + b[..|b| - 1];
      TotalOfBoth(a, b[..|b| - 1]);
    }
  }

  /** How many completions a run itself made. */
  function CompletionsBy(run: Path, charges: seq<Charge>): nat {
    if charges == [] then 0
    else
      var last := charges[|charges| - 1];
      CompletionsBy(run, charges[..|charges| - 1]) + if last.CompletionOf? && last.run == run then 1 else 0
  }

  lemma {:induction false} CompletionsOfBoth(run: Path, a: seq<Charge>, b: seq<Charge>)
    ensures CompletionsBy(run, a + b) == CompletionsBy(run, a) + CompletionsBy(run, b)
  {
    if b == [] {
      assert a + b == a;
    } else {
      assert (a + b)[..|a + b| - 1] == a + b[..|b| - 1];
      CompletionsOfBoth(run, a, b[..|b| - 1]);
    }
  }

  /** Every expense was made at or below `run`, and below the depth limit. */
  ghost predicate Within(run: Path, maxDepth: int, charges: seq<Charge>) {
    forall i :: 0 <= i < |charges| ==> run <= charges[i].run && Allowed(charges[i].run, maxDepth)
  }

  /** The root always runs; a delegated run must stay above the depth limit. */
  predicate Allowed(run: Path, maxDepth: int) {
    run == [] || |run| < maxDepth
  }

  /** Work of a delegated run, seen from the run that delegated it. */
  lemma SeenFromAbove(run: Path, at: (nat, nat), maxDepth: int, charges: seq<Charge>)
    requires Within(run + [at], maxDepth, charges)
    ensures Within(run, maxDepth, charges) && CompletionsBy(run, charges) == 0
  {
    forall i | 0 <= i < |charges|
      ensures run <= charges[i].run && charges[i].run != run
    {
      assert run + [at] <= charges[i].run;
    }
    NoneBySubruns(run, charges);
  }

  lemma {:induction false} NoneBySubruns(run: Path, charges: seq<Charge>)
    requires forall i :: 0 <= i < |charges| ==> charges[i].run != run
    ensures CompletionsBy(run, charges) == 0
  {
    if charges != [] {
      NoneBySubruns(run, charges[..|charges| - 1]);
    }
  }

  lemma OneCharge(c: Charge, maxDepth: int)
    requires Allowed(c.run, maxDepth)
    ensures Within(c.run, maxDepth, [c])
    ensures Total([c]) == c.usd && CompletionsBy(c.run, [c]) == if c.CompletionOf? then 1 else 0
  {
    assert [c][..0] == [];
  }

  lemma NoCharge(run: Path, maxDepth: int)
    ensures Within(run, maxDepth, []) && Total([]) == 0.0 && CompletionsBy(run, []) == 0
  {
  }

  /** The result of some turns against the one they started from: what they cost is
      what was charged, and a success took a completion. */
  ghost predicate Accounts(path: Path, maxDepth: int, sofar: AgentResult, o: Outcome) {
    && o.result.cost == sofar.cost + Total(o.charges)
    && Within(path, maxDepth, o.charges)
    && (o.result.ok ==> !o.result.failed && CompletionsBy(path, o.charges) >= 1)
  }

  function AtLeastZero(n: int): nat {
    if n > 0 then n else 0
  }

  /** What a run, or a part of one, comes to: its result and every expense in its tree. */
  datatype Outcome = Outcome(result: AgentResult, charges: seq<Charge>)

  datatype Spent = Spent(cost: real, charges: seq<Charge>)

  class AgentRuntime {
    const agents: map<string, AgentSpec>
    const maxDepth: int
    const world: World
    ghost var ledger: seq<Charge>

    constructor (agents: map<string, AgentSpec>, maxDepth: int, world: World)
      ensures this.agents == agents && this.maxDepth == maxDepth && this.world == world && ledger == []
    {
      this.agents, this.maxDepth, this.world, ledger := agents, maxDepth, world, [];
    }

    /** A known agent of a validated roster, at a depth where it may run. */
    ghost predicate CanRun(agent: string, path: Path) {
      && (forall a, t :: a in agents && t in agents[a].delegatesTo ==> t in agents)
      && agent in agents && Allowed(path, maxDepth)
    }

    predicate MayDelegate(agent: string, path: Path, target: string)
      requires agent in agents
    {
      target in agents[agent].delegatesTo && |path| + 1 < maxDepth
    }

    // ---------- what a run should come to ----------

    function Begun(): AgentResult {
      AgentResult(false, "", 0, 0, 0.0, false)
    }

    /** The final text, accepted unless a required structure does not parse. */
    function Conclude(spec: AgentSpec, result: AgentResult, text: string): AgentResult {
      result.(text := text, ok := !(spec.wantsJson && spec.hasSchema && !world.parses(text)))
    }

    function RunOf(agent: string, path: Path): Outcome
      requires CanRun(agent, path)
      decreases maxDepth - |path|, 2, 0
    {
      TurnsOf(agent, path, 1, Begun())
    }

    /** The turns of a run from number `iteration` on. */
    function TurnsOf(agent: string, path: Path, iteration: nat, sofar: AgentResult): Outcome
      requires CanRun(agent, path)
      decreases maxDepth - |path|, 1, AtLeastZero(agents[agent].maxIterations - iteration + 1)
    {
      var spec := agents[agent];
      if iteration > spec.maxIterations then LastWord(spec, path, iteration, sofar)
      else
        var result := sofar.(iterations := iteration);
        if world.pastDeadline(path, iteration) then Outcome(result, [])
        else
          match world.turn(path, iteration)
          case Answers(cost, text) =>
            Outcome(Conclude(spec, result.(cost := result.cost + cost), text), [CompletionOf(path, iteration, cost)])
          case WantsTools(cost, _, uses) =>
            var tools := ToolsOf(agent, path, iteration, uses);
            var rest := TurnsOf(agent, path, iteration + 1,
                                result.(cost := result.cost + cost + tools.cost, toolCalls := result.toolCalls + |uses|));
            Outcome(rest.result, [CompletionOf(path, iteration, cost)] + (tools.charges + rest.charges))
          case _ => Outcome(result.(failed := true), [])
    }

    /** Every turn used without an answer: one more completion asks for it. */
    function LastWord(spec: AgentSpec, path: Path, iteration: nat, sofar: AgentResult): Outcome {
      match world.turn(path, iteration)
      case OverBudget => Outcome(sofar.(failed := true), [])
      case Crashes => Outcome(sofar.(failed := true), [])
      case reply =>
        var result := sofar.(cost := sofar.cost + reply.cost);
        Outcome(if reply.text != "" then Conclude(spec, result, reply.text) else result, [CompletionOf(path, iteration, reply.cost)])
    }

    /** The tool calls of one turn, delegated runs and all. */
    function ToolsOf(agent: string, path: Path, iteration: nat, uses: seq<Use>): Spent
      requires CanRun(agent, path)
      decreases maxDepth - |path|, 0, |uses|
    {
      if uses == [] then Spent(0.0, [])
      else
        var last := |uses| - 1;
        var before := ToolsOf(agent, path, iteration, uses[..last]);
        match uses[last]
        case ToolCall =>
          var usd := world.toolCost(path, iteration, last);
          Spent(before.cost + usd, before.charges + [ToolOf(path, iteration, last, usd)])
        case Delegate(target) =>
          if MayDelegate(agent, path, target) then
            var sub := RunOf(target, path + [(iteration, last)]);
            Spent(before.cost + sub.result.cost, before.charges + sub.charges)
          else before
    }

    // ---------- what that means ----------

    /** The expenses of a run are what it reports, made at or below it and above the
        depth limit, and the run itself completes at most once per turn and once more.
        For the root this is its whole tree: no agent anywhere spends unreported money. */
    lemma {:induction false} RunAccounts(agent: string, path: Path)
      requires CanRun(agent, path)
      ensures var o := RunOf(agent, path);
              && o.result.cost == Total(o.charges)
              && Within(path, maxDepth, o.charges)
              && (forall c :: c in o.charges ==> path <= c.run && (c.run == [] || |c.run| < maxDepth))
              && CompletionsBy(path, o.charges) <= AtLeastZero(agents[agent].maxIterations) + 1
              && o.result.iterations <= AtLeastZero(agents[agent].maxIterations)
              && (o.result.ok ==> !o.result.failed && CompletionsBy(path, o.charges) >= 1)
      decreases maxDepth - |path|, 2, 0
    {
      TurnsAccount(agent, path, 1, Begun());
    }

    lemma {:induction false} TurnsAccount(agent: string, path: Path, iteration: nat, sofar: AgentResult)
      requires CanRun(agent, path) && !sofar.ok && !sofar.failed
      requires 1 <= iteration <= AtLeastZero(agents[agent].maxIterations) + 1 && sofar.iterations < iteration
      ensures var o := TurnsOf(agent, path, iteration, sofar);
              && Accounts(path, maxDepth, sofar, o)
              && CompletionsBy(path, o.charges) <= AtLeastZero(agents[agent].maxIterations) + 2 - iteration
              && o.result.iterations <= AtLeastZero(agents[agent].maxIterations)
      decreases maxDepth - |path|, 1, AtLeastZero(agents[agent].maxIterations - iteration + 1)
    {
      hide RunOf, ToolsOf, LastWord, Conclude, Within, Total, CompletionsBy;
      var spec, turn := agents[agent], world.turn(path, iteration);
      NoCharge(path, maxDepth);
      if iteration > spec.maxIterations {
        LastWordAccounts(spec, path, iteration, sofar);
      } else if !world.pastDeadline(path, iteration) && turn.Answers? {
        OneCharge(CompletionOf(path, iteration, turn.cost), maxDepth);
        ConcludeKeeps(spec, sofar.(iterations := iteration, cost := sofar.cost + turn.cost), turn.text);
      } else if !world.pastDeadline(path, iteration) && turn.WantsTools? {
        OneCharge(CompletionOf(path, iteration, turn.cost), maxDepth);
        var tools := ToolsOf(agent, path, iteration, turn.uses);
        var next := sofar.(iterations := iteration, cost := sofar.cost + turn.cost + tools.cost,
                           toolCalls := sofar.toolCalls + |turn.uses|);
        ToolsAccount(agent, path, iteration, turn.uses);
        TurnsAccount(agent, path, iteration + 1, next);
        var rest := TurnsOf(agent, path, iteration + 1, next);
        JoinCharges(path, maxDepth, tools.charges, rest.charges);
        JoinCharges(path, maxDepth, [CompletionOf(path, iteration, turn.cost)], tools.charges + rest.charges);
      }
    }

    lemma ConcludeKeeps(spec: AgentSpec, result: AgentResult, text: string)
      ensures var done := Conclude(spec, result, text);
              done.cost == result.cost && done.iterations == result.iterations && done.failed == result.failed
    {
    }

    lemma LastWordAccounts(spec: AgentSpec, path: Path, iteration: nat, sofar: AgentResult)
      requires Allowed(path, maxDepth) && !sofar.ok && !sofar.failed
      ensures var o := LastWord(spec, path, iteration, sofar);
              && Accounts(path, maxDepth, sofar, o)
              && CompletionsBy(path, o.charges) <= 1 && o.result.iterations == sofar.iterations
    {
      hide Conclude, Within, Total, CompletionsBy;
      NoCharge(path, maxDepth);
      var reply := world.turn(path, iteration);
      if reply.Answers? || reply.WantsTools? {
        OneCharge(CompletionOf(path, iteration, reply.cost), maxDepth);
        ConcludeKeeps(spec, sofar.(cost := sofar.cost + reply.cost), reply.text);
      }
    }

    lemma {:induction false} ToolsAccount(agent: string, path: Path, iteration: nat, uses: seq<Use>)
      requires CanRun(agent, path)
      ensures var t := ToolsOf(agent, path, iteration, uses);
              t.cost == Total(t.charges) && Within(path, maxDepth, t.charges) && CompletionsBy(path, t.charges) == 0
      decreases maxDepth - |path|, 0, |uses|
    {
      if uses != [] {
        var last := |uses| - 1;
        ToolsAccount(agent, path, iteration, uses[..last]);
        var before := ToolsOf(agent, path, iteration, uses[..last]);
        match uses[last] {
          case ToolCall =>
            var c := ToolOf(path, iteration, last, world.toolCost(path, iteration, last));
            OneCharge(c, maxDepth);
            JoinCharges(path, maxDepth, before.charges, [c]);
          case Delegate(target) =>
            if MayDelegate(agent, path, target) {
              var below := path + [(iteration, last)];
              RunAccounts(target, below);
              var charges := RunOf(target, below).charges;
              SeenFromAbove(path, (iteration, last), maxDepth, charges);
              JoinCharges(path, maxDepth, before.charges, charges);
            }
        }
      }
    }

    static lemma JoinCharges(path: Path, maxDepth: int, a: seq<Charge>, b: seq<Charge>)
      requires Within(path, maxDepth, a) && Within(path, maxDepth, b)
      ensures Within(path, maxDepth, a + b) && Total(a + b) == Total(a) + Total(b)
      ensures CompletionsBy(path, a + b) == CompletionsBy(path, a) + CompletionsBy(path, b)
    {
      TotalOfBoth(a, b);
      CompletionsOfBoth(path, a, b);
    }

    // ---------- which expenses there are, told from the world alone ----------

    /** Turn `n` of a run comes up: all turns before it came in time and wanted tools. The
        one after the last asks for a final answer. */
    ghost predicate TurnReached(agent: string, path: Path, n: nat)
      requires agent in agents
    {
      && 1 <= n && (n <= agents[agent].maxIterations + 1 || n == 1)
      && forall m: nat :: 1 <= m < n ==> !world.pastDeadline(path, m) && world.turn(path, m).WantsTools?
    }

    /** A turn within the bound that comes in time and wants tools. */
    ghost predicate UsesTools(agent: string, path: Path, n: nat)
      requires agent in agents
    {
      TurnReached(agent, path, n) && n <= agents[agent].maxIterations && !world.pastDeadline(path, n) && world.turn(path, n).WantsTools?
    }

    /** The use of a turn that hands work to another agent, and may. */
    ghost predicate Delegates(agent: string, path: Path, n: nat, i: nat)
      requires agent in agents
    {
      && UsesTools(agent, path, n) && i < |world.turn(path, n).uses| && world.turn(path, n).uses[i].Delegate?
      && world.turn(path, n).uses[i].target in agents[agent].delegatesTo && |path| + 1 < maxDepth
      && world.turn(path, n).uses[i].target in agents
    }

    /** The completion of a turn that comes up, and each ordinary tool call it makes. */
    ghost predicate IncursItself(agent: string, path: Path, c: Charge)
      requires agent in agents
    {
      var turn := world.turn(path, c.turn);
      && c.run == path && TurnReached(agent, path, c.turn)
      && if c.CompletionOf? then
           && (c.turn <= agents[agent].maxIterations ==> !world.pastDeadline(path, c.turn))
           && (turn.Answers? || turn.WantsTools?) && c.usd == turn.cost
         else
           && UsesTools(agent, path, c.turn) && c.use < |turn.uses| && turn.uses[c.use].ToolCall?
           && c.usd == world.toolCost(path, c.turn, c.use)
    }

    /** An expense somewhere in the tree of a run: its own, or in the tree of a run it
        delegates to. */
    ghost predicate Incurs(agent: string, path: Path, c: Charge)
      requires agent in agents
      decreases |c.run| - |path|
    {
      if |c.run| <= |path| then IncursItself(agent, path, c)
      else
        && path <= c.run
        && var (n, i) := c.run[|path|];
           Delegates(agent, path, n, i) && Incurs(world.turn(path, n).uses[i].target, path + [(n, i)], c)
    }

    /** The turn and, but for completions, the use of the run at `path` an expense belongs to. */
    function TurnFor(path: Path, c: Charge): nat {
      if |c.run| <= |path| then c.turn else c.run[|path|].0
    }

    ghost predicate OfUse(path: Path, n: nat, k: nat, c: Charge) {
      TurnFor(path, c) == n && if |c.run| > |path| then c.run[|path|].1 < k else c.ToolOf? && c.use < k
    }

    static ghost predicate Once(charges: seq<Charge>) {
      forall i, j :: 0 <= i < j < |charges| ==> charges[i] != charges[j]
    }

    static lemma OnceEach(a: seq<Charge>, b: seq<Charge>)
      requires Once(a) && Once(b) && forall c :: c in a ==> c !in b
      ensures Once(a + b)
    {
      forall i, j | 0 <= i < j < |a + b|
        ensures (a + b)[i] != (a + b)[j]
      {
        if i < |a| <= j {
          assert (a + b)[i] in a && (a + b)[j] in b;
        }
      }
    }

    lemma {:induction false} IncursBelow(agent: string, path: Path, c: Charge)
      requires agent in agents && Incurs(agent, path, c)
      ensures path <= c.run
      decreases |c.run| - |path|
    {
    }

    /** A run's own turns end the run or lead to the next one. */
    lemma TurnLeads(agent: string, path: Path, n: nat)
      requires agent in agents && TurnReached(agent, path, n)
      ensures UsesTools(agent, path, n) <==> n <= agents[agent].maxIterations && TurnReached(agent, path, n + 1)
      ensures !UsesTools(agent, path, n) ==> forall m: nat :: m > n ==> !TurnReached(agent, path, m)
      ensures forall m: nat :: m < n && TurnReached(agent, path, m) ==> UsesTools(agent, path, m)
    {
    }

    lemma LaterCharges(agent: string, path: Path, n: nat, c: Charge)
      requires agent in agents && TurnReached(agent, path, n) && Incurs(agent, path, c)
      ensures TurnFor(path, c) > n ==> UsesTools(agent, path, n)
      ensures TurnFor(path, c) == n && !UsesTools(agent, path, n) ==> c.CompletionOf? && c.run == path
      ensures TurnReached(agent, path, TurnFor(path, c))
    {
      TurnLeads(agent, path, n);
      hide TurnReached;
      if |c.run| > |path| {
        assert Delegates(agent, path, c.run[|path|].0, c.run[|path|].1);
      }
    }

    /** The expenses in the tree of a run are exactly those the world has for it, each once:
        the completions of the turns that come up and the ordinary tool calls they make, in
        every run that a chain of permitted delegations leads to. */
    lemma {:induction false} RunCharges(agent: string, path: Path)
      requires CanRun(agent, path)
      ensures var charges := RunOf(agent, path).charges;
              Once(charges) && forall c :: c in charges <==> Incurs(agent, path, c)
      decreases maxDepth - |path|, 2, 0
    {
      TurnCharges(agent, path, 1, Begun());
      forall c | Incurs(agent, path, c)
        ensures TurnFor(path, c) >= 1
      {
        LaterCharges(agent, path, 1, c);
      }
    }

    lemma {:induction false} TurnCharges(agent: string, path: Path, n: nat, sofar: AgentResult)
      requires CanRun(agent, path) && TurnReached(agent, path, n)
      ensures var charges := TurnsOf(agent, path, n, sofar).charges;
              Once(charges) && forall c :: c in charges <==> Incurs(agent, path, c) && TurnFor(path, c) >= n
      decreases maxDepth - |path|, 1, AtLeastZero(agents[agent].maxIterations - n + 1)
    {
      hide RunOf, ToolsOf, Conclude;
      var charges := TurnsOf(agent, path, n, sofar).charges;
      TurnLeads(agent, path, n);
      if UsesTools(agent, path, n) {
        var turn := world.turn(path, n);
        var tools, own := ToolsOf(agent, path, n, turn.uses), CompletionOf(path, n, turn.cost);
        var next := sofar.(iterations := n, cost := sofar.cost + turn.cost + tools.cost, toolCalls := sofar.toolCalls + |turn.uses|);
        assert turn.uses[..|turn.uses|] == turn.uses;
        ToolCharges(agent, path, n, turn.uses);
        TurnCharges(agent, path, n + 1, next);
        var rest := TurnsOf(agent, path, n + 1, next).charges;
        assert charges == [own] + (tools.charges + rest);
        WholeTurn(agent, path, n, own, tools.charges, rest);
      } else {
        LastTurn(agent, path, n, sofar);
      }
    }

    lemma WholeTurn(agent: string, path: Path, n: nat, own: Charge, tools: seq<Charge>, rest: seq<Charge>)
      requires agent in agents && UsesTools(agent, path, n) && own == CompletionOf(path, n, world.turn(path, n).cost)
      requires Once(tools) && forall c :: c in tools <==> Incurs(agent, path, c) && OfUse(path, n, |world.turn(path, n).uses|, c)
      requires Once(rest) && forall c :: c in rest <==> Incurs(agent, path, c) && TurnFor(path, c) >= n + 1
      ensures Once([own] + (tools + rest))
      ensures forall c :: c in [own] + (tools + rest) <==> Incurs(agent, path, c) && TurnFor(path, c) >= n
    {
      OnceEach(tools, rest);
      OnceEach([own], tools + rest);
      forall c
        ensures Incurs(agent, path, c) && TurnFor(path, c) == n <==>
                c == own || (Incurs(agent, path, c) && OfUse(path, n, |world.turn(path, n).uses|, c))
      {
        OfOneTurn(agent, path, n, c);
      }
    }

    lemma OfOneTurn(agent: string, path: Path, n: nat, c: Charge)
      requires agent in agents && UsesTools(agent, path, n)
      ensures Incurs(agent, path, c) && TurnFor(path, c) == n <==>
              || c == CompletionOf(path, n, world.turn(path, n).cost)
              || (Incurs(agent, path, c) && OfUse(path, n, |world.turn(path, n).uses|, c))
    {
      hide TurnReached;
    }

    /** A turn that does not go on: its completion, if there is one, is all that is left. */
    lemma LastTurn(agent: string, path: Path, n: nat, sofar: AgentResult)
      requires CanRun(agent, path) && TurnReached(agent, path, n) && !UsesTools(agent, path, n)
      ensures var charges := TurnsOf(agent, path, n, sofar).charges;
              Once(charges) && forall c :: c in charges <==> Incurs(agent, path, c) && TurnFor(path, c) >= n
    {
      hide RunOf, ToolsOf, Conclude;
      var charges := TurnsOf(agent, path, n, sofar).charges;
      forall c
        ensures c in charges <==> Incurs(agent, path, c) && TurnFor(path, c) >= n
      {
        if Incurs(agent, path, c) && TurnFor(path, c) >= n {
          LaterCharges(agent, path, n, c);
        }
      }
    }

    /** What a run's delegated run incurs is what the run incurs through that use. */
    lemma ThroughUse(agent: string, path: Path, n: nat, i: nat, c: Charge)
      requires agent in agents
      ensures Incurs(agent, path, c) && |c.run| > |path| && c.run[|path|] == (n, i) <==>
              Delegates(agent, path, n, i) && Incurs(world.turn(path, n).uses[i].target, path + [(n, i)], c)
    {
      if Delegates(agent, path, n, i) && Incurs(world.turn(path, n).uses[i].target, path + [(n, i)], c) {
        IncursBelow(world.turn(path, n).uses[i].target, path + [(n, i)], c);
      }
      hide TurnReached, UsesTools;
    }

    lemma {:induction false} ToolCharges(agent: string, path: Path, n: nat, uses: seq<Use>)
      requires CanRun(agent, path) && UsesTools(agent, path, n)
      requires |uses| <= |world.turn(path, n).uses| && uses == world.turn(path, n).uses[..|uses|]
      ensures var charges := ToolsOf(agent, path, n, uses).charges;
              Once(charges) && forall c :: c in charges <==> Incurs(agent, path, c) && OfUse(path, n, |uses|, c)
      decreases maxDepth - |path|, 0, |uses|
    {
      assert world.turn(path, n).WantsTools?;
      hide RunOf, ToolsOf, Incurs, UsesTools;
      if uses == [] {
        NoneOfNoUse(agent, path, n, uses);
      } else {
        hide OfUse, Once, CanRun;
        var last := |uses| - 1;
        ToolCharges(agent, path, n, uses[..last]);
        assert uses[last] == world.turn(path, n).uses[last];
        if uses[last].Delegate? && MayDelegate(agent, path, uses[last].target) {
          Trusted(agent, path, uses[last].target);
          RunCharges(uses[last].target, path + [(n, last)]);
        }
        var more := LastUse(agent, path, n, uses);
        var before := ToolsOf(agent, path, n, uses[..last]).charges;
        OneUse(agent, path, n, last, more);
        OnceEach(before, more);
      }
    }

    lemma Trusted(agent: string, path: Path, target: string)
      requires CanRun(agent, path) && MayDelegate(agent, path, target)
      ensures forall at :: CanRun(target, path + [at])
    {
    }

    /** What the last of some uses adds. */
    lemma LastUse(agent: string, path: Path, n: nat, uses: seq<Use>) returns (more: seq<Charge>)
      requires CanRun(agent, path) && uses != []
      ensures ToolsOf(agent, path, n, uses).charges == ToolsOf(agent, path, n, uses[..|uses| - 1]).charges + more
      ensures var last := |uses| - 1;
              match uses[last]
              case ToolCall => more == [ToolOf(path, n, last, world.toolCost(path, n, last))]
              case Delegate(target) =>
                if MayDelegate(agent, path, target) then more == RunOf(target, path + [(n, last)]).charges else more == []
    {
      hide RunOf;
      var last := |uses| - 1;
      more := match uses[last]
        case ToolCall => [ToolOf(path, n, last, world.toolCost(path, n, last))]
        case Delegate(target) => if MayDelegate(agent, path, target) then RunOf(target, path + [(n, last)]).charges else [];
    }

    lemma NoneOfNoUse(agent: string, path: Path, n: nat, uses: seq<Use>)
      requires CanRun(agent, path) && uses == []
      ensures ToolsOf(agent, path, n, uses).charges == []
      ensures forall c :: !(Incurs(agent, path, c) && OfUse(path, n, 0, c))
    {
    }

    /** The expenses of one use of a turn. */
    lemma OneUse(agent: string, path: Path, n: nat, i: nat, charges: seq<Charge>)
      requires CanRun(agent, path) && UsesTools(agent, path, n) && i < |world.turn(path, n).uses|
      requires match world.turn(path, n).uses[i]
               case ToolCall => charges == [ToolOf(path, n, i, world.toolCost(path, n, i))]
               case Delegate(target) =>
                 if MayDelegate(agent, path, target) then
                   Once(charges) && forall c :: c in charges <==> Incurs(target, path + [(n, i)], c)
                 else charges == []
      ensures Once(charges)
      ensures forall c :: Incurs(agent, path, c) && OfUse(path, n, i + 1, c) <==>
                          (Incurs(agent, path, c) && OfUse(path, n, i, c)) || c in charges
      ensures forall c :: c in charges ==> !OfUse(path, n, i, c)
    {
      forall c
        ensures Incurs(agent, path, c) && OfUse(path, n, i + 1, c) && !OfUse(path, n, i, c) <==> c in charges
        ensures c in charges ==> !OfUse(path, n, i, c) && OfUse(path, n, i + 1, c) && Incurs(agent, path, c)
      {
        ThroughUse(agent, path, n, i, c);
        hide TurnReached, UsesTools;
      }
    }

    // ---------- how a run ends, told from the world alone ----------

    /** How many tools the turns before `n` asked for. */
    function UsesBefore(path: Path, n: nat): nat {
      if n <= 1 then 0
      else UsesBefore(path, n - 1) + if world.turn(path, n - 1).WantsTools? then |world.turn(path, n - 1).uses| else 0
    }

    /** A run ends with the first turn that does not use tools: out of time, broken off, or
        with that turn's text. An answer is accepted unless a required structure does not
        parse; a forced one must not be empty either. */
    ghost predicate EndsWithTurn(agent: string, path: Path, n: nat, r: AgentResult)
      requires agent in agents
    {
      var spec, turn := agents[agent], world.turn(path, n);
      && TurnReached(agent, path, n) && !UsesTools(agent, path, n)
      && r.toolCalls == UsesBefore(path, n)
      && r.iterations == (if n <= spec.maxIterations then n else if spec.maxIterations > 0 then spec.maxIterations else 0)
      && if n <= spec.maxIterations && world.pastDeadline(path, n) then !r.ok && !r.failed && r.text == ""
         else if turn.OverBudget? || turn.Crashes? then !r.ok && r.failed && r.text == ""
         else
           && !r.failed && r.text == turn.text
           && (r.ok <==> (n <= spec.maxIterations || turn.text != "") && (spec.wantsJson && spec.hasSchema ==> world.parses(turn.text)))
    }

    lemma {:induction false} TurnsEndRight(agent: string, path: Path, n: nat, sofar: AgentResult) returns (m: nat)
      requires CanRun(agent, path) && TurnReached(agent, path, n)
      requires !sofar.ok && !sofar.failed && sofar.text == "" && sofar.iterations == n - 1 && sofar.toolCalls == UsesBefore(path, n)
      ensures EndsWithTurn(agent, path, m, TurnsOf(agent, path, n, sofar).result)
      decreases AtLeastZero(agents[agent].maxIterations - n + 1)
    {
      hide RunOf, ToolsOf, TurnReached;
      TurnLeads(agent, path, n);
      FirstTurns(agent, path, n);
      if UsesTools(agent, path, n) {
        var turn := world.turn(path, n);
        m := TurnsEndRight(agent, path, n + 1,
                           sofar.(iterations := n, cost := sofar.cost + turn.cost + ToolsOf(agent, path, n, turn.uses).cost,
                                  toolCalls := sofar.toolCalls + |turn.uses|));
      } else {
        m := n;
      }
    }

    lemma FirstTurns(agent: string, path: Path, n: nat)
      requires agent in agents && TurnReached(agent, path, n)
      ensures n >= 1 && (n <= agents[agent].maxIterations + 1 || n == 1)
    {
    }

    /** Every run ends so. */
    lemma RunEndsRight(agent: string, path: Path) returns (n: nat)
      requires CanRun(agent, path)
      ensures EndsWithTurn(agent, path, n, RunOf(agent, path).result)
    {
      n := TurnsEndRight(agent, path, 1, Begun());
    }

    // ---------- the executor ----------

    /** Runs one agent: turn by turn, until it answers, breaks off or has no turns left. */
    method Run(agent: string, path: Path) returns (result: AgentResult)
      requires CanRun(agent, path)
      modifies this
      ensures result == RunOf(agent, path).result
      ensures ledger == old(ledger) + RunOf(agent, path).charges
      decreases maxDepth - |path|, 2
    {
      var spec := agents[agent];
      result := Begun();
      ghost var whole, done: seq<Charge> := TurnsOf(agent, path, 1, result), [];
      assert RunOf(agent, path) == whole && Continues(whole, done, whole);
      hide RunOf, ToolsOf, TurnsOf, Conclude, LastWord, Continues, CanRun;
      var iteration := 1;
      while iteration <= spec.maxIterations
        invariant 1 <= iteration <= AtLeastZero(spec.maxIterations) + 1
        invariant ledger == old(ledger) + done
        invariant Continues(whole, done, TurnsOf(agent, path, iteration, result))
        decreases spec.maxIterations - iteration
      {
        ghost var charges, here := [], TurnsOf(agent, path, iteration, result);
        var over;
        result, over, charges := TakeTurn(agent, path, iteration, result);
        if over {
          EndsWith(old(ledger), whole, done, result, charges);
          return;
        }
        GoesOn(old(ledger), whole, done, here, charges, TurnsOf(agent, path, iteration + 1, result));
        done := done + charges;
        iteration := iteration + 1;
      }
      TurnEnds(agent, path, iteration, result);
      ghost var last := LastWord(spec, path, iteration, result);
      EndsWith(old(ledger), whole, done, last.result, last.charges);
      result := ForceConclusion(spec, path, iteration, result);
    }

    /** One turn of the loop: a completion and what it asks for, unless the run is out of
        time or breaks off. */
    method TakeTurn(agent: string, path: Path, iteration: nat, sofar: AgentResult)
      returns (result: AgentResult, over: bool, ghost charges: seq<Charge>)
      requires CanRun(agent, path) && iteration <= agents[agent].maxIterations
      modifies this
      ensures ledger == old(ledger) + charges
      ensures var here := TurnsOf(agent, path, iteration, sofar);
              if over then here == Outcome(result, charges)
              else Continues(here, charges, TurnsOf(agent, path, iteration + 1, result))
      decreases maxDepth - |path|, 1
    {
      TurnEnds(agent, path, iteration, sofar);
      hide RunOf, ToolsOf, TurnsOf, Conclude;
      over, charges := true, [];
      result := sofar.(iterations := iteration);
      if world.pastDeadline(path, iteration) {
        return;
      }
      match world.turn(path, iteration) {
        case Answers(cost, text) =>
          charges := [CompletionOf(path, iteration, cost)];
          ledger := ledger + [CompletionOf(path, iteration, cost)];
          result := Conclude(agents[agent], result.(cost := result.cost + cost), text);
        case WantsTools(cost, _, uses) =>
          TurnContinues(agent, path, iteration, sofar);
          charges := [CompletionOf(path, iteration, cost)] + ToolsOf(agent, path, iteration, uses).charges;
          ledger := ledger + [CompletionOf(path, iteration, cost)];
          var calls, toolCost := RunTools(agent, path, iteration, uses);
          result := result.(cost := result.cost + cost + toolCost, toolCalls := result.toolCalls + calls);
          over := false;
        case _ =>
          result := result.(failed := true);
      }
    }

    /** Asks for a final answer after the last turn. */
    method ForceConclusion(spec: AgentSpec, path: Path, iteration: nat, sofar: AgentResult) returns (result: AgentResult)
      modifies this
      ensures result == LastWord(spec, path, iteration, sofar).result
      ensures ledger == old(ledger) + LastWord(spec, path, iteration, sofar).charges
    {
      result := sofar;
      match world.turn(path, iteration) {
        case OverBudget =>
          result := result.(failed := true);
        case Crashes =>
          result := result.(failed := true);
        case reply =>
          ledger := ledger + [CompletionOf(path, iteration, reply.cost)];
          result := result.(cost := result.cost + reply.cost);
          if reply.text != "" {
            result := Conclude(spec, result, reply.text);
          }
      }
    }

    /** What a run comes to when it ends with this turn. */
    lemma TurnEnds(agent: string, path: Path, iteration: nat, sofar: AgentResult)
      requires CanRun(agent, path)
      ensures var spec, turn := agents[agent], world.turn(path, iteration);
              var here, o := sofar.(iterations := iteration), TurnsOf(agent, path, iteration, sofar);
              if iteration > spec.maxIterations then o == LastWord(spec, path, iteration, sofar)
              else if world.pastDeadline(path, iteration) then o == Outcome(here, [])
              else if turn.Answers? then
                o == Outcome(Conclude(spec, here.(cost := here.cost + turn.cost), turn.text), [CompletionOf(path, iteration, turn.cost)])
              else
                turn.WantsTools? || o == Outcome(here.(failed := true), [])
    {
      hide RunOf, ToolsOf, Conclude, LastWord;
    }

    /** What is left of a run when it goes on after this turn. */
    lemma TurnContinues(agent: string, path: Path, iteration: nat, sofar: AgentResult)
      requires CanRun(agent, path) && iteration <= agents[agent].maxIterations
      requires !world.pastDeadline(path, iteration) && world.turn(path, iteration).WantsTools?
      ensures var turn := world.turn(path, iteration);
              var tools := ToolsOf(agent, path, iteration, turn.uses);
              Continues(TurnsOf(agent, path, iteration, sofar), [CompletionOf(path, iteration, turn.cost)] + tools.charges,
                        TurnsOf(agent, path, iteration + 1,
                                sofar.(iterations := iteration, cost := sofar.cost + turn.cost + tools.cost,
                                       toolCalls := sofar.toolCalls + |turn.uses|)))
    {
      hide RunOf, ToolsOf, Conclude, LastWord;
    }

    /** `rest` is what is left of `whole` once the expenses `done` have been made. */
    static ghost predicate Continues(whole: Outcome, done: seq<Charge>, rest: Outcome) {
      whole.result == rest.result && whole.charges == done + rest.charges
    }

    static lemma GoesOn(before: seq<Charge>, whole: Outcome, done: seq<Charge>, here: Outcome, charges: seq<Charge>, rest: Outcome)
      requires Continues(whole, done, here) && Continues(here, charges, rest)
      ensures Continues(whole, done + charges, rest)
      ensures before + done + charges == before + (done + charges)
    {
    }

    static lemma EndsWith(before: seq<Charge>, whole: Outcome, done: seq<Charge>, result: AgentResult, charges: seq<Charge>)
      requires Continues(whole, done, Outcome(result, charges))
      ensures whole.result == result && before + done + charges == before + whole.charges
    {
    }

    /** Runs the tool calls of one turn. */
    method RunTools(agent: string, path: Path, iteration: nat, uses: seq<Use>) returns (calls: nat, cost: real)
      requires CanRun(agent, path)
      modifies this
      ensures calls == |uses| && cost == ToolsOf(agent, path, iteration, uses).cost
      ensures ledger == old(ledger) + ToolsOf(agent, path, iteration, uses).charges
      decreases maxDepth - |path|, 0
    {
      hide RunOf;
      calls, cost := 0, 0.0;
      for i := 0 to |uses|
        invariant calls == i && cost == ToolsOf(agent, path, iteration, uses[..i]).cost
        invariant ledger == old(ledger) + ToolsOf(agent, path, iteration, uses[..i]).charges
      {
        assert uses[..i + 1][..i] == uses[..i];
        calls := calls + 1;
        match uses[i] {
          case ToolCall =>
            var usd := world.toolCost(path, iteration, i);
            ledger := ledger + [ToolOf(path, iteration, i, usd)];
            cost := cost + usd;
          case Delegate(target) =>
            if MayDelegate(agent, path, target) {
              var sub := Run(target, path + [(iteration, i)]);
              cost := cost + sub.cost;
            }
        }
      }
      assert uses[..|uses|] == uses;
    }
  }
}

/** The spend guard: checked before a model call, updated after it, shared by calls in flight. */
module SpendGuard {
  import opened Common

  datatype BudgetExceeded = RunBudget | OrgBudget

  predicate Passes(spent: real, runLimit: real, orgRemaining: real, projected: real) {
    spent + projected <= runLimit && projected <= orgRemaining
  }

  class Guard {
    const runLimit: real
    var orgRemaining: real
    var spent: real

    constructor (runLimit: real, orgRemaining: real)
      ensures this.runLimit == runLimit && this.orgRemaining == orgRemaining && spent == 0.0
    {
      this.runLimit, this.orgRemaining, spent := runLimit, orgRemaining, 0.0;
    }

    method Check(projected: real) returns (r: Result<(), BudgetExceeded>)
      ensures r.Ok? <==> Passes(spent, runLimit, orgRemaining, projected)
      ensures r == Err(OrgBudget) <==> spent + projected <= runLimit && projected > orgRemaining
      ensures r == Err(RunBudget) <==> spent + projected > runLimit
    {
      if spent + projected > runLimit {
        return Err(RunBudget);
      }
      if projected > orgRemaining {
        return Err(OrgBudget);
      }
      return Ok(());
    }

    method Record(usd: real)
      modifies this
      ensures spent == old(spent) + usd && orgRemaining == old(orgRemaining) - usd
    {
      spent := spent + usd;
      orgRemaining := orgRemaining - usd;
    }
  }

  // ---------- one model call ----------

  /** One request to a provider. */
  datatype Reply = Answered(usd: real) | RateLimited | ProviderError

  /** How a provider's attempts end: the first answer before a rate limit and within the attempts. */
  function Attempts(replies: nat -> Reply, attempt: nat, maxAttempts: nat): Option<real>
    decreases maxAttempts - attempt
  {
    if attempt >= maxAttempts then None
    else
      match replies(attempt)
      case Answered(usd) => Some(usd)
      case RateLimited => None
      case ProviderError => Attempts(replies, attempt + 1, maxAttempts)
  }

  /** The first provider, in order, that answers. */
  function FirstAnswer(providers: seq<string>, replies: (string, nat) -> Reply, maxAttempts: nat): Option<(string, real)> {
    if providers == [] then None
    else
      var usd := Attempts((n: nat) => replies(providers[0], n), 0, maxAttempts);
      if usd.Some? then Some((providers[0], usd.value)) else FirstAnswer(providers[1..], replies, maxAttempts)
  }

  /** Provider `p` answers at attempt `k`, after nothing but provider errors. */
  ghost predicate AnswersAt(replies: (string, nat) -> Reply, p: string, k: nat, usd: real) {
    replies(p, k) == Answered(usd) && forall n: nat :: n < k ==> replies(p, n) == ProviderError
  }

  ghost predicate NeverAnswers(replies: (string, nat) -> Reply, p: string, maxAttempts: nat) {
    forall k: nat, usd :: k < maxAttempts ==> !AnswersAt(replies, p, k, usd)
  }

  /** Provider number `i` answers, and those before it do not. */
  ghost predicate FirstIs(providers: seq<string>, replies: (string, nat) -> Reply, maxAttempts: nat, i: nat, usd: real) {
    && i < |providers|
    && (exists k: nat :: k < maxAttempts && AnswersAt(replies, providers[i], k, usd))
    && forall j :: 0 <= j < i ==> NeverAnswers(replies, providers[j], maxAttempts)
  }

  /** The answer is that of the first provider that gets one out within its attempts, with
      no rate limit before it; there is none exactly if no provider gets one out. */
  ghost predicate AnswersRight(providers: seq<string>, replies: (string, nat) -> Reply, maxAttempts: nat, answer: Option<(string, real)>) {
    match answer
    case Some((provider, usd)) => exists i: nat :: FirstIs(providers, replies, maxAttempts, i, usd) && providers[i] == provider
    case None => forall p :: p in providers ==> NeverAnswers(replies, p, maxAttempts)
  }

  lemma {:induction false} AttemptsExactly(replies: (string, nat) -> Reply, p: string, answers: nat -> Reply, attempt: nat, maxAttempts: nat)
    requires forall n: nat :: answers(n) == replies(p, n)
    requires forall n: nat :: n < attempt ==> replies(p, n) == ProviderError
    ensures var answer := Attempts(answers, attempt, maxAttempts);
            && (answer.Some? ==> exists k: nat :: k < maxAttempts && AnswersAt(replies, p, k, answer.value))
            && (answer.None? ==> NeverAnswers(replies, p, maxAttempts))
    decreases maxAttempts - attempt
  {
    if attempt < maxAttempts {
      match replies(p, attempt)
      case Answered(usd) => assert AnswersAt(replies, p, attempt, usd);
      case RateLimited =>
      case ProviderError => AttemptsExactly(replies, p, answers, attempt + 1, maxAttempts);
    }
  }

  lemma {:induction false} FirstAnswerIsRight(providers: seq<string>, replies: (string, nat) -> Reply, maxAttempts: nat)
    ensures AnswersRight(providers, replies, maxAttempts, FirstAnswer(providers, replies, maxAttempts))
  {
    hide AnswersAt, NeverAnswers;
    if providers != [] {
      AttemptsExactly(replies, providers[0], (n: nat) => replies(providers[0], n), 0, maxAttempts);
      var rest := providers[1..];
      FirstAnswerIsRight(rest, replies, maxAttempts);
      var first := Attempts((n: nat) => replies(providers[0], n), 0, maxAttempts);
      if first.Some? {
        assert FirstIs(providers, replies, maxAttempts, 0, first.value);
      } else {
        match FirstAnswer(rest, replies, maxAttempts) {
          case Some((provider, usd)) =>
            var i: nat :| FirstIs(rest, replies, maxAttempts, i, usd) && rest[i] == provider;
            OneLater(providers, replies, maxAttempts, i, usd);
          case None =>
            assert providers == [providers[0]] + rest;
        }
      }
    }
  }

  lemma OneLater(providers: seq<string>, replies: (string, nat) -> Reply, maxAttempts: nat, i: nat, usd: real)
    requires providers != [] && NeverAnswers(replies, providers[0], maxAttempts) && FirstIs(providers[1..], replies, maxAttempts, i, usd)
    ensures FirstIs(providers, replies, maxAttempts, i + 1, usd)
  {
    hide AnswersAt, NeverAnswers;
    forall j | 0 <= j < i + 1
      ensures NeverAnswers(replies, providers[j], maxAttempts)
    {
      if j > 0 { assert NeverAnswers(replies, providers[1..][j - 1], maxAttempts); }
    }
  }

  datatype Completion = Completion(provider: string, usd: real, degraded: bool)

  /** One completion: refused before any provider is called, or answered by the first
      provider that can, or degraded. Only an answer is recorded, and only once: on the
      guard that is in the router's slot when it arrives, `later`, which need not be the
      one that was checked, for an agent that starts meanwhile puts its own there. */
  method Complete(installed: Guard?, later: Guard?, providers: seq<string>, projected: real,
                  replies: (string, nat) -> Reply, maxAttempts: nat)
    returns (r: Result<Completion, BudgetExceeded>)
    modifies later
    ensures r.Err? <==> installed != null && !old(Passes(installed.spent, installed.runLimit, installed.orgRemaining, projected))
    ensures r.Ok? ==>
              match FirstAnswer(providers, replies, maxAttempts)
              case Some((provider, usd)) =>
                r.value == Completion(provider, usd, false) &&
                (later != null ==> later.spent == old(later.spent) + usd && later.orgRemaining == old(later.orgRemaining) - usd)
              case None =>
                r.value == Completion("echo", 0.0, true) && (later != null ==> unchanged(later))
    ensures r.Err? && later != null ==> unchanged(later)
    ensures r.Err? <==> installed != null &&
                        old(installed.spent + projected > installed.runLimit || projected > installed.orgRemaining)
    ensures r.Ok? ==>
              AnswersRight(providers, replies, maxAttempts, if r.value.degraded then None else Some((r.value.provider, r.value.usd)))
  {
    FirstAnswerIsRight(providers, replies, maxAttempts);
    hide AnswersRight;
    if installed != null {
      var checked := installed.Check(projected);
      if checked.Err? {
        return Err(checked.error);
      }
    }
    for i := 0 to |providers|
      invariant later != null ==> unchanged(later)
      invariant FirstAnswer(providers, replies, maxAttempts) == FirstAnswer(providers[i..], replies, maxAttempts)
    {
      assert providers[i..][0] == providers[i] && providers[i..][1..] == providers[i + 1..];
      var answers := (n: nat) => replies(providers[i], n);
      var attempt := 0;
      while attempt < maxAttempts
        invariant (later != null ==> unchanged(later)) && attempt <= maxAttempts
        invariant Attempts(answers, 0, maxAttempts) == Attempts(answers, attempt, maxAttempts)
      {
        match answers(attempt) {
          case Answered(usd) =>
            if later != null {
              later.Record(usd);
            }
            return Ok(Completion(providers[i], usd, false));
          case RateLimited =>
            break;
          case ProviderError =>
        }
        attempt := attempt + 1;
      }
    }
    return Ok(Completion("echo", 0.0, true));
  }

  // ---------- calls in flight ----------

  /** The guard together with the projections of the calls between check and record. */
  datatype State = State(spent: real, orgRemaining: real, inFlight: seq<real>)

  datatype Action = Begin(projected: real) | End(call: nat, usd: real) | Abandon(call: nat)

  function Dropped(calls: seq<real>, i: nat): seq<real>
    requires i < |calls|
  {
    calls[..i] + calls[i + 1..]
  }

  /** At most `k` calls at once, none projected above `m`, none costing more than projected. */
  ghost predicate Next(limit: real, k: nat, m: real, s: State, a: Action, t: State) {
    match a
    case Begin(projected) =>
      && Passes(s.spent, limit, s.orgRemaining, projected)
      && 0.0 <= projected <= m && |s.inFlight| < k
      && t == s.(inFlight := s.inFlight + [projected])
    case End(call, usd) =>
      && call < |s.inFlight| && 0.0 <= usd <= s.inFlight[call]
      && t == State(s.spent + usd, s.orgRemaining - usd, Dropped(s.inFlight, call))
    case Abandon(call) =>
      && call < |s.inFlight|
      && t == s.(inFlight := Dropped(s.inFlight, call))
  }

  function Sum(xs: seq<real>): real {
    if xs == [] then 0.0 else Sum(xs[..|xs| - 1]) + xs[|xs| - 1]
  }

  lemma {:induction false} SumDropped(xs: seq<real>, i: nat)
    requires i < |xs|
    ensures Sum(Dropped(xs, i)) == Sum(xs) - xs[i]
  {
    var last := |xs| - 1;
    if i == last {
      assert Dropped(xs, i) == xs[..last];
    } else {
      SumDropped(xs[..last], i);
      var d := Dropped(xs, i);
      assert d[..|d| - 1] == Dropped(xs[..last], i) && d[|d| - 1] == xs[last];
    }
  }

  lemma {:induction false} SumBounded(xs: seq<real>, m: real)
    requires forall i :: 0 <= i < |xs| ==> 0.0 <= xs[i] <= m
    ensures 0.0 <= Sum(xs) <= |xs| as real * m
  {
    if xs != [] {
      SumBounded(xs[..|xs| - 1], m);
      assert |xs| as real * m == (|xs| - 1) as real * m + m;
    }
  }

  ghost predicate CallsWithin(calls: seq<real>, m: real) {
    forall i :: 0 <= i < |calls| ==> 0.0 <= calls[i] <= m
  }

  lemma {:induction false} CallsAreBounded(calls: seq<real>, k: nat, m: real)
    requires m >= 0.0 && |calls| <= k && CallsWithin(calls, m)
    ensures Sum(calls) <= k as real * m
  {
    if calls == [] {
      assert k as real * m >= 0.0;
    } else {
      CallsAreBounded(calls[..|calls| - 1], k - 1, m);
      assert k as real * m == (k - 1) as real * m + m;
    }
  }

  /** Spend plus what is in flight stays within the limit plus one projection per
      concurrent competitor, or within what a guard started with if that is more;
      likewise for the organisation's remainder. */
  ghost predicate Bounded(limit: real, k: nat, m: real, start: State, s: State) {
    && |s.inFlight| <= k && CallsWithin(s.inFlight, m)
    && s.spent + Sum(s.inFlight) <= MaxReal(limit + (k - 1) as real * m, start.spent + Sum(start.inFlight))
    && Sum(s.inFlight) - s.orgRemaining <= MaxReal((k - 1) as real * m, Sum(start.inFlight) - start.orgRemaining)
  }

  lemma StepKeepsBound(limit: real, k: nat, m: real, start: State, s: State, a: Action, t: State)
    requires k >= 1 && m >= 0.0 && Bounded(limit, k, m, start, s) && Next(limit, k, m, s, a, t)
    ensures Bounded(limit, k, m, start, t)
    ensures t.spent + t.orgRemaining == s.spent + s.orgRemaining
  {
    match a {
      case Begin(projected) => BeginKeepsBound(limit, k, m, start, s, projected);
      case End(call, usd) => SumDropped(s.inFlight, call);
      case Abandon(call) => SumDropped(s.inFlight, call);
    }
  }

  lemma BeginKeepsBound(limit: real, k: nat, m: real, start: State, s: State, projected: real)
    requires k >= 1 && m >= 0.0 && Bounded(limit, k, m, start, s) && |s.inFlight| < k
    requires Passes(s.spent, limit, s.orgRemaining, projected) && 0.0 <= projected <= m
    ensures Bounded(limit, k, m, start, s.(inFlight := s.inFlight + [projected]))
  {
    var calls, one := s.inFlight + [projected], (k - 1) as real * m;
    SumGrows(s.inFlight, projected);
    CallsAreBounded(s.inFlight, k - 1, m);
    hide Sum;
    assert forall i :: 0 <= i < |calls| ==> 0.0 <= calls[i] <= m;
    assert s.spent + Sum(calls) <= limit + one;
    assert Sum(calls) - s.orgRemaining <= one;
  }

  lemma SumGrows(calls: seq<real>, projected: real)
    ensures Sum(calls + [projected]) == Sum(calls) + projected
  {
    assert (calls + [projected])[..|calls|] == calls;
  }

  lemma MoreCompetitors(a: nat, b: nat, m: real)
    requires a <= b && m >= 0.0
    ensures a as real * m <= b as real * m
  {
    assert (b - a) as real * m >= 0.0;
    assert b as real * m - a as real * m == (b - a) as real * m;
  }

  /** A run of one guard. It may start with calls in flight that were checked against the
      guard before it: their cost is recorded on this one. */
  ghost predicate IsRun(limit: real, k: nat, m: real, states: seq<State>, actions: seq<Action>) {
    && |states| == |actions| + 1
    && |states[0].inFlight| <= k && CallsWithin(states[0].inFlight, m)
    && forall i :: 0 <= i < |actions| ==> Next(limit, k, m, states[i], actions[i], states[i + 1])
  }

  /** Over any run of one guard the overspend is at most one projection for every call
      but one that may be in flight at once, or what the guard inherited if that is
      more; and money is conserved. */
  lemma {:induction false} SpendIsBounded(limit: real, k: nat, m: real, states: seq<State>, actions: seq<Action>, n: nat)
    requires k >= 1 && m >= 0.0 && IsRun(limit, k, m, states, actions) && n < |states|
    ensures Bounded(limit, k, m, states[0], states[n])
    ensures states[n].spent <= MaxReal(limit + (k - 1) as real * m, states[0].spent + Sum(states[0].inFlight))
    ensures -states[n].orgRemaining <= MaxReal((k - 1) as real * m, Sum(states[0].inFlight) - states[0].orgRemaining)
    ensures states[n].spent + states[n].orgRemaining == states[0].spent + states[0].orgRemaining
  {
    if n > 0 {
      SpendIsBounded(limit, k, m, states, actions, n - 1);
      assert Next(limit, k, m, states[n - 1], actions[n - 1], states[n - 1 + 1]);
      StepKeepsBound(limit, k, m, states[0], states[n - 1], actions[n - 1], states[n]);
    }
    SumBounded(states[n].inFlight, m);
  }

  /** A new guard never spends more than its limit and one projection per competitor, nor
      more than a projection for every call in flight. */
  lemma NewGuardIsBounded(limit: real, k: nat, m: real, states: seq<State>, actions: seq<Action>, n: nat)
    requires k >= 1 && m >= 0.0 && IsRun(limit, k, m, states, actions) && n < |states|
    requires states[0].spent == 0.0 && states[0].orgRemaining >= 0.0
    ensures states[n].spent <= MaxReal(limit + (k - 1) as real * m, k as real * m)
    ensures states[n].orgRemaining >= -(k as real * m)
  {
    SpendIsBounded(limit, k, m, states, actions, n);
    hide Bounded, Next, IsRun, Sum;
    StartIsBounded(limit, k, m, states, actions);
    MoreCompetitors(k - 1, k, m);
    WithinTheLarger(limit, (k - 1) as real * m, k as real * m, Sum(states[0].inFlight), states[0].orgRemaining, states[n]);
  }

  lemma StartIsBounded(limit: real, k: nat, m: real, states: seq<State>, actions: seq<Action>)
    requires m >= 0.0 && IsRun(limit, k, m, states, actions)
    ensures |states| > 0 && Sum(states[0].inFlight) <= k as real * m
  {
    hide Next;
    CallsAreBounded(states[0].inFlight, k, m);
  }

  lemma WithinTheLarger(limit: real, one: real, all: real, sum: real, org: real, s: State)
    requires s.spent <= MaxReal(limit + one, 0.0 + sum) && -s.orgRemaining <= MaxReal(one, sum - org)
    requires one <= all && sum <= all && org >= 0.0
    ensures s.spent <= MaxReal(limit + one, all) && s.orgRemaining >= -all
  {
  }

  /** Calls made one after another under their own guard never pass the limit. */
  lemma SequentialNeverOverspends(limit: real, m: real, states: seq<State>, actions: seq<Action>, n: nat)
    requires m >= 0.0 && IsRun(limit, 1, m, states, actions) && n < |states|
    requires states[0].inFlight == [] && states[0].spent <= limit && states[0].orgRemaining >= 0.0
    ensures states[n].spent <= limit && states[n].orgRemaining >= 0.0
  {
    SpendIsBounded(limit, 1, m, states, actions, n);
  }

  function Repeat(x: real, n: nat): seq<real> {
    seq(n, i => x)
  }

  lemma ExtendRun(limit: real, k: nat, m: real, states: seq<State>, actions: seq<Action>, a: Action, t: State)
    requires IsRun(limit, k, m, states, actions) && Next(limit, k, m, states[|states| - 1], a, t)
    ensures IsRun(limit, k, m, states + [t], actions + [a])
  {
    var longer, more := states + [t], actions + [a];
    forall i | 0 <= i < |more|
      ensures Next(limit, k, m, longer[i], more[i], longer[i + 1])
    {
      if i < |actions| { assert Next(limit, k, m, states[i], actions[i], states[i + 1]); }
    }
  }

  /** `i` calls checked, none recorded; then `i` of `k` recorded. */
  function Loading(spent: real, org: real, m: real, i: nat): State {
    State(spent, org, Repeat(m, i))
  }

  function Unloading(spent: real, org: real, m: real, k: nat, i: nat): State
    requires i <= k
  {
    State(spent + i as real * m, org - i as real * m, Repeat(m, k - i))
  }

  lemma LoadOne(limit: real, org: real, m: real, k: nat, i: nat)
    requires i < k && 0.0 <= m <= org
    ensures Next(limit, k, m, Loading(limit - m, org, m, i), Begin(m), Loading(limit - m, org, m, i + 1))
  {
    assert Repeat(m, i) + [m] == Repeat(m, i + 1);
  }

  lemma UnloadOne(limit: real, spent: real, org: real, m: real, k: nat, i: nat)
    requires i < k && 0.0 <= m
    ensures Next(limit, k, m, Unloading(spent, org, m, k, i), End(0, m), Unloading(spent, org, m, k, i + 1))
  {
    assert Dropped(Repeat(m, k - i), 0) == Repeat(m, k - (i + 1));
    assert (i + 1) as real * m == i as real * m + m;
  }

  /** All `k` calls in flight are recorded, one after another. */
  lemma RecordAll(limit: real, spent: real, org: real, m: real, k: nat, before: seq<State>, past: seq<Action>)
    returns (states: seq<State>, actions: seq<Action>)
    requires m >= 0.0 && IsRun(limit, k, m, before, past) && before[|before| - 1] == Loading(spent, org, m, k)
    ensures IsRun(limit, k, m, states, actions) && states[0] == before[0]
    ensures states[|states| - 1].spent == spent + k as real * m
  {
    states, actions := before, past;
    assert Loading(spent, org, m, k) == Unloading(spent, org, m, k, 0);
    hide Next, IsRun;
    RunsAreNonempty(limit, k, m, before, past);
    for i := 0 to k
      invariant |states| >= 1 && states[0] == before[0]
      invariant IsRun(limit, k, m, states, actions)
      invariant states[|states| - 1] == Unloading(spent, org, m, k, i)
    {
      UnloadOne(limit, spent, org, m, k, i);
      ExtendRun(limit, k, m, states, actions, End(0, m), Unloading(spent, org, m, k, i + 1));
      states, actions := states + [Unloading(spent, org, m, k, i + 1)], actions + [End(0, m)];
    }
  }

  lemma RunsAreNonempty(limit: real, k: nat, m: real, states: seq<State>, actions: seq<Action>)
    requires IsRun(limit, k, m, states, actions)
    ensures |states| == |actions| + 1
  {
  }

  /** The bound is met: `k` calls that all check before any records overspend in full. */
  lemma BoundIsTight(limit: real, k: nat, m: real) returns (states: seq<State>, actions: seq<Action>)
    requires k >= 1 && 0.0 <= m <= limit
    ensures IsRun(limit, k, m, states, actions)
    ensures states[0].inFlight == [] && states[0].spent <= limit && states[0].orgRemaining >= 0.0
    ensures states[|states| - 1].spent == limit + (k - 1) as real * m
  {
    var spent := limit - m;
    states, actions := [Loading(spent, m, m, 0)], [];
    for i := 0 to k
      invariant IsRun(limit, k, m, states, actions) && states[0] == Loading(spent, m, m, 0)
      invariant states[|states| - 1] == Loading(spent, m, m, i)
    {
      hide Next, IsRun;
      RunsAreNonempty(limit, k, m, states, actions);
      LoadOne(limit, m, m, k, i);
      ExtendRun(limit, k, m, states, actions, Begin(m), Loading(spent, m, m, i + 1));
      states, actions := states + [Loading(spent, m, m, i + 1)], actions + [Begin(m)];
    }
    states, actions := RecordAll(limit, spent, m, m, k, states, actions);
    assert k as real * m == m + (k - 1) as real * m;
  }

  /** And so is the other one: a new guard whose limit is below one projection takes the
      cost of `k` calls that were checked against the guard before it. */
  lemma InheritedCallsAreTight(limit: real, org: real, k: nat, m: real) returns (states: seq<State>, actions: seq<Action>)
    requires k >= 1 && m >= 0.0
    ensures IsRun(limit, k, m, states, actions)
    ensures states[0] == State(0.0, org, Repeat(m, k)) && states[|states| - 1].spent == k as real * m
  {
    states, actions := RecordAll(limit, 0.0, org, m, k, [Loading(0.0, org, m, k)], []);
  }
}

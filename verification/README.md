# SEO platform: a verified model of its engines

Dafny models of the engines inside an autonomous SEO platform, each with proofs of the
guarantee it exists to keep. `dafny verify dfyconfig.toml` checks the whole project.

Everything behind the engines is an arbitrary answer: what a fetch returns, how a model or a
tool replies, what a clock says, whether a process dies, how a query orders equal rows. The
theorems hold for all of them. Code that updates state in place is a class or a loop proved
against a specification function or predicate, and what the platform promises is proved about
that specification.

| module | models |
|---|---|
| `Crawler` | the breadth-first crawl: frontier, seen set, batches of ten, page and depth caps, sitemap seeds, orphans |
| `MissionSpec` | validation of a mission and its grouping into waves |
| `AgentRegistry` | the three-colour search for delegation cycles |
| `Resolver` | the ladder of alternative routes and the memory of what failed |
| `MissionEngine` | one step with retries and resolver, a wave, a session |
| `SessionResults` | where a session stops, and what each of its results and saved outputs must be |
| `RunVerdict` | any sequence of crashes, stops and resumes of a run, and its final status |
| `WaveInterleaving` | the concurrent execution of a wave over one blackboard, one budget and the one spend guard the router holds |
| `AgentWave` | waves of agents with retries and of steps that use no model: exactly when their order does not show |
| `SharedGuard` | what agents that share the router's guard do to one another, on waves of particular shapes |
| `Scheduler` | leases on due schedules, and several workers sharing the table |
| `Findings` | merging a scan's findings and reconciling them with the stored rows |
| `ApprovalPolicy`, `Approvals` | who is asked, and what happens to an approval afterwards |
| `ContentLifecycle` | the content state machine and its gates |
| `SpendGuard` | check-then-record spending with calls in flight |
| `AgentRuntime` | the bounded tool loop with recursive delegation |
| `KeywordClusters`, `Scoring` | the greedy clustering; penalties under severity caps |
| `Common` | shared datatypes |

## What the proofs found

Some promises do not hold as the code stands. The model keeps the code, and each of these is a
lemma, with the exact condition where there is one.

- The resolver's documentation says a known-good route is applied immediately. The code moves
  it to the front and then sorts by (rung, fidelity), so a recall changes nothing unless two
  routes tie (`LadderIgnoresRecall`). When two tie, the memory can forget a failure. For usable
  routes no route fails twice, refused calls aside, if and only if no two routes share a key
  (`MemoryHoldsExactlyWithoutTies`).
- A safety refusal ends a resolve call before anything is recorded: n refused calls can make a
  route fail n + 1 times (`RefusalsAreForgotten`), and never more (`AtMostOneFailingRun`). With
  distinct names and keys no route ever fails twice if and only if no forbidden route, and none
  that may refuse, stands behind a route that can run (`NoRouteFailsTwiceExactly`). The ladder
  the engine builds for a step meets that condition (`NoStepRouteFailsTwice`). Over all lists of
  named routes the condition is this one and that no two routes that can run tie
  (`NothingFailsTwiceExactly`).
- `advance_schedule` clears a lock without looking at its owner. Exclusion therefore rests on
  every claimed batch finishing within the lease, and an overrun does break it
  (`LeasesExclude`, `HeldIsDueExactlyWhenOverrun`, `OverrunBreaksExclusion`).
- A finding whose address is spelled `site-wide` shares its fingerprint with the address-less
  finding of the same code that lists affected addresses, so the two merge into one
  (`SamePrintExactly`).
- A finding marked `accepted_risk` that is seen again becomes `regressed`
  (`AcceptedRiskIsReopened`).
- A critical-risk tool that no earlier rule claims runs unattended at some autonomy level if
  and only if it declares `auto_from` (`CriticalRunsAloneExactlyWhenDeclared`).
- `edit_content` works in every stage, so what is published can fail the gates it passed at
  review (`PublishedMayFail`). It passes them if and only if nobody has rewritten it since, or
  the latest rewrite passes too (`ReleasedPassesExactly`).
- Adding a finding can raise a category's score: exactly when the cap formula rises, for the
  first critical beside nine or more highs or the first high beside five or more mediums, and
  the penalties leave room for it to show (`ScoreRisesExactly`, `CriticalCanRaiseTheScore`).
  It can raise a headline too (`HeadlineRisesExactly`, `HeadlineRisesWithTheCap`,
  `CriticalCanRaiseTheHeadline`).
- Every agent that starts puts its own guard into the router's only slot, and every model call
  checks and charges the guard that is there at that moment. Agents that run side by side are
  therefore refused against one another's ceilings. A refused agent is run again, under a
  fresh guard, and its first attempt is paid for as well.
  - Take a wave of agents whose beats and costs are fixed, each with any number of retries and
    something to pay for a refused attempt, and of steps that use no model. Its order is
    invisible if and only if no step can find the run limit reached by the others, and no model
    call can find any guard of the wave, or the organisation's remainder, used up by them
    (`OrderIsInvisibleExactly`). Where retries are free the condition is sufficient
    (`FittingIsEnough`) but not necessary (`FreeRetriesLeaveNoTrace`).
  - A step alone in its wave may spend all that is left; beside one agent, the others need what
    it spends to stay below the limit (`OneAgentFitsExactly`).
  - Of n agents with two calls of the same price and the default retry, any one whose ceiling is
    below n + 1 calls is refused in both attempts on some schedule (`OneCanStarve`). So it is in
    the third wave of the weekly growth cycle, where nobody overspends, the budget lasts, and
    the regression check can still end as a noted gap (`GrowthCycleDependsOnOrder`).
  - Of two such agents, how they end depends on the order if and only if one ceiling is below
    three calls; from three to four calls the retry saves them and only the spend depends on
    it; from four on nothing does (`TwoAgentsShareOneGuard`).
- A call is recorded on the guard in the slot when its answer arrives. A new guard can thus be
  charged for calls it never checked, up to one projection for each call in flight
  (`NewGuardIsBounded`, `InheritedCallsAreTight`).
- `orphans` compares addresses as spelled, not by normalised key, and knows only links on
  recorded pages above the depth cap (`OrphansAreUnlinkedSitemapUrls` states exactly what it
  lists).
- A mission's `completed` set includes failed and skipped steps, and the final status looks
  only at the results of the session that reached the end. Resuming a run whose only step
  failed turns it into a success (`FailedStepEndsInSuccess`). The status is right about the
  whole run exactly when no earlier session committed a step that failed or fell back, or the
  last one did too (`VerdictExactly`); a resume can end in a success that hides such a step if
  and only if one is already committed (`ResumeHidesExactly`, `ResumeHidesByWork`).

## Model

| member | source | states |
|---|---|---|
| Crawler.Crawl | packages/seoos/analysis/crawler.py:127-188 | the crawl ends, also on an endless site with failing fetches; at most max_pages pages; every recorded and queued page carries its exact distance from the start, what its fetch returned and whether the sitemap lists it, names the page or sitemap it was found on, and shares its normalised key with no other; each in-scope address among the first max_pages of the sitemap is recorded, still queued or failed to answer, at depth 1 at most; every link of an expanded page is in the link table and known one level deeper at most; if the queue empties, everything within the depth cap was recorded or its fetch raised; stops with a queue only at the page cap |
| Crawler.DepthsAreExact | packages/seoos/analysis/crawler.py:146-175 | at every point of a crawl each known page's depth is the length of a shortest click path, with an edge from the start to each in-scope seed, although a batch may mix two depths |
| Crawler.NothingMissed | packages/seoos/analysis/crawler.py:146-175 | once the queue is empty the end of every click path within max_depth has been attempted |
| Crawler.FinishedCrawlIsTheNearSite | packages/seoos/analysis/crawler.py:146-175 | when variants of an address link alike, a crawl whose queue empties has attempted exactly the addresses within max_depth clicks in the site's own link graph |
| Crawler.ReportIsComplete | packages/seoos/analysis/crawler.py:146-188 | and its report has a page for the end of every such path, in some spelling, unless that fetch raised |
| Crawler.ExactOnSite | packages/seoos/analysis/crawler.py:276-291 | when variants of an address link alike, the depth is the distance in the site's own link graph |
| Crawler.PathTo | packages/seoos/analysis/crawler.py:168-175 | a click path exactly as long as its depth leads to every known page |
| Crawler.Along | packages/seoos/analysis/crawler.py:166-175 | along any click path knowledge keeps pace with the clicks, or it stopped at a page not yet attempted or at the depth cap |
| Crawler.ClosedBounds | packages/seoos/analysis/crawler.py:146-175 | a page whose links were not followed bounds the depth of everything known to one more |
| Crawler.Attempt | packages/seoos/analysis/crawler.py:155-175 | attempting the head of the queue keeps the search invariant: sorted queue, spread of at most one level, nothing known twice, every expanded page's links known |
| Crawler.LevelStep | packages/seoos/analysis/crawler.py:168-175 | appending a page's links keeps the queue sorted by depth and at most two levels wide |
| Crawler.RecordStep | packages/seoos/analysis/crawler.py:159-170 | the pages recorded are exactly the attempted entries that answered, as they were queued |
| Crawler.SeedFrontier | packages/seoos/analysis/crawler.py:133-144 | base at depth 0 and each in-scope one of the first max_pages sitemap addresses at depth 1, no key twice: the invariant holds at the start |
| Crawler.SitemapIsReported | packages/seoos/analysis/crawler.py:133-175 | of the sitemap every in-scope address among the first max_pages is known at depth 1 at most and recorded, queued or failed; and whatever is known at depth 1 is one of those or a link on the start page |
| Crawler.LinksAreFollowed | packages/seoos/analysis/crawler.py:166-175 | the link table holds exactly the links of the recorded pages that are ok, parsed and above the depth cap, and every in-scope one of them is known one level deeper at most |
| Crawler.TakeBatch | packages/seoos/analysis/crawler.py:147-149 | the batch is a front of the queue of at most ten that never overshoots the page cap and stops early only for a reason |
| Crawler.FollowLinks | packages/seoos/analysis/crawler.py:168-175 | every in-scope link becomes known one level deeper at most, new ones are queued once, and the page's row of the link table is its set of links |
| Crawler.FileResult | packages/seoos/analysis/crawler.py:155-175 | an exception leaves no page and follows nothing; a page is recorded and, if it is ok, parsed and above the cap, expanded |
| Crawler.FileBatch | packages/seoos/analysis/crawler.py:155-175 | filing a batch keeps the invariant and adds at most one page per entry |
| Crawler.OrphansAreUnlinkedSitemapUrls | packages/seoos/analysis/crawler.py:79-87 | after a crawl the orphans are exactly the sitemap addresses, the start aside, that no recorded page above the depth cap links to as spelled |
| Crawler.StrippedExactly | packages/seoos/analysis/crawler.py:79-87 | comparing with the start takes off trailing slashes, all of them and nothing else |
| MissionSpec.ExecutionOrder | packages/seoos/missions/spec.py:171-194 | raises if and only if the needs have a cycle, naming remaining steps; otherwise the waves partition the steps, every need lies in a strictly earlier wave, and each step's wave is the length of its longest dependency chain |
| MissionSpec.FromDict | packages/seoos/missions/spec.py:136-163 | accepts exactly the step lists with distinct ids, known needs and no cycle, and reports the first kind of problem in that order |
| MissionSpec.TakeWave | packages/seoos/missions/spec.py:190-193 | moving a wave from remaining to done loses and repeats nothing |
| MissionSpec.NoLayeringIsShallower | packages/seoos/missions/spec.py:171-194 | in any assignment of levels with needs strictly below, no step sits lower than its longest chain, so no layering has fewer waves |
| MissionSpec.StuckMeansCycle | packages/seoos/missions/spec.py:184-189 | if every one of some steps needs another of them, there is a cycle |
| MissionSpec.NothingReadyMeansCycle | packages/seoos/missions/spec.py:184-189 | no step of the remaining ones being ready proves a cycle among the mission's steps |
| MissionSpec.OrderedMeansAcyclic | packages/seoos/missions/spec.py:171-194 | a finished grouping rules every cycle out |
| MissionSpec.ReadyDepth | packages/seoos/missions/spec.py:184-190 | a step that becomes ready after w waves has a longest chain of exactly w + 1 steps |
| MissionSpec.AppendWave | packages/seoos/missions/spec.py:183-193 | appending the wave of all ready steps keeps partition, depth and order |
| AgentRegistry.Validate | packages/seoos/agents/registry.py:70-94 | every reported loop is a closed walk of delegations between known agents, and every closed walk uses a delegation that closes a reported loop: without those the roster has a topological order; so loops are reported if and only if there is one, and diamonds never are |
| AgentRegistry.DelegationSearch.Visit | packages/seoos/agents/registry.py:77-87 | a visit blackens its agent, keeps every finished colour, and leaves grey exactly the path it was called with |
| AgentRegistry.DelegationSearch.Follow | packages/seoos/agents/registry.py:79-86 | a grey target is reported, a white one explored, a black one skipped; afterwards it is fully explored or the loop through it is reported |
| AgentRegistry.DelegationSearch.Report | packages/seoos/agents/registry.py:82-84 | the reported loop is the walk from the target back to itself |
| AgentRegistry.DelegationSearch.Enter | packages/seoos/agents/registry.py:78 | entering turns one white agent grey and puts it on the path |
| AgentRegistry.DelegationSearch.Leave | packages/seoos/agents/registry.py:87 | an agent turns black after everything it delegates to |
| AgentRegistry.DelegationSearch.FindCycles | packages/seoos/agents/registry.py:89-91 | visiting every white agent orders the roster but for the delegations that close reported loops |
| AgentRegistry.EveryLoopIsCut | packages/seoos/agents/registry.py:70-93 | with such an order every closed walk uses a delegation that closes a reported loop |
| AgentRegistry.WalkDescends | packages/seoos/agents/registry.py:70-93 | along a walk that uses none of them the order is left strictly behind |
| AgentRegistry.LoopIsReal | packages/seoos/agents/registry.py:83-84 | the path cut at the grey target and closed by it is a closed walk, and ends with the delegation just followed |
| Resolver.Resolver.Resolve | packages/seoos/agents/resolver.py:154-250 | result, attempts and new memory of a call as the climb of the sorted ladder past the remembered dead routes; the answer is that of the first live, eligible route of the ladder that yields, with its rung and fidelity, and a person is required if and only if there is none; a safety refusal changes nothing, and no call changes what is kept for another signature |
| Resolver.CallAnswersRight | packages/seoos/agents/resolver.py:154-250 | in terms of the ladder and the world alone: where a call ends, what it answers, which attempts it logs (the recall, one failure for each dead or failing route passed, one success) and what it leaves in the memory |
| Resolver.TryRoutes | packages/seoos/agents/resolver.py:183-230 | the loop over the routes is that climb, refused and exhausted ends included |
| Resolver.Resolver.NoteResolution | packages/seoos/agents/resolver.py:252-257 | the record kept for a signature: failed strategies, route used, whether a person is needed |
| Resolver.LadderIsSorted | packages/seoos/agents/resolver.py:183 | the ladder holds the same routes, by rung and then by falling fidelity |
| Resolver.LadderByRung | packages/seoos/agents/resolver.py:183 | lower rungs first, and on one rung the more faithful routes |
| Resolver.TiesKeepListOrder | packages/seoos/agents/resolver.py:183 | the sort is stable: of two tied routes the one listed first is tried first |
| Resolver.LadderIgnoresRecall | packages/seoos/agents/resolver.py:166-183 | with distinct keys a recall does not change the order of the ladder |
| Resolver.ForbiddenStopsTheClimb | packages/seoos/agents/resolver.py:184-188 | nothing at or after a forbidden route is ever run, and a forbidden route never wins |
| Resolver.ClimbFailsAPrefix | packages/seoos/agents/resolver.py:183-233 | a climb that is not refused logs as failed exactly the eligible routes before the winner, which is the first live one to yield |
| Resolver.ClimbFailures | packages/seoos/agents/resolver.py:189-216 | only routes not known dead are run, each at most once, and every failing run is logged |
| Resolver.CallExtendsPrefix | packages/seoos/agents/resolver.py:181-257 | over calls for one signature the dead routes are a prefix of the ladder that only grows, up to the first route past it that yields, which is the answer |
| Resolver.AtMostOneFailingRun | packages/seoos/agents/resolver.py:181-257 | over any sequence of calls each route fails at most once, plus once per refused call; a route known dead never fails again |
| Resolver.RefusalsAreForgotten | packages/seoos/agents/resolver.py:184-210 | two routes with distinct keys and n refused calls make the first fail n + 1 times, so the bound is met |
| Resolver.NoRouteFailsTwiceExactly | packages/seoos/agents/resolver.py:181-257 | on a ladder with distinct names and keys, whatever the calls, no route fails twice if and only if no forbidden route and none that may refuse stands behind an eligible route the climb can run |
| Resolver.StoppedCallsRepeat | packages/seoos/agents/resolver.py:184-210 | where one does, any number of calls in a row run that route to failure |
| Resolver.RefusedBeforeRunning | packages/seoos/agents/resolver.py:184-210 | where none does, a refused call has run nothing |
| Resolver.TiesBreakMemory | packages/seoos/agents/resolver.py:167-183 | whenever two usable routes tie, some three calls run one of them to failure twice |
| Resolver.MemoryHoldsExactlyWithoutTies | packages/seoos/agents/resolver.py:166-257 | for usable, distinctly named routes: at most one failing run, plus one per refused call, over all call sequences if and only if no two routes share a (rung, fidelity) key |
| Resolver.NothingFailsTwiceExactly | packages/seoos/agents/resolver.py:166-257 | over all lists of named routes, any set of routes that may refuse and either setting of allow_degraded: no route ever fails twice if and only if nothing forbidden or refusing stands behind a route that can run and no two routes that can run tie |
| Resolver.FailuresOfEligible | packages/seoos/agents/resolver.py:189-193 | without forbidden routes, routes that are not eligible might as well not be listed |
| MissionEngine.ExecuteStep | packages/seoos/missions/engine.py:229-305 | result, outputs and resolver memory of one step; in terms of the world alone, a step that starts and whose first dispatch that does not fail is done succeeds with that value under its key, and nothing else moves; skipped, failed and over-budget ends leave outputs and memory alone; what reaches the resolver ends as its ladder does |
| MissionEngine.StepEndsRight | packages/seoos/missions/engine.py:229-305 | those ends, for every step and every world |
| MissionEngine.ResolverIsRight | packages/seoos/missions/engine.py:387-433 | a step the resolver takes over ends degraded, with the value of the reduced-scope retry if it is a tool step with arguments whose retry is not known dead and yields, and otherwise with the noted gap, and remembers that; for retries that are not refused |
| MissionEngine.TryResolver | packages/seoos/missions/engine.py:280-305 | the resolver's turn, with the same three effects |
| MissionEngine.RetryIsFirstAnswer | packages/seoos/missions/engine.py:254-278 | the retry loop yields the first of retries + 1 dispatches that is not a failure, and a failure if and only if all of them are |
| MissionEngine.ResolverNeverGivesUp | packages/seoos/missions/engine.py:280-299 | whatever earlier resolutions remembered, a resolve step whose dispatches all failed ends degraded with its output stored, never failed and never escalated to a person, unless its reduced-scope retry is refused for safety |
| MissionEngine.ResolverAlwaysCovers | packages/seoos/tools/registry.py:257-268 | since the tool executor turns a safety refusal into a failed outcome, such a step always ends degraded with its output stored |
| MissionEngine.NoStepRouteFailsTwice | packages/seoos/missions/engine.py:387-433 | over any resolutions of a step's problem no route of its ladder fails twice |
| MissionEngine.GapResolves | packages/seoos/missions/engine.py:387-433 | record_gap never becomes a dead route, so the step's ladder always ends in a degraded resolution |
| MissionEngine.EveryStepKeeps | packages/seoos/missions/engine.py:229-305 | no output disappears, a result with an output has it on the blackboard, and the gap route stays alive |
| MissionEngine.RunWave | packages/seoos/missions/engine.py:176-184 | every pending step is started and executed once, an escaped exception counts as failed; an interruption may have let any of them start and any of those end, and leaves the effects of exactly those |
| MissionEngine.CutExactly | packages/seoos/missions/engine.py:176-214 | an interruption starts, and lets end, exactly the steps of the wave that it names; without one all of them |
| MissionEngine.RunSession | packages/seoos/missions/engine.py:128-198 | saved state, results and status as the waves from the saved state on make them; keeps the run invariant however it ends: results cover exactly the newly completed steps, their outputs are saved, reaching the end means every step is completed, and any other end has its stated cause (where and why exactly is `SessionStopsRight`, which values is `SessionIsRight`) |
| SessionResults.SessionStopsRight | packages/seoos/missions/engine.py:128-198 | a session stops at the first pending wave that is past the deadline, over budget, interrupted, or has a required step with on_error fail that failed; which of them it was is its status; every pending wave before it is committed; and it reaches the end exactly if there is no such wave |
| SessionResults.SessionIsRight | packages/seoos/missions/engine.py:249-305 | each result of a session has the status its step's condition, budget, dispatches and resolver give it, and the saved output of a succeeded one is its dispatch's value unless a later step of the session writes the same key |
| RunVerdict.Relaunch | packages/seoos/missions/engine.py:450-493 | over any sequence of crashes, cancellations and resumes the completed set is a prefix of waves, no committed step is started again, every started step has all its needs committed, only started steps are committed, and once the end was reached everything stays completed |
| RunVerdict.OneResultEach | packages/seoos/missions/engine.py:128-192 | over any sequence of sessions every completed step has exactly one committed result, and no other step has any |
| RunVerdict.SessionTallies | packages/seoos/missions/engine.py:128-192 | each session adds one result for each step it completes, none for a step completed before |
| RunVerdict.VerdictExactly | packages/seoos/missions/engine.py:590-595 | at the end of any sequence of sessions the status is succeeded if and only if no step of the last session failed or fell back; it is right about the whole run if and only if no earlier session committed such a step or the last one did |
| RunVerdict.ResumeHidesExactly | packages/seoos/missions/engine.py:124-198 | some next session ends succeeded over a step that failed or fell back if and only if such a step is already committed |
| RunVerdict.ResumeHidesByWork | packages/seoos/missions/engine.py:124-198 | that session may be one in which every step runs and succeeds at its first try |
| RunVerdict.FinishedRunSucceeds | packages/seoos/missions/engine.py:129-132 | resuming a run whose every step is completed executes nothing and ends succeeded |
| RunVerdict.FailedStepEndsInSuccess | packages/seoos/missions/engine.py:186-198 | a mission of one required step: the first session fails with its result committed, the second succeeds with no results |
| MissionEngine.PendingIsAllOrNothing | packages/seoos/missions/engine.py:130-132 | on resume a wave is skipped whole or pending whole |
| MissionEngine.NextWave | packages/seoos/missions/engine.py:129-143 | the next wave's needs are all committed, and committing it extends the prefix by one wave |
| MissionEngine.CommitStep | packages/seoos/missions/engine.py:176-192 | starting a wave's steps and committing them keeps the history safe |
| MissionEngine.StartsAreSafe | packages/seoos/missions/engine.py:176-178 | starting any part of a wave whose needs are committed keeps the history safe |
| MissionEngine.Interrupted | packages/seoos/missions/engine.py:203-214 | a wave cut short has committed nothing |
| MissionEngine.Checkpoint | packages/seoos/missions/engine.py:191-192 | a finished wave is committed as a whole |
| WaveInterleaving.ConcurrencyIsInvisible | packages/seoos/missions/engine.py:144-178 | a mission whose waves have distinct outputs, do not read one another's outputs and whose money no schedule can turn leaves the same blackboard, spend and remainder under every interleaving as step by step in wave order, whatever guard the router held |
| WaveInterleaving.WaveIsConfluent | packages/seoos/missions/engine.py:144-178 | any two complete schedules of such a wave, from any guard in the slot, end with the same results, board, spend and remainder |
| WaveInterleaving.AnySchedule | packages/seoos/missions/engine.py:176-178 | under any schedule each step is where it would be alone, and board and spend are the sum of the parts |
| WaveInterleaving.BoardExactly | packages/seoos/missions/engine.py:262-268 | after any schedule of such a wave each finished step's result is under its key, and every other key is as it was |
| WaveInterleaving.ResumeKeeps | packages/seoos/missions/engine.py:144-178 | resuming any one step of the wave keeps that |
| WaveInterleaving.FollowInCrowd | packages/seoos/llm/router.py:231-257 | a stretch of a step whose tests pass even after all the others may take runs as if alone, and the guard in the slot keeps enough room for everyone |
| WaveInterleaving.AloneFromAnySlot | packages/seoos/agents/runtime.py:105-111 | a step that starts its agent before it asks the router anything ends alike whatever guard it found |
| WaveInterleaving.HarmlessWithAnySlot | packages/seoos/agents/runtime.py:105-111 | whether a wave's money is harmless does not depend on the guard an earlier wave left |
| AgentWave.OrderIsInvisibleExactly | packages/seoos/missions/engine.py:144-178 | for waves of agents with retries that cost something and of steps that use no model, each fine on its own: all complete schedules end alike if and only if no step can find the run limit reached by the others, and no model call can find a guard of the wave or the organisation's remainder used up by them; and exactly then every step ends as expected at its first attempt |
| AgentWave.FittingIsEnough | packages/seoos/missions/engine.py:249-252 | if so, and whatever retries cost, every schedule ends every step as expected with no attempt made twice, with one board and one spend |
| AgentWave.ExpectedMustFit | packages/seoos/llm/router.py:231-257 | if every schedule ends every step as expected with no attempt made twice, then so it is |
| AgentWave.AgreedMeansExpected | packages/seoos/missions/engine.py:176-178 | if all schedules end alike they end every step as when it goes first, at the spend of the steps one by one |
| AgentWave.CostsMore | packages/seoos/missions/engine.py:254-278 | a schedule on which an attempt is refused after its first beat and all still end as expected spends more than the steps cost |
| AgentWave.StaysDoomed | packages/seoos/agents/runtime.py:105-111 | an agent whose first call the organisation's remainder refuses is refused in every attempt |
| AgentWave.DueGrows | packages/seoos/missions/engine.py:254-278 | towards an expected end the spend a schedule is heading for never falls |
| AgentWave.AloneIsStuck | packages/seoos/agents/runtime.py:105-111 | a step that runs by itself with too little of the organisation's remainder never ends as expected, however often it tries |
| AgentWave.OneByOneCosts | packages/seoos/missions/engine.py:144-178 | steps run one by one that end as expected spend exactly their costs |
| AgentWave.MustAfford | packages/seoos/missions/engine.py:249-252 | whoever goes last must still find budget, and its fresh guard enough of the remainder |
| AgentWave.MustPass | packages/seoos/agents/runtime.py:105-111 | a later model call must pass under the guard of any agent that started last, charged with everyone else's calls |
| AgentWave.MustDraw | packages/seoos/llm/router.py:102-115 | and find enough of the organisation's remainder after everything the others spent |
| AgentWave.OneAgentFitsExactly | packages/seoos/missions/engine.py:249-252 | with one agent at most, the order is invisible if and only if the step is alone or the agent's cost leaves the others budget |
| AgentWave.StretchRuns | packages/seoos/missions/engine.py:249-278 | a stretch goes on exactly when the budget look and the guard's check pass; otherwise the step is skipped, or the attempt is paid for and followed by the next, or by the resolver's end |
| AgentWave.SlotSince | packages/seoos/agents/runtime.py:105-111 | once all agents have started, the guard in the slot stays and takes everyone's charges |
| SharedGuard.OneCanStarve | packages/seoos/missions/engine.py:254-278 | of any number of agents with two calls each and one retry, one whose ceiling is below the price of one call more than there are agents is refused in both attempts on some complete schedule |
| SharedGuard.TwoAgentsShareOneGuard | packages/seoos/missions/engine.py:254-278 | two such agents with money enough: all schedules agree if and only if both ceilings leave room for four calls, and all end both agents as expected if and only if both leave room for three |
| SharedGuard.BothRecover | packages/seoos/missions/engine.py:254-278 | with room for three, every complete schedule ends both as expected, at the first attempt or the second |
| SharedGuard.DuelMoves | packages/seoos/llm/router.py:231-257 | an agent refused in its second attempt would need four charges of its rival, which never makes more than three |
| SharedGuard.GrowthCycleDependsOnOrder | packages/seoos/missions/workflows/search/weekly_growth_cycle.yaml:34-130 | the wave of regression check, technical audit and content pipeline at two dollars each, within all ceilings and the budget, with the default retry and resolver: a complete schedule on which the regression check ends degraded with the gap noted |
| SharedGuard.FreeRetriesLeaveNoTrace | packages/seoos/missions/engine.py:254-278 | a wave whose agents' first call is free: a call does not fit, and all schedules agree nevertheless |
| Scheduler.ScheduleTable.ClaimDueSchedules | packages/seoos/missions/scheduler.py:40-67 | leases, for 90 minutes, enabled rows whose next run has come and whose lock has run out, the earliest first, all of them if the limit allows, and changes nothing else |
| Scheduler.SelectDue | packages/seoos/missions/scheduler.py:47-59 | distinct due rows, earliest next run first, as many as the limit allows |
| Scheduler.ScheduleTable.AdvanceSchedule | packages/seoos/missions/scheduler.py:70-102 | lock cleared, failures counted; the next run is the cron's, but 8, 16, 32 and then always 48 hours away from the third failure in a row on; disabled exactly by an invalid cron or the eighth |
| Scheduler.DisabledExactly | packages/seoos/missions/scheduler.py:70-102 | over any sequence of runs of a fresh schedule its failure count is the number of failures since the last success, and it is disabled if and only if a cron was invalid or some eight runs in a row failed |
| Scheduler.AdvancedMovesOn | packages/seoos/missions/scheduler.py:75-102 | the cases of one advance, one by one |
| Scheduler.AdvanceMovesOn | packages/seoos/missions/scheduler.py:75-102 | an advanced schedule is free and not due: disabled, or due strictly later |
| Scheduler.StepKeepsInv | packages/seoos/missions/scheduler.py:225-255 | every claim, finish, death, restart and wait keeps all leases of live workers on their rows |
| Scheduler.FinishKeepsInv | packages/seoos/missions/scheduler.py:249-254 | a worker that is in time finds its own lock on the row it releases |
| Scheduler.LeasesExclude | packages/seoos/missions/scheduler.py:225-255 | if every live worker finishes its claimed batch within the lease, no reachable state has two workers on one schedule, no advance clears another worker's lease, and no due instant is completed twice |
| Scheduler.HeldIsDueExactlyWhenOverrun | packages/seoos/missions/scheduler.py:50-55 | what a live worker holds is claimable by others if and only if its batch has outlived the lease |
| Scheduler.DeadWorkersLeaseExpires | packages/seoos/missions/scheduler.py:43-55 | a dead worker's schedule becomes claimable exactly once its lease has passed |
| Scheduler.OverrunBreaksExclusion | packages/seoos/missions/scheduler.py:62-76 | after an overrun the next claim that is not cut short puts a second worker on the schedule |
| Findings.Deduplicate | packages/seoos/analysis/audit.py:274-287 | one finding per fingerprint in order of first sight, the first of its kind with the addresses of all of them |
| Findings.SamePrintExactly | packages/seoos/analysis/findings.py:482-487 | two findings share a fingerprint if and only if their codes are equal and they have one address, or none and both or neither list affected ones; an address spelled site-wide counts as the latter |
| Findings.MergedExactly | packages/seoos/analysis/audit.py:274-287 | every finding is in exactly one merged finding: the first of its problem, whose affected addresses are its own, those each repeat lists, and the address of a repeat that lists none |
| Findings.FindingsTable.Reconcile | packages/seoos/services/findings.py:44-141 | the stored rows after merging the drafts one by one and closing what was not seen, inside the scanned categories |
| Findings.FindingsTable.MergeAll | packages/seoos/services/findings.py:69-125 | each draft updates the row stored for its fingerprint when the scan began, or adds one |
| Findings.FindingsTable.Update | packages/seoos/services/findings.py:108-125 | status, regression count and fields of a stored finding that is seen again |
| Findings.FindingsTable.CloseAll | packages/seoos/services/findings.py:128-137 | exactly the unseen, still open rows in scope become fixed |
| Findings.FindingsTable.MergeOne | packages/seoos/services/findings.py:69-125 | one draft updates the row stored for its fingerprint, or adds one |
| Findings.OneScan | packages/seoos/services/findings.py:69-137 | what one scan of all or some categories does to every field of every row: seen rows show the finding and regress if they were closed, except wont_fix; missed ones are fixed unless closed or out of scope, and otherwise untouched; new ones are open; one row per fingerprint |
| Findings.ScanFollows | packages/seoos/services/findings.py:69-137 | a scan keeps every row at the point its fingerprint's life has come to |
| Findings.MarkFollows | packages/seoos/services/findings.py:165-180 | so does a mark |
| Findings.StatusSinceMark | packages/seoos/services/findings.py:108-137 | after any mark, through scans of any categories, a finding's status and regression count depend only on which of the scans that concern it saw it: missed is fixed, found again is regressed, wont_fix never moves |
| Findings.SinceOneMore | packages/seoos/services/findings.py:108-137 | the closed form moves with one more such scan exactly as the code moves the status |
| Findings.WontFixStays | packages/seoos/services/findings.py:108-137 | no sequence of scans ever moves a finding marked wont_fix |
| Findings.OtherScopesLeaveItAlone | packages/seoos/services/findings.py:53-58 | scans of other categories that do not meet a finding never change it |
| Findings.FullScansTell | packages/seoos/services/findings.py:69-137 | with full scans and no marks: fixed if and only if absent from the latest scan, regressed if and only if just reappeared, open otherwise, and regression_count is the number of reappearances |
| Findings.TellOneMore | packages/seoos/services/findings.py:108-137 | one more full scan moves the status and the regression count told by the history exactly as the code moves the stored ones |
| Findings.SiteFindings.Audit | packages/seoos/services/findings.py:44-141 | over any history of scans and marks there is exactly one row per fingerprint ever seen, with the status, category and regression count its history gives it; each scan changes the rows as `OneScan` says, and two of its findings share a row if and only if they are the same problem |
| Findings.EachProblemHasItsRow | packages/seoos/services/findings.py:69-106 | after a scan each of its findings has a row, one for each problem |
| Findings.SiteFindings.SetMark | packages/seoos/services/findings.py:165-180 | sets the status of the one finding, or of none, changes nothing else, and keeps the history's promise |
| Findings.AcceptedRiskIsReopened | packages/seoos/services/findings.py:108-115 | a seen row keeps its status exactly when it is open, in progress, awaiting approval or wont_fix; an accepted risk becomes a counted regression |
| Findings.RepeatsAreStoredTwice | packages/seoos/services/findings.py:66-106 | a fingerprint repeated within one unmerged scan is stored twice |
| ApprovalPolicy.WaitingPeriodsAreNarrow | packages/seoos/agents/policy.py:154-287 | a waiting period is attached if and only if the client set one and the call, not reserved, is content or technical work of no or low risk that does not run alone; rules reserved for a person always ask and carry none |
| ApprovalPolicy.MoreAutonomyAsksLess | packages/seoos/agents/policy.py:202-287 | raising a site's autonomy never adds a question, never changes a refusal and never moves a call into a reserved rule |
| ApprovalPolicy.TechnicalRunsAloneExactly | packages/seoos/agents/policy.py:248-287 | the autonomy levels at which a technical tool runs unattended: internal at any, otherwise from its own auto_from on, otherwise no and low risk from assisted, medium from managed, high and unlisted on autopilot, critical never |
| ApprovalPolicy.RefusedExactly | packages/seoos/agents/policy.py:154-166 | each call is refused, put to a person or run, and refused exactly for a never-allowed tag |
| ApprovalPolicy.PersonRequiredExactly | packages/seoos/agents/policy.py:168-269 | exactly which calls fall under a rule that only a person can release: reserved ones, third-party ones that do not go out alone, and critical tools without auto_from |
| ApprovalPolicy.ReservedExactly | packages/seoos/agents/policy.py:154-200 | the reserved calls by name, tags, the first address given and the client's lists |
| ApprovalPolicy.LowAutonomyAlwaysAsks | packages/seoos/agents/policy.py:202-287 | below assisted, exactly internal tools and technical tools that declare so low a level run unattended |
| ApprovalPolicy.ClientsNameExactly | packages/seoos/agents/policy.py:202-246 | copy and messages in the client's name go out unattended exactly under the client's stated agreement at the level it needs |
| ApprovalPolicy.NeverUnattended | packages/seoos/agents/policy.py:154-287 | exactly what runs unattended at no autonomy level: refused, protected, site-wide and overridden actions, words in the client's name without the client's agreement, and critical tools that declare no auto_from |
| ApprovalPolicy.CriticalRunsAloneExactlyWhenDeclared | packages/seoos/agents/policy.py:253-269 | a critical tool no earlier rule claims runs unattended at some level if and only if it declares auto_from |
| Approvals.Operate | packages/seoos/services/approvals.py:128-256 | over any run of raising, deciding, sweeping and expiring, each action is performed at most once and only after a release; and every approval stands where its decisions, lapses and the executor's answers brought it: what was released is executed if the executor succeeded or there was nothing to do, failed if it failed, and waits only without an executor |
| Approvals.OperateOnce | packages/seoos/services/approvals.py:128-256 | one operation of any kind keeps both |
| Approvals.ApprovalsService.SweepSettlesAll | packages/seoos/services/approvals.py:219-241 | a sweep leaves every approval where its events say |
| Approvals.ApprovalsService.DecideSettlesAll | packages/seoos/services/approvals.py:128-217 | and so does a decision |
| Approvals.ReservedMeansPerson | packages/seoos/services/approvals.py:128-241 | what was raised under a rule reserved for a person is performed only after a person's approval, never by the sweep |
| Approvals.ValidMeansPromise | packages/seoos/services/approvals.py:164-217 | the invariant every operation keeps is enough for that promise |
| Approvals.PerformNow | packages/seoos/services/approvals.py:164-217 | performing a sound approval's action keeps it sound if and only if a release came before |
| Approvals.ApprovalsService.RequestApproval | packages/seoos/agents/policy.py:289-311 | the stored approval: pending, under the decision's rule, with its waiting period and expiry |
| Approvals.ApprovalsService.Decide | packages/seoos/services/approvals.py:128-162 | the three refusals exactly; otherwise the decision is stored and an approval is replayed at once |
| Approvals.ApprovalsService.Execute | packages/seoos/services/approvals.py:164-217 | an executed approval is untouched; otherwise, in any status, the action reaches the executor once: executed exactly if that succeeds or there is nothing to do, failed if it fails, unchanged without an executor; the promise holds afterwards if and only if nothing was performed or a release came before |
| Approvals.ApprovalsService.SweepAutoApprovals | packages/seoos/services/approvals.py:219-241 | up to the limit of the pending items whose waiting period is over are approved and executed, all of them if the limit allows, none under a reserved rule, and nothing else changes |
| Approvals.ApprovalsService.ExpireStale | packages/seoos/services/approvals.py:243-256 | exactly the pending items past their expiry lapse, and nothing is performed |
| ContentLifecycle.ContentItem.Transition | packages/seoos/services/content.py:95-133 | refuses what the table does not list and review with failing gates, leaving the item untouched; otherwise moves it, counting revisions and versions |
| ContentLifecycle.ReleasedMeansReviewed | packages/seoos/services/content.py:24-39 | in every history from idea, a released item's latest review was entered with no failing gate and after the last drafting, editing or QA |
| ContentLifecycle.ReleasedIsEntered | packages/seoos/services/content.py:24-39 | the table lets an item into a released stage only from review or another released stage |
| ContentLifecycle.ReadyExactly | packages/seoos/services/content.py:162-184 | exactly which drafts fail no gate; a score never taken does not count against one |
| ContentLifecycle.GateExactly | packages/seoos/services/content.py:162-184 | for each gate exactly which drafts fail it |
| ContentLifecycle.MoveIsLegal | packages/seoos/services/content.py:105-125 | a listed move extends a legal history and counts a revision exactly when it enters changes_requested |
| ContentLifecycle.Live | packages/seoos/services/content.py:95-133 | over any run of moves and edits both promises hold, and revision_count is the number of entries to changes_requested |
| ContentLifecycle.ReleasedPassesExactly | packages/seoos/api/routes/content.py:154-182 | what is released was reviewed clean; it is the reviewed draft if nobody has rewritten it since, and passes the gates if and only if nobody has or the latest rewrite passes them |
| ContentLifecycle.PublishedMayFail | packages/seoos/api/routes/content.py:154-182 | a clean draft goes all the way to published and is then replaced by any other |
| SpendGuard.Guard.Check | packages/seoos/llm/router.py:102-111 | passes exactly within the run limit and the organisation's remainder, naming the run limit first |
| SpendGuard.Guard.Record | packages/seoos/llm/router.py:113-115 | moves the cost from the remainder to the spend |
| SpendGuard.Complete | packages/seoos/llm/router.py:211-291 | refused by the guard in the slot, exactly over the run limit or the organisation's remainder, before any provider is called; answered by the first provider that answers within its attempts and before a rate limit, and recorded once, on the guard in the slot then; or degraded, with nothing recorded, exactly if none does |
| SpendGuard.FirstAnswerIsRight | packages/seoos/llm/router.py:231-291 | which provider answers, in terms of the replies |
| SpendGuard.StepKeepsBound | packages/seoos/llm/router.py:231-257 | every check, record and failure of a call keeps spend plus what is in flight within the limit plus k - 1 projections, or within what the guard started with |
| SpendGuard.SpendIsBounded | packages/seoos/llm/router.py:98-115 | over any run of one guard with at most k calls between check and record, some of them possibly checked against an earlier guard, none projected above m or costing more than projected: spend is at most the larger of limit + (k - 1) * m and what was there at the start, and spend plus remainder is conserved |
| SpendGuard.NewGuardIsBounded | packages/seoos/agents/runtime.py:105-111 | a new guard never spends more than the larger of limit + (k - 1) * m and k * m |
| SpendGuard.InheritedCallsAreTight | packages/seoos/llm/router.py:256-257 | k calls checked before a guard was installed and answered after spend k * m on it, whatever its limit |
| SpendGuard.SequentialNeverOverspends | packages/seoos/llm/router.py:98-115 | one call at a time under its own guard never passes either ceiling |
| SpendGuard.BoundIsTight | packages/seoos/llm/router.py:102-115 | for every limit of at least one projection, k calls that all check before any records reach the bound |
| AgentRuntime.AgentRuntime.Run | packages/seoos/agents/runtime.py:72-197 | result and expenses of a run as its specification says, turn by turn with everything it delegates |
| AgentRuntime.AgentRuntime.TakeTurn | packages/seoos/agents/runtime.py:113-154 | one turn: out of time, broken off, answered, or tools used and on to the next |
| AgentRuntime.AgentRuntime.RunTools | packages/seoos/agents/runtime.py:201-255 | every call counted and every ordinary one charged; a delegation runs only to a permitted agent above the depth limit, and its cost is added |
| AgentRuntime.AgentRuntime.ForceConclusion | packages/seoos/agents/runtime.py:164-175 | one more completion after the last turn |
| AgentRuntime.AgentRuntime.RunAccounts | packages/seoos/agents/runtime.py:113-275 | a run, the root included, ends and reports exactly the sum of its charges, all of them above the depth limit, and itself completes at most max_iterations + 1 times |
| AgentRuntime.AgentRuntime.RunCharges | packages/seoos/agents/runtime.py:113-255 | a run charges, each once, exactly the expenses the world gives rise to: the completion of every reached turn and every ordinary tool call of it, in the run and in every run reached by permitted delegations |
| AgentRuntime.AgentRuntime.RunEndsRight | packages/seoos/agents/runtime.py:113-197 | which turn a run ends with, and that its text, turn count, tool count, failure and success are those of that turn: success needs a text that parses where structure is required |
| AgentRuntime.AgentRuntime.ToolsAccount | packages/seoos/agents/runtime.py:228-255 | the tools of a turn, delegated trees included, cost what was charged at or below the run |
| KeywordClusters.ClusterKeywords | packages/seoos/tools/keyword_tools.py:400-449 | ends, with the clusters of the successive rounds over the deduplicated eligible keywords |
| KeywordClusters.ClustersPartition | packages/seoos/tools/keyword_tools.py:417-446 | clusters are disjoint, each is a round's seed with all of that round's pool that goes with it, and what is in no cluster is exactly what was once a seed with too small a group |
| KeywordClusters.PlacedOrRejected | packages/seoos/tools/keyword_tools.py:414-446 | an input keyword is in exactly one cluster if and only if it is eligible and was never a rejected seed |
| KeywordClusters.ClustersHoldTogether | packages/seoos/tools/keyword_tools.py:418-442 | each cluster has at least min_size distinct members that share its intent and overlap by half with one of them that has the most terms |
| KeywordClusters.TogetherWithItself | packages/seoos/tools/keyword_tools.py:424-426 | an eligible seed is always a member of its own group, which is why every round shrinks the pool |
| KeywordClusters.TogetherExactly | packages/seoos/tools/keyword_tools.py:420-429 | a keyword goes with a seed if and only if their intents agree and they share half of the seed's terms or half of its own |
| KeywordClusters.SeedIsFirst | packages/seoos/tools/keyword_tools.py:418 | every keyword before the seed has fewer terms |
| KeywordClusters.EligibleOnce | packages/seoos/tools/keyword_tools.py:414 | each keyword with terms once, and no other |
| KeywordClusters.EligibleInOrder | packages/seoos/tools/keyword_tools.py:414 | the pool stands in the order of first mention |
| KeywordClusters.Split | packages/seoos/tools/keyword_tools.py:422-429 | the pool split in order by whether a keyword goes with the seed |
| KeywordClusters.SplitKeepsOrder | packages/seoos/tools/keyword_tools.py:422-429 | members and the rest stay in the order of the pool |
| KeywordClusters.PickSeed | packages/seoos/tools/keyword_tools.py:418 | the first keyword with the most terms |
| Scoring.CategoryScore | packages/seoos/analysis/scoring.py:73-102 | the loops over findings and caps compute the size-normalised penalty under the worst severity's cap |
| Scoring.PenaltyExactly | packages/seoos/analysis/scoring.py:81-88 | what one more finding takes off: 2.2 times its weight over the root of the page count, widened by the share of pages it affects, at most threefold |
| Scoring.CeilingExactly | packages/seoos/analysis/scoring.py:93-101 | the cap: 55, 78 or 92 for one finding of the worst capped severity, four percent of it lower for each further one up to the ninth |
| Scoring.CountExactly | packages/seoos/analysis/scoring.py:95 | the count behind a cap is the number of places a severity has in the list |
| Scoring.CeilingRisesExactly | packages/seoos/analysis/scoring.py:93-101 | the cap rises with a finding exactly for the first critical beside nine or more highs, or the first high beside five or more mediums and no critical |
| Scoring.ScoreRisesExactly | packages/seoos/analysis/scoring.py:73-102 | a score lies in 0 to 100 and rises with a finding if and only if the cap rises and the penalties leave room |
| Scoring.AddingAFinding | packages/seoos/analysis/scoring.py:73-102 | after rounding, a finding leaves other categories alone and, unless the cap rises, never raises its own |
| Scoring.CriticalCanRaiseTheScore | packages/seoos/analysis/scoring.py:93-101 | nine highs and then a critical on a large site: the score goes from 53.04 to 55 |
| Scoring.Weighted | packages/seoos/analysis/scoring.py:105-118 | the headline lies in 0 to 100, at most 69 with a critical and at most 87 with a high in its categories |
| Scoring.HeadlineRisesExactly | packages/seoos/analysis/scoring.py:105-118 | a finding raises the headline, before rounding, if and only if its category counts, that category's score goes up, and the worst severity now present leaves room above the old average; never unless the category's cap rises |
| Scoring.HeadlineRisesWithTheCap | packages/seoos/analysis/scoring.py:73-118 | with rounding to one decimal: a headline rises only if the category counts, its cap rises with room above the old one, and the worst severity now present leaves room; and it does if that first room is more than a tenth |
| Scoring.ComponentRises | packages/seoos/analysis/scoring.py:73-102 | the same for the rounded score of one category |
| Scoring.CriticalCanRaiseTheHeadline | packages/seoos/analysis/scoring.py:105-118 | nine highs and then a critical in the aeo category of a large site improve the AEO headline |
| Scoring.HeadlinesAreAverages | packages/seoos/analysis/scoring.py:17-27 | the three sets of weights each sum to one |

## Left out

- Crawler.Crawl: a fetch is a function of its address, since each address is fetched at most once; robots.txt, sitemap reading, HTML parsing, `_normalise` and `_in_scope` are arbitrary functions; the error list, the `on_page` callback and the statistics are not modelled.
- Crawler.DepthsAreExact: minimal over click paths on which no page was replaced by a variant with other links (`Faithful`), because the crawler never fetches a second variant; `ExactOnSite` removes the condition for sites whose variants agree.
- Crawler.OrphansAreUnlinkedSitemapUrls: orphans as a set; their sorted order is not modelled.
- AgentRegistry.Validate: the membership and pattern checks on reports_to, tools and model tiers, which are lookups, and the sorted order of the messages.
- MissionSpec.FromDict: parsing of the raw dictionaries; the condition language (`evaluate`, `render`) is an answer the world gives.
- MissionEngine.RunWave: steps of a wave run one after another here, in list order, and a step cut off leaves nothing; `WaveInterleaving` is where they interleave. Dispatch of tool, agent, gate and foreach steps is one arbitrary outcome.
- MissionEngine.RunSession: a checkpoint whose commit fails is a process that dies after the last step of its wave; the blackboard starts from the saved outputs alone, without the `input` key that a new run has, and which a run that dies before its first checkpoint loses on resume; no step is assumed to store under `_completed` or `_resolutions`; steps_done, costs, summaries and errors are not modelled.
- WaveInterleaving.ConcurrencyIsInvisible: the condition on a wave's money is sufficient; the exact one is in `AgentWave`. Steps are coroutines that read the blackboard at their suspension points and write it only when they finish; the keys a step reads are taken to be fixed; the semaphore only rules schedules out; the router's cooldowns and the usage callback are not shared state here.
- AgentWave.OrderIsInvisibleExactly: a step begins where it looks at the budget, and its dispatch is a task of its own, as asyncio.wait_for makes it on Python 3.11; an agent books its cost and stores its answer at once. Every step of the wave may be under way at once: where the semaphore is narrower than the wave the condition is sufficient. Each attempt of an agent has the same beats, calls and costs, a refusal is what ends it early, and what follows the last one is one fixed end; where retries are free only `FittingIsEnough` is claimed. Agents that delegate are in `WaveInterleaving` only, and so are steps whose tools call the router without an agent around them, as connectors/aivisibility.py does.
- SharedGuard.TwoAgentsShareOneGuard: the organisation's remainder is at least nine calls and the run limit more than three away, so that only the ceilings bind.
- Resolver.Resolver.Resolve: the signature is a parameter, as if its hash were injective; descriptions, timestamps and the resolution callback are not modelled.
- Resolver.MemoryHoldsExactlyWithoutTies: stated for allow_degraded at its default; in all statements about several calls it is the same in each.
- Scheduler.LeasesExclude: claims and advances are atomic steps, and worker ids are distinct; enabling, disabling and running a schedule by hand are not modelled; the cron library returns a strictly later instant or reports an invalid expression.
- Findings.SiteFindings.Audit: notes of a mark are not added to the detail; fingerprints are the pair that is hashed; titles, evidence, payloads, priorities and timestamps of rows are not modelled.
- Approvals.Operate: each operation is one atomic step. Two workers that sweep at once may both read the same pending rows before either commits, and may both perform them: that each action is performed once is proved for operations that do not overlap. Notifications, the audit log, the organisation filter and exceptions of the executor are not modelled.
- ApprovalPolicy.WaitingPeriodsAreNarrow: titles, reasons, impact and batch keys; the order of autonomy levels is observe, propose, assisted, managed, autopilot; of tools/registry.py only the handling of refusals is used.
- ContentLifecycle.ContentItem.Transition: notes, publication time and the snapshot's contents; `create` with a status passed among its extra fields.
- SpendGuard.SpendIsBounded: per guard object; what a call is refused against when agents replace the guard is in `WaveInterleaving`, `AgentWave` and `SharedGuard`. engine.py:353 records without checking; projections and the list of providers that are available and support the tools are arbitrary, and cooldowns are not modelled.
- SpendGuard.Complete: what other calls charge to either guard while this one waits for its answer is left to the runs of `SpendIsBounded`.
- AgentRuntime.AgentRuntime.Run: the roster is validated, so delegation targets are known; the tools of one turn run in order; messages, tokens, recorder and exceptions that escape a tool are not modelled; the tool-call ceiling only adds a message.
- KeywordClusters.ClusterKeywords: the cluster's name; `terms` and `classify_intent` are arbitrary functions; two guards for cases that cannot occur (a seed outside its own group, an empty group) have no counterpart.
- Scoring.Weighted: rounding is any monotone function exact at 0, 69, 87 and 100 (for `ComponentRises` also within a twentieth); counts, top issues and the mixing of page scores into the AEO and authority scores.
- Click-through and forecast arithmetic, connectors, reports, the API and the web front end: no structural property.

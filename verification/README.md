# VyaparSarathi: a verified model of the advisory core

VyaparSarathi advises village entrepreneurs. A conversation collects facts in slots with correction histories; a
twenty-step pipeline turns them into market evidence, a financial plan, a recommendation and a SWOT analysis; results
are cached per step under a fingerprint of their declared inputs; a ladder of rules decides after every message what to
run, ask or deliver. Around that core stand a deduplicator for discovered businesses, a relational store for them, a
grounding check for narrative text, a knowledge-corpus chunker, and the number and repayment tables of the report.

The model states what these parts do and proves the properties they are relied on for.

## The step cache

`StepCache.Pipeline` is the cache over *any* finite acyclic step graph, with required, fingerprint-upstream and optional
edges. A fingerprint is kept as the tree that is hashed, so equal hashes mean equal trees. What a step *declares* (and
hashes) and what its runner *sees* of the session are kept apart; a record of the model also holds what was seen. A
session is *embedded* when every stored fingerprint was built over the fingerprints stored beside it, *honest* when
every stored payload is the engine's answer on what was seen and on the payloads stored beside it, and *sound* when
both. From a sound session one sweep leaves nothing stale, an edit drops exactly the steps it reaches along fingerprint
edges, and what the sweep keeps is what the engines would answer now wherever a runner would still see the same
(`CacheAgreement`). `Artifacts.Advisor` instantiates this to the twenty steps, with engines left uninterpreted and the
two runners that write session fields modelled as written.

What the runners take from the session is described on its own (`Artifacts.Takes`) and compared with what their steps
declare (`DeclaredCoversTaken`). `Edits` says what follows for the user: whatever is said, a result whose runner would
take something else is dropped (`MessageDropsWhatItChanges`), and a new answer costs a complete session exactly the
results listed for its slot (`NewAnswerCosts`).

Do the declared inputs cover everything the twenty runners see? `Records` answers this for every conversation: the
category and subtypes that some runners read, the business text and the loan principal are all told by the fingerprint a
result is stored under and the resolver's result beside it (`TalkIsConsistent`, `SeenIsCurrent`). **Two things are
not**: `BUILD_PLAN` copies the owned assets and the trade experience into its plan and declares neither. So

* after any exact conversation, whatever is said next, every result the sweep keeps is its engine's answer now, except
  that the plan is, for every engine, **if and only if** the asset and experience sets are those it was made with
  (`KeptResultsAgree`, `PlanAgreesExactlyWhenProfileStands`);
* two messages are enough to miss it: name the business ("a tea shop", `TeaShopNamesBusiness`), then mention something
  one owns (`AddedAssetLeavesPlanBehind`). In NORMAL mode assets are asked for after the plan has been built. The
  finance steps use only the cash of that profile, so what is left behind is the plan's own copy.

The shipped turn (`llm/orchestrator.py`) sweeps **once**, before the steps run, and `run_step` records a step under
fingerprints recomputed from the current inputs. The documented promise that *a step that changes because an optional
dependency appeared is re-run by ordinary cascade* (workflow.py, artifacts.py) is therefore not kept within the turn in
which the dependency appears: a later step of that turn loads the old result but is recorded as if it had loaded the new
one. What decides is visible before the turn, in the set of steps that have results when it starts: one of them *has a
gap* if it lists an absent step as optional.

* A turn that starts from a swept, sound session ends sound if, once a requested step has run, no step still to run
  would load a result whose record rests on a gap: whatever the engines answer, whichever sources fail and wherever the
  turn stops (`TurnIsExactWithoutGaps`). If it runs everything, **if and only if** (`TurnIsExactExactlyWithoutGaps`,
  `ReplyIsExactExactlyWhenForeseen`); and without a request it then ends up to date **if and only if** there is no gap
  at all and, where the business is yet to be resolved beside a kept scheme capacity, the resolver will answer with the
  category the capacity was looked up for (`TurnIsUpToDateExactlyWhenGapless`).
* A conversation in which the place is known from the message on that names the business, that requests no particular
  step and meets no failed discovery never has a gap, so it is exact throughout (`OpenConversationIsExact`); messages
  that leave a choice or a contradiction pending may come in between.
* Once finances were assessed without a place, the turn that brings discovery and runs everything is inexact, for every
  engine (`LatePlaceReplyIsInexact`; such sessions arise, `Witnesses.LatePlaceArises`).
  `LateLocation.RecommendationStaysStale` shows how bad that can be. Take three consecutive turns in DEVELOPER mode,
  with no request and the radius limit 25000: one that names the business, whichever (stating it is such an opening:
  `LateLocation.StatingTheBusinessOpens`), one that adds nothing but the place, whichever, and one that says nothing.
  There are engines for which the recommendation then delivered as final is not the one its inputs give, every result
  counts as up to date, and further empty turns change nothing. In between, a sweep keeps the recommendation and drops
  the financial assessment it rests on (`SweepOpensAGap`). Other third messages, for instance one that states the cash
  and so has the plan made again, are not covered by this.

Exact conversations end as they should. Call one *settled* when nothing is left to run, no choice is pending, everything
is up to date and the plan was made with the present assets and experience: two that settle with the same declared
inputs hold the same results, whatever their histories (`ConversationsAgree`), and those are what a single turn from
nothing makes of the facts (`ConversationIsOneTurn`). One message that names business and place can be enough to settle
(`Witnesses.OneMessageSettles`).

`Ladder` tells every decision of the planner from slot values and results alone, rung by rung and in both directions; in
no conversation does a pending choice hide a radius above the limit (`ObjectsExactlyWhenTooFar`).

What holds in every conversation: a turn ends because nothing is left to run, a source is down or a runner raises, never
because of its step bound, and runs no step twice (`RunTurn`); a failed discovery reaches no market step and no delivery
(`FailureIsContained`); and the core steps are never missing beneath a result (`CoreIsNeverMissing`).

## The dialogue

`Deltas.ApplyUnderstanding` is the fold of one message into the session. Over whole conversations, with engines
interfering as they do: histories only grow at the end (`NothingStatedIsLost`) and in the order of turns
(`HistoriesAreChronological`), every figure in a numeric slot is derived from words inside the quoted text
(`NoFigureIsInvented`), and malformed updates are reported and change nothing. As long as they are answered, collection
questions come in order and at most ten in a row (`InterviewIsShort`); and whatever comes in between, a question
answered in a turn that is saved is never put again unless a hard fact is refused, so that a whole conversation has at
most ten of them and at most four about drivers (`QuestioningEnds`).

Some figures that the dialogue takes are refused later on: the numeral pattern takes a leading minus (`MinusIsTaken`)
and the plan's input models no negative number; the scheme capacity has no loan for a negative capital, the debt engine
takes no loan over less than a month, and discovery no radius below one metre or above the limit. The runner that meets
such a figure raises, outside the errors a turn handles, and nothing of the message is saved. The model has this as
`Turn.Raises` and `Dialogue.Lost`; whatever else may go wrong in a runner is an arbitrary predicate `breaks` of each
message. Short of such breaks:

* in any conversation, once the business is known, a message is saved, whatever the engines answer and whichever sources
  are down, **if and only if** the plan can be built on the figures it leaves, the loan has a month to run if all four
  drivers and all its terms are stated, a scheme capacity still to be computed has a capital, and a search still to be
  made a radius (`MessageIsSavedExactlyWhenFiguresHold`); and an answer is kept **if and only if**, besides, the message
  does not refuse it (`AnswerIsKeptExactlyWhenFiguresHold`). Before the business is known the condition is the one of
  `MessageIsSavedExactlyWhenAccepted`, on the steps that may still run;
* no plan and no assessment is ever kept over a refused figure (`NothingRestsOnRefused`), and in NORMAL mode nothing
  saved on one that keeps the plan from being built leads to a further question or a delivery
  (`RefusedFigureStopsTheInterview`);
* a loan over 0 months is saved as long as a driver is missing, because nothing is calculated yet. From then on, with
  engines that ask nothing back, every answer to the last driver is lost, and that driver is asked for again for ever
  (`LastDriverIsAskedForEver`; from the first message on: `ZeroMonthsAskForEver`).

Every choice, also one between businesses and one out of range, becomes the geocoding candidate, and so may move the
place: it changes what discovery reads **if and only if** it settles the place or the radius or is not the number chosen
last (`ChoiceMovesDiscoveryExactlyWhen`).

The planner's contribution check compares amounts only when both are `int` or `float`, and the update path stores
`Decimal`: in no conversation does it fire (`ContributionRungNeverFires`), although a single message can state a
contribution above the cash (`OverspendingGoesUnnoticed`).

## The other parts

* `TopologicalOrder`: the ordering algorithm over any dependency map; a result exactly when there is no cycle, and one
  result only.
* `Dedup`: greedy clustering with an all-members test; a partition into cliques no two of which could be combined.
* `Store`: the two tables as a class with mutable maps; any sequence of saves refines one plain ownership map.
* `Grounding`: a narrative section is accepted exactly when each of its numbers is shown by a fact it cites.
* `Chunker`: no word of a document is lost or reordered, chunk names never clash, the packing is the only possible one.
* `NumberFormat`, `ReadBack`, `Repayment`: printed numbers read back, rounding moves no amount that already has the
  places (`NumberFormat.QuantizedIsExact`), quarters add up to the schedule.

Three notes where code and documentation differ; the model follows the code. The project README speaks of an 18-node
graph and the orchestrator of 17 nodes; the table has 20. The grounding module describes its numerals as ASCII, but `\d`
matches every Unicode decimal digit; the model is parametric in the digit class. The corpus builder's heading stack
gives a heading one path entry per level only in documents that never skip a level on the way down
(`PathsMatchExactlyWhenNoLevelSkipped`).

## Model

| member | source | states |
|---|---|---|
| TopologicalOrder.KahnOrder | src/vyaparsarathi/conversation/workflow.py:218-243 | on any finite dependency map: a duplicate-free order of all keys with every step after its dependencies, sorted by level then name; on maps closed over their keys, no result exactly when there is a cycle |
| TopologicalOrder.KahnIsDeterministic | src/vyaparsarathi/conversation/workflow.py:229-236 | only one sequence has the properties promised of the order, so ties and iteration order cannot show |
| TopologicalOrder.StuckMeansCycle | src/vyaparsarathi/conversation/workflow.py:237-238 | when no remaining step is ready, the remaining steps contain a cycle |
| TopologicalOrder.OrderExcludesCycle | src/vyaparsarathi/conversation/workflow.py:257-258 | a graph with a topological order has no cycle |
| Workflow.ComputeDagOrder | src/vyaparsarathi/conversation/workflow.py:246-254 | the algorithm run on the twenty-step table yields the fixed order |
| Workflow.TableHasNoCycle | src/vyaparsarathi/conversation/workflow.py:257-258 | no cycle in required and optional edges of the shipped table |
| Workflow.EdgesAreLoads | src/vyaparsarathi/llm/tools.py:228-456 | told from the twenty runners: a step requires exactly the results its runner loads, besides the resolver's where it only takes the category from the session, and lists as optional exactly those it tries to load |
| Workflow.ReadySteps | src/vyaparsarathi/conversation/workflow.py:261-277 | exactly the steps without result whose required steps have results and whose gating slots are satisfied |
| StepCache.Pipeline.ComputeFingerprints | src/vyaparsarathi/conversation/artifacts.py:147-158 | one pass in order computes for every step the recursively defined fingerprint |
| StepCache.Pipeline.Invalidate | src/vyaparsarathi/conversation/artifacts.py:161-177 | keeps exactly the artifacts stored under their present fingerprint; the dropped steps are listed in order |
| StepCache.Pipeline.FreshFrame | src/vyaparsarathi/conversation/artifacts.py:93-138 | a fingerprint depends only on declared inputs and on the presence of optional steps below it |
| StepCache.Pipeline.KeptIsClosed | src/vyaparsarathi/conversation/artifacts.py:161-177 | in an embedded session a kept step's upstream steps are kept with it |
| StepCache.Pipeline.OnePassLeavesNothingStale | src/vyaparsarathi/conversation/artifacts.py:161-177 | from any embedded session, under any new inputs, one sweep leaves only up-to-date artifacts, so a second changes nothing |
| StepCache.Pipeline.Execute | src/vyaparsarathi/llm/tools.py:514-533 | running a step calls its engine on what the runner sees of the session and on the loaded payloads, applies its write and records the answer under the fingerprint computed afterwards |
| StepCache.Pipeline.RecordedOver | src/vyaparsarathi/llm/tools.py:514-533 | the recorded fingerprint names what the loaded steps' fingerprints would be now, not what is stored for them |
| StepCache.Pipeline.RunKeepsEmbeddedExactlyWhenLoadsFresh | src/vyaparsarathi/llm/tools.py:514-533 | running a ready step keeps stored fingerprints built over stored fingerprints if and only if everything it loads is up to date |
| StepCache.Pipeline.SweepKeepsTheUserOfAStaleLoad | src/vyaparsarathi/conversation/artifacts.py:161-177 | after a run the sweep keeps the step that ran and drops exactly the loaded artifacts that were stale |
| StepCache.Pipeline.HistoryIsSound | src/vyaparsarathi/conversation/artifacts.py:147-197 | soundness survives every sequence of edits, sweeps and runs over up-to-date artifacts, whatever runners see |
| StepCache.Pipeline.CacheAgreement | src/vyaparsarathi/conversation/artifacts.py:93-177 | after any such sequence, an artifact a sweep keeps is its engine's answer on what was seen when it ran and on what would be loaded now; it is the answer now if the runner would see the same, and the from-scratch value if every kept runner would |
| StepCache.Pipeline.RunLeavesAllFreshExactlyWhen | src/vyaparsarathi/conversation/artifacts.py:107-113 | a run leaves everything up to date if and only if no present step lists it as optional and its write touches no present step's inputs |
| StepCache.Pipeline.OptionalAppears | src/vyaparsarathi/conversation/artifacts.py:107-113 | the first appearance of an optional dependency makes its users stale |
| StepCache.Pipeline.RunDropsOnlyLater | src/vyaparsarathi/conversation/workflow.py:246-254 | a run can make stale only steps later in the order |
| StepCache.Pipeline.RunAndSweepProgresses | src/vyaparsarathi/conversation/planner.py:193-204 | if every run were followed by a sweep, the presence vector read as a binary number would strictly increase below 2^n, whatever step is chosen |
| StepCache.Pipeline.FingerprintChangesExactlyWhenReached | src/vyaparsarathi/conversation/artifacts.py:93-138 | an edit changes a fingerprint exactly when a changed input reaches it along fingerprint edges |
| StepCache.Pipeline.SweepDropsExactlyWhatTheEditReaches | src/vyaparsarathi/conversation/artifacts.py:161-177 | from an up-to-date session the sweep after an edit drops exactly the steps the edit reaches |
| StepCache.Pipeline.Confluence | src/vyaparsarathi/conversation/artifacts.py:147-177 | two complete sessions whose steps declare and see the same hold the same artifacts, whatever else differs in their inputs and whatever led to them |
| StepCache.Pipeline.FinishedIsScratchExactlyWhenComplete | src/vyaparsarathi/conversation/artifacts.py:147-177 | a finished session holds the from-scratch results if and only if it is sound and up to date and every runner would see the same now |
| StepCache.Pipeline.PassIsScratch | src/vyaparsarathi/conversation/artifacts.py:147-158 | where runners have nothing left to write, running the steps in the fixed order from nothing produces the from-scratch value of each; settled conversations are such a case (Endings.ConversationIsOneTurn) |
| StepCache.Pipeline.FinishedIsOnePass | src/vyaparsarathi/conversation/workflow.py:246-254 | a complete session whose runners have nothing left to write is the result of one from-scratch pass in the fixed order |
| Artifacts.EarlierWriteIsInvisible | src/vyaparsarathi/llm/tools.py:149-225 | what a runner writes into the session never enters the inputs of an earlier step |
| Artifacts.DeclaredCoversTaken | src/vyaparsarathi/llm/tools.py:149-458 | what each of the twenty runners takes from the session's slots, profile, candidate and category, described on its own, is exactly what its step declares of them, but for what reaches a runner through other results and the fields listed as undeclared |
| Artifacts.RunnersTake | src/vyaparsarathi/llm/tools.py:149-458 | besides answers, what a runner takes depends on the category for exactly six steps, on the subtypes for the plan, on the candidate for discovery and demand evidence, and on the profile sets for the plan and the opportunity |
| Artifacts.ResolverWrites | src/vyaparsarathi/llm/tools.py:149-186 | the resolver leaves its category and subtypes, and makes the business ambiguous, offering its choices and one way out, exactly when it did not resolve it but has choices; it touches nothing else |
| Artifacts.DiscoveryWrites | src/vyaparsarathi/llm/tools.py:189-225 | discovery records the default radius exactly when none was stated, and makes the place ambiguous with the geocoder's choices exactly when it was; it touches nothing else |
| Artifacts.AdvisorIsWellFormed | src/vyaparsarathi/llm/tools.py:149-225 | what a runner of the twenty steps writes into the session is declared or read by no earlier step, and unless it leaves a question open changes nothing the runner itself would read |
| Artifacts.ProfileIsUndeclared | src/vyaparsarathi/conversation/plan_builder.py:90-117 | a change of assets or experience leaves the plan's declared inputs as they are, and what its runner reads if and only if both sets stay the same |
| Records.SeenIsCurrent | src/vyaparsarathi/llm/tools.py:149-458 | the runner of an up-to-date result would take the same from the session now as when it ran, by a description of the runners that does not look at what steps declare; for the plan if and only if the asset and experience sets are those it saw; of every session whose records are consistent, which Records.TalkIsConsistent shows of every conversation |
| Records.TalkIsConsistent | src/vyaparsarathi/llm/tools.py:149-458 | over any conversation, whatever fails or raises: what each kept record saw of undeclared fields is told by its fingerprint and the resolver's record, and the session's category and subtypes are the resolver's |
| Records.CurrentExactlyWhenProfileStands | src/vyaparsarathi/conversation/artifacts.py:38-138 | so every result of an up-to-date session is of a runner that would read the same now if and only if the plan, when there, was made with the present assets and experience |
| Edits.MessageDropsWhatItChanges | src/vyaparsarathi/conversation/artifacts.py:161-177 | after any conversation, whatever is said next: if it changes what the runner of a kept result takes, the sweep drops that result, the plan's profile sets apart |
| Edits.EditDropsWhatItChanges | src/vyaparsarathi/conversation/artifacts.py:161-177 | so for any edit of the facts in any session whose records are consistent |
| Edits.NewAnswerCosts | src/vyaparsarathi/conversation/artifacts.py:38-138 | slot by slot, in a table of its own: from a complete, up-to-date session the sweep after a new answer drops exactly the listed results; new cash, for one, costs the plan, everything on it and the scheme capacity, and a new principal the plan and the financing knowledge |
| Edits.NewProfileCosts | src/vyaparsarathi/conversation/artifacts.py:93-106 | new assets or experience cost a complete session exactly the opportunity, the recommendation and the SWOT analysis |
| Edits.NewCandidateCosts | src/vyaparsarathi/conversation/artifacts.py:93-106 | another geocoding candidate costs everything but the resolver's result, the plan and the scheme capacity |
| Gaps.WithoutGapNothingShows | src/vyaparsarathi/conversation/artifacts.py:93-138 | steps may appear, but a fingerprint that rests on no gap does not show it |
| Gaps.GapShows | src/vyaparsarathi/conversation/artifacts.py:107-113 | once everything before it is present, a fingerprint that rested on a gap has changed, whatever the inputs |
| CoreSteps.SweepRestoresCore | src/vyaparsarathi/conversation/artifacts.py:161-177 | from any session whose readers of core steps are anchored, the sweep leaves the core up to date and drops every reader of a dropped core step |
| CoreSteps.RunKeepsCore | src/vyaparsarathi/llm/tools.py:514-533 | any ready step may run over artifacts however stale without unsettling the core or its readers |
| Containment.MarketStepsReadDiscovery | src/vyaparsarathi/conversation/artifacts.py:83-106 | exactly seven steps rest on discovery along fingerprint edges; demand evidence does not |
| Containment.FailureIsContained | src/vyaparsarathi/conversation/planner.py:86-106 | after any conversation that leaves a hard-failed discovery, no market step has a result, none would be run and nothing is delivered, whatever is requested |
| Containment.CoreIsNeverMissing | src/vyaparsarathi/conversation/planner.py:178-204 | after any conversation a step that rests on a core step has that step's result beside it |
| Ladder.FirstRungs | src/vyaparsarathi/conversation/planner.py:119-176 | of any facts, told by slot values: the planner ends exactly when the session has ended; objects exactly when it has not and the user stated a whole radius above the limit or a contribution above the cash, choice pending or not; and asks for a choice exactly when neither holds and one is pending, then for the first pending slot with its options |
| Ladder.RunRung | src/vyaparsarathi/conversation/planner.py:178-204 | past those, a step is run exactly when one can be: the requested one if it can, else the earliest |
| Ladder.StopRungs | src/vyaparsarathi/conversation/planner.py:206-238 | when nothing can run, a failed discovery is reported exactly when there is one, and else the business, or else the place, asked for exactly when nobody has spoken of it |
| Ladder.LastRungs | src/vyaparsarathi/conversation/planner.py:240-280 | past those, in NORMAL mode the first item wanting or else the first driver lacking is asked for exactly when there is one; and else the delivery is final exactly when there is a recommendation |
| Ladder.ObjectsExactlyWhenTooFar | src/vyaparsarathi/conversation/planner.py:119-176 | in any conversation: an objection exactly when the session has not ended and the present whole radius the user stated exceeds the limit, and a choice asked for exactly when one is pending and neither holds |
| Planner.NothingRunnableMeansDone | src/vyaparsarathi/conversation/planner.py:193-204 | with business and place known and discovery not failed, a step without result means some step can run |
| Planner.PartialMeansDeclined | src/vyaparsarathi/conversation/planner.py:229-280 | a partial delivery happens only in DEVELOPER mode with the business or the place declined |
| Planner.FinalMeansEverythingRan | src/vyaparsarathi/conversation/planner.py:277-280 | a final delivery with both structural facts known rests on all twenty steps |
| Planner.RequestOnlyNarrows | src/vyaparsarathi/conversation/planner.py:198-204 | a requested step is run only if it is runnable anyway, and never before an earlier one could have been |
| Planner.ContributionCaughtExactlyWhenPlain | src/vyaparsarathi/conversation/planner.py:119-134 | the rung fires if and only if the contribution exceeds the cash and both figures are stored as plain integers |
| Turn.RunTurn | src/vyaparsarathi/llm/orchestrator.py:57-90 | the turn ends on the planner's decision, a failing source or a runner that raises, never on the step bound; if it raises, the session stays as it was saved before; else the dropped steps are those the sweep removed, nothing recorded is touched, no step runs twice and positions strictly increase after the first |
| Turn.RaisesMeansRefused | src/vyaparsarathi/models/finance.py:98-101 | short of runners that break, a turn whose figures the plan, the profile, the scheme capacity, the debt engine and discovery take never raises, and leaves them such |
| Readiness.CapacityComputesExactlyWhenNotNegative | src/vyaparsarathi/finance/capacity.py:149-181 | after its two roundings the loan indicated for a stated capital is refused exactly when the capital is -0.0005 rupees or less |
| Readiness.PaiseIsNearest | src/vyaparsarathi/finance/money.py:46-49 | rounding to the paisa is to the nearest, halves away from zero |
| Raising.TurnComesThroughExactlyWhenAccepted | src/vyaparsarathi/llm/orchestrator.py:74-86 | told before the turn, short of runners that break: it raises for no answers of the engines and no failing sources if and only if it is stopped from running anything, or no step that may still run and no later rung refuses a figure |
| Turn.NextIsLater | src/vyaparsarathi/conversation/planner.py:193-204 | running the first runnable step makes no earlier one runnable |
| Exactness.TurnIsExactWhenLoadsAreFresh | src/vyaparsarathi/llm/orchestrator.py:68-90 | a turn that starts sound ends sound if and only if no step it ran loaded a stale artifact |
| Exactness.ColdTurnIsExact | src/vyaparsarathi/llm/orchestrator.py:68-90 | a turn from no results without a request ends with every artifact up to date and of a runner that would see the same now, equal to its engine's answer now and, once nothing is asked, to a from-scratch evaluation |
| Foresight.TurnIsExactWithoutGaps | src/vyaparsarathi/llm/orchestrator.py:68-90 | told before the turn: from a swept, sound session a turn ends sound if no step still to run, after the requested one, would load a result that rests on a gap |
| Foresight.TurnIsExactExactlyWithoutGaps | src/vyaparsarathi/llm/orchestrator.py:68-90 | if the turn runs everything, it ends sound if and only if that is so |
| Foresight.TurnIsUpToDateExactlyWhenGapless | src/vyaparsarathi/conversation/artifacts.py:107-113 | told before the turn: if one without a request runs everything, it ends up to date if and only if no step present at its start lists an absent one as optional and, where the resolver is missing beside a kept scheme capacity, it will answer with the category that capacity was looked up for |
| Foresight.LatePlaceIsInexact | src/vyaparsarathi/conversation/workflow.py:130-138 | for every engine: once finances were assessed without a place, the turn that brings discovery and runs everything ends neither sound nor up to date |
| Exactness.ConversationAgrees | src/vyaparsarathi/conversation/artifacts.py:93-177 | over whole conversations of turns with arbitrary edits in which no run loaded a stale artifact, every result the next sweep keeps, whatever is edited, is its engine's answer on what was seen and what would be loaded now, the answer now if the runner would see the same, and the from-scratch value if every kept runner would |
| Agreement.ReplyIsExactExactlyWhenForeseen | src/vyaparsarathi/llm/orchestrator.py:68-90 | a message whose turn runs everything leaves an exact conversation exact if and only if, told before the turn, no step still to run, after the requested one, would load a result that rests on a gap |
| Agreement.OpenConversationIsExact | src/vyaparsarathi/conversation/workflow.py:261-277 | a conversation in which the place is known from the message on that names the business, that requests no step and meets no failed discovery is exact throughout; messages that are lost or leave a choice or a contradiction pending may come in between |
| Agreement.LatePlaceReplyIsInexact | src/vyaparsarathi/conversation/workflow.py:130-138 | in an exact conversation in which finances were assessed without a place, a message whose turn runs everything ends the exactness, whatever the engines |
| Agreement.KeptResultsAgree | src/vyaparsarathi/conversation/artifacts.py:161-177 | after any exact conversation, whatever is said next: each result the sweep keeps equals its engine's answer now, the plan if the asset and experience sets are those it was made with, and then all equal the from-scratch values |
| Agreement.PlanAgreesExactlyWhenProfileStands | src/vyaparsarathi/llm/tools.py:375-378 | a kept plan is what its runner would give now, for every engine, if and only if the asset and experience sets are those it was made with |
| UndeclaredProfile.AddedAssetLeavesPlanBehind | src/vyaparsarathi/conversation/plan_builder.py:108-112 | for every first message that names the business and every second one that only adds an asset, there are engines for which the sweep keeps a plan that its runner would no longer give |
| Endings.ConversationIsOneTurn | src/vyaparsarathi/llm/orchestrator.py:68-90 | a settled exact conversation is what one turn from nothing makes of its facts |
| Endings.FinishedSessionsAgree | src/vyaparsarathi/conversation/workflow.py:261-277 | two exact sessions stopped with both gates open and equal declared inputs hold the same results, whatever their histories |
| Endings.ConversationsAgree | src/vyaparsarathi/conversation/artifacts.py:93-138 | two exact conversations that settled with equal declared inputs hold the same results, whatever was said in however many messages |
| LateLocation.RecommendationStaysStale | src/vyaparsarathi/llm/orchestrator.py:68-90 | with chosen engines, in DEVELOPER mode, without requests and with radius limit 25000: after three turns that name any business, add any place and say nothing, a recommendation its inputs do not give is delivered as final, everything counts as up to date, and further empty turns change nothing |
| LateLocation.SweepOpensAGap | src/vyaparsarathi/conversation/artifacts.py:161-177 | in each such run of three turns a sweep keeps the recommendation and drops the financial assessment it requires |
| LateLocation.LateTurnsDoNotRaise | src/vyaparsarathi/conversation/plan_builder.py:131-215 | if the figures stated are ones that the plan, the loan and the search take, none of the three turns raises |
| Deltas.ApplyUnderstanding | src/vyaparsarathi/conversation/deltas.py:149-288 | the loops compute the fold of well-formed updates, refusals, profile edits and the choice, and report every update left out; the rows below say what that fold is |
| Deltas.MalformedUpdatesChangeNothing | src/vyaparsarathi/conversation/deltas.py:159-181 | every update is either applied or reported, and the reported ones might as well be absent |
| Deltas.TimelineGrowsByAdditions | src/vyaparsarathi/conversation/session_models.py:202-207 | a message appends to each slot's history exactly what it says about that slot, in order |
| Deltas.ChoiceSettlesExactlyWhenOnOffer | src/vyaparsarathi/conversation/deltas.py:244-277 | a choice settles the first pending slot, with the text of the option, if and only if its number is on offer, touches no other slot, is reported otherwise, and becomes the geocoding candidate in any case |
| Deltas.AssetsAreEdited | src/vyaparsarathi/conversation/deltas.py:191-220 | item by item: after a message that adds or removes assets, one is owned exactly when it was or is added, and is not removed, and the notes and the quotation are kept up; a mere refusal leaves none and says so; either is added to the history, and silence changes nothing |
| Deltas.ExperienceIsEdited | src/vyaparsarathi/conversation/deltas.py:222-242 | the same of the trade experience |
| Deltas.LastStatementStands | src/vyaparsarathi/conversation/deltas.py:159-181 | the last well-formed statement about a slot that the message does not refuse stands, with its value, quotation, token and unit |
| Deltas.RefusalStands | src/vyaparsarathi/conversation/deltas.py:183-190 | a refused slot is left refused, whatever else is said of it, and the refusal is remembered |
| Deltas.TakenExactlyWhen | src/vyaparsarathi/conversation/deltas.py:120-146 | a statement is taken if and only if its token is a slice of the quoted text and, for the two free texts, not blank, for the others in a unit the slot allows and with an ASCII digit in it; slots counted in whole units hold the value cut towards zero |
| Deltas.UnitsAgree | src/vyaparsarathi/models/parameters.py:106-142 | the value read in each unit is the one read as stated times the unit: a thousand, a hundred of those, a hundred of those again, a hundredth; years give the whole months cut towards zero |
| Deltas.FirstNumeralIsLeftmost | src/vyaparsarathi/models/parameters.py:103-127 | the numeral read is the longest match at the first ASCII digit, with the minus directly before it |
| Dialogue.ChoiceMovesDiscoveryExactlyWhen | src/vyaparsarathi/conversation/deltas.py:244-247 | a choice changes what discovery declares and reads if and only if it settles the place or the radius or is not the number chosen last |
| Dialogue.NothingStatedIsLost | src/vyaparsarathi/conversation/deltas.py:149-334 | over whole conversations every slot's history, the profile's histories, the order in which slots were first spoken of and the declined set only grow at the end |
| Chronology.HistoriesAreChronological | src/vyaparsarathi/llm/orchestrator.py:64-90 | in every conversation the turn index is the number of messages that were saved, every history is in the order of turns, and no entry is of a turn to come |
| Dialogue.NoFigureIsInvented | src/vyaparsarathi/conversation/deltas.py:120-146 | everything ever recorded in a numeric slot is the value its quoted words give, with the quotation in the recorded text, or the configured radius |
| Dialogue.ContributionRungNeverFires | src/vyaparsarathi/conversation/planner.py:119-134 | in no conversation does the contribution contradiction arise |
| Dialogue.OverspendingGoesUnnoticed | src/vyaparsarathi/conversation/planner.py:119-134 | one message can state a contribution above the cash, and no contradiction is seen |
| Questions.AsksTheFirstOpen | src/vyaparsarathi/conversation/planner.py:248-275 | a collection question is the first one still open in the fixed order of six items and four drivers |
| Questions.AnswerClosesAndReopensNothing | src/vyaparsarathi/conversation/readiness.py:143-190 | as a message is folded in, it closes what it answers and leaves closed questions closed, short of refusing a hard fact |
| Questions.AnswerClosesExactlyWhenNotRefused | src/vyaparsarathi/conversation/readiness.py:86-97 | as a message is folded in, an answered question is closed if and only if the message does not also refuse one of the three hard facts it concerns |
| Questions.AnswerIsKeptExactlyWhenSaved | src/vyaparsarathi/app/service.py:143-150 | after the whole turn an answered question other than business and place is closed if and only if the message does not refuse it and the turn does not raise, over a figure or otherwise |
| Questions.MessageIsSavedExactlyWhenAccepted | src/vyaparsarathi/app/service.py:143-150 | told from session and message before the turn, short of runners that break: the message is saved whatever the engines answer and whichever sources are down if and only if nothing will run, or no step that may run and no rung after them refuses a figure it leaves |
| Questions.AnswerIsKeptExactlyWhenAccepted | src/vyaparsarathi/app/service.py:143-150 | an answer to a question other than business and place is kept whatever the engines answer and whichever sources are down if and only if the message does not refuse it and its figures are so accepted |
| Questions.NegativeAnswerIsRefused | src/vyaparsarathi/conversation/plan_builder.py:49-62 | a message whose one statement about a slot is negative leaves facts from which no plan can be built, for every slot but the two free texts, the radius, the cash and the years of experience |
| Readiness.PlanTakesNoNegative | src/vyaparsarathi/models/finance.py:98-101 | no plan over a negative figure; over negative cash where no contribution was stated, nor where it or the years come to a whole negative number |
| Readiness.PlanBuildsOtherwise | src/vyaparsarathi/conversation/plan_builder.py:49-117 | nothing else keeps the plan from being built |
| Figures.RaisesExactlyWhenTold | src/vyaparsarathi/llm/tools.py:149-458 | step by step, which stated figures its runner raises on: the scheme capacity on a capital of -0.0005 rupees or less, discovery on a radius that comes to no whole metre or more than the limit, the financing knowledge on a negative principal, the plan on any figure its models refuse, the assessment on a complete loan that comes to no whole month, the opportunity on cash or years that come to a whole negative number, and no other step |
| Questions.RefusedFigureStopsTheInterview | src/vyaparsarathi/conversation/planner.py:248-280 | in NORMAL mode a turn saved over a refused figure neither asks for a further fact nor delivers |
| Questions.NextQuestionIsLater | src/vyaparsarathi/conversation/planner.py:248-275 | across a whole turn that is saved, with whatever the engines write, the next question comes later in the order than the one answered |
| Questions.InterviewIsShort | src/vyaparsarathi/conversation/readiness.py:72-122 | an unbroken interview whose questions are answered in turns that are saved has at most ten of them, in order |
| Questions.AnsweredIsNotAskedAgain | src/vyaparsarathi/conversation/readiness.py:143-190 | whatever is said, chosen, down or asked in between, a question answered in a turn that is saved is not put again unless some message refuses the hard fact it is about |
| Questions.QuestioningEnds | src/vyaparsarathi/conversation/readiness.py:72-122 | in any stretch of any conversation at most ten collection questions are put and answered in turns that are saved if no hard fact they are about is refused, each once, and at most four are drivers whatever is refused |
| Figures.NothingRestsOnRefused | src/vyaparsarathi/conversation/artifacts.py:56-68 | in every conversation, before and after every sweep: a plan is there only if the present figures make one, an assessment only if the present loan, if any, has a month to run |
| Figures.MessageIsSavedExactlyWhenFiguresHold | src/vyaparsarathi/app/service.py:143-150 | in any conversation, once the business is known and short of runners that break: a message is saved whatever the engines answer and whichever sources are down if and only if the plan can be built, the loan has a month to run if all drivers and all its terms are stated, a scheme capacity still to be computed has a capital that is not negative, and a search still to be made a radius within the limit |
| Figures.AnswerIsKeptExactlyWhenFiguresHold | src/vyaparsarathi/app/service.py:143-150 | so an answer to a question other than business and place is kept if and only if the message does not refuse it and those figures hold |
| Figures.RefusedFigureIsLost | src/vyaparsarathi/discovery/service.py:96-104 | with engines that ask nothing back and every source up, every message that leaves other figures is lost |
| Figures.LastDriverIsAskedForEver | src/vyaparsarathi/finance/debt.py:111-112 | in any conversation with a loan over no whole month and one driver missing, with engines that ask nothing back: however often that driver is stated, nothing of it is saved and the session stays as it was |
| Witnesses.ZeroMonthsAskForEver | src/vyaparsarathi/finance/pipeline.py:130 | one first message with a loan over 0 months and every figure but the fixed costs is saved; after it, however many amounts are given in answer, the fixed costs are asked for |
| Dedup.Cluster | src/vyaparsarathi/dedup/deduplicator.py:158-187 | the clustering loop: the decisions are the pairs inside clusters, each of them there and each a matching pair, at least as many as records that disappear |
| Dedup.ClusteringIsSound | src/vyaparsarathi/dedup/deduplicator.py:165-187 | the clusters partition the input, are cliques, and no record of a later one could join an earlier one |
| Dedup.ClustersCannotBeCombined | src/vyaparsarathi/dedup/deduplicator.py:165-187 | the union of two final clusters is never a clique |
| Dedup.ArrivalOrderIsIrrelevant | src/vyaparsarathi/dedup/deduplicator.py:159-160 | with distinct sort keys the clusters do not depend on input order |
| Dedup.DecisionsCoverReduction | src/vyaparsarathi/dedup/deduplicator.py:165-187 | the sum of pairs over clusters is at least the number of records merged away |
| Dedup.CombineProvenance | src/vyaparsarathi/dedup/deduplicator.py:128-135 | every key of every member once, at its first occurrence |
| Dedup.Combine | src/vyaparsarathi/dedup/deduplicator.py:117-154 | the survivor is the best member with the name, category and address of the first member that has one, the earliest and latest sighting of all, the best quality, lifted and capped if several sources agree, and every observation once, at its first occurrence |
| Dedup.Dedupe | src/vyaparsarathi/dedup/deduplicator.py:158-200 | one survivor per cluster: a single record is its own, any other cluster's has the name, category and address of the first member that has one, the widest time span, the lifted best quality and all observations; each cluster is led by its best record; the observations that go out are exactly those that came in |
| Dedup.CollectUncertain | src/vyaparsarathi/dedup/deduplicator.py:202-230 | exactly the representative pairs that are suggestive but do not match, once each |
| Store.Repository.Upsert | src/vyaparsarathi/database/sql.py:65-131 | rebuilds a business's observations, takes over those owned elsewhere and drops businesses left with none, keeping the tables consistent; Store.SaveClaimsProvenance says which those are |
| Store.SaveClaimsProvenance | src/vyaparsarathi/database/sql.py:85-114 | after a save the business owns exactly the keys of its provenance, or its own source key if that is empty, each with the time of its last entry there; every other key keeps its owner and time unless it was the business's own, which is forgotten |
| Store.Repository.SaveBusinesses | src/vyaparsarathi/database/sql.py:60-63 | a list of saves is the sequence of single saves |
| Store.SaveKeepsConsistent | src/vyaparsarathi/database/sql.py:92-131 | no dangling observation and no business without one, before and after a save |
| Store.TablesRefineOwnership | src/vyaparsarathi/database/sql.py:60-131 | after any saves each key has the owner that the plain rule "the last save to mention it, until that business saves without it" gives |
| Store.RowsAreLastSaves | src/vyaparsarathi/database/sql.py:66-83 | a business that is still stored has the source, time and detail of its last save |
| Store.SaveIsIdempotent | src/vyaparsarathi/database/sql.py:65-131 | saving a business twice in a row is saving it once |
| Grounding.CheckSection | src/vyaparsarathi/conversation/grounding.py:70-101 | accepts a section exactly when it has no banned phrase and every long enough number of it appears in a cited fact; a rejection names an offender |
| Text.OccursExactlyWhenSlice | src/vyaparsarathi/conversation/grounding.py:88 | the containment test, also of quotations in the dialogue, holds exactly when some slice of the text is the token |
| Numerals.MatchIsLongest | src/vyaparsarathi/conversation/grounding.py:31 | a number found is the longest stretch from its first digit that has the form of one |
| Numerals.NumeralsHoldAllDigits | src/vyaparsarathi/conversation/grounding.py:31 | every number found has the form of one, and together they hold every digit of the text, in order (Numerals.OnlyDigitsAreKept: all of them and nothing else) |
| Grounding.NumbersOfJoin | src/vyaparsarathi/conversation/grounding.py:91-92 | the numbers of the space-joined renders are exactly the union of the numbers of each |
| Grounding.AcceptanceIsMonotone | src/vyaparsarathi/conversation/grounding.py:94-101 | citing more or having more facts never turns an accepted section away |
| Grounding.CitedProseIsGrounded | src/vyaparsarathi/conversation/grounding.py:70-101 | text made of cited renders and digit-free words with blanks between is accepted at every threshold |
| Grounding.UncitedMeansDigitFree | src/vyaparsarathi/conversation/grounding.py:81-86 | at the default threshold a section that cites nothing is accepted exactly when it is clean and has no digit |
| Chunker.ParseSections | scripts/build_knowledge_corpus.py:116-165 | the line loop computes the outline of the document and keeps its sections with text |
| Chunker.SectionsHoldBody | scripts/build_knowledge_corpus.py:125-163 | the sections hold exactly the lines that are neither heading nor marker, in order |
| Chunker.SectionsAreExplained | scripts/build_knowledge_corpus.py:116-165 | cut at its headings, the document's segments account for each section: its heading's path and number, its own lines, the last page marker up to its end and its own last tags |
| Chunker.SegmentsAreTheLines | scripts/build_knowledge_corpus.py:125-163 | the segments are all the lines in order, each but the first opening with a heading and none holding another |
| Chunker.PathsMatchExactlyWhenNoLevelSkipped | scripts/build_knowledge_corpus.py:149-161 | heading paths have one entry per level if and only if no heading skips a level |
| Chunker.SplitParagraphs | scripts/build_knowledge_corpus.py:168-187 | chunks are joined groups of consecutive paragraphs within the limit or single, cut only on overflow, with all words kept |
| Chunker.PackingIsUnique | scripts/build_knowledge_corpus.py:175-187 | only one grouping fits every group and cuts only on overflow |
| Chunker.PiecesKeepWords | scripts/build_knowledge_corpus.py:170-171 | splitting text at blank lines loses no word |
| Chunker.PiecesAreSplit | scripts/build_knowledge_corpus.py:170-171 | the pieces with the breaks between them give the text back; every break is blank from newline to newline, and no piece holds one |
| Chunker.ParagraphsAreWhole | scripts/build_knowledge_corpus.py:170-172 | a paragraph neither starts nor ends blank and holds no break |
| Chunker.RefTellsLocator | src/vyaparsarathi/models/knowledge.py:114-128 | two locators have the same text if and only if they are the same, if their section numbers hold no slash; none is empty |
| Chunker.IdsAreDistinct | scripts/build_knowledge_corpus.py:206-210 | numbered locators never clash, not even with a locator that looks like another's numbered one |
| Chunker.BuildChunks | scripts/build_knowledge_corpus.py:190-225 | the chunks hold exactly the body words in order and are, section after section, its packed paragraphs with its heading, tags and page, counted where there are several; each is named by its locator, numbered from the second use on, and no two share a name |
| NumberFormat.GroupIndian | src/vyaparsarathi/dpr/format.py:44-57 | groups of one or two, then two, then three digits that concatenate to the input |
| NumberFormat.GroupingRoundTrips | src/vyaparsarathi/dpr/format.py:44-57 | deleting the commas gives the digits back |
| NumberFormat.GroupingIsUnique | src/vyaparsarathi/dpr/format.py:44-57 | a digit string has one Indian grouping |
| NumberFormat.QuantizedIsNearest | src/vyaparsarathi/dpr/format.py:68-74 | rounding moves an amount by at most half a unit, ties upwards |
| NumberFormat.FormatInr | src/vyaparsarathi/dpr/format.py:60-75 | the printed amount is the sign, the currency and the digits in Indian groups and parses back to the amount rounded half-up to the rupee or, with paise, to the paisa; a missing value prints the not-available phrase |
| NumberFormat.FormatPctValue | src/vyaparsarathi/dpr/format.py:99-108 | the printed percentage denotes exactly the quantized value; its whole part has no leading zero and its fraction at most the places asked for and no trailing one |
| ReadBack.PrintedAmountReadsBack | src/vyaparsarathi/models/parameters.py:103-130 | the repository's own reader of amounts recovers the rounded magnitude from every printed amount |
| ReadBack.PrintedPaiseReadBack | src/vyaparsarathi/models/parameters.py:103-130 | so from every amount printed with paise |
| ReadBack.PrintedPercentageReadsBack | src/vyaparsarathi/models/parameters.py:103-132 | and from every printed percentage the quantized ratio |
| ReadBack.SignIsKeptExactlyWhenNotNegative | src/vyaparsarathi/models/parameters.py:98-130 | it recovers the printed amount itself if and only if that is not negative or rounds to nothing |
| Repayment.MonthRows | src/vyaparsarathi/dpr/repayment_schedule.py:40-73 | moratorium rows then repayment rows, the deferred interest added to the first repayment month |
| Repayment.MonthsCarryEverything | src/vyaparsarathi/dpr/repayment_schedule.py:40-73 | the rows carry the amortised principal and all interest, the lump once and only if there is a repayment month |
| Repayment.RowsAreAsAgreed | src/vyaparsarathi/dpr/repayment_schedule.py:40-73 | month by month, for each treatment of the moratorium: the interest is the balance's, paid, capitalised or deferred as agreed and the lump noted where it falls due; from then on the instalment is the agreed one and the last month repays what is left |
| Repayment.Quarters | src/vyaparsarathi/dpr/repayment_schedule.py:76-147 | one quarter per three months or rest, with the totals of the schedule |
| Repayment.StatusIs | src/vyaparsarathi/dpr/repayment_schedule.py:90-96 | a quarter is mixed exactly when it has months of both kinds, and else of the kind of all its months |
| Repayment.QuartersConserve | src/vyaparsarathi/dpr/repayment_schedule.py:87-100 | regrouping changes no total |
| Repayment.QuartersChain | src/vyaparsarathi/dpr/repayment_schedule.py:110-145 | quarter balances chain whenever month balances do |
| Repayment.StatusesAreInOrder | src/vyaparsarathi/dpr/repayment_schedule.py:90-96 | moratorium quarters, at most one mixed one, repayment quarters |
| Repayment.ScheduleIsComplete | src/vyaparsarathi/finance/debt.py:103-204 | for every amortising schedule the finance engine produces: months are numbered without gap, balances chain from the loan to zero, the principal repaid is what was lent plus what was capitalised, and no accrued interest is lost |

## Left out

- Engines: each step's engine is an arbitrary function of what `Artifacts.Read` says its runner takes from the session
  and of the payloads it loads; configuration objects, clocks and external sources are part of the engine. The
  demand-evidence runner takes place, query text and radius from the discovery result; the model has it read the
  location, radius and candidate from which discovery determines them. Discovery's geocoding status, the resolver's
  choices and the results' other content are fields of the payload; the wording of the resolver's last option is
  shortened.
- Hashing: SHA-256 over canonical JSON is the tree it hashes; collisions are not modelled. The code hashes the text of a
  slot's value (conversation/artifacts.py:88-90) and the model the value, so restating 5 as 5.0 changes the fingerprint
  there and not here.
- Failing sources end a turn at the step concerned; their messages, clocks, identifiers, the audit record of a turn and
  the session repository are not modelled, except that a turn that raises saves nothing. In particular a repository that
  stores JSON reloads whole numbers as decimals, on which the planner's radius rung does not fire.
- Runner errors other than those of `Turn.StepRaises` are the arbitrary predicate `breaks` of a message: a geocoding
  candidate out of range (geocoding/resolve.py:76-83), an ambiguity without options, a blank place, amounts and
  durations beyond the decimal context, and plans completed from retrieved evidence rather than by the user. The radius
  limits of the planner and of discovery are one number, as their defaults are, and the scheme table is the shipped one.
- Foresight.TurnIsUpToDateExactlyWhenGapless: turns without a request; with one, the requested step may itself be left
  stale by the earlier ones that run after it.
- Slot values: `Decimal` is a real number, so the 28-digit context precision, negative zero and special values are not
  modelled; the slot model's re-reading of numeric-looking text is a parameter.
- StepCache.Pipeline.RunAndSweepProgresses: the property is about a sweep after every run; the shipped turn sweeps once
  and terminates by `Turn.RunTurn` instead.
- LateLocation.RecommendationStaysStale: is about chosen engines; that such turns are inexact for every engine is
  `Foresight.LatePlaceIsInexact`.
- Dialogue.NoFigureIsInvented: speaks of numeric slots; free-text slots also take the text of an option the user chose.
- Questions.QuestioningEnds: counts collection questions that are answered in saved turns; a question answered with
  anything else, or in a turn that raises, is asked again, if need be for ever (`Figures.LastDriverIsAskedForEver`), and
  how many disambiguation questions come in between depends on the engines.
- Deduplication: name similarity, distance and category compatibility are one arbitrary pair predicate; rounding of the
  merged quality to three digits and the texts of decisions are left out.
- Store: object identity, flushing and the bounding-box search; the tables are maps keyed by their unique columns.
- Grounding: lower-casing is a parameter, as is the class of digits.
- Chunker.ParseSections: sections are values in a list whose last element is replaced; the source's open section is the
  same object as the list's last one, so aliasing is not captured.
- Chunker: the three line patterns are a parameter that classifies a line; topic and category validation, hashing and
  the sort of the output are left out.
- NumberFormat: the phrases with lakh and crore, ratios and months are left out.
- Repayment: labels, notes and printed values of a quarter; money is counted in paise and the interest rule is a
  parameter.
- Market scoring, schemes, recommendation table, SWOT selection, report layout, channels and language-model calls.

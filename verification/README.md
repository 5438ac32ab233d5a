# Verified model of the travel planner's decision core

This project models, in Dafny 4.11, the parts of the travel planner whose
correctness is not visible from one function: the budget combination optimizer,
the plan-trip graph with its human approval gate and revision loop, the tool loop
with its result cache, the trace collector with its span nesting, the nDCG metric,
and a few self-contained algorithms. `dafny verify dfyconfig.toml` checks it all.

## What is modelled, and how

* **Budget optimizer** (`BudgetOptimizer`, `BudgetTheorems`, `BudgetMeaning`, `BudgetWitnesses`,
  `BudgetVerification`, `BudgetRatios`, `BudgetWishes`, `SoftTargets`). Money is in cents,
  so `round(x, 2)` is round-half-even on exact reals; scores are rounded on a grid the
  configuration fixes. The SHA-256 combination id is an arbitrary function.
* **Plan-trip graph** (`Workflow`, `WorkflowSafety`, `WorkflowHistory`, `WorkflowBounds`,
  `WorkflowDeadEnds`, `WorkflowTightness`, `WorkflowNodes`, `WorkflowAnswers`, `RecursionLimit`, `RequestCheck`, `Approvals`,
  `DraftStore`, `EvidenceRepair`). `Step` executes one node and moves along one of the
  graph's edges; what models, tools, people or the database answer is a field of the
  step's `Input`, so a statement about `IsRun` is about every run. What nodes compute from
  the state is computed there: missing fields of the request, the required tool calls,
  the optimizer's selection and the verifier's verdict on it do not change until what they
  depend on does. Some decisions of nodes stay inputs and are listed under "Left out"; the
  bounds and safety results hold whatever they are, and the runs that show a bound to be
  reached take only answers that a model or a tool can give. Proposal, action and event
  ids, which the program digests, are injective values; the hash of a trip request is the
  request itself; a time stamp is never blank and is left out. Two audit values ride along
  that no node reads: what an observer counts, and which nodes ran since the last applied
  revision.
* **Revision patches** (`Revision`, `RevisionMerge`, `RevisionEffects`). Dates are ordinals up to
  Python's last date.
* **Tool loop** (`ToolPlanning`, `ToolArguments`, `ToolLoop`, `ToolCache`). Tools are arbitrary functions that
  answer or raise.
* **Tracing** (`TraceCollector`, `SpanTree`, `SpanOutcomes`). The collector is a class whose bounded
  queue and index are tied to a ghost log of every run ever started. A call is the tree
  of what it does, with the exceptions it raises and catches.
* **Metrics and numerals** (`RankMetrics`, `RankMeaning`, `PathMetrics`, `ChineseNumeral`). nDCG is
  proved for every increasing gain that vanishes at zero and every positive decreasing
  discount.
* `Prelude`, `Collections`, `OrderedDict`, `Sorting`, `Rounding`, `RealFacts` and `Text`
  hold what Python provides.

## Findings

* The advice "raise the budget by x" is exact if and only if the current budget is a
  whole number of cents (`AdviceExactIff`); short by 1.4 cents it advises one cent, with
  which nothing is feasible still (`AdviceFallsShort`). The fallback reason code is not
  dead: it is given exactly when the budget is short by no more than half a cent
  (`FallbackReasonIff`, `FallbackReasonIsGiven`).
* Known costs, food and buffer add up to the budget if and only if it is in whole cents
  (`AllocationConservesIff`, `HalfACentIsLost`).
* The three soft targets are rounded one by one and miss a whole-cent budget by at most
  one cent (`TargetsWithinACent`). They add up exactly when the errors of the transport
  and hotel roundings together stay below half a cent, or are just that while an even
  number of cents is left for food (`TargetsAddUpIff`); without preferences eleven of
  every twenty budgets are missed (`DefaultTargetsMissIff`).
* Spending signals are clamped after every wish, so the order of the wishes can matter
  (`OrderMatters`). For a category it does not if and only if all its wishes point the
  same way, or neither those for more nor those for less add up to more than one
  (`OrderIsFreeIff`).
* A revision merge is idempotent as a map. As a list it is idempotent if and only if the
  removed keys among the added ones come last (`TwiceIsOnceIff`); from the second
  application on it is stable (`ThriceIsTwice`).
* The cache of the tool loop cannot be seen in a plan with one call per tool if and only
  if no tool without meta fields is called before the activity search (`UnseenIff`): the
  failure of such a tool is written to the activity fields and a cached search does not
  replace it (`ForeignFailureShows`). Compiled plans are safe for every model answer
  exactly under a registry that does not offer both (`AlwaysUnseenIff`), and so is the
  whole loop from empty fields on (`LoopUnseenIff`). With two calls of one tool the cache
  shows as well (`TwoCallsBreakTransparency`).
* The verifier's edge back to `retrieval_plan` is never taken in any run: the only issue
  that asks for it is a failed evidence grade, and a proposal is only written on a passed
  one (`RetrievalIsNeverRepairedByVerifier`).
* Sending a run back to `budget_optimize` never helps: the optimizer selects the same
  combination from the same candidates, so the finding is there again until the run ends
  and no person is asked (`RepairNeverClears`). For ranked candidates there is such a
  finding if and only if a selected id has white space around it or, under a budget limit,
  the budget is further from whole cents than the tolerance (`SelectionSoundIff`); with the
  default tolerance only the ids can be at fault (`DefaultToleranceSuffices`).
* So budget and proposal repairs exclude each other, and one invocation executes at most
  19 nodes plus 3·plan + 2·execute + 4·rag + max(7·budget, 2·proposal) retries, the
  interrupted gate included. A run for a complete request, on candidate lists that the
  optimizer really gets, takes that many (`BoundIsReached`, `WorstRun`), so a recursion
  limit suffices exactly from there on (`LimitSufficesIff`): 35 for the default retries
  and 54 for the largest allowed ones. The smallest allowed limit, 10, suffices for no
  setting (`LimitOfTheSettings`). An incomplete request takes four nodes
  (`IncompleteTakesFour`).
* Committing the same decision again is recognised and needs no transaction; a run writes
  one record or none, and no proposal ever has two (`CommitReplays`, `WritesAtMostOnce`).
* A 万 right behind a 万 finds an empty section and is lost (`RepeatedWanIsLost`).
* A traced call records exactly the spans its untraced run needs, as far as the limit has
  room (`SpansRecorded`); all of them exactly when their texts are non-blank and they fit
  (`AllRecordedIff`), and then tracing is transparent. From the limit on every call raises
  before it runs (`LimitShows`). A tool does not become the current span, so what runs
  inside it hangs below the nearest enclosing node; a tool with a time-out runs in a
  thread without context, and nothing inside it is recorded.
* A run id is refused only while its run is retained; after eviction it may be used again
  (`KnownIffRecent`).

## Model

| member | source | states |
|---|---|---|
| BudgetOptimizer.LimitRankedCandidates | app/optimization/budget_optimizer.py:987-1027 | the loop over the sorted records computes the limited list the theorems are about |
| BudgetOptimizer.EnumerateCombinations | app/optimization/budget_optimizer.py:260-458 | the loop computes exactly the rows, the feasible combinations and the four counters of the specification |
| BudgetOptimizer.Optimize | app/optimization/budget_optimizer.py:103-632 | for every configuration and candidate list, the run ends as the specification says: missing candidates, a selection, or advice |
| BudgetTheorems.LimitedListShape | app/optimization/budget_optimizer.py:987-1027 | the limited list has at most `limit` records of the input, ids non-blank and distinct, best first |
| BudgetTheorems.LimitKeepsBestOfId | app/optimization/budget_optimizer.py:1002-1027 | whatever is kept for an id is no worse than any record of that id |
| BudgetTheorems.LimitDropsTheRest | app/optimization/budget_optimizer.py:1012-1027 | an id is dropped only when the list is full, and then of records that are no worse |
| BudgetTheorems.ProductMembers | app/optimization/budget_optimizer.py:260-264 | the loop meets exactly the triples of the three lists |
| BudgetTheorems.CountersAddUp | app/optimization/budget_optimizer.py:260-322 | evaluated = feasible + over transport + over budget = product of the list lengths, in every run |
| BudgetTheorems.SelectedIff | app/optimization/budget_optimizer.py:281-322 | a run selects exactly when some triple of its lists meets both hard limits |
| BudgetTheorems.SelectionIsOptimal | app/optimization/budget_optimizer.py:478-501 | best and alternatives are the first of all feasible combinations in key order, none left out being smaller |
| BudgetTheorems.BestIsLeast | app/optimization/budget_optimizer.py:478-501 | no feasible triple of the lists has a smaller key than the selection |
| BudgetTheorems.BestIsFeasible | app/optimization/budget_optimizer.py:281-322 | the selection is a triple of the lists within both limits, scored as such |
| BudgetTheorems.SelectionIsPareto | app/optimization/budget_optimizer.py:1256-1324 | no feasible triple is at least as good on both rounded qualities and strictly cheaper |
| BudgetTheorems.WeightsShareOne | app/optimization/budget_optimizer.py:1196-1253 | weights are non-negative and sum to one, or all vanish |
| BudgetTheorems.CheaperFitsBetter | app/optimization/budget_optimizer.py:1256-1282 | a cheaper combination never fits the food and activity reserve worse |
| BudgetTheorems.FinalClampIsNoOp | app/optimization/budget_optimizer.py:1285-1324 | the score before the last clamp already lies in [0, 1] |
| BudgetTheorems.ScoreSpansUnit | app/optimization/budget_optimizer.py:1285-1324 | with food in the plan and any weight, the best qualities score exactly one and the worst zero |
| BudgetTheorems.TargetIsServedFirst | app/optimization/budget_optimizer.py:1357-1386 | food first: both parts share out the rest, and a buffer is left only with the target met |
| BudgetTheorems.AllocationConservesIff | app/optimization/budget_optimizer.py:1327-1400 | under a total budget, with or without a food target, known + food + buffer equals the budget exactly when it is in whole cents; both parts are non-negative |
| BudgetTheorems.AdviceReports | app/optimization/budget_optimizer.py:739-826 | the advice names the cap exactly when it blocks everything, else the cheapest subtotal under it |
| BudgetTheorems.FeasibleFrom | app/optimization/budget_optimizer.py:297-322 | re-optimizing with another budget is feasible exactly from that subtotal on |
| BudgetTheorems.AdviceExactIff | app/optimization/budget_optimizer.py:739-826 | "feasible iff raised by at least the advised amount" holds for all raises iff the budget is in whole cents |
| BudgetTheorems.FallbackReasonIff | app/optimization/budget_optimizer.py:800-826 | when the fallback reason is given; never for whole cents |
| BudgetTheorems.NoBudgetHelpsUnderCap | app/optimization/budget_optimizer.py:739-826 | when the cap blocks everything, every budget leads to the same answer |
| BudgetWitnesses.FallbackReasonIsGiven | app/optimization/budget_optimizer.py:800-826 | half a cent short, a run answers with the fallback reason |
| BudgetWitnesses.AdviceFallsShort | app/optimization/budget_optimizer.py:739-826 | short by 1.4 cents, a run advises one cent more, and the run with one cent more is infeasible still |
| BudgetWitnesses.HalfACentIsLost | app/optimization/budget_optimizer.py:1327-1400 | half a cent over, known costs, food and buffer of the selection add up to less than the budget |
| BudgetMeaning.HotelQualityIsItsScore | app/optimization/budget_optimizer.py:349-352 | the reported hotel quality is the selected hotel's own total_score, taken into [0, 1], to within half a grid step |
| BudgetMeaning.TransportQualityIsTheMean | app/optimization/budget_optimizer.py:341-348 | the reported transport quality is the mean of the two selected flights' own scores, to within half a grid step |
| BudgetMeaning.SelectionIsParetoInScores | app/optimization/budget_optimizer.py:478-501 | no feasible combination has a hotel rated as well, flights rated as well on average, and a lower cost: Pareto in the candidates' own scores |
| BudgetMeaning.ScoreIsTheWeightedSum | app/optimization/budget_optimizer.py:1285-1324 | the score is weight times quality summed up, with or without food in the plan, to within half a grid step; the reserve is the share of the food target that is left |
| BudgetMeaning.WeightsAreProportional | app/optimization/budget_optimizer.py:1196-1253 | the weights stand to each other as the plan's ratios, with the defaults for those not given and food only under a limited budget with a target |
| BudgetMeaning.CostsAreThePrices | app/optimization/budget_optimizer.py:1077-1143 | each amount is the sum of the prices it stands for, within its roundings, and exactly so in whole cents |
| BudgetMeaning.FeasibleByPrices | app/optimization/budget_optimizer.py:297-322 | for prices in whole cents a combination is feasible exactly when flights stay within the cap and all three within a limited budget |
| BudgetMeaning.LimitInForce | app/optimization/budget_optimizer.py:1165-1193 | which of the three total budgets is in force, and that it is never negative |
| BudgetMeaning.BestComesFirst | app/optimization/budget_optimizer.py:478-501 | against every feasible combination the selection has the better score, or the lower cost, or the smaller sum of ranks, or the smaller id, in this order |
| BudgetMeaning.CandidateOrder | app/optimization/budget_optimizer.py:1002-1010 | the sort key of the candidates in their own fields: rank, score, price, id |
| BudgetMeaning.KeptInOrder | app/optimization/budget_optimizer.py:987-1027 | the limited list is in that order |
| Sorting.SortByIsStable | app/optimization/budget_optimizer.py:1002-1010 | the sort is stable: elements of equal keys keep their order |
| Sorting.LexLeIff | app/optimization/budget_optimizer.py:1002-1010 | the order of ids: a prefix first, else the smaller character where they first differ |
| BudgetMeaning.ListsOfProblem | app/optimization/budget_optimizer.py:140-180 | the three lists hold flights out, flights back and hotels of the input, by direction or else query direction |
| BudgetMeaning.MissingIff | app/optimization/budget_optimizer.py:635-722 | candidates are missing exactly when a list is empty, and the outcome says which |
| BudgetMeaning.MinimumOfAll | app/optimization/budget_optimizer.py:562-565 | the minimum beside a selection is that of all combinations, feasible or not |
| BudgetMeaning.AdviceBreaksTies | app/optimization/budget_optimizer.py:759-772 | the advice names the cheapest combination under the cap, and of equally cheap ones the smallest id |
| BudgetMeaning.IdDigestsTheIds | app/optimization/budget_optimizer.py:1472-1498 | a combination's id digests the three candidate ids in order |
| BudgetMeaning.RemainderIsLeft | app/optimization/budget_optimizer.py:324-333 | what is left is the budget without the known costs, to within half a cent, and nothing without a budget |
| BudgetMeaning.NoTargetIsAllBuffer | app/optimization/budget_optimizer.py:1327-1400 | without a food target all that is left is buffer; without a budget nothing is allocated |
| BudgetMeaning.SettingsIff | app/optimization/budget_optimizer.py:951-967 | which settings the optimizer accepts |
| BudgetVerification.CheckSelectionLineage | app/verifiers/proposal_verifier.py:545-633 | which ids the checks miss in the ranked pool or in the combination |
| BudgetVerification.CheckBudgetConsistency | app/verifiers/proposal_verifier.py:696-861 | no issue exactly when the amounts add up, agree with the prices and keep within the budget, up to the tolerance |
| BudgetVerification.CheckKnownCosts | app/verifiers/proposal_verifier.py:696-765 | which sums and prices are reported as wrong |
| BudgetVerification.CheckLimitedBudget | app/verifiers/proposal_verifier.py:766-861 | what is reported under a limited budget: missing fields alone, or the total, the remainder and the allocation |
| BudgetVerification.SelectionSoundIff | app/verifiers/proposal_verifier.py:545-861 | a selection from ranked candidates passes every check that could send it back exactly when its ids are free of outer white space and a limiting budget is within the tolerance of whole cents |
| BudgetVerification.DefaultToleranceSuffices | app/common/config.py:368-372 | with half a cent of tolerance or more, as by default, only the ids can be at fault |
| BudgetRatios.AdjustBudgetRatios | app/builders/planning_context_builder.py:477-541 | the clamping loop and the normalization compute the specified ratios |
| BudgetRatios.NormalizeSums | app/builders/planning_context_builder.py:528-541 | after rounding and the correction of food the ratios sum to exactly one |
| BudgetRatios.RatiosBounded | app/builders/planning_context_builder.py:477-541 | for any list of preferences the sum is one and every ratio keeps to its band inside [0.17, 0.53] |
| BudgetRatios.RatiosAreTheWeights | app/optimization/budget_optimizer.py:1196-1253 | in a budget-limited run the optimizer weighs with exactly these ratios |
| BudgetWishes.WishIsHeard | app/builders/planning_context_builder.py:499-541 | whatever came before, a wish of any category and direction never moves its own ratio the other way, nor another transport or hotel ratio along |
| BudgetWishes.SignalMoves | app/builders/planning_context_builder.py:499-518 | one more wish moves the signal of its own category by its strength, up or down, within [-1, 1], and no other |
| BudgetWishes.RatiosFollowSignals | app/builders/planning_context_builder.py:520-541 | a full signal moves a weight by 35 % of its default; the ratios are the shares of the weights to within half a millionth, food taking the rest |
| BudgetWishes.WishIsFelt | app/builders/planning_context_builder.py:477-541 | from the defaults a wish of a hundredth or more moves its ratio |
| BudgetWishes.OrderIsFreeIff | app/builders/planning_context_builder.py:499-518 | every order of the same preferences gives a category the same signal exactly when its wishes point one way or neither direction adds up to more than one |
| BudgetWishes.OrderMatters | app/builders/planning_context_builder.py:499-518 | two orders of the same three wishes with signals 0 and 1 |
| SoftTargets.TargetsWithinACent | app/builders/planning_context_builder.py:402-414 | the three rounded soft targets miss a whole-cent budget by at most one cent |
| SoftTargets.TargetsAreTheShares | app/builders/planning_context_builder.py:402-414 | each target is its own ratio of the budget, to within half a cent |
| SoftTargets.TargetsAddUpIff | app/builders/planning_context_builder.py:402-414 | for any budget and preferences, the targets add up exactly for whole cents whose first two rounding errors do not push the third across a half |
| SoftTargets.DefaultTargetsMissIff | app/builders/planning_context_builder.py:402-414 | without preferences a whole-cent budget is missed exactly for eleven remainders modulo twenty cents |
| RankMetrics.DominatedDcg | eval/rag_metrics.py:153-157 | rearrangement bound: prefix-wise larger gains have the larger discounted sum, with equality only if never ahead |
| RankMetrics.DistinctDraw | eval/rag_metrics.py:64-93 | distinct ids draw each positive grade at most as often as it is recorded |
| RankMetrics.IdealDominates | eval/rag_metrics.py:64-93 | the ideal list gains at least as much as the ranking over every prefix |
| RankMetrics.NdcgOutcome | eval/rag_metrics.py:64-93 | raises iff k <= 0; scores iff some grade is positive, so the zero-ideal branch is never taken |
| RankMetrics.NdcgInUnit | eval/rag_metrics.py:64-93 | every score lies in [0, 1] |
| RankMetrics.NdcgPerfectIff | eval/rag_metrics.py:64-93 | the score is 1 exactly when the first k start with the best grades, best first |
| RankMetrics.NdcgZeroIff | eval/rag_metrics.py:64-93 | the score is 0 exactly when none of the first k is relevant |
| RankMeaning.ScoreIsTheQuotient | eval/rag_metrics.py:83-93 | a score is the share of the ideal sum that the ranking reaches |
| RankMeaning.NeighbourSwap | eval/rag_metrics.py:153-157 | exchanging two neighbours changes the sum by the difference of gains times the difference of discounts |
| RankMeaning.LoneItem | eval/rag_metrics.py:153-157 | a lone relevant item adds its gain, discounted by its rank |
| RankMeaning.BetterFirstScoresMore | eval/rag_metrics.py:68-93 | of two rankings that differ in two neighbours, the one with the better item in front scores strictly more |
| RankMeaning.RecordedGrade | eval/rag_metrics.py:76-80 | an id has the grade of its last entry, no less than 0; blank ids have none |
| RankMeaning.NotRecorded | eval/rag_metrics.py:76-85 | an id no entry reads as has no grade |
| RankMeaning.RankedIds | eval/rag_metrics.py:177-194 | what is ranked: the normalized ids without blanks and repetitions, cut off at k |
| PathMetrics.GreedySound | eval/workflow_metrics.py:8-15 | what the cursor has matched is an ordered subsequence |
| PathMetrics.GreedyComplete | eval/workflow_metrics.py:8-15 | no embedding gets further than the greedy cursor |
| PathMetrics.OrderedPathContains | eval/workflow_metrics.py:8-15 | 1 exactly for ordered subsequences, else 0 |
| ChineseNumeral.ChineseToInt | app/extractors/trip_request_extractor.py:1166-1219 | the loop computes the specified reading |
| ChineseNumeral.ParseNoneIff | app/extractors/trip_request_extractor.py:1166-1219 | None exactly for empty text or a foreign character |
| ChineseNumeral.WanLaw | app/extractors/trip_request_extractor.py:1196-1204 | 万 multiplies the section before it and nothing else, for all valid texts around it |
| ChineseNumeral.RoundTrip | app/extractors/trip_request_extractor.py:1166-1219 | reading inverts writing for 1 <= n < 10^8, with 零 fillers, either glyph for two, and a bare leading 十 |
| ChineseNumeral.GlyphsAre | app/extractors/trip_request_extractor.py:1166-1219 | the glyphs meant are the ten digits, with 〇 and 两 as the only variants |
| ChineseNumeral.SingleDigits | app/extractors/trip_request_extractor.py:1166-1219 | each digit alone is worth itself |
| ChineseNumeral.SingleUnits | app/extractors/trip_request_extractor.py:1166-1219 | 十, 百 and 千 alone are worth themselves, 万 alone nothing |
| ChineseNumeral.NoOtherCharacters | app/extractors/trip_request_extractor.py:1166-1219 | no other character is read |
| ChineseNumeral.LastDigitCounts | app/extractors/trip_request_extractor.py:1192-1196 | of several digits in a row the last one counts |
| ChineseNumeral.RepeatedWanIsLost | app/extractors/trip_request_extractor.py:1196-1204 | a second 万 in a row changes nothing |
| RevisionMerge.MergeItems | app/nodes/apply_revision_node.py:644-684 | the two loops over an ordered dict compute the specified merge |
| RevisionMerge.MergeIsMapUpdate | app/nodes/apply_revision_node.py:644-864 | each merge is "drop removals, then assign the new items, last one winning"; keys unique, kept ones in order |
| RevisionMerge.MergedKeys | app/nodes/apply_revision_node.py:644-864 | the keys of a merge: kept ones first, then the added ones in order |
| RevisionMerge.TwiceIsOnceAsMap | app/nodes/apply_revision_node.py:644-864 | a second application gives the same map |
| RevisionMerge.TwiceIsOnceIff | app/nodes/apply_revision_node.py:644-864 | it gives the same list iff the removed keys among the added ones come last |
| RevisionMerge.ThriceIsTwice | app/nodes/apply_revision_node.py:644-864 | from the second application on the list is stable |
| RevisionMerge.ReplacedTypeIsAdditions | app/nodes/apply_revision_node.py:767-835 | of a replaced entity type exactly the additions remain, the last of a key winning |
| RevisionMerge.SecondApplicationMayReorder | app/nodes/apply_revision_node.py:644-684 | a preference patch whose second application reorders |
| Revision.ApplyFieldOperations | app/nodes/apply_revision_node.py:499-546 | the loop stops at the first bad operation, else applies all and reports the touched fields |
| Revision.OpsSucceedIff | app/nodes/apply_revision_node.py:499-546 | a patch's operations succeed exactly when each succeeds on the unmodified request |
| Revision.OpsActOnTheBase | app/nodes/apply_revision_node.py:499-546 | each field ends up as its own operation alone would leave it |
| Revision.UntouchedKept | app/nodes/apply_revision_node.py:499-546 | a field no operation names keeps its value |
| Revision.NormalizeAgrees | app/nodes/apply_revision_node.py:549-636 | afterwards the end date is absent or start + days - 1, derived days are positive and positive days stay so, only the field that was not set gives way, and normalizing again changes nothing |
| Revision.ApplyRevisionPatch | app/nodes/apply_revision_node.py:142-340 | the whole sequence of operations, normalizer, five merges and schema check |
| Revision.PatchedRequest | app/nodes/apply_revision_node.py:142-340 | an applied patch leaves agreeing dates, checked ranges and the five merged lists |
| Revision.StayLonger | app/nodes/apply_revision_node.py:499-636 | extending the stay moves days and end date together |
| RevisionEffects.PatchIff | app/nodes/apply_revision_node.py:142-340 | a patch succeeds with a request exactly when it is well formed, every operation can be done on the base, the dates can be brought in line, and the numbers are in range |
| RevisionEffects.OpsIff | app/nodes/apply_revision_node.py:499-546 | the operations succeed with exactly the request in which each has left its own value, increments added to the old one, and all else is as before |
| RevisionEffects.InLineIff | app/nodes/apply_revision_node.py:549-636 | which dates and days the normalizer leaves, and that it fails otherwise |
| RevisionEffects.FieldsEndAsAsked | app/nodes/apply_revision_node.py:499-636 | in a patched request every set field has the given value, every cleared one none, every increment is the old value plus the amount |
| RevisionEffects.OthersStay | app/nodes/apply_revision_node.py:499-636 | a field that no operation names is left alone, but for end and days where they follow |
| RevisionEffects.ImpossibleIncrementsAreRefused | app/nodes/apply_revision_node.py:523-544 | an increment of a missing value, to less than one day or below zero refuses the patch |
| RevisionEffects.PreferencesLeft | app/nodes/apply_revision_node.py:644-684 | which preferences are in the merged list: the last addition of a (domain, key), else the last current one that is not removed |
| RevisionEffects.SpendingLeft | app/nodes/apply_revision_node.py:687-721 | likewise for spending, by category |
| RevisionEffects.HardConstraintsLeft | app/nodes/apply_revision_node.py:724-764 | likewise for hard constraints, by domain and field |
| RevisionEffects.NamedConstraintsLeft | app/nodes/apply_revision_node.py:767-835 | likewise for named constraints, removed with their type, by type, or by type and name |
| RevisionEffects.UnmappedLeft | app/nodes/apply_revision_node.py:838-864 | likewise for unmapped requirements, of which none is removed |
| ToolPlanning.CompileOptionalCalls | app/nodes/tool_plan_node.py:203-247 | the loop with its Counter computes the specified calls and issues |
| ToolPlanning.CompileExecutableCalls | app/nodes/tool_plan_node.py:296-311 | validation, then de-duplication |
| ToolPlanning.DeduplicateCalls | app/nodes/tool_plan_node.py:279-293 | the loop with its seen set keeps the first call of each key |
| ToolPlanning.ToolPlanNode | app/nodes/tool_plan_node.py:90-163 | the node computes the specified plan, or raises for an empty trusted text |
| ToolPlanning.PlanIsTheMatchingCalls | app/nodes/tool_plan_node.py:112-151 | for every model answer the plan is exactly the matching required and optional calls, one per tool, at most four optional |
| ToolPlanning.RequiredCallsStand | app/nodes/tool_plan_node.py:166-200 | no model answer removes, repeats or rewrites a required call |
| ToolPlanning.PlanStartsWithRequired | app/nodes/tool_plan_node.py:166-200 | when all three match, the plan starts with them in order |
| ToolPlanning.OptionalShape | app/nodes/tool_plan_node.py:203-247 | optional calls are one per tool and never of a required tool |
| ToolPlanning.NothingToDeduplicate | app/nodes/tool_plan_node.py:279-293 | with one call per tool the de-duplication changes nothing |
| ToolArguments.RequiredAskForTheTrip | app/nodes/tool_plan_node.py:166-200 | every planned call of a required tool asks for this trip: flights from origin to destination on both dates, weather and hotel at the destination, for max(1, people) and max(0, nights) |
| ToolArguments.RequiredArePlanned | app/nodes/tool_plan_node.py:112-151 | each of the three is planned exactly when the registry accepts that call |
| ToolArguments.OptionalAreMadeFromTheFirst | app/nodes/tool_plan_node.py:203-247 | every other planned call comes from the first usable one of its tool among the model's first four, activities with the trip's own city and dates |
| ToolArguments.FirstUsableIsPlanned | app/nodes/tool_plan_node.py:203-247 | and every such call that the registry accepts is planned |
| ToolArguments.PlanIsRefusedIff | app/nodes/tool_plan_node.py:349-353 | the node raises exactly for a missing place or date, and is degraded exactly after a failed client |
| ToolArguments.DeduplicationKeepsFirst | app/nodes/tool_plan_node.py:279-293 | de-duplication keeps exactly the calls asked for for the first time, by server, tool and arguments, and reports the others |
| ToolLoop.ToolExecuteNode | app/nodes/tool_execute_node.py:16-63 | the dispatcher computes the specified fields and counts the calls it did not skip |
| ToolLoop.ExecuteTransparent | app/nodes/tool_execute_node.py:25-57 | one pass with the cache leaves what a pass without it would |
| ToolLoop.CacheIsTransparent | app/nodes/tool_execute_node.py:100-102 | over any sequence of retries and re-plans the result fields are those of the cache-free run |
| ToolLoop.CompiledPlansQualify | app/nodes/tool_plan_node.py:203-247 | compiled plans meet the conditions of transparency |
| ToolCache.UnseenIff | app/nodes/tool_execute_node.py:25-57 | with one call per tool a pass with the cache equals one without, for all fields and tools, exactly when no foreign tool precedes the activity search |
| ToolCache.ForeignFailureShows | app/nodes/tool_execute_node.py:87-92 | a foreign tool failing before a cached activity search leaves its failure in the activity fields, where the cache-free run holds the answer |
| ToolCache.AlwaysUnseenIff | app/nodes/tool_plan_node.py:203-247 | the cache is unseen for every model answer exactly under registries that do not offer both the activity search and a foreign tool |
| ToolCache.LoopUnseenIff | app/nodes/tool_execute_node.py:16-63 | from empty fields, over every sequence of model answers compiled and executed, the cached fields are the cache-free ones, exactly under the same registries |
| ToolCache.TwoCallsBreakTransparency | app/nodes/tool_execute_node.py:25-57 | two calls of one tool on which the cached run differs |
| ToolLoop.EveryRetryIsPaid | app/nodes/tool_check_node.py:14-100 | every round trip uses up a retry, and ranking is reached only with all required tools planned and none failed |
| ToolLoop.CheckGoes | app/nodes/tool_check_node.py:14-100 | where the check leads and which counter it raises, by required tools without a call, mendable issues and failed fetches |
| ToolLoop.SkippedIsSaid | app/nodes/tool_execute_node.py:52-57 | a plan without an activity search leaves a skipped mark in the activity fields |
| ToolLoop.ChecksBounded | app/nodes/tool_check_node.py:14-100 | at most max plan retries + max execute retries checks send the loop round again |
| ToolLoop.RankedOnFreshAnswers | app/nodes/tool_check_node.py:56-100 | when ranking starts, each required result is the tool's answer to the policy's own arguments |
| Approvals.FindPendingApproval | app/nodes/decision_gate_node.py:822-879 | the loop finds the only pending approval of the proposal |
| Approvals.FoundIff | app/nodes/decision_gate_node.py:822-879 | it is found exactly when one position and no other holds one |
| Approvals.MarkActions | app/nodes/decision_gate_node.py:568-631 | the copying loop of gate, commit and cancel changes the actions of one id and nothing else |
| Approvals.DecidedIsNotPending | app/nodes/decision_gate_node.py:568-631 | a decided approval is not found again |
| Approvals.MarkedAction | app/nodes/cancel_node.py:477-511 | marking a unique action leaves it unique and updated |
| EvidenceRepair.RepairConsumes | app/rag/retrieval_planner.py:88-390 | a requested repair always has tasks and so always uses up a retry |
| EvidenceRepair.GradeKeeps | app/rag/evidence_grader.py:328-400 | a grade repairs only with a retry left, and passing clears the feedback |
| EvidenceRepair.RepairsBounded | app/nodes/retrieval_plan_node.py:40-115 | however the evidence is reviewed, the unused retries bound the repairs |
| EvidenceRepair.FirstRound | app/rag/evidence_grader.py:300-400 | what a first round searches for, when it passes, when it is repaired, and the feedback it leaves |
| EvidenceRepair.RepairRound | app/rag/retrieval_planner.py:212-390 | a repair searches for the gaps alone, is graded on everything required before, and is repeated only for what the rules miss |
| EvidenceRepair.ExhaustedPlan | app/rag/retrieval_planner.py:228-250 | with the rounds used up a repair has no tasks, costs nothing and leads to no other |
| EvidenceRepair.IdleFeedback | app/rag/retrieval_planner.py:116-140 | feedback that names nothing is none, and safety is not searched for without risks |
| EvidenceRepair.CrashStops | app/rag/evidence_grader.py:328-400 | without a plan or a review the loop stops without feedback |
| Workflow.RepairsUpstreamFirst | app/verifiers/proposal_verifier.py:1569-1632 | approval exactly without blocking issues; final before budget before retrieval before proposal, within the limits |
| Workflow.BuildInterruptPayload | app/nodes/decision_gate_node.py:358-503 | a payload is built exactly for a passed, nameable proposal with one and only one pending approval, and names that proposal, version and action |
| Workflow.DecisionGateNode | app/nodes/decision_gate_node.py:53-350 | the node fails exactly without a payload; an unusable answer leaves history, actions and change alone; a usable one is one history entry, one result and one marked action about what was asked, which is then no longer pending |
| WorkflowAnswers.AskedIff | app/nodes/decision_gate_node.py:358-503 | a person is asked exactly about a passed proposal with a shown id for which one action waits and no other |
| WorkflowAnswers.AnswerIsTakenIff | app/schemas/decision_schema.py:92-183 | an answer is taken exactly when its texts fit, its ids are those asked about and it has a change exactly when it asks for one; it then leads to commit, analysis or cancellation as decided |
| WorkflowAnswers.AnswerIsWrittenDown | app/nodes/decision_gate_node.py:634-676 | the event digests the answer as stored, and a change is handed on without outer white space |
| WorkflowAnswers.ActionIsDecided | app/nodes/decision_gate_node.py:568-631 | the action asked about gets the status of the decision and its event |
| Workflow.CommitService | app/services/commit_draft_service.py:130-404 | commits exactly when the decision passes the checks and the own earlier record is found or the transaction goes through; a replay writes nothing, a first commit one record |
| Workflow.CommitDraftNode | app/nodes/commit_draft_node.py:22-298 | the decided action alone becomes committed, and only on a commit; at most one record is added and nothing else of the state changes |
| Workflow.CancelNode | app/nodes/cancel_node.py:20-286 | cancels exactly when the re-checks hold, marks the decided action alone, drops the change request, and reports a replay exactly when this very decision was cancelled before |
| Workflow.StepFollowsEdges | app/workflows/plan_trip_workflow.py:169-383 | every step leaves along an edge of the graph; only gate and application write history and request |
| WorkflowSafety.RetrievalEdgeIsDead | app/verifiers/proposal_verifier.py:1569-1632 | where evidence has passed, the verifier never sends the run back to retrieval |
| WorkflowSafety.GateOpens | app/nodes/decision_gate_node.py:358-503 | at the gate the payload is built from the current proposal and its only pending approval |
| WorkflowSafety.GateRecords | app/nodes/decision_gate_node.py:213-350 | an invalid answer changes nothing that matters; a valid one names this proposal, version, action and event everywhere |
| WorkflowSafety.Kept | app/workflows/plan_trip_workflow.py:169-383 | every step of every node keeps the invariant that verdict, decision, action and proposal agree |
| WorkflowSafety.Always | app/workflows/plan_trip_workflow.py:456-534 | the invariant holds in every state of every run |
| WorkflowHistory.AlwaysBooks | app/nodes/decision_gate_node.py:213-350 | so does the bookkeeping of history, versions, passes and applied patches |
| WorkflowHistory.CommitIsEntitled | app/services/commit_draft_service.py:409-527 | whenever commit is entered all its checks hold, so only the records and the database decide |
| WorkflowHistory.CancelNeverFails | app/nodes/cancel_node.py:316-446 | whenever cancel is entered all its re-checks hold and it succeeds as a first cancellation |
| WorkflowHistory.VersionAtGate | app/nodes/proposal_node.py:268-286 | the version at the gate is 1 + the number of applied revisions, and the verdict is about that proposal |
| WorkflowHistory.DecisionsAreDistinct | app/nodes/decision_gate_node.py:213-350 | verifier passes and decisions alternate, the k-th decision is on version k, no action or event occurs twice |
| WorkflowHistory.RequestIsReplayed | app/nodes/apply_revision_node.py:355-412 | the request is the extracted one with each accepted change applied exactly once, in order |
| WorkflowHistory.ApplicationSucceedsIff | app/nodes/apply_revision_node.py:142-173 | on a reachable state the base checks hold, so the patch alone decides |
| WorkflowHistory.AppliesAtMostOnce | app/nodes/apply_revision_node.py:381-467 | a success resets everything derived and cannot be repeated; a failure changes nothing else |
| WorkflowHistory.AtMostOneEnding | app/nodes/commit_draft_node.py:205-225 | at most one commit or cancellation per run, of the proposal decided last, at the very end |
| WorkflowHistory.CancelReplays | app/nodes/cancel_node.py:454-474 | a second cancellation is recognised and changes nothing else |
| WorkflowHistory.CommitReplays | app/services/commit_draft_service.py:142-190 | a repeated commit reports a replay whatever the database would do, writes no record and changes nothing else |
| WorkflowHistory.WritesAtMostOnce | app/services/commit_draft_service.py:142-404 | a run adds the record of its own committed proposal once or nothing, and decisions and proposals keep at most one record each |
| WorkflowHistory.NothingIsSkipped | app/workflows/plan_trip_workflow.py:169-383 | wherever a run stands, all nodes before it have run since the last applied revision |
| WorkflowBounds.ClockBounded | app/workflows/plan_trip_workflow.py:88-91 | executions so far plus the potential left stay below 19 plus the retries' worth |
| WorkflowBounds.RepairByOptimum | app/verifiers/proposal_verifier.py:1596-1630 | a selection in order is never sent back to the optimizer, and one that is not leads there or to the end |
| WorkflowBounds.InvocationsAreBounded | app/workflows/plan_trip_workflow.py:88-91 | between two human inputs a run executes at most 19 nodes plus the retries' worth, budget and proposal repairs counting once, by the larger |
| RequestCheck.CheckMissingFields | app/validators/trip_request_validator.py:255-288 | which fields are reported missing, and that none is exactly when the request has them all |
| RequestCheck.HasTextIff | app/validators/trip_request_validator.py:255-288 | a text is there when it holds something other than white space |
| RequestCheck.CompleteSpansItsDays | app/validators/trip_request_validator.py:291-350 | the dates of a complete request span its days, the numbers are in range and there are no more rooms than people |
| RequestCheck.PatchedIsCompleteIff | app/validators/trip_request_validator.py:255-350 | after a revision only missing fields and too many rooms can make a request incomplete |
| WorkflowDeadEnds.IncompleteEnds | app/nodes/missing_info_node.py:105-117 | wherever an incomplete request is checked, the run goes to clarification, the response and the end |
| WorkflowDeadEnds.IncompleteTakesFour | app/workflows/plan_trip_workflow.py:169-196 | every session with an incomplete request executes four nodes and no more |
| WorkflowDeadEnds.OnlyCompleteIsPlanned | app/nodes/missing_info_node.py:105-117 | in every run, whatever is planned, proposed or put to a person is for a complete request |
| WorkflowDeadEnds.RepairNeverClears | app/nodes/budget_optimize_node.py:23-140 | once a ranking leads to a selection the verifier rejects, the run circles until it ends and never reaches a person |
| WorkflowDeadEnds.SoundAtGate | app/verifiers/proposal_verifier.py:1596-1606 | in every run, what is put to a person has passed the budget checks |
| WorkflowBounds.RetrievalIsNeverRepairedByVerifier | app/nodes/verifier_node.py:290-337 | in no run does the verifier lead back to retrieval |
| WorkflowTightness.FirstInvocationIsTight | app/workflows/plan_trip_workflow.py:88-91 | for every complete request, all settings and either kind of selection, some first invocation takes exactly 17 plus the retries' worth |
| WorkflowTightness.RevisionIsTight | app/workflows/plan_trip_workflow.py:88-91 | every run that has just applied a revision to a complete request has a continuation that takes exactly 19 plus the retries' worth |
| WorkflowTightness.BoundIsReached | app/workflows/plan_trip_workflow.py:88-91 | for every complete request and all settings some run, through a decision, an analysis and an applied patch that keeps the request complete, takes exactly 19 plus the retries' worth in one invocation |
| WorkflowAnswers.OnlyDraftsAreDecided | app/verifiers/proposal_verifier.py:1404-1456 | in every run, whatever is decided, committed or cancelled is a draft, with nothing booked, paid or announced |
| WorkflowNodes.ToolCheckGoes | app/nodes/tool_check_node.py:14-100 | where the check leads within a run and which counter it raises |
| WorkflowNodes.VersionFollows | app/nodes/proposal_node.py:268-286 | which version a proposal gets |
| WorkflowNodes.ProposalWrites | app/nodes/proposal_node.py:17-265 | a proposal is written exactly for a selection on passed evidence and a draft, with an id that digests its content |
| WorkflowNodes.TargetsAre | app/verifiers/proposal_verifier.py:466-1567 | what is held against a proposal and where it would be repaired |
| WorkflowNodes.VerdictIs | app/verifiers/proposal_verifier.py:1569-1632 | the verdict passes exactly what goes to a person, has failed what ends the run, and else asks for a repair; the pending approval is written only with a pass |
| WorkflowNodes.ApprovalIs | app/verifiers/proposal_verifier.py:1697-1735 | the approval put to a person is pending, required, about the proposal and nothing else |
| WorkflowNodes.RejectionIsShown | app/nodes/decision_gate_node.py:159-211 | an answer that is not taken, and a gate that cannot ask, leave an error, and every answer is counted |
| WorkflowNodes.CommitsIff | app/services/commit_draft_service.py:130-527 | a commit goes through exactly when every check on proposal, verdict, decision and action holds and the first record found is the user's own, or there is none and the transaction goes through |
| WorkflowNodes.CancelsIff | app/nodes/cancel_node.py:316-446 | a cancellation goes through exactly when every check on proposal, verdict, decision and action holds |
| WorkflowNodes.EndingMarksTheAction | app/nodes/cancel_node.py:477-511 | a committed action has that status, a cancelled one is finalized as well, and its other fields stay |
| WorkflowNodes.AnalyzesIff | app/nodes/revision_analyze_node.py:21-206 | an application follows exactly an understood patch to a decided change of this proposal and version |
| WorkflowNodes.AppliesIff | app/nodes/apply_revision_node.py:1036-1082 | a patch is applied exactly to the proposal, version and request it was made for, if it can be |
| WorkflowAnswers.EveryGateCanCommit | app/workflows/plan_trip_workflow.py:169-383 | from every state of a run in which a person is asked, unless other users' records stand in the way, an approval leads to a commit in two steps |
| WorkflowAnswers.EveryGateCanCancel | app/workflows/plan_trip_workflow.py:169-383 | and a cancellation always goes through |
| WorkflowAnswers.SomeRunCommits | app/workflows/plan_trip_workflow.py:169-383 | for every complete request and all settings some run ends with the approved draft as the only record |
| WorkflowAnswers.SomeRunCancels | app/workflows/plan_trip_workflow.py:169-383 | and some run ends with its cancellation |
| RecursionLimit.WorstRun | app/workflows/plan_trip_workflow.py:88-91 | for all settings a run whose every ranking is one of two concrete candidate lists takes the full bound in one invocation |
| RecursionLimit.LimitSufficesIff | app/common/config.py:123-127 | a recursion limit is enough for every invocation of every run exactly from 19 plus the retries' worth on |
| RecursionLimit.LimitOfTheSettings | app/common/config.py:123-127 | the default retries need 35, the largest allowed ones 54, and a limit of 18 or less suffices for no setting |
| TraceCollector.RetainedSnoc | app/observability/harness.py:258-278 | appending to the full deque retains the right suffix of the longer log |
| TraceCollector.Admission | app/observability/harness.py:265-278 | evicting, then appending, keeps queue and index in step with the log |
| TraceCollector.Collector.StartRun | app/observability/harness.py:262-278 | refuses a known id unchanged; else the run is the newest of the log and starts empty |
| TraceCollector.Collector.StartSpan | app/observability/harness.py:280-319 | refuses in order unknown run, full run, blank text; else appends one running span at its position |
| TraceCollector.FinishSpan | app/observability/harness.py:321-345 | a finished span is refused unchanged; else status, error, tool and usage are set and nothing else |
| TraceCollector.Collector.FinishRun | app/observability/harness.py:347-359 | sets status and error of a known run, keeping its spans |
| TraceCollector.Collector.GetRun | app/observability/harness.py:361-366 | finds a run exactly when the queue still holds it, as values |
| TraceCollector.Collector.ListThreadRuns | app/observability/harness.py:368-377 | the order-preserving filter of the queue |
| TraceCollector.Collector.KnownIffRecent | app/observability/harness.py:262-278 | an id is known exactly while its run is among the last ones started |
| TraceCollector.Open | app/observability/harness.py:249-260 | capacities below one are refused |
| SpanTree.TracePositions | app/observability/harness.py:290-318 | recorded spans take consecutive positions in the order begun, never past the limit |
| SpanTree.TraceNests | app/observability/harness.py:555-593 | for any call tree every begun span ends exactly once, innermost first, under the innermost running node |
| SpanTree.SpansAreTheBegun | app/observability/harness.py:402-447 | the recorded spans and parents are exactly those begun, in preorder |
| SpanTree.NothingLeftRunning | app/observability/harness.py:321-345 | if every node reports an end, no span stays running |
| SpanTree.SpansRecorded | app/observability/harness.py:290-318 | exactly the spans the untraced run needs are recorded, as far as there is room |
| SpanTree.NeverMore | app/observability/harness.py:402-447 | for any call, tracing records no more than needed and loses no exception |
| SpanTree.AllRecordedIff | app/observability/harness.py:290-318 | for any call, every needed span is recorded exactly when all are named and they fit |
| SpanTree.TracingIsTransparent | app/observability/harness.py:402-447 | while the needed spans fit, a traced call ends as the untraced one |
| SpanTree.LimitShows | app/observability/harness.py:292-296 | from the limit on every call is refused before it runs, so one that would return raises |
| SpanTree.Untraced | app/observability/harness.py:558-562 | without a run the wrappers only pass through and map tool errors |
| SpanOutcomes.FirstSpanTells | app/observability/harness.py:422-447 | a traced call's own span tells how it ended: a tool's is success exactly when it returns, else failed with the error the caller gets; a node's is failed with node_exception, or what the node reports |
| SpanOutcomes.EverySpanTells | app/observability/harness.py:402-593 | so does every span of the tree about its own call, with its own place, parent and texts |
| SpanOutcomes.ToolsRaiseToolErrors | app/observability/harness.py:436-447 | only tool errors leave a tool: its own, tool_timeout, or tool_error for anything else |
| SpanOutcomes.StatusIs | app/observability/harness.py:690-699 | a reported status is kept if known, waiting counts as success and anything else as failure |
| Text.StripIsMiddle | app/observability/harness.py:690-699 | stripping takes away exactly the white space at either end |
| Text.SpacesAre | app/observability/harness.py:690-699 | which ASCII characters are white space |
| Text.LowerIs | app/observability/harness.py:690-699 | lowering turns capitals into the small letters of the alphabet and changes nothing else |
| SpanTree.Harness.Execute | app/observability/harness.py:402-447 | either wrapper appends exactly the specified spans and restores the current span on every exit |
| SpanTree.Harness.Begin | app/observability/harness.py:422-435 | the span is refused, or appended and running under the current one |
| SpanTree.Harness.Finish | app/observability/harness.py:566-591 | failed with its code or finished as reported |
| SpanTree.Harness.Perform | app/observability/harness.py:555-593 | a body's calls append their spans in order, caught exceptions notwithstanding |
| SpanTree.Harness.UseRunContext | app/observability/harness.py:525-545 | the previous run context is back on every exit |

## Left out

* Models, MCP transport, vector stores, HTTP, SQL and the front end: their answers are inputs. `final_response` and `clarify` texts, and field-by-field trace summaries.
* Reason and note texts, rejection examples, target deviations and combination ids of the optimizer beyond their use in the order.
* Field resolution, extraction metadata, derived request indexes and the list of changed fields of a revision.
* The remaining rank metrics, percentiles and set precision; floating-point rounding throughout: scores and amounts are exact reals.
* The keyword planner used when no model is configured, and unavailable or denied tool lists of the policy.
* Evidence for hotel reviews and packing lists, which is never required, and exceptions of the retrieval planner other than a missing destination.
* Locks, threads and time-outs of the collector and the executor beyond what a timed-out tool raises; latencies and time stamps.
* Of the database, all but the approval records: drafts, versions and users, a commit of the same proposal that slips into the transaction from elsewhere, and records whose draft or version is missing.
- Workflow.DecisionGateNode: does not model the interrupt itself; the answer is an input of the step that resumes the node.
- BudgetTheorems.LimitedListShape: candidate records carry only the fields the optimizer reads.
- ToolLoop.CompiledPlansQualify: assumes a registry of the four tools that have meta fields; ToolCache.AlwaysUnseenIff gives the exact condition.
- WorkflowBounds.InvocationsAreBounded: counts node executions, not the super-steps of the graph library; RecursionLimit.LimitSufficesIff likewise.
- RecursionLimit.WorstRun: uses inputs for decisions the code takes by rules that are not modelled: requirement issues, constraints and data coverage of a request, the safety rules on its message, whether the registry accepts the required calls, whether candidates remain after filtering, and what graders and text checks find.
- BudgetVerification.SelectionSoundIff: assumes candidates as the ranking leaves them, with a direction, a non-blank id and a price in whole cents; the ranking itself is not modelled.
- WorkflowDeadEnds.RepairNeverClears: takes from the code that no node between ranking and verifier writes candidates or planning context, and that a proposal just written parses again and its facts can be rebuilt.
- WorkflowHistory.WritesAtMostOnce: the records at the start of a run are arbitrary, but none is added from elsewhere while it runs.
- EvidenceRepair.RepairConsumes: counts tasks per category, not the queries inside them.

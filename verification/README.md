# Token-level credit assignment: a verified model

This project models the credit-assignment pipeline of a tool-agent training repository, and six smaller
cores that stand beside it, in Dafny 4.11. `dafny verify dfyconfig.toml` checks all of it.

**The pipeline.** A scanner finds tool-call blocks in the emitted tokens of an assistant turn
(`CallAttribution`); the record is published against the retained, possibly clipped, response
(`CallRetention`); paid rewards are joined to blocks by runtime identity (`CallJoin`, `CallJoinBatch`);
turn rewards become hybrid advantages, normalised per (sample group, turn) and painted on spans that
must tile the response mask (`MtGtpo`, `MtGtpoLaws`, over `GroupStats` and `Spans`); call credit
redistributes a turn over its calls (`CallCredit`, `CallCreditLaws`). Two re-derivations of the same
numbers, the compact one-token-per-turn batch and the additive audit, are in `PaperAudit`, with
`PaperCompaction` on when the compact batch keeps the values. Groups
without signal are dropped in `DynamicFiltering`; `TauGigpo` is the anchor-grouped estimator.

**Beside it.** `Supervisor`, `SupervisorProtocol`, `SupervisorSafety` and `SupervisorRaces` model the review
supervisor as interleaved steps of its coroutines, its subprocesses, and the workers an earlier supervisor may
have left running; `SupervisorOutcomes` and `SupervisorRetry` say what each step does and when attempts are retried. `Replay` and `TurnPairing` are the two machines that pair recorded
calls with responses. `CurriculumGroups`, `BucketQuota` and `CurriculumSplit` are the group-preserving
split. `Configuration` is config composition. `ScopedConfirmation`, `Arpo` and `RepetitionScan` are a
confirmation protocol, worker packing, and a strided search.

**How to read it.** Code that loops or updates state is a `method` or a `class`, proved against
specification functions; the laws are lemmas about those functions. An exception is `Rejected`: every
method says exactly when it occurs, and all `ValueError`s of one function are that one outcome. Floats
are exact reals; the square root is a parameter `root`, constrained by `IsRoot` where a law needs it, so
every finiteness check holds and every `isclose` is an equality. `str(uid)` is a string.

The modules `GroupScale`, `EstimatorOutcomes`, `AuditOutcomes`, `TauGigpoOutcomes`, `SupervisorOutcomes`,
`CurriculumOutcomes`, `ConfigurationOutcomes` and `ReplayOutcomes` tell the results of the main operations again, from
their inputs and outputs alone and without the specification functions they are computed by.

**Where the code does less than one might expect.** Each case has the exact condition and a concrete input.

- Spans the join emits pass the call-credit checks only when the parser reports calls in block order
  (`CallJoin.SpansPassIffInOrder`, `CallJoinBatch.JoinFeedsCallCredit`; `CallJoin.SwappedSourcesRefused`).
- Compacting a batch can change an active row: its values are kept, whatever the outcomes and rewards, exactly when no
  all-zero row of its uid lists turns or the uid has too few rows with turns to be normalised
  (`PaperCompaction.CompactKeepsValues`; `PaperCompaction.CompactCanChange`).
- `merge` is not associative: a mapping replaced in between can come back, and a clash of the first two mappings can be
  gone after the later two are merged (`Configuration.MergeAssociates`; `Configuration.GroupingMatters`,
  `Configuration.ClashCanVanish`).
- The strided repetition scan can miss a hit between samples (`RepetitionScan.ScanIsLinear`; `RepetitionScan.ScanCanMiss`).
- The split's local optimality is one-sided: it holds in both directions exactly when no validation group is smaller
  than twice the overshoot (`BucketQuota.TwoWayIff`; `BucketQuota.NotOptimalBothWays`).
- The reward filter drops signal exactly from groups whose rewards differ and that are short, nowhere positive, nowhere
  below the maximum, or within the tolerance (`DynamicFiltering.SignalLostIff`; `DynamicFiltering.SignalCanBeLost`).
- The supervisor's changed-ledger error occurs exactly when a worker left over from an earlier supervisor writes between
  the two readings, has ended and left a valid ledger (`SupervisorRaces.ChangedIffWorkerWrote`; `SupervisorRaces.FinishedWorkerStopsRun`).
- A completed entry of the supervisor can be untrue of its ledger: a reviewed candidate's never is, an exhausted one's
  exactly if its third attempt was completed after all, an already accepted one's exactly if it was accepted itself or its
  next attempt directory appeared; all of it takes a worker left over (`SupervisorSafety.CompletedOnce`;
  `SupervisorRaces.LateReviewBeliesEntry`, `SupervisorRaces.OwnReviewListedElsewhere`, `SupervisorRaces.LateAttemptBeliesEntry`).
- A task can be accepted twice exactly if it was at the start, or a worker left over had not settled a task accepted
  elsewhere (`SupervisorRaces.NeverTwiceIffClean`; `SupervisorRaces.UnreservedWorkerDuplicates`).
- The audit's reconstruction check fires exactly on a turn whose normalised return depends on turns without a record
  (`PaperAudit.Decompose`); with every turn recorded it never does.

## Model

| member | source | states |
|---|---|---|
| `GroupStats.GroupPositions` | tau3_grpo/algorithms/mt_gtpo.py:18-20 | the insertion-ordered dictionary: each key once, with exactly its positions in order |
| `GroupStats.GroupNormalize` | tau3_grpo/algorithms/mt_gtpo.py:13-28 | refuses exactly unequal lengths; each entry is its value standardised within its own key's group, zero for small or constant groups |
| `GroupStats.NormalisedSumsToZero` | tau3_grpo/algorithms/mt_gtpo.py:21-27 | the normalised values of a group sum to zero, whatever its size or spread |
| `GroupStats.DeviationZero` | tau3_grpo/algorithms/mt_gtpo.py:25-26 | the population deviation is zero exactly when all members agree |
| `GroupScale.DeviationIsSpread` | tau3_grpo/algorithms/mt_gtpo.py:25-25 | the deviation d is not negative and n² d² is the sum of (x - y)² over all pairs of members |
| `GroupScale.ScaledIsNormalised` | tau3_grpo/algorithms/mt_gtpo.py:21-27 | a normalised group: zeros below the minimum size or without spread, otherwise values around zero whose differences are the members' differences over d + epsilon |
| `GroupScale.TwoMembers` | tau3_grpo/algorithms/mt_gtpo.py:25-27 | two members a < b become -h / (h + epsilon) and h / (h + epsilon), h half their distance |
| `MtGtpo.CheckSpans` | tau3_grpo/algorithms/mt_gtpo.py:76-87 | accepts exactly the ordered, disjoint, non-empty intervals whose union is the set of masked positions |
| `MtGtpo.BackwardReturns` | tau3_grpo/algorithms/mt_gtpo.py:88-92 | the backward loop computes G[k] = r[k] + gamma G[k+1] with the outcome after the last turn |
| `MtGtpo.FiledCohort` | tau3_grpo/algorithms/mt_gtpo.py:93-97 | grouping the flat list by (uid, turn) gathers exactly the active rows of that sample group that reach the turn |
| `MtGtpo.ComputeMtGtpo` | tau3_grpo/algorithms/mt_gtpo.py:31-120 | refuses exactly invalid settings, shapes, masks or tilings; otherwise its output is `Scored`: the values of the table and their painted tokens, which `EstimatorOutcomes.TurnsNormalised` and `EstimatorOutcomes.EpisodeNormalised` tell from the batch alone |
| `MtGtpoLaws.ReturnClosedForm` | tau3_grpo/algorithms/mt_gtpo.py:88-92 | the backward loop equals the discounted sum of the rewards from the turn on plus the discounted outcome |
| `MtGtpoLaws.TilingOwner` | tau3_grpo/algorithms/mt_gtpo.py:76-87 | an accepted tiling gives each masked position one owner and each unmasked one none |
| `MtGtpoLaws.TokenCredit` | tau3_grpo/algorithms/mt_gtpo.py:98-108 | each masked token carries the advantage and return of its covering turn; every other token carries zero |
| `MtGtpoLaws.InactiveRowsIrrelevant` | tau3_grpo/algorithms/mt_gtpo.py:66-101 | deleting all-zero-mask rows changes no return and no advantage of any kept row |
| `MtGtpoLaws.ActiveRowsDecide` | tau3_grpo/algorithms/mt_gtpo.py:66-101 | two batches that agree on their active rows' outcomes, uids and rewards give those rows the same values, whatever their spans |
| `EstimatorOutcomes.EpisodeNormalised` | tau3_grpo/algorithms/mt_gtpo.py:66-69 | the episode advantages of a sample group are the outcomes of its rows with masked tokens, normalised: scale, centre, minimum size |
| `EstimatorOutcomes.TurnsNormalised` | tau3_grpo/algorithms/mt_gtpo.py:93-101 | the advantages of turn k without lambda times the episode advantage are the returns of turn k, normalised over the rows of the sample group that reach it |
| `EstimatorOutcomes.TwoRowsScores` | tau3_grpo/algorithms/mt_gtpo.py:21-27 | outcomes 0 and 1 of one sample group, one rewardless turn each: the two tokens carry -0.5 / (0.5 + epsilon) and 0.5 / (0.5 + epsilon) |
| `Spans.CoveredCount` | tau3_grpo/algorithms/mt_gtpo_call_credit.py:118-118 | disjoint spans cover as many tokens as their lengths add up to |
| `CallCredit.CheckCallSpans` | tau3_grpo/algorithms/mt_gtpo_call_credit.py:49-56 | accepts exactly ordered, disjoint, non-empty spans inside the turn, over masked tokens only |
| `CallCredit.CheckTurn` | tau3_grpo/algorithms/mt_gtpo_call_credit.py:39-58 | the per-turn checks: paid rewards add up to the turn reward, and complete exact spans if and only if the turn is eligible |
| `CallCredit.CheckCalls` | tau3_grpo/algorithms/mt_gtpo_call_credit.py:22-58 | a batch is accepted exactly when every turn of every active row passes |
| `CallCredit.BuildGroups` | tau3_grpo/algorithms/mt_gtpo_call_credit.py:59-59 | the insertion-ordered dictionary of (uid, turn) groups holds exactly the peers the baseline was normalised over |
| `CallCredit.ProgressEnd` | tau3_grpo/algorithms/mt_gtpo_call_credit.py:64-112 | once every group is visited, no active row is short of a record: each has one per turn |
| `CallCredit.PaintCall` | tau3_grpo/algorithms/mt_gtpo_call_credit.py:106-109 | writing one more span changes exactly its tokens and marks exactly them |
| `CallCredit.ComputeCallCredit` | tau3_grpo/algorithms/mt_gtpo_call_credit.py:16-112 | refuses exactly unknown modes and unacceptable batches; otherwise its output is `Credited`: one record per turn and the rewritten tokens, which the rows of `EstimatorOutcomes` tell from the batch alone, in both modes |
| `CallCreditLaws.SameGroup` | tau3_grpo/algorithms/mt_gtpo_call_credit.py:64-68 | the group, mean and deviation used here are the ones the baseline was normalised with |
| `CallCreditLaws.LocalFormula` | tau3_grpo/algorithms/mt_gtpo_call_credit.py:101-104 | for an applied call the advantage is ((q - b_call) + (h - mean h)) / (std + eps) + lambda * episode: only the centred immediate term is replaced |
| `CallCreditLaws.ResidualConserves` | tau3_grpo/algorithms/mt_gtpo_call_credit.py:95-99 | residual mode keeps the mean of the call advantages at the turn advantage |
| `CallCreditLaws.VotesBalance` | tau3_grpo/algorithms/mt_gtpo_call_credit.py:69-71 | one vote per call-bearing trajectory: the deviations from the call baseline sum to zero |
| `CallCreditLaws.SingleCallEquivalence` | tau3_grpo/algorithms/mt_gtpo_call_credit.py:69-104 | if every peer makes one paid call, local mode returns the original turn advantage |
| `CallCreditLaws.CallTokenCredit` | tau3_grpo/algorithms/mt_gtpo_call_credit.py:106-109 | every token of an applied call carries that call's corrected advantage |
| `CallCreditLaws.OtherTokensKept` | tau3_grpo/algorithms/mt_gtpo_call_credit.py:61-111 | every token outside the spans of applied turns keeps its baseline value, unmarked |
| `CallCreditLaws.CountReplaced` | tau3_grpo/algorithms/mt_gtpo_call_credit.py:118-118 | `applied_tokens` is the sum of the lengths of the applied call spans |
| `EstimatorOutcomes.RecordedVerdict` | tau3_grpo/algorithms/mt_gtpo_call_credit.py:73-80 | the recorded reason of each turn is the one whose conditions hold: calls, eligibility, rows and callers of the group against the minimum, equal returns, and in residual mode one call or equal call rewards |
| `EstimatorOutcomes.ResidualSpread` | tau3_grpo/algorithms/mt_gtpo_call_credit.py:94-98 | in an applied residual turn the call advantages sum to their number times the turn advantage, and differ by the calls' rewards over the deviation of the group's returns plus epsilon |
| `EstimatorOutcomes.ResidualTokens` | tau3_grpo/algorithms/mt_gtpo_call_credit.py:94-109 | the same for any two tokens of any two calls of the turn: a call paid more gets more |
| `EstimatorOutcomes.LocalSpread` | tau3_grpo/algorithms/mt_gtpo_call_credit.py:64-104 | in an applied local turn each call advantage is the turn advantage moved by (call reward - mean vote) - (turn reward - mean turn reward), over the deviation plus epsilon |
| `EstimatorOutcomes.RecordedTokens` | tau3_grpo/algorithms/mt_gtpo_call_credit.py:106-110 | every token of a call of an applied turn is marked and carries the advantage recorded for that call |
| `PaperAudit.BuildCompact` | tau3_grpo/analysis/calibrate_paper_rewards.py:98-104 | builds one synthetic token per turn; no trajectories is an error |
| `PaperAudit.CompactAccepted` | tau3_grpo/analysis/calibrate_paper_rewards.py:98-108 | the compact batch passes all span checks whenever settings and list lengths are valid |
| `PaperAudit.CompactKeepsTable` | tau3_grpo/analysis/calibrate_paper_rewards.py:88-108 | the tables themselves, values of all-zero rows included, agree if and only if all-zero rows list no turns |
| `PaperCompaction.ShelteredKeepsValues` | tau3_grpo/algorithms/mt_gtpo.py:66-101 | an active row keeps its returns, turn advantages and episode advantage if no all-zero row of its uid lists turns, or too few rows of the uid do |
| `PaperCompaction.CompactKeepsValues` | tau3_grpo/analysis/calibrate_paper_rewards.py:88-108 | that condition is exact: without it some outcomes and rewards of the same shape change the row's advantages |
| `PaperCompaction.CompactCanChange` | tau3_grpo/analysis/calibrate_paper_rewards.py:98-108 | a concrete accepted batch of two rows whose active row changes its advantage |
| `PaperAudit.CompactScores` | tau3_grpo/analysis/calibrate_paper_rewards.py:105-108 | the compact batch is scored with the values of the real table |
| `PaperAudit.Reconstructs` | tau3_grpo/analysis/audit_paper_credit.py:95-143 | with every turn recorded the four centred components plus the episode term are the hybrid advantage, for singleton and zero-variance groups too |
| `PaperAudit.PartsAddUp` | tau3_grpo/analysis/audit_paper_credit.py:126-137 | in every case the four components add up to the return as normalised over the recorded turns of its group |
| `PaperAudit.ComponentsCancel` | tau3_grpo/analysis/audit_paper_credit.py:129-137 | each component sums to zero over its (uid, turn) group |
| `PaperAudit.FutureIsLaterRewards` | tau3_grpo/analysis/audit_paper_credit.py:120-122 | `future_process` is exactly the discounted sum of the later rewards |
| `PaperAudit.Decompose` | tau3_grpo/analysis/audit_paper_credit.py:95-144 | refuses exactly invalid settings, unequal list lengths, a turn record without a reward, and a turn whose normalised return depends on turns without a record; otherwise one explained record per recorded turn, whose raw and shared components `AuditOutcomes` tells from the call events and the group's records; with all turns recorded the reconstruction check never fires |
| `AuditOutcomes.RecordedRaws` | tau3_grpo/analysis/audit_paper_credit.py:114-122 | of each record: the duplicate part times its divisor is the sum over the duplicate calls, duplicate plus other is the reward, future is the discounted later rewards, terminal the discounted outcome, and together they are the return |
| `AuditOutcomes.AllOrNothing` | tau3_grpo/analysis/audit_paper_credit.py:117-119 | without a duplicate the duplicate part is zero; with nothing but duplicates it is all that was paid, under mean aggregation over the number of calls |
| `AuditOutcomes.OneMoreCall` | tau3_grpo/analysis/audit_paper_credit.py:117-117 | under sum aggregation one more call changes the duplicate part by its reward exactly if it is a duplicate |
| `AuditOutcomes.PartsShared` | tau3_grpo/analysis/audit_paper_credit.py:128-140 | in each (uid, turn) group every component's shares are its raw values centred and divided by the deviation of the returns plus epsilon, or zero for small or constant groups |
| `CallAttribution.ScanBlocks` | tau3_grpo/data/call_attribution.py:39-69 | blocks are exactly the maximal positive-depth runs, numbered, ordered, disjoint, non-empty; closed unless last and still open; ambiguous exactly on a misplaced marker |
| `CallAttribution.ExactIffAlternating` | tau3_grpo/data/call_attribution.py:39-68 | a scan is exact if and only if the markers alternate, start marker first |
| `CallAttribution.ExactBlockShape` | tau3_grpo/data/call_attribution.py:39-68 | in an exact scan a closed block has its one start marker first and its one end marker last |
| `CallAttribution.Attribution.Begin` | tau3_grpo/data/call_attribution.py:14-69 | the fresh record: the scan, or `unavailable` without distinct atomic markers |
| `CallAttribution.MatchSources` | tau3_grpo/data/call_attribution.py:77-94 | parser sources match exactly when the scan is exact, counts agree, parsing succeeded and every block decodes to its source text |
| `CallAttribution.CountSources` | tau3_grpo/data/call_attribution.py:95-98 | how many calls each block is reported for |
| `CallAttribution.Attribution.AttachSources` | tau3_grpo/data/call_attribution.py:72-122 | appends one call per parsed call; raises exactly when a matched source names an unknown block; a first attachment establishes the record invariant |
| `CallAttribution.AttachBuilds` | tau3_grpo/data/call_attribution.py:99-122 | a call marked exact is the only call of one closed block of an exactly scanned, parsed turn |
| `CallAttribution.Attribution.BindIds` | tau3_grpo/data/call_attribution.py:125-127 | identities are copied as far as both lists go; the record invariant survives |
| `CallAttribution.Attribution.RecordStart` | tau3_grpo/data/call_attribution.py:140-142 | one call is marked started and nothing else changes |
| `CallAttribution.Attribution.RecordResult` | tau3_grpo/data/call_attribution.py:130-137 | one call gets its execution receipt and nothing else changes |
| `CallRetention.CheckBlocks` | tau3_grpo/data/call_attribution.py:174-185 | the moving cursor accepts exactly numbered, ordered, disjoint blocks inside the turn |
| `CallRetention.Retain` | tau3_grpo/data/call_attribution.py:158-205 | refuses exactly on disagreeing tokens or mask, bad blocks or unknown block numbers; clips, gaps and eligibility flags are as specified |
| `CallRetention.RetainBuilt` | tau3_grpo/data/call_attribution.py:158-189 | a record the runtime built is refused only when retained tokens or mask differ from what it saw |
| `CallRetention.OthersPartition` | tau3_grpo/data/call_attribution.py:174-186 | blocks and other generated spans split the emitted turn; the others never touch each other |
| `CallRetention.RetainedOthers` | tau3_grpo/data/call_attribution.py:186-189 | the retained other spans are separated and hold exactly the tokens of the turn before the limit that are in no block |
| `CallRetention.RetainedTokensConserved` | tau3_grpo/data/call_attribution.py:168-189 | at every clip limit, retained block tokens plus retained other tokens equal the retained turn |
| `CallRetention.ClipSplits` | tau3_grpo/data/call_attribution.py:172-182 | retained plus discarded is emitted, and the retained tokens are those before the limit |
| `CallRetention.EligibleTurns` | tau3_grpo/data/call_attribution.py:190-204 | for a built record, eligible means: exact scan, parsed, calls and blocks in bijection, every block closed and whole, every call executed and named |
| `CallJoin.ReadEvents` | tau3_grpo/data/call_credit.py:67-73 | execution events are accepted exactly when their identities are present and new to the row |
| `CallJoin.PaidPermutation` | tau3_grpo/data/call_credit.py:74-84 | the paid-call checks amount to: paid calls are a permutation of the execution events |
| `CallJoin.CoverEvents` | tau3_grpo/data/call_credit.py:74-84 | accepts exactly such permutations |
| `CallJoin.MatchReceipts` | tau3_grpo/data/call_credit.py:85-96 | executed and paid calls agree in identities, one for one, and receipts; the rewards follow execution order |
| `CallJoin.JoinTurn` | tau3_grpo/data/call_credit.py:50-105 | all identity checks of one turn, and the emitted rewards, spans and eligibility |
| `CallJoin.RewardsConserved` | tau3_grpo/data/call_credit.py:67-98 | the emitted rewards are a permutation of the turn's paid rewards, so their sum is kept |
| `CallJoin.SpansPassIffInOrder` | tau3_grpo/data/call_credit.py:97-102 | emitted spans pass the estimator's span check if and only if calls come in increasing block order |
| `CallJoin.SwappedSourcesRefused` | tau3_grpo/data/call_credit.py:97-102 | a concrete eligible record, calls reported in swapped order, whose spans the estimator refuses |
| `CallJoin.SwappedPath` | tau3_grpo/data/call_attribution.py:72-137 | that record comes out of scanning, attaching, binding and executing, and the join accepts its turn |
| `CallJoinBatch.JoinRow` | tau3_grpo/data/call_credit.py:24-108 | a row joins exactly when trajectory, sample group, token and mask prefix, zero mask beyond it, turn count and aggregation agree and every turn joins, each against the identities used before it |
| `CallJoinBatch.CallCreditInputs` | tau3_grpo/data/call_credit.py:11-109 | the whole join: accepted exactly when shapes agree and every active row joins; then each active row has its own trajectory, sample group, tokens and mask, one fact a turn, and summed pay in paper mode |
| `CallJoinBatch.AggregationDecides` | tau3_grpo/data/call_credit.py:46-48 | a one-row batch of two executed and paid calls joins exactly if it is no paper row or its aggregation is "sum" |
| `CallJoinBatch.RowIdsUnique` | tau3_grpo/data/call_credit.py:49-73 | no execution identity occurs twice in a row, within or across turns |
| `CallJoinBatch.TrajectoriesUnique` | tau3_grpo/data/call_credit.py:29-35 | two active rows never come from one trajectory |
| `CallJoinBatch.JoinFeedsCallCredit` | tau3_grpo/algorithms/mt_gtpo_call_credit.py:34-58 | what the join emits is accepted by call credit if and only if every eligible turn reports its calls in block order and the paid rewards of every turn with calls add up to the turn reward |
| `CallJoinBatch.OrderFromParser` | tau3_grpo/data/call_attribution.py:99-122 | attached calls are in block order exactly if the parser reported its sources in that order |
| `DynamicFiltering.EvaluateGroups` | tau3_grpo/algorithms/dynamic_filtering.py:144-174 | one verdict per uid on exactly that uid's rewards; each statistic is the number of verdicts of its kind |
| `DynamicFiltering.KindMeans` | tau3_grpo/algorithms/dynamic_filtering.py:122-141 | the four kinds told apart by conditions that exclude each other: short, nowhere positive, at the maximum or within the tolerance, informative |
| `DynamicFiltering.ApplyDynamicFilter` | tau3_grpo/algorithms/dynamic_filtering.py:177-201 | zeroes exactly the rows of groups that are not informative |
| `DynamicFiltering.BinaryKept` | tau3_grpo/algorithms/dynamic_filtering.py:121-141 | a complete 0/1 group is kept exactly when its rewards differ and the maximum reward exceeds the tolerance |
| `DynamicFiltering.DropsSignalIff` | tau3_grpo/algorithms/dynamic_filtering.py:121-141 | a group with a nonzero advantage is dropped exactly when its rewards differ and it is short, nowhere positive, nowhere below the maximum, or within the tolerance |
| `DynamicFiltering.SignalLostIff` | tau3_grpo/algorithms/dynamic_filtering.py:177-201 | over a batch, some row of a group has mask times advantage changed by the filter exactly in that case |
| `DynamicFiltering.NoSignalLost` | tau3_grpo/algorithms/dynamic_filtering.py:177-201 | with 0/1 rewards and complete groups, mask times episode advantage is unchanged for every token |
| `DynamicFiltering.SignalCanBeLost` | tau3_grpo/algorithms/dynamic_filtering.py:129-141 | for each of the four conditions a concrete group that is dropped with nonzero advantages |
| `DynamicFiltering.ApplyAdvantageFilter` | tau3_grpo/algorithms/dynamic_filtering.py:255-286 | refuses exactly invalid inputs and incomplete groups; zeroes padding and groups without a generated token above the tolerance |
| `DynamicFiltering.ZeroToleranceKeepsSignal` | tau3_grpo/algorithms/dynamic_filtering.py:279-282 | at tolerance zero, mask times advantage is unchanged on unpadded rows |
| `DynamicFiltering.KeptGroupsHaveSignal` | tau3_grpo/algorithms/dynamic_filtering.py:279-282 | after filtering, a group shows a token above the tolerance exactly if it did before |
| `DynamicFiltering.FilterIdempotent` | tau3_grpo/algorithms/dynamic_filtering.py:255-286 | filtering twice is filtering once, at any tolerance |
| `TauGigpo.StepsFromPayload` | tau3_grpo/algorithms/tau_gigpo.py:254-288 | refuses exactly misaligned lists; otherwise the specified records |
| `TauGigpo.AbstentionsCount` | tau3_grpo/algorithms/tau_gigpo.py:264-287 | a trajectory has one step per entry that is not an observation, abstentions included |
| `TauGigpo.StepsAreNumbered` | tau3_grpo/algorithms/tau_gigpo.py:268-287 | rebuilt steps are numbered from zero without gaps, trajectory after trajectory |
| `TauGigpo.StepReturns` | tau3_grpo/algorithms/tau_gigpo.py:112-132 | the terminal reward discounted by the steps to come; refuses exactly unknown trajectories and zero to a negative power |
| `TauGigpo.ReturnsRecur` | tau3_grpo/algorithms/tau_gigpo.py:112-132 | for rebuilt steps G[t] = gamma G[t+1], and the last step gets the terminal reward |
| `TauGigpo.StepAdvantages` | tau3_grpo/algorithms/tau_gigpo.py:135-182 | each step is centred in its anchor group, zero without an anchor or in a small group |
| `TauGigpo.AnchorGroupBalances` | tau3_grpo/algorithms/tau_gigpo.py:158-163 | step advantages sum to zero over every anchor group |
| `TauGigpo.SingletonsGetNothing` | tau3_grpo/algorithms/tau_gigpo.py:158-182 | a step alone in its group gets exactly zero |
| `TauGigpo.CombineAdvantages` | tau3_grpo/algorithms/tau_gigpo.py:185-216 | each token carries the episode term plus omega times the anchored steps whose clipped spans cover it, times the mask |
| `TauGigpo.EpisodeAdvantages` | tau3_grpo/algorithms/tau_gigpo.py:89-109 | group-mean-centred terminal rewards |
| `TauGigpo.ComputeTauGigpo` | tau3_grpo/algorithms/tau_gigpo.py:219-251 | the whole estimator over any list of steps: accepted exactly when its parts are, with the token formula of its parts |
| `TauGigpo.ComputeFromPayload` | tau3_grpo/algorithms/tau_gigpo.py:219-288 | the same over the anchor payload of a rollout, refused also when its lists are misaligned |
| `TauGigpoOutcomes.AnyReturnsRecur` | tau3_grpo/algorithms/tau_gigpo.py:112-132 | in any list of steps the last numbered step of a trajectory gets the terminal reward, and a step gets gamma times the return of the one numbered next, beyond the counted steps too |
| `TauGigpoOutcomes.AnchorTerms` | tau3_grpo/algorithms/tau_gigpo.py:135-182 | steps without an anchor and groups below the minimum get nothing; in any other anchor group the terms sum to zero and differ by the returns' differences over fnorm |
| `TauGigpoOutcomes.EpisodeCentred` | tau3_grpo/algorithms/tau_gigpo.py:89-109 | the episode terms of a sample group sum to zero and differ by the terminal rewards' differences over fnorm |
| `TauGigpoOutcomes.TokenIs` | tau3_grpo/algorithms/tau_gigpo.py:185-216 | each token is its row's episode term plus omega times the advantages of exactly the anchored steps whose span covers it, under its mask |
| `Supervisor.AttemptsFor` | tau3_grpo/analysis/kimi_sft_supervisor_v2.py:21-46 | accepts exactly gap-free ledgers of this candidate whose only completed review, if any, is the last attempt; returns that ledger |
| `Supervisor.ValidateSources` | tau3_grpo/analysis/kimi_sft_supervisor_v2.py:58-74 | accepts exactly 1 to 100 rows with unique identities and hashes, none frozen, all sources intact |
| `SupervisorProtocol.RereadAgrees` | tau3_grpo/analysis/kimi_sft_supervisor_v2.py:149-163 | unless a worker left over wrote during the run, the ledger re-read inside the semaphore is valid and equals the remembered one |
| `SupervisorProtocol.KnowingStep` | tau3_grpo/analysis/kimi_sft_supervisor_v2.py:127-203 | every step of every coroutine, subprocess and worker left over keeps what each program counter knows about its ledger, processes and reserved task |
| `SupervisorSafety.InvStep` | tau3_grpo/analysis/kimi_sft_supervisor_v2.py:127-203 | every step of every interleaving keeps the whole invariant; what each step does is told by `SupervisorOutcomes` |
| `SupervisorSafety.LedgersStayImmutable` | tau3_grpo/analysis/kimi_sft_supervisor_v2.py:21-46 | over all runs, workers left over included, ledgers stay contiguous, at most three long, nothing after a completed review; broken ones are never touched |
| `SupervisorSafety.ConcurrencyBounded` | tau3_grpo/analysis/kimi_sft_supervisor_v2.py:149-182 | active and dispatching candidates and live subprocesses never exceed the semaphore, stale entries after an error included |
| `SupervisorSafety.NoDispatchAfterStop` | tau3_grpo/analysis/kimi_sft_supervisor_v2.py:149-151 | once the stop flag is set nothing more is dispatched |
| `SupervisorSafety.CompletedOnce` | tau3_grpo/analysis/kimi_sft_supervisor_v2.py:132-193 | completed candidates are listed once and disjoint from the active ones, the remaining count is never negative; an entry is true of its ledger if and only if it stands, and always unless a worker left over moved the ledger on |
| `SupervisorSafety.NearDecides` | tau3_grpo/analysis/kimi_sft_supervisor_v2.py:132-160 | what can still belie an entry: a completed third attempt of an exhausted candidate, an own acceptance or a further attempt of one listed as accepted elsewhere |
| `SupervisorSafety.AtMostThreeDispatches` | tau3_grpo/analysis/kimi_sft_supervisor_v2.py:142-175 | no candidate is dispatched more than three times |
| `SupervisorSafety.DuplicateUnreachable` | tau3_grpo/analysis/kimi_sft_supervisor_v2.py:95-104 | without duplicates at the start, and no task accepted that a worker left over can still accept, no task is accepted twice and that error cannot occur |
| `SupervisorSafety.RacesNeedLeftovers` | tau3_grpo/analysis/kimi_sft_supervisor_v2.py:161-167 | an existing output directory is never met; a changed ledger or a live worker only for a candidate with a worker left over |
| `SupervisorRaces.ChangedIffWorkerWrote` | tau3_grpo/analysis/kimi_sft_supervisor_v2.py:152-163 | the check inside the semaphore reports a changed ledger exactly if a worker left over wrote since the last reading, has ended and left a valid ledger; with no such write the attempt is dispatched |
| `SupervisorRaces.FinishedWorkerStopsRun` | tau3_grpo/analysis/kimi_sft_supervisor_v2.py:161-163 | a concrete run: the worker finishes during the backoff and the run stops on a changed ledger |
| `SupervisorRaces.LateReviewBeliesEntry` | tau3_grpo/analysis/kimi_sft_supervisor_v2.py:142-148 | a concrete run: a candidate is listed as exhausted and its third attempt then completes |
| `SupervisorRaces.OwnReviewListedElsewhere` | tau3_grpo/analysis/kimi_sft_supervisor_v2.py:155-160 | a concrete run: the worker accepts the task during the backoff and its own candidate is listed as accepted elsewhere |
| `SupervisorRaces.LateAttemptBeliesEntry` | tau3_grpo/analysis/kimi_sft_supervisor_v2.py:133-139 | a concrete run: a candidate of a frozen task is listed with no attempts and its worker then creates the first |
| `SupervisorRaces.NeverTwiceIffClean` | tau3_grpo/analysis/kimi_sft_supervisor_v2.py:95-104 | no run accepts a task twice if and only if none is at the start and no unsettled worker left over reviews an accepted task |
| `SupervisorRaces.UnreservedWorkerDuplicates` | tau3_grpo/analysis/kimi_sft_supervisor_v2.py:95-104 | a concrete run without duplicates at the start that reaches the duplicate error |
| `SupervisorSafety.CleanRunCompletes` | tau3_grpo/analysis/kimi_sft_supervisor_v2.py:205-211 | a run that ends without error lists every plan candidate and leaves none active |
| `SupervisorOutcomes.TopOutcome` | tau3_grpo/analysis/kimi_sft_supervisor_v2.py:132-154 | the head of the loop, case by case over the stop flag, the last attempt, the accepted tasks and the number of attempts: end, list with which verdict, back off, or wait |
| `SupervisorOutcomes.AcquireOutcome` | tau3_grpo/analysis/kimi_sft_supervisor_v2.py:155-163 | inside the semaphore: end when stopped, list a task accepted meanwhile, otherwise go on to the checks |
| `SupervisorOutcomes.StartOutcome` | tau3_grpo/analysis/kimi_sft_supervisor_v2.py:131-131 | the first reading keeps the whole valid ledger, and stops the run exactly for an invalid one |
| `SupervisorOutcomes.CheckOutcome` | tau3_grpo/analysis/kimi_sft_supervisor_v2.py:164-171 | a live worker, an invalid ledger and a changed ledger each stop the run with their own error; otherwise the next attempt is dispatched |
| `SupervisorOutcomes.SpawnedOutcome` | tau3_grpo/analysis/kimi_sft_supervisor_v2.py:174-183 | the candidate becomes active with its attempt, or a failed start stops the run |
| `SupervisorOutcomes.CollectOutcome` | tau3_grpo/analysis/kimi_sft_supervisor_v2.py:184-199 | what the subprocess left decides: nothing is an omitted attempt, a bare directory an invalid ledger, a completed review is listed or refused by its exit code, a retryable status is recorded as failed and leads back to the loop |
| `SupervisorOutcomes.RaisesIffCause` | tau3_grpo/analysis/kimi_sft_supervisor_v2.py:131-203 | every section of every reachable state gives each reason exactly if that reason's own cause is there |
| `SupervisorOutcomes.ErrorsHaveCauses` | tau3_grpo/analysis/kimi_sft_supervisor_v2.py:200-203 | every error of every run was raised for its own cause by a section of its own candidate |
| `SupervisorOutcomes.FailedExactly` | tau3_grpo/analysis/kimi_sft_supervisor_v2.py:194-198 | over all runs `failed_attempts` lists exactly the collected attempts whose final status is retryable |
| `SupervisorOutcomes.FailedOnce` | tau3_grpo/analysis/kimi_sft_supervisor_v2.py:194-198 | no failed attempt is listed twice, and each is a past attempt of its candidate |
| `SupervisorOutcomes.DispatchesOpen` | tau3_grpo/analysis/kimi_sft_supervisor_v2.py:155-171 | every dispatch of every run is made with the flag down and no earlier worker left, for a task not frozen, not accepted outside the plan and accepted in no ledger |
| `SupervisorRetry.FailedIsRetried` | tau3_grpo/analysis/kimi_sft_supervisor_v2.py:184-199 | from any reachable state, collecting a failed attempt n < 3 of an open candidate is recorded and can go on to the dispatch of attempt n + 1 without an error |
| `SupervisorRetry.SecondAttempt` | tau3_grpo/analysis/kimi_sft_supervisor_v2.py:127-199 | a reachable state of the run from nothing: attempt 1 failed and recorded, attempt 2 dispatched, no error |
| `SupervisorRetry.StoppedIsCancelled` | tau3_grpo/analysis/kimi_sft_supervisor_v2.py:200-208 | once the flag is up a coroutine outside the checks may be cancelled, and nothing else changes |
| `SupervisorRetry.FaultStops` | tau3_grpo/analysis/kimi_sft_supervisor_v2.py:164-203 | from any reachable state a fault while checking, starting or awaiting a subprocess may stop the run with its own error |
| `CurriculumGroups.HardestMember` | tau3_grpo/data/curriculum_split.py:75-82 | a group sits in the bucket of its hardest member, and has one only if every member does |
| `CurriculumGroups.GroupLabels` | tau3_grpo/data/curriculum_split.py:46-52 | every label is in its reviewed family or held, once |
| `BucketQuota.LocallyOptimal` | tau3_grpo/data/curriculum_split.py:92-98 | at the end no group left in train would bring the count strictly closer to the target |
| `BucketQuota.TakeBackIff` | tau3_grpo/data/curriculum_split.py:92-98 | taking a validation group back is an improvement exactly if it is smaller than twice the overshoot |
| `BucketQuota.TwoWayIff` | tau3_grpo/data/curriculum_split.py:92-98 | a bucket is optimal in both directions exactly if no validation group is that small, so always without an overshoot |
| `BucketQuota.OvershooterStays` | tau3_grpo/data/curriculum_split.py:92-98 | the group that overshoots is the last one taken and never the one to take back |
| `BucketQuota.LargestFirstIsOptimal` | tau3_grpo/data/curriculum_split.py:92-98 | groups offered in non-increasing size always leave a bucket optimal in both directions |
| `BucketQuota.NotOptimalBothWays` | tau3_grpo/data/curriculum_split.py:92-98 | concrete sizes for which a bucket is not optimal in both directions |
| `BucketQuota.AfterGrows` | tau3_grpo/data/curriculum_split.py:92-98 | the distance to the target never grows |
| `BucketQuota.SinglesExact` | tau3_grpo/data/curriculum_split.py:80-98 | with unlocked singleton groups the target is hit exactly |
| `BucketQuota.FillBucket` | tau3_grpo/data/curriculum_split.py:78-104 | one bucket: every group whole on its recorded side, locks honoured, free groups taken in rank order by the greedy rule from the rows locked to validation; the quota locally optimal and no further from the target than the locks put it |
| `CurriculumSplit.SortOut` | tau3_grpo/data/curriculum_split.py:56-77 | stops exactly on a lock clash, protected groups included; otherwise each group is held or queued in its bucket |
| `CurriculumSplit.RowsPlaced` | tau3_grpo/data/curriculum_split.py:56-77 | every row of every group is queued in one bucket or held, with nothing lost |
| `CurriculumSplit.BuildSplit` | tau3_grpo/data/curriculum_split.py:39-118 | refuses exactly bad ratios, duplicate rows and lock clashes; otherwise train, validation and held together are the source rows, sorted, each where its group's verdict says, with every bucket filled greedily in rank order and balanced |
| `CurriculumSplit.ExactlyOnePlace` | tau3_grpo/data/curriculum_split.py:46-101 | each source row is in exactly one of train, validation and held, once |
| `CurriculumSplit.LocksHonoured` | tau3_grpo/data/curriculum_split.py:57-91 | a placed row is on the side any member of its group is locked to |
| `CurriculumSplit.GroupsStayTogether` | tau3_grpo/data/curriculum_split.py:46-101 | two rows of one group are on the same side, or both held for the same reason |
| `CurriculumOutcomes.SplitsIff` | tau3_grpo/data/curriculum_split.py:40-61 | the build goes through exactly for a ratio inside (0, 1), distinct rows, no unknown historical split and no family locked to both sides |
| `CurriculumOutcomes.RowGoes` | tau3_grpo/data/curriculum_split.py:46-91 | each row is held for its family's missing review, its protection or an unrated member, or is on its family's one side, which is that of any locked member |
| `CurriculumOutcomes.FamilyBucket` | tau3_grpo/data/curriculum_split.py:19-77 | an unprotected, fully rated family is in strategy if some member is hard or needs replanning or dependent subgoals, else in constraints if some member is medium, else in foundation |
| `CurriculumOutcomes.TargetRounds` | tau3_grpo/data/curriculum_split.py:80-81 | the validation target of a bucket is the ratio of its rows rounded to the nearest row, halves up |
| `CurriculumOutcomes.GreedyBucket` | tau3_grpo/data/curriculum_split.py:82-101 | in each bucket the unlocked groups, by rank, go to validation exactly if that brings the count strictly closer to the target, the count starting from the rows locked to validation and ending as reported |
| `Configuration.MergeInto` | tau3_grpo/configuration.py:16-25 | the recursive in-place loop computes the pointwise merge; it fails exactly when an `overrides` list meets a non-list |
| `Configuration.AbsorbsMeans` | tau3_grpo/configuration.py:16-25 | merging leaves the update as it was exactly when the update already covers the base |
| `Configuration.MergeAssociates` | tau3_grpo/configuration.py:16-25 | for all mappings the two groupings agree, errors included, if and only if both raise, or neither does and no mapping replaced in between is lost |
| `Configuration.ClashMeans` | tau3_grpo/configuration.py:16-25 | a merge raises exactly if somewhere an overrides list meets a value that is no list |
| `Configuration.StillMeans` | tau3_grpo/configuration.py:16-25 | merging the later two first raises exactly if such a clash is left, read off the three mappings |
| `Configuration.GroupingMatters` | tau3_grpo/configuration.py:16-25 | three concrete mappings on which the two groupings differ |
| `Configuration.ClashCanVanish` | tau3_grpo/configuration.py:16-25 | three concrete mappings that raise merged from the left and do not from the right |
| `Configuration.ConsistentMergeAssociates` | tau3_grpo/configuration.py:16-25 | kind-consistent mappings merge without error and associatively |
| `Configuration.LoadConfig` | tau3_grpo/configuration.py:28-49 | the recursion over includes terminates on every file graph and computes the specified data and source order |
| `Configuration.LoadsIffNoCycle` | tau3_grpo/configuration.py:28-49 | if the reachable files are kind-consistent, loading succeeds exactly when all of them are healthy and no include cycle is reachable |
| `Configuration.LoadIsFold` | tau3_grpo/configuration.py:41-49 | kind-consistent files load to the left fold of their payloads in `sources` order, whatever the nesting |
| `ConfigurationOutcomes.OwnComesLast` | tau3_grpo/configuration.py:41-49 | the sources of a file are those of its includes, then the file itself |
| `ConfigurationOutcomes.IncludesInOrder` | tau3_grpo/configuration.py:42-46 | the sources of earlier includes come before those of later ones |
| `ConfigurationOutcomes.LoadedOverrides` | tau3_grpo/configuration.py:16-25 | the loaded `overrides` list is the concatenation of its sources' lists, in source order |
| `ConfigurationOutcomes.LastWordWins` | tau3_grpo/configuration.py:16-25 | any other plain value is the one of the last source that mentions its key |
| `Replay.ReplayMessages` | tau3_grpo/analysis/replay_decisions.py:50-122 | the message loop runs the specified machine and stops for good at the first failure |
| `Replay.SnapshotsCertified` | tau3_grpo/analysis/replay_decisions.py:70-92 | every snapshot of every run is taken with nothing pending: its state is the fold of all earlier calls in order, and its verified count is their number |
| `Replay.PrefixSnapshots` | tau3_grpo/analysis/replay_decisions.py:66-122 | snapshots of a message prefix are a prefix of the full run's snapshots |
| `ReplayOutcomes.RunsIff` | tau3_grpo/analysis/replay_decisions.py:66-122 | the replay gets past the first n messages exactly if each fits what was issued, answered and executed before it: new named calls, the oldest pending call named and confirmed by the environment, nothing pending elsewhere |
| `ReplayOutcomes.StatusIff` | tau3_grpo/analysis/replay_decisions.py:112-122 | verified exactly if every message fits and every issued call is answered; partial exactly if not and some snapshot was taken |
| `ReplayOutcomes.ReportNumbered` | tau3_grpo/analysis/replay_decisions.py:73-110 | events name the tool responses in order with their error flags, and snapshots are numbered from zero |
| `TurnPairing.SimulationTurns` | tau3_grpo/analysis/audit_reward_transfer.py:30-74 | accepts exactly complete transcripts: some assistant message, k fresh calls followed at once by their k responses in order, no other tool message; returns the paired turns |
| `TurnPairing.MachinesAgree` | tau3_grpo/analysis/audit_reward_transfer.py:30-74 | while both machines accept, the turns' identities are the replay's events followed by the pending calls |
| `TurnPairing.SameOutcomes` | tau3_grpo/analysis/audit_reward_transfer.py:30-74 | on a transcript both accept, flattened turns are the replay's events: same identities and error flags in the same order |
| `ScopedConfirmation.ScopedConfirmation.Propose` | scripts/a800_research/cpu_signal_validation.py:112-120 | an unscoped action raises and changes nothing; a scoped one extends the trace |
| `ScopedConfirmation.ScopedConfirmation.Reply` | scripts/a800_research/cpu_signal_validation.py:122-133 | a reply extends the trace and returns the new status |
| `ScopedConfirmation.ScopedConfirmation.Authorizes` | scripts/a800_research/cpu_signal_validation.py:135-136 | answers yes exactly when the trace affirmed the action |
| `ScopedConfirmation.AuthorizedIffAffirmed` | scripts/a800_research/cpu_signal_validation.py:105-136 | over every trace: authorised if and only if the last reply affirms, the latest proposal before it is the action, and every later proposal is too |
| `ScopedConfirmation.OneAuthorized` | scripts/a800_research/cpu_signal_validation.py:105-136 | at most one action is authorised at a time |
| `Arpo.GroupRows` | tau3_grpo/algorithms/arpo.py:89-95 | refuses exactly empty input and incomplete groups; otherwise whole groups in first-seen order |
| `Arpo.WorkerRows` | tau3_grpo/algorithms/arpo.py:98-105 | deals the groups out in turn to min(workers, groups) bins; refuses exactly without a worker or complete groups |
| `Arpo.RowsPartitioned` | tau3_grpo/algorithms/arpo.py:98-105 | every row is in exactly one bin |
| `Arpo.BinDistinct` | tau3_grpo/algorithms/arpo.py:98-105 | no bin holds a row twice |
| `Arpo.GroupWhole` | tau3_grpo/algorithms/arpo.py:98-105 | each group sits whole and contiguous in one bin |
| `Arpo.BinsBalanced` | tau3_grpo/algorithms/arpo.py:98-105 | bin sizes differ by at most one group |
| `RepetitionScan.ScanTurn` | tau3_grpo/analysis/repetition_audit.py:20-30 | returns the first repeating length in the window of the first repeating sample, none if no sample repeats |
| `RepetitionScan.ScanIsLinear` | tau3_grpo/analysis/repetition_audit.py:20-30 | agrees with the plain search if and only if nothing repeats or the first repeating sample is less than a stride after the first repeating length |
| `RepetitionScan.MonotoneScanIsLinear` | tau3_grpo/analysis/repetition_audit.py:20-30 | agrees whenever detection is monotone |
| `RepetitionScan.ScanCanMiss` | tau3_grpo/analysis/repetition_audit.py:20-30 | a concrete detector for which it misses a repetition |

## Left out

- Floating-point rounding, finite-value checks, numpy dtypes and `isclose` tolerances: exact reals throughout.
- Which `ValueError` is raised, and its message: one `Rejected` per function.
- CallCredit.ComputeCallCredit: records are computed for all groups first and the token writes follow row by row; the original interleaves the two, which touches disjoint data.
- Telemetry (nonzero counts, RMS, quantiles, coverage, statistics dictionaries) except the counts named in the table.
- CallAttribution.Attribution.RecordStart: the optional database snapshot around a call start, and the reason text of an unavailable scan.
- CallAttribution.Attribution.AttachSources: parser block numbers are natural; Python's negative indices are not modelled.
- CallJoin.JoinTurn: a missing attribution, a wrong schema and a wrong coordinate system are one case; event fields outside name, arguments, error, hash and identity are dropped.
- The immediate-reward proxy and token-weighted diagnostics of `rescore`, and `task_split`.
- `select_fixed_informative`, `merge_stats` and the `d_bar` ratios.
- Supervisor: directories, state files, logs and the process table are the ledger slots, the subprocess steps and one `Fault` outcome; keyboard interruption is not modelled, cancellation only after an error.
- SupervisorProtocol: a worker left over is one an earlier supervisor dispatched for the last attempt of its candidate's ledger, it shows in the process table while it lives, and it stays inside that attempt directory.
- SupervisorProtocol: a subprocess writes only its own attempt directory, creation first, then a started request, then one final status under its own identity; it may stop, or exit with any code, at any point.
- The decision-anchor encoders, policy hash and version checks around `replay_messages`; environment exceptions and tool-call validation are one `Raises`.
- TurnPairing.SimulationTurns: call events are identities with an error map, not shared mutable objects; arguments and observations are dropped.
- CurriculumSplit.BuildSplit: notes, counters and the echo of settings; SHA-256 ranks are a parameter `rank`, and names are numbered by their sorted order.
- Configuration: YAML parsing, path resolution and content hashes; a file that is not a mapping or has bad includes is `Malformed`.
- `load_config` and `resolve_arm`, which only wrap what is modelled.
- ScopedConfirmation: the regular expressions; a reply is a refusal, an affirmation or neither, refusals first.
- RepetitionScan: the detector and tokenizer, which are one function from prefix length to a flag.
- `partial_entropy`, `branch_probability`, `stable_seed` and `replay_soft` of the ARPO module.
- JSON, hashing, file, process and network I/O everywhere.

# Verification of Kiln's research agent

A Dafny model of the deciding logic of Kiln's agent (`apps/agent`), with machine-checked proofs. Kiln
answers a research question by running a graph of nodes under a budget: plan, search, extract, let a
critic judge coverage, loop or stop, write a memo with citations, audit it and store it for reuse. The
model covers the parts whose correctness does not depend on a language model:

- **Key pool** (`KeyPool`, `KeyPoolTheorems`, `KeyPoolCalls`, `KeyPoolBackoff`, `LlmClient`). Requests rotate over key slots with a
  persistent set of dead slots, a per-call set of tried slots and staged backoff. An adversary that sees
  the whole event log decides which client comes up and what each provider answers. `KeyPool` is the
  specification; the class `LlmClient.LLMClient` updates its own fields and is proved equal to it.
- **Execution protocol** (`Execution`, `Runtime`). Start, resume, crash and redelivery over one durable
  checkpoint guarded by a lock, as a small-step system; the streaming code is a class whose effect on the
  checkpoint is proved to be a run of that system.
- **Evidence reducer** (`EvidenceMerge`, `EvidenceSeparation`, `EvidenceIdentity`). Rows deduplicated through one index of ids
  and urls, later rows laid over earlier ones.
- **Enrich allocation** (`Rounding`, `SlotBudget`, `SlotWaste`, `SlotShares`). Weighted rounded quotas, greedy
  draining, reclaiming, what each slot gets, and the waste of each strategy.
- **Quantitative table** (`TextUtil`, `QuantTable`, `QuantRepair`, `QuantAudit`). Repair on real strings
  split at `|`, the sanitiser and the auditor.
- **Citations** (`Ledger`, `MemoBinding`, `BindingTheorems`). Numbering the ledger, stripping dangling
  markers, rebuilding References and Source quality.
- **Decluttering** (`Declutter`, `DeclutterTheorems`, `Detectors`, `DetectorShapes`). Trimming crowded
  markers, and the two detectors of crowding.
- **Depth score** (`DepthScore`, `DepthTheorems`, `DepthCeilings`). Rounded weights, caps and penalties.
- **Knowledge store** (`Knowledge`, `KnowledgeChains`, `KnowledgeAnswers`). Versioned records, merging, reuse
  counts, and whose answer and sources a merged record carries.
- **Research loop** (`ResearchLoop`, `ResearchPaths`). The routers and the edge table, bounds on every run, and
  what every run passes through.
- **Concept deduplication** (`Concepts`).

`Common` holds the few declarations several models share.

Percentages and weights are exact rationals rounded half to even. Text is a sequence of characters with
ASCII case and white space. Loops of the program are methods proved equal to functions; the properties are
lemmas about those functions. `dafny verify dfyconfig.toml` checks everything.

## Where the code does less than it says

Each of these is proved, with the exact condition under which the code does meet the promise or with a
concrete input on which it does not:

- `_failover` says it tries every slot before giving up. From every state that holds only for pools of at
  most two slots, or when all clients come up or none does (`KeyPoolTheorems.RotationThoroughIff`). A whole
  request rotates on entry, in its main loop and once more in the exhaustion handler. When each client
  either always or never comes up, it finds every healthy slot from every start exactly when no client
  comes up, or all do, or one does in a pool of at most seven slots (`KeyPoolCalls.CallThoroughIff`,
  `KeyPoolTheorems.CallMissesHealthySlot`).
- At most once per decision holds in every schedule exactly when each execution id is redelivered only
  before any other id of its run (`Execution.AtMostOnceIff`).
- A resume that finds the run waiting for nobody, and brings no credits, is not remembered. Delivered again,
  it is consumed as the decision at a gate that was opened after it was sent, exactly when the run waits by
  then (`Execution.StaleDecisionIff`, `Execution.EarlyResumeAnswersLater`); a remembered one goes on as if
  there had been no crash (`Execution.CrashUnseen`).
- A start delivered again to a run that waits or is over gets the frame its stream closed with, exactly when
  the run is not both (`Runtime.RedeliveryAgreesIff`).
- A stream closes once, except when releasing the lock fails after it closed (`Runtime.FrameDiscipline`).
- The reducer keeps ids and url keys unique when a row is added exactly when the row shares one with at most
  one row of the output, and throughout a merge exactly when no row touches a row other than the one it is
  laid over (`EvidenceSeparation.MergeSeparateIff`, `EvidenceSeparation.StaysSeparateIff`,
  `EvidenceIdentity.InconsistentRowsBreakIt`). Merging in two stages agrees with merging at once, whatever
  comes next, exactly when every id and url key of the first stage ends on one row, the one its last carrier
  was sent to (`EvidenceSeparation.AssociativeIff`).
- A second repair of the table can drop a row written in dashes (`QuantRepair.RepairIdempotentIff`,
  `QuantRepair.SecondRepairDropsARow`).
- Without a separator and column names an ungrounded first row survives sanitising and is reported by the
  audit (`QuantAudit.SanitizeMeetsAuditIff`, `QuantAudit.UngroundedHeaderStays`).
- The repair takes aligned rules such as `:--` for separators and the sanitiser does not, while the sanitiser
  passes blank cells, single dashes and dashes with blanks between (`QuantAudit.RulesDiffer`).
- A second sanitising pass can remove rows, even below a separator: where the first pass drops a row of a
  ragged table, the cells left may regroup into other rows. `QuantAudit.SecondSanitizeIff` says exactly when
  the second pass removes nothing and when it changes nothing; `QuantAudit.RaggedSecondPassRemoves` is a
  table with a header of two columns and rows of 1, 3 and 1 cells on which it removes a row.
- A dangling number inside a group such as `[1, 6]` is not stripped; and if the text in front of the lists
  cites no ledger source, the lists are not built although a later section may cite one
  (`BindingTheorems.CitationsResolveIff`, `BindingTheorems.CitationWithoutEntry`).
- A paragraph without closing punctuation, or without a blank line behind it, is trimmed as one unit and
  detected as another. Whatever the markers, decluttering silences the stacking detector exactly when no two
  sentences are read as one, and the saturation detector exactly when no two paragraphs are
  (`DetectorShapes.StackingSilentIff`, `DetectorShapes.SaturationSilentIff`,
  `DetectorShapes.OpenParagraphStillStacks`).
- Covering a slot can lower the depth score: exactly when it loses the implementation component and that
  outweighs the gain (`DepthTheorems.CoverLowersIff`). With at most twelve slots it never does
  (`DepthTheorems.FewSlotsNeverLower`); with thirteen it can (`DepthTheorems.CoveringCanLower`).
- More evidence can lower the depth score: the first piece of evidence does whenever there is a score to lose,
  and the first primary source does when its share is worth less than the penalty for having few; nothing
  after the first does (`DepthCeilings.EvidenceLowersIff`, `DepthCeilings.PrimaryLowersIff`,
  `DepthCeilings.MoreCanBeLess`).
- Two orders of the same concepts keep different names exactly when a concept with a non-maximal name is
  padded with white space (`Concepts.OrderIndependentIff`): the filter lower-cases names without stripping
  them.

## Model

| member | source | states |
|---|---|---|
| KeyPool.AheadIsRemainder | apps/agent/app/llm/client.py:276 | the wrap-around form used for the next slot is the remainder of index plus step by the pool size |
| KeyPool.TurnProgress | apps/agent/app/llm/client.py:343-400 | each round that continues lowers the pair (passes left, unvisited slots) whatever the adversary answers |
| KeyPoolTheorems.GenerateEffort | apps/agent/app/llm/client.py:330-414 | one request makes at most 3 attempts per slot and sleeps at most 60 seconds, for every adversary |
| KeyPoolTheorems.GenerateDiscipline | apps/agent/app/llm/client.py:341-378 | within a request a provider is called on a dead slot only when all slots are dead, no slot is revived, and a slot dies only by a permanent refusal or a failed activation |
| KeyPoolTheorems.SessionDiscipline | apps/agent/app/llm/client.py:312-423 | the same over any sequence of requests and revivals; a slot dead at the end was benched, by a permanent refusal or a failed activation, since the last revival, which left none dead |
| KeyPoolTheorems.DeadGrowsUntilRevival | apps/agent/app/llm/client.py:262-263 | over any sequence of requests without a revival the dead set only grows |
| KeyPoolTheorems.PausedEffort | apps/agent/app/llm/client.py:312-328 | with credits pauses, attempts and sleep are bounded per pause answered |
| KeyPoolTheorems.PoolCompleteness | apps/agent/app/llm/client.py:268-310 | if every client comes up, exhaustion is raised only after each slot not dead on entry was attempted in the last round |
| KeyPoolTheorems.HealthyKeyFound | apps/agent/app/llm/client.py:330-414 | if every client comes up and some slot that is not dead always answers, the request returns text |
| KeyPoolTheorems.ContinueRecovers | apps/agent/app/llm/client.py:318-328 | after a pause answered with Continue, a healthy key is found even if it was dead |
| KeyPoolTheorems.RotationThoroughIff | apps/agent/app/llm/client.py:268-298 | the rotation tries every slot from every state if and only if the pool has at most two slots, or all clients come up, or none does |
| KeyPoolTheorems.CallMissesHealthySlot | apps/agent/app/llm/client.py:275-278 | a three-slot pool on which a whole request gives up without trying a slot that would have answered |
| KeyPoolCalls.CallThoroughIff | apps/agent/app/llm/client.py:268-414 | with clients that always or never come up, a request finds every healthy slot that is not dead, from every start and whatever the other providers answer, if and only if no client comes up, or all do, or exactly one does and the pool has at most seven slots |
| KeyPoolCalls.ThreeSweeps | apps/agent/app/llm/client.py:275-296 | on a ring of at most seven slots three rotations over clients that do not come up visit every open slot |
| KeyPoolBackoff.BackoffLaw | apps/agent/app/llm/client.py:343-402 | in every world a request sleeps not at all, 20 seconds, or 20 and then 40; never after a failure that is not a rate limit; and where the pool is up and nothing but rate limits comes, it gives up only after both |
| KeyPoolBackoff.PausesAndRounds | apps/agent/app/llm/client.py:343-402 | with all clients up each pause follows a full round over the live slots, and a request met by nothing but rate limits is exhausted exactly after pauses of 20 and 40 seconds with every live slot attempted |
| KeyPoolBackoff.RateLimitOutlived | apps/agent/app/llm/client.py:388-402 | with all clients up, a rate limit that lifts before the pauses are over is outlived: the request returns text |
| KeyPoolBackoff.BenchedIffTurnedAway | apps/agent/app/llm/client.py:358-378 | with all clients up the dead slots after a request are exactly those dead before and those whose provider refused for credits, a dead key or a failed generation |
| KeyPoolBackoff.ReturnsTheAnswer | apps/agent/app/llm/client.py:344-357 | text returned is the answer to the last attempt, and nothing is returned only by a pool without slots |
| KeyPoolBackoff.PausesDecide | apps/agent/app/llm/client.py:312-328 | a request is cancelled, handed over or left waiting exactly as the first pause not continued says, and text returned through pauses is the answer to the last attempt |
| LlmClient.LLMClient.constructor | apps/agent/app/llm/client.py:119-158 | a new client stands on its first slot with nothing dead |
| LlmClient.LLMClient.Activate | apps/agent/app/llm/client.py:212-221 | switching slots records the activation and whether the client came up |
| LlmClient.LLMClient.Failover | apps/agent/app/llm/client.py:268-298 | the rotation loop changes the fields exactly as the specification says, for every adversary |
| LlmClient.LLMClient.LeaveDeadSlot | apps/agent/app/llm/client.py:341-343 | the entry loop leaves dead or unavailable slots as specified |
| LlmClient.LLMClient.Round | apps/agent/app/llm/client.py:344-414 | one round of the main loop does the specified step on fields and locals |
| LlmClient.LLMClient.GenerateOnce | apps/agent/app/llm/client.py:330-414 | one request ends, with the specified verdict and final fields |
| LlmClient.LLMClient.ReviveSlots | apps/agent/app/llm/client.py:416-423 | reviving empties the dead set and returns to the first slot |
| LlmClient.LLMClient.Generate | apps/agent/app/llm/client.py:312-328 | requests with pauses in between end with the specified reply and fields |
| Execution.TerminalAbsorbs | apps/agent/app/runtime.py:387-396 | once the status is terminal no request, crash or redelivery changes the checkpoint, in any schedule |
| Execution.AtMostOnce | apps/agent/app/runtime.py:451-490 | if ids come back only before other ids, each execution's decision is consumed at most once, in any schedule |
| Execution.AtMostOnceIff | apps/agent/app/runtime.py:468-490 | an order of resume ids is safe in every schedule if and only if each id forms one contiguous block |
| Execution.EachGateOnce | apps/agent/app/runtime.py:471-476 | no gate is answered twice, in any schedule and with any ids |
| Execution.DecisionsNeedStops | apps/agent/app/runtime.py:471-476 | over any schedule, with any ids, at most as many decisions are consumed as the graph has stopped for a human |
| Execution.RedeliveryAfterCrash | apps/agent/app/runtime.py:468-470 | a worker that dies before the write leaves no trace; after it, the redelivered request only continues |
| Execution.StartsOnce | apps/agent/app/runtime.py:415-455 | a start writes a fresh checkpoint only where there is none and otherwise changes nothing |
| Execution.RetriesOnlyForCredits | apps/agent/app/runtime.py:398-490 | where nobody is waited for, a resume changes something only if it is new and brings credits; the run then works again |
| Execution.DecisionReopens | apps/agent/app/runtime.py:471-483 | a decision consumed leaves the run working, waiting for nobody and remembering the id, and answers the gate that was open |
| Execution.WaitingHolds | apps/agent/app/runtime.py:378-551 | at a stop no move of the graph changes status, gate or decisions, and once the interrupt is recorded none changes anything |
| Execution.FreeMoves | apps/agent/app/runtime.py:521-551 | where nobody is waited for, a stop opens one gate and waits at it, and any other step leaves the status and the work left that it names |
| Execution.CrashUnseen | apps/agent/app/runtime.py:468-490 | when the first delivery is remembered, crash and redelivery leave what one uninterrupted worker would have left |
| Execution.StaleDecisionIff | apps/agent/app/runtime.py:468-490 | a redelivered resume is consumed as a decision if and only if its first delivery found nobody waiting and brought no credits, and the run waits now |
| Execution.EarlyResumeAnswersLater | apps/agent/app/runtime.py:468-490 | a run on which a resume sent too early answers the first gate, opened after it was sent |
| Runtime.RunRuntime.UpdatesWithHeartbeats | apps/agent/app/runtime.py:554-596 | streams one update per move and a heartbeat while busy, and leaves the checkpoint those moves lead to |
| Runtime.RunRuntime.StreamUnderLock | apps/agent/app/runtime.py:378-551 | one request under the lock: chosen input, frames, and how it ended |
| Runtime.RunRuntime.StreamExecutionBound | apps/agent/app/runtime.py:294-375 | takes the lock, numbers frames, turns exceptions into a frame |
| Runtime.RunRuntime.StreamExecution | apps/agent/app/runtime.py:238-245 | every frame carries its position as sequence number |
| Runtime.FrameDiscipline | apps/agent/app/runtime.py:294-375 | only updates and heartbeats precede at most one closing frame, which is last, if and only if the unlock does not fail after the stream closed itself |
| Runtime.StreamRefinesProtocol | apps/agent/app/runtime.py:378-490 | whatever happens to a stream, its effect on the checkpoint is a run of the protocol |
| Runtime.TerminalReplays | apps/agent/app/runtime.py:387-396 | redelivery to a finished run yields exactly the terminal frame and changes nothing |
| Runtime.RefusedStreams | apps/agent/app/runtime.py:378-455 | which requests are not fed to the graph, and the one frame each gets, with nothing changed |
| Runtime.InterruptsIffDecides | apps/agent/app/runtime.py:521-551 | while the run is not over, a stream that runs out closes with an interrupt if and only if the next resume is consumed as a decision, and with no frame if and only if a start delivered again runs on |
| Runtime.RedeliveryAgreesIff | apps/agent/app/runtime.py:387-440 | once the run waits or is over, a start delivered again gets the frame the stream closed with if and only if the run is not both |
| Runtime.RaisedEndings | apps/agent/app/runtime.py:294-375 | how a stream ends when setup, lock or reads fail, the graph raises, or it is cancelled |
| Runtime.MovesAreSeen | apps/agent/app/runtime.py:554-596 | however a stream ends, the client has seen one update for each move and one heartbeat for each beat |
| EvidenceMerge.AddRow | apps/agent/app/graph/state.py:41-61 | one round of the loop does the specified step on index and rows |
| EvidenceMerge.MergeUniqueEvidence | apps/agent/app/graph/state.py:22-62 | the loop computes the specified merge |
| EvidenceMerge.MergeGathers | apps/agent/app/graph/state.py:48-57 | each output row is exactly the overlay, in input order, of the rows sent to its place |
| EvidenceMerge.PlacesOpenInOrder | apps/agent/app/graph/state.py:58-61 | output places are opened one by one: rows keep their order of first appearance |
| EvidenceMerge.MergeCarriesAll | apps/agent/app/graph/state.py:50-52 | no truthy field of any input row is lost or becomes falsy, with no hypothesis |
| EvidenceMerge.OverlayExact | apps/agent/app/graph/state.py:50-57 | laying a row over another changes exactly the fields for which it has something; null, false, zero and empty leave a field alone |
| EvidenceMerge.SameAddressIsOneRow | apps/agent/app/graph/state.py:43-49 | two rows whose urls differ only in letter case and trailing slashes become one row, whatever their ids |
| EvidenceMerge.MergeFixpointIff | apps/agent/app/graph/state.py:22-62 | merging a list with nothing returns it if and only if no two of its rows share an id or url key |
| EvidenceSeparation.MergeSeparateIff | apps/agent/app/graph/state.py:41-61 | one more row leaves ids and url keys unique if and only if it shares one with at most one row of the output |
| EvidenceSeparation.StaysSeparateIff | apps/agent/app/graph/state.py:41-61 | ids and url keys stay unique throughout a merge if and only if no row touches an output row other than the one it is sent to |
| EvidenceSeparation.ClashDropsARow | apps/agent/app/graph/state.py:41-61 | merging a list with nothing drops a row if and only if two of its rows share an id or url key |
| EvidenceSeparation.AssociativeIff | apps/agent/app/graph/state.py:22-62 | two-stage merging equals one-stage merging for whatever comes next if and only if every id and url key of the first stage stands on exactly one output row, the one the last input row carrying it was sent to |
| EvidenceIdentity.MergeGroupsById | apps/agent/app/graph/state.py:41-62 | when every row has an id and rows sharing a token share the id, the reducer is a group-by on ids |
| EvidenceIdentity.MergeUnique | apps/agent/app/graph/state.py:41-62 | then output ids and urls are unique and merging the output with nothing is the identity |
| EvidenceIdentity.MergeAssociative | apps/agent/app/graph/state.py:41-62 | then merging in two stages agrees with merging at once |
| EvidenceIdentity.InconsistentRowsBreakIt | apps/agent/app/graph/state.py:43-46 | three rows, the last touching both others, whose merge has a duplicate url key and loses a row when merged again |
| Rounding.RoundBetween | apps/agent/app/domain/slot_budget.py:57 | rounding half to even keeps integer bounds |
| SlotBudget.ComputeQuota | apps/agent/app/domain/slot_budget.py:38-60 | the loop computes the specified quota |
| SlotBudget.AssignWithinCap | apps/agent/app/domain/slot_budget.py:51-60 | for any slots, repeated and blank keys included, each quota is at least 1 and they sum to at most the cap |
| SlotBudget.AssignServesPrefix | apps/agent/app/domain/slot_budget.py:51-60 | distinct slots are served in order, so those left with none form a suffix |
| SlotBudget.QuotaRoundingBound | apps/agent/app/domain/slot_budget.py:38-60 | over n distinct open slots at most n/2 calls stay unassigned |
| SlotBudget.RoundingBoundIsTight | apps/agent/app/domain/slot_budget.py:57 | the bound is reached by two equal slots sharing five calls |
| SlotWaste.ComputeReclaimCap | apps/agent/app/domain/slot_budget.py:63-75 | the loop adds the unused quota of slots that turned out covered |
| SlotWaste.SimulateSlotEnrich | apps/agent/app/domain/slot_budget.py:104-154 | the three draining loops compute the specified spending |
| SlotWaste.WasteLowerBound | apps/agent/app/domain/slot_budget.py:157-168 | no spending of at most the cap wastes less than the open need beyond the cap |
| SlotWaste.QuotasAreOpen | apps/agent/app/domain/slot_budget.py:63-75 | with distinct ids quotas name open slots only, so the reclaimed bonus is always zero |
| SlotWaste.ReclaimExact | apps/agent/app/domain/slot_budget.py:128-154 | reclaim spends exactly min(cap, open need) and wastes max(0, open need - cap) |
| SlotWaste.ReclaimWithinNeeds | apps/agent/app/domain/slot_budget.py:142-154 | reclaim never spends more on a slot than its open need, and nothing on covered slots |
| SlotWaste.ReclaimOptimal | apps/agent/app/domain/slot_budget.py:171-191 | no allocation within the cap wastes less; in particular neither other strategy; the reported improvement is within 0..100 |
| SlotWaste.QuotaSpending | apps/agent/app/domain/slot_budget.py:128-154 | the quota strategy stays within the cap |
| SlotWaste.GlobalSpending | apps/agent/app/domain/slot_budget.py:118-126 | the global strategy stays within the cap |
| SlotShares.QuotaExact | apps/agent/app/domain/slot_budget.py:128-140 | under the quota strategy an open slot gets exactly the smaller of its need and its quota, and no other slot gets anything |
| SlotShares.QuotaOfSlot | apps/agent/app/domain/slot_budget.py:38-60 | the quota of a slot is its nearest whole share, or what the slots before it leave of the cap |
| SlotShares.QuotaWasteExact | apps/agent/app/domain/slot_budget.py:157-168 | the quota strategy wastes exactly the open need beyond the quotas |
| SlotShares.GlobalExact | apps/agent/app/domain/slot_budget.py:118-126 | the global strategy spends the cap or all needs, and gives no slot a call while one with a larger need, or an equal one before it, is unfilled |
| SlotShares.ReclaimInOrder | apps/agent/app/domain/slot_budget.py:142-154 | reclaiming takes nothing back and tops up by falling need: no slot gets more than its quota gave while one before it is unfilled |
| SlotShares.GlobalWasteAmple | apps/agent/app/domain/slot_budget.py:157-168 | with calls for every need the global strategy wastes exactly the need of covered slots |
| SlotShares.FullReclaimIff | apps/agent/app/domain/slot_budget.py:171-191 | full reclaiming is called for if and only if the quota saves less than 69.5% of the global waste, or wastes anything where that is zero |
| QuantTable.CountFirstRow | apps/agent/app/domain/quantitative_verify.py:473-482 | the loop counts the cells before the first blank one |
| QuantTable.CollectCells | apps/agent/app/domain/quantitative_verify.py:511-518 | the nested loop collects the stripped non-blank cells of all lines that are not separators |
| QuantTable.RepairQuantitativeTable | apps/agent/app/domain/quantitative_verify.py:485-544 | the whole pass computes the specified repair |
| QuantTable.ChunksShape | apps/agent/app/domain/quantitative_verify.py:525 | cutting into rows gives rows of one width that flatten back to the cells |
| QuantTable.SeparatorCellIff | apps/agent/app/domain/quantitative_verify.py:465 | separator cells are exactly two dashes or more with a colon on either side or none |
| QuantRepair.JoinedLineFacts | apps/agent/app/domain/quantitative_verify.py:473-518 | a line of rows joined with a blank cell, cells padded at will, reads as those rows' stripped cells, with the first row's width, and as a separator only if it is a single row of separators |
| QuantRepair.RepairedShape | apps/agent/app/domain/quantitative_verify.py:534-543 | when the cells regroup, the table lines become header, separator and rows, and no other line changes |
| QuantRepair.RepairRoundTrip | apps/agent/app/domain/quantitative_verify.py:485-544 | however rows were joined onto lines between prose and separators and their cells padded with blanks, repair gives back header, separator and the same rows, prose untouched |
| QuantRepair.RepairIdempotentIff | apps/agent/app/domain/quantitative_verify.py:511-523 | a second repair changes nothing if and only if the cells do not regroup, or no regrouped row reads as a separator, or at most one does not |
| QuantRepair.SecondRepairDropsARow | apps/agent/app/domain/quantitative_verify.py:511-513 | a concrete line whose second repair differs |
| QuantAudit.ParseRows | apps/agent/app/domain/quantitative_verify.py:339-366 | parsing skips header and separator as specified and drops rows of dashes |
| QuantAudit.SiftLines | apps/agent/app/domain/quantitative_verify.py:587-606 | the rebuild loop keeps prose, everything up to the first row that is not dashes, dashes, and kept rows |
| QuantAudit.SanitizeQuantitativeTable | apps/agent/app/domain/quantitative_verify.py:547-624 | the sanitiser computes the specified lines and counts |
| QuantAudit.AuditQuantitativeTable | apps/agent/app/domain/quantitative_verify.py:439-462 | the audit reports exactly the parsed rows that are not verified |
| QuantAudit.SanitizedIs | apps/agent/app/domain/quantitative_verify.py:587-624 | what sanitising leaves can be read off row by row: all but the first row that is not dashes stay exactly when they are dashes or good, unless rows are removed and none is good |
| QuantAudit.OnlyFirstRowEscapes | apps/agent/app/domain/quantitative_verify.py:587-624 | whatever the section, of the rows with figures left after sanitising only the first may be filler or unverified |
| QuantAudit.IsRowIff | apps/agent/app/domain/quantitative_verify.py:16 | a row is a pair of pipes with something between |
| QuantAudit.RulesDiffer | apps/agent/app/domain/quantitative_verify.py:351-367 | the cells on which the sanitiser's test for dashes and the repair's test for separators disagree |
| QuantAudit.SanitizeMeetsAuditIff | apps/agent/app/domain/quantitative_verify.py:439-624 | the audit of a sanitised section is silent if and only if no parsed row of the repaired section is bad, or none is good, or its first row names columns or has a separator before any good row below it, or its first figure is verified |
| QuantAudit.RuledTableAuditsClean | apps/agent/app/domain/quantitative_verify.py:351-355 | with a dash separator under the header the audit is silent after sanitising |
| QuantAudit.SecondSanitizeIff | apps/agent/app/domain/quantitative_verify.py:485-624 | a second pass removes nothing if and only if the first left no table, or the table it leaves regroups into rows that are dashes or good, or it does not regroup and the first pass removed nothing or its first row is taken for a header or its first figure is good; then the text is unchanged if and only if that table is laid out already |
| QuantAudit.RaggedSecondPassRemoves | apps/agent/app/domain/quantitative_verify.py:520-525 | a table with a separator whose remaining cells regroup, so that the second pass removes a row |
| QuantAudit.RegroupedTable | apps/agent/app/domain/quantitative_verify.py:547-624 | what sanitising leaves of a section that regroups: no table, or the header and exactly the vetted rows |
| QuantAudit.RegroupedSanitize | apps/agent/app/domain/quantitative_verify.py:485-624 | for such sections without separator rows: silent audit, and a second pass is the identity |
| QuantAudit.UngroundedHeaderStays | apps/agent/app/domain/quantitative_verify.py:596-601 | a table of two rows without separator and column names whose ungrounded first row stays and is reported |
| Ledger.NumberSources | apps/agent/app/domain/citations.py:207-240 | the numbering loop computes the specified ledger |
| Ledger.LedgerFacts | apps/agent/app/domain/citations.py:207-240 | numbers run 1, 2, 3; at most max(1, k) entries; no two share an id or a source; a listable candidate is missing only if an earlier one claims its id or source or the list is full |
| MemoBinding.StripOutsideProtected | apps/agent/app/domain/report_integrity.py:1035-1064 | the strip loop removes exactly the specified markers outside protected sections |
| MemoBinding.StripSectionsExact | apps/agent/app/domain/report_integrity.py:1044-1061 | outside protected sections a stripped number survives only in groups, and every other number survives |
| MemoBinding.BindMarkdown | apps/agent/app/domain/citations.py:498-551 | the staged rewriting computes the specified memo |
| MemoBinding.EnforceReferences | apps/agent/app/domain/report_integrity.py:208-224 | dangling strip, then bind |
| BindingTheorems.BindShape | apps/agent/app/domain/citations.py:515-551 | with something to list, the bound memo is the sections in front of both lists followed by the two lists |
| BindingTheorems.BindKeepsCited | apps/agent/app/domain/citations.py:455-478 | binding does not change the set of cited numbers |
| BindingTheorems.BindIdempotent | apps/agent/app/domain/citations.py:498-551 | binding twice is binding once |
| BindingTheorems.ReferencesAreTheCited | apps/agent/app/domain/citations.py:481-520 | for non-empty cites References lists exactly the cited ledger entries in ledger order, and cited_only reports the same entries before and after |
| BindingTheorems.UncitedListsAll | apps/agent/app/domain/citations.py:481-520 | a memo that cites nothing lists the whole ledger |
| BindingTheorems.OneListEach | apps/agent/app/domain/citations.py:515-551 | with something to list, a bound memo ends with one list of each kind and no other section is named like one, in whatever letter case |
| BindingTheorems.StripFrame | apps/agent/app/domain/report_integrity.py:1035-1064 | stripping keeps every heading, every word and the protected sections |
| BindingTheorems.NoLedgerNoStrip | apps/agent/app/domain/report_integrity.py:208-224 | with no ledger publishing leaves the prose as it is |
| BindingTheorems.PublishedOpen | apps/agent/app/domain/report_integrity.py:208-224 | the published prose cites the ledger numbers it cited before, and of the others only those in groups |
| BindingTheorems.CitationsResolveIff | apps/agent/app/domain/report_integrity.py:208-224 | after strip and bind every number cited outside protected sections has exactly one entry if and only if no dangling number stands in a group of the retained prose (or, when nothing is listed, that prose cites nothing) |
| BindingTheorems.LoneDanglersResolve | apps/agent/app/domain/report_integrity.py:1035-1064 | dangling numbers that stand alone all go; with one ledger source cited in front of the lists every citation left resolves |
| BindingTheorems.CitationWithoutEntry | apps/agent/app/domain/citations.py:515-520 | a memo whose good citation behind Source quality ends without an entry |
| Declutter.KeepCites | apps/agent/app/domain/memo_quality.py:70-82 | the substitution keeps allowed numbers while the paragraph has room, and counts them |
| Declutter.AllowedNumbers | apps/agent/app/domain/memo_quality.py:63-68 | the first distinct numbers of a sentence in order of mention |
| Declutter.DeclutterSentence | apps/agent/app/domain/memo_quality.py:58-88 | one sentence as specified, with the running counts and the number of changed markers |
| Declutter.DeclutterMemo | apps/agent/app/domain/memo_quality.py:96-150 | the section loop as specified, protected sections passed on |
| DeclutterTheorems.TrimmedBlock | apps/agent/app/domain/memo_quality.py:38-93 | after trimming each sentence names at most d sources and a paragraph mentions each at most p times; of each source exactly min(p, granted mentions) are left |
| DeclutterTheorems.AllowedIff | apps/agent/app/domain/memo_quality.py:63-68 | a number is allowed in a sentence if and only if fewer than d different ones are named before it |
| DeclutterTheorems.ReportsMarkers | apps/agent/app/domain/memo_quality.py:70-93 | at most as many changes are reported as there are markers outside the lists |
| DeclutterTheorems.BlockFixpointIff | apps/agent/app/domain/memo_quality.py:38-93 | a paragraph is unchanged if and only if it complied, if and only if nothing is counted as changed |
| DeclutterTheorems.DeclutterFixpointIff | apps/agent/app/domain/memo_quality.py:96-150 | the same for memos; the output complies; a second pass changes nothing |
| DeclutterTheorems.DeclutterFrame | apps/agent/app/domain/memo_quality.py:96-150 | headings, protected sections and every word of the prose stay |
| Detectors.DetectStacking | apps/agent/app/domain/memo_quality.py:323-359 | counts the sentences of the memo before its lists that name three or more sources |
| Detectors.DetectSaturation | apps/agent/app/domain/memo_quality.py:362-396 | counts the paragraphs before the lists that are not short and mention one source three or more times |
| Detectors.SentencesReadBack | apps/agent/app/domain/memo_quality.py:323-359 | alone, the sentences of a paragraph are read as they are, closed or not |
| Detectors.BriefNeverCounts | apps/agent/app/domain/memo_quality.py:362-396 | at most as many paragraphs are reported as are not brief |
| DetectorShapes.StackingSilentIff | apps/agent/app/domain/memo_quality.py:38-359 | for markerless headings: decluttering leaves no stack in any memo of a given shape if and only if no two sentences of that shape are read as one |
| DetectorShapes.SaturationSilentIff | apps/agent/app/domain/memo_quality.py:38-396 | and no saturated paragraph, whichever paragraphs are too short to count, if and only if no two paragraphs are read as one |
| DetectorShapes.DeclutterSilencesDetectors | apps/agent/app/domain/memo_quality.py:38-396 | in particular both detectors return 0 where every paragraph ends in punctuation and a blank line |
| DetectorShapes.OpenParagraphStillStacks | apps/agent/app/domain/memo_quality.py:331 | two paragraphs, the first unclosed and so read as one with the second, that still count as a stack |
| DepthScore.CountSlots | apps/agent/app/domain/coverage.py:325-327 | the three status counts |
| DepthScore.ResearchQuality | apps/agent/app/domain/coverage.py:397-534 | the staged caps and penalties compute the specified score and label |
| DepthScore.ScoreBounds | apps/agent/app/domain/coverage.py:456-531 | the score is within 0..100 |
| DepthScore.DeepNeedsMustAnswer | apps/agent/app/domain/coverage.py:456-531 | a score of 85 needs must-answer coverage of 65% |
| DepthScore.DeepNeedsCritical | apps/agent/app/domain/coverage.py:416-418 | a score of 85 needs a critical slot |
| DepthTheorems.DeepMeans | apps/agent/app/domain/coverage.py:533-604 | a deep label implies must-answer coverage of 65%, a primary source, no critical gap and a critical slot covered, so of the critic's coverage reasons only the missing implementation can remain |
| DepthTheorems.FifthFallsIff | apps/agent/app/domain/coverage.py:437-454 | covering a slot lowers the fifth component if and only if it was the only weak implementation slot, another is open and no official implementation was found |
| DepthTheorems.CoverLowersIff | apps/agent/app/domain/coverage.py:415-534 | covering a slot lowers the score if and only if it loses the implementation component and the loss outweighs what is gained in coverage and penalty |
| DepthTheorems.FewSlotsNeverLower | apps/agent/app/domain/coverage.py:415-534 | with at most twelve slots covering one never lowers the score, whatever it loses |
| DepthTheorems.SingleImplementationMonotone | apps/agent/app/domain/coverage.py:415-534 | nor with at most one implementation slot |
| DepthTheorems.CoveringCanLower | apps/agent/app/domain/coverage.py:441-449 | thirteen slots, three of them critical, on which covering one lowers the score from 32 to 31 |
| DepthCeilings.Ceilings | apps/agent/app/domain/coverage.py:467-531 | the best score with each weakness: 62 with an open critical slot, 78 with a weak one, 55 and less without a primary source, 70 without figures or with one dominant work, 45 and 52 for low coverage |
| DepthCeilings.CeilingsReached | apps/agent/app/domain/coverage.py:467-531 | slots on which these are reached |
| DepthCeilings.CoverageCapsReached | apps/agent/app/domain/coverage.py:520-526 | slots that reach the caps on coverage, and pass them at three fifths |
| DepthCeilings.TwoRowsSuffice | apps/agent/app/domain/coverage.py:428-487 | one row of figures is capped at 70, two are not |
| DepthCeilings.StandardWithoutPrimary | apps/agent/app/domain/coverage.py:474-534 | a label better than shallow without a primary source needs eight pieces of evidence and every slot covered |
| DepthCeilings.LibraryNeverFull | apps/agent/app/domain/coverage.py:437-454 | a question that speaks of a library but no implementation never has the full fifth component |
| DepthCeilings.EvidenceLowersIff | apps/agent/app/domain/coverage.py:474-518 | one more piece of evidence lowers the score if and only if it is the first and there is a score to lose |
| DepthCeilings.PrimaryLowersIff | apps/agent/app/domain/coverage.py:415-518 | one more primary source lowers the score if and only if it is the first and its share does not make up for the penalty |
| DepthCeilings.MoreCanBeLess | apps/agent/app/domain/coverage.py:501-518 | slots on which both happen |
| Knowledge.KnowledgeStore.MergeRecords | apps/agent/app/domain/knowledge.py:607-674 | the merging loops compute the specified record |
| Knowledge.KnowledgeStore.MemorySave | apps/agent/app/domain/knowledge.py:318-332 | appends the new or merged record and supersedes exactly the record it builds on |
| Knowledge.KnowledgeStore.Reuse | apps/agent/app/domain/knowledge.py:437-447 | raises the reuse count of the first active record with that id and nothing else |
| Knowledge.KnowledgeStore.Summarize | apps/agent/app/domain/knowledge.py:466-476 | the number of active records, their total reuse, and their average depth rounded to a tenth |
| KnowledgeChains.MergeClaimsKeep | apps/agent/app/domain/knowledge.py:623-630 | merged claims are never less sure of a key than the prior record, and exactly as sure as the surer record when nothing is cut off |
| KnowledgeChains.MergeSlotsExact | apps/agent/app/domain/knowledge.py:631-641 | each merged slot stands at the better of its prior rank and the best new one |
| KnowledgeChains.MergedCoverage | apps/agent/app/domain/knowledge.py:631-641 | a merged slot is covered when it was or a new entry says so, else weak when it was or a new entry says so, and known when either record knows it |
| KnowledgeAnswers.MergeCitationsExact | apps/agent/app/domain/knowledge.py:613-619 | merging keeps the prior citations and adds in order the first new one of each key, up to 28; what is not cut holds every key of both |
| KnowledgeChains.MergeGrows | apps/agent/app/domain/knowledge.py:607-674 | depth, slot ranks and claim confidence do not fall and older citations stay a prefix |
| KnowledgeChains.ChainsKept | apps/agent/app/domain/knowledge.py:318-332 | after any sequence of saves and reuses each chain has exactly one active record, version equals position, each record grew out of the one before, and total reuse equals the hits |
| KnowledgeChains.ChainGrows | apps/agent/app/domain/knowledge.py:607-674 | every later record of a chain has grown from every earlier one |
| KnowledgeChains.HeadsOnlyGrow | apps/agent/app/domain/knowledge.py:318-332 | whatever is saved later, the active record of a chain only gains |
| KnowledgeAnswers.HeadSpeaks | apps/agent/app/domain/knowledge.py:607-674 | after any saves and reuses the active record of a chain goes by the id saved last, has the largest depth saved for the chain, and carries the last answer that was not blank and at least as deep as all before it |
| KnowledgeAnswers.HeadIsDeepestAnswer | apps/agent/app/domain/knowledge.py:607-661 | when no saved answer is blank, that is the latest of the deepest ones |
| KnowledgeAnswers.NeverBlanked | apps/agent/app/domain/knowledge.py:655-661 | once a chain has an answer no later record is without one |
| KnowledgeAnswers.HeadSourced | apps/agent/app/domain/knowledge.py:613-666 | the active record cites only sources saved for its chain, and all of them while it holds fewer than 28 |
| KnowledgeChains.SaveKeepsReuse | apps/agent/app/domain/knowledge.py:318-332 | a save leaves the total reuse over active records unchanged |
| KnowledgeChains.MarkCountsReuse | apps/agent/app/domain/knowledge.py:437-447 | a reuse raises that total by one exactly when it meets an active record |
| ResearchLoop.CriticLoopBound | apps/agent/app/graph/builder.py:48-123 | in every run the critic sends the work back to the planner at most as often as the iteration limit allows |
| ResearchLoop.LoopEdgesAreOpen | apps/agent/app/graph/builder.py:48-118 | every way back of a run finds calls, tokens and iterations left, follow-ups pending, the verdict not sufficient, quality not excellent and one of the last two visits moving |
| ResearchLoop.CriticLoopsIff | apps/agent/app/graph/builder.py:48-118 | the critic's router takes the way back if and only if all of that holds |
| ResearchLoop.GateMeans | apps/agent/app/domain/coverage_gate.py:24-74 | what each reason of the coverage gate stands for, and that the enrich pool never shuts the loop |
| ResearchLoop.StepDescends | apps/agent/app/graph/builder.py:154-207 | every step of a run lowers a measure over retry credits and node rank |
| ResearchLoop.EveryRunEnds | apps/agent/app/graph/builder.py:154-207 | every run ends within a stated number of steps, for a human who sends the work back finitely often |
| ResearchPaths.GrantedFollows | apps/agent/app/graph/builder.py:38-45 | after a plan gate that lets research go on, every run passes the agents when some are to run, then collector, enrich, retrieve, extract and critic, and nothing else |
| ResearchPaths.AgentsRunOnce | apps/agent/app/graph/builder.py:38-45 | between such a gate and the next critic visit the agents run exactly once, and not at all when none are to run |
| ResearchPaths.AgentsNeedGrants | apps/agent/app/graph/builder.py:38-45 | over a whole run the agents run exactly as often as a plan gate granted them |
| ResearchPaths.SkipsIff | apps/agent/app/graph/builder.py:24-41 | briefing, planner and plan gate go straight to the report if and only if the work is out of scope, cancelled or already answered, each as far as it looks |
| ResearchPaths.NothingResearched | apps/agent/app/graph/builder.py:24-41 | while the question is out of scope or has an answer to serve, no run researches |
| ResearchPaths.EndPassesReport | apps/agent/app/graph/builder.py:126-207 | a run that has ended came from the report through the memo gate, with nothing left to revise |
| ResearchPaths.EndIsReviewed | apps/agent/app/graph/builder.py:154-207 | unless called off, a run that has ended passed the critic, then the human who did not send it back, and after that only report and memo gate |
| ResearchPaths.SentBack | apps/agent/app/graph/builder.py:131-151 | work sent back goes from the human and the report to the planner, from the memo gate to the critic or the report, and only then |
| ResearchPaths.SendBacksBounded | apps/agent/app/graph/builder.py:131-151 | a run sends work back from the report at most once, for quality at most twice, and otherwise at most once more than the human does |
| ResearchPaths.PlannedIsReviewed | apps/agent/app/graph/builder.py:24-45 | whatever brought a run to the planner, unless called off it comes to the critic again, six or seven stations on |
| ResearchPaths.MaximalRunEnds | apps/agent/app/graph/builder.py:154-207 | a run that cannot go on stands at the end |
| Concepts.SkipOrReplace | apps/agent/app/domain/paper_concepts.py:321-344 | the inner loop over the set of names, in any order, does the specified step |
| Concepts.DeduplicateConcepts | apps/agent/app/domain/paper_concepts.py:313-346 | the whole loop computes the specified result |
| Concepts.SeenAreMaximal | apps/agent/app/domain/paper_concepts.py:318-344 | whatever the input order, the names seen at the end are exactly the substring-maximal ones |
| Concepts.KeptAreMaximal | apps/agent/app/domain/paper_concepts.py:313-346 | without padding below the maximal names, the concepts kept carry exactly the maximal names |
| Concepts.MaximalNames | apps/agent/app/domain/paper_concepts.py:329-340 | no kept name contains another and every name lies inside a kept one |
| Concepts.KeptInOrder | apps/agent/app/domain/paper_concepts.py:313-346 | the concepts kept are concepts of the input in their order |
| Concepts.OrderIndependentIff | apps/agent/app/domain/paper_concepts.py:313-346 | every input order keeps the same names, and these are the maximal ones, if and only if every concept with a non-maximal name is unpadded |

## Left out

- I/O and wrappers: HTTP, provider SDKs, Postgres, Qdrant, Redis, the web API and the user interface; only the checkpoint, the lock and provider outcomes remain, as state and adversary.
- Names of tried providers, logging and the message text of exhaustion errors: the model keeps slots and verdicts.
- Key pool clock: the adversary's time is the length of the event log, not wall time.
- Durability: the execution id and the resume value are assumed to be written together, as one checkpoint write.
- Slot weights: positive, in quarter units, otherwise arbitrary; the table of weights is not fixed. `adaptive_retrieval_reserve` is not modelled.
- Simulation theorems: caps and needs are non-negative and ids non-blank and distinct, as the source's callers provide them.
- Section extraction and trimming of the quantitative table: the model starts from the lines of the section.
- Wording of the note that replaces a table of which no row is left: one short sentence stands for it.
- Row verdicts of the quantitative table (figures found in the source, filler rows, column words): arbitrary predicates on a line.
- Markdown at character level in binding and decluttering: memos are sections of tokens; link cleaning, spacing and emptied bold markers are not modelled, headings of the bound memo carry no markers, and ledger entries all have numbers.
- Bands of the Source quality list: shown as one group of all listed numbers.
- Ranking and filtering of evidence before numbering, and the choice of quotes: candidates arrive ranked, with their quote judged.
- Detectors.DetectSaturation: which paragraphs have fewer than 50 characters is a parameter, because the model does not lay markers out as text.
- DetectorShapes.StackingSilentIff: assumes that cutting the trimmed text again gives the same sentences.
- DetectorShapes.SaturationSilentIff: assumes that cutting the trimmed text again gives the same paragraphs.
- DetectorShapes.DeclutterSilencesDetectors: assumes both.
- Slot classification and source typing behind the depth score: statuses, primary counts and quantitative rows are inputs; missing named subjects are judged elsewhere.
- LlmClient.LLMClient.Generate: a rebind ends the model's request, where the source continues it on the newly bound client, which is another object with its own pool.
- Execution.EachGateOnce: gates are numbered by the model, which opens a new number whenever the graph stops for a human; the source has no such number. `Execution.DecisionsNeedStops` bounds the decisions by the stops of the graph without it.
- Knowledge.KnowledgeStore.MergeRecords: does not model queries, fingerprint, embedding and history, because no later operation of the model reads them.
- Knowledge.KnowledgeStore.Summarize: returns the counts without the list of items.
- Knowledge fields carried along unchanged or chosen with the better record (queries, fingerprint, embedding, titles, history, time stamps): one text stands for the answer. The Postgres backend and the import of old files are not modelled.
- Node bodies of the graph: `ResearchLoop` assumes that the planner counts one iteration per visit, the critic appends one history entry, the report and the memo gate raise their retry counters, and a human sends work back finitely often. Search, scholar and docs run as one node. `Budget.sync_totals` feeds no router and is not modelled.
- Redaction, injection guards and tenancy checks.

# Relay: a verified model of its scheduler, its approval and execution protocol, and its document packing

Relay plans study time, proposes actions for its owner to approve, and carries approved actions out at
outside providers. The model covers the three parts where its correctness is decided, and the tables
around a project.

**The study scheduler.** Free time is clipped to study hours and to a 15-minute grid, busy and locked
time is carved out, each task's remaining minutes are cut into pieces, and every start on the grid
becomes a candidate. Hard rules and soft penalties are posted as linear constraints; a solver chooses;
the choice is decoded and accounted for. What the scores and penalties order is stated as differences
and closed forms (`Objectives`, `PenaltyCosts`), and what that makes of an optimal plan in `Optimality`,
`Placement` and `Exchange`. The server has a second, hand-written checker of the same
rules, and the planning page a third that looks at one moved block. The model proves that the three
agree.

**Approval and execution.** A run moves through a table of states. Its actions wait for approvals, and
an approved action is sent to a runtime under an idempotency key, with responses that may be lost. Each
stretch between a row lock and its commit is one step (`LearnRun.Next`); the steps of any number of
calls interleave freely, and `execute` is two steps because it commits and locks again. `LearnService`
carries the steps out in place and is proved equal to them; what every step keeps is split over
`LearnLog`, `LearnRows` and `LearnProtocol`, and the guarantees are in `LearnTheorems`, `LearnRetries`
and `LearnCompletion`. What each step makes of a run, of its decisions and of its audit rows in any
reachable world is stated in `LearnPlans`, `LearnOutcomes`, `LearnTransitions` and `LearnAudit`.

**Documents.** Sections are cut into pieces under a UTF-8 byte budget, packed greedily into chunks, and
the summaries of the chunks are checked against their sources and put together. `Stretches` and
`SegmentWords` say where a text is cut and what survives the cut.

**Projects.** Captured sources propose tasks, which become tasks only once accepted and claimed;
deleting a project issues eleven statements in an order that has to respect the foreign keys.

## How the source is read

- Time is a whole number of microseconds on the local clock; tick 0 is a Monday midnight and the zone's
  offset from UTC is fixed, a multiple of 15 minutes. The floating-point comparisons of gaps and minutes
  are exact comparisons of ticks.
- The solver is a parameter: any answer that satisfies the posted constraints and penalty variables,
  and if it calls itself proven, any that no other solution beats.
- The clock, the connector's replies, what the runtime has done by the time it answers, and which
  responses get lost are parameters of the steps. The readings of the clock may repeat or go back.
- Payloads are a content and the five destination fields. Idempotency keys are values instead of
  strings; identifiers of actions and approvals are their positions within the run.
- A call that fails rolls its rows back and keeps the audit recorder's latest timestamp, which lives
  outside the transaction. The runtime of the protocol keeps what reached it, as a remote one does. The
  in-process runtime shares its caller's transaction; it always answers with the record of the call, and
  then no call fails (`LearnRetries.AnswersAlwaysCommit`). What a lost record would do is stated by
  `LocalRuntime.OnlyLostCallsRepeat` and `LocalRuntime.LostRecordRepeatsIff`.
- An execution that waits for its second lock keeps the action and approval it read under the first
  (`World.waiting`); that they are still current is proved.
- Segmentation puts a space after every blank line inside a piece, because the first word of a paragraph
  is joined like any other. The model keeps that.
- The page's parse of a date and the server's agree, because both name an instant of the same clock.

Where the repository's documents and its code differ, the model follows the code:

- ADR-020 says that an unschedulable problem is reported as infeasible because the solver says so. The
  code decides it from the accounting: a result is infeasible exactly when there are tasks with work
  left and no session at all (`Accounting.InfeasibleIff`).
- docs/integrations/notion.md says that execution uses the exact approved payload. The code lets the five
  destination fields chosen since win over the approved ones. The content is exact
  and the whole payload is exact precisely when those fields are empty or the same
  (`LearnTheorems.SubmittedIsApproved`); `LearnRetries.PublishedOnceElsewhere` is a run in which they are
  not.
- docs/architecture/workflow-state-machine.md says that a lost submission can leave a run queued. In the
  lecture workflow it always leaves it executing (`LearnTheorems.RecoveryIsStutter`).

Properties that fail, with the condition under which they hold:

- `decompose_minutes` gives unusable pieces below a 15-minute maximum: exactly when
  (`Decomposition.PiecesUsableIff`).
- Breaks are kept between new blocks but not between a new and a locked one: every schedule that a call
  can return is accepted exactly when no candidate comes within the break of a locked block or would take
  its id (`SchedulerTheorems.LockedBreaksKeptIff`). `LockedBreak.BreakAroundLockedNotKept` is a problem
  whose optimal plans are all refused.
- Coarsening need not reach 4000 candidates: it does exactly when the sizes of the groups of piece and
  free window, each divided by the scale and rounded up, add up to no more
  (`Coarsening.CoarseningSufficesIff`). For every n above 4000 some problem keeps n candidates
  (`Coarsening.CoarseningHasNoFixedBound`); the bound it always meets is
  `Coarsening.PostedCandidatesBounded`.
- Pieces fit the byte budget exactly when no visible character of an oversized section is wider than it
  (`Segmentation.SegmentsFitIff`). The program never meets the other case: its setting is at least 128
  (backend/app/core/config.py:24) and four bytes are enough (`Segmentation.FourBytesSuffice`).
- Deleting a project respects every foreign key exactly when no task of another project leans on it
  (`ProjectTables.DeletionIsSafeIff`). The program never meets the other case: every reachable store is
  of that kind (`ProjectSteps.DeletionNeverViolatesKeys`).
- A runtime that reports on an unfinished execution makes the call fail exactly when the report is
  "queued", on a first submission (`LearnRetries.FirstReportFailsIff`) and on a retry
  (`LearnRetries.RetryReportFailsIff`). Such a world is reachable (`LearnCompletion.QueuedReportHappens`).
- Not every execution that has started can still complete: it can exactly when a call waits for its
  second lock or the run has a recoverable error, and the runtime has not recorded a failure
  (`LearnCompletion.CanCompleteIff`). A first submission that is reported "queued" or "running" leaves a
  run with neither, which can only be cancelled (`LearnCompletion.UnfinishedReportStrands`).

One promise depends on a property of other code: references valid for a part are valid for the document
when section ids do not repeat. Parsers number the sections, so they never do
(`References.ParsedPartsFaithful`). For any other ids the exact condition is
`References.PartsFaithfulIff`.

## Model

| member | source | states |
|---|---|---|
| `SchedulerTheorems.EverySolutionIsAccepted` | backend/app/scheduling/solver.py:195-279 | without locked sessions, with distinct task ids and pieces that are positive and within the maximum session (a maximum of 15 minutes is enough for that), whatever the solver answers within the posted constraints (coarsened or not) becomes a schedule that the server's own checker accepts |
| `SchedulerTheorems.LockedBreaksKeptIff` | backend/app/scheduling/solver.py:135-141 | with an acceptable locked part, whatever the solver answers is accepted if and only if no candidate lies within the break of a locked session or would take its id, which is known before the solver is asked |
| `SchedulerTheorems.NoBreakNeedsNoMore` | backend/app/scheduling/solver.py:135-141 | with a minimum break of zero that condition comes down to the ids: removing locked time keeps every candidate off it |
| `SchedulerTheorems.NewSessionsAllowed` | backend/app/scheduling/solver.py:217-269 | the decoded sessions of any feasible selection obey every per-block and pairwise rule of the checker |
| `LockedBreak.BreakAroundLockedNotKept` | backend/app/scheduling/solver.py:135-141 | a valid problem that has an optimal plan and whose optimal plans are all refused, for want of a break after a locked block |
| `Timeline.CeilIsLeastBoundary` | backend/app/scheduling/solver.py:51-56 | rounding up gives the least slot boundary at or after a moment |
| `Timeline.FloorIsGreatestBoundary` | backend/app/scheduling/solver.py:59-62 | rounding down gives the greatest slot boundary at or before a moment |
| `FreeTime.ClipToStudyWindows` | backend/app/scheduling/solver.py:91-112 | the day-by-day loop computes the clipped windows that the next two members characterise |
| `FreeTime.ClippingKeepsStudyBlocks` | backend/app/scheduling/solver.py:91-112 | an aligned block fits a clipped window exactly when it fits an availability window within one day's study hours |
| `FreeTime.ClippingShape` | backend/app/scheduling/solver.py:91-112 | clipped windows are aligned and not empty, and stay in order and apart |
| `FreeTime.SubtractBusy` | backend/app/scheduling/solver.py:115-132 | the carving loop computes the windows that the next members characterise |
| `FreeTime.SubtractionKeepsUntouched` | backend/app/scheduling/solver.py:115-132 | an aligned block survives exactly when it fitted before and touches no busy interval |
| `FreeTime.SubtractionKeepsCells` | backend/app/scheduling/solver.py:115-132 | so a 15-minute cell survives exactly when no busy interval touches it |
| `FreeTime.SubtractionIgnoresOrder` | backend/app/scheduling/solver.py:115-132 | every order of the busy list leaves the same blocks |
| `FreeTime.SubtractionShape` | backend/app/scheduling/solver.py:115-132 | carving keeps windows aligned, not empty, ordered and disjoint |
| `FreeTime.SubtractLocked` | backend/app/scheduling/solver.py:135-141 | locked sessions are carved like busy time, without their break |
| `FreeTime.FreeWindowsArePermitted` | backend/app/scheduling/solver.py:91-141 | the three stages together leave exactly the blocks in availability, in study hours and off busy and locked time |
| `FreeTime.FreeWindowsShape` | backend/app/scheduling/solver.py:91-141 | free windows are aligned, not empty, and ordered when availability is |
| `Decomposition.DecomposeMinutes` | backend/app/scheduling/solver.py:65-88 | the loop and the repair of a short last piece compute the pieces that the next members characterise |
| `Decomposition.PiecesAddUp` | backend/app/scheduling/solver.py:65-88 | the pieces sum to the total and number the rounded-up quotient or one fewer |
| `Decomposition.PiecesShape` | backend/app/scheduling/solver.py:65-88 | the number of pieces and the length of each, from the numbers alone: a short last piece is merged exactly when the maximum allows, and otherwise fills up to a slot from the piece before |
| `Decomposition.PiecesUsableIff` | backend/app/scheduling/solver.py:77-88 | all pieces are positive and within the maximum if and only if the maximum is at least a slot, or one piece suffices, or the last two can merge |
| `Decomposition.NoTinyPieces` | backend/app/scheduling/solver.py:77-88 | with preferred at least 15 and maximum at least 29 no piece of a split is shorter than a slot |
| `Decomposition.TinyPieceBelowTheBound` | backend/app/scheduling/solver.py:77-88 | 29 is sharp: a maximum of 28 can leave a piece of 14 minutes |
| `Decomposition.NegativePieceBelowOneSlot` | backend/app/scheduling/solver.py:82-87 | with preferred and maximum 5, ten minutes split into -5 and 15 |
| `Objectives.ScoreAtLeast` | backend/app/scheduling/solver.py:144-177 | a lower bound of a slot's score by how late it starts |
| `Objectives.PriorityCounts` | backend/app/scheduling/solver.py:144-177 | each level of priority nearer to 1 scores exactly thirty points more |
| `Objectives.DeadlineCounts` | backend/app/scheduling/solver.py:144-177 | a deadline an hour sooner scores exactly forty more while two to 168 whole hours are left, and nothing otherwise |
| `Objectives.EarlierStartsCount` | backend/app/scheduling/solver.py:144-177 | each whole slot of delay costs exactly one point, preferred hours apart |
| `Objectives.PreferredHoursCount` | backend/app/scheduling/solver.py:144-177 | exactly a start within the preferred hours of its local day earns twelve points |
| `Objectives.FullLengthCounts` | backend/app/scheduling/solver.py:144-177 | exactly a piece of at least the preferred length earns eight points over a shorter one |
| `Objectives.PlainScore` | backend/app/scheduling/solver.py:144-177 | the score from which those differences give every other |
| `Candidates.GenerateCandidates` | backend/app/scheduling/solver.py:403-448 | the nested loops list the candidates in visiting order |
| `Candidates.CandidateElements` | backend/app/scheduling/solver.py:403-448 | a slot is listed exactly when it lies on the step grid of a free window of one of its task's pieces |
| `VisitingOrder.CandidatesInOrder` | backend/app/scheduling/solver.py:403-448 | candidates come by deadline, then priority, then title, and piece by piece |
| `Candidates.GeneratedIffPermitted` | backend/app/scheduling/solver.py:403-448 | at the 15-minute step, an aligned placement of a piece is generated if and only if it starts after now, ends by its deadline, and its rounded-up interval is permitted |
| `Candidates.UsablePiecesIff` | backend/app/scheduling/solver.py:65-88 | the pieces of a problem are all positive and within the maximum session exactly when each task's remaining minutes split well, decided by its numbers alone; a maximum of at least one slot is enough |
| `Candidates.CandidatesAreSound` | backend/app/scheduling/solver.py:403-448 | every candidate, coarse or fine, may be placed where it stands and is one of the fine candidates |
| `Coarsening.CandidateCounts` | backend/app/scheduling/solver.py:195-215 | the exact number of candidates before and after coarsening, from the ends of the free windows and the pieces alone |
| `Coarsening.CoarseningSufficesIff` | backend/app/scheduling/solver.py:201-215 | at most 4000 candidates are posted if and only if there were no more, or the group sizes divided by the scale and rounded up add up to no more |
| `Coarsening.PostedCandidatesBounded` | backend/app/scheduling/solver.py:201-215 | coarsening keeps a subset of the fine candidates, at most 4000 plus one for each non-empty group of task, piece and window |
| `Coarsening.GroupsSurvive` | backend/app/scheduling/solver.py:201-215 | each non-empty group keeps its earliest candidate |
| `Coarsening.CoarseningHasNoFixedBound` | backend/app/scheduling/solver.py:201-215 | for every n above 4000 a valid problem posts exactly n candidates |
| `ConstraintModel.OverlapPairs` | backend/app/scheduling/solver.py:308-323 | the sweep with early exit gives each pair within the minimum break exactly once, and no other pair |
| `ConstraintModel.BreaksMeanSeparation` | backend/app/scheduling/solver.py:308-323 | a pair that is not posted is one that is apart by the break |
| `ConstraintModel.PostModel` | backend/app/scheduling/solver.py:217-241 | a selection satisfies all posted linear constraints if and only if it keeps breaks, takes each piece once, and stays within each task's remaining minutes |
| `ConstraintModel.PostFragments` | backend/app/scheduling/solver.py:281-306 | the fragment constraints hold exactly of selections with one slot a piece |
| `SoftPenalties.DailyBalancePenalties` | backend/app/scheduling/solver.py:325-363 | posts one limit a day that has candidates |
| `SoftPenalties.SameTaskDailyPenalties` | backend/app/scheduling/solver.py:365-401 | posts a limit for each task and day that more sessions could crowd |
| `SoftPenalties.DayWithinRequired` | backend/app/scheduling/solver.py:325-363 | a day never holds more minutes than all tasks still need, which is the declared bound |
| `SoftPenalties.PenaltiesNeverForbid` | backend/app/scheduling/solver.py:325-401 | every selection within the hard constraints extends to penalty variables inside their domains |
| `SoftPenalties.ModelIsSatisfiable` | backend/app/scheduling/solver.py:217-253 | the full model always has a solution |
| `PenaltyCosts.LeastPenalties` | backend/app/scheduling/solver.py:325-401 | the least a selection pays, in closed form: eight points for each minute above the fair share of a day, and for each task and day 250 for the second and 1750 for every further session, locked ones included; it can pay just that and never less |
| `PenaltyCosts.RequiredAddsUp` | backend/app/scheduling/solver.py:325-363 | the total behind the fair share is what the tasks still need |
| `Optimality.PenaltyCap` | backend/app/scheduling/solver.py:243-253 | one more candidate can cost at most eight a minute and 1750 in penalties |
| `Optimality.AddingImproves` | backend/app/scheduling/solver.py:243-253 | adding a still feasible piece of at least five minutes that starts within 48600 minutes strictly raises the objective |
| `Optimality.OptimalIsMaximal` | backend/app/scheduling/solver.py:243-253 | so an optimal selection cannot be extended by such a piece |
| `Optimality.OptimalityGap` | backend/app/scheduling/solver.py:374-376 | scheduled minutes dominate the soft costs: an optimal selection schedules as much as any feasible one, up to eight in a thousand of the latter's minutes, 1750 points for each of its sessions and the difference of the scores, at 1000 points a minute |
| `Optimality.OptimalityGapInMinutes` | backend/app/scheduling/solver.py:243-253 | the same with the scores bounded by numbers, for posted candidates that start within 48600 minutes |
| `Optimality.PostedCandidatesProper` | backend/app/scheduling/solver.py:195-253 | the candidates that the scheduler posts meet what those results ask |
| `Placement.RequirementsFollow` | backend/app/scheduling/solver.py:225-241 | the limit on a task's minutes never binds: selections that keep breaks and place each piece once are all feasible |
| `Placement.RoomIsTaken` | backend/app/scheduling/solver.py:243-253 | on any grid, an optimal selection leaves no posted slot of an unplaced piece of five minutes or more clear of its sessions |
| `Placement.OptimalLeavesNoRoom` | backend/app/scheduling/solver.py:195-253 | in an optimal plan on the fine grid, a piece left out has no aligned placement in the next 48600 minutes that the rules permit and that keeps the break from every chosen session |
| `Exchange.NoBetterExchange` | backend/app/scheduling/solver.py:243-253 | an optimal selection holds no session that another of the same day and length could replace at a higher score, unless that task has as many sessions on the day already |
| `Exchange.BetterScoreGetsThePlace` | backend/app/scheduling/solver.py:243-253 | of two pieces that compete for one span the plan holds the one of higher score, under the same proviso |
| `Exchange.ImportantTaskGetsThePlace` | backend/app/scheduling/solver.py:160-161 | of two tasks with one deadline that compete for one span, the more important one gets it |
| `Exchange.UrgentTaskGetsThePlace` | backend/app/scheduling/solver.py:155-159 | of two tasks of one priority due in one to 168 hours, the one with fewer whole hours left gets it |
| `Exchange.PiecesStartEarly` | backend/app/scheduling/solver.py:162-163 | no piece of an optimal plan could start some slots earlier on its day, clear of the other sessions, without leaving the preferred hours |
| `AdjustmentChecker.ValidateSessionAdjustments` | backend/app/scheduling/constraints.py:30-92 | no fault is reported if and only if the schedule obeys all rules, and each fault reported is a real one, first rule first |
| `AdjustmentChecker.FirstRuleIsTold` | backend/app/scheduling/constraints.py:42-72 | a block is told exactly the first of the seven rules that it breaks |
| `AdjustmentChecker.ValidateNoOverlap` | backend/app/scheduling/constraints.py:22-27 | looking at neighbours decides whether any two sessions overlap |
| `AdjustmentChecker.AdjacentGapsSeparateAll` | backend/app/scheduling/constraints.py:79-90 | in start order, gaps between neighbours are kept exactly when all pairs are apart |
| `CalendarCheck.PageAgreesWithServer` | frontend/components/weekly-calendar.tsx:37-122 | for an acceptable schedule with one window and whole minutes, the page accepts a moved block (on an allowed weekday) if and only if the server accepts the whole schedule with it; it is only assumed that no id spells another block's task and start |
| `CalendarCheck.PageVerdict` | frontend/components/weekly-calendar.tsx:65-121 | what the page's silence means, rule by rule, for any keys: blocks that share the moved one's key are left out of account |
| `CalendarCheck.ServerVerdict` | backend/app/scheduling/constraints.py:30-92 | what the server's acceptance of one changed block means, given the rest was acceptable |
| `CalendarCheck.OthersAreTheRest` | frontend/components/weekly-calendar.tsx:83-85 | when no other block has its key, filtering removes just the moved block |
| `CalendarCheck.KeysAreOwn` | frontend/components/weekly-calendar.tsx:83-85 | in an acceptable schedule blocks never share a key, with ids or without, unless an id spells the task and start of a block that has none |
| `SessionIds.IdNamesOnePiece` | backend/app/scheduling/solver.py:261-269 | two generated session ids are equal only for the same task and piece |
| `SessionIds.IdNamesOnePlacement` | backend/app/scheduling/solver.py:261-269 | and, for instants in the written range, equal exactly when task, piece and start are |
| `Scheduler.PostAll` | backend/app/scheduling/solver.py:217-253 | the constraints, penalties and objective handed to the solver have exactly the solutions of the problem, at the same objective |
| `Scheduler.Solve` | backend/app/scheduling/solver.py:195-279 | the whole call computes the result that the accounting and acceptance results are about, and calls a plan optimal only when no solution is better |
| `Scheduler.BuildResult` | backend/app/scheduling/solver.py:450-505 | the accounting loop computes that outcome |
| `Accounting.ChoicesBecomeSessions` | backend/app/scheduling/solver.py:259-279 | one session for each chosen candidate and no other, in start order |
| `Accounting.StatusOfPlan` | backend/app/scheduling/solver.py:216-279 | exactly when a plan is called infeasible, optimal or merely feasible |
| `Accounting.MetricsCount` | backend/app/scheduling/solver.py:450-505 | full tasks are those with nothing left, partial ones those with some but not all left, and there is one conflict for each task with work left |
| `Accounting.AverageIsMean` | backend/app/scheduling/solver.py:450-505 | the average is the mean length of the new sessions |
| `Accounting.TotalsStayWithinEstimate` | backend/app/scheduling/solver.py:450-505 | a task's total is at most the larger of its estimate and its locked minutes |
| `Accounting.ScheduledPlusUnscheduled` | backend/app/scheduling/solver.py:450-505 | capped scheduled minutes and unscheduled minutes add up to the estimate |
| `Accounting.ConflictsAreExact` | backend/app/scheduling/solver.py:450-505 | conflicts name exactly the tasks with minutes left over, with the right minutes |
| `Accounting.CountsAddUp` | backend/app/scheduling/solver.py:450-505 | full, partial and untouched tasks add up to all tasks |
| `Accounting.UnscheduledTotal` | backend/app/scheduling/solver.py:450-505 | the reported total of unscheduled minutes is the sum over the tasks |
| `Accounting.InfeasibleIff` | backend/app/scheduling/solver.py:450-505 | exactly when the result is called infeasible |
| `Accounting.SortKeepsLocked` | backend/app/scheduling/solver.py:450-505 | the sorted result holds the locked and the new sessions, each once |
| `Segmentation.Segment` | backend/app/workflows/lecture_notes/segmentation.py:9-36 | the four nested loops compute the pieces that the next members characterise |
| `Segmentation.SegmentsFitIff` | backend/app/workflows/lecture_notes/segmentation.py:9-36 | every piece fits the budget if and only if no oversized section has a visible character wider than it |
| `Segmentation.FourBytesSuffice` | backend/app/workflows/lecture_notes/segmentation.py:9-36 | a budget of four bytes is enough for every document |
| `Segmentation.SegmentsKeepInk` | backend/app/workflows/lecture_notes/segmentation.py:9-36 | the visible characters of the pieces are those of the document, in order |
| `Stretches.PiecesAreFilledStretches` | backend/app/workflows/lecture_notes/segmentation.py:9-36 | with a space put after each blank line, as the code does, an oversized text is its pieces in order with only white space around them, and no piece but the last ends while what follows, up to the next space or for a whole paragraph up to the next blank line, still fits |
| `Stretches.NeighboursWereNeighbours` | backend/app/workflows/lecture_notes/segmentation.py:24-30 | two visible characters are neighbours in a piece only if they are in the text |
| `SegmentWords.SegmentsKeepWords` | backend/app/workflows/lecture_notes/segmentation.py:9-36 | when no part of an oversized section between spaces and blank lines is wider than the budget, the words of the pieces are exactly the words of the document, in order |
| `SegmentWords.SectionsAreCutAlone` | backend/app/workflows/lecture_notes/segmentation.py:11-14 | sections within the budget stay as they are, and each wider one is replaced by its own pieces |
| `Segmentation.SegmentsKeepProvenance` | backend/app/workflows/lecture_notes/segmentation.py:34-35 | a piece keeps everything of its section but the text |
| `Packing.ChunkSections` | backend/app/workflows/lecture_notes/summarization.py:20-34 | the loop with its running size computes the greedy packing |
| `Packing.PackingKeepsSections` | backend/app/workflows/lecture_notes/summarization.py:20-34 | every piece is in one chunk and the order is kept |
| `Packing.PackingFitsIff` | backend/app/workflows/lecture_notes/summarization.py:20-34 | every chunk is within the budget if and only if every piece is |
| `Packing.ChunksAreFull` | backend/app/workflows/lecture_notes/summarization.py:20-34 | for every budget, a chunk ends only where the next piece does not fit behind it |
| `Packing.GreedyStaysAhead` | backend/app/workflows/lecture_notes/summarization.py:20-34 | any other way to cut the same pieces, in order and within the budget, uses at least as many chunks, and with as many its last chunk is at least as full |
| `Packing.ChunkingIsOptimal` | backend/app/workflows/lecture_notes/summarization.py:20-34 | for every document and budget of four bytes or more the chunks are within the budget and as few as possible |
| `References.ValidateReferences` | backend/app/workflows/lecture_notes/summarization.py:37-56 | accepts exactly the summaries all of whose checked references resolve |
| `References.ResolvesIff` | backend/app/workflows/lecture_notes/summarization.py:47-56 | with consistent ids, a reference resolves exactly when some section has its id and covers its page |
| `References.PartReferenceHolds` | backend/app/workflows/lecture_notes/summarization.py:71-74 | a reference valid within a part is valid within the document, when sections with one id cover the same pages |
| `References.ParsedPartsFaithful` | backend/app/documents/parsers/pdf.py:20-28 | parsers number the sections, so for a parsed document that holds of every reference of every part |
| `References.PartsFaithfulIff` | backend/app/workflows/lecture_notes/summarization.py:37-56 | for any ids it holds if and only if, in every part, the section that answers for an id covers no page that the document's section of that id does not |
| `References.DocumentReferenceHasPart` | backend/app/workflows/lecture_notes/summarization.py:71-74 | and one valid within the document is valid within some part, unless its section vanishes as white space |
| `References.AggregateIsValid` | backend/app/workflows/lecture_notes/summarization.py:75-95 | parts that passed their own check aggregate to a summary that passes the document's check |
| `References.AggregateItems` | backend/app/workflows/lecture_notes/summarization.py:75-92 | the aggregate's checked items are exactly those of the parts |
| `References.AggregateFollowsParts` | backend/app/workflows/lecture_notes/summarization.py:75-92 | title, overview and each list of the aggregate hold all that the parts hold, part by part and in order |
| `References.QuizQuestionsAreDropped` | backend/app/workflows/lecture_notes/summarization.py:81-92 | quiz questions are lost, whenever a part had any |
| `References.Generate` | backend/app/workflows/lecture_notes/summarization.py:63-99 | the result is always well formed with valid references, and with consistent ids the hierarchical result fails only through a part, its title or its overview; each call of the language model may be answered differently |
| `References.RepeatedIdsMislead` | backend/app/workflows/lecture_notes/summarization.py:37-56 | the condition can fail for ids that no parser gives: two sections of one id and different pages |
| `WorkflowStates.PathsAreShort` | backend/app/domain/workflows.py:8-19 | every path through the table takes at most seven changes, visits no state twice, and ends only where the table has no way out |
| `WorkflowStates.LongestPath` | backend/app/domain/workflows.py:8-19 | seven is reached |
| `WorkflowStates.AllPaths` | backend/app/domain/workflows.py:8-19 | the paths from the draft are exactly the beginnings of the one way to completion and those with an early end, each end from the states that allow it |
| `AuditTrail.Recorder.Record` | backend/app/services/audit.py:23-45 | appends one event; on an ordered log its timestamp is later than every earlier one |
| `AuditTrail.RecordKeepsOrder` | backend/app/services/audit.py:31-35 | timestamps increase strictly, whatever the clock reads |
| `AuditTrail.RecordedRow` | backend/app/services/audit.py:31-45 | the new row has the earliest timestamp that is neither before the clock nor at or before the latest one given |
| `AuditTrail.RollBackKeepsOrder` | backend/app/services/audit.py:9-20 | and do so across aborted transactions |
| `AuditTrail.TimestampsGiveOrder` | backend/app/services/audit.py:9-19 | reading the rows by timestamp gives the order in which things happened |
| `AuditTrail.StoryIsPath` | backend/app/services/workflows.py:62-72 | when each recorded change starts where the last ended, the replay is a path through the table |
| `LocalRuntime.LocalRuntimeClient.SubmitExecution` | backend/app/runtime/local.py:65-196 | replays a known request, refuses another under its key, and otherwise executes and records, with exactly the calls made |
| `LocalRuntime.LocalRuntimeClient.RunPlan` | backend/app/runtime/local.py:102-136 | each block of a plan is called once under its own index; a failure stops nothing |
| `LocalRuntime.BlocksReportedOnce` | backend/app/runtime/local.py:102-136 | every block is reported once, as created or as failed, as its call was answered |
| `LocalRuntime.PlanStatus` | backend/app/runtime/local.py:127-136 | succeeded, failed and partial mean none failed, none created, and some of each |
| `RuntimeOutcomes.FirstSubmission` | backend/app/runtime/local.py:65-196 | a first request under a key is recorded with its operation, payload and outcome, for every operation and reply, makes exactly the calls of its operation and changes nothing else |
| `RuntimeOutcomes.PlanSnapshotFollows` | backend/app/runtime/local.py:102-136 | blocks are reported in order under their own task with their own reply, and the code is that of the first block that failed |
| `LocalRuntime.OneCallPerKey` | backend/app/runtime/local.py:65-77 | over every sequence of committed submissions no call is made twice, and only a study plan makes several under one key |
| `LocalRuntime.OnlyLostCallsRepeat` | backend/app/runtime/local.py:50-51 | with rollbacks a call is repeated only if one of them lost the record of a call already made |
| `LocalRuntime.LostRecordRepeatsIff` | backend/app/runtime/local.py:65-77 | after such a loss the same request calls again if and only if its payload was fit to send both times |
| `LocalRuntime.ResubmissionReplays` | backend/app/runtime/local.py:66-77 | a request sent again, after any submissions in between, gets its first snapshot and changes nothing; a changed one is refused |
| `LearnService.RunSession.ApplyTransition` | backend/app/services/workflows.py:44-73 | moves a run exactly when the table and its approvals allow, and records the change |
| `LearnService.RunSession.RequestApprovals` | backend/app/services/workflows.py:81-109 | one pending approval for each open action, and the run waits; otherwise everything rolls back |
| `LearnService.RunSession.Resolve` | backend/app/services/approvals.py:28-83 | approval needs the exact payload; the last one releases the run, a rejection expires the rest and ends it |
| `LearnService.RunSession.StartAnalysis` | backend/app/workflows/lecture_notes/service.py:155-161 | only a draft starts its analysis |
| `LearnService.RunSession.ClaimSummary` | backend/app/workflows/lecture_notes/service.py:196-218 | claims exactly an analysed run that nobody has claimed, and a second claim is refused |
| `LearnTheorems.OneClaimOnly` | backend/app/workflows/lecture_notes/service.py:196-200 | once a claim has been accepted every later one is refused, whatever happens in between |
| `LearnService.RunSession.FinishSummary` | backend/app/workflows/lecture_notes/service.py:225-243 | the plan, its action and its approval request appear in one commit |
| `LearnService.RunSession.Fail` | backend/app/workflows/lecture_notes/service.py:314-318 | records the error and fails the run |
| `LearnService.RunSession.Edit` | backend/app/workflows/lecture_notes/service.py:245-272 | succeeds only for an editor who saw the current page, and leaves the approval pending on the very page it proposes |
| `LearnService.RunSession.UpdateDestination` | backend/app/workflows/lecture_notes/service.py:274-295 | proposes the planned text at the new destination; a pending approval follows it, a granted one is left as it is |
| `LearnService.RunSession.Execute` | backend/app/services/execution.py:31-112 | the first locked stretch: refuse, finish from an artifact, queue, or retry |
| `LearnService.RunSession.Resume` | backend/app/services/execution.py:69-112 | the second locked stretch: submit only if the run is still queued |
| `LearnService.RunSession.Send` | backend/app/services/execution.py:71-112 | submits the approved content and takes over whatever comes back, or records that it is uncertain |
| `LearnService.RunSession.Settle` | backend/app/services/execution.py:113-225 | each kind of snapshot leads to its state, action status and records |
| `LearnService.RunSession.MarkRecoverable` | backend/app/runtime/recovery.py:21-42 | makes the run retryable and keeps the status of an executing one |
| `LearnService.RunSession.Cancel` | backend/app/services/runtime_execution.py:20-51 | an ended run is left alone, an unknown one cancelled at once, a known one only with the runtime's word |
| `LearnService.RunSession.Perform` | backend/app/services/execution.py:31-225 | every call of the services moves rows, log and runtime as the protocol step does and keeps the invariant of all reachable worlds |
| `LearnPlans.AnalysisMade` | backend/app/workflows/lecture_notes/service.py:155-224 | what each step of the analysis makes of the document and the run, and exactly when it is refused |
| `LearnPlans.PlanMade` | backend/app/workflows/lecture_notes/service.py:225-243 | a finished plan leaves one open action and one pending approval for each proposal, and an unfinished one nothing |
| `LearnPlans.RewritingMade` | backend/app/workflows/lecture_notes/service.py:245-295 | what an edit or a new destination makes of page, approval and plan, and exactly when it is refused |
| `LearnOutcomes.DecisionMade` | backend/app/services/approvals.py:28-83 | a rejection declines its approval, expires every other pending one and leaves the run rejected; an approval leaves it approved if and only if nothing is pending any more; and exactly why a decision is refused |
| `LearnOutcomes.ExecutionQueues` | backend/app/services/execution.py:31-68 | exactly an approved run with one page to publish is queued, with its approved request; any other is left alone with its error |
| `LearnOutcomes.LateOutcome` | backend/app/services/execution.py:69-70 | an execution that comes back to a run no longer queued submits nothing |
| `LearnOutcomes.ExecutionOutcome` | backend/app/services/execution.py:71-225 | state, execution id, error, artifact and action status after every submission and retry, for each thing that can become of it |
| `LearnOutcomes.CancelMade` | backend/app/services/runtime_execution.py:20-51 | an ended run stays, one without an execution is cancelled, and one with an execution is cancelled exactly when the runtime says so, with its started actions failed |
| `LearnTransitions.StatesHaveCauses` | backend/app/services/workflows.py:44-73 | in every reachable world, which steps can bring a run into which state: cancelled, for one, only by a cancel or by the runtime's report of it |
| `LearnTransitions.ExecutionsAreKnown` | backend/app/services/execution.py:119 | in every reachable world a run that executes without a recoverable error, or has completed, holds the identifier that the runtime recorded |
| `LearnTransitions.CancelNeedsTheRuntimesWord` | backend/app/services/runtime_execution.py:26-37 | such an executing run becomes cancelled by a cancel if and only if the runtime replies that it was |
| `LearnAudit.AuditRowsOfEachStep` | backend/app/services/audit.py:23-45 | exactly which audit rows each committed step adds for its run, in order, and that a refused call leaves rows and log as they were |
| `LearnTheorems.ReachableOk` | backend/app/services/execution.py:31-112 | the invariant of rows, log and runtime holds after every interleaving of all steps |
| `LearnTheorems.ApprovalInvariant` | backend/app/services/approvals.py:28-83 | in every reachable world: a pending approval shows its action's payload, a granted one froze it, and each state has the decisions it needs |
| `LearnTheorems.ResolvedAreFrozen` | backend/app/models/guards.py:18-23 | no step changes a resolved approval, so the guard never fires |
| `LearnTheorems.GrantMeansConfirmed` | backend/app/services/approvals.py:38-53 | an approval is granted only by confirming the payload it shows, while the run awaits approval |
| `LearnTheorems.AtMostOneCall` | backend/app/services/execution.py:46-49 | in every interleaving, with losses at will, a key outside study plans causes at most one connector call |
| `LearnTheorems.NeverMismatched` | backend/app/runtime/local.py:71-76 | the runtime's refusal of a reused key cannot happen |
| `LearnRetries.RetriesResendTheSame` | backend/app/services/execution.py:35-110 | from the first lock of an execution on, in every continuation, each submission and each retry sends the identical request, recorded or lost |
| `LearnRetries.RetriesMeetTheRecord` | backend/app/runtime/local.py:66-77 | once a request has reached the runtime, every later request of the run, waiting ones included, is the same one and meets the same record |
| `LearnTheorems.SubmittedIsApproved` | backend/app/services/execution.py:76-100 | whatever was called carries the approved content under the approval's key, and the approved payload as a whole if and only if no destination field was set to something else |
| `LearnRetries.PublishedOnceElsewhere` | backend/app/services/execution.py:31-225 | a whole run: response lost, retry replayed, one call, and a destination chosen after approval |
| `LearnTheorems.CompletedByItsCall` | backend/app/services/execution.py:151-183 | a completed run made its call, and its artifact is that call's recorded result |
| `LearnTheorems.NothingAfterTheEnd` | backend/app/services/runtime_execution.py:20-51 | after a cancel or any other end, no steps change the run or call for it, not even an execution between its two locks |
| `LearnTheorems.StatesAndStamps` | backend/app/services/workflows.py:44-73 | every run changes state at most seven times and has a completion time exactly when ended |
| `LearnTheorems.AuditRebuildsState` | backend/app/services/workflows.py:62-72 | replaying the state changes in timestamp order gives the current state, along the table |
| `LearnTheorems.RecoveryIsStutter` | backend/app/runtime/recovery.py:21-31 | recovery's write outside the table writes the state the run is in |
| `LearnTheorems.FirstLossIsStutter` | backend/app/services/execution.py:69-112 | the same for a first submission: one change along the table, and the write adds nothing |
| `LearnRetries.FirstReportFailsIff` | backend/app/services/execution.py:113-142 | of all reports on a first submission exactly "queued" is refused, and rolled back although the runtime has the execution |
| `LearnRetries.RetryReportFailsIff` | backend/app/services/execution.py:113-142 | and so it is on a retry |
| `LearnCompletion.QueuedReportHappens` | backend/app/services/execution.py:113-142 | there is a run in which a first submission is reported "queued" and refused |
| `LearnCompletion.CanCompleteIff` | backend/app/services/execution.py:31-112 | of every reachable world with a queued or executing run: some continuation completes it if and only if a call waits or a retry is allowed, and the runtime holds no failure under its key |
| `LearnCompletion.UnfinishedReportStrands` | backend/app/services/execution.py:113-142 | after a first submission reported "queued" or "running", no steps complete the run: it stays as it is until it is cancelled |
| `LearnRetries.AnswersAlwaysCommit` | backend/app/services/execution.py:113-225 | an execution answered with the record of its call never fails |
| `ProjectStore.Database.Capture` | backend/app/sources/service.py:61-157 | a source and, for each task found, a run with one action, its approval request and audit row |
| `ProjectStore.Database.Take` | backend/app/sources/service.py:343-364 | the first commit claims an approved proposal unless its task exists |
| `ProjectStore.Database.Make` | backend/app/sources/service.py:365-425 | the second creates the task in the approved project and source, or fails the run |
| `ProjectStore.Database.Delete` | backend/app/services/projects.py:51-109 | the statements in order leave the tables that the deletion results describe |
| `ProjectTables.DeletionIsSafeIff` | backend/app/services/projects.py:51-109 | every statement leaves every foreign key valid if and only if no task of another project leans on this one |
| `ProjectTables.OnlyOwnRowsGo` | backend/app/services/projects.py:51-109 | exactly the project's rows go, every other row stays as it was |
| `ProjectSteps.DeletionNeverViolatesKeys` | backend/app/services/projects.py:67-109 | in every reachable store, deletion keeps the foreign keys valid throughout |
| `ProjectSteps.TasksStayRooted` | backend/app/sources/service.py:343-425 | in every reachable store a task, its source and its proposal's run are in one project |
| `ProjectSteps.ProposalsBecomeTasksOnce` | backend/app/sources/service.py:343-425 | over every run of steps no proposal becomes a task twice |
| `ProjectSteps.ExecutingAgainMakesNothing` | backend/app/sources/service.py:343-364 | executing a proposal again changes nothing, even when its task has been deleted |
| `ProjectSteps.OriginsHold` | backend/app/sources/service.py:396-398 | the check that the source lies in the project never fails |
| `ProjectOutcomes.CaptureAdds` | backend/app/sources/service.py:61-157 | what a capture adds: its source and, for each task found, a waiting run with one action that names that source and project, its request and its audit row |
| `ProjectOutcomes.MakingAdds` | backend/app/sources/service.py:365-425 | what making a task adds: one task of the named project and source and a finished run, or on failure only a stopped run |
| `ProjectOutcomes.ProposalsMoveOn` | backend/app/sources/service.py:343-425 | over every run of steps, how each step can change the state of a proposal and how not |
| `ProjectOutcomes.ProposalsProgress` | backend/app/sources/service.py:343-364 | accepting releases a waiting proposal, and an execution claims every released one |
| `ProjectOutcomes.NoTaskWithoutConsent` | backend/app/sources/service.py:343-425 | over every run of steps, a proposal that became a task was accepted, claimed and carried out |
| `ProjectOutcomes.TasksComeLast` | backend/app/sources/service.py:365-425 | a task stands only for a proposal whose run has finished |

## Left out

- The solver's search, time limit and status codes: any answer within the posted constraints is allowed.
- Daylight-saving changes and zones whose offset is not a multiple of 15 minutes.
- The server's floating-point minutes: whole ticks are compared instead.
- White-space trimming of the fields of a summary, and the prompt sent to the language model.
- Surrogate code points in document text, which Python strings may hold and UTF-8 cannot encode.
- Whether the run belongs to the caller: every call of the model is by the owner.
- Upload, storage, checksums and parsing of documents: parsing succeeds, fails or never ends.
- `fail` on a run that somebody else changed meanwhile: it writes without a new lock, so a cancel during a slow summary could be overwritten. `LearnService.RunSession.Fail` models the failure as one locked stretch.
- `edit` of a task proposal reads its approval without a lock; the model treats accepting a proposal as one stretch.
- Crashes between a provider call and the commit, for which the repository promises nothing.
- LearnRun.OtherPlanFinished: the planning code of other workflows is a step with arbitrary proposals; their executions, and any step of another run, appear only as other keys at the runtime and other events in the log.
- The result payload of a run apart from its artifact, messages of errors, and the poll loop's waiting: the snapshot that the last poll returns is a parameter.
- CalendarCheck.PageAgreesWithServer: assumes that the id of a block is not the task and start, as the page writes them, of a block without an id; what the page does when keys are shared is `CalendarCheck.PageVerdict`. Starts of blocks without an id are instants that can be written in a fixed number of digits.
- The study-plan and project-meeting services, connectors, connections, profile deletion, preferences, forms and lookups.
- The owners and metadata of audit rows.
- Duplicate scores of proposals, confirmation fields, and the titles and dates of tasks.
- The second key pattern of the deletion, which matches no key that the program builds.
- Everything of the front end except the one placement check.

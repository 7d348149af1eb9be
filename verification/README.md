# Cross-week action tasks: a verified model

The system turns a monthly workbook of product figures into decisions by fixed rules, and follows every product
(SPU) through one long-lived action task with two tracks, business and inventory. Supervisors review, override and
terminate; operators execute, record results and submit clearances; weekly imports attach further decisions. This
project models those protocols in Dafny 4.11 and proves what every run of them keeps. `dafny verify dfyconfig.toml`
checks all of it.

| file | what it models |
|---|---|
| `vocabulary.dfy` | optional columns, the action vocabulary, the coupling of the two actions |
| `calendar.dfy` | civil dates, the overflowing and the clamped month addition, the two natural-month checks |
| `rules.dfy` | the fixed rules as Go's cascade and as Python's candidates with priorities, and where they agree |
| `decision_table.dfy` | the decisions of both implementations in plain numbers |
| `lifecycle.dfy` | the rows of a task, every command as one transaction on them, the tables of all SPUs |
| `store.dfy` | the service methods as a class over the tables, each proved to serve its request |
| `invariants.dfy` | what every transaction keeps: versions, states, approvals, revisions, chains |
| `history.dfy` | the fold and the latest-event expression over a link's events, against each other and the live task |
| `reviews.dfy` | the review columns of a task and all its links, folded from the log |
| `runs.dfy` | any sequence of requests: invariants, monotonicity, settled states, exactly-once keys |
| `admission.dfy` | which requests are accepted after any run, told from the log and the earlier requests |
| `records.dfy` | what the tables keep of the accepted commands |
| `disagreements.dfy` | rows and whole runs on which two parts of the system do part, or a version or a state decides |
| `batch_queue.dfy` | the leased import queue under many workers, and the publishing transaction |
| `publication.dfy` | workers and users together: every run of both is a run of requests, and lists account for links |
| `explanations.dfy` | the explanation versions of a decision under retries and many workers |
| `workbook.dfy` | the two passes that accept, reject or set aside each row of a workbook |
| `retry_queue.dfy` | the Python job queue with its three attempts |

A request is served as one atomic step on the tables, since every command of the source runs in one transaction on
locked rows. A refused command leaves the tables as they are. Identifiers are positions in creation order, and log
order is commit order. The long proofs go command by command: each transaction is described by the event it appends
(`Invariants.LoggedStep`, `History.Explained`), and the invariants follow from that description alone.

## What the code does differently from what one may expect

Each of these is a theorem about the code as it is.

- The history list and the history detail can show different inventory states for one link. For a task with one
  link they agree exactly when the decision's frozen inventory action and the current one are both present or both
  absent, or the last relevant event is neither a review nor a termination. `no_restock` is such a case: it is frozen
  in the decision and absent from the revision. With several links a rejected or terminated proposal without an
  inventory action keeps the earlier state in the detail and loses it in the list, although both actions are absent.
- An action that continues the approved one is attached to the newest live revision, which may be a proposal for
  another action; the link then shows the proposal as its effective action.
- A link's history can part from the live task once there are several links. It keeps up exactly as long as every
  command recorded on the link moves the task, or finds it where the history goes, and every command recorded
  elsewhere leaves the task's work alone. Two reviews move no task column: rejecting a proposed change, after which
  the history reads closed, and approving a continuation of what is already approved, after which it reads pending,
  even when the task has long been executed.
- The page sends the link's review version (`web/src/pages/SuggestionDetailPage.tsx:120-121`,
  `backend/internal/action/service.go:179`) where an override or a termination checks the task's. The two part
  exactly when the version folded from the log is not one plus that link's reviews and overrides: for a sole link
  once the task was ever terminated, and for a continuation of an approved action from the start.
- Results and clearance submissions look their keys up in separate tables but prefix their event keys alike. One key
  cannot serve both, and any accepted command whose own key carries the prefix takes it from both for good.
- A closed or terminated task is taken up again by an override of a terminated one, or by approving one of its
  pending links, and in no other way.
- Overriding a rejected link leaves a task that waits for an execution nobody can make: a waiting task can be executed
  exactly when its review stands approved, which takes another approval or an override of an approved link.
- Marking a batch failed has no status guard. A ready batch can be taken back as long as some worker carries its job,
  while its list stays; while no worker acts after its lease, that cannot happen.
- Adding two months the Go way is not monotone: a product launched on the last day of a month can stay new longer
  than one launched the day after.
- The Go and the Python rules part in four families of rows: a cutoff between their two boundaries, negative net
  sales of a mature product, a hit good enough for investment without a return rate, and a hit whose return rate
  matters but is not marked as verified.
- The Python claim checks a lease that no waiting job has, and a worker that crashes leaves its job in processing
  for good.

## Model

| member | source | states |
|---|---|---|
| `Runs.EveryRunIsSound` | backend/internal/action/commands.go:208-288 | after any sequence of requests for any SPUs (imports, reviews, overrides, terminations, executions, results, clearances, refused and replayed ones) every task satisfies the conjunction of all invariants below |
| `Runs.LogDeterminesVersions` | backend/internal/action/lifecycle_commands.go:96-110 | after any run `business_version` is 1 plus the logged executions, results, overrides, terminations and clearance reviews, `inventory_version` 1 plus inventory executions, overrides and terminations, and each link's `review_version` 1 plus its reviews and overrides |
| `Runs.ReachableStates` | backend/internal/action/commands.go:251-276 | after any run review status, the two track states and the inventory action stand in one of the combinations of the state table; `not_generated` exactly when there is no inventory action |
| `Runs.NoExecutionWithoutApproval` | backend/internal/action/commands.go:341-374 | in the log of any run every execution is preceded by an approving review, and two executions of one track have an approval or an override between them, also when the approval is inherited by a continuation |
| `Runs.OverridesSpareFinishedWork` | backend/internal/action/lifecycle_commands.go:71-76 | in the log of any run, between an execution or a result and a later override of the task lies a termination or an approval, on either track |
| `Disagreements.ExecutedIsNotOverridden` | backend/internal/action/lifecycle_commands.go:71-76 | a run of an import, an approval and an execution after which an override under the current version is refused |
| `Runs.ActiveRevisionIsTheTasks` | backend/internal/action/commands.go:252-264 | after any run at most one revision of a task is active, and its two actions are the task's |
| `Runs.ActionsStayCoupled` | backend/internal/action/lifecycle_commands.go:34-40 | after any run, in the task, in every revision and in every frozen decision, the business action is present and is clearance or stop-loss exactly when the inventory action prohibits restocking |
| `Runs.SubmissionsFormAChain` | backend/internal/action/lifecycle_commands.go:204-224 | after any run submissions and results are numbered 1..n without gaps and every submission but the last was returned |
| `Runs.LinksFollowTheirPredecessors` | backend/internal/batch/processor.go:249-257 | after any run each link's predecessor is an earlier link of the same task with the greatest strictly smaller cutoff, and there is none only if no earlier link qualifies |
| `Runs.Ancestors` | backend/internal/batch/processor.go:249-264 | following `previous_link_id` terminates, and both link positions and cutoffs fall strictly along the way |
| `Runs.TerminatedIsOverridable` | backend/internal/action/lifecycle_commands.go:71-76 | after any run a terminated task passes the state check of an override |
| `Runs.ShownVersionIsStaleExactly` | backend/internal/action/lifecycle_commands.go:49-67 | for a link of a task with any number of links, an override or termination sent with the link's review version, the one the page shows, is refused as stale if and only if the version folded from the log differs from one plus that link's reviews and overrides |
| `Runs.SoleLinkIsStaleExactly` | backend/internal/action/lifecycle_commands.go:154-156 | with one link, the shown and the checked version part exactly when the task was ever terminated |
| `Runs.LogDeterminesReviews` | backend/internal/action/commands.go:251-277 | after any run the log and the relations of the links determine the task's review status and version and every link's review status |
| `Reviews.ReviewedKept` | backend/internal/action/commands.go:251-277 | every transaction moves the review columns as the fold reads its event |
| `Disagreements.OverrideIsStaleUnterminated` | backend/internal/action/lifecycle_commands.go:65-67 | a run of two imports and an approval, without any termination, after which the page's override of the second link is refused as stale |
| `Runs.RunEvolves` | backend/internal/action/commands.go:252-269 | between any two points of a run the log only grows, versions never fall, frozen columns stay, a link's review is decided once, and a revision moves only out of review or from active to superseded |
| `Runs.OtherTasksUntouched` | backend/internal/action/commands.go:226-234 | a request changes no row of another SPU |
| `Runs.AttachOnlyAdds` | backend/internal/batch/processor.go:219-268 | importing into an existing task adds one link, one event and at most one revision and changes no existing row or task column |
| `Runs.VersionsNeverRepeat` | backend/internal/action/commands.go:342-356 | two executions or results accepted for one task name different business versions, the later a higher one |
| `Runs.ConfirmedIsFinal` | backend/internal/action/lifecycle_commands.go:210-216 | once a clearance is confirmed no submission for that SPU is accepted in any continuation |
| `Runs.SettledLeavesExactly` | backend/internal/action/commands.go:251-265 | a closed or terminated task leaves that state if and only if an override or an approval that takes effect is accepted, a closed one by no override |
| `Runs.SettledUntilTakenUp` | backend/internal/action/commands.go:251-265 | between a point of a run where a task is closed or terminated and a later one where it is not lies such a request |
| `Disagreements.TerminatedIsTakenUp` | backend/internal/action/commands.go:251-265 | a run of an import, a termination and an approval takes the task from terminated back to pending execution |
| `Runs.ExecutableExactly` | backend/internal/action/commands.go:341-353 | a task whose business track waits for execution can be executed by some operator's command if and only if its review stands approved |
| `Runs.ApprovedAgainExactly` | backend/internal/action/lifecycle_commands.go:96-99 | a task whose review does not stand approved gets there if and only if an approval, or an override of an approved link, is accepted |
| `Disagreements.OverrideOfRejectedStalls` | backend/internal/action/lifecycle_commands.go:80-99 | a run of five requests, the last an override of a rejected link, after which the task waits for an execution that no operator can make |
| `Runs.AcceptedKeyIsSpent` | backend/internal/action/commands.go:235-244 | a key accepted by a command makes every later request with that key in that table, for any SPU and after anything in between, a no-op on all tables |
| `Runs.PrefixIsShared` | backend/internal/action/commands.go:446-450 | two keyed commands that store the same event key exclude each other whatever tables they look their own keys up in: results and submissions by their common prefix, and any command whose key carries it |
| `Runs.KeysAreStoredExactly` | backend/migrations/00003_action_lifecycle.sql:64 | after any run a key is stored in the event, result or completion table if and only if some accepted request stored it there |
| `Runs.TakenKeyIsRefusedExactly` | backend/internal/action/lifecycle_commands.go:225-229 | after any run a result or submission is refused for a taken key if and only if it passes every other check and some accepted request stored the prefixed key |
| `Disagreements.ForeignKeyBlocksResult` | backend/internal/action/commands.go:449-450 | a run after which a result under an unused key is refused because an approval was sent under that key with the prefix |
| `Admission.ImportAcceptedExactly` | backend/internal/batch/processor.go:176-181 | after any run an import is accepted exactly when its decision asks for clearance, stop-loss, observation or investment, or for restocking |
| `Runs.KeysCountAcceptedCommands` | backend/internal/action/commands.go:422-431 | over any run the event keys are as many as the accepted keyed commands, the result keys as the accepted results, the completion keys as the accepted submissions |
| `Admission.ReviewAcceptedExactly` | backend/internal/action/commands.go:208-250 | after any run a review is accepted if and only if a supervisor sends it, with a reason when it rejects, under a free key, for a link the log leaves pending, naming one more than the reviews and overrides of that link in the log |
| `Admission.OverrideAcceptedExactly` | backend/internal/action/lifecycle_commands.go:26-76 | after any run an override is accepted if and only if a supervisor sends it with a reason, under a free key, for coupled actions with a new business action, naming the version folded from the log, while the business track awaits review or execution or was terminated and the inventory track is not processed |
| `Admission.TerminationAcceptedExactly` | backend/internal/action/lifecycle_commands.go:119-153 | after any run a termination is accepted if and only if a supervisor sends it with a reason, under a free key, naming the version folded from the log, for a task neither terminated nor closed |
| `Admission.ExecutionAcceptedExactly` | backend/internal/action/commands.go:298-370 | after any run an execution is accepted if and only if the task's operator sends it under a free key while the folded review stands approved, for a waiting track, naming the version the log gives that track, with a note on the inventory track and for an observation |
| `Admission.ResultAcceptedExactly` | backend/internal/action/commands.go:385-437 | after any run a result is accepted if and only if the task's operator sends it with a note for an ordered period and figures each given or unavailable, naming the version the log gives the business track, on executed work, under a key free in both tables |
| `Admission.SubmissionAcceptedExactly` | backend/internal/action/lifecycle_commands.go:170-216 | after any run a submission is accepted if and only if the operator of an executed clearance sends it with a note, completed at most a minute ahead, naming the version of the log, when every earlier one was returned, under a key free in both tables |
| `Admission.ClearanceReviewAcceptedExactly` | backend/internal/action/lifecycle_commands.go:241-278 | after any run a clearance review is accepted if and only if a supervisor sends it, with a reason when it returns, under a free key, for the last submission, still pending, naming its number |
| `Admission.UnseenIsNotReviewed` | backend/internal/action/commands.go:245-247 | a review under a version seen before another accepted review or override of its link is never accepted |
| `Disagreements.UnseenOverrideIsNotApproved` | backend/internal/action/commands.go:245-247 | a run of an import and an override after which the approval under the version seen before it is refused as a conflict |
| `Disagreements.TwoCommandsNameOneVersion` | backend/internal/action/lifecycle_commands.go:65-67 | a run after which an override and then a review of one link are both accepted under version 2, since they name different counters |
| `Admission.InventoryVersionsNeverRepeat` | backend/internal/action/commands.go:360-362 | two inventory executions accepted for one task name different inventory versions, the later a higher one |
| `Admission.ProcessableExactly` | backend/internal/action/commands.go:359-371 | an inventory track that waits for execution can be executed under the version the log gives it if and only if the folded review stands approved |
| `Disagreements.TracksAreIndependent` | backend/internal/action/commands.go:345-362 | a run after which the business track is at version 2 and the inventory track is executed under version 1 |
| `Records.TablesRecordWhatWasAccepted` | backend/internal/action/commands.go:442-450 | after any run the log of a task tells its accepted commands one by one, and its results, submissions with their decisions and frozen decisions are exactly those the commands brought, in order |
| `Records.FoundedRows` | backend/internal/batch/processor.go:206-218 | a first import writes the decision's work, restocking or its prohibition but not the advice against it, with everything awaiting review at version 1 |
| `Records.AttachedRows` | backend/internal/batch/processor.go:219-264 | a later import freezes the task's states on its link; the same work continues with the task's review on the newest live revision, other work becomes a change of its own that awaits review |
| `Disagreements.ShortStockIsWork` | backend/internal/batch/processor.go:183-188 | a run of one import of a hit with short stock ends with restocking awaiting review |
| `Records.OverrideWrites` | backend/internal/action/lifecycle_commands.go:77-104 | an accepted override gives the task the chosen actions and the standing of the link, whose new revision replaces every live one, and touches no other link |
| `Records.ReviewWrites` | backend/internal/action/commands.go:251-279 | an accepted review decides its link and touches no other; the task follows an approval of something not yet approved with the link's revision, and a rejection of the founding link, and is otherwise left as it is |
| `Invariants.NewRowsInv` | backend/internal/batch/processor.go:206-218 | the rows a first decision creates satisfy every invariant |
| `Invariants.InvKept` | backend/internal/action/lifecycle_commands.go:71-112 | every transaction, accepted or not, keeps every invariant |
| `Invariants.ExecutionsAppend` | backend/internal/action/commands.go:341-374 | the order of approvals and executions in the log survives appending an event that is itself covered |
| `Invariants.LogKept` | backend/internal/action/commands.go:277-283 | what ties versions, approvals and predecessors to the log is kept by any transaction that moves them as the event it appends says |
| `ActionStore.Store.Import` | backend/internal/batch/processor.go:190-269 | linking one decision, written column by column, serves exactly the import request: state, keys and outcome |
| `ActionStore.Store.Review` | backend/internal/action/commands.go:208-288 | the method's new tables and outcome are those of the review request, in every branch |
| `ActionStore.Store.Override` | backend/internal/action/lifecycle_commands.go:26-117 | the method's new tables and outcome are those of the override request, in every branch |
| `ActionStore.Store.Terminate` | backend/internal/action/lifecycle_commands.go:119-168 | the method's new tables and outcome are those of the termination request, in every branch |
| `ActionStore.Store.Execute` | backend/internal/action/commands.go:298-383 | the method's new tables and outcome are those of the execution request on either track |
| `ActionStore.Store.RecordResult` | backend/internal/action/commands.go:385-457 | the method's new tables and outcome are those of the result request; a collision on the event key undoes the result row |
| `ActionStore.Store.SubmitClearance` | backend/internal/action/lifecycle_commands.go:170-234 | the method's new tables and outcome are those of the submission request; a collision on the event key undoes the completion row |
| `ActionStore.Store.ReviewClearance` | backend/internal/action/lifecycle_commands.go:241-299 | the method's new tables and outcome are those of the clearance review request |
| `Lifecycle.LatestLink` | backend/internal/action/lifecycle_commands.go:236-239 | the link an operator command is recorded on has the greatest cutoff, and is the last made among those |
| `Lifecycle.Predecessor` | backend/internal/batch/processor.go:250-255 | the greatest strictly earlier cutoff, the last linked among equals |
| `Lifecycle.LatestLive` | backend/internal/batch/processor.go:228-229 | the newest revision that is active or awaiting review |
| `Lifecycle.LatestCompletion` | backend/internal/action/lifecycle_commands.go:211 | a completion with the highest submission version |
| `History.ProjectHistory` | backend/internal/action/history.go:135-195 | the loop over a link's events leaves exactly the replayed states and shows the current revision's actions |
| `Runs.ReplayShowsTheLiveTask` | backend/internal/action/history.go:146-193 | after any run, for a task with one link, the history detail shows exactly the task's live states and actions, although the fold reads the final revision's inventory action for every earlier event |
| `History.ReplayCatchesUp` | backend/internal/action/history.go:148-170 | for any number of links: once an approval of a link takes effect, or an override is recorded on it, its replay shows the live task |
| `History.IdleExactly` | backend/internal/action/commands.go:251-276 | an accepted command leaves the task's actions and states alone if and only if it is idle, told from the state before it |
| `History.ReplayKeepsUpExactly` | backend/internal/action/history.go:146-193 | for any number of links: a replay that shows the live task still does after an accepted command if and only if the command, recorded elsewhere, is idle, or, recorded here, moves the task or finds it where the fold goes; told from the state before it |
| `Disagreements.LateApprovalReopensHistory` | backend/internal/action/commands.go:251-252 | a run of five requests after which the task is executed and the history of its approved second link still waits for execution |
| `History.BusinessProjectionsAgree` | backend/internal/action/history.go:16-24 | on the business track the latest-event expression and the fold agree for every link of every task whose log commands wrote |
| `Runs.ListShowsTheBusinessTrack` | backend/internal/action/history.go:16-24 | after any run the list and the detail agree on the business track of every link |
| `History.KeptWithoutAction` | backend/internal/action/history.go:156-161 | without a current inventory action the fold's inventory state is the one at link time, or what the last approval, override or inventory execution on the link says |
| `History.InventoryProjectionsAgreeExactly` | backend/internal/action/history.go:25-31 | for every link of every task the two agree on the inventory track if and only if no event set the state or the last that did reads alike for both: equal presence of the frozen and the current action after an approval, a present frozen action after a rejection or termination with a current one, and without one the kept state equal to what the list says |
| `History.EndedLinksPart` | backend/internal/action/history.go:28-30 | after a rejection or termination of a link without any inventory action the list reads not generated and the detail the kept state |
| `Disagreements.RejectedProposalParts` | backend/internal/action/history.go:156-161 | a run of two imports and a rejection after which detail and list show different inventory states although both actions are absent |
| `History.PresenceDecides` | backend/internal/action/history.go:25-31 | where the fold shows a state exactly for a present action, as for sole links, the two agree if and only if both actions are present or absent, or the last such event is neither a review nor a termination |
| `History.OverrideWithoutStates` | backend/internal/action/history.go:162-176 | for an override event without recorded states the detail and the list part on the inventory track exactly for a link without a current action |
| `Disagreements.ListShowsWorkTheTaskLacks` | backend/internal/action/history.go:27 | a run of one import and its approval after which the list shows an inventory action to execute and the task has none |
| `Runs.ListShowsTheInventoryTrackExactly` | backend/internal/action/history.go:25-31 | after any run, for a task with one link, the list shows the live inventory state if and only if that condition holds |
| `History.RejectedChangeReadsClosed` | backend/internal/action/history.go:156-160 | rejecting a proposed change moves no task column, while that link's replay reads closed, whatever it read before |
| `History.LateApprovalReadsPending` | backend/internal/action/history.go:148-155 | approving a continuation of what is approved moves no task column, while that link's replay reads pending execution, whatever it read before |
| `History.ContinuationRevision` | backend/internal/batch/processor.go:227-229 | a continuation carries the task's actions if and only if the newest live revision is not a proposal for other ones |
| `History.ContinuationShowsProposal` | backend/internal/batch/processor.go:227-229 | two decisions with different business actions, one approval and three imports end with a continuation that shows the proposed action as effective |
| `History.EqualProposalsContinue` | backend/internal/batch/processor.go:227-229 | a pending change link later than the active revision does not suffice: proposed twice and approved once, a continuation carries the task's actions |
| `Rules.Decide` | backend/internal/batch/rules.go:8-71 | a decision with a business action is coupled with its inventory action, one without has none, and restocking is never advised for a new product |
| `DecisionTable.GoHitTable` | backend/internal/batch/rules.go:25-94 | Go's decision for every hit in plain numbers: sales, profit and 15 returns of 1000 sold |
| `DecisionTable.GoOtherRows` | backend/internal/batch/rules.go:15-49 | Go's decision for every other row in plain numbers |
| `DecisionTable.GoRestocking` | backend/internal/batch/rules.go:57-65 | Go's restocking advice for every hit: short exactly when 14 times the stock is below 30 times the sales of 14 days |
| `DecisionTable.PyHitTable` | 趣然AI商品经营利润决策助手/backend/app/rules.py:79-114 | Python's decision for every hit in the same numbers |
| `DecisionTable.PyOtherRows` | 趣然AI商品经营利润决策助手/backend/app/rules.py:53-84 | Python's decision for every other row |
| `DecisionTable.PyRestocking` | 趣然AI商品经营利润决策助手/backend/app/rules.py:117-147 | Python's restocking advice for every hit |
| `Rules.TaskDecisionsAreCoupled` | backend/internal/batch/processor.go:176-188 | every decision that reaches a task is coupled, also after "do not restock" is dropped |
| `Rules.CandidatesByCascade` | 趣然AI商品经营利润决策助手/backend/app/rules.py:86-114 | the first candidate by priority is what the cascade picks, but "maintain" where the cascade leaves an unproven investment open |
| `Rules.CategoriesAgreeExactly` | 趣然AI商品经营利润决策助手/backend/app/rules.py:53-64 | both sides classify a row alike if and only if the cutoff is not between the two boundaries and a mature product's net sales are not negative |
| `Rules.MainActionsAgreeExactly` | backend/internal/batch/rules.go:73-94 | given a category, both sides choose the same main action if and only if a hit's return rate neither is missing where investment is due nor is unverified where it matters |
| `Rules.ImplementationsAgreeExactly` | 趣然AI商品经营利润决策助手/backend/app/rules.py:67-155 | for every row and cutoff the two implementations agree on category, main action and inventory action if and only if none of four stated conditions on the row holds |
| `Disagreements.BetweenBoundariesHappens` | backend/internal/batch/rules.go:19-20 | rows between the two boundaries: new for Go, a hit for Python |
| `Disagreements.NegativeSalesHappen` | 趣然AI商品经营利润决策助手/backend/app/rules.py:58-59 | rows with negative sales: cleared by Go, undetermined in Python |
| `Disagreements.UnprovenInvestmentHappens` | backend/internal/batch/rules.go:73-94 | hits without a return count: undecided by Go, maintained by Python |
| `Disagreements.UnverifiedRateHappens` | 趣然AI商品经营利润决策助手/backend/app/rules.py:71 | hits whose return rate is not verified: invested in by Go, maintained by Python |
| `Calendar.DayNumberIsCalendarOrder` | backend/internal/batch/service.go:213-222 | day numbers order and identify civil dates exactly as year, month and day do |
| `Calendar.DayNumberInNumbers` | 趣然AI商品经营利润决策助手/backend/app/rules.py:36-49 | the day number of a date is 365 days for each year before it, a leap day for each fourth but not each hundredth but each four hundredth, the days of a printed calendar before its month, and its day |
| `Calendar.BoundaryGap` | backend/internal/batch/rules.go:19-20 | the overflowing two-month boundary is never before the clamped one, at most three days later, and equal exactly when the launch day exists in the target month |
| `Calendar.ClampedBoundaryIsMonotone` | 趣然AI商品经营利润决策助手/backend/app/rules.py:32-50 | a later launch never has an earlier clamped boundary |
| `Calendar.OverflowingBoundaryInverts` | backend/internal/batch/rules.go:19-20 | a later launch has an earlier overflowing boundary if and only if it falls in the next month on a day the earlier one's overflow passes |
| `Calendar.NewYearInversion` | backend/internal/batch/rules.go:19-20 | 31 December 2024 against 1 January 2025: the earlier launch stays new two days longer |
| `Calendar.PeriodChecksAgree` | backend/internal/batch/service.go:205-223 | `ValidatePeriod` accepts exactly the periods that `full_month` and the cutoff check accept |
| `BatchQueue.Tables.Claim` | backend/internal/batch/processor.go:34-72 | the oldest due job is leased for ten minutes, counted, and its received batch starts validating; nothing else changes |
| `BatchQueue.Tables.Process` | backend/internal/batch/processor.go:84-174 | one transaction: a readable workbook without a list is published with every snapshot and its decision in order, the issues, the counters of valid and rejected rows, and every decision that asks for work linked to its task; anything else leaves every row as it was |
| `BatchQueue.PublishedIsDecided` | backend/internal/batch/processor.go:151-166 | in any run every published entry holds the decision of the rules, and the batch counters are the number of entries and of distinct rows its issues reject |
| `BatchQueue.LinkRows` | backend/internal/batch/processor.go:107-150 | the loop over the rows leaves the list of the rows with their decisions and the tables after importing each of them in order |
| `Publication.TablesAreARun` | backend/internal/batch/processor.go:84-174 | whatever workers and users do, late steps included, the task tables are those of a run of requests in which each publication is one block of imports |
| `Publication.TablesAreSound` | backend/internal/batch/processor.go:84-174 | so every task of every such system satisfies the invariants of runs |
| `Publication.LinksAreAccountedFor` | backend/internal/batch/processor.go:144-149 | at every point of every run, late steps included, the task of an SPU has exactly as many links as the published lists have entries that ask for work on it: nothing is lost, linked twice or left behind |
| `BatchQueue.Tables.MarkFailed` | backend/internal/batch/processor.go:278-293 | job and batch are failed whatever they were before |
| `BatchQueue.OnTimeIsSafe` | backend/internal/batch/processor.go:42-48 | in any run of any number of workers in which none acts after its lease, jobs, batches and lists agree, and a job is held within a lease by one worker |
| `BatchQueue.SettledForGood` | backend/internal/batch/processor.go:54-60 | on time, a ready or failed batch, its job and its list are never changed again |
| `BatchQueue.NothingLeftBehind` | backend/internal/batch/processor.go:84-95 | on time, a list exists exactly for ready batches, and every other job not failed can be claimed, at the latest when its lease is over |
| `BatchQueue.OnTimeNeverCollides` | backend/internal/batch/processor.go:93-96 | on time, whoever holds a job and can read its workbook publishes all its rows: the unique index is never hit |
| `BatchQueue.PublishedAtMostOnce` | backend/migrations/00002_batches.sql:78-80 | without any assumption on time, no run publishes a batch twice |
| `BatchQueue.ReadyIsUndoneExactly` | backend/internal/batch/processor.go:284-290 | at any point of any run, late steps included, a ready batch can be taken back in some continuation if and only if some worker still carries its job |
| `BatchQueue.UncarriedStays` | backend/internal/batch/processor.go:284-290 | a ready batch no worker carries keeps its status, list and job through whatever follows |
| `BatchQueue.CarriersAreLate` | backend/internal/batch/processor.go:54-55 | while all have been on time, whoever still carries the job of a ready batch has outlived its lease |
| `BatchQueue.LateFailureUndoesReady` | backend/internal/batch/processor.go:284-290 | a run in which a worker outlives its lease ends with a failed batch whose published list stays |
| `Explanations.Tables.RetryAI` | backend/internal/action/commands.go:146-206 | a retry adds a generating version under the highest number plus one and its event, or is refused or replayed in the order of the checks |
| `Explanations.RetryAcceptedExactly` | backend/internal/action/commands.go:146-193 | in every reachable state a retry is accepted if and only if the decision is linked, a supervisor or the operator of the row asks, the key is not blank and no event has it, and the last version is not generating |
| `Explanations.NumbersArePositions` | backend/internal/action/commands.go:175-190 | numbered 1..n, the highest number is the count and the version with the highest number the last |
| `Explanations.Tables.Commit` | backend/internal/explanation/processor.go:57-92 | a commit completes the version only while it is generating, and adds the completion event only under a free key |
| `Explanations.CommitWrites` | backend/internal/explanation/processor.go:57-76 | a commit stores the text as generated, and the three kinds of errors as not configured, not adopted and failed, without content |
| `Explanations.EveryChainIsSound` | backend/internal/explanation/processor.go:78-90 | any interleaving of retries, reads, commits, crashes and other commands keeps the chain's invariants |
| `Explanations.VersionsHaveNoGaps` | backend/internal/action/commands.go:175-199 | in every reachable state versions are 1..n, only the last may be generating, and each after the first has exactly one accepted retry |
| `Explanations.FirstCommitStands` | backend/internal/explanation/processor.go:84-87 | a completed version never changes again, whatever other workers that read it still commit |
| `Explanations.RetryIsOnce` | backend/internal/action/commands.go:167-174 | once a key is spent, every later retry under it changes nothing |
| `Explanations.CompletionIsToldExactly` | backend/internal/explanation/processor.go:88-91 | a completion event with the stored status exists if and only if the version is complete, the decision linked and the key not spent by another command; no other completion event tells a different status |
| `Explanations.ShownIsNeverLost` | backend/internal/action/commands.go:98-107 | the content shown is that of the generated version with the highest number; once there is one, content is shown in every continuation and changes only with a higher generated number |
| `Workbook.ParseRows` | backend/internal/batch/parser.go:77-162 | the two passes accept exactly the acceptable rows, reject exactly the other product rows, and accepted plus rejected plus summary rows are the non-empty rows |
| `Workbook.Collect` | backend/internal/batch/parser.go:80-121 | the first pass yields the product rows in order, the number of copies of every SPU, and the number of summary rows |
| `Workbook.Judge` | backend/internal/batch/parser.go:149-161 | the second pass accepts the identified rows with an unrepeated SPU, and its rejecting issues name exactly the other product rows |
| `Workbook.CountRejected` | backend/internal/batch/processor.go:151-163 | the batch counter counts the distinct rows a rejecting issue names |
| `Workbook.RowsAreConserved` | backend/internal/batch/parser.go:80-121 | for every prefix of the sheet no row is lost or counted twice |
| `Workbook.AcceptedAreDistinct` | backend/internal/batch/parser.go:149-160 | accepted rows have all five identity fields and pairwise different SPUs |
| `Workbook.RowsAreJudgedExactly` | backend/internal/batch/parser.go:102-160 | a row is accepted if and only if it is neither empty nor a total, has all five identity fields and shares its SPU with no other such row; and rejected if and only if it is such a row and lacks one or shares it |
| `Workbook.RepeatedIsCounted` | backend/internal/batch/parser.go:149-150 | an SPU is counted more than once exactly when another product row carries it, so every copy is rejected |
| `RetryQueue.Table.ClaimJob` | 趣然AI商品经营利润决策助手/backend/app/worker.py:15-35 | the oldest due waiting job is leased, counted and put in processing; nothing else changes |
| `RetryQueue.Table.FinishJob` | 趣然AI商品经营利润决策助手/backend/app/worker.py:70-93 | success settles the job, an error sends it back with a delay of two to the number of its attempts, or fails it after the third |
| `RetryQueue.EveryRunIsSound` | 趣然AI商品经营利润决策助手/backend/app/worker.py:15-35 | under any interleaving owned jobs are in processing, with one owner each, and attempts fit the status |
| `RetryQueue.OneOwner` | 趣然AI商品经营利润决策助手/backend/app/worker.py:19-34 | a job has at most one owner, and then between one and three attempts |
| `RetryQueue.LeaseGuardIsIdle` | 趣然AI商品经营利润决策助手/backend/app/worker.py:21-25 | in every reachable state the lease condition of the claim is implied by the other two |
| `RetryQueue.BoundedWork` | 趣然AI商品经营利润决策助手/backend/app/worker.py:82-93 | every claim and every finish lowers a measure: in a run of any length a job is claimed as often as its counter says, at most three times, and touched at most six times |
| `RetryQueue.BackoffIsKept` | 趣然AI商品经营利润决策助手/backend/app/worker.py:88-90 | after its first failed attempt no worker touches the job for two seconds, after its second for four, and from then on it can be claimed |
| `RetryQueue.CrashStrands` | 趣然AI商品经营利润决策助手/backend/app/worker.py:21-25 | a job whose owner crashed stays exactly as it is for the rest of every run |
| `RetryQueue.StrandedExactly` | 趣然AI商品经营利润决策助手/backend/app/worker.py:21-25 | a job is in processing without an owner if and only if some owner of it crashed |

## Left out

- Trimming: a text is blank when it holds only spaces, tabs and line ends; Go trims every Unicode white space.
- Text and file formats: reading XLSX, header mapping, parsing of numbers and dates, warnings on duplicate headers
  and on summary totals, issue texts and trigger strings. Cells arrive as trimmed text or optional numbers and dates.
- Rounding: float64 and Decimal are reals, and stored columns keep full precision. Python's integer return counts
  are reals as well.
- Time of day and time zones: periods, cutoffs and launches are civil dates; instants are whole seconds. Years
  beyond 9999, which Python's dates refuse, are not excluded.
- Columns no guard reads: actors, reasons, from-states, timestamps such as `business_executed_at`, result notes.
- A batch is one transaction over many SPUs; on the task tables it is a block of imports, one for each row.
- PostgreSQL: row locks, `SKIP LOCKED`, isolation and index internals stand behind the atomic steps. Unique indexes
  and foreign keys are modelled where a command can hit them. The one-active-revision index never refuses, because
  at most one revision is ever active.
- The data migration that gives tasks to batches imported earlier.
- Events of notifications, delivery, audits and explanations in the task log: one command, `Annotate`, adds them with
  any key; it is not a method of `ActionStore.Store`.
- Which roles reach which endpoint, sessions, uploads, filters, pagination, workbench lists and the web pages.
- Reading the detail after a command; the model returns the outcome and the new tables.
- Batch jobs whose payload cannot be read, and the explanation worker's choice among decisions: a chain of one
  decision is modelled, and a worker may read any version being generated.
- The gateway and its errors beyond the four outcomes a commit distinguishes.
- Python's import itself and the explanation row a Python job writes: a job ends well or with an error.
- BatchQueue.Tables.Process: parsing and publishing are one step that either commits or leaves all rows. The counters
  of degraded rows and of warnings, the rule version and the first explanation row of each decision are not part of it.
- Workbook.ParseRows: degraded fields of a row are a number of issues, not their texts, and source rows are positions.
- Explanations.Tables.Commit: the guarded UPDATE is one function over the versions, as the source has no loop there.
- History.ProjectHistory: events are the values stored in their columns, so a details field of a wrong type is an
  absent one.

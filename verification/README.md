# Release Ops: verified model

Release Ops watches source repositories for new releases and keeps one ticket per release in an
external ticket system. This project models the parts of it in which a mistake would cost a
duplicate ticket, a lost run, a locked-out client or a token used twice, and proves what those
parts promise.

`dafny verify dfyconfig.toml` checks everything.

## What is modelled

**The ticket protocol** (`PollModel`, `PollEngine`, `PollSafety`, `PollTheorems`, `PollCrashes`,
`PollPileUp`, `PollConvergence`, `PollTickets`, `PollOutcomes`, `PollEdits`, `PollLimits`, `PollIdle`).
The stored row of a repo and the ticket tracker share no transaction. Every access to either meets a fault chosen by the environment: it may succeed, fail,
take effect and be reported as failed, be stored with its target list unread, or be the point at
which the process dies; a create may store zero, one or two issues whatever the client is told.
`PollModel` gives each operation as a function of the state and the faults, `PollEngine` is the
engine itself as a class whose methods are proved to do exactly that, and the theorems are about
every history of polls, target edits between polls, failed set-ups and status changes made by
people. A poll also records the states in which its accesses found things, and dying at an access
is proved to leave exactly that state, so what holds after every poll holds at every moment inside
one. The state carries a ledger that the code does not keep (tags observed, links ever stored,
tickets moved, creates acknowledged) so that the theorems can speak about the past. What a poll
reports is true of what it left behind, whatever failed (`PollOutcomes.ReportsAreTrue`). Link validity,
supersede order, baseline safety, the bound on open tickets and convergence hold in every history
without exception (`PollSafety.Core`); only "at most one ticket per tag" needs one in which releases
do not go back and no ambiguous create is repeated (`PollSafety.Legal`), and its exact conditions are
given below.

**Creating an issue** (`TicketErrors`, `Jira`). Error values with their wrapping chains, the
classification "definitely not stored", and Jira's create with its second attempt without priority.

**Runs** (`RunAccounting`, `Scheduler`, `RunRows`, `Reconcile`). The loop over all repos and its counters, the
lock that lets one run start at a time under any interleaving of cron, manual triggers, shutdown,
crash, reconciliation and restart, and the paging loop that settles interrupted runs before the next
process starts.

**The rate limiter** (`RateLimitSpec`, `RateLimiter`). The rule is stated over the complete history
of requests; the limiter with its in-place compaction and its sweep is proved to decide by it.

**Smaller parts.** Plain text to Atlassian documents (`AdfDocument`), the choice of the newest
release (`ReleasePick`), status classes (`StatusMapping`), the default integration of a kind
(`Integrations`), one-time tokens (`Tokens`, `TokenRenewal`, `TokenRedemption`, `TokenAddresses`,
`TokenHandlers`), and the comma-joined id list (`CommaList`). `Strings` and `Wrappers` hold what
Go's library and its return conventions provide.

Environment choices (faults, clock readings, ids, rendered templates, fetched releases) are
parameters everywhere.

## Where the code does less than it says

* **Definitely not stored.** The comment of `CreateDefinitelyNotStored` says a true answer proves
  that nothing was stored. The retry without priority is chosen by two substrings of a rendered
  error, which the body of a server error can contain. When an ambiguous first attempt is repeated
  and the repeat is rejected, the answer is true although an issue may exist
  (`Jira.RetryMisreadsServerError`, `Jira.MisreadBody`). `Jira.DefinitelyNotStoredExactly` gives
  the exact condition. What it costs: the rejection clears the marker, and the next poll creates a
  second ticket (`PollLimits.RejectedRepeatTicketsTwice`); if the repeat stores an issue as well,
  one poll is enough (`PollLimits.RepeatedCreateTicketsTwice`). `PollLimits.OncePerTagExactly` shows
  that repeating an ambiguous create is the exact condition for it, and
  `PollLimits.SecondTicketIsReachable` gives a history of a new repo that gets there.
* **One ticket per tag** holds while releases do not go back. A source that shows B, A and B again
  gets two tickets for B (`PollConvergence.ReturningReleaseIsTicketedTwice`). For a repo whose
  tickets are done before the next poll, `PollIdle.OncePerTagInIdleHistories` gives the exact
  condition: no tag is news twice, where news is a release shown right after one with a different tag
  once some release had a tag (`PollIdle.IsNews`).
* **Retry-After.** `docs/specs.html:698` promises the seconds until the window allows a retry. The
  returned duration is exact, but the header rounds to the nearest second, so a client that honours
  it may be denied once more: exactly when the duration was rounded down
  (`RateLimitSpec.HonouringTheHeader`), which happens (`RateLimitSpec.HeaderCanBeTooShort`).
* **Convergence.** A first release without a tag stores no baseline, so such a poll does not settle
  (`PollConvergence.Ready`, first case).
* **Newest token only.** Two overlapping requests for a reset can leave two live tokens, although
  each invalidated the older ones (`TokenRenewal.OverlappingReissuesLeaveTwo`). The exact condition
  is that no re-issue for an address gets between its two statements while another is there
  (`TokenRenewal.NewestTokenOnlyExactly`); of a single state, that at most one is there, and none
  while a token is live (`TokenRenewal.SecondTokenExactly`).
* **Shutdown.** A nil return means that no run is active; it stays so exactly when nothing can call
  `Trigger` any more (`Scheduler.ShutdownIsFinalExactly`).

## Model

| member | source | states |
|---|---|---|
| PollEngine.Engine.EvaluateRepo | internal/poll/engine.go:92-116 | The method, calling store and tracker step by step, ends in the state and outcome of the evaluation function under every sequence of faults |
| PollEngine.Engine.PollRepo | internal/poll/scheduler.go:267-317 | A poll by the engine, set-up failure included, is one step of a history and keeps what holds in every history, whatever fails, and in a legal one the once-per-tag invariant; a failed set-up touches the row only and yields an error evaluation even when it cannot be stored |
| PollEngine.Engine.ApplyBaseline | internal/poll/engine.go:206-225 | Touches the row only: a first sighting becomes the known tag, a release without tag changes none |
| PollEngine.Engine.ApplySkip | internal/poll/engine.go:227-237 | Touches the row only, and of it the poll time and the error |
| PollEngine.Engine.ApplyNewTag | internal/poll/engine.go:239-269 | A new tag with a linked ticket is settled by its live status; done and cancelled clear the link before the create, unknown records an error |
| PollEngine.Engine.ApplyOpenTicketPolicy | internal/poll/engine.go:290-313 | Empty policy means supersede; an unknown one records an error |
| PollEngine.Engine.ApplyCreate | internal/poll/engine.go:315-359 | Refuse, render, mark, create, link, in this order, with the error path of each |
| PollEngine.Engine.ApplySupersede | internal/poll/engine.go:361-441 | As a create, then the old ticket is moved and commented; partial failure keeps the new link and records an error |
| PollEngine.Engine.RefuseRepeatedCreate | internal/poll/engine.go:456-461 | Acts exactly when the marker names the tag, and then only records the error |
| PollEngine.Engine.MarkTicketPending | internal/poll/engine.go:466-474 | The marker is stored before the tracker is called, or the poll ends; nothing else changes |
| PollEngine.Engine.RecordCreateFailure | internal/poll/engine.go:484-491 | The marker is cleared exactly for failures classified as definitely not stored |
| PollEngine.Engine.SaveCreatedTicket | internal/poll/engine.go:496-519 | The retry loop equals its recursive description: up to three writes, stopping at the first success or when the context ends |
| PollEngine.Engine.SupersedeOldTicket | internal/poll/engine.go:524-559 | The status change is tried even without a comment; the errors of comment text, status and comment are all collected |
| PollEngine.Engine.ApplyMerge | internal/poll/engine.go:561-597 | The open ticket is rewritten with the release first, then the row; a failed rewrite leaves the known tag |
| PollEngine.Engine.ApplySkipIfOpen | internal/poll/engine.go:599-620 | Touches the row only: the release becomes known, the link stays |
| PollEngine.Engine.SavePollState | internal/poll/engine.go:626-638 | A success means the row is stored as given, even if its targets could not be read back; the tracker is not called |
| PollEngine.Engine.RecordError | internal/poll/engine.go:640-655 | The error is written over the given row and reported; the outcome fails if that write does; the tracker is not called |
| PollSafety.StepKeepsCore | internal/poll/engine.go:92-655 | Every step of any kind, cut short anywhere, keeps tickets, ledger and link in order: tickets were announced after another tag was known, links name acknowledged tickets of the current target, moved tickets have a linked successor |
| PollSafety.ReachableCore | internal/poll/engine.go:92-655 | All this holds after every history of a newly registered repo |
| PollSafety.StepKeepsInv | internal/poll/engine.go:92-655 | Every legal step keeps besides: no tag has two tickets, and a ticket of the newest tag is remembered by the row as known or pending |
| PollSafety.RetargetKeepsSound | internal/store/repos.go:193-216 | Resetting poll state on a change of source or ticket project starts a new epoch in which both invariants hold |
| PollEdits.EditKeeps | internal/store/repos.go:187-216 | An edit that leaves the source alone keeps known release, publication and poll time and clears link, marker and error; one of the source clears the known release too; one of neither changes nothing |
| PollEdits.NewProjectGetsNextRelease | internal/store/repos.go:187-216 | After a change of ticket project alone, the next new release is ticketed in the new project: one ticket added, linked and known |
| PollEdits.NewSourceStartsOver | internal/store/repos.go:187-216 | After a change of source the next release is a baseline without a tracker call, whatever fails |
| PollSafety.CreateForKeepsSound | internal/poll/engine.go:315-441 | The create path keeps both invariants through crashes, ambiguous answers and failed link writes, however many issues the tracker stored for the first one |
| PollSafety.ReachableInv | internal/poll/engine.go:92-655 | The once-per-tag invariant holds after every legal history from a newly registered repo |
| PollTheorems.AtMostOneTicketPerTag | internal/poll/engine.go:315-519 | Over every history in which no ambiguous create is repeated, the tracker never holds two tickets for one tag between two target changes |
| PollLimits.OncePerTagExactly | internal/providers/ticket/jira.go:172-180 | Whatever the tracker did behind the answers of a create, superseding or not, this poll and the next leave at most one ticket per tag if and only if the answers do not make the client repeat an ambiguous create |
| PollLimits.OncePerTagExactlyAfter | internal/providers/ticket/jira.go:172-180 | The same equivalence after every legal history, which is where the first such repeat happens |
| PollLimits.OncePerTagWhateverStored | internal/poll/engine.go:315-519 | In a legal history, with any other outcomes in the tracker behind the same answers, and after one more undisturbed poll, no tag has two tickets |
| PollLimits.SecondTicketIsReachable | internal/providers/ticket/jira.go:211-216 | A newly registered repo gets a second ticket for a tag: baseline, a create stored behind a quoting 500, a rejected repeat, one more poll |
| PollTickets.PollKeepsTickets | internal/poll/engine.go:92-655 | Whatever fails, a poll takes no ticket away and leaves each its tag and target |
| PollOutcomes.ReportsAreTrue | internal/poll/engine.go:92-655 | For every poll and all faults, an evaluation that is reported describes row, tickets and event references as they are: baseline, skip, create, supersede, merge, skipped while open or error; a merged ticket shows the release, a superseded one is in the superseded status in favour of the linked one, an error leaves the known release and lets a link go only if its ticket reads as done or cancelled |
| PollOutcomes.UndisturbedPollReportsDue | internal/poll/engine.go:239-313 | An undisturbed poll of a new release reports what link, live status and policy call for |
| PollOutcomes.MergeShowsRelease | internal/poll/engine.go:561-597 | Under the policy merge the open ticket shows the new release, stays the linked one, and none is added |
| PollOutcomes.DoneTicketIsLetGo | internal/poll/engine.go:249-262 | A linked ticket that reads as done or cancelled is unlinked, even where no new one can be created |
| PollOutcomes.PendingIsReportedFirst | internal/poll/engine.go:456-461 | The warning about a ticket that may exist comes before the templates are rendered and without a tracker call |
| PollOutcomes.SupersedeIsCleanExactly | internal/poll/engine.go:524-559 | The old ticket is dealt with without an error iff the comment can be made and both calls succeed; the comment is tried whatever became of the status change |
| PollOutcomes.NoCommentStillSupersedes | internal/poll/engine.go:521-559 | Where no comment can be made the old ticket is moved all the same, and the error is kept |
| PollOutcomes.ThirdWriteLinks | internal/poll/engine.go:496-519 | Three writes: the link is stored if only the third one goes through, and given up if that fails too |
| PollOutcomes.SavedExactly | internal/poll/engine.go:626-638 | A write succeeds iff the row was stored and reported so, be it with its targets unread |
| PollLimits.RejectedRepeatTicketsTwice | internal/poll/engine.go:484-491 | A stored first attempt and a rejected repeat clear the marker, and the next poll creates a second ticket for the tag |
| PollCrashes.DyingLeavesTheMoment | internal/poll/engine.go:92-655 | A poll that dies at its k-th access leaves the state in which that access would have found things, for every poll and every k |
| PollCrashes.EveryMomentKeepsCore | internal/poll/engine.go:361-441 | Between any two accesses of any poll, links are whole and superseding came after linking |
| PollCrashes.EveryMomentKeepsInv | internal/poll/engine.go:315-519 | In a legal step no tag has two tickets between any two accesses either |
| PollTheorems.LinkNamesAcknowledgedTicket | internal/poll/engine.go:315-441 | After every history link id and tag are set together, and the id is a ticket the tracker acknowledged for the current target |
| PollTheorems.SupersedeFollowsLink | internal/poll/engine.go:361-441 | In no history was a ticket moved to superseded without its successor's link stored, and the successor is a later ticket |
| PollTheorems.TicketsFollowABaseline | internal/poll/engine.go:206-225 | When a ticket was stored, the row announced its tag, and a different tag of the same source had been stored as last known |
| PollTheorems.FirstReleaseIsNeverTicketed | internal/store/repos.go:187-216 | Until a tag was stored for the current source, no poll touches the tracker |
| PollTheorems.PendingTagIsNeverCreatedAgain | internal/poll/engine.go:443-491 | While the marker names the observed release, no number of polls, faults and outside changes adds a ticket or clears it |
| PollPileUp.NoPileUp | internal/poll/engine.go:239-441 | For every target a repo ever had, each with its own status mapping: open tickets number at most 1 plus creates never linked plus supersedes whose status change did not happen, for any mix of policies |
| PollPileUp.StepKeepsTidy | internal/poll/engine.go:239-620 | Only the linked ticket is open among the linked ones not waiting to be moved, after every step |
| PollConvergence.UndisturbedPollSettlesExactly | internal/poll/engine.go:92-441 | A fault-free poll ends with its release known and no error if and only if the row, the settings and the live status allow it |
| PollConvergence.PollConverges | internal/poll/engine.go:206-441 | From every reachable state, such a poll settles and the next one makes no tracker call and changes the poll time only |
| PollConvergence.KnownReleaseIsQuiet | internal/poll/engine.go:227-237 | A known release costs no tracker call, whatever fails |
| PollConvergence.UndisturbedPollCreates | internal/poll/engine.go:315-359 | With no ticket in the way one ticket is added, linked and known, and the marker is gone |
| PollConvergence.ReturningReleaseIsTicketedTwice | internal/poll/engine.go:166-182 | B, A, B with tickets done in between leaves two tickets for B |
| PollIdle.OncePerTagInIdleHistories | internal/poll/engine.go:166-182 | For every list of releases polled without disturbance, each ticket done before the next poll: no tag has two tickets if and only if no tag is news at two places |
| PollIdle.NewsIsWhatWasShown | internal/poll/engine.go:166-182 | The tags ticketed are exactly those shown right after a different one once some release had a tag, each once and in order |
| PollIdle.KnownIsShownLast | internal/poll/engine.go:166-182 | The known tag is the one shown last, once any release had a tag |
| PollLimits.RepeatedCreateTicketsTwice | internal/providers/ticket/jira.go:172-180 | When an ambiguous create is repeated and both attempts store an issue, one poll leaves two tickets for one tag, and the next keeps them |
| TicketErrors.WrappingKeepsVerdict | internal/providers/ticket/create_error.go:43-75 | Adding context to an error never changes whether it proves that nothing was stored |
| TicketErrors.VerdictOfCauses | internal/providers/ticket/create_error.go:54-75 | An unwrapped error proves that nothing was stored iff it is marked as not sent, an answer from 400 to 499, a failed name lookup or a failed dial |
| TicketErrors.TransportHasNoTicketError | internal/providers/ticket/create_error.go:54-75 | A transport error chain, wrapped and joined at will, holds neither a status nor a not-sent mark |
| Jira.DefiniteAttempt | internal/providers/ticket/jira.go:437-475 | One exchange is classified as definitely not stored if and only if what the client saw allows that conclusion |
| Jira.RefusedBeforeSending | internal/providers/ticket/jira.go:147-157 | A context that ended or a blank project key stores nothing and reads as definitely not stored |
| Jira.KeyIsFromTheAnswer | internal/providers/ticket/jira.go:172-199 | The key returned is the non-empty key of the 2xx answer: the first, or else that of the repeat, which only a create with a priority gets |
| Jira.CreateIsSound | internal/providers/ticket/jira.go:147-199 | Unless an ambiguous first attempt is repeated: a definite failure stored nothing, success stored one issue, no create stores two |
| Jira.DefinitelyNotStoredExactly | internal/providers/ticket/create_error.go:43-75 | A true answer is justified, whatever the tracker did behind the exchanges, if and only if no ambiguous first attempt was repeated |
| Jira.RetryMisreadsServerError | internal/providers/ticket/jira.go:211-216 | A stored issue behind a 5xx whose body quotes a rejected priority is reported as definitely not stored |
| Jira.MisreadBody | internal/providers/ticket/jira.go:213-216 | Such a body exists |
| Jira.HonestBodyMeansStatus400 | internal/providers/ticket/jira.go:213-216 | A body without the quoted status line is repeated only after a 400, so never by mistake |
| StatusMapping.ClassifyMeans | internal/providers/ticket/classify.go:13-42 | Open, done and cancelled by membership in the lists, in that order of precedence, without case and outer blanks; the superseded status counts as cancelled, a blank one as unknown |
| StatusMapping.SupersededReadsAsClosed | internal/providers/ticket/classify.go:13-33 | A ticket in the superseded status reads as closed if and only if that status has a name and the open list does not claim it |
| StatusMapping.SpellingDoesNotMatter | internal/providers/ticket/classify.go:35-42 | Statuses that differ in case or outer blanks classify alike |
| StatusMapping.OuterBlanksDoNotMatter | internal/providers/ticket/classify.go:13-16 | Blanks around the status do not change its class |
| RunAccounting.RunAll | internal/poll/scheduler.go:178-241 | For every list of repos and interruption point: counters are the totals of the checked repos; each checked repo whose poll or set-up failed, or whose evaluation holds an error action, has one error entry with its id and message, in order, and nothing else has one but the interruption; success iff no error is stored, and only if every listed repo was evaluated without an error action; failed iff a repo was checked and all erred |
| RunAccounting.ErrorsAreTold | internal/poll/scheduler.go:204-226 | The errors of any list of polls are those entries, at increasing places and complete |
| RunAccounting.RecordEvaluation | internal/poll/run.go:37-67 | The counters grow by the number of create and supersede actions |
| RunAccounting.ErrorsCount | internal/poll/scheduler.go:191-220 | Each checked repo adds at most one error; the count is full iff all erred |
| RunAccounting.EvaluationIsHonest | internal/poll/engine.go:92-655 | An evaluation reports no supersede without a create and no create that the tracker did not acknowledge |
| RunAccounting.CountersAreHonest | internal/poll/run.go:70-79 | Over a run, superseded <= created <= creates acknowledged in the checked repos |
| RunAccounting.RunJobs | internal/poll/scheduler.go:178-241 | The record a run stores over repos polled by the engine satisfies these inequalities, wherever it is interrupted, and is a success only if no poll returned an error and no set-up failed |
| Scheduler.RunLock.TryStart | internal/poll/scheduler.go:477-486 | Succeeds iff nothing runs, then sets the flag and raises the counter |
| Scheduler.RunLock.Finish | internal/poll/scheduler.go:488-494 | Clears flag and run id and lowers the counter, which never drops below zero |
| Scheduler.RunLock.Trigger | internal/poll/scheduler.go:148-168 | A busy scheduler is left alone; a failed insert gives the lock back; otherwise the run id is set |
| Scheduler.RunLock.RunScheduled | internal/poll/scheduler.go:402-422 | A whole scheduled run leaves flag, id and counter as it found them |
| Scheduler.AtMostOneRunInFlight | internal/poll/scheduler.go:148-168 | Under every interleaving, crashes and restarts included, at most one run is in flight, the counter is 1 exactly while the flag is set, and the run id is empty whenever nothing runs |
| Scheduler.RunningRowsAreExplained | internal/poll/scheduler.go:245-262 | While a process is up, a running row is its active run or a run of its own whose finish or insert was not reported stored; runs of dead processes are running only until the next start |
| RunRows.RowsTellTheirRuns | internal/poll/scheduler.go:245-262 | After every history a row whose run reported its end holds exactly that report, for good; every other row has zero counters and is running or failed by the interruption |
| Scheduler.KilledRunIsFollowed | cmd/server/main.go:131-142 | A process killed at any moment can be followed by reconciliation, a new process and a new run, which is then the only running one; the killed run reads as failed by the interruption, with its counters kept |
| Scheduler.ReconciliationIsAStep | internal/poll/reconcile.go:19-47 | However far the reconciliation of the table gets, it is a step of the scheduler's histories, and once it got through the next process may start |
| Scheduler.ShutdownIsFinalExactly | internal/poll/scheduler.go:127-145 | After a nil return no run is in flight and none ever starts, if and only if nothing can call Trigger |
| Reconcile.CollectRunning | internal/poll/reconcile.go:25-38 | The paging loop terminates and collects every running row once, in listing order, for any number of rows |
| Reconcile.ReconcileInterruptedRuns | internal/poll/reconcile.go:19-47 | On success every running row is failed with the interruption as its one error and its counters kept, and no other row changed; after an error exactly the first rows, as many as returned and perhaps the one whose write failed |
| Reconcile.ReconciledIsSettled | internal/poll/reconcile.go:40-46 | The running rows, and no others, are failed with the interruption as their one error, counters preserved; a second reconciliation changes nothing |
| Reconcile.RunningRows | internal/poll/reconcile.go:31-34 | The collected rows are the running ones and no id occurs twice |
| RateLimiter.Bucket.Compact | internal/api/middleware/ratelimit.go:126-131 | Writing over the storage being read keeps exactly the hits after the cutoff, in order |
| RateLimiter.Bucket.Take | internal/api/middleware/ratelimit.go:126-149 | Allowed iff fewer than max hits are active, with the wait until the oldest leaves the window, at least a second |
| RateLimiter.Limiter.Sweep | internal/api/middleware/ratelimit.go:154-164 | Once an interval, drops exactly buckets whose newest hit is out of their window |
| RateLimiter.Limiter.Allow | internal/api/middleware/ratelimit.go:112-150 | Decision and wait are those of the rule over the complete request history, and the bucket holds at most max hits |
| RateLimiter.RequestRefines | internal/api/middleware/ratelimit.go:112-150 | What a compacted bucket counts is what the full history counts, and it still is after the request |
| RateLimiter.SweptRefines | internal/api/middleware/ratelimit.go:152-164 | Forgetting stale buckets loses nothing that can count |
| RateLimitSpec.CountIsBounded | internal/api/middleware/ratelimit.go:133-149 | In every window of a history served by the rule at most max hits of a key are allowed |
| RateLimitSpec.DeniedMeanwhile | internal/api/middleware/ratelimit.go:133-146 | A used-up key stays used up, whatever else is requested, until its oldest counted hit leaves the window |
| RateLimitSpec.RetryAfterIsExact | internal/api/middleware/ratelimit.go:133-149 | After a denial, the next request is allowed if and only if it is made no earlier than the oldest hit plus the window; the returned duration reaches that far |
| RateLimitSpec.WaitIsUntilFree | internal/api/middleware/ratelimit.go:140-145 | The duration ends at exactly that moment, or after a second if that is later |
| RateLimitSpec.HonouringTheHeader | internal/api/middleware/ratelimit.go:193-199 | A client that waits as the header says is allowed if and only if the duration was not rounded down |
| RateLimitSpec.HeaderCanBeTooShort | internal/api/middleware/ratelimit.go:193-199 | A history with such a client: told 59.4 s, it reads 59 and is denied again |
| RateLimitSpec.KeysAreDistinct | internal/api/middleware/ratelimit.go:113-113 | Two clients or endpoints never share a bucket |
| AdfDocument.Converter.Convert | internal/providers/ticket/jira.go:400-435 | The loop with its line buffer and flush produces the paragraphs of the maximal runs of non-blank lines |
| AdfDocument.Converter.Flush | internal/providers/ticket/jira.go:407-422 | One paragraph of the buffered lines, none for an empty buffer, and the buffer is empty afterwards |
| AdfDocument.DocumentIsWellFormed | internal/providers/ticket/jira.go:397-435 | For every text: at least one paragraph, text nodes non-empty and newline-free, hard breaks exactly between consecutive lines |
| AdfDocument.PrintParsesBackExactly | internal/providers/ticket/jira.go:400-435 | Printing a document and converting the print gives it back if and only if it is well formed |
| AdfDocument.ConversionIsNormal | internal/providers/ticket/jira.go:400-435 | Converting, printing and converting again changes nothing |
| AdfDocument.InkIsConserved | internal/providers/ticket/jira.go:403-429 | Every character that is not white space survives, in order, and none is added |
| AdfDocument.LineEndingsAgree | internal/providers/ticket/jira.go:403-404 | CR LF, CR and LF end a line alike |
| ReleasePick.PickNewestRelease | internal/providers/source/release_pick.go:3-20 | No release when the list is empty; otherwise the first of those than which none is later, or as late with a greater tag |
| ReleasePick.LessMeans | internal/providers/source/release_pick.go:15-15 | The order of tags: a proper prefix comes first, otherwise the first difference decides |
| ReleasePick.OrderDoesNotMatter | internal/providers/source/release_pick.go:3-20 | Any re-listing of the same releases gives the same tag and time |
| ReleasePick.RelistingIsSkipped | internal/poll/engine.go:166-182 | A permutation of the list is decided as skip by the poll that stored its tag |
| ReleasePick.ChoiceMovesExactly | internal/providers/source/release_pick.go:3-20 | Between two lists the choice moves iff something newer appeared or every release tied with the old choice went away |
| Integrations.Store.Create | internal/store/integrations.go:59-107 | All or nothing: the table afterwards for every fate of the transaction; the row holds the given fields; refused iff address or flag do not fit the kind |
| Integrations.Store.Update | internal/store/integrations.go:133-184 | As Create; a missing row is not found, an omitted secret or flag keeps the stored one, the kind stays |
| Integrations.Store.Delete | internal/store/integrations.go:186-188 | Removes the row unless something refers to it, and touches no other |
| Integrations.CreateMovesDefault | internal/store/integrations.go:82-89 | The new row becomes the only default of its kind iff it is stored with the flag; other kinds keep theirs |
| Integrations.UpdateMovesDefault | internal/store/integrations.go:156-167 | Set moves the default, cleared takes it from this row only, omitted changes the default of no kind |
| Integrations.OthersKeepAllButTheFlag | internal/store/integrations.go:82-89 | No action touches another row but to take its default flag for the row it is about, of the same kind |
| Integrations.ClearingFirstMatters | internal/store/integrations.go:160-177 | After each statement there is at most one default per kind; without clearing first, iff no other row is the default |
| Integrations.AtMostOneDefault | internal/store/integrations.go:59-188 | After any creates, updates and deletes, rolled back or not, a source kind has at most one default and other kinds none |
| Tokens.TokenService.Validate | internal/api/auth/tokens.go:57-79 | Success means a row with the digest, of the kind, unused and not yet expired; a row that fails one of these is an error; failures are told apart |
| Tokens.TokenService.Consume | internal/api/auth/tokens.go:83-93 | Compare-and-set: it succeeds iff the row was unused, and marks that row only |
| Tokens.TokenService.Reissue | internal/api/auth/password_reset.go:190-220 | After success the new token is the only unused one of its kind and address; tokens of other kinds and addresses are untouched |
| Tokens.StepKeepsInv | internal/api/auth/handlers.go:109-287 | Every step of every request, re-issue and withdrawal keeps: consumed claims and changes made name distinct used tokens |
| Tokens.OneChangePerToken | internal/api/auth/handlers.go:109-287 | In every interleaving a token causes at most one account change, of its own kind: it gives its address to a new account, or changes an account that had its address during the history |
| Tokens.EveryChangeIsInTime | internal/api/auth/tokens.go:57-79 | In every interleaving each account change was made by a request that validated its token before the token expired |
| TokenAddresses.AddressesStayDistinct | internal/api/auth/handlers.go:109-287 | In every interleaving no redemption gives an account the address of another one, or an empty new address |
| Tokens.BadTokenEndsRequest | internal/api/auth/tokens.go:57-79 | A request goes on after validation iff the look-up runs and finds a row with the digest, of the kind, unused and not expired |
| Tokens.WithdrawTakesInvitation | queries/auth_tokens.sql:98-102 | Withdrawing removes the row iff it is an unused invitation, and touches no other |
| Tokens.SpentIsNeverRedeemed | internal/api/auth/tokens.go:81-93 | A used or withdrawn token nobody is past consuming causes no change in any continuation |
| Tokens.InvalidatedIsNeverRedeemed | internal/api/auth/tokens.go:125-157 | A reset or email-change token invalidated by a newer request causes no change any more, even where it was already validated |
| TokenRenewal.NewestTokenOnlyExactly | internal/api/auth/password_reset.go:190-220 | For every history: at every moment, and however the re-issues then under way end, an address has at most one live token if and only if no re-issue gets between its two statements while another is there |
| TokenRenewal.SecondTokenExactly | internal/api/auth/tokens.go:125-157 | From any state with one live token at most, storing what is under way adds no second one if and only if at most one re-issue is under way, and none while a token is live |
| TokenRenewal.AtMostOneLive | internal/api/auth/password_reset.go:190-220 | If re-issues for an address do not overlap, it never has two live tokens |
| TokenRenewal.OverlappingReissuesLeaveTwo | internal/api/auth/password_reset.go:197-215 | Wherever two re-issues are between their statements, storing both tokens leaves two live ones, each redeemable until it expires |
| TokenRenewal.ReissuesCanOverlap | internal/api/auth/password_reset.go:197-215 | Two requests reach that point from the start |
| TokenRedemption.RedeemHasOutcome | internal/api/auth/handlers.go:129-168 | The steps of an undisturbed redemption, whichever fail, come to a rejection, a token used up in vain, or the change |
| TokenRedemption.RedeemedExactly | internal/api/auth/handlers.go:109-287 | Undisturbed, a redemption makes its change iff the token is redeemable, the accounts allow it and its statements go through; the change is the token's, to the account with its address, and the users table shows it; the token is used up iff the compare-and-set was reached |
| TokenHandlers.Handlers.AcceptInvitation | internal/api/auth/handlers.go:109-178 | Whichever statements fail, tokens and users are as the steps of a redemption leave them: check the address, consume, create the user |
| TokenHandlers.Handlers.ResetPassword | internal/api/auth/password_reset.go:107-180 | Likewise: consume first, then load the user |
| TokenHandlers.Handlers.ConfirmEmailChange | internal/api/auth/handlers.go:185-269 | Likewise: load the user, check the new address, consume, change the address |
| CommaList.SplitCommaSeparated | internal/store/repos.go:326-342 | The index loop returns the non-empty texts between commas |
| CommaList.PartsAreIds | internal/store/repos.go:333-336 | No part is empty or holds a comma, for any string |
| CommaList.SplitUndoesJoinExactly | internal/store/repos.go:319-342 | Splitting a joined list gives it back if and only if its members are non-empty and comma-free |
| CommaList.JoinUndoesSplitExactly | internal/store/repos.go:326-342 | Joining the parts gives the string back if and only if it has no stray comma |

## Left out

- PollTheorems.AtMostOneTicketPerTag: assumes that observed releases do not go back between two target changes and that no ambiguous create is repeated without its priority; `PollLimits.OncePerTagExactly` and `PollIdle.OncePerTagInIdleHistories` show that both are needed.
- PollLimits.OncePerTagExactly: about a poll that gets as far as creating and whose other accesses succeed.
- PollPileUp.NoPileUp: assumes that the status mapping stays while the target does, that superseded is not in its open list, and that nobody reopens a ticket.
- Scheduler.ShutdownIsFinalExactly: the time limit of Shutdown's context is a step that may happen instead of the nil return.
- StatusMapping.SpellingDoesNotMatter: case folding covers the ASCII letters only.
- TokenHandlers.Handlers.AcceptInvitation: one request at a time; interleavings are the steps of `Tokens`. The session that is started is not modelled.
- TokenHandlers.Handlers.ResetPassword: as above; a reset's new password is not a value of the model, and neither are the sessions it ends.
- TokenHandlers.Handlers.ConfirmEmailChange: as above, with the sessions it ends.
- Tokens.TokenService.Reissue: assumes that the random id is new.
- RateLimiter.Limiter.Allow: time is assumed not to run backwards between lock acquisitions, although the clock is read before the lock is taken.
- Reconcile.ReconcileInterruptedRuns: the listing order is fixed while it runs, and run ids are unique.
- Integrations.Store.Create: the unique index on defaults is not among the operations, since it is proved never to be violated; encryption of the secret is a given value.
- Admin edits during a run: a run evaluates the rows it loaded at its start, so edits are placed between polls.
- PollOutcomes.SupersedeIsCleanExactly: the text of the comment and the ticket it is put on are not values of the model.
- Several timestamps per poll: one value stands for all of them.
- Kaneo and Linear: their creates have no second attempt and the failure classes of Jira's first one.
- Initial status transition after a create, transition lookup and Jira field mapping: one-branch facts about request bodies.
- HTTP, JSON and SQL themselves, and the clearing of a poll's notification targets.
- Template rendering, web addresses, event references beyond tag and id, logs and notifications.
- Reading the poll interval and rescheduling cron, and the per-run cache of integrations.
- Login, sessions, password hashing, random tokens, encryption, mail, configuration, migrations and the web interface.
- Case-insensitive look-up of email addresses: addresses are taken as normalised.
- `clientIP` and the middleware around `allow`: parsing of request headers.

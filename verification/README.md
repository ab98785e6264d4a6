# Build Mill: run lifecycle, releases and fleet, proved

Build Mill dispatches work items as *runs* that agents claim, beat on, hand back,
pause and lose; it deploys *releases* to servers; and it keeps a *fleet* of agent
machines alive. This project models that behaviour in Dafny and proves what has to
hold whatever the order in which workers, managers and sweeps act.

`dafny verify dfyconfig.toml` checks everything.

| file | what it is about |
|---|---|
| `Runs.dfy` | the rows: runs, members, issues, attempts, agents, and the rules shared by all operations |
| `Steps.dfy` | every write of the run lifecycle as a guarded step on the whole state; runs of the system are sequences of steps |
| `Lifecycle.dfy` | the status diagram, finality, exclusive claims, parked runs |
| `Handback.dfy` | the undo of a dispatch; hand-backs that follow commits |
| `Leases.dfy` | beats, leases and the two sweeps |
| `Columns.dfy` | what each operation writes, read off the columns independently of the step functions; cancels, stops and breakdowns over whole histories |
| `Ledger.dfy` | the attempt ledger and the resume cap |
| `Pool.dfy` | the listing, the refusal, the claim and the idle explanation |
| `Database.dfy` | the same operations as a class that updates its rows statement by statement, each method ending in exactly the state its step describes |
| `Fleet.dfy`, `Repair.dfy` | draining and updating agents over that database; the bounded repair ladder |
| `Releases.dfy`, `Settlement.dfy` | release folders, link and rows; who settles a deploying release |
| `Masking.dfy` | hiding secrets in log lines |
| `Intake.dfy` | the report rate limit and the deduplicating inbox |
| `IgnoreFiles.dfy` | nested ignore files |
| `FleetAlarm.dfy` | the fleet-dark alarm |
| `Spend.dfy` | the daily spend curve |

Times are whole microseconds. Work by other callers is a sequence of arbitrary steps,
so a theorem about `Exec` covers every interleaving. Clocks, the network, the
machines and the database's uninterpreted functions (`run_hold_reason`,
`run_work_units`, project access) are parameters: sets, maps and step arguments.

## Where the code and its own account of itself differ

Each of these is proved, nearly all with the exact condition under which the promise does
hold.

- The park on a question writes without a status guard, so a late one revives a
  finished run (`LateParkIsSafeIff`).
- Deleting an account clears the worker of the runs its agents hold, whatever their
  status; the startup reaper is what finds them (`MannedAlongIff`, `NothingToReapIff`).
- Deleting a story deletes the record of its commits, so a reset may requeue a run whose
  branch carries them (`ResetRequeuesIffLandedDeleted`).
- A stop gives members the run's own dispatch status, not each its own
  (`StopRestoresIff`, `StopMisplacesAStory`).
- A beat shortens a batch claim (`BeatShortensBatchClaimIff`).
- Overlapping pauses pass the resume cap (`PauseOvershootsIff`).
- An agent may be told that it should pick up work that it is not offered
  (`ShouldPickOneUpIsWrongIff`).
- A stopped run that is approved and resumed is held while its issues do not say so
  (`ResumeMarksNothingAgain`, `HeldWorkSaysSo`).
- A failed restart leaves the one agent it was for paused (`JobUpdate`).
- Repair launches may be up to a second closer than their cooldown
  (`CooldownIsKeptIff`, `EarlyLaunch`).
- Retention runs before the health check, so an automatic rollback may point at a
  removed folder (`AutoRollbackAgreesIff`), and always does when one release is kept.
- Cut short in the prune or between it and its bookkeeping, run rows name missing
  folders (`CutShortAgreesIff`, `InterruptedAgreesIff`).
- A settle is guarded by the release's status, not by its run: a retried release can
  be settled by a pipeline, a cancel, a reaper or a sweep of the run before
  (`OwnWordIff`).
- A nested ignore file does not always override the one above it
  (`DeepestFileWinsIff`): `.config/.gitignore` sorts before `.gitignore`.
- Nothing but the single sweeper keeps fleet-dark episodes apart
  (`OneOpenAllAlongIff`).
- Usage dated after today is in the window but on no day of the curve (`CurveAddsUp`).

## Model

| member | source | states |
|---|---|---|
| Lifecycle.StepsFollowTheDiagram | apps/api/app/db.py:5512-5584 | every write to a run, from any caller, keeps the run unless it deletes it, and moves its row along one arrow of the status diagram, with the claim columns that arrow prescribes (to succeeded, failed or stopped by a hand-back reporting just that, from running back to the queue or to cancelled by an acknowledged stop as its cancel reason says), or clears its worker by deleting the agent, or leaves its lifecycle columns alone; the run's org, issue, kind and dispatch-time status never change, and the resume counter rises only on a landed pause |
| Lifecycle.RunStaysIff | infra/supabase/migrations/031_issues.sql:275-278 | a run is there exactly until it, or its issue, is deleted, and its id is never given again |
| Lifecycle.ShapeAlways | apps/api/app/db.py:6540-6550 | after any interleaving, deletions included: queued and cancelled rows hold no claim column at all, running rows hold claim time, expiry and heartbeat, abandoned rows have no worker |
| Lifecycle.MannedAlongIff | infra/supabase/migrations/040_worker_claims.sql:7-10 | every running, parked and stopped run has its worker all along exactly when no agent with such a run is ever deleted: the deletion clears the column whatever the status |
| Lifecycle.TerminalIsFinal | apps/api/app/db.py:7566-7580 | a succeeded, failed, cancelled or abandoned run stays so for as long as it exists, even with the pause split into its read and its guarded write |
| Lifecycle.NewRunsAreQueued | infra/supabase/migrations/258_the_feature_holds_the_steering_wheel.sql:382-401 | a run comes into being only by a dispatch, queued, unclaimed and with no resume spent |
| Lifecycle.ClaimIsExclusive | apps/api/app/db.py:5541-5549 | between two successful claims of one run there is a step at which its worker was cleared |
| Lifecycle.ParkedRunWaits | apps/api/app/db.py:7714-7787 | a parked run keeps its status and its worker over any steps that are neither a resume by that same worker, nor an abandonment, nor the deletion of the worker or the run; one left without its worker leaves its status only by abandonment |
| Lifecycle.LateParkIsSafeIff | apps/api/app/db.py:7673-7691 | the park on a question writes without a status guard: landing late it keeps every row shape and finality exactly when the run is not finished and still has a worker |
| Lifecycle.LateParkRevivesAFinishedRun | apps/api/app/db.py:7673-7691 | a hand-back that lands between that park's read and its write is overwritten: the succeeded run is waiting for input again |
| Lifecycle.NothingToReapIff | apps/api/app/db.py:1617-1639 | over any history, the startup reaper's search for running runs without a worker finds nothing to do with a run at any point exactly when the run's holder was never deleted while it ran |
| Handback.WorkIsKept | apps/api/app/db.py:6513-6533 | for as long as a run exists its members are exactly those it was dispatched over that have not been deleted, each at its dispatch-time status and with at least the commits it had |
| Handback.IssueStaysIff | infra/supabase/migrations/046_force_delete_issues.sql:37-60 | an issue is there exactly until it is deleted |
| Handback.DispatchUndoRoundTrip | apps/api/app/db.py:6536-6582 | dispatch, any steps at all, then a cancel, an acknowledged stop or a commit-free reset: of the issues not deleted meanwhile, every story, and the run's own issue if its kind's dispatch stamps a status, is at its status from before the dispatch; every other, the one under verification included, is as it was just before the undo |
| Handback.DispatchStamps | apps/api/app/db.py:1126-1132 | a verification's dispatch stamps no status on its run, nor do a whole project's runs; every other dispatch stamps the issue's, and each story's on its membership |
| Handback.UndoRestores | apps/api/app/db.py:6957-6983 | the three undos put the members back first and the run's own issue last, and leave the run queued or cancelled |
| Handback.ReleaseUndoesClaim | apps/api/app/db.py:7419-7478 | a claim given back, or taken back by a manager, leaves the whole state as if it had never been claimed |
| Handback.SuccessFollowsCommits | apps/api/app/db.py:201-275 | after a success that lands code a member is in review (or merged) exactly when it has a recorded commit, every other member is back where it stood, and the run's own issue moves along |
| Handback.SuccessElsewhere | apps/api/app/db.py:290-672 | a plan's, PRD's or breakdown's success moves everything it covers, commits or not, to its own review status; the other kinds move no issue |
| Handback.IssuesFollowTheClaim | apps/api/app/db.py:5600-5617 | the claim of a plan or code run marks every issue it covers planning or building; given back right after, they and the run are queued again |
| Handback.HeldWorkStaysMarked | apps/api/app/db.py:7714-7787 | for as long as a run stays held or parked and nobody else writes or deletes one of its issues, that issue's status does not change, whatever beats, pauses, resumes and stop requests come and whatever other runs do |
| Handback.HeldWorkSaysSo | apps/api/app/db.py:5600-5617 | so from its claim on, while it stays held or parked, the issues of a plan or code run say planning or building unless somebody else writes or deletes them |
| Handback.ResumeMarksNothingAgain | apps/api/app/db.py:7823-7865 | a stopped run that is approved and resumed is held by its agent again with every issue where the stop put it |
| Handback.FailureIsShared | apps/api/app/db.py:201-275 | a failed plan or code run marks every member and its own issue failed, landed or not, and nothing else |
| Handback.ResetFollowsCommits | apps/api/app/db.py:6632-6671 | a reset sends a member to review exactly when it has a commit, the others back where each stood; the run ends succeeded if anything landed and queued otherwise |
| Handback.LandedWorkIsNeverRequeuedByReset | apps/api/app/db.py:6734-6801 | once a commit is recorded for a member, no reset at any later time requeues the run as long as one such member is not deleted |
| Handback.ResetRequeuesIffLandedDeleted | infra/supabase/migrations/144_run_item_coverage.sql:47-60 | without new commits that is exact: the record of a commit goes with the issue it is for, so a reset requeues the run when, and only when, every member that had one has been deleted |
| Handback.StopRestoresIff | apps/api/app/db.py:290-672 | a stopped batch puts a member back where it stood exactly when the run's own dispatch status is that same status, or is a review status and the member landed nothing |
| Handback.StopMisplacesAStory | apps/api/app/db.py:290-672 | a planned story of a stopped feature batch comes back as ready, a status it never had |
| Leases.ClaimLeaseIsGenerous | apps/api/app/db.py:5525-5539 | with per-story and total allowances of at least two minutes, a claim of any number of work units gets at least two minutes |
| Leases.HeldSinceLastBeat | apps/api/app/db.py:7314-7332 | whenever a worker holds a run, the row's heartbeat is that worker's last claim, resume or beat, and its expiry is at least two minutes after it, whatever happened since |
| Leases.BeatingWorkerKeepsItsClaim | apps/api/app/db.py:8007-8051 | a worker whose last beat is at most 90 seconds old loses its claim to neither sweep, at any point of any run |
| Leases.BeatShortensBatchClaimIff | apps/api/app/db.py:7314-7332 | a beat ignores work units and the ceiling: it takes time away from the claim exactly when it comes sooner than the extra time the batch was given |
| Leases.StaleSweepRows | apps/api/app/db.py:8007-8051 | a stale sweep parks or requeues exactly the listed stale rows and touches no other run, in whatever order rows are visited |
| Leases.SweepLeavesNothing | apps/api/app/db.py:8135-8166 | after a full sweep no unpushed held running run is expired, and none under a configured worker is silent for over 90 seconds |
| Leases.SweepSparesTheRest | apps/api/app/db.py:8135-8166 | runs with pushed work, runs not running or held by nobody, and runs with a beat in the last 90 seconds and a lease not over come through a sweep unchanged |
| Leases.QuietSweepIsIdle | apps/api/app/db.py:8135-8166 | a second sweep at the same moment changes nothing at all, ledger and issues included |
| Columns.ClaimWrites | apps/api/app/db.py:5501-5620 | a claim lands exactly on a queued run of the agent's org that nothing holds, by an agent not paused, with no other breakdown of its feature succeeded; it writes worker, times and lease on the row, planning or building on the covered issues, and nothing else |
| Columns.LeaseInMinutes | apps/api/app/db.py:5525-5539 | a claim is given the minutes per story times the stories, an uncounted run being one, and never more than the minutes for a whole run: 24 hours for a person and two for an agent by default, 24 hours for the whole |
| Columns.ExtendWrites | apps/api/app/db.py:7280-7341 | only the holder of a running run renews its heartbeat and its expiry |
| Columns.ResumeWrites | apps/api/app/db.py:7714-7787 | only the recorded worker of a parked run of its own org takes it back, with a fresh claim |
| Columns.ReleaseWrites | apps/api/app/db.py:7419-7478 | the holder, or for a manager any running run: the row is freed, keeping a pending stop and a cancel reason, and the covered issues of a plan or code run wait again |
| Columns.CompletionWrites | apps/api/app/db.py:290-672 | a hand-back lands once, on a running run, which ends succeeded, failed or stopped exactly as reported; an attempt is charged for a failure alone, and every issue of every kind of run goes where the outcome sends it |
| Columns.FailureWrites | apps/api/app/db.py:1617-1639 | a run failed outside a hand-back charges nothing; the reaper fails a running run without a worker and marks its own issue, four kinds aside |
| Columns.CancelWrites | apps/api/app/db.py:6585-6629 | a cancel with a reason puts reason and stop request on a running row, keeping the first request's time, and retires and undoes a queued run at once; any other is refused |
| Columns.HardCancelWrites | apps/api/app/db.py:7024-7038 | a queued or running row is retired with its reason, its issues left where they are |
| Columns.StopRequestWrites | apps/api/app/db.py:6904-6921 | a stop request is stamped once, on a running run |
| Columns.AcknowledgementWrites | apps/api/app/db.py:6924-7003 | an acknowledged stop, by the holder and with a request pending, retires a run with a non-empty cancel reason and queues any other; its issues go back either way |
| Columns.ResetWrites | apps/api/app/db.py:6705-6808 | a reset of a queued or running run ends it succeeded with its stories split by commit if one of them has a commit, and otherwise queues it and undoes it; a pending stop request survives only the second |
| Columns.PauseWrites | apps/api/app/db.py:7537-7580 | a pause is let through under the recorded worker's cap, three if none is set, and lands on a run still running, counting one resume |
| Columns.QuestionWrites | apps/api/app/db.py:7659-7711 | a running run is parked on a question with its worker kept and its claim let go |
| Columns.ParkedWrites | apps/api/app/db.py:7823-7954 | only a stopped run of the org with a worker and a session becomes resumable; only a parked run of the org is abandoned, losing its worker |
| Columns.SilenceWrites | apps/api/app/db.py:8007-8051 | a held, unpushed run of a configured agent whose last beat, or claim, is over 90 seconds old waits for it if there is a session, and is otherwise freed and charged; any other row is left alone |
| Columns.ExpiryWrites | apps/api/app/db.py:8138-8153 | a held, unpushed run whose lease ended before now is freed and charged; any other row is left alone |
| Columns.FullSweepWrites | apps/api/app/db.py:8135-8166 | over a whole sweep, in any order of its rows: silent rows wait or are freed, expired ones are freed, and a row with pushed work, or not running, always comes through unchanged |
| Columns.CancelAsksTheHolder | apps/api/app/db.py:6613-6619 | after a cancel of a running run its holder has a stop to acknowledge, the reason is on the row and an earlier request keeps its time; the same for a plain stop request, which writes no reason |
| Columns.CancelledToTheEnd | apps/api/app/db.py:6924-6983 | dispatch, anything at all until it is held, cancel and acknowledge: the run is retired with the reason and every issue not deleted meanwhile is where it was at dispatch |
| Columns.StoppedToTheEnd | apps/api/app/db.py:6904-6983 | the same for a plain stop request, which sends the run back to the queue unless a cancel came before it |
| Columns.CancelIsNeverForgotten | apps/api/app/db.py:6951-6955 | over every history after a cancel of a running run, requeues, new claims and resumes included, whichever stop is acknowledged next retires the run |
| Columns.BreakdownClaimIff | apps/api/app/db.py:5561-5570 | a free breakdown of a feature is claimed exactly when no other breakdown of that feature has succeeded |
| Columns.OneBreakdownEach | apps/api/app/db.py:5561-5570 | once a breakdown of a feature has succeeded, no claim of another one changes anything, over every history in which the first is not deleted |
| Columns.DispatchWrites | infra/supabase/migrations/258_the_feature_holds_the_steering_wheel.sql:382-401 | a dispatch with a new id over existing issues, the leading one not blocked and several stories only as code, adds a bare queued run, stamps the statuses it found on run and stories, and queues what a plan, code or merge run covers |
| Columns.CommitWrites | infra/supabase/migrations/144_run_item_coverage.sql:47-60 | a recorded commit is added to that run's place for that story and nowhere else |
| Columns.ClearingWrites | apps/api/app/db.py:761-855 | releasing a block does what clearing the attempts of a blocked item does, and nothing to an item not blocked |
| Columns.DeletionWrites | infra/supabase/migrations/046_force_delete_issues.sql:37-60 | an issue goes with exactly the runs it heads, its place in every other run and its attempts; an agent with its settings and access, its runs left without a worker |
| Columns.FlagWrites | apps/api/app/agent_provision.py:1258-1267 | the paused flag of one known agent is written, its other settings kept or made with their defaults |
| Ledger.StepLedger | apps/api/app/db.py:674-699 | of all steps only a failed hand-back, an expired lease and a silence that requeues add an attempt row; only the two clears and the deletion of the item remove any |
| Ledger.LedgerIsConserved | apps/api/app/db.py:369-387 | an issue's attempt rows, and one agent's on it, number exactly the spending steps since the issue was last cleared or deleted, whatever runs and agents are deleted meanwhile |
| Ledger.CapHolds | apps/api/app/db.py:7547-7577 | with pauses of a run not overlapping, no run's resume counter ever exceeds a number that no agent holding a run has a higher cap than, whatever the caps of the others |
| Ledger.PauseOvershootsIff | apps/api/app/db.py:7566-7580 | a landed pause passes the cap exactly when the check made at its read would fail at its write |
| Ledger.OverlappingPausesOvershoot | apps/api/app/db.py:7517-7603 | two pauses that both read before either wrote, with a resume between the writes, leave a run paused one past its cap |
| Pool.ListingIsRefusalAndClaim | apps/api/app/db.py:4833-4903 | the listing is exactly the runs the refusal gate passes and the claim's own guard would take, the duplicate-breakdown rule aside |
| Pool.ListedMeansClaimable | apps/api/app/db.py:5424-5478 | for a run not refused, the claim succeeds exactly when the run was listed and is not a second breakdown of its feature |
| Pool.IdleReasonsAreTrue | apps/api/app/db.py:4964-5078 | paused, no roles, nothing queued, queue held and no grants each imply an empty listing |
| Pool.ShouldPickOneUpIsWrongIff | apps/api/app/db.py:4964-5078 | telling an agent that it should pick work up is wrong exactly when every run it counted is blocked or exhausted for that agent |
| Pool.RefusalOrder | apps/api/app/db.py:5424-5478 | a refusal says that the item is blocked before that the agent has tried it enough, that before the kind is unchecked, and that before there is no access; each exactly when it is so and nothing before it is |
| Pool.FirstReasonThatIsSo | apps/api/app/db.py:4964-5078 | the explanation of an idle agent is the first of its ten reasons, in their order of precedence, that the rows bear out |
| Database.Db.constructor | apps/api/app/db.py:5501-5512 | a database over given rows |
| Database.Db.ClaimRun | apps/api/app/db.py:5501-5620 | performs exactly the claim step: true exactly when the run was claimable, and then the row is held with its bounded lease and its issues marked |
| Database.Db.ExtendClaim | apps/api/app/db.py:7280-7341 | renews heartbeat and expiry exactly for the holder of a running claim |
| Database.Db.ResumeClaim | apps/api/app/db.py:7714-7787 | takes a parked run back exactly for the worker recorded on it |
| Database.Db.ReleaseClaim | apps/api/app/db.py:7419-7478 | lets a held claim go and queues the run and its issues again, and nothing otherwise |
| Database.Db.ForceRequeueRun | apps/api/app/db.py:6337-6386 | the same for any running run, whoever holds it |
| Database.Db.CompleteRun | apps/api/app/db.py:290-672 | lands an outcome once: status, session, one attempt row on failure, and the issues' fan-out; a run that is not running is left alone |
| Database.Db.FanOutIssueStatus | apps/api/app/db.py:201-275 | the two updates, the loop and the own-issue write together give the per-issue rule: landed forward, others back, the run's own issue along |
| Database.Db.FailRunMinimal | apps/api/app/db.py:990-1032 | marks a running run failed and writes nothing else |
| Database.Db.RecordRunAttempt | apps/api/app/db.py:674-699 | appends one attempt for the run's issue, none when it has no issue |
| Database.Db.RestoreMembers | apps/api/app/db.py:6513-6533 | the member loop puts every member, in any order, back at its own dispatch-time status or planned, and no other issue |
| Database.Db.RestoreRunIssues | apps/api/app/db.py:6513-6533 | members first, then the run's own issue, at its dispatch-time status or its kind's fallback |
| Database.Db.RecordCancel | apps/api/app/db.py:6536-6582 | retires the row with every claim column cleared and restores its issues |
| Database.Db.CancelRun | apps/api/app/db.py:6585-6629 | a queued run is retired and undone at once, a running one only asked to stop with the first request's time kept; a cancel without a reason is refused |
| Database.Db.CancelActiveRun | apps/api/app/db.py:7024-7038 | retires a queued or running row without touching its issues |
| Database.Db.ResetRunSplit | apps/api/app/db.py:6632-6702 | the run ends succeeded and unclaimed, members split by commit, the run's own issue in review |
| Database.Db.ResetRun | apps/api/app/db.py:6705-6808 | splits when anything landed, otherwise requeues the run and restores its issues; finished and parked runs are refused |
| Database.Db.RequestRunStop | apps/api/app/db.py:6904-6921 | stamps the stop request of a running run, the first time only |
| Database.Db.AcknowledgeStop | apps/api/app/db.py:6924-7003 | honoured only for the holder of a running run with a stop pending: a run with a cancel reason is retired, any other requeued, issues restored |
| Database.Db.PauseRead | apps/api/app/db.py:7537-7564 | the pause's read: running, and under the cap of its recorded worker |
| Database.Db.PauseWrite | apps/api/app/db.py:7566-7580 | the pause's guarded write: lands only on a run still running, counts one resume and keeps the worker |
| Database.Db.AwaitingInputRun | apps/api/app/db.py:7659-7711 | parks a running run on a question, its worker kept |
| Database.Db.MarkStoppedResumable | apps/api/app/db.py:7823-7865 | makes a stopped run of the org with a worker and a session resumable, and no other; true exactly when it did |
| Database.Db.AbandonRun | apps/api/app/db.py:7902-7954 | ends a parked run of the org and clears its worker; true exactly when it did |
| Database.Db.ReleaseAttemptBlock | apps/api/app/db.py:761-796 | clears a block together with the item's attempt rows, exactly when there is one, and says so |
| Database.Db.ResetIssueAttempts | apps/api/app/db.py:799-855 | clears an item's attempt rows whether or not it is blocked, and answers how many there were |
| Database.Db.DeleteIssue | infra/supabase/migrations/046_force_delete_issues.sql:37-60 | an item goes with its own runs, its place and commits in other runs, and its attempts; true exactly when it was there |
| Database.Db.RemoveAgent | apps/api/app/routers/admin.py:412-453 | an account's deletion takes an agent with its settings and access, and leaves the runs that name it without a worker |
| Database.Db.RequeueStaleHeartbeats | apps/api/app/db.py:8007-8132 | one statement over all silent rows and a loop over what it returned equal row-by-row sweeps of exactly the silent rows not locked elsewhere |
| Database.Db.RequeueLapsedLeases | apps/api/app/db.py:8138-8226 | the same for expired leases |
| Database.Db.RequeueExpiredClaims | apps/api/app/db.py:8135-8226 | the stale sweep then the expiry sweep; with no row locked elsewhere nothing stale and nothing expired is left |
| Database.Db.SetPaused | apps/api/app/agent_provision.py:1258-1267 | upserts the agent's settings row, leaving everything but the flag as it was |
| Fleet.PausedAgentGainsOnlyByResume | apps/api/app/db.py:5542-5549 | whatever single step anyone takes, a paused idle agent becomes busy exactly when the step is its own resume of a run parked with it |
| Fleet.DrainedStaysIdle | apps/api/app/agent_provision.py:1282-1304 | once paused and idle, an agent stays paused over any steps that neither write its flag nor delete it, and holds no running run if none of them is its own resume |
| Fleet.FlagsKept | apps/api/app/agent_provision.py:1258-1267 | steps that neither write an agent's flag nor delete it keep its flag and registration, resumes and all |
| Fleet.Drain | apps/api/app/agent_provision.py:1282-1304 | answers true exactly when the agent is idle at that moment and leaves it paused; every look before the last found it busy, and it gives up only when the looks, ten seconds apart, have reached the ceiling; all that happened is the pause and what the others did between looks |
| Fleet.UpdateSlot | apps/api/app/agent_provision.py:2056-2141 | a slot is restarted only when drained and skipped otherwise, and gets its flag back either way; at the place in the history right before the flag is put back, where the restart is, its agent is idle unless it resumed a run since it was found drained; a slot skipped has a place in the history where the ceiling was reached with its agent busy; a failed restart leaves it paused |
| Fleet.JobUpdate | apps/api/app/agent_provision.py:2054-2141 | on normal return every slot that is not off is restarted or skipped and paused exactly if it was meant to be, and slots that are off keep their flag; no failed machine is passed over; in the history of the whole job each skipped slot has the place where its wait reached the ceiling with its agent busy, and each restarted slot has the place where it was found paused and idle and the later place of its restart, and is idle there too unless its agent resumed a run in between; on a failed slot the later ones are untouched and, if its restart failed, that one agent stays paused |
| Repair.RepairIsBounded | apps/api/app/agent_provision.py:2534-2628 | between two probes that see a slot up, the launched jobs are a prefix of restart, reissue token, update, and each launch is over 15 minutes after the recorded time of the one before |
| Repair.ThenAHumanIsCalled | apps/api/app/agent_provision.py:2581-2628 | after the third rung nothing more is launched until a probe sees the slot up, and the next sweep that lists it flags it |
| Repair.LaunchesAreAlmostFifteenMinutesApart | apps/api/app/agent_provision.py:1825-1826 | launch times of an episode are more than 14 min 59 s apart: the stored time has no fraction of a second |
| Repair.CooldownIsKeptIff | apps/api/app/agent_provision.py:2551-2578 | after a launch the slot is not listed again for fifteen minutes, whenever the sweeps come, exactly when the launch fell on a whole second |
| Repair.EarlyLaunch | apps/api/app/agent_provision.py:1825-1826 | a concrete pair of sweeps whose launches are under 15 minutes apart |
| Repair.SweepWrites | apps/api/app/agent_provision.py:2534-2628 | a down or idle slot, not flagged and untouched for fifteen minutes, gets its next rung if its host is free, restart, then token, then update, and is flagged after the third; any other sweep leaves it alone |
| Repair.ProbeWrites | apps/api/app/agent_provision.py:2402-2412 | a probe writes what it saw, and only one that sees the slot up starts the ladder over |
| Repair.Repairer.Climb | apps/api/app/agent_provision.py:2587-2628 | one listed slot: its next rung if its host is free, nothing if not, the flag if there is no rung left |
| Repair.Repairer.CreateJob | apps/api/app/agent_provision.py:1322-1346 | one job per host: refused while the host has one |
| Repair.Repairer.AutoRepairSweep | apps/api/app/agent_provision.py:2581-2628 | climbs exactly one rung for each slot it gives a job, flags those past the last rung, gives no host two jobs, leaves no slot with a rung left on a free host, and touches no other slot |
| Repair.Repairer.ProbeSlot | apps/api/app/agent_provision.py:2402-2412 | records the probed state and resets the ladder exactly when the slot is up |
| Releases.FlipAndPrune | apps/api/app/deploy.py:1700-1760 | after a flip and prune exactly the newest `keep_releases` folders remain, the new one live and among them |
| Releases.PruneIsWrittenOff | apps/api/app/deploy.py:854-863 | once every pruned name is written off, every succeeded run that names a folder names one that exists |
| Releases.PreviousIsKeptIff | apps/api/app/deploy.py:1733-1746 | the previously live folder outlives the prune exactly when fewer than `keep_releases` folders, the new one counted, are newer |
| Releases.AutoRollbackAgreesIff | apps/api/app/deploy.py:1788-1838 | the prune comes before the health check: an automatic rollback leaves `current` and the run rows in agreement with the folders exactly when the previous release was kept |
| Releases.KeepOneRollbackDangles | apps/api/app/deploy.py:1788-1838 | keeping one release, an automatic rollback always points `current` at a removed folder |
| Releases.InterruptedAgreesIff | apps/api/app/deploy.py:1747-1754 | ended part way through the bookkeeping, the rows agree exactly when no succeeded run names a pruned folder not yet written off |
| Releases.CutShortAgreesIff | apps/api/app/deploy.py:1733-1746 | ended in the middle of the prune, the rows agree exactly when no succeeded run names a folder already removed |
| Releases.EventAgreesIff | apps/api/app/deploy.py:1788-1838 | a deploy, however it ends, or a rollback keeps rows and link in agreement with the folders exactly when an automatic rollback finds its release kept and an early end leaves no succeeded run naming a folder that is gone |
| Releases.TargetAgreesIff | apps/api/app/deploy.py:2264-2294 | over any mix of deploys and rollbacks with new stamps, every succeeded run with a path names an existing folder and `current` points at one all along exactly when each of them is so fortunate |
| Releases.FlipKeepsItsOwn | apps/api/app/deploy.py:1733-1746 | the release being deployed is never pruned nor written off, whatever the folder names |
| Releases.FolderJoins | apps/api/app/deploy.py:1607-1617 | a new folder takes its place in the sorted listing, and one that is there stays |
| Releases.EarlyEndLeaves | apps/api/app/deploy.py:1700-1760 | a deploy that ends before its prune is done has not succeeded, and has moved `current` only if it got past the flip |
| Releases.LateEndLeaves | apps/api/app/deploy.py:1747-1838 | from the prune on only the newest `keep_releases` folders are left, five if that is not set; the run succeeds only on a healthy end, and an unhealthy one puts `current` back with a rollback row of its own |
| Releases.ShortPruneRemoves | apps/api/app/deploy.py:1733-1746 | ended after a number of removals, a prune has removed the oldest that many of the names it would have |
| Releases.RollbackLeaves | apps/api/app/deploy.py:2264-2294 | a rollback succeeds and moves `current` exactly when its folder is there, and no folder comes or goes |
| Releases.Target.constructor | apps/api/app/deploy.py:1607-1617 | a deployment target with given folders, link and rows |
| Releases.Target.MakeFolder | apps/api/app/deploy.py:1607-1617 | the folder joins the sorted listing once, in its place |
| Releases.Target.Prune | apps/api/app/deploy.py:1733-1746 | removes every listed name beyond the newest `keep` except the live one, and reports exactly what it removed |
| Releases.Target.PruneCutShort | apps/api/app/deploy.py:1733-1746 | ended after a number of removals, has removed that many of the same names, oldest first |
| Releases.Target.WriteOff | apps/api/app/deploy.py:854-863 | clears the path of every row naming one of the first `count` names, and of no other |
| Releases.Target.RunDeploy | apps/api/app/deploy.py:1700-1838 | the deploy's writes in order, to the end of its course, give the deploy event |
| Releases.Target.RunRollback | apps/api/app/deploy.py:2264-2294 | a rollback to a missing folder fails and moves nothing, to an existing one repoints `current` |
| Settlement.FirstWriterWins | apps/api/app/deploy.py:784-812 | once a release has left `deploying` no pipeline end, reaper, cancel or sweep moves it again before it is launched again or a person decides |
| Settlement.AlwaysHonest | apps/api/app/deploy.py:371-481 | in every interleaving, each success a pipeline, a run row or a sweep's reading still reports was recorded by that run's pipeline |
| Settlement.OneStepDeploys | apps/api/app/deploy.py:1305-1322 | the step that makes a release deployed is made on the word of a run of that release recorded succeeded |
| Settlement.DeployedOnlyAfterSuccess | apps/api/app/deploy.py:1305-1322 | a release that became deployed was preceded by a pipeline of its own recording success, at a step the lemma finds |
| Settlement.SettleMovesIff | apps/api/app/deploy.py:784-812 | of all steps but a launch's and a person's, exactly a pipeline's settle, an owed settle and a sweep acting on its reading move a release, exactly when it is deploying, on the word of any run of it |
| Settlement.OwnWordIff | apps/api/app/routers/releases.py:457-488 | whatever happens before the next launch, a deploying release is settled on its present run's word exactly when no other run of it is in flight, unfinished, being cancelled or owed a settle and no sweep holds a reading of another that it would act on |
| Settlement.RetryIsSettledByTheFirstRun | apps/api/app/routers/releases.py:387-498 | so a release given up by the sweep and retried is marked deployed by its first run's late success while the retry has not begun |
| Settlement.SweepLeavesNoneStranded | apps/api/app/deploy.py:371-481 | after a sweep a release is still deploying exactly when its run is under way and alive here or younger than its timeout plus five minutes, deployed exactly when its run succeeded, failed otherwise; runs alive here are untouched |
| Settlement.SweepIsIdleIff | apps/api/app/deploy.py:371-481 | a sweep changes nothing exactly when no release is stranded, and an immediate second sweep never does |
| Settlement.VerdictsAre | apps/api/app/deploy.py:371-481 | a sweep leaves a run in flight alone while its pipeline is alive here or it is younger than its timeout, thirty minutes if it has none, plus five; past that it fails run and release; a finished run's outcome is the release's, and no run is a failure |
| Settlement.LaunchWrites | apps/api/app/routers/releases.py:387-498 | a launch adds a queued run and then points its release at it, as deploying; a person's verdict takes the release out of deploying |
| Settlement.PipelineWrites | apps/api/app/deploy.py:1305-1322 | a pipeline in flight marks its run begun and records how it ended; one that vanishes records nothing |
| Settlement.PipelineSettleWrites | apps/api/app/deploy.py:784-812 | a pipeline settles its run's release as deployed exactly when it recorded success, and only a release still deploying |
| Settlement.ReapWrites | apps/api/app/deploy.py:325-368 | the reaper fails a queued or running row and owes its release a settle as failed; a finished row is left alone |
| Settlement.CancelWrites | apps/api/app/deploy.py:1155-1207 | a cancel asked of an active run fails the row if it is active still when flipped, and owes the release a settle as failed either way |
| Settlement.OwedSettleWrites | apps/api/app/deploy.py:784-812 | an owed settle marks the run's release failed if it is still deploying |
| Settlement.ActWrites | apps/api/app/deploy.py:371-481 | a sweep acts on what it read: the release is settled by the verdict if it is still deploying, and a lost run is failed if it is still unfinished |
| Settlement.Deployments.constructor | apps/api/app/deploy.py:371-420 | the releases, runs and live pipelines one sweep sees |
| Settlement.Deployments.SettleStranded | apps/api/app/deploy.py:371-481 | the loop over the rows read at the start, in any order, reaches that swept state, and reports exactly the releases it moved |
| Masking.NoSecretSurvives | apps/api/app/deploy.py:569-585 | no marker-free listed secret can be found anywhere in a masked line, whatever the order of the list |
| Masking.MaskInventsNothing | apps/api/app/deploy.py:569-585 | every marker-free stretch of a masked line stood in the line |
| Masking.SecretIsHiddenWhole | apps/api/app/agent_provision.py:249-265 | longest first, a secret in a line becomes exactly one marker with nothing of it left on either side, unless another occurrence overlaps its ends |
| Masking.ShortestFirstLeaksTheTail | apps/api/app/agent_provision.py:250-254 | in the other order the tail of a secret that extends another is left in the log |
| Masking.DeploySecrets | apps/api/app/deploy.py:573-575 | the deploy masker's list is longest first and holds exactly the values of three characters or more |
| Masking.SortIsLongestFirst | apps/api/app/deploy.py:573-575 | the sort keeps every value, duplicates counted, and orders them by length |
| Masking.MaskDeployLine | apps/api/app/deploy.py:569-585 | no marker-free value of three characters or more is left in the line, nothing is added but markers of four bullets, and a line with no such value is unchanged |
| Masking.NoTokenIsLeft | apps/api/app/agent_provision.py:261-263 | after the final substitution no `sfw_` token of eight or more hex digits begins anywhere in the line |
| Masking.HidingTokensInventsNothing | apps/api/app/agent_provision.py:261-263 | the substitution brings no marker-free stretch into being, so it brings no secret back |
| Masking.MaskAgentLine | apps/api/app/agent_provision.py:249-265 | no marker-free secret of four characters or more is left, no token is, nothing is added but markers of six bullets, and a line with neither is unchanged |
| Masking.CleanLineIsKept | apps/api/app/deploy.py:569-585 | a line in which no listed secret occurs comes through as it is |
| Masking.TokenIs | apps/api/app/agent_provision.py:261-263 | a token is `sfw_` and eight lower-case hex digits, whatever follows |
| Masking.TokenIsHiddenWhole | apps/api/app/agent_provision.py:261-263 | a token is replaced with all its digits and nothing after them, and the rest of the line is masked on its own |
| Intake.NoMinuteOverflows | apps/api/app/app_issues.py:137-144 | however reports come, no closed 60 seconds of any deployment hold more than 120 that were let in |
| Intake.Intake.constructor | apps/api/app/app_issues.py:45-47 | an empty intake |
| Intake.Intake.CheckRate | apps/api/app/app_issues.py:137-144 | the bucket popped from the left lets a report in exactly when fewer than 120 of that deployment's were let in during the last 60 seconds, both ends counted; other deployments are unaffected |
| Intake.EveryReportIsCounted | apps/api/app/app_issues.py:345-376 | the occurrence counts of a deployment's rows with a fingerprint add up to the reports let in with it, however rows are triaged meanwhile |
| Intake.OneOpenRowEach | apps/api/app/app_issues.py:345-362 | a deployment has at most one new or triaged row per fingerprint at any time |
| Intake.ArrivalWrites | apps/api/app/app_issues.py:137-144 | a report is let in, filed and remembered exactly when fewer than 120 of its deployment's were let in during the last 60 seconds; otherwise nothing happens |
| Intake.FilingWrites | apps/api/app/app_issues.py:334-376 | a report adds one to its problem's new or triaged row if there is one, and otherwise gets a row of its own, ignored if it is the setup check and new if not |
| Intake.RetriageWrites | apps/api/app/app_issues.py:345-362 | a triage lands unless it would open a second row for the problem |
| Intake.Intake.IngestReport | apps/api/app/app_issues.py:284-376 | a report let in adds one to the open row it repeats, or files its own; a refused one changes no row |
| IgnoreFiles.Ignored | apps/api/app/changesets.py:136-160 | the nested loops answer what the last pattern with a say, in walk order, says; no when none has one |
| IgnoreFiles.IgnoredPaths | apps/api/app/changesets.py:163-187 | exactly the non-empty untracked paths the matcher ignores are reported |
| IgnoreFiles.AncestorIsWalkedFirstIff | apps/api/app/changesets.py:129-131 | an ignore file is walked before one below it exactly when the next directory on the way does not sort before `.gitignore` |
| IgnoreFiles.DeeperFileWins | apps/api/app/changesets.py:144-158 | when no directory on the way to a path sorts before `.gitignore`, the deepest file with a say always decides |
| IgnoreFiles.DeepestFileWinsIff | apps/api/app/changesets.py:129-158 | of any set of ignore files the deepest with a say decides, by its own last pattern that has one, exactly when no shallower file with a say has, right below it on the way to the path, a directory that sorts before `.gitignore` |
| IgnoreFiles.ConfigIsOverruled | apps/api/app/changesets.py:129-158 | a file in `.config/` that takes a path back is overruled by the root's that ignores it |
| FleetAlarm.Decide | apps/api/app/fleet_alarm.py:55-85 | the loop's two lists are the orgs gone dark and the episodes whose org has a live agent again |
| FleetAlarm.OneEpisodeAtATime | apps/api/app/fleet_alarm.py:102-152 | over any run of beats, changes and sweeps an org has at most one open episode, opens and closes strictly alternate, and each episode is told exactly once |
| FleetAlarm.SweepOpensIff | apps/api/app/fleet_alarm.py:71-84 | a sweep opens one episode for an org exactly when none is open and its newest beat is over two minutes and at most seven days old; its liveness count then is zero by itself |
| FleetAlarm.SweepClosesIff | apps/api/app/fleet_alarm.py:72-76 | a sweep closes an org's open episode exactly when some agent of it is live |
| FleetAlarm.SilenceIs | apps/api/app/db.py:5090-5118 | an org is silent when no active agent of it was heard from in the last two minutes and some one was in the last seven days |
| FleetAlarm.LivenessIs | apps/api/app/db.py:5090-5118 | an org has a live agent when some active one is connected and was heard from within 90 seconds |
| FleetAlarm.AgentsAreCounted | apps/api/app/db.py:5090-5118 | an org is in the presence read exactly when it has an active agent |
| FleetAlarm.SweepDates | apps/api/app/fleet_alarm.py:102-152 | a new episode is of a silent org, starts at its newest beat, is open and told once; an old one stays as it is, or ends at the sweep if it was open |
| FleetAlarm.BeatingOrgStaysQuiet | apps/api/app/fleet_alarm.py:102-152 | an org whose newest beat is never over two minutes old at a sweep never gets an episode |
| FleetAlarm.OneOpenAllAlongIff | apps/api/app/db.py:5130-5140 | no unique index backs this: with any number of sweepers interleaving their reads and writes, an org has at most one open episode all along exactly when every open is written while the org has none |
| FleetAlarm.ToldPendingOrLost | apps/api/app/fleet_alarm.py:119-146 | of every episode, however the sweepers interleave, the notice has been given once, or is still to be given, or was lost with its sweeper; never twice |
| FleetAlarm.TwoSweepersTellTwice | apps/api/app/fleet_alarm.py:102-152 | two sweepers that have both read an org as dark open two episodes of one outage and tell its managers of both |
| FleetAlarm.Alarm.constructor | apps/api/app/db.py:5090-5118 | an org list and its agents, with no episode yet |
| FleetAlarm.Alarm.FleetDarkSweep | apps/api/app/fleet_alarm.py:102-152 | the row-by-row opens and closes reach the swept state and are counted right |
| Spend.Window | apps/api/app/db.py:3536-3539 | between 1 and 366 days |
| Spend.WindowIs | apps/api/app/db.py:3536-3539 | thirty days unless another number is given, never under one nor over 366 |
| Spend.AgeDecides | apps/api/app/db.py:3542-3572 | usage is in the window when younger than that many days, and read at all when younger than twice as many; days are calendar days of UTC |
| Spend.GroupedShares | apps/api/app/db.py:3558-3572 | the grouped query has one row per day and side of the cutoff, holding exactly the usage of that day and side |
| Spend.SpendTrend | apps/api/app/db.py:3513-3615 | the curve has one entry for each of the N+1 consecutive days to today, holding exactly that day's usage inside the window; the previous total is all fetched usage before it |
| Spend.CurveAddsUp | apps/api/app/db.py:3542-3615 | the days add up to everything inside the window except usage dated after today |
| Spend.NothingDroppedOrCountedTwice | apps/api/app/db.py:3542-3615 | with no future-dated usage, the days add up to the window's total, and with the previous total to every fetched row, each counted once |

## Left out

- Database.Db.AwaitingInputRun: its read and its unguarded write are one step here; `LateParkIsSafeIff` says exactly when the write alone would do harm.
- Database.Db.CompleteRun: output columns, artifacts, branch and pull request, timings, events and the release status it may write are not modelled; nor is who may call it, which its caller decides.
- Database.Db.ResetRun: discarding draft artifacts, and the events, are not modelled.
- Database.Db.ClaimRun: the refusal of a malformed run id, the snapshot it returns and the activity record are not modelled.
- Pool.IdleReasonsAreTrue: the three connections of the explanation are read as one snapshot, and whether a model resolves is a flag.
- Pool.ListingIsRefusalAndClaim: the order of the listing is not modelled.
- Ledger.LedgerIsConserved: the latch that blocks an item at its ceiling is a free step (`Block`), since the trigger that sets it is not part of this model; the refusal of an attempt by that trigger is left out.
- Fleet.JobUpdate: re-pointing a slot's environment, code upload and probing are one flag for whether the machine's part succeeds; the state of a restart is a specification-only result; the wait between polls is exactly ten seconds.
- Repair.Repairer.AutoRepairSweep: the order and the limit of three listed slots are the caller's; the counter is written in one step with the launch.
- Repair.RepairIsBounded: a probe's read of the slots and its writes are one step. The probe runs as its host's one job, so no repair is launched in between; a flag set from an older listing could still be.
- Releases.TargetAgreesIff: release names are ordered numbers, and a deploy's stamp is later than every folder's, as its clock makes it; one deploy at a time per target, as the single-flight lock keeps it.
- Settlement.OwnWordIff: the refusal of a second run while a deployment has one under way is not modelled, so a launch may come at any time.
- Settlement.Deployments.SettleStranded: proved with no other writer during the sweep; the interleaved sweep is the `Look` and `Act` steps of the same module.
- Masking.SecretIsHiddenWhole: says nothing where occurrences of secrets overlap; there one of them is still replaced, and `NoSecretSurvives` holds.
- IgnoreFiles.Ignored: pathspec's reading of a pattern is a function of the path; splitting a file into lines is not modelled.
- FleetAlarm.OneEpisodeAtATime: one session per agent, and each sweep runs to its end with nothing in between; `OneOpenAllAlongIff` and `ToldPendingOrLost` interleave reads and writes freely. The platform issue filed for an episode is not modelled.
- Spend.SpendTrend: costs are whole micro-dollars, so rounding and floating point are left out; the database and the API read one clock.
- Intake.Intake.IngestReport: truncation, titles, fingerprint computation and deletion of a deployment are not modelled; a row's id is its place.
- Lifecycle.RunStaysIff: the deletion of a project or an organization is that of its issues, runs and agents, one after another; what else goes with them is not modelled, and new issues are not created.
- `sweep_unattended_resumable`: it acts only through `abandon_run`, which is modelled; its time-to-live is not.
- Stage resets and provider requests: they add only unguarded status writes of other entities.
- Incident episodes, host status and the placement sweeps: easy members with no property across operations.
- `validate_changeset`, `split_scratch` and `scratch_paths`: one-pass filters.
- SSH, systemd, GitHub, storage, notifications, events and traces: only the effect of a step on a row, a folder or a link is modelled.

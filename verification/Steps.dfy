/** Every write the run lifecycle performs, as a guarded step on the whole state,
    and runs of the system as sequences of such steps. */
module Steps {
  import opened Runs

  datatype Step =
    // the world
    | Tick(elapsed: nat)
    | Configure(env: Env)
    | SetPaused(w: WorkerId, paused: bool)
    | Dispatch(id: RunId, issue: Option<IssueId>, stories: set<IssueId>, org: OrgId, project: ProjectId, kind: Kind)
    | WriteIssue(issueId: IssueId, newStatus: IssueStatus)
    | Block(issueId: IssueId)
    | Push(id: RunId, sha: string)
    | Cover(id: RunId, issueId: IssueId, sha: string)
    | HoldInQueue(id: RunId, queuePause: Option<Time>)
    // deletions
    | DeleteIssue(issueId: IssueId)
    | DropRun(id: RunId)
    | RemoveAgent(w: WorkerId)
    // workers
    | Claim(id: RunId, w: WorkerId)
    | Extend(id: RunId, w: WorkerId)
    | Resume(id: RunId, w: WorkerId)
    | GiveBack(id: RunId, w: WorkerId)
    | Complete(id: RunId, outcome: Outcome, direct: bool, session: Option<string>)
    | FailMinimal(id: RunId)
    | PauseRead(call: CallId, id: RunId)
    | PauseWrite(call: CallId, session: Option<string>)
    | AwaitInput(id: RunId, session: Option<string>)
    | AcknowledgeStop(id: RunId, w: WorkerId)
    // managers
    | ForceRequeue(id: RunId)
    | Cancel(id: RunId, reason: string)
    | CancelActive(id: RunId, reason: string)
    | Reset(id: RunId)
    | RequestStop(id: RunId)
    | MarkResumable(id: RunId, org: OrgId)
    | Abandon(id: RunId, org: OrgId)
    | ReleaseBlock(issueId: IssueId)
    | ResetAttempts(issueId: IssueId)
    // sweeps, one row at a time
    | StaleRow(id: RunId)
    | ExpireRow(id: RunId)
    | ReapRow(id: RunId)

  // ---- row edits ----------------------------------------------------------

  function Requeued(r: Run): Run {
    r.(status := Queued, worker := None, claimedAt := None, expiresAt := None, heartbeatAt := None)
  }

  function Unclaimed(r: Run, status: RunStatus): Run {
    r.(status := status, worker := None, claimedAt := None, expiresAt := None, heartbeatAt := None,
       queuePause := None, stopAt := None)
  }

  /** The claim is let go but its worker is remembered. */
  function ParkedRow(r: Run, status: RunStatus, session: Option<string>): Run {
    r.(status := status, claimedAt := None, expiresAt := None, heartbeatAt := None,
       session := if session.Some? then session else r.session)
  }

  function HeldRow(s: State, r: Run, id: RunId, w: WorkerId): Run {
    r.(status := RunStatus.Running, worker := Some(w), claimedAt := Some(s.now),
       expiresAt := Some(s.now + ClaimLease(s.env, w, id)), heartbeatAt := Some(s.now))
  }

  /** A step on runs: the clock, the settings, the memberships and the pauses under way
      stay, and no run or issue comes or goes. */
  predicate SameTables(s: State, t: State) {
    t.now == s.now && t.env == s.env && t.items == s.items && t.pausing == s.pausing && t.gone == s.gone &&
    t.issues.Keys == s.issues.Keys && t.runs.Keys == s.runs.Keys
  }

  function SetRun(s: State, id: RunId, r: Run): State {
    s.(runs := s.runs[id := r])
  }

  function RunIs(s: State, id: RunId, status: RunStatus): (b: bool)
    ensures b ==> id in s.runs
  {
    id in s.runs && s.runs[id].status == status
  }

  function HeldBy(s: State, id: RunId, w: WorkerId): (b: bool)
    ensures b ==> id in s.runs
  {
    RunIs(s, id, RunStatus.Running) && s.runs[id].worker == Some(w)
  }

  /** Plan and code claims that go back to the pool take their issues with them. */
  function RequeuedIssues(s: State, id: RunId): Issues
    requires id in s.runs
  {
    if MovesIssues(s.runs[id].kind) then
      WithStatus(s.issues, Covered(ItemsOf(s, id), s.runs[id]), Waiting)
    else s.issues
  }

  function BackToPool(s: State, id: RunId): State
    requires id in s.runs
  {
    SetRun(s, id, Requeued(s.runs[id])).(issues := RequeuedIssues(s, id))
  }

  function Recorded(attempts: seq<Attempt>, r: Run, id: RunId, reason: Reason): seq<Attempt> {
    if r.issue.Some? then attempts + [Attempt(r.issue.value, id, r.worker, r.kind, reason)] else attempts
  }

  // ---- claims -------------------------------------------------------------

  predicate DuplicateBreakdown(s: State, id: RunId)
    requires id in s.runs
  {
    var r := s.runs[id];
    r.kind.Breakdown? && r.issue.Some? &&
    exists other :: other in s.runs && other != id && s.runs[other].issue == r.issue &&
                    s.runs[other].kind.Breakdown? && s.runs[other].status.Succeeded?
  }

  /** What `claim_run` asks of the row, duplicate breakdowns aside. */
  predicate Offered(s: State, id: RunId, w: WorkerId) {
    w in s.env.workers && RunIs(s, id, Queued) && s.runs[id].org == s.env.workers[w].org &&
    !WorkerPaused(s.env, w) && id !in s.env.held && s.runs[id].queuePause.None?
  }

  predicate Claimable(s: State, id: RunId, w: WorkerId) {
    Offered(s, id, w) && !DuplicateBreakdown(s, id)
  }

  function ClaimedIssues(s: State, id: RunId): Issues
    requires id in s.runs
  {
    var ids := Covered(ItemsOf(s, id), s.runs[id]);
    match s.runs[id].kind
    case Plan => WithStatus(s.issues, ids, Planning)
    case Code => WithStatus(s.issues, ids, Building)
    case _ => s.issues
  }

  function ClaimRun(s: State, id: RunId, w: WorkerId): (t: State)
    ensures SameTables(s, t)
  {
    if Claimable(s, id, w) then
      SetRun(s, id, HeldRow(s, s.runs[id], id, w)).(issues := ClaimedIssues(s, id))
    else s
  }

  function ExtendClaim(s: State, id: RunId, w: WorkerId): (t: State)
    ensures SameTables(s, t)
  {
    if HeldBy(s, id, w) then
      SetRun(s, id, s.runs[id].(expiresAt := Some(s.now + Lease(s.env, w)), heartbeatAt := Some(s.now)))
    else s
  }

  predicate Resumable(s: State, id: RunId, w: WorkerId) {
    w in s.env.workers && id in s.runs && s.runs[id].org == s.env.workers[w].org &&
    s.runs[id].worker == Some(w) && Parked(s.runs[id].status)
  }

  function ResumeClaim(s: State, id: RunId, w: WorkerId): (t: State)
    ensures SameTables(s, t)
  {
    if Resumable(s, id, w) then SetRun(s, id, HeldRow(s, s.runs[id], id, w)) else s
  }

  // ---- endings ------------------------------------------------------------

  function EndStatus(outcome: Outcome): RunStatus {
    match outcome
    case Success => Succeeded
    case Failure => Failed
    case Stop => Stopped
  }

  function CompleteRun(s: State, id: RunId, outcome: Outcome, direct: bool, session: Option<string>): (t: State)
    ensures SameTables(s, t)
  {
    if !RunIs(s, id, RunStatus.Running) then s
    else
      var r := s.runs[id];
      var ended := r.(status := EndStatus(outcome), session := if session.Some? then session else r.session);
      var target := HandBackStatus(r, outcome, direct);
      SetRun(s, id, ended).(
        attempts := if outcome.Failure? then Recorded(s.attempts, r, id, RunFailed) else s.attempts,
        issues := if target.Some? then FannedOut(s.issues, ItemsOf(s, id), r, target.value) else s.issues)
  }

  function ReleaseClaim(s: State, id: RunId, w: WorkerId): (t: State)
    ensures SameTables(s, t)
  {
    if HeldBy(s, id, w) then BackToPool(s, id) else s
  }

  function ForceRequeueRun(s: State, id: RunId): (t: State)
    ensures SameTables(s, t)
  {
    if RunIs(s, id, RunStatus.Running) then BackToPool(s, id) else s
  }

  /** Undo: the run gets row `r'` and every issue it took goes back. */
  function Undone(s: State, id: RunId, r': Run): State
    requires id in s.runs
  {
    SetRun(s, id, r').(issues := RestoredRun(s.issues, ItemsOf(s, id), s.runs[id]))
  }

  function CancelledRow(r: Run, reason: string): Run {
    Unclaimed(r, Cancelled).(cancelReason := Some(reason))
  }

  function CancelRun(s: State, id: RunId, reason: string): (t: State)
    ensures SameTables(s, t)
  {
    if reason == "" then s
    else if RunIs(s, id, RunStatus.Running) then
      SetRun(s, id, s.runs[id].(cancelReason := Some(reason),
        stopAt := Some(s.runs[id].stopAt.GetOr(s.now))))
    else if RunIs(s, id, Queued) then Undone(s, id, CancelledRow(s.runs[id], reason))
    else s
  }

  function CancelActiveRun(s: State, id: RunId, reason: string): (t: State)
    ensures SameTables(s, t)
  {
    if id in s.runs && Active(s.runs[id].status) then SetRun(s, id, CancelledRow(s.runs[id], reason)) else s
  }

  function ResetRun(s: State, id: RunId): (t: State)
    ensures SameTables(s, t)
  {
    if !(id in s.runs && Active(s.runs[id].status)) then s
    else if AnyLanded(ItemsOf(s, id)) then
      SetRun(s, id, Unclaimed(s.runs[id], Succeeded)).(
        issues := SplitIssues(s.issues, ItemsOf(s, id), s.runs[id]))
    else Undone(s, id, Requeued(s.runs[id]).(queuePause := None))
  }

  function RequestRunStop(s: State, id: RunId): (t: State)
    ensures SameTables(s, t)
  {
    if RunIs(s, id, RunStatus.Running) then
      SetRun(s, id, s.runs[id].(stopAt := Some(s.runs[id].stopAt.GetOr(s.now))))
    else s
  }

  predicate StopPending(s: State, id: RunId, w: WorkerId) {
    HeldBy(s, id, w) && s.runs[id].stopAt.Some?
  }

  function AcknowledgedRow(r: Run): Run {
    if r.cancelReason.Some? && r.cancelReason.value != "" then CancelledRow(r, r.cancelReason.value)
    else Unclaimed(r, Queued)
  }

  function AcknowledgeRunStop(s: State, id: RunId, w: WorkerId): (t: State)
    ensures SameTables(s, t)
  {
    if StopPending(s, id, w) then Undone(s, id, AcknowledgedRow(s.runs[id])) else s
  }

  // ---- parking ------------------------------------------------------------

  predicate MayPause(s: State, id: RunId) {
    RunIs(s, id, RunStatus.Running) && s.runs[id].resumeAttempts < ResumeCap(s.env, s.runs[id].worker)
  }

  function ReadForPause(s: State, call: CallId, id: RunId): (t: State)
    ensures SameTables(s, t.(pausing := s.pausing))
  {
    if call !in s.pausing && MayPause(s, id) then s.(pausing := s.pausing[call := id]) else s
  }

  predicate PauseLands(s: State, call: CallId) {
    call in s.pausing && RunIs(s, s.pausing[call], RunStatus.Running)
  }

  function PausedRow(r: Run, session: Option<string>): Run {
    ParkedRow(r, Paused, session).(resumeAttempts := r.resumeAttempts + 1)
  }

  function WritePause(s: State, call: CallId, session: Option<string>): (t: State)
    ensures SameTables(s, t.(pausing := s.pausing))
  {
    if call !in s.pausing then s
    else
      var done := s.(pausing := s.pausing - {call});
      if PauseLands(s, call) then SetRun(done, s.pausing[call], PausedRow(s.runs[s.pausing[call]], session))
      else done
  }

  function AwaitInputRun(s: State, id: RunId, session: Option<string>): (t: State)
    ensures SameTables(s, t)
  {
    if RunIs(s, id, RunStatus.Running) then SetRun(s, id, ParkedRow(s.runs[id], AwaitingInput, session)) else s
  }

  function MarkStoppedResumable(s: State, id: RunId, org: OrgId): (t: State)
    ensures SameTables(s, t)
  {
    if RunIs(s, id, Stopped) && s.runs[id].org == org && s.runs[id].worker.Some? && s.runs[id].session.Some? then
      SetRun(s, id, s.runs[id].(status := Paused))
    else s
  }

  function AbandonRun(s: State, id: RunId, org: OrgId): (t: State)
    ensures SameTables(s, t)
  {
    if id in s.runs && s.runs[id].org == org && Parked(s.runs[id].status) then
      SetRun(s, id, s.runs[id].(status := Abandoned, worker := None))
    else s
  }

  // ---- sweeps -------------------------------------------------------------

  function LastSign(r: Run): Option<Time> {
    if r.heartbeatAt.Some? then r.heartbeatAt else r.claimedAt
  }

  predicate Silent(s: State, r: Run) {
    LastSign(r).Some? && LastSign(r).value < s.now - HEARTBEAT_STALE
  }

  predicate Stale(s: State, id: RunId) {
    RunIs(s, id, RunStatus.Running) && s.runs[id].worker.Some? && s.runs[id].worker.value in s.env.config &&
    s.runs[id].pushed.None? && Silent(s, s.runs[id])
  }

  predicate Expired(s: State, id: RunId) {
    RunIs(s, id, RunStatus.Running) && s.runs[id].worker.Some? && s.runs[id].pushed.None? &&
    s.runs[id].expiresAt.Some? && s.runs[id].expiresAt.value < s.now
  }

  function StaleRowAfter(r: Run): Run {
    if r.session.Some? then ParkedRow(r, Paused, None) else Requeued(r)
  }

  function SweepStale(s: State, id: RunId): (t: State)
    ensures SameTables(s, t)
  {
    if !Stale(s, id) then s
    else if s.runs[id].session.Some? then SetRun(s, id, StaleRowAfter(s.runs[id]))
    else BackToPool(s, id).(attempts := Recorded(s.attempts, s.runs[id], id, HeartbeatStale))
  }

  function SweepExpired(s: State, id: RunId): (t: State)
    ensures SameTables(s, t)
  {
    if Expired(s, id) then
      BackToPool(s, id).(attempts := Recorded(s.attempts, s.runs[id], id, LeaseExpired))
    else s
  }

  predicate Orphan(s: State, id: RunId) {
    RunIs(s, id, RunStatus.Running) && s.runs[id].worker.None?
  }

  function ReapOrphan(s: State, id: RunId): (t: State)
    ensures SameTables(s, t)
  {
    if !Orphan(s, id) then s
    else
      var r := s.runs[id];
      var stays := r.kind.Prd? || r.kind.Test? || r.kind.Elaborate? || r.kind.Breakdown?;
      SetRun(s, id, r.(status := Failed)).(
        issues := if stays then s.issues else WithStatus(s.issues, OwnIssue(r), Broken))
  }

  function FailRunMinimal(s: State, id: RunId): (t: State)
    ensures SameTables(s, t)
  {
    if RunIs(s, id, RunStatus.Running) then SetRun(s, id, s.runs[id].(status := Failed)) else s
  }

  // ---- the world ----------------------------------------------------------

  /** Only a code run is dispatched over several stories. */
  predicate Dispatchable(s: State, id: RunId, issue: Option<IssueId>, stories: set<IssueId>, kind: Kind) {
    id !in s.runs && id !in s.gone && stories <= s.issues.Keys &&
    (issue.Some? ==> issue.value in s.issues && !s.issues[issue.value].blocked) &&
    (stories != {} ==> issue.Some? && kind.Code?)
  }

  function DispatchedRun(s: State, issue: Option<IssueId>, org: OrgId, project: ProjectId, kind: Kind): Run
    requires issue.Some? ==> issue.value in s.issues
  {
    Run(org, project, issue, kind, Queued,
        if issue.Some? && Stamps(kind) then Some(s.issues[issue.value].status) else None,
        None, None, None, None, None, None, None, None, None, 0)
  }

  /** Each covered issue's status is stamped before it is moved to the queue. */
  function DispatchRun(s: State, id: RunId, issue: Option<IssueId>, stories: set<IssueId>,
                       org: OrgId, project: ProjectId, kind: Kind): State {
    if !Dispatchable(s, id, issue, stories, kind) then s
    else
      var r := DispatchedRun(s, issue, org, project, kind);
      var items: Items := map i | i in stories :: Member(Some(s.issues[i].status), {});
      s.(runs := s.runs[id := r],
         items := s.items[id := items],
         issues := if QueuesIssue(kind) then WithStatus(s.issues, Covered(items, r), Waiting)
                   else s.issues)
  }

  function CoverCommit(s: State, id: RunId, i: IssueId, sha: string): State {
    if id in s.items && i in s.items[id] && sha != "" then
      var m := s.items[id][i];
      s.(items := s.items[id := s.items[id][i := m.(commits := m.commits + {sha})]])
    else s
  }

  function ClearAttempts(s: State, i: IssueId): State {
    if i in s.issues then
      s.(issues := s.issues[i := s.issues[i].(blocked := false)], attempts := Without(s.attempts, i))
    else s
  }

  // ---- deletions ----------------------------------------------------------

  function RunsOn(s: State, i: IssueId): set<RunId> {
    set id | id in s.runs && s.runs[id].issue == Some(i)
  }

  /** Run rows go with their memberships. */
  function WithoutRuns(s: State, ids: set<RunId>): State {
    s.(runs := s.runs - ids, items := s.items - ids, gone := s.gone + ids)
  }

  /** An issue goes with its own runs, with its place in the others, commits included,
      and with its attempts. */
  function WithoutIssue(s: State, i: IssueId): State {
    var t := WithoutRuns(s, RunsOn(s, i));
    t.(issues := t.issues - {i},
       items := map id | id in t.items :: t.items[id] - {i},
       attempts := Without(t.attempts, i))
  }

  /** An agent goes with its settings and access; a run that names it is left without a
      worker, whatever its status. */
  function WithoutAgent(s: State, w: WorkerId): State {
    s.(env := s.env.(workers := s.env.workers - {w}, config := s.env.config - {w}, paused := s.env.paused - {w},
                     access := set a | a in s.env.access && a.0 != w),
       runs := map id | id in s.runs ::
         if s.runs[id].worker == Some(w) then s.runs[id].(worker := None) else s.runs[id])
  }

  // ---- one step, and many -------------------------------------------------

  function Apply(s: State, step: Step): State {
    match step
    case Tick(elapsed) => s.(now := s.now + elapsed)
    case Configure(env) =>
      if s.env.workers.Keys <= env.workers.Keys then s.(env := env.(paused := s.env.paused)) else s
    case SetPaused(w, paused) => s.(env := WithPaused(s.env, w, paused))
    case Dispatch(id, issue, stories, org, project, kind) => DispatchRun(s, id, issue, stories, org, project, kind)
    case WriteIssue(i, status) => s.(issues := WithStatus(s.issues, {i}, status))
    case Block(i) => if i in s.issues then s.(issues := s.issues[i := s.issues[i].(blocked := true)]) else s
    case Push(id, sha) => if id in s.runs then SetRun(s, id, s.runs[id].(pushed := Some(sha))) else s
    case Cover(id, i, sha) => CoverCommit(s, id, i, sha)
    case HoldInQueue(id, at) => if id in s.runs then SetRun(s, id, s.runs[id].(queuePause := at)) else s
    case DeleteIssue(i) => WithoutIssue(s, i)
    case DropRun(id) => WithoutRuns(s, {id})
    case RemoveAgent(w) => WithoutAgent(s, w)
    case Claim(id, w) => ClaimRun(s, id, w)
    case Extend(id, w) => ExtendClaim(s, id, w)
    case Resume(id, w) => ResumeClaim(s, id, w)
    case GiveBack(id, w) => ReleaseClaim(s, id, w)
    case Complete(id, outcome, direct, session) => CompleteRun(s, id, outcome, direct, session)
    case FailMinimal(id) => FailRunMinimal(s, id)
    case PauseRead(call, id) => ReadForPause(s, call, id)
    case PauseWrite(call, session) => WritePause(s, call, session)
    case AwaitInput(id, session) => AwaitInputRun(s, id, session)
    case AcknowledgeStop(id, w) => AcknowledgeRunStop(s, id, w)
    case ForceRequeue(id) => ForceRequeueRun(s, id)
    case Cancel(id, reason) => CancelRun(s, id, reason)
    case CancelActive(id, reason) => CancelActiveRun(s, id, reason)
    case Reset(id) => ResetRun(s, id)
    case RequestStop(id) => RequestRunStop(s, id)
    case MarkResumable(id, org) => MarkStoppedResumable(s, id, org)
    case Abandon(id, org) => AbandonRun(s, id, org)
    case ReleaseBlock(i) => if Blocked(s, i) then ClearAttempts(s, i) else s
    case ResetAttempts(i) => ClearAttempts(s, i)
    case StaleRow(id) => SweepStale(s, id)
    case ExpireRow(id) => SweepExpired(s, id)
    case ReapRow(id) => ReapOrphan(s, id)
  }

  /** The step of each operation is that operation. */
  lemma {:induction false} StepIs(s: State, step: Step)
    ensures match step
            case Dispatch(id, issue, stories, org, project, kind) =>
              Apply(s, step) == DispatchRun(s, id, issue, stories, org, project, kind)
            case Cover(id, i, sha) => Apply(s, step) == CoverCommit(s, id, i, sha)
            case Claim(id, w) => Apply(s, step) == ClaimRun(s, id, w)
            case Extend(id, w) => Apply(s, step) == ExtendClaim(s, id, w)
            case Resume(id, w) => Apply(s, step) == ResumeClaim(s, id, w)
            case GiveBack(id, w) => Apply(s, step) == ReleaseClaim(s, id, w)
            case Complete(id, outcome, direct, session) =>
              Apply(s, step) == CompleteRun(s, id, outcome, direct, session)
            case FailMinimal(id) => Apply(s, step) == FailRunMinimal(s, id)
            case PauseRead(call, id) => Apply(s, step) == ReadForPause(s, call, id)
            case PauseWrite(call, session) => Apply(s, step) == WritePause(s, call, session)
            case AwaitInput(id, session) => Apply(s, step) == AwaitInputRun(s, id, session)
            case AcknowledgeStop(id, w) => Apply(s, step) == AcknowledgeRunStop(s, id, w)
            case ForceRequeue(id) => Apply(s, step) == ForceRequeueRun(s, id)
            case Cancel(id, reason) => Apply(s, step) == CancelRun(s, id, reason)
            case CancelActive(id, reason) => Apply(s, step) == CancelActiveRun(s, id, reason)
            case Reset(id) => Apply(s, step) == ResetRun(s, id)
            case RequestStop(id) => Apply(s, step) == RequestRunStop(s, id)
            case MarkResumable(id, org) => Apply(s, step) == MarkStoppedResumable(s, id, org)
            case Abandon(id, org) => Apply(s, step) == AbandonRun(s, id, org)
            case StaleRow(id) => Apply(s, step) == SweepStale(s, id)
            case ExpireRow(id) => Apply(s, step) == SweepExpired(s, id)
            case ReapRow(id) => Apply(s, step) == ReapOrphan(s, id)
            case _ => true
  {
    hide ClaimRun, ExtendClaim, ResumeClaim, CompleteRun, ReleaseClaim, ForceRequeueRun, CancelRun, CancelActiveRun,
         ResetRun, RequestRunStop, AcknowledgeRunStop, WritePause, ReadForPause, AwaitInputRun, MarkStoppedResumable,
         AbandonRun, SweepStale, SweepExpired, ReapOrphan, FailRunMinimal, DispatchRun, CoverCommit, ClearAttempts;
  }

  lemma {:induction false} WorldStepIs(s: State, step: Step)
    ensures match step
            case Tick(elapsed) => Apply(s, step) == s.(now := s.now + elapsed)
            case Configure(env) =>
              Apply(s, step) ==
                if s.env.workers.Keys <= env.workers.Keys then s.(env := env.(paused := s.env.paused)) else s
            case SetPaused(w, paused) => Apply(s, step) == s.(env := WithPaused(s.env, w, paused))
            case WriteIssue(i, status) => Apply(s, step) == s.(issues := WithStatus(s.issues, {i}, status))
            case Block(i) =>
              Apply(s, step) ==
                if i in s.issues then s.(issues := s.issues[i := Issue(s.issues[i].status, true)]) else s
            case Push(id, sha) =>
              Apply(s, step) ==
                if id in s.runs then s.(runs := s.runs[id := s.runs[id].(pushed := Some(sha))]) else s
            case HoldInQueue(id, at) =>
              Apply(s, step) == if id in s.runs then s.(runs := s.runs[id := s.runs[id].(queuePause := at)]) else s
            case DeleteIssue(i) => Apply(s, step) == WithoutIssue(s, i)
            case DropRun(id) => Apply(s, step) == WithoutRuns(s, {id})
            case RemoveAgent(w) => Apply(s, step) == WithoutAgent(s, w)
            case ReleaseBlock(i) =>
              Apply(s, step) == if i in s.issues && s.issues[i].blocked then ClearAttempts(s, i) else s
            case ResetAttempts(i) => Apply(s, step) == ClearAttempts(s, i)
            case _ => true
  {
    hide ClearAttempts, WithoutIssue, WithoutAgent, WithoutRuns, WithStatus, WithPaused;
  }

  /** A step of the world around the runs rather than of a run's own life. */
  predicate OfTheWorld(step: Step) {
    step.Tick? || step.Configure? || step.SetPaused? || step.Dispatch? || step.WriteIssue? || step.Block? ||
    step.Push? || step.Cover? || step.HoldInQueue? || step.ReleaseBlock? || step.ResetAttempts?
  }

  predicate Deletes(step: Step) {
    step.DeleteIssue? || step.DropRun? || step.RemoveAgent?
  }

  /** A run's own steps keep the tables around it. */
  lemma {:induction false} OwnStepsKeepTables(s: State, step: Step)
    requires !OfTheWorld(step) && !Deletes(step)
    ensures SameTables(s, Apply(s, step).(pausing := s.pausing))
  {
    hide ClaimRun, ExtendClaim, ResumeClaim, CompleteRun, ReleaseClaim, ForceRequeueRun, CancelRun, CancelActiveRun,
         ResetRun, RequestRunStop, AcknowledgeRunStop, WritePause, ReadForPause, AwaitInputRun, MarkStoppedResumable,
         AbandonRun, SweepStale, SweepExpired, ReapOrphan, FailRunMinimal;
  }

  lemma {:induction false} WorldAddsRuns(s: State, step: Step)
    requires OfTheWorld(step) && !step.Dispatch?
    ensures Apply(s, step).runs.Keys == s.runs.Keys && Apply(s, step).gone == s.gone
  {
  }

  lemma {:induction false} DeletionsAddNothing(s: State, step: Step)
    requires Deletes(step)
    ensures Apply(s, step).runs.Keys <= s.runs.Keys && Apply(s, step).issues.Keys <= s.issues.Keys
    ensures s.gone <= Apply(s, step).gone && s.runs.Keys <= Apply(s, step).runs.Keys + Apply(s, step).gone
  {
  }

  /** Only a dispatch makes a run. */
  lemma {:induction false} OnlyDispatchAddsRuns(s: State, step: Step)
    requires !step.Dispatch?
    ensures Apply(s, step).runs.Keys <= s.runs.Keys && s.gone <= Apply(s, step).gone
    ensures !Deletes(step) ==> Apply(s, step).runs.Keys == s.runs.Keys && Apply(s, step).gone == s.gone
  {
    hide Apply;
    if OfTheWorld(step) {
      WorldAddsRuns(s, step);
    } else if Deletes(step) {
      DeletionsAddNothing(s, step);
    } else {
      OwnStepsKeepTables(s, step);
    }
  }

  function Exec(s: State, steps: seq<Step>): State {
    if steps == [] then s
    else Apply(Exec(s, steps[..|steps| - 1]), steps[|steps| - 1])
  }

  /** The state after the first `k` steps. */
  function At(s: State, steps: seq<Step>, k: nat): State
    requires k <= |steps|
  {
    Exec(s, steps[..k])
  }

  lemma AtNext(s: State, steps: seq<Step>, k: nat)
    requires k < |steps|
    ensures At(s, steps, k + 1) == Apply(At(s, steps, k), steps[k])
  {
    assert steps[..k + 1][..k] == steps[..k];
  }

  lemma {:induction false} ExecConcat(s: State, first: seq<Step>, second: seq<Step>)
    ensures Exec(s, first + second) == Exec(Exec(s, first), second)
  {
    hide Apply;
    if second == [] {
      assert first + second == first;
    } else {
      var all := first + second;
      assert all[..|all| - 1] == first + second[..|second| - 1];
      ExecConcat(s, first, second[..|second| - 1]);
    }
  }
}

/** The rows a run lifecycle reads and writes, and the small pure rules shared by
    every operation: leases, membership, and where an issue goes on a hand-back. */
module Runs {

  datatype Option<+T> = None | Some(value: T) {
    function GetOr(default: T): T {
      if Some? then value else default
    }
  }

  type RunId = nat
  type WorkerId = nat
  type IssueId = nat
  type ProjectId = nat
  type OrgId = nat
  /** One call of `pause_run`, between its read and its write. */
  type CallId = nat

  /** Timestamps and intervals, in microseconds. */
  type Time = int

  const SECOND: Time := 1_000_000
  const MINUTE: Time := 60 * SECOND
  const HEARTBEAT_STALE: Time := 90 * SECOND
  const HUMAN_LEASE: Time := 24 * 60 * MINUTE
  const AUTONOMOUS_LEASE: Time := 120 * MINUTE
  const DEFAULT_TOTAL_LEASE: Time := 1440 * MINUTE
  const DEFAULT_ITEM_ATTEMPTS: nat := 3
  const DEFAULT_RESUME_ATTEMPTS: int := 3

  datatype RunStatus =
    | Queued | Running | Paused | AwaitingInput | Stopped
    | Succeeded | Failed | Cancelled | Abandoned

  datatype Kind =
    | Prd | Breakdown | Plan | Code | Test | Elaborate | Wireframe
    | Release | Guidelines | Deploy | Merge

  datatype IssueStatus =
    | Draft | Ready | Planned | Waiting | Planning | Building
    | PlanReview | PrdReview | InReview | Merged | Broken | Other(name: string)

  datatype Outcome = Success | Failure | Stop

  datatype Run = Run(
    org: OrgId,
    project: ProjectId,
    issue: Option<IssueId>,
    kind: Kind,
    status: RunStatus,
    prev: Option<IssueStatus>,
    worker: Option<WorkerId>,
    claimedAt: Option<Time>,
    expiresAt: Option<Time>,
    heartbeatAt: Option<Time>,
    queuePause: Option<Time>,
    stopAt: Option<Time>,
    cancelReason: Option<string>,
    session: Option<string>,
    pushed: Option<string>,
    resumeAttempts: nat
  )

  /** A `run_items` row with the commits recorded for it. */
  datatype Member = Member(prev: Option<IssueStatus>, commits: set<string>)

  datatype Issue = Issue(status: IssueStatus, blocked: bool)

  datatype Reason = RunFailed | LeaseExpired | HeartbeatStale

  datatype Attempt = Attempt(issue: IssueId, run: RunId, worker: Option<WorkerId>, kind: Kind, reason: Reason)

  datatype Worker = Worker(org: OrgId, human: bool, active: bool)

  /** A `runner_config` row, its paused flag aside. */
  datatype Config = Config(
    maxRunMinutes: Option<nat>,
    maxTotalMinutes: Option<nat>,
    enabledKinds: Option<set<Kind>>,
    maxItemAttempts: nat,
    maxResumeAttempts: Option<int>
  )

  /** Everything a run's own steps read but do not write: agents, their settings and
      which of them are paused, project access, the runs `run_hold_reason` holds, and
      the work units of a run. */
  datatype Env = Env(
    workers: map<WorkerId, Worker>,
    config: map<WorkerId, Config>,
    paused: set<WorkerId>,
    access: set<(WorkerId, ProjectId)>,
    held: set<RunId>,
    units: map<RunId, nat>
  )

  type Issues = map<IssueId, Issue>
  type Items = map<IssueId, Member>

  /** `gone`: the ids of deleted runs, which are never given again. */
  datatype State = State(
    now: Time,
    env: Env,
    runs: map<RunId, Run>,
    items: map<RunId, Items>,
    issues: Issues,
    attempts: seq<Attempt>,
    pausing: map<CallId, RunId>,
    gone: set<RunId>
  )

  predicate Terminal(status: RunStatus) {
    status.Succeeded? || status.Failed? || status.Cancelled? || status.Abandoned?
  }

  predicate Parked(status: RunStatus) {
    status.Paused? || status.AwaitingInput?
  }

  predicate Active(status: RunStatus) {
    status.Queued? || status.Running?
  }

  /** Only plan and code claims move the issues a run covers. */
  predicate MovesIssues(kind: Kind) {
    kind.Plan? || kind.Code?
  }

  /** The kinds whose dispatch puts the issue in the queue. */
  predicate QueuesIssue(kind: Kind) {
    kind.Plan? || kind.Code? || kind.Merge?
  }

  /** The kinds whose dispatch stamps the issue's status on the run; a verification and
      the runs of a whole project stamp none. */
  predicate Stamps(kind: Kind) {
    !kind.Test? && !kind.Release? && !kind.Guidelines? && !kind.Deploy?
  }

  /** The kinds whose success lands code. */
  predicate LandsCode(kind: Kind) {
    kind.Code? || kind.Merge? || kind.Deploy?
  }

  // ---- leases -------------------------------------------------------------

  function Min(a: int, b: int): (m: int)
    ensures m <= a && m <= b && (m == a || m == b)
  {
    if a < b then a else b
  }

  /** At least one, whatever was counted. */
  function Units(env: Env, id: RunId): (n: nat)
    ensures n >= 1
  {
    if id in env.units && env.units[id] >= 1 then env.units[id] else 1
  }

  /** The per-story allowance of a worker. */
  function Lease(env: Env, w: WorkerId): Time {
    if w in env.config && env.config[w].maxRunMinutes.Some? then
      env.config[w].maxRunMinutes.value * MINUTE
    else if w in env.workers && env.workers[w].human then HUMAN_LEASE
    else AUTONOMOUS_LEASE
  }

  function TotalLease(env: Env, w: WorkerId): Time {
    if w in env.config && env.config[w].maxTotalMinutes.Some? then
      env.config[w].maxTotalMinutes.value * MINUTE
    else DEFAULT_TOTAL_LEASE
  }

  /** What a fresh or resumed claim is given: the allowance per story, bounded. */
  function ClaimLease(env: Env, w: WorkerId, id: RunId): Time {
    Min(Lease(env, w) * Units(env, id), TotalLease(env, w))
  }

  const DEFAULT_CONFIG: Config := Config(None, None, None, DEFAULT_ITEM_ATTEMPTS, None)

  predicate WorkerPaused(env: Env, w: WorkerId) {
    w in env.paused
  }

  /** `set_paused`: an upsert of the agent's settings row. */
  function WithPaused(env: Env, w: WorkerId, paused: bool): Env {
    if w !in env.workers then env
    else
      env.(paused := if paused then env.paused + {w} else env.paused - {w},
           config := if w in env.config then env.config else env.config[w := DEFAULT_CONFIG])
  }

  function ResumeCap(env: Env, w: Option<WorkerId>): int {
    if w.Some? && w.value in env.config then
      env.config[w.value].maxResumeAttempts.GetOr(DEFAULT_RESUME_ATTEMPTS)
    else DEFAULT_RESUME_ATTEMPTS
  }

  // ---- membership and hand-back ------------------------------------------

  function ItemsOf(s: State, id: RunId): Items {
    if id in s.items then s.items[id] else map[]
  }

  function OwnIssue(r: Run): set<IssueId> {
    if r.issue.Some? then {r.issue.value} else {}
  }

  /** `run_issue_ids`: the members, or the run's own issue when it has none. */
  function Covered(items: Items, r: Run): set<IssueId> {
    if items == map[] then OwnIssue(r) else items.Keys
  }

  predicate Landed(m: Member) {
    m.commits != {}
  }

  predicate AnyLanded(items: Items) {
    exists i :: i in items && Landed(items[i])
  }

  function WithStatus(issues: Issues, ids: set<IssueId>, status: IssueStatus): (after: Issues)
    ensures after.Keys == issues.Keys
  {
    map i | i in issues :: if i in ids then issues[i].(status := status) else issues[i]
  }

  /** Where a member goes when the run hands it back unfinished. */
  function Back(m: Member): IssueStatus {
    m.prev.GetOr(Planned)
  }

  function Restored(issues: Issues, items: Items): (after: Issues)
    ensures after.Keys == issues.Keys
  {
    map i | i in issues :: if i in items then issues[i].(status := Back(items[i])) else issues[i]
  }

  function Fallback(kind: Kind): Option<IssueStatus> {
    match kind
    case Plan => Some(Draft)
    case Code => Some(Planned)
    case Prd => Some(Ready)
    case Breakdown => Some(Ready)
    case _ => None
  }

  /** Where the run's own issue goes when the run is undone. */
  function OwnTarget(r: Run): Option<IssueStatus> {
    if r.prev.Some? then r.prev else Fallback(r.kind)
  }

  /** Members first, the run's own issue last. */
  function RestoredRun(issues: Issues, items: Items, r: Run): (after: Issues)
    ensures after.Keys == issues.Keys
  {
    var members := Restored(issues, items);
    if OwnTarget(r).Some? then WithStatus(members, OwnIssue(r), OwnTarget(r).value) else members
  }

  predicate NeedsCommit(status: IssueStatus) {
    status.InReview? || status.Merged?
  }

  /** `_fan_out_issue_status`, stated per issue. */
  function FannedOut(issues: Issues, items: Items, r: Run, status: IssueStatus): (after: Issues)
    ensures after.Keys == issues.Keys
  {
    map i | i in issues ::
      if i in items then
        issues[i].(status := if NeedsCommit(status) && !Landed(items[i]) then Back(items[i]) else status)
      else if i in OwnIssue(r) then issues[i].(status := status)
      else issues[i]
  }

  /** `_reset_run_split`, stated per issue: the run's own issue wins. */
  function SplitIssues(issues: Issues, items: Items, r: Run): (after: Issues)
    ensures after.Keys == issues.Keys
  {
    map i | i in issues ::
      if i in OwnIssue(r) then issues[i].(status := InReview)
      else if i in items then
        issues[i].(status := if Landed(items[i]) then InReview else Back(items[i]))
      else issues[i]
  }

  /** The issue status a finished run hands back, if it moves issues at all. */
  function HandBackStatus(r: Run, outcome: Outcome, direct: bool): Option<IssueStatus> {
    if !outcome.Success? then
      if r.kind.Prd? || r.kind.Test? || r.kind.Elaborate? || r.kind.Breakdown? then None
      else if outcome.Stop? then Some(r.prev.GetOr(Broken))
      else Some(Broken)
    else
      match r.kind
      case Test => None
      case Release => None
      case Elaborate => None
      case Guidelines => None
      case Wireframe => None
      case Plan => Some(PlanReview)
      case Prd => Some(PrdReview)
      case Breakdown => Some(Ready)
      case Code => Some(if direct then Merged else InReview)
      case Deploy => Some(if direct then Merged else InReview)
      case Merge => Some(if direct then Merged else InReview)
  }

  // ---- attempts -----------------------------------------------------------

  function CountFor(attempts: seq<Attempt>, i: IssueId): nat {
    if attempts == [] then 0
    else CountFor(attempts[..|attempts| - 1], i) + (if attempts[|attempts| - 1].issue == i then 1 else 0)
  }

  function CountBy(attempts: seq<Attempt>, w: WorkerId, i: IssueId): nat {
    if attempts == [] then 0
    else
      var a := attempts[|attempts| - 1];
      CountBy(attempts[..|attempts| - 1], w, i) + (if a.issue == i && a.worker == Some(w) then 1 else 0)
  }

  function Without(attempts: seq<Attempt>, i: IssueId): seq<Attempt> {
    if attempts == [] then []
    else
      var rest := Without(attempts[..|attempts| - 1], i);
      if attempts[|attempts| - 1].issue == i then rest else rest + [attempts[|attempts| - 1]]
  }

  /** `worker_exhausted_on_issue` */
  predicate Exhausted(s: State, w: WorkerId, i: IssueId) {
    CountBy(s.attempts, w, i) >=
      (if w in s.env.config then s.env.config[w].maxItemAttempts else DEFAULT_ITEM_ATTEMPTS)
  }

  predicate Blocked(s: State, i: IssueId) {
    i in s.issues && s.issues[i].blocked
  }

  /** `worker_has_grant`, by its two halves. */
  predicate KindChecked(env: Env, w: WorkerId, kind: Kind) {
    w in env.config && env.config[w].enabledKinds.Some? ==> kind in env.config[w].enabledKinds.value
  }

  predicate HasGrant(env: Env, w: WorkerId, project: ProjectId, kind: Kind) {
    (w, project) in env.access && KindChecked(env, w, kind)
  }
}

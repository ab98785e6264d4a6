/** What an agent is offered, what it is refused, what it may claim, and what it is
    told when it does nothing: four readings of one state that must agree. */
module Pool {
  import opened Runs
  import opened Steps

  predicate Listed(s: State, w: WorkerId, id: RunId)
    requires w in s.env.workers && id in s.runs
  {
    var r := s.runs[id];
    r.org == s.env.workers[w].org && r.status.Queued? &&
    !WorkerPaused(s.env, w) &&
    HasGrant(s.env, w, r.project, r.kind) &&
    (r.issue.None? || !Exhausted(s, w, r.issue.value)) &&
    (r.issue.None? || !Blocked(s, r.issue.value)) &&
    id !in s.env.held && r.queuePause.None?
  }

  /** `list_worker_pool`, without its order. */
  function ListWorkerPool(s: State, w: WorkerId): set<RunId>
    requires w in s.env.workers
  {
    set id | id in s.runs && Listed(s, w, id)
  }

  datatype Refusal = ItemExhausted | AgentExhausted | KindUnchecked | NoAccess

  /** `worker_run_refusal`: the first reason that applies, or none. */
  function WorkerRunRefusal(s: State, w: WorkerId, id: RunId): Option<Refusal> {
    if id !in s.runs then None
    else
      var r := s.runs[id];
      if r.issue.Some? && Blocked(s, r.issue.value) then Some(ItemExhausted)
      else if r.issue.Some? && Exhausted(s, w, r.issue.value) then Some(AgentExhausted)
      else if !KindChecked(s.env, w, r.kind) then Some(KindUnchecked)
      else if HasGrant(s.env, w, r.project, r.kind) then None
      else Some(NoAccess)
  }

  /** An item with its attempts on record at the agent's limit, three if none is set. */
  predicate TriedEnough(s: State, w: WorkerId, i: IssueId) {
    var limit := if w in s.env.config then s.env.config[w].maxItemAttempts else 3;
    CountBy(s.attempts, w, i) >= limit
  }

  predicate BlockedItem(s: State, i: IssueId) {
    i in s.issues && s.issues[i].blocked
  }

  /** A blocked item is the first thing said, an agent that has tried it enough the
      second, its own settings the third. */
  lemma {:induction false} RefusalOrder(s: State, w: WorkerId, id: RunId)
    requires id in s.runs
    ensures var r, said := s.runs[id], WorkerRunRefusal(s, w, id);
            var blocked := r.issue != None && BlockedItem(s, r.issue.value);
            var tried := r.issue != None && TriedEnough(s, w, r.issue.value);
            (said == Some(ItemExhausted) <==> blocked) &&
            (said == Some(AgentExhausted) <==> !blocked && tried) &&
            (said == Some(KindUnchecked) <==> !blocked && !tried && Unchecked(s.env, w, r.kind)) &&
            (said == Some(NoAccess) <==>
             !blocked && !tried && !Unchecked(s.env, w, r.kind) && (w, r.project) !in s.env.access)
  {
  }

  /** The listing is the refusal gate and the claim's own guard, nothing more. */
  lemma {:induction false} ListingIsRefusalAndClaim(s: State, w: WorkerId, id: RunId)
    requires w in s.env.workers
    ensures id in ListWorkerPool(s, w) <==>
              id in s.runs && WorkerRunRefusal(s, w, id).None? && Offered(s, id, w)
  {
  }

  /** A listed run can be taken at once by whoever it was listed to, unless it is a
      second breakdown of the same feature; and what can be taken was listed. */
  lemma {:induction false} ListedMeansClaimable(s: State, w: WorkerId, id: RunId)
    requires w in s.env.workers && id in s.runs && WorkerRunRefusal(s, w, id).None?
    requires !HeldBy(s, id, w)
    ensures HeldBy(Apply(s, Claim(id, w)), id, w) <==> id in ListWorkerPool(s, w) && !DuplicateBreakdown(s, id)
  {
    ListingIsRefusalAndClaim(s, w, id);
  }

  // ---- why an agent is idle ----------------------------------------------

  datatype IdleReason =
    | Unknown | Revoked | Working | PausedByAdmin | NoRoles | NoModel
    | NothingQueued | QueueHeld | NoGrants | ShouldPickOneUp

  function QueuedRuns(s: State, org: OrgId): set<RunId> {
    set id | id in s.runs && s.runs[id].org == org && s.runs[id].status.Queued?
  }

  function Offerable(s: State, org: OrgId): set<RunId> {
    set id | id in QueuedRuns(s, org) && id !in s.env.held && s.runs[id].queuePause.None?
  }

  function Matching(s: State, w: WorkerId): set<RunId>
    requires w in s.env.workers
  {
    set id | id in Offerable(s, s.env.workers[w].org) &&
             (w, s.runs[id].project) in s.env.access && KindChecked(s.env, w, s.runs[id].kind)
  }

  predicate HoldsARun(s: State, w: WorkerId) {
    exists id :: id in s.runs && HeldBy(s, id, w)
  }

  predicate HasAccess(env: Env, w: WorkerId) {
    exists a :: a in env.access && a.0 == w
  }

  /** `worker_idle_reason`, by precedence; whether a model resolves is given. */
  function WorkerIdleReason(s: State, w: WorkerId, hasModel: bool): IdleReason {
    if w !in s.env.workers then Unknown
    else if !s.env.workers[w].active then Revoked
    else if HoldsARun(s, w) then Working
    else if WorkerPaused(s.env, w) then PausedByAdmin
    else if w in s.env.config && s.env.config[w].enabledKinds == Some({}) then NoRoles
    else if !hasModel then NoModel
    else if QueuedRuns(s, s.env.workers[w].org) == {} then NothingQueued
    else if Offerable(s, s.env.workers[w].org) == {} then QueueHeld
    else if !HasAccess(s.env, w) then NoGrants
    else if Matching(s, w) == {} then NoGrants
    else ShouldPickOneUp
  }

  /** What each reason says, read off the rows on its own. */
  ghost predicate IsSo(s: State, w: WorkerId, hasModel: bool, reason: IdleReason)
    requires !reason.Unknown? ==> w in s.env.workers
  {
    match reason
    case Unknown => w !in s.env.workers
    case Revoked => !s.env.workers[w].active
    case Working => exists id :: id in s.runs && s.runs[id].status == RunStatus.Running && s.runs[id].worker == Some(w)
    case PausedByAdmin => w in s.env.paused
    case NoRoles => w in s.env.config && s.env.config[w].enabledKinds.Some? && |s.env.config[w].enabledKinds.value| == 0
    case NoModel => !hasModel
    case NothingQueued => forall id :: id in s.runs ==> !WaitsIn(s, id, s.env.workers[w].org)
    case QueueHeld =>
      forall id :: id in s.runs && WaitsIn(s, id, s.env.workers[w].org) ==>
        id in s.env.held || s.runs[id].queuePause != None
    case NoGrants =>
      forall id :: id in s.runs && WaitsIn(s, id, s.env.workers[w].org) ==>
        id in s.env.held || s.runs[id].queuePause != None || (w, s.runs[id].project) !in s.env.access ||
        Unchecked(s.env, w, s.runs[id].kind)
    case ShouldPickOneUp => true
  }

  predicate WaitsIn(s: State, id: RunId, org: OrgId)
    requires id in s.runs
  {
    s.runs[id].status == Queued && s.runs[id].org == org
  }

  predicate Unchecked(env: Env, w: WorkerId, kind: Kind) {
    w in env.config && env.config[w].enabledKinds != None && kind !in env.config[w].enabledKinds.value
  }

  const PRECEDENCE: seq<IdleReason> := [Unknown, Revoked, Working, PausedByAdmin, NoRoles, NoModel,
    NothingQueued, QueueHeld, NoGrants, ShouldPickOneUp]

  /** The answer is the first reason in the order of precedence that is so. */
  lemma {:induction false} FirstReasonThatIsSo(s: State, w: WorkerId, hasModel: bool) returns (k: nat)
    ensures k < |PRECEDENCE| && WorkerIdleReason(s, w, hasModel) == PRECEDENCE[k]
    ensures k > 0 ==> w in s.env.workers
    ensures IsSo(s, w, hasModel, PRECEDENCE[k])
    ensures forall j :: 0 <= j < k ==> !IsSo(s, w, hasModel, PRECEDENCE[j])
  {
    var said := WorkerIdleReason(s, w, hasModel);
    k := match said
      case Unknown => 0
      case Revoked => 1
      case Working => 2
      case PausedByAdmin => 3
      case NoRoles => 4
      case NoModel => 5
      case NothingQueued => 6
      case QueueHeld => 7
      case NoGrants => 8
      case ShouldPickOneUp => 9;
    if w in s.env.workers {
      SetsAreEmptyIff(s, w);
    }
  }

  lemma {:induction false} SetsAreEmptyIff(s: State, w: WorkerId)
    requires w in s.env.workers
    ensures QueuedRuns(s, s.env.workers[w].org) == {} <==> IsSo(s, w, true, NothingQueued)
    ensures Offerable(s, s.env.workers[w].org) == {} <==> IsSo(s, w, true, QueueHeld)
    ensures !HasAccess(s.env, w) || Matching(s, w) == {} <==> IsSo(s, w, true, NoGrants)
    ensures HoldsARun(s, w) <==> IsSo(s, w, true, Working)
  {
    var org := s.env.workers[w].org;
    if id :| id in s.runs && s.runs[id].status == Queued && s.runs[id].org == org {
      assert id in QueuedRuns(s, org);
    }
    if id :| id in QueuedRuns(s, org) && id !in s.env.held && s.runs[id].queuePause == None {
      assert id in Offerable(s, org);
    }
    if id :| id in Offerable(s, org) && (w, s.runs[id].project) in s.env.access &&
             !Unchecked(s.env, w, s.runs[id].kind) {
      assert id in Matching(s, w) && (w, s.runs[id].project).0 == w;
      assert HasAccess(s.env, w);
    }
  }

  /** Why the matching work is still not offered: the item or the agent is spent. */
  predicate SpentOn(s: State, w: WorkerId, id: RunId)
    requires id in s.runs
  {
    s.runs[id].issue.Some? &&
    (Exhausted(s, w, s.runs[id].issue.value) || Blocked(s, s.runs[id].issue.value))
  }

  lemma {:induction false} ListedMatches(s: State, w: WorkerId, id: RunId)
    requires w in s.env.workers
    ensures id in ListWorkerPool(s, w) <==>
              id in Matching(s, w) && !WorkerPaused(s.env, w) && !SpentOn(s, w, id)
  {
  }

  /** Every reason that says there is nothing to take is true of the listing. */
  lemma {:induction false} IdleReasonsAreTrue(s: State, w: WorkerId, hasModel: bool)
    requires w in s.env.workers
    requires WorkerIdleReason(s, w, hasModel) in {PausedByAdmin, NoRoles, NothingQueued, QueueHeld, NoGrants}
    ensures ListWorkerPool(s, w) == {}
  {
    forall id | id in ListWorkerPool(s, w) ensures false {
      ListedMatches(s, w, id);
    }
  }

  /** "It should pick one up" is wrong exactly when every run it counted is spent: an
      item over its attempts, or this agent over its own on that item. */
  lemma {:induction false} ShouldPickOneUpIsWrongIff(s: State, w: WorkerId, hasModel: bool)
    requires WorkerIdleReason(s, w, hasModel).ShouldPickOneUp?
    ensures w in s.env.workers
    ensures ListWorkerPool(s, w) == {} <==> forall id :: id in Matching(s, w) ==> SpentOn(s, w, id)
  {
    forall id ensures id in ListWorkerPool(s, w) <==> id in Matching(s, w) && !SpentOn(s, w, id) {
      ListedMatches(s, w, id);
    }
    if exists id :: id in Matching(s, w) && !SpentOn(s, w, id) {
      var id :| id in Matching(s, w) && !SpentOn(s, w, id);
      assert id in ListWorkerPool(s, w);
    }
  }
}

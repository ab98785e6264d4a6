/** The life of a run row over every interleaving of steps: the shape each status
    keeps, which statuses are final, and who may hold a run. */
module Lifecycle {
  import opened Runs
  import opened Steps

  // ---- the shape of a row -------------------------------------------------

  predicate Bare(r: Run) {
    r.worker.None? && r.claimedAt.None? && r.expiresAt.None? && r.heartbeatAt.None?
  }

  predicate Held(r: Run) {
    r.worker.Some? && r.claimedAt.Some? && r.expiresAt.Some? && r.heartbeatAt.Some?
  }

  /** What a row keeps through everything, deletions included. */
  predicate RowOk(r: Run) {
    match r.status
    case Queued => Bare(r)
    case Cancelled => Bare(r)
    case Running => r.claimedAt.Some? && r.expiresAt.Some? && r.heartbeatAt.Some?
    case Abandoned => r.worker.None?
    case _ => true
  }

  ghost predicate AllRowsOk(s: State) {
    forall id :: id in s.runs ==> RowOk(s.runs[id])
  }

  /** A run under way, parked or stopped belongs to a worker. */
  predicate NeedsWorker(status: RunStatus) {
    status.Running? || Parked(status) || status.Stopped?
  }

  predicate Manned(r: Run) {
    NeedsWorker(r.status) ==> r.worker.Some?
  }

  ghost predicate AllManned(s: State) {
    forall id :: id in s.runs ==> Manned(s.runs[id])
  }

  // ---- the state diagram --------------------------------------------------

  /** A cancel with a reason is on the row. */
  predicate Doomed(r: Run) {
    r.cancelReason.Some? && |r.cancelReason.value| > 0
  }

  /** Only a cancel writes a reason: a manager's, which always has one, or the hard
      cancel, which ends the run. */
  predicate ReasonAfter(step: Step, id: RunId, a: Run, b: Run) {
    b.cancelReason == a.cancelReason ||
    (step.Cancel? && step.id == id && step.reason != "" && b.cancelReason == Some(step.reason)) ||
    (step.CancelActive? && step.id == id && b.status.Cancelled? && b.cancelReason == Some(step.reason))
  }

  /** The lifecycle columns stay as they were. */
  predicate Still(a: Run, b: Run) {
    b.status == a.status && b.worker == a.worker && b.claimedAt == a.claimedAt &&
    b.expiresAt == a.expiresAt && b.heartbeatAt == a.heartbeatAt
  }

  /** The step is the landing write of a pause of this run. */
  predicate PausesRun(s: State, step: Step, id: RunId) {
    step.PauseWrite? && PauseLands(s, step.call) && s.pausing[step.call] == id
  }

  /** The arrows of the diagram: which step moves a row from one status to another,
      and what it does to the claim. */
  predicate Arrow(s: State, step: Step, id: RunId, a: Run, b: Run) {
    match (a.status, b.status)
    case (Queued, Running) => step.Claim? && step.id == id && b.worker == Some(step.w) && Held(b)
    case (Running, Running) => step.Extend? && step.id == id && a.worker == Some(step.w) && Renewed(a, b)
    case (Paused, Running) =>
      step.Resume? && step.id == id && a.worker == Some(step.w) && Held(b) && b.worker == a.worker
    case (AwaitingInput, Running) =>
      step.Resume? && step.id == id && a.worker == Some(step.w) && Held(b) && b.worker == a.worker
    case (Running, Queued) =>
      ((step.GiveBack? && a.worker == Some(step.w)) || step.ForceRequeue? || step.Reset? ||
       (step.AcknowledgeStop? && a.worker == Some(step.w) && !Doomed(a)) ||
       ((step.StaleRow? || step.ExpireRow?) && a.worker.Some? && a.pushed.None?)) && step.id == id && Bare(b)
    case (Running, Paused) =>
      (PausesRun(s, step, id) || (step.StaleRow? && step.id == id && a.pushed.None? && a.session.Some?)) &&
      b.worker == a.worker
    case (Running, AwaitingInput) => step.AwaitInput? && step.id == id && b.worker == a.worker
    case (Running, Succeeded) => ((step.Complete? && step.outcome.Success?) || step.Reset?) && step.id == id
    case (Queued, Succeeded) => step.Reset? && step.id == id
    case (Running, Failed) =>
      ((step.Complete? && step.outcome.Failure?) || step.FailMinimal? || (step.ReapRow? && a.worker.None?)) &&
      step.id == id
    case (Running, Stopped) => step.Complete? && step.outcome.Stop? && step.id == id && b.worker == a.worker
    case (Running, Cancelled) =>
      ((step.AcknowledgeStop? && a.worker == Some(step.w) && Doomed(a)) || step.CancelActive?) && step.id == id &&
      Bare(b)
    case (Queued, Cancelled) => (step.Cancel? || step.CancelActive?) && step.id == id && Bare(b)
    case (Stopped, Paused) =>
      step.MarkResumable? && step.id == id && a.org == step.org && a.worker.Some? && a.session.Some? &&
      b.worker == a.worker
    case (Paused, Abandoned) => step.Abandon? && step.id == id && a.org == step.org && b.worker.None?
    case (AwaitingInput, Abandoned) => step.Abandon? && step.id == id && a.org == step.org && b.worker.None?
    case _ => false
  }

  predicate Renewed(a: Run, b: Run) {
    b.worker == a.worker && b.claimedAt == a.claimedAt && b.expiresAt.Some? && b.heartbeatAt.Some?
  }

  /** Its worker is deleted, and nothing else about it changes. */
  predicate LosesWorker(step: Step, a: Run, b: Run) {
    step.RemoveAgent? && a.worker == Some(step.w) && b == a.(worker := None)
  }

  predicate Moves(s: State, step: Step, id: RunId, a: Run, b: Run) {
    Still(a, b) || Arrow(s, step, id, a, b) || LosesWorker(step, a, b)
  }

  /** The run's row is deleted, by itself or with its issue. */
  predicate Removes(r: Run, step: Step, id: RunId) {
    step == DropRun(id) || (r.issue.Some? && step == DeleteIssue(r.issue.value))
  }

  /** What a run is, and what it was dispatched over. */
  predicate SameWork(a: Run, b: Run) {
    b.org == a.org && b.issue == a.issue && b.kind == a.kind && b.prev == a.prev
  }

  /** Unless it is deleted, the run survives the step and its row moves along an arrow,
      loses its worker to a deletion, or does not move. */
  ghost predicate Follows(s: State, step: Step, id: RunId)
    requires id in s.runs
  {
    var t := Apply(s, step);
    if Removes(s.runs[id], step, id) then id !in t.runs && id in t.gone
    else
      id in t.runs && SameWork(s.runs[id], t.runs[id]) &&
      t.runs[id].resumeAttempts == s.runs[id].resumeAttempts + (if PausesRun(s, step, id) then 1 else 0) &&
      ReasonAfter(step, id, s.runs[id], t.runs[id]) &&
      (RowOk(s.runs[id]) ==> Moves(s, step, id, s.runs[id], t.runs[id]))
  }

  lemma {:induction false} DeletionFollows(s: State, step: Step, id: RunId)
    requires id in s.runs
    requires step.DeleteIssue? || step.DropRun? || step.RemoveAgent?
    ensures Follows(s, step, id)
  {
    hide Without;
  }

  lemma {:induction false} WorldFollows(s: State, step: Step, id: RunId)
    requires id in s.runs
    requires step.Dispatch? || step.Push? || step.HoldInQueue?
    ensures Follows(s, step, id)
  {
  }

  lemma {:induction false} QuietFollows(s: State, step: Step, id: RunId)
    requires id in s.runs
    requires step.Tick? || step.Configure? || step.SetPaused? || step.WriteIssue? || step.Block? || step.Cover? ||
             step.ReleaseBlock? || step.ResetAttempts? || step.PauseRead?
    ensures Follows(s, step, id)
  {
    assert Apply(s, step).runs == s.runs;
  }

  lemma {:induction false} ClaimFollows(s: State, step: Step, id: RunId)
    requires id in s.runs
    requires step.Claim?
    ensures Follows(s, step, id)
  {
    hide ClaimedIssues, ClaimLease;
  }

  lemma {:induction false} BeatsFollow(s: State, step: Step, id: RunId)
    requires id in s.runs
    requires step.Extend? || step.Resume?
    ensures Follows(s, step, id)
  {
    hide ClaimLease, Lease;
  }

  lemma {:induction false} ReleaseFollows(s: State, step: Step, id: RunId)
    requires id in s.runs
    requires step.GiveBack?
    ensures Follows(s, step, id)
  {
    hide RequeuedIssues;
  }

  lemma {:induction false} RequeueFollows(s: State, step: Step, id: RunId)
    requires id in s.runs
    requires step.ForceRequeue?
    ensures Follows(s, step, id)
  {
    hide RequeuedIssues;
  }

  lemma {:induction false} CompletionFollows(s: State, step: Step, id: RunId)
    requires id in s.runs
    requires step.Complete?
    ensures Follows(s, step, id)
  {
    hide FannedOut, Recorded, HandBackStatus;
  }

  lemma {:induction false} FailuresFollow(s: State, step: Step, id: RunId)
    requires id in s.runs
    requires step.FailMinimal? || step.ReapRow?
    ensures Follows(s, step, id)
  {
    hide WithStatus;
  }

  lemma {:induction false} CancelFollows(s: State, step: Step, id: RunId)
    requires id in s.runs
    requires step.Cancel?
    ensures Follows(s, step, id)
  {
    hide RestoredRun;
  }

  lemma {:induction false} HardCancelFollows(s: State, step: Step, id: RunId)
    requires id in s.runs && step.CancelActive?
    ensures Follows(s, step, id)
  {
  }

  lemma {:induction false} StopRequestFollows(s: State, step: Step, id: RunId)
    requires id in s.runs && step.RequestStop?
    ensures Follows(s, step, id)
  {
  }

  lemma {:induction false} AcknowledgementFollows(s: State, step: Step, id: RunId)
    requires id in s.runs
    requires step.AcknowledgeStop?
    ensures Follows(s, step, id)
  {
    hide RestoredRun;
  }

  lemma {:induction false} ResetFollows(s: State, step: Step, id: RunId)
    requires id in s.runs
    requires step.Reset?
    ensures Follows(s, step, id)
  {
    hide RestoredRun, SplitIssues;
  }

  lemma {:induction false} PauseFollows(s: State, step: Step, id: RunId)
    requires id in s.runs && step.PauseWrite?
    ensures Follows(s, step, id)
  {
  }

  lemma {:induction false} QuestionFollows(s: State, step: Step, id: RunId)
    requires id in s.runs && step.AwaitInput?
    ensures Follows(s, step, id)
  {
  }

  lemma {:induction false} ApprovalFollows(s: State, step: Step, id: RunId)
    requires id in s.runs && step.MarkResumable?
    ensures Follows(s, step, id)
  {
  }

  lemma {:induction false} AbandonmentFollows(s: State, step: Step, id: RunId)
    requires id in s.runs && step.Abandon?
    ensures Follows(s, step, id)
  {
  }

  lemma {:induction false} SilenceFollows(s: State, step: Step, id: RunId)
    requires id in s.runs
    requires step.StaleRow?
    ensures Follows(s, step, id)
  {
    hide RequeuedIssues, Recorded;
  }

  lemma {:induction false} ExpiryFollows(s: State, step: Step, id: RunId)
    requires id in s.runs
    requires step.ExpireRow?
    ensures Follows(s, step, id)
  {
    hide RequeuedIssues, Recorded;
  }

  /** Every step keeps every run it does not delete, and moves each row along an arrow of
      the diagram, takes its worker away by deleting it, or leaves its lifecycle columns
      alone. */
  lemma {:induction false} StepsFollowTheDiagram(s: State, step: Step, id: RunId)
    requires id in s.runs
    ensures Follows(s, step, id)
  {
    hide *;
    match step
    case Claim(_, _) => ClaimFollows(s, step, id);
    case Extend(_, _) => BeatsFollow(s, step, id);
    case Resume(_, _) => BeatsFollow(s, step, id);
    case GiveBack(_, _) => ReleaseFollows(s, step, id);
    case ForceRequeue(_) => RequeueFollows(s, step, id);
    case Complete(_, _, _, _) => CompletionFollows(s, step, id);
    case FailMinimal(_) => FailuresFollow(s, step, id);
    case ReapRow(_) => FailuresFollow(s, step, id);
    case Cancel(_, _) => CancelFollows(s, step, id);
    case CancelActive(_, _) => HardCancelFollows(s, step, id);
    case RequestStop(_) => StopRequestFollows(s, step, id);
    case AcknowledgeStop(_, _) => AcknowledgementFollows(s, step, id);
    case Reset(_) => ResetFollows(s, step, id);
    case PauseWrite(_, _) => PauseFollows(s, step, id);
    case AwaitInput(_, _) => QuestionFollows(s, step, id);
    case MarkResumable(_, _) => ApprovalFollows(s, step, id);
    case Abandon(_, _) => AbandonmentFollows(s, step, id);
    case StaleRow(_) => SilenceFollows(s, step, id);
    case ExpireRow(_) => ExpiryFollows(s, step, id);
    case Dispatch(_, _, _, _, _, _) => WorldFollows(s, step, id);
    case Push(_, _) => WorldFollows(s, step, id);
    case HoldInQueue(_, _) => WorldFollows(s, step, id);
    case DeleteIssue(_) => DeletionFollows(s, step, id);
    case DropRun(_) => DeletionFollows(s, step, id);
    case RemoveAgent(_) => DeletionFollows(s, step, id);
    case _ => QuietFollows(s, step, id);
  }

  lemma {:induction false} MovesKeepShape(s: State, step: Step, id: RunId, a: Run, b: Run)
    requires RowOk(a) && Moves(s, step, id, a, b)
    ensures RowOk(b)
    ensures Terminal(a.status) ==> b.status == a.status
  {
  }

  /** A row that is running was so before, or has just been claimed or resumed. */
  lemma {:induction false} IntoRunning(s: State, step: Step, id: RunId, a: Run, b: Run)
    requires Moves(s, step, id, a, b) && b.status.Running?
    ensures (a.status.Running? && (Still(a, b) || LosesWorker(step, a, b))) ||
            (b.worker.Some? &&
             (step == Claim(id, b.worker.value) || (step == Resume(id, b.worker.value) && a.worker == b.worker) ||
              (step == Extend(id, b.worker.value) && a.worker == b.worker && a.status.Running?)))
  {
  }

  lemma {:induction false} MovesKeepManned(s: State, step: Step, id: RunId, a: Run, b: Run)
    requires RowOk(a) && Moves(s, step, id, a, b)
    ensures Manned(a) ==> (Manned(b) <==> !(LosesWorker(step, a, b) && NeedsWorker(a.status)))
  {
  }

  /** Only a dispatch makes a run, and it makes it queued and unclaimed. */
  lemma {:induction false} NewRunsAreQueued(s: State, step: Step, id: RunId)
    requires id !in s.runs && id in Apply(s, step).runs
    ensures step.Dispatch? && step.id == id
    ensures Apply(s, step).runs[id].status.Queued? && Bare(Apply(s, step).runs[id])
    ensures Apply(s, step).runs[id].resumeAttempts == 0
  {
    if !step.Dispatch? {
      OnlyDispatchAddsRuns(s, step);
    }
  }

  lemma {:induction false} StepKeepsShape(s: State, step: Step)
    requires AllRowsOk(s)
    ensures AllRowsOk(Apply(s, step))
  {
    var t := Apply(s, step);
    forall id | id in t.runs ensures RowOk(t.runs[id]) {
      if id in s.runs {
        StepsFollowTheDiagram(s, step, id);
        MovesKeepShape(s, step, id, s.runs[id], t.runs[id]);
      } else {
        NewRunsAreQueued(s, step, id);
      }
    }
  }

  lemma {:induction false} ShapeAlways(s: State, steps: seq<Step>)
    requires AllRowsOk(s)
    ensures AllRowsOk(Exec(s, steps))
  {
    if steps != [] {
      ShapeAlways(s, steps[..|steps| - 1]);
      StepKeepsShape(Exec(s, steps[..|steps| - 1]), steps[|steps| - 1]);
    }
  }

  // ---- runs whose worker is deleted ---------------------------------------

  /** The step deletes an agent that a run under way, parked or stopped belongs to. */
  predicate Strands(s: State, step: Step) {
    step.RemoveAgent? &&
    exists id :: id in s.runs && s.runs[id].worker == Some(step.w) && NeedsWorker(s.runs[id].status)
  }

  lemma {:induction false} AgentLeaves(s: State, w: WorkerId, id: RunId)
    requires id in s.runs && s.runs[id].worker == Some(w)
    ensures var t := Apply(s, RemoveAgent(w));
            id in t.runs && t.runs[id] == s.runs[id].(worker := None)
  {
  }

  lemma {:induction false} StepKeepsMannedIff(s: State, step: Step)
    requires AllRowsOk(s) && AllManned(s)
    ensures AllManned(Apply(s, step)) <==> !Strands(s, step)
  {
    hide Apply;
    var t := Apply(s, step);
    if Strands(s, step) {
      var id :| id in s.runs && s.runs[id].worker == Some(step.w) && NeedsWorker(s.runs[id].status);
      AgentLeaves(s, step.w, id);
      assert !Manned(t.runs[id]);
    } else {
      forall id | id in t.runs
        ensures Manned(t.runs[id])
      {
        if id in s.runs {
          StepsFollowTheDiagram(s, step, id);
          MovesKeepManned(s, step, id, s.runs[id], t.runs[id]);
        } else {
          NewRunsAreQueued(s, step, id);
        }
      }
    }
  }

  ghost predicate MannedAlong(s: State, steps: seq<Step>) {
    forall k :: 0 <= k <= |steps| ==> AllManned(At(s, steps, k))
  }

  ghost predicate NoneStranded(s: State, steps: seq<Step>) {
    forall k :: 0 <= k < |steps| ==> !Strands(At(s, steps, k), steps[k])
  }

  lemma {:induction false} OneStepLonger(s: State, steps: seq<Step>)
    requires steps != []
    ensures var before, last := steps[..|steps| - 1], steps[|steps| - 1];
            (MannedAlong(s, steps) <==> MannedAlong(s, before) && AllManned(Exec(s, steps))) &&
            (NoneStranded(s, steps) <==> NoneStranded(s, before) && !Strands(Exec(s, before), last))
  {
    hide Exec, AllManned, Strands;
    var n := |steps| - 1;
    var before := steps[..n];
    assert steps[..n + 1] == steps;
    assert forall k :: 0 <= k <= n ==> before[..k] == steps[..k];
    forall k | 0 <= k <= n
      ensures At(s, before, k) == At(s, steps, k)
    {
    }
    assert At(s, steps, n + 1) == Exec(s, steps) && At(s, steps, n) == Exec(s, before);
  }

  /** Every run under way, parked or stopped has its worker all along exactly when no
      agent with such a run is ever deleted. */
  lemma {:induction false} MannedAlongIff(s: State, steps: seq<Step>)
    requires AllRowsOk(s) && AllManned(s)
    ensures MannedAlong(s, steps) <==> NoneStranded(s, steps)
  {
    if steps == [] {
      assert steps[..0] == [];
    } else {
      var before := steps[..|steps| - 1];
      MannedAlongIff(s, before);
      OneStepLonger(s, steps);
      ShapeAlways(s, before);
      if MannedAlong(s, before) {
        assert before[..|before|] == before && AllManned(At(s, before, |before|));
        hide Apply, AllRowsOk, AllManned, Strands, MannedAlong, NoneStranded;
        StepKeepsMannedIff(Exec(s, before), steps[|steps| - 1]);
      }
    }
  }

  /** The step deletes the holder of the run while it runs. */
  predicate StripsRunning(s: State, step: Step, id: RunId) {
    step.RemoveAgent? && HeldBy(s, id, step.w)
  }

  lemma {:induction false} OrphanStepIff(s: State, step: Step, id: RunId)
    requires AllRowsOk(s) && !Orphan(s, id)
    ensures Orphan(Apply(s, step), id) <==> StripsRunning(s, step, id)
  {
    hide Apply;
    var t := Apply(s, step);
    if id in s.runs {
      assert RowOk(s.runs[id]);
      hide AllRowsOk, RowOk, Arrow;
      StepsFollowTheDiagram(s, step, id);
      if id in t.runs && t.runs[id].status.Running? {
        IntoRunning(s, step, id, s.runs[id], t.runs[id]);
      }
      if StripsRunning(s, step, id) {
        AgentLeaves(s, step.w, id);
      }
    } else if id in t.runs {
      NewRunsAreQueued(s, step, id);
    }
  }

  lemma {:induction false} ReapedIffOrphan(s: State, id: RunId)
    ensures Apply(s, ReapRow(id)) == s <==> !Orphan(s, id)
    ensures Orphan(s, id) ==> RunIs(Apply(s, ReapRow(id)), id, Failed)
  {
    if Orphan(s, id) {
      assert RunIs(Apply(s, ReapRow(id)), id, Failed);
    }
  }

  /** The startup reaper looks for running runs without a worker. It finds nothing to do
      with a run, at any point, exactly when the run's holder was never deleted while it
      ran. */
  lemma {:induction false} NothingToReapIff(s: State, steps: seq<Step>, id: RunId)
    requires AllRowsOk(s) && !Orphan(s, id)
    ensures (forall k :: 0 <= k <= |steps| ==> Apply(At(s, steps, k), ReapRow(id)) == At(s, steps, k)) <==>
            (forall k :: 0 <= k < |steps| ==> !StripsRunning(At(s, steps, k), steps[k], id))
  {
    hide Apply, Exec;
    forall k | 0 <= k <= |steps|
      ensures Apply(At(s, steps, k), ReapRow(id)) == At(s, steps, k) <==> !Orphan(At(s, steps, k), id)
    {
      ReapedIffOrphan(At(s, steps, k), id);
    }
    OrphansIff(s, steps, id);
    hide Orphan, StripsRunning;
  }

  ghost predicate NeverOrphan(s: State, steps: seq<Step>, id: RunId) {
    forall k :: 0 <= k <= |steps| ==> !Orphan(At(s, steps, k), id)
  }

  ghost predicate NeverStripped(s: State, steps: seq<Step>, id: RunId) {
    forall k :: 0 <= k < |steps| ==> !StripsRunning(At(s, steps, k), steps[k], id)
  }

  lemma {:induction false} OrphansOneStepLonger(s: State, steps: seq<Step>, id: RunId)
    requires steps != []
    ensures var before, last := steps[..|steps| - 1], steps[|steps| - 1];
            (NeverOrphan(s, steps, id) <==> NeverOrphan(s, before, id) && !Orphan(Exec(s, steps), id)) &&
            (NeverStripped(s, steps, id) <==>
             NeverStripped(s, before, id) && !StripsRunning(Exec(s, before), last, id))
  {
    hide Exec, Orphan, StripsRunning;
    var n := |steps| - 1;
    var before := steps[..n];
    assert steps[..n + 1] == steps;
    assert forall k :: 0 <= k <= n ==> before[..k] == steps[..k];
    forall k | 0 <= k <= n
      ensures At(s, before, k) == At(s, steps, k)
    {
    }
    assert At(s, steps, n + 1) == Exec(s, steps) && At(s, steps, n) == Exec(s, before);
  }

  lemma {:induction false} OrphansIff(s: State, steps: seq<Step>, id: RunId)
    requires AllRowsOk(s) && !Orphan(s, id)
    ensures NeverOrphan(s, steps, id) <==> NeverStripped(s, steps, id)
  {
    if steps == [] {
      assert steps[..0] == [] && At(s, steps, 0) == s;
    } else {
      var before := steps[..|steps| - 1];
      OrphansIff(s, before, id);
      OrphansOneStepLonger(s, steps, id);
      if NeverOrphan(s, before, id) {
        assert before[..|before|] == before && !Orphan(At(s, before, |before|), id);
        ShapeAlways(s, before);
        hide Apply, Orphan, StripsRunning, NeverOrphan, NeverStripped;
        OrphanStepIff(Exec(s, before), steps[|steps| - 1], id);
      }
    }
  }

  // ---- whole runs ---------------------------------------------------------

  /** Some step deletes the run. */
  predicate Removed(r: Run, steps: seq<Step>, id: RunId) {
    exists k :: 0 <= k < |steps| && Removes(r, steps[k], id)
  }

  lemma {:induction false} GoneStaysGone(s: State, step: Step, id: RunId)
    requires id !in s.runs && id in s.gone
    ensures id !in Apply(s, step).runs && id in Apply(s, step).gone
  {
    if !step.Dispatch? {
      OnlyDispatchAddsRuns(s, step);
      hide Apply;
    }
  }

  /** A run is there, with the same work to do, exactly until it is deleted. */
  lemma {:induction false} RunStaysIff(s: State, steps: seq<Step>, id: RunId)
    requires id in s.runs
    ensures id in Exec(s, steps).runs <==> !Removed(s.runs[id], steps, id)
    ensures id in Exec(s, steps).runs ==> SameWork(s.runs[id], Exec(s, steps).runs[id])
    ensures id !in Exec(s, steps).runs ==> id in Exec(s, steps).gone
  {
    if steps != [] {
      var before, last := steps[..|steps| - 1], steps[|steps| - 1];
      RunStaysIff(s, before, id);
      var v := Exec(s, before);
      assert Removed(s.runs[id], steps, id) <==> Removed(s.runs[id], before, id) || Removes(s.runs[id], last, id) by {
        hide Apply, Exec, Removes;
        LastOrBefore(s.runs[id], steps, id);
      }
      if id in v.runs {
        StepsFollowTheDiagram(v, last, id);
      } else {
        GoneStaysGone(v, last, id);
      }
      hide Apply;
    }
  }

  lemma {:induction false} LastOrBefore(r: Run, steps: seq<Step>, id: RunId)
    requires steps != []
    ensures Removed(r, steps, id) <==> Removed(r, steps[..|steps| - 1], id) || Removes(r, steps[|steps| - 1], id)
  {
    hide Removes;
    var n := |steps| - 1;
    if k :| 0 <= k < |steps| && Removes(r, steps[k], id) {
      assert k < n ==> Removes(r, steps[..n][k], id);
    }
    if k :| 0 <= k < n && Removes(r, steps[..n][k], id) {
      assert Removes(r, steps[k], id);
    }
  }

  predicate StatusKept(s: State, t: State, id: RunId)
    requires id in s.runs
  {
    id in t.runs ==> t.runs[id].status == s.runs[id].status
  }

  /** A run that has succeeded, failed, been cancelled or been abandoned stays so for as
      long as it exists. */
  lemma {:induction false} TerminalIsFinal(s: State, steps: seq<Step>, id: RunId)
    requires AllRowsOk(s) && id in s.runs && Terminal(s.runs[id].status)
    ensures StatusKept(s, Exec(s, steps), id)
  {
    if steps != [] {
      var before := steps[..|steps| - 1];
      var v := Exec(s, before);
      TerminalIsFinal(s, before, id);
      RunStaysIff(s, before, id);
      ShapeAlways(s, before);
      if id in v.runs {
        StepsFollowTheDiagram(v, steps[|steps| - 1], id);
        if id in Exec(s, steps).runs {
          MovesKeepShape(v, steps[|steps| - 1], id, v.runs[id], Exec(s, steps).runs[id]);
        }
      } else {
        GoneStaysGone(v, steps[|steps| - 1], id);
      }
      hide Apply;
    }
  }

  predicate HasWorker(s: State, id: RunId) {
    id in s.runs && s.runs[id].worker.Some?
  }

  /** A worker that has gone was cleared by one particular step. */
  lemma {:induction false} SomeStepClears(s: State, steps: seq<Step>, a: nat, b: nat, id: RunId) returns (k: nat)
    requires a < b <= |steps|
    requires HasWorker(At(s, steps, a), id) && !HasWorker(At(s, steps, b), id)
    ensures a <= k < b
    ensures HasWorker(At(s, steps, k), id) && !HasWorker(At(s, steps, k + 1), id)
  {
    if HasWorker(At(s, steps, b - 1), id) {
      k := b - 1;
    } else {
      k := SomeStepClears(s, steps, a, b - 1, id);
    }
  }

  predicate Claims(s: State, step: Step, id: RunId) {
    step.Claim? && step.id == id && Claimable(s, id, step.w)
  }

  /** Between two successful claims of one run, some step took it away from its worker. */
  lemma {:induction false} ClaimIsExclusive(s: State, steps: seq<Step>, a: nat, b: nat, id: RunId) returns (k: nat)
    requires AllRowsOk(s) && a < b < |steps|
    requires Claims(At(s, steps, a), steps[a], id) && Claims(At(s, steps, b), steps[b], id)
    ensures a < k < b
    ensures HasWorker(At(s, steps, k), id) && !HasWorker(At(s, steps, k + 1), id)
  {
    AtNext(s, steps, a);
    ShapeAlways(s, steps[..b]);
    assert RowOk(At(s, steps, b).runs[id]);
    k := SomeStepClears(s, steps, a + 1, b, id);
  }

  // ---- parked runs --------------------------------------------------------

  predicate IsParked(s: State, id: RunId) {
    id in s.runs && Parked(s.runs[id].status)
  }

  predicate StillParked(s: State, t: State, id: RunId)
    requires id in s.runs
  {
    id in t.runs && t.runs[id].status == s.runs[id].status && t.runs[id].worker == s.runs[id].worker &&
    SameWork(s.runs[id], t.runs[id])
  }

  predicate Unparks(s: State, step: Step, id: RunId)
    requires id in s.runs
  {
    (step.Resume? && step.id == id && s.runs[id].worker == Some(step.w)) || (step.Abandon? && step.id == id) ||
    (step.RemoveAgent? && s.runs[id].worker == Some(step.w)) || Removes(s.runs[id], step, id)
  }

  /** A parked run keeps its status and its worker until that worker resumes it, it is
      abandoned, or one of them is deleted. One left without its worker can only be
      abandoned. */
  lemma {:induction false} ParkedRunWaits(s: State, steps: seq<Step>, id: RunId)
    requires AllRowsOk(s) && IsParked(s, id)
    requires forall k | 0 <= k < |steps| :: !Unparks(s, steps[k], id)
    ensures StillParked(s, Exec(s, steps), id)
  {
    if steps != [] {
      var before := steps[..|steps| - 1];
      ParkedRunWaits(s, before, id);
      ShapeAlways(s, before);
      StepsFollowTheDiagram(Exec(s, before), steps[|steps| - 1], id);
      assert !Unparks(s, steps[|steps| - 1], id);
    }
  }

  // ---- the unguarded write ------------------------------------------------

  /** The write of `awaiting_input_run` on its own: it names the row and nothing else. */
  function ParkUnguarded(s: State, id: RunId, session: Option<string>): State
    requires id in s.runs
  {
    SetRun(s, id, ParkedRow(s.runs[id], AwaitingInput, session))
  }

  /** Landing late, that write keeps the lifecycle exactly when the run is not
      finished and still has a worker: the guard it leaves out. */
  lemma {:induction false} LateParkIsSafeIff(s: State, id: RunId, session: Option<string>)
    requires AllRowsOk(s) && AllManned(s) && id in s.runs
    ensures var t := ParkUnguarded(s, id, session);
            AllRowsOk(t) && AllManned(t) && (Terminal(s.runs[id].status) ==> StatusKept(s, t, id))
            <==> !Terminal(s.runs[id].status) && s.runs[id].worker.Some?
  {
    var t := ParkUnguarded(s, id, session);
    assert t.runs[id].status.AwaitingInput?;
    if s.runs[id].worker.Some? {
      forall other | other in t.runs ensures RowOk(t.runs[other]) && Manned(t.runs[other]) {
        assert other != id ==> t.runs[other] == s.runs[other];
      }
    } else {
      assert !Manned(t.runs[id]);
    }
  }

  /** A hand-back that lands between its read and its write is undone by it. */
  lemma {:induction false} LateParkRevivesAFinishedRun(s: State, id: RunId, direct: bool, session: Option<string>)
    requires RunIs(s, id, RunStatus.Running)
    ensures RunIs(Apply(s, Complete(id, Success, direct, session)), id, Succeeded)
    ensures RunIs(ParkUnguarded(Apply(s, Complete(id, Success, direct, session)), id, session), id, AwaitingInput)
  {
  }
}

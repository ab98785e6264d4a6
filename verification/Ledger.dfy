/** The attempt ledger and the resume cap, over whole runs of the system. */
module Ledger {
  import opened Runs
  import opened Steps
  import opened Lifecycle

  /** Who spends an attempt, and on what: a failed hand-back, an expired lease, or a
      silence that sends the run back to the queue. Nothing else does. */
  function Spender(s: State, step: Step): Option<RunId> {
    match step
    case Complete(id, outcome, _, _) => if RunIs(s, id, RunStatus.Running) && outcome.Failure? then Some(id) else None
    case ExpireRow(id) => if Expired(s, id) then Some(id) else None
    case StaleRow(id) => if Stale(s, id) && s.runs[id].session.None? then Some(id) else None
    case _ => None
  }

  function SpendReason(step: Step): Reason {
    if step.Complete? then RunFailed else if step.ExpireRow? then LeaseExpired else HeartbeatStale
  }

  predicate SpendsOn(s: State, step: Step, i: IssueId) {
    var id := Spender(s, step);
    id.Some? && id.value in s.runs && s.runs[id.value].issue == Some(i)
  }

  predicate SpendsBy(s: State, step: Step, w: WorkerId, i: IssueId) {
    SpendsOn(s, step, i) && s.runs[Spender(s, step).value].worker == Some(w)
  }

  /** The manager clears an item's history, or the item is deleted with it. */
  predicate Clears(s: State, step: Step, i: IssueId) {
    match step
    case DeleteIssue(j) => i == j
    case ReleaseBlock(j) => i == j && Blocked(s, i)
    case ResetAttempts(j) => i == j && i in s.issues
    case _ => false
  }

  /** Attempts spent on an item since it was last cleared, counted from the history alone. */
  function Spent(s: State, steps: seq<Step>, i: IssueId): nat {
    if steps == [] then CountFor(s.attempts, i)
    else
      var before := Exec(s, steps[..|steps| - 1]);
      var step := steps[|steps| - 1];
      if Clears(before, step, i) then 0
      else Spent(s, steps[..|steps| - 1], i) + if SpendsOn(before, step, i) then 1 else 0
  }

  function SpentBy(s: State, steps: seq<Step>, w: WorkerId, i: IssueId): nat {
    if steps == [] then CountBy(s.attempts, w, i)
    else
      var before := Exec(s, steps[..|steps| - 1]);
      var step := steps[|steps| - 1];
      if Clears(before, step, i) then 0
      else SpentBy(s, steps[..|steps| - 1], w, i) + if SpendsBy(before, step, w, i) then 1 else 0
  }

  lemma {:induction false} ClearedCounts(attempts: seq<Attempt>, i: IssueId, w: WorkerId, j: IssueId)
    ensures CountFor(Without(attempts, i), j) == if i == j then 0 else CountFor(attempts, j)
    ensures CountBy(Without(attempts, i), w, j) == if i == j then 0 else CountBy(attempts, w, j)
  {
    if attempts != [] {
      var fewer := attempts[..|attempts| - 1];
      var last := attempts[|attempts| - 1];
      ClearedCounts(fewer, i, w, j);
      assert last.issue != i ==> Without(attempts, i)[..|Without(fewer, i)|] == Without(fewer, i);
    }
  }

  /** What one step does to the ledger. */
  lemma {:induction false} StepLedger(s: State, step: Step)
    ensures Apply(s, step).attempts ==
              if step.ReleaseBlock? && Clears(s, step, step.issueId) then Without(s.attempts, step.issueId)
              else if step.ResetAttempts? && Clears(s, step, step.issueId) then Without(s.attempts, step.issueId)
              else if step.DeleteIssue? then Without(s.attempts, step.issueId)
              else if Spender(s, step).Some? then
                Recorded(s.attempts, s.runs[Spender(s, step).value], Spender(s, step).value, SpendReason(step))
              else s.attempts
  {
    hide RequeuedIssues, FannedOut, HandBackStatus, ClaimedIssues, ClaimLease, RestoredRun, SplitIssues;
  }

  lemma {:induction false} AppendCounts(attempts: seq<Attempt>, a: Attempt, w: WorkerId, i: IssueId)
    ensures CountFor(attempts + [a], i) == CountFor(attempts, i) + if a.issue == i then 1 else 0
    ensures CountBy(attempts + [a], w, i) ==
            CountBy(attempts, w, i) + if a.issue == i && a.worker == Some(w) then 1 else 0
  {
    assert (attempts + [a])[..|attempts|] == attempts;
  }

  lemma {:induction false} StepCounts(s: State, step: Step, w: WorkerId, i: IssueId)
    ensures CountFor(Apply(s, step).attempts, i) ==
              if Clears(s, step, i) then 0 else CountFor(s.attempts, i) + if SpendsOn(s, step, i) then 1 else 0
    ensures CountBy(Apply(s, step).attempts, w, i) ==
              if Clears(s, step, i) then 0 else CountBy(s.attempts, w, i) + if SpendsBy(s, step, w, i) then 1 else 0
  {
    StepLedger(s, step);
    if step.ReleaseBlock? || step.ResetAttempts? || step.DeleteIssue? {
      ClearedCounts(s.attempts, step.issueId, w, i);
    } else if Spender(s, step).Some? {
      var id := Spender(s, step).value;
      var r := s.runs[id];
      if r.issue.Some? {
        AppendCounts(s.attempts, Attempt(r.issue.value, id, r.worker, r.kind, SpendReason(step)), w, i);
      }
    }
  }

  /** The rows of an item are exactly the attempts its history spent, and those of an
      agent on it exactly the ones that agent spent. */
  lemma {:induction false} LedgerIsConserved(s: State, steps: seq<Step>, w: WorkerId, i: IssueId)
    ensures CountFor(Exec(s, steps).attempts, i) == Spent(s, steps, i)
    ensures CountBy(Exec(s, steps).attempts, w, i) == SpentBy(s, steps, w, i)
  {
    if steps != [] {
      LedgerIsConserved(s, steps[..|steps| - 1], w, i);
      StepCounts(Exec(s, steps[..|steps| - 1]), steps[|steps| - 1], w, i);
    }
  }

  // ---- the resume cap -----------------------------------------------------

  /** At most one `pause_run` call is under way for a run. */
  ghost predicate PausesApart(s: State) {
    forall c, d :: c in s.pausing && d in s.pausing && s.pausing[c] == s.pausing[d] ==> c == d
  }

  /** No agent that holds a run has a higher cap on resumes. */
  ghost predicate HoldersCapped(s: State, cap: nat) {
    forall id :: id in s.runs && s.runs[id].status.Running? ==> ResumeCap(s.env, s.runs[id].worker) <= cap
  }

  ghost predicate WithinCap(s: State, cap: nat) {
    (forall id :: id in s.runs ==> s.runs[id].resumeAttempts <= cap) &&
    (forall c :: c in s.pausing && s.pausing[c] in s.runs ==> s.runs[s.pausing[c]].resumeAttempts < cap)
  }

  lemma {:induction false} OnlyReadsStartPauses(s: State, step: Step)
    requires !step.PauseWrite? && !step.PauseRead?
    ensures Apply(s, step).pausing == s.pausing
  {
    hide ClaimRun, ExtendClaim, ResumeClaim, CompleteRun, ReleaseClaim, ForceRequeueRun, CancelRun, CancelActiveRun,
         ResetRun, RequestRunStop, AcknowledgeRunStop, WritePause, ReadForPause, AwaitInputRun, MarkStoppedResumable,
         AbandonRun, SweepStale, SweepExpired, ReapOrphan, FailRunMinimal;
  }

  /** Pauses under way are of runs that exist, or did. */
  ghost predicate PausesOnRuns(s: State) {
    forall c :: c in s.pausing ==> s.pausing[c] in s.runs || s.pausing[c] in s.gone
  }

  lemma {:induction false} PauseWritesOnce(s: State, step: Step)
    requires step.PauseWrite?
    ensures Apply(s, step).pausing == s.pausing - {step.call}
  {
  }

  lemma {:induction false} PauseReads(s: State, step: Step)
    requires step.PauseRead?
    ensures Apply(s, step).pausing ==
            if step.call !in s.pausing && MayPause(s, step.id) then s.pausing[step.call := step.id] else s.pausing
    ensures Apply(s, step).runs == s.runs
  {
    hide MayPause;
  }

  lemma {:induction false} CapStep(s: State, step: Step, cap: nat)
    requires AllRowsOk(s) && PausesApart(s) && PausesOnRuns(s) && HoldersCapped(s, cap) && WithinCap(s, cap)
    ensures PausesOnRuns(Apply(s, step)) && WithinCap(Apply(s, step), cap)
  {
    hide Apply, AllRowsOk, Removes;
    var t := Apply(s, step);
    forall id | id in t.runs
      ensures t.runs[id].resumeAttempts <= cap
    {
      if id in s.runs {
        StepsFollowTheDiagram(s, step, id);
      } else {
        NewRunsAreQueued(s, step, id);
      }
    }
    forall c | c in t.pausing
      ensures t.pausing[c] in t.runs || t.pausing[c] in t.gone
      ensures t.pausing[c] in t.runs ==> t.runs[t.pausing[c]].resumeAttempts < cap
    {
      if step.PauseWrite? {
        PauseWritesOnce(s, step);
      } else if step.PauseRead? {
        PauseReads(s, step);
      } else {
        OnlyReadsStartPauses(s, step);
      }
      if t.pausing[c] in s.runs {
        StepsFollowTheDiagram(s, step, t.pausing[c]);
      } else {
        GoneStaysGone(s, step, t.pausing[c]);
      }
    }
  }

  /** While pauses of a run do not overlap and no run is held by an agent with a higher
      cap, no run is ever resumed past it. */
  lemma {:induction false} CapHolds(s: State, steps: seq<Step>, cap: nat)
    requires AllRowsOk(s) && PausesOnRuns(s) && WithinCap(s, cap)
    requires forall k: nat | k <= |steps| :: PausesApart(At(s, steps, k)) && HoldersCapped(At(s, steps, k), cap)
    ensures PausesOnRuns(Exec(s, steps)) && WithinCap(Exec(s, steps), cap)
  {
    if steps != [] {
      var before := steps[..|steps| - 1];
      forall k: nat | k <= |before|
        ensures PausesApart(At(s, before, k)) && HoldersCapped(At(s, before, k), cap)
      {
        assert before[..k] == steps[..k];
        assert PausesApart(At(s, steps, k));
      }
      CapHolds(s, before, cap);
      ShapeAlways(s, before);
      assert PausesApart(At(s, steps, |before|));
      CapStep(Exec(s, before), steps[|steps| - 1], cap);
    }
  }

  /** A landed pause goes past the cap exactly when the check its read made would
      fail if it were made again at the write. */
  lemma {:induction false} PauseOvershootsIff(s: State, call: CallId, session: Option<string>)
    requires PauseLands(s, call)
    ensures var id := s.pausing[call];
            id in Apply(s, PauseWrite(call, session)).runs &&
            (Apply(s, PauseWrite(call, session)).runs[id].resumeAttempts > ResumeCap(s.env, s.runs[id].worker)
             <==> !MayPause(s, id))
  {
  }

  /** A pause read before another one lands is still waiting to land afterwards. */
  lemma {:induction false} FirstPauseLands(s: State, id: RunId, w: WorkerId, c: CallId, d: CallId)
    requires HeldBy(s, id, w) && MayPause(s, id) && c != d && c !in s.pausing && d !in s.pausing
    ensures var once := WritePause(ReadForPause(ReadForPause(s, c, id), d, id), c, None);
            d in once.pausing && once.pausing[d] == id && once.env == s.env &&
            id in once.runs && once.runs[id] == PausedRow(s.runs[id], None)
  {
  }

  lemma {:induction false} LatePauseLands(s: State, id: RunId, w: WorkerId, d: CallId)
    requires Resumable(s, id, w) && d in s.pausing && s.pausing[d] == id
    ensures var t := WritePause(ResumeClaim(s, id, w), d, None);
            id in t.runs && t.runs[id].status.Paused? && t.runs[id].resumeAttempts == s.runs[id].resumeAttempts + 1
  {
    assert PauseLands(ResumeClaim(s, id, w), d);
  }

  /** Two pauses that both read before either wrote carry the run past its cap. */
  lemma {:induction false} OverlappingPausesOvershoot(s: State, id: RunId, w: WorkerId, c: CallId, d: CallId)
    requires HeldBy(s, id, w) && w in s.env.workers && s.env.workers[w].org == s.runs[id].org
    requires c != d && c !in s.pausing && d !in s.pausing
    requires s.runs[id].resumeAttempts + 1 == ResumeCap(s.env, Some(w))
    ensures var once := WritePause(ReadForPause(ReadForPause(s, c, id), d, id), c, None);
            var twice := WritePause(ResumeClaim(once, id, w), d, None);
            id in twice.runs && twice.runs[id].status.Paused? &&
            twice.runs[id].resumeAttempts == ResumeCap(s.env, Some(w)) + 1
  {
    FirstPauseLands(s, id, w, c, d);
    hide WritePause, ReadForPause, ResumeClaim;
    var once := WritePause(ReadForPause(ReadForPause(s, c, id), d, id), c, None);
    LatePauseLands(once, id, w, d);
  }
}

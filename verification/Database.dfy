/** The run lifecycle as the database performs it: rows updated in place, statement
    by statement. Every method ends in exactly the state its step describes. */
module Database {
  import opened Runs
  import opened Steps
  import opened Leases

  function LandedKeys(members: Items): set<IssueId> {
    set i | i in members && Landed(members[i])
  }

  function Unlanded(members: Items): Items {
    map i | i in members && !Landed(members[i]) :: members[i]
  }

  /** Two statements, one per half of the membership, then the run's own issue. */
  lemma {:induction false} SplitInTwo(before: Issues, members: Items, r: Run)
    ensures WithStatus(Restored(WithStatus(before, LandedKeys(members), InReview), Unlanded(members)),
                       OwnIssue(r), InReview)
            == SplitIssues(before, members, r)
  {
  }

  lemma {:induction false} FannedInTwo(before: Issues, members: Items, r: Run, status: IssueStatus)
    requires members != map[] && NeedsCommit(status)
    ensures WithStatus(Restored(WithStatus(before, LandedKeys(members), status), Unlanded(members)),
                       OwnIssue(r) - members.Keys, status)
            == FannedOut(before, members, r, status)
  {
  }

  lemma {:induction false} FannedAtOnce(before: Issues, members: Items, r: Run, status: IssueStatus)
    ensures !NeedsCommit(status) ==>
              WithStatus(WithStatus(before, members.Keys, status), OwnIssue(r) - members.Keys, status)
              == FannedOut(before, members, r, status)
    ensures members == map[] ==> WithStatus(before, OwnIssue(r), status) == FannedOut(before, members, r, status)
  {
  }

  class Db {
    var now: Time
    var env: Env
    var runs: map<RunId, Run>
    var items: map<RunId, Items>
    var issues: Issues
    var attempts: seq<Attempt>
    var pausing: map<CallId, RunId>
    /** Deleted run ids, which no new row is given. */
    var gone: set<RunId>

    function Snapshot(): State
      reads this
    {
      State(now, env, runs, items, issues, attempts, pausing, gone)
    }

    constructor (start: State)
      ensures Snapshot() == start
    {
      now, env, runs, items := start.now, start.env, start.runs, start.items;
      issues, attempts, pausing, gone := start.issues, start.attempts, start.pausing, start.gone;
    }

    /** Other callers' steps take effect. */
    method Elapse(steps: seq<Step>)
      modifies this
      ensures Snapshot() == Exec(old(Snapshot()), steps)
    {
      var after := Exec(Snapshot(), steps);
      now, env, runs, items := after.now, after.env, after.runs, after.items;
      issues, attempts, pausing, gone := after.issues, after.attempts, after.pausing, after.gone;
    }

    method SetPaused(w: WorkerId, paused: bool)
      modifies this`env
      ensures Snapshot() == Apply(old(Snapshot()), Step.SetPaused(w, paused))
    {
      if w !in env.workers { return; }
      env := env.(paused := if paused then env.paused + {w} else env.paused - {w},
                  config := if w in env.config then env.config else env.config[w := DEFAULT_CONFIG]);
    }

    method MemberRows(id: RunId) returns (members: Items)
      ensures members == ItemsOf(Snapshot(), id)
    {
      members := if id in items then items[id] else map[];
    }

    /** One `update issues set status = … where id = …`. */
    method SetIssueStatus(i: IssueId, status: IssueStatus)
      modifies this`issues
      ensures issues == WithStatus(old(issues), {i}, status)
    {
      if i in issues {
        issues := issues[i := issues[i].(status := status)];
      }
    }

    method RecordRunAttempt(r: Run, id: RunId, reason: Reason)
      modifies this`attempts
      ensures attempts == Recorded(old(attempts), r, id, reason)
    {
      if r.issue.None? { return; }
      attempts := attempts + [Attempt(r.issue.value, id, r.worker, r.kind, reason)];
    }

    /** The member loop every undo shares. */
    method RestoreMembers(members: Items)
      modifies this`issues
      ensures issues == Restored(old(issues), members)
    {
      var todo := members.Keys;
      while todo != {}
        invariant todo <= members.Keys
        invariant issues == Restored(old(issues), map i | i in members && i !in todo :: members[i])
        decreases todo
      {
        var i :| i in todo;
        SetIssueStatus(i, members[i].prev.GetOr(Planned));
        todo := todo - {i};
      }
      assert (map i | i in members && i !in todo :: members[i]) == members;
    }

    method RestoreRunIssues(r: Run, members: Items)
      modifies this`issues
      ensures issues == RestoredRun(old(issues), members, r)
    {
      var target := if r.prev.Some? then r.prev else Fallback(r.kind);
      RestoreMembers(members);
      if r.issue.Some? && target.Some? {
        SetIssueStatus(r.issue.value, target.value);
      }
    }

    /** A hand-back of several stories: landed ones forward, the others back, and the
        run's own issue along with its members. */
    method FanOutMembers(members: Items, r: Run, status: IssueStatus)
      requires members != map[]
      modifies this`issues
      ensures issues == FannedOut(old(issues), members, r, status)
    {
      if NeedsCommit(status) {
        issues := WithStatus(issues, LandedKeys(members), status);
        RestoreMembers(Unlanded(members));
        FannedInTwo(old(issues), members, r, status);
      } else {
        issues := WithStatus(issues, members.Keys, status);
        FannedAtOnce(old(issues), members, r, status);
      }
      ghost var others := issues;
      if r.issue.Some? && r.issue.value !in members {
        SetIssueStatus(r.issue.value, status);
      }
      assert issues == WithStatus(others, OwnIssue(r) - members.Keys, status);
    }

    /** `_fan_out_issue_status` */
    method FanOutIssueStatus(id: RunId, r: Run, status: IssueStatus)
      modifies this`issues
      ensures issues == FannedOut(old(issues), old(ItemsOf(Snapshot(), id)), r, status)
    {
      var members := MemberRows(id);
      if members != map[] {
        FanOutMembers(members, r, status);
        return;
      }
      FannedAtOnce(issues, members, r, status);
      issues := WithStatus(issues, OwnIssue(r), status);
    }

    method ClaimRun(id: RunId, w: WorkerId) returns (claimed: bool)
      modifies this`runs, this`issues
      ensures Snapshot() == Steps.ClaimRun(old(Snapshot()), id, w)
      ensures claimed <==> old(Claimable(Snapshot(), id, w))
    {
      claimed := false;
      if w !in env.workers || id !in runs { return; }
      var r := runs[id];
      var duplicate := r.kind.Breakdown? && r.issue.Some? &&
        exists other :: other in runs && other != id && runs[other].issue == r.issue &&
                        runs[other].kind.Breakdown? && runs[other].status.Succeeded?;
      if r.org != env.workers[w].org || r.status != Queued || WorkerPaused(env, w) || id in env.held ||
         r.queuePause.Some? || duplicate {
        return;
      }
      var lease := Min(Lease(env, w) * Units(env, id), TotalLease(env, w));
      runs := runs[id := r.(worker := Some(w), claimedAt := Some(now), status := RunStatus.Running,
                            expiresAt := Some(now + lease), heartbeatAt := Some(now))];
      var members := MemberRows(id);
      if r.kind.Plan? {
        issues := WithStatus(issues, Covered(members, r), Planning);
      } else if r.kind.Code? {
        issues := WithStatus(issues, Covered(members, r), Building);
      }
      claimed := true;
    }

    method ExtendClaim(id: RunId, w: WorkerId) returns (extended: bool)
      modifies this`runs
      ensures Snapshot() == Steps.ExtendClaim(old(Snapshot()), id, w)
      ensures extended <==> old(HeldBy(Snapshot(), id, w))
    {
      extended := id in runs && runs[id].worker == Some(w) && runs[id].status == RunStatus.Running;
      if extended {
        runs := runs[id := runs[id].(expiresAt := Some(now + Lease(env, w)), heartbeatAt := Some(now))];
      }
    }

    method ResumeClaim(id: RunId, w: WorkerId) returns (resumed: bool)
      modifies this`runs
      ensures Snapshot() == Steps.ResumeClaim(old(Snapshot()), id, w)
      ensures resumed <==> old(Resumable(Snapshot(), id, w))
    {
      resumed := w in env.workers && id in runs && runs[id].org == env.workers[w].org &&
                 runs[id].worker == Some(w) && Parked(runs[id].status);
      if resumed {
        var lease := Min(Lease(env, w) * Units(env, id), TotalLease(env, w));
        runs := runs[id := runs[id].(status := RunStatus.Running, claimedAt := Some(now),
                                     expiresAt := Some(now + lease), heartbeatAt := Some(now))];
      }
    }

    /** Drop the claim; plan and code runs put their issues back in the queue. */
    method Requeue(id: RunId)
      requires id in runs
      modifies this`runs, this`issues
      ensures Snapshot() == BackToPool(old(Snapshot()), id)
    {
      var r := runs[id];
      runs := runs[id := r.(status := Queued, worker := None, claimedAt := None, expiresAt := None,
                            heartbeatAt := None)];
      if MovesIssues(r.kind) {
        var members := MemberRows(id);
        issues := WithStatus(issues, Covered(members, r), Waiting);
      }
    }

    method ReleaseClaim(id: RunId, w: WorkerId) returns (released: bool)
      modifies this`runs, this`issues
      ensures Snapshot() == Steps.ReleaseClaim(old(Snapshot()), id, w)
      ensures released <==> old(HeldBy(Snapshot(), id, w))
    {
      released := id in runs && runs[id].worker == Some(w) && runs[id].status == RunStatus.Running;
      if released {
        Requeue(id);
      }
    }

    method ForceRequeueRun(id: RunId) returns (requeued: bool)
      modifies this`runs, this`issues
      ensures Snapshot() == Steps.ForceRequeueRun(old(Snapshot()), id)
      ensures requeued <==> old(RunIs(Snapshot(), id, RunStatus.Running))
    {
      requeued := id in runs && runs[id].status == RunStatus.Running;
      if requeued {
        Requeue(id);
      }
    }

    method CompleteRun(id: RunId, outcome: Outcome, direct: bool, session: Option<string>) returns (landed: bool)
      modifies this`runs, this`issues, this`attempts
      ensures Snapshot() == Steps.CompleteRun(old(Snapshot()), id, outcome, direct, session)
      ensures landed <==> old(RunIs(Snapshot(), id, RunStatus.Running))
    {
      landed := id in runs && runs[id].status == RunStatus.Running;
      if !landed { return; }
      var r := runs[id];
      runs := runs[id := r.(status := EndStatus(outcome), session := if session.Some? then session else r.session)];
      if outcome.Failure? {
        RecordRunAttempt(r, id, RunFailed);
      }
      var status := HandBackStatus(r, outcome, direct);
      if status.Some? {
        FanOutIssueStatus(id, r, status.value);
      }
    }

    method FailRunMinimal(id: RunId) returns (landed: bool)
      modifies this`runs
      ensures Snapshot() == Steps.FailRunMinimal(old(Snapshot()), id)
      ensures landed <==> old(RunIs(Snapshot(), id, RunStatus.Running))
    {
      landed := id in runs && runs[id].status == RunStatus.Running;
      if landed {
        runs := runs[id := runs[id].(status := Failed)];
      }
    }

    /** `_record_cancel`: retire the run and put its work items back. */
    method RecordCancel(id: RunId, reason: string)
      requires id in runs
      modifies this`runs, this`issues
      ensures Snapshot() == Undone(old(Snapshot()), id, CancelledRow(old(runs[id]), reason))
    {
      var r := runs[id];
      runs := runs[id := r.(status := Cancelled, cancelReason := Some(reason), worker := None, claimedAt := None,
                            expiresAt := None, heartbeatAt := None, queuePause := None, stopAt := None)];
      var members := MemberRows(id);
      RestoreRunIssues(r, members);
    }

    method CancelRun(id: RunId, reason: string) returns (accepted: bool)
      modifies this`runs, this`issues
      ensures Snapshot() == Steps.CancelRun(old(Snapshot()), id, reason)
      ensures accepted <==> reason != "" && id in old(runs) && Active(old(runs[id].status))
    {
      accepted := reason != "" && id in runs && Active(runs[id].status);
      if !accepted { return; }
      if runs[id].status == RunStatus.Running {
        runs := runs[id := runs[id].(cancelReason := Some(reason), stopAt := Some(runs[id].stopAt.GetOr(now)))];
        return;
      }
      RecordCancel(id, reason);
    }

    method CancelActiveRun(id: RunId, reason: string)
      modifies this`runs
      ensures Snapshot() == Steps.CancelActiveRun(old(Snapshot()), id, reason)
    {
      if id in runs && Active(runs[id].status) {
        runs := runs[id := runs[id].(status := Cancelled, cancelReason := Some(reason), worker := None,
                                     claimedAt := None, expiresAt := None, heartbeatAt := None,
                                     queuePause := None, stopAt := None)];
      }
    }

    /** `_reset_run_split` */
    method ResetRunSplit(id: RunId, members: Items)
      requires id in runs && members == ItemsOf(Snapshot(), id)
      modifies this`runs, this`issues
      ensures Snapshot() == SetRun(old(Snapshot()), id, Unclaimed(old(runs[id]), Succeeded)).(
                              issues := SplitIssues(old(issues), members, old(runs[id])))
    {
      var r := runs[id];
      runs := runs[id := r.(status := Succeeded, worker := None, claimedAt := None, expiresAt := None,
                            heartbeatAt := None, queuePause := None, stopAt := None)];
      issues := WithStatus(issues, LandedKeys(members), InReview);
      RestoreMembers(Unlanded(members));
      ghost var others := issues;
      if r.issue.Some? {
        SetIssueStatus(r.issue.value, InReview);
      }
      assert issues == WithStatus(others, OwnIssue(r), InReview);
      SplitInTwo(old(issues), members, r);
    }

    method ResetRun(id: RunId) returns (active: bool)
      modifies this`runs, this`issues
      ensures Snapshot() == Steps.ResetRun(old(Snapshot()), id)
      ensures active <==> id in old(runs) && Active(old(runs[id].status))
    {
      active := id in runs && Active(runs[id].status);
      if !active { return; }
      var r := runs[id];
      var members := MemberRows(id);
      if exists i :: i in members && Landed(members[i]) {
        ResetRunSplit(id, members);
        return;
      }
      runs := runs[id := r.(status := Queued, worker := None, claimedAt := None, expiresAt := None,
                            heartbeatAt := None, queuePause := None)];
      RestoreRunIssues(r, members);
    }

    method RequestRunStop(id: RunId) returns (asked: bool)
      modifies this`runs
      ensures Snapshot() == Steps.RequestRunStop(old(Snapshot()), id)
      ensures asked <==> old(RunIs(Snapshot(), id, RunStatus.Running))
    {
      asked := id in runs && runs[id].status == RunStatus.Running;
      if asked {
        runs := runs[id := runs[id].(stopAt := Some(runs[id].stopAt.GetOr(now)))];
      }
    }

    method AcknowledgeStop(id: RunId, w: WorkerId) returns (acknowledged: bool)
      modifies this`runs, this`issues
      ensures Snapshot() == Steps.AcknowledgeRunStop(old(Snapshot()), id, w)
      ensures acknowledged <==> old(StopPending(Snapshot(), id, w))
    {
      acknowledged := id in runs && runs[id].worker == Some(w) && runs[id].status == RunStatus.Running &&
                      runs[id].stopAt.Some?;
      if !acknowledged { return; }
      var r := runs[id];
      if r.cancelReason.Some? && r.cancelReason.value != "" {
        RecordCancel(id, r.cancelReason.value);
        return;
      }
      runs := runs[id := r.(status := Queued, worker := None, claimedAt := None, expiresAt := None,
                            heartbeatAt := None, queuePause := None, stopAt := None)];
      var members := MemberRows(id);
      RestoreRunIssues(r, members);
    }

    /** The first connection of `pause_run`: is it running, and under its cap? */
    method PauseRead(call: CallId, id: RunId) returns (mayPause: bool)
      modifies this`pausing
      ensures Snapshot() == ReadForPause(old(Snapshot()), call, id)
      ensures mayPause <==> old(MayPause(Snapshot(), id))
    {
      mayPause := id in runs && runs[id].status == RunStatus.Running &&
                  runs[id].resumeAttempts < ResumeCap(env, runs[id].worker);
      if mayPause && call !in pausing {
        pausing := pausing[call := id];
      }
    }

    /** The second connection: the guarded write. */
    method PauseWrite(call: CallId, session: Option<string>) returns (landed: bool)
      modifies this`runs, this`pausing
      ensures Snapshot() == WritePause(old(Snapshot()), call, session)
      ensures landed <==> old(PauseLands(Snapshot(), call))
    {
      landed := false;
      if call !in pausing { return; }
      var id := pausing[call];
      pausing := pausing - {call};
      if id in runs && runs[id].status == RunStatus.Running {
        var r := runs[id];
        runs := runs[id := r.(status := Paused, session := if session.Some? then session else r.session,
                              resumeAttempts := r.resumeAttempts + 1, claimedAt := None, expiresAt := None,
                              heartbeatAt := None)];
        landed := true;
      }
    }

    method AwaitingInputRun(id: RunId, session: Option<string>) returns (parked: bool)
      modifies this`runs
      ensures Snapshot() == AwaitInputRun(old(Snapshot()), id, session)
      ensures parked <==> old(RunIs(Snapshot(), id, RunStatus.Running))
    {
      parked := id in runs && runs[id].status == RunStatus.Running;
      if parked {
        var r := runs[id];
        runs := runs[id := r.(status := AwaitingInput, session := if session.Some? then session else r.session,
                              claimedAt := None, expiresAt := None, heartbeatAt := None)];
      }
    }

    method MarkStoppedResumable(id: RunId, org: OrgId) returns (marked: bool)
      modifies this`runs
      ensures Snapshot() == Steps.MarkStoppedResumable(old(Snapshot()), id, org)
      ensures marked <==> old(RunIs(Snapshot(), id, Stopped)) && RunIs(Snapshot(), id, Paused)
    {
      marked := id in runs && runs[id].org == org && runs[id].status == Stopped &&
                runs[id].worker.Some? && runs[id].session.Some?;
      if marked {
        runs := runs[id := runs[id].(status := Paused)];
      }
    }

    method AbandonRun(id: RunId, org: OrgId) returns (abandoned: bool)
      modifies this`runs
      ensures Snapshot() == Steps.AbandonRun(old(Snapshot()), id, org)
      ensures abandoned <==> !old(RunIs(Snapshot(), id, Abandoned)) && RunIs(Snapshot(), id, Abandoned)
    {
      abandoned := id in runs && runs[id].org == org && Parked(runs[id].status);
      if abandoned {
        runs := runs[id := runs[id].(status := Abandoned, worker := None)];
      }
    }

    method DropAttempts(i: IssueId) returns (cleared: nat)
      modifies this`attempts
      ensures attempts == Without(old(attempts), i) && cleared == CountFor(old(attempts), i)
    {
      var kept: seq<Attempt> := [];
      cleared := 0;
      for k := 0 to |attempts|
        invariant kept == Without(attempts[..k], i) && cleared == CountFor(attempts[..k], i)
      {
        assert attempts[..k + 1][..k] == attempts[..k];
        if attempts[k].issue != i {
          kept := kept + [attempts[k]];
        } else {
          cleared := cleared + 1;
        }
      }
      assert attempts[..|attempts|] == attempts;
      attempts := kept;
    }

    method DeleteAttempts(i: IssueId) returns (cleared: nat)
      requires i in issues
      modifies this`issues, this`attempts
      ensures Snapshot() == ClearAttempts(old(Snapshot()), i)
      ensures cleared == CountFor(old(attempts), i)
    {
      issues := issues[i := issues[i].(blocked := false)];
      cleared := DropAttempts(i);
    }

    method ReleaseAttemptBlock(i: IssueId) returns (released: bool)
      modifies this`issues, this`attempts
      ensures Snapshot() == Apply(old(Snapshot()), ReleaseBlock(i))
      ensures released <==> old(Blocked(Snapshot(), i))
    {
      released := i in issues && issues[i].blocked;
      if released {
        var _ := DeleteAttempts(i);
      }
    }

    /** Answers how many attempts were cleared. */
    method ResetIssueAttempts(i: IssueId) returns (cleared: nat)
      modifies this`issues, this`attempts
      ensures Snapshot() == Apply(old(Snapshot()), ResetAttempts(i))
      ensures cleared == if i in old(issues) then CountFor(old(attempts), i) else 0
    {
      cleared := 0;
      if i in issues {
        cleared := DeleteAttempts(i);
      }
    }

    // ---- deletions --------------------------------------------------------

    /** `force_delete_issues` of one item, with what its deletion takes along. */
    method DeleteIssue(i: IssueId) returns (deleted: bool)
      modifies this
      ensures Snapshot() == Apply(old(Snapshot()), Step.DeleteIssue(i))
      ensures deleted <==> i in old(issues)
    {
      deleted := i in issues;
      var its := set id | id in runs && runs[id].issue == Some(i);
      runs, items, gone := runs - its, items - its, gone + its;
      items := map id | id in items :: items[id] - {i};
      issues := issues - {i};
      var _ := DropAttempts(i);
    }

    /** What the deletion of a person's account does to an agent of theirs. */
    method RemoveAgent(w: WorkerId)
      modifies this`env, this`runs
      ensures Snapshot() == Apply(old(Snapshot()), Step.RemoveAgent(w))
    {
      env := env.(workers := env.workers - {w}, config := env.config - {w}, paused := env.paused - {w},
                  access := set a | a in env.access && a.0 != w);
      runs := map id | id in runs :: if runs[id].worker == Some(w) then runs[id].(worker := None) else runs[id];
    }

    // ---- sweeps -----------------------------------------------------------

    /** What a sweep writes for one requeued run: an attempt, and its issues queued again. */
    method ChargeRow(r: Run, id: RunId, reason: Reason)
      modifies this`issues, this`attempts
      ensures attempts == Recorded(old(attempts), r, id, reason)
      ensures issues ==
        if MovesIssues(r.kind) then WithStatus(old(issues), old(Covered(ItemsOf(Snapshot(), id), r)), Waiting)
        else old(issues)
    {
      RecordRunAttempt(r, id, reason);
      if MovesIssues(r.kind) {
        var members := MemberRows(id);
        issues := WithStatus(issues, Covered(members, r), Waiting);
      }
    }

    /** Row by row: a requeued run costs its agent an attempt and takes its issues along. */
    method SettleStale(was: map<RunId, Run>, swept: set<RunId>, ghost start: State) returns (rows: seq<RunId>)
      requires was == start.runs && items == start.items && issues == start.issues && attempts == start.attempts
      requires forall id :: id in swept ==> id in was && Stale(start, id)
      modifies this`issues, this`attempts
      ensures forall id :: id in rows <==> id in swept
      ensures issues == Exec(start, StaleRows(rows)).issues && attempts == Exec(start, StaleRows(rows)).attempts
    {
      hide Exec, Apply, StaleRows, Stale, WithStatus, Covered, Recorded, MovesIssues;
      NoRowsSwept(start);
      rows := [];
      var todo := swept;
      while todo != {}
        invariant todo <= swept
        invariant forall id :: id in rows <==> id in swept - todo
        invariant issues == Exec(start, StaleRows(rows)).issues && attempts == Exec(start, StaleRows(rows)).attempts
        decreases todo
      {
        var id :| id in todo;
        StaleJoins(start, rows, id);
        if was[id].session.None? {
          ChargeRow(was[id], id, HeartbeatStale);
        }
        rows := rows + [id];
        todo := todo - {id};
      }
    }

    /** One statement moves every stale row not locked elsewhere, then its rows are settled. */
    method RequeueStaleHeartbeats(locked: set<RunId>) returns (rows: seq<RunId>)
      modifies this`runs, this`issues, this`attempts
      ensures Snapshot() == Exec(old(Snapshot()), StaleRows(rows))
      ensures forall id :: id in rows <==> id !in locked && old(Stale(Snapshot(), id))
    {
      hide Exec, Apply, StaleRows;
      ghost var start := Snapshot();
      var was := runs;
      var swept := set id | id in runs && id !in locked && runs[id].status == RunStatus.Running &&
                            runs[id].worker.Some? && runs[id].worker.value in env.config && runs[id].pushed.None? &&
                            LastSign(runs[id]).Some? && LastSign(runs[id]).value < now - HEARTBEAT_STALE;
      assert forall id :: id in swept <==> id !in locked && Stale(start, id);
      hide Stale, StaleRowAfter;
      runs := map id | id in was :: if id in swept then StaleRowAfter(was[id]) else was[id];
      rows := SettleStale(was, swept, start);
      StaleSweepRows(start, rows);
      StaleSweepRest(start, rows);
      assert runs == Exec(start, StaleRows(rows)).runs;
    }

    /** The same for expired leases, every one of which costs an attempt. */
    method SettleExpired(was: map<RunId, Run>, swept: set<RunId>, ghost start: State) returns (rows: seq<RunId>)
      requires was == start.runs && items == start.items && issues == start.issues && attempts == start.attempts
      requires forall id :: id in swept ==> id in was && Expired(start, id)
      modifies this`issues, this`attempts
      ensures forall id :: id in rows <==> id in swept
      ensures issues == Exec(start, ExpireRows(rows)).issues && attempts == Exec(start, ExpireRows(rows)).attempts
    {
      hide Exec, Apply, ExpireRows, Expired, WithStatus, Covered, Recorded, MovesIssues;
      NoRowsSwept(start);
      rows := [];
      var todo := swept;
      while todo != {}
        invariant todo <= swept
        invariant forall id :: id in rows <==> id in swept - todo
        invariant issues == Exec(start, ExpireRows(rows)).issues && attempts == Exec(start, ExpireRows(rows)).attempts
        decreases todo
      {
        var id :| id in todo;
        ExpiryJoins(start, rows, id);
        ChargeRow(was[id], id, LeaseExpired);
        rows := rows + [id];
        todo := todo - {id};
      }
    }

    /** Expired claims without pushed work go back to the queue. */
    method RequeueLapsedLeases(locked: set<RunId>) returns (rows: seq<RunId>)
      modifies this`runs, this`issues, this`attempts
      ensures Snapshot() == Exec(old(Snapshot()), ExpireRows(rows))
      ensures forall id :: id in rows <==> id !in locked && old(Expired(Snapshot(), id))
    {
      hide Exec, Apply, ExpireRows;
      ghost var start := Snapshot();
      var was := runs;
      var swept := set id | id in runs && id !in locked && runs[id].status == RunStatus.Running &&
                            runs[id].worker.Some? && runs[id].expiresAt.Some? &&
                            runs[id].expiresAt.value < now && runs[id].pushed.None?;
      assert forall id :: id in swept <==> id !in locked && Expired(start, id);
      hide Expired, Requeued;
      runs := map id | id in was :: if id in swept then Requeued(was[id]) else was[id];
      rows := SettleExpired(was, swept, start);
      ExpirySweepRows(start, rows);
      ExpirySweepRest(start, rows);
      assert runs == Exec(start, ExpireRows(rows)).runs;
    }

    /** `requeue_expired_claims`: with no row locked elsewhere, nothing stale and
        nothing expired is left. */
    method RequeueExpiredClaims(locked: set<RunId>) returns (stale: seq<RunId>, expired: seq<RunId>)
      modifies this`runs, this`issues, this`attempts
      ensures Snapshot() == FullSweep(old(Snapshot()), stale, expired)
      ensures locked == {} ==> Quiet(Snapshot())
    {
      ghost var start := Snapshot();
      stale := RequeueStaleHeartbeats(locked);
      expired := RequeueLapsedLeases(locked);
      if locked == {} {
        SweepLeavesNothing(start, stale, expired);
      }
    }
  }
}

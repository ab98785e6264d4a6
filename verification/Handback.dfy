/** What a run gives back: the undo of a dispatch over any history, and a hand-back
    that follows the recorded commits rather than the run's own word. */
module Handback {
  import opened Runs
  import opened Steps
  import opened Lifecycle

  // ---- what never changes about a run -------------------------------------

  /** One step leaves the memberships of a run as they are, but for the place of an issue
      it deletes and a commit it records. */
  ghost predicate MembersAfter(a: Items, b: Items, step: Step, id: RunId) {
    (forall i :: i in b <==> i in a && step != DeleteIssue(i)) &&
    forall i :: i in b ==>
      b[i].prev == a[i].prev && a[i].commits <= b[i].commits &&
      (b[i].commits == a[i].commits || (step.Cover? && step.id == id && step.issueId == i))
  }

  lemma {:induction false} DispatchKeepsMembers(s: State, step: Step, id: RunId)
    requires id in s.runs && step.Dispatch?
    ensures ItemsOf(Apply(s, step), id) == ItemsOf(s, id)
  {
  }

  lemma {:induction false} CoverKeepsMembers(s: State, step: Step, id: RunId)
    requires step.Cover?
    ensures MembersAfter(ItemsOf(s, id), ItemsOf(CoverCommit(s, step.id, step.issueId, step.sha), id), step, id)
  {
  }

  lemma {:induction false} OthersKeepItems(s: State, step: Step)
    requires OfTheWorld(step) && !step.Dispatch?
    ensures Apply(s, step).items ==
            if step.Cover? then CoverCommit(s, step.id, step.issueId, step.sha).items else s.items
  {
    WorldStepIs(s, step);
    StepIs(s, step);
    hide Apply, CoverCommit, DispatchRun, Without, WithStatus, WithPaused;
  }

  lemma {:induction false} WorldKeepsMembers(s: State, step: Step, id: RunId)
    requires id in s.runs && OfTheWorld(step)
    ensures MembersAfter(ItemsOf(s, id), ItemsOf(Apply(s, step), id), step, id)
  {
    hide Apply, CoverCommit;
    if step.Dispatch? {
      DispatchKeepsMembers(s, step, id);
    } else {
      OthersKeepItems(s, step);
      if step.Cover? {
        CoverKeepsMembers(s, step, id);
      }
    }
  }

  lemma {:induction false} DeletionsKeepMembers(s: State, step: Step, id: RunId)
    requires id in s.runs && Deletes(step) && id in Apply(s, step).runs
    ensures MembersAfter(ItemsOf(s, id), ItemsOf(Apply(s, step), id), step, id)
  {
    hide Without;
  }

  /** Only a dispatch, a recorded commit and the deletion of a member write memberships,
      and a commit only adds. */
  lemma {:induction false} MembersKept(s: State, step: Step, id: RunId)
    requires id in s.runs && id in Apply(s, step).runs
    ensures MembersAfter(ItemsOf(s, id), ItemsOf(Apply(s, step), id), step, id)
  {
    hide Apply;
    if OfTheWorld(step) {
      WorldKeepsMembers(s, step, id);
    } else if Deletes(step) {
      DeletionsKeepMembers(s, step, id);
    } else {
      OwnStepsKeepTables(s, step);
    }
  }

  lemma {:induction false} WorldKeepsIssues(s: State, step: Step)
    requires OfTheWorld(step)
    ensures Apply(s, step).issues.Keys == s.issues.Keys
  {
  }

  lemma {:induction false} DeletionsTakeIssues(s: State, step: Step)
    requires Deletes(step)
    ensures forall i :: i in Apply(s, step).issues <==> i in s.issues && step != DeleteIssue(i)
  {
    hide Without;
  }

  lemma {:induction false} IssuesKept(s: State, step: Step)
    ensures forall i :: i in Apply(s, step).issues <==> i in s.issues && step != DeleteIssue(i)
  {
    hide Apply;
    if OfTheWorld(step) {
      WorldKeepsIssues(s, step);
    } else if Deletes(step) {
      DeletionsTakeIssues(s, step);
    } else {
      OwnStepsKeepTables(s, step);
    }
  }

  predicate Deleted(steps: seq<Step>, i: IssueId) {
    exists k :: 0 <= k < |steps| && steps[k] == DeleteIssue(i)
  }

  lemma {:induction false} DeletedLastOrBefore(steps: seq<Step>, i: IssueId)
    requires steps != []
    ensures Deleted(steps, i) <==> Deleted(steps[..|steps| - 1], i) || steps[|steps| - 1] == DeleteIssue(i)
  {
  }

  /** The run's members are those of the start that were not deleted, at their
      dispatch-time statuses and with at least the commits they had. */
  ghost predicate MembersSince(a: Items, b: Items, steps: seq<Step>) {
    (forall i :: i in b <==> i in a && !Deleted(steps, i)) &&
    forall i :: i in b ==> b[i].prev == a[i].prev && a[i].commits <= b[i].commits
  }

  lemma {:induction false} MembersOneStepMore(a: Items, b: Items, c: Items, steps: seq<Step>, id: RunId)
    requires steps != [] && MembersSince(a, b, steps[..|steps| - 1])
    requires MembersAfter(b, c, steps[|steps| - 1], id)
    ensures MembersSince(a, c, steps)
  {
    forall i
      ensures Deleted(steps, i) <==> Deleted(steps[..|steps| - 1], i) || steps[|steps| - 1] == DeleteIssue(i)
    {
      DeletedLastOrBefore(steps, i);
    }
    hide Deleted;
  }

  /** For as long as a run exists its memberships, their dispatch-time statuses and the
      commits recorded for them survive every history, members that are deleted aside. */
  lemma {:induction false} WorkIsKept(s: State, steps: seq<Step>, id: RunId)
    requires id in s.runs && id in Exec(s, steps).runs
    ensures SameWork(s.runs[id], Exec(s, steps).runs[id])
    ensures MembersSince(ItemsOf(s, id), ItemsOf(Exec(s, steps), id), steps)
  {
    RunStaysIff(s, steps, id);
    if steps != [] {
      var before := steps[..|steps| - 1];
      RunStaysIff(s, before, id);
      if id !in Exec(s, before).runs {
        GoneStaysGone(Exec(s, before), steps[|steps| - 1], id);
      }
      WorkIsKept(s, before, id);
      MembersKept(Exec(s, before), steps[|steps| - 1], id);
      MembersOneStepMore(ItemsOf(s, id), ItemsOf(Exec(s, before), id), ItemsOf(Exec(s, steps), id), steps, id);
      hide Apply, MembersAfter, MembersSince;
    }
  }

  /** An issue is there exactly until it is deleted. */
  lemma {:induction false} IssueStaysIff(s: State, steps: seq<Step>, i: IssueId)
    ensures i in Exec(s, steps).issues <==> i in s.issues && !Deleted(steps, i)
  {
    if steps != [] {
      IssueStaysIff(s, steps[..|steps| - 1], i);
      IssuesKept(Exec(s, steps[..|steps| - 1]), steps[|steps| - 1]);
      DeletedLastOrBefore(steps, i);
      hide Apply, Deleted;
    }
  }

  // ---- dispatch and undo --------------------------------------------------

  /** A cancel of a queued run, an acknowledged stop, or a reset with nothing landed. */
  predicate Undoes(s: State, step: Step, id: RunId) {
    match step
    case Cancel(on, reason) => on == id && reason != "" && RunIs(s, id, Queued)
    case AcknowledgeStop(on, w) => on == id && StopPending(s, id, w)
    case Reset(on) => on == id && id in s.runs && Active(s.runs[id].status) && !AnyLanded(ItemsOf(s, id))
    case _ => false
  }

  lemma {:induction false} UndoRestores(s: State, step: Step, id: RunId)
    requires Undoes(s, step, id)
    ensures id in s.runs && id in Apply(s, step).runs
    ensures Apply(s, step).issues == RestoredRun(s.issues, ItemsOf(s, id), s.runs[id])
    ensures Apply(s, step).runs[id].status.Queued? || Apply(s, step).runs[id].status.Cancelled?
  {
  }

  /** Dispatch a run, let anything at all happen, undo it: its stories, and its own issue
      if the dispatch stamped that one's status, are at the status they had at dispatch.
      No other issue is touched by the undo: the issue of a verification, whose dispatch
      stamps nothing, stays as it was just before. */
  lemma {:induction false} DispatchUndoRoundTrip(s: State, dispatch: Step, steps: seq<Step>, last: Step, i: IssueId)
    requires dispatch.Dispatch?
    requires Dispatchable(s, dispatch.id, dispatch.issue, dispatch.stories, dispatch.kind)
    requires Undoes(Exec(Apply(s, dispatch), steps), last, dispatch.id)
    requires i in s.issues
    ensures var before := Exec(Apply(s, dispatch), steps);
            var after := Apply(before, last);
            (i in before.issues <==> !Deleted(steps, i)) &&
            (i in before.issues ==>
              i in after.issues &&
              after.issues[i].status ==
                if i in dispatch.stories || (dispatch.issue == Some(i) && Stamps(dispatch.kind)) then s.issues[i].status
                else before.issues[i].status)
  {
    var id := dispatch.id;
    var start := Apply(s, dispatch);
    var before := Exec(start, steps);
    DispatchStamps(s, dispatch);
    IssueStaysIff(start, steps, i);
    UndoRestores(before, last, id);
    WorkIsKept(start, steps, id);
    hide Apply, Exec, Undoes, Dispatchable, Deleted;
    var items := ItemsOf(before, id);
    if i in dispatch.stories && i in before.issues {
      assert items[i].prev == Some(s.issues[i].status);
    }
  }

  /** What a dispatch leaves on the run and its memberships. */
  lemma {:induction false} DispatchStamps(s: State, dispatch: Step)
    requires dispatch.Dispatch? && Dispatchable(s, dispatch.id, dispatch.issue, dispatch.stories, dispatch.kind)
    ensures var t := Apply(s, dispatch);
            t.issues.Keys == s.issues.Keys && dispatch.id in t.runs &&
            var r := t.runs[dispatch.id];
            r.issue == dispatch.issue && r.kind == dispatch.kind &&
            r.prev == (if dispatch.issue.Some? && Stamps(dispatch.kind) then Some(s.issues[dispatch.issue.value].status)
                       else None) &&
            ItemsOf(t, dispatch.id).Keys == dispatch.stories &&
            forall i :: i in dispatch.stories ==> ItemsOf(t, dispatch.id)[i].prev == Some(s.issues[i].status)
  {
  }

  lemma {:induction false} WaitingAgain(issues: Issues, ids: set<IssueId>, status: IssueStatus)
    requires forall i :: i in ids && i in issues ==> issues[i].status.Waiting?
    ensures WithStatus(WithStatus(issues, ids, status), ids, Waiting) == issues
    ensures WithStatus(issues, ids, Waiting) == issues
  {
  }

  /** Giving a claim back leaves no trace: run and issues are as they were queued. */
  lemma {:induction false} ReleaseUndoesClaim(s: State, id: RunId, w: WorkerId)
    requires Claimable(s, id, w)
    requires s.runs[id] == Requeued(s.runs[id])
    requires forall i :: i in Covered(ItemsOf(s, id), s.runs[id]) && i in s.issues ==> s.issues[i].status.Waiting?
    ensures ReleaseClaim(ClaimRun(s, id, w), id, w) == s
    ensures ForceRequeueRun(ClaimRun(s, id, w), id) == s
  {
    var held := ClaimRun(s, id, w);
    var ids := Covered(ItemsOf(s, id), s.runs[id]);
    WaitingAgain(s.issues, ids, if s.runs[id].kind.Plan? then Planning else Building);
    assert Covered(ItemsOf(held, id), held.runs[id]) == ids;
    hide WithStatus, Covered;
    assert BackToPool(held, id).issues == s.issues;
    assert BackToPool(held, id).runs == s.runs;
  }

  lemma {:induction false} CompleteIs(s: State, id: RunId, outcome: Outcome, direct: bool, session: Option<string>)
    ensures Apply(s, Complete(id, outcome, direct, session)) == CompleteRun(s, id, outcome, direct, session)
  {
    hide CompleteRun;
  }

  // ---- hand-back follows commits -----------------------------------------

  /** A success that lands code moves a member forward exactly when a commit is recorded
      for it; the others go back to where each of them stood, and the run's own issue
      moves along. */
  lemma {:induction false} SuccessFollowsCommits(s: State, id: RunId, direct: bool, session: Option<string>, i: IssueId)
    requires RunIs(s, id, RunStatus.Running) && LandsCode(s.runs[id].kind) && i in s.issues
    ensures var t := Apply(s, Complete(id, Success, direct, session));
            var landing := if direct then Merged else InReview;
            var members := ItemsOf(s, id);
            t.issues[i].status ==
              if i in members then (if Landed(members[i]) then landing else Back(members[i]))
              else if i in OwnIssue(s.runs[id]) then landing
              else s.issues[i].status
    ensures var t := Apply(s, Complete(id, Success, direct, session));
            i in ItemsOf(s, id) && !NeedsCommit(Back(ItemsOf(s, id)[i])) ==>
              (NeedsCommit(t.issues[i].status) <==> Landed(ItemsOf(s, id)[i]))
  {
    CompleteIs(s, id, Success, direct, session);
    hide Apply, Recorded;
  }

  /** A failure is shared: every member, landed or not, and the run's own issue. */
  lemma {:induction false} FailureIsShared(s: State, id: RunId, direct: bool, session: Option<string>, i: IssueId)
    requires RunIs(s, id, RunStatus.Running) && MovesIssues(s.runs[id].kind) && i in s.issues
    ensures var t := Apply(s, Complete(id, Failure, direct, session));
            t.issues[i].status ==
              if i in ItemsOf(s, id) || i in OwnIssue(s.runs[id]) then Broken else s.issues[i].status
  {
    CompleteIs(s, id, Failure, direct, session);
    hide Apply, Recorded;
  }

  /** The other kinds: a plan's or a breakdown's success is shared by all it covers,
      commits or not, and the kinds that only read or publish move no issue. */
  lemma {:induction false} SuccessElsewhere(s: State, id: RunId, direct: bool, session: Option<string>, i: IssueId)
    requires RunIs(s, id, RunStatus.Running) && i in s.issues
    requires !LandsCode(s.runs[id].kind)
    ensures var t := Apply(s, Complete(id, Success, direct, session));
            var r := s.runs[id];
            var covered := i in ItemsOf(s, id) || i in OwnIssue(r);
            t.issues[i].status ==
              if covered && r.kind.Plan? then PlanReview
              else if covered && r.kind.Prd? then PrdReview
              else if covered && r.kind.Breakdown? then Ready
              else s.issues[i].status
  {
    CompleteIs(s, id, Success, direct, session);
    hide Apply, Recorded;
  }

  /** A claim marks every issue of a plan or code run, and a release right after it queues
      them again. */
  lemma {:induction false} IssuesFollowTheClaim(s: State, id: RunId, w: WorkerId, i: IssueId)
    requires Claimable(s, id, w) && MovesIssues(s.runs[id].kind)
    requires i in Covered(ItemsOf(s, id), s.runs[id]) && i in s.issues
    ensures var held := ClaimRun(s, id, w);
            i in held.issues && held.issues[i].status == if s.runs[id].kind.Plan? then Planning else Building
    ensures var back := ReleaseClaim(ClaimRun(s, id, w), id, w);
            i in back.issues && back.issues[i].status.Waiting? && RunIs(back, id, Queued)
  {
  }

  /** A reset of a run with landed work finishes it and splits its members by commit;
      without landed work the run goes back to the queue. */
  lemma {:induction false} ResetFollowsCommits(s: State, id: RunId, i: IssueId)
    requires id in s.runs && Active(s.runs[id].status)
    requires i in ItemsOf(s, id) && i in s.issues && i !in OwnIssue(s.runs[id])
    ensures var t := Apply(s, Reset(id));
            var m := ItemsOf(s, id)[i];
            t.issues[i].status == if Landed(m) then InReview else Back(m)
    ensures Apply(s, Reset(id)).runs[id].status == if AnyLanded(ItemsOf(s, id)) then Succeeded else Queued
  {
  }

  /** No new commit is recorded for the run. */
  predicate NoNewCommits(steps: seq<Step>, id: RunId) {
    forall k :: 0 <= k < |steps| ==> !(steps[k].Cover? && steps[k].id == id)
  }

  /** Some member with a commit is not deleted by the steps. */
  predicate LandedStays(items: Items, steps: seq<Step>) {
    exists i :: i in items && Landed(items[i]) && !Deleted(steps, i)
  }

  lemma {:induction false} CommitsStay(s: State, steps: seq<Step>, id: RunId)
    requires id in s.runs && id in Exec(s, steps).runs && NoNewCommits(steps, id)
    ensures forall i :: i in ItemsOf(Exec(s, steps), id) ==>
      i in ItemsOf(s, id) && ItemsOf(Exec(s, steps), id)[i].commits == ItemsOf(s, id)[i].commits
  {
    if steps != [] {
      var before, last := steps[..|steps| - 1], steps[|steps| - 1];
      RunStaysIff(s, before, id);
      if id !in Exec(s, before).runs {
        GoneStaysGone(Exec(s, before), last, id);
      }
      CommitsStay(s, before, id);
      MembersKept(Exec(s, before), last, id);
      assert !(last.Cover? && last.id == id);
      hide Apply;
    }
  }

  lemma {:induction false} ResetSucceedsIff(s: State, id: RunId)
    requires id in s.runs && Active(s.runs[id].status)
    ensures var t := Apply(s, Reset(id));
            id in t.runs && t.runs[id].status == if AnyLanded(ItemsOf(s, id)) then Succeeded else Queued
  {
  }

  /** As long as one member with a commit is left, no later reset requeues the run. */
  lemma {:induction false} LandedWorkIsNeverRequeuedByReset(s: State, steps: seq<Step>, id: RunId)
    requires id in s.runs && id in Exec(s, steps).runs && Active(Exec(s, steps).runs[id].status)
    requires LandedStays(ItemsOf(s, id), steps)
    ensures RunIs(Apply(Exec(s, steps), Reset(id)), id, Succeeded)
  {
    WorkIsKept(s, steps, id);
    ResetSucceedsIff(Exec(s, steps), id);
    hide Apply, Exec, Deleted;
    var i :| i in ItemsOf(s, id) && Landed(ItemsOf(s, id)[i]) && !Deleted(steps, i);
    var sha :| sha in ItemsOf(s, id)[i].commits;
    assert sha in ItemsOf(Exec(s, steps), id)[i].commits;
    assert Landed(ItemsOf(Exec(s, steps), id)[i]);
  }

  /** And without new commits that is exact: the record of a commit goes with the issue it
      is for, so once every member that had one is deleted, a reset requeues a run whose
      branch carries their work. */
  lemma {:induction false} ResetRequeuesIffLandedDeleted(s: State, steps: seq<Step>, id: RunId)
    requires id in s.runs && id in Exec(s, steps).runs && Active(Exec(s, steps).runs[id].status)
    requires NoNewCommits(steps, id)
    ensures RunIs(Apply(Exec(s, steps), Reset(id)), id, Queued) <==> !LandedStays(ItemsOf(s, id), steps)
  {
    ResetSucceedsIff(Exec(s, steps), id);
    if LandedStays(ItemsOf(s, id), steps) {
      LandedWorkIsNeverRequeuedByReset(s, steps, id);
    } else {
      WorkIsKept(s, steps, id);
      CommitsStay(s, steps, id);
      hide Apply, Exec, Deleted, Active;
      assert !AnyLanded(ItemsOf(Exec(s, steps), id));
    }
  }

  // ---- while a run is held ------------------------------------------------

  /** The run is held, or parked with its worker remembered. */
  predicate InHand(s: State, id: RunId) {
    id in s.runs && (s.runs[id].status.Running? || Parked(s.runs[id].status))
  }

  predicate Takes(s: State, id: RunId, i: IssueId) {
    id in s.runs && (i in ItemsOf(s, id) || i in OwnIssue(s.runs[id]))
  }

  /** The run whose issues the step may write. */
  function WritesFor(step: Step): Option<RunId> {
    match step
    case Claim(on, _) => Some(on)
    case GiveBack(on, _) => Some(on)
    case ForceRequeue(on) => Some(on)
    case Complete(on, _, _, _) => Some(on)
    case Cancel(on, _) => Some(on)
    case AcknowledgeStop(on, _) => Some(on)
    case Reset(on) => Some(on)
    case StaleRow(on) => Some(on)
    case ExpireRow(on) => Some(on)
    case ReapRow(on) => Some(on)
    case _ => None
  }

  /** Someone else's business with the issue: a direct write, its deletion, a dispatch over
      it, or a step of another run that takes it. */
  predicate OutsideWrite(s: State, step: Step, id: RunId, i: IssueId) {
    match step
    case WriteIssue(j, _) => i == j
    case DeleteIssue(j) => i == j
    case Dispatch(_, issue, stories, _, _, _) => i in stories || issue == Some(i)
    case _ => WritesFor(step).Some? && WritesFor(step).value != id && Takes(s, WritesFor(step).value, i)
  }

  /** The run is in hand before and after the step, and nobody else writes the issue. */
  predicate HandsOff(s: State, step: Step, id: RunId, i: IssueId) {
    InHand(s, id) && InHand(Apply(s, step), id) && !OutsideWrite(s, step, id, i)
  }

  predicate SaysTheSame(s: State, t: State, i: IssueId) {
    i in s.issues && i in t.issues && t.issues[i].status == s.issues[i].status
  }

  lemma {:induction false} WorldSpares(s: State, step: Step, id: RunId, i: IssueId)
    requires i in s.issues && OfTheWorld(step) && HandsOff(s, step, id, i)
    ensures SaysTheSame(s, Apply(s, step), i)
  {
  }

  lemma {:induction false} DeletionSpares(s: State, step: Step, i: IssueId)
    requires i in s.issues && Deletes(step) && step != DeleteIssue(i)
    ensures SaysTheSame(s, Apply(s, step), i)
  {
    hide Without;
  }

  lemma {:induction false} QuietSpares(s: State, step: Step, i: IssueId)
    requires i in s.issues && !OfTheWorld(step) && !Deletes(step) && WritesFor(step).None?
    ensures SaysTheSame(s, Apply(s, step), i)
  {
    hide ClaimLease, Lease;
  }

  lemma {:induction false} ClaimSpares(s: State, step: Step, id: RunId, i: IssueId)
    requires i in s.issues && step.Claim? && HandsOff(s, step, id, i)
    ensures SaysTheSame(s, Apply(s, step), i)
  {
    hide ClaimLease;
  }

  lemma {:induction false} RequeueSpares(s: State, step: Step, id: RunId, i: IssueId)
    requires i in s.issues && (step.GiveBack? || step.ForceRequeue?) && HandsOff(s, step, id, i)
    ensures SaysTheSame(s, Apply(s, step), i)
  {
  }

  lemma {:induction false} SweepSpares(s: State, step: Step, id: RunId, i: IssueId)
    requires i in s.issues && (step.StaleRow? || step.ExpireRow? || step.ReapRow?) && HandsOff(s, step, id, i)
    ensures SaysTheSame(s, Apply(s, step), i)
  {
    hide Recorded;
  }

  lemma {:induction false} CompletionSpares(s: State, step: Step, id: RunId, i: IssueId)
    requires i in s.issues && step.Complete? && HandsOff(s, step, id, i)
    ensures SaysTheSame(s, Apply(s, step), i)
  {
    hide HandBackStatus, Recorded;
  }

  lemma {:induction false} UndoSpares(s: State, step: Step, id: RunId, i: IssueId)
    requires i in s.issues && (step.Cancel? || step.AcknowledgeStop?) && HandsOff(s, step, id, i)
    ensures SaysTheSame(s, Apply(s, step), i)
  {
    hide Fallback;
  }

  lemma {:induction false} ResetSpares(s: State, step: Step, id: RunId, i: IssueId)
    requires i in s.issues && step.Reset? && HandsOff(s, step, id, i)
    ensures SaysTheSame(s, Apply(s, step), i)
  {
    hide Fallback;
  }

  lemma {:induction false} DeletionIsOutside(s: State, step: Step, id: RunId, i: IssueId)
    requires HandsOff(s, step, id, i)
    ensures step != DeleteIssue(i)
  {
    hide Apply;
  }

  lemma {:induction false} HandsOffSpares(s: State, step: Step, id: RunId, i: IssueId)
    requires i in s.issues && HandsOff(s, step, id, i)
    ensures SaysTheSame(s, Apply(s, step), i)
  {
    hide Apply, HandsOff, SaysTheSame;
    if OfTheWorld(step) {
      WorldSpares(s, step, id, i);
    } else if Deletes(step) {
      DeletionIsOutside(s, step, id, i);
      DeletionSpares(s, step, i);
    } else {
      match step
      case Claim(_, _) => ClaimSpares(s, step, id, i);
      case GiveBack(_, _) => RequeueSpares(s, step, id, i);
      case ForceRequeue(_) => RequeueSpares(s, step, id, i);
      case StaleRow(_) => SweepSpares(s, step, id, i);
      case ExpireRow(_) => SweepSpares(s, step, id, i);
      case ReapRow(_) => SweepSpares(s, step, id, i);
      case Complete(_, _, _, _) => CompletionSpares(s, step, id, i);
      case Cancel(_, _) => UndoSpares(s, step, id, i);
      case AcknowledgeStop(_, _) => UndoSpares(s, step, id, i);
      case Reset(_) => ResetSpares(s, step, id, i);
      case _ => QuietSpares(s, step, i);
    }
  }

  /** From its claim on, for as long as a run stays held or parked and nobody else writes
      one of its issues, that issue says what it said: pauses, resumes, beats, stop
      requests and everything the other runs do leave it alone. */
  lemma {:induction false} HeldWorkStaysMarked(s: State, steps: seq<Step>, id: RunId, i: IssueId)
    requires i in s.issues
    requires forall k :: 0 <= k < |steps| ==> HandsOff(At(s, steps, k), steps[k], id, i)
    ensures SaysTheSame(s, Exec(s, steps), i)
  {
    if steps != [] {
      var n := |steps| - 1;
      var before := steps[..n];
      forall k | 0 <= k < n
        ensures HandsOff(At(s, before, k), before[k], id, i)
      {
        assert before[..k] == steps[..k];
        assert HandsOff(At(s, steps, k), steps[k], id, i);
      }
      HeldWorkStaysMarked(s, before, id, i);
      assert HandsOff(At(s, steps, n), steps[n], id, i);
      HandsOffSpares(Exec(s, before), steps[n], id, i);
    }
  }

  /** So while a claimed plan or code run is in hand, the issues it covers say planning or
      building, unless somebody else writes them. */
  lemma {:induction false} HeldWorkSaysSo(s: State, steps: seq<Step>, id: RunId, w: WorkerId, i: IssueId)
    requires Claimable(s, id, w) && MovesIssues(s.runs[id].kind)
    requires i in Covered(ItemsOf(s, id), s.runs[id]) && i in s.issues
    requires forall k :: 0 <= k < |steps| ==> HandsOff(At(ClaimRun(s, id, w), steps, k), steps[k], id, i)
    ensures var t := Exec(ClaimRun(s, id, w), steps);
            i in t.issues && t.issues[i].status == if s.runs[id].kind.Plan? then Planning else Building
  {
    hide ClaimRun, ReleaseClaim, HandsOff;
    IssuesFollowTheClaim(s, id, w, i);
    HeldWorkStaysMarked(ClaimRun(s, id, w), steps, id, i);
  }

  // ---- a manager's stop ---------------------------------------------------

  /** The status a stop hands to every member: the run's own, not the member's. */
  function StopTarget(r: Run): IssueStatus {
    r.prev.GetOr(Broken)
  }

  /** A stop puts member `i` back where that member stood exactly when the run's own
      dispatch status is the same one, or is a review status and nothing landed. */
  lemma {:induction false} StopRestoresIff(s: State, id: RunId, direct: bool, session: Option<string>, i: IssueId)
    requires RunIs(s, id, RunStatus.Running) && MovesIssues(s.runs[id].kind)
    requires i in ItemsOf(s, id) && i in s.issues
    ensures var t := Apply(s, Complete(id, Stop, direct, session));
            var m := ItemsOf(s, id)[i];
            t.issues[i].status == Back(m) <==>
              (StopTarget(s.runs[id]) == Back(m) || (NeedsCommit(StopTarget(s.runs[id])) && !Landed(m)))
  {
    CompleteIs(s, id, Stop, direct, session);
    hide Apply, Recorded;
  }

  /** A ready feature with one planned story. */
  function ReadyFeature(): State {
    State(0, Env(map[7 := Worker(3, false, true)], map[], {}, {}, {}, map[]), map[], map[],
          map[0 := Issue(Ready, false), 1 := Issue(Planned, false)], [], map[], {})
  }

  const BATCH: Step := Dispatch(5, Some(0), {1}, 3, 2, Code)

  lemma {:induction false} BatchIsQueued()
    ensures var s := Apply(ReadyFeature(), BATCH);
            RunIs(s, 5, Queued) && s.runs[5].kind.Code? && s.runs[5].prev == Some(Ready) &&
            1 in ItemsOf(s, 5) && 1 in s.issues && Claimable(s, 5, 7)
  {
    var s := ReadyFeature();
    assert Dispatchable(s, 5, Some(0), {1}, Code);
  }

  /** The story of a stopped batch comes back ready, a status it never had. */
  lemma {:induction false} StopMisplacesAStory()
    ensures 1 in ReadyFeature().issues && ReadyFeature().issues[1].status.Planned?
    ensures var t := CompleteRun(ClaimRun(Apply(ReadyFeature(), BATCH), 5, 7), 5, Stop, false, None);
            1 in t.issues && t.issues[1].status.Ready?
  {
    BatchIsQueued();
    hide Apply;
    var queued := Apply(ReadyFeature(), BATCH);
    var held := ClaimRun(queued, 5, 7);
    assert RunIs(held, 5, RunStatus.Running) && held.items == queued.items;
    assert HandBackStatus(held.runs[5], Stop, false) == Some(Ready);
  }

  /** Let go of in between, that is no longer so: a stopped run that is approved and
      resumed is held by its agent again, with every issue where the stop put it. */
  lemma {:induction false} ResumeMarksNothingAgain(s: State, id: RunId, w: WorkerId, direct: bool,
      session: Option<string>)
    requires HeldBy(s, id, w) && w in s.env.workers && s.env.workers[w].org == s.runs[id].org && session.Some?
    ensures var stopped := CompleteRun(s, id, Stop, direct, session);
            var resumed := ResumeClaim(MarkStoppedResumable(stopped, id, s.runs[id].org), id, w);
            HeldBy(resumed, id, w) && resumed.issues == stopped.issues
  {
    hide FannedOut, HandBackStatus, ClaimLease;
  }
}

/** What every operation writes, column by column: the guard it puts on the row, the row
    it leaves, and the status of every issue afterwards, with nothing else touched. And
    what that comes to over several operations. */
module Columns {
  import opened Runs
  import opened Steps
  import opened Lifecycle
  import opened Handback
  import opened Leases

  // ---- rows and issues read off the tables --------------------------------

  function StoryOf(s: State, id: RunId, i: IssueId): Option<Member> {
    if id in s.items && i in s.items[id] then Some(s.items[id][i]) else None
  }

  /** The run was dispatched over the issue: as one of its stories, or alone. */
  predicate Covers(s: State, id: RunId, i: IssueId)
    requires id in s.runs
  {
    StoryOf(s, id, i).Some? || (s.runs[id].issue == Some(i) && (id !in s.items || |s.items[id]| == 0))
  }

  predicate HasCommit(s: State, id: RunId, i: IssueId) {
    StoryOf(s, id, i).Some? && |StoryOf(s, id, i).value.commits| > 0
  }

  /** The issue is there as before; its status is the one given, if one is. */
  predicate Says(s: State, t: State, i: IssueId, status: Option<IssueStatus>) {
    (i in t.issues <==> i in s.issues) &&
    (i in s.issues ==>
      t.issues[i] == Issue(if status.Some? then status.value else s.issues[i].status, s.issues[i].blocked))
  }

  /** Where a claim that goes back to the pool leaves an issue. */
  function InQueue(s: State, id: RunId, i: IssueId): Option<IssueStatus>
    requires id in s.runs
  {
    if (s.runs[id].kind == Plan || s.runs[id].kind == Code) && Covers(s, id, i) then Some(Waiting) else None
  }

  /** Where an undone run leaves an issue: its own is written last. */
  function Before(s: State, id: RunId, i: IssueId): Option<IssueStatus>
    requires id in s.runs
  {
    var r, story := s.runs[id], StoryOf(s, id, i);
    if r.issue == Some(i) && r.prev.Some? then r.prev
    else if r.issue == Some(i) && r.kind == Plan then Some(Draft)
    else if r.issue == Some(i) && r.kind == Code then Some(Planned)
    else if r.issue == Some(i) && (r.kind == Prd || r.kind == Breakdown) then Some(Ready)
    else if story.Some? && story.value.prev.Some? then story.value.prev
    else if story.Some? then Some(Planned)
    else None
  }

  /** The row of a run, and with it the whole state but for the issues. */
  predicate OnlyRow(s: State, t: State, id: RunId, r: Run) {
    t == s.(runs := s.runs[id := r], issues := t.issues)
  }

  function Charged(s: State, id: RunId, reason: Reason): seq<Attempt>
    requires id in s.runs
  {
    var r := s.runs[id];
    if r.issue == None then s.attempts
    else s.attempts + [Attempt(r.issue.value, id, r.worker, r.kind, reason)]
  }

  // ---- leases -------------------------------------------------------------

  function StoryMinutes(env: Env, w: WorkerId): int {
    if w in env.config && env.config[w].maxRunMinutes != None then env.config[w].maxRunMinutes.value
    else if w in env.workers && env.workers[w].human then 1440
    else 120
  }

  function RunMinutes(env: Env, w: WorkerId): int {
    if w in env.config && env.config[w].maxTotalMinutes != None then env.config[w].maxTotalMinutes.value else 1440
  }

  /** A run without units, or never counted, is one unit of work. */
  function WorkUnits(env: Env, id: RunId): nat {
    if id !in env.units || env.units[id] == 0 then 1 else env.units[id]
  }

  lemma {:induction false} Scaled(minutes: int, units: nat)
    ensures minutes * 60_000_000 * units == (minutes * units) * 60_000_000
  {
  }

  /** Minutes per story times stories, never more than the minutes for a whole run. */
  lemma {:induction false} LeaseInMinutes(env: Env, w: WorkerId, id: RunId)
    ensures Lease(env, w) == StoryMinutes(env, w) * 60_000_000
    ensures var wanted := StoryMinutes(env, w) * WorkUnits(env, id);
            ClaimLease(env, w, id) ==
              (if wanted <= RunMinutes(env, w) then wanted else RunMinutes(env, w)) * 60_000_000
  {
    Scaled(StoryMinutes(env, w), WorkUnits(env, id));
    assert Units(env, id) == WorkUnits(env, id);
    assert TotalLease(env, w) == RunMinutes(env, w) * 60_000_000;
  }

  // ---- claims -------------------------------------------------------------

  /** Another breakdown of the same feature has succeeded. */
  predicate BrokenDownAlready(s: State, id: RunId)
    requires id in s.runs
  {
    s.runs[id].kind == Breakdown && s.runs[id].issue != None &&
    exists other :: other in s.runs && other != id && s.runs[other].kind == Breakdown &&
      s.runs[other].issue == s.runs[id].issue && s.runs[other].status == Succeeded
  }

  predicate Free(s: State, id: RunId, w: WorkerId) {
    id in s.runs && s.runs[id].status == Queued && s.runs[id].queuePause == None && id !in s.env.held &&
    w in s.env.workers && s.runs[id].org == s.env.workers[w].org && w !in s.env.paused
  }

  lemma {:induction false} ClaimWrites(s: State, id: RunId, w: WorkerId, i: IssueId)
    ensures var t := Apply(s, Claim(id, w));
            if Free(s, id, w) && !BrokenDownAlready(s, id) then
              OnlyRow(s, t, id, s.runs[id].(status := RunStatus.Running, worker := Some(w), claimedAt := Some(s.now),
                heartbeatAt := Some(s.now), expiresAt := Some(s.now + ClaimLease(s.env, w, id)))) &&
              Says(s, t, i, if !Covers(s, id, i) then None
                            else if s.runs[id].kind == Plan then Some(Planning)
                            else if s.runs[id].kind == Code then Some(Building)
                            else None)
            else t == s
  {
    StepIs(s, Claim(id, w));
    hide Apply, ClaimLease;
  }

  lemma {:induction false} ExtendWrites(s: State, id: RunId, w: WorkerId)
    ensures Apply(s, Extend(id, w)) ==
            if id in s.runs && s.runs[id].status == RunStatus.Running && s.runs[id].worker == Some(w) then
              s.(runs := s.runs[id := s.runs[id].(
                heartbeatAt := Some(s.now), expiresAt := Some(s.now + Lease(s.env, w)))])
            else s
  {
    StepIs(s, Extend(id, w));
    hide Apply, Lease;
  }

  lemma {:induction false} ResumeWrites(s: State, id: RunId, w: WorkerId)
    ensures Apply(s, Resume(id, w)) ==
            if id in s.runs && (s.runs[id].status == Paused || s.runs[id].status == AwaitingInput) &&
               s.runs[id].worker == Some(w) && w in s.env.workers && s.runs[id].org == s.env.workers[w].org then
              s.(runs := s.runs[id := s.runs[id].(status := RunStatus.Running, claimedAt := Some(s.now),
                 heartbeatAt := Some(s.now), expiresAt := Some(s.now + ClaimLease(s.env, w, id)))])
            else s
  {
    StepIs(s, Resume(id, w));
    hide Apply, ClaimLease;
  }

  /** A claim that goes back: the row is free again and keeps the rest. */
  function FreedRow(r: Run): Run {
    r.(status := Queued, worker := None, claimedAt := None, heartbeatAt := None, expiresAt := None)
  }

  predicate Freed(s: State, t: State, id: RunId, i: IssueId, attempts: seq<Attempt>)
    requires id in s.runs
  {
    OnlyRow(s.(attempts := attempts), t, id, FreedRow(s.runs[id])) && Says(s, t, i, InQueue(s, id, i))
  }

  lemma {:induction false} ReleaseWrites(s: State, id: RunId, w: WorkerId, i: IssueId)
    ensures var t := Apply(s, GiveBack(id, w));
            if id in s.runs && s.runs[id].status == RunStatus.Running && s.runs[id].worker == Some(w) then
              Freed(s, t, id, i, s.attempts)
            else t == s
    ensures var t := Apply(s, ForceRequeue(id));
            if id in s.runs && s.runs[id].status == RunStatus.Running then Freed(s, t, id, i, s.attempts) else t == s
  {
    StepIs(s, GiveBack(id, w));
    StepIs(s, ForceRequeue(id));
    hide Apply;
  }

  // ---- endings ------------------------------------------------------------

  /** Where a hand-back leaves an issue the run took: a status for all of them, or none. */
  function HandedBack(r: Run, outcome: Outcome, direct: bool): Option<IssueStatus> {
    if outcome == Success then
      if r.kind in {Code, Deploy, Merge} then Some(if direct then Merged else InReview)
      else if r.kind == Plan then Some(PlanReview)
      else if r.kind == Prd then Some(PrdReview)
      else if r.kind == Breakdown then Some(Ready)
      else None
    else if r.kind in {Prd, Breakdown, Test, Elaborate} then None
    else if outcome == Failure then Some(Broken)
    else Some(if r.prev == None then Broken else r.prev.value)
  }

  /** A story nothing was landed for is not put in review or merged. */
  function HandedTo(s: State, id: RunId, i: IssueId, status: Option<IssueStatus>): Option<IssueStatus>
    requires id in s.runs
  {
    var story := StoryOf(s, id, i);
    if status == None || (story == None && s.runs[id].issue != Some(i)) then None
    else if (status.value == InReview || status.value == Merged) && story.Some? && !HasCommit(s, id, i) then
      Some(if story.value.prev == None then Planned else story.value.prev.value)
    else status
  }

  lemma {:induction false} HandedBackIs(r: Run, outcome: Outcome, direct: bool)
    ensures HandBackStatus(r, outcome, direct) == HandedBack(r, outcome, direct)
  {
  }

  /** A hand-back lands once, on a running run, and the run ends exactly as reported. */
  lemma {:induction false} CompletionWrites(s: State, id: RunId, outcome: Outcome, direct: bool,
      session: Option<string>, i: IssueId)
    ensures var t := Apply(s, Complete(id, outcome, direct, session));
            if id in s.runs && s.runs[id].status == RunStatus.Running then
              var r := s.runs[id];
              OnlyRow(s.(attempts := if outcome == Failure then Charged(s, id, RunFailed) else s.attempts), t, id,
                r.(status := match outcome case Success => Succeeded case Failure => Failed case Stop => Stopped,
                   session := if session == None then r.session else session)) &&
              Says(s, t, i, HandedTo(s, id, i, HandedBack(r, outcome, direct)))
            else t == s
  {
    StepIs(s, Complete(id, outcome, direct, session));
    hide Apply, HandBackStatus, HandedBack;
    if id in s.runs {
      HandedBackIs(s.runs[id], outcome, direct);
    }
  }

  lemma {:induction false} FailureWrites(s: State, id: RunId, i: IssueId)
    ensures Apply(s, FailMinimal(id)) ==
            if id in s.runs && s.runs[id].status == RunStatus.Running then
              s.(runs := s.runs[id := s.runs[id].(status := Failed)])
            else s
    ensures var t := Apply(s, ReapRow(id));
            if id in s.runs && s.runs[id].status == RunStatus.Running && s.runs[id].worker == None then
              OnlyRow(s, t, id, s.runs[id].(status := Failed)) &&
              Says(s, t, i, if s.runs[id].issue == Some(i) && s.runs[id].kind !in {Prd, Test, Elaborate, Breakdown}
                            then Some(Broken) else None)
            else t == s
  {
    StepIs(s, FailMinimal(id));
    StepIs(s, ReapRow(id));
    hide Apply;
  }

  // ---- cancels, stops and resets ------------------------------------------

  function Retired(r: Run, reason: string): Run {
    r.(status := Cancelled, worker := None, claimedAt := None, heartbeatAt := None, expiresAt := None,
       queuePause := None, stopAt := None, cancelReason := Some(reason))
  }

  lemma {:induction false} UndoWrites(s: State, id: RunId, r: Run, i: IssueId)
    requires id in s.runs
    ensures var t := Undone(s, id, r);
            OnlyRow(s, t, id, r) && Says(s, t, i, Before(s, id, i))
  {
  }

  lemma {:induction false} CancelWrites(s: State, id: RunId, why: string, i: IssueId)
    ensures var t := Apply(s, Cancel(id, why));
            if |why| > 0 && id in s.runs && s.runs[id].status == RunStatus.Running then
              t == s.(runs := s.runs[id := s.runs[id].(cancelReason := Some(why),
                stopAt := if s.runs[id].stopAt == None then Some(s.now) else s.runs[id].stopAt)])
            else if |why| > 0 && id in s.runs && s.runs[id].status == Queued then
              OnlyRow(s, t, id, Retired(s.runs[id], why)) && Says(s, t, i, Before(s, id, i))
            else t == s
  {
    StepIs(s, Cancel(id, why));
    hide Apply, RestoredRun, Before;
    if id in s.runs {
      UndoWrites(s, id, Retired(s.runs[id], why), i);
    }
  }

  lemma {:induction false} HardCancelWrites(s: State, id: RunId, why: string)
    ensures Apply(s, CancelActive(id, why)) ==
            if id in s.runs && (s.runs[id].status == Queued || s.runs[id].status == RunStatus.Running) then
              s.(runs := s.runs[id := Retired(s.runs[id], why)])
            else s
  {
    StepIs(s, CancelActive(id, why));
    hide Apply;
  }

  lemma {:induction false} StopRequestWrites(s: State, id: RunId)
    ensures Apply(s, RequestStop(id)) ==
            if id in s.runs && s.runs[id].status == RunStatus.Running then
              s.(runs := s.runs[id := s.runs[id].(
                stopAt := if s.runs[id].stopAt == None then Some(s.now) else s.runs[id].stopAt)])
            else s
  {
    StepIs(s, RequestStop(id));
    hide Apply;
  }

  /** The holder has been asked to stop. */
  predicate Asked(s: State, id: RunId, w: WorkerId) {
    id in s.runs && s.runs[id].status == RunStatus.Running && s.runs[id].worker == Some(w) && s.runs[id].stopAt != None
  }

  /** An acknowledged stop retires a run that was cancelled with a reason, and queues any
      other; its issues go back either way. */
  lemma {:induction false} AcknowledgementWrites(s: State, id: RunId, w: WorkerId, i: IssueId)
    ensures var t := Apply(s, AcknowledgeStop(id, w));
            if Asked(s, id, w) then
              var r := s.runs[id];
              OnlyRow(s, t, id,
                if r.cancelReason == None || |r.cancelReason.value| == 0 then
                  FreedRow(r).(queuePause := None, stopAt := None)
                else Retired(r, r.cancelReason.value)) &&
              Says(s, t, i, Before(s, id, i))
            else t == s
  {
    StepIs(s, AcknowledgeStop(id, w));
    hide Apply, Undone, Before, Says;
    if id in s.runs {
      UndoWrites(s, id, AcknowledgedRow(s.runs[id]), i);
    }
  }

  /** With a commit for any story the run has succeeded and its stories are split; with
      none it is queued and undone, a pending stop request staying on the row. */
  lemma {:induction false} ResetWrites(s: State, id: RunId, i: IssueId)
    ensures var t := Apply(s, Reset(id));
            if id in s.runs && (s.runs[id].status == Queued || s.runs[id].status == RunStatus.Running) then
              var r := s.runs[id];
              if exists j :: HasCommit(s, id, j) then
                OnlyRow(s, t, id, FreedRow(r).(status := Succeeded, queuePause := None, stopAt := None)) &&
                Says(s, t, i, if r.issue == Some(i) || HasCommit(s, id, i) then Some(InReview)
                              else if StoryOf(s, id, i) == None then None
                              else Some(StoryOf(s, id, i).value.prev.GetOr(Planned)))
              else
                OnlyRow(s, t, id, FreedRow(r).(queuePause := None)) && Says(s, t, i, Before(s, id, i))
            else t == s
  {
    StepIs(s, Reset(id));
    hide Apply;
    assert (exists j :: HasCommit(s, id, j)) <==> AnyLanded(ItemsOf(s, id)) by {
      if AnyLanded(ItemsOf(s, id)) {
        var j :| j in ItemsOf(s, id) && Landed(ItemsOf(s, id)[j]);
        assert HasCommit(s, id, j);
      }
      if j :| HasCommit(s, id, j) {
        assert j in ItemsOf(s, id) && Landed(ItemsOf(s, id)[j]);
      }
    }
    hide AnyLanded, RestoredRun, Before;
    if id in s.runs {
      UndoWrites(s, id, Requeued(s.runs[id]).(queuePause := None), i);
    }
  }

  // ---- parking ------------------------------------------------------------

  predicate UnderCap(env: Env, r: Run) {
    var cap := if r.worker != None && r.worker.value in env.config &&
                  env.config[r.worker.value].maxResumeAttempts != None
               then env.config[r.worker.value].maxResumeAttempts.value else 3;
    r.resumeAttempts < cap
  }

  function LetGo(r: Run, status: RunStatus, session: Option<string>): Run {
    r.(status := status, claimedAt := None, heartbeatAt := None, expiresAt := None,
       session := if session == None then r.session else session)
  }

  lemma {:induction false} PauseWrites(s: State, call: CallId, id: RunId, session: Option<string>)
    ensures Apply(s, PauseRead(call, id)) ==
            if call !in s.pausing && id in s.runs && s.runs[id].status == RunStatus.Running &&
               UnderCap(s.env, s.runs[id]) then s.(pausing := s.pausing[call := id])
            else s
    ensures Apply(s, PauseWrite(call, session)) ==
            if call !in s.pausing then s
            else
              var on := s.pausing[call];
              if on in s.runs && s.runs[on].status == RunStatus.Running then
                s.(pausing := s.pausing - {call}, runs := s.runs[on :=
                   LetGo(s.runs[on], Paused, session).(resumeAttempts := s.runs[on].resumeAttempts + 1)])
              else s.(pausing := s.pausing - {call})
  {
    StepIs(s, PauseRead(call, id));
    StepIs(s, PauseWrite(call, session));
    hide Apply;
  }

  lemma {:induction false} QuestionWrites(s: State, id: RunId, session: Option<string>)
    ensures Apply(s, AwaitInput(id, session)) ==
            if id in s.runs && s.runs[id].status == RunStatus.Running then
              s.(runs := s.runs[id := LetGo(s.runs[id], AwaitingInput, session)])
            else s
  {
    StepIs(s, AwaitInput(id, session));
    hide Apply;
  }

  lemma {:induction false} ParkedWrites(s: State, id: RunId, org: OrgId)
    ensures Apply(s, MarkResumable(id, org)) ==
            if id in s.runs && s.runs[id].status == Stopped && s.runs[id].org == org && s.runs[id].worker != None &&
               s.runs[id].session != None then s.(runs := s.runs[id := s.runs[id].(status := Paused)])
            else s
    ensures Apply(s, Abandon(id, org)) ==
            if id in s.runs && (s.runs[id].status == Paused || s.runs[id].status == AwaitingInput) &&
               s.runs[id].org == org then s.(runs := s.runs[id := s.runs[id].(status := Abandoned, worker := None)])
            else s
  {
    StepIs(s, MarkResumable(id, org));
    StepIs(s, Abandon(id, org));
    hide Apply;
  }

  // ---- sweeps -------------------------------------------------------------

  /** Held, and with nothing pushed that a requeue would do over. */
  predicate Sweepable(s: State, id: RunId) {
    id in s.runs && s.runs[id].status == RunStatus.Running && s.runs[id].worker != None && s.runs[id].pushed == None
  }

  /** An agent with settings whose last sign of life is over 90 seconds old. */
  predicate GoneSilent(s: State, id: RunId) {
    Sweepable(s, id) && s.runs[id].worker.value in s.env.config &&
    match s.runs[id].heartbeatAt
    case Some(beat) => beat < s.now - 90_000_000
    case None => s.runs[id].claimedAt != None && s.runs[id].claimedAt.value < s.now - 90_000_000
  }

  predicate RunOut(s: State, id: RunId) {
    Sweepable(s, id) && s.runs[id].expiresAt != None && s.runs[id].expiresAt.value < s.now
  }

  /** A silent agent's run waits for it if there is a session to resume, and goes back to
      the pool at the price of an attempt if not. */
  lemma {:induction false} SilenceWrites(s: State, id: RunId, i: IssueId)
    ensures var t := Apply(s, StaleRow(id));
            if !GoneSilent(s, id) then t == s
            else if s.runs[id].session != None then
              t == s.(runs := s.runs[id := LetGo(s.runs[id], Paused, None)])
            else Freed(s, t, id, i, Charged(s, id, HeartbeatStale))
  {
    StepIs(s, StaleRow(id));
    hide Apply;
  }

  lemma {:induction false} ExpiryWrites(s: State, id: RunId, i: IssueId)
    ensures var t := Apply(s, ExpireRow(id));
            if RunOut(s, id) then Freed(s, t, id, i, Charged(s, id, LeaseExpired)) else t == s
  {
    StepIs(s, ExpireRow(id));
    hide Apply;
  }

  lemma {:induction false} SilentIsStale(s: State, id: RunId)
    ensures GoneSilent(s, id) <==> Stale(s, id)
    ensures RunOut(s, id) <==> Expired(s, id)
  {
  }

  /** A whole sweep, row by row, in whatever order it visits them: a silent row it visits
      waits or is freed, an expired one it visits and found no silence on is freed, and
      every other row is untouched. So pushed work is never taken, nor a run nobody
      runs. */
  lemma {:induction false} FullSweepWrites(s: State, stale: seq<RunId>, expired: seq<RunId>, id: RunId)
    requires id in s.runs
    ensures id in FullSweep(s, stale, expired).runs
    ensures FullSweep(s, stale, expired).runs[id] ==
            if id in stale && GoneSilent(s, id) then
              (if s.runs[id].session != None then LetGo(s.runs[id], Paused, None) else FreedRow(s.runs[id]))
            else if id in expired && RunOut(s, id) then FreedRow(s.runs[id])
            else s.runs[id]
    ensures s.runs[id].pushed != None || s.runs[id].status != RunStatus.Running ==>
            FullSweep(s, stale, expired).runs[id] == s.runs[id]
  {
    var mid := Exec(s, StaleRows(stale));
    StaleSweepRows(s, stale);
    ExpirySweepRows(mid, expired);
    SilentIsStale(s, id);
    SilentIsStale(mid, id);
    hide Exec, Apply, Stale, Expired;
  }

  // ---- a cancel, to the end ----------------------------------------------

  /** A cancel of a running run asks its holder to stop: it finds the request, with the
      reason, and with the time of the first request if there was one. */
  lemma {:induction false} CancelAsksTheHolder(s: State, id: RunId, w: WorkerId, why: string)
    requires HeldBy(s, id, w) && why != ""
    ensures var t := Apply(s, Cancel(id, why));
            Asked(t, id, w) && StopPending(t, id, w) && t.runs[id].cancelReason == Some(why) &&
            t.runs[id].stopAt == (if s.runs[id].stopAt.Some? then s.runs[id].stopAt else Some(s.now))
    ensures var t := Apply(s, RequestStop(id));
            Asked(t, id, w) && StopPending(t, id, w) && t.runs[id].cancelReason == s.runs[id].cancelReason &&
            t.runs[id].stopAt == (if s.runs[id].stopAt.Some? then s.runs[id].stopAt else Some(s.now))
  {
    CancelWrites(s, id, why, 0);
    StopRequestWrites(s, id);
    hide Apply;
  }

  /** The issues of a run dispatched at `s` are back where `s` had them. */
  predicate BackAsDispatched(s: State, dispatch: Step, before: State, after: State, i: IssueId)
    requires dispatch.Dispatch? && i in s.issues
  {
    i in before.issues ==>
      i in after.issues &&
      after.issues[i].status ==
        if i in dispatch.stories || (dispatch.issue == Some(i) && Stamps(dispatch.kind)) then s.issues[i].status
        else before.issues[i].status
  }

  /** Dispatch a run, let anything happen until it is held, cancel it and have the holder
      acknowledge: the run is retired with the reason, and its issues are where they were
      at dispatch. */
  lemma {:induction false} CancelledToTheEnd(s: State, dispatch: Step, steps: seq<Step>, w: WorkerId, why: string,
      i: IssueId)
    requires dispatch.Dispatch?
    requires Dispatchable(s, dispatch.id, dispatch.issue, dispatch.stories, dispatch.kind)
    requires HeldBy(Exec(Apply(s, dispatch), steps), dispatch.id, w) && why != "" && i in s.issues
    ensures var id, before := dispatch.id, Exec(Apply(s, dispatch), steps);
            var after := Apply(Apply(before, Cancel(id, why)), AcknowledgeStop(id, w));
            id in after.runs && after.runs[id] == Retired(before.runs[id], why) &&
            BackAsDispatched(s, dispatch, before, after, i)
  {
    var id, start := dispatch.id, Apply(s, dispatch);
    var before := Exec(start, steps);
    var asked := Apply(before, Cancel(id, why));
    CancelAsksTheHolder(before, id, w, why);
    CancelWrites(before, id, why, i);
    AcknowledgementWrites(asked, id, w, i);
    assert (steps + [Cancel(id, why)])[..|steps|] == steps;
    assert Exec(start, steps + [Cancel(id, why)]) == asked;
    DispatchUndoRoundTrip(s, dispatch, steps + [Cancel(id, why)], AcknowledgeStop(id, w), i);
    hide Apply, Exec, Dispatchable, Deleted;
  }

  /** The same for a plain stop request, which sends the run back to the queue, unless a
      cancel came before it. */
  lemma {:induction false} StoppedToTheEnd(s: State, dispatch: Step, steps: seq<Step>, w: WorkerId, i: IssueId)
    requires dispatch.Dispatch?
    requires Dispatchable(s, dispatch.id, dispatch.issue, dispatch.stories, dispatch.kind)
    requires HeldBy(Exec(Apply(s, dispatch), steps), dispatch.id, w) && i in s.issues
    ensures var id, before := dispatch.id, Exec(Apply(s, dispatch), steps);
            var r := before.runs[id];
            var after := Apply(Apply(before, RequestStop(id)), AcknowledgeStop(id, w));
            id in after.runs && BackAsDispatched(s, dispatch, before, after, i) &&
            after.runs[id] ==
              if r.cancelReason.Some? && r.cancelReason.value != "" then Retired(r, r.cancelReason.value)
              else FreedRow(r).(queuePause := None, stopAt := None)
  {
    var id, start := dispatch.id, Apply(s, dispatch);
    var before := Exec(start, steps);
    var asked := Apply(before, RequestStop(id));
    CancelAsksTheHolder(before, id, w, "now");
    StopRequestWrites(before, id);
    AcknowledgementWrites(asked, id, w, i);
    assert (steps + [RequestStop(id)])[..|steps|] == steps;
    assert Exec(start, steps + [RequestStop(id)]) == asked;
    DispatchUndoRoundTrip(s, dispatch, steps + [RequestStop(id)], AcknowledgeStop(id, w), i);
    hide Apply, Exec, Dispatchable, Deleted;
  }

  /** Cancelled with a reason, or over. */
  predicate Sealed(s: State, id: RunId) {
    id in s.runs ==> Doomed(s.runs[id]) || Terminal(s.runs[id].status)
  }

  lemma {:induction false} SealedStep(s: State, step: Step, id: RunId)
    requires AllRowsOk(s) && Sealed(s, id) && (id in s.runs || id in s.gone)
    ensures Sealed(Apply(s, step), id)
    ensures id in Apply(s, step).runs || id in Apply(s, step).gone
  {
    hide Apply, Arrow;
    if id in s.runs {
      StepsFollowTheDiagram(s, step, id);
      assert RowOk(s.runs[id]);
      if id in Apply(s, step).runs {
        MovesKeepShape(s, step, id, s.runs[id], Apply(s, step).runs[id]);
      }
    } else {
      GoneStaysGone(s, step, id);
    }
  }

  lemma {:induction false} SealedAlways(s: State, steps: seq<Step>, id: RunId)
    requires AllRowsOk(s) && Sealed(s, id) && (id in s.runs || id in s.gone)
    ensures Sealed(Exec(s, steps), id)
    ensures id in Exec(s, steps).runs || id in Exec(s, steps).gone
  {
    hide Apply, Sealed, AllRowsOk;
    if steps != [] {
      var before := steps[..|steps| - 1];
      SealedAlways(s, before, id);
      ShapeAlways(s, before);
      SealedStep(Exec(s, before), steps[|steps| - 1], id);
    }
  }

  /** A cancel of a running run is never forgotten: requeued, claimed again, parked or
      asked to stop anew, the next stop its holder of the day acknowledges retires it. */
  lemma {:induction false} CancelIsNeverForgotten(s: State, id: RunId, why: string, steps: seq<Step>, w: WorkerId)
    requires AllRowsOk(s) && RunIs(s, id, RunStatus.Running) && why != ""
    requires Asked(Exec(Apply(s, Cancel(id, why)), steps), id, w)
    ensures RunIs(Apply(Exec(Apply(s, Cancel(id, why)), steps), AcknowledgeStop(id, w)), id, Cancelled)
  {
    var t := Apply(s, Cancel(id, why));
    CancelWrites(s, id, why, 0);
    StepKeepsShape(s, Cancel(id, why));
    assert Sealed(t, id);
    SealedAlways(t, steps, id);
    AcknowledgementWrites(Exec(t, steps), id, w, 0);
    hide Apply, Exec;
  }

  // ---- one breakdown for a feature ---------------------------------------

  /** A claim of a breakdown that lands finds no other breakdown of the feature
      succeeded, and without one an offered breakdown is claimed. */
  lemma {:induction false} BreakdownClaimIff(s: State, id: RunId, w: WorkerId, f: IssueId)
    requires Free(s, id, w) && s.runs[id].kind == Breakdown && s.runs[id].issue == Some(f)
    ensures HeldBy(Apply(s, Claim(id, w)), id, w) <==>
            !exists other :: other in s.runs && other != id && s.runs[other].kind == Breakdown &&
              s.runs[other].issue == Some(f) && s.runs[other].status == Succeeded
  {
    ClaimWrites(s, id, w, 0);
    hide Apply;
  }

  /** Once a breakdown of a feature has succeeded, no claim of another one changes
      anything, whatever happened since, for as long as the first one exists. */
  lemma {:induction false} OneBreakdownEach(s: State, done: RunId, f: IssueId, steps: seq<Step>, id: RunId, w: WorkerId)
    requires AllRowsOk(s) && RunIs(s, done, Succeeded) && id != done
    requires s.runs[done].kind == Breakdown && s.runs[done].issue == Some(f)
    requires var t := Exec(s, steps);
             done in t.runs && id in t.runs && t.runs[id].kind == Breakdown && t.runs[id].issue == Some(f)
    ensures Apply(Exec(s, steps), Claim(id, w)) == Exec(s, steps)
  {
    var t := Exec(s, steps);
    TerminalIsFinal(s, steps, done);
    RunStaysIff(s, steps, done);
    ClaimWrites(t, id, w, 0);
    hide Apply, Exec;
    assert BrokenDownAlready(t, id);
  }

  // ---- the world around the runs ------------------------------------------

  /** A dispatch takes a new id over issues that exist, the leading one not blocked, and
      several stories only as code. It stamps on the run and on each story the status it
      found, and queues what a plan, a code or a merge run covers. */
  lemma {:induction false} DispatchWrites(s: State, id: RunId, issue: Option<IssueId>, stories: set<IssueId>,
      org: OrgId, project: ProjectId, kind: Kind, i: IssueId)
    ensures var t := Apply(s, Dispatch(id, issue, stories, org, project, kind));
            if id in s.runs || id in s.gone || (exists j :: j in stories && j !in s.issues) ||
               (issue.Some? && (issue.value !in s.issues || s.issues[issue.value].blocked)) ||
               (|stories| > 0 && (issue == None || kind != Code)) then t == s
            else
              id in t.runs && id in t.items &&
              var r := t.runs[id];
              t == s.(runs := s.runs[id := r], items := s.items[id := t.items[id]], issues := t.issues) &&
              r == Run(org, project, issue, kind, Queued,
                       if issue == None || kind in {Test, Release, Guidelines, Deploy} then None
                       else Some(s.issues[issue.value].status),
                       None, None, None, None, None, None, None, None, None, 0) &&
              StoryOf(t, id, i) == (if i in stories then Some(Member(Some(s.issues[i].status), {})) else None) &&
              Says(s, t, i, if kind in {Plan, Code, Merge} && (i in stories || (|stories| == 0 && issue == Some(i)))
                            then Some(Waiting) else None)
  {
    StepIs(s, Dispatch(id, issue, stories, org, project, kind));
    hide Apply, DispatchRun, Says, Bare, StoryOf;
    DispatchableIs(s, id, issue, stories, kind);
    if Dispatchable(s, id, issue, stories, kind) {
      DispatchLands(s, id, issue, stories, org, project, kind, i);
    } else {
      hide Dispatchable;
      DispatchIsRefused(s, id, issue, stories, org, project, kind);
    }
  }

  lemma {:induction false} DispatchableIs(s: State, id: RunId, issue: Option<IssueId>, stories: set<IssueId>,
      kind: Kind)
    ensures !Dispatchable(s, id, issue, stories, kind) <==>
            id in s.runs || id in s.gone || (exists j :: j in stories && j !in s.issues) ||
            (issue.Some? && (issue.value !in s.issues || s.issues[issue.value].blocked)) ||
            (|stories| > 0 && (issue == None || kind != Code))
  {
  }

  lemma {:induction false} DispatchIsRefused(s: State, id: RunId, issue: Option<IssueId>, stories: set<IssueId>,
      org: OrgId, project: ProjectId, kind: Kind)
    requires !Dispatchable(s, id, issue, stories, kind)
    ensures DispatchRun(s, id, issue, stories, org, project, kind) == s
  {
  }

  lemma {:induction false} DispatchLands(s: State, id: RunId, issue: Option<IssueId>, stories: set<IssueId>,
      org: OrgId, project: ProjectId, kind: Kind, i: IssueId)
    requires Dispatchable(s, id, issue, stories, kind)
    ensures var t := DispatchRun(s, id, issue, stories, org, project, kind);
            id in t.runs && id in t.items &&
            var r := t.runs[id];
            t == s.(runs := s.runs[id := r], items := s.items[id := t.items[id]], issues := t.issues) &&
            r == Run(org, project, issue, kind, Queued,
                     if issue == None || kind in {Test, Release, Guidelines, Deploy} then None
                     else Some(s.issues[issue.value].status),
                     None, None, None, None, None, None, None, None, None, 0) &&
            StoryOf(t, id, i) == (if i in stories then Some(Member(Some(s.issues[i].status), {})) else None) &&
            Says(s, t, i, if kind in {Plan, Code, Merge} && (i in stories || (|stories| == 0 && issue == Some(i)))
                          then Some(Waiting) else None)
  {
    var items: Items := map j | j in stories :: Member(Some(s.issues[j].status), {});
    assert items.Keys == stories && (items == map[] <==> stories == {});
  }

  lemma {:induction false} CommitWrites(s: State, id: RunId, i: IssueId, sha: string, j: IssueId)
    ensures var t := Apply(s, Cover(id, i, sha));
            t == s.(items := t.items) && t.items.Keys == s.items.Keys &&
            (forall other :: other in s.items && other != id ==> t.items[other] == s.items[other]) &&
            StoryOf(t, id, j) ==
              match StoryOf(s, id, j)
              case None => None
              case Some(m) => if j == i && |sha| > 0 then Some(Member(m.prev, m.commits + {sha})) else Some(m)
  {
    StepIs(s, Cover(id, i, sha));
    hide Apply;
  }

  lemma {:induction false} ClearingWrites(s: State, i: IssueId)
    ensures Apply(s, ResetAttempts(i)) ==
            if i in s.issues then
              s.(issues := s.issues[i := Issue(s.issues[i].status, false)], attempts := Without(s.attempts, i))
            else s
    ensures Apply(s, ReleaseBlock(i)) ==
            if i in s.issues && s.issues[i].blocked then Apply(s, ResetAttempts(i)) else s
  {
    WorldStepIs(s, ResetAttempts(i));
    WorldStepIs(s, ReleaseBlock(i));
    hide Apply;
  }

  /** An issue goes with the runs dispatched for it alone or first, its place in others
      and its attempts; an agent with its settings and access, its runs left behind. */
  lemma {:induction false} DeletionWrites(s: State, step: Step, id: RunId, i: IssueId)
    requires Deletes(step)
    ensures var t := Apply(s, step);
            match step
            case DropRun(on) =>
              t == s.(runs := s.runs - {on}, items := s.items - {on}, gone := s.gone + {on})
            case DeleteIssue(j) =>
              t == s.(runs := t.runs, items := t.items, issues := s.issues - {j}, gone := t.gone,
                      attempts := Without(s.attempts, j)) &&
              (id in t.runs <==> id in s.runs && s.runs[id].issue != Some(j)) &&
              (id in t.runs ==> t.runs[id] == s.runs[id]) &&
              (id in t.gone <==> id in s.gone || (id in s.runs && s.runs[id].issue == Some(j))) &&
              (id in s.items && (id in t.runs || id !in s.runs) ==>
                id in t.items && StoryOf(t, id, i) == if i == j then None else StoryOf(s, id, i))
            case RemoveAgent(w) =>
              t == s.(runs := t.runs, env := t.env) && t.runs.Keys == s.runs.Keys &&
              (id in s.runs ==>
                t.runs[id] == if s.runs[id].worker == Some(w) then s.runs[id].(worker := None) else s.runs[id]) &&
              t.env.workers == s.env.workers - {w} && t.env.config == s.env.config - {w} &&
              t.env.paused == s.env.paused - {w} && t.env.held == s.env.held && t.env.units == s.env.units &&
              forall a :: a in t.env.access <==> a in s.env.access && a.0 != w
  {
    WorldStepIs(s, step);
    hide Apply, Without;
  }

  lemma {:induction false} FlagWrites(s: State, w: WorkerId, paused: bool, v: WorkerId)
    ensures var t := Apply(s, SetPaused(w, paused));
            if w !in s.env.workers then t == s
            else
              t == s.(env := s.env.(paused := t.env.paused, config := t.env.config)) &&
              (v in t.env.paused <==> if v == w then paused else v in s.env.paused) &&
              t.env.config == if w in s.env.config then s.env.config
                              else s.env.config[w := Config(None, None, None, 3, None)]
  {
    WorldStepIs(s, SetPaused(w, paused));
    hide Apply;
  }
}

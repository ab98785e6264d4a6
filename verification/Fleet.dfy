/** Draining an agent before its service is restarted: the pause, the wait, the
    restart and the restore, while everybody else keeps using the database. */
module Fleet {
  import opened Runs
  import opened Steps
  import opened Lifecycle
  import opened Database

  /** `worker_is_busy` */
  predicate Busy(s: State, w: WorkerId) {
    exists id :: id in s.runs && HeldBy(s, id, w)
  }

  /** Somebody else's step that neither writes the paused flag of `w` nor deletes it. */
  predicate KeepsFlag(step: Step, w: WorkerId) {
    !(step.SetPaused? && step.w == w) && !(step.RemoveAgent? && step.w == w)
  }

  predicate Known(s: State, w: WorkerId) {
    w in s.env.workers
  }

  ghost predicate AllKeepFlag(steps: seq<Step>, w: WorkerId) {
    forall k :: 0 <= k < |steps| ==> KeepsFlag(steps[k], w)
  }

  ghost predicate NoResumes(steps: seq<Step>, w: WorkerId) {
    forall k :: 0 <= k < |steps| ==> !(steps[k].Resume? && steps[k].w == w)
  }

  lemma {:induction false} PauseFlagKept(s: State, step: Step, w: WorkerId)
    requires KeepsFlag(step, w)
    ensures w in Apply(s, step).env.paused <==> w in s.env.paused
    ensures Known(s, w) ==> Known(Apply(s, step), w)
  {
    hide Apply;
    if OfTheWorld(step) {
      WorldKeepsFlag(s, step, w);
    } else if Deletes(step) {
      DeletionsKeepFlag(s, step, w);
    } else {
      OwnStepsKeepTables(s, step);
    }
  }

  lemma {:induction false} WorldKeepsFlag(s: State, step: Step, w: WorkerId)
    requires OfTheWorld(step) && KeepsFlag(step, w)
    ensures w in Apply(s, step).env.paused <==> w in s.env.paused
    ensures Known(s, w) ==> Known(Apply(s, step), w)
  {
    hide DispatchRun, CoverCommit, ClearAttempts;
    if step.Dispatch? || step.Cover? || step.ReleaseBlock? || step.ResetAttempts? {
      SideTablesOnly(s, step);
      hide Apply;
    }
  }

  lemma {:induction false} SideTablesOnly(s: State, step: Step)
    requires step.Dispatch? || step.Cover? || step.ReleaseBlock? || step.ResetAttempts?
    ensures Apply(s, step).env == s.env
  {
  }

  lemma {:induction false} DeletionsKeepFlag(s: State, step: Step, w: WorkerId)
    requires Deletes(step) && KeepsFlag(step, w)
    ensures w in Apply(s, step).env.paused <==> w in s.env.paused
    ensures Known(s, w) ==> Known(Apply(s, step), w)
  {
    hide WithoutIssue, WithoutRuns, Without;
    IssuesTakeNoFlag(s, step);
  }

  lemma {:induction false} IssuesTakeNoFlag(s: State, step: Step)
    ensures step.DeleteIssue? ==> WithoutIssue(s, step.issueId).env == s.env
    ensures step.DropRun? ==> WithoutRuns(s, {step.id}).env == s.env
  {
  }

  lemma {:induction false} PausedCannotClaim(s: State, id: RunId, w: WorkerId)
    requires WorkerPaused(s.env, w)
    ensures Apply(s, Claim(id, w)) == s
  {
  }

  lemma {:induction false} ResumeLands(s: State, id: RunId, w: WorkerId)
    ensures HeldBy(Apply(s, Resume(id, w)), id, w) <==> HeldBy(s, id, w) || Resumable(s, id, w)
  {
    hide ClaimLease;
  }

  /** A paused idle agent becomes busy exactly when the step is a resume of a parked run
      of its own that lands. */
  lemma {:induction false} PausedAgentGainsOnlyByResume(s: State, step: Step, w: WorkerId)
    requires AllRowsOk(s) && WorkerPaused(s.env, w) && !Busy(s, w)
    ensures Busy(Apply(s, step), w) <==> step.Resume? && step.w == w && Resumable(s, step.id, w)
  {
    hide Apply, Resumable, Arrow;
    var t := Apply(s, step);
    forall id | id in t.runs && HeldBy(t, id, w)
      ensures step.Resume? && step.w == w && Resumable(s, step.id, w)
    {
      if id in s.runs {
        assert RowOk(s.runs[id]) && !HeldBy(s, id, w);
        StepsFollowTheDiagram(s, step, id);
        IntoRunning(s, step, id, s.runs[id], t.runs[id]);
        PausedCannotClaim(s, id, w);
        ResumeLands(s, id, w);
      } else {
        NewRunsAreQueued(s, step, id);
      }
    }
    if step.Resume? && step.w == w && Resumable(s, step.id, w) {
      ResumeLands(s, step.id, w);
    }
  }

  /** Once drained, an agent stays idle whatever the others do, its own resumes aside. */
  lemma {:induction false} DrainedStaysIdle(s: State, steps: seq<Step>, w: WorkerId)
    requires AllRowsOk(s) && AllKeepFlag(steps, w) && WorkerPaused(s.env, w)
    ensures WorkerPaused(Exec(s, steps).env, w)
    ensures !Busy(s, w) && NoResumes(steps, w) ==> !Busy(Exec(s, steps), w)
  {
    if steps != [] {
      var before := steps[..|steps| - 1];
      DrainedStaysIdle(s, before, w);
      ShapeAlways(s, before);
      PauseFlagKept(Exec(s, before), steps[|steps| - 1], w);
      if !Busy(s, w) && NoResumes(steps, w) {
        PausedAgentGainsOnlyByResume(Exec(s, before), steps[|steps| - 1], w);
      }
    }
  }

  lemma {:induction false} FlagsKept(s: State, steps: seq<Step>, w: WorkerId)
    requires AllKeepFlag(steps, w)
    ensures w in Exec(s, steps).env.paused <==> w in s.env.paused
    ensures Known(s, w) ==> Known(Exec(s, steps), w)
  {
    if steps != [] {
      FlagsKept(s, steps[..|steps| - 1], w);
      PauseFlagKept(Exec(s, steps[..|steps| - 1]), steps[|steps| - 1], w);
    }
  }

  // ---- drain --------------------------------------------------------------

  const POLL_SECONDS: nat := 10

  /** What the others do around one drain: before each poll, and between a drain that
      succeeded and the restart it was for. */
  datatype World = World(polls: nat -> seq<Step>, restart: seq<Step>)

  ghost predicate WorldKeepsFlags(world: World, w: WorkerId) {
    (forall k: nat :: AllKeepFlag(world.polls(k), w)) && AllKeepFlag(world.restart, w)
  }

  /** The pause, and what the others do up to the n-th look. */
  ghost function Waited(world: World, w: WorkerId, n: nat): seq<Step> {
    if n == 0 then [Step.SetPaused(w, true)] else Waited(world, w, n - 1) + world.polls(n - 1)
  }

  /** The looks before the last one found the agent busy, and none of them was at the
      ceiling: ten seconds pass from one to the next. */
  ghost predicate KeptWaiting(s: State, world: World, w: WorkerId, ceiling: nat, looks: nat) {
    forall n :: 1 <= n < looks ==> Busy(Exec(s, Waited(world, w, n)), w) && 10 * (n - 1) < ceiling
  }

  /** Pause, then wait for the run in flight to be handed back, or give up at the
      ceiling and not before. `True` means that a look just now found no run in hand.
      `trace` is all that happened meanwhile. */
  method Drain(db: Db, w: WorkerId, world: World, ceiling: nat)
    returns (idle: bool, ghost trace: seq<Step>, ghost looks: nat)
    requires AllRowsOk(db.Snapshot()) && w in db.env.workers && WorldKeepsFlags(world, w)
    modifies db
    ensures AllRowsOk(db.Snapshot()) && WorkerPaused(db.env, w)
    ensures idle <==> !Busy(db.Snapshot(), w)
    ensures db.Snapshot() == Exec(old(db.Snapshot()), trace)
    ensures trace == Waited(world, w, looks) && looks >= 1
    ensures KeptWaiting(old(db.Snapshot()), world, w, ceiling, looks)
    ensures !idle ==> 10 * (looks - 1) >= ceiling
    ensures forall v :: v != w && WorldKeepsFlags(world, v) ==> AllKeepFlag(trace, v)
    ensures w in db.env.workers
  {
    hide Apply, Exec, AllRowsOk, Busy, WorldKeepsFlags, AllKeepFlag, KeptWaiting, Waited, DrainedSoFar;
    ghost var start := db.Snapshot();
    db.SetPaused(w, true);
    trace, looks := [Step.SetPaused(w, true)], 0;
    PauseBegins(start, world, w, ceiling);
    var waited := 0;
    var k := 0;
    while true
      invariant DrainedSoFar(start, db.Snapshot(), trace, world, w, k)
      invariant KeptWaiting(start, world, w, ceiling, k + 1)
      invariant waited == 10 * k && looks == k
      decreases ceiling + POLL_SECONDS - waited
    {
      ghost var before := db.Snapshot();
      db.Elapse(world.polls(k));
      WaitsOnce(start, before, trace, world, w, k);
      trace := trace + world.polls(k);
      looks := k + 1;
      StillDrained(start, db.Snapshot(), trace, world, w, looks);
      var busy := IsBusy(db, w);
      if !busy {
        idle := true;
        return;
      }
      if waited >= ceiling {
        idle := false;
        return;
      }
      OneMoreLook(start, world, w, ceiling, looks);
      waited := waited + POLL_SECONDS;
      k := k + 1;
    }
  }

  /** Under way: paused, known, the shapes kept, and `trace` is the pause and k waits. */
  ghost predicate DrainedSoFar(start: State, s: State, trace: seq<Step>, world: World, w: WorkerId, k: nat) {
    AllRowsOk(s) && WorkerPaused(s.env, w) && Known(s, w) && s == Exec(start, trace) && trace == Waited(world, w, k) &&
    WorldKeepsFlags(world, w) && forall v :: v != w && WorldKeepsFlags(world, v) ==> AllKeepFlag(trace, v)
  }

  lemma {:induction false} PauseBegins(start: State, world: World, w: WorkerId, ceiling: nat)
    requires AllRowsOk(start) && Known(start, w) && WorldKeepsFlags(world, w)
    ensures DrainedSoFar(start, Apply(start, Step.SetPaused(w, true)), [Step.SetPaused(w, true)], world, w, 0)
    ensures KeptWaiting(start, world, w, ceiling, 1)
  {
    OneStepTrace(start, Step.SetPaused(w, true));
    StepKeepsShape(start, Step.SetPaused(w, true));
    hide Exec, AllRowsOk, Busy, WorldKeepsFlags;
  }

  lemma {:induction false} WaitsOnce(start: State, before: State, trace: seq<Step>, world: World, w: WorkerId, k: nat)
    requires DrainedSoFar(start, before, trace, world, w, k)
    ensures DrainedSoFar(start, Exec(before, world.polls(k)), trace + world.polls(k), world, w, k + 1)
  {
    ShapeAlways(before, world.polls(k));
    PollsKeepFlags(world, k, w);
    FlagsKept(before, world.polls(k), w);
    ExecConcat(start, trace, world.polls(k));
    hide Apply, Exec, AllRowsOk, WorldKeepsFlags;
    forall v | v != w && WorldKeepsFlags(world, v)
      ensures AllKeepFlag(trace + world.polls(k), v)
    {
      PollsKeepFlags(world, k, v);
    }
  }

  lemma {:induction false} StillDrained(start: State, s: State, trace: seq<Step>, world: World, w: WorkerId, looks: nat)
    requires DrainedSoFar(start, s, trace, world, w, looks)
    ensures AllRowsOk(s) && WorkerPaused(s.env, w) && w in s.env.workers && s == Exec(start, trace)
    ensures trace == Waited(world, w, looks)
    ensures forall v :: v != w && WorldKeepsFlags(world, v) ==> AllKeepFlag(trace, v)
  {
    hide Exec, AllRowsOk, WorldKeepsFlags, AllKeepFlag;
  }

  lemma {:induction false} OneMoreLook(start: State, world: World, w: WorkerId, ceiling: nat, looks: nat)
    requires looks >= 1 && KeptWaiting(start, world, w, ceiling, looks)
    requires Busy(Exec(start, Waited(world, w, looks)), w) && 10 * (looks - 1) < ceiling
    ensures KeptWaiting(start, world, w, ceiling, looks + 1)
  {
    hide Exec, Busy, Waited;
  }

  /** `worker_is_busy`, asked of the database. */
  method IsBusy(db: Db, w: WorkerId) returns (busy: bool)
    ensures busy <==> Busy(db.Snapshot(), w)
  {
    busy := exists id :: id in db.runs && HeldBy(db.Snapshot(), id, w);
  }

  lemma {:induction false} PollsKeepFlags(world: World, k: nat, w: WorkerId)
    requires WorldKeepsFlags(world, w)
    ensures AllKeepFlag(world.polls(k), w) && AllKeepFlag(world.restart, w)
  {
  }

  lemma {:induction false} OneStepTrace(s: State, step: Step)
    ensures Exec(s, [step]) == Apply(s, step)
  {
    assert [step][..0] == [] && Exec(s, []) == s;
    hide Apply;
  }

  // ---- the update job -----------------------------------------------------

  datatype Desired = Enabled | Suspended | Off

  datatype Slot = Slot(worker: WorkerId, desired: Desired)

  /** How each slot's part of the job goes on the machine. */
  datatype Machine = Fine | BadEnvironment | BadRestart

  datatype JobOutcome = Updated | Partial | FailedAt(slot: nat)

  ghost predicate DistinctWorkers(slots: seq<Slot>) {
    forall j, k :: 0 <= j < k < |slots| ==> slots[j].worker != slots[k].worker
  }

  ghost predicate FlagRestored(env: Env, slot: Slot) {
    WorkerPaused(env, slot.worker) <==> slot.desired.Suspended?
  }

  /** A slot the job is done with: its flag says what the slot was, and a slot that is
      off was left as it stood. */
  ghost predicate Done(env: Env, before: Env, slot: Slot) {
    if slot.desired.Off? then WorkerPaused(env, slot.worker) <==> WorkerPaused(before, slot.worker)
    else FlagRestored(env, slot)
  }

  /** Where in a trace a slot was found drained, and where its service was restarted. */
  datatype Mark = Mark(drained: nat, restart: nat)

  /** The slot's agent was paused and idle when found drained. What the others did then
      is exactly `world.restart`, and at the restart the agent is idle still, unless it
      resumed a run of its own in between. */
  ghost predicate RestartedAt(s: State, trace: seq<Step>, slot: Slot, world: World, mark: Mark) {
    mark.drained <= mark.restart <= |trace| && trace[mark.drained..mark.restart] == world.restart &&
    WorkerPaused(At(s, trace, mark.drained).env, slot.worker) && !Busy(At(s, trace, mark.drained), slot.worker) &&
    (NoResumes(world.restart, slot.worker) ==> !Busy(At(s, trace, mark.restart), slot.worker))
  }

  /** The slot was given up on: after its pause nothing but looks and waits, the last of
      them at the ceiling or past it, and its agent busy still. */
  ghost predicate GivenUpAt(s: State, trace: seq<Step>, slot: Slot, world: World, ceiling: nat, mark: Mark) {
    mark.drained <= mark.restart <= |trace| && Busy(At(s, trace, mark.restart), slot.worker) &&
    exists n: nat :: 10 * n >= ceiling && trace[mark.drained..mark.restart] == Waited(world, slot.worker, n + 1)
  }

  ghost predicate VisitedAt(s: State, trace: seq<Step>, slot: Slot, world: World, ceiling: nat, idle: bool,
      mark: Mark)
  {
    if idle then RestartedAt(s, trace, slot, world, mark) else GivenUpAt(s, trace, slot, world, ceiling, mark)
  }

  function PutBack(slot: Slot): Step {
    Step.SetPaused(slot.worker, slot.desired.Suspended?)
  }

  /** The restart is followed at once by the write that puts the flag back. */
  predicate PutBackAt(trace: seq<Step>, slot: Slot, mark: Mark) {
    mark.restart < |trace| && trace[mark.restart] == PutBack(slot)
  }

  lemma {:induction false} AtLater(s: State, first: seq<Step>, second: seq<Step>, n: nat)
    requires n <= |second|
    ensures At(s, first + second, |first| + n) == At(Exec(s, first), second, n)
    ensures forall k :: 0 <= k <= |first| ==> At(s, first + second, k) == At(s, first, k)
  {
    hide Exec;
    assert (first + second)[..|first| + n] == first + second[..n];
    ExecConcat(s, first, second[..n]);
    assert forall k :: 0 <= k <= |first| ==> (first + second)[..k] == first[..k];
  }

  lemma {:induction false} VisitShifts(s: State, first: seq<Step>, trace: seq<Step>, slot: Slot, world: World,
      ceiling: nat, idle: bool, mark: Mark)
    requires VisitedAt(Exec(s, first), trace, slot, world, ceiling, idle, mark) && PutBackAt(trace, slot, mark)
    ensures var later := Mark(|first| + mark.drained, |first| + mark.restart);
            VisitedAt(s, first + trace, slot, world, ceiling, idle, later) && PutBackAt(first + trace, slot, later)
  {
    hide Exec, At, Busy, NoResumes, WorkerPaused, Waited;
    AtLater(s, first, trace, mark.drained);
    AtLater(s, first, trace, mark.restart);
    assert (first + trace)[|first| + mark.drained..|first| + mark.restart] == trace[mark.drained..mark.restart];
  }

  lemma {:induction false} VisitStays(s: State, trace: seq<Step>, more: seq<Step>, slot: Slot, world: World,
      ceiling: nat, idle: bool, mark: Mark)
    requires VisitedAt(s, trace, slot, world, ceiling, idle, mark) && PutBackAt(trace, slot, mark)
    ensures VisitedAt(s, trace + more, slot, world, ceiling, idle, mark) && PutBackAt(trace + more, slot, mark)
  {
    hide Exec, At, Busy, NoResumes, WorkerPaused, Waited;
    AtLater(s, trace, more, 0);
    assert (trace + more)[mark.drained..mark.restart] == trace[mark.drained..mark.restart];
  }

  /** One slot of `_job_update`: drain, restart if idle, put the flag back. */
  method UpdateSlot(db: Db, slot: Slot, world: World, machine: Machine, ceiling: nat)
    returns (failed: bool, skipped: bool, ghost trace: seq<Step>, ghost mark: Mark)
    requires AllRowsOk(db.Snapshot()) && Known(db.Snapshot(), slot.worker) && WorldKeepsFlags(world, slot.worker)
    modifies db
    ensures AllRowsOk(db.Snapshot()) && Known(db.Snapshot(), slot.worker)
    ensures db.Snapshot() == Exec(old(db.Snapshot()), trace)
    ensures failed <==> machine.BadEnvironment? || (machine.BadRestart? && !skipped)
    ensures !failed ==> FlagRestored(db.env, slot)
    ensures failed && machine.BadRestart? ==> WorkerPaused(db.env, slot.worker)
    ensures failed && machine.BadEnvironment? ==> trace == []
    ensures !machine.BadEnvironment? ==>
              VisitedAt(old(db.Snapshot()), trace, slot, world, ceiling, !skipped, mark) &&
              (if failed then mark.restart == |trace| else PutBackAt(trace, slot, mark))
    ensures forall v :: v != slot.worker && WorldKeepsFlags(world, v) ==> AllKeepFlag(trace, v)
  {
    hide Apply, Exec, AllRowsOk, Busy, WorldKeepsFlags;
    ghost var start := db.Snapshot();
    failed, skipped, trace, mark := machine.BadEnvironment?, false, [], Mark(0, 0);
    NoTrace(start);
    if failed { return; }
    hide Waited, KeptWaiting;
    var idle;
    ghost var looks;
    idle, trace, looks := Drain(db, slot.worker, world, ceiling);
    if idle {
      ghost var drained, before := db.Snapshot(), trace;
      db.Elapse(world.restart);
      ShapeAlways(drained, world.restart);
      PollsKeepFlags(world, 0, slot.worker);
      DrainedStaysIdle(drained, world.restart, slot.worker);
      FlagsKept(drained, world.restart, slot.worker);
      ExecConcat(start, before, world.restart);
      trace := before + world.restart;
      mark := Mark(|before|, |trace|);
      assert trace[..|before|] == before && trace[..|trace|] == trace;
      WorldKeepsOthers(world, slot.worker, before);
      if machine.BadRestart? {
        failed := true;
        return;
      }
    } else {
      skipped, mark := true, Mark(0, |trace|);
      assert trace[..|trace|] == trace && trace[0..|trace|] == Waited(world, slot.worker, (looks - 1) + 1);
    }
    ghost var put, sofar := db.Snapshot(), trace;
    db.SetPaused(slot.worker, slot.desired.Suspended?);
    StepKeepsShape(put, PutBack(slot));
    PutsBack(put, slot);
    OneStepTrace(put, PutBack(slot));
    ExecConcat(start, sofar, [PutBack(slot)]);
    trace := sofar + [PutBack(slot)];
    AtLater(start, sofar, [PutBack(slot)], 0);
    assert trace[mark.drained..mark.restart] == sofar[mark.drained..mark.restart];
  }

  lemma {:induction false} NoTrace(s: State)
    ensures Exec(s, []) == s
  {
  }

  lemma {:induction false} WorldKeepsOthers(world: World, w: WorkerId, trace: seq<Step>)
    requires forall v :: v != w && WorldKeepsFlags(world, v) ==> AllKeepFlag(trace, v)
    ensures forall v :: v != w && WorldKeepsFlags(world, v) ==> AllKeepFlag(trace + world.restart, v)
  {
  }

  lemma {:induction false} PutsBack(s: State, slot: Slot)
    requires Known(s, slot.worker)
    ensures Known(Apply(s, PutBack(slot)), slot.worker) && FlagRestored(Apply(s, PutBack(slot)).env, slot)
  {
  }

  // ---- all slots ----------------------------------------------------------

  /** The first `done` slots are done with, and the flags of those from `rest` on are as
      they were. */
  ghost predicate FlagsSettled(env: Env, before: Env, slots: seq<Slot>, done: nat, rest: nat) {
    (forall k :: 0 <= k < done && k < |slots| ==> Done(env, before, slots[k])) &&
    forall k :: rest <= k < |slots| ==>
      (WorkerPaused(env, slots[k].worker) <==> WorkerPaused(before, slots[k].worker))
  }

  /** Of the first `n` slots those that are not off were skipped or restarted. */
  ghost predicate SortedOut(slots: seq<Slot>, n: nat, skipped: set<nat>, restarted: set<nat>) {
    skipped !! restarted && (forall k :: k in skipped + restarted ==> k < n) &&
    forall k :: 0 <= k < n && k < |slots| ==> (slots[k].desired.Off? <==> k !in skipped + restarted)
  }

  ghost predicate VisitsIn(s: State, trace: seq<Step>, slots: seq<Slot>, worlds: seq<World>, ceiling: nat,
      skipped: set<nat>, restarted: set<nat>, marks: map<nat, Mark>)
    requires |worlds| == |slots|
  {
    forall k :: k in skipped + restarted ==>
      k < |slots| && k in marks && VisitedAt(s, trace, slots[k], worlds[k], ceiling, k in restarted, marks[k]) &&
      PutBackAt(trace, slots[k], marks[k])
  }

  /** No restart that failed is passed over, nor an environment that could not be written. */
  ghost predicate RanFine(machines: seq<Machine>, skipped: set<nat>, restarted: set<nat>) {
    (forall k :: k in restarted ==> k < |machines| && machines[k].Fine?) &&
    forall k :: k in skipped ==> k < |machines| && !machines[k].BadEnvironment?
  }

  ghost predicate AllKnown(env: Env, slots: seq<Slot>) {
    forall k :: 0 <= k < |slots| ==> slots[k].worker in env.workers
  }

  lemma {:induction false} OthersKept(s: State, trace: seq<Step>, slots: seq<Slot>, k: nat)
    requires k < |slots| && DistinctWorkers(slots) && AllKnown(s.env, slots)
    requires forall j :: 0 <= j < |slots| && j != k ==> AllKeepFlag(trace, slots[j].worker)
    ensures forall j :: 0 <= j < |slots| && j != k ==>
      (WorkerPaused(Exec(s, trace).env, slots[j].worker) <==> WorkerPaused(s.env, slots[j].worker)) &&
      slots[j].worker in Exec(s, trace).env.workers
  {
    forall j | 0 <= j < |slots| && j != k
      ensures WorkerPaused(Exec(s, trace).env, slots[j].worker) <==> WorkerPaused(s.env, slots[j].worker)
      ensures slots[j].worker in Exec(s, trace).env.workers
    {
      FlagsKept(s, trace, slots[j].worker);
    }
    hide Exec;
  }

  lemma {:induction false} SortedMore(slots: seq<Slot>, k: nat, skipped: set<nat>, restarted: set<nat>)
    requires k < |slots| && SortedOut(slots, k, skipped, restarted)
    ensures slots[k].desired.Off? ==> SortedOut(slots, k + 1, skipped, restarted)
    ensures !slots[k].desired.Off? ==> SortedOut(slots, k + 1, skipped + {k}, restarted)
    ensures !slots[k].desired.Off? ==> SortedOut(slots, k + 1, skipped, restarted + {k})
  {
    assert k !in skipped + restarted;
    assert (skipped + {k}) + restarted == skipped + (restarted + {k});
    forall j: nat
      ensures j in skipped + (restarted + {k}) <==> j in skipped + restarted || j == k
    {
    }
  }

  lemma {:induction false} NothingSettled(s: State, slots: seq<Slot>, worlds: seq<World>, ceiling: nat)
    requires |worlds| == |slots|
    ensures FlagsSettled(s.env, s.env, slots, 0, 0) && SortedOut(slots, 0, {}, {})
    ensures VisitsIn(s, [], slots, worlds, ceiling, {}, {}, map[])
  {
  }

  lemma {:induction false} KnownAllRound(env: Env, slots: seq<Slot>, k: nat)
    requires k < |slots| && slots[k].worker in env.workers
    requires forall j :: 0 <= j < |slots| && j != k ==> slots[j].worker in env.workers
    ensures AllKnown(env, slots)
  {
  }

  lemma {:induction false} OneSlotMore(first: Env, env: Env, next: Env, slots: seq<Slot>, k: nat)
    requires k < |slots| && FlagsSettled(env, first, slots, k, k)
    requires forall j :: 0 <= j < |slots| && j != k ==>
      (WorkerPaused(next, slots[j].worker) <==> WorkerPaused(env, slots[j].worker))
    ensures FlagsSettled(next, first, slots, k, k + 1)
    ensures Done(next, first, slots[k]) ==> FlagsSettled(next, first, slots, k + 1, k + 1)
  {
    hide WorkerPaused;
  }

  lemma {:induction false} OffIsDone(env: Env, before: Env, slots: seq<Slot>, k: nat)
    requires k < |slots| && FlagsSettled(env, before, slots, k, k) && slots[k].desired.Off?
    ensures Done(env, before, slots[k])
  {
  }

  lemma {:induction false} VisitsGrow(s: State, trace: seq<Step>, more: seq<Step>, slots: seq<Slot>,
      worlds: seq<World>, ceiling: nat, skipped: set<nat>, restarted: set<nat>, marks: map<nat, Mark>)
    requires |worlds| == |slots| && VisitsIn(s, trace, slots, worlds, ceiling, skipped, restarted, marks)
    ensures VisitsIn(s, trace + more, slots, worlds, ceiling, skipped, restarted, marks)
  {
    forall k | k in skipped + restarted
      ensures k < |slots| && k in marks
      ensures VisitedAt(s, trace + more, slots[k], worlds[k], ceiling, k in restarted, marks[k])
      ensures PutBackAt(trace + more, slots[k], marks[k])
    {
      VisitStays(s, trace, more, slots[k], worlds[k], ceiling, k in restarted, marks[k]);
    }
    hide VisitedAt, PutBackAt;
  }

  /** One more slot is visited, `part` of the history. */
  lemma {:induction false} OneVisitMore(s: State, sofar: seq<Step>, part: seq<Step>, slots: seq<Slot>,
      worlds: seq<World>, ceiling: nat, skipped: set<nat>, restarted: set<nat>, marks: map<nat, Mark>, k: nat,
      idle: bool, mark: Mark)
    requires |worlds| == |slots| && k < |slots| && k !in skipped + restarted
    requires VisitsIn(s, sofar, slots, worlds, ceiling, skipped, restarted, marks)
    requires VisitedAt(Exec(s, sofar), part, slots[k], worlds[k], ceiling, idle, mark)
    requires PutBackAt(part, slots[k], mark)
    ensures VisitsIn(s, sofar + part, slots, worlds, ceiling, if idle then skipped else skipped + {k},
                     if idle then restarted + {k} else restarted,
                     marks[k := Mark(|sofar| + mark.drained, |sofar| + mark.restart)])
  {
    VisitsGrow(s, sofar, part, slots, worlds, ceiling, skipped, restarted, marks);
    VisitShifts(s, sofar, part, slots[k], worlds[k], ceiling, idle, mark);
    VisitJoins(s, sofar + part, slots, worlds, ceiling, skipped, restarted, marks, k, idle,
               Mark(|sofar| + mark.drained, |sofar| + mark.restart));
    hide *;
  }

  lemma {:induction false} VisitJoins(s: State, trace: seq<Step>, slots: seq<Slot>, worlds: seq<World>, ceiling: nat,
      skipped: set<nat>, restarted: set<nat>, marks: map<nat, Mark>, k: nat, idle: bool, mark: Mark)
    requires |worlds| == |slots| && k < |slots| && k !in skipped + restarted
    requires VisitsIn(s, trace, slots, worlds, ceiling, skipped, restarted, marks)
    requires VisitedAt(s, trace, slots[k], worlds[k], ceiling, idle, mark) && PutBackAt(trace, slots[k], mark)
    ensures VisitsIn(s, trace, slots, worlds, ceiling, if idle then skipped else skipped + {k},
                     if idle then restarted + {k} else restarted, marks[k := mark])
  {
    hide VisitedAt, PutBackAt;
  }

  lemma {:induction false} NotVisitedYet(slots: seq<Slot>, k: nat, skipped: set<nat>, restarted: set<nat>)
    requires SortedOut(slots, k, skipped, restarted)
    ensures k !in skipped + restarted
  {
  }

  /** `_job_update` over a host's slots. On a normal return every slot that is not off
      has its flag back, and was restarted or skipped. A failed restart stops the job
      there, with that one agent still paused by its drain. Agents may go on resuming
      parked runs all the while: `trace` is all that happened, and `marks` where in it
      each restarted slot was drained and restarted. */
  method JobUpdate(db: Db, slots: seq<Slot>, worlds: seq<World>, machines: seq<Machine>, ceiling: nat)
    returns (outcome: JobOutcome, skipped: set<nat>, restarted: set<nat>, ghost trace: seq<Step>,
             ghost marks: map<nat, Mark>)
    requires AllRowsOk(db.Snapshot()) && |worlds| == |slots| && |machines| == |slots| && DistinctWorkers(slots)
    requires AllKnown(db.env, slots)
    requires forall j, k :: 0 <= j < |slots| && 0 <= k < |slots| ==> WorldKeepsFlags(worlds[j], slots[k].worker)
    modifies db
    ensures db.Snapshot() == Exec(old(db.Snapshot()), trace)
    ensures VisitsIn(old(db.Snapshot()), trace, slots, worlds, ceiling, skipped, restarted, marks)
    ensures !outcome.FailedAt? ==>
              FlagsSettled(db.env, old(db.env), slots, |slots|, |slots|) &&
              SortedOut(slots, |slots|, skipped, restarted) && (outcome.Partial? <==> skipped != {})
    ensures RanFine(machines, skipped, restarted)
    ensures outcome.FailedAt? ==>
              outcome.slot < |slots| && !slots[outcome.slot].desired.Off? && !machines[outcome.slot].Fine? &&
              FlagsSettled(db.env, old(db.env), slots, outcome.slot, outcome.slot + 1) &&
              SortedOut(slots, outcome.slot, skipped, restarted)
    ensures outcome.FailedAt? ==>
              var failed := slots[outcome.slot].worker;
              if machines[outcome.slot].BadRestart? then WorkerPaused(db.env, failed)
              else WorkerPaused(db.env, failed) <==> WorkerPaused(old(db.env), failed)
  {
    hide Apply, Exec, AllRowsOk, Busy, WorldKeepsFlags, VisitedAt, PutBackAt, AllKeepFlag;
    ghost var start, first := db.Snapshot(), db.env;
    skipped, restarted, trace, marks := {}, {}, [], map[];
    NoTrace(start);
    NothingSettled(start, slots, worlds, ceiling);
    hide FlagsSettled, SortedOut, AllKnown, VisitsIn;
    for k := 0 to |slots|
      invariant AllRowsOk(db.Snapshot()) && AllKnown(db.env, slots)
      invariant db.Snapshot() == Exec(start, trace)
      invariant FlagsSettled(db.env, first, slots, k, k)
      invariant SortedOut(slots, k, skipped, restarted)
      invariant VisitsIn(start, trace, slots, worlds, ceiling, skipped, restarted, marks)
      invariant RanFine(machines, skipped, restarted)
    {
      SortedMore(slots, k, skipped, restarted);
      if slots[k].desired.Off? {
        OneSlotMore(first, db.env, db.env, slots, k);
        OffIsDone(db.env, first, slots, k);
      } else {
        ghost var before, sofar := db.Snapshot(), trace;
        var failed, skip;
        ghost var part, mark;
        failed, skip, part, mark := UpdateSlot(db, slots[k], worlds[k], machines[k], ceiling);
        OthersKept(before, part, slots, k);
        KnownAllRound(db.env, slots, k);
        OneSlotMore(first, before.env, db.env, slots, k);
        ExecConcat(start, sofar, part);
        VisitsGrow(start, sofar, part, slots, worlds, ceiling, skipped, restarted, marks);
        NotVisitedYet(slots, k, skipped, restarted);
        trace := sofar + part;
        NoTrace(before);
        if failed {
          outcome := FailedAt(k);
          return;
        }
        OneVisitMore(start, sofar, part, slots, worlds, ceiling, skipped, restarted, marks, k, !skip, mark);
        marks := marks[k := Mark(|sofar| + mark.drained, |sofar| + mark.restart)];
        if skip {
          skipped := skipped + {k};
        } else {
          restarted := restarted + {k};
        }
      }
    }
    outcome := if skipped != {} then Partial else Updated;
  }
}

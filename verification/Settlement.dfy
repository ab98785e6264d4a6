/** Who settles a release that is deploying: its pipeline, the startup reaper, a
    cancel, or the stranded sweep, in any interleaving of their statements. */
module Settlement {
  import opened Runs

  type ReleaseId = nat

  const GRACE_MINUTES: nat := 5
  const DEFAULT_TIMEOUT: nat := 30

  datatype Landing = Deploying | Deployed | DeployFailed | Elsewhere

  datatype Release = ReleaseRow(status: Landing, run: Option<RunId>)

  datatype Phase = Queued | Working | Done(ok: bool)

  /** A `deployment_runs` row; `Done(false)` is failed or cancelled. */
  datatype DeployRun = DeployRun(phase: Phase, release: Option<ReleaseId>, createdAt: Time, timeoutMinutes: nat)

  /** One row of the stranded sweep's read. */
  datatype Sighting = Sighting(release: ReleaseId, run: Option<RunId>, phase: Phase, age: Time, timeoutMinutes: nat)

  /** `recorded`: the pipelines still in flight, with what each has written, if anything
      yet. `launching`: runs created whose release is still to be pointed at them.
      `asked`: cancels that found their run active and have not flipped it yet. `owed`:
      settles that the reaper or a cancel has still to make. `seen`: rows that some sweep
      has read and not acted on yet. `ever`: runs once recorded succeeded. */
  datatype World = World(
    now: Time,
    releases: map<ReleaseId, Release>,
    runs: map<RunId, DeployRun>,
    recorded: map<RunId, Option<bool>>,
    launching: set<RunId>,
    asked: multiset<RunId>,
    owed: multiset<RunId>,
    seen: multiset<Sighting>,
    ever: set<RunId>
  )

  datatype Step =
    | Tick(elapsed: nat)
    // a launch or a retry
    | Create(release: ReleaseId, run: RunId, timeoutMinutes: nat)
    | Point(release: ReleaseId, run: RunId)
    // the pipeline
    | Begin(run: RunId)
    | Record(run: RunId, ok: bool)
    | PipelineSettle(run: RunId)
    | Vanish(run: RunId)
    // the reaper and a cancel
    | ReapRow(run: RunId)
    | CancelAsk(run: RunId)
    | CancelFlip(run: RunId)
    | SettleOwed(run: RunId)
    | Forgo(run: RunId)
    // the stranded sweep
    | Look(release: ReleaseId)
    | Act(sighting: Sighting, live: bool)
    | Overlook(sighting: Sighting)
    // a person's verdict
    | Decide(release: ReleaseId)

  predicate Unfinished(phase: Phase) {
    !phase.Done?
  }

  /** `_settle_release_status`: guarded to `deploying`, and to nothing else. */
  function Settle(releases: map<ReleaseId, Release>, release: ReleaseId, ok: bool): (r: map<ReleaseId, Release>)
    ensures r.Keys == releases.Keys && forall rel :: rel in r ==> r[rel].run == releases[rel].run
  {
    if release in releases && releases[release].status.Deploying? then
      releases[release := releases[release].(status := if ok then Deployed else DeployFailed)]
    else releases
  }

  /** Guarded to a row that is still queued or running. */
  function FailRow(runs: map<RunId, DeployRun>, run: RunId): (r: map<RunId, DeployRun>)
    ensures r.Keys == runs.Keys && forall id :: id in r ==>
      r[id].release == runs[id].release && (r[id] == runs[id] || r[id].phase == Done(false))
  {
    if run in runs && Unfinished(runs[run].phase) then runs[run := runs[run].(phase := Done(false))] else runs
  }

  function Timeout(minutes: nat): nat {
    if minutes == 0 then DEFAULT_TIMEOUT else minutes
  }

  predicate Old(age: Time, timeoutMinutes: nat) {
    age >= (Timeout(timeoutMinutes) + GRACE_MINUTES) * MINUTE
  }

  datatype Verdict = LeaveAlone | LandDeployed | LandFailed | FailRunToo

  /** What the sweep makes of a deploying release's run. */
  function Judge(run: Option<RunId>, phase: Phase, age: Time, timeoutMinutes: nat, live: bool): Verdict {
    if run.None? then LandFailed
    else if phase.Done? then (if phase.ok then LandDeployed else LandFailed)
    else if live || !Old(age, timeoutMinutes) then LeaveAlone
    else FailRunToo
  }

  function SightingOf(w: World, release: ReleaseId): Sighting
    requires release in w.releases
  {
    var run := w.releases[release].run;
    if run.Some? && run.value in w.runs then
      var r := w.runs[run.value];
      Sighting(release, run, r.phase, w.now - r.createdAt, r.timeoutMinutes)
    else Sighting(release, None, Phase.Queued, 0, 0)
  }

  // ---- one step, table by table -------------------------------------------

  predicate Active(w: World, run: RunId) {
    run in w.runs && Unfinished(w.runs[run].phase)
  }

  predicate Running(w: World, run: RunId) {
    run in w.recorded && run in w.runs
  }

  predicate Of(w: World, run: RunId, release: ReleaseId) {
    run in w.runs && w.runs[run].release == Some(release)
  }

  predicate MayCreate(w: World, release: ReleaseId, run: RunId) {
    run !in w.runs && release in w.releases
  }

  predicate MayPoint(w: World, release: ReleaseId, run: RunId) {
    run in w.launching && Of(w, run, release)
  }

  function VerdictIn(s: Sighting, live: bool): Verdict {
    Judge(s.run, s.phase, s.age, s.timeoutMinutes, live)
  }

  /** A settle: which release, and whether as deployed. */
  datatype Landed = Landed(release: ReleaseId, ok: bool)

  function LandedBy(w: World, run: RunId, ok: bool): Option<Landed> {
    if run in w.runs && w.runs[run].release.Some? then Some(Landed(w.runs[run].release.value, ok)) else None
  }

  /** The settle that the step makes, if it makes one. */
  function SettleMade(w: World, step: Step): Option<Landed> {
    match step
    case PipelineSettle(run) =>
      if run in w.recorded && w.recorded[run].Some? then LandedBy(w, run, w.recorded[run].value) else None
    case SettleOwed(run) => if run in w.owed then LandedBy(w, run, false) else None
    case Act(s, live) =>
      if s in w.seen && !VerdictIn(s, live).LeaveAlone? then
        Some(Landed(s.release, VerdictIn(s, live).LandDeployed?))
      else None
    case _ => None
  }

  function ReleasesAfter(w: World, step: Step): map<ReleaseId, Release> {
    match step
    case Point(release, run) =>
      if MayPoint(w, release, run) then w.releases[release := ReleaseRow(Deploying, Some(run))] else w.releases
    case Decide(release) =>
      if release in w.releases then w.releases[release := w.releases[release].(status := Elsewhere)] else w.releases
    case _ =>
      var made := SettleMade(w, step);
      if made.Some? then Settle(w.releases, made.value.release, made.value.ok) else w.releases
  }

  function RunsAfter(w: World, step: Step): map<RunId, DeployRun> {
    match step
    case Create(release, run, timeoutMinutes) =>
      if MayCreate(w, release, run) then w.runs[run := DeployRun(Phase.Queued, Some(release), w.now, timeoutMinutes)]
      else w.runs
    case Begin(run) => if Running(w, run) then w.runs[run := w.runs[run].(phase := Working)] else w.runs
    case Record(run, ok) => if Running(w, run) then w.runs[run := w.runs[run].(phase := Done(ok))] else w.runs
    case ReapRow(run) => FailRow(w.runs, run)
    case CancelFlip(run) => if run in w.asked then FailRow(w.runs, run) else w.runs
    case Act(s, live) =>
      if s in w.seen && s.run.Some? && VerdictIn(s, live).FailRunToo? then FailRow(w.runs, s.run.value) else w.runs
    case _ => w.runs
  }

  function RecordedAfter(w: World, step: Step): map<RunId, Option<bool>> {
    match step
    case Create(release, run, _) => if MayCreate(w, release, run) then w.recorded[run := None] else w.recorded
    case Record(run, ok) => if Running(w, run) then w.recorded[run := Some(ok)] else w.recorded
    case Vanish(run) => w.recorded - {run}
    case _ => w.recorded
  }

  function LaunchingAfter(w: World, step: Step): set<RunId> {
    match step
    case Create(release, run, _) => if MayCreate(w, release, run) then w.launching + {run} else w.launching
    case Point(_, run) => w.launching - {run}
    case Vanish(run) => w.launching - {run}
    case _ => w.launching
  }

  function AskedAfter(w: World, step: Step): multiset<RunId> {
    match step
    case CancelAsk(run) => if Active(w, run) then w.asked + multiset{run} else w.asked
    case CancelFlip(run) => w.asked - multiset{run}
    case Forgo(run) => w.asked - multiset{run}
    case _ => w.asked
  }

  function OwedAfter(w: World, step: Step): multiset<RunId> {
    match step
    case ReapRow(run) => if Active(w, run) then w.owed + multiset{run} else w.owed
    case CancelFlip(run) => if run in w.asked then w.owed + multiset{run} else w.owed
    case SettleOwed(run) => w.owed - multiset{run}
    case Forgo(run) => w.owed - multiset{run}
    case _ => w.owed
  }

  function SeenAfter(w: World, step: Step): multiset<Sighting> {
    match step
    case Look(release) =>
      if release in w.releases && w.releases[release].status.Deploying? then w.seen + multiset{SightingOf(w, release)}
      else w.seen
    case Act(s, _) => w.seen - multiset{s}
    case Overlook(s) => w.seen - multiset{s}
    case _ => w.seen
  }

  function EverAfter(w: World, step: Step): set<RunId> {
    if step.Record? && step.ok && Running(w, step.run) then w.ever + {step.run} else w.ever
  }

  function Apply(w: World, step: Step): World {
    World(if step.Tick? then w.now + step.elapsed else w.now,
          ReleasesAfter(w, step), RunsAfter(w, step), RecordedAfter(w, step), LaunchingAfter(w, step),
          AskedAfter(w, step), OwedAfter(w, step), SeenAfter(w, step), EverAfter(w, step))
  }

  function Exec(w: World, steps: seq<Step>): World {
    if steps == [] then w
    else Apply(Exec(w, steps[..|steps| - 1]), steps[|steps| - 1])
  }

  // ---- what each step writes, row by row ----------------------------------

  /** A settle lands on a deploying release and on no other, and keeps its run. */
  predicate LandsOn(a: map<ReleaseId, Release>, b: map<ReleaseId, Release>, rel: ReleaseId, status: Landing) {
    b == if rel in a && a[rel].status == Deploying then a[rel := ReleaseRow(status, a[rel].run)] else a
  }

  /** The run ends failed if it was still queued or running. */
  predicate EndsFailed(a: map<RunId, DeployRun>, b: map<RunId, DeployRun>, run: RunId) {
    b == if run in a && (a[run].phase == Phase.Queued || a[run].phase == Working)
         then a[run := a[run].(phase := Done(false))] else a
  }

  lemma {:induction false} LaunchWrites(w: World, release: ReleaseId, run: RunId, timeout: nat)
    ensures Apply(w, Create(release, run, timeout)) ==
            if run in w.runs || release !in w.releases then w
            else w.(runs := w.runs[run := DeployRun(Phase.Queued, Some(release), w.now, timeout)],
                    recorded := w.recorded[run := None], launching := w.launching + {run})
    ensures Apply(w, Point(release, run)) ==
            w.(launching := w.launching - {run},
               releases := if run in w.launching && run in w.runs && w.runs[run].release == Some(release)
                           then w.releases[release := ReleaseRow(Deploying, Some(run))] else w.releases)
    ensures Apply(w, Decide(release)) ==
            if release in w.releases then
              w.(releases := w.releases[release := ReleaseRow(Elsewhere, w.releases[release].run)])
            else w
  {
  }

  lemma {:induction false} TimePasses(w: World, elapsed: nat)
    ensures Apply(w, Tick(elapsed)) == w.(now := w.now + elapsed)
  {
  }

  /** A pipeline in flight writes its own row, and settles with what it wrote last. */
  lemma {:induction false} PipelineWrites(w: World, run: RunId, ok: bool)
    ensures Apply(w, Begin(run)) ==
            if run in w.recorded && run in w.runs then w.(runs := w.runs[run := w.runs[run].(phase := Working)]) else w
    ensures Apply(w, Record(run, ok)) ==
            if run in w.recorded && run in w.runs then
              w.(runs := w.runs[run := w.runs[run].(phase := Done(ok))], recorded := w.recorded[run := Some(ok)],
                 ever := if ok then w.ever + {run} else w.ever)
            else w
    ensures Apply(w, Vanish(run)) == w.(recorded := w.recorded - {run}, launching := w.launching - {run})
  {
  }

  lemma {:induction false} PipelineSettleWrites(w: World, run: RunId)
    ensures var t := Apply(w, PipelineSettle(run));
            t == w.(releases := t.releases) &&
            if run in w.recorded && w.recorded[run] != None && run in w.runs && w.runs[run].release != None then
              LandsOn(w.releases, t.releases, w.runs[run].release.value,
                      if w.recorded[run].value then Deployed else DeployFailed)
            else t == w
  {
  }

  lemma {:induction false} NoneToTake<T>(m: multiset<T>, x: T)
    requires x !in m
    ensures m - multiset{x} == m
  {
  }

  /** The reaper and a cancel fail the row, and owe the release a settle as failed. */
  lemma {:induction false} ReapWrites(w: World, run: RunId)
    ensures var t := Apply(w, ReapRow(run));
            if run in w.runs && (w.runs[run].phase == Phase.Queued || w.runs[run].phase == Working) then
              EndsFailed(w.runs, t.runs, run) && t == w.(runs := t.runs, owed := w.owed + multiset{run})
            else t == w
  {
  }

  lemma {:induction false} CancelWrites(w: World, run: RunId)
    ensures Apply(w, CancelAsk(run)) ==
            if run in w.runs && (w.runs[run].phase == Phase.Queued || w.runs[run].phase == Working) then
              w.(asked := w.asked + multiset{run})
            else w
    ensures var t := Apply(w, CancelFlip(run));
            if run in w.asked then
              EndsFailed(w.runs, t.runs, run) &&
              t == w.(runs := t.runs, asked := w.asked - multiset{run}, owed := w.owed + multiset{run})
            else t == w
  {
    AskWrites(w, run);
    FlipWrites(w, run);
    hide *;
  }

  lemma {:induction false} AskWrites(w: World, run: RunId)
    ensures Apply(w, CancelAsk(run)) ==
            if run in w.runs && (w.runs[run].phase == Phase.Queued || w.runs[run].phase == Working) then
              w.(asked := w.asked + multiset{run})
            else w
  {
  }

  lemma {:induction false} FlipWrites(w: World, run: RunId)
    ensures var t := Apply(w, CancelFlip(run));
            if run in w.asked then
              EndsFailed(w.runs, t.runs, run) &&
              t == w.(runs := t.runs, asked := w.asked - multiset{run}, owed := w.owed + multiset{run})
            else t == w
  {
    var step := CancelFlip(run);
    if run !in w.asked {
      NoneToTake(w.asked, run);
    }
    assert AskedAfter(w, step) == w.asked - multiset{run};
    assert ReleasesAfter(w, step) == w.releases && EverAfter(w, step) == w.ever && SeenAfter(w, step) == w.seen;
    assert RecordedAfter(w, step) == w.recorded && LaunchingAfter(w, step) == w.launching;
    hide ReleasesAfter, RecordedAfter, LaunchingAfter, AskedAfter, SeenAfter, EverAfter;
  }

  lemma {:induction false} OwedSettleWrites(w: World, run: RunId)
    ensures var t := Apply(w, SettleOwed(run));
            t == w.(releases := t.releases, owed := w.owed - multiset{run}) &&
            if run in w.owed && run in w.runs && w.runs[run].release != None then
              LandsOn(w.releases, t.releases, w.runs[run].release.value, DeployFailed)
            else t.releases == w.releases
  {
    var step := SettleOwed(run);
    assert OwedAfter(w, step) == w.owed - multiset{run};
    assert RunsAfter(w, step) == w.runs && EverAfter(w, step) == w.ever && RecordedAfter(w, step) == w.recorded;
    assert LaunchingAfter(w, step) == w.launching && AskedAfter(w, step) == w.asked && SeenAfter(w, step) == w.seen;
    hide RunsAfter, RecordedAfter, LaunchingAfter, AskedAfter, OwedAfter, SeenAfter, EverAfter;
  }

  lemma {:induction false} ForgoWrites(w: World, run: RunId)
    ensures Apply(w, Forgo(run)) == w.(asked := w.asked - multiset{run}, owed := w.owed - multiset{run})
  {
  }

  /** A run in flight is left alone while its pipeline is alive here or it is younger than
      its timeout, thirty minutes if it has none, and five more; after that it is failed
      with its release. A finished run's release gets the run's own outcome, and one
      without a run has failed. */
  lemma {:induction false} VerdictsAre(run: Option<RunId>, phase: Phase, age: Time, timeout: nat, live: bool)
    ensures var verdict := Judge(run, phase, age, timeout, live);
            var patience := ((if timeout > 0 then timeout else 30) + 5) * 60_000_000;
            (verdict == LandDeployed <==> run != None && phase == Done(true)) &&
            (verdict == LandFailed <==> run == None || phase == Done(false)) &&
            (verdict == LeaveAlone <==>
             run != None && (phase == Phase.Queued || phase == Working) && (live || age < patience)) &&
            (verdict == FailRunToo <==>
             run != None && (phase == Phase.Queued || phase == Working) && !live && age >= patience)
  {
  }

  lemma {:induction false} ReadingWrites(w: World, release: ReleaseId, s: Sighting)
    ensures Apply(w, Look(release)) ==
            if release in w.releases && w.releases[release].status == Deploying then
              w.(seen := w.seen + multiset{SightingOf(w, release)})
            else w
    ensures Apply(w, Overlook(s)) == w.(seen := w.seen - multiset{s})
  {
    hide SightingOf;
  }

  lemma {:induction false} ReadingShows(w: World, release: ReleaseId)
    requires release in w.releases
    ensures var sight, run := SightingOf(w, release), w.releases[release].run;
            sight.release == release &&
            if run != None && run.value in w.runs then
              sight.run == run && sight.phase == w.runs[run.value].phase &&
              sight.age == w.now - w.runs[run.value].createdAt &&
              sight.timeoutMinutes == w.runs[run.value].timeoutMinutes
            else sight.run == None
  {
  }

  lemma {:induction false} ActWrites(w: World, s: Sighting, live: bool)
    ensures var t := Apply(w, Act(s, live));
            var verdict := Judge(s.run, s.phase, s.age, s.timeoutMinutes, live);
            t == w.(releases := t.releases, runs := t.runs, seen := w.seen - multiset{s}) &&
            (if s !in w.seen || verdict == LeaveAlone then t.releases == w.releases
             else LandsOn(w.releases, t.releases, s.release,
                          if verdict == LandDeployed then Deployed else DeployFailed)) &&
            (if s in w.seen && verdict == FailRunToo && s.run != None then EndsFailed(w.runs, t.runs, s.run.value)
             else t.runs == w.runs)
  {
    var step := Act(s, live);
    assert SeenAfter(w, step) == w.seen - multiset{s} && EverAfter(w, step) == w.ever;
    assert RecordedAfter(w, step) == w.recorded && LaunchingAfter(w, step) == w.launching;
    assert AskedAfter(w, step) == w.asked && OwedAfter(w, step) == w.owed;
    hide Judge, RecordedAfter, LaunchingAfter, AskedAfter, OwedAfter, SeenAfter, EverAfter;
  }

  // ---- the first writer wins ----------------------------------------------

  predicate Settled(w: World, release: ReleaseId) {
    release in w.releases && !w.releases[release].status.Deploying?
  }

  /** The release is pointed at a run, or a person decides over it. */
  predicate Reopens(step: Step, release: ReleaseId) {
    (step.Point? && step.release == release) || (step.Decide? && step.release == release)
  }

  lemma {:induction false} SettledStays(w: World, step: Step, release: ReleaseId)
    requires Settled(w, release) && !Reopens(step, release)
    ensures release in Apply(w, step).releases && Apply(w, step).releases[release] == w.releases[release]
  {
    hide RunsAfter, RecordedAfter, LaunchingAfter, AskedAfter, OwedAfter, SeenAfter, EverAfter, SettleMade;
  }

  /** Once a release has left `deploying` no writer moves it again, until it is launched
      again or a person decides. So of all the settles of one deploy at most one has an
      effect. */
  lemma {:induction false} FirstWriterWins(w: World, steps: seq<Step>, release: ReleaseId)
    requires Settled(w, release)
    requires forall k :: 0 <= k < |steps| ==> !Reopens(steps[k], release)
    ensures release in Exec(w, steps).releases
    ensures Exec(w, steps).releases[release] == w.releases[release]
  {
    hide Apply;
    if steps != [] {
      FirstWriterWins(w, steps[..|steps| - 1], release);
      assert !Reopens(steps[|steps| - 1], release);
      SettledStays(Exec(w, steps[..|steps| - 1]), steps[|steps| - 1], release);
    }
  }

  // ---- deployed only after success ----------------------------------------

  ghost predicate Succeeded(w: World, release: ReleaseId, run: RunId) {
    run in w.ever && run in w.runs && w.runs[run].release == Some(release)
  }

  /** Rows and releases name each other, and every success anyone can still report
      was recorded by its pipeline. */
  ghost predicate Honest(w: World) {
    w.ever <= w.runs.Keys &&
    (forall run :: run in w.runs && w.runs[run].phase == Done(true) ==> run in w.ever) &&
    (forall run :: run in w.recorded && w.recorded[run] == Some(true) ==> run in w.ever) &&
    (forall rel :: rel in w.releases && w.releases[rel].run.Some? ==>
      w.releases[rel].run.value in w.runs && w.runs[w.releases[rel].run.value].release == Some(rel)) &&
    (forall s :: s in w.seen && s.run.Some? ==>
      s.run.value in w.runs && w.runs[s.run.value].release == Some(s.release)) &&
    (forall s :: s in w.seen && s.run.Some? && s.phase == Done(true) ==> s.run.value in w.ever)
  }

  /** A run row keeps its release, and is done well only by its pipeline's record. */
  lemma {:induction false} RowAfter(w: World, step: Step, run: RunId)
    requires run in w.runs
    ensures run in RunsAfter(w, step) && RunsAfter(w, step)[run].release == w.runs[run].release
    ensures RunsAfter(w, step)[run].phase == Done(true) ==> w.runs[run].phase == Done(true) || run in EverAfter(w, step)
  {
    hide VerdictIn;
  }

  lemma {:induction false} NewRow(w: World, step: Step, run: RunId)
    requires run !in w.runs && run in RunsAfter(w, step)
    ensures step.Create? && step.run == run && RunsAfter(w, step)[run].phase.Queued?
    ensures RunsAfter(w, step)[run].release == Some(step.release)
  {
    hide VerdictIn;
  }

  lemma {:induction false} ReleaseAfter(w: World, step: Step, release: ReleaseId)
    requires release in ReleasesAfter(w, step)
    ensures release in w.releases || (step.Point? && step.release == release)
    ensures ReleasesAfter(w, step)[release].run ==
            if step.Point? && step.release == release && MayPoint(w, release, step.run) then Some(step.run)
            else if release in w.releases then w.releases[release].run else None
  {
    hide SettleMade;
  }

  lemma {:induction false} ReadingAfter(w: World, step: Step, s: Sighting)
    requires s in SeenAfter(w, step)
    ensures s in w.seen || (step.Look? && step.release in w.releases && s == SightingOf(w, step.release))
  {
    hide SightingOf;
  }

  lemma {:induction false} WhatIsRead(w: World, release: ReleaseId)
    requires Honest(w) && release in w.releases
    ensures var s := SightingOf(w, release);
            s.release == release && s.run == w.releases[release].run &&
            (s.run.Some? && s.phase == Done(true) ==> s.run.value in w.ever)
  {
  }

  lemma {:induction false} RecordAfter(w: World, step: Step, run: RunId)
    requires run in RecordedAfter(w, step) && RecordedAfter(w, step)[run] == Some(true)
    ensures run in EverAfter(w, step) || (run in w.recorded && w.recorded[run] == Some(true))
  {
  }

  lemma {:induction false} HonestRows(w: World, step: Step)
    requires Honest(w)
    ensures forall run :: run in RunsAfter(w, step) && RunsAfter(w, step)[run].phase == Done(true) ==>
              run in EverAfter(w, step)
    ensures EverAfter(w, step) <= RunsAfter(w, step).Keys && w.ever <= EverAfter(w, step)
  {
    forall run | run in RunsAfter(w, step) && RunsAfter(w, step)[run].phase == Done(true)
      ensures run in EverAfter(w, step)
    {
      if run in w.runs {
        RowAfter(w, step, run);
      } else {
        NewRow(w, step, run);
      }
    }
    forall run | run in w.runs
      ensures run in RunsAfter(w, step)
    {
      RowAfter(w, step, run);
    }
    hide RunsAfter;
  }

  lemma {:induction false} HonestReadings(w: World, step: Step, s: Sighting)
    requires Honest(w) && s in SeenAfter(w, step) && s.run.Some?
    ensures Of(w, s.run.value, s.release) && (s.phase == Done(true) ==> s.run.value in w.ever)
  {
    ReadingAfter(w, step, s);
    if s !in w.seen {
      WhatIsRead(w, step.release);
    }
    hide SightingOf, SeenAfter;
  }

  lemma {:induction false} HonestReleases(w: World, step: Step, rel: ReleaseId)
    requires Honest(w) && rel in ReleasesAfter(w, step) && ReleasesAfter(w, step)[rel].run.Some?
    ensures Of(w, ReleasesAfter(w, step)[rel].run.value, rel)
  {
    ReleaseAfter(w, step, rel);
    hide ReleasesAfter;
  }

  lemma {:induction false} StepIsHonest(w: World, step: Step)
    requires Honest(w)
    ensures Honest(Apply(w, step))
  {
    hide RunsAfter, ReleasesAfter, RecordedAfter, LaunchingAfter, AskedAfter, OwedAfter, SeenAfter, EverAfter;
    HonestRows(w, step);
    forall run | run in w.runs
      ensures run in RunsAfter(w, step) && RunsAfter(w, step)[run].release == w.runs[run].release
    {
      RowAfter(w, step, run);
    }
    forall run | run in RecordedAfter(w, step) && RecordedAfter(w, step)[run] == Some(true)
      ensures run in EverAfter(w, step)
    {
      RecordAfter(w, step, run);
    }
    forall s | s in SeenAfter(w, step) && s.run.Some?
      ensures Of(w, s.run.value, s.release) && (s.phase == Done(true) ==> s.run.value in w.ever)
    {
      HonestReadings(w, step, s);
    }
    forall rel | rel in ReleasesAfter(w, step) && ReleasesAfter(w, step)[rel].run.Some?
      ensures Of(w, ReleasesAfter(w, step)[rel].run.value, rel)
    {
      HonestReleases(w, step, rel);
    }
  }

  lemma {:induction false} AlwaysHonest(w: World, steps: seq<Step>)
    requires Honest(w)
    ensures Honest(Exec(w, steps))
  {
    if steps != [] {
      AlwaysHonest(w, steps[..|steps| - 1]);
      StepIsHonest(Exec(w, steps[..|steps| - 1]), steps[|steps| - 1]);
    }
  }

  predicate IsDeployed(w: World, release: ReleaseId) {
    release in w.releases && w.releases[release].status.Deployed?
  }

  lemma {:induction false} OneStepDeploys(w: World, step: Step, release: ReleaseId) returns (run: RunId)
    requires Honest(w) && !IsDeployed(w, release) && IsDeployed(Apply(w, step), release)
    ensures Succeeded(w, release, run)
  {
    hide RunsAfter, RecordedAfter, LaunchingAfter, AskedAfter, OwedAfter, SeenAfter, EverAfter, Old;
    match step
    case PipelineSettle(r) => run := r;
    case Act(s, live) => run := s.run.value;
  }

  lemma {:induction false} HistoryIsKept(w: World, step: Step, run: RunId)
    ensures run in w.runs ==> run in Apply(w, step).runs && Apply(w, step).runs[run].release == w.runs[run].release
    ensures run in Apply(w, step).ever && run !in w.ever ==> step == Record(run, true)
    ensures run in w.ever ==> run in Apply(w, step).ever
  {
    if run in w.runs {
      RowAfter(w, step, run);
    }
    hide ReleasesAfter, RunsAfter, RecordedAfter, LaunchingAfter, AskedAfter, OwedAfter, SeenAfter;
  }

  lemma {:induction false} RunsKeepTheirRelease(w: World, steps: seq<Step>, run: RunId)
    requires run in w.runs
    ensures run in Exec(w, steps).runs && Exec(w, steps).runs[run].release == w.runs[run].release
  {
    if steps != [] {
      RunsKeepTheirRelease(w, steps[..|steps| - 1], run);
      HistoryIsKept(Exec(w, steps[..|steps| - 1]), steps[|steps| - 1], run);
    }
  }

  /** A success in the history was put there by a pipeline's own record. */
  lemma {:induction false} SuccessWasRecorded(w: World, steps: seq<Step>, run: RunId) returns (k: nat)
    requires run !in w.ever && run in Exec(w, steps).ever
    ensures k < |steps| && steps[k] == Record(run, true)
  {
    var before := steps[..|steps| - 1];
    if run in Exec(w, before).ever {
      k := SuccessWasRecorded(w, before, run);
    } else {
      HistoryIsKept(Exec(w, before), steps[|steps| - 1], run);
      k := |steps| - 1;
    }
  }

  /** A release that became deployed did so after some pipeline of its own recorded
      success. */
  lemma {:induction false} DeployedOnlyAfterSuccess(w: World, steps: seq<Step>, release: ReleaseId)
    returns (k: nat, run: RunId)
    requires Honest(w) && forall r :: !Succeeded(w, release, r)
    requires !IsDeployed(w, release) && IsDeployed(Exec(w, steps), release)
    ensures k < |steps| && steps[k] == Record(run, true)
    ensures Succeeded(Exec(w, steps), release, run)
  {
    var before := steps[..|steps| - 1];
    var last := steps[|steps| - 1];
    if IsDeployed(Exec(w, before), release) {
      k, run := DeployedOnlyAfterSuccess(w, before, release);
      HistoryIsKept(Exec(w, before), last, run);
    } else {
      AlwaysHonest(w, before);
      run := OneStepDeploys(Exec(w, before), last, release);
      HistoryIsKept(Exec(w, before), last, run);
      if run in w.ever {
        RunsKeepTheirRelease(w, before, run);
        assert Succeeded(w, release, run);
      }
      k := SuccessWasRecorded(w, before, run);
    }
  }

  // ---- on whose word ------------------------------------------------------

  /** The run a settling step speaks for. */
  function Word(step: Step): Option<RunId> {
    match step
    case PipelineSettle(run) => Some(run)
    case SettleOwed(run) => Some(run)
    case Act(s, _) => s.run
    case _ => None
  }

  /** A settle of the release is there to be made by the step: by a pipeline that has
      recorded its end, by a reaper or a cancel that owes one, or by a sweep acting on a
      reading that does not tell it to leave the release alone. */
  predicate Reaches(w: World, step: Step, release: ReleaseId) {
    match step
    case PipelineSettle(run) => run in w.recorded && w.recorded[run].Some? && Of(w, run, release)
    case SettleOwed(run) => run in w.owed && Of(w, run, release)
    case Act(s, live) => s in w.seen && s.release == release && !VerdictIn(s, live).LeaveAlone?
    case _ => false
  }

  predicate Moves(w: World, step: Step, release: ReleaseId)
    requires release in w.releases
  {
    release in Apply(w, step).releases && Apply(w, step).releases[release].status != w.releases[release].status
  }

  /** Pointing and verdicts aside, a step moves a release exactly when the release is
      deploying and the step is a pipeline's settle, an owed settle or a sweep acting on
      what it read. The guard names the status and not the run: the word may be any
      run's of that release, its present one's or not. */
  lemma {:induction false} SettleMovesIff(w: World, step: Step, release: ReleaseId)
    requires release in w.releases && !Reopens(step, release)
    ensures Moves(w, step, release) <==> w.releases[release].status.Deploying? && Reaches(w, step, release)
    ensures release in Apply(w, step).releases && Apply(w, step).releases[release].run == w.releases[release].run
  {
    hide RunsAfter, RecordedAfter, LaunchingAfter, AskedAfter, OwedAfter, SeenAfter, EverAfter, VerdictIn;
  }

  /** Nobody will speak for the run again. */
  predicate DoneWith(w: World, r: RunId) {
    r in w.runs && r !in w.recorded && r !in w.asked && r !in w.owed && w.runs[r].phase.Done?
  }

  /** The release is its present run's alone: no other run of it is in flight, unfinished,
      being cancelled or owed a settle, and no sweep holds a reading it will act on of
      any other. */
  ghost predicate ItsOwn(w: World, release: ReleaseId, run: RunId) {
    (forall r :: Of(w, r, release) && r != run ==> DoneWith(w, r)) &&
    forall s :: s in w.seen && s.release == release && s.run != Some(run) ==>
      VerdictIn(s, false).LeaveAlone?
  }

  predicate PointsAt(w: World, release: ReleaseId, run: RunId) {
    release in w.releases && w.releases[release].run == Some(run) && Of(w, run, release)
  }

  /** Launched again: a run of the release is created, or the release pointed at one. */
  predicate Relaunches(step: Step, release: ReleaseId) {
    (step.Create? || step.Point?) && step.release == release
  }

  lemma {:induction false} NoPipelineAgain(w: World, step: Step, r: RunId)
    requires DoneWith(w, r)
    ensures r !in RecordedAfter(w, step)
  {
  }

  lemma {:induction false} NoCancelAgain(w: World, step: Step, r: RunId)
    requires DoneWith(w, r)
    ensures r !in AskedAfter(w, step)
  {
  }

  lemma {:induction false} NoSettleOwedAgain(w: World, step: Step, r: RunId)
    requires DoneWith(w, r)
    ensures r !in OwedAfter(w, step)
  {
  }

  lemma {:induction false} DoneStaysDone(w: World, step: Step, r: RunId)
    requires DoneWith(w, r)
    ensures r in RunsAfter(w, step) && RunsAfter(w, step)[r] == w.runs[r]
  {
    hide VerdictIn;
  }

  /** Another run of the release, finished and done with, stays so. */
  lemma {:induction false} DoneWithStays(w: World, step: Step, release: ReleaseId, run: RunId, r: RunId)
    requires ItsOwn(w, release, run) && !Relaunches(step, release)
    requires r != run && Of(Apply(w, step), r, release)
    ensures DoneWith(Apply(w, step), r)
  {
    if r in w.runs {
      RowAfter(w, step, r);
      assert Of(w, r, release);
      NoPipelineAgain(w, step, r);
      NoCancelAgain(w, step, r);
      NoSettleOwedAgain(w, step, r);
      DoneStaysDone(w, step, r);
    } else {
      NewRow(w, step, r);
    }
    hide RunsAfter, ReleasesAfter, RecordedAfter, LaunchingAfter, AskedAfter, OwedAfter, SeenAfter, EverAfter,
         VerdictIn;
  }

  lemma {:induction false} ReadingsStay(w: World, step: Step, release: ReleaseId, run: RunId, s: Sighting)
    requires PointsAt(w, release, run) && ItsOwn(w, release, run)
    requires s in Apply(w, step).seen && s.release == release && s.run != Some(run)
    ensures VerdictIn(s, false).LeaveAlone?
  {
    hide ReleasesAfter, RunsAfter, RecordedAfter, LaunchingAfter, AskedAfter, OwedAfter, EverAfter, VerdictIn;
  }

  lemma {:induction false} StepKeepsItOwn(w: World, step: Step, release: ReleaseId, run: RunId)
    requires PointsAt(w, release, run) && ItsOwn(w, release, run) && !Relaunches(step, release)
    ensures PointsAt(Apply(w, step), release, run) && ItsOwn(Apply(w, step), release, run)
  {
    var t := Apply(w, step);
    RowAfter(w, step, run);
    ReleaseStays(w, step, release);
    forall r | Of(t, r, release) && r != run
      ensures DoneWith(t, r)
    {
      DoneWithStays(w, step, release, run, r);
    }
    forall s | s in t.seen && s.release == release && s.run != Some(run)
      ensures VerdictIn(s, false).LeaveAlone?
    {
      ReadingsStay(w, step, release, run, s);
    }
    hide ReleasesAfter, RunsAfter, RecordedAfter, LaunchingAfter, AskedAfter, OwedAfter, SeenAfter, EverAfter,
         VerdictIn;
  }

  lemma {:induction false} ReleaseStays(w: World, step: Step, release: ReleaseId)
    requires release in w.releases && !(step.Point? && step.release == release)
    ensures release in ReleasesAfter(w, step) && ReleasesAfter(w, step)[release].run == w.releases[release].run
  {
    hide SettleMade;
  }

  lemma {:induction false} LiveChangesNothingDone(s: Sighting, live: bool)
    requires VerdictIn(s, false).LeaveAlone?
    ensures VerdictIn(s, live).LeaveAlone?
  {
  }

  /** Whenever a settle moves the release, it does so on the run's word. */
  ghost predicate OwnWordAlong(w: World, steps: seq<Step>, release: ReleaseId, run: RunId) {
    forall k :: 0 <= k < |steps| && !Reopens(steps[k], release) ==>
      var v := Exec(w, steps[..k]);
      release in v.releases && (Moves(v, steps[k], release) ==> Word(steps[k]) == Some(run))
  }

  ghost predicate NoRelaunch(steps: seq<Step>, release: ReleaseId) {
    forall k :: 0 <= k < |steps| ==> !Relaunches(steps[k], release)
  }

  lemma {:induction false} StaysItsOwn(w: World, steps: seq<Step>, release: ReleaseId, run: RunId)
    requires PointsAt(w, release, run) && ItsOwn(w, release, run) && NoRelaunch(steps, release)
    ensures PointsAt(Exec(w, steps), release, run) && ItsOwn(Exec(w, steps), release, run)
  {
    hide Apply, PointsAt, ItsOwn;
    if steps != [] {
      var before, last := Exec(w, steps[..|steps| - 1]), steps[|steps| - 1];
      StaysItsOwn(w, steps[..|steps| - 1], release, run);
      assert !Relaunches(last, release);
      StepKeepsItOwn(before, last, release, run);
    }
  }

  lemma {:induction false} ItsOwnMeansOwnWord(w: World, steps: seq<Step>, release: ReleaseId, run: RunId)
    requires PointsAt(w, release, run) && ItsOwn(w, release, run) && NoRelaunch(steps, release)
    ensures OwnWordAlong(w, steps, release, run)
  {
    hide Apply, Exec, VerdictIn;
    forall k | 0 <= k < |steps| && !Reopens(steps[k], release)
      ensures release in Exec(w, steps[..k]).releases
      ensures Moves(Exec(w, steps[..k]), steps[k], release) ==> Word(steps[k]) == Some(run)
    {
      var v := Exec(w, steps[..k]);
      StaysItsOwn(w, steps[..k], release, run);
      SettleMovesIff(v, steps[k], release);
      if steps[k].Act? && steps[k].sighting in v.seen && steps[k].sighting.release == release &&
         steps[k].sighting.run != Some(run) {
        LiveChangesNothingDone(steps[k].sighting, steps[k].live);
      }
    }
  }

  /** Anything else at hand can still move the release: here is how. */
  lemma {:induction false} OtherWordIsPossible(w: World, release: ReleaseId, run: RunId) returns (steps: seq<Step>)
    requires PointsAt(w, release, run) && w.releases[release].status.Deploying? && !ItsOwn(w, release, run)
    ensures NoRelaunch(steps, release) && !OwnWordAlong(w, steps, release, run)
  {
    if s :| s in w.seen && s.release == release && s.run != Some(run) && !VerdictIn(s, false).LeaveAlone? {
      steps := ReadingSettles(w, release, run, s);
    } else {
      assert exists r :: Of(w, r, release) && r != run && !DoneWith(w, r);
      hide *;
      var r :| Of(w, r, release) && r != run && !DoneWith(w, r);
      steps := AnothersSettle(w, release, run, r);
    }
  }

  lemma {:induction false} ReadingSettles(w: World, release: ReleaseId, run: RunId, s: Sighting)
    returns (steps: seq<Step>)
    requires PointsAt(w, release, run) && w.releases[release].status.Deploying?
    requires s in w.seen && s.release == release && s.run != Some(run) && !VerdictIn(s, false).LeaveAlone?
    ensures NoRelaunch(steps, release) && !OwnWordAlong(w, steps, release, run)
  {
    hide VerdictIn;
    steps := [Act(s, false)];
    LastWordIsAnothers(w, w, [], Act(s, false), release, run);
  }

  lemma {:induction false} AnothersSettle(w: World, release: ReleaseId, run: RunId, r: RunId) returns (steps: seq<Step>)
    requires PointsAt(w, release, run) && w.releases[release].status.Deploying? && Of(w, r, release) && r != run
    requires !DoneWith(w, r)
    ensures NoRelaunch(steps, release) && !OwnWordAlong(w, steps, release, run)
  {
    hide OwnWordAlong, VerdictIn;
    if r in w.owed {
      steps := [] + [SettleOwed(r)];
      LastWordIsAnothers(w, w, [], SettleOwed(r), release, run);
    } else {
      var first := if r in w.recorded then Record(r, true) else if r in w.asked then CancelFlip(r) else ReapRow(r);
      var second := if r in w.recorded then PipelineSettle(r) else SettleOwed(r);
      OneStep(w, first);
      SecondReaches(w, release, r, first, second);
      steps := [first] + [second];
      hide Apply, DoneWith;
      LastWordIsAnothers(w, Apply(w, first), [first], second, release, run);
    }
  }

  lemma {:induction false} SecondReaches(w: World, release: ReleaseId, r: RunId, first: Step, second: Step)
    requires release in w.releases && Of(w, r, release)
    requires (first == Record(r, true) && second == PipelineSettle(r) && r in w.recorded) ||
             (first == CancelFlip(r) && second == SettleOwed(r) && r in w.asked) ||
             (first == ReapRow(r) && second == SettleOwed(r) && Active(w, r))
    ensures Reaches(Apply(w, first), second, release)
    ensures Apply(w, first).releases == w.releases
  {
    RowAfter(w, first, r);
    hide RunsAfter, LaunchingAfter, SeenAfter, EverAfter, VerdictIn;
  }

  lemma {:induction false} OneStep(w: World, step: Step)
    ensures Exec(w, [step]) == Apply(w, step)
  {
    assert [step][..0] == [] && Exec(w, []) == w;
    hide Apply;
  }

  lemma {:induction false} LastWordIsAnothers(w: World, v: World, before: seq<Step>, last: Step,
      release: ReleaseId, run: RunId)
    requires v == Exec(w, before) && release in v.releases && v.releases[release].status.Deploying?
    requires Reaches(v, last, release) && Word(last) != Some(run)
    ensures !OwnWordAlong(w, before + [last], release, run)
  {
    hide Apply, Exec;
    var steps := before + [last];
    SettleMovesIff(v, last, release);
    assert steps[..|before|] == before && steps[|before|] == last && !Reopens(last, release);
  }

  /** A deploying release is settled on its present run's word, whatever happens before
      the next launch, exactly when it is that run's alone to begin with. */
  lemma {:induction false} OwnWordIff(w: World, release: ReleaseId, run: RunId)
    requires PointsAt(w, release, run) && w.releases[release].status.Deploying?
    ensures (forall steps :: NoRelaunch(steps, release) ==> OwnWordAlong(w, steps, release, run)) <==>
            ItsOwn(w, release, run)
  {
    hide PointsAt, ItsOwn, NoRelaunch, OwnWordAlong;
    if ItsOwn(w, release, run) {
      forall steps | NoRelaunch(steps, release)
        ensures OwnWordAlong(w, steps, release, run)
      {
        ItsOwnMeansOwnWord(w, steps, release, run);
      }
    } else {
      var steps := OtherWordIsPossible(w, release, run);
    }
  }

  /** The sweep gives up on a run, a person retries, and the first run's pipeline, alive
      after all, reports: the retry is marked deployed while its own run is only queued. */
  lemma {:induction false} RetryIsSettledByTheFirstRun(w: World, release: ReleaseId, first: RunId, retry: RunId, t: nat)
    requires release in w.releases && w.releases[release] == ReleaseRow(Deploying, Some(first))
    requires first in w.recorded && first in w.runs && w.runs[first].phase.Working?
    requires w.runs[first].release == Some(release) && retry !in w.runs
    requires Old(w.now - w.runs[first].createdAt, w.runs[first].timeoutMinutes)
    ensures var swept := Apply(Apply(w, Look(release)), Act(SightingOf(w, release), false));
            var retried := Apply(Apply(swept, Create(release, retry, t)), Point(release, retry));
            var late := Apply(Apply(retried, Record(first, true)), PipelineSettle(first));
            Settled(swept, release) && retry in late.runs && release in late.releases &&
            late.releases[release] == ReleaseRow(Deployed, Some(retry)) && late.runs[retry].phase.Queued?
  {
    var seen := Apply(w, Look(release));
    var s := SightingOf(w, release);
    GivenUp(w, release, first);
    var swept := Apply(seen, Act(s, false));
    PointedAgain(swept, release, first, retry, t);
    hide Apply;
  }

  lemma {:induction false} GivenUp(w: World, release: ReleaseId, first: RunId)
    requires release in w.releases && w.releases[release] == ReleaseRow(Deploying, Some(first))
    requires first in w.recorded && Of(w, first, release) && w.runs[first].phase.Working?
    requires Old(w.now - w.runs[first].createdAt, w.runs[first].timeoutMinutes)
    ensures var swept := Apply(Apply(w, Look(release)), Act(SightingOf(w, release), false));
            Settled(swept, release) && first in swept.recorded && Of(swept, first, release) &&
            swept.runs.Keys == w.runs.Keys
  {
    Looked(w, release);
    ActedOn(Apply(w, Look(release)), SightingOf(w, release), first);
    hide Apply, Old;
  }

  lemma {:induction false} Looked(w: World, release: ReleaseId)
    requires release in w.releases && w.releases[release].status.Deploying?
    ensures var t := Apply(w, Look(release));
            t.runs == w.runs && t.releases == w.releases && t.recorded == w.recorded && SightingOf(w, release) in t.seen
  {
    hide SightingOf, LaunchingAfter, AskedAfter, OwedAfter, EverAfter;
  }

  lemma {:induction false} ActedOn(w: World, s: Sighting, first: RunId)
    requires s in w.seen && s.run == Some(first) && VerdictIn(s, false).FailRunToo?
    requires s.release in w.releases && w.releases[s.release].status.Deploying?
    requires first in w.recorded && Of(w, first, s.release)
    ensures var t := Apply(w, Act(s, false));
            Settled(t, s.release) && first in t.recorded && Of(t, first, s.release) && t.runs.Keys == w.runs.Keys
  {
    RowAfter(w, Act(s, false), first);
    hide LaunchingAfter, AskedAfter, OwedAfter, SeenAfter, EverAfter, VerdictIn;
  }

  lemma {:induction false} PointedAgain(w: World, release: ReleaseId, first: RunId, retry: RunId, t: nat)
    requires Settled(w, release) && first in w.recorded && Of(w, first, release) && retry !in w.runs
    ensures var retried := Apply(Apply(w, Create(release, retry, t)), Point(release, retry));
            var late := Apply(Apply(retried, Record(first, true)), PipelineSettle(first));
            retry in late.runs && release in late.releases &&
            late.releases[release] == ReleaseRow(Deployed, Some(retry)) && late.runs[retry].phase.Queued?
  {
    hide AskedAfter, OwedAfter, SeenAfter, EverAfter, VerdictIn;
    var created := Apply(w, Create(release, retry, t));
    assert retry in created.launching && first in created.recorded && created.releases == w.releases;
    assert retry in created.runs && created.runs[retry].phase.Queued? && Of(created, first, release);
    var retried := Apply(created, Point(release, retry));
    assert retried.releases[release] == ReleaseRow(Deploying, Some(retry)) && retried.runs == created.runs;
    assert retried.recorded == created.recorded;
    var told := Apply(retried, Record(first, true));
    assert told.recorded[first] == Some(true) && Of(told, first, release) && told.releases == retried.releases;
    assert retry in told.runs && told.runs[retry].phase.Queued?;
  }

  // ---- the stranded sweep -------------------------------------------------

  /** What one sweep reads. `live`: the pipelines alive in this process. */
  datatype Books = Books(now: Time, releases: map<ReleaseId, Release>, runs: map<RunId, DeployRun>, live: set<RunId>)

  /** A release's deploy run belongs to that release. */
  ghost predicate Matched(b: Books) {
    forall rel :: rel in b.releases && b.releases[rel].run.Some? && b.releases[rel].run.value in b.runs ==>
      b.runs[b.releases[rel].run.value].release == Some(rel)
  }

  /** The release's run is under way, and alive here or still young. */
  predicate InHand(b: Books, release: Release) {
    release.run.Some? && release.run.value in b.runs &&
    var r := b.runs[release.run.value];
    Unfinished(r.phase) && (release.run.value in b.live || !Old(b.now - r.createdAt, r.timeoutMinutes))
  }

  ghost predicate NoneStranded(b: Books) {
    forall rel :: rel in b.releases && b.releases[rel].status.Deploying? ==> InHand(b, b.releases[rel])
  }

  function VerdictOn(b: Books, release: Release): Verdict {
    if release.run.Some? && release.run.value in b.runs then
      var r := b.runs[release.run.value];
      Judge(release.run, r.phase, b.now - r.createdAt, r.timeoutMinutes, release.run.value in b.live)
    else Judge(None, Phase.Queued, 0, 0, false)
  }

  /** The release after a sweep. */
  function SweptRelease(b: Books, release: Release): Release {
    if !release.status.Deploying? then release
    else match VerdictOn(b, release)
      case LeaveAlone => release
      case LandDeployed => release.(status := Deployed)
      case _ => release.(status := DeployFailed)
  }

  predicate Lost(b: Books, release: Release) {
    release.status.Deploying? && VerdictOn(b, release).FailRunToo?
  }

  /** The run row after a sweep: failed exactly when the release it deploys lost it. */
  function SweptRun(b: Books, id: RunId): DeployRun
    requires id in b.runs
  {
    var run := b.runs[id];
    if run.release.Some? && run.release.value in b.releases && b.releases[run.release.value].run == Some(id) &&
       Lost(b, b.releases[run.release.value])
    then run.(phase := Done(false))
    else run
  }

  function Swept(b: Books): Books {
    b.(releases := map rel | rel in b.releases :: SweptRelease(b, b.releases[rel]),
       runs := map id | id in b.runs :: SweptRun(b, id))
  }

  /** After a sweep the releases still deploying are those with a run in hand, the ones
      deployed are those whose run succeeded, and no run that is live here was touched. */
  lemma {:induction false} SweepLeavesNoneStranded(b: Books)
    requires Matched(b)
    ensures NoneStranded(Swept(b)) && Matched(Swept(b))
    ensures forall id :: id in b.live && id in b.runs ==> Swept(b).runs[id] == b.runs[id]
    ensures forall rel :: rel in b.releases && b.releases[rel].status.Deploying? ==>
      (Swept(b).releases[rel].status.Deploying? <==> InHand(b, b.releases[rel])) &&
      (Swept(b).releases[rel].status.Deployed? <==>
       var run := b.releases[rel].run; run.Some? && run.value in b.runs && b.runs[run.value].phase == Done(true))
  {
    forall rel | rel in b.releases && Swept(b).releases[rel].status.Deploying?
      ensures InHand(Swept(b), Swept(b).releases[rel])
    {
      assert b.releases[rel] == Swept(b).releases[rel];
      assert SweptRun(b, b.releases[rel].run.value) == b.runs[b.releases[rel].run.value];
    }
  }

  /** A sweep changes nothing exactly when none was stranded, so an immediate second
      sweep is idle. */
  lemma {:induction false} SweepIsIdleIff(b: Books)
    requires Matched(b)
    ensures Swept(b) == b <==> NoneStranded(b)
    ensures Swept(Swept(b)) == Swept(b)
  {
    if NoneStranded(b) {
      IdleWhenNoneStranded(b);
    }
    SweepLeavesNoneStranded(b);
    IdleWhenNoneStranded(Swept(b));
  }

  lemma {:induction false} IdleWhenNoneStranded(b: Books)
    requires NoneStranded(b)
    ensures Swept(b) == b
  {
    assert Swept(b).releases == b.releases;
    forall id | id in b.runs
      ensures SweptRun(b, id) == b.runs[id]
    {
      hide Old;
    }
    assert Swept(b).runs == b.runs;
  }

  /** The sweep part way: `todo` are the deploying releases still to be looked at. */
  ghost function PartReleases(b: Books, todo: set<ReleaseId>): map<ReleaseId, Release> {
    map rel | rel in b.releases :: if rel in todo then b.releases[rel] else SweptRelease(b, b.releases[rel])
  }

  ghost function PartRuns(b: Books, todo: set<ReleaseId>): map<RunId, DeployRun> {
    map id | id in b.runs ::
      if b.runs[id].release.Some? && b.runs[id].release.value in todo then b.runs[id] else SweptRun(b, id)
  }

  lemma {:induction false} NothingLookedAt(b: Books, todo: set<ReleaseId>)
    requires todo == set rel | rel in b.releases && b.releases[rel].status.Deploying?
    ensures PartReleases(b, todo) == b.releases && PartRuns(b, todo) == b.runs
  {
    hide VerdictOn;
  }

  lemma {:induction false} AllLookedAt(b: Books)
    ensures Swept(b) == b.(releases := PartReleases(b, {}), runs := PartRuns(b, {}))
  {
    hide SweptRelease, SweptRun;
  }

  lemma {:induction false} LostHasARun(b: Books, release: Release)
    requires VerdictOn(b, release).FailRunToo?
    ensures release.run.Some? && release.run.value in b.runs && Unfinished(b.runs[release.run.value].phase)
  {
  }

  lemma {:induction false} OneMoreRelease(b: Books, todo: set<ReleaseId>, rel: ReleaseId)
    requires rel in todo && rel in b.releases && b.releases[rel].status.Deploying?
    ensures var verdict := VerdictOn(b, b.releases[rel]);
            var before := PartReleases(b, todo);
            PartReleases(b, todo - {rel}) ==
            if verdict.LeaveAlone? then before else Settle(before, rel, verdict.LandDeployed?)
    ensures VerdictOn(b, b.releases[rel]).LeaveAlone? <==> SweptRelease(b, b.releases[rel]) == b.releases[rel]
    ensures rel in PartReleases(b, todo - {rel})
    ensures PartReleases(b, todo - {rel})[rel] == SweptRelease(b, b.releases[rel])
  {
    hide VerdictOn;
  }

  lemma {:induction false} OneMoreRun(b: Books, todo: set<ReleaseId>, rel: ReleaseId)
    requires Matched(b) && rel in todo && rel in b.releases && b.releases[rel].status.Deploying?
    ensures var release := b.releases[rel];
            PartRuns(b, todo - {rel}) ==
            if Lost(b, release) && release.run.Some? then FailRow(PartRuns(b, todo), release.run.value)
            else PartRuns(b, todo)
  {
    if Lost(b, b.releases[rel]) {
      LostHasARun(b, b.releases[rel]);
    }
    hide VerdictOn;
  }

  class Deployments {
    var now: Time
    var releases: map<ReleaseId, Release>
    var runs: map<RunId, DeployRun>
    /** `_RUNNING`. */
    var live: set<RunId>

    constructor (books: Books)
      ensures Snapshot() == books
    {
      now, releases, runs, live := books.now, books.releases, books.runs, books.live;
    }

    ghost function Snapshot(): Books
      reads this
    {
      Books(now, releases, runs, live)
    }

    /** `settle_stranded_release_deploys` with no other writer meanwhile: one release
        after another, from the rows read at the start. */
    method SettleStranded() returns (settled: set<ReleaseId>)
      requires Matched(Snapshot())
      modifies this`releases, this`runs
      ensures Snapshot() == Swept(old(Snapshot()))
      ensures settled == set rel | rel in old(releases) && releases[rel] != old(releases)[rel]
    {
      var read := Books(now, releases, runs, live);
      var todo := set rel | rel in releases && releases[rel].status.Deploying?;
      settled := {};
      NothingLookedAt(read, todo);
      while todo != {}
        invariant forall rel :: rel in todo ==> rel in read.releases && read.releases[rel].status.Deploying?
        invariant releases == PartReleases(read, todo) && runs == PartRuns(read, todo)
        invariant settled == set rel | rel in read.releases && rel !in todo && releases[rel] != read.releases[rel]
        decreases todo
      {
        hide *;
        var rel :| rel in todo;
        var row := read.releases[rel];
        var verdict := VerdictOn(read, row);
        OneMoreRun(read, todo, rel);
        OneMoreRelease(read, todo, rel);
        if verdict.FailRunToo? {
          LostHasARun(read, row);
          runs := FailRow(runs, row.run.value);
        }
        if !verdict.LeaveAlone? {
          releases := Settle(releases, rel, verdict.LandDeployed?);
          settled := settled + {rel};
        }
        todo := todo - {rel};
      }
      AllLookedAt(read);
    }
  }
}

/** Leases, beats and the two sweeps: a beating worker is never swept, and after a
    sweep nothing it should have taken is left. */
module Leases {
  import opened Runs
  import opened Steps
  import opened Lifecycle

  const GRACE: Time := 2 * MINUTE

  /** Both allowances of a worker are at least two minutes. */
  predicate Generous(env: Env, w: WorkerId) {
    Lease(env, w) >= GRACE && TotalLease(env, w) >= GRACE
  }

  lemma {:induction false} MoreUnitsMoreTime(a: int, n: nat)
    requires a >= 0 && n >= 1
    ensures a * n >= a
  {
    assert a * n == a + a * (n - 1);
  }

  lemma {:induction false} ClaimLeaseIsGenerous(env: Env, w: WorkerId, id: RunId)
    requires Generous(env, w)
    ensures ClaimLease(env, w, id) >= GRACE
  {
    MoreUnitsMoreTime(Lease(env, w), Units(env, id));
  }

  /** A sign of life that renews the claim. */
  predicate Beats(s: State, step: Step, id: RunId, w: WorkerId) {
    (step == Claim(id, w) && Claimable(s, id, w)) ||
    (step == Resume(id, w) && Resumable(s, id, w)) ||
    (step == Extend(id, w) && HeldBy(s, id, w))
  }

  function LastBeat(s: State, steps: seq<Step>, id: RunId, w: WorkerId): Option<Time> {
    if steps == [] then None
    else
      var before := Exec(s, steps[..|steps| - 1]);
      if Beats(before, steps[|steps| - 1], id, w) then Some(before.now)
      else LastBeat(s, steps[..|steps| - 1], id, w)
  }

  lemma {:induction false} BeatRenews(s: State, step: Step, id: RunId, w: WorkerId)
    requires Beats(s, step, id, w) && Generous(s.env, w)
    ensures var t := Apply(s, step);
            HeldBy(t, id, w) && t.runs[id].heartbeatAt == Some(s.now) &&
            t.runs[id].expiresAt.Some? && t.runs[id].expiresAt.value >= s.now + GRACE
  {
    ClaimLeaseIsGenerous(s.env, w, id);
  }

  /** If `w` holds the run after the step, it held it before, on the same clock. */
  predicate Unrenewed(s: State, t: State, id: RunId, w: WorkerId) {
    HeldBy(t, id, w) ==>
      HeldBy(s, id, w) && t.runs[id].heartbeatAt == s.runs[id].heartbeatAt &&
      t.runs[id].expiresAt == s.runs[id].expiresAt
  }

  lemma {:induction false} OnlyBeatsTake(s: State, step: Step, id: RunId, w: WorkerId)
    requires !Beats(s, step, id, w)
    ensures step == Claim(id, w) || step == Resume(id, w) || step == Extend(id, w) ==> Apply(s, step) == s
  {
    hide ClaimLease, Lease, ClaimedIssues;
  }

  lemma {:induction false} OnlyBeatsRenew(s: State, step: Step, id: RunId, w: WorkerId)
    requires AllRowsOk(s) && !Beats(s, step, id, w)
    ensures Unrenewed(s, Apply(s, step), id, w)
  {
    hide Apply, Claimable, Resumable, Arrow, RowOk;
    var t := Apply(s, step);
    if HeldBy(t, id, w) {
      if id in s.runs {
        assert RowOk(s.runs[id]);
        StepsFollowTheDiagram(s, step, id);
        IntoRunning(s, step, id, s.runs[id], t.runs[id]);
        OnlyBeatsTake(s, step, id, w);
      } else {
        NewRunsAreQueued(s, step, id);
      }
    }
  }

  /** The row a beat wrote: its time, and an expiry at least the grace later. */
  lemma {:induction false} HeldSinceLastBeat(s: State, steps: seq<Step>, id: RunId, w: WorkerId)
    requires AllRowsOk(s) && !HeldBy(s, id, w)
    requires forall k: nat | k <= |steps| :: Generous(At(s, steps, k).env, w)
    requires HeldBy(Exec(s, steps), id, w)
    ensures var r := Exec(s, steps).runs[id];
            LastBeat(s, steps, id, w).Some? && r.heartbeatAt == LastBeat(s, steps, id, w) &&
            r.expiresAt.Some? && r.expiresAt.value >= LastBeat(s, steps, id, w).value + GRACE
  {
    var before := steps[..|steps| - 1];
    var step := steps[|steps| - 1];
    forall k: nat | k <= |before| ensures Generous(At(s, before, k).env, w) {
      assert before[..k] == steps[..k];
      assert Generous(At(s, steps, k).env, w);
    }
    assert before[..|before|] == before;
    assert Generous(At(s, before, |before|).env, w);
    if Beats(Exec(s, before), step, id, w) {
      BeatRenews(Exec(s, before), step, id, w);
    } else {
      ShapeAlways(s, before);
      OnlyBeatsRenew(Exec(s, before), step, id, w);
      HeldSinceLastBeat(s, before, id, w);
    }
  }

  /** At this moment the worker's last beat on the run is at most 90 seconds old. */
  ghost predicate BeatIsRecent(s: State, steps: seq<Step>, id: RunId, w: WorkerId) {
    LastBeat(s, steps, id, w).Some? ==> Exec(s, steps).now - LastBeat(s, steps, id, w).value <= HEARTBEAT_STALE
  }

  /** While a worker beats at least every 90 seconds, neither sweep takes its run:
      a sweep of that row, whenever it lands, changes nothing. */
  lemma {:induction false} BeatingWorkerKeepsItsClaim(s: State, steps: seq<Step>, k: nat, id: RunId, w: WorkerId)
    requires AllRowsOk(s) && !HeldBy(s, id, w) && k <= |steps|
    requires forall j: nat | j <= |steps| :: Generous(At(s, steps, j).env, w)
    requires HeldBy(At(s, steps, k), id, w) && BeatIsRecent(s, steps[..k], id, w)
    ensures Apply(At(s, steps, k), StaleRow(id)) == At(s, steps, k)
    ensures Apply(At(s, steps, k), ExpireRow(id)) == At(s, steps, k)
  {
    var past := steps[..k];
    forall j: nat | j <= |past| ensures Generous(At(s, past, j).env, w) {
      assert past[..j] == steps[..j];
      assert Generous(At(s, steps, j).env, w);
    }
    HeldSinceLastBeat(s, past, id, w);
    hide Apply, Exec, LastBeat, Generous;
    FreshRowIsSpared(At(s, steps, k), id);
  }

  lemma {:induction false} FreshRowIsSpared(s: State, id: RunId)
    requires id in s.runs && s.runs[id].heartbeatAt.Some? && s.now - s.runs[id].heartbeatAt.value <= HEARTBEAT_STALE
    requires s.runs[id].expiresAt.Some? && s.runs[id].expiresAt.value >= s.runs[id].heartbeatAt.value + GRACE
    ensures Apply(s, StaleRow(id)) == s && Apply(s, ExpireRow(id)) == s
  {
  }

  /** A beat on a batch claim does not scale with its work: it takes time away from
      the claim exactly when it comes sooner than the extra time the batch was given. */
  lemma {:induction false} BeatShortensBatchClaimIff(s: State, id: RunId, w: WorkerId, elapsed: nat)
    requires Claimable(s, id, w)
    ensures var held := Apply(Apply(s, Claim(id, w)), Tick(elapsed));
            var beaten := Apply(held, Extend(id, w));
            HeldBy(held, id, w) && HeldBy(beaten, id, w) &&
            held.runs[id].expiresAt.Some? && beaten.runs[id].expiresAt.Some? &&
            (beaten.runs[id].expiresAt.value < held.runs[id].expiresAt.value
             <==> elapsed < ClaimLease(s.env, w, id) - Lease(s.env, w))
  {
  }

  // ---- the sweeps ---------------------------------------------------------

  function StaleRows(rows: seq<RunId>): (steps: seq<Step>)
    ensures |steps| == |rows|
  {
    if rows == [] then [] else StaleRows(rows[..|rows| - 1]) + [StaleRow(rows[|rows| - 1])]
  }

  function ExpireRows(rows: seq<RunId>): (steps: seq<Step>)
    ensures |steps| == |rows|
  {
    if rows == [] then [] else ExpireRows(rows[..|rows| - 1]) + [ExpireRow(rows[|rows| - 1])]
  }

  lemma {:induction false} RowStepsAreSweeps(s: State, id: RunId)
    ensures Apply(s, StaleRow(id)) == SweepStale(s, id) && Apply(s, ExpireRow(id)) == SweepExpired(s, id)
  {
    hide SweepStale, SweepExpired;
  }

  lemma {:induction false} StaleRowsNext(s: State, rows: seq<RunId>)
    requires rows != []
    ensures Exec(s, StaleRows(rows)) == SweepStale(Exec(s, StaleRows(rows[..|rows| - 1])), rows[|rows| - 1])
  {
    hide Apply, SweepStale;
    var steps := StaleRows(rows);
    assert steps[..|steps| - 1] == StaleRows(rows[..|rows| - 1]);
    RowStepsAreSweeps(Exec(s, steps[..|steps| - 1]), rows[|rows| - 1]);
  }

  lemma {:induction false} ExpireRowsNext(s: State, rows: seq<RunId>)
    requires rows != []
    ensures Exec(s, ExpireRows(rows)) == SweepExpired(Exec(s, ExpireRows(rows[..|rows| - 1])), rows[|rows| - 1])
  {
    hide Apply, SweepExpired;
    var steps := ExpireRows(rows);
    assert steps[..|steps| - 1] == ExpireRows(rows[..|rows| - 1]);
    RowStepsAreSweeps(Exec(s, steps[..|steps| - 1]), rows[|rows| - 1]);
  }

  lemma {:induction false} NoRowsSwept(s: State)
    ensures Exec(s, StaleRows([])) == s && Exec(s, ExpireRows([])) == s
  {
  }

  predicate SameWorld(s: State, t: State) {
    t.now == s.now && t.env == s.env && t.items == s.items && t.runs.Keys == s.runs.Keys
  }

  lemma {:induction false} StaleRowAlone(s: State, on: RunId)
    ensures SameWorld(s, SweepStale(s, on))
    ensures SweepStale(s, on).runs == if Stale(s, on) then s.runs[on := StaleRowAfter(s.runs[on])] else s.runs
  {
  }

  lemma {:induction false} ExpiryRowAlone(s: State, on: RunId)
    ensures SameWorld(s, SweepExpired(s, on))
    ensures SweepExpired(s, on).runs == if Expired(s, on) then s.runs[on := Requeued(s.runs[on])] else s.runs
  {
  }

  /** A stale sweep in row terms: each listed stale run is parked or requeued, no
      other run is touched. */
  lemma {:induction false} StaleSweepRows(s: State, rows: seq<RunId>)
    ensures SameWorld(s, Exec(s, StaleRows(rows)))
    ensures forall id :: id in s.runs ==>
              Exec(s, StaleRows(rows)).runs[id] ==
                if id in rows && Stale(s, id) then StaleRowAfter(s.runs[id]) else s.runs[id]
  {
    if rows != [] {
      var last := rows[|rows| - 1];
      var fewer := rows[..|rows| - 1];
      StaleSweepRows(s, fewer);
      StaleRowsNext(s, rows);
      var t := Exec(s, StaleRows(fewer));
      assert Stale(t, last) <==> Stale(s, last) && last !in fewer;
      StaleRowAlone(t, last);
      forall id | id in s.runs
        ensures Exec(s, StaleRows(rows)).runs[id] ==
                if id in rows && Stale(s, id) then StaleRowAfter(s.runs[id]) else s.runs[id]
      {
        assert id in rows <==> id in fewer || id == last;
      }
    }
  }

  lemma {:induction false} ExpirySweepRows(s: State, rows: seq<RunId>)
    ensures SameWorld(s, Exec(s, ExpireRows(rows)))
    ensures forall id :: id in s.runs ==>
              Exec(s, ExpireRows(rows)).runs[id] ==
                if id in rows && Expired(s, id) then Requeued(s.runs[id]) else s.runs[id]
  {
    if rows != [] {
      var last := rows[|rows| - 1];
      var fewer := rows[..|rows| - 1];
      ExpirySweepRows(s, fewer);
      ExpireRowsNext(s, rows);
      var t := Exec(s, ExpireRows(fewer));
      assert Expired(t, last) <==> Expired(s, last) && last !in fewer;
      ExpiryRowAlone(t, last);
      forall id | id in s.runs
        ensures Exec(s, ExpireRows(rows)).runs[id] ==
                if id in rows && Expired(s, id) then Requeued(s.runs[id]) else s.runs[id]
      {
        assert id in rows <==> id in fewer || id == last;
      }
    }
  }

  /** One more stale row: the ledger and the issues move as its own sweep moves them. */
  lemma {:induction false} StaleJoins(s: State, rows: seq<RunId>, id: RunId)
    requires id !in rows && Stale(s, id)
    ensures var before := Exec(s, StaleRows(rows));
            var after := Exec(s, StaleRows(rows + [id]));
            var r := s.runs[id];
            after.attempts == (if r.session.Some? then before.attempts
                               else Recorded(before.attempts, r, id, HeartbeatStale)) &&
            after.issues == (if r.session.Some? || !MovesIssues(r.kind) then before.issues
                             else WithStatus(before.issues, Covered(ItemsOf(s, id), r), Waiting))
  {
    StaleSweepRows(s, rows);
    StaleRowsNext(s, rows + [id]);
    assert (rows + [id])[..|rows|] == rows;
    assert Stale(Exec(s, StaleRows(rows)), id);
  }

  lemma {:induction false} ExpiryJoins(s: State, rows: seq<RunId>, id: RunId)
    requires id !in rows && Expired(s, id)
    ensures var before := Exec(s, ExpireRows(rows));
            var after := Exec(s, ExpireRows(rows + [id]));
            var r := s.runs[id];
            after.attempts == Recorded(before.attempts, r, id, LeaseExpired) &&
            after.issues == (if !MovesIssues(r.kind) then before.issues
                             else WithStatus(before.issues, Covered(ItemsOf(s, id), r), Waiting))
  {
    ExpirySweepRows(s, rows);
    ExpireRowsNext(s, rows + [id]);
    assert (rows + [id])[..|rows|] == rows;
    assert Expired(Exec(s, ExpireRows(rows)), id);
  }

  lemma {:induction false} StaleSweepRest(s: State, rows: seq<RunId>)
    ensures Exec(s, StaleRows(rows)).pausing == s.pausing && Exec(s, StaleRows(rows)).gone == s.gone
  {
    if rows != [] {
      StaleSweepRest(s, rows[..|rows| - 1]);
      StaleRowsNext(s, rows);
    }
  }

  lemma {:induction false} ExpirySweepRest(s: State, rows: seq<RunId>)
    ensures Exec(s, ExpireRows(rows)).pausing == s.pausing && Exec(s, ExpireRows(rows)).gone == s.gone
  {
    if rows != [] {
      ExpirySweepRest(s, rows[..|rows| - 1]);
      ExpireRowsNext(s, rows);
    }
  }

  /** `requeue_expired_claims`: the stale sweep, then the expiry sweep. */
  function FullSweep(s: State, stale: seq<RunId>, expired: seq<RunId>): State {
    Exec(Exec(s, StaleRows(stale)), ExpireRows(expired))
  }

  ghost predicate Quiet(s: State) {
    forall id :: id in s.runs ==> !Stale(s, id) && !Expired(s, id)
  }

  /** Having seen every row it should, a sweep leaves nothing stale and nothing expired. */
  lemma {:induction false} SweepLeavesNothing(s: State, stale: seq<RunId>, expired: seq<RunId>)
    requires forall id :: id in s.runs && Stale(s, id) ==> id in stale
    requires forall id :: id in s.runs && Expired(Exec(s, StaleRows(stale)), id) ==> id in expired
    ensures Quiet(FullSweep(s, stale, expired))
  {
    StaleSweepRows(s, stale);
    var mid := Exec(s, StaleRows(stale));
    ExpirySweepRows(mid, expired);
    var t := FullSweep(s, stale, expired);
    forall id | id in t.runs ensures !Stale(t, id) && !Expired(t, id) {
      assert Expired(mid, id) ==> id in expired;
    }
  }

  /** Pushed runs, fresh runs and runs nobody holds come through a sweep untouched. */
  lemma {:induction false} SweepSparesTheRest(s: State, stale: seq<RunId>, expired: seq<RunId>, id: RunId)
    requires id in s.runs
    requires var r := s.runs[id];
             r.pushed != None || r.status != RunStatus.Running || r.worker == None ||
             (r.heartbeatAt.Some? && r.heartbeatAt.value >= s.now - 90_000_000 &&
              r.expiresAt.Some? && r.expiresAt.value >= s.now)
    ensures id in FullSweep(s, stale, expired).runs && FullSweep(s, stale, expired).runs[id] == s.runs[id]
  {
    StaleSweepRows(s, stale);
    ExpirySweepRows(Exec(s, StaleRows(stale)), expired);
  }

  /** Sweeping again at the same moment changes nothing at all. */
  lemma {:induction false} QuietSweepIsIdle(s: State, stale: seq<RunId>, expired: seq<RunId>)
    requires Quiet(s)
    ensures FullSweep(s, stale, expired) == s
    decreases |stale| + |expired|
  {
    if stale != [] {
      StaleRowsNext(s, stale);
      QuietSweepIsIdle(s, stale[..|stale| - 1], []);
      QuietSweepIsIdle(s, [], expired);
      assert Exec(s, StaleRows(stale)) == SweepStale(s, stale[|stale| - 1]);
    } else if expired != [] {
      ExpireRowsNext(s, expired);
      QuietSweepIsIdle(s, [], expired[..|expired| - 1]);
    }
  }
}

/** Reports from deployed apps: the sliding-window rate limit and the deduplicating
    inbox of app_issues.py. */
module Intake {
  import opened Runs

  type DeploymentId = nat
  /** A row's id is its place in the table. */
  type RowId = nat

  const RATE_LIMIT: nat := 120
  const RATE_WINDOW: Time := 60 * SECOND

  datatype InboxStatus = New | Triaged | Promoted | Ignored

  /** A user report carries no fingerprint. */
  datatype AppIssue = AppIssue(
    deployment: DeploymentId,
    fingerprint: Option<string>,
    status: InboxStatus,
    occurrences: nat
  )

  /** `fingerprint` is None for a user report; `wiring` marks the setup check. */
  datatype Report = Report(fingerprint: Option<string>, wiring: bool)

  /** A report that was let in. */
  datatype Entry = Entry(at: Time, fingerprint: Option<string>)

  // ---- the rate limit, by its meaning -------------------------------------

  /** How many were let in from `lo` to `hi`, both ends included. */
  function Count(history: seq<Entry>, lo: Time, hi: Time): nat {
    if history == [] then 0
    else Count(history[..|history| - 1], lo, hi) + if lo <= history[|history| - 1].at <= hi then 1 else 0
  }

  predicate Admits(history: seq<Entry>, now: Time) {
    Count(history, now - RATE_WINDOW, now) < RATE_LIMIT
  }

  predicate Ordered(history: seq<Entry>) {
    forall i, j :: 0 <= i < j < |history| ==> history[i].at <= history[j].at
  }

  /** Nothing later than `now`. */
  predicate Until(history: seq<Entry>, now: Time) {
    forall k :: 0 <= k < |history| ==> history[k].at <= now
  }

  ghost predicate NoBurst(history: seq<Entry>) {
    forall lo, hi :: hi == lo + 60_000_000 ==> Count(history, lo, hi) <= 120
  }

  lemma {:induction false} NarrowerCountsFewer(history: seq<Entry>, lo: Time, hi: Time, lo': Time, hi': Time)
    requires lo <= lo' && Until(history, hi)
    ensures Count(history, lo', hi') <= Count(history, lo, hi)
  {
    if history != [] {
      NarrowerCountsFewer(history[..|history| - 1], lo, hi, lo', hi');
    }
  }

  lemma {:induction false} AdmittingKeepsNoBurst(history: seq<Entry>, entry: Entry)
    requires NoBurst(history) && Until(history, entry.at) && Admits(history, entry.at)
    ensures NoBurst(history + [entry])
  {
    var more := history + [entry];
    assert more[..|more| - 1] == history;
    forall lo, hi | hi == lo + 60_000_000
      ensures Count(more, lo, hi) <= 120
    {
      if lo <= entry.at <= hi {
        NarrowerCountsFewer(history, entry.at - RATE_WINDOW, entry.at, lo, hi);
      }
    }
  }

  lemma {:induction false} CountOfTail(history: seq<Entry>, k: nat, lo: Time, hi: Time)
    requires k <= |history| && Until(history, hi)
    requires forall i :: 0 <= i < k ==> history[i].at < lo
    requires forall i :: k <= i < |history| ==> history[i].at >= lo
    ensures Count(history, lo, hi) == |history| - k
  {
    if history != [] {
      CountOfTail(history[..|history| - 1], if k == |history| then k - 1 else k, lo, hi);
    }
  }

  // ---- the inbox ----------------------------------------------------------

  predicate Open(row: AppIssue) {
    row.fingerprint.Some? && (row.status.New? || row.status.Triaged?)
  }

  /** The partial unique index. */
  ghost predicate OneOpenEach(rows: seq<AppIssue>) {
    forall i, j :: 0 <= i < j < |rows| && Open(rows[i]) && Open(rows[j]) ==>
      (rows[i].deployment, rows[i].fingerprint) != (rows[j].deployment, rows[j].fingerprint)
  }

  /** The open row the report repeats, if there is one. */
  function Repeats(rows: seq<AppIssue>, deployment: DeploymentId, report: Report): (found: Option<RowId>)
    ensures found.Some? ==>
      found.value < |rows| && Open(rows[found.value]) && !report.wiring &&
      rows[found.value].deployment == deployment && rows[found.value].fingerprint == report.fingerprint
    ensures found.None? && report.fingerprint.Some? && !report.wiring ==>
      forall k :: 0 <= k < |rows| && Open(rows[k]) ==>
        rows[k].deployment != deployment || rows[k].fingerprint != report.fingerprint
  {
    if rows == [] || report.wiring then None
    else
      var last := rows[|rows| - 1];
      if Open(last) && last.deployment == deployment && last.fingerprint == report.fingerprint then Some(|rows| - 1)
      else Repeats(rows[..|rows| - 1], deployment, report)
  }

  /** `ingest_report` past the rate check. */
  function Filed(rows: seq<AppIssue>, deployment: DeploymentId, report: Report): seq<AppIssue> {
    var found := Repeats(rows, deployment, report);
    if found.Some? then rows[found.value := rows[found.value].(occurrences := rows[found.value].occurrences + 1)]
    else
      var status := if report.fingerprint.Some? && report.wiring then Ignored else New;
      rows + [AppIssue(deployment, report.fingerprint, status, 1)]
  }

  /** A person's triage; the index refuses a second open row. */
  function Retriaged(rows: seq<AppIssue>, id: RowId, status: InboxStatus): seq<AppIssue> {
    if id < |rows| && !(Open(rows[id].(status := status)) && !Open(rows[id]) &&
         exists k :: 0 <= k < |rows| && Open(rows[k]) && rows[k].deployment == rows[id].deployment &&
           rows[k].fingerprint == rows[id].fingerprint)
    then rows[id := rows[id].(status := status)]
    else rows
  }

  /** Occurrences of one deployment's rows with one fingerprint. */
  function Occurrences(rows: seq<AppIssue>, deployment: DeploymentId, fingerprint: Option<string>): nat {
    if rows == [] then 0
    else
      var last := rows[|rows| - 1];
      Occurrences(rows[..|rows| - 1], deployment, fingerprint) +
      if last.deployment == deployment && last.fingerprint == fingerprint then last.occurrences else 0
  }

  function Reports(history: seq<Entry>, fingerprint: Option<string>): nat {
    if history == [] then 0
    else Reports(history[..|history| - 1], fingerprint) +
         if history[|history| - 1].fingerprint == fingerprint then 1 else 0
  }

  // ---- whole runs ---------------------------------------------------------

  datatype Step =
    | Arrive(deployment: DeploymentId, now: Time, report: Report)
    | Retriage(id: RowId, status: InboxStatus)

  datatype Inbox = Inbox(rows: seq<AppIssue>, history: map<DeploymentId, seq<Entry>>)

  function Of(history: map<DeploymentId, seq<Entry>>, deployment: DeploymentId): seq<Entry> {
    if deployment in history then history[deployment] else []
  }

  function Apply(inbox: Inbox, step: Step): Inbox {
    match step
    case Arrive(d, now, report) =>
      if Admits(Of(inbox.history, d), now) then
        Inbox(Filed(inbox.rows, d, report),
              inbox.history[d := Of(inbox.history, d) + [Entry(now, report.fingerprint)]])
      else inbox
    case Retriage(id, status) => inbox.(rows := Retriaged(inbox.rows, id, status))
  }

  function Exec(steps: seq<Step>): Inbox {
    if steps == [] then Inbox([], map[]) else Apply(Exec(steps[..|steps| - 1]), steps[|steps| - 1])
  }

  /** The clock never goes back. */
  predicate Monotonic(steps: seq<Step>) {
    forall i, j :: 0 <= i < j < |steps| && steps[i].Arrive? && steps[j].Arrive? ==> steps[i].now <= steps[j].now
  }

  predicate NotBefore(steps: seq<Step>, now: Time) {
    forall k :: 0 <= k < |steps| && steps[k].Arrive? ==> steps[k].now <= now
  }

  lemma {:induction false} HistoryUntil(steps: seq<Step>, deployment: DeploymentId, now: Time)
    requires NotBefore(steps, now)
    ensures Until(Of(Exec(steps).history, deployment), now)
  {
    if steps != [] {
      HistoryUntil(steps[..|steps| - 1], deployment, now);
    }
  }

  /** However the reports come, no 60 seconds of any deployment hold more than 120 that
      were let in. */
  lemma {:induction false} NoMinuteOverflows(steps: seq<Step>, deployment: DeploymentId)
    requires Monotonic(steps)
    ensures NoBurst(Of(Exec(steps).history, deployment))
  {
    if steps != [] {
      var before, last := steps[..|steps| - 1], steps[|steps| - 1];
      NoMinuteOverflows(before, deployment);
      var history := Of(Exec(before).history, deployment);
      if last.Arrive? && last.deployment == deployment && Admits(history, last.now) {
        HistoryUntil(before, deployment, last.now);
        AdmittingKeepsNoBurst(history, Entry(last.now, last.report.fingerprint));
      }
    }
  }

  lemma {:induction false} OneMore(rows: seq<AppIssue>, i: RowId, d: DeploymentId, fp: Option<string>)
    requires i < |rows|
    ensures Occurrences(rows[i := rows[i].(occurrences := rows[i].occurrences + 1)], d, fp) ==
            Occurrences(rows, d, fp) + if rows[i].deployment == d && rows[i].fingerprint == fp then 1 else 0
  {
    var more := rows[i := rows[i].(occurrences := rows[i].occurrences + 1)];
    if i == |rows| - 1 {
      assert more[..i] == rows[..i];
    } else {
      OneMore(rows[..|rows| - 1], i, d, fp);
      assert more[..|rows| - 1] == rows[..|rows| - 1][i := more[i]];
    }
  }

  lemma {:induction false} TriageCountsTheSame(rows: seq<AppIssue>, i: RowId, status: InboxStatus, d: DeploymentId,
      fp: Option<string>)
    requires i < |rows|
    ensures Occurrences(rows[i := rows[i].(status := status)], d, fp) == Occurrences(rows, d, fp)
  {
    var other := rows[i := rows[i].(status := status)];
    if i == |rows| - 1 {
      assert other[..i] == rows[..i];
    } else {
      TriageCountsTheSame(rows[..|rows| - 1], i, status, d, fp);
      assert other[..|rows| - 1] == rows[..|rows| - 1][i := other[i]];
    }
  }

  lemma {:induction false} FilingCountsOne(rows: seq<AppIssue>, deployment: DeploymentId, report: Report,
      d: DeploymentId, fp: Option<string>)
    ensures Occurrences(Filed(rows, deployment, report), d, fp) ==
            Occurrences(rows, d, fp) + if deployment == d && report.fingerprint == fp then 1 else 0
  {
    var found := Repeats(rows, deployment, report);
    var filed := Filed(rows, deployment, report);
    if found.Some? {
      OneMore(rows, found.value, d, fp);
    } else {
      assert filed[..|filed| - 1] == rows;
    }
  }

  /** Deduplication loses nothing: the occurrence counts under a fingerprint add up to
      the reports let in with it, however the rows are triaged meanwhile. */
  lemma {:induction false} EveryReportIsCounted(steps: seq<Step>, d: DeploymentId, fp: Option<string>)
    ensures Occurrences(Exec(steps).rows, d, fp) == Reports(Of(Exec(steps).history, d), fp)
  {
    if steps != [] {
      var before := steps[..|steps| - 1];
      EveryReportIsCounted(before, d, fp);
      StepCounts(Exec(before), steps[|steps| - 1], d, fp);
      hide Apply, Occurrences, Reports;
    }
  }

  lemma {:induction false} StepCounts(inbox: Inbox, step: Step, d: DeploymentId, fp: Option<string>)
    requires Occurrences(inbox.rows, d, fp) == Reports(Of(inbox.history, d), fp)
    ensures Occurrences(Apply(inbox, step).rows, d, fp) == Reports(Of(Apply(inbox, step).history, d), fp)
  {
    var history := Of(inbox.history, d);
    match step
    case Arrive(deployment, now, report) =>
      FilingCountsOne(inbox.rows, deployment, report, d, fp);
      assert (history + [Entry(now, report.fingerprint)])[..|history|] == history;
      hide Filed, Occurrences, Admits;
    case Retriage(id, status) =>
      if id < |inbox.rows| {
        TriageCountsTheSame(inbox.rows, id, status, d, fp);
      }
      hide Occurrences;
  }

  /** A problem has at most one open row at any time. */
  lemma {:induction false} OneOpenRowEach(steps: seq<Step>)
    ensures OneOpenEach(Exec(steps).rows)
  {
    if steps != [] {
      var before := steps[..|steps| - 1];
      OneOpenRowEach(before);
      match steps[|steps| - 1]
      case Arrive(deployment, now, report) =>
        FilingKeepsOneOpen(Exec(before).rows, deployment, report);
      case Retriage(id, status) =>
    }
  }

  lemma {:induction false} FilingKeepsOneOpen(rows: seq<AppIssue>, deployment: DeploymentId, report: Report)
    requires OneOpenEach(rows)
    ensures OneOpenEach(Filed(rows, deployment, report))
  {
    hide Repeats;
  }

  /** A deployment's row that a new report of the problem is counted on. */
  predicate StillOpen(row: AppIssue, d: DeploymentId, problem: string) {
    row.deployment == d && row.fingerprint == Some(problem) && (row.status == New || row.status == Triaged)
  }

  /** A report of a problem with an open row adds one to that row; any other gets a row
      of its own, in the inbox unless it is the setup check. */
  lemma {:induction false} FilingWrites(rows: seq<AppIssue>, d: DeploymentId, report: Report) returns (k: RowId)
    ensures var filed := Filed(rows, d, report);
            if k < |rows| then
              !report.wiring && report.fingerprint != None && StillOpen(rows[k], d, report.fingerprint.value) &&
              filed == rows[k := rows[k].(occurrences := rows[k].occurrences + 1)]
            else
              (report.wiring || report.fingerprint == None ||
               forall j :: 0 <= j < |rows| ==> !StillOpen(rows[j], d, report.fingerprint.value)) &&
              filed == rows + [AppIssue(d, report.fingerprint,
                                        if report.wiring && report.fingerprint != None then Ignored else New, 1)]
  {
    k := Repeats(rows, d, report).GetOr(|rows|);
  }

  /** A triage lands unless it would open a second row for the problem. */
  lemma {:induction false} RetriageWrites(rows: seq<AppIssue>, id: RowId, status: InboxStatus)
    requires OneOpenEach(rows)
    ensures Retriaged(rows, id, status) ==
            if id < |rows| &&
               (rows[id].fingerprint == None || (status != New && status != Triaged) ||
                forall j :: 0 <= j < |rows| && j != id ==>
                  !StillOpen(rows[j], rows[id].deployment, rows[id].fingerprint.value))
            then rows[id := rows[id].(status := status)]
            else rows
  {
  }

  /** A report is let in exactly when fewer than 120 of its deployment's were in the last
      60 seconds, and then it is filed and remembered; else nothing happens. */
  lemma {:induction false} ArrivalWrites(inbox: Inbox, d: DeploymentId, now: Time, report: Report)
    ensures var t, before := Apply(inbox, Arrive(d, now, report)), Of(inbox.history, d);
            if Count(before, now - 60_000_000, now) < 120 then
              t.rows == Filed(inbox.rows, d, report) &&
              t.history == inbox.history[d := before + [Entry(now, report.fingerprint)]]
            else t == inbox
  {
  }

  // ---- as the program keeps it --------------------------------------------

  /** A bucket is the end of its deployment's history; what was dropped is stale. */
  ghost predicate BucketOk(h: seq<Entry>, bucket: seq<Time>, clock: Time) {
    Ordered(h) && Until(h, clock) && |bucket| <= |h| &&
    (forall k :: 0 <= k < |bucket| ==> bucket[k] == h[|h| - |bucket| + k].at) &&
    forall k :: 0 <= k < |h| - |bucket| ==> clock - h[k].at > RATE_WINDOW
  }

  lemma {:induction false} BucketSizeIsCount(h: seq<Entry>, bucket: seq<Time>, now: Time)
    requires BucketOk(h, bucket, now) && (bucket != [] ==> now - bucket[0] <= RATE_WINDOW)
    ensures Count(h, now - RATE_WINDOW, now) == |bucket|
  {
    CountOfTail(h, |h| - |bucket|, now - RATE_WINDOW, now);
  }

  lemma {:induction false} BucketGrows(h: seq<Entry>, bucket: seq<Time>, entry: Entry)
    requires BucketOk(h, bucket, entry.at)
    ensures BucketOk(h + [entry], bucket + [entry.at], entry.at)
  {
  }

  class Intake {
    /** `_rate_buckets`. */
    var buckets: map<DeploymentId, seq<Time>>
    var rows: seq<AppIssue>
    var clock: Time
    ghost var history: map<DeploymentId, seq<Entry>>

    constructor (now: Time)
      ensures Valid() && Snapshot() == Inbox([], map[]) && clock == now
    {
      buckets, rows, clock, history := map[], [], now, map[];
    }

    ghost function Snapshot(): Inbox
      reads this
    {
      Inbox(rows, history)
    }

    ghost predicate Valid()
      reads this
    {
      forall d :: BucketOk(Of(history, d), Bucket(d), clock)
    }

    function Bucket(d: DeploymentId): seq<Time>
      reads this
    {
      if d in buckets then buckets[d] else []
    }

    /** `_check_rate`: lets the report in exactly when fewer than 120 of the deployment's
        were let in during the last 60 seconds. */
    method CheckRate(d: DeploymentId, now: Time, ghost fingerprint: Option<string>) returns (ok: bool)
      requires Valid() && clock <= now
      modifies this`buckets, this`clock, this`history
      ensures Valid() && clock == now
      ensures ok <==> Admits(Of(old(history), d), now)
      ensures history == if ok then old(history)[d := Of(old(history), d) + [Entry(now, fingerprint)]] else old(history)
    {
      ghost var h := Of(history, d);
      var bucket := Bucket(d);
      assert BucketOk(h, bucket, clock);
      assert forall x :: BucketOk(Of(history, x), Bucket(x), clock) ==> BucketOk(Of(history, x), Bucket(x), now);
      clock := now;
      while bucket != [] && now - bucket[0] > RATE_WINDOW
        invariant BucketOk(h, bucket, now)
        decreases |bucket|
      {
        bucket := bucket[1..];
      }
      BucketSizeIsCount(h, bucket, now);
      hide BucketOk, Count;
      ok := |bucket| < RATE_LIMIT;
      if ok {
        BucketGrows(h, bucket, Entry(now, fingerprint));
        bucket := bucket + [now];
        history := history[d := h + [Entry(now, fingerprint)]];
      }
      buckets := buckets[d := bucket];
      forall x
        ensures BucketOk(Of(history, x), Bucket(x), now)
      {
        assert x != d ==> Of(history, x) == old(Of(history, x)) && Bucket(x) == old(Bucket(x));
      }
    }

    /** `ingest_report`. */
    method IngestReport(d: DeploymentId, now: Time, report: Report) returns (id: Option<RowId>, deduped: bool)
      requires Valid() && clock <= now
      modifies this
      ensures Valid() && clock == now
      ensures Snapshot() == Apply(old(Snapshot()), Arrive(d, now, report))
      ensures id.Some? <==> Admits(Of(old(history), d), now)
      ensures id.Some? ==>
        id.value < |rows| && rows[id.value].deployment == d &&
        rows[id.value].fingerprint == report.fingerprint && (deduped <==> id.value < |old(rows)|)
    {
      id, deduped := None, false;
      var ok := CheckRate(d, now, report.fingerprint);
      if ok {
        id := Repeats(rows, d, report);
        deduped := id.Some?;
        rows := Filed(rows, d, report);
        if !deduped {
          id := Some(|rows| - 1);
        }
      }
    }
  }
}

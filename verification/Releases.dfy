/** Release folders, the `current` link and the run rows of one deployment target:
    flip, prune, roll back, and agree. */
module Releases {
  import opened Runs

  /** A release folder by its name; names sort as their stamps do. */
  type Stamp = nat

  datatype Row = Row(succeeded: bool, path: Option<Stamp>)

  /** `folders` is `ls -1 | sort` of the releases directory. */
  datatype Site = Site(folders: seq<Stamp>, current: Option<Stamp>, rows: map<RunId, Row>)

  /** How far a deploy gets. */
  datatype Course =
    | StoppedEarly                 // preflight, fetch or transfer failed: no folder yet
    | StoppedInFolder              // extraction, the script or the flip failed
    | CutShort(removed: nat)       // ended in the prune, with some folders removed and none reported
    | Interrupted(written: nat)    // ended after the prune, with some pruned names written off
    | Unhealthy(flippedBack: bool) // the health check failed, and the link was put back or not
    | Healthy

  datatype Event =
    | Deploy(run: RunId, stamp: Stamp, keep: nat, course: Course, rollbackRun: RunId)
    | Rollback(run: RunId, to: Stamp)

  // ---- folders ------------------------------------------------------------

  ghost predicate Sorted(folders: seq<Stamp>) {
    forall j, k :: 0 <= j < k < |folders| ==> folders[j] < folders[k]
  }

  ghost predicate Newest(folders: seq<Stamp>, stamp: Stamp) {
    forall k :: 0 <= k < |folders| ==> folders[k] < stamp
  }

  /** `mkdir -p` */
  function WithFolder(folders: seq<Stamp>, d: Stamp): seq<Stamp> {
    if folders == [] then [d]
    else
      var last := folders[|folders| - 1];
      if last < d then folders + [d]
      else if last == d then folders
      else WithFolder(folders[..|folders| - 1], d) + [last]
  }

  /** How many leading names `head -n -keep` prints. */
  function Cut(n: nat, keep: nat): (cut: nat)
    ensures cut <= n && n - cut <= keep
  {
    if n > keep then n - keep else 0
  }

  /** The names of `names` the prune removes: all but the live one. */
  function Doomed(names: seq<Stamp>, live: Stamp): seq<Stamp> {
    if names == [] then []
    else
      var last := names[|names| - 1];
      Doomed(names[..|names| - 1], live) + if last != live then [last] else []
  }

  function Spared(names: seq<Stamp>, live: Stamp): seq<Stamp> {
    if names == [] then []
    else
      var last := names[|names| - 1];
      Spared(names[..|names| - 1], live) + if last == live then [last] else []
  }

  function Survivors(folders: seq<Stamp>, keep: nat, live: Stamp): seq<Stamp> {
    var cut := Cut(|folders|, keep);
    Spared(folders[..cut], live) + folders[cut..]
  }

  function PrunedNames(folders: seq<Stamp>, keep: nat, live: Stamp): seq<Stamp> {
    Doomed(folders[..Cut(|folders|, keep)], live)
  }

  /** A prune that ends after `limit` removals. */
  function ShortPruned(folders: seq<Stamp>, cut: nat, live: Stamp, limit: nat): seq<Stamp>
    decreases |folders|
  {
    if folders == [] || cut == 0 || limit == 0 then folders
    else if folders[0] == live then [live] + ShortPruned(folders[1..], cut - 1, live, limit)
    else ShortPruned(folders[1..], cut - 1, live, limit - 1)
  }

  // ---- rows ---------------------------------------------------------------

  function Forget(rows: map<RunId, Row>, names: seq<Stamp>): map<RunId, Row> {
    map id | id in rows ::
      if rows[id].path.Some? && rows[id].path.value in names then rows[id].(path := None) else rows[id]
  }

  /** `keep_releases or 5` */
  function Kept(keep: nat): (k: nat)
    ensures k >= 1
  {
    if keep == 0 then 5 else keep
  }

  function Flipped(site: Site, run: RunId, stamp: Stamp, keep: nat, written: nat): Site {
    var folders := WithFolder(site.folders, stamp);
    var names := PrunedNames(folders, Kept(keep), stamp);
    Site(Survivors(folders, Kept(keep), stamp), Some(stamp),
         Forget(site.rows[run := Row(false, Some(stamp))], names[..Min(written, |names|)]))
  }

  function AllWritten(site: Site, run: RunId, stamp: Stamp, keep: nat): Site {
    Flipped(site, run, stamp, keep, |PrunedNames(WithFolder(site.folders, stamp), Kept(keep), stamp)|)
  }

  function After(site: Site, event: Event): Site {
    match event
    case Rollback(run, to) =>
      if to in site.folders then site.(current := Some(to), rows := site.rows[run := Row(true, Some(to))])
      else site.(rows := site.rows[run := Row(false, Some(to))])
    case Deploy(run, stamp, keep, course, rollbackRun) =>
      match course
      case StoppedEarly => site.(rows := site.rows[run := Row(false, None)])
      case StoppedInFolder =>
        site.(folders := WithFolder(site.folders, stamp), rows := site.rows[run := Row(false, Some(stamp))])
      case CutShort(removed) =>
        var folders := WithFolder(site.folders, stamp);
        Site(ShortPruned(folders, Cut(|folders|, Kept(keep)), stamp, removed), Some(stamp),
             site.rows[run := Row(false, Some(stamp))])
      case Interrupted(written) => Flipped(site, run, stamp, keep, written)
      case Unhealthy(flippedBack) =>
        var live := AllWritten(site, run, stamp, keep);
        if flippedBack && site.current.Some? then
          live.(current := site.current, rows := live.rows[rollbackRun := Row(true, site.current)])
        else live
      case Healthy =>
        var live := AllWritten(site, run, stamp, keep);
        live.(rows := live.rows[run := Row(true, Some(stamp))])
  }

  // ---- agreement ----------------------------------------------------------

  /** Every succeeded run that still names a release names one that exists. */
  ghost predicate PathsExist(site: Site) {
    RowsExist(site.rows, site.folders)
  }

  predicate CurrentExists(site: Site) {
    site.current.Some? ==> site.current.value in site.folders
  }

  ghost predicate Agrees(site: Site) {
    Sorted(site.folders) && PathsExist(site) && CurrentExists(site)
  }

  lemma {:induction false} SparedIsLive(names: seq<Stamp>, live: Stamp)
    ensures live !in names ==> Spared(names, live) == [] && Doomed(names, live) == names
    ensures forall d :: d in Doomed(names, live) <==> d in names && d != live
  {
    if names != [] {
      SparedIsLive(names[..|names| - 1], live);
      assert names == names[..|names| - 1] + [names[|names| - 1]];
    }
  }

  lemma {:induction false} NewestGoesLast(folders: seq<Stamp>, d: Stamp)
    requires Newest(folders, d)
    ensures WithFolder(folders, d) == folders + [d]
  {
  }

  /** A new folder takes its place in the sorted listing; one that is there stays. */
  lemma {:induction false} FolderJoins(folders: seq<Stamp>, d: Stamp)
    requires Sorted(folders)
    ensures Sorted(WithFolder(folders, d))
    ensures forall name :: name in WithFolder(folders, d) <==> name in folders || name == d
  {
    if folders != [] {
      var n := |folders| - 1;
      FolderJoins(folders[..n], d);
      assert folders == folders[..n] + [folders[n]];
      if folders[n] > d {
        forall k | 0 <= k < |WithFolder(folders[..n], d)|
          ensures WithFolder(folders[..n], d)[k] < folders[n]
        {
          assert WithFolder(folders[..n], d)[k] in WithFolder(folders[..n], d);
        }
      }
    }
  }

  /** A name of the list is on exactly one side of the cut. */
  lemma {:induction false} EitherSide(all: seq<Stamp>, cut: nat, d: Stamp)
    requires Sorted(all) && cut <= |all| && d in all
    ensures d in all[cut..] <==> d !in all[..cut]
  {
    var k :| 0 <= k < |all| && all[k] == d;
    if k < cut {
      assert all[..cut][k] == d;
    } else {
      assert all[cut..][k - cut] == d;
    }
  }

  /** Pruned for the newest folder, the list loses its oldest names and nothing else. */
  lemma {:induction false} PruneKeepsTheNewest(folders: seq<Stamp>, stamp: Stamp, keep: nat)
    requires Sorted(folders) && Newest(folders, stamp) && keep >= 1
    ensures var all := folders + [stamp];
            WithFolder(folders, stamp) == all && Sorted(all) &&
            Survivors(all, keep, stamp) == all[Cut(|all|, keep)..] &&
            PrunedNames(all, keep, stamp) == all[..Cut(|all|, keep)]
  {
    NewestGoesLast(folders, stamp);
    var all := folders + [stamp];
    var cut := Cut(|all|, keep);
    forall d | d in all[..cut] ensures d != stamp {
      var k :| 0 <= k < cut && all[k] == d;
      assert folders[k] == d;
    }
    SparedIsLive(all[..cut], stamp);
  }

  /** After the flip and the prune of the newest release, exactly the newest
      `keep_releases` folders are left and `current` is one of them. */
  lemma {:induction false} FlipAndPrune(site: Site, run: RunId, stamp: Stamp, keep: nat, written: nat)
    requires Sorted(site.folders) && Newest(site.folders, stamp)
    ensures var all := site.folders + [stamp];
            var cut := Cut(|all|, Kept(keep));
            var t := Flipped(site, run, stamp, keep, written);
            Sorted(all) && t.folders == all[cut..] && Sorted(t.folders) && |t.folders| <= Kept(keep) &&
            t.current == Some(stamp) && stamp in t.folders &&
            t.rows == Forget(site.rows[run := Row(false, Some(stamp))], all[..cut][..Min(written, cut)])
  {
    hide Survivors, PrunedNames, WithFolder;
    PruneKeepsTheNewest(site.folders, stamp, Kept(keep));
    var all := site.folders + [stamp];
    var cut := Cut(|all|, Kept(keep));
    assert all[cut..][|all| - 1 - cut] == stamp;
  }

  lemma {:induction false} FlipAndPruneAll(site: Site, run: RunId, stamp: Stamp, keep: nat)
    requires Sorted(site.folders) && Newest(site.folders, stamp)
    ensures var all := site.folders + [stamp];
            var cut := Cut(|all|, Kept(keep));
            var t := AllWritten(site, run, stamp, keep);
            Sorted(all) && t.folders == all[cut..] && Sorted(t.folders) && |t.folders| <= Kept(keep) &&
            t.current == Some(stamp) && stamp in t.folders &&
            t.rows == Forget(site.rows[run := Row(false, Some(stamp))], all[..cut])
  {
    hide Survivors, PrunedNames, WithFolder;
    PruneKeepsTheNewest(site.folders, stamp, Kept(keep));
    var cut := Cut(|site.folders + [stamp]|, Kept(keep));
    FlipAndPrune(site, run, stamp, keep, cut);
    assert (site.folders + [stamp])[..cut][..cut] == (site.folders + [stamp])[..cut];
  }

  /** Every succeeded row that names a release names one in `folders`. */
  ghost predicate RowsExist(rows: map<RunId, Row>, folders: seq<Stamp>) {
    forall id :: id in rows && rows[id].succeeded && rows[id].path.Some? ==> rows[id].path.value in folders
  }

  lemma {:induction false} ForgettingKeepsUp(rows: map<RunId, Row>, all: seq<Stamp>, cut: nat)
    requires Sorted(all) && cut <= |all| && RowsExist(rows, all)
    ensures RowsExist(Forget(rows, all[..cut]), all[cut..])
  {
    var after := Forget(rows, all[..cut]);
    forall id | id in after && after[id].succeeded && after[id].path.Some? ensures after[id].path.value in all[cut..] {
      EitherSide(all, cut, rows[id].path.value);
    }
  }

  lemma {:induction false} RowsJoin(site: Site, run: RunId, stamp: Stamp)
    requires PathsExist(site)
    ensures RowsExist(site.rows[run := Row(false, Some(stamp))], site.folders + [stamp])
  {
  }

  /** The folders left when a release got as far as its prune: those with fewer than
      `keep_releases` newer ones, five if that is not set. */
  ghost predicate OnlyNewestLeft(all: seq<Stamp>, left: seq<Stamp>, keep: nat) {
    forall d :: d in left <==> d in all && NewerThan(all, d) < (if keep > 0 then keep else 5)
  }

  lemma {:induction false} NewestLeft(all: seq<Stamp>, keep: nat)
    requires Sorted(all)
    ensures OnlyNewestLeft(all, all[Cut(|all|, Kept(keep))..], keep)
  {
    var cut := Cut(|all|, Kept(keep));
    forall d
      ensures d in all[cut..] <==> d in all && NewerThan(all, d) < Kept(keep)
    {
      if d in all {
        var k :| 0 <= k < |all| && all[k] == d;
        NewerThanCounts(all, k);
        EitherSide(all, cut, d);
        if k < cut {
          assert all[..cut][k] == d;
        } else {
          assert all[cut..][k - cut] == d;
        }
      }
    }
  }

  lemma {:induction false} ForgetsPathsOnly(rows: map<RunId, Row>, names: seq<Stamp>, id: RunId)
    requires id in rows
    ensures id in Forget(rows, names) && Forget(rows, names)[id].succeeded == rows[id].succeeded
  {
  }

  /** A deploy that ends before its prune is done has not succeeded: `current` moves with
      the flip and no sooner. */
  lemma {:induction false} EarlyEndLeaves(site: Site, event: Event)
    requires event.Deploy? && Newest(site.folders, event.stamp)
    requires event.course.StoppedEarly? || event.course.StoppedInFolder? || event.course.CutShort?
    ensures var t := After(site, event);
            t.rows == site.rows[event.run :=
              Row(false, if event.course.StoppedEarly? then None else Some(event.stamp))] &&
            t.current == (if event.course.CutShort? then Some(event.stamp) else site.current) &&
            (event.course.StoppedEarly? ==> t.folders == site.folders) &&
            (event.course.StoppedInFolder? ==> t.folders == site.folders + [event.stamp])
  {
    NewestGoesLast(site.folders, event.stamp);
    hide ShortPruned, Cut, Kept;
  }

  /** From the prune on only the newest folders are left. The run succeeds only if its
      health check does; else `current` goes back with a rollback, a row of its own. */
  lemma {:induction false} LateEndLeaves(site: Site, event: Event)
    requires event.Deploy? && Sorted(site.folders) && Newest(site.folders, event.stamp)
    requires event.course.Interrupted? || event.course.Unhealthy? || event.course.Healthy?
    requires event.run != event.rollbackRun
    ensures var t := After(site, event);
            var back := event.course == Unhealthy(true) && site.current != None;
            OnlyNewestLeft(site.folders + [event.stamp], t.folders, event.keep) &&
            t.current == (if back then site.current else Some(event.stamp)) &&
            event.run in t.rows && (t.rows[event.run].succeeded <==> event.course.Healthy?) &&
            (back ==> event.rollbackRun in t.rows && t.rows[event.rollbackRun] == Row(true, site.current)) &&
            (event.course.Healthy? ==> t.rows[event.run].path == Some(event.stamp))
  {
    hide *;
    if event.course.Interrupted? {
      FlipLeaves(site, event.run, event.stamp, event.keep, event.course.written);
    } else {
      AllWrittenLeaves(site, event.run, event.stamp, event.keep);
    }
    LateRows(site, event);
  }

  lemma {:induction false} LateRows(site: Site, event: Event)
    requires event.Deploy? && (event.course.Interrupted? || event.course.Unhealthy? || event.course.Healthy?)
    ensures var t := After(site, event);
            var live := if event.course.Interrupted? then
                          Flipped(site, event.run, event.stamp, event.keep, event.course.written)
                        else AllWritten(site, event.run, event.stamp, event.keep);
            var back := event.course == Unhealthy(true) && site.current != None;
            t.folders == live.folders &&
            t.current == (if back then site.current else live.current) &&
            t.rows == (if back then live.rows[event.rollbackRun := Row(true, site.current)]
                       else if event.course.Healthy? then live.rows[event.run := Row(true, Some(event.stamp))]
                       else live.rows)
  {
    hide Flipped, AllWritten;
  }

  lemma {:induction false} FlipLeaves(site: Site, run: RunId, stamp: Stamp, keep: nat, written: nat)
    requires Sorted(site.folders) && Newest(site.folders, stamp)
    ensures var t := Flipped(site, run, stamp, keep, written);
            t.current == Some(stamp) && OnlyNewestLeft(site.folders + [stamp], t.folders, keep) &&
            run in t.rows && !t.rows[run].succeeded
  {
    var all := site.folders + [stamp];
    var cut := Cut(|all|, Kept(keep));
    FlipAndPrune(site, run, stamp, keep, written);
    NewestLeft(all, keep);
    ForgetsPathsOnly(site.rows[run := Row(false, Some(stamp))], all[..cut][..Min(written, cut)], run);
    hide Flipped, Forget, OnlyNewestLeft, Cut, Kept, Sorted, Newest;
  }

  lemma {:induction false} AllWrittenLeaves(site: Site, run: RunId, stamp: Stamp, keep: nat)
    requires Sorted(site.folders) && Newest(site.folders, stamp)
    ensures var t := AllWritten(site, run, stamp, keep);
            t.current == Some(stamp) && OnlyNewestLeft(site.folders + [stamp], t.folders, keep) &&
            run in t.rows && !t.rows[run].succeeded
  {
    FlipLeaves(site, run, stamp, keep, |PrunedNames(WithFolder(site.folders, stamp), Kept(keep), stamp)|);
    hide Flipped;
  }

  /** A rollback to a folder that is there succeeds and moves `current`; to any other it
      fails and moves nothing. No folder comes or goes. */
  lemma {:induction false} RollbackLeaves(site: Site, run: RunId, to: Stamp)
    ensures After(site, Rollback(run, to)) ==
            Site(site.folders, if to in site.folders then Some(to) else site.current,
                 site.rows[run := Row(to in site.folders, Some(to))])
  {
  }

  lemma {:induction false} DoomedHead(names: seq<Stamp>, live: Stamp)
    requires names != []
    ensures Doomed(names, live) == (if names[0] == live then [] else [names[0]]) + Doomed(names[1..], live)
  {
    if |names| > 1 {
      var n := |names| - 1;
      DoomedHead(names[..n], live);
      assert names[1..][..n - 1] == names[..n][1..];
    }
  }

  /** Ended early, a prune has removed the oldest of the names it would have removed. */
  lemma {:induction false} ShortPruneRemoves(folders: seq<Stamp>, cut: nat, live: Stamp, limit: nat, d: Stamp)
    requires Sorted(folders) && cut <= |folders|
    ensures var names := Doomed(folders[..cut], live);
            d in ShortPruned(folders, cut, live, limit) <==> d in folders && d !in names[..Min(limit, |names|)]
    decreases |folders|
  {
    if folders != [] && cut > 0 && limit > 0 {
      var head, rest := folders[0], folders[1..];
      HeadApart(folders, cut);
      DoomedHead(folders[..cut], live);
      SparedIsLive(rest[..cut - 1], live);
      ShortPruneRemoves(rest, cut - 1, live, if head == live then limit else limit - 1, d);
      ShortStep(folders, cut, live, limit);
      var later := Doomed(rest[..cut - 1], live);
      hide *;
      if head == live {
        assert Doomed(folders[..cut], live) == later;
        assert d in later[..Min(limit, |later|)] ==> d in later;
        assert d in folders <==> d == live || d in rest;
        var left := ShortPruned(rest, cut - 1, live, limit);
        assert d in [live] + left <==> d == live || d in left;
      } else {
        assert d in folders <==> d == head || d in rest;
        TakeMore(head, later, limit);
      }
    }
  }

  lemma {:induction false} HeadApart(folders: seq<Stamp>, cut: nat)
    requires Sorted(folders) && 0 < cut <= |folders|
    ensures folders == [folders[0]] + folders[1..] && Sorted(folders[1..]) && folders[0] !in folders[1..]
    ensures folders[..cut][0] == folders[0] && folders[..cut][1..] == folders[1..][..cut - 1]
  {
  }

  lemma {:induction false} ShortStep(folders: seq<Stamp>, cut: nat, live: Stamp, limit: nat)
    requires folders != [] && cut > 0 && limit > 0
    ensures ShortPruned(folders, cut, live, limit) ==
            if folders[0] == live then [live] + ShortPruned(folders[1..], cut - 1, live, limit)
            else ShortPruned(folders[1..], cut - 1, live, limit - 1)
  {
  }

  lemma {:induction false} TakeMore(head: Stamp, later: seq<Stamp>, limit: nat)
    requires limit > 0
    ensures var names := [head] + later;
            names[..Min(limit, |names|)] == [head] + later[..Min(limit - 1, |later|)]
  {
  }

  /** With every pruned name written off, the rows agree with the folders. */
  lemma {:induction false} PruneIsWrittenOff(site: Site, run: RunId, stamp: Stamp, keep: nat)
    requires Agrees(site) && Newest(site.folders, stamp)
    ensures Agrees(AllWritten(site, run, stamp, keep))
  {
    FlipAndPruneAll(site, run, stamp, keep);
    hide AllWritten, Cut, Kept, Forget;
    var all := site.folders + [stamp];
    var rows := site.rows[run := Row(false, Some(stamp))];
    RowsJoin(site, run, stamp);
    hide Sorted, Newest, RowsExist;
    ForgettingKeepsUp(rows, all, Cut(|all|, Kept(keep)));
  }

  function NewerThan(folders: seq<Stamp>, d: Stamp): nat {
    if folders == [] then 0
    else NewerThan(folders[..|folders| - 1], d) + if folders[|folders| - 1] > d then 1 else 0
  }

  lemma {:induction false} NewerThanCounts(folders: seq<Stamp>, k: nat)
    requires Sorted(folders) && k < |folders|
    ensures NewerThan(folders, folders[k]) == |folders| - 1 - k
  {
    var n := |folders| - 1;
    if k < n {
      NewerThanCounts(folders[..n], k);
    } else {
      NoneNewer(folders[..n], folders[k]);
    }
  }

  lemma {:induction false} NoneNewer(folders: seq<Stamp>, d: Stamp)
    requires Newest(folders, d)
    ensures NewerThan(folders, d) == 0
  {
    if folders != [] {
      NoneNewer(folders[..|folders| - 1], d);
    }
  }

  lemma {:induction false} KeptIff(folders: seq<Stamp>, stamp: Stamp, keep: nat, p: Stamp)
    requires Sorted(folders) && Newest(folders, stamp) && keep >= 1 && p in folders
    ensures var all := folders + [stamp];
            p in all[Cut(|all|, keep)..] <==> NewerThan(folders, p) + 1 < keep
  {
    var k :| 0 <= k < |folders| && folders[k] == p;
    NewerThanCounts(folders, k);
    var all := folders + [stamp];
    var cut := Cut(|all|, keep);
    if k >= cut {
      assert all[cut..][k - cut] == p;
    } else {
      assert forall j :: cut <= j < |all| ==> all[j] > p;
    }
  }

  /** The release that was live before a deploy outlives its prune exactly when, the
      new one counted, fewer than `keep_releases` folders are newer. */
  lemma {:induction false} PreviousIsKeptIff(site: Site, run: RunId, stamp: Stamp, keep: nat)
    requires Agrees(site) && Newest(site.folders, stamp) && site.current.Some?
    ensures site.current.value in AllWritten(site, run, stamp, keep).folders <==>
              NewerThan(site.folders, site.current.value) + 1 < Kept(keep)
  {
    FlipAndPruneAll(site, run, stamp, keep);
    hide AllWritten;
    KeptIff(site.folders, stamp, Kept(keep), site.current.value);
  }

  /** An automatic rollback leaves the target in agreement exactly when the release it
      goes back to was kept: the prune runs first, and the link is not checked. */
  lemma {:induction false} AutoRollbackAgreesIff(site: Site, event: Event)
    requires event.Deploy? && event.course == Unhealthy(true) && site.current.Some?
    requires Agrees(site) && Newest(site.folders, event.stamp) && event.rollbackRun != event.run
    ensures Agrees(After(site, event)) <==> NewerThan(site.folders, site.current.value) + 1 < Kept(event.keep)
  {
    PruneIsWrittenOff(site, event.run, event.stamp, event.keep);
    PreviousIsKeptIff(site, event.run, event.stamp, event.keep);
    hide AllWritten, Kept, NewerThan;
  }

  /** Keeping a single release, an automatic rollback always points at nothing. */
  lemma {:induction false} KeepOneRollbackDangles(site: Site, event: Event)
    requires event.Deploy? && event.course == Unhealthy(true) && event.keep == 1 && site.current.Some?
    requires Agrees(site) && Newest(site.folders, event.stamp) && event.rollbackRun != event.run
    ensures !CurrentExists(After(site, event))
  {
    PreviousIsKeptIff(site, event.run, event.stamp, event.keep);
  }

  /** Interrupted between the prune and its bookkeeping, the rows agree exactly when no
      succeeded run names a folder that was pruned and not yet written off. */
  lemma {:induction false} InterruptedAgreesIff(site: Site, event: Event)
    requires event.Deploy? && event.course.Interrupted?
    requires Agrees(site) && Newest(site.folders, event.stamp) && event.run !in site.rows
    ensures var all := site.folders + [event.stamp];
            var pruned := all[..Cut(|all|, Kept(event.keep))];
            Agrees(After(site, event)) <==> NoneNamed(site.rows, pruned[Min(event.course.written, |pruned|)..])
  {
    hide Sorted, Newest, RowsExist, NoneNamed, Flipped, Cut, Kept, Min, Forget;
    FlipAndPrune(site, event.run, event.stamp, event.keep, event.course.written);
    var all := site.folders + [event.stamp];
    var cut := Cut(|all|, Kept(event.keep));
    var rows := site.rows[event.run := Row(false, Some(event.stamp))];
    RowsJoin(site, event.run, event.stamp);
    var m := Min(event.course.written, cut);
    HalfForgottenIff(rows, all, cut, m);
    OneMoreRow(site.rows, event.run, event.stamp, all[..cut][m..]);
  }

  lemma {:induction false} ShortPrunedIs(folders: seq<Stamp>, cut: nat, live: Stamp, limit: nat)
    requires cut <= |folders| && live !in folders[..cut]
    ensures ShortPruned(folders, cut, live, limit) == folders[Min(limit, cut)..]
    decreases |folders|
  {
    if folders != [] && cut > 0 && limit > 0 {
      assert folders[..cut][0] == folders[0];
      assert folders[1..][..cut - 1] == folders[..cut][1..];
      ShortPrunedIs(folders[1..], cut - 1, live, limit - 1);
    }
  }

  lemma {:induction false} CutShortIs(site: Site, event: Event)
    requires event.Deploy? && event.course.CutShort? && Sorted(site.folders) && Newest(site.folders, event.stamp)
    ensures var all := site.folders + [event.stamp];
            var m := Min(event.course.removed, Cut(|all|, Kept(event.keep)));
            m < |all| && Sorted(all) && Sorted(all[m..]) && event.stamp in all[m..] &&
            After(site, event) ==
            Site(all[m..], Some(event.stamp), site.rows[event.run := Row(false, Some(event.stamp))])
  {
    hide ShortPruned, Survivors, PrunedNames, WithFolder, Cut, Kept, Forget, Flipped, AllWritten;
    var all := site.folders + [event.stamp];
    var cut := Cut(|all|, Kept(event.keep));
    PruneKeepsTheNewest(site.folders, event.stamp, Kept(event.keep));
    CutSparesTheLast(all, Kept(event.keep));
    NotAmongTheOlder(site.folders, event.stamp, cut);
    ShortPrunedIs(all, cut, event.stamp, event.course.removed);
    assert all[Min(event.course.removed, cut)..][|all| - 1 - Min(event.course.removed, cut)] == event.stamp;
  }

  lemma {:induction false} CutSparesTheLast(all: seq<Stamp>, keep: nat)
    requires all != [] && keep >= 1
    ensures Cut(|all|, keep) < |all|
  {
  }

  lemma {:induction false} NotAmongTheOlder(folders: seq<Stamp>, stamp: Stamp, cut: nat)
    requires Newest(folders, stamp) && cut <= |folders|
    ensures stamp !in (folders + [stamp])[..cut]
  {
    assert forall k :: 0 <= k < cut ==> (folders + [stamp])[..cut][k] == folders[k];
  }

  /** Ended in the middle of the prune, the rows agree exactly when no succeeded run names
      a folder already removed. */
  lemma {:induction false} CutShortAgreesIff(site: Site, event: Event)
    requires event.Deploy? && event.course.CutShort?
    requires Agrees(site) && Newest(site.folders, event.stamp) && event.run !in site.rows
    ensures var all := site.folders + [event.stamp];
            Agrees(After(site, event)) <==>
            NoneNamed(site.rows, all[..Min(event.course.removed, Cut(|all|, Kept(event.keep)))])
  {
    hide After, Sorted, Newest, RowsExist, NoneNamed, Cut, Kept, Min, Forget;
    CutShortIs(site, event);
    var all := site.folders + [event.stamp];
    var m := Min(event.course.removed, Cut(|all|, Kept(event.keep)));
    var rows := site.rows[event.run := Row(false, Some(event.stamp))];
    RowsJoin(site, event.run, event.stamp);
    HalfForgottenIff(rows, all, m, 0);
    assert all[..m][..0] == [] && all[..m][0..] == all[..m];
    NothingForgotten(rows);
    OneMoreRow(site.rows, event.run, event.stamp, all[..m]);
  }

  lemma {:induction false} NothingForgotten(rows: map<RunId, Row>)
    ensures Forget(rows, []) == rows
  {
  }

  /** No succeeded row names a release in `names`. */
  ghost predicate NoneNamed(rows: map<RunId, Row>, names: seq<Stamp>) {
    forall id :: id in rows && rows[id].succeeded && rows[id].path.Some? ==> rows[id].path.value !in names
  }

  lemma {:induction false} OneMoreRow(rows: map<RunId, Row>, run: RunId, stamp: Stamp, names: seq<Stamp>)
    requires run !in rows
    ensures NoneNamed(rows[run := Row(false, Some(stamp))], names) <==> NoneNamed(rows, names)
  {
    var more := rows[run := Row(false, Some(stamp))];
    assert forall id :: id in rows ==> more[id] == rows[id];
  }

  lemma {:induction false} HalfForgottenIff(rows: map<RunId, Row>, all: seq<Stamp>, cut: nat, m: nat)
    requires Sorted(all) && m <= cut <= |all| && RowsExist(rows, all)
    ensures RowsExist(Forget(rows, all[..cut][..m]), all[cut..]) <==> NoneNamed(rows, all[..cut][m..])
  {
    var after := Forget(rows, all[..cut][..m]);
    forall id | id in rows && rows[id].succeeded && rows[id].path.Some?
      ensures (after[id].path.Some? ==> after[id].path.value in all[cut..]) <==> rows[id].path.value !in all[..cut][m..]
    {
      EitherSide(all, cut, rows[id].path.value);
      EitherSideOf(all[..cut], m, rows[id].path.value);
    }
  }

  lemma {:induction false} EitherSideOf(names: seq<Stamp>, m: nat, d: Stamp)
    requires Sorted(names) && m <= |names|
    ensures d in names[m..] <==> d in names && d !in names[..m]
  {
    if d in names {
      EitherSide(names, m, d);
    }
  }

  // ---- whole histories ----------------------------------------------------

  /** What the clock and the database see to: a new stamp, and a new run for each deploy. */
  ghost predicate Fresh(site: Site, event: Event) {
    match event
    case Rollback(_, _) => true
    case Deploy(run, stamp, keep, course, rollbackRun) =>
      Newest(site.folders, stamp) && run !in site.rows && run != rollbackRun
  }

  /** The luck an unlucky deploy needs: an automatic rollback finds its release kept, and
      a prune or its bookkeeping that ends early leaves no succeeded run naming a folder
      that is gone. */
  ghost predicate Fortunate(site: Site, event: Event) {
    event.Deploy? ==>
      var all := site.folders + [event.stamp];
      var pruned := all[..Cut(|all|, Kept(event.keep))];
      match event.course
      case Unhealthy(true) => site.current.Some? ==> NewerThan(site.folders, site.current.value) + 1 < Kept(event.keep)
      case CutShort(removed) => NoneNamed(site.rows, pruned[..Min(removed, |pruned|)])
      case Interrupted(written) => NoneNamed(site.rows, pruned[Min(written, |pruned|)..])
      case _ => true
  }

  function History(site: Site, events: seq<Event>): Site {
    if events == [] then site
    else After(History(site, events[..|events| - 1]), events[|events| - 1])
  }

  lemma {:induction false} RowJoins(rows: map<RunId, Row>, folders: seq<Stamp>, run: RunId, row: Row)
    requires RowsExist(rows, folders)
    requires row.succeeded && row.path.Some? ==> row.path.value in folders
    ensures RowsExist(rows[run := row], folders)
  {
  }

  lemma {:induction false} MoreFoldersDoNoHarm(site: Site, stamp: Stamp)
    requires Agrees(site) && Newest(site.folders, stamp)
    ensures Agrees(site.(folders := WithFolder(site.folders, stamp)))
  {
    NewestGoesLast(site.folders, stamp);
  }

  lemma {:induction false} PlainCourseAgrees(site: Site, event: Event)
    requires Agrees(site) && Fresh(site, event) && event.Deploy?
    requires !event.course.CutShort? && !event.course.Interrupted?
    requires event.course == Unhealthy(true) ==> site.current.None?
    ensures Agrees(After(site, event))
  {
    var run, stamp, keep := event.run, event.stamp, event.keep;
    PruneIsWrittenOff(site, run, stamp, keep);
    MoreFoldersDoNoHarm(site, stamp);
    FlipAndPruneAll(site, run, stamp, keep);
    hide Sorted, RowsExist, Newest, AllWritten, Kept, WithFolder, Cut, Forget;
    var live := AllWritten(site, run, stamp, keep);
    RowJoins(site.rows, site.folders, run, Row(false, None));
    RowJoins(site.rows, WithFolder(site.folders, stamp), run, Row(false, Some(stamp)));
    RowJoins(live.rows, live.folders, run, Row(true, Some(stamp)));
  }

  /** One deploy or rollback keeps the agreement exactly when it is fortunate. */
  lemma {:induction false} EventAgreesIff(site: Site, event: Event)
    requires Agrees(site) && Fresh(site, event)
    ensures Agrees(After(site, event)) <==> Fortunate(site, event)
  {
    if event.Rollback? {
      hide Sorted, RowsExist;
      RowJoins(site.rows, site.folders, event.run, Row(event.to in site.folders, Some(event.to)));
    } else {
      var all := site.folders + [event.stamp];
      var cut := Cut(|all|, Kept(event.keep));
      assert |all[..cut]| == cut;
      assert all[..cut][..Min(0, cut)] == [];
      if event.course.CutShort? {
        CutShortAgreesIff(site, event);
        assert all[..cut][..Min(event.course.removed, cut)] == all[..Min(event.course.removed, cut)];
        hide Agrees, After;
      } else if event.course.Interrupted? {
        InterruptedAgreesIff(site, event);
        hide Agrees, After;
      } else if event.course == Unhealthy(true) && site.current.Some? {
        AutoRollbackAgreesIff(site, event);
        hide Agrees, After;
      } else {
        PlainCourseAgrees(site, event);
        hide Agrees, After;
      }
    }
  }

  ghost predicate AlwaysFresh(site: Site, events: seq<Event>) {
    forall k :: 0 <= k < |events| ==> Fresh(History(site, events[..k]), events[k])
  }

  ghost predicate AgreesAlong(site: Site, events: seq<Event>) {
    forall k :: 0 <= k <= |events| ==> Agrees(History(site, events[..k]))
  }

  ghost predicate FortunateAlong(site: Site, events: seq<Event>) {
    forall k :: 0 <= k < |events| ==> Fortunate(History(site, events[..k]), events[k])
  }

  lemma {:induction false} OneEventMore(site: Site, events: seq<Event>)
    requires events != []
    ensures var before, last := events[..|events| - 1], events[|events| - 1];
            (AgreesAlong(site, events) <==> AgreesAlong(site, before) && Agrees(History(site, events))) &&
            (FortunateAlong(site, events) <==>
             FortunateAlong(site, before) && Fortunate(History(site, before), last)) &&
            (AlwaysFresh(site, events) <==> AlwaysFresh(site, before) && Fresh(History(site, before), last))
  {
    hide History, Agrees, Fortunate, Fresh;
    var n := |events| - 1;
    var before := events[..n];
    assert events[..n + 1] == events;
    assert forall k :: 0 <= k <= n ==> before[..k] == events[..k];
  }

  /** Across any mix of deploys and rollbacks, however they end, links and rows agree with
      the folders all along exactly when every one of them is fortunate. */
  lemma {:induction false} TargetAgreesIff(site: Site, events: seq<Event>)
    requires Agrees(site) && AlwaysFresh(site, events)
    ensures AgreesAlong(site, events) <==> FortunateAlong(site, events)
  {
    if events == [] {
      assert events[..0] == [];
    } else {
      var before, last := events[..|events| - 1], events[|events| - 1];
      OneEventMore(site, events);
      TargetAgreesIff(site, before);
      if AgreesAlong(site, before) {
        assert before[..|before|] == before && Agrees(History(site, before));
        hide Agrees, Fresh, Fortunate, AgreesAlong, FortunateAlong, AlwaysFresh, After;
        EventAgreesIff(History(site, before), last);
      }
    }
  }

  // ---- as the pipeline does it -------------------------------------------

  class Target {
    var folders: seq<Stamp>
    var current: Option<Stamp>
    var rows: map<RunId, Row>

    function View(): Site
      reads this
    {
      Site(folders, current, rows)
    }

    constructor (site: Site)
      ensures View() == site
    {
      folders, current, rows := site.folders, site.current, site.rows;
    }

    method MakeFolder(d: Stamp)
      modifies this`folders
      ensures folders == WithFolder(old(folders), d)
    {
      var k := |folders|;
      assert folders[..k] == folders;
      while k > 0 && folders[k - 1] > d
        invariant folders == old(folders) && 0 <= k <= |folders|
        invariant WithFolder(folders, d) == WithFolder(folders[..k], d) + folders[k..]
      {
        assert folders[..k][..k - 1] == folders[..k - 1];
        assert folders[k - 1..] == [folders[k - 1]] + folders[k..];
        k := k - 1;
      }
      if k == 0 || folders[k - 1] != d {
        folders := folders[..k] + [d] + folders[k..];
      } else {
        assert folders == folders[..k] + folders[k..];
      }
    }

    /** `ls -1 | sort | head -n -keep`, then remove each that is not live. */
    method Prune(keep: nat, live: Stamp) returns (pruned: seq<Stamp>)
      modifies this`folders
      ensures folders == Survivors(old(folders), keep, live)
      ensures pruned == PrunedNames(old(folders), keep, live)
    {
      var cut := if |folders| > keep then |folders| - keep else 0;
      var spared: seq<Stamp> := [];
      pruned := [];
      for k := 0 to cut
        invariant spared == Spared(folders[..k], live) && pruned == Doomed(folders[..k], live)
      {
        assert folders[..k + 1][..k] == folders[..k];
        if folders[k] != live {
          pruned := pruned + [folders[k]];
        } else {
          spared := spared + [folders[k]];
        }
      }
      folders := spared + folders[cut..];
    }

    /** The same, ended after `limit` removals. */
    method PruneCutShort(keep: nat, live: Stamp, limit: nat)
      modifies this`folders
      ensures folders == ShortPruned(old(folders), Cut(|old(folders)|, keep), live, limit)
    {
      var cut := if |folders| > keep then |folders| - keep else 0;
      var spared: seq<Stamp> := [];
      var removed, k := 0, 0;
      while k < cut && removed < limit
        invariant 0 <= k <= cut <= |folders| && removed <= limit
        invariant ShortPruned(folders, cut, live, limit) ==
                  spared + ShortPruned(folders[k..], cut - k, live, limit - removed)
      {
        assert folders[k..][1..] == folders[k + 1..];
        if folders[k] != live {
          removed := removed + 1;
        } else {
          spared := spared + [live];
        }
        k := k + 1;
      }
      folders := spared + folders[k..];
    }

    /** `_null_pruned_release` for the first `count` names. */
    method WriteOff(names: seq<Stamp>, count: nat)
      requires count <= |names|
      modifies this`rows
      ensures rows == Forget(old(rows), names[..count])
    {
      for k := 0 to count
        invariant rows == Forget(old(rows), names[..k])
      {
        ghost var before := rows;
        rows := map id | id in rows :: if rows[id].path == Some(names[k]) then rows[id].(path := None) else rows[id];
        assert names[..k + 1] == names[..k] + [names[k]];
      }
    }

    /** `run_pipeline` under the releases strategy, run to the end of its course. */
    method RunDeploy(run: RunId, stamp: Stamp, keep: nat, course: Course, rollbackRun: RunId)
      modifies this
      ensures View() == After(old(View()), Event.Deploy(run, stamp, keep, course, rollbackRun))
    {
      rows := rows[run := Row(false, None)];
      if course.StoppedEarly? { return; }
      rows := rows[run := Row(false, Some(stamp))];
      assert rows == old(rows)[run := Row(false, Some(stamp))];
      MakeFolder(stamp);
      if course.StoppedInFolder? { return; }
      var previous := current;
      current := Some(stamp);
      if course.CutShort? {
        PruneCutShort(Kept(keep), stamp, course.removed);
        return;
      }
      var names := Prune(Kept(keep), stamp);
      var written := if course.Interrupted? then Min(course.written, |names|) else |names|;
      WriteOff(names, written);
      if course.Interrupted? { return; }
      if course.Unhealthy? {
        if course.flippedBack && previous.Some? {
          current := previous;
          rows := rows[rollbackRun := Row(true, previous)];
        }
        return;
      }
      rows := rows[run := rows[run].(succeeded := true)];
      if rows[run].path.None? {
        FlipKeepsItsOwn(old(View()), run, stamp, keep, written);
      }
    }

    /** `run_rollback` to a retained release. */
    method RunRollback(run: RunId, to: Stamp)
      modifies this
      ensures View() == After(old(View()), Rollback(run, to))
    {
      if to !in folders {
        rows := rows[run := Row(false, Some(to))];
        return;
      }
      current := Some(to);
      rows := rows[run := Row(true, Some(to))];
    }
  }

  /** The release being deployed is never among the pruned names. */
  lemma {:induction false} FlipKeepsItsOwn(site: Site, run: RunId, stamp: Stamp, keep: nat, written: nat)
    ensures run in Flipped(site, run, stamp, keep, written).rows
    ensures Flipped(site, run, stamp, keep, written).rows[run] == Row(false, Some(stamp))
  {
    var folders := WithFolder(site.folders, stamp);
    SparedIsLive(folders[..Cut(|folders|, Kept(keep))], stamp);
  }
}

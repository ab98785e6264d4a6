/** The fleet-dark alarm: `decide` and `fleet_dark_sweep` in fleet_alarm.py over the
    episode rows of db.py. */
module FleetAlarm {
  import opened Runs

  type OrgId = nat

  const DARK_AFTER: Time := 2 * MINUTE
  const DORMANT_AFTER: Time := 7 * 24 * 60 * MINUTE
  const PRESENCE_WINDOW: Time := 90 * SECOND

  /** An autonomous agent with its session; `lastSeen` is None before the first beat. */
  datatype Agent = Agent(org: OrgId, active: bool, connected: bool, lastSeen: Option<Time>)

  datatype Episode = Episode(org: OrgId, startedAt: Time, endedAt: Option<Time>, notices: nat)

  datatype Event = Opened(org: OrgId) | Closed(org: OrgId)

  /** `orgs` lists every organization once; `log` is the history of the episodes. */
  datatype World = World(now: Time, orgs: seq<OrgId>, agents: seq<Agent>, episodes: seq<Episode>, log: seq<Event>)

  // ---- presence -----------------------------------------------------------

  predicate Counts(a: Agent, org: OrgId) {
    a.org == org && a.active
  }

  function AgentsOf(agents: seq<Agent>, org: OrgId): nat {
    if agents == [] then 0
    else AgentsOf(agents[..|agents| - 1], org) + if Counts(agents[|agents| - 1], org) then 1 else 0
  }

  /** Connected, and heard from within 90 seconds. */
  predicate Live(a: Agent, now: Time) {
    a.connected && a.lastSeen.Some? && a.lastSeen.value > now - PRESENCE_WINDOW
  }

  function LiveOf(agents: seq<Agent>, org: OrgId, now: Time): nat {
    if agents == [] then 0
    else
      var last := agents[|agents| - 1];
      LiveOf(agents[..|agents| - 1], org, now) + if Counts(last, org) && Live(last, now) then 1 else 0
  }

  function Newest(agents: seq<Agent>, org: OrgId): Option<Time> {
    if agents == [] then None
    else
      var before, last := Newest(agents[..|agents| - 1], org), agents[|agents| - 1];
      if !Counts(last, org) || last.lastSeen.None? then before
      else if before.Some? && before.value >= last.lastSeen.value then before
      else last.lastSeen
  }

  datatype OrgPresence = OrgPresence(org: OrgId, agents: nat, live: nat, lastSeen: Option<Time>)

  function PresenceOf(agents: seq<Agent>, org: OrgId, now: Time): OrgPresence {
    OrgPresence(org, AgentsOf(agents, org), LiveOf(agents, org, now), Newest(agents, org))
  }

  /** `fleet_presence_by_org`: a row for each org with an active agent. */
  function Presence(orgs: seq<OrgId>, agents: seq<Agent>, now: Time): seq<OrgPresence> {
    if orgs == [] then []
    else
      var rest := Presence(orgs[..|orgs| - 1], agents, now);
      var last := orgs[|orgs| - 1];
      if AgentsOf(agents, last) > 0 then rest + [PresenceOf(agents, last, now)] else rest
  }

  // ---- the decision -------------------------------------------------------

  type EpisodeId = nat

  /** `open_fleet_dark_episodes`: the open row of each org. */
  function OpenBy(episodes: seq<Episode>): map<OrgId, EpisodeId> {
    if episodes == [] then map[]
    else
      var last := |episodes| - 1;
      if episodes[last].endedAt.None? then OpenBy(episodes[..last])[episodes[last].org := last]
      else OpenBy(episodes[..last])
  }

  predicate GoneDark(row: OrgPresence, open: map<OrgId, EpisodeId>, now: Time) {
    row.org !in open && row.live == 0 && row.agents > 0 && row.lastSeen.Some? &&
    DARK_AFTER < now - row.lastSeen.value <= DORMANT_AFTER
  }

  predicate Returned(row: OrgPresence, open: map<OrgId, EpisodeId>) {
    row.org in open && row.live > 0
  }

  function ToOpen(presence: seq<OrgPresence>, open: map<OrgId, EpisodeId>, now: Time): seq<OrgPresence> {
    if presence == [] then []
    else
      var last := presence[|presence| - 1];
      ToOpen(presence[..|presence| - 1], open, now) + if GoneDark(last, open, now) then [last] else []
  }

  function ToClose(presence: seq<OrgPresence>, open: map<OrgId, EpisodeId>): seq<EpisodeId> {
    if presence == [] then []
    else
      var last := presence[|presence| - 1];
      ToClose(presence[..|presence| - 1], open) + if Returned(last, open) then [open[last.org]] else []
  }

  method Decide(presence: seq<OrgPresence>, open: map<OrgId, EpisodeId>, now: Time)
    returns (toOpen: seq<OrgPresence>, toClose: seq<EpisodeId>)
    ensures toOpen == ToOpen(presence, open, now) && toClose == ToClose(presence, open)
  {
    toOpen, toClose := [], [];
    for i := 0 to |presence|
      invariant toOpen == ToOpen(presence[..i], open, now) && toClose == ToClose(presence[..i], open)
    {
      assert presence[..i + 1][..i] == presence[..i];
      var row := presence[i];
      if row.live > 0 {
        if row.org in open {
          toClose := toClose + [open[row.org]];
        }
        continue;
      }
      if row.org in open || row.agents == 0 || row.lastSeen.None? {
        continue;
      }
      var age := now - row.lastSeen.value;
      if age > DORMANT_AFTER {
        continue;
      }
      if age > DARK_AFTER {
        toOpen := toOpen + [row];
      }
    }
    assert presence[..|presence|] == presence;
  }

  // ---- the sweep ----------------------------------------------------------

  function OpenOne(w: World, row: OrgPresence): World {
    var started := if row.lastSeen.Some? then row.lastSeen.value else w.now;
    w.(episodes := w.episodes + [Episode(row.org, started, None, 0)], log := w.log + [Opened(row.org)])
  }

  /** `notify_org_managers`, for one episode. */
  function TellOne(w: World, id: EpisodeId): World {
    if id < |w.episodes| then
      w.(episodes := w.episodes[id := w.episodes[id].(notices := w.episodes[id].notices + 1)])
    else w
  }

  /** An episode is opened, then its managers are told. */
  function OpenAndTell(w: World, row: OrgPresence): World {
    TellOne(OpenOne(w, row), |w.episodes|)
  }

  function CloseOne(w: World, id: EpisodeId): World {
    if id < |w.episodes| && w.episodes[id].endedAt.None? then
      w.(episodes := w.episodes[id := w.episodes[id].(endedAt := Some(w.now))],
         log := w.log + [Closed(w.episodes[id].org)])
    else w
  }

  function OpenAll(w: World, rows: seq<OrgPresence>): World {
    if rows == [] then w else OpenAndTell(OpenAll(w, rows[..|rows| - 1]), rows[|rows| - 1])
  }

  function CloseAll(w: World, ids: seq<EpisodeId>): World {
    if ids == [] then w else CloseOne(CloseAll(w, ids[..|ids| - 1]), ids[|ids| - 1])
  }

  function Sweep(w: World): World {
    var presence, open := Presence(w.orgs, w.agents, w.now), OpenBy(w.episodes);
    CloseAll(OpenAll(w, ToOpen(presence, open, w.now)), ToClose(presence, open))
  }

  class Alarm {
    var now: Time
    var orgs: seq<OrgId>
    var agents: seq<Agent>
    var episodes: seq<Episode>
    ghost var log: seq<Event>

    constructor (orgs: seq<OrgId>, agents: seq<Agent>, now: Time)
      ensures Snapshot() == World(now, orgs, agents, [], [])
    {
      this.now, this.orgs, this.agents, episodes, log := now, orgs, agents, [], [];
    }

    ghost function Snapshot(): World
      reads this
    {
      World(now, orgs, agents, episodes, log)
    }

    /** `fleet_dark_sweep`: opens and tells one after another, then closes one after
        another. */
    method FleetDarkSweep() returns (begun: nat, ended: nat)
      modifies this`episodes, this`log
      ensures Snapshot() == Sweep(old(Snapshot()))
      ensures begun == |ToOpen(Presence(orgs, agents, now), OpenBy(old(episodes)), now)|
      ensures ended == |ToClose(Presence(orgs, agents, now), OpenBy(old(episodes)))|
    {
      hide Presence, OpenBy, ToOpen, ToClose;
      ghost var was := Snapshot();
      var toOpen, toClose := Decide(Presence(orgs, agents, now), OpenBy(episodes), now);
      begun, ended := 0, 0;
      while begun < |toOpen|
        invariant begun <= |toOpen| && Snapshot() == OpenAll(was, toOpen[..begun])
      {
        assert toOpen[..begun + 1][..begun] == toOpen[..begun];
        var row := toOpen[begun];
        var started := if row.lastSeen.Some? then row.lastSeen.value else now;
        var id := |episodes|;
        episodes := episodes + [Episode(row.org, started, None, 0)];
        log := log + [Opened(row.org)];
        episodes := episodes[id := episodes[id].(notices := episodes[id].notices + 1)];
        begun := begun + 1;
      }
      assert toOpen[..begun] == toOpen;
      while ended < |toClose|
        invariant ended <= |toClose| && Snapshot() == CloseAll(OpenAll(was, toOpen), toClose[..ended])
      {
        assert toClose[..ended + 1][..ended] == toClose[..ended];
        var id := toClose[ended];
        if id < |episodes| && episodes[id].endedAt.None? {
          log := log + [Closed(episodes[id].org)];
          episodes := episodes[id := episodes[id].(endedAt := Some(now))];
        }
        ended := ended + 1;
      }
      assert toClose[..ended] == toClose;
    }
  }

  // ---- what holds over every run ------------------------------------------

  datatype Step =
    | Tick(elapsed: nat)
    | Enrol(agent: Agent)
    | Change(i: nat, agent: Agent)
    | Beat(i: nat)
    | RunSweep

  /** Agents may come, change in any way and beat, in any order with the sweeps. */
  function Apply(w: World, step: Step): World {
    match step
    case Tick(elapsed) => w.(now := w.now + elapsed)
    case Enrol(agent) => w.(agents := w.agents + [agent])
    case Change(i, agent) => if i < |w.agents| then w.(agents := w.agents[i := agent]) else w
    case Beat(i) =>
      if i < |w.agents| then w.(agents := w.agents[i := w.agents[i].(connected := true, lastSeen := Some(w.now))])
      else w
    case RunSweep => Sweep(w)
  }

  function Exec(w: World, steps: seq<Step>): World {
    if steps == [] then w else Apply(Exec(w, steps[..|steps| - 1]), steps[|steps| - 1])
  }

  ghost predicate Distinct<T(!new)>(s: seq<T>) {
    forall i, j :: 0 <= i < j < |s| ==> s[i] != s[j]
  }

  predicate OpenFor(e: Episode, org: OrgId) {
    e.org == org && e.endedAt.None?
  }

  ghost predicate HasOpen(episodes: seq<Episode>, org: OrgId) {
    exists k :: 0 <= k < |episodes| && OpenFor(episodes[k], org)
  }

  ghost predicate OneOpen(episodes: seq<Episode>, org: OrgId) {
    forall i, j :: 0 <= i < j < |episodes| && OpenFor(episodes[i], org) ==> !OpenFor(episodes[j], org)
  }

  /** Opens less closes of one org. */
  function Balance(log: seq<Event>, org: OrgId): int {
    if log == [] then 0
    else Balance(log[..|log| - 1], org) +
         if log[|log| - 1] == Opened(org) then 1 else if log[|log| - 1] == Closed(org) then -1 else 0
  }

  /** Opens and closes strictly alternate, an open first. */
  ghost predicate Alternates(log: seq<Event>, org: OrgId) {
    forall k :: 0 <= k <= |log| ==> 0 <= Balance(log[..k], org) <= 1
  }

  ghost predicate Sane(w: World, org: OrgId) {
    OneOpen(w.episodes, org) && Alternates(w.log, org) &&
    Balance(w.log, org) == (if HasOpen(w.episodes, org) then 1 else 0) &&
    forall k :: 0 <= k < |w.episodes| ==> w.episodes[k].notices == 1
  }

  lemma {:induction false} LogGrows(log: seq<Event>, e: Event, org: OrgId)
    requires Alternates(log, org) && 0 <= Balance(log + [e], org) <= 1
    ensures Alternates(log + [e], org)
  {
    var more := log + [e];
    forall k | 0 <= k <= |more|
      ensures 0 <= Balance(more[..k], org) <= 1
    {
      if k <= |log| {
        assert more[..k] == log[..k];
      } else {
        assert more[..k] == more;
      }
    }
  }

  lemma {:induction false} OpenAndTellIsSane(w: World, row: OrgPresence, org: OrgId)
    requires Sane(w, org) && (row.org == org ==> !HasOpen(w.episodes, org))
    ensures Sane(OpenAndTell(w, row), org)
  {
    var t := OpenAndTell(w, row);
    assert (w.log + [Opened(row.org)])[..|w.log|] == w.log;
    if row.org == org {
      assert OpenFor(t.episodes[|w.episodes|], org);
    } else if HasOpen(w.episodes, org) {
      var k :| 0 <= k < |w.episodes| && OpenFor(w.episodes[k], org);
      assert OpenFor(t.episodes[k], org);
    }
    LogGrows(w.log, Opened(row.org), org);
  }

  lemma {:induction false} CloseOneIsSane(w: World, id: EpisodeId, org: OrgId)
    requires Sane(w, org)
    ensures Sane(CloseOne(w, id), org)
  {
    var t := CloseOne(w, id);
    if id < |w.episodes| && w.episodes[id].endedAt.None? {
      var e := Closed(w.episodes[id].org);
      assert (w.log + [e])[..|w.log|] == w.log;
      if e.org == org {
        assert OpenFor(w.episodes[id], org);
      } else if HasOpen(w.episodes, org) {
        var k :| 0 <= k < |w.episodes| && OpenFor(w.episodes[k], org);
        assert OpenFor(t.episodes[k], org);
      }
      LogGrows(w.log, e, org);
    }
  }

  lemma {:induction false} OpenByIsOpen(episodes: seq<Episode>)
    ensures forall org :: org in OpenBy(episodes) ==>
      OpenBy(episodes)[org] < |episodes| && OpenFor(episodes[OpenBy(episodes)[org]], org)
    ensures forall org :: org in OpenBy(episodes) <==> HasOpen(episodes, org)
  {
    if episodes != [] {
      var last := |episodes| - 1;
      OpenByIsOpen(episodes[..last]);
      forall org
        ensures org in OpenBy(episodes) <==> HasOpen(episodes, org)
      {
        assert HasOpen(episodes, org) <==> HasOpen(episodes[..last], org) || OpenFor(episodes[last], org) by {
          if HasOpen(episodes[..last], org) {
            var k :| 0 <= k < last && OpenFor(episodes[..last][k], org);
            assert OpenFor(episodes[k], org);
          }
          if HasOpen(episodes, org) && !OpenFor(episodes[last], org) {
            var k :| 0 <= k < |episodes| && OpenFor(episodes[k], org);
            assert OpenFor(episodes[..last][k], org);
          }
        }
      }
    }
  }

  lemma {:induction false} PresenceIs(orgs: seq<OrgId>, agents: seq<Agent>, now: Time)
    requires Distinct(orgs)
    ensures forall k :: 0 <= k < |Presence(orgs, agents, now)| ==>
      var row := Presence(orgs, agents, now)[k];
      row == PresenceOf(agents, row.org, now) && row.org in orgs && row.agents > 0
    ensures forall i, j :: 0 <= i < j < |Presence(orgs, agents, now)| ==>
      Presence(orgs, agents, now)[i].org != Presence(orgs, agents, now)[j].org
    ensures forall org :: org in orgs && AgentsOf(agents, org) > 0 ==>
      PresenceOf(agents, org, now) in Presence(orgs, agents, now)
  {
    if orgs != [] {
      PresenceIs(orgs[..|orgs| - 1], agents, now);
    }
  }

  /** The rows to open: distinct orgs, each of them gone dark. */
  ghost predicate ProperRows(rows: seq<OrgPresence>, open: map<OrgId, EpisodeId>, now: Time) {
    (forall k :: 0 <= k < |rows| ==> GoneDark(rows[k], open, now)) &&
    forall i, j :: 0 <= i < j < |rows| ==> rows[i].org != rows[j].org
  }

  lemma {:induction false} ToOpenIs(presence: seq<OrgPresence>, open: map<OrgId, EpisodeId>, now: Time)
    requires forall i, j :: 0 <= i < j < |presence| ==> presence[i].org != presence[j].org
    ensures ProperRows(ToOpen(presence, open, now), open, now)
    ensures forall row :: row in ToOpen(presence, open, now) <==> row in presence && GoneDark(row, open, now)
  {
    if presence != [] {
      var before := presence[..|presence| - 1];
      ToOpenIs(before, open, now);
      assert presence == before + [presence[|presence| - 1]];
    }
  }

  lemma {:induction false} OpenAllIsSane(w: World, rows: seq<OrgPresence>, org: OrgId)
    requires Sane(w, org) && ProperRows(rows, OpenBy(w.episodes), w.now)
    ensures Sane(OpenAll(w, rows), org) && OpenAll(w, rows).now == w.now
    ensures (forall k :: 0 <= k < |rows| ==> rows[k].org != org) ==>
      (HasOpen(OpenAll(w, rows).episodes, org) <==> HasOpen(w.episodes, org))
  {
    if rows != [] {
      var before, last := rows[..|rows| - 1], rows[|rows| - 1];
      OpenAllIsSane(w, before, org);
      OpenByIsOpen(w.episodes);
      OpenAndTellIsSane(OpenAll(w, before), last, org);
      OpenAndTellElsewhere(OpenAll(w, before), last, org);
    }
  }

  lemma {:induction false} OpenAndTellElsewhere(w: World, row: OrgPresence, org: OrgId)
    ensures row.org != org ==> (HasOpen(OpenAndTell(w, row).episodes, org) <==> HasOpen(w.episodes, org))
    ensures row.org == org ==> HasOpen(OpenAndTell(w, row).episodes, org)
  {
    var t := OpenAndTell(w, row);
    assert forall k :: 0 <= k < |w.episodes| ==> t.episodes[k] == w.episodes[k];
    assert OpenFor(t.episodes[|w.episodes|], row.org);
  }

  lemma {:induction false} CloseAllIsSane(w: World, ids: seq<EpisodeId>, org: OrgId)
    requires Sane(w, org)
    ensures Sane(CloseAll(w, ids), org)
  {
    if ids != [] {
      CloseAllIsSane(w, ids[..|ids| - 1], org);
      CloseOneIsSane(CloseAll(w, ids[..|ids| - 1]), ids[|ids| - 1], org);
    }
  }

  lemma {:induction false} SweepIsSane(w: World, org: OrgId)
    requires Distinct(w.orgs) && Sane(w, org)
    ensures Sane(Sweep(w), org)
  {
    var presence, open := Presence(w.orgs, w.agents, w.now), OpenBy(w.episodes);
    PresenceIs(w.orgs, w.agents, w.now);
    ToOpenIs(presence, open, w.now);
    OpenAllIsSane(w, ToOpen(presence, open, w.now), org);
    CloseAllIsSane(OpenAll(w, ToOpen(presence, open, w.now)), ToClose(presence, open), org);
  }

  lemma {:induction false} SweepKeepsTheRest(w: World)
    ensures Sweep(w).orgs == w.orgs && Sweep(w).agents == w.agents && Sweep(w).now == w.now
  {
    var presence, open := Presence(w.orgs, w.agents, w.now), OpenBy(w.episodes);
    var rows, ids := ToOpen(presence, open, w.now), ToClose(presence, open);
    var n := 0;
    while n < |rows|
      invariant n <= |rows|
      invariant var t := OpenAll(w, rows[..n]); t == w.(episodes := t.episodes, log := t.log)
    {
      assert rows[..n + 1][..n] == rows[..n];
      n := n + 1;
    }
    assert rows[..n] == rows;
    var v, m := OpenAll(w, rows), 0;
    while m < |ids|
      invariant m <= |ids|
      invariant var t := CloseAll(v, ids[..m]); t == v.(episodes := t.episodes, log := t.log)
    {
      assert ids[..m + 1][..m] == ids[..m];
      m := m + 1;
    }
    assert ids[..m] == ids;
  }

  ghost predicate Fresh(w: World) {
    Distinct(w.orgs) && w.episodes == [] && w.log == []
  }

  /** Over any run of beats and sweeps an org has at most one open episode, its opens
      and closes strictly alternate, and every episode is told exactly once. */
  lemma {:induction false} OneEpisodeAtATime(w: World, steps: seq<Step>, org: OrgId)
    requires Fresh(w)
    ensures Sane(Exec(w, steps), org) && Exec(w, steps).orgs == w.orgs
  {
    if steps != [] {
      var before := Exec(w, steps[..|steps| - 1]);
      OneEpisodeAtATime(w, steps[..|steps| - 1], org);
      if steps[|steps| - 1].RunSweep? {
        SweepIsSane(before, org);
        SweepKeepsTheRest(before);
      }
    }
  }

  // ---- when an episode opens ----------------------------------------------

  lemma {:induction false} LiveMeansRecent(agents: seq<Agent>, org: OrgId, now: Time)
    requires LiveOf(agents, org, now) > 0
    ensures Newest(agents, org).Some? && now - Newest(agents, org).value < PRESENCE_WINDOW
  {
    if agents != [] && LiveOf(agents[..|agents| - 1], org, now) > 0 {
      LiveMeansRecent(agents[..|agents| - 1], org, now);
    }
  }

  /** Silent for more than two minutes, for at most seven days. */
  predicate Silent(w: World, org: OrgId) {
    Newest(w.agents, org).Some? && DARK_AFTER < w.now - Newest(w.agents, org).value <= DORMANT_AFTER
  }

  /** A beat of an active agent of the org. */
  predicate BeatOf(agents: seq<Agent>, k: int, org: OrgId, at: Time) {
    0 <= k < |agents| && agents[k].org == org && agents[k].active && agents[k].lastSeen == Some(at)
  }

  lemma {:induction false} NewestIsTheLatest(agents: seq<Agent>, org: OrgId) returns (k: int)
    ensures Newest(agents, org).Some? ==> BeatOf(agents, k, org, Newest(agents, org).value)
    ensures forall j, at :: BeatOf(agents, j, org, at) ==> Newest(agents, org).Some? && at <= Newest(agents, org).value
  {
    k := 0;
    if agents != [] {
      var n := |agents| - 1;
      k := NewestIsTheLatest(agents[..n], org);
      assert forall j, at :: j < n ==> (BeatOf(agents[..n], j, org, at) <==> BeatOf(agents, j, org, at));
      if Newest(agents, org) != Newest(agents[..n], org) {
        k := n;
      }
    }
  }

  /** Silent: no active agent was heard from in the last two minutes, some one was in the
      last seven days. */
  lemma {:induction false} SilenceIs(w: World, org: OrgId)
    ensures Silent(w, org) <==>
            (exists k, at :: BeatOf(w.agents, k, org, at) && w.now - at <= 604_800_000_000) &&
            (forall k, at :: BeatOf(w.agents, k, org, at) ==> w.now - at > 120_000_000)
  {
    var k := NewestIsTheLatest(w.agents, org);
    hide Newest;
    if Newest(w.agents, org).Some? {
      assert BeatOf(w.agents, k, org, Newest(w.agents, org).value);
    }
  }

  /** Live: some active agent is connected and was heard from within 90 seconds. */
  lemma {:induction false} LivenessIs(agents: seq<Agent>, org: OrgId, now: Time)
    ensures LiveOf(agents, org, now) > 0 <==>
            exists k, at :: BeatOf(agents, k, org, at) && agents[k].connected && now - at < 90_000_000
  {
    if agents != [] {
      var n := |agents| - 1;
      LivenessIs(agents[..n], org, now);
      if k, at :| BeatOf(agents[..n], k, org, at) && agents[..n][k].connected && now - at < 90_000_000 {
        assert BeatOf(agents, k, org, at);
      }
      if k, at :| BeatOf(agents, k, org, at) && agents[k].connected && now - at < 90_000_000 {
        assert k < n ==> BeatOf(agents[..n], k, org, at);
      }
      if Counts(agents[n], org) && Live(agents[n], now) {
        assert BeatOf(agents, n, org, agents[n].lastSeen.value);
      }
    }
  }

  lemma {:induction false} OpenAllDates(w: World, rows: seq<OrgPresence>)
    ensures var t := OpenAll(w, rows);
            t.now == w.now && |t.episodes| == |w.episodes| + |rows| &&
            (forall k :: 0 <= k < |w.episodes| ==> t.episodes[k] == w.episodes[k]) &&
            forall j :: 0 <= j < |rows| ==>
              t.episodes[|w.episodes| + j] == Episode(rows[j].org, rows[j].lastSeen.GetOr(w.now), None, 1)
  {
    if rows != [] {
      OpenAllDates(w, rows[..|rows| - 1]);
    }
  }

  lemma {:induction false} CloseAllDates(w: World, ids: seq<EpisodeId>)
    ensures var t := CloseAll(w, ids);
            t.now == w.now && |t.episodes| == |w.episodes| &&
            forall k :: 0 <= k < |w.episodes| ==>
              t.episodes[k] == if k in ids && w.episodes[k].endedAt.None? then w.episodes[k].(endedAt := Some(w.now))
                               else w.episodes[k]
  {
    if ids != [] {
      CloseAllDates(w, ids[..|ids| - 1]);
      assert ids == ids[..|ids| - 1] + [ids[|ids| - 1]];
    }
  }

  /** The row's org is silent since the row's time, and is one the sweep knows. */
  predicate DarkSince(w: World, row: OrgPresence) {
    row.org in w.orgs && Silent(w, row.org) && row.lastSeen == Newest(w.agents, row.org)
  }

  lemma {:induction false} OnlyTheDarkAreOpened(w: World)
    requires Distinct(w.orgs)
    ensures forall row :: row in ToOpen(Presence(w.orgs, w.agents, w.now), OpenBy(w.episodes), w.now) ==>
              DarkSince(w, row)
  {
    var presence, open := Presence(w.orgs, w.agents, w.now), OpenBy(w.episodes);
    PresenceIs(w.orgs, w.agents, w.now);
    ToOpenIs(presence, open, w.now);
    hide Presence, ToOpen, OpenBy, AgentsOf, LiveOf, Newest;
  }

  /** A new episode starts at its org's newest beat, open and told once; an old one stays
      as it is, or ends now if it was open. */
  lemma {:induction false} SweepDates(w: World, k: EpisodeId)
    requires Distinct(w.orgs) && k < |Sweep(w).episodes|
    ensures |Sweep(w).episodes| >= |w.episodes|
    ensures var e := Sweep(w).episodes[k];
            if k < |w.episodes| then
              e == w.episodes[k] || (w.episodes[k].endedAt == None && e == w.episodes[k].(endedAt := Some(w.now)))
            else
              e.org in w.orgs && Silent(w, e.org) && Newest(w.agents, e.org).Some? &&
              e == Episode(e.org, Newest(w.agents, e.org).value, None, 1)
  {
    var presence, open := Presence(w.orgs, w.agents, w.now), OpenBy(w.episodes);
    var rows, ids := ToOpen(presence, open, w.now), ToClose(presence, open);
    OpenAllDates(w, rows);
    CloseAllDates(OpenAll(w, rows), ids);
    OnlyTheDarkAreOpened(w);
    ClosedAreOld(w, ids);
    hide Presence, ToOpen, ToClose, OpenBy, OpenAll, CloseAll, Newest;
    if k >= |w.episodes| {
      assert rows[k - |w.episodes|] in rows;
    }
  }

  lemma {:induction false} ClosedAreOld(w: World, ids: seq<EpisodeId>)
    requires ids == ToClose(Presence(w.orgs, w.agents, w.now), OpenBy(w.episodes))
    ensures forall id :: id in ids ==> id < |w.episodes|
  {
    ToCloseIs(Presence(w.orgs, w.agents, w.now), OpenBy(w.episodes));
    OpenByIsOpen(w.episodes);
    hide Presence, ToClose, OpenBy, OpenFor, HasOpen;
  }

  function Opens(log: seq<Event>, org: OrgId): nat {
    if log == [] then 0 else Opens(log[..|log| - 1], org) + if log[|log| - 1] == Opened(org) then 1 else 0
  }

  lemma {:induction false} AgentsAreCounted(agents: seq<Agent>, org: OrgId)
    ensures AgentsOf(agents, org) > 0 <==> exists k :: 0 <= k < |agents| && agents[k].org == org && agents[k].active
  {
    if agents != [] {
      var n := |agents| - 1;
      AgentsAreCounted(agents[..n], org);
      if k :| 0 <= k < n && agents[..n][k].org == org && agents[..n][k].active {
        assert agents[k].org == org && agents[k].active;
      }
      if k :| 0 <= k < |agents| && agents[k].org == org && agents[k].active {
        assert k < n ==> agents[..n][k].org == org && agents[..n][k].active;
      }
    }
  }

  lemma {:induction false} BeatenMeansAgents(agents: seq<Agent>, org: OrgId)
    requires Newest(agents, org).Some?
    ensures AgentsOf(agents, org) > 0
  {
    if agents != [] && Newest(agents[..|agents| - 1], org).Some? {
      BeatenMeansAgents(agents[..|agents| - 1], org);
    }
  }

  lemma {:induction false} OpenAllOpens(w: World, rows: seq<OrgPresence>, org: OrgId)
    requires forall i, j :: 0 <= i < j < |rows| ==> rows[i].org != rows[j].org
    ensures Opens(OpenAll(w, rows).log, org) ==
            Opens(w.log, org) + if exists k :: 0 <= k < |rows| && rows[k].org == org then 1 else 0
  {
    if rows != [] {
      var before, last := rows[..|rows| - 1], rows[|rows| - 1];
      OpenAllOpens(w, before, org);
      var log := OpenAll(w, before).log;
      assert (log + [Opened(last.org)])[..|log|] == log;
      if exists k :: 0 <= k < |rows| && rows[k].org == org {
        var k :| 0 <= k < |rows| && rows[k].org == org;
        assert k < |before| ==> before[k].org == org;
      }
    }
  }

  lemma {:induction false} CloseAllOpensNone(w: World, ids: seq<EpisodeId>, org: OrgId)
    ensures Opens(CloseAll(w, ids).log, org) == Opens(w.log, org)
  {
    if ids != [] {
      var before := CloseAll(w, ids[..|ids| - 1]);
      CloseAllOpensNone(w, ids[..|ids| - 1], org);
      assert forall e: Event :: (before.log + [e])[..|before.log|] == before.log;
    }
  }

  /** A sweep opens an episode for an org exactly when none is open and its newest beat
      is more than two minutes and at most seven days old: the liveness count, being of
      the last 90 seconds, then says none by itself. */
  lemma {:induction false} SweepOpensIff(w: World, org: OrgId)
    requires Distinct(w.orgs) && org in w.orgs
    ensures Opens(Sweep(w).log, org) == Opens(w.log, org) + if Silent(w, org) && !HasOpen(w.episodes, org) then 1 else 0
  {
    var presence, open := Presence(w.orgs, w.agents, w.now), OpenBy(w.episodes);
    var rows := ToOpen(presence, open, w.now);
    PresenceIs(w.orgs, w.agents, w.now);
    ToOpenIs(presence, open, w.now);
    OpenByIsOpen(w.episodes);
    OpenAllOpens(w, rows, org);
    CloseAllOpensNone(OpenAll(w, rows), ToClose(presence, open), org);
    hide Presence, ToOpen, ToClose, OpenBy, OpenAll, CloseAll, Opens, HasOpen, AgentsOf, LiveOf, Newest;
    var row := PresenceOf(w.agents, org, w.now);
    if Silent(w, org) && !HasOpen(w.episodes, org) {
      BeatenMeansAgents(w.agents, org);
      if row.live > 0 {
        LiveMeansRecent(w.agents, org, w.now);
      }
      assert row in rows;
    } else {
      forall k | 0 <= k < |rows|
        ensures rows[k].org != org
      {
        assert rows[k] in rows;
      }
    }
  }

  lemma {:induction false} CloseAllCloses(w: World, ids: seq<EpisodeId>, org: OrgId)
    ensures var after := CloseAll(w, ids).episodes;
            |after| == |w.episodes| &&
            forall k :: 0 <= k < |after| ==> (OpenFor(after[k], org) <==> OpenFor(w.episodes[k], org) && k !in ids)
  {
    if ids != [] {
      CloseAllCloses(w, ids[..|ids| - 1], org);
      assert ids == ids[..|ids| - 1] + [ids[|ids| - 1]];
    }
  }

  lemma {:induction false} ToCloseIs(presence: seq<OrgPresence>, open: map<OrgId, EpisodeId>)
    ensures forall id :: id in ToClose(presence, open) <==>
      exists k :: 0 <= k < |presence| && Returned(presence[k], open) && open[presence[k].org] == id
  {
    if presence != [] {
      var n := |presence| - 1;
      ToCloseIs(presence[..n], open);
      forall id
        ensures id in ToClose(presence, open) <==>
          exists k :: 0 <= k < |presence| && Returned(presence[k], open) && open[presence[k].org] == id
      {
        if k :| 0 <= k < n && Returned(presence[..n][k], open) && open[presence[..n][k].org] == id {
          assert Returned(presence[k], open);
        }
      }
    }
  }

  lemma {:induction false} LiveMeansAgents(agents: seq<Agent>, org: OrgId, now: Time)
    ensures LiveOf(agents, org, now) <= AgentsOf(agents, org)
  {
    if agents != [] {
      LiveMeansAgents(agents[..|agents| - 1], org, now);
    }
  }

  /** The sweep closes the org's open episode exactly when some agent of it is live. */
  lemma {:induction false} SweepClosesIff(w: World, org: OrgId, id: EpisodeId)
    requires Distinct(w.orgs) && org in w.orgs && OneOpen(w.episodes, org)
    requires id < |w.episodes| && OpenFor(w.episodes[id], org)
    ensures id < |Sweep(w).episodes|
    ensures !OpenFor(Sweep(w).episodes[id], org) <==> LiveOf(w.agents, org, w.now) > 0
  {
    var presence, open := Presence(w.orgs, w.agents, w.now), OpenBy(w.episodes);
    var rows, ids := ToOpen(presence, open, w.now), ToClose(presence, open);
    PresenceIs(w.orgs, w.agents, w.now);
    OpenByIsOpen(w.episodes);
    ToCloseIs(presence, open);
    OpenAllAppends(w, rows);
    CloseAllCloses(OpenAll(w, rows), ids, org);
    assert HasOpen(w.episodes, org) && open[org] == id;
    hide Presence, ToOpen, ToClose, OpenBy, OpenAll, CloseAll, AgentsOf, LiveOf, Newest;
    LiveMeansAgents(w.agents, org, w.now);
    var row := PresenceOf(w.agents, org, w.now);
    if row.live > 0 {
      var k :| 0 <= k < |presence| && presence[k] == row;
      assert Returned(presence[k], open);
    } else {
      forall k | 0 <= k < |presence| && Returned(presence[k], open)
        ensures open[presence[k].org] != id
      {
        assert OpenFor(w.episodes[open[presence[k].org]], presence[k].org);
      }
    }
  }

  lemma {:induction false} OpenAllAppends(w: World, rows: seq<OrgPresence>)
    ensures w.episodes <= OpenAll(w, rows).episodes
  {
    if rows != [] {
      OpenAllAppends(w, rows[..|rows| - 1]);
    }
  }

  /** An org whose newest beat is never more than two minutes old at a sweep never gets
      an episode. */
  lemma {:induction false} BeatingOrgStaysQuiet(w: World, steps: seq<Step>, org: OrgId)
    requires Fresh(w) && org in w.orgs
    requires forall k :: 0 <= k < |steps| && steps[k].RunSweep? ==> !Silent(Exec(w, steps[..k]), org)
    ensures Opens(Exec(w, steps).log, org) == 0
  {
    if steps != [] {
      var n := |steps| - 1;
      var before := Exec(w, steps[..n]);
      assert forall k :: 0 <= k < n ==> steps[..n][..k] == steps[..k];
      BeatingOrgStaysQuiet(w, steps[..n], org);
      if steps[n].RunSweep? {
        OneEpisodeAtATime(w, steps[..n], org);
        SweepOpensIff(before, org);
      }
    }
  }

  // ---- several sweepers ---------------------------------------------------

  /** A write that some sweeper has decided on and not made yet. */
  datatype Task = Open(row: OrgPresence) | Tell(id: EpisodeId) | Close(id: EpisodeId)

  datatype Hall = Hall(world: World, pending: multiset<Task>)

  /** Each sweeper reads an org, then writes what it decided, at any later time or never. */
  datatype Move =
    | Meanwhile(step: Step)
    | See(org: OrgId)
    | Write(task: Task)
    | Drop(task: Task)

  function Decided(w: World, org: OrgId): multiset<Task> {
    var row, open := PresenceOf(w.agents, org, w.now), OpenBy(w.episodes);
    if GoneDark(row, open, w.now) then multiset{Open(row)}
    else if Returned(row, open) then multiset{Close(open[org])}
    else multiset{}
  }

  function Written(h: Hall, task: Task): Hall {
    var rest := h.pending - multiset{task};
    match task
    case Open(row) => Hall(OpenOne(h.world, row), rest + multiset{Tell(|h.world.episodes|)})
    case Tell(id) => Hall(TellOne(h.world, id), rest)
    case Close(id) => Hall(CloseOne(h.world, id), rest)
  }

  function Do(h: Hall, move: Move): Hall {
    match move
    case Meanwhile(step) => if step.RunSweep? then h else h.(world := Apply(h.world, step))
    case See(org) => h.(pending := h.pending + Decided(h.world, org))
    case Write(task) => if task in h.pending then Written(h, task) else h
    case Drop(task) => h.(pending := h.pending - multiset{task})
  }

  function Play(h: Hall, moves: seq<Move>): Hall {
    if moves == [] then h else Do(Play(h, moves[..|moves| - 1]), moves[|moves| - 1])
  }

  /** An open is written while the org has an open episode already. */
  ghost predicate OpensAgain(h: Hall, move: Move, org: OrgId) {
    move.Write? && move.task.Open? && move.task in h.pending && move.task.row.org == org &&
    HasOpen(h.world.episodes, org)
  }

  lemma {:induction false} OpenOneKeepsOneOpenIff(w: World, row: OrgPresence, org: OrgId)
    requires OneOpen(w.episodes, org)
    ensures OneOpen(OpenOne(w, row).episodes, org) <==> row.org != org || !HasOpen(w.episodes, org)
  {
    var after := OpenOne(w, row).episodes;
    assert forall k :: 0 <= k < |w.episodes| ==> after[k] == w.episodes[k];
    if row.org == org && HasOpen(w.episodes, org) {
      var k :| 0 <= k < |w.episodes| && OpenFor(w.episodes[k], org);
      assert OpenFor(after[k], org) && OpenFor(after[|w.episodes|], org);
    }
  }

  lemma {:induction false} TellKeepsOneOpen(w: World, id: EpisodeId, org: OrgId)
    requires OneOpen(w.episodes, org)
    ensures OneOpen(TellOne(w, id).episodes, org)
  {
    var after := TellOne(w, id).episodes;
    assert forall k :: 0 <= k < |after| ==> (OpenFor(after[k], org) <==> OpenFor(w.episodes[k], org));
  }

  lemma {:induction false} CloseKeepsOneOpen(w: World, id: EpisodeId, org: OrgId)
    requires OneOpen(w.episodes, org)
    ensures OneOpen(CloseOne(w, id).episodes, org)
  {
    var after := CloseOne(w, id).episodes;
    assert forall k :: 0 <= k < |after| ==> (OpenFor(after[k], org) ==> OpenFor(w.episodes[k], org));
  }

  lemma {:induction false} MoveKeepsOneOpenIff(h: Hall, move: Move, org: OrgId)
    requires OneOpen(h.world.episodes, org)
    ensures OneOpen(Do(h, move).world.episodes, org) <==> !OpensAgain(h, move, org)
  {
    if move.Write? {
      match move.task
      case Open(row) => OpenOneKeepsOneOpenIff(h.world, row, org);
      case Tell(id) => TellKeepsOneOpen(h.world, id, org);
      case Close(id) => CloseKeepsOneOpen(h.world, id, org);
    }
  }

  ghost predicate AlwaysOneOpen(h: Hall, moves: seq<Move>, org: OrgId) {
    forall k :: 0 <= k <= |moves| ==> OneOpen(Play(h, moves[..k]).world.episodes, org)
  }

  ghost predicate NeverOpensAgain(h: Hall, moves: seq<Move>, org: OrgId) {
    forall k :: 0 <= k < |moves| ==> !OpensAgain(Play(h, moves[..k]), moves[k], org)
  }

  lemma {:induction false} OneMoveMore(h: Hall, moves: seq<Move>, org: OrgId)
    requires moves != []
    ensures var before, last := moves[..|moves| - 1], moves[|moves| - 1];
            (AlwaysOneOpen(h, moves, org) <==>
             AlwaysOneOpen(h, before, org) && OneOpen(Play(h, moves).world.episodes, org)) &&
            (NeverOpensAgain(h, moves, org) <==>
             NeverOpensAgain(h, before, org) && !OpensAgain(Play(h, before), last, org))
  {
    hide Play, OneOpen, OpensAgain;
    var n := |moves| - 1;
    var before := moves[..n];
    assert moves[..n + 1] == moves;
    assert forall k :: 0 <= k <= n ==> before[..k] == moves[..k];
  }

  /** However sweepers interleave, an org has at most one open episode all along exactly
      when every open was written while the org had none: the check each sweeper made at
      its read, needed again at its write, where no unique index makes it. */
  lemma {:induction false} OneOpenAllAlongIff(h: Hall, moves: seq<Move>, org: OrgId)
    requires OneOpen(h.world.episodes, org)
    ensures AlwaysOneOpen(h, moves, org) <==> NeverOpensAgain(h, moves, org)
  {
    if moves != [] {
      var before := moves[..|moves| - 1];
      OneOpenAllAlongIff(h, before, org);
      OneMoveMore(h, moves, org);
      if AlwaysOneOpen(h, before, org) {
        assert before[..|before|] == before;
        assert OneOpen(Play(h, before).world.episodes, org);
        hide AlwaysOneOpen, NeverOpensAgain, OneOpen, OpensAgain, Do;
        MoveKeepsOneOpenIff(Play(h, before), moves[|moves| - 1], org);
      }
    }
  }

  /** How often a notice of the episode was lost with its sweeper. */
  function Lost(h: Hall, moves: seq<Move>, id: EpisodeId): nat {
    if moves == [] then 0
    else
      var before, last := moves[..|moves| - 1], moves[|moves| - 1];
      Lost(h, before, id) + if last == Drop(Tell(id)) && Tell(id) in Play(h, before).pending then 1 else 0
  }

  ghost predicate Unopened(h: Hall) {
    forall id :: id >= |h.world.episodes| ==> Tell(id) !in h.pending
  }

  lemma {:induction false} MovesKeepUnopened(h: Hall, move: Move)
    requires Unopened(h)
    ensures Unopened(Do(h, move)) && |h.world.episodes| <= |Do(h, move).world.episodes|
  {
    hide PresenceOf, OpenBy, Presence;
  }

  lemma {:induction false} NoticesOfMove(h: Hall, move: Move, id: EpisodeId)
    requires Unopened(h) && id < |Do(h, move).world.episodes|
    ensures var t := Do(h, move);
            var lost := if move == Drop(Tell(id)) && Tell(id) in h.pending then 1 else 0;
            t.world.episodes[id].notices + t.pending[Tell(id)] + lost ==
            if id < |h.world.episodes| then h.world.episodes[id].notices + h.pending[Tell(id)] else 1
  {
    MovesKeepUnopened(h, move);
  }

  /** Of every episode, however the sweepers interleave, the notice has been given once,
      or is still to be given, or was lost with its sweeper: never twice, and exactly once
      when it is neither pending nor lost. */
  lemma {:induction false} ToldPendingOrLost(h: Hall, moves: seq<Move>, id: EpisodeId)
    requires h.pending == multiset{} && h.world.episodes == []
    ensures Unopened(Play(h, moves))
    ensures var t := Play(h, moves);
            if id < |t.world.episodes| then t.world.episodes[id].notices + t.pending[Tell(id)] + Lost(h, moves, id) == 1
            else Lost(h, moves, id) == 0
  {
    if moves != [] {
      var before := Play(h, moves[..|moves| - 1]);
      ToldPendingOrLost(h, moves[..|moves| - 1], id);
      MovesKeepUnopened(before, moves[|moves| - 1]);
      if id < |Play(h, moves).world.episodes| {
        NoticesOfMove(before, moves[|moves| - 1], id);
      }
    }
  }

  lemma {:induction false} DarkIsSeen(w: World, org: OrgId)
    requires Silent(w, org) && !HasOpen(w.episodes, org)
    ensures Decided(w, org) == multiset{Open(PresenceOf(w.agents, org, w.now))}
  {
    OpenByIsOpen(w.episodes);
    BeatenMeansAgents(w.agents, org);
    if PresenceOf(w.agents, org, w.now).live > 0 {
      LiveMeansRecent(w.agents, org, w.now);
    }
  }

  /** Two sweepers that have both read an org as dark open two episodes of one outage, and
      its managers are told of both. */
  lemma {:induction false} TwoSweepersTellTwice(w: World, org: OrgId)
    requires Silent(w, org) && !HasOpen(w.episodes, org)
    ensures var row, n := PresenceOf(w.agents, org, w.now), |w.episodes|;
            var t := Play(Hall(w, multiset{}),
              [See(org), See(org), Write(Open(row)), Write(Tell(n)), Write(Open(row)), Write(Tell(n + 1))]).world;
            |t.episodes| == n + 2 && !OneOpen(t.episodes, org) &&
            forall k :: n <= k < n + 2 ==> OpenFor(t.episodes[k], org) && t.episodes[k].notices == 1
  {
    hide Silent, HasOpen, Decided, AgentsOf, LiveOf, Newest, OneOpen, Play, Do;
    var row, n := PresenceOf(w.agents, org, w.now), |w.episodes|;
    var both := Hall(w, multiset{Open(row), Open(row)});
    PlaySix(Hall(w, multiset{}), See(org), See(org),
            Write(Open(row)), Write(Tell(n)), Write(Open(row)), Write(Tell(n + 1)));
    BothSee(w, org);
    OpenedAndTold(both, row);
    var once := Do(Do(both, Write(Open(row))), Write(Tell(n)));
    OpenedAndTold(once, row);
    TwoOpen(Do(Do(once, Write(Open(row))), Write(Tell(n + 1))).world.episodes, org, n);
  }

  lemma {:induction false} BothSee(w: World, org: OrgId)
    requires Silent(w, org) && !HasOpen(w.episodes, org)
    ensures var row := PresenceOf(w.agents, org, w.now);
            Do(Do(Hall(w, multiset{}), See(org)), See(org)) == Hall(w, multiset{Open(row), Open(row)})
  {
    DarkIsSeen(w, org);
    hide Silent, HasOpen, Decided;
  }

  lemma {:induction false} PlaySix(h: Hall, a: Move, b: Move, c: Move, d: Move, e: Move, f: Move)
    ensures Play(h, [a, b, c, d, e, f]) == Do(Do(Do(Do(Do(Do(h, a), b), c), d), e), f)
  {
    hide Do;
    var moves := [a, b, c, d, e, f];
    assert moves[..6] == moves && moves[..5] == [a, b, c, d, e] && moves[..4] == [a, b, c, d] &&
           moves[..3] == [a, b, c] && moves[..2] == [a, b] && moves[..1] == [a] && moves[..0] == [];
    for k := 0 to 6
      invariant k >= 1 ==> Play(h, moves[..1]) == Do(h, a)
      invariant k >= 2 ==> Play(h, moves[..2]) == Do(Do(h, a), b)
      invariant k >= 3 ==> Play(h, moves[..3]) == Do(Do(Do(h, a), b), c)
      invariant k >= 4 ==> Play(h, moves[..4]) == Do(Do(Do(Do(h, a), b), c), d)
      invariant k >= 5 ==> Play(h, moves[..5]) == Do(Do(Do(Do(Do(h, a), b), c), d), e)
      invariant k >= 6 ==> Play(h, moves[..6]) == Do(Do(Do(Do(Do(Do(h, a), b), c), d), e), f)
    {
      PlayNext(h, moves, k);
    }
  }

  lemma {:induction false} TwoOpen(episodes: seq<Episode>, org: OrgId, n: nat)
    requires n + 1 < |episodes| && OpenFor(episodes[n], org) && OpenFor(episodes[n + 1], org)
    ensures !OneOpen(episodes, org)
  {
  }

  lemma {:induction false} OpenedAndTold(h: Hall, row: OrgPresence)
    requires Open(row) in h.pending && forall id :: Tell(id) !in h.pending
    ensures var n := |h.world.episodes|;
            var t := Do(Do(h, Write(Open(row))), Write(Tell(n)));
            t.pending == h.pending - multiset{Open(row)} &&
            t.world.episodes == h.world.episodes + [Episode(row.org, row.lastSeen.GetOr(h.world.now), None, 1)] &&
            t.world.now == h.world.now
  {
    var once := Do(h, Write(Open(row)));
    assert once.pending - multiset{Tell(|h.world.episodes|)} == h.pending - multiset{Open(row)};
  }

  lemma {:induction false} PlayNext(h: Hall, moves: seq<Move>, k: nat)
    requires k < |moves|
    ensures Play(h, moves[..k + 1]) == Do(Play(h, moves[..k]), moves[k])
  {
    assert moves[..k + 1][..k] == moves[..k];
  }
}

/** The bounded repair ladder of one agent slot, and the sweep that climbs it. */
module Repair {
  import opened Runs

  datatype Rung = Restart | ReissueToken | Update

  const LADDER: seq<Rung> := [Restart, ReissueToken, Update]
  const COOLDOWN: Time := 15 * MINUTE

  datatype Service = Up | Down | Idle | Unclear

  type SlotId = nat
  type HostId = nat

  /** The repair columns of an `agent_slots` row. */
  datatype Slot = Slot(host: HostId, service: Service, attempts: nat, needsAttention: bool, lastAt: Option<Time>)

  /** `next_auto_repair_action` */
  function NextAction(attempts: nat): Option<Rung> {
    if attempts < |LADDER| then Some(LADDER[attempts]) else None
  }

  /** The slot's own part of `slots_due_for_repair`. */
  predicate Due(slot: Slot, now: Time) {
    (slot.service.Down? || slot.service.Idle?) && !slot.needsAttention &&
    (slot.lastAt.None? || slot.lastAt.value < now - COOLDOWN)
  }

  /** `_now()`: the clock as it is stored, in whole seconds. */
  function WholeSecond(now: Time): Time {
    now - now % SECOND
  }

  /** What can happen to a slot: a sweep that found it due (and its host free or not),
      or a probe. A sweep that did not list the slot does nothing to it. */
  datatype Event = Swept(now: Time, hostFree: bool) | Probed(service: Service)

  predicate Launches(slot: Slot, event: Event) {
    event.Swept? && Due(slot, event.now) && event.hostFree && NextAction(slot.attempts).Some?
  }

  function After(slot: Slot, event: Event): Slot {
    match event
    case Swept(now, hostFree) =>
      if !Due(slot, now) then slot
      else if NextAction(slot.attempts).None? then slot.(needsAttention := true)
      else if !hostFree then slot
      else slot.(attempts := slot.attempts + 1, lastAt := Some(WholeSecond(now)))
    case Probed(service) =>
      if service.Up? then slot.(service := service, attempts := 0, needsAttention := false)
      else slot.(service := service)
  }

  function Live(slot: Slot, events: seq<Event>): Slot {
    if events == [] then slot
    else After(Live(slot, events[..|events| - 1]), events[|events| - 1])
  }

  datatype Launch = Launch(rung: Rung, at: Time)

  /** The repair jobs launched for the slot since a probe last saw it up. */
  function Episode(slot: Slot, events: seq<Event>): seq<Launch> {
    if events == [] then []
    else
      var before := Live(slot, events[..|events| - 1]);
      var event := events[|events| - 1];
      var jobs := Episode(slot, events[..|events| - 1]);
      if event.Probed? && event.service.Up? then []
      else if Launches(before, event) then jobs + [Launch(NextAction(before.attempts).value, event.now)]
      else jobs
  }

  /** The rungs climbed are the first ones of the ladder, in order, and each launch
      is more than the cooldown after the recorded time of the one before. */
  ghost predicate ClimbsTheLadder(jobs: seq<Launch>) {
    |jobs| <= 3 &&
    (forall k :: 0 <= k < |jobs| ==> jobs[k].rung == [Restart, ReissueToken, Update][k]) &&
    (forall k :: 0 < k < |jobs| ==> jobs[k].at - WholeSecond(jobs[k - 1].at) > 15 * MINUTE)
  }

  predicate Fresh(slot: Slot) {
    slot.attempts == 0 && !slot.needsAttention
  }

  ghost predicate Tracks(slot: Slot, jobs: seq<Launch>) {
    slot.attempts == |jobs| &&
    (jobs != [] ==> slot.lastAt == Some(WholeSecond(jobs[|jobs| - 1].at))) &&
    (slot.needsAttention ==> slot.attempts == |LADDER|)
  }

  lemma {:induction false} RepairIsBounded(slot: Slot, events: seq<Event>)
    requires Fresh(slot)
    ensures ClimbsTheLadder(Episode(slot, events))
    ensures Tracks(Live(slot, events), Episode(slot, events))
  {
    if events != [] {
      RepairIsBounded(slot, events[..|events| - 1]);
    }
  }

  /** After the third rung the next sweep that finds the slot flags it, and nothing is
      launched again before a probe sees it up. */
  lemma {:induction false} ThenAHumanIsCalled(slot: Slot, events: seq<Event>, later: seq<Event>)
    requires Fresh(slot) && |Episode(slot, events)| == |LADDER|
    requires forall k :: 0 <= k < |later| ==> !(later[k].Probed? && later[k].service.Up?)
    ensures Episode(slot, events + later) == Episode(slot, events)
    ensures forall now, hostFree :: Due(Live(slot, events + later), now) ==>
              After(Live(slot, events + later), Swept(now, hostFree)).needsAttention
  {
    if later == [] {
      assert events + later == events;
      RepairIsBounded(slot, events);
    } else {
      var fewer := later[..|later| - 1];
      ThenAHumanIsCalled(slot, events, fewer);
      var all := events + later;
      assert all[..|all| - 1] == events + fewer;
      RepairIsBounded(slot, events + fewer);
      RepairIsBounded(slot, all);
    }
  }

  /** Two launches of an episode can come up to a second sooner than fifteen minutes
      apart, because the first one's time is stored without its fraction. */
  lemma {:induction false} LaunchesAreAlmostFifteenMinutesApart(slot: Slot, events: seq<Event>, k: nat)
    requires Fresh(slot) && 0 < k < |Episode(slot, events)|
    ensures Episode(slot, events)[k].at - Episode(slot, events)[k - 1].at > 899 * SECOND
  {
    RepairIsBounded(slot, events);
  }

  /** It can be short of fifteen minutes: after a launch 0.9 s past a whole second, the
      next may follow 899.2 s later. */
  lemma {:induction false} EarlyLaunch(slot: Slot)
    requires Fresh(slot) && slot.service.Down? && slot.lastAt.None?
    ensures var first := SECOND * 9 / 10;
            var second := COOLDOWN + SECOND / 10;
            var jobs := Episode(slot, [Swept(first, true), Swept(second, true)]);
            |jobs| == 2 && jobs[1].at - jobs[0].at < COOLDOWN
  {
    var first := SECOND * 9 / 10;
    var events := [Swept(first, true), Swept(COOLDOWN + SECOND / 10, true)];
    var one := [Swept(first, true)];
    assert one[..0] == [] && events[..1] == one;
    assert Live(slot, one) == After(slot, Swept(first, true));
    assert Episode(slot, one) == [Launch(Restart, first)];
    assert WholeSecond(first) == 0;
    assert Episode(slot, events) == Episode(slot, one) + [Launch(ReissueToken, events[1].now)];
  }

  /** After a launch the slot stays off the list for fifteen minutes, whenever the next
      sweep comes, exactly when the launch fell on a whole second. */
  lemma {:induction false} CooldownIsKeptIff(slot: Slot, at: Time)
    requires Launches(slot, Swept(at, true))
    ensures (forall now :: Due(After(slot, Swept(at, true)), now) ==> now - at > COOLDOWN) <==> at % SECOND == 0
  {
    var launched := After(slot, Swept(at, true));
    if at % SECOND != 0 {
      var early := WholeSecond(at) + COOLDOWN + 1;
      assert Due(launched, early) && early - at <= COOLDOWN;
    }
  }

  /** A slot that is down or idle, was not given up on and was not touched for fifteen
      minutes gets its next rung if its host is free: a restart, a new token, an update,
      and then a person. Any other sweep leaves it alone. */
  lemma {:induction false} SweepWrites(slot: Slot, now: Time, hostFree: bool)
    ensures var t := After(slot, Swept(now, hostFree));
            var due := (slot.service == Down || slot.service == Idle) && slot.needsAttention == false &&
                       (slot.lastAt == None || now - slot.lastAt.value > 900_000_000);
            if due && slot.attempts > 2 then t == slot.(needsAttention := true)
            else if due && hostFree then
              t == slot.(attempts := slot.attempts + 1, lastAt := Some(now - now % 1_000_000)) &&
              NextAction(slot.attempts) ==
                Some(if slot.attempts == 0 then Restart else if slot.attempts == 1 then ReissueToken else Update)
            else t == slot
  {
  }

  /** Only a probe that sees the slot up starts the ladder over. */
  lemma {:induction false} ProbeWrites(slot: Slot, service: Service)
    ensures After(slot, Probed(service)) ==
            if service == Up then slot.(service := Up, attempts := 0, needsAttention := false)
            else slot.(service := service)
  {
  }

  // ---- the sweep ----------------------------------------------------------

  /** The hosts of some slots. */
  function HostsOf(slots: map<SlotId, Slot>, ids: set<SlotId>): set<HostId> {
    set id | id in ids && id in slots :: slots[id].host
  }

  lemma {:induction false} OneMoreHost(slots: map<SlotId, Slot>, ids: set<SlotId>, id: SlotId)
    requires id in slots
    ensures HostsOf(slots, ids + {id}) == HostsOf(slots, ids) + {slots[id].host}
  {
  }

  /** A sweep that has visited some slots: each of them lived through it, each job is its
      slot's next rung on a host of its own, and a slot with a rung left has a busy host. */
  ghost predicate Climbed(was: map<SlotId, Slot>, slots: map<SlotId, Slot>, visited: seq<SlotId>, now: Time,
      jobs: map<SlotId, Rung>, busy: set<HostId>)
  {
    slots.Keys == was.Keys &&
    (forall id :: id in was ==>
      slots[id] == if id in visited then After(was[id], Swept(now, id in jobs)) else was[id]) &&
    (forall id :: id in jobs ==>
      id in visited && id in was && NextAction(was[id].attempts) == Some(jobs[id]) && was[id].host in busy) &&
    (forall a, b :: a in jobs && b in jobs && a != b ==> was[a].host != was[b].host) &&
    forall id :: id in visited && id in was && was[id].attempts < 3 ==> was[id].host in busy
  }

  lemma {:induction false} NoneClimbed(slots: map<SlotId, Slot>, now: Time, busy: set<HostId>)
    ensures Climbed(slots, slots, [], now, map[], busy)
    ensures busy == busy + HostsOf(slots, {})
  {
  }

  lemma {:induction false} WhatWasClimbed(was: map<SlotId, Slot>, slots: map<SlotId, Slot>, visited: seq<SlotId>,
      now: Time, jobs: map<SlotId, Rung>, busy: set<HostId>)
    requires Climbed(was, slots, visited, now, jobs, busy)
    ensures slots.Keys == was.Keys
    ensures forall id :: id in slots ==>
              slots[id] == if id in visited then After(was[id], Swept(now, id in jobs)) else was[id]
    ensures forall id :: id in jobs ==> id in visited && id in was && NextAction(was[id].attempts) == Some(jobs[id])
    ensures forall a, b :: a in jobs && b in jobs && a != b ==> was[a].host != was[b].host
    ensures forall id :: id in visited && id in was && was[id].attempts < 3 ==> was[id].host in busy
  {
    hide After, NextAction;
  }

  lemma {:induction false} ClimbedNotYet(was: map<SlotId, Slot>, slots: map<SlotId, Slot>, visited: seq<SlotId>,
      now: Time, jobs: map<SlotId, Rung>, busy: set<HostId>, id: SlotId)
    requires Climbed(was, slots, visited, now, jobs, busy) && id in was && id !in visited
    ensures id in slots && slots[id] == was[id]
  {
  }

  lemma {:induction false} OneMoreClimb(was: map<SlotId, Slot>, slots: map<SlotId, Slot>, slots': map<SlotId, Slot>,
      visited: seq<SlotId>, now: Time, jobs: map<SlotId, Rung>, busy: set<HostId>, id: SlotId, rung: Option<Rung>)
    requires Climbed(was, slots, visited, now, jobs, busy) && id in was && id !in visited
    requires slots' == slots[id := After(was[id], Swept(now, rung.Some?))]
    requires rung.Some? ==> rung == NextAction(was[id].attempts) && was[id].host !in busy
    requires rung.None? ==> was[id].attempts >= 3 || was[id].host in busy
    ensures Climbed(was, slots', visited + [id], now, if rung.Some? then jobs[id := rung.value] else jobs,
                    if rung.Some? then busy + {was[id].host} else busy)
  {
    hide After, NextAction;
  }

  class Repairer {
    var slots: map<SlotId, Slot>
    /** Hosts with a queued or running job: one job per host. */
    var busy: set<HostId>

    constructor (slots: map<SlotId, Slot>, busy: set<HostId>)
      ensures this.slots == slots && this.busy == busy
    {
      this.slots, this.busy := slots, busy;
    }

    /** `create_job`: refused while the host has one. */
    method CreateJob(host: HostId) returns (created: bool)
      modifies this`busy
      ensures created <==> host !in old(busy)
      ensures busy == old(busy) + {host}
    {
      created := host !in busy;
      busy := busy + {host};
    }

    /** One listed slot: its next rung, if it has one and its host is free. */
    method Climb(id: SlotId, now: Time) returns (rung: Option<Rung>)
      requires id in slots && Due(slots[id], now)
      modifies this
      ensures slots == old(slots)[id := After(old(slots)[id], Swept(now, rung.Some?))]
      ensures busy == if rung.Some? then old(busy) + {old(slots)[id].host} else old(busy)
      ensures rung.Some? ==> rung == NextAction(old(slots)[id].attempts) && old(slots)[id].host !in old(busy)
      ensures rung.None? ==> old(slots)[id].attempts >= 3 || old(slots)[id].host in old(busy)
    {
      var slot := slots[id];
      rung := NextAction(slot.attempts);
      if rung.None? {
        slots := slots[id := slot.(needsAttention := true)];
      } else {
        var created := CreateJob(slot.host);
        if created {
          slots := slots[id := slot.(attempts := slot.attempts + 1, lastAt := Some(WholeSecond(now)))];
        } else {
          rung := None;
        }
      }
    }

    /** `auto_repair_sweep` over the rows the query returned: each listed slot lives
        through a sweep event, and no host is given two jobs. */
    method AutoRepairSweep(due: seq<SlotId>, now: Time) returns (jobs: map<SlotId, Rung>)
      requires forall k :: 0 <= k < |due| ==> due[k] in slots && Due(slots[due[k]], now) && slots[due[k]].host !in busy
      requires forall j, k :: 0 <= j < k < |due| ==> due[j] != due[k]
      modifies this
      ensures slots.Keys == old(slots).Keys
      ensures forall id :: id in slots ==>
                slots[id] == if id in due then After(old(slots)[id], Swept(now, id in jobs)) else old(slots)[id]
      ensures forall id :: id in jobs ==> id in due && NextAction(old(slots)[id].attempts) == Some(jobs[id])
      ensures forall a, b :: a in jobs && b in jobs && a != b ==> old(slots)[a].host != old(slots)[b].host
      ensures forall id :: id in due && old(slots)[id].attempts < 3 ==> old(slots)[id].host in busy
      ensures busy == old(busy) + HostsOf(old(slots), jobs.Keys)
    {
      hide *;
      jobs := map[];
      NoneClimbed(slots, now, busy);
      assert jobs.Keys == {};
      for n := 0 to |due|
        invariant busy == old(busy) + HostsOf(old(slots), jobs.Keys)
        invariant Climbed(old(slots), slots, due[..n], now, jobs, busy)
      {
        var id := due[n];
        ghost var slots', busy', jobs' := slots, busy, jobs;
        assert id !in due[..n];
        ClimbedNotYet(old(slots), slots, due[..n], now, jobs, busy, id);
        var rung := Climb(id, now);
        if rung.Some? {
          OneMoreHost(old(slots), jobs.Keys, id);
          assert jobs[id := rung.value].Keys == jobs.Keys + {id};
          jobs := jobs[id := rung.value];
        }
        OneMoreClimb(old(slots), slots', slots, due[..n], now, jobs', busy', id, rung);
        assert due[..n + 1] == due[..n] + [id];
      }
      assert due[..|due|] == due;
      WhatWasClimbed(old(slots), slots, due, now, jobs, busy);
    }

    /** The probe writes what it saw of one slot. */
    method ProbeSlot(id: SlotId, service: Service)
      requires id in slots
      modifies this`slots
      ensures slots == old(slots)[id := After(old(slots)[id], Probed(service))]
    {
      var slot := slots[id].(service := service);
      if service.Up? && (slot.attempts != 0 || slot.needsAttention) {
        slot := slot.(attempts := 0, needsAttention := false);
      }
      slots := slots[id := slot];
    }
  }
}

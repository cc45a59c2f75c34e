/** The simulation aggregate as the program holds it: one object whose fields a tick and the commands
    update in place. Every method is proved to leave exactly the state its specification on values
    describes. */
module Simulations {
  import opened Base
  import opened Randomness
  import opened Sorting
  import opened Portals
  import opened Labs
  import opened Observers
  import opened States
  import opened Commands
  import opened Ticks
  import opened Invariants
  import opened Stages
  import opened Events
  import opened EventDerivation
  import Journals

  /** What a tick reports. */
  datatype TickResult = TickResult(changed: bool, spawnedID: Option<int>, events: seq<Draft>)

  // ---------------------------------------------------------------- factories

  /** Draws a natural portal; the order of the draws is part of its contract. */
  method DrawNaturalPortal(id: int, plane: int, slot: int, now: Time, cfg: Config, rnd: Random) returns (p: Portal)
    modifies rnd
    ensures Drawn(p, rnd.pos) == NewNaturalPortal(id, plane, slot, now, cfg, rnd.tape, old(rnd.pos))
  {
    var ttlSeconds := rnd.IntInclusive(cfg.naturalTTLMin / SECOND, cfg.naturalTTLMax / SECOND);
    var ttl := ttlSeconds * SECOND;
    var energy := rnd.FloatRange(cfg.portalEnergyMin, cfg.portalEnergyMax);
    var decay := rnd.FloatRange(cfg.portalDecayMin, cfg.portalDecayMax);
    var scheduledClose := now + ttl;
    var stability, hidden := Stable, None;
    var chance := rnd.FloatRange(0.0, 1.0);
    if chance < cfg.unstableProbability {
      stability := Unstable;
      var lo, hi := now + cfg.instabilityMinLifetime, scheduledClose - cfg.instabilityCloseMargin;
      var offset := rnd.IntInclusive(0, hi - lo);
      hidden := Some(lo + offset);
    }
    var creatures := rnd.IntInclusive(0, MaxCreaturesForTTL(ttl, cfg));
    p := Portal(id, slot, Natural, plane, energy, now, decay, stability, hidden, now, scheduledClose, creatures,
                FlowNone, None, Open, NotTerminated, None, now, now);
  }

  method DrawExtractionPortal(id: int, plane: int, slot: int, now: Time, cfg: Config, rnd: Random) returns (p: Portal)
    modifies rnd
    ensures Drawn(p, rnd.pos) == NewExtractionPortal(id, plane, slot, now, cfg, rnd.tape, old(rnd.pos))
  {
    var ttlSeconds := rnd.IntInclusive(cfg.extractionTTLMin / SECOND, cfg.extractionTTLMax / SECOND);
    var energy := rnd.FloatRange(cfg.extractionEnergyMin, cfg.extractionEnergyMax);
    var decay := rnd.FloatRange(cfg.portalDecayMin, cfg.portalDecayMax);
    p := Portal(id, slot, Extraction, plane, energy, now, decay, Stable, None, now, now + ttlSeconds * SECOND, 0,
                FlowInbound, None, Open, NotTerminated, None, now, now);
  }

  method DrawSpawn(now: Time, cfg: Config, rnd: Random) returns (spawn: Spawn)
    modifies rnd
    ensures Drawn(spawn, rnd.pos) == NewSpawn(now, cfg, rnd.tape, old(rnd.pos))
  {
    var delay := rnd.IntInclusive(cfg.spawnDelayMin / SECOND, cfg.spawnDelayMax / SECOND);
    spawn := Spawn(Some(now), Some(now + delay * SECOND), false);
  }

  // ---------------------------------------------------------------- transits

  /** Starts an admitted return and draws its duration; the caller installs the updated portal and roster. */
  method RecallPrepared(p: Portal, os: seq<Observer>, now: Time, confirm: bool, rnd: Random, cfg: Config) returns (r: Result<Started>)
    modifies rnd
    ensures r == PreparedRecall(p, os, now, confirm, rnd.tape, old(rnd.pos), cfg)
    ensures rnd.pos == if r.Ok? then r.value.pos else old(rnd.pos)
  {
    if p.status != Open {
      return Err(PortalNotOpen);
    }
    if p.kind == Extraction && p.syncedAt.None? {
      return Err(ExtractionSynchronizing);
    }
    if p.RiskLevel(now, cfg) == Some(Critical) {
      return Err(PortalCriticalRisk);
    }
    if p.flow == FlowOutbound {
      return Err(PortalDirectionConflict);
    }
    if p.CreaturesInside(now, cfg) > 0 {
      return Err(PortalCreaturesPresent);
    }
    var busy := FindActiveTransit(os, p.id, now);
    if busy.Err? {
      return Err(busy.error);
    }
    if busy.value.Some? {
      return Err(PortalBusy);
    }
    var waiting := FindLongestWaiting(os, p.plane);
    if waiting.Err? {
      return Err(waiting.error);
    }
    if waiting.value.None? {
      return Err(NoWaitingObserver);
    }
    if p.stability == Unstable && !confirm {
      return Err(ConfirmationRequired);
    }
    var k := waiting.value.value;
    var seconds := rnd.IntInclusive(cfg.observerTransitMin / SECOND, cfg.observerTransitMax / SECOND);
    var o := os[k].StartReturning(now, p.id, seconds);
    var portal := if p.flow == FlowNone then p.(flow := FlowInbound, updatedAt := now) else p;
    r := Ok(Started(k, portal, os[k := o.value], rnd.pos));
  }

  /** One synchronization on a copy of the portal and of the roster. */
  method SynchronizeCopies(p: Portal, os: seq<Observer>, now: Time, rnd: Random, cfg: Config) returns (r: Result<Synced>)
    modifies rnd
    ensures r == Synchronize(p, os, now, rnd.tape, old(rnd.pos), cfg)
    ensures r.Ok? ==> rnd.pos == r.value.pos
  {
    if p.kind != Extraction {
      return Err(ExtractionInvariant);
    }
    if p.IsTerminal() {
      return Ok(Synced(p, os, rnd.pos));
    }
    var syncAt := p.openedAt + cfg.extractionSync;
    if p.syncedAt.Some? {
      return if p.syncedAt.value != syncAt then Err(ExtractionInvariant) else Ok(Synced(p, os, rnd.pos));
    }
    if now < syncAt {
      return Ok(Synced(p, os, rnd.pos));
    }
    var next := p.(syncedAt := Some(syncAt), updatedAt := syncAt);
    var waiting := FindLongestWaiting(os, p.plane);
    if waiting.Err? {
      return Err(waiting.error);
    }
    var recalled := RecallPrepared(next, os, syncAt, false, rnd, cfg);
    match recalled {
      case Err(e) => r := if e == NoWaitingObserver then Ok(Synced(next, os, rnd.pos)) else Err(e);
      case Ok(started) => r := Ok(Synced(started.portal, started.observers, started.pos));
    }
  }

  /** Starts an admitted dispatch and draws its duration. */
  method SendPrepared(p: Portal, plane: Plane, os: seq<Observer>, now: Time, confirm: bool, rnd: Random, cfg: Config)
    returns (r: Result<Started>)
    modifies rnd
    ensures r == Send(p, plane, os, now, confirm, rnd.tape, old(rnd.pos), cfg)
    ensures rnd.pos == if r.Ok? then r.value.pos else old(rnd.pos)
  {
    var sound := ValidateRoster(os, now);
    if plane.id != p.plane || !sound {
      return Err(ObserverInvariant);
    }
    if p.status != Open {
      return Err(PortalNotOpen);
    }
    if p.RiskLevel(now, cfg) == Some(Critical) {
      return Err(PortalCriticalRisk);
    }
    if p.flow == FlowInbound {
      return Err(PortalDirectionConflict);
    }
    if p.CreaturesInside(now, cfg) > 0 {
      return Err(PortalCreaturesPresent);
    }
    var busy := FindActiveTransit(os, p.id, now);
    if busy.Err? {
      return Err(busy.error);
    }
    if busy.value.Some? {
      return Err(PortalBusy);
    }
    var available := FindAvailable(os);
    if available.None? {
      return Err(NoAvailableObserver);
    }
    if p.stability == Unstable && !confirm {
      return Err(ConfirmationRequired);
    }
    var k := available.value;
    var seconds := rnd.IntInclusive(cfg.observerTransitMin / SECOND, cfg.observerTransitMax / SECOND);
    var o := os[k].StartOutbound(now, p.id, seconds);
    var portal := if p.flow == FlowNone then p.(flow := FlowOutbound, updatedAt := now) else p;
    r := Ok(Started(k, portal, os[k := o.value], rnd.pos));
  }

  /** The indices still to be visited. */
  function Rest(order: seq<nat>, i: nat): (r: seq<nat>)
    requires i <= |order|
    ensures forall x :: x in r ==> x in order
  {
    order[i..]
  }

  class Simulation {
    var lab: Lab
    var portals: seq<Portal>
    var planes: seq<Plane>
    var observers: seq<Observer>
    var nextPortalID: int
    var spawn: Spawn
    var lastTickAt: Option<Time>

    function Value(): State
      reads this
    {
      State(lab, portals, planes, observers, nextPortalID, spawn, lastTickAt)
    }

    constructor (s: State)
      ensures Value() == s
    {
      lab, portals, planes, observers := s.lab, s.portals, s.planes, s.observers;
      nextPortalID, spawn, lastTickAt := s.nextPortalID, s.spawn, s.lastTickAt;
    }

    // -------------------------------------------------------------- portal stage

    /** Couples the ending of one portal, if it has come, to the emergency state of the laboratory. */
    method ResolvePortalWithEmergency(k: nat, now: Time, cfg: Config) returns (error: Option<Error>)
      requires k < |portals|
      modifies this`lab, this`portals
      ensures match Couple(old(lab), old(portals[k]), now, cfg)
              case Err(e) => error == Some(e) && lab == old(lab) && portals == old(portals)
              case Ok((l, p)) => error == None && lab == l && portals == old(portals)[k := p]
    {
      var check := lab.PrepareSpend(now, 0, cfg);
      if check.Err? {
        return Some(check.error);
      }
      var next := portals[k].ResolveLifecycle(now);
      if next == portals[k] {
        assert portals == portals[k := next];
        return None;
      }
      if next.status == Collapsed {
        var nextLab := lab.ActivateOverride(next.closedAt.value, cfg);
        if nextLab.Err? {
          return Some(nextLab.error);
        }
        lab := nextLab.value;
      }
      portals := portals[k := next];
      error := None;
    }

    method GatherTransitions(now: Time) returns (ts: seq<LifecycleTransition>)
      ensures ts == TransitionsUpTo(portals, |portals|, now)
    {
      ts := [];
      for i := 0 to |portals|
        invariant ts == TransitionsUpTo(portals, i, now)
      {
        var candidate := portals[i].ResolveLifecycle(now);
        if candidate == portals[i] {
          continue;
        }
        ts := ts + [LifecycleTransition(i, candidate.id, candidate.closedAt.value)];
      }
    }

    method ResolveInOrder(ts: seq<LifecycleTransition>, now: Time, cfg: Config) returns (error: Option<Error>)
      requires forall i :: 0 <= i < |ts| ==> ts[i].index < |portals|
      modifies this`lab, this`portals
      ensures match CoupleAll(old(lab), old(portals), ts, now, cfg)
              case Err(e) => error == Some(e)
              case Ok(done) => error == None && lab == done.lab && portals == done.portals
    {
      ghost var ps, ledger := portals, lab;
      for i := 0 to |ts|
        invariant |portals| == |ps| && CoupleAll(ledger, ps, ts[..i], now, cfg) == Ok(Coupled(lab, portals))
      {
        CoupleStep(ledger, ps, ts, i, now, cfg);
        var failed := ResolvePortalWithEmergency(ts[i].index, now, cfg);
        if failed.Some? {
          CoupleErrorSticks(ledger, ps, ts, i + 1, now, cfg);
          return failed;
        }
      }
      assert ts[..|ts|] == ts;
      error := None;
    }

    /** Ends portals in the order of their endings, so the last collapse decides the ledger. */
    method ResolvePortalStage(now: Time, cfg: Config) returns (error: Option<Error>)
      requires DistinctPortalIds(portals) && lab.ValidBaseline(now, cfg)
      modifies this`lab, this`portals
      ensures error == if old(UnbookableCollapse(lab, portals, now)) then Some(LabEnergyInvariant) else None
      ensures error == None ==>
                && portals == PortalsAfter(old(portals), now)
                && lab == LabAfter(old(lab), old(portals), now, cfg)
    {
      CouplingIsThePortalStage(lab, portals, now, cfg);
      var gathered := GatherTransitions(now);
      error := ResolveInOrder(Sort(gathered, EarlierTransition()), now, cfg);
    }

    // -------------------------------------------------------------- observer stage

    /** Resolves one observer against the plane and the portal its record names, both updated in place. */
    method ResolveObserver(k: nat, planeIndex: map<int, nat>, portalIndex: map<int, nat>, now: Time, cfg: Config)
      requires k < |observers| && ObserverPrepared(observers[k], planes, portals)
      requires forall id :: FindPlane(planes, id) == if id in planeIndex then Some(planeIndex[id]) else None
      requires forall id :: FindPortal(portals, id) == if id in portalIndex then Some(portalIndex[id]) else None
      modifies this`observers, this`planes
      ensures observers == old(observers)[k := ObserverAfter(old(observers[k]), portals, now, cfg)]
      ensures var o := old(observers[k]);
              if ReturnsHome(o, PortalOf(o, portals), now, cfg)
              then var j := PlaneFor(o, old(planes), portals);
                   j.Some? && o.endsAt.Some? && planes == old(planes)[j.value := old(planes)[j.value].ExploreAt(o.endsAt.value)]
              else planes == old(planes)
    {
      var o := observers[k];
      var j: Option<nat> := None;
      var plane: Option<Plane> := None;
      var portal: Option<Portal> := None;
      if o.plane.Some? {
        assert FindPlane(planes, o.plane.value).Some?;
        j := Some(planeIndex[o.plane.value]);
      }
      if o.portal.Some? {
        assert FindPortal(portals, o.portal.value).Some?;
        portal := Some(portals[portalIndex[o.portal.value]]);
        if j.None? {
          assert FindPlane(planes, portal.value.plane).Some?;
          j := Some(planeIndex[portal.value.plane]);
        }
      }
      assert j == PlaneFor(o, planes, portals) && portal == PortalOf(o, portals);
      if j.Some? {
        plane := Some(planes[j.value]);
      }
      var resolved := ResolveObserverLifecycle(o, plane, portal, now, cfg);
      var (o', plane') := resolved.value;
      if ReturnsHome(o, portal, now, cfg) {
        ReturnsFromItsPlane(o, planes, portals, now, cfg);
      }
      observers := observers[k := o'];
      if j.Some? {
        assert planes == planes[j.value := planes[j.value]];
        planes := planes[j.value := plane'.value];
      }
    }

    method IndexPlanesByID() returns (index: map<int, nat>)
      requires DistinctPlaneIds(planes)
      ensures forall id :: FindPlane(planes, id) == if id in index then Some(index[id]) else None
      ensures forall id :: id in index ==> index[id] < |planes| && planes[index[id]].id == id
    {
      index := map[];
      for i := 0 to |planes|
        invariant forall k :: 0 <= k < i ==> planes[k].id in index && index[planes[k].id] == k
        invariant forall id :: id in index ==> index[id] < i && planes[index[id]].id == id
      {
        index := index[planes[i].id := i];
      }
      forall id ensures FindPlane(planes, id) == if id in index then Some(index[id]) else None {
        if id in index {
          PlaneFoundAt(planes, index[id]);
        }
      }
    }

    method IndexPortalsByID() returns (index: map<int, nat>)
      requires DistinctPortalIds(portals)
      ensures forall id :: FindPortal(portals, id) == if id in index then Some(index[id]) else None
    {
      index := map[];
      for i := 0 to |portals|
        invariant forall k :: 0 <= k < i ==> portals[k].id in index && index[portals[k].id] == k
        invariant forall id :: id in index ==> index[id] < i && portals[index[id]].id == id
      {
        index := index[portals[i].id := i];
      }
      IndexFinds(portals, index);
    }

    /** One step of the walk over the roster; `os` and `where` are the lists it started from. */
    method VisitObserver(k: nat, initially: seq<Plane>, earliest: map<int, Time>, planeIndex: map<int, nat>, portalIndex: map<int, nat>,
                         now: Time, cfg: Config, ghost os: seq<Observer>, ghost done: seq<nat>)
      returns (later: map<int, Time>)
      requires Prepared(initially, portals, os) && k < |os| && k !in done
      requires forall id :: FindPlane(initially, id) == if id in planeIndex then Some(planeIndex[id]) else None
      requires forall id :: FindPortal(portals, id) == if id in portalIndex then Some(portalIndex[id]) else None
      requires RosterSettling(os, observers, portals, done, now, cfg)
      requires PlanesSettling(initially, planes, earliest)
      requires EarliestSeen(os, initially, portals, done, earliest, now, cfg)
      modifies this`observers, this`planes
      ensures RosterSettling(os, observers, portals, done + [k], now, cfg)
      ensures PlanesSettling(initially, planes, later)
      ensures EarliestSeen(os, initially, portals, done + [k], later, now, cfg)
    {
      var o := observers[k];
      assert o == os[k] && ObserverPrepared(o, initially, portals);
      PreparedIgnoresExploration(o, initially, planes, portals);
      SameIndex(initially, planes, planeIndex);
      RosterStep(os, observers, portals, done, k, now, cfg);
      ResolveObserver(k, planeIndex, portalIndex, now, cfg);
      later := earliest;
      if o.status == Returning && o.plane.Some? && o.endsAt.Some? && observers[k].status == Available {
        ReturnsFromItsPlane(o, initially, portals, now, cfg);
        var id, returnedAt := o.plane.value, o.endsAt.value;
        assert FindPlane(initially, id).Some?;
        if !initially[planeIndex[id]].explored && (id in earliest ==> returnedAt < earliest[id]) {
          later := earliest[id := returnedAt];
        }
      }
      EarliestStep(os, initially, portals, done, k, earliest, later, now, cfg);
    }

    /** Visits the observers in ID order, collecting the earliest return from each plane. */
    method ResolveRoster(planeIndex: map<int, nat>, portalIndex: map<int, nat>, now: Time, cfg: Config)
      returns (earliest: map<int, Time>)
      requires Prepared(planes, portals, observers)
      requires forall id :: FindPlane(planes, id) == if id in planeIndex then Some(planeIndex[id]) else None
      requires forall id :: FindPortal(portals, id) == if id in portalIndex then Some(portalIndex[id]) else None
      modifies this`observers, this`planes
      ensures observers == ObserversAfter(old(observers), portals, now, cfg)
      ensures PlanesSettling(old(planes), planes, earliest)
      ensures EarliestSeen(old(observers), old(planes), portals, RosterOrder(old(observers)), earliest, now, cfg)
    {
      ghost var os := observers;
      var initially := planes;
      var order := Sort(Indices(|observers|), ObserverBefore(observers));
      assert order == RosterOrder(os);
      RosterOrderVisitsAll(os);
      earliest := map[];
      for i := 0 to |order|
        invariant RosterSettling(os, observers, portals, order[..i], now, cfg)
        invariant PlanesSettling(initially, planes, earliest)
        invariant EarliestSeen(os, initially, portals, order[..i], earliest, now, cfg)
      {
        var k := order[i];
        assert k in order && k !in order[..i];
        assert order[..i + 1] == order[..i] + [k];
        earliest := VisitObserver(k, initially, earliest, planeIndex, portalIndex, now, cfg, os, order[..i]);
      }
      assert order[..|order|] == order;
      assert observers == ObserversAfter(os, portals, now, cfg);
    }

    /** Dates the planes of the recorded returns, in whatever order their map yields them. */
    method StampPlanes(earliest: map<int, Time>, planeIndex: map<int, nat>)
      requires forall id :: FindPlane(planes, id) == if id in planeIndex then Some(planeIndex[id]) else None
      requires DistinctPlaneIds(planes) && forall id :: id in earliest ==> id in planeIndex
      modifies this`planes
      ensures |planes| == |old(planes)|
      ensures forall j :: 0 <= j < |planes| ==> planes[j] == Stamp(old(planes)[j], earliest)
    {
      ghost var settled := planes;
      var remaining := earliest.Keys;
      while remaining != {}
        invariant remaining <= earliest.Keys && |planes| == |settled|
        invariant forall j :: 0 <= j < |planes| ==>
                    planes[j] == if settled[j].id in remaining then settled[j] else Stamp(settled[j], earliest)
        decreases |remaining|
      {
        HasMember(remaining);
        var id :| id in remaining;
        var j := planeIndex[id];
        assert FindPlane(settled, id) == Some(j);
        planes := planes[j := planes[j].(explored := true, exploredAt := Some(earliest[id]))];
        remaining := remaining - {id};
      }
    }

    /** Resolves every observer and dates each newly explored plane by the earliest return from it. */
    method ResolveObserverStage(now: Time, cfg: Config)
      requires Prepared(planes, portals, observers)
      modifies this`observers, this`planes
      ensures observers == ObserversAfter(old(observers), portals, now, cfg)
      ensures planes == PlanesAfter(old(planes), old(observers), portals, now, cfg)
    {
      ghost var os, where := observers, planes;
      var planeIndex := IndexPlanesByID();
      var portalIndex := IndexPortalsByID();
      var earliest := ResolveRoster(planeIndex, portalIndex, now, cfg);
      SameIndex(where, planes, planeIndex);
      ghost var settled := planes;
      assert forall id :: id in earliest ==> Unexplored(where, id);
      StampPlanes(earliest, planeIndex);
      RosterOrderVisitsAll(os);
      StampedPlanes(os, where, settled, portals, RosterOrder(os), earliest, planes, now, cfg);
    }

    // -------------------------------------------------------------- extraction stage

    /** Completes one extraction portal's synchronization on copies and installs them only on success. */
    method SynchronizePortal(k: nat, now: Time, rnd: Random, cfg: Config) returns (error: Option<Error>)
      requires k < |portals|
      modifies this`portals, this`observers, rnd
      ensures match Synchronize(old(portals[k]), old(observers), now, rnd.tape, old(rnd.pos), cfg)
              case Err(e) => error == Some(e) && portals == old(portals) && observers == old(observers)
              case Ok(r) =>
                error == None && portals == old(portals)[k := r.portal] && observers == r.observers && rnd.pos == r.pos
    {
      var done := SynchronizeCopies(portals[k], observers, now, rnd, cfg);
      match done {
        case Err(e) => error := Some(e);
        case Ok(r) =>
          portals, observers := portals[k := r.portal], r.observers;
          error := None;
      }
    }

    method GatherExtractionPortals() returns (indices: seq<nat>)
      ensures indices == ExtractionIndices(portals)
    {
      indices := [];
      for i := 0 to |portals|
        invariant indices == ExtractionIndices(portals[..i])
      {
        assert portals[..i + 1][..i] == portals[..i];
        if portals[i].kind == Extraction {
          indices := indices + [i];
        }
      }
      assert portals[..|portals|] == portals;
    }

    /** Synchronizes the extraction portals in ascending ID. */
    method ResolveExtractionStage(now: Time, rnd: Random, cfg: Config) returns (error: Option<Error>)
      modifies this`portals, this`observers, rnd
      ensures match SynchronizeAll(old(portals), old(observers), ExtractionOrder(old(portals)), now, rnd.tape, old(rnd.pos), cfg)
              case Err(e) => error == Some(e)
              case Ok(x) => error == None && portals == x.portals && observers == x.observers && rnd.pos == x.pos
    {
      ghost var ps, os, start := portals, observers, rnd.pos;
      var gathered := GatherExtractionPortals();
      var order := Sort(gathered, PortalBefore(portals));
      assert order == ExtractionOrder(ps);
      assert order[0..] == order;
      for i := 0 to |order|
        invariant |portals| == |ps|
        invariant SynchronizeAll(portals, observers, Rest(order, i), now, rnd.tape, rnd.pos, cfg)
                  == SynchronizeAll(ps, os, order, now, rnd.tape, start, cfg)
      {
        assert order[i] in order;
        assert order[i..][0] == order[i] && order[i..][1..] == order[i + 1..];
        var failed := SynchronizePortal(order[i], now, rnd, cfg);
        if failed.Some? {
          return failed;
        }
      }
      error := None;
    }

    // -------------------------------------------------------------- spawn stage

    /** Opens a natural portal in the slot, and schedules the next unless it was the last that fits. */
    method SpawnInto(slot: int, open: nat, now: Time, rnd: Random, cfg: Config) returns (id: int)
      requires |planes| > 0 && !spawn.paused && SpawnDue(spawn, now)
      requires open == CountOpen(portals) < cfg.maxActivePortals && FreeSlot(portals, cfg.maxActivePortals) == Some(slot)
      modifies this, rnd
      ensures NaturalSpawn(old(Value()), now, rnd.tape, old(rnd.pos), cfg) == Ok(Spawned(Value(), rnd.pos, Some(id)))
    {
      var j := rnd.IntInclusive(0, |planes| - 1);
      id := nextPortalID;
      var portal := DrawNaturalPortal(id, planes[j].id, slot, now, cfg, rnd);
      portals := portals + [portal];
      nextPortalID := nextPortalID + 1;
      if open + 1 >= cfg.maxActivePortals {
        spawn := PAUSED;
      } else {
        spawn := DrawSpawn(now, cfg, rnd);
      }
    }

    /** Pauses, schedules or spawns, depending on how many portals are open. */
    method ResolveNaturalSpawn(now: Time, rnd: Random, cfg: Config) returns (r: Result<Option<int>>)
      requires |planes| > 0
      modifies this, rnd
      ensures match NaturalSpawn(old(Value()), now, rnd.tape, old(rnd.pos), cfg)
              case Err(e) => r == Err(e)
              case Ok(sp) => r == Ok(sp.portalID) && Value() == sp.state && rnd.pos == sp.pos
    {
      var open := CountOpenPortals(portals);
      if open >= cfg.maxActivePortals {
        spawn := PAUSED;
        return Ok(None);
      }
      if spawn.paused {
        spawn := DrawSpawn(now, cfg, rnd);
        return Ok(None);
      }
      if !SpawnDue(spawn, now) {
        return Ok(None);
      }
      var slot := FirstFreeSlot(portals, cfg.maxActivePortals);
      if slot.None? {
        return Err(SimulationInvariant);
      }
      var id := SpawnInto(slot.value, open, now, rnd, cfg);
      r := Ok(Some(id));
    }

    // -------------------------------------------------------------- the tick

    /** The four stages in place, on an aggregate that has been validated. */
    method Stages(now: Time, rnd: Random, cfg: Config) returns (r: Result<Option<int>>)
      requires ValidState(Value(), now, cfg)
      modifies this, rnd
      ensures var before := old(Value());
              if UnbookableCollapse(before.lab, before.portals, now) then r == Err(LabEnergyInvariant)
              else match RunStages(before, now, rnd.tape, old(rnd.pos), cfg)
                case Err(e) => r == Err(e)
                case Ok(t) => r == Ok(t.spawnedID) && Value() == t.state && rnd.pos == t.pos
    {
      ghost var before := Value();
      ValidIsPrepared(before, now, cfg);
      var failed := ResolvePortalStage(now, cfg);
      if failed.Some? {
        return Err(failed.value);
      }
      ResolveObserverStage(now, cfg);
      assert Value() == MidTick(before, now, cfg);
      r := LaterStages(now, rnd, cfg);
    }

    method LaterStages(now: Time, rnd: Random, cfg: Config) returns (r: Result<Option<int>>)
      requires |planes| > 0
      modifies this, rnd
      ensures var mid := old(Value());
              match SynchronizeAll(mid.portals, mid.observers, ExtractionOrder(mid.portals), now, rnd.tape, old(rnd.pos), cfg)
              case Err(e) => r == Err(e)
              case Ok(x) =>
                match NaturalSpawn(mid.(portals := x.portals, observers := x.observers), now, rnd.tape, x.pos, cfg)
                case Err(e) => r == Err(e)
                case Ok(sp) => r == Ok(sp.portalID) && Value() == sp.state.(lastTickAt := Some(now)) && rnd.pos == sp.pos
    {
      var failed := ResolveExtractionStage(now, rnd, cfg);
      if failed.Some? {
        return Err(failed.value);
      }
      r := ResolveNaturalSpawn(now, rnd, cfg);
      if r.Ok? {
        lastTickAt := Some(now);
      }
    }

    /** Runs the stages on a copy, derives the log by comparing it with the original, and only then installs
        it: a failed tick changes nothing. */
    method ResolveTick(now: Time, rnd: Random, cfg: Config) returns (r: Result<TickResult>)
      modifies this, rnd
      ensures match Journals.ResolveTick(old(Value()), now, rnd.tape, old(rnd.pos), cfg)
              case Err(e) => r == Err(e) && Value() == old(Value())
              case Ok(j) =>
                r == Ok(TickResult(j.changed, j.spawnedID, j.events)) && Value() == j.state && rnd.pos == j.pos
    {
      var before := Value();
      var valid := ValidateState(before, now, cfg);
      if !valid {
        return Err(SimulationInvariant);
      }
      if lastTickAt == Some(now) {
        return Ok(TickResult(false, None, []));
      }
      var next := new Simulation(before);
      var spawned := next.Stages(now, rnd, cfg);
      if spawned.Err? {
        return Err(spawned.error);
      }
      var previousAt := if lastTickAt.Some? then lastTickAt.value else lab.energyBaseAt;
      var events := EventsForStateTransition(Transition(before, next.Value(), previousAt, now), cfg);
      if events.Err? {
        return Err(events.error);
      }
      Install(next.Value());
      r := Ok(TickResult(true, spawned.value, events.value));
    }

    method Install(s: State)
      modifies this
      ensures Value() == s
    {
      lab, portals, planes, observers := s.lab, s.portals, s.planes, s.observers;
      nextPortalID, spawn, lastTickAt := s.nextPortalID, s.spawn, s.lastTickAt;
    }

    // -------------------------------------------------------------- commands

    method PortalIndex(id: int) returns (r: Option<nat>)
      ensures r == FindPortal(portals, id)
    {
      for i := 0 to |portals|
        invariant FindPortal(portals[..i], id).None?
      {
        assert portals[..i + 1][..i] == portals[..i];
        if portals[i].id == id {
          FoundFirst(portals, i, id);
          return Some(i);
        }
      }
      assert portals[..|portals|] == portals;
      r := None;
    }

    method PlaneIndex(id: int) returns (r: Option<nat>)
      ensures r == FindPlane(planes, id)
    {
      for i := 0 to |planes|
        invariant FindPlane(planes[..i], id).None?
      {
        assert planes[..i + 1][..i] == planes[..i];
        if planes[i].id == id {
          PlaneFoundFirst(planes, i, id);
          return Some(i);
        }
      }
      assert planes[..|planes|] == planes;
      r := None;
    }

    /** Checks the price first, then lets the portal decide, and debits only on success. */
    method StabilizeWithEnergy(k: nat, now: Time, cfg: Config) returns (error: Option<Error>)
      requires k < |portals|
      modifies this`lab, this`portals
      ensures var cost := old(lab).StabilizeCost(now, cfg);
              match old(lab).PrepareSpend(now, cost, cfg)
              case Err(e) => error == Some(e) && lab == old(lab) && portals == old(portals)
              case Ok(remaining) =>
                match old(portals[k]).Stabilize(now, cfg)
                case Err(e) => error == Some(e) && lab == old(lab) && portals == old(portals)
                case Ok(p) => error == None && lab == old(lab).CommitSpend(now, cost, remaining) && portals == old(portals)[k := p]
    {
      var cost := lab.StabilizeCost(now, cfg);
      var remaining := lab.PrepareSpend(now, cost, cfg);
      if remaining.Err? {
        return Some(remaining.error);
      }
      var stabilized := portals[k].Stabilize(now, cfg);
      if stabilized.Err? {
        return Some(stabilized.error);
      }
      portals := portals[k := stabilized.value];
      lab := lab.CommitSpend(now, cost, remaining.value);
      error := None;
    }

    /** Closes a portal and resolves whoever is inside. The portal is closed before the traveller is
        resolved, so a traveller of another plane leaves it closed although the command fails. */
    method CloseWithObservers(k: nat, j: nat, now: Time, confirm: bool, cfg: Config) returns (error: Option<Error>)
      requires k < |portals| && j < |planes|
      modifies this`portals, this`observers
      ensures var p, plane, os := old(portals[k]), planes[j], old(observers);
              if plane.id != p.plane || !ValidRoster(os, now) then error == Some(ObserverInvariant) && portals == old(portals) && observers == os
              else if p.status != Open then error == Some(PortalNotOpen) && portals == old(portals) && observers == os
              else match ActiveTransit(os, p.id, now)
                case Err(e) => error == Some(e) && portals == old(portals) && observers == os
                case Ok(active) =>
                  if active.Some? && !confirm then error == Some(ConfirmationRequired) && portals == old(portals) && observers == os
                  else match p.Close(now, confirm, cfg)
                    case Err(e) => error == Some(e) && portals == old(portals) && observers == os
                    case Ok(closed) =>
                      && portals == old(portals)[k := closed]
                      && if CloseStrands(closed, plane, os, now) then error == Some(ObserverInvariant) && observers == os
                         else error == None && observers == ObserversAfterClose(closed, os, now, cfg)
    {
      var sound := ValidateRoster(observers, now);
      if planes[j].id != portals[k].plane || !sound {
        return Some(ObserverInvariant);
      }
      if portals[k].status != Open {
        return Some(PortalNotOpen);
      }
      var active := FindActiveTransit(observers, portals[k].id, now);
      if active.Err? {
        return Some(active.error);
      }
      if active.value.Some? && !confirm {
        return Some(ConfirmationRequired);
      }
      var closed := portals[k].Close(now, confirm, cfg);
      if closed.Err? {
        return Some(closed.error);
      }
      portals := portals[k := closed.value];
      if active.value.None? {
        return None;
      }
      var i := active.value.value;
      var resolved := ResolveObserverLifecycle(observers[i], Some(planes[j]), Some(portals[k]), now, cfg);
      if resolved.Err? {
        return Some(resolved.error);
      }
      observers := observers[i := resolved.value.0];
      error := None;
    }

    method CloseWithEnergy(k: nat, j: nat, now: Time, confirm: bool, cfg: Config) returns (error: Option<Error>)
      requires k < |portals| && j < |planes|
      modifies this`lab, this`portals, this`observers
      ensures var p, plane, os := old(portals[k]), planes[j], old(observers);
              match CloseRefusal(old(lab), p, plane, os, now, confirm, cfg)
              case Some(e) => error == Some(e) && lab == old(lab) && portals == old(portals) && observers == os
              case None =>
                var cost := old(lab).CloseCost(now, cfg);
                var closed := p.Close(now, confirm, cfg).value;
                && portals == old(portals)[k := closed]
                && if CloseStrands(closed, plane, os, now) then error == Some(ObserverInvariant) && lab == old(lab) && observers == os
                   else
                     && error == None && observers == ObserversAfterClose(closed, os, now, cfg)
                     && lab == old(lab).CommitSpend(now, cost, old(lab).PrepareSpend(now, cost, cfg).value)
    {
      var cost := lab.CloseCost(now, cfg);
      var remaining := lab.PrepareSpend(now, cost, cfg);
      if remaining.Err? {
        return Some(remaining.error);
      }
      error := CloseWithObservers(k, j, now, confirm, cfg);
      if error.Some? {
        return;
      }
      lab := lab.CommitSpend(now, cost, remaining.value);
    }

    /** Charges for and appends one extraction portal in the first free slot. */
    method OpenExtractionPortal(j: nat, now: Time, rnd: Random, cfg: Config) returns (error: Option<Error>)
      requires j < |planes|
      modifies this`lab, this`portals, rnd
      ensures match ExtractionRefusal(old(lab), old(portals), planes[j], observers, nextPortalID, now, cfg)
              case Some(e) => error == Some(e) && lab == old(lab) && portals == old(portals) && rnd.pos == old(rnd.pos)
              case None =>
                var slot := FreeSlot(old(portals), cfg.maxActivePortals).value;
                var drawn := NewExtractionPortal(nextPortalID, planes[j].id, slot, now, cfg, rnd.tape, old(rnd.pos));
                && error == None && lab == old(lab).SpendEnergy(now, cfg.extractionCost, cfg).value
                && portals == old(portals) + [drawn.value] && rnd.pos == drawn.pos
    {
      var check := lab.PrepareSpend(now, 0, cfg);
      if check.Err? {
        return Some(check.error);
      }
      var sound := ValidateRoster(observers, now);
      if !sound {
        return Some(ObserverInvariant);
      }
      var waiting := FindLongestWaiting(observers, planes[j].id);
      if waiting.Err? {
        return Some(waiting.error);
      }
      if waiting.value.None? {
        return Some(NoWaitingObserver);
      }
      var collection := ValidateExtractionCollection(portals, nextPortalID, cfg.maxActivePortals);
      if !collection {
        return Some(ExtractionInvariant);
      }
      var slot := FirstFreeSlot(portals, cfg.maxActivePortals);
      if slot.None? {
        return Some(NoFreePortalSlot);
      }
      var spent := lab.SpendEnergy(now, cfg.extractionCost, cfg);
      if spent.Err? {
        return Some(spent.error);
      }
      var portal := DrawExtractionPortal(nextPortalID, planes[j].id, slot.value, now, cfg, rnd);
      lab := spent.value;
      portals := portals + [portal];
      error := None;
    }

    /** Both transit commands: a free check of the ledger, then the transit itself. */
    method SendWithEnergy(k: nat, j: nat, now: Time, confirm: bool, rnd: Random, cfg: Config) returns (error: Option<Error>)
      requires k < |portals| && j < |planes|
      modifies this`portals, this`observers, rnd
      ensures if lab.PrepareSpend(now, 0, cfg).Err?
              then error == Some(lab.PrepareSpend(now, 0, cfg).error) && portals == old(portals) && observers == old(observers) && rnd.pos == old(rnd.pos)
              else match Send(old(portals[k]), planes[j], old(observers), now, confirm, rnd.tape, old(rnd.pos), cfg)
                case Err(e) => error == Some(e) && portals == old(portals) && observers == old(observers) && rnd.pos == old(rnd.pos)
                case Ok(r) => error == None && portals == old(portals)[k := r.portal] && observers == r.observers && rnd.pos == r.pos
    {
      var check := lab.PrepareSpend(now, 0, cfg);
      if check.Err? {
        return Some(check.error);
      }
      var sent := SendPrepared(portals[k], planes[j], observers, now, confirm, rnd, cfg);
      if sent.Err? {
        return Some(sent.error);
      }
      portals, observers := portals[k := sent.value.portal], sent.value.observers;
      error := None;
    }

    method RecallWithEnergy(k: nat, j: nat, now: Time, confirm: bool, rnd: Random, cfg: Config) returns (error: Option<Error>)
      requires k < |portals| && j < |planes|
      modifies this`portals, this`observers, rnd
      ensures if lab.PrepareSpend(now, 0, cfg).Err?
              then error == Some(lab.PrepareSpend(now, 0, cfg).error) && portals == old(portals) && observers == old(observers) && rnd.pos == old(rnd.pos)
              else match RecallRefusal(old(portals[k]), planes[j], old(observers), now, confirm, cfg)
                case Some(e) => error == Some(e) && portals == old(portals) && observers == old(observers) && rnd.pos == old(rnd.pos)
                case None =>
                  var r := PreparedRecall(old(portals[k]), old(observers), now, confirm, rnd.tape, old(rnd.pos), cfg).value;
                  error == None && portals == old(portals)[k := r.portal] && observers == r.observers && rnd.pos == r.pos
    {
      var check := lab.PrepareSpend(now, 0, cfg);
      if check.Err? {
        return Some(check.error);
      }
      var sound := ValidateRoster(observers, now);
      if planes[j].id != portals[k].plane || !sound {
        return Some(ObserverInvariant);
      }
      var recalled := RecallPrepared(portals[k], observers, now, confirm, rnd, cfg);
      if recalled.Err? {
        return Some(recalled.error);
      }
      portals, observers := portals[k := recalled.value.portal], recalled.value.observers;
      error := None;
    }

    /** The portal a command names and the plane behind it. */
    method Locate(portalID: int) returns (r: Result<(nat, nat)>)
      ensures r == Target(Value(), portalID)
    {
      var k := PortalIndex(portalID);
      if k.None? {
        return Err(PortalNotFound);
      }
      var j := PlaneIndex(portals[k.value].plane);
      r := if j.None? then Err(PlaneNotFound) else Ok((k.value, j.value));
    }

    method ExecuteStabilize(id: int, now: Time, cfg: Config, ghost tape: Tape, ghost pos: nat) returns (error: Option<Error>)
      modifies this
      ensures var out := Apply(old(Value()), Stabilize(id), now, tape, pos, cfg);
              error == out.error && Value() == out.state && out.pos == pos
    {
      var k := PortalIndex(id);
      if k.None? {
        return Some(PortalNotFound);
      }
      error := StabilizeWithEnergy(k.value, now, cfg);
    }

    method ExecuteClose(id: int, confirm: bool, now: Time, cfg: Config, ghost tape: Tape, ghost pos: nat) returns (error: Option<Error>)
      modifies this
      ensures var out := Apply(old(Value()), ClosePortal(id, confirm), now, tape, pos, cfg);
              error == out.error && Value() == out.state && out.pos == pos
    {
      var at := Locate(id);
      if at.Err? {
        return Some(at.error);
      }
      error := CloseWithEnergy(at.value.0, at.value.1, now, confirm, cfg);
    }

    method ExecuteSend(id: int, confirm: bool, now: Time, rnd: Random, cfg: Config) returns (error: Option<Error>)
      modifies this, rnd
      ensures var out := Apply(old(Value()), SendObserver(id, confirm), now, rnd.tape, old(rnd.pos), cfg);
              error == out.error && Value() == out.state && rnd.pos == out.pos
    {
      var at := Locate(id);
      if at.Err? {
        return Some(at.error);
      }
      error := SendWithEnergy(at.value.0, at.value.1, now, confirm, rnd, cfg);
    }

    method ExecuteRecall(id: int, confirm: bool, now: Time, rnd: Random, cfg: Config) returns (error: Option<Error>)
      modifies this, rnd
      ensures var out := Apply(old(Value()), RecallObserver(id, confirm), now, rnd.tape, old(rnd.pos), cfg);
              error == out.error && Value() == out.state && rnd.pos == out.pos
    {
      var at := Locate(id);
      if at.Err? {
        return Some(at.error);
      }
      error := RecallWithEnergy(at.value.0, at.value.1, now, confirm, rnd, cfg);
    }

    method ExecuteExtraction(planeID: int, now: Time, rnd: Random, cfg: Config) returns (error: Option<Error>)
      modifies this, rnd
      ensures var out := Apply(old(Value()), OpenExtraction(planeID), now, rnd.tape, old(rnd.pos), cfg);
              error == out.error && Value() == out.state && rnd.pos == out.pos
    {
      var j := PlaneIndex(planeID);
      if j.None? {
        return Some(PlaneNotFound);
      }
      error := OpenExtractionPortal(j.value, now, rnd, cfg);
      if error.None? {
        nextPortalID := nextPortalID + 1;
      }
    }

    /** Runs one command in place; it leaves exactly what `Apply` says. */
    method Execute(c: Command, now: Time, rnd: Random, cfg: Config) returns (error: Option<Error>)
      modifies this, rnd
      ensures var out := Apply(old(Value()), c, now, rnd.tape, old(rnd.pos), cfg);
              error == out.error && Value() == out.state && rnd.pos == out.pos
    {
      match c {
        case Stabilize(id) => error := ExecuteStabilize(id, now, cfg, rnd.tape, rnd.pos);
        case ClosePortal(id, confirm) => error := ExecuteClose(id, confirm, now, cfg, rnd.tape, rnd.pos);
        case SendObserver(id, confirm) => error := ExecuteSend(id, confirm, now, rnd, cfg);
        case RecallObserver(id, confirm) => error := ExecuteRecall(id, confirm, now, rnd, cfg);
        case OpenExtraction(planeID) => error := ExecuteExtraction(planeID, now, rnd, cfg);
      }
    }
  }

  lemma {:induction false} FoundFirst(ps: seq<Portal>, i: nat, id: int)
    requires i < |ps| && ps[i].id == id && FindPortal(ps[..i], id).None?
    ensures FindPortal(ps, id) == Some(i)
    decreases |ps|
  {
    if i < |ps| - 1 {
      assert ps[..|ps| - 1][..i] == ps[..i];
      FoundFirst(ps[..|ps| - 1], i, id);
    }
  }

  lemma {:induction false} PlaneFoundFirst(planes: seq<Plane>, i: nat, id: int)
    requires i < |planes| && planes[i].id == id && FindPlane(planes[..i], id).None?
    ensures FindPlane(planes, id) == Some(i)
    decreases |planes|
  {
    if i < |planes| - 1 {
      assert planes[..|planes| - 1][..i] == planes[..i];
      PlaneFoundFirst(planes[..|planes| - 1], i, id);
    }
  }

  /** A validated aggregate is one the observer stage can walk without a missing reference. */
  lemma ValidIsPrepared(s: State, now: Time, cfg: Config)
    requires ValidState(s, now, cfg)
    ensures Prepared(s.planes, PortalsAfter(s.portals, now), s.observers)
    ensures s.lab.ValidBaseline(now, cfg)
  {
    var qs := PortalsAfter(s.portals, now);
    forall i | 0 <= i < |s.observers| ensures ObserverPrepared(s.observers[i], s.planes, qs) {
      ValidObserverIsPrepared(s.observers[i], s.planes, s.portals, now);
    }
  }

  lemma ValidObserverIsPrepared(o: Observer, planes: seq<Plane>, ps: seq<Portal>, now: Time)
    requires ValidObserver(o, planes, ps, now)
    requires forall k :: 0 <= k < |ps| ==> PortalEntry(ps[k], planes, now)
    ensures ObserverPrepared(o, planes, PortalsAfter(ps, now))
  {
    var qs := PortalsAfter(ps, now);
    if o.portal.Some? {
      FindBySameIds(ps, qs, o.portal.value);
      assert PortalEntry(ps[FindPortal(ps, o.portal.value).value], planes, now);
    }
  }

  lemma SameIndex(planes: seq<Plane>, planes': seq<Plane>, index: map<int, nat>)
    requires |planes| == |planes'| && forall j :: 0 <= j < |planes| ==> planes[j].id == planes'[j].id
    requires forall id :: FindPlane(planes, id) == if id in index then Some(index[id]) else None
    ensures forall id :: FindPlane(planes', id) == if id in index then Some(index[id]) else None
  {
    forall id ensures FindPlane(planes', id) == FindPlane(planes, id) {
      FindPlaneBySameIds(planes', planes, id);
    }
  }
}

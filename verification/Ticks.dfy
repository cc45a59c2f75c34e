/** What one tick does to the aggregate, stage by stage: portals, observers, extraction
    synchronization, natural spawn. The stages are stated in closed form, without the
    order in which the simulation happens to visit their elements. */
module Ticks {
  import opened Base
  import opened Randomness
  import opened Portals
  import opened Labs
  import opened Observers
  import opened States
  import opened Commands
  import opened Sorting

  // ---------------------------------------------------------------- portal stage

  function PortalsAfter(ps: seq<Portal>, now: Time): (r: seq<Portal>)
    ensures |r| == |ps| && forall i :: 0 <= i < |ps| ==> r[i] == ps[i].ResolveLifecycle(now)
  {
    seq(|ps|, i requires 0 <= i < |ps| => ps[i].ResolveLifecycle(now))
  }

  /** The latest collapse among portals that collapse by `now`. */
  function LatestCollapse(ps: seq<Portal>, now: Time): (r: Option<Time>)
    ensures r.None? ==> forall i :: 0 <= i < |ps| ==> !ps[i].CollapsesBy(now)
    ensures r.Some? ==> exists i :: 0 <= i < |ps| && ps[i].CollapsesBy(now) && ps[i].Deadline() == r.value
    ensures r.Some? ==> forall i :: 0 <= i < |ps| && ps[i].CollapsesBy(now) ==> ps[i].Deadline() <= r.value
  {
    if |ps| == 0 then None
    else
      var init, p := ps[..|ps| - 1], ps[|ps| - 1];
      var earlier := LatestCollapse(init, now);
      assert forall i :: 0 <= i < |init| ==> init[i] == ps[i];
      if p.CollapsesBy(now) && (earlier.None? || earlier.value < p.Deadline()) then Some(p.Deadline()) else earlier
  }

  function LabFrom(lab: Lab, collapse: Option<Time>, cfg: Config): Lab {
    match collapse
    case None => lab
    case Some(at) => Lab(0, at, Some(at + cfg.emergencyDuration))
  }

  /** Every collapse opens an emergency window; the latest one decides the laboratory. */
  function LabAfter(lab: Lab, ps: seq<Portal>, now: Time, cfg: Config): Lab {
    LabFrom(lab, LatestCollapse(ps, now), cfg)
  }

  /** A collapse dated before the ledger's baseline cannot be booked. */
  predicate UnbookableCollapse(lab: Lab, ps: seq<Portal>, now: Time) {
    exists i :: 0 <= i < |ps| && ps[i].CollapsesBy(now) && ps[i].Deadline() < lab.energyBaseAt
  }

  // ---------------------------------------------------------------- observer stage

  function PortalOf(o: Observer, ps: seq<Portal>): Option<Portal> {
    if o.portal.None? then None
    else match FindPortal(ps, o.portal.value)
      case None => None
      case Some(k) => Some(ps[k])
  }

  function ObserverAfter(o: Observer, ps: seq<Portal>, now: Time, cfg: Config): Observer {
    Advance(o, PortalOf(o, ps), now, cfg)
  }

  function ObserversAfter(os: seq<Observer>, ps: seq<Portal>, now: Time, cfg: Config): (r: seq<Observer>)
    ensures |r| == |os| && forall i :: 0 <= i < |os| ==> r[i] == ObserverAfter(os[i], ps, now, cfg)
  {
    seq(|os|, i requires 0 <= i < |os| => ObserverAfter(os[i], ps, now, cfg))
  }

  /** This observer completes a return from the given plane. */
  predicate ReturnsFrom(o: Observer, ps: seq<Portal>, planeID: int, now: Time, cfg: Config) {
    o.plane == Some(planeID) && o.endsAt.Some? && ReturnsHome(o, PortalOf(o, ps), now, cfg)
  }

  /** The earliest completed return from a plane. */
  function EarliestReturn(os: seq<Observer>, ps: seq<Portal>, planeID: int, now: Time, cfg: Config): (r: Option<Time>)
    ensures r.None? ==> forall i :: 0 <= i < |os| ==> !ReturnsFrom(os[i], ps, planeID, now, cfg)
    ensures r.Some? ==> exists i :: 0 <= i < |os| && ReturnsFrom(os[i], ps, planeID, now, cfg) && os[i].endsAt.value == r.value
    ensures r.Some? ==> forall i :: 0 <= i < |os| && ReturnsFrom(os[i], ps, planeID, now, cfg) ==> r.value <= os[i].endsAt.value
  {
    if |os| == 0 then None
    else
      var init, o := os[..|os| - 1], os[|os| - 1];
      var earlier := EarliestReturn(init, ps, planeID, now, cfg);
      assert forall i :: 0 <= i < |init| ==> init[i] == os[i];
      if ReturnsFrom(o, ps, planeID, now, cfg) && (earlier.None? || o.endsAt.value < earlier.value)
      then Some(o.endsAt.value) else earlier
  }

  function PlaneAfter(p: Plane, os: seq<Observer>, ps: seq<Portal>, now: Time, cfg: Config): Plane {
    match EarliestReturn(os, ps, p.id, now, cfg)
    case None => p
    case Some(at) => p.ExploreAt(at)
  }

  function PlanesAfter(planes: seq<Plane>, os: seq<Observer>, ps: seq<Portal>, now: Time, cfg: Config): (r: seq<Plane>)
    ensures |r| == |planes| && forall j :: 0 <= j < |planes| ==> r[j] == PlaneAfter(planes[j], os, ps, now, cfg)
  {
    seq(|planes|, j requires 0 <= j < |planes| => PlaneAfter(planes[j], os, ps, now, cfg))
  }

  // ---------------------------------------------------------------- extraction stage

  datatype Extracted = Extracted(portals: seq<Portal>, observers: seq<Observer>, pos: nat)

  datatype Synced = Synced(portal: Portal, observers: seq<Observer>, pos: nat)

  /** The extraction portal's one synchronization is due. */
  predicate SyncDue(p: Portal, now: Time, cfg: Config) {
    p.kind == Extraction && p.status == Open && p.syncedAt.None? && p.openedAt + cfg.extractionSync <= now
  }

  function MarkSynced(p: Portal, cfg: Config): Portal {
    p.(syncedAt := Some(p.openedAt + cfg.extractionSync), updatedAt := p.openedAt + cfg.extractionSync)
  }

  /** Synchronizes one extraction portal and starts its automatic return, both stamped with the
      synchronization moment rather than with the time of the tick. */
  function Synchronize(p: Portal, os: seq<Observer>, now: Time, tape: Tape, pos: nat, cfg: Config): Result<Synced> {
    if p.kind != Extraction then Err(ExtractionInvariant)
    else if p.IsTerminal() then Ok(Synced(p, os, pos))
    else if p.syncedAt.Some? then
      if p.syncedAt.value != p.openedAt + cfg.extractionSync then Err(ExtractionInvariant) else Ok(Synced(p, os, pos))
    else if now < p.openedAt + cfg.extractionSync then Ok(Synced(p, os, pos))
    else
      var syncAt := p.openedAt + cfg.extractionSync;
      var next := MarkSynced(p, cfg);
      if LongestWaiting(os, p.plane).Err? then Err(LongestWaiting(os, p.plane).error)
      else match PreparedRecall(next, os, syncAt, false, tape, pos, cfg)
        case Err(e) => if e == NoWaitingObserver then Ok(Synced(next, os, pos)) else Err(e)
        case Ok(r) => Ok(Synced(r.portal, r.observers, r.pos))
  }

  function ExtractionIndices(ps: seq<Portal>): (r: seq<nat>)
    ensures forall x :: x in r <==> 0 <= x < |ps| && ps[x].kind == Extraction
  {
    if |ps| == 0 then []
    else
      var init := ExtractionIndices(ps[..|ps| - 1]);
      if ps[|ps| - 1].kind == Extraction then init + [|ps| - 1] else init
  }

  function PortalBefore(ps: seq<Portal>): (nat, nat) -> bool {
    (a: nat, b: nat) => a < |ps| && b < |ps| && ps[a].id < ps[b].id
  }

  /** The extraction portals in ascending ID. */
  function ExtractionOrder(ps: seq<Portal>): (r: seq<nat>)
    ensures forall x :: x in r <==> 0 <= x < |ps| && ps[x].kind == Extraction
  {
    var r := Sort(ExtractionIndices(ps), PortalBefore(ps));
    SameElements(r, ExtractionIndices(ps));
    r
  }

  function SynchronizeAll(ps: seq<Portal>, os: seq<Observer>, order: seq<nat>, now: Time, tape: Tape, pos: nat, cfg: Config): (r: Result<Extracted>)
    requires forall x :: x in order ==> x < |ps|
    ensures r.Ok? ==> |r.value.portals| == |ps| && |r.value.observers| == |os|
    decreases |order|
  {
    if |order| == 0 then Ok(Extracted(ps, os, pos))
    else
      assert order[0] in order && forall x :: x in order[1..] ==> x in order;
      match Synchronize(ps[order[0]], os, now, tape, pos, cfg)
      case Err(e) => Err(e)
      case Ok(r) => SynchronizeAll(ps[order[0] := r.portal], r.observers, order[1..], now, tape, r.pos, cfg)
  }

  // ---------------------------------------------------------------- spawn stage

  function NewSpawn(now: Time, cfg: Config, tape: Tape, pos: nat): Drawn<Spawn> {
    var delay := tape.Int(pos, cfg.spawnDelayMin / SECOND, cfg.spawnDelayMax / SECOND) * SECOND;
    Drawn(Spawn(Some(now), Some(now + delay), false), pos + 1)
  }

  predicate SpawnDue(spawn: Spawn, now: Time) {
    spawn.scheduledAt.Some? && spawn.dueAt.Some? && spawn.scheduledAt.value < now && spawn.dueAt.value <= now
  }

  datatype Spawned = Spawned(state: State, pos: nat, portalID: Option<int>)

  function NaturalSpawn(s: State, now: Time, tape: Tape, pos: nat, cfg: Config): Result<Spawned>
    requires |s.planes| > 0
  {
    var open := CountOpen(s.portals);
    if open >= cfg.maxActivePortals then Ok(Spawned(s.(spawn := PAUSED), pos, None))
    else if s.spawn.paused then
      var next := NewSpawn(now, cfg, tape, pos);
      Ok(Spawned(s.(spawn := next.value), next.pos, None))
    else if !SpawnDue(s.spawn, now) then Ok(Spawned(s, pos, None))
    else match FreeSlot(s.portals, cfg.maxActivePortals)
      case None => Err(SimulationInvariant)
      case Some(slot) =>
        var plane := s.planes[tape.Int(pos, 0, |s.planes| - 1)].id;
        var drawn := NewNaturalPortal(s.nextPortalID, plane, slot, now, cfg, tape, pos + 1);
        var grown := s.(portals := s.portals + [drawn.value], nextPortalID := s.nextPortalID + 1);
        if open + 1 >= cfg.maxActivePortals
        then Ok(Spawned(grown.(spawn := PAUSED), drawn.pos, Some(s.nextPortalID)))
        else
          var next := NewSpawn(now, cfg, tape, drawn.pos);
          Ok(Spawned(grown.(spawn := next.value), next.pos, Some(s.nextPortalID)))
  }

  // ---------------------------------------------------------------- the whole tick

  datatype Ticked = Ticked(state: State, pos: nat, spawnedID: Option<int>)

  /** The state after the portal and observer stages. */
  function MidTick(s: State, now: Time, cfg: Config): State {
    var ps := PortalsAfter(s.portals, now);
    s.(lab := LabAfter(s.lab, s.portals, now, cfg),
       portals := ps,
       observers := ObserversAfter(s.observers, ps, now, cfg),
       planes := PlanesAfter(s.planes, s.observers, ps, now, cfg))
  }

  /** The four stages, one after another. */
  function RunStages(s: State, now: Time, tape: Tape, pos: nat, cfg: Config): Result<Ticked>
    requires |s.planes| > 0
  {
    var mid := MidTick(s, now, cfg);
    match SynchronizeAll(mid.portals, mid.observers, ExtractionOrder(mid.portals), now, tape, pos, cfg)
    case Err(e) => Err(e)
    case Ok(x) =>
      match NaturalSpawn(mid.(portals := x.portals, observers := x.observers), now, tape, x.pos, cfg)
      case Err(e) => Err(e)
      case Ok(sp) => Ok(Ticked(sp.state.(lastTickAt := Some(now)), sp.pos, sp.portalID))
  }

  lemma SpawnOnlyAddsPortals(s: State, now: Time, tape: Tape, pos: nat, cfg: Config)
    requires |s.planes| > 0
    ensures var r := NaturalSpawn(s, now, tape, pos, cfg);
            r.Ok? ==> r.value.state.lab == s.lab && r.value.state.planes == s.planes && r.value.state.observers == s.observers
  {
  }

  /** Ledger and planes are settled by the first two stages, the roster by the third. */
  lemma StagesSettle(s: State, now: Time, tape: Tape, pos: nat, cfg: Config)
    requires |s.planes| > 0
    ensures var r, mid := RunStages(s, now, tape, pos, cfg), MidTick(s, now, cfg);
            var x := SynchronizeAll(mid.portals, mid.observers, ExtractionOrder(mid.portals), now, tape, pos, cfg);
            r.Ok? ==> x.Ok? && r.value.state.lab == mid.lab && r.value.state.planes == mid.planes
                      && r.value.state.observers == x.value.observers
  {
    var mid := MidTick(s, now, cfg);
    var x := SynchronizeAll(mid.portals, mid.observers, ExtractionOrder(mid.portals), now, tape, pos, cfg);
    if x.Ok? {
      SpawnOnlyAddsPortals(mid.(portals := x.value.portals, observers := x.value.observers), now, tape, x.value.pos, cfg);
    }
  }

  function Tick(s: State, now: Time, tape: Tape, pos: nat, cfg: Config): Result<Ticked> {
    if !ValidState(s, now, cfg) then Err(SimulationInvariant)
    else if s.lastTickAt == Some(now) then Ok(Ticked(s, pos, None))
    else if UnbookableCollapse(s.lab, s.portals, now) then Err(LabEnergyInvariant)
    else RunStages(s, now, tape, pos, cfg)
  }
}

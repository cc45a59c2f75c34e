/** What the rest of the program may rely on in every reachable state: ticks succeed, the store
    accepts the snapshot, the transit view can be built, and the next command finds a sound roster. */
module Guarantees {
  import opened Base
  import opened Randomness
  import opened Sorting
  import opened Portals
  import opened Labs
  import opened Observers
  import opened States
  import opened Commands
  import opened Ticks
  import opened Invariants
  import opened CommandInvariants
  import opened Runs

  // ---------------------------------------------------------------- ticks succeed

  /** The shortest life an extraction portal can be drawn with. */
  function ShortestExtraction(cfg: Config): Duration {
    Min(cfg.extractionTTLMin, FromSeconds(cfg.extractionEnergyMin / cfg.portalDecayMax))
  }

  /** The weakest extraction portal still has a quarter of the safe horizon left when it synchronizes. */
  predicate SafeSync(cfg: Config) {
    4 * Max(0, ShortestExtraction(cfg) - cfg.extractionSync) >= cfg.riskSafeHorizon
  }

  lemma DefaultIsSafe()
    ensures SafeSync(DEFAULT_CONFIG)
  {
  }

  lemma QuotientMonotone(a: real, b: real, c: real, d: real)
    requires 0.0 <= b <= a && 0.0 < c <= d
    ensures b / d <= a / c
  {
    var q := b / d;
    assert q * d == b;
    QuotientSign(b, d);
    ProductNonNegative(q, d - c);
    assert q * (d - c) == q * d - q * c;
    var r := a / c;
    assert r * c == a;
    if q > r {
      assert (q - r) * c > 0.0;
      assert (q - r) * c == q * c - r * c;
    }
  }

  lemma ExtractionLifetimeAtSync(p: Portal, t: Time, cfg: Config)
    requires PortalInv(p, t, cfg) && p.kind == Extraction && p.status == Open && p.syncedAt.None?
    ensures var marked := MarkSynced(p, cfg);
            marked.EffectiveLifetime(p.openedAt + cfg.extractionSync) >= Max(0, ShortestExtraction(cfg) - cfg.extractionSync)
  {
    var marked := MarkSynced(p, cfg);
    EffectiveLifetimeIsDistance(marked, p.openedAt + cfg.extractionSync);
    QuotientMonotone(p.energyBase, cfg.extractionEnergyMin, p.decay, cfg.portalDecayMax);
    assert FromSeconds(cfg.extractionEnergyMin / cfg.portalDecayMax) <= FromSeconds(p.energyBase / p.decay);
  }

  lemma SafeSyncIsNeverCritical(p: Portal, t: Time, cfg: Config)
    requires SafeSync(cfg)
    requires PortalInv(p, t, cfg) && p.kind == Extraction && p.status == Open && p.syncedAt.None?
    ensures !CriticalAtSync(p, cfg)
  {
    ExtractionLifetimeAtSync(p, t, cfg);
    CriticalMeansUnderAQuarter(MarkSynced(p, cfg), p.openedAt + cfg.extractionSync, cfg);
  }

  /** No draw of the factory gives an extraction portal that is CRITICAL when it synchronizes. */
  lemma SafeSyncSuffices(id: int, plane: int, slot: int, now: Time, tape: Tape, pos: nat, cfg: Config)
    requires SafeSync(cfg) && id > 0 && plane > 0 && 1 <= slot <= 7
    ensures !CriticalAtSync(NewExtractionPortal(id, plane, slot, now, cfg, tape, pos).value, cfg)
  {
    ExtractionPortalIsValid(id, plane, slot, now, cfg, tape, pos);
    SafeSyncIsNeverCritical(NewExtractionPortal(id, plane, slot, now, cfg, tape, pos).value, now, cfg);
  }

  /** With the safety margin, no tick from a state satisfying the invariant fails, at any later time
      and for any draws. */
  lemma TicksNeverFail(s: State, now: Time, tape: Tape, pos: nat, cfg: Config)
    requires SafeSync(cfg) && Inv(s, cfg) && Clock(s) <= now
    ensures Tick(s, now, tape, pos, cfg).Ok?
  {
    TickKeepsInvariant(s, now, tape, pos, cfg);
    forall i | 0 <= i < |s.portals| && SyncDue(s.portals[i].ResolveLifecycle(now), now, cfg)
      ensures !CriticalAtSync(s.portals[i].ResolveLifecycle(now), cfg)
    {
      PortalStep(s.portals[i], Clock(s), now, cfg);
      SafeSyncIsNeverCritical(s.portals[i].ResolveLifecycle(now), now, cfg);
    }
  }

  // ---------------------------------------------------------------- commits succeed

  function LatestPortalUpdate(ps: seq<Portal>, base: Time): (r: Time)
    ensures base <= r && forall i :: 0 <= i < |ps| ==> ps[i].updatedAt <= r
    ensures r == base || exists i :: 0 <= i < |ps| && r == ps[i].updatedAt
  {
    if |ps| == 0 then base else Max(LatestPortalUpdate(ps[..|ps| - 1], base), ps[|ps| - 1].updatedAt)
  }

  function LatestObserverUpdate(os: seq<Observer>, base: Time): (r: Time)
    ensures base <= r && forall i :: 0 <= i < |os| ==> os[i].updatedAt <= r
    ensures r == base || exists i :: 0 <= i < |os| && r == os[i].updatedAt
  {
    if |os| == 0 then base else Max(LatestObserverUpdate(os[..|os| - 1], base), os[|os| - 1].updatedAt)
  }

  function LatestExploration(planes: seq<Plane>, base: Time): (r: Time)
    ensures base <= r && forall i :: 0 <= i < |planes| && planes[i].exploredAt.Some? ==> planes[i].exploredAt.value <= r
    ensures r == base || exists i :: 0 <= i < |planes| && planes[i].exploredAt == Some(r)
  {
    if |planes| == 0 then base
    else
      var earlier := LatestExploration(planes[..|planes| - 1], base);
      match planes[|planes| - 1].exploredAt
      case None => earlier
      case Some(at) => Max(earlier, at)
  }

  /** The instant a snapshot is validated at: the latest moment anything in it records. */
  function ValidationTime(s: State): Time {
    var a := s.lab.energyBaseAt;
    var b := if s.spawn.scheduledAt.Some? then Max(a, s.spawn.scheduledAt.value) else a;
    var c := if s.lastTickAt.Some? then Max(b, s.lastTickAt.value) else b;
    LatestObserverUpdate(s.observers, LatestPortalUpdate(s.portals, LatestExploration(s.planes, c)))
  }

  method LatestOfPlanes(planes: seq<Plane>, base: Time) returns (latest: Time)
    ensures latest == LatestExploration(planes, base)
  {
    latest := base;
    for i := 0 to |planes|
      invariant latest == LatestExploration(planes[..i], base)
    {
      assert planes[..i + 1][..i] == planes[..i];
      if planes[i].exploredAt.Some? {
        latest := Max(latest, planes[i].exploredAt.value);
      }
    }
    assert planes[..|planes|] == planes;
  }

  method LatestOfPortals(ps: seq<Portal>, base: Time) returns (latest: Time)
    ensures latest == LatestPortalUpdate(ps, base)
  {
    latest := base;
    for i := 0 to |ps|
      invariant latest == LatestPortalUpdate(ps[..i], base)
    {
      assert ps[..i + 1][..i] == ps[..i];
      latest := Max(latest, ps[i].updatedAt);
    }
    assert ps[..|ps|] == ps;
  }

  method LatestOfObservers(os: seq<Observer>, base: Time) returns (latest: Time)
    ensures latest == LatestObserverUpdate(os, base)
  {
    latest := base;
    for i := 0 to |os|
      invariant latest == LatestObserverUpdate(os[..i], base)
    {
      assert os[..i + 1][..i] == os[..i];
      latest := Max(latest, os[i].updatedAt);
    }
    assert os[..|os|] == os;
  }

  /** Advances through everything the snapshot dates. */
  method SnapshotValidationTime(s: State) returns (latest: Time)
    ensures latest == ValidationTime(s)
  {
    latest := s.lab.energyBaseAt;
    if s.spawn.scheduledAt.Some? {
      latest := Max(latest, s.spawn.scheduledAt.value);
    }
    if s.lastTickAt.Some? {
      latest := Max(latest, s.lastTickAt.value);
    }
    latest := LatestOfPlanes(s.planes, latest);
    latest := LatestOfPortals(s.portals, latest);
    latest := LatestOfObservers(s.observers, latest);
  }

  /** The row checks and the aggregate check a commit performs. */
  predicate CommitAccepts(s: State) {
    && |s.planes| == PLANE_COUNT && |s.observers| == DEFAULT_CONFIG.observerCount && s.nextPortalID > 0
    && 0 <= s.lab.energyBase <= 100
    && (s.spawn.paused <==> s.spawn.scheduledAt.None? && s.spawn.dueAt.None?)
    && (!s.spawn.paused ==> s.spawn.scheduledAt.Some? && s.spawn.dueAt.Some?)
    && DistinctPlaneIds(s.planes) && DistinctPortalIds(s.portals) && DistinctObserverIds(s.observers)
    && (forall i :: 0 <= i < |s.planes| ==> s.planes[i].id > 0 && (s.planes[i].explored <==> s.planes[i].exploredAt.Some?))
    && (forall i :: 0 <= i < |s.portals| ==>
          && FindPlane(s.planes, s.portals[i].plane).Some? && s.portals[i].id < s.nextPortalID
          && (s.portals[i].status == Open <==> s.portals[i].closedAt.None? && s.portals[i].reason == NotTerminated))
    && (forall i :: 0 <= i < |s.observers| ==>
          && (s.observers[i].plane.Some? ==> FindPlane(s.planes, s.observers[i].plane.value).Some?)
          && (s.observers[i].portal.Some? ==> FindPortal(s.portals, s.observers[i].portal.value).Some?))
    && ValidStructure(s, ValidationTime(s))
  }

  lemma EntriesAtUpdate(ps: seq<Portal>, planes: seq<Plane>, next: int, t: Time, at: Time, cfg: Config)
    requires PortalsInv(ps, planes, next, t, cfg) && forall i :: 0 <= i < |ps| ==> ps[i].updatedAt <= at
    ensures forall i :: 0 <= i < |ps| ==> PortalEntry(ps[i], planes, at) && ps[i].id < next
    ensures forall i :: 0 <= i < |ps| ==> (ps[i].status == Open <==> ps[i].closedAt.None? && ps[i].reason == NotTerminated)
  {
  }

  lemma ObserversAtUpdate(os: seq<Observer>, planes: seq<Plane>, ps: seq<Portal>, t: Time, at: Time)
    requires ObserversInv(os, planes, ps, t) && forall i :: 0 <= i < |os| ==> os[i].updatedAt <= at
    ensures forall i :: 0 <= i < |os| ==> ValidObserver(os[i], planes, ps, at)
  {
  }

  lemma PlanesAtExploration(planes: seq<Plane>, t: Time, at: Time)
    requires ValidPlanes(planes, t) && forall i :: 0 <= i < |planes| && planes[i].exploredAt.Some? ==> planes[i].exploredAt.value <= at
    ensures ValidPlanes(planes, at)
  {
  }

  lemma ValidationTimeIsLatest(s: State)
    ensures var at := ValidationTime(s);
            && s.lab.energyBaseAt <= at
            && (s.spawn.scheduledAt.Some? ==> s.spawn.scheduledAt.value <= at)
            && (s.lastTickAt.Some? ==> s.lastTickAt.value <= at)
            && (forall i :: 0 <= i < |s.portals| ==> s.portals[i].updatedAt <= at)
            && (forall i :: 0 <= i < |s.observers| ==> s.observers[i].updatedAt <= at)
            && (forall i :: 0 <= i < |s.planes| && s.planes[i].exploredAt.Some? ==> s.planes[i].exploredAt.value <= at)
  {
  }

  /** Every state satisfying the invariant is one the store accepts, although the store does not know
      the time and validates at the latest moment it can find in the snapshot itself. */
  lemma InvariantCommits(s: State, t: Time, cfg: Config)
    requires InvAt(s, t, cfg)
    requires cfg.observerCount == DEFAULT_CONFIG.observerCount && cfg.labEnergyMax <= 100
    ensures CommitAccepts(s)
  {
    var at := ValidationTime(s);
    ValidationTimeIsLatest(s);
    EntriesAtUpdate(s.portals, s.planes, s.nextPortalID, t, at, cfg);
    ObserversAtUpdate(s.observers, s.planes, s.portals, t, at);
    PlanesAtExploration(s.planes, t, at);
    SpawnAtSchedule(s.spawn, t, at);
    assert ValidStructure(s, at);
  }

  lemma SpawnAtSchedule(spawn: Spawn, t: Time, at: Time)
    requires ValidSpawn(spawn, t) && (spawn.scheduledAt.Some? ==> spawn.scheduledAt.value <= at)
    ensures ValidSpawn(spawn, at)
    ensures spawn.paused <==> spawn.scheduledAt.None? && spawn.dueAt.None?
    ensures !spawn.paused ==> spawn.scheduledAt.Some? && spawn.dueAt.Some?
  {
  }

  // ---------------------------------------------------------------- the transit view

  datatype Transit = Transit(observerID: int, portalID: int, direction: ObserverStatus, startedAt: Time, completesAt: Time)

  predicate TransitShown(o: Observer, ps: seq<Portal>, now: Time) {
    && o.portal.Some? && ValidPhase(o) && o.startedAt.value <= now
    && var p := PortalOf(o, ps);
       && p.Some? && p.value.status == Open
       && (if o.status == Outbound then o.plane.None? && p.value.flow == FlowOutbound
           else o.plane == Some(p.value.plane) && p.value.flow == FlowInbound)
  }

  /** Exactly the aggregates whose transits can be presented. */
  predicate Presentable(s: State, now: Time) {
    && DistinctPortalIds(s.portals) && (forall i :: 0 <= i < |s.portals| ==> s.portals[i].id > 0)
    && RosterPresentable(s.observers, s.portals, now)
  }

  function View(o: Observer): Transit
    requires o.portal.Some? && ValidPhase(o)
  {
    Transit(o.id, o.portal.value, o.status, o.startedAt.value, o.endsAt.value)
  }

  predicate Viewable(o: Observer) {
    o.InTransit() && o.portal.Some? && ValidPhase(o)
  }

  /** The views of the in-transit observers, each shown once, in roster order. */
  function Transits(os: seq<Observer>): (ts: seq<Transit>)
    ensures forall v :: v in ts ==> exists i :: 0 <= i < |os| && Viewable(os[i]) && View(os[i]) == v
    ensures forall i :: 0 <= i < |os| && Viewable(os[i]) ==> View(os[i]) in ts
  {
    if |os| == 0 then []
    else
      var init, o := Transits(os[..|os| - 1]), os[|os| - 1];
      if Viewable(o) then init + [View(o)] else init
  }

  function ByObserver(): (Transit, Transit) -> bool {
    (a: Transit, b: Transit) => a.observerID < b.observerID
  }

  predicate Separate(a: Observer, b: Observer) {
    a.InTransit() && b.InTransit() ==> a.portal != b.portal
  }

  method CheckTransit(o: Observer, ps: seq<Portal>, index: map<int, nat>, now: Time) returns (ok: bool)
    requires o.InTransit()
    requires forall id :: FindPortal(ps, id) == if id in index then Some(index[id]) else None
    ensures ok <==> TransitShown(o, ps, now)
  {
    if o.portal.None? || o.startedAt.None? || o.endsAt.None? || o.startedAt.value >= o.endsAt.value || o.startedAt.value > now {
      return false;
    }
    assert FindPortal(ps, o.portal.value) == if o.portal.value in index then Some(index[o.portal.value]) else None;
    if o.portal.value !in index || ps[index[o.portal.value]].status != Open {
      return false;
    }
    var portal := ps[index[o.portal.value]];
    if o.status == Outbound {
      return o.plane.None? && portal.flow == FlowOutbound;
    }
    ok := o.plane == Some(portal.plane) && portal.flow == FlowInbound;
  }

  /** The first `n` observers have been accepted; `rider` names the one found in each busy portal. */
  ghost predicate AcceptedUpTo(os: seq<Observer>, n: nat, ps: seq<Portal>, rider: map<int, nat>, now: Time)
    requires n <= |os|
  {
    && (forall k, j :: 0 <= k < j < n ==> os[k].id != os[j].id)
    && (forall k :: 0 <= k < n ==> os[k].id > 0)
    && (forall k :: 0 <= k < n && os[k].InTransit() ==>
          TransitShown(os[k], ps, now) && os[k].portal.value in rider && rider[os[k].portal.value] == k)
    && (forall id :: id in rider ==> rider[id] < n && os[rider[id]].InTransit() && os[rider[id]].portal == Some(id))
  }

  /** The aggregate conditions on the roster. */
  predicate RosterPresentable(os: seq<Observer>, ps: seq<Portal>, now: Time) {
    && DistinctObserverIds(os) && (forall i :: 0 <= i < |os| ==> os[i].id > 0)
    && (forall i :: 0 <= i < |os| && os[i].InTransit() ==> TransitShown(os[i], ps, now))
    && (forall i, j :: 0 <= i < j < |os| ==> Separate(os[i], os[j]))
  }

  lemma AcceptedIsPresentable(os: seq<Observer>, ps: seq<Portal>, rider: map<int, nat>, now: Time)
    requires AcceptedUpTo(os, |os|, ps, rider, now)
    ensures RosterPresentable(os, ps, now)
  {
  }

  lemma SharedCorridor(os: seq<Observer>, n: nat, ps: seq<Portal>, rider: map<int, nat>, now: Time)
    requires n < |os| && AcceptedUpTo(os, n, ps, rider, now)
    requires os[n].InTransit() && os[n].portal.Some? && os[n].portal.value in rider
    ensures !RosterPresentable(os, ps, now)
  {
  }

  lemma AcceptOneMore(os: seq<Observer>, n: nat, ps: seq<Portal>, rider: map<int, nat>, now: Time)
    requires n < |os| && AcceptedUpTo(os, n, ps, rider, now)
    requires os[n].id > 0 && forall k :: 0 <= k < n ==> os[k].id != os[n].id
    requires os[n].InTransit() ==> TransitShown(os[n], ps, now) && os[n].portal.value !in rider
    ensures AcceptedUpTo(os, n + 1, ps, if os[n].InTransit() then rider[os[n].portal.value := n] else rider, now)
  {
  }

  method CollectTransits(os: seq<Observer>, ps: seq<Portal>, index: map<int, nat>, now: Time) returns (ok: bool, result: seq<Transit>)
    requires forall id :: FindPortal(ps, id) == if id in index then Some(index[id]) else None
    ensures ok <==> RosterPresentable(os, ps, now)
    ensures ok ==> result == Transits(os)
  {
    var seen: set<int> := {};
    var busy: set<int> := {};
    ghost var rider: map<int, nat> := map[];
    result := [];
    for i := 0 to |os|
      invariant seen == set k | 0 <= k < i :: os[k].id
      invariant AcceptedUpTo(os, i, ps, rider, now) && rider.Keys == busy
      invariant result == Transits(os[..i])
    {
      assert os[..i + 1][..i] == os[..i];
      var o := os[i];
      if o.id <= 0 || o.id in seen {
        return false, result;
      }
      seen := seen + {o.id};
      if o.status != Outbound && o.status != Returning {
        AcceptOneMore(os, i, ps, rider, now);
        continue;
      }
      var shown := CheckTransit(o, ps, index, now);
      if !shown {
        return false, result;
      }
      if o.portal.value in busy {
        SharedCorridor(os, i, ps, rider, now);
        return false, result;
      }
      AcceptOneMore(os, i, ps, rider, now);
      busy := busy + {o.portal.value};
      rider := rider[o.portal.value := i];
      result := result + [View(o)];
    }
    assert os[..|os|] == os;
    AcceptedIsPresentable(os, ps, rider, now);
    ok := true;
  }

  /** Presents every transit once, ordered by observer; it fails on exactly the aggregates that are
      not presentable. */
  method BuildObserverTransits(s: State, now: Time) returns (r: Result<seq<Transit>>)
    ensures r.Ok? <==> Presentable(s, now)
    ensures r.Ok? ==> multiset(r.value) == multiset(Transits(s.observers))
    ensures r.Ok? ==> forall i, j :: 0 <= i < j < |r.value| ==> r.value[i].observerID <= r.value[j].observerID
  {
    var indexed, index := IndexPortals(s.portals);
    if !indexed {
      return Err(SimulationInvariant);
    }
    var collected, result := CollectTransits(s.observers, s.portals, index, now);
    if !collected {
      return Err(SimulationInvariant);
    }
    SortSorts(result, ByObserver());
    r := Ok(Sort(result, ByObserver()));
  }

  /** In every state satisfying the invariant each in-transit observer is on an open portal of the
      matching direction with no second traveller, so the view can always be built. */
  lemma InvariantPresents(s: State, t: Time, cfg: Config)
    requires InvAt(s, t, cfg)
    ensures Presentable(s, t)
  {
  }

  // ---------------------------------------------------------------- fresh transits

  ghost predicate Fresh(s: State, now: Time) {
    forall i :: 0 <= i < |s.observers| && s.observers[i].InTransit() ==> s.observers[i].endsAt.Some? && now < s.observers[i].endsAt.value
  }

  /** A fresh state is exactly one whose roster the next command accepts. */
  lemma FreshMeansSoundRoster(s: State, t: Time, now: Time, cfg: Config)
    requires InvAt(s, t, cfg)
    ensures Fresh(s, now) <==> ValidRoster(s.observers, now)
  {
  }

  /** The observer was sent home by a synchronization later than `t`. */
  predicate StartedBySync(o: Observer, t: Time, cfg: Config) {
    && o.status == Returning && o.startedAt.Some? && o.endsAt.Some?
    && t < o.startedAt.value && o.startedAt.value + cfg.observerTransitMin <= o.endsAt.value
  }

  ghost predicate OnlySyncStarts(os: seq<Observer>, os': seq<Observer>, t: Time, cfg: Config) {
    |os| == |os'| && forall i :: 0 <= i < |os| ==> os'[i] == os[i] || StartedBySync(os'[i], t, cfg)
  }

  ghost predicate DueAfter(ps: seq<Portal>, t: Time, now: Time, cfg: Config) {
    forall x :: 0 <= x < |ps| && SyncDue(ps[x], now, cfg) ==> t < ps[x].openedAt + cfg.extractionSync
  }

  lemma SynchronizeStarts(ps: seq<Portal>, os: seq<Observer>, planes: seq<Plane>, next: int, k: nat, t: Time, now: Time, tape: Tape, pos: nat, cfg: Config)
    requires StageInv(ps, os, planes, next, now, cfg) && k < |ps| && ps[k].kind == Extraction && DueAfter(ps, t, now, cfg)
    requires Synchronize(ps[k], os, now, tape, pos, cfg).Ok?
    ensures var r := Synchronize(ps[k], os, now, tape, pos, cfg).value;
            OnlySyncStarts(os, r.observers, t, cfg) && DueAfter(ps[k := r.portal], t, now, cfg)
  {
    SynchronizeOutcome(ps, os, planes, next, k, now, tape, pos, cfg);
    TransitSecondsInRange(tape, pos, cfg);
  }

  lemma {:induction false} SynchronizeAllStarts(ps: seq<Portal>, os: seq<Observer>, planes: seq<Plane>, next: int, order: seq<nat>, t: Time, now: Time, tape: Tape, pos: nat, cfg: Config)
    requires StageInv(ps, os, planes, next, now, cfg)
    requires forall x :: x in order ==> x < |ps| && ps[x].kind == Extraction
    requires DueAfter(ps, t, now, cfg)
    ensures var r := SynchronizeAll(ps, os, order, now, tape, pos, cfg);
            r.Ok? ==> OnlySyncStarts(os, r.value.observers, t, cfg)
    decreases |order|
  {
    if |order| > 0 {
      var k := order[0];
      assert k in order && forall x :: x in order[1..] ==> x in order;
      var first := Synchronize(ps[k], os, now, tape, pos, cfg);
      if first.Ok? {
        SynchronizeKeeps(ps, os, planes, next, k, now, tape, pos, cfg);
        SynchronizeStarts(ps, os, planes, next, k, t, now, tape, pos, cfg);
        assert first.value.portal.kind == Extraction by {
          SynchronizeOutcome(ps, os, planes, next, k, now, tape, pos, cfg);
        }
        SynchronizeAllStarts(ps[k := first.value.portal], first.value.observers, planes, next, order[1..], t, now, tape, first.value.pos, cfg);
      }
    }
  }

  lemma DueAfterTheClock(s: State, now: Time, cfg: Config)
    requires Inv(s, cfg) && Clock(s) <= now
    ensures DueAfter(PortalsAfter(s.portals, now), Clock(s), now, cfg)
  {
  }

  lemma StagesOnlySyncStart(s: State, now: Time, tape: Tape, pos: nat, cfg: Config)
    requires Inv(s, cfg) && Clock(s) <= now
    ensures var r := RunStages(s, now, tape, pos, cfg);
            r.Ok? ==> OnlySyncStarts(MidTick(s, now, cfg).observers, r.value.state.observers, Clock(s), cfg)
  {
    MidTickKeeps(s, Clock(s), now, cfg);
    DueAfterTheClock(s, now, cfg);
    var mid := MidTick(s, now, cfg);
    SynchronizeAllStarts(mid.portals, mid.observers, mid.planes, mid.nextPortalID, ExtractionOrder(mid.portals), Clock(s), now, tape, pos, cfg);
    StagesSettle(s, now, tape, pos, cfg);
  }

  lemma TickOnlySyncStarts(s: State, now: Time, tape: Tape, pos: nat, cfg: Config)
    requires Inv(s, cfg) && Clock(s) <= now && s.lastTickAt != Some(now)
    requires Tick(s, now, tape, pos, cfg).Ok?
    ensures OnlySyncStarts(MidTick(s, now, cfg).observers, Tick(s, now, tape, pos, cfg).value.state.observers, Clock(s), cfg)
  {
    StagesOnlySyncStart(s, now, tape, pos, cfg);
  }

  lemma TransitsAreDated(os: seq<Observer>, planes: seq<Plane>, ps: seq<Portal>, now: Time)
    requires ObserversInv(os, planes, ps, now)
    ensures forall i :: 0 <= i < |os| && os[i].InTransit() ==> os[i].endsAt.Some?
  {
  }

  lemma MidTickIsFresh(s: State, now: Time, cfg: Config)
    requires Inv(s, cfg) && Clock(s) <= now
    ensures var os := MidTick(s, now, cfg).observers;
            forall i :: 0 <= i < |os| && os[i].InTransit() ==> os[i].endsAt.Some? && now < os[i].endsAt.value
  {
    MidTickKeeps(s, Clock(s), now, cfg);
    var mid := MidTick(s, now, cfg);
    TransitsAreDated(mid.observers, mid.planes, mid.portals, now);
  }

  lemma OnlySyncMakesOverdue(os: seq<Observer>, os': seq<Observer>, t: Time, now: Time, cfg: Config)
    requires OnlySyncStarts(os, os', t, cfg)
    requires forall i :: 0 <= i < |os| && os[i].InTransit() ==> os[i].endsAt.Some? && now < os[i].endsAt.value
    ensures forall i :: 0 <= i < |os'| && os'[i].InTransit() ==>
              os'[i].endsAt.Some? && (now < os'[i].endsAt.value || StartedBySync(os'[i], t, cfg))
  {
  }

  /** A transit left overdue by a tick can only be one that a late synchronization inside that very
      tick started. */
  lemma OverdueTransitsComeFromLateSync(s: State, now: Time, tape: Tape, pos: nat, cfg: Config)
    requires Inv(s, cfg) && Clock(s) <= now && s.lastTickAt != Some(now)
    requires Tick(s, now, tape, pos, cfg).Ok?
    ensures var os' := Tick(s, now, tape, pos, cfg).value.state.observers;
            forall i :: 0 <= i < |os'| && os'[i].InTransit() ==>
              os'[i].endsAt.Some? && (now < os'[i].endsAt.value || StartedBySync(os'[i], Clock(s), cfg))
  {
    TickOnlySyncStarts(s, now, tape, pos, cfg);
    MidTickIsFresh(s, now, cfg);
    OnlySyncMakesOverdue(MidTick(s, now, cfg).observers, Tick(s, now, tape, pos, cfg).value.state.observers, Clock(s), now, cfg);
  }

  /** When ticks come at least once per shortest transit, no transit is ever overdue and the roster
      check of the next command passes. */
  lemma PromptTicksStayFresh(s: State, now: Time, tape: Tape, pos: nat, cfg: Config)
    requires Inv(s, cfg) && Clock(s) <= now && s.lastTickAt != Some(now)
    requires Tick(s, now, tape, pos, cfg).Ok?
    requires now - Clock(s) <= cfg.observerTransitMin
    ensures var s' := Tick(s, now, tape, pos, cfg).value.state;
            Fresh(s', now) && ValidRoster(s'.observers, now)
  {
    OverdueTransitsComeFromLateSync(s, now, tape, pos, cfg);
    TickKeepsInvariant(s, now, tape, pos, cfg);
    FreshMeansSoundRoster(Tick(s, now, tape, pos, cfg).value.state, now, now, cfg);
  }
}

/** The inductive invariant of the simulation. The validity the program checks before a tick is
    not inductive on its own; this strengthening is, and it implies that validity at every
    later instant. */
module Invariants {
  import opened Base
  import opened Randomness
  import opened Portals
  import opened Labs
  import opened Observers
  import opened States
  import opened Commands
  import opened Ticks

  /** The instant up to which a state has been resolved. */
  function Clock(s: State): Time {
    if s.lastTickAt.Some? then s.lastTickAt.value else s.lab.energyBaseAt
  }

  ghost predicate PortalInv(p: Portal, t: Time, cfg: Config) {
    && ValidPortal(p, t, cfg)
    && (p.status == Open ==> t <= p.Deadline())
    && (p.kind == Extraction && p.status == Open && p.syncedAt.None? ==> p.energyBaseAt == p.openedAt == p.updatedAt)
    && (p.syncedAt.Some? ==> p.syncedAt.value <= p.updatedAt)
    && (p.kind == Extraction ==> ExtractionBaseline(p, cfg))
  }

  /** What the extraction factory guarantees; nothing rebases an extraction portal afterwards. */
  predicate ExtractionBaseline(p: Portal, cfg: Config) {
    && p.scheduledCloseAt >= p.openedAt + cfg.extractionTTLMin
    && p.energyBase >= cfg.extractionEnergyMin && p.decay <= cfg.portalDecayMax
  }

  ghost predicate ObserverInv(o: Observer, planes: seq<Plane>, ps: seq<Portal>, t: Time) {
    && ValidObserver(o, planes, ps, t)
    && (o.startedAt.Some? ==> o.createdAt <= o.startedAt.value <= o.updatedAt)
  }

  /** Whoever is in a corridor is in an OPEN one, and not in one still synchronizing. */
  ghost predicate TransitOpen(o: Observer, ps: seq<Portal>) {
    o.InTransit() ==>
      var p := PortalOf(o, ps);
      p.Some? && p.value.status == Open && (p.value.kind == Extraction ==> p.value.syncedAt.Some?)
  }

  ghost predicate OneTransitEach(os: seq<Observer>) {
    forall i, j :: 0 <= i < j < |os| && os[i].InTransit() && os[j].InTransit() ==> os[i].portal != os[j].portal
  }

  ghost predicate ObserversFirst(os: seq<Observer>, ps: seq<Portal>) {
    forall i, j :: 0 <= i < |os| && 0 <= j < |ps| ==> os[i].createdAt <= ps[j].openedAt
  }

  ghost predicate PortalsInv(ps: seq<Portal>, planes: seq<Plane>, next: int, t: Time, cfg: Config) {
    && DistinctPortalIds(ps) && DistinctOpenSlots(ps)
    && forall i :: 0 <= i < |ps| ==>
         PortalInv(ps[i], t, cfg) && FindPlane(planes, ps[i].plane).Some? && ps[i].id < next
  }

  ghost predicate ObserversInv(os: seq<Observer>, planes: seq<Plane>, ps: seq<Portal>, t: Time) {
    && DistinctObserverIds(os) && OneTransitEach(os) && ObserversFirst(os, ps)
    && forall i :: 0 <= i < |os| ==> ObserverInv(os[i], planes, ps, t) && TransitOpen(os[i], ps)
  }

  ghost predicate NothingDue(ps: seq<Portal>, t: Time, cfg: Config) {
    forall i :: 0 <= i < |ps| ==> !SyncDue(ps[i], t, cfg)
  }

  ghost predicate Frame(s: State, t: Time, cfg: Config) {
    && |s.planes| == PLANE_COUNT && |s.observers| == cfg.observerCount && s.nextPortalID > 0
    && s.lab.ValidBaseline(t, cfg)
    && (s.lastTickAt.Some? ==> s.lastTickAt.value <= t)
    && ValidSpawn(s.spawn, t)
    && ValidPlanes(s.planes, t)
  }

  /** The state is resolved up to `t` and nothing in it is overdue. */
  ghost predicate InvAt(s: State, t: Time, cfg: Config) {
    && Frame(s, t, cfg)
    && PortalsInv(s.portals, s.planes, s.nextPortalID, t, cfg)
    && ObserversInv(s.observers, s.planes, s.portals, t)
    && NothingDue(s.portals, t, cfg)
  }

  ghost predicate Inv(s: State, cfg: Config) {
    InvAt(s, Clock(s), cfg)
  }

  // ---------------------------------------------------------------- the invariant implies validity

  /** The preflight check of every tick at or after the clock passes. */
  lemma InvIsValid(s: State, t: Time, now: Time, cfg: Config)
    requires InvAt(s, t, cfg) && t <= now
    ensures ValidState(s, now, cfg)
  {
  }

  // ---------------------------------------------------------------- portal stage

  lemma PortalStep(p: Portal, t: Time, now: Time, cfg: Config)
    requires PortalInv(p, t, cfg) && t <= now
    ensures PortalInv(p.ResolveLifecycle(now), now, cfg)
    ensures p.IsTerminal() ==> p.ResolveLifecycle(now) == p
    ensures var q := p.ResolveLifecycle(now);
            && q.id == p.id && q.slot == p.slot && q.plane == p.plane && q.kind == p.kind && q.flow == p.flow
            && q.openedAt == p.openedAt && q.syncedAt == p.syncedAt
            && (q.status == Open ==> p == q)
            && (p.status == Open && q.status != Open ==> q.closedAt.Some? && t <= q.closedAt.value <= now && q.closedAt.value == p.Deadline())
  {
  }

  lemma {:induction false} FindBySameIds(ps: seq<Portal>, qs: seq<Portal>, id: int)
    requires |ps| == |qs| && forall i :: 0 <= i < |ps| ==> ps[i].id == qs[i].id
    ensures FindPortal(ps, id) == FindPortal(qs, id)
  {
    if |ps| > 0 {
      FindBySameIds(ps[..|ps| - 1], qs[..|qs| - 1], id);
    }
  }

  lemma {:induction false} FindPlaneBySameIds(ps: seq<Plane>, qs: seq<Plane>, id: int)
    requires |ps| == |qs| && forall i :: 0 <= i < |ps| ==> ps[i].id == qs[i].id
    ensures FindPlane(ps, id) == FindPlane(qs, id)
  {
    if |ps| > 0 {
      FindPlaneBySameIds(ps[..|ps| - 1], qs[..|qs| - 1], id);
    }
  }

  lemma FindAfterAppend(ps: seq<Portal>, p: Portal, id: int)
    requires FindPortal(ps, id).Some?
    ensures FindPortal(ps + [p], id) == FindPortal(ps, id)
  {
  }

  lemma PortalStageKeeps(ps: seq<Portal>, planes: seq<Plane>, next: int, t: Time, now: Time, cfg: Config)
    requires PortalsInv(ps, planes, next, t, cfg) && t <= now
    ensures PortalsInv(PortalsAfter(ps, now), planes, next, now, cfg)
  {
    var qs := PortalsAfter(ps, now);
    forall i | 0 <= i < |qs|
      ensures PortalInv(qs[i], now, cfg) && qs[i].id == ps[i].id && qs[i].plane == ps[i].plane && qs[i].slot == ps[i].slot
      ensures qs[i].status == Open ==> ps[i].status == Open
    {
      PortalStep(ps[i], t, now, cfg);
    }
  }

  /** Every collapse of the interval postdates the ledger's baseline, so it can be booked. */
  lemma CollapsesAreBookable(lab: Lab, ps: seq<Portal>, planes: seq<Plane>, next: int, t: Time, now: Time, cfg: Config)
    requires PortalsInv(ps, planes, next, t, cfg) && lab.ValidBaseline(t, cfg) && t <= now
    ensures !UnbookableCollapse(lab, ps, now)
    ensures LabAfter(lab, ps, now, cfg).ValidBaseline(now, cfg)
  {
  }

  // ---------------------------------------------------------------- observer stage

  /** Before the observer stage a corridor may have closed under its traveller, at or after `t`. */
  ghost predicate TransitSettling(o: Observer, qs: seq<Portal>, t: Time, now: Time) {
    o.InTransit() ==>
      var q := PortalOf(o, qs);
      && q.Some?
      && (q.value.status != Open ==> q.value.closedAt.Some? && t <= q.value.closedAt.value <= now)
      && (q.value.kind == Extraction ==> q.value.syncedAt.Some?)
  }

  lemma ObserverThroughPortalStage(o: Observer, planes: seq<Plane>, ps: seq<Portal>, next: int, t: Time, now: Time, cfg: Config)
    requires PortalsInv(ps, planes, next, t, cfg) && t <= now
    requires ObserverInv(o, planes, ps, t) && TransitOpen(o, ps)
    ensures var qs := PortalsAfter(ps, now);
            ObserverInv(o, planes, qs, t) && TransitSettling(o, qs, t, now)
  {
    var qs := PortalsAfter(ps, now);
    forall i | 0 <= i < |qs|
      ensures qs[i].id == ps[i].id && qs[i].plane == ps[i].plane && qs[i].flow == ps[i].flow
      ensures qs[i].kind == ps[i].kind && qs[i].syncedAt == ps[i].syncedAt
      ensures ps[i].status == Open && qs[i].status != Open ==> qs[i].closedAt.Some? && t <= qs[i].closedAt.value <= now
    {
      PortalStep(ps[i], t, now, cfg);
    }
    if o.portal.Some? {
      FindBySameIds(ps, qs, o.portal.value);
    }
  }

  /** One observer resolved at `now` is again valid, and if still in a corridor, in an open one
      whose transit has not ended yet. */
  lemma ObserverStep(o: Observer, planes: seq<Plane>, qs: seq<Portal>, t: Time, now: Time, cfg: Config)
    requires DistinctPortalIds(qs) && t <= now
    requires forall j :: 0 <= j < |qs| ==> FindPlane(planes, qs[j].plane).Some? && o.createdAt <= qs[j].openedAt
    requires forall j :: 0 <= j < |qs| && qs[j].closedAt.Some? ==> qs[j].openedAt <= qs[j].closedAt.value
    requires ObserverInv(o, planes, qs, t) && TransitSettling(o, qs, t, now)
    ensures var o' := ObserverAfter(o, qs, now, cfg);
            && ObserverInv(o', planes, qs, now) && TransitOpen(o', qs)
            && (o'.InTransit() ==> o' == o && now < o'.endsAt.value)
            && o'.id == o.id && o'.createdAt == o.createdAt
            && (o.status == Lost ==> o' == o)
  {
    var o' := ObserverAfter(o, qs, now, cfg);
    if o.portal.Some? {
      assert FindPortal(qs, o.portal.value).Some?;
    }
  }

  lemma PlaneStage(planes: seq<Plane>, os: seq<Observer>, qs: seq<Portal>, now: Time, cfg: Config, t: Time)
    requires ValidPlanes(planes, t) && t <= now
    ensures ValidPlanes(PlanesAfter(planes, os, qs, now, cfg), now)
    ensures forall id :: FindPlane(PlanesAfter(planes, os, qs, now, cfg), id) == FindPlane(planes, id)
  {
    var planes' := PlanesAfter(planes, os, qs, now, cfg);
    forall j | 0 <= j < |planes|
      ensures ValidPlane(planes'[j], now) && planes'[j].id == planes[j].id
    {
      assert ValidPlane(planes[j], t);
      var r := EarliestReturn(os, qs, planes[j].id, now, cfg);
      if r.Some? {
        var i :| 0 <= i < |os| && ReturnsFrom(os[i], qs, planes[j].id, now, cfg) && os[i].endsAt.value == r.value;
        assert r.value <= now;
      }
    }
    forall id ensures FindPlane(planes', id) == FindPlane(planes, id) {
      FindPlaneBySameIds(planes', planes, id);
    }
  }

  /** After the observer stage: everything but overdue synchronizations is in order. */
  ghost predicate MidInv(s: State, now: Time, cfg: Config) {
    && Frame(s, now, cfg)
    && PortalsInv(s.portals, s.planes, s.nextPortalID, now, cfg)
    && ObserversInv(s.observers, s.planes, s.portals, now)
  }

  lemma PortalStageFacts(ps: seq<Portal>, planes: seq<Plane>, next: int, t: Time, now: Time, cfg: Config)
    requires PortalsInv(ps, planes, next, t, cfg) && t <= now
    ensures var qs := PortalsAfter(ps, now);
            forall j :: 0 <= j < |qs| ==>
              && qs[j].openedAt == ps[j].openedAt
              && FindPlane(planes, qs[j].plane).Some?
              && (qs[j].closedAt.Some? ==> qs[j].openedAt <= qs[j].closedAt.value)
  {
  }

  lemma ObserverThroughTick(o: Observer, os: seq<Observer>, planes: seq<Plane>, ps: seq<Portal>, next: int, t: Time, now: Time, cfg: Config)
    requires PortalsInv(ps, planes, next, t, cfg) && t <= now
    requires ObserversFirst(os, ps) && o in os
    requires ObserverInv(o, planes, ps, t) && TransitOpen(o, ps)
    ensures var qs := PortalsAfter(ps, now);
            var o' := ObserverAfter(o, qs, now, cfg);
            && ObserverInv(o', planes, qs, now) && TransitOpen(o', qs)
            && (o'.InTransit() ==> o' == o && now < o'.endsAt.value)
            && o'.id == o.id && o'.createdAt == o.createdAt
            && (o.status == Lost ==> o' == o)
  {
    PortalStageKeeps(ps, planes, next, t, now, cfg);
    PortalStageFacts(ps, planes, next, t, now, cfg);
    ObserverThroughPortalStage(o, planes, ps, next, t, now, cfg);
    ObserverStep(o, planes, PortalsAfter(ps, now), t, now, cfg);
  }

  /** The observers after the portal and observer stages. */
  lemma ObserverStageKeeps(os: seq<Observer>, planes: seq<Plane>, ps: seq<Portal>, next: int, t: Time, now: Time, cfg: Config)
    requires PortalsInv(ps, planes, next, t, cfg) && t <= now
    requires ObserversInv(os, planes, ps, t)
    ensures var qs := PortalsAfter(ps, now);
            var os' := ObserversAfter(os, qs, now, cfg);
            && ObserversInv(os', planes, qs, now)
            && forall i :: 0 <= i < |os| ==> os'[i].InTransit() ==> now < os'[i].endsAt.value
  {
    var qs := PortalsAfter(ps, now);
    var os' := ObserversAfter(os, qs, now, cfg);
    PortalStageFacts(ps, planes, next, t, now, cfg);
    forall i | 0 <= i < |os|
      ensures ObserverInv(os'[i], planes, qs, now) && TransitOpen(os'[i], qs)
      ensures os'[i].InTransit() ==> os'[i] == os[i] && now < os'[i].endsAt.value
      ensures os'[i].id == os[i].id && os'[i].createdAt == os[i].createdAt
    {
      ObserverThroughTick(os[i], os, planes, ps, next, t, now, cfg);
    }
  }

  lemma ObserversInvIgnoresPlaneContents(os: seq<Observer>, planes: seq<Plane>, planes': seq<Plane>, ps: seq<Portal>, t: Time)
    requires ObserversInv(os, planes, ps, t)
    requires forall id :: FindPlane(planes', id) == FindPlane(planes, id)
    ensures ObserversInv(os, planes', ps, t)
  {
  }

  lemma PortalsInvIgnoresPlaneContents(ps: seq<Portal>, planes: seq<Plane>, planes': seq<Plane>, next: int, t: Time, cfg: Config)
    requires PortalsInv(ps, planes, next, t, cfg)
    requires forall id :: FindPlane(planes', id) == FindPlane(planes, id)
    ensures PortalsInv(ps, planes', next, t, cfg)
  {
  }

  lemma MidTickKeeps(s: State, t: Time, now: Time, cfg: Config)
    requires MidInv(s, t, cfg) && t <= now
    ensures !UnbookableCollapse(s.lab, s.portals, now)
    ensures MidInv(MidTick(s, now, cfg), now, cfg)
    ensures var os' := MidTick(s, now, cfg).observers;
            forall i :: 0 <= i < |os'| ==> os'[i].InTransit() ==> now < os'[i].endsAt.value
  {
    var mid := MidTick(s, now, cfg);
    var qs := PortalsAfter(s.portals, now);
    PortalStageKeeps(s.portals, s.planes, s.nextPortalID, t, now, cfg);
    CollapsesAreBookable(s.lab, s.portals, s.planes, s.nextPortalID, t, now, cfg);
    PlaneStage(s.planes, s.observers, qs, now, cfg, t);
    ObserverStageKeeps(s.observers, s.planes, s.portals, s.nextPortalID, t, now, cfg);
    ObserversInvIgnoresPlaneContents(mid.observers, s.planes, mid.planes, qs, now);
    PortalsInvIgnoresPlaneContents(qs, s.planes, mid.planes, s.nextPortalID, now, cfg);
  }

  // ---------------------------------------------------------------- extraction stage

  /** A portal that is due is already CRITICAL at its own synchronization moment. */
  predicate CriticalAtSync(p: Portal, cfg: Config) {
    MarkSynced(p, cfg).IsCritical(p.openedAt + cfg.extractionSync, cfg)
  }

  ghost predicate StageInv(ps: seq<Portal>, os: seq<Observer>, planes: seq<Plane>, next: int, now: Time, cfg: Config) {
    PortalsInv(ps, planes, next, now, cfg) && ObserversInv(os, planes, ps, now)
  }

  lemma NobodyOnUnsynced(ps: seq<Portal>, os: seq<Observer>, planes: seq<Plane>, next: int, k: nat, now: Time, at: Time, cfg: Config)
    requires StageInv(ps, os, planes, next, now, cfg) && k < |ps|
    requires ps[k].kind == Extraction && ps[k].syncedAt.None?
    ensures forall i :: 0 <= i < |os| ==> !OnPortal(os[i], ps[k].id)
    ensures ActiveTransit(os, ps[k].id, at) == Ok(None)
    ensures LongestWaiting(os, ps[k].plane).Ok?
  {
    FoundAt(ps, k);
    forall i | 0 <= i < |os|
      ensures !OnPortal(os[i], ps[k].id) && TransitRecorded(os[i]) && WaitingRecorded(os[i])
    {
      assert ObserverInv(os[i], planes, ps, now) && TransitOpen(os[i], ps);
    }
    ActiveTransitDecided(os, |os|, ps[k].id, at);
  }

  /** Synchronizing fails only on a portal due in a CRITICAL moment. Otherwise it marks the portal
      at its semantic moment and sends home whoever in the plane waited longest. */
  lemma SynchronizeOutcome(ps: seq<Portal>, os: seq<Observer>, planes: seq<Plane>, next: int, k: nat, now: Time, tape: Tape, pos: nat, cfg: Config)
    requires StageInv(ps, os, planes, next, now, cfg) && k < |ps| && ps[k].kind == Extraction
    ensures var r := Synchronize(ps[k], os, now, tape, pos, cfg);
            && (r.Err? <==> SyncDue(ps[k], now, cfg) && CriticalAtSync(ps[k], cfg))
            && (r.Err? ==> r.error == PortalCriticalRisk)
            && (!SyncDue(ps[k], now, cfg) ==> r == Ok(Synced(ps[k], os, pos)))
            && (r.Ok? && SyncDue(ps[k], now, cfg) ==>
                  var waiting := LongestWaiting(os, ps[k].plane).value;
                  var syncAt := ps[k].openedAt + cfg.extractionSync;
                  if waiting.None? then r.value == Synced(MarkSynced(ps[k], cfg), os, pos)
                  else
                    r.value == Synced(MarkSynced(ps[k], cfg),
                                      os[waiting.value := os[waiting.value].StartReturning(syncAt, ps[k].id, TransitSeconds(tape, pos, cfg)).value],
                                      pos + 1))
  {
    if SyncDue(ps[k], now, cfg) {
      var syncAt := ps[k].openedAt + cfg.extractionSync;
      NobodyOnUnsynced(ps, os, planes, next, k, now, syncAt, cfg);
      var marked := MarkSynced(ps[k], cfg);
      assert marked.CreaturesInside(syncAt, cfg) == 0 by {
        DivisionBound(Max(0, syncAt - marked.openedAt), cfg.creatureTransit, 0);
      }
    }
  }

  lemma MarkedPortal(p: Portal, now: Time, cfg: Config)
    requires PortalInv(p, now, cfg) && SyncDue(p, now, cfg)
    ensures PortalInv(MarkSynced(p, cfg), now, cfg)
    ensures !SyncDue(MarkSynced(p, cfg), now, cfg)
  {
  }

  lemma MarkKeepsPortals(ps: seq<Portal>, planes: seq<Plane>, next: int, k: nat, now: Time, cfg: Config)
    requires PortalsInv(ps, planes, next, now, cfg) && k < |ps| && SyncDue(ps[k], now, cfg)
    ensures PortalsInv(ps[k := MarkSynced(ps[k], cfg)], planes, next, now, cfg)
  {
    MarkedPortal(ps[k], now, cfg);
  }

  /** Changing portal `k` in nothing an observer's record depends on keeps every record valid. */
  lemma ObserversSurvivePortalChange(ps: seq<Portal>, os: seq<Observer>, planes: seq<Plane>, k: nat, q: Portal, t: Time)
    requires k < |ps| && ObserversInv(os, planes, ps, t)
    requires q.id == ps[k].id && q.plane == ps[k].plane && q.kind == ps[k].kind && q.openedAt == ps[k].openedAt
    requires q.flow == ps[k].flow || forall i :: 0 <= i < |os| ==> !OnPortal(os[i], ps[k].id)
    requires (q.status == ps[k].status && (ps[k].syncedAt.Some? ==> q.syncedAt.Some?))
             || forall i :: 0 <= i < |os| ==> !OnPortal(os[i], ps[k].id)
    ensures ObserversInv(os, planes, ps[k := q], t)
  {
    var qs := ps[k := q];
    forall i | 0 <= i < |os| ensures ObserverInv(os[i], planes, qs, t) && TransitOpen(os[i], qs) {
      assert ObserverInv(os[i], planes, ps, t) && TransitOpen(os[i], ps);
      if os[i].portal.Some? {
        FindBySameIds(ps, qs, os[i].portal.value);
      }
    }
  }

  /** Starting a return on an idle, open, admissible portal keeps the roster valid. */
  lemma ReturnKeepsObservers(ps: seq<Portal>, os: seq<Observer>, planes: seq<Plane>, k: nat, i: nat, at: Time, seconds: int, now: Time)
    requires k < |ps| && DistinctPortalIds(ps) && ObserversInv(os, planes, ps, now)
    requires ps[k].status == Open && ps[k].flow == FlowInbound && (ps[k].kind == Extraction ==> ps[k].syncedAt.Some?)
    requires forall j :: 0 <= j < |os| ==> !OnPortal(os[j], ps[k].id)
    requires i < |os| && WaitsIn(os[i], ps[k].plane) && ps[k].openedAt <= at <= now && seconds > 0
    ensures ObserversInv(os[i := os[i].StartReturning(at, ps[k].id, seconds).value], planes, ps, now)
  {
  }

  /** Marking a due portal keeps both collections valid, and so does sending its longest waiter home. */
  lemma MarkKeepsStage(ps: seq<Portal>, os: seq<Observer>, planes: seq<Plane>, next: int, k: nat, now: Time, cfg: Config)
    requires StageInv(ps, os, planes, next, now, cfg) && k < |ps| && SyncDue(ps[k], now, cfg)
    ensures StageInv(ps[k := MarkSynced(ps[k], cfg)], os, planes, next, now, cfg)
  {
    NobodyOnUnsynced(ps, os, planes, next, k, now, ps[k].openedAt + cfg.extractionSync, cfg);
    MarkedPortal(ps[k], now, cfg);
    MarkKeepsPortals(ps, planes, next, k, now, cfg);
    ObserversSurvivePortalChange(ps, os, planes, k, MarkSynced(ps[k], cfg), now);
  }

  lemma HomewardKeepsStage(ps: seq<Portal>, os: seq<Observer>, planes: seq<Plane>, next: int, k: nat, i: nat, seconds: int, now: Time, cfg: Config)
    requires StageInv(ps, os, planes, next, now, cfg) && k < |ps| && SyncDue(ps[k], now, cfg)
    requires i < |os| && WaitsIn(os[i], ps[k].plane) && seconds > 0
    ensures var syncAt := ps[k].openedAt + cfg.extractionSync;
            StageInv(ps[k := MarkSynced(ps[k], cfg)], os[i := os[i].StartReturning(syncAt, ps[k].id, seconds).value], planes, next, now, cfg)
  {
    NobodyOnUnsynced(ps, os, planes, next, k, now, ps[k].openedAt + cfg.extractionSync, cfg);
    MarkKeepsStage(ps, os, planes, next, k, now, cfg);
    ReturnKeepsObservers(ps[k := MarkSynced(ps[k], cfg)], os, planes, k, i, ps[k].openedAt + cfg.extractionSync, seconds, now);
  }

  lemma SynchronizeKeeps(ps: seq<Portal>, os: seq<Observer>, planes: seq<Plane>, next: int, k: nat, now: Time, tape: Tape, pos: nat, cfg: Config)
    requires StageInv(ps, os, planes, next, now, cfg) && k < |ps| && ps[k].kind == Extraction
    requires Synchronize(ps[k], os, now, tape, pos, cfg).Ok?
    ensures var r := Synchronize(ps[k], os, now, tape, pos, cfg).value;
            && StageInv(ps[k := r.portal], r.observers, planes, next, now, cfg)
            && !SyncDue(r.portal, now, cfg)
            && |r.observers| == |os|
  {
    SynchronizeOutcome(ps, os, planes, next, k, now, tape, pos, cfg);
    if SyncDue(ps[k], now, cfg) {
      MarkedPortal(ps[k], now, cfg);
      NobodyOnUnsynced(ps, os, planes, next, k, now, now, cfg);
      var waiting := LongestWaiting(os, ps[k].plane).value;
      if waiting.Some? {
        TransitSecondsInRange(tape, pos, cfg);
        HomewardKeepsStage(ps, os, planes, next, k, waiting.value, TransitSeconds(tape, pos, cfg), now, cfg);
      } else {
        MarkKeepsStage(ps, os, planes, next, k, now, cfg);
      }
    } else {
      assert ps[k := ps[k]] == ps;
    }
  }

  /** The whole stage: it fails exactly when some portal is due in a CRITICAL moment, and
      otherwise leaves nothing due. */
  lemma {:induction false} SynchronizeAllKeeps(ps: seq<Portal>, os: seq<Observer>, planes: seq<Plane>, next: int, order: seq<nat>, now: Time, tape: Tape, pos: nat, cfg: Config)
    requires StageInv(ps, os, planes, next, now, cfg)
    requires forall x :: x in order ==> x < |ps| && ps[x].kind == Extraction
    ensures var r := SynchronizeAll(ps, os, order, now, tape, pos, cfg);
            && (r.Err? <==> exists x :: x in order && SyncDue(ps[x], now, cfg) && CriticalAtSync(ps[x], cfg))
            && (r.Err? ==> r.error == PortalCriticalRisk)
            && (r.Ok? ==>
                  && StageInv(r.value.portals, r.value.observers, planes, next, now, cfg)
                  && (forall x :: 0 <= x < |ps| && SyncDue(r.value.portals[x], now, cfg) ==> x !in order && r.value.portals[x] == ps[x]))
    decreases |order|
  {
    if |order| > 0 {
      var k := order[0];
      assert k in order;
      SynchronizeOutcome(ps, os, planes, next, k, now, tape, pos, cfg);
      var first := Synchronize(ps[k], os, now, tape, pos, cfg);
      if first.Ok? {
        SynchronizeKeeps(ps, os, planes, next, k, now, tape, pos, cfg);
        var ps' := ps[k := first.value.portal];
        assert forall x :: x in order <==> x == k || x in order[1..];
        SynchronizeAllKeeps(ps', first.value.observers, planes, next, order[1..], now, tape, first.value.pos, cfg);
        assert forall x :: 0 <= x < |ps| && x != k ==> ps'[x] == ps[x];
      }
    }
  }

  // ---------------------------------------------------------------- spawn stage

  lemma NaturalPortalIsValid(id: int, plane: int, slot: int, now: Time, cfg: Config, tape: Tape, pos: nat)
    requires id > 0 && plane > 0 && 1 <= slot <= 7
    ensures var p := NewNaturalPortal(id, plane, slot, now, cfg, tape, pos).value;
            PortalInv(p, now, cfg) && p.status == Open && p.openedAt == now && p.kind == Natural
  {
  }

  lemma ExtractionPortalIsValid(id: int, plane: int, slot: int, now: Time, cfg: Config, tape: Tape, pos: nat)
    requires id > 0 && plane > 0 && 1 <= slot <= 7
    ensures var p := NewExtractionPortal(id, plane, slot, now, cfg, tape, pos).value;
            PortalInv(p, now, cfg) && p.status == Open && p.openedAt == now && !SyncDue(p, now, cfg)
  {
  }

  lemma AppendKeeps(ps: seq<Portal>, os: seq<Observer>, planes: seq<Plane>, next: int, p: Portal, now: Time, cfg: Config)
    requires StageInv(ps, os, planes, next, now, cfg)
    requires PortalInv(p, now, cfg) && p.status == Open && p.openedAt == now && p.id == next
    requires FindPlane(planes, p.plane).Some? && p.slot !in OpenSlots(ps)
    ensures StageInv(ps + [p], os, planes, next + 1, now, cfg)
  {
    var qs := ps + [p];
    forall i | 0 <= i < |os| ensures ObserverInv(os[i], planes, qs, now) && TransitOpen(os[i], qs) {
      assert ObserverInv(os[i], planes, ps, now) && TransitOpen(os[i], ps);
      if os[i].portal.Some? {
        FindAfterAppend(ps, p, os[i].portal.value);
      }
    }
    forall i | 0 <= i < |ps| && ps[i].status == Open ensures ps[i].slot != p.slot {
      assert ps[i].slot in OpenSlots(ps);
    }
  }

  lemma GrownKeeps(s: State, slot: int, now: Time, tape: Tape, pos: nat, cfg: Config)
    requires MidInv(s, now, cfg) && NothingDue(s.portals, now, cfg) && FreeSlot(s.portals, cfg.maxActivePortals) == Some(slot)
    ensures var p := NewNaturalPortal(s.nextPortalID, s.planes[tape.Int(pos, 0, |s.planes| - 1)].id, slot, now, cfg, tape, pos + 1).value;
            var grown := s.(portals := s.portals + [p], nextPortalID := s.nextPortalID + 1);
            MidInv(grown, now, cfg) && NothingDue(grown.portals, now, cfg)
  {
    var j := tape.Int(pos, 0, |s.planes| - 1);
    PlaneFoundAt(s.planes, j);
    NaturalPortalIsValid(s.nextPortalID, s.planes[j].id, slot, now, cfg, tape, pos + 1);
    AppendKeeps(s.portals, s.observers, s.planes, s.nextPortalID,
                NewNaturalPortal(s.nextPortalID, s.planes[j].id, slot, now, cfg, tape, pos + 1).value, now, cfg);
  }

  lemma RescheduledKeeps(s: State, spawn: Spawn, now: Time, cfg: Config)
    requires MidInv(s, now, cfg) && ValidSpawn(spawn, now)
    ensures MidInv(s.(spawn := spawn), now, cfg)
  {
  }

  lemma NewSpawnIsValid(now: Time, cfg: Config, tape: Tape, pos: nat)
    ensures ValidSpawn(NewSpawn(now, cfg, tape, pos).value, now) && ValidSpawn(PAUSED, now)
  {
  }

  /** Fewer than the maximum number of open portals always leaves a free slot, so the spawn
      stage never fails. */
  lemma SpawnKeeps(s: State, now: Time, tape: Tape, pos: nat, cfg: Config)
    requires MidInv(s, now, cfg) && NothingDue(s.portals, now, cfg)
    ensures NaturalSpawn(s, now, tape, pos, cfg).Ok?
    ensures var s' := NaturalSpawn(s, now, tape, pos, cfg).value.state;
            MidInv(s', now, cfg) && NothingDue(s'.portals, now, cfg)
  {
    SlotPigeonhole(s.portals, cfg.maxActivePortals);
    var spawned := NaturalSpawn(s, now, tape, pos, cfg);
    if CountOpen(s.portals) < cfg.maxActivePortals && !s.spawn.paused && SpawnDue(s.spawn, now) {
      var slot := FreeSlot(s.portals, cfg.maxActivePortals).value;
      GrownKeeps(s, slot, now, tape, pos, cfg);
      var drawn := NewNaturalPortal(s.nextPortalID, s.planes[tape.Int(pos, 0, |s.planes| - 1)].id, slot, now, cfg, tape, pos + 1);
      var grown := s.(portals := s.portals + [drawn.value], nextPortalID := s.nextPortalID + 1);
      NewSpawnIsValid(now, cfg, tape, drawn.pos);
      RescheduledKeeps(grown, spawned.value.state.spawn, now, cfg);
    } else {
      NewSpawnIsValid(now, cfg, tape, pos);
      RescheduledKeeps(s, spawned.value.state.spawn, now, cfg);
    }
  }

  // ---------------------------------------------------------------- the tick

  /** Some extraction portal reaches its synchronization in a CRITICAL moment during this tick. */
  ghost predicate SyncImpossible(s: State, now: Time, cfg: Config) {
    exists i :: 0 <= i < |s.portals| &&
      SyncDue(s.portals[i].ResolveLifecycle(now), now, cfg) && CriticalAtSync(s.portals[i].ResolveLifecycle(now), cfg)
  }

  /** Some portal of a stage's input is due in a CRITICAL moment. */
  ghost predicate SyncFails(ps: seq<Portal>, now: Time, cfg: Config) {
    exists x :: 0 <= x < |ps| && SyncDue(ps[x], now, cfg) && CriticalAtSync(ps[x], cfg)
  }

  /** The extraction stage over all its portals. */
  lemma ExtractionStageKeeps(mid: State, now: Time, tape: Tape, pos: nat, cfg: Config)
    requires MidInv(mid, now, cfg)
    ensures var r := SynchronizeAll(mid.portals, mid.observers, ExtractionOrder(mid.portals), now, tape, pos, cfg);
            && (r.Err? <==> SyncFails(mid.portals, now, cfg))
            && (r.Err? ==> r.error == PortalCriticalRisk)
            && (r.Ok? ==>
                  var synced := mid.(portals := r.value.portals, observers := r.value.observers);
                  MidInv(synced, now, cfg) && NothingDue(synced.portals, now, cfg))
  {
    var order := ExtractionOrder(mid.portals);
    SynchronizeAllKeeps(mid.portals, mid.observers, mid.planes, mid.nextPortalID, order, now, tape, pos, cfg);
    assert forall x :: 0 <= x < |mid.portals| && SyncDue(mid.portals[x], now, cfg) ==> x in order;
  }

  /** From a state satisfying the invariant the stages fail exactly when a synchronization falls into a
      CRITICAL moment, and otherwise leave nothing overdue. */
  lemma StagesKeepInvariant(s: State, t: Time, now: Time, tape: Tape, pos: nat, cfg: Config)
    requires InvAt(s, t, cfg) && t <= now
    ensures var r := RunStages(s, now, tape, pos, cfg);
            && (r.Err? <==> SyncImpossible(s, now, cfg))
            && (r.Err? ==> r.error == PortalCriticalRisk)
            && (r.Ok? ==> Inv(r.value.state, cfg) && r.value.state.lastTickAt == Some(now))
  {
    MidTickKeeps(s, t, now, cfg);
    var mid := MidTick(s, now, cfg);
    ExtractionStageKeeps(mid, now, tape, pos, cfg);
    SyncFailsThere(s, now, cfg);
    var r := SynchronizeAll(mid.portals, mid.observers, ExtractionOrder(mid.portals), now, tape, pos, cfg);
    if r.Ok? {
      var synced := mid.(portals := r.value.portals, observers := r.value.observers);
      SpawnKeeps(synced, now, tape, r.value.pos, cfg);
      StampKeeps(NaturalSpawn(synced, now, tape, r.value.pos, cfg).value.state, now, cfg);
    }
  }

  lemma SyncFailsThere(s: State, now: Time, cfg: Config)
    ensures SyncFails(PortalsAfter(s.portals, now), now, cfg) <==> SyncImpossible(s, now, cfg)
  {
  }

  lemma StampKeeps(s: State, now: Time, cfg: Config)
    requires MidInv(s, now, cfg) && NothingDue(s.portals, now, cfg)
    ensures Inv(s.(lastTickAt := Some(now)), cfg)
  {
  }

  /** Every successful tick keeps the invariant and moves the clock to its own time. A tick at or
      after the clock fails exactly when a synchronization falls into a CRITICAL moment. */
  lemma TickKeepsInvariant(s: State, now: Time, tape: Tape, pos: nat, cfg: Config)
    requires Inv(s, cfg) && Clock(s) <= now
    ensures Tick(s, now, tape, pos, cfg).Err? <==> s.lastTickAt != Some(now) && SyncImpossible(s, now, cfg)
    ensures Tick(s, now, tape, pos, cfg).Err? ==> Tick(s, now, tape, pos, cfg).error == PortalCriticalRisk
    ensures Tick(s, now, tape, pos, cfg).Ok? ==>
              var s' := Tick(s, now, tape, pos, cfg).value.state;
              Inv(s', cfg) && s'.lastTickAt == Some(now)
  {
    InvIsValid(s, Clock(s), now, cfg);
    if s.lastTickAt != Some(now) {
      CollapsesAreBookable(s.lab, s.portals, s.planes, s.nextPortalID, Clock(s), now, cfg);
      StagesKeepInvariant(s, Clock(s), now, tape, pos, cfg);
    }
  }
}

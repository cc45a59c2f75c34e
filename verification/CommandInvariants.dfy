/** Every command keeps the invariant, and a refused command changes nothing at all. */
module CommandInvariants {
  import opened Base
  import opened Randomness
  import opened Portals
  import opened Labs
  import opened Observers
  import opened States
  import opened Commands
  import opened Ticks
  import opened Invariants

  lemma StabilizeKeepsPortal(p: Portal, now: Time, cfg: Config)
    requires PortalInv(p, now, cfg) && p.Stabilize(now, cfg).Ok?
    ensures var q := p.Stabilize(now, cfg).value;
            && PortalInv(q, now, cfg) && q.status == Open && p.kind == Natural
            && q.id == p.id && q.slot == p.slot && q.plane == p.plane && q.kind == p.kind && q.flow == p.flow
            && q.openedAt == p.openedAt && q.syncedAt == p.syncedAt
  {
  }

  lemma CloseKeepsPortal(p: Portal, now: Time, confirm: bool, cfg: Config)
    requires PortalInv(p, now, cfg) && p.Close(now, confirm, cfg).Ok?
    ensures var q := p.Close(now, confirm, cfg).value;
            && PortalInv(q, now, cfg) && q.status == Closed && q.closedAt == Some(now)
            && q.id == p.id && q.slot == p.slot && q.plane == p.plane && q.kind == p.kind && q.flow == p.flow
            && q.openedAt == p.openedAt && q.syncedAt == p.syncedAt
  {
  }

  lemma FlowKeepsPortal(p: Portal, flow: Flow, now: Time, cfg: Config)
    requires PortalInv(p, now, cfg) && p.kind == Natural
    ensures PortalInv(p.(flow := flow, updatedAt := now), now, cfg) || p.status != Open
  {
  }

  lemma SpendKeepsLab(lab: Lab, now: Time, cost: int, cfg: Config)
    requires lab.PrepareSpend(now, cost, cfg).Ok?
    ensures lab.CommitSpend(now, cost, lab.PrepareSpend(now, cost, cfg).value).ValidBaseline(now, cfg)
  {
  }

  /** Replacing one portal by one with the same identity keeps the collection valid. */
  lemma ReplaceKeepsPortals(ps: seq<Portal>, planes: seq<Plane>, next: int, k: nat, q: Portal, now: Time, cfg: Config)
    requires PortalsInv(ps, planes, next, now, cfg) && k < |ps| && PortalInv(q, now, cfg)
    requires q.id == ps[k].id && q.slot == ps[k].slot && q.plane == ps[k].plane
    requires q.status == Open ==> ps[k].status == Open
    ensures PortalsInv(ps[k := q], planes, next, now, cfg)
  {
  }

  lemma StabilizeKeeps(s: State, id: int, now: Time, tape: Tape, pos: nat, cfg: Config)
    requires InvAt(s, now, cfg)
    ensures InvAt(Apply(s, Command.Stabilize(id), now, tape, pos, cfg).state, now, cfg)
  {
    var out := Apply(s, Command.Stabilize(id), now, tape, pos, cfg);
    if out.error.None? {
      var k := FindPortal(s.portals, id).value;
      var q := s.portals[k].Stabilize(now, cfg).value;
      StabilizeKeepsPortal(s.portals[k], now, cfg);
      ReplaceKeepsPortals(s.portals, s.planes, s.nextPortalID, k, q, now, cfg);
      ObserversSurvivePortalChange(s.portals, s.observers, s.planes, k, q, now);
      SpendKeepsLab(s.lab, now, s.lab.StabilizeCost(now, cfg), cfg);
    }
  }

  /** Under the invariant the observer caught in a hand-closed corridor is lost at that moment,
      and nobody else is touched. */
  lemma CloseLosesExactlyTheTraveller(s: State, k: nat, closed: Portal, now: Time, cfg: Config)
    requires InvAt(s, now, cfg) && k < |s.portals| && closed.id == s.portals[k].id
    requires closed.status == Closed && closed.closedAt == Some(now)
    requires ActiveTransit(s.observers, closed.id, now).Ok?
    ensures var os := ObserversAfterClose(closed, s.observers, now, cfg);
            && |os| == |s.observers|
            && forall i :: 0 <= i < |os| ==>
                 os[i] == if OnPortal(s.observers[i], closed.id) then s.observers[i].Vanish(now) else s.observers[i]
  {
  }

  /** In a consistent aggregate whoever is in a corridor belongs to the plane it leads to. */
  lemma CloseNeverStrands(s: State, k: nat, j: nat, closed: Portal, now: Time, cfg: Config)
    requires InvAt(s, now, cfg) && k < |s.portals| && j < |s.planes|
    requires closed.id == s.portals[k].id && closed.plane == s.portals[k].plane == s.planes[j].id
    requires closed.status == Closed && closed.closedAt == Some(now)
    ensures !CloseStrands(closed, s.planes[j], s.observers, now)
  {
  }

  lemma LostIsRecorded(o: Observer, planes: seq<Plane>, ps: seq<Portal>, now: Time, id: int)
    requires ObserverInv(o, planes, ps, now)
    ensures ObserverInv(o.Vanish(now), planes, ps, now) && TransitOpen(o.Vanish(now), ps) && !OnPortal(o.Vanish(now), id)
    ensures o.Vanish(now).id == o.id && o.Vanish(now).createdAt == o.createdAt && !o.Vanish(now).InTransit()
  {
  }

  /** Losing the traveller keeps the roster valid, and leaves nobody on the portal. */
  lemma LossKeepsObservers(s: State, k: nat, closed: Portal, now: Time, cfg: Config)
    requires InvAt(s, now, cfg) && k < |s.portals| && closed.id == s.portals[k].id
    requires closed.status == Closed && closed.closedAt == Some(now)
    requires ActiveTransit(s.observers, closed.id, now).Ok?
    ensures var os := ObserversAfterClose(closed, s.observers, now, cfg);
            ObserversInv(os, s.planes, s.portals, now) && forall i :: 0 <= i < |os| ==> !OnPortal(os[i], closed.id)
  {
    CloseLosesExactlyTheTraveller(s, k, closed, now, cfg);
    forall i | 0 <= i < |s.observers| && OnPortal(s.observers[i], closed.id)
      ensures ObserverInv(s.observers[i].Vanish(now), s.planes, s.portals, now)
      ensures TransitOpen(s.observers[i].Vanish(now), s.portals) && !OnPortal(s.observers[i].Vanish(now), closed.id)
      ensures s.observers[i].Vanish(now).id == s.observers[i].id && s.observers[i].Vanish(now).createdAt == s.observers[i].createdAt
      ensures !s.observers[i].Vanish(now).InTransit()
    {
      LostIsRecorded(s.observers[i], s.planes, s.portals, now, closed.id);
    }
  }

  lemma CloseKeepsObservers(s: State, k: nat, closed: Portal, now: Time, cfg: Config)
    requires InvAt(s, now, cfg) && k < |s.portals| && closed.id == s.portals[k].id
    requires closed.plane == s.portals[k].plane && closed.openedAt == s.portals[k].openedAt && closed.flow == s.portals[k].flow
    requires closed.kind == s.portals[k].kind && closed.syncedAt == s.portals[k].syncedAt
    requires closed.status == Closed && closed.closedAt == Some(now)
    requires ActiveTransit(s.observers, closed.id, now).Ok?
    ensures ObserversInv(ObserversAfterClose(closed, s.observers, now, cfg), s.planes, s.portals[k := closed], now)
  {
    LossKeepsObservers(s, k, closed, now, cfg);
    ObserversSurvivePortalChange(s.portals, ObserversAfterClose(closed, s.observers, now, cfg), s.planes, k, closed, now);
  }

  lemma CloseKeeps(s: State, id: int, confirm: bool, now: Time, tape: Tape, pos: nat, cfg: Config)
    requires InvAt(s, now, cfg)
    ensures InvAt(Apply(s, ClosePortal(id, confirm), now, tape, pos, cfg).state, now, cfg)
  {
    var out := Apply(s, ClosePortal(id, confirm), now, tape, pos, cfg);
    if out.state != s {
      var (k, j) := Target(s, id).value;
      var p := s.portals[k];
      var q := p.Close(now, confirm, cfg).value;
      CloseKeepsPortal(p, now, confirm, cfg);
      CloseNeverStrands(s, k, j, q, now, cfg);
      CloseKeepsObservers(s, k, q, now, cfg);
      ReplaceKeepsPortals(s.portals, s.planes, s.nextPortalID, k, q, now, cfg);
      SpendKeepsLab(s.lab, now, s.lab.CloseCost(now, cfg), cfg);
    }
  }

  lemma DepartureKeepsObservers(ps: seq<Portal>, os: seq<Observer>, planes: seq<Plane>, k: nat, i: nat, seconds: int, now: Time)
    requires k < |ps| && DistinctPortalIds(ps) && ObserversInv(os, planes, ps, now)
    requires ps[k].status == Open && ps[k].flow == FlowOutbound && ps[k].kind == Natural
    requires forall j :: 0 <= j < |os| ==> !OnPortal(os[j], ps[k].id)
    requires i < |os| && os[i].status == Available && seconds > 0
    ensures ObserversInv(os[i := os[i].StartOutbound(now, ps[k].id, seconds).value], planes, ps, now)
  {
  }

  /** What an admitted dispatch has established, and what it starts. */
  lemma SendAdmission(p: Portal, plane: Plane, os: seq<Observer>, now: Time, confirm: bool, tape: Tape, pos: nat, cfg: Config)
    requires Send(p, plane, os, now, confirm, tape, pos, cfg).Ok?
    ensures var r := Send(p, plane, os, now, confirm, tape, pos, cfg).value;
            && p.status == Open && p.flow != FlowInbound
            && (forall i :: 0 <= i < |os| ==> !OnPortal(os[i], p.id))
            && AvailableIndex(os) == Some(r.index)
            && r.portal == (if p.flow == FlowNone then p.(flow := FlowOutbound, updatedAt := now) else p)
            && r.observers == os[r.index := os[r.index].StartOutbound(now, p.id, TransitSeconds(tape, pos, cfg)).value]
  {
  }

  lemma AdmittedSendKeeps(s: State, k: nat, r: Started, now: Time, seconds: int, cfg: Config)
    requires InvAt(s, now, cfg) && k < |s.portals| && seconds > 0
    requires var p := s.portals[k];
             && p.status == Open && p.flow != FlowInbound
             && (forall i :: 0 <= i < |s.observers| ==> !OnPortal(s.observers[i], p.id))
             && AvailableIndex(s.observers) == Some(r.index)
             && r.portal == (if p.flow == FlowNone then p.(flow := FlowOutbound, updatedAt := now) else p)
             && r.observers == s.observers[r.index := s.observers[r.index].StartOutbound(now, p.id, seconds).value]
    ensures PortalsInv(s.portals[k := r.portal], s.planes, s.nextPortalID, now, cfg)
    ensures ObserversInv(r.observers, s.planes, s.portals[k := r.portal], now)
    ensures NothingDue(s.portals[k := r.portal], now, cfg)
  {
    var p := s.portals[k];
    FlowKeepsPortal(p, FlowOutbound, now, cfg);
    ReplaceKeepsPortals(s.portals, s.planes, s.nextPortalID, k, r.portal, now, cfg);
    ObserversSurvivePortalChange(s.portals, s.observers, s.planes, k, r.portal, now);
    DepartureKeepsObservers(s.portals[k := r.portal], s.observers, s.planes, k, r.index, seconds, now);
  }

  lemma SendKeeps(s: State, id: int, confirm: bool, now: Time, tape: Tape, pos: nat, cfg: Config)
    requires InvAt(s, now, cfg)
    ensures InvAt(Apply(s, SendObserver(id, confirm), now, tape, pos, cfg).state, now, cfg)
  {
    var out := Apply(s, SendObserver(id, confirm), now, tape, pos, cfg);
    if out.error.None? {
      var (k, j) := Target(s, id).value;
      SendAdmission(s.portals[k], s.planes[j], s.observers, now, confirm, tape, pos, cfg);
      var r := Send(s.portals[k], s.planes[j], s.observers, now, confirm, tape, pos, cfg).value;
      TransitSecondsInRange(tape, pos, cfg);
      AdmittedSendKeeps(s, k, r, now, TransitSeconds(tape, pos, cfg), cfg);
    }
  }

  /** What an admitted recall has established, and what it starts. */
  lemma RecallAdmission(p: Portal, os: seq<Observer>, now: Time, confirm: bool, tape: Tape, pos: nat, cfg: Config)
    requires PreparedRecall(p, os, now, confirm, tape, pos, cfg).Ok?
    ensures var r := PreparedRecall(p, os, now, confirm, tape, pos, cfg).value;
            && p.status == Open && p.flow != FlowOutbound && (p.kind == Extraction ==> p.syncedAt.Some?)
            && (forall i :: 0 <= i < |os| ==> !OnPortal(os[i], p.id))
            && LongestWaiting(os, p.plane) == Ok(Some(r.index))
            && r.portal == (if p.flow == FlowNone then p.(flow := FlowInbound, updatedAt := now) else p)
            && r.observers == os[r.index := os[r.index].StartReturning(now, p.id, TransitSeconds(tape, pos, cfg)).value]
  {
  }

  lemma AdmittedRecallKeeps(s: State, k: nat, r: Started, now: Time, seconds: int, cfg: Config)
    requires InvAt(s, now, cfg) && k < |s.portals| && seconds > 0
    requires var p := s.portals[k];
             && p.status == Open && p.flow != FlowOutbound && (p.kind == Extraction ==> p.syncedAt.Some?)
             && (forall i :: 0 <= i < |s.observers| ==> !OnPortal(s.observers[i], p.id))
             && LongestWaiting(s.observers, p.plane) == Ok(Some(r.index))
             && r.portal == (if p.flow == FlowNone then p.(flow := FlowInbound, updatedAt := now) else p)
             && r.observers == s.observers[r.index := s.observers[r.index].StartReturning(now, p.id, seconds).value]
    ensures PortalsInv(s.portals[k := r.portal], s.planes, s.nextPortalID, now, cfg)
    ensures ObserversInv(r.observers, s.planes, s.portals[k := r.portal], now)
    ensures NothingDue(s.portals[k := r.portal], now, cfg)
  {
    var p := s.portals[k];
    if p.kind == Natural {
      FlowKeepsPortal(p, FlowInbound, now, cfg);
    }
    ReplaceKeepsPortals(s.portals, s.planes, s.nextPortalID, k, r.portal, now, cfg);
    ObserversSurvivePortalChange(s.portals, s.observers, s.planes, k, r.portal, now);
    ReturnKeepsObservers(s.portals[k := r.portal], s.observers, s.planes, k, r.index, now, seconds, now);
  }

  lemma RecallKeeps(s: State, id: int, confirm: bool, now: Time, tape: Tape, pos: nat, cfg: Config)
    requires InvAt(s, now, cfg)
    ensures InvAt(Apply(s, RecallObserver(id, confirm), now, tape, pos, cfg).state, now, cfg)
  {
    var out := Apply(s, RecallObserver(id, confirm), now, tape, pos, cfg);
    if out.error.None? {
      var k := Target(s, id).value.0;
      RecallAdmission(s.portals[k], s.observers, now, confirm, tape, pos, cfg);
      var r := PreparedRecall(s.portals[k], s.observers, now, confirm, tape, pos, cfg).value;
      TransitSecondsInRange(tape, pos, cfg);
      AdmittedRecallKeeps(s, k, r, now, TransitSeconds(tape, pos, cfg), cfg);
    }
  }

  lemma ExtractionKeeps(s: State, planeID: int, now: Time, tape: Tape, pos: nat, cfg: Config)
    requires InvAt(s, now, cfg)
    ensures InvAt(Apply(s, OpenExtraction(planeID), now, tape, pos, cfg).state, now, cfg)
  {
    var out := Apply(s, OpenExtraction(planeID), now, tape, pos, cfg);
    if out.error.None? {
      var j := FindPlane(s.planes, planeID).value;
      var slot := FreeSlot(s.portals, cfg.maxActivePortals).value;
      ExtractionPortalIsValid(s.nextPortalID, planeID, slot, now, cfg, tape, pos);
      var p := NewExtractionPortal(s.nextPortalID, planeID, slot, now, cfg, tape, pos).value;
      AppendKeeps(s.portals, s.observers, s.planes, s.nextPortalID, p, now, cfg);
      SpendKeepsLab(s.lab, now, cfg.extractionCost, cfg);
    }
  }

  /** The one way a refused command leaves a trace in the aggregate: a confirmed close whose traveller
      belongs to another plane. */
  predicate LeavesClosed(s: State, c: Command, now: Time, cfg: Config) {
    c.ClosePortal? && Target(s, c.portalID).Ok? &&
    var (k, j) := Target(s, c.portalID).value;
    && CloseRefusal(s.lab, s.portals[k], s.planes[j], s.observers, now, c.confirm, cfg).None?
    && CloseStrands(s.portals[k].Close(now, c.confirm, cfg).value, s.planes[j], s.observers, now)
  }

  /** A refused command changes nothing and draws nothing, exactly unless it is that close. */
  lemma RefusalsAreAtomic(s: State, c: Command, now: Time, tape: Tape, pos: nat, cfg: Config)
    ensures var out := Apply(s, c, now, tape, pos, cfg);
            out.error.Some? ==> out.pos == pos && (out.state == s <==> !LeavesClosed(s, c, now, cfg))
  {
  }

  /** No aggregate that passes the structural check is like that: whoever returns through a portal returns from
      the plane it leads to. */
  lemma ValidStatesNeverStrand(s: State, c: Command, now: Time, cfg: Config)
    requires ValidStructure(s, now)
    ensures !LeavesClosed(s, c, now, cfg)
  {
    if c.ClosePortal? && Target(s, c.portalID).Ok? {
      var (k, j) := Target(s, c.portalID).value;
      FoundAt(s.portals, k);
      assert forall i :: 0 <= i < |s.observers| ==> ValidObserver(s.observers[i], s.planes, s.portals, now);
    }
  }

  /** Under the invariant every refused command is atomic. */
  lemma RefusalsLeaveNoTrace(s: State, c: Command, now: Time, tape: Tape, pos: nat, cfg: Config)
    requires InvAt(s, now, cfg)
    ensures var out := Apply(s, c, now, tape, pos, cfg);
            out.error.Some? ==> out.state == s && out.pos == pos
  {
    RefusalsAreAtomic(s, c, now, tape, pos, cfg);
    if LeavesClosed(s, c, now, cfg) {
      var (k, j) := Target(s, c.portalID).value;
      CloseNeverStrands(s, k, j, s.portals[k].Close(now, c.confirm, cfg).value, now, cfg);
    }
  }

  /** Each of the five commands keeps the invariant at the instant it runs. */
  lemma CommandKeepsInvariant(s: State, c: Command, now: Time, tape: Tape, pos: nat, cfg: Config)
    requires InvAt(s, now, cfg)
    ensures InvAt(Apply(s, c, now, tape, pos, cfg).state, now, cfg)
    ensures Apply(s, c, now, tape, pos, cfg).state.lastTickAt == s.lastTickAt
  {
    match c
    case Stabilize(id) => StabilizeKeeps(s, id, now, tape, pos, cfg);
    case ClosePortal(id, confirm) => CloseKeeps(s, id, confirm, now, tape, pos, cfg);
    case SendObserver(id, confirm) => SendKeeps(s, id, confirm, now, tape, pos, cfg);
    case RecallObserver(id, confirm) => RecallKeeps(s, id, confirm, now, tape, pos, cfg);
    case OpenExtraction(planeID) => ExtractionKeeps(s, planeID, now, tape, pos, cfg);
  }
}

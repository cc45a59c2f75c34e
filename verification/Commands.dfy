/** The five laboratory commands on values: the first reason to refuse one, and its effect
    when nothing refuses it. */
module Commands {
  import opened Base
  import opened Randomness
  import opened Portals
  import opened Labs
  import opened Observers
  import opened States

  datatype Command =
    | Stabilize(portalID: int)
    | ClosePortal(portalID: int, confirm: bool)
    | SendObserver(portalID: int, confirm: bool)
    | RecallObserver(portalID: int, confirm: bool)
    | OpenExtraction(planeID: int)

  /** What a command leaves behind. */
  datatype Outcome = Outcome(error: Option<Error>, state: State, pos: nat)

  // ---------------------------------------------------------------- transits

  /** A portal and roster after a transit has been started. */
  datatype Started = Started(index: nat, portal: Portal, observers: seq<Observer>, pos: nat)

  function SendRefusal(p: Portal, plane: Plane, os: seq<Observer>, now: Time, confirm: bool, cfg: Config): Option<Error> {
    if plane.id != p.plane || !ValidRoster(os, now) then Some(ObserverInvariant)
    else if p.status != Open then Some(PortalNotOpen)
    else if p.IsCritical(now, cfg) then Some(PortalCriticalRisk)
    else if p.flow == FlowInbound then Some(PortalDirectionConflict)
    else if p.CreaturesInside(now, cfg) > 0 then Some(PortalCreaturesPresent)
    else match ActiveTransit(os, p.id, now)
      case Err(e) => Some(e)
      case Ok(Some(_)) => Some(PortalBusy)
      case Ok(None) =>
        if AvailableIndex(os).None? then Some(NoAvailableObserver)
        else if p.stability == Unstable && !confirm then Some(ConfirmationRequired)
        else None
  }

  function Send(p: Portal, plane: Plane, os: seq<Observer>, now: Time, confirm: bool, tape: Tape, pos: nat, cfg: Config): Result<Started> {
    match SendRefusal(p, plane, os, now, confirm, cfg)
    case Some(e) => Err(e)
    case None =>
      var k := AvailableIndex(os).value;
      match os[k].StartOutbound(now, p.id, TransitSeconds(tape, pos, cfg))
      case Err(e) => Err(e)
      case Ok(o) =>
        Ok(Started(k, if p.flow == FlowNone then p.(flow := FlowOutbound, updatedAt := now) else p, os[k := o], pos + 1))
  }

  /** The checks a recall makes once the roster is known to be sound. */
  function PreparedRecallRefusal(p: Portal, os: seq<Observer>, now: Time, confirm: bool, cfg: Config): Option<Error> {
    if p.status != Open then Some(PortalNotOpen)
    else if p.kind == Extraction && p.syncedAt.None? then Some(ExtractionSynchronizing)
    else if p.IsCritical(now, cfg) then Some(PortalCriticalRisk)
    else if p.flow == FlowOutbound then Some(PortalDirectionConflict)
    else if p.CreaturesInside(now, cfg) > 0 then Some(PortalCreaturesPresent)
    else match ActiveTransit(os, p.id, now)
      case Err(e) => Some(e)
      case Ok(Some(_)) => Some(PortalBusy)
      case Ok(None) =>
        match LongestWaiting(os, p.plane)
        case Err(e) => Some(e)
        case Ok(None) => Some(NoWaitingObserver)
        case Ok(Some(_)) => if p.stability == Unstable && !confirm then Some(ConfirmationRequired) else None
  }

  function PreparedRecall(p: Portal, os: seq<Observer>, now: Time, confirm: bool, tape: Tape, pos: nat, cfg: Config): Result<Started> {
    match PreparedRecallRefusal(p, os, now, confirm, cfg)
    case Some(e) => Err(e)
    case None =>
      var k := LongestWaiting(os, p.plane).value.value;
      match os[k].StartReturning(now, p.id, TransitSeconds(tape, pos, cfg))
      case Err(e) => Err(e)
      case Ok(o) =>
        Ok(Started(k, if p.flow == FlowNone then p.(flow := FlowInbound, updatedAt := now) else p, os[k := o], pos + 1))
  }

  function RecallRefusal(p: Portal, plane: Plane, os: seq<Observer>, now: Time, confirm: bool, cfg: Config): Option<Error> {
    if plane.id != p.plane || !ValidRoster(os, now) then Some(ObserverInvariant)
    else PreparedRecallRefusal(p, os, now, confirm, cfg)
  }

  // ---------------------------------------------------------------- close

  function CloseRefusal(lab: Lab, p: Portal, plane: Plane, os: seq<Observer>, now: Time, confirm: bool, cfg: Config): Option<Error> {
    match lab.PrepareSpend(now, lab.CloseCost(now, cfg), cfg)
    case Err(e) => Some(e)
    case Ok(_) =>
      if plane.id != p.plane || !ValidRoster(os, now) then Some(ObserverInvariant)
      else if p.status != Open then Some(PortalNotOpen)
      else match ActiveTransit(os, p.id, now)
        case Err(e) => Some(e)
        case Ok(active) =>
          if active.Some? && !confirm then Some(ConfirmationRequired)
          else match p.Close(now, confirm, cfg)
            case Err(e) => Some(e)
            case Ok(_) => None
  }

  /** The roster after a hand-closed portal: an observer still inside is lost at that moment. */
  function ObserversAfterClose(closed: Portal, os: seq<Observer>, now: Time, cfg: Config): seq<Observer> {
    match ActiveTransit(os, closed.id, now)
    case Ok(Some(k)) => os[k := Advance(os[k], Some(closed), now, cfg)]
    case _ => os
  }

  /** The traveller of a closed corridor cannot be resolved against the plane it leads to. By then the
      portal has already been closed. */
  predicate CloseStrands(closed: Portal, plane: Plane, os: seq<Observer>, now: Time) {
    match ActiveTransit(os, closed.id, now)
    case Ok(Some(k)) => !WellFormedFor(os[k], Some(plane), Some(closed))
    case _ => false
  }

  // ---------------------------------------------------------------- extraction

  predicate ValidExtractionCollection(ps: seq<Portal>, newID: int, maxSlots: int) {
    && DistinctPortalIds(ps) && DistinctOpenSlots(ps)
    && forall i :: 0 <= i < |ps| ==> ps[i].id != newID && (ps[i].status == Open ==> 1 <= ps[i].slot <= maxSlots)
  }

  method ValidateExtractionCollection(ps: seq<Portal>, newID: int, maxSlots: int) returns (ok: bool)
    ensures ok <==> ValidExtractionCollection(ps, newID, maxSlots)
  {
    var ids: set<int> := {};
    var openSlots: set<int> := {};
    for i := 0 to |ps|
      invariant ids == set k | 0 <= k < i :: ps[k].id
      invariant openSlots == set k | 0 <= k < i && ps[k].status == Open :: ps[k].slot
      invariant forall k, j :: 0 <= k < j < i ==> ps[k].id != ps[j].id
      invariant forall k, j :: 0 <= k < j < i && ps[k].status == Open && ps[j].status == Open ==> ps[k].slot != ps[j].slot
      invariant forall k :: 0 <= k < i ==> ps[k].id != newID && (ps[k].status == Open ==> 1 <= ps[k].slot <= maxSlots)
    {
      if ps[i].id == newID || ps[i].id in ids {
        return false;
      }
      ids := ids + {ps[i].id};
      if ps[i].status != Open {
        continue;
      }
      if ps[i].slot < 1 || ps[i].slot > maxSlots || ps[i].slot in openSlots {
        return false;
      }
      openSlots := openSlots + {ps[i].slot};
    }
    ok := true;
  }

  function ExtractionRefusal(lab: Lab, ps: seq<Portal>, plane: Plane, os: seq<Observer>, newID: int, now: Time, cfg: Config): Option<Error> {
    if lab.PrepareSpend(now, 0, cfg).Err? then Some(lab.PrepareSpend(now, 0, cfg).error)
    else if !ValidRoster(os, now) then Some(ObserverInvariant)
    else match LongestWaiting(os, plane.id)
      case Err(e) => Some(e)
      case Ok(None) => Some(NoWaitingObserver)
      case Ok(Some(_)) =>
        if !ValidExtractionCollection(ps, newID, cfg.maxActivePortals) then Some(ExtractionInvariant)
        else if FreeSlot(ps, cfg.maxActivePortals).None? then Some(NoFreePortalSlot)
        else match lab.PrepareSpend(now, cfg.extractionCost, cfg)
          case Err(e) => Some(e)
          case Ok(_) => None
  }

  // ---------------------------------------------------------------- on the aggregate

  function Refuse(s: State, pos: nat, e: Error): Outcome {
    Outcome(Some(e), s, pos)
  }

  /** Runs one command against the aggregate at `now`. */
  function Apply(s: State, c: Command, now: Time, tape: Tape, pos: nat, cfg: Config): Outcome {
    match c
    case Stabilize(id) =>
      (match FindPortal(s.portals, id)
       case None => Refuse(s, pos, PortalNotFound)
       case Some(k) =>
         var cost := s.lab.StabilizeCost(now, cfg);
         match s.lab.PrepareSpend(now, cost, cfg)
         case Err(e) => Refuse(s, pos, e)
         case Ok(remaining) =>
           match s.portals[k].Stabilize(now, cfg)
           case Err(e) => Refuse(s, pos, e)
           case Ok(p) =>
             Outcome(None, s.(lab := s.lab.CommitSpend(now, cost, remaining), portals := s.portals[k := p]), pos))
    case ClosePortal(id, confirm) =>
      (match Target(s, id)
       case Err(e) => Refuse(s, pos, e)
       case Ok((k, j)) =>
         match CloseRefusal(s.lab, s.portals[k], s.planes[j], s.observers, now, confirm, cfg)
         case Some(e) => Refuse(s, pos, e)
         case None =>
           var cost := s.lab.CloseCost(now, cfg);
           var closed := s.portals[k].Close(now, confirm, cfg).value;
           if CloseStrands(closed, s.planes[j], s.observers, now)
           then Outcome(Some(ObserverInvariant), s.(portals := s.portals[k := closed]), pos)
           else Outcome(None,
                   s.(lab := s.lab.CommitSpend(now, cost, s.lab.PrepareSpend(now, cost, cfg).value),
                      portals := s.portals[k := closed],
                      observers := ObserversAfterClose(closed, s.observers, now, cfg)), pos))
    case SendObserver(id, confirm) =>
      (match Target(s, id)
       case Err(e) => Refuse(s, pos, e)
       case Ok((k, j)) =>
         if s.lab.PrepareSpend(now, 0, cfg).Err? then Refuse(s, pos, s.lab.PrepareSpend(now, 0, cfg).error)
         else match Send(s.portals[k], s.planes[j], s.observers, now, confirm, tape, pos, cfg)
           case Err(e) => Refuse(s, pos, e)
           case Ok(r) => Outcome(None, s.(portals := s.portals[k := r.portal], observers := r.observers), r.pos))
    case RecallObserver(id, confirm) =>
      (match Target(s, id)
       case Err(e) => Refuse(s, pos, e)
       case Ok((k, j)) =>
         if s.lab.PrepareSpend(now, 0, cfg).Err? then Refuse(s, pos, s.lab.PrepareSpend(now, 0, cfg).error)
         else match RecallRefusal(s.portals[k], s.planes[j], s.observers, now, confirm, cfg)
           case Some(e) => Refuse(s, pos, e)
           case None =>
             match PreparedRecall(s.portals[k], s.observers, now, confirm, tape, pos, cfg)
             case Err(e) => Refuse(s, pos, e)
             case Ok(r) => Outcome(None, s.(portals := s.portals[k := r.portal], observers := r.observers), r.pos))
    case OpenExtraction(planeID) =>
      (match FindPlane(s.planes, planeID)
       case None => Refuse(s, pos, PlaneNotFound)
       case Some(j) =>
         match ExtractionRefusal(s.lab, s.portals, s.planes[j], s.observers, s.nextPortalID, now, cfg)
         case Some(e) => Refuse(s, pos, e)
         case None =>
           var slot := FreeSlot(s.portals, cfg.maxActivePortals).value;
           var drawn := NewExtractionPortal(s.nextPortalID, s.planes[j].id, slot, now, cfg, tape, pos);
           Outcome(None,
                   s.(lab := s.lab.SpendEnergy(now, cfg.extractionCost, cfg).value,
                      portals := s.portals + [drawn.value],
                      nextPortalID := s.nextPortalID + 1), drawn.pos))
  }

  /** The portal a command names and the plane it leads to. */
  function Target(s: State, portalID: int): (r: Result<(nat, nat)>)
    ensures r.Ok? ==> r.value.0 < |s.portals| && r.value.1 < |s.planes|
    ensures r.Ok? ==> s.portals[r.value.0].id == portalID && s.planes[r.value.1].id == s.portals[r.value.0].plane
  {
    match FindPortal(s.portals, portalID)
    case None => Err(PortalNotFound)
    case Some(k) =>
      match FindPlane(s.planes, s.portals[k].plane)
      case None => Err(PlaneNotFound)
      case Some(j) => Ok((k, j))
  }
}

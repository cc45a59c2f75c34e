/** The recommendation shown for a portal, and what the laboratory may rely on when it follows it. */
module Advice {
  import opened Base
  import opened Portals
  import opened Labs
  import opened Observers
  import opened States
  import opened Commands
  import opened Ticks
  import opened Invariants
  import opened CommandInvariants
  import opened Guarantees
  import opened Availability

  datatype Recommendation = LeaveOpen | WaitForCorridor | DoStabilize | DoClose | DoSend | DoRecall

  // ---------------------------------------------------------------- the questions the table asks

  predicate SafeFor(p: Portal, horizon: Duration, now: Time, cfg: Config) {
    && p.status == Open && p.stability == Stable && horizon >= 0
    && !p.IsCritical(now, cfg) && p.EffectiveLifetime(now) > horizon
  }

  predicate StabilizationMakesSafe(lab: Lab, p: Portal, horizon: Duration, now: Time, cfg: Config) {
    && p.status == Open && p.stability == Unstable && p.CurrentEnergy(now) <= cfg.stabilizeMaxStartEnergy
    && lab.PrepareSpend(now, lab.StabilizeCost(now, cfg), cfg).Ok?
    && p.Stabilize(now, cfg).Ok? && SafeFor(p.Stabilize(now, cfg).value, horizon, now, cfg)
  }

  predicate CloseAffordable(lab: Lab, now: Time, cfg: Config) {
    lab.CanAfford(now, lab.CloseCost(now, cfg), cfg)
  }

  function ClearanceRemaining(p: Portal, now: Time, cfg: Config): (r: Duration)
    ensures r >= 0
  {
    if p.CreaturesInside(now, cfg) == 0 then 0
    else Max(0, p.openedAt + p.creatures * cfg.creatureTransit - now)
  }

  predicate Researches(o: Observer, planeID: int) {
    o.status == Exploring && o.plane == Some(planeID)
  }

  predicate ResearchDated(o: Observer) {
    o.startedAt.Some? && o.endsAt.Some? && o.startedAt.value <= o.endsAt.value
  }

  function ResearchUpTo(os: seq<Observer>, n: nat, planeID: int, now: Time): (r: Result<Option<Duration>>)
    requires n <= |os|
    ensures r.Ok? <==> forall i :: 0 <= i < n && Researches(os[i], planeID) ==> ResearchDated(os[i])
    ensures r.Ok? && r.value.None? ==> forall i :: 0 <= i < n ==> !Researches(os[i], planeID)
    ensures r.Ok? && r.value.Some? ==>
              && r.value.value >= 0
              && (forall i :: 0 <= i < n && Researches(os[i], planeID) ==> r.value.value <= Max(0, os[i].endsAt.value - now))
              && (exists i :: 0 <= i < n && Researches(os[i], planeID) && r.value.value == Max(0, os[i].endsAt.value - now))
    ensures r.Err? ==> r.error == ObserverInvariant
  {
    if n == 0 then Ok(None)
    else
      var earlier := ResearchUpTo(os, n - 1, planeID, now);
      var o := os[n - 1];
      if earlier.Err? || !Researches(o, planeID) then earlier
      else if !ResearchDated(o) then Err(ObserverInvariant)
      else
        var remaining := Max(0, o.endsAt.value - now);
        if earlier.value.None? || remaining < earlier.value.value then Ok(Some(remaining)) else earlier
  }

  /** How long until the first observer researching a plane is ready to be recalled. */
  function ShortestResearch(os: seq<Observer>, planeID: int, now: Time): Result<Option<Duration>> {
    ResearchUpTo(os, |os|, planeID, now)
  }

  method FindShortestResearch(os: seq<Observer>, planeID: int, now: Time) returns (r: Result<Option<Duration>>)
    ensures r == ShortestResearch(os, planeID, now)
  {
    var selected: Option<Duration> := None;
    for i := 0 to |os|
      invariant ResearchUpTo(os, i, planeID, now) == Ok(selected)
    {
      if os[i].status != Exploring || os[i].plane != Some(planeID) {
        continue;
      }
      if os[i].startedAt.None? || os[i].endsAt.None? || os[i].endsAt.value < os[i].startedAt.value {
        return Err(ObserverInvariant);
      }
      var remaining := Max(0, os[i].endsAt.value - now);
      if selected.None? || remaining < selected.value {
        selected := Some(remaining);
      }
    }
    r := Ok(selected);
  }

  predicate PlaneHasObserver(os: seq<Observer>, planeID: int) {
    exists i :: 0 <= i < |os| && os[i].plane == Some(planeID) && os[i].status != Lost
  }

  method CheckPlaneHasObserver(os: seq<Observer>, planeID: int) returns (r: bool)
    ensures r <==> PlaneHasObserver(os, planeID)
  {
    for i := 0 to |os|
      invariant forall k :: 0 <= k < i ==> !(os[k].plane == Some(planeID) && os[k].status != Lost)
    {
      if os[i].plane == Some(planeID) && os[i].status != Lost {
        return true;
      }
    }
    r := false;
  }

  predicate HeadsFor(o: Observer, ps: seq<Portal>, planeID: int) {
    o.status == Outbound && o.portal.Some? && exists k :: 0 <= k < |ps| && ps[k].id == o.portal.value && ps[k].plane == planeID
  }

  predicate OutboundTargets(s: State, planeID: int) {
    exists i :: 0 <= i < |s.observers| && HeadsFor(s.observers[i], s.portals, planeID)
  }

  method CheckOutboundTargets(s: State, planeID: int) returns (r: bool)
    ensures r <==> OutboundTargets(s, planeID)
  {
    for i := 0 to |s.observers|
      invariant forall j :: 0 <= j < i ==> !HeadsFor(s.observers[j], s.portals, planeID)
    {
      var o := s.observers[i];
      if o.status != Outbound || o.portal.None? {
        continue;
      }
      for k := 0 to |s.portals|
        invariant forall j :: 0 <= j < k ==> !(s.portals[j].id == o.portal.value && s.portals[j].plane == planeID)
      {
        if s.portals[k].id == o.portal.value && s.portals[k].plane == planeID {
          assert HeadsFor(o, s.portals, planeID);
          return true;
        }
      }
    }
    r := false;
  }

  predicate ExploredPlane(s: State, planeID: int) {
    FindPlane(s.planes, planeID).Some? && s.planes[FindPlane(s.planes, planeID).value].explored
  }

  // ---------------------------------------------------------------- the table

  function Fallback(s: State, p: Portal, now: Time, cfg: Config): Recommendation {
    if ExploredPlane(s, p.plane) && !PlaneHasObserver(s.observers, p.plane) && CloseAffordable(s.lab, now, cfg) then DoClose
    else if (p.RiskLevel(now, cfg) == Some(High) || p.RiskLevel(now, cfg) == Some(Critical)) && CloseAffordable(s.lab, now, cfg)
    then DoClose
    else LeaveOpen
  }

  function ImmediateMission(s: State, p: Portal, now: Time, cfg: Config, action: Recommendation): Recommendation {
    var clearance := ClearanceRemaining(p, now, cfg);
    var horizon := clearance + cfg.observerTransitMax;
    if clearance == 0 && SafeFor(p, cfg.observerTransitMax, now, cfg) then action
    else if clearance > 0 && SafeFor(p, horizon, now, cfg) then WaitForCorridor
    else if StabilizationMakesSafe(s.lab, p, horizon, now, cfg) then DoStabilize
    else Fallback(s, p, now, cfg)
  }

  function WhileTraversed(s: State, p: Portal, horizon: Duration, now: Time, cfg: Config): Recommendation {
    if SafeFor(p, horizon, now, cfg) then LeaveOpen
    else if StabilizationMakesSafe(s.lab, p, horizon, now, cfg) then DoStabilize
    else LeaveOpen
  }

  function WhileResearching(s: State, p: Portal, horizon: Duration, now: Time, cfg: Config): Recommendation {
    if SafeFor(p, horizon, now, cfg) then LeaveOpen
    else if StabilizationMakesSafe(s.lab, p, horizon, now, cfg) then DoStabilize
    else Fallback(s, p, now, cfg)
  }

  predicate WantsDispatch(s: State, p: Portal) {
    && !ExploredPlane(s, p.plane) && p.flow != FlowInbound && AvailableIndex(s.observers).Some?
    && !PlaneHasObserver(s.observers, p.plane) && !OutboundTargets(s, p.plane)
  }

  /** What the portal is for right now, in the order the table asks. */
  datatype Mission = Synchronizing | Traversed(left: Duration) | Return | Research(left: Duration) | Dispatch | NoMission

  function MissionOf(s: State, p: Portal, now: Time, cfg: Config): Result<Mission> {
    if p.kind == Extraction && p.syncedAt.None? then Ok(Synchronizing)
    else match ActiveTransit(s.observers, p.id, now)
      case Err(e) => Err(e)
      case Ok(Some(i)) => Ok(Traversed(s.observers[i].endsAt.value - now))
      case Ok(None) =>
        if p.flow == FlowOutbound then Ok(if WantsDispatch(s, p) then Dispatch else NoMission)
        else match LongestWaiting(s.observers, p.plane)
          case Err(e) => Err(e)
          case Ok(Some(_)) => Ok(Return)
          case Ok(None) =>
            match ShortestResearch(s.observers, p.plane, now)
            case Err(e) => Err(e)
            case Ok(Some(left)) => Ok(Research(left))
            case Ok(None) => Ok(if WantsDispatch(s, p) then Dispatch else NoMission)
  }

  function AdviceFor(s: State, p: Portal, m: Mission, now: Time, cfg: Config): Recommendation {
    match m
    case Synchronizing => LeaveOpen
    case Traversed(left) => WhileTraversed(s, p, left, now, cfg)
    case Return => ImmediateMission(s, p, now, cfg, DoRecall)
    case Research(left) => WhileResearching(s, p, left + cfg.observerTransitMax, now, cfg)
    case Dispatch => ImmediateMission(s, p, now, cfg, DoSend)
    case NoMission => Fallback(s, p, now, cfg)
  }

  /** The recommendation for a portal; none for one that has ended. */
  function Advise(s: State, id: int, now: Time, cfg: Config): Result<Option<Recommendation>> {
    if !ValidStructure(s, now) || FindPortal(s.portals, id).None? then Err(SimulationInvariant)
    else
      var p := s.portals[FindPortal(s.portals, id).value];
      if p.status != Open then Ok(None)
      else match MissionOf(s, p, now, cfg)
        case Err(e) => Err(e)
        case Ok(m) => Ok(Some(AdviceFor(s, p, m, now, cfg)))
  }

  // ---------------------------------------------------------------- as the program decides it

  method DecideFallback(s: State, p: Portal, now: Time, cfg: Config) returns (r: Recommendation)
    ensures r == Fallback(s, p, now, cfg)
  {
    var plane := FindPlane(s.planes, p.plane);
    var explored := plane.Some? && s.planes[plane.value].explored;
    var inhabited := CheckPlaneHasObserver(s.observers, p.plane);
    if explored && !inhabited && CloseAffordable(s.lab, now, cfg) {
      return DoClose;
    }
    var risk := p.RiskLevel(now, cfg);
    if (risk == Some(High) || risk == Some(Critical)) && CloseAffordable(s.lab, now, cfg) {
      return DoClose;
    }
    r := LeaveOpen;
  }

  method DecideImmediateMission(s: State, p: Portal, now: Time, cfg: Config, action: Recommendation) returns (r: Recommendation)
    ensures r == ImmediateMission(s, p, now, cfg, action)
  {
    var clearance := ClearanceRemaining(p, now, cfg);
    if clearance == 0 && SafeFor(p, cfg.observerTransitMax, now, cfg) {
      return action;
    }
    var horizon := clearance + cfg.observerTransitMax;
    if clearance > 0 && SafeFor(p, horizon, now, cfg) {
      return WaitForCorridor;
    }
    if StabilizationMakesSafe(s.lab, p, horizon, now, cfg) {
      return DoStabilize;
    }
    r := DecideFallback(s, p, now, cfg);
  }

  method DecideDispatch(s: State, p: Portal, now: Time, cfg: Config) returns (r: Recommendation)
    ensures r == AdviceFor(s, p, if WantsDispatch(s, p) then Dispatch else NoMission, now, cfg)
  {
    var plane := FindPlane(s.planes, p.plane);
    var explored := plane.Some? && s.planes[plane.value].explored;
    var available := FindAvailable(s.observers);
    if !explored && p.flow != FlowInbound && available.Some? {
      var inhabited := CheckPlaneHasObserver(s.observers, p.plane);
      var targeted := CheckOutboundTargets(s, p.plane);
      if !inhabited && !targeted {
        r := DecideImmediateMission(s, p, now, cfg, DoSend);
        return;
      }
    }
    r := DecideFallback(s, p, now, cfg);
  }

  method DecideInbound(s: State, p: Portal, now: Time, cfg: Config) returns (r: Result<Option<Recommendation>>)
    requires p.kind == Extraction ==> p.syncedAt.Some?
    requires ActiveTransit(s.observers, p.id, now) == Ok(None) && p.flow != FlowOutbound
    ensures match MissionOf(s, p, now, cfg)
            case Err(e) => r == Err(e)
            case Ok(m) => r == Ok(if m.Return? || m.Research? then Some(AdviceFor(s, p, m, now, cfg)) else None)
  {
    var waiting := FindLongestWaiting(s.observers, p.plane);
    if waiting.Err? {
      return Err(waiting.error);
    }
    if waiting.value.Some? {
      var recall := DecideImmediateMission(s, p, now, cfg, DoRecall);
      return Ok(Some(recall));
    }
    var research := FindShortestResearch(s.observers, p.plane, now);
    if research.Err? {
      return Err(research.error);
    }
    if research.value.None? {
      return Ok(None);
    }
    var horizon := research.value.value + cfg.observerTransitMax;
    if SafeFor(p, horizon, now, cfg) {
      return Ok(Some(LeaveOpen));
    }
    if StabilizationMakesSafe(s.lab, p, horizon, now, cfg) {
      return Ok(Some(DoStabilize));
    }
    var fallback := DecideFallback(s, p, now, cfg);
    r := Ok(Some(fallback));
  }

  /** The ordered table, decided row by row. */
  method RecommendationForPortal(s: State, id: int, now: Time, cfg: Config) returns (r: Result<Option<Recommendation>>)
    ensures r == Advise(s, id, now, cfg)
  {
    var valid := ValidateStructure(s, now);
    var at := FindPortal(s.portals, id);
    if !valid || at.None? {
      return Err(SimulationInvariant);
    }
    var p := s.portals[at.value];
    if p.status != Open {
      return Ok(None);
    }
    if p.kind == Extraction && p.syncedAt.None? {
      return Ok(Some(LeaveOpen));
    }
    var active := FindActiveTransit(s.observers, p.id, now);
    if active.Err? {
      return Err(active.error);
    }
    if active.value.Some? {
      return Ok(Some(WhileTraversed(s, p, s.observers[active.value.value].endsAt.value - now, now, cfg)));
    }
    if p.flow != FlowOutbound {
      var inbound := DecideInbound(s, p, now, cfg);
      if inbound.Err? || inbound.value.Some? {
        return inbound;
      }
    }
    var dispatch := DecideDispatch(s, p, now, cfg);
    r := Ok(Some(dispatch));
  }
}

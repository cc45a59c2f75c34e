/** The event log derived by comparing two states. */
module Events {
  import opened Base
  import opened Sorting
  import opened Portals
  import opened Observers
  import opened States

  datatype EventType =
    | PortalOpened | PortalStabilized | PortalClosed | PortalCollapsed | RiskLevelChanged
    | ObserverDispatched | ObserverArrived | ResearchStarted | ResearchCompleted
    | ObserverReturnStarted | ObserverReturned | ObserverLost | PlaneExplored
    | ExtractionPortalOpened | ExtractionSynchronized
    | OverrideStarted | OverrideEnded | ActionRejected

  /** The part of an event's payload the simulation decides. */
  datatype Detail =
    | NoDetail
    | OfKind(kind: PortalKind)
    | Because(reason: TerminationReason)
    | RiskMoved(previous: RiskLevel, current: RiskLevel)
    | Until(deadline: Time)
    | Rejection(cause: Error)

  datatype Draft = Draft(
    kind: EventType,
    portal: Option<int>,
    observer: Option<int>,
    plane: Option<int>,
    detail: Detail,
    at: Time)
  {
    /** Entity identifiers, when present, are positive. */
    predicate Valid() {
      && (portal.Some? ==> portal.value > 0)
      && (observer.Some? ==> observer.value > 0)
      && (plane.Some? ==> plane.value > 0)
    }
  }

  // ---------------------------------------------------------------- order

  function TieRank(k: EventType): int {
    match k
    case PortalClosed => 10
    case PortalCollapsed => 10
    case OverrideEnded => 20
    case OverrideStarted => 21
    case PortalStabilized => 30
    case ObserverDispatched => 30
    case ObserverArrived => 30
    case ResearchStarted => 31
    case ResearchCompleted => 40
    case ExtractionSynchronized => 50
    case ObserverReturnStarted => 51
    case ObserverReturned => 60
    case ObserverLost => 60
    case PlaneExplored => 61
    case RiskLevelChanged => 70
    case PortalOpened => 80
    case ExtractionPortalOpened => 80
    case ActionRejected => 90
  }

  /** The position of an event type's name among all names in alphabetical order. */
  function NameRank(k: EventType): int {
    match k
    case ActionRejected => 0
    case ExtractionPortalOpened => 1
    case ExtractionSynchronized => 2
    case OverrideEnded => 3
    case OverrideStarted => 4
    case ObserverArrived => 5
    case ObserverDispatched => 6
    case ObserverLost => 7
    case ObserverReturned => 8
    case ObserverReturnStarted => 9
    case PlaneExplored => 10
    case PortalClosed => 11
    case PortalCollapsed => 12
    case PortalOpened => 13
    case PortalStabilized => 14
    case ResearchCompleted => 15
    case ResearchStarted => 16
    case RiskLevelChanged => 17
  }

  function IdOrZero(id: Option<int>): int {
    if id.Some? then id.value else 0
  }

  predicate DraftLess(a: Draft, b: Draft) {
    if a.at != b.at then a.at < b.at
    else if TieRank(a.kind) != TieRank(b.kind) then TieRank(a.kind) < TieRank(b.kind)
    else if IdOrZero(a.portal) != IdOrZero(b.portal) then IdOrZero(a.portal) < IdOrZero(b.portal)
    else if IdOrZero(a.observer) != IdOrZero(b.observer) then IdOrZero(a.observer) < IdOrZero(b.observer)
    else if IdOrZero(a.plane) != IdOrZero(b.plane) then IdOrZero(a.plane) < IdOrZero(b.plane)
    else NameRank(a.kind) < NameRank(b.kind)
  }

  function LogOrder(): (Draft, Draft) -> bool {
    (a: Draft, b: Draft) => DraftLess(a, b)
  }

  lemma LogOrderIsStrict()
    ensures StrictOrder(LogOrder())
  {
  }

  /** Two drafts agree in every component the log is sorted by. */
  predicate SameKey(a: Draft, b: Draft) {
    && a.at == b.at && a.kind == b.kind
    && IdOrZero(a.portal) == IdOrZero(b.portal)
    && IdOrZero(a.observer) == IdOrZero(b.observer)
    && IdOrZero(a.plane) == IdOrZero(b.plane)
  }

  lemma DifferentKeysAreOrdered(a: Draft, b: Draft)
    ensures DraftLess(a, b) || DraftLess(b, a) <==> !SameKey(a, b)
  {
  }

  // ---------------------------------------------------------------- per entity

  predicate BothOpen(prior: Portal, p: Portal) {
    prior.status == Open && p.status == Open
  }

  function TerminationDrafts(prior: Portal, p: Portal): seq<Draft> {
    if prior.status == Open && p.status != Open && p.closedAt.Some?
    then [Draft(if p.status == Collapsed then PortalCollapsed else PortalClosed,
                Some(p.id), None, Some(p.plane), Because(p.reason), p.closedAt.value)]
    else []
  }

  function StabilizationDrafts(prior: Portal, p: Portal): seq<Draft> {
    if BothOpen(prior, p) && prior.stability == Unstable && p.stability == Stable
    then [Draft(PortalStabilized, Some(p.id), None, Some(p.plane), NoDetail, p.updatedAt)]
    else []
  }

  function SynchronizationDrafts(prior: Portal, p: Portal): seq<Draft> {
    if prior.syncedAt.None? && p.syncedAt.Some?
    then [Draft(ExtractionSynchronized, Some(p.id), None, Some(p.plane), NoDetail, p.syncedAt.value)]
    else []
  }

  function RiskDrafts(prior: Portal, p: Portal, previousAt: Time, now: Time, cfg: Config): seq<Draft> {
    if BothOpen(prior, p) && prior.RiskLevel(previousAt, cfg) != p.RiskLevel(now, cfg)
    then [Draft(RiskLevelChanged, Some(p.id), None, Some(p.plane),
                RiskMoved(prior.RiskLevel(previousAt, cfg).value, p.RiskLevel(now, cfg).value), now)]
    else []
  }

  function PortalDrafts(prior: Option<Portal>, p: Portal, previousAt: Time, now: Time, cfg: Config): seq<Draft> {
    match prior
    case None =>
      if p.status != Open then []
      else [Draft(if p.kind == Extraction then ExtractionPortalOpened else PortalOpened,
                  Some(p.id), None, Some(p.plane), OfKind(p.kind), p.openedAt)]
    case Some(q) =>
      TerminationDrafts(q, p) + StabilizationDrafts(q, p) + SynchronizationDrafts(q, p) + RiskDrafts(q, p, previousAt, now, cfg)
  }

  datatype Collapse = Collapse(portalID: int, planeID: int, at: Time)

  function CollapseOf(prior: Option<Portal>, p: Portal): seq<Collapse> {
    if prior.Some? && prior.value.status == Open && p.status == Collapsed && p.closedAt.Some?
    then [Collapse(p.id, p.plane, p.closedAt.value)] else []
  }

  function CollapseBefore(): (Collapse, Collapse) -> bool {
    (a: Collapse, b: Collapse) => a.at < b.at || (a.at == b.at && a.portalID < b.portalID)
  }

  predicate SamePhase(a: Observer, b: Observer) {
    a.plane == b.plane && a.portal == b.portal && a.startedAt == b.startedAt && a.endsAt == b.endsAt
  }

  function DestinationOf(portalID: Option<int>, ps: seq<Portal>): Option<int> {
    if portalID.None? then None
    else match FindPortal(ps, portalID.value)
      case None => None
      case Some(k) => Some(ps[k].plane)
  }

  /** The phase time an event is dated by; `Loggable` refuses transitions that lack it. */
  function Required(t: Option<Time>): Time {
    if t.Some? then t.value else 0
  }

  predicate PhaseRecorded(prior: Observer, o: Observer) {
    || (prior.status == o.status && SamePhase(prior, o))
    || (&& (prior.status == Available && o.status == Outbound ==> o.startedAt.Some?)
     && (prior.status == Outbound && o.status != Outbound && o.status != Lost ==> prior.endsAt.Some?)
     && (prior.status == Exploring && o.status != Exploring && o.status != Lost ==> prior.endsAt.Some?)
     && ((prior.status == WaitingReturn || prior.status == Exploring || prior.status == Outbound) && o.status == Returning ==>
           o.startedAt.Some?)
     && (prior.status == Returning && o.status == Available ==> prior.endsAt.Some?))
  }

  /** The events of one observer, in the order they are emitted. */
  function ObserverDrafts(prior: Observer, o: Observer, before: seq<Portal>, after: seq<Portal>, cfg: Config): seq<Draft> {
    if prior.status == o.status && SamePhase(prior, o) then []
    else
      DepartureDrafts(prior, o, after) + ArrivalDrafts(prior, o, before, cfg) + ReturnStartDrafts(prior, o)
      + HomecomingDrafts(prior, o) + LossDrafts(prior, o, before)
  }

  function DepartureDrafts(prior: Observer, o: Observer, after: seq<Portal>): seq<Draft> {
    if prior.status == Available && o.status == Outbound
    then [Draft(ObserverDispatched, o.portal, Some(o.id), DestinationOf(o.portal, after), NoDetail, Required(o.startedAt))]
    else []
  }

  function ArrivalDrafts(prior: Observer, o: Observer, before: seq<Portal>, cfg: Config): seq<Draft> {
    if prior.status == Outbound && o.status != Outbound && o.status != Lost then
      var arrivalAt := Required(prior.endsAt);
      var plane := if o.plane.Some? then o.plane else DestinationOf(prior.portal, before);
      [Draft(ObserverArrived, prior.portal, Some(o.id), plane, NoDetail, arrivalAt),
       Draft(ResearchStarted, prior.portal, Some(o.id), plane, NoDetail, arrivalAt)]
      + (if o.status != Exploring
         then [Draft(ResearchCompleted, None, Some(o.id), plane, NoDetail, arrivalAt + cfg.researchDuration)]
         else [])
    else if prior.status == Exploring && o.status != Exploring && o.status != Lost then
      [Draft(ResearchCompleted, None, Some(o.id), prior.plane, NoDetail, Required(prior.endsAt))]
    else []
  }

  function ReturnStartDrafts(prior: Observer, o: Observer): seq<Draft> {
    if (prior.status == WaitingReturn || prior.status == Exploring || prior.status == Outbound) && o.status == Returning
    then [Draft(ObserverReturnStarted, o.portal, Some(o.id), o.plane, NoDetail, Required(o.startedAt))]
    else []
  }

  function HomecomingDrafts(prior: Observer, o: Observer): seq<Draft> {
    if prior.status == Returning && o.status == Available
    then [Draft(ObserverReturned, prior.portal, Some(o.id), prior.plane, NoDetail, Required(prior.endsAt))]
    else []
  }

  function LossDrafts(prior: Observer, o: Observer, before: seq<Portal>): seq<Draft> {
    if o.status == Lost && prior.status != Lost
    then [Draft(ObserverLost, prior.portal, Some(o.id),
                if prior.plane.Some? then prior.plane else DestinationOf(prior.portal, before), NoDetail, o.updatedAt)]
    else []
  }

  function PlaneDrafts(prior: Option<Plane>, p: Plane): seq<Draft> {
    if prior.Some? && !prior.value.explored && p.explored && p.exploredAt.Some?
    then [Draft(PlaneExplored, None, None, Some(p.id), NoDetail, p.exploredAt.value)] else []
  }

  // ---------------------------------------------------------------- the emergency window

  /** The window events of a chronological list of collapses: a window ends when a later collapse finds
      it over, or when the interval does. */
  function OverrideDrafts(deadline: Option<Time>, windowStart: Time, collapses: seq<Collapse>, now: Time, cfg: Config): seq<Draft>
    decreases |collapses|
  {
    if |collapses| == 0 then EndedBy(deadline, windowStart, now)
    else
      var c := collapses[0];
      var until := c.at + cfg.emergencyDuration;
      EndedBy(deadline, windowStart, c.at)
      + [Draft(OverrideStarted, Some(c.portalID), None, Some(c.planeID), Until(until), c.at)]
      + OverrideDrafts(Some(until), c.at, collapses[1..], now, cfg)
  }

  function EndedBy(deadline: Option<Time>, windowStart: Time, moment: Time): seq<Draft> {
    if deadline.Some? && windowStart < deadline.value <= moment
    then [Draft(OverrideEnded, None, None, None, NoDetail, deadline.value)] else []
  }

  // ---------------------------------------------------------------- whole transition

  function PriorPortal(ps: seq<Portal>, id: int): Option<Portal> {
    match FindPortal(ps, id)
    case None => None
    case Some(k) => Some(ps[k])
  }

  function PriorPlane(planes: seq<Plane>, id: int): Option<Plane> {
    match FindPlane(planes, id)
    case None => None
    case Some(k) => Some(planes[k])
  }

  function FindObserver(os: seq<Observer>, id: int): (r: Option<nat>)
    ensures r.Some? ==> r.value < |os| && os[r.value].id == id
    ensures r.None? ==> forall i :: 0 <= i < |os| ==> os[i].id != id
  {
    if |os| == 0 then None
    else if os[|os| - 1].id == id && FindObserver(os[..|os| - 1], id).None? then Some(|os| - 1)
    else FindObserver(os[..|os| - 1], id)
  }

  function ObserverEvents(before: State, after: State, o: Observer, cfg: Config): seq<Draft> {
    match FindObserver(before.observers, o.id)
    case None => []
    case Some(k) => ObserverDrafts(before.observers[k], o, before.portals, after.portals, cfg)
  }

  /** A transition and the two instants it is judged at. */
  datatype Transition = Transition(before: State, after: State, previousAt: Time, now: Time)

  predicate InRange(visit: seq<nat>, n: nat) {
    forall i :: 0 <= i < |visit| ==> visit[i] < n
  }

  /** The portal drafts when the after-portals are visited in the given order. */
  function VisitPortals(t: Transition, visit: seq<nat>, cfg: Config): seq<Draft>
    requires InRange(visit, |t.after.portals|)
  {
    if |visit| == 0 then []
    else
      var p := t.after.portals[visit[|visit| - 1]];
      VisitPortals(t, visit[..|visit| - 1], cfg)
      + PortalDrafts(PriorPortal(t.before.portals, p.id), p, t.previousAt, t.now, cfg)
  }

  function VisitCollapses(t: Transition, visit: seq<nat>): seq<Collapse>
    requires InRange(visit, |t.after.portals|)
  {
    if |visit| == 0 then []
    else
      var p := t.after.portals[visit[|visit| - 1]];
      VisitCollapses(t, visit[..|visit| - 1]) + CollapseOf(PriorPortal(t.before.portals, p.id), p)
  }

  function VisitObservers(t: Transition, visit: seq<nat>, cfg: Config): seq<Draft>
    requires InRange(visit, |t.after.observers|)
  {
    if |visit| == 0 then []
    else
      VisitObservers(t, visit[..|visit| - 1], cfg)
      + ObserverEvents(t.before, t.after, t.after.observers[visit[|visit| - 1]], cfg)
  }

  function VisitPlanes(before: seq<Plane>, after: seq<Plane>): seq<Draft> {
    if |after| == 0 then []
    else
      var p := after[|after| - 1];
      VisitPlanes(before, after[..|after| - 1]) + PlaneDrafts(PriorPlane(before, p.id), p)
  }

  /** The drafts collected when the portal map and the observer map are iterated in these orders. */
  function Collected(t: Transition, portalVisit: seq<nat>, observerVisit: seq<nat>, cfg: Config): seq<Draft>
    requires InRange(portalVisit, |t.after.portals|)
    requires InRange(observerVisit, |t.after.observers|)
  {
    VisitPortals(t, portalVisit, cfg)
    + OverrideDrafts(t.before.lab.overrideUntil, t.previousAt, Sort(VisitCollapses(t, portalVisit), CollapseBefore()), t.now, cfg)
    + VisitObservers(t, observerVisit, cfg)
    + VisitPlanes(t.before.planes, t.after.planes)
  }

  /** The log of a transition: its drafts in log order. */
  function EventLog(t: Transition, cfg: Config): seq<Draft> {
    Sort(Collected(t, Indices(|t.after.portals|), Indices(|t.after.observers|), cfg), LogOrder())
  }

  // ---------------------------------------------------------------- when a log can be derived

  predicate PositiveDistinctPortals(ps: seq<Portal>) {
    DistinctPortalIds(ps) && forall i :: 0 <= i < |ps| ==> ps[i].id > 0
  }

  predicate PositiveDistinctObservers(os: seq<Observer>) {
    DistinctObserverIds(os) && forall i :: 0 <= i < |os| ==> os[i].id > 0
  }

  predicate PositiveDistinctPlanes(planes: seq<Plane>) {
    DistinctPlaneIds(planes) && forall i :: 0 <= i < |planes| ==> planes[i].id > 0
  }

  /** Both states have well-identified entities. */
  predicate Identified(t: Transition) {
    && PositiveDistinctPortals(t.before.portals) && PositiveDistinctPortals(t.after.portals)
    && PositiveDistinctObservers(t.before.observers) && PositiveDistinctObservers(t.after.observers)
    && PositiveDistinctPlanes(t.before.planes) && PositiveDistinctPlanes(t.after.planes)
  }

  /** A portal that has ended records when. */
  predicate EndRecorded(prior: Option<Portal>, p: Portal) {
    prior.Some? && prior.value.status == Open && p.status != Open ==> p.closedAt.Some?
  }

  /** An observer's phases are dated, and it is not lost in the future. */
  predicate ChangeRecorded(t: Transition, o: Observer) {
    match FindObserver(t.before.observers, o.id)
    case None => true
    case Some(k) =>
      && PhaseRecorded(t.before.observers[k], o)
      && (o.status == Lost && t.before.observers[k].status != Lost ==> o.updatedAt <= t.now)
  }

  predicate EndsRecorded(t: Transition) {
    forall i :: 0 <= i < |t.after.portals| ==> EndRecorded(PriorPortal(t.before.portals, t.after.portals[i].id), t.after.portals[i])
  }

  predicate ChangesRecorded(t: Transition) {
    forall i :: 0 <= i < |t.after.observers| ==> ChangeRecorded(t, t.after.observers[i])
  }

  predicate Derivable(t: Transition) {
    Identified(t) && EndsRecorded(t) && ChangesRecorded(t)
  }

  predicate AllDraftsValid(ds: seq<Draft>) {
    forall d :: d in ds ==> d.Valid()
  }

  /** Exactly the transitions a log is derived for; all others are refused as inconsistent. */
  predicate Loggable(t: Transition, cfg: Config) {
    t.previousAt <= t.now && Derivable(t) && AllDraftsValid(EventLog(t, cfg))
  }

  function EventsFor(t: Transition, cfg: Config): Result<seq<Draft>> {
    if Loggable(t, cfg) then Ok(EventLog(t, cfg)) else Err(EventInvariant)
  }
}

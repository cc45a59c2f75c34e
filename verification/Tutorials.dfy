/** The guided introduction: the step machine that runs beside the simulation, its scenario portals, and
    the portal it currently points the visitor at. */
module Tutorials {
  import opened Base
  import opened Randomness
  import opened Portals
  import opened Labs
  import opened Observers
  import opened States
  import opened Commands
  import opened Ticks
  import opened Invariants
  import opened CommandInvariants
  import opened Runs

  datatype Mode = Tutorial | Live
  datatype Phase = NoPhase | SendReplacement | WaitResearch | RecallReady

  datatype App = App(mode: Mode, step: int, phase: Phase, portalID: Option<int>, planeID: Option<int>, observerID: Option<int>)

  datatype Snapshot = Snapshot(sim: State, app: App)

  datatype Profile = Step1 | Step2 | Step3 | Step4 | Step5 | Step6Outbound | Step6Return

  datatype Signal = IntroCompleted | PortalDetailsOpened | EventLogOpened

  // ---------------------------------------------------------------- scenario portals

  /** A scenario portal; it draws nothing. */
  function ScenarioPortal(profile: Profile, id: int, planeID: int, slot: int, now: Time): Portal {
    var plain := Portal(id, slot, Natural, planeID, 100.0, now, 0.1, Stable, None, now, now + 120 * SECOND, 0,
                        FlowNone, None, Open, NotTerminated, None, now, now);
    match profile
    case Step1 => plain.(creatures := 3)
    case Step2 => plain.(creatures := 3)
    case Step3 => plain
    case Step4 => plain.(energyBase := 25.0, decay := 1.0, stability := Unstable, instabilityAt := Some(now + 119 * SECOND))
    case Step5 => plain.(scheduledCloseAt := now + 10 * SECOND)
    case Step6Outbound => plain
    case Step6Return => plain
  }

  /** The balance leaves room for the scenario portals. */
  predicate FitsScenario(cfg: RawConfig) {
    && cfg.portalEnergyMax >= 100.0 && cfg.creatureMax >= 3
    && cfg.instabilityMinLifetime <= 119 * SECOND && cfg.instabilityCloseMargin <= SECOND
  }

  lemma ScenarioPortalIsValid(profile: Profile, id: int, planeID: int, slot: int, now: Time, cfg: Config)
    requires FitsScenario(cfg) && id > 0 && planeID > 0 && 1 <= slot <= 7
    ensures var p := ScenarioPortal(profile, id, planeID, slot, now);
            PortalInv(p, now, cfg) && p.status == Open && p.openedAt == now && p.id == id && p.plane == planeID && p.kind == Natural
  {
  }

  // ---------------------------------------------------------------- targets

  /** The unexplored plane of lowest ID, or zero if all are explored. */
  function FirstTutorialPlane(planes: seq<Plane>): int {
    match LowestUnexplored(planes, |planes|)
    case None => 0
    case Some(j) => planes[j].id
  }

  function LowestUnexplored(planes: seq<Plane>, n: nat): (r: Option<nat>)
    requires n <= |planes|
    ensures r.None? ==> forall j :: 0 <= j < n ==> planes[j].explored
    ensures r.Some? ==> r.value < n && !planes[r.value].explored
    ensures r.Some? ==> forall j :: 0 <= j < n && !planes[j].explored ==> planes[r.value].id <= planes[j].id
  {
    if n == 0 then None
    else
      var earlier := LowestUnexplored(planes, n - 1);
      if planes[n - 1].explored || (earlier.Some? && planes[earlier.value].id <= planes[n - 1].id) then earlier else Some(n - 1)
  }

  function CreateTarget(snap: Snapshot, profile: Profile, wanted: int, now: Time, cfg: Config): Result<Snapshot> {
    var planeID := if wanted == 0 then FirstTutorialPlane(snap.sim.planes) else wanted;
    if planeID == 0 then Err(SimulationInvariant)
    else match FreeSlot(snap.sim.portals, cfg.maxActivePortals)
      case None => Err(NoFreePortalSlot)
      case Some(slot) =>
        if snap.sim.nextPortalID <= 0 || planeID <= 0 then Err(SimulationInvariant)
        else
          var p := ScenarioPortal(profile, snap.sim.nextPortalID, planeID, slot, now);
          Ok(Snapshot(snap.sim.(portals := snap.sim.portals + [p], nextPortalID := snap.sim.nextPortalID + 1),
                      snap.app.(portalID := Some(p.id), planeID := Some(planeID))))
  }

  function TargetPortal(snap: Snapshot): (r: Option<Portal>)
    ensures r.Some? ==> snap.app.portalID == Some(r.value.id) && r.value in snap.sim.portals
  {
    if snap.app.portalID.None? then None
    else match FindPortal(snap.sim.portals, snap.app.portalID.value)
      case None => None
      case Some(k) => Some(snap.sim.portals[k])
  }

  function Tracked(snap: Snapshot): Option<Observer> {
    if snap.app.observerID.None? then None else FirstObserver(snap.sim.observers, snap.app.observerID.value)
  }

  function FirstObserver(os: seq<Observer>, id: int): (r: Option<Observer>)
    ensures r.Some? ==> r.value in os && r.value.id == id
  {
    if |os| == 0 then None
    else if os[0].id == id then Some(os[0])
    else FirstObserver(os[1..], id)
  }

  /** The first observer in transit through a portal in the given direction. */
  function Through(os: seq<Observer>, status: ObserverStatus, portalID: int): (r: Option<Observer>)
    ensures r.Some? ==> r.value in os && r.value.status == status && r.value.portal == Some(portalID)
    ensures r.None? ==> forall i :: 0 <= i < |os| ==> !(os[i].status == status && os[i].portal == Some(portalID))
  {
    if |os| == 0 then None
    else if os[0].status == status && os[0].portal == Some(portalID) then Some(os[0])
    else Through(os[1..], status, portalID)
  }

  function IdOr(id: Option<int>): int {
    if id.Some? then id.value else 0
  }

  // ---------------------------------------------------------------- the step machine

  /** In the tutorial the natural generator is paused before anything else happens. */
  function Prepared(snap: Snapshot): Snapshot {
    if snap.app.mode == Tutorial then snap.(sim := snap.sim.(spawn := PAUSED)) else snap
  }

  /** The scenario a lost target of the current step is replaced by. */
  function Replacement(app: App): Option<Profile> {
    if app.step == 1 then Some(Step1)
    else if app.step == 2 then Some(Step2)
    else if app.step == 3 then Some(Step3)
    else if app.step == 4 then Some(Step4)
    else if app.step == 5 then Some(Step5)
    else if app.step == 6 && app.phase == RecallReady then Some(Step6Return)
    else if app.step == 6 && app.phase == SendReplacement then Some(Step6Outbound)
    else None
  }

  function RecreateTerminal(snap: Snapshot, now: Time, cfg: Config): Result<Snapshot> {
    match TargetPortal(snap)
    case None => Ok(snap)
    case Some(p) =>
      if p.status == Open then Ok(snap)
      else match Replacement(snap.app)
        case None => Ok(snap)
        case Some(profile) => CreateTarget(snap, profile, p.plane, now, cfg)
  }

  function AdvanceStep2(snap: Snapshot, now: Time, cfg: Config): Result<Snapshot> {
    if snap.app.step != 2 then Ok(snap)
    else match TargetPortal(snap)
      case None => Err(SimulationInvariant)
      case Some(p) =>
        Ok(if p.status == Open && p.CreaturesInside(now, cfg) == 0 then snap.(app := snap.app.(step := 3)) else snap)
  }

  /** The visitor's observer is gone: offer a new outbound portal to the same plane. */
  function OfferReplacement(snap: Snapshot, now: Time, cfg: Config): Result<Snapshot> {
    CreateTarget(snap.(app := snap.app.(step := 6, phase := SendReplacement)), Step6Outbound, IdOr(snap.app.planeID), now, cfg)
  }

  function AdvanceStep6(snap: Snapshot, now: Time, cfg: Config): Result<Snapshot>
    requires snap.app.step == 6
  {
    var o := Tracked(snap);
    if o.Some? && o.value.status == Lost then
      if snap.app.phase == SendReplacement && TargetPortal(snap).Some? && TargetPortal(snap).value.status == Open then Ok(snap)
      else OfferReplacement(snap, now, cfg)
    else if snap.app.phase == WaitResearch && o.Some? && o.value.status == WaitingReturn then
      if o.value.plane.None? then Err(SimulationInvariant)
      else match CreateTarget(snap, Step6Return, o.value.plane.value, now, cfg)
        case Err(e) => Err(e)
        case Ok(r) => Ok(r.(app := r.app.(phase := RecallReady)))
    else Ok(snap)
  }

  function AdvanceStep7(snap: Snapshot, now: Time, cfg: Config): Result<Snapshot>
    requires snap.app.step == 7
  {
    match Tracked(snap)
    case None => Err(SimulationInvariant)
    case Some(o) =>
      if o.status == Lost then OfferReplacement(snap, now, cfg)
      else if o.status == Available && FindPlane(snap.sim.planes, IdOr(snap.app.planeID)).Some?
              && snap.sim.planes[FindPlane(snap.sim.planes, IdOr(snap.app.planeID)).value].explored
      then Ok(snap.(app := snap.app.(step := 8, phase := NoPhase, portalID := None)))
      else Ok(snap)
  }

  /** What the tutorial does after every tick that is not a mere read. */
  function AfterTick(snap: Snapshot, now: Time, cfg: Config): Result<Snapshot> {
    if snap.app.mode != Tutorial then Ok(snap)
    else if snap.app.step == 0 then Ok(Prepared(snap))
    else match RecreateTerminal(Prepared(snap), now, cfg)
      case Err(e) => Err(e)
      case Ok(kept) =>
        match AdvanceStep2(kept, now, cfg)
        case Err(e) => Err(e)
        case Ok(s) =>
          if s.app.step == 6 then AdvanceStep6(s, now, cfg)
          else if s.app.step == 7 then AdvanceStep7(s, now, cfg)
          else Ok(s)
  }

  function PortalIDOf(c: Command): Option<int> {
    match c
    case Stabilize(id) => Some(id)
    case ClosePortal(id, _) => Some(id)
    case SendObserver(id, _) => Some(id)
    case RecallObserver(id, _) => Some(id)
    case OpenExtraction(_) => None
  }

  predicate Matches(snap: Snapshot, c: Command) {
    PortalIDOf(c).Some? && snap.app.portalID == PortalIDOf(c)
  }

  function FinishStep3(snap: Snapshot, portalID: int, now: Time, cfg: Config): Result<Snapshot> {
    var o := Through(snap.sim.observers, Outbound, portalID);
    if o.None? || TargetPortal(snap).None? then Err(SimulationInvariant)
    else
      var planeID := TargetPortal(snap).value.plane;
      match CreateTarget(snap.(app := snap.app.(observerID := Some(o.value.id), planeID := Some(planeID))), Step4, planeID, now, cfg)
      case Err(e) => Err(e)
      case Ok(r) => Ok(r.(app := r.app.(step := 4)))
  }

  /** Step 4 demands that the stabilization visibly lowered the risk. */
  predicate LoweredRisk(before: Portal, after: Portal, now: Time, cfg: Config) {
    && before.stability == Unstable && after.stability == Stable
    && (before.RiskLevel(now, cfg) == Some(High) || before.RiskLevel(now, cfg) == Some(Critical))
    && (after.RiskLevel(now, cfg) == Some(Low) || after.RiskLevel(now, cfg) == Some(Medium))
  }

  function FinishStep4(snap: Snapshot, before: Snapshot, now: Time, cfg: Config): Result<Snapshot> {
    if TargetPortal(before).None? || TargetPortal(snap).None?
       || !LoweredRisk(TargetPortal(before).value, TargetPortal(snap).value, now, cfg) then Err(SimulationInvariant)
    else match CreateTarget(snap, Step5, 0, now, cfg)
      case Err(e) => Err(e)
      case Ok(r) => Ok(r.(app := r.app.(step := 5)))
  }

  function EnterStep6(snap: Snapshot, now: Time, cfg: Config): Result<Snapshot> {
    var o := Tracked(snap);
    if o.Some? && (o.value.status == Outbound || o.value.status == Exploring) then
      Ok(snap.(app := snap.app.(step := 6, phase := WaitResearch)))
    else if o.Some? && o.value.status == WaitingReturn && o.value.plane.Some? then
      CreateTarget(snap.(app := snap.app.(step := 6, phase := RecallReady)), Step6Return, o.value.plane.value, now, cfg)
    else OfferReplacement(snap, now, cfg)
  }

  function AdvancePhase(snap: Snapshot, c: Command, cause: Option<Error>, matched: bool): Result<Snapshot> {
    if cause.Some? || !matched then Ok(snap)
    else if c.SendObserver? && snap.app.phase == SendReplacement then
      match Through(snap.sim.observers, Outbound, c.portalID)
      case None => Err(SimulationInvariant)
      case Some(o) => Ok(snap.(app := snap.app.(observerID := Some(o.id), phase := WaitResearch)))
    else if c.RecallObserver? && snap.app.phase == RecallReady then
      match Through(snap.sim.observers, Returning, c.portalID)
      case None => Err(SimulationInvariant)
      case Some(o) => Ok(snap.(app := snap.app.(observerID := Some(o.id), step := 7, phase := NoPhase)))
    else Ok(snap)
  }

  /** A target used in the wrong direction is of no more use. */
  function RecreateMisused(snap: Snapshot, c: Command, cause: Option<Error>, matched: bool, now: Time, cfg: Config): Result<Snapshot> {
    if cause.Some? || !matched || snap.app.step != 6 then Ok(snap)
    else
      var profile := if snap.app.phase == RecallReady && c.SendObserver? then Some(Step6Return)
                     else if snap.app.phase == SendReplacement && c.RecallObserver? then Some(Step6Outbound)
                     else None;
      match profile
      case None => Ok(snap)
      case Some(q) =>
        match TargetPortal(snap)
        case None => Err(SimulationInvariant)
        case Some(p) => CreateTarget(snap, q, p.plane, now, cfg)
  }

  function StepAfterCommand(snap: Snapshot, before: Snapshot, c: Command, cause: Option<Error>, now: Time, cfg: Config): Result<Snapshot> {
    var matched := Matches(snap, c);
    if snap.app.step == 3 && cause.None? && c.SendObserver? && matched then FinishStep3(snap, c.portalID, now, cfg)
    else if snap.app.step == 4 && cause.None? && c.Stabilize? && matched then FinishStep4(snap, before, now, cfg)
    else if snap.app.step == 5 && c.SendObserver? && matched && cause == Some(PortalCriticalRisk) then EnterStep6(snap, now, cfg)
    else if snap.app.step == 6 then
      match AdvancePhase(snap, c, cause, matched)
      case Err(e) => Err(e)
      case Ok(s) => RecreateMisused(s, c, cause, matched, now, cfg)
    else Ok(snap)
  }

  /** What the tutorial does after a command, given the snapshot before it and how it ended. */
  function AfterCommand(snap: Snapshot, before: Snapshot, c: Command, cause: Option<Error>, now: Time, cfg: Config): Result<Snapshot> {
    if snap.app.mode != Tutorial then Ok(snap)
    else match StepAfterCommand(Prepared(snap), before, c, cause, now, cfg)
      case Err(e) => Err(e)
      case Ok(s) => RecreateTerminal(s, now, cfg)
  }

  function AfterSignal(snap: Snapshot, signal: Signal, portalID: Option<int>, now: Time, cfg: Config): Result<Snapshot> {
    if snap.app.mode != Tutorial then Err(InvalidTutorialSignal)
    else if snap.app.step == 0 && signal == IntroCompleted && portalID.None? then
      match CreateTarget(snap, Step1, 0, now, cfg)
      case Err(e) => Err(e)
      case Ok(r) => Ok(r.(app := r.app.(step := 1)))
    else if snap.app.step == 1 && signal == PortalDetailsOpened && portalID.Some? && snap.app.portalID == portalID then
      Ok(snap.(app := snap.app.(step := 2)))
    else if snap.app.step == 8 && signal == EventLogOpened && portalID.None? then
      Ok(snap.(app := snap.app.(step := 9)))
    else Err(InvalidTutorialSignal)
  }

  // ---------------------------------------------------------------- the target invariant

  /** The visitor is being pointed at a portal. */
  predicate NeedsTarget(app: App) {
    app.mode == Tutorial && Replacement(app).Some?
  }

  /** The portal the visitor is pointed at exists. */
  predicate TargetNamed(snap: Snapshot) {
    NeedsTarget(snap.app) ==> TargetPortal(snap).Some?
  }

  /** And it is open. */
  predicate TargetOpen(snap: Snapshot) {
    NeedsTarget(snap.app) ==> TargetPortal(snap).Some? && TargetPortal(snap).value.status == Open
  }

  predicate PlaneKnown(snap: Snapshot) {
    snap.app.planeID.Some? ==> FindPlane(snap.sim.planes, snap.app.planeID.value).Some?
  }

  /** What every step of the tutorial keeps of the simulation it runs beside. */
  ghost predicate Sound(snap: Snapshot, now: Time, cfg: Config) {
    InvAt(snap.sim, now, cfg) && snap.sim.lastTickAt == Some(now) && PlaneKnown(snap)
  }

  ghost predicate HasOpenTarget(snap: Snapshot) {
    TargetPortal(snap).Some? && TargetPortal(snap).value.status == Open
  }

  lemma AppendedIsFound(ps: seq<Portal>, p: Portal)
    requires forall i :: 0 <= i < |ps| ==> ps[i].id != p.id
    ensures FindPortal(ps + [p], p.id) == Some(|ps|)
  {
  }

  lemma NewTargetIsValid(s: State, profile: Profile, planeID: int, slot: int, now: Time, cfg: Config)
    requires FitsScenario(cfg) && InvAt(s, now, cfg) && FindPlane(s.planes, planeID).Some?
    requires FreeSlot(s.portals, cfg.maxActivePortals) == Some(slot)
    ensures var p := ScenarioPortal(profile, s.nextPortalID, planeID, slot, now);
            InvAt(s.(portals := s.portals + [p], nextPortalID := s.nextPortalID + 1), now, cfg)
    ensures planeID > 0
  {
    var p := ScenarioPortal(profile, s.nextPortalID, planeID, slot, now);
    assert ValidPlane(s.planes[FindPlane(s.planes, planeID).value], now);
    ScenarioPortalIsValid(profile, s.nextPortalID, planeID, slot, now, cfg);
    AppendKeeps(s.portals, s.observers, s.planes, s.nextPortalID, p, now, cfg);
  }

  lemma FirstPlaneIsKnown(planes: seq<Plane>, now: Time)
    requires ValidPlanes(planes, now) && FirstTutorialPlane(planes) != 0
    ensures FindPlane(planes, FirstTutorialPlane(planes)).Some?
  {
  }

  lemma NewTargetIsFound(s: State, now: Time, cfg: Config, p: Portal)
    requires InvAt(s, now, cfg) && p.id == s.nextPortalID
    ensures FindPortal(s.portals + [p], p.id) == Some(|s.portals|)
  {
  }

  lemma CreatedIsOpen(snap: Snapshot, profile: Profile, planeID: int, slot: int, now: Time, cfg: Config)
    requires InvAt(snap.sim, now, cfg)
    ensures var s, p := snap.sim, ScenarioPortal(profile, snap.sim.nextPortalID, planeID, slot, now);
            HasOpenTarget(Snapshot(s.(portals := s.portals + [p], nextPortalID := s.nextPortalID + 1),
                                   snap.app.(portalID := Some(p.id), planeID := Some(planeID))))
  {
    NewTargetIsFound(snap.sim, now, cfg, ScenarioPortal(profile, snap.sim.nextPortalID, planeID, slot, now));
  }

  lemma CreatedIsKnown(snap: Snapshot, wanted: int, now: Time, cfg: Config)
    requires InvAt(snap.sim, now, cfg) && (wanted == 0 || FindPlane(snap.sim.planes, wanted).Some?)
    ensures wanted == 0 && FirstTutorialPlane(snap.sim.planes) != 0 ==> FindPlane(snap.sim.planes, FirstTutorialPlane(snap.sim.planes)).Some?
  {
    if wanted == 0 && FirstTutorialPlane(snap.sim.planes) != 0 {
      FirstPlaneIsKnown(snap.sim.planes, now);
    }
  }

  /** A created target is open, the simulation stays valid, and nothing else of the tutorial moves. */
  lemma CreateTargetKeeps(snap: Snapshot, profile: Profile, wanted: int, now: Time, cfg: Config)
    requires FitsScenario(cfg) && Sound(snap, now, cfg)
    requires wanted == 0 || FindPlane(snap.sim.planes, wanted).Some?
    ensures var r := CreateTarget(snap, profile, wanted, now, cfg);
            r.Ok? ==> Sound(r.value, now, cfg) && HasOpenTarget(r.value)
                      && r.value.app == snap.app.(portalID := r.value.app.portalID, planeID := r.value.app.planeID)
  {
    var r := CreateTarget(snap, profile, wanted, now, cfg);
    CreatedIsKnown(snap, wanted, now, cfg);
    if r.Ok? {
      var planeID := if wanted == 0 then FirstTutorialPlane(snap.sim.planes) else wanted;
      var slot := FreeSlot(snap.sim.portals, cfg.maxActivePortals).value;
      NewTargetIsValid(snap.sim, profile, planeID, slot, now, cfg);
      CreatedIsOpen(snap, profile, planeID, slot, now, cfg);
    }
  }

  lemma TargetLeadsSomewhere(snap: Snapshot, now: Time, cfg: Config)
    requires Sound(snap, now, cfg) && TargetPortal(snap).Some?
    ensures FindPlane(snap.sim.planes, TargetPortal(snap).value.plane).Some?
  {
  }

  lemma RecreateTerminalKeeps(snap: Snapshot, now: Time, cfg: Config)
    requires FitsScenario(cfg) && Sound(snap, now, cfg) && TargetNamed(snap)
    ensures var r := RecreateTerminal(snap, now, cfg);
            r.Ok? ==> Sound(r.value, now, cfg) && TargetOpen(r.value)
                      && r.value.app == snap.app.(portalID := r.value.app.portalID, planeID := r.value.app.planeID)
  {
    var p := TargetPortal(snap);
    if p.Some? && p.value.status != Open && Replacement(snap.app).Some? {
      TargetLeadsSomewhere(snap, now, cfg);
      CreateTargetKeeps(snap, Replacement(snap.app).value, p.value.plane, now, cfg);
    }
  }

  lemma OfferReplacementKeeps(snap: Snapshot, now: Time, cfg: Config)
    requires FitsScenario(cfg) && Sound(snap, now, cfg)
    ensures var r := OfferReplacement(snap, now, cfg);
            r.Ok? ==> Sound(r.value, now, cfg) && TargetOpen(r.value)
  {
    RelabelKeeps(snap, snap.app.(step := 6, phase := SendReplacement), now, cfg);
    CreateTargetKeeps(snap.(app := snap.app.(step := 6, phase := SendReplacement)), Step6Outbound, IdOr(snap.app.planeID), now, cfg);
  }

  lemma KnownPlaneOf(o: Observer, s: State, now: Time, cfg: Config)
    requires InvAt(s, now, cfg) && o in s.observers && o.plane.Some?
    ensures FindPlane(s.planes, o.plane.value).Some?
  {
  }

  lemma AdvanceStep6Keeps(snap: Snapshot, now: Time, cfg: Config)
    requires FitsScenario(cfg) && Sound(snap, now, cfg) && TargetOpen(snap) && snap.app.step == 6
    ensures var r := AdvanceStep6(snap, now, cfg); r.Ok? ==> Sound(r.value, now, cfg) && TargetOpen(r.value)
  {
    var o := Tracked(snap);
    if o.Some? && o.value.status == Lost {
      OfferReplacementKeeps(snap, now, cfg);
    } else if snap.app.phase == WaitResearch && o.Some? && o.value.status == WaitingReturn && o.value.plane.Some? {
      KnownPlaneOf(o.value, snap.sim, now, cfg);
      CreateTargetKeeps(snap, Step6Return, o.value.plane.value, now, cfg);
      var r := CreateTarget(snap, Step6Return, o.value.plane.value, now, cfg);
      if r.Ok? {
        RelabelKeeps(r.value, r.value.app.(phase := RecallReady), now, cfg);
      }
    }
  }

  lemma AdvanceStep7Keeps(snap: Snapshot, now: Time, cfg: Config)
    requires FitsScenario(cfg) && Sound(snap, now, cfg) && snap.app.step == 7
    ensures var r := AdvanceStep7(snap, now, cfg); r.Ok? ==> Sound(r.value, now, cfg) && TargetOpen(r.value)
  {
    var o := Tracked(snap);
    if o.Some? && o.value.status == Lost {
      OfferReplacementKeeps(snap, now, cfg);
    } else {
      Step7Outcome(snap, now, cfg);
    }
  }

  lemma Step7Outcome(snap: Snapshot, now: Time, cfg: Config)
    requires snap.app.step == 7 && (Tracked(snap).Some? ==> Tracked(snap).value.status != Lost)
    ensures var r := AdvanceStep7(snap, now, cfg);
            r.Ok? ==> r.value.sim == snap.sim && r.value.app.planeID == snap.app.planeID && (r.value.app.step == 7 || r.value.app.step == 8)
  {
  }

  lemma PreparedKeeps(snap: Snapshot, now: Time, cfg: Config)
    requires Sound(snap, now, cfg)
    ensures Sound(Prepared(snap), now, cfg) && (TargetNamed(snap) ==> TargetNamed(Prepared(snap)))
    ensures TargetPortal(Prepared(snap)) == TargetPortal(snap) && Prepared(snap).app == snap.app
  {
  }

  lemma AdvanceStep2Keeps(snap: Snapshot, now: Time, cfg: Config)
    requires Sound(snap, now, cfg) && TargetOpen(snap)
    ensures var r := AdvanceStep2(snap, now, cfg); r.Ok? ==> Sound(r.value, now, cfg) && TargetOpen(r.value)
  {
  }

  lemma AdvanceLaterSteps(snap: Snapshot, now: Time, cfg: Config)
    requires FitsScenario(cfg) && Sound(snap, now, cfg) && TargetOpen(snap)
    ensures var r := if snap.app.step == 6 then AdvanceStep6(snap, now, cfg)
                     else if snap.app.step == 7 then AdvanceStep7(snap, now, cfg) else Ok(snap);
            r.Ok? ==> Sound(r.value, now, cfg) && TargetOpen(r.value)
  {
    if snap.app.step == 6 {
      AdvanceStep6Keeps(snap, now, cfg);
    } else if snap.app.step == 7 {
      AdvanceStep7Keeps(snap, now, cfg);
    }
  }

  /** After every advancing tick the portal the visitor is pointed at is open. */
  lemma AfterTickKeeps(snap: Snapshot, now: Time, cfg: Config)
    requires FitsScenario(cfg) && Sound(snap, now, cfg) && TargetNamed(snap)
    ensures var r := AfterTick(snap, now, cfg); r.Ok? ==> Sound(r.value, now, cfg) && TargetOpen(r.value)
  {
    PreparedKeeps(snap, now, cfg);
    if snap.app.mode == Tutorial && snap.app.step != 0 {
      RecreateTerminalKeeps(Prepared(snap), now, cfg);
      var kept := RecreateTerminal(Prepared(snap), now, cfg);
      if kept.Ok? {
        AdvanceStep2Keeps(kept.value, now, cfg);
        var s := AdvanceStep2(kept.value, now, cfg);
        if s.Ok? {
          AdvanceLaterSteps(s.value, now, cfg);
        }
      }
    }
  }

  lemma FinishStep3Keeps(snap: Snapshot, portalID: int, now: Time, cfg: Config)
    requires FitsScenario(cfg) && Sound(snap, now, cfg)
    ensures var r := FinishStep3(snap, portalID, now, cfg); r.Ok? ==> Sound(r.value, now, cfg) && TargetOpen(r.value)
  {
    var o := Through(snap.sim.observers, Outbound, portalID);
    if o.Some? && TargetPortal(snap).Some? {
      TargetLeadsSomewhere(snap, now, cfg);
      var planeID := TargetPortal(snap).value.plane;
      CreateTargetKeeps(snap.(app := snap.app.(observerID := Some(o.value.id), planeID := Some(planeID))), Step4, planeID, now, cfg);
    }
  }

  lemma EnterStep6Keeps(snap: Snapshot, now: Time, cfg: Config)
    requires FitsScenario(cfg) && Sound(snap, now, cfg)
    ensures var r := EnterStep6(snap, now, cfg); r.Ok? ==> Sound(r.value, now, cfg) && TargetOpen(r.value)
  {
    var o := Tracked(snap);
    if o.Some? && (o.value.status == Outbound || o.value.status == Exploring) {
      RelabelKeeps(snap, snap.app.(step := 6, phase := WaitResearch), now, cfg);
    } else if o.Some? && o.value.status == WaitingReturn && o.value.plane.Some? {
      KnownPlaneOf(o.value, snap.sim, now, cfg);
      RelabelKeeps(snap, snap.app.(step := 6, phase := RecallReady), now, cfg);
      CreateTargetKeeps(snap.(app := snap.app.(step := 6, phase := RecallReady)), Step6Return, o.value.plane.value, now, cfg);
    } else {
      OfferReplacementKeeps(snap, now, cfg);
    }
  }

  lemma RelabelKeeps(snap: Snapshot, app: App, now: Time, cfg: Config)
    requires Sound(snap, now, cfg) && app.planeID == snap.app.planeID
    ensures Sound(snap.(app := app), now, cfg)
  {
  }

  lemma RecreateMisusedKeeps(snap: Snapshot, c: Command, cause: Option<Error>, matched: bool, now: Time, cfg: Config)
    requires FitsScenario(cfg) && Sound(snap, now, cfg) && TargetNamed(snap)
    ensures var r := RecreateMisused(snap, c, cause, matched, now, cfg); r.Ok? ==> Sound(r.value, now, cfg) && TargetNamed(r.value)
  {
    if TargetPortal(snap).Some? && RecreateMisused(snap, c, cause, matched, now, cfg) != Ok(snap) {
      TargetLeadsSomewhere(snap, now, cfg);
      CreateTargetKeeps(snap, if snap.app.phase == RecallReady then Step6Return else Step6Outbound,
                        TargetPortal(snap).value.plane, now, cfg);
    }
  }

  lemma StepAfterCommandKeeps(snap: Snapshot, before: Snapshot, c: Command, cause: Option<Error>, now: Time, cfg: Config)
    requires FitsScenario(cfg) && Sound(snap, now, cfg) && TargetNamed(snap) && snap.app.mode == Tutorial
    ensures var r := StepAfterCommand(snap, before, c, cause, now, cfg); r.Ok? ==> Sound(r.value, now, cfg) && TargetNamed(r.value)
  {
    var matched := Matches(snap, c);
    if snap.app.step == 3 && c.SendObserver? {
      FinishStep3Keeps(snap, c.portalID, now, cfg);
    } else if snap.app.step == 4 {
      CreateTargetKeeps(snap, Step5, 0, now, cfg);
    } else if snap.app.step == 5 {
      EnterStep6Keeps(snap, now, cfg);
    } else if snap.app.step == 6 {
      var s := AdvancePhase(snap, c, cause, matched);
      if s.Ok? {
        assert Sound(s.value, now, cfg) && TargetNamed(s.value);
        RecreateMisusedKeeps(s.value, c, cause, matched, now, cfg);
      }
    }
  }

  /** After every command, refused or not, the portal the visitor is pointed at is open. */
  lemma AfterCommandKeeps(snap: Snapshot, before: Snapshot, c: Command, cause: Option<Error>, now: Time, cfg: Config)
    requires FitsScenario(cfg) && Sound(snap, now, cfg) && TargetNamed(snap)
    ensures var r := AfterCommand(snap, before, c, cause, now, cfg); r.Ok? ==> Sound(r.value, now, cfg) && TargetOpen(r.value)
  {
    if snap.app.mode == Tutorial {
      PreparedKeeps(snap, now, cfg);
      StepAfterCommandKeeps(Prepared(snap), before, c, cause, now, cfg);
      var s := StepAfterCommand(Prepared(snap), before, c, cause, now, cfg);
      if s.Ok? {
        RecreateTerminalKeeps(s.value, now, cfg);
      }
    }
  }

  lemma AfterSignalKeeps(snap: Snapshot, signal: Signal, portalID: Option<int>, now: Time, cfg: Config)
    requires FitsScenario(cfg) && Sound(snap, now, cfg) && TargetOpen(snap)
    ensures var r := AfterSignal(snap, signal, portalID, now, cfg); r.Ok? ==> Sound(r.value, now, cfg) && TargetOpen(r.value)
  {
    CreateTargetKeeps(snap, Step1, 0, now, cfg);
  }

  // ---------------------------------------------------------------- the generator is paused

  /** From a paused generator a tick never spawns, although it may draw a new schedule. */
  lemma PausedNeverSpawns(s: State, now: Time, tape: Tape, pos: nat, cfg: Config)
    requires |s.planes| > 0 && s.spawn.paused
    ensures var r := NaturalSpawn(s, now, tape, pos, cfg);
            r.Ok? && r.value.portalID.None? && r.value.state == s.(spawn := r.value.state.spawn)
  {
  }

  /** No tick in the tutorial adds a natural portal. */
  lemma TutorialTicksNeverSpawn(snap: Snapshot, now: Time, tape: Tape, pos: nat, cfg: Config)
    requires snap.app.mode == Tutorial && Tick(Prepared(snap).sim, now, tape, pos, cfg).Ok?
    ensures var t := Tick(Prepared(snap).sim, now, tape, pos, cfg).value;
            t.spawnedID.None? && |t.state.portals| == |snap.sim.portals|
  {
    var s := Prepared(snap).sim;
    if s.lastTickAt != Some(now) {
      var mid := MidTick(s, now, cfg);
      var x := SynchronizeAll(mid.portals, mid.observers, ExtractionOrder(mid.portals), now, tape, pos, cfg).value;
      PausedNeverSpawns(mid.(portals := x.portals, observers := x.observers), now, tape, x.pos, cfg);
    }
  }

  // ---------------------------------------------------------------- step 4

  lemma HalfBand(h: real, e: real)
    requires h > 0.0
    ensures (h - e) / h * 100.0 > 50.0 <==> 2.0 * e < h
  {
    QuotientAbove(h - e, h, 0.5);
  }

  /** The scenario portal of step 4, as a visitor may have used it before stabilizing it. */
  function Step4Portal(id: int, planeID: int, slot: int, openedAt: Time, flow: Flow, updatedAt: Time): Portal {
    ScenarioPortal(Step4, id, planeID, slot, openedAt).(flow := flow, updatedAt := updatedAt)
  }

  lemma Step4Lifetimes(p: Portal, q: Portal, elapsed: Duration, cfg: Config)
    requires exists id, planeID, slot, flow, u :: p == Step4Portal(id, planeID, slot, p.openedAt, flow, u)
    requires 0 <= elapsed < 25 * SECOND
    requires q == p.(stability := Stable, instabilityAt := None, energyBase := 40.0 - Seconds(elapsed), energyBaseAt := p.openedAt + elapsed,
                     updatedAt := p.openedAt + elapsed)
    ensures p.EffectiveLifetime(p.openedAt + elapsed) == 25 * SECOND - elapsed
    ensures q.EffectiveLifetime(p.openedAt + elapsed) == 40 * SECOND - elapsed
    ensures p.CurrentEnergy(p.openedAt + elapsed) == 25.0 - Seconds(elapsed)
  {
    var now := p.openedAt + elapsed;
    EffectiveLifetimeIsDistance(p, now);
    assert FromSeconds(25.0) == 25 * SECOND;
    assert 25.0 / 1.0 == 25.0;
    assert p.EnergyDepletionAt().value == p.openedAt + 25 * SECOND;
    EffectiveLifetimeIsDistance(q, now);
    assert (40.0 - Seconds(elapsed)) / 1.0 == 40.0 - Seconds(elapsed);
    assert (40.0 - Seconds(elapsed)) * 1_000_000_000.0 == (40 * SECOND - elapsed) as real;
  }

  lemma Step4RiskBefore(p: Portal, now: Time)
    requires p.status == Open && p.stability == Unstable && 0 <= p.EffectiveLifetime(now) <= 25 * SECOND
    ensures p.RiskLevel(now, DEFAULT_CONFIG) == Some(High) || p.RiskLevel(now, DEFAULT_CONFIG) == Some(Critical)
  {
    var e := Seconds(p.EffectiveLifetime(now));
    assert 0.0 <= e <= 25.0;
    assert Seconds(DEFAULT_CONFIG.riskSafeHorizon) == 45.0;
    assert (45.0 - e) / 45.0 * 100.0 >= 40.0;
  }

  lemma Step4RiskAfter(q: Portal, now: Time)
    requires q.status == Open && q.stability == Stable
    ensures q.RiskLevel(now, DEFAULT_CONFIG) == Some(Low) || q.RiskLevel(now, DEFAULT_CONFIG) == Some(Medium)
            <==> 2 * q.EffectiveLifetime(now) >= 45 * SECOND
  {
    HalfBand(45.0, Seconds(q.EffectiveLifetime(now)));
    assert Seconds(DEFAULT_CONFIG.riskSafeHorizon) == 45.0;
    assert 2.0 * Seconds(q.EffectiveLifetime(now)) < 45.0 <==> 2 * q.EffectiveLifetime(now) < 45 * SECOND;
  }

  /** Step 4 is completed by stabilizing its portal in time: it fails, and is refused as an inconsistency,
      exactly when more than seventeen and a half seconds have passed since the portal opened. */
  lemma Step4NeedsPromptness(id: int, planeID: int, slot: int, openedAt: Time, flow: Flow, updatedAt: Time, now: Time)
    requires openedAt <= now < openedAt + 25 * SECOND
    ensures var p := Step4Portal(id, planeID, slot, openedAt, flow, updatedAt);
            p.Stabilize(now, DEFAULT_CONFIG).Ok? &&
            (LoweredRisk(p, p.Stabilize(now, DEFAULT_CONFIG).value, now, DEFAULT_CONFIG) <==> 2 * (now - openedAt) <= 35 * SECOND)
  {
    var cfg := DEFAULT_CONFIG;
    var p := Step4Portal(id, planeID, slot, openedAt, flow, updatedAt);
    var q := p.(stability := Stable, instabilityAt := None, energyBase := 40.0 - Seconds(now - openedAt), energyBaseAt := now, updatedAt := now);
    Step4Lifetimes(p, q, now - openedAt, cfg);
    assert p.Stabilize(now, cfg) == Ok(q);
    Step4RiskBefore(p, now);
    Step4RiskAfter(q, now);
  }

  lemma OpenTargetStays(snap: Snapshot, now: Time, cfg: Config)
    requires HasOpenTarget(snap)
    ensures RecreateTerminal(snap, now, cfg) == Ok(snap)
  {
  }

  lemma Step4Reacts(snap: Snapshot, before: Snapshot, id: int, now: Time, cfg: Config)
    requires snap.app.mode == Tutorial && snap.app.step == 4 && snap.app.portalID == Some(id)
    ensures AfterCommand(snap, before, Command.Stabilize(id), None, now, cfg) ==
            match FinishStep4(Prepared(snap), before, now, cfg)
            case Err(e) => Err(e)
            case Ok(s) => RecreateTerminal(s, now, cfg)
  {
    assert Matches(Prepared(snap), Command.Stabilize(id));
  }

  /** What the tutorial makes of a finished step 4: an error unless the risk was lowered; then the portal of
      step 5, if there is a slot and an unexplored plane for it. */
  lemma Step4Finishes(snap: Snapshot, before: Snapshot, id: int, now: Time, cfg: Config)
    requires snap.app.mode == Tutorial && snap.app.step == 4 && snap.app.portalID == Some(id)
    requires TargetPortal(before).Some? && TargetPortal(snap).Some? && InvAt(snap.sim, now, cfg)
    ensures var r := AfterCommand(snap, before, Command.Stabilize(id), None, now, cfg);
            && (r.Ok? <==> LoweredRisk(TargetPortal(before).value, TargetPortal(snap).value, now, cfg)
                           && FreeSlot(snap.sim.portals, cfg.maxActivePortals).Some? && FirstTutorialPlane(snap.sim.planes) != 0)
            && (r.Ok? ==> r.value.app.step == 5)
            && (!LoweredRisk(TargetPortal(before).value, TargetPortal(snap).value, now, cfg) ==> r == Err(SimulationInvariant))
  {
    var prepared := Prepared(snap);
    Step4Reacts(snap, before, id, now, cfg);
    FirstTargetIsCreated(prepared, Step5, now, cfg);
    var created := CreateTarget(prepared, Step5, 0, now, cfg);
    if created.Ok? {
      OpenTargetStays(created.value.(app := created.value.app.(step := 5)), now, cfg);
    }
  }

  /** A target on the first unexplored plane is created exactly if there is such a plane and a slot, and is
      then the one pointed at. */
  lemma FirstTargetIsCreated(snap: Snapshot, profile: Profile, now: Time, cfg: Config)
    requires InvAt(snap.sim, now, cfg)
    ensures var r := CreateTarget(snap, profile, 0, now, cfg);
            && (r.Ok? <==> FreeSlot(snap.sim.portals, cfg.maxActivePortals).Some? && FirstTutorialPlane(snap.sim.planes) != 0)
            && (r.Ok? ==> HasOpenTarget(r.value))
  {
    var s, planeID := snap.sim, FirstTutorialPlane(snap.sim.planes);
    if planeID != 0 {
      FirstPlaneIsKnown(s.planes, now);
      assert ValidPlane(s.planes[FindPlane(s.planes, planeID).value], now);
      if FreeSlot(s.portals, cfg.maxActivePortals).Some? {
        CreatedIsOpen(snap, profile, planeID, FreeSlot(s.portals, cfg.maxActivePortals).value, now, cfg);
      }
    }
  }

  /** The snapshot after a command on its simulation, before the tutorial reacts. */
  function Commanded(before: Snapshot, c: Command, now: Time, tape: Tape, pos: nat, cfg: Config): Snapshot {
    before.(sim := Apply(before.sim, c, now, tape, pos, cfg).state)
  }

  lemma StabilizedTarget(before: Snapshot, id: int, now: Time, tape: Tape, pos: nat, cfg: Config)
    requires before.app.portalID == Some(id) && TargetPortal(before).Some?
    requires Apply(before.sim, Command.Stabilize(id), now, tape, pos, cfg).error.None?
    ensures TargetPortal(before).value.Stabilize(now, cfg).Ok?
    ensures TargetPortal(Commanded(before, Command.Stabilize(id), now, tape, pos, cfg)) == Some(TargetPortal(before).value.Stabilize(now, cfg).value)
  {
    var k := FindPortal(before.sim.portals, id).value;
    var ps := before.sim.portals;
    FindBySameIds(ps, ps[k := ps[k].Stabilize(now, cfg).value], id);
  }

  /** Stabilizing the portal of step 4 completes the step, and points the visitor at the portal of step 5,
      exactly if at most seventeen and a half seconds have passed since it opened and there is a slot and an
      unexplored plane for the next one. Later than that it is refused as an inconsistency. */
  lemma Step4IsCompleted(before: Snapshot, id: int, planeID: int, slot: int, openedAt: Time, flow: Flow, updatedAt: Time, now: Time, tape: Tape, pos: nat)
    requires before.app.mode == Tutorial && before.app.step == 4 && before.app.portalID == Some(id)
    requires TargetPortal(before) == Some(Step4Portal(id, planeID, slot, openedAt, flow, updatedAt))
    requires InvAt(before.sim, now, DEFAULT_CONFIG) && openedAt <= now < openedAt + 25 * SECOND
    requires Apply(before.sim, Command.Stabilize(id), now, tape, pos, DEFAULT_CONFIG).error.None?
    ensures var snap := Commanded(before, Command.Stabilize(id), now, tape, pos, DEFAULT_CONFIG);
            var r := AfterCommand(snap, before, Command.Stabilize(id), None, now, DEFAULT_CONFIG);
            && (r.Ok? <==> 2 * (now - openedAt) <= 35 * SECOND
                           && FreeSlot(snap.sim.portals, 7).Some? && FirstTutorialPlane(snap.sim.planes) != 0)
            && (r.Ok? ==> r.value.app.step == 5)
            && (2 * (now - openedAt) > 35 * SECOND ==> r == Err(SimulationInvariant))
  {
    var snap := Commanded(before, Command.Stabilize(id), now, tape, pos, DEFAULT_CONFIG);
    Step4NeedsPromptness(id, planeID, slot, openedAt, flow, updatedAt, now);
    StabilizedTarget(before, id, now, tape, pos, DEFAULT_CONFIG);
    CommandKeepsInvariant(before.sim, Command.Stabilize(id), now, tape, pos, DEFAULT_CONFIG);
    Step4Finishes(snap, before, id, now, DEFAULT_CONFIG);
  }
}

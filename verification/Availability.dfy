/** Whether a portal action is available is asked by trying it on a copy. The answer agrees with what the
    command will do, for every outcome of its draws. */
module Availability {
  import opened Base
  import opened Randomness
  import opened Portals
  import opened Labs
  import opened Observers
  import opened States
  import opened Commands
  import opened Ticks
  import opened Invariants
  import opened CommandInvariants
  import opened Guarantees
  import opened Simulations

  datatype PortalAction = StabilizeAction | CloseAction | SendAction | RecallAction

  function CommandFor(action: PortalAction, id: int, confirm: bool): Command {
    match action
    case StabilizeAction => Stabilize(id)
    case CloseAction => ClosePortal(id, confirm)
    case SendAction => SendObserver(id, confirm)
    case RecallAction => RecallObserver(id, confirm)
  }

  datatype Verdict = Allowed | Refused(cause: Error)

  /** Errors that say the aggregate is inconsistent rather than that the action is not allowed now. */
  predicate IsInternal(e: Error) {
    e == ObserverInvariant || e == LabEnergyInvariant || e == ExtractionInvariant || e == SimulationInvariant || e == EventInvariant
  }

  /** The answer, given how the trial ended. */
  function Judge(trial: Option<Error>): Result<Verdict> {
    match trial
    case None => Ok(Allowed)
    case Some(e) => if IsInternal(e) || e == ConfirmationRequired then Err(e) else Ok(Refused(e))
  }

  /** The random source of a trial always returns the minimum. */
  const MINIMAL := Tape((n: nat) => 0, (n: nat) => 0.0)

  lemma MinimalDraws(pos: nat, lo: int, hi: int, x: real, y: real)
    ensures lo <= hi ==> MINIMAL.Int(pos, lo, hi) == lo
    ensures x <= y ==> MINIMAL.Real(pos, x, y) == x
  {
    assert 0.0.Floor == 0;
  }

  function Judged(s: State, id: int, action: PortalAction, now: Time, cfg: Config): Result<Verdict> {
    if !ValidStructure(s, now) || Target(s, id).Err? then Err(SimulationInvariant)
    else Judge(Apply(s, CommandFor(action, id, true), now, MINIMAL, 0, cfg).error)
  }

  /** Tries the confirmed action on a copy of the aggregate with a random source of its own. */
  method PortalActionAvailability(s: State, id: int, action: PortalAction, now: Time, cfg: Config) returns (r: Result<Verdict>)
    ensures r == Judged(s, id, action, now, cfg)
  {
    var valid := ValidateStructure(s, now);
    if !valid {
      return Err(SimulationInvariant);
    }
    var working := new Simulation(s);
    var at := working.Locate(id);
    if at.Err? {
      return Err(SimulationInvariant);
    }
    var rnd := new Random(MINIMAL);
    var error := working.Execute(CommandFor(action, id, true), now, rnd, cfg);
    r := Judge(error);
  }

  // ---------------------------------------------------------------- the draws do not matter

  /** Why a command is refused, decided before anything is drawn. */
  function Refusal(s: State, c: Command, now: Time, cfg: Config): Option<Error> {
    match c
    case Stabilize(id) => StabilizeRefusal(s, id, now, cfg)
    case ClosePortal(id, confirm) =>
      (match Target(s, id)
       case Err(e) => Some(e)
       case Ok((k, j)) => FullCloseRefusal(s, k, j, now, confirm, cfg))
    case SendObserver(id, confirm) =>
      (match Target(s, id)
       case Err(e) => Some(e)
       case Ok((k, j)) =>
         if s.lab.PrepareSpend(now, 0, cfg).Err? then Some(LabEnergyInvariant)
         else SendRefusal(s.portals[k], s.planes[j], s.observers, now, confirm, cfg))
    case RecallObserver(id, confirm) =>
      (match Target(s, id)
       case Err(e) => Some(e)
       case Ok((k, j)) =>
         if s.lab.PrepareSpend(now, 0, cfg).Err? then Some(LabEnergyInvariant)
         else RecallRefusal(s.portals[k], s.planes[j], s.observers, now, confirm, cfg))
    case OpenExtraction(planeID) =>
      (match FindPlane(s.planes, planeID)
       case None => Some(PlaneNotFound)
       case Some(j) => ExtractionRefusal(s.lab, s.portals, s.planes[j], s.observers, s.nextPortalID, now, cfg))
  }

  function StabilizeRefusal(s: State, id: int, now: Time, cfg: Config): Option<Error> {
    match FindPortal(s.portals, id)
    case None => Some(PortalNotFound)
    case Some(k) =>
      match s.lab.PrepareSpend(now, s.lab.StabilizeCost(now, cfg), cfg)
      case Err(e) => Some(e)
      case Ok(_) =>
        match s.portals[k].Stabilize(now, cfg)
        case Err(e) => Some(e)
        case Ok(_) => None
  }

  function FullCloseRefusal(s: State, k: nat, j: nat, now: Time, confirm: bool, cfg: Config): Option<Error>
    requires k < |s.portals| && j < |s.planes|
  {
    match CloseRefusal(s.lab, s.portals[k], s.planes[j], s.observers, now, confirm, cfg)
    case Some(e) => Some(e)
    case None =>
      if CloseStrands(s.portals[k].Close(now, confirm, cfg).value, s.planes[j], s.observers, now) then Some(ObserverInvariant) else None
  }

  /** Whether and why a command is refused does not depend on the random source. */
  lemma RefusalDecidesTheError(s: State, c: Command, now: Time, tape: Tape, pos: nat, cfg: Config)
    ensures Apply(s, c, now, tape, pos, cfg).error == Refusal(s, c, now, cfg)
  {
  }

  // ---------------------------------------------------------------- confirmation

  /** Without confirmation a command is refused for the same reason as with it, or for want of it. */
  lemma ConfirmationOnlyUnlocks(s: State, action: PortalAction, id: int, now: Time, cfg: Config)
    ensures var confirmed, unconfirmed := Refusal(s, CommandFor(action, id, true), now, cfg), Refusal(s, CommandFor(action, id, false), now, cfg);
            && confirmed != Some(ConfirmationRequired)
            && (unconfirmed == confirmed || unconfirmed == Some(ConfirmationRequired))
  {
  }

  // ---------------------------------------------------------------- no internal error

  lemma NoInternalTransitError(os: seq<Observer>, planes: seq<Plane>, ps: seq<Portal>, portalID: int, planeID: int, now: Time)
    requires ObserversInv(os, planes, ps, now) && ValidRoster(os, now)
    ensures ActiveTransit(os, portalID, now).Ok? && LongestWaiting(os, planeID).Ok?
  {
    forall i | 0 <= i < |os|
      ensures TransitRecorded(os[i]) && WaitingRecorded(os[i])
      ensures OnPortal(os[i], portalID) ==> FreshTransit(os[i], now)
    {
      assert ObserverInv(os[i], planes, ps, now) && RosterEntry(os[i], now);
    }
    ActiveTransitDecided(os, |os|, portalID, now);
  }

  ghost predicate NotInternal(e: Option<Error>) {
    e.Some? ==> !IsInternal(e.value)
  }

  lemma SoundTransitRefusals(p: Portal, plane: Plane, os: seq<Observer>, now: Time, cfg: Config)
    requires plane.id == p.plane && ValidRoster(os, now)
    requires ActiveTransit(os, p.id, now).Ok? && LongestWaiting(os, p.plane).Ok?
    ensures NotInternal(SendRefusal(p, plane, os, now, true, cfg)) && NotInternal(RecallRefusal(p, plane, os, now, true, cfg))
  {
  }

  lemma SoundCloseRefusal(lab: Lab, p: Portal, plane: Plane, os: seq<Observer>, now: Time, cfg: Config)
    requires lab.ValidBaseline(now, cfg) && plane.id == p.plane && ValidRoster(os, now) && ActiveTransit(os, p.id, now).Ok?
    ensures NotInternal(CloseRefusal(lab, p, plane, os, now, true, cfg))
  {
  }

  lemma SoundStabilizeRefusal(s: State, id: int, now: Time, cfg: Config)
    requires s.lab.ValidBaseline(now, cfg)
    ensures NotInternal(StabilizeRefusal(s, id, now, cfg))
  {
  }

  lemma SoundRefusals(s: State, action: PortalAction, id: int, now: Time, cfg: Config)
    requires InvAt(s, now, cfg) && ValidRoster(s.observers, now) && Target(s, id).Ok?
    ensures NotInternal(Refusal(s, CommandFor(action, id, true), now, cfg))
  {
    var (k, j) := Target(s, id).value;
    NoInternalTransitError(s.observers, s.planes, s.portals, id, s.portals[k].plane, now);
    match action
    case StabilizeAction => SoundStabilizeRefusal(s, id, now, cfg);
    case CloseAction =>
      SoundCloseRefusal(s.lab, s.portals[k], s.planes[j], s.observers, now, cfg);
      var closed := s.portals[k].Close(now, true, cfg);
      if closed.Ok? {
        CloseNeverStrands(s, k, j, closed.value, now, cfg);
      }
    case SendAction => SoundTransitRefusals(s.portals[k], s.planes[j], s.observers, now, cfg);
    case RecallAction => SoundTransitRefusals(s.portals[k], s.planes[j], s.observers, now, cfg);
  }

  lemma TargetExists(s: State, id: int, now: Time, cfg: Config)
    requires InvAt(s, now, cfg)
    ensures Target(s, id).Ok? <==> FindPortal(s.portals, id).Some?
  {
  }

  /** In every fresh state of the simulation the question has an answer for each portal there is. */
  lemma AvailabilityIsAnswered(s: State, id: int, action: PortalAction, now: Time, cfg: Config)
    requires InvAt(s, now, cfg) && Fresh(s, now)
    ensures Judged(s, id, action, now, cfg).Ok? <==> FindPortal(s.portals, id).Some?
  {
    InvIsValid(s, now, now, cfg);
    FreshMeansSoundRoster(s, now, now, cfg);
    TargetExists(s, id, now, cfg);
    if Target(s, id).Ok? {
      SoundRefusals(s, action, id, now, cfg);
      ConfirmationOnlyUnlocks(s, action, id, now, cfg);
      RefusalDecidesTheError(s, CommandFor(action, id, true), now, MINIMAL, 0, cfg);
    }
  }

  /** Available means exactly that the confirmed command will succeed, whatever its draws; a cause is the
      reason it will fail. Unconfirmed, the command fails for the same reason or for want of confirmation. */
  lemma AvailabilityAgreesWithTheCommand(s: State, id: int, action: PortalAction, now: Time, tape: Tape, pos: nat, cfg: Config)
    ensures var v := Judged(s, id, action, now, cfg);
            var confirmed := Apply(s, CommandFor(action, id, true), now, tape, pos, cfg).error;
            var unconfirmed := Apply(s, CommandFor(action, id, false), now, tape, pos, cfg).error;
            && (v == Ok(Allowed) <==> ValidStructure(s, now) && Target(s, id).Ok? && confirmed.None?)
            && (v.Ok? && v.value.Refused? ==> confirmed == Some(v.value.cause))
            && (v.Err? && ValidStructure(s, now) && Target(s, id).Ok? ==> confirmed == Some(v.error) && IsInternal(v.error))
            && (unconfirmed == confirmed || unconfirmed == Some(ConfirmationRequired))
  {
    RefusalDecidesTheError(s, CommandFor(action, id, true), now, MINIMAL, 0, cfg);
    RefusalDecidesTheError(s, CommandFor(action, id, true), now, tape, pos, cfg);
    RefusalDecidesTheError(s, CommandFor(action, id, false), now, tape, pos, cfg);
    ConfirmationOnlyUnlocks(s, action, id, now, cfg);
  }

  lemma SendIgnoresConfirmation(p: Portal, plane: Plane, os: seq<Observer>, now: Time, tape: Tape, pos: nat, cfg: Config)
    ensures var r := Send(p, plane, os, now, false, tape, pos, cfg);
            r.Ok? ==> Send(p, plane, os, now, true, tape, pos, cfg) == r
  {
  }

  lemma RecallIgnoresConfirmation(p: Portal, os: seq<Observer>, now: Time, tape: Tape, pos: nat, cfg: Config)
    ensures var r := PreparedRecall(p, os, now, false, tape, pos, cfg);
            r.Ok? ==> PreparedRecall(p, os, now, true, tape, pos, cfg) == r
  {
  }

  /** Confirmation only admits: where it is not needed it changes nothing. */
  lemma ConfirmationIsOnlyAKey(s: State, id: int, action: PortalAction, now: Time, tape: Tape, pos: nat, cfg: Config)
    requires Apply(s, CommandFor(action, id, false), now, tape, pos, cfg).error.None?
    ensures Apply(s, CommandFor(action, id, true), now, tape, pos, cfg) == Apply(s, CommandFor(action, id, false), now, tape, pos, cfg)
  {
    match action
    case StabilizeAction =>
    case CloseAction =>
    case SendAction =>
      var (k, j) := Target(s, id).value;
      SendIgnoresConfirmation(s.portals[k], s.planes[j], s.observers, now, tape, pos, cfg);
    case RecallAction =>
      var (k, j) := Target(s, id).value;
      RecallIgnoresConfirmation(s.portals[k], s.observers, now, tape, pos, cfg);
  }
}

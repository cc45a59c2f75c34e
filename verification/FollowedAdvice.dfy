/** What happens when the laboratory does what it is advised to do. */
module FollowedAdvice {
  import opened Base
  import opened Randomness
  import opened Portals
  import opened Labs
  import opened Observers
  import opened States
  import opened Commands
  import opened Ticks
  import opened Invariants
  import opened CommandInvariants
  import opened Guarantees
  import opened Availability
  import opened Advice

  // ---------------------------------------------------------------- advice is given

  lemma MissionIsDecided(s: State, p: Portal, now: Time, cfg: Config)
    requires InvAt(s, now, cfg) && ValidRoster(s.observers, now)
    ensures MissionOf(s, p, now, cfg).Ok?
  {
    NoInternalTransitError(s.observers, s.planes, s.portals, p.id, p.plane, now);
    forall i | 0 <= i < |s.observers| && Researches(s.observers[i], p.plane) ensures ResearchDated(s.observers[i]) {
      assert ObserverInv(s.observers[i], s.planes, s.portals, now);
    }
  }

  /** Every portal of a fresh state gets a recommendation, except one that has ended. */
  lemma AdviceIsGiven(s: State, id: int, now: Time, cfg: Config)
    requires InvAt(s, now, cfg) && Fresh(s, now) && FindPortal(s.portals, id).Some?
    ensures Advise(s, id, now, cfg).Ok?
    ensures Advise(s, id, now, cfg).value.Some? <==> s.portals[FindPortal(s.portals, id).value].status == Open
  {
    InvIsValid(s, now, now, cfg);
    FreshMeansSoundRoster(s, now, now, cfg);
    MissionIsDecided(s, s.portals[FindPortal(s.portals, id).value], now, cfg);
  }

  // ---------------------------------------------------------------- SEND and RECALL

  lemma ClearCorridor(p: Portal, now: Time, cfg: Config)
    requires p.status == Open && p.openedAt <= now && p.creatures >= 0
    ensures ClearanceRemaining(p, now, cfg) == 0 <==> p.CreaturesInside(now, cfg) == 0
    ensures ClearanceRemaining(p, now, cfg) > 0 ==>
              now + ClearanceRemaining(p, now, cfg) == p.openedAt + p.creatures * cfg.creatureTransit
  {
    CorridorClearsAt(p, now, cfg);
  }

  lemma MissionAdvice(s: State, p: Portal, m: Mission, now: Time, cfg: Config)
    ensures AdviceFor(s, p, m, now, cfg) == DoSend ==> m == Dispatch
    ensures AdviceFor(s, p, m, now, cfg) == DoRecall ==> m == Return
    ensures AdviceFor(s, p, m, now, cfg) == DoSend || AdviceFor(s, p, m, now, cfg) == DoRecall ==>
              ClearanceRemaining(p, now, cfg) == 0 && SafeFor(p, cfg.observerTransitMax, now, cfg)
    ensures AdviceFor(s, p, m, now, cfg) == DoClose ==> !m.Traversed? && !m.Synchronizing? && CloseAffordable(s.lab, now, cfg)
    ensures AdviceFor(s, p, m, now, cfg) == WaitForCorridor ==>
              var clearance := ClearanceRemaining(p, now, cfg);
              clearance > 0 && SafeFor(p, clearance + cfg.observerTransitMax, now, cfg)
  {
  }

  /** The portal an advice is about, with everything the advice rests on. */
  lemma AdvisedPortal(s: State, id: int, now: Time, cfg: Config)
    requires InvAt(s, now, cfg) && Advise(s, id, now, cfg).Ok? && Advise(s, id, now, cfg).value.Some?
    ensures FindPortal(s.portals, id).Some? && Target(s, id).Ok?
    ensures var k := FindPortal(s.portals, id).value; var p := s.portals[k];
            && Target(s, id).value.0 == k && p.id == id && p.status == Open && PortalInv(p, now, cfg)
            && MissionOf(s, p, now, cfg).Ok?
            && Advise(s, id, now, cfg).value.value == AdviceFor(s, p, MissionOf(s, p, now, cfg).value, now, cfg)
  {
    TargetExists(s, id, now, cfg);
  }

  lemma AdvisedSendIsAdmitted(s: State, p: Portal, plane: Plane, now: Time, cfg: Config)
    requires PortalInv(p, now, cfg) && p.status == Open && plane.id == p.plane && ValidRoster(s.observers, now)
    requires MissionOf(s, p, now, cfg) == Ok(Dispatch)
    requires ClearanceRemaining(p, now, cfg) == 0 && SafeFor(p, cfg.observerTransitMax, now, cfg)
    ensures SendRefusal(p, plane, s.observers, now, false, cfg).None?
  {
    ClearCorridor(p, now, cfg);
  }

  /** Advised to send, an unconfirmed dispatch succeeds for every draw. */
  lemma SendAdviceSucceeds(s: State, id: int, now: Time, tape: Tape, pos: nat, cfg: Config)
    requires InvAt(s, now, cfg) && Fresh(s, now) && Advise(s, id, now, cfg) == Ok(Some(DoSend))
    ensures Apply(s, SendObserver(id, false), now, tape, pos, cfg).error.None?
  {
    AdvisedPortal(s, id, now, cfg);
    var (k, j) := Target(s, id).value;
    assert SendRefusal(s.portals[k], s.planes[j], s.observers, now, false, cfg).None? by {
      FreshMeansSoundRoster(s, now, now, cfg);
      MissionAdvice(s, s.portals[k], MissionOf(s, s.portals[k], now, cfg).value, now, cfg);
      AdvisedSendIsAdmitted(s, s.portals[k], s.planes[j], now, cfg);
    }
    RefusalDecidesTheError(s, SendObserver(id, false), now, tape, pos, cfg);
  }

  lemma AdvisedRecallIsAdmitted(s: State, p: Portal, plane: Plane, now: Time, cfg: Config)
    requires PortalInv(p, now, cfg) && p.status == Open && plane.id == p.plane && ValidRoster(s.observers, now)
    requires MissionOf(s, p, now, cfg) == Ok(Return)
    requires ClearanceRemaining(p, now, cfg) == 0 && SafeFor(p, cfg.observerTransitMax, now, cfg)
    ensures RecallRefusal(p, plane, s.observers, now, false, cfg).None?
  {
    ClearCorridor(p, now, cfg);
  }

  /** Advised to recall, an unconfirmed recall succeeds for every draw. */
  lemma RecallAdviceSucceeds(s: State, id: int, now: Time, tape: Tape, pos: nat, cfg: Config)
    requires InvAt(s, now, cfg) && Fresh(s, now) && Advise(s, id, now, cfg) == Ok(Some(DoRecall))
    ensures Apply(s, RecallObserver(id, false), now, tape, pos, cfg).error.None?
  {
    AdvisedPortal(s, id, now, cfg);
    var (k, j) := Target(s, id).value;
    assert RecallRefusal(s.portals[k], s.planes[j], s.observers, now, false, cfg).None? by {
      FreshMeansSoundRoster(s, now, now, cfg);
      MissionAdvice(s, s.portals[k], MissionOf(s, s.portals[k], now, cfg).value, now, cfg);
      AdvisedRecallIsAdmitted(s, s.portals[k], s.planes[j], now, cfg);
    }
    RefusalDecidesTheError(s, RecallObserver(id, false), now, tape, pos, cfg);
  }

  // ---------------------------------------------------------------- CLOSE

  /** Advised to close, the confirmed close succeeds and loses nobody. */
  lemma CloseAdviceIsHarmless(s: State, id: int, now: Time, tape: Tape, pos: nat, cfg: Config)
    requires InvAt(s, now, cfg) && Fresh(s, now) && Advise(s, id, now, cfg) == Ok(Some(DoClose))
    ensures var out := Apply(s, ClosePortal(id, true), now, tape, pos, cfg);
            out.error.None? && out.state.observers == s.observers
  {
    AdvisedPortal(s, id, now, cfg);
    FreshMeansSoundRoster(s, now, now, cfg);
    var (k, j) := Target(s, id).value;
    var p := s.portals[k];
    MissionAdvice(s, p, MissionOf(s, p, now, cfg).value, now, cfg);
    assert ActiveTransit(s.observers, id, now) == Ok(None);
  }

  // ---------------------------------------------------------------- STABILIZE

  /** Nothing a stabilization changes decides what a portal is for. */
  lemma StabilizationKeepsTheMission(s: State, k: nat, lab: Lab, q: Portal, now: Time, cfg: Config)
    requires k < |s.portals| && q.id == s.portals[k].id && q.plane == s.portals[k].plane && q.flow == s.portals[k].flow
    requires q.kind == s.portals[k].kind && q.syncedAt == s.portals[k].syncedAt
    ensures MissionOf(s.(lab := lab, portals := s.portals[k := q]), q, now, cfg) == MissionOf(s, s.portals[k], now, cfg)
  {
    var s' := s.(lab := lab, portals := s.portals[k := q]);
    SameTargets(s, s', k, q);
  }

  lemma SameTargets(s: State, s': State, k: nat, q: Portal)
    requires k < |s.portals| && q.id == s.portals[k].id && q.plane == s.portals[k].plane
    requires s'.portals == s.portals[k := q] && s'.observers == s.observers && s'.planes == s.planes
    ensures OutboundTargets(s', q.plane) == OutboundTargets(s, q.plane)
  {
    forall i | 0 <= i < |s.observers|
      ensures HeadsFor(s.observers[i], s'.portals, q.plane) == HeadsFor(s.observers[i], s.portals, q.plane)
    {
      SameHeading(s.observers[i], s.portals, s'.portals, q.plane);
    }
  }

  lemma SameHeading(o: Observer, ps: seq<Portal>, qs: seq<Portal>, planeID: int)
    requires |ps| == |qs| && forall k :: 0 <= k < |ps| ==> ps[k].id == qs[k].id && ps[k].plane == qs[k].plane
    ensures HeadsFor(o, qs, planeID) == HeadsFor(o, ps, planeID)
  {
  }

  /** The horizon a mission needs the portal to last. */
  function Horizon(p: Portal, m: Mission, now: Time, cfg: Config): Duration {
    match m
    case Traversed(left) => left
    case Research(left) => left + cfg.observerTransitMax
    case _ => ClearanceRemaining(p, now, cfg) + cfg.observerTransitMax
  }

  lemma StabilizeAdvice(s: State, p: Portal, m: Mission, now: Time, cfg: Config)
    ensures AdviceFor(s, p, m, now, cfg) == DoStabilize ==>
              !m.Synchronizing? && !m.NoMission? && StabilizationMakesSafe(s.lab, p, Horizon(p, m, now, cfg), now, cfg)
  {
  }

  /** Safe for what it is needed for, a portal is never to be stabilized or closed. */
  lemma SafePortalsAreUsed(s: State, p: Portal, m: Mission, now: Time, cfg: Config)
    requires !m.NoMission? && SafeFor(p, Horizon(p, m, now, cfg), now, cfg)
    ensures AdviceFor(s, p, m, now, cfg) != DoStabilize && AdviceFor(s, p, m, now, cfg) != DoClose
  {
  }

  /** What a stabilization that is worth its price leaves behind. */
  lemma StabilizeApplies(s: State, id: int, k: nat, horizon: Duration, now: Time, tape: Tape, pos: nat, cfg: Config)
    requires FindPortal(s.portals, id) == Some(k) && StabilizationMakesSafe(s.lab, s.portals[k], horizon, now, cfg)
    ensures var out := Apply(s, Stabilize(id), now, tape, pos, cfg);
            var q := s.portals[k].Stabilize(now, cfg).value;
            && out.error.None? && out.state == s.(lab := out.state.lab, portals := s.portals[k := q])
            && SafeFor(q, horizon, now, cfg)
  {
  }

  lemma AskedAgain(s: State, k: nat, lab: Lab, q: Portal, m: Mission, now: Time, cfg: Config)
    requires k < |s.portals| && s.portals[k].Stabilize(now, cfg) == Ok(q)
    requires var s' := s.(lab := lab, portals := s.portals[k := q]);
             ValidStructure(s', now) && FindPortal(s'.portals, q.id) == Some(k)
    requires MissionOf(s, s.portals[k], now, cfg) == Ok(m) && !m.NoMission?
    requires SafeFor(q, Horizon(s.portals[k], m, now, cfg), now, cfg)
    ensures var again := Advise(s.(lab := lab, portals := s.portals[k := q]), q.id, now, cfg);
            again.Ok? && again.value.Some? && again.value.value != DoStabilize && again.value.value != DoClose
  {
    StabilizationKeepsTheMission(s, k, lab, q, now, cfg);
    assert Horizon(q, m, now, cfg) == Horizon(s.portals[k], m, now, cfg);
    SafePortalsAreUsed(s.(lab := lab, portals := s.portals[k := q]), q, m, now, cfg);
  }

  lemma FoundUnderInvariant(s: State, k: nat, now: Time, cfg: Config)
    requires InvAt(s, now, cfg) && k < |s.portals|
    ensures FindPortal(s.portals, s.portals[k].id) == Some(k) && ValidStructure(s, now)
  {
    FoundAt(s.portals, k);
    InvIsValid(s, now, now, cfg);
  }

  /** Advised to stabilize, the command succeeds, and asked again at that very moment the table never
      answers STABILIZE or CLOSE. */
  lemma StabilizeAdviceSettles(s: State, id: int, now: Time, tape: Tape, pos: nat, cfg: Config)
    requires InvAt(s, now, cfg) && Advise(s, id, now, cfg) == Ok(Some(DoStabilize))
    ensures var out := Apply(s, Stabilize(id), now, tape, pos, cfg);
            && out.error.None?
            && var again := Advise(out.state, id, now, cfg);
               && again.Ok? && again.value.Some? && again.value.value != DoStabilize && again.value.value != DoClose
  {
    AdvisedPortal(s, id, now, cfg);
    var k := FindPortal(s.portals, id).value;
    var m := MissionOf(s, s.portals[k], now, cfg).value;
    StabilizeAdvice(s, s.portals[k], m, now, cfg);
    StabilizeApplies(s, id, k, Horizon(s.portals[k], m, now, cfg), now, tape, pos, cfg);
    var out := Apply(s, Stabilize(id), now, tape, pos, cfg);
    CommandKeepsInvariant(s, Stabilize(id), now, tape, pos, cfg);
    FoundUnderInvariant(out.state, k, now, cfg);
    AskedAgain(s, k, out.state.lab, s.portals[k].Stabilize(now, cfg).value, m, now, cfg);
  }

  // ---------------------------------------------------------------- WAIT FOR CORRIDOR

  lemma SafeUntil(p: Portal, now: Time, later: Time, horizon: Duration, cfg: Config)
    requires PortalInv(p, now, cfg) && now <= later && horizon >= 0
    requires SafeFor(p, later - now + horizon, now, cfg)
    ensures p.ResolveLifecycle(later) == p && later + horizon < p.Deadline()
    ensures p.EffectiveLifetime(later) > horizon
    ensures p.IsCritical(later, cfg) <==> 4 * p.EffectiveLifetime(later) < cfg.riskSafeHorizon
  {
    EffectiveLifetimeIsDistance(p, now);
    EffectiveLifetimeIsDistance(p, later);
    CriticalMeansUnderAQuarter(p, later, cfg);
  }

  /** When the last creature has passed. */
  function ClearAt(p: Portal, cfg: Config): Time {
    p.openedAt + p.creatures * cfg.creatureTransit
  }

  /** Clear at a later instant, the portal is then open and empty and outlives the longest transit; it is not
      CRITICAL exactly if a quarter of the safe horizon is left, and safe to travel if transits last that long. */
  ghost predicate ClearsInTime(p: Portal, now: Time, clearAt: Time, cfg: Config) {
    && now < clearAt && p.ResolveLifecycle(clearAt) == p && p.status == Open
    && p.CreaturesInside(clearAt, cfg) == 0
    && p.EffectiveLifetime(clearAt) > cfg.observerTransitMax
    && (p.IsCritical(clearAt, cfg) <==> 4 * p.EffectiveLifetime(clearAt) < cfg.riskSafeHorizon)
    && (4 * cfg.observerTransitMax >= cfg.riskSafeHorizon ==> SafeFor(p, cfg.observerTransitMax, clearAt, cfg))
  }

  lemma WaitingPays(p: Portal, now: Time, cfg: Config)
    requires PortalInv(p, now, cfg) && p.status == Open && ClearanceRemaining(p, now, cfg) > 0
    requires SafeFor(p, ClearanceRemaining(p, now, cfg) + cfg.observerTransitMax, now, cfg)
    ensures ClearsInTime(p, now, ClearAt(p, cfg), cfg)
  {
    ClearCorridor(p, now, cfg);
    SafeUntil(p, now, ClearAt(p, cfg), cfg.observerTransitMax, cfg);
    CorridorClearsAt(p, ClearAt(p, cfg), cfg);
  }

  lemma AdvisedToWait(s: State, id: int, now: Time, cfg: Config)
    requires InvAt(s, now, cfg) && Advise(s, id, now, cfg) == Ok(Some(WaitForCorridor))
    ensures FindPortal(s.portals, id).Some?
    ensures var p := s.portals[FindPortal(s.portals, id).value];
            && PortalInv(p, now, cfg) && p.status == Open && ClearanceRemaining(p, now, cfg) > 0
            && SafeFor(p, ClearanceRemaining(p, now, cfg) + cfg.observerTransitMax, now, cfg)
  {
    AdvisedPortal(s, id, now, cfg);
    var p := s.portals[FindPortal(s.portals, id).value];
    MissionAdvice(s, p, MissionOf(s, p, now, cfg).value, now, cfg);
  }

  /** Advised to wait for the corridor, the portal is still open and empty when it clears and outlives the
      longest transit from then on; it is not CRITICAL then exactly if a quarter of the safe horizon is left,
      which every configuration whose longest transit is at least that guarantees. */
  lemma WaitAdviceHolds(s: State, id: int, now: Time, cfg: Config)
    requires InvAt(s, now, cfg) && Advise(s, id, now, cfg) == Ok(Some(WaitForCorridor))
    ensures FindPortal(s.portals, id).Some?
    ensures var p := s.portals[FindPortal(s.portals, id).value]; ClearsInTime(p, now, ClearAt(p, cfg), cfg)
  {
    AdvisedToWait(s, id, now, cfg);
    WaitingPays(s.portals[FindPortal(s.portals, id).value], now, cfg);
  }
}

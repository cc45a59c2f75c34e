/** What the guided introduction shows: in a new laboratory the scenario portals get the advice their steps
    are about. So the premises of the advice theorems, but for RECALL's, are met by portals the program makes. */
module Lessons {
  import opened Base
  import opened Portals
  import opened Labs
  import opened Observers
  import opened States
  import opened Invariants
  import opened Runs
  import opened Guarantees
  import opened Advice
  import opened FollowedAdvice
  import opened Tutorials

  /** With everyone still at home, the portal of the return lesson invites a dispatch too. */
  function Lesson(profile: Profile): Recommendation {
    match profile
    case Step1 => WaitForCorridor
    case Step2 => WaitForCorridor
    case Step3 => DoSend
    case Step4 => DoStabilize
    case Step5 => DoClose
    case Step6Outbound => DoSend
    case Step6Return => DoSend
  }

  /** A new laboratory with one scenario portal. */
  function Classroom(planes: seq<Plane>, planeID: int, profile: Profile, now: Time): State {
    var s := NewLaboratory(planes, now, DEFAULT_CONFIG);
    s.(portals := [ScenarioPortal(profile, 1, planeID, 1, now)], nextPortalID := 2)
  }

  lemma ClassroomIsValid(planes: seq<Plane>, planeID: int, profile: Profile, now: Time)
    requires FreshCatalogue(planes) && FindPlane(planes, planeID).Some?
    ensures var s := Classroom(planes, planeID, profile, now);
            InvAt(s, now, DEFAULT_CONFIG) && Fresh(s, now) && FindPortal(s.portals, 1) == Some(0)
  {
    var s := NewLaboratory(planes, now, DEFAULT_CONFIG);
    var p := ScenarioPortal(profile, 1, planeID, 1, now);
    NewLaboratoryIsValid(planes, now, DEFAULT_CONFIG);
    NewTargetIsValid(s, profile, planeID, 1, now, DEFAULT_CONFIG);
    AppendedIsFound(s.portals, p);
    assert s.portals + [p] == [p];
  }

  /** A roster of observers at home wants to go, and nobody is in the way. */
  lemma EveryoneIsHome(s: State, p: Portal, now: Time, cfg: Config)
    requires |s.observers| > 0 && forall i :: 0 <= i < |s.observers| ==> s.observers[i] == NewObserver(i + 1, now)
    requires p.kind == Natural && p.flow == FlowNone && !ExploredPlane(s, p.plane)
    ensures MissionOf(s, p, now, cfg) == Ok(Dispatch)
  {
    ActiveTransitDecided(s.observers, |s.observers|, p.id, now);
    assert s.observers[0].status == Available;
  }

  /** How long each scenario portal has when it opens. */
  function LessonLifetime(profile: Profile): Duration {
    match profile
    case Step4 => 25 * SECOND
    case Step5 => 10 * SECOND
    case _ => 120 * SECOND
  }

  lemma ScenarioLifetime(profile: Profile, planeID: int, now: Time)
    requires planeID > 0
    ensures ScenarioPortal(profile, 1, planeID, 1, now).EffectiveLifetime(now) == LessonLifetime(profile)
  {
    var p := ScenarioPortal(profile, 1, planeID, 1, now);
    ScenarioPortalIsValid(profile, 1, planeID, 1, now, DEFAULT_CONFIG);
    EffectiveLifetimeIsDistance(p, now);
    if profile == Step4 {
      assert 25.0 / 1.0 == 25.0;
      assert FromSeconds(25.0) == 25 * SECOND;
    } else {
      assert 100.0 / 0.1 == 1000.0;
      assert FromSeconds(1000.0) == 1000 * SECOND;
    }
  }

  /** Stabilizing the portal of step 4 when it opens gives it forty seconds. */
  lemma Step4CanBeMadeSafe(lab: Lab, planeID: int, now: Time)
    requires planeID > 0 && lab == NewTutorialLab(now, DEFAULT_CONFIG)
    ensures StabilizationMakesSafe(lab, ScenarioPortal(Step4, 1, planeID, 1, now), DEFAULT_CONFIG.observerTransitMax, now, DEFAULT_CONFIG)
  {
    var cfg := DEFAULT_CONFIG;
    var p := ScenarioPortal(Step4, 1, planeID, 1, now);
    assert p == Step4Portal(1, planeID, 1, now, FlowNone, now);
    var q := p.(stability := Stable, instabilityAt := None, energyBase := 40.0 - Seconds(0), energyBaseAt := now, updatedAt := now);
    Step4Lifetimes(p, q, 0, cfg);
    assert p.Stabilize(now, cfg) == Ok(q);
    CriticalMeansUnderAQuarter(q, now, cfg);
    assert lab.CurrentEnergy(now, cfg) == 100;
  }

  lemma LessonForDispatch(s: State, planeID: int, profile: Profile, now: Time)
    requires planeID > 0 && s.lab == NewTutorialLab(now, DEFAULT_CONFIG)
    ensures AdviceFor(s, ScenarioPortal(profile, 1, planeID, 1, now), Dispatch, now, DEFAULT_CONFIG) == Lesson(profile)
  {
    var cfg := DEFAULT_CONFIG;
    var p := ScenarioPortal(profile, 1, planeID, 1, now);
    ScenarioLifetime(profile, planeID, now);
    ClearCorridor(p, now, cfg);
    if profile == Step4 {
      Step4CanBeMadeSafe(s.lab, planeID, now);
    } else {
      CriticalMeansUnderAQuarter(p, now, cfg);
    }
    if profile == Step5 {
      assert s.lab.CurrentEnergy(now, cfg) == 100;
    }
  }

  /** The portal of each step gets the advice of the step. */
  lemma ScenariosTeachTheTable(planes: seq<Plane>, planeID: int, profile: Profile, now: Time)
    requires FreshCatalogue(planes) && FindPlane(planes, planeID).Some?
    ensures var s := Classroom(planes, planeID, profile, now);
            InvAt(s, now, DEFAULT_CONFIG) && Fresh(s, now) && Advise(s, 1, now, DEFAULT_CONFIG) == Ok(Some(Lesson(profile)))
  {
    var s := Classroom(planes, planeID, profile, now);
    ClassroomIsValid(planes, planeID, profile, now);
    AdviceIsGiven(s, 1, now, DEFAULT_CONFIG);
    EveryoneIsHome(s, s.portals[0], now, DEFAULT_CONFIG);
    LessonForDispatch(s, planeID, profile, now);
  }
}

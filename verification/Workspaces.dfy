/** The working copy of a snapshot: the simulation object and the tutorial's own state, both updated in
    place while a call is being computed. */
module Workspaces {
  import opened Base
  import opened Portals
  import opened Observers
  import opened States
  import opened Commands
  import opened Simulations
  import opened Tutorials

  class Workspace {
    const sim: Simulation
    var app: App

    function Value(): Snapshot
      reads this, sim
    {
      Snapshot(sim.Value(), app)
    }

    constructor (s: Snapshot)
      ensures Value() == s && fresh(sim)
    {
      sim := new Simulation(s.sim);
      app := s.app;
    }

    // -------------------------------------------------------------- lookups

    method Target() returns (r: Option<Portal>)
      ensures r == TargetPortal(Value())
    {
      if app.portalID.None? {
        return None;
      }
      var k := sim.PortalIndex(app.portalID.value);
      r := if k.None? then None else Some(sim.portals[k.value]);
    }

    method TrackedObserver() returns (r: Option<Observer>)
      ensures r == Tracked(Value())
    {
      if app.observerID.None? {
        return None;
      }
      var os := sim.observers;
      assert os[0..] == os;
      for i := 0 to |os|
        invariant FirstObserver(os[i..], app.observerID.value) == FirstObserver(os, app.observerID.value)
      {
        assert os[i..][0] == os[i] && os[i..][1..] == os[i + 1..];
        if os[i].id == app.observerID.value {
          return Some(os[i]);
        }
      }
      r := None;
    }

    method FindThrough(status: ObserverStatus, portalID: int) returns (r: Option<Observer>)
      ensures r == Through(sim.observers, status, portalID)
    {
      var os := sim.observers;
      assert os[0..] == os;
      for i := 0 to |os|
        invariant Through(os[i..], status, portalID) == Through(os, status, portalID)
      {
        assert os[i..][0] == os[i] && os[i..][1..] == os[i + 1..];
        if os[i].status == status && os[i].portal == Some(portalID) {
          return Some(os[i]);
        }
      }
      r := None;
    }

    method FindTutorialPlane() returns (id: int)
      ensures id == FirstTutorialPlane(sim.planes)
    {
      var lowest: Option<nat> := None;
      for i := 0 to |sim.planes|
        invariant lowest == LowestUnexplored(sim.planes, i)
      {
        var p := sim.planes[i];
        if !p.explored && (lowest.None? || p.id < sim.planes[lowest.value].id) {
          lowest := Some(i);
        }
      }
      id := if lowest.None? then 0 else sim.planes[lowest.value].id;
    }

    // -------------------------------------------------------------- updates

    method PrepareSpawn()
      modifies sim
      ensures Value() == Prepared(old(Value()))
    {
      if app.mode == Tutorial {
        sim.spawn := PAUSED;
      }
    }

    method MakeTarget(profile: Profile, wanted: int, now: Time, cfg: Config) returns (error: Option<Error>)
      modifies this, sim
      ensures match CreateTarget(old(Value()), profile, wanted, now, cfg)
              case Err(e) => error == Some(e) && Value() == old(Value())
              case Ok(s) => error == None && Value() == s
    {
      var planeID := wanted;
      if planeID == 0 {
        planeID := FindTutorialPlane();
      }
      if planeID == 0 {
        return Some(SimulationInvariant);
      }
      var slot := FirstFreeSlot(sim.portals, cfg.maxActivePortals);
      if slot.None? {
        return Some(NoFreePortalSlot);
      }
      if sim.nextPortalID <= 0 || planeID <= 0 {
        return Some(SimulationInvariant);
      }
      var portal := ScenarioPortal(profile, sim.nextPortalID, planeID, slot.value, now);
      sim.portals := sim.portals + [portal];
      sim.nextPortalID := sim.nextPortalID + 1;
      app := app.(portalID := Some(portal.id), planeID := Some(planeID));
      error := None;
    }

    method RecreateTerminalTarget(now: Time, cfg: Config) returns (error: Option<Error>)
      modifies this, sim
      ensures match RecreateTerminal(old(Value()), now, cfg)
              case Err(e) => error == Some(e)
              case Ok(s) => error == None && Value() == s
    {
      var portal := Target();
      if portal.None? || portal.value.status == Open {
        return None;
      }
      var profile := Replacement(app);
      if profile.None? {
        return None;
      }
      error := MakeTarget(profile.value, portal.value.plane, now, cfg);
    }

    method MakeReplacement(now: Time, cfg: Config) returns (error: Option<Error>)
      modifies this, sim
      ensures match OfferReplacement(old(Value()), now, cfg)
              case Err(e) => error == Some(e)
              case Ok(s) => error == None && Value() == s
    {
      app := app.(step := 6, phase := SendReplacement);
      error := MakeTarget(Step6Outbound, IdOr(app.planeID), now, cfg);
    }

    method AdvanceInStep6(now: Time, cfg: Config) returns (error: Option<Error>)
      requires app.step == 6
      modifies this, sim
      ensures match AdvanceStep6(old(Value()), now, cfg)
              case Err(e) => error == Some(e)
              case Ok(s) => error == None && Value() == s
    {
      var o := TrackedObserver();
      if o.Some? && o.value.status == Lost {
        if app.phase == SendReplacement {
          var target := Target();
          if target.Some? && target.value.status == Open {
            return None;
          }
        }
        error := MakeReplacement(now, cfg);
        return;
      }
      if app.phase == WaitResearch && o.Some? && o.value.status == WaitingReturn {
        if o.value.plane.None? {
          return Some(SimulationInvariant);
        }
        error := MakeTarget(Step6Return, o.value.plane.value, now, cfg);
        if error.None? {
          app := app.(phase := RecallReady);
        }
        return;
      }
      error := None;
    }

    method AdvanceInStep7(now: Time, cfg: Config) returns (error: Option<Error>)
      requires app.step == 7
      modifies this, sim
      ensures match AdvanceStep7(old(Value()), now, cfg)
              case Err(e) => error == Some(e)
              case Ok(s) => error == None && Value() == s
    {
      var o := TrackedObserver();
      if o.None? {
        return Some(SimulationInvariant);
      }
      if o.value.status == Lost {
        error := MakeReplacement(now, cfg);
        return;
      }
      if o.value.status == Available {
        var j := sim.PlaneIndex(IdOr(app.planeID));
        if j.Some? && sim.planes[j.value].explored {
          app := app.(step := 8, phase := NoPhase, portalID := None);
        }
      }
      error := None;
    }

    /** Keeps the target open and moves on when the visitor only had to wait. */
    method AdvanceAfterTick(now: Time, cfg: Config) returns (error: Option<Error>)
      modifies this, sim
      ensures match AfterTick(old(Value()), now, cfg)
              case Err(e) => error == Some(e)
              case Ok(s) => error == None && Value() == s
    {
      if app.mode != Tutorial {
        return None;
      }
      PrepareSpawn();
      if app.step == 0 {
        return None;
      }
      error := RecreateTerminalTarget(now, cfg);
      if error.Some? {
        return;
      }
      if app.step == 2 {
        var target := Target();
        if target.None? {
          return Some(SimulationInvariant);
        }
        if target.value.status == Open && target.value.CreaturesInside(now, cfg) == 0 {
          app := app.(step := 3);
        }
      }
      if app.step == 6 {
        error := AdvanceInStep6(now, cfg);
      } else if app.step == 7 {
        error := AdvanceInStep7(now, cfg);
      }
    }

    method CompleteStep3(portalID: int, now: Time, cfg: Config) returns (error: Option<Error>)
      modifies this, sim
      ensures match FinishStep3(old(Value()), portalID, now, cfg)
              case Err(e) => error == Some(e)
              case Ok(s) => error == None && Value() == s
    {
      var o := FindThrough(Outbound, portalID);
      var target := Target();
      if o.None? || target.None? {
        return Some(SimulationInvariant);
      }
      app := app.(observerID := Some(o.value.id), planeID := Some(target.value.plane));
      error := MakeTarget(Step4, target.value.plane, now, cfg);
      if error.None? {
        app := app.(step := 4);
      }
    }

    method CompleteStep4(before: Snapshot, now: Time, cfg: Config) returns (error: Option<Error>)
      modifies this, sim
      ensures match FinishStep4(old(Value()), before, now, cfg)
              case Err(e) => error == Some(e)
              case Ok(s) => error == None && Value() == s
    {
      var earlier := TargetPortal(before);
      var target := Target();
      if earlier.None? || target.None? || !LoweredRisk(earlier.value, target.value, now, cfg) {
        return Some(SimulationInvariant);
      }
      error := MakeTarget(Step5, 0, now, cfg);
      if error.None? {
        app := app.(step := 5);
      }
    }

    method BeginStep6(now: Time, cfg: Config) returns (error: Option<Error>)
      modifies this, sim
      ensures match EnterStep6(old(Value()), now, cfg)
              case Err(e) => error == Some(e)
              case Ok(s) => error == None && Value() == s
    {
      var o := TrackedObserver();
      if o.Some? && (o.value.status == Outbound || o.value.status == Exploring) {
        app := app.(step := 6, phase := WaitResearch);
        return None;
      }
      if o.Some? && o.value.status == WaitingReturn && o.value.plane.Some? {
        app := app.(step := 6, phase := RecallReady);
        error := MakeTarget(Step6Return, o.value.plane.value, now, cfg);
        return;
      }
      error := MakeReplacement(now, cfg);
    }

    method MovePhase(c: Command, cause: Option<Error>, matched: bool) returns (error: Option<Error>)
      modifies this
      ensures match AdvancePhase(old(Value()), c, cause, matched)
              case Err(e) => error == Some(e)
              case Ok(s) => error == None && Value() == s
    {
      if cause.Some? || !matched {
        return None;
      }
      if c.SendObserver? && app.phase == SendReplacement {
        var o := FindThrough(Outbound, c.portalID);
        if o.None? {
          return Some(SimulationInvariant);
        }
        app := app.(observerID := Some(o.value.id), phase := WaitResearch);
      } else if c.RecallObserver? && app.phase == RecallReady {
        var o := FindThrough(Returning, c.portalID);
        if o.None? {
          return Some(SimulationInvariant);
        }
        app := app.(observerID := Some(o.value.id), step := 7, phase := NoPhase);
      }
      error := None;
    }

    method RecreateMisusedTarget(c: Command, cause: Option<Error>, matched: bool, now: Time, cfg: Config) returns (error: Option<Error>)
      modifies this, sim
      ensures match RecreateMisused(old(Value()), c, cause, matched, now, cfg)
              case Err(e) => error == Some(e)
              case Ok(s) => error == None && Value() == s
    {
      if cause.Some? || !matched || app.step != 6 {
        return None;
      }
      var profile: Profile;
      if app.phase == RecallReady && c.SendObserver? {
        profile := Step6Return;
      } else if app.phase == SendReplacement && c.RecallObserver? {
        profile := Step6Outbound;
      } else {
        return None;
      }
      var target := Target();
      if target.None? {
        return Some(SimulationInvariant);
      }
      error := MakeTarget(profile, target.value.plane, now, cfg);
    }

    /** Recognizes the action the current step waits for, then keeps the target open and usable. */
    method AdvanceAfterCommand(before: Snapshot, c: Command, cause: Option<Error>, now: Time, cfg: Config) returns (error: Option<Error>)
      modifies this, sim
      ensures match AfterCommand(old(Value()), before, c, cause, now, cfg)
              case Err(e) => error == Some(e)
              case Ok(s) => error == None && Value() == s
    {
      if app.mode != Tutorial {
        return None;
      }
      PrepareSpawn();
      error := StepOn(before, c, cause, now, cfg);
      if error.Some? {
        return;
      }
      error := RecreateTerminalTarget(now, cfg);
    }

    method StepOn(before: Snapshot, c: Command, cause: Option<Error>, now: Time, cfg: Config) returns (error: Option<Error>)
      modifies this, sim
      ensures match StepAfterCommand(old(Value()), before, c, cause, now, cfg)
              case Err(e) => error == Some(e)
              case Ok(s) => error == None && Value() == s
    {
      var matched := Matches(Value(), c);
      error := None;
      if app.step == 3 && cause.None? && c.SendObserver? && matched {
        error := CompleteStep3(c.portalID, now, cfg);
      } else if app.step == 4 && cause.None? && c.Stabilize? && matched {
        error := CompleteStep4(before, now, cfg);
      } else if app.step == 5 && c.SendObserver? && matched && cause == Some(PortalCriticalRisk) {
        error := BeginStep6(now, cfg);
      } else if app.step == 6 {
        error := MovePhase(c, cause, matched);
        if error.None? {
          error := RecreateMisusedTarget(c, cause, matched, now, cfg);
        }
      }
    }

    method ApplySignal(signal: Signal, portalID: Option<int>, now: Time, cfg: Config) returns (error: Option<Error>)
      modifies this, sim
      ensures match AfterSignal(old(Value()), signal, portalID, now, cfg)
              case Err(e) => error == Some(e) && Value() == old(Value())
              case Ok(s) => error == None && Value() == s
    {
      if app.mode != Tutorial {
        return Some(InvalidTutorialSignal);
      }
      if app.step == 0 && signal == IntroCompleted && portalID.None? {
        error := MakeTarget(Step1, 0, now, cfg);
        if error.None? {
          app := app.(step := 1);
        }
        return;
      }
      if app.step == 1 && signal == PortalDetailsOpened && portalID.Some? && app.portalID == portalID {
        app := app.(step := 2);
        return None;
      }
      if app.step == 8 && signal == EventLogOpened && portalID.None? {
        app := app.(step := 9);
        return None;
      }
      error := Some(InvalidTutorialSignal);
    }
  }
}

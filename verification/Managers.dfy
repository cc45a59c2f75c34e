/** The laboratory manager: the sole owner of the snapshot, the random source and the store. */
module Managers {
  import opened Base
  import opened Randomness
  import opened Portals
  import opened Observers
  import opened States
  import opened Commands
  import opened Ticks
  import opened Invariants
  import opened CommandInvariants
  import opened Runs
  import opened Events
  import opened EventOrder
  import opened EventDerivation
  import opened Journals
  import opened Guarantees
  import opened Simulations
  import opened Tutorials
  import opened Workspaces
  import opened Engines
  import opened Silence

  // ---------------------------------------------------------------- what every call keeps

  ghost predicate EngineInv(snap: Snapshot, cfg: Config) {
    && Inv(snap.sim, cfg) && PlaneKnown(snap) && TargetNamed(snap)
    && (snap.app.mode == Tutorial ==> FitsScenario(cfg))
  }

  /** Identifiers survive, so the tutorial's references do. */
  lemma ReferencesSurvive(snap: Snapshot, s': State)
    requires Evolves(snap.sim, s')
    ensures PlaneKnown(snap) ==> PlaneKnown(snap.(sim := s'))
    ensures TargetNamed(snap) ==> TargetNamed(snap.(sim := s'))
  {
  }

  lemma PreparedIsInvariant(snap: Snapshot, cfg: Config)
    requires EngineInv(snap, cfg)
    ensures EngineInv(Prepared(snap), cfg) && Clock(Prepared(snap).sim) == Clock(snap.sim)
  {
  }

  lemma TickedIsSound(snap: Snapshot, now: Time, tape: Tape, pos: nat, cfg: Config)
    requires EngineInv(snap, cfg) && Journals.ResolveTick(snap.sim, now, tape, pos, cfg).Ok?
    ensures var s := snap.(sim := Journals.ResolveTick(snap.sim, now, tape, pos, cfg).value.state);
            Sound(s, now, cfg) && TargetNamed(s) && Clock(snap.sim) <= now
  {
    if now < Clock(snap.sim) {
      StaleTicksFail(snap.sim, now, tape, pos, cfg);
      assert false;
    }
    TicksAreJournalled(snap.sim, now, tape, pos, cfg);
    TickKeepsInvariant(snap.sim, now, tape, pos, cfg);
    TickEvolves(snap.sim, now, tape, pos, cfg);
    ReferencesSurvive(snap, Tick(snap.sim, now, tape, pos, cfg).value.state);
  }

  /** After the tick every call begins with. */
  lemma ResolvedCallKeeps(snap: Snapshot, now: Time, advance: bool, tape: Tape, pos: nat, cfg: Config)
    requires EngineInv(snap, cfg)
    ensures var r := ResolvedCall(snap, now, advance, tape, pos, cfg);
            r.Ok? ==>
              && Sound(r.value.snapshot, now, cfg) && TargetNamed(r.value.snapshot) && Clock(snap.sim) <= now
              && r.value.snapshot.app.mode == snap.app.mode
              && (advance ==> TargetOpen(r.value.snapshot))
  {
    PreparedIsInvariant(snap, cfg);
    var j := Journals.ResolveTick(Prepared(snap).sim, now, tape, pos, cfg);
    if j.Ok? {
      TickedIsSound(Prepared(snap), now, tape, pos, cfg);
      var ticked := Snapshot(j.value.state, snap.app);
      assert ticked == Prepared(snap).(sim := j.value.state);
      if advance {
        ModeIsKept(ticked, now, cfg);
        if snap.app.mode == Tutorial {
          AfterTickKeeps(ticked, now, cfg);
        }
      }
    }
  }

  lemma ModeIsKept(snap: Snapshot, now: Time, cfg: Config)
    ensures AfterTick(snap, now, cfg).Ok? ==> AfterTick(snap, now, cfg).value.app.mode == snap.app.mode
  {
  }

  lemma CommandModeIsKept(snap: Snapshot, before: Snapshot, c: Command, cause: Option<Error>, now: Time, cfg: Config)
    ensures AfterCommand(snap, before, c, cause, now, cfg).Ok? ==> AfterCommand(snap, before, c, cause, now, cfg).value.app.mode == snap.app.mode
  {
    var matched := Matches(Prepared(snap), c);
    var s := StepAfterCommand(Prepared(snap), before, c, cause, now, cfg);
    if s.Ok? {
      StepModeIsKept(Prepared(snap), before, c, cause, now, cfg);
    }
  }

  lemma StepModeIsKept(snap: Snapshot, before: Snapshot, c: Command, cause: Option<Error>, now: Time, cfg: Config)
    ensures StepAfterCommand(snap, before, c, cause, now, cfg).Ok? ==>
              StepAfterCommand(snap, before, c, cause, now, cfg).value.app.mode == snap.app.mode
  {
  }

  lemma CommandedIsSound(t: Snapshot, c: Command, now: Time, tape: Tape, pos: nat, cfg: Config)
    requires Sound(t, now, cfg) && TargetNamed(t)
    ensures var s := t.(sim := Apply(t.sim, c, now, tape, pos, cfg).state); Sound(s, now, cfg) && TargetNamed(s)
  {
    CommandKeepsInvariant(t.sim, c, now, tape, pos, cfg);
    CommandEvolves(t.sim, c, now, tape, pos, cfg);
    ReferencesSurvive(t, Apply(t.sim, c, now, tape, pos, cfg).state);
  }

  /** Every committed command leaves a valid snapshot whose tutorial target is open. */
  lemma CommandCallKeeps(snap: Snapshot, c: Command, now: Time, tape: Tape, pos: nat, cfg: Config)
    requires EngineInv(snap, cfg)
    ensures var r := CommandCall(snap, c, now, tape, pos, cfg);
            r.Ok? ==> EngineInv(r.value.0.snapshot, cfg) && TargetOpen(r.value.0.snapshot) && r.value.0.snapshot.sim.lastTickAt == Some(now)
  {
    ResolvedCallKeeps(snap, now, true, tape, pos, cfg);
    var t := ResolvedCall(snap, now, true, tape, pos, cfg);
    if t.Ok? {
      var s := t.value.snapshot;
      CommandedIsSound(s, c, now, tape, t.value.pos, cfg);
      FinishedIsSound(t.value, c, Apply(s.sim, c, now, tape, t.value.pos, cfg), now, cfg);
    }
  }

  lemma FinishedIsSound(t: Computed, c: Command, out: Outcome, now: Time, cfg: Config)
    requires var s := t.snapshot.(sim := out.state); Sound(s, now, cfg) && TargetNamed(s)
    requires t.snapshot.app.mode == Tutorial ==> FitsScenario(cfg)
    ensures var r := FinishCommand(t, c, out, now, cfg);
            r.Ok? ==> EngineInv(r.value.0.snapshot, cfg) && TargetOpen(r.value.0.snapshot) && r.value.0.snapshot.sim.lastTickAt == Some(now)
  {
    var s := t.snapshot.(sim := out.state);
    CommandModeIsKept(s, t.snapshot, c, out.error, now, cfg);
    if s.app.mode == Tutorial {
      AfterCommandKeeps(s, t.snapshot, c, out.error, now, cfg);
    }
  }

  lemma SignalledIsSound(t: Snapshot, signal: Signal, portalID: Option<int>, now: Time, cfg: Config)
    requires Sound(t, now, cfg) && TargetOpen(t) && (t.app.mode == Tutorial ==> FitsScenario(cfg))
    ensures EngineInv(t, cfg)
    ensures var r := AfterSignal(t, signal, portalID, now, cfg);
            r.Ok? ==> EngineInv(r.value, cfg) && TargetOpen(r.value) && r.value.sim.lastTickAt == Some(now)
  {
    if t.app.mode == Tutorial {
      AfterSignalKeeps(t, signal, portalID, now, cfg);
    }
  }

  lemma SignalCallKeeps(snap: Snapshot, signal: Signal, portalID: Option<int>, now: Time, tape: Tape, pos: nat, cfg: Config)
    requires EngineInv(snap, cfg)
    ensures var r := SignalCall(snap, signal, portalID, now, tape, pos, cfg);
            r.Ok? ==> EngineInv(r.value.0.snapshot, cfg) && TargetOpen(r.value.0.snapshot) && r.value.0.snapshot.sim.lastTickAt == Some(now)
  {
    ResolvedCallKeeps(snap, now, true, tape, pos, cfg);
    var t := ResolvedCall(snap, now, true, tape, pos, cfg);
    if t.Ok? {
      SignalledIsSound(t.value.snapshot, signal, portalID, now, cfg);
    }
  }

  // ---------------------------------------------------------------- publishing without a commit

  /** The tutorial only appends portals, pauses the generator and moves its own state. */
  ghost predicate Extends(s: State, s': State) {
    && s'.lab == s.lab && s'.planes == s.planes && s'.observers == s.observers && s'.lastTickAt == s.lastTickAt
    && s.portals <= s'.portals
  }

  lemma AfterTickExtends(snap: Snapshot, now: Time, cfg: Config)
    ensures var r := AfterTick(snap, now, cfg); r.Ok? ==> Extends(snap.sim, r.value.sim)
  {
    var kept := RecreateTerminal(Prepared(snap), now, cfg);
    if kept.Ok? {
      RecreateExtends(Prepared(snap), now, cfg);
      var s := AdvanceStep2(kept.value, now, cfg);
      if s.Ok? {
        if s.value.app.step == 6 {
          Step6Extends(s.value, now, cfg);
        } else if s.value.app.step == 7 {
          Step7Extends(s.value, now, cfg);
        }
      }
    }
  }

  lemma RecreateExtends(snap: Snapshot, now: Time, cfg: Config)
    ensures var r := RecreateTerminal(snap, now, cfg); r.Ok? ==> Extends(snap.sim, r.value.sim)
  {
  }

  lemma Step6Extends(snap: Snapshot, now: Time, cfg: Config)
    requires snap.app.step == 6
    ensures var r := AdvanceStep6(snap, now, cfg); r.Ok? ==> Extends(snap.sim, r.value.sim)
  {
  }

  lemma Step7Extends(snap: Snapshot, now: Time, cfg: Config)
    requires snap.app.step == 7
    ensures var r := AdvanceStep7(snap, now, cfg); r.Ok? ==> Extends(snap.sim, r.value.sim)
  {
  }

  lemma SilentTick(s: State, now: Time, tape: Tape, pos: nat, cfg: Config)
    requires Inv(s, cfg) && Clock(s) <= now && Journals.ResolveTick(s, now, tape, pos, cfg).Ok?
    requires var j := Journals.ResolveTick(s, now, tape, pos, cfg).value;
             j.changed && j.events == [] && j.state.portals == s.portals
    ensures Quiet(s, now, cfg)
  {
    var j := Journals.ResolveTick(s, now, tape, pos, cfg).value;
    DerivedLog(Transition(s, j.state, Clock(s), now), cfg);
    EmptyLogIsQuiet(Transition(s, j.state, Clock(s), now), cfg);
  }

  lemma UnchangedSims(a: Snapshot, b: Snapshot)
    requires !MeaningfulChange(a, b)
    ensures a.app == b.app && a.sim.portals == b.sim.portals && a.sim.lab == b.sim.lab
  {
  }

  /** A call that changed nothing worth committing covered a quiet time. */
  lemma UncommittedCallIsQuiet(snap: Snapshot, now: Time, advance: bool, tape: Tape, pos: nat, cfg: Config)
    requires EngineInv(snap, cfg) && ResolvedCall(snap, now, advance, tape, pos, cfg).Ok?
    requires var c := ResolvedCall(snap, now, advance, tape, pos, cfg).value;
             c.changed && c.events == [] && !MeaningfulChange(snap, c.snapshot)
    ensures Quiet(snap.sim, now, cfg)
  {
    PreparedIsInvariant(snap, cfg);
    ResolvedCallKeeps(snap, now, advance, tape, pos, cfg);
    TicksAreJournalled(Prepared(snap).sim, now, tape, pos, cfg);
    NothingAppended(snap, now, advance, tape, pos, cfg);
    SilentTick(Prepared(snap).sim, now, tape, pos, cfg);
  }

  /** A call that changes nothing meaningful leaves the portals its tick found. */
  lemma NothingAppended(snap: Snapshot, now: Time, advance: bool, tape: Tape, pos: nat, cfg: Config)
    requires ResolvedCall(snap, now, advance, tape, pos, cfg).Ok?
    requires !MeaningfulChange(snap, ResolvedCall(snap, now, advance, tape, pos, cfg).value.snapshot)
    requires Journals.ResolveTick(Prepared(snap).sim, now, tape, pos, cfg).Ok?
    requires Tick(Prepared(snap).sim, now, tape, pos, cfg).Ok?
    requires Journals.ResolveTick(Prepared(snap).sim, now, tape, pos, cfg).value.state == Tick(Prepared(snap).sim, now, tape, pos, cfg).value.state
    ensures Journals.ResolveTick(Prepared(snap).sim, now, tape, pos, cfg).value.state.portals == snap.sim.portals
  {
    var c := ResolvedCall(snap, now, advance, tape, pos, cfg).value;
    var j := Journals.ResolveTick(Prepared(snap).sim, now, tape, pos, cfg).value;
    UnchangedSims(snap, c.snapshot);
    if advance {
      AfterTickExtends(Snapshot(j.state, snap.app), now, cfg);
    }
    TickEvolves(Prepared(snap).sim, now, tape, pos, cfg);
    assert j.state.portals <= c.snapshot.sim.portals && |snap.sim.portals| <= |j.state.portals|;
  }

  /** Publishing such a call keeps what is durable equivalent to what is in memory. */
  lemma UncommittedStaysDurable(stored: Snapshot, snap: Snapshot, now: Time, advance: bool, tape: Tape, pos: nat, cfg: Config)
    requires Durable(stored, snap, cfg) && EngineInv(snap, cfg) && ResolvedCall(snap, now, advance, tape, pos, cfg).Ok?
    requires var c := ResolvedCall(snap, now, advance, tape, pos, cfg).value;
             c.changed && c.events == [] && !MeaningfulChange(snap, c.snapshot)
    ensures Durable(stored, ResolvedCall(snap, now, advance, tape, pos, cfg).value.snapshot, cfg)
  {
    var c := ResolvedCall(snap, now, advance, tape, pos, cfg).value;
    UncommittedCallIsQuiet(snap, now, advance, tape, pos, cfg);
    ResolvedCallKeeps(snap, now, advance, tape, pos, cfg);
    UnchangedSims(stored, snap);
    if snap.sim.lastTickAt == stored.sim.lastTickAt {
      assert Quiet(stored.sim, now, cfg);
    } else {
      QuietTransitively(stored.sim, snap.sim, now, cfg);
    }
  }

  lemma IdleCall(snap: Snapshot, now: Time, advance: bool, tape: Tape, pos: nat, cfg: Config)
    requires ResolvedCall(snap, now, advance, tape, pos, cfg).Ok?
    ensures var c := ResolvedCall(snap, now, advance, tape, pos, cfg).value;
            !c.changed ==> c.pos == pos && c.snapshot.sim.lastTickAt == snap.sim.lastTickAt
                           && (!MeaningfulChange(snap, c.snapshot) ==> c.snapshot == snap)
  {
    var c := ResolvedCall(snap, now, advance, tape, pos, cfg).value;
    if !c.changed {
      var j := Journals.ResolveTick(Prepared(snap).sim, now, tape, pos, cfg).value;
      if advance {
        AfterTickExtends(Snapshot(j.state, snap.app), now, cfg);
      }
      if !MeaningfulChange(snap, c.snapshot) {
        assert snap.sim == snap.sim.(lastTickAt := None).(lastTickAt := snap.sim.lastTickAt);
        assert c.snapshot.sim == c.snapshot.sim.(lastTickAt := None).(lastTickAt := snap.sim.lastTickAt);
      }
    }
  }

  /** Whatever a call computes is sound, and if it is not worth a commit it may be published without one. */
  lemma CallIsPublishable(stored: Snapshot, snap: Snapshot, now: Time, advance: bool, tape: Tape, pos: nat, cfg: Config)
    requires Durable(stored, snap, cfg) && EngineInv(snap, cfg) && ResolvedCall(snap, now, advance, tape, pos, cfg).Ok?
    ensures var c := ResolvedCall(snap, now, advance, tape, pos, cfg).value;
            && EngineInv(c.snapshot, cfg)
            && (!MeaningfulChange(snap, c.snapshot) && c.events == [] ==>
                  if c.changed then Durable(stored, c.snapshot, cfg) else c.snapshot == snap)
  {
    var c := ResolvedCall(snap, now, advance, tape, pos, cfg).value;
    ResolvedCallKeeps(snap, now, advance, tape, pos, cfg);
    IdleCall(snap, now, advance, tape, pos, cfg);
    if !MeaningfulChange(snap, c.snapshot) && c.events == [] && c.changed {
      UncommittedStaysDurable(stored, snap, now, advance, tape, pos, cfg);
    }
  }

  // ---------------------------------------------------------------- what callers may rely on

  lemma RefusedFinish(t: Computed, c: Command, cause: Error, now: Time, cfg: Config)
    requires EventsFor(Transition(t.snapshot.sim, t.snapshot.sim, now, now), cfg) == Ok([])
    requires t.snapshot.app.mode == Live && Rejected(c, cause, now).Valid()
    ensures FinishCommand(t, c, Outcome(Some(cause), t.snapshot.sim, t.pos), now, cfg)
            == Ok((Computed(t.snapshot, t.pos, true, t.events + [Rejected(c, cause, now)]), Some(cause)))
  {
    assert t.events + [Rejected(c, cause, now)] + [] == t.events + [Rejected(c, cause, now)];
  }

  /** Outside the tutorial a refused command commits exactly the resolved tick and the record of the refusal,
      and draws nothing beyond the tick. */
  lemma RefusalsCommitTheTick(snap: Snapshot, c: Command, now: Time, tape: Tape, pos: nat, cfg: Config)
    requires EngineInv(snap, cfg) && snap.app.mode == Live
    requires ResolvedCall(snap, now, true, tape, pos, cfg).Ok?
    requires var t := ResolvedCall(snap, now, true, tape, pos, cfg).value;
             var out := Apply(t.snapshot.sim, c, now, tape, t.pos, cfg);
             out.error.Some? && Rejected(c, out.error.value, now).Valid()
    ensures var t := ResolvedCall(snap, now, true, tape, pos, cfg).value;
            var cause := Apply(t.snapshot.sim, c, now, tape, t.pos, cfg).error.value;
            CommandCall(snap, c, now, tape, pos, cfg)
            == Ok((Computed(t.snapshot, t.pos, true, t.events + [Rejected(c, cause, now)]), Some(cause)))
  {
    ResolvedCallKeeps(snap, now, true, tape, pos, cfg);
    var t := ResolvedCall(snap, now, true, tape, pos, cfg).value;
    var out := Apply(t.snapshot.sim, c, now, tape, t.pos, cfg);
    RefusalsLeaveNoTrace(t.snapshot.sim, c, now, tape, t.pos, cfg);
    NothingHappened(t.snapshot.sim, now, cfg);
    RefusedFinish(t, c, out.error.value, now, cfg);
  }

  /** In the tutorial the refused command itself still leaves no trace: whatever is committed beyond the tick
      is the tutorial's reaction to the refusal. */
  lemma RefusalsOnlyMoveTheTutorial(snap: Snapshot, c: Command, now: Time, tape: Tape, pos: nat, cfg: Config)
    requires EngineInv(snap, cfg) && ResolvedCall(snap, now, true, tape, pos, cfg).Ok?
    requires CommandCall(snap, c, now, tape, pos, cfg).Ok? && CommandCall(snap, c, now, tape, pos, cfg).value.1.Some?
    ensures var t := ResolvedCall(snap, now, true, tape, pos, cfg).value;
            var (done, cause) := CommandCall(snap, c, now, tape, pos, cfg).value;
            && AfterCommand(t.snapshot, t.snapshot, c, cause, now, cfg) == Ok(done.snapshot)
            && done.pos == t.pos && t.events + [Rejected(c, cause.value, now)] <= done.events
  {
    ResolvedCallKeeps(snap, now, true, tape, pos, cfg);
    var t := ResolvedCall(snap, now, true, tape, pos, cfg).value;
    RefusalsLeaveNoTrace(t.snapshot.sim, c, now, tape, t.pos, cfg);
    FinishedRefusal(t, c, Apply(t.snapshot.sim, c, now, tape, t.pos, cfg), now, cfg);
  }

  lemma FinishedRefusal(t: Computed, c: Command, out: Outcome, now: Time, cfg: Config)
    requires out.error.Some? && out.state == t.snapshot.sim && FinishCommand(t, c, out, now, cfg).Ok?
    ensures var (done, cause) := FinishCommand(t, c, out, now, cfg).value;
            && cause == out.error && AfterCommand(t.snapshot, t.snapshot, c, cause, now, cfg) == Ok(done.snapshot)
            && done.pos == out.pos && t.events + [Rejected(c, cause.value, now)] <= done.events
  {
    assert t.snapshot.(sim := out.state) == t.snapshot;
    assert Snapshot(out.state, t.snapshot.app) == t.snapshot;
  }

  /** A process restarted from the store answers the next command exactly as the lost one would have. */
  lemma RestartKeepsCommands(stored: Snapshot, snapshot: Snapshot, c: Command, now: Time, tape: Tape, pos: nat, cfg: Config)
    requires Durable(stored, snapshot, cfg)
    requires snapshot.sim.lastTickAt.Some? ==> snapshot.sim.lastTickAt.value < now
    ensures CommandCall(stored, c, now, tape, pos, cfg) == CommandCall(snapshot, c, now, tape, pos, cfg)
  {
    RestartIsUnnoticed(stored, snapshot, now, true, tape, pos, cfg);
  }

  /** With the safety margin, ticks outside the tutorial always succeed, and what they produce is accepted by
      the store. */
  lemma LiveTicksSucceed(snap: Snapshot, now: Time, advance: bool, tape: Tape, pos: nat, cfg: Config)
    requires EngineInv(snap, cfg) && snap.app.mode == Live && Clock(snap.sim) <= now && SafeSync(cfg)
    requires cfg.observerCount == DEFAULT_CONFIG.observerCount && cfg.labEnergyMax <= 100
    ensures ResolvedCall(snap, now, advance, tape, pos, cfg).Ok?
    ensures CommitAccepts(ResolvedCall(snap, now, advance, tape, pos, cfg).value.snapshot.sim)
  {
    TicksNeverFail(snap.sim, now, tape, pos, cfg);
    TicksAreJournalled(snap.sim, now, tape, pos, cfg);
    ResolvedCallKeeps(snap, now, advance, tape, pos, cfg);
    InvariantCommits(ResolvedCall(snap, now, advance, tape, pos, cfg).value.snapshot.sim, now, cfg);
  }

  // ---------------------------------------------------------------- the manager

  class LabManager {
    const cfg: Config
    const random: Random
    const repo: Repository
    var snapshot: Snapshot

    /** The snapshot is sound, and the store holds it up to ticks that recorded nothing. */
    ghost predicate Valid()
      reads this, repo
    {
      EngineInv(snapshot, cfg) && Durable(repo.stored, snapshot, cfg)
    }

    constructor (cfg: Config, random: Random, repo: Repository)
      requires EngineInv(repo.stored, cfg)
      ensures Valid() && snapshot == repo.stored
      ensures this.cfg == cfg && this.random == random && this.repo == repo
    {
      this.cfg, this.random, this.repo := cfg, random, repo;
      snapshot := repo.stored;
    }

    /** Appends the events of what the tutorial did to the working copy since `resolved`. */
    method AppendTutorialEvents(resolved: State, done: Computed, now: Time) returns (r: Result<Computed>)
      ensures r == WithTutorialEvents(resolved, done, now, cfg)
    {
      if done.snapshot.sim == resolved {
        return Ok(done);
      }
      var more := EventsForStateTransition(Transition(resolved, done.snapshot.sim, now, now), cfg);
      r := if more.Err? then Err(more.error) else Ok(done.(events := done.events + more.value));
    }

    /** The tutorial's part of a call that is not a mere read. */
    method Advance(working: Workspace, now: Time, advance: bool) returns (error: Option<Error>)
      modifies working, working.sim
      ensures match (if advance then AfterTick(old(working.Value()), now, cfg) else Ok(old(working.Value())))
              case Err(e) => error == Some(e)
              case Ok(s) => error == None && working.Value() == s
    {
      error := None;
      if advance {
        error := working.AdvanceAfterTick(now, cfg);
      }
    }

    /** Computes the tick a call begins with on a working copy; the manager itself is untouched. */
    method Compute(now: Time, advance: bool) returns (r: Result<Computed>, working: Workspace)
      modifies random
      ensures fresh(working) && fresh(working.sim)
      ensures r == ResolvedCall(snapshot, now, advance, random.tape, old(random.pos), cfg)
      ensures r.Ok? ==> random.pos == r.value.pos && working.Value() == r.value.snapshot
    {
      working := new Workspace(snapshot);
      working.PrepareSpawn();
      var tick := working.sim.ResolveTick(now, random, cfg);
      if tick.Err? {
        return Err(tick.error), working;
      }
      var resolved := working.sim.Value();
      var failed := Advance(working, now, advance);
      if failed.Some? {
        return Err(failed.value), working;
      }
      r := AppendTutorialEvents(resolved, Computed(working.Value(), random.pos, tick.value.changed, tick.value.events), now);
    }

    /** Validates the aggregate at its own last tick, which draws nothing. */
    method Recheck() returns (error: Option<Error>)
      requires snapshot.sim.lastTickAt.Some?
      modifies random
      ensures EngineInv(snapshot, cfg) ==> error == None
    {
      if EngineInv(snapshot, cfg) {
        InvIsValid(snapshot.sim, Clock(snapshot.sim), Clock(snapshot.sim), cfg);
      }
      var copy := new Simulation(snapshot.sim);
      var check := copy.ResolveTick(snapshot.sim.lastTickAt.value, random, cfg);
      error := if check.Err? then Some(check.error) else None;
    }

    /** Commits what is worth it and publishes it; on a failed commit nothing has happened. */
    method Publish(c: Computed, checkpoint: nat) returns (error: Option<Error>)
      requires Durable(repo.stored, snapshot, cfg) && random.pos == c.pos
      requires !MeaningfulChange(snapshot, c.snapshot) && c.events == [] ==>
                 if c.changed then Durable(repo.stored, c.snapshot, cfg) else c.snapshot == snapshot
      modifies this, random, repo
      ensures Durable(repo.stored, snapshot, cfg)
      ensures error.None? ==>
                && snapshot == c.snapshot && random.pos == c.pos && repo.log == old(repo.log) + c.events
                && (repo.stored == snapshot || (repo.stored == old(repo.stored) && c.events == []))
      ensures error.Some? ==>
                && error == Some(CommitFailed) && snapshot == old(snapshot) && random.pos == checkpoint
                && repo.stored == old(repo.stored) && repo.log == old(repo.log)
    {
      var worthIt := MeaningfulChange(snapshot, c.snapshot) || c.events != [];
      if worthIt {
        var ok := repo.Commit(c.snapshot, c.events);
        if !ok {
          random.UnmarshalBinary(checkpoint);
          return Some(CommitFailed);
        }
      } else if !c.changed {
        return None;
      }
      snapshot := c.snapshot;
      error := None;
    }

    /** Ticks and reads: computes, commits what is worth it, publishes. A call that fails, in the domain or at
        the commit, leaves the manager, the store and the random source as they were; a stale one is ignored. */
    method Resolve(now: Time, advance: bool) returns (error: Option<Error>)
      requires Valid()
      modifies this, random, repo
      ensures Valid()
      ensures error.Some? || Stale(old(snapshot), now) ==>
                && snapshot == old(snapshot) && random.pos == old(random.pos)
                && repo.stored == old(repo.stored) && repo.log == old(repo.log)
      ensures Stale(old(snapshot), now) ==> error == None
      ensures !Stale(old(snapshot), now) ==>
                match ResolvedCall(old(snapshot), now, advance, random.tape, old(random.pos), cfg)
                case Err(e) => error == Some(e)
                case Ok(c) =>
                  || error == Some(CommitFailed)
                  || (error == None && snapshot == c.snapshot && random.pos == c.pos && repo.log == old(repo.log) + c.events
                      && (repo.stored == snapshot || (repo.stored == old(repo.stored) && c.events == [])))
    {
      var checkpoint := random.MarshalBinary();
      if Stale(snapshot, now) {
        error := Recheck();
        random.UnmarshalBinary(checkpoint);
        return;
      }
      var computed, working := Compute(now, advance);
      if computed.Err? {
        random.UnmarshalBinary(checkpoint);
        return Some(computed.error);
      }
      CallIsPublishable(repo.stored, snapshot, now, advance, random.tape, checkpoint, cfg);
      error := Publish(computed.value, checkpoint);
    }

    /** Commits and publishes what a call computed; without a result, or without a commit, nothing has happened. */
    method CommitCall(computed: Result<(Computed, Option<Error>)>, checkpoint: nat) returns (error: Option<Error>)
      requires computed.Ok? ==> random.pos == computed.value.0.pos
      modifies this, random, repo
      ensures match computed
              case Err(e) => error == Some(e) && snapshot == old(snapshot) && random.pos == checkpoint
                             && repo.stored == old(repo.stored) && repo.log == old(repo.log)
              case Ok((c, cause)) =>
                || (error == cause && snapshot == c.snapshot == repo.stored && random.pos == c.pos && repo.log == old(repo.log) + c.events)
                || (error == Some(CommitFailed) && snapshot == old(snapshot) && random.pos == checkpoint
                    && repo.stored == old(repo.stored) && repo.log == old(repo.log))
    {
      if computed.Err? {
        random.UnmarshalBinary(checkpoint);
        return Some(computed.error);
      }
      var (c, cause) := computed.value;
      var ok := repo.Commit(c.snapshot, c.events);
      if !ok {
        random.UnmarshalBinary(checkpoint);
        return Some(CommitFailed);
      }
      snapshot := c.snapshot;
      error := cause;
    }

    /** Runs one command and commits it, refused or not, together with the tick before it. */
    method ExecuteCommand(command: Command, now: Time) returns (error: Option<Error>)
      requires Valid()
      modifies this, random, repo
      ensures Valid()
      ensures match CommandCall(old(snapshot), command, now, random.tape, old(random.pos), cfg)
              case Err(e) =>
                && error == Some(e) && snapshot == old(snapshot) && random.pos == old(random.pos)
                && repo.stored == old(repo.stored) && repo.log == old(repo.log)
              case Ok((c, cause)) =>
                || (error == cause && snapshot == c.snapshot == repo.stored && random.pos == c.pos && repo.log == old(repo.log) + c.events)
                || (error == Some(CommitFailed) && snapshot == old(snapshot) && random.pos == old(random.pos)
                    && repo.stored == old(repo.stored) && repo.log == old(repo.log))
    {
      var checkpoint := random.MarshalBinary();
      CommandCallKeeps(snapshot, command, now, random.tape, random.pos, cfg);
      var computed := ComputeCommand(command, now);
      error := CommitCall(computed, checkpoint);
    }

    method ComputeCommand(command: Command, now: Time) returns (r: Result<(Computed, Option<Error>)>)
      modifies random
      ensures r == CommandCall(snapshot, command, now, random.tape, old(random.pos), cfg)
      ensures r.Ok? ==> random.pos == r.value.0.pos
    {
      var computed, working := Compute(now, true);
      if computed.Err? {
        return Err(computed.error);
      }
      r := Carry(working, computed.value, command, now);
    }

    /** Runs the command on the resolved working copy, and then what follows it. */
    method Carry(working: Workspace, t: Computed, command: Command, now: Time) returns (r: Result<(Computed, Option<Error>)>)
      requires working.Value() == t.snapshot && random.pos == t.pos
      modifies working, working.sim, random
      ensures r == FinishCommand(t, command, Apply(t.snapshot.sim, command, now, random.tape, t.pos, cfg), now, cfg)
      ensures r.Ok? ==> random.pos == r.value.0.pos
    {
      var cause := working.sim.Execute(command, now, random, cfg);
      r := Finish(working, t, command, cause, now);
    }

    /** What follows a command: the tutorial's reaction, and the events of both. */
    method Finish(working: Workspace, t: Computed, command: Command, cause: Option<Error>, now: Time)
      returns (r: Result<(Computed, Option<Error>)>)
      requires working.app == t.snapshot.app
      modifies working, working.sim
      ensures r == FinishCommand(t, command, Outcome(cause, old(working.sim.Value()), random.pos), now, cfg)
    {
      var failed := working.AdvanceAfterCommand(t.snapshot, command, cause, now, cfg);
      if failed.Some? {
        return Err(failed.value);
      }
      var drafts := t.events;
      if cause.Some? {
        var rejected := Rejected(command, cause.value, now);
        if !rejected.Valid() {
          return Err(EventInvariant);
        }
        drafts := drafts + [rejected];
      }
      assert drafts == t.events + RecordOf(command, cause, now);
      var events := EventsForStateTransition(Transition(t.snapshot.sim, working.sim.Value(), now, now), cfg);
      if events.Err? {
        return Err(events.error);
      }
      r := Ok((Computed(working.Value(), random.pos, true, drafts + events.value), cause));
    }

    /** Handles one tutorial signal, the same way. */
    method TutorialSignal(signal: Signal, portalID: Option<int>, now: Time) returns (error: Option<Error>)
      requires Valid()
      modifies this, random, repo
      ensures Valid()
      ensures match SignalCall(old(snapshot), signal, portalID, now, random.tape, old(random.pos), cfg)
              case Err(e) =>
                && error == Some(e) && snapshot == old(snapshot) && random.pos == old(random.pos)
                && repo.stored == old(repo.stored) && repo.log == old(repo.log)
              case Ok((c, cause)) =>
                || (error == cause && snapshot == c.snapshot == repo.stored && random.pos == c.pos && repo.log == old(repo.log) + c.events)
                || (error == Some(CommitFailed) && snapshot == old(snapshot) && random.pos == old(random.pos)
                    && repo.stored == old(repo.stored) && repo.log == old(repo.log))
    {
      var checkpoint := random.MarshalBinary();
      SignalCallKeeps(snapshot, signal, portalID, now, random.tape, random.pos, cfg);
      var computed := ComputeSignal(signal, portalID, now);
      error := CommitCall(computed, checkpoint);
    }

    method ComputeSignal(signal: Signal, portalID: Option<int>, now: Time) returns (r: Result<(Computed, Option<Error>)>)
      modifies random
      ensures r == SignalCall(snapshot, signal, portalID, now, random.tape, old(random.pos), cfg)
      ensures r.Ok? ==> random.pos == r.value.0.pos
    {
      var computed, working := Compute(now, true);
      if computed.Err? {
        return Err(computed.error);
      }
      var resolved := working.Value();
      var cause := working.ApplySignal(signal, portalID, now, cfg);
      var drafts := computed.value.events;
      if cause.Some? {
        var rejected := RejectedSignal(portalID, cause.value, now);
        if !rejected.Valid() {
          return Err(EventInvariant);
        }
        return Ok((Computed(resolved, random.pos, true, drafts + [rejected]), cause));
      }
      var events := EventsForStateTransition(Transition(resolved.sim, working.sim.Value(), now, now), cfg);
      if events.Err? {
        return Err(events.error);
      }
      r := Ok((Computed(working.Value(), random.pos, true, drafts + events.value), None));
    }
  }
}

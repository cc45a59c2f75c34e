/** The transactional engine: every call computes on a working copy, commits it with its events in one
    step that may fail, and only then publishes it; otherwise nothing has happened, not even to the
    random source. */
module Engines {
  import opened Base
  import opened Randomness
  import opened Portals
  import opened Observers
  import opened States
  import opened Commands
  import opened Ticks
  import opened Invariants
  import opened Events
  import opened EventDerivation
  import opened Journals
  import opened Guarantees
  import opened Simulations
  import opened Tutorials
  import opened Workspaces

  // ---------------------------------------------------------------- what a call computes

  datatype Computed = Computed(snapshot: Snapshot, pos: nat, changed: bool, events: seq<Draft>)

  /** Appends what the tutorial did to the simulation since `resolved`. */
  function WithTutorialEvents(resolved: State, done: Computed, now: Time, cfg: Config): Result<Computed> {
    if done.snapshot.sim == resolved then Ok(done)
    else match EventsFor(Transition(resolved, done.snapshot.sim, now, now), cfg)
      case Err(e) => Err(e)
      case Ok(more) => Ok(done.(events := done.events + more))
  }

  /** The tick every call begins with; reads do not advance the tutorial. */
  function ResolvedCall(snap: Snapshot, now: Time, advance: bool, tape: Tape, pos: nat, cfg: Config): Result<Computed> {
    match Journals.ResolveTick(Prepared(snap).sim, now, tape, pos, cfg)
    case Err(e) => Err(e)
    case Ok(j) =>
      var ticked := Snapshot(j.state, snap.app);
      match (if advance then AfterTick(ticked, now, cfg) else Ok(ticked))
      case Err(e) => Err(e)
      case Ok(s) => WithTutorialEvents(j.state, Computed(s, j.pos, j.changed, j.events), now, cfg)
  }

  /** The commit of a command: the resolved tick, the record of a refusal, and what the command and the tutorial did. */
  function CommandCall(snap: Snapshot, c: Command, now: Time, tape: Tape, pos: nat, cfg: Config): Result<(Computed, Option<Error>)> {
    match ResolvedCall(snap, now, true, tape, pos, cfg)
    case Err(e) => Err(e)
    case Ok(t) => FinishCommand(t, c, Apply(t.snapshot.sim, c, now, tape, t.pos, cfg), now, cfg)
  }

  function FinishCommand(t: Computed, c: Command, out: Outcome, now: Time, cfg: Config): Result<(Computed, Option<Error>)> {
    match AfterCommand(Snapshot(out.state, t.snapshot.app), t.snapshot, c, out.error, now, cfg)
    case Err(e) => Err(e)
    case Ok(s) =>
      if out.error.Some? && !Rejected(c, out.error.value, now).Valid() then Err(EventInvariant)
      else match EventsFor(Transition(t.snapshot.sim, s.sim, now, now), cfg)
        case Err(e) => Err(e)
        case Ok(events) => Ok((Computed(s, out.pos, true, t.events + RecordOf(c, out.error, now) + events), out.error))
  }

  function RecordOf(c: Command, cause: Option<Error>, now: Time): seq<Draft> {
    if cause.Some? then [Rejected(c, cause.value, now)] else []
  }

  function RejectedSignal(portalID: Option<int>, cause: Error, now: Time): Draft {
    Draft(ActionRejected, portalID, None, None, Rejection(cause), now)
  }

  function SignalCall(snap: Snapshot, signal: Signal, portalID: Option<int>, now: Time, tape: Tape, pos: nat, cfg: Config): Result<(Computed, Option<Error>)> {
    match ResolvedCall(snap, now, true, tape, pos, cfg)
    case Err(e) => Err(e)
    case Ok(t) =>
      match AfterSignal(t.snapshot, signal, portalID, now, cfg)
      case Err(cause) =>
        if !RejectedSignal(portalID, cause, now).Valid() then Err(EventInvariant)
        else Ok((t.(changed := true, events := t.events + [RejectedSignal(portalID, cause, now)]), Some(cause)))
      case Ok(s) =>
        match EventsFor(Transition(t.snapshot.sim, s.sim, now, now), cfg)
        case Err(e) => Err(e)
        case Ok(events) => Ok((Computed(s, t.pos, true, t.events + events), None))
  }

  /** The two snapshots differ in more than the time of their last tick. */
  predicate MeaningfulChange(before: Snapshot, after: Snapshot) {
    before.(sim := before.sim.(lastTickAt := None)) != after.(sim := after.sim.(lastTickAt := None))
  }

  /** A tick captured before a newer command ran is stale. */
  predicate Stale(snap: Snapshot, now: Time) {
    snap.sim.lastTickAt.Some? && now < snap.sim.lastTickAt.value
  }

  // ---------------------------------------------------------------- silence

  /** Nothing that is logged by the mere passage of time happened between the clock of `s` and `b`. */
  ghost predicate Quiet(s: State, b: Time, cfg: Config) {
    && Clock(s) <= b
    && (forall i :: 0 <= i < |s.portals| && s.portals[i].status == Open ==>
          s.portals[i].RiskLevel(Clock(s), cfg) == s.portals[i].RiskLevel(b, cfg))
    && (s.lab.overrideUntil.Some? ==> !(Clock(s) < s.lab.overrideUntil.value <= b))
  }

  /** What is durable and what is in memory differ at most in the time of the last tick, and nothing worth
      recording happened in between. */
  ghost predicate Durable(stored: Snapshot, snapshot: Snapshot, cfg: Config) {
    && !MeaningfulChange(stored, snapshot)
    && (snapshot.sim.lastTickAt == stored.sim.lastTickAt
        || (snapshot.sim.lastTickAt.Some? && Quiet(stored.sim, snapshot.sim.lastTickAt.value, cfg)))
  }

  // ---------------------------------------------------------------- the objects

  /** The store. A commit replaces the snapshot and appends its events in one step, or fails and does neither. */
  class Repository {
    var stored: Snapshot
    var log: seq<Draft>

    constructor (s: Snapshot)
      ensures stored == s && log == []
    {
      stored, log := s, [];
    }

    method Commit(s: Snapshot, drafts: seq<Draft>) returns (ok: bool)
      modifies this
      ensures ok ==> CommitAccepts(s.sim)
      ensures stored == if ok then s else old(stored)
      ensures log == if ok then old(log) + drafts else old(log)
    {
      ok := CommitAccepts(s.sim);
      if * {
        ok := false;
      }
      if ok {
        stored, log := s, log + drafts;
      }
    }
  }
}

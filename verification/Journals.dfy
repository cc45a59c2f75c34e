/** A tick and a command together with the events they are logged with: everything one call of the
    engine computes before it commits. */
module Journals {
  import opened Base
  import opened Randomness
  import opened Sorting
  import opened Portals
  import opened Observers
  import opened States
  import opened Commands
  import opened Ticks
  import opened Invariants
  import opened CommandInvariants
  import opened Runs
  import opened Events
  import opened Traces

  /** The outcome of one call: the new aggregate, the position of the random source, and the log. */
  datatype Journal = Journal(state: State, pos: nat, changed: bool, spawnedID: Option<int>, events: seq<Draft>)

  /** A tick with its events. A tick at the instant of the last one changes nothing. */
  function ResolveTick(s: State, now: Time, tape: Tape, pos: nat, cfg: Config): Result<Journal> {
    match Tick(s, now, tape, pos, cfg)
    case Err(e) => Err(e)
    case Ok(t) =>
      if s.lastTickAt == Some(now) then Ok(Journal(s, pos, false, None, []))
      else match EventsFor(Transition(s, t.state, Clock(s), now), cfg)
        case Err(e) => Err(e)
        case Ok(events) => Ok(Journal(t.state, t.pos, true, t.spawnedID, events))
  }

  /** The event recording a refused command. */
  function Rejected(c: Command, cause: Error, now: Time): Draft {
    var portal := match c
      case Stabilize(id) => Some(id)
      case ClosePortal(id, _) => Some(id)
      case SendObserver(id, _) => Some(id)
      case RecallObserver(id, _) => Some(id)
      case OpenExtraction(_) => None;
    var plane := match c
      case OpenExtraction(id) => Some(id)
      case _ => None;
    Draft(ActionRejected, portal, None, plane, Rejection(cause), now)
  }

  /** A command applied to a resolved aggregate, with its events: those of its effect, after the record of
      its rejection if it was refused. */
  function RunCommand(s: State, c: Command, now: Time, tape: Tape, pos: nat, cfg: Config): Result<(Journal, Option<Error>)> {
    Recorded(s, c, Apply(s, c, now, tape, pos, cfg), now, cfg)
  }

  function Recorded(s: State, c: Command, out: Outcome, now: Time, cfg: Config): Result<(Journal, Option<Error>)> {
    match EventsFor(Transition(s, out.state, now, now), cfg)
    case Err(e) => Err(e)
    case Ok(events) =>
      match out.error
      case None => Ok((Journal(out.state, out.pos, true, None, events), None))
      case Some(cause) =>
        var rejected := Rejected(c, cause, now);
        if !rejected.Valid() then Err(EventInvariant)
        else Ok((Journal(out.state, out.pos, true, None, [rejected] + events), Some(cause)))
  }

  /** One call of the engine: a tick, then the command, if there is one, on the resolved aggregate. */
  function Call(s: State, a: Action, tape: Tape, pos: nat, cfg: Config): Result<(Journal, Option<Error>)> {
    match ResolveTick(s, a.now, tape, pos, cfg)
    case Err(e) => Err(e)
    case Ok(ticked) =>
      match a
      case TickAt(_) => Ok((ticked, None))
      case CommandAt(now, c) =>
        match RunCommand(ticked.state, c, now, tape, ticked.pos, cfg)
        case Err(e) => Err(e)
        case Ok((j, cause)) => Ok((j.(events := ticked.events + j.events, spawnedID := ticked.spawnedID), cause))
  }

  /** Everything a sequence of calls leaves behind; a call that fails leaves nothing. */
  datatype Archive = Archive(state: State, pos: nat, log: seq<Draft>)

  function Archived(ar: Archive, actions: seq<Action>, tape: Tape, cfg: Config): Archive {
    if |actions| == 0 then ar
    else
      var earlier := Archived(ar, actions[..|actions| - 1], tape, cfg);
      match Call(earlier.state, actions[|actions| - 1], tape, earlier.pos, cfg)
      case Err(_) => earlier
      case Ok((j, _)) => Archive(j.state, j.pos, earlier.log + j.events)
  }

  /** Logging never gets in the way: under the invariant a tick is journalled exactly when it succeeds. */
  lemma TicksAreJournalled(s: State, now: Time, tape: Tape, pos: nat, cfg: Config)
    requires Inv(s, cfg) && Clock(s) <= now
    ensures ResolveTick(s, now, tape, pos, cfg).Ok? <==> Tick(s, now, tape, pos, cfg).Ok?
    ensures ResolveTick(s, now, tape, pos, cfg).Ok? ==>
              var t := Tick(s, now, tape, pos, cfg).value;
              var j := ResolveTick(s, now, tape, pos, cfg).value;
              j.state == t.state && j.pos == t.pos && (j.changed <==> s.lastTickAt != Some(now))
  {
    TickKeepsInvariant(s, now, tape, pos, cfg);
    var t := Tick(s, now, tape, pos, cfg);
    if t.Ok? && s.lastTickAt != Some(now) {
      InvariantIsLoggable(s, Clock(s), t.value.state, Clock(s), now, cfg);
    }
  }

  lemma CommandsAreLoggable(s: State, c: Command, now: Time, tape: Tape, pos: nat, cfg: Config)
    requires InvAt(s, now, cfg)
    ensures EventsFor(Transition(s, Apply(s, c, now, tape, pos, cfg).state, now, now), cfg).Ok?
  {
    CommandKeepsInvariant(s, c, now, tape, pos, cfg);
    InvariantIsLoggable(s, now, Apply(s, c, now, tape, pos, cfg).state, now, now, cfg);
  }

  lemma {:induction false} QuietPortals(t: Transition, visit: seq<nat>, cfg: Config)
    requires t.before == t.after && t.previousAt == t.now && DistinctPortalIds(t.after.portals)
    requires InRange(visit, |t.after.portals|)
    ensures VisitPortals(t, visit, cfg) == [] && VisitCollapses(t, visit) == []
  {
    if |visit| > 0 {
      QuietPortals(t, visit[..|visit| - 1], cfg);
      FoundAt(t.after.portals, visit[|visit| - 1]);
    }
  }

  lemma {:induction false} QuietObservers(t: Transition, visit: seq<nat>, cfg: Config)
    requires t.before == t.after && DistinctObserverIds(t.after.observers)
    requires InRange(visit, |t.after.observers|)
    ensures VisitObservers(t, visit, cfg) == []
  {
    if |visit| > 0 {
      QuietObservers(t, visit[..|visit| - 1], cfg);
      ObserverFoundAt(t.after.observers, visit[|visit| - 1]);
    }
  }

  lemma {:induction false} QuietPlanes(planes: seq<Plane>, some: seq<Plane>)
    requires DistinctPlaneIds(planes) && forall j :: 0 <= j < |some| ==> some[j] in planes
    ensures VisitPlanes(planes, some) == []
  {
    if |some| > 0 {
      var init, p := some[..|some| - 1], some[|some| - 1];
      assert p in planes;
      var j :| 0 <= j < |planes| && planes[j] == p;
      PlaneFoundAt(planes, j);
      assert forall k :: 0 <= k < |init| ==> init[k] == some[k];
      QuietPlanes(planes, init);
    }
  }

  lemma QuietLog(s: State, now: Time, cfg: Config)
    requires DistinctPortalIds(s.portals) && DistinctObserverIds(s.observers) && DistinctPlaneIds(s.planes)
    ensures EventLog(Transition(s, s, now, now), cfg) == []
  {
    var t := Transition(s, s, now, now);
    QuietPortals(t, Indices(|s.portals|), cfg);
    QuietObservers(t, Indices(|s.observers|), cfg);
    QuietPlanes(s.planes, s.planes);
    assert Collected(t, Indices(|s.portals|), Indices(|s.observers|), cfg) == [];
  }

  lemma DerivedLog(t: Transition, cfg: Config)
    requires EventsFor(t, cfg).Ok?
    ensures EventsFor(t, cfg) == Ok(EventLog(t, cfg))
  {
  }

  /** Comparing a state with itself logs nothing. */
  lemma NothingHappened(s: State, now: Time, cfg: Config)
    requires InvAt(s, now, cfg)
    ensures EventsFor(Transition(s, s, now, now), cfg) == Ok([])
  {
    InvariantIsLoggable(s, now, s, now, now, cfg);
    DerivedLog(Transition(s, s, now, now), cfg);
    QuietLog(s, now, cfg);
  }

  lemma RecordedRefusal(s: State, c: Command, out: Outcome, now: Time, cfg: Config)
    requires out.error.Some? && out.state == s && EventsFor(Transition(s, s, now, now), cfg) == Ok([])
    ensures var rejected := Rejected(c, out.error.value, now);
            Recorded(s, c, out, now, cfg) ==
            if rejected.Valid() then Ok((Journal(s, out.pos, true, None, [rejected]), out.error)) else Err(EventInvariant)
  {
    var rejected := Rejected(c, out.error.value, now);
    assert [rejected] + [] == [rejected];
  }

  /** A refused command is recorded and changes nothing: same aggregate, same position of the random
      source, and no other event. */
  lemma RefusalsOnlyLeaveARecord(s: State, c: Command, now: Time, tape: Tape, pos: nat, cfg: Config)
    requires InvAt(s, now, cfg) && Apply(s, c, now, tape, pos, cfg).error.Some?
    ensures var cause := Apply(s, c, now, tape, pos, cfg).error.value;
            var rejected := Rejected(c, cause, now);
            RunCommand(s, c, now, tape, pos, cfg) ==
            if rejected.Valid() then Ok((Journal(s, pos, true, None, [rejected]), Some(cause))) else Err(EventInvariant)
  {
    RefusalsLeaveNoTrace(s, c, now, tape, pos, cfg);
    NothingHappened(s, now, cfg);
    RecordedRefusal(s, c, Apply(s, c, now, tape, pos, cfg), now, cfg);
  }
}

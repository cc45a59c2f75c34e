/** Ticks that record nothing: what an empty log says about the interval it covers, and why such ticks can
    be forgotten without anyone noticing. */
module Silence {
  import opened Base
  import opened Randomness
  import opened Sorting
  import opened Portals
  import opened Observers
  import opened States
  import opened Commands
  import opened Ticks
  import opened Invariants
  import opened Events
  import opened EventOrder
  import opened Journals
  import opened Tutorials
  import opened Engines

  // ---------------------------------------------------------------- an empty log

  lemma {:induction false} EmptyVisit(t: Transition, visit: seq<nat>, cfg: Config)
    requires InRange(visit, |t.after.portals|) && VisitPortals(t, visit, cfg) == []
    ensures forall i :: 0 <= i < |visit| ==> DraftsAt(t, visit[i], cfg) == []
  {
    if |visit| > 0 {
      var init := visit[..|visit| - 1];
      assert VisitPortals(t, visit, cfg) == VisitPortals(t, init, cfg) + DraftsAt(t, visit[|visit| - 1], cfg);
      EmptyVisit(t, init, cfg);
      assert forall i :: 0 <= i < |init| ==> init[i] == visit[i];
    }
  }

  lemma EmptyLogParts(t: Transition, cfg: Config)
    requires EventLog(t, cfg) == []
    ensures forall k :: 0 <= k < |t.after.portals| ==> DraftsAt(t, k, cfg) == []
    ensures OverrideDrafts(t.before.lab.overrideUntil, t.previousAt,
                           Sort(VisitCollapses(t, Indices(|t.after.portals|)), CollapseBefore()), t.now, cfg) == []
  {
    var v, w := Indices(|t.after.portals|), Indices(|t.after.observers|);
    assert |Collected(t, v, w, cfg)| == 0;
    EmptyVisit(t, v, cfg);
    forall k | 0 <= k < |t.after.portals| ensures DraftsAt(t, k, cfg) == [] {
      assert v[k] == k;
    }
  }

  lemma UnloggedPortal(p: Portal, previousAt: Time, now: Time, cfg: Config)
    requires p.status == Open && PortalDrafts(Some(p), p, previousAt, now, cfg) == []
    ensures p.RiskLevel(previousAt, cfg) == p.RiskLevel(now, cfg)
  {
  }

  lemma UnloggedWindow(deadline: Option<Time>, start: Time, cs: seq<Collapse>, now: Time, cfg: Config)
    requires OverrideDrafts(deadline, start, cs, now, cfg) == []
    ensures deadline.Some? ==> !(start < deadline.value <= now)
  {
  }

  /** A transition that changed neither portals nor ledger and logged nothing was a quiet time: no risk level
      and no emergency window passed a boundary. */
  lemma EmptyLogIsQuiet(t: Transition, cfg: Config)
    requires EventLog(t, cfg) == [] && DistinctPortalIds(t.before.portals) && t.after.portals == t.before.portals
    requires t.previousAt == Clock(t.before) <= t.now
    ensures Quiet(t.before, t.now, cfg)
  {
    var ps := t.before.portals;
    EmptyLogParts(t, cfg);
    UnloggedWindow(t.before.lab.overrideUntil, t.previousAt,
                   Sort(VisitCollapses(t, Indices(|t.after.portals|)), CollapseBefore()), t.now, cfg);
    forall i | 0 <= i < |ps| && ps[i].status == Open
      ensures ps[i].RiskLevel(t.previousAt, cfg) == ps[i].RiskLevel(t.now, cfg)
    {
      FoundAt(ps, i);
      assert DraftsAt(t, i, cfg) == [];
      UnloggedPortal(ps[i], t.previousAt, t.now, cfg);
    }
  }

  lemma QuietTransitively(s: State, s': State, b: Time, cfg: Config)
    requires s'.portals == s.portals && s'.lab == s.lab
    requires Quiet(s, Clock(s'), cfg) && Quiet(s', b, cfg)
    ensures Quiet(s, b, cfg)
  {
  }

  // ---------------------------------------------------------------- forgetting quiet ticks

  /** The same state as of a later last tick. */
  function Later(s: State, b: Time): State {
    s.(lastTickAt := Some(b))
  }

  lemma SpawnIgnoresLastTick(s: State, last: Option<Time>, now: Time, tape: Tape, pos: nat, cfg: Config)
    requires |s.planes| > 0
    ensures var r, r' := NaturalSpawn(s, now, tape, pos, cfg), NaturalSpawn(s.(lastTickAt := last), now, tape, pos, cfg);
            match r
            case Err(e) => r' == Err(e)
            case Ok(sp) => r' == Ok(sp.(state := sp.state.(lastTickAt := last)))
  {
  }

  lemma ValidityIgnoresLastTick(s: State, b: Time, now: Time, cfg: Config)
    requires b < now && (s.lastTickAt.Some? ==> s.lastTickAt.value <= now)
    ensures ValidState(Later(s, b), now, cfg) == ValidState(s, now, cfg)
  {
  }

  /** A tick depends on when the last one was only to recognize its own repetition. */
  lemma TickIgnoresLastTick(s: State, b: Time, now: Time, tape: Tape, pos: nat, cfg: Config)
    requires b < now && (s.lastTickAt.Some? ==> s.lastTickAt.value <= b)
    ensures Tick(Later(s, b), now, tape, pos, cfg) == Tick(s, now, tape, pos, cfg)
  {
    ValidityIgnoresLastTick(s, b, now, cfg);
    if ValidState(s, now, cfg) && !UnbookableCollapse(s.lab, s.portals, now) {
      var mid := MidTick(s, now, cfg);
      assert MidTick(Later(s, b), now, cfg) == mid.(lastTickAt := Some(b));
      var x := SynchronizeAll(mid.portals, mid.observers, ExtractionOrder(mid.portals), now, tape, pos, cfg);
      if x.Ok? {
        var synced := mid.(portals := x.value.portals, observers := x.value.observers);
        SpawnIgnoresLastTick(synced, Some(b), now, tape, x.value.pos, cfg);
      }
    }
  }

  lemma RiskIgnoresQuiet(prior: Option<Portal>, p: Portal, a: Time, b: Time, now: Time, cfg: Config)
    requires prior.Some? && prior.value.status == Open ==> prior.value.RiskLevel(a, cfg) == prior.value.RiskLevel(b, cfg)
    ensures PortalDrafts(prior, p, a, now, cfg) == PortalDrafts(prior, p, b, now, cfg)
  {
  }

  lemma {:induction false} VisitIgnoresQuiet(t: Transition, t': Transition, visit: seq<nat>, cfg: Config)
    requires t'.before.portals == t.before.portals && t'.after == t.after && t'.now == t.now
    requires forall i :: 0 <= i < |t.before.portals| && t.before.portals[i].status == Open ==>
               t.before.portals[i].RiskLevel(t.previousAt, cfg) == t.before.portals[i].RiskLevel(t'.previousAt, cfg)
    requires InRange(visit, |t.after.portals|)
    ensures VisitPortals(t, visit, cfg) == VisitPortals(t', visit, cfg) && VisitCollapses(t, visit) == VisitCollapses(t', visit)
  {
    if |visit| > 0 {
      VisitIgnoresQuiet(t, t', visit[..|visit| - 1], cfg);
      var p := t.after.portals[visit[|visit| - 1]];
      RiskIgnoresQuiet(PriorPortal(t.before.portals, p.id), p, t.previousAt, t'.previousAt, t.now, cfg);
    }
  }

  lemma {:induction false} ObserversIgnoreLastTick(t: Transition, t': Transition, visit: seq<nat>, cfg: Config)
    requires t'.before.observers == t.before.observers && t'.before.portals == t.before.portals && t'.after == t.after
    requires InRange(visit, |t.after.observers|)
    ensures VisitObservers(t, visit, cfg) == VisitObservers(t', visit, cfg)
  {
    if |visit| > 0 {
      ObserversIgnoreLastTick(t, t', visit[..|visit| - 1], cfg);
    }
  }

  lemma WindowsIgnoreQuiet(deadline: Option<Time>, a: Time, b: Time, cs: seq<Collapse>, now: Time, cfg: Config)
    requires a <= b && (deadline.Some? ==> !(a < deadline.value <= b))
    ensures OverrideDrafts(deadline, a, cs, now, cfg) == OverrideDrafts(deadline, b, cs, now, cfg)
  {
  }

  /** Judged from the start or from the end of a quiet time, the next transition has the same log. */
  lemma LogIgnoresQuiet(s: State, s': State, b: Time, now: Time, cfg: Config)
    requires Quiet(s, b, cfg)
    ensures EventLog(Transition(s, s', Clock(s), now), cfg) == EventLog(Transition(Later(s, b), s', b, now), cfg)
  {
    var t, t' := Transition(s, s', Clock(s), now), Transition(Later(s, b), s', b, now);
    var v, w := Indices(|s'.portals|), Indices(|s'.observers|);
    VisitIgnoresQuiet(t, t', v, cfg);
    ObserversIgnoreLastTick(t, t', w, cfg);
    WindowsIgnoreQuiet(s.lab.overrideUntil, Clock(s), b, Sort(VisitCollapses(t, v), CollapseBefore()), now, cfg);
  }

  lemma DerivableIgnoresLastTick(t: Transition, t': Transition)
    requires t'.before.(lastTickAt := None) == t.before.(lastTickAt := None) && t'.after == t.after && t'.now == t.now
    ensures Derivable(t) == Derivable(t')
  {
  }

  lemma EventsDependOnTheLog(t: Transition, t': Transition, cfg: Config)
    requires Derivable(t) == Derivable(t') && EventLog(t, cfg) == EventLog(t', cfg)
    requires t.previousAt <= t.now && t'.previousAt <= t'.now
    ensures EventsFor(t, cfg) == EventsFor(t', cfg)
  {
  }

  lemma EventsIgnoreQuiet(s: State, s': State, b: Time, now: Time, cfg: Config)
    requires Quiet(s, b, cfg) && b <= now
    ensures EventsFor(Transition(s, s', Clock(s), now), cfg) == EventsFor(Transition(Later(s, b), s', b, now), cfg)
  {
    LogIgnoresQuiet(s, s', b, now, cfg);
    DerivableIgnoresLastTick(Transition(s, s', Clock(s), now), Transition(Later(s, b), s', b, now));
    EventsDependOnTheLog(Transition(s, s', Clock(s), now), Transition(Later(s, b), s', b, now), cfg);
  }

  /** Losing ticks that recorded nothing changes neither the state nor the events of the next one. */
  lemma CrashChangesNothing(s: State, b: Time, now: Time, tape: Tape, pos: nat, cfg: Config)
    requires Quiet(s, b, cfg) && b < now && (s.lastTickAt.Some? ==> s.lastTickAt.value <= b)
    ensures Journals.ResolveTick(s, now, tape, pos, cfg) == Journals.ResolveTick(Later(s, b), now, tape, pos, cfg)
  {
    TickIgnoresLastTick(s, b, now, tape, pos, cfg);
    var r := Tick(s, now, tape, pos, cfg);
    if r.Ok? {
      EventsIgnoreQuiet(s, r.value.state, b, now, cfg);
    }
  }

  lemma PreparedStaysQuiet(snap: Snapshot, b: Time, cfg: Config)
    requires Quiet(snap.sim, b, cfg)
    ensures Quiet(Prepared(snap).sim, b, cfg) && Prepared(snap).sim.lastTickAt == snap.sim.lastTickAt
    ensures Prepared(snap.(sim := Later(snap.sim, b))).sim == Later(Prepared(snap).sim, b)
  {
  }

  /** Whatever the next call is, a process restarted from the store computes exactly what the one that
      crashed would have. */
  lemma RestartIsUnnoticed(stored: Snapshot, snapshot: Snapshot, now: Time, advance: bool, tape: Tape, pos: nat, cfg: Config)
    requires Durable(stored, snapshot, cfg)
    requires snapshot.sim.lastTickAt.Some? ==> snapshot.sim.lastTickAt.value < now
    ensures ResolvedCall(stored, now, advance, tape, pos, cfg) == ResolvedCall(snapshot, now, advance, tape, pos, cfg)
  {
    if snapshot.sim.lastTickAt == stored.sim.lastTickAt {
      assert stored.sim == snapshot.sim.(lastTickAt := None).(lastTickAt := stored.sim.lastTickAt);
      assert snapshot == stored;
    } else {
      var b := snapshot.sim.lastTickAt.value;
      SameButTick(stored, snapshot, b);
      PreparedStaysQuiet(stored, b, cfg);
      CrashChangesNothing(Prepared(stored).sim, b, now, tape, pos, cfg);
    }
  }

  lemma SameButTick(stored: Snapshot, snapshot: Snapshot, b: Time)
    requires !MeaningfulChange(stored, snapshot) && snapshot.sim.lastTickAt == Some(b)
    ensures snapshot == stored.(sim := Later(stored.sim, b))
  {
  }
}

/** The log is a faithful trace: what it derives by comparing two states is what actually
    happened in between, phase by phase and at the moments it happened. */
module Traces {
  import opened Base
  import opened Randomness
  import opened Sorting
  import opened Portals
  import opened Observers
  import opened States
  import opened Commands
  import opened Ticks
  import opened Invariants
  import opened CommandInvariants
  import opened Events
  import opened EventOrder

  // ---------------------------------------------------------------- a log can always be derived

  lemma EndsAreRecorded(ps: seq<Portal>, planes: seq<Plane>, next: int, t: Time, cfg: Config)
    requires PortalsInv(ps, planes, next, t, cfg)
    ensures forall i, prior :: 0 <= i < |ps| ==> EndRecorded(prior, ps[i])
  {
  }

  lemma PhasesAreRecorded(prior: Observer, o: Observer, planes: seq<Plane>, ps: seq<Portal>, t: Time, planes': seq<Plane>, ps': seq<Portal>, now: Time)
    requires ObserverInv(prior, planes, ps, t) && ObserverInv(o, planes', ps', now)
    ensures PhaseRecorded(prior, o) && o.updatedAt <= now
  {
  }

  lemma ChangesAreRecorded(tr: Transition, t: Time, cfg: Config)
    requires ObserversInv(tr.before.observers, tr.before.planes, tr.before.portals, t)
    requires ObserversInv(tr.after.observers, tr.after.planes, tr.after.portals, tr.now)
    ensures ChangesRecorded(tr)
  {
    forall i | 0 <= i < |tr.after.observers| ensures ChangeRecorded(tr, tr.after.observers[i]) {
      var k := FindObserver(tr.before.observers, tr.after.observers[i].id);
      if k.Some? {
        PhasesAreRecorded(tr.before.observers[k.value], tr.after.observers[i], tr.before.planes, tr.before.portals, t,
                          tr.after.planes, tr.after.portals, tr.now);
      }
    }
  }

  /** Between any two states satisfying the invariant, over any interval, a log can be derived. */
  lemma InvariantIsLoggable(before: State, t: Time, after: State, previousAt: Time, now: Time, cfg: Config)
    requires InvAt(before, t, cfg) && InvAt(after, now, cfg) && previousAt <= now
    ensures EventsFor(Transition(before, after, previousAt, now), cfg).Ok?
  {
    var tr := Transition(before, after, previousAt, now);
    InvariantIsIdentified(before, t, cfg);
    InvariantIsIdentified(after, now, cfg);
    EndsAreRecorded(after.portals, after.planes, after.nextPortalID, now, cfg);
    ChangesAreRecorded(tr, t, cfg);
    LogIsValid(tr, t, cfg);
    assert Loggable(tr, cfg);
  }

  lemma InvariantIsIdentified(s: State, t: Time, cfg: Config)
    requires InvAt(s, t, cfg)
    ensures PositiveDistinctPortals(s.portals) && PositiveDistinctObservers(s.observers) && PositiveDistinctPlanes(s.planes)
    ensures forall i :: 0 <= i < |s.portals| ==> s.portals[i].plane > 0
    ensures forall i :: 0 <= i < |s.observers| ==> WellReferenced(s.observers[i])
  {
  }

  predicate WellReferenced(o: Observer) {
    o.id > 0 && (o.plane.Some? ==> o.plane.value > 0) && (o.portal.Some? ==> o.portal.value > 0)
  }

  lemma ObserverDraftsValid(prior: Observer, o: Observer, before: seq<Portal>, after: seq<Portal>, cfg: Config)
    requires WellReferenced(prior) && WellReferenced(o)
    requires forall i :: 0 <= i < |before| ==> before[i].plane > 0
    requires forall i :: 0 <= i < |after| ==> after[i].plane > 0
    ensures AllDraftsValid(ObserverDrafts(prior, o, before, after, cfg))
  {
    assert AllDraftsValid(ArrivalDrafts(prior, o, before, cfg));
    var all := DepartureDrafts(prior, o, after) + ArrivalDrafts(prior, o, before, cfg) + ReturnStartDrafts(prior, o)
               + HomecomingDrafts(prior, o) + LossDrafts(prior, o, before);
    forall d: Draft | d in all ensures d.Valid() {
      assert d in DepartureDrafts(prior, o, after) || d in ArrivalDrafts(prior, o, before, cfg) || d in ReturnStartDrafts(prior, o)
             || d in HomecomingDrafts(prior, o) || d in LossDrafts(prior, o, before);
    }
  }

  lemma PortalDraftsValid(prior: Option<Portal>, p: Portal, previousAt: Time, now: Time, cfg: Config)
    requires p.id > 0 && p.plane > 0
    ensures AllDraftsValid(PortalDrafts(prior, p, previousAt, now, cfg))
  {
  }

  lemma {:induction false} OverrideDraftsValid(deadline: Option<Time>, start: Time, cs: seq<Collapse>, now: Time, cfg: Config)
    requires forall c :: c in cs ==> c.portalID > 0 && c.planeID > 0
    ensures AllDraftsValid(OverrideDrafts(deadline, start, cs, now, cfg))
    decreases |cs|
  {
    if |cs| > 0 {
      assert cs[0] in cs && forall x :: x in cs[1..] ==> x in cs;
      OverrideDraftsValid(Some(cs[0].at + cfg.emergencyDuration), cs[0].at, cs[1..], now, cfg);
    }
  }

  lemma PortalLogIsValid(tr: Transition, v: seq<nat>, cfg: Config)
    requires InRange(v, |tr.after.portals|)
    requires forall i :: 0 <= i < |tr.after.portals| ==> tr.after.portals[i].id > 0 && tr.after.portals[i].plane > 0
    ensures AllDraftsValid(VisitPortals(tr, v, cfg))
    ensures AllDraftsValid(OverrideDrafts(tr.before.lab.overrideUntil, tr.previousAt, Sort(VisitCollapses(tr, v), CollapseBefore()), tr.now, cfg))
  {
    PortalMembers(tr, v, cfg);
    forall d | d in VisitPortals(tr, v, cfg) ensures d.Valid() {
      var k :| k in v && d in DraftsAt(tr, k, cfg);
      PortalDraftsValid(PriorPortal(tr.before.portals, tr.after.portals[k].id), tr.after.portals[k], tr.previousAt, tr.now, cfg);
    }
    CollapseMembers(tr, v);
    var cs := Sort(VisitCollapses(tr, v), CollapseBefore());
    SameElements(cs, VisitCollapses(tr, v));
    forall c | c in cs ensures c.portalID > 0 && c.planeID > 0 {
      assert c in VisitCollapses(tr, v);
      var k :| k in v && c in CollapseAt(tr, k);
    }
    OverrideDraftsValid(tr.before.lab.overrideUntil, tr.previousAt, cs, tr.now, cfg);
  }

  lemma ObserverLogIsValid(tr: Transition, w: seq<nat>, cfg: Config)
    requires InRange(w, |tr.after.observers|)
    requires forall i :: 0 <= i < |tr.before.portals| ==> tr.before.portals[i].plane > 0
    requires forall i :: 0 <= i < |tr.after.portals| ==> tr.after.portals[i].plane > 0
    requires forall i :: 0 <= i < |tr.before.observers| ==> WellReferenced(tr.before.observers[i])
    requires forall i :: 0 <= i < |tr.after.observers| ==> WellReferenced(tr.after.observers[i])
    ensures AllDraftsValid(VisitObservers(tr, w, cfg))
  {
    ObserverMembers(tr, w, cfg);
    forall d | d in VisitObservers(tr, w, cfg) ensures d.Valid() {
      var k :| k in w && d in EventsAt(tr, k, cfg);
      var prior := FindObserver(tr.before.observers, tr.after.observers[k].id).value;
      ObserverDraftsValid(tr.before.observers[prior], tr.after.observers[k], tr.before.portals, tr.after.portals, cfg);
    }
  }

  lemma PlaneLogIsValid(before: seq<Plane>, after: seq<Plane>)
    requires PositiveDistinctPlanes(after)
    ensures AllDraftsValid(VisitPlanes(before, after))
  {
  }

  lemma LogIsValid(tr: Transition, t: Time, cfg: Config)
    requires InvAt(tr.before, t, cfg) && InvAt(tr.after, tr.now, cfg)
    ensures AllDraftsValid(EventLog(tr, cfg))
  {
    InvariantIsIdentified(tr.before, t, cfg);
    InvariantIsIdentified(tr.after, tr.now, cfg);
    var v, w := Indices(|tr.after.portals|), Indices(|tr.after.observers|);
    PortalLogIsValid(tr, v, cfg);
    ObserverLogIsValid(tr, w, cfg);
    PlaneLogIsValid(tr.before.planes, tr.after.planes);
    SameElements(EventLog(tr, cfg), Collected(tr, v, w, cfg));
  }

  // ---------------------------------------------------------------- planes

  /** The draft announces one of the planes found explored that was not before. */
  ghost predicate Announces(d: Draft, before: seq<Plane>, after: seq<Plane>) {
    exists j :: 0 <= j < |after| && d in PlaneDrafts(PriorPlane(before, after[j].id), after[j])
  }

  /** A plane is announced explored exactly when it flipped, at its exploration date. */
  lemma {:induction false} PlaneDraftsAreExact(before: seq<Plane>, after: seq<Plane>)
    ensures forall d :: d in VisitPlanes(before, after) <==> Announces(d, before, after)
    ensures forall d :: d in VisitPlanes(before, after) ==> d.kind == PlaneExplored && d.portal.None? && d.observer.None?
  {
    if |after| > 0 {
      var init, p := after[..|after| - 1], after[|after| - 1];
      PlaneDraftsAreExact(before, init);
      forall d | d in VisitPlanes(before, after) ensures Announces(d, before, after) {
        if d in VisitPlanes(before, init) {
          var j :| 0 <= j < |init| && d in PlaneDrafts(PriorPlane(before, init[j].id), init[j]);
          assert after[j] == init[j];
        } else {
          assert d in PlaneDrafts(PriorPlane(before, after[|after| - 1].id), after[|after| - 1]);
        }
      }
      forall d | Announces(d, before, after) ensures d in VisitPlanes(before, after) {
        var j :| 0 <= j < |after| && d in PlaneDrafts(PriorPlane(before, after[j].id), after[j]);
        if j < |init| {
          assert d in PlaneDrafts(PriorPlane(before, init[j].id), init[j]);
        }
      }
    }
  }

  // ---------------------------------------------------------------- the lifecycle automaton

  /** An observer's position between two log entries; `Landed` lies between arrival and the start of research. */
  datatype Place = At(status: ObserverStatus) | Landed

  function Follow(p: Place, k: EventType): Option<Place> {
    match (p, k)
    case (At(Available), ObserverDispatched) => Some(At(Outbound))
    case (At(Outbound), ObserverArrived) => Some(Landed)
    case (Landed, ResearchStarted) => Some(At(Exploring))
    case (At(Exploring), ResearchCompleted) => Some(At(WaitingReturn))
    case (At(WaitingReturn), ObserverReturnStarted) => Some(At(Returning))
    case (At(Returning), ObserverReturned) => Some(At(Available))
    case (At(Outbound), ObserverLost) => Some(At(Lost))
    case (At(Returning), ObserverLost) => Some(At(Lost))
    case _ => None
  }

  /** A step of the lifecycle and the moment it is effective. */
  datatype Moment = Moment(kind: EventType, at: Time)

  function MomentsOf(ds: seq<Draft>): (r: seq<Moment>)
    ensures |r| == |ds| && forall i :: 0 <= i < |ds| ==> r[i] == Moment(ds[i].kind, ds[i].at)
  {
    seq(|ds|, i requires 0 <= i < |ds| => Moment(ds[i].kind, ds[i].at))
  }

  /** Where a list of steps leads from `p`, if every one of them is allowed. */
  function Drive(p: Place, ds: seq<Moment>): Option<Place>
    decreases |ds|
  {
    if |ds| == 0 then Some(p)
    else match Follow(p, ds[0].kind)
      case None => None
      case Some(q) => Drive(q, ds[1..])
  }

  lemma {:induction false} DriveConcat(p: Place, xs: seq<Moment>, ys: seq<Moment>)
    ensures Drive(p, xs + ys) == if Drive(p, xs).None? then None else Drive(Drive(p, xs).value, ys)
    decreases |xs|
  {
    if |xs| == 0 {
      assert xs + ys == ys;
    } else {
      assert (xs + ys)[0] == xs[0] && (xs + ys)[1..] == xs[1..] + ys;
      var q := Follow(p, xs[0].kind);
      if q.Some? {
        DriveConcat(q.value, xs[1..], ys);
      }
    }
  }

  // ---------------------------------------------------------------- what a tick does to one observer

  /** Sent home by a synchronization: from waiting to returning, in the same plane. */
  predicate SentHome(o: Observer, o': Observer) {
    && o.status == WaitingReturn && o'.status == Returning
    && o'.plane == o.plane && o'.portal.Some? && o'.startedAt.Some? && o'.id == o.id
  }

  lemma {:induction false} SynchronizeAllSendsHome(ps: seq<Portal>, os: seq<Observer>, order: seq<nat>, now: Time, tape: Tape, pos: nat, cfg: Config)
    requires forall x :: x in order ==> x < |ps|
    ensures var r := SynchronizeAll(ps, os, order, now, tape, pos, cfg);
            r.Ok? ==> forall i :: 0 <= i < |os| ==> r.value.observers[i] == os[i] || SentHome(os[i], r.value.observers[i])
    decreases |order|
  {
    if |order| > 0 {
      assert order[0] in order && forall x :: x in order[1..] ==> x in order;
      var first := Synchronize(ps[order[0]], os, now, tape, pos, cfg);
      if first.Ok? {
        assert forall i :: 0 <= i < |os| ==> first.value.observers[i] == os[i] || SentHome(os[i], first.value.observers[i]);
        SynchronizeAllSendsHome(ps[order[0] := first.value.portal], first.value.observers, order[1..], now, tape, first.value.pos, cfg);
      }
    }
  }

  lemma StagesOnObserver(s: State, now: Time, tape: Tape, pos: nat, cfg: Config, i: nat)
    requires |s.planes| > 0 && i < |s.observers|
    ensures var r := RunStages(s, now, tape, pos, cfg);
            var middle := ObserverAfter(s.observers[i], PortalsAfter(s.portals, now), now, cfg);
            r.Ok? ==>
              && |r.value.state.observers| == |s.observers|
              && (r.value.state.observers[i] == middle || SentHome(middle, r.value.state.observers[i]))
  {
    var mid := MidTick(s, now, cfg);
    SynchronizeAllSendsHome(mid.portals, mid.observers, ExtractionOrder(mid.portals), now, tape, pos, cfg);
    StagesSettle(s, now, tape, pos, cfg);
  }

  /** The observer after a tick is the observer after the observer stage, possibly sent home. */
  lemma TickOnObserver(s: State, now: Time, tape: Tape, pos: nat, cfg: Config, i: nat)
    requires Tick(s, now, tape, pos, cfg).Ok? && s.lastTickAt != Some(now) && i < |s.observers|
    ensures var s' := Tick(s, now, tape, pos, cfg).value.state;
            var middle := ObserverAfter(s.observers[i], PortalsAfter(s.portals, now), now, cfg);
            && |s'.observers| == |s.observers|
            && (s'.observers[i] == middle || SentHome(middle, s'.observers[i]))
  {
    StagesOnObserver(s, now, tape, pos, cfg, i);
  }

  // ---------------------------------------------------------------- phase history

  /** One phase of the lifecycle at a time: the next state and what happened. */
  function NextPhase(o: Observer, p: Option<Portal>, now: Time, cfg: Config): (Observer, seq<Moment>) {
    match o.status
    case Outbound =>
      if o.endsAt.None? || p.None? then (o, [])
      else if TransitFails(o.endsAt.value, p.value, now)
      then (o.Vanish(p.value.closedAt.value), [Moment(ObserverLost, p.value.closedAt.value)])
      else if now < o.endsAt.value then (o, [])
      else (o.Arrive(p.value.plane, o.endsAt.value, cfg),
            [Moment(ObserverArrived, o.endsAt.value), Moment(ResearchStarted, o.endsAt.value)])
    case Exploring =>
      if o.endsAt.None? || now < o.endsAt.value then (o, [])
      else (o.FinishResearch(o.endsAt.value), [Moment(ResearchCompleted, o.endsAt.value)])
    case Returning =>
      if o.endsAt.None? || p.None? then (o, [])
      else if TransitFails(o.endsAt.value, p.value, now)
      then (o.Vanish(p.value.closedAt.value), [Moment(ObserverLost, p.value.closedAt.value)])
      else if now < o.endsAt.value then (o, [])
      else (o.ComeHome(o.endsAt.value), [Moment(ObserverReturned, o.endsAt.value)])
    case _ => (o, [])
  }

  /** Everything that happened to an observer up to `now`, found by living through its phases one by one. */
  function History(o: Observer, p: Option<Portal>, now: Time, cfg: Config): (Observer, seq<Moment>)
    decreases StatusRank(o.status)
  {
    var (next, moments) := NextPhase(o, p, now, cfg);
    if next.status == o.status then (o, [])
    else
      var (last, later) := History(next, p, now, cfg);
      (last, moments + later)
  }

  lemma {:induction false} HistoryEndsWhereAdvanceDoes(o: Observer, p: Option<Portal>, now: Time, cfg: Config)
    ensures History(o, p, now, cfg).0 == Advance(o, p, now, cfg)
    decreases StatusRank(o.status)
  {
    var next := NextPhase(o, p, now, cfg).0;
    if next.status != o.status {
      HistoryEndsWhereAdvanceDoes(next, p, now, cfg);
    }
  }

  /** The dates of an observer's current phase are there. */
  ghost predicate SoundTransit(o: Observer) {
    && (o.InTransit() || o.status == Exploring ==> o.endsAt.Some?)
    && (o.status == WaitingReturn ==> o.startedAt.Some?)
  }

  /** The steps an observer takes up to `now`, listed outright. */
  function Steps(o: Observer, p: Option<Portal>, now: Time, cfg: Config): seq<Moment> {
    if o.endsAt.None? || (o.InTransit() && p.None?) then []
    else if o.InTransit() && TransitFails(o.endsAt.value, p.value, now) then [Moment(ObserverLost, p.value.closedAt.value)]
    else if now < o.endsAt.value then []
    else match o.status
      case Outbound =>
        [Moment(ObserverArrived, o.endsAt.value), Moment(ResearchStarted, o.endsAt.value)]
        + Researched(o.endsAt.value + cfg.researchDuration, now)
      case Exploring => [Moment(ResearchCompleted, o.endsAt.value)]
      case Returning => [Moment(ObserverReturned, o.endsAt.value)]
      case _ => []
  }

  function Researched(at: Time, now: Time): seq<Moment> {
    if at <= now then [Moment(ResearchCompleted, at)] else []
  }

  lemma {:induction false} HistoryIsItsSteps(o: Observer, p: Option<Portal>, now: Time, cfg: Config)
    ensures History(o, p, now, cfg).1 == Steps(o, p, now, cfg)
    decreases StatusRank(o.status)
  {
    var (next, moments) := NextPhase(o, p, now, cfg);
    if next.status != o.status {
      HistoryIsItsSteps(next, p, now, cfg);
      assert o.status != Outbound || next.status == Lost ==> Steps(next, p, now, cfg) == [];
    }
  }

  /** The drafts of an observer that a tick advanced, listed outright. */
  lemma DraftsOfAdvance(o: Observer, p: Option<Portal>, before: seq<Portal>, after: seq<Portal>, now: Time, cfg: Config)
    requires SoundTransit(o) && (o.InTransit() ==> p.Some?)
    ensures MomentsOf(ObserverDrafts(o, Advance(o, p, now, cfg), before, after, cfg)) == Steps(o, p, now, cfg)
  {
  }

  /** The events derived by comparing an observer before and after a tick are exactly its history: the
      same steps, in the same order, at the same moments, followed by the automatic return if there was one. */
  lemma DraftsAreHistory(o: Observer, p: Option<Portal>, o': Observer, before: seq<Portal>, after: seq<Portal>, now: Time, cfg: Config)
    requires SoundTransit(o) && (o.InTransit() ==> p.Some?)
    requires o' == Advance(o, p, now, cfg) || SentHome(Advance(o, p, now, cfg), o')
    ensures MomentsOf(ObserverDrafts(o, o', before, after, cfg)) ==
            History(o, p, now, cfg).1 + (if o' == Advance(o, p, now, cfg) then [] else [Moment(ObserverReturnStarted, o'.startedAt.value)])
  {
    HistoryIsItsSteps(o, p, now, cfg);
    DraftsOfAdvance(o, p, before, after, now, cfg);
    var middle := Advance(o, p, now, cfg);
    if SentHome(middle, o') {
      assert o.status == Outbound || o.status == Exploring || o.status == WaitingReturn;
      assert DepartureDrafts(o, o', after) == [] && HomecomingDrafts(o, o') == [] && LossDrafts(o, o', before) == [];
    }
  }

  lemma DriveOne(p: Place, m: Moment)
    ensures Drive(p, [m]) == Follow(p, m.kind)
  {
  }

  lemma StepsDrive(o: Observer, p: Option<Portal>, now: Time, cfg: Config)
    ensures Drive(At(o.status), Steps(o, p, now, cfg)) == Some(At(Advance(o, p, now, cfg).status))
  {
    var steps := Steps(o, p, now, cfg);
    if |steps| == 1 {
      DriveOne(At(o.status), steps[0]);
    } else if |steps| > 1 {
      assert o.status == Outbound;
      var arrived, started, rest := steps[0], steps[1], Researched(o.endsAt.value + cfg.researchDuration, now);
      assert steps == [arrived] + ([started] + rest);
      DriveOne(At(Outbound), arrived);
      DriveConcat(At(Outbound), [arrived], [started] + rest);
      DriveOne(Landed, started);
      DriveConcat(Landed, [started], rest);
      if |rest| > 0 {
        DriveOne(At(Exploring), rest[0]);
      }
    }
  }

  /** Read one after another, a tick's events of an observer take the lifecycle automaton from its
      status before the tick to its status after it, however many phases the tick skipped. */
  lemma DraftsDriveTheAutomaton(o: Observer, p: Option<Portal>, o': Observer, before: seq<Portal>, after: seq<Portal>, now: Time, cfg: Config)
    requires SoundTransit(o) && (o.InTransit() ==> p.Some?)
    requires o' == Advance(o, p, now, cfg) || SentHome(Advance(o, p, now, cfg), o')
    ensures Drive(At(o.status), MomentsOf(ObserverDrafts(o, o', before, after, cfg))) == Some(At(o'.status))
  {
    var middle := Advance(o, p, now, cfg);
    DraftsAreHistory(o, p, o', before, after, now, cfg);
    HistoryIsItsSteps(o, p, now, cfg);
    StepsDrive(o, p, now, cfg);
    if o' != middle {
      var sentHome := Moment(ObserverReturnStarted, o'.startedAt.value);
      DriveConcat(At(o.status), Steps(o, p, now, cfg), [sentHome]);
      DriveOne(At(middle.status), sentHome);
    } else {
      assert Steps(o, p, now, cfg) + [] == Steps(o, p, now, cfg);
    }
  }

  // ---------------------------------------------------------------- whole ticks and commands

  lemma ObserverFoundAt(os: seq<Observer>, i: nat)
    requires DistinctObserverIds(os) && i < |os|
    ensures FindObserver(os, os[i].id) == Some(i)
  {
  }

  /** The log of a transition to `after` tells observer `i`'s story: its events, in emission order, are the
      phase history with its semantic dates, then the automatic return if there was one, and they lead from
      its old status to its new one. */
  ghost predicate ToldFaithfully(before: State, after: State, i: nat, now: Time, cfg: Config)
    requires i < |before.observers| && i < |after.observers|
  {
    var o, o' := before.observers[i], after.observers[i];
    var p := PortalOf(o, PortalsAfter(before.portals, now));
    var (middle, history) := History(o, p, now, cfg);
    var moments := MomentsOf(ObserverEvents(before, after, o', cfg));
    && (o' == middle || SentHome(middle, o'))
    && moments == history + (if o' == middle then [] else [Moment(ObserverReturnStarted, o'.startedAt.value)])
    && Drive(At(o.status), moments) == Some(At(o'.status))
  }

  lemma ObserverIsToldFaithfully(s: State, s': State, i: nat, t: Time, now: Time, cfg: Config)
    requires DistinctObserverIds(s.observers) && i < |s.observers| && i < |s'.observers|
    requires ObserverInv(s.observers[i], s.planes, s.portals, t) && TransitOpen(s.observers[i], s.portals)
    requires var middle := ObserverAfter(s.observers[i], PortalsAfter(s.portals, now), now, cfg);
             s'.observers[i] == middle || SentHome(middle, s'.observers[i])
    ensures ToldFaithfully(s, s', i, now, cfg)
  {
    var o := s.observers[i];
    var p := PortalOf(o, PortalsAfter(s.portals, now));
    CorridorKnown(o, s.portals, now);
    AdvanceKeepsId(o, p, now, cfg);
    ObserverFoundAt(s.observers, i);
    HistoryEndsWhereAdvanceDoes(o, p, now, cfg);
    DraftsAreHistory(o, p, s'.observers[i], s.portals, s'.portals, now, cfg);
    DraftsDriveTheAutomaton(o, p, s'.observers[i], s.portals, s'.portals, now, cfg);
  }

  /** What the log of a tick says about each observer is what happened to it, however many phases the
      tick jumped over. */
  lemma TickTraceIsFaithful(s: State, now: Time, tape: Tape, pos: nat, cfg: Config, i: nat)
    requires Inv(s, cfg) && Clock(s) <= now && s.lastTickAt != Some(now) && i < |s.observers|
    requires Tick(s, now, tape, pos, cfg).Ok?
    ensures var s' := Tick(s, now, tape, pos, cfg).value.state;
            |s'.observers| == |s.observers| && ToldFaithfully(s, s', i, now, cfg)
  {
    TickOnObserver(s, now, tape, pos, cfg, i);
    ObserverIsToldFaithfully(s, Tick(s, now, tape, pos, cfg).value.state, i, Clock(s), now, cfg);
  }

  lemma CorridorKnown(o: Observer, ps: seq<Portal>, now: Time)
    requires TransitOpen(o, ps)
    ensures o.InTransit() ==> PortalOf(o, PortalsAfter(ps, now)).Some?
  {
  }

  lemma AdvanceKeepsId(o: Observer, p: Option<Portal>, now: Time, cfg: Config)
    ensures Advance(o, p, now, cfg).id == o.id
  {
  }

  /** What a command at `now` may do to one observer. */
  predicate CommandedTo(o: Observer, o': Observer, now: Time) {
    || o' == o
    || (o'.id == o.id && o.status == Available && o'.status == Outbound && o'.startedAt == Some(now))
    || (o'.id == o.id && o.status == WaitingReturn && o'.status == Returning && o'.startedAt == Some(now))
    || (o.InTransit() && o' == o.Vanish(now))
  }

  lemma CommandedDrafts(o: Observer, o': Observer, before: seq<Portal>, after: seq<Portal>, now: Time, cfg: Config)
    requires CommandedTo(o, o', now)
    ensures var moments := MomentsOf(ObserverDrafts(o, o', before, after, cfg));
            && Drive(At(o.status), moments) == Some(At(o'.status))
            && |moments| == (if o' == o then 0 else 1)
            && forall k :: 0 <= k < |moments| ==> moments[k].at == now
  {
  }

  /** A command is logged for the one observer it moves, as one step of the lifecycle dated now, and for
      nobody else. */
  lemma CommandTraceIsFaithful(s: State, c: Command, now: Time, tape: Tape, pos: nat, cfg: Config, i: nat)
    requires InvAt(s, now, cfg) && i < |s.observers|
    ensures var s' := Apply(s, c, now, tape, pos, cfg).state;
            |s'.observers| == |s.observers|
            && var moments := MomentsOf(ObserverEvents(s, s', s'.observers[i], cfg));
               && Drive(At(s.observers[i].status), moments) == Some(At(s'.observers[i].status))
               && |moments| == (if s'.observers[i] == s.observers[i] then 0 else 1)
               && forall k :: 0 <= k < |moments| ==> moments[k].at == now
  {
    CommandOnObserver(s, c, now, tape, pos, cfg, i);
    CommandEvents(s, Apply(s, c, now, tape, pos, cfg).state, i, now, cfg);
  }

  lemma CommandEvents(s: State, s': State, i: nat, now: Time, cfg: Config)
    requires DistinctObserverIds(s.observers) && i < |s.observers| && i < |s'.observers|
    requires CommandedTo(s.observers[i], s'.observers[i], now)
    ensures var moments := MomentsOf(ObserverEvents(s, s', s'.observers[i], cfg));
            && Drive(At(s.observers[i].status), moments) == Some(At(s'.observers[i].status))
            && |moments| == (if s'.observers[i] == s.observers[i] then 0 else 1)
            && forall k :: 0 <= k < |moments| ==> moments[k].at == now
  {
    ObserverFoundAt(s.observers, i);
    CommandedDrafts(s.observers[i], s'.observers[i], s.portals, s'.portals, now, cfg);
  }

  lemma CloseOnObserver(s: State, id: int, confirm: bool, now: Time, tape: Tape, pos: nat, cfg: Config, i: nat)
    requires InvAt(s, now, cfg) && i < |s.observers|
    ensures var s' := Apply(s, ClosePortal(id, confirm), now, tape, pos, cfg).state;
            |s'.observers| == |s.observers| && CommandedTo(s.observers[i], s'.observers[i], now)
  {
  }

  lemma SendOnObserver(s: State, id: int, confirm: bool, now: Time, tape: Tape, pos: nat, cfg: Config, i: nat)
    requires i < |s.observers|
    ensures var s' := Apply(s, SendObserver(id, confirm), now, tape, pos, cfg).state;
            |s'.observers| == |s.observers| && CommandedTo(s.observers[i], s'.observers[i], now)
  {
  }

  lemma RecallOnObserver(s: State, id: int, confirm: bool, now: Time, tape: Tape, pos: nat, cfg: Config, i: nat)
    requires i < |s.observers|
    ensures var s' := Apply(s, RecallObserver(id, confirm), now, tape, pos, cfg).state;
            |s'.observers| == |s.observers| && CommandedTo(s.observers[i], s'.observers[i], now)
  {
  }

  lemma CommandOnObserver(s: State, c: Command, now: Time, tape: Tape, pos: nat, cfg: Config, i: nat)
    requires InvAt(s, now, cfg) && i < |s.observers|
    ensures var s' := Apply(s, c, now, tape, pos, cfg).state;
            |s'.observers| == |s.observers| && CommandedTo(s.observers[i], s'.observers[i], now)
  {
    match c
    case Stabilize(_) =>
    case OpenExtraction(_) =>
    case ClosePortal(id, confirm) => CloseOnObserver(s, id, confirm, now, tape, pos, cfg, i);
    case SendObserver(id, confirm) => SendOnObserver(s, id, confirm, now, tape, pos, cfg, i);
    case RecallObserver(id, confirm) => RecallOnObserver(s, id, confirm, now, tape, pos, cfg, i);
  }

  lemma PlaneFlips(planes: seq<Plane>, j: nat, p': Plane, first: Option<Time>)
    requires DistinctPlaneIds(planes) && j < |planes|
    requires p' == (match first case None => planes[j] case Some(at) => planes[j].ExploreAt(at))
    ensures PlaneDrafts(PriorPlane(planes, p'.id), p') ==
            (if !planes[j].explored && first.Some?
             then [Draft(PlaneExplored, None, None, Some(planes[j].id), NoDetail, first.value)] else [])
    ensures p'.explored <==> planes[j].explored || first.Some?
  {
  }

  lemma TickOnPlane(s: State, now: Time, tape: Tape, pos: nat, cfg: Config, j: nat)
    requires Tick(s, now, tape, pos, cfg).Ok? && s.lastTickAt != Some(now) && j < |s.planes|
    ensures var s' := Tick(s, now, tape, pos, cfg).value.state;
            |s'.planes| == |s.planes|
            && s'.planes[j] == PlaneAfter(s.planes[j], s.observers, PortalsAfter(s.portals, now), now, cfg)
  {
    StagesSettle(s, now, tape, pos, cfg);
  }

  /** A plane is announced explored by a tick exactly when the tick explored it, with the date of the
      earliest return from it. */
  lemma ExplorationsAreExact(s: State, now: Time, tape: Tape, pos: nat, cfg: Config, j: nat)
    requires Tick(s, now, tape, pos, cfg).Ok? && s.lastTickAt != Some(now)
    requires DistinctPlaneIds(s.planes) && j < |s.planes|
    ensures var s' := Tick(s, now, tape, pos, cfg).value.state;
            var first := EarliestReturn(s.observers, PortalsAfter(s.portals, now), s.planes[j].id, now, cfg);
            && |s'.planes| == |s.planes|
            && PlaneDrafts(PriorPlane(s.planes, s'.planes[j].id), s'.planes[j]) ==
               (if !s.planes[j].explored && first.Some?
                then [Draft(PlaneExplored, None, None, Some(s.planes[j].id), NoDetail, first.value)] else [])
            && (s'.planes[j].explored <==> s.planes[j].explored || first.Some?)
  {
    TickOnPlane(s, now, tape, pos, cfg, j);
    PlaneFlips(s.planes, j, Tick(s, now, tape, pos, cfg).value.state.planes[j],
               EarliestReturn(s.observers, PortalsAfter(s.portals, now), s.planes[j].id, now, cfg));
  }

  // ---------------------------------------------------------------- emission order and log order

  lemma AdvancedInOrder(o: Observer, p: Option<Portal>, before: seq<Portal>, after: seq<Portal>, now: Time, cfg: Config)
    ensures StrictlySorted(ObserverDrafts(o, Advance(o, p, now, cfg), before, after, cfg), LogOrder())
  {
  }

  /** The drafts of an observer sent home end with the return; research, if it ended in the same tick, comes
      right before it. */
  lemma SentHomeDrafts(o: Observer, p: Option<Portal>, o': Observer, before: seq<Portal>, after: seq<Portal>, now: Time, cfg: Config)
    requires SoundTransit(o) && (o.InTransit() ==> p.Some?) && SentHome(Advance(o, p, now, cfg), o')
    ensures var ds := ObserverDrafts(o, o', before, after, cfg); var n := |ds|;
            && n > 0 && ds[n - 1].kind == ObserverReturnStarted && ds[n - 1].at == o'.startedAt.value
            && (o.status == WaitingReturn ==> n == 1)
            && (o.status != WaitingReturn ==>
                  n > 1 && ds[n - 2].kind == ResearchCompleted && ds[n - 2].at == Advance(o, p, now, cfg).startedAt.value
                  && (n == 2 || (n == 4 && ds[0].kind == ObserverArrived && ds[1].kind == ResearchStarted
                                 && ds[0].at == ds[1].at < ds[2].at)))
  {
  }

  lemma InOrderUpToTheLast(ds: seq<Draft>)
    requires |ds| == 4 && ds[0].kind == ObserverArrived && ds[1].kind == ResearchStarted && ds[2].kind == ResearchCompleted
    requires ds[3].kind == ObserverReturnStarted && ds[0].at == ds[1].at < ds[2].at
    ensures StrictlySorted(ds, LogOrder()) <==> ds[2].at <= ds[3].at
  {
  }

  /** The emission order of one observer's events is the order the log sorts them in exactly when its
      automatic return, if any, does not predate the wait it ended. */
  lemma EmissionOrderIsLogOrder(o: Observer, p: Option<Portal>, o': Observer, before: seq<Portal>, after: seq<Portal>, now: Time, cfg: Config)
    requires SoundTransit(o) && (o.InTransit() ==> p.Some?)
    requires o' == Advance(o, p, now, cfg) || SentHome(Advance(o, p, now, cfg), o')
    ensures StrictlySorted(ObserverDrafts(o, o', before, after, cfg), LogOrder()) <==>
            (SentHome(Advance(o, p, now, cfg), o') && o.status != WaitingReturn ==>
               Advance(o, p, now, cfg).startedAt.value <= o'.startedAt.value)
  {
    if SentHome(Advance(o, p, now, cfg), o') {
      SentHomeDrafts(o, p, o', before, after, now, cfg);
      var ds := ObserverDrafts(o, o', before, after, cfg);
      if |ds| == 4 {
        InOrderUpToTheLast(ds);
      } else if |ds| == 2 {
        assert LogOrder()(ds[0], ds[1]) <==> ds[0].at <= ds[1].at;
      }
    } else {
      AdvancedInOrder(o, p, before, after, now, cfg);
    }
  }
}

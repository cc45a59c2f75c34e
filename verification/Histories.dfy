/** The log a tick writes, read entity by entity: whose events it holds, and when it keeps them in the
    order in which they happened. */
module Histories {
  import opened Base
  import opened Randomness
  import opened Sorting
  import opened Portals
  import opened Observers
  import opened States
  import opened Ticks
  import opened Invariants
  import opened Guarantees
  import opened Events
  import opened EventOrder
  import opened Traces
  import opened Homecomings

  // ---------------------------------------------------------------- reading a log

  /** The events of one observer, in log order. */
  function OfObserver(log: seq<Draft>, id: int): (r: seq<Draft>)
    ensures forall d :: d in r <==> d in log && d.observer == Some(id)
  {
    if |log| == 0 then []
    else
      var earlier, d := OfObserver(log[..|log| - 1], id), log[|log| - 1];
      assert log == log[..|log| - 1] + [d];
      if d.observer == Some(id) then earlier + [d] else earlier
  }

  lemma {:induction false} ReadingKeepsOrder(log: seq<Draft>, id: int)
    requires StrictlySorted(log, LogOrder())
    ensures StrictlySorted(OfObserver(log, id), LogOrder())
  {
    if |log| > 0 {
      var init, last := log[..|log| - 1], log[|log| - 1];
      ReadingKeepsOrder(init, id);
      var earlier := OfObserver(init, id);
      forall i | 0 <= i < |earlier| ensures LogOrder()(earlier[i], last) {
        assert earlier[i] in init;
        var k :| 0 <= k < |init| && init[k] == earlier[i];
        assert LogOrder()(log[k], log[|log| - 1]);
      }
    }
  }

  // ---------------------------------------------------------------- whose events a log holds

  lemma PortalsNameNobody(t: Transition, cfg: Config)
    ensures forall d :: d in PortalEvents(t, cfg) ==> d.observer.None?
  {
    PortalMembers(t, Indices(|t.after.portals|), cfg);
  }

  lemma {:induction false} WindowsNameNobody(deadline: Option<Time>, start: Time, cs: seq<Collapse>, now: Time, cfg: Config)
    ensures forall d :: d in OverrideDrafts(deadline, start, cs, now, cfg) ==> d.observer.None? && d.kind != PlaneExplored
    decreases |cs|
  {
    if |cs| > 0 {
      WindowsNameNobody(Some(cs[0].at + cfg.emergencyDuration), cs[0].at, cs[1..], now, cfg);
    }
  }

  lemma OnlyItsOwnEvents(t: Transition, j: nat, k: nat, d: Draft, cfg: Config)
    requires Identified(t) && j < |t.after.observers| && k < |t.after.observers|
    requires d in EventsAt(t, j, cfg) && d.observer == Some(t.after.observers[k].id)
    ensures j == k
  {
    EventsAtKeys(t, j, cfg);
  }

  lemma EveryoneIsVisited(t: Transition, k: nat, d: Draft, cfg: Config)
    requires Identified(t) && k < |t.after.observers|
    ensures d in RosterEvents(t, cfg) && d.observer == Some(t.after.observers[k].id) <==> d in EventsAt(t, k, cfg)
  {
    var visit := Indices(|t.after.observers|);
    ObserverMembers(t, visit, cfg);
    EventsAtKeys(t, k, cfg);
    assert visit[k] == k;
    if d in RosterEvents(t, cfg) && d.observer == Some(t.after.observers[k].id) {
      var j :| j in visit && d in EventsAt(t, j, cfg);
      OnlyItsOwnEvents(t, j, k, d, cfg);
    }
  }

  /** The log's events of an observer are exactly those derived from comparing it before and after. */
  lemma LogHoldsTheObserver(t: Transition, k: nat, cfg: Config)
    requires Identified(t) && k < |t.after.observers|
    ensures forall d :: d in EventLog(t, cfg) && d.observer == Some(t.after.observers[k].id) <==> d in EventsAt(t, k, cfg)
  {
    var id := t.after.observers[k].id;
    LogParts(t, cfg);
    PortalsNameNobody(t, cfg);
    WindowsNameNobody(t.before.lab.overrideUntil, t.previousAt, CollapsesIn(t), t.now, cfg);
    PlaneDraftsAreExact(t.before.planes, t.after.planes);
    EventsAtKeys(t, k, cfg);
    forall d ensures d in EventLog(t, cfg) && d.observer == Some(id) <==> d in EventsAt(t, k, cfg) {
      EveryoneIsVisited(t, k, d, cfg);
      assert d in EventLog(t, cfg) ==> 0 <= Source(d.kind) < 4;
    }
  }

  /** The log's explorations are exactly the planes found explored that were not before. */
  lemma LogHoldsTheExplorations(t: Transition, cfg: Config)
    requires Identified(t)
    ensures forall d :: d in EventLog(t, cfg) && d.kind == PlaneExplored <==> Announces(d, t.before.planes, t.after.planes)
  {
    LogParts(t, cfg);
    PlaneDraftsAreExact(t.before.planes, t.after.planes);
    forall d ensures d in EventLog(t, cfg) && d.kind == PlaneExplored <==> d in VisitPlanes(t.before.planes, t.after.planes) {
      OnlyPlanesAreExplored(d.kind);
    }
  }

  lemma OnlyPlanesAreExplored(k: EventType)
    ensures k == PlaneExplored <==> Source(k) == 3
  {
  }

  // ---------------------------------------------------------------- in order or not

  /** An observer's events stand in the log in the order they happened exactly if that order is the log's. */
  lemma ReadInOrder(t: Transition, k: nat, cfg: Config)
    requires Identified(t) && k < |t.after.observers|
    ensures OfObserver(EventLog(t, cfg), t.after.observers[k].id) == EventsAt(t, k, cfg) <==> StrictlySorted(EventsAt(t, k, cfg), LogOrder())
  {
    LogIsStrict(t, cfg);
    ReadingKeepsOrder(EventLog(t, cfg), t.after.observers[k].id);
    LogHoldsTheObserver(t, k, cfg);
    if StrictlySorted(EventsAt(t, k, cfg), LogOrder()) {
      LogOrderIsStrict();
      SortedIsUnique(OfObserver(EventLog(t, cfg), t.after.observers[k].id), EventsAt(t, k, cfg), LogOrder());
    }
  }

  /** Sent home from an instant at which it was not waiting yet. */
  predicate Backdated(o: Observer, o': Observer) {
    && o.status == WaitingReturn && o'.status == Returning && o.startedAt.Some? && o'.startedAt.Some?
    && o'.startedAt.value < o.startedAt.value
  }

  /** What a tick may have done to an observer, a return it started being dated after the clock `t`. */
  ghost predicate Ticked(s: State, s': State, i: nat, t: Time, now: Time, cfg: Config) {
    && i < |s.observers| && i < |s'.observers|
    && var middle := ObserverAfter(s.observers[i], PortalsAfter(s.portals, now), now, cfg);
       || s'.observers[i] == middle
       || (SentHome(middle, s'.observers[i]) && t < s'.observers[i].startedAt.value)
  }

  lemma SortedUnlessBackdated(s: State, s': State, i: nat, t: Time, now: Time, cfg: Config)
    requires DistinctObserverIds(s.observers) && Ticked(s, s', i, t, now, cfg)
    requires ObserverInv(s.observers[i], s.planes, s.portals, t) && TransitOpen(s.observers[i], s.portals)
    ensures var middle := ObserverAfter(s.observers[i], PortalsAfter(s.portals, now), now, cfg);
            StrictlySorted(ObserverEvents(s, s', s'.observers[i], cfg), LogOrder()) <==> !Backdated(middle, s'.observers[i])
  {
    var o := s.observers[i];
    var p := PortalOf(o, PortalsAfter(s.portals, now));
    CorridorKnown(o, s.portals, now);
    AdvanceKeepsId(o, p, now, cfg);
    ObserverFoundAt(s.observers, i);
    EmissionOrderIsLogOrder(o, p, s'.observers[i], s.portals, s'.portals, now, cfg);
  }

  // ---------------------------------------------------------------- the log of a tick

  /** Each portal that sends somebody home finds, at its synchronization, enough observers already waiting:
      more than there are due portals before it. */
  ghost predicate SendsInTime(ps: seq<Portal>, os: seq<Observer>, now: Time, cfg: Config) {
    forall x: nat :: Sends(ps, os, x, now, cfg) ==>
      |Ahead(ps, x, now, cfg)| < |WaitersBy(os, ps[x].plane, SyncMoment(ps[x], cfg))|
  }

  /** Where no plane has two due portals, that means: whoever is waiting for the portal, somebody already
      waited when it synchronized. */
  lemma LonePortalInTime(ps: seq<Portal>, os: seq<Observer>, x: nat, now: Time, cfg: Config)
    requires x < |ps| && Ahead(ps, x, now, cfg) == {}
    ensures |Ahead(ps, x, now, cfg)| < |WaitersBy(os, ps[x].plane, SyncMoment(ps[x], cfg))| <==>
            exists i :: 0 <= i < |os| && WaitsIn(os[i], ps[x].plane) && WaitsBy(os[i], SyncMoment(ps[x], cfg))
  {
    var early := WaitersBy(os, ps[x].plane, SyncMoment(ps[x], cfg));
    if |early| > 0 {
      var i :| i in early;
      assert WaitsIn(os[i], ps[x].plane);
    } else {
      assert early == {};
      forall i | 0 <= i < |os| && WaitsIn(os[i], ps[x].plane) ensures !WaitsBy(os[i], SyncMoment(ps[x], cfg)) {
        assert i !in early;
      }
    }
  }

  ghost predicate SyncsInTime(s: State, now: Time, cfg: Config) {
    SendsInTime(MidTick(s, now, cfg).portals, MidTick(s, now, cfg).observers, now, cfg)
  }

  ghost predicate NobodyBackdated(os: seq<Observer>, os': seq<Observer>) {
    |os| == |os'| && forall i :: 0 <= i < |os| ==> !Backdated(os[i], os'[i])
  }

  /** The observer a portal sends had begun to wait by then exactly if enough observers had. */
  lemma RidersInTime(ps: seq<Portal>, os: seq<Observer>, os': seq<Observer>, rider: map<nat, nat>, now: Time, tape: Tape, cfg: Config)
    requires Assigns(ps, os, os', rider, now, tape, cfg)
    requires forall i :: 0 <= i < |os| ==> WaitingRecorded(os[i])
    ensures NobodyBackdated(os, os') <==> SendsInTime(ps, os, now, cfg)
  {
    forall x | x in rider
      ensures Backdated(os[rider[x]], os'[rider[x]]) <==>
              !(|Ahead(ps, x, now, cfg)| < |WaitersBy(os, ps[x].plane, SyncMoment(ps[x], cfg))|)
    {
      assert SameRank(ps, os, x, rider[x], now, cfg);
      assert WaitsBy(os[rider[x]], SyncMoment(ps[x], cfg)) <==>
             |Ahead(ps, x, now, cfg)| < |WaitersBy(os, ps[x].plane, SyncMoment(ps[x], cfg))|;
    }
    if SendsInTime(ps, os, now, cfg) {
      forall i | 0 <= i < |os| ensures !Backdated(os[i], os'[i]) {
        if os'[i] != os[i] {
          var x :| x in rider && rider[x] == i;
          assert Sends(ps, os, x, now, cfg);
        }
      }
    }
    if NobodyBackdated(os, os') {
      forall x: nat | Sends(ps, os, x, now, cfg)
        ensures |Ahead(ps, x, now, cfg)| < |WaitersBy(os, ps[x].plane, SyncMoment(ps[x], cfg))|
      {
        assert x in rider && !Backdated(os[rider[x]], os'[rider[x]]);
      }
    }
  }

  /** Every observer's events stand in the log in the order they happened. */
  ghost predicate ReadsInOrder(t: Transition, cfg: Config) {
    forall k :: 0 <= k < |t.after.observers| ==> OfObserver(EventLog(t, cfg), t.after.observers[k].id) == EventsAt(t, k, cfg)
  }

  lemma ReadsUnlessBackdated(s: State, s': State, t: Time, previousAt: Time, now: Time, cfg: Config)
    requires Identified(Transition(s, s', previousAt, now)) && |s.observers| == |s'.observers|
    requires ObserversInv(s.observers, s.planes, s.portals, t)
    requires forall i :: 0 <= i < |s.observers| ==> Ticked(s, s', i, t, now, cfg)
    ensures ReadsInOrder(Transition(s, s', previousAt, now), cfg) <==>
            NobodyBackdated(ObserversAfter(s.observers, PortalsAfter(s.portals, now), now, cfg), s'.observers)
  {
    var tr := Transition(s, s', previousAt, now);
    var os := ObserversAfter(s.observers, PortalsAfter(s.portals, now), now, cfg);
    forall k | 0 <= k < |s.observers|
      ensures OfObserver(EventLog(tr, cfg), s'.observers[k].id) == EventsAt(tr, k, cfg) <==> !Backdated(os[k], s'.observers[k])
    {
      ReadInOrder(tr, k, cfg);
      SortedUnlessBackdated(s, s', k, t, now, cfg);
    }
  }

  lemma TickIsIdentified(s: State, now: Time, tape: Tape, pos: nat, cfg: Config)
    requires Inv(s, cfg) && Clock(s) <= now && Tick(s, now, tape, pos, cfg).Ok?
    ensures Identified(Transition(s, Tick(s, now, tape, pos, cfg).value.state, Clock(s), now))
  {
    TickKeepsInvariant(s, now, tape, pos, cfg);
    InvariantIsIdentified(s, Clock(s), cfg);
    InvariantIsIdentified(Tick(s, now, tape, pos, cfg).value.state, now, cfg);
  }

  lemma TickTicks(s: State, now: Time, tape: Tape, pos: nat, cfg: Config)
    requires Inv(s, cfg) && Clock(s) <= now && s.lastTickAt != Some(now) && Tick(s, now, tape, pos, cfg).Ok?
    ensures var s' := Tick(s, now, tape, pos, cfg).value.state;
            |s'.observers| == |s.observers| && forall i :: 0 <= i < |s.observers| ==> Ticked(s, s', i, Clock(s), now, cfg)
  {
    TickOnlySyncStarts(s, now, tape, pos, cfg);
    forall i | 0 <= i < |s.observers|
      ensures i < |Tick(s, now, tape, pos, cfg).value.state.observers|
      ensures Ticked(s, Tick(s, now, tape, pos, cfg).value.state, i, Clock(s), now, cfg)
    {
      TickOnObserver(s, now, tape, pos, cfg, i);
    }
  }

  lemma MidTickWaitersAreRecorded(s: State, now: Time, cfg: Config)
    requires Inv(s, cfg) && Clock(s) <= now
    ensures forall i :: 0 <= i < |MidTick(s, now, cfg).observers| ==> WaitingRecorded(MidTick(s, now, cfg).observers[i])
  {
    MidTickKeeps(s, Clock(s), now, cfg);
    var mid := MidTick(s, now, cfg);
    forall i | 0 <= i < |mid.observers| ensures WaitingRecorded(mid.observers[i]) {
      assert ObserverInv(mid.observers[i], mid.planes, mid.portals, now);
    }
  }

  /** A tick's log keeps every observer's events in the order they happened exactly if, for every due portal
      that sends somebody home, more observers of its plane were waiting when it synchronized than there are
      due portals of that plane before it. */
  lemma LogKeepsTheOrder(s: State, now: Time, tape: Tape, pos: nat, cfg: Config)
    requires Inv(s, cfg) && Clock(s) <= now && s.lastTickAt != Some(now) && Tick(s, now, tape, pos, cfg).Ok?
    ensures ReadsInOrder(Transition(s, Tick(s, now, tape, pos, cfg).value.state, Clock(s), now), cfg) <==> SyncsInTime(s, now, cfg)
  {
    var s', mid := Tick(s, now, tape, pos, cfg).value.state, MidTick(s, now, cfg);
    TickIsIdentified(s, now, tape, pos, cfg);
    TickTicks(s, now, tape, pos, cfg);
    ReadsUnlessBackdated(s, s', Clock(s), Clock(s), now, cfg);
    MidTickWaitersAreRecorded(s, now, cfg);
    var rider := TickSendsHome(s, now, tape, pos, cfg);
    RidersInTime(mid.portals, mid.observers, s'.observers, rider, now, tape, cfg);
  }

  /** The log of a tick holds, of each observer, exactly the events that tell its phases. */
  lemma TickLogHoldsTheObserver(s: State, now: Time, tape: Tape, pos: nat, cfg: Config, i: nat)
    requires Inv(s, cfg) && Clock(s) <= now && s.lastTickAt != Some(now) && Tick(s, now, tape, pos, cfg).Ok?
    requires i < |s.observers|
    ensures var s' := Tick(s, now, tape, pos, cfg).value.state;
            && |s'.observers| == |s.observers| && ToldFaithfully(s, s', i, now, cfg)
            && forall d :: d in EventLog(Transition(s, s', Clock(s), now), cfg) && d.observer == Some(s.observers[i].id) <==>
                           d in ObserverEvents(s, s', s'.observers[i], cfg)
  {
    var s' := Tick(s, now, tape, pos, cfg).value.state;
    TickIsIdentified(s, now, tape, pos, cfg);
    TickTraceIsFaithful(s, now, tape, pos, cfg, i);
    LogHoldsTheObserver(Transition(s, s', Clock(s), now), i, cfg);
    TickOnObserver(s, now, tape, pos, cfg, i);
    AdvanceKeepsId(s.observers[i], PortalOf(s.observers[i], PortalsAfter(s.portals, now)), now, cfg);
  }

  /** The tick explored this plane, at the moment of the earliest return from it. */
  ghost predicate ExploredBy(d: Draft, s: State, s': State, now: Time, cfg: Config) {
    exists j :: 0 <= j < |s.planes| && j < |s'.planes| && Explored(d, s, s', j, now, cfg)
  }

  ghost predicate Explored(d: Draft, s: State, s': State, j: nat, now: Time, cfg: Config)
    requires j < |s.planes| && j < |s'.planes|
  {
    var first := EarliestReturn(s.observers, PortalsAfter(s.portals, now), s.planes[j].id, now, cfg);
    && !s.planes[j].explored && s'.planes[j].explored && first.Some?
    && d == Draft(PlaneExplored, None, None, Some(s.planes[j].id), NoDetail, first.value)
  }

  lemma FlipsAreAnnounced(s: State, now: Time, tape: Tape, pos: nat, cfg: Config, d: Draft)
    requires Tick(s, now, tape, pos, cfg).Ok? && s.lastTickAt != Some(now) && DistinctPlaneIds(s.planes)
    ensures var s' := Tick(s, now, tape, pos, cfg).value.state;
            Announces(d, s.planes, s'.planes) <==> ExploredBy(d, s, s', now, cfg)
  {
    var s' := Tick(s, now, tape, pos, cfg).value.state;
    forall j | 0 <= j < |s.planes|
      ensures |s'.planes| == |s.planes|
      ensures d in PlaneDrafts(PriorPlane(s.planes, s'.planes[j].id), s'.planes[j]) <==> Explored(d, s, s', j, now, cfg)
    {
      ExplorationsAreExact(s, now, tape, pos, cfg, j);
    }
    TickOnPlane(s, now, tape, pos, cfg, 0);
  }

  /** The log of a tick announces exactly the planes the tick explored, each dated by the earliest return. */
  lemma TickLogHoldsTheExplorations(s: State, now: Time, tape: Tape, pos: nat, cfg: Config)
    requires Inv(s, cfg) && Clock(s) <= now && s.lastTickAt != Some(now) && Tick(s, now, tape, pos, cfg).Ok?
    ensures var s' := Tick(s, now, tape, pos, cfg).value.state;
            forall d :: d in EventLog(Transition(s, s', Clock(s), now), cfg) && d.kind == PlaneExplored <==> ExploredBy(d, s, s', now, cfg)
  {
    var s' := Tick(s, now, tape, pos, cfg).value.state;
    TickIsIdentified(s, now, tape, pos, cfg);
    LogHoldsTheExplorations(Transition(s, s', Clock(s), now), cfg);
    forall d ensures Announces(d, s.planes, s'.planes) <==> ExploredBy(d, s, s', now, cfg) {
      FlipsAreAnnounced(s, now, tape, pos, cfg, d);
    }
  }
}

/** Concrete laboratories in which the program's less obvious behaviour shows: each satisfies the invariant,
    and each ticks through the whole tick. */
module Instances {
  import opened Base
  import opened Randomness
  import opened Sorting
  import opened Portals
  import opened Labs
  import opened Observers
  import opened States
  import opened Commands
  import opened Ticks
  import opened Invariants
  import opened CommandInvariants
  import opened Runs
  import opened Guarantees
  import opened Composition
  import opened Events
  import opened EventOrder
  import opened Traces
  import opened Homecomings
  import opened Freshness
  import opened Histories
  import opened Cadence

  // ---------------------------------------------------------------- the scene

  /** An extraction portal opened at the epoch, with so much energy that runs out at one a second. */
  function Corridor(planeID: int, energy: real): Portal {
    Portal(1, 1, Extraction, planeID, energy, 0, 1.0, Stable, None, 0, 60 * SECOND, 0, FlowInbound, None,
           Open, NotTerminated, None, 0, 0)
  }

  /** A new laboratory with that one portal and one observer possibly away. */
  function Scene(planes: seq<Plane>, corridor: Portal, first: Observer, cfg: Config): State {
    State(NewTutorialLab(0, cfg), [corridor], planes, NewRoster(cfg.observerCount, 0)[0 := first], 2, PAUSED, None)
  }

  /** Observer 1 in a plane since the epoch: still researching, or already waiting. */
  function Researcher(planeID: int): Observer {
    Observer(1, Exploring, Some(planeID), None, Some(0), Some(20 * SECOND), 0, 0)
  }

  function Waiter(planeID: int): Observer {
    Observer(1, WaitingReturn, Some(planeID), None, Some(0), None, 0, 0)
  }

  ghost predicate Stays(o: Observer, planeID: int) {
    o == Researcher(planeID) || o == Waiter(planeID) || o == NewObserver(1, 0)
  }

  /** The configuration lets such a portal be opened. */
  predicate Admits(cfg: RawConfig, energy: real) {
    && 0.0 < cfg.extractionEnergyMin <= energy <= cfg.extractionEnergyMax && cfg.portalDecayMax >= 1.0
    && cfg.extractionTTLMin <= 60 * SECOND
  }

  lemma SceneIsSound(planes: seq<Plane>, planeID: int, energy: real, first: Observer, cfg: Config)
    requires FreshCatalogue(planes) && FindPlane(planes, planeID).Some? && Admits(cfg, energy) && Stays(first, planeID)
    ensures var s := Scene(planes, Corridor(planeID, energy), first, cfg); Inv(s, cfg) && Clock(s) == 0
  {
    var p := Corridor(planeID, energy);
    var s := Scene(planes, p, first, cfg);
    assert energy / 1.0 == energy;
    assert PortalInv(p, 0, cfg);
    assert FindPlane(planes, planeID).Some? && planes[FindPlane(planes, planeID).value].id == planeID;
    forall i | 0 <= i < |s.observers| ensures ObserverInv(s.observers[i], planes, s.portals, 0) && TransitOpen(s.observers[i], s.portals) {
    }
  }

  lemma CorridorEnds(planeID: int, energy: real)
    requires energy >= 0.0
    ensures Corridor(planeID, energy).Deadline() == Min(60 * SECOND, FromSeconds(energy))
  {
    assert energy / 1.0 == energy;
  }

  /** While the corridor is open a tick from the epoch finds it as it was, everyone at home at home, and
      observer 1 alone in the plane. */
  lemma SceneAtTick(planes: seq<Plane>, planeID: int, first: Observer, now: Time)
    requires Stays(first, planeID) && 0 <= now < 60 * SECOND
    ensures var s := Scene(planes, Corridor(planeID, 100.0), first, DEFAULT_CONFIG); var mid := MidTick(s, now, DEFAULT_CONFIG);
            && mid.portals == [Corridor(planeID, 100.0)] && |mid.observers| == |s.observers| > 0
            && mid.observers[0] == Advance(first, None, now, DEFAULT_CONFIG)
            && forall i :: 0 < i < |mid.observers| ==> mid.observers[i].status == Available
  {
    var s := Scene(planes, Corridor(planeID, 100.0), first, DEFAULT_CONFIG);
    CorridorEnds(planeID, 100.0);
    assert FromSeconds(100.0) == 100 * SECOND;
    assert PortalsAfter(s.portals, now) == s.portals;
  }

  /** Once it has synchronized, the corridor sends home whoever waits in its plane. */
  lemma CorridorSends(os: seq<Observer>, planeID: int, now: Time)
    requires 5 * SECOND <= now && |os| > 0 && WaitsIn(os[0], planeID)
    requires forall i :: 0 < i < |os| ==> os[i].status == Available
    ensures var ps := [Corridor(planeID, 100.0)];
            && Waiters(os, planeID) == {0} && Ahead(ps, 0, now, DEFAULT_CONFIG) == {}
            && Sends(ps, os, 0, now, DEFAULT_CONFIG) && SyncMoment(ps[0], DEFAULT_CONFIG) == 5 * SECOND
  {
    var ps := [Corridor(planeID, 100.0)];
    assert Waiters(os, planeID) == {0};
    assert Ahead(ps, 0, now, DEFAULT_CONFIG) == {};
  }

  lemma SceneTicks(planes: seq<Plane>, planeID: int, first: Observer, now: Time, tape: Tape, pos: nat)
    requires FreshCatalogue(planes) && FindPlane(planes, planeID).Some? && Stays(first, planeID) && now >= 0
    ensures Tick(Scene(planes, Corridor(planeID, 100.0), first, DEFAULT_CONFIG), now, tape, pos, DEFAULT_CONFIG).Ok?
  {
    SceneIsSound(planes, planeID, 100.0, first, DEFAULT_CONFIG);
    DefaultIsSafe();
    TicksNeverFail(Scene(planes, Corridor(planeID, 100.0), first, DEFAULT_CONFIG), now, tape, pos, DEFAULT_CONFIG);
  }

  // ---------------------------------------------------------------- a transit overdue when it starts

  /** A tick twenty seconds after the corridor opened starts a return that is already over, whatever is drawn:
      the state satisfies the invariant, but the roster check refuses the next command. */
  lemma LateReturnIsOverdue(planes: seq<Plane>, planeID: int, tape: Tape, pos: nat)
    requires FreshCatalogue(planes) && FindPlane(planes, planeID).Some?
    ensures var s, now := Scene(planes, Corridor(planeID, 100.0), Waiter(planeID), DEFAULT_CONFIG), 20 * SECOND;
            Inv(s, DEFAULT_CONFIG) && Tick(s, now, tape, pos, DEFAULT_CONFIG).Ok?
            && var s' := Tick(s, now, tape, pos, DEFAULT_CONFIG).value.state;
               && Inv(s', DEFAULT_CONFIG) && !Fresh(s', now)
               && Apply(s', RecallObserver(1, false), now, tape, pos, DEFAULT_CONFIG).error == Some(ObserverInvariant)
  {
    var cfg, now := DEFAULT_CONFIG, 20 * SECOND;
    var s := Scene(planes, Corridor(planeID, 100.0), Waiter(planeID), cfg);
    SceneIsSound(planes, planeID, 100.0, Waiter(planeID), cfg);
    SceneTicks(planes, planeID, Waiter(planeID), now, tape, pos);
    TickKeepsInvariant(s, now, tape, pos, cfg);
    WaiterLapses(planes, planeID);
    TickFreshness(s, now, tape, pos, cfg);
    FirstPortalRemains(s, now, tape, pos, cfg);
    StaleRosterRefuses(Tick(s, now, tape, pos, cfg).value.state, now, tape, pos, cfg);
  }

  lemma WaiterLapses(planes: seq<Plane>, planeID: int)
    ensures SomeReturnLapsed(Scene(planes, Corridor(planeID, 100.0), Waiter(planeID), DEFAULT_CONFIG), 20 * SECOND, DEFAULT_CONFIG)
  {
    var s := Scene(planes, Corridor(planeID, 100.0), Waiter(planeID), DEFAULT_CONFIG);
    SceneAtTick(planes, planeID, Waiter(planeID), 20 * SECOND);
    CorridorSends(MidTick(s, 20 * SECOND, DEFAULT_CONFIG).observers, planeID, 20 * SECOND);
  }

  lemma FirstPortalRemains(s: State, now: Time, tape: Tape, pos: nat, cfg: Config)
    requires Inv(s, cfg) && Clock(s) <= now && s.lastTickAt != Some(now) && Tick(s, now, tape, pos, cfg).Ok? && |s.portals| > 0
    ensures var s' := Tick(s, now, tape, pos, cfg).value.state; |s'.portals| > 0 && s'.portals[0].id == s.portals[0].id
  {
    TickOnPortals(s, now, tape, pos, cfg);
  }

  /** A stale roster refuses a recall through any portal, before anything else is looked at. */
  lemma StaleRosterRefuses(s: State, now: Time, tape: Tape, pos: nat, cfg: Config)
    requires InvAt(s, now, cfg) && !Fresh(s, now) && |s.portals| > 0
    ensures Apply(s, RecallObserver(s.portals[0].id, false), now, tape, pos, cfg).error == Some(ObserverInvariant)
  {
    FreshMeansSoundRoster(s, now, now, cfg);
    FoundAt(s.portals, 0);
    RecallNeedsSoundRoster(s, s.portals[0].id, now, tape, pos, cfg);
  }

  lemma RecallNeedsSoundRoster(s: State, id: int, now: Time, tape: Tape, pos: nat, cfg: Config)
    requires Target(s, id).Ok? && s.lab.PrepareSpend(now, 0, cfg).Ok? && !ValidRoster(s.observers, now)
    ensures Apply(s, RecallObserver(id, false), now, tape, pos, cfg).error == Some(ObserverInvariant)
  {
  }

  // ---------------------------------------------------------------- a return logged before the research it follows

  /** The two events of the researcher, in the order they happened. */
  function Completed(planeID: int): Draft {
    Draft(ResearchCompleted, None, Some(1), Some(planeID), NoDetail, 20 * SECOND)
  }

  function SentBack(planeID: int): Draft {
    Draft(ObserverReturnStarted, Some(1), Some(1), Some(planeID), NoDetail, 5 * SECOND)
  }

  lemma ResearcherDrafts(planeID: int, o': Observer, before: seq<Portal>, after: seq<Portal>)
    requires o'.status == Returning && o'.startedAt == Some(5 * SECOND) && o'.id == 1 && o'.portal == Some(1) && o'.plane == Some(planeID)
    ensures ObserverDrafts(Researcher(planeID), o', before, after, DEFAULT_CONFIG) == [Completed(planeID), SentBack(planeID)]
  {
  }

  lemma StandsBefore(log: seq<Draft>, x: Draft, y: Draft)
    requires StrictlySorted(log, LogOrder()) && x in log && y in log && x.at < y.at
    ensures ReadsBefore(log, x, y)
  {
    assert forall i, j :: 0 <= i < j < |log| ==> LogOrder()(log[i], log[j]) && log[i].at <= log[j].at;
  }

  ghost predicate ReadsBefore(log: seq<Draft>, x: Draft, y: Draft) {
    exists a, b :: 0 <= a < b < |log| && log[a] == x && log[b] == y
  }

  /** The researcher had not begun to wait when the corridor synchronized. */
  lemma ResearcherIsLate(planes: seq<Plane>, planeID: int)
    ensures var s, now := Scene(planes, Corridor(planeID, 100.0), Researcher(planeID), DEFAULT_CONFIG), 30 * SECOND;
            var mid := MidTick(s, now, DEFAULT_CONFIG);
            && !SyncsInTime(s, now, DEFAULT_CONFIG)
            && |mid.observers| > 0 && mid.portals == [Corridor(planeID, 100.0)]
            && mid.observers[0] == Advance(Researcher(planeID), None, now, DEFAULT_CONFIG)
            && Waiters(mid.observers, planeID) == {0} && Sends(mid.portals, mid.observers, 0, now, DEFAULT_CONFIG)
  {
    var s, now := Scene(planes, Corridor(planeID, 100.0), Researcher(planeID), DEFAULT_CONFIG), 30 * SECOND;
    SceneAtTick(planes, planeID, Researcher(planeID), now);
    var mid := MidTick(s, now, DEFAULT_CONFIG);
    CorridorSends(mid.observers, planeID, now);
    assert WaitersBy(mid.observers, planeID, 5 * SECOND) == {};
  }

  /** Whoever rides the one portal is the one waiter. */
  lemma OnlyRider(ps: seq<Portal>, os: seq<Observer>, os': seq<Observer>, rider: map<nat, nat>, now: Time, tape: Tape, cfg: Config)
    requires Assigns(ps, os, os', rider, now, tape, cfg) && Sends(ps, os, 0, now, cfg) && Waiters(os, ps[0].plane) == {0}
    ensures |os'| == |os| > 0 && OnReturn(os[0], os'[0], ps[0], tape, cfg)
  {
    assert 0 in rider && SameRank(ps, os, 0, rider[0], now, cfg);
    assert rider[0] in Waiters(os, ps[0].plane);
  }

  /** The only traveller is observer 1. */
  lemma ResearcherIsSent(planes: seq<Plane>, planeID: int, tape: Tape, pos: nat)
    requires FreshCatalogue(planes) && FindPlane(planes, planeID).Some?
    ensures var s, now := Scene(planes, Corridor(planeID, 100.0), Researcher(planeID), DEFAULT_CONFIG), 30 * SECOND;
            && Inv(s, DEFAULT_CONFIG) && Clock(s) == 0 && Tick(s, now, tape, pos, DEFAULT_CONFIG).Ok?
            && !SyncsInTime(s, now, DEFAULT_CONFIG)
            && var os' := Tick(s, now, tape, pos, DEFAULT_CONFIG).value.state.observers;
               |os'| == |s.observers| && OnReturn(Advance(Researcher(planeID), None, now, DEFAULT_CONFIG), os'[0], Corridor(planeID, 100.0), tape, DEFAULT_CONFIG)
  {
    var cfg, now := DEFAULT_CONFIG, 30 * SECOND;
    var s := Scene(planes, Corridor(planeID, 100.0), Researcher(planeID), cfg);
    SceneIsSound(planes, planeID, 100.0, Researcher(planeID), cfg);
    SceneTicks(planes, planeID, Researcher(planeID), now, tape, pos);
    ResearcherIsLate(planes, planeID);
    var rider := TickSendsHome(s, now, tape, pos, cfg);
    var mid := MidTick(s, now, cfg);
    OnlyRider(mid.portals, mid.observers, Tick(s, now, tape, pos, cfg).value.state.observers, rider, now, tape, cfg);
  }

  /** A tick thirty seconds after the corridor opened finds research that ended at twenty and sends that
      observer home as of the fifth second; the log then reads the return before the research. */
  lemma LateSyncBackdatesReturn(planes: seq<Plane>, planeID: int, tape: Tape, pos: nat)
    requires FreshCatalogue(planes) && FindPlane(planes, planeID).Some?
    ensures var s, now := Scene(planes, Corridor(planeID, 100.0), Researcher(planeID), DEFAULT_CONFIG), 30 * SECOND;
            Inv(s, DEFAULT_CONFIG) && Tick(s, now, tape, pos, DEFAULT_CONFIG).Ok?
            && var t := Transition(s, Tick(s, now, tape, pos, DEFAULT_CONFIG).value.state, Clock(s), now);
               && !ReadsInOrder(t, DEFAULT_CONFIG)
               && |t.after.observers| > 0
               && ObserverEvents(t.before, t.after, t.after.observers[0], DEFAULT_CONFIG) == [Completed(planeID), SentBack(planeID)]
               && ReadsBefore(EventLog(t, DEFAULT_CONFIG), SentBack(planeID), Completed(planeID))
  {
    var cfg, now := DEFAULT_CONFIG, 30 * SECOND;
    var s := Scene(planes, Corridor(planeID, 100.0), Researcher(planeID), cfg);
    ResearcherIsSent(planes, planeID, tape, pos);
    LogKeepsTheOrder(s, now, tape, pos, cfg);
    TickIsIdentified(s, now, tape, pos, cfg);
    BackdatedLog(Transition(s, Tick(s, now, tape, pos, cfg).value.state, Clock(s), now), planeID);
  }

  lemma BackdatedLog(t: Transition, planeID: int)
    requires Identified(t) && |t.before.observers| > 0 && |t.after.observers| > 0 && t.before.observers[0] == Researcher(planeID)
    requires var o' := t.after.observers[0];
             o'.status == Returning && o'.startedAt == Some(5 * SECOND) && o'.id == 1 && o'.portal == Some(1) && o'.plane == Some(planeID)
    ensures ObserverEvents(t.before, t.after, t.after.observers[0], DEFAULT_CONFIG) == [Completed(planeID), SentBack(planeID)]
    ensures ReadsBefore(EventLog(t, DEFAULT_CONFIG), SentBack(planeID), Completed(planeID))
  {
    ObserverFoundAt(t.before.observers, 0);
    ResearcherDrafts(planeID, t.after.observers[0], t.before.portals, t.after.portals);
    LogHoldsTheObserver(t, 0, DEFAULT_CONFIG);
    assert Completed(planeID) in EventsAt(t, 0, DEFAULT_CONFIG) && SentBack(planeID) in EventsAt(t, 0, DEFAULT_CONFIG);
    LogIsStrict(t, DEFAULT_CONFIG);
    StandsBefore(EventLog(t, DEFAULT_CONFIG), SentBack(planeID), Completed(planeID));
  }

  // ---------------------------------------------------------------- a synchronization a late tick misses

  /** Ticks at thirty and at sixty seconds synchronize the corridor before it closes; a single tick at sixty
      closes it unsynchronized. */
  lemma CadenceMatters(planes: seq<Plane>, planeID: int, tape: Tape, pos: nat)
    requires FreshCatalogue(planes) && FindPlane(planes, planeID).Some?
    ensures var s, cfg := Scene(planes, Corridor(planeID, 100.0), NewObserver(1, 0), DEFAULT_CONFIG), DEFAULT_CONFIG;
            Inv(s, cfg) && Tick(s, 30 * SECOND, tape, pos, cfg).Ok? && Tick(s, 60 * SECOND, tape, pos, cfg).Ok?
            && var first := Tick(s, 30 * SECOND, tape, pos, cfg).value;
               Tick(first.state, 60 * SECOND, tape, first.pos, cfg).Ok?
               && var both, single := Tick(first.state, 60 * SECOND, tape, first.pos, cfg).value.state, Tick(s, 60 * SECOND, tape, pos, cfg).value.state;
                  && |both.portals| > 0 && |single.portals| > 0
                  && both.portals[0].syncedAt.Some? && single.portals[0].syncedAt.None? && !Equivalent(both, single)
  {
    var s, cfg := Scene(planes, Corridor(planeID, 100.0), NewObserver(1, 0), DEFAULT_CONFIG), DEFAULT_CONFIG;
    SceneIsSound(planes, planeID, 100.0, NewObserver(1, 0), cfg);
    SceneTicks(planes, planeID, NewObserver(1, 0), 30 * SECOND, tape, pos);
    SceneTicks(planes, planeID, NewObserver(1, 0), 60 * SECOND, tape, pos);
    TickKeepsInvariant(s, 30 * SECOND, tape, pos, cfg);
    var first := Tick(s, 30 * SECOND, tape, pos, cfg).value;
    DefaultIsSafe();
    TicksNeverFail(first.state, 60 * SECOND, tape, first.pos, cfg);
    CorridorIsDue(planeID);
    LateTickNeverSynchronizes(s, 30 * SECOND, 60 * SECOND, 0, tape, pos, tape, pos, cfg);
  }

  lemma CorridorIsDue(planeID: int)
    ensures SyncDue(Corridor(planeID, 100.0).ResolveLifecycle(30 * SECOND), 30 * SECOND, DEFAULT_CONFIG)
    ensures Corridor(planeID, 100.0).Deadline() <= 60 * SECOND
  {
    CorridorEnds(planeID, 100.0);
    assert FromSeconds(100.0) == 100 * SECOND;
  }

  // ---------------------------------------------------------------- a tick that fails

  /** A valid configuration that lets an extraction portal open with six seconds of energy. */
  const FRAIL_CONFIG := DEFAULT_CONFIG.(extractionEnergyMin := 6.0)

  lemma FrailCorridor(planeID: int)
    ensures var p := Corridor(planeID, 6.0);
            p.Deadline() == 6 * SECOND && SyncDue(p.ResolveLifecycle(5 * SECOND), 5 * SECOND, FRAIL_CONFIG)
            && CriticalAtSync(p.ResolveLifecycle(5 * SECOND), FRAIL_CONFIG)
  {
    var p := Corridor(planeID, 6.0);
    CorridorEnds(planeID, 6.0);
    assert FromSeconds(6.0) == 6 * SECOND;
    EffectiveLifetimeIsDistance(MarkSynced(p, FRAIL_CONFIG), 5 * SECOND);
    assert 6.0 / 1.0 == 6.0;
    CriticalMeansUnderAQuarter(MarkSynced(p, FRAIL_CONFIG), 5 * SECOND, FRAIL_CONFIG);
  }

  /** The tick in which it should synchronize fails, from a state satisfying the invariant, whatever is drawn. */
  lemma FrailCorridorFailsTheTick(planes: seq<Plane>, planeID: int, tape: Tape, pos: nat)
    requires FreshCatalogue(planes) && FindPlane(planes, planeID).Some?
    ensures ValidConfig(FRAIL_CONFIG)
    ensures var s := Scene(planes, Corridor(planeID, 6.0), NewObserver(1, 0), FRAIL_CONFIG);
            Inv(s, FRAIL_CONFIG) && Tick(s, 5 * SECOND, tape, pos, FRAIL_CONFIG) == Err(PortalCriticalRisk)
  {
    var s := Scene(planes, Corridor(planeID, 6.0), NewObserver(1, 0), FRAIL_CONFIG);
    SceneIsSound(planes, planeID, 6.0, NewObserver(1, 0), FRAIL_CONFIG);
    FrailCorridor(planeID);
    assert s.portals[0] == Corridor(planeID, 6.0);
    TickKeepsInvariant(s, 5 * SECOND, tape, pos, FRAIL_CONFIG);
  }

  // ---------------------------------------------------------------- a close that is not atomic

  /** A laboratory whose one traveller returns from a plane its corridor does not lead to. */
  function Stranded(): State {
    State(NewTutorialLab(0, DEFAULT_CONFIG),
          [Corridor(1, 100.0).(syncedAt := Some(5 * SECOND), updatedAt := 5 * SECOND)],
          [Plane(1, false, None), Plane(2, false, None)],
          [Observer(1, Returning, Some(2), Some(1), Some(5 * SECOND), Some(15 * SECOND), 0, 5 * SECOND)],
          2, PAUSED, None)
  }

  /** Closing its portal is refused, and leaves the portal closed. No aggregate that passes the checks before a
      tick is like that: `CommandInvariants.ValidStatesNeverStrand`. */
  lemma StrandedCloseLeavesATrace(tape: Tape, pos: nat)
    ensures var c, out := ClosePortal(1, true), Apply(Stranded(), ClosePortal(1, true), 10 * SECOND, tape, pos, DEFAULT_CONFIG);
            && LeavesClosed(Stranded(), c, 10 * SECOND, DEFAULT_CONFIG)
            && out.error == Some(ObserverInvariant) && |out.state.portals| == 1 && out.state.portals[0].status == Closed
  {
    var s := Stranded();
    assert FindPortal([], 1) == None && FindPortal(s.portals[..0], 1) == None;
    assert s.portals[..0] == [];
    assert FindPortal(s.portals, 1) == Some(0);
    assert s.planes[..1] == [Plane(1, false, None)] && s.planes[..1][..0] == [];
    assert FindPlane(s.planes, 1) == Some(0);
    assert ActiveUpTo(s.observers, 0, 1, 10 * SECOND) == Ok(None);
    assert ActiveTransit(s.observers, 1, 10 * SECOND) == Ok(Some(0));
    assert s.lab.CurrentEnergy(10 * SECOND, DEFAULT_CONFIG) == 100;
  }
}

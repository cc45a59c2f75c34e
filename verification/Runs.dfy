/** Whole runs: any sequence of ticks and commands from a fresh laboratory. */
module Runs {
  import opened Base
  import opened Randomness
  import opened Portals
  import opened Labs
  import opened Observers
  import opened States
  import opened Commands
  import opened Ticks
  import opened Invariants
  import opened CommandInvariants

  /** One call of the engine: a tick, or a command preceded by the tick at its own instant. */
  datatype Action = TickAt(now: Time) | CommandAt(now: Time, command: Command)

  datatype Position = Position(state: State, pos: nat)

  /** A tick that fails publishes nothing. */
  function Resolve(at: Position, now: Time, tape: Tape, cfg: Config): Option<Position> {
    match Tick(at.state, now, tape, at.pos, cfg)
    case Err(_) => None
    case Ok(t) => Some(Position(t.state, t.pos))
  }

  function Perform(at: Position, a: Action, tape: Tape, cfg: Config): Position {
    match Resolve(at, a.now, tape, cfg)
    case None => at
    case Some(resolved) =>
      match a
      case TickAt(_) => resolved
      case CommandAt(now, c) =>
        var out := Apply(resolved.state, c, now, tape, resolved.pos, cfg);
        Position(out.state, out.pos)
  }

  function Run(at: Position, actions: seq<Action>, tape: Tape, cfg: Config): Position {
    if |actions| == 0 then at
    else Perform(Run(at, actions[..|actions| - 1], tape, cfg), actions[|actions| - 1], tape, cfg)
  }

  function NewRoster(count: nat, now: Time): (r: seq<Observer>)
    ensures |r| == count && forall i :: 0 <= i < count ==> r[i] == NewObserver(i + 1, now)
  {
    seq(count, i => NewObserver(i + 1, now))
  }

  ghost predicate FreshCatalogue(planes: seq<Plane>) {
    && |planes| == PLANE_COUNT && DistinctPlaneIds(planes)
    && forall i :: 0 <= i < |planes| ==> planes[i].id > 0 && !planes[i].explored && planes[i].exploredAt.None?
  }

  /** The laboratory a session starts from. */
  function NewLaboratory(planes: seq<Plane>, now: Time, cfg: Config): State {
    State(NewTutorialLab(now, cfg), [], planes, NewRoster(cfg.observerCount, now), 1, PAUSED, None)
  }

  lemma NewLaboratoryIsValid(planes: seq<Plane>, now: Time, cfg: Config)
    requires FreshCatalogue(planes)
    ensures Inv(NewLaboratory(planes, now, cfg), cfg)
  {
  }

  // ---------------------------------------------------------------- the invariant over runs

  /** Either the last tick or the energy baseline lies after `now`, and validation refuses both. */
  lemma StaleTicksFail(s: State, now: Time, tape: Tape, pos: nat, cfg: Config)
    requires now < Clock(s)
    ensures Tick(s, now, tape, pos, cfg) == Err(SimulationInvariant)
  {
  }

  lemma PerformKeepsInvariant(at: Position, a: Action, tape: Tape, cfg: Config)
    requires Inv(at.state, cfg)
    ensures Inv(Perform(at, a, tape, cfg).state, cfg)
    ensures Clock(at.state) <= Clock(Perform(at, a, tape, cfg).state)
    ensures Resolve(at, a.now, tape, cfg).Some? ==> Clock(Perform(at, a, tape, cfg).state) == a.now
  {
    if Clock(at.state) <= a.now {
      TickKeepsInvariant(at.state, a.now, tape, at.pos, cfg);
    } else {
      StaleTicksFail(at.state, a.now, tape, at.pos, cfg);
    }
    if a.CommandAt? && Resolve(at, a.now, tape, cfg).Some? {
      var resolved := Resolve(at, a.now, tape, cfg).value;
      CommandKeepsInvariant(resolved.state, a.command, a.now, tape, resolved.pos, cfg);
    }
  }

  /** Every state of every run satisfies the invariant, whatever the actions, their times and the draws. */
  lemma {:induction false} RunKeepsInvariant(at: Position, actions: seq<Action>, tape: Tape, cfg: Config)
    requires Inv(at.state, cfg)
    ensures Inv(Run(at, actions, tape, cfg).state, cfg)
    ensures Clock(at.state) <= Clock(Run(at, actions, tape, cfg).state)
  {
    if |actions| > 0 {
      RunKeepsInvariant(at, actions[..|actions| - 1], tape, cfg);
      PerformKeepsInvariant(Run(at, actions[..|actions| - 1], tape, cfg), actions[|actions| - 1], tape, cfg);
    }
  }

  // ---------------------------------------------------------------- what never changes

  ghost predicate PortalEvolves(p: Portal, q: Portal) {
    && q.id == p.id && q.slot == p.slot && q.plane == p.plane && q.kind == p.kind
    && q.openedAt == p.openedAt && q.createdAt == p.createdAt && q.scheduledCloseAt == p.scheduledCloseAt
    && (p.IsTerminal() ==> q == p)
  }

  ghost predicate ObserverEvolves(o: Observer, o': Observer) {
    o'.id == o.id && o'.createdAt == o.createdAt && (o.status == Lost ==> o' == o)
  }

  ghost predicate PlaneEvolves(p: Plane, q: Plane) {
    q.id == p.id && (p.explored ==> q == p)
  }

  ghost predicate PortalsEvolve(ps: seq<Portal>, qs: seq<Portal>) {
    |ps| <= |qs| && forall i :: 0 <= i < |ps| ==> PortalEvolves(ps[i], qs[i])
  }

  ghost predicate ObserversEvolve(os: seq<Observer>, os': seq<Observer>) {
    |os| == |os'| && forall i :: 0 <= i < |os| ==> ObserverEvolves(os[i], os'[i])
  }

  /** Portals keep identity and slot and are frozen once terminal, LOST observers are frozen,
      explored planes stay explored with their date, and identifiers are never reused. */
  ghost predicate Evolves(s: State, s': State) {
    && PortalsEvolve(s.portals, s'.portals)
    && ObserversEvolve(s.observers, s'.observers)
    && |s.planes| == |s'.planes| && (forall i :: 0 <= i < |s.planes| ==> PlaneEvolves(s.planes[i], s'.planes[i]))
    && s.nextPortalID <= s'.nextPortalID
    && (forall i :: |s.portals| <= i < |s'.portals| ==> s.nextPortalID <= s'.portals[i].id)
  }

  lemma EvolvesTransitively(a: State, b: State, c: State)
    requires Evolves(a, b) && Evolves(b, c)
    ensures Evolves(a, c)
  {
  }

  lemma {:induction false} SynchronizeAllEvolves(ps: seq<Portal>, os: seq<Observer>, order: seq<nat>, now: Time, tape: Tape, pos: nat, cfg: Config)
    requires forall x :: x in order ==> x < |ps|
    ensures var r := SynchronizeAll(ps, os, order, now, tape, pos, cfg);
            r.Ok? ==> PortalsEvolve(ps, r.value.portals) && ObserversEvolve(os, r.value.observers)
    decreases |order|
  {
    if |order| > 0 {
      assert order[0] in order && forall x :: x in order[1..] ==> x in order;
      var k := order[0];
      var first := Synchronize(ps[k], os, now, tape, pos, cfg);
      if first.Ok? {
        assert PortalEvolves(ps[k], first.value.portal);
        assert ObserversEvolve(os, first.value.observers);
        var ps', os' := ps[k := first.value.portal], first.value.observers;
        SynchronizeAllEvolves(ps', os', order[1..], now, tape, first.value.pos, cfg);
        var r := SynchronizeAll(ps', os', order[1..], now, tape, first.value.pos, cfg);
        if r.Ok? {
          forall i | 0 <= i < |ps| ensures PortalEvolves(ps[i], r.value.portals[i]) {
            assert PortalEvolves(ps'[i], r.value.portals[i]);
          }
          forall i | 0 <= i < |os| ensures ObserverEvolves(os[i], r.value.observers[i]) {
            assert ObserverEvolves(os'[i], r.value.observers[i]);
          }
        }
      }
    }
  }

  lemma MidTickEvolves(s: State, now: Time, cfg: Config)
    ensures Evolves(s, MidTick(s, now, cfg))
  {
  }

  lemma PartsEvolve(s: State, ps: seq<Portal>, os: seq<Observer>)
    requires PortalsEvolve(s.portals, ps) && |ps| == |s.portals| && ObserversEvolve(s.observers, os)
    ensures Evolves(s, s.(portals := ps, observers := os))
  {
  }

  lemma SpawnEvolves(s: State, now: Time, tape: Tape, pos: nat, cfg: Config)
    requires |s.planes| > 0 && NaturalSpawn(s, now, tape, pos, cfg).Ok?
    ensures Evolves(s, NaturalSpawn(s, now, tape, pos, cfg).value.state)
  {
  }

  lemma StampEvolves(s: State, s': State, now: Time)
    requires Evolves(s, s')
    ensures Evolves(s, s'.(lastTickAt := Some(now)))
  {
  }

  lemma TickEvolves(s: State, now: Time, tape: Tape, pos: nat, cfg: Config)
    requires Tick(s, now, tape, pos, cfg).Ok?
    ensures Evolves(s, Tick(s, now, tape, pos, cfg).value.state)
  {
    if s.lastTickAt != Some(now) {
      var mid := MidTick(s, now, cfg);
      MidTickEvolves(s, now, cfg);
      SynchronizeAllEvolves(mid.portals, mid.observers, ExtractionOrder(mid.portals), now, tape, pos, cfg);
      var r := SynchronizeAll(mid.portals, mid.observers, ExtractionOrder(mid.portals), now, tape, pos, cfg).value;
      var synced := mid.(portals := r.portals, observers := r.observers);
      PartsEvolve(mid, r.portals, r.observers);
      EvolvesTransitively(s, mid, synced);
      SpawnEvolves(synced, now, tape, r.pos, cfg);
      var spawned := NaturalSpawn(synced, now, tape, r.pos, cfg).value.state;
      EvolvesTransitively(s, synced, spawned);
      StampEvolves(s, spawned, now);
    }
  }

  lemma SendEvolves(p: Portal, plane: Plane, os: seq<Observer>, now: Time, confirm: bool, tape: Tape, pos: nat, cfg: Config)
    requires Send(p, plane, os, now, confirm, tape, pos, cfg).Ok?
    ensures var r := Send(p, plane, os, now, confirm, tape, pos, cfg).value;
            PortalEvolves(p, r.portal) && ObserversEvolve(os, r.observers)
  {
  }

  lemma RecallEvolves(p: Portal, os: seq<Observer>, now: Time, confirm: bool, tape: Tape, pos: nat, cfg: Config)
    requires PreparedRecall(p, os, now, confirm, tape, pos, cfg).Ok?
    ensures var r := PreparedRecall(p, os, now, confirm, tape, pos, cfg).value;
            PortalEvolves(p, r.portal) && ObserversEvolve(os, r.observers)
  {
  }

  /** A state changed in its ledger, one portal and its roster only. */
  lemma OnePortalEvolves(s: State, lab: Lab, k: nat, q: Portal, os: seq<Observer>)
    requires k < |s.portals| && PortalEvolves(s.portals[k], q) && ObserversEvolve(s.observers, os)
    ensures Evolves(s, s.(lab := lab, portals := s.portals[k := q], observers := os))
  {
  }

  lemma CommandEvolves(s: State, c: Command, now: Time, tape: Tape, pos: nat, cfg: Config)
    ensures Evolves(s, Apply(s, c, now, tape, pos, cfg).state)
  {
    match c
    case Stabilize(id) => StabilizeEvolves(s, id, now, tape, pos, cfg);
    case ClosePortal(id, confirm) => CloseEvolves(s, id, confirm, now, tape, pos, cfg);
    case SendObserver(id, confirm) => DispatchEvolves(s, id, confirm, now, tape, pos, cfg);
    case RecallObserver(id, confirm) => HomewardEvolves(s, id, confirm, now, tape, pos, cfg);
    case OpenExtraction(planeID) =>
  }

  lemma DispatchEvolves(s: State, id: int, confirm: bool, now: Time, tape: Tape, pos: nat, cfg: Config)
    ensures Evolves(s, Apply(s, SendObserver(id, confirm), now, tape, pos, cfg).state)
  {
    if Apply(s, SendObserver(id, confirm), now, tape, pos, cfg).error.None? {
      var (k, j) := Target(s, id).value;
      SendEvolves(s.portals[k], s.planes[j], s.observers, now, confirm, tape, pos, cfg);
      var r := Send(s.portals[k], s.planes[j], s.observers, now, confirm, tape, pos, cfg).value;
      OnePortalEvolves(s, s.lab, k, r.portal, r.observers);
    }
  }

  lemma HomewardEvolves(s: State, id: int, confirm: bool, now: Time, tape: Tape, pos: nat, cfg: Config)
    ensures Evolves(s, Apply(s, RecallObserver(id, confirm), now, tape, pos, cfg).state)
  {
    if Apply(s, RecallObserver(id, confirm), now, tape, pos, cfg).error.None? {
      var (k, j) := Target(s, id).value;
      RecallEvolves(s.portals[k], s.observers, now, confirm, tape, pos, cfg);
      var r := PreparedRecall(s.portals[k], s.observers, now, confirm, tape, pos, cfg).value;
      OnePortalEvolves(s, s.lab, k, r.portal, r.observers);
    }
  }

  lemma StabilizeEvolves(s: State, id: int, now: Time, tape: Tape, pos: nat, cfg: Config)
    ensures Evolves(s, Apply(s, Command.Stabilize(id), now, tape, pos, cfg).state)
  {
  }

  lemma CloseEvolves(s: State, id: int, confirm: bool, now: Time, tape: Tape, pos: nat, cfg: Config)
    ensures Evolves(s, Apply(s, ClosePortal(id, confirm), now, tape, pos, cfg).state)
  {
    var out := Apply(s, ClosePortal(id, confirm), now, tape, pos, cfg);
    if Target(s, id).Ok? {
      var (k, j) := Target(s, id).value;
      if CloseRefusal(s.lab, s.portals[k], s.planes[j], s.observers, now, confirm, cfg).None? {
        var closed := s.portals[k].Close(now, confirm, cfg).value;
        OnePortalEvolves(s, out.state.lab, k, closed, out.state.observers);
      }
    }
  }

  /** Over any run nothing terminal is touched again and no slot or identifier moves. */
  lemma {:induction false} RunEvolves(at: Position, actions: seq<Action>, tape: Tape, cfg: Config)
    ensures Evolves(at.state, Run(at, actions, tape, cfg).state)
  {
    if |actions| > 0 {
      var init, a := actions[..|actions| - 1], actions[|actions| - 1];
      RunEvolves(at, init, tape, cfg);
      var middle := Run(at, init, tape, cfg);
      if Resolve(middle, a.now, tape, cfg).Some? {
        var resolved := Resolve(middle, a.now, tape, cfg).value;
        TickEvolves(middle.state, a.now, tape, middle.pos, cfg);
        EvolvesTransitively(at.state, middle.state, resolved.state);
        if a.CommandAt? {
          CommandEvolves(resolved.state, a.command, a.now, tape, resolved.pos, cfg);
          EvolvesTransitively(at.state, resolved.state, Perform(middle, a, tape, cfg).state);
        }
      }
    }
  }

  /** In every reachable state at most seven portals are open, in distinct slots of 1..7, their IDs are
      distinct and below the next one to be handed out, and a slot is free unless seven are open. */
  lemma SlotsAndIdentifiers(planes: seq<Plane>, start: Time, actions: seq<Action>, tape: Tape, cfg: Config)
    requires FreshCatalogue(planes)
    ensures var s := Run(Position(NewLaboratory(planes, start, cfg), 0), actions, tape, cfg).state;
            && CountOpen(s.portals) <= 7
            && DistinctOpenSlots(s.portals) && DistinctPortalIds(s.portals)
            && (forall i :: 0 <= i < |s.portals| ==> 1 <= s.portals[i].slot <= 7 && 0 < s.portals[i].id < s.nextPortalID)
            && (FreeSlot(s.portals, 7).Some? <==> CountOpen(s.portals) < 7)
  {
    NewLaboratoryIsValid(planes, start, cfg);
    var at := Position(NewLaboratory(planes, start, cfg), 0);
    RunKeepsInvariant(at, actions, tape, cfg);
    var s := Run(at, actions, tape, cfg).state;
    forall i | 0 <= i < |s.portals| ensures 1 <= s.portals[i].slot <= 7 && 0 < s.portals[i].id < s.nextPortalID {
      assert PortalInv(s.portals[i], Clock(s), cfg);
    }
    SlotPigeonhole(s.portals, 7);
  }
}

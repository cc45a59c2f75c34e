/** Two margins the configuration leaves: when no extraction portal can be CRITICAL at its synchronization, and
    when no open portal is ever at its own end. */
module Margins {
  import opened Base
  import opened Randomness
  import opened Portals
  import opened Labs
  import opened Observers
  import opened States
  import opened Commands
  import opened Ticks
  import opened Invariants
  import opened CommandInvariants
  import opened Runs
  import opened Guarantees
  import opened Homecomings

  // ---------------------------------------------------------------- the weakest extraction portal can be drawn

  lemma QuotientBelow(x: real, d: real, c: real)
    requires d > 0.0
    ensures x / d < c <==> x < c * d
  {
    var q := x / d;
    assert q * d == x;
    if q < c {
      assert (c - q) * d > 0.0;
    } else {
      ProductNonNegative(q - c, d);
    }
    assert (c - q) * d == c * d - q * d;
  }

  /** Quotients just above one round down to the same number of nanoseconds. */
  lemma DecayJustBelow(energy: real, lo: real, hi: real) returns (d: real)
    requires energy >= 0.0 && 0.0 < lo < hi
    ensures lo <= d < hi && FromSeconds(energy / d) == FromSeconds(energy / hi)
  {
    var scaled := energy * 1_000_000_000.0;
    var n := FromSeconds(energy / hi);
    assert energy / hi * 1_000_000_000.0 == scaled / hi;
    var bound := (n + 1) as real;
    assert n >= 0 by { QuotientSign(energy, hi); }
    QuotientBelow(scaled, hi, bound);
    QuotientBelow(scaled, bound, hi);
    assert scaled < bound * hi;
    assert bound * hi == hi * bound;
    var d0 := scaled / bound;
    assert d0 < hi;
    d := if lo < (d0 + hi) / 2.0 then (d0 + hi) / 2.0 else lo;
    assert d0 < d < hi;
    QuotientBelow(scaled, bound, d);
    assert d * bound == bound * d;
    QuotientBelow(scaled, d, bound);
    QuotientMonotone(scaled, scaled, d, hi);
    assert energy / d * 1_000_000_000.0 == scaled / d;
  }

  /** A source whose third fraction is `f` and whose other draws are the minimum. */
  function FractionTape(f: real): Tape {
    Tape((n: nat) => 0, (n: nat) => if n == 2 then f else 0.0)
  }

  lemma FractionDraws(f: real, lo: int, hi: int, x: real, y: real, u: real, v: real)
    requires 0.0 <= f < 1.0 && lo <= hi && x <= y && u <= v
    ensures FractionTape(f).Int(0, lo, hi) == lo && FractionTape(f).Real(1, x, y) == x
    ensures FractionTape(f).Real(2, u, v) == u + f * (v - u)
  {
    assert f.Floor == 0;
    assert 0.0.Floor == 0;
  }

  lemma FractionOf(lo: real, hi: real, d: real) returns (f: real)
    requires lo <= d && (d < hi || lo == d == hi)
    ensures 0.0 <= f < 1.0 && lo + f * (hi - lo) == d
  {
    if lo == hi {
      f := 0.0;
    } else {
      f := (d - lo) / (hi - lo);
      assert f * (hi - lo) == d - lo;
      QuotientBelow(d - lo, hi - lo, 1.0);
      QuotientSign(d - lo, hi - lo);
    }
  }

  /** As short-lived as an extraction portal can be drawn. */
  predicate ShortestLived(p: Portal, cfg: Config) {
    && p.kind == Extraction && p.status == Open && p.stability == Stable && p.syncedAt.None? && p.energyBaseAt == p.openedAt
    && p.energyBase == cfg.extractionEnergyMin && p.scheduledCloseAt == p.openedAt + cfg.extractionTTLMin
    && p.decay > 0.0 && FromSeconds(p.energyBase / p.decay) == FromSeconds(cfg.extractionEnergyMin / cfg.portalDecayMax)
  }

  /** Some source draws an extraction portal of the shortest life there can be. */
  lemma ShortestIsDrawn(id: int, plane: int, slot: int, now: Time, cfg: Config) returns (tape: Tape)
    ensures ShortestLived(NewExtractionPortal(id, plane, slot, now, cfg, tape, 0).value, cfg)
  {
    var lo, hi := cfg.portalDecayMin, cfg.portalDecayMax;
    var d := hi;
    if lo < hi {
      d := DecayJustBelow(cfg.extractionEnergyMin, lo, hi);
    }
    var f := FractionOf(lo, hi, d);
    tape := FractionTape(f);
    FractionDraws(f, cfg.extractionTTLMin / SECOND, cfg.extractionTTLMax / SECOND, cfg.extractionEnergyMin, cfg.extractionEnergyMax, lo, hi);
    assert NewExtractionPortal(id, plane, slot, now, cfg, tape, 0).value.decay == d;
  }

  lemma ShortestLifeAtSync(p: Portal, cfg: Config)
    requires ShortestLived(p, cfg)
    ensures CriticalAtSync(p, cfg) <==> !SafeSync(cfg)
    ensures p.Deadline() == p.openedAt + ShortestExtraction(cfg)
    ensures cfg.extractionSync < ShortestExtraction(cfg) ==> SyncDue(p.ResolveLifecycle(SyncMoment(p, cfg)), SyncMoment(p, cfg), cfg)
    ensures cfg.extractionSync < ShortestExtraction(cfg) ==> p.ResolveLifecycle(SyncMoment(p, cfg)) == p
  {
    var marked := MarkSynced(p, cfg);
    EffectiveLifetimeIsDistance(marked, SyncMoment(p, cfg));
    CriticalMeansUnderAQuarter(marked, SyncMoment(p, cfg), cfg);
  }

  /** The margin is exactly what it takes: every portal the factory can draw is out of the CRITICAL band when it
      synchronizes if and only if the configuration leaves it. */
  lemma SafeSyncIsExact(id: int, plane: int, slot: int, now: Time, cfg: Config)
    requires id > 0 && plane > 0 && 1 <= slot <= 7
    ensures (forall tape: Tape, pos: nat :: !CriticalAtSync(NewExtractionPortal(id, plane, slot, now, cfg, tape, pos).value, cfg)) <==> SafeSync(cfg)
  {
    if SafeSync(cfg) {
      forall tape: Tape, pos: nat ensures !CriticalAtSync(NewExtractionPortal(id, plane, slot, now, cfg, tape, pos).value, cfg) {
        SafeSyncSuffices(id, plane, slot, now, tape, pos, cfg);
      }
    } else {
      var tape := ShortestIsDrawn(id, plane, slot, now, cfg);
      ShortestLifeAtSync(NewExtractionPortal(id, plane, slot, now, cfg, tape, 0).value, cfg);
    }
  }

  /** Without the margin, unless such a portal ends before it synchronizes, some draw makes an extraction command
      after which the tick at the synchronization fails. */
  lemma UnsafeSyncFailsATick(s: State, planeID: int, now: Time, syncAt: Time, later: Tape, pos: nat, cfg: Config) returns (tape: Tape)
    requires Inv(s, cfg) && s.lastTickAt == Some(now) && syncAt == now + cfg.extractionSync
    requires !SafeSync(cfg) && cfg.extractionSync < ShortestExtraction(cfg)
    ensures var out := Apply(s, OpenExtraction(planeID), now, tape, 0, cfg);
            out.error.None? ==> Tick(out.state, syncAt, later, pos, cfg).Err? && Tick(out.state, syncAt, later, pos, cfg).error == PortalCriticalRisk
  {
    var slot := if FreeSlot(s.portals, cfg.maxActivePortals).Some? then FreeSlot(s.portals, cfg.maxActivePortals).value else 1;
    tape := ShortestIsDrawn(s.nextPortalID, planeID, slot, now, cfg);
    var out := Apply(s, OpenExtraction(planeID), now, tape, 0, cfg);
    if out.error.None? {
      OpenedCorridor(s, planeID, slot, now, syncAt, tape, cfg);
      ImpossibleSyncFails(out.state, syncAt, later, pos, cfg);
    }
  }

  lemma OpenedPortal(s: State, planeID: int, slot: int, now: Time, tape: Tape, cfg: Config)
    requires Apply(s, OpenExtraction(planeID), now, tape, 0, cfg).error.None?
    requires FreeSlot(s.portals, cfg.maxActivePortals).Some? ==> slot == FreeSlot(s.portals, cfg.maxActivePortals).value
    ensures var s' := Apply(s, OpenExtraction(planeID), now, tape, 0, cfg).state;
            && s'.lastTickAt == s.lastTickAt && |s'.portals| == |s.portals| + 1
            && s'.portals[|s.portals|] == NewExtractionPortal(s.nextPortalID, planeID, slot, now, cfg, tape, 0).value
  {
  }

  lemma ImpossibleSyncFails(s: State, now: Time, tape: Tape, pos: nat, cfg: Config)
    requires Inv(s, cfg) && Clock(s) < now && SyncImpossible(s, now, cfg)
    ensures Tick(s, now, tape, pos, cfg).Err? && Tick(s, now, tape, pos, cfg).error == PortalCriticalRisk
  {
    TickKeepsInvariant(s, now, tape, pos, cfg);
  }

  lemma CorridorIsImpossible(s: State, k: nat, now: Time, cfg: Config)
    requires k < |s.portals| && s.portals[k].openedAt == now && ShortestLived(s.portals[k], cfg) && !SafeSync(cfg) && cfg.extractionSync < ShortestExtraction(cfg)
    ensures SyncImpossible(s, now + cfg.extractionSync, cfg)
  {
    ShortestLifeAtSync(s.portals[k], cfg);
  }

  lemma OpenedCorridor(s: State, planeID: int, slot: int, now: Time, syncAt: Time, tape: Tape, cfg: Config)
    requires Inv(s, cfg) && s.lastTickAt == Some(now) && syncAt == now + cfg.extractionSync
    requires Apply(s, OpenExtraction(planeID), now, tape, 0, cfg).error.None?
    requires FreeSlot(s.portals, cfg.maxActivePortals).Some? ==> slot == FreeSlot(s.portals, cfg.maxActivePortals).value
    requires ShortestLived(NewExtractionPortal(s.nextPortalID, planeID, slot, now, cfg, tape, 0).value, cfg)
    requires !SafeSync(cfg) && cfg.extractionSync < ShortestExtraction(cfg)
    ensures var s' := Apply(s, OpenExtraction(planeID), now, tape, 0, cfg).state;
            Inv(s', cfg) && Clock(s') < syncAt && SyncImpossible(s', syncAt, cfg)
  {
    OpenedPortal(s, planeID, slot, now, tape, cfg);
    CommandKeepsInvariant(s, OpenExtraction(planeID), now, tape, 0, cfg);
    CorridorIsImpossible(Apply(s, OpenExtraction(planeID), now, tape, 0, cfg).state, |s.portals|, now, cfg);
  }

  // ---------------------------------------------------------------- no open portal is at its own end

  /** The shortest-lived portal of either kind has at least a nanosecond of energy. */
  predicate LastsAMoment(cfg: Config) {
    FromSeconds(cfg.portalEnergyMin / cfg.portalDecayMax) > 0 && FromSeconds(cfg.extractionEnergyMin / cfg.portalDecayMax) > 0
  }

  /** The default configuration is such. */
  lemma DefaultLastsAMoment()
    ensures LastsAMoment(DEFAULT_CONFIG)
  {
  }

  /** Every open portal ends later than `t`. */
  ghost predicate NothingEnding(ps: seq<Portal>, t: Time) {
    forall i :: 0 <= i < |ps| ==> Lasts(ps[i], t)
  }

  predicate Lasts(p: Portal, t: Time) {
    p.status == Open ==> t < p.Deadline()
  }

  lemma EnergyLasts(energy: real, least: real, decay: real, most: real)
    requires 0.0 <= least <= energy && 0.0 < decay <= most && FromSeconds(least / most) > 0
    ensures FromSeconds(energy / decay) > 0
  {
    QuotientMonotone(energy, least, decay, most);
  }

  lemma NaturalLasts(id: int, plane: int, slot: int, now: Time, cfg: Config, tape: Tape, pos: nat)
    requires LastsAMoment(cfg)
    ensures Lasts(NewNaturalPortal(id, plane, slot, now, cfg, tape, pos).value, now)
  {
    var p := NewNaturalPortal(id, plane, slot, now, cfg, tape, pos).value;
    EnergyLasts(p.energyBase, cfg.portalEnergyMin, p.decay, cfg.portalDecayMax);
  }

  lemma ExtractionLasts(id: int, plane: int, slot: int, now: Time, cfg: Config, tape: Tape, pos: nat)
    requires LastsAMoment(cfg)
    ensures Lasts(NewExtractionPortal(id, plane, slot, now, cfg, tape, pos).value, now)
  {
    var p := NewExtractionPortal(id, plane, slot, now, cfg, tape, pos).value;
    EnergyLasts(p.energyBase, cfg.extractionEnergyMin, p.decay, cfg.portalDecayMax);
  }

  /** Stabilizing a portal that has not ended only lengthens its life. */
  lemma StabilizedLasts(p: Portal, now: Time, cfg: Config)
    requires PortalInv(p, now, cfg) && Lasts(p, now) && p.Stabilize(now, cfg).Ok?
    ensures Lasts(p.Stabilize(now, cfg).value, now)
  {
    var q := p.Stabilize(now, cfg).value;
    LifetimeIsDistanceToDepletion(p, now);
    FirstEndingIsEarliest(p, now);
    QuotientMonotone(q.energyBase, p.CurrentEnergy(now), p.decay, p.decay);
  }

  lemma ResolvedLasts(p: Portal, now: Time, cfg: Config)
    ensures Lasts(AfterSync(p.ResolveLifecycle(now), now, cfg), now)
  {
  }

  lemma SpawnLasts(s: State, now: Time, tape: Tape, pos: nat, cfg: Config)
    requires LastsAMoment(cfg) && |s.planes| > 0 && NaturalSpawn(s, now, tape, pos, cfg).Ok? && NothingEnding(s.portals, now)
    ensures NothingEnding(NaturalSpawn(s, now, tape, pos, cfg).value.state.portals, now)
  {
    var slot := FreeSlot(s.portals, cfg.maxActivePortals);
    if slot.Some? {
      NaturalLasts(s.nextPortalID, s.planes[tape.Int(pos, 0, |s.planes| - 1)].id, slot.value, now, cfg, tape, pos + 1);
    }
  }

  lemma StagesLast(s: State, now: Time, tape: Tape, pos: nat, cfg: Config)
    requires LastsAMoment(cfg) && Inv(s, cfg) && Clock(s) <= now && RunStages(s, now, tape, pos, cfg).Ok?
    ensures NothingEnding(RunStages(s, now, tape, pos, cfg).value.state.portals, now)
  {
    MidTickKeeps(s, Clock(s), now, cfg);
    var mid := MidTick(s, now, cfg);
    OrderAscends(mid.portals, now, cfg);
    StageMarks(mid.portals, mid.observers, mid.planes, mid.nextPortalID, ExtractionOrder(mid.portals), now, tape, pos, cfg);
    var x := SynchronizeAll(mid.portals, mid.observers, ExtractionOrder(mid.portals), now, tape, pos, cfg).value;
    forall i | 0 <= i < |x.portals| ensures Lasts(x.portals[i], now) {
      ResolvedLasts(s.portals[i], now, cfg);
    }
    SpawnLasts(mid.(portals := x.portals, observers := x.observers), now, tape, x.pos, cfg);
  }

  lemma TickLasts(s: State, now: Time, tape: Tape, pos: nat, cfg: Config)
    requires LastsAMoment(cfg) && Inv(s, cfg) && Clock(s) <= now && NothingEnding(s.portals, Clock(s)) && Tick(s, now, tape, pos, cfg).Ok?
    ensures NothingEnding(Tick(s, now, tape, pos, cfg).value.state.portals, now)
  {
    if s.lastTickAt != Some(now) {
      StagesLast(s, now, tape, pos, cfg);
    }
  }

  /** Replacing a portal by one that lasts, or adding one, keeps everything open. */
  lemma OneChanged(ps: seq<Portal>, qs: seq<Portal>, k: nat, t: Time)
    requires NothingEnding(ps, t) && |ps| <= |qs| && forall i :: 0 <= i < |qs| && i != k ==> i < |ps| && qs[i] == ps[i]
    requires k < |qs| ==> Lasts(qs[k], t)
    ensures NothingEnding(qs, t)
  {
  }

  lemma StabilizeLasts(s: State, id: int, now: Time, tape: Tape, pos: nat, cfg: Config)
    requires InvAt(s, now, cfg) && NothingEnding(s.portals, now)
    ensures NothingEnding(Apply(s, Command.Stabilize(id), now, tape, pos, cfg).state.portals, now)
  {
    if Apply(s, Command.Stabilize(id), now, tape, pos, cfg).error.None? {
      var k := FindPortal(s.portals, id).value;
      assert Lasts(s.portals[k], now);
      StabilizedLasts(s.portals[k], now, cfg);
      OneChanged(s.portals, Apply(s, Command.Stabilize(id), now, tape, pos, cfg).state.portals, k, now);
    }
  }

  lemma CloseLasts(s: State, id: int, confirm: bool, now: Time, tape: Tape, pos: nat, cfg: Config)
    requires NothingEnding(s.portals, now)
    ensures NothingEnding(Apply(s, ClosePortal(id, confirm), now, tape, pos, cfg).state.portals, now)
  {
  }

  lemma TransitLasts(s: State, c: Command, now: Time, tape: Tape, pos: nat, cfg: Config)
    requires NothingEnding(s.portals, now) && (c.SendObserver? || c.RecallObserver?)
    ensures NothingEnding(Apply(s, c, now, tape, pos, cfg).state.portals, now)
  {
    if Apply(s, c, now, tape, pos, cfg).error.None? {
      var k := Target(s, c.portalID).value.0;
      assert Lasts(s.portals[k], now);
    }
  }

  lemma ExtractionOpens(s: State, planeID: int, now: Time, tape: Tape, pos: nat, cfg: Config)
    requires LastsAMoment(cfg) && NothingEnding(s.portals, now)
    ensures NothingEnding(Apply(s, OpenExtraction(planeID), now, tape, pos, cfg).state.portals, now)
  {
    var slot := FreeSlot(s.portals, cfg.maxActivePortals);
    if Apply(s, OpenExtraction(planeID), now, tape, pos, cfg).error.None? {
      ExtractionLasts(s.nextPortalID, planeID, slot.value, now, cfg, tape, pos);
    }
  }

  lemma CommandLasts(s: State, c: Command, now: Time, tape: Tape, pos: nat, cfg: Config)
    requires LastsAMoment(cfg) && InvAt(s, now, cfg) && NothingEnding(s.portals, now)
    ensures NothingEnding(Apply(s, c, now, tape, pos, cfg).state.portals, now)
  {
    match c
    case Stabilize(id) => StabilizeLasts(s, id, now, tape, pos, cfg);
    case ClosePortal(id, confirm) => CloseLasts(s, id, confirm, now, tape, pos, cfg);
    case SendObserver(_, _) => TransitLasts(s, c, now, tape, pos, cfg);
    case RecallObserver(_, _) => TransitLasts(s, c, now, tape, pos, cfg);
    case OpenExtraction(planeID) => ExtractionOpens(s, planeID, now, tape, pos, cfg);
  }

  lemma PerformLasts(at: Position, a: Action, tape: Tape, cfg: Config)
    requires LastsAMoment(cfg) && Inv(at.state, cfg) && NothingEnding(at.state.portals, Clock(at.state))
    ensures var s := Perform(at, a, tape, cfg).state; NothingEnding(s.portals, Clock(s))
  {
    PerformKeepsInvariant(at, a, tape, cfg);
    if a.now < Clock(at.state) {
      StaleTicksFail(at.state, a.now, tape, at.pos, cfg);
    } else if Tick(at.state, a.now, tape, at.pos, cfg).Ok? {
      TickLasts(at.state, a.now, tape, at.pos, cfg);
      TickKeepsInvariant(at.state, a.now, tape, at.pos, cfg);
      var resolved := Resolve(at, a.now, tape, cfg).value;
      if a.CommandAt? {
        CommandLasts(resolved.state, a.command, a.now, tape, resolved.pos, cfg);
      }
    }
  }

  /** Where no portal can be drawn that ends as it opens, every open portal of every reachable state ends
      strictly later than the state's clock. */
  lemma {:induction false} NothingEndsAtTheClock(planes: seq<Plane>, start: Time, actions: seq<Action>, tape: Tape, cfg: Config)
    requires LastsAMoment(cfg) && FreshCatalogue(planes)
    ensures var s := Run(Position(NewLaboratory(planes, start, cfg), 0), actions, tape, cfg).state;
            Inv(s, cfg) && NothingEnding(s.portals, Clock(s))
  {
    var at := Position(NewLaboratory(planes, start, cfg), 0);
    NewLaboratoryIsValid(planes, start, cfg);
    RunKeepsInvariant(at, actions, tape, cfg);
    if |actions| > 0 {
      var init := actions[..|actions| - 1];
      NothingEndsAtTheClock(planes, start, init, tape, cfg);
      PerformLasts(Run(at, init, tape, cfg), actions[|actions| - 1], tape, cfg);
    }
  }
}

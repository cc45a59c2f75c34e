/** One portal: its stored baselines, the quantities derived from them, and the
    three competing moments at which it ends. */
module Portals {
  import opened Base
  import opened Randomness

  datatype PortalKind = Natural | Extraction
  datatype PortalStatus = Open | Closed | Collapsed
  datatype Stability = Stable | Unstable
  datatype Flow = FlowNone | FlowOutbound | FlowInbound
  datatype TerminationReason = NotTerminated | NaturalClose | ManualClose | EnergyDepleted | Instability
  datatype RiskLevel = Low | Medium | High | Critical

  /** How a portal ends if nobody touches it: when, why, and in which terminal status. */
  datatype Ending = Ending(at: Time, reason: TerminationReason, status: PortalStatus)

  /** The lifetime reported for a portal whose energy never runs out. */
  const FOREVER: Duration := 0x7FFF_FFFF_FFFF_FFFF

  datatype Portal = Portal(
    id: int,
    slot: int,
    kind: PortalKind,
    plane: int,
    energyBase: real,
    energyBaseAt: Time,
    decay: real,
    stability: Stability,
    instabilityAt: Option<Time>,
    openedAt: Time,
    scheduledCloseAt: Time,
    creatures: int,
    flow: Flow,
    syncedAt: Option<Time>,
    status: PortalStatus,
    reason: TerminationReason,
    closedAt: Option<Time>,
    createdAt: Time,
    updatedAt: Time)
  {
    predicate IsTerminal() {
      status != Open
    }

    /** Derived values of a terminal portal freeze at the moment it closed. */
    function ViewedAt(now: Time): Time {
      if IsTerminal() && closedAt.Some? then closedAt.value else now
    }

    function ScheduledRemaining(now: Time): Duration {
      if IsTerminal() then 0 else Max(0, scheduledCloseAt - now)
    }

    function CurrentEnergy(now: Time): (energy: real)
      ensures energy >= 0.0
    {
      var elapsed := Max(0, ViewedAt(now) - energyBaseAt);
      var energy := energyBase - Seconds(elapsed) * decay;
      if energy < 0.0 then 0.0 else energy
    }

    function EnergyDepletionAt(): Option<Time> {
      if decay <= 0.0 then None else Some(energyBaseAt + FromSeconds(energyBase / decay))
    }

    function EnergyLifetime(now: Time): Duration {
      if decay <= 0.0 then FOREVER else FromSeconds(CurrentEnergy(now) / decay)
    }

    function EffectiveLifetime(now: Time): Duration {
      Min(ScheduledRemaining(now), EnergyLifetime(now))
    }

    /** The earliest of natural close, energy depletion and hidden instability; natural
        close wins ties, then depletion. */
    function FirstEnding(): Ending {
      var natural := Ending(scheduledCloseAt, NaturalClose, Closed);
      var depletion := EnergyDepletionAt();
      var visible :=
        if depletion.Some? && depletion.value < natural.at
        then Ending(depletion.value, EnergyDepleted, Collapsed) else natural;
      if stability == Unstable && instabilityAt.Some? && instabilityAt.value < visible.at
      then Ending(instabilityAt.value, Instability, Collapsed) else visible
    }

    function Deadline(): Time {
      FirstEnding().at
    }

    /** Advances an OPEN portal whose first ending has passed; leaves every other portal alone. */
    function ResolveLifecycle(now: Time): Portal {
      if IsTerminal() || now < Deadline() then this
      else
        var ending := FirstEnding();
        this.(status := ending.status, reason := ending.reason, closedAt := Some(ending.at), updatedAt := now)
    }

    /** The portal collapses when resolved at `now`. */
    predicate CollapsesBy(now: Time) {
      status == Open && Deadline() <= now && FirstEnding().status == Collapsed
    }

    function Stabilize(now: Time, cfg: Config): Result<Portal> {
      if IsTerminal() then Err(PortalNotOpen)
      else if stability == Stable then Err(PortalAlreadyStable)
      else if CurrentEnergy(now) > cfg.stabilizeMaxStartEnergy then Err(PortalOverchargeRisk)
      else Ok(this.(stability := Stable, instabilityAt := None,
                    energyBase := CurrentEnergy(now) + cfg.stabilizeBoost, energyBaseAt := now, updatedAt := now))
    }

    function Close(now: Time, confirm: bool, cfg: Config): Result<Portal> {
      if IsTerminal() then Err(PortalNotOpen)
      else if CreaturesInside(now, cfg) > 0 && !confirm then Err(ConfirmationRequired)
      else Ok(this.(status := Closed, reason := ManualClose, closedAt := Some(now), updatedAt := now))
    }

    function CreaturesInside(now: Time, cfg: Config): (inside: int)
      ensures inside >= 0
    {
      var elapsed := Max(0, ViewedAt(now) - openedAt);
      Max(0, creatures - elapsed / cfg.creatureTransit)
    }

    function RiskScore(now: Time, cfg: Config): real {
      var horizon := Seconds(cfg.riskSafeHorizon);
      var effective := Seconds(EffectiveLifetime(now));
      var base := (horizon - effective) / horizon * 100.0;
      var clamped := if base < 0.0 then 0.0 else base;
      var score := if stability == Unstable then clamped + cfg.riskInstabilityPenalty else clamped;
      if score > 100.0 then 100.0 else score
    }

    /** Defined only while OPEN. */
    function RiskLevel(now: Time, cfg: Config): Option<RiskLevel> {
      if IsTerminal() then None
      else
        var score := RiskScore(now, cfg);
        if score <= 25.0 then Some(Low)
        else if score <= 50.0 then Some(Medium)
        else if score <= 75.0 then Some(High)
        else Some(Critical)
    }

    predicate IsCritical(now: Time, cfg: Config) {
      RiskLevel(now, cfg) == Some(Critical)
    }
  }

  function MaxCreaturesForTTL(ttl: Duration, cfg: Config): (most: int)
    ensures 0 <= most <= cfg.creatureMax
  {
    // A time to live shorter than the margin divides to something negative or zero
    // either way it rounds; both clamp to zero.
    Max(0, Min(cfg.creatureMax, (ttl - cfg.creatureClearanceMargin) / cfg.creatureTransit))
  }

  /** A factory's product together with the position the random source is left at. */
  datatype Drawn<T> = Drawn(value: T, pos: nat)

  function NewNaturalPortal(id: int, plane: int, slot: int, now: Time, cfg: Config, tape: Tape, pos: nat): Drawn<Portal> {
    var ttl := tape.Int(pos, cfg.naturalTTLMin / SECOND, cfg.naturalTTLMax / SECOND) * SECOND;
    var energy := tape.Real(pos + 1, cfg.portalEnergyMin, cfg.portalEnergyMax);
    var decay := tape.Real(pos + 2, cfg.portalDecayMin, cfg.portalDecayMax);
    var unstable := tape.Real(pos + 3, 0.0, 1.0) < cfg.unstableProbability;
    var scheduledClose := now + ttl;
    var lo := now + cfg.instabilityMinLifetime;
    var hi := scheduledClose - cfg.instabilityCloseMargin;
    var hidden := if unstable then Some(lo + tape.Int(pos + 4, 0, hi - lo)) else None;
    var afterHidden := if unstable then pos + 5 else pos + 4;
    var creatures := tape.Int(afterHidden, 0, MaxCreaturesForTTL(ttl, cfg));
    Drawn(
      Portal(id, slot, Natural, plane, energy, now, decay,
             if unstable then Unstable else Stable, hidden,
             now, scheduledClose, creatures, FlowNone, None, Open, NotTerminated, None, now, now),
      afterHidden + 1)
  }

  function NewExtractionPortal(id: int, plane: int, slot: int, now: Time, cfg: Config, tape: Tape, pos: nat): Drawn<Portal> {
    var ttl := tape.Int(pos, cfg.extractionTTLMin / SECOND, cfg.extractionTTLMax / SECOND) * SECOND;
    var energy := tape.Real(pos + 1, cfg.extractionEnergyMin, cfg.extractionEnergyMax);
    var decay := tape.Real(pos + 2, cfg.portalDecayMin, cfg.portalDecayMax);
    Drawn(
      Portal(id, slot, Extraction, plane, energy, now, decay, Stable, None,
             now, now + ttl, 0, FlowInbound, None, Open, NotTerminated, None, now, now),
      pos + 3)
  }

  // ---------------------------------------------------------------- validity

  /** A terminal portal records exactly the ending its own baselines dictate, unless it was
      closed by hand. */
  predicate ValidTerminalPortal(p: Portal, now: Time)
    requires p.IsTerminal()
  {
    && p.closedAt.Some?
    && p.openedAt <= p.closedAt.value <= now
    && p.closedAt.value <= p.updatedAt
    && p.energyBaseAt <= p.closedAt.value
    && (p.syncedAt.Some? ==> p.syncedAt.value <= p.closedAt.value)
    && (if p.reason == ManualClose then p.status == Closed
        else
          && p.reason != NotTerminated
          && var ending := p.FirstEnding();
          ending == Ending(p.closedAt.value, p.reason, p.status))
  }

  predicate ValidStructuralPortal(p: Portal, now: Time) {
    && p.id > 0 && 1 <= p.slot <= 7 && p.plane > 0
    && p.openedAt <= now && p.openedAt < p.scheduledCloseAt && p.createdAt <= p.openedAt
    && p.openedAt <= p.energyBaseAt <= p.updatedAt
    && p.energyBaseAt <= now && p.openedAt <= p.updatedAt && p.createdAt <= p.updatedAt && p.updatedAt <= now
    && p.energyBase >= 0.0 && p.decay > 0.0 && p.creatures >= 0
    && (match p.stability
        case Stable => p.instabilityAt.None?
        case Unstable => p.instabilityAt.Some? && p.openedAt < p.instabilityAt.value < p.scheduledCloseAt)
    && (match p.kind
        case Natural => p.syncedAt.None?
        case Extraction =>
          && p.stability == Stable && p.flow == FlowInbound && p.creatures == 0
          && (p.syncedAt.Some? ==> p.openedAt < p.syncedAt.value <= now))
    && (if p.status == Open then p.closedAt.None? && p.reason == NotTerminated
        else ValidTerminalPortal(p, now))
  }

  predicate ValidPortal(p: Portal, now: Time, cfg: Config) {
    && ValidStructuralPortal(p, now)
    && p.slot <= cfg.maxActivePortals && p.creatures <= cfg.creatureMax
    && (|| p.energyBase <= cfg.portalEnergyMax
        || p.energyBase <= cfg.extractionEnergyMax
        || p.energyBase <= cfg.stabilizeMaxStartEnergy + cfg.stabilizeBoost)
    && (p.stability == Unstable ==>
          p.openedAt + cfg.instabilityMinLifetime <= p.instabilityAt.value <= p.scheduledCloseAt - cfg.instabilityCloseMargin)
    && (p.kind == Extraction && p.syncedAt.Some? ==>
          p.syncedAt.value == p.openedAt + cfg.extractionSync && p.syncedAt.value <= now)
  }

  // ---------------------------------------------------------------- facts

  /** The first ending really is the earliest candidate, and ties go to natural close, then depletion. */
  lemma FirstEndingIsEarliest(p: Portal, now: Time)
    requires ValidStructuralPortal(p, now)
    ensures var e := p.FirstEnding(); var depletion := p.EnergyDepletionAt().value;
            && e.at <= p.scheduledCloseAt && e.at <= depletion
            && (p.stability == Unstable ==> e.at <= p.instabilityAt.value)
            && (e.reason == NaturalClose <==>
                  p.scheduledCloseAt <= depletion &&
                  (p.stability == Unstable ==> p.scheduledCloseAt <= p.instabilityAt.value))
            && (e.reason == Instability <==>
                  p.stability == Unstable && p.instabilityAt.value < p.scheduledCloseAt && p.instabilityAt.value < depletion)
            && (e.reason == EnergyDepleted <==> e.reason != NaturalClose && e.reason != Instability)
            && (e.status == Closed <==> e.reason == NaturalClose)
            && (e.status == Collapsed <==> e.reason != NaturalClose)
  {
  }

  lemma FloorShift(x: real, k: int)
    ensures (x - k as real).Floor == x.Floor - k
  {
  }

  lemma DividedDecay(base: real, elapsed: int, decay: real)
    requires decay > 0.0
    ensures (base - Seconds(elapsed) * decay) / decay * 1_000_000_000.0 == base / decay * 1_000_000_000.0 - elapsed as real
  {
    var s := Seconds(elapsed);
    assert (base - s * decay) / decay == base / decay - s by {
      assert (s * decay) / decay == s;
    }
  }

  lemma QuotientSign(a: real, b: real)
    requires b > 0.0
    ensures a >= 0.0 <==> a / b >= 0.0
  {
  }

  /** The energy lifetime is the distance to the depletion moment, and zero once that has
      passed: the two derived clocks of a portal never disagree. */
  lemma LifetimeIsDistanceToDepletion(p: Portal, now: Time)
    requires p.status == Open && p.decay > 0.0 && p.energyBase >= 0.0 && p.energyBaseAt <= now
    ensures p.EnergyLifetime(now) == Max(0, p.EnergyDepletionAt().value - now)
  {
    var elapsed := now - p.energyBaseAt;
    var raw := p.energyBase - Seconds(elapsed) * p.decay;
    var x := p.energyBase / p.decay * 1_000_000_000.0;
    DividedDecay(p.energyBase, elapsed, p.decay);
    QuotientSign(raw, p.decay);
    FloorShift(x, elapsed);
    assert raw / p.decay * 1_000_000_000.0 == x - elapsed as real;
    if raw < 0.0 {
      assert p.CurrentEnergy(now) == 0.0;
      assert 0.0 / p.decay == 0.0;
    } else {
      assert p.CurrentEnergy(now) == raw;
    }
  }

  /** The moment a portal would end if it hid no instability. */
  function VisibleEnd(p: Portal): Time
    requires p.decay > 0.0
  {
    Min(p.scheduledCloseAt, p.EnergyDepletionAt().value)
  }

  lemma EffectiveLifetimeIsDistance(p: Portal, now: Time)
    requires p.status == Open && p.decay > 0.0 && p.energyBase >= 0.0 && p.energyBaseAt <= now
    ensures p.EffectiveLifetime(now) == Max(0, VisibleEnd(p) - now)
    ensures p.stability == Stable ==> p.Deadline() == VisibleEnd(p)
    ensures p.Deadline() <= VisibleEnd(p)
  {
    LifetimeIsDistanceToDepletion(p, now);
  }

  lemma QuotientAbove(x: real, h: real, c: real)
    requires h > 0.0
    ensures x / h > c <==> x > c * h
  {
    var q := x / h;
    assert q * h == x;
    if q > c {
      assert (q - c) * h > 0.0;
    } else {
      ProductNonNegative(c - q, h);
    }
    assert (q - c) * h == q * h - c * h;
  }

  lemma QuotientBand(h: real, e: real)
    requires h > 0.0
    ensures (h - e) / h * 100.0 > 75.0 <==> 4.0 * e < h
  {
    QuotientAbove(h - e, h, 0.75);
  }

  /** A stable portal is CRITICAL exactly when less than a quarter of the safe horizon is left. */
  lemma CriticalMeansUnderAQuarter(p: Portal, now: Time, cfg: Config)
    requires p.status == Open && p.stability == Stable
    ensures p.IsCritical(now, cfg) <==> 4 * p.EffectiveLifetime(now) < cfg.riskSafeHorizon
  {
    var h := Seconds(cfg.riskSafeHorizon);
    var e := Seconds(p.EffectiveLifetime(now));
    QuotientBand(h, e);
    assert 4.0 * e < h <==> 4 * p.EffectiveLifetime(now) < cfg.riskSafeHorizon;
  }

  lemma DivisionBound(n: int, d: int, k: int)
    requires d > 0
    ensures n / d >= k <==> n >= k * d
  {
    assert n == n / d * d + n % d;
    if n / d >= k {
      assert n / d * d >= k * d by { MulMono(k, n / d, d); }
    } else {
      assert (n / d + 1) * d <= k * d by { MulMono(n / d + 1, k, d); }
      assert (n / d + 1) * d == n / d * d + d;
    }
  }

  lemma MulMono(a: int, b: int, d: int)
    requires a <= b && d > 0
    ensures a * d <= b * d
  {
  }

  /** The corridor of an OPEN portal is empty exactly from the moment its last creature has passed. */
  lemma CorridorClearsAt(p: Portal, now: Time, cfg: Config)
    requires p.status == Open && p.openedAt <= now && p.creatures >= 0
    ensures p.CreaturesInside(now, cfg) == 0 <==> p.openedAt + p.creatures * cfg.creatureTransit <= now
  {
    DivisionBound(now - p.openedAt, cfg.creatureTransit, p.creatures);
  }

  /** As many creatures as pass within the time to live with the margin, up to the maximum. */
  lemma MostCreaturesThatPass(ttl: Duration, cfg: Config)
    ensures var most := MaxCreaturesForTTL(ttl, cfg);
            && (most > 0 ==> most * cfg.creatureTransit + cfg.creatureClearanceMargin <= ttl)
            && (most < cfg.creatureMax ==> ttl < (most + 1) * cfg.creatureTransit + cfg.creatureClearanceMargin)
  {
    var most := MaxCreaturesForTTL(ttl, cfg);
    DivisionBound(ttl - cfg.creatureClearanceMargin, cfg.creatureTransit, most);
    DivisionBound(ttl - cfg.creatureClearanceMargin, cfg.creatureTransit, most + 1);
  }

  /** Every natural portal's creatures pass, with the margin to spare, before it is scheduled to close. */
  lemma CreaturesPassInTime(id: int, plane: int, slot: int, now: Time, cfg: Config, tape: Tape, pos: nat)
    ensures var p := NewNaturalPortal(id, plane, slot, now, cfg, tape, pos).value;
            p.creatures > 0 ==> p.openedAt + p.creatures * cfg.creatureTransit + cfg.creatureClearanceMargin <= p.scheduledCloseAt
  {
    var p := NewNaturalPortal(id, plane, slot, now, cfg, tape, pos).value;
    var most := MaxCreaturesForTTL(p.scheduledCloseAt - now, cfg);
    assert p.creatures <= most;
    MostCreaturesThatPass(p.scheduledCloseAt - now, cfg);
    MulMono(p.creatures, most, cfg.creatureTransit);
  }
}

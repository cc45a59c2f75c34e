/** The laboratory energy ledger: a stored baseline from which the current energy is
    derived, and the emergency window a collapse opens. */
module Labs {
  import opened Base

  datatype Lab = Lab(energyBase: int, energyBaseAt: Time, overrideUntil: Option<Time>) {

    /** Only completed whole seconds since the baseline regenerate energy. */
    function CurrentEnergy(now: Time, cfg: Config): (energy: int)
      ensures 0 <= energy <= cfg.labEnergyMax
    {
      var base := Max(0, Min(energyBase, cfg.labEnergyMax));
      if now < energyBaseAt then base
      else
        var grown := base + (now - energyBaseAt) / SECOND * cfg.labRegenPerSec;
        assert (now - energyBaseAt) / SECOND * cfg.labRegenPerSec >= 0 by {
          IntProductNonNegative((now - energyBaseAt) / SECOND, cfg.labRegenPerSec);
        }
        Min(grown, cfg.labEnergyMax)
    }

    predicate ValidBaseline(now: Time, cfg: Config) {
      0 <= energyBase <= cfg.labEnergyMax && energyBaseAt <= now
    }

    /** The energy left after paying `cost` at `now`. */
    function PrepareSpend(now: Time, cost: int, cfg: Config): Result<int> {
      if !ValidBaseline(now, cfg) || cost < 0 then Err(LabEnergyInvariant)
      else if CurrentEnergy(now, cfg) < cost then Err(InsufficientLabEnergy)
      else Ok(CurrentEnergy(now, cfg) - cost)
    }

    predicate CanAfford(now: Time, cost: int, cfg: Config) {
      PrepareSpend(now, cost, cfg).Ok?
    }

    /** A zero-cost spend does not move the baseline. */
    function CommitSpend(now: Time, cost: int, remaining: int): Lab {
      if cost == 0 then this else this.(energyBase := remaining, energyBaseAt := now)
    }

    function SpendEnergy(now: Time, cost: int, cfg: Config): Result<Lab> {
      match PrepareSpend(now, cost, cfg)
      case Err(e) => Err(e)
      case Ok(remaining) => Ok(CommitSpend(now, cost, remaining))
    }

    /** The half-open emergency window ends at the stored deadline and began one emergency
        duration before it. */
    predicate OverrideActive(now: Time, cfg: Config) {
      overrideUntil.Some? && overrideUntil.value - cfg.emergencyDuration <= now < overrideUntil.value
    }

    function ActivateOverride(collapseAt: Time, cfg: Config): Result<Lab> {
      if energyBase < 0 || energyBase > cfg.labEnergyMax || collapseAt < energyBaseAt then Err(LabEnergyInvariant)
      else Ok(Lab(0, collapseAt, Some(collapseAt + cfg.emergencyDuration)))
    }

    function CloseCost(now: Time, cfg: Config): int {
      if OverrideActive(now, cfg) then 0 else cfg.closeCost
    }

    function StabilizeCost(now: Time, cfg: Config): int {
      if OverrideActive(now, cfg) then 0 else cfg.stabilizeCost
    }
  }

  function NewTutorialLab(now: Time, cfg: Config): Lab {
    Lab(cfg.labEnergyMax, now, None)
  }

  lemma IntProductNonNegative(a: int, b: int)
    requires a >= 0 && b >= 0
    ensures a * b >= 0
  {
  }

  lemma IntProductMonotone(a: int, b: int, c: int)
    requires a <= b && c >= 0
    ensures a * c <= b * c
  {
    IntProductNonNegative(b - a, c);
    assert (b - a) * c == b * c - a * c;
  }

  /** Regeneration of whole seconds over two adjoining intervals never exceeds that over
      their union: rebasing can only drop a fraction of a second. */
  lemma WholeSecondsSplit(a: int, b: int)
    requires a >= 0 && b >= 0
    ensures a / SECOND + b / SECOND <= (a + b) / SECOND
  {
  }

  /** The regeneration law: the stored energy at the baseline, the same throughout every whole second since, and
      one second later the regeneration more, up to the maximum. */
  lemma EnergyRegenerates(lab: Lab, now: Time, cfg: Config)
    requires lab.ValidBaseline(now, cfg)
    ensures lab.CurrentEnergy(lab.energyBaseAt, cfg) == lab.energyBase
    ensures lab.CurrentEnergy(now, cfg) == lab.CurrentEnergy(now - (now - lab.energyBaseAt) % SECOND, cfg)
    ensures lab.CurrentEnergy(now + SECOND, cfg) == Min(lab.CurrentEnergy(now, cfg) + cfg.labRegenPerSec, cfg.labEnergyMax)
  {
    var elapsed := now - lab.energyBaseAt;
    assert (elapsed + SECOND) / SECOND == elapsed / SECOND + 1;
    assert (elapsed / SECOND + 1) * cfg.labRegenPerSec == elapsed / SECOND * cfg.labRegenPerSec + cfg.labRegenPerSec;
    assert (elapsed - elapsed % SECOND) / SECOND == elapsed / SECOND;
  }

  /** Paying never raises the derived energy, at the moment of payment or later. */
  lemma SpendingNeverRaisesEnergy(lab: Lab, now: Time, cost: int, cfg: Config, later: Time)
    requires lab.SpendEnergy(now, cost, cfg).Ok? && now <= later
    ensures lab.SpendEnergy(now, cost, cfg).value.CurrentEnergy(later, cfg) <= lab.CurrentEnergy(later, cfg)
    ensures lab.SpendEnergy(now, cost, cfg).value.CurrentEnergy(now, cfg) == lab.CurrentEnergy(now, cfg) - cost
  {
    if cost != 0 {
      var a, b := now - lab.energyBaseAt, later - now;
      WholeSecondsSplit(a, b);
      IntProductMonotone(a / SECOND + b / SECOND, (a + b) / SECOND, cfg.labRegenPerSec);
      assert (a / SECOND + b / SECOND) * cfg.labRegenPerSec == a / SECOND * cfg.labRegenPerSec + b / SECOND * cfg.labRegenPerSec;
      IntProductNonNegative(b / SECOND, cfg.labRegenPerSec);
    }
  }
}

/** Shared vocabulary: instants, durations, optional values, the domain's error
    values and the tunable balance configuration. */
module Base {

  /** Instants are nanoseconds on one time line; durations are their differences. */
  type Time = int
  type Duration = int

  const SECOND: Duration := 1_000_000_000

  datatype Option<+T> = None | Some(value: T)

  datatype Error =
    | PortalNotOpen
    | PortalAlreadyStable
    | PortalOverchargeRisk
    | ConfirmationRequired
    | NoFreePortalSlot
    | ObserverNotAvailable
    | ObserverNotWaitingReturn
    | ObserverIsLost
    | ObserverInvariant
    | PortalCriticalRisk
    | PortalDirectionConflict
    | PortalBusy
    | PortalCreaturesPresent
    | NoAvailableObserver
    | NoWaitingObserver
    | LabEnergyInvariant
    | InsufficientLabEnergy
    | ExtractionInvariant
    | ExtractionSynchronizing
    | SimulationInvariant
    | EventInvariant
    | PortalNotFound
    | PlaneNotFound
    | InvalidTutorialSignal
    | CommitFailed

  datatype Result<+T> = Ok(value: T) | Err(error: Error)

  function Min(a: int, b: int): int {
    if a < b then a else b
  }

  function Max(a: int, b: int): int {
    if a < b then b else a
  }

  /** A duration in seconds; the program computes it in floating point. */
  function Seconds(d: Duration): real {
    d as real / 1_000_000_000.0
  }

  /** A non-negative number of seconds cut down to whole nanoseconds. */
  function FromSeconds(s: real): Duration {
    (s * 1_000_000_000.0).Floor
  }

  lemma HasMember(s: set<int>)
    ensures s != {} ==> exists id :: id in s
  {
    if forall id :: id !in s {
      assert s == {};
    }
  }

  lemma ProductNonNegative(a: real, b: real)
    requires a >= 0.0 && b >= 0.0
    ensures a * b >= 0.0
  {
  }

  datatype RawConfig = RawConfig(
    maxActivePortals: int,
    spawnDelayMin: Duration,
    spawnDelayMax: Duration,
    naturalTTLMin: Duration,
    naturalTTLMax: Duration,
    portalEnergyMin: real,
    portalEnergyMax: real,
    portalDecayMin: real,
    portalDecayMax: real,
    unstableProbability: real,
    instabilityMinLifetime: Duration,
    instabilityCloseMargin: Duration,
    creatureMax: int,
    creatureTransit: Duration,
    creatureClearanceMargin: Duration,
    observerCount: int,
    observerTransitMin: Duration,
    observerTransitMax: Duration,
    researchDuration: Duration,
    labEnergyMax: int,
    labRegenPerSec: int,
    closeCost: int,
    stabilizeCost: int,
    stabilizeBoost: real,
    stabilizeMaxStartEnergy: real,
    extractionCost: int,
    extractionEnergyMin: real,
    extractionEnergyMax: real,
    extractionTTLMin: Duration,
    extractionTTLMax: Duration,
    extractionSync: Duration,
    emergencyDuration: Duration,
    riskSafeHorizon: Duration,
    riskInstabilityPenalty: real)

  const DEFAULT_CONFIG := RawConfig(
    7, 0, 20 * SECOND, 10 * SECOND, 300 * SECOND,
    10.0, 100.0, 0.1, 1.0,
    0.35, 5 * SECOND, 1 * SECOND,
    10, 2 * SECOND, 2 * SECOND,
    20, 5 * SECOND, 15 * SECOND, 20 * SECOND,
    100, 1, 5, 20, 15.0, 85.0, 30, 60.0, 100.0, 30 * SECOND, 60 * SECOND, 5 * SECOND,
    20 * SECOND, 45 * SECOND, 20.0)

  predicate WholeSeconds(d: Duration) {
    d % SECOND == 0
  }

  predicate ValidExtractionConfig(cfg: RawConfig) {
    && cfg.maxActivePortals > 0 && cfg.extractionCost >= 0
    && 0.0 <= cfg.extractionEnergyMin <= cfg.extractionEnergyMax
    && 0.0 < cfg.portalDecayMin <= cfg.portalDecayMax
    && 0 < cfg.extractionTTLMin <= cfg.extractionTTLMax
    && cfg.extractionSync > 0
  }

  /** The configurations the simulation accepts. */
  predicate ValidConfig(cfg: RawConfig) {
    && cfg.maxActivePortals == 7
    && 0 <= cfg.spawnDelayMin <= cfg.spawnDelayMax
    && WholeSeconds(cfg.spawnDelayMin) && WholeSeconds(cfg.spawnDelayMax)
    && 0 < cfg.naturalTTLMin <= cfg.naturalTTLMax
    && WholeSeconds(cfg.naturalTTLMin) && WholeSeconds(cfg.naturalTTLMax)
    && 0.0 <= cfg.portalEnergyMin <= cfg.portalEnergyMax
    && 0.0 < cfg.portalDecayMin <= cfg.portalDecayMax
    && 0.0 <= cfg.unstableProbability <= 1.0
    && cfg.instabilityMinLifetime > 0 && cfg.instabilityCloseMargin > 0
    && cfg.naturalTTLMin >= cfg.instabilityMinLifetime + cfg.instabilityCloseMargin
    && cfg.creatureMax >= 0 && cfg.creatureTransit > 0 && cfg.creatureClearanceMargin >= 0
    && cfg.observerCount > 0
    && 0 < cfg.observerTransitMin <= cfg.observerTransitMax
    && WholeSeconds(cfg.observerTransitMin) && WholeSeconds(cfg.observerTransitMax)
    && cfg.researchDuration > 0
    && cfg.labEnergyMax > 0 && cfg.labRegenPerSec >= 0
    && cfg.closeCost >= 0 && cfg.stabilizeCost >= 0 && cfg.extractionCost >= 0
    && cfg.stabilizeBoost >= 0.0 && cfg.stabilizeMaxStartEnergy >= 0.0
    && ValidExtractionConfig(cfg)
    && WholeSeconds(cfg.extractionTTLMin) && WholeSeconds(cfg.extractionTTLMax)
    && cfg.emergencyDuration > 0
    && cfg.riskSafeHorizon > 0 && cfg.riskInstabilityPenalty >= 0.0
  }

  type Config = cfg: RawConfig | ValidConfig(cfg) witness DEFAULT_CONFIG
}

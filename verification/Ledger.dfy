/** The energy ledger over whole runs: nothing is ever paid for with energy that was not there. */
module Ledger {
  import opened Base
  import opened Randomness
  import opened Portals
  import opened Labs
  import opened Observers
  import opened States
  import opened Commands
  import opened Ticks
  import opened Invariants
  import opened CommandInvariants
  import opened Runs

  /** What a command costs the state it is applied to. */
  function Price(s: State, c: Command, now: Time, cfg: Config): int {
    match c
    case Stabilize(_) => s.lab.StabilizeCost(now, cfg)
    case ClosePortal(_, _) => s.lab.CloseCost(now, cfg)
    case SendObserver(_, _) => 0
    case RecallObserver(_, _) => 0
    case OpenExtraction(_) => cfg.extractionCost
  }

  /** What one action spends: the price of its command when the command succeeds. */
  function Spending(at: Position, a: Action, tape: Tape, cfg: Config): int {
    match Resolve(at, a.now, tape, cfg)
    case None => 0
    case Some(resolved) =>
      match a
      case TickAt(_) => 0
      case CommandAt(now, c) =>
        if Apply(resolved.state, c, now, tape, resolved.pos, cfg).error.Some? then 0
        else Price(resolved.state, c, now, cfg)
  }

  function TotalSpending(at: Position, actions: seq<Action>, tape: Tape, cfg: Config): int {
    if |actions| == 0 then 0
    else
      var init := actions[..|actions| - 1];
      TotalSpending(at, init, tape, cfg) + Spending(Run(at, init, tape, cfg), actions[|actions| - 1], tape, cfg)
  }

  /** The energy a ledger opened with `energy` at `since` can have handed out by `until`. */
  function Budget(energy: int, since: Time, until: Time, cfg: Config): int {
    energy + (until - since) / SECOND * cfg.labRegenPerSec
  }

  /** The stored baseline together with everything spent so far is within the budget of the baseline's own date. */
  predicate Balanced(lab: Lab, spent: int, energy: int, since: Time, cfg: Config) {
    && since <= lab.energyBaseAt && 0 <= lab.energyBase <= cfg.labEnergyMax
    && lab.energyBase + spent <= Budget(energy, since, lab.energyBaseAt, cfg)
  }

  lemma BudgetGrows(energy: int, since: Time, a: Time, b: Time, cfg: Config)
    requires since <= a <= b
    ensures Budget(energy, since, a, cfg) + (b - a) / SECOND * cfg.labRegenPerSec <= Budget(energy, since, b, cfg)
    ensures Budget(energy, since, a, cfg) <= Budget(energy, since, b, cfg)
  {
    WholeSecondsSplit(a - since, b - a);
    var x, y, z := (a - since) / SECOND, (b - a) / SECOND, (b - since) / SECOND;
    IntProductMonotone(x + y, z, cfg.labRegenPerSec);
    assert (x + y) * cfg.labRegenPerSec == x * cfg.labRegenPerSec + y * cfg.labRegenPerSec;
    IntProductNonNegative(y, cfg.labRegenPerSec);
  }

  lemma DerivedWithinBudget(lab: Lab, spent: int, energy: int, since: Time, now: Time, cfg: Config)
    requires Balanced(lab, spent, energy, since, cfg) && lab.energyBaseAt <= now
    ensures lab.CurrentEnergy(now, cfg) + spent <= Budget(energy, since, now, cfg)
  {
    BudgetGrows(energy, since, lab.energyBaseAt, now, cfg);
  }

  lemma PayingKeepsBalance(lab: Lab, spent: int, energy: int, since: Time, now: Time, cost: int, cfg: Config)
    requires Balanced(lab, spent, energy, since, cfg) && lab.PrepareSpend(now, cost, cfg).Ok?
    ensures Balanced(lab.CommitSpend(now, cost, lab.PrepareSpend(now, cost, cfg).value), spent + cost, energy, since, cfg)
  {
    DerivedWithinBudget(lab, spent, energy, since, now, cfg);
  }

  lemma TickKeepsBalance(s: State, spent: int, energy: int, since: Time, now: Time, tape: Tape, pos: nat, cfg: Config)
    requires Inv(s, cfg) && Clock(s) <= now && Tick(s, now, tape, pos, cfg).Ok?
    requires Balanced(s.lab, spent, energy, since, cfg)
    ensures Balanced(Tick(s, now, tape, pos, cfg).value.state.lab, spent, energy, since, cfg)
  {
    var s' := Tick(s, now, tape, pos, cfg).value.state;
    if s.lastTickAt != Some(now) {
      StagesSettle(s, now, tape, pos, cfg);
      assert s'.lab == LabAfter(s.lab, s.portals, now, cfg);
      var c := LatestCollapse(s.portals, now);
      if c.Some? {
        CollapsesAreBookable(s.lab, s.portals, s.planes, s.nextPortalID, Clock(s), now, cfg);
        var i :| 0 <= i < |s.portals| && s.portals[i].CollapsesBy(now) && s.portals[i].Deadline() == c.value;
        BudgetGrows(energy, since, s.lab.energyBaseAt, c.value, cfg);
      }
    }
  }

  lemma CommandKeepsBalance(s: State, c: Command, spent: int, energy: int, since: Time, now: Time, tape: Tape, pos: nat, cfg: Config)
    requires Balanced(s.lab, spent, energy, since, cfg)
    ensures var out := Apply(s, c, now, tape, pos, cfg);
            Balanced(out.state.lab, spent + if out.error.Some? then 0 else Price(s, c, now, cfg), energy, since, cfg)
  {
    var out := Apply(s, c, now, tape, pos, cfg);
    if out.error.None? {
      match c
      case Stabilize(_) => PayingKeepsBalance(s.lab, spent, energy, since, now, s.lab.StabilizeCost(now, cfg), cfg);
      case ClosePortal(_, _) => PayingKeepsBalance(s.lab, spent, energy, since, now, s.lab.CloseCost(now, cfg), cfg);
      case SendObserver(_, _) =>
      case RecallObserver(_, _) =>
      case OpenExtraction(_) => PayingKeepsBalance(s.lab, spent, energy, since, now, cfg.extractionCost, cfg);
    }
  }

  /** Over any run, with or without collapses, the stored energy and all successful spending fit in the
      initial energy plus the regeneration of whole elapsed seconds. */
  lemma {:induction false} RunStaysBalanced(at: Position, actions: seq<Action>, tape: Tape, cfg: Config)
    requires Inv(at.state, cfg)
    ensures Balanced(Run(at, actions, tape, cfg).state.lab, TotalSpending(at, actions, tape, cfg),
                     at.state.lab.energyBase, at.state.lab.energyBaseAt, cfg)
  {
    if |actions| > 0 {
      var init, a := actions[..|actions| - 1], actions[|actions| - 1];
      RunStaysBalanced(at, init, tape, cfg);
      RunKeepsInvariant(at, init, tape, cfg);
      var middle := Run(at, init, tape, cfg);
      var spent := TotalSpending(at, init, tape, cfg);
      if Resolve(middle, a.now, tape, cfg).Some? {
        assert Clock(middle.state) <= a.now;
        TickKeepsBalance(middle.state, spent, at.state.lab.energyBase, at.state.lab.energyBaseAt, a.now, tape, middle.pos, cfg);
        if a.CommandAt? {
          var resolved := Resolve(middle, a.now, tape, cfg).value;
          CommandKeepsBalance(resolved.state, a.command, spent, at.state.lab.energyBase, at.state.lab.energyBaseAt,
                              a.now, tape, resolved.pos, cfg);
        }
      }
    }
  }

  /** At any time after any run, what is left and what was spent never exceed what there ever was. */
  lemma SpendingIsCovered(at: Position, actions: seq<Action>, now: Time, tape: Tape, cfg: Config)
    requires Inv(at.state, cfg) && Clock(Run(at, actions, tape, cfg).state) <= now
    ensures TotalSpending(at, actions, tape, cfg) + Run(at, actions, tape, cfg).state.lab.CurrentEnergy(now, cfg)
            <= Budget(at.state.lab.energyBase, at.state.lab.energyBaseAt, now, cfg)
  {
    RunStaysBalanced(at, actions, tape, cfg);
    RunKeepsInvariant(at, actions, tape, cfg);
    DerivedWithinBudget(Run(at, actions, tape, cfg).state.lab, TotalSpending(at, actions, tape, cfg),
                        at.state.lab.energyBase, at.state.lab.energyBaseAt, now, cfg);
  }
}

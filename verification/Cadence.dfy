/** When whole ticks may be merged: a tick that finds nothing to synchronize and leaves the generator alone
    can be skipped; one that synchronizes a portal which ends before the next tick cannot. */
module Cadence {
  import opened Base
  import opened Randomness
  import opened Sorting
  import opened Portals
  import opened Observers
  import opened States
  import opened Commands
  import opened Ticks
  import opened Invariants
  import opened Composition
  import opened Homecomings

  // ---------------------------------------------------------------- stages that ignore the resolution time

  lemma SyncIgnoresUpdatedAt(p: Portal, q: Portal, os: seq<Observer>, now: Time, tape: Tape, pos: nat, cfg: Config)
    requires Essence(p) == Essence(q)
    ensures var a, b := Synchronize(p, os, now, tape, pos, cfg), Synchronize(q, os, now, tape, pos, cfg);
            && (a.Err? ==> b == Err(a.error))
            && (a.Ok? ==> b.Ok? && Essence(a.value.portal) == Essence(b.value.portal)
                          && a.value.observers == b.value.observers && a.value.pos == b.value.pos)
  {
    SameMark(p, q, cfg);
  }

  lemma SameMark(p: Portal, q: Portal, cfg: Config)
    requires Essence(p) == Essence(q)
    ensures MarkSynced(p, cfg) == MarkSynced(q, cfg)
    ensures p.kind == q.kind && p.status == q.status && p.syncedAt == q.syncedAt && p.openedAt == q.openedAt && p.plane == q.plane
  {
    assert MarkSynced(p, cfg) == MarkSynced(Essence(p), cfg) && MarkSynced(q, cfg) == MarkSynced(Essence(q), cfg);
  }

  ghost predicate SameExtraction(a: Result<Extracted>, b: Result<Extracted>) {
    && (a.Err? ==> b == Err(a.error))
    && (a.Ok? ==> b.Ok? && SamePortals(a.value.portals, b.value.portals)
                  && a.value.observers == b.value.observers && a.value.pos == b.value.pos)
  }

  lemma {:induction false} SyncAllIgnoresUpdatedAt(ps: seq<Portal>, qs: seq<Portal>, os: seq<Observer>, order: seq<nat>, now: Time, tape: Tape, pos: nat, cfg: Config)
    requires SamePortals(ps, qs) && forall x :: x in order ==> x < |ps|
    ensures SameExtraction(SynchronizeAll(ps, os, order, now, tape, pos, cfg), SynchronizeAll(qs, os, order, now, tape, pos, cfg))
    decreases |order|
  {
    if |order| > 0 {
      var k := order[0];
      assert k in order && forall x :: x in order[1..] ==> x in order;
      SyncIgnoresUpdatedAt(ps[k], qs[k], os, now, tape, pos, cfg);
      var a, b := Synchronize(ps[k], os, now, tape, pos, cfg), Synchronize(qs[k], os, now, tape, pos, cfg);
      if a.Ok? {
        SyncAllIgnoresUpdatedAt(ps[k := a.value.portal], qs[k := b.value.portal], a.value.observers, order[1..], now, tape, a.value.pos, cfg);
      }
    }
  }

  lemma {:induction false} SameIndices(ps: seq<Portal>, qs: seq<Portal>)
    requires SamePortals(ps, qs)
    ensures ExtractionIndices(ps) == ExtractionIndices(qs) && CountOpen(ps) == CountOpen(qs)
  {
    if |ps| > 0 {
      SameIndices(ps[..|ps| - 1], qs[..|qs| - 1]);
      assert Essence(ps[|ps| - 1]) == Essence(qs[|qs| - 1]);
      assert ps[|ps| - 1].kind == Essence(ps[|ps| - 1]).kind && qs[|qs| - 1].kind == Essence(qs[|qs| - 1]).kind;
      assert ps[|ps| - 1].status == Essence(ps[|ps| - 1]).status && qs[|qs| - 1].status == Essence(qs[|qs| - 1]).status;
    }
  }

  lemma SameOrder(ps: seq<Portal>, qs: seq<Portal>)
    requires SamePortals(ps, qs)
    ensures ExtractionOrder(ps) == ExtractionOrder(qs)
  {
    SameIndices(ps, qs);
    forall a: nat, b: nat ensures PortalBefore(ps)(a, b) == PortalBefore(qs)(a, b) {
      if a < |ps| && b < |ps| {
        assert ps[a].id == Essence(ps[a]).id == Essence(qs[a]).id == qs[a].id;
        assert ps[b].id == Essence(ps[b]).id == Essence(qs[b]).id == qs[b].id;
      }
    }
    SortBySameOrder(ExtractionIndices(ps), PortalBefore(ps), PortalBefore(qs));
  }

  lemma SameSlots(ps: seq<Portal>, qs: seq<Portal>)
    requires SamePortals(ps, qs)
    ensures OpenSlots(ps) == OpenSlots(qs)
  {
    forall i | 0 <= i < |ps| ensures ps[i].status == qs[i].status && ps[i].slot == qs[i].slot {
      assert ps[i].status == Essence(ps[i]).status && qs[i].status == Essence(qs[i]).status;
      assert ps[i].slot == Essence(ps[i]).slot && qs[i].slot == Essence(qs[i]).slot;
    }
  }

  /** Equal in everything but the resolution time of portals and the date of the last tick. */
  ghost predicate Alike(a: State, b: State) {
    Equivalent(a, b.(lastTickAt := a.lastTickAt))
  }

  ghost predicate SameSpawned(a: Result<Spawned>, b: Result<Spawned>) {
    && (a.Err? ==> b == Err(a.error))
    && (a.Ok? ==> b.Ok? && Alike(a.value.state, b.value.state) && a.value.pos == b.value.pos && a.value.portalID == b.value.portalID)
  }

  lemma SpawnIgnoresUpdatedAt(a: State, b: State, now: Time, tape: Tape, pos: nat, cfg: Config)
    requires Alike(a, b) && |a.planes| > 0
    ensures SameSpawned(NaturalSpawn(a, now, tape, pos, cfg), NaturalSpawn(b, now, tape, pos, cfg))
  {
    SameIndices(a.portals, b.portals);
    SameSlots(a.portals, b.portals);
  }

  /** What follows the first two stages of a tick. */
  function LaterStages(mid: State, now: Time, tape: Tape, pos: nat, cfg: Config): Result<Ticked>
    requires |mid.planes| > 0
  {
    match SynchronizeAll(mid.portals, mid.observers, ExtractionOrder(mid.portals), now, tape, pos, cfg)
    case Err(e) => Err(e)
    case Ok(x) =>
      match NaturalSpawn(mid.(portals := x.portals, observers := x.observers), now, tape, x.pos, cfg)
      case Err(e) => Err(e)
      case Ok(sp) => Ok(Ticked(sp.state.(lastTickAt := Some(now)), sp.pos, sp.portalID))
  }

  /** A state without the resolution times of its portals. */
  function Timeless(s: State): State {
    s.(portals := seq(|s.portals|, i requires 0 <= i < |s.portals| => Essence(s.portals[i])))
  }

  lemma EquivalentIsTimeless(a: State, b: State)
    ensures Equivalent(a, b) <==> Timeless(a) == Timeless(b)
  {
    if Timeless(a) == Timeless(b) {
      assert |Timeless(a).portals| == |a.portals| && |Timeless(b).portals| == |b.portals|;
      forall i | 0 <= i < |a.portals| ensures Essence(a.portals[i]) == Essence(b.portals[i]) {
        assert Timeless(a).portals[i] == Essence(a.portals[i]) && Timeless(b).portals[i] == Essence(b.portals[i]);
      }
    }
  }

  function TimelessTick(r: Result<Ticked>): Result<Ticked> {
    match r
    case Err(e) => Err(e)
    case Ok(t) => Ok(Ticked(Timeless(t.state), t.pos, t.spawnedID))
  }

  /** The two ticks fail alike, or draw and spawn alike and leave equivalent states. */
  predicate SameTick(a: Result<Ticked>, b: Result<Ticked>) {
    TimelessTick(a) == TimelessTick(b)
  }

  lemma LaterStagesIgnoreUpdatedAt(a: State, b: State, now: Time, tape: Tape, pos: nat, cfg: Config)
    requires Alike(a, b) && |a.planes| > 0
    ensures SameTick(LaterStages(a, now, tape, pos, cfg), LaterStages(b, now, tape, pos, cfg))
  {
    SameOrder(a.portals, b.portals);
    SyncAllIgnoresUpdatedAt(a.portals, b.portals, a.observers, ExtractionOrder(a.portals), now, tape, pos, cfg);
    var x := SynchronizeAll(a.portals, a.observers, ExtractionOrder(a.portals), now, tape, pos, cfg);
    var y := SynchronizeAll(b.portals, b.observers, ExtractionOrder(b.portals), now, tape, pos, cfg);
    if x.Ok? {
      SpawnIgnoresUpdatedAt(a.(portals := x.value.portals, observers := x.value.observers),
                            b.(portals := y.value.portals, observers := y.value.observers), now, tape, x.value.pos, cfg);
      var p, q := LaterStages(a, now, tape, pos, cfg), LaterStages(b, now, tape, pos, cfg);
      if p.Ok? {
        EquivalentIsTimeless(p.value.state, q.value.state);
      }
    }
  }

  // ---------------------------------------------------------------- ticks that can be skipped

  /** The generator neither pauses, reschedules nor spawns with this many open portals. */
  predicate SpawnIdle(spawn: Spawn, open: nat, now: Time, cfg: Config) {
    if open >= cfg.maxActivePortals then spawn == PAUSED else !spawn.paused && !SpawnDue(spawn, now)
  }

  /** A tick at `now` would synchronize nothing and leave the generator as it is. */
  ghost predicate Idle(s: State, now: Time, cfg: Config) {
    && NothingDue(PortalsAfter(s.portals, now), now, cfg)
    && SpawnIdle(s.spawn, CountOpen(PortalsAfter(s.portals, now)), now, cfg)
  }

  lemma {:induction false} NothingToSync(ps: seq<Portal>, os: seq<Observer>, planes: seq<Plane>, next: int, order: seq<nat>, now: Time, tape: Tape, pos: nat, cfg: Config)
    requires StageInv(ps, os, planes, next, now, cfg) && NothingDue(ps, now, cfg)
    requires forall x :: x in order ==> x < |ps| && ps[x].kind == Extraction
    ensures SynchronizeAll(ps, os, order, now, tape, pos, cfg) == Ok(Extracted(ps, os, pos))
    decreases |order|
  {
    if |order| > 0 {
      var k := order[0];
      assert k in order && forall x :: x in order[1..] ==> x in order;
      SynchronizeOutcome(ps, os, planes, next, k, now, tape, pos, cfg);
      assert ps[k := ps[k]] == ps;
      NothingToSync(ps, os, planes, next, order[1..], now, tape, pos, cfg);
    }
  }

  lemma IdleStages(mid: State, now: Time, tape: Tape, pos: nat, cfg: Config)
    requires MidInv(mid, now, cfg) && NothingDue(mid.portals, now, cfg)
    requires SpawnIdle(mid.spawn, CountOpen(mid.portals), now, cfg)
    ensures LaterStages(mid, now, tape, pos, cfg) == Ok(Ticked(mid.(lastTickAt := Some(now)), pos, None))
  {
    NothingToSync(mid.portals, mid.observers, mid.planes, mid.nextPortalID, ExtractionOrder(mid.portals), now, tape, pos, cfg);
  }

  lemma TickIsItsStages(s: State, now: Time, tape: Tape, pos: nat, cfg: Config)
    requires Inv(s, cfg) && Clock(s) <= now && s.lastTickAt != Some(now)
    ensures Tick(s, now, tape, pos, cfg) == LaterStages(MidTick(s, now, cfg), now, tape, pos, cfg)
  {
    InvIsValid(s, Clock(s), now, cfg);
    CollapsesAreBookable(s.lab, s.portals, s.planes, s.nextPortalID, Clock(s), now, cfg);
  }

  /** An idle tick only resolves: it draws nothing, synchronizes nothing and schedules nothing. */
  lemma IdleTick(s: State, now: Time, tape: Tape, pos: nat, cfg: Config)
    requires Inv(s, cfg) && Clock(s) <= now && s.lastTickAt != Some(now) && Idle(s, now, cfg)
    ensures Tick(s, now, tape, pos, cfg) == Ok(Ticked(MidTick(s, now, cfg).(lastTickAt := Some(now)), pos, None))
  {
    TickIsItsStages(s, now, tape, pos, cfg);
    MidTickKeeps(s, Clock(s), now, cfg);
    IdleStages(MidTick(s, now, cfg), now, tape, pos, cfg);
  }

  lemma IdleStateComposes(s: State, t1: Time, t2: Time, cfg: Config)
    requires Inv(s, cfg) && Clock(s) <= t1 <= t2
    ensures Alike(MidTick(MidTick(s, t1, cfg).(lastTickAt := Some(t1)), t2, cfg), MidTick(s, t2, cfg))
    ensures |MidTick(s, t2, cfg).planes| > 0
  {
    StagesCompose(s, Clock(s), t1, t2, cfg);
  }

  /** An idle tick before another makes no difference: skipping it leaves the same result, up to the
      resolution time of portals. */
  lemma IdleTickMayBeSkipped(s: State, t1: Time, t2: Time, tape: Tape, pos: nat, cfg: Config)
    requires Inv(s, cfg) && Clock(s) <= t1 < t2 && s.lastTickAt != Some(t1) && Idle(s, t1, cfg)
    ensures Tick(s, t1, tape, pos, cfg).Ok? && Tick(s, t1, tape, pos, cfg).value.pos == pos
    ensures SameTick(Tick(Tick(s, t1, tape, pos, cfg).value.state, t2, tape, pos, cfg), Tick(s, t2, tape, pos, cfg))
  {
    IdleTick(s, t1, tape, pos, cfg);
    TickKeepsInvariant(s, t1, tape, pos, cfg);
    var s1 := Tick(s, t1, tape, pos, cfg).value.state;
    TickIsItsStages(s, t2, tape, pos, cfg);
    TickIsItsStages(s1, t2, tape, pos, cfg);
    IdleStateComposes(s, t1, t2, cfg);
    LaterStagesIgnoreUpdatedAt(MidTick(s1, t2, cfg), MidTick(s, t2, cfg), t2, tape, pos, cfg);
  }

  /** Ticks at each of the given instants in turn. */
  function RunTicks(s: State, times: seq<Time>, tape: Tape, pos: nat, cfg: Config): Result<Ticked>
    requires |times| > 0
    decreases |times|
  {
    match Tick(s, times[0], tape, pos, cfg)
    case Err(e) => Err(e)
    case Ok(t) => if |times| == 1 then Ok(t) else RunTicks(t.state, times[1..], tape, t.pos, cfg)
  }

  /** What is idle later is so too seen from an idle tick in between. */
  lemma StaysIdle(s: State, t1: Time, t2: Time, cfg: Config)
    requires t1 <= t2 && Idle(s, t2, cfg)
    ensures Idle(MidTick(s, t1, cfg).(lastTickAt := Some(t1)), t2, cfg)
  {
    var ps, qs := PortalsAfter(PortalsAfter(s.portals, t1), t2), PortalsAfter(s.portals, t2);
    forall i | 0 <= i < |ps| ensures Essence(ps[i]) == Essence(qs[i]) {
      ResolveTwice(s.portals[i], t1, t2);
    }
    SameIndices(ps, qs);
    forall i | 0 <= i < |ps| ensures !SyncDue(ps[i], t2, cfg) {
      SameSyncDue(ps[i], qs[i], t2, cfg);
    }
  }

  lemma SameSyncDue(p: Portal, q: Portal, now: Time, cfg: Config)
    requires Essence(p) == Essence(q)
    ensures SyncDue(p, now, cfg) == SyncDue(q, now, cfg)
  {
    assert SyncDue(p, now, cfg) == SyncDue(Essence(p), now, cfg) && SyncDue(q, now, cfg) == SyncDue(Essence(q), now, cfg);
  }

  ghost predicate Ascending(times: seq<Time>) {
    forall i, j :: 0 <= i < j < |times| ==> times[i] < times[j]
  }

  lemma AscendingRest(times: seq<Time>)
    requires |times| > 1 && Ascending(times)
    ensures times[0] < times[1..][0] && times[0] < times[|times| - 1] && Ascending(times[1..])
  {
  }

  ghost predicate IdleButLast(s: State, times: seq<Time>, cfg: Config) {
    forall k :: 0 <= k < |times| - 1 ==> Idle(s, times[k], cfg)
  }

  lemma TheRestStaysIdle(s: State, times: seq<Time>, cfg: Config)
    requires |times| > 1 && IdleButLast(s, times, cfg) && Ascending(times)
    ensures IdleButLast(MidTick(s, times[0], cfg).(lastTickAt := Some(times[0])), times[1..], cfg)
  {
    var rest := times[1..];
    forall k | 0 <= k < |rest| - 1 ensures Idle(MidTick(s, times[0], cfg).(lastTickAt := Some(times[0])), rest[k], cfg) {
      StaysIdle(s, times[0], times[k + 1], cfg);
    }
  }

  /** The first of several idle ticks leaves a state from which the others are idle too, and may be skipped. */
  lemma FirstMayBeSkipped(s: State, times: seq<Time>, last: Time, tape: Tape, pos: nat, cfg: Config) returns (s1: State)
    requires Inv(s, cfg) && |times| > 1 && Clock(s) <= times[0] < last && s.lastTickAt != Some(times[0])
    requires Ascending(times)
    requires IdleButLast(s, times, cfg)
    ensures Tick(s, times[0], tape, pos, cfg) == Ok(Ticked(s1, pos, None))
    ensures Inv(s1, cfg) && s1.lastTickAt == Some(times[0]) && IdleButLast(s1, times[1..], cfg)
    ensures SameTick(Tick(s1, last, tape, pos, cfg), Tick(s, last, tape, pos, cfg))
  {
    s1 := MidTick(s, times[0], cfg).(lastTickAt := Some(times[0]));
    IdleTick(s, times[0], tape, pos, cfg);
    TickKeepsInvariant(s, times[0], tape, pos, cfg);
    IdleTickMayBeSkipped(s, times[0], last, tape, pos, cfg);
    TheRestStaysIdle(s, times, cfg);
  }

  /** Any number of idle ticks may be skipped: only the last tick matters. */
  lemma {:induction false} IdleTicksMayBeSkipped(s: State, times: seq<Time>, last: Time, tape: Tape, pos: nat, cfg: Config)
    requires Inv(s, cfg) && |times| > 0 && Clock(s) <= times[0] && s.lastTickAt != Some(times[0])
    requires last == times[|times| - 1] && Ascending(times)
    requires IdleButLast(s, times, cfg)
    ensures SameTick(RunTicks(s, times, tape, pos, cfg), Tick(s, last, tape, pos, cfg))
    decreases |times|
  {
    if |times| > 1 {
      AscendingRest(times);
      var s1 := FirstMayBeSkipped(s, times, last, tape, pos, cfg);
      IdleTicksMayBeSkipped(s1, times[1..], last, tape, pos, cfg);
    }
  }

  // ---------------------------------------------------------------- ticks that cannot

  lemma TickSynchronizes(s: State, now: Time, x: nat, tape: Tape, pos: nat, cfg: Config)
    requires Inv(s, cfg) && Clock(s) <= now && s.lastTickAt != Some(now) && Tick(s, now, tape, pos, cfg).Ok?
    requires x < |s.portals| && (s.portals[x].syncedAt.Some? || SyncDue(s.portals[x].ResolveLifecycle(now), now, cfg))
    ensures var s' := Tick(s, now, tape, pos, cfg).value.state; x < |s'.portals| && s'.portals[x].syncedAt.Some?
  {
    TickOnPortals(s, now, tape, pos, cfg);
  }

  lemma TickEndsUnsynchronized(s: State, now: Time, x: nat, tape: Tape, pos: nat, cfg: Config)
    requires Inv(s, cfg) && Clock(s) <= now && s.lastTickAt != Some(now) && Tick(s, now, tape, pos, cfg).Ok?
    requires x < |s.portals| && s.portals[x].syncedAt.None? && s.portals[x].Deadline() <= now
    ensures var s' := Tick(s, now, tape, pos, cfg).value.state;
            x < |s'.portals| && s'.portals[x].syncedAt.None? && s'.portals[x].status != Open
  {
    TickOnPortals(s, now, tape, pos, cfg);
  }

  /** A portal due at the first instant that ends by the second is synchronized by the first tick, but never
      by a single tick at the second, whatever is drawn. */
  lemma LateTickNeverSynchronizes(s: State, t1: Time, t2: Time, x: nat, tape: Tape, pos: nat, late: Tape, latePos: nat, cfg: Config)
    requires Inv(s, cfg) && Clock(s) <= t1 < t2 && s.lastTickAt != Some(t1) && x < |s.portals|
    requires SyncDue(s.portals[x].ResolveLifecycle(t1), t1, cfg) && s.portals[x].Deadline() <= t2
    requires Tick(s, t1, tape, pos, cfg).Ok? && Tick(s, t2, late, latePos, cfg).Ok?
    requires var first := Tick(s, t1, tape, pos, cfg).value; Tick(first.state, t2, tape, first.pos, cfg).Ok?
    ensures var first := Tick(s, t1, tape, pos, cfg).value;
            var both, single := Tick(first.state, t2, tape, first.pos, cfg).value.state, Tick(s, t2, late, latePos, cfg).value.state;
            && x < |both.portals| && x < |single.portals|
            && both.portals[x].syncedAt.Some? && single.portals[x].syncedAt.None? && single.portals[x].status != Open
            && !Equivalent(both, single)
  {
    var first := Tick(s, t1, tape, pos, cfg).value;
    TickSynchronizes(s, t1, x, tape, pos, cfg);
    TickKeepsInvariant(s, t1, tape, pos, cfg);
    TickSynchronizes(first.state, t2, x, tape, first.pos, cfg);
    TickEndsUnsynchronized(s, t2, x, late, latePos, cfg);
    var both, single := Tick(first.state, t2, tape, first.pos, cfg).value.state, Tick(s, t2, late, latePos, cfg).value.state;
    Differ(both, single, x);
  }

  lemma Differ(a: State, b: State, x: nat)
    requires x < |a.portals| && x < |b.portals| && a.portals[x].syncedAt != b.portals[x].syncedAt
    ensures !Equivalent(a, b)
  {
    assert Essence(a.portals[x]).syncedAt != Essence(b.portals[x]).syncedAt;
  }
}

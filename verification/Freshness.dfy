/** When a tick leaves a transit overdue, so that the roster check of the next command refuses it. */
module Freshness {
  import opened Base
  import opened Randomness
  import opened Portals
  import opened Observers
  import opened States
  import opened Ticks
  import opened Invariants
  import opened Guarantees
  import opened Availability
  import opened Homecomings

  /** Each portal that sends somebody home synchronized less than the shortest transit ago. */
  ghost predicate ReturnsRun(ps: seq<Portal>, os: seq<Observer>, now: Time, cfg: Config) {
    forall x: nat :: Sends(ps, os, x, now, cfg) ==> now < SyncMoment(ps[x], cfg) + cfg.observerTransitMin
  }

  /** Some portal that sends somebody home synchronized the longest transit ago, or earlier. */
  ghost predicate ReturnLapses(ps: seq<Portal>, os: seq<Observer>, now: Time, cfg: Config) {
    exists x: nat :: Sends(ps, os, x, now, cfg) && SyncMoment(ps[x], cfg) + cfg.observerTransitMax <= now
  }

  ghost predicate AllRunning(os: seq<Observer>, now: Time) {
    forall i :: 0 <= i < |os| && os[i].InTransit() ==> os[i].endsAt.Some? && now < os[i].endsAt.value
  }

  lemma DrawnWithin(o: Observer, tape: Tape, cfg: Config)
    requires DrawnTransit(o, tape, cfg)
    ensures o.startedAt.value + cfg.observerTransitMin <= o.endsAt.value <= o.startedAt.value + cfg.observerTransitMax
    ensures tape == MINIMAL ==> o.endsAt.value == o.startedAt.value + cfg.observerTransitMin
  {
    var pos: nat :| o.endsAt.value == o.startedAt.value + TransitSeconds(tape, pos, cfg) * SECOND;
    TransitSecondsInRange(tape, pos, cfg);
    MinimalDraws(pos, cfg.observerTransitMin / SECOND, cfg.observerTransitMax / SECOND, 0.0, 0.0);
  }

  /** Whether everyone is under way after the stage is decided by those it sent home. */
  lemma RidersDecide(ps: seq<Portal>, os: seq<Observer>, os': seq<Observer>, rider: map<nat, nat>, now: Time, tape: Tape, cfg: Config)
    requires Assigns(ps, os, os', rider, now, tape, cfg) && AllRunning(os, now)
    ensures ReturnsRun(ps, os, now, cfg) ==> AllRunning(os', now)
    ensures ReturnLapses(ps, os, now, cfg) ==> !AllRunning(os', now)
    ensures tape == MINIMAL && !ReturnsRun(ps, os, now, cfg) ==> !AllRunning(os', now)
  {
    forall x | x in rider
      ensures var i := rider[x];
              && SyncMoment(ps[x], cfg) + cfg.observerTransitMin <= os'[i].endsAt.value <= SyncMoment(ps[x], cfg) + cfg.observerTransitMax
              && (tape == MINIMAL ==> os'[i].endsAt.value == SyncMoment(ps[x], cfg) + cfg.observerTransitMin)
    {
      DrawnWithin(os'[rider[x]], tape, cfg);
    }
    if ReturnsRun(ps, os, now, cfg) {
      forall i | 0 <= i < |os'| && os'[i].InTransit() ensures os'[i].endsAt.Some? && now < os'[i].endsAt.value {
        if os'[i] != os[i] {
          var x :| x in rider && rider[x] == i;
          assert Sends(ps, os, x, now, cfg);
        }
      }
    }
    if ReturnLapses(ps, os, now, cfg) {
      var x: nat :| Sends(ps, os, x, now, cfg) && SyncMoment(ps[x], cfg) + cfg.observerTransitMax <= now;
      assert x in rider && os'[rider[x]].InTransit();
    }
    if tape == MINIMAL && !ReturnsRun(ps, os, now, cfg) {
      var x: nat :| Sends(ps, os, x, now, cfg) && !(now < SyncMoment(ps[x], cfg) + cfg.observerTransitMin);
      assert x in rider && os'[rider[x]].InTransit();
    }
  }

  /** No return the tick starts can be over before the tick is. */
  ghost predicate NoReturnOverdue(s: State, now: Time, cfg: Config) {
    ReturnsRun(MidTick(s, now, cfg).portals, MidTick(s, now, cfg).observers, now, cfg)
  }

  /** Some return the tick starts is over by then however long it lasts. */
  ghost predicate SomeReturnLapsed(s: State, now: Time, cfg: Config) {
    ReturnLapses(MidTick(s, now, cfg).portals, MidTick(s, now, cfg).observers, now, cfg)
  }

  lemma FreshIsRunning(s: State, now: Time)
    ensures Fresh(s, now) <==> AllRunning(s.observers, now)
  {
  }

  /** What one tick leaves, for one source. */
  lemma TickFreshness(s: State, now: Time, tape: Tape, pos: nat, cfg: Config)
    requires Inv(s, cfg) && Clock(s) <= now && s.lastTickAt != Some(now) && Tick(s, now, tape, pos, cfg).Ok?
    ensures var s' := Tick(s, now, tape, pos, cfg).value.state;
            && (NoReturnOverdue(s, now, cfg) ==> Fresh(s', now))
            && (SomeReturnLapsed(s, now, cfg) ==> !Fresh(s', now))
            && (tape == MINIMAL && !NoReturnOverdue(s, now, cfg) ==> !Fresh(s', now))
  {
    MidTickIsFresh(s, now, cfg);
    var rider := TickSendsHome(s, now, tape, pos, cfg);
    var os' := Tick(s, now, tape, pos, cfg).value.state.observers;
    assert AllRunning(MidTick(s, now, cfg).observers, now);
    RidersDecide(MidTick(s, now, cfg).portals, MidTick(s, now, cfg).observers, os', rider, now, tape, cfg);
    FreshIsRunning(Tick(s, now, tape, pos, cfg).value.state, now);
  }

  /** A tick leaves every transit running, whatever is drawn, exactly if no portal that sends somebody home
      synchronized as long ago as the shortest transit lasts. */
  lemma FreshForEveryDraw(s: State, now: Time, cfg: Config)
    requires Inv(s, cfg) && Clock(s) <= now && s.lastTickAt != Some(now) && !SyncImpossible(s, now, cfg)
    ensures (forall tape: Tape, pos: nat :: Tick(s, now, tape, pos, cfg).Ok? && Fresh(Tick(s, now, tape, pos, cfg).value.state, now))
            <==> NoReturnOverdue(s, now, cfg)
  {
    forall tape: Tape, pos: nat
      ensures Tick(s, now, tape, pos, cfg).Ok?
      ensures NoReturnOverdue(s, now, cfg) ==> Fresh(Tick(s, now, tape, pos, cfg).value.state, now)
    {
      TickKeepsInvariant(s, now, tape, pos, cfg);
      TickFreshness(s, now, tape, pos, cfg);
    }
    TickFreshness(s, now, MINIMAL, 0, cfg);
  }
}

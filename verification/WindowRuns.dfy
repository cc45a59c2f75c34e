/** Over whole histories the log always tells whether the emergency window is on. */
module WindowRuns {
  import opened Base
  import opened Randomness
  import opened Sorting
  import opened Portals
  import opened Labs
  import opened Observers
  import opened States
  import opened Commands
  import opened Ticks
  import opened Invariants
  import opened CommandInvariants
  import opened Runs
  import opened Events
  import opened EventOrder
  import opened Traces
  import opened OverrideLog
  import opened Journals

  // ---------------------------------------------------------------- later stages end no portal

  lemma {:induction false} SynchronizeAllKeepsEnds(ps: seq<Portal>, os: seq<Observer>, order: seq<nat>, now: Time, tape: Tape, pos: nat, cfg: Config)
    requires forall x :: x in order ==> x < |ps|
    ensures var r := SynchronizeAll(ps, os, order, now, tape, pos, cfg);
            r.Ok? ==> SameEnds(ps, r.value.portals)
    decreases |order|
  {
    if |order| > 0 {
      assert order[0] in order && forall x :: x in order[1..] ==> x in order;
      var k := order[0];
      var first := Synchronize(ps[k], os, now, tape, pos, cfg);
      if first.Ok? {
        assert SameEnd(ps[k], first.value.portal);
        var ps' := ps[k := first.value.portal];
        SynchronizeAllKeepsEnds(ps', first.value.observers, order[1..], now, tape, first.value.pos, cfg);
        var r := SynchronizeAll(ps', first.value.observers, order[1..], now, tape, first.value.pos, cfg);
        if r.Ok? {
          forall j | 0 <= j < |ps| ensures SameEnd(ps[j], r.value.portals[j]) {
            assert SameEnd(ps'[j], r.value.portals[j]);
          }
        }
      }
    }
  }

  lemma SpawnKeepsEnds(s: State, now: Time, tape: Tape, pos: nat, cfg: Config)
    requires |s.planes| > 0 && NaturalSpawn(s, now, tape, pos, cfg).Ok?
    ensures SameEnds(s.portals, NaturalSpawn(s, now, tape, pos, cfg).value.state.portals)
  {
  }

  lemma SameEndsTransitively(a: seq<Portal>, b: seq<Portal>, c: seq<Portal>)
    requires SameEnds(a, b) && SameEnds(b, c)
    ensures SameEnds(a, c)
  {
  }

  lemma TickKeepsEnds(s: State, now: Time, tape: Tape, pos: nat, cfg: Config)
    requires Tick(s, now, tape, pos, cfg).Ok? && s.lastTickAt != Some(now)
    ensures SameEnds(PortalsAfter(s.portals, now), Tick(s, now, tape, pos, cfg).value.state.portals)
  {
    var mid := MidTick(s, now, cfg);
    StagesKeepEnds(mid, now, tape, pos, cfg);
  }

  lemma StagesKeepEnds(mid: State, now: Time, tape: Tape, pos: nat, cfg: Config)
    requires |mid.planes| > 0
    ensures var r := SynchronizeAll(mid.portals, mid.observers, ExtractionOrder(mid.portals), now, tape, pos, cfg);
            r.Ok? ==>
              var spawned := NaturalSpawn(mid.(portals := r.value.portals, observers := r.value.observers), now, tape, r.value.pos, cfg);
              spawned.Ok? ==> SameEnds(mid.portals, spawned.value.state.portals)
  {
    var order := ExtractionOrder(mid.portals);
    var r := SynchronizeAll(mid.portals, mid.observers, order, now, tape, pos, cfg);
    if r.Ok? {
      SynchronizeAllKeepsEnds(mid.portals, mid.observers, order, now, tape, pos, cfg);
      var synced := mid.(portals := r.value.portals, observers := r.value.observers);
      if NaturalSpawn(synced, now, tape, r.value.pos, cfg).Ok? {
        SpawnKeepsEnds(synced, now, tape, r.value.pos, cfg);
        SameEndsTransitively(mid.portals, synced.portals, NaturalSpawn(synced, now, tape, r.value.pos, cfg).value.state.portals);
      }
    }
  }

  lemma TickBooksTheCollapses(s: State, now: Time, tape: Tape, pos: nat, cfg: Config)
    requires Tick(s, now, tape, pos, cfg).Ok? && s.lastTickAt != Some(now)
    ensures Tick(s, now, tape, pos, cfg).value.state.lab == LabAfter(s.lab, s.portals, now, cfg)
  {
    StagesSettle(s, now, tape, pos, cfg);
  }

  // ---------------------------------------------------------------- the last window event of a log

  predicate IsWindowEvent(d: Draft) {
    d.kind == OverrideStarted || d.kind == OverrideEnded
  }

  /** Whether the last window event of a log is a start; None if there is no window event. */
  function LastWindowEvent(ds: seq<Draft>): Option<bool> {
    if |ds| == 0 then None
    else if IsWindowEvent(ds[|ds| - 1]) then Some(ds[|ds| - 1].kind == OverrideStarted)
    else LastWindowEvent(ds[..|ds| - 1])
  }

  lemma {:induction false} LastWindowEventConcat(xs: seq<Draft>, ys: seq<Draft>)
    ensures LastWindowEvent(xs + ys) == if LastWindowEvent(ys).Some? then LastWindowEvent(ys) else LastWindowEvent(xs)
    decreases |ys|
  {
    if |ys| == 0 {
      assert xs + ys == xs;
    } else {
      assert (xs + ys)[..|xs + ys| - 1] == xs + ys[..|ys| - 1];
      LastWindowEventConcat(xs, ys[..|ys| - 1]);
    }
  }

  /** In a sorted log the last window event is the last of the sorted window events. */
  lemma {:induction false} LastOfTheWindows(log: seq<Draft>, windows: seq<Draft>)
    requires StrictlySorted(log, LogOrder()) && StrictlySorted(windows, LogOrder())
    requires forall d :: d in windows <==> d in log && IsWindowEvent(d)
    ensures LastWindowEvent(log) == if |windows| == 0 then None else Some(EndsStarted(windows))
    decreases |log|
  {
    if |log| == 0 {
      HasElement(windows);
    } else {
      var init, last := log[..|log| - 1], log[|log| - 1];
      assert last in log;
      if IsWindowEvent(last) {
        assert last in windows;
        var top := windows[|windows| - 1];
        assert top in windows && top in log;
        var i :| 0 <= i < |log| && log[i] == top;
        var j :| 0 <= j < |windows| && windows[j] == last;
        assert i == |log| - 1 || LogOrder()(top, last);
        assert j == |windows| - 1 || LogOrder()(last, top);
        LogOrderIsStrict();
      } else {
        forall d ensures d in windows <==> d in init && IsWindowEvent(d) {
          if d in log {
            var i :| 0 <= i < |log| && log[i] == d;
            assert d == last || init[i] == d;
          }
        }
        LastOfTheWindows(init, windows);
      }
    }
  }

  lemma {:induction false} WindowEventsAfter(deadline: Option<Time>, start: Time, cs: seq<Collapse>, now: Time, cfg: Config)
    ensures forall d :: d in OverrideDrafts(deadline, start, cs, now, cfg) ==>
              || (exists c :: c in cs && d == StartedBy(c, cfg))
              || (exists c :: c in cs && d == EndedAt(c.at + cfg.emergencyDuration))
              || (deadline.Some? && start < deadline.value && d == EndedAt(deadline.value))
    decreases |cs|
  {
    if |cs| > 0 {
      WindowEventsAfter(Some(cs[0].at + cfg.emergencyDuration), cs[0].at, cs[1..], now, cfg);
      assert cs[0] in cs && forall x :: x in cs[1..] ==> x in cs;
    }
  }

  lemma StartPrecedes(c: Collapse, x: Collapse, cfg: Config)
    requires CollapseBefore()(c, x)
    ensures LogOrder()(StartedBy(c, cfg), StartedBy(x, cfg))
    ensures LogOrder()(StartedBy(c, cfg), EndedAt(x.at + cfg.emergencyDuration))
  {
  }

  lemma StartPrecedesTheRest(c: Collapse, rest: seq<Collapse>, now: Time, cfg: Config)
    requires forall x :: x in rest ==> CollapseBefore()(c, x)
    ensures forall d :: d in OverrideDrafts(Some(c.at + cfg.emergencyDuration), c.at, rest, now, cfg) ==>
              LogOrder()(StartedBy(c, cfg), d)
  {
    var until := c.at + cfg.emergencyDuration;
    WindowEventsAfter(Some(until), c.at, rest, now, cfg);
    forall d | d in OverrideDrafts(Some(until), c.at, rest, now, cfg) ensures LogOrder()(StartedBy(c, cfg), d) {
      if d != EndedAt(until) {
        var x :| x in rest && (d == StartedBy(x, cfg) || d == EndedAt(x.at + cfg.emergencyDuration));
        StartPrecedes(c, x, cfg);
      }
    }
  }

  lemma CollapseTail(cs: seq<Collapse>)
    requires StrictlySorted(cs, CollapseBefore()) && |cs| > 0
    ensures StrictlySorted(cs[1..], CollapseBefore()) && forall x :: x in cs[1..] ==> CollapseBefore()(cs[0], x)
  {
    forall x | x in cs[1..] ensures CollapseBefore()(cs[0], x) {
      var i :| 0 <= i < |cs[1..]| && cs[1..][i] == x;
      assert x == cs[i + 1];
    }
  }

  /** Window events are derived in the order the log sorts them in. */
  lemma {:induction false} WindowsInLogOrder(deadline: Option<Time>, start: Time, cs: seq<Collapse>, now: Time, cfg: Config)
    requires StrictlySorted(cs, CollapseBefore())
    ensures StrictlySorted(OverrideDrafts(deadline, start, cs, now, cfg), LogOrder())
    decreases |cs|
  {
    if |cs| > 0 {
      var c, rest := cs[0], cs[1..];
      CollapseTail(cs);
      var until := c.at + cfg.emergencyDuration;
      WindowsInLogOrder(Some(until), c.at, rest, now, cfg);
      StartPrecedesTheRest(c, rest, now, cfg);
      PrependWindow(EndedBy(deadline, start, c.at), StartedBy(c, cfg), OverrideDrafts(Some(until), c.at, rest, now, cfg));
      WindowsUnfold(deadline, start, cs, now, cfg);
    }
  }

  lemma PrependWindow(ended: seq<Draft>, started: Draft, later: seq<Draft>)
    requires |ended| <= 1 && forall d :: d in ended ==> LogOrder()(d, started)
    requires StrictlySorted(later, LogOrder()) && forall d :: d in later ==> LogOrder()(started, d)
    ensures StrictlySorted(ended + [started] + later, LogOrder())
  {
    LogOrderIsStrict();
    forall d, e | d in ended + [started] && e in later ensures LogOrder()(d, e) {
      assert LogOrder()(started, e);
    }
    JoinInLogOrder(ended + [started], later);
  }

  lemma JoinInLogOrder(xs: seq<Draft>, ys: seq<Draft>)
    requires StrictlySorted(xs, LogOrder()) && StrictlySorted(ys, LogOrder())
    requires forall d, e :: d in xs && e in ys ==> LogOrder()(d, e)
    ensures StrictlySorted(xs + ys, LogOrder())
  {
  }

  // ---------------------------------------------------------------- one transition

  lemma WindowMembers(t: Transition, cfg: Config)
    requires Identified(t)
    ensures forall d :: d in WindowsIn(t, cfg) <==> d in EventLog(t, cfg) && IsWindowEvent(d)
  {
    LogParts(t, cfg);
    assert forall d: Draft :: IsWindowEvent(d) <==> Source(d.kind) == 1;
  }

  /** The last window event of a transition's log is the last of its window events. */
  lemma LogEndsWithTheWindows(t: Transition, cfg: Config)
    requires Identified(t)
    ensures var windows := WindowsIn(t, cfg);
            LastWindowEvent(EventLog(t, cfg)) == if |windows| == 0 then None else Some(EndsStarted(windows))
  {
    LogIsStrict(t, cfg);
    WindowMembers(t, cfg);
    CollapsesAreSorted(t);
    WindowsInLogOrder(t.before.lab.overrideUntil, t.previousAt, CollapsesIn(t), t.now, cfg);
    LastOfTheWindows(EventLog(t, cfg), WindowsIn(t, cfg));
  }

  lemma CollapsesAreSorted(t: Transition)
    requires PositiveDistinctPortals(t.after.portals)
    ensures StrictlySorted(CollapsesIn(t), CollapseBefore())
  {
    IndicesVisit(|t.after.portals|);
    CollapsesAreDistinct(t, Indices(|t.after.portals|));
    CollapseOrderIsStrict();
    DistinctAreSeparate(VisitCollapses(t, Indices(|t.after.portals|)));
    SortStrictly(VisitCollapses(t, Indices(|t.after.portals|)), CollapseBefore());
  }

  /** The window in force began no later than the clock. */
  predicate WindowBegun(s: State, cfg: Config) {
    s.lab.overrideUntil.Some? ==> s.lab.overrideUntil.value <= Clock(s) + cfg.emergencyDuration
  }

  /** What a log says about the window at the end, given what was known at its start. */
  predicate Told(log: seq<Draft>, before: bool) {
    if LastWindowEvent(log).Some? then LastWindowEvent(log).value else before
  }

  lemma WindowsTellActivity(lab: Lab, lab': Lab, from: Time, cs: seq<Collapse>, now: Time, cfg: Config)
    requires from <= now && Within(cs, from, now) && Chronicle(cs)
    requires lab'.overrideUntil == DeadlineAfter(lab.overrideUntil, cs, cfg)
    requires lab.overrideUntil.Some? ==> lab.overrideUntil.value <= from + cfg.emergencyDuration
    ensures var windows := OverrideDrafts(lab.overrideUntil, from, cs, now, cfg);
            lab'.OverrideActive(now, cfg) <==> if |windows| > 0 then EndsStarted(windows) else lab.OverrideActive(from, cfg)
    ensures lab'.overrideUntil.Some? ==> lab'.overrideUntil.value <= now + cfg.emergencyDuration
  {
    WindowsTellTheDeadline(lab.overrideUntil, from, cs, now, cfg);
    assert |cs| > 0 ==> from <= cs[|cs| - 1].at <= now;
  }

  lemma ListedWithin(cs: seq<Collapse>, ps: seq<Portal>, from: Time, now: Time)
    requires forall c :: c in cs <==> Collapsing(ps, now, c)
    requires forall c :: Collapsing(ps, now, c) ==> from <= c.at <= now
    ensures Within(cs, from, now)
  {
  }

  lemma TransitionTellsTheWindow(t: Transition, cfg: Config)
    requires Identified(t) && EndsAtPortalStage(t, t.now) && t.previousAt <= t.now
    requires forall c :: Collapsing(t.before.portals, t.now, c) ==> t.previousAt <= c.at <= t.now
    requires t.after.lab == LabAfter(t.before.lab, t.before.portals, t.now, cfg)
    requires t.before.lab.overrideUntil.Some? ==> t.before.lab.overrideUntil.value <= t.previousAt + cfg.emergencyDuration
    ensures t.after.lab.OverrideActive(t.now, cfg) <==> Told(EventLog(t, cfg), t.before.lab.OverrideActive(t.previousAt, cfg))
    ensures t.after.lab.overrideUntil.Some? ==> t.after.lab.overrideUntil.value <= t.now + cfg.emergencyDuration
  {
    var cs := CollapsesIn(t);
    LogEndsWithTheWindows(t, cfg);
    CollapsesAreListed(t, t.now);
    ListedWithin(cs, t.before.portals, t.previousAt, t.now);
    LastIsLatest(t.before.portals, cs, t.now);
    DeadlineOfLast(t.before.lab, cs, cfg);
    WindowsTellActivity(t.before.lab, t.after.lab, t.previousAt, cs, t.now, cfg);
  }

  lemma TickTellsTheWindow(s: State, now: Time, tape: Tape, pos: nat, cfg: Config)
    requires Inv(s, cfg) && Clock(s) <= now && s.lastTickAt != Some(now) && WindowBegun(s, cfg)
    requires Tick(s, now, tape, pos, cfg).Ok?
    ensures var s' := Tick(s, now, tape, pos, cfg).value.state;
            var log := EventLog(Transition(s, s', Clock(s), now), cfg);
            && (s'.lab.OverrideActive(now, cfg) <==> Told(log, s.lab.OverrideActive(Clock(s), cfg)))
            && (s'.lab.overrideUntil.Some? ==> s'.lab.overrideUntil.value <= now + cfg.emergencyDuration)
  {
    var s' := Tick(s, now, tape, pos, cfg).value.state;
    TickKeepsInvariant(s, now, tape, pos, cfg);
    InvariantIsIdentified(s, Clock(s), cfg);
    InvariantIsIdentified(s', now, cfg);
    TickKeepsEnds(s, now, tape, pos, cfg);
    TickBooksTheCollapses(s, now, tape, pos, cfg);
    CollapsesAreDated(s, Clock(s), now, cfg);
    TransitionTellsTheWindow(Transition(s, s', Clock(s), now), cfg);
  }

  // ---------------------------------------------------------------- commands

  ghost predicate CollapsesNothing(ps: seq<Portal>, qs: seq<Portal>) {
    forall k :: 0 <= k < |qs| && qs[k].status == Collapsed ==> k < |ps| && qs[k] == ps[k]
  }

  ghost predicate NoWindow(s: State, s': State) {
    CollapsesNothing(s.portals, s'.portals) && s'.lab.overrideUntil == s.lab.overrideUntil && s'.lastTickAt == s.lastTickAt
  }

  lemma CloseOpensNoWindow(s: State, id: int, confirm: bool, now: Time, tape: Tape, pos: nat, cfg: Config)
    ensures NoWindow(s, Apply(s, ClosePortal(id, confirm), now, tape, pos, cfg).state)
  {
  }

  lemma SendOpensNoWindow(s: State, id: int, confirm: bool, now: Time, tape: Tape, pos: nat, cfg: Config)
    ensures NoWindow(s, Apply(s, SendObserver(id, confirm), now, tape, pos, cfg).state)
  {
  }

  lemma RecallOpensNoWindow(s: State, id: int, confirm: bool, now: Time, tape: Tape, pos: nat, cfg: Config)
    ensures NoWindow(s, Apply(s, RecallObserver(id, confirm), now, tape, pos, cfg).state)
  {
  }

  lemma CommandsOpenNoWindow(s: State, c: Command, now: Time, tape: Tape, pos: nat, cfg: Config)
    ensures NoWindow(s, Apply(s, c, now, tape, pos, cfg).state)
  {
    match c
    case Stabilize(_) =>
    case ClosePortal(id, confirm) => CloseOpensNoWindow(s, id, confirm, now, tape, pos, cfg);
    case SendObserver(id, confirm) => SendOpensNoWindow(s, id, confirm, now, tape, pos, cfg);
    case RecallObserver(id, confirm) => RecallOpensNoWindow(s, id, confirm, now, tape, pos, cfg);
    case OpenExtraction(_) =>
  }

  lemma {:induction false} NoCollapseVisited(t: Transition, visit: seq<nat>)
    requires InRange(visit, |t.after.portals|) && DistinctPortalIds(t.before.portals)
    requires CollapsesNothing(t.before.portals, t.after.portals)
    ensures VisitCollapses(t, visit) == []
  {
    if |visit| > 0 {
      NoCollapseVisited(t, visit[..|visit| - 1]);
      var k := visit[|visit| - 1];
      if t.after.portals[k].status == Collapsed {
        FoundAt(t.before.portals, k);
      }
    }
  }

  lemma QuietWindows(t: Transition, cfg: Config)
    requires Identified(t) && CollapsesNothing(t.before.portals, t.after.portals) && t.previousAt == t.now
    ensures LastWindowEvent(EventLog(t, cfg)).None?
  {
    LogEndsWithTheWindows(t, cfg);
    NoCollapseVisited(t, Indices(|t.after.portals|));
  }

  lemma CommandTellsNothing(s: State, c: Command, now: Time, tape: Tape, pos: nat, cfg: Config)
    requires InvAt(s, now, cfg)
    ensures var s' := Apply(s, c, now, tape, pos, cfg).state;
            && LastWindowEvent(EventLog(Transition(s, s', now, now), cfg)).None?
            && s'.lab.overrideUntil == s.lab.overrideUntil && s'.lastTickAt == s.lastTickAt
  {
    var s' := Apply(s, c, now, tape, pos, cfg).state;
    CommandKeepsInvariant(s, c, now, tape, pos, cfg);
    InvariantIsIdentified(s, now, cfg);
    InvariantIsIdentified(s', now, cfg);
    CommandsOpenNoWindow(s, c, now, tape, pos, cfg);
    QuietWindows(Transition(s, s', now, now), cfg);
  }

  // ---------------------------------------------------------------- whole histories

  lemma ToldInParts(xs: seq<Draft>, ys: seq<Draft>, before: bool)
    ensures Told(xs + ys, before) == Told(ys, Told(xs, before))
  {
    LastWindowEventConcat(xs, ys);
  }

  lemma ResolvedTellsTheWindow(s: State, now: Time, tape: Tape, pos: nat, cfg: Config)
    requires Inv(s, cfg) && Clock(s) <= now && WindowBegun(s, cfg)
    requires ResolveTick(s, now, tape, pos, cfg).Ok?
    ensures var j := ResolveTick(s, now, tape, pos, cfg).value;
            && Inv(j.state, cfg) && j.state.lastTickAt == Some(now)
            && (j.state.lab.OverrideActive(now, cfg) <==> Told(j.events, s.lab.OverrideActive(Clock(s), cfg)))
            && WindowBegun(j.state, cfg)
  {
    TicksAreJournalled(s, now, tape, pos, cfg);
    TickKeepsInvariant(s, now, tape, pos, cfg);
    if s.lastTickAt != Some(now) {
      TickTellsTheWindow(s, now, tape, pos, cfg);
      DerivedLog(Transition(s, Tick(s, now, tape, pos, cfg).value.state, Clock(s), now), cfg);
    }
  }

  lemma RecordTellsNothing(s: State, c: Command, out: Outcome, now: Time, cfg: Config)
    requires EventsFor(Transition(s, out.state, now, now), cfg).Ok? && Recorded(s, c, out, now, cfg).Ok?
    requires LastWindowEvent(EventsFor(Transition(s, out.state, now, now), cfg).value).None?
    ensures var j := Recorded(s, c, out, now, cfg).value.0;
            LastWindowEvent(j.events).None? && j.state == out.state
  {
    if out.error.Some? {
      LastWindowEventConcat([Rejected(c, out.error.value, now)], EventsFor(Transition(s, out.state, now, now), cfg).value);
    }
  }

  lemma CommandRecordTellsNothing(s: State, c: Command, now: Time, tape: Tape, pos: nat, cfg: Config)
    requires InvAt(s, now, cfg) && RunCommand(s, c, now, tape, pos, cfg).Ok?
    ensures var j := RunCommand(s, c, now, tape, pos, cfg).value.0;
            && LastWindowEvent(j.events).None? && InvAt(j.state, now, cfg)
            && j.state.lab.overrideUntil == s.lab.overrideUntil && j.state.lastTickAt == s.lastTickAt
  {
    var out := Apply(s, c, now, tape, pos, cfg);
    CommandKeepsInvariant(s, c, now, tape, pos, cfg);
    CommandTellsNothing(s, c, now, tape, pos, cfg);
    CommandsAreLoggable(s, c, now, tape, pos, cfg);
    DerivedLog(Transition(s, out.state, now, now), cfg);
    RecordTellsNothing(s, c, out, now, cfg);
  }

  lemma RecordTellsTheWindow(s: State, c: Command, now: Time, tape: Tape, pos: nat, cfg: Config, before: bool)
    requires Inv(s, cfg) && s.lastTickAt == Some(now) && WindowBegun(s, cfg)
    requires RunCommand(s, c, now, tape, pos, cfg).Ok?
    requires s.lab.OverrideActive(now, cfg) == before
    ensures var j := RunCommand(s, c, now, tape, pos, cfg).value.0;
            && Inv(j.state, cfg) && j.state.lastTickAt == Some(now)
            && (j.state.lab.OverrideActive(now, cfg) <==> Told(j.events, before))
            && WindowBegun(j.state, cfg)
  {
    CommandRecordTellsNothing(s, c, now, tape, pos, cfg);
  }

  lemma CallTellsTheWindow(s: State, a: Action, tape: Tape, pos: nat, cfg: Config)
    requires Inv(s, cfg) && WindowBegun(s, cfg) && Call(s, a, tape, pos, cfg).Ok?
    ensures var j := Call(s, a, tape, pos, cfg).value.0;
            && Inv(j.state, cfg) && WindowBegun(j.state, cfg) && j.state.lastTickAt == Some(a.now)
            && (j.state.lab.OverrideActive(a.now, cfg) <==> Told(j.events, s.lab.OverrideActive(Clock(s), cfg)))
  {
    if a.now < Clock(s) {
      StaleTicksFail(s, a.now, tape, pos, cfg);
      assert false;
    }
    ResolvedTellsTheWindow(s, a.now, tape, pos, cfg);
    var ticked := ResolveTick(s, a.now, tape, pos, cfg).value;
    if a.CommandAt? {
      RecordTellsTheWindow(ticked.state, a.command, a.now, tape, ticked.pos, cfg, Told(ticked.events, s.lab.OverrideActive(Clock(s), cfg)));
      var j := RunCommand(ticked.state, a.command, a.now, tape, ticked.pos, cfg).value.0;
      ToldInParts(ticked.events, j.events, s.lab.OverrideActive(Clock(s), cfg));
    }
  }

  /** After any history the emergency window is on exactly if the last window event ever logged is a start. */
  lemma {:induction false} HistoryTellsTheWindow(planes: seq<Plane>, start: Time, actions: seq<Action>, tape: Tape, cfg: Config)
    requires FreshCatalogue(planes)
    ensures var ar := Archived(Archive(NewLaboratory(planes, start, cfg), 0, []), actions, tape, cfg);
            && Inv(ar.state, cfg) && WindowBegun(ar.state, cfg)
            && (ar.state.lab.OverrideActive(Clock(ar.state), cfg) <==> LastWindowEvent(ar.log) == Some(true))
  {
    var opening := Archive(NewLaboratory(planes, start, cfg), 0, []);
    if |actions| == 0 {
      NewLaboratoryIsValid(planes, start, cfg);
    } else {
      var init, a := actions[..|actions| - 1], actions[|actions| - 1];
      HistoryTellsTheWindow(planes, start, init, tape, cfg);
      var earlier := Archived(opening, init, tape, cfg);
      if Call(earlier.state, a, tape, earlier.pos, cfg).Ok? {
        CallTellsTheWindow(earlier.state, a, tape, earlier.pos, cfg);
        ToldInParts(earlier.log, Call(earlier.state, a, tape, earlier.pos, cfg).value.0.events, false);
      }
    }
  }
}

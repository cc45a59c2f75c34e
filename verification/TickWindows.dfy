/** The emergency window in the logs of whole ticks: what each tick logs of it, and exactly when two ticks
    log the same as one. */
module TickWindows {
  import opened Base
  import opened Randomness
  import opened Sorting
  import opened Portals
  import opened Observers
  import opened States
  import opened Ticks
  import opened Invariants
  import opened Events
  import opened EventOrder
  import opened OverrideLog
  import opened WindowRuns
  import opened Homecomings
  import opened Histories

  // ---------------------------------------------------------------- one tick

  /** The window events of a log, in log order. */
  function OfWindow(log: seq<Draft>): (r: seq<Draft>)
    ensures forall d :: d in r <==> d in log && IsWindowEvent(d)
  {
    if |log| == 0 then []
    else
      var earlier, d := OfWindow(log[..|log| - 1]), log[|log| - 1];
      assert log == log[..|log| - 1] + [d];
      if IsWindowEvent(d) then earlier + [d] else earlier
  }

  lemma {:induction false} WindowsKeepOrder(log: seq<Draft>)
    requires StrictlySorted(log, LogOrder())
    ensures StrictlySorted(OfWindow(log), LogOrder())
  {
    if |log| > 0 {
      var init, last := log[..|log| - 1], log[|log| - 1];
      WindowsKeepOrder(init);
      var earlier := OfWindow(init);
      forall i | 0 <= i < |earlier| ensures LogOrder()(earlier[i], last) {
        assert earlier[i] in init;
        var k :| 0 <= k < |init| && init[k] == earlier[i];
        assert LogOrder()(log[k], log[|log| - 1]);
      }
    }
  }

  lemma LogHoldsTheWindows(t: Transition, cfg: Config)
    requires Identified(t)
    ensures OfWindow(EventLog(t, cfg)) == WindowsIn(t, cfg)
  {
    LogIsStrict(t, cfg);
    WindowsKeepOrder(EventLog(t, cfg));
    WindowMembers(t, cfg);
    CollapsesAreSorted(t);
    WindowsInLogOrder(t.before.lab.overrideUntil, t.previousAt, CollapsesIn(t), t.now, cfg);
    LogOrderIsStrict();
    SortedIsUnique(OfWindow(EventLog(t, cfg)), WindowsIn(t, cfg), LogOrder());
  }

  /** A transition that ends the portals the portal stage ends has its collapses. */
  lemma SameCollapses(t: Transition, now: Time)
    requires EndsAtPortalStage(t, now) && PositiveDistinctPortals(t.after.portals) && Identifiable(t.before.portals)
    ensures CollapsesIn(t) == CollapsesBetween(t.before, now)
  {
    CollapsesAreListed(t, now);
    StageIsListed(t.before, now);
    CollapseOrderIsStrict();
    SortedIsUnique(CollapsesIn(t), CollapsesBetween(t.before, now), CollapseBefore());
  }

  /** The window events in the log of a tick are those of its portal stage. */
  lemma TickLogHoldsTheWindows(s: State, now: Time, tape: Tape, pos: nat, cfg: Config)
    requires Inv(s, cfg) && Clock(s) <= now && s.lastTickAt != Some(now) && Tick(s, now, tape, pos, cfg).Ok?
    ensures var s' := Tick(s, now, tape, pos, cfg).value.state;
            OfWindow(EventLog(Transition(s, s', Clock(s), now), cfg)) == Windows(s, Clock(s), now, cfg)
  {
    var t := Transition(s, Tick(s, now, tape, pos, cfg).value.state, Clock(s), now);
    TickIsIdentified(s, now, tape, pos, cfg);
    TickKeepsEnds(s, now, tape, pos, cfg);
    SameCollapses(t, now);
    LogHoldsTheWindows(t, cfg);
  }

  // ---------------------------------------------------------------- two ticks

  lemma {:induction false} EveryCollapseStarts(deadline: Option<Time>, start: Time, cs: seq<Collapse>, now: Time, cfg: Config, c: Collapse)
    requires c in cs
    ensures StartedBy(c, cfg) in OverrideDrafts(deadline, start, cs, now, cfg)
    decreases |cs|
  {
    WindowsUnfold(deadline, start, cs, now, cfg);
    if c != cs[0] {
      var i :| 0 <= i < |cs| && cs[i] == c;
      assert c == cs[1..][i - 1];
      EveryCollapseStarts(Some(cs[0].at + cfg.emergencyDuration), cs[0].at, cs[1..], now, cfg, c);
    }
  }

  /** Different lists of collapses, of different portals, log different windows. */
  lemma NewCollapseShows(deadline: Option<Time>, start: Time, cs: seq<Collapse>, ds: seq<Collapse>, now: Time, cfg: Config, c: Collapse)
    requires c in cs && forall d :: d in ds ==> d.portalID != c.portalID
    ensures OverrideDrafts(deadline, start, cs, now, cfg) != OverrideDrafts(deadline, start, ds, now, cfg)
  {
    EveryCollapseStarts(deadline, start, cs, now, cfg, c);
    WindowsStartAtCollapses(deadline, start, ds, now, cfg);
    assert !StartsOne(StartedBy(c, cfg), ds);
  }

  /** Later stages leave to each portal its ending; they may add portals. */
  ghost predicate SameEndings(ps: seq<Portal>, qs: seq<Portal>) {
    |ps| <= |qs| && forall k :: 0 <= k < |ps| ==>
      qs[k].id == ps[k].id && qs[k].plane == ps[k].plane && qs[k].status == ps[k].status && qs[k].FirstEnding() == ps[k].FirstEnding()
  }

  ghost predicate AddedCollapses(ps: seq<Portal>, qs: seq<Portal>, now: Time) {
    exists k :: |ps| <= k < |qs| && qs[k].CollapsesBy(now)
  }

  lemma SameCollapsing(ps: seq<Portal>, qs: seq<Portal>, now: Time, c: Collapse)
    requires SameEndings(ps, qs)
    ensures Collapsing(ps, now, c) ==> Collapsing(qs, now, c)
    ensures Collapsing(qs, now, c) ==> Collapsing(ps, now, c) || AddedCollapses(ps, qs, now)
  {
    if Collapsing(ps, now, c) {
      var i :| 0 <= i < |ps| && ps[i].CollapsesBy(now) && c == CollapseFrom(ps[i]);
      assert qs[i].CollapsesBy(now) && c == CollapseFrom(qs[i]);
    }
    if Collapsing(qs, now, c) {
      var i :| 0 <= i < |qs| && qs[i].CollapsesBy(now) && c == CollapseFrom(qs[i]);
      if i < |ps| {
        assert ps[i].CollapsesBy(now) && c == CollapseFrom(ps[i]);
      }
    }
  }

  /** What the added portals change about the windows: nothing, exactly if none of them collapses. */
  lemma AddedPortalsDecide(a: State, b: State, from: Time, now: Time, cfg: Config)
    requires Identifiable(a.portals) && Identifiable(b.portals) && SameEndings(a.portals, b.portals) && a.lab == b.lab
    ensures Windows(a, from, now, cfg) == Windows(b, from, now, cfg) <==> !AddedCollapses(a.portals, b.portals, now)
  {
    StageIsListed(a, now);
    StageIsListed(b, now);
    var cs, ds := CollapsesBetween(a, now), CollapsesBetween(b, now);
    if AddedCollapses(a.portals, b.portals, now) {
      var k :| |a.portals| <= k < |b.portals| && b.portals[k].CollapsesBy(now);
      var c := CollapseFrom(b.portals[k]);
      assert Collapsing(b.portals, now, c);
      forall d | d in cs ensures d.portalID != c.portalID {
        var i :| 0 <= i < |a.portals| && a.portals[i].CollapsesBy(now) && d == CollapseFrom(a.portals[i]);
        assert b.portals[i].id == a.portals[i].id;
      }
      NewCollapseShows(a.lab.overrideUntil, from, ds, cs, now, cfg, c);
    } else {
      forall c ensures c in cs <==> c in ds {
        SameCollapsing(a.portals, b.portals, now, c);
      }
      CollapseOrderIsStrict();
      SortedIsUnique(cs, ds, CollapseBefore());
    }
  }

  lemma MarkKeepsEnding(p: Portal, now: Time, cfg: Config)
    ensures var q := AfterSync(p, now, cfg);
            q.id == p.id && q.plane == p.plane && q.status == p.status && q.FirstEnding() == p.FirstEnding()
  {
  }

  lemma AfterFirstTick(s: State, now: Time, tape: Tape, pos: nat, cfg: Config)
    requires Inv(s, cfg) && Clock(s) <= now && s.lastTickAt != Some(now) && Tick(s, now, tape, pos, cfg).Ok?
    ensures var s1, m1 := Tick(s, now, tape, pos, cfg).value.state, MidTick(s, now, cfg);
            && SameEndings(m1.portals, s1.portals) && s1.lab == m1.lab
            && Identifiable(m1.portals) && Identifiable(s1.portals) && |m1.portals| == |s.portals|
  {
    var s1, m1 := Tick(s, now, tape, pos, cfg).value.state, MidTick(s, now, cfg);
    TickOnPortals(s, now, tape, pos, cfg);
    TickBooksTheCollapses(s, now, tape, pos, cfg);
    TickIsIdentified(s, now, tape, pos, cfg);
    MidTickKeeps(s, Clock(s), now, cfg);
    MidIsIdentifiable(m1, now, cfg);
    forall k | 0 <= k < |m1.portals|
      ensures s1.portals[k] == AfterSync(m1.portals[k], now, cfg)
      ensures s1.portals[k].id == m1.portals[k].id && s1.portals[k].plane == m1.portals[k].plane
      ensures s1.portals[k].status == m1.portals[k].status && s1.portals[k].FirstEnding() == m1.portals[k].FirstEnding()
    {
      MarkKeepsEnding(m1.portals[k], now, cfg);
    }
  }

  lemma SamePrefix(xs: seq<Draft>, ys: seq<Draft>, zs: seq<Draft>)
    ensures xs + ys == xs + zs <==> ys == zs
  {
    assert (xs + ys)[|xs|..] == ys && (xs + zs)[|xs|..] == zs;
  }

  /** Whatever state the first tick leaves, with the endings of its portal stage. */
  lemma WindowsAfterTheFirst(s: State, s1: State, t: Time, t1: Time, t2: Time, cfg: Config)
    requires MidInv(s, t, cfg) && t <= t1 <= t2
    requires var m1 := MidTick(s, t1, cfg);
             && SameEndings(m1.portals, s1.portals) && s1.lab == m1.lab && Identifiable(m1.portals) && Identifiable(s1.portals)
    ensures Windows(s, t, t1, cfg) + Windows(s1, t1, t2, cfg) == Windows(s, t, t2, cfg)
            <==> !AddedCollapses(MidTick(s, t1, cfg).portals, s1.portals, t2)
  {
    var m1 := MidTick(s, t1, cfg);
    WindowsCompose(s, t, t1, t2, cfg);
    AddedPortalsDecide(m1, s1, t1, t2, cfg);
    SamePrefix(Windows(s, t, t1, cfg), Windows(s1, t1, t2, cfg), Windows(m1, t1, t2, cfg));
  }

  /** What the log of a tick says of the window. */
  function WindowLog(s: State, s': State, now: Time, cfg: Config): seq<Draft> {
    OfWindow(EventLog(Transition(s, s', Clock(s), now), cfg))
  }

  /** The portal the tick spawned, if it spawned one, collapses by `later`. */
  predicate SpawnedCollapses(s: State, t: Ticked, later: Time) {
    |s.portals| < |t.state.portals| && t.state.portals[|s.portals|].CollapsesBy(later)
  }

  lemma OnlyTheSpawned(s: State, now: Time, later: Time, tape: Tape, pos: nat, cfg: Config)
    requires Inv(s, cfg) && Clock(s) <= now && s.lastTickAt != Some(now) && Tick(s, now, tape, pos, cfg).Ok?
    ensures var t := Tick(s, now, tape, pos, cfg).value;
            AddedCollapses(MidTick(s, now, cfg).portals, t.state.portals, later) <==> SpawnedCollapses(s, t, later)
  {
    TickOnPortals(s, now, tape, pos, cfg);
    OnlyOneAdded(PortalsAfter(s.portals, now), Tick(s, now, tape, pos, cfg).value.state.portals, later);
  }

  lemma OnlyOneAdded(ps: seq<Portal>, qs: seq<Portal>, later: Time)
    requires |ps| <= |qs| <= |ps| + 1
    ensures AddedCollapses(ps, qs, later) <==> |ps| < |qs| && qs[|ps|].CollapsesBy(later)
  {
  }

  lemma FirstOfTwo(s: State, t1: Time, t2: Time, tape: Tape, pos: nat, cfg: Config)
    requires Inv(s, cfg) && Clock(s) <= t1 < t2 && s.lastTickAt != Some(t1) && Tick(s, t1, tape, pos, cfg).Ok?
    ensures var first := Tick(s, t1, tape, pos, cfg).value;
            && WindowLog(s, first.state, t1, cfg) == Windows(s, Clock(s), t1, cfg)
            && (Windows(s, Clock(s), t1, cfg) + Windows(first.state, t1, t2, cfg) == Windows(s, Clock(s), t2, cfg)
                <==> !SpawnedCollapses(s, first, t2))
  {
    TickLogHoldsTheWindows(s, t1, tape, pos, cfg);
    AfterFirstTick(s, t1, tape, pos, cfg);
    WindowsAfterTheFirst(s, Tick(s, t1, tape, pos, cfg).value.state, Clock(s), t1, t2, cfg);
    OnlyTheSpawned(s, t1, t2, tape, pos, cfg);
  }

  /** Two ticks log the same window events as one tick at the second instant, whatever each of them draws,
      exactly if the portal the first one spawned, if any, does not collapse by then. */
  lemma TwoTicksLogTheSameWindows(s: State, t1: Time, t2: Time, tape: Tape, pos: nat, late: Tape, latePos: nat, cfg: Config)
    requires Inv(s, cfg) && Clock(s) <= t1 < t2 && s.lastTickAt != Some(t1)
    requires Tick(s, t1, tape, pos, cfg).Ok? && Tick(s, t2, late, latePos, cfg).Ok?
    requires var first := Tick(s, t1, tape, pos, cfg).value; Tick(first.state, t2, tape, first.pos, cfg).Ok?
    ensures var first, single := Tick(s, t1, tape, pos, cfg).value, Tick(s, t2, late, latePos, cfg).value.state;
            var both := Tick(first.state, t2, tape, first.pos, cfg).value.state;
            WindowLog(s, first.state, t1, cfg) + WindowLog(first.state, both, t2, cfg) == WindowLog(s, single, t2, cfg)
            <==> !SpawnedCollapses(s, first, t2)
  {
    var first := Tick(s, t1, tape, pos, cfg).value;
    FirstOfTwo(s, t1, t2, tape, pos, cfg);
    TickKeepsInvariant(s, t1, tape, pos, cfg);
    TickLogHoldsTheWindows(first.state, t2, tape, first.pos, cfg);
    TickLogHoldsTheWindows(s, t2, late, latePos, cfg);
  }
}

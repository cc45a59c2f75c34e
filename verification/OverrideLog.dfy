/** The emergency window in the log: the same events however an interval is divided into ticks, an end for
    exactly the windows no later collapse restarts, and a log that always tells whether the window is on. */
module OverrideLog {
  import opened Base
  import opened Sorting
  import opened Portals
  import opened Labs
  import opened Observers
  import opened States
  import opened Commands
  import opened Ticks
  import opened Invariants
  import opened CommandInvariants
  import opened Runs
  import opened Composition
  import opened Events
  import opened EventOrder

  // ---------------------------------------------------------------- one chronological list of collapses

  /** The deadline in force once the collapses have happened. */
  function DeadlineAfter(deadline: Option<Time>, cs: seq<Collapse>, cfg: Config): Option<Time> {
    if |cs| == 0 then deadline else Some(cs[|cs| - 1].at + cfg.emergencyDuration)
  }

  ghost predicate Within(cs: seq<Collapse>, from: Time, to: Time) {
    forall i :: 0 <= i < |cs| ==> from <= cs[i].at <= to
  }

  /** Cutting the interval at an instant that separates the collapses cuts the window events in two. */
  lemma {:induction false} WindowsSplit(deadline: Option<Time>, start: Time, xs: seq<Collapse>, ys: seq<Collapse>, t1: Time, t2: Time, cfg: Config)
    requires start <= t1 <= t2 && Within(xs, start, t1) && Chronicle(xs)
    requires forall i :: 0 <= i < |ys| ==> t1 < ys[i].at
    ensures OverrideDrafts(deadline, start, xs + ys, t2, cfg) ==
            OverrideDrafts(deadline, start, xs, t1, cfg) + OverrideDrafts(DeadlineAfter(deadline, xs, cfg), t1, ys, t2, cfg)
    decreases |xs|
  {
    if |xs| == 0 {
      assert xs + ys == ys;
      WindowsSplitIdle(deadline, start, ys, t1, t2, cfg);
    } else {
      var c, rest := xs[0], xs[1..];
      var until := c.at + cfg.emergencyDuration;
      assert (xs + ys)[0] == c && (xs + ys)[1..] == rest + ys;
      assert Within(rest, c.at, t1) && Chronicle(rest);
      WindowsSplit(Some(until), c.at, rest, ys, t1, t2, cfg);
      var after := DeadlineAfter(deadline, xs, cfg);
      assert DeadlineAfter(Some(until), rest, cfg) == after;
      var head := EndedBy(deadline, start, c.at) + [StartedBy(c, cfg)];
      ConcatAssociates(head, OverrideDrafts(Some(until), c.at, rest, t1, cfg), OverrideDrafts(after, t1, ys, t2, cfg));
      WindowsUnfold(deadline, start, xs, t1, cfg);
      WindowsUnfold(deadline, start, xs + ys, t2, cfg);
    }
  }

  lemma WindowsSplitIdle(deadline: Option<Time>, start: Time, ys: seq<Collapse>, t1: Time, t2: Time, cfg: Config)
    requires start <= t1 <= t2 && forall i :: 0 <= i < |ys| ==> t1 < ys[i].at
    ensures OverrideDrafts(deadline, start, ys, t2, cfg) ==
            EndedBy(deadline, start, t1) + OverrideDrafts(deadline, t1, ys, t2, cfg)
  {
  }

  function EndedAt(u: Time): Draft {
    Draft(OverrideEnded, None, None, None, NoDetail, u)
  }

  /** The window collapse `i` opened runs to its deadline `u` without a later collapse restarting it. */
  ghost predicate RunsOut(cs: seq<Collapse>, i: nat, u: Time, cfg: Config)
    requires i < |cs|
  {
    u == cs[i].at + cfg.emergencyDuration && forall j :: i < j < |cs| ==> u <= cs[j].at
  }

  ghost predicate SomeRunsOut(cs: seq<Collapse>, u: Time, cfg: Config) {
    exists i :: 0 <= i < |cs| && RunsOut(cs, i, u, cfg)
  }

  lemma RunsOutUnfolds(cs: seq<Collapse>, u: Time, cfg: Config)
    requires |cs| > 0
    ensures SomeRunsOut(cs, u, cfg) <==> RunsOut(cs, 0, u, cfg) || SomeRunsOut(cs[1..], u, cfg)
  {
    var rest := cs[1..];
    assert forall j :: 0 <= j < |rest| ==> rest[j] == cs[j + 1];
    if SomeRunsOut(cs, u, cfg) {
      var i :| 0 <= i < |cs| && RunsOut(cs, i, u, cfg);
      if i > 0 {
        assert RunsOut(rest, i - 1, u, cfg);
      }
    }
    if SomeRunsOut(rest, u, cfg) {
      var i :| 0 <= i < |rest| && RunsOut(rest, i, u, cfg);
      assert RunsOut(cs, i + 1, u, cfg) by {
        forall j | i + 1 < j < |cs| ensures u <= cs[j].at {
          assert cs[j] == rest[j - 1];
        }
      }
    }
  }

  /** An end is logged exactly for the deadlines that pass without a collapse before them: that of the
      window already open, and that of each collapse no later one follows in time. */
  lemma {:induction false} WindowsEndUnlessRestarted(deadline: Option<Time>, start: Time, cs: seq<Collapse>, now: Time, cfg: Config, u: Time)
    requires Within(cs, start, now) && Chronicle(cs)
    ensures EndedAt(u) in OverrideDrafts(deadline, start, cs, now, cfg) <==>
            u <= now && ((deadline == Some(u) && start < u && forall j :: 0 <= j < |cs| ==> u <= cs[j].at)
                         || SomeRunsOut(cs, u, cfg))
    decreases |cs|
  {
    if |cs| > 0 {
      var c, rest := cs[0], cs[1..];
      var until := c.at + cfg.emergencyDuration;
      assert Within(rest, c.at, now) && Chronicle(rest);
      WindowsEndUnlessRestarted(Some(until), c.at, rest, now, cfg, u);
      WindowsUnfold(deadline, start, cs, now, cfg);
      RunsOutUnfolds(cs, u, cfg);
      assert (forall j :: 0 <= j < |rest| ==> u <= rest[j].at) <==> (forall j :: 0 < j < |cs| ==> u <= cs[j].at) by {
        assert forall j :: 0 <= j < |rest| ==> rest[j] == cs[j + 1];
        assert forall j :: 0 < j < |cs| ==> cs[j] == rest[j - 1];
      }
    }
  }

  ghost predicate EndsStarted(ds: seq<Draft>) {
    |ds| > 0 && ds[|ds| - 1].kind == OverrideStarted
  }

  /** After the interval the window is on exactly if the last event says it started, or nothing was said
      and it was on before. */
  lemma {:induction false} WindowsTellTheDeadline(deadline: Option<Time>, start: Time, cs: seq<Collapse>, now: Time, cfg: Config)
    requires start <= now && Within(cs, start, now) && Chronicle(cs)
    ensures var ds := OverrideDrafts(deadline, start, cs, now, cfg);
            var after := DeadlineAfter(deadline, cs, cfg);
            after.Some? && now < after.value <==>
              if |ds| > 0 then EndsStarted(ds) else deadline.Some? && start < deadline.value
    decreases |cs|
  {
    if |cs| > 0 {
      var c, rest := cs[0], cs[1..];
      var until := c.at + cfg.emergencyDuration;
      assert Within(rest, c.at, now) && Chronicle(rest);
      WindowsTellTheDeadline(Some(until), c.at, rest, now, cfg);
      assert DeadlineAfter(Some(until), rest, cfg) == DeadlineAfter(deadline, cs, cfg);
    }
  }

  // ---------------------------------------------------------------- the collapses of a tick

  /** The transition of the portal stage alone. */
  function PortalStage(s: State, now: Time): Transition {
    Transition(s, s.(portals := PortalsAfter(s.portals, now)), now, now)
  }

  /** The collapses the portal stage brings about by `now`. */
  function CollapsesBetween(s: State, now: Time): seq<Collapse> {
    CollapsesIn(PortalStage(s, now))
  }

  /** The window events of the portal stage at `now`, the state having been resolved up to `from`. */
  function Windows(s: State, from: Time, now: Time, cfg: Config): seq<Draft> {
    OverrideDrafts(s.lab.overrideUntil, from, CollapsesBetween(s, now), now, cfg)
  }

  function CollapseFrom(p: Portal): Collapse {
    Collapse(p.id, p.plane, p.Deadline())
  }

  lemma CollapseOfResolved(p: Portal, now: Time)
    ensures CollapseOf(Some(p), p.ResolveLifecycle(now)) == if p.CollapsesBy(now) then [CollapseFrom(p)] else []
  {
  }

  ghost predicate SameEnd(p: Portal, q: Portal) {
    q.id == p.id && q.plane == p.plane && q.status == p.status && q.closedAt == p.closedAt
  }

  /** Later stages end no portal and add only open ones. */
  ghost predicate SameEnds(ps: seq<Portal>, qs: seq<Portal>) {
    && |ps| <= |qs| && (forall k :: 0 <= k < |ps| ==> SameEnd(ps[k], qs[k]))
    && (forall k :: |ps| <= k < |qs| ==> qs[k].status == Open)
  }

  /** A transition whose ends are those of the portal stage at `now`. */
  ghost predicate EndsAtPortalStage(t: Transition, now: Time) {
    DistinctPortalIds(t.before.portals) && SameEnds(PortalsAfter(t.before.portals, now), t.after.portals)
  }

  lemma CollapsesAt(t: Transition, now: Time, k: nat)
    requires EndsAtPortalStage(t, now) && k < |t.after.portals|
    ensures CollapseAt(t, k) ==
            if k < |t.before.portals| && t.before.portals[k].CollapsesBy(now) then [CollapseFrom(t.before.portals[k])] else []
  {
    var ps := t.before.portals;
    if k < |ps| {
      FoundAt(ps, k);
      CollapseOfResolved(ps[k], now);
      assert SameEnd(ps[k].ResolveLifecycle(now), t.after.portals[k]);
    }
  }

  ghost predicate Collapsing(ps: seq<Portal>, now: Time, c: Collapse) {
    exists i :: 0 <= i < |ps| && ps[i].CollapsesBy(now) && c == CollapseFrom(ps[i])
  }

  lemma CollapsesVisited(t: Transition, now: Time)
    requires EndsAtPortalStage(t, now)
    ensures forall c :: c in VisitCollapses(t, Indices(|t.after.portals|)) <==> Collapsing(t.before.portals, now, c)
  {
    var ps, visit := t.before.portals, Indices(|t.after.portals|);
    IndicesVisit(|t.after.portals|);
    CollapseMembers(t, visit);
    forall c | c in VisitCollapses(t, visit) ensures Collapsing(ps, now, c) {
      var k :| k in visit && c in CollapseAt(t, k);
      CollapsesAt(t, now, k);
    }
    forall c | Collapsing(ps, now, c) ensures c in VisitCollapses(t, visit) {
      var i :| 0 <= i < |ps| && ps[i].CollapsesBy(now) && c == CollapseFrom(ps[i]);
      CollapsesAt(t, now, i);
      assert i in visit && c in CollapseAt(t, i);
    }
  }

  /** The list is exactly the portals that collapse by `now`, in order of date. */
  lemma CollapsesAreListed(t: Transition, now: Time)
    requires EndsAtPortalStage(t, now) && PositiveDistinctPortals(t.after.portals)
    ensures var cs := CollapsesIn(t);
            && StrictlySorted(cs, CollapseBefore()) && Chronicle(cs)
            && forall c :: c in cs <==> Collapsing(t.before.portals, now, c)
  {
    var visit := Indices(|t.after.portals|);
    var cs := VisitCollapses(t, visit);
    IndicesVisit(|t.after.portals|);
    CollapsesAreDistinct(t, visit);
    SortedCollapses(cs);
    CollapseOrderIsStrict();
    DistinctAreSeparate(cs);
    SortStrictly(cs, CollapseBefore());
    CollapsesVisited(t, now);
  }

  lemma DistinctAreSeparate(cs: seq<Collapse>)
    requires DistinctCollapses(cs)
    ensures Separated(cs, CollapseBefore())
  {
  }

  // ---------------------------------------------------------------- dividing the interval

  lemma JoinSorted(xs: seq<Collapse>, ys: seq<Collapse>, zs: seq<Collapse>, t: Time, t1: Time)
    requires StrictlySorted(xs, CollapseBefore()) && StrictlySorted(ys, CollapseBefore()) && StrictlySorted(zs, CollapseBefore())
    requires forall c :: c in zs <==> c in xs || c in ys
    requires forall c :: c in xs ==> t <= c.at <= t1
    requires forall c :: c in ys ==> t1 < c.at
    ensures zs == xs + ys && Within(xs, t, t1) && forall i :: 0 <= i < |ys| ==> t1 < ys[i].at
  {
    assert forall i :: 0 <= i < |xs| ==> xs[i] in xs;
    assert forall i :: 0 <= i < |ys| ==> ys[i] in ys;
    CollapseOrderIsStrict();
    SortedIsUnique(zs, xs + ys, CollapseBefore());
  }

  ghost predicate Identifiable(ps: seq<Portal>) {
    DistinctPortalIds(ps) && forall i :: 0 <= i < |ps| ==> ps[i].id > 0
  }

  lemma StageIsListed(s: State, now: Time)
    requires Identifiable(s.portals)
    ensures var cs := CollapsesBetween(s, now);
            && StrictlySorted(cs, CollapseBefore()) && Chronicle(cs)
            && forall c :: c in cs <==> Collapsing(s.portals, now, c)
  {
    var t := PortalStage(s, now);
    assert EndsAtPortalStage(t, now);
    assert PositiveDistinctPortals(t.after.portals);
    CollapsesAreListed(t, now);
  }

  lemma MidIsIdentifiable(s: State, t: Time, cfg: Config)
    requires MidInv(s, t, cfg)
    ensures Identifiable(s.portals)
  {
  }

  /** What `StageIsListed` says of a state satisfying the invariant. */
  lemma CollapsesInOrder(s: State, t: Time, now: Time, cfg: Config)
    requires MidInv(s, t, cfg) && t <= now
    ensures var cs := CollapsesBetween(s, now);
            && StrictlySorted(cs, CollapseBefore()) && Chronicle(cs)
            && (forall c :: c in cs <==> Collapsing(s.portals, now, c))
            && (forall c :: c in cs ==> t <= c.at <= now)
  {
    MidIsIdentifiable(s, t, cfg);
    StageIsListed(s, now);
    CollapsesAreDated(s, t, now, cfg);
  }

  lemma CollapsesAreDated(s: State, t: Time, now: Time, cfg: Config)
    requires MidInv(s, t, cfg) && t <= now
    ensures forall c :: Collapsing(s.portals, now, c) ==> t <= c.at <= now
  {
  }

  /** The collapses up to `t2` are those up to `t1` followed by those the second tick finds. */
  lemma CollapsesSplit(s: State, s1: State, t: Time, t1: Time, t2: Time, cfg: Config)
    requires MidInv(s, t, cfg) && t <= t1 <= t2
    requires MidInv(s1, t1, cfg) && s1.portals == PortalsAfter(s.portals, t1)
    ensures var xs, ys := CollapsesBetween(s, t1), CollapsesBetween(s1, t2);
            && CollapsesBetween(s, t2) == xs + ys
            && Within(xs, t, t1) && Chronicle(xs)
            && forall i :: 0 <= i < |ys| ==> t1 < ys[i].at
  {
    CollapsesInOrder(s, t, t1, cfg);
    CollapsesInOrder(s, t, t2, cfg);
    CollapsesInOrder(s1, t1, t2, cfg);
    CollapsingSplits(s.portals, t1, t2);
    JoinSorted(CollapsesBetween(s, t1), CollapsesBetween(s1, t2), CollapsesBetween(s, t2), t, t1);
  }

  lemma CollapsingSplits(ps: seq<Portal>, t1: Time, t2: Time)
    requires t1 <= t2
    ensures var qs := PortalsAfter(ps, t1);
            && (forall c :: Collapsing(ps, t2, c) <==> Collapsing(ps, t1, c) || Collapsing(qs, t2, c))
            && (forall c :: Collapsing(qs, t2, c) ==> t1 < c.at)
  {
  }

  lemma LastIsLatest(ps: seq<Portal>, cs: seq<Collapse>, now: Time)
    requires StrictlySorted(cs, CollapseBefore())
    requires forall c :: c in cs <==> Collapsing(ps, now, c)
    ensures LatestCollapse(ps, now) == if |cs| == 0 then None else Some(cs[|cs| - 1].at)
  {
    if |cs| == 0 {
      forall i | 0 <= i < |ps| ensures !ps[i].CollapsesBy(now) {
        assert CollapseFrom(ps[i]) !in cs;
        assert !Collapsing(ps, now, CollapseFrom(ps[i]));
      }
    } else {
      var last := cs[|cs| - 1];
      assert last in cs;
      var k :| 0 <= k < |ps| && ps[k].CollapsesBy(now) && last == CollapseFrom(ps[k]);
      forall i | 0 <= i < |ps| && ps[i].CollapsesBy(now) ensures ps[i].Deadline() <= ps[k].Deadline() {
        var c := CollapseFrom(ps[i]);
        assert Collapsing(ps, now, c);
        assert c in cs;
        var j :| 0 <= j < |cs| && cs[j] == c;
        assert j == |cs| - 1 || CollapseBefore()(c, last);
      }
      LatestIs(ps, now, k);
    }
  }

  /** The laboratory's deadline after the portal stage is the one its collapses leave. */
  lemma LabKeepsTheDeadline(s: State, now: Time, cfg: Config)
    requires Identifiable(s.portals)
    ensures LabAfter(s.lab, s.portals, now, cfg).overrideUntil ==
            DeadlineAfter(s.lab.overrideUntil, CollapsesBetween(s, now), cfg)
  {
    StageIsListed(s, now);
    var cs := CollapsesBetween(s, now);
    LastIsLatest(s.portals, cs, now);
    DeadlineOfLast(s.lab, cs, cfg);
  }

  lemma DeadlineOfLast(lab: Lab, cs: seq<Collapse>, cfg: Config)
    ensures LabFrom(lab, if |cs| == 0 then None else Some(cs[|cs| - 1].at), cfg).overrideUntil == DeadlineAfter(lab.overrideUntil, cs, cfg)
  {
  }

  /** Dividing an interval into two ticks logs the same window events. */
  lemma WindowsCompose(s: State, t: Time, t1: Time, t2: Time, cfg: Config)
    requires MidInv(s, t, cfg) && t <= t1 <= t2
    ensures Windows(s, t, t2, cfg) == Windows(s, t, t1, cfg) + Windows(MidTick(s, t1, cfg), t1, t2, cfg)
  {
    var s1 := MidTick(s, t1, cfg);
    MidTickKeeps(s, t, t1, cfg);
    CollapsesSplit(s, s1, t, t1, t2, cfg);
    MidIsIdentifiable(s, t, cfg);
    LabKeepsTheDeadline(s, t1, cfg);
    WindowsSplit(s.lab.overrideUntil, t, CollapsesBetween(s, t1), CollapsesBetween(s1, t2), t1, t2, cfg);
  }

  /** The window events logged when the stages run at each of the given instants in turn. */
  function WindowsOverTicks(s: State, from: Time, times: seq<Time>, cfg: Config): seq<Draft>
    decreases |times|
  {
    if |times| == 0 then []
    else Windows(s, from, times[0], cfg) + WindowsOverTicks(MidTick(s, times[0], cfg), times[0], times[1..], cfg)
  }

  /** However finely an interval is divided into ticks, its window events are the same. */
  lemma {:induction false} CadenceDoesNotChangeTheWindows(s: State, t: Time, times: seq<Time>, last: Time, cfg: Config)
    requires MidInv(s, t, cfg) && |times| > 0 && last == times[|times| - 1]
    requires t <= times[0] && forall i, j :: 0 <= i < j < |times| ==> times[i] <= times[j]
    ensures WindowsOverTicks(s, t, times, cfg) == Windows(s, t, last, cfg)
    decreases |times|
  {
    var first, rest := times[0], times[1..];
    var s1 := MidTick(s, first, cfg);
    if |rest| == 0 {
      assert WindowsOverTicks(s1, first, rest, cfg) == [];
    } else {
      MidTickKeeps(s, t, first, cfg);
      assert first <= rest[0] && first <= last;
      CadenceDoesNotChangeTheWindows(s1, first, rest, last, cfg);
      WindowsCompose(s, t, first, last, cfg);
    }
  }
}

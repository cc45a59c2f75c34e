/** The derivation as the program runs it: entity maps iterated in no particular order, drafts
    appended as they are found, one sort at the end. */
module EventDerivation {
  import opened Base
  import opened Sorting
  import opened Portals
  import opened Observers
  import opened States
  import opened Events
  import opened EventOrder

  method IndexObservers(os: seq<Observer>) returns (ok: bool, index: map<int, nat>)
    ensures ok <==> PositiveDistinctObservers(os)
    ensures ok ==> forall id :: FindObserver(os, id) == if id in index then Some(index[id]) else None
    ensures ok ==> forall id :: id in index ==> index[id] < |os| && os[index[id]].id == id
    ensures ok ==> forall k :: 0 <= k < |os| ==> os[k].id in index && index[os[k].id] == k
  {
    index := map[];
    for i := 0 to |os|
      invariant forall k :: 0 <= k < i ==> os[k].id > 0 && os[k].id in index && index[os[k].id] == k
      invariant forall id :: id in index ==> index[id] < i && os[index[id]].id == id
    {
      if os[i].id in index || os[i].id <= 0 {
        return false, index;
      }
      index := index[os[i].id := i];
    }
    ok := true;
    forall id ensures FindObserver(os, id) == if id in index then Some(index[id]) else None {
      if id in index {
        var k := FindObserver(os, id);
        assert k.Some?;
      }
    }
  }

  method IndexPlanes(planes: seq<Plane>) returns (ok: bool, index: map<int, nat>)
    ensures ok <==> PositiveDistinctPlanes(planes)
    ensures ok ==> forall id :: FindPlane(planes, id) == if id in index then Some(index[id]) else None
  {
    index := map[];
    for i := 0 to |planes|
      invariant forall k :: 0 <= k < i ==> planes[k].id > 0 && planes[k].id in index && index[planes[k].id] == k
      invariant forall id :: id in index ==> index[id] < i && planes[index[id]].id == id
    {
      if planes[i].id in index || planes[i].id <= 0 {
        return false, index;
      }
      index := index[planes[i].id := i];
    }
    ok := true;
    forall id ensures FindPlane(planes, id) == if id in index then Some(index[id]) else None {
      if id in index {
        PlaneFoundAt(planes, index[id]);
      }
    }
  }

  /** The map sends every identifier to its position in the list. */
  ghost predicate Locates(index: map<int, nat>, ids: seq<int>) {
    && (forall id :: id in index ==> index[id] < |ids| && ids[index[id]] == id)
    && (forall k :: 0 <= k < |ids| ==> ids[k] in index && index[ids[k]] == k)
  }

  /** The positions visited so far are those of the identifiers no longer left. */
  ghost predicate Progress(ids: seq<int>, remaining: set<int>, visit: seq<nat>) {
    && InRange(visit, |ids|) && NoDuplicates(visit)
    && forall k :: 0 <= k < |ids| ==> (k in visit <==> ids[k] !in remaining)
  }

  lemma ProgressStep(index: map<int, nat>, ids: seq<int>, remaining: set<int>, visit: seq<nat>, id: int)
    requires Locates(index, ids) && Progress(ids, remaining, visit) && id in remaining && id in index
    ensures Progress(ids, remaining - {id}, visit + [index[id]])
  {
    forall k | 0 <= k < |ids| ensures k in visit + [index[id]] <==> ids[k] !in remaining - {id} {
      assert ids[k] == id <==> k == index[id];
    }
  }

  lemma VisitPortalStep(t: Transition, visit: seq<nat>, k: nat, cfg: Config)
    requires InRange(visit, |t.after.portals|) && k < |t.after.portals|
    ensures VisitPortals(t, visit + [k], cfg) == VisitPortals(t, visit, cfg) + DraftsAt(t, k, cfg)
    ensures VisitCollapses(t, visit + [k]) == VisitCollapses(t, visit) + CollapseAt(t, k)
  {
  }

  lemma VisitObserverStep(t: Transition, visit: seq<nat>, k: nat, cfg: Config)
    requires InRange(visit, |t.after.observers|) && k < |t.after.observers|
    ensures VisitObservers(t, visit + [k], cfg) == VisitObservers(t, visit, cfg) + EventsAt(t, k, cfg)
  {
  }

  ghost predicate VisitedEnds(t: Transition, visit: seq<nat>) {
    && InRange(visit, |t.after.portals|)
    && forall i :: 0 <= i < |visit| ==> EndRecorded(PriorPortal(t.before.portals, t.after.portals[visit[i]].id), t.after.portals[visit[i]])
  }

  lemma AllEndsVisited(t: Transition, visit: seq<nat>)
    requires VisitedEnds(t, visit) && forall k :: 0 <= k < |t.after.portals| ==> k in visit
    ensures EndsRecorded(t)
  {
    forall k | 0 <= k < |t.after.portals|
      ensures EndRecorded(PriorPortal(t.before.portals, t.after.portals[k].id), t.after.portals[k])
    {
      assert k in visit;
      var i :| 0 <= i < |visit| && visit[i] == k;
    }
  }

  /** One portal's drafts and collapse, its prior version found through the map. */
  method PortalPart(t: Transition, k: nat, beforeIndex: map<int, nat>, cfg: Config)
    returns (ok: bool, drafts: seq<Draft>, collapses: seq<Collapse>)
    requires k < |t.after.portals|
    requires forall id :: FindPortal(t.before.portals, id) == if id in beforeIndex then Some(beforeIndex[id]) else None
    ensures ok <==> EndRecorded(PriorPortal(t.before.portals, t.after.portals[k].id), t.after.portals[k])
    ensures ok ==> drafts == DraftsAt(t, k, cfg) && collapses == CollapseAt(t, k)
  {
    var p := t.after.portals[k];
    assert FindPortal(t.before.portals, p.id) == if p.id in beforeIndex then Some(beforeIndex[p.id]) else None;
    var prior := if p.id in beforeIndex then Some(t.before.portals[beforeIndex[p.id]]) else None;
    ok := EndRecorded(prior, p);
    drafts, collapses := PortalDrafts(prior, p, t.previousAt, t.now, cfg), CollapseOf(prior, p);
  }

  /** Walks the after-portals in whatever order their map yields them. */
  method DerivePortals(t: Transition, beforeIndex: map<int, nat>, afterIndex: map<int, nat>, cfg: Config)
    returns (ok: bool, drafts: seq<Draft>, collapses: seq<Collapse>, ghost visit: seq<nat>)
    requires forall id :: FindPortal(t.before.portals, id) == if id in beforeIndex then Some(beforeIndex[id]) else None
    requires forall id :: id in afterIndex ==> afterIndex[id] < |t.after.portals| && t.after.portals[afterIndex[id]].id == id
    requires forall k :: 0 <= k < |t.after.portals| ==> t.after.portals[k].id in afterIndex && afterIndex[t.after.portals[k].id] == k
    ensures ok <==> EndsRecorded(t)
    ensures ok ==> Visits(visit, |t.after.portals|)
                   && drafts == VisitPortals(t, visit, cfg) && collapses == VisitCollapses(t, visit)
  {
    ghost var ids := seq(|t.after.portals|, k requires 0 <= k < |t.after.portals| => t.after.portals[k].id);
    var remaining := afterIndex.Keys;
    drafts, collapses, visit := [], [], [];
    while remaining != {}
      invariant remaining <= afterIndex.Keys && Progress(ids, remaining, visit)
      invariant drafts == VisitPortals(t, visit, cfg) && collapses == VisitCollapses(t, visit)
      invariant VisitedEnds(t, visit)
      decreases |remaining|
    {
      HasMember(remaining);
      var id :| id in remaining;
      var k := afterIndex[id];
      var recorded, found, collapsed := PortalPart(t, k, beforeIndex, cfg);
      if !recorded {
        return false, drafts, collapses, visit;
      }
      ProgressStep(afterIndex, ids, remaining, visit, id);
      VisitPortalStep(t, visit, k, cfg);
      drafts, collapses := drafts + found, collapses + collapsed;
      visit := visit + [k];
      remaining := remaining - {id};
    }
    AllEndsVisited(t, visit);
    ok := true;
  }

  /** The window events, cutting the interval at each collapse in turn. */
  method DeriveOverride(deadline: Option<Time>, collapses: seq<Collapse>, previousAt: Time, now: Time, cfg: Config)
    returns (drafts: seq<Draft>)
    ensures drafts == OverrideDrafts(deadline, previousAt, Sort(collapses, CollapseBefore()), now, cfg)
  {
    var cs := Sort(collapses, CollapseBefore());
    drafts := CutAtCollapses(deadline, cs, previousAt, now, cfg);
  }

  /** One collapse further into the list. */
  lemma CutStep(done: seq<Draft>, until: Option<Time>, start: Time, cs: seq<Collapse>, i: nat, now: Time, cfg: Config)
    requires i < |cs|
    ensures done + OverrideDrafts(until, start, cs[i..], now, cfg) ==
            done + EndedBy(until, start, cs[i].at) + [StartedBy(cs[i], cfg)]
            + OverrideDrafts(Some(cs[i].at + cfg.emergencyDuration), cs[i].at, cs[i + 1..], now, cfg)
  {
    var c, ended := cs[i], EndedBy(until, start, cs[i].at);
    assert cs[i..][0] == c && cs[i..][1..] == cs[i + 1..];
    var rest := OverrideDrafts(Some(c.at + cfg.emergencyDuration), c.at, cs[i + 1..], now, cfg);
    WindowsUnfold(until, start, cs[i..], now, cfg);
    ConcatAssociates(done, ended + [StartedBy(c, cfg)], rest);
    ConcatAssociates(done, ended, [StartedBy(c, cfg)]);
  }

  /** The end of a window, where the interval holds it. */
  method EndWindow(drafts: seq<Draft>, until: Option<Time>, start: Time, moment: Time) returns (r: seq<Draft>)
    ensures r == drafts + EndedBy(until, start, moment)
  {
    r := drafts;
    if until.Some? && start < until.value && until.value <= moment {
      r := drafts + [Draft(OverrideEnded, None, None, None, NoDetail, until.value)];
    }
  }

  /** A collapse ends the window it finds over and starts its own. */
  method CutAt(drafts: seq<Draft>, until: Option<Time>, start: Time, c: Collapse, cfg: Config) returns (r: seq<Draft>)
    ensures r == drafts + EndedBy(until, start, c.at) + [StartedBy(c, cfg)]
  {
    r := EndWindow(drafts, until, start, c.at);
    r := r + [Draft(OverrideStarted, Some(c.portalID), None, Some(c.planeID), Until(c.at + cfg.emergencyDuration), c.at)];
  }

  method CutAtCollapses(deadline: Option<Time>, cs: seq<Collapse>, previousAt: Time, now: Time, cfg: Config)
    returns (drafts: seq<Draft>)
    ensures drafts == OverrideDrafts(deadline, previousAt, cs, now, cfg)
  {
    var until, windowStart := deadline, previousAt;
    drafts := [];
    ghost var whole := OverrideDrafts(deadline, previousAt, cs, now, cfg);
    assert cs[0..] == cs;
    for i := 0 to |cs|
      invariant drafts + OverrideDrafts(until, windowStart, cs[i..], now, cfg) == whole
    {
      CutStep(drafts, until, windowStart, cs, i, now, cfg);
      drafts := CutAt(drafts, until, windowStart, cs[i], cfg);
      until, windowStart := Some(cs[i].at + cfg.emergencyDuration), cs[i].at;
    }
    drafts := EndWindow(drafts, until, windowStart, now);
  }

  ghost predicate VisitedChanges(t: Transition, visit: seq<nat>) {
    && InRange(visit, |t.after.observers|)
    && forall i :: 0 <= i < |visit| ==> ChangeRecorded(t, t.after.observers[visit[i]])
  }

  lemma AllChangesVisited(t: Transition, visit: seq<nat>)
    requires VisitedChanges(t, visit) && forall k :: 0 <= k < |t.after.observers| ==> k in visit
    ensures ChangesRecorded(t)
  {
    forall k | 0 <= k < |t.after.observers| ensures ChangeRecorded(t, t.after.observers[k]) {
      assert k in visit;
      var i :| 0 <= i < |visit| && visit[i] == k;
    }
  }

  /** One observer's drafts, its prior version found through the map. */
  method ObserverPart(t: Transition, k: nat, beforeIndex: map<int, nat>, cfg: Config) returns (ok: bool, drafts: seq<Draft>)
    requires k < |t.after.observers|
    requires forall id :: FindObserver(t.before.observers, id) == if id in beforeIndex then Some(beforeIndex[id]) else None
    ensures ok <==> ChangeRecorded(t, t.after.observers[k])
    ensures ok ==> drafts == EventsAt(t, k, cfg)
  {
    var o := t.after.observers[k];
    assert FindObserver(t.before.observers, o.id) == if o.id in beforeIndex then Some(beforeIndex[o.id]) else None;
    if o.id !in beforeIndex {
      return true, [];
    }
    var prior := t.before.observers[beforeIndex[o.id]];
    ok := PhaseRecorded(prior, o) && (o.status == Lost && prior.status != Lost ==> o.updatedAt <= t.now);
    drafts := ObserverDrafts(prior, o, t.before.portals, t.after.portals, cfg);
  }

  /** Walks the after-observers in whatever order their map yields them. */
  method DeriveObservers(t: Transition, beforeIndex: map<int, nat>, afterIndex: map<int, nat>, cfg: Config)
    returns (ok: bool, drafts: seq<Draft>, ghost visit: seq<nat>)
    requires forall id :: FindObserver(t.before.observers, id) == if id in beforeIndex then Some(beforeIndex[id]) else None
    requires forall id :: id in afterIndex ==> afterIndex[id] < |t.after.observers| && t.after.observers[afterIndex[id]].id == id
    requires forall k :: 0 <= k < |t.after.observers| ==> t.after.observers[k].id in afterIndex && afterIndex[t.after.observers[k].id] == k
    ensures ok <==> ChangesRecorded(t)
    ensures ok ==> Visits(visit, |t.after.observers|) && drafts == VisitObservers(t, visit, cfg)
  {
    ghost var ids := seq(|t.after.observers|, k requires 0 <= k < |t.after.observers| => t.after.observers[k].id);
    var remaining := afterIndex.Keys;
    drafts, visit := [], [];
    while remaining != {}
      invariant remaining <= afterIndex.Keys && Progress(ids, remaining, visit)
      invariant drafts == VisitObservers(t, visit, cfg)
      invariant VisitedChanges(t, visit)
      decreases |remaining|
    {
      HasMember(remaining);
      var id :| id in remaining;
      var k := afterIndex[id];
      var recorded, events := ObserverPart(t, k, beforeIndex, cfg);
      if !recorded {
        return false, drafts, visit;
      }
      ProgressStep(afterIndex, ids, remaining, visit, id);
      VisitObserverStep(t, visit, k, cfg);
      drafts := drafts + events;
      visit := visit + [k];
      remaining := remaining - {id};
    }
    AllChangesVisited(t, visit);
    ok := true;
  }

  /** Indexes both portal lists, then derives their drafts and collapses. */
  method PortalsPart(t: Transition, cfg: Config)
    returns (ok: bool, drafts: seq<Draft>, collapses: seq<Collapse>, ghost visit: seq<nat>)
    ensures ok <==> PositiveDistinctPortals(t.before.portals) && PositiveDistinctPortals(t.after.portals) && EndsRecorded(t)
    ensures ok ==> Visits(visit, |t.after.portals|)
                   && drafts == VisitPortals(t, visit, cfg) && collapses == VisitCollapses(t, visit)
  {
    drafts, collapses, visit := [], [], [];
    var before, after;
    ok, before := IndexPortals(t.before.portals);
    if !ok {
      return;
    }
    ok, after := IndexPortals(t.after.portals);
    if !ok {
      return;
    }
    ok, drafts, collapses, visit := DerivePortals(t, before, after, cfg);
  }

  method ObserversPart(t: Transition, cfg: Config) returns (ok: bool, drafts: seq<Draft>, ghost visit: seq<nat>)
    ensures ok <==> PositiveDistinctObservers(t.before.observers) && PositiveDistinctObservers(t.after.observers) && ChangesRecorded(t)
    ensures ok ==> Visits(visit, |t.after.observers|) && drafts == VisitObservers(t, visit, cfg)
  {
    drafts, visit := [], [];
    var before, after;
    ok, before := IndexObservers(t.before.observers);
    if !ok {
      return;
    }
    ok, after := IndexObservers(t.after.observers);
    if !ok {
      return;
    }
    ok, drafts, visit := DeriveObservers(t, before, after, cfg);
  }

  method PlanesPart(t: Transition) returns (ok: bool, drafts: seq<Draft>)
    ensures ok <==> PositiveDistinctPlanes(t.before.planes) && PositiveDistinctPlanes(t.after.planes)
    ensures ok ==> drafts == VisitPlanes(t.before.planes, t.after.planes)
  {
    drafts := [];
    var before, after;
    ok, before := IndexPlanes(t.before.planes);
    if !ok {
      return;
    }
    ok, after := IndexPlanes(t.after.planes);
    if ok {
      drafts := DerivePlanes(t.before.planes, before, t.after.planes);
    }
  }

  method DerivePlanes(before: seq<Plane>, beforeIndex: map<int, nat>, after: seq<Plane>) returns (drafts: seq<Draft>)
    requires forall id :: FindPlane(before, id) == if id in beforeIndex then Some(beforeIndex[id]) else None
    ensures drafts == VisitPlanes(before, after)
  {
    drafts := [];
    for i := 0 to |after|
      invariant drafts == VisitPlanes(before, after[..i])
    {
      assert after[..i + 1][..i] == after[..i];
      assert FindPlane(before, after[i].id) == if after[i].id in beforeIndex then Some(beforeIndex[after[i].id]) else None;
      if after[i].id !in beforeIndex || before[beforeIndex[after[i].id]].explored || !after[i].explored || after[i].exploredAt.None? {
        continue;
      }
      drafts := drafts + [Draft(PlaneExplored, None, None, Some(after[i].id), NoDetail, after[i].exploredAt.value)];
    }
    assert after[..|after|] == after;
  }

  method AllValid(drafts: seq<Draft>) returns (ok: bool)
    ensures ok <==> AllDraftsValid(drafts)
  {
    for i := 0 to |drafts|
      invariant forall j :: 0 <= j < i ==> drafts[j].Valid()
    {
      if !drafts[i].Valid() {
        assert drafts[i] in drafts;
        return false;
      }
    }
    ok := true;
  }

  /** Everything but the sort: the drafts, collected in some iteration order. */
  method CollectDrafts(t: Transition, cfg: Config) returns (ok: bool, drafts: seq<Draft>)
    ensures ok <==> Derivable(t)
    ensures ok ==> Sort(drafts, LogOrder()) == EventLog(t, cfg)
  {
    drafts := [];
    var portalDrafts, collapses, observerDrafts, planeDrafts;
    ghost var portalVisit, observerVisit;
    ok, portalDrafts, collapses, portalVisit := PortalsPart(t, cfg);
    if !ok {
      return;
    }
    var overrideDrafts := DeriveOverride(t.before.lab.overrideUntil, collapses, t.previousAt, t.now, cfg);
    ok, observerDrafts, observerVisit := ObserversPart(t, cfg);
    if !ok {
      return;
    }
    ok, planeDrafts := PlanesPart(t);
    if !ok {
      return;
    }
    drafts := portalDrafts + overrideDrafts + observerDrafts + planeDrafts;
    SortedDraftsAreTheLog(t, portalVisit, observerVisit, cfg);
  }

  /** For every iteration order of its maps the derivation returns the one log of the transition, and
      refuses exactly the transitions that cannot be logged. */
  method EventsForStateTransition(t: Transition, cfg: Config) returns (r: Result<seq<Draft>>)
    ensures r == EventsFor(t, cfg)
  {
    if t.now < t.previousAt {
      return Err(EventInvariant);
    }
    var ok, drafts := CollectDrafts(t, cfg);
    if !ok {
      return Err(EventInvariant);
    }
    var events := Sort(drafts, LogOrder());
    var valid := AllValid(events);
    r := if valid then Ok(events) else Err(EventInvariant);
  }

  lemma SortedDraftsAreTheLog(t: Transition, portalVisit: seq<nat>, observerVisit: seq<nat>, cfg: Config)
    ensures Identified(t) && Visits(portalVisit, |t.after.portals|) && Visits(observerVisit, |t.after.observers|) ==>
              Sort(Collected(t, portalVisit, observerVisit, cfg), LogOrder()) == EventLog(t, cfg)
  {
    if Identified(t) && Visits(portalVisit, |t.after.portals|) && Visits(observerVisit, |t.after.observers|) {
      IndicesVisit(|t.after.portals|);
      IndicesVisit(|t.after.observers|);
      IterationOrderDoesNotMatter(t, portalVisit, Indices(|t.after.portals|), observerVisit, Indices(|t.after.observers|), cfg);
    }
  }
}

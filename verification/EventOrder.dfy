/** The event log does not depend on the order in which the program iterates its maps. */
module EventOrder {
  import opened Base
  import opened Sorting
  import opened Portals
  import opened Observers
  import opened States
  import opened Events

  ghost predicate KeysDistinct(xs: seq<Draft>) {
    forall i, j :: 0 <= i < j < |xs| ==> !SameKey(xs[i], xs[j])
  }

  lemma ConcatKeys(xs: seq<Draft>, ys: seq<Draft>)
    requires KeysDistinct(xs) && KeysDistinct(ys)
    requires forall x, y :: x in xs && y in ys ==> !SameKey(x, y)
    ensures KeysDistinct(xs + ys)
  {
  }

  ghost predicate Kinds(xs: seq<Draft>, ks: set<EventType>) {
    forall x :: x in xs ==> x.kind in ks
  }

  lemma ConcatKinds(xs: seq<Draft>, ys: seq<Draft>, ks: set<EventType>, ls: set<EventType>)
    requires KeysDistinct(xs) && KeysDistinct(ys) && Kinds(xs, ks) && Kinds(ys, ls) && ks !! ls
    ensures KeysDistinct(xs + ys) && Kinds(xs + ys, ks + ls)
  {
  }

  /** The orders a map over `n` entries may be iterated in. */
  ghost predicate Visits(visit: seq<nat>, n: nat) {
    && InRange(visit, n) && NoDuplicates(visit)
    && forall k :: 0 <= k < n ==> k in visit
  }

  /** Which part of the derivation emits events of a type. */
  function Source(k: EventType): int {
    match k
    case PortalOpened => 0
    case ExtractionPortalOpened => 0
    case PortalClosed => 0
    case PortalCollapsed => 0
    case PortalStabilized => 0
    case ExtractionSynchronized => 0
    case RiskLevelChanged => 0
    case OverrideStarted => 1
    case OverrideEnded => 1
    case ObserverDispatched => 2
    case ObserverArrived => 2
    case ResearchStarted => 2
    case ResearchCompleted => 2
    case ObserverReturnStarted => 2
    case ObserverReturned => 2
    case ObserverLost => 2
    case PlaneExplored => 3
    case ActionRejected => 4
  }

  ghost predicate From(xs: seq<Draft>, low: int, high: int) {
    forall x :: x in xs ==> low <= Source(x.kind) <= high
  }

  lemma ConcatSources(xs: seq<Draft>, ys: seq<Draft>, k: int)
    requires KeysDistinct(xs) && KeysDistinct(ys) && From(xs, 0, k) && From(ys, k + 1, k + 1)
    ensures KeysDistinct(xs + ys) && From(xs + ys, 0, k + 1)
  {
  }

  // ---------------------------------------------------------------- portals

  ghost predicate PortalDraftsOf(xs: seq<Draft>, id: int) {
    KeysDistinct(xs) && forall x :: x in xs ==> Source(x.kind) == 0 && x.portal == Some(id)
  }

  lemma JoinPortalDrafts(xs: seq<Draft>, ys: seq<Draft>, id: int)
    requires PortalDraftsOf(xs, id) && PortalDraftsOf(ys, id)
    requires forall x, y :: x in xs && y in ys ==> x.kind != y.kind
    ensures PortalDraftsOf(xs + ys, id)
  {
  }

  lemma SinglePortalKeys(prior: Option<Portal>, p: Portal, previousAt: Time, now: Time, cfg: Config)
    ensures PortalDraftsOf(PortalDrafts(prior, p, previousAt, now, cfg), p.id)
  {
    if prior.Some? {
      var ended, stabilized := TerminationDrafts(prior.value, p), StabilizationDrafts(prior.value, p);
      var synced, risk := SynchronizationDrafts(prior.value, p), RiskDrafts(prior.value, p, previousAt, now, cfg);
      JoinPortalDrafts(ended, stabilized, p.id);
      JoinPortalDrafts(ended + stabilized, synced, p.id);
      JoinPortalDrafts(ended + stabilized + synced, risk, p.id);
    }
  }

  function DraftsAt(t: Transition, k: nat, cfg: Config): seq<Draft>
    requires k < |t.after.portals|
  {
    PortalDrafts(PriorPortal(t.before.portals, t.after.portals[k].id), t.after.portals[k], t.previousAt, t.now, cfg)
  }

  lemma {:induction false} PortalMembers(t: Transition, visit: seq<nat>, cfg: Config)
    requires InRange(visit, |t.after.portals|)
    ensures forall x :: x in VisitPortals(t, visit, cfg) <==> exists k :: k in visit && x in DraftsAt(t, k, cfg)
  {
    if |visit| > 0 {
      var init, k := visit[..|visit| - 1], visit[|visit| - 1];
      PortalMembers(t, init, cfg);
      assert VisitPortals(t, visit, cfg) == VisitPortals(t, init, cfg) + DraftsAt(t, k, cfg);
      assert visit == init + [k];
    }
  }

  lemma {:induction false} PortalKeys(t: Transition, visit: seq<nat>, cfg: Config)
    requires InRange(visit, |t.after.portals|) && NoDuplicates(visit) && PositiveDistinctPortals(t.after.portals)
    ensures KeysDistinct(VisitPortals(t, visit, cfg))
    ensures forall x :: x in VisitPortals(t, visit, cfg) ==> Source(x.kind) == 0
  {
    if |visit| > 0 {
      var init, k := visit[..|visit| - 1], visit[|visit| - 1];
      PortalKeys(t, init, cfg);
      PortalMembers(t, init, cfg);
      var earlier, here := VisitPortals(t, init, cfg), DraftsAt(t, k, cfg);
      SinglePortalKeys(PriorPortal(t.before.portals, t.after.portals[k].id), t.after.portals[k], t.previousAt, t.now, cfg);
      forall x, y | x in earlier && y in here ensures !SameKey(x, y) {
        var j :| j in init && x in DraftsAt(t, j, cfg);
        var i :| 0 <= i < |init| && init[i] == j;
        assert visit[i] == j && j != k;
        SinglePortalKeys(PriorPortal(t.before.portals, t.after.portals[j].id), t.after.portals[j], t.previousAt, t.now, cfg);
      }
      ConcatKeys(earlier, here);
    }
  }

  // ---------------------------------------------------------------- collapses and windows

  function CollapseAt(t: Transition, k: nat): seq<Collapse>
    requires k < |t.after.portals|
  {
    CollapseOf(PriorPortal(t.before.portals, t.after.portals[k].id), t.after.portals[k])
  }

  lemma {:induction false} CollapseMembers(t: Transition, visit: seq<nat>)
    requires InRange(visit, |t.after.portals|)
    ensures forall x :: x in VisitCollapses(t, visit) <==> exists k :: k in visit && x in CollapseAt(t, k)
  {
    if |visit| > 0 {
      var init, k := visit[..|visit| - 1], visit[|visit| - 1];
      CollapseMembers(t, init);
      assert VisitCollapses(t, visit) == VisitCollapses(t, init) + CollapseAt(t, k);
      assert visit == init + [k];
    }
  }

  function StartedBy(c: Collapse, cfg: Config): Draft {
    Draft(OverrideStarted, Some(c.portalID), None, Some(c.planeID), Until(c.at + cfg.emergencyDuration), c.at)
  }

  lemma WindowsUnfold(deadline: Option<Time>, start: Time, cs: seq<Collapse>, now: Time, cfg: Config)
    requires |cs| > 0
    ensures OverrideDrafts(deadline, start, cs, now, cfg) ==
            EndedBy(deadline, start, cs[0].at) + [StartedBy(cs[0], cfg)]
            + OverrideDrafts(Some(cs[0].at + cfg.emergencyDuration), cs[0].at, cs[1..], now, cfg)
  {
  }

  ghost predicate DistinctCollapses(cs: seq<Collapse>) {
    forall i, j :: 0 <= i < j < |cs| ==> cs[i].portalID != cs[j].portalID
  }

  lemma {:induction false} CollapsesAreDistinct(t: Transition, visit: seq<nat>)
    requires InRange(visit, |t.after.portals|) && NoDuplicates(visit) && PositiveDistinctPortals(t.after.portals)
    ensures DistinctCollapses(VisitCollapses(t, visit))
    ensures forall c :: c in VisitCollapses(t, visit) ==> c.portalID > 0
  {
    if |visit| > 0 {
      var init, k := visit[..|visit| - 1], visit[|visit| - 1];
      CollapsesAreDistinct(t, init);
      CollapseMembers(t, init);
      var earlier, here := VisitCollapses(t, init), CollapseAt(t, k);
      forall c | c in earlier ensures c.portalID != t.after.portals[k].id {
        var j :| j in init && c in CollapseAt(t, j);
        var i :| 0 <= i < |init| && init[i] == j;
        assert visit[i] == j && j != k;
      }
      assert forall i :: 0 <= i < |earlier| ==> earlier[i] in earlier;
    }
  }

  lemma CollapseOrderIsStrict()
    ensures StrictOrder(CollapseBefore())
  {
  }

  ghost predicate Chronicle(cs: seq<Collapse>) {
    forall i, j :: 0 <= i < j < |cs| ==> cs[i].at <= cs[j].at && cs[i].portalID != cs[j].portalID
  }

  lemma SortedCollapses(cs: seq<Collapse>)
    requires DistinctCollapses(cs)
    ensures Chronicle(Sort(cs, CollapseBefore()))
    ensures forall c :: c in Sort(cs, CollapseBefore()) <==> c in cs
  {
    CollapseOrderIsStrict();
    SortStrictly(cs, CollapseBefore());
    SameElements(Sort(cs, CollapseBefore()), cs);
    var sorted := Sort(cs, CollapseBefore());
    forall i, j | 0 <= i < j < |sorted| ensures sorted[i].portalID != sorted[j].portalID {
      assert sorted[i] in cs && sorted[j] in cs;
      var a :| 0 <= a < |cs| && cs[a] == sorted[i];
      var b :| 0 <= b < |cs| && cs[b] == sorted[j];
      assert CollapseBefore()(sorted[i], sorted[j]);
    }
  }

  lemma {:induction false} WindowsEndAfter(deadline: Option<Time>, start: Time, cs: seq<Collapse>, floor: Time, now: Time, cfg: Config)
    requires deadline.Some? ==> floor <= deadline.value
    requires forall c :: c in cs ==> floor <= c.at + cfg.emergencyDuration
    ensures forall d :: d in OverrideDrafts(deadline, start, cs, now, cfg) && d.kind == OverrideEnded ==> floor <= d.at
    decreases |cs|
  {
    if |cs| > 0 {
      assert cs[0] in cs && forall x :: x in cs[1..] ==> x in cs;
      WindowsEndAfter(Some(cs[0].at + cfg.emergencyDuration), cs[0].at, cs[1..], floor, now, cfg);
    }
  }

  /** The draft starts the window of one of the collapses. */
  ghost predicate StartsOne(d: Draft, cs: seq<Collapse>) {
    exists c :: c in cs && d.portal == Some(c.portalID)
  }

  lemma {:induction false} WindowsStartAtCollapses(deadline: Option<Time>, start: Time, cs: seq<Collapse>, now: Time, cfg: Config)
    ensures var ds := OverrideDrafts(deadline, start, cs, now, cfg);
            && From(ds, 1, 1)
            && forall d :: d in ds && d.kind == OverrideStarted ==> StartsOne(d, cs)
    decreases |cs|
  {
    if |cs| > 0 {
      var c, rest := cs[0], cs[1..];
      WindowsStartAtCollapses(Some(c.at + cfg.emergencyDuration), c.at, rest, now, cfg);
      forall d: Draft | StartsOne(d, rest) ensures StartsOne(d, cs) {
        var x :| x in rest && d.portal == Some(x.portalID);
        assert x in cs;
      }
      forall d: Draft | d.portal == Some(c.portalID) ensures StartsOne(d, cs) {
        assert c in cs;
      }
    }
  }

  lemma WindowCross(x: Draft, y: Draft, c: Collapse, rest: seq<Collapse>, until: Time)
    requires (x.kind == OverrideEnded && x.at < until) || (x.kind == OverrideStarted && x.portal == Some(c.portalID))
    requires y.kind == OverrideEnded ==> until <= y.at
    requires y.kind == OverrideStarted ==> StartsOne(y, rest)
    requires forall c' :: c' in rest ==> c'.portalID != c.portalID && c'.portalID > 0
    requires c.portalID > 0
    ensures !SameKey(x, y)
  {
  }

  lemma ChronicleTail(cs: seq<Collapse>)
    requires Chronicle(cs) && |cs| > 0
    ensures Chronicle(cs[1..])
    ensures forall x :: x in cs[1..] ==> cs[0].at <= x.at && x.portalID != cs[0].portalID && x in cs
  {
  }

  /** The window a collapse opens shares no key with what comes before it. */
  lemma WindowHeadKeys(deadline: Option<Time>, start: Time, c: Collapse, rest: seq<Collapse>, now: Time, cfg: Config)
    requires c.portalID > 0 && forall x :: x in rest ==> c.at <= x.at && x.portalID != c.portalID && x.portalID > 0
    ensures var until := c.at + cfg.emergencyDuration;
            var head := EndedBy(deadline, start, c.at)
                        + [StartedBy(c, cfg)];
            forall x, y :: x in head && y in OverrideDrafts(Some(until), c.at, rest, now, cfg) ==> !SameKey(x, y)
  {
    var until := c.at + cfg.emergencyDuration;
    var head := EndedBy(deadline, start, c.at)
                + [StartedBy(c, cfg)];
    var later := OverrideDrafts(Some(until), c.at, rest, now, cfg);
    WindowsEndAfter(Some(until), c.at, rest, until, now, cfg);
    WindowsStartAtCollapses(Some(until), c.at, rest, now, cfg);
    forall x, y | x in head && y in later ensures !SameKey(x, y) {
      WindowCross(x, y, c, rest, until);
    }
  }

  /** Window events never share a key: starts differ by portal, ends by deadline. */
  lemma {:induction false} OverrideKeys(deadline: Option<Time>, start: Time, cs: seq<Collapse>, now: Time, cfg: Config)
    requires Chronicle(cs) && forall c :: c in cs ==> c.portalID > 0
    ensures KeysDistinct(OverrideDrafts(deadline, start, cs, now, cfg))
    decreases |cs|
  {
    if |cs| > 0 {
      var c, rest := cs[0], cs[1..];
      ChronicleTail(cs);
      assert c in cs;
      var until := c.at + cfg.emergencyDuration;
      OverrideKeys(Some(until), c.at, rest, now, cfg);
      var ended := EndedBy(deadline, start, c.at);
      var started := [StartedBy(c, cfg)];
      ConcatKeys(ended, started);
      WindowHeadKeys(deadline, start, c, rest, now, cfg);
      ConcatKeys(ended + started, OverrideDrafts(Some(until), c.at, rest, now, cfg));
    }
  }

  // ---------------------------------------------------------------- observers

  ghost predicate ObserverDraftsOf(xs: seq<Draft>, id: int) {
    KeysDistinct(xs) && forall x :: x in xs ==> Source(x.kind) == 2 && x.observer == Some(id)
  }

  lemma SingleObserverKeys(prior: Observer, o: Observer, before: seq<Portal>, after: seq<Portal>, cfg: Config)
    ensures ObserverDraftsOf(ObserverDrafts(prior, o, before, after, cfg), o.id)
  {
    var a, b, c, d, e := DepartureDrafts(prior, o, after), ArrivalDrafts(prior, o, before, cfg), ReturnStartDrafts(prior, o),
                         HomecomingDrafts(prior, o), LossDrafts(prior, o, before);
    var ka, kb, kc, kd, ke := {ObserverDispatched}, {ObserverArrived, ResearchStarted, ResearchCompleted},
                              {ObserverReturnStarted}, {ObserverReturned}, {ObserverLost};
    ArrivalKeys(prior, o, before, cfg);
    ConcatKinds(a, b, ka, kb);
    ConcatKinds(a + b, c, ka + kb, kc);
    ConcatKinds(a + b + c, d, ka + kb + kc, kd);
    ConcatKinds(a + b + c + d, e, ka + kb + kc + kd, ke);
    var all := a + b + c + d + e;
    forall x: Draft | x in all ensures Source(x.kind) == 2 && x.observer == Some(o.id) {
      assert x in a || x in b || x in c || x in d || x in e;
    }
  }

  lemma ArrivalKeys(prior: Observer, o: Observer, before: seq<Portal>, cfg: Config)
    ensures var b := ArrivalDrafts(prior, o, before, cfg);
            && KeysDistinct(b) && Kinds(b, {ObserverArrived, ResearchStarted, ResearchCompleted})
            && forall x :: x in b ==> x.observer == Some(o.id)
  {
  }

  function EventsAt(t: Transition, k: nat, cfg: Config): seq<Draft>
    requires k < |t.after.observers|
  {
    ObserverEvents(t.before, t.after, t.after.observers[k], cfg)
  }

  lemma EventsAtKeys(t: Transition, k: nat, cfg: Config)
    requires k < |t.after.observers|
    ensures ObserverDraftsOf(EventsAt(t, k, cfg), t.after.observers[k].id)
  {
    var found := FindObserver(t.before.observers, t.after.observers[k].id);
    if found.Some? {
      SingleObserverKeys(t.before.observers[found.value], t.after.observers[k], t.before.portals, t.after.portals, cfg);
    }
  }

  lemma {:induction false} ObserverMembers(t: Transition, visit: seq<nat>, cfg: Config)
    requires InRange(visit, |t.after.observers|)
    ensures forall x :: x in VisitObservers(t, visit, cfg) <==> exists k :: k in visit && x in EventsAt(t, k, cfg)
  {
    if |visit| > 0 {
      var init, k := visit[..|visit| - 1], visit[|visit| - 1];
      ObserverMembers(t, init, cfg);
      assert VisitObservers(t, visit, cfg) == VisitObservers(t, init, cfg) + EventsAt(t, k, cfg);
      assert visit == init + [k];
    }
  }

  lemma {:induction false} ObserverKeys(t: Transition, visit: seq<nat>, cfg: Config)
    requires InRange(visit, |t.after.observers|) && NoDuplicates(visit) && PositiveDistinctObservers(t.after.observers)
    ensures KeysDistinct(VisitObservers(t, visit, cfg))
    ensures forall x :: x in VisitObservers(t, visit, cfg) ==> Source(x.kind) == 2
  {
    if |visit| > 0 {
      var init, k := visit[..|visit| - 1], visit[|visit| - 1];
      ObserverKeys(t, init, cfg);
      ObserverMembers(t, init, cfg);
      var earlier, here := VisitObservers(t, init, cfg), EventsAt(t, k, cfg);
      EventsAtKeys(t, k, cfg);
      forall x, y | x in earlier && y in here ensures !SameKey(x, y) {
        var j :| j in init && x in EventsAt(t, j, cfg);
        var i :| 0 <= i < |init| && init[i] == j;
        assert visit[i] == j && j != k;
        EventsAtKeys(t, j, cfg);
      }
      ConcatKeys(earlier, here);
    }
  }

  // ---------------------------------------------------------------- planes

  lemma {:induction false} PlaneKeys(before: seq<Plane>, after: seq<Plane>)
    requires PositiveDistinctPlanes(after)
    ensures var ds := VisitPlanes(before, after);
            && KeysDistinct(ds)
            && forall d :: d in ds ==> d.kind == PlaneExplored && exists k :: 0 <= k < |after| && d.plane == Some(after[k].id)
  {
    if |after| > 0 {
      var init, p := after[..|after| - 1], after[|after| - 1];
      PlaneKeys(before, init);
      var earlier, here := VisitPlanes(before, init), PlaneDrafts(PriorPlane(before, p.id), p);
      forall d | d in earlier ensures d.kind == PlaneExplored && d.plane.Some? && d.plane.value > 0 && d.plane.value != p.id
        && exists k :: 0 <= k < |after| && d.plane == Some(after[k].id)
      {
        var k :| 0 <= k < |init| && d.plane == Some(init[k].id);
        assert after[k] == init[k];
      }
      ConcatKeys(earlier, here);
      assert after[|after| - 1] == p;
    }
  }

  // ---------------------------------------------------------------- the log

  /** No two drafts of a transition agree in the full sort key, in whatever order they are collected. */
  lemma CollectedKeys(t: Transition, portalVisit: seq<nat>, observerVisit: seq<nat>, cfg: Config)
    requires Identified(t)
    requires InRange(portalVisit, |t.after.portals|) && NoDuplicates(portalVisit)
    requires InRange(observerVisit, |t.after.observers|) && NoDuplicates(observerVisit)
    ensures KeysDistinct(Collected(t, portalVisit, observerVisit, cfg))
  {
    var cs := VisitCollapses(t, portalVisit);
    var sorted := Sort(cs, CollapseBefore());
    var a := VisitPortals(t, portalVisit, cfg);
    var b := OverrideDrafts(t.before.lab.overrideUntil, t.previousAt, sorted, t.now, cfg);
    var c := VisitObservers(t, observerVisit, cfg);
    var d := VisitPlanes(t.before.planes, t.after.planes);
    PortalKeys(t, portalVisit, cfg);
    CollapsesAreDistinct(t, portalVisit);
    SortedCollapses(cs);
    OverrideKeys(t.before.lab.overrideUntil, t.previousAt, sorted, t.now, cfg);
    ObserverKeys(t, observerVisit, cfg);
    PlaneKeys(t.before.planes, t.after.planes);
    WindowsStartAtCollapses(t.before.lab.overrideUntil, t.previousAt, sorted, t.now, cfg);
    ConcatSources(a, b, 0);
    ConcatSources(a + b, c, 1);
    ConcatSources(a + b + c, d, 2);
  }

  lemma VisitsAgree(v: seq<nat>, w: seq<nat>, n: nat)
    requires Visits(v, n) && Visits(w, n)
    ensures forall k :: k in v <==> k in w
  {
  }

  /** The window events are the same for every iteration order, because the collapses are sorted first. */
  lemma CollapsesAgree(t: Transition, v: seq<nat>, w: seq<nat>)
    requires Identified(t) && Visits(v, |t.after.portals|) && Visits(w, |t.after.portals|)
    ensures Sort(VisitCollapses(t, v), CollapseBefore()) == Sort(VisitCollapses(t, w), CollapseBefore())
  {
    CollapseMembers(t, v);
    CollapseMembers(t, w);
    CollapsesAreDistinct(t, v);
    CollapsesAreDistinct(t, w);
    CollapseOrderIsStrict();
    VisitsAgree(v, w, |t.after.portals|);
    SortIsCanonical(VisitCollapses(t, v), VisitCollapses(t, w), CollapseBefore());
  }

  lemma CollectedMembersAgree(t: Transition, v: seq<nat>, v': seq<nat>, w: seq<nat>, w': seq<nat>, cfg: Config)
    requires Identified(t)
    requires Visits(v, |t.after.portals|) && Visits(v', |t.after.portals|)
    requires Visits(w, |t.after.observers|) && Visits(w', |t.after.observers|)
    ensures forall x :: x in Collected(t, v, w, cfg) <==> x in Collected(t, v', w', cfg)
  {
    PortalMembers(t, v, cfg);
    PortalMembers(t, v', cfg);
    VisitsAgree(v, v', |t.after.portals|);
    CollapsesAgree(t, v, v');
    ObserverMembers(t, w, cfg);
    ObserverMembers(t, w', cfg);
    VisitsAgree(w, w', |t.after.observers|);
    assert forall x :: x in VisitPortals(t, v, cfg) <==> x in VisitPortals(t, v', cfg);
    assert forall x :: x in VisitObservers(t, w, cfg) <==> x in VisitObservers(t, w', cfg);
  }

  lemma SeparateKeys(xs: seq<Draft>)
    requires KeysDistinct(xs)
    ensures Separated(xs, LogOrder())
  {
    forall i, j | 0 <= i < j < |xs| ensures LogOrder()(xs[i], xs[j]) || LogOrder()(xs[j], xs[i]) {
      DifferentKeysAreOrdered(xs[i], xs[j]);
    }
  }

  /** Whatever order the portal and observer maps are iterated in, the sorted log is the same. */
  lemma IterationOrderDoesNotMatter(t: Transition, v: seq<nat>, v': seq<nat>, w: seq<nat>, w': seq<nat>, cfg: Config)
    requires Identified(t)
    requires Visits(v, |t.after.portals|) && Visits(v', |t.after.portals|)
    requires Visits(w, |t.after.observers|) && Visits(w', |t.after.observers|)
    ensures Sort(Collected(t, v, w, cfg), LogOrder()) == Sort(Collected(t, v', w', cfg), LogOrder())
  {
    CollectedKeys(t, v, w, cfg);
    CollectedKeys(t, v', w', cfg);
    SeparateKeys(Collected(t, v, w, cfg));
    SeparateKeys(Collected(t, v', w', cfg));
    CollectedMembersAgree(t, v, v', w, w', cfg);
    LogOrderIsStrict();
    SortIsCanonical(Collected(t, v, w, cfg), Collected(t, v', w', cfg), LogOrder());
  }

  lemma IndicesVisit(n: nat)
    ensures Visits(Indices(n), n)
  {
    forall k | 0 <= k < n ensures k in Indices(n) {
      assert Indices(n)[k] == k;
    }
  }

  /** The log is strictly ascending in the sort key, so it is the only arrangement of its events. */
  lemma LogIsStrict(t: Transition, cfg: Config)
    requires Identified(t)
    ensures StrictlySorted(EventLog(t, cfg), LogOrder())
    ensures forall i, j :: 0 <= i < j < |EventLog(t, cfg)| ==> EventLog(t, cfg)[i].at <= EventLog(t, cfg)[j].at
  {
    IndicesVisit(|t.after.portals|);
    IndicesVisit(|t.after.observers|);
    var xs := Collected(t, Indices(|t.after.portals|), Indices(|t.after.observers|), cfg);
    CollectedKeys(t, Indices(|t.after.portals|), Indices(|t.after.observers|), cfg);
    SeparateKeys(xs);
    LogOrderIsStrict();
    SortStrictly(xs, LogOrder());
  }

  // ---------------------------------------------------------------- the parts of a log

  ghost predicate AllFrom(xs: seq<Draft>, source: int) {
    forall x :: x in xs ==> Source(x.kind) == source
  }

  lemma PartsAreSeparate(a: seq<Draft>, b: seq<Draft>, c: seq<Draft>, d: seq<Draft>)
    requires AllFrom(a, 0) && AllFrom(b, 1) && AllFrom(c, 2) && AllFrom(d, 3)
    ensures forall x :: x in a <==> x in a + b + c + d && Source(x.kind) == 0
    ensures forall x :: x in b <==> x in a + b + c + d && Source(x.kind) == 1
    ensures forall x :: x in c <==> x in a + b + c + d && Source(x.kind) == 2
    ensures forall x :: x in d <==> x in a + b + c + d && Source(x.kind) == 3
    ensures AllBelow(a + b + c + d, 4)
  {
  }

  ghost predicate AllBelow(xs: seq<Draft>, source: int) {
    forall x :: x in xs ==> Source(x.kind) < source
  }

  /** The window events of a transition. */
  function WindowsIn(t: Transition, cfg: Config): seq<Draft> {
    OverrideDrafts(t.before.lab.overrideUntil, t.previousAt, CollapsesIn(t), t.now, cfg)
  }

  /** The collapses a transition logs, in their order. */
  function CollapsesIn(t: Transition): seq<Collapse> {
    Sort(VisitCollapses(t, Indices(|t.after.portals|)), CollapseBefore())
  }

  function PortalEvents(t: Transition, cfg: Config): seq<Draft> {
    VisitPortals(t, Indices(|t.after.portals|), cfg)
  }

  function RosterEvents(t: Transition, cfg: Config): seq<Draft> {
    VisitObservers(t, Indices(|t.after.observers|), cfg)
  }

  /** A log consists of what each part of the derivation found, told apart by the event types. */
  lemma LogParts(t: Transition, cfg: Config)
    requires Identified(t)
    ensures forall x :: x in PortalEvents(t, cfg) <==> x in EventLog(t, cfg) && Source(x.kind) == 0
    ensures forall x :: x in WindowsIn(t, cfg) <==> x in EventLog(t, cfg) && Source(x.kind) == 1
    ensures forall x :: x in RosterEvents(t, cfg) <==> x in EventLog(t, cfg) && Source(x.kind) == 2
    ensures forall x :: x in VisitPlanes(t.before.planes, t.after.planes) <==> x in EventLog(t, cfg) && Source(x.kind) == 3
    ensures AllBelow(EventLog(t, cfg), 4)
  {
    var v, w := Indices(|t.after.portals|), Indices(|t.after.observers|);
    IndicesVisit(|t.after.portals|);
    IndicesVisit(|t.after.observers|);
    PortalKeys(t, v, cfg);
    ObserverKeys(t, w, cfg);
    PlaneKeys(t.before.planes, t.after.planes);
    WindowsStartAtCollapses(t.before.lab.overrideUntil, t.previousAt, CollapsesIn(t), t.now, cfg);
    PartsAreSeparate(VisitPortals(t, v, cfg), WindowsIn(t, cfg), VisitObservers(t, w, cfg), VisitPlanes(t.before.planes, t.after.planes));
    SameElements(EventLog(t, cfg), Collected(t, v, w, cfg));
  }
}

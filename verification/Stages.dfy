/** What the stage loops of a tick compute, stated about the lists they walk: booking collapses one by one
    in chronological order, and resolving observers one by one in ID order. */
module Stages {
  import opened Base
  import opened Sorting
  import opened Portals
  import opened Labs
  import opened Observers
  import opened States
  import opened Commands
  import opened Ticks
  import opened Invariants
  import Composition

  // ---------------------------------------------------------------- portal stage

  datatype LifecycleTransition = LifecycleTransition(index: nat, portalID: int, closedAt: Time)

  function EarlierTransition(): (LifecycleTransition, LifecycleTransition) -> bool {
    (a: LifecycleTransition, b: LifecycleTransition) => if a.closedAt == b.closedAt then a.portalID < b.portalID else a.closedAt < b.closedAt
  }

  lemma TransitionOrderIsStrict()
    ensures StrictOrder(EarlierTransition())
  {
  }

  predicate EndsBy(p: Portal, now: Time) {
    p.status == Open && p.Deadline() <= now
  }

  function TransitionOf(ps: seq<Portal>, k: nat): LifecycleTransition
    requires k < |ps|
  {
    LifecycleTransition(k, ps[k].id, ps[k].Deadline())
  }

  /** The transitions of the first `n` portals. */
  function TransitionsUpTo(ps: seq<Portal>, n: nat, now: Time): (ts: seq<LifecycleTransition>)
    requires n <= |ps|
    ensures forall x :: x in ts <==> x.index < n && EndsBy(ps[x.index], now) && x == TransitionOf(ps, x.index)
  {
    if n == 0 then []
    else
      var earlier := TransitionsUpTo(ps, n - 1, now);
      if EndsBy(ps[n - 1], now) then earlier + [TransitionOf(ps, n - 1)] else earlier
  }

  predicate CollapseListed(ps: seq<Portal>, x: LifecycleTransition)
    requires x.index < |ps|
  {
    ps[x.index].FirstEnding().status == Collapsed
  }

  /** The ledger after the listed endings have been booked in turn. */
  function Booked(lab: Lab, ps: seq<Portal>, ts: seq<LifecycleTransition>, cfg: Config): Result<Lab>
    requires forall i :: 0 <= i < |ts| ==> ts[i].index < |ps|
  {
    if |ts| == 0 then Ok(lab)
    else
      var last := ts[|ts| - 1];
      match Booked(lab, ps, ts[..|ts| - 1], cfg)
      case Err(e) => Err(e)
      case Ok(booked) => if CollapseListed(ps, last) then booked.ActivateOverride(last.closedAt, cfg) else Ok(booked)
  }

  ghost predicate Chronological(ts: seq<LifecycleTransition>) {
    forall i, j :: 0 <= i < j < |ts| ==> ts[i].closedAt <= ts[j].closedAt
  }

  /** The last listed collapse. */
  function LastCollapse(ps: seq<Portal>, ts: seq<LifecycleTransition>): (r: Option<Time>)
    requires forall i :: 0 <= i < |ts| ==> ts[i].index < |ps|
    ensures r.None? ==> forall i :: 0 <= i < |ts| ==> !CollapseListed(ps, ts[i])
    ensures r.Some? ==> exists i :: 0 <= i < |ts| && CollapseListed(ps, ts[i]) && ts[i].closedAt == r.value
  {
    if |ts| == 0 then None
    else if CollapseListed(ps, ts[|ts| - 1]) then Some(ts[|ts| - 1].closedAt)
    else LastCollapse(ps, ts[..|ts| - 1])
  }

  /** Some listed collapse predates the ledger. */
  ghost predicate BookedTooEarly(lab: Lab, ps: seq<Portal>, ts: seq<LifecycleTransition>)
    requires forall i :: 0 <= i < |ts| ==> ts[i].index < |ps|
  {
    exists i :: 0 <= i < |ts| && CollapseListed(ps, ts[i]) && ts[i].closedAt < lab.energyBaseAt
  }

  lemma TooEarlyStep(lab: Lab, ps: seq<Portal>, ts: seq<LifecycleTransition>)
    requires |ts| > 0 && forall i :: 0 <= i < |ts| ==> ts[i].index < |ps|
    ensures var last := ts[|ts| - 1];
            BookedTooEarly(lab, ps, ts) <==>
              BookedTooEarly(lab, ps, ts[..|ts| - 1]) || (CollapseListed(ps, last) && last.closedAt < lab.energyBaseAt)
  {
  }

  lemma {:induction false} LastCollapseIsLatest(ps: seq<Portal>, ts: seq<LifecycleTransition>)
    requires Chronological(ts) && forall i :: 0 <= i < |ts| ==> ts[i].index < |ps|
    ensures forall i :: 0 <= i < |ts| && CollapseListed(ps, ts[i]) ==> ts[i].closedAt <= LastCollapse(ps, ts).value
  {
    if |ts| > 0 {
      var init := ts[..|ts| - 1];
      assert forall i :: 0 <= i < |init| ==> init[i] == ts[i];
      LastCollapseIsLatest(ps, init);
    }
  }

  /** Booked in order, only a collapse before the original baseline is refused, and the last one decides. */
  lemma {:induction false} BookedInOrder(lab: Lab, ps: seq<Portal>, ts: seq<LifecycleTransition>, cfg: Config)
    requires forall i :: 0 <= i < |ts| ==> ts[i].index < |ps|
    requires Chronological(ts) && 0 <= lab.energyBase <= cfg.labEnergyMax
    ensures var r := Booked(lab, ps, ts, cfg);
            && (r.Err? <==> BookedTooEarly(lab, ps, ts))
            && (r.Err? ==> r.error == LabEnergyInvariant)
            && (r.Ok? ==> r.value == LabFrom(lab, LastCollapse(ps, ts), cfg))
  {
    if |ts| > 0 {
      var init, last := ts[..|ts| - 1], ts[|ts| - 1];
      assert forall i :: 0 <= i < |init| ==> init[i] == ts[i];
      assert Chronological(init);
      BookedInOrder(lab, ps, init, cfg);
      TooEarlyStep(lab, ps, ts);
      LastPrecedes(lab, ps, init, last);
    }
  }

  /** The last collapse of the prefix is no later than what follows it. */
  lemma LastPrecedes(lab: Lab, ps: seq<Portal>, init: seq<LifecycleTransition>, last: LifecycleTransition)
    requires forall i :: 0 <= i < |init| ==> init[i].index < |ps| && init[i].closedAt <= last.closedAt
    ensures LastCollapse(ps, init).Some? ==> LastCollapse(ps, init).value <= last.closedAt
    ensures LastCollapse(ps, init).Some? && last.closedAt < lab.energyBaseAt ==> BookedTooEarly(lab, ps, init)
  {
  }

  function TransitionOrder(ps: seq<Portal>, now: Time): (ts: seq<LifecycleTransition>)
    ensures forall i :: 0 <= i < |ts| ==> ts[i].index < |ps|
  {
    var ts := Sort(TransitionsUpTo(ps, |ps|, now), EarlierTransition());
    SameElements(ts, TransitionsUpTo(ps, |ps|, now));
    assert forall i :: 0 <= i < |ts| ==> ts[i] in ts;
    ts
  }

  lemma TransitionsInOrder(ps: seq<Portal>, now: Time)
    ensures Chronological(TransitionOrder(ps, now))
    ensures forall x :: x in TransitionOrder(ps, now) <==> x.index < |ps| && EndsBy(ps[x.index], now) && x == TransitionOf(ps, x.index)
  {
    TransitionOrderIsStrict();
    SortSorts(TransitionsUpTo(ps, |ps|, now), EarlierTransition());
    SameElements(TransitionOrder(ps, now), TransitionsUpTo(ps, |ps|, now));
  }

  lemma CollapseInOrder(ps: seq<Portal>, now: Time, k: nat)
    requires k < |ps| && ps[k].CollapsesBy(now)
    ensures var ts := TransitionOrder(ps, now);
            exists i :: 0 <= i < |ts| && CollapseListed(ps, ts[i]) && ts[i].closedAt == ps[k].Deadline()
  {
    TransitionsInOrder(ps, now);
    assert TransitionOf(ps, k) in TransitionOrder(ps, now);
  }

  lemma ListedCollapses(ps: seq<Portal>, now: Time, i: nat)
    requires i < |TransitionOrder(ps, now)| && CollapseListed(ps, TransitionOrder(ps, now)[i])
    ensures var x := TransitionOrder(ps, now)[i];
            ps[x.index].CollapsesBy(now) && x.closedAt == ps[x.index].Deadline()
  {
    TransitionsInOrder(ps, now);
    assert TransitionOrder(ps, now)[i] in TransitionOrder(ps, now);
  }

  /** Booking the endings in chronological order fails exactly on a collapse that predates the ledger and
      otherwise leaves the ledger the latest collapse dictates. */
  lemma BookingDecides(lab: Lab, ps: seq<Portal>, now: Time, cfg: Config)
    requires 0 <= lab.energyBase <= cfg.labEnergyMax
    ensures var r := Booked(lab, ps, TransitionOrder(ps, now), cfg);
            r == if UnbookableCollapse(lab, ps, now) then Err(LabEnergyInvariant) else Ok(LabAfter(lab, ps, now, cfg))
  {
    var ts := TransitionOrder(ps, now);
    var r := Booked(lab, ps, ts, cfg);
    TransitionsInOrder(ps, now);
    BookedInOrder(lab, ps, ts, cfg);
    LastCollapseIsLatest(ps, ts);
    if i :| 0 <= i < |ts| && CollapseListed(ps, ts[i]) && ts[i].closedAt < lab.energyBaseAt {
      ListedCollapses(ps, now, i);
      assert UnbookableCollapse(lab, ps, now);
    }
    forall k | 0 <= k < |ps| && ps[k].CollapsesBy(now)
      ensures LastCollapse(ps, ts).Some? && ps[k].Deadline() <= LastCollapse(ps, ts).value
      ensures ps[k].Deadline() < lab.energyBaseAt ==> r.Err?
    {
      CollapseInOrder(ps, now, k);
    }
    LatestIsLast(ps, ts, now);
  }

  lemma LatestIsLast(ps: seq<Portal>, ts: seq<LifecycleTransition>, now: Time)
    requires ts == TransitionOrder(ps, now)
    requires forall k :: 0 <= k < |ps| && ps[k].CollapsesBy(now) ==>
               LastCollapse(ps, ts).Some? && ps[k].Deadline() <= LastCollapse(ps, ts).value
    ensures LatestCollapse(ps, now) == LastCollapse(ps, ts)
  {
    if LastCollapse(ps, ts).Some? {
      var i :| 0 <= i < |ts| && CollapseListed(ps, ts[i]) && ts[i].closedAt == LastCollapse(ps, ts).value;
      ListedCollapses(ps, now, i);
      Composition.LatestIs(ps, now, ts[i].index);
    }
  }

  lemma TransitionsAreOnce(ps: seq<Portal>, now: Time)
    requires DistinctPortalIds(ps)
    ensures forall i, j :: 0 <= i < j < |TransitionOrder(ps, now)| ==>
              TransitionOrder(ps, now)[i].index != TransitionOrder(ps, now)[j].index
  {
    var ts := TransitionOrder(ps, now);
    var xs := TransitionsUpTo(ps, |ps|, now);
    TransitionsInOrder(ps, now);
    IndicesOnce(ps, |ps|, now);
    TransitionOrderIsStrict();
    SortStrictly(xs, EarlierTransition());
    forall i, j | 0 <= i < j < |ts| ensures ts[i].index != ts[j].index {
      assert ts[i] in ts && ts[j] in ts;
      assert EarlierTransition()(ts[i], ts[j]);
    }
  }

  lemma {:induction false} IndicesOnce(ps: seq<Portal>, n: nat, now: Time)
    requires DistinctPortalIds(ps) && n <= |ps|
    ensures Separated(TransitionsUpTo(ps, n, now), EarlierTransition())
  {
    if n > 0 {
      IndicesOnce(ps, n - 1, now);
      var earlier := TransitionsUpTo(ps, n - 1, now);
      assert forall i :: 0 <= i < |earlier| ==> earlier[i] in earlier;
    }
  }

  datatype Coupled = Coupled(lab: Lab, portals: seq<Portal>)

  /** One portal's ending coupled to the emergency state of the laboratory. */
  function Couple(lab: Lab, p: Portal, now: Time, cfg: Config): Result<(Lab, Portal)> {
    if lab.PrepareSpend(now, 0, cfg).Err? then Err(lab.PrepareSpend(now, 0, cfg).error)
    else
      var next := p.ResolveLifecycle(now);
      if EndsBy(p, now) && next.status == Collapsed then
        match lab.ActivateOverride(p.Deadline(), cfg)
        case Err(e) => Err(e)
        case Ok(booked) => Ok((booked, next))
      else Ok((lab, next))
  }

  /** The listed endings coupled one after another. */
  function CoupleAll(lab: Lab, ps: seq<Portal>, ts: seq<LifecycleTransition>, now: Time, cfg: Config): (r: Result<Coupled>)
    requires forall i :: 0 <= i < |ts| ==> ts[i].index < |ps|
    ensures r.Ok? ==> |r.value.portals| == |ps|
  {
    if |ts| == 0 then Ok(Coupled(lab, ps))
    else
      match CoupleAll(lab, ps, ts[..|ts| - 1], now, cfg)
      case Err(e) => Err(e)
      case Ok(done) =>
        var k := ts[|ts| - 1].index;
        match Couple(done.lab, done.portals[k], now, cfg)
        case Err(e) => Err(e)
        case Ok((l, p)) => Ok(Coupled(l, done.portals[k := p]))
  }

  lemma {:induction false} CoupleErrorSticks(lab: Lab, ps: seq<Portal>, ts: seq<LifecycleTransition>, n: nat, now: Time, cfg: Config)
    requires n <= |ts| && forall i :: 0 <= i < |ts| ==> ts[i].index < |ps|
    requires CoupleAll(lab, ps, ts[..n], now, cfg).Err?
    ensures CoupleAll(lab, ps, ts, now, cfg) == CoupleAll(lab, ps, ts[..n], now, cfg)
    decreases |ts| - n
  {
    if n == |ts| {
      assert ts[..n] == ts;
    } else {
      assert ts[..n + 1][..n] == ts[..n];
      CoupleErrorSticks(lab, ps, ts, n + 1, now, cfg);
    }
  }

  /** The portals after the first `n` transitions: the listed ones resolved, the others untouched. */
  ghost predicate Resolves(ps: seq<Portal>, qs: seq<Portal>, ts: seq<LifecycleTransition>, n: nat, now: Time)
    requires n <= |ts| && forall i :: 0 <= i < |ts| ==> ts[i].index < |ps|
  {
    && |qs| == |ps|
    && (forall j :: 0 <= j < n ==> qs[ts[j].index] == ps[ts[j].index].ResolveLifecycle(now))
    && (forall k :: 0 <= k < |ps| ==> qs[k] == ps[k] || qs[k] == ps[k].ResolveLifecycle(now))
    && (forall j :: n <= j < |ts| ==> qs[ts[j].index] == ps[ts[j].index])
  }

  ghost predicate OnceEach(ts: seq<LifecycleTransition>) {
    forall i, j :: 0 <= i < j < |ts| ==> ts[i].index != ts[j].index
  }

  lemma ResolvesOneMore(ps: seq<Portal>, qs: seq<Portal>, ts: seq<LifecycleTransition>, n: nat, now: Time)
    requires n < |ts| && (forall i :: 0 <= i < |ts| ==> ts[i].index < |ps|) && OnceEach(ts)
    requires Resolves(ps, qs, ts, n, now)
    ensures Resolves(ps, qs[ts[n].index := ps[ts[n].index].ResolveLifecycle(now)], ts, n + 1, now)
  {
  }

  lemma {:induction false} CouplingBooks(lab: Lab, ps: seq<Portal>, ts: seq<LifecycleTransition>, n: nat, now: Time, cfg: Config)
    requires n <= |ts| && lab.ValidBaseline(now, cfg) && OnceEach(ts)
    requires forall i :: 0 <= i < |ts| ==> ts[i].index < |ps| && EndsBy(ps[ts[i].index], now) && ts[i].closedAt == ps[ts[i].index].Deadline()
    ensures var r, booked := CoupleAll(lab, ps, ts[..n], now, cfg), Booked(lab, ps, ts[..n], cfg);
            match booked
            case Err(e) => r == Err(e)
            case Ok(l) => r.Ok? && r.value.lab == l && l.ValidBaseline(now, cfg) && Resolves(ps, r.value.portals, ts, n, now)
  {
    if n > 0 {
      CouplingBooks(lab, ps, ts, n - 1, now, cfg);
      CoupleStep(lab, ps, ts, n - 1, now, cfg);
      BookStep(lab, ps, ts, n - 1, cfg);
      var done := CoupleAll(lab, ps, ts[..n - 1], now, cfg);
      if done.Ok? {
        ResolvesOneMore(ps, done.value.portals, ts, n - 1, now);
        CoupleBooks(done.value.lab, ps[ts[n - 1].index], now, cfg);
      }
    }
  }

  lemma CoupleStep(lab: Lab, ps: seq<Portal>, ts: seq<LifecycleTransition>, n: nat, now: Time, cfg: Config)
    requires n < |ts| && forall i :: 0 <= i < |ts| ==> ts[i].index < |ps|
    ensures var k := ts[n].index;
            CoupleAll(lab, ps, ts[..n + 1], now, cfg) ==
            match CoupleAll(lab, ps, ts[..n], now, cfg)
            case Err(e) => Err(e)
            case Ok(done) =>
              match Couple(done.lab, done.portals[k], now, cfg)
              case Err(e) => Err(e)
              case Ok((l, p)) => Ok(Coupled(l, done.portals[k := p]))
  {
    assert ts[..n + 1][..n] == ts[..n];
  }

  lemma BookStep(lab: Lab, ps: seq<Portal>, ts: seq<LifecycleTransition>, n: nat, cfg: Config)
    requires n < |ts| && forall i :: 0 <= i < |ts| ==> ts[i].index < |ps|
    ensures Booked(lab, ps, ts[..n + 1], cfg) ==
            match Booked(lab, ps, ts[..n], cfg)
            case Err(e) => Err(e)
            case Ok(l) => if CollapseListed(ps, ts[n]) then l.ActivateOverride(ts[n].closedAt, cfg) else Ok(l)
  {
    assert ts[..n + 1][..n] == ts[..n];
  }

  lemma CoupleBooks(lab: Lab, p: Portal, now: Time, cfg: Config)
    requires lab.ValidBaseline(now, cfg) && EndsBy(p, now)
    ensures var booked := if p.FirstEnding().status == Collapsed then lab.ActivateOverride(p.Deadline(), cfg) else Ok(lab);
            match booked
            case Err(e) => Couple(lab, p, now, cfg) == Err(e)
            case Ok(l) => Couple(lab, p, now, cfg) == Ok((l, p.ResolveLifecycle(now))) && l.ValidBaseline(now, cfg)
  {
  }

  /** The chronological loop over endings computes the portal stage. */
  lemma CouplingIsThePortalStage(lab: Lab, ps: seq<Portal>, now: Time, cfg: Config)
    requires DistinctPortalIds(ps) && lab.ValidBaseline(now, cfg)
    ensures CoupleAll(lab, ps, TransitionOrder(ps, now), now, cfg) ==
            if UnbookableCollapse(lab, ps, now) then Err(LabEnergyInvariant)
            else Ok(Coupled(LabAfter(lab, ps, now, cfg), PortalsAfter(ps, now)))
  {
    var ts := TransitionOrder(ps, now);
    TransitionsInOrder(ps, now);
    TransitionsAreOnce(ps, now);
    assert forall i :: 0 <= i < |ts| ==> ts[i] in ts;
    assert ts[..|ts|] == ts;
    CouplingBooks(lab, ps, ts, |ts|, now, cfg);
    BookingDecides(lab, ps, now, cfg);
    var r := CoupleAll(lab, ps, ts, now, cfg);
    if r.Ok? {
      AllResolved(ps, r.value.portals, now);
    }
  }

  lemma AllResolved(ps: seq<Portal>, qs: seq<Portal>, now: Time)
    requires var ts := TransitionOrder(ps, now); Resolves(ps, qs, ts, |ts|, now)
    ensures qs == PortalsAfter(ps, now)
  {
    var ts := TransitionOrder(ps, now);
    TransitionsInOrder(ps, now);
    forall k | 0 <= k < |ps| ensures qs[k] == ps[k].ResolveLifecycle(now) {
      if EndsBy(ps[k], now) {
        assert TransitionOf(ps, k) in ts;
      }
    }
  }

  // ---------------------------------------------------------------- observer stage

  function ObserverBefore(os: seq<Observer>): (nat, nat) -> bool {
    (a: nat, b: nat) => a < |os| && b < |os| && os[a].id < os[b].id
  }

  /** The roster positions in ascending observer ID. */
  function RosterOrder(os: seq<Observer>): seq<nat> {
    Sort(Indices(|os|), ObserverBefore(os))
  }

  lemma RosterOrderVisitsAll(os: seq<Observer>)
    requires DistinctObserverIds(os)
    ensures forall k :: k in RosterOrder(os) <==> 0 <= k < |os|
    ensures NoDuplicates(RosterOrder(os))
  {
    var order := RosterOrder(os);
    SameElements(order, Indices(|os|));
    forall k ensures k in order <==> 0 <= k < |os| {
      if 0 <= k < |os| {
        assert Indices(|os|)[k] == k;
      }
    }
    RosterVisitsOnce(os);
  }

  lemma RosterVisitsOnce(os: seq<Observer>)
    requires DistinctObserverIds(os)
    ensures NoDuplicates(RosterOrder(os))
  {
    var order := RosterOrder(os);
    UniqueFromMultiset(Indices(|os|), order);
  }

  /** A rearrangement of a list without duplicates has none either. */
  lemma UniqueFromMultiset(xs: seq<nat>, ys: seq<nat>)
    requires NoDuplicates(xs) && multiset(xs) == multiset(ys)
    ensures NoDuplicates(ys)
  {
    forall i, j | 0 <= i < j < |ys| ensures ys[i] != ys[j] {
      if ys[i] == ys[j] {
        TwiceIn(ys, i, j);
        OnceIn(xs, ys[i]);
      }
    }
  }

  lemma TwiceIn(ys: seq<nat>, i: nat, j: nat)
    requires i < j < |ys| && ys[i] == ys[j]
    ensures multiset(ys)[ys[i]] >= 2
  {
    assert ys == ys[..j] + [ys[j]] + ys[j + 1..];
    assert ys[..j][i] == ys[i];
  }

  lemma {:induction false} OnceIn(xs: seq<nat>, x: nat)
    requires NoDuplicates(xs)
    ensures multiset(xs)[x] <= 1
  {
    if |xs| > 0 {
      var init, last := xs[..|xs| - 1], xs[|xs| - 1];
      assert xs == init + [last];
      OnceIn(init, x);
      if last == x {
        assert x !in init;
      }
    }
  }

  /** The plane an observer is resolved against: the one it is in, or else the one its portal leads to. */
  function PlaneFor(o: Observer, planes: seq<Plane>, ps: seq<Portal>): Option<nat> {
    if o.plane.Some? then FindPlane(planes, o.plane.value)
    else match PortalOf(o, ps)
      case None => None
      case Some(p) => FindPlane(planes, p.plane)
  }

  /** Every reference of an observer resolves, and its record fits its status. */
  predicate ObserverPrepared(o: Observer, planes: seq<Plane>, ps: seq<Portal>) {
    && (o.plane.Some? ==> FindPlane(planes, o.plane.value).Some?)
    && (o.portal.Some? ==> PortalOf(o, ps).Some? && FindPlane(planes, PortalOf(o, ps).value.plane).Some?)
    && var j := PlaneFor(o, planes, ps);
       WellFormedFor(o, if j.Some? then Some(planes[j.value]) else None, PortalOf(o, ps))
  }

  predicate Prepared(planes: seq<Plane>, ps: seq<Portal>, os: seq<Observer>) {
    && DistinctPlaneIds(planes) && DistinctPortalIds(ps) && DistinctObserverIds(os)
    && forall i :: 0 <= i < |os| ==> ObserverPrepared(os[i], planes, ps)
  }

  lemma PreparedIgnoresExploration(o: Observer, planes: seq<Plane>, planes': seq<Plane>, ps: seq<Portal>)
    requires |planes| == |planes'| && forall j :: 0 <= j < |planes| ==> planes[j].id == planes'[j].id
    requires ObserverPrepared(o, planes, ps)
    ensures ObserverPrepared(o, planes', ps) && PlaneFor(o, planes', ps) == PlaneFor(o, planes, ps)
  {
    forall id ensures FindPlane(planes, id) == FindPlane(planes', id) {
      FindPlaneBySameIds(planes, planes', id);
    }
  }

  /** Whoever returns home is resolved against the plane it returns from. */
  lemma ReturnsFromItsPlane(o: Observer, planes: seq<Plane>, ps: seq<Portal>, now: Time, cfg: Config)
    requires ObserverPrepared(o, planes, ps) && ReturnsHome(o, PortalOf(o, ps), now, cfg)
    ensures PlaneFor(o, planes, ps).Some? && o.endsAt.Some?
    ensures o.plane == Some(planes[PlaneFor(o, planes, ps).value].id)
    ensures ReturnsFrom(o, ps, o.plane.value, now, cfg)
  {
  }

  predicate Unexplored(planes: seq<Plane>, id: int) {
    FindPlane(planes, id).Some? && !planes[FindPlane(planes, id).value].explored
  }

  /** Some observer already visited returned from the plane at this instant. */
  ghost predicate SeenReturning(os: seq<Observer>, ps: seq<Portal>, done: seq<nat>, id: int, at: Time, now: Time, cfg: Config) {
    exists k :: k in done && k < |os| && ReturnsFrom(os[k], ps, id, now, cfg) && os[k].endsAt.value == at
  }

  /** `earliest` holds the earliest return of the visited observers from each unexplored plane. */
  ghost predicate EarliestSeen(os: seq<Observer>, planes: seq<Plane>, ps: seq<Portal>, done: seq<nat>, earliest: map<int, Time>, now: Time, cfg: Config) {
    && (forall id :: id in earliest ==> Unexplored(planes, id) && SeenReturning(os, ps, done, id, earliest[id], now, cfg))
    && (forall k, id :: k in done && k < |os| && ReturnsFrom(os[k], ps, id, now, cfg) && Unexplored(planes, id) ==>
          id in earliest && earliest[id] <= os[k].endsAt.value)
  }

  ghost predicate RosterSettling(os: seq<Observer>, os': seq<Observer>, ps: seq<Portal>, done: seq<nat>, now: Time, cfg: Config) {
    && |os'| == |os|
    && forall k :: 0 <= k < |os| ==> os'[k] == if k in done then ObserverAfter(os[k], ps, now, cfg) else os[k]
  }

  /** Planes change only from unexplored to explored, and only those with a recorded return. */
  ghost predicate PlanesSettling(planes: seq<Plane>, planes': seq<Plane>, earliest: map<int, Time>) {
    && |planes'| == |planes|
    && forall j :: 0 <= j < |planes| ==>
         && planes'[j].id == planes[j].id
         && (planes'[j] == planes[j] || (!planes[j].explored && planes'[j].explored && planes[j].id in earliest))
  }

  lemma RosterStep(os: seq<Observer>, os': seq<Observer>, ps: seq<Portal>, done: seq<nat>, k: nat, now: Time, cfg: Config)
    requires RosterSettling(os, os', ps, done, now, cfg) && k < |os| && k !in done
    ensures RosterSettling(os, os'[k := ObserverAfter(os'[k], ps, now, cfg)], ps, done + [k], now, cfg)
  {
  }

  lemma EarliestStep(os: seq<Observer>, planes: seq<Plane>, ps: seq<Portal>, done: seq<nat>, k: nat, earliest: map<int, Time>, later: map<int, Time>, now: Time, cfg: Config)
    requires EarliestSeen(os, planes, ps, done, earliest, now, cfg) && k < |os|
    requires var o := os[k];
             later == if ReturnsHome(o, PortalOf(o, ps), now, cfg) && o.plane.Some? && o.endsAt.Some? && Unexplored(planes, o.plane.value)
                         && (o.plane.value in earliest ==> o.endsAt.value < earliest[o.plane.value])
                      then earliest[o.plane.value := o.endsAt.value] else earliest
    ensures EarliestSeen(os, planes, ps, done + [k], later, now, cfg)
  {
  }

  /** Once everyone has been visited the record holds exactly the earliest returns. */
  lemma EarliestIsComplete(os: seq<Observer>, planes: seq<Plane>, ps: seq<Portal>, done: seq<nat>, earliest: map<int, Time>, id: int, now: Time, cfg: Config)
    requires EarliestSeen(os, planes, ps, done, earliest, now, cfg) && Unexplored(planes, id)
    requires forall k :: 0 <= k < |os| ==> k in done
    ensures EarliestReturn(os, ps, id, now, cfg) == if id in earliest then Some(earliest[id]) else None
  {
    if id in earliest {
      var w :| w in done && w < |os| && ReturnsFrom(os[w], ps, id, now, cfg) && os[w].endsAt.value == earliest[id];
      Composition.EarliestIs(os, ps, id, now, w, cfg);
    } else {
      assert forall i :: 0 <= i < |os| ==> !ReturnsFrom(os[i], ps, id, now, cfg);
    }
  }

  /** A plane stamped with its earliest return. */
  function Stamp(p: Plane, earliest: map<int, Time>): Plane {
    if p.id in earliest then p.(explored := true, exploredAt := Some(earliest[p.id])) else p
  }

  /** Stamping the earliest returns last makes the visiting order immaterial. */
  lemma StampedPlanes(os: seq<Observer>, planes: seq<Plane>, planes': seq<Plane>, ps: seq<Portal>, done: seq<nat>, earliest: map<int, Time>, stamped: seq<Plane>, now: Time, cfg: Config)
    requires DistinctPlaneIds(planes) && PlanesSettling(planes, planes', earliest)
    requires EarliestSeen(os, planes, ps, done, earliest, now, cfg) && forall k :: 0 <= k < |os| ==> k in done
    requires |stamped| == |planes'| && forall j :: 0 <= j < |planes'| ==> stamped[j] == Stamp(planes'[j], earliest)
    ensures stamped == PlanesAfter(planes, os, ps, now, cfg)
  {
    forall j | 0 <= j < |planes| ensures stamped[j] == PlaneAfter(planes[j], os, ps, now, cfg) {
      PlaneFoundAt(planes, j);
      if !planes[j].explored {
        EarliestIsComplete(os, planes, ps, done, earliest, planes[j].id, now, cfg);
      }
    }
  }
}

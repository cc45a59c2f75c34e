/** Cadence independence: the portal and observer stages may jump over any interval, in one
    tick or in many, and reach the same semantic state. */
module Composition {
  import opened Base
  import opened Portals
  import opened Labs
  import opened Observers
  import opened States
  import opened Ticks
  import opened Invariants

  /** A portal without the one field that records when resolution happened to run. */
  function Essence(p: Portal): Portal {
    p.(updatedAt := 0)
  }

  ghost predicate SamePortals(ps: seq<Portal>, qs: seq<Portal>) {
    |ps| == |qs| && forall i :: 0 <= i < |ps| ==> Essence(ps[i]) == Essence(qs[i])
  }

  /** Equal in everything but the resolution time of portals. */
  ghost predicate Equivalent(a: State, b: State) {
    && a.lab == b.lab && a.planes == b.planes && a.observers == b.observers
    && a.nextPortalID == b.nextPortalID && a.spawn == b.spawn && a.lastTickAt == b.lastTickAt
    && SamePortals(a.portals, b.portals)
  }

  // ---------------------------------------------------------------- portals and laboratory

  lemma ResolveTwice(p: Portal, t1: Time, t2: Time)
    requires t1 <= t2
    ensures Essence(p.ResolveLifecycle(t1).ResolveLifecycle(t2)) == Essence(p.ResolveLifecycle(t2))
    ensures p.ResolveLifecycle(t1).CollapsesBy(t2) <==> p.CollapsesBy(t2) && t1 < p.Deadline()
    ensures p.status == Open && t1 < p.Deadline() ==> p.ResolveLifecycle(t1) == p
  {
  }

  lemma ResolveIgnoresUpdatedAt(p: Portal, q: Portal, t: Time)
    requires Essence(p) == Essence(q)
    ensures Essence(p.ResolveLifecycle(t)) == Essence(q.ResolveLifecycle(t))
    ensures p.CollapsesBy(t) <==> q.CollapsesBy(t)
    ensures p.Deadline() == q.Deadline()
  {
  }

  /** A collapse no other exceeds is the latest one. */
  lemma LatestIs(ps: seq<Portal>, now: Time, k: nat)
    requires k < |ps| && ps[k].CollapsesBy(now)
    requires forall i :: 0 <= i < |ps| && ps[i].CollapsesBy(now) ==> ps[i].Deadline() <= ps[k].Deadline()
    ensures LatestCollapse(ps, now) == Some(ps[k].Deadline())
  {
  }

  lemma LatestTwice(ps: seq<Portal>, t1: Time, t2: Time)
    requires t1 <= t2
    ensures var later := LatestCollapse(PortalsAfter(ps, t1), t2);
            LatestCollapse(ps, t2) == if later.Some? then later else LatestCollapse(ps, t1)
  {
    var qs := PortalsAfter(ps, t1);
    var c1, c2, c := LatestCollapse(ps, t1), LatestCollapse(qs, t2), LatestCollapse(ps, t2);
    forall i | 0 <= i < |ps|
      ensures qs[i].CollapsesBy(t2) <==> ps[i].CollapsesBy(t2) && t1 < ps[i].Deadline()
      ensures qs[i].CollapsesBy(t2) ==> qs[i].Deadline() == ps[i].Deadline()
      ensures ps[i].CollapsesBy(t1) <==> ps[i].CollapsesBy(t2) && ps[i].Deadline() <= t1
    {
      ResolveTwice(ps[i], t1, t2);
    }
    if c2.Some? {
      var k :| 0 <= k < |qs| && qs[k].CollapsesBy(t2) && qs[k].Deadline() == c2.value;
      LatestIs(ps, t2, k);
    } else if c1.Some? {
      var k :| 0 <= k < |ps| && ps[k].CollapsesBy(t1) && ps[k].Deadline() == c1.value;
      LatestIs(ps, t2, k);
    } else {
      assert forall i :: 0 <= i < |ps| ==> !ps[i].CollapsesBy(t2);
    }
  }

  lemma LabFromTwice(lab: Lab, c1: Option<Time>, c2: Option<Time>, c: Option<Time>, cfg: Config)
    requires c == if c2.Some? then c2 else c1
    ensures LabFrom(LabFrom(lab, c1, cfg), c2, cfg) == LabFrom(lab, c, cfg)
  {
  }

  lemma LabTwice(lab: Lab, ps: seq<Portal>, t1: Time, t2: Time, cfg: Config)
    requires t1 <= t2
    ensures LabAfter(LabAfter(lab, ps, t1, cfg), PortalsAfter(ps, t1), t2, cfg) == LabAfter(lab, ps, t2, cfg)
  {
    var c1, c2, c := LatestCollapse(ps, t1), LatestCollapse(PortalsAfter(ps, t1), t2), LatestCollapse(ps, t2);
    assert c == if c2.Some? then c2 else c1 by {
      LatestTwice(ps, t1, t2);
    }
    LabFromTwice(lab, c1, c2, c, cfg);
  }

  lemma {:induction false} LatestIgnoresUpdatedAt(ps: seq<Portal>, qs: seq<Portal>, t: Time)
    requires SamePortals(ps, qs)
    ensures LatestCollapse(ps, t) == LatestCollapse(qs, t)
  {
    if |ps| > 0 {
      LatestIgnoresUpdatedAt(ps[..|ps| - 1], qs[..|qs| - 1], t);
      ResolveIgnoresUpdatedAt(ps[|ps| - 1], qs[|qs| - 1], t);
    }
  }

  // ---------------------------------------------------------------- observers

  ghost predicate SameCorridor(a: Option<Portal>, b: Option<Portal>) {
    a.Some? == b.Some? && (a.Some? ==> Essence(a.value) == Essence(b.value))
  }

  lemma PortalOfSame(o: Observer, ps: seq<Portal>, qs: seq<Portal>)
    requires SamePortals(ps, qs)
    ensures SameCorridor(PortalOf(o, ps), PortalOf(o, qs))
  {
    forall i | 0 <= i < |ps| ensures ps[i].id == qs[i].id {
      assert Essence(ps[i]).id == ps[i].id && Essence(qs[i]).id == qs[i].id;
    }
    if o.portal.Some? {
      FindBySameIds(ps, qs, o.portal.value);
    }
  }

  lemma AdvanceIgnoresUpdatedAt(o: Observer, a: Option<Portal>, b: Option<Portal>, now: Time, cfg: Config)
    requires SameCorridor(a, b)
    ensures Advance(o, a, now, cfg) == Advance(o, b, now, cfg)
  {
  }

  /** Advancing an observer past `t1` and then past `t2` is advancing it past `t2`, whatever happened
      to its corridor in between. */
  lemma AdvanceTwice(o: Observer, p: Option<Portal>, t1: Time, t2: Time, cfg: Config)
    requires t1 <= t2
    requires o.InTransit() ==> p.Some? && p.value.status == Open
    requires o.status == Outbound || o.status == Returning || p.None?
    ensures var p1 := if p.Some? then Some(p.value.ResolveLifecycle(t1)) else None;
            var p2 := if p.Some? then Some(p.value.ResolveLifecycle(t2)) else None;
            var o1 := Advance(o, p1, t1, cfg);
            && (o1.InTransit() ==> Advance(o1, p2, t2, cfg) == Advance(o, p2, t2, cfg))
            && (!o1.InTransit() ==> forall r :: Advance(o1, r, t2, cfg) == Advance(o, p2, t2, cfg))
            && (ReturnsHome(o, p1, t1, cfg) <==> ReturnsHome(o, p2, t2, cfg) && o.endsAt.Some? && o.endsAt.value <= t1)
            && (o1.InTransit() ==> o1 == o)
  {
  }

  lemma ObserverTwice(o: Observer, planes: seq<Plane>, ps: seq<Portal>, t: Time, t1: Time, t2: Time, cfg: Config)
    requires t <= t1 <= t2
    requires ObserverInv(o, planes, ps, t) && TransitOpen(o, ps)
    ensures var ps1 := PortalsAfter(ps, t1);
            var o1 := ObserverAfter(o, ps1, t1, cfg);
            && ObserverAfter(o1, PortalsAfter(ps1, t2), t2, cfg) == ObserverAfter(o, PortalsAfter(ps, t2), t2, cfg)
            && (o1.status == Returning ==> o1 == o)
            && (forall id :: ReturnsFrom(o, ps1, id, t1, cfg) <==>
                  ReturnsFrom(o, PortalsAfter(ps, t2), id, t2, cfg) && o.endsAt.value <= t1)
            && (forall id :: ReturnsFrom(o1, PortalsAfter(ps1, t2), id, t2, cfg) <==>
                  ReturnsFrom(o, PortalsAfter(ps, t2), id, t2, cfg) && t1 < o.endsAt.value)
  {
    var ps1, ps2 := PortalsAfter(ps, t1), PortalsAfter(ps, t2);
    var ps12 := PortalsAfter(ps1, t2);
    forall i | 0 <= i < |ps| ensures ps1[i].id == ps[i].id && ps2[i].id == ps[i].id && Essence(ps12[i]) == Essence(ps2[i]) {
      ResolveTwice(ps[i], t1, t2);
    }
    if o.portal.Some? {
      FindBySameIds(ps, ps1, o.portal.value);
      FindBySameIds(ps, ps2, o.portal.value);
    }
    PortalOfSame(o, ps12, ps2);
    AdvanceIgnoresUpdatedAt(o, PortalOf(o, ps12), PortalOf(o, ps2), t2, cfg);
    AdvanceTwice(o, PortalOf(o, ps), t1, t2, cfg);
  }

  // ---------------------------------------------------------------- planes

  /** A return no other precedes is the earliest one. */
  lemma EarliestIs(os: seq<Observer>, ps: seq<Portal>, id: int, now: Time, k: nat, cfg: Config)
    requires k < |os| && ReturnsFrom(os[k], ps, id, now, cfg)
    requires forall i :: 0 <= i < |os| && ReturnsFrom(os[i], ps, id, now, cfg) ==> os[k].endsAt.value <= os[i].endsAt.value
    ensures EarliestReturn(os, ps, id, now, cfg) == Some(os[k].endsAt.value)
  {
  }

  /** The observers returning over a split interval: those of the first part keep the earlier dates. */
  lemma EarliestTwice(os: seq<Observer>, os1: seq<Observer>, ps1: seq<Portal>, ps12: seq<Portal>, ps2: seq<Portal>, id: int, t1: Time, t2: Time, cfg: Config)
    requires |os| == |os1|
    requires forall i :: 0 <= i < |os| ==>
               (ReturnsFrom(os[i], ps1, id, t1, cfg) <==> ReturnsFrom(os[i], ps2, id, t2, cfg) && os[i].endsAt.value <= t1)
    requires forall i :: 0 <= i < |os| ==>
               (ReturnsFrom(os1[i], ps12, id, t2, cfg) <==> ReturnsFrom(os[i], ps2, id, t2, cfg) && t1 < os[i].endsAt.value)
    requires forall i :: 0 <= i < |os| && ReturnsFrom(os1[i], ps12, id, t2, cfg) ==> os1[i].endsAt == os[i].endsAt
    ensures var first := EarliestReturn(os, ps1, id, t1, cfg);
            EarliestReturn(os, ps2, id, t2, cfg) == if first.Some? then first else EarliestReturn(os1, ps12, id, t2, cfg)
  {
    var first, second := EarliestReturn(os, ps1, id, t1, cfg), EarliestReturn(os1, ps12, id, t2, cfg);
    if first.Some? {
      var k :| 0 <= k < |os| && ReturnsFrom(os[k], ps1, id, t1, cfg) && os[k].endsAt.value == first.value;
      EarliestIs(os, ps2, id, t2, k, cfg);
    } else if second.Some? {
      var k :| 0 <= k < |os1| && ReturnsFrom(os1[k], ps12, id, t2, cfg) && os1[k].endsAt.value == second.value;
      EarliestIs(os, ps2, id, t2, k, cfg);
    } else {
      assert forall i :: 0 <= i < |os| ==> !ReturnsFrom(os[i], ps2, id, t2, cfg);
    }
  }

  /** The first return from a plane decides its exploration date, whether it is seen in the first of
      two ticks, in the second, or in a single one. */
  lemma PlaneTwice(p: Plane, os: seq<Observer>, planes: seq<Plane>, ps: seq<Portal>, t: Time, t1: Time, t2: Time, cfg: Config)
    requires t <= t1 <= t2
    requires forall i :: 0 <= i < |os| ==> ObserverInv(os[i], planes, ps, t) && TransitOpen(os[i], ps)
    ensures var ps1 := PortalsAfter(ps, t1);
            PlaneAfter(PlaneAfter(p, os, ps1, t1, cfg), ObserversAfter(os, ps1, t1, cfg), PortalsAfter(ps1, t2), t2, cfg)
            == PlaneAfter(p, os, PortalsAfter(ps, t2), t2, cfg)
  {
    var ps1, ps2 := PortalsAfter(ps, t1), PortalsAfter(ps, t2);
    var ps12 := PortalsAfter(ps1, t2);
    var os1 := ObserversAfter(os, ps1, t1, cfg);
    var id := p.id;
    forall i | 0 <= i < |os|
      ensures ReturnsFrom(os[i], ps1, id, t1, cfg) <==> ReturnsFrom(os[i], ps2, id, t2, cfg) && os[i].endsAt.value <= t1
      ensures ReturnsFrom(os1[i], ps12, id, t2, cfg) <==> ReturnsFrom(os[i], ps2, id, t2, cfg) && t1 < os[i].endsAt.value
      ensures ReturnsFrom(os1[i], ps12, id, t2, cfg) ==> os1[i].endsAt == os[i].endsAt
    {
      ObserverTwice(os[i], planes, ps, t, t1, t2, cfg);
    }
    EarliestTwice(os, os1, ps1, ps12, ps2, id, t1, t2, cfg);
  }

  // ---------------------------------------------------------------- whole stages

  /** Resolving at `t1` and again at `t2` gives the state of resolving at `t2` alone: statuses,
      reasons, closing times, ledger, emergency window, observer phases and exploration dates. */
  lemma StagesCompose(s: State, t: Time, t1: Time, t2: Time, cfg: Config)
    requires MidInv(s, t, cfg) && t <= t1 <= t2
    ensures Equivalent(MidTick(MidTick(s, t1, cfg), t2, cfg), MidTick(s, t2, cfg))
  {
    var m1 := MidTick(s, t1, cfg);
    var m12, m2 := MidTick(m1, t2, cfg), MidTick(s, t2, cfg);
    forall i | 0 <= i < |s.portals| ensures Essence(m12.portals[i]) == Essence(m2.portals[i]) {
      ResolveTwice(s.portals[i], t1, t2);
    }
    LabTwice(s.lab, s.portals, t1, t2, cfg);
    forall i | 0 <= i < |s.observers| ensures m12.observers[i] == m2.observers[i] {
      ObserverTwice(s.observers[i], s.planes, s.portals, t, t1, t2, cfg);
    }
    assert m12.observers == m2.observers;
    forall j | 0 <= j < |s.planes| ensures m12.planes[j] == m2.planes[j] {
      PlaneTwice(s.planes[j], s.observers, s.planes, s.portals, t, t1, t2, cfg);
    }
    assert m12.planes == m2.planes;
  }

  lemma EarliestIgnoresUpdatedAt(os: seq<Observer>, ps: seq<Portal>, qs: seq<Portal>, id: int, now: Time, cfg: Config)
    requires SamePortals(ps, qs)
    ensures EarliestReturn(os, ps, id, now, cfg) == EarliestReturn(os, qs, id, now, cfg)
  {
    if |os| > 0 {
      EarliestIgnoresUpdatedAt(os[..|os| - 1], ps, qs, id, now, cfg);
      var o := os[|os| - 1];
      PortalOfSame(o, ps, qs);
      AdvanceIgnoresUpdatedAt(o, PortalOf(o, ps), PortalOf(o, qs), now, cfg);
    }
  }

  /** Equivalent states stay equivalent. */
  lemma StagesRespectEquivalence(a: State, b: State, now: Time, cfg: Config)
    requires Equivalent(a, b)
    ensures Equivalent(MidTick(a, now, cfg), MidTick(b, now, cfg))
  {
    var ma, mb := MidTick(a, now, cfg), MidTick(b, now, cfg);
    forall i | 0 <= i < |a.portals| ensures Essence(ma.portals[i]) == Essence(mb.portals[i]) {
      ResolveIgnoresUpdatedAt(a.portals[i], b.portals[i], now);
    }
    LatestIgnoresUpdatedAt(a.portals, b.portals, now);
    forall i | 0 <= i < |a.observers| ensures ma.observers[i] == mb.observers[i] {
      PortalOfSame(a.observers[i], ma.portals, mb.portals);
      AdvanceIgnoresUpdatedAt(a.observers[i], PortalOf(a.observers[i], ma.portals), PortalOf(a.observers[i], mb.portals), now, cfg);
    }
    assert ma.observers == mb.observers;
    forall j | 0 <= j < |a.planes| ensures ma.planes[j] == mb.planes[j] {
      EarliestIgnoresUpdatedAt(a.observers, ma.portals, mb.portals, a.planes[j].id, now, cfg);
    }
    assert ma.planes == mb.planes;
  }

  lemma EquivalentTransitively(a: State, b: State, c: State)
    requires Equivalent(a, b) && Equivalent(b, c)
    ensures Equivalent(a, c)
  {
  }

  /** The stages run at each of the given instants in turn. */
  function Stages(s: State, times: seq<Time>, cfg: Config): State {
    if |times| == 0 then s else MidTick(Stages(s, times[..|times| - 1], cfg), times[|times| - 1], cfg)
  }

  /** However finely an interval is divided into ticks, only its end matters. */
  lemma {:induction false} CadenceDoesNotMatter(s: State, t: Time, times: seq<Time>, last: Time, cfg: Config)
    requires MidInv(s, t, cfg) && |times| > 0 && last == times[|times| - 1]
    requires t <= times[0] && forall i, j :: 0 <= i < j < |times| ==> times[i] <= times[j]
    ensures Equivalent(Stages(s, times, cfg), MidTick(s, last, cfg))
  {
    var init := times[..|times| - 1];
    if |init| == 0 {
      assert Stages(s, init, cfg) == s;
    } else {
      var before := init[|init| - 1];
      assert t <= before <= last;
      CadenceDoesNotMatter(s, t, init, before, cfg);
      OneMoreTick(s, t, Stages(s, init, cfg), before, last, cfg);
    }
  }

  lemma OneMoreTick(s: State, t: Time, a: State, before: Time, now: Time, cfg: Config)
    requires MidInv(s, t, cfg) && t <= before <= now
    requires Equivalent(a, MidTick(s, before, cfg))
    ensures Equivalent(MidTick(a, now, cfg), MidTick(s, now, cfg))
  {
    var b := MidTick(s, before, cfg);
    StagesRespectEquivalence(a, b, now, cfg);
    StagesCompose(s, t, before, now, cfg);
    EquivalentTransitively(MidTick(a, now, cfg), MidTick(b, now, cfg), MidTick(s, now, cfg));
  }
}

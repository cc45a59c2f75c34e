/** Whom the extraction stage sends home: the due portals of a plane, in ascending ID, take its waiting
    observers in the order in which they began to wait. */
module Homecomings {
  import opened Base
  import opened Randomness
  import opened Sorting
  import opened Portals
  import opened Labs
  import opened Observers
  import opened States
  import opened Commands
  import opened Ticks
  import opened Invariants

  // ---------------------------------------------------------------- ranks

  function SyncMoment(p: Portal, cfg: Config): Time {
    p.openedAt + cfg.extractionSync
  }

  /** The observers waiting in a plane. */
  function Waiters(os: seq<Observer>, planeID: int): set<nat> {
    set i | 0 <= i < |os| && WaitsIn(os[i], planeID)
  }

  predicate WaitsBy(o: Observer, at: Time) {
    o.startedAt.Some? && o.startedAt.value <= at
  }

  /** Those of them who were already waiting at an instant. */
  function WaitersBy(os: seq<Observer>, planeID: int, at: Time): set<nat> {
    set i | 0 <= i < |os| && WaitsIn(os[i], planeID) && WaitsBy(os[i], at)
  }

  /** The due portals of the same plane with lower IDs. */
  function Ahead(ps: seq<Portal>, x: nat, now: Time, cfg: Config): set<nat>
    requires x < |ps|
  {
    set y | 0 <= y < |ps| && SyncDue(ps[y], now, cfg) && ps[y].plane == ps[x].plane && ps[y].id < ps[x].id
  }

  /** The portal is due and there are more waiting observers than due portals before it. */
  predicate Sends(ps: seq<Portal>, os: seq<Observer>, x: nat, now: Time, cfg: Config) {
    && x < |ps| && SyncDue(ps[x], now, cfg)
    && |Ahead(ps, x, now, cfg)| < |Waiters(os, ps[x].plane)|
  }

  /** The transit lasts as long as the random source says. */
  ghost predicate DrawnTransit(o: Observer, tape: Tape, cfg: Config) {
    && o.startedAt.Some? && o.endsAt.Some?
    && exists pos: nat :: o.endsAt.value == o.startedAt.value + TransitSeconds(tape, pos, cfg) * SECOND
  }

  /** On a return through the portal that began when it synchronized. */
  ghost predicate OnReturn(o: Observer, o': Observer, p: Portal, tape: Tape, cfg: Config) {
    && o'.status == Returning && o'.plane == o.plane && o'.id == o.id && o'.portal == Some(p.id)
    && o'.startedAt == Some(SyncMoment(p, cfg)) && DrawnTransit(o', tape, cfg)
  }

  /** The observer's place among the waiters of the plane, by date, is the portal's among the due ones, by ID. */
  ghost predicate SameRank(ps: seq<Portal>, os: seq<Observer>, x: nat, i: nat, now: Time, cfg: Config)
    requires x < |ps| && i < |os|
  {
    && WaitsIn(os[i], ps[x].plane)
    && forall at :: WaitsBy(os[i], at) <==> |Ahead(ps, x, now, cfg)| < |WaitersBy(os, ps[x].plane, at)|
  }

  /** `rider` names the observer each sending portal sends home; nobody else is touched. */
  ghost predicate Assigns(ps: seq<Portal>, os: seq<Observer>, os': seq<Observer>, rider: map<nat, nat>, now: Time, tape: Tape, cfg: Config) {
    && |os'| == |os|
    && (forall x :: x in rider <==> Sends(ps, os, x, now, cfg))
    && (forall x :: x in rider ==>
          rider[x] < |os| && SameRank(ps, os, x, rider[x], now, cfg) && OnReturn(os[rider[x]], os'[rider[x]], ps[x], tape, cfg))
    && (forall i :: 0 <= i < |os| && os'[i] != os[i] ==> i in rider.Values)
  }

  // ---------------------------------------------------------------- one portal

  /** Whoever waited longest waited by `at` if anybody in the plane did. */
  lemma LongestIsFirst(os: seq<Observer>, planeID: int, i: nat, at: Time)
    requires LongestWaiting(os, planeID) == Ok(Some(i))
    ensures i < |os| && i in Waiters(os, planeID)
    ensures WaitsBy(os[i], at) <==> |WaitersBy(os, planeID, at)| > 0
  {
    if WaitsBy(os[i], at) {
      assert i in WaitersBy(os, planeID, at);
    } else {
      assert WaitersBy(os, planeID, at) == {} by {
        assert forall j :: 0 <= j < |os| && WaitsIn(os[j], planeID) ==> !WaitedLonger(os[j], os[i]);
      }
    }
  }

  lemma NobodyWaits(os: seq<Observer>, planeID: int)
    requires LongestWaiting(os, planeID) == Ok(None)
    ensures Waiters(os, planeID) == {}
  {
  }

  /** Once an observer has left, everyone else waits as before. */
  lemma OneWaiterLess(os: seq<Observer>, i: nat, o: Observer, planeID: int)
    requires i < |os| && o.status == Returning
    ensures Waiters(os[i := o], planeID) == Waiters(os, planeID) - {i}
    ensures forall at :: WaitersBy(os[i := o], planeID, at) == WaitersBy(os, planeID, at) - {i}
  {
  }

  /** Once a due portal has synchronized, it is ahead of nobody. */
  lemma OnePortalLess(ps: seq<Portal>, k: nat, x: nat, now: Time, cfg: Config)
    requires k < |ps| && x < |ps| && x != k
    ensures Ahead(ps[k := MarkSynced(ps[k], cfg)], x, now, cfg) == Ahead(ps, x, now, cfg) - {k}
  {
  }

  /** The first due portal has nobody ahead; the others in its plane have it ahead. */
  lemma FirstInOrder(ps: seq<Portal>, order: seq<nat>, now: Time, cfg: Config)
    requires |order| > 0 && order[0] < |ps|
    requires StrictlySorted(order, PortalBefore(ps))
    requires forall x :: 0 <= x < |ps| && SyncDue(ps[x], now, cfg) ==> x in order
    requires SyncDue(ps[order[0]], now, cfg)
    ensures Ahead(ps, order[0], now, cfg) == {}
    ensures forall x :: 0 <= x < |ps| && x != order[0] && SyncDue(ps[x], now, cfg) && ps[x].plane == ps[order[0]].plane ==>
              order[0] in Ahead(ps, x, now, cfg)
  {
    var k := order[0];
    forall x | 0 <= x < |ps| && x != k && SyncDue(ps[x], now, cfg) ensures ps[k].id < ps[x].id {
      var a :| 0 <= a < |order| && order[a] == x;
      assert PortalBefore(ps)(order[0], order[a]);
    }
  }

  // ---------------------------------------------------------------- the stage

  /** A rank among the rest is one less than the rank among all. */
  lemma RankShifts(ps: seq<Portal>, os: seq<Observer>, k: nat, i: nat, o: Observer, x: nat, now: Time, cfg: Config)
    requires k < |ps| && i < |os| && x < |ps| && x != k && o.status == Returning
    requires LongestWaiting(os, ps[k].plane) == Ok(Some(i))
    requires SyncDue(ps[x], now, cfg) && (ps[x].plane == ps[k].plane ==> k in Ahead(ps, x, now, cfg))
    ensures var ps', os' := ps[k := MarkSynced(ps[k], cfg)], os[i := o];
            && (Sends(ps', os', x, now, cfg) <==> Sends(ps, os, x, now, cfg))
            && forall j :: 0 <= j < |os| && j != i ==>
                 (SameRank(ps', os', x, j, now, cfg) <==> SameRank(ps, os, x, j, now, cfg))
  {
    var ps', os', plane := ps[k := MarkSynced(ps[k], cfg)], os[i := o], ps[x].plane;
    OneWaiterLess(os, i, o, plane);
    OnePortalLess(ps, k, x, now, cfg);
    forall at
      ensures |Ahead(ps', x, now, cfg)| < |WaitersBy(os', plane, at)| <==> |Ahead(ps, x, now, cfg)| < |WaitersBy(os, plane, at)|
    {
      if plane == ps[k].plane {
        LongestIsFirst(os, plane, i, at);
      } else {
        assert i !in WaitersBy(os, plane, at) && k !in Ahead(ps, x, now, cfg);
      }
    }
    LongestIsFirst(os, ps[k].plane, i, 0);
  }

  /** Without waiters a synchronization changes no rank. */
  lemma RankStays(ps: seq<Portal>, os: seq<Observer>, k: nat, x: nat, now: Time, cfg: Config)
    requires k < |ps| && x < |ps| && x != k && LongestWaiting(os, ps[k].plane) == Ok(None)
    ensures var ps' := ps[k := MarkSynced(ps[k], cfg)];
            && (Sends(ps', os, x, now, cfg) <==> Sends(ps, os, x, now, cfg))
            && forall j :: 0 <= j < |os| ==> (SameRank(ps', os, x, j, now, cfg) <==> SameRank(ps, os, x, j, now, cfg))
  {
    NobodyWaits(os, ps[k].plane);
    OnePortalLess(ps, k, x, now, cfg);
    if ps[x].plane != ps[k].plane {
      assert k !in Ahead(ps, x, now, cfg);
    } else {
      assert forall j :: 0 <= j < |os| && WaitsIn(os[j], ps[k].plane) ==> j in Waiters(os, ps[k].plane);
    }
  }

  /** What is left to visit after the first portal of the order. */
  ghost predicate ToVisit(ps: seq<Portal>, order: seq<nat>, now: Time, cfg: Config) {
    && (forall x :: x in order ==> x < |ps| && ps[x].kind == Extraction)
    && StrictlySorted(order, PortalBefore(ps))
    && (forall x :: 0 <= x < |ps| && SyncDue(ps[x], now, cfg) ==> x in order)
  }

  lemma VisitedOne(ps: seq<Portal>, order: seq<nat>, q: Portal, now: Time, cfg: Config)
    requires |order| > 0 && ToVisit(ps, order, now, cfg) && order[0] < |ps|
    requires q.id == ps[order[0]].id && q.kind == ps[order[0]].kind && !SyncDue(q, now, cfg)
    ensures ToVisit(ps[order[0] := q], order[1..], now, cfg)
  {
    var qs, rest := ps[order[0] := q], order[1..];
    assert forall x :: x in rest ==> x in order;
    forall i, j | 0 <= i < j < |rest| ensures PortalBefore(qs)(rest[i], rest[j]) {
      assert PortalBefore(ps)(order[i + 1], order[j + 1]);
    }
    forall x | 0 <= x < |qs| && SyncDue(qs[x], now, cfg) ensures x in rest {
      assert x in order && x != order[0];
    }
  }

  /** The first portal sends nobody: the assignment of the rest is the assignment. */
  lemma NobodySent(ps: seq<Portal>, os: seq<Observer>, os': seq<Observer>, k: nat, rider: map<nat, nat>, now: Time, tape: Tape, cfg: Config)
    requires k < |ps| && SyncDue(ps[k], now, cfg) && LongestWaiting(os, ps[k].plane) == Ok(None)
    requires Assigns(ps[k := MarkSynced(ps[k], cfg)], os, os', rider, now, tape, cfg)
    ensures Assigns(ps, os, os', rider, now, tape, cfg)
  {
    var ps' := ps[k := MarkSynced(ps[k], cfg)];
    NobodyWaits(os, ps[k].plane);
    forall x: nat ensures Sends(ps', os, x, now, cfg) <==> Sends(ps, os, x, now, cfg) {
      if x < |ps| && x != k {
        RankStays(ps, os, k, x, now, cfg);
      }
    }
    forall x | x in rider ensures SameRank(ps, os, x, rider[x], now, cfg) && ps[x] == ps'[x] {
      assert Sends(ps', os, x, now, cfg) && x != k;
      RankStays(ps, os, k, x, now, cfg);
    }
  }

  lemma FirstRank(ps: seq<Portal>, os: seq<Observer>, k: nat, i: nat, now: Time, cfg: Config)
    requires k < |ps| && SyncDue(ps[k], now, cfg) && LongestWaiting(os, ps[k].plane) == Ok(Some(i))
    requires Ahead(ps, k, now, cfg) == {}
    ensures i < |os| && Sends(ps, os, k, now, cfg) && SameRank(ps, os, k, i, now, cfg)
  {
    forall at ensures i < |os| && i in Waiters(os, ps[k].plane) && (WaitsBy(os[i], at) <==> |WaitersBy(os, ps[k].plane, at)| > 0) {
      LongestIsFirst(os, ps[k].plane, i, at);
    }
    LongestIsFirst(os, ps[k].plane, i, 0);
    assert Waiters(os, ps[k].plane) != {};
  }

  /** The portals behind the first one keep their assignment. */
  lemma RestKeepsRank(ps: seq<Portal>, os: seq<Observer>, os': seq<Observer>, k: nat, i: nat, o: Observer, rider: map<nat, nat>, now: Time, tape: Tape, cfg: Config)
    requires k < |ps| && LongestWaiting(os, ps[k].plane) == Ok(Some(i)) && i < |os| && o.status == Returning
    requires forall x :: 0 <= x < |ps| && x != k && SyncDue(ps[x], now, cfg) && ps[x].plane == ps[k].plane ==> k in Ahead(ps, x, now, cfg)
    requires Assigns(ps[k := MarkSynced(ps[k], cfg)], os[i := o], os', rider, now, tape, cfg)
    ensures forall x: nat :: x != k ==> (x in rider <==> Sends(ps, os, x, now, cfg))
    ensures forall x :: x in rider ==>
              x < |ps| && x != k && rider[x] < |os| && rider[x] != i && SameRank(ps, os, x, rider[x], now, cfg)
              && OnReturn(os[rider[x]], os'[rider[x]], ps[x], tape, cfg)
  {
    var ps', between := ps[k := MarkSynced(ps[k], cfg)], os[i := o];
    forall x: nat | x != k ensures x in rider <==> Sends(ps, os, x, now, cfg) {
      if x < |ps| && SyncDue(ps[x], now, cfg) {
        RankShifts(ps, os, k, i, o, x, now, cfg);
      }
    }
    forall x | x in rider
      ensures x < |ps| && x != k && rider[x] < |os| && rider[x] != i && SameRank(ps, os, x, rider[x], now, cfg)
    {
      assert Sends(ps', between, x, now, cfg) && SameRank(ps', between, x, rider[x], now, cfg);
      RankShifts(ps, os, k, i, o, x, now, cfg);
    }
  }

  /** Whoever changed is the first portal's traveller or one of the rest's. */
  lemma EveryChangeIsAssigned(os: seq<Observer>, os': seq<Observer>, k: nat, i: nat, o: Observer, rider: map<nat, nat>)
    requires i < |os| && |os'| == |os| && k !in rider
    requires forall j :: 0 <= j < |os| && os'[j] != os[i := o][j] ==> j in rider.Values
    ensures forall j :: 0 <= j < |os| && os'[j] != os[j] ==> j in rider[k := i].Values
  {
    var all := rider[k := i];
    forall j | 0 <= j < |os| && os'[j] != os[j] ensures j in all.Values {
      if j == i {
        assert all[k] == i;
      } else {
        var x :| x in rider && rider[x] == j;
        assert x in all && all[x] == j;
      }
    }
  }

  /** The first portal sends home whoever waited longest; the rest of the assignment follows. */
  lemma OneSent(ps: seq<Portal>, os: seq<Observer>, os': seq<Observer>, k: nat, i: nat, o: Observer, rider: map<nat, nat>, now: Time, tape: Tape, cfg: Config)
    requires k < |ps| && SyncDue(ps[k], now, cfg) && LongestWaiting(os, ps[k].plane) == Ok(Some(i)) && i < |os|
    requires Ahead(ps, k, now, cfg) == {}
    requires forall x :: 0 <= x < |ps| && x != k && SyncDue(ps[x], now, cfg) && ps[x].plane == ps[k].plane ==> k in Ahead(ps, x, now, cfg)
    requires OnReturn(os[i], o, ps[k], tape, cfg)
    requires Assigns(ps[k := MarkSynced(ps[k], cfg)], os[i := o], os', rider, now, tape, cfg)
    ensures Assigns(ps, os, os', rider[k := i], now, tape, cfg)
  {
    FirstRank(ps, os, k, i, now, cfg);
    RestKeepsRank(ps, os, os', k, i, o, rider, now, tape, cfg);
    EveryChangeIsAssigned(os, os', k, i, o, rider);
    assert os'[i] == o by {
      assert i !in rider.Values;
    }
  }

  /** What one synchronization does, portal by portal. */
  lemma OneStep(ps: seq<Portal>, os: seq<Observer>, planes: seq<Plane>, next: int, k: nat, now: Time, tape: Tape, pos: nat, cfg: Config)
    requires StageInv(ps, os, planes, next, now, cfg) && k < |ps| && ps[k].kind == Extraction
    requires Synchronize(ps[k], os, now, tape, pos, cfg).Ok?
    ensures var r := Synchronize(ps[k], os, now, tape, pos, cfg).value;
            && r.portal.id == ps[k].id && r.portal.kind == ps[k].kind && !SyncDue(r.portal, now, cfg)
            && StageInv(ps[k := r.portal], r.observers, planes, next, now, cfg)
            && (!SyncDue(ps[k], now, cfg) ==> r.portal == ps[k] && r.observers == os)
            && (SyncDue(ps[k], now, cfg) ==> r.portal == MarkSynced(ps[k], cfg) && LongestWaiting(os, ps[k].plane).Ok?)
            && (SyncDue(ps[k], now, cfg) && LongestWaiting(os, ps[k].plane) == Ok(None) ==> r.observers == os)
            && (SyncDue(ps[k], now, cfg) && LongestWaiting(os, ps[k].plane).value.Some? ==>
                  var i := LongestWaiting(os, ps[k].plane).value.value;
                  i < |os| && i < |r.observers| && r.observers == os[i := r.observers[i]] && OnReturn(os[i], r.observers[i], ps[k], tape, cfg))
  {
    SynchronizeOutcome(ps, os, planes, next, k, now, tape, pos, cfg);
    SynchronizeKeeps(ps, os, planes, next, k, now, tape, pos, cfg);
  }

  /** The assignment of the whole stage from that of the stage without its first portal. */
  lemma OneMore(ps: seq<Portal>, os: seq<Observer>, between: seq<Observer>, os': seq<Observer>, order: seq<nat>, rest: map<nat, nat>, now: Time, tape: Tape, cfg: Config)
    returns (rider: map<nat, nat>)
    requires |order| > 0 && order[0] < |ps| && ToVisit(ps, order, now, cfg)
    requires var k := order[0];
             && SyncDue(ps[k], now, cfg) && LongestWaiting(os, ps[k].plane).Ok?
             && (LongestWaiting(os, ps[k].plane) == Ok(None) ==> between == os)
             && (LongestWaiting(os, ps[k].plane).value.Some? ==>
                   var i := LongestWaiting(os, ps[k].plane).value.value;
                   i < |os| && i < |between| && between == os[i := between[i]] && OnReturn(os[i], between[i], ps[k], tape, cfg))
             && Assigns(ps[k := MarkSynced(ps[k], cfg)], between, os', rest, now, tape, cfg)
    ensures Assigns(ps, os, os', rider, now, tape, cfg)
  {
    var k := order[0];
    var waiting := LongestWaiting(os, ps[k].plane).value;
    if waiting.None? {
      NobodySent(ps, os, os', k, rest, now, tape, cfg);
      rider := rest;
    } else {
      FirstInOrder(ps, order, now, cfg);
      OneSent(ps, os, os', k, waiting.value, between[waiting.value], rest, now, tape, cfg);
      rider := rest[k := waiting.value];
    }
  }

  /** Every portal of the stage that has somebody to send sends exactly the observer of its rank. */
  lemma {:induction false} StageAssigns(ps: seq<Portal>, os: seq<Observer>, planes: seq<Plane>, next: int, order: seq<nat>, now: Time, tape: Tape, pos: nat, cfg: Config)
    returns (rider: map<nat, nat>)
    requires StageInv(ps, os, planes, next, now, cfg) && ToVisit(ps, order, now, cfg)
    requires SynchronizeAll(ps, os, order, now, tape, pos, cfg).Ok?
    ensures Assigns(ps, os, SynchronizeAll(ps, os, order, now, tape, pos, cfg).value.observers, rider, now, tape, cfg)
    decreases |order|
  {
    if |order| == 0 {
      return map[];
    }
    var k := order[0];
    assert k in order && forall x :: x in order[1..] ==> x in order;
    var first := Synchronize(ps[k], os, now, tape, pos, cfg).value;
    OneStep(ps, os, planes, next, k, now, tape, pos, cfg);
    VisitedOne(ps, order, first.portal, now, cfg);
    rider := StageAssigns(ps[k := first.portal], first.observers, planes, next, order[1..], now, tape, first.pos, cfg);
    if SyncDue(ps[k], now, cfg) {
      rider := OneMore(ps, os, first.observers, SynchronizeAll(ps, os, order, now, tape, pos, cfg).value.observers, order, rider, now, tape, cfg);
    } else {
      assert ps[k := ps[k]] == ps;
    }
  }

  // ---------------------------------------------------------------- the tick

  lemma {:induction false} IndicesAscend(ps: seq<Portal>)
    ensures forall i, j :: 0 <= i < j < |ExtractionIndices(ps)| ==> ExtractionIndices(ps)[i] < ExtractionIndices(ps)[j]
  {
    if |ps| > 0 {
      IndicesAscend(ps[..|ps| - 1]);
      var earlier := ExtractionIndices(ps[..|ps| - 1]);
      assert forall i :: 0 <= i < |earlier| ==> earlier[i] in earlier;
    }
  }

  /** The stage visits every due portal, in ascending ID. */
  lemma OrderAscends(ps: seq<Portal>, now: Time, cfg: Config)
    requires DistinctPortalIds(ps)
    ensures ToVisit(ps, ExtractionOrder(ps), now, cfg)
  {
    IndicesAscend(ps);
    var indices := ExtractionIndices(ps);
    assert forall i :: 0 <= i < |indices| ==> indices[i] in indices;
    SortStrictly(indices, PortalBefore(ps));
  }

  lemma StagesSendHome(s: State, now: Time, tape: Tape, pos: nat, cfg: Config) returns (rider: map<nat, nat>)
    requires Inv(s, cfg) && Clock(s) <= now && RunStages(s, now, tape, pos, cfg).Ok?
    ensures var mid := MidTick(s, now, cfg);
            Assigns(mid.portals, mid.observers, RunStages(s, now, tape, pos, cfg).value.state.observers, rider, now, tape, cfg)
  {
    MidTickKeeps(s, Clock(s), now, cfg);
    StagesSettle(s, now, tape, pos, cfg);
    var mid := MidTick(s, now, cfg);
    OrderAscends(mid.portals, now, cfg);
    rider := StageAssigns(mid.portals, mid.observers, mid.planes, mid.nextPortalID, ExtractionOrder(mid.portals), now, tape, pos, cfg);
  }

  /** A tick sends home, through the due portal of each rank by ID, the waiting observer of that rank by
      date, dated by the portal's synchronization, and sends nobody else. */
  lemma TickSendsHome(s: State, now: Time, tape: Tape, pos: nat, cfg: Config) returns (rider: map<nat, nat>)
    requires Inv(s, cfg) && Clock(s) <= now && s.lastTickAt != Some(now)
    requires Tick(s, now, tape, pos, cfg).Ok?
    ensures var mid := MidTick(s, now, cfg);
            Assigns(mid.portals, mid.observers, Tick(s, now, tape, pos, cfg).value.state.observers, rider, now, tape, cfg)
  {
    rider := StagesSendHome(s, now, tape, pos, cfg);
  }

  /** Who waits in a plane after the portal and observer stages, and since when, told from the records before
      the tick: those waiting already, since their date; those whose research ended, since it did; and those
      who arrived long enough ago, through a corridor that lasted. */
  lemma WaitersBeforeTheTick(o: Observer, p: Option<Portal>, planeID: int, at: Time, now: Time, cfg: Config)
    ensures var o' := Advance(o, p, now, cfg);
            WaitsIn(o', planeID) && WaitsBy(o', at) <==>
              || (o.status == WaitingReturn && o.plane == Some(planeID) && WaitsBy(o, at))
              || (o.status == Exploring && o.plane == Some(planeID) && o.endsAt.Some? && o.endsAt.value <= Min(at, now))
              || (&& o.status == Outbound && p.Some? && p.value.plane == planeID && o.endsAt.Some?
                  && !TransitFails(o.endsAt.value, p.value, now) && o.endsAt.value + cfg.researchDuration <= Min(at, now))
  {
  }

  // ---------------------------------------------------------------- the portals

  /** A portal after the extraction stage: marked if it was due, untouched otherwise. */
  function AfterSync(p: Portal, now: Time, cfg: Config): Portal {
    if SyncDue(p, now, cfg) then MarkSynced(p, cfg) else p
  }

  lemma {:induction false} StageMarks(ps: seq<Portal>, os: seq<Observer>, planes: seq<Plane>, next: int, order: seq<nat>, now: Time, tape: Tape, pos: nat, cfg: Config)
    requires StageInv(ps, os, planes, next, now, cfg) && ToVisit(ps, order, now, cfg)
    requires SynchronizeAll(ps, os, order, now, tape, pos, cfg).Ok?
    ensures var qs := SynchronizeAll(ps, os, order, now, tape, pos, cfg).value.portals;
            |qs| == |ps| && forall i :: 0 <= i < |ps| ==> qs[i] == AfterSync(ps[i], now, cfg)
    decreases |order|
  {
    if |order| > 0 {
      var k := order[0];
      assert k in order && forall x :: x in order[1..] ==> x in order;
      var first := Synchronize(ps[k], os, now, tape, pos, cfg).value;
      OneStep(ps, os, planes, next, k, now, tape, pos, cfg);
      VisitedOne(ps, order, first.portal, now, cfg);
      StageMarks(ps[k := first.portal], first.observers, planes, next, order[1..], now, tape, first.pos, cfg);
    }
  }

  lemma SpawnAppends(s: State, now: Time, tape: Tape, pos: nat, cfg: Config)
    requires |s.planes| > 0 && NaturalSpawn(s, now, tape, pos, cfg).Ok?
    ensures var r := NaturalSpawn(s, now, tape, pos, cfg).value;
            && |s.portals| <= |r.state.portals| <= |s.portals| + 1
            && (forall i :: 0 <= i < |s.portals| ==> r.state.portals[i] == s.portals[i])
            && (|r.state.portals| == |s.portals| <==> r.portalID.None?)
  {
  }

  /** What a tick does to the portals it finds: each is resolved, and marked if its synchronization is then due.
      At most one is added. */
  lemma TickOnPortals(s: State, now: Time, tape: Tape, pos: nat, cfg: Config)
    requires Inv(s, cfg) && Clock(s) <= now && s.lastTickAt != Some(now) && Tick(s, now, tape, pos, cfg).Ok?
    ensures var t := Tick(s, now, tape, pos, cfg).value;
            && |s.portals| <= |t.state.portals| <= |s.portals| + 1
            && (|t.state.portals| == |s.portals| <==> t.spawnedID.None?)
            && forall i :: 0 <= i < |s.portals| ==> t.state.portals[i] == AfterSync(s.portals[i].ResolveLifecycle(now), now, cfg)
  {
    StagesOnPortals(s, now, tape, pos, cfg);
  }

  lemma StagesOnPortals(s: State, now: Time, tape: Tape, pos: nat, cfg: Config)
    requires Inv(s, cfg) && Clock(s) <= now && RunStages(s, now, tape, pos, cfg).Ok?
    ensures var t := RunStages(s, now, tape, pos, cfg).value;
            && |s.portals| <= |t.state.portals| <= |s.portals| + 1
            && (|t.state.portals| == |s.portals| <==> t.spawnedID.None?)
            && forall i :: 0 <= i < |s.portals| ==> t.state.portals[i] == AfterSync(s.portals[i].ResolveLifecycle(now), now, cfg)
  {
    MidTickKeeps(s, Clock(s), now, cfg);
    var mid := MidTick(s, now, cfg);
    OrderAscends(mid.portals, now, cfg);
    StageMarks(mid.portals, mid.observers, mid.planes, mid.nextPortalID, ExtractionOrder(mid.portals), now, tape, pos, cfg);
    var x := SynchronizeAll(mid.portals, mid.observers, ExtractionOrder(mid.portals), now, tape, pos, cfg).value;
    var synced := mid.(portals := x.portals, observers := x.observers);
    SpawnAppends(synced, now, tape, x.pos, cfg);
  }
}

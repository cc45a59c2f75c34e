/** The simulation aggregate and what makes one valid, stated declaratively; the validators
    that decide it with ID and slot maps; and the slot arithmetic. */
module States {
  import opened Base
  import opened Portals
  import opened Labs
  import opened Observers

  datatype Spawn = Spawn(scheduledAt: Option<Time>, dueAt: Option<Time>, paused: bool)

  const PAUSED := Spawn(None, None, true)

  datatype State = State(
    lab: Lab,
    portals: seq<Portal>,
    planes: seq<Plane>,
    observers: seq<Observer>,
    nextPortalID: int,
    spawn: Spawn,
    lastTickAt: Option<Time>)

  /** The catalogue is fixed. */
  const PLANE_COUNT := 85

  // ---------------------------------------------------------------- lookup

  /** The position of the portal with this ID. */
  function FindPortal(ps: seq<Portal>, id: int): (r: Option<nat>)
    ensures r.Some? ==> r.value < |ps| && ps[r.value].id == id
    ensures r.None? ==> forall i :: 0 <= i < |ps| ==> ps[i].id != id
  {
    if |ps| == 0 then None
    else if ps[|ps| - 1].id == id && FindPortal(ps[..|ps| - 1], id).None? then Some(|ps| - 1)
    else FindPortal(ps[..|ps| - 1], id)
  }

  function FindPlane(planes: seq<Plane>, id: int): (r: Option<nat>)
    ensures r.Some? ==> r.value < |planes| && planes[r.value].id == id
    ensures r.None? ==> forall i :: 0 <= i < |planes| ==> planes[i].id != id
  {
    if |planes| == 0 then None
    else if planes[|planes| - 1].id == id && FindPlane(planes[..|planes| - 1], id).None? then Some(|planes| - 1)
    else FindPlane(planes[..|planes| - 1], id)
  }

  predicate DistinctPortalIds(ps: seq<Portal>) {
    forall i, j :: 0 <= i < j < |ps| ==> ps[i].id != ps[j].id
  }

  predicate DistinctPlaneIds(planes: seq<Plane>) {
    forall i, j :: 0 <= i < j < |planes| ==> planes[i].id != planes[j].id
  }

  lemma FoundAt(ps: seq<Portal>, i: nat)
    requires DistinctPortalIds(ps) && i < |ps|
    ensures FindPortal(ps, ps[i].id) == Some(i)
  {
  }

  lemma PlaneFoundAt(planes: seq<Plane>, i: nat)
    requires DistinctPlaneIds(planes) && i < |planes|
    ensures FindPlane(planes, planes[i].id) == Some(i)
  {
  }

  // ---------------------------------------------------------------- validity

  predicate ValidSpawn(spawn: Spawn, now: Time) {
    if spawn.paused then spawn.scheduledAt.None? && spawn.dueAt.None?
    else
      && spawn.scheduledAt.Some? && spawn.dueAt.Some?
      && spawn.scheduledAt.value <= now && spawn.scheduledAt.value <= spawn.dueAt.value
  }

  predicate ValidPlane(p: Plane, now: Time) {
    && p.id > 0 && (p.explored <==> p.exploredAt.Some?)
    && (p.exploredAt.Some? ==> p.exploredAt.value <= now)
  }

  predicate ValidPlanes(planes: seq<Plane>, now: Time) {
    DistinctPlaneIds(planes) && forall i :: 0 <= i < |planes| ==> ValidPlane(planes[i], now)
  }

  predicate DistinctOpenSlots(ps: seq<Portal>) {
    forall i, j :: 0 <= i < j < |ps| && ps[i].status == Open && ps[j].status == Open ==> ps[i].slot != ps[j].slot
  }

  predicate ValidPhase(o: Observer) {
    o.startedAt.Some? && o.endsAt.Some? && o.startedAt.value < o.endsAt.value
  }

  predicate PortalEntry(p: Portal, planes: seq<Plane>, now: Time) {
    ValidStructuralPortal(p, now) && FindPlane(planes, p.plane).Some?
  }

  /** One observer's record agrees with its status and with the planes and portals it names. */
  predicate ValidObserver(o: Observer, planes: seq<Plane>, ps: seq<Portal>, now: Time) {
    && o.id > 0
    && o.createdAt <= now && o.createdAt <= o.updatedAt <= now
    && (o.startedAt.Some? ==> o.startedAt.value <= now)
    && (o.plane.Some? ==> FindPlane(planes, o.plane.value).Some?)
    && (o.portal.Some? ==>
          var at := FindPortal(ps, o.portal.value);
          at.Some? && (o.plane.Some? ==> ps[at.value].plane == o.plane.value))
    && match o.status
       case Available => o.Idle()
       case Lost => o.Idle()
       case Outbound =>
         && o.plane.None? && o.portal.Some? && ValidPhase(o)
         && ps[FindPortal(ps, o.portal.value).value].flow == FlowOutbound
       case Exploring => o.plane.Some? && o.portal.None? && ValidPhase(o)
       case WaitingReturn => o.plane.Some? && o.portal.None? && o.startedAt.Some? && o.endsAt.None?
       case Returning =>
         && o.plane.Some? && o.portal.Some? && ValidPhase(o)
         && ps[FindPortal(ps, o.portal.value).value].flow == FlowInbound
  }

  /** The validity that does not depend on the balance configuration; it is what a commit accepts. */
  predicate ValidStructure(s: State, now: Time) {
    && |s.planes| == PLANE_COUNT && |s.observers| > 0 && s.nextPortalID > 0
    && s.lab.energyBase >= 0 && s.lab.energyBaseAt <= now
    && (s.lastTickAt.Some? ==> s.lastTickAt.value <= now)
    && ValidSpawn(s.spawn, now)
    && ValidPlanes(s.planes, now)
    && DistinctPortalIds(s.portals) && DistinctOpenSlots(s.portals)
    && (forall i :: 0 <= i < |s.portals| ==>
          PortalEntry(s.portals[i], s.planes, now) && s.portals[i].id < s.nextPortalID)
    && DistinctObserverIds(s.observers)
    && (forall i :: 0 <= i < |s.observers| ==> ValidObserver(s.observers[i], s.planes, s.portals, now))
  }

  predicate ValidState(s: State, now: Time, cfg: Config) {
    && |s.observers| == cfg.observerCount
    && ValidStructure(s, now)
    && s.lab.ValidBaseline(now, cfg)
    && (forall i :: 0 <= i < |s.portals| ==> ValidPortal(s.portals[i], now, cfg))
  }

  // ---------------------------------------------------------------- validators

  method ValidatePlanes(planes: seq<Plane>, now: Time) returns (ok: bool, ids: set<int>)
    ensures ok <==> ValidPlanes(planes, now)
    ensures ok ==> forall id :: id in ids <==> FindPlane(planes, id).Some?
  {
    ids := {};
    for i := 0 to |planes|
      invariant ids == set k | 0 <= k < i :: planes[k].id
      invariant forall k, j :: 0 <= k < j < i ==> planes[k].id != planes[j].id
      invariant forall k :: 0 <= k < i ==> ValidPlane(planes[k], now)
    {
      if !ValidPlane(planes[i], now) || planes[i].id in ids {
        return false, ids;
      }
      ids := ids + {planes[i].id};
    }
    ok := true;
  }

  /** A map built from the list locates what the search finds. */
  lemma IndexFinds(ps: seq<Portal>, index: map<int, nat>)
    requires forall k :: 0 <= k < |ps| ==> ps[k].id in index && index[ps[k].id] == k
    requires forall id :: id in index ==> index[id] < |ps| && ps[index[id]].id == id
    ensures forall id :: FindPortal(ps, id) == if id in index then Some(index[id]) else None
  {
    forall id ensures FindPortal(ps, id) == if id in index then Some(index[id]) else None {
      if id in index {
        FoundAt(ps, index[id]);
      }
    }
  }

  /** The open portals of a list stand in different slots, and these are they. */
  ghost predicate OpenSlotsAre(ps: seq<Portal>, slots: set<int>) {
    DistinctOpenSlots(ps) && slots == set k | 0 <= k < |ps| && ps[k].status == Open :: ps[k].slot
  }

  lemma SlotStep(ps: seq<Portal>, i: nat, slots: set<int>)
    requires i < |ps| && OpenSlotsAre(ps[..i], slots)
    ensures ps[i].status == Open && ps[i].slot in slots ==> !DistinctOpenSlots(ps)
    ensures ps[i].status == Open && ps[i].slot !in slots ==> OpenSlotsAre(ps[..i + 1], slots + {ps[i].slot})
    ensures ps[i].status != Open ==> OpenSlotsAre(ps[..i + 1], slots)
  {
    assert forall k :: 0 <= k < i ==> ps[..i][k] == ps[k] && ps[..i + 1][k] == ps[k];
  }

  /** The first `n` portals are in the map, and the highest ID among them is known. */
  ghost predicate Registered(ps: seq<Portal>, n: nat, index: map<int, nat>, maxID: int)
    requires n <= |ps|
  {
    && (forall k :: 0 <= k < n ==> ps[k].id in index && index[ps[k].id] == k && ps[k].id <= maxID)
    && (forall id :: id in index ==> index[id] < n && ps[index[id]].id == id)
    && (maxID == 0 || maxID in index)
  }

  lemma RegisterStep(ps: seq<Portal>, n: nat, index: map<int, nat>, maxID: int)
    requires n < |ps| && Registered(ps, n, index, maxID)
    ensures ps[n].id in index ==> !DistinctPortalIds(ps)
    ensures ps[n].id !in index ==> Registered(ps, n + 1, index[ps[n].id := n], Max(maxID, ps[n].id))
  {
  }

  lemma AllRegistered(ps: seq<Portal>, index: map<int, nat>, maxID: int, nextID: int)
    requires Registered(ps, |ps|, index, maxID) && nextID > 0
    ensures DistinctPortalIds(ps)
    ensures maxID < nextID <==> forall i :: 0 <= i < |ps| ==> ps[i].id < nextID
    ensures forall id :: FindPortal(ps, id) == if id in index then Some(index[id]) else None
  {
    IndexFinds(ps, index);
  }

  method ValidateEntry(p: Portal, planeIDs: set<int>, planes: seq<Plane>, now: Time) returns (ok: bool)
    requires forall id :: id in planeIDs <==> FindPlane(planes, id).Some?
    ensures ok <==> PortalEntry(p, planes, now)
    ensures ok ==> p.id > 0
  {
    ok := ValidStructuralPortal(p, now) && p.plane in planeIDs;
  }

  method ValidatePortals(ps: seq<Portal>, planeIDs: set<int>, planes: seq<Plane>, nextID: int, now: Time)
    returns (ok: bool, index: map<int, nat>)
    requires forall id :: id in planeIDs <==> FindPlane(planes, id).Some?
    requires nextID > 0
    ensures ok <==>
              && DistinctPortalIds(ps) && DistinctOpenSlots(ps)
              && forall i :: 0 <= i < |ps| ==> PortalEntry(ps[i], planes, now) && ps[i].id < nextID
    ensures ok ==> forall id :: FindPortal(ps, id) == if id in index then Some(index[id]) else None
  {
    index := map[];
    var openSlots: set<int> := {};
    var maxID := 0;
    for i := 0 to |ps|
      invariant Registered(ps, i, index, maxID) && OpenSlotsAre(ps[..i], openSlots)
      invariant forall k :: 0 <= k < i ==> PortalEntry(ps[k], planes, now)
    {
      RegisterStep(ps, i, index, maxID);
      SlotStep(ps, i, openSlots);
      var entry := ValidateEntry(ps[i], planeIDs, planes, now);
      if !entry || ps[i].id in index {
        return false, index;
      }
      index := index[ps[i].id := i];
      maxID := Max(maxID, ps[i].id);
      if ps[i].status == Open {
        if ps[i].slot in openSlots {
          return false, index;
        }
        openSlots := openSlots + {ps[i].slot};
      }
    }
    assert ps[..|ps|] == ps;
    AllRegistered(ps, index, maxID, nextID);
    ok := maxID < nextID;
  }

  method ValidateObservers(os: seq<Observer>, planeIDs: set<int>, index: map<int, nat>, planes: seq<Plane>, ps: seq<Portal>, now: Time)
    returns (ok: bool)
    requires forall id :: id in planeIDs <==> FindPlane(planes, id).Some?
    requires forall id :: FindPortal(ps, id) == if id in index then Some(index[id]) else None
    ensures ok <==> DistinctObserverIds(os) && forall i :: 0 <= i < |os| ==> ValidObserver(os[i], planes, ps, now)
  {
    var ids: set<int> := {};
    for i := 0 to |os|
      invariant ids == set k | 0 <= k < i :: os[k].id
      invariant forall k, j :: 0 <= k < j < i ==> os[k].id != os[j].id
      invariant forall k :: 0 <= k < i ==> ValidObserver(os[k], planes, ps, now)
    {
      var o := os[i];
      if o.id <= 0 || o.id in ids {
        return false;
      }
      ids := ids + {o.id};
      if o.createdAt > now || o.updatedAt < o.createdAt || o.updatedAt > now || (o.startedAt.Some? && o.startedAt.value > now) {
        return false;
      }
      if o.plane.Some? && o.plane.value !in planeIDs {
        return false;
      }
      if o.portal.Some? {
        assert FindPortal(ps, o.portal.value) == if o.portal.value in index then Some(index[o.portal.value]) else None;
        if o.portal.value !in index {
          return false;
        }
        if o.plane.Some? && ps[index[o.portal.value]].plane != o.plane.value {
          return false;
        }
      }
      var shaped := match o.status
        case Available => o.Idle()
        case Lost => o.Idle()
        case Outbound =>
          o.plane.None? && o.portal.Some? && ValidPhase(o) && ps[index[o.portal.value]].flow == FlowOutbound
        case Exploring => o.plane.Some? && o.portal.None? && ValidPhase(o)
        case WaitingReturn => o.plane.Some? && o.portal.None? && o.startedAt.Some? && o.endsAt.None?
        case Returning =>
          o.plane.Some? && o.portal.Some? && ValidPhase(o) && ps[index[o.portal.value]].flow == FlowInbound;
      assert shaped <==> ValidObserver(o, planes, ps, now);
      if !shaped {
        return false;
      }
    }
    ok := true;
  }

  /** The map-filling validator decides the declarative predicate exactly. */
  method ValidateStructure(s: State, now: Time) returns (ok: bool)
    ensures ok <==> ValidStructure(s, now)
  {
    if |s.planes| != PLANE_COUNT || |s.observers| == 0 || s.nextPortalID <= 0
       || s.lab.energyBase < 0 || s.lab.energyBaseAt > now
       || (s.lastTickAt.Some? && s.lastTickAt.value > now)
       || !ValidSpawn(s.spawn, now) {
      return false;
    }
    var planesOk, planeIDs := ValidatePlanes(s.planes, now);
    if !planesOk {
      return false;
    }
    var portalsOk, index := ValidatePortals(s.portals, planeIDs, s.planes, s.nextPortalID, now);
    if !portalsOk {
      return false;
    }
    ok := ValidateObservers(s.observers, planeIDs, index, s.planes, s.portals, now);
  }

  method ValidateState(s: State, now: Time, cfg: Config) returns (ok: bool)
    ensures ok <==> ValidState(s, now, cfg)
  {
    if |s.observers| != cfg.observerCount {
      return false;
    }
    var structure := ValidateStructure(s, now);
    if !structure || s.lab.PrepareSpend(now, 0, cfg).Err? {
      return false;
    }
    for i := 0 to |s.portals|
      invariant forall k :: 0 <= k < i ==> ValidPortal(s.portals[k], now, cfg)
    {
      if !ValidPortal(s.portals[i], now, cfg) {
        return false;
      }
    }
    ok := true;
  }

  /** The portal map of an aggregate: it exists exactly when the IDs are positive and distinct. */
  method IndexPortals(ps: seq<Portal>) returns (ok: bool, index: map<int, nat>)
    ensures ok <==> DistinctPortalIds(ps) && forall i :: 0 <= i < |ps| ==> ps[i].id > 0
    ensures ok ==> forall id :: FindPortal(ps, id) == if id in index then Some(index[id]) else None
    ensures ok ==> forall id :: id in index ==> index[id] < |ps| && ps[index[id]].id == id
    ensures ok ==> forall k :: 0 <= k < |ps| ==> ps[k].id in index && index[ps[k].id] == k
  {
    index := map[];
    for i := 0 to |ps|
      invariant forall k :: 0 <= k < i ==> ps[k].id > 0 && ps[k].id in index && index[ps[k].id] == k
      invariant forall id :: id in index ==> index[id] < i && ps[index[id]].id == id
    {
      if ps[i].id in index || ps[i].id <= 0 {
        return false, index;
      }
      index := index[ps[i].id := i];
    }
    ok := true;
    IndexFinds(ps, index);
  }

  // ---------------------------------------------------------------- slots

  function CountOpen(ps: seq<Portal>): nat {
    if |ps| == 0 then 0
    else CountOpen(ps[..|ps| - 1]) + if ps[|ps| - 1].status == Open then 1 else 0
  }

  method CountOpenPortals(ps: seq<Portal>) returns (n: nat)
    ensures n == CountOpen(ps)
  {
    n := 0;
    for i := 0 to |ps|
      invariant n == CountOpen(ps[..i])
    {
      assert ps[..i + 1][..i] == ps[..i];
      if ps[i].status == Open {
        n := n + 1;
      }
    }
    assert ps[..|ps|] == ps;
  }

  function OpenSlots(ps: seq<Portal>): set<int> {
    set i | 0 <= i < |ps| && ps[i].status == Open :: ps[i].slot
  }

  function FreeFrom(taken: set<int>, slot: int, maxSlots: int): (r: Option<int>)
    ensures r.Some? ==> slot <= r.value <= maxSlots && r.value !in taken && forall s :: slot <= s < r.value ==> s in taken
    ensures r.None? ==> forall s :: slot <= s <= maxSlots ==> s in taken
    decreases maxSlots - slot
  {
    if slot > maxSlots then None
    else if slot !in taken then Some(slot)
    else FreeFrom(taken, slot + 1, maxSlots)
  }

  /** The lowest slot in 1..maxSlots no OPEN portal occupies. */
  function FreeSlot(ps: seq<Portal>, maxSlots: int): (r: Option<int>)
    ensures r.Some? ==> 1 <= r.value <= maxSlots && r.value !in OpenSlots(ps)
                        && forall s :: 1 <= s < r.value ==> s in OpenSlots(ps)
    ensures r.None? ==> forall s :: 1 <= s <= maxSlots ==> s in OpenSlots(ps)
  {
    FreeFrom(OpenSlots(ps), 1, maxSlots)
  }

  method FirstFreeSlot(ps: seq<Portal>, maxSlots: int) returns (r: Option<int>)
    ensures r == FreeSlot(ps, maxSlots)
  {
    var occupied: set<int> := {};
    for i := 0 to |ps|
      invariant occupied == OpenSlots(ps[..i])
    {
      if ps[i].status == Open {
        occupied := occupied + {ps[i].slot};
      }
      assert ps[..i + 1][..i] == ps[..i];
      OpenSlotsStep(ps[..i + 1]);
    }
    assert ps[..|ps|] == ps;
    var slot := 1;
    while slot <= maxSlots
      invariant FreeFrom(occupied, slot, maxSlots) == FreeSlot(ps, maxSlots)
      decreases maxSlots - slot
    {
      if slot !in occupied {
        return Some(slot);
      }
      slot := slot + 1;
    }
    r := None;
  }

  lemma OpenSlotsStep(ps: seq<Portal>)
    requires |ps| > 0
    ensures var init, last := ps[..|ps| - 1], ps[|ps| - 1];
            OpenSlots(ps) == OpenSlots(init) + if last.status == Open then {last.slot} else {}
  {
    var init, last := ps[..|ps| - 1], ps[|ps| - 1];
    forall s | s in OpenSlots(ps) ensures s in OpenSlots(init) || (last.status == Open && s == last.slot) {
      var k :| 0 <= k < |ps| && ps[k].status == Open && ps[k].slot == s;
      if k < |init| {
        assert init[k].slot == s;
      }
    }
    forall s | s in OpenSlots(init) ensures s in OpenSlots(ps) {
      var k :| 0 <= k < |init| && init[k].status == Open && init[k].slot == s;
      assert ps[k].slot == s;
    }
    if last.status == Open {
      assert ps[|ps| - 1].slot in OpenSlots(ps);
    }
  }

  /** Distinct slots make the number of open portals the number of occupied slots. */
  lemma {:induction false} OpenPortalsFillSlots(ps: seq<Portal>)
    requires DistinctOpenSlots(ps)
    ensures |OpenSlots(ps)| == CountOpen(ps)
  {
    if |ps| > 0 {
      var init, last := ps[..|ps| - 1], ps[|ps| - 1];
      assert forall i :: 0 <= i < |init| ==> init[i] == ps[i];
      OpenPortalsFillSlots(init);
      OpenSlotsStep(ps);
      if last.status == Open {
        assert last.slot !in OpenSlots(init);
      }
    }
  }

  lemma SubsetCardinality(a: set<int>, b: set<int>)
    requires a <= b
    ensures |a| <= |b|
  {
    assert b == a + (b - a);
  }

  function SlotRange(n: nat): (r: set<int>)
    ensures |r| == n && forall s :: s in r <==> 1 <= s <= n
  {
    if n == 0 then {} else SlotRange(n - 1) + {n}
  }

  /** Pigeonhole: at most seven portals are open, and a slot is free exactly when fewer than seven are. */
  lemma SlotPigeonhole(ps: seq<Portal>, maxSlots: nat)
    requires DistinctOpenSlots(ps)
    requires forall i :: 0 <= i < |ps| && ps[i].status == Open ==> 1 <= ps[i].slot <= maxSlots
    ensures CountOpen(ps) <= maxSlots
    ensures FreeSlot(ps, maxSlots).Some? <==> CountOpen(ps) < maxSlots
  {
    OpenPortalsFillSlots(ps);
    SubsetCardinality(OpenSlots(ps), SlotRange(maxSlots));
    var free := FreeSlot(ps, maxSlots);
    if free.None? {
      SubsetCardinality(SlotRange(maxSlots), OpenSlots(ps));
    } else {
      SubsetCardinality(OpenSlots(ps), SlotRange(maxSlots) - {free.value});
    }
  }
}

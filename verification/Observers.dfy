/** Observers: the six-state lifecycle, its catch-up resolution at semantic deadlines, and the
    selection rules commands use. */
module Observers {
  import opened Base
  import opened Randomness
  import opened Portals

  datatype ObserverStatus = Available | Outbound | Exploring | WaitingReturn | Returning | Lost

  datatype Observer = Observer(
    id: int,
    status: ObserverStatus,
    plane: Option<int>,
    portal: Option<int>,
    startedAt: Option<Time>,
    endsAt: Option<Time>,
    createdAt: Time,
    updatedAt: Time)
  {
    predicate InTransit() {
      status == Outbound || status == Returning
    }

    predicate Idle() {
      plane.None? && portal.None? && startedAt.None? && endsAt.None?
    }

    function StartOutbound(now: Time, portalID: int, seconds: int): Result<Observer> {
      if status == Lost then Err(ObserverIsLost)
      else if status != Available then Err(ObserverNotAvailable)
      else Ok(this.(status := Outbound, plane := None, portal := Some(portalID),
                    startedAt := Some(now), endsAt := Some(now + seconds * SECOND), updatedAt := now))
    }

    function StartReturning(now: Time, portalID: int, seconds: int): Result<Observer> {
      if status == Lost then Err(ObserverIsLost)
      else if status != WaitingReturn then Err(ObserverNotWaitingReturn)
      else if plane.None? then Err(ObserverInvariant)
      else Ok(this.(status := Returning, portal := Some(portalID),
                    startedAt := Some(now), endsAt := Some(now + seconds * SECOND), updatedAt := now))
    }

    function Vanish(lostAt: Time): Observer {
      this.(status := Lost, plane := None, portal := None, startedAt := None, endsAt := None, updatedAt := lostAt)
    }

    function Arrive(planeID: int, arrivedAt: Time, cfg: Config): Observer {
      this.(status := Exploring, plane := Some(planeID), portal := None,
            startedAt := Some(arrivedAt), endsAt := Some(arrivedAt + cfg.researchDuration), updatedAt := arrivedAt)
    }

    function FinishResearch(completedAt: Time): Observer {
      this.(status := WaitingReturn, portal := None,
            startedAt := Some(completedAt), endsAt := None, updatedAt := completedAt)
    }

    function ComeHome(returnedAt: Time): Observer {
      this.(status := Available, plane := None, portal := None, startedAt := None, endsAt := None,
            updatedAt := returnedAt)
    }
  }

  datatype Plane = Plane(id: int, explored: bool, exploredAt: Option<Time>) {
    function ExploreAt(at: Time): Plane {
      if explored then this else this.(explored := true, exploredAt := Some(at))
    }
  }

  function NewObserver(id: int, now: Time): Observer {
    Observer(id, Available, None, None, None, None, now, now)
  }

  function TransitSeconds(tape: Tape, pos: nat, cfg: Config): int {
    tape.Int(pos, cfg.observerTransitMin / SECOND, cfg.observerTransitMax / SECOND)
  }

  lemma TransitSecondsInRange(tape: Tape, pos: nat, cfg: Config)
    ensures cfg.observerTransitMin <= TransitSeconds(tape, pos, cfg) * SECOND <= cfg.observerTransitMax
  {
  }

  // ---------------------------------------------------------------- lifecycle resolution

  /** What one resolution step demands of its arguments before it looks at the clock. */
  predicate WellFormedFor(o: Observer, plane: Option<Plane>, portal: Option<Portal>) {
    match o.status
    case Available => true
    case Lost => true
    case Outbound =>
      && o.portal.Some? && o.startedAt.Some? && o.endsAt.Some?
      && plane.Some? && portal.Some? && o.portal.value == portal.value.id
      && plane.value.id == portal.value.plane
      && (portal.value.IsTerminal() ==> portal.value.closedAt.Some?)
    case Exploring =>
      && o.plane.Some? && o.startedAt.Some? && o.endsAt.Some?
      && plane.Some? && o.plane.value == plane.value.id
    case WaitingReturn => o.plane.Some?
    case Returning =>
      && o.plane.Some? && o.portal.Some? && o.startedAt.Some? && o.endsAt.Some?
      && plane.Some? && portal.Some?
      && o.plane.value == plane.value.id && o.portal.value == portal.value.id
      && plane.value.id == portal.value.plane
      && (portal.value.IsTerminal() ==> portal.value.closedAt.Some?)
  }

  /** The corridor ended under an observer before its transit did. */
  predicate TransitFails(endsAt: Time, portal: Portal, now: Time) {
    portal.IsTerminal() && portal.closedAt.Some? && portal.closedAt.value < endsAt && portal.closedAt.value <= now
  }

  /** The state of an observer effective at `now`, whatever number of phases lies in between. */
  function Advance(o: Observer, portal: Option<Portal>, now: Time, cfg: Config): Observer {
    match o.status
    case Outbound =>
      if o.endsAt.None? || portal.None? then o
      else if TransitFails(o.endsAt.value, portal.value, now) then o.Vanish(portal.value.closedAt.value)
      else if now < o.endsAt.value then o
      else
        var arrivedAt := o.endsAt.value;
        var exploring := o.Arrive(portal.value.plane, arrivedAt, cfg);
        if now < arrivedAt + cfg.researchDuration then exploring
        else exploring.FinishResearch(arrivedAt + cfg.researchDuration)
    case Exploring =>
      if o.endsAt.None? || now < o.endsAt.value then o else o.FinishResearch(o.endsAt.value)
    case Returning =>
      if o.endsAt.None? || portal.None? then o
      else if TransitFails(o.endsAt.value, portal.value, now) then o.Vanish(portal.value.closedAt.value)
      else if now < o.endsAt.value then o
      else o.ComeHome(o.endsAt.value)
    case _ => o
  }

  /** The observer's resolution at `now` completes a return to the laboratory. */
  predicate ReturnsHome(o: Observer, portal: Option<Portal>, now: Time, cfg: Config) {
    o.status == Returning && Advance(o, portal, now, cfg).status == Available
  }

  function StatusRank(s: ObserverStatus): nat {
    match s
    case Outbound => 3
    case Exploring => 2
    case WaitingReturn => 1
    case Returning => 1
    case Available => 0
    case Lost => 0
  }

  /** One phase step of the lifecycle; the caller repeats it until the status settles. */
  method ResolveOnce(o: Observer, plane: Option<Plane>, portal: Option<Portal>, now: Time, cfg: Config)
    returns (r: Result<(Observer, Option<Plane>)>)
    ensures r.Ok? <==> WellFormedFor(o, plane, portal)
    ensures r.Err? ==> r.error == ObserverInvariant
    ensures r.Ok? ==>
              var (o', plane') := r.value;
              && (o'.status == o.status ==> o' == o)
              && (o'.status != o.status ==> StatusRank(o'.status) < StatusRank(o.status))
              && (plane' == if ReturnsHome(o, portal, now, cfg) && plane.Some? then Some(plane.value.ExploreAt(o.endsAt.value)) else plane)
              && Advance(o', portal, now, cfg) == Advance(o, portal, now, cfg)
              && (o'.status == o.status ==> Advance(o, portal, now, cfg) == o)
              && WellFormedFor(o', plane', portal)
              && (o'.status != o.status ==> !ReturnsHome(o', portal, now, cfg))
  {
    match o.status {
      case Available => r := Ok((o, plane));
      case Lost => r := Ok((o, plane));
      case Outbound =>
        if o.portal.None? || o.startedAt.None? || o.endsAt.None? || plane.None? || portal.None?
           || o.portal.value != portal.value.id || plane.value.id != portal.value.plane {
          return Err(ObserverInvariant);
        }
        if portal.value.status != Open {
          if portal.value.closedAt.None? {
            return Err(ObserverInvariant);
          }
          if portal.value.closedAt.value < o.endsAt.value && portal.value.closedAt.value <= now {
            return Ok((o.Vanish(portal.value.closedAt.value), plane));
          }
        }
        if now < o.endsAt.value {
          return Ok((o, plane));
        }
        r := Ok((o.Arrive(plane.value.id, o.endsAt.value, cfg), plane));
      case Exploring =>
        if o.plane.None? || o.startedAt.None? || o.endsAt.None? || plane.None? || o.plane.value != plane.value.id {
          return Err(ObserverInvariant);
        }
        if now < o.endsAt.value {
          return Ok((o, plane));
        }
        r := Ok((o.FinishResearch(o.endsAt.value), plane));
      case WaitingReturn =>
        r := if o.plane.None? then Err(ObserverInvariant) else Ok((o, plane));
      case Returning =>
        if o.plane.None? || o.portal.None? || o.startedAt.None? || o.endsAt.None? || plane.None? || portal.None?
           || o.plane.value != plane.value.id || o.portal.value != portal.value.id
           || plane.value.id != portal.value.plane {
          return Err(ObserverInvariant);
        }
        if portal.value.status != Open {
          if portal.value.closedAt.None? {
            return Err(ObserverInvariant);
          }
          if portal.value.closedAt.value < o.endsAt.value && portal.value.closedAt.value <= now {
            return Ok((o.Vanish(portal.value.closedAt.value), plane));
          }
        }
        if now < o.endsAt.value {
          return Ok((o, plane));
        }
        r := Ok((o.ComeHome(o.endsAt.value), Some(plane.value.ExploreAt(o.endsAt.value))));
    }
  }

  /** The run-until-unchanged loop terminates by status rank, fails only on a malformed input,
      and otherwise jumps to exactly the state `Advance` gives in closed form. */
  method ResolveObserverLifecycle(o: Observer, plane: Option<Plane>, portal: Option<Portal>, now: Time, cfg: Config)
    returns (r: Result<(Observer, Option<Plane>)>)
    ensures r.Ok? <==> WellFormedFor(o, plane, portal)
    ensures r.Err? ==> r.error == ObserverInvariant
    ensures r.Ok? ==> r.value.0 == Advance(o, portal, now, cfg)
    ensures r.Ok? ==>
              r.value.1 == if ReturnsHome(o, portal, now, cfg) && plane.Some? then Some(plane.value.ExploreAt(o.endsAt.value)) else plane
  {
    var current, where := o, plane;
    var settled := false;
    while !settled
      invariant WellFormedFor(o, plane, portal) <==> WellFormedFor(current, where, portal)
      invariant Advance(current, portal, now, cfg) == Advance(o, portal, now, cfg)
      invariant settled ==> WellFormedFor(o, plane, portal) && current == Advance(o, portal, now, cfg)
      invariant (current == o && where == plane) ||
                (!ReturnsHome(current, portal, now, cfg) && WellFormedFor(o, plane, portal) &&
                 where == if ReturnsHome(o, portal, now, cfg) && plane.Some? then Some(plane.value.ExploreAt(o.endsAt.value)) else plane)
      decreases StatusRank(current.status), !settled
    {
      var once := ResolveOnce(current, where, portal, now, cfg);
      if once.Err? {
        return Err(once.error);
      }
      settled := once.value.0.status == current.status;
      current, where := once.value.0, once.value.1;
    }
    r := Ok((current, where));
  }

  // ---------------------------------------------------------------- selection

  /** The AVAILABLE observer of lowest ID. */
  ghost predicate IsFirstAvailable(os: seq<Observer>, k: int) {
    && 0 <= k < |os| && os[k].status == Available
    && (forall i :: 0 <= i < |os| && os[i].status == Available ==> os[k].id <= os[i].id)
  }

  ghost predicate NobodyAvailable(os: seq<Observer>) {
    forall i :: 0 <= i < |os| ==> os[i].status != Available
  }

  function AvailableUpTo(os: seq<Observer>, n: nat): Option<nat>
    requires n <= |os|
    ensures var r := AvailableUpTo(os, n);
            match r
            case None => forall i :: 0 <= i < n ==> os[i].status != Available
            case Some(k) => k < n && os[k].status == Available &&
                            (forall i :: 0 <= i < n && os[i].status == Available ==> os[k].id <= os[i].id)
  {
    if n == 0 then None
    else
      var earlier := AvailableUpTo(os, n - 1);
      if os[n - 1].status != Available then earlier
      else if earlier.None? || os[n - 1].id < os[earlier.value].id then Some(n - 1)
      else earlier
  }

  function AvailableIndex(os: seq<Observer>): (r: Option<nat>)
    ensures r.None? ==> NobodyAvailable(os)
    ensures r.Some? ==> IsFirstAvailable(os, r.value)
  {
    AvailableUpTo(os, |os|)
  }

  method FindAvailable(os: seq<Observer>) returns (r: Option<nat>)
    ensures r == AvailableIndex(os)
  {
    r := None;
    for i := 0 to |os|
      invariant r == AvailableUpTo(os, i)
    {
      if os[i].status != Available {
        continue;
      }
      if r.None? || os[i].id < os[r.value].id {
        r := Some(i);
      }
    }
  }

  predicate WaitsIn(o: Observer, planeID: int) {
    o.status == WaitingReturn && o.plane == Some(planeID)
  }

  /** `a` waited longer than `b`, or as long with a lower ID. */
  predicate WaitedLonger(a: Observer, b: Observer)
    requires a.startedAt.Some? && b.startedAt.Some?
  {
    a.startedAt.value < b.startedAt.value || (a.startedAt.value == b.startedAt.value && a.id < b.id)
  }

  predicate WaitingRecorded(o: Observer) {
    o.status == WaitingReturn ==> o.plane.Some? && o.startedAt.Some?
  }

  /** Scans the first `n` observers; a waiting observer without plane or start is an error. */
  function LongestUpTo(os: seq<Observer>, n: nat, planeID: int): (r: Result<Option<nat>>)
    requires n <= |os|
    ensures r.Ok? <==> forall i :: 0 <= i < n ==> WaitingRecorded(os[i])
    ensures r.Err? ==> r.error == ObserverInvariant
    ensures r.Ok? && r.value.None? ==> forall i :: 0 <= i < n ==> !WaitsIn(os[i], planeID)
    ensures r.Ok? && r.value.Some? ==>
              var k := r.value.value;
              && k < n && WaitsIn(os[k], planeID)
              && forall i :: 0 <= i < n && WaitsIn(os[i], planeID) ==> !WaitedLonger(os[i], os[k])
  {
    if n == 0 then Ok(None)
    else
      var earlier := LongestUpTo(os, n - 1, planeID);
      var o := os[n - 1];
      if earlier.Err? then earlier
      else if o.status == WaitingReturn && (o.plane.None? || o.startedAt.None?) then Err(ObserverInvariant)
      else if !WaitsIn(o, planeID) then earlier
      else if earlier.value.None? || WaitedLonger(o, os[earlier.value.value]) then Ok(Some(n - 1))
      else earlier
  }

  /** The observer waiting longest in a plane, lowest ID on exact ties. */
  function LongestWaiting(os: seq<Observer>, planeID: int): (r: Result<Option<nat>>)
    ensures r.Ok? <==> forall i :: 0 <= i < |os| ==> WaitingRecorded(os[i])
    ensures r.Err? ==> r.error == ObserverInvariant
    ensures r.Ok? && r.value.None? ==> forall i :: 0 <= i < |os| ==> !WaitsIn(os[i], planeID)
    ensures r.Ok? && r.value.Some? ==>
              var k := r.value.value;
              && k < |os| && WaitsIn(os[k], planeID)
              && forall i :: 0 <= i < |os| && WaitsIn(os[i], planeID) ==> !WaitedLonger(os[i], os[k])
  {
    LongestUpTo(os, |os|, planeID)
  }

  method FindLongestWaiting(os: seq<Observer>, planeID: int) returns (r: Result<Option<nat>>)
    ensures r == LongestWaiting(os, planeID)
  {
    var selected: Option<nat> := None;
    for i := 0 to |os|
      invariant LongestUpTo(os, i, planeID) == Ok(selected)
    {
      if os[i].status != WaitingReturn {
        continue;
      }
      if os[i].plane.None? || os[i].startedAt.None? {
        FirstErrorSticks(os, i + 1, planeID);
        return Err(ObserverInvariant);
      }
      if os[i].plane.value != planeID {
        continue;
      }
      if selected.None? || WaitedLonger(os[i], os[selected.value]) {
        selected := Some(i);
      }
    }
    r := Ok(selected);
  }

  lemma FirstErrorSticks(os: seq<Observer>, n: nat, planeID: int)
    requires n <= |os| && LongestUpTo(os, n, planeID).Err?
    ensures LongestWaiting(os, planeID) == Err(ObserverInvariant)
  {
  }

  /** The pointer checks every in-transit observer must pass, whatever portal it is on. */
  predicate TransitRecorded(o: Observer) {
    o.InTransit() ==>
      && o.portal.Some? && o.startedAt.Some? && o.endsAt.Some?
      && (o.status == Outbound ==> o.plane.None?)
      && (o.status == Returning ==> o.plane.Some?)
  }

  predicate OnPortal(o: Observer, portalID: int) {
    o.InTransit() && o.portal == Some(portalID)
  }

  predicate FreshTransit(o: Observer, now: Time) {
    o.startedAt.Some? && o.endsAt.Some? && o.startedAt.value < o.endsAt.value && now < o.endsAt.value
  }

  function ActiveUpTo(os: seq<Observer>, n: nat, portalID: int, now: Time): (r: Result<Option<nat>>)
    requires n <= |os|
    ensures r.Err? ==> r.error == ObserverInvariant
    ensures r.Ok? ==> forall i :: 0 <= i < n ==> TransitRecorded(os[i])
    ensures r.Ok? && r.value.None? ==> forall i :: 0 <= i < n ==> !OnPortal(os[i], portalID)
    ensures r.Ok? && r.value.Some? ==>
              var k := r.value.value;
              && k < n && OnPortal(os[k], portalID) && FreshTransit(os[k], now)
              && forall i :: 0 <= i < n && i != k ==> !OnPortal(os[i], portalID)
  {
    if n == 0 then Ok(None)
    else
      var earlier := ActiveUpTo(os, n - 1, portalID, now);
      var o := os[n - 1];
      if earlier.Err? then earlier
      else if !TransitRecorded(o) then Err(ObserverInvariant)
      else if !OnPortal(o, portalID) then earlier
      else if !FreshTransit(o, now) || earlier.value.Some? then Err(ObserverInvariant)
      else Ok(Some(n - 1))
  }

  /** The single observer traversing a portal; stale, malformed or doubled transits are errors. */
  function ActiveTransit(os: seq<Observer>, portalID: int, now: Time): (r: Result<Option<nat>>)
    ensures r.Err? ==> r.error == ObserverInvariant
    ensures r.Ok? ==> forall i :: 0 <= i < |os| ==> TransitRecorded(os[i])
    ensures r.Ok? && r.value.None? ==> forall i :: 0 <= i < |os| ==> !OnPortal(os[i], portalID)
    ensures r.Ok? && r.value.Some? ==>
              var k := r.value.value;
              && k < |os| && OnPortal(os[k], portalID) && FreshTransit(os[k], now)
              && forall i :: 0 <= i < |os| && i != k ==> !OnPortal(os[i], portalID)
  {
    ActiveUpTo(os, |os|, portalID, now)
  }

  lemma ActiveErrorSticks(os: seq<Observer>, n: nat, portalID: int, now: Time)
    requires n <= |os| && ActiveUpTo(os, n, portalID, now).Err?
    ensures ActiveTransit(os, portalID, now) == Err(ObserverInvariant)
    decreases |os| - n
  {
    if n < |os| {
      ActiveErrorSticks(os, n + 1, portalID, now);
    }
  }

  method FindActiveTransit(os: seq<Observer>, portalID: int, now: Time) returns (r: Result<Option<nat>>)
    ensures r == ActiveTransit(os, portalID, now)
  {
    var selected: Option<nat> := None;
    for i := 0 to |os|
      invariant ActiveUpTo(os, i, portalID, now) == Ok(selected)
    {
      if os[i].status != Outbound && os[i].status != Returning {
        continue;
      }
      if os[i].portal.None? || os[i].startedAt.None? || os[i].endsAt.None?
         || (os[i].status == Outbound && os[i].plane.Some?)
         || (os[i].status == Returning && os[i].plane.None?) {
        ActiveErrorSticks(os, i + 1, portalID, now);
        return Err(ObserverInvariant);
      }
      if os[i].portal.value != portalID {
        continue;
      }
      if os[i].startedAt.value >= os[i].endsAt.value || now >= os[i].endsAt.value || selected.Some? {
        ActiveErrorSticks(os, i + 1, portalID, now);
        return Err(ObserverInvariant);
      }
      selected := Some(i);
    }
    r := Ok(selected);
  }

  /** Exactly when the search for an active transit succeeds without finding one, or with one. */
  lemma {:induction false} ActiveTransitDecided(os: seq<Observer>, n: nat, portalID: int, now: Time)
    requires n <= |os|
    requires forall i :: 0 <= i < n ==> TransitRecorded(os[i])
    requires forall i :: 0 <= i < n && OnPortal(os[i], portalID) ==> FreshTransit(os[i], now)
    requires forall i, j :: 0 <= i < j < n && OnPortal(os[i], portalID) ==> !OnPortal(os[j], portalID)
    ensures ActiveUpTo(os, n, portalID, now).Ok?
    ensures forall k :: 0 <= k < n && OnPortal(os[k], portalID) ==> ActiveUpTo(os, n, portalID, now) == Ok(Some(k))
  {
    if n > 0 {
      ActiveTransitDecided(os, n - 1, portalID, now);
    }
  }

  // ---------------------------------------------------------------- roster

  predicate ValidActiveTransit(o: Observer, now: Time) {
    o.portal.Some? && FreshTransit(o, now)
  }

  predicate RosterEntry(o: Observer, now: Time) {
    match o.status
    case Available => o.Idle()
    case Lost => o.Idle()
    case Outbound => o.plane.None? && ValidActiveTransit(o, now)
    case Exploring =>
      o.plane.Some? && o.portal.None? && o.startedAt.Some? && o.endsAt.Some? && o.startedAt.value <= o.endsAt.value
    case WaitingReturn => o.plane.Some? && o.portal.None? && o.startedAt.Some? && o.endsAt.None?
    case Returning => o.plane.Some? && ValidActiveTransit(o, now)
  }

  predicate DistinctObserverIds(os: seq<Observer>) {
    forall i, j :: 0 <= i < j < |os| ==> os[i].id != os[j].id
  }

  predicate ValidRoster(os: seq<Observer>, now: Time) {
    DistinctObserverIds(os) && forall i :: 0 <= i < |os| ==> RosterEntry(os[i], now)
  }

  method ValidateRoster(os: seq<Observer>, now: Time) returns (ok: bool)
    ensures ok <==> ValidRoster(os, now)
  {
    var ids: set<int> := {};
    for i := 0 to |os|
      invariant ids == set k | 0 <= k < i :: os[k].id
      invariant forall k, j :: 0 <= k < j < i ==> os[k].id != os[j].id
      invariant forall k :: 0 <= k < i ==> RosterEntry(os[k], now)
    {
      if os[i].id in ids {
        return false;
      }
      ids := ids + {os[i].id};
      if !RosterEntry(os[i], now) {
        return false;
      }
    }
    ok := true;
  }
}

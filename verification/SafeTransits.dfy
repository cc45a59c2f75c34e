/** Following advice is safe: a transit started on advice completes in every later run in which nobody
    closes its portal, whenever the ticks come and whatever else is done. */
module SafeTransits {
  import opened Base
  import opened Randomness
  import opened Portals
  import opened Observers
  import opened States
  import opened Commands
  import opened Ticks
  import opened Invariants
  import opened CommandInvariants
  import opened Runs
  import opened Guarantees
  import opened Traces
  import opened Advice
  import opened FollowedAdvice

  /** Observer `i` is in the open, stable portal `k` with record `o`, and the portal will outlive its transit. */
  predicate Protected(s: State, i: nat, k: nat, o: Observer) {
    && i < |s.observers| && k < |s.portals| && s.observers[i] == o
    && o.InTransit() && o.endsAt.Some? && o.portal == Some(s.portals[k].id)
    && s.portals[k].status == Open && s.portals[k].stability == Stable && o.endsAt.value < s.portals[k].Deadline()
  }

  // ---------------------------------------------------------------- advised transits are protected

  lemma SafePortalOutlives(p: Portal, now: Time, seconds: int, cfg: Config)
    requires PortalInv(p, now, cfg) && SafeFor(p, cfg.observerTransitMax, now, cfg)
    requires seconds * SECOND <= cfg.observerTransitMax
    ensures now + seconds * SECOND < p.Deadline() && p.stability == Stable
  {
    EffectiveLifetimeIsDistance(p, now);
  }

  /** The portal an observer is advised to travel through stays open for the longest transit. */
  lemma AdvisedPortalOutlives(s: State, id: int, now: Time, seconds: int, cfg: Config)
    requires InvAt(s, now, cfg) && Advise(s, id, now, cfg).Ok?
    requires Advise(s, id, now, cfg).value == Some(DoSend) || Advise(s, id, now, cfg).value == Some(DoRecall)
    requires seconds * SECOND <= cfg.observerTransitMax
    ensures Target(s, id).Ok?
    ensures var p := s.portals[Target(s, id).value.0];
            p.id == id && p.status == Open && now + seconds * SECOND < p.Deadline() && p.stability == Stable
  {
    AdvisedPortal(s, id, now, cfg);
    var p := s.portals[Target(s, id).value.0];
    MissionAdvice(s, p, MissionOf(s, p, now, cfg).value, now, cfg);
    SafePortalOutlives(p, now, seconds, cfg);
  }

  /** A dispatch on advice starts a protected transit. */
  lemma AdvisedSendIsProtected(s: State, id: int, now: Time, tape: Tape, pos: nat, cfg: Config) returns (i: nat, k: nat)
    requires InvAt(s, now, cfg) && Fresh(s, now) && Advise(s, id, now, cfg) == Ok(Some(DoSend))
    ensures var s' := Apply(s, SendObserver(id, false), now, tape, pos, cfg).state;
            && i < |s'.observers| && k < |s'.portals| && s'.portals[k].id == id
            && s'.observers[i].status == Outbound && s'.observers[i].startedAt == Some(now)
            && Protected(s', i, k, s'.observers[i])
  {
    SendAdviceSucceeds(s, id, now, tape, pos, cfg);
    TransitSecondsInRange(tape, pos, cfg);
    AdvisedPortalOutlives(s, id, now, TransitSeconds(tape, pos, cfg), cfg);
    k := Target(s, id).value.0;
    var j := Target(s, id).value.1;
    SendAdmission(s.portals[k], s.planes[j], s.observers, now, false, tape, pos, cfg);
    i := AvailableIndex(s.observers).value;
  }

  /** A recall on advice starts a protected transit. */
  lemma AdvisedRecallIsProtected(s: State, id: int, now: Time, tape: Tape, pos: nat, cfg: Config) returns (i: nat, k: nat)
    requires InvAt(s, now, cfg) && Fresh(s, now) && Advise(s, id, now, cfg) == Ok(Some(DoRecall))
    ensures var s' := Apply(s, RecallObserver(id, false), now, tape, pos, cfg).state;
            && i < |s'.observers| && k < |s'.portals| && s'.portals[k].id == id
            && s'.observers[i].status == Returning && s'.observers[i].startedAt == Some(now)
            && Protected(s', i, k, s'.observers[i])
  {
    RecallAdviceSucceeds(s, id, now, tape, pos, cfg);
    TransitSecondsInRange(tape, pos, cfg);
    AdvisedPortalOutlives(s, id, now, TransitSeconds(tape, pos, cfg), cfg);
    k := Target(s, id).value.0;
    RecallAdmission(s.portals[k], s.observers, now, false, tape, pos, cfg);
    i := LongestWaiting(s.observers, s.portals[k].plane).value.value;
  }

  // ---------------------------------------------------------------- commands spare it

  predicate Closes(c: Command, portalID: int) {
    c.ClosePortal? && c.portalID == portalID
  }

  /** What a command leaves of a portal and an observer it is not about. */
  ghost predicate Spared(s: State, s': State, i: nat, k: nat) {
    && i < |s.observers| && i < |s'.observers| && s'.observers[i] == s.observers[i]
    && k < |s.portals| && k < |s'.portals| && s'.portals[k] == s.portals[k]
  }

  lemma StabilizeSpares(s: State, id: int, i: nat, k: nat, now: Time, tape: Tape, pos: nat, cfg: Config)
    requires i < |s.observers| && k < |s.portals| && s.portals[k].stability == Stable
    ensures Spared(s, Apply(s, Stabilize(id), now, tape, pos, cfg).state, i, k)
  {
  }

  lemma CloseSpares(s: State, id: int, confirm: bool, i: nat, k: nat, now: Time, tape: Tape, pos: nat, cfg: Config)
    requires InvAt(s, now, cfg) && i < |s.observers| && k < |s.portals|
    requires s.portals[k].id != id && !OnPortal(s.observers[i], id)
    ensures Spared(s, Apply(s, ClosePortal(id, confirm), now, tape, pos, cfg).state, i, k)
  {
    var out := Apply(s, ClosePortal(id, confirm), now, tape, pos, cfg);
    if out.error.None? {
      var c := Target(s, id).value.0;
      CloseLosesExactlyTheTraveller(s, c, s.portals[c].Close(now, confirm, cfg).value, now, cfg);
    }
  }

  lemma SendSpares(s: State, id: int, confirm: bool, i: nat, k: nat, now: Time, tape: Tape, pos: nat, cfg: Config)
    requires i < |s.observers| && k < |s.portals| && OnPortal(s.observers[i], s.portals[k].id)
    ensures Spared(s, Apply(s, SendObserver(id, confirm), now, tape, pos, cfg).state, i, k)
  {
  }

  lemma RecallSpares(s: State, id: int, confirm: bool, i: nat, k: nat, now: Time, tape: Tape, pos: nat, cfg: Config)
    requires i < |s.observers| && k < |s.portals| && OnPortal(s.observers[i], s.portals[k].id)
    ensures Spared(s, Apply(s, RecallObserver(id, confirm), now, tape, pos, cfg).state, i, k)
  {
    if Apply(s, RecallObserver(id, confirm), now, tape, pos, cfg).error.None? {
      RecallAdmission(s.portals[Target(s, id).value.0], s.observers, now, confirm, tape, pos, cfg);
    }
  }

  /** Only closing its own portal touches a protected transit. */
  lemma CommandsSpareIt(s: State, c: Command, i: nat, k: nat, o: Observer, now: Time, tape: Tape, pos: nat, cfg: Config)
    requires InvAt(s, now, cfg) && Protected(s, i, k, o) && !Closes(c, s.portals[k].id)
    ensures Protected(Apply(s, c, now, tape, pos, cfg).state, i, k, o)
    ensures Apply(s, c, now, tape, pos, cfg).state.portals[k] == s.portals[k]
  {
    match c
    case Stabilize(id) => StabilizeSpares(s, id, i, k, now, tape, pos, cfg);
    case ClosePortal(id, confirm) => CloseSpares(s, id, confirm, i, k, now, tape, pos, cfg);
    case SendObserver(id, confirm) => SendSpares(s, id, confirm, i, k, now, tape, pos, cfg);
    case RecallObserver(id, confirm) => RecallSpares(s, id, confirm, i, k, now, tape, pos, cfg);
    case OpenExtraction(_) =>
  }

  // ---------------------------------------------------------------- ticks spare it or deliver it

  lemma {:induction false} SynchronizeAllSpares(ps: seq<Portal>, os: seq<Observer>, order: seq<nat>, i: nat, k: nat, now: Time, tape: Tape, pos: nat, cfg: Config)
    requires forall x :: x in order ==> x < |ps|
    requires i < |os| && os[i].InTransit() && k < |ps| && (ps[k].kind == Extraction ==> ps[k].syncedAt.Some?)
    ensures var r := SynchronizeAll(ps, os, order, now, tape, pos, cfg);
            r.Ok? ==> r.value.portals[k] == ps[k] && r.value.observers[i] == os[i]
    decreases |order|
  {
    if |order| > 0 {
      assert order[0] in order && forall x :: x in order[1..] ==> x in order;
      var first := Synchronize(ps[order[0]], os, now, tape, pos, cfg);
      if first.Ok? {
        assert first.value.observers[i] == os[i];
        assert order[0] == k ==> first.value.portal == ps[k];
        SynchronizeAllSpares(ps[order[0] := first.value.portal], first.value.observers, order[1..], i, k, now, tape, first.value.pos, cfg);
      }
    }
  }

  lemma StagesSpare(mid: State, i: nat, k: nat, now: Time, tape: Tape, pos: nat, cfg: Config)
    requires |mid.planes| > 0 && i < |mid.observers| && mid.observers[i].InTransit()
    requires k < |mid.portals| && (mid.portals[k].kind == Extraction ==> mid.portals[k].syncedAt.Some?)
    ensures var r := SynchronizeAll(mid.portals, mid.observers, ExtractionOrder(mid.portals), now, tape, pos, cfg);
            r.Ok? ==>
              var spawned := NaturalSpawn(mid.(portals := r.value.portals, observers := r.value.observers), now, tape, r.value.pos, cfg);
              spawned.Ok? ==> Spared(mid, spawned.value.state, i, k)
  {
    SynchronizeAllSpares(mid.portals, mid.observers, ExtractionOrder(mid.portals), i, k, now, tape, pos, cfg);
  }

  lemma MidTickSpares(s: State, i: nat, k: nat, o: Observer, now: Time, cfg: Config)
    requires Protected(s, i, k, o) && now < o.endsAt.value && DistinctPortalIds(s.portals)
    ensures Spared(s, MidTick(s, now, cfg), i, k)
  {
    FindBySameIds(s.portals, PortalsAfter(s.portals, now), s.portals[k].id);
    FoundAt(s.portals, k);
  }

  /** Before its deadline a tick leaves a protected transit as it is. */
  lemma TickSparesIt(s: State, i: nat, k: nat, o: Observer, now: Time, tape: Tape, pos: nat, cfg: Config)
    requires Inv(s, cfg) && Protected(s, i, k, o) && now < o.endsAt.value
    requires Tick(s, now, tape, pos, cfg).Ok?
    ensures Protected(Tick(s, now, tape, pos, cfg).value.state, i, k, o)
    ensures Tick(s, now, tape, pos, cfg).value.state.portals[k] == s.portals[k]
  {
    if s.lastTickAt != Some(now) {
      MidTickSpares(s, i, k, o, now, cfg);
      TravelsSynced(s, i, k, o, cfg);
      StagesSpare(MidTick(s, now, cfg), i, k, now, tape, pos, cfg);
    }
  }

  lemma TravelsSynced(s: State, i: nat, k: nat, o: Observer, cfg: Config)
    requires Inv(s, cfg) && Protected(s, i, k, o)
    ensures s.portals[k].kind == Extraction ==> s.portals[k].syncedAt.Some?
  {
    assert TransitOpen(s.observers[i], s.portals);
    FoundAt(s.portals, k);
  }

  /** The transit has completed: arrived in the plane at its deadline, or home at its deadline. */
  predicate Delivered(o: Observer, planeID: int, o': Observer)
    requires o.endsAt.Some?
  {
    if o.status == Outbound then
      && o'.id == o.id && o'.plane == Some(planeID)
      && (o'.status == Exploring || o'.status == WaitingReturn || o'.status == Returning)
      && (o'.status == Exploring ==> o'.startedAt == o.endsAt)
    else o' == o.ComeHome(o.endsAt.value)
  }

  lemma AdvanceDelivers(o: Observer, p: Portal, now: Time, cfg: Config)
    requires o.InTransit() && o.endsAt.Some? && o.endsAt.value <= now
    requires p.status == Open && o.endsAt.value < p.Deadline()
    ensures Delivered(o, p.plane, Advance(o, Some(p.ResolveLifecycle(now)), now, cfg))
  {
  }

  /** At or after its deadline the first tick delivers a protected transit, however late it comes. */
  lemma TickDeliversIt(s: State, i: nat, k: nat, o: Observer, now: Time, tape: Tape, pos: nat, cfg: Config)
    requires Inv(s, cfg) && Protected(s, i, k, o) && o.endsAt.value <= now
    requires Tick(s, now, tape, pos, cfg).Ok? && s.lastTickAt != Some(now)
    ensures var s' := Tick(s, now, tape, pos, cfg).value.state;
            i < |s'.observers| && Delivered(o, s.portals[k].plane, s'.observers[i])
  {
    TickOnObserver(s, now, tape, pos, cfg, i);
    var qs := PortalsAfter(s.portals, now);
    FindBySameIds(s.portals, qs, s.portals[k].id);
    FoundAt(s.portals, k);
    assert PortalOf(o, qs) == Some(s.portals[k].ResolveLifecycle(now));
    AdvanceDelivers(o, s.portals[k], now, cfg);
  }

  // ---------------------------------------------------------------- whole runs

  predicate NeverCloses(actions: seq<Action>, portalID: int) {
    forall n :: 0 <= n < |actions| && actions[n].CommandAt? ==> !Closes(actions[n].command, portalID)
  }

  /** The call at `now` completes the transit: the tick it starts with delivers it. */
  predicate CompletedBy(at: Position, i: nat, planeID: int, o: Observer, now: Time, tape: Tape, cfg: Config)
    requires o.endsAt.Some?
  {
    var resolved := Resolve(at, now, tape, cfg);
    && resolved.Some? && o.endsAt.value <= now
    && i < |resolved.value.state.observers| && Delivered(o, planeID, resolved.value.state.observers[i])
  }

  /** The transit is under way in portal `id` to plane `planeID`, protected, and not yet due. */
  predicate UnderWay(s: State, i: nat, k: nat, o: Observer, id: int, planeID: int) {
    && Protected(s, i, k, o) && Clock(s) < o.endsAt.value
    && s.portals[k].id == id && s.portals[k].plane == planeID
  }

  lemma PerformOnProtected(at: Position, a: Action, i: nat, k: nat, o: Observer, id: int, planeID: int, tape: Tape, cfg: Config)
    requires Inv(at.state, cfg) && UnderWay(at.state, i, k, o, id, planeID)
    requires a.CommandAt? ==> !Closes(a.command, id)
    ensures CompletedBy(at, i, planeID, o, a.now, tape, cfg) || UnderWay(Perform(at, a, tape, cfg).state, i, k, o, id, planeID)
  {
    if Resolve(at, a.now, tape, cfg).Some? {
      if a.now < Clock(at.state) {
        StaleTicksFail(at.state, a.now, tape, at.pos, cfg);
      } else if a.now < o.endsAt.value {
        TickSparesIt(at.state, i, k, o, a.now, tape, at.pos, cfg);
        TickKeepsInvariant(at.state, a.now, tape, at.pos, cfg);
        var resolved := Resolve(at, a.now, tape, cfg).value;
        if a.CommandAt? {
          CommandsSpareIt(resolved.state, a.command, i, k, o, a.now, tape, resolved.pos, cfg);
        }
        PerformKeepsInvariant(at, a, tape, cfg);
      } else {
        TickDeliversIt(at.state, i, k, o, a.now, tape, at.pos, cfg);
      }
    }
  }

  lemma NextUnderWay(at: Position, actions: seq<Action>, i: nat, k: nat, o: Observer, id: int, planeID: int, tape: Tape, cfg: Config)
    requires Inv(at.state, cfg) && |actions| > 0 && NeverCloses(actions, id)
    requires UnderWay(Run(at, actions[..|actions| - 1], tape, cfg).state, i, k, o, id, planeID)
    ensures CompletedBy(Run(at, actions[..|actions| - 1], tape, cfg), i, planeID, o, actions[|actions| - 1].now, tape, cfg)
            || UnderWay(Run(at, actions, tape, cfg).state, i, k, o, id, planeID)
  {
    var init := actions[..|actions| - 1];
    RunKeepsInvariant(at, init, tape, cfg);
    PerformOnProtected(Run(at, init, tape, cfg), actions[|actions| - 1], i, k, o, id, planeID, tape, cfg);
  }

  /** After `n` of the actions the transit is under way, and if any action is left, the next one completes it. */
  predicate UnderWayUntil(at: Position, actions: seq<Action>, n: nat, i: nat, k: nat, o: Observer, id: int, planeID: int, tape: Tape, cfg: Config)
  {
    && n <= |actions| && UnderWay(Run(at, actions[..n], tape, cfg).state, i, k, o, id, planeID)
    && (n < |actions| ==> CompletedBy(Run(at, actions[..n], tape, cfg), i, planeID, o, actions[n].now, tape, cfg))
  }

  /** A transit completed within a run is completed within every longer one. */
  lemma CompletedEarlier(at: Position, actions: seq<Action>, n: nat, i: nat, k: nat, o: Observer, id: int, planeID: int, tape: Tape, cfg: Config)
    requires |actions| > 0 && n < |actions| - 1
    requires UnderWayUntil(at, actions[..|actions| - 1], n, i, k, o, id, planeID, tape, cfg)
    ensures UnderWayUntil(at, actions, n, i, k, o, id, planeID, tape, cfg)
  {
    assert actions[..|actions| - 1][..n] == actions[..n];
  }

  /** A transit under way until now is completed by the last action, or still under way after it. */
  lemma LastAction(at: Position, actions: seq<Action>, i: nat, k: nat, o: Observer, id: int, planeID: int, tape: Tape, cfg: Config) returns (n: nat)
    requires Inv(at.state, cfg) && |actions| > 0 && NeverCloses(actions, id)
    requires UnderWayUntil(at, actions[..|actions| - 1], |actions| - 1, i, k, o, id, planeID, tape, cfg)
    ensures UnderWayUntil(at, actions, n, i, k, o, id, planeID, tape, cfg)
  {
    var init := actions[..|actions| - 1];
    assert init[..|init|] == init && actions[..|init|] == init && actions[..|actions|] == actions;
    NextUnderWay(at, actions, i, k, o, id, planeID, tape, cfg);
    n := if CompletedBy(Run(at, init, tape, cfg), i, planeID, o, actions[|init|].now, tape, cfg) then |init| else |actions|;
  }

  /** In every run without a close of its portal a protected transit is still under way, its record
      untouched, unless some call `n` found it under way and completed it. In particular nobody is lost. */
  lemma {:induction false} ProtectedTransitsComplete(at: Position, actions: seq<Action>, i: nat, k: nat, o: Observer, id: int, planeID: int, tape: Tape, cfg: Config)
    returns (n: nat)
    requires Inv(at.state, cfg) && UnderWay(at.state, i, k, o, id, planeID) && NeverCloses(actions, id)
    ensures UnderWayUntil(at, actions, n, i, k, o, id, planeID, tape, cfg)
  {
    n := 0;
    if |actions| > 0 {
      n := ProtectedTransitsComplete(at, actions[..|actions| - 1], i, k, o, id, planeID, tape, cfg);
      if n < |actions| - 1 {
        CompletedEarlier(at, actions, n, i, k, o, id, planeID, tape, cfg);
      } else {
        n := LastAction(at, actions, i, k, o, id, planeID, tape, cfg);
      }
    }
  }

  /** The command that follows a SEND or RECALL recommendation, without confirmation. */
  function Followed(advice: Recommendation, id: int): Command
    requires advice == DoSend || advice == DoRecall
  {
    if advice == DoSend then SendObserver(id, false) else RecallObserver(id, false)
  }

  lemma FollowingStartsUnderWay(s: State, advice: Recommendation, id: int, now: Time, tape: Tape, pos: nat, cfg: Config)
    returns (i: nat, k: nat)
    requires InvAt(s, now, cfg) && Fresh(s, now) && s.lastTickAt == Some(now)
    requires advice == DoSend || advice == DoRecall
    requires Advise(s, id, now, cfg) == Ok(Some(advice))
    ensures var out := Apply(s, Followed(advice, id), now, tape, pos, cfg);
            && out.error.None? && Inv(out.state, cfg)
            && i < |out.state.observers| && k < |out.state.portals|
            && out.state.observers[i].startedAt == Some(now)
            && UnderWay(out.state, i, k, out.state.observers[i], id, out.state.portals[k].plane)
  {
    CommandKeepsInvariant(s, Followed(advice, id), now, tape, pos, cfg);
    if advice == DoSend {
      SendAdviceSucceeds(s, id, now, tape, pos, cfg);
      i, k := AdvisedSendIsProtected(s, id, now, tape, pos, cfg);
    } else {
      RecallAdviceSucceeds(s, id, now, tape, pos, cfg);
      i, k := AdvisedRecallIsProtected(s, id, now, tape, pos, cfg);
    }
    var s' := Apply(s, Followed(advice, id), now, tape, pos, cfg).state;
    assert ObserverInv(s'.observers[i], s'.planes, s'.portals, now);
  }

  /** Advised to SEND or RECALL, the unconfirmed command succeeds for every draw, and in every later run in
      which nobody closes that portal the transit it starts is completed by the first call that finds it due. */
  lemma FollowingAdviceIsSafe(s: State, advice: Recommendation, id: int, now: Time, actions: seq<Action>, tape: Tape, pos: nat, cfg: Config)
    returns (i: nat, k: nat, n: nat)
    requires InvAt(s, now, cfg) && Fresh(s, now) && s.lastTickAt == Some(now)
    requires advice == DoSend || advice == DoRecall
    requires Advise(s, id, now, cfg) == Ok(Some(advice)) && NeverCloses(actions, id)
    ensures var out := Apply(s, Followed(advice, id), now, tape, pos, cfg);
            var start := Position(out.state, out.pos);
            && out.error.None? && i < |out.state.observers| && k < |out.state.portals|
            && out.state.observers[i].endsAt.Some?
            && UnderWayUntil(start, actions, n, i, k, out.state.observers[i], id, out.state.portals[k].plane, tape, cfg)
  {
    i, k := FollowingStartsUnderWay(s, advice, id, now, tape, pos, cfg);
    var out := Apply(s, Followed(advice, id), now, tape, pos, cfg);
    n := ProtectedTransitsComplete(Position(out.state, out.pos), actions, i, k, out.state.observers[i], id, out.state.portals[k].plane, tape, cfg);
  }
}

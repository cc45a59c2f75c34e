/** The registry of laboratory runtimes as a transition system: loads, leases, ticks, deletions and the final
    close interleave in any order, each step holding the registry's lock only while it changes the tables. */
module Registries {
  import opened Base

  type LabID = int
  type RuntimeID = nat
  type EntryID = nat
  type LeaseID = nat
  type JobID = nat

  /** One laboratory's slot. A busy entry is being loaded or deleted; nobody may touch it meanwhile. */
  datatype Entry = Entry(lab: LabID, runtime: Option<RuntimeID>, refs: nat, busy: bool)

  /** Work in progress outside the lock. A deletion remembers whether its callback is still running. */
  datatype Job =
    | Loading(entry: EntryID)
    | Deleting(entry: EntryID, running: bool, removed: bool)
    | Ticking(leases: set<LeaseID>)

  datatype Closing = Accepting | Rejecting | Closed

  datatype Registry = Registry(
    entries: map<LabID, EntryID>,
    objects: seq<Entry>,
    leases: map<LeaseID, EntryID>,
    jobs: map<JobID, Job>,
    runtimes: nat,
    closedHubs: set<RuntimeID>,
    phase: Closing)

  datatype Event =
    | Acquire(lab: LabID, lease: LeaseID)
    | BeginLoad(lab: LabID, job: JobID)
    | LoadDone(job: JobID, ok: bool, lease: LeaseID)
    | Release(lease: LeaseID)
    | BeginTick(job: JobID, leases: map<LeaseID, EntryID>)
    | EndTick(job: JobID)
    | BeginDelete(lab: LabID, job: JobID)
    | CallbackDone(job: JobID, ok: bool)
    | EndDelete(job: JobID)
    | BeginClose
    | EndClose

  const EMPTY := Registry(map[], [], map[], map[], 0, {}, Accepting)

  // ---------------------------------------------------------------- the steps

  /** The entry is at rest and holds a runtime. */
  predicate Ready(r: Registry, e: EntryID) {
    e < |r.objects| && !r.objects[e].busy && r.objects[e].runtime.Some?
  }

  function AddLease(r: Registry, l: LeaseID, e: EntryID): Registry
    requires e < |r.objects|
  {
    r.(leases := r.leases[l := e], objects := r.objects[e := r.objects[e].(refs := r.objects[e].refs + 1)])
  }

  function DropLease(r: Registry, l: LeaseID): Registry
    requires l in r.leases && r.leases[l] < |r.objects| && r.objects[r.leases[l]].refs > 0
  {
    var e := r.leases[l];
    r.(leases := r.leases - {l}, objects := r.objects[e := r.objects[e].(refs := r.objects[e].refs - 1)])
  }

  function DropJob(r: Registry, j: JobID): Registry {
    r.(jobs := r.jobs - {j})
  }

  /** One step; a step that is not enabled changes nothing. */
  function Next(r: Registry, ev: Event): Registry {
    match ev
    case Acquire(lab, l) =>
      if r.phase.Accepting? && lab in r.entries && Ready(r, r.entries[lab]) && l !in r.leases
      then AddLease(r, l, r.entries[lab]) else r
    case BeginLoad(lab, j) =>
      if r.phase.Accepting? && j !in r.jobs
         && (lab in r.entries ==> r.entries[lab] < |r.objects| && !r.objects[r.entries[lab]].busy && r.objects[r.entries[lab]].runtime.None?)
      then r.(objects := r.objects + [Entry(lab, None, 0, true)], entries := r.entries[lab := |r.objects|],
              jobs := r.jobs[j := Loading(|r.objects|)])
      else r
    case LoadDone(j, ok, l) =>
      if j !in r.jobs || !r.jobs[j].Loading? || r.jobs[j].entry >= |r.objects| || l in r.leases then r
      else
        var e := r.jobs[j].entry;
        var lab := r.objects[e].lab;
        if !ok then DropJob(r.(objects := r.objects[e := r.objects[e].(busy := false)], entries := r.entries - {lab}), j)
        else
          var loaded := DropJob(r.(objects := r.objects[e := r.objects[e].(busy := false, runtime := Some(r.runtimes))], runtimes := r.runtimes + 1), j);
          if r.phase.Accepting? then AddLease(loaded, l, e) else loaded
    case Release(l) =>
      if l in r.leases && r.leases[l] < |r.objects| && r.objects[r.leases[l]].refs > 0 then DropLease(r, l) else r
    case BeginTick(j, ls) =>
      if r.phase.Accepting? && j !in r.jobs && TickLeases(r, ls)
      then TickAll(r.(jobs := r.jobs[j := Ticking(ls.Keys)]), ls) else r
    case EndTick(j) =>
      if j in r.jobs && r.jobs[j].Ticking? && r.jobs[j].leases !! r.leases.Keys then DropJob(r, j) else r
    case BeginDelete(lab, j) =>
      if !r.phase.Accepting? || j in r.jobs then r
      else if lab !in r.entries then
        r.(objects := r.objects + [Entry(lab, None, 0, true)], entries := r.entries[lab := |r.objects|],
           jobs := r.jobs[j := Deleting(|r.objects|, true, false)])
      else
        var e := r.entries[lab];
        if e >= |r.objects| || r.objects[e].refs > 0 || r.objects[e].busy then r
        else r.(objects := r.objects[e := r.objects[e].(busy := true)], jobs := r.jobs[j := Deleting(e, true, false)])
    case CallbackDone(j, ok) =>
      if j !in r.jobs || !r.jobs[j].Deleting? || !r.jobs[j].running || r.jobs[j].entry >= |r.objects| then r
      else
        var e := r.jobs[j].entry;
        var hubs := if ok && r.objects[e].runtime.Some? then {r.objects[e].runtime.value} else {};
        r.(jobs := r.jobs[j := Deleting(e, false, ok)], closedHubs := r.closedHubs + hubs)
    case EndDelete(j) =>
      if j !in r.jobs || !r.jobs[j].Deleting? || r.jobs[j].running || r.jobs[j].entry >= |r.objects| then r
      else
        var e := r.jobs[j].entry;
        var kept := r.(objects := r.objects[e := r.objects[e].(busy := false)]);
        DropJob(if r.jobs[j].removed then kept.(entries := r.entries - {r.objects[e].lab}) else kept, j)
    case BeginClose =>
      if r.phase.Accepting? then r.(phase := Rejecting) else r
    case EndClose =>
      if r.phase.Rejecting? && r.jobs == map[]
      then r.(phase := Closed,
              closedHubs := r.closedHubs + set lab | lab in r.entries && Ready(r, r.entries[lab]) :: r.objects[r.entries[lab]].runtime.value)
      else r
  }

  /** A tick leases every ready entry once, under fresh leases. */
  predicate TickLeases(r: Registry, ls: map<LeaseID, EntryID>) {
    && ls.Keys !! r.leases.Keys
    && (forall l :: l in ls ==> Ready(r, ls[l]) && r.objects[ls[l]].lab in r.entries && r.entries[r.objects[ls[l]].lab] == ls[l])
    && (forall l, m :: l in ls && m in ls && l != m ==> ls[l] != ls[m])
    && (forall lab :: lab in r.entries && Ready(r, r.entries[lab]) ==> r.entries[lab] in ls.Values)
  }

  function TickAll(r: Registry, ls: map<LeaseID, EntryID>): Registry {
    r.(leases := r.leases + ls,
       objects := seq(|r.objects|, e requires 0 <= e < |r.objects| =>
                        if e in ls.Values then r.objects[e].(refs := r.objects[e].refs + 1) else r.objects[e]))
  }

  function Run(r: Registry, events: seq<Event>): Registry {
    if |events| == 0 then r else Next(Run(r, events[..|events| - 1]), events[|events| - 1])
  }

  // ---------------------------------------------------------------- the invariant

  ghost function LeasesOf(r: Registry, e: EntryID): set<LeaseID> {
    set l | l in r.leases && r.leases[l] == e
  }

  predicate Works(job: Job, e: EntryID) {
    (job.Loading? || job.Deleting?) && job.entry == e
  }

  ghost predicate Worked(r: Registry, e: EntryID) {
    exists j :: j in r.jobs && Works(r.jobs[j], e)
  }

  /** What is known of one entry: its references are its leases, a busy one belongs to a job and has none. */
  ghost predicate EntryInv(r: Registry, e: EntryID)
    requires e < |r.objects|
  {
    var o := r.objects[e];
    && o.refs == |LeasesOf(r, e)|
    && (o.refs > 0 ==> !o.busy && o.runtime.Some?)
    && (o.busy ==> Worked(r, e))
    && (o.refs > 0 || o.busy ==> o.lab in r.entries && r.entries[o.lab] == e)
    && (o.runtime.Some? ==> o.runtime.value < r.runtimes)
    && (o.runtime.Some? ==> o.runtime.value in r.closedHubs || (o.lab in r.entries && r.entries[o.lab] == e))
  }

  ghost predicate JobInv(r: Registry, j: JobID)
    requires j in r.jobs
  {
    match r.jobs[j]
    case Loading(e) => e < |r.objects| && r.objects[e].busy && r.objects[e].runtime.None?
    case Deleting(e, running, removed) =>
      && e < |r.objects| && r.objects[e].busy
      && (removed && r.objects[e].runtime.Some? ==> r.objects[e].runtime.value in r.closedHubs)
    case Ticking(_) => true
  }

  /** No two jobs work on one entry. */
  ghost predicate OneJobEach(r: Registry) {
    forall i, j, e :: i in r.jobs && j in r.jobs && Works(r.jobs[i], e) && Works(r.jobs[j], e) ==> i == j
  }

  ghost predicate AllHubsClosed(r: Registry) {
    forall e :: 0 <= e < |r.objects| && r.objects[e].runtime.Some? ==> r.objects[e].runtime.value in r.closedHubs
  }

  ghost predicate RegistryInv(r: Registry) {
    && (forall lab :: lab in r.entries ==> r.entries[lab] < |r.objects| && r.objects[r.entries[lab]].lab == lab)
    && (forall l :: l in r.leases ==> r.leases[l] < |r.objects|)
    && (forall e :: 0 <= e < |r.objects| ==> EntryInv(r, e))
    && (forall j :: j in r.jobs ==> JobInv(r, j))
    && OneJobEach(r)
    && (r.phase.Closed? ==> r.jobs == map[] && AllHubsClosed(r))
  }

  // ---------------------------------------------------------------- every step keeps it

  lemma StillWorked(r: Registry, r': Registry, e: EntryID)
    requires Worked(r, e)
    requires forall j :: j in r.jobs && Works(r.jobs[j], e) ==> j in r'.jobs && Works(r'.jobs[j], e)
    ensures Worked(r', e)
  {
  }

  lemma SameLeases(r: Registry, r': Registry, e: EntryID)
    requires r'.leases == r.leases
    ensures LeasesOf(r', e) == LeasesOf(r, e)
  {
  }

  lemma LeaseAdded(r: Registry, l: LeaseID, e: EntryID)
    requires e < |r.objects| && l !in r.leases
    ensures LeasesOf(AddLease(r, l, e), e) == LeasesOf(r, e) + {l} && l !in LeasesOf(r, e)
    ensures forall k :: k != e ==> LeasesOf(AddLease(r, l, e), k) == LeasesOf(r, k)
  {
  }

  lemma AddLeaseKeeps(r: Registry, l: LeaseID, e: EntryID)
    requires RegistryInv(r) && l !in r.leases && Ready(r, e) && !r.phase.Closed?
    requires r.objects[e].lab in r.entries && r.entries[r.objects[e].lab] == e
    ensures RegistryInv(AddLease(r, l, e))
  {
    var r' := AddLease(r, l, e);
    LeaseAdded(r, l, e);
    forall k | 0 <= k < |r'.objects| ensures EntryInv(r', k) {
      assert EntryInv(r, k);
      if r.objects[k].busy {
        StillWorked(r, r', k);
      }
    }
    forall j | j in r'.jobs ensures JobInv(r', j) {
      assert JobInv(r, j);
    }
  }

  lemma ReleaseKeeps(r: Registry, l: LeaseID)
    requires RegistryInv(r)
    ensures RegistryInv(Next(r, Release(l)))
  {
    var r' := Next(r, Release(l));
    if r' != r {
      var e := r.leases[l];
      assert LeasesOf(r', e) == LeasesOf(r, e) - {l} && l in LeasesOf(r, e);
      forall k | 0 <= k < |r'.objects| ensures EntryInv(r', k) {
        assert EntryInv(r, k);
        assert k != e ==> LeasesOf(r', k) == LeasesOf(r, k);
        if r.objects[k].busy {
          StillWorked(r, r', k);
        }
      }
      forall j | j in r'.jobs ensures JobInv(r', j) {
        assert JobInv(r, j);
      }
    }
  }

  /** Work starts on an entry nobody works on and nobody leases. */
  lemma StartKeeps(r: Registry, r': Registry, j: JobID, e: EntryID, job: Job)
    requires RegistryInv(r) && r.phase.Accepting? && j !in r.jobs && e < |r.objects| && !r.objects[e].busy && r.objects[e].refs == 0
    requires r.objects[e].lab in r.entries && r.entries[r.objects[e].lab] == e
    requires job == Deleting(e, true, false)
    requires r' == r.(objects := r.objects[e := r.objects[e].(busy := true)], jobs := r.jobs[j := job])
    ensures RegistryInv(r')
  {
    forall k | 0 <= k < |r'.objects| ensures EntryInv(r', k) {
      assert EntryInv(r, k);
      SameLeases(r, r', k);
      if k == e {
        assert j in r'.jobs && Works(r'.jobs[j], e);
      } else if r.objects[k].busy {
        StillWorked(r, r', k);
      }
    }
    forall i | i in r'.jobs ensures JobInv(r', i) {
      assert i != j ==> JobInv(r, i);
    }
    forall i, k, x | i in r'.jobs && k in r'.jobs && Works(r'.jobs[i], x) && Works(r'.jobs[k], x) ensures i == k {
      assert i != j ==> JobInv(r, i);
      assert k != j ==> JobInv(r, k);
    }
  }

  /** A fresh entry takes over a slot that holds no runtime. */
  lemma NewEntryKeeps(r: Registry, r': Registry, lab: LabID, j: JobID, job: Job)
    requires RegistryInv(r) && r.phase.Accepting? && j !in r.jobs
    requires lab in r.entries ==> !r.objects[r.entries[lab]].busy && r.objects[r.entries[lab]].runtime.None?
    requires job == Loading(|r.objects|) || job == Deleting(|r.objects|, true, false)
    requires r' == r.(objects := r.objects + [Entry(lab, None, 0, true)], entries := r.entries[lab := |r.objects|], jobs := r.jobs[j := job])
    ensures RegistryInv(r')
  {
    var n := |r.objects|;
    forall l | l in r.leases ensures r.leases[l] != n {
      assert r.leases[l] < n;
    }
    forall k | 0 <= k < |r'.objects| ensures EntryInv(r', k) {
      SameLeases(r, r', k);
      if k < n {
        assert EntryInv(r, k);
        if r.objects[k].busy {
          StillWorked(r, r', k);
        }
      } else {
        assert LeasesOf(r', n) == {};
        assert j in r'.jobs && Works(r'.jobs[j], n);
      }
    }
    forall i | i in r'.jobs ensures JobInv(r', i) {
      assert i != j ==> JobInv(r, i);
    }
    forall i, k, x | i in r'.jobs && k in r'.jobs && Works(r'.jobs[i], x) && Works(r'.jobs[k], x) ensures i == k {
      assert i != j ==> JobInv(r, i);
      assert k != j ==> JobInv(r, k);
    }
  }

  lemma BeginDeleteKeeps(r: Registry, lab: LabID, j: JobID)
    requires RegistryInv(r)
    ensures RegistryInv(Next(r, BeginDelete(lab, j)))
  {
    var r' := Next(r, BeginDelete(lab, j));
    if r' != r {
      if lab in r.entries {
        StartKeeps(r, r', j, r.entries[lab], Deleting(r.entries[lab], true, false));
      } else {
        NewEntryKeeps(r, r', lab, j, Deleting(|r.objects|, true, false));
      }
    }
  }

  /** Work on an entry ends: it comes to rest, keeping its slot or losing it together with its runtime. */
  lemma EndKeeps(r: Registry, r': Registry, j: JobID, e: EntryID, o: Entry, evict: bool)
    requires RegistryInv(r) && j in r.jobs && Works(r.jobs[j], e) && e < |r.objects|
    requires o.lab == r.objects[e].lab && o.refs == 0 && !o.busy
    requires o.runtime.Some? ==> o.runtime.value < r'.runtimes
    requires evict && o.runtime.Some? ==> o.runtime.value in r.closedHubs
    requires r.runtimes <= r'.runtimes
    requires r' == r.(objects := r.objects[e := o], runtimes := r'.runtimes, jobs := r.jobs - {j},
                      entries := if evict then r.entries - {o.lab} else r.entries)
    ensures RegistryInv(r') && (!evict ==> o.lab in r'.entries && r'.entries[o.lab] == e)
  {
    assert JobInv(r, j) && EntryInv(r, e);
    assert r.objects[e].busy && r.entries[o.lab] == e;
    forall k | 0 <= k < |r'.objects| ensures EntryInv(r', k) {
      assert EntryInv(r, k);
      SameLeases(r, r', k);
      if k != e && r.objects[k].busy {
        assert !Works(r.jobs[j], k);
        StillWorked(r, r', k);
      }
    }
    forall i | i in r'.jobs ensures JobInv(r', i) {
      assert JobInv(r, i);
      assert Works(r.jobs[i], e) ==> i == j;
    }
    assert forall lab :: lab in r'.entries ==> r'.entries[lab] == r.entries[lab];
  }

  lemma LoadDoneKeeps(r: Registry, j: JobID, ok: bool, l: LeaseID)
    requires RegistryInv(r)
    ensures RegistryInv(Next(r, LoadDone(j, ok, l)))
  {
    var r' := Next(r, LoadDone(j, ok, l));
    if r' != r {
      var e := r.jobs[j].entry;
      assert JobInv(r, j) && EntryInv(r, e);
      var o := r.objects[e];
      if !ok {
        EndKeeps(r, r', j, e, o.(busy := false), true);
      } else {
        var loaded := DropJob(r.(objects := r.objects[e := o.(busy := false, runtime := Some(r.runtimes))], runtimes := r.runtimes + 1), j);
        EndKeeps(r, loaded, j, e, o.(busy := false, runtime := Some(r.runtimes)), false);
        if r.phase.Accepting? {
          AddLeaseKeeps(loaded, l, e);
        }
      }
    }
  }

  lemma EndDeleteKeeps(r: Registry, j: JobID)
    requires RegistryInv(r)
    ensures RegistryInv(Next(r, EndDelete(j)))
  {
    var r' := Next(r, EndDelete(j));
    if r' != r {
      var e := r.jobs[j].entry;
      assert JobInv(r, j) && EntryInv(r, e);
      EndKeeps(r, r', j, e, r.objects[e].(busy := false), r.jobs[j].removed);
    }
  }

  lemma CallbackKeeps(r: Registry, j: JobID, ok: bool)
    requires RegistryInv(r)
    ensures RegistryInv(Next(r, CallbackDone(j, ok)))
  {
    var r' := Next(r, CallbackDone(j, ok));
    if r' != r {
      assert JobInv(r, j);
      forall k | 0 <= k < |r'.objects| ensures EntryInv(r', k) {
        assert EntryInv(r, k);
        SameLeases(r, r', k);
        if r.objects[k].busy {
          StillWorked(r, r', k);
        }
      }
      forall i | i in r'.jobs ensures JobInv(r', i) {
        assert JobInv(r, i);
      }
      forall i, k, x | i in r'.jobs && k in r'.jobs && Works(r'.jobs[i], x) && Works(r'.jobs[k], x) ensures i == k {
        assert Works(r.jobs[i], x) && Works(r.jobs[k], x);
      }
    }
  }

  lemma TickedLeases(r: Registry, ls: map<LeaseID, EntryID>, e: EntryID)
    requires TickLeases(r, ls) && e < |r.objects|
    ensures |LeasesOf(TickAll(r, ls), e)| == |LeasesOf(r, e)| + if e in ls.Values then 1 else 0
  {
    var r' := TickAll(r, ls);
    if e in ls.Values {
      var l :| l in ls && ls[l] == e;
      forall m ensures m in LeasesOf(r', e) <==> m in LeasesOf(r, e) + {l} {
        if m in ls && ls[m] == e {
          assert m == l;
        }
      }
      assert LeasesOf(r', e) == LeasesOf(r, e) + {l};
    } else {
      forall m ensures m in LeasesOf(r', e) <==> m in LeasesOf(r, e) {
        assert m in ls ==> ls[m] in ls.Values;
      }
      assert LeasesOf(r', e) == LeasesOf(r, e);
    }
  }

  lemma BeginTickKeepsEntries(r: Registry, j: JobID, ls: map<LeaseID, EntryID>)
    requires RegistryInv(r) && Next(r, BeginTick(j, ls)) != r
    ensures var r' := Next(r, BeginTick(j, ls)); forall k :: 0 <= k < |r'.objects| ==> EntryInv(r', k)
  {
    var r' := Next(r, BeginTick(j, ls));
    var with := r.(jobs := r.jobs[j := Ticking(ls.Keys)]);
    assert TickLeases(with, ls);
    forall k | 0 <= k < |r'.objects| ensures EntryInv(r', k) {
      assert EntryInv(r, k);
      SameLeases(r, with, k);
      TickedLeases(with, ls, k);
      if k in ls.Values {
        var l :| l in ls && ls[l] == k;
        assert Ready(r, k);
      } else if r.objects[k].busy {
        StillWorked(r, r', k);
      }
    }
  }

  lemma BeginTickKeeps(r: Registry, j: JobID, ls: map<LeaseID, EntryID>)
    requires RegistryInv(r)
    ensures RegistryInv(Next(r, BeginTick(j, ls)))
  {
    var r' := Next(r, BeginTick(j, ls));
    if r' != r {
      BeginTickKeepsEntries(r, j, ls);
      forall i | i in r'.jobs ensures JobInv(r', i) {
        if i != j {
          assert JobInv(r, i);
          if r.jobs[i].Loading? || r.jobs[i].Deleting? {
            var e := r.jobs[i].entry;
            assert forall l :: l in ls ==> Ready(r, ls[l]);
            assert e !in ls.Values;
          }
        }
      }
    }
  }

  lemma EndCloseKeeps(r: Registry)
    requires RegistryInv(r)
    ensures RegistryInv(Next(r, EndClose))
  {
    var r' := Next(r, EndClose);
    if r' != r {
      forall e | 0 <= e < |r'.objects|
        ensures EntryInv(r', e) && (r'.objects[e].runtime.Some? ==> r'.objects[e].runtime.value in r'.closedHubs)
      {
        assert EntryInv(r, e);
        SameLeases(r, r', e);
        if r.objects[e].runtime.Some? && r.objects[e].runtime.value !in r.closedHubs {
          var lab := r.objects[e].lab;
          assert lab in r.entries && r.entries[lab] == e;
          assert !Worked(r, e);
        }
      }
    }
  }

  lemma EndTickKeeps(r: Registry, j: JobID)
    requires RegistryInv(r)
    ensures RegistryInv(Next(r, EndTick(j)))
  {
    var r' := Next(r, EndTick(j));
    if r' != r {
      forall k | 0 <= k < |r'.objects| ensures EntryInv(r', k) {
        assert EntryInv(r, k);
        SameLeases(r, r', k);
        if r.objects[k].busy {
          StillWorked(r, r', k);
        }
      }
      forall i | i in r'.jobs ensures JobInv(r', i) {
        assert JobInv(r, i);
      }
    }
  }

  lemma BeginCloseKeeps(r: Registry)
    requires RegistryInv(r)
    ensures RegistryInv(Next(r, BeginClose))
  {
    var r' := Next(r, BeginClose);
    forall k | 0 <= k < |r'.objects| ensures EntryInv(r', k) {
      assert EntryInv(r, k);
      SameLeases(r, r', k);
      if r.objects[k].busy {
        StillWorked(r, r', k);
      }
    }
    forall i | i in r'.jobs ensures JobInv(r', i) {
      assert JobInv(r, i);
    }
  }

  lemma StepKeeps(r: Registry, ev: Event)
    requires RegistryInv(r)
    ensures RegistryInv(Next(r, ev))
  {
    match ev
    case Acquire(lab, l) =>
      if Next(r, ev) != r {
        AddLeaseKeeps(r, l, r.entries[lab]);
      }
    case BeginLoad(lab, j) =>
      if Next(r, ev) != r {
        NewEntryKeeps(r, Next(r, ev), lab, j, Loading(|r.objects|));
      }
    case LoadDone(j, ok, l) => LoadDoneKeeps(r, j, ok, l);
    case Release(l) => ReleaseKeeps(r, l);
    case BeginTick(j, ls) => BeginTickKeeps(r, j, ls);
    case EndTick(j) => EndTickKeeps(r, j);
    case BeginDelete(lab, j) => BeginDeleteKeeps(r, lab, j);
    case CallbackDone(j, ok) => CallbackKeeps(r, j, ok);
    case EndDelete(j) => EndDeleteKeeps(r, j);
    case BeginClose => BeginCloseKeeps(r);
    case EndClose => EndCloseKeeps(r);
  }

  lemma {:induction false} RunKeeps(events: seq<Event>)
    ensures RegistryInv(Run(EMPTY, events))
  {
    if |events| > 0 {
      RunKeeps(events[..|events| - 1]);
      StepKeeps(Run(EMPTY, events[..|events| - 1]), events[|events| - 1]);
    }
  }

  // ---------------------------------------------------------------- what the registry promises

  lemma LeasedEntriesStay(r: Registry, l: LeaseID)
    requires RegistryInv(r) && l in r.leases
    ensures var o := r.objects[r.leases[l]];
            o.refs > 0 && !o.busy && o.runtime.Some? && o.lab in r.entries && r.entries[o.lab] == r.leases[l]
  {
    var e := r.leases[l];
    assert EntryInv(r, e);
    assert l in LeasesOf(r, e);
  }

  /** In every interleaving all leases of a laboratory are of one runtime, and its entry is in the table. */
  lemma OneLeasedRuntimePerLab(events: seq<Event>, l: LeaseID, m: LeaseID)
    ensures var r := Run(EMPTY, events);
            l in r.leases && m in r.leases ==>
              && r.leases[l] < |r.objects| && r.leases[m] < |r.objects|
              && var o, p := r.objects[r.leases[l]], r.objects[r.leases[m]];
                 && o.lab in r.entries && r.entries[o.lab] == r.leases[l]
                 && (o.lab == p.lab ==> r.leases[l] == r.leases[m] && o.runtime == p.runtime && o.runtime.Some?)
  {
    RunKeeps(events);
    var r := Run(EMPTY, events);
    if l in r.leases && m in r.leases {
      LeasedEntriesStay(r, l);
      LeasedEntriesStay(r, m);
    }
  }

  /** In every interleaving no lease of a laboratory exists while its deletion callback runs. */
  lemma DeletionNeverOverlapsALease(events: seq<Event>, j: JobID, l: LeaseID)
    ensures var r := Run(EMPTY, events);
            j in r.jobs && r.jobs[j].Deleting? && l in r.leases ==>
              && r.jobs[j].entry < |r.objects| && r.leases[l] < |r.objects|
              && r.objects[r.leases[l]].lab != r.objects[r.jobs[j].entry].lab
  {
    RunKeeps(events);
    var r := Run(EMPTY, events);
    if j in r.jobs && r.jobs[j].Deleting? && l in r.leases {
      LeasedEntriesStay(r, l);
      assert JobInv(r, j);
      assert EntryInv(r, r.jobs[j].entry);
    }
  }

  /** In every interleaving, once the registry is closed the hub of every runtime it ever published is closed
      and nothing is in progress any more. */
  lemma CloseClosesEveryHub(events: seq<Event>)
    ensures var r := Run(EMPTY, events);
            r.phase.Closed? ==> AllHubsClosed(r) && r.jobs == map[]
  {
    RunKeeps(events);
  }
}

# The portal laboratory, verified

A Dafny model of the portal laboratory's simulation and of the engine around it, with proofs.

The simulation is a timed aggregate: up to seven open portals, each racing three deadlines; observers that travel
through them in a six-state lifecycle; an energy ledger that is never stored but derived; an emergency window opened by
every collapse; and an event log obtained by comparing two states. One tick may jump over any amount of time and still
has to date everything by the moment it happened.

The modules follow the program. `Portals`, `Labs`, `Observers` and `States` hold the entities, which the program keeps by
value in slices, and the validators with their loops. `Commands` and `Ticks` say what a command and a tick do to an
aggregate. `Simulations` holds the aggregate as the program does, as one object whose methods update its fields in
place, and proves every method against those specifications; `Stages` relates the loops to the closed forms. `Events`,
`EventOrder` and `EventDerivation` are the log. `Tutorials` and `Workspaces` are the guided introduction, `Engines` and
`Managers` the transactional engine, `Registries` and `Hubs` the two protocols around it. The remaining modules are
theorems.

Conventions: an instant is an integer number of nanoseconds; portal energy and decay are reals and a duration computed
from them is rounded down; the configuration is any that the program accepts; the random source is a tape of arbitrary
values with a position, a checkpoint is that position, and every theorem holds for every tape. A tick is computed with
the position it starts from, so that two computations can be compared draw by draw.

The main results:

* **One inductive invariant.** The validity the program checks before a tick is not inductive. `Invariants.Inv` is: it
  adds that no portal is past its end, that travellers are in open corridors, one each, that unsynchronized extraction
  portals are untouched, and that the factory's guarantees survive. Every tick, every command and every run keeps it; it
  implies the program's validity at every later instant, and what the store accepts. Where no portal can be drawn with
  less than a nanosecond of energy, none is ever at its end either.
* **The stages do not depend on the cadence.** However an interval is divided into ticks, the portal and observer stages
  end in the same state. Whole ticks do depend on it; when they do not is proved too.
* **The log is faithful.** It does not depend on map iteration order, it holds of each observer exactly its history with
  the moments the steps happened, of the planes exactly those the tick explored, and it always tells whether the
  emergency window is on.
* **Whom an extraction portal sends home.** Within a plane the k-th due portal by ID takes the k-th longest waiter. From
  this follow, each as an if-and-only-if about the state before the tick, when the log keeps the order of events and
  when the tick leaves every transit running.
* **Advice is safe.** Following SEND or RECALL starts a transit that completes in every later run in which nobody closes
  its portal.
* **Nothing is lost or invented by the engine.** A call that fails has no effect, a refused command commits only its
  record, and a process restarted from the store computes what the one that crashed would have.

Where the code and its own documentation or promises part:

* A return started by a late synchronization can be dated before the research that made it possible, and then the
  sorted log shows it too early. `Histories.LogKeepsTheOrder`: the log keeps every observer's order exactly if each due
  portal that sends somebody home finds more observers waiting since its synchronization moment or earlier than there are
  due portals of its plane before it; for the only due portal of a plane that is one such observer
  (`Histories.LonePortalInTime`). `Homecomings.WaitersBeforeTheTick` tells the waiters from the records before the tick.
  `Instances.LateSyncBackdatesReturn` is a laboratory in which it happens.
* A tick can leave a return overdue, and the roster check then refuses the next command although the state is valid.
  `Freshness.FreshForEveryDraw`: no draw does exactly if no portal that sends somebody home synchronized as long ago as
  the shortest transit lasts. `Instances.LateReturnIsOverdue` is an instance.
* A tick that comes late enough ends an extraction portal before it synchronizes it, so dividing an interval differently
  can lead to a different laboratory (`Instances.CadenceMatters`). A tick that finds nothing to synchronize and leaves the
  generator alone can be skipped, and so can any number of them (`Cadence.IdleTicksMayBeSkipped`); one that synchronizes a
  portal which ends before the next tick never can (`Cadence.LateTickNeverSynchronizes`). Two ticks log the same window
  events as one exactly unless the first spawns a portal that collapses before the second
  (`TickWindows.TwoTicksLogTheSameWindows`).
* Closing a portal is not atomic on every aggregate: the portal is closed before its traveller is resolved.
  `CommandInvariants.RefusalsAreAtomic` gives the exact condition and `Instances.StrandedCloseLeavesATrace` an instance.
  No aggregate that passes the program's own structural validation meets it (`CommandInvariants.ValidStatesNeverStrand`).
* Step 4 of the tutorial is refused as an inconsistency when its portal is stabilized more than 17.5 seconds after it
  opened: `Tutorials.Step4IsCompleted`.
* A tick fails exactly when an extraction portal is CRITICAL at its synchronization moment
  (`Invariants.TickKeepsInvariant`); `Instances.FrailCorridorFailsTheTick` is an instance under a configuration the
  program accepts. No draw can be CRITICAL exactly if the configuration leaves a quarter of the safe horizon
  (`Margins.SafeSyncIsExact`), as the default one does (`Guarantees.DefaultIsSafe`).

## Model

| member | source | states |
|---|---|---|
| Randomness.Tape.Int | internal/random/random.go:19-21 | an integer draw lies in the requested inclusive range |
| Randomness.Tape.Real | internal/random/random.go:23-25 | a fractional draw lies in the requested range, its maximum excluded unless the range is a point |
| Randomness.EveryIntIsDrawn | internal/random/random.go:19-21 | every value of the range is some source's draw, so quantifying over sources covers every outcome |
| Randomness.Random.Replay | internal/random/random.go:76-96 | restoring a checkpoint repeats every draw made since, whatever was asked for, and the draws made in between change nothing |
| Portals.FirstEndingIsEarliest | internal/domain/portal.go:190-225 | the ending that is resolved is the earliest of natural close, depletion and hidden instability; natural close wins ties, then depletion; every other reason is a collapse |
| Portals.LifetimeIsDistanceToDepletion | internal/domain/portal.go:139-159 | energy lifetime and depletion moment never disagree: the lifetime is the distance to that moment, zero once it has passed |
| Portals.EffectiveLifetimeIsDistance | internal/domain/portal.go:161-170 | the effective lifetime is the distance to the earlier of natural close and depletion; for a stable portal that is its deadline |
| Portals.CriticalMeansUnderAQuarter | internal/domain/risk.go:30-66 | a stable portal is CRITICAL exactly when less than a quarter of the safe horizon is left |
| Portals.CorridorClearsAt | internal/domain/creatures.go:34-48 | the corridor of an open portal is empty exactly from the moment its last creature has passed |
| Portals.MostCreaturesThatPass | internal/domain/creatures.go:16-25 | the creature limit is the largest number up to the maximum whose passage and margin fit before the scheduled end |
| Portals.CreaturesPassInTime | internal/domain/factory.go:46-75 | every creature of a drawn portal passes before the scheduled end with the margin |
| Labs.EnergyRegenerates | internal/domain/lab.go:36-57 | derived energy grows by the rate for every whole second since the baseline until it reaches the maximum |
| Labs.SpendingNeverRaisesEnergy | internal/domain/lab.go:67-93 | paying lowers the energy by exactly the cost now and never raises it at any later instant, although it rebases the whole-second clock |
| Observers.TransitSecondsInRange | internal/domain/observer_lifecycle.go:21-24 | a drawn transit lasts between the configured bounds |
| Observers.ResolveOnce | internal/domain/observer_lifecycle.go:83-196 | one phase step fails exactly on a malformed record; otherwise it lowers the status rank or changes nothing, and brings the observer closer to its final state |
| Observers.ResolveObserverLifecycle | internal/domain/observer_lifecycle.go:67-81 | the run-until-unchanged loop terminates and jumps to the closed form of the final state, exploring the plane exactly on a completed return, at its deadline |
| Observers.FindAvailable | internal/domain/observer_commands.go:10-23 | finds the available observer of lowest ID, or that there is none |
| Observers.FindLongestWaiting | internal/domain/observer_commands.go:25-46 | finds the specified selection, including the error on a malformed waiting record |
| Observers.LongestWaiting | internal/domain/observer_commands.go:25-46 | the selected observer waits in the plane and nobody there waited longer; ties go to the lower ID; it fails exactly on an undated waiting record |
| Observers.FindActiveTransit | internal/domain/observer_commands.go:48-78 | finds the specified traveller, with an error on a malformed, stale or doubled transit |
| Observers.ActiveTransit | internal/domain/observer_commands.go:48-78 | a traveller found is fresh and the only one on the portal; none found means nobody is on it |
| Observers.ActiveTransitDecided | internal/domain/observer_commands.go:48-78 | on well-recorded, fresh, single transits the search succeeds and finds whoever is on the portal |
| Observers.ValidateRoster | internal/domain/observer_commands.go:210-249 | the loop over the roster decides exactly the declarative roster validity |
| States.ValidateStructure | internal/domain/simulation_structure.go:15-65 | the map-filling validator decides exactly the declarative structural validity of an aggregate |
| States.ValidatePortals | internal/domain/simulation_structure.go:36-63 | identifiers, slots and references of the portals are checked exactly, and the index it builds is the portal lookup |
| States.ValidateState | internal/domain/simulation.go:287-346 | the validation before every tick decides exactly the declarative validity |
| States.CountOpenPortals | internal/domain/simulation_spawn.go:91-99 | counts the open portals |
| States.FirstFreeSlot | internal/domain/slots.go:9-22 | returns the lowest slot no open portal occupies, or that there is none |
| States.SlotPigeonhole | internal/domain/slots.go:9-22 | with distinct slots at most as many portals are open as there are slots, and a slot is free exactly when fewer are |
| Commands.ValidateExtractionCollection | internal/domain/extraction.go:114-137 | the collection check decides exactly: distinct IDs, none equal to the new one, open slots distinct and in range |
| Sorting.SortIsCanonical | internal/domain/event_transition.go:123-125 | two arrangements of the same pairwise ordered elements sort to the same sequence |
| Stages.CouplingIsThePortalStage | internal/domain/simulation.go:126-164 | ending portals one by one in chronological order resolves every due portal and leaves the ledger the latest collapse dictates; it fails exactly if some collapse predates the ledger |
| Stages.StampedPlanes | internal/domain/simulation.go:226-238 | stamping the recorded earliest returns last gives every plane the date of its earliest return, whatever order the observers and the record were visited in |
| Simulations.DrawNaturalPortal | internal/domain/factory.go:26-84 | draws a natural portal in the documented draw order |
| Simulations.DrawExtractionPortal | internal/domain/extraction.go:15-47 | draws an extraction portal in order |
| Simulations.Simulation.ResolvePortalWithEmergency | internal/domain/lab_emergency.go:37-67 | one ending and its emergency are booked together or not at all |
| Simulations.Simulation.ResolvePortalStage | internal/domain/simulation.go:126-164 | in place, the portal stage computes the specified portals and ledger, or the specified error |
| Simulations.Simulation.ResolveObserverStage | internal/domain/simulation.go:166-240 | in place, the observer stage leaves every observer in its final state and dates planes by their earliest return, although the walk itself explores them in ID order |
| Simulations.Simulation.ResolveExtractionStage | internal/domain/simulation.go:242-275 | in place, synchronizes the extraction portals in ascending ID, as specified |
| Simulations.SynchronizeCopies | internal/domain/extraction.go:163-217 | one synchronization and its automatic return, on copies, both dated by the synchronization moment |
| Simulations.Simulation.ResolveNaturalSpawn | internal/domain/simulation_spawn.go:30-89 | pauses, schedules or spawns as specified, with the specified draws |
| Simulations.Simulation.ResolveTick | internal/domain/simulation.go:77-118 | a tick on the object equals the specified tick with its events, and a failed one changes nothing |
| Simulations.Simulation.StabilizeWithEnergy | internal/domain/lab_energy_commands.go:78-94 | price first, then the portal decides, debit only on success; otherwise nothing changes |
| Simulations.Simulation.CloseWithObservers | internal/domain/portal_observer_close.go:11-40 | every refusal in order; the portal is closed before the traveller is resolved |
| Simulations.Simulation.CloseWithEnergy | internal/domain/lab_energy_commands.go:48-67 | a close debits exactly on success |
| Simulations.SendPrepared | internal/domain/observer_commands.go:82-131 | every refusal in order; an admitted dispatch draws once and moves the available observer of lowest ID |
| Simulations.RecallPrepared | internal/domain/observer_commands.go:150-201 | every refusal in order; an admitted recall draws once and moves whoever waited longest |
| Simulations.Simulation.OpenExtractionPortal | internal/domain/extraction.go:61-104 | charges and appends in one step, or leaves ledger, portals and random source as they were |
| Simulations.Simulation.Execute | internal/engine/manager_commands.go:21-144 | each of the five commands, executed in place, leaves exactly the specified state, error and random position |
| Invariants.InvIsValid | internal/domain/simulation.go:287-346 | the invariant implies the validity checked before a tick, at every later instant |
| Invariants.MidTickKeeps | internal/domain/simulation.go:126-240 | the portal and observer stages keep everything but overdue synchronizations, every collapse can be booked, and no transit is overdue |
| Invariants.SynchronizeOutcome | internal/domain/extraction.go:163-217 | synchronizing fails exactly on a due portal in a CRITICAL moment; otherwise it marks the portal and sends home exactly whoever waited longest |
| Invariants.SynchronizeAllKeeps | internal/domain/simulation.go:242-275 | the extraction stage fails exactly if some due portal is CRITICAL at its moment, and otherwise keeps the invariant and leaves nothing due |
| Invariants.SpawnKeeps | internal/domain/simulation_spawn.go:30-89 | the branch without a free slot is unreachable, and the spawn stage keeps the invariant |
| Invariants.TickKeepsInvariant | internal/domain/simulation.go:77-118 | every successful tick keeps the invariant; a tick not before the clock fails exactly when a synchronization falls into a CRITICAL moment |
| CommandInvariants.CommandKeepsInvariant | internal/engine/manager_commands.go:21-144 | each of the five commands keeps the invariant |
| CommandInvariants.CloseLosesExactlyTheTraveller | internal/domain/portal_observer_close.go:26-39 | a close loses exactly the observer inside, at that moment |
| CommandInvariants.RefusalsAreAtomic | internal/domain/lab_energy_commands.go:48-94 | a refused command changes nothing and draws nothing, exactly unless it is a confirmed close whose traveller belongs to another plane |
| CommandInvariants.RefusalsLeaveNoTrace | internal/engine/manager_commands.go:181-214 | under the invariant every refused command is atomic |
| Runs.NewLaboratoryIsValid | internal/engine/tutorial_lifecycle.go:48-65 | a fresh laboratory satisfies the invariant |
| Runs.StaleTicksFail | internal/domain/simulation.go:295-300 | a tick before the clock is refused |
| Runs.RunKeepsInvariant | internal/domain/simulation.go:77-118 | every state of every run of ticks and commands satisfies the invariant, whatever their times and draws |
| Runs.RunEvolves | internal/domain/portal.go:181-193 | over any run terminal portals, lost observers and explored planes are never touched again, slots never change and identifiers are never reused |
| Runs.SlotsAndIdentifiers | internal/domain/slots.go:9-22 | in every reachable state at most seven portals are open, in distinct slots of 1..7, with distinct IDs below the next one, and a slot is free unless seven are open |
| Guarantees.DefaultIsSafe | internal/config/config.go:74-124 | the default configuration leaves every extraction portal a quarter of the safe horizon at synchronization |
| CommandInvariants.ValidStatesNeverStrand | internal/domain/simulation.go:456-531 | on an aggregate that passes structural validation no close leaves the portal closed when it is refused |
| Guarantees.SafeSyncSuffices | internal/domain/extraction.go:15-47 | with that margin no draw of the factory gives a portal that is CRITICAL when it synchronizes |
| Margins.SafeSyncIsExact | internal/domain/extraction.go:15-47 | every portal the factory can draw is out of the CRITICAL band at synchronization if and only if the configuration leaves that margin |
| Margins.UnsafeSyncFailsATick | internal/domain/extraction.go:61-104 | without it, unless such a portal ends first, some draw lets an extraction command succeed after which the tick at the synchronization fails |
| Margins.NothingEndsAtTheClock | internal/domain/portal.go:190-225 | where every drawn portal has a nanosecond of energy, each open portal of each reachable state ends strictly after the clock |
| Instances.FrailCorridorFailsTheTick | internal/domain/extraction.go:163-217 | an accepted configuration and a state satisfying the invariant whose tick fails for every draw |
| Instances.StrandedCloseLeavesATrace | internal/domain/portal_observer_close.go:26-39 | an aggregate on which a refused close leaves the portal closed |
| Guarantees.TicksNeverFail | internal/domain/simulation.go:77-118 | with that margin no tick from a state satisfying the invariant fails |
| Guarantees.SnapshotValidationTime | internal/persistence/state.go:182-207 | the loops compute the latest moment anything in the snapshot records |
| Guarantees.InvariantCommits | internal/persistence/state.go:93-180 | every state satisfying the invariant passes the store's validation, which does not know the time |
| Guarantees.BuildObserverTransits | internal/transport/dto.go:356-398 | presents every transit once, ordered by observer, and fails on exactly the aggregates that are not presentable |
| Guarantees.InvariantPresents | internal/transport/dto.go:369-394 | every in-transit observer is on an open portal of the matching direction, alone, so the view can always be built |
| Guarantees.FreshMeansSoundRoster | internal/domain/observer_commands.go:210-254 | a state without overdue transits is exactly one whose roster the next command accepts |
| Guarantees.OverdueTransitsComeFromLateSync | internal/domain/extraction.go:194-216 | a transit left overdue by a tick was started by a late synchronization inside that very tick |
| Freshness.FreshForEveryDraw | internal/domain/extraction.go:194-216 | every draw leaves every transit running exactly if no portal that sends somebody home synchronized the shortest transit ago or earlier |
| Instances.LateReturnIsOverdue | internal/domain/simulation_extraction_test.go:138-158 | a state satisfying the invariant whose tick, for every draw, leaves a transit overdue, after which a recall is refused with the observer invariant error |
| Homecomings.TickSendsHome | internal/domain/simulation.go:242-275 | in a tick the k-th due portal of a plane by ID sends home the k-th longest of its waiters, dated by its synchronization, and nobody else is touched |
| Homecomings.TickOnPortals | internal/domain/simulation.go:77-118 | a tick resolves each portal it finds, marks it if it is then due, and adds at most one |
| Homecomings.WaitersBeforeTheTick | internal/domain/observer_lifecycle.go:103-175 | who waits in a plane when the extraction stage runs, and since when, told from the records before the tick |
| Guarantees.PromptTicksStayFresh | internal/domain/observer_commands.go:210-254 | when the tick gap is at most the shortest transit, no transit is overdue and the next roster check passes |
| Composition.AdvanceTwice | internal/domain/observer_lifecycle.go:71-81 | resolving an observer at two instants is resolving it at the later one, whatever happened to its corridor |
| Composition.PlaneTwice | internal/domain/simulation.go:226-238 | the first return decides a plane's exploration date, seen in one tick or in two |
| Composition.StagesCompose | internal/domain/simulation.go:126-240 | the stages at two instants equal the stages at the later one in everything but the portals' resolution time |
| Composition.CadenceDoesNotMatter | internal/domain/simulation.go:126-240 | however finely an interval is divided into ticks, only its end matters |
| Cadence.IdleTickMayBeSkipped | internal/domain/simulation.go:77-118 | a tick that synchronizes nothing and leaves the generator alone can be skipped: the next one fails, draws and spawns alike and leaves the same state up to resolution times |
| Cadence.IdleTicksMayBeSkipped | internal/domain/simulation.go:77-118 | so can any number of them |
| Cadence.LateTickNeverSynchronizes | internal/domain/simulation.go:242-275 | a portal due at the first instant that ends by the second is synchronized by two ticks and by no single one |
| Instances.CadenceMatters | internal/domain/simulation.go:77-118 | a state satisfying the invariant in which ticks at thirty and sixty seconds differ from one at sixty |
| Ledger.RunStaysBalanced | internal/domain/lab.go:65-93 | over any run the stored energy and all successful spending fit in the initial energy plus the regeneration of whole elapsed seconds |
| Ledger.SpendingIsCovered | internal/domain/lab.go:36-93 | at any time after any run, what is left and what was spent never exceed what there ever was |
| Events.LogOrderIsStrict | internal/domain/event_transition.go:390-438 | the log order is a strict weak order |
| Events.DifferentKeysAreOrdered | internal/domain/event_transition.go:390-438 | two drafts are ordered exactly when their sort keys differ |
| EventOrder.CollectedKeys | internal/domain/event_transition.go:35-121 | no two drafts of a transition share the full sort key |
| EventOrder.OverrideKeys | internal/domain/event_transition.go:143-187 | window events never share a key |
| EventOrder.IterationOrderDoesNotMatter | internal/domain/event_transition.go:123-126 | whatever order the maps are iterated in, the sorted log is the same |
| EventOrder.LogIsStrict | internal/domain/event_transition.go:123-126 | the log is strictly ascending, hence the only arrangement of its events |
| EventDerivation.CutAtCollapses | internal/domain/event_transition.go:143-187 | the loop over collapses computes the specified window events |
| EventDerivation.EventsForStateTransition | internal/domain/event_transition.go:14-127 | for every iteration order of its maps the derivation returns the one log of the transition, and refuses exactly the transitions that cannot be logged |
| Traces.InvariantIsLoggable | internal/domain/event_transition.go:14-127 | between any two states satisfying the invariant a log can be derived |
| Traces.HistoryEndsWhereAdvanceDoes | internal/domain/observer_lifecycle.go:71-81 | living through the phases one by one ends in the closed form |
| Traces.DraftsAreHistory | internal/domain/event_transition.go:210-289 | the events of an observer are exactly its steps, in order, at the moments they happened |
| Traces.TickTraceIsFaithful | internal/domain/event_transition.go:195-291 | for every tick and observer the events in emission order are its phase history and drive the lifecycle from its old status to its new one, however many phases the tick skipped |
| Traces.CommandTraceIsFaithful | internal/domain/event_transition.go:195-291 | a command is logged as one step, dated now, for the one observer it moves, and for nobody else |
| Histories.TickLogHoldsTheObserver | internal/domain/event_transition.go:14-127 | the log of a tick holds, of each observer, exactly the events that tell its phases |
| Histories.TickLogHoldsTheExplorations | internal/domain/event_transition.go:325-347 | the log of a tick announces exactly the planes the tick explored, with the date of the earliest return |
| Histories.LogKeepsTheOrder | internal/domain/event_transition.go:390-407 | the log of a tick keeps every observer's events in the order they happened exactly if each due portal with somebody to send finds enough observers waiting since its synchronization moment |
| Histories.LonePortalInTime | internal/domain/extraction.go:194-216 | for the first due portal of a plane enough means one |
| Instances.LateSyncBackdatesReturn | internal/domain/extraction.go:194-216 | a state satisfying the invariant whose tick logs a return before the research that preceded it |
| OverrideLog.WindowsEndUnlessRestarted | internal/domain/event_transition.go:143-187 | an end is logged exactly for the deadlines that pass without a collapse before them |
| OverrideLog.LabKeepsTheDeadline | internal/domain/lab_emergency.go:21-32 | the laboratory's deadline after the portal stage is the one the logged collapses leave |
| OverrideLog.WindowsCompose | internal/domain/event_transition.go:143-187 | dividing an interval in two leaves the window events of its portal stages the same |
| OverrideLog.CadenceDoesNotChangeTheWindows | internal/domain/event_transition.go:143-187 | so does dividing it into any number of parts |
| TickWindows.TickLogHoldsTheWindows | internal/domain/event_transition.go:143-187 | the window events in the log of a tick are those of its portal stage |
| TickWindows.TwoTicksLogTheSameWindows | internal/domain/event_transition.go:143-187 | two ticks log the same window events as one, whatever each draws, exactly unless the first spawns a portal that collapses by the second |
| WindowRuns.WindowsInLogOrder | internal/domain/event_transition.go:143-187 | window events are derived in the order the log sorts them in |
| WindowRuns.TickTellsTheWindow | internal/domain/lab_emergency.go:12-18 | after a tick the window is on exactly if the last window event says so, or nothing was said and it was on before |
| WindowRuns.HistoryTellsTheWindow | internal/domain/lab_emergency.go:12-18 | after any history of calls the window is on exactly if the last window event ever logged is a start |
| Journals.TicksAreJournalled | internal/domain/simulation.go:101-117 | under the invariant a tick is journalled exactly when it succeeds |
| Journals.RefusalsOnlyLeaveARecord | internal/engine/manager_commands.go:194-214 | a refused command leaves its record and nothing else |
| Availability.PortalActionAvailability | internal/domain/action_availability.go:35-96 | the answer is the verdict of the confirmed action tried on a copy |
| Availability.MinimalDraws | internal/domain/action_availability.go:98-101 | the source a trial uses always draws the minimum |
| Availability.RefusalDecidesTheError | internal/domain/observer_commands.go:82-201 | whether and why a command is refused does not depend on the random source |
| Availability.AvailabilityAgreesWithTheCommand | internal/domain/action_availability.go:32-96 | available means exactly that the confirmed command succeeds for every source; a cause is why it fails; unconfirmed it fails for the same cause or for want of confirmation |
| Availability.AvailabilityIsAnswered | internal/domain/action_availability.go:42-95 | in every fresh state the question has an answer for each portal there is |
| Availability.ConfirmationIsOnlyAKey | internal/domain/observer_commands.go:120-122 | where confirmation is not needed it changes nothing |
| Advice.FindShortestResearch | internal/domain/recommendation.go:159-179 | finds the shortest remaining research in a plane, with an error on an undated record |
| Advice.CheckOutboundTargets | internal/domain/recommendation.go:199-211 | decides whether an outbound observer heads for a plane |
| Advice.RecommendationForPortal | internal/domain/recommendation.go:23-118 | the ordered decisions compute the specified recommendation table |
| FollowedAdvice.AdviceIsGiven | internal/domain/recommendation.go:23-91 | every portal of a fresh state gets a recommendation, except one that has ended |
| FollowedAdvice.SendAdviceSucceeds | internal/domain/recommendation.go:83-89 | advised to send, the unconfirmed dispatch succeeds for every draw |
| FollowedAdvice.RecallAdviceSucceeds | internal/domain/recommendation.go:58-64 | advised to recall, the unconfirmed recall succeeds for every draw |
| FollowedAdvice.CloseAdviceIsHarmless | internal/domain/recommendation.go:108-118 | advised to close, the confirmed close succeeds and loses nobody |
| FollowedAdvice.StabilizeAdviceSettles | internal/domain/recommendation.go:128-138 | advised to stabilize, the command succeeds, and asked again at that moment the table never says STABILIZE or CLOSE |
| FollowedAdvice.WaitAdviceHolds | internal/domain/recommendation.go:93-106 | advised to wait, the portal is open and empty when the corridor clears and outlives the longest transit; when it is CRITICAL then, exactly |
| SafeTransits.CommandsSpareIt | internal/engine/manager_commands.go:21-144 | no command but closing its own portal touches a protected transit |
| SafeTransits.TickDeliversIt | internal/domain/observer_lifecycle.go:103-196 | the first tick at or after its deadline completes a protected transit, however late it comes |
| SafeTransits.ProtectedTransitsComplete | internal/domain/observer_lifecycle.go:177-196 | in every run without a close of its portal a protected transit is under way until some call completes it |
| SafeTransits.FollowingAdviceIsSafe | internal/domain/recommendation.go:93-126 | following SEND or RECALL succeeds unconfirmed for every draw and starts such a transit |
| Tutorials.ScenarioPortalIsValid | internal/domain/tutorial.go:107-142 | every scenario portal satisfies the invariant under a configuration that leaves room for it |
| Tutorials.CreateTargetKeeps | internal/engine/tutorial.go:316-336 | a created target is open and keeps the simulation valid |
| Tutorials.AfterTickKeeps | internal/engine/tutorial.go:105-166 | after every advancing tick the portal the visitor is pointed at is open |
| Tutorials.AfterCommandKeeps | internal/engine/tutorial.go:168-237 | after every command, refused or not, it is open |
| Tutorials.AfterSignalKeeps | internal/engine/tutorial.go:76-97 | after every signal it is open |
| Tutorials.TutorialTicksNeverSpawn | internal/engine/tutorial.go:99-103 | no tick in the tutorial adds a natural portal |
| Tutorials.Step4IsCompleted | internal/engine/tutorial.go:192-208 | an accepted stabilization completes step 4 exactly if at most seventeen and a half seconds have passed and there is a slot and an unexplored plane for the portal of step 5; later than that it is refused as an inconsistency |
| Lessons.ScenariosTeachTheTable | internal/domain/tutorial.go:107-142 | in a new laboratory the scenario portals are answered WAIT (steps 1 and 2), SEND (3 and 6), STABILIZE (4) and CLOSE (5), in a state that meets the premises of the advice theorems |
| Workspaces.Workspace.FindTutorialPlane | internal/engine/tutorial.go:338-350 | finds the unexplored plane of lowest ID, or none |
| Workspaces.Workspace.MakeTarget | internal/engine/tutorial.go:316-336 | in place, appends the specified target and points the tutorial at it |
| Workspaces.Workspace.AdvanceAfterTick | internal/engine/tutorial.go:105-166 | in place, takes the specified step after a tick |
| Workspaces.Workspace.AdvanceAfterCommand | internal/engine/tutorial.go:168-237 | in place, takes the specified step after a command |
| Workspaces.Workspace.ApplySignal | internal/engine/tutorial.go:76-97 | in place, applies a signal or refuses it without effect |
| Engines.Repository.Commit | internal/engine/repository.go:10-17 | a commit replaces the snapshot and appends its events in one step, or does neither |
| Silence.EmptyLogIsQuiet | internal/engine/manager.go:219-224 | a tick that changed neither portals nor ledger and logged nothing crossed no risk level and no window boundary |
| Silence.CrashChangesNothing | internal/engine/manager.go:284-290 | losing ticks that recorded nothing changes neither the state nor the events of the next one |
| Silence.RestartIsUnnoticed | internal/engine/manager.go:34-61 | a process restarted from the store computes the next call as the lost one would have |
| Managers.LabManager.Resolve | internal/engine/manager.go:182-234 | publishes exactly the computed call; a failed one, in the domain or at the commit, restores the random source and changes nothing; a stale one is ignored |
| Managers.LabManager.Publish | internal/engine/manager.go:219-233 | what is published equals what is stored up to ticks that recorded nothing |
| Managers.LabManager.ExecuteCommand | internal/engine/manager_commands.go:146-223 | commits and publishes the tick, the command and the tutorial together, refused or not, or has no effect |
| Managers.LabManager.TutorialSignal | internal/engine/tutorial.go:27-74 | commits and publishes a signal with its tick, or has no effect |
| Managers.ResolvedCallKeeps | internal/engine/manager.go:199-218 | the tick every call begins with leaves a sound snapshot, with an open target if it advances the tutorial |
| Managers.CommandCallKeeps | internal/engine/manager_commands.go:160-214 | every committed command leaves a sound snapshot with an open target |
| Managers.SignalCallKeeps | internal/engine/tutorial.go:33-66 | every committed signal leaves a sound snapshot with an open target |
| Managers.UncommittedStaysDurable | internal/engine/manager.go:219-229 | publishing an uncommitted call keeps the store equivalent to memory |
| Managers.RefusalsCommitTheTick | internal/engine/manager_commands.go:194-216 | outside the tutorial a refused command commits exactly the resolved tick and its record |
| Managers.RefusalsOnlyMoveTheTutorial | internal/engine/manager_commands.go:181-214 | in the tutorial, beyond the tick, only the tutorial's reaction |
| Managers.RestartKeepsCommands | internal/engine/manager_commands.go:161-214 | a restarted process answers the next command as the lost one would have |
| Managers.LiveTicksSucceed | internal/engine/manager.go:202-222 | with the safety margin, ticks outside the tutorial succeed and what they produce is accepted by the store |
| Registries.OneLeasedRuntimePerLab | internal/labruntime/registry.go:61-133 | in every interleaving all leases of a laboratory are of one runtime, whose entry stays in the table |
| Registries.DeletionNeverOverlapsALease | internal/labruntime/registry.go:162-199 | no lease of a laboratory exists while its deletion callback runs |
| Registries.CloseClosesEveryHub | internal/labruntime/registry.go:204-225 | once closed, the hub of every runtime ever published is closed and nothing is in progress |
| Hubs.Mailbox.OfferLocked | internal/realtime/hub.go:189-207 | an offer never waits, ignores a stale snapshot, and leaves a newer one queued or received however the client drains in between |
| Hubs.DeliveryIsOrderedAndLossless | internal/realtime/hub.go:95-207 | in every interleaving each client receives strictly increasing sequences, and the newest offered to it is queued or received |
| Hubs.PublicationsReachTheirAudience | internal/realtime/hub.go:172-187 | a finished publication has reached everyone registered when it began, or something newer has |
| Hubs.OffersEnd | internal/realtime/hub.go:189-207 | an offer needs at most three attempts |

## Left out

- The store's SQL, migrations and encodings: a commit is one step that may fail, and accepts only what `validateSnapshot` accepts of the simulation; the tutorial context check and the encodability of times are part of "may fail".
- HTTP, WebSocket transport, sessions, server shutdown and the web client.
- Event messages and payload encoding: a draft carries the part of its payload the simulation decides.
- Names, aliases, catalogue tiers, time zones and zero times: they would only add easy conjuncts.
- Floating-point rounding and integer overflow: energy and decay are reals, times and counters unbounded integers.
- Nil arguments and missing dependencies; configurations the program refuses.
- The concurrency inside one manager: its mutex makes each call one step, which is how it is modelled. Coalesced update signals are not modelled.
- `ResetTutorial`, `StartLive` and `StartTutorial`, the portal that needs attention, portal history and the remaining views.
- Records held by value in slices (portals, observers, planes, the ledger) are immutable values replaced in the object's sequences, so aliasing between a record's pointer fields is not modelled.
- Tutorials.Step4IsCompleted: is about the default configuration and a portal that has not yet ended, because the tutorial's constants are tuned to it.
- Tutorials.AfterTickKeeps: requires a configuration with room for the scenario portals; the default is one.
- Guarantees.InvariantCommits: requires the observer count and energy limit the store has built in.
- Composition.CadenceDoesNotMatter: covers the portal and observer stages; `Cadence` says what is true of whole ticks.
- OverrideLog.CadenceDoesNotChangeTheWindows: covers the same stages; `TickWindows` says what is true of the logs of whole ticks.
- Registries.CloseClosesEveryHub: closing the hubs is one step, since nothing can be published any more when it begins.

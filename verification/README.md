# Verification of microvm-placement

This project models the Go code that decides where microVMs run, how many hosts there are, and
what happens when hosts come and go, and proves what that code keeps true. The model is written in
Dafny 4.11; `dafny verify dfyconfig.toml` checks all of it.

What is modelled, and in which form:

- **Scheduler and bucket index** (`HostSets`, `SchedulerSpec`, `SchedulerImpl`, `FleetStats`,
  `Packing`). `SchedulerSpec` says what each operation does to the scheduler's state, including the
  order inside every bucket slice, and proves the index invariant, agreement with a plain search,
  and that a release undoes a placement. `SchedulerImpl.Scheduler` is the object itself (hosts,
  buckets and maps updated in place), each method proved to do exactly what its specification
  function says. `Packing` follows whole runs of placements.
- **Placement service** (`PlacementProtocol` and the ten modules that reason about it,
  `PlacementService`). Any number of `Admit` calls, the one dispatcher, releases, host changes and
  shutdown take interleaved steps; a step is one scheduler call, one channel operation or one
  context check. The theorems quantify over every run of such steps: results, refusals and counters
  are told from the steps that were taken (`PlacementHistory`, `PlacementCauses`), and the steps that
  can be taken are exactly those the code offers (`PlacementProgress`). The loops that the service
  runs over its own fields (boot retry, shutdown drain, release and signal) are also modelled as
  methods of a class, run without interference.
- **Host registry** (`RegistrySpec`, `RegistryContacts`, `RegistryGrace`, `RegistrySteps`,
  `RegistryAtomicity`, `RegistryRaces`, `RegistryImpl`). Each registry method is one step over an
  explicit clock; the class drives a scheduler object and is proved to follow the step functions
  whatever order maps are walked in. `RegistryContacts` tells from the calls made which hosts are
  tracked and ready; `RegistryGrace` follows drain times over whole runs. `RegistrySteps` takes a
  sweep apart at every point where it holds no lock, with other calls in between;
  `RegistryAtomicity` puts an undisturbed one together again, and `RegistryRaces` says what a
  disturbed one does.
- **Autoscaler** (`Reals`, `Regression`, `Autoscale`, `AutoscaleRuns`). Least squares, sizing and the
  stabilisation hold, over real numbers, for whole runs of samples.
- **Simulated fleet** (`FleetProtocol`, `FleetImpl`, `FleetPass`). The control loop's drain and reap as
  steps interleaved with readiness timers, placements and releases; one reconcile, run alone, as
  methods of a class over a scheduler object; and that the steps, undisturbed, add up to it.
- **Fake hypervisor** (`FakeHypervisor`, `FakeFates`, `FakeOutcomes`, `FakeImpl`). Start, Stop, TTL
  timers and Close as interleaved steps, with the wait group and the expiry channel; who is admitted
  and what becomes of each Start, however ids are reused; and the critical sections as methods of a
  class.
- **Load envelope** (`LoadEnvelope`, `EnvelopeShape`, `EnvelopeExactness`). Rates, peak and area in
  plain arithmetic, and the trapezoid sum against the area.

`Common`, `Integers` and `Reals` hold identifiers, finite sums and arithmetic laws the others share.

## Where the code and its words differ

- `internal/placement/service.go:257-258` speaks of moving a failed boot to another host. Because a
  release puts the host back on top of its bucket, a retry that nothing disturbs boots on the same
  host every time: `SchedulerSpec.ReplaceChoosesSameHost`,
  `PlacementService.Server.BootWithRetry`.
- An `Admit` that enqueues after the dispatcher has left is never answered, although the drain at
  `internal/placement/service.go:200-201` is there so that callers do not block for ever. The
  requests never answered are exactly those sent after the dispatcher's exit:
  `PlacementShutdown.UnansweredExactlyWhenSentAfterExit`, reached by
  `PlacementShutdown.AdmitAfterShutdown`.
- `Register` leaves an old drain time in place and `Sweep` keeps it, so a host that drained, came
  back and fell silent can be removed, guests and all, by the sweep that first notices:
  `RegistrySpec.StaleDrainTimeLosesGrace`. A silent host with guests survives every sweep within
  `ForceRemoveAfter` exactly when no drain time from before the sweep that noticed it is on record:
  `RegistryGrace.FullGraceExactlyWhen`. The time on record is the true start of the drain unless the
  host came back after an earlier drain and a sweep then drained it:
  `RegistryGrace.RecordIsTrueStartUnless`.
- `Sweep` acts on hosts it no longer holds a lock for. Over every run of sweeps and other calls,
  registry and scheduler agree throughout, but for what the sweep under way is yet to do, exactly
  when each host it drains or removes is untracked at that moment, and none whose drain time it
  deletes has come back and drained since the removal: `RegistrySteps.RunSettlesExactlyWhen`. The
  code checks the first two earlier, under the lock, and the last not at all. A host drained while
  tracked never gains a guest while it keeps in touch, and one removed while tracked stays unknown
  to the scheduler however often it registers; one whose drain time is deleted goes in the next
  sweep with its guests: `RegistryRaces.RacedHostStaysStuck`, `RegistryRaces.GoneHostStaysGone`,
  `RegistryRaces.UnstampedHostGoesAtOnce`. Each happens: `RegistryRaces.DrainRace`,
  `RegistryRaces.ReapRace`, `RegistryRaces.StampRace`.
- The reaper judges a host by the guests it had in a snapshot. With a sweep under way, a draining
  host with a guest keeps its grace in every continuation exactly when that sweep is not about to
  remove it or to delete its drain time, and did not see it draining without guests:
  `RegistryRaces.GraceHoldsExactlyWhen`, and `RegistryRaces.SnapshotRace` for a guest lost.
- `Stats.Used` counts every host and `Stats.Capacity` only ready ones. The utilisation is the
  occupied fraction of ready slots exactly when no other host holds a guest, and exceeds one exactly
  when there is ready capacity and more VMs are on other hosts than ready slots are free:
  `FleetStats.UtilisationIsReadyFraction`, `FleetStats.UtilisationExceedsOneExactlyWhen`,
  `FleetStats.UtilisationCanExceedOne`.
- Nothing in the service stops a client from using an id twice or releasing it too early. Admitting
  an id is safe in every continuation exactly when no earlier call under it can still touch its slot,
  or the dispatcher has begun to shut down; a release is safe exactly when it is refused or the call
  that holds the slot has returned: `PlacementReuse.ReuseIsSafeExactlyWhen`,
  `PlacementReuse.ReleaseIsSafeExactlyWhen`.
- The fake hypervisor's boot failures and timers free the slot of an id, whoever holds it by then.
  Admitting a Start is safe in every continuation exactly when no earlier Start under its id is
  still booting or has its timer armed or fired: `FakeFates.ReuseIsSafeExactlyWhen`. Each of the
  three happens: `FakeFates.ArmedTimerReapsNewVM`, `FakeFates.FiredTimerReapsNewVM`,
  `FakeFates.CancelledBootFreesNewVM`. A retry after a failed boot is always safe:
  `FakeFates.RetryIsCareful`.
- The trapezoid sum over one ramp equals the area exactly when the ramp ends in a slope, the steps
  divide the run and the step divides every leg (or the peak is zero), and otherwise falls short:
  `EnvelopeExactness.ExactExactlyWhen`. The same holds of ramps with a climb, however they are
  repeated, for steps that divide each cycle: `EnvelopeExactness.RepeatedExactExactlyWhen`. Steps
  that do not can be exact although they fit no leg, because errors cancel:
  `EnvelopeExactness.RepetitionCanCancel`. In a single step the sum is zero:
  `LoadEnvelope.OneStepSeesNothing`.

## Model

| member | source | states |
|---|---|---|
| HostSets.AddMembers | internal/scheduler/hostset.go:13-22 | adding keeps members distinct, adds exactly that one, and puts it last |
| HostSets.RemoveMembers | internal/scheduler/hostset.go:25-38 | swap-remove keeps members distinct and takes out exactly that one |
| HostSets.RemoveMovesTheLast | internal/scheduler/hostset.go:30-36 | it moves only the last member, into the place that has become free |
| HostSets.RemoveUndoesAdd | internal/scheduler/hostset.go:13-38 | removing what was just added restores the slice, order included |
| HostSets.AddUndoesRemoveLast | internal/scheduler/hostset.go:13-38 | adding back the last element restores the slice, order included |
| HostSets.HostSet.constructor | internal/scheduler/hostset.go:9-11 | a new set is empty and valid |
| HostSets.HostSet.Insert | internal/scheduler/hostset.go:13-22 | slice and index stay in step and follow Add |
| HostSets.HostSet.Delete | internal/scheduler/hostset.go:25-38 | slice and index stay in step and follow Remove |
| HostSets.HostSet.Any | internal/scheduler/hostset.go:41-46 | yields the last member, and nothing exactly when empty |
| HostSets.HostSet.Contains | internal/scheduler/hostset.go:50-53 | the index answers membership of the slice, both ways |
| HostSets.ValidSetIsDuplicateFree | internal/scheduler/hostset.go:4-7 | the index is determined by the slice, which has no duplicates |
| SchedulerSpec.SelectUpFindsLeast | internal/scheduler/scheduler.go:210-215 | the upward bucket walk finds a listed host with the least free count from k on, or there is none |
| SchedulerSpec.SelectDownFindsGreatest | internal/scheduler/scheduler.go:202-209 | the downward bucket walk finds a listed host with the greatest free count up to k, or there is none |
| SchedulerSpec.SelectHostIsBest | internal/scheduler/scheduler.go:201-216 | the walk picks what a search of all ready hosts would, none exactly when no ready host has a free slot, every bucket access in range |
| SchedulerSpec.PlaceRefinesSearch | internal/scheduler/scheduler.go:180-198 | duplicate refusal, capacity refusal and success each happen exactly when a plain search says, with the best host and only that host's count changed |
| SchedulerSpec.ReleaseFreesOneSlot | internal/scheduler/scheduler.go:219-241 | a release always finds its host, in range, so the missing-host branch is dead |
| SchedulerSpec.ReleaseUnassigns | internal/scheduler/scheduler.go:219-241 | a release fails exactly for an unassigned VM, changing nothing, and otherwise unassigns exactly that one |
| SchedulerSpec.OccupiedHostIsUsed | internal/scheduler/scheduler.go:219-241 | the host of an assigned VM has a used slot to give back |
| SchedulerSpec.GrowBucketsAddsEmpty | internal/scheduler/scheduler.go:123-130 | growing keeps the old buckets and appends empty ones up to the capacity |
| SchedulerSpec.EmptyKeepsInv | internal/scheduler/scheduler.go:98-104 | a new scheduler satisfies the index invariant |
| SchedulerSpec.AddHostKeepsInv | internal/scheduler/scheduler.go:107-120 | adding a host keeps it |
| SchedulerSpec.SetHostStateKeepsInv | internal/scheduler/scheduler.go:133-152 | a state change keeps it |
| SchedulerSpec.RemoveHostKeepsInv | internal/scheduler/scheduler.go:156-177 | removing a host keeps it |
| SchedulerSpec.PlaceKeepsInv | internal/scheduler/scheduler.go:180-198 | placing keeps it |
| SchedulerSpec.ReleaseKeepsInv | internal/scheduler/scheduler.go:219-241 | releasing keeps it |
| SchedulerSpec.AddHostAddsPending | internal/scheduler/scheduler.go:107-120 | a capacity below two is refused before a known id; a new host is pending with every slot free, and no other host and no assignment changes |
| SchedulerSpec.SetHostStateSetsState | internal/scheduler/scheduler.go:133-152 | only an unknown host is refused, only that host's state changes, and nothing at all when it has that state already |
| SchedulerSpec.RemoveHostEvicts | internal/scheduler/scheduler.go:156-177 | exactly the host and the assignments of its guests are gone, and the orphans are exactly its guests |
| SchedulerSpec.MoveKeepsIndexed | internal/scheduler/scheduler.go:192-195 | taking a host out of its old bucket and putting it into its new one keeps every bucket exact |
| SchedulerSpec.MoveThereAndBack | internal/scheduler/scheduler.go:192-240 | moving a bucket's top host down and up again restores both slices |
| SchedulerSpec.ReleaseUndoesPlace | internal/scheduler/scheduler.go:180-241 | a release straight after a placement restores the whole state, order inside buckets included |
| SchedulerSpec.ReplaceChoosesSameHost | internal/placement/service.go:266-274 | so placing again at once chooses the same host |
| SchedulerImpl.Scheduler.constructor | internal/scheduler/scheduler.go:98-104 | a new object is valid and empty |
| SchedulerImpl.Scheduler.AddHost | internal/scheduler/scheduler.go:107-120 | result and new state are the specification's, for every error case |
| SchedulerImpl.Scheduler.GrowBucketsTo | internal/scheduler/scheduler.go:123-130 | the loop grows the buckets as specified, old bucket objects kept |
| SchedulerImpl.Scheduler.SetHostState | internal/scheduler/scheduler.go:133-152 | result and new state are the specification's, host and bucket objects kept |
| SchedulerImpl.Scheduler.RemoveHost | internal/scheduler/scheduler.go:156-177 | new state is the specification's; the orphans returned are the host's guests, once each |
| SchedulerImpl.Scheduler.DropAssignments | internal/scheduler/scheduler.go:169-175 | deletes exactly the host's assignments and lists them once each, in any map order |
| SchedulerImpl.Scheduler.Place | internal/scheduler/scheduler.go:180-198 | result and new state are the specification's |
| SchedulerImpl.Scheduler.SelectHost | internal/scheduler/scheduler.go:201-216 | the two walks return what the specification selects |
| SchedulerImpl.Scheduler.Release | internal/scheduler/scheduler.go:219-241 | result and new state are the specification's |
| SchedulerImpl.Scheduler.HostOf | internal/scheduler/scheduler.go:315-320 | answers exactly the assigned VMs, with an existing host |
| SchedulerImpl.Scheduler.TallyHost | internal/scheduler/scheduler.go:268-289 | one host's contribution to each counter |
| SchedulerImpl.Scheduler.Stats | internal/scheduler/scheduler.go:265-291 | the counters describe the whole state, in any map order |
| SchedulerImpl.Scheduler.Hosts | internal/scheduler/scheduler.go:303-312 | a snapshot of every host exactly once, with its values |
| FleetStats.CountOneMore | internal/scheduler/scheduler.go:268-289 | counting one more host extends every tally, whichever host comes next |
| FleetStats.TotalUsed | internal/scheduler/scheduler.go:265-291 | occupied slots over all hosts are the placed VMs |
| FleetStats.UsedEqualsInflight | internal/scheduler/scheduler.go:265-291 | Used equals InflightVMs |
| FleetStats.UtilisationIsReadyFraction | internal/scheduler/scheduler.go:257-291 | utilisation is the occupied fraction of ready slots exactly when no other host holds a guest; that fraction is at most one |
| FleetStats.UtilisationExceedsOneExactlyWhen | internal/scheduler/scheduler.go:257-291 | utilisation exceeds one exactly when there is ready capacity and more VMs are on hosts that are not ready than slots are free on hosts that are |
| FleetStats.UtilisationCanExceedOne | internal/scheduler/scheduler.go:257-291 | which happens: a valid state whose utilisation is one and a half |
| Packing.EveryCallPlaces | internal/scheduler/scheduler.go:180-198 | on an empty uniform ready fleet every one of m distinct VMs that fit is placed |
| Packing.BestFitFillsOneAtATime | internal/scheduler/scheduler.go:201-216 | best fit never has two hosts partly full |
| Packing.NoSpreadIsTighter | internal/scheduler/scheduler.go:201-216 | no state of such a fleet with m VMs leaves more than n - ceil(m/c) hosts idle |
| Packing.BestFitPackingIsOptimal | internal/scheduler/scheduler.go:180-216 | best fit leaves exactly n - ceil(m/c) hosts idle, the most any assignment allows |
| Packing.WorstFitSpreadsLevel | internal/scheduler/scheduler.go:201-216 | under worst fit usages differ by at most one |
| Packing.WorstFitStrandsHosts | internal/scheduler/scheduler.go:180-216 | worst fit leaves max(0, n - m) hosts idle |
| PlacementProtocol.SchedulerStaysValid | internal/placement/service.go:172-359 | no step of the protocol breaks the scheduler's invariant |
| PlacementFlow.StepKeepsFlow | internal/placement/service.go:172-338 | every step keeps queue, dispatcher and verdicts holding each request once, in order |
| PlacementFlow.RunsKeepFlow | internal/placement/service.go:172-338 | so does every run from a new service |
| PlacementFlow.VerdictsAreFirstInFirstOut | internal/placement/service.go:172-255 | verdicts go out in enqueue order, one per request |
| PlacementFlow.EveryRequestIsInOnePlace | internal/placement/service.go:214-255 | a waiting request is in exactly one of queue, dispatcher and answered; its channel is written at most once, and only while empty |
| PlacementCounters.ClassesPartition | internal/placement/service.go:76-85 | every call is in flight or ended in exactly one way |
| PlacementCounters.RunsKeepCounted | internal/placement/service.go:214-373 | in every reachable state each counter is the number of calls of its class |
| PlacementCounters.RequestsAreConserved | internal/placement/service.go:214-373 | accepted = placed + timed out + queue rejected + boot failed + shut down + duplicate + in flight, in every reachable state |
| PlacementCounters.CountersMatchResults | internal/placement/service.go:362-373 | once all calls have returned the counters are the numbers of those results, and the high-water mark fits the queue |
| PlacementHistory.RunsTell | internal/placement/service.go:214-338 | over every run, where a call and the dispatcher are agrees with the placements tried, the boots failed and the placements repeated, counted from the steps taken |
| PlacementHistory.AttemptsAreTries | internal/placement/service.go:254-310 | the dispatcher's attempts are the placements it tried for the request it handles, a grant carries their number, and a result adds one for each placement repeated after a failed boot |
| PlacementHistory.BootsAreBounded | internal/placement/service.go:259-282 | at most three boots are tried, and a call fails for it only after the third, past its deadline, or when no host took the VM again |
| PlacementHistory.RefusalsHaveCause | internal/placement/service.go:230-335 | a call is late or turned away only past its deadline, shut down only when cancelled or stopped, a duplicate only after a placement was tried |
| PlacementHistory.CountersTell | internal/placement/service.go:218-345 | the high-water mark is the longest queue recorded; accepted and released are the admissions begun and the releases that freed a slot |
| PlacementCauses.FlagsFollowSteps | internal/placement/service.go:190-236 | over every run a call is late, and the service cancelled or stopped, exactly when a step taken made it so; every call has an id |
| PlacementCauses.FailuresHaveCauses | internal/placement/service.go:214-338 | every failure of Admit has its cause among the steps taken: a deadline passed, a cancel or stop, a placement tried, a boot failed |
| PlacementCauses.LateRequestsAreNotTried | internal/placement/service.go:300-308 | the dispatcher goes on to place a request only if its deadline had not passed when it looked |
| PlacementCauses.NobodyIsTurnedAwayEarly | internal/placement/service.go:230-236 | a call is turned away from the queue only past its deadline |
| PlacementProgress.DispatcherStepsExactly | internal/placement/service.go:172-338 | in every reachable state the dispatcher's enabled steps are exactly those its code offers it there |
| PlacementProgress.DispatcherIsNotStuck | internal/placement/service.go:172-338 | so it rests only when it has exited, or has no request and is not to shut down |
| PlacementProgress.CallStepsExactly | internal/placement/service.go:214-282 | the same of every call of Admit: it waits only for room before its deadline or for its answer, and after a failed boot gives up exactly after the third or past its deadline |
| PlacementProgress.CallsAreNotForgotten | internal/placement/service.go:214-238 | a call without its answer has its request in the queue or with the dispatcher |
| PlacementWakeup.WaitsOnlyWhenFull | internal/placement/service.go:304-316 | the dispatcher starts waiting only when no ready host has a free slot, so no queued request could be placed either |
| PlacementWakeup.NewRoomIsAnnounced | internal/placement/service.go:341-359 | a step that makes room leaves the token set or somebody about to set it |
| PlacementWakeup.AnnouncementsLast | internal/placement/service.go:315-318 | only the dispatcher waking up consumes an announcement |
| PlacementWakeup.RunsKeepNoneMissed | internal/placement/service.go:298-359 | waiting while there is room is announced, in every reachable state |
| PlacementWakeup.NoLostWakeup | internal/placement/service.go:298-359 | and a step that leads the dispatcher out of waiting, without its retry timer, is enabled |
| PlacementOwnership.StepKeepsOwned | internal/placement/service.go:214-348 | every step of well-behaved clients, who may use an id again once no earlier call can touch its slot, keeps slots matched to the calls that claim them |
| PlacementOwnership.SlotsBelongToHolders | internal/placement/service.go:214-348 | over every such run, reused ids included, the assigned VMs are exactly those of calls granted, booting or returned and neither released nor displaced, each on the host its call was told, no two of them sharing a VM |
| PlacementOwnership.ReturnedCallsOwnWhatTheySay | internal/placement/service.go:214-282 | an Admit that failed holds no slot, any slot of its id being another call's; one that succeeded holds its slot until released or its host removed |
| PlacementOwnership.DisciplinedRunsSeeNoDuplicates | internal/placement/service.go:309-312 | in such runs the duplicate refusal never happens |
| PlacementReuse.ReuseIsSafeExactlyWhen | internal/placement/service.go:214-338 | a newly admitted call is never refused as a duplicate nor loses its slot to another call, in every continuation of well-behaved clients, exactly when no earlier call under its id can still touch the slot, or the dispatcher has begun to shut down |
| PlacementReuse.LiveCallHarms | internal/placement/service.go:238-338 | whatever an earlier call that can is at, it has a continuation that does the new call harm |
| PlacementReuse.ReleaseIsSafeExactlyWhen | internal/placement/service.go:341-348 | a release wrongs no call exactly when it is refused, or the call that holds the slot has returned |
| PlacementMisuse.DuplicateIdBreaksOwnership | internal/placement/service.go:214-316 | a run from a new service in which an id is admitted twice: the second call returns a failure, and the VM of that id holds a slot all the same |
| PlacementMisuse.EarlyReleaseLosesSlot | internal/placement/service.go:214-348 | a run from a new service in which a VM is released during its boot: its Admit succeeds with a host where it has no slot |
| PlacementShutdown.ExitIsFinal | internal/placement/service.go:172-188 | after the dispatcher has left nothing is answered or taken off the queue |
| PlacementShutdown.LateRequestIsNeverAnswered | internal/placement/service.go:202-238 | a request queued by then stays unanswered through every continuation |
| PlacementShutdown.UnansweredExactlyWhenSentAfterExit | internal/placement/service.go:172-238 | of the requests sent in a run in which the dispatcher exits, those no continuation answers are exactly the ones enqueued after the exit |
| PlacementShutdown.AdmitAfterShutdown | internal/placement/service.go:191-238 | a run that reaches such a call |
| PlacementService.Server.SignalCapacity | internal/placement/service.go:352-359 | the token is set afterwards, whatever it was |
| PlacementService.Server.ReleaseVM | internal/placement/service.go:341-348 | scheduler state, counter and token after a release, and nothing changed by a refused one |
| PlacementService.Server.Drain | internal/placement/service.go:202-211 | empties the queue, answering each request exactly once |
| PlacementService.Server.BootWithRetry | internal/placement/service.go:259-282 | left alone: at most three boots, all on the granted host; success keeps the slot, failure restores the scheduler to before the placement |
| RegistrySpec.OpKeepsAgreement | internal/registry/registry.go:113-242 | every operation keeps registry and scheduler in agreement |
| RegistrySpec.RunsAgree | internal/registry/registry.go:113-242 | after any operations tracked hosts are the ready ones, every other host drains since a recorded time, addresses and drain times name only tracked and existing hosts |
| RegistrySpec.SweepConservesVMs | internal/registry/registry.go:178-242 | in-flight VMs lost by a sweep are exactly the growth of Orphaned |
| RegistrySpec.RunsConserveVMs | internal/registry/registry.go:113-242 | in flight plus orphaned is placements less releases, over every run |
| RegistrySpec.GuestsOutliveSweepExactlyWhen | internal/registry/registry.go:178-242 | one sweep: a host with guests survives it exactly when heard from in time or within ForceRemoveAfter of its drain time; its guests go or stay with it |
| RegistryGrace.SurvivesUntilForced | internal/registry/registry.go:113-242 | over every run: a draining host that keeps a guest and is left alone survives all sweeps until ForceRemoveAfter past its recorded drain time |
| RegistryGrace.FullGraceExactlyWhen | internal/registry/registry.go:178-242 | a silent host with a guest survives the sweep that notices it and every continuation within ForceRemoveAfter of that sweep exactly when no earlier drain time is on record |
| RegistryGrace.RecordIsTrueStartUnless | internal/registry/registry.go:113-201 | over every run the drain time on record is that of the latest drain, or of an earlier one after which the host came back and a sweep drained it |
| RegistrySpec.StaleDrainTimeLosesGrace | internal/registry/registry.go:113-199 | a run in which a leftover drain time costs a host its grace and its guest |
| RegistrySpec.SilentHostIsReclaimed | internal/registry/registry.go:178-242 | under a monotone clock a silent host is gone with all assignments after a sweep past the timeout and one ForceRemoveAfter later, and stays gone |
| RegistrySpec.UninterruptedSweepDrains | internal/registry/registry.go:178-201 | the two locked halves of the drain make up the whole |
| RegistryContacts.SeenAtTheLatestContact | internal/registry/registry.go:113-205 | over every run a tracked host was last seen at the time of the latest registration or heartbeat accepted from it |
| RegistryContacts.HostInTouchStaysReady | internal/registry/registry.go:113-205 | a host that registers, is not deregistered, and calls at most the timeout before every sweep is tracked and ready at the end of every run |
| RegistryContacts.UnheardHostIsReclaimed | internal/registry/registry.go:178-242 | one whose every call lies more than the timeout before a sweep is gone, with all its assignments, after a sweep thirty seconds later, and stays gone |
| RegistryContacts.GraceIsThirtySeconds | internal/registry/registry.go:178-242 | a host with guests survives a sweep exactly while less than thirty seconds have passed since its drain time |
| RegistryContacts.SweepCountsTheForgotten | internal/registry/registry.go:178-205 | the count a sweep returns is that of the hosts it stopped tracking |
| RegistryContacts.AddressIsTheLatestGiven | internal/registry/registry.go:113-205 | over every run an address on record is the latest one given in a registration accepted |
| RegistryContacts.AddressIsKept | internal/registry/registry.go:113-205 | and one given is kept while the host is tracked |
| RegistrySteps.CallKeepsSettling | internal/registry/registry.go:113-174 | between any two steps of a sweep, every other call keeps agreement, but for what the sweep is yet to do |
| RegistrySteps.StepSettlesExactlyWhen | internal/registry/registry.go:178-242 | each step of a sweep keeps it exactly when the host it drains or removes is untracked, or the one whose drain time it deletes is not there untracked |
| RegistrySteps.RunSettlesExactlyWhen | internal/registry/registry.go:113-242 | over every run of sweeps and other calls it holds throughout exactly when every step of a sweep meets that check |
| RegistrySteps.GuardedRunsAgree | internal/registry/registry.go:113-242 | such a run from nothing agrees whenever no sweep is under way |
| RegistryAtomicity.UndisturbedSweepIsAtomic | internal/registry/registry.go:178-242 | a sweep that nothing comes between does what Sweep as one step does, in whatever order it goes through its hosts |
| RegistryRaces.UnguardedStepBreaks | internal/registry/registry.go:194-241 | a step that fails its check leaves a host tracked but draining, tracked but gone, or draining without a drain time |
| RegistryRaces.RacedHostStaysStuck | internal/registry/registry.go:113-242 | over every run in which it keeps in touch the first stays so, its guests a subset of those it had |
| RegistryRaces.GoneHostStaysGone | internal/registry/registry.go:113-242 | over every run in which it keeps in touch the second stays so, however often it registers |
| RegistryRaces.UnstampedHostGoesAtOnce | internal/registry/registry.go:209-242 | the third goes in the next sweep with its guests, whatever the time |
| RegistryRaces.GraceHoldsExactlyWhen | internal/registry/registry.go:194-242 | with a sweep under way at any point, a draining host with a guest survives every continuation that lets it be until ForceRemoveAfter past its drain time exactly when that sweep is not about to remove it or delete the time, and did not see it draining empty |
| RegistryRaces.DrainRace | internal/registry/registry.go:188-201 | a run in which a host registers between being forgotten and being drained |
| RegistryRaces.ReapRace | internal/registry/registry.go:215-229 | a run in which one registers between its check and its removal |
| RegistryRaces.StampRace | internal/registry/registry.go:229-240 | a run in which one comes back and drains between its removal and the deletion of its drain time |
| RegistryRaces.SnapshotRace | internal/registry/registry.go:211-229 | a run in which one comes back, gets a guest and drains between the snapshot and its check, and loses the guest without grace |
| RegistryImpl.PlacementIsAnOp | internal/scheduler/scheduler.go:180-241 | the scheduler's placements and releases are moves of the registry's runs |
| RegistryImpl.Registry.constructor | internal/registry/registry.go:93-109 | a new registry tracks nothing |
| RegistryImpl.Registry.Register | internal/registry/registry.go:113-146 | refuses exactly an empty id and an unknown host with fewer than two slots, refreshes the host's time, makes a new one ready; the notifier is told exactly for a host newly admitted |
| RegistryImpl.Registry.AddReady | internal/registry/registry.go:130-141 | adds a missing host, makes it ready, refuses only a capacity below the minimum |
| RegistryImpl.Registry.Heartbeat | internal/registry/registry.go:149-157 | sets the time of exactly a tracked host, and is refused otherwise |
| RegistryImpl.Registry.Deregister | internal/registry/registry.go:160-174 | stops tracking the host; drains and stamps one that was tracked, and fails for one that was not or that the scheduler does not have |
| RegistryImpl.Registry.Sweep | internal/registry/registry.go:178-205 | new state and count are the specification's, in any map order |
| RegistryImpl.Registry.CollectExpired | internal/registry/registry.go:182-187 | lists exactly the silent hosts, once each |
| RegistryImpl.Registry.DrainExpired | internal/registry/registry.go:194-201 | drains and stamps them, keeping earlier stamps |
| RegistryImpl.Registry.ReapEmptyDrainingHosts | internal/registry/registry.go:209-242 | removes exactly the reapable hosts and counts their guests |
| Regression.SumsOverPairs | internal/autoscale/autoscale.go:144-159 | numerator and denominator are sums over pairs of samples |
| Regression.SlopeIgnoresTimeBase | internal/autoscale/autoscale.go:144-148 | the slope does not depend on the time base |
| Regression.DenominatorIsPositive | internal/autoscale/autoscale.go:154-158 | two samples at distinct times make the denominator positive |
| Regression.SlopeIsPairQuotient | internal/autoscale/autoscale.go:144-159 | the slope is the mean of pairwise slopes weighted by squared gaps |
| Regression.SlopeWithinQuotients | internal/autoscale/autoscale.go:144-159 | the slope lies between the least and greatest consecutive difference quotient |
| Regression.SlopeExactOnLine | internal/autoscale/autoscale.go:124-160 | the slope is exact on a linear ramp |
| Regression.NewestRateRaisesSlope | internal/autoscale/autoscale.go:144-159 | raising the newest rate never lowers the slope |
| Autoscale.WindowIsExact | internal/autoscale/autoscale.go:132-137 | the samples kept are exactly those in the window, and always the newest two |
| Autoscale.SizingIsTight | internal/autoscale/autoscale.go:106-108 | the pod count is the least whose slots at the target hold the required VMs |
| AutoscaleRuns.DemandIsMetExactlyWhen | internal/autoscale/autoscale.go:99-111 | within the limits the demand is at most r exactly when r pods, filled to the target, hold the VMs that the rate plus the positive slope over the provisioning time keeps alive, and those in flight |
| AutoscaleRuns.AnswersMeetTheLoad | internal/autoscale/autoscale.go:99-122 | over every run: the lead term, predicted rate and predicted VMs in plain arithmetic; within the limits, pods the answer does not exceed hold the load, and an answer not held back is the least that do |
| Autoscale.ObservedSlopeIsMonotone | internal/autoscale/autoscale.go:126-160 | a higher newest rate never lowers the stored slope, window and all |
| Autoscale.DemandIsMonotone | internal/autoscale/autoscale.go:99-111 | raw demand never falls as rate and in-flight count rise, even through the slope |
| Autoscale.HistoryIsIncreasing | internal/autoscale/autoscale.go:126-137 | the history is increasing in time after any samples in any order |
| AutoscaleRuns.HistoryIsTheWindow | internal/autoscale/autoscale.go:126-160 | on samples increasing in time the slope is that of exactly the samples within the window, and always the newest two |
| AutoscaleRuns.SlopeIsOfTheHistory | internal/autoscale/autoscale.go:126-160 | over every run the stored slope is that of the stored history |
| AutoscaleRuns.LateSampleIsIgnored | internal/autoscale/autoscale.go:126-131 | a sample no later than one seen before changes neither |
| Autoscale.RunsRememberPeaks | internal/autoscale/autoscale.go:174-191 | the stored peak is the last output, and no demand as high and no fall is later than its time |
| Autoscale.OutputCoversDemand | internal/autoscale/autoscale.go:99-122 | over every run the output covers the demand, stays within the limits, and is flagged held exactly when above the demand |
| Autoscale.FallsOnlyAfterQuietWindow | internal/autoscale/autoscale.go:172-191 | when the output falls, no sample within the window demanded the previous output |
| Autoscale.FallsAreApart | internal/autoscale/autoscale.go:172-191 | two falls are at least the window apart |
| AutoscaleRuns.PeakIsTheLastFree | internal/autoscale/autoscale.go:172-191 | over every run the stored peak time is that of the latest answer not held back |
| AutoscaleRuns.HeldExactlyWhen | internal/autoscale/autoscale.go:172-191 | an answer is held back exactly when the demand is below the previous answer and less than the window has passed since the latest one that was not; it then repeats the previous one |
| Autoscale.NoWindowNoHold | internal/autoscale/autoscale.go:180-184 | a zero window holds nothing |
| Autoscale.Autoscaler.constructor | internal/autoscale/autoscale.go:90-96 | a new autoscaler has no history |
| Autoscale.Autoscaler.DecideOn | internal/autoscale/autoscale.go:99-122 | decision and new state are the specification's; lead term, predicted rate and predicted VMs in plain terms |
| Autoscale.Autoscaler.UpdateSlope | internal/autoscale/autoscale.go:126-160 | history and slope are the specification's |
| Autoscale.Autoscaler.Regress | internal/autoscale/autoscale.go:144-159 | the one-pass accumulator loop computes the slope |
| Autoscale.Autoscaler.ApplyStabilization | internal/autoscale/autoscale.go:174-191 | output and peak are the specification's |
| Autoscale.Autoscaler.Reset | internal/autoscale/autoscale.go:194-199 | back to a new autoscaler |
| FleetProtocol.NameReads | internal/sim/fleet.go:59-60 | a pod's name is vmhost- and its number in decimal, so it reads back |
| FleetProtocol.NamesDiffer | internal/sim/fleet.go:59-60 | pod names are distinct |
| FleetProtocol.SweepKeepsOk | internal/sim/fleet.go:138-151 | a host removed by the reaper has no guests, whatever came after the snapshot |
| FleetProtocol.MakeReadyKeepsOk | internal/sim/fleet.go:80-91 | a pod turning ready was pending, so a draining one never does |
| FleetProtocol.FreshFleetIsOk | internal/sim/fleet.go:18-36 | a new fleet is right to begin with |
| FleetProtocol.RunsKeepOk | internal/sim/fleet.go:30-152 | the loop's snapshots and sets stay right in every interleaving |
| FleetProtocol.GuestsStayPut | internal/sim/fleet.go:30-152 | over every run a VM not released stays on its host, which still exists |
| FleetProtocol.DrainingIsFinal | internal/sim/fleet.go:80-152 | a draining host is gone for good or still draining, and never gains a guest |
| FleetPass.UndisturbedPassReconciles | internal/sim/fleet.go:30-152 | the loop's steps, left alone, leave exactly what Reconciled describes, whatever order they take the sets in; no VM moves, and the new pods wait to be ready |
| FleetPass.LoopIsNotStuck | internal/sim/fleet.go:30-152 | in the middle of a pass the loop always has a step to take |
| FleetPass.PassGetsToItsEnd | internal/sim/fleet.go:30-152 | and from every state it gets to the end of the pass by its own steps |
| FleetPass.WaitingPodTurnsReady | internal/sim/fleet.go:70-91 | the readiness timer of a waiting pod, which is never a draining one, makes exactly that host ready |
| FleetPass.AbandonedPodStaysPending | internal/sim/fleet.go:70-75 | a pod whose timer comes after the cancel stays pending through every continuation, never ready and never removed |
| FleetPass.GuestIsServed | internal/scheduler/scheduler.go:180-198 | beside the loop, an unassigned VM is placed, and on a best host, exactly when some ready host has a free slot |
| FleetPass.GuestLeaves | internal/scheduler/scheduler.go:219-241 | and a release takes it off |
| FleetImpl.NamesAreOrderedByFirstDifference | internal/sim/fleet.go:105 | the order of names is that of their first difference, a prefix coming first |
| FleetImpl.SortedOrders | internal/sim/fleet.go:101-106 | the sort orders by guests and then by name, and loses nothing |
| FleetImpl.FirstAreEmptiest | internal/sim/fleet.go:101-108 | the first n sorted are the n ready hosts first by guests and then by name, in order |
| FleetImpl.PodFleet.constructor | internal/sim/fleet.go:18-27 | a new fleet tracks no pods |
| FleetImpl.PodFleet.MarkReady | internal/sim/fleet.go:80-91 | promotes and signals exactly a known pod that is not draining |
| FleetImpl.PodFleet.StartPod | internal/sim/fleet.go:58-75 | adds one host under the next name with every slot free, if a pod has two slots or more: ready, and the service told, without a start latency, and pending, the service not told, with one |
| FleetImpl.PodFleet.StartHosts | internal/sim/fleet.go:56-77 | adds exactly n such pods and changes no other |
| FleetImpl.PodFleet.DrainHosts | internal/sim/fleet.go:94-118 | drains the n ready hosts first in order; of all draining hosts exactly those without guests are gone |
| FleetImpl.PodFleet.ReapDrained | internal/sim/fleet.go:121-152 | removes exactly the draining hosts without guests and forgets those gone |
| FleetImpl.PodFleet.Reconcile | internal/sim/fleet.go:30-53 | every host, drained, removed, kept or new, and the draining set, as Reconciled says from the fleet before; the service is told exactly when pods became ready; no VM loses its host |
| FleetImpl.ReconcileReaches | internal/sim/fleet.go:30-53 | growing so reaches the desired live count exactly, if pods are large enough, and shrinking as far as there are ready pods |
| FleetImpl.GrowthServes | internal/sim/fleet.go:56-91 | growing without a start latency adds as many ready hosts as were missing, and any unassigned VM can then be placed |
| FakeHypervisor.StepIsSafe | internal/hypervisor/fake.go:119-243 | every step keeps the capacity bound and the wait-group count, and never panics |
| FakeHypervisor.RunsAreSafe | internal/hypervisor/fake.go:119-243 | in every interleaving at most Slots VMs run, the wait group is armed timers plus unfinished callbacks, nothing is sent on the closed channel, reports are read in order |
| FakeHypervisor.CloseIsSound | internal/hypervisor/fake.go:225-243 | once closing, the wait group only shrinks; once the channel is closed no callback is left |
| FakeOutcomes.StartIsAdmittedExactlyWhen | internal/hypervisor/fake.go:124-141 | a Start is admitted exactly when the hypervisor is open, its id is not running and fewer than Slots VMs are; one turned away changes nothing |
| FakeOutcomes.FirstComeFirstAdmitted | internal/hypervisor/fake.go:124-141 | of Starts under new ids the first are admitted, one for every free slot, and no more |
| FakeOutcomes.EverySlotCanBeUsed | internal/hypervisor/fake.go:124-141 | for every Slots a run in which that many VMs run |
| FakeOutcomes.OutcomesFollowHistory | internal/hypervisor/fake.go:143-243 | in every interleaving, how each Start ended and where its timer is are what the steps taken say: a boot that ends starts the VM unless it fails or finds the hypervisor closed, and a TTL arms its timer |
| FakeOutcomes.StopTakesOutTheRunning | internal/hypervisor/fake.go:203-219 | Stop takes out exactly the VM running under the id, its timer disarmed, and is refused exactly without one or once closed |
| FakeOutcomes.ExpiryTakesOutTheRunning | internal/hypervisor/fake.go:183-194 | a callback takes out the VM running under its id and goes on to report it, unless there is none |
| FakeOutcomes.ReportIsDroppedExactlyWhenFull | internal/hypervisor/fake.go:196-199 | a report is dropped exactly when four for every slot wait to be read |
| FakeOutcomes.CloseDisarms | internal/hypervisor/fake.go:225-238 | over every careful run, no timer is armed after Close but those of Starts that Stop had taken out |
| FakeOutcomes.CloseCanFinish | internal/hypervisor/fake.go:225-243 | once begun, Close can always get to closing the channel by steps of timers and callbacks alone |
| FakeFates.ReuseIsSafeExactlyWhen | internal/hypervisor/fake.go:119-219 | a newly admitted Start loses its slot to no other Start, in every continuation, exactly when no earlier Start under its id is booting or has its timer armed or fired |
| FakeFates.PendingRobs | internal/hypervisor/fake.go:143-200 | each such predecessor has a continuation that takes the slot |
| FakeFates.StepKeepsFates | internal/hypervisor/fake.go:119-243 | every step that admits ids with that care keeps each Start's fate accounted for |
| FakeFates.StepKeepsExclusive | internal/hypervisor/fake.go:183-243 | and keeps stop, expiry and report apart, each at most once for a Start |
| FakeFates.CarefulRunsSettle | internal/hypervisor/fake.go:119-243 | over every such run, reused ids included, a slot is held exactly until failure, stop, expiry or close, and no Start is stopped and reported, or either twice |
| FakeFates.RetryIsCareful | internal/hypervisor/fake.go:119-156 | starting an id again after its boots failed is such a step |
| FakeFates.DistinctIdsAreCareful | internal/hypervisor/fake.go:119-141 | so is every step of a run with distinct ids |
| FakeFates.StoppedIsNotReported | internal/hypervisor/fake.go:183-219 | with distinct ids no id is reported twice, and none that was stopped |
| FakeFates.StopDuringBootArmsTimer | internal/hypervisor/fake.go:164-177 | a VM stopped while booting still has its Start succeed and arm a timer |
| FakeFates.ArmedTimerReapsNewVM | internal/hypervisor/fake.go:164-200 | which takes out a successor that has no TTL |
| FakeFates.FiredTimerReapsNewVM | internal/hypervisor/fake.go:183-219 | so does a callback already fired when its VM is stopped |
| FakeFates.CancelledBootFreesNewVM | internal/hypervisor/fake.go:143-152 | and a cancelled boot frees the slot of the successor of its stopped VM |
| FakeImpl.Fake.constructor | internal/hypervisor/fake.go:83-94 | a new hypervisor runs nothing and satisfies the safety facts, which every method below keeps |
| FakeImpl.Fake.ReserveSlot | internal/hypervisor/fake.go:124-141 | each refusal exactly in its own case, in terms of the state before; otherwise a slot is taken before the boot, and nothing else changes |
| FakeImpl.Fake.ReleaseSlot | internal/hypervisor/fake.go:143-147 | gives back whatever slot the id holds |
| FakeImpl.Fake.Commit | internal/hypervisor/fake.go:164-177 | fails when closed, else starts and joins the wait group for a TTL |
| FakeImpl.Fake.TakeOut | internal/hypervisor/fake.go:183-194 | a callback takes out a running VM unless closed or gone |
| FakeImpl.Fake.Notify | internal/hypervisor/fake.go:196-199 | reports unless the buffer is full; a closed channel would panic |
| FakeImpl.Fake.LeaveAfterReport | internal/hypervisor/fake.go:172-175 | a callback done leaves the wait group, which never goes below zero |
| FakeImpl.Fake.StopVM | internal/hypervisor/fake.go:203-219 | takes out exactly a running VM of an open hypervisor and disarms its timer if still armed |
| FakeImpl.Fake.BeginClosing | internal/hypervisor/fake.go:225-238 | empties the running set and takes exactly the armed timers of running VMs out of the wait group, in any map order, never below zero |
| LoadEnvelope.RateBounds | internal/loadgen/envelope.go:42-85 | the rate is between zero and the peak at every instant, for every nesting |
| EnvelopeShape.RampIsPiecewiseLinear | internal/loadgen/envelope.go:42-57 | a ramp climbs in a line, holds its peak, comes down in a line, and is silent outside |
| EnvelopeShape.EveryCycleReplaysTheRamp | internal/loadgen/envelope.go:73-93 | at every instant of any nesting of repetitions the rate is that of the ramp at the bottom, so far into its cycle |
| EnvelopeShape.SilentWithoutRamp | internal/loadgen/envelope.go:73-101 | an envelope that plays no ramp has no duration, no peak and no rate |
| EnvelopeShape.PeakIsTheRamps | internal/loadgen/envelope.go:63-101 | any other has the peak of its ramp |
| EnvelopeShape.PeakIsReachedExactlyWhen | internal/loadgen/envelope.go:42-101 | the peak rate is reached at some instant exactly when nothing is played, the ramp holds or comes down, or the peak is zero |
| EnvelopeShape.AreaOfTheCycles | internal/loadgen/envelope.go:103-122 | the area is the cycles played times the peak times half the climb, the hold and half the descent, in seconds of a thousand million nanoseconds |
| LoadEnvelope.AlignedEnds | internal/loadgen/envelope.go:42-93 | an aligned envelope is a whole number of steps long and silent at both ends |
| LoadEnvelope.RampIsExact | internal/loadgen/envelope.go:42-57 | the trapezoid rule is exact on a ramp whose legs are whole steps |
| LoadEnvelope.RateInCycle | internal/loadgen/envelope.go:73-85 | inside a cycle, and at both its ends, a repetition plays its inner envelope |
| LoadEnvelope.AlignedIsExact | internal/loadgen/envelope.go:106-122 | and on any nesting of repetitions |
| LoadEnvelope.ExpectedArrivals | internal/loadgen/envelope.go:106-122 | the loop computes the trapezoid sum, and zero in the degenerate cases |
| LoadEnvelope.ExpectedIsIntegral | internal/loadgen/envelope.go:106-122 | which is exactly the area, Times * Peak * (Up/2 + Hold + Down/2) in seconds for a repeated ramp, when the step fits every leg |
| EnvelopeExactness.ExactExactlyWhen | internal/loadgen/envelope.go:42-122 | over one ramp, any that passes validation, the sum never exceeds the area, and equals it exactly when the ramp ends in a slope, the steps divide the run and the step divides every leg, or the peak is zero |
| EnvelopeExactness.RepeatedExactExactlyWhen | internal/loadgen/envelope.go:42-122 | for ramps with a climb in any nesting of repetitions and steps that divide each cycle, the sum never exceeds the area, and equals it exactly when the step finds every leg of the ramp, or the peak is zero |
| EnvelopeExactness.RepetitionCanCancel | internal/loadgen/envelope.go:73-122 | three repetitions of a ramp that four steps sum exactly although the step fits no leg |
| LoadEnvelope.OneStepSeesNothing | internal/loadgen/envelope.go:106-122 | in one step such a run offers nothing |
| LoadEnvelope.ExpectedWithinPeak | internal/loadgen/envelope.go:106-122 | for any step count the sum is between zero and the peak kept up for the whole run |

## Left out

- PlacementFlow.RunsKeepFlow: the service's goroutines are steps over values, not a concurrent
  object; only the loops it runs alone are methods. A counter is bumped in the step that makes the
  decision it counts, so a reader between the two would see one less.
- FakeHypervisor.RunsAreSafe: likewise for the hypervisor's goroutines; a critical section is a
  step, and Close's walk over the running VMs is one.
- RegistrySteps.RunSettlesExactlyWhen: Register and Deregister, which also let go of their lock, are
  single steps, and so are a removal and the count of its orphans; one goroutine sweeps.
- RegistryGrace.FullGraceExactlyWhen: each registry method is one step; with a sweep under way
  RegistryRaces.GraceHoldsExactlyWhen is the statement.
- FleetProtocol.GuestsStayPut: nobody but the fleet adds, removes or changes the state of a host,
  as in the simulation, and one control loop runs at a time.
- FleetImpl.PodFleet.StartHosts: pods with a start latency stay pending; their timers are steps of
  FleetProtocol, and FleetPass says what they do.
- PlacementOwnership.SlotsBelongToHolders: for clients that use an id and release it as
  PlacementReuse finds safe; PlacementMisuse has runs of clients that do not.
- LoadEnvelope.ExpectedIsIntegral: a sufficient condition; RepeatedExactExactlyWhen makes it exact for
  steps that divide each cycle. For other steps over repeated ramps errors can cancel, and no
  condition is given.
- That timers fire and goroutines run is not stated, so neither is that every request is eventually
  answered: only that the step to take is always there.
- Clocks, deadlines, boot outcomes, random draws and latencies are parameters or arbitrary choices.
- Float rounding and the overflow of durations and counters: rates are reals, everything else
  unbounded integers.
- HTTP handlers, JSON, the agent and its client; Boot is an arbitrary success or failure.
- `internal/hypervisor/qemu.go`: the fake's bookkeeping, plus processes and pipes.
- `internal/metrics`, logging, `cmd/`, manifests and scripts.
- Random sampling and its statistics, percentiles, and the wall-clock harness of
  `internal/sim/sim.go`.
- Config defaults and most validation: configurations are taken as validated, and a microVM spec
  too.

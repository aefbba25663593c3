# NeuroStream kernel: a verified model

NeuroStream simulates one shared bus that carries audio packets, texture blocks and neural-network
weights for game characters. This project models its discrete-event kernel in Dafny and proves what the
kernel keeps over every run: the event queue and clock, the quantum-based bus scheduler under both of its
policies, the traffic generators, the three predictors that decide which weights to fetch, the bounded
weight cache, the latency histogram, and the drain loop that drives them.

## How it is organised

The source is object code that changes its fields, so every core component appears twice.

* **On values.** `Scheduling` gives the bus as a value with six acts (time passes, a transaction arrives,
  an expired head is dropped, tokens are refilled, a quantum begins, a quantum ends); `Runs` defines runs
  of acts; `Operations` shows that the scheduler's own operations are such runs. `Prefetching` and
  `LodSelection` give the predictors, `NpuCaches` the admission specification, `Simulation` the whole
  machine: one `Step` per fired event, a `History` per run.
* **As objects.** `EventQueues`, `NpuCaches`, `LatencyHistograms`, `Schedulers`, `Injectors`, `Predictors`
  and `Runner` hold the classes, with the loops and in-place updates of the original; each method's
  contract equates the new state with the operation on values applied to the old state.

The theorems are about the values, for all inputs, all runs, all reachable states. `Runner.RunOne` ties
the two together: it is `run_one` as a method, for every set-up, proved to terminate with the result of a
complete `History` or with the exception that the original throws, each exactly when it does. The objects only follow
the operations on values; that those are the right ones is the matter of the theorems, which therefore speak
of configuration fields, deadlines, bytes and times as the source names them.

| file | content |
|---|---|
| `Base`, `Configuration`, `Events` | vocabulary, the configuration fields in use, scheduled closures as data |
| `Scheduling`, `Runs`, `Operations`, `AdmissionCosts` | the scheduler on values and its operations |
| `Lifecycle`, `TraceTheorems`, `Deadlines`, `KpiAgreement` | identity, conservation, lifecycle language, deadlines, counters |
| `Slicing`, `Bandwidth` | service time under slicing, the bandwidth bound |
| `RoundRobin`, `FairQueueing` | fairness within a queue and between the bulk classes |
| `TokenBucket`, `RateLimits` | the rate limit, what it means for bytes served, and who is never served |
| `AudioGuarantee`, `BulkShare` | the latency guarantee of audio, and what it leaves to bulk traffic |
| `EventQueues`, `FiringOrder` | the tombstone queue against an eager one, firing order of whole runs |
| `LatencyHistograms` | the histogram against the sorted sample list |
| `NpuCaches`, `LodSelection`, `Prefetching`, `SlotSafety`, `Scenes` | cache, hysteresis, predictors, slots and pins |
| `Simulation`, `SimulationSafety`, `LaneSums` | the composed machine and its invariant |
| `EventTimes`, `TrafficRuns` | what the generators offer over whole simulations |
| `PrefetchProtocol`, `FetchRuns`, `LevelRuns`, `Interactions`, `CacheRuns` | the predictors over whole simulations |
| `Termination`, `RunGuarantee`, `BulkRuns`, `RunFacts` | further theorems about whole simulations |
| `Schedulers`, `Injectors`, `Predictors`, `Runner` | the objects and the drain loop |

Modelling choices: doubles are exact reals or integers (tokens, virtual times, distances; logarithms by
`2^b <= us*us < 2^(b+1)`); 32-bit casts and sums are written out where the code has them; a transaction
carries the serial number of its acceptance as identity, because `tx.id` is numbered per source; the trace
writer is the log of what happened; exceptions are results; positions, facing and frustum tests are
arbitrary functions of time; ties that the hash map's order decides are a relation.

Where the code and its documentation differ the model follows the code: `latency_histogram.hpp` promises
percentiles rounded up over 1 us to 10 s, the code does so up to 2^25 us and no further; the comment on
bucket 49 names 22.6 to 32 ms; `scheduler.hpp` gives the lifecycle as arrival, service start, completion or
drop, but a drop can come before service; `Design_Detail.md` says the rate limit keeps the critical class
from starving bulk, but the limit is on bytes while each quantum takes at least a microsecond, and the text
is silent about the converse, a critical head without tokens on an idle bus that nothing wakes; interactions
on saturated cores are counted but not queued.

## Claims that are false of the code, and their exact conditions

* The rate limit does not by itself keep bulk from starving: with a feasible audio flow bulk that waits gets
  its share of every window when a packet takes less than its period (`BulkShare.BulkGetsItsShare`, in whole
  simulations `BulkRuns.BulkShareInRuns`), and when it takes all of it there are histories of any length in
  which bulk gets nothing (`BulkShare.BulkNeverServed`).
* An idle bus need not mean empty queues under QoS: `Operations.IdleIffNothingToServe`. A critical transaction
  whose first charge exceeds the bucket is served in no run, whatever else arrives: `RateLimits.TooDearForEver`;
  without a critical share that is every one: `RateLimits.StarvedForEver`.
* Charged bytes need not be served bytes, in either direction: `RateLimits.ChargeIsServedExactly`, with
  `RateLimits.ChargeCanExceedServed` and `RateLimits.ServedCanExceedCriticalCharge`. For critical audio they
  are equal in every run: `RateLimits.AudioPaysWhatItGets`.
* Pins need not equal occupied slots: `SlotSafety.HandleKeeps` (exactly when a slot is not re-used) and
  `Scenes.LeakReached`, a scene that leaves a pin behind.
* An interaction that is going on at a tick need not be served: `Interactions.ServedOnceIff` (each is, exactly
  once, iff no two of one NPC that some tick meets agree modulo 256 ms) and `Scenes.CollisionReached`.
* Sizes do not always identify levels: `Prefetching.RoundTripIff`.
* The cache's room test wraps at 32 bits: `NpuCaches.GuardExactIff` and `NpuCaches.WrapOverfills`.
* A bounce path can round to bandwidth zero: `Configuration.ServableIsExact`.
* A percentile can lie below the order statistic: `LatencyHistograms.PercentileWithinRoot2`.
* The clock of the event queue can throw: `EventQueues.ThrownIffLate` (exactly when an event scheduled in the
  past is neither cancelled nor gone by a pop); in a simulation it can only do so at the start:
  `FiringOrder.FirstEventAcceptedIff`.

## Model

| member | source | states |
|---|---|---|
| Runner.RunOne | src/main.cpp:25-68 | a simulation of any set-up always ends: with the clock's exception iff an effective burst starts before time zero, else with the injector's iff some run comes to a tick that asks for a level without weights (which takes a band that names one), else with counters, histogram percentile and wall clock of a complete run; then FIFO leaves nothing behind, only audio is ever dropped, and with a feasible audio flow every transaction completes |
| Runner.Simulator.Drain | src/main.cpp:61 | the drain loop terminates: with an empty queue after a run of steps from the initial state, or with one of the two exceptions, the clock's iff the set-up is not well posed |
| Runner.DoneNeverThrows | src/main.cpp:61 | a set-up that has a complete run has none in which a tick throws |
| Runner.NeverStuck | src/injector.cpp:82-90 | when every band names a level with weights no tick of a run throws |
| Runner.Simulator.PopAndRun | include/neurostream/event_queue.hpp:34-44 | one round is one step of the machine, or finds nothing pending, or ends in the clock's exception iff the next event lies in the past, or in the injector's at a tick that asks for an unknown level |
| Runner.Simulator.Take | include/neurostream/event_queue.hpp:34-44 | the earliest event is taken and the clock moved to its time before the handler runs |
| Runner.Simulator.Start | src/main.cpp:47-59 | the wiring puts exactly the initial events into the queue: audio, bursts, first tick or scripted fetches |
| Runner.Simulator.FireQuantum | src/main.cpp:56-59 | a quantum end drives scheduler and completion observer as one step |
| Runner.Simulator.Result | src/main.cpp:63-67 | counters, percentile and wall clock reported are those of the final state |
| Runner.Wire | src/main.cpp:35-55 | freshly wired components represent the empty machine |
| Termination.StepBurns | src/main.cpp:61 | every step of every run burns fuel: remaining generator firings weighted by the quanta they can create, plus quanta left |
| Termination.RunsEnd | src/main.cpp:61 | no run has more steps than its initial fuel |
| Termination.EndDrained | src/scheduler.cpp:143-220 | when the loop ends the bus is idle; FIFO has issued = completed + dropped; QoS has empty bulk queues and only critical transactions behind a head the tokens do not cover |
| Termination.AcceptWork | src/scheduler.cpp:33-103 | accepting a transaction adds at most the quanta of that transaction |
| Termination.ChainPays | src/injector.cpp:28-75 | a self-rescheduling chain pays for each transaction with the time it has left |
| Termination.TickFuel | src/predictor.cpp:370-436 | a tick pays for every fetch it can ask for |
| LaneSums.QuantumEndWorks | src/scheduler.cpp:143-194 | every quantum end strictly reduces the quanta left in the system |
| SimulationSafety.StartDropsAudio | src/scheduler.cpp:202-268 | in a simulation nothing but audio is ever dropped before service |
| LaneSums.StartSum | src/scheduler.cpp:105-118 | starting the next quantum loses nothing but overdue transactions |
| SimulationSafety.StepInv | src/main.cpp:61 | every handler keeps the invariant of the composed machine |
| SimulationSafety.HistoryInv | src/main.cpp:25-68 | the invariant holds in every state of every run |
| SimulationSafety.PullInv | include/neurostream/clock.hpp:11-14 | the next event is never in the past and time never passes a pending quantum end |
| SimulationSafety.TickAsks | src/predictor.cpp:121-152 | a tick asks for weights not in flight, each once, and remembers exactly those |
| SimulationSafety.VisitByDistanceAsks | src/predictor.cpp:126-142 | a tick of the distance predictor asks for nothing that is in flight or resident, and for nothing twice |
| FetchRuns.AsksAtMostOnce | src/predictor.cpp:126-158 | over a whole run the distance predictor asks for the weights of each (npc, lod) at most once, and with distinguishable sizes exactly once iff they are in flight or resident |
| LevelRuns.WantedAlwaysKnown | src/predictor.cpp:126-158 | once a tick has been, the weights of the level wanted for each NPC are in every state in flight or resident |
| LevelRuns.LevelsFollow | src/predictor.cpp:121-134 | in every state of every run the level of each NPC is the one decided from a cold start after its distances at the ticks so far, each decision starting from the previous one |
| LevelRuns.DemotionsOfRun | src/predictor.cpp:81-134 | so the demotions of an NPC in a run times the smallest deadband never exceed the way its distance travels |
| LevelRuns.TickFetchesWanted | src/predictor.cpp:370-427 | after a tick of the intent predictor the level chosen for each NPC is in flight or resident |
| FetchRuns.NothingInFlightAtEnd | src/predictor.cpp:154-158 | when the loop ends nothing is in flight, under FIFO and whenever weights are not critical |
| Interactions.ServedOnceIff | src/predictor.cpp:412-418 | over a whole simulation the handled keys are those of the interactions going on at some tick of the schedule, hits and misses count the served ones, and each is served exactly once iff no two of one NPC agree modulo 256 |
| Interactions.ServiceIsFirstOfKey | src/predictor.cpp:384-418 | in every state of every run served are, in order, the first of each key among the interactions the ticks have met |
| Interactions.HandledIff | include/neurostream/predictor.hpp:172-175 | an interaction that is going on is handled and counted iff none of its NPC handled before agrees with it modulo 256 |
| Interactions.ActiveIsFirst | src/predictor.cpp:388-396 | the interaction found is the first listed one of the NPC whose window contains the time, none iff there is none |
| Interactions.TicksAreRegular | src/predictor.cpp:429-435 | the fired ticks of every run are the first multiples of the period, and the next is pending iff the scenario is not over by then |
| RunFacts.OneQuantumEnd | src/scheduler.cpp:105-141 | in every state of every run a quantum end is pending iff the bus is busy, exactly one, and it is the due one |
| RunFacts.SchedulerCountersAgree | src/scheduler.cpp:99-190 | in every state of every run counters are tallies, audio statistics are the histogram's, issued = completed + dropped + in the system, and only audio is dropped |
| RunFacts.PredictorAgrees | src/predictor.cpp:259-291 | in every state of every run hits + misses = interactions handled, degradations = misses, slots are safe, and pins are exact for disjoint windows |
| CacheRuns.SlotsAreCores | src/predictor.cpp:177 | in every state of every run there is one slot per configured core |
| CacheRuns.CacheHoldsWeights | src/predictor.cpp:438-467 | in every state of every run each resident entry is a level of its NPC with its configured megabytes and the NPC's distance at the last access; below two gigabytes the configured megabytes of the resident keys fit the capacity |
| CacheRuns.DeliveriesAccounted | src/predictor.cpp:457-467 | in every state of every run each completed weight transfer was stored, and is resident or counted as an eviction, or is counted as a refusal |
| CacheRuns.TickRefreshes | src/predictor.cpp:403-409 | after a tick the chosen level of each NPC, if resident, carries the tick's time and distance; every other entry too, or its old ones |
| CacheRuns.HandleRefreshes | src/predictor.cpp:286-292 | an interaction that gets a slot refreshes the finest resident level that is not finer than desired |
| RunGuarantee.NoRunDropsAudio | src/scheduler.cpp:254-284 | in every state of every simulation with a feasible audio flow as the only critical source: no audio drop, every pick within the longest quantum, every completion a service later |
| RunGuarantee.ShippedFits | config.yaml:8-90 | the shipped configuration satisfies those hypotheses for every scenario |
| BulkRuns.BulkShareInRuns | Design_Detail.md:428-434 | in every simulation with a feasible audio flow as the only critical source, over every window in which bulk waits, bulk gets 1 - service/period of the bus less a constant |
| RunGuarantee.StepTimely | src/injector.cpp:28-43 | each step keeps the bound and keeps audio at least a period apart |
| PrefetchProtocol.InFlightExactly | src/predictor.cpp:420-440 | in every state of every run a key (npc, lod) is in flight iff exactly one load of its weights is between issue and completion, never two |
| PrefetchProtocol.StepTracked | src/injector.cpp:82-103 | each handler keeps the in-flight set right |
| PrefetchProtocol.StartKeepsLoads | src/scheduler.cpp:202-215 | weights are never dropped |
| PrefetchProtocol.DeliveredLevel | src/scheduler.cpp:168-180 | the size of a completed transfer decodes to the level it was issued for, and to no other |
| PrefetchProtocol.FetchesOnce | src/predictor.cpp:420-426 | a tick asks for the weights of a key once iff the key becomes in flight |
| TrafficRuns.AudioIsRegular | src/injector.cpp:24-43 | in every state of every run the audio offered so far are the first packets, one per period and the first after one, each of the configured size and class, issued at its time with its deadline, and the next is pending iff audio is on and the scenario lasts |
| TrafficRuns.AudioOfRun | src/injector.cpp:24-43 | at the end of a run exactly the packets due before the end of the scenario have been offered |
| TrafficRuns.BlocksOfRun | src/injector.cpp:50-75 | at the end of a run there has been, at each time, one texture block per burst with a block due then |
| TrafficRuns.BlocksConserved | src/injector.cpp:60-75 | in every state of every run blocks accepted at a time and blocks still to come at it are those due |
| TrafficRuns.FetchesOfRun | src/injector.cpp:82-103 | at the end of a run each fetch has become one transfer, accepted when it was asked for, with the configured bytes of its level |
| TrafficRuns.FetchesConserved | src/injector.cpp:82-103 | in every state of every run fetches asked for at a time are the transfers accepted at it and the issues pending for it |
| TrafficRuns.OffersAreGenuine | src/injector.cpp:31-103 | every accepted transaction has the class, size, deadline and issue time its generator gives it, and each source numbers its own from one |
| FiringOrder.RunFiresInOrder | include/neurostream/event_queue.hpp:58-67 | over a whole run fired (time, number) pairs strictly increase lexicographically |
| FiringOrder.ClockNeverThrows | include/neurostream/clock.hpp:11-14 | the exception of the clock is unreachable in every run |
| FiringOrder.FirstEventAcceptedIff | src/injector.cpp:50-58 | the clock accepts the first event iff no effective burst starts before time zero |
| FiringOrder.StepGrown | include/neurostream/event_queue.hpp:17-21 | a step adds only events numbered after all pending ones |
| EventQueues.EventQueue.Schedule | include/neurostream/event_queue.hpp:17-21 | inserts into the sorted pending list under the next number, with a fresh live handle |
| EventQueues.EventQueue.Cancel | include/neurostream/event_queue.hpp:23-25 | flipping the flag equals deleting the event from the pending list; null or fired handles change nothing |
| EventQueues.EventQueue.PopNext | include/neurostream/event_queue.hpp:34-44 | takes the first pending event whatever tombstones lie above it; the clock moves to its time or refuses; reports an empty queue |
| EventQueues.EventQueue.PeekTime | include/neurostream/event_queue.hpp:48-55 | the time of the event that the next pop takes, or the invalid time |
| EventQueues.EventQueue.Top | include/neurostream/event_queue.hpp:64-66 | the entry earlier than every other by time, then number |
| EventQueues.EventQueue.Remove | include/neurostream/event_queue.hpp:36-38 | removing a tombstone leaves the pending events alone; removing a live top removes the first of them |
| EventQueues.Clock.AdvanceTo | include/neurostream/clock.hpp:11-14 | moves to a later time and refuses an earlier one |
| EventQueues.FiringsIncrease | include/neurostream/event_queue.hpp:30-44 | over every history of schedules, cancellations and pops firings strictly increase by time and number, a refused pop ending the history |
| EventQueues.ThrownIff | include/neurostream/clock.hpp:11-14 | from any queue the clock throws iff some event scheduled in the past is still pending at a pop |
| EventQueues.ThrownIffLate | include/neurostream/clock.hpp:11-14 | so from the empty queue, where the caller can tell from its own schedules and cancellations |
| EventQueues.LateEvent | include/neurostream/event_queue.hpp:34-44 | a late event that is refused, and the same one cancelled in time |
| EventQueues.ApplyGood | include/neurostream/event_queue.hpp:17-44 | scheduling, cancelling and popping keep the pending list sorted with distinct numbers |
| Configuration.ServableIsExact | src/scheduler.cpp:50-97 | the condition under which every source gets a positive bandwidth, iff |
| AdmissionCosts.BounceIsSeries | src/scheduler.cpp:50-53 | the bounce bandwidth is the largest whose time per byte covers two bus passes and one copy |
| AdmissionCosts.QuantumAndEntries | src/scheduler.cpp:42-66 | the shortest quantum carrying one scatter-gather entry, the fewest entries holding the bytes, and the path by source and configuration |
| AdmissionCosts.CompressedBandwidth | src/scheduler.cpp:68-97 | exactly: the plain bandwidth times the ratio, capped by the decompressor, in whole bytes and at least one |
| AdmissionCosts.CycleTotals | src/scheduler.cpp:157-159 | in every run the cycle counters are the prices of the completed transfers by path, whatever was dropped, started or interleaved |
| AdmissionCosts.ZeroCopySaves | src/scheduler.cpp:42-58 | the same completed transfers cost fewer cycles by zero-copy than bounced iff the set-ups cost less than the copied bytes |
| AdmissionCosts.PeriodIsNearest | src/injector.cpp:18-21 | generator periods are the exact period to the nearest microsecond, at least one |
| Operations.AcceptRuns | src/scheduler.cpp:33-103 | accepting is a run of enabled acts and takes no time |
| Operations.QuantumEndRuns | src/scheduler.cpp:143-194 | ending a quantum is a run of enabled acts and takes no time |
| Operations.DropExpiredRuns | src/scheduler.cpp:202-215 | the drop loop ends with a head that may be served |
| Operations.IdleIffNothingToServe | src/scheduler.cpp:105-118 | the bus stays idle iff the queues are empty, save for a critical head beyond the tokens |
| Operations.OperationsSettle | src/scheduler.cpp:254-305 | work conservation: after every operation an idle bus has nothing it may serve |
| Operations.FirstCriticalServedIff | src/scheduler.cpp:270-284 | the first critical transaction is served iff the full bucket covers its charge |
| Lifecycle.ReachableCoherent | src/scheduler.cpp:99-190 | every run keeps identities distinct, located where their trace says, and counted |
| Lifecycle.ActCoherent | src/scheduler.cpp:99-190 | each act keeps that coherence |
| TraceTheorems.LifecycleLanguage | src/scheduler.cpp:99-190 | each transaction's milestones are a prefix of Arrive (Drop or Start (Complete or Drop)); a drop comes at or after a positive deadline; at most one quantum begins at or after it |
| Deadlines.DeadlinesKept | src/scheduler.cpp:181-268 | in every run: drops are at or after a positive deadline and take an unstarted transaction of FIFO or the critical class or one whose quantum has just ended; nothing of FIFO or the critical class starts at or after its deadline; nobody has two quanta that begin late |
| TraceTheorems.Conservation | src/scheduler.cpp:99-190 | issued = completed + dropped + queued + in service; an identity is in the system iff its trace is open, and then once |
| TraceTheorems.TransferTime | src/scheduler.cpp:120-149 | a completed transaction held the bus for floor to ceil of size over bandwidth, at least 1 us, for every quantum length |
| TraceTheorems.CompletionFinal | src/scheduler.cpp:151-156 | nothing happens to a transaction after its completion |
| Slicing.SliceBounds | src/scheduler.cpp:120-149 | slicing telescopes: the sum of the quanta is the exact transfer time to within a microsecond |
| Slicing.BounceNeverFaster | src/scheduler.cpp:42-54 | an uncontended uncompressed bounce transfer is never faster than zero-copy |
| Slicing.HalfBus | src/scheduler.cpp:50-53 | a bounce transfer gets at most half the bus |
| Slicing.ReachableAccounted | src/scheduler.cpp:120-149 | bus time spent plus bus time to come is the planned total for every transaction in every run |
| Bandwidth.BandwidthBound | src/scheduler.cpp:120-149 | finished quanta never overlap, and bytes served respect the largest bandwidth up to rounding per completion |
| Bandwidth.QuantumShare | src/scheduler.cpp:126-149 | one quantum moves at most its share of bytes, plus the rounding of a last one |
| RoundRobin.RoundRobinFair | src/scheduler.cpp:189-252 | two transactions of one queue, FIFO's or a class's, that both stay start quanta whose counts differ by at most one |
| RoundRobin.PickedWithin | src/scheduler.cpp:198-252 | at index i of a queue a transaction is picked or dropped after at most i further picks from it |
| RoundRobin.FirstServicesInOrder | src/scheduler.cpp:198-252 | first services follow acceptance, overall for FIFO and within each class for QoS |
| FairQueueing.SharesByWeight | src/scheduler.cpp:285-304 | over any contended segment of any run, from the band of the start, bytes charged to high times the normal weight and to normal times the high weight differ by at most one default quantum of each class; weights below one count as one |
| FairQueueing.BulkPickRule | src/scheduler.cpp:285-303 | when both bulk classes wait, high is next iff it is not ahead in weighted bytes charged so far; a tie goes to high |
| FairQueueing.WeightedFair | src/scheduler.cpp:285-304 | over any contended segment weighted charged bytes differ by at most one weighted quantum of each class |
| FairQueueing.ActInBand | src/scheduler.cpp:285-304 | a contended pick keeps the gap of virtual times between minus Q over w_normal and Q over w_high |
| FairQueueing.GapIsCharge | src/scheduler.cpp:300-303 | the gap moves exactly as the weighted charges do |
| FairQueueing.NormalWaits | src/scheduler.cpp:285-304 | a backlogged normal class waits for at most lag times w_high plus one quantum of high bytes |
| FairQueueing.NormalWaitsBytes | src/scheduler.cpp:285-304 | the same in bytes of any run: what high was behind its due plus one default quantum |
| TokenBucket.WindowBytes | src/scheduler.cpp:224-281 | over any window of any run a hundred times the critical charge is at most the window plus ten milliseconds times bus times percentage |
| TokenBucket.WindowBound | src/scheduler.cpp:224-281 | over any window of any run critical charges are within the capacity plus the refill of the window |
| TokenBucket.TokensReturn | src/scheduler.cpp:236-244 | up to date tokens cover, with what was charged since any earlier state, the percentage of the bus for that time, up to ten milliseconds |
| TokenBucket.FullAtStart | src/scheduler.cpp:224-234 | up to date tokens and all charges so far cover ten milliseconds of the share: the bucket starts full |
| TokenBucket.PassedOverOnlyIf | src/scheduler.cpp:270-284 | a critical head is passed over only when its charge and the charges since any earlier state exceed the share of that time, up to ten milliseconds |
| TokenBucket.ReachableBucket | src/scheduler.cpp:236-244 | tokens stay between zero and the capacity |
| TokenBucket.ActPotential | src/scheduler.cpp:236-281 | no act charges more than it takes out of the bucket |
| RateLimits.ChargeIsServedExactly | src/scheduler.cpp:270-303 | a pick of any class is charged what its quantum serves iff the most it can be charged is the chunk or both cover the rest |
| RateLimits.ChargeCanExceedServed | src/scheduler.cpp:300-303 | a bounce transfer that is charged for bytes it does not get |
| RateLimits.ServedCanExceedCriticalCharge | src/scheduler.cpp:270-281 | a compressed critical transfer that gets four times what it is charged, so that the limit does not bound it |
| RateLimits.AudioPaysWhatItGets | src/scheduler.cpp:60-66 | in every run every critical audio quantum is charged exactly the bytes it serves |
| RateLimits.ServedWindowBound | src/scheduler.cpp:224-281 | over any window of any run the bytes served to critical audio are within the capacity, the refill, and the quantum that was running |
| RateLimits.ReachableRight | src/scheduler.cpp:33-103 | in every run every quantum was begun from the queue of its class with the parameters of its source and at its charge |
| RateLimits.TooDearForEver | src/scheduler.cpp:270-288 | in no run, whatever arrives, is a critical transaction served whose first charge exceeds the whole bucket |
| RateLimits.StarvedForEver | src/scheduler.cpp:229-288 | without a critical share no run serves a critical transaction of positive size |
| AudioGuarantee.AudioAlwaysOnTime | src/scheduler.cpp:254-284 | over every history of a feasible flow and any bulk traffic: no drop, pick within the longest quantum, completion a service later |
| AudioGuarantee.SubmitOnTime | src/scheduler.cpp:33-103 | an arrival keeps the line of waiting packets within its bounds and funded |
| AudioGuarantee.FireOnTime | src/scheduler.cpp:143-194 | a quantum end keeps them too |
| AudioGuarantee.BucketCovers | src/scheduler.cpp:229-232 | a bucket for the longest line plus one packet covers every line that can form |
| AudioGuarantee.TenMillisecondsSuffice | src/scheduler.cpp:229-232 | ten milliseconds of refill are such a bucket whenever a worst quantum and two periods fit into them |
| AudioGuarantee.NobodyOverstays | src/scheduler.cpp:254-284 | a packet still in the system has not outlived its bound |
| BulkShare.BulkGetsItsShare | Design_Detail.md:428-434 | under a feasible flow bulk that always waits gets 1 - service/period of every window less a constant, whatever else arrives |
| BulkShare.BulkNeverServed | Design_Detail.md:428-434 | when a packet takes its whole period, under every configuration the flow is feasible for, there are histories of any length in which a bulk transaction of the start is never served |
| BulkShare.WindowAccounts | src/scheduler.cpp:105-141 | while the bus is busy all time is audio's or bulk's, and what audio takes or is owed grows only by the packets that arrive |
| KpiAgreement.CountersAgree | src/scheduler.cpp:99-190 | every counter is a tally of the trace; streaming count, maximum and mean are those of the recorded latencies |
| KpiAgreement.MeanStep | src/scheduler.cpp:163-166 | the streaming update keeps mean times count equal to the sum |
| LatencyHistograms.PercentileIsOrderStatistic | src/latency_histogram.cpp:45-57 | a percentile is the bucket bound of the exact order statistic |
| LatencyHistograms.PercentileWithinRoot2 | src/latency_histogram.cpp:14-57 | at most root two above the order statistic, and not below it iff it is at most 2^25 us |
| LatencyHistograms.PercentileMono | src/latency_histogram.cpp:45-57 | percentiles are monotone in p |
| LatencyHistograms.BucketBound | src/latency_histogram.cpp:14-27 | bounds of single samples: root two above, and covering iff at most 2^25 us |
| LatencyHistograms.BucketMono | src/latency_histogram.cpp:14-21 | larger latencies never fall into smaller buckets |
| LatencyHistograms.CountPermuted | src/latency_histogram.cpp:45-55 | running counts depend only on the multiset of samples |
| LatencyHistograms.LatencyHistogram.Record | src/latency_histogram.cpp:29-36 | appends the sample, clamped at zero, to what the histogram stands for |
| LatencyHistograms.LatencyHistogram.Merge | src/latency_histogram.cpp:38-43 | merging is concatenation of sample lists, also with itself |
| LatencyHistograms.LatencyHistogram.Percentile | src/latency_histogram.cpp:45-57 | computes the percentile of the samples; the fallback is unreachable |
| LatencyHistograms.LatencyHistogram.MeanUs | src/latency_histogram.cpp:59-62 | the mean of the samples, zero for none |
| NpuCaches.NpuCache.Admit | src/npu_cache.cpp:27-75 | for every capacity: evicts the shortest prefix of the unpinned entries, by distance descending then age, after which the 32-bit room test passes; accepts iff it then does, refuses with all of them gone; refreshes residents; rejects the impossible |
| NpuCaches.NpuCache.MakeRoom | src/npu_cache.cpp:47-63 | the eviction loop evicts worst first and no more than needed |
| NpuCaches.PickVictim | src/npu_cache.cpp:6-21 | the scan returns an entry that no other is worse than |
| NpuCaches.NpuCache.Evictable | src/npu_cache.cpp:48-52 | exactly the unpinned entries |
| NpuCaches.NpuCache.Touch | src/npu_cache.cpp:77-82 | refreshes a resident entry and nothing else |
| NpuCaches.NpuCache.Pin | src/npu_cache.cpp:84-89 | one more pin, reporting residency |
| NpuCaches.NpuCache.Unpin | src/npu_cache.cpp:91-96 | one pin less unless there is none |
| NpuCaches.EvictsFarthest | src/npu_cache.cpp:6-75 | an unpinned entry that survives is nearer than any evicted one, or as near and not used less recently |
| NpuCaches.AdmitKeepsPins | src/npu_cache.cpp:27-75 | no admission touches a pinned entry or makes anything but its own key resident |
| NpuCaches.AdmitExactly | src/npu_cache.cpp:27-75 | below two gigabytes: accepted iff pinned bytes plus size fit, evicting the shortest sufficient prefix; on refusal exactly the pinned remain |
| NpuCaches.AdmitBytes | src/npu_cache.cpp:27-75 | below two gigabytes no admission exceeds the capacity |
| NpuCaches.WrapOverfills | src/npu_cache.cpp:47 | for every capacity from two gigabytes on, two entries as large as the cache are held at once |
| NpuCaches.SortedUnique | src/npu_cache.cpp:11-21 | without ties the eviction order is unique |
| NpuCaches.GuardExactIff | src/npu_cache.cpp:47 | the wrapping room test is right for all fills iff the capacity is below 2^31 |
| LodSelection.SelectLod | src/predictor.cpp:20-111 | the loops compute the decision |
| LodSelection.SelectIs | src/predictor.cpp:20-111 | each decision in terms of the bands: from cold, out of range or an unknown level the outermost containing one; within the edge widened by the percentage the innermost nearer one or no change; beyond it the tightest farther one or none |
| LodSelection.HysteresisBoundsSwitching | src/predictor.cpp:20-111 | demotions times the smallest deadband never exceed the distance travelled |
| LodSelection.StepPays | src/predictor.cpp:81-110 | one decision: a demotion is paid by credit and way travelled |
| LodSelection.SelectIdempotent | src/predictor.cpp:81-110 | at constant distance one decision from a band is final |
| LodSelection.SelectSettles | src/predictor.cpp:26-73 | from a cold start or out of range two decisions are |
| Prefetching.RoundTripIff | src/scheduler.cpp:171-178 | decoding undoes encoding for all levels iff the sizes are distinguishable |
| Prefetching.EncodeInjective | src/injector.cpp:82-92 | then distinct levels have distinct sizes |
| Prefetching.EncodedMegabytes | src/injector.cpp:91 | the wrapped byte size stands for the megabytes modulo 4096 |
| Prefetching.LevelIsFinest | src/predictor.cpp:341-368 | the cascade takes the finest level that any of its rules grants, none iff no rule does |
| Prefetching.CloserIsFiner | src/predictor.cpp:341-368 | coming closer, into view or towards the player never costs detail, whatever the thresholds |
| Prefetching.KeyInjective | include/neurostream/predictor.hpp:172-175 | keys agree iff the NPC and the low byte agree |
| SlotSafety.TickKeeps | src/predictor.cpp:370-436 | a tick keeps one slot per NPC, slots on pinned residents, counters in agreement, pins exact for disjoint windows, and asks only for new keys |
| SlotSafety.CompleteKeeps | src/predictor.cpp:438-467 | whatever an admission evicts, slots stay safe and pins exact |
| SlotSafety.HandleKeeps | src/predictor.cpp:259-295 | serving an interaction keeps slots safe, and pins exact iff no weight is usable or the NPC held no slot |
| SlotSafety.HandleCounts | src/predictor.cpp:259-292 | which counters an interaction moves, iff: hit, miss and degradation, no usable weights, saturation |
| SlotSafety.AcquireSlotIff | src/predictor.cpp:230-247 | a slot is refused iff the NPC holds none and every core is busy; else exactly one is taken and no earlier end forgotten |
| SlotSafety.BestResidentFacts | src/predictor.cpp:218-228 | the level used is the finest resident one not finer than desired, none iff none is resident |
| SlotSafety.PinExactIff | src/predictor.cpp:230-247 | taking a slot keeps pins exact iff the slot was free |
| SlotSafety.ReleaseKeeps | src/predictor.cpp:249-257 | releasing frees exactly the expired slots and keeps pins exact |
| SlotSafety.NewInteractionHasNoSlot | src/predictor.cpp:387-418 | with disjoint windows an NPC with a new interaction holds no slot |
| SlotSafety.ReuseLeaksPin | src/predictor.cpp:230-257 | a re-used slot leaves a pin that its release does not take back |
| Scenes.LeakReached | src/predictor.cpp:230-257 | from construction through four ticks and an arrival: overlapping windows, the later listed first, end with a free slot and a pin that stands for none |
| Scenes.CollisionReached | src/predictor.cpp:412-418 | from construction through two ticks: of two interactions that start 256 ms apart the second is neither handled nor counted |
| Schedulers.Scheduler.Accept | src/scheduler.cpp:33-103 | new state and booked quantum end are those of accepting on values |
| Schedulers.Scheduler.StartServiceIfIdle | src/scheduler.cpp:105-118 | an idle bus starts the chosen transaction and books its end; a busy one is left alone |
| Schedulers.Scheduler.ScheduleQuantumEnd | src/scheduler.cpp:120-141 | books the end of the quantum at now plus the service time |
| Schedulers.Scheduler.OnQuantumEnd | src/scheduler.cpp:143-194 | completes, drops or requeues, then starts the next; reports delivered weights |
| Schedulers.Scheduler.Retire | src/scheduler.cpp:148-190 | the part before the restart |
| Schedulers.Scheduler.Complete | src/scheduler.cpp:152-180 | counters and histogram of a completion |
| Schedulers.Scheduler.PickNextFifo | src/scheduler.cpp:202-220 | drops expired heads, then takes the first |
| Schedulers.Scheduler.PickNextQos | src/scheduler.cpp:254-305 | refill, expired critical heads, critical if affordable, else the fair bulk class |
| Schedulers.Scheduler.DropExpiredCritical | src/scheduler.cpp:257-268 | the critical drop loop |
| Schedulers.Scheduler.PickCritical | src/scheduler.cpp:270-284 | strict priority, paid in tokens |
| Schedulers.Scheduler.PickBulk | src/scheduler.cpp:285-305 | the class with the smaller virtual finish time, charged by its weight |
| Schedulers.Scheduler.RefillTokens | src/scheduler.cpp:236-244 | refill up to the capacity, only forward in time |
| Schedulers.Scheduler.OnArrive | src/scheduler.cpp:198-252 | queues at the back of the right queue |
| Schedulers.Scheduler.constructor | src/scheduler.cpp:224-234 | a fresh scheduler with a full bucket |
| Injectors.AudioTrafficGen.Fire | src/injector.cpp:31-42 | one packet is offered and the next scheduled, as on values |
| Injectors.AudioTrafficGen.ScheduleNext | src/injector.cpp:28-31 | schedules a period ahead unless the scenario is over by then |
| Injectors.TextureTrafficGen.Fire | src/injector.cpp:63-74 | one block is offered and the next scheduled |
| Injectors.TextureTrafficGen.ScheduleBurst | src/injector.cpp:50-58 | starts a burst unless it has no rate or no duration |
| Injectors.TextureTrafficGen.ScheduleBlock | src/injector.cpp:60-63 | nothing at or after the end of the burst |
| Injectors.AIWeightInjector.SchedulePrefetch | src/injector.cpp:82-93 | schedules the transfer under its byte size, or refuses an unknown level |
| Injectors.AIWeightInjector.Fire | src/injector.cpp:93-103 | the transfer is offered under the next number |
| Predictors.ScriptedPredictor.Start | src/predictor.cpp:8-13 | schedules the finest weights of every NPC at time zero |
| Predictors.LodPredictor.Tick | src/predictor.cpp:121-152 | levels, fetches, in-flight set and re-arming as on values; the injector's exception iff a level without weights is asked for |
| Predictors.LodPredictor.OnComplete | src/predictor.cpp:154-158 | from in flight to resident |
| Predictors.IntentPredictor.Tick | src/predictor.cpp:370-436 | releases, levels, interactions, fetches and re-arming as on values |
| Predictors.IntentPredictor.Visit | src/predictor.cpp:384-427 | one NPC of a tick |
| Predictors.IntentPredictor.Serve | src/predictor.cpp:403-427 | refresh, first tick of an interaction, fetch decision |
| Predictors.IntentPredictor.HandleInteraction | src/predictor.cpp:259-295 | hit, degradation or miss; slot, pin and touch or saturation |
| Predictors.IntentPredictor.AcquireSlot | src/predictor.cpp:230-247 | the NPC's own slot, else a free one, else -1 |
| Predictors.IntentPredictor.ReleaseExpiredSlots | src/predictor.cpp:249-257 | frees and unpins every expired slot |
| Predictors.IntentPredictor.BestResidentLod | src/predictor.cpp:218-228 | the finest resident level not finer than desired |
| Predictors.IntentPredictor.FindInteraction | src/predictor.cpp:388-396 | the first listed interaction that is going on |
| Predictors.IntentPredictor.OnComplete | src/predictor.cpp:438-467 | admission with its evictions and refusals counted |

## Left out

- Schedulers.Scheduler.OnQuantumEnd: the completion observer is called by the driver after the bus has been restarted, not between; neither touches what the other reads.
- Schedulers.Scheduler.PickNext: the two policies are branches of one class instead of two subclasses; virtual dispatch is not modelled.
- EventQueues.EventQueue.Top: the binary heap inside the standard priority queue is a search for the minimum over an unordered list.
- Predictors.IntentPredictor.OnComplete: which of two tied victims goes is left open, as the hash map's order leaves it.
- FairQueueing.SharesByWeight: starts from a lead inside the band, as at the start of a run; from outside the band `NormalWaitsBytes` applies.
- Runner.Wire: predictors see the scenario through functions of time; waypoints, facing, frustum and speed are arbitrary inputs.
- IEEE rounding: tokens, virtual times, means and distances are exact; integers are unbounded except for the 32-bit casts and sums named above; `weight_size_bytes_for_lod` overflows a signed int from 2048 MB, the model wraps as the injector does.
- PrefetchProtocol.InFlightExactly: is about the two predictors that tick; the scripted one keeps no record of what it asked for.
- Factories of policies and paths by name, command line, YAML loading, trace files and report printing.
- `LodPredictor::is_resident` and `on_evict`, `EventQueue::size` and `empty`, and the cache's queries: one-line accessors.

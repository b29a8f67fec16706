# rptp: a verified model of a PTPv2 boundary clock

`rptp` (crate `crates/rptp`) is an I/O-free core for IEEE 1588-2019 clocks. This project models three
connected parts of it in Dafny and proves what they promise over all inputs and all runs.

1. **Best-master selection and the boundary clock.** Announces enter per-port record stores with a
   qualification window; each port's best record (E_rbest) is reported to the clock; the clock keeps a
   map of reports, takes the best of it (E_best) and broadcasts it to all ports; every port decides
   with the BMCA, gated by its role, and moves its state machine. The clock is a step system
   (`Boundary.StepClock`): one event hands one input, or one undelivered broadcast, to one port. Runs
   start from empty stores with any number of ports, any datasets and any interleaving.
2. **The clock discipline.** Sync, FollowUp, DelayReq and DelayResp fragments are recorded by the
   end-to-end delay mechanism; completed exchanges give offset samples; the stepping or PI servo turns
   them into clock actions and a verdict that moves the port between UNCALIBRATED and SLAVE.
3. **The wire codec** of Announce, Sync (one-step and two-step), FollowUp, DelayReq and DelayResp.

## How it is organised

| file | content |
|---|---|
| `Base`, `Time`, `Clock`, `Messages` | integer widths, timestamp arithmetic, identities, class and accuracy values, messages |
| `Dataset` | the dataset comparison and the simple order it refines |
| `Foreign`, `History`, `Heapless` | record stores, their meaning as a function of the Announce history, the bounded store |
| `Candidates`, `Bmca` | selection across ports, the decision flowchart, the two ends of a link |
| `Delay`, `Servo`, `Discipline` | offset samples, servos, the pipeline replayed from everything recorded |
| `PortMachine` | dispatch and transitions of one port; every step is one of ten moves |
| `Exchange` | a MASTER port and its follower handing each other's messages across |
| `Boundary`, `Invariants`, `Theorems` | the clock, its inductive invariant, and what the invariant means |
| `Witnesses` | concrete runs from the initial state in which expected properties fail |
| `Wire` | parser and in-place buffer of the five messages |
| `Datagram` | the five datagrams octet by octet, and the parser and printer proved against them |

Objects that the crate updates in place (the two record stores, the candidate map, the triggers, the
clock, the delay mechanism, the PI servo, the port state machine, the message buffer) are classes whose
methods are proved against value-level functions; the theorems about runs are about those functions.

Two hypotheses appear where the comparison needs them. **H1**: datasets with one grandmaster identity
agree on priority1, quality and priority2. **H2**: no port receives its own Announce. Neither is assumed
silently: `Dataset.CyclicWithoutH1` and `Dataset.IncomparableWithoutH2` show what happens without them,
and for runs they are conditions on the Announces received (`Theorems.WellAnnounced`).

## What turned out not to hold as promised

Each of these has a failing input and an exact condition.

- *One master per link, from the BMCA alone,* fails at saturated step counts: with stepsRemoved at 65535 on
  both ends, both ends defer (`Bmca.SaturatedLinkHasNoMaster`). `Bmca.OneMasterPerLink` and
  `Theorems.LinkedClocksHaveOneMaster` give the exact condition.
- *One master per link, when each end hears exactly what the other sends,* fails while an end is LISTENING or
  PRE_MASTER, which sends nothing: two clocks are reachable whose facing ports are both PRE_MASTER
  (`Witnesses.BothEndsPreMaster`, `Witnesses.WaitingEndsAreBothPreMaster`).
  `Theorems.SettledLinkHasOneMaster` shows that it holds exactly when both ends are past these two states, at
  any step count.
- *A port that evaluated the latest broadcast is in the state decided* fails for a LISTENING port that has
  heard no qualified master (`Witnesses.UpToDatePortMayListen`), and only for it
  (`Theorems.UpToDatePortIsSettled`).
- *A port that times out on a silent parent is rid of it* fails: nothing is pruned, so the port goes back to
  the same parent (`Theorems.SilentParentIsFollowedAgain`); `Theorems.TimedOutPortReevaluates` says exactly
  when it stays MASTER.
- *A receipt timeout is safe in every state that accepts it* fails in MASTER, where the dispatcher emits a
  decision that `apply` refuses (`Witnesses.SecondTimeoutPanics`); `PortMachine.PanicsExactly` states that
  this is the only panicking pair.
- *Qualification depends on the last two Announces* fails when instants run backwards
  (`History.NonMonotoneHistoryForgets`). `History.QualifiedExactly` gives the exact condition for every
  history; `History.StoreRefinesHistory` is the simple form for non-decreasing instants, which is what
  `Instant` is documented to be (`crates/rptp/src/time.rs:216-219`).
- *The comparison is transitive* fails when one grandmaster identity is announced with two sets of attributes
  (`Dataset.CyclicWithoutH1`); `Dataset.IntransitiveExactly` says for which triples.
- *Reserved values round-trip* (comment at `crates/rptp/src/clock.rs:64-66`) fails for values such as
  `Reserved(6)` (`Clock.ReservedSixIsLost`). `Clock.RawValuesRoundTrip` and `Wire.DatasetRoundTrip` give the
  exact condition, and `Wire.TransitKeepsComparison` shows that no BMCA comparison can observe the difference.
- *The bounded store keeps its records sorted* (comment at `crates/rptp/src/heapless.rs:28-33`) fails: the code
  does not sort (`Heapless.RecordsAreNotSorted`). `Heapless.SortedExactly` says when remembering a record leaves
  them sorted; selection does not need it (`Foreign.SelectionIgnoresOrder`).
- *A DelayResp completes only the exchange of the port it is addressed to* fails, since it is filtered by its
  source alone: an answer to another port with the same sequence id completes this port's exchange
  (`Exchange.ForeignAnswerPairs`, with the exact condition).

## Model

| member | source | states |
|---|---|---|
| `Time.CheckedAdd` | crates/rptp/src/time.rs:67-80 | Some exactly when the true sum lies in [0, 2^48 s), and then it is that sum in nanoseconds |
| `Time.CheckedSub` | crates/rptp/src/time.rs:82-97 | Some exactly when the true difference lies in [0, 2^48 s), and then it is that difference |
| `Time.StampDifference` | crates/rptp/src/time.rs:99-109 | the borrow arithmetic yields the exact signed nanosecond difference for all timestamps, never leaving the interval range |
| `Time.IntervalDifference` | crates/rptp/src/time.rs:203-213 | exact difference; the exact condition under which the operator does not overflow or fail the constructor's assertion |
| `Time.Half` | crates/rptp/src/time.rs:157-171 | halves total nanoseconds, truncating toward zero on both sides, for every interval |
| `Time.AbsInterval` | crates/rptp/src/time.rs:177-188 | exact absolute value down to i64::MIN seconds |
| `Time.StampsAreNanoseconds` | crates/rptp/src/time.rs:34-53 | (seconds, nanos) with its derived order is isomorphic to the nanoseconds below 2^48 times 10^9 |
| `Time.IntervalsAreNanoseconds` | crates/rptp/src/time.rs:143-160 | the same for intervals: the derived order is nanosecond order and the representation is unique |
| `Time.DifferenceRoundTrip` | crates/rptp/src/time.rs:67-109 | u + (t - u) = t and t - (t - u) = u for all timestamps |
| `Time.AddUndoesSub` | crates/rptp/src/time.rs:67-97 | adding back a subtracted interval returns the start whenever the subtraction succeeded |
| `Time.LongIntervals` | crates/rptp/src/time.rs:358-366 | intervals of a second and more last exactly 2^e seconds, without saturating, up to e = 20 |
| `Time.ShortIntervals` | crates/rptp/src/time.rs:367-371 | shorter ones last 2^e seconds rounded down to a nanosecond |
| `Clock.RawValuesRoundTrip` | crates/rptp/src/clock.rs:86-151 | class and accuracy survive encoding and decoding if and only if they are canonical |
| `Clock.DecodedRanges` | crates/rptp/src/clock.rs:86-102 | exactly which raw class and accuracy values decode to reserved and to alternate-profile values |
| `Clock.ReservedSixIsLost` | crates/rptp/src/clock.rs:86-102 | a reserved class 6 and a reserved accuracy 0x20 come back as the named values |
| `Dataset.CompareDatasets` | crates/rptp/src/dataset.rs:297-322 | the `unreachable!` arm is dead for all inputs |
| `Dataset.BetterIsAsymmetric` | crates/rptp/src/dataset.rs:103-111 | "better or better by topology" is asymmetric for all inputs, and the topology-only relation is contained in it |
| `Dataset.BetterExactly` | crates/rptp/src/dataset.rs:160-187 | under H1 the flowchart equals the lexicographic key order, written with < and = on raw values, except exactly on its error-1 pairs |
| `Dataset.BetterIsKeyOrder` | crates/rptp/src/dataset.rs:297-322 | under H1 and H2 it is lexicographic order on the numbers (priority1, class, accuracy, variance, priority2, identity, steps, sender clock, sender port, receiver port), both directions |
| `Dataset.BetterIsStrictTotalOrder` | crates/rptp/src/dataset.rs:403-413 | under H1 and H2 it is transitive, and total on records of different senders or receiver ports |
| `Dataset.BetterIsTwoOrders` | crates/rptp/src/dataset.rs:297-322 | for all inputs, with no hypothesis, it is path order (steps, sender, receiver port) minus the error-1 pairs between datasets of one identity, and (priority1, class, accuracy, variance, priority2, identity) order otherwise |
| `Dataset.BetterByTopologyExactly` | crates/rptp/src/dataset.rs:160-187 | for all inputs, "better by topology" holds exactly between paths to one grandmaster at equal steps, or one step ahead of a path whose sender is the smaller port |
| `Dataset.ComparisonIsMirrored` | crates/rptp/src/dataset.rs:160-187 | for all inputs, comparing the other way round gives the mirrored outcome, with and without topology, errors included |
| `Dataset.KeysAreOrdered` | crates/rptp/src/dataset.rs:302-315 | the key order is a strict total order on keys |
| `Dataset.IntransitiveExactly` | crates/rptp/src/dataset.rs:297-322 | exactly which triples violate transitivity: two share an identity and the third, as a grandmaster, lies where only different attributes of the two let it |
| `Dataset.CyclicWithoutH1` | crates/rptp/src/dataset.rs:297-300 | a three-cycle that appears when one identity has two attribute sets |
| `Dataset.IncomparableWithoutH2` | crates/rptp/src/dataset.rs:160-187 | a pair one step apart of which neither is better |
| `Foreign.ForeignClockRecordsVec.Remember` | crates/rptp/src/infra.rs:120-130 | the linear search updates the source's record in place or appends a new one |
| `Foreign.ForeignClockRecordsVec.PruneStale` | crates/rptp/src/infra.rs:138-142 | retains exactly the fresh records in order and reports whether any was removed |
| `Foreign.ForeignClockRecordsVec.Consider` | crates/rptp/src/foreign.rs:215-229 | pruning at the Announce's instant, then remembering |
| `Foreign.ForeignClockRecordsVec.TakeSnapshot` | crates/rptp/src/foreign.rs:232-245 | the scan returns the fold over the qualified records, or Empty when none is qualified |
| `Foreign.WindowIsFourIntervals` | crates/rptp/src/foreign.rs:440-442 | the qualification window is four announced intervals; the multiplication never saturates |
| `Foreign.BestQualifiedBeatsAll` | crates/rptp/src/foreign.rs:232-245 | under H1 and H2 the per-port fold returns the record that beats every other qualified record of the port |
| `Foreign.SelectionIgnoresOrder` | crates/rptp/src/foreign.rs:232-245 | stores with the same qualified records have the same E_rbest, whatever the insertion order |
| `Foreign.ConsideredKeepsSources` | crates/rptp/src/foreign.rs:215-229 | one record per source, each either kept fresh from before or carrying the new dataset |
| `Foreign.SnapshotBetterExactly` | crates/rptp/src/foreign.rs:106-125 | a snapshot replaces another iff it is qualified and the other is empty or strictly behind in plain numbers; an incomparable pair keeps the earlier one |
| `History.StoreIsRecordOf` | crates/rptp/src/foreign.rs:329-347 | for every history, the record of every source is read off it: it exists iff the source's latest Announce survived every later instant, and it remembers the one before iff that survived up to the latest |
| `History.QualifiedExactly` | crates/rptp/src/foreign.rs:465-495 | for every history, a source is qualified iff its last two Announces form a surviving pair, it is stored iff the last one survives, and its dataset is the latest one |
| `History.StoreRefinesHistory` | crates/rptp/src/foreign.rs:465-495 | for non-decreasing instants, a source is qualified iff its two latest Announces are within both their windows of each other and the latest is within its window of the port's newest Announce; the dataset is the latest one |
| `History.NonMonotoneHistoryForgets` | crates/rptp/src/foreign.rs:492-495 | a history with time running backwards in which a recently paired source is lost |
| `Heapless.HeaplessForeignClockRecords.CandidateIndex` | crates/rptp/src/heapless.rs:142-169 | the eviction scan computes the specified victim |
| `Heapless.HeaplessForeignClockRecords.Remember` | crates/rptp/src/heapless.rs:91-114 | update, append or replace, within capacity |
| `Heapless.Victim` | crates/rptp/src/heapless.rs:142-169 | a victim is beaten by the newcomer, and there is none exactly when the newcomer beats nobody |
| `Heapless.VictimIsWorst` | crates/rptp/src/heapless.rs:142-169 | under H1 and H2 the victim is beaten by every other record that the newcomer beats |
| `Heapless.FullStoreKeepsTheBest` | crates/rptp/src/heapless.rs:91-114 | under H1 and H2 a full store that meets an unseen source keeps, as a multiset, exactly all but the worst of the N + 1 records; the newcomer is that worst iff it beats nobody |
| `Heapless.BoundedStoreStaysBounded` | crates/rptp/src/heapless.rs:91-125 | over any run of remember and prune the length never exceeds N and sources stay distinct, with no hypothesis |
| `Heapless.RecordsAreNotSorted` | crates/rptp/src/heapless.rs:91-114 | two records remembered with the better one second are out of the documented order |
| `Heapless.SortedExactly` | crates/rptp/src/heapless.rs:91-114 | after remembering, in each of the update, append, replace and drop cases, the documented order holds iff the other records are in order and the record belongs where it lands |
| `Heapless.PruningKeepsOrder` | crates/rptp/src/heapless.rs:121-125 | pruning never disturbs that order |
| `Candidates.MultiPortForeignCandidates.Remember` | crates/rptp/src/infra.rs:185-197 | a qualified report replaces the port's entry, an empty one removes it, other ports are untouched |
| `Candidates.MultiPortForeignCandidates.Best` | crates/rptp/src/infra.rs:199-210 | the loop computes the ascending fold over all entries |
| `Candidates.ReportKeepsCandidateMap` | crates/rptp/src/infra.rs:185-197 | reporting one port's E_rbest keeps the map equal to all ports' qualified E_rbests, and an unchanged E_rbest needs no report |
| `Candidates.TwoLevelSelectionIsGlobal` | crates/rptp/src/infra.rs:199-210 | under H1 and H2, folding per port and then across ports gives the unique qualified record of the clock that beats all others |
| `Bmca.DecisionMeans` | crates/rptp/src/bmca.rs:138-158 | exactly which inputs lead to M1, M2, M3, S1, P1 and P2, in plain numbers (class 1 to 127, the key comparison of D_0, the receiver port, the parallel path), and which dataset a master announces |
| `Bmca.LocalWinsExactly` | crates/rptp/src/bmca.rs:194-217 | when D_0 beats a snapshot: always the empty one, a foreign grandmaster by (priority1, class, accuracy, variance, priority2, identity), and its own echo by steps and then by port 0 |
| `Bmca.LinkVerdict` | crates/rptp/src/bmca.rs:294-324 | the step counts of two linked ends differ by at most one, and each end's verdict depends only on them and, when they tie or saturate, on the port order |
| `Bmca.OneMasterPerLink` | crates/rptp/src/foreign.rs:156-192 | exactly one end decides M3 and the other S1 or P2, if and only if stepsRemoved still counts |
| `Bmca.SaturatedLinkHasNoMaster` | crates/rptp/src/dataset.rs:395-413 | two ends at saturated step counts that both defer |
| `Bmca.EquilibriumHasOneMaster` | crates/rptp/src/bmca.rs:294-324 | when each end hears exactly what the other's verdict, once carried out, makes it announce, exactly one verdict is master, at any step count |
| `Bmca.EquilibriumExists` | crates/rptp/src/bmca.rs:294-324 | such equilibria exist |
| `Delay.Offset` | crates/rptp/src/e2e.rs:104-114 | no overflow for any four wire-range timestamps, and the truncated half of the exact nanosecond expression |
| `Delay.OffsetIsAccurate` | crates/rptp/src/message.rs:427-429 | the sample is within half the path asymmetry (rounded up) of the true offset, and exact on a symmetric path |
| `Delay.WindowsHoldLatest` | crates/rptp/src/e2e.rs:83-95 | FollowUp, request and response windows hold the latest of their kind after any sequence of recordings |
| `Delay.SyncWindowsHoldLatest` | crates/rptp/src/e2e.rs:136-159 | the Sync windows and the ingress time follow the latest Sync of either kind |
| `Delay.SampleIsCoherent` | crates/rptp/src/e2e.rs:104-114 | a sample exists iff the latest Sync is one-step or matches the latest FollowUp, and the latest request and response match; it carries that Sync's ingress time and the offset of those messages |
| `Delay.EndToEndDelayMechanism.DelayRequest` | crates/rptp/src/e2e.rs:64-68 | issues the current sequence id and advances the cycle with 16-bit wrap-around |
| `Delay.EndToEndDelayMechanism.RecordOneStepSync` | crates/rptp/src/e2e.rs:71-74 | the mechanism's new value after a one-step Sync |
| `Delay.EndToEndDelayMechanism.RecordTwoStepSync` | crates/rptp/src/e2e.rs:77-80 | the new value after a two-step Sync, which drops any one-step Sync |
| `Servo.SteppingSetsMasterTime` | crates/rptp/src/servo.rs:129-142 | on a symmetric path the stepping servo sets the clock to t1 + d exactly when that is representable, and is Unlocked without action otherwise |
| `Servo.TraceIsRun` | crates/rptp/src/servo.rs:189-207 | the recorded run of a fresh PI servo links every sample's state to the one before |
| `Servo.LockIsJustified` | crates/rptp/src/servo.rs:333-355 | every entry into Locked rests on a baseline sample: this is the first sample at least min_delta (and more than 0) after it, all samples between arrived later but closer, and no step intervened; the first rate is one plus the slope between the two where that is within the limits, and the nearer limit otherwise |
| `Servo.StepsExactly` | crates/rptp/src/servo.rs:386-434 | over any run, a sample steps the clock iff its offset is beyond the threshold, or beyond the initial one on the first sample only, and the master time is representable; the clock is set to exactly that time |
| `Servo.LockedUntilStep` | crates/rptp/src/servo.rs:189-230 | Locked is left by a step and only by a step |
| `Servo.IntegralIsLockedOffsets` | crates/rptp/src/servo.rs:258-268 | the PI integral is the sum in seconds of the offsets fed while Locked since the last step, and the rate is 1 - kp * offset - ki * sum, written out over nanoseconds divided by 10^9 |
| `Servo.FeedbackIsNegative` | crates/rptp/src/servo.rs:236-263 | with gains that are not negative, a clock that is ahead is never sped up while the integral is not negative, and one further ahead never runs faster |
| `Servo.DriftIsSlope` | crates/rptp/src/servo.rs:477-489 | an in-order drift is the slope in plain nanoseconds between samples at least min_delta apart |
| `Servo.PiServo.ShouldStep` | crates/rptp/src/servo.rs:416-434 | the initial threshold is consumed by the first sample whether or not it is exceeded |
| `Servo.PiServo.Estimate` | crates/rptp/src/servo.rs:333-351 | what each sample ordering leaves as baseline and estimates |
| `Servo.PiServo.Feed` | crates/rptp/src/servo.rs:189-230 | the in-place servo refines the value-level step in state, verdict and clock actions |
| `Discipline.ReplayRecords` | crates/rptp/src/uncalibrated.rs:164-186 | the mechanism inside the pipeline is the one all recorded fragments determine |
| `Discipline.ServoRunsOverSamples` | crates/rptp/src/slave.rs:158-178 | a PI servo inside a port has run over exactly the samples read off the log, one for each one-step Sync or FollowUp at which both latest exchanges are complete, so the servo theorems apply to it |
| `Discipline.SteppingServoFollowsLastSample` | crates/rptp/src/servo.rs:129-142 | a stepping servo inside a port keeps no state; its last verdict is Locked iff the master time of the last sample read off the log was representable |
| `Exchange.DelayExchangeCompletes` | crates/rptp/src/master.rs:108-127 | from any states of a MASTER port and a port that follows it, request and response passed between them leave the follower with exactly the egress and receive times of this exchange and change nothing else |
| `Exchange.SyncExchangeFeeds` | crates/rptp/src/master.rs:130-155 | Sync and FollowUp passed between them then feed the servo exactly one sample, with this Sync's ingress time and the offset of the four times; the follower is SLAVE iff the servo says Locked |
| `Exchange.NextSyncWaits` | crates/rptp/src/master.rs:275-284 | the FollowUp of one Sync never completes the next Sync the master sends, across sequence id wrap-around |
| `Exchange.ExchangeSetsMasterTime` | crates/rptp/src/servo.rs:129-142 | over a symmetric path the two exchanges step the follower's clock to the master's time and make it SLAVE, exactly when that time is representable |
| `Exchange.OneStepSyncFeeds` | crates/rptp/src/uncalibrated.rs:109-134 | a one-step Sync from the parent after a delay exchange feeds exactly one sample at once, whatever the Sync windows held; the port is SLAVE iff the servo says Locked |
| `Exchange.OneStepSetsMasterTime` | crates/rptp/src/slave.rs:108-130 | the same end-to-end result as for two-step Sync: the clock is set to the master's time exactly when representable |
| `Exchange.SendsAnnounce` | crates/rptp/src/master.rs:79-87 | a MASTER port's Announce carries its current sequence id, the profile's announce interval, the tracked dataset and the local clock's time scale |
| `Exchange.ResponsePairsExactly` | crates/rptp/src/uncalibrated.rs:208-221 | a response from the parent, whoever it is addressed to, completes the delay side iff its sequence id is that of the latest request, with its own receive time |
| `Exchange.ForeignAnswerPairs` | crates/rptp/src/uncalibrated.rs:208-221 | the master's answer to another port with the same sequence id completes the follower's delay side with the other port's receive time; it answers the follower's own request iff it is addressed to it |
| `PortMachine.EveryStepIsAMove` | crates/rptp/src/portstate.rs:188-338 | dispatch followed by apply is always one of ten moves, told from state and input alone |
| `PortMachine.PanicsExactly` | crates/rptp/src/portstate.rs:104-182 | over every state and input, a panic arm is reached only by an announce receipt timeout in MASTER |
| `PortMachine.ReceiptTimeoutByState` | crates/rptp/src/portstate.rs:106-116 | state by state: LISTENING, UNCALIBRATED, SLAVE and PASSIVE become MASTER on D_0 and report, MASTER panics, the others ignore it |
| `PortMachine.AnnounceByState` | crates/rptp/src/portstate.rs:235-268 | INITIALIZING and FAULTY ignore Announces; every other state considers exactly those with an interval exponent from -20 to 20 and reports a changed E_rbest |
| `PortMachine.DecisionEventByState` | crates/rptp/src/portstate.rs:328-335 | INITIALIZING and FAULTY ignore state decision events; every other state takes over D_0 and ends in the state decided, except a LISTENING port with an empty E_rbest |
| `PortMachine.PassiveIsGated` | crates/rptp/src/bmca.rs:858-866 | `apply` refuses PASSIVE in PASSIVE, and the gate keeps every dispatch from asking for it |
| `PortMachine.DecisionsTakeEffect` | crates/rptp/src/bmca.rs:617-631 | after a state decision event an operating port is in the state decided, whether its gate let the decision through or not, exactly unless it is LISTENING with an empty E_rbest, in which case it stays LISTENING |
| `PortMachine.ActionsComeFromFragments` | crates/rptp/src/uncalibrated.rs:164-222 | the clock is touched only by absorbing a fragment from the tracked parent or the port itself |
| `PortMachine.PortFsm.ApplyDecision` | crates/rptp/src/port.rs:510-514 | take, apply, put back: the state is present again after the call |
| `PortMachine.PortFsm.Process` | crates/rptp/src/port.rs:517-557 | the machine refines the step function and never leaves the state empty when receipt timeouts respect timer ownership |
| `Boundary.StepPanicsExactly` | crates/rptp/src/portstate.rs:320-323 | a step of the clock panics exactly on a receipt timeout delivered to a MASTER port |
| `Boundary.NoPanicInAnyRun` | crates/rptp/src/portstate.rs:104-338 | no run reaches a panic if receipt timeouts fire only in states that own the timer |
| `Boundary.BoundaryClock.Trigger` | crates/rptp/src/boundary.rs:179-186 | remembers the report, computes E_best over all ports, appends the same snapshot to every port's pending ones |
| `Boundary.StateDecisionEventTrigger.ForcedTrigger` | crates/rptp/src/bmca.rs:369-373 | always reports and updates the memory |
| `Boundary.StateDecisionEventTrigger.GatedTrigger` | crates/rptp/src/bmca.rs:384-390 | reports exactly when the snapshot changed; otherwise nothing of the clock changes |
| `Invariants.StepInv` | crates/rptp/src/boundary.rs:179-186 | every event that does not panic keeps the clock-wide invariant |
| `Invariants.ReachableInv` | crates/rptp/src/boundary.rs:123-186 | every state of every run from empty stores satisfies it |
| `Theorems.CachesAreCoherent` | crates/rptp/src/bmca.rs:369-390 | in every reachable state each trigger's memory is its port's current E_rbest, each store is the one its Announce history determines, and the clock's map is the map of all qualified E_rbests |
| `Theorems.SlaveFollowsLastSnapshot` | crates/rptp/src/bmca.rs:740-754 | a slave-like port's last evaluated snapshot had E_best received on this very port, from its parent, beating a non-authoritative D_0 |
| `Theorems.AtMostOneSlave` | crates/rptp/src/bmca.rs:294-306 | among ports that last evaluated the same snapshot at most one is slave-like |
| `Theorems.MasterAnnouncesTrackedDataset` | crates/rptp/src/master.rs:79-87 | PRE_MASTER and MASTER track D_0 or the last evaluated E_best plus one step, stopping at 65535; all Announces of a MASTER tenure carry that dataset and the announce interval, with sequence ids 0, 1, 2 and so on mod 65536 |
| `Theorems.AnnouncesSurviveTheWire` | crates/rptp/src/port.rs:410-419 | any datagram of such an Announce parses at the receiver to this port, this sequence id and this dataset as the wire carries it |
| `Theorems.UpToDatePortIsSettled` | crates/rptp/src/bmca.rs:493-501 | a port that evaluated the latest broadcast is in the state the BMCA decides on the current E_best and its current E_rbest, exactly unless it is LISTENING, and then its E_rbest is empty |
| `Theorems.GrandmasterAnnouncesItself` | crates/rptp/src/bmca.rs:228-281 | an up-to-date port of a clock whose D_0 is ahead of the current best in plain numbers is PRE_MASTER or MASTER on D_0; with a class of 1 to 127 it is so if D_0 is ahead of the port's own best, and PASSIVE otherwise; only a port that heard no qualified master may still be LISTENING instead |
| `Theorems.TimeoutBroadcastsSameBest` | crates/rptp/src/bmca.rs:696-702 | a receipt timeout makes the port MASTER on D_0 and broadcasts the current best unchanged, since nothing is pruned |
| `Theorems.TimedOutPortReevaluates` | crates/rptp/src/bmca.rs:617-631 | evaluating its own broadcast, the timed-out port stays MASTER iff the BMCA decides for a master on D_0, and otherwise takes the state decided |
| `Theorems.SilentParentIsFollowedAgain` | crates/rptp/src/slave.rs:242-246 | a port that follows the current best and times out is UNCALIBRATED under the same parent again after that evaluation |
| `Theorems.ServoAndPortStayCoupled` | crates/rptp/src/slave.rs:286-296 | a slave-like port is SLAVE iff its servo's last verdict was Locked, and UNCALIBRATED iff it was not or none was given, for both servos and any interleaving |
| `Theorems.NoMixingOfMasters` | crates/rptp/src/uncalibrated.rs:284-290 | everything in the delay mechanism came from the parent tracked now |
| `Theorems.ClockActionsHaveOneParent` | crates/rptp/src/profile.rs:225-250 | every clock action of every run answers fragments that all came from the parent tracked then |
| `Theorems.CurrentBestIsTrueBest` | crates/rptp/src/infra.rs:199-210 | on runs whose Announces satisfy H1 and H2 the current E_best beats every other qualified record of every port, in every state |
| `Theorems.LatestBroadcastIsTrueBest` | crates/rptp/src/boundary.rs:179-186 | the newest broadcast, delivered or not, carries that true best |
| `Theorems.BroadcastReachesEveryPort` | crates/rptp/src/infra.rs:241-247 | an event that broadcasts puts the same snapshot with the new current best last in every mailbox |
| `Theorems.EndIsMaximal` | crates/rptp/src/foreign.rs:106-125 | the maximality of E_best that the link theorem needs holds in every such state |
| `Theorems.LinkedClocksHaveOneMaster` | crates/rptp/src/bmca.rs:294-324 | two whole clocks reached by any runs under H1 and H2, up to date and hearing each other: exactly one end of the link is PRE_MASTER or MASTER and the other yields, iff stepsRemoved still counts |
| `Theorems.SettledLinkHasOneMaster` | crates/rptp/src/bmca.rs:294-324 | with each end hearing exactly what the other's state sends (MASTER only), exactly one end is master iff neither is LISTENING or PRE_MASTER, at any step count; opposite a PRE_MASTER end the other is master-like or LISTENING; two ends are never both MASTER |
| `Witnesses.RunReaches` | crates/rptp/src/portstate.rs:188-338 | a seven-event run of a two-port clock from its initial state, state by state, for every identity and profile |
| `Witnesses.UpToDatePortMayListen` | crates/rptp/src/bmca.rs:493-501 | a reachable LISTENING port that evaluated the latest broadcast while the BMCA decides M3 for it |
| `Witnesses.WaitingEndsAreBothPreMaster` | crates/rptp/src/premaster.rs:80-98 | two clocks whose second ports each hear what the other sends, nothing, are both on the way to MASTER |
| `Witnesses.BothEndsPreMaster` | crates/rptp/src/premaster.rs:80-98 | such clocks are reachable under H1 and H2, for every identity |
| `Witnesses.SecondTimeoutPanics` | crates/rptp/src/portstate.rs:106-116 | a run from the initial state that panics: initialized, receipt timeout, receipt timeout |
| `Wire.IdentityOrderIsByteOrder` | crates/rptp/src/clock.rs:29-35 | the derived order on octet arrays is numeric order on their big-endian value |
| `Wire.PortRoundTrip` | crates/rptp/src/port.rs:269-293 | port identities survive the wire |
| `Wire.StampRoundTrip` | crates/rptp/src/wire.rs:279-309 | timestamps survive the wire |
| `Wire.DatasetRoundTrip` | crates/rptp/src/dataset.rs:326-335 | a dataset decodes to itself iff it is canonical, and otherwise to its canonical form |
| `Wire.DatasetBytesRoundTrip` | crates/rptp/src/dataset.rs:259-284 | any sixteen octets decode to a canonical dataset that encodes to the same octets |
| `Wire.TransitKeepsComparison` | crates/rptp/src/clock.rs:306-342 | passing either side or both over the wire changes neither the comparison, nor the topology-only comparison, nor authoritativeness |
| `Wire.WrittenCarries` | crates/rptp/src/wire.rs:343-434 | the builder chain lays out every field of a message on any prepared buffer, whatever was in it, and keeps the buffer prepared (`Datagram.FreshFrame` has the octet numbers) |
| `Wire.EventRoundTrip` | crates/rptp/src/message.rs:184-217 | every datagram laid out as an event message parses to that message and sender in its domain, is refused in other domains and as a general message |
| `Wire.GeneralRoundTrip` | crates/rptp/src/message.rs:221-266 | the same for general messages; the message itself comes back iff it is canonical |
| `Wire.ReceivedGeneralRelays` | crates/rptp/src/message.rs:221-266 | for every byte string, a received general message is canonical, and printing and parsing it again returns it |
| `Wire.AcceptedExactly` | crates/rptp/src/wire.rs:33-131 | exactly which byte strings are accepted as event and as general messages |
| `Wire.CopyFrom` | crates/rptp/src/wire.rs:353-354 | the copy loop overwrites exactly the addressed slice |
| `Wire.DatasetToWire` | crates/rptp/src/dataset.rs:326-335 | the array filled in place holds the specified octets |
| `Wire.MessageBuffer.constructor` | crates/rptp/src/wire.rs:343-357 | a fresh buffer is prepared for its domain and sender, with version octet 2 and zero everywhere else |
| `Wire.MessageBuffer.ToWire` | crates/rptp/src/message.rs:370-387 | header, payload and length written in place give a datagram that carries the message, also on a reused buffer |
| `Datagram.EventParserReadsOctets` | crates/rptp/src/wire.rs:33-131 | for every byte string and domain, the parser returns the message, the sender or the error that the octet table says, with literal octet numbers and flag bits |
| `Datagram.GeneralParserReadsOctets` | crates/rptp/src/wire.rs:134-310 | the same for general messages: dataset at octet 47, timestamp at 34, requester at 44, time scale bit of octet 7 |
| `Datagram.FreshFrame` | crates/rptp/src/wire.rs:343-434 | on a fresh buffer the builder chain prints exactly header, body and zeros |
| `Datagram.EventFrameIsDatagram` | crates/rptp/src/message.rs:431-495 | the octets of DelayReq and both kinds of Sync, literally |
| `Datagram.GeneralFrameIsDatagram` | crates/rptp/src/message.rs:370-387 | the octets of Announce, FollowUp and DelayResp, literally |
| `Datagram.SendEvent` | crates/rptp/src/port.rs:395-408 | what a port sends as an event message is its literal datagram, and is received as that message from that port, and only in its domain |
| `Datagram.SendGeneral` | crates/rptp/src/port.rs:410-419 | the same for general messages, exactly when canonical |

## Left out

- The daemon, the embedded demo, the metrics demo and the end-to-end harness: sockets, timers and register access. Their effect is the free choice of the next event.
- `crates/rptp/src/ordinary.rs`: the one-port case, with a cell in place of the map.
- Timer durations and restarts, including `QualificationTimeoutPolicy`: any timer may fire at any time; only the ownership of the announce receipt timer is modelled, as the condition of `Boundary.NoPanicInAnyRun`.
- The decision point (M1, M2, M3) is not carried into PRE_MASTER, since the crate uses it only for the qualification timeout.
- Liveness: nothing is claimed about how long a silent parent is followed; pruning happens only when an Announce is considered.
- Floating point: the servo computes on exact reals; rounding, NaN and convergence of the control loop are not modelled. Configurations with a lower drift limit above the upper one, on which `f64::clamp` panics, are excluded by the type of the configuration.
- Logging, metrics, error text and `Display`, and the `ForeignClockStatus` that `update_from` returns and both stores ignore.
- Theorems.CachesAreCoherent: runs use the growable store; the bounded store has its own run theorem and is not composed with the clock.
- PortMachine.EveryStepIsAMove: the port states are values inside the in-place `PortFsm`; that the crate moves its collaborators from state to state instead of copying them is not captured.
- Boundary.BoundaryClock.Trigger: the crate restarts one timer per port with the new message. Snapshots are kept in a mailbox from which any one may be delivered, dropping older ones; this covers both a queue and a timer that keeps only the newest.
- Clock identities are numbers below 2^64 instead of octet arrays; `Wire.IdentityOrderIsByteOrder` justifies this.
- Theorems.AtMostOneSlave: ports that have not yet evaluated the same snapshot may briefly both be slave-like, as in the crate.
- Wire.ReceiveEvent and Wire.ReceiveGeneral model a port map with one domain; other maps supplied by an integration are not modelled.
- `TimeScalePolicy` and the management control field, which the crate defines and does not use.

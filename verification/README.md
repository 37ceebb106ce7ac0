# Verified model of the Aethor arm firmware

Dafny models of the state machines, byte protocols and trajectory arithmetic of the motor-arm
firmware and of its two host tools, with proofs over every input and every run. `dafny verify
dfyconfig.toml` checks the project.

The firmware keeps its state in static records that each call updates in place, and so do the
models: a class holds the record, its methods have the source's branches and loops, and the
contract of every state-changing method equates the new record with a function of the old one. The
lemmas about whole runs are proved about those functions, for arbitrary calls, replies and times.

## What is modelled

- **One-shot actions and the service loop** (`OneShot`, `OneShotAction`, `OneShotRuns`,
  `OneShotCompletion`, `OneShotReference`, `DeferredResults`, `Executor`, `ExecutorLoop`,
  `ExecutorRuns`). A USB command passes through discovery, preflight disable, mode switch, fault
  clearing, enabling, moving, holding and disabling, or through one of two cleanups. The states
  only go up, every expired service makes progress, the pump restarts each deadline at most once,
  success needs a confirmed DISABLE, and a command can succeed exactly when its values fit its
  motors. In the loop around it every one-shot yields exactly one terminal, every STOP covers what
  it cancels and what is still unconfirmed, and motors leave the unconfirmed set only on fresh
  evidence while nothing else runs.
- **The fixed-range mapping transaction** (`Mapping`, `MappingRuns`, `MappingRecovery`). A protocol
  with one permitted write, read-back evidence and a persistent failure lock, over a peer that
  answers arbitrarily; which failures can still be recovered is characterised exactly.
- **The acquisition probe** (`AcquisitionProbe`, `ProbeRuns`). At most five frames of a fixed
  shape, and receive counters that balance.
- **Trajectories** (`SyncTrajectory`, `Quintic`, `HostMotion`, `MitSpeed`). The synchronised
  trapezoid is the shortest that respects every joint's limits, its samples respect them across
  phase boundaries, and all joints land together. The quintic's slope is bounded by exactly 1.875,
  and by exactly a little less between whole milliseconds.
- **The two-motor key controller** (`DualMotor`, `DualMotorRuns`, `DualMotorPresses`) and **the
  seven-joint startup** (`JointStartup`, `JointControllerState`, `JointStartupRuns`,
  `StartupModeRuns`).
- **Byte transport and shared memory** (`UsbTransport`, `UsbCdc`, `SeqLock`, `FaultMailbox`). The
  sequence lock and the mailbox are proved access by access, under any interleaving.
- **Checksums and framing** (`Crc`, `Crc8`, `Framing`). Linearity, burst detection and round trips.

## How the model reads the source

- Build choice: `AETHOR_ADRC_BENCH` is 0 and local-panel motion is permitted; commands come over USB.
- Masks are sets of joint or motor indices. Counters and stamps that wrap in the source wrap here at
  the same width; 64-bit microsecond times are unbounded, with the representability checks of
  deadlines kept where the source makes them.
- Floating-point values are reals, with an explicit non-finite case where the code tests for one.
  The square root is supplied as the positive root of its argument.
- Mode command frames, the protocol engine, the discovery service, the motor snapshot and the clock
  are inputs that may answer anything, refusals included; what discovery verified about each motor
  is a parameter, and frames with positions are refused exactly as the runtime refuses them. The
  transport's answer to the n-th frame is an arbitrary function of n.
- Entry points are atomic, except in `SeqLock` and `FaultMailbox`; so a command or STOP that a
  service call pops was published before the call.
- Joints displaced by no more than epsilon keep their displacement but are outside the speed and
  acceleration claims, since the source leaves them out of the limit calculation.

## Where the code differs from what one might expect

- The host simulator times an MIT move for a straight line but samples the quintic, so a move may
  exceed the requested speed; `MitSpeed.MitKeepsRequestIff` says exactly which do, by a test on
  distance, duration and speed, and `HostMotion.MitExceedsRequest` is an example.
- Beginning a discovery forgets the identity of the motor, and nothing learns it again while a
  mapping is FAILED. A position mapping that fails while it rediscovers the motor can therefore be
  locked until reboot: `MappingRecovery.DeadEnd` is such a run, and
  `MappingRecovery.FailedCanRecoverIff` says which failures can be recovered.
- A command that was accepted may still never complete; `OneShotCompletion.CompletableIffGuards`
  says which can.
- The frame counter of a package envelope is not protected by its checksum:
  `Framing.OneByteChange` states that every other single-byte change is noticed.
- A checksum of sixteen bits cannot notice every longer burst; of seventeen bits exactly one pattern
  hides, the generator: `Crc.SeventeenBitsHideIff`.
- The seven-joint controller takes the acknowledgement of a repeated mode write for the answer to
  the mode read that follows: `StartupModeRuns.EchoesAloneConfirm` is such a run. When this can happen
  is said by `StartupModeRuns.EchoConfirmsIff`; with a single write it cannot
  (`StartupModeRuns.SingleWriteIsAnswered`).

## Model

Methods that do not appear are helpers of the listed ones, with contracts of the same form.

| member | source | states |
|---|---|---|
| SyncTrajectory.ConsecutiveSamples | User/sync_trajectory.c:175-256 | for every valid request, active trajectory and positive step: progress never decreases, and each moving joint's position and velocity change by at most its scaled speed and acceleration times the step, across any phase boundary and the final clamp |
| SyncTrajectory.CurveBounds | User/sync_trajectory.c:196-252 | between any two times of a profile the progress rises by at most peak times the gap, and the rate changes by at most acceleration times the gap |
| SyncTrajectory.ProgressInUnit | User/sync_trajectory.c:196-245 | progress stays in [0,1] |
| SyncTrajectory.ProfileRespectsJoint | User/sync_trajectory.c:95-161 | peak rate and acceleration of the chosen profile keep every moving joint inside its scaled limits |
| SyncTrajectory.LeastDuration | User/sync_trajectory.c:112-161 | no trapezoid or triangle of unit distance, symmetric or not, that respects every moving joint is shorter than the chosen profile, which itself is one of them |
| SyncTrajectory.RunOnProfile | User/sync_trajectory.c:186-245 | after n fixed steps the trajectory is active exactly when n periods are shorter than its duration, and then sits on the profile at n periods |
| SyncTrajectory.CompletesTogether | User/sync_trajectory.c:222-254 | at the first step covering the duration, and not before, all joints are exactly on target with zero velocity |
| SyncTrajectory.ChoiceIsSound | User/sync_trajectory.c:119-161 | the triangle or trapezoid picked from the two limits covers exactly distance one and satisfies both limits |
| SyncTrajectory.Motion.InputsAreValid | User/sync_trajectory.c:23-45 | accepts exactly the requests whose values are all finite and whose bounds are positive |
| SyncTrajectory.Motion.Start | User/sync_trajectory.c:57-164 | the status for each kind of input, an untouched state on error, and the profile chosen for the tightest normalised bounds otherwise |
| SyncTrajectory.Motion.NormaliseLimits | User/sync_trajectory.c:95-117 | the loop finds the smallest normalised speed and acceleration among joints displaced by more than epsilon, or none |
| SyncTrajectory.Motion.Step | User/sync_trajectory.c:175-256 | an invalid time step changes nothing; otherwise the record becomes the stepped trajectory and both output arrays are filled from it |
| SyncTrajectory.Motion.EmitSetpoints | User/sync_trajectory.c:246-254 | every joint's setpoint is start plus displacement times progress, and displacement times rate |
| Quintic.ShapeBounds | tools/aethor_host_simulator.py:172-189 | the quintic is monotone, stays in [0,1] and rises by at most 1.875 times the gap |
| Quintic.SecantIsSlope | tools/aethor_host_simulator.py:186-189 | the slope of the quintic between two ratios is a fixed polynomial in both |
| Quintic.FactorIsLeast | App/aethor_app.c:164 | no factor below 1.875 bounds the slope of the quintic |
| Quintic.ChooseDuration | App/aethor_app.c:2457-2514 | the loop over joints returns the least whole number of microseconds that covers every selected joint at its requested speed, and nothing exactly when some joint's time is not representable |
| Quintic.AverageSpeedWithinRequest | App/aethor_app.c:2479-2514 | between any two samples of the curve a selected joint stays between start and target and keeps its average speed within the request |
| HostMotion.Simulator.MoveJoints | tools/aethor_host_simulator.py:336-351 | which requests are busy, bad or accepted, and that an accepted move gets the least whole millisecond duration, at least four, in which every joint reaches its target at the requested speed |
| HostMotion.Simulator.AdvanceMove | tools/aethor_host_simulator.py:172-193 | positions and velocities follow the active move's curve; from its end on they are the targets and zero, and the move is reported completed |
| HostMotion.StaysOnSegment | tools/aethor_host_simulator.py:172-193 | a simulated joint never leaves the stretch between start and target, starts at the start and ends on the target |
| HostMotion.PosVelKeepsSpeed | tools/aethor_host_simulator.py:336-351 | in position-velocity mode the average speed between any two samples keeps the request |
| HostMotion.MitKeepsScaledSpeed | tools/aethor_host_simulator.py:336-351 | in MIT mode it is within 1.875 times the request |
| MitSpeed.MitKeepsRequestIff | tools/aethor_host_simulator.py:172-193 | a MIT move of at least four milliseconds, the least the simulator gives, keeps the requested speed between every two samples if and only if its travel times Peak of its duration D fits the travel the request allows in D, where Peak is 1.875 - 5/D^2 + 6/D^4 for even D and 1.875 - 1.25/D^2 + 0.375/D^4 for odd D |
| MitSpeed.SlopeAtMostPeak | tools/aethor_host_simulator.py:172-193 | no pair of millisecond samples of the quintic is steeper than Peak |
| MitSpeed.MidpointIsPeak | tools/aethor_host_simulator.py:172-193 | the pair around the midpoint is exactly that steep |
| MitSpeed.GridPeak | tools/aethor_host_simulator.py:172-193 | the integer inequality behind it, over all pairs of grid points |
| Mapping.Transaction.Start | App/aethor_app.c:3631-3686 | admits exactly under the admission rule and then holds the full initial record; otherwise changes nothing |
| Mapping.Transaction.Receive | App/aethor_app.c:3689-3758 | the new record and whether the frame is kept from the runtime, for any frame in any state |
| Mapping.Transaction.Next | App/aethor_app.c:3761-3847 | the new record and the frame emitted by one service call in any state |
| MappingRuns.DoneNeedsEvidence | App/aethor_app.c:3689-3847 | DONE is reached only through nine ordered milestones of one run: admission, read request, source read-back of an allowed value in time, the only write, read request, read-back equal to the target in time, rediscovery of the target identity, DISABLE, and disabled fault-free feedback stamped no earlier than it |
| MappingRuns.ChainExists | App/aethor_app.c:3631-3847 | every live state carries exactly the milestones up to it |
| MappingRuns.DoneWithinWindow | App/aethor_app.c:3761-3847 | with a clock that does not run backwards all nine milestones fall within three seconds of the admission, and the quiet and settle intervals are kept |
| MappingRuns.AcknowledgementsChangeNothing | App/aethor_app.c:3711-3734 | for every record and every sequence of calls, leaving out all write acknowledgements gives the same final record, so an acknowledgement never stands in for a read-back |
| MappingRuns.ForwardAtMostOnce | App/aethor_app.c:3662-3663 | only the first admission of a boot can be a forward change, so no run admits two |
| MappingRuns.FailureRemembered | App/aethor_app.c:3576-3587 | a failed state keeps the reason, plan and time of its one failing call |
| MappingRuns.LockOpensOnlyByRestore | App/aethor_app.c:3645-3684 | a failed state is left only by an admitted restore of the same family and register, after its DISABLE was popped and disabled feedback no older than the failure was received recently |
| MappingRuns.LockedStretch | App/aethor_app.c:4618-4644 | over any run, from an admission until DONE, through failures and restores: no control group is popped, no command except STOP or DISABLE begins, and normal feedback only passes as the new disabled baseline |
| MappingRuns.FailedStretch | App/aethor_app.c:3735-3756 | in every step from a failing one up to the admitted restore that ends the lock: besides the above, no normal feedback reaches the runtime at all, and the step that ends the stretch restores the failed family |
| MappingRecovery.FailedCanRecoverIff | App/aethor_app.c:3653-3674 | a reachable failure can still complete if and only if its family is the velocity range, or the retained identity is the audited one with a position range of the family |
| MappingRecovery.StuckIff | App/aethor_app.c:3631-3847 | every reachable record can still reach DONE, except exactly a failure that cannot be recovered |
| MappingRecovery.DeadEnd | App/aethor_app.c:3801-3806 | a concrete run, a wide position change stopped during its rediscovery, after which every sequence of calls stays FAILED |
| MappingRecovery.ForgottenByDiscovery | App/aethor_app.c:3801-3821 | every position change stopped while it begins to rediscover the motor ends that way |
| MappingRecovery.AdmittedCanComplete | App/aethor_app.c:3675-3847 | every admission, whatever its family and direction, can be continued to DONE |
| MappingRecovery.ReachedIsKept | App/aethor_app.c:3631-3847 | outside its own discovery and a failure a locked record still knows an identity that a restore accepts |
| DualMotor.DualController.ServicePendingDisable | User/dual_motor_controller.c:156-172 | each owed DISABLE is sent in order, and stays owed when rejected |
| DualMotor.DualController.SendToBoth | User/dual_motor_controller.c:353-399 | sends to both motors up to the first rejection, which latches the fault |
| DualMotor.DualController.DirectionFits | User/dual_motor_controller.c:308-327 | true exactly when one turn from both positions stays inside both ranges |
| DualMotor.DualController.Accept | User/dual_motor_controller.c:333-375 | the whole acceptance of a move, including its fallback direction and each failure |
| DualMotor.DualController.FeedbackIsRecent | User/dual_motor_controller.c:406-420 | true exactly when both motors reported within the timeout |
| DualMotor.DualController.Step | User/dual_motor_controller.c:454-560 | one whole controller step as a function of the old state, the key and the transport |
| DualMotor.DualController.OnCanFrame | User/dual_motor_controller.c:567-705 | dispatch of a received frame to reply or feedback handling |
| DualMotorRuns.EveryRunKeepsInv | User/dual_motor_controller.c:454-705 | startup progress, targets and arrival counters are consistent in every reachable state, for any transport |
| DualMotorRuns.TargetsAreOneTurn | User/dual_motor_controller.c:333-375 | in ENABLING, MOVING and HOLDING both targets are exactly one turn from their starts in the same direction, inside each range, and the next direction is the opposite one |
| DualMotorRuns.EventEmits | User/dual_motor_controller.c:454-560 | every frame sent in an event is an owed DISABLE or permitted by the stage the event began in |
| DualMotorRuns.EnableNeedsConfiguration | User/dual_motor_controller.c:333-375 | ENABLE is only handed over with both motors fully configured, on recent feedback, in READY or HOLDING, on a trigger |
| DualMotorRuns.FaultIsFinal | User/dual_motor_controller.c:136-172 | after FAULT stage and first reason never change and only DISABLE is sent |
| DualMotorRuns.RequestsAreBounded | User/dual_motor_controller.c:245-275 | each of the ten items is requested at most four times, so at most forty requests are ever sent |
| DualMotorRuns.MasksFollowIndex | User/dual_motor_controller.c:588-641 | the progress index determines exactly which modes and ranges are ready, and ready ranges are all three positive |
| DualMotorPresses.AcceptConsumesEdge | User/dual_motor_controller.c:494-514 | an accepted move consumes one armed, debounced press edge; the key is only armed by a stable release; the counter changes exactly there |
| DualMotorPresses.MovesNeedReleases | User/dual_motor_controller.c:283-301 | between any two accepted moves the key was stably released in READY or HOLDING |
| DualMotorPresses.AcceptedAfterSteadyPress | User/dual_motor_controller.c:283-301 | an accepted move is preceded by samples that were all pressed over the debounce time |
| DualMotorPresses.CyclesAreStreak | User/dual_motor_controller.c:677-703 | the arrival counter is the number of latest in-tolerance reports of the move in a row, capped at three |
| DualMotorPresses.HoldingNeedsArrival | User/dual_motor_controller.c:677-703 | entry to HOLDING means each motor's last three reports since MOVING began were all in tolerance |
| DualMotorPresses.StreakIsLatestReports | User/dual_motor_controller.c:677-703 | a streak of k names the k latest reports of the move, all in tolerance |
| DualMotorPresses.OnlyZeroCodesAlwaysPass | User/dm_motor_protocol.c:71-75 | the two 12-bit codes nearest zero velocity, and no others, pass the speed test for every positive range |
| OneShotAction.SelectedHaveState | App/aethor_app.c:1187-1207 | true exactly when every selected motor is valid and in the state |
| OneShotAction.SelectedFaultFree | App/aethor_app.c:1211-1230 | true exactly when every selected motor is valid and fault-free |
| OneShotAction.SelectedAdvanced | App/aethor_app.c:1241-1265 | true exactly when every selected motor reported after its baseline |
| OneShotAction.SelectedSafe | App/aethor_app.c:722-751 | true exactly when every selected motor may switch mode |
| OneShotAction.ActionRecord.FindInvalid | App/aethor_app.c:2115-2198 | what validation finds wrong, the loop over the joints of a MIT move included |
| OneShotAction.ActionRecord.ChooseSpan | App/aethor_app.c:2456-2563 | the loop over the selected joints: the first one without a representable time, or the time of the slowest |
| OneShotAction.ActionRecord.TargetsArrived | App/aethor_app.c:2627-2658 | true exactly when every selected motor is within half a degree of its target and fault-free |
| OneShotAction.ActionRecord.Service | App/aethor_app.c:1862-2033 | the service call preceded by the motor safety scan of energised phases |
| OneShotAction.ActionRecord.PopFrame | App/aethor_app.c:4797-4847 | one frame leaves; the last one of a batch restarts the deadline of the states that wait for it |
| OneShotAction.ActionRecord.Begin | App/aethor_app.c:2780-2857 | admission of a USB request |
| OneShotRuns.ServiceSound | App/aethor_app.c:2867-3273 | a service call ends the action, moves it up the cycle with a new deadline, or leaves state and deadline alone; the last is impossible at or past the deadline |
| OneShotRuns.StateNeverDecreases | App/aethor_app.c:193-202 | over any run of calls and pops the state never moves down the enumeration until the action ends |
| OneShotRuns.ExpiredServiceMoves | App/aethor_app.c:2867-3273 | every service at or past the deadline ends the action or moves it up |
| OneShotRuns.OnlyRearmingMovesDeadline | App/aethor_app.c:4797-4847 | within a state only the pop of the last batch frame changes the deadline |
| OneShotRuns.RearmsOncePerState | App/aethor_app.c:4797-4847 | the pump restarts each state's deadline at most once |
| OneShotRuns.BoundedChanges | App/aethor_app.c:2867-3273 | an action meets at most nineteen expired services and deadline restarts before it ends |
| OneShotRuns.CompletedNeedsConfirmedDisable | App/aethor_app.c:3147-3168 | a move or MIT action is COMPLETED only out of the final DISABLE wait, after its whole batch was dequeued and every selected motor reported DISABLED newer than its baseline at the batch |
| OneShotCompletion.CompletableIffGuards | App/aethor_app.c:2048-2270 | under given limits, and while the clock can represent the deadlines, a move or MIT command has a run that ends COMPLETED if and only if its values are finite, its limits known, its targets and positive speeds in range unless it holds still, and its gains and torque in range where the MIT protocol carries them |
| OneShotCompletion.CompletedMeansGuards | App/aethor_app.c:2048-2270 | no run completes that the guards refuse |
| OneShotCompletion.GuardsCanComplete | App/aethor_app.c:2867-3273 | the run in which motors that stand on their targets take a guarded command through the whole cycle, with the spans and batches the code computes |
| OneShotCompletion.ServiceJustified | App/aethor_app.c:2867-3273 | in any state, passing validation and entering the hold take the checks of the code |
| OneShotReference.SpanIsLeastCover | App/aethor_app.c:2457-2514 | the span of a guarded reference is the least duration that covers every selected joint at its requested speed |
| OneShotReference.ReferenceKeepsSpeed | App/aethor_app.c:2389-2421 | between any two samples of a started reference every selected joint keeps its requested speed on average and stays between where it was measured and its target |
| OneShotReference.VelocityWithinRequest | App/aethor_app.c:2397-2411 | no sampled velocity exceeds the requested speed |
| OneShotReference.SamplesFit | App/aethor_app.c:2389-2421 | measured within range, a guarded reference never lacks a frame at any time |
| DeferredResults.HistoryInOrder | App/aethor_app.c:755-821 | for any answers of the engine delivered plus waiting results are the accepted ones in order, and at most four wait |
| DeferredResults.SubmitKeepsOrder | App/aethor_app.c:773-797 | a submission is accepted unless four wait, is last in order, and never overtakes |
| DeferredResults.FlushKeepsOrder | App/aethor_app.c:801-821 | flushing moves a prefix, loses nothing and reorders nothing |
| DeferredResults.Ring.Count | App/aethor_app.c:755-759 | wrapping 8-bit counters give the number of waiting results |
| DeferredResults.Ring.SubmitOrDefer | App/aethor_app.c:773-797 | the ring refines the bounded queue on submission, across counter wrap |
| DeferredResults.Ring.Flush | App/aethor_app.c:801-821 | the ring refines the bounded queue on flushing |
| ExecutorLoop.ServiceTask.LockTargets | App/aethor_app.c:6852-6936 | adds motors to the debt and stamps exactly those |
| ExecutorLoop.ServiceTask.CancelPoppable | App/aethor_app.c:6852-6936 | queued commands are cancelled in order while results fit |
| ExecutorLoop.ServiceTask.Service | App/aethor_app.c:6335-6679 | one whole service call as a function of the old state |
| ExecutorRuns.ServiceKeeps | App/aethor_app.c:6335-6679 | a call keeps the rule that an active one-shot implies an empty result store, and the ledger of one-shots grows exactly by the one it begins |
| ExecutorRuns.ActiveCanAlwaysEnd | App/aethor_app.c:919-1009 | in every reachable state the terminal of an active one-shot can be stored, whatever the engine answers |
| ExecutorRuns.OneTerminalEach | App/aethor_app.c:919-1009 | over any run the accepted one-shot terminals are the begun one-shots, in order, each once, except the one still active |
| ExecutorRuns.ServiceDebt | App/aethor_app.c:8064-8083 | in one call the debt is cleared, on full evidence and while nothing executes or waits, or it only grows; a call that pops a STOP clears nothing, and the STOP covers all of the debt |
| ExecutorRuns.DebtLeavesOnEvidence | App/aethor_app.c:7921-7967 | a motor leaves the debt only in a step where no action, bypassing STOP or undelivered result exists, no STOP or command waits, and every motor of the debt has valid feedback newer than its own lock that is DISABLED, fault-free and nearly still |
| ExecutorRuns.LockTimeIsACall | App/aethor_app.c:6852-6936 | the lock time kept for a motor in debt is that of a call which locked it |
| ExecutorRuns.StopCovers | App/aethor_app.c:6547-6583 | every popped STOP covers its own motors, the motion it cancels, active or queued, and the whole debt |
| ExecutorRuns.StopCoversEarlierLocks | App/aethor_app.c:6630-6660 | a motor locked before a STOP was popped is covered by it unless an earlier step confirmed the debt |
| Crc.Crc16 | tools/aethor_host_simulator.py:17-24 | the loop returns the fold of the byte step from the seed |
| Crc8.Crc8 | tools/analyze_6620_package_format.py:33-40 | the loop returns the fold of the byte step from the seed |
| Crc.ShiftLinear | tools/aethor_host_simulator.py:20-23 | one bit step is linear over exclusive or |
| Crc.StepInjective | tools/aethor_host_simulator.py:19-23 | a byte step is injective in the register and in the byte |
| Crc.FeedIsAlign | tools/aethor_host_simulator.py:17-24 | feeding up to sixteen bits equals adding them in and shifting |
| Crc.FoldIsFeed | tools/aethor_host_simulator.py:17-24 | the byte-wise CRC is the bit-wise register fed with the message bits |
| Crc.FeedLinear | tools/aethor_host_simulator.py:17-24 | the CRC of a difference is the difference of the CRCs, up to the seed |
| Crc.BurstDetected | tools/aethor_host_simulator.py:17-24 | messages differing only within sixteen consecutive bits end in different registers |
| Crc.BurstChangesCrc16 | tools/aethor_host_simulator.py:17-24 | two different equal-length bodies differing only in a burst of up to sixteen bits never share a CRC-16 |
| Crc.TwoBytesChangeCrc16 | tools/aethor_host_simulator.py:17-24 | nor do two differing only in two adjacent bytes |
| Crc.WindowDecides | tools/aethor_host_simulator.py:17-24 | messages that differ only inside a window share a register exactly when the window's differences leave nothing behind |
| Crc.SeventeenBitsHideIff | tools/aethor_host_simulator.py:17-24 | bodies that differ only inside seventeen consecutive bits share a CRC-16 if and only if they are equal or their difference there is the generator |
| Crc8.Fold8Linear | tools/analyze_6620_package_format.py:33-40 | checksums of equally long payloads differ by the checksum of their difference |
| Crc8.Fold8IsFeed | tools/analyze_6620_package_format.py:33-40 | the byte-wise CRC-8 is the bit-wise register fed lowest bit first |
| Crc8.BurstChangesCrc8 | tools/analyze_6620_package_format.py:33-40 | two different equal-length payloads differing only in a burst of up to eight bits never share a CRC-8 |
| Crc8.ByteChangesCrc8 | tools/analyze_6620_package_format.py:33-40 | no change of a single byte preserves the CRC-8 |
| Framing.FrameRoundTrip | tools/aethor_host_simulator.py:237-252 | framing is undone exactly for every well-formed body, and every other body is refused as a bad frame |
| Framing.AcceptedCarriesChecksum | tools/aethor_host_simulator.py:237-252 | whatever is accepted is its body followed by text that reads as the body's CRC |
| Framing.DamagedFrameRejected | tools/aethor_host_simulator.py:27-30 | a frame whose body was hit by a burst of up to sixteen bits is never accepted |
| Framing.ReadFourReads | tools/aethor_host_simulator.py:237-252 | a four-digit hexadecimal reader meets what the other lemmas ask of the reader |
| Framing.EnvelopeRoundTrip | tools/analyze_6620_package_format.py:43-60 | extracting a framed payload gives the payload, whatever the counter |
| Framing.OneByteChange | tools/analyze_6620_package_format.py:50-60 | changing any one byte of an envelope is noticed exactly when it is not the unprotected counter |
| Framing.PackageRoundTrip | tools/analyze_6620_package_format.py:104-112 | a package is chunked, framed and reassembled unchanged, and framing succeeds exactly up to 256 chunks |
| UsbTransport.ConsumeIsSplit | User/usb_cdc_transport.c:104-134 | one byte keeps the assembler equal to a pure split of everything taken |
| UsbTransport.ReportsFollowStream | User/usb_cdc_transport.c:104-239 | for any packets and interleaving the reports are the split of the bytes taken, which with the pending ones are the accepted stream |
| UsbTransport.BoundariesDoNotMatter | User/usb_cdc_transport.c:162-239 | two histories that accepted and took the same bytes dispatched the same lines and overlong reports |
| UsbTransport.QueueInOrder | User/usb_cdc_transport.c:37-72 | messages that left plus those waiting are those queued, in order, at most the queue depth waiting, and none leaves on BUSY |
| UsbTransport.DeliveredMinusErrors | User/usb_cdc_transport.c:201-239 | for every run the host received exactly the queued lines, in order, minus the positions answered ERROR, up to what still waits |
| UsbCdc.RxRing.Receive | User/usb_cdc_transport.c:162-196 | a packet is appended whole or not at all, exactly when it fits |
| UsbCdc.RxRing.Pop | User/usb_cdc_transport.c:203-208 | the oldest byte leaves |
| UsbCdc.LineBuffer.Consume | User/usb_cdc_transport.c:104-134 | the in-place line buffer refines the assembler and gives its reports |
| UsbCdc.TxQueue.Put | User/usb_cdc_transport.c:37-72 | a line is stored last, or refused when the queue is full or the line too long |
| UsbCdc.TxQueue.Drop | User/usb_cdc_transport.c:221-237 | the oldest line leaves |
| UsbCdc.CdcTransport.Service | User/usb_cdc_transport.c:201-239 | one service call drains the ring and then transmits at most one line |
| SeqLock.ReaderReturnsPublication | Ui/lv_port_disp.c:144-162 | with writers preempting between any two accesses and no full wrap, the reader returns exactly the latest whole publication |
| SeqLock.RunKeepsInv | Ui/lv_port_disp.c:31-54 | over any interleaving an even counter means the fields are the last publication |
| SeqLock.RefreshRecord.TransferDone | Ui/lv_port_disp.c:57-70 | completion releases the owner once, publishing success of the last chunk or failure |
| SeqLock.RefreshRecord.Flush | Ui/lv_port_disp.c:73-102 | every flush is answered exactly once, at once or on completion, and owns the transfer exactly when started |
| FaultMailbox.TakeMergesBatch | App/aethor_app.c:510-541 | access by access, a take returns the OR of the details it consumes and the oldest stamp, never a half-written slot |
| FaultMailbox.WritesFreeSlot | App/aethor_app.c:8303-8315 | the producer never writes a slot in which a fault waits |
| FaultMailbox.DropLeavesFaultPending | App/aethor_app.c:8303-8308 | a report that succeeds on a full mailbox leaves both earlier faults pending |
| FaultMailbox.RunKeepsInv | App/aethor_app.c:8271-8317 | the interleaved protocol keeps its invariant across counter wrap |
| FaultMailbox.FaultBox.ReportFault | App/aethor_app.c:8271-8317 | uninterrupted, a report is appended when it fits and accepted exactly when it has a detail |
| FaultMailbox.FaultBox.TakeFaults | App/aethor_app.c:510-541 | uninterrupted, a take empties the mailbox into one merged fault |
| AcquisitionProbe.ProbeRecord.PopProbeFrame | App/aethor_app.c:6211-6304 | which probe frame a pop emits, if any, and the record it leaves |
| AcquisitionProbe.ProbeRecord.ReceiveFrame | App/aethor_app.c:4980-5026 | how one received frame is counted |
| ProbeRuns.AcquisitionShape | App/aethor_app.c:6211-6304 | an acquisition emits at most DISABLE, neutral and three more DISABLE, each after a success report since the previous one, retries at least four milliseconds apart, none at or past the deadline |
| ProbeRuns.CountsBalance | App/aethor_app.c:4980-5026 | counted frames equal DISABLE-phase plus neutral-phase plus unassigned frames, modulo the counter width |
| JointControllerState.JointController.DisableEach | User/joint_controller.c:128-134 | DISABLE to every joint of a mask in order, whatever the transport answers |
| JointControllerState.JointController.DisableUntilRejected | User/joint_controller.c:860-874 | DISABLE to every joint of a mask in order, up to the first rejection |
| JointControllerState.JointController.SkipInactive | User/joint_controller.c:757-765 | the loop skips exactly the items of inactive joints |
| JointControllerState.JointController.IsSilent | User/joint_controller.c:1017-1026 | true exactly when some joint of the mask has not reported within the timeout |
| JointControllerState.JointController.SendSetpoints | User/joint_controller.c:1053-1082 | setpoints to enabled joints in order up to the first rejection |
| JointControllerState.JointController.Step | User/joint_controller.c:961-1083 | one whole step as a function of the old state |
| JointControllerState.JointController.StartAllJoints | User/joint_controller.c:192-232 | ENABLE to all active joints, only when all are confirmed |
| JointControllerState.JointController.FindJoint | User/joint_controller.c:46-65 | the first active joint with the master identifier |
| JointControllerState.JointController.OnCanFrame | User/joint_controller.c:1090-1278 | dispatch of a received frame |
| JointControllerState.JointController.Submit | User/joint_controller.c:536-693 | the state-changing commands and their verdicts |
| JointStartupRuns.RunKeepsInv | User/joint_controller.c:700-955 | for any set of active joints and any run the indices and ready masks agree |
| JointStartupRuns.SkippedRules | User/joint_controller.c:757-765 | skipping stops at an active joint or the end and passes over no active joint |
| JointStartupRuns.MissingBranchesUnreachable | User/joint_controller.c:766-842 | once the items are exhausted all active joints are confirmed, so neither the missing-mode nor the missing-range shutdown can be taken |
| JointStartupRuns.IndexDeterminesMasks | User/joint_controller.c:1116-1180 | a joint is mode-ready or range-ready exactly when the index passed its items, and ready ranges are three positive numbers |
| JointStartupRuns.EnableNeedsConfirmation | User/joint_controller.c:184-274 | ENABLE answers a start command and goes only to active, fault-free joints with confirmed mode, ranges and feedback |
| StartupModeRuns.ModeWasReplied | User/joint_controller.c:1100-1142 | a joint became mode-ready by a reply, answer or write acknowledgement, from its own motor that carried the position-velocity mode while its read request was outstanding |
| StartupModeRuns.EventAdvances | User/joint_controller.c:750-807 | in any event the mode index only advances, requests name the item it stands at, and a joint's write item is passed only on a mode reply of its own motor |
| StartupModeRuns.WriteIsOver | User/joint_controller.c:1135-1142 | once a joint's write item is passed its write request is never sent again |
| StartupModeRuns.WriteWasEchoed | User/joint_controller.c:1116-1142 | if requests are replied to at most once, a passed write item was acknowledged by the joint's own motor |
| StartupModeRuns.SingleWriteIsAnswered | User/joint_controller.c:1135-1142 | if requests are replied to at most once, a mode-ready joint whose write was sent once became so by an answer to its read request |
| StartupModeRuns.EchoConfirmsIff | User/joint_controller.c:1116-1142 | while a joint's read request is outstanding, some continuation confirms it by a write acknowledgement exactly when the motor has acknowledged fewer writes than it was sent |
| StartupModeRuns.EchoesAloneConfirm | User/dm_motor_protocol.c:298-322 | a run in which a joint becomes mode-ready though no motor answered any read request |

## Left out

- Commands of the local debug panel in the one-shot model: its health failure can restart a cleanup, which breaks the state order.
- Static-load and position-load operations, persistence and the standby files: their bodies are not part of this model.
- Lifecycle actions other than one-shots: only their motor mask, when they end and what their end stores is modelled.
- Result metadata: of a terminal only the identifier, the kind of owner and the ending are modelled.
- OneShotRuns.CompletedNeedsConfirmedDisable: leaves out the bench-only mode switch, which by design completes without a final DISABLE.
- OneShotRuns.StateNeverDecreases: speaks of USB-origin commands only.
- SeqLock.ReaderReturnsPublication: assumes that the counter does not wrap all the way round within one read.
- MappingRuns.DoneWithinWindow: assumes call times that do not run backwards; the order of the milestones needs no such assumption.
- Framing.FrameRoundTrip: the readers of decimal identifiers and hexadecimal checksums are parameters that must read back what is rendered; the host language accepts further spellings.
- OneShotCompletion.CompletableIffGuards: takes the limits of the motors to be the same throughout a run; in the firmware a new discovery may change them.
- OneShotReference.SamplesFit: asks that the measured positions lie within the ranges, since the quintic starts there.
- MappingRecovery.StuckIff: speaks of builds without standby recovery, which may also clear the retained identity when an admission interrupts it.
- DualMotor.DualController.FeedbackIsRecent: an interrupt between reading the clock and the stamp is not modelled, since entry points are atomic.
- JointControllerState.JointController.Step: trajectory sampling and setpoint conversion are inputs, and the arrival counters that only feed status texts are left out.
- JointControllerState.JointController.Submit: a move's validation and planning are an input, and the commands that only answer with text are left out.
- The joint controller makes no claim that READY means startup finished or that no target follows a fault, and the two-motor controller none that no motor is enabled in FAULT: the code does not keep them.
- StartupModeRuns.EchoConfirmsIff: speaks of runs in which a motor replies at most once to each mode request; replies to requests of other senders are not part of it.
- ExecutorRuns.DebtLeavesOnEvidence: the busy conditions of subsystems outside this model (persistence, static load, discovery) are one input.
- Null pointers, empty response buffers and the text of responses.
- Float rounding, in particular the host's division before rounding a duration up, and setpoint conversion errors.
- Drawing, key mapping, the display driver, and the HAL, CAN, RTOS and USB glue: scheduling and foreign calls.
- The simulator's relative moves, telemetry, watchdog and replay memory.
- Instruction decoding and vector scanning in the package analyser: file work.

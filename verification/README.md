# Verification of the flight-control core

A Dafny model of three parts of the firmware, with proofs of what they are for.

**Covariance filter.** `ErrorDynamics` states the motion of the 15-dimensional error of the inertial
filter, its split into the part of first order in the time step and the rest, and the truncated error
the script keeps, without the squared time step in the attitude; two sparse matrices `A` and `G` are
proved to be the derivative of that truncated error. `DroppedTerms` gives the derivative of the
predicted error itself, and proves exactly when the truncation costs nothing to first order.
`CovariancePrediction` holds the generated prediction, 144 temporaries
and 120 written entries, line by line. `CovarianceEntries` and `CovarianceRuns` prove that every entry
it writes is that of `A P A' + G Q G'`, that any run of predictions keeps a covariance symmetric and
positive semidefinite, and that it never touches the block of the biases. `Magnetometer` does the same
for the generated magnetometer update (the rows are the exact derivative, the variances are `h P h' + R`),
and `ChainRule` for the loops of the script that build the error map and cut the lower triangle.
`Attitude`, `LinearAlgebra` and `Reals` are the algebra underneath.

**Message bus and ring buffers.** `RingSpec` says what the fields of a ring buffer mean, `RingBuffers` is
the class with its split block copies in 32-bit arithmetic. `SrimbLog` is the bus as users see it, an
unbounded log and a cursor per subscriber; `SrimbTopics` holds the two topic classes and proves that
their fields serve that log. `WorkItems` is the rate division of work items. `Wakeup` is the protocol by
which a publish wakes subscribers after unlocking; the publishes and polls of the latest-value topic
are proved to be runs of it. `SpscProtocol` is the lock-free queue as interleaved
loads, stores and cell accesses, `SpscQueues` the class run without interruption.

**Low-pass filter.** `Biquad` is the filter class and its Butterworth coefficients, which are stable
exactly when the tangent they are computed from is positive and are those of a bilinear transform;
`BiquadRuns` proves the difference equation, convergence and an output bound over runs of any length,
the last two by an energy argument.

Numbers of the filter and of the covariance code are reals. Counters that wrap in the source are
newtypes of 8, 32 and 64 bits, so that every operation on them is proved to stay in range, or wraps
where the source wraps (`SrimbTopics.DistancePlusOne`).

Where code and description differ, the code is followed. The derivation script substitutes 1 for the
squared norm of the quaternion (`src/modules/EKF/python/ekf_derivation.py:153-160`), but the generated
code keeps it as a factor. `CovarianceRuns.AttitudeBlocks` says exactly when the two agree, and
`CovarianceRuns.AttitudeBlocksFail` gives a quaternion at which they do not. In the velocity rows the code
turns the acceleration with the homogeneous matrix in one block and with the unit form in the other;
`CovarianceRuns.VelocityBlocks` and `CovarianceRuns.VelocityBlocksFail` do the same for these. The script
also drops the squared time step (`src/modules/EKF/python/ekf_derivation.py:153-156`).
`ErrorDynamics.AttitudeErrorSplits` says exactly what that drops. `DroppedTerms.DroppingIsHarmless` says
exactly when the Jacobians are still those of the predicted error, and `DroppedTerms.DroppingCanHalve`
gives a state at which the true slope is twice theirs.

`dafny verify dfyconfig.toml` checks everything.

## Model

| member | source | states |
|---|---|---|
| ErrorDynamics.PropagateAtRest | src/modules/EKF/python/ekf_derivation.py:129-141 | without rotation a step keeps the attitude and moves the position with the old velocity; the velocity stays where the specific force balances gravity and grows with it in free fall |
| ErrorDynamics.NoiseActsAsBias | src/modules/EKF/python/ekf_derivation.py:119-123 | noise of an input acts as the same error of its bias |
| ErrorDynamics.AttitudeErrorSplits | src/modules/EKF/python/ekf_derivation.py:144-156 | the predicted attitude error is its part of first order in dt plus dt*dt times a part free of dt, for every quaternion, error, noise and input |
| ErrorDynamics.JacobiansAreDerivative | src/modules/EKF/python/ekf_derivation.py:111-168 | along every direction of error and noise each of the 15 components of the truncated error, the attitude without its squared time step, leaves zero with the slope given by A and G, up to a remainder that is at most quadratic |
| DroppedTerms.PredictedSlope | src/modules/EKF/python/ekf_derivation.py:144-151 | the slope of the predicted error itself, before anything is dropped: that of A and G, plus in the attitude dt*dt times a quarter of the squared norms of quaternion and rate times the turn and half the turned cross product of rate error and rate |
| DroppedTerms.SlopeIsUnique | src/modules/EKF/python/ekf_derivation.py:164-168 | there is no second slope that these statements could hold for |
| DroppedTerms.DroppingIsHarmless | src/modules/EKF/python/ekf_derivation.py:153-156 | A and G are the slope of the predicted error along every direction exactly when dt is 0, the bias-corrected rate is 0 or the quaternion is 0 |
| DroppedTerms.DroppingCanHalve | src/modules/EKF/python/ekf_derivation.py:153-156 | at a unit quaternion, no biases, rate 2 about the axis of the turn and dt 1, the predicted error has twice the slope A gives |
| CovarianceEntries.EntryMeetsTarget | src/modules/EKF/python/generated/predict_covariance.h:235-429 | each written entry on or above the diagonal is a row of A P against a sparse row of A plus a noise term in the temporaries |
| CovarianceRuns.TermsAreEntries | src/modules/EKF/python/generated/predict_covariance.h:45-214 | the temporaries are the entries of A, through the homogeneous rotation matrix and the turned acceleration |
| CovarianceRuns.PredictionIsExact | src/modules/EKF/python/generated/predict_covariance.h:45-431 | for every input, symmetric P or not, every entry of the result is that of A P A' + G Q G' on or above the diagonal and 0 below |
| CovarianceRuns.VelocityBlocks | src/modules/EKF/python/generated/predict_covariance.h:106-214 | for every quaternion the accelerometer-bias block of the velocity rows of A is -dt R; an entry of their attitude block is that of -dt [R(accel - bias)]x exactly for unit quaternions, dt 0, on the diagonal, or when the component of accel - bias it holds is 0 |
| CovarianceRuns.VelocityBlockAgrees | src/modules/EKF/python/generated/predict_covariance.h:106-214 | the whole attitude block is -dt [R(accel - bias)]x exactly for unit quaternions, dt 0, or an accelerometer that reads its bias |
| CovarianceRuns.VelocityBlocksFail | src/modules/EKF/python/generated/predict_covariance.h:106-214 | at the quaternion (2, 0, 0, 0), dt 1 and accel - bias along z the entry is 4 where -dt [R(accel - bias)]x has 1 |
| CovarianceRuns.UnitVelocityBlocks | src/modules/EKF/python/generated/predict_covariance.h:106-214 | for unit quaternions the velocity rows of A are -dt [R(accel - bias)]x and -dt R |
| CovarianceRuns.AttitudeBlocks | src/modules/EKF/python/generated/predict_covariance.h:53-94 | the attitude block of A is the identity exactly for unit quaternions; its gyro-bias block is -dt R off the diagonal always, and on the diagonal exactly for unit quaternions or dt 0 |
| CovarianceRuns.AttitudeBlocksFail | src/modules/EKF/python/generated/predict_covariance.h:53-94 | at the quaternion (2, 0, 0, 0) and dt 1 the entries are 4 and -4 where the identity and -dt R have 1 and -1 |
| CovarianceRuns.GyroContribution | src/modules/EKF/python/generated/predict_covariance.h:239-253 | for every quaternion the gyro noise of G Q G' adds dt*dt*gyro_var times the fourth power of its norm times the identity to the attitude block, in all nine entries |
| CovarianceRuns.UnitGyroContribution | src/modules/EKF/python/generated/predict_covariance.h:239-253 | for unit quaternions that is dt*dt*gyro_var times the identity |
| CovarianceRuns.MirroredIsExact | src/modules/EKF/python/ekf_derivation.py:170-178 | on a symmetric P the mirrored triangle is A P A' + G Q G' in every entry |
| CovarianceRuns.PredictKeepsBiasBlock | src/modules/EKF/python/generated/predict_covariance.h:358-429 | one prediction leaves the 6x6 block of the biases as it was |
| CovarianceRuns.RunKeepsCovariance | src/modules/EKF/python/generated/predict_covariance.h:235-431 | over every run with non-negative variances a symmetric positive semidefinite matrix stays one and its bias block never changes |
| CovarianceRuns.RunSplits | src/modules/EKF/python/generated/predict_covariance.h:235-431 | a run with one more step is that step after the run |
| LinearAlgebra.CongruencePositive | src/modules/EKF/python/ekf_derivation.py:172 | A P A' is positive semidefinite when P is, for matrices of any size |
| Attitude.SandwichIsRotation | src/modules/EKF/python/ekf_derivation.py:147-149 | q (u, v) q* is u times the squared norm of q and the homogeneous rotation of v |
| Attitude.RotationDerivative | src/modules/EKF/python/ekf_derivation.py:115 | turning any quaternion by a small angle changes each column of its rotation matrix by the cross product with that column of the homogeneous matrix |
| Magnetometer.RowsAreCrossProducts | src/modules/EKF/python/generated/compute_mag_innov_var_and_h.h:58-170 | for every state the three rows returned are the columns of the homogeneous rotation crossed with the reference, the rows of R' [mag_ref]x, and 0 outside the attitude |
| Magnetometer.InnovationIsRotated | src/modules/EKF/python/generated/compute_mag_innov_var_and_h.h:46-126 | for every state the innovation returned is R' mag_ref minus the measurement |
| Magnetometer.RowsAreDerivative | src/modules/EKF/python/generated/compute_mag_innov_var_and_h.h:47-170 | for every state and turn the innovation returned changes by exactly the rows returned times theta plus a quadratic part |
| Magnetometer.RemainderIsQuadratic | src/modules/EKF/python/generated/compute_mag_innov_var_and_h.h:47-126 | that part scales with the square of the turn |
| Magnetometer.RowsAreOrthogonal | src/modules/EKF/python/generated/compute_mag_innov_var_and_h.h:142-170 | Hx, Hy and Hz are orthogonal to the reference for every state |
| Magnetometer.RowLengths | src/modules/EKF/python/generated/compute_mag_innov_var_and_h.h:142-170 | for every state the squared lengths of the rows add up to twice that of the reference times the fourth power of the norm of the quaternion, so to twice that of the reference for unit quaternions |
| Magnetometer.InnovationLength | src/modules/EKF/python/generated/compute_mag_innov_var_and_h.h:117-126 | for unit quaternions innovation plus measurement is as long as the reference |
| Magnetometer.VarianceIsQuadratic | src/modules/EKF/python/generated/compute_mag_innov_var_and_h.h:128-140 | each variance is h P h' + R for the row h returned with it, for every P |
| Magnetometer.VarianceAfterRun | src/modules/EKF/python/generated/compute_mag_innov_var_and_h.h:128-140 | after any run of mirrored predictions no variance is below R |
| ChainRule.MapIsDerivative | src/modules/EKF/python/ekf_derivation.py:193-206 | along every error axis each of the 16 stored components of the true state changes by exactly t times the map from error states to stored states |
| ChainRule.RightFactorIsJacobian | src/modules/EKF/python/ekf_derivation.py:195-199 | p q changes by exactly s times the entry of the right-product matrix when a stored component of p changes by s |
| ChainRule.MapIsHalfRightFactor | src/modules/EKF/python/ekf_derivation.py:199-201 | the quaternion block of the map is half of the first three columns of that matrix |
| ChainRule.BuildErrorToStorage | src/modules/EKF/python/ekf_derivation.py:193-206 | the loops, from the halved right-product matrix and the shifted identity, build that map |
| ChainRule.ZeroLowerTriangle | src/modules/EKF/python/ekf_derivation.py:174-178 | the loops turn any matrix into its upper triangle |
| ChainRule.TriangularPrediction | src/modules/EKF/python/ekf_derivation.py:172-180 | from A P A' + G Q G' those loops leave exactly the matrix the generated function returns |
| ChainRule.GradientIsDerivative | src/modules/EKF/python/ekf_derivation.py:185-187 | the gradient is the linear part of the predicted measurement along each stored component |
| ChainRule.RowsAreChainRule | src/modules/EKF/python/ekf_derivation.py:185-210 | every entry of every row the generated function returns is that gradient times a column of the map |
| RingSpec.PushContents | lib/ringbuffer/RingBuffer.hpp:103-117 | a push appends and drops the oldest element exactly when the ring is full |
| RingSpec.PushAllContents | lib/ringbuffer/RingBuffer.hpp:103-117 | pushing any sequence keeps the last size elements of old contents and sequence |
| RingSpec.PushAllCells | lib/ringbuffer/RingBuffer.hpp:146-158 | the cells and the write index after a batch of at most size pushes, in closed form |
| RingSpec.PushAllCounters | lib/ringbuffer/RingBuffer.hpp:138-159 | the count and the read index after such a batch: only as many leave as do not fit |
| RingSpec.BatchCells | lib/ringbuffer/RingBuffer.hpp:146-158 | for every batch that ends within two laps of the first cell, cells and write index are those of two copied blocks, the second over the first where they meet |
| RingSpec.BatchCounters | lib/ringbuffer/RingBuffer.hpp:138-159 | for every such batch the count and the read index, in closed form |
| RingSpec.PushAllSplits | lib/ringbuffer/RingBuffer.hpp:146-156 | pushing a batch is pushing its two blocks one after the other |
| RingSpec.ChunksAreOneDrain | lib/ringbuffer/RingBuffer.hpp:168-198 | however a request is cut into drains, delivered elements and final state are those of one large drain |
| RingSpec.RunConserves | lib/ringbuffer/RingBuffer.hpp:85-198 | over every run of pushes, batches, pops and drains the elements pushed are, in order, those delivered or overwritten and then those present |
| RingSpec.RunReturns | lib/ringbuffer/RingBuffer.hpp:85-198 | the departed elements marked as delivered are, in order, exactly what the pops and drains of the run returned |
| RingBuffers.RingBuffer.Push | lib/ringbuffer/RingBuffer.hpp:103-117 | all four fields after a push |
| RingBuffers.RingBuffer.Pop | lib/ringbuffer/RingBuffer.hpp:85-101 | the oldest element and the state without it, or nothing when empty |
| RingBuffers.RingBuffer.PushBatch | lib/ringbuffer/RingBuffer.hpp:134-162 | head, tail, count and cells are exactly those after pushing each element in order, for batches longer than the buffer too while the second copy stays inside it; a null source changes nothing |
| RingBuffers.RingBuffer.Drain | lib/ringbuffer/RingBuffer.hpp:168-198 | the destination gets the oldest elements and is otherwise unchanged; the rest stays, in order |
| RingBuffers.RingBuffer.DrainAll | lib/ringbuffer/RingBuffer.hpp:204-237 | as a drain; with no call between unlocking and answer, true exactly when everything was delivered |
| RingSpec.LateAnswerIsExact | lib/ringbuffer/RingBuffer.hpp:234-235 | whatever calls come before the count is read again, the answer on a ring that was not empty is true exactly when what the drain left is at most what those calls clear, a number computed from their lengths and the ring size alone; that is when everything ever pushed has departed |
| RingSpec.LateAnswerIsRight | lib/ringbuffer/RingBuffer.hpp:204-235 | the answer is "everything was delivered" exactly when the ring was empty, or everything was delivered and those calls clear an empty ring, or something was left and they do not clear it |
| RingSpec.LateAnswerAlone | lib/ringbuffer/RingBuffer.hpp:234-235 | with additions alone in between it is right exactly when something was left or nothing was added; with removals alone, exactly when everything was delivered or the removals do not reach what was left |
| RingSpec.LateAnswerMisleads | lib/ringbuffer/RingBuffer.hpp:234-235 | one push between gives "false" after everything was delivered, one drain between gives "true" after nothing was |
| RingBuffers.RingBuffer.Peek | lib/ringbuffer/RingBuffer.hpp:243-269 | copies what a drain of that length would deliver, and changes no field |
| RingBuffers.RingBuffer.Get | lib/ringbuffer/RingBuffer.hpp:119-129 | the cell at an index in range, nothing otherwise |
| RingBuffers.RingBuffer.Reset | lib/ringbuffer/RingBuffer.hpp:313-327 | every cell is the default and nothing is present |
| RingSpec.FirstPushAtZero | lib/ringbuffer/RingBuffer.hpp:313-327 | after a reset the first element goes to index 0 and is the next to be read |
| RingBuffers.Advance | lib/ringbuffer/RingBuffer.hpp:95-158 | the index expressions fit 32 bits and wrap at most once when the size is below 2^31 |
| SrimbTopics.SRIMBQueueTopic.Publish | platform/infinity/SRIMB/SRIMBQueueTopic.hpp:45-62 | the log grows by the message, every item counts it, and the handles of exactly the due items are submitted (`WorkItems.SubmittedAreDue`) |
| SrimbTopics.SRIMBQueueTopic.Poll | platform/infinity/SRIMB/SRIMBQueueTopic.hpp:71-100 | slots computed with wrapping 64-bit and modular arithmetic deliver what polling the unbounded log delivers, and move cursor and flag alike |
| SrimbTopics.SRIMBQueueTopic.Updated | platform/infinity/SRIMB/SRIMBQueueTopic.hpp:64-69 | true exactly when a poll would succeed |
| SrimbTopics.DistancePlusOne | platform/infinity/SRIMB/SRIMBQueueTopic.hpp:87 | the wrap of the subtraction is undone by the addition |
| SrimbTopics.WindowSlides | platform/infinity/SRIMB/SRIMBQueueTopic.hpp:48-57 | after a push the queue holds the last messages with their generations and the read index is on the oldest |
| SrimbTopics.SRIMBQueueTopic.RegisterWorkItemEvery | platform/infinity/SRIMB/SRIMBQueueTopic.hpp:120-136 | appends an item, or refuses when 32 are registered |
| SrimbTopics.SRIMBQueueTopic.SetRequiredUpdates | platform/infinity/SRIMB/SRIMBQueueTopic.hpp:138-154 | the first item with the handle, and no other, gets the period and a fresh counter; false when there is none |
| SrimbTopics.SRIMBQueueTopic.SubmitWorkItems | platform/infinity/SRIMB/SRIMBQueueTopic.hpp:178-194 | every counter advances or restarts, the handles of the due items are submitted in order (`WorkItems.SubmittedAreDue`), and their number is returned |
| SrimbTopics.SRIMBTopic.Publish | platform/infinity/SRIMB/SRIMB.hpp:29-39 | the message is the latest, every registered item is submitted, and the call is the uninterrupted run of the wakeup protocol: store and bump under the lock, then one submission per item |
| SrimbTopics.SRIMBTopic.Poll | platform/infinity/SRIMB/SRIMB.hpp:41-54 | delivers the latest message of the log unless the cursor is on it, and is a poll step of the wakeup protocol, by a handler or by nobody's handler, after which the cursors of the protocol still are those of the subscriber objects |
| SrimbTopics.HandlerPollsTopic | src/modules/module_test2/Test2.hpp:22-33 | either poll step of the wakeup protocol moves the cursor of its subscriber to where polling the topic does, and no other |
| SrimbTopics.SRIMBTopic.QuietMeansLatestSeen | platform/infinity/SRIMB/SRIMB.hpp:29-54 | when nothing is left to do, the subscriber object of every item registered before the last publish is on the latest generation and its next poll has nothing to deliver |
| SrimbTopics.SRIMBSub.constructor | platform/infinity/SRIMB/SRIMBSub.hpp:11-19 | a new subscriber has seen nothing and missed nothing |
| SrimbLog.PollDeliversNextHeld | platform/infinity/SRIMB/SRIMBQueueTopic.hpp:74-99 | a poll succeeds exactly when a held message is newer than the cursor, delivers the oldest such, and raises the flag exactly when it passes over one no longer held |
| SrimbLog.RunIsFaithful | platform/infinity/SRIMB/SRIMBQueueTopic.hpp:45-100 | over every run with any number of subscribers received generations strictly increase, each payload is the message of its generation, and the flag is honest |
| SrimbLog.LogIsPublished | platform/infinity/SRIMB/SRIMBQueueTopic.hpp:45-57 | over every run the log is what was published, in order |
| SrimbLog.CatchesUp | platform/infinity/SRIMB/SRIMBQueueTopic.hpp:71-100 | on a bus in any state each poll of a subscriber brings the next message held that it has not seen, and the first raises its flag exactly when it passed one |
| SrimbLog.OthersLeaveAlone | platform/infinity/SRIMB/SRIMBQueueTopic.hpp:71-100 | publishes and polls of others leave a subscriber as it was |
| SrimbLog.FlagMeansSkipped | platform/infinity/SRIMB/SRIMBSub.hpp:14-25 | the flag is up exactly when a generation behind the cursor was never delivered |
| SrimbLog.KeepingUpMissesNothing | platform/infinity/SRIMB/SRIMBQueueTopic.hpp:80-99 | a subscriber whose lag is at most the queue length at each of its polls gets every message in order and is never flagged |
| SrimbLog.PollsUntilDrained | platform/infinity/SRIMB/SRIMBQueueTopic.hpp:74-99 | with no further publishes exactly the first min(lag, length) polls succeed, and the k-th delivers the k-th message waiting |
| SrimbLog.QueueOfOneIsLatest | platform/infinity/SRIMB/SRIMB.hpp:29-66 | on every common run a queue of length one and a latest-value topic give the same polls, values, cursors and updates |
| SrimbLog.PublishIsObserved | platform/infinity/SRIMB/SRIMB.hpp:29-66 | after a publish an update query is true and a poll delivers the message, after the poll neither has anything |
| WorkItems.RateIsExact | platform/infinity/SRIMB/SRIMBQueueTopic.hpp:102-194 | over every history and for each item publishes are the submissions made of it times the period plus the counter, the counter is below the period and never wraps |
| WorkItems.SubmittedAreDue | platform/infinity/SRIMB/SRIMBQueueTopic.hpp:102-194 | after every history the next publish submits the handles given for exactly the items for which it completes a multiple of the period last asked for, each once and in order of registration |
| WorkItems.ItemsAreAsAsked | platform/infinity/SRIMB/SRIMBQueueTopic.hpp:102-154 | over every history each item has the handle it was registered with and the period last asked for |
| WorkItems.DueEveryPeriod | platform/infinity/SRIMB/SRIMBQueueTopic.hpp:183-189 | an item is due exactly when the next publish completes a multiple of its period |
| WorkItems.WithRequiredAt | platform/infinity/SRIMB/SRIMBQueueTopic.hpp:138-154 | setting a period changes the first item with the handle and no other |
| Wakeup.QuietMeansSeen | platform/infinity/SRIMB/SRIMB.hpp:29-39 | when no publisher, item or handler has anything left to do, the subscriber of every item registered before the last publish has seen it, also when items share subscribers and subscribers poll on their own |
| Wakeup.StepKeepsCover | platform/infinity/SRIMB/SRIMB.hpp:85-104 | every step keeps each item up to date, pending, about to poll, owed a submission, or registered since the last publish |
| Wakeup.InternalRunsEnd | platform/infinity/SRIMB/SRIMB.hpp:85-92 | without new publishes a schedule is no longer than the work there was |
| Wakeup.BusyCanStep | src/modules/module_test2/Test2.hpp:22-33 | something is left to do exactly when a step can be taken |
| Wakeup.EveryScheduleDelivers | platform/infinity/SRIMB/SRIMB.hpp:29-54 | every schedule that cannot be extended delivers the last publish to every item registered before it |
| Wakeup.PublishAlone | platform/infinity/SRIMB/SRIMB.hpp:29-39 | bump, one submission per item and the end of the call are a run of the protocol from any state with that publisher idle; it queues every item and changes no cursor |
| Wakeup.RunReadsOff | platform/infinity/SRIMB/SRIMB.hpp:29-104 | over every interleaving generation, cursors, registrations, publishers and the flags of each item are what the steps so far say, each by the last step that concerns it |
| SpscProtocol.PopsArePrefix | lib/ringbuffer/SPSCRingBuffer.hpp:30-55 | under every interleaving and every stale view what was popped is a prefix of what was pushed, and at most size items are in the queue |
| SpscProtocol.AcceptedIsSent | lib/ringbuffer/SPSCRingBuffer.hpp:30-55 | under every interleaving what was sent, with the item a push is about to store, is in order the items of the pushes that found room, one for each store; each pop that found an item receives one |
| SpscProtocol.OldViewRefuses | lib/ringbuffer/SPSCRingBuffer.hpp:30-36 | an empty queue of size one refuses a push that has not yet seen the pop |
| SpscProtocol.NeverSameCell | lib/ringbuffer/SPSCRingBuffer.hpp:38-51 | accesses are in range and producer and consumer are never about to touch the same cell |
| SpscProtocol.OnlyDueIsReadable | lib/ringbuffer/SPSCRingBuffer.hpp:44-52 | of all values the memory orderings let a read return, every item ever written to the cell and what it held at first, only the item that is due is left |
| SpscProtocol.PushFailsWhenFull | lib/ringbuffer/SPSCRingBuffer.hpp:30-36 | a push fails exactly when size items are in the queue as far as it sees, and never with room in a fresh view |
| SpscProtocol.PopFailsWhenEmpty | lib/ringbuffer/SPSCRingBuffer.hpp:44-49 | a pop fails exactly when the queue is empty as far as it sees, and never with items in a fresh view |
| SpscProtocol.SlotIsRemainder | lib/ringbuffer/SPSCRingBuffer.hpp:30-52 | the cell of the i-th item is i modulo the number of cells |
| SpscProtocol.PushAloneIsRun | lib/ringbuffer/SPSCRingBuffer.hpp:30-42 | a push that nothing interrupts is a run of the protocol |
| SpscProtocol.PopAloneIsRun | lib/ringbuffer/SPSCRingBuffer.hpp:44-55 | a pop that nothing interrupts is a run of the protocol |
| SpscQueues.SPSCRingBuffer.constructor | lib/ringbuffer/SPSCRingBuffer.hpp:20-22 | one cell more than asked for, and the initial state of the protocol |
| SpscQueues.SPSCRingBuffer.Push | lib/ringbuffer/SPSCRingBuffer.hpp:30-42 | an uninterrupted run of the producer's steps, true exactly when there was room |
| SpscQueues.SPSCRingBuffer.Pop | lib/ringbuffer/SPSCRingBuffer.hpp:44-55 | an uninterrupted run of the consumer's steps, with the oldest item when there is one |
| SpscQueues.SPSCRingBuffer.IsEmpty | lib/ringbuffer/SPSCRingBuffer.hpp:57-59 | everything pushed was popped |
| SpscQueues.SPSCRingBuffer.IsFull | lib/ringbuffer/SPSCRingBuffer.hpp:61-64 | size items are in the queue |
| Biquad.BiquadFilter.ComputeButterworth | src/utils/signal_filters/lpf/BiquadFilter/BiquadFilter.hpp:32-41 | from sampling rate and cutoff the five Butterworth coefficients, stable exactly when tan(pi fc / fs) is positive, with the history untouched |
| Biquad.BiquadFilter.Apply | src/utils/signal_filters/lpf/BiquadFilter/BiquadFilter.hpp:43-48 | the output of the difference equation on all inputs and outputs since construction, 0 before the first, of which the fields keep the last two |
| BiquadRuns.DifferenceEquation | src/utils/signal_filters/lpf/BiquadFilter/BiquadFilter.hpp:43-48 | every output of a run from any state satisfies the difference equation on the two inputs and outputs before it |
| BiquadRuns.RunRemembers | src/utils/signal_filters/lpf/BiquadFilter/BiquadFilter.hpp:43-48 | the state after a run is its last two inputs and outputs |
| Biquad.BilinearTransform | src/utils/signal_filters/lpf/BiquadFilter/BiquadFilter.hpp:34-40 | coefficients are the Butterworth ones exactly when they are the bilinear transform of 1 / (p*p + s*p + 1) at every point |
| Biquad.ButterworthIsStable | src/utils/signal_filters/lpf/BiquadFilter/BiquadFilter.hpp:34-40 | 0 < a2 < 1, a1*a1 < 4*a2 and gain 1 at rest hold exactly when K is positive |
| Biquad.CutoffIsInBand | src/utils/signal_filters/lpf/BiquadFilter/BiquadFilter.hpp:32-34 | K is positive for every cutoff between 0 and half the sampling rate, for any tangent positive up to its pole |
| BiquadRuns.ErrorShrinks | src/utils/signal_filters/lpf/BiquadFilter/BiquadFilter.hpp:43-48 | after n calls with the same input the error energy is exactly a2^n times what it was |
| BiquadRuns.Converges | src/utils/signal_filters/lpf/BiquadFilter/BiquadFilter.hpp:43-48 | from every state the output converges to a constant input |
| BiquadRuns.Contract | src/utils/signal_filters/lpf/BiquadFilter/BiquadFilter.hpp:43-48 | one driven call takes the energy to at most (1+a2)/2 of it plus a multiple of the squared drive |
| BiquadRuns.RunStaysBounded | src/utils/signal_filters/lpf/BiquadFilter/BiquadFilter.hpp:43-48 | over every run with bounded inputs the energy never passes a level that is high enough |
| BiquadRuns.OutputsStayBounded | src/utils/signal_filters/lpf/BiquadFilter/BiquadFilter.hpp:32-48 | every output is within an explicit bound that depends on the input bound and the cutoff alone, from any start below an explicit threshold |
| BiquadRuns.NewFilterStaysBounded | src/utils/signal_filters/lpf/BiquadFilter/BiquadFilter.hpp:21-48 | the same for a new filter, with no condition on the state |

## Left out

- Floating-point rounding: filter and covariance arithmetic is exact.
- The values of the tangent, pi and the square root of two in `compute_butterworth`: parameters of the method, the root between 0 and 2.
- Biquad.BiquadFilter.ComputeButterworth: requires a sampling rate other than 0, by which the source divides.
- Null output pointers of the generated magnetometer function: all five outputs are always computed.
- The Python twins of the generated functions: same straight-line code, modelled once.
- The element order of `StateSample::Data()`: it differs from the order the generated functions read, so the two are not composed.
- GPS, barometer and lidar innovations: one-entry rows that would add only easy members.
- `BuildTangentStateIndex` and the symbolic simplification of the derivation script: bookkeeping and a library.
- Mutexes, threads and work queues of the kernel: a locked region is one atomic step, and submitting a work item puts it into a pending set that tolerates repeats.
- Memory ordering in full: the lock-free protocol lets each side see old index values and any cell value that release and acquire allow, but not reordering beyond that.
- Allocation failure, a size or queue length of 0, `reallocate`, and sizes of 2^31 or more.
- RingBuffers.RingBuffer.PushBatch: requires head + len to be at most twice the size, because beyond that the second copy of the source runs past the end of its buffer.
- RingBuffers.RingBuffer.DrainAll: the method runs without interruption; what other calls between unlocking and the second read of the count do to the answer is the subject of `RingSpec.LateAnswerIsRight`.
- SrimbTopics.SRIMBQueueTopic.Publish: requires that the 64-bit generation has not reached its maximum.
- SrimbTopics.SRIMBQueueTopic.Poll: requires a cursor not ahead of the topic, which holds as long as a subscriber is used with one topic.
- `unregister_work_item`: empty in the source.
- `RingBufferTimestamp`, `ExpFilter`, the vector and quaternion classes, the scheduler, parameters, storage, logging, radio, drivers and generator scripts: unfinished, easy, or resting on libraries that are not part of this model.

# Verification of the Tegra device HALs

Dafny models, with proofs, of the parts of this repository that keep state
over time. `dafny verify dfyconfig.toml` checks all of it.

**Timed power requests and slots** (`Descriptors`, `TimeoutPoker`, `TimeoutPokerRuns`,
`TimeoutPokerLimits`, `FdSlots`, `SlotRuns`, `PowerFds`). IPC threads post events under
fresh keys; a looper thread delivers them no earlier than they are due; a timed
request opens a PM QoS file and posts its own close. Setters and resets close and
open the requests that six named slots hold. Both work on one descriptor table of the
process: the state machine covers all interleavings of posts, deliveries, the two
halves of every setter, passing time and other code that opens and closes
descriptors. Descriptors are numbers that are handed out again after a close, so what
is proved about a file is proved about its number, value and owner together.

**Handles and handshakes** (`PmQosHandles`, `Barriers`, `Handshake`). Requests that
last as long as somebody holds the end of a pipe, and the barriers behind which
caller and looper wait for each other.

**Hints and rate limit** (`Hints`, `PowerHint`, `HintEngine`, `HintEffects`, `HintBound`,
`HintGap`). The limiter on top of that machine, end to end: which files each kind of
hint opens, and for how long; no gap in the boost while hints keep coming, exactly when
that can fail, and an exact bound on how many requests are open at once.

**Camera hints** (`HintsThread`, `HintsRefresh`). The thread that repeats hints once a
second, with its flag, mutex, condition variable and join, and what it sends.

**Sensor polling** (`SensorPollTime`, `SensorCache`, `SensorWake`, `SensorEvents`).
The cached poll timeout, under serial and overlapping calls, the wake pipe between
control threads and poller, and the merging of driver queues into one bounded buffer.

**ALSA engine** (`AlsaBuffer`, `AlsaWrite`, `AlsaRoute`, `AlsaDevices`) and **recovery fstab**
(`RecoveryFstab`): buffer sizes and the size search, the write loop, the mixer
router card by card, and the line parser against a first-match table.

Functions and lemmas describe the behaviour; classes have the code's own fields,
branches and loops, and each of their methods is proved to be the corresponding
step of the description. What is decided outside the code (kernel results, device
answers, the clock, scheduling) is a parameter or a choice of the environment,
and the theorems hold for all of them.

## What the code does not keep

Where the code or its comments promise more than holds, the exact condition is
proved together with an input that fails.

- `fd_max_online_cpus` starts at 0, so its first use closes descriptor 0. That does
  damage exactly when 0 then belongs to a timed request or to another slot
  (`StepKeepsGood`, `StepKeepsGoodAt`): the request is closed early
  (`OpenThroughoutItsInterval`, `StrayCloseEndsARequest`), or the slot names what it has
  not (`StrayCloseHitsASlot`). The damage can go on, again to descriptor 0 and to no
  other (`RunKeepsGoodAt`, `OnlyZeroGoesAstray`): the timeout left behind closes a later
  request or a slot's (`LeftTimeoutEndsAnother`, `LeftTimeoutClosesASlot`), and the slot
  that still names 0 closes a later timed request (`LeftSlotEndsARequest`). Whether any
  of it can happen depends on one thing, whether descriptor 0 is open when the HAL
  starts and stays with its owner (`ZeroDecides`); on the same thing depends whether
  the boost can have a gap (`GapFreeIffZeroIsOpen`, `StrayCloseMakesAGap`).
- At most ceil(duration/interval) requests open at once holds, for every hint and
  request line, exactly when the interval does not divide the duration
  (`CeilingIsTheBoundUnlessDivisible`); of the shipped intervals only that of the
  interaction hint does not (`ShippedLinesAboveTheCeiling`). There are two reasons:
  a request that falls due in the instant of the next hint may still be open, and
  the limiter drops nanoseconds, so that hints an interval apart for it can all come
  strictly within one duration, as in the run of `BoundIsReached`.
- A spurious wakeup ends the hints thread until a reset, although the log calls it a
  signal; nothing else does, short of being told to (`DiesUntoldOnlyBySpuriousWakeup`,
  `SpuriousWakeupExits`, `ExitedUntilReset`).
- A key that comes round after 2^32 posts while still in use loses an event
  (`SendKeepsAgreement`, `CollisionLosesAnEvent`, `CollisionIsReachable`).
- A handle whose registration with the looper fails is never closed, because the
  code tests the result of the pipe call in its place (`NothingElseLeaks`, `RefusedWatchLeaks`).
- On the aic326x the shared microphone controls and the two gated speaker parts
  depend on the history of routes (`SharedIsLostFromHeadsetToMic`, `GatedIsLeftOn`,
  `SharedDependsOnHistory`). Devices noted for a voice-call handle outside a call
  leave paths off or on when the call is entered, and so does a stream that does not
  open (`VoiceControlIsLastDecided`, `VoiceEntryIsRight`, `VoiceHandleMissesAPath`,
  `VoiceHandleLeavesAPath`, `FailedOpenMissesAPath`). A path, level or switch that
  nothing has set since start-up is as right as it was found (`ControlsReflectDevices`).
- A pollEvents call that fails after it has taken events loses them
  (`OnlyErrorsLoseEvents`, `ErrorLosesAnEvent`); and POLLIN is cleared only below half
  of the room, not whenever a driver had no more, as the comment at
  pluto/sensors/sensors.cpp:441 says (`ClearsOnlyShortReads`,
  `DrainedDriverStaysFlagged`, `TwoOfThreeStayFlagged`).
- A longer delay does not replace a shorter one (`LongerDelayIsIgnored`), and
  two overlapping calls can leave an outdated minimum cached exactly when the store
  of one changes the minimum after the store of the other (`OverlapIsWrongExactly`,
  `OverlapLeavesTheCacheOutdated`); calls that do not overlap never do
  (`SerialCallsKeepTheCache`).
- A write returns, short of a failed re-open, only for a whole number of frames
  (`OnlyWholeFramesCanFinish`).
- A matching fstab line with fewer than three tokens is not skipped but copied from
  a null pointer (`LookupOutcomes`, `ShortLineCopiesNull`).

## Model

| member | source | states |
|---|---|---|
| HintEngine.GapFreeBoost | common/power/nvpowerhal.cpp:216-221 | For every hint kind, limited or not, every request it makes and every prompt run of hints, looper, slot setters and resets in which requests are granted and the stale slot does not hit a file somebody counts on: if hints follow each other within duration minus interval, a request with that node, value and duration is open whenever time passes between the first accepted hint and the last arrival |
| HintEngine.InteractionBoostIsConstant | common/power/nvpowerhal.cpp:741-748 | The promise of the comment at lines 218-220 with the shipped numbers and with standard input left alone: interaction hints at most 10 ms apart keep the 100 ms CPU boost up without a gap |
| HintEngine.StandardInputMakesEventsSound | common/power/nvpowerhal.cpp:116-120 | When descriptor 0 is open for an outside owner that keeps it, the stale slot hits nothing in any run |
| HintEffects.WhatHintsOpen | common/power/nvpowerhal.cpp:738-818 | What each kind of hint does, when it is accepted after any sound run from start-up and followed by any in which requests are granted: from that moment until its time is over, and not later, each request has a file with its node and value, and there are no other requests. Interaction: /dev/cpu_freq_min at the interaction boost for 100 ms and, for 2 s, /dev/min_online_cpus 2, /dev/cpu_freq_min at the animation boost, /dev/gpu_freq_min 180000, /dev/emc_freq_min 396000. Multithreading: /dev/min_online_cpus 4 for 2 s. Launch, for 1.5 s: /dev/cpu_freq_min INT_MAX, /dev/min_online_cpus 2, /dev/gpu_freq_min 180000, /dev/emc_freq_min 792000. Streaming and Miracast: /dev/cpu_freq_min 816000 for 1 s. Video: /dev/cpu_freq_min at the highest low-power frequency for 1 s. Rotation: /dev/cpu_freq_min 1200000 for 3 s. Camera data that ask for performance, with a camera or Miracast hint, for 1 s: dev/cpu_freq_min at the highest frequency and dev/min_online_cpus 2. The others: nothing |
| HintEffects.OthersPostNothing | common/power/nvpowerhal.cpp:739-740 | A vsync, application-profile or unhandled hint, or a camera hint for anything but performance, changes nothing of queue, looper and descriptors |
| HintGap.GapFreeIffZeroIsOpen | common/power/nvpowerhal.cpp:218-220 | Exactly when the boost is free of gaps: from every start-up, for every hint and line whose interval and gap fit into its duration, there is none in all prompt runs in which requests are granted, hints come within the gap and an outside owner of descriptor 0 keeps it, if and only if descriptor 0 is open at start-up |
| HintGap.StrayCloseMakesAGap | common/power/nvpowerhal.cpp:116-120 | The failing input for every hint and line, the interaction hint too: from every start-up with descriptor 0 free a prompt run, all requests granted, nothing of other code closed and hints a nanosecond apart, with a gap |
| HintEngine.OpenAtOnce | common/power/nvpowerhal.cpp:84-102 | In every state of every prompt run at most floor(duration/interval) + 1 requests made by one line of the hint code are open at once |
| HintBound.BoundIsReached | common/power/nvpowerhal.cpp:84-102 | For every hint, every request line of it and every limiter interval there is a legal prompt run after which exactly floor(duration/interval) + 1 requests of the line are open, none of them due to close yet |
| HintBound.CeilingIsTheBoundUnlessDivisible | common/power/nvpowerhal.cpp:84-102 | For every hint and request line the count stays within ceil(duration/interval) in all prompt runs if and only if the interval does not divide the duration |
| HintBound.ShippedLinesAboveTheCeiling | common/power/nvpowerhal.cpp:216-227 | With the shipped intervals the ceiling fails for every limited hint but the interaction hint |
| HintEngine.AcceptsInWindow | common/power/nvpowerhal.cpp:95-101 | A window of w microseconds holds at most floor(w/interval) + 1 accepted hints of one kind |
| HintEngine.ReceiveKeepsLimiter | common/power/nvpowerhal.cpp:95-101 | A hint keeps the limiter's record: the stored time is that of the last accepted hint, and the last arrival is less than an interval behind it |
| HintEngine.ReceiveKeepsSpaced | common/power/nvpowerhal.cpp:95-97 | Accepted hints stay an interval apart on the limiter's clock |
| HintEngine.OpenRequestFile | common/power/timeoutpoker.cpp:159-168 | An open request's file has the node, value and duration the hint asked for, was opened at the moment the hint was accepted, and its time is not over |
| HintEngine.EventsKeepInv | common/power/timeoutpoker.cpp:107-173 | Every run of hints, deliveries and time under a prompt looper keeps the joint invariant of queue, limiter and open requests |
| PowerHint.PowerHal.CheckHint | common/power/nvpowerhal.cpp:84-102 | A hint passes, with the current time in microseconds, exactly when none of its kind passed less than an interval ago |
| PowerHint.ShippedIntervals | common/power/nvpowerhal.cpp:221-227 | With the shipped intervals a hint passes, some time after the last accepted one of its kind, if and only if that time is 90 ms for interaction, 200 ms for application profiles, 1.5 s for launches, 500 ms for streaming, video, Miracast and rotation, and any for the others |
| PowerHint.PowerHal.RequestPmQosTimed | common/power/timeoutpoker.cpp:86-91 | Posts one timed request, due at once, behind those made before |
| PowerHint.PowerHal.SetCameraHint | common/power/nvpowerhal.cpp:583-591 | The timed part of a camera hint: two requests for performance, none else |
| PowerHint.PowerHal.Boost | common/power/nvpowerhal.cpp:738-818 | The switch over the hints posts exactly the requests of the kind, in the order of the lines, Miracast with those of the camera case |
| PowerHint.PowerHal.CommonPowerHint | common/power/nvpowerhal.cpp:727-821 | An accepted hint records its time and posts exactly the requests of its kind, a Miracast hint those of the camera case too; a rejected one changes nothing |
| TimeoutPokerRuns.EveryPostRunsOnceOrIsPending | common/power/timeoutpoker.cpp:107-157 | In every state of every run in which undelivered messages span fewer than 2^32 posts, each posted event has run exactly once, as posted, or is still pending, and the queue holds exactly the pending events under the keys of their messages |
| TimeoutPokerRuns.SendKeepsAgreement | common/power/timeoutpoker.cpp:107-114 | A post keeps queue and looper in agreement if and only if its key is free |
| TimeoutPokerRuns.RoomFreesTheKey | common/power/timeoutpoker.cpp:128-131 | The key is free while undelivered messages span fewer than 2^32 posts |
| TimeoutPokerRuns.CollisionLosesAnEvent | common/power/timeoutpoker.cpp:111-112 | What happens otherwise: when a post reuses the key of a pending message, the older event is in the queue no more, whichever message comes first runs the newer one, and the other finds none |
| TimeoutPokerLimits.CollisionIsReachable | common/power/timeoutpoker.cpp:128-131 | From every start-up a run of 2^32 + 1 posts, in the order in which messages fall due, leads to such a post: a pending timeout event is lost while its file is still within its time |
| TimeoutPokerRuns.DeliverRunsThePostedEvent | common/power/timeoutpoker.cpp:143-157 | A delivered message always finds its key, and runs the event of its own post, which had not run before |
| TimeoutPokerRuns.OpenThroughoutItsInterval | common/power/timeoutpoker.cpp:159-173 | Under every legal schedule of looper, slots and other code, a timed file whose descriptor is in order keeps its descriptor, value and owner until its timeout if and only if it is not the file with descriptor 0 in a run that first uses the stale slot |
| TimeoutPokerRuns.ClosedOnlyByItsTimeout | common/power/timeoutpoker.h:95-106 | A step closes a timed file whose descriptor is in order if and only if it runs that file's own timeout event, and then not before its due time, or is the first use of the stale slot and the file has descriptor 0 |
| TimeoutPokerRuns.ClosedForGood | common/power/timeoutpoker.cpp:159-173 | A request whose file has been closed never has a file again, so no file is closed twice for it |
| TimeoutPokerRuns.StepKeepsGoodAt | common/power/nvpowerhal.cpp:116-120 | On the descriptor table that timed requests, slots and other code share, a step keeps a descriptor in order (each timeout event for it has the file it was posted for, each slot that names it has it as its own request, and no slot's request is unnamed) if and only if it is not the first use of the stale slot while the descriptor is 0 and belongs to a timed request or to another slot |
| TimeoutPokerRuns.StepKeepsGood | common/power/nvpowerhal.cpp:116-120 | So a step keeps all descriptors in order exactly unless it is that step |
| TimeoutPokerRuns.RunKeepsGoodAt | common/power/nvpowerhal.cpp:116-120 | Every descriptor but 0 stays in order throughout every run, and 0 throughout every run without that step |
| TimeoutPokerRuns.SoundRunsKeepGood | common/power/timeoutpoker.cpp:159-173 | Runs without that step keep all descriptors in order |
| TimeoutPokerRuns.StandardInputMakesRunsSound | common/power/nvpowerhal.cpp:116-120 | An outside owner of descriptor 0 that does not close it rules that step out |
| TimeoutPokerLimits.StrayCloseEndsARequest | common/power/nvpowerhal.cpp:449-453 | From start-up with descriptor 0 free, a run in which the stray close ends a timed request in the instant it was opened |
| TimeoutPokerLimits.LeftTimeoutEndsAnother | common/power/timeoutpoker.cpp:159-173 | And it goes on: the timeout left behind closes a later request, granted 0 again, before its time |
| TimeoutPokerLimits.LeftTimeoutClosesASlot | common/power/timeoutpoker.cpp:159-173 | Or it closes the request of the slot that strayed, granted 0 in its turn, while the slot goes on naming it |
| TimeoutPokerLimits.StrayCloseHitsASlot | common/power/nvpowerhal.cpp:449-453 | From start-up with descriptor 0 free, a run in which an application slot is granted 0 and the stray close of a camera reset takes it away |
| TimeoutPokerLimits.LeftSlotEndsARequest | common/power/nvpowerhal.cpp:260-271 | And then the next setter of that slot closes a timed request that was granted 0 in between |
| TimeoutPokerRuns.TimedFilesMatchTimeouts | common/power/timeoutpoker.cpp:159-168 | Every open timed file has its own pending timeout event, so a drained queue leaves no timed file open; in runs in which the stale slot hits nothing the two are in bijection |
| TimeoutPokerRuns.GrantedRequestOpens | common/power/timeoutpoker.cpp:159-168 | Running a granted request opens its file at once with the value and duration asked for |
| TimeoutPokerRuns.RunTimeoutClosesItsFile | common/power/timeoutpoker.cpp:170-173 | A timeout event that is matched finds the file it was posted for still open and closes just that |
| TimeoutPokerRuns.StepKeepsInv | common/power/timeoutpoker.cpp:107-173 | Every step of the process, those of the slots too, keeps the invariant of queue, looper, open files and slots |
| TimeoutPokerRuns.RunKeepsInv | common/power/timeoutpoker.cpp:107-173 | So does every run |
| TimeoutPoker.PokeHandler.constructor | common/power/timeoutpoker.cpp:133-141 | A new handler has key 0, an empty queue and no messages |
| TimeoutPoker.PokeHandler.GenerateNewKey | common/power/timeoutpoker.cpp:128-131 | Returns the old key and steps to the next one, modulo 2^32 |
| TimeoutPoker.PokeHandler.SendEventDelayed | common/power/timeoutpoker.cpp:107-114 | Queues the event under a new key and hands the looper a message due after the delay: the step Send of the state machine |
| TimeoutPoker.PokeHandler.RemoveEventByKey | common/power/timeoutpoker.cpp:116-126 | Returns the event queued under the key, if any, and removes just that entry |
| TimeoutPoker.PokeHandler.OpenPmQosTimed | common/power/timeoutpoker.cpp:159-168 | A failed open changes nothing; a granted one records the file and posts its own close after the timeout |
| TimeoutPoker.PokeHandler.TimeoutRequest | common/power/timeoutpoker.cpp:170-173 | Closes just that descriptor |
| TimeoutPoker.PokeHandler.CreateHandleForPmQosRequest | common/power/timeoutpoker.cpp:32-72 | Yields the client end of the pipe and leaves the file open, or yields -1 and leaves nothing open |
| TimeoutPoker.PokeHandler.HandleMessage | common/power/timeoutpoker.cpp:143-157 | One delivery is exactly the step Deliver: the keyed event is removed and run |
| PmQosHandles.HeldHandleKeepsItsRequest | common/power/timeoutpoker.cpp:32-51 | In every run, while the client end of a handle is held its request is open with its value |
| PmQosHandles.ClosedOnlyByItsCallback | common/power/timeoutpoker.cpp:200-213 | A step closes a handle's request if and only if it is the error or hang-up callback of that handle's server end, and nobody then holds the handle |
| PmQosHandles.CallbackClosesItsOwn | common/power/timeoutpoker.cpp:205-208 | The callback always finds its own server end and request open, although descriptor numbers are reused |
| PmQosHandles.ClosedForGood | common/power/timeoutpoker.cpp:204-211 | A handle that has been closed never comes back: no later descriptor belongs to it, so it is closed once |
| PmQosHandles.NothingElseLeaks | common/power/timeoutpoker.cpp:41-48 | When every client end is closed and every hang-up handled, the requests and server ends still open are exactly those of handles whose registration with the looper failed, which the second test of the pipe result misses; and an unhandled hang-up can always be handled |
| PmQosHandles.UnwatchedStaysOpen | common/power/timeoutpoker.cpp:41-48 | A handle whose registration failed is never closed |
| PmQosHandles.RefusedWatchLeaks | common/power/timeoutpoker.cpp:41-48 | The failing input, from every start-up: the registration is refused, the holder closes the client end, and the request is open with nothing registered that would close it |
| PmQosHandles.StepKeepsInv | common/power/timeoutpoker.cpp:32-51 | Every step keeps every descriptor of a handle with the live handle it was made for |
| PmQosHandles.HandleServer.constructor | common/power/timeoutpoker.cpp:133-141 | Starts with no handles and no callbacks |
| PmQosHandles.HandleServer.ListenForHandleToCloseFd | common/power/timeoutpoker.cpp:215-223 | Registers the file to close with the server end, unless the looper refuses |
| PmQosHandles.HandleServer.CreateHandleForPmQosRequest | common/power/timeoutpoker.cpp:32-72 | A failed open or pipe yields -1 and leaves nothing open; otherwise the three descriptors of a new handle are open and its client end is returned and held, registered or not |
| PmQosHandles.HandleServer.PipeCloseCb | common/power/timeoutpoker.cpp:200-213 | On an error or hang-up unregisters and closes server end and request, otherwise keeps the registration; the invariant is kept |
| Handshake.ReturnsTheStoredHandle | common/power/timeoutpoker.cpp:74-84 | For all interleavings createPmQosHandle returns exactly the value the looper made for it, and only after it was stored and the barrier opened |
| Handshake.PostsFindALooper | common/power/timeoutpoker.cpp:133-141 | No event is posted while the worker's looper is still null |
| Handshake.BlockedOnlyWhileClosed | common/power/barrier.h:42-47 | A waiter is blocked only while its barrier is closed: no wakeup is lost |
| Handshake.EveryCallCanReturn | common/power/timeoutpoker.h:83-86 | A call that has not returned always has an enabled step of looper or caller that brings it nearer, or the looper is finishing another call |
| Handshake.StepKeepsInv | common/power/timeoutpoker.cpp:74-84 | Every step of caller, looper and barrier keeps the handshake invariant |
| Handshake.ReachableInv | common/power/timeoutpoker.cpp:74-84 | So the invariant holds in every reachable state |
| Barriers.WaitPassesOnlyOpen | common/power/barrier.h:33-47 | Whatever threads do with a new barrier, a turn of a wait passes if and only if the last opening has not been followed by a closing, and nobody is blocked then |
| Barriers.GateFollowsHistory | common/power/barrier.h:33-47 | The state of a barrier is its history of openings and closings, and nobody is blocked on an open one |
| Barriers.Barrier.Wait | common/power/barrier.h:42-47 | The wait loop passes at the first test that finds the barrier open, after whatever others have done to it in between, and at no other |
| SlotRuns.ZeroDecides | common/power/nvpowerhal.cpp:116-120 | From start-up every timeout event and every slot has the file it counts on, in all runs in which an outside owner of descriptor 0 keeps it, if and only if descriptor 0 is open at start-up |
| SlotRuns.SlotsHoldTheLastRequest | common/power/nvpowerhal.cpp:246-344 | After every run of looper, slots and other code, each slot holds exactly what the steps on it say, the last request asked for and granted or nothing, save a slot that names 0 in a run in which the stale slot hit 0 |
| SlotRuns.ResetLeavesNothingOpen | common/power/nvpowerhal.cpp:422-460 | After a camera reset, with whatever the looper did in between, the four slots are -1 and none of their requests is left open, save one with descriptor 0 in a run in which the stale slot hit it |
| SlotRuns.OnlyZeroGoesAstray | common/power/nvpowerhal.cpp:246-344 | In every run the only descriptor that a slot closes without owning it is 0 |
| SlotRuns.OneStrayCloseAtMost | common/power/nvpowerhal.cpp:335-344 | In a run in which the stale slot hits nothing, that happens exactly once, at the first use of that slot, and not before |
| SlotRuns.OpIsItsSteps | common/power/nvpowerhal.cpp:246-344 | The steps of a setter or a reset, undisturbed, are the call as one transition |
| SlotRuns.StepHolding | common/power/nvpowerhal.cpp:246-344 | What one step of the process does to what a slot holds |
| FdSlots.EmptyKeepsOwnsAt | common/power/nvpowerhal.cpp:246-254 | Emptying a slot closes the one descriptor it holds, and keeps ownership of a descriptor if and only if it is not the stale slot with 0 an open request of another slot |
| FdSlots.FillKeepsOwnsAt | common/power/nvpowerhal.cpp:255-257 | Filling an empty slot with a new descriptor, or with none, keeps ownership of every descriptor and every open file |
| FdSlots.CallsDo | common/power/nvpowerhal.cpp:246-344 | Every setter by name: a granted one leaves its slot naming the new descriptor with the node and value of its lines (gpu_freq_min 0 for a nonzero argument and INT_MAX for zero, negative floors and caps replaced), a refused one leaves -1, a camera frequency that is not positive changes nothing, and a reset empties those four slots alone |
| PowerFds.KnobsDo | common/power/nvpowerhal.cpp:655-677 | Each knob of a profile calls its setter, the GPU cap in builds for the GK20A alone, and the others touch no slot |
| PowerFds.CapsInOrder | common/power/nvpowerhal.cpp:604-628 | The nonzero entries of a use case call their setters in the order of the lines |
| PowerFds.PowerHalFds.constructor | common/power/nvpowerhal.cpp:235-238 | The slots start at -1, except max_online_cpus, which starts at 0 |
| PowerFds.PowerHalFds.Close | common/power/nvpowerhal.cpp:251-254 | Closes one descriptor, noting it when it was not the slot's own |
| PowerFds.PowerHalFds.RequestPmQos | common/power/timeoutpoker.cpp:93-102 | A refused open yields -1; a granted one adds the file with its value |
| PowerFds.PowerHalFds.SetCpuScalingMinFreq | common/power/nvpowerhal.cpp:246-258 | The setter is the step of the slot machine: negative values fall back to the default |
| PowerFds.PowerHalFds.SetGpuScaling | common/power/nvpowerhal.cpp:260-271 | The same, for 0 or INT_MAX by the argument |
| PowerFds.PowerHalFds.SetGpuCoreCap | common/power/nvpowerhal.cpp:273-289 | The same, with the GPU default; builds without the GK20A write state and level of the cap instead and hold no descriptor |
| PowerFds.PowerHalFds.SetCameraCpuFreqMax | common/power/nvpowerhal.cpp:310-322 | The same; values that are not positive change nothing |
| PowerFds.PowerHalFds.SetCameraMinOnlineCpus | common/power/nvpowerhal.cpp:324-333 | The same, for min_online_cpus |
| PowerFds.PowerHalFds.SetCameraMaxOnlineCpus | common/power/nvpowerhal.cpp:335-344 | The same, for max_online_cpus, including its first use at 0 |
| PowerFds.PowerHalFds.ResetCameraFds | common/power/nvpowerhal.cpp:432-453 | The descriptor part of a reset is the step ResetCamera of the slot machine |
| PowerFds.PowerHalFds.SetCameraCaps | common/power/nvpowerhal.cpp:604-628 | The calls of a use case are the run of its nonzero entries, in order |
| PowerFds.PowerHalFds.AppProfileSet | common/power/nvpowerhal.cpp:655-677 | The loop over the knobs is the run of their setters, in order, in both builds |
| HintsThread.ShutdownLosesNoWakeup | common/power/nvpowerhal.cpp:511-534 | From every interleaving that reaches the join, at most eight steps of the thread are left, one of them is always enabled until it has exited, and then the join returns |
| HintsThread.JoinReturns | common/power/nvpowerhal.cpp:462-509 | Every run during the join is bounded by the thread's rank, and it cannot go on exactly when the thread has exited |
| HintsThread.EachStepNearsTheExit | common/power/nvpowerhal.cpp:470-505 | During the join each step of the thread lowers its rank, and nothing else is enabled |
| HintsThread.NoSleepAfterTheFlag | common/power/nvpowerhal.cpp:474-479 | Once the exit flag is set the thread does not go to sleep again |
| HintsThread.MutexIsGivenBack | common/power/nvpowerhal.cpp:474-481 | A caller that waits for the mutex waits for one step of the thread |
| HintsThread.OneThreadAtMost | common/power/nvpowerhal.cpp:537-557 | In every run at most one thread exists, and the handle is nonzero exactly from its creation to its join |
| HintsThread.IndexStaysInBounds | common/power/nvpowerhal.cpp:491-495 | The thread's unlocked read of the use case never indexes outside the table |
| HintsThread.ResetIsQuiet | common/power/nvpowerhal.cpp:597-599 | When a reset ends there is no thread, no FPS target, no use case and no outstanding throughput hint, and a target held and the hints of a use case have been cancelled |
| HintsThread.QuietPersists | common/power/nvpowerhal.cpp:422-460 | That state lasts, under every schedule, until the next camera hint |
| HintsThread.DiesUntoldOnlyBySpuriousWakeup | common/power/nvpowerhal.cpp:470-505 | In every run from start-up, a thread that has not been told to exit is gone or on its way out if and only if it has been woken spuriously since its creation |
| HintsThread.SpuriousWakeupExits | common/power/nvpowerhal.cpp:500-504 | A run from start-up in which a spurious wakeup ends the thread, with its handle still set and a frame rate still wanted |
| HintsThread.ExitedUntilReset | common/power/nvpowerhal.cpp:543-547 | And no hint other than RESET starts it again |
| HintsThread.StepKeepsInv | common/power/nvpowerhal.cpp:462-653 | Every step of caller and thread keeps the invariant of mutex, thread and camera fields |
| HintsRefresh.TurnRefreshes | common/power/nvpowerhal.cpp:483-498 | From every timeout to the top of the loop, undisturbed: a nonzero frame rate is asked for once more, of the target held or a new one, and is that of a live target unless the platform refuses; a use case has all its nonzero throughput hints sent once more, for a second, in order, and its frame rate taken over; and nothing else is sent |
| HintsRefresh.TurnGoesOn | common/power/nvpowerhal.cpp:480-498 | Every step of that turn can be taken, the first once the mutex is free |
| HintsRefresh.EachTimeoutAsksForTheRate | common/power/nvpowerhal.cpp:483-489 | In every interleaving without a reset, while a frame rate is wanted, it has been asked for exactly once for each timeout and once for each frame-rate hint, except for those whose turn is still to come |
| HintsRefresh.EachTimeoutSendsTheHints | common/power/nvpowerhal.cpp:491-496 | In every interleaving without a reset, while the use cases set have a throughput hint of a kind, it has been sent exactly once for each timeout and once for each use-case hint, except for those whose turn is still to come |
| HintsRefresh.ThreadStays | common/power/nvpowerhal.cpp:470-505 | In every interleaving without a reset and without a spurious wakeup a thread that is not on its way out stays |
| HintsRefresh.CaseHintApplies | common/power/nvpowerhal.cpp:566-582 | Each of the four use-case hints sets its own use case, sends its nonzero throughput hints at once and takes over its frame rate |
| HintsRefresh.FpsHintApplies | common/power/nvpowerhal.cpp:592-596 | A frame-rate hint asks for 30 frames a second at once, of the target held or a new one |
| HintsRefresh.LaunchIsRight | common/power/nvpowerhal.cpp:632-653 | When a hint is done there is a thread if a frame rate is wanted or its use case has any hint, unless it cannot be created, and otherwise only if there was one |
| HintsThread.RunKeepsInv | common/power/nvpowerhal.cpp:462-653 | So does every interleaving |
| HintsThread.CameraPower.constructor | common/power/nvpowerhal.cpp:118-124 | The initial camera fields |
| HintsThread.CameraPower.SetCameraFps | common/power/nvpowerhal.cpp:346-372 | Asks for a target only when none is held, keeps the one granted, and otherwise modifies the rate of the one held |
| HintsThread.CameraPower.SetCameraSinglePhsHint | common/power/nvpowerhal.cpp:374-388 | Sends one throughput hint for a second |
| HintsThread.CameraPower.SetCameraPhsHints | common/power/nvpowerhal.cpp:390-420 | Sends the nonzero throughput hints and takes over a nonzero frame rate |
| HintsThread.CameraPower.ResetCameraFields | common/power/nvpowerhal.cpp:422-460 | Cancels the FPS target, and the throughput hints if a use case is set |
| SensorPollTime.PollTimeIsHistoryMinimum | pluto/sensors/sensors.cpp:204-244 | After any calls polltime is the least delay asked for a polled sensor while it was on and not dropped by a later switching off, and UINT_MAX if there is none |
| SensorPollTime.PollTimeInNanoseconds | pluto/sensors/sensors.cpp:398-413 | The same in the caller's terms, for delays of up to 2^32 ms: the timeout is not above any delay asked for a polled handle that was switched on before and never off since, and, unless it is infinite, less than a millisecond below one of them |
| SensorPollTime.DelayInMilliseconds | pluto/sensors/sensors.cpp:410 | A delay is cut to whole milliseconds |
| SensorPollTime.HandlesHaveEntries | pluto/sensors/sensors.cpp:187-202 | No two handles share a table entry, and only unknown ones have none and no driver |
| SensorPollTime.PolledHandles | pluto/sensors/sensors.cpp:97-152 | Light, proximity and pressure have drivers of their own and the rest the motion library's; a handle is polled if its driver is there without a descriptor |
| SensorPollTime.SensorsFollowHistory | pluto/sensors/sensors.cpp:220-244 | Each sensor's table entries say whether it is on, and the least delay asked since it was last off |
| SensorPollTime.CacheIsMinimum | pluto/sensors/sensors.cpp:204-211 | The cached timeout is always the minimum of the table |
| SensorPollTime.LongerDelayIsIgnored | pluto/sensors/sensors.cpp:240-243 | The entry of an enabled polled sensor becomes the new delay if and only if that is not above the old one; otherwise nothing changes, and the timeout follows only a delay below it |
| SensorCache.CurrentCacheIsMinimum | pluto/sensors/sensors.cpp:204-211 | When control threads overlap, for all interleavings of their stores, scans and assignments, the cached timeout is the minimum of the table whenever the thread that assigned last had begun its scan after the last store |
| SensorCache.OverlapIsWrongExactly | pluto/sensors/sensors.cpp:204-244 | Two calls of different threads on a quiet table with a right cache: some interleaving of them ends quiet with a wrong cache if and only if the minimum after one store alone differs from the minimum after the other store as well |
| SensorCache.SerialCallsKeepTheCache | pluto/sensors/sensors.cpp:204-244 | Calls that never overlap, however many, leave a right cache right |
| SensorCache.LastStorerRepairs | pluto/sensors/sensors.cpp:204-211 | The thread that stored last makes the cache right when it assigns |
| SensorCache.OverlapLeavesTheCacheOutdated | pluto/sensors/sensors.cpp:204-244 | Two overlapping calls from start-up after which all is quiet and the timeout is longer than a sensor asked |
| SensorCache.StepKeepsInv | pluto/sensors/sensors.cpp:204-211 | Every step of overlapping calls keeps clean scans and a current cache right |
| SensorPollTime.SensorsPollContext.constructor | pluto/sensors/sensors.cpp:261-271 | Starts with all sensors off and UINT_MAX everywhere |
| SensorPollTime.SensorsPollContext.SetPollTime | pluto/sensors/sensors.cpp:204-215 | The loop computes the minimum and offers one byte to the wake pipe |
| SensorPollTime.SensorsPollContext.UpdateSensorActivate | pluto/sensors/sensors.cpp:220-231 | Updates the tables of a sensor whose driver has no descriptor, and nothing for others |
| SensorPollTime.SensorsPollContext.UpdateSensorPollTime | pluto/sensors/sensors.cpp:233-244 | Lowers the request of an enabled sensor, and nothing for drivers with a descriptor |
| SensorPollTime.SensorsPollContext.Activate | pluto/sensors/sensors.cpp:373-396 | Unknown handles give -EINVAL, missing drivers 0; a failing driver leaves the tables alone |
| SensorPollTime.SensorsPollContext.SetDelay | pluto/sensors/sensors.cpp:398-413 | Likewise, but the tables are updated whatever the driver answers |
| SensorWake.NoLostWakeup | pluto/sensors/sensors.cpp:204-215 | For all interleavings, whenever the poller is blocked with an outdated timeout, a byte is in the pipe or a control thread is about to write one, which wakes it even if the pipe is full |
| SensorWake.BlockedWithTheCurrentTimeout | pluto/sensors/sensors.cpp:446-466 | Once the control threads are done and the pipe is empty, a blocked poller waits with the current timeout |
| SensorWake.LeftoverBytesRunOut | pluto/sensors/sensors.cpp:459-465 | A byte left from before costs one turn: it is taken out, and the next poll uses the current timeout |
| SensorWake.StepKeepsInv | pluto/sensors/sensors.cpp:211-215 | Every step of control threads and poller keeps the wakeup invariant |
| SensorWake.RunKeepsInv | pluto/sensors/sensors.cpp:211-215 | So does every interleaving |
| SensorEvents.SensorsPoll.PollEvents | pluto/sensors/sensors.cpp:415-471 | The call is the function Poll of the script exactly: outcome, queues, POLLIN flags and filled part of the buffer; the rest of the buffer is untouched, the count never exceeded, and the events of every driver conserved |
| SensorEvents.PollConserves | pluto/sensors/sensors.cpp:424-468 | In every outcome the filled part of the buffer followed by what is queued is, driver by driver and in order, what was queued followed by what arrived, and the buffer holds events of no other origin |
| SensorEvents.OutcomeByLastRound | pluto/sensors/sensors.cpp:446-468 | Which outcome, exactly, by the last round: done when the buffer is full or holds something and poll finds nothing; interrupted or failed when poll reports it with room left; going on when there is room and poll found something or nothing is held |
| SensorEvents.ReadyDriverIsRead | pluto/sensors/sensors.cpp:430-439 | A ready driver is read: it gives the head of its queue, something if it has something and there is room, and all of it unless the buffer is full |
| SensorEvents.EveryDriverHasItsTurn | pluto/sensors/sensors.cpp:425-444 | One round, for every driver: one that exists and is flagged or has pending events gives the head of its queue, all of it if it wishes to and there is room, and something if there is any room at its turn; every other keeps its whole queue and its flag; and a flag changes only when its own driver is read and answers with an error or less than half of the room |
| SensorEvents.RoundInOrder | pluto/sensors/sensors.cpp:425-439 | Within a round the events of the drivers come in the order of the drivers |
| SensorEvents.PolledDriverDelivers | pluto/sensors/sensors.cpp:446-468 | A driver that poll reports ready while there is room has its first event in the buffer after the next round, unless the buffer is full |
| SensorEvents.OnlyErrorsLoseEvents | pluto/sensors/sensors.cpp:451-457 | The events reported and those still queued are all there were if and only if it is not the case that poll fails in the last round begun with some, but not all, of the room taken |
| SensorEvents.ErrorLosesAnEvent | pluto/sensors/sensors.cpp:451-457 | A concrete call that takes an event and then reports an error |
| SensorEvents.SensorsPoll.ReadDrivers | pluto/sensors/sensors.cpp:425-444 | The loop over the drivers is the function Turns: every driver that is ready or has pending events is read, in order |
| SensorEvents.SensorsPoll.ReadDriver | pluto/sensors/sensors.cpp:430-443 | One read moves the first events of one queue behind what the buffer holds, leaves the rest alone, and clears POLLIN by the test of line 440 |
| SensorEvents.ClearsOnlyShortReads | pluto/sensors/sensors.cpp:435-442 | POLLIN is cleared only for a driver that returned less than it was offered, and exactly when that was less than half of it |
| SensorEvents.DrainedDriverStaysFlagged | pluto/sensors/sensors.cpp:435-442 | So a flagged driver that has given all it has keeps its flag if and only if it filled at least half of the room |
| SensorEvents.TwoOfThreeStayFlagged | pluto/sensors/sensors.cpp:435-442 | The input: three events asked for, two there; the driver is drained and its flag stays |
| SensorEvents.MoveConserves | pluto/sensors/sensors.cpp:434-439 | Moving the head of one queue to the end of the buffer conserves all events and each driver's order |
| SensorEvents.ArrivalConserves | pluto/sensors/sensors.cpp:430-434 | So do arriving events |
| AlsaBuffer.ClearAllButTop | p1852/hal/libaudio/libaudioalsa/nvaudioalsa.cpp:86-89 | The bit-clearing loop ends with the largest power of two not above the size, and with 0 for 0 |
| AlsaBuffer.AlsaDev.ResetAlsaBufferParams | p1852/hal/libaudio/libaudioalsa/nvaudioalsa.cpp:73-95 | The size is the largest power of two not above the wanted frames; the new latency is at most the wanted one, more than half of it up to one microsecond, and converts back to the size or one frame less |
| AlsaBuffer.LatencyShrinks | p1852/hal/libaudio/libaudioalsa/nvaudioalsa.cpp:86-91 | The latency of a size not above the wanted frames is not above the wanted latency |
| AlsaBuffer.LatencyHalvesAtMost | p1852/hal/libaudio/libaudioalsa/nvaudioalsa.cpp:86-91 | A size more than half the wanted frames has a latency L' with L < 2(L' + 1) |
| AlsaBuffer.FramesSurvive | p1852/hal/libaudio/libaudioalsa/nvaudioalsa.cpp:91 | For rates up to 10^6 converting the latency back loses at most one frame |
| AlsaBuffer.Conversions | p1852/hal/libaudio/libaudioalsa/nvaudioalsa.cpp:78-91 | Latencies are in microseconds and rates in frames a second; both conversions round down |
| AlsaBuffer.SearchBufferSize | p1852/hal/libaudio/libaudioalsa/nvaudioalsa.cpp:241-254 | The loop stops at the first candidate the device accepts, and fails only after all 192 |
| AlsaBuffer.CandidatesDiffer | p1852/hal/libaudio/libaudioalsa/nvaudioalsa.cpp:243-244 | No size is tried twice |
| AlsaBuffer.SearchOrder | p1852/hal/libaudio/libaudioalsa/nvaudioalsa.cpp:241-256 | If a size within 95 below and 96 above the base is accepted, the search yields an accepted one in that range: the smallest from the base up, else the largest below; for a base within 96 of 2^32 sizes that wrap round come before those below |
| AlsaBuffer.SearchFindsMultiple | p1852/hal/libaudio/libaudioalsa/nvaudioalsa.cpp:69-71 | A device that accepts the multiples of a, for a up to 97, gets the base rounded up to one, or 0 when that needs more than 32 bits |
| AlsaWrite.AlsaStream.Write | p1852/hal/libaudio/libaudioalsa/nvaudioalsa.cpp:1086-1155 | Across partial writes, recoveries and re-opens the device has taken exactly the first `sent` bytes of the buffer, once and in order; without a handle nothing is sent; a silent auxiliary stream is reset once; the course of the loop is WriteFrom |
| AlsaWrite.ShortOnlyAfterFailedReopen | p1852/hal/libaudio/libaudioalsa/nvaudioalsa.cpp:1100-1135 | The loop finishes exactly when everything is sent, and stops exactly in the turn of a failed re-open, the first there is |
| AlsaWrite.EachAnswer | p1852/hal/libaudio/libaudioalsa/nvaudioalsa.cpp:1100-1147 | Answer by answer: whole frames are sent, as many as the device takes or as are left; another error or a re-open that succeeds goes on with nothing sent; a re-open that fails, in any of the three bad states, ends the write |
| AlsaWrite.RemainderNeverFinishes | p1852/hal/libaudio/libaudioalsa/nvaudioalsa.cpp:1100-1102 | A buffer that is not a whole number of frames is never finished |
| AlsaWrite.WholeFramesFinish | p1852/hal/libaudio/libaudioalsa/nvaudioalsa.cpp:1100-1147 | Whole frames finish, in at most as many turns as bytes, when the device takes a frame a turn |
| AlsaWrite.OnlyWholeFramesCanFinish | p1852/hal/libaudio/libaudioalsa/nvaudioalsa.cpp:1100-1147 | Without failed re-opens the loop can return if and only if the buffer is a whole number of frames |
| AlsaWrite.AlsaStream.Writei | p1852/hal/libaudio/libaudioalsa/nvaudioalsa.cpp:1101-1102 | The device takes a prefix of what it is offered, in whole frames |
| AlsaWrite.AlsaStream.Recover | p1852/hal/libaudio/libaudioalsa/nvaudioalsa.cpp:1103-1143 | Each of the recovery paths fails exactly when its re-open does, and otherwise leaves a handle |
| AlsaRoute.ControlsReflectDevices | p1852/hal/libaudio/libaudioalsa/nvaudioalsa.cpp:757-1031 | From any settings at first, after any sequence of routes, a control of any card is what the current devices and mode ask (its path's membership test, its level, the microphone read, the call switch) if and only if it was so before or some route of the sequence set it |
| AlsaRoute.PathIsRightOnceDecided | p1852/hal/libaudio/libaudioalsa/nvaudioalsa.cpp:775-1000 | From any settings at first, a path control is right after a run if and only if it was right before or some move of the run met or left its devices |
| AlsaRoute.HistoryDoesNotMatter | p1852/hal/libaudio/libaudioalsa/nvaudioalsa.cpp:757-1000 | So two histories, from any settings, that end with the same devices leave every path control they have settled the same |
| AlsaRoute.PathSwitches | p1852/hal/libaudio/libaudioalsa/nvaudioalsa.cpp:775-1000 | Headphone Jack, Int Mic and Mic Jack switches are such controls on all cards, Int Spk on the wm8903 and max98095 and no other |
| AlsaDevices.HeadphonesSwitch | p1852/hal/libaudio/libaudioalsa/nvaudioalsa.cpp:853-889 | By device: a route to changed devices with a wired headset or headphone turns the headphone jack on, and on the max98095 and aic326x their mixers and volume; leaving both turns them off; otherwise they stay |
| AlsaDevices.SpeakersSwitch | p1852/hal/libaudio/libaudioalsa/nvaudioalsa.cpp:775-851 | Likewise the speaker switch and mixers of each card, for the earpiece, the speaker and the default output |
| AlsaDevices.PartsSwitch | p1852/hal/libaudio/libaudioalsa/nvaudioalsa.cpp:795-850 | Likewise the two parts of the aic326x: on with the speaker or default output, or with the earpiece, off only when all three are left |
| AlsaDevices.MicsSwitch | p1852/hal/libaudio/libaudioalsa/nvaudioalsa.cpp:907-948 | Likewise the built-in microphone controls, for the four built-in inputs |
| AlsaDevices.HeadsetMicSwitches | p1852/hal/libaudio/libaudioalsa/nvaudioalsa.cpp:950-1000 | Likewise the headset microphone controls, for the wired headset |
| AlsaDevices.SharedInputsSwitch | p1852/hal/libaudio/libaudioalsa/nvaudioalsa.cpp:907-1000 | The controls of both microphones go with the headset if it is there, and else with the built-in ones |
| AlsaDevices.CallSwitch | p1852/hal/libaudio/libaudioalsa/nvaudioalsa.cpp:1015-1031 | The call switch goes on when a call is entered and off when it is left |
| AlsaDevices.TakesItsSide | p1852/hal/libaudio/libaudioalsa/nvaudioalsa.cpp:757-773 | A handle takes all devices of its own direction, and no other, and the mode |
| AlsaDevices.IdleRoutes | p1852/hal/libaudio/libaudioalsa/nvaudioalsa.cpp:762-763 | Without a device of its direction a route does nothing, and a repeated one changes nothing more |
| AlsaRoute.SharedIsLostFromHeadsetToMic | p1852/hal/libaudio/libaudioalsa/nvaudioalsa.cpp:925-997 | The controls that both microphone blocks of the aic326x write are right after a move if and only if it is not from a headset to a microphone without it |
| AlsaRoute.GatedIsLeftOn | p1852/hal/libaudio/libaudioalsa/nvaudioalsa.cpp:795-850 | The loudspeaker and earpiece controls of the aic326x are right after a move if and only if it is not to another speaker device |
| AlsaRoute.RunsThatNeverStrand | p1852/hal/libaudio/libaudioalsa/nvaudioalsa.cpp:757-1000 | A run without such a move leaves each of these controls as the current devices ask |
| AlsaRoute.SharedDependsOnHistory | p1852/hal/libaudio/libaudioalsa/nvaudioalsa.cpp:925-997 | Two histories with one final device set and different settings of Input CM mode |
| AlsaRoute.VoiceControlIsLastDecided | p1852/hal/libaudio/libaudioalsa/nvaudioalsa.cpp:765-773 | After any run of a voice-call handle, with streams that open and streams that do not, a path control is what the devices of the last move in, into or out of a call, completed or not, that met or left its path ask; so it is right if and only if they and the current devices agree on the path |
| AlsaRoute.VoiceEntryIsRight | p1852/hal/libaudio/libaudioalsa/nvaudioalsa.cpp:765-773 | Entering a call whose stream opens, after devices were noted outside calls, a path is right afterwards if and only if, with the devices last noted, they agree with the ones the path was set for, and with others, the path was off or is wanted by either |
| AlsaRoute.VoiceHandleMissesAPath | p1852/hal/libaudio/libaudioalsa/nvaudioalsa.cpp:765-773 | A run that enters a call with the headset and leaves its path off |
| AlsaRoute.VoiceHandleLeavesAPath | p1852/hal/libaudio/libaudioalsa/nvaudioalsa.cpp:765-773 | A run that enters a call with the earpiece and leaves the headset's path on |
| AlsaRoute.FailedOpenMissesAPath | p1852/hal/libaudio/libaudioalsa/nvaudioalsa.cpp:1015-1023 | A run in which a stream fails to open for a call with the speaker, and the next call, with the headset, leaves its path off |
| AlsaRoute.PlanIsEffect | p1852/hal/libaudio/libaudioalsa/nvaudioalsa.cpp:775-1000 | What each block writes on each card is exactly what the table of control kinds says, for every control |
| AlsaRoute.AlsaDev.RouteSpeakers | p1852/hal/libaudio/libaudioalsa/nvaudioalsa.cpp:775-851 | The speaker block turns all its controls by the table |
| AlsaRoute.AlsaDev.RouteHeadphones | p1852/hal/libaudio/libaudioalsa/nvaudioalsa.cpp:853-889 | The headphone block turns all its controls by the table |
| AlsaRoute.AlsaDev.RouteMics | p1852/hal/libaudio/libaudioalsa/nvaudioalsa.cpp:907-948 | The microphone block turns all its controls by the table, and reports the failure of the right ADC input even when the fallback is set |
| AlsaRoute.AlsaDev.RouteHeadsetMic | p1852/hal/libaudio/libaudioalsa/nvaudioalsa.cpp:950-1000 | The headset microphone block likewise |
| AlsaRoute.AlsaDev.Mute | p1852/hal/libaudio/libaudioalsa/nvaudioalsa.cpp:710-748 | Muting touches no claimed control |
| AlsaRoute.AlsaDev.RouteSwitches | p1852/hal/libaudio/libaudioalsa/nvaudioalsa.cpp:773-1012 | The direction's two blocks, in order |
| AlsaRoute.AlsaDev.RouteMode | p1852/hal/libaudio/libaudioalsa/nvaudioalsa.cpp:1015-1031 | The call switch follows the mode; it fails exactly when a voice-call stream has to be opened and cannot be |
| AlsaRoute.AlsaDev.Route | p1852/hal/libaudio/libaudioalsa/nvaudioalsa.cpp:750-1084 | A handle that is not for voice calls follows the table-driven router exactly, with its error; a voice-call handle follows its own, which outside calls only notes the devices; if its stream cannot be opened its controls are routed and its devices and mode stay the old ones |
| RecoveryFstab.LookupFindsFirstMatch | common/recovery/nv_recovery_updater.c:101-129 | For every table of entries, short lines, comments and empty lines that fit the buffer, however they are spaced and whether or not the last line ends in a newline, the lookup in its text gives what the first line with the mount point gives |
| RecoveryFstab.FinalNewlineDoesNotMatter | common/recovery/nv_recovery_updater.c:101-116 | For every text, whatever the length of its lines, a newline at its end makes no difference to the lookup |
| RecoveryFstab.LookupOutcomes | common/recovery/nv_recovery_updater.c:101-129 | The lookup yields a device if and only if the first line with the mount point has three tokens and that device, copies from a null pointer if and only if it has fewer, and fails if and only if there is none |
| RecoveryFstab.FirstMatchIsFirst | common/recovery/nv_recovery_updater.c:113-121 | The first line with the mount point decides, and no later one |
| RecoveryFstab.NoMatchMeansNoLine | common/recovery/nv_recovery_updater.c:124-129 | First-match search fails exactly when no line has the mount point |
| RecoveryFstab.EntryLine | common/recovery/nv_recovery_updater.c:110-120 | A rendered entry is found by its own mount point, with its device, and by no other |
| RecoveryFstab.PlainLineIsFound | common/recovery/nv_recovery_updater.c:101-121 | For all fields free of blanks and newlines, slashes and all, that fit 1024 bytes together: a line of three is found by the first and gives the third |
| RecoveryFstab.LongLineIsCut | common/recovery/nv_recovery_updater.c:101 | Only 1023 characters of a line are read at a time |
| RecoveryFstab.OtherLine | common/recovery/nv_recovery_updater.c:106-108 | Comments and empty lines are never found |
| RecoveryFstab.ShortLineCopiesNull | common/recovery/nv_recovery_updater.c:113-117 | A line with a mount point and no device, with or without a file-system type, makes the code copy from a null pointer for its mount point and for no other |
| RecoveryFstab.TokOf | common/recovery/nv_recovery_updater.c:111-116 | strtok skips delimiters and stops behind the next token |
| RecoveryFstab.FGets | common/recovery/nv_recovery_updater.c:101 | The line reader stops behind the newline, at the end of the text, or with a full buffer |
| RecoveryFstab.TrimStart | common/recovery/nv_recovery_updater.c:103-104 | The trimming loop drops exactly the leading white space |
| RecoveryFstab.StrTok | common/recovery/nv_recovery_updater.c:111-116 | The tokenizer's loops compute strtok's token and continuation |
| RecoveryFstab.ParseLine | common/recovery/nv_recovery_updater.c:102-121 | One turn of the loop, on the line just read |
| RecoveryFstab.GetDevicePath | common/recovery/nv_recovery_updater.c:80-130 | The whole lookup; a file that cannot be opened is not found |

## Left out

- TimeoutPoker.PokeHandler.RemoveEventByKey: a missing key is an absent result here; the library's lookup aborts the process, which the runs with room show never to happen.
- TimeoutPoker.PokeHandler.CreateHandleForPmQosRequest: does not model the registration with the looper, which PmQosHandles does; here the descriptors of handles are files of other code.
- HintEngine.GapFreeBoost: a hint call takes no time, the looper is prompt, the kernel grants every request of the run and undelivered messages span fewer than 2^32 posts; without these no schedule-free claim about gaps can hold.
- HintEngine.OpenAtOnce: assumes a prompt looper as well; a late looper may keep more requests open.
- HintsThread.ResetIsQuiet: hint callers are serial and set_camera_fps is one step; the code lets both threads run it without the mutex (common/power/nvpowerhal.cpp:346-372, 485-489).
- HintsThread.OneThreadAtMost: a thread that cannot be created leaves the handle 0 here; the code leaves it undefined.
- HintsThread.CameraPower.SetCameraPhsHints: the branch of a build without PHS_DEBUG is not modelled, because common/power/nvpowerhal.cpp:26 defines it for every build of the file.
- SlotRuns.SlotsHoldTheLastRequest: calls of setters are serial among themselves; only looper, posts and other code run between the two halves of one.
- SensorEvents.SensorsPoll.PollEvents: runs on a finite script of driver and poll answers, with an outcome of its own when the script ends; the loop itself may wait for ever.
- AlsaWrite.AlsaStream.Write: likewise for the device's answers; the bytes are values.
- AlsaRoute.AlsaDev.Route: says nothing about the settings of the four free controls, which opening, muting or a fallback also writes.
- RecoveryFstab.GetDevicePath: lines are character sequences without NUL, the parser reads them in place but does not overwrite delimiters, and the size of the output buffer is not modelled.
- Internals of Looper, KeyedVector, Mutex and Thread: a message is delivered once and not before it is due, a lock excludes, a condition may wake spuriously.
- Kernel and driver effects: PM QoS aggregation, sysfs, NvOs calls, snd_pcm calls and properties are choices of the environment.
- Clock: a monotone nanosecond count that is not zero in microseconds; the 32-bit wrap of the seconds (common/power/nvpowerhal.cpp:93) is not modelled.
- The second common_power_open and its second poker; the boost requested at start-up.
- A camera hint without data (Miracast falls through into the camera case), and camera tables shorter than the number of use cases.
- The order of application profile knobs and the numbering of hints: hardware/power.h is not part of this model, so the knob list is a parameter.
- Values of the Android device masks and of the default latencies: their headers are not part of this model; masks are sets of devices, with the default output and input as devices of their own, and the latencies are a parameter.
- Mixers shared by several handles: each handle is modelled with the controls to itself, and a device without a mixer is not modelled.
- PmQosHandles.HeldHandleKeepsItsRequest: leaves out the stray close of descriptor 0; nothing in this HAL asks for handles.
- Stream opening and closing, hardware and software parameters after the size search, device names, and the handles that closing a suspended stream leaves behind.
- Sensor drivers of other boards (the same machine with fewer drivers), and the choice of paths in the constructor.
- The unified fstab, blob copying, lights, NFC, board wrappers, scripts and configuration: fixed data, I/O or one-step facts.

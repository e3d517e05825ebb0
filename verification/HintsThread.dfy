/** Camera hints and the thread that repeats them once a second.

    The hint caller and the thread share the camera fields, a mutex and a
    condition variable. Both are program counters here, and an `Action` is one
    step of either, so a run is an arbitrary interleaving. Hint calls are serial
    and set_camera_fps is one step. */
module HintsThread {
  import opened Hints

  const USECASES: nat := 4
  const CAMERA_TARGET_FPS: int := 30

  /** The throughput hints of a use case, sent for this many milliseconds. */
  datatype Kind = MinCpu | MaxCpu | MinGpu | MaxGpu
  const HINT_MS: nat := 1000

  /** The part of a use-case entry that feeds the hints. */
  datatype Cap = Cap(minCpuHint: int, maxCpuHint: int, minGpuHint: int, maxGpuHint: int, fpsHint: int)

  const NO_CAP: Cap := Cap(0, 0, 0, 0, 0)

  type Caps = c: seq<Cap> | |c| == 4 witness [NO_CAP, NO_CAP, NO_CAP, NO_CAP]

  /** What the HAL asks of the platform. */
  datatype Call =
    | SetFpsTarget(rate: int)
    | ModifyFpsTarget(target: int, rate: int)
    | CancelFpsTarget(target: int)
    | SendThroughput(kind: Kind, value: int, ms: nat)
    | CancelThroughput

  /** `live` holds the frame rates of the FPS targets requested and not cancelled,
      `throughput` says that "camera" throughput hints may be outstanding, and `log`
      is the history of calls. */
  datatype Fields = Fields(
    usecase: int, targetFps: int, fdGpu: int, live: map<int, int>, throughput: bool, log: seq<Call>)

  /** r is what NvOsSetFpsTarget answers, a new target or -1, or else what
      NvOsModifyFpsTarget answers, -1 for a failure. */
  function SetFps(f: Fields, r: int): Fields {
    if f.fdGpu == -1 then
      var g := f.(log := f.log + [SetFpsTarget(f.targetFps)]);
      if r == -1 then g else g.(fdGpu := r, live := f.live[r := f.targetFps])
    else
      var g := f.(log := f.log + [ModifyFpsTarget(f.fdGpu, f.targetFps)]);
      if r == -1 then g else g.(live := f.live[f.fdGpu := f.targetFps])
  }

  function Single(f: Fields, kind: Kind, value: int): Fields {
    if value == 0 then f else f.(throughput := true, log := f.log + [SendThroughput(kind, value, HINT_MS)])
  }

  function PhsHints(f: Fields, cap: Cap): Fields {
    var f1 := Single(f, MinCpu, cap.minCpuHint);
    var f2 := Single(f1, MaxCpu, cap.maxCpuHint);
    var f3 := Single(f2, MinGpu, cap.minGpuHint);
    var f4 := Single(f3, MaxGpu, cap.maxGpuHint);
    if cap.fpsHint != 0 then f4.(targetFps := cap.fpsHint) else f4
  }

  function ResetFields(f: Fields): Fields {
    var cancelled := if f.fdGpu != -1 then [CancelFpsTarget(f.fdGpu)] else [];
    var hints := if f.usecase != -1 then [CancelThroughput] else [];
    Fields(-1, 0, -1, f.live - {f.fdGpu}, f.throughput && f.usecase == -1, f.log + cancelled + hints)
  }

  datatype Cause = Signal | Timeout | Spurious

  datatype ThreadPc =
    | NotCreated
    | Top                      // before pthread_mutex_lock
    | Checking                 // holds the mutex, tests the exit flag
    | Leaving                  // holds the mutex, saw the flag
    | Sleeping                 // in the timed wait, mutex released
    | Woken(cause: Cause)      // needs the mutex back
    | Reacquired(cause: Cause) // holds the mutex
    | RefreshFps
    | RefreshUsecase
    | Sending                  // reads cam_cap[usecase_index]
    | Exited

  datatype MainPc =
    | Idle
    | Apply(usecase: nat)            // use case set, its hints still to be sent
    | CallFps                  // target set, set_camera_fps still to be called
    | Launch(u: int)           // u is the use case of this hint, or -1
    | LaunchLock
    | LaunchLocked
    | Stop
    | StopLock
    | StopLocked
    | Signalling
    | Joining
    | Clearing

  datatype Holder = Free | ByMain | ByThread

  datatype Cam = Cam(
    f: Fields, handle: bool, exitFlag: bool, lock: Holder, main: MainPc, thread: ThreadPc, created: nat, joined: nat)

  /** r answers for the step's oracle: what set_camera_fps is told, or, when a thread
      is created, 0 for success. A thread that cannot be created leaves handle 0. */
  datatype Action = Hint(h: CameraHint) | MainStep(r: int) | ThreadStep(r: int) | Wake(cause: Cause)

  predicate Enabled(s: Cam, a: Action) {
    match a
    case Hint(_) => s.main.Idle?
    case MainStep(r) =>
      && !s.main.Idle?
      && (s.main.LaunchLock? || s.main.StopLock? ==> s.lock.Free?)
      && (s.main.Joining? ==> s.thread.Exited?)
      && (s.main.CallFps? ==> Answers(s.f, r))
    case ThreadStep(r) =>
      && !s.thread.NotCreated? && !s.thread.Sleeping? && !s.thread.Exited?
      && (s.thread.Top? || s.thread.Woken? ==> s.lock.Free?)
      && (s.thread.RefreshFps? ==> Answers(s.f, r))
    case Wake(cause) => s.thread.Sleeping? && !cause.Signal?
  }

  /** A new FPS target is none that is still there. */
  predicate Answers(f: Fields, r: int) {
    f.fdGpu == -1 ==> r >= -1 && r !in f.live
  }

  function Begin(s: Cam, h: CameraHint): Cam {
    match h
    case STILL_PREVIEW_POWER => s.(f := s.f.(usecase := 0), main := Apply(0))
    case VIDEO_PREVIEW_POWER => s.(f := s.f.(usecase := 1), main := Apply(1))
    case VIDEO_RECORD_POWER => s.(f := s.f.(usecase := 2), main := Apply(2))
    case HIGH_FPS_VIDEO_RECORD_POWER => s.(f := s.f.(usecase := 3), main := Apply(3))
    case FPS => s.(f := s.f.(targetFps := CAMERA_TARGET_FPS), main := CallFps)
    case RESET => s.(main := Stop)
    case _ => s.(main := Launch(-1))
  }

  /** Whether a hint of use case u (or none) wants the thread. */
  predicate WantsThread(f: Fields, caps: Caps, u: int) {
    f.targetFps != 0 || (0 <= u < USECASES && caps[u] != NO_CAP)
  }

  function MainNext(s: Cam, caps: Caps, r: int): Cam {
    match s.main
    case Idle => s
    case Apply(u) => if u < USECASES then s.(f := PhsHints(s.f, caps[u]), main := Launch(u)) else s
    case CallFps => s.(f := SetFps(s.f, r), main := Launch(-1))
    case Launch(u) => s.(main := if WantsThread(s.f, caps, u) then LaunchLock else Idle)
    case LaunchLock => s.(lock := ByMain, main := LaunchLocked)
    case LaunchLocked =>
      if s.handle || r != 0 then s.(lock := Free, main := Idle)
      else s.(lock := Free, main := Idle, handle := true, thread := Top, created := s.created + 1)
    case Stop => s.(main := if s.handle then StopLock else Clearing)
    case StopLock => s.(lock := ByMain, main := StopLocked)
    case StopLocked => s.(exitFlag := true, lock := Free, main := Signalling)
    case Signalling => s.(thread := if s.thread.Sleeping? then Woken(Signal) else s.thread, main := Joining)
    case Joining =>
      s.(thread := NotCreated, handle := false, exitFlag := false, joined := s.joined + 1, main := Clearing)
    case Clearing => s.(f := ResetFields(s.f), main := Launch(-1))
  }

  function ThreadNext(s: Cam, caps: Caps, r: int): Cam {
    match s.thread
    case NotCreated => s
    case Sleeping => s
    case Exited => s
    case Top => s.(lock := ByThread, thread := Checking)
    case Checking => if s.exitFlag then s.(thread := Leaving) else s.(lock := Free, thread := Sleeping)
    case Leaving => s.(lock := Free, thread := Exited)
    case Woken(cause) => s.(lock := ByThread, thread := Reacquired(cause))
    case Reacquired(cause) => s.(lock := Free, thread := if cause.Timeout? then RefreshFps else Exited)
    case RefreshFps => s.(f := if s.f.targetFps != 0 then SetFps(s.f, r) else s.f, thread := RefreshUsecase)
    case RefreshUsecase => s.(thread := if 0 <= s.f.usecase < USECASES then Sending else Top)
    case Sending =>
      s.(f := if 0 <= s.f.usecase < USECASES then PhsHints(s.f, caps[s.f.usecase]) else s.f, thread := Top)
  }

  function Step(s: Cam, caps: Caps, a: Action): Cam
    requires Enabled(s, a)
  {
    match a
    case Hint(h) => Begin(s, h)
    case MainStep(r) => MainNext(s, caps, r)
    case ThreadStep(r) => ThreadNext(s, caps, r)
    case Wake(cause) => s.(thread := Woken(cause))
  }

  const START: Cam := Cam(Fields(-1, 0, -1, map[], false, []), false, false, Free, Idle, NotCreated, 0, 0)

  ghost predicate LegalRun(s: Cam, caps: Caps, run: seq<Action>)
    decreases |run|
  {
    run == [] || (Enabled(s, run[0]) && LegalRun(Step(s, caps, run[0]), caps, run[1..]))
  }

  ghost function After(s: Cam, caps: Caps, run: seq<Action>): Cam
    requires LegalRun(s, caps, run)
    decreases |run|
  {
    if run == [] then s else After(Step(s, caps, run[0]), caps, run[1..])
  }

  // ----- invariant -----

  predicate MainHolds(m: MainPc) { m.LaunchLocked? || m.StopLocked? }
  predicate ThreadHolds(t: ThreadPc) { t.Checking? || t.Leaving? || t.Reacquired? }
  predicate Stopping(m: MainPc) { m.StopLock? || m.StopLocked? || m.Signalling? || m.Joining? }

  ghost predicate LockInv(s: Cam) {
    && (s.lock.ByMain? <==> MainHolds(s.main))
    && (s.lock.ByThread? <==> ThreadHolds(s.thread))
  }

  ghost predicate ThreadInv(s: Cam) {
    && (s.handle <==> !s.thread.NotCreated?)
    && s.created == s.joined + (if s.handle then 1 else 0)
    && (Stopping(s.main) ==> s.handle)
    && (s.main.Clearing? ==> !s.handle)
    && (s.exitFlag <==> s.main.Signalling? || s.main.Joining?)
    && (s.thread.Leaving? ==> s.exitFlag)
    && (s.main.Joining? ==> !s.thread.Sleeping?)
  }

  ghost predicate FieldsInv(s: Cam) {
    && s.f.live.Keys == (if s.f.fdGpu == -1 then {} else {s.f.fdGpu}) && s.f.fdGpu >= -1
    && -1 <= s.f.usecase < USECASES
    && (s.f.throughput ==> s.f.usecase != -1)
    && (s.main.Apply? ==> s.f.usecase == s.main.usecase)
    && (s.thread.Sending? ==> s.f.usecase != -1)
  }

  ghost predicate Inv(s: Cam) {
    LockInv(s) && ThreadInv(s) && FieldsInv(s)
  }

  lemma StepKeepsLock(s: Cam, caps: Caps, a: Action)
    requires LockInv(s) && ThreadInv(s) && Enabled(s, a)
    ensures LockInv(Step(s, caps, a))
  {
  }

  lemma StepKeepsThread(s: Cam, caps: Caps, a: Action)
    requires LockInv(s) && ThreadInv(s) && Enabled(s, a)
    ensures ThreadInv(Step(s, caps, a))
  {
  }

  lemma HintsKeepTargets(f: Fields, cap: Cap)
    ensures
      var g := PhsHints(f, cap);
      g.usecase == f.usecase && g.fdGpu == f.fdGpu && g.live == f.live
  {
  }

  lemma MainKeepsFields(s: Cam, caps: Caps, r: int)
    requires Inv(s) && Enabled(s, MainStep(r))
    ensures FieldsInv(MainNext(s, caps, r))
  {
    hide LockInv, WantsThread, PhsHints;
    if s.main.Apply? {
      HintsKeepTargets(s.f, caps[s.main.usecase]);
    }
  }

  lemma ThreadKeepsFields(s: Cam, caps: Caps, r: int)
    requires Inv(s) && Enabled(s, ThreadStep(r))
    ensures FieldsInv(ThreadNext(s, caps, r))
  {
    hide LockInv, PhsHints;
    if s.thread.Sending? {
      HintsKeepTargets(s.f, caps[s.f.usecase]);
    }
  }

  lemma StepKeepsFields(s: Cam, caps: Caps, a: Action)
    requires Inv(s) && Enabled(s, a)
    ensures FieldsInv(Step(s, caps, a))
  {
    hide LockInv, MainNext, ThreadNext;
    match a {
      case MainStep(r) => MainKeepsFields(s, caps, r);
      case ThreadStep(r) => ThreadKeepsFields(s, caps, r);
      case _ =>
    }
  }

  lemma StepKeepsInv(s: Cam, caps: Caps, a: Action)
    requires Inv(s) && Enabled(s, a)
    ensures Inv(Step(s, caps, a))
  {
    StepKeepsLock(s, caps, a);
    StepKeepsThread(s, caps, a);
    StepKeepsFields(s, caps, a);
  }

  lemma {:induction false} RunKeepsInv(s: Cam, caps: Caps, run: seq<Action>)
    requires Inv(s) && LegalRun(s, caps, run)
    ensures Inv(After(s, caps, run))
    decreases |run|
  {
    if run != [] {
      StepKeepsInv(s, caps, run[0]);
      RunKeepsInv(Step(s, caps, run[0]), caps, run[1..]);
    }
  }

  /** At every moment of every run there is at most one thread, and the handle is
      nonzero exactly while one has been created and not yet joined. */
  lemma OneThreadAtMost(caps: Caps, run: seq<Action>)
    requires LegalRun(START, caps, run)
    ensures
      var s := After(START, caps, run);
      && s.created - s.joined == (if s.handle then 1 else 0)
      && (s.handle <==> !s.thread.NotCreated?)
  {
    RunKeepsInv(START, caps, run);
  }

  /** The thread never indexes the table outside its bounds, although it reads
      the use case twice without the mutex. */
  lemma IndexStaysInBounds(caps: Caps, run: seq<Action>)
    requires LegalRun(START, caps, run)
    ensures After(START, caps, run).thread.Sending? ==> 0 <= After(START, caps, run).f.usecase < |caps|
  {
    RunKeepsInv(START, caps, run);
  }

  // ----- a reset is final -----

  ghost predicate Quiet(s: Cam) {
    && !s.handle && s.thread.NotCreated? && (s.main.Idle? || s.main == Launch(-1))
    && s.f == Fields(-1, 0, -1, map[], false, s.f.log)
  }

  /** The last step of a reset leaves nothing running and nothing requested. */
  lemma ResetIsQuiet(caps: Caps, run: seq<Action>, r: int)
    requires LegalRun(START, caps, run)
    requires After(START, caps, run).main.Clearing? && Enabled(After(START, caps, run), MainStep(r))
    ensures Quiet(Step(After(START, caps, run), caps, MainStep(r)))
    ensures
      var f := After(START, caps, run).f;
      Step(After(START, caps, run), caps, MainStep(r)).f.log ==
        f.log + (if f.fdGpu != -1 then [CancelFpsTarget(f.fdGpu)] else [])
          + (if f.usecase != -1 then [CancelThroughput] else [])
  {
    RunKeepsInv(START, caps, run);
  }

  /** And it stays so, whatever is scheduled, until the next camera hint. */
  lemma {:induction false} QuietPersists(s: Cam, caps: Caps, run: seq<Action>)
    requires Quiet(s) && LegalRun(s, caps, run)
    requires forall i :: 0 <= i < |run| ==> !run[i].Hint?
    ensures Quiet(After(s, caps, run)) && After(s, caps, run).f.log == s.f.log
    decreases |run|
  {
    if run != [] {
      assert !run[0].Hint?;
      QuietPersists(Step(s, caps, run[0]), caps, run[1..]);
    }
  }

  // ----- the join returns -----

  /** The thread's own steps to its exit, once it is told to leave. */
  function Rank(t: ThreadPc): nat {
    match t
    case NotCreated => 0
    case Exited => 0
    case Leaving => 1
    case Checking => 2
    case Top => 3
    case Sending => 4
    case RefreshUsecase => 5
    case RefreshFps => 6
    case Reacquired(cause) => if cause.Timeout? then 7 else 1
    case Woken(cause) => if cause.Timeout? then 8 else 2
    case Sleeping => 9
  }

  /** While the caller waits in pthread_join, the thread can always take a step,
      nothing else can happen, and each step brings it nearer to its exit. */
  lemma EachStepNearsTheExit(s: Cam, caps: Caps, r: int)
    requires Inv(s) && s.main.Joining? && (s.thread.RefreshFps? ==> Answers(s.f, r))
    ensures !s.thread.Exited? ==> Enabled(s, ThreadStep(r)) && !Enabled(s, MainStep(r))
    ensures Enabled(s, ThreadStep(r)) ==> Rank(ThreadNext(s, caps, r).thread) < Rank(s.thread)
    ensures Enabled(s, ThreadStep(r)) ==> ThreadNext(s, caps, r).main.Joining?
    ensures forall cause :: !Enabled(s, Wake(cause))
    ensures s.thread.Exited? ==> Enabled(s, MainStep(r))
  {
  }

  /** From the signal on, any run that does not reach the join's return consists
      of thread steps, of which there are at most eight; a run that cannot go on
      has the thread exited, so the join returns. */
  lemma {:induction false} JoinReturns(s: Cam, caps: Caps, run: seq<Action>)
    requires Inv(s) && s.main.Joining? && LegalRun(s, caps, run)
    requires forall i :: 0 <= i < |run| ==> !run[i].MainStep?
    ensures After(s, caps, run).main.Joining?
    ensures |run| + Rank(After(s, caps, run).thread) <= Rank(s.thread) <= 8
    ensures (forall r :: !Enabled(After(s, caps, run), ThreadStep(r))) <==> After(s, caps, run).thread.Exited?
    decreases |run|
  {
    if run == [] {
      EachStepNearsTheExit(s, caps, Unused(s.f));
    } else {
      var a := run[0];
      assert !a.MainStep?;
      assert a.ThreadStep?;
      EachStepNearsTheExit(s, caps, a.r);
      StepKeepsInv(s, caps, a);
      JoinReturns(Step(s, caps, a), caps, run[1..]);
    }
  }

  /** For every interleaving from start-up that reaches the join: at most eight
      more steps of the thread, none of which can be prevented, and it returns. */
  lemma ShutdownLosesNoWakeup(caps: Caps, before: seq<Action>, run: seq<Action>)
    requires LegalRun(START, caps, before) && After(START, caps, before).main.Joining?
    requires LegalRun(After(START, caps, before), caps, run)
    requires forall i :: 0 <= i < |run| ==> !run[i].MainStep?
    ensures
      var s := After(After(START, caps, before), caps, run);
      && |run| <= 8
      && (s.thread.Exited? ==> Enabled(s, MainStep(-1)))
      && (!s.thread.Exited? ==> Enabled(s, ThreadStep(-1)))
  {
    RunKeepsInv(START, caps, before);
    var t := After(START, caps, before);
    JoinReturns(t, caps, run);
    RunKeepsInv(t, caps, run);
    EachStepNearsTheExit(After(t, caps, run), caps, Unused(After(t, caps, run).f));
  }

  /** NvOsSetFpsTarget may always refuse. */
  function Unused(f: Fields): (r: int)
    requires forall x :: x in f.live ==> x >= 0
    ensures r == -1 && Answers(f, r)
  {
    -1
  }

  /** The wakeup cannot be lost before the signal either: once the flag is set the
      thread never goes back to sleep. */
  lemma NoSleepAfterTheFlag(s: Cam, caps: Caps, a: Action)
    requires Inv(s) && s.exitFlag && Enabled(s, a) && !s.thread.Sleeping?
    ensures !Step(s, caps, a).thread.Sleeping?
  {
  }

  /** The caller gets the mutex: whoever holds it is the thread, whose next step
      or the one after gives it back. */
  lemma MutexIsGivenBack(s: Cam, caps: Caps, r: int)
    requires Inv(s) && (s.main.StopLock? || s.main.LaunchLock?) && !s.lock.Free?
    ensures Enabled(s, ThreadStep(r)) && ThreadNext(s, caps, r).lock.Free?
  {
  }

  // ----- a spurious wakeup ends the repetition -----

  /** The thread has exited or is on its way out, past any test it could pass. */
  predicate Dying(t: ThreadPc) {
    t.Exited? || t.Leaving? || ((t.Woken? || t.Reacquired?) && !t.cause.Timeout?)
  }

  /** Whether the present thread has been woken spuriously, after one more step. */
  ghost function WokenBy(s: Cam, caps: Caps, a: Action, woken: bool): bool
    requires Enabled(s, a)
  {
    a == Wake(Spurious) || (woken && Step(s, caps, a).created == s.created)
  }

  /** Whether a run from s woke the thread spuriously that is there at its end;
      `woken` says so of the thread that is there in s. */
  ghost function WokenSpuriously(s: Cam, caps: Caps, run: seq<Action>, woken: bool): bool
    requires LegalRun(s, caps, run)
    decreases |run|
  {
    if run == [] then woken
    else WokenSpuriously(Step(s, caps, run[0]), caps, run[1..], WokenBy(s, caps, run[0], woken))
  }

  /** A thread leaves because it was woken spuriously or told to. */
  ghost predicate Told(s: Cam, woken: bool) {
    s.handle ==> (woken ==> Dying(s.thread)) && (Dying(s.thread) ==> woken || s.exitFlag)
  }

  lemma {:induction false} RunKeepsTold(s: Cam, caps: Caps, run: seq<Action>, woken: bool)
    requires Inv(s) && LegalRun(s, caps, run) && Told(s, woken)
    ensures Told(After(s, caps, run), WokenSpuriously(s, caps, run, woken))
    decreases |run|
  {
    if run != [] {
      StepKeepsInv(s, caps, run[0]);
      RunKeepsTold(Step(s, caps, run[0]), caps, run[1..], WokenBy(s, caps, run[0], woken));
    }
  }

  /** In every run from start-up, a thread that nobody has told to exit is gone or
      on its way out if and only if it has been woken spuriously. */
  lemma DiesUntoldOnlyBySpuriousWakeup(caps: Caps, run: seq<Action>)
    requires LegalRun(START, caps, run) && After(START, caps, run).handle && !After(START, caps, run).exitFlag
    ensures Dying(After(START, caps, run).thread) <==> WokenSpuriously(START, caps, run, false)
  {
    RunKeepsTold(START, caps, run, false);
  }

  /** One more step at the end of a run. */
  lemma {:induction false} StepLast(s: Cam, caps: Caps, run: seq<Action>, a: Action)
    requires LegalRun(s, caps, run) && Enabled(After(s, caps, run), a)
    ensures LegalRun(s, caps, run + [a]) && After(s, caps, run + [a]) == Step(After(s, caps, run), caps, a)
    decreases |run|
  {
    if run == [] {
      assert run + [a] == [a] && [a][1..] == [];
    } else {
      StepLast(Step(s, caps, run[0]), caps, run[1..], a);
      assert (run + [a])[1..] == run[1..] + [a];
    }
  }

  /** A frame-rate hint starts the thread. */
  lemma HintStartsThread(caps: Caps) returns (run: seq<Action>)
    ensures LegalRun(START, caps, run)
    ensures After(START, caps, run) ==
      START.(f := Fields(-1, CAMERA_TARGET_FPS, 5, map[5 := CAMERA_TARGET_FPS], false, [SetFpsTarget(30)]),
             handle := true, thread := Top, created := 1)
  {
    StepLast(START, caps, [], Hint(FPS));
    run := [] + [Hint(FPS)];
    StepLast(START, caps, run, MainStep(5));
    run := run + [MainStep(5)];
    StepLast(START, caps, run, MainStep(0));
    run := run + [MainStep(0)];
    StepLast(START, caps, run, MainStep(0));
    run := run + [MainStep(0)];
    StepLast(START, caps, run, MainStep(0));
    run := run + [MainStep(0)];
  }

  /** The failing input, from start-up: the thread is started, goes to sleep and is
      woken spuriously; it exits, though nobody asked it to, and its handle is set. */
  lemma SpuriousWakeupExits(caps: Caps) returns (run: seq<Action>)
    ensures LegalRun(START, caps, run) && WokenSpuriously(START, caps, run, false)
    ensures
      var t := After(START, caps, run);
      t.thread.Exited? && t.handle && !t.exitFlag && t.main.Idle? && t.f.targetFps == CAMERA_TARGET_FPS
  {
    run := HintStartsThread(caps);
    StepLast(START, caps, run, ThreadStep(-1));
    run := run + [ThreadStep(-1)];
    StepLast(START, caps, run, ThreadStep(-1));
    run := run + [ThreadStep(-1)];
    StepLast(START, caps, run, Wake(Spurious));
    run := run + [Wake(Spurious)];
    StepLast(START, caps, run, ThreadStep(-1));
    run := run + [ThreadStep(-1)];
    StepLast(START, caps, run, ThreadStep(-1));
    run := run + [ThreadStep(-1)];
    DiesUntoldOnlyBySpuriousWakeup(caps, run);
  }

  /** No hint but RESET starts it again. */
  lemma {:induction false} ExitedUntilReset(s: Cam, caps: Caps, run: seq<Action>)
    requires Inv(s) && s.thread.Exited? && !s.main.Stop? && !Stopping(s.main) && LegalRun(s, caps, run)
    requires forall i :: 0 <= i < |run| ==> run[i] != Hint(RESET)
    ensures After(s, caps, run).thread.Exited? && After(s, caps, run).handle
    decreases |run|
  {
    if run != [] {
      assert run[0] != Hint(RESET);
      StepKeepsInv(s, caps, run[0]);
      ExitedUntilReset(Step(s, caps, run[0]), caps, run[1..]);
    }
  }

  /** The shared fields in the code's own form. */
  class CameraPower {
    var usecaseIndex: int
    var targetFps: int
    var fdGpu: int
    ghost var live: map<int, int>
    ghost var throughput: bool
    ghost var log: seq<Call>

    ghost function State(): Fields
      reads this
    {
      Fields(usecaseIndex, targetFps, fdGpu, live, throughput, log)
    }

    constructor ()
      ensures State() == START.f
    {
      usecaseIndex, targetFps, fdGpu := -1, 0, -1;
      live, throughput, log := map[], false, [];
    }

    method SetCameraFps(r: int)
      modifies this`fdGpu, this`live, this`log
      ensures State() == SetFps(old(State()), r)
    {
      if fdGpu == -1 {
        log := log + [SetFpsTarget(targetFps)];
        fdGpu := r;
        if fdGpu == -1 {
          return;
        }
        live := live[r := targetFps];
      } else {
        log := log + [ModifyFpsTarget(fdGpu, targetFps)];
        if r == -1 {
          return;
        }
        live := live[fdGpu := targetFps];
      }
    }

    method SetCameraSinglePhsHint(kind: Kind, value: int)
      requires value != 0
      modifies this`throughput, this`log
      ensures State() == Single(old(State()), kind, value)
    {
      throughput := true;
      log := log + [SendThroughput(kind, value, 1000)];
    }

    method SetCameraPhsHints(cap: Cap)
      modifies this`targetFps, this`throughput, this`log
      ensures State() == PhsHints(old(State()), cap)
    {
      if cap.minCpuHint != 0 {
        SetCameraSinglePhsHint(MinCpu, cap.minCpuHint);
      }
      if cap.maxCpuHint != 0 {
        SetCameraSinglePhsHint(MaxCpu, cap.maxCpuHint);
      }
      if cap.minGpuHint != 0 {
        SetCameraSinglePhsHint(MinGpu, cap.minGpuHint);
      }
      if cap.maxGpuHint != 0 {
        SetCameraSinglePhsHint(MaxGpu, cap.maxGpuHint);
      }
      if cap.fpsHint != 0 {
        targetFps := cap.fpsHint;
      }
    }

    method ResetCameraFields()
      requires -1 !in live
      modifies this
      ensures State() == ResetFields(old(State()))
    {
      if fdGpu != -1 {
        log := log + [CancelFpsTarget(fdGpu)];
        live := live - {fdGpu};
        fdGpu := -1;
      }
      targetFps := 0;
      if usecaseIndex != -1 {
        usecaseIndex := -1;
        log := log + [CancelThroughput];
        throughput := false;
      }
    }
  }
}

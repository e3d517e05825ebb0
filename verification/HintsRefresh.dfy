/** What the camera hints and their thread send: a hint sets its fields and sends
    its own at once, and every timeout of the thread sends them once more. */
module HintsRefresh {
  import opened Hints
  import opened HintsThread

  // ----- one turn of the thread -----

  /** Steps of the thread alone. */
  predicate Undisturbed(run: seq<Action>) {
    forall i :: 0 <= i < |run| ==> run[i].ThreadStep?
  }

  /** How a frame rate is asked for. */
  function FpsCalls(f: Fields): seq<Call> {
    if f.targetFps == 0 then []
    else if f.fdGpu == -1 then [SetFpsTarget(f.targetFps)]
    else [ModifyFpsTarget(f.fdGpu, f.targetFps)]
  }

  /** The throughput hint of this kind, unless its value is zero. */
  function NonZero(kind: Kind, value: int): seq<Call> {
    if value != 0 then [SendThroughput(kind, value, 1000)] else []
  }

  function ThroughputCalls(cap: Cap): seq<Call> {
    NonZero(MinCpu, cap.minCpuHint) + NonZero(MaxCpu, cap.maxCpuHint)
    + NonZero(MinGpu, cap.minGpuHint) + NonZero(MaxGpu, cap.maxGpuHint)
  }

  lemma FirstStep(s: Cam, caps: Caps, run: seq<Action>)
    requires LegalRun(s, caps, run) && run != [] && Undisturbed(run)
    ensures run[0].ThreadStep? && Enabled(s, run[0]) && Undisturbed(run[1..])
    ensures LegalRun(ThreadNext(s, caps, run[0].r), caps, run[1..])
    ensures After(s, caps, run) == After(ThreadNext(s, caps, run[0].r), caps, run[1..])
  {
  }

  lemma HintsAreSent(f: Fields, cap: Cap)
    ensures
      var g := PhsHints(f, cap);
      && g.log == f.log + ThroughputCalls(cap)
      && g.targetFps == (if cap.fpsHint != 0 then cap.fpsHint else f.targetFps)
      && g.usecase == f.usecase && g.fdGpu == f.fdGpu && g.live == f.live
  {
    hide Single, NonZero;
    SingleIsSent(f, MinCpu, cap.minCpuHint);
    var f1 := Single(f, MinCpu, cap.minCpuHint);
    SingleIsSent(f1, MaxCpu, cap.maxCpuHint);
    var f2 := Single(f1, MaxCpu, cap.maxCpuHint);
    SingleIsSent(f2, MinGpu, cap.minGpuHint);
    SingleIsSent(Single(f2, MinGpu, cap.minGpuHint), MaxGpu, cap.maxGpuHint);
  }

  lemma SingleIsSent(f: Fields, kind: Kind, value: int)
    ensures
      var g := Single(f, kind, value);
      && g.log == f.log + NonZero(kind, value) && g.targetFps == f.targetFps
      && g.usecase == f.usecase && g.fdGpu == f.fdGpu && g.live == f.live
  {
  }

  lemma SendingTurn(s: Cam, caps: Caps, run: seq<Action>)
    requires Inv(s) && s.thread == RefreshUsecase && LegalRun(s, caps, run) && Undisturbed(run)
    requires |run| == if s.f.usecase == -1 then 1 else 2
    ensures
      var t, u := After(s, caps, run), s.f.usecase;
      && t.thread.Top? && t.f.usecase == u && t.f.fdGpu == s.f.fdGpu && t.f.live == s.f.live
      && t.f.log == s.f.log + (if u == -1 then [] else ThroughputCalls(caps[u]))
      && t.f.targetFps == (if u == -1 || caps[u].fpsHint == 0 then s.f.targetFps else caps[u].fpsHint)
  {
    hide PhsHints, ThroughputCalls;
    FirstStep(s, caps, run);
    if s.f.usecase != -1 {
      FirstStep(ThreadNext(s, caps, run[0].r), caps, run[1..]);
      HintsAreSent(s.f, caps[s.f.usecase]);
      assert run[1..][1..] == [];
    }
  }

  lemma FpsIsAsked(f: Fields, r: int)
    ensures
      var g := if f.targetFps != 0 then SetFps(f, r) else f;
      && g.log == f.log + FpsCalls(f) && g.targetFps == f.targetFps && g.usecase == f.usecase
      && (f.targetFps != 0 && r != -1 ==>
            && g.fdGpu == (if f.fdGpu == -1 then r else f.fdGpu)
            && g.fdGpu in g.live && g.live[g.fdGpu] == f.targetFps)
      && (f.targetFps == 0 || r == -1 ==> g.fdGpu == f.fdGpu && g.live == f.live)
  {
  }

  lemma FpsTurn(s: Cam, caps: Caps, run: seq<Action>)
    requires Inv(s) && s.thread == RefreshFps && LegalRun(s, caps, run) && Undisturbed(run)
    requires |run| == if s.f.usecase == -1 then 2 else 3
    ensures
      var t, u, r := After(s, caps, run), s.f.usecase, run[0].r;
      && t.thread.Top? && t.f.usecase == u
      && (s.f.targetFps != 0 && r != -1 ==>
            && t.f.fdGpu == (if s.f.fdGpu == -1 then r else s.f.fdGpu)
            && t.f.fdGpu in t.f.live && t.f.live[t.f.fdGpu] == s.f.targetFps)
      && (s.f.targetFps == 0 || r == -1 ==> t.f.fdGpu == s.f.fdGpu && t.f.live == s.f.live)
      && t.f.log == s.f.log + FpsCalls(s.f) + (if u == -1 then [] else ThroughputCalls(caps[u]))
      && t.f.targetFps == (if u == -1 || caps[u].fpsHint == 0 then s.f.targetFps else caps[u].fpsHint)
  {
    hide PhsHints, ThroughputCalls, SetFps, FpsCalls;
    FirstStep(s, caps, run);
    StepKeepsInv(s, caps, run[0]);
    FpsIsAsked(s.f, run[0].r);
    SendingTurn(ThreadNext(s, caps, run[0].r), caps, run[1..]);
  }

  /** From every timeout, until the thread is back at the top of its loop: a wanted
      frame rate is asked for again, of the target held or of a new one, and is that
      of a live target unless the platform refuses; and a use case has all its
      nonzero throughput hints sent again and its frame rate taken over. */
  lemma TurnRefreshes(s: Cam, caps: Caps, run: seq<Action>)
    requires Inv(s) && s.thread == Woken(Timeout) && LegalRun(s, caps, run) && Undisturbed(run)
    requires |run| == if s.f.usecase == -1 then 4 else 5
    ensures
      var t, u, r := After(s, caps, run), s.f.usecase, run[2].r;
      && t.thread.Top? && t.f.usecase == u
      && (s.f.targetFps != 0 && r != -1 ==>
            && t.f.fdGpu == (if s.f.fdGpu == -1 then r else s.f.fdGpu)
            && t.f.fdGpu in t.f.live && t.f.live[t.f.fdGpu] == s.f.targetFps)
      && (s.f.targetFps == 0 || r == -1 ==> t.f.fdGpu == s.f.fdGpu && t.f.live == s.f.live)
      && t.f.log == s.f.log + FpsCalls(s.f) + (if u == -1 then [] else ThroughputCalls(caps[u]))
      && t.f.targetFps == (if u == -1 || caps[u].fpsHint == 0 then s.f.targetFps else caps[u].fpsHint)
  {
    hide PhsHints, ThroughputCalls, SetFps, FpsCalls;
    FirstStep(s, caps, run);
    var s1 := ThreadNext(s, caps, run[0].r);
    FirstStep(s1, caps, run[1..]);
    var s2 := ThreadNext(s1, caps, run[1].r);
    assert run[1..][1..] == run[2..];
    StepKeepsInv(s, caps, run[0]);
    StepKeepsInv(s1, caps, run[1]);
    FpsTurn(s2, caps, run[2..]);
  }

  /** Nothing but the mutex can hold the turn up. */
  lemma TurnGoesOn(s: Cam, r: int)
    requires Inv(s) && Answers(s.f, r) && (s.thread.Woken? ==> s.lock.Free?)
    requires s.thread == Woken(Timeout) || s.thread == Reacquired(Timeout) || s.thread == RefreshFps
             || s.thread == RefreshUsecase || s.thread == Sending
    ensures Enabled(s, ThreadStep(r))
  {
  }

  // ----- runs -----

  predicate IsFps(c: Call) {
    c.SetFpsTarget? || c.ModifyFpsTarget?
  }

  predicate IsThroughput(c: Call, kind: Kind) {
    c.SendThroughput? && c.kind == kind
  }

  /** How often a frame rate has been asked for, and a kind of hint been sent. */
  ghost function FpsCount(log: seq<Call>): nat {
    |set i | 0 <= i < |log| && IsFps(log[i])|
  }

  ghost function SentCount(log: seq<Call>, kind: Kind): nat {
    |set i | 0 <= i < |log| && IsThroughput(log[i], kind)|
  }

  lemma FpsCounted(log: seq<Call>, c: Call)
    ensures FpsCount(log + [c]) == FpsCount(log) + if IsFps(c) then 1 else 0
  {
    var longer, fps := log + [c], set i | 0 <= i < |log| && IsFps(log[i]);
    assert (set i | 0 <= i < |longer| && IsFps(longer[i])) == fps + if IsFps(c) then {|log|} else {};
  }

  lemma SentCounted(log: seq<Call>, c: Call, kind: Kind)
    ensures SentCount(log + [c], kind) == SentCount(log, kind) + if IsThroughput(c, kind) then 1 else 0
  {
    var longer, sent := log + [c], set i | 0 <= i < |log| && IsThroughput(log[i], kind);
    assert (set i | 0 <= i < |longer| && IsThroughput(longer[i], kind)) ==
           sent + if IsThroughput(c, kind) then {|log|} else {};
  }

  function ValueOf(cap: Cap, kind: Kind): int {
    match kind
    case MinCpu => cap.minCpuHint
    case MaxCpu => cap.maxCpuHint
    case MinGpu => cap.minGpuHint
    case MaxGpu => cap.maxGpuHint
  }

  lemma SingleCounts(f: Fields, of: Kind, value: int, kind: Kind)
    ensures
      var g := Single(f, of, value);
      && FpsCount(g.log) == FpsCount(f.log) && g.targetFps == f.targetFps && g.usecase == f.usecase
      && SentCount(g.log, kind) == SentCount(f.log, kind) + if of == kind && value != 0 then 1 else 0
  {
    hide FpsCount, SentCount;
    FpsCounted(f.log, SendThroughput(of, value, HINT_MS));
    SentCounted(f.log, SendThroughput(of, value, HINT_MS), kind);
  }

  lemma HintsCount(f: Fields, cap: Cap, kind: Kind)
    ensures
      var g := PhsHints(f, cap);
      && FpsCount(g.log) == FpsCount(f.log) && g.usecase == f.usecase
      && SentCount(g.log, kind) == SentCount(f.log, kind) + (if ValueOf(cap, kind) != 0 then 1 else 0)
      && (f.targetFps != 0 ==> g.targetFps != 0)
  {
    hide Single, FpsCount, SentCount;
    SingleCounts(f, MinCpu, cap.minCpuHint, kind);
    var f1 := Single(f, MinCpu, cap.minCpuHint);
    SingleCounts(f1, MaxCpu, cap.maxCpuHint, kind);
    var f2 := Single(f1, MaxCpu, cap.maxCpuHint);
    SingleCounts(f2, MinGpu, cap.minGpuHint, kind);
    SingleCounts(Single(f2, MinGpu, cap.minGpuHint), MaxGpu, cap.maxGpuHint, kind);
  }

  lemma FpsCounts(f: Fields, r: int, kind: Kind)
    ensures
      var g := SetFps(f, r);
      && FpsCount(g.log) == FpsCount(f.log) + 1 && SentCount(g.log, kind) == SentCount(f.log, kind)
      && g.targetFps == f.targetFps && g.usecase == f.usecase
  {
    hide FpsCount, SentCount;
    var call := if f.fdGpu == -1 then SetFpsTarget(f.targetFps) else ModifyFpsTarget(f.fdGpu, f.targetFps);
    FpsCounted(f.log, call);
    SentCounted(f.log, call, kind);
  }

  /** No reset is under way. */
  predicate Going(m: MainPc) {
    !m.Stop? && !Stopping(m) && !m.Clearing?
  }

  predicate NoReset(run: seq<Action>) {
    forall i :: 0 <= i < |run| ==> run[i] != Hint(RESET)
  }

  function Timeouts(run: seq<Action>): nat {
    if run == [] then 0 else (if run[0] == Wake(Timeout) then 1 else 0) + Timeouts(run[1..])
  }

  /** Requests of the frame rate that have been triggered and not been made yet: by
      the thread after a timeout, and by a frame-rate hint. */
  function FpsDue(s: Cam): nat {
    (if s.thread == Woken(Timeout) || s.thread == Reacquired(Timeout) || s.thread == RefreshFps then 1 else 0)
    + (if s.main.CallFps? then 1 else 0)
  }

  function FpsHints(run: seq<Action>): nat {
    if run == [] then 0 else (if run[0] == Hint(FPS) then 1 else 0) + FpsHints(run[1..])
  }

  /** The use case a hint sets. */
  function CaseOf(h: CameraHint): int {
    match h
    case STILL_PREVIEW_POWER => 0
    case VIDEO_PREVIEW_POWER => 1
    case VIDEO_RECORD_POWER => 2
    case HIGH_FPS_VIDEO_RECORD_POWER => 3
    case _ => -1
  }

  /** Hints of the use cases that have been triggered and not been sent yet. */
  function HintsDue(s: Cam): nat {
    (if s.thread == Woken(Timeout) || s.thread == Reacquired(Timeout) || s.thread == RefreshFps
        || s.thread == RefreshUsecase || s.thread == Sending then 1 else 0)
    + (if s.main.Apply? then 1 else 0)
  }

  function CaseHints(run: seq<Action>): nat {
    if run == [] then 0 else (if run[0].Hint? && CaseOf(run[0].h) != -1 then 1 else 0) + CaseHints(run[1..])
  }

  /** Use case u has a nonzero hint of this kind. */
  predicate Has(caps: Caps, u: int, kind: Kind) {
    0 <= u < 4 && ValueOf(caps[u], kind) != 0
  }

  /** So has every use case that the hints of the run set. */
  predicate AllHave(caps: Caps, run: seq<Action>, kind: Kind) {
    forall i :: 0 <= i < |run| && run[i].Hint? && CaseOf(run[i].h) != -1 ==> Has(caps, CaseOf(run[i].h), kind)
  }

  /** One step: a wanted frame rate is asked for, and a hint that all use cases have is
      sent, once for each time it falls due. */
  ghost predicate Repeats(s: Cam, t: Cam, caps: Caps, a: Action, kind: Kind) {
    var woken := if a == Wake(Timeout) then 1 else 0;
    && Going(t.main)
    && (s.f.targetFps != 0 ==>
          && t.f.targetFps != 0
          && FpsCount(t.f.log) + FpsDue(t) ==
               FpsCount(s.f.log) + FpsDue(s) + woken + (if a == Hint(FPS) then 1 else 0))
    && (Has(caps, s.f.usecase, kind) && (a.Hint? && CaseOf(a.h) != -1 ==> Has(caps, CaseOf(a.h), kind)) ==>
          && Has(caps, t.f.usecase, kind)
          && SentCount(t.f.log, kind) + HintsDue(t) ==
               SentCount(s.f.log, kind) + HintsDue(s) + woken + (if a.Hint? && CaseOf(a.h) != -1 then 1 else 0))
  }

  lemma MainRepeats(s: Cam, caps: Caps, r: int, kind: Kind)
    requires ThreadInv(s) && FieldsInv(s) && Enabled(s, MainStep(r)) && Going(s.main)
    ensures Repeats(s, MainNext(s, caps, r), caps, MainStep(r), kind)
  {
    hide PhsHints, SetFps, FpsCount, SentCount, CaseOf, ValueOf;
    if s.main.Apply? {
      HintsCount(s.f, caps[s.main.usecase], kind);
    } else if s.main.CallFps? {
      FpsCounts(s.f, r, kind);
    }
  }

  lemma ThreadCounts(s: Cam, caps: Caps, r: int, kind: Kind)
    requires s.thread.Sending? ==> 0 <= s.f.usecase < 4
    ensures
      var f := ThreadNext(s, caps, r).f;
      && f.usecase == s.f.usecase && (s.f.targetFps != 0 ==> f.targetFps != 0)
      && FpsCount(f.log) == FpsCount(s.f.log) + (if s.thread.RefreshFps? && s.f.targetFps != 0 then 1 else 0)
      && SentCount(f.log, kind) == SentCount(s.f.log, kind)
           + (if s.thread.Sending? && ValueOf(caps[s.f.usecase], kind) != 0 then 1 else 0)
  {
    hide PhsHints, SetFps, FpsCount, SentCount, ValueOf;
    if s.thread.Sending? {
      HintsCount(s.f, caps[s.f.usecase], kind);
    } else if s.thread.RefreshFps? {
      FpsCounts(s.f, r, kind);
    }
  }

  lemma ThreadRepeats(s: Cam, caps: Caps, r: int, kind: Kind)
    requires Enabled(s, ThreadStep(r)) && Going(s.main) && (s.thread.Sending? ==> 0 <= s.f.usecase < 4)
    ensures Repeats(s, ThreadNext(s, caps, r), caps, ThreadStep(r), kind)
  {
    hide PhsHints, SetFps, FpsCount, SentCount, CaseOf, ValueOf;
    ThreadCounts(s, caps, r, kind);
  }

  lemma StepRepeats(s: Cam, caps: Caps, a: Action, kind: Kind)
    requires Inv(s) && Enabled(s, a) && Going(s.main) && a != Hint(RESET)
    ensures Repeats(s, Step(s, caps, a), caps, a, kind)
  {
    hide MainNext, ThreadNext, FpsCount, SentCount, LockInv;
    match a {
      case MainStep(r) => MainRepeats(s, caps, r, kind);
      case ThreadStep(r) => ThreadRepeats(s, caps, r, kind);
      case _ =>
    }
  }

  /** In every run without a reset, while a frame rate is wanted: it is asked for
      exactly once for each timeout and once for each frame-rate hint, but for
      those whose turn has not come yet. */
  lemma {:induction false} EachTimeoutAsksForTheRate(s: Cam, caps: Caps, run: seq<Action>)
    requires Inv(s) && LegalRun(s, caps, run) && NoReset(run) && Going(s.main) && s.f.targetFps != 0
    ensures
      var t := After(s, caps, run);
      && t.f.targetFps != 0
      && FpsCount(t.f.log) + FpsDue(t) == FpsCount(s.f.log) + FpsDue(s) + Timeouts(run) + FpsHints(run)
    decreases |run|
  {
    hide LockInv, FieldsInv, Step, Enabled, FpsCount, FpsDue;
    if run != [] {
      assert run[0] != Hint(RESET);
      StepRepeats(s, caps, run[0], MinCpu);
      StepKeepsInv(s, caps, run[0]);
      EachTimeoutAsksForTheRate(Step(s, caps, run[0]), caps, run[1..]);
    }
  }

  /** In every run without a reset, while the use cases set have a hint of a kind: it
      is sent exactly once for each timeout and once for each use-case hint, but for
      those whose turn has not come yet. */
  lemma {:induction false} EachTimeoutSendsTheHints(s: Cam, caps: Caps, run: seq<Action>, kind: Kind)
    requires Inv(s) && LegalRun(s, caps, run) && NoReset(run) && Going(s.main)
    requires Has(caps, s.f.usecase, kind) && AllHave(caps, run, kind)
    ensures
      var t := After(s, caps, run);
      && Has(caps, t.f.usecase, kind)
      && SentCount(t.f.log, kind) + HintsDue(t) ==
           SentCount(s.f.log, kind) + HintsDue(s) + Timeouts(run) + CaseHints(run)
    decreases |run|
  {
    hide Inv, Step, Enabled, SentCount, HintsDue, Has;
    if run != [] {
      assert run[0] != Hint(RESET);
      StepRepeats(s, caps, run[0], kind);
      StepKeepsInv(s, caps, run[0]);
      EachTimeoutSendsTheHints(Step(s, caps, run[0]), caps, run[1..], kind);
    }
  }

  /** And the thread stays to be woken: without a reset and a spurious wakeup a
      thread that is not on its way out never leaves. */
  lemma {:induction false} ThreadStays(s: Cam, caps: Caps, run: seq<Action>)
    requires Inv(s) && LegalRun(s, caps, run) && NoReset(run) && Going(s.main)
    requires s.handle && !Dying(s.thread) && forall i :: 0 <= i < |run| ==> run[i] != Wake(Spurious)
    ensures After(s, caps, run).handle && !Dying(After(s, caps, run).thread)
    decreases |run|
  {
    if run != [] {
      assert run[0] != Hint(RESET) && run[0] != Wake(Spurious);
      StepKeepsInv(s, caps, run[0]);
      ThreadStays(Step(s, caps, run[0]), caps, run[1..]);
    }
  }

  // ----- what a hint does at once -----

  /** A use-case hint sets its use case, sends its throughput hints and takes over its
      frame rate. */
  lemma CaseHintApplies(s: Cam, caps: Caps, h: CameraHint, r: int)
    requires Enabled(s, Hint(h)) && CaseOf(h) != -1
    ensures
      var s1, u := Step(s, caps, Hint(h)), CaseOf(h);
      Enabled(s1, MainStep(r)) &&
      var t := Step(s1, caps, MainStep(r));
      && t.f.usecase == u && t.f.log == s.f.log + ThroughputCalls(caps[u])
      && t.f.targetFps == (if caps[u].fpsHint != 0 then caps[u].fpsHint else s.f.targetFps)
      && t.f.fdGpu == s.f.fdGpu && t.f.live == s.f.live && t.main == Launch(u)
  {
    hide PhsHints, ThroughputCalls;
    HintsAreSent(s.f.(usecase := CaseOf(h)), caps[CaseOf(h)]);
  }

  /** A frame-rate hint asks for 30 frames a second, of the target held or a new one. */
  lemma FpsHintApplies(s: Cam, caps: Caps, r: int)
    requires Inv(s) && Enabled(s, Hint(FPS)) && Answers(s.f, r)
    ensures
      var s1 := Step(s, caps, Hint(FPS));
      Enabled(s1, MainStep(r)) &&
      var t := Step(s1, caps, MainStep(r));
      && t.f.targetFps == 30 && t.main == Launch(-1) && t.f.usecase == s.f.usecase
      && t.f.log == s.f.log + [if s.f.fdGpu == -1 then SetFpsTarget(30) else ModifyFpsTarget(s.f.fdGpu, 30)]
      && (r != -1 ==> t.f.fdGpu in t.f.live && t.f.live[t.f.fdGpu] == 30)
  {
  }

  /** Something is to be repeated: a frame rate is wanted, or the hint's use case has
      a hint. */
  predicate Wanted(s: Cam, caps: Caps, u: int) {
    s.f.targetFps != 0 || (0 <= u < 4 &&
      (caps[u].fpsHint != 0 || Has(caps, u, MinCpu) || Has(caps, u, MaxCpu) || Has(caps, u, MinGpu)
       || Has(caps, u, MaxGpu)))
  }

  /** The rest of a hint, until the caller is done: if something is to be repeated there
      is a thread afterwards unless it cannot be created, and otherwise there is one
      only if there was. */
  lemma LaunchIsRight(s: Cam, caps: Caps, u: int, run: seq<Action>)
    requires Inv(s) && s.main == Launch(u) && LegalRun(s, caps, run)
    requires (forall i :: 0 <= i < |run| ==> run[i].MainStep?) && After(s, caps, run).main.Idle?
    ensures
      var t := After(s, caps, run);
      && |run| == (if Wanted(s, caps, u) then 3 else 1) && t.f == s.f
      && (t.handle <==> s.handle || (Wanted(s, caps, u) && run[2].r == 0))
      && (t.handle && !s.handle ==> t.thread.Top?)
  {
    MainFirst(s, caps, run);
    var s1 := MainNext(s, caps, run[0].r);
    if Wanted(s, caps, u) {
      MainFirst(s1, caps, run[1..]);
      var s2 := MainNext(s1, caps, run[1].r);
      MainFirst(s2, caps, run[1..][1..]);
      assert run[1..][1..][0] == run[2];
      IdleStops(MainNext(s2, caps, run[2].r), caps, run[1..][1..][1..]);
    } else {
      IdleStops(s1, caps, run[1..]);
    }
  }

  lemma IdleStops(s: Cam, caps: Caps, run: seq<Action>)
    requires LegalRun(s, caps, run) && s.main.Idle? && forall i :: 0 <= i < |run| ==> run[i].MainStep?
    ensures run == []
  {
    if run != [] {
      MainFirst(s, caps, run);
    }
  }

  lemma MainFirst(s: Cam, caps: Caps, run: seq<Action>)
    requires LegalRun(s, caps, run) && run != [] && forall i :: 0 <= i < |run| ==> run[i].MainStep?
    ensures run[0].MainStep? && Enabled(s, run[0]) && forall i :: 0 <= i < |run[1..]| ==> run[1..][i].MainStep?
    ensures LegalRun(MainNext(s, caps, run[0].r), caps, run[1..])
    ensures After(s, caps, run) == After(MainNext(s, caps, run[0].r), caps, run[1..])
  {
  }
}

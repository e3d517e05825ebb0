/** What each kind of hint does, hint by hint: from the moment it is accepted the
    files it asks for are open, with its nodes and values, until its time is over. */
module HintEffects {
  import opened Common
  import opened Descriptors
  import opened TimeoutPoker
  import opened TimeoutPokerRuns
  import opened Hints
  import opened PowerHint
  import opened HintEngine

  lemma {:induction false} RunKeepsReady(e: Engine, cfg: Config, run: seq<Event>)
    requires Ready(e.poker) && LegalEvents(e, cfg, run) && ESound(e, cfg, run)
    ensures Ready(Final(e, cfg, run).poker)
    decreases |run|
  {
    if run != [] {
      EventKeepsReady(e, cfg, run[0]);
      RunKeepsReady(EStep(e, cfg, run[0]), cfg, run[1..]);
    }
  }

  lemma {:induction false} RunKeepsTracked(
    e: Engine, cfg: Config, run: seq<Event>, r: QueuedEvent, n: nat, at: nat)
    requires Ready(e.poker) && LegalEvents(e, cfg, run) && AlwaysGrants(e, cfg, run) && ESound(e, cfg, run)
    requires r.PmQosOpenTimedEvent? && Tracked(e.poker, r, n, at)
    ensures Ready(Final(e, cfg, run).poker) && Tracked(Final(e, cfg, run).poker, r, n, at)
    decreases |run|
  {
    hide Tracked, Ready, EStep, Hits, Grants;
    if run != [] {
      EventKeepsTracked(e, cfg, run[0], r, n, at);
      EventKeepsReady(e, cfg, run[0]);
      RunKeepsTracked(EStep(e, cfg, run[0]), cfg, run[1..], r, n, at);
    }
  }

  // ----- one hint -----

  /** Post n has its file, node with value val, just from time `at` until `ns`
      nanoseconds later (in the two instants themselves it may have it or not). */
  ghost predicate Serves(s: Poker, n: nat, node: string, val: int, at: nat, ns: nat) {
    && (at < s.now < at + ns ==> RequestOpen(s, n))
    && (RequestOpen(s, n) ==>
          var file := s.fds[s.granted[n]];
          file.node == node && file.val == val && file.owner.openedAt == at && s.now <= at + ns)
  }

  lemma TrackedServes(s: Poker, r: QueuedEvent, n: nat, at: nat)
    requires Ready(s) && r.PmQosOpenTimedEvent? && Tracked(s, r, n, at)
    ensures Serves(s, n, r.node, r.val, at, r.timeout)
  {
    if RequestOpen(s, n) {
      FileOfSite(s, r, n, at);
    }
  }

  /** A hint that is accepted after any sound run from start-up, and any sound run
      after it in which requests are granted. */
  datatype Hearing = Hearing(
    start: Engine, cfg: Config, before: seq<Event>, h: Hint, cam: CameraHint, after: seq<Event>)
  {
    ghost predicate Begins() {
      && EInitial(start) && LegalEvents(start, cfg, before) && ESound(start, cfg, before)
      && Spacious(Then().poker) && Passes(Then().hintTime, cfg.interval, h, Micros(At()))
    }

    ghost predicate Valid() {
      && Begins() && LegalEvents(Heard(), cfg, after) && AlwaysGrants(Heard(), cfg, after)
      && ESound(Heard(), cfg, after)
    }

    /** Just before the hint, and when. */
    ghost function Then(): Engine
      requires LegalEvents(start, cfg, before)
    {
      Final(start, cfg, before)
    }

    ghost function At(): nat
      requires LegalEvents(start, cfg, before)
    {
      Then().poker.now
    }

    /** Just after it. */
    ghost function Heard(): Engine
      requires LegalEvents(start, cfg, before)
    {
      EStep(Then(), cfg, Arrive(h, cam))
    }

    ghost function Now(): Poker
      requires Valid()
    {
      Final(Heard(), cfg, after).poker
    }

    /** The hint makes so many requests. */
    ghost predicate Makes(count: nat)
      requires LegalEvents(start, cfg, before)
    {
      |Heard().poker.history| == |Then().poker.history| + count
    }

    /** Its i-th request has its file until its time is over. */
    ghost predicate Opens(i: nat, node: string, val: int, ns: nat)
      requires Valid()
    {
      Serves(Now(), |Then().poker.history| + i, node, val, At(), ns)
    }
  }

  lemma HearingIsReady(x: Hearing)
    requires x.Begins()
    ensures Ready(x.Then().poker) && Ready(x.Heard().poker)
  {
    hide Inv, Good, EStep, Passes;
    InitialIsGood(x.start.poker);
    RunKeepsReady(x.start, x.cfg, x.before);
    EventKeepsReady(x.Then(), x.cfg, Arrive(x.h, x.cam));
  }

  lemma HearingPosts(x: Hearing)
    requires x.Begins()
    ensures x.Makes(|AllRequests(x.cfg, x.h, x.cam)|)
    ensures AllRequests(x.cfg, x.h, x.cam) == [] ==> x.Heard().poker == x.Then().poker
  {
    hide Final, LegalEvents, ESound, EInitial, Requests, AllRequests;
    HearingIsReady(x);
    MessagesWerePosted(x.Then().poker);
    PostAllAppends(x.Then().poker, AllRequests(x.cfg, x.h, x.cam));
  }

  /** The i-th request on the hint's list is served. */
  lemma RequestIsServed(x: Hearing, i: nat, node: string, val: int, ns: nat)
    requires x.Valid() && i < |AllRequests(x.cfg, x.h, x.cam)|
    requires AllRequests(x.cfg, x.h, x.cam)[i] == PmQosOpenTimedEvent(node, val, ns)
    ensures x.Opens(i, node, val, ns)
  {
    hide Final, LegalEvents, ESound, EInitial, Requests, AllRequests, Ready, Serves, SiteInv, PostAll, ELegal, Passes;
    HearingIsReady(x);
    var s, evs := x.Then().poker, AllRequests(x.cfg, x.h, x.cam);
    FirstTracked(s, evs, i);
    RunKeepsTracked(x.Heard(), x.cfg, x.after, evs[i], |s.history| + i, s.now);
    TrackedServes(x.Now(), evs[i], |s.history| + i, s.now);
  }

  lemma FirstTracked(s: Poker, evs: seq<QueuedEvent>, i: nat)
    requires Ready(s) && i < |evs| && evs[i].PmQosOpenTimedEvent?
    ensures Tracked(PostAll(s, evs), evs[i], |s.history| + i, s.now)
  {
    BatchMakesSite(s, evs, i);
  }

  /** What each kind of hint does, by node, value and nanoseconds: these requests and
      no others, each with its file for its time. A Miracast hint falls through into
      the camera case, whose two requests name their nodes without a leading slash;
      other hints ask for nothing for a time. */
  lemma WhatHintsOpen(x: Hearing)
    requires x.Valid()
    ensures
      match x.h
      case INTERACTION =>
        && x.Makes(5)
        && x.Opens(0, "/dev/cpu_freq_min", x.cfg.interactionBoost, 100_000_000)
        && x.Opens(1, "/dev/min_online_cpus", 2, 2_000_000_000)
        && x.Opens(2, "/dev/cpu_freq_min", x.cfg.animationBoost, 2_000_000_000)
        && x.Opens(3, "/dev/gpu_freq_min", 180_000, 2_000_000_000)
        && x.Opens(4, "/dev/emc_freq_min", 396_000, 2_000_000_000)
      case MULTITHREAD_BOOST =>
        && x.Makes(1)
        && x.Opens(0, "/dev/min_online_cpus", 4, 2_000_000_000)
      case APP_LAUNCH =>
        && x.Makes(4)
        && x.Opens(0, "/dev/cpu_freq_min", 0x7fff_ffff, 1_500_000_000)
        && x.Opens(1, "/dev/min_online_cpus", 2, 1_500_000_000)
        && x.Opens(2, "/dev/gpu_freq_min", 180_000, 1_500_000_000)
        && x.Opens(3, "/dev/emc_freq_min", 792_000, 1_500_000_000)
      case SHIELD_STREAMING =>
        && x.Makes(1)
        && x.Opens(0, "/dev/cpu_freq_min", 816_000, 1_000_000_000)
      case HIGH_RES_VIDEO =>
        && x.Makes(1)
        && x.Opens(0, "/dev/cpu_freq_min", x.cfg.lpMax, 1_000_000_000)
      case DISPLAY_ROTATION =>
        && x.Makes(1)
        && x.Opens(0, "/dev/cpu_freq_min", 1_200_000, 3_000_000_000)
      case MIRACAST =>
        && x.Makes(if x.cam.PERF? then 3 else 1)
        && x.Opens(0, "/dev/cpu_freq_min", 816_000, 1_000_000_000)
        && (x.cam.PERF? ==>
              && x.Opens(1, "dev/cpu_freq_min", x.cfg.maxFreq, 1_000_000_000)
              && x.Opens(2, "dev/min_online_cpus", 2, 1_000_000_000))
      case CAMERA =>
        && x.Makes(if x.cam.PERF? then 2 else 0)
        && (x.cam.PERF? ==>
              && x.Opens(0, "dev/cpu_freq_min", x.cfg.maxFreq, 1_000_000_000)
              && x.Opens(1, "dev/min_online_cpus", 2, 1_000_000_000))
      case _ => x.Makes(0)
  {
    hide Final, LegalEvents, ESound, EInitial, Serves, PostAll, EStep;
    HearingPosts(x);
    match x.h {
      case INTERACTION =>
        RequestIsServed(x, 0, "/dev/cpu_freq_min", x.cfg.interactionBoost, 100_000_000);
        RequestIsServed(x, 1, "/dev/min_online_cpus", 2, 2_000_000_000);
        RequestIsServed(x, 2, "/dev/cpu_freq_min", x.cfg.animationBoost, 2_000_000_000);
        RequestIsServed(x, 3, "/dev/gpu_freq_min", 180_000, 2_000_000_000);
        RequestIsServed(x, 4, "/dev/emc_freq_min", 396_000, 2_000_000_000);
      case MULTITHREAD_BOOST =>
        RequestIsServed(x, 0, "/dev/min_online_cpus", 4, 2_000_000_000);
      case APP_LAUNCH =>
        RequestIsServed(x, 0, "/dev/cpu_freq_min", 0x7fff_ffff, 1_500_000_000);
        RequestIsServed(x, 1, "/dev/min_online_cpus", 2, 1_500_000_000);
        RequestIsServed(x, 2, "/dev/gpu_freq_min", 180_000, 1_500_000_000);
        RequestIsServed(x, 3, "/dev/emc_freq_min", 792_000, 1_500_000_000);
      case SHIELD_STREAMING =>
        RequestIsServed(x, 0, "/dev/cpu_freq_min", 816_000, 1_000_000_000);
      case HIGH_RES_VIDEO =>
        RequestIsServed(x, 0, "/dev/cpu_freq_min", x.cfg.lpMax, 1_000_000_000);
      case DISPLAY_ROTATION =>
        RequestIsServed(x, 0, "/dev/cpu_freq_min", 1_200_000, 3_000_000_000);
      case MIRACAST =>
        RequestIsServed(x, 0, "/dev/cpu_freq_min", 816_000, 1_000_000_000);
        if x.cam.PERF? {
          RequestIsServed(x, 1, "dev/cpu_freq_min", x.cfg.maxFreq, 1_000_000_000);
          RequestIsServed(x, 2, "dev/min_online_cpus", 2, 1_000_000_000);
        }
      case CAMERA =>
        if x.cam.PERF? {
          RequestIsServed(x, 0, "dev/cpu_freq_min", x.cfg.maxFreq, 1_000_000_000);
          RequestIsServed(x, 1, "dev/min_online_cpus", 2, 1_000_000_000);
        }
      case _ =>
    }
  }

  /** A hint that opens nothing changes nothing of the poker at all. */
  lemma OthersPostNothing(x: Hearing)
    requires x.Begins()
    requires x.h.VSYNC? || x.h.APP_PROFILE? || x.h.UNHANDLED? || (x.h.CAMERA? && !x.cam.PERF?)
    ensures x.Heard().poker == x.Then().poker
  {
    HearingPosts(x);
  }
}

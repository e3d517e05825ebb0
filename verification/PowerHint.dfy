/** Power hints: the rate limiter and the timed requests each hint makes. */
module PowerHint {
  import opened Common
  import opened Hints
  import opened TimeoutPoker

  /** Frequencies read from the platform, and the hint intervals in microseconds
      (a hint without an entry has interval 0 and is not limited). */
  datatype Config = Config(
    interactionBoost: int, animationBoost: int, lpMax: int, maxFreq: int, interval: map<Hint, nat>)

  const INTERVALS: map<Hint, nat> := map[
    INTERACTION := 90000, APP_PROFILE := 200000, APP_LAUNCH := 1500000, SHIELD_STREAMING := 500000,
    HIGH_RES_VIDEO := 500000, MIRACAST := 500000, DISPLAY_ROTATION := 500000]

  const UINT64: int := 0x1_0000_0000_0000_0000

  function Seconds(s: nat): nat { s * 1_000_000_000 }
  function Millis(ms: nat): nat { ms * 1_000_000 }
  function Micros(ns: nat): nat { ns / 1000 }

  function Get(m: map<Hint, nat>, h: Hint): nat {
    if h in m then m[h] else 0
  }

  /** The requests every accepted hint of a kind makes, in the order made. */
  function Requests(cfg: Config, h: Hint): seq<QueuedEvent> {
    match h
    case INTERACTION => [
      PmQosOpenTimedEvent("/dev/cpu_freq_min", cfg.interactionBoost, Millis(100)),
      PmQosOpenTimedEvent("/dev/min_online_cpus", 2, Seconds(2)),
      PmQosOpenTimedEvent("/dev/cpu_freq_min", cfg.animationBoost, Seconds(2)),
      PmQosOpenTimedEvent("/dev/gpu_freq_min", 180000, Seconds(2)),
      PmQosOpenTimedEvent("/dev/emc_freq_min", 396000, Seconds(2))]
    case MULTITHREAD_BOOST => [PmQosOpenTimedEvent("/dev/min_online_cpus", 4, Seconds(2))]
    case APP_LAUNCH => [
      PmQosOpenTimedEvent("/dev/cpu_freq_min", INT_MAX, Millis(1500)),
      PmQosOpenTimedEvent("/dev/min_online_cpus", 2, Millis(1500)),
      PmQosOpenTimedEvent("/dev/gpu_freq_min", 180000, Millis(1500)),
      PmQosOpenTimedEvent("/dev/emc_freq_min", 792000, Millis(1500))]
    case SHIELD_STREAMING => [PmQosOpenTimedEvent("/dev/cpu_freq_min", 816000, Seconds(1))]
    case HIGH_RES_VIDEO => [PmQosOpenTimedEvent("/dev/cpu_freq_min", cfg.lpMax, Seconds(1))]
    case MIRACAST => [PmQosOpenTimedEvent("/dev/cpu_freq_min", 816000, Seconds(1))]
    case DISPLAY_ROTATION => [PmQosOpenTimedEvent("/dev/cpu_freq_min", 1200000, Seconds(3))]
    case _ => []
  }

  /** The camera boost names its nodes without a leading slash. */
  function PerfRequests(cfg: Config): seq<QueuedEvent> {
    [PmQosOpenTimedEvent("dev/cpu_freq_min", cfg.maxFreq, Seconds(1)),
     PmQosOpenTimedEvent("dev/min_online_cpus", 2, Seconds(1))]
  }

  /** A Miracast hint falls through into the camera case. */
  function AllRequests(cfg: Config, h: Hint, cam: CameraHint): seq<QueuedEvent> {
    Requests(cfg, h) + if (h.CAMERA? || h.MIRACAST?) && cam.PERF? then PerfRequests(cfg) else []
  }

  /** Unsigned 64-bit difference of two clock readings. */
  function Elapsed(time: nat, last: nat): int {
    if time >= last then time - last else time - last + UINT64
  }

  /** A hint passes unless one of its kind passed less than an interval ago. */
  predicate Passes(hintTime: map<Hint, nat>, interval: map<Hint, nat>, h: Hint, time: nat) {
    && !h.OUT_OF_RANGE?
    && !(Get(hintTime, h) != 0 && Get(interval, h) != 0 && Elapsed(time, Get(hintTime, h)) < Get(interval, h))
  }

  function PostAll(s: Poker, evs: seq<QueuedEvent>): Poker
    decreases |evs|
  {
    if evs == [] then s else PostAll(Send(s, 0, evs[0]), evs[1..])
  }

  /** One more request, behind those already made. */
  lemma {:induction false} PostLast(s: Poker, evs: seq<QueuedEvent>, ev: QueuedEvent)
    ensures PostAll(s, evs + [ev]) == Send(PostAll(s, evs), 0, ev)
    decreases |evs|
  {
    if evs == [] {
      assert [] + [ev] == [ev] && [ev][1..] == [];
    } else {
      PostLast(Send(s, 0, evs[0]), evs[1..], ev);
      assert (evs + [ev])[1..] == evs[1..] + [ev];
    }
  }

  /** What the poker's own clock makes of the shipped intervals: from its last
      accepted hint on, each kind has to wait this long. */
  lemma ShippedIntervals(hintTime: map<Hint, nat>, h: Hint, time: nat)
    requires !h.OUT_OF_RANGE? && 0 < Get(hintTime, h) <= time
    ensures
      Passes(hintTime, INTERVALS, h, time) <==>
        time - Get(hintTime, h) >=
          match h
          case INTERACTION => 90_000
          case APP_PROFILE => 200_000
          case APP_LAUNCH => 1_500_000
          case SHIELD_STREAMING => 500_000
          case HIGH_RES_VIDEO => 500_000
          case MIRACAST => 500_000
          case DISPLAY_ROTATION => 500_000
          case _ => 0
  {
  }

  /** The limiter in the code's own form. */
  class PowerHal {
    const cfg: Config
    const mTimeoutPoker: PokeHandler
    var hintTime: map<Hint, nat>

    constructor (cfg: Config, poker: PokeHandler)
      ensures this.cfg == cfg && mTimeoutPoker == poker && hintTime == map[]
    {
      this.cfg, mTimeoutPoker, hintTime := cfg, poker, map[];
    }

    method CheckHint(h: Hint) returns (t: Option<nat>)
      ensures t.Some? <==> Passes(hintTime, cfg.interval, h, Micros(mTimeoutPoker.now))
      ensures t.Some? ==> t.value == Micros(mTimeoutPoker.now)
    {
      if h == OUT_OF_RANGE {
        return None;
      }
      var time := Micros(mTimeoutPoker.now);
      if Get(hintTime, h) != 0 && Get(cfg.interval, h) != 0 && Elapsed(time, Get(hintTime, h)) < Get(cfg.interval, h) {
        return None;
      }
      return Some(time);
    }

    /** `done` are the requests made since state `start`. */
    method RequestPmQosTimed(node: string, val: int, timeout: nat, ghost start: Poker, ghost done: seq<QueuedEvent>)
      returns (ghost made: seq<QueuedEvent>)
      requires mTimeoutPoker.Valid() && mTimeoutPoker.State() == PostAll(start, done)
      modifies mTimeoutPoker
      ensures made == done + [PmQosOpenTimedEvent(node, val, timeout)]
      ensures mTimeoutPoker.Valid() && mTimeoutPoker.State() == PostAll(start, made)
    {
      var ev := PmQosOpenTimedEvent(node, val, timeout);
      mTimeoutPoker.SendEventDelayed(0, ev);
      PostLast(start, done, ev);
      made := done + [ev];
    }

    /** The timed-request part of a camera hint. */
    method SetCameraHint(cam: CameraHint, ghost start: Poker, ghost done: seq<QueuedEvent>)
      returns (ghost made: seq<QueuedEvent>)
      requires mTimeoutPoker.Valid() && mTimeoutPoker.State() == PostAll(start, done)
      modifies mTimeoutPoker
      ensures made == done + if cam.PERF? then PerfRequests(cfg) else []
      ensures mTimeoutPoker.Valid() && mTimeoutPoker.State() == PostAll(start, made)
    {
      hide PostAll, Send;
      made := done;
      if cam == PERF {
        made := RequestPmQosTimed("dev/cpu_freq_min", cfg.maxFreq, Seconds(1), start, made);
        made := RequestPmQosTimed("dev/min_online_cpus", 2, Seconds(1), start, made);
      }
    }

    method BoostInteraction(ghost start: Poker) returns (ghost made: seq<QueuedEvent>)
      requires mTimeoutPoker.Valid() && mTimeoutPoker.State() == start
      modifies mTimeoutPoker
      ensures made == Requests(cfg, INTERACTION)
      ensures mTimeoutPoker.Valid() && mTimeoutPoker.State() == PostAll(start, made)
    {
      made := [];
      assert PostAll(start, made) == start;
      hide PostAll, Send;
      made := RequestPmQosTimed("/dev/cpu_freq_min", cfg.interactionBoost, Millis(100), start, made);
      made := RequestPmQosTimed("/dev/min_online_cpus", 2, Seconds(2), start, made);
      made := RequestPmQosTimed("/dev/cpu_freq_min", cfg.animationBoost, Seconds(2), start, made);
      made := RequestPmQosTimed("/dev/gpu_freq_min", 180000, Seconds(2), start, made);
      made := RequestPmQosTimed("/dev/emc_freq_min", 396000, Seconds(2), start, made);
    }

    method BoostAppLaunch(ghost start: Poker) returns (ghost made: seq<QueuedEvent>)
      requires mTimeoutPoker.Valid() && mTimeoutPoker.State() == start
      modifies mTimeoutPoker
      ensures made == Requests(cfg, APP_LAUNCH)
      ensures mTimeoutPoker.Valid() && mTimeoutPoker.State() == PostAll(start, made)
    {
      made := [];
      assert PostAll(start, made) == start;
      hide PostAll, Send;
      made := RequestPmQosTimed("/dev/cpu_freq_min", INT_MAX, Millis(1500), start, made);
      made := RequestPmQosTimed("/dev/min_online_cpus", 2, Millis(1500), start, made);
      made := RequestPmQosTimed("/dev/gpu_freq_min", 180000, Millis(1500), start, made);
      made := RequestPmQosTimed("/dev/emc_freq_min", 792000, Millis(1500), start, made);
    }

    /** What a hint that has passed the limiter asks for. */
    method Boost(h: Hint, cam: CameraHint, ghost start: Poker) returns (ghost made: seq<QueuedEvent>)
      requires mTimeoutPoker.Valid() && mTimeoutPoker.State() == start
      modifies mTimeoutPoker
      ensures made == AllRequests(cfg, h, cam)
      ensures mTimeoutPoker.Valid() && mTimeoutPoker.State() == PostAll(start, made)
    {
      made := [];
      assert PostAll(start, made) == start;
      hide PostAll, Send;
      match h {
        case INTERACTION =>
          made := BoostInteraction(start);
        case MULTITHREAD_BOOST =>
          made := RequestPmQosTimed("/dev/min_online_cpus", 4, Seconds(2), start, made);
        case APP_LAUNCH =>
          made := BoostAppLaunch(start);
        case SHIELD_STREAMING =>
          made := RequestPmQosTimed("/dev/cpu_freq_min", 816000, Seconds(1), start, made);
        case HIGH_RES_VIDEO =>
          made := RequestPmQosTimed("/dev/cpu_freq_min", cfg.lpMax, Seconds(1), start, made);
        case MIRACAST =>
          made := RequestPmQosTimed("/dev/cpu_freq_min", 816000, Seconds(1), start, made);
          made := SetCameraHint(cam, start, made);
        case CAMERA =>
          made := SetCameraHint(cam, start, made);
        case DISPLAY_ROTATION =>
          made := RequestPmQosTimed("/dev/cpu_freq_min", 1200000, Seconds(3), start, made);
        case _ =>
      }
    }

    /** The timed-request part of a power hint. */
    method CommonPowerHint(h: Hint, cam: CameraHint)
      requires mTimeoutPoker.Valid()
      modifies this`hintTime, mTimeoutPoker
      ensures mTimeoutPoker.Valid()
      ensures
        var time := Micros(old(mTimeoutPoker.now));
        if Passes(old(hintTime), cfg.interval, h, time) then
          && hintTime == old(hintTime)[h := time]
          && mTimeoutPoker.State() == PostAll(old(mTimeoutPoker.State()), AllRequests(cfg, h, cam))
        else
          hintTime == old(hintTime) && mTimeoutPoker.State() == old(mTimeoutPoker.State())
    {
      var t := CheckHint(h);
      if t.None? {
        return;
      }
      ghost var made := Boost(h, cam, mTimeoutPoker.State());
      hintTime := hintTime[h := t.value];
    }
  }
}

/** The sensor HAL's poll timeout: a cached minimum over the delays requested for
    the sensors whose drivers have no descriptor to poll. */
module SensorPollTime {

  const UINT_MAX: nat := 0xffff_ffff
  const EINVAL: int := 22
  const SENSORS: nat := 10
  const DRIVERS: nat := 5

  datatype Handle = RV | LA | GR | GY | A | O | M | L | P | AP | UNKNOWN

  /** light, proximity, pressure, mpl; the compass has no handle of its own. */
  function HandleToDriver(h: Handle): int {
    match h
    case L => 0
    case P => 1
    case AP => 2
    case UNKNOWN => -EINVAL
    case _ => 3
  }

  function HandleToSensor(h: Handle): int {
    match h
    case RV => 0
    case LA => 1
    case GR => 2
    case GY => 3
    case A => 4
    case O => 5
    case M => 6
    case L => 7
    case AP => 8
    case P => 9
    case UNKNOWN => -EINVAL
  }

  /** ns / 1000000 truncates toward zero and is then stored in an unsigned int. */
  function ToMs(ns: int): (ms: nat)
    ensures ms <= UINT_MAX
  {
    (if ns >= 0 then ns / 1_000_000 else -((-ns) / 1_000_000)) % 0x1_0000_0000
  }

  /** Per driver: its descriptor, -1 for none, and whether it exists. */
  datatype Config = Config(fd: seq<int>, present: seq<bool>)
  {
    predicate Valid() { |fd| == DRIVERS && |present| == DRIVERS }
  }

  /** Whether calls for this handle reach the poll-time tables. */
  predicate Polled(cfg: Config, h: Handle)
    requires cfg.Valid()
  {
    HandleToDriver(h) >= 0 && cfg.present[HandleToDriver(h)] && cfg.fd[HandleToDriver(h)] == -1
  }

  /** err is what the driver's enable answers; 0 is success. */
  datatype Call = Activate(h: Handle, on: bool, err: int) | SetDelay(h: Handle, ns: int)

  datatype Tables = Tables(enabled: seq<bool>, requested: seq<nat>, polltime: nat)

  const START: Tables := Tables(
    [false, false, false, false, false, false, false, false, false, false],
    [UINT_MAX, UINT_MAX, UINT_MAX, UINT_MAX, UINT_MAX, UINT_MAX, UINT_MAX, UINT_MAX, UINT_MAX, UINT_MAX],
    UINT_MAX)

  function Min(s: seq<nat>): (m: nat)
    ensures m <= UINT_MAX && (forall i :: 0 <= i < |s| ==> m <= s[i])
    ensures m == UINT_MAX || m in s
    decreases |s|
  {
    if s == [] then UINT_MAX
    else
      var m := Min(s[..|s| - 1]);
      if s[|s| - 1] < m then s[|s| - 1] else m
  }

  function Apply(cfg: Config, t: Tables, c: Call): Tables
    requires cfg.Valid() && |t.enabled| == |t.requested| == SENSORS
  {
    if !Polled(cfg, c.h) then t
    else
      var i := HandleToSensor(c.h);
      match c
      case Activate(_, on, err) =>
        if err != 0 then t
        else
          var requested := if on then t.requested else t.requested[i := UINT_MAX];
          Tables(t.enabled[i := on], requested, Min(requested))
      case SetDelay(_, ns) =>
        var requested :=
          if t.enabled[i] && t.requested[i] > ToMs(ns) then t.requested[i := ToMs(ns)] else t.requested;
        Tables(t.enabled, requested, Min(requested))
  }

  function After(cfg: Config, calls: seq<Call>): (t: Tables)
    requires cfg.Valid()
    ensures |t.enabled| == |t.requested| == SENSORS
  {
    if calls == [] then START else Apply(cfg, After(cfg, calls[..|calls| - 1]), calls[|calls| - 1])
  }

  // ----- the same by history alone -----

  /** Call c switches sensor i on or off. */
  predicate Switches(cfg: Config, c: Call, i: int, on: bool)
    requires cfg.Valid()
  {
    c.Activate? && Polled(cfg, c.h) && HandleToSensor(c.h) == i && c.err == 0 && c.on == on
  }

  /** Sensor i is on after the calls: some call switched it on and none off since. */
  ghost predicate On(cfg: Config, calls: seq<Call>, i: int)
    requires cfg.Valid()
  {
    exists k :: 0 <= k < |calls| && Switches(cfg, calls[k], i, true) && NotOffSince(cfg, calls, k, i)
  }

  ghost predicate NotOffSince(cfg: Config, calls: seq<Call>, k: int, i: int)
    requires cfg.Valid() && 0 <= k
  {
    forall j :: k < j < |calls| ==> !Switches(cfg, calls[j], i, false)
  }

  /** Call k asked for a delay for sensor i while it was on, and it has not been
      switched off since. */
  ghost predicate Asked(cfg: Config, calls: seq<Call>, k: int, i: int)
    requires cfg.Valid()
  {
    && 0 <= k < |calls| && calls[k].SetDelay? && Polled(cfg, calls[k].h) && HandleToSensor(calls[k].h) == i
    && On(cfg, calls[..k], i) && NotOffSince(cfg, calls, k, i)
  }

  ghost predicate SensorInv(cfg: Config, calls: seq<Call>, enabled: bool, requested: nat, i: int)
    requires cfg.Valid()
  {
    && (enabled <==> On(cfg, calls, i))
    && (forall k :: Asked(cfg, calls, k, i) ==> requested <= ToMs(calls[k].ns))
    && (requested == UINT_MAX || AskedFor(cfg, calls, requested, i))
  }

  ghost predicate AskedFor(cfg: Config, calls: seq<Call>, ms: nat, i: int)
    requires cfg.Valid()
  {
    exists k :: Asked(cfg, calls, k, i) && ToMs(calls[k].ns) == ms
  }

  ghost predicate Follows(cfg: Config, calls: seq<Call>, i: int)
    requires cfg.Valid() && 0 <= i < SENSORS
  {
    SensorInv(cfg, calls, After(cfg, calls).enabled[i], After(cfg, calls).requested[i], i)
  }

  lemma OnStep(cfg: Config, calls: seq<Call>, c: Call, i: int)
    requires cfg.Valid()
    ensures On(cfg, calls + [c], i) <==> Switches(cfg, c, i, true) || (On(cfg, calls, i) && !Switches(cfg, c, i, false))
  {
    var all := calls + [c];
    if Switches(cfg, c, i, true) {
      assert Switches(cfg, all[|calls|], i, true) && NotOffSince(cfg, all, |calls|, i);
    } else {
      if On(cfg, calls, i) && !Switches(cfg, c, i, false) {
        var k :| 0 <= k < |calls| && Switches(cfg, calls[k], i, true) && NotOffSince(cfg, calls, k, i);
        assert Switches(cfg, all[k], i, true) && NotOffSince(cfg, all, k, i);
      }
      if On(cfg, all, i) {
        var k :| 0 <= k < |all| && Switches(cfg, all[k], i, true) && NotOffSince(cfg, all, k, i);
        assert k < |calls| && !Switches(cfg, all[|calls|], i, false);
        assert forall j :: k < j < |calls| ==> all[j] == calls[j];
        assert Switches(cfg, calls[k], i, true) && NotOffSince(cfg, calls, k, i);
      }
    }
  }

  lemma AskedStep(cfg: Config, calls: seq<Call>, c: Call, k: int, i: int)
    requires cfg.Valid() && 0 <= k < |calls|
    ensures Asked(cfg, calls + [c], k, i) <==> Asked(cfg, calls, k, i) && !Switches(cfg, c, i, false)
  {
    var all := calls + [c];
    assert all[..k] == calls[..k] && all[k] == calls[k];
    assert forall j :: k < j < |calls| ==> all[j] == calls[j];
    if Asked(cfg, all, k, i) {
      assert !Switches(cfg, all[|calls|], i, false);
    }
  }

  /** Call c asks for a delay for sensor i. */
  predicate Asks(cfg: Config, c: Call, i: int)
    requires cfg.Valid()
  {
    c.SetDelay? && Polled(cfg, c.h) && HandleToSensor(c.h) == i
  }

  /** What one call does to the two table entries of sensor i. */
  lemma ApplyAt(cfg: Config, t: Tables, c: Call, i: int)
    requires cfg.Valid() && |t.enabled| == |t.requested| == SENSORS && 0 <= i < SENSORS
    ensures
      Apply(cfg, t, c).enabled[i] == (Switches(cfg, c, i, true) || (t.enabled[i] && !Switches(cfg, c, i, false)))
    ensures
      Apply(cfg, t, c).requested[i] ==
        if Switches(cfg, c, i, false) then UINT_MAX
        else if Asks(cfg, c, i) && t.enabled[i] && t.requested[i] > ToMs(c.ns) then ToMs(c.ns)
        else t.requested[i]
  {
  }

  lemma LowerBoundStep(cfg: Config, calls: seq<Call>, c: Call, before: nat, after: nat, i: int)
    requires cfg.Valid()
    requires forall k :: Asked(cfg, calls, k, i) ==> before <= ToMs(calls[k].ns)
    requires after ==
      if Switches(cfg, c, i, false) then UINT_MAX
      else if Asks(cfg, c, i) && On(cfg, calls, i) && before > ToMs(c.ns) then ToMs(c.ns)
      else before
    ensures forall k :: Asked(cfg, calls + [c], k, i) ==> after <= ToMs((calls + [c])[k].ns)
  {
    var all := calls + [c];
    forall k | Asked(cfg, all, k, i) ensures after <= ToMs(all[k].ns) {
      if k < |calls| {
        AskedStep(cfg, calls, c, k, i);
        assert all[k] == calls[k];
      } else {
        assert all[..k] == calls && all[k] == c;
      }
    }
  }

  lemma AttainedStep(cfg: Config, calls: seq<Call>, c: Call, before: nat, after: nat, i: int)
    requires cfg.Valid()
    requires before == UINT_MAX || AskedFor(cfg, calls, before, i)
    requires after ==
      if Switches(cfg, c, i, false) then UINT_MAX
      else if Asks(cfg, c, i) && On(cfg, calls, i) && before > ToMs(c.ns) then ToMs(c.ns)
      else before
    ensures after == UINT_MAX || AskedFor(cfg, calls + [c], after, i)
  {
    var all := calls + [c];
    if after != UINT_MAX {
      if after == before {
        var k :| Asked(cfg, calls, k, i) && ToMs(calls[k].ns) == before;
        AskedStep(cfg, calls, c, k, i);
        assert Asked(cfg, all, k, i) && all[k] == calls[k];
      } else {
        var k := |calls|;
        assert all[..k] == calls && all[k] == c;
        assert Asked(cfg, all, k, i) && ToMs(all[k].ns) == after;
      }
    }
  }

  lemma SensorStep(cfg: Config, calls: seq<Call>, c: Call, i: int)
    requires cfg.Valid() && 0 <= i < SENSORS && Follows(cfg, calls, i)
    ensures Follows(cfg, calls + [c], i)
  {
    var all := calls + [c];
    assert all[..|all| - 1] == calls;
    var t, u := After(cfg, calls), After(cfg, all);
    ApplyAt(cfg, t, c, i);
    OnStep(cfg, calls, c, i);
    LowerBoundStep(cfg, calls, c, t.requested[i], u.requested[i], i);
    AttainedStep(cfg, calls, c, t.requested[i], u.requested[i], i);
  }

  lemma {:induction false} SensorsFollowHistory(cfg: Config, calls: seq<Call>, i: int)
    requires cfg.Valid() && 0 <= i < SENSORS
    ensures Follows(cfg, calls, i)
    decreases |calls|
  {
    if calls != [] {
      var init := calls[..|calls| - 1];
      SensorsFollowHistory(cfg, init, i);
      SensorStep(cfg, init, calls[|calls| - 1], i);
      assert calls == init + [calls[|calls| - 1]];
    }
  }

  lemma {:induction false} CacheIsMinimum(cfg: Config, calls: seq<Call>)
    requires cfg.Valid()
    ensures After(cfg, calls).polltime == Min(After(cfg, calls).requested)
    decreases |calls|
  {
    if calls != [] {
      CacheIsMinimum(cfg, calls[..|calls| - 1]);
    }
  }

  /** After any calls the cached timeout is the smallest delay that was asked for
      a polled sensor while it was on and that no switching off has dropped since,
      and UINT_MAX if there is none. */
  lemma PollTimeIsHistoryMinimum(cfg: Config, calls: seq<Call>)
    requires cfg.Valid()
    ensures
      var p := After(cfg, calls).polltime;
      && (forall k, i :: Asked(cfg, calls, k, i) ==> p <= ToMs(calls[k].ns))
      && (p == UINT_MAX || exists k, i :: Asked(cfg, calls, k, i) && ToMs(calls[k].ns) == p)
      && p <= UINT_MAX
  {
    CacheIsMinimum(cfg, calls);
    var t := After(cfg, calls);
    forall k, i | Asked(cfg, calls, k, i) ensures t.polltime <= ToMs(calls[k].ns) {
      SensorsFollowHistory(cfg, calls, i);
      assert t.polltime <= t.requested[i];
    }
    if t.polltime != UINT_MAX {
      var i :| 0 <= i < |t.requested| && t.requested[i] == t.polltime;
      SensorsFollowHistory(cfg, calls, i);
      var k :| Asked(cfg, calls, k, i) && ToMs(calls[k].ns) == t.requested[i];
    }
  }

  // ----- in nanoseconds, handle by handle -----

  /** A delay is cut to whole milliseconds. */
  lemma DelayInMilliseconds(ns: int)
    requires 0 <= ns < 0x1_0000_0000 * 1_000_000
    ensures ToMs(ns) * 1_000_000 <= ns < (ToMs(ns) + 1) * 1_000_000
  {
  }

  /** No two handles share an entry of the table, and unknown ones have none. */
  lemma HandlesHaveEntries(a: Handle, b: Handle)
    ensures HandleToSensor(a) == HandleToSensor(b) <==> a == b
    ensures 0 <= HandleToSensor(a) < 10 <==> a != UNKNOWN
    ensures HandleToDriver(a) == -22 <==> a == UNKNOWN
  {
  }

  /** Which driver has to be there, and to be without a descriptor, for a handle's
      delay to count. */
  lemma PolledHandles(cfg: Config, h: Handle)
    requires cfg.Valid()
    ensures
      Polled(cfg, h) <==>
        match h
        case L => cfg.present[0] && cfg.fd[0] == -1
        case P => cfg.present[1] && cfg.fd[1] == -1
        case AP => cfg.present[2] && cfg.fd[2] == -1
        case UNKNOWN => false
        case _ => cfg.present[3] && cfg.fd[3] == -1
  {
  }

  /** Call k asks a delay for a handle that an earlier call switched on and that no
      call has switched off since. */
  ghost predicate StillWanted(calls: seq<Call>, k: int) {
    && 0 <= k < |calls| && calls[k].SetDelay?
    && exists j :: 0 <= j < k && calls[j] == Activate(calls[k].h, true, 0) && NeverOff(calls, j, calls[k].h)
  }

  ghost predicate NeverOff(calls: seq<Call>, j: int, h: Handle)
    requires 0 <= j
  {
    forall m :: j < m < |calls| ==> calls[m] != Activate(h, false, 0)
  }

  lemma SwitchesByHandle(cfg: Config, c: Call, h: Handle, on: bool)
    requires cfg.Valid() && Polled(cfg, h)
    ensures Switches(cfg, c, HandleToSensor(h), on) <==> c == Activate(h, on, 0)
  {
    HandlesHaveEntries(c.h, h);
  }

  lemma WantedIsAsked(cfg: Config, calls: seq<Call>, k: int)
    requires cfg.Valid() && 0 <= k < |calls| && Polled(cfg, calls[k].h)
    ensures StillWanted(calls, k) <==> Asked(cfg, calls, k, HandleToSensor(calls[k].h))
  {
    var h := calls[k].h;
    var i := HandleToSensor(h);
    forall c, on ensures Switches(cfg, c, i, on) <==> c == Activate(h, on, 0) {
      SwitchesByHandle(cfg, c, h, on);
    }
    if StillWanted(calls, k) {
      var j :| 0 <= j < k && calls[j] == Activate(h, true, 0) && NeverOff(calls, j, h);
      assert Switches(cfg, calls[..k][j], i, true) && NotOffSince(cfg, calls[..k], j, i);
    }
    if Asked(cfg, calls, k, i) {
      var j :| 0 <= j < k && Switches(cfg, calls[..k][j], i, true) && NotOffSince(cfg, calls[..k], j, i);
      assert calls[j] == Activate(h, true, 0);
      forall m | j < m < |calls| ensures calls[m] != Activate(h, false, 0) {
        assert m < k ==> !Switches(cfg, calls[..k][m], i, false);
        assert m > k ==> !Switches(cfg, calls[m], i, false);
      }
    }
  }

  /** A delay that fits an unsigned int of milliseconds. */
  predicate Fits(ns: int) {
    0 <= ns < 0x1_0000_0000 * 1_000_000
  }

  /** The promise in the caller's terms: after any calls the poller wakes no later
      than any delay still wanted of a polled sensor asks, and, if it wakes at all,
      less than a millisecond earlier than one of them asks. */
  lemma PollTimeInNanoseconds(cfg: Config, calls: seq<Call>)
    requires cfg.Valid()
    ensures
      var p := After(cfg, calls).polltime;
      forall k :: StillWanted(calls, k) && Polled(cfg, calls[k].h) && Fits(calls[k].ns) ==>
        p * 1_000_000 <= calls[k].ns
    ensures
      var p := After(cfg, calls).polltime;
      p < 0xffff_ffff && (forall k :: StillWanted(calls, k) && Polled(cfg, calls[k].h) ==> Fits(calls[k].ns)) ==>
        exists k :: StillWanted(calls, k) && Polled(cfg, calls[k].h) && calls[k].ns < (p + 1) * 1_000_000
  {
    PollTimeIsHistoryMinimum(cfg, calls);
    var p := After(cfg, calls).polltime;
    forall k | StillWanted(calls, k) && Polled(cfg, calls[k].h) && Fits(calls[k].ns)
      ensures p * 1_000_000 <= calls[k].ns
    {
      WantedIsAsked(cfg, calls, k);
      DelayInMilliseconds(calls[k].ns);
    }
    if p < UINT_MAX && (forall k :: StillWanted(calls, k) && Polled(cfg, calls[k].h) ==> Fits(calls[k].ns)) {
      var k, i :| Asked(cfg, calls, k, i) && ToMs(calls[k].ns) == p;
      WantedIsAsked(cfg, calls, k);
      DelayInMilliseconds(calls[k].ns);
    }
  }

  lemma MinReplaced(s: seq<nat>, i: nat, v: nat)
    requires i < |s| && v <= s[i]
    ensures Min(s[i := v]) == if v < Min(s) then v else Min(s)
  {
    var r := s[i := v];
    assert r[i] == v;
    if Min(r) != UINT_MAX {
      var j :| 0 <= j < |r| && r[j] == Min(r);
      assert j != i ==> s[j] == r[j];
    }
    if Min(s) != UINT_MAX {
      var j :| 0 <= j < |s| && s[j] == Min(s);
      assert j != i ==> r[j] == s[j];
    }
  }

  /** A new delay replaces the one asked before exactly when it is not longer; a
      longer one, or one for a sensor that is off or not polled, changes nothing. The
      timeout follows only if the new delay is below it. */
  lemma LongerDelayIsIgnored(cfg: Config, calls: seq<Call>, h: Handle, ns: int)
    requires cfg.Valid()
    ensures
      var t, u := After(cfg, calls), After(cfg, calls + [SetDelay(h, ns)]);
      var i, ms := HandleToSensor(h), ToMs(ns);
      && (Polled(cfg, h) && t.enabled[i] ==> (u.requested[i] == ms <==> ms <= t.requested[i]))
      && (!Polled(cfg, h) || !t.enabled[i] || ms >= t.requested[i] ==> u == t)
      && u.polltime == if Polled(cfg, h) && t.enabled[i] && ms < t.polltime then ms else t.polltime
  {
    var c := SetDelay(h, ns);
    assert (calls + [c])[..|calls|] == calls;
    CacheIsMinimum(cfg, calls);
    var t := After(cfg, calls);
    assert After(cfg, calls + [c]) == Apply(cfg, t, c);
    if Polled(cfg, h) && t.enabled[HandleToSensor(h)] && ToMs(ns) < t.requested[HandleToSensor(h)] {
      MinReplaced(t.requested, HandleToSensor(h), ToMs(ns));
    }
  }

  /** The tables in the code's own form. `wakes` counts the bytes offered to the
      wake pipe. */
  class SensorsPollContext {
    const cfg: Config
    const isSensorEnabled: array<bool>
    const requestedPollTime: array<nat>
    var polltime: nat
    var wakes: nat

    ghost predicate Valid()
      reads this
    {
      cfg.Valid() && isSensorEnabled.Length == requestedPollTime.Length == SENSORS
    }

    ghost function State(): Tables
      requires Valid()
      reads this, isSensorEnabled, requestedPollTime
    {
      Tables(isSensorEnabled[..], requestedPollTime[..], polltime)
    }

    constructor (cfg: Config)
      requires cfg.Valid()
      ensures Valid() && State() == START && this.cfg == cfg
      ensures fresh(isSensorEnabled) && fresh(requestedPollTime)
    {
      this.cfg := cfg;
      isSensorEnabled := new bool[SENSORS](i => false);
      requestedPollTime := new nat[SENSORS](i => UINT_MAX);
      polltime, wakes := UINT_MAX, 0;
    }

    method SetPollTime()
      requires Valid()
      modifies this`polltime, this`wakes
      ensures polltime == Min(requestedPollTime[..]) && wakes == old(wakes) + 1
    {
      var poll_time := UINT_MAX;
      for i := 0 to SENSORS
        invariant poll_time == Min(requestedPollTime[..i])
      {
        assert requestedPollTime[..i + 1][..i] == requestedPollTime[..i];
        var poll_time_tmp := requestedPollTime[i];
        if poll_time_tmp < poll_time {
          poll_time := poll_time_tmp;
        }
      }
      assert requestedPollTime[..SENSORS] == requestedPollTime[..];
      polltime := poll_time;
      wakes := wakes + 1;
    }

    method UpdateSensorActivate(h: Handle, on: bool)
      requires Valid() && HandleToDriver(h) >= 0 && cfg.present[HandleToDriver(h)]
      modifies this`polltime, this`wakes, isSensorEnabled, requestedPollTime
      ensures Valid() && State() == Apply(cfg, old(State()), Call.Activate(h, on, 0))
      ensures wakes == old(wakes) + if Polled(cfg, h) then 1 else 0
    {
      if cfg.fd[HandleToDriver(h)] != -1 {
        return;
      }
      var sensor := HandleToSensor(h);
      isSensorEnabled[sensor] := on;
      if !on {
        requestedPollTime[sensor] := UINT_MAX;
      }
      SetPollTime();
    }

    method UpdateSensorPollTime(h: Handle, ns: int)
      requires Valid() && HandleToDriver(h) >= 0 && cfg.present[HandleToDriver(h)]
      modifies this`polltime, this`wakes, requestedPollTime
      ensures Valid() && State() == Apply(cfg, old(State()), Call.SetDelay(h, ns))
      ensures wakes == old(wakes) + if Polled(cfg, h) then 1 else 0
    {
      hide Min;
      if cfg.fd[HandleToDriver(h)] != -1 {
        return;
      }
      var sensor, ms := HandleToSensor(h), ToMs(ns);
      ghost var requested := requestedPollTime[..];
      if isSensorEnabled[sensor] && requestedPollTime[sensor] > ms {
        requestedPollTime[sensor] := ms;
        requested := requested[sensor := ms];
      }
      assert requestedPollTime[..] == requested;
      SetPollTime();
    }

    method Activate(h: Handle, on: bool, err: int) returns (r: int)
      requires Valid()
      modifies this`polltime, this`wakes, isSensorEnabled, requestedPollTime
      ensures Valid() && State() == Apply(cfg, old(State()), Call.Activate(h, on, err))
      ensures r == if HandleToDriver(h) < 0 then -EINVAL else if !cfg.present[HandleToDriver(h)] then 0 else err
      ensures
        var reached := h != UNKNOWN && cfg.present[HandleToDriver(h)] && err == 0;
        wakes == old(wakes) + (if reached then 1 else 0) + (if reached && Polled(cfg, h) then 1 else 0)
    {
      var index := HandleToDriver(h);
      if index < 0 {
        return index;
      }
      if !cfg.present[index] {
        return 0;
      }
      if err == 0 {
        wakes := wakes + 1;
        UpdateSensorActivate(h, on);
      }
      return err;
    }

    /** The tables are updated before the driver is asked, and whatever it answers. */
    method SetDelay(h: Handle, ns: int, err: int) returns (r: int)
      requires Valid()
      modifies this`polltime, this`wakes, requestedPollTime
      ensures Valid() && State() == Apply(cfg, old(State()), Call.SetDelay(h, ns))
      ensures r == if HandleToDriver(h) < 0 then -EINVAL else if !cfg.present[HandleToDriver(h)] then 0 else err
      ensures wakes == old(wakes) + if Polled(cfg, h) then 1 else 0
    {
      var index := HandleToDriver(h);
      if index < 0 {
        return index;
      }
      if !cfg.present[index] {
        return 0;
      }
      UpdateSensorPollTime(h, ns);
      return err;
    }
  }
}

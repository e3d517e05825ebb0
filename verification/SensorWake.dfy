/** The wake pipe between the sensor HAL's control threads and its poller.

    A control thread stores a new `polltime` and then writes a byte to a
    non-blocking pipe; the poller loads `polltime`, blocks in poll() with it and,
    when the pipe is readable, takes one byte out. Any number of control threads
    may be at any point of this, in any interleaving with the poller. */
module SensorWake {

  /** setPollTime, with the value it has computed; activate also writes a byte of
      its own before it gets there. */
  datatype WriterPc = Computed(p: nat) | Assigned | ExtraWrite

  /** `nb` is the number of events collected so far in this pollEvents call. */
  datatype PollerPc = Reading | Loading(nb: nat) | InPoll(timeout: nat, waits: bool) | Draining

  datatype System = System(polltime: nat, pipe: nat, writers: map<nat, WriterPc>, poller: PollerPc)

  /** A pipe holds some fixed positive number of bytes. */
  const CAPACITY: nat := 65536

  datatype Return = PipeReady | DriverReady | TimedOut | Failed

  datatype Action =
    | Compute(w: nat, p: nat)   // a control thread enters setPollTime
    | BeginExtra(w: nat)        // a control thread enters activate
    | Assign(w: nat)
    | Write(w: nat)
    | ReadDrivers(nb: nat)      // the poller has read what there is
    | Load
    | PollReturns(r: Return)
    | Drain

  predicate Enabled(s: System, a: Action) {
    match a
    case Compute(w, _) => w !in s.writers
    case BeginExtra(w) => w !in s.writers
    case Assign(w) => w in s.writers && s.writers[w].Computed?
    case Write(w) => w in s.writers && !s.writers[w].Computed?
    case ReadDrivers(_) => s.poller.Reading?
    case Load => s.poller.Loading?
    case PollReturns(r) => s.poller.InPoll? && (r.PipeReady? ==> s.pipe > 0) && (r.TimedOut? ==> s.pipe == 0)
    case Drain => s.poller.Draining?
  }

  /** The write fails, without blocking, when the pipe is full. */
  function Step(s: System, a: Action): System
    requires Enabled(s, a)
  {
    match a
    case Compute(w, p) => s.(writers := s.writers[w := Computed(p)])
    case BeginExtra(w) => s.(writers := s.writers[w := ExtraWrite])
    case Assign(w) => s.(polltime := s.writers[w].p, writers := s.writers[w := Assigned])
    case Write(w) => s.(pipe := if s.pipe < CAPACITY then s.pipe + 1 else s.pipe, writers := s.writers - {w})
    case ReadDrivers(nb) => s.(poller := Loading(nb))
    case Load => s.(poller := InPoll(if s.poller.nb > 0 then 0 else s.polltime, s.poller.nb == 0))
    case PollReturns(r) => s.(poller := if s.pipe > 0 && !r.Failed? then Draining else Reading)
    case Drain => s.(pipe := if s.pipe > 0 then s.pipe - 1 else 0, poller := Reading)
  }

  ghost predicate Initial(s: System) {
    s.pipe == 0 && s.writers == map[] && s.poller.Reading?
  }

  /** The poller sits in poll() with a timeout that is not the current one. */
  predicate Stale(s: System) {
    s.poller.InPoll? && s.poller.waits && s.poller.timeout != s.polltime
  }

  /** Some control thread has stored its value and not yet written its byte. */
  ghost predicate WriteComing(s: System) {
    exists w :: w in s.writers && s.writers[w].Assigned?
  }

  ghost predicate Inv(s: System) {
    && s.pipe <= CAPACITY
    && (Stale(s) ==> s.pipe > 0 || WriteComing(s))
    && (s.poller.Draining? ==> s.pipe > 0)
  }

  lemma StepKeepsInv(s: System, a: Action)
    requires Inv(s) && Enabled(s, a)
    ensures Inv(Step(s, a))
  {
    var t := Step(s, a);
    if Stale(t) && t.pipe == 0 {
      if a.Assign? {
        assert t.writers[a.w].Assigned?;
      } else {
        var w :| w in s.writers && s.writers[w].Assigned?;
        assert w in t.writers && t.writers[w].Assigned?;
      }
    }
  }

  ghost predicate LegalRun(s: System, run: seq<Action>)
    decreases |run|
  {
    run == [] || (Enabled(s, run[0]) && LegalRun(Step(s, run[0]), run[1..]))
  }

  ghost function After(s: System, run: seq<Action>): System
    requires LegalRun(s, run)
    decreases |run|
  {
    if run == [] then s else After(Step(s, run[0]), run[1..])
  }

  lemma {:induction false} RunKeepsInv(s: System, run: seq<Action>)
    requires Inv(s) && LegalRun(s, run)
    ensures Inv(After(s, run))
    decreases |run|
  {
    if run != [] {
      StepKeepsInv(s, run[0]);
      RunKeepsInv(Step(s, run[0]), run[1..]);
    }
  }

  /** No wakeup is lost: whenever the poller blocks with an outdated timeout, a
      byte is in the pipe or a control thread is about to write one, and that
      write leaves the pipe readable even if it fails because the pipe is full. */
  lemma NoLostWakeup(s: System, run: seq<Action>)
    requires Initial(s) && LegalRun(s, run) && Stale(After(s, run))
    ensures
      var t := After(s, run);
      || (t.pipe > 0 && Enabled(t, PollReturns(PipeReady)))
      || exists w :: w in t.writers && Enabled(t, Write(w)) && Enabled(Step(t, Write(w)), PollReturns(PipeReady))
  {
    RunKeepsInv(s, run);
    var t := After(s, run);
    if t.pipe == 0 {
      var w :| w in t.writers && t.writers[w].Assigned?;
      assert Enabled(t, Write(w)) && Enabled(Step(t, Write(w)), PollReturns(PipeReady));
    }
  }

  /** Once the control threads are done, a poller that stays blocked does so with
      the current timeout. */
  lemma BlockedWithTheCurrentTimeout(s: System, run: seq<Action>)
    requires Initial(s) && LegalRun(s, run)
    requires After(s, run).writers == map[] && After(s, run).pipe == 0
    requires After(s, run).poller.InPoll? && After(s, run).poller.waits
    ensures After(s, run).poller.timeout == After(s, run).polltime
  {
    RunKeepsInv(s, run);
  }

  /** A byte left over from an earlier call costs the poller one turn and no more:
      each turn through poll() takes a byte out, and with the pipe empty and the
      control threads quiet the next load uses the current timeout. */
  lemma LeftoverBytesRunOut(s: System, r: Return, nb: nat)
    requires Inv(s) && s.poller.InPoll? && s.pipe > 0 && Enabled(s, PollReturns(r)) && !r.Failed?
    ensures
      var run := [PollReturns(r), Drain, ReadDrivers(nb), Load];
      && LegalRun(s, run)
      && After(s, run).pipe == s.pipe - 1
      && After(s, run).poller == InPoll(if nb > 0 then 0 else s.polltime, nb == 0)
  {
    var s1 := Step(s, PollReturns(r));
    var s2 := Step(s1, Drain);
    var s3 := Step(s2, ReadDrivers(nb));
    assert [PollReturns(r), Drain, ReadDrivers(nb), Load][1..] == [Drain, ReadDrivers(nb), Load];
    assert [Drain, ReadDrivers(nb), Load][1..] == [ReadDrivers(nb), Load];
    assert [ReadDrivers(nb), Load][1..] == [Load];
    assert LegalRun(s3, [Load]) && LegalRun(s2, [ReadDrivers(nb), Load]);
    assert LegalRun(s1, [Drain, ReadDrivers(nb), Load]);
    assert After(s3, [Load]) == Step(s3, Load);
    assert After(s2, [ReadDrivers(nb), Load]) == Step(s3, Load);
    assert After(s1, [Drain, ReadDrivers(nb), Load]) == Step(s3, Load);
  }
}

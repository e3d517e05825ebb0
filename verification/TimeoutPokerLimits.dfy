/** Where the guarantees of timed requests and slots end: runs that leave no room
    for keys, and the stray close of descriptor 0. All is shown from start-up. */
module TimeoutPokerLimits {
  import opened Common
  import opened Descriptors
  import opened FdSlots
  import opened TimeoutPoker
  import opened TimeoutPokerRuns

  /** The run, which need not leave room for keys, leads from s to t. */
  ghost predicate Leads(s: Poker, run: seq<Action>, t: Poker)
    decreases |run|
  {
    if run == [] then s == t else Legal(s, run[0]) && Leads(Step(s, run[0]), run[1..], t)
  }

  lemma {:induction false} LeadsOn(s: Poker, run: seq<Action>, t: Poker, more: seq<Action>, u: Poker)
    requires Leads(s, run, t) && Leads(t, more, u)
    ensures Leads(s, run + more, u)
    decreases |run|
  {
    if run == [] {
      assert run + more == more;
    } else {
      LeadsOn(Step(s, run[0]), run[1..], t, more, u);
      assert (run + more)[1..] == run[1..] + more;
    }
  }

  lemma LeadsTwice(s: Poker, a: Action, b: Action)
    requires Legal(s, a) && Legal(Step(s, a), b)
    ensures Leads(s, [a, b], Step(Step(s, a), b))
  {
    assert [a, b][1..] == [b] && [b][1..] == [];
  }

  lemma LeadsThrough(s: Poker, a: Action, t: Poker, b: Action, u: Poker)
    requires Legal(s, a) && t == Step(s, a) && Legal(t, b) && u == Step(t, b)
    ensures Leads(s, [a, b], u)
  {
    LeadsTwice(s, a, b);
  }

  lemma LeadsOnce(s: Poker, a: Action)
    requires Legal(s, a)
    ensures Leads(s, [a], Step(s, a))
  {
    assert [a][1..] == [];
  }

  // ----- a key comes round -----

  /** m events posted, all run but the timeout of the first request, whose time is
      not over. */
  ghost predicate Busy(s: Poker, fd: nat, m: nat) {
    && QueueInv(s) && |s.history| == m && m >= 2 && s.looper.Keys == {1}
    && s.looper[1].due > s.now && s.history[1] == TimeoutEvent(fd)
    && IsTimed(s, fd) && s.fds[fd].owner.closer == 1
  }

  /** A request is posted and granted a descriptor. */
  lemma GrantNext(s: Poker, ev: QueuedEvent, fd: nat) returns (t: Poker)
    requires Inv(s) && |s.history| <= 100 && fd !in s.fds && ev.PmQosOpenTimedEvent?
    ensures
      var n := |s.history|;
      && Leads(s, [Post(ev), Run(n, Opened(fd), PipeFailed)], t) && t.history == s.history + [ev, TimeoutEvent(fd)]
      && n + 1 in t.looper && t.looper[n + 1].due == s.now + ev.timeout && n + 1 !in s.looper
      && t.looper == s.looper[n + 1 := t.looper[n + 1]]
      && t.fds == s.fds[fd := File(ev, s.now, n, n + 1)]
    ensures Inv(t) && t.now == s.now && SlotsOf(t) == SlotsOf(s).(files := t.fds)
  {
    hide Step, Legal, Leads, FilesInv, InRange;
    var u := PostedRequest(s, ev);
    var a;
    a, t := GrantedRequest(u, |s.history|, fd);
    LeadsThrough(s, Post(ev), u, a, t);
    assert t.looper == s.looper[|s.history| + 1 := t.looper[|s.history| + 1]];
  }

  /** The first request of all. */
  lemma Grant(s: Poker, ev: QueuedEvent, fd: nat) returns (t: Poker)
    requires Inv(s) && s.history == [] && fd !in s.fds && ev.PmQosOpenTimedEvent?
    ensures Leads(s, [Post(ev), Run(0, Opened(fd), PipeFailed)], t)
    ensures Inv(t) && t.now == s.now && SlotsOf(t) == SlotsOf(s).(files := t.fds)
    ensures |t.history| == 2 && t.history[1] == TimeoutEvent(fd)
    ensures t.looper.Keys == {1} && t.looper[1].due == s.now + ev.timeout
    ensures t.fds == s.fds[fd := OpenFile(ev.node, ev.val, Timed(s.now, ev.timeout, 0, 1))]
  {
    t := GrantNext(s, ev, fd);
    assert s.looper.Keys == {};
  }

  lemma OnePair(s: Poker, ev: QueuedEvent, fd: nat, m: nat) returns (u: Poker)
    requires Busy(s, fd, m) && m <= KEY_SPACE && ev.PmQosOpenTimedEvent?
    ensures Leads(s, [Post(ev), Run(m, OpenFailed, PipeFailed)], u) && Busy(u, fd, m + 1)
  {
    SendKeepsQueue(s, 0, ev);
    var t := Step(s, Post(ev));
    TakeKeepsQueue(t, m);
    assert Deliver(t, m, OpenFailed, PipeFailed) == Take(t, m);
    LeadsTwice(s, Post(ev), Run(m, OpenFailed, PipeFailed));
    u := Take(t, m);
  }

  /** Post after post, each delivered and refused at once. */
  lemma {:induction false} PairsStayBusy(s: Poker, ev: QueuedEvent, fd: nat, m: nat, end: nat)
    returns (run: seq<Action>, t: Poker)
    requires Busy(s, fd, m) && m <= end <= KEY_SPACE + 1 && ev.PmQosOpenTimedEvent?
    ensures Leads(s, run, t) && Busy(t, fd, end)
    decreases end - m
  {
    if m < end {
      var u := OnePair(s, ev, fd, m);
      var more;
      more, t := PairsStayBusy(u, ev, fd, m + 1, end);
      LeadsOn(s, [Post(ev), Run(m, OpenFailed, PipeFailed)], u, more, t);
      run := [Post(ev), Run(m, OpenFailed, PipeFailed)] + more;
    } else {
      run, t := [], s;
    }
  }

  /** From every start-up, and in the order in which messages fall due, a run leads
      to a state in which the next post takes the key of a pending timeout: that
      timeout event is lost, and its file, still within its time, is left without one. */
  lemma CollisionIsReachable(s: Poker, ev: QueuedEvent, fd: nat) returns (run: seq<Action>, t: Poker)
    requires Initial(s) && fd !in s.fds && ev.PmQosOpenTimedEvent? && ev.timeout > 0
    ensures Leads(s, run, t) && QueueInv(t) && IsTimed(t, fd) && t.fds[fd].owner.closer == 1
    ensures 1 in t.looper && t.looper[1].what == t.mKey && t.looper[1].due > t.now
    ensures |t.history| == 4_294_967_297
    ensures forall k :: k in Send(t, 0, ev).queued ==> Send(t, 0, ev).queued[k].event != TimeoutEvent(fd)
  {
    InitialIsGood(s);
    var u := Grant(s, ev, fd);
    run, t := PairsStayBusy(u, ev, fd, 2, KEY_SPACE + 1);
    LeadsOn(s, [Post(ev), Run(0, Opened(fd), PipeFailed)], u, run, t);
    run := [Post(ev), Run(0, Opened(fd), PipeFailed)] + run;
    BusyLosesTheTimeout(t, ev, fd);
  }

  lemma BusyLosesTheTimeout(s: Poker, ev: QueuedEvent, fd: nat)
    requires Busy(s, fd, KEY_SPACE + 1) && ev.PmQosOpenTimedEvent?
    ensures s.looper[1].what == s.mKey
    ensures forall k :: k in Send(s, 0, ev).queued ==> Send(s, 0, ev).queued[k].event != TimeoutEvent(fd)
  {
    forall k | k in s.queued ensures k == s.mKey {
      assert EntryInv(s, k);
    }
  }

  // ----- the stray close -----

  lemma TimeoutRuns(s: Poker, dt: nat) returns (t: Poker)
    requires Inv(s) && Room(s) && 1 in s.looper && s.looper[1].due <= s.now + dt && s.history[1] == TimeoutEvent(0)
    ensures Leads(s, [Advance(dt), Run(1, OpenFailed, PipeFailed)], t)
    ensures t.now == s.now + dt && t.fds == s.fds - {0} && t.slot == s.slot
  {
    StepKeepsInv(s, Advance(dt));
    var u := Step(s, Advance(dt));
    DeliverRunsThePostedEvent(u, 1, OpenFailed, PipeFailed);
    RunEventKeepsSlots(Take(u, 1), 1, s.history[1], OpenFailed, PipeFailed);
    LeadsTwice(s, Advance(dt), Run(1, OpenFailed, PipeFailed));
    t := Step(u, Run(1, OpenFailed, PipeFailed));
  }

  /** Only the timeout of a closed request for descriptor 0 is pending, and the
      stale slot has been used. */
  ghost predicate TimeoutLeft(s: Poker, due: nat) {
    && Inv(s) && |s.history| == 2 && s.looper.Keys == {1} && s.history[1] == TimeoutEvent(0)
    && s.looper[1].due == due && 0 !in s.fds && s.slot.Get(CamMaxOnlineCpus) == -1
  }

  /** The damage, from start-up with descriptor 0 free: a request is granted 0, and
      the first use of the stale slot closes it in the instant it was opened. */
  lemma StrayCloseEndsARequest(s: Poker, a: QueuedEvent) returns (t: Poker, u: Poker)
    requires Initial(s) && 0 !in s.fds && a.PmQosOpenTimedEvent?
    ensures Leads(s, [Post(a), Run(0, Opened(0), PipeFailed)], t) && Leads(t, [EmptySlot(CamMaxOnlineCpus)], u)
    ensures t.fds == s.fds[0 := OpenFile(a.node, a.val, Timed(s.now, a.timeout, 0, 1))]
    ensures u.fds == s.fds && u.now == s.now && TimeoutLeft(u, s.now + a.timeout)
  {
    InitialIsGood(s);
    t := Grant(s, a, 0);
    LeadsOnce(t, EmptySlot(CamMaxOnlineCpus));
    StepKeepsInv(t, EmptySlot(CamMaxOnlineCpus));
    EmptyIsClose(t);
    u := Step(t, EmptySlot(CamMaxOnlineCpus));
  }

  /** The timeout it leaves behind closes a later timed request, granted 0 again, at
      a moment when that one's time is not over. */
  lemma LeftTimeoutEndsAnother(s: Poker, dt: nat, b: QueuedEvent) returns (t: Poker, u: Poker)
    requires TimeoutLeft(s, s.now + dt) && b.PmQosOpenTimedEvent? && dt < b.timeout
    ensures Leads(s, [Post(b), Run(2, Opened(0), PipeFailed)], t)
    ensures Leads(t, [Advance(dt), Run(1, OpenFailed, PipeFailed)], u)
    ensures t.fds == s.fds[0 := OpenFile(b.node, b.val, Timed(s.now, b.timeout, 2, 3))]
    ensures u.fds == s.fds && u.now == s.now + dt < s.now + b.timeout
  {
    hide Step, Legal, Leads, FilesInv;
    t := GrantNext(s, b, 0);
    u := TimeoutRuns(t, dt);
  }

  /** Or it closes the request of the very slot that strayed, granted 0 in its turn:
      the slot goes on naming 0. */
  lemma LeftTimeoutClosesASlot(s: Poker, dt: nat, w: Want) returns (t: Poker, u: Poker)
    requires TimeoutLeft(s, s.now + dt) && w.name == CamMaxOnlineCpus
    ensures Leads(s, [FillSlot(w, Opened(0))], t) && Holding(SlotsOf(t), CamMaxOnlineCpus) == Some(w)
    ensures Leads(t, [Advance(dt), Run(1, OpenFailed, PipeFailed)], u)
    ensures u.slot.Get(CamMaxOnlineCpus) == 0 && 0 !in u.fds
  {
    var fill := FillSlot(w, Opened(0));
    LeadsOnce(s, fill);
    StepKeepsInv(s, fill);
    SlotStepFiles(s, fill);
    t := Step(s, fill);
    u := TimeoutRuns(t, dt);
  }

  /** A slot is granted 0 and the stray close of a camera reset takes it away: the
      slot goes on naming 0. */
  lemma StrayCloseHitsASlot(s: Poker, w: Want) returns (t: Poker, u: Poker)
    requires Initial(s) && 0 !in s.fds && w.name == AppMinGpu
    ensures Leads(s, [FillSlot(w, Opened(0))], t) && Holding(SlotsOf(t), AppMinGpu) == Some(w)
    ensures Leads(t, [EmptySlot(CamMaxOnlineCpus)], u)
    ensures Inv(u) && u.now == s.now && u.history == [] && u.slot.Get(AppMinGpu) == 0 && 0 !in u.fds
  {
    var fill := FillSlot(w, Opened(0));
    InitialIsGood(s);
    LeadsOnce(s, fill);
    StepKeepsInv(s, fill);
    SlotStepFiles(s, fill);
    t := Step(s, fill);
    LeadsOnce(t, EmptySlot(CamMaxOnlineCpus));
    StepKeepsInv(t, EmptySlot(CamMaxOnlineCpus));
    EmptyIsClose(t);
    u := Step(t, EmptySlot(CamMaxOnlineCpus));
  }

  /** And the next setter of that slot closes a timed request that was granted 0 in
      between, in the instant it was opened. */
  lemma LeftSlotEndsARequest(s: Poker, a: QueuedEvent) returns (t: Poker, u: Poker)
    requires Inv(s) && s.history == [] && s.slot.Get(AppMinGpu) == 0 && 0 !in s.fds && a.PmQosOpenTimedEvent?
    ensures Leads(s, [Post(a), Run(0, Opened(0), PipeFailed)], t) && Leads(t, [EmptySlot(AppMinGpu)], u)
    ensures t.fds == s.fds[0 := OpenFile(a.node, a.val, Timed(s.now, a.timeout, 0, 1))]
    ensures 0 !in u.fds && u.now == s.now
  {
    t := Grant(s, a, 0);
    LeadsOnce(t, EmptySlot(AppMinGpu));
    u := Step(t, EmptySlot(AppMinGpu));
  }
}

/** What every run of the timed-request engine keeps: the queue and the looper
    agree, each posted event runs once, and each timed file is open from its
    opening until its timeout and is closed by its own timeout event. */
module TimeoutPokerRuns {
  import opened Common
  import opened Descriptors
  import opened FdSlots
  import opened TimeoutPoker

  /** Keys are the post numbers taken mod 2^32. */
  ghost predicate KeysInv(s: Poker) {
    && s.mKey == |s.history| % KEY_SPACE
    && (forall n :: n in s.looper ==> n < |s.history| && s.looper[n].what == n % KEY_SPACE)
  }

  /** Message n finds the n-th event under its key, and nothing else is queued. */
  ghost predicate AgreeInv(s: Poker) {
    && (forall n {:trigger MessageInv(s, n)} :: n in s.looper ==> MessageInv(s, n))
    && (forall k {:trigger EntryInv(s, k)} :: k in s.queued ==> EntryInv(s, k))
  }

  ghost predicate MessageInv(s: Poker, n: nat)
    requires n in s.looper
  {
    n < |s.history| && s.looper[n].what in s.queued && s.queued[s.looper[n].what].id == n
  }

  ghost predicate EntryInv(s: Poker, k: Key)
    requires k in s.queued
  {
    var Entry(n, ev) := s.queued[k];
    n in s.looper && s.looper[n].what == k && n < |s.history| && ev == s.history[n]
  }

  /** Each post is either undelivered or was run, as it was posted. */
  ghost predicate RanInv(s: Poker) {
    && (forall n :: n in s.ran ==> n < |s.history| && n !in s.looper && s.ran[n] == Entry(n, s.history[n]))
    && (forall n :: 0 <= n < |s.history| ==> n in s.looper || n in s.ran)
  }

  ghost predicate QueueInv(s: Poker) {
    KeysInv(s) && AgreeInv(s) && RanInv(s)
  }

  ghost predicate IsTimeout(s: Poker, n: nat) {
    n < |s.history| && s.history[n].TimeoutEvent?
  }

  ghost predicate IsTimed(s: Poker, fd: nat) {
    fd in s.fds && s.fds[fd].owner.Timed?
  }

  /** A timed file was opened for a request that has run, and the event that will
      close it is pending and due when its time is over. */
  ghost predicate FileInv(s: Poker, fd: nat)
    requires IsTimed(s, fd)
  {
    var OpenFile(node, val, Timed(openedAt, timeout, origin, closer)) := s.fds[fd];
    && closer in s.looper && closer < |s.history| && s.history[closer] == TimeoutEvent(fd)
    && s.looper[closer].due == openedAt + timeout
    && openedAt <= s.now
    && origin in s.ran && s.ran[origin].event == PmQosOpenTimedEvent(node, val, timeout)
    && origin in s.granted && s.granted[origin] == fd
  }

  ghost predicate FilesInv(s: Poker) {
    forall fd {:trigger FileInv(s, fd)} :: IsTimed(s, fd) ==> FileInv(s, fd)
  }

  ghost predicate Inv(s: Poker) {
    QueueInv(s) && FilesInv(s) && InRange(SlotsOf(s))
  }

  /** And back: every pending timeout event for fd finds the file it was posted for. */
  ghost predicate Matched(s: Poker, fd: nat) {
    forall n {:trigger IsTimeout(s, n)} :: n in s.looper && IsTimeout(s, n) && s.history[n].pmQosFd == fd ==>
      IsTimed(s, fd) && s.fds[fd].owner.closer == n
  }

  /** Descriptor fd is in order: who counts on it has it, be it a timeout event or a
      slot, and it has nobody else. */
  ghost predicate GoodAt(s: Poker, fd: nat) {
    Matched(s, fd) && OwnsAt(SlotsOf(s), fd)
  }

  ghost predicate Good(s: Poker) {
    forall fd: nat {:trigger GoodAt(s, fd)} :: GoodAt(s, fd)
  }

  /** The first use of the stale slot, which closes descriptor 0. */
  predicate Strays(s: Poker, a: Action) {
    a == EmptySlot(CamMaxOnlineCpus) && s.stale
  }

  /** It closes a timed file, or an open request of another slot. */
  predicate Hits(s: Poker, a: Action) {
    Strays(s, a) && 0 in s.fds && !s.fds[0].owner.Other?
  }

  /** Undelivered messages span fewer than 2^32 posts. */
  ghost predicate Room(s: Poker) {
    forall n :: n in s.looper ==> |s.history| - n < KEY_SPACE
  }

  ghost predicate LegalRun(s: Poker, run: seq<Action>)
    decreases |run|
  {
    run == [] || (Legal(s, run[0]) && Room(s) && LegalRun(Step(s, run[0]), run[1..]))
  }

  ghost function After(s: Poker, run: seq<Action>): Poker
    requires LegalRun(s, run)
    decreases |run|
  {
    if run == [] then s else After(Step(s, run[0]), run[1..])
  }

  lemma RoomFreesTheKey(s: Poker)
    requires KeysInv(s) && AgreeInv(s) && Room(s)
    ensures s.mKey !in s.queued
  {
    forall k | k in s.queued ensures k != s.mKey {
      assert EntryInv(s, k);
    }
  }

  /** A post keeps queue and looper in agreement exactly when its key is free. */
  lemma SendKeepsAgreement(s: Poker, delay: nat, ev: QueuedEvent)
    requires KeysInv(s) && AgreeInv(s)
    ensures AgreeInv(Send(s, delay, ev)) <==> s.mKey !in s.queued
  {
    var t := Send(s, delay, ev);
    if s.mKey in s.queued {
      assert EntryInv(s, s.mKey);
      assert !MessageInv(t, s.queued[s.mKey].id);
    } else {
      forall n | n in t.looper ensures MessageInv(t, n) {
        assert n != |s.history| ==> MessageInv(s, n);
      }
      forall k | k in t.queued ensures EntryInv(t, k) {
        assert k != s.mKey ==> EntryInv(s, k);
      }
    }
  }

  lemma SendKeepsQueue(s: Poker, delay: nat, ev: QueuedEvent)
    requires QueueInv(s) && Room(s)
    ensures QueueInv(Send(s, delay, ev))
  {
    RoomFreesTheKey(s);
    SendKeepsAgreement(s, delay, ev);
  }

  lemma TakeKeepsQueue(s: Poker, n: nat)
    requires QueueInv(s) && n in s.looper
    ensures s.looper[n].what in s.queued && s.queued[s.looper[n].what] == Entry(n, s.history[n])
    ensures QueueInv(Take(s, n)) && (Room(s) ==> Room(Take(s, n)))
  {
    assert MessageInv(s, n) && EntryInv(s, s.looper[n].what);
    var t := Take(s, n);
    forall m | m in t.looper ensures MessageInv(t, m) {
      assert MessageInv(s, m);
    }
    forall k | k in t.queued ensures EntryInv(t, k) {
      assert EntryInv(s, k);
    }
  }

  lemma QueueIgnoresFiles(s: Poker, t: Poker)
    requires QueueInv(s)
    requires t == s.(fds := t.fds, now := t.now, granted := t.granted,
                     slot := t.slot, stale := t.stale, stray := t.stray)
    ensures QueueInv(t) && (Room(s) ==> Room(t))
  {
    forall n | n in t.looper ensures MessageInv(t, n) {
      assert MessageInv(s, n);
    }
    forall k | k in t.queued ensures EntryInv(t, k) {
      assert EntryInv(s, k);
    }
  }

  lemma RunEventKeepsQueue(t: Poker, n: nat, ev: QueuedEvent, o: OpenResult, p: PipeResult)
    requires QueueInv(t) && Room(t)
    ensures QueueInv(RunEvent(t, n, ev, o, p))
  {
    match ev {
      case PmQosOpenTimedEvent(node, val, timeout) =>
        if o.Opened? {
          var file := OpenFile(node, val, Timed(t.now, timeout, n, |t.history|));
          var u := t.(fds := t.fds[o.fd := file], granted := t.granted[n := o.fd]);
          QueueIgnoresFiles(t, u);
          SendKeepsQueue(u, timeout, TimeoutEvent(o.fd));
        }
      case _ =>
        QueueIgnoresFiles(t, RunEvent(t, n, ev, o, p));
    }
  }

  /** The looper never asks for a key that is not queued, and the event it runs
      for message n is the n-th event posted, which had not run before. */
  lemma DeliverRunsThePostedEvent(s: Poker, n: nat, o: OpenResult, p: PipeResult)
    requires QueueInv(s) && n in s.looper && Room(s)
    ensures s.looper[n].what in s.queued
    ensures Deliver(s, n, o, p) == RunEvent(Take(s, n), n, s.history[n], o, p)
    ensures QueueInv(Deliver(s, n, o, p))
    ensures n !in s.ran && Take(s, n).ran == s.ran[n := Entry(n, s.history[n])]
  {
    TakeKeepsQueue(s, n);
    RunEventKeepsQueue(Take(s, n), n, s.history[n], o, p);
  }

  lemma PostKeepsFiles(s: Poker, delay: nat, ev: QueuedEvent)
    requires Inv(s)
    ensures FilesInv(Send(s, delay, ev))
  {
    var t := Send(s, delay, ev);
    assert |s.history| !in s.looper;
    forall fd | IsTimed(t, fd) ensures FileInv(t, fd) {
      assert FileInv(s, fd);
    }
  }

  /** Running a request opens one file and posts the one event that will close it. */
  lemma RunOpenTimedKeepsFiles(s: Poker, n: nat, fd: nat)
    requires Inv(s) && n in s.looper && s.history[n].PmQosOpenTimedEvent? && fd !in s.fds
    ensures FilesInv(OpenTimed(Take(s, n), n, s.history[n].node, s.history[n].val, s.history[n].timeout, Opened(fd)))
  {
    TakeKeepsQueue(s, n);
    var t := OpenTimed(Take(s, n), n, s.history[n].node, s.history[n].val, s.history[n].timeout, Opened(fd));
    assert |s.history| !in s.looper;
    forall gd | IsTimed(t, gd) ensures FileInv(t, gd) {
      assert gd != fd ==> IsTimed(s, gd) && FileInv(s, gd);
    }
  }

  lemma RunTimeoutKeepsFiles(s: Poker, n: nat)
    requires Inv(s) && n in s.looper && s.history[n].TimeoutEvent?
    ensures FilesInv(Take(s, n).(fds := s.fds - {s.history[n].pmQosFd}))
  {
    TakeKeepsQueue(s, n);
    var t := Take(s, n).(fds := s.fds - {s.history[n].pmQosFd});
    forall gd | IsTimed(t, gd) ensures FileInv(t, gd) {
      assert IsTimed(s, gd) && FileInv(s, gd);
    }
  }

  /** Running a timeout event closes the file it was posted for, which is open. */
  lemma RunTimeoutClosesItsFile(s: Poker, n: nat)
    requires Inv(s) && n in s.looper && s.history[n].TimeoutEvent? && Matched(s, s.history[n].pmQosFd)
    ensures
      var fd := s.history[n].pmQosFd;
      && IsTimed(s, fd) && s.fds[fd].owner.closer == n
      && s.looper[n].due == s.fds[fd].owner.openedAt + s.fds[fd].owner.timeout
      && forall o, p :: Deliver(s, n, o, p).fds == s.fds - {fd}
  {
    TakeKeepsQueue(s, n);
    assert IsTimeout(s, n);
    assert FileInv(s, s.history[n].pmQosFd);
  }

  /** Steps that post nothing and leave the timed files that stay as they are. */
  lemma OtherStepsKeepFiles(s: Poker, t: Poker)
    requires Inv(s) && t.history == s.history && t.now >= s.now && t.granted == s.granted
    requires forall n :: n in s.looper && IsTimeout(s, n) ==> n in t.looper && t.looper[n] == s.looper[n]
    requires forall n :: n in s.ran ==> n in t.ran && t.ran[n] == s.ran[n]
    requires forall fd :: IsTimed(t, fd) ==> IsTimed(s, fd) && t.fds[fd] == s.fds[fd]
    ensures FilesInv(t)
  {
    forall fd | IsTimed(t, fd) ensures FileInv(t, fd) {
      assert FileInv(s, fd);
      assert IsTimeout(s, s.fds[fd].owner.closer);
    }
  }

  lemma RunHandleKeepsFiles(s: Poker, n: nat, o: OpenResult, p: PipeResult)
    requires Inv(s) && n in s.looper && s.history[n].PmQosOpenHandleEvent? && Fresh(s, o, p)
    ensures FilesInv(OpenHandle(Take(s, n), s.history[n].node, s.history[n].val, o, p))
  {
    TakeKeepsQueue(s, n);
    OtherStepsKeepFiles(s, OpenHandle(Take(s, n), s.history[n].node, s.history[n].val, o, p));
  }

  lemma DeliverKeepsInv(s: Poker, n: nat, o: OpenResult, p: PipeResult)
    requires Inv(s) && Room(s) && n in s.looper && Fresh(s, o, p)
    ensures Inv(Deliver(s, n, o, p))
  {
    DeliverRunsThePostedEvent(s, n, o, p);
    RunEventKeepsSlots(Take(s, n), n, s.history[n], o, p);
    match s.history[n] {
      case PmQosOpenTimedEvent(_, _, _) =>
        if o.Opened? {
          RunOpenTimedKeepsFiles(s, n, o.fd);
        } else {
          OtherStepsKeepFiles(s, Take(s, n));
        }
      case PmQosOpenHandleEvent(_, _) =>
        RunHandleKeepsFiles(s, n, o, p);
      case TimeoutEvent(_) =>
        RunTimeoutKeepsFiles(s, n);
    }
  }

  /** What emptying or filling a slot does to the files: one may be closed and one of
      the slot's own be opened. */
  lemma SlotStepFiles(s: Poker, a: Action)
    requires InRange(SlotsOf(s)) && Legal(s, a) && (a.EmptySlot? || a.FillSlot?)
    ensures
      var t := Step(s, a);
      && InRange(SlotsOf(t)) && t == s.(fds := t.fds, slot := t.slot, stale := t.stale, stray := t.stray)
      && (forall fd :: fd in t.fds ==> (fd in s.fds && t.fds[fd] == s.fds[fd]) || t.fds[fd].owner.Slot?)
      && t.stale == (s.stale && a != EmptySlot(CamMaxOnlineCpus))
  {
  }

  lemma RunEventKeepsSlots(t: Poker, n: nat, ev: QueuedEvent, o: OpenResult, p: PipeResult)
    ensures var u := RunEvent(t, n, ev, o, p); u.slot == t.slot && u.stale == t.stale && u.stray == t.stray
  {
  }

  lemma SlotStepKeepsInv(s: Poker, a: Action)
    requires Inv(s) && Legal(s, a) && (a.EmptySlot? || a.FillSlot?)
    ensures Inv(Step(s, a))
  {
    SlotStepFiles(s, a);
    QueueIgnoresFiles(s, Step(s, a));
    OtherStepsKeepFiles(s, Step(s, a));
  }

  lemma OutsideStepKeepsInv(s: Poker, a: Action)
    requires Inv(s) && Legal(s, a) && (a.Advance? || a.OtherOpen? || a.OtherClose?)
    ensures Inv(Step(s, a))
  {
    QueueIgnoresFiles(s, Step(s, a));
    OtherStepsKeepFiles(s, Step(s, a));
  }

  lemma PostKeepsInv(s: Poker, ev: QueuedEvent)
    requires Inv(s) && Room(s)
    ensures Inv(Send(s, 0, ev))
  {
    SendKeepsQueue(s, 0, ev);
    PostKeepsFiles(s, 0, ev);
  }

  lemma StepKeepsInv(s: Poker, a: Action)
    requires Inv(s) && Room(s) && Legal(s, a)
    ensures Inv(Step(s, a))
  {
    match a {
      case Post(ev) => PostKeepsInv(s, ev);
      case Run(n, o, p) => DeliverKeepsInv(s, n, o, p);
      case EmptySlot(_) => SlotStepKeepsInv(s, a);
      case FillSlot(_, _) => SlotStepKeepsInv(s, a);
      case _ => OutsideStepKeepsInv(s, a);
    }
  }

  lemma {:induction false} RunKeepsInv(s: Poker, run: seq<Action>)
    requires Inv(s) && LegalRun(s, run)
    ensures Inv(After(s, run))
    decreases |run|
  {
    if run != [] {
      StepKeepsInv(s, run[0]);
      RunKeepsInv(Step(s, run[0]), run[1..]);
    }
  }

  // ----- who counts on a descriptor has it -----

  /** Running an event, just taken, other than a timeout of fd. */
  lemma RunEventKeepsMatched(t: Poker, n: nat, ev: QueuedEvent, o: OpenResult, p: PipeResult, fd: nat)
    requires Fresh(t, o, p) && Matched(t, fd) && ev != TimeoutEvent(fd)
    requires forall m :: m in t.looper ==> m < |t.history|
    ensures Matched(RunEvent(t, n, ev, o, p), fd)
  {
    var u := RunEvent(t, n, ev, o, p);
    forall m | m in u.looper && IsTimeout(u, m) && u.history[m].pmQosFd == fd
      ensures IsTimed(u, fd) && u.fds[fd].owner.closer == m
    {
      assert m < |t.history| ==> IsTimeout(t, m);
    }
  }

  /** Running an event keeps the timeout events of fd matched. */
  lemma DeliverKeepsMatched(s: Poker, n: nat, o: OpenResult, p: PipeResult, fd: nat)
    requires Inv(s) && Room(s) && n in s.looper && Fresh(s, o, p) && Matched(s, fd)
    ensures Matched(Deliver(s, n, o, p), fd)
  {
    DeliverRunsThePostedEvent(s, n, o, p);
    var t := Take(s, n);
    assert IsTimeout(s, n) <==> s.history[n].TimeoutEvent?;
    forall m | m in t.looper && IsTimeout(t, m) && t.history[m].pmQosFd == fd
      ensures s.history[n] != TimeoutEvent(fd) && IsTimed(t, fd) && t.fds[fd].owner.closer == m
    {
      assert IsTimeout(s, m);
    }
    if s.history[n] != TimeoutEvent(fd) {
      RunEventKeepsMatched(t, n, s.history[n], o, p, fd);
    }
  }

  /** An event opens only free descriptors, and closes only one that is not a slot's. */
  lemma RunEventKeepsOwns(t: Poker, n: nat, ev: QueuedEvent, o: OpenResult, p: PipeResult, fd: nat)
    requires Fresh(t, o, p) && OwnsAt(SlotsOf(t), fd)
    requires ev == TimeoutEvent(fd) ==> fd !in t.fds || !t.fds[fd].owner.Slot?
    ensures OwnsAt(SlotsOf(RunEvent(t, n, ev, o, p)), fd)
  {
    var u := RunEvent(t, n, ev, o, p);
    RunEventKeepsSlots(t, n, ev, o, p);
    assert fd in u.fds ==> (fd in t.fds && u.fds[fd] == t.fds[fd]) || (fd !in t.fds && !u.fds[fd].owner.Slot?);
    assert fd in t.fds && fd !in u.fds ==> ev == TimeoutEvent(fd);
    SameOwns(t, u, fd);
  }

  lemma SameOwns(t: Poker, u: Poker, fd: nat)
    requires OwnsAt(SlotsOf(t), fd) && u.slot == t.slot && u.stale == t.stale
    requires fd in t.fds && t.fds[fd].owner.Slot? ==> fd in u.fds && u.fds[fd] == t.fds[fd]
    requires fd in u.fds && u.fds[fd].owner.Slot? ==> fd in t.fds && u.fds[fd] == t.fds[fd]
    ensures OwnsAt(SlotsOf(u), fd)
  {
    forall x: Name | Names(SlotsOf(u), x, fd) ensures OwnFile(SlotsOf(u), x, fd) {
      assert Names(SlotsOf(t), x, fd);
    }
    if fd in u.fds && u.fds[fd].owner.Slot? {
      assert Names(SlotsOf(t), t.fds[fd].owner.name, fd);
    }
  }

  lemma DeliverKeepsOwns(s: Poker, n: nat, o: OpenResult, p: PipeResult, fd: nat)
    requires Inv(s) && Room(s) && n in s.looper && Fresh(s, o, p) && GoodAt(s, fd)
    ensures OwnsAt(SlotsOf(Deliver(s, n, o, p)), fd)
  {
    DeliverRunsThePostedEvent(s, n, o, p);
    assert IsTimeout(s, n) <==> s.history[n].TimeoutEvent?;
    SameOwns(s, Take(s, n), fd);
    RunEventKeepsOwns(Take(s, n), n, s.history[n], o, p, fd);
  }

  lemma SlotStepKeepsMatched(s: Poker, a: Action, fd: nat)
    requires Inv(s) && Legal(s, a) && (a.EmptySlot? || a.FillSlot?) && GoodAt(s, fd)
    ensures Matched(Step(s, a), fd) <==> !(Hits(s, a) && fd == 0 && s.fds[0].owner.Timed?)
  {
    var t := Step(s, a);
    SlotStepFiles(s, a);
    if a.EmptySlot? {
      EmptyKeepsOwnsAt(SlotsOf(s), a.x, fd);
      assert IsTimed(s, fd) && !(Hits(s, a) && fd == 0) ==> IsTimed(t, fd) by {
        assert s.slot.Get(a.x) == fd ==> Names(SlotsOf(s), a.x, fd) || Unset(SlotsOf(s), a.x);
      }
    }
    if Hits(s, a) && fd == 0 && IsTimed(s, 0) {
      assert FileInv(s, 0);
      assert IsTimeout(t, s.fds[0].owner.closer);
    } else {
      if a.FillSlot? {
        FillKeepsOwnsAt(SlotsOf(s), a.w, a.g, fd);
      }
      forall m | m in t.looper && IsTimeout(t, m) && t.history[m].pmQosFd == fd
        ensures IsTimed(t, fd) && t.fds[fd].owner.closer == m
      {
        assert IsTimeout(s, m);
      }
    }
  }

  lemma SlotStepKeepsGood(s: Poker, a: Action, fd: nat)
    requires Inv(s) && Legal(s, a) && (a.EmptySlot? || a.FillSlot?) && GoodAt(s, fd)
    ensures GoodAt(Step(s, a), fd) <==> !(Hits(s, a) && fd == 0)
  {
    SlotStepKeepsMatched(s, a, fd);
    if a.EmptySlot? {
      EmptyKeepsOwnsAt(SlotsOf(s), a.x, fd);
      assert SlotsOf(Step(s, a)) == Empty(SlotsOf(s), a.x);
    } else {
      FillKeepsOwnsAt(SlotsOf(s), a.w, a.g, fd);
      assert SlotsOf(Step(s, a)) == Fill(SlotsOf(s), a.w, a.g);
    }
  }

  /** A step keeps a descriptor in order exactly unless it is the first use of the
      stale slot, the descriptor is 0, and 0 is a timed file or another slot's. So
      all other descriptors are always in order. */
  lemma StepKeepsGoodAt(s: Poker, a: Action, fd: nat)
    requires Inv(s) && Room(s) && Legal(s, a) && GoodAt(s, fd)
    ensures GoodAt(Step(s, a), fd) <==> !(Hits(s, a) && fd == 0)
  {
    var t := Step(s, a);
    if a.Run? {
      DeliverKeepsMatched(s, a.n, a.o, a.p, fd);
      DeliverKeepsOwns(s, a.n, a.o, a.p, fd);
    } else if a.EmptySlot? || a.FillSlot? {
      SlotStepKeepsGood(s, a, fd);
    } else {
      SameOwns(s, t, fd);
      forall m | m in t.looper && IsTimeout(t, m) && t.history[m].pmQosFd == fd
        ensures IsTimed(t, fd) && t.fds[fd].owner.closer == m
      {
        assert IsTimeout(s, m);
      }
    }
  }

  lemma StepKeepsGood(s: Poker, a: Action)
    requires Inv(s) && Room(s) && Legal(s, a) && Good(s)
    ensures Good(Step(s, a)) <==> !Hits(s, a)
  {
    if Hits(s, a) {
      assert GoodAt(s, 0);
      StepKeepsGoodAt(s, a, 0);
    } else {
      forall fd: nat ensures GoodAt(Step(s, a), fd) {
        assert GoodAt(s, fd);
        StepKeepsGoodAt(s, a, fd);
      }
    }
  }

  /** No step of the run hits a file that somebody else counts on. */
  ghost predicate Sound(s: Poker, run: seq<Action>)
    requires LegalRun(s, run)
    decreases |run|
  {
    run == [] || (!Hits(s, run[0]) && Sound(Step(s, run[0]), run[1..]))
  }

  /** A descriptor other than 0 is in order throughout every run, and 0 throughout
      every sound one. */
  lemma {:induction false} RunKeepsGoodAt(s: Poker, run: seq<Action>, fd: nat)
    requires Inv(s) && LegalRun(s, run) && GoodAt(s, fd) && (fd == 0 ==> Sound(s, run))
    ensures GoodAt(After(s, run), fd)
    decreases |run|
  {
    if run != [] {
      StepKeepsInv(s, run[0]);
      StepKeepsGoodAt(s, run[0], fd);
      RunKeepsGoodAt(Step(s, run[0]), run[1..], fd);
    }
  }

  lemma SoundRunsKeepGood(s: Poker, run: seq<Action>)
    requires Inv(s) && Good(s) && LegalRun(s, run) && Sound(s, run)
    ensures Good(After(s, run))
  {
    forall fd: nat ensures GoodAt(After(s, run), fd) {
      assert GoodAt(s, fd);
      RunKeepsGoodAt(s, run, fd);
    }
  }

  lemma InitialIsGood(s: Poker)
    requires Initial(s)
    ensures Inv(s) && Good(s)
  {
    forall fd: nat ensures GoodAt(s, fd) {}
  }

  /** Descriptor 0 is open and belongs to code that is not the HAL's, as standard
      input does, until the stale slot is used. */
  ghost predicate ZeroKept(s: Poker) {
    s.stale ==> 0 in s.fds && s.fds[0].owner.Other?
  }

  lemma StepKeepsZero(s: Poker, a: Action)
    requires Inv(s) && Room(s) && Legal(s, a) && GoodAt(s, 0) && ZeroKept(s) && a != OtherClose(0)
    ensures ZeroKept(Step(s, a)) && !Hits(s, a)
  {
    if a.Run? {
      DeliverRunsThePostedEvent(s, a.n, a.o, a.p);
      assert IsTimeout(s, a.n) <==> s.history[a.n].TimeoutEvent?;
      RunEventKeepsSlots(Take(s, a.n), a.n, s.history[a.n], a.o, a.p);
    } else if a.EmptySlot? {
      EmptyKeepsOwnsAt(SlotsOf(s), a.x, 0);
      assert s.slot.Get(a.x) == 0 ==> Names(SlotsOf(s), a.x, 0) || Unset(SlotsOf(s), a.x);
    } else if a.FillSlot? {
      FillKeepsOwnsAt(SlotsOf(s), a.w, a.g, 0);
    }
  }

  /** An outside owner of descriptor 0 that does not close it rules the damage out. */
  lemma {:induction false} StandardInputMakesRunsSound(s: Poker, run: seq<Action>)
    requires Inv(s) && GoodAt(s, 0) && ZeroKept(s) && LegalRun(s, run)
    requires forall i :: 0 <= i < |run| ==> run[i] != OtherClose(0)
    ensures Sound(s, run) && ZeroKept(After(s, run))
    decreases |run|
  {
    if run != [] {
      StepKeepsZero(s, run[0]);
      StepKeepsInv(s, run[0]);
      StepKeepsGoodAt(s, run[0], 0);
      StandardInputMakesRunsSound(Step(s, run[0]), run[1..]);
    }
  }

  // ----- one request -----

  function File(ev: QueuedEvent, at: nat, n: nat, closer: nat): OpenFile
    requires ev.PmQosOpenTimedEvent?
  {
    OpenFile(ev.node, ev.val, Timed(at, ev.timeout, n, closer))
  }

  lemma PostedRequest(s: Poker, ev: QueuedEvent) returns (u: Poker)
    requires Inv(s) && |s.history| <= 1000 && ev.PmQosOpenTimedEvent?
    ensures Legal(s, Post(ev)) && Room(s) && u == Step(s, Post(ev)) && Inv(u) && Room(u)
    ensures u.now == s.now && u.history == s.history + [ev] && u.granted == s.granted && SlotsOf(u) == SlotsOf(s)
    ensures |s.history| !in s.looper && |s.history| + 1 !in s.looper
    ensures u.looper == s.looper[|s.history| := Message(s.now, s.mKey)]
  {
    u := Send(s, 0, ev);
    PostKeepsInv(s, ev);
  }

  lemma RefusedRequest(u: Poker, n: nat) returns (a: Action, v: Poker)
    requires Inv(u) && Room(u) && n in u.looper && u.looper[n].due <= u.now && u.history[n].PmQosOpenTimedEvent?
    ensures a == Run(n, OpenFailed, PipeFailed) && Legal(u, a) && v == Step(u, a) && Inv(v)
    ensures v.now == u.now && v.history == u.history && v.granted == u.granted
    ensures SlotsOf(v) == SlotsOf(u) && v.looper == u.looper - {n}
  {
    a, v := Run(n, OpenFailed, PipeFailed), Deliver(u, n, OpenFailed, PipeFailed);
    StepKeepsInv(u, a);
    DeliverRunsThePostedEvent(u, n, OpenFailed, PipeFailed);
  }

  lemma GrantedOnce(t: Poker, n: nat, ev: QueuedEvent, fd: nat)
    requires ev.PmQosOpenTimedEvent?
    ensures
      var v := RunEvent(t, n, ev, Opened(fd), PipeFailed);
      && v.now == t.now && v.history == t.history + [TimeoutEvent(fd)] && v.granted == t.granted[n := fd]
      && v.fds == t.fds[fd := File(ev, t.now, n, |t.history|)] && SlotsOf(v) == SlotsOf(t).(files := v.fds)
      && v.looper == t.looper[|t.history| := Message(t.now + ev.timeout, t.mKey)]
  {
  }

  lemma GrantedRequest(u: Poker, n: nat, fd: nat) returns (a: Action, v: Poker)
    requires Inv(u) && Room(u) && n in u.looper && u.looper[n].due <= u.now && u.history[n].PmQosOpenTimedEvent?
    requires fd !in u.fds
    ensures a == Run(n, Opened(fd), PipeFailed) && Legal(u, a) && v == Step(u, a) && Inv(v)
    ensures v.now == u.now && v.history == u.history + [TimeoutEvent(fd)] && v.granted == u.granted[n := fd]
    ensures v.fds == u.fds[fd := File(u.history[n], u.now, n, |u.history|)] && SlotsOf(v) == SlotsOf(u).(files := v.fds)
    ensures v.looper == (u.looper - {n})[|u.history| := Message(u.now + u.history[n].timeout, u.mKey)]
  {
    hide FilesInv, InRange, RunEvent;
    a, v := Run(n, Opened(fd), PipeFailed), Deliver(u, n, Opened(fd), PipeFailed);
    StepKeepsInv(u, a);
    DeliverRunsThePostedEvent(u, n, Opened(fd), PipeFailed);
    GrantedOnce(Take(u, n), n, u.history[n], fd);
  }

  // ----- queue and looper -----

  /** In every state of every run each posted event has run exactly once, as it
      was posted, or is still pending; the queue holds just the pending ones,
      each under the key of its message. */
  lemma EveryPostRunsOnceOrIsPending(s: Poker, run: seq<Action>)
    requires Initial(s) && LegalRun(s, run)
    ensures
      var t := After(s, run);
      && t.looper.Keys !! t.ran.Keys
      && (forall n: nat :: n < |t.history| <==> n in t.looper || n in t.ran)
      && (forall n :: n in t.ran ==> t.ran[n] == Entry(n, t.history[n]))
      && (forall n :: n in t.looper ==>
            t.looper[n].what in t.queued && t.queued[t.looper[n].what] == Entry(n, t.history[n]))
      && (forall k :: k in t.queued ==>
            t.queued[k].id in t.looper && t.looper[t.queued[k].id].what == k)
  {
    RunKeepsInv(s, run);
    var t := After(s, run);
    forall n | n in t.looper ensures MessageInv(t, n) && EntryInv(t, t.looper[n].what) {
      assert MessageInv(t, n);
    }
    forall k | k in t.queued ensures EntryInv(t, k) {}
  }

  /** What happens without room: when a post reuses the key of undelivered message
      n, the event of post n is in the queue no more, whichever of the two messages
      is delivered first runs the new event, and the other then finds nothing. */
  lemma CollisionLosesAnEvent(s: Poker, n: nat, ev: QueuedEvent)
    requires QueueInv(s) && n in s.looper && s.looper[n].what == s.mKey
    ensures
      var t, m := Send(s, 0, ev), |s.history|;
      && (forall k :: k in t.queued ==> t.queued[k].id != n)
      && t.looper[n].what == t.looper[m].what && t.queued[t.looper[n].what] == Entry(m, ev)
      && m in Take(t, n).looper && Take(t, n).looper[m].what !in Take(t, n).queued
      && n in Take(t, m).looper && Take(t, m).looper[n].what !in Take(t, m).queued
  {
    assert MessageInv(s, n);
    forall k | k in s.queued ensures s.queued[k].id == n ==> k == s.mKey {
      assert EntryInv(s, k);
    }
  }

  lemma RunEventFiles(t: Poker, n: nat, ev: QueuedEvent, o: OpenResult, p: PipeResult, fd: nat)
    requires fd in t.fds && Fresh(t, o, p)
    ensures !(ev.TimeoutEvent? && ev.pmQosFd == fd) <==> fd in RunEvent(t, n, ev, o, p).fds
    ensures fd in RunEvent(t, n, ev, o, p).fds ==> RunEvent(t, n, ev, o, p).fds[fd] == t.fds[fd]
  {
  }

  // ----- the intervals -----

  /** A step closes a timed file that is in order only by running that file's own
      timeout event, at or after its due time, or, if it has descriptor 0, by the
      first use of the stale slot. */
  lemma ClosedOnlyByItsTimeout(s: Poker, a: Action, fd: nat)
    requires Inv(s) && Room(s) && Legal(s, a) && IsTimed(s, fd) && GoodAt(s, fd)
    ensures fd !in Step(s, a).fds <==> (a.Run? && a.n == s.fds[fd].owner.closer) || (Strays(s, a) && fd == 0)
    ensures fd in Step(s, a).fds ==> Step(s, a).fds[fd] == s.fds[fd]
    ensures a.Run? && fd !in Step(s, a).fds ==> s.now >= s.fds[fd].owner.openedAt + s.fds[fd].owner.timeout
  {
    assert FileInv(s, fd);
    if a.Run? {
      DeliverRunsThePostedEvent(s, a.n, a.o, a.p);
      RunEventFiles(Take(s, a.n), a.n, s.history[a.n], a.o, a.p, fd);
      assert IsTimeout(s, a.n) <==> s.history[a.n].TimeoutEvent?;
      assert IsTimeout(s, s.fds[fd].owner.closer);
    } else if a.EmptySlot? {
      EmptyKeepsOwnsAt(SlotsOf(s), a.x, fd);
      assert s.slot.Get(a.x) == fd ==> Names(SlotsOf(s), a.x, fd) || Unset(SlotsOf(s), a.x);
    } else if a.FillSlot? {
      FillKeepsOwnsAt(SlotsOf(s), a.w, a.g, fd);
    }
  }

  lemma {:induction false} TimeMovesForward(s: Poker, run: seq<Action>)
    requires LegalRun(s, run)
    ensures s.now <= After(s, run).now
    decreases |run|
  {
    if run != [] {
      TimeMovesForward(Step(s, run[0]), run[1..]);
    }
  }

  /** No timed file is open for the request of post `origin`. */
  ghost predicate Gone(s: Poker, origin: nat) {
    origin in s.ran && forall fd :: IsTimed(s, fd) ==> s.fds[fd].owner.origin != origin
  }

  lemma RunEventOrigins(t: Poker, n: nat, ev: QueuedEvent, o: OpenResult, p: PipeResult, fd: nat)
    requires IsTimed(RunEvent(t, n, ev, o, p), fd)
    ensures
      || (IsTimed(t, fd) && t.fds[fd] == RunEvent(t, n, ev, o, p).fds[fd])
      || RunEvent(t, n, ev, o, p).fds[fd].owner.origin == n
  {
  }

  lemma StepKeepsGone(s: Poker, a: Action, origin: nat)
    requires QueueInv(s) && Room(s) && Legal(s, a) && Gone(s, origin)
    ensures Gone(Step(s, a), origin)
  {
    var t := Step(s, a);
    if a.Run? {
      DeliverRunsThePostedEvent(s, a.n, a.o, a.p);
      var u := Take(s, a.n);
      assert t.ran == u.ran by {
      }
      forall fd | IsTimed(t, fd) ensures t.fds[fd].owner.origin != origin {
        RunEventOrigins(u, a.n, s.history[a.n], a.o, a.p, fd);
        assert IsTimed(u, fd) ==> IsTimed(s, fd);
      }
    }
  }

  /** A request whose file has been closed never has a file again. */
  lemma {:induction false} ClosedForGood(s: Poker, run: seq<Action>, origin: nat)
    requires Inv(s) && LegalRun(s, run) && Gone(s, origin)
    ensures Gone(After(s, run), origin)
    decreases |run|
  {
    if run != [] {
      StepKeepsGone(s, run[0], origin);
      StepKeepsInv(s, run[0]);
      ClosedForGood(Step(s, run[0]), run[1..], origin);
    }
  }

  lemma ClosingIsGone(s: Poker, a: Action)
    requires Inv(s) && Room(s) && Legal(s, a) && IsTimed(s, 0) && Strays(s, a)
    ensures Gone(Step(s, a), s.fds[0].owner.origin)
  {
    assert FileInv(s, 0);
    EmptyIsClose(s);
    forall gd | IsTimed(Step(s, a), gd) ensures s.fds[gd].owner.origin != s.fds[0].owner.origin {
      assert FileInv(s, gd);
    }
  }

  lemma EmptyIsClose(s: Poker)
    requires InRange(SlotsOf(s)) && s.stale
    ensures Step(s, EmptySlot(CamMaxOnlineCpus)).fds == s.fds - {0}
    ensures Step(s, EmptySlot(CamMaxOnlineCpus)).ran == s.ran
  {
  }

  lemma StaleStays(s: Poker, a: Action)
    requires Legal(s, a) && InRange(SlotsOf(s)) && QueueInv(s) && Room(s)
    ensures Step(s, a).stale == (s.stale && a != EmptySlot(CamMaxOnlineCpus))
  {
    if a.Run? {
      DeliverRunsThePostedEvent(s, a.n, a.o, a.p);
      RunEventKeepsSlots(Take(s, a.n), a.n, s.history[a.n], a.o, a.p);
    } else if a.EmptySlot? || a.FillSlot? {
      SlotStepFiles(s, a);
    }
  }

  /** Until its timeout a timed file that is in order keeps its descriptor, its value
      and its owner, under every legal schedule of looper and slots, if and only if it
      is not the file with descriptor 0 in a run that first uses the stale slot. */
  lemma {:induction false} OpenThroughoutItsInterval(s: Poker, run: seq<Action>, fd: nat)
    requires Inv(s) && LegalRun(s, run) && IsTimed(s, fd) && GoodAt(s, fd)
    requires After(s, run).now < s.fds[fd].owner.openedAt + s.fds[fd].owner.timeout
    ensures fd in After(s, run).fds && After(s, run).fds[fd] == s.fds[fd] <==>
            !(fd == 0 && s.stale && EmptySlot(CamMaxOnlineCpus) in run)
    decreases |run|
  {
    if run != [] {
      var a := run[0];
      var t := Step(s, a);
      TimeMovesForward(s, run);
      TimeMovesForward(t, run[1..]);
      StepKeepsInv(s, a);
      StaleStays(s, a);
      var stray := EmptySlot(CamMaxOnlineCpus);
      assert stray in run <==> a == stray || stray in run[1..];
      if Strays(s, a) && fd == 0 {
        ClosingIsGone(s, a);
        ClosedForGood(t, run[1..], s.fds[fd].owner.origin);
        assert IsTimed(After(s, run), fd) ==> After(s, run).fds[fd].owner.origin != s.fds[fd].owner.origin;
      } else {
        ClosedOnlyByItsTimeout(s, a, fd);
        StepKeepsGoodAt(s, a, fd);
        OpenThroughoutItsInterval(t, run[1..], fd);
      }
    }
  }

  /** A request that the kernel grants is open at once, for the time asked, and
      its timeout event is the only one for its descriptor. */
  lemma GrantedRequestOpens(s: Poker, n: nat, fd: nat, p: PipeResult)
    requires Inv(s) && Room(s) && Legal(s, Run(n, Opened(fd), p)) && GoodAt(s, fd)
    requires s.history[n].PmQosOpenTimedEvent?
    ensures
      var t := Deliver(s, n, Opened(fd), p);
      && fd in t.fds && t.fds[fd].node == s.history[n].node && t.fds[fd].val == s.history[n].val
      && t.fds[fd].owner == Timed(s.now, s.history[n].timeout, n, |s.history|)
      && t.granted == s.granted[n := fd] && GoodAt(t, fd)
  {
    DeliverRunsThePostedEvent(s, n, Opened(fd), p);
    DeliverKeepsMatched(s, n, Opened(fd), p, fd);
    DeliverKeepsOwns(s, n, Opened(fd), p, fd);
  }

  /** Every open timed file has its own pending timeout event, so a drained queue
      leaves no timed file open; and in a sound run every pending timeout event has
      its file, so the two are in bijection. */
  lemma TimedFilesMatchTimeouts(s: Poker, run: seq<Action>)
    requires Initial(s) && LegalRun(s, run)
    ensures
      var t := After(s, run);
      && (forall fd :: IsTimed(t, fd) ==>
            var n := t.fds[fd].owner.closer; n in t.looper && IsTimeout(t, n) && t.history[n].pmQosFd == fd)
      && (t.looper == map[] ==> forall fd :: !IsTimed(t, fd))
    ensures Sound(s, run) ==>
      var t := After(s, run);
      forall n :: n in t.looper && IsTimeout(t, n) ==>
        var fd := t.history[n].pmQosFd; IsTimed(t, fd) && t.fds[fd].owner.closer == n
  {
    RunKeepsInv(s, run);
    var t := After(s, run);
    forall fd | IsTimed(t, fd) ensures FileInv(t, fd) {}
    if Sound(s, run) {
      InitialIsGood(s);
      SoundRunsKeepGood(s, run);
      forall n | n in t.looper && IsTimeout(t, n) ensures GoodAt(t, t.history[n].pmQosFd) {}
    }
  }
}

/** The slots over whole runs of the process: what they hold, what they close
    astray, and that descriptor 0 alone decides whether anything can go wrong. */
module SlotRuns {
  import opened Common
  import opened Descriptors
  import opened FdSlots
  import opened TimeoutPoker
  import opened TimeoutPokerRuns

  lemma {:induction false} SplitRun(s: Poker, run: seq<Action>)
    requires run != [] && LegalRun(s, run)
    ensures
      var init, last := run[..|run| - 1], run[|run| - 1];
      && LegalRun(s, init) && Legal(After(s, init), last) && Room(After(s, init))
      && After(s, run) == Step(After(s, init), last)
      && (Sound(s, run) <==> Sound(s, init) && !Hits(After(s, init), last))
    decreases |run|
  {
    if |run| > 1 {
      SplitRun(Step(s, run[0]), run[1..]);
      assert run[1..][..|run| - 2] == run[..|run| - 1][1..];
    }
  }

  /** The steps of one call of a setter or of the reset. */
  function OpSteps(op: Op, g: OpenResult): seq<Action> {
    if op.ResetCamera? then EmptySteps(RESET_SLOTS)
    else if Wanted(op).Some? then [EmptySlot(Wanted(op).value.name), FillSlot(Wanted(op).value, g)]
    else []
  }

  lemma AfterFirst(s: Poker, run: seq<Action>)
    requires run != [] && LegalRun(s, run)
    ensures LegalRun(Step(s, run[0]), run[1..]) && After(s, run) == After(Step(s, run[0]), run[1..])
  {
  }

  /** Undisturbed, those steps are the call. */
  lemma OpIsItsSteps(s: Poker, op: Op, g: OpenResult)
    requires LegalRun(s, OpSteps(op, g))
    ensures SlotsOf(After(s, OpSteps(op, g))) == Apply(SlotsOf(s), op, g)
  {
    var run := OpSteps(op, g);
    if op.ResetCamera? {
      EmptiesAreSteps(s, RESET_SLOTS);
    } else if Wanted(op).Some? {
      AfterFirst(s, run);
      assert run[1..] == [FillSlot(Wanted(op).value, g)] && run[1..][1..] == [];
      AfterFirst(Step(s, run[0]), run[1..]);
    }
  }

  function EmptySteps(xs: seq<Name>): seq<Action> {
    seq(|xs|, i requires 0 <= i < |xs| => EmptySlot(xs[i]))
  }

  lemma {:induction false} EmptiesAreSteps(s: Poker, xs: seq<Name>)
    requires LegalRun(s, EmptySteps(xs))
    ensures SlotsOf(After(s, EmptySteps(xs))) == EmptyAll(SlotsOf(s), xs)
    decreases |xs|
  {
    if xs != [] {
      AfterFirst(s, EmptySteps(xs));
      assert EmptySteps(xs)[1..] == EmptySteps(xs[1..]);
      EmptiesAreSteps(Step(s, EmptySlot(xs[0])), xs[1..]);
    }
  }

  /** Steps of the looper and of other code leave the slots' numbers alone. */
  lemma OtherStepsKeepSlots(s: Poker, a: Action)
    requires QueueInv(s) && Room(s) && Legal(s, a) && !a.EmptySlot? && !a.FillSlot?
    ensures Step(s, a).slot == s.slot && Step(s, a).stale == s.stale && Step(s, a).stray == s.stray
  {
    if a.Run? {
      DeliverRunsThePostedEvent(s, a.n, a.o, a.p);
      RunEventKeepsSlots(Take(s, a.n), a.n, s.history[a.n], a.o, a.p);
    }
  }

  // ----- what a slot holds -----

  /** The request a slot should hold after a run, from the steps on that slot alone:
      what its last filling asked for if that was granted, and nothing once emptied. */
  function Expected(run: seq<Action>, x: Name): Option<Want> {
    if run == [] then None
    else
      var a := run[|run| - 1];
      if a == EmptySlot(x) then None
      else if a.FillSlot? && a.w.name == x then if a.g.Opened? then Some(a.w) else None
      else Expected(run[..|run| - 1], x)
  }

  /** A file of a slot stays as it is, unless the slot is emptied or the file hit. */
  lemma StepKeepsSlotFile(s: Poker, a: Action, fd: nat)
    requires Inv(s) && Room(s) && Legal(s, a) && GoodAt(s, fd) && fd in s.fds && s.fds[fd].owner.Slot?
    requires a != EmptySlot(s.fds[fd].owner.name) && !(Hits(s, a) && fd == 0)
    ensures fd in Step(s, a).fds && Step(s, a).fds[fd] == s.fds[fd]
  {
    if a.Run? {
      DeliverRunsThePostedEvent(s, a.n, a.o, a.p);
      assert IsTimeout(s, a.n) <==> s.history[a.n].TimeoutEvent?;
      RunEventFiles(Take(s, a.n), a.n, s.history[a.n], a.o, a.p, fd);
    } else if a.EmptySlot? {
      EmptyKeepsOwnsAt(SlotsOf(s), a.x, fd);
      assert s.slot.Get(a.x) == fd && !Unset(SlotsOf(s), a.x) ==> Names(SlotsOf(s), a.x, fd);
    } else if a.FillSlot? {
      FillKeepsOwnsAt(SlotsOf(s), a.w, a.g, fd);
    }
  }

  lemma OtherStepHolding(s: Poker, a: Action, x: Name)
    requires Inv(s) && Room(s) && Legal(s, a) && !a.EmptySlot? && !a.FillSlot?
    requires s.slot.Get(x) >= 0 && !Unset(SlotsOf(s), x) ==> GoodAt(s, s.slot.Get(x))
    ensures Holding(SlotsOf(Step(s, a)), x) == Holding(SlotsOf(s), x)
  {
    OtherStepsKeepSlots(s, a);
    if s.slot.Get(x) >= 0 && !Unset(SlotsOf(s), x) {
      assert Names(SlotsOf(s), x, s.slot.Get(x));
      StepKeepsSlotFile(s, a, s.slot.Get(x));
    }
  }

  /** What one step does to what a slot holds, as long as 0 is not hit in its hands. */
  lemma StepHolding(s: Poker, a: Action, x: Name)
    requires Inv(s) && Room(s) && Legal(s, a)
    requires s.slot.Get(x) >= 0 && !Unset(SlotsOf(s), x) ==> GoodAt(s, s.slot.Get(x))
    requires Hits(s, a) ==> s.slot.Get(x) != 0 || a == EmptySlot(x)
    ensures
      Holding(SlotsOf(Step(s, a)), x) ==
        if a == EmptySlot(x) then None
        else if a.FillSlot? && a.w.name == x then if a.g.Opened? then Some(a.w) else None
        else Holding(SlotsOf(s), x)
  {
    if a.EmptySlot? {
      assert SlotsOf(Step(s, a)) == Empty(SlotsOf(s), a.x);
      if a.x != x {
        EmptyHolding(SlotsOf(s), a.x, x);
      }
    } else if a.FillSlot? {
      assert SlotsOf(Step(s, a)) == Fill(SlotsOf(s), a.w, a.g);
      FillHolding(SlotsOf(s), a.w, a.g, x);
    } else {
      OtherStepHolding(s, a, x);
    }
  }

  lemma StepSlotNumber(s: Poker, a: Action, x: Name)
    requires Inv(s) && Room(s) && Legal(s, a)
    ensures
      Step(s, a).slot.Get(x) ==
        if a == EmptySlot(x) then -1
        else if a.FillSlot? && a.w.name == x then if a.g.Opened? then a.g.fd else -1
        else s.slot.Get(x)
  {
    if !a.EmptySlot? && !a.FillSlot? {
      OtherStepsKeepSlots(s, a);
    }
  }

  /** After every run from start-up each slot holds just what the steps on it say,
      unless it names descriptor 0 in a run in which 0 was hit. */
  lemma {:induction false} SlotsHoldTheLastRequest(s: Poker, run: seq<Action>, x: Name)
    requires Initial(s) && LegalRun(s, run) && (After(s, run).slot.Get(x) == 0 ==> Sound(s, run))
    ensures Holding(SlotsOf(After(s, run)), x) == Expected(run, x)
    decreases |run|
  {
    InitialIsGood(s);
    if run != [] {
      var init, a := run[..|run| - 1], run[|run| - 1];
      SplitRun(s, run);
      RunKeepsInv(s, init);
      var t := After(s, init);
      StepSlotNumber(t, a, x);
      var fd := t.slot.Get(x);
      if a == EmptySlot(x) || (a.FillSlot? && a.w.name == x) {
        FilledOrEmptied(t, a, x);
      } else {
        SlotsHoldTheLastRequest(s, init, x);
        if fd >= 0 {
          assert GoodAt(s, fd);
          RunKeepsGoodAt(s, init, fd);
        }
        StepHolding(t, a, x);
      }
    }
  }

  lemma FilledOrEmptied(s: Poker, a: Action, x: Name)
    requires Inv(s) && Legal(s, a) && (a == EmptySlot(x) || (a.FillSlot? && a.w.name == x))
    ensures Holding(SlotsOf(Step(s, a)), x) == if a.FillSlot? && a.g.Opened? then Some(a.w) else None
  {
  }

  /** The last step on slot x emptied it. */
  predicate EmptiedLast(run: seq<Action>, x: Name) {
    run != [] &&
    var a := run[|run| - 1];
    a == EmptySlot(x) || (!(a.FillSlot? && a.w.name == x) && EmptiedLast(run[..|run| - 1], x))
  }

  lemma {:induction false} EmptiedIsMinusOne(s: Poker, run: seq<Action>, x: Name)
    requires Initial(s) && LegalRun(s, run) && EmptiedLast(run, x)
    ensures After(s, run).slot.Get(x) == -1
    decreases |run|
  {
    InitialIsGood(s);
    var init, a := run[..|run| - 1], run[|run| - 1];
    SplitRun(s, run);
    RunKeepsInv(s, init);
    StepSlotNumber(After(s, init), a, x);
    if a != EmptySlot(x) {
      EmptiedIsMinusOne(s, init, x);
    }
  }

  /** After a reset, with whatever the looper did in between, the four slots are -1
      and none of their requests is left open, save descriptor 0 in an unsound run. */
  lemma ResetLeavesNothingOpen(s: Poker, run: seq<Action>)
    requires Initial(s) && LegalRun(s, run) && forall x: Name :: x in RESET_SLOTS ==> EmptiedLast(run, x)
    ensures
      var t := After(s, run);
      && (forall x: Name :: x in RESET_SLOTS ==> t.slot.Get(x) == -1)
      && (forall fd :: fd in t.fds && t.fds[fd].owner.Slot? && t.fds[fd].owner.name in RESET_SLOTS ==>
            fd == 0 && !Sound(s, run))
  {
    InitialIsGood(s);
    var t := After(s, run);
    forall x: Name | x in RESET_SLOTS ensures t.slot.Get(x) == -1 {
      EmptiedIsMinusOne(s, run, x);
    }
    forall fd | fd in t.fds && t.fds[fd].owner.Slot? && t.fds[fd].owner.name in RESET_SLOTS
      ensures fd == 0 && !Sound(s, run)
    {
      if fd != 0 || Sound(s, run) {
        assert GoodAt(s, fd);
        RunKeepsGoodAt(s, run, fd);
        assert false;
      }
    }
  }

  // ----- what goes astray -----

  lemma StepStrays(s: Poker, a: Action)
    requires Inv(s) && Room(s) && Legal(s, a)
    requires a.EmptySlot? && s.slot.Get(a.x) >= 0 ==> GoodAt(s, s.slot.Get(a.x))
    ensures Step(s, a).stray == if Strays(s, a) then s.stray + [0] else s.stray
  {
    if a.EmptySlot? {
      assert Unset(SlotsOf(s), a.x) ==> OwnsAt(SlotsOf(s), 0);
      EmptyStrays(SlotsOf(s), a.x);
    } else if !a.FillSlot? {
      OtherStepsKeepSlots(s, a);
    }
  }

  lemma GoodStepStrays(s: Poker, a: Action)
    requires Inv(s) && Room(s) && Legal(s, a) && Good(s)
    ensures Step(s, a).stray == if Strays(s, a) then s.stray + [0] else s.stray
    ensures Step(s, a).stale == (s.stale && a != EmptySlot(CamMaxOnlineCpus))
  {
    if a.EmptySlot? && s.slot.Get(a.x) >= 0 {
      assert GoodAt(s, s.slot.Get(a.x));
    }
    StepStrays(s, a);
    StaleStays(s, a);
  }

  lemma StrayStep(s: Poker, a: Action)
    requires Inv(s) && Room(s) && Legal(s, a) && (forall fd: nat :: fd != 0 ==> GoodAt(s, fd))
    ensures Step(s, a).stray == s.stray || Step(s, a).stray == s.stray + [0]
  {
    if a.EmptySlot? && s.slot.Get(a.x) == 0 {
    } else {
      StepStrays(s, a);
    }
  }

  /** In every run only descriptor 0 is ever closed by a slot that does not own it. */
  lemma {:induction false} OnlyZeroGoesAstray(s: Poker, run: seq<Action>)
    requires Initial(s) && LegalRun(s, run)
    ensures forall i :: 0 <= i < |After(s, run).stray| ==> After(s, run).stray[i] == 0
    decreases |run|
  {
    InitialIsGood(s);
    if run != [] {
      var init, a := run[..|run| - 1], run[|run| - 1];
      SplitRun(s, run);
      OnlyZeroGoesAstray(s, init);
      RunKeepsInv(s, init);
      forall fd: nat | fd != 0 ensures GoodAt(After(s, init), fd) {
        assert GoodAt(s, fd);
        RunKeepsGoodAt(s, init, fd);
      }
      StrayStep(After(s, init), a);
    }
  }

  /** And in a sound run that happens once, when the stale slot is first used. */
  lemma {:induction false} OneStrayCloseAtMost(s: Poker, run: seq<Action>)
    requires Initial(s) && LegalRun(s, run) && Sound(s, run)
    ensures After(s, run).stray == if EmptySlot(CamMaxOnlineCpus) in run then [0] else []
    ensures After(s, run).stale <==> EmptySlot(CamMaxOnlineCpus) !in run
    decreases |run|
  {
    if run != [] {
      var init, a := run[..|run| - 1], run[|run| - 1];
      SplitRun(s, run);
      OneStrayCloseAtMost(s, init);
      InitialIsGood(s);
      RunKeepsInv(s, init);
      SoundRunsKeepGood(s, init);
      GoodStepStrays(After(s, init), a);
      assert run == init + [a];
    }
  }

  // ----- descriptor 0 decides -----

  lemma {:induction false} StepLast(s: Poker, run: seq<Action>, a: Action)
    requires LegalRun(s, run) && Room(After(s, run)) && Legal(After(s, run), a)
    ensures LegalRun(s, run + [a]) && After(s, run + [a]) == Step(After(s, run), a)
    decreases |run|
  {
    if run == [] {
      assert run + [a] == [a] && [a][1..] == [];
    } else {
      StepLast(Step(s, run[0]), run[1..], a);
      assert (run + [a])[1..] == run[1..] + [a];
    }
  }

  lemma ZeroGranted(s: Poker, ev: QueuedEvent) returns (run: seq<Action>)
    requires Initial(s) && 0 !in s.fds && ev.PmQosOpenTimedEvent?
    ensures LegalRun(s, run) && OtherClose(0) !in run
    ensures
      var t := After(s, run);
      Inv(t) && Room(t) && Good(t) && t.stale && IsTimed(t, 0)
  {
    InitialIsGood(s);
    var t := PostedRequest(s, ev);
    StepKeepsGood(s, Post(ev));
    StepLast(s, [], Post(ev));
    var a, u := GrantedRequest(t, 0, 0);
    StepKeepsGood(t, a);
    StepLast(s, [] + [Post(ev)], a);
    run := [] + [Post(ev)] + [a];
  }

  /** A request that is granted descriptor 0, and the first use of the stale slot. */
  lemma HitRun(s: Poker, ev: QueuedEvent) returns (run: seq<Action>)
    requires Initial(s) && 0 !in s.fds && ev.PmQosOpenTimedEvent?
    ensures LegalRun(s, run) && OtherClose(0) !in run && !Good(After(s, run))
  {
    run := ZeroGranted(s, ev);
    StepKeepsGood(After(s, run), EmptySlot(CamMaxOnlineCpus));
    StepLast(s, run, EmptySlot(CamMaxOnlineCpus));
    run := run + [EmptySlot(CamMaxOnlineCpus)];
  }

  /** From start-up, everybody who counts on a descriptor has it, in every run that
      leaves an outside owner of descriptor 0 alone, if and only if there is one. */
  lemma ZeroDecides(s: Poker)
    requires Initial(s)
    ensures (forall run :: LegalRun(s, run) && OtherClose(0) !in run ==> Good(After(s, run))) <==> 0 in s.fds
  {
    InitialIsGood(s);
    if 0 in s.fds {
      forall run | LegalRun(s, run) && OtherClose(0) !in run ensures Good(After(s, run)) {
        assert GoodAt(s, 0);
        StandardInputMakesRunsSound(s, run);
        SoundRunsKeepGood(s, run);
      }
    } else {
      var ev := PmQosOpenTimedEvent("/dev/cpu_freq_min", 0, 1);
      var run := HitRun(s, ev);
    }
  }
}

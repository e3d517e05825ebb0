/** The boost is gap-free in every run, whatever the slots do, exactly when
    descriptor 0 is open at start-up and stays with its outside owner. */
module HintGap {
  import opened Descriptors
  import opened FdSlots
  import opened TimeoutPoker
  import opened TimeoutPokerRuns
  import opened Hints
  import opened PowerHint
  import opened HintEngine
  import opened HintBound

  /** What one event adds to the hypotheses of a gap-free run, and to its claim. */
  lemma EventFirst(e: Engine, cfg: Config, a: Event, rest: seq<Event>, gap: nat, r: QueuedEvent)
    requires ELegal(e, a) && LegalEvents(EStep(e, cfg, a), cfg, rest) && r.PmQosOpenTimedEvent?
    requires AlwaysGrants(EStep(e, cfg, a), cfg, rest) && HintsWithin(EStep(e, cfg, a), cfg, rest, gap)
    requires a.Proc? ==> Grants(e.poker, a.a)
    requires a.Arrive? && a.h == e.focus && e.accepts != [] ==> e.poker.now <= e.lastArrival + gap
    ensures LegalEvents(e, cfg, [a] + rest) && AlwaysGrants(e, cfg, [a] + rest) && HintsWithin(e, cfg, [a] + rest, gap)
    ensures NoGap(e, cfg, r, [a] + rest) ==> NoGap(EStep(e, cfg, a), cfg, r, rest)
    ensures ESound(e, cfg, [a] + rest) ==> (a.Proc? ==> !Hits(e.poker, a.a)) && ESound(EStep(e, cfg, a), cfg, rest)
  {
    assert ([a] + rest)[0] == a && ([a] + rest)[1..] == rest;
  }

  /** The same for a run in which requests are granted. */
  predicate Granting(run: seq<Event>) {
    forall i :: 0 <= i < |run| ==> run[i].Proc? && run[i].a.Run? && run[i].a.o.Opened?
  }

  lemma {:induction false} GrantsFirst(
    e: Engine, cfg: Config, run: seq<Event>, t: Engine, rest: seq<Event>, gap: nat, r: QueuedEvent)
    requires ELeads(e, cfg, run, t) && Granting(run) && LegalEvents(t, cfg, rest) && r.PmQosOpenTimedEvent?
    requires AlwaysGrants(t, cfg, rest) && HintsWithin(t, cfg, rest, gap)
    ensures LegalEvents(e, cfg, run + rest) && AlwaysGrants(e, cfg, run + rest) && HintsWithin(e, cfg, run + rest, gap)
    ensures NoGap(e, cfg, r, run + rest) ==> NoGap(t, cfg, r, rest)
    decreases |run|
  {
    hide EStep;
    if run == [] {
      assert run + rest == rest;
    } else {
      assert run[0].Proc? && run[0].a.Run? && run[0].a.o.Opened?;
      GrantsFirst(EStep(e, cfg, run[0]), cfg, run[1..], t, rest, gap, r);
      EventFirst(e, cfg, run[0], run[1..] + rest, gap, r);
      assert run + rest == [run[0]] + (run[1..] + rest);
    }
  }

  lemma {:induction false} FreeDescriptor(keys: set<nat>) returns (fd: nat)
    ensures fd > 0 && forall k :: k in keys ==> k < fd
    decreases |keys|
  {
    if keys == {} {
      fd := 1;
    } else {
      var m :| m in keys;
      var n := FreeDescriptor(keys - {m});
      fd := if m < n then n else m + 1;
      assert forall k :: k in keys ==> k == m || k in keys - {m};
    }
  }

  // ----- every request of a hint is granted, the k-th descriptor 0 -----

  predicate Like(file: OpenFile, ev: QueuedEvent) {
    && ev.PmQosOpenTimedEvent? && file.owner.Timed?
    && file.node == ev.node && file.val == ev.val && file.owner.timeout == ev.timeout
  }

  /** q requests of a hint accepted in state s are open; only the k-th, with
      descriptor 0, is of its kind. */
  ghost predicate Granted(u: Poker, s: Poker, evs: seq<QueuedEvent>, k: nat, q: nat)
    requires k < |evs| && AllTimed(evs)
  {
    var first, L := |s.history|, |evs|;
    && u.now == s.now && q <= L && |u.history| == first + L + q && u.slot == s.slot && u.stale == s.stale
    && (forall n :: first + q <= n < first + L ==>
          n in u.looper && u.looper[n].due == s.now && u.history[n] == evs[n - first])
    && (forall n :: n in u.looper ==> first + q <= n < first + L || u.looper[n].due > s.now)
    && (0 in u.fds <==> q > k)
    && (forall fd :: fd in u.fds && fd != 0 ==> !Like(u.fds[fd], evs[k]))
  }

  lemma GrantedStep(u: Poker, v: Poker, s: Poker, evs: seq<QueuedEvent>, k: nat, q: nat, fd: nat, what: Key)
    requires k < |evs| && AllTimed(evs) && Granted(u, s, evs, k, q) && q < |evs|
    requires evs[q].timeout > 0 && (q != k ==> evs[q] != evs[k]) && (fd == 0 <==> q == k)
    requires v.now == u.now && v.history == u.history + [TimeoutEvent(fd)] && v.slot == u.slot && v.stale == u.stale
    requires v.fds == u.fds[fd := File(evs[q], u.now, |s.history| + q, |u.history|)]
    requires v.looper == (u.looper - {|s.history| + q})[|u.history| := Message(u.now + evs[q].timeout, what)]
    ensures Granted(v, s, evs, k, q + 1)
  {
  }

  lemma GrantedIsReady(u: Poker, s: Poker, evs: seq<QueuedEvent>, k: nat, q: nat)
    requires k < |evs| <= 5 && AllTimed(evs) && Granted(u, s, evs, k, q) && q < |evs| && |s.history| <= 100
    ensures
      var n := |s.history| + q;
      && Room(u) && Spacious(u) && n in u.looper && u.looper[n].due <= u.now
      && n < |u.history| && u.history[n] == evs[q] && (q == k ==> 0 !in u.fds)
  {
  }

  lemma GrantOne(u: Poker, s: Poker, evs: seq<QueuedEvent>, k: nat, q: nat, fd: nat) returns (a: Action, v: Poker)
    requires k < |evs| <= 5 && AllTimed(evs) && Inv(u) && Granted(u, s, evs, k, q) && q < |evs| && |s.history| <= 100
    requires evs[q].timeout > 0 && (q != k ==> evs[q] != evs[k]) && (fd == 0 <==> q == k) && fd !in u.fds
    ensures Spacious(u) && a.Run? && a.o.Opened? && Legal(u, a) && v == Step(u, a)
    ensures Inv(v) && Granted(v, s, evs, k, q + 1)
  {
    hide Step, Legal, Inv, Granted;
    GrantedIsReady(u, s, evs, k, q);
    a, v := GrantedRequest(u, |s.history| + q, fd);
    GrantedStep(u, v, s, evs, k, q, fd, u.mKey);
  }

  /** Descriptor 0 for the k-th request, and another free one for every other. */
  lemma ChooseDescriptor(u: Poker, s: Poker, evs: seq<QueuedEvent>, k: nat, q: nat) returns (fd: nat)
    requires k < |evs| && AllTimed(evs) && Granted(u, s, evs, k, q) && q < |evs|
    ensures (fd == 0 <==> q == k) && fd !in u.fds
  {
    fd := 0;
    if q != k {
      fd := FreeDescriptor(u.fds.Keys);
    }
  }

  lemma {:induction false} GrantAll(e: Engine, cfg: Config, s: Poker, evs: seq<QueuedEvent>, k: nat, q: nat)
    returns (run: seq<Event>, t: Engine)
    requires k < |evs| <= 5 && AllTimed(evs) && Inv(e.poker) && Granted(e.poker, s, evs, k, q) && |s.history| <= 100
    requires forall i :: 0 <= i < |evs| ==> evs[i].timeout > 0 && (i != k ==> evs[i] != evs[k])
    ensures ELeads(e, cfg, run, t) && Granting(run) && Inv(t.poker) && Granted(t.poker, s, evs, k, |evs|)
    ensures t == e.(poker := t.poker)
    decreases |evs| - q
  {
    hide Step, Legal, Inv, Spacious;
    if q == |evs| {
      run, t := [], e;
    } else {
      var fd := ChooseDescriptor(e.poker, s, evs, k, q);
      var a, v := GrantOne(e.poker, s, evs, k, q, fd);
      ELeadsOnce(e, cfg, Proc(a));
      var more;
      more, t := GrantAll(e.(poker := v), cfg, s, evs, k, q + 1);
      run := [Proc(a)] + more;
      ELeadsOn(e, cfg, [Proc(a)], e.(poker := v), more, t);
    }
  }

  // ----- the gap -----

  /** No hint makes the same request twice. */
  lemma RequestsDiffer(cfg: Config, h: Hint)
    ensures |Requests(cfg, h)| <= 5 && AllTimed(Requests(cfg, h)) && AllRequests(cfg, h, OTHER) == Requests(cfg, h)
    ensures forall i :: 0 <= i < |Requests(cfg, h)| ==> Requests(cfg, h)[i].timeout > 0
    ensures forall i, j :: 0 <= i < j < |Requests(cfg, h)| ==> Requests(cfg, h)[i] != Requests(cfg, h)[j]
    ensures Requests(cfg, h) != [] ==> !h.OUT_OF_RANGE?
  {
  }

  lemma FirstPosts(s: Poker, evs: seq<QueuedEvent>, k: nat)
    requires Initial(s) && k < |evs| <= 5 && AllTimed(evs) && 0 !in s.fds
    ensures Inv(PostAll(s, evs)) && Granted(PostAll(s, evs), s, evs, k, 0)
  {
    hide Inv;
    InitialIsGood(s);
    PostAllAppends(s, evs);
    PostAllKeepsInv(s, evs);
    PostAllKeepsSlots(s, evs);
  }

  lemma FirstHint(e: Engine, cfg: Config, k: nat)
    requires EInitial(e) && k < |Requests(cfg, e.focus)| && 0 !in e.poker.fds
    ensures AllTimed(Requests(cfg, e.focus)) && ELegal(e, Arrive(e.focus, OTHER))
    ensures
      var t := EStep(e, cfg, Arrive(e.focus, OTHER));
      && Inv(t.poker) && Granted(t.poker, e.poker, Requests(cfg, e.focus), k, 0)
      && t.focus == e.focus && t.accepts != [] && t.lastArrival == e.poker.now
  {
    hide Inv, Granted, PostAll, Requests, AllRequests;
    RequestsDiffer(cfg, e.focus);
    FirstPosts(e.poker, Requests(cfg, e.focus), k);
  }

  /** After its requests have been granted, the first use of the stale slot leaves
      none like the k-th, and time can pass. */
  lemma LostBoost(t: Engine, s: Poker, evs: seq<QueuedEvent>, k: nat)
    requires k < |evs| <= 5 && AllTimed(evs) && InRange(SlotsOf(t.poker)) && Granted(t.poker, s, evs, k, |evs|)
    requires |s.history| <= 100 && s.slot == EMPTY && s.stale
    ensures
      var stray := EmptySlot(CamMaxOnlineCpus);
      && Spacious(t.poker) && Legal(t.poker, stray) && !Boosted(Step(t.poker, stray), evs[k])
      && var u := Step(t.poker, stray);
         Spacious(u) && Prompt(u, Advance(1)) && u.now == s.now && Spacious(Step(u, Advance(1)))
  {
    EmptyIsClose(t.poker);
  }

  /** From every start-up at which descriptor 0 is free, for every line of the hint
      code: a prompt run, all requests granted, two hints a nanosecond apart, nothing
      of other code closed, with a gap between them. */
  lemma StrayCloseMakesAGap(e: Engine, cfg: Config, k: nat) returns (run: seq<Event>)
    requires EInitial(e) && k < |Requests(cfg, e.focus)| && 0 !in e.poker.fds
    ensures LegalEvents(e, cfg, run) && AlwaysGrants(e, cfg, run) && HintsWithin(e, cfg, run, 1)
    ensures Proc(OtherClose(0)) !in run && Requests(cfg, e.focus)[k].PmQosOpenTimedEvent?
    ensures !NoGap(e, cfg, Requests(cfg, e.focus)[k], run)
  {
    hide EStep, ELegal, Step, Legal;
    RequestsDiffer(cfg, e.focus);
    FirstHint(e, cfg, k);
    var evs, hint := Requests(cfg, e.focus), Arrive(e.focus, OTHER);
    var e1 := EStep(e, cfg, hint);
    var grants, e2 := GrantAll(e1, cfg, e.poker, evs, k, 0);
    LostBoost(e2, e.poker, evs, k);
    var tail := GapTail(e2, cfg, evs[k]);
    GrantsFirst(e1, cfg, grants, e2, tail, 1, evs[k]);
    EventFirst(e, cfg, hint, grants + tail, 1, evs[k]);
    run := [hint] + (grants + tail);
  }

  lemma GapTail(e: Engine, cfg: Config, r: QueuedEvent) returns (run: seq<Event>)
    requires r.PmQosOpenTimedEvent? && e.accepts != [] && e.lastArrival == e.poker.now
    requires
      var stray := EmptySlot(CamMaxOnlineCpus);
      && Spacious(e.poker) && Legal(e.poker, stray) && !Boosted(Step(e.poker, stray), r)
      && var u := Step(e.poker, stray);
         Spacious(u) && Prompt(u, Advance(1)) && u.now == e.poker.now && Spacious(Step(u, Advance(1)))
    ensures LegalEvents(e, cfg, run) && AlwaysGrants(e, cfg, run) && HintsWithin(e, cfg, run, 1)
    ensures Proc(OtherClose(0)) !in run && !NoGap(e, cfg, r, run)
  {
    var hint := Arrive(e.focus, OTHER);
    var stray, pause := Proc(EmptySlot(CamMaxOnlineCpus)), Proc(Advance(1));
    var e1 := EStep(e, cfg, stray);
    var e2 := EStep(e1, cfg, pause);
    EventFirst(e2, cfg, hint, [], 1, r);
    assert [hint] + [] == [hint];
    EventFirst(e1, cfg, pause, [hint], 1, r);
    assert !NoGap(e1, cfg, r, [pause] + [hint]) by {
      assert ([pause] + [hint])[1] == hint;
      assert ComesAgain(e.focus, [pause] + [hint]);
    }
    EventFirst(e, cfg, stray, [pause] + [hint], 1, r);
    run := [stray] + ([pause] + [hint]);
  }

  /** For every start-up and every line of the hint code whose interval and gap fit
      into its duration: the boost is free of gaps in all prompt runs in which
      requests are granted, hints come within the gap and an outside owner of
      descriptor 0 keeps it, if and only if descriptor 0 has one at start-up. */
  lemma GapFreeIffZeroIsOpen(e: Engine, cfg: Config, k: nat, gap: nat)
    requires EInitial(e) && k < |Requests(cfg, e.focus)| && Requests(cfg, e.focus)[k].PmQosOpenTimedEvent?
    requires gap >= 1 && Get(cfg.interval, e.focus) * 1000 + gap <= Requests(cfg, e.focus)[k].timeout
    ensures
      (forall run ::
        && LegalEvents(e, cfg, run) && AlwaysGrants(e, cfg, run) && HintsWithin(e, cfg, run, gap)
        && Proc(OtherClose(0)) !in run ==>
          NoGap(e, cfg, Requests(cfg, e.focus)[k], run))
      <==> 0 in e.poker.fds
  {
    if 0 in e.poker.fds {
      forall run | LegalEvents(e, cfg, run) && AlwaysGrants(e, cfg, run) && HintsWithin(e, cfg, run, gap)
                   && Proc(OtherClose(0)) !in run
        ensures NoGap(e, cfg, Requests(cfg, e.focus)[k], run)
      {
        Start(e, cfg, k);
        InitialIsGood(e.poker);
        StandardInputMakesEventsSound(e, cfg, run, k);
        GapFreeBoost(e, cfg, run, k, gap);
      }
    } else {
      var run := StrayCloseMakesAGap(e, cfg, k);
      WiderGap(e, cfg, run, 1, gap);
    }
  }

  lemma {:induction false} WiderGap(e: Engine, cfg: Config, run: seq<Event>, gap: nat, wider: nat)
    requires LegalEvents(e, cfg, run) && HintsWithin(e, cfg, run, gap) && gap <= wider
    ensures HintsWithin(e, cfg, run, wider)
    decreases |run|
  {
    if run != [] {
      WiderGap(EStep(e, cfg, run[0]), cfg, run[1..], gap, wider);
    }
  }
}

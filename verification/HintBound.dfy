/** The bound on requests open at once is reached, for every kind of hint, every
    line of its code and every interval: a run of hints has duration / interval + 1
    requests of that line open, none of them due to close yet. The limiter counts
    whole microseconds, so the first hint may come late in its microsecond and the
    last one early in its own. */
module HintBound {
  import opened Descriptors
  import opened FdSlots
  import opened TimeoutPoker
  import opened TimeoutPokerRuns
  import opened Hints
  import opened PowerHint
  import opened HintEngine

  /** The run leads from e to t. */
  ghost predicate ELeads(e: Engine, cfg: Config, run: seq<Event>, t: Engine)
    decreases |run|
  {
    if run == [] then e == t else ELegal(e, run[0]) && ELeads(EStep(e, cfg, run[0]), cfg, run[1..], t)
  }

  lemma {:induction false} ELeadsOn(e: Engine, cfg: Config, run: seq<Event>, t: Engine, more: seq<Event>, u: Engine)
    requires ELeads(e, cfg, run, t) && ELeads(t, cfg, more, u)
    ensures ELeads(e, cfg, run + more, u)
    decreases |run|
  {
    hide EStep;
    if run == [] {
      assert run + more == more;
    } else {
      ELeadsOn(EStep(e, cfg, run[0]), cfg, run[1..], t, more, u);
      assert (run + more)[1..] == run[1..] + more;
    }
  }

  lemma ELeadsOnce(e: Engine, cfg: Config, a: Event)
    requires ELegal(e, a)
    ensures ELeads(e, cfg, [a], EStep(e, cfg, a))
  {
    assert [a][1..] == [];
  }

  lemma {:induction false} ELeadsToFinal(e: Engine, cfg: Config, run: seq<Event>, t: Engine)
    requires ELeads(e, cfg, run, t)
    ensures LegalEvents(e, cfg, run) && Final(e, cfg, run) == t
    decreases |run|
  {
    if run != [] {
      ELeadsToFinal(EStep(e, cfg, run[0]), cfg, run[1..], t);
    }
  }

  // ----- the times -----

  /** Hints as late as possible in their microsecond, the last one early in its own. */
  function Tight(interval: nat, m: nat, j: nat): nat
    requires j <= m
  {
    (1 + j * interval) * 1000 + if j < m then 999 else 0
  }

  /** An interval apart for the limiter, and yet all within one duration. */
  lemma TightTimes(duration: nat, interval: nat, j: nat)
    requires interval > 0 && duration > 0 && j <= duration / interval
    ensures
      var m := duration / interval;
      && Micros(Tight(interval, m, j)) == 1 + j * interval
      && (j > 0 ==> Micros(Tight(interval, m, j)) - Micros(Tight(interval, m, j - 1)) == interval)
      && (j > 0 ==> Tight(interval, m, j - 1) <= Tight(interval, m, j))
      && Tight(interval, m, j) <= Tight(interval, m, m) < Tight(interval, m, j) + duration * 1000
  {
    var m := duration / interval;
    ProductIsMonotone(j, m, interval);
    ProductIsMonotone(j + 1, m, interval);
    assert m * interval <= duration;
    assert (j + 1) * interval == j * interval + interval;
    if j > 0 {
      assert j * interval == (j - 1) * interval + interval;
    }
  }

  // ----- one hint -----

  /** A line of the hint code: the k-th request of hint h. */
  datatype Line = Line(cfg: Config, h: Hint, k: nat)
  {
    predicate Valid() {
      k < |Requests(cfg, h)| && Get(cfg.interval, h) > 0
    }

    function Evs(): seq<QueuedEvent> { Requests(cfg, h) }

    function Interval(): nat { Get(cfg.interval, h) }

    function Timeout(): nat
      requires Valid()
    {
      Evs()[k].timeout
    }

    /** How often the interval fits into the duration, both in microseconds. */
    function Fits(): nat
      requires Valid()
    {
      Micros(Timeout()) / Interval()
    }

    /** When hint j comes, and when the last one does. */
    function At(j: nat): nat
      requires Valid() && j <= Fits()
    {
      Tight(Interval(), Fits(), j)
    }

    function End(): nat
      requires Valid()
    {
      At(Fits())
    }

    /** Each hint posts its requests and the timeout of the one that is granted. */
    function First(j: nat): nat { j * (|Evs()| + 1) }
  }

  lemma LineFacts(l: Line)
    requires l.Valid()
    ensures |l.Evs()| <= 5 && !l.h.OUT_OF_RANGE? && AllRequests(l.cfg, l.h, OTHER) == l.Evs()
    ensures AllTimed(l.Evs())
    ensures Micros(l.Timeout()) * 1000 == l.Timeout() && 0 < Micros(l.Timeout()) <= 3_000_000
  {
  }

  /** The numbers of posts stay far below 2^32. */
  lemma FewPosts(l: Line, j: nat)
    requires l.Valid() && j <= l.Fits() + 1
    ensures l.First(j) <= 20_000_000 && l.First(j + 1) == l.First(j) + |l.Evs()| + 1
  {
    LineFacts(l);
    QuotientIsSmall(Micros(l.Timeout()), l.Interval());
    ProductIsMonotone(|l.Evs()| + 1, 6, j);
    assert j * (|l.Evs()| + 1) == (|l.Evs()| + 1) * j;
    assert (j + 1) * (|l.Evs()| + 1) == j * (|l.Evs()| + 1) + (|l.Evs()| + 1);
  }

  lemma QuotientIsSmall(a: nat, b: nat)
    requires b > 0
    ensures a / b <= a
  {
    if a / b > a {
      ProductIsMonotone(a + 1, a / b, b);
      ProductIsMonotone(1, b, a + 1);
    }
  }

  predicate AllTimed(evs: seq<QueuedEvent>) {
    forall i :: 0 <= i < |evs| ==> evs[i].PmQosOpenTimedEvent?
  }

  /** q requests of a hint that was accepted in state s have run, all refused but
      the k-th, which got descriptor fd; nothing else is due before `end`. */
  ghost predicate Batch(u: Poker, s: Poker, evs: seq<QueuedEvent>, k: nat, fd: nat, q: nat, end: nat)
    requires k < |evs| && AllTimed(evs)
  {
    var first, L := |s.history|, |evs|;
    && u.now == s.now && q <= L
    && |u.history| == first + L + (if q > k then 1 else 0)
    && (forall n :: first + q <= n < first + L ==>
          n in u.looper && u.looper[n].due == s.now && u.history[n] == evs[n - first])
    && (forall n :: n in u.looper ==> first + q <= n < first + L || u.looper[n].due >= end)
    && u.fds == (if q > k then s.fds[fd := File(evs[k], s.now, first + k, first + L)] else s.fds)
    && u.granted == (if q > k then s.granted[first + k := fd] else s.granted)
  }

  lemma BatchStarts(s: Poker, evs: seq<QueuedEvent>, k: nat, fd: nat, end: nat)
    requires k < |evs| <= 5 && AllTimed(evs) && Inv(s) && |s.history| <= 20_000_000
    requires forall n :: n in s.looper ==> s.looper[n].due >= end
    ensures Inv(PostAll(s, evs)) && Batch(PostAll(s, evs), s, evs, k, fd, 0, end)
  {
    PostAllKeepsInv(s, evs);
    MessagesWerePosted(s);
    PostAllAppends(s, evs);
    BatchOfPosts(s, PostAll(s, evs), evs, k, fd, end);
  }

  lemma BatchOfPosts(s: Poker, u: Poker, evs: seq<QueuedEvent>, k: nat, fd: nat, end: nat)
    requires k < |evs| && AllTimed(evs)
    requires u.now == s.now && u.history == s.history + evs && u.fds == s.fds && u.granted == s.granted
    requires forall n :: n in s.looper ==> s.looper[n].due >= end && n in u.looper && u.looper[n] == s.looper[n]
    requires forall n :: |s.history| <= n < |u.history| ==> n in u.looper && u.looper[n].due == s.now
    requires forall n :: n in u.looper ==> n in s.looper || |s.history| <= n < |u.history|
    ensures Batch(u, s, evs, k, fd, 0, end)
  {
  }

  lemma BatchRefuses(u: Poker, v: Poker, s: Poker, evs: seq<QueuedEvent>, k: nat, fd: nat, q: nat, end: nat)
    requires k < |evs| && AllTimed(evs) && Batch(u, s, evs, k, fd, q, end) && q < |evs| && q != k
    requires v.now == u.now && v.history == u.history && v.granted == u.granted && v.fds == u.fds
    requires v.looper == u.looper - {|s.history| + q}
    ensures Batch(v, s, evs, k, fd, q + 1, end)
  {
  }

  lemma BatchGrants(u: Poker, v: Poker, s: Poker, evs: seq<QueuedEvent>, k: nat, fd: nat, end: nat, what: Key)
    requires k < |evs| && AllTimed(evs) && Batch(u, s, evs, k, fd, k, end)
    requires s.now + evs[k].timeout >= end
    requires v.now == u.now && v.history == u.history + [TimeoutEvent(fd)]
    requires v.granted == u.granted[|s.history| + k := fd]
    requires v.fds == u.fds[fd := File(evs[k], u.now, |s.history| + k, |u.history|)]
    requires v.looper == (u.looper - {|s.history| + k})[|u.history| := Message(u.now + evs[k].timeout, what)]
    ensures Batch(v, s, evs, k, fd, k + 1, end)
  {
  }

  lemma BatchIsReady(u: Poker, s: Poker, evs: seq<QueuedEvent>, k: nat, fd: nat, q: nat, end: nat)
    requires k < |evs| <= 5 && AllTimed(evs) && Batch(u, s, evs, k, fd, q, end) && q < |evs|
    requires |s.history| <= 20_000_000 && fd !in s.fds
    ensures
      var n := |s.history| + q;
      && Room(u) && Spacious(u) && n in u.looper && u.looper[n].due <= u.now
      && n < |u.history| && u.history[n] == evs[q]
    ensures q <= k ==> fd !in u.fds
  {
  }

  lemma BatchGoesOnRefused(u: Poker, s: Poker, evs: seq<QueuedEvent>, k: nat, fd: nat, q: nat, end: nat)
    returns (a: Action, v: Poker)
    requires k < |evs| <= 5 && AllTimed(evs) && Inv(u) && Batch(u, s, evs, k, fd, q, end) && q < |evs| && q != k
    requires |s.history| <= 20_000_000 && fd !in s.fds
    ensures Spacious(u) && a.Run? && Legal(u, a) && v == Step(u, a)
    ensures Inv(v) && Batch(v, s, evs, k, fd, q + 1, end)
  {
    hide Step, Legal, Inv, Batch;
    BatchIsReady(u, s, evs, k, fd, q, end);
    a, v := RefusedRequest(u, |s.history| + q);
    BatchRefuses(u, v, s, evs, k, fd, q, end);
  }

  lemma BatchGoesOnGranted(u: Poker, s: Poker, evs: seq<QueuedEvent>, k: nat, fd: nat, end: nat)
    returns (a: Action, v: Poker)
    requires k < |evs| <= 5 && AllTimed(evs) && Inv(u) && Batch(u, s, evs, k, fd, k, end)
    requires |s.history| <= 20_000_000 && fd !in s.fds && s.now + evs[k].timeout >= end
    ensures Spacious(u) && a.Run? && Legal(u, a) && v == Step(u, a)
    ensures Inv(v) && Batch(v, s, evs, k, fd, k + 1, end)
  {
    hide Step, Legal, Inv, Batch;
    BatchIsReady(u, s, evs, k, fd, k, end);
    a, v := GrantedRequest(u, |s.history| + k, fd);
    BatchGrants(u, v, s, evs, k, fd, end, u.mKey);
  }

  /** The rest of a hint's requests run. */
  lemma {:induction false} BatchRuns(
    e: Engine, cfg: Config, s: Poker, evs: seq<QueuedEvent>, k: nat, fd: nat, q: nat, end: nat)
    returns (run: seq<Event>, t: Engine)
    requires k < |evs| <= 5 && AllTimed(evs) && Inv(e.poker) && Batch(e.poker, s, evs, k, fd, q, end)
    requires |s.history| <= 20_000_000 && fd !in s.fds && s.now + evs[k].timeout >= end
    ensures ELeads(e, cfg, run, t) && Inv(t.poker) && Batch(t.poker, s, evs, k, fd, |evs|, end)
    ensures t == e.(poker := t.poker)
    decreases |evs| - q
  {
    hide Step, Legal, Inv, Spacious;
    if q == |evs| {
      run, t := [], e;
    } else {
      var a, v;
      if q == k {
        a, v := BatchGoesOnGranted(e.poker, s, evs, k, fd, end);
      } else {
        a, v := BatchGoesOnRefused(e.poker, s, evs, k, fd, q, end);
      }
      ELeadsOnce(e, cfg, Proc(a));
      var more;
      more, t := BatchRuns(e.(poker := v), cfg, s, evs, k, fd, q + 1, end);
      run := [Proc(a)] + more;
      ELeadsOn(e, cfg, [Proc(a)], e.(poker := v), more, t);
    }
  }

  // ----- hint after hint -----

  ghost predicate HintOpen(e: Engine, l: Line, i: nat)
    requires l.Valid() && i <= l.Fits() && AllTimed(l.Evs())
  {
    var n := l.First(i) + l.k;
    && i < |e.accepts| && e.accepts[i] == Accept(l.At(i), l.First(i))
    && n in e.poker.granted && e.poker.granted[n] == i
    && i in e.poker.fds && e.poker.fds[i] == File(l.Evs()[l.k], l.At(i), n, l.First(i) + |l.Evs()|)
  }

  /** j hints so far, each with its request open; nothing is due before the last. */
  ghost predicate Hinted(e: Engine, l: Line, j: nat)
    requires l.Valid() && j <= l.Fits() + 1
  {
    && AllTimed(l.Evs())
    && Inv(e.poker) && e.focus == l.h && |e.accepts| == j && |e.poker.history| == l.First(j)
    && Get(e.hintTime, l.h) == (if j == 0 then 0 else 1 + (j - 1) * l.Interval())
    && (forall i {:trigger HintOpen(e, l, i)} :: 0 <= i < j ==> HintOpen(e, l, i))
    && (forall fd :: fd in e.poker.fds ==> fd < j)
    && (forall n :: n in e.poker.looper ==> e.poker.looper[n].due >= l.End())
  }

  lemma HintPasses(e: Engine, l: Line, j: nat)
    requires l.Valid() && j <= l.Fits() && Hinted(e, l, j) && e.poker.now == l.At(j)
    ensures Passes(e.hintTime, l.cfg.interval, l.h, Micros(e.poker.now)) && Micros(e.poker.now) == 1 + j * l.Interval()
    ensures e.poker.now + l.Timeout() > l.End()
  {
    LineFacts(l);
    TightTimes(Micros(l.Timeout()), l.Interval(), j);
    if j > 0 {
      assert (j - 1) * l.Interval() + l.Interval() == j * l.Interval();
    }
  }

  /** The accepted hint, before its requests run. */
  lemma HintArrives(e: Engine, l: Line, j: nat)
    requires l.Valid() && j <= l.Fits() && Hinted(e, l, j) && e.poker.now == l.At(j)
    ensures
      var u := EStep(e, l.cfg, Arrive(l.h, OTHER));
      && ELegal(e, Arrive(l.h, OTHER)) && Inv(u.poker) && Batch(u.poker, e.poker, l.Evs(), l.k, j, 0, l.End())
      && u.focus == l.h && u.accepts == e.accepts + [Accept(l.At(j), l.First(j))]
      && Get(u.hintTime, l.h) == 1 + j * l.Interval()
  {
    HintPasses(e, l, j);
    LineFacts(l);
    FewPosts(l, j);
    BatchStarts(e.poker, l.Evs(), l.k, j, l.End());
  }

  lemma HintStaysOpen(e: Engine, t: Engine, l: Line, j: nat)
    requires l.Valid() && j <= l.Fits() && Hinted(e, l, j) && e.poker.now == l.At(j)
    requires Batch(t.poker, e.poker, l.Evs(), l.k, j, |l.Evs()|, l.End())
    requires t.accepts == e.accepts + [Accept(l.At(j), l.First(j))]
    ensures forall i {:trigger HintOpen(t, l, i)} :: 0 <= i < j + 1 ==> HintOpen(t, l, i)
  {
    forall i | 0 <= i < j + 1 ensures HintOpen(t, l, i) {
      if i < j {
        assert HintOpen(e, l, i);
        FirstsDiffer(l, i, j);
      }
    }
  }

  lemma FirstsDiffer(l: Line, i: nat, j: nat)
    requires i < j && l.Valid()
    ensures l.First(i) + l.k < l.First(j)
  {
    ProductIsMonotone(i + 1, j, |l.Evs()| + 1);
    assert (i + 1) * (|l.Evs()| + 1) == i * (|l.Evs()| + 1) + |l.Evs()| + 1;
  }

  lemma OneHint(e: Engine, l: Line, j: nat) returns (run: seq<Event>, t: Engine)
    requires l.Valid() && j <= l.Fits() && Hinted(e, l, j) && e.poker.now == l.At(j)
    ensures ELeads(e, l.cfg, run, t) && Hinted(t, l, j + 1) && t.poker.now == e.poker.now
  {
    LineFacts(l);
    HintArrives(e, l, j);
    HintPasses(e, l, j);
    FewPosts(l, j);
    var a := Arrive(l.h, OTHER);
    var u := EStep(e, l.cfg, a);
    ELeadsOnce(e, l.cfg, a);
    var more;
    more, t := BatchRuns(u, l.cfg, e.poker, l.Evs(), l.k, j, 0, l.End());
    run := [a] + more;
    ELeadsOn(e, l.cfg, [a], u, more, t);
    HintStaysOpen(e, t, l, j);
  }

  lemma OnePause(t: Engine, l: Line, j: nat) returns (a: Event)
    requires l.Valid() && j < l.Fits() && Hinted(t, l, j + 1) && t.poker.now == l.At(j)
    ensures ELegal(t, a) && Hinted(EStep(t, l.cfg, a), l, j + 1) && EStep(t, l.cfg, a).poker.now == l.At(j + 1)
  {
    LineFacts(l);
    TightTimes(Micros(l.Timeout()), l.Interval(), j + 1);
    FewPosts(l, j + 1);
    a := Proc(Advance(l.At(j + 1) - l.At(j)));
    StepKeepsInv(t.poker, a.a);
    forall i | 0 <= i < j + 1 ensures HintOpen(EStep(t, l.cfg, a), l, i) {
      assert HintOpen(t, l, i);
    }
  }

  lemma {:induction false} AllHints(e: Engine, l: Line, j: nat) returns (run: seq<Event>, t: Engine)
    requires l.Valid() && j <= l.Fits() && Hinted(e, l, j) && e.poker.now == l.At(j)
    ensures ELeads(e, l.cfg, run, t) && Hinted(t, l, l.Fits() + 1) && t.poker.now == l.End()
    decreases l.Fits() - j
  {
    run, t := OneHint(e, l, j);
    if j < l.Fits() {
      var a := OnePause(t, l, j);
      ELeadsOnce(t, l.cfg, a);
      var more, u := AllHints(EStep(t, l.cfg, a), l, j + 1);
      ELeadsOn(t, l.cfg, [a], EStep(t, l.cfg, a), more, u);
      ELeadsOn(e, l.cfg, run, t, [a] + more, u);
      run, t := run + ([a] + more), u;
    }
  }

  lemma {:induction false} FirstNumbers(s: set<nat>, n: nat)
    requires forall i: nat :: i in s <==> i < n
    ensures |s| == n
    decreases n
  {
    if n > 0 {
      FirstNumbers(s - {n - 1}, n - 1);
      assert s == (s - {n - 1}) + {n - 1};
    } else {
      assert s == {};
    }
  }

  function FreshEngine(l: Line): Engine
    requires l.Valid()
  {
    Engine(Poker(l.At(0), 0, map[], map[], map[], EMPTY, true, [], [], map[], map[]), map[], l.h, [], 0)
  }

  lemma FreshIsHinted(l: Line)
    requires l.Valid()
    ensures EInitial(FreshEngine(l)) && Hinted(FreshEngine(l), l, 0)
  {
    LineFacts(l);
    TightTimes(Micros(l.Timeout()), l.Interval(), 0);
  }

  /** The bound is reached, for every hint, line and interval: a prompt run after
      which duration / interval + 1 requests of the line are open, all before the
      end of their time. */
  lemma BoundIsReached(cfg: Config, h: Hint, k: nat) returns (e: Engine, run: seq<Event>)
    requires k < |Requests(cfg, h)| && Get(cfg.interval, h) > 0
    ensures EInitial(e) && e.focus == h && LegalEvents(e, cfg, run) && Final(e, cfg, run).focus == h
    ensures |OpenNow(Final(e, cfg, run), k)| == Micros(Requests(cfg, h)[k].timeout) / Get(cfg.interval, h) + 1
    ensures
      var t := Final(e, cfg, run);
      forall i :: i in OpenNow(t, k) ==> t.poker.now < t.accepts[i].at + Requests(cfg, h)[k].timeout
  {
    hide EStep, ELegal;
    var l := Line(cfg, h, k);
    e := FreshEngine(l);
    FreshIsHinted(l);
    var t;
    run, t := AllHints(e, l, 0);
    ELeadsToFinal(e, cfg, run, t);
    forall i | 0 <= i < l.Fits() + 1
      ensures RequestOpen(t.poker, Number(t, k, i)) && t.poker.now < t.accepts[i].at + l.Timeout()
    {
      assert HintOpen(t, l, i);
      LineFacts(l);
      TightTimes(Micros(l.Timeout()), l.Interval(), i);
    }
    FirstNumbers(OpenNow(t, k), l.Fits() + 1);
  }

  // ----- the ceiling -----

  function CeilDiv(a: nat, b: nat): nat
    requires b > 0
  {
    (a + b - 1) / b
  }

  lemma CeilingIs(duration: nat, interval: nat)
    requires interval > 0
    ensures CeilDiv(duration, interval) == duration / interval + if duration % interval == 0 then 0 else 1
  {
    var q, r := duration / interval, duration % interval;
    assert duration + interval - 1 == q * interval + (r + interval - 1);
    if r == 0 {
      QuotientIs(duration + interval - 1, interval, q, interval - 1);
    } else {
      assert duration + interval - 1 == (q + 1) * interval + (r - 1);
      QuotientIs(duration + interval - 1, interval, q + 1, r - 1);
    }
  }

  lemma QuotientIs(a: nat, b: nat, q: nat, r: nat)
    requires b > 0 && a == q * b + r && r < b
    ensures a / b == q
  {
    QuotientBound(q, b, a);
    ProductIsMonotone(q + 1, a / b, b);
  }

  /** So, for every hint and line, at most ceil(duration / interval) requests are
      open at once in every state of every prompt run exactly when the interval
      does not divide the duration. */
  lemma CeilingIsTheBoundUnlessDivisible(cfg: Config, h: Hint, k: nat)
    requires k < |Requests(cfg, h)| && Get(cfg.interval, h) > 0
    ensures
      var duration, interval := Micros(Requests(cfg, h)[k].timeout), Get(cfg.interval, h);
      (forall e, run :: EInitial(e) && e.focus == h && LegalEvents(e, cfg, run) ==>
        |OpenNow(Final(e, cfg, run), k)| <= CeilDiv(duration, interval))
      <==> duration % interval != 0
  {
    hide EStep, ELegal, EInitial, LegalEvents, Final, OpenNow, CeilDiv;
    var duration, interval := Micros(Requests(cfg, h)[k].timeout), Get(cfg.interval, h);
    CeilingIs(duration, interval);
    forall e, run | EInitial(e) && e.focus == h && LegalEvents(e, cfg, run)
      ensures |OpenNow(Final(e, cfg, run), k)| <= duration / interval + 1
    {
      OpenAtOnce(e, cfg, run, k);
    }
    var e, run := BoundIsReached(cfg, h, k);
    assert |OpenNow(Final(e, cfg, run), k)| == duration / interval + 1;
  }

  /** With the shipped intervals the ceiling is exceeded by these lines. */
  lemma ShippedLinesAboveTheCeiling(cfg: Config, h: Hint, k: nat)
    requires cfg.interval == INTERVALS && k < |Requests(cfg, h)| && Get(INTERVALS, h) > 0
    ensures Micros(Requests(cfg, h)[k].timeout) % Get(INTERVALS, h) == 0 <==> !h.INTERACTION?
  {
  }
}

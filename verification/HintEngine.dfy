/** The limiter, the looper and the delayed close together: hints that keep
    coming keep the boost up without a gap, and the limiter bounds how many
    requests of one kind are open at once.

    An `Engine` is a poker under a prompt looper (time does not pass a due
    message by) that receives hints. It watches one kind of hint, `focus`: when
    hints of that kind were accepted, and when the last one arrived. */
module HintEngine {
  import opened Common
  import opened Descriptors
  import opened FdSlots
  import opened TimeoutPoker
  import opened TimeoutPokerRuns
  import opened Hints
  import opened PowerHint

  /** An accepted hint: when, and the post number of its first request. */
  datatype Accept = Accept(at: nat, first: nat)

  datatype Engine = Engine(poker: Poker, hintTime: map<Hint, nat>, focus: Hint, accepts: seq<Accept>, lastArrival: nat)

  datatype Event = Arrive(h: Hint, cam: CameraHint) | Proc(a: Action)

  function Receive(e: Engine, cfg: Config, h: Hint, cam: CameraHint): Engine {
    var now := e.poker.now;
    var seen := if h == e.focus then e.(lastArrival := now) else e;
    if Passes(e.hintTime, cfg.interval, h, Micros(now)) then
      seen.(poker := PostAll(e.poker, AllRequests(cfg, h, cam)),
            hintTime := e.hintTime[h := Micros(now)],
            accepts := if h == e.focus then e.accepts + [Accept(now, |e.poker.history|)] else e.accepts)
    else seen
  }

  ghost predicate Prompt(s: Poker, a: Action) {
    a.Advance? ==> forall n :: n in s.looper ==> s.now + a.dt <= s.looper[n].due
  }

  ghost predicate ELegal(e: Engine, a: Event) {
    && Spacious(e.poker)
    && (a.Proc? ==> Legal(e.poker, a.a) && Prompt(e.poker, a.a))
  }

  function EStep(e: Engine, cfg: Config, a: Event): Engine
    requires a.Proc? ==> Legal(e.poker, a.a)
  {
    match a
    case Arrive(h, cam) => Receive(e, cfg, h, cam)
    case Proc(b) => e.(poker := Step(e.poker, b))
  }

  ghost predicate EInitial(e: Engine) {
    Initial(e.poker) && e.hintTime == map[] && e.accepts == [] && Micros(e.poker.now) > 0
  }

  /** Room for the posts of one hint. */
  ghost predicate Spacious(s: Poker) {
    forall n :: n in s.looper ==> |s.history| + 8 - n < KEY_SPACE
  }

  // ----- posting a batch -----

  ghost predicate RoomFor(s: Poker, k: nat) {
    forall n :: n in s.looper ==> |s.history| + k - n < KEY_SPACE
  }

  lemma {:induction false} PostAllKeepsInv(s: Poker, evs: seq<QueuedEvent>)
    requires Inv(s) && |evs| < KEY_SPACE && RoomFor(s, |evs|)
    requires forall i :: 0 <= i < |evs| ==> evs[i].PmQosOpenTimedEvent?
    ensures Inv(PostAll(s, evs))
    decreases |evs|
  {
    if evs != [] {
      StepKeepsInv(s, Post(evs[0]));
      PostAllKeepsInv(Send(s, 0, evs[0]), evs[1..]);
    }
  }

  /** A batch adds its messages, due at once, and changes nothing else. */
  lemma {:induction false} PostAllAppends(s: Poker, evs: seq<QueuedEvent>)
    requires forall n :: n in s.looper ==> n < |s.history|
    ensures
      var t := PostAll(s, evs);
      && t.history == s.history + evs
      && t.fds == s.fds && t.ran == s.ran && t.granted == s.granted && t.now == s.now
      && (forall n :: n in s.looper ==> n in t.looper && t.looper[n] == s.looper[n])
      && (forall n :: |s.history| <= n < |t.history| ==> n in t.looper && t.looper[n].due == s.now)
      && (forall n :: n in t.looper ==> n in s.looper || |s.history| <= n < |t.history|)
    decreases |evs|
  {
    if evs != [] {
      var u := Send(s, 0, evs[0]);
      PostAllAppends(u, evs[1..]);
      assert s.history + [evs[0]] + evs[1..] == s.history + evs;
    }
  }

  lemma RequestsAreTimed(cfg: Config, h: Hint, cam: CameraHint)
    ensures |AllRequests(cfg, h, cam)| <= 8 && Requests(cfg, h) <= AllRequests(cfg, h, cam)
    ensures forall i :: 0 <= i < |AllRequests(cfg, h, cam)| ==> AllRequests(cfg, h, cam)[i].PmQosOpenTimedEvent?
  {
  }

  // ----- invariant of the limiter -----

  ghost predicate Punctual(s: Poker) {
    forall n :: n in s.looper ==> s.now <= s.looper[n].due
  }

  ghost predicate LimiterInv(e: Engine, interval: nat) {
    && Micros(e.poker.now) > 0
    && Get(e.hintTime, e.focus) == (if e.accepts == [] then 0 else Micros(Last(e).at))
    && (e.accepts != [] ==>
          Last(e).at <= e.lastArrival <= e.poker.now && Micros(Last(e).at) > 0
          && (if interval > 0 then Micros(e.lastArrival) < Micros(Last(e).at) + interval
              else e.lastArrival == Last(e).at))
  }

  /** Accepted hints are at least an interval apart on the limiter's clock. */
  ghost predicate Spaced(accepts: seq<Accept>, interval: nat) {
    forall i {:trigger SpacedAt(accepts, interval, i)} :: 0 < i < |accepts| ==> SpacedAt(accepts, interval, i)
  }

  ghost predicate SpacedAt(accepts: seq<Accept>, interval: nat, i: nat)
    requires 0 < i < |accepts|
  {
    Micros(accepts[i].at) - Micros(accepts[i - 1].at) >= interval
  }

  ghost function Last(e: Engine): Accept
    requires e.accepts != []
  {
    e.accepts[|e.accepts| - 1]
  }

  /** The i-th accepted hint made its k-th request under this post number. */
  ghost function Number(e: Engine, k: nat, i: nat): nat
    requires i < |e.accepts|
  {
    e.accepts[i].first + k
  }

  /** Request n was granted a file and that file is still open. */
  ghost predicate RequestOpen(s: Poker, n: nat) {
    n in s.granted && IsTimed(s, s.granted[n]) && s.fds[s.granted[n]].owner.origin == n
  }

  /** Request r, made as post n at time `at`, is pending only in that instant and
      is open from then on. */
  ghost predicate SiteInv(s: Poker, r: QueuedEvent, n: nat, at: nat) {
    && at <= s.now
    && n < |s.history| && s.history[n] == r
    && (n in s.looper ==> s.looper[n].due == at)
    && (RequestOpen(s, n) ==> s.fds[s.granted[n]].owner.openedAt == at)
  }

  ghost predicate SitesInv(e: Engine, r: QueuedEvent, k: nat) {
    forall i {:trigger SiteInv(e.poker, r, Number(e, k, i), e.accepts[i].at)} ::
      0 <= i < |e.accepts| ==> SiteInv(e.poker, r, Number(e, k, i), e.accepts[i].at)
  }

  /** The k-th request of an accepted hint of the watched kind. */
  ghost function Site(e: Engine, cfg: Config, k: nat): QueuedEvent
    requires k < |Requests(cfg, e.focus)|
  {
    Requests(cfg, e.focus)[k]
  }

  ghost predicate EInv(e: Engine, cfg: Config, k: nat)
    requires k < |Requests(cfg, e.focus)|
  {
    && Inv(e.poker) && Punctual(e.poker)
    && LimiterInv(e, Get(cfg.interval, e.focus)) && Spaced(e.accepts, Get(cfg.interval, e.focus))
    && SitesInv(e, Site(e, cfg, k), k)
  }

  lemma {:induction false} PostAllKeepsNow(s: Poker, evs: seq<QueuedEvent>)
    ensures PostAll(s, evs).now == s.now
    decreases |evs|
  {
    if evs != [] {
      PostAllKeepsNow(Send(s, 0, evs[0]), evs[1..]);
    }
  }

  lemma ReceiveKeepsLimiter(e: Engine, cfg: Config, h: Hint, cam: CameraHint)
    requires LimiterInv(e, Get(cfg.interval, e.focus)) && !e.focus.OUT_OF_RANGE?
    ensures LimiterInv(Receive(e, cfg, h, cam), Get(cfg.interval, e.focus))
  {
    PostAllKeepsNow(e.poker, AllRequests(cfg, h, cam));
    var t := Receive(e, cfg, h, cam);
    if h == e.focus && Passes(e.hintTime, cfg.interval, h, Micros(e.poker.now)) {
      assert Last(t).at == e.poker.now == t.lastArrival == t.poker.now;
    } else {
      assert t.accepts == e.accepts;
    }
  }

  lemma ReceiveKeepsSpaced(e: Engine, cfg: Config, h: Hint, cam: CameraHint)
    requires LimiterInv(e, Get(cfg.interval, e.focus)) && Spaced(e.accepts, Get(cfg.interval, e.focus))
    ensures Spaced(Receive(e, cfg, h, cam).accepts, Get(cfg.interval, e.focus))
  {
    var t := Receive(e, cfg, h, cam);
    var interval := Get(cfg.interval, e.focus);
    forall i | 0 < i < |t.accepts| ensures SpacedAt(t.accepts, interval, i) {
      if i < |e.accepts| {
        assert SpacedAt(e.accepts, interval, i);
      }
    }
  }

  /** A batch of posts does not touch requests made before. */
  lemma BatchKeepsOthers(s: Poker, evs: seq<QueuedEvent>, n: nat)
    requires Inv(s) && n < |s.history|
    ensures
      var t := PostAll(s, evs);
      && t.now == s.now && n < |t.history| && t.history[n] == s.history[n]
      && (n in t.looper <==> n in s.looper) && (n in s.looper ==> t.looper[n] == s.looper[n])
      && t.fds == s.fds && t.granted == s.granted
  {
    MessagesWerePosted(s);
    PostAllAppends(s, evs);
  }

  lemma BatchPosts(s: Poker, evs: seq<QueuedEvent>, k: nat)
    requires k < |evs| && forall n :: n in s.looper ==> n < |s.history|
    requires !RequestOpen(s, |s.history| + k)
    ensures SiteInv(PostAll(s, evs), evs[k], |s.history| + k, s.now)
    ensures |s.history| + k in PostAll(s, evs).looper
  {
    PostAllAppends(s, evs);
  }

  lemma BatchMakesSite(s: Poker, evs: seq<QueuedEvent>, k: nat)
    requires Inv(s) && k < |evs|
    ensures SiteInv(PostAll(s, evs), evs[k], |s.history| + k, s.now)
    ensures |s.history| + k in PostAll(s, evs).looper
  {
    MessagesWerePosted(s);
    NotGrantedYet(s, |s.history| + k);
    BatchPosts(s, evs, k);
  }

  lemma MessagesWerePosted(s: Poker)
    requires QueueInv(s)
    ensures forall n :: n in s.looper ==> n < |s.history|
  {
  }

  lemma ReceiveKeepsSites(e: Engine, cfg: Config, h: Hint, cam: CameraHint, k: nat)
    requires k < |Requests(cfg, e.focus)| && EInv(e, cfg, k)
    ensures SitesInv(Receive(e, cfg, h, cam), Site(e, cfg, k), k)
  {
    hide Inv, PostAll, Passes, LimiterInv, Requests;
    var evs := AllRequests(cfg, h, cam);
    RequestsAreTimed(cfg, h, cam);
    var t := Receive(e, cfg, h, cam);
    forall i | 0 <= i < |t.accepts| ensures SiteInv(t.poker, Site(e, cfg, k), Number(t, k, i), t.accepts[i].at) {
      if i < |e.accepts| {
        assert SiteInv(e.poker, Site(e, cfg, k), Number(e, k, i), e.accepts[i].at);
        BatchKeepsOthers(e.poker, evs, Number(e, k, i));
      } else {
        BatchMakesSite(e.poker, evs, k);
      }
    }
  }

  lemma ReceiveKeepsPunctual(e: Engine, cfg: Config, h: Hint, cam: CameraHint)
    requires Inv(e.poker) && Punctual(e.poker)
    ensures Punctual(Receive(e, cfg, h, cam).poker)
  {
    MessagesWerePosted(e.poker);
    PostAllAppends(e.poker, AllRequests(cfg, h, cam));
  }

  /** A file's request has been run, so it was posted. */
  lemma NotGrantedYet(s: Poker, n: nat)
    requires Inv(s) && n >= |s.history|
    ensures !RequestOpen(s, n)
  {
    if RequestOpen(s, n) {
      FileOfRequest(s, n);
    }
  }

  lemma FileOfRequest(s: Poker, n: nat)
    requires Inv(s) && RequestOpen(s, n)
    ensures n in s.ran && n < |s.history| && n !in s.looper
  {
    assert FileInv(s, s.granted[n]);
  }

  lemma RequestsKeepInv(s: Poker, cfg: Config, h: Hint, cam: CameraHint)
    requires Inv(s) && Spacious(s)
    ensures Inv(PostAll(s, AllRequests(cfg, h, cam)))
  {
    RequestsAreTimed(cfg, h, cam);
    PostAllKeepsInv(s, AllRequests(cfg, h, cam));
  }

  lemma ReceiveKeepsInv(e: Engine, cfg: Config, h: Hint, cam: CameraHint, k: nat)
    requires k < |Requests(cfg, e.focus)| && EInv(e, cfg, k) && Spacious(e.poker)
    ensures EInv(Receive(e, cfg, h, cam), cfg, k)
  {
    hide Inv, LimiterInv, SitesInv, PostAll;
    RequestsKeepInv(e.poker, cfg, h, cam);
    ReceiveKeepsLimiter(e, cfg, h, cam);
    ReceiveKeepsSpaced(e, cfg, h, cam);
    ReceiveKeepsSites(e, cfg, h, cam, k);
    ReceiveKeepsPunctual(e, cfg, h, cam);
  }

  // ----- steps of the process under a prompt looper -----

  lemma ProcKeepsPunctual(s: Poker, a: Action)
    requires Inv(s) && Room(s) && Punctual(s) && Legal(s, a) && Prompt(s, a)
    ensures Punctual(Step(s, a))
  {
    if a.Run? {
      DeliverRunsThePostedEvent(s, a.n, a.o, a.p);
    }
  }

  /** What running an event does to the record of a request that is not its own. */
  lemma RunEventKeepsOthers(t: Poker, n: nat, ev: QueuedEvent, o: OpenResult, p: PipeResult, m: nat)
    requires n != m && m < |t.history| && Fresh(t, o, p)
    ensures
      var u := RunEvent(t, n, ev, o, p);
      && u.now == t.now && m < |u.history| && u.history[m] == t.history[m]
      && (m in u.looper <==> m in t.looper) && (m in t.looper ==> u.looper[m] == t.looper[m])
      && (m in u.granted <==> m in t.granted) && (m in t.granted ==> u.granted[m] == t.granted[m])
      && (RequestOpen(u, m) ==> RequestOpen(t, m) && u.fds[u.granted[m]] == t.fds[t.granted[m]])
  {
  }

  /** Running a request opens its file at once. */
  lemma RunEventOpensOwn(t: Poker, n: nat, ev: QueuedEvent, o: OpenResult, p: PipeResult)
    requires n < |t.history| && n !in t.looper && Fresh(t, o, p) && !RequestOpen(t, n)
    ensures
      var u := RunEvent(t, n, ev, o, p);
      && u.now == t.now && n < |u.history| && u.history[n] == t.history[n] && n !in u.looper
      && (RequestOpen(u, n) ==> u.fds[u.granted[n]].owner.openedAt == t.now)
      && (ev.PmQosOpenTimedEvent? && o.Opened? ==> RequestOpen(u, n) && u.fds[u.granted[n]].owner.timeout == ev.timeout)
  {
  }

  lemma RunKeepsSite(s: Poker, a: Action, r: QueuedEvent, n: nat, at: nat)
    requires Inv(s) && Room(s) && Punctual(s) && a.Run? && Legal(s, a) && SiteInv(s, r, n, at)
    ensures SiteInv(Step(s, a), r, n, at)
  {
    DeliverRunsThePostedEvent(s, a.n, a.o, a.p);
    var t := Take(s, a.n);
    if a.n == n {
      assert !RequestOpen(t, n) by {
        if RequestOpen(s, n) {
          FileOfRequest(s, n);
        }
      }
      RunEventOpensOwn(t, n, s.history[n], a.o, a.p);
    } else {
      RunEventKeepsOthers(t, a.n, s.history[a.n], a.o, a.p, n);
    }
  }

  lemma ProcKeepsSite(s: Poker, a: Action, r: QueuedEvent, n: nat, at: nat)
    requires Inv(s) && Room(s) && Punctual(s) && Legal(s, a) && Prompt(s, a) && SiteInv(s, r, n, at)
    ensures SiteInv(Step(s, a), r, n, at)
  {
    if a.Run? {
      RunKeepsSite(s, a, r, n, at);
    }
  }

  lemma EStepKeepsInv(e: Engine, cfg: Config, a: Event, k: nat)
    requires k < |Requests(cfg, e.focus)| && EInv(e, cfg, k) && ELegal(e, a)
    ensures EInv(EStep(e, cfg, a), cfg, k)
  {
    hide Step, Legal, Inv, SiteInv, Requests;
    match a {
      case Arrive(h, cam) => ReceiveKeepsInv(e, cfg, h, cam, k);
      case Proc(b) =>
        StepKeepsInv(e.poker, b);
        ProcKeepsPunctual(e.poker, b);
        var t := EStep(e, cfg, a);
        StepMovesTime(e.poker, b);
        forall i | 0 <= i < |t.accepts| ensures SiteInv(t.poker, Site(e, cfg, k), Number(t, k, i), t.accepts[i].at) {
          assert SiteInv(e.poker, Site(e, cfg, k), Number(e, k, i), e.accepts[i].at);
          ProcKeepsSite(e.poker, b, Site(e, cfg, k), Number(e, k, i), e.accepts[i].at);
        }
    }
  }

  lemma StepMovesTime(s: Poker, a: Action)
    requires Legal(s, a)
    ensures Step(s, a).now == s.now + if a.Advance? then a.dt else 0
  {
  }

  ghost predicate LegalEvents(e: Engine, cfg: Config, run: seq<Event>)
    decreases |run|
  {
    run == [] || (ELegal(e, run[0]) && LegalEvents(EStep(e, cfg, run[0]), cfg, run[1..]))
  }

  ghost function Final(e: Engine, cfg: Config, run: seq<Event>): Engine
    requires LegalEvents(e, cfg, run)
    decreases |run|
  {
    if run == [] then e else Final(EStep(e, cfg, run[0]), cfg, run[1..])
  }

  lemma {:induction false} EventsKeepInv(e: Engine, cfg: Config, run: seq<Event>, k: nat)
    requires k < |Requests(cfg, e.focus)| && EInv(e, cfg, k) && LegalEvents(e, cfg, run)
    ensures Final(e, cfg, run).focus == e.focus && EInv(Final(e, cfg, run), cfg, k)
    decreases |run|
  {
    if run != [] {
      EStepKeepsInv(e, cfg, run[0], k);
      EventsKeepInv(EStep(e, cfg, run[0]), cfg, run[1..], k);
    }
  }

  // ----- the rate limit as a counting bound -----

  lemma {:induction false} SpacedSum(accepts: seq<Accept>, interval: nat, i: nat, j: nat)
    requires Spaced(accepts, interval) && i <= j < |accepts|
    ensures Micros(accepts[j].at) - Micros(accepts[i].at) >= (j - i) * interval
    decreases j - i
  {
    if i < j {
      SpacedSum(accepts, interval, i, j - 1);
      assert SpacedAt(accepts, interval, j);
      assert (j - i) * interval == (j - 1 - i) * interval + interval;
    }
  }

  /** The hints accepted in a window [x, x + window] of the limiter's clock. */
  ghost function Within(accepts: seq<Accept>, x: nat, window: nat): set<nat> {
    set i: nat | i < |accepts| && x <= Micros(accepts[i].at) <= x + window
  }

  lemma {:induction false} BoundedSize(s: set<nat>, lo: nat, n: nat)
    requires forall i :: i in s ==> lo <= i < lo + n
    ensures |s| <= n
    decreases n
  {
    if n > 0 {
      BoundedSize(s - {lo + n - 1}, lo, n - 1);
      assert s <= (s - {lo + n - 1}) + {lo + n - 1};
      SubsetSize(s, (s - {lo + n - 1}) + {lo + n - 1});
    }
  }

  lemma SubsetSize<T>(a: set<T>, b: set<T>)
    requires a <= b
    ensures |a| <= |b|
  {
    assert b == a + (b - a);
  }

  lemma ProductIsMonotone(a: nat, b: nat, c: nat)
    ensures a <= b ==> a * c <= b * c
  {
  }

  lemma QuotientBound(d: nat, interval: nat, window: nat)
    requires interval > 0 && d * interval <= window
    ensures d <= window / interval
  {
    ProductIsMonotone(window / interval + 1, d, interval);
  }

  ghost function Least(s: set<nat>): (m: nat)
    requires s != {}
    ensures m in s && forall i :: i in s ==> m <= i
  {
    var m :| m in s;
    if s == {m} then m
    else
      var l := Least(s - {m});
      assert s == (s - {m}) + {m};
      if l < m then l else m
  }

  /** No window holds more than window / interval + 1 accepted hints. */
  lemma AcceptsInWindow(accepts: seq<Accept>, interval: nat, x: nat, window: nat)
    requires Spaced(accepts, interval) && interval > 0
    ensures |Within(accepts, x, window)| <= window / interval + 1
  {
    var s := Within(accepts, x, window);
    if s != {} {
      var m := Least(s);
      forall i | i in s ensures m <= i < m + (window / interval + 1) {
        SpacedSum(accepts, interval, m, i);
        QuotientBound(i - m, interval, window);
      }
      BoundedSize(s, m, window / interval + 1);
    }
  }

  /** The accepted hints whose k-th request is open. */
  ghost function OpenNow(e: Engine, k: nat): set<nat> {
    set i: nat | i < |e.accepts| && RequestOpen(e.poker, Number(e, k, i))
  }

  /** An open request's file is the one asked for, and its time is not over. */
  lemma OpenRequestFile(e: Engine, cfg: Config, k: nat, i: nat)
    requires k < |Requests(cfg, e.focus)| && EInv(e, cfg, k)
    requires i < |e.accepts| && RequestOpen(e.poker, Number(e, k, i))
    ensures
      var r := Site(e, cfg, k);
      var file := e.poker.fds[e.poker.granted[Number(e, k, i)]];
      && file.node == r.node && file.val == r.val && file.owner.timeout == r.timeout
      && file.owner.openedAt == e.accepts[i].at
      && e.accepts[i].at <= e.poker.now <= e.accepts[i].at + r.timeout
  {
    assert SiteInv(e.poker, Site(e, cfg, k), Number(e, k, i), e.accepts[i].at);
    FileOfSite(e.poker, Site(e, cfg, k), Number(e, k, i), e.accepts[i].at);
  }

  lemma Start(e: Engine, cfg: Config, k: nat)
    requires k < |Requests(cfg, e.focus)| && EInitial(e)
    ensures EInv(e, cfg, k)
  {
  }

  /** In every state of every prompt run, at most duration / interval + 1 requests
      made by one line of the hint code are open at once (both in microseconds). */
  lemma OpenAtOnce(e: Engine, cfg: Config, run: seq<Event>, k: nat)
    requires k < |Requests(cfg, e.focus)| && EInitial(e) && LegalEvents(e, cfg, run)
    requires Get(cfg.interval, e.focus) > 0
    ensures |OpenNow(Final(e, cfg, run), k)| <=
            Micros(Requests(cfg, e.focus)[k].timeout) / Get(cfg.interval, e.focus) + 1
  {
    Start(e, cfg, k);
    EventsKeepInv(e, cfg, run, k);
    var t := Final(e, cfg, run);
    assert Requests(cfg, e.focus)[k].timeout % 1000 == 0 && Requests(cfg, e.focus)[k].timeout > 0;
    var duration := Micros(Site(e, cfg, k).timeout);
    var x := if Micros(t.poker.now) >= duration then Micros(t.poker.now) - duration else 0;
    forall i | i in OpenNow(t, k) ensures i in Within(t.accepts, x, duration) {
      OpenRequestFile(t, cfg, k, i);
    }
    SubsetSize(OpenNow(t, k), Within(t.accepts, x, duration));
    AcceptsInWindow(t.accepts, Get(cfg.interval, e.focus), x, duration);
  }

  // ----- no gap -----

  /** The k-th request of the last accepted hint is waiting to run, is open, or
      has had its full time. */
  ghost predicate Phase(e: Engine, r: QueuedEvent, k: nat)
    requires r.PmQosOpenTimedEvent?
  {
    e.accepts != [] ==> Tracked(e.poker, r, Number(e, k, |e.accepts| - 1), Last(e).at)
  }

  /** Every request is granted a file when it runs. */
  ghost predicate Grants(s: Poker, a: Action) {
    a.Run? && a.n < |s.history| && s.history[a.n].PmQosOpenTimedEvent? ==> a.o.Opened?
  }

  ghost predicate AlwaysGrants(e: Engine, cfg: Config, run: seq<Event>)
    requires LegalEvents(e, cfg, run)
    decreases |run|
  {
    run == [] || ((run[0].Proc? ==> Grants(e.poker, run[0].a)) && AlwaysGrants(EStep(e, cfg, run[0]), cfg, run[1..]))
  }

  lemma AcceptedIsTracked(e: Engine, cfg: Config, cam: CameraHint, k: nat)
    requires Inv(e.poker) && k < |Requests(cfg, e.focus)|
    requires Passes(e.hintTime, cfg.interval, e.focus, Micros(e.poker.now))
    ensures Phase(Receive(e, cfg, e.focus, cam), Site(e, cfg, k), k)
  {
    RequestsAreTimed(cfg, e.focus, cam);
    BatchMakesSite(e.poker, AllRequests(cfg, e.focus, cam), k);
  }

  lemma RunKeepsOpen(s: Poker, a: Action, n: nat)
    requires Inv(s) && Room(s) && Legal(s, a) && RequestOpen(s, n) && GoodAt(s, s.granted[n]) && !Hits(s, a)
    ensures
      || RequestOpen(Step(s, a), n)
      || s.now >= s.fds[s.granted[n]].owner.openedAt + s.fds[s.granted[n]].owner.timeout
  {
    FileOfRequest(s, n);
    ClosedOnlyByItsTimeout(s, a, s.granted[n]);
    if a.Run? {
      DeliverRunsThePostedEvent(s, a.n, a.o, a.p);
      RunEventKeepsOthers(Take(s, a.n), a.n, s.history[a.n], a.o, a.p, n);
    }
  }

  /** A pending request that is run, by itself or among others, is granted. */
  lemma RunOpensPending(s: Poker, a: Action, n: nat)
    requires Inv(s) && Room(s) && a.Run? && Legal(s, a) && Grants(s, a)
    requires n in s.looper && n < |s.history| && s.history[n].PmQosOpenTimedEvent?
    ensures n in Step(s, a).looper || RequestOpen(Step(s, a), n)
  {
    DeliverRunsThePostedEvent(s, a.n, a.o, a.p);
    var t := Take(s, a.n);
    if a.n == n {
      assert !RequestOpen(t, n) by {
        if RequestOpen(s, n) {
          FileOfRequest(s, n);
        }
      }
      RunEventOpensOwn(t, n, s.history[n], a.o, a.p);
    } else {
      RunEventKeepsOthers(t, a.n, s.history[a.n], a.o, a.p, n);
    }
  }

  /** Messages wait for a step that runs them. */
  lemma OthersKeepMessages(s: Poker, a: Action, n: nat)
    requires Inv(s) && Legal(s, a) && n in s.looper && !a.Run?
    ensures n in Step(s, a).looper
  {
  }

  ghost predicate Ready(s: Poker) {
    Inv(s) && Good(s) && Punctual(s)
  }

  /** Request r, made as post n at time `at`, waits in that instant, is open, or has
      had its full time. */
  ghost predicate Tracked(s: Poker, r: QueuedEvent, n: nat, at: nat)
    requires r.PmQosOpenTimedEvent?
  {
    SiteInv(s, r, n, at) && (n in s.looper || RequestOpen(s, n) || s.now >= at + r.timeout)
  }

  /** An open request's file is the one asked for, and its time is not over. */
  lemma FileOfSite(s: Poker, r: QueuedEvent, n: nat, at: nat)
    requires Inv(s) && Punctual(s) && r.PmQosOpenTimedEvent? && SiteInv(s, r, n, at) && RequestOpen(s, n)
    ensures
      var file := s.fds[s.granted[n]];
      && file.node == r.node && file.val == r.val && file.owner.openedAt == at && file.owner.timeout == r.timeout
      && s.now <= at + r.timeout
  {
    assert FileInv(s, s.granted[n]);
  }

  lemma ProcKeepsTracked(s: Poker, b: Action, r: QueuedEvent, n: nat, at: nat)
    requires Ready(s) && Room(s) && Legal(s, b) && Prompt(s, b) && Grants(s, b) && !Hits(s, b)
    requires r.PmQosOpenTimedEvent? && Tracked(s, r, n, at)
    ensures Tracked(Step(s, b), r, n, at)
  {
    hide Inv, Step, Legal;
    ProcKeepsSite(s, b, r, n, at);
    StepMovesTime(s, b);
    if RequestOpen(s, n) {
      FileOfSite(s, r, n, at);
      assert GoodAt(s, s.granted[n]);
      RunKeepsOpen(s, b, n);
    } else if n in s.looper {
      if b.Run? {
        RunOpensPending(s, b, n);
      } else {
        OthersKeepMessages(s, b, n);
      }
    }
  }

  lemma EventKeepsTracked(e: Engine, cfg: Config, a: Event, r: QueuedEvent, n: nat, at: nat)
    requires Ready(e.poker) && ELegal(e, a) && (a.Proc? ==> Grants(e.poker, a.a) && !Hits(e.poker, a.a))
    requires r.PmQosOpenTimedEvent? && Tracked(e.poker, r, n, at)
    ensures Tracked(EStep(e, cfg, a).poker, r, n, at)
  {
    hide Inv, Good, Step, Legal, PostAll, Passes;
    match a {
      case Arrive(h, cam) => BatchKeepsOthers(e.poker, AllRequests(cfg, h, cam), n);
      case Proc(b) => ProcKeepsTracked(e.poker, b, r, n, at);
    }
  }

  /** No step of the run is a stray close that hits a timed file or a slot's. */
  ghost predicate ESound(e: Engine, cfg: Config, run: seq<Event>)
    requires LegalEvents(e, cfg, run)
    decreases |run|
  {
    run == [] || ((run[0].Proc? ==> !Hits(e.poker, run[0].a)) && ESound(EStep(e, cfg, run[0]), cfg, run[1..]))
  }

  lemma {:induction false} PostAllKeepsGood(s: Poker, evs: seq<QueuedEvent>)
    requires Inv(s) && RoomFor(s, |evs|) && |evs| < KEY_SPACE && Good(s)
    requires forall i :: 0 <= i < |evs| ==> evs[i].PmQosOpenTimedEvent?
    ensures Good(PostAll(s, evs))
    decreases |evs|
  {
    if evs != [] {
      StepKeepsGood(s, Post(evs[0]));
      StepKeepsInv(s, Post(evs[0]));
      PostAllKeepsGood(Send(s, 0, evs[0]), evs[1..]);
    }
  }

  lemma EStepKeepsGood(e: Engine, cfg: Config, a: Event)
    requires Inv(e.poker) && Good(e.poker) && ELegal(e, a) && (a.Proc? ==> !Hits(e.poker, a.a))
    ensures Good(EStep(e, cfg, a).poker)
  {
    match a {
      case Arrive(h, cam) =>
        RequestsAreTimed(cfg, h, cam);
        PostAllKeepsGood(e.poker, AllRequests(cfg, h, cam));
      case Proc(b) =>
        StepKeepsGood(e.poker, b);
    }
  }

  lemma EventKeepsReady(e: Engine, cfg: Config, a: Event)
    requires Ready(e.poker) && ELegal(e, a) && (a.Proc? ==> !Hits(e.poker, a.a))
    ensures Ready(EStep(e, cfg, a).poker)
  {
    hide Inv, Good, Punctual, Step, Legal, PostAll, Passes;
    EStepKeepsGood(e, cfg, a);
    match a {
      case Arrive(h, cam) =>
        RequestsKeepInv(e.poker, cfg, h, cam);
        ReceiveKeepsPunctual(e, cfg, h, cam);
      case Proc(b) =>
        StepKeepsInv(e.poker, b);
        ProcKeepsPunctual(e.poker, b);
    }
  }

  lemma EventKeepsPhase(e: Engine, cfg: Config, a: Event, k: nat)
    requires k < |Requests(cfg, e.focus)| && EInv(e, cfg, k) && Phase(e, Site(e, cfg, k), k)
    requires Good(e.poker) && ELegal(e, a) && (a.Proc? ==> Grants(e.poker, a.a) && !Hits(e.poker, a.a))
    ensures Phase(EStep(e, cfg, a), Site(e, cfg, k), k)
  {
    hide Inv, Good, Tracked, LimiterInv, Legal, Step;
    if a.Arrive? && a.h == e.focus && Passes(e.hintTime, cfg.interval, a.h, Micros(e.poker.now)) {
      AcceptedIsTracked(e, cfg, a.cam, k);
    } else if e.accepts != [] {
      EventKeepsTracked(e, cfg, a, Site(e, cfg, k), Number(e, k, |e.accepts| - 1), Last(e).at);
    }
  }

  lemma {:induction false} PostAllKeepsSlots(s: Poker, evs: seq<QueuedEvent>)
    ensures SlotsOf(PostAll(s, evs)) == SlotsOf(s)
    decreases |evs|
  {
    if evs != [] {
      PostAllKeepsSlots(Send(s, 0, evs[0]), evs[1..]);
    }
  }

  /** Standard input, or any other descriptor 0 with an outside owner that keeps it,
      makes every run sound. */
  lemma {:induction false} StandardInputMakesEventsSound(e: Engine, cfg: Config, run: seq<Event>, k: nat)
    requires k < |Requests(cfg, e.focus)| && EInv(e, cfg, k) && Good(e.poker) && ZeroKept(e.poker)
    requires LegalEvents(e, cfg, run) && forall i :: 0 <= i < |run| ==> run[i] != Proc(OtherClose(0))
    ensures ESound(e, cfg, run)
    decreases |run|
  {
    hide Step, Legal, LimiterInv, SitesInv, Passes, AllRequests;
    if run != [] {
      match run[0] {
        case Arrive(h, cam) => PostAllKeepsSlots(e.poker, AllRequests(cfg, h, cam));
        case Proc(b) =>
          assert b != OtherClose(0) && GoodAt(e.poker, 0);
          StepKeepsZero(e.poker, b);
      }
      EStepKeepsGood(e, cfg, run[0]);
      EStepKeepsInv(e, cfg, run[0], k);
      StandardInputMakesEventsSound(EStep(e, cfg, run[0]), cfg, run[1..], k);
    }
  }

  /** Hints of the watched kind follow each other within `gap` nanoseconds. */
  ghost predicate HintsWithin(e: Engine, cfg: Config, run: seq<Event>, gap: nat)
    requires LegalEvents(e, cfg, run)
    decreases |run|
  {
    run == [] || (
      && (run[0].Arrive? && run[0].h == e.focus && e.accepts != [] ==> e.poker.now <= e.lastArrival + gap)
      && HintsWithin(EStep(e, cfg, run[0]), cfg, run[1..], gap))
  }

  /** A hint of the watched kind is still to come. */
  ghost predicate ComesAgain(h: Hint, run: seq<Event>) {
    exists j :: 0 <= j < |run| && run[j].Arrive? && run[j].h == h
  }

  lemma {:induction false} NextArrivalInTime(e: Engine, cfg: Config, run: seq<Event>, gap: nat)
    requires LegalEvents(e, cfg, run) && HintsWithin(e, cfg, run, gap)
    requires ComesAgain(e.focus, run) && e.accepts != []
    ensures e.poker.now <= e.lastArrival + gap
    decreases |run|
  {
    if !(run[0].Arrive? && run[0].h == e.focus) {
      var j :| 0 <= j < |run| && run[j].Arrive? && run[j].h == e.focus;
      assert run[1..][j - 1] == run[j];
      NextArrivalInTime(EStep(e, cfg, run[0]), cfg, run[1..], gap);
      if run[0].Proc? {
        StepMovesTime(e.poker, run[0].a);
      } else {
        PostAllKeepsNow(e.poker, AllRequests(cfg, run[0].h, run[0].cam));
      }
    }
  }

  ghost predicate Boosted(s: Poker, r: QueuedEvent)
    requires r.PmQosOpenTimedEvent?
  {
    exists fd ::
      IsTimed(s, fd) && s.fds[fd].node == r.node && s.fds[fd].val == r.val && s.fds[fd].owner.timeout == r.timeout
  }

  /** From the first accepted hint to the last arrival, no time passes unboosted. */
  ghost predicate NoGap(e: Engine, cfg: Config, r: QueuedEvent, run: seq<Event>)
    requires LegalEvents(e, cfg, run) && r.PmQosOpenTimedEvent?
    decreases |run|
  {
    run == [] || (
      && (e.accepts != [] && ComesAgain(e.focus, run) && run[0].Proc? && run[0].a.Advance? && run[0].a.dt > 0 ==>
            Boosted(e.poker, r))
      && NoGap(EStep(e, cfg, run[0]), cfg, r, run[1..]))
  }

  lemma NoGapAtStep(e: Engine, cfg: Config, run: seq<Event>, k: nat, gap: nat)
    requires k < |Requests(cfg, e.focus)| && EInv(e, cfg, k) && Phase(e, Site(e, cfg, k), k)
    requires LegalEvents(e, cfg, run) && HintsWithin(e, cfg, run, gap)
    requires Get(cfg.interval, e.focus) * 1000 + gap <= Site(e, cfg, k).timeout
    requires run != [] && e.accepts != [] && ComesAgain(e.focus, run)
    requires run[0].Proc? && run[0].a.Advance? && run[0].a.dt > 0
    ensures Boosted(e.poker, Site(e, cfg, k))
  {
    var j :| 0 <= j < |run| && run[j].Arrive? && run[j].h == e.focus;
    assert run[1..][j - 1] == run[j];
    NextArrivalInTime(EStep(e, cfg, run[0]), cfg, run[1..], gap);
    var i := |e.accepts| - 1;
    var n := Number(e, k, i);
    assert SiteInv(e.poker, Site(e, cfg, k), n, e.accepts[i].at);
    assert RequestOpen(e.poker, n);
    OpenRequestFile(e, cfg, k, i);
  }

  lemma {:induction false} NoGapFrom(e: Engine, cfg: Config, run: seq<Event>, k: nat, gap: nat)
    requires k < |Requests(cfg, e.focus)| && EInv(e, cfg, k) && Phase(e, Site(e, cfg, k), k)
    requires LegalEvents(e, cfg, run) && AlwaysGrants(e, cfg, run) && HintsWithin(e, cfg, run, gap)
    requires Good(e.poker) && ESound(e, cfg, run)
    requires Get(cfg.interval, e.focus) * 1000 + gap <= Site(e, cfg, k).timeout
    ensures NoGap(e, cfg, Site(e, cfg, k), run)
    decreases |run|
  {
    hide Inv, SitesInv, Phase, Step, Good;
    if run != [] {
      if e.accepts != [] && ComesAgain(e.focus, run) && run[0].Proc? && run[0].a.Advance? && run[0].a.dt > 0 {
        NoGapAtStep(e, cfg, run, k, gap);
      }
      EStepKeepsInv(e, cfg, run[0], k);
      EStepKeepsGood(e, cfg, run[0]);
      EventKeepsPhase(e, cfg, run[0], k);
      NoGapFrom(EStep(e, cfg, run[0]), cfg, run[1..], k, gap);
    }
  }

  /** For every kind of hint and every request it makes: if the hints come at most
      (duration - interval) apart, and no stray close hits a timed file, the request
      is up at every instant from the first accepted hint to the last arrival. */
  lemma GapFreeBoost(e: Engine, cfg: Config, run: seq<Event>, k: nat, gap: nat)
    requires k < |Requests(cfg, e.focus)| && EInitial(e)
    requires LegalEvents(e, cfg, run) && ESound(e, cfg, run)
    requires AlwaysGrants(e, cfg, run) && HintsWithin(e, cfg, run, gap)
    requires Get(cfg.interval, e.focus) * 1000 + gap <= Requests(cfg, e.focus)[k].timeout
    ensures NoGap(e, cfg, Requests(cfg, e.focus)[k], run)
  {
    Start(e, cfg, k);
    NoGapFrom(e, cfg, run, k, gap);
  }

  /** As shipped, with standard input left alone: interaction hints 10 ms apart keep
      the 100 ms boost up. */
  lemma InteractionBoostIsConstant(e: Engine, cfg: Config, run: seq<Event>)
    requires EInitial(e) && e.focus == INTERACTION && cfg.interval == INTERVALS
    requires 0 in e.poker.fds && forall i :: 0 <= i < |run| ==> run[i] != Proc(OtherClose(0))
    requires LegalEvents(e, cfg, run) && AlwaysGrants(e, cfg, run) && HintsWithin(e, cfg, run, Millis(10))
    ensures NoGap(e, cfg, PmQosOpenTimedEvent("/dev/cpu_freq_min", cfg.interactionBoost, Millis(100)), run)
  {
    Start(e, cfg, 0);
    StandardInputMakesEventsSound(e, cfg, run, 0);
    GapFreeBoost(e, cfg, run, 0, Millis(10));
  }
}

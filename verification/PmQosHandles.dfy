/** Handles of createPmQosHandle: a request stays open for as long as somebody
    holds the client end of a pipe. The looper watches the server end, and its
    callback closes request and server end once the client end is gone. When the
    looper cannot watch it the handle is handed out all the same: the code looks at
    the result of the pipe call a second time.

    Descriptors are numbers that the kernel hands out again after a close, so what
    a descriptor stands for names its handle; handles are numbered by creation. */
module PmQosHandles {
  import Descriptors

  datatype Fd = Request(h: nat, node: string, val: int) | Server(h: nat) | Client(h: nat) | Other

  datatype Handle = Handle(node: string, val: int, file: nat, server: nat, client: nat, watched: bool)

  /** `listening` holds the callback context of each watched descriptor: the file
      it is to close. `handles` is history. */
  datatype System = System(fds: map<nat, Fd>, listening: map<nat, nat>, handles: seq<Handle>)

  datatype Events = Events(error: bool, hangup: bool)

  /** `added` is what the looper answers to the registration. */
  datatype Action =
    | Create(node: string, val: int, o: Descriptors.OpenResult, p: Descriptors.PipeResult, added: bool)
    | CloseClient(fd: nat)
    | Callback(fd: nat, events: Events)
    | OtherOpen(fd: nat)
    | OtherClose(fd: nat)

  /** The client end of handle h, not yet closed by whoever holds it. */
  predicate Held(s: System, h: nat) {
    h < |s.handles| && s.handles[h].client in s.fds && s.fds[s.handles[h].client] == Client(h)
  }

  /** The kernel hands out free descriptors, and reports an error or a hang-up on a
      server end only when the client end is closed. */
  predicate Legal(s: System, a: Action) {
    match a
    case Create(_, _, o, p, _) =>
      && (o.Opened? ==> o.fd !in s.fds)
      && (p.Pipe? ==> p.server !in s.fds && p.client !in s.fds && p.server != p.client)
      && (o.Opened? && p.Pipe? ==> o.fd != p.server && o.fd != p.client)
    case CloseClient(fd) => fd in s.fds && s.fds[fd].Client?
    case Callback(fd, events) =>
      && fd in s.listening && fd in s.fds
      && ((events.error || events.hangup) && s.fds[fd].Server? ==> !Held(s, s.fds[fd].h))
    case OtherOpen(fd) => fd !in s.fds
    case OtherClose(fd) => fd in s.fds && s.fds[fd].Other?
  }

  function Step(s: System, a: Action): System
    requires Legal(s, a)
  {
    match a
    case Create(node, val, o, p, added) =>
      if o.OpenFailed? || p.PipeFailed? then s
      else
        var h := |s.handles|;
        System(s.fds[o.fd := Request(h, node, val)][p.server := Server(h)][p.client := Client(h)],
               if added then s.listening[p.server := o.fd] else s.listening,
               s.handles + [Handle(node, val, o.fd, p.server, p.client, added)])
    case CloseClient(fd) => s.(fds := s.fds - {fd})
    case Callback(fd, events) =>
      if events.error || events.hangup then
        s.(fds := s.fds - {fd, s.listening[fd]}, listening := s.listening - {fd})
      else s
    case OtherOpen(fd) => s.(fds := s.fds[fd := Other])
    case OtherClose(fd) => s.(fds := s.fds - {fd})
  }

  ghost predicate Initial(s: System) {
    s.listening == map[] && s.handles == [] && forall fd :: fd in s.fds ==> s.fds[fd].Other?
  }

  ghost predicate LegalRun(s: System, run: seq<Action>)
    decreases |run|
  {
    run == [] || (Legal(s, run[0]) && LegalRun(Step(s, run[0]), run[1..]))
  }

  ghost function After(s: System, run: seq<Action>): System
    requires LegalRun(s, run)
    decreases |run|
  {
    if run == [] then s else After(Step(s, run[0]), run[1..])
  }

  /** Handle h's request and server end are open, and watched if they could be. */
  ghost predicate Live(s: System, h: nat) {
    h < |s.handles| &&
    var k := s.handles[h];
    && k.file in s.fds && s.fds[k.file] == Request(h, k.node, k.val)
    && k.server in s.fds && s.fds[k.server] == Server(h)
    && (k.watched ==> k.server in s.listening && s.listening[k.server] == k.file)
  }

  /** Every descriptor of a handle is the one the handle was made with, and stands
      only while the handle is live. */
  ghost predicate FdInv(s: System, fd: nat)
    requires fd in s.fds
  {
    match s.fds[fd]
    case Request(h, _, _) => Live(s, h) && s.handles[h].file == fd
    case Server(h) => Live(s, h) && s.handles[h].server == fd
    case Client(h) => Live(s, h) && s.handles[h].client == fd
    case Other => true
  }

  ghost predicate Inv(s: System) {
    && (forall fd {:trigger FdInv(s, fd)} :: fd in s.fds ==> FdInv(s, fd))
    && (forall fd :: fd in s.listening ==>
          fd in s.fds && s.fds[fd].Server? && s.fds[fd].h < |s.handles| && s.handles[s.fds[fd].h].watched)
  }

  /** The callback finds its own two descriptors open, and closes no other handle's. */
  lemma CallbackClosesItsOwn(s: System, fd: nat)
    requires Inv(s) && fd in s.listening
    ensures
      var h := s.fds[fd].h;
      && Live(s, h) && s.handles[h].watched && s.handles[h].server == fd && s.listening[fd] == s.handles[h].file
      && s.fds[s.listening[fd]] == Request(h, s.handles[h].node, s.handles[h].val)
  {
    assert FdInv(s, fd);
  }

  /** A step keeps a live handle live unless it is that handle's callback. */
  lemma StepKeepsLive(s: System, a: Action, h: nat)
    requires Inv(s) && Legal(s, a) && Live(s, h)
    ensures Live(Step(s, a), h) <==>
              !(a.Callback? && a.fd == s.handles[h].server && (a.events.error || a.events.hangup))
  {
    if a.Callback? {
      CallbackClosesItsOwn(s, a.fd);
    }
  }

  lemma StepKeepsInv(s: System, a: Action)
    requires Inv(s) && Legal(s, a)
    ensures Inv(Step(s, a))
  {
    var t := Step(s, a);
    if a.Callback? {
      CallbackClosesItsOwn(s, a.fd);
    }
    forall fd | fd in t.fds ensures FdInv(t, fd) {
      if fd in s.fds {
        assert FdInv(s, fd);
        if !s.fds[fd].Other? {
          StepKeepsLive(s, a, s.fds[fd].h);
        }
      }
    }
    forall fd | fd in t.listening
      ensures fd in t.fds && t.fds[fd].Server? && t.fds[fd].h < |t.handles| && t.handles[t.fds[fd].h].watched
    {
      if fd in s.listening {
        CallbackClosesItsOwn(s, fd);
      }
    }
  }

  lemma {:induction false} RunKeepsInv(s: System, run: seq<Action>)
    requires Inv(s) && LegalRun(s, run)
    ensures Inv(After(s, run))
    decreases |run|
  {
    if run != [] {
      StepKeepsInv(s, run[0]);
      RunKeepsInv(Step(s, run[0]), run[1..]);
    }
  }

  /** While its client end is held, a handle's request is open with its value. */
  lemma HeldHandleKeepsItsRequest(s: System, run: seq<Action>, h: nat)
    requires Initial(s) && LegalRun(s, run) && Held(After(s, run), h)
    ensures
      var t := After(s, run);
      var k := t.handles[h];
      k.file in t.fds && t.fds[k.file] == Request(h, k.node, k.val)
  {
    RunKeepsInv(s, run);
    assert FdInv(After(s, run), After(s, run).handles[h].client);
  }

  /** A step closes a request exactly when it is the callback for a handle nobody
      holds any more. */
  lemma ClosedOnlyByItsCallback(s: System, a: Action, fd: nat)
    requires Inv(s) && Legal(s, a) && fd in s.fds && s.fds[fd].Request?
    ensures s.fds[fd].h < |s.handles| && s.handles[s.fds[fd].h].file == fd
    ensures fd !in Step(s, a).fds <==>
              a.Callback? && (a.events.error || a.events.hangup) && a.fd == s.handles[s.fds[fd].h].server
    ensures fd !in Step(s, a).fds ==> !Held(s, s.fds[fd].h)
    ensures fd in Step(s, a).fds ==> Step(s, a).fds[fd] == s.fds[fd]
  {
    assert FdInv(s, fd);
    StepKeepsLive(s, a, s.fds[fd].h);
    if a.Callback? {
      CallbackClosesItsOwn(s, a.fd);
    }
  }

  /** So a handle is closed once: when it is no longer live it never is again. */
  lemma {:induction false} ClosedForGood(s: System, run: seq<Action>, h: nat)
    requires Inv(s) && LegalRun(s, run) && h < |s.handles| && !Live(s, h)
    ensures h < |After(s, run).handles| && !Live(After(s, run), h)
    ensures forall fd :: fd in After(s, run).fds && !After(s, run).fds[fd].Other? ==> After(s, run).fds[fd].h != h
    decreases |run|
  {
    if run == [] {
      forall fd | fd in s.fds && !s.fds[fd].Other? ensures s.fds[fd].h != h {
        assert FdInv(s, fd);
      }
    } else {
      StepKeepsInv(s, run[0]);
      ClosedForGood(Step(s, run[0]), run[1..], h);
    }
  }

  /** A handle that could not be watched is never closed. */
  lemma {:induction false} UnwatchedStaysOpen(s: System, run: seq<Action>, h: nat)
    requires Inv(s) && LegalRun(s, run) && Live(s, h) && !s.handles[h].watched
    ensures Live(After(s, run), h) && After(s, run).handles[h] == s.handles[h]
    decreases |run|
  {
    if run != [] {
      var a := run[0];
      if a.Callback? {
        CallbackClosesItsOwn(s, a.fd);
      }
      StepKeepsLive(s, a, h);
      StepKeepsInv(s, a);
      UnwatchedStaysOpen(Step(s, a), run[1..], h);
    }
  }

  /** It leaks, from every start-up: its holder lets go, and nothing is left that
      would close its request. */
  lemma RefusedWatchLeaks(s: System, node: string, val: int, file: nat, server: nat, client: nat)
    returns (run: seq<Action>)
    requires Initial(s) && file !in s.fds && server !in s.fds && client !in s.fds
    requires file != server && file != client && server != client
    ensures LegalRun(s, run) && |After(s, run).handles| == 1 && !Held(After(s, run), 0)
    ensures After(s, run).listening == map[]
    ensures file in After(s, run).fds && After(s, run).fds[file] == Request(0, node, val)
  {
    var create := Create(node, val, Descriptors.Opened(file), Descriptors.Pipe(server, client), false);
    run := [create, CloseClient(client)];
    var t := Step(s, create);
    assert run[1..] == [CloseClient(client)];
    assert LegalRun(t, run[1..]) && After(t, run[1..]) == Step(t, CloseClient(client));
  }

  /** What leaks, exactly: once every client end is closed and every hang-up has been
      handled, the requests and server ends left open are those of the handles that
      could not be watched. A hang-up that has not been handled can be. */
  lemma NothingElseLeaks(s: System, run: seq<Action>)
    requires Initial(s) && LegalRun(s, run)
    requires forall h :: !Held(After(s, run), h)
    ensures
      var t := After(s, run);
      && (forall fd :: fd in t.listening ==> Legal(t, Callback(fd, Events(true, false))))
      && (t.listening == map[] ==>
            forall h: nat :: h < |t.handles| ==> (Live(t, h) <==> !t.handles[h].watched))
      && (t.listening == map[] ==>
            forall fd :: fd in t.fds && !t.fds[fd].Other? ==>
              t.fds[fd].h < |t.handles| && !t.handles[t.fds[fd].h].watched)
  {
    RunKeepsInv(s, run);
    UnwatchedAreLive(s, run);
    var t := After(s, run);
    forall fd | fd in t.fds ensures FdInv(t, fd) {}
    forall fd | fd in t.listening ensures Legal(t, Callback(fd, Events(true, false))) {
      CallbackClosesItsOwn(t, fd);
    }
  }

  ghost predicate UnwatchedLive(s: System) {
    forall h: nat {:trigger Live(s, h)} :: h < |s.handles| && !s.handles[h].watched ==> Live(s, h)
  }

  lemma {:induction false} UnwatchedAreLive(s: System, run: seq<Action>)
    requires Inv(s) && UnwatchedLive(s) && LegalRun(s, run)
    ensures UnwatchedLive(After(s, run))
    decreases |run|
  {
    if run != [] {
      var a, t := run[0], Step(s, run[0]);
      StepKeepsInv(s, a);
      forall h: nat | h < |t.handles| && !t.handles[h].watched ensures Live(t, h) {
        if h < |s.handles| {
          assert Live(s, h);
          if a.Callback? {
            CallbackClosesItsOwn(s, a.fd);
          }
          StepKeepsLive(s, a, h);
        }
      }
      UnwatchedAreLive(t, run[1..]);
    }
  }

  /** The code's own form: descriptors and callback registrations updated in place. */
  class HandleServer {
    var fds: map<nat, Fd>
    var listening: map<nat, nat>
    ghost var handles: seq<Handle>
    var made: nat

    ghost predicate Valid()
      reads this
    {
      made == |handles|
    }

    ghost function State(): System
      reads this
    {
      System(fds, listening, handles)
    }

    constructor (fds: map<nat, Fd>)
      requires forall fd :: fd in fds ==> fds[fd].Other?
      ensures Valid() && Initial(State()) && this.fds == fds
    {
      this.fds, listening, handles, made := fds, map[], [], 0;
    }

    /** The looper may refuse; `added` is its answer. */
    method ListenForHandleToCloseFd(handle: nat, fd: nat, added: bool)
      modifies this`listening
      ensures listening == if added then old(listening)[handle := fd] else old(listening)
    {
      if added {
        listening := listening[handle := fd];
      }
    }

    /** The client end of a new handle, or -1 with nothing left open. */
    method CreateHandleForPmQosRequest(
      node: string, val: int, o: Descriptors.OpenResult, p: Descriptors.PipeResult, added: bool)
      returns (r: int)
      requires Valid() && Legal(State(), Create(node, val, o, p, added))
      modifies this
      ensures Valid() && State() == Step(old(State()), Create(node, val, o, p, added))
      ensures r == if o.Opened? && p.Pipe? then p.client else -1
      ensures r >= 0 ==> Held(State(), |handles| - 1) && handles[|handles| - 1].client == r
    {
      if o.OpenFailed? {
        return -1;
      }
      ghost var before := fds;
      fds := fds[o.fd := Request(made, node, val)];
      if p.PipeFailed? {
        fds := fds - {o.fd};
        assert fds == before;
        return -1;
      }
      fds := fds[p.server := Server(made)][p.client := Client(made)];
      handles := handles + [Handle(node, val, o.fd, p.server, p.client, added)];
      made := made + 1;
      ListenForHandleToCloseFd(p.server, o.fd, added);
      return p.client;
    }

    method PipeCloseCb(handle: nat, events: Events) returns (keep: bool)
      requires Valid() && Inv(State()) && Legal(State(), Callback(handle, events))
      modifies this
      ensures Valid() && Inv(State()) && State() == Step(old(State()), Callback(handle, events))
      ensures keep <==> handle in listening
    {
      StepKeepsInv(State(), Callback(handle, events));
      if events.error || events.hangup {
        var fd := listening[handle];
        listening := listening - {handle};
        fds := fds - {handle};
        fds := fds - {fd};
        assert fds == old(fds) - {handle, old(listening)[handle]};
        return false;
      }
      return true;
    }
  }
}

/** Two handshakes over barriers: the poker's constructor waits until its worker has
    a looper, and createPmQosHandle waits until the looper has stored the handle. A
    waiter takes the wait loop of the barrier step by step. */
module Handshake {
  import opened Common
  import opened Barriers

  /** common_power_open waits inside the constructor and then once more itself. */
  datatype MainPc = InConstructor | InOpen | Ready

  datatype WorkerPc =
    | Preparing
    | Opening
    | NoLooper
    | Idle
    | Storing(c: nat, v: int)
    | OpeningDone(c: nat)

  /** A call of createPmQosHandle waits on its own barrier; `ret` is its local
      variable, unset at first. */
  datatype Call = Call(done: Gate, ret: Option<int>, returned: Option<int>)

  /** `results` is history: the handle the looper made for each call. */
  datatype System = System(
    ready: Gate,
    hasLooper: bool,
    main: MainPc,
    worker: WorkerPc,
    calls: map<nat, Call>,
    queue: set<nat>,
    results: map<nat, int>)

  datatype Action =
    | Prepare(ok: bool)
    | OpenReady
    | MainTurn
    | MainWake
    | StartCall(c: nat)
    | RunEvent(c: nat, v: int)
    | Store
    | OpenDone
    | CallTurn(c: nat)
    | CallWake(c: nat)

  /** The one waiter of each barrier. */
  const ME: nat := 0

  predicate Enabled(s: System, a: Action) {
    match a
    case Prepare(_) => s.worker.Preparing?
    case OpenReady => s.worker.Opening?
    case MainTurn => !s.main.Ready? && CanDo(s.ready, Turn(ME))
    case MainWake => !s.main.Ready? && CanDo(s.ready, Wake(ME))
    case StartCall(c) => s.main.Ready? && c !in s.calls
    case RunEvent(c, _) => s.worker.Idle? && c in s.queue
    case Store => s.worker.Storing? && s.worker.c in s.calls
    case OpenDone => s.worker.OpeningDone? && s.worker.c in s.calls
    case CallTurn(c) => c in s.calls && CanDo(s.calls[c].done, Turn(ME))
    case CallWake(c) => c in s.calls && CanDo(s.calls[c].done, Wake(ME))
  }

  /** A wait that has passed; the constructor's is followed by that of its caller. */
  function MainPassed(s: System, g: Gate): System
    requires ME !in g.waiters
  {
    if s.main.InConstructor? then s.(ready := Do(g, Enter(ME)), main := InOpen) else s.(ready := g, main := Ready)
  }

  /** A call whose wait has passed returns its local variable, whatever that holds
      (0 stands for an uninitialised value). */
  function CallAfterTurn(k: Call): Call
    requires CanDo(k.done, Turn(ME))
  {
    var g := Do(k.done, Turn(ME));
    if ME in g.waiters then k.(done := g)
    else k.(done := g, returned := Some(if k.ret.Some? then k.ret.value else 0))
  }

  function Step(s: System, a: Action): System
    requires Enabled(s, a)
  {
    match a
    case Prepare(ok) => s.(hasLooper := ok, worker := if ok then Opening else NoLooper)
    case OpenReady => s.(ready := Do(s.ready, Open), worker := Idle)
    case MainTurn =>
      var g := Do(s.ready, Turn(ME));
      if ME in g.waiters then s.(ready := g) else MainPassed(s, g)
    case MainWake => s.(ready := Do(s.ready, Wake(ME)))
    case StartCall(c) => s.(calls := s.calls[c := Call(Do(NEW_GATE, Enter(ME)), None, None)], queue := s.queue + {c})
    case RunEvent(c, v) => s.(worker := Storing(c, v), queue := s.queue - {c}, results := s.results[c := v])
    case Store =>
      var Storing(c, v) := s.worker;
      s.(calls := s.calls[c := s.calls[c].(ret := Some(v))], worker := OpeningDone(c))
    case OpenDone =>
      var c := s.worker.c;
      s.(calls := s.calls[c := s.calls[c].(done := Do(s.calls[c].done, Open))], worker := Idle)
    case CallTurn(c) => s.(calls := s.calls[c := CallAfterTurn(s.calls[c])])
    case CallWake(c) => s.(calls := s.calls[c := s.calls[c].(done := Do(s.calls[c].done, Wake(ME)))])
  }

  ghost predicate Initial(s: System) {
    && s.ready == Do(NEW_GATE, Enter(ME)) && !s.hasLooper && s.main == InConstructor && s.worker == Preparing
    && s.calls == map[] && s.queue == {} && s.results == map[]
  }

  ghost predicate Reaches(s: System, run: seq<Action>, t: System)
    decreases |run|
  {
    if run == [] then s == t else Enabled(s, run[0]) && Reaches(Step(s, run[0]), run[1..], t)
  }

  ghost predicate StartInv(s: System) {
    && GateInv(s.ready) && (ME in s.ready.waiters <==> !s.main.Ready?)
    && (s.hasLooper <==> !s.worker.Preparing? && !s.worker.NoLooper?)
    && (s.ready.state == OPENED <==> s.hasLooper && !s.worker.Opening?)
    && (s.main.Ready? || s.main.InOpen? ==> s.ready.state == OPENED)
    && (!s.main.Ready? ==> s.calls == map[])
  }

  /** Where call c stands, seen from the looper: queued, being run, or run. */
  ghost predicate CallInv(s: System, c: nat)
    requires c in s.calls
  {
    var k := s.calls[c];
    && GateInv(k.done) && (ME in k.done.waiters <==> k.returned.None?)
    && (c in s.results <==> c !in s.queue)
    && (k.ret.Some? ==> c in s.results && k.ret.value == s.results[c])
    && (k.done.state == OPENED ==> k.ret.Some?)
    && (k.done.state == CLOSED ==>
          || c in s.queue
          || ((s.worker.Storing? || s.worker.OpeningDone?) && s.worker.c == c))
    && (k.returned.Some? ==> k.done.state == OPENED && k.ret == k.returned)
  }

  ghost predicate Inv(s: System) {
    && StartInv(s)
    && (forall c :: c in s.calls ==> CallInv(s, c))
    && (forall c :: c in s.queue ==> c in s.calls)
    && (forall c :: c in s.results ==> c in s.calls)
    && (s.worker.Storing? ==>
          && s.worker.c in s.results && s.results[s.worker.c] == s.worker.v
          && s.calls[s.worker.c].done.state == CLOSED)
    && (s.worker.OpeningDone? ==> s.worker.c in s.calls && s.calls[s.worker.c].ret.Some?)
  }

  lemma StartStepKeepsInv(s: System, a: Action)
    requires Inv(s) && Enabled(s, a) && (a.Prepare? || a.OpenReady? || a.MainTurn? || a.MainWake?)
    ensures Inv(Step(s, a))
  {
    assert s.calls == map[];
  }

  lemma LooperStepKeepsInv(s: System, a: Action)
    requires Inv(s) && Enabled(s, a) && (a.RunEvent? || a.Store? || a.OpenDone?)
    ensures Inv(Step(s, a))
  {
    var t := Step(s, a);
    forall c | c in t.calls ensures CallInv(t, c) {
      assert CallInv(s, c);
    }
  }

  lemma StartCallKeepsInv(s: System, a: Action)
    requires Inv(s) && Enabled(s, a) && a.StartCall?
    ensures Inv(Step(s, a))
  {
    var t := Step(s, a);
    forall c | c in t.calls ensures CallInv(t, c) {
      if c in s.calls {
        assert CallInv(s, c);
      }
    }
  }

  /** The turn of one call: it passes only with its variable set. */
  lemma TurnOfACall(k: Call)
    requires GateInv(k.done) && CanDo(k.done, Turn(ME)) && (k.done.state == OPENED ==> k.ret.Some?)
    ensures
      var t := CallAfterTurn(k);
      && GateInv(t.done) && t.done.state == k.done.state && t.ret == k.ret
      && (ME in t.done.waiters <==> k.done.state == CLOSED)
      && t.returned == (if k.done.state == OPENED then k.ret else k.returned)
  {
  }

  lemma CallTurnKeepsInv(s: System, a: Action)
    requires Inv(s) && Enabled(s, a) && a.CallTurn?
    ensures Inv(Step(s, a))
  {
    hide CallAfterTurn;
    assert CallInv(s, a.c);
    TurnOfACall(s.calls[a.c]);
    var t := Step(s, a);
    forall c | c in t.calls ensures CallInv(t, c) {
      assert CallInv(s, c);
    }
  }

  lemma CallWakeKeepsInv(s: System, a: Action)
    requires Inv(s) && Enabled(s, a) && a.CallWake?
    ensures Inv(Step(s, a))
  {
    var t := Step(s, a);
    forall c | c in t.calls ensures CallInv(t, c) {
      assert CallInv(s, c);
    }
  }

  lemma StepKeepsInv(s: System, a: Action)
    requires Inv(s) && Enabled(s, a)
    ensures Inv(Step(s, a))
  {
    hide Inv, Step, Enabled;
    match a {
      case Prepare(_) | OpenReady | MainTurn | MainWake => StartStepKeepsInv(s, a);
      case RunEvent(_, _) | Store | OpenDone => LooperStepKeepsInv(s, a);
      case StartCall(_) => StartCallKeepsInv(s, a);
      case CallTurn(_) => CallTurnKeepsInv(s, a);
      case CallWake(_) => CallWakeKeepsInv(s, a);
    }
  }

  lemma {:induction false} ReachableInv(s: System, run: seq<Action>, t: System)
    requires Inv(s) && Reaches(s, run, t)
    ensures Inv(t)
    decreases |run|
  {
    if run != [] {
      StepKeepsInv(s, run[0]);
      ReachableInv(Step(s, run[0]), run[1..], t);
    }
  }

  /** No event is posted while the worker's looper is still null: a call starts
      only after both waits of common_power_open have passed an opened barrier. */
  lemma PostsFindALooper(s: System, run: seq<Action>, t: System, c: nat)
    requires Initial(s) && Reaches(s, run, t) && Enabled(t, StartCall(c))
    ensures t.hasLooper && t.ready.state == OPENED
  {
    ReachableInv(s, run, t);
  }

  /** createPmQosHandle returns exactly what the looper made for it, and only
      after the looper has stored it and opened the barrier. */
  lemma ReturnsTheStoredHandle(s: System, run: seq<Action>, t: System, c: nat)
    requires Initial(s) && Reaches(s, run, t)
    requires c in t.calls && t.calls[c].returned.Some?
    ensures c in t.results && t.calls[c].returned == Some(t.results[c])
    ensures t.calls[c].ret == Some(t.results[c]) && t.calls[c].done.state == OPENED
  {
    ReachableInv(s, run, t);
    assert CallInv(t, c);
  }

  /** No wakeup is lost: whoever is blocked waits on a barrier that is still closed. */
  lemma BlockedOnlyWhileClosed(s: System, run: seq<Action>, t: System)
    requires Initial(s) && Reaches(s, run, t)
    ensures CanDo(t.ready, Wake(ME)) ==> t.ready.state == CLOSED
    ensures forall c :: c in t.calls && CanDo(t.calls[c].done, Wake(ME)) ==> t.calls[c].done.state == CLOSED
  {
    ReachableInv(s, run, t);
    forall c | c in t.calls ensures CallInv(t, c) {}
  }

  /** Steps still to be taken by looper and caller until call c returns, given
      that the worker runs c's event next. */
  ghost function Distance(s: System, c: nat): nat
    requires c in s.calls
  {
    if s.calls[c].returned.Some? then 0
    else if s.calls[c].done.state == OPENED then 1
    else if s.worker == OpeningDone(c) then 2
    else if s.worker.Storing? && s.worker.c == c then 3
    else 4
  }

  /** The next step toward the return of call c, by the looper or by the caller. */
  ghost function Next(s: System, c: nat, v: int): Action
    requires c in s.calls
  {
    if s.calls[c].done.state == OPENED then CallTurn(c)
    else if s.worker == OpeningDone(c) then OpenDone
    else if s.worker.Storing? && s.worker.c == c then Store
    else RunEvent(c, v)
  }

  lemma CallCanMove(t: System, c: nat, v: int)
    requires Inv(t) && c in t.calls && t.calls[c].returned.None?
    requires t.worker.Storing? || t.worker.OpeningDone? ==> t.worker.c == c
    ensures Enabled(t, Next(t, c, v)) && Distance(Step(t, Next(t, c, v)), c) < Distance(t, c)
  {
    assert CallInv(t, c);
    if t.calls[c].done.state == OPENED {
    } else if t.worker == OpeningDone(c) {
    } else if t.worker.Storing? && t.worker.c == c {
    } else {
      assert t.worker.Idle?;
    }
  }

  /** No deadlock: a call that has not returned always has such a step to wait
      for (a worker busy with another call finishes that one first). */
  lemma EveryCallCanReturn(s: System, run: seq<Action>, t: System, c: nat, v: int)
    requires Initial(s) && Reaches(s, run, t)
    requires c in t.calls && t.calls[c].returned.None?
    ensures
      || (Enabled(t, Next(t, c, v)) && Distance(Step(t, Next(t, c, v)), c) < Distance(t, c))
      || (t.worker.Storing? && t.worker.c != c && Enabled(t, Store))
      || (t.worker.OpeningDone? && t.worker.c != c && Enabled(t, OpenDone))
  {
    hide Step;
    ReachableInv(s, run, t);
    if t.worker.Storing? || t.worker.OpeningDone? ==> t.worker.c == c {
      CallCanMove(t, c, v);
    }
  }
}

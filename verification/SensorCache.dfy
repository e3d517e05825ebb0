/** The cached poll timeout when control threads overlap. Each call stores its
    entry of the table, scans the table for the minimum and assigns the result, with
    no lock, so a thread may assign a minimum that another store has outdated. */
module SensorCache {
  import opened SensorPollTime

  datatype WriterPc = Entered(i: nat, v: nat) | Scanning(next: nat, least: nat)

  /** `clean` and `current` are history: the threads whose scan no store has
      overlapped, and whether such a thread assigned last, with no store since. */
  datatype System = System(
    requested: seq<nat>, polltime: nat, writers: map<nat, WriterPc>, clean: set<nat>, current: bool)

  datatype Action = Enter(w: nat, i: nat, v: nat) | Store(w: nat) | Look(w: nat) | Assign(w: nat)

  predicate Enabled(s: System, a: Action) {
    match a
    case Enter(w, i, v) => w !in s.writers && i < |s.requested| && v <= UINT_MAX
    case Store(w) => w in s.writers && s.writers[w].Entered? && s.writers[w].i < |s.requested|
    case Look(w) => w in s.writers && s.writers[w].Scanning? && s.writers[w].next < |s.requested|
    case Assign(w) => w in s.writers && s.writers[w].Scanning? && s.writers[w].next == |s.requested|
  }

  function Step(s: System, a: Action): System
    requires Enabled(s, a)
  {
    match a
    case Enter(w, i, v) => s.(writers := s.writers[w := Entered(i, v)])
    case Store(w) =>
      var Entered(i, v) := s.writers[w];
      System(s.requested[i := v], s.polltime, s.writers[w := Scanning(0, UINT_MAX)], {w}, false)
    case Look(w) =>
      var Scanning(next, least) := s.writers[w];
      s.(writers := s.writers[w := Scanning(next + 1, if s.requested[next] < least then s.requested[next] else least)])
    case Assign(w) =>
      s.(polltime := s.writers[w].least, writers := s.writers - {w}, clean := s.clean - {w}, current := w in s.clean)
  }

  ghost predicate Inv(s: System) {
    && (s.current ==> s.polltime == Min(s.requested))
    && (forall w :: w in s.clean ==> w in s.writers && s.writers[w].Scanning?)
    && (forall w :: w in s.writers && s.writers[w].Scanning? ==> s.writers[w].next <= |s.requested|)
    && (forall w :: w in s.clean ==> s.writers[w].least == Min(s.requested[..s.writers[w].next]))
  }

  lemma StoreKeepsInv(s: System, w: nat)
    requires Inv(s) && Enabled(s, Store(w))
    ensures Inv(Step(s, Store(w)))
  {
    assert Step(s, Store(w)).requested[..0] == [];
  }

  lemma LookKeepsInv(s: System, w: nat)
    requires Inv(s) && Enabled(s, Look(w))
    ensures Inv(Step(s, Look(w)))
  {
    var next := s.writers[w].next;
    assert s.requested[..next + 1][..next] == s.requested[..next];
  }

  lemma StepKeepsInv(s: System, a: Action)
    requires Inv(s) && Enabled(s, a)
    ensures Inv(Step(s, a))
  {
    match a {
      case Enter(w, i, v) =>
      case Store(w) => StoreKeepsInv(s, w);
      case Look(w) => LookKeepsInv(s, w);
      case Assign(w) => assert s.requested[..|s.requested|] == s.requested;
    }
  }

  ghost predicate LegalRun(s: System, run: seq<Action>)
    decreases |run|
  {
    run == [] || (Enabled(s, run[0]) && LegalRun(Step(s, run[0]), run[1..]))
  }

  ghost function After(s: System, run: seq<Action>): System
    requires LegalRun(s, run)
    decreases |run|
  {
    if run == [] then s else After(Step(s, run[0]), run[1..])
  }

  /** No call is under way and the cache is right. */
  const START_CACHE: System := System(START.requested, UINT_MAX, map[], {}, true)

  lemma {:induction false} RunKeepsInv(s: System, run: seq<Action>)
    requires Inv(s) && LegalRun(s, run)
    ensures Inv(After(s, run))
    decreases |run|
  {
    if run != [] {
      StepKeepsInv(s, run[0]);
      RunKeepsInv(Step(s, run[0]), run[1..]);
    }
  }

  lemma StartInv()
    ensures Inv(START_CACHE)
  {
    assert forall i :: 0 <= i < |START.requested| ==> START.requested[i] == UINT_MAX;
  }

  /** For all interleavings from start-up: the cache is the minimum of the table
      whenever the thread that assigned last had scanned it since the last store. */
  lemma CurrentCacheIsMinimum(run: seq<Action>)
    requires LegalRun(START_CACHE, run) && After(START_CACHE, run).current
    ensures After(START_CACHE, run).polltime == Min(After(START_CACHE, run).requested)
  {
    StartInv();
    RunKeepsInv(START_CACHE, run);
  }

  /** In particular the thread that stored last repairs the cache when it assigns. */
  lemma LastStorerRepairs(run: seq<Action>, w: nat)
    requires LegalRun(START_CACHE, run) && w in After(START_CACHE, run).clean
    requires Enabled(After(START_CACHE, run), Assign(w))
    ensures
      var t := Step(After(START_CACHE, run), Assign(w));
      t.current && t.polltime == Min(t.requested)
  {
    StartInv();
    RunKeepsInv(START_CACHE, run);
    StepKeepsInv(After(START_CACHE, run), Assign(w));
  }

  // ----- an outdated minimum -----

  ghost predicate Leads(s: System, run: seq<Action>, t: System) {
    LegalRun(s, run) && After(s, run) == t
  }

  lemma {:induction false} LeadsOn(s: System, run: seq<Action>, t: System, more: seq<Action>, u: System)
    requires Leads(s, run, t) && Leads(t, more, u)
    ensures Leads(s, run + more, u)
    decreases |run|
  {
    if run == [] {
      assert run + more == more;
    } else {
      assert Leads(Step(s, run[0]), run[1..], t);
      LeadsOn(Step(s, run[0]), run[1..], t, more, u);
      assert (run + more)[1..] == run[1..] + more;
    }
  }

  lemma LeadsOnce(s: System, a: Action)
    requires Enabled(s, a)
    ensures Leads(s, [a], Step(s, a))
  {
    assert [a][1..] == [];
  }

  /** The calls that a run begins, in order. */
  datatype Call = Call(w: nat, i: nat, v: nat)

  function Calls(run: seq<Action>): seq<Call> {
    if run == [] then []
    else
      var rest := Calls(run[1..]);
      match run[0]
      case Enter(w, i, v) => [Call(w, i, v)] + rest
      case _ => rest
  }

  lemma {:induction false} CallsOfBoth(run: seq<Action>, more: seq<Action>)
    ensures Calls(run + more) == Calls(run) + Calls(more)
    decreases |run|
  {
    if run == [] {
      assert run + more == more;
    } else {
      CallsOfBoth(run[1..], more);
      assert (run + more)[1..] == run[1..] + more;
    }
  }

  ghost predicate Quiet(s: System) {
    s.writers == map[]
  }

  /** Two calls of different threads. */
  ghost predicate TwoCalls(s: System, a: Call, b: Call) {
    a.w != b.w && a.i < |s.requested| && b.i < |s.requested| && a.v <= UINT_MAX && b.v <= UINT_MAX
  }

  /** A clean scan runs to its end. */
  lemma {:induction false} ScanAll(s: System, w: nat) returns (run: seq<Action>, t: System)
    requires Inv(s) && w in s.clean
    ensures Leads(s, run, t) && t == s.(writers := s.writers[w := Scanning(|s.requested|, Min(s.requested))])
    ensures Calls(run) == []
    decreases |s.requested| - s.writers[w].next
  {
    if s.writers[w].next == |s.requested| {
      assert s.requested[..|s.requested|] == s.requested;
      run, t := [], s;
      assert s.writers[w := Scanning(|s.requested|, Min(s.requested))] == s.writers;
    } else {
      StepKeepsInv(s, Look(w));
      LeadsOnce(s, Look(w));
      var more;
      more, t := ScanAll(Step(s, Look(w)), w);
      run := [Look(w)] + more;
      CallsOfBoth([Look(w)], more);
      LeadsOn(s, [Look(w)], Step(s, Look(w)), more, t);
    }
  }

  /** A thread enters and stores. */
  lemma EnterAndStore(s: System, c: Call) returns (run: seq<Action>, t: System)
    requires Inv(s) && c.w !in s.writers && c.i < |s.requested| && c.v <= UINT_MAX
    ensures Leads(s, run, t) && Inv(t) && c.w in t.clean && Calls(run) == [c]
    ensures t.requested == s.requested[c.i := c.v] && t.writers == s.writers[c.w := Scanning(0, UINT_MAX)]
  {
    var enter := Enter(c.w, c.i, c.v);
    LeadsOnce(s, enter);
    var u := Step(s, enter);
    StepKeepsInv(s, enter);
    LeadsOnce(u, Store(c.w));
    t := Step(u, Store(c.w));
    StepKeepsInv(u, Store(c.w));
    LeadsOn(s, [enter], u, [Store(c.w)], t);
    CallsOfBoth([enter], [Store(c.w)]);
    run := [enter] + [Store(c.w)];
  }

  /** A thread enters, stores and scans. */
  lemma StoreAndScan(s: System, c: Call) returns (run: seq<Action>, t: System)
    requires Inv(s) && c.w !in s.writers && c.i < |s.requested| && c.v <= UINT_MAX
    ensures Leads(s, run, t) && Inv(t) && t.requested == s.requested[c.i := c.v]
    ensures t.writers == s.writers[c.w := Scanning(|s.requested|, Min(t.requested))]
    ensures Calls(run) == [c]
  {
    hide Step, Enabled, Min, Calls;
    var begin, u := EnterAndStore(s, c);
    var more;
    more, t := ScanAll(u, c.w);
    LeadsOn(s, begin, u, more, t);
    CallsOfBoth(begin, more);
    run := begin + more;
    RunKeepsInv(s, run);
  }

  /** Two overlapping calls: the first stores and scans, the second stores, scans and
      assigns, and then the first assigns what it found before. */
  lemma Overlap(s: System, a: Call, b: Call) returns (run: seq<Action>)
    requires Inv(s) && Quiet(s) && TwoCalls(s, a, b)
    ensures LegalRun(s, run) && Calls(run) == [a, b] && Quiet(After(s, run))
    ensures After(s, run).requested == s.requested[a.i := a.v][b.i := b.v]
    ensures After(s, run).polltime == Min(s.requested[a.i := a.v])
  {
    var r1, s1 := StoreAndScan(s, a);
    var r2, s2 := StoreAndScan(s1, b);
    LeadsOnce(s2, Assign(b.w));
    var s3 := Step(s2, Assign(b.w));
    LeadsOnce(s3, Assign(a.w));
    var s4 := Step(s3, Assign(a.w));
    var end := [Assign(b.w)] + [Assign(a.w)];
    LeadsOn(s2, [Assign(b.w)], s3, [Assign(a.w)], s4);
    LeadsOn(s1, r2, s2, end, s4);
    LeadsOn(s, r1, s1, r2 + end, s4);
    CallsOfBoth([Assign(b.w)], [Assign(a.w)]);
    CallsOfBoth(r2, end);
    CallsOfBoth(r1, r2 + end);
    run := r1 + (r2 + end);
    assert s4.writers == map[];
  }

  /** From start-up: the first call asks for 10 ms, the second for 5 ms. All is quiet
      at last, and the timeout is longer than a sensor asked. */
  lemma OverlapLeavesTheCacheOutdated() returns (run: seq<Action>)
    ensures LegalRun(START_CACHE, run)
    ensures
      var t := After(START_CACHE, run);
      t.writers == map[] && t.polltime == 10 && Min(t.requested) == 5
  {
    StartInv();
    MinReplaced(START.requested, 0, 10);
    MinReplaced(START.requested[0 := 10], 1, 5);
    run := Overlap(START_CACHE, Call(1, 0, 10), Call(2, 1, 5));
  }

  // ----- when two calls can leave it so -----

  /** The calls under way or still to come, seen from call a that stores first. */
  ghost predicate Waits(s: System, c: Call, todo: seq<Call>) {
    if c in todo then c.w !in s.writers else c.w in s.writers && s.writers[c.w] == Entered(c.i, c.v)
  }

  ghost predicate NoneStored(s: System, r: seq<nat>, a: Call, b: Call, todo: seq<Call>) {
    s.requested == r && s.polltime == Min(r) && Waits(s, a, todo) && Waits(s, b, todo)
  }

  ghost predicate Scans(s: System, w: nat, r: seq<nat>) {
    w in s.writers ==>
      s.writers[w].Scanning? && s.writers[w].next <= |r| && s.writers[w].least == Min(r[..s.writers[w].next])
  }

  ghost predicate OneStored(s: System, r: seq<nat>, a: Call, b: Call, todo: seq<Call>)
    requires a.i < |r|
  {
    var r1 := r[a.i := a.v];
    && s.requested == r1 && a !in todo && Scans(s, a.w, r1) && (a.w !in s.writers ==> s.polltime == Min(r1))
    && Waits(s, b, todo)
  }

  /** The first scan saw the second store or it did not. */
  ghost predicate BothStored(s: System, r: seq<nat>, a: Call, b: Call, todo: seq<Call>)
    requires a.i < |r| && b.i < |r|
  {
    var r1 := r[a.i := a.v];
    var r2 := r1[b.i := b.v];
    && s.requested == r2 && todo == [] && Scans(s, b.w, r2) && (Scans(s, a.w, r1) || Scans(s, a.w, r2))
    && (a.w !in s.writers && b.w !in s.writers ==> s.polltime == Min(r1) || s.polltime == Min(r2))
  }

  ghost predicate TwoInv(s: System, r: seq<nat>, a: Call, b: Call, todo: seq<Call>) {
    && a.w != b.w && a.i < |r| && b.i < |r|
    && (forall w :: w in s.writers ==> w == a.w || w == b.w)
    && (forall c :: c in todo ==> c == a || c == b) && Distinct(todo)
    && (NoneStored(s, r, a, b, todo)
        || OneStored(s, r, a, b, todo) || OneStored(s, r, b, a, todo)
        || BothStored(s, r, a, b, todo) || BothStored(s, r, b, a, todo))
  }

  predicate Distinct(calls: seq<Call>) {
    |calls| <= 2 && (|calls| == 2 ==> calls[0] != calls[1])
  }

  /** A look adds one more entry to the minimum. */
  lemma LookExtends(r: seq<nat>, next: nat)
    requires next < |r|
    ensures Min(r[..next + 1]) == if r[next] < Min(r[..next]) then r[next] else Min(r[..next])
  {
    assert r[..next + 1][..next] == r[..next];
  }

  lemma LookKeepsScan(s: System, w: nat, c: nat, r: seq<nat>)
    requires Enabled(s, Look(c)) && Scans(s, w, r) && |r| == |s.requested|
    requires c == w ==> s.requested[s.writers[w].next] == r[s.writers[w].next]
    ensures Scans(Step(s, Look(c)), w, r)
  {
    if c == w {
      LookExtends(r, s.writers[w].next);
    }
  }

  /** A scan of the older table goes on with the newer one. */
  lemma LookKeepsEither(s: System, w: nat, c: nat, r1: seq<nat>, i: nat)
    requires Enabled(s, Look(c)) && i < |r1| && |s.requested| == |r1| && s.requested == r1[i := s.requested[i]]
    requires Scans(s, w, r1) || Scans(s, w, s.requested)
    ensures Scans(Step(s, Look(c)), w, r1) || Scans(Step(s, Look(c)), w, s.requested)
  {
    if Scans(s, w, s.requested) {
      LookKeepsScan(s, w, c, s.requested);
    } else {
      assert r1[..i] == s.requested[..i];
      LookKeepsScan(s, w, c, r1);
    }
  }

  lemma Popped(todo: seq<Call>)
    requires todo != [] && Distinct(todo)
    ensures forall c :: c in todo <==> c == todo[0] || c in todo[1..]
    ensures todo[0] !in todo[1..] && Distinct(todo[1..])
  {
    assert todo == [todo[0]] + todo[1..];
  }

  lemma EnterKeepsTwo(s: System, r: seq<nat>, a: Call, b: Call, todo: seq<Call>)
    requires todo != [] && Enabled(s, Enter(todo[0].w, todo[0].i, todo[0].v)) && TwoInv(s, r, a, b, todo)
    ensures TwoInv(Step(s, Enter(todo[0].w, todo[0].i, todo[0].v)), r, a, b, todo[1..])
  {
    Popped(todo);
  }

  lemma StoreKeepsTwo(s: System, r: seq<nat>, a: Call, b: Call, todo: seq<Call>, w: nat)
    requires Enabled(s, Store(w)) && TwoInv(s, r, a, b, todo)
    ensures TwoInv(Step(s, Store(w)), r, a, b, todo)
  {
    assert Step(s, Store(w)).requested[..0] == [];
    if todo != [] {
      Popped(todo);
    }
  }

  lemma LookKeepsTwo(s: System, r: seq<nat>, a: Call, b: Call, todo: seq<Call>, w: nat)
    requires Enabled(s, Look(w)) && TwoInv(s, r, a, b, todo)
    ensures TwoInv(Step(s, Look(w)), r, a, b, todo)
  {
    if OneStored(s, r, a, b, todo) {
      LookKeepsScan(s, a.w, w, s.requested);
    } else if OneStored(s, r, b, a, todo) {
      LookKeepsScan(s, b.w, w, s.requested);
    } else if BothStored(s, r, a, b, todo) {
      LookKeepsScan(s, b.w, w, s.requested);
      LookKeepsEither(s, a.w, w, r[a.i := a.v], b.i);
    } else if BothStored(s, r, b, a, todo) {
      LookKeepsScan(s, a.w, w, s.requested);
      LookKeepsEither(s, b.w, w, r[b.i := b.v], a.i);
    }
  }

  lemma AssignKeepsTwo(s: System, r: seq<nat>, a: Call, b: Call, todo: seq<Call>, w: nat)
    requires Enabled(s, Assign(w)) && TwoInv(s, r, a, b, todo)
    ensures TwoInv(Step(s, Assign(w)), r, a, b, todo)
  {
    assert forall q: seq<nat> :: q[..|q|] == q;
  }

  lemma {:induction false} RunKeepsTwo(s: System, r: seq<nat>, a: Call, b: Call, run: seq<Action>)
    requires LegalRun(s, run) && TwoInv(s, r, a, b, Calls(run))
    ensures TwoInv(After(s, run), r, a, b, [])
    decreases |run|
  {
    if run != [] {
      match run[0] {
        case Enter(w, i, v) => EnterKeepsTwo(s, r, a, b, Calls(run));
        case Store(w) => StoreKeepsTwo(s, r, a, b, Calls(run), w);
        case Look(w) => LookKeepsTwo(s, r, a, b, Calls(run), w);
        case Assign(w) => AssignKeepsTwo(s, r, a, b, Calls(run), w);
      }
      RunKeepsTwo(Step(s, run[0]), r, a, b, run[1..]);
    }
  }

  /** Both calls are over: the table of some order, and its minimum or the one
      before the second store. */
  lemma BothOver(t: System, r: seq<nat>, a: Call, b: Call)
    requires TwoInv(t, r, a, b, []) && Quiet(t)
    ensures
      || (t.requested == r[a.i := a.v][b.i := b.v]
          && (t.polltime == Min(r[a.i := a.v]) || t.polltime == Min(t.requested)))
      || (t.requested == r[b.i := b.v][a.i := a.v]
          && (t.polltime == Min(r[b.i := b.v]) || t.polltime == Min(t.requested)))
  {
    hide Min;
  }

  /** Two calls of different threads on a quiet table with a right cache: some way
      of interleaving them ends quiet with a wrong cache if and only if the minimum
      after one store alone differs from the minimum after the other store as well. */
  lemma OverlapIsWrongExactly(s: System, a: Call, b: Call)
    requires Inv(s) && Quiet(s) && TwoCalls(s, a, b) && s.polltime == Min(s.requested)
    ensures
      var r := s.requested;
      (exists run ::
        && LegalRun(s, run) && (Calls(run) == [a, b] || Calls(run) == [b, a])
        && Quiet(After(s, run)) && After(s, run).polltime != Min(After(s, run).requested))
      <==>
        || Min(r[a.i := a.v]) != Min(r[a.i := a.v][b.i := b.v])
        || Min(r[b.i := b.v]) != Min(r[b.i := b.v][a.i := a.v])
  {
    hide Step, Enabled, Min, Inv;
    var r := s.requested;
    forall run | LegalRun(s, run) && (Calls(run) == [a, b] || Calls(run) == [b, a]) && Quiet(After(s, run))
      ensures After(s, run).polltime == Min(After(s, run).requested)
                || Min(r[a.i := a.v]) != Min(r[a.i := a.v][b.i := b.v])
                || Min(r[b.i := b.v]) != Min(r[b.i := b.v][a.i := a.v])
    {
      RunKeepsTwo(s, r, a, b, run);
      BothOver(After(s, run), r, a, b);
    }
    var ab := Overlap(s, a, b);
    var ba := Overlap(s, b, a);
  }

  // ----- calls one after another -----

  /** Each call enters when none is under way. */
  ghost predicate Serial(s: System, run: seq<Action>)
    requires LegalRun(s, run)
    decreases |run|
  {
    run == [] || ((run[0].Enter? ==> Quiet(s)) && Serial(Step(s, run[0]), run[1..]))
  }

  ghost predicate SerialInv(s: System) {
    && Inv(s) && (Quiet(s) ==> s.polltime == Min(s.requested))
    && (forall w :: w in s.writers ==> s.writers == map[w := s.writers[w]])
    && (forall w :: w in s.writers && s.writers[w].Scanning? ==> w in s.clean)
  }

  lemma {:induction false} SerialRunKeepsInv(s: System, run: seq<Action>)
    requires SerialInv(s) && LegalRun(s, run) && Serial(s, run)
    ensures SerialInv(After(s, run))
    decreases |run|
  {
    if run != [] {
      StepKeepsInv(s, run[0]);
      if run[0].Assign? {
        assert s.requested[..|s.requested|] == s.requested;
      }
      SerialRunKeepsInv(Step(s, run[0]), run[1..]);
    }
  }

  /** Calls that never overlap leave a right cache right, however many they are. */
  lemma SerialCallsKeepTheCache(s: System, run: seq<Action>)
    requires Inv(s) && Quiet(s) && s.polltime == Min(s.requested)
    requires LegalRun(s, run) && Serial(s, run) && Quiet(After(s, run))
    ensures After(s, run).polltime == Min(After(s, run).requested)
  {
    SerialRunKeepsInv(s, run);
  }
}

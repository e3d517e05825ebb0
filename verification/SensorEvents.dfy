/** pollEvents: several driver queues merged into one bounded caller buffer.

    The drivers, the clock and poll(2) are scripted: a `Round` says what they
    answer in one turn of the loop. A script is finite and the loop is not, so
    running out of script is an outcome of its own; what holds for every script
    holds at every point of every execution. `Poll` is the call as a function of
    the script, and the methods of `SensorsPoll` are the code's own form. */
module SensorEvents {

  const DRIVERS: nat := 5

  /** An event and the driver it comes from. */
  datatype Ev = Ev(driver: nat, payload: int)

  datatype PollResult = Ready(n: nat, revents: seq<bool>) | Interrupted | Failed(errno: int)

  /** Per driver: the events that arrive before its turn, what it wants to return
      if it is read (negative for an error), and whether it has pending events. */
  datatype Turn = Turn(arriving: seq<int>, wish: int, pending: bool)

  datatype Round = Round(turns: seq<Turn>, poll: PollResult)
  {
    predicate Valid() {
      |turns| == DRIVERS && (poll.Ready? ==> |poll.revents| == DRIVERS)
    }
  }

  predicate ValidScript(script: seq<Round>) {
    forall k :: 0 <= k < |script| ==> script[k].Valid()
  }

  datatype Outcome = Done(n: nat) | Eintr(n: nat) | Error(errno: int) | StillPolling(n: nat)

  /** The driver queues, the POLLIN flags, and the caller's buffer so far. */
  datatype Buf = Buf(queues: seq<seq<Ev>>, pollin: seq<bool>, out: seq<Ev>)
  {
    predicate Valid() {
      |queues| == DRIVERS && |pollin| == DRIVERS
    }
  }

  function Stamp(payloads: seq<int>, i: nat): (s: seq<Ev>)
    ensures |s| == |payloads| && forall k :: 0 <= k < |s| ==> s[k] == Ev(i, payloads[k])
  {
    seq(|payloads|, k requires 0 <= k < |payloads| => Ev(i, payloads[k]))
  }

  /** What a driver returns when `room` events are offered and `available` wait. */
  function Answer(wish: int, room: nat, available: nat): (nb: int)
    ensures nb <= room && nb <= available
  {
    if wish < room && wish < available then wish else if room < available then room else available
  }

  function Took(nb: int): nat {
    if nb > 0 then nb else 0
  }

  /** The test that clears POLLIN compares with the room left, not the room offered. */
  predicate Clears(nb: int, room: nat) {
    nb < room - Took(nb)
  }

  /** So POLLIN is cleared only for a driver that returned less than it was
      offered, and exactly when that was less than half of it; from half of the
      room on, the flag stays. */
  lemma ClearsOnlyShortReads(nb: int, room: nat)
    requires nb <= room && room > 0
    ensures Clears(nb, room) ==> nb < room
    ensures Clears(nb, room) <==> 2 * nb < room
    ensures nb < room && !Clears(nb, room) <==> room <= 2 * nb < 2 * room
  {
  }

  // ----- the call as a function -----

  function Arrived(b: Buf, i: nat, arriving: seq<int>): Buf
    requires b.Valid() && i < DRIVERS
  {
    b.(queues := b.queues[i := b.queues[i] + Stamp(arriving, i)])
  }

  /** Driver i is read: the head of its queue goes behind what the buffer holds. */
  function Read(b: Buf, i: nat, wish: int, count: nat): Buf
    requires b.Valid() && i < DRIVERS && |b.out| <= count
  {
    var q, room := b.queues[i], count - |b.out|;
    var nb := Answer(wish, room, |q|);
    Buf(b.queues[i := q[Took(nb)..]],
        if Clears(nb, room) then b.pollin[i := false] else b.pollin,
        b.out + q[..Took(nb)])
  }

  /** A driver that exists is read if it was reported ready or has pending events. */
  function TurnOf(present: bool, i: nat, t: Turn, b: Buf, count: nat): (c: Buf)
    requires b.Valid() && i < DRIVERS && |b.out| <= count
    ensures c.Valid() && |b.out| <= |c.out| <= count
  {
    var u := Arrived(b, i, t.arriving);
    if present && (b.pollin[i] || t.pending) then Read(u, i, t.wish, count) else u
  }

  /** The drivers before i have had their turns. */
  function Turns(present: seq<bool>, round: Round, b: Buf, count: nat, i: nat): (c: Buf)
    requires |present| == DRIVERS && round.Valid() && b.Valid() && |b.out| <= count && i <= DRIVERS
    ensures c.Valid() && |b.out| <= |c.out| <= count
  {
    if i == 0 then b
    else TurnOf(present[i - 1], i - 1, round.turns[i - 1], Turns(present, round, b, count, i - 1), count)
  }

  /** The do-while loop from round k on: the outcome, what is left, and the number
      of rounds begun. */
  function Poll(present: seq<bool>, b: Buf, count: nat, script: seq<Round>, k: nat): (r: (Outcome, Buf, nat))
    requires |present| == DRIVERS && b.Valid() && |b.out| <= count && ValidScript(script) && k <= |script|
    ensures r.1.Valid() && |b.out| <= |r.1.out| <= count && k <= r.2 <= |script|
    decreases |script| - k
  {
    if k == |script| then (StillPolling(|b.out|), b, k)
    else
      var u := Turns(present, script[k], b, count, DRIVERS);
      if |u.out| == count then (Done(count), u, k + 1)
      else
        match script[k].poll
        case Interrupted => (Eintr(|u.out|), u, k + 1)
        case Failed(errno) => (Error(errno), u, k + 1)
        case Ready(n, revents) =>
          var v := u.(pollin := revents);
          if n > 0 || |u.out| == 0 then Poll(present, v, count, script, k + 1)
          else (Done(|u.out|), v, k + 1)
  }

  // ----- which outcome -----

  /** The outcome by its last round. It is done when the buffer is full, or when it
      holds something and poll found nothing ready; an interruption or an error
      ends it exactly when poll reports one with room left; and it goes on exactly
      while there is room and poll found something or nothing is held. */
  lemma {:induction false} OutcomeByLastRound(present: seq<bool>, b: Buf, count: nat, script: seq<Round>, k: nat)
    requires |present| == DRIVERS && b.Valid() && |b.out| <= count && ValidScript(script) && k < |script|
    ensures
      var (r, u, rounds) := Poll(present, b, count, script, k);
      var last, n := script[rounds - 1].poll, |u.out|;
      && k < rounds
      && (r.Done? <==> n == count || (last.Ready? && last.n == 0 && n > 0))
      && (r.Eintr? <==> n < count && last.Interrupted?)
      && (r.Error? <==> n < count && last.Failed?)
      && (r.StillPolling? <==> n < count && last.Ready? && (last.n > 0 || n == 0))
      && (r.StillPolling? ==> rounds == |script|)
      && (r.Error? ==> r.errno == last.errno)
      && (!r.Error? ==> r.n == n)
    decreases |script| - k
  {
    var u := Turns(present, script[k], b, count, DRIVERS);
    if |u.out| < count && script[k].poll.Ready? && (script[k].poll.n > 0 || |u.out| == 0) && k + 1 < |script| {
      OutcomeByLastRound(present, u.(pollin := script[k].poll.revents), count, script, k + 1);
    }
  }

  /** What the buffer holds stays there, in front. */
  lemma {:induction false} PollKeeps(present: seq<bool>, b: Buf, count: nat, script: seq<Round>, k: nat)
    requires |present| == DRIVERS && b.Valid() && |b.out| <= count && ValidScript(script) && k <= |script|
    ensures b.out <= Poll(present, b, count, script, k).1.out
    ensures k < |script| ==>
              Turns(present, script[k], b, count, DRIVERS).out <= Poll(present, b, count, script, k).1.out
    decreases |script| - k
  {
    if k < |script| {
      TurnsBefore(present, script[k], b, count, 0, DRIVERS);
      var u := Turns(present, script[k], b, count, DRIVERS);
      if |u.out| < count && script[k].poll.Ready? && (script[k].poll.n > 0 || |u.out| == 0) {
        PollKeeps(present, u.(pollin := script[k].poll.revents), count, script, k + 1);
      }
    }
  }

  /** A driver that poll reports ready while there is room is read in the next round:
      its first event is in the buffer then, or the buffer is full. */
  lemma PolledDriverDelivers(present: seq<bool>, b: Buf, count: nat, script: seq<Round>, i: nat)
    requires |present| == DRIVERS && b.Valid() && |b.out| <= count && ValidScript(script) && |script| >= 2
    requires i < DRIVERS && present[i] && script[1].turns[i].wish > 0
    requires |Turns(present, script[0], b, count, DRIVERS).out| < count
    requires script[0].poll.Ready? && script[0].poll.n > 0 && script[0].poll.revents[i]
    requires Turns(present, script[0], b, count, DRIVERS).queues[i] + Stamp(script[1].turns[i].arriving, i) != []
    ensures
      var u := Turns(present, script[0], b, count, DRIVERS);
      var first := (u.queues[i] + Stamp(script[1].turns[i].arriving, i))[0];
      var (_, end, rounds) := Poll(present, b, count, script, 0);
      rounds >= 2 && (|end.out| == count || first in end.out[|u.out|..])
  {
    hide Turns, TurnOf, Stamp;
    var u := Turns(present, script[0], b, count, DRIVERS);
    var v := u.(pollin := script[0].poll.revents);
    assert Poll(present, b, count, script, 0) == Poll(present, v, count, script, 1);
    PollKeeps(present, v, count, script, 1);
    EveryDriverHasItsTurn(present, script[1], v, count, i);
    var at, c := Turns(present, script[1], v, count, i).out, Turns(present, script[1], v, count, DRIVERS);
    var end := Poll(present, b, count, script, 0).1;
    if |at| < count {
      assert c.out[|at|] == (u.queues[i] + Stamp(script[1].turns[i].arriving, i))[0];
      assert end.out[|u.out|..][|at| - |u.out|] == c.out[|at|];
    }
  }

  /** A ready driver that returns what it has is drained, or the buffer is full. */
  lemma ReadyDriverIsRead(i: nat, t: Turn, b: Buf, count: nat)
    requires b.Valid() && i < DRIVERS && |b.out| <= count && (b.pollin[i] || t.pending)
    ensures
      var q, c := b.queues[i] + Stamp(t.arriving, i), TurnOf(true, i, t, b, count);
      && c.out == b.out + q[..|c.out| - |b.out|] && c.queues[i] == q[|c.out| - |b.out|..]
      && (t.wish >= |q| ==> c.queues[i] == [] || |c.out| == count)
      && (t.wish > 0 && q != [] && |b.out| < count ==> |c.out| > |b.out|)
  {
  }

  /** Turns leave the queues and flags of other drivers alone, and the buffer grows. */
  lemma {:induction false} TurnsBefore(present: seq<bool>, round: Round, b: Buf, count: nat, i: nat, j: nat)
    requires |present| == DRIVERS && round.Valid() && b.Valid() && |b.out| <= count && i <= j <= DRIVERS
    ensures
      var c, d := Turns(present, round, b, count, i), Turns(present, round, b, count, j);
      && c.out <= d.out
      && (forall k :: 0 <= k < DRIVERS && !(i <= k < j) ==> d.queues[k] == c.queues[k] && d.pollin[k] == c.pollin[k])
    decreases j
  {
    if i < j {
      TurnsBefore(present, round, b, count, i, j - 1);
    }
  }

  /** One round, driver by driver. A driver that exists and is flagged or has pending
      events is offered the room that is left and gives the head of its queue: all of
      it if it wishes to and there is room, and something if it has and wishes
      anything and there is any room. Every other driver keeps its whole queue. The
      flag of a driver changes in its own turn only, when it is read and answers with
      an error or less than half of the room. */
  lemma EveryDriverHasItsTurn(present: seq<bool>, round: Round, b: Buf, count: nat, i: nat)
    requires |present| == DRIVERS && round.Valid() && b.Valid() && |b.out| <= count && i < DRIVERS
    ensures
      var c := Turns(present, round, b, count, DRIVERS);
      var at, wish := Turns(present, round, b, count, i).out, round.turns[i].wish;
      var q := b.queues[i] + Stamp(round.turns[i].arriving, i);
      var isRead := present[i] && (b.pollin[i] || round.turns[i].pending);
      && b.out <= at <= c.out
      && (!isRead ==> c.queues[i] == q && c.pollin[i] == b.pollin[i])
      && (isRead ==>
            var n := |q| - |c.queues[i]|;
            && 0 <= n <= |q| && at + q[..n] <= c.out && c.queues[i] == q[n..]
            && (wish >= |q| ==> c.queues[i] == [] || |c.out| == count)
            && (wish > 0 && q != [] && |at| < count ==> n > 0)
            && n <= (if wish > 0 then wish else 0)
            && (c.pollin[i] <==> b.pollin[i] && wish >= 0 && 2 * n >= count - |at|))
  {
    hide Turns, TurnOf, Stamp;
    var before := Turns(present, round, b, count, i);
    NextTurn(present, round, b, count, i);
    TurnsBefore(present, round, b, count, 0, i);
    TurnsBefore(present, round, b, count, i, DRIVERS);
    TurnsBefore(present, round, b, count, i + 1, DRIVERS);
    OwnTurn(present[i], i, round.turns[i], before, count);
  }

  lemma NextTurn(present: seq<bool>, round: Round, b: Buf, count: nat, i: nat)
    requires |present| == DRIVERS && round.Valid() && b.Valid() && |b.out| <= count && i < DRIVERS
    ensures Turns(present, round, b, count, 0) == b
    ensures Turns(present, round, b, count, i + 1) ==
            TurnOf(present[i], i, round.turns[i], Turns(present, round, b, count, i), count)
  {
  }

  lemma OwnTurn(present: bool, i: nat, t: Turn, b: Buf, count: nat)
    requires b.Valid() && i < DRIVERS && |b.out| <= count
    ensures
      var c := TurnOf(present, i, t, b, count);
      var q := b.queues[i] + Stamp(t.arriving, i);
      var n := |q| - |c.queues[i]|;
      && (!(present && (b.pollin[i] || t.pending)) ==> c.queues[i] == q && c.pollin[i] == b.pollin[i])
      && (present && (b.pollin[i] || t.pending) ==>
            && 0 <= n <= |q| && c.out == b.out + q[..n] && c.queues[i] == q[n..]
            && (t.wish >= |q| ==> c.queues[i] == [] || |c.out| == count)
            && (t.wish > 0 && q != [] && |b.out| < count ==> n > 0)
            && n <= (if t.wish > 0 then t.wish else 0)
            && (c.pollin[i] <==> b.pollin[i] && t.wish >= 0 && 2 * n >= count - |b.out|))
  {
  }

  /** A flagged driver that has given all it has is flagged still exactly when it
      filled at least half of the room. */
  lemma DrainedDriverStaysFlagged(i: nat, t: Turn, b: Buf, count: nat)
    requires b.Valid() && i < DRIVERS && |b.out| <= count && b.pollin[i]
    requires 0 < |b.queues[i] + Stamp(t.arriving, i)| <= count - |b.out|
    requires t.wish >= |b.queues[i] + Stamp(t.arriving, i)|
    ensures
      var q, c := b.queues[i] + Stamp(t.arriving, i), TurnOf(true, i, t, b, count);
      && c.queues[i] == [] && c.out == b.out + q
      && (c.pollin[i] <==> count - |b.out| <= 2 * |q|)
  {
    var q := b.queues[i] + Stamp(t.arriving, i);
    assert q[..|q|] == q && q[|q|..] == [];
  }

  /** The input: three events asked for, two there. */
  lemma TwoOfThreeStayFlagged(b: Buf, x: int, y: int)
    requires b.Valid() && b.pollin[0] && b.queues[0] == [] && b.out == []
    ensures
      var c := TurnOf(true, 0, Turn([x, y], 2, false), b, 3);
      c.out == [Ev(0, x), Ev(0, y)] && c.queues[0] == [] && c.pollin[0]
  {
    assert b.queues[0] + Stamp([x, y], 0) == [Ev(0, x), Ev(0, y)];
    DrainedDriverStaysFlagged(0, Turn([x, y], 2, false), b, 3);
  }

  // ----- conservation -----

  /** The events of driver i, in order. */
  function Project(s: seq<Ev>, i: nat): seq<Ev> {
    if s == [] then []
    else if s[0].driver == i then [s[0]] + Project(s[1..], i)
    else Project(s[1..], i)
  }

  /** All events of driver i that arrived in these rounds. */
  function Came(rounds: seq<Round>, i: nat): seq<Ev>
    requires i < DRIVERS && ValidScript(rounds)
    decreases |rounds|
  {
    if rounds == [] then []
    else Came(rounds[..|rounds| - 1], i) + Stamp(rounds[|rounds| - 1].turns[i].arriving, i)
  }

  ghost predicate Tagged(q: seq<seq<Ev>>) {
    |q| == DRIVERS && forall i, k :: 0 <= i < DRIVERS && 0 <= k < |q[i]| ==> q[i][k].driver == i
  }

  /** Nothing is lost, made up or reordered: of each driver, what is in the buffer
      followed by what is still queued is what was queued followed by what came,
      and the buffer holds events of no other origin. */
  ghost predicate Conserved(q0: seq<seq<Ev>>, came: seq<seq<Ev>>, q: seq<seq<Ev>>, out: seq<Ev>) {
    && |q0| == |came| == |q| == DRIVERS
    && (forall i {:trigger Project(out, i)} :: 0 <= i < DRIVERS ==> Project(out, i) + q[i] == q0[i] + came[i])
    && forall k :: 0 <= k < |out| ==> out[k].driver < DRIVERS
  }

  lemma {:induction false} ProjectConcat(a: seq<Ev>, b: seq<Ev>, i: nat)
    ensures Project(a + b, i) == Project(a, i) + Project(b, i)
  {
    if a == [] {
      assert a + b == b;
    } else {
      ProjectConcat(a[1..], b, i);
      assert (a + b)[0] == a[0] && (a + b)[1..] == a[1..] + b;
    }
  }

  lemma {:induction false} ProjectTagged(a: seq<Ev>, i: nat, j: nat)
    requires forall k :: 0 <= k < |a| ==> a[k].driver == j
    ensures Project(a, i) == if i == j then a else []
  {
    if a != [] {
      ProjectTagged(a[1..], i, j);
    }
  }

  lemma ArrivalConserves(q0: seq<seq<Ev>>, came: seq<seq<Ev>>, q: seq<seq<Ev>>, out: seq<Ev>, j: nat, more: seq<Ev>)
    requires Conserved(q0, came, q, out) && j < DRIVERS
    ensures Conserved(q0, came[j := came[j] + more], q[j := q[j] + more], out)
  {
    forall i | 0 <= i < DRIVERS
      ensures Project(out, i) + q[j := q[j] + more][i] == q0[i] + came[j := came[j] + more][i]
    {
      assert Project(out, i) + q[i] == q0[i] + came[i];
      assert Project(out, i) + (q[i] + more) == Project(out, i) + q[i] + more;
      assert q0[i] + (came[i] + more) == q0[i] + came[i] + more;
    }
  }

  /** Moving the first nb events of one queue to the end of the buffer conserves. */
  lemma MoveConserves(q0: seq<seq<Ev>>, came: seq<seq<Ev>>, q: seq<seq<Ev>>, out: seq<Ev>, j: nat, nb: nat)
    requires Conserved(q0, came, q, out) && j < DRIVERS && nb <= |q[j]| && Tagged(q)
    ensures Conserved(q0, came, q[j := q[j][nb..]], out + q[j][..nb])
  {
    var moved := q[j][..nb];
    forall i | 0 <= i < DRIVERS ensures Project(out + moved, i) + q[j := q[j][nb..]][i] == q0[i] + came[i] {
      ProjectConcat(out, moved, i);
      ProjectTagged(moved, i, j);
      Splice(Project(out, i), q[j], nb);
      Splice(Project(out, i), q[i], 0);
      assert Project(out, i) + q[i] == q0[i] + came[i];
    }
  }

  lemma Splice(p: seq<Ev>, q: seq<Ev>, nb: nat)
    requires nb <= |q|
    ensures (p + q[..nb]) + q[nb..] == p + q && p + [] == p
  {
  }

  lemma TurnConserves(q0: seq<seq<Ev>>, came: seq<seq<Ev>>, present: bool, i: nat, t: Turn, b: Buf, count: nat)
    requires b.Valid() && i < DRIVERS && |b.out| <= count && Tagged(b.queues) && Conserved(q0, came, b.queues, b.out)
    ensures
      var c := TurnOf(present, i, t, b, count);
      Tagged(c.queues) && Conserved(q0, came[i := came[i] + Stamp(t.arriving, i)], c.queues, c.out)
  {
    var more := Stamp(t.arriving, i);
    ArrivalConserves(q0, came, b.queues, b.out, i, more);
    var u := Arrived(b, i, t.arriving);
    if present && (b.pollin[i] || t.pending) {
      MoveConserves(q0, came[i := came[i] + more], u.queues, b.out, i,
                    Took(Answer(t.wish, count - |b.out|, |u.queues[i]|)));
    }
  }

  lemma TurnAppends(present: bool, i: nat, t: Turn, b: Buf, count: nat)
    requires b.Valid() && i < DRIVERS && |b.out| <= count && Tagged(b.queues)
    ensures
      var c := TurnOf(present, i, t, b, count);
      && Tagged(c.queues) && b.out <= c.out
      && forall k :: |b.out| <= k < |c.out| ==> c.out[k].driver == i
  {
  }

  /** Within a round the drivers come in their order. */
  lemma {:induction false} RoundInOrder(present: seq<bool>, round: Round, b: Buf, count: nat, i: nat)
    requires |present| == DRIVERS && round.Valid() && b.Valid() && |b.out| <= count && i <= DRIVERS
    requires Tagged(b.queues)
    ensures
      var c := Turns(present, round, b, count, i);
      && Tagged(c.queues) && b.out <= c.out
      && (forall k :: |b.out| <= k < |c.out| ==> c.out[k].driver < i)
      && (forall j, k :: |b.out| <= j < k < |c.out| ==> c.out[j].driver <= c.out[k].driver)
  {
    if i > 0 {
      RoundInOrder(present, round, b, count, i - 1);
      TurnAppends(present[i - 1], i - 1, round.turns[i - 1], Turns(present, round, b, count, i - 1), count);
    }
  }

  /** What came, after the turns of the drivers before i. */
  function CameBy(came: seq<seq<Ev>>, round: Round, i: nat): (c: seq<seq<Ev>>)
    requires |came| == DRIVERS && round.Valid() && i <= DRIVERS
    ensures |c| == DRIVERS
    ensures forall j :: 0 <= j < i ==> c[j] == came[j] + Stamp(round.turns[j].arriving, j)
    ensures forall j :: i <= j < DRIVERS ==> c[j] == came[j]
  {
    if i == 0 then came
    else
      var c := CameBy(came, round, i - 1);
      c[i - 1 := c[i - 1] + Stamp(round.turns[i - 1].arriving, i - 1)]
  }

  lemma {:induction false} TurnsConserve(
    q0: seq<seq<Ev>>, came: seq<seq<Ev>>, present: seq<bool>, round: Round, b: Buf, count: nat, i: nat)
    requires |present| == DRIVERS && round.Valid() && b.Valid() && |b.out| <= count && i <= DRIVERS
    requires Tagged(b.queues) && Conserved(q0, came, b.queues, b.out)
    ensures
      var c := Turns(present, round, b, count, i);
      Tagged(c.queues) && Conserved(q0, CameBy(came, round, i), c.queues, c.out)
  {
    if i > 0 {
      TurnsConserve(q0, came, present, round, b, count, i - 1);
      TurnConserves(q0, CameBy(came, round, i - 1), present[i - 1], i - 1, round.turns[i - 1],
                    Turns(present, round, b, count, i - 1), count);
    }
  }

  /** What came in the first k rounds. */
  function CameIn(script: seq<Round>, k: nat): (c: seq<seq<Ev>>)
    requires ValidScript(script) && k <= |script|
    ensures |c| == DRIVERS && forall i :: 0 <= i < DRIVERS ==> c[i] == Came(script[..k], i)
  {
    seq(DRIVERS, i requires 0 <= i < DRIVERS => Came(script[..k], i))
  }

  lemma CameStep(script: seq<Round>, k: nat)
    requires k < |script| && ValidScript(script)
    ensures CameBy(CameIn(script, k), script[k], DRIVERS) == CameIn(script, k + 1)
  {
    assert script[..k + 1][..k] == script[..k];
  }

  /** Whatever the outcome, the call conserves the events of every driver. */
  lemma {:induction false} PollConserves(
    q0: seq<seq<Ev>>, present: seq<bool>, b: Buf, count: nat, script: seq<Round>, k: nat)
    requires |present| == DRIVERS && b.Valid() && |b.out| <= count && ValidScript(script) && k <= |script|
    requires Tagged(b.queues) && Conserved(q0, CameIn(script, k), b.queues, b.out)
    ensures
      var (_, u, rounds) := Poll(present, b, count, script, k);
      Tagged(u.queues) && Conserved(q0, CameIn(script, rounds), u.queues, u.out)
    decreases |script| - k
  {
    if k < |script| {
      TurnsConserve(q0, CameIn(script, k), present, script[k], b, count, DRIVERS);
      CameStep(script, k);
      var u := Turns(present, script[k], b, count, DRIVERS);
      if |u.out| < count && script[k].poll.Ready? && (script[k].poll.n > 0 || |u.out| == 0) {
        PollConserves(q0, present, u.(pollin := script[k].poll.revents), count, script, k + 1);
      }
    }
  }

  // ----- what an error loses -----

  /** The events the caller is told of: an error return reports none. */
  function Reported(r: Outcome, out: seq<Ev>): seq<Ev> {
    if r.Error? then [] else out
  }

  /** The events reported and those still queued are all there were exactly unless
      poll fails in the last round begun and some but not all of the room is taken. */
  lemma OnlyErrorsLoseEvents(present: seq<bool>, q: seq<seq<Ev>>, pollin: seq<bool>, count: nat, script: seq<Round>)
    requires |present| == DRIVERS && |pollin| == DRIVERS && Tagged(q) && ValidScript(script)
    ensures
      var (r, u, rounds) := Poll(present, Buf(q, pollin, []), count, script, 0);
      Conserved(q, CameIn(script, rounds), u.queues, Reported(r, u.out)) <==>
        !(rounds > 0 && script[rounds - 1].poll.Failed? && 0 < |u.out| < count)
  {
    if script != [] {
      OutcomeByLastRound(present, Buf(q, pollin, []), count, script, 0);
    }
    PollConserves(q, present, Buf(q, pollin, []), count, script, 0);
    var (r, u, rounds) := Poll(present, Buf(q, pollin, []), count, script, 0);
    if r.Error? && u.out != [] {
      var i := u.out[0].driver;
      assert |Project(u.out, i)| > 0;
      assert |Project(u.out, i) + u.queues[i]| > |Project([], i) + u.queues[i]|;
    }
  }

  /** A light sensor with one event, and a poll that fails. */
  const QUIET: Turn := Turn([], 0, false)
  const FAILING: Round := Round([Turn([42], 1, true), QUIET, QUIET, QUIET, QUIET], Failed(5))

  /** The failing input: the event is taken from its queue and never reported. */
  lemma ErrorLosesAnEvent()
    ensures
      var none := [[], [], [], [], []];
      var b := Buf(none, [false, false, false, false, false], []);
      var (r, u, rounds) := Poll([true, false, false, false, false], b, 2, [FAILING], 0);
      && r == Error(5) && u.out == [Ev(0, 42)] && u.queues == none && rounds == 1
      && Reported(r, u.out) == [] && CameIn([FAILING], 1)[0] == [Ev(0, 42)]
  {
    var present, pollin: seq<bool> := [true, false, false, false, false], [false, false, false, false, false];
    var none: seq<seq<Ev>> := [[], [], [], [], []];
    var b := Buf(none, pollin, []);
    var c := Buf(none, pollin, [Ev(0, 42)]);
    assert [] + Stamp([42], 0) == [Ev(0, 42)];
    var u := Arrived(b, 0, [42]);
    assert u.queues[0] == [Ev(0, 42)];
    assert [Ev(0, 42)][1..] == [] && [] + [Ev(0, 42)][..1] == [Ev(0, 42)];
    assert Read(u, 0, 1, 2) == c;
    assert Turns(present, FAILING, b, 2, 1) == TurnOf(true, 0, Turn([42], 1, true), b, 2) == c;
    assert [] + Stamp([], 1) == [] && [] + Stamp([], 2) == [] && [] + Stamp([], 3) == [] && [] + Stamp([], 4) == [];
    assert Turns(present, FAILING, b, 2, 2) == c;
    assert Turns(present, FAILING, b, 2, 3) == c;
    assert Turns(present, FAILING, b, 2, 4) == c;
    assert Turns(present, FAILING, b, 2, 5) == c;
    assert [FAILING][..1] == [FAILING] && [FAILING][..0] == [];
    assert Came([FAILING], 0) == Came([], 0) + Stamp([42], 0);
  }

  // ----- the call in the code's own form -----

  class SensorsPoll {
    const present: seq<bool>
    var queues: seq<seq<Ev>>
    var pollin: seq<bool>

    ghost predicate Valid()
      reads this
    {
      |present| == DRIVERS && |queues| == DRIVERS && |pollin| == DRIVERS
    }

    constructor (present: seq<bool>, queues: seq<seq<Ev>>)
      requires |present| == DRIVERS && |queues| == DRIVERS
      ensures Valid() && this.present == present && this.queues == queues && forall i :: 0 <= i < DRIVERS ==> !pollin[i]
    {
      this.present, this.queues := present, queues;
      pollin := [false, false, false, false, false];
    }

    /** The environment's part of a turn: events arrive at driver i. */
    method Arrive(i: nat, arriving: seq<int>)
      requires Valid() && i < DRIVERS
      modifies this`queues
      ensures Valid() && queues == old(queues)[i := old(queues)[i] + Stamp(arriving, i)]
    {
      queues := queues[i := queues[i] + Stamp(arriving, i)];
    }

    /** One readEvents call: driver i is offered the room behind data[at]. */
    method ReadDriver(i: nat, data: array<Ev>, at: nat, count: nat, wish: int) returns (nb: int)
      requires Valid() && i < DRIVERS && at <= count <= data.Length
      modifies this`queues, this`pollin, data
      ensures Valid() && nb == Answer(wish, count - at, |old(queues)[i]|) && at + Took(nb) <= count
      ensures Buf(queues, pollin, data[..at + Took(nb)]) == Read(old(Buf(queues, pollin, data[..at])), i, wish, count)
      ensures data[at + Took(nb)..] == old(data[..])[at + Took(nb)..]
    {
      var q := queues[i];
      nb := Answer(wish, count - at, |q|);
      var took := Took(nb);
      assert took <= |q| && at + took <= count;
      hide Answer, Took, Clears;
      forall k | 0 <= k < took {
        data[at + k] := q[k];
      }
      queues := queues[i := q[took..]];
      if Clears(nb, count - at) {
        pollin := pollin[i := false];
      }
      assert data[..at + took] == old(data[..at]) + q[..took];
    }

    /** The for loop over the drivers: those that are ready are read. */
    method ReadDrivers(data: array<Ev>, nbEvents: nat, count: nat, round: Round) returns (taken: nat)
      requires Valid() && round.Valid() && nbEvents <= count <= data.Length
      modifies this`queues, this`pollin, data
      ensures Valid() && nbEvents <= taken <= count
      ensures Buf(queues, pollin, data[..taken]) ==
              Turns(present, round, old(Buf(queues, pollin, data[..nbEvents])), count, DRIVERS)
      ensures data[taken..] == old(data[..])[taken..]
    {
      taken := nbEvents;
      ghost var b := Buf(queues, pollin, data[..nbEvents]);
      NextTurn(present, round, b, count, 0);
      hide Turns, Stamp, Answer, Clears;
      for i := 0 to DRIVERS
        invariant Valid() && nbEvents <= taken <= count
        invariant Buf(queues, pollin, data[..taken]) == Turns(present, round, b, count, i)
        invariant data[taken..] == old(data[..])[taken..]
      {
        ghost var seen, start := data[..], taken;
        NextTurn(present, round, b, count, i);
        Arrive(i, round.turns[i].arriving);
        if present[i] && (pollin[i] || round.turns[i].pending) {
          var nb := ReadDriver(i, data, taken, count, round.turns[i].wish);
          if nb > 0 {
            taken := taken + nb;
          }
        }
        TailStays(seen, old(data[..]), start, taken);
      }
    }

    /** The whole call. `taken` is what a return other than an error reports; an
        error return drops it. */
    method PollEvents(data: array<Ev>, count: nat, script: seq<Round>)
      returns (r: Outcome, ghost taken: nat, ghost rounds: nat)
      requires Valid() && count <= data.Length && ValidScript(script)
      modifies this`queues, this`pollin, data
      ensures Valid() && taken <= count && rounds <= |script|
      ensures (r, Buf(queues, pollin, data[..taken]), rounds) ==
              Poll(present, old(Buf(queues, pollin, [])), count, script, 0)
      ensures Tagged(old(queues)) ==> Conserved(old(queues), CameIn(script, rounds), queues, data[..taken])
      ensures data[taken..] == old(data[..])[taken..]
      ensures !r.Error? ==> r.n == taken
    {
      if Tagged(queues) {
        PollConserves(queues, present, Buf(queues, pollin, []), count, script, 0);
      }
      var nbEvents, n: nat, k := 0, 0, 0;
      taken, rounds := 0, 0;
      ghost var b := Buf(queues, pollin, []);
      assert data[..0] == [];
      while k < |script|
        invariant 0 <= k <= |script| && nbEvents == taken <= count && Valid()
        invariant Poll(present, Buf(queues, pollin, data[..taken]), count, script, k) ==
                  Poll(present, b, count, script, 0)
        invariant data[taken..] == old(data[..])[taken..]
      {
        ghost var start, seen := taken, data[..];
        nbEvents := ReadDrivers(data, nbEvents, count, script[k]);
        taken, rounds := nbEvents, k + 1;
        TailStays(seen, old(data[..]), start, taken);
        if nbEvents < count {
          match script[k].poll {
            case Ready(ready, revents) =>
              n := ready;
              pollin := revents;
            case Interrupted =>
              return Eintr(nbEvents), taken, rounds;
            case Failed(errno) =>
              return Error(errno), taken, rounds;
          }
        }
        if !((n > 0 || nbEvents == 0) && nbEvents < count) {
          return Done(nbEvents), taken, rounds;
        }
        k := k + 1;
      }
      return StillPolling(nbEvents), taken, k;
    }
  }

  lemma TailStays(a: seq<Ev>, b: seq<Ev>, i: nat, j: nat)
    requires i <= j <= |a| == |b| && a[i..] == b[i..]
    ensures a[j..] == b[j..]
  {
    assert a[i..][j - i..] == a[j..] && b[i..][j - i..] == b[j..];
  }
}

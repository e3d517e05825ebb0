/** The barrier: a state under a lock and a condition on which waiters block while
    it is closed. `Gate` is the barrier with its waiters as a value; the class is
    the code's own form. */
module Barriers {

  datatype BarrierState = OPENED | CLOSED
  datatype Waiter = Testing | Blocked

  /** Each waiter is about to test the state or blocked on the condition. */
  datatype Gate = Gate(state: BarrierState, waiters: map<nat, Waiter>)

  /** What threads do with a barrier. A turn is one test of the wait loop; a wakeup
      is one that nobody caused. */
  datatype Op = Open | Close | Enter(w: nat) | Turn(w: nat) | Wake(w: nat)

  const NEW_GATE: Gate := Gate(CLOSED, map[])

  predicate CanDo(g: Gate, op: Op) {
    match op
    case Open => true
    case Close => true
    case Enter(w) => w !in g.waiters
    case Turn(w) => w in g.waiters && g.waiters[w].Testing?
    case Wake(w) => w in g.waiters && g.waiters[w].Blocked?
  }

  /** Opening wakes all waiters; a turn passes when the barrier is open. */
  function Do(g: Gate, op: Op): Gate
    requires CanDo(g, op)
  {
    match op
    case Open => Gate(OPENED, map w | w in g.waiters :: Testing)
    case Close => g.(state := CLOSED)
    case Enter(w) => g.(waiters := g.waiters[w := Testing])
    case Turn(w) => g.(waiters := if g.state.CLOSED? then g.waiters[w := Blocked] else g.waiters - {w})
    case Wake(w) => g.(waiters := g.waiters[w := Testing])
  }

  predicate CanDoAll(g: Gate, ops: seq<Op>)
    decreases |ops|
  {
    ops == [] || (CanDo(g, ops[0]) && CanDoAll(Do(g, ops[0]), ops[1..]))
  }

  function DoAll(g: Gate, ops: seq<Op>): Gate
    requires CanDoAll(g, ops)
    decreases |ops|
  {
    if ops == [] then g else DoAll(Do(g, ops[0]), ops[1..])
  }

  /** The last opening or closing among the operations, if any, was an opening;
      `before` says so of what went before them. */
  function OpenedLast(ops: seq<Op>, before: bool): bool
    decreases |ops|
  {
    if ops == [] then before else OpenedLast(ops[1..], ops[0].Open? || (before && !ops[0].Close?))
  }

  /** Nobody is blocked on an open barrier. */
  ghost predicate GateInv(g: Gate) {
    forall w :: w in g.waiters && g.waiters[w].Blocked? ==> g.state.CLOSED?
  }

  lemma {:induction false} GateFollowsHistory(g: Gate, ops: seq<Op>)
    requires GateInv(g) && CanDoAll(g, ops)
    ensures GateInv(DoAll(g, ops)) && (DoAll(g, ops).state == OPENED <==> OpenedLast(ops, g.state == OPENED))
    decreases |ops|
  {
    if ops != [] {
      GateFollowsHistory(Do(g, ops[0]), ops[1..]);
    }
  }

  /** Whatever the threads do with a new barrier, a wait passes exactly in the turns
      it takes after an opening that no closing has followed, and who is blocked is
      waiting for one. */
  lemma WaitPassesOnlyOpen(ops: seq<Op>, w: nat)
    requires CanDoAll(NEW_GATE, ops)
    ensures
      var g := DoAll(NEW_GATE, ops);
      && (CanDo(g, Turn(w)) ==> (w !in Do(g, Turn(w)).waiters <==> OpenedLast(ops, false)))
      && (w in g.waiters && g.waiters[w].Blocked? ==> !OpenedLast(ops, false))
  {
    GateFollowsHistory(NEW_GATE, ops);
  }

  /** The state after others have opened (true) and closed it (false). */
  function StateAfter(state: BarrierState, others: seq<bool>): BarrierState {
    if others == [] then state else if others[|others| - 1] then OPENED else CLOSED
  }

  class Barrier {
    var state: BarrierState

    constructor ()
      ensures state == NEW_GATE.state
    {
      state := CLOSED;
    }

    /** The broadcast wakes the waiters, who are other threads. */
    method Open()
      modifies this
      ensures state == Do(Gate(old(state), map[]), Op.Open).state
    {
      state := OPENED;
    }

    method Close()
      modifies this
      ensures state == Do(Gate(old(state), map[]), Op.Close).state
    {
      state := CLOSED;
    }

    /** The wait loop. Each time the condition lets it go on, for whatever reason,
        other threads have opened and closed the barrier as the next entry of
        `others` says. It passes at the first test that finds the barrier open;
        with the list at an end it is still waiting. */
    method Wait(others: seq<seq<bool>>) returns (passed: bool, turns: nat)
      modifies this
      ensures turns <= |others| && (passed <==> state == OPENED) && (!passed ==> turns == |others|)
      ensures state == After(old(state), others[..turns])
      ensures forall k :: 0 <= k < turns ==> After(old(state), others[..k]) == CLOSED
    {
      turns := 0;
      while state == CLOSED
        invariant turns <= |others| && state == After(old(state), others[..turns])
        invariant forall k :: 0 <= k < turns ==> After(old(state), others[..k]) == CLOSED
        decreases |others| - turns
      {
        if turns == |others| {
          return false, turns;
        }
        assert others[..turns + 1][..turns] == others[..turns];
        state := StateAfter(state, others[turns]);
        turns := turns + 1;
      }
      return true, turns;
    }
  }

  function After(state: BarrierState, others: seq<seq<bool>>): BarrierState {
    if others == [] then state else StateAfter(After(state, others[..|others| - 1]), others[|others| - 1])
  }
}

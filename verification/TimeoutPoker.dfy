/** The timed-request engine of the power HAL: a keyed event queue, a looper
    that delivers messages no earlier than they are due, and the PM QoS files
    that the delivered events open and close, in one descriptor table with the
    slots that the HAL's setters close and fill.

    `Poker` is the whole state as a value; `Send`, `RunEvent` and `Deliver` are the
    steps of the engine. The class `PokeHandler` is its code's own form, with the
    same steps as methods that update fields in place. */
module TimeoutPoker {
  import opened Common
  import opened Descriptors
  import opened FdSlots

  /** Keys are C ints incremented without bound and looked up as unsigned ints. */
  const KEY_SPACE: nat := 0x1_0000_0000
  type Key = k: nat | k < 0x1_0000_0000

  datatype QueuedEvent =
    | PmQosOpenTimedEvent(node: string, val: int, timeout: nat)
    | PmQosOpenHandleEvent(node: string, val: int)
    | TimeoutEvent(pmQosFd: nat)

  datatype Message = Message(due: nat, what: Key)

  /** What a key leads to: one event object, known by the number of its post. */
  datatype Entry = Entry(id: nat, event: QueuedEvent)

  /** `looper` holds the undelivered messages by post number. `slot`, `stale` and
      `stray` are the HAL's slots. The last three fields are history: the events
      posted, by post number; the events run for each delivered message; the
      descriptor each timed request was granted. */
  datatype Poker = Poker(
    now: nat,
    mKey: Key,
    queued: map<Key, Entry>,
    looper: map<nat, Message>,
    fds: map<nat, OpenFile>,
    slot: SlotMap,
    stale: bool,
    stray: seq<int>,
    history: seq<QueuedEvent>,
    ran: map<nat, Entry>,
    granted: map<nat, nat>)

  function NextKey(k: Key): Key {
    (k + 1) % KEY_SPACE
  }

  /** Adding under a key that is still in use replaces the event, as KeyedVector does. */
  function Send(s: Poker, delay: nat, ev: QueuedEvent): Poker {
    s.(mKey := NextKey(s.mKey),
       queued := s.queued[s.mKey := Entry(|s.history|, ev)],
       looper := s.looper[|s.history| := Message(s.now + delay, s.mKey)],
       history := s.history + [ev])
  }

  function OpenTimed(s: Poker, n: nat, node: string, val: int, timeout: nat, o: OpenResult): Poker {
    match o
    case OpenFailed => s
    case Opened(fd) =>
      var file := OpenFile(node, val, Timed(s.now, timeout, n, |s.history|));
      Send(s.(fds := s.fds[fd := file], granted := s.granted[n := fd]), timeout, TimeoutEvent(fd))
  }

  /** The file stays open only when the pipe behind the handle could be made. */
  function OpenHandle(s: Poker, node: string, val: int, o: OpenResult, p: PipeResult): Poker {
    if o.Opened? && p.Pipe? then
      s.(fds := s.fds[o.fd := OpenFile(node, val, Other)]
                     [p.server := OpenFile("pipe", 0, Other)]
                     [p.client := OpenFile("pipe", 0, Other)])
    else s
  }

  function RunEvent(s: Poker, n: nat, ev: QueuedEvent, o: OpenResult, p: PipeResult): Poker {
    match ev
    case PmQosOpenTimedEvent(node, val, timeout) => OpenTimed(s, n, node, val, timeout, o)
    case PmQosOpenHandleEvent(node, val) => OpenHandle(s, node, val, o, p)
    case TimeoutEvent(fd) => s.(fds := s.fds - {fd})
  }

  /** Taking message n from the looper and its event from the queue. */
  function Take(s: Poker, n: nat): Poker
    requires n in s.looper
  {
    var what := s.looper[n].what;
    var t := s.(looper := s.looper - {n});
    if what in s.queued then t.(queued := s.queued - {what}, ran := s.ran[n := s.queued[what]]) else t
  }

  /** The looper hands over message n: its event, if there is one, is run. */
  function Deliver(s: Poker, n: nat, o: OpenResult, p: PipeResult): Poker
    requires n in s.looper
  {
    var what := s.looper[n].what;
    if what in s.queued then RunEvent(Take(s, n), n, s.queued[what].event, o, p) else Take(s, n)
  }

  function SlotsOf(s: Poker): Slots {
    Slots(s.slot, s.fds, s.stale, s.stray)
  }

  function WithSlots(s: Poker, t: Slots): Poker {
    s.(slot := t.slot, fds := t.files, stale := t.stale, stray := t.stray)
  }

  /** One step of the process: an IPC thread posts, the looper delivers, time
      passes, other code opens or closes a file of its own, or a setter or reset of
      the HAL empties a slot or fills one. The looper may run between the two
      halves of a setter. */
  datatype Action =
    | Post(ev: QueuedEvent)
    | Run(n: nat, o: OpenResult, p: PipeResult)
    | Advance(dt: nat)
    | OtherOpen(fd: nat, file: OpenFile)
    | OtherClose(fd: nat)
    | EmptySlot(x: Name)
    | FillSlot(w: Want, g: OpenResult)

  /** The kernel hands out descriptors that are free and the looper respects due times. */
  predicate Fresh(s: Poker, o: OpenResult, p: PipeResult) {
    && (o.Opened? ==> o.fd !in s.fds)
    && (p.Pipe? ==> p.server !in s.fds && p.client !in s.fds && p.server != p.client)
    && (o.Opened? && p.Pipe? ==> o.fd != p.server && o.fd != p.client)
  }

  predicate Legal(s: Poker, a: Action) {
    match a
    case Post(ev) => !ev.TimeoutEvent?
    case Run(n, o, p) => n in s.looper && s.looper[n].due <= s.now && Fresh(s, o, p)
    case Advance(_) => true
    case OtherOpen(fd, file) => fd !in s.fds && file.owner.Other?
    case OtherClose(fd) => fd in s.fds && s.fds[fd].owner.Other?
    case EmptySlot(_) => true
    case FillSlot(w, g) => s.slot.Get(w.name) == -1 && (g.Opened? ==> g.fd !in s.fds)
  }

  function Step(s: Poker, a: Action): Poker
    requires Legal(s, a)
  {
    match a
    case Post(ev) => Send(s, 0, ev)
    case Run(n, o, p) => Deliver(s, n, o, p)
    case Advance(dt) => s.(now := s.now + dt)
    case OtherOpen(fd, file) => s.(fds := s.fds[fd := file])
    case OtherClose(fd) => s.(fds := s.fds - {fd})
    case EmptySlot(x) => WithSlots(s, Empty(SlotsOf(s), x))
    case FillSlot(w, g) => WithSlots(s, Fill(SlotsOf(s), w, g))
  }

  ghost predicate Initial(s: Poker) {
    && s.mKey == 0 && s.queued == map[] && s.looper == map[]
    && s.slot == EMPTY && s.stale && s.stray == []
    && s.history == [] && s.ran == map[] && s.granted == map[]
    && (forall fd :: fd in s.fds ==> s.fds[fd].owner.Other?)
  }

  /** The code's own form: fields updated in place by the methods of PokeHandler.
      `posted` numbers the messages handed to the looper; the ghost fields are
      history, and the slots, which this class leaves alone. */
  class PokeHandler {
    var mKey: Key
    var mQueuedEvents: map<Key, Entry>
    var looper: map<nat, Message>
    var fds: map<nat, OpenFile>
    var now: nat
    ghost var slots: (SlotMap, bool, seq<int>)
    ghost var history: seq<QueuedEvent>
    ghost var ran: map<nat, Entry>
    ghost var granted: map<nat, nat>
    var posted: nat

    ghost predicate Valid()
      reads this
    {
      posted == |history|
    }

    ghost function State(): Poker
      reads this
    {
      Poker(now, mKey, mQueuedEvents, looper, fds, slots.0, slots.1, slots.2, history, ran, granted)
    }

    constructor (now: nat, fds: map<nat, OpenFile>)
      requires forall fd :: fd in fds ==> fds[fd].owner.Other?
      ensures Valid() && Initial(State()) && this.now == now && this.fds == fds
    {
      mKey, posted := 0, 0;
      mQueuedEvents, looper := map[], map[];
      this.now, this.fds := now, fds;
      slots, history, ran, granted := (EMPTY, true, []), [], map[], map[];
    }

    method GenerateNewKey() returns (key: Key)
      modifies this`mKey
      ensures key == old(mKey) && mKey == NextKey(key) && mKey == if key == 0xffff_ffff then 0 else key + 1
    {
      key := mKey;
      mKey := NextKey(mKey);
    }

    method SendEventDelayed(delay: nat, ev: QueuedEvent)
      requires Valid()
      modifies this
      ensures Valid() && State() == Send(old(State()), delay, ev)
    {
      var key := GenerateNewKey();
      mQueuedEvents := mQueuedEvents[key := Entry(posted, ev)];
      looper := looper[posted := Message(now + delay, key)];
      posted := posted + 1;
      history := history + [ev];
    }

    method RemoveEventByKey(what: Key) returns (e: Option<Entry>)
      modifies this`mQueuedEvents
      ensures what in old(mQueuedEvents) ==> e == Some(old(mQueuedEvents)[what])
      ensures what !in old(mQueuedEvents) ==> e == None
      ensures mQueuedEvents == old(mQueuedEvents) - {what}
    {
      e := if what in mQueuedEvents then Some(mQueuedEvents[what]) else None;
      mQueuedEvents := mQueuedEvents - {what};
    }

    method OpenPmQosTimed(n: nat, node: string, val: int, timeout: nat, o: OpenResult)
      requires Valid()
      modifies this
      ensures Valid() && State() == OpenTimed(old(State()), n, node, val, timeout, o)
    {
      if o.OpenFailed? {
        return;
      }
      fds := fds[o.fd := OpenFile(node, val, Timed(now, timeout, n, posted))];
      granted := granted[n := o.fd];
      SendEventDelayed(timeout, TimeoutEvent(o.fd));
    }

    method TimeoutRequest(fd: nat)
      modifies this`fds
      ensures fds == old(fds) - {fd}
    {
      fds := fds - {fd};
    }

    /** The value stored through `outFd`: the client end of the pipe, or -1. A
        file whose pipe cannot be made is closed again. */
    method CreateHandleForPmQosRequest(node: string, val: int, o: OpenResult, p: PipeResult) returns (handle: int)
      requires Valid() && Fresh(State(), o, p)
      modifies this`fds
      ensures Valid() && State() == OpenHandle(old(State()), node, val, o, p)
      ensures handle == if o.Opened? && p.Pipe? then p.client else -1
      ensures o.Opened? && p.Pipe? ==> o.fd in fds && fds[o.fd] == OpenFile(node, val, Other)
      ensures !(o.Opened? && p.Pipe?) ==> fds == old(fds)
    {
      if o.OpenFailed? {
        return -1;
      }
      ghost var before := fds;
      fds := fds[o.fd := OpenFile(node, val, Other)];
      if p.PipeFailed? {
        fds := fds - {o.fd};
        assert fds == before;
        return -1;
      }
      fds := fds[p.server := OpenFile("pipe", 0, Other)][p.client := OpenFile("pipe", 0, Other)];
      return p.client;
    }

    method HandleMessage(n: nat, o: OpenResult, p: PipeResult)
      requires Valid() && n in looper && Fresh(State(), o, p)
      modifies this
      ensures Valid() && State() == Deliver(old(State()), n, o, p)
    {
      var what := looper[n].what;
      looper := looper - {n};
      ghost var queue := mQueuedEvents;
      var e := RemoveEventByKey(what);
      match e {
        case None =>
          assert mQueuedEvents == queue;
          return;
        case Some(ev) =>
          ran := ran[n := ev];
          match ev.event {
            case PmQosOpenTimedEvent(node, val, timeout) => OpenPmQosTimed(n, node, val, timeout, o);
            case PmQosOpenHandleEvent(node, val) => var _ := CreateHandleForPmQosRequest(node, val, o, p);
            case TimeoutEvent(fd) => TimeoutRequest(fd);
          }
      }
    }
  }
}

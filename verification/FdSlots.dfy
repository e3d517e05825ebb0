/** The descriptors the power HAL keeps in named slots. A setter closes what its slot
    holds and opens a new request; a camera reset empties four of the slots.

    The slot for /dev/max_online_cpus starts at 0, not -1: camera_power is
    cleared with memset and only three of its descriptors are then set to -1.
    `stale` says that the slot still holds that 0. */
module FdSlots {
  import opened Common
  import opened Descriptors

  datatype SlotMap = SlotMap(
    appMinFreq: int, appMaxGpu: int, appMinGpu: int,
    camCpuFreqMax: int, camMinOnlineCpus: int, camMaxOnlineCpus: int)
  {
    function Get(x: Name): int {
      match x
      case AppMinFreq => appMinFreq
      case AppMaxGpu => appMaxGpu
      case AppMinGpu => appMinGpu
      case CamCpuFreqMax => camCpuFreqMax
      case CamMinOnlineCpus => camMinOnlineCpus
      case CamMaxOnlineCpus => camMaxOnlineCpus
    }

    function Put(x: Name, fd: int): SlotMap {
      match x
      case AppMinFreq => this.(appMinFreq := fd)
      case AppMaxGpu => this.(appMaxGpu := fd)
      case AppMinGpu => this.(appMinGpu := fd)
      case CamCpuFreqMax => this.(camCpuFreqMax := fd)
      case CamMinOnlineCpus => this.(camMinOnlineCpus := fd)
      case CamMaxOnlineCpus => this.(camMaxOnlineCpus := fd)
    }
  }

  const EMPTY: SlotMap := SlotMap(-1, -1, -1, -1, -1, 0)

  /** `stray` is history: every descriptor that a slot closed although it was not
      an open request of that slot. */
  datatype Slots = Slots(slot: SlotMap, files: map<nat, OpenFile>, stale: bool, stray: seq<int>)

  datatype Op =
    | SetMinFreq(v: int) | SetGpuCap(v: int) | SetGpuScaling(v: int)
    | SetCpuFreqMax(v: int) | SetMinOnlineCpus(v: int) | SetMaxOnlineCpus(v: int)
    | ResetCamera

  const MIN_FREQ_DEFAULT: int := 0
  /** UINT_MAX stored in an int. */
  const GPU_CAP_DEFAULT: int := -1

  /** What a setter asks for: its slot, its node and the value written there. */
  datatype Want = Want(name: Name, node: string, val: int)

  function Wanted(op: Op): Option<Want> {
    match op
    case SetMinFreq(v) => Some(Want(AppMinFreq, "/dev/cpu_freq_min", if v < 0 then MIN_FREQ_DEFAULT else v))
    case SetGpuCap(v) => Some(Want(AppMaxGpu, "/dev/gpu_freq_max", if v < 0 then GPU_CAP_DEFAULT else v))
    case SetGpuScaling(v) => Some(Want(AppMinGpu, "/dev/gpu_freq_min", if v != 0 then 0 else INT_MAX))
    case SetCpuFreqMax(v) => if v > 0 then Some(Want(CamCpuFreqMax, "/dev/cpu_freq_max", v)) else None
    case SetMinOnlineCpus(v) => Some(Want(CamMinOnlineCpus, "/dev/min_online_cpus", v))
    case SetMaxOnlineCpus(v) => Some(Want(CamMaxOnlineCpus, "/dev/max_online_cpus", v))
    case ResetCamera => None
  }

  /** Application slots are closed when not negative, camera slots when not -1. */
  predicate InUse(x: Name, fd: int) {
    if x.AppMinFreq? || x.AppMaxGpu? || x.AppMinGpu? then fd >= 0 else fd != -1
  }

  predicate OwnFile(s: Slots, x: Name, fd: int) {
    fd >= 0 && fd in s.files && s.files[fd].owner == Slot(x)
  }

  /** What close(2) does: nothing for a number that is not an open descriptor. */
  function Closed(files: map<nat, OpenFile>, fd: int): map<nat, OpenFile> {
    if fd >= 0 then var d: nat := fd; files - {d} else files
  }

  /** The closing half of a setter, or one block of a reset. */
  function Empty(s: Slots, x: Name): Slots {
    var fd := s.slot.Get(x);
    if InUse(x, fd) then
      s.(slot := s.slot.Put(x, -1),
         files := Closed(s.files, fd),
         stale := s.stale && x != CamMaxOnlineCpus,
         stray := if OwnFile(s, x, fd) then s.stray else s.stray + [fd])
    else s
  }

  /** The opening half. */
  function Fill(s: Slots, w: Want, g: OpenResult): Slots {
    match g
    case OpenFailed => s.(slot := s.slot.Put(w.name, -1))
    case Opened(fd) =>
      s.(slot := s.slot.Put(w.name, fd), files := s.files[fd := OpenFile(w.node, w.val, Slot(w.name))])
  }

  function EmptyAll(s: Slots, xs: seq<Name>): Slots
    decreases |xs|
  {
    if xs == [] then s else EmptyAll(Empty(s, xs[0]), xs[1..])
  }

  /** The slots a camera reset empties, in order. */
  const RESET_SLOTS: seq<Name> := [CamCpuFreqMax, AppMinFreq, CamMinOnlineCpus, CamMaxOnlineCpus]

  /** One call of a setter or of the reset. */
  function Apply(s: Slots, op: Op, g: OpenResult): Slots {
    if op.ResetCamera? then EmptyAll(s, RESET_SLOTS)
    else if Wanted(op).Some? then Fill(Empty(s, Wanted(op).value.name), Wanted(op).value, g)
    else s
  }

  /** What each call does, name by name: a setter that is granted descriptor fd leaves
      its slot naming it and its value written to its node, one that is refused
      leaves the slot at -1, and a reset empties four slots and no other. */
  lemma CallsDo(s: Slots, op: Op, fd: nat)
    requires InRange(s)
    ensures
      var t, u := Apply(s, op, Opened(fd)), Apply(s, op, OpenFailed);
      match op
      case SetMinFreq(v) =>
        && fd in t.files && t.files[fd] == OpenFile("/dev/cpu_freq_min", if v < 0 then 0 else v, Slot(AppMinFreq))
        && t.slot == s.slot.(appMinFreq := fd) && u.slot == s.slot.(appMinFreq := -1)
      case SetGpuCap(v) =>
        && fd in t.files && t.files[fd] == OpenFile("/dev/gpu_freq_max", if v < 0 then -1 else v, Slot(AppMaxGpu))
        && t.slot == s.slot.(appMaxGpu := fd) && u.slot == s.slot.(appMaxGpu := -1)
      case SetGpuScaling(v) =>
        && fd in t.files
        && t.files[fd] == OpenFile("/dev/gpu_freq_min", if v == 0 then 0x7fff_ffff else 0, Slot(AppMinGpu))
        && t.slot == s.slot.(appMinGpu := fd) && u.slot == s.slot.(appMinGpu := -1)
      case SetCpuFreqMax(v) =>
        if v <= 0 then t == s && u == s
        else
          && fd in t.files && t.files[fd] == OpenFile("/dev/cpu_freq_max", v, Slot(CamCpuFreqMax))
          && t.slot == s.slot.(camCpuFreqMax := fd) && u.slot == s.slot.(camCpuFreqMax := -1)
      case SetMinOnlineCpus(v) =>
        && fd in t.files && t.files[fd] == OpenFile("/dev/min_online_cpus", v, Slot(CamMinOnlineCpus))
        && t.slot == s.slot.(camMinOnlineCpus := fd) && u.slot == s.slot.(camMinOnlineCpus := -1)
      case SetMaxOnlineCpus(v) =>
        && fd in t.files && t.files[fd] == OpenFile("/dev/max_online_cpus", v, Slot(CamMaxOnlineCpus))
        && t.slot == s.slot.(camMaxOnlineCpus := fd) && u.slot == s.slot.(camMaxOnlineCpus := -1)
      case ResetCamera =>
        && t == u
        && t.slot == s.slot.(camCpuFreqMax := -1, appMinFreq := -1, camMinOnlineCpus := -1, camMaxOnlineCpus := -1)
  {
    if op.ResetCamera? {
      assert RESET_SLOTS[1..] == [AppMinFreq, CamMinOnlineCpus, CamMaxOnlineCpus];
      assert RESET_SLOTS[1..][1..] == [CamMinOnlineCpus, CamMaxOnlineCpus];
      assert RESET_SLOTS[1..][1..][1..] == [CamMaxOnlineCpus];
      assert RESET_SLOTS[1..][1..][1..][1..] == [];
    }
  }

  // ----- ownership -----

  /** The one slot content that is not a descriptor of the HAL. */
  predicate Unset(s: Slots, x: Name) {
    x == CamMaxOnlineCpus && s.stale
  }

  /** The numbers in the slots: descriptors or -1. */
  predicate InRange(s: Slots) {
    && (s.stale ==> s.slot.Get(CamMaxOnlineCpus) == 0)
    && s.slot.appMinFreq >= -1 && s.slot.appMaxGpu >= -1 && s.slot.appMinGpu >= -1
    && s.slot.camCpuFreqMax >= -1 && s.slot.camMinOnlineCpus >= -1 && s.slot.camMaxOnlineCpus >= -1
  }

  /** Slot x names descriptor fd and counts on it. */
  predicate Names(s: Slots, x: Name, fd: nat) {
    s.slot.Get(x) == fd && !Unset(s, x)
  }

  /** A slot that names descriptor fd holds it as its own open request, and a request
      of a slot is named by that slot: nothing leaks and nothing is shared. */
  ghost predicate OwnsAt(s: Slots, fd: nat) {
    && (forall x: Name {:trigger Names(s, x, fd)} :: Names(s, x, fd) ==> OwnFile(s, x, fd))
    && (fd in s.files && s.files[fd].owner.Slot? ==> Names(s, s.files[fd].owner.name, fd))
  }

  /** Emptying a slot closes the one descriptor it holds and keeps ownership of every
      descriptor but 0, and of 0 exactly unless the slot is the stale one and 0 is an
      open request of another slot. */
  lemma EmptyKeepsOwnsAt(s: Slots, x: Name, fd: nat)
    requires InRange(s) && OwnsAt(s, fd)
    ensures InRange(Empty(s, x)) && Empty(s, x).slot.Get(x) == -1 && !Unset(Empty(s, x), x)
    ensures OwnsAt(Empty(s, x), fd) <==> !(fd == 0 && Unset(s, x) && 0 in s.files && s.files[0].owner.Slot?)
    ensures fd in Empty(s, x).files <==> fd in s.files && s.slot.Get(x) != fd
    ensures fd in Empty(s, x).files ==> Empty(s, x).files[fd] == s.files[fd]
  {
    var t := Empty(s, x);
    if fd == 0 && Unset(s, x) && 0 in s.files && s.files[0].owner.Slot? {
      assert Names(t, s.files[0].owner.name, 0);
    } else {
      forall y: Name | Names(t, y, fd) ensures OwnFile(t, y, fd) {
        assert Names(s, y, fd);
        assert s.slot.Get(x) == fd ==> Names(s, x, fd) || Unset(s, x);
      }
      assert fd in t.files && t.files[fd].owner.Slot? ==> Names(s, t.files[fd].owner.name, fd);
    }
  }

  lemma FillKeepsOwnsAt(s: Slots, w: Want, g: OpenResult, fd: nat)
    requires InRange(s) && OwnsAt(s, fd) && s.slot.Get(w.name) == -1 && !Unset(s, w.name)
    requires g.Opened? ==> g.fd !in s.files
    ensures InRange(Fill(s, w, g)) && OwnsAt(Fill(s, w, g), fd)
    ensures fd in s.files ==> fd in Fill(s, w, g).files && Fill(s, w, g).files[fd] == s.files[fd]
    ensures fd in Fill(s, w, g).files ==> fd in s.files || Fill(s, w, g).files[fd].owner.Slot?
  {
    var t := Fill(s, w, g);
    forall y: Name | Names(t, y, fd) ensures OwnFile(t, y, fd) {
      assert y != w.name ==> Names(s, y, fd);
    }
    assert fd in s.files && s.files[fd].owner.Slot? ==> Names(s, s.files[fd].owner.name, fd);
  }

  /** What slot x holds, unless it is stale. */
  ghost function Holding(s: Slots, x: Name): Option<Want> {
    var fd := s.slot.Get(x);
    if Unset(s, x) || fd < 0 || fd !in s.files then None else Some(Want(x, s.files[fd].node, s.files[fd].val))
  }

  lemma EmptyHolding(s: Slots, y: Name, x: Name)
    requires InRange(s) && (s.slot.Get(x) >= 0 && !Unset(s, x) ==> OwnsAt(s, s.slot.Get(x)))
    requires Unset(s, y) && s.slot.Get(x) == 0 ==> 0 !in s.files || !s.files[0].owner.Slot?
    ensures Holding(Empty(s, y), x) == if x == y then None else Holding(s, x)
  {
    if x != y && s.slot.Get(x) >= 0 && !Unset(s, x) {
      assert Names(s, x, s.slot.Get(x));
      if s.slot.Get(y) == s.slot.Get(x) && !Unset(s, y) {
        assert Names(s, y, s.slot.Get(x));
      }
    }
  }

  lemma FillHolding(s: Slots, w: Want, g: OpenResult, x: Name)
    requires InRange(s) && s.slot.Get(w.name) == -1 && (g.Opened? ==> g.fd !in s.files)
    requires s.slot.Get(x) >= 0 && !Unset(s, x) ==> OwnsAt(s, s.slot.Get(x))
    ensures
      Holding(Fill(s, w, g), x) == if x == w.name then if g.Opened? then Some(w) else None else Holding(s, x)
  {
    if x != w.name && s.slot.Get(x) >= 0 && !Unset(s, x) {
      assert Names(s, x, s.slot.Get(x));
    }
  }

  /** A slot that holds its own request closes just that; only the stale one strays. */
  lemma EmptyStrays(s: Slots, x: Name)
    requires InRange(s) && (s.slot.Get(x) >= 0 && !Unset(s, x) ==> OwnsAt(s, s.slot.Get(x)))
    requires Unset(s, x) ==> !OwnFile(s, x, 0)
    ensures Empty(s, x).stray == if Unset(s, x) then s.stray + [0] else s.stray
  {
    if s.slot.Get(x) >= 0 && !Unset(s, x) {
      assert Names(s, x, s.slot.Get(x));
    }
  }
}

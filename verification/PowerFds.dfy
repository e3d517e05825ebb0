/** The slot setters in the code's own form: fields of powerhal_info that are
    closed and reassigned in place. */
module PowerFds {
  import opened Common
  import opened Descriptors
  import opened FdSlots

  /** One call of a setter or of the reset, and what the kernel answers to its open. */
  datatype Use = Use(op: Op, g: OpenResult)

  function After(s: Slots, uses: seq<Use>): Slots
    decreases |uses|
  {
    if uses == [] then s else After(Apply(s, uses[0].op, uses[0].g), uses[1..])
  }

  /** The PM QoS part of a platform's entry for one camera use case. */
  datatype CameraCap = CameraCap(minFreq: int, freq: int, minOnlineCpus: int, maxOnlineCpus: int)

  /** The calls a use case makes, in order; a zero entry makes none. */
  function CapEvents(cap: CameraCap, g0: OpenResult, g1: OpenResult, g2: OpenResult, g3: OpenResult): seq<Use> {
    (if cap.minFreq != 0 then [Use(SetMinFreq(cap.minFreq), g0)] else [])
    + (if cap.freq != 0 then [Use(SetCpuFreqMax(cap.freq), g1)] else [])
    + (if cap.minOnlineCpus != 0 then [Use(SetMinOnlineCpus(cap.minOnlineCpus), g2)] else [])
    + (if cap.maxOnlineCpus != 0 then [Use(SetMaxOnlineCpus(cap.maxOnlineCpus), g3)] else [])
  }

  /** The knobs of an application profile; the fan cap is not a descriptor. */
  datatype Knob = CPU_SCALING_MIN_FREQ | GPU_CBUS_CAP_LEVEL | GPU_SCALING | FAN_CAP | OTHER_KNOB

  /** Only builds for the GK20A hold the GPU cap by a descriptor. */
  function KnobEvents(gk20a: bool, k: Knob, v: int, g: OpenResult): seq<Use> {
    match k
    case CPU_SCALING_MIN_FREQ => [Use(SetMinFreq(v), g)]
    case GPU_CBUS_CAP_LEVEL => if gk20a then [Use(SetGpuCap(v), g)] else []
    case GPU_SCALING => [Use(SetGpuScaling(v), g)]
    case _ => []
  }

  function ProfileEvents(gk20a: bool, knobs: seq<Knob>, data: seq<int>, grants: seq<OpenResult>): seq<Use>
    requires |knobs| == |data| == |grants|
  {
    if knobs == [] then []
    else KnobEvents(gk20a, knobs[0], data[0], grants[0]) + ProfileEvents(gk20a, knobs[1..], data[1..], grants[1..])
  }

  /** What each knob of a profile does. */
  lemma KnobsDo(gk20a: bool, s: Slots, k: Knob, v: int, g: OpenResult)
    ensures
      After(s, ProfileEvents(gk20a, [k], [v], [g])) ==
        match k
        case CPU_SCALING_MIN_FREQ => Apply(s, SetMinFreq(v), g)
        case GPU_CBUS_CAP_LEVEL => if gk20a then Apply(s, SetGpuCap(v), g) else s
        case GPU_SCALING => Apply(s, SetGpuScaling(v), g)
        case _ => s
  {
    hide Apply;
    var events := KnobEvents(gk20a, k, v, g);
    assert [k][1..] == [] && [v][1..] == [] && [g][1..] == [] && events + [] == events;
    if events != [] {
      assert events[1..] == [];
    }
  }

  lemma {:induction false} AfterConcat(s: Slots, a: seq<Use>, b: seq<Use>)
    ensures After(s, a + b) == After(After(s, a), b)
    decreases |a|
  {
    hide Apply;
    if a == [] {
      assert a + b == b;
    } else {
      AfterConcat(Apply(s, a[0].op, a[0].g), a[1..], b);
      assert (a + b)[1..] == a[1..] + b;
    }
  }

  lemma {:induction false} ProfileStep(
    gk20a: bool, s: Slots, knobs: seq<Knob>, data: seq<int>, grants: seq<OpenResult>, i: nat)
    requires |knobs| == |data| == |grants| && i < |knobs|
    ensures
      After(s, ProfileEvents(gk20a, knobs[..i + 1], data[..i + 1], grants[..i + 1])) ==
      After(After(s, ProfileEvents(gk20a, knobs[..i], data[..i], grants[..i])),
            KnobEvents(gk20a, knobs[i], data[i], grants[i]))
    decreases i
  {
    hide Apply, KnobEvents;
    var first := KnobEvents(gk20a, knobs[0], data[0], grants[0]);
    assert knobs[..i + 1][1..] == knobs[1..][..i];
    assert data[..i + 1][1..] == data[1..][..i] && grants[..i + 1][1..] == grants[1..][..i];
    AfterConcat(s, first, ProfileEvents(gk20a, knobs[1..][..i], data[1..][..i], grants[1..][..i]));
    if i > 0 {
      assert knobs[..i][1..] == knobs[1..][..i - 1];
      assert data[..i][1..] == data[1..][..i - 1] && grants[..i][1..] == grants[1..][..i - 1];
      AfterConcat(s, first, ProfileEvents(gk20a, knobs[1..][..i - 1], data[1..][..i - 1], grants[1..][..i - 1]));
      ProfileStep(gk20a, After(s, first), knobs[1..], data[1..], grants[1..], i - 1);
    }
  }

  class PowerHalFds {
    const gk20a: bool
    var appMinFreq: int
    var appMaxGpu: int
    var appMinGpu: int
    var fdCpuFreqMax: int
    var fdMinOnlineCpus: int
    var fdMaxOnlineCpus: int
    var files: map<nat, OpenFile>
    /** The GPU cap of builds that set it through sysfs: its state and its level. */
    var capState: int
    var capLevel: int
    ghost var stale: bool
    ghost var stray: seq<int>

    ghost function State(): Slots
      reads this
    {
      Slots(SlotMap(appMinFreq, appMaxGpu, appMinGpu, fdCpuFreqMax, fdMinOnlineCpus, fdMaxOnlineCpus),
            files, stale, stray)
    }

    /** common_power_open and common_power_camera_init. */
    constructor (gk20a: bool, files: map<nat, OpenFile>)
      ensures State() == Slots(EMPTY, files, true, []) && this.gk20a == gk20a
    {
      this.gk20a, capState, capLevel := gk20a, 0, 0;
      appMinFreq, appMaxGpu, appMinGpu := -1, -1, -1;
      fdCpuFreqMax, fdMinOnlineCpus, fdMaxOnlineCpus := -1, -1, 0;
      this.files := files;
      stale, stray := true, [];
    }

    method Close(fd: int, ghost x: Name)
      modifies this`files, this`stray
      ensures files == Closed(old(files), fd)
      ensures stray == if OwnFile(old(State()), x, fd) then old(stray) else old(stray) + [fd]
    {
      stray := if OwnFile(State(), x, fd) then stray else stray + [fd];
      files := Closed(files, fd);
    }

    method RequestPmQos(node: string, val: int, g: OpenResult, x: Name) returns (fd: int)
      modifies this`files
      ensures g.OpenFailed? ==> fd == -1 && files == old(files)
      ensures g.Opened? ==> fd == g.fd && files == old(files)[fd := OpenFile(node, val, Slot(x))]
    {
      if g.OpenFailed? {
        return -1;
      }
      files := files[g.fd := OpenFile(node, val, Slot(x))];
      return g.fd;
    }

    method SetCpuScalingMinFreq(value: int, g: OpenResult)
      modifies this
      ensures State() == Apply(old(State()), SetMinFreq(value), g)
    {
      var v := if value < 0 then MIN_FREQ_DEFAULT else value;
      if appMinFreq >= 0 {
        Close(appMinFreq, AppMinFreq);
        appMinFreq := -1;
      }
      appMinFreq := RequestPmQos("/dev/cpu_freq_min", v, g, AppMinFreq);
    }

    method SetGpuScaling(value: int, g: OpenResult)
      modifies this
      ensures State() == Apply(old(State()), Op.SetGpuScaling(value), g)
    {
      if appMinGpu >= 0 {
        Close(appMinGpu, AppMinGpu);
        appMinGpu := -1;
      }
      if value != 0 {
        appMinGpu := RequestPmQos("/dev/gpu_freq_min", 0, g, AppMinGpu);
      } else {
        appMinGpu := RequestPmQos("/dev/gpu_freq_min", INT_MAX, g, AppMinGpu);
      }
    }

    method SetGpuCoreCap(value: int, g: OpenResult)
      modifies this
      ensures gk20a ==> State() == Apply(old(State()), SetGpuCap(value), g)
      ensures gk20a ==> capState == old(capState) && capLevel == old(capLevel)
      ensures !gk20a ==> State() == old(State())
      ensures !gk20a ==> capState == 1 && capLevel == if value < 0 then GPU_CAP_DEFAULT else value
    {
      var v := if value < 0 then GPU_CAP_DEFAULT else value;
      if gk20a {
        if appMaxGpu >= 0 {
          Close(appMaxGpu, AppMaxGpu);
          appMaxGpu := -1;
        }
        appMaxGpu := RequestPmQos("/dev/gpu_freq_max", v, g, AppMaxGpu);
      } else {
        capState, capLevel := 1, v;
      }
    }

    method SetCameraCpuFreqMax(value: int, g: OpenResult)
      modifies this
      ensures State() == Apply(old(State()), SetCpuFreqMax(value), g)
    {
      if value > 0 {
        if fdCpuFreqMax != -1 {
          Close(fdCpuFreqMax, CamCpuFreqMax);
        }
        fdCpuFreqMax := RequestPmQos("/dev/cpu_freq_max", value, g, CamCpuFreqMax);
      }
    }

    method SetCameraMinOnlineCpus(value: int, g: OpenResult)
      modifies this
      ensures State() == Apply(old(State()), SetMinOnlineCpus(value), g)
    {
      if fdMinOnlineCpus != -1 {
        Close(fdMinOnlineCpus, CamMinOnlineCpus);
      }
      fdMinOnlineCpus := RequestPmQos("/dev/min_online_cpus", value, g, CamMinOnlineCpus);
    }

    method SetCameraMaxOnlineCpus(value: int, g: OpenResult)
      modifies this
      ensures State() == Apply(old(State()), SetMaxOnlineCpus(value), g)
    {
      if fdMaxOnlineCpus != -1 {
        Close(fdMaxOnlineCpus, CamMaxOnlineCpus);
        stale := false;
      }
      fdMaxOnlineCpus := RequestPmQos("/dev/max_online_cpus", value, g, CamMaxOnlineCpus);
    }

    method EmptyCpuFreqMax()
      modifies this
      ensures State() == Empty(old(State()), CamCpuFreqMax)
    {
      if fdCpuFreqMax != -1 {
        Close(fdCpuFreqMax, CamCpuFreqMax);
        fdCpuFreqMax := -1;
      }
    }

    method EmptyAppMinFreq()
      modifies this
      ensures State() == Empty(old(State()), AppMinFreq)
    {
      if appMinFreq >= 0 {
        Close(appMinFreq, AppMinFreq);
        appMinFreq := -1;
      }
    }

    method EmptyMinOnlineCpus()
      modifies this
      ensures State() == Empty(old(State()), CamMinOnlineCpus)
    {
      if fdMinOnlineCpus != -1 {
        Close(fdMinOnlineCpus, CamMinOnlineCpus);
        fdMinOnlineCpus := -1;
      }
    }

    method EmptyMaxOnlineCpus()
      modifies this
      ensures State() == Empty(old(State()), CamMaxOnlineCpus)
    {
      if fdMaxOnlineCpus != -1 {
        Close(fdMaxOnlineCpus, CamMaxOnlineCpus);
        fdMaxOnlineCpus := -1;
        stale := false;
      }
    }

    /** The descriptors of reset_camera_hint, one block of it per call. */
    method ResetCameraFds(ghost g: OpenResult)
      modifies this
      ensures State() == Apply(old(State()), ResetCamera, g)
    {
      FourEmpties(State());
      EmptyCpuFreqMax();
      EmptyAppMinFreq();
      EmptyMinOnlineCpus();
      EmptyMaxOnlineCpus();
    }

    /** The calls set_camera_hint makes for a use case. */
    method SetCameraCaps(cap: CameraCap, g0: OpenResult, g1: OpenResult, g2: OpenResult, g3: OpenResult)
      modifies this
      ensures State() == After(old(State()), CapEvents(cap, g0, g1, g2, g3))
    {
      CapsInOrder(State(), cap, g0, g1, g2, g3);
      if cap.minFreq != 0 {
        SetCpuScalingMinFreq(cap.minFreq, g0);
      }
      if cap.freq != 0 {
        SetCameraCpuFreqMax(cap.freq, g1);
      }
      if cap.minOnlineCpus != 0 {
        SetCameraMinOnlineCpus(cap.minOnlineCpus, g2);
      }
      if cap.maxOnlineCpus != 0 {
        SetCameraMaxOnlineCpus(cap.maxOnlineCpus, g3);
      }
    }

    /** `knobs` is the order in which the profile enumeration lists its knobs. */
    method AppProfileSet(knobs: seq<Knob>, data: seq<int>, grants: seq<OpenResult>)
      requires |knobs| == |data| == |grants|
      modifies this
      ensures State() == After(old(State()), ProfileEvents(gk20a, knobs, data, grants))
    {
      for i := 0 to |knobs|
        invariant State() == After(old(State()), ProfileEvents(gk20a, knobs[..i], data[..i], grants[..i]))
      {
        ProfileStep(gk20a, old(State()), knobs, data, grants, i);
        match knobs[i] {
          case CPU_SCALING_MIN_FREQ => SetCpuScalingMinFreq(data[i], grants[i]);
          case GPU_CBUS_CAP_LEVEL => SetGpuCoreCap(data[i], grants[i]);
          case GPU_SCALING => SetGpuScaling(data[i], grants[i]);
          case _ =>
        }
      }
      assert knobs[..|knobs|] == knobs && data[..|knobs|] == data && grants[..|knobs|] == grants;
    }
  }

  function ApplyIf(s: Slots, v: int, op: Op, g: OpenResult): Slots {
    if v != 0 then Apply(s, op, g) else s
  }

  lemma CapsInOrder(s: Slots, cap: CameraCap, g0: OpenResult, g1: OpenResult, g2: OpenResult, g3: OpenResult)
    ensures
      var s1 := ApplyIf(s, cap.minFreq, SetMinFreq(cap.minFreq), g0);
      var s2 := ApplyIf(s1, cap.freq, SetCpuFreqMax(cap.freq), g1);
      var s3 := ApplyIf(s2, cap.minOnlineCpus, SetMinOnlineCpus(cap.minOnlineCpus), g2);
      After(s, CapEvents(cap, g0, g1, g2, g3)) ==
        ApplyIf(s3, cap.maxOnlineCpus, SetMaxOnlineCpus(cap.maxOnlineCpus), g3)
  {
    var a := if cap.minFreq != 0 then [Use(SetMinFreq(cap.minFreq), g0)] else [];
    var b := if cap.freq != 0 then [Use(SetCpuFreqMax(cap.freq), g1)] else [];
    var c := if cap.minOnlineCpus != 0 then [Use(SetMinOnlineCpus(cap.minOnlineCpus), g2)] else [];
    var d := if cap.maxOnlineCpus != 0 then [Use(SetMaxOnlineCpus(cap.maxOnlineCpus), g3)] else [];
    AfterConcat(s, a + b + c, d);
    AfterConcat(s, a + b, c);
    AfterConcat(s, a, b);
  }

  lemma FourEmpties(s: Slots)
    ensures
      EmptyAll(s, RESET_SLOTS) ==
      Empty(Empty(Empty(Empty(s, CamCpuFreqMax), AppMinFreq), CamMinOnlineCpus), CamMaxOnlineCpus)
  {
    var s1 := Empty(s, CamCpuFreqMax);
    var s2 := Empty(s1, AppMinFreq);
    var s3 := Empty(s2, CamMinOnlineCpus);
    assert RESET_SLOTS[1..] == [AppMinFreq, CamMinOnlineCpus, CamMaxOnlineCpus];
    assert [AppMinFreq, CamMinOnlineCpus, CamMaxOnlineCpus][1..] == [CamMinOnlineCpus, CamMaxOnlineCpus];
    assert [CamMinOnlineCpus, CamMaxOnlineCpus][1..] == [CamMaxOnlineCpus];
    assert EmptyAll(s3, [CamMaxOnlineCpus]) == Empty(s3, CamMaxOnlineCpus);
    assert EmptyAll(s2, [CamMinOnlineCpus, CamMaxOnlineCpus]) == EmptyAll(s3, [CamMaxOnlineCpus]);
  }
}

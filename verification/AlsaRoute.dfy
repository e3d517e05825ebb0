/** Routing of the ALSA engine: a new device set turns mixer controls on and off.

    Device masks are sets of devices. `KindOf` says for every control of every
    card what governs it, `Routed` is the router as a table-driven function, and
    the method Route of `AlsaDev` is the code's own form, branch by branch. */
module AlsaRoute {
  import opened Common

  datatype Device =
    | OUT_EARPIECE | OUT_SPEAKER | OUT_WIRED_HEADSET | OUT_WIRED_HEADPHONE
    | OUT_BLUETOOTH | OUT_AUX_DIGITAL | OUT_DEFAULT | OUT_OTHER
    | IN_COMMUNICATION | IN_VOICE_CALL | IN_BUILTIN_MIC | IN_DEFAULT | IN_AMBIENT | IN_BACK_MIC
    | IN_WIRED_HEADSET | IN_BLUETOOTH
    | IN_AUX_DIGITAL | IN_OTHER

  datatype Card = WM8903 | MAX98095 | RT5640 | AIC326X | OTHER_CARD
  datatype Mode = NORMAL | RINGTONE | IN_CALL | IN_COMMUNICATION_MODE

  const OUT_ALL: set<Device> := {
    OUT_EARPIECE, OUT_SPEAKER, OUT_WIRED_HEADSET, OUT_WIRED_HEADPHONE,
    OUT_BLUETOOTH, OUT_AUX_DIGITAL, OUT_DEFAULT, OUT_OTHER}
  const IN_ALL: set<Device> := {
    IN_COMMUNICATION, IN_VOICE_CALL, IN_BUILTIN_MIC, IN_DEFAULT, IN_AMBIENT,
    IN_BACK_MIC, IN_WIRED_HEADSET, IN_BLUETOOTH, IN_AUX_DIGITAL, IN_OTHER}

  const SPEAKERS: set<Device> := {OUT_EARPIECE, OUT_SPEAKER, OUT_DEFAULT}
  const LOUDSPEAKERS: set<Device> := {OUT_SPEAKER, OUT_DEFAULT}
  const HEADPHONES: set<Device> := {OUT_WIRED_HEADSET, OUT_WIRED_HEADPHONE}
  const MICS: set<Device> := {IN_BUILTIN_MIC, IN_DEFAULT, IN_AMBIENT, IN_BACK_MIC}
  const HEADSET_MICS: set<Device> := {IN_WIRED_HEADSET}

  predicate Meets(a: set<Device>, b: set<Device>) {
    exists d :: d in a && d in b
  }

  /** The mixer controls: those every card may have, those of each codec, and
      those that opening, muting or a fallback also writes, whose settings are not
      claimed. */
  datatype Control =
    | HeadphoneJackSwitch | IntMicSwitch | MicJackSwitch | IntSpkSwitch | CallModeSwitch
    | Wm(wm: WmControl) | Max(max: MaxControl) | Aic(aic: AicControl) | Free(free: FreeControl)

  datatype WmControl =
    | LeftSpeakerMixerDacl | RightSpeakerMixerDacr
    | LeftInputPgaCommonMode | LeftCaptureMux | RightCaptureMux | LeftAdcInput | RightAdcInput

  datatype MaxControl =
    | LeftSpeakerMixerLeftDac1 | RightSpeakerMixerLeftDac1 | SpeakerVolume
    | LeftHeadphoneMixerLeftDac1 | RightHeadphoneMixerLeftDac1 | HeadphoneVolume

  datatype AicControl =
    | LolOutputMixerLdac | LorOutputMixerRdac | SpklOutputMixerLolVolume | SpkrOutputMixerLorVolume
    | RecOutputMixerLolVolume | RecOutputMixerLorVolume | EarpieceSwitch
    | HplOutputMixerLdac | HprOutputMixerRdac
    | LeftInputMixerIn2l | RightInputMixerIn2r | LeftInputMixerCm1l | RightInputMixerCm1r
    | MicBiasExtIndependent | InputCmMode | LeftInputMixerIn1l | MicBiasExtOn

  datatype FreeControl = HeadphoneSwitch | DigitalCaptureVolume | LeftInputPgaSwitch | AdcInput

  /** Choices of the enumerated controls, by number. */
  const ADC: int := 0
  const DMIC: int := 1
  const LEFT: int := 0
  const RIGHT: int := 1

  // ----- the controls by table -----

  /** The four blocks of the router and the devices each asks for. */
  datatype Block = SpeakerBlock | HeadphoneBlock | MicBlock | HeadsetMicBlock

  function Mask(b: Block): set<Device> {
    match b
    case SpeakerBlock => SPEAKERS
    case HeadphoneBlock => HEADPHONES
    case MicBlock => MICS
    case HeadsetMicBlock => HEADSET_MICS
  }

  /** The speaker block of the aic326x has two parts with devices of their own. */
  datatype Part = Loudspeaker | Earpiece

  function PartDevices(p: Part): set<Device> {
    if p.Loudspeaker? then LOUDSPEAKERS else {OUT_EARPIECE}
  }

  /** Path: its block switches it on and off. Level: its block sets it when on and
      never resets it. Gated: a part of the speaker block with devices of its own.
      Shared: written by both microphone blocks. Input: which microphone is read. */
  datatype Kind =
    | Path(block: Block, on: int, off: int)
    | Level(block: Block, on: int)
    | Gated(part: Part, on: int, off: int)
    | Shared | Input | CallMode | Untouched

  function KindOf(card: Card, c: Control): Kind {
    match c
    case HeadphoneJackSwitch => Path(HeadphoneBlock, 1, 0)
    case IntMicSwitch => Path(MicBlock, 1, 0)
    case MicJackSwitch => Path(HeadsetMicBlock, 1, 0)
    case CallModeSwitch => CallMode
    case IntSpkSwitch =>
      if card.WM8903? || card.MAX98095? then Path(SpeakerBlock, 1, 0)
      else if card.AIC326X? then Gated(Loudspeaker, 1, 0)
      else Untouched
    case Wm(wm) => if card.WM8903? then Wm8903(wm) else Untouched
    case Max(max) => if card.MAX98095? then Max98095(max) else Untouched
    case Aic(aic) => if card.AIC326X? then Aic326x(aic) else Untouched
    case Free(_) => Untouched
  }

  function Wm8903(c: WmControl): Kind {
    match c
    case LeftSpeakerMixerDacl | RightSpeakerMixerDacr => Path(SpeakerBlock, 1, 0)
    case LeftInputPgaCommonMode => Path(HeadsetMicBlock, 0, 1)
    case LeftCaptureMux => Path(HeadsetMicBlock, LEFT, LEFT)
    case RightCaptureMux => Path(HeadsetMicBlock, LEFT, RIGHT)
    case LeftAdcInput | RightAdcInput => Input
  }

  function Max98095(c: MaxControl): Kind {
    match c
    case LeftSpeakerMixerLeftDac1 | RightSpeakerMixerLeftDac1 => Path(SpeakerBlock, 1, 0)
    case LeftHeadphoneMixerLeftDac1 | RightHeadphoneMixerLeftDac1 => Path(HeadphoneBlock, 1, 0)
    case SpeakerVolume => Level(SpeakerBlock, 0x15)
    case HeadphoneVolume => Level(HeadphoneBlock, 0x1A)
  }

  function Aic326x(c: AicControl): Kind {
    match c
    case LolOutputMixerLdac | LorOutputMixerRdac => Path(SpeakerBlock, 1, 0)
    case SpklOutputMixerLolVolume | SpkrOutputMixerLorVolume => Gated(Loudspeaker, 10, 127)
    case RecOutputMixerLolVolume | RecOutputMixerLorVolume => Gated(Earpiece, 10, 127)
    case EarpieceSwitch => Gated(Earpiece, 1, 0)
    case HplOutputMixerLdac | HprOutputMixerRdac => Path(HeadphoneBlock, 1, 0)
    case LeftInputMixerIn2l | RightInputMixerIn2r | RightInputMixerCm1r => Path(MicBlock, 1, 0)
    case LeftInputMixerIn1l | MicBiasExtOn => Path(HeadsetMicBlock, 1, 0)
    case LeftInputMixerCm1l | MicBiasExtIndependent | InputCmMode => Shared
  }

  function OrElse(w: Option<int>, v: int): int {
    if w.Some? then w.value else v
  }

  /** Whether the new devices meet a mask, and whether the old ones did. */
  datatype Test = Test(now: bool, before: bool)

  function TestOf(mask: set<Device>, cur: set<Device>, dev: set<Device>): Test {
    Test(Meets(dev, mask), Meets(cur, mask))
  }

  /** What a block looks at: its own mask and the two parts. */
  datatype Tests = Tests(block: Test, loudspeaker: Test, earpiece: Test)

  function TestsOf(b: Block, cur: set<Device>, dev: set<Device>): Tests {
    Tests(TestOf(Mask(b), cur, dev),
          TestOf(PartDevices(Loudspeaker), cur, dev),
          TestOf(PartDevices(Earpiece), cur, dev))
  }

  /** On when the new devices meet the mask, off when only the old ones did. */
  function OnOff(t: Test, on: int, off: int): Option<int> {
    if t.now then Some(on) else if t.before then Some(off) else None
  }

  /** What block b writes to a control of kind k, if anything. */
  function Effect(k: Kind, b: Block, t: Tests): Option<int> {
    match k
    case Path(block, on, off) => if b == block then OnOff(t.block, on, off) else None
    case Level(block, on) => if b == block && t.block.now then Some(on) else None
    case Gated(part, on, off) =>
      var inner := if part.Loudspeaker? then t.loudspeaker else t.earpiece;
      if b != SpeakerBlock then None
      else if t.block.now then (if inner.now then Some(on) else None)
      else if t.block.before && inner.before then Some(off) else None
    case Shared => if b == MicBlock || b == HeadsetMicBlock then OnOff(t.block, 1, 0) else None
    case Input =>
      if b == MicBlock && t.block.now then Some(DMIC)
      else if b == HeadsetMicBlock && t.block.now then Some(ADC) else None
    case _ => None
  }

  /** The value of a control of kind k after block b has run. */
  function Turn(k: Kind, v: int, b: Block, cur: set<Device>, dev: set<Device>): int {
    OrElse(Effect(k, b, TestsOf(b, cur, dev)), v)
  }

  /** What a block of each card writes, for the proof of the code's own form. */
  function Plan(card: Card, b: Block, t: Tests): map<Control, int> {
    if !t.block.now && !t.block.before then map[]
    else
      var v := if t.block.now then 1 else 0;
      match b
      case SpeakerBlock => SpeakerPlan(card, v, t)
      case HeadphoneBlock => HeadphonePlan(card, v)
      case MicBlock => MicPlan(card, v)
      case HeadsetMicBlock => HeadsetMicPlan(card, v)
  }

  function SpeakerPlan(card: Card, v: int, t: Tests): map<Control, int> {
    match card
    case WM8903 => map[Wm(LeftSpeakerMixerDacl) := v, Wm(RightSpeakerMixerDacr) := v, IntSpkSwitch := v]
    case MAX98095 =>
      var paths := map[Max(LeftSpeakerMixerLeftDac1) := v, Max(RightSpeakerMixerLeftDac1) := v];
      (if v == 1 then paths[Max(SpeakerVolume) := 0x15] else paths)[IntSpkSwitch := v]
    case AIC326X =>
      var volume := if v == 1 then 10 else 127;
      var loudspeaker := if v == 1 then t.loudspeaker.now else t.loudspeaker.before;
      var earpiece := if v == 1 then t.earpiece.now else t.earpiece.before;
      var paths := map[Aic(LolOutputMixerLdac) := v, Aic(LorOutputMixerRdac) := v];
      var first :=
        if loudspeaker then
          paths[Aic(SpklOutputMixerLolVolume) := volume][Aic(SpkrOutputMixerLorVolume) := volume][IntSpkSwitch := v]
        else paths;
      if earpiece then
        first[Aic(RecOutputMixerLolVolume) := volume][Aic(RecOutputMixerLorVolume) := volume][Aic(EarpieceSwitch) := v]
      else first
    case _ => map[]
  }

  function HeadphonePlan(card: Card, v: int): map<Control, int> {
    var first :=
      match card
      case MAX98095 =>
        var paths := map[Max(LeftHeadphoneMixerLeftDac1) := v, Max(RightHeadphoneMixerLeftDac1) := v];
        if v == 1 then paths[Max(HeadphoneVolume) := 0x1A] else paths
      case AIC326X => map[Aic(HplOutputMixerLdac) := v, Aic(HprOutputMixerRdac) := v]
      case _ => map[];
    first[HeadphoneJackSwitch := v]
  }

  function MicPlan(card: Card, v: int): map<Control, int> {
    var first :=
      match card
      case WM8903 => if v == 1 then map[Wm(LeftAdcInput) := DMIC, Wm(RightAdcInput) := DMIC] else map[]
      case AIC326X =>
        map[Aic(LeftInputMixerIn2l) := v, Aic(RightInputMixerIn2r) := v,
            Aic(LeftInputMixerCm1l) := v, Aic(RightInputMixerCm1r) := v,
                          Aic(MicBiasExtIndependent) := v, Aic(InputCmMode) := v]
      case _ => map[];
    first[IntMicSwitch := v]
  }

  function HeadsetMicPlan(card: Card, v: int): map<Control, int> {
    var first :=
      match card
      case WM8903 =>
        if v == 1 then
          map[Wm(LeftInputPgaCommonMode) := 0, Wm(LeftCaptureMux) := LEFT, Wm(RightCaptureMux) := LEFT,
              Wm(LeftAdcInput) := ADC, Wm(RightAdcInput) := ADC]
        else map[Wm(LeftInputPgaCommonMode) := 1, Wm(LeftCaptureMux) := LEFT, Wm(RightCaptureMux) := RIGHT]
      case AIC326X =>
        map[Aic(LeftInputMixerIn1l) := v, Aic(LeftInputMixerCm1l) := v, Aic(MicBiasExtOn) := v,
            Aic(MicBiasExtIndependent) := v, Aic(InputCmMode) := v]
      case _ => map[];
    first[MicJackSwitch := v]
  }

  /** The plan of a block writes just what the kinds of the controls say. */
  lemma PlanIsEffect(card: Card, b: Block, t: Tests, c: Control)
    ensures Effect(KindOf(card, c), b, t) == if c in Plan(card, b, t) then Some(Plan(card, b, t)[c]) else None
  {
    match b {
      case SpeakerBlock => SpeakerPlanIsEffect(card, t, c);
      case HeadphoneBlock => HeadphonePlanIsEffect(card, t, c);
      case MicBlock => MicPlanIsEffect(card, t, c);
      case HeadsetMicBlock => HeadsetMicPlanIsEffect(card, t, c);
    }
  }

  lemma SpeakerPlanIsEffect(card: Card, t: Tests, c: Control)
    ensures
      var p := Plan(card, SpeakerBlock, t);
      Effect(KindOf(card, c), SpeakerBlock, t) == if c in p then Some(p[c]) else None
  {
  }

  lemma HeadphonePlanIsEffect(card: Card, t: Tests, c: Control)
    ensures
      var p := Plan(card, HeadphoneBlock, t);
      Effect(KindOf(card, c), HeadphoneBlock, t) == if c in p then Some(p[c]) else None
  {
  }

  lemma MicPlanIsEffect(card: Card, t: Tests, c: Control)
    ensures
      var p := Plan(card, MicBlock, t);
      Effect(KindOf(card, c), MicBlock, t) == if c in p then Some(p[c]) else None
  {
  }

  lemma HeadsetMicPlanIsEffect(card: Card, t: Tests, c: Control)
    ensures
      var p := Plan(card, HeadsetMicBlock, t);
      Effect(KindOf(card, c), HeadsetMicBlock, t) == if c in p then Some(p[c]) else None
  {
  }

  /** A playback handle runs the first two blocks, a capture handle the others. */
  function NextValue(k: Kind, playback: bool, v: int, cur: set<Device>, dev: set<Device>): int {
    if playback then Turn(k, Turn(k, v, SpeakerBlock, cur, dev), HeadphoneBlock, cur, dev)
    else Turn(k, Turn(k, v, MicBlock, cur, dev), HeadsetMicBlock, cur, dev)
  }

  function CallValue(v: int, cur: Mode, mode: Mode): int {
    if cur == mode then v else if mode.IN_CALL? then 1 else if cur.IN_CALL? then 0 else v
  }

  datatype Routing = Routing(curDev: set<Device>, curMode: Mode, mixer: map<Control, int>)

  function RoutedValue(card: Card, playback: bool, c: Control, v: int, r: Routing, dev: set<Device>, mode: Mode): int {
    var k := KindOf(card, c);
    if k.CallMode? then CallValue(v, r.curMode, mode)
    else if r.curDev == dev then v
    else NextValue(k, playback, v, r.curDev, dev)
  }

  function Side(playback: bool): set<Device> {
    if playback then OUT_ALL else IN_ALL
  }

  /** A route of a handle that is not for voice calls, on the controls the card
      has, the free ones aside. */
  function Routed(card: Card, playback: bool, r: Routing, devices: set<Device>, mode: Mode): Routing {
    var dev := devices * Side(playback);
    if (r.curDev == dev && r.curMode == mode) || dev == {} then r
    else Routing(dev, mode, map c | c in r.mixer :: RoutedValue(card, playback, c, r.mixer[c], r, dev, mode))
  }

  datatype Call = Call(devices: set<Device>, mode: Mode)

  function RouteAll(card: Card, playback: bool, r: Routing, calls: seq<Call>): Routing
    decreases |calls|
  {
    if calls == [] then r
    else RouteAll(card, playback, Routed(card, playback, r, calls[0].devices, calls[0].mode), calls[1..])
  }

  // ----- the controls reflect the devices -----

  /** The block belongs to this direction. */
  predicate Faces(b: Block, playback: bool) {
    b.SpeakerBlock? || b.HeadphoneBlock? <==> playback
  }

  /** What a control should be, from the current devices and mode alone. */
  predicate ReflectsAt(k: Kind, playback: bool, v: int, curDev: set<Device>, curMode: Mode) {
    match k
    case Path(b, on, off) => Faces(b, playback) ==> v == if Meets(curDev, Mask(b)) then on else off
    case Level(b, on) => Faces(b, playback) && Meets(curDev, Mask(b)) ==> v == on
    case Input =>
      !playback ==>
        && (Meets(curDev, HEADSET_MICS) ==> v == ADC)
        && (Meets(curDev, MICS) && !Meets(curDev, HEADSET_MICS) ==> v == DMIC)
    case CallMode => v == if curMode.IN_CALL? then 1 else 0
    case _ => true
  }

  /** A route that sets a control of this kind to what it should be. */
  predicate Fixes(k: Kind, r: Routing, t: Routing) {
    match k
    case Path(b, _, _) => Decides(b, r.curDev, t.curDev)
    case Level(_, _) | Input => r.curDev != t.curDev
    case CallMode => r.curMode != t.curMode && (r.curMode.IN_CALL? || t.curMode.IN_CALL?)
    case _ => false
  }

  /** A move that makes the block write its paths. */
  predicate Decides(b: Block, cur: set<Device>, dev: set<Device>) {
    cur != dev && (Meets(dev, Mask(b)) || Meets(cur, Mask(b)))
  }

  predicate EverFixed(card: Card, playback: bool, r: Routing, calls: seq<Call>, k: Kind)
    decreases |calls|
  {
    calls != [] &&
    var t := Routed(card, playback, r, calls[0].devices, calls[0].mode);
    Fixes(k, r, t) || EverFixed(card, playback, t, calls[1..], k)
  }

  /** For one control, when the devices change. */
  lemma NextReflects(k: Kind, playback: bool, v: int, r: Routing, t: Routing)
    requires !k.CallMode? && r.curDev != t.curDev
    ensures
      ReflectsAt(k, playback, NextValue(k, playback, v, r.curDev, t.curDev), t.curDev, t.curMode) <==>
        ReflectsAt(k, playback, v, r.curDev, r.curMode) || Fixes(k, r, t)
  {
  }

  lemma RouteFixes(card: Card, playback: bool, r: Routing, call: Call, c: Control)
    requires c in r.mixer
    ensures
      var k, t := KindOf(card, c), Routed(card, playback, r, call.devices, call.mode);
      && c in t.mixer
      && (ReflectsAt(k, playback, t.mixer[c], t.curDev, t.curMode) <==>
            ReflectsAt(k, playback, r.mixer[c], r.curDev, r.curMode) || Fixes(k, r, t))
  {
    hide KindOf, NextValue;
    var k, t := KindOf(card, c), Routed(card, playback, r, call.devices, call.mode);
    if r.curDev != t.curDev && !k.CallMode? {
      NextReflects(k, playback, r.mixer[c], r, t);
    }
  }

  /** Whatever a control held at first, after any sequence of routes it is what the
      current devices and mode ask if and only if it was so before or some route of
      the sequence set it. */
  lemma {:induction false} ControlsReflectDevices(
    card: Card, playback: bool, r: Routing, calls: seq<Call>, c: Control)
    requires c in r.mixer
    ensures
      var k, t := KindOf(card, c), RouteAll(card, playback, r, calls);
      && c in t.mixer
      && (ReflectsAt(k, playback, t.mixer[c], t.curDev, t.curMode) <==>
            ReflectsAt(k, playback, r.mixer[c], r.curDev, r.curMode) || EverFixed(card, playback, r, calls, k))
    decreases |calls|
  {
    if calls != [] {
      RouteFixes(card, playback, r, calls[0], c);
      ControlsReflectDevices(
        card, playback, Routed(card, playback, r, calls[0].devices, calls[0].mode), calls[1..], c);
    }
  }

  /** The control is what the devices ask of its path. */
  predicate RightFor(k: Kind, v: int, devices: set<Device>)
    requires k.Path?
  {
    v == if Meets(devices, Mask(k.block)) then k.on else k.off
  }

  lemma RouteDecides(card: Card, playback: bool, r: Routing, call: Call, c: Control)
    requires c in r.mixer && KindOf(card, c).Path? && Faces(KindOf(card, c).block, playback)
    ensures
      var k, t := KindOf(card, c), Routed(card, playback, r, call.devices, call.mode);
      && c in t.mixer
      && (Decides(k.block, r.curDev, t.curDev) ==> RightFor(k, t.mixer[c], t.curDev))
      && (!Decides(k.block, r.curDev, t.curDev) ==>
            t.mixer[c] == r.mixer[c] && (RightFor(k, t.mixer[c], t.curDev) <==> RightFor(k, r.mixer[c], r.curDev)))
  {
  }

  /** In particular a path control is right after a run if and only if it was right
      before or some move of the run made its block write. */
  lemma PathIsRightOnceDecided(card: Card, playback: bool, r: Routing, calls: seq<Call>, c: Control)
    requires c in r.mixer && KindOf(card, c).Path? && Faces(KindOf(card, c).block, playback)
    ensures
      var k, t := KindOf(card, c), RouteAll(card, playback, r, calls);
      && c in t.mixer
      && (RightFor(k, t.mixer[c], t.curDev) <==>
            RightFor(k, r.mixer[c], r.curDev) || EverFixed(card, playback, r, calls, k))
  {
    ControlsReflectDevices(card, playback, r, calls, c);
  }

  /** The control was right at first or its block has written since. */
  predicate Settled(card: Card, playback: bool, r: Routing, calls: seq<Call>, c: Control)
    requires c in r.mixer && KindOf(card, c).Path?
  {
    RightFor(KindOf(card, c), r.mixer[c], r.curDev) || EverFixed(card, playback, r, calls, KindOf(card, c))
  }

  /** So settled controls do not depend on the history: equal final devices, equal
      settings, from whatever states the two histories started. */
  lemma HistoryDoesNotMatter(
    card: Card, playback: bool, r0: Routing, r1: Routing, calls0: seq<Call>, calls1: seq<Call>, c: Control)
    requires c in r0.mixer && c in r1.mixer && KindOf(card, c).Path? && Faces(KindOf(card, c).block, playback)
    requires Settled(card, playback, r0, calls0, c) && Settled(card, playback, r1, calls1, c)
    requires RouteAll(card, playback, r0, calls0).curDev == RouteAll(card, playback, r1, calls1).curDev
    ensures
      var a, b := RouteAll(card, playback, r0, calls0), RouteAll(card, playback, r1, calls1);
      c in a.mixer && c in b.mixer && a.mixer[c] == b.mixer[c]
  {
    PathIsRightOnceDecided(card, playback, r0, calls0, c);
    PathIsRightOnceDecided(card, playback, r1, calls1, c);
  }

  /** The switches this holds for, by name. */
  lemma PathSwitches(card: Card)
    ensures KindOf(card, HeadphoneJackSwitch) == Path(HeadphoneBlock, 1, 0)
    ensures KindOf(card, IntMicSwitch) == Path(MicBlock, 1, 0)
    ensures KindOf(card, MicJackSwitch) == Path(HeadsetMicBlock, 1, 0)
    ensures KindOf(card, IntSpkSwitch) == Path(SpeakerBlock, 1, 0) <==> card.WM8903? || card.MAX98095?
  {
  }

  // ----- where history does matter -----

  /** The controls both microphones share (aic326x) go wrong in exactly one kind of
      move: from a headset to a microphone without it. */
  lemma SharedIsLostFromHeadsetToMic(v: int, cur: set<Device>, dev: set<Device>)
    requires v == if Meets(cur, MICS) || Meets(cur, HEADSET_MICS) then 1 else 0
    ensures
      NextValue(Shared, false, v, cur, dev) == (if Meets(dev, MICS) || Meets(dev, HEADSET_MICS) then 1 else 0)
      <==> !(Meets(cur, HEADSET_MICS) && !Meets(dev, HEADSET_MICS) && Meets(dev, MICS))
  {
  }

  /** A control gated inside the speaker block (aic326x: loudspeaker, earpiece) is
      left on in exactly one kind of move: to another speaker device. */
  lemma GatedIsLeftOn(card: Card, c: Control, v: int, cur: set<Device>, dev: set<Device>)
    requires KindOf(card, c).Gated?
    requires var k := KindOf(card, c); v == if Meets(cur, PartDevices(k.part)) then k.on else k.off
    ensures
      var k := KindOf(card, c);
      NextValue(k, true, v, cur, dev) == (if Meets(dev, PartDevices(k.part)) then k.on else k.off)
      <==> !(Meets(cur, PartDevices(k.part)) && !Meets(dev, PartDevices(k.part)) && Meets(dev, SPEAKERS))
  {
    InnerIsSpeaker(card, c, cur);
    InnerIsSpeaker(card, c, dev);
  }

  lemma InnerIsSpeaker(card: Card, c: Control, dev: set<Device>)
    requires KindOf(card, c).Gated?
    ensures Meets(dev, PartDevices(KindOf(card, c).part)) ==> Meets(dev, SPEAKERS)
    ensures KindOf(card, c).on != KindOf(card, c).off
  {
    var inner := PartDevices(KindOf(card, c).part);
    assert inner == LOUDSPEAKERS || inner == {OUT_EARPIECE};
    if d :| d in dev && d in inner {
      assert d in SPEAKERS;
    }
  }

  /** What a shared or gated control should be. */
  function Wanted(k: Kind, dev: set<Device>): int
    requires k.Shared? || k.Gated?
  {
    if k.Shared? then if Meets(dev, MICS) || Meets(dev, HEADSET_MICS) then 1 else 0
    else if Meets(dev, PartDevices(k.part)) then k.on else k.off
  }

  /** The moves of the two lemmas above. */
  predicate Strands(k: Kind, cur: set<Device>, dev: set<Device>)
    requires k.Shared? || k.Gated?
  {
    if k.Shared? then Meets(cur, HEADSET_MICS) && !Meets(dev, HEADSET_MICS) && Meets(dev, MICS)
    else Meets(cur, PartDevices(k.part)) && !Meets(dev, PartDevices(k.part)) && Meets(dev, SPEAKERS)
  }

  predicate NeverStrands(card: Card, playback: bool, r: Routing, calls: seq<Call>, k: Kind)
    requires k.Shared? || k.Gated?
    decreases |calls|
  {
    calls == [] ||
    var t := Routed(card, playback, r, calls[0].devices, calls[0].mode);
    !Strands(k, r.curDev, t.curDev) && NeverStrands(card, playback, t, calls[1..], k)
  }

  /** Without such a move a whole run leaves these controls right as well. */
  lemma {:induction false} RunsThatNeverStrand(card: Card, playback: bool, r: Routing, calls: seq<Call>, c: Control)
    requires c in r.mixer && (KindOf(card, c).Shared? || KindOf(card, c).Gated?)
    requires KindOf(card, c).Gated? <==> playback
    requires r.mixer[c] == Wanted(KindOf(card, c), r.curDev) && NeverStrands(card, playback, r, calls, KindOf(card, c))
    ensures
      var t := RouteAll(card, playback, r, calls);
      c in t.mixer && t.mixer[c] == Wanted(KindOf(card, c), t.curDev)
    decreases |calls|
  {
    if calls != [] {
      var dev := calls[0].devices * Side(playback);
      if playback {
        GatedIsLeftOn(card, c, r.mixer[c], r.curDev, dev);
      } else {
        SharedIsLostFromHeadsetToMic(r.mixer[c], r.curDev, dev);
      }
      RunsThatNeverStrand(card, playback, Routed(card, playback, r, calls[0].devices, calls[0].mode), calls[1..], c);
    }
  }

  /** A handle of the aic326x that has only the shared control. */
  function OnlyShared(curDev: set<Device>, v: int): Routing {
    Routing(curDev, NORMAL, map[Aic(InputCmMode) := v])
  }

  lemma RouteCommon(cur: set<Device>, v: int, dev: set<Device>)
    requires dev <= IN_ALL && dev != {} && cur != dev
    ensures Routed(AIC326X, false, OnlyShared(cur, v), dev, NORMAL) ==
            OnlyShared(dev, NextValue(Shared, false, v, cur, dev))
  {
    assert dev * IN_ALL == dev;
    var r, c := OnlyShared(cur, v), Aic(InputCmMode);
    assert RoutedValue(AIC326X, false, c, v, r, dev, NORMAL) == NextValue(KindOf(AIC326X, c), false, v, cur, dev);
    assert KindOf(AIC326X, c) == Shared;
  }

  /** Two histories, one final device set, different settings of a shared control. */
  lemma SharedDependsOnHistory()
    ensures
      var mic, headset := Call({IN_BUILTIN_MIC}, NORMAL), Call({IN_WIRED_HEADSET}, NORMAL);
      && RouteAll(AIC326X, false, OnlyShared({}, 0), [mic]) == OnlyShared({IN_BUILTIN_MIC}, 1)
      && RouteAll(AIC326X, false, OnlyShared({}, 0), [headset, mic]) == OnlyShared({IN_BUILTIN_MIC}, 0)
  {
    var mic, headset := {IN_BUILTIN_MIC}, {IN_WIRED_HEADSET};
    assert IN_BUILTIN_MIC in mic && IN_BUILTIN_MIC in MICS;
    assert IN_WIRED_HEADSET in headset && IN_WIRED_HEADSET in HEADSET_MICS;
    assert IN_BUILTIN_MIC !in headset;
    RouteCommon({}, 0, mic);
    RouteCommon({}, 0, headset);
    RouteCommon(headset, 1, mic);
    assert [Call(headset, NORMAL), Call(mic, NORMAL)][1..] == [Call(mic, NORMAL)];
    assert [Call(mic, NORMAL)][1..] == [];
    RouteOne(OnlyShared({}, 0), Call(mic, NORMAL));
    RouteOne(OnlyShared(headset, 1), Call(mic, NORMAL));
  }

  lemma RouteOne(r: Routing, c: Call)
    ensures RouteAll(AIC326X, false, r, [c]) == Routed(AIC326X, false, r, c.devices, c.mode)
  {
    assert [c][1..] == [];
  }

  // ----- voice-call handles -----

  /** A voice-call handle outside a call only notes the devices. */
  function RoutedOutsideCall(playback: bool, r: Routing, devices: set<Device>, mode: Mode): Routing {
    var dev := devices * Side(playback);
    if (r.curDev == dev && r.curMode == mode) || dev == {} then r else r.(curDev := dev)
  }

  predicate OutsideCall(cur: Mode, mode: Mode) {
    !cur.IN_CALL? && !mode.IN_CALL?
  }

  /** A route of a voice-call handle; `opens` says that its stream, should it have to
      be opened, can be. */
  datatype VoiceCall = VoiceCall(devices: set<Device>, mode: Mode, opens: bool)

  /** The devices this handle is asked to move to. */
  function Target(playback: bool, r: Routing, call: VoiceCall): set<Device> {
    var dev := call.devices * Side(playback);
    if dev == {} then r.curDev else dev
  }

  /** The stream cannot be opened for the call that begins. */
  predicate OpenIsLost(playback: bool, r: Routing, call: VoiceCall) {
    !call.opens && call.mode.IN_CALL? && !r.curMode.IN_CALL? && call.devices * Side(playback) != {}
  }

  /** A failed open comes after the switches have been set, and the handle keeps its
      old devices and mode. */
  function VoiceRouted(card: Card, playback: bool, r: Routing, call: VoiceCall): Routing {
    if OutsideCall(r.curMode, call.mode) then RoutedOutsideCall(playback, r, call.devices, call.mode)
    else if OpenIsLost(playback, r, call) then
      r.(mixer := Routed(card, playback, r, call.devices, call.mode).mixer)
    else Routed(card, playback, r, call.devices, call.mode)
  }

  function VoiceAll(card: Card, playback: bool, r: Routing, calls: seq<VoiceCall>): Routing
    decreases |calls|
  {
    if calls == [] then r else VoiceAll(card, playback, VoiceRouted(card, playback, r, calls[0]), calls[1..])
  }

  /** A move in, into or out of a call, completed or not, that makes block b write. */
  predicate Writes(playback: bool, r: Routing, call: VoiceCall, b: Block) {
    !OutsideCall(r.curMode, call.mode) && Decides(b, r.curDev, Target(playback, r, call))
  }

  /** The devices of the last such move, or m if there was none. */
  function LastDecided(
    card: Card, playback: bool, r: Routing, calls: seq<VoiceCall>, b: Block, m: set<Device>): set<Device>
    decreases |calls|
  {
    if calls == [] then m
    else
      LastDecided(card, playback, VoiceRouted(card, playback, r, calls[0]), calls[1..], b,
        if Writes(playback, r, calls[0], b) then Target(playback, r, calls[0]) else m)
  }

  lemma VoiceStep(card: Card, playback: bool, r: Routing, call: VoiceCall, c: Control, m: set<Device>)
    requires c in r.mixer && KindOf(card, c).Path? && Faces(KindOf(card, c).block, playback)
    requires RightFor(KindOf(card, c), r.mixer[c], m)
    ensures
      var k, t := KindOf(card, c), VoiceRouted(card, playback, r, call);
      && c in t.mixer
      && RightFor(k, t.mixer[c], if Writes(playback, r, call, k.block) then Target(playback, r, call) else m)
  {
    if !OutsideCall(r.curMode, call.mode) {
      RouteDecides(card, playback, r, Call(call.devices, call.mode), c);
    }
  }

  /** After any run of a voice-call handle, with streams that open and streams that
      do not, a path control is what the devices of that last move ask; so it is
      right if and only if they and the current ones agree on its path. */
  lemma {:induction false} VoiceControlIsLastDecided(
    card: Card, playback: bool, r: Routing, calls: seq<VoiceCall>, c: Control, m: set<Device>)
    requires c in r.mixer && KindOf(card, c).Path? && Faces(KindOf(card, c).block, playback)
    requires RightFor(KindOf(card, c), r.mixer[c], m)
    ensures
      var k, t := KindOf(card, c), VoiceAll(card, playback, r, calls);
      var last := LastDecided(card, playback, r, calls, k.block, m);
      && c in t.mixer && RightFor(k, t.mixer[c], last)
      && (k.on != k.off ==>
            (RightFor(k, t.mixer[c], t.curDev) <==> (Meets(last, Mask(k.block)) <==> Meets(t.curDev, Mask(k.block)))))
    decreases |calls|
  {
    if calls != [] {
      var k, t := KindOf(card, c), VoiceRouted(card, playback, r, calls[0]);
      VoiceStep(card, playback, r, calls[0], c, m);
      VoiceControlIsLastDecided(card, playback, t, calls[1..], c,
        if Writes(playback, r, calls[0], k.block) then Target(playback, r, calls[0]) else m);
    }
  }

  /** Calls outside a call touch no control. */
  lemma {:induction false} NotesTouchNothing(card: Card, playback: bool, r: Routing, notes: seq<VoiceCall>)
    requires !r.curMode.IN_CALL? && forall i :: 0 <= i < |notes| ==> !notes[i].mode.IN_CALL?
    ensures VoiceAll(card, playback, r, notes) == r.(curDev := VoiceAll(card, playback, r, notes).curDev)
    decreases |notes|
  {
    if notes != [] {
      NotesTouchNothing(card, playback, VoiceRouted(card, playback, r, notes[0]), notes[1..]);
    }
  }

  /** Entering a call whose stream opens, exactly: a path was right for m, other devices were noted
      outside calls, the last of them d, and the call is entered with dev. If dev is
      d nothing is written, and the path is right when m and dev agree on it.
      Otherwise it is wrong, and left on, only when m wanted it and neither d nor
      dev does. */
  lemma VoiceEntryIsRight(
    card: Card, playback: bool, r: Routing, notes: seq<VoiceCall>, devices: set<Device>, c: Control, m: set<Device>)
    requires c in r.mixer && KindOf(card, c).Path? && Faces(KindOf(card, c).block, playback)
    requires KindOf(card, c).on != KindOf(card, c).off && RightFor(KindOf(card, c), r.mixer[c], m)
    requires !r.curMode.IN_CALL? && forall i :: 0 <= i < |notes| ==> !notes[i].mode.IN_CALL?
    requires devices * Side(playback) != {}
    ensures
      var k, dev := KindOf(card, c), devices * Side(playback);
      var before := VoiceAll(card, playback, r, notes);
      var t := VoiceRouted(card, playback, before, VoiceCall(devices, IN_CALL, true));
      var d, M := before.curDev, Mask(k.block);
      && c in t.mixer && t.curDev == dev
      && (RightFor(k, t.mixer[c], dev) <==>
            if d == dev then (Meets(m, M) <==> Meets(dev, M)) else !(Meets(m, M) && !Meets(d, M) && !Meets(dev, M)))
  {
    NotesTouchNothing(card, playback, r, notes);
    RouteDecides(card, playback, VoiceAll(card, playback, r, notes), Call(devices, IN_CALL), c);
  }

  /** A voice-call handle of a device that has only the headphone jack switch. */
  function OnlyJack(curDev: set<Device>, mode: Mode, v: int): Routing {
    Routing(curDev, mode, map[HeadphoneJackSwitch := v])
  }

  lemma VoiceJack(cur: set<Device>, mode: Mode, v: int, call: VoiceCall)
    requires call.devices <= OUT_ALL && call.devices != {}
    ensures
      var r := OnlyJack(cur, mode, v);
      var w :=
        if Decides(HeadphoneBlock, cur, call.devices) then if Meets(call.devices, HEADPHONES) then 1 else 0 else v;
      VoiceRouted(WM8903, true, r, call) ==
        if OutsideCall(mode, call.mode) then OnlyJack(call.devices, mode, v)
        else if OpenIsLost(true, r, call) then OnlyJack(cur, mode, w)
        else OnlyJack(call.devices, call.mode, w)
  {
    assert call.devices * OUT_ALL == call.devices;
    var r := OnlyJack(cur, mode, v);
    assert HeadphoneJackSwitch in r.mixer;
    RouteDecides(WM8903, true, r, Call(call.devices, call.mode), HeadphoneJackSwitch);
  }

  /** The first route of a run, and the rest from where it leads. */
  lemma VoiceFirst(r: Routing, call: VoiceCall, rest: seq<VoiceCall>)
    ensures VoiceAll(WM8903, true, r, [call] + rest) == VoiceAll(WM8903, true, VoiceRouted(WM8903, true, r, call), rest)
  {
    assert ([call] + rest)[1..] == rest;
  }

  lemma VoiceLast(r: Routing, call: VoiceCall)
    ensures VoiceAll(WM8903, true, r, [call]) == VoiceRouted(WM8903, true, r, call)
  {
    assert [call] + [] == [call];
    VoiceFirst(r, call, []);
  }

  /** A path left off: the headset is noted outside a call, and entering the call
      with it turns nothing on. */
  lemma VoiceHandleMissesAPath()
    ensures
      var headset := {OUT_WIRED_HEADSET};
      VoiceAll(WM8903, true, OnlyJack({}, NORMAL, 0),
        [VoiceCall(headset, NORMAL, true)] + [VoiceCall(headset, IN_CALL, true)])
      == OnlyJack(headset, IN_CALL, 0)
  {
    var headset := {OUT_WIRED_HEADSET};
    VoiceJack({}, NORMAL, 0, VoiceCall(headset, NORMAL, true));
    VoiceJack(headset, NORMAL, 0, VoiceCall(headset, IN_CALL, true));
    VoiceLast(OnlyJack(headset, NORMAL, 0), VoiceCall(headset, IN_CALL, true));
    VoiceFirst(OnlyJack({}, NORMAL, 0), VoiceCall(headset, NORMAL, true), [VoiceCall(headset, IN_CALL, true)]);
  }

  /** A path left on: a call with the headset, then the speaker noted outside a
      call, then a call with the earpiece, and the headphone jack is still on. */
  lemma VoiceHandleLeavesAPath()
    ensures
      var headset, speaker, earpiece := {OUT_WIRED_HEADSET}, {OUT_SPEAKER}, {OUT_EARPIECE};
      VoiceAll(WM8903, true, OnlyJack({}, NORMAL, 0),
        [VoiceCall(headset, IN_CALL, true)] + ([VoiceCall(headset, NORMAL, true)]
          + ([VoiceCall(speaker, NORMAL, true)] + [VoiceCall(earpiece, IN_CALL, true)])))
      == OnlyJack(earpiece, IN_CALL, 1)
  {
    var headset, speaker, earpiece := {OUT_WIRED_HEADSET}, {OUT_SPEAKER}, {OUT_EARPIECE};
    assert OUT_WIRED_HEADSET in headset && OUT_WIRED_HEADSET in HEADPHONES;
    var c1, c2 := VoiceCall(headset, IN_CALL, true), VoiceCall(headset, NORMAL, true);
    var c3, c4 := VoiceCall(speaker, NORMAL, true), VoiceCall(earpiece, IN_CALL, true);
    VoiceJack({}, NORMAL, 0, c1);
    VoiceJack(headset, IN_CALL, 1, c2);
    VoiceJack(headset, NORMAL, 1, c3);
    assert OUT_SPEAKER in speaker && OUT_SPEAKER !in earpiece && OUT_SPEAKER !in headset;
    VoiceJack(speaker, NORMAL, 1, c4);
    VoiceLast(OnlyJack(speaker, NORMAL, 1), c4);
    VoiceFirst(OnlyJack(headset, NORMAL, 1), c3, [c4]);
    VoiceFirst(OnlyJack(headset, IN_CALL, 1), c2, [c3] + [c4]);
    VoiceFirst(OnlyJack({}, NORMAL, 0), c1, [c2] + ([c3] + [c4]));
  }

  /** A path left off by a failed open: after a call with the headset, a call with
      the speaker whose stream does not open, and then one with the headset again. */
  lemma FailedOpenMissesAPath()
    ensures
      var headset, speaker := {OUT_WIRED_HEADSET}, {OUT_SPEAKER};
      VoiceAll(WM8903, true, OnlyJack({}, NORMAL, 0),
        [VoiceCall(headset, IN_CALL, true)] + ([VoiceCall(headset, NORMAL, true)]
          + ([VoiceCall(speaker, IN_CALL, false)] + [VoiceCall(headset, IN_CALL, true)])))
      == OnlyJack(headset, IN_CALL, 0)
  {
    var headset, speaker := {OUT_WIRED_HEADSET}, {OUT_SPEAKER};
    assert OUT_WIRED_HEADSET in headset && OUT_WIRED_HEADSET in HEADPHONES && OUT_WIRED_HEADSET !in speaker;
    var c1, c2 := VoiceCall(headset, IN_CALL, true), VoiceCall(headset, NORMAL, true);
    var c3, c4 := VoiceCall(speaker, IN_CALL, false), VoiceCall(headset, IN_CALL, true);
    VoiceJack({}, NORMAL, 0, c1);
    VoiceJack(headset, IN_CALL, 1, c2);
    VoiceJack(headset, NORMAL, 1, c3);
    VoiceJack(headset, NORMAL, 0, c4);
    VoiceLast(OnlyJack(headset, NORMAL, 0), c4);
    VoiceFirst(OnlyJack(headset, NORMAL, 1), c3, [c4]);
    VoiceFirst(OnlyJack(headset, IN_CALL, 1), c2, [c3] + [c4]);
    VoiceFirst(OnlyJack({}, NORMAL, 0), c1, [c2] + ([c3] + [c4]));
  }

  // ----- the code's own form -----

  function TurnAll(card: Card, m: map<Control, int>, b: Block, cur: set<Device>, dev: set<Device>): map<Control, int> {
    map c | c in m :: Turn(KindOf(card, c), m[c], b, cur, dev)
  }

  /** The settings m with those of w that m has written over it. */
  function Overlay(m: map<Control, int>, w: map<Control, int>): map<Control, int> {
    map c | c in m :: if c in w then w[c] else m[c]
  }

  lemma OverlayMore(m: map<Control, int>, w: map<Control, int>, c: Control, v: int)
    ensures Overlay(m, w[c := v]) == if c in m then Overlay(m, w)[c := v] else Overlay(m, w)
  {
  }

  lemma OverlayPlan(card: Card, m: map<Control, int>, b: Block, cur: set<Device>, dev: set<Device>)
    ensures Overlay(m, Plan(card, b, TestsOf(b, cur, dev))) == TurnAll(card, m, b, cur, dev)
  {
    forall c | c in m ensures Overlay(m, Plan(card, b, TestsOf(b, cur, dev)))[c] == TurnAll(card, m, b, cur, dev)[c] {
      PlanIsEffect(card, b, TestsOf(b, cur, dev), c);
    }
  }

  class AlsaDev {
    const card: Card
    const playback: bool
    const isVoiceCallDevice: bool
    var curDev: set<Device>
    var curMode: Mode
    var hpcm: bool
    var isMicMute: bool
    var volume: int
    /** The controls the card has, and their settings. */
    var mixer: map<Control, int>
    /** For the proof: the settings before a block, and what it has written. */
    ghost var before: map<Control, int>
    ghost var written: map<Control, int>

    /** The controls that are not free, with their settings. */
    ghost function Named(): map<Control, int>
      reads this`mixer
    {
      map c | c in mixer && !c.Free? :: mixer[c]
    }

    ghost function State(): Routing
      reads this
    {
      Routing(curDev, curMode, Named())
    }

    constructor (card: Card, playback: bool, voice: bool, mixer: map<Control, int>)
      ensures this.card == card && this.playback == playback && isVoiceCallDevice == voice
      ensures this.mixer == mixer && curDev == {} && curMode == NORMAL && !hpcm
    {
      this.card, this.playback, isVoiceCallDevice, this.mixer := card, playback, voice, mixer;
      curDev, curMode, hpcm, isMicMute, volume := {}, NORMAL, false, false, 0;
      before, written := map[], map[];
    }

    /** Setting a control that the card lacks fails and changes nothing. */
    method Set(c: Control, v: int) returns (err: int)
      modifies this`mixer
      ensures mixer == if c in old(mixer) then old(mixer)[c := v] else old(mixer)
      ensures err == if c in old(mixer) then 0 else -1
    {
      if c in mixer {
        mixer := mixer[c := v];
        err := 0;
      } else {
        err := -1;
      }
    }

    /** Block b has run on the settings `before`. */
    ghost predicate Turned(before: map<Control, int>, b: Block, dev: set<Device>)
      reads this`mixer, this`curDev
    {
      Named() == TurnAll(card, before, b, curDev, dev)
    }

    /** A block is running: the settings are the old ones but for what it wrote. */
    ghost predicate Running()
      reads this`mixer, this`before, this`written
    {
      Named() == Overlay(before, written)
    }

    method Put(c: Control, v: int) returns (err: int)
      requires Running() && !c.Free?
      modifies this`mixer, this`written
      ensures Running() && written == old(written)[c := v]
      ensures mixer.Keys == old(mixer.Keys) && err == if c in mixer then 0 else -1
    {
      OverlayMore(before, written, c, v);
      assert Named().Keys == before.Keys;
      err := Set(c, v);
      written := written[c := v];
    }

    method PutFree(c: Control, v: int) returns (err: int)
      requires c.Free?
      modifies this`mixer
      ensures mixer.Keys == old(mixer.Keys) && Named() == old(Named())
    {
      err := Set(c, v);
    }

    lemma Begin()
      requires before == Named() && written == map[]
      ensures Running()
    {
      assert Overlay(before, written) == before;
    }

    lemma Finish(b: Block, dev: set<Device>)
      requires Running() && written == Plan(card, b, TestsOf(b, curDev, dev))
      ensures Turned(before, b, dev)
    {
      OverlayPlan(card, before, b, curDev, dev);
    }

    method SpeakersWm8903(v: int)
      requires card == WM8903 && Running() && written == map[]
      modifies this`mixer, this`written
      ensures mixer.Keys == old(mixer.Keys) && Running()
      ensures forall t :: written == SpeakerPlan(card, v, t)
    {
      var _ := Put(Wm(LeftSpeakerMixerDacl), v);
      var _ := Put(Wm(RightSpeakerMixerDacr), v);
      var _ := Put(IntSpkSwitch, v);
    }

    method SpeakersMax98095(v: int)
      requires card == MAX98095 && Running() && written == map[]
      modifies this`mixer, this`written
      ensures mixer.Keys == old(mixer.Keys) && Running()
      ensures forall t :: written == SpeakerPlan(card, v, t)
    {
      var _ := Put(Max(LeftSpeakerMixerLeftDac1), v);
      var _ := Put(Max(RightSpeakerMixerLeftDac1), v);
      if v == 1 {
        var _ := Put(Max(SpeakerVolume), 0x15);
      }
      var _ := Put(IntSpkSwitch, v);
    }

    /** `these` are the devices that decide the two parts. */
    method SpeakersAic326x(v: int, these: set<Device>, ghost t: Tests)
      requires card == AIC326X && Running() && written == map[]
      requires Meets(these, LOUDSPEAKERS) == (if v == 1 then t.loudspeaker.now else t.loudspeaker.before)
      requires Meets(these, {OUT_EARPIECE}) == (if v == 1 then t.earpiece.now else t.earpiece.before)
      modifies this`mixer, this`written
      ensures mixer.Keys == old(mixer.Keys) && Running() && written == SpeakerPlan(card, v, t)
    {
      var volume := if v == 1 then 10 else 127;
      var _ := Put(Aic(LolOutputMixerLdac), v);
      var _ := Put(Aic(LorOutputMixerRdac), v);
      if Meets(these, LOUDSPEAKERS) {
        var _ := Put(Aic(SpklOutputMixerLolVolume), volume);
        var _ := Put(Aic(SpkrOutputMixerLorVolume), volume);
        var _ := Put(IntSpkSwitch, v);
      }
      if Meets(these, {OUT_EARPIECE}) {
        var _ := Put(Aic(RecOutputMixerLolVolume), volume);
        var _ := Put(Aic(RecOutputMixerLorVolume), volume);
        var _ := Put(Aic(EarpieceSwitch), v);
      }
    }

    /** The speaker paths of each card, switched on for v == 1 and off for v == 0. */
    method Speakers(v: int, these: set<Device>, ghost t: Tests)
      requires Running() && written == map[]
      requires Meets(these, LOUDSPEAKERS) == (if v == 1 then t.loudspeaker.now else t.loudspeaker.before)
      requires Meets(these, {OUT_EARPIECE}) == (if v == 1 then t.earpiece.now else t.earpiece.before)
      modifies this`mixer, this`written
      ensures mixer.Keys == old(mixer.Keys) && Running() && written == SpeakerPlan(card, v, t)
    {
      if card == WM8903 {
        SpeakersWm8903(v);
      } else if card == MAX98095 {
        SpeakersMax98095(v);
      } else if card == AIC326X {
        SpeakersAic326x(v, these, t);
      }
    }

    method RouteSpeakers(dev: set<Device>)
      modifies this`mixer, this`before, this`written
      ensures mixer.Keys == old(mixer.Keys) && Turned(old(Named()), SpeakerBlock, dev)
    {
      before, written := Named(), map[];
      Begin();
      ghost var t := TestsOf(SpeakerBlock, curDev, dev);
      if Meets(dev, SPEAKERS) {
        Speakers(1, dev, t);
      } else if Meets(curDev, SPEAKERS) {
        Speakers(0, curDev, t);
      }
      Finish(SpeakerBlock, dev);
    }

    method Headphones(v: int)
      requires Running() && written == map[]
      modifies this`mixer, this`written
      ensures mixer.Keys == old(mixer.Keys) && Running() && written == HeadphonePlan(card, v)
    {
      if card == WM8903 {
        var _ := PutFree(Free(HeadphoneSwitch), v);
      } else if card == MAX98095 {
        var _ := Put(Max(LeftHeadphoneMixerLeftDac1), v);
        var _ := Put(Max(RightHeadphoneMixerLeftDac1), v);
        if v == 1 {
          var _ := Put(Max(HeadphoneVolume), 0x1A);
        }
      } else if card == AIC326X {
        var _ := Put(Aic(HplOutputMixerLdac), v);
        var _ := Put(Aic(HprOutputMixerRdac), v);
      }
      var _ := Put(HeadphoneJackSwitch, v);
    }

    method RouteHeadphones(dev: set<Device>)
      modifies this`mixer, this`before, this`written
      ensures mixer.Keys == old(mixer.Keys) && Turned(old(Named()), HeadphoneBlock, dev)
    {
      before, written := Named(), map[];
      Begin();
      if Meets(dev, HEADPHONES) {
        Headphones(1);
      } else if Meets(curDev, HEADPHONES) {
        Headphones(0);
      }
      Finish(HeadphoneBlock, dev);
    }

    /** The digital microphone, with another control for cards that lack one. The
        error reported is that of the control that failed all the same. */
    method MicsOn() returns (err: int)
      requires Running() && written == map[]
      modifies this`mixer, this`written
      ensures mixer.Keys == old(mixer.Keys) && Running() && written == MicPlan(card, 1)
      ensures err == if card.WM8903? && Wm(RightAdcInput) !in mixer then -1 else 0
    {
      err := 0;
      if card == WM8903 {
        var _ := PutFree(Free(DigitalCaptureVolume), 0x7F);
        var _ := Put(Wm(LeftAdcInput), DMIC);
        err := Put(Wm(RightAdcInput), DMIC);
        if err < 0 {
          var _ := PutFree(Free(AdcInput), DMIC);
        }
      } else if card == AIC326X {
        MicsAic326x(1);
      }
      var _ := Put(IntMicSwitch, 1);
    }

    method MicsAic326x(v: int)
      requires Running() && written == map[]
      modifies this`mixer, this`written
      ensures mixer.Keys == old(mixer.Keys) && Running()
      ensures written == map[Aic(LeftInputMixerIn2l) := v, Aic(RightInputMixerIn2r) := v,
                             Aic(LeftInputMixerCm1l) := v, Aic(RightInputMixerCm1r) := v,
                             Aic(MicBiasExtIndependent) := v, Aic(InputCmMode) := v]
    {
      var _ := Put(Aic(LeftInputMixerIn2l), v);
      var _ := Put(Aic(RightInputMixerIn2r), v);
      var _ := Put(Aic(LeftInputMixerCm1l), v);
      var _ := Put(Aic(RightInputMixerCm1r), v);
      var _ := Put(Aic(MicBiasExtIndependent), v);
      var _ := Put(Aic(InputCmMode), v);
    }

    method RouteMics(dev: set<Device>) returns (err: int)
      modifies this`mixer, this`before, this`written
      ensures mixer.Keys == old(mixer.Keys) && Turned(old(Named()), MicBlock, dev)
      ensures err == if Meets(dev, MICS) && card.WM8903? && Wm(RightAdcInput) !in mixer then -1 else 0
    {
      err := 0;
      before, written := Named(), map[];
      Begin();
      if Meets(dev, MICS) {
        err := MicsOn();
      } else if Meets(curDev, MICS) {
        if card == AIC326X {
          MicsAic326x(0);
        }
        var _ := Put(IntMicSwitch, 0);
      }
      Finish(MicBlock, dev);
    }

    method HeadsetMicOn(err0: int) returns (err: int)
      requires Running() && written == map[]
      modifies this`mixer, this`written
      ensures mixer.Keys == old(mixer.Keys) && Running() && written == HeadsetMicPlan(card, 1)
      ensures err == if card.WM8903? then if Wm(RightAdcInput) in mixer then 0 else -1 else err0
    {
      err := err0;
      if card == WM8903 {
        var _ := Put(Wm(LeftInputPgaCommonMode), 0);
        var _ := Put(Wm(LeftCaptureMux), LEFT);
        var _ := Put(Wm(RightCaptureMux), LEFT);
        var _ := PutFree(Free(LeftInputPgaSwitch), 1);
        var _ := Put(Wm(LeftAdcInput), ADC);
        err := Put(Wm(RightAdcInput), ADC);
        if err < 0 {
          var _ := PutFree(Free(AdcInput), ADC);
        }
      } else if card == AIC326X {
        HeadsetMicAic326x(1);
      }
      var _ := Put(MicJackSwitch, 1);
    }

    method HeadsetMicOff()
      requires Running() && written == map[]
      modifies this`mixer, this`written
      ensures mixer.Keys == old(mixer.Keys) && Running() && written == HeadsetMicPlan(card, 0)
    {
      if card == WM8903 {
        var _ := Put(Wm(LeftInputPgaCommonMode), 1);
        var _ := Put(Wm(LeftCaptureMux), LEFT);
        var _ := Put(Wm(RightCaptureMux), RIGHT);
        var _ := PutFree(Free(LeftInputPgaSwitch), 0);
      } else if card == AIC326X {
        HeadsetMicAic326x(0);
      }
      var _ := Put(MicJackSwitch, 0);
    }

    method HeadsetMicAic326x(v: int)
      requires Running() && written == map[]
      modifies this`mixer, this`written
      ensures mixer.Keys == old(mixer.Keys) && Running()
      ensures written == map[Aic(LeftInputMixerIn1l) := v, Aic(LeftInputMixerCm1l) := v, Aic(MicBiasExtOn) := v,
                             Aic(MicBiasExtIndependent) := v, Aic(InputCmMode) := v]
    {
      var _ := Put(Aic(LeftInputMixerIn1l), v);
      var _ := Put(Aic(LeftInputMixerCm1l), v);
      var _ := Put(Aic(MicBiasExtOn), v);
      var _ := Put(Aic(MicBiasExtIndependent), v);
      var _ := Put(Aic(InputCmMode), v);
    }

    method RouteHeadsetMic(dev: set<Device>, err0: int) returns (err: int)
      modifies this`mixer, this`before, this`written
      ensures mixer.Keys == old(mixer.Keys) && Turned(old(Named()), HeadsetMicBlock, dev)
      ensures err ==
              if !Meets(dev, HEADSET_MICS) || !card.WM8903? then err0
              else if Wm(RightAdcInput) in mixer then 0 else -1
    {
      err := err0;
      before, written := Named(), map[];
      Begin();
      if Meets(dev, HEADSET_MICS) {
        err := HeadsetMicOn(err0);
      } else if Meets(curDev, HEADSET_MICS) {
        HeadsetMicOff();
      }
      Finish(HeadsetMicBlock, dev);
    }

    /** The muting of a routed microphone. */
    method Mute(dev: set<Device>)
      modifies this`mixer, this`volume
      ensures mixer.Keys == old(mixer.Keys) && Named() == old(Named())
    {
      if card == AIC326X {
        return;
      }
      if IN_WIRED_HEADSET in dev {
        var _ := PutFree(Free(LeftInputPgaSwitch), 0);
      } else if Meets(dev, MICS) {
        if Free(DigitalCaptureVolume) in mixer {
          volume := mixer[Free(DigitalCaptureVolume)];
          var _ := PutFree(Free(DigitalCaptureVolume), 0);
        }
      }
    }

    /** A capture route fails just where the wm8903 lacks the right ADC input. */
    predicate LacksInput(dev: set<Device>)
      reads this
    {
      !playback && card.WM8903? && Wm(RightAdcInput) !in mixer && (Meets(dev, MICS) || Meets(dev, HEADSET_MICS))
    }

    method RouteSwitches(dev: set<Device>) returns (err: int)
      modifies this`mixer, this`volume, this`before, this`written
      ensures mixer.Keys == old(mixer.Keys)
      ensures Named() == map c | c in old(Named()) :: NextValue(KindOf(card, c), playback, old(Named())[c], curDev, dev)
      ensures err == if LacksInput(dev) then -1 else 0
    {
      err := 0;
      if playback {
        RouteSpeakers(dev);
        RouteHeadphones(dev);
      } else {
        err := RouteMics(dev);
        err := RouteHeadsetMic(dev, err);
        if isMicMute {
          Mute(dev);
        }
      }
    }

    /** The call switch, and the stream of a voice-call handle: `opens` answers for
        its opening. */
    method RouteMode(mode: Mode, opens: bool, err0: int) returns (ok: bool, err: int)
      requires curMode != mode
      modifies this`mixer, this`hpcm
      ensures mixer.Keys == old(mixer.Keys) && Named() == WithCallMode(old(Named()), curMode, mode)
      ensures ok <==> !(isVoiceCallDevice && mode.IN_CALL? && !old(hpcm) && !opens)
      ensures err == if !ok then -1 else if isVoiceCallDevice && mode.IN_CALL? && !old(hpcm) then 0 else err0
    {
      ok, err := true, err0;
      if mode == IN_CALL {
        var _ := Set(CallModeSwitch, 1);
        if isVoiceCallDevice && !hpcm {
          if !opens {
            return false, -1;
          }
          err := 0;
          hpcm := true;
          if OUT_SPEAKER in curDev && card == WM8903 {
            var _ := PutFree(Free(HeadphoneSwitch), 0);
          }
        }
      } else if curMode == IN_CALL {
        var _ := Set(CallModeSwitch, 0);
        if isVoiceCallDevice && hpcm {
          hpcm := false;
        }
      }
    }

    /** The stream of a voice-call handle has to be opened and cannot be. */
    predicate OpenFails(devices: set<Device>, mode: Mode, opens: bool)
      reads this
    {
      isVoiceCallDevice && curMode != mode && mode.IN_CALL? && !hpcm && !opens && devices * Side(playback) != {}
    }

    /** The table-driven form exactly: Routed for a handle that is not for voice
        calls, VoiceRouted for one that is. `keeps` says that the stream need not be
        closed for another device name. */
    method Route(devices: set<Device>, mode: Mode, opens: bool, keeps: bool) returns (err: int)
      modifies this
      ensures !isVoiceCallDevice ==> State() == Routed(card, playback, old(State()), devices, mode)
      ensures !isVoiceCallDevice ==> err == if curDev != old(curDev) && LacksInput(curDev) then -1 else 0
      ensures isVoiceCallDevice ==>
                State() == VoiceRouted(card, playback, old(State()),
                                       VoiceCall(devices, mode, !old(OpenFails(devices, mode, opens))))
      ensures old(OpenFails(devices, mode, opens)) ==> err < 0
    {
      var dev := devices * Side(playback);
      err := 0;
      if (curDev == dev && curMode == mode) || dev == {} {
        return 0;
      }
      if isVoiceCallDevice && curMode != IN_CALL && mode != IN_CALL {
        curDev := dev;
        return 0;
      }
      ghost var r := State();
      if curDev != dev {
        err := RouteSwitches(dev);
      }
      ghost var m := Named();
      RoutedInTwoSteps(card, playback, r, dev, mode, m);
      if curMode != mode {
        var ok;
        ok, err := RouteMode(mode, opens, err);
        if !ok {
          return err;
        }
      }
      if hpcm && !keeps {
        hpcm := false;
      }
      curDev, curMode := dev, mode;
    }
  }

  function WithCallMode(m: map<Control, int>, cur: Mode, mode: Mode): map<Control, int> {
    if CallModeSwitch in m then m[CallModeSwitch := CallValue(m[CallModeSwitch], cur, mode)] else m
  }

  lemma TwoStepsAt(card: Card, playback: bool, c: Control, v: int, r: Routing, dev: set<Device>, mode: Mode)
    ensures
      var u := if r.curDev == dev then v else NextValue(KindOf(card, c), playback, v, r.curDev, dev);
      RoutedValue(card, playback, c, v, r, dev, mode) ==
        if c == CallModeSwitch then CallValue(u, r.curMode, mode) else u
  {
  }

  lemma RoutedInTwoSteps(card: Card, playback: bool, r: Routing, dev: set<Device>, mode: Mode, m: map<Control, int>)
    requires m ==
      if r.curDev == dev then r.mixer
      else map c | c in r.mixer :: NextValue(KindOf(card, c), playback, r.mixer[c], r.curDev, dev)
    ensures WithCallMode(m, r.curMode, mode) ==
            map c | c in r.mixer :: RoutedValue(card, playback, c, r.mixer[c], r, dev, mode)
    ensures r.curMode == mode ==> WithCallMode(m, r.curMode, mode) == m
  {
    hide KindOf, NextValue;
    var n := WithCallMode(m, r.curMode, mode);
    forall c | c in r.mixer ensures n[c] == RoutedValue(card, playback, c, r.mixer[c], r, dev, mode) {
      TwoStepsAt(card, playback, c, r.mixer[c], r, dev, mode);
    }
  }
}

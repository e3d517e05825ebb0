/** What a route does to each control, device by device: plugging a device in sets
    its controls, and leaving it resets them. */
module AlsaDevices {
  import opened AlsaRoute

  predicate Output(d: Device) {
    match d
    case OUT_EARPIECE => true
    case OUT_SPEAKER => true
    case OUT_WIRED_HEADSET => true
    case OUT_WIRED_HEADPHONE => true
    case OUT_BLUETOOTH => true
    case OUT_AUX_DIGITAL => true
    case OUT_DEFAULT => true
    case OUT_OTHER => true
    case _ => false
  }

  lemma SideOf(playback: bool)
    ensures forall d :: d in Side(playback) <==> (Output(d) <==> playback)
  {
  }

  /** A handle takes the devices of its own direction, if there are any, and leaves
      the others. */
  lemma TakesItsSide(card: Card, playback: bool, r: Routing, devices: set<Device>, mode: Mode)
    requires exists d :: d in devices && (Output(d) <==> playback)
    ensures
      var t := Routed(card, playback, r, devices, mode);
      && t.curMode == mode && t.mixer.Keys == r.mixer.Keys
      && forall d :: d in t.curDev <==> d in devices && (Output(d) <==> playback)
  {
    hide RoutedValue;
    var d :| d in devices && (Output(d) <==> playback);
    var dev := devices * Side(playback);
    SideOf(playback);
    assert d in dev;
    assert dev != {};
    assert forall e :: e in dev <==> e in devices && (Output(e) <==> playback);
  }

  /** Without any it does nothing, and a repeated call changes nothing more. */
  lemma IdleRoutes(card: Card, playback: bool, r: Routing, devices: set<Device>, mode: Mode)
    ensures (forall d :: d in devices ==> !(Output(d) <==> playback)) ==> Routed(card, playback, r, devices, mode) == r
    ensures
      var t := Routed(card, playback, r, devices, mode);
      Routed(card, playback, t, devices, mode) == t
  {
    SideOf(playback);
  }

  predicate Headphones(d: set<Device>) {
    OUT_WIRED_HEADSET in d || OUT_WIRED_HEADPHONE in d
  }

  predicate Loudspeakers(d: set<Device>) {
    OUT_SPEAKER in d || OUT_DEFAULT in d
  }

  predicate Speakers(d: set<Device>) {
    OUT_EARPIECE in d || OUT_SPEAKER in d || OUT_DEFAULT in d
  }

  predicate Mics(d: set<Device>) {
    IN_BUILTIN_MIC in d || IN_DEFAULT in d || IN_AMBIENT in d || IN_BACK_MIC in d
  }

  lemma NamedMasks(d: set<Device>)
    ensures Meets(d, Mask(HeadphoneBlock)) <==> Headphones(d)
    ensures Meets(d, Mask(SpeakerBlock)) <==> Speakers(d)
    ensures Meets(d, Mask(MicBlock)) <==> Mics(d)
    ensures Meets(d, Mask(HeadsetMicBlock)) <==> IN_WIRED_HEADSET in d
    ensures Meets(d, PartDevices(Loudspeaker)) <==> Loudspeakers(d)
    ensures Meets(d, PartDevices(Earpiece)) <==> OUT_EARPIECE in d
  {
    assert OUT_WIRED_HEADSET in Mask(HeadphoneBlock) && OUT_WIRED_HEADPHONE in Mask(HeadphoneBlock);
    assert OUT_EARPIECE in Mask(SpeakerBlock) && OUT_SPEAKER in Mask(SpeakerBlock) && OUT_DEFAULT in Mask(SpeakerBlock);
    assert IN_BUILTIN_MIC in Mask(MicBlock) && IN_DEFAULT in Mask(MicBlock);
    assert IN_AMBIENT in Mask(MicBlock) && IN_BACK_MIC in Mask(MicBlock);
    assert IN_WIRED_HEADSET in Mask(HeadsetMicBlock);
    assert OUT_SPEAKER in PartDevices(Loudspeaker) && OUT_DEFAULT in PartDevices(Loudspeaker);
    assert OUT_EARPIECE in PartDevices(Earpiece);
  }

  /** One route of a handle to a changed set of devices of its direction. */
  datatype Move = Move(card: Card, playback: bool, r: Routing, devices: set<Device>, mode: Mode)
  {
    ghost predicate Valid() {
      && (exists d :: d in devices && (Output(d) <==> playback))
      && (exists d :: !(d in r.curDev <==> d in devices && (Output(d) <==> playback)))
    }

    function After(): Routing { Routed(card, playback, r, devices, mode) }

    ghost predicate Sets(c: Control, v: int) {
      c in r.mixer ==> c in After().mixer && After().mixer[c] == v
    }

    ghost predicate Keeps(c: Control) {
      c in r.mixer ==> c in After().mixer && After().mixer[c] == r.mixer[c]
    }

    /** Set with its devices, and otherwise as before. */
    ghost predicate Raises(c: Control, now: bool, on: int) {
      if now then Sets(c, on) else Keeps(c)
    }

    /** On with its devices, off when they are left, and otherwise as before. */
    ghost predicate Switches(c: Control, before: bool, now: bool, on: int, off: int) {
      && (now ==> Sets(c, on))
      && (!now && before ==> Sets(c, off))
      && (!now && !before ==> Keeps(c))
    }
  }

  lemma MoveIsTurned(m: Move, c: Control)
    requires m.Valid() && c in m.r.mixer && !KindOf(m.card, c).CallMode?
    ensures m.r.curDev != m.After().curDev && c in m.After().mixer
    ensures m.After().mixer[c] == NextValue(KindOf(m.card, c), m.playback, m.r.mixer[c], m.r.curDev, m.After().curDev)
  {
    TakesItsSide(m.card, m.playback, m.r, m.devices, m.mode);
  }

  /** Which devices count, before and after. */
  lemma MoveNames(m: Move)
    requires m.Valid()
    ensures forall d :: d in m.After().curDev <==> d in m.devices && (Output(d) <==> m.playback)
    ensures m.playback ==>
              && (Headphones(m.After().curDev) <==> Headphones(m.devices))
              && (Speakers(m.After().curDev) <==> Speakers(m.devices))
              && (Loudspeakers(m.After().curDev) <==> Loudspeakers(m.devices))
    ensures !m.playback ==> (Mics(m.After().curDev) <==> Mics(m.devices))
  {
    TakesItsSide(m.card, m.playback, m.r, m.devices, m.mode);
  }

  /** A control that follows the membership test of one block. */
  lemma PathFollows(m: Move, c: Control, b: Block, on: int, off: int)
    requires m.Valid() && KindOf(m.card, c) == Path(b, on, off) && Faces(b, m.playback)
    ensures m.Switches(c, Meets(m.r.curDev, Mask(b)), Meets(m.After().curDev, Mask(b)), on, off)
  {
    if c in m.r.mixer {
      MoveIsTurned(m, c);
    }
  }

  lemma LevelFollows(m: Move, c: Control, b: Block, on: int)
    requires m.Valid() && KindOf(m.card, c) == Level(b, on) && Faces(b, m.playback)
    ensures m.Raises(c, Meets(m.After().curDev, Mask(b)), on)
  {
    if c in m.r.mixer {
      MoveIsTurned(m, c);
    }
  }

  lemma GatedFollows(m: Move, c: Control, p: Part, on: int, off: int)
    requires m.Valid() && KindOf(m.card, c) == Gated(p, on, off) && m.playback
    ensures
      var cur, dev := m.r.curDev, m.After().curDev;
      if Meets(dev, PartDevices(p)) then m.Sets(c, on)
      else if Meets(cur, PartDevices(p)) && !Meets(dev, Mask(SpeakerBlock)) then m.Sets(c, off)
      else m.Keeps(c)
  {
    PartsAreSpeakers(m.r.curDev, p);
    PartsAreSpeakers(m.After().curDev, p);
    if c in m.r.mixer {
      MoveIsTurned(m, c);
    }
  }

  lemma PartsAreSpeakers(d: set<Device>, p: Part)
    ensures Meets(d, PartDevices(p)) ==> Meets(d, Mask(SpeakerBlock))
  {
    NamedMasks(d);
  }

  lemma SharedFollows(m: Move, c: Control)
    requires m.Valid() && KindOf(m.card, c) == Shared && !m.playback
    ensures
      var cur, dev := m.r.curDev, m.After().curDev;
      if Meets(dev, Mask(HeadsetMicBlock)) then m.Sets(c, 1)
      else if Meets(cur, Mask(HeadsetMicBlock)) then m.Sets(c, 0)
      else m.Switches(c, Meets(cur, Mask(MicBlock)), Meets(dev, Mask(MicBlock)), 1, 0)
  {
    if c in m.r.mixer {
      MoveIsTurned(m, c);
    }
  }

  lemma InputFollows(m: Move, c: Control)
    requires m.Valid() && KindOf(m.card, c) == Input && !m.playback
    ensures
      var dev := m.After().curDev;
      if Meets(dev, Mask(HeadsetMicBlock)) then m.Sets(c, 0)
      else if Meets(dev, Mask(MicBlock)) then m.Sets(c, 1)
      else m.Keeps(c)
  {
    if c in m.r.mixer {
      MoveIsTurned(m, c);
    }
  }

  // ----- block by block -----

  /** Wired headphones and headsets. */
  lemma HeadphonesSwitch(m: Move)
    requires m.Valid() && m.playback
    ensures
      forall c ::
        || c == HeadphoneJackSwitch
        || (m.card.MAX98095? && (c == Max(LeftHeadphoneMixerLeftDac1) || c == Max(RightHeadphoneMixerLeftDac1)))
        || (m.card.AIC326X? && (c == Aic(HplOutputMixerLdac) || c == Aic(HprOutputMixerRdac))) ==>
          m.Switches(c, Headphones(m.r.curDev), Headphones(m.devices), 1, 0)
    ensures
      m.card.MAX98095? ==> m.Raises(Max(HeadphoneVolume), Headphones(m.devices), 26)
  {
    hide Meets, Mask, Headphones, NextValue, Routed;
    NamedMasks(m.r.curDev);
    NamedMasks(m.After().curDev);
    MoveNames(m);
    PathFollows(m, HeadphoneJackSwitch, HeadphoneBlock, 1, 0);
    if m.card.MAX98095? {
      PathFollows(m, Max(LeftHeadphoneMixerLeftDac1), HeadphoneBlock, 1, 0);
      PathFollows(m, Max(RightHeadphoneMixerLeftDac1), HeadphoneBlock, 1, 0);
      LevelFollows(m, Max(HeadphoneVolume), HeadphoneBlock, 26);
    }
    if m.card.AIC326X? {
      PathFollows(m, Aic(HplOutputMixerLdac), HeadphoneBlock, 1, 0);
      PathFollows(m, Aic(HprOutputMixerRdac), HeadphoneBlock, 1, 0);
    }
  }

  /** The earpiece, the speaker and the default output. */
  lemma SpeakersSwitch(m: Move)
    requires m.Valid() && m.playback
    ensures
      forall c ::
        || (m.card.WM8903? && (c == IntSpkSwitch || c == Wm(LeftSpeakerMixerDacl) || c == Wm(RightSpeakerMixerDacr)))
        || (m.card.MAX98095? && (c == IntSpkSwitch || c == Max(LeftSpeakerMixerLeftDac1)
                                  || c == Max(RightSpeakerMixerLeftDac1)))
        || (m.card.AIC326X? && (c == Aic(LolOutputMixerLdac) || c == Aic(LorOutputMixerRdac))) ==>
          m.Switches(c, Speakers(m.r.curDev), Speakers(m.devices), 1, 0)
    ensures
      m.card.MAX98095? ==> m.Raises(Max(SpeakerVolume), Speakers(m.devices), 21)
  {
    hide Meets, Mask, Speakers, NextValue, Routed;
    NamedMasks(m.r.curDev);
    NamedMasks(m.After().curDev);
    MoveNames(m);
    match m.card {
      case WM8903 =>
        PathFollows(m, IntSpkSwitch, SpeakerBlock, 1, 0);
        PathFollows(m, Wm(LeftSpeakerMixerDacl), SpeakerBlock, 1, 0);
        PathFollows(m, Wm(RightSpeakerMixerDacr), SpeakerBlock, 1, 0);
      case MAX98095 =>
        PathFollows(m, IntSpkSwitch, SpeakerBlock, 1, 0);
        PathFollows(m, Max(LeftSpeakerMixerLeftDac1), SpeakerBlock, 1, 0);
        PathFollows(m, Max(RightSpeakerMixerLeftDac1), SpeakerBlock, 1, 0);
        LevelFollows(m, Max(SpeakerVolume), SpeakerBlock, 21);
      case AIC326X =>
        PathFollows(m, Aic(LolOutputMixerLdac), SpeakerBlock, 1, 0);
        PathFollows(m, Aic(LorOutputMixerRdac), SpeakerBlock, 1, 0);
      case _ =>
    }
  }

  /** A part of the aic326x's speaker block: on with its own devices, off only when
      all speakers are left. */
  ghost predicate PartSwitches(m: Move, c: Control, before: bool, now: bool, on: int, off: int) {
    if now then m.Sets(c, on) else if before && !Speakers(m.devices) then m.Sets(c, off) else m.Keeps(c)
  }

  lemma PartsSwitch(m: Move)
    requires m.Valid() && m.playback && m.card.AIC326X?
    ensures
      var before, now := Loudspeakers(m.r.curDev), Loudspeakers(m.devices);
      forall c, on, off ::
        || (c, on, off) == (IntSpkSwitch, 1, 0)
        || (c, on, off) == (Aic(SpklOutputMixerLolVolume), 10, 127)
        || (c, on, off) == (Aic(SpkrOutputMixerLorVolume), 10, 127) ==>
          PartSwitches(m, c, before, now, on, off)
    ensures
      var before, now := OUT_EARPIECE in m.r.curDev, OUT_EARPIECE in m.devices;
      forall c, on, off ::
        || (c, on, off) == (Aic(EarpieceSwitch), 1, 0)
        || (c, on, off) == (Aic(RecOutputMixerLolVolume), 10, 127)
        || (c, on, off) == (Aic(RecOutputMixerLorVolume), 10, 127) ==>
          PartSwitches(m, c, before, now, on, off)
  {
    hide Meets, Mask, PartDevices, Speakers, Loudspeakers, NextValue, Routed;
    NamedMasks(m.r.curDev);
    NamedMasks(m.After().curDev);
    MoveNames(m);
    assert OUT_EARPIECE in m.After().curDev <==> OUT_EARPIECE in m.devices;
    GatedFollows(m, IntSpkSwitch, Loudspeaker, 1, 0);
    GatedFollows(m, Aic(SpklOutputMixerLolVolume), Loudspeaker, 10, 127);
    GatedFollows(m, Aic(SpkrOutputMixerLorVolume), Loudspeaker, 10, 127);
    GatedFollows(m, Aic(EarpieceSwitch), Earpiece, 1, 0);
    GatedFollows(m, Aic(RecOutputMixerLolVolume), Earpiece, 10, 127);
    GatedFollows(m, Aic(RecOutputMixerLorVolume), Earpiece, 10, 127);
  }

  /** The four built-in microphones. */
  lemma MicsSwitch(m: Move)
    requires m.Valid() && !m.playback
    ensures
      forall c ::
        || c == IntMicSwitch
        || (m.card.AIC326X? && (c == Aic(LeftInputMixerIn2l) || c == Aic(RightInputMixerIn2r)
                                 || c == Aic(RightInputMixerCm1r))) ==>
          m.Switches(c, Mics(m.r.curDev), Mics(m.devices), 1, 0)
  {
    hide Meets, Mask, Mics, NextValue, Routed;
    NamedMasks(m.r.curDev);
    NamedMasks(m.After().curDev);
    MoveNames(m);
    PathFollows(m, IntMicSwitch, MicBlock, 1, 0);
    if m.card.AIC326X? {
      PathFollows(m, Aic(LeftInputMixerIn2l), MicBlock, 1, 0);
      PathFollows(m, Aic(RightInputMixerIn2r), MicBlock, 1, 0);
      PathFollows(m, Aic(RightInputMixerCm1r), MicBlock, 1, 0);
    }
  }

  /** The headset microphone. The numbers of the two capture multiplexers are those of
      "Left" (0) and "Right" (1). */
  lemma HeadsetMicSwitches(m: Move)
    requires m.Valid() && !m.playback
    ensures
      var before, now := IN_WIRED_HEADSET in m.r.curDev, IN_WIRED_HEADSET in m.devices;
      forall c, on, off ::
        || (c, on, off) == (MicJackSwitch, 1, 0)
        || (m.card.WM8903? && ((c, on, off) == (Wm(LeftInputPgaCommonMode), 0, 1)
                                || (c, on, off) == (Wm(LeftCaptureMux), 0, 0)
                                || (c, on, off) == (Wm(RightCaptureMux), 0, 1)))
        || (m.card.AIC326X? && ((c, on, off) == (Aic(LeftInputMixerIn1l), 1, 0)
                                 || (c, on, off) == (Aic(MicBiasExtOn), 1, 0))) ==>
          m.Switches(c, before, now, on, off)
  {
    hide Meets, Mask, NextValue, Routed;
    NamedMasks(m.r.curDev);
    NamedMasks(m.After().curDev);
    MoveNames(m);
    assert IN_WIRED_HEADSET in m.After().curDev <==> IN_WIRED_HEADSET in m.devices;
    PathFollows(m, MicJackSwitch, HeadsetMicBlock, 1, 0);
    if m.card.WM8903? {
      PathFollows(m, Wm(LeftInputPgaCommonMode), HeadsetMicBlock, 0, 1);
      PathFollows(m, Wm(LeftCaptureMux), HeadsetMicBlock, 0, 0);
      PathFollows(m, Wm(RightCaptureMux), HeadsetMicBlock, 0, 1);
    } else if m.card.AIC326X? {
      PathFollows(m, Aic(LeftInputMixerIn1l), HeadsetMicBlock, 1, 0);
      PathFollows(m, Aic(MicBiasExtOn), HeadsetMicBlock, 1, 0);
    }
  }

  /** The controls of both microphones: the headset's block is the later one. The two
      inputs of the wm8903 read "ADC" (0) for the headset and "DMIC" (1) else. */
  lemma SharedInputsSwitch(m: Move)
    requires m.Valid() && !m.playback
    ensures
      var now, mics := IN_WIRED_HEADSET in m.devices, Mics(m.devices);
      m.card.WM8903? ==>
        forall c :: c == Wm(LeftAdcInput) || c == Wm(RightAdcInput) ==>
          if now then m.Sets(c, 0) else if mics then m.Sets(c, 1) else m.Keeps(c)
    ensures
      var before, now := IN_WIRED_HEADSET in m.r.curDev, IN_WIRED_HEADSET in m.devices;
      m.card.AIC326X? ==>
        forall c :: c == Aic(LeftInputMixerCm1l) || c == Aic(MicBiasExtIndependent) || c == Aic(InputCmMode) ==>
          if now then m.Sets(c, 1) else if before then m.Sets(c, 0)
          else m.Switches(c, Mics(m.r.curDev), Mics(m.devices), 1, 0)
  {
    hide Meets, Mask, Mics, NextValue, Routed;
    NamedMasks(m.r.curDev);
    NamedMasks(m.After().curDev);
    MoveNames(m);
    assert IN_WIRED_HEADSET in m.After().curDev <==> IN_WIRED_HEADSET in m.devices;
    if m.card.WM8903? {
      InputFollows(m, Wm(LeftAdcInput));
      InputFollows(m, Wm(RightAdcInput));
    } else if m.card.AIC326X? {
      SharedFollows(m, Aic(LeftInputMixerCm1l));
      SharedFollows(m, Aic(MicBiasExtIndependent));
      SharedFollows(m, Aic(InputCmMode));
    }
  }

  /** The call switch goes with the mode. */
  lemma CallSwitch(card: Card, playback: bool, r: Routing, devices: set<Device>, mode: Mode)
    requires exists d :: d in devices && (Output(d) <==> playback)
    requires CallModeSwitch in r.mixer
    ensures
      Routed(card, playback, r, devices, mode).mixer[CallModeSwitch] ==
        if mode.IN_CALL? && !r.curMode.IN_CALL? then 1
        else if r.curMode.IN_CALL? && !mode.IN_CALL? then 0
        else r.mixer[CallModeSwitch]
  {
    TakesItsSide(card, playback, r, devices, mode);
  }
}

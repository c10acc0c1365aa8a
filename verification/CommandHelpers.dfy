/**
 * The fixed-byte command builders of the application crate. Each builder frames a
 * literal payload as a multicast "set" command; the parameterised settings are
 * sent with one fixed default payload.
 */
module CommandHelpers {
  import opened Bytes
  import opened Protocol
  import opened Parser
  import CodecProperties

  // ---------------------------------------------------------------------------
  // Builders for turn_on_paraphonic_mode .. osc_key_split
  // ---------------------------------------------------------------------------

  datatype GeneralCommand =
    | TurnOnParaphonicMode
    | TurnOffParaphonicMode
    | OscSyncOn
    | OscSyncOff
    | OscKeySplit

  function GeneralPayload(c: GeneralCommand): (p: seq<Byte>)
    ensures 2 <= |p| <= 3
  {
    match c
    case TurnOnParaphonicMode => [0x0F, 0x01]
    case TurnOffParaphonicMode => [0x0F, 0x00]
    case OscSyncOn => [0x0E, 0x01]
    case OscSyncOff => [0x0E, 0x00]
    case OscKeySplit => [0x28, 0x00]
  }

  function GeneralSetting(c: GeneralCommand): Option<GlobalSetting>
  {
    match c
    case TurnOnParaphonicMode => Some(ParaphonicMode(On))
    case TurnOffParaphonicMode => Some(ParaphonicMode(ToggleOption.Off))
    case OscSyncOn => Some(OscSync(On))
    case OscSyncOff => Some(OscSync(ToggleOption.Off))
    case OscKeySplit => None
  }

  /** Each of these builders with a catalogue setting wraps exactly that setting's wire form. */
  lemma GeneralPayloadIsSetting(c: GeneralCommand)
    ensures GeneralSetting(c).Some? ==> GeneralPayload(c) == SettingBytes(GeneralSetting(c).value)
  {
  }

  /** The builders here without a catalogue setting are exactly those whose opcode is outside the catalogue. */
  lemma GeneralOpcodeUnknown(c: GeneralCommand)
    ensures GeneralSetting(c).None? <==> GeneralPayload(c)[0] !in SettingOpcodes
  {
    if GeneralSetting(c).Some? {
      CodecProperties.OpcodeListed(GeneralSetting(c).value);
    } else {
      CodecProperties.OpcodesOutsideCatalogue();
    }
  }

  // ---------------------------------------------------------------------------
  // Builders for the first oscillator
  // ---------------------------------------------------------------------------

  datatype Osc1Command =
    | Osc1BlendModeSwitch
    | Osc1BlendModeBlend
    | Osc1TunePotBypassOn
    | Osc1TunePotEnable
    | Osc1Range32
    | Osc1Range16
    | Osc1Range8
    | Osc1RangePlusMinus10
    | Osc1AutoglideDefault

  function OscOnePayload(c: Osc1Command): (p: seq<Byte>)
    ensures 2 <= |p| <= 3
  {
    match c
    case Osc1BlendModeSwitch => [0x20, 0x01]
    case Osc1BlendModeBlend => [0x20, 0x00]
    case Osc1TunePotBypassOn => [0x22, 0x01]
    case Osc1TunePotEnable => [0x22, 0x00]
    case Osc1Range32 => [0x26, 0x00]
    case Osc1Range16 => [0x26, 0x01]
    case Osc1Range8 => [0x26, 0x02]
    case Osc1RangePlusMinus10 => [0x26, 0x03]
    case Osc1AutoglideDefault => [0x24, 0x00]
  }

  function OscOneSetting(c: Osc1Command): Option<GlobalSetting>
  {
    match c
    case Osc1BlendModeSwitch => Some(Osc1BlendMode(Switch))
    case Osc1BlendModeBlend => Some(Osc1BlendMode(Blend))
    case Osc1TunePotBypassOn => Some(Osc1TunePotBypass(On))
    case Osc1TunePotEnable => Some(Osc1TunePotBypass(ToggleOption.Off))
    case Osc1Range32 => Some(Osc1Range(ThirtyTwo))
    case Osc1Range16 => Some(Osc1Range(Sixteen))
    case Osc1Range8 => Some(Osc1Range(Eight))
    case Osc1RangePlusMinus10 => Some(Osc1Range(PlusMinusTen))
    case Osc1AutoglideDefault => Some(Osc1Autoglide(-12))
  }

  /** Each of these builders with a catalogue setting wraps exactly that setting's wire form. */
  lemma OscOnePayloadIsSetting(c: Osc1Command)
    ensures OscOneSetting(c).Some? ==> OscOnePayload(c) == SettingBytes(OscOneSetting(c).value)
  {
  }

  /** Every builder here has a catalogue setting, so none uses an opcode outside the catalogue. */
  lemma OscOneOpcodeUnknown(c: Osc1Command)
    ensures OscOneSetting(c).Some? && OscOnePayload(c)[0] in SettingOpcodes
    ensures OscOneSetting(c).None? <==> OscOnePayload(c)[0] !in SettingOpcodes
  {
    if OscOneSetting(c).Some? {
      CodecProperties.OpcodeListed(OscOneSetting(c).value);
    } else {
      CodecProperties.OpcodesOutsideCatalogue();
    }
  }

  // ---------------------------------------------------------------------------
  // Builders for the second oscillator
  // ---------------------------------------------------------------------------

  datatype Osc2Command =
    | Osc2BlendModeSwitch
    | Osc2BlendModeBlend
    | Osc2TunePotBypassOn
    | Osc2TunePotEnable
    | Osc2Range32
    | Osc2Range16
    | Osc2Range8
    | Osc2RangePlusMinus10
    | Osc2AutoglideDefault
    | Osc2KeyTrackHold
    | Osc2KeyTrackTrack

  function OscTwoPayload(c: Osc2Command): (p: seq<Byte>)
    ensures 2 <= |p| <= 3
  {
    match c
    case Osc2BlendModeSwitch => [0x21, 0x01]
    case Osc2BlendModeBlend => [0x21, 0x00]
    case Osc2TunePotBypassOn => [0x23, 0x01]
    case Osc2TunePotEnable => [0x23, 0x00]
    case Osc2Range32 => [0x27, 0x00]
    case Osc2Range16 => [0x27, 0x01]
    case Osc2Range8 => [0x27, 0x02]
    case Osc2RangePlusMinus10 => [0x27, 0x03]
    case Osc2AutoglideDefault => [0x25, 0x00]
    case Osc2KeyTrackHold => [0x2A, 0x01]
    case Osc2KeyTrackTrack => [0x2A, 0x00]
  }

  function OscTwoSetting(c: Osc2Command): Option<GlobalSetting>
  {
    match c
    case Osc2BlendModeSwitch => Some(Osc2BlendMode(Switch))
    case Osc2BlendModeBlend => Some(Osc2BlendMode(Blend))
    case Osc2TunePotBypassOn => Some(Osc2TunePotBypass(On))
    case Osc2TunePotEnable => Some(Osc2TunePotBypass(ToggleOption.Off))
    case Osc2Range32 => Some(Osc2Range(ThirtyTwo))
    case Osc2Range16 => Some(Osc2Range(Sixteen))
    case Osc2Range8 => Some(Osc2Range(Eight))
    case Osc2RangePlusMinus10 => Some(Osc2Range(PlusMinusTen))
    case Osc2AutoglideDefault => Some(Osc2Autoglide(-12))
    case Osc2KeyTrackHold => Some(Osc2KeyTrack(Hold))
    case Osc2KeyTrackTrack => Some(Osc2KeyTrack(Track))
  }

  /** Each of these builders with a catalogue setting wraps exactly that setting's wire form. */
  lemma OscTwoPayloadIsSetting(c: Osc2Command)
    ensures OscTwoSetting(c).Some? ==> OscTwoPayload(c) == SettingBytes(OscTwoSetting(c).value)
  {
  }

  /** Every builder here has a catalogue setting, so none uses an opcode outside the catalogue. */
  lemma OscTwoOpcodeUnknown(c: Osc2Command)
    ensures OscTwoSetting(c).Some? && OscTwoPayload(c)[0] in SettingOpcodes
    ensures OscTwoSetting(c).None? <==> OscTwoPayload(c)[0] !in SettingOpcodes
  {
    if OscTwoSetting(c).Some? {
      CodecProperties.OpcodeListed(OscTwoSetting(c).value);
    } else {
      CodecProperties.OpcodesOutsideCatalogue();
    }
  }

  // ---------------------------------------------------------------------------
  // Builders for the LFO
  // ---------------------------------------------------------------------------

  datatype LfoCommand =
    | LfoBlendModeSwitch
    | LfoBlendModeBlend
    | LfoKeySyncOn
    | LfoKeySyncOff
    | LfoOneShotOn
    | LfoOneShotOff
    | LfoRetriggerOn
    | LfoRetriggerOff
    | LfoMidiSyncOn
    | LfoMidiSyncOff
    | LfoKeyTrackingDefault
    | LfoDepthDefault
    | LfoResetOrderCommand
    | LfoShapeOrderDefault
    | LfoPhaseOffsetDefault

  function LfoPayload(c: LfoCommand): (p: seq<Byte>)
    ensures 2 <= |p| <= 3
  {
    match c
    case LfoBlendModeSwitch => [0x30, 0x01]
    case LfoBlendModeBlend => [0x30, 0x00]
    case LfoKeySyncOn => [0x37, 0x01]
    case LfoKeySyncOff => [0x37, 0x00]
    case LfoOneShotOn => [0x31, 0x01]
    case LfoOneShotOff => [0x31, 0x00]
    case LfoRetriggerOn => [0x3B, 0x01]
    case LfoRetriggerOff => [0x3B, 0x00]
    case LfoMidiSyncOn => [0x35, 0x01]
    case LfoMidiSyncOff => [0x35, 0x00]
    case LfoKeyTrackingDefault => [0x32, 0x00]
    case LfoDepthDefault => [0x34, 0x00]
    case LfoResetOrderCommand => [0x39, 0x00]
    case LfoShapeOrderDefault => [0x38, 0x00, 0x00]
    case LfoPhaseOffsetDefault => [0x38, 0x00, 0x00]
  }

  function LfoSetting(c: LfoCommand): Option<GlobalSetting>
  {
    match c
    case LfoBlendModeSwitch => Some(LfoBlendMode(Switch))
    case LfoBlendModeBlend => Some(LfoBlendMode(Blend))
    case LfoKeySyncOn => Some(LfoKeySync(On))
    case LfoKeySyncOff => Some(LfoKeySync(ToggleOption.Off))
    case LfoOneShotOn => Some(LfoOneShot(On))
    case LfoOneShotOff => Some(LfoOneShot(ToggleOption.Off))
    case LfoRetriggerOn => Some(LfoRetrigger(On))
    case LfoRetriggerOff => Some(LfoRetrigger(ToggleOption.Off))
    case LfoMidiSyncOn => Some(LfoMidiSync(On))
    case LfoMidiSyncOff => Some(LfoMidiSync(ToggleOption.Off))
    case LfoKeyTrackingDefault => None
    case LfoDepthDefault => Some(LfoDepth(FromByte(0)))
    case LfoResetOrderCommand => Some(LfoResetOrder)
    case LfoShapeOrderDefault => Some(LfoShapeOrder(One, Sine))
    case LfoPhaseOffsetDefault => Some(LfoShapeOrder(One, Sine))
  }

  /** Each of these builders with a catalogue setting wraps exactly that setting's wire form. */
  lemma LfoPayloadIsSetting(c: LfoCommand)
    ensures LfoSetting(c).Some? ==> LfoPayload(c) == SettingBytes(LfoSetting(c).value)
  {
  }

  /** The builders here without a catalogue setting are exactly those whose opcode is outside the catalogue. */
  lemma LfoOpcodeUnknown(c: LfoCommand)
    ensures LfoSetting(c).None? <==> LfoPayload(c)[0] !in SettingOpcodes
  {
    if LfoSetting(c).Some? {
      CodecProperties.OpcodeListed(LfoSetting(c).value);
    } else {
      CodecProperties.OpcodesOutsideCatalogue();
    }
  }

  // ---------------------------------------------------------------------------
  // Builders for the filter
  // ---------------------------------------------------------------------------

  datatype VcfCommand =
    | VcfKeyTrackingOn
    | VcfKeyTrackingOff
    | VcfModDepthDefault
    | VcfModSourceDefault
    | VcfModeDefault

  function VcfPayload(c: VcfCommand): (p: seq<Byte>)
    ensures 2 <= |p| <= 3
  {
    match c
    case VcfKeyTrackingOn => [0x11, 0x01]
    case VcfKeyTrackingOff => [0x11, 0x00]
    case VcfModDepthDefault => [0x14, 0x00]
    case VcfModSourceDefault => [0x12, 0x00]
    case VcfModeDefault => [0x10, 0x00]
  }

  function VcfSetting(c: VcfCommand): Option<GlobalSetting>
  {
    match c
    case VcfKeyTrackingOn => Some(VcfKeyTracking(On))
    case VcfKeyTrackingOff => Some(VcfKeyTracking(ToggleOption.Off))
    case VcfModDepthDefault => Some(VcfModDepth(FromByte(0)))
    case VcfModSourceDefault => Some(VcfModSource(ModSource.Off))
    case VcfModeDefault => None
  }

  /** Each of these builders with a catalogue setting wraps exactly that setting's wire form. */
  lemma VcfPayloadIsSetting(c: VcfCommand)
    ensures VcfSetting(c).Some? ==> VcfPayload(c) == SettingBytes(VcfSetting(c).value)
  {
  }

  /** The builders here without a catalogue setting are exactly those whose opcode is outside the catalogue. */
  lemma VcfOpcodeUnknown(c: VcfCommand)
    ensures VcfSetting(c).None? <==> VcfPayload(c)[0] !in SettingOpcodes
  {
    if VcfSetting(c).Some? {
      CodecProperties.OpcodeListed(VcfSetting(c).value);
    } else {
      CodecProperties.OpcodesOutsideCatalogue();
    }
  }

  // ---------------------------------------------------------------------------
  // Builders for the device options
  // ---------------------------------------------------------------------------

  datatype OptionsCommand =
    | MidiChannelDefault
    | DisableMidiDipsCommand
    | EnableMidiDips
    | EnvRetriggerStaccato
    | EnvRetriggerLegato
    | NotePriorityDefault
    | PitchBendRangeDefault
    | AssignableOutDefault
    | PolyChainModeOn
    | PolyChainModeOff
    | KeyRangeMuteOn
    | KeyRangeUnmute
    | KeyRangeMinDefault
    | KeyRangeMaxDefault
    | KeyRangeResetCommand

  function OptionsPayload(c: OptionsCommand): (p: seq<Byte>)
    ensures 2 <= |p| <= 3
  {
    match c
    case MidiChannelDefault => [0x00, 0x00]
    case DisableMidiDipsCommand => [0x0A, 0x01]
    case EnableMidiDips => [0x0A, 0x00]
    case EnvRetriggerStaccato => [0x05, 0x00]
    case EnvRetriggerLegato => [0x05, 0x01]
    case NotePriorityDefault => [0x01, 0x00]
    case PitchBendRangeDefault => [0x03, 0x00]
    case AssignableOutDefault => [0x04, 0x00]
    case PolyChainModeOn => [0x08, 0x01]
    case PolyChainModeOff => [0x08, 0x00]
    case KeyRangeMuteOn => [0x0B, 0x01]
    case KeyRangeUnmute => [0x0B, 0x00]
    case KeyRangeMinDefault => [0x0C, 0x18]
    case KeyRangeMaxDefault => [0x0D, 0x60]
    case KeyRangeResetCommand => [0x06, 0x00]
  }

  function OptionsSetting(c: OptionsCommand): Option<GlobalSetting>
  {
    match c
    case MidiChannelDefault => Some(MidiChannel(1))
    case DisableMidiDipsCommand => Some(DisableMidiDips(On))
    case EnableMidiDips => Some(DisableMidiDips(ToggleOption.Off))
    case EnvRetriggerStaccato => Some(EnvRetriggerMode(Staccato))
    case EnvRetriggerLegato => Some(EnvRetriggerMode(Legato))
    case NotePriorityDefault => None
    case PitchBendRangeDefault => None
    case AssignableOutDefault => Some(AssignOut(Osc1))
    case PolyChainModeOn => Some(PolyChainMode(On))
    case PolyChainModeOff => Some(PolyChainMode(ToggleOption.Off))
    case KeyRangeMuteOn => Some(KeyRangeMute(On))
    case KeyRangeUnmute => Some(KeyRangeMute(ToggleOption.Off))
    case KeyRangeMinDefault => None
    case KeyRangeMaxDefault => None
    case KeyRangeResetCommand => Some(KeyRangeReset)
  }

  /** Each of these builders with a catalogue setting wraps exactly that setting's wire form. */
  lemma OptionsPayloadIsSetting(c: OptionsCommand)
    ensures OptionsSetting(c).Some? ==> OptionsPayload(c) == SettingBytes(OptionsSetting(c).value)
  {
  }

  /** The builders here without a catalogue setting are exactly those whose opcode is outside the catalogue. */
  lemma OptionsOpcodeUnknown(c: OptionsCommand)
    ensures OptionsSetting(c).None? <==> OptionsPayload(c)[0] !in SettingOpcodes
  {
    if OptionsSetting(c).Some? {
      CodecProperties.OpcodeListed(OptionsSetting(c).value);
    } else {
      CodecProperties.OpcodesOutsideCatalogue();
    }
  }

  // ---------------------------------------------------------------------------
  // All builders
  // ---------------------------------------------------------------------------

  /** Every builder, grouped as the source groups them. */
  datatype Helper =
    | General(general: GeneralCommand)
    | OscOne(osc1: Osc1Command)
    | OscTwo(osc2: Osc2Command)
    | Lfo(lfo: LfoCommand)
    | Vcf(vcf: VcfCommand)
    | Options(options: OptionsCommand)

  /** The literal payload a builder wraps: an opcode and its value bytes. */
  function HelperPayload(h: Helper): (p: seq<Byte>)
    ensures 2 <= |p| <= 3
  {
    match h
    case General(c) => GeneralPayload(c)
    case OscOne(c) => OscOnePayload(c)
    case OscTwo(c) => OscTwoPayload(c)
    case Lfo(c) => LfoPayload(c)
    case Vcf(c) => VcfPayload(c)
    case Options(c) => OptionsPayload(c)
  }

  /**
   * The catalogue setting each builder's payload stands for, stated independently
   * of the payload tables. Key split, LFO key tracking, VCF mode, note priority,
   * pitch-bend range and the key-range bounds have no catalogue entry.
   */
  function HelperSetting(h: Helper): Option<GlobalSetting>
  {
    match h
    case General(c) => GeneralSetting(c)
    case OscOne(c) => OscOneSetting(c)
    case OscTwo(c) => OscTwoSetting(c)
    case Lfo(c) => LfoSetting(c)
    case Vcf(c) => VcfSetting(c)
    case Options(c) => OptionsSetting(c)
  }

  /** The bytes a builder returns. */
  function HelperBytes(h: Helper): (r: seq<Byte>)
    ensures 10 <= |r| <= 11
    ensures r[..7] == NeutronMessageHeader + [0x7F, 0x0A] && r[|r| - 1] == SysexEox
  {
    Wrapped(HelperPayload(h))
  }

  /** Each builder's payload is the wire form of its setting; the builders without one use opcodes outside the catalogue. */
  lemma HelperPayloadIsSetting(h: Helper)
    ensures HelperSetting(h).Some? ==> HelperPayload(h) == SettingBytes(HelperSetting(h).value)
    ensures HelperSetting(h).None? <==> HelperPayload(h)[0] !in SettingOpcodes
  {
    match h {
      case General(c) => GeneralPayloadIsSetting(c); GeneralOpcodeUnknown(c);
      case OscOne(c) => OscOnePayloadIsSetting(c); OscOneOpcodeUnknown(c);
      case OscTwo(c) => OscTwoPayloadIsSetting(c); OscTwoOpcodeUnknown(c);
      case Lfo(c) => LfoPayloadIsSetting(c); LfoOpcodeUnknown(c);
      case Vcf(c) => VcfPayloadIsSetting(c); VcfOpcodeUnknown(c);
      case Options(c) => OptionsPayloadIsSetting(c); OptionsOpcodeUnknown(c);
    }
  }

  /** A builder with a catalogue setting sends exactly the multicast "set" message for it. */
  lemma HelperIsSetCommand(h: Helper)
    requires HelperSetting(h).Some?
    ensures HelperBytes(h) == MessageBytes(SetGlobalSetting(Multicast, HelperSetting(h).value))
  {
    HelperPayloadIsSetting(h);
    WrappedIsMulticastSet(HelperSetting(h).value);
  }

  /** What the decoder makes of each builder's bytes: its setting, or a failure for the builders without one. */
  lemma HelperDecodes(h: Helper)
    ensures ParseNeutronMessage(HelperBytes(h)) ==
      (if HelperSetting(h).Some? then Some((SetGlobalSetting(Multicast, HelperSetting(h).value), [])) else None)
  {
    HelperPayloadIsSetting(h);
    if HelperSetting(h).Some? {
      HelperIsSetCommand(h);
      CodecProperties.MessageRoundTrip(SetGlobalSetting(Multicast, HelperSetting(h).value), []);
      assert HelperBytes(h) + [] == HelperBytes(h);
    } else {
      CodecProperties.UnknownSettingFrameRejected(HelperPayload(h));
    }
  }

  /** The paraphonic switch: `0F 01` on, `0F 00` off. */
  lemma ParaphonicModeFrames()
    ensures HelperBytes(General(TurnOnParaphonicMode)) == [0xF0, 0x00, 0x20, 0x32, 0x28, 0x7F, 0x0A, 0x0F, 0x01, 0xF7]
    ensures HelperBytes(General(TurnOffParaphonicMode)) == [0xF0, 0x00, 0x20, 0x32, 0x28, 0x7F, 0x0A, 0x0F, 0x00, 0xF7]
  {
  }

  /** The phase-offset builder reuses the shape-order opcode, so the two send the same bytes. */
  lemma PhaseOffsetSendsShapeOrder()
    ensures HelperBytes(Lfo(LfoPhaseOffsetDefault)) == HelperBytes(Lfo(LfoShapeOrderDefault))
  {
  }

  /** Hence the device reads the phase-offset builder as a shape-order entry. */
  lemma PhaseOffsetReadAsShapeOrder()
    ensures ParseNeutronMessage(HelperBytes(Lfo(LfoPhaseOffsetDefault)))
      == Some((SetGlobalSetting(Multicast, LfoShapeOrder(One, Sine)), []))
  {
    var g := LfoShapeOrder(One, Sine);
    assert HelperSetting(Lfo(LfoPhaseOffsetDefault)) == Some(g);
    HelperIsSetCommand(Lfo(LfoPhaseOffsetDefault));
    CodecProperties.MessageRoundTrip(SetGlobalSetting(Multicast, g), []);
    assert MessageBytes(SetGlobalSetting(Multicast, g)) + [] == MessageBytes(SetGlobalSetting(Multicast, g));
  }
}

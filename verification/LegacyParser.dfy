/**
 * The older decoder of the application crate. It shares the value tables, the
 * device-id, version and envelope decoders of the library and differs only in its
 * setting catalogue, which knows 16 of the 30 settings.
 */
module LegacyParser {
  import opened Bytes
  import opened Protocol
  import opened Parser
  import CodecProperties

  /** The older catalogue's opcodes, in its dispatch order. */
  const LegacyOpcodes: seq<Byte> := [
    0x0F, 0x0E, 0x20, 0x21, 0x22, 0x23, 0x26, 0x27, 0x2A, 0x30, 0x37, 0x31, 0x3B, 0x35, 0x39, 0x11]

  /** The 16-entry catalogue decoder. */
  function ParseLegacySetting(input: seq<Byte>): (r: Parsed<GlobalSetting>)
    ensures r.Some? ==> IsOriginalSetting(r.value.0) && input == SettingBytes(r.value.0) + r.value.1
  {
    if |input| == 0 then None
    else
      var rest := input[1..];
      match input[0]
      case 0x0F => MapParsed(ParseToggleOption(rest), t => ParaphonicMode(t))
      case 0x0E => MapParsed(ParseToggleOption(rest), t => OscSync(t))
      case 0x20 => MapParsed(ParseBlendMode(rest), m => Osc1BlendMode(m))
      case 0x21 => MapParsed(ParseBlendMode(rest), m => Osc2BlendMode(m))
      case 0x22 => MapParsed(ParseToggleOption(rest), t => Osc1TunePotBypass(t))
      case 0x23 => MapParsed(ParseToggleOption(rest), t => Osc2TunePotBypass(t))
      case 0x26 => MapParsed(ParseOscRange(rest), o => Osc1Range(o))
      case 0x27 => MapParsed(ParseOscRange(rest), o => Osc2Range(o))
      case 0x2A => MapParsed(ParseKeyTrackMode(rest), k => Osc2KeyTrack(k))
      case 0x30 => MapParsed(ParseBlendMode(rest), m => LfoBlendMode(m))
      case 0x37 => MapParsed(ParseToggleOption(rest), t => LfoKeySync(t))
      case 0x31 => MapParsed(ParseToggleOption(rest), t => LfoOneShot(t))
      case 0x3B => MapParsed(ParseToggleOption(rest), t => LfoRetrigger(t))
      case 0x35 => MapParsed(ParseToggleOption(rest), t => LfoMidiSync(t))
      case 0x39 => if [0x00] <= rest then Some((LfoResetOrder, rest[1..])) else None
      case 0x11 => MapParsed(ParseToggleOption(rest), t => VcfKeyTracking(t))
      case _ => None
  }

  /** The older message decoder: the shared envelope around the 16-entry catalogue. */
  function ParseLegacyMessage(input: seq<Byte>): (r: Parsed<NeutronMessage>)
    ensures r.Some? ==> Decodable(r.value.0) && input == DecodedFrame(r.value.0) + r.value.1
  {
    ParseFrame(ParseLegacySetting, input)
  }

  /** Every legacy setting is read back from its wire form. */
  lemma LegacySettingRoundTrip(g: GlobalSetting, rest: seq<Byte>)
    requires IsOriginalSetting(g)
    ensures ParseLegacySetting(SettingBytes(g) + rest) == Some((g, rest))
  {
    CodecProperties.GlobalSettingRoundTrip(g, rest);
    var input := SettingBytes(g) + rest;
    assert input[0] == Opcode(g) && input[1..] == Payload(g) + rest;
  }

  /** The older catalogue is the full one restricted to the 16 legacy settings. */
  lemma LegacySettingIsRestriction(input: seq<Byte>)
    ensures ParseLegacySetting(input) ==
      (var full := Parser.ParseGlobalSetting(input);
       if full.Some? && IsOriginalSetting(full.value.0) then full else None)
  {
    var full := Parser.ParseGlobalSetting(input);
    var legacy := ParseLegacySetting(input);
    if legacy.Some? {
      LegacySettingRoundTrip(legacy.value.0, legacy.value.1);
      CodecProperties.GlobalSettingRoundTrip(legacy.value.0, legacy.value.1);
    } else if full.Some? && IsOriginalSetting(full.value.0) {
      LegacySettingRoundTrip(full.value.0, full.value.1);
      assert false;
    }
  }

  /** The 16 legacy opcodes are distinct and all belong to the full table. */
  lemma LegacyOpcodeTable()
    ensures |LegacyOpcodes| == 16
    ensures forall i, j :: 0 <= i < j < |LegacyOpcodes| ==> LegacyOpcodes[i] != LegacyOpcodes[j]
    ensures forall i :: 0 <= i < |LegacyOpcodes| ==> LegacyOpcodes[i] in SettingOpcodes
  {
  }

  /** A setting is one of the 16 exactly when its opcode is in the older table. */
  lemma LegacyOpcode(g: GlobalSetting)
    ensures IsOriginalSetting(g) <==> Opcode(g) in LegacyOpcodes
  {
    if IsOriginalSetting(g) {
      OriginalOpcodeListed(g);
    } else {
      ReconstructedOpcodeUnlisted(g);
    }
  }

  /** The opcode of each of the 16 settings is in the older table. */
  lemma OriginalOpcodeListed(g: GlobalSetting)
    requires IsOriginalSetting(g)
    ensures Opcode(g) in LegacyOpcodes
  {
    match g {
      case ParaphonicMode(_) =>
      case OscSync(_) =>
      case Osc1BlendMode(_) =>
      case Osc2BlendMode(_) =>
      case Osc1TunePotBypass(_) =>
      case Osc2TunePotBypass(_) =>
      case Osc1Range(_) =>
      case Osc2Range(_) =>
      case Osc2KeyTrack(_) =>
      case LfoBlendMode(_) =>
      case LfoKeySync(_) =>
      case LfoOneShot(_) =>
      case LfoRetrigger(_) =>
      case LfoMidiSync(_) =>
      case LfoResetOrder =>
      case VcfKeyTracking(_) =>
      case _ =>
    }
  }

  /** The opcode of every other setting is missing from the older table. */
  lemma ReconstructedOpcodeUnlisted(g: GlobalSetting)
    requires !IsOriginalSetting(g)
    ensures Opcode(g) !in LegacyOpcodes
  {
    match g {
      case ParaphonicMode(_) =>
      case OscSync(_) =>
      case Osc1BlendMode(_) =>
      case Osc2BlendMode(_) =>
      case Osc1TunePotBypass(_) =>
      case Osc2TunePotBypass(_) =>
      case Osc1Range(_) =>
      case Osc2Range(_) =>
      case Osc2KeyTrack(_) =>
      case LfoBlendMode(_) =>
      case LfoKeySync(_) =>
      case LfoOneShot(_) =>
      case LfoRetrigger(_) =>
      case LfoMidiSync(_) =>
      case LfoResetOrder =>
      case VcfKeyTracking(_) =>
      case _ =>
    }
  }

  /** Messages whose setting, if any, is one of the 16. */
  predicate UsesLegacySetting(m: NeutronMessage)
  {
    m.SetGlobalSetting? || m.GlobalSettingUpdate? ==> IsOriginalSetting(m.setting)
  }

  /** The older message decoder is the full one restricted to messages with a legacy setting. */
  lemma LegacyMessageIsRestriction(input: seq<Byte>)
    ensures ParseLegacyMessage(input) ==
      (var full := ParseNeutronMessage(input);
       if full.Some? && UsesLegacySetting(full.value.0) then full else None)
  {
    var full := ParseNeutronMessage(input);
    var legacy := ParseLegacyMessage(input);
    if legacy.Some? {
      var (m, rest) := legacy.value;
      CodecProperties.FrameSettingDecoded(ParseLegacySetting, input);
      if m.SetGlobalSetting? || m.GlobalSettingUpdate? {
        CodecProperties.GlobalSettingRoundTrip(m.setting, [SysexEox] + rest);
      }
      CodecProperties.FrameRoundTrip(Parser.ParseGlobalSetting, m, rest);
    } else if full.Some? && UsesLegacySetting(full.value.0) {
      var (m, rest) := full.value;
      if m.SetGlobalSetting? || m.GlobalSettingUpdate? {
        LegacySettingRoundTrip(m.setting, [SysexEox] + rest);
      }
      CodecProperties.FrameRoundTrip(ParseLegacySetting, m, rest);
      assert false;
    }
  }

  /** Round trip of the older decoder: every decodable legacy message not on channel Fifteen. */
  lemma LegacyMessageRoundTrip(m: NeutronMessage, rest: seq<Byte>)
    requires Decodable(m) && UsesLegacySetting(m) && m.id != DeviceId.Channel(15)
    ensures ParseLegacyMessage(MessageBytes(m) + rest) == Some((m, rest))
  {
    CodecProperties.MessageRoundTrip(m, rest);
    LegacyMessageIsRestriction(MessageBytes(m) + rest);
  }

  /** A setting the older catalogue does not know makes the whole frame fail. */
  lemma LegacyRejectsNewSettings(id: DeviceId, g: GlobalSetting, rest: seq<Byte>)
    requires !IsOriginalSetting(g)
    ensures ParseLegacyMessage(MessageBytes(SetGlobalSetting(id, g)) + rest) == None
    ensures ParseLegacyMessage(MessageBytes(GlobalSettingUpdate(id, g)) + rest) == None
  {
    LegacyRejectsNewSetting(SetGlobalSetting(id, g), rest);
    LegacyRejectsNewSetting(GlobalSettingUpdate(id, g), rest);
  }

  /** One message kind at a time: the full decoder reads the message back, with a setting outside the 16. */
  lemma LegacyRejectsNewSetting(m: NeutronMessage, rest: seq<Byte>)
    requires (m.SetGlobalSetting? || m.GlobalSettingUpdate?) && !IsOriginalSetting(m.setting)
    ensures ParseLegacyMessage(MessageBytes(m) + rest) == None
  {
    if m.id == DeviceId.Channel(15) {
      CodecProperties.ChannelFifteenReadAsFourteen(m, rest);
    } else {
      CodecProperties.MessageRoundTrip(m, rest);
    }
    LegacyMessageIsRestriction(MessageBytes(m) + rest);
  }
}

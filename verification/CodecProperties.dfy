/**
 * What the encoder and the decoder promise about each other: every setting and
 * every decodable message survives a round trip, the decoder accepts nothing but
 * encodings, and the channel table's collision is pinned down exactly.
 */
module CodecProperties {
  import opened Bytes
  import opened Protocol
  import opened Parser

  // ---------------------------------------------------------------------------
  // Device addresses
  // ---------------------------------------------------------------------------

  /** Every address byte the decoder accepts is read back as the address it was made from. */
  lemma DeviceIdRoundTrip(id: DeviceId, rest: seq<Byte>)
    ensures ParseDeviceId([AddressByte(id)] + rest) == Some((id, rest))
  {
    MidiChannelByteInjective(if id.Channel? then id.ch else 1, 1);
    assert ([AddressByte(id)] + rest)[1..] == rest;
  }

  /** The encoder's address byte is the one the decoder reads back, for every address but channel Fifteen. */
  lemma AddressBytesAgree(id: DeviceId)
    ensures DeviceIdByte(id) == AddressByte(id) <==> id != DeviceId.Channel(15)
  {
  }

  /** Hence the encoder's frame is the decoder's frame exactly when the address is not channel Fifteen. */
  lemma MessageBytesAreDecodedFrame(m: NeutronMessage)
    ensures MessageBytes(m) == DecodedFrame(m) <==> m.id != DeviceId.Channel(15)
  {
    AddressBytesAgree(m.id);
    if MessageBytes(m) == DecodedFrame(m) {
      assert MessageBytes(m)[5] == DecodedFrame(m)[5];
    }
  }

  // ---------------------------------------------------------------------------
  // The setting catalogue
  // ---------------------------------------------------------------------------

  /** Every setting is decoded back from its wire form, and the bytes after it are left alone. */
  lemma GlobalSettingRoundTrip(g: GlobalSetting, rest: seq<Byte>)
    ensures ParseGlobalSetting(SettingBytes(g) + rest) == Some((g, rest))
  {
    if g.LfoShapeOrder? || g.LfoShapePhase? {
      LfoSlotSettingRoundTrip(g, rest);
    } else {
      if IsOriginalSetting(g) {
        if g.ParaphonicMode? || g.OscSync? || g.Osc1BlendMode? || g.Osc2BlendMode? ||
           g.Osc1TunePotBypass? || g.Osc2TunePotBypass? || g.Osc1Range? || g.Osc2Range? {
          OscillatorSettingRoundTrip(g, rest);
        } else {
          LfoAndFilterSettingRoundTrip(g, rest);
        }
      } else if g.Osc1Autoglide? || g.Osc2Autoglide? || g.LfoDepth? || g.VcfModDepth? || g.VcfModSource? {
        LevelSettingRoundTrip(g, rest);
      } else {
        OptionSettingRoundTrip(g, rest);
      }
    }
  }

  /** The first eight entries of the library's own catalogue: paraphonic mode, sync and the two oscillators. */
  lemma OscillatorSettingRoundTrip(g: GlobalSetting, rest: seq<Byte>)
    requires g.ParaphonicMode? || g.OscSync? || g.Osc1BlendMode? || g.Osc2BlendMode? ||
             g.Osc1TunePotBypass? || g.Osc2TunePotBypass? || g.Osc1Range? || g.Osc2Range?
    ensures ParseGlobalSetting(SettingBytes(g) + rest) == Some((g, rest))
  {
    var input := SettingBytes(g) + rest;
    assert input[0] == Opcode(g) && input[1..] == [Payload(g)[0]] + rest;
  }

  /** The other eight entries of the library's own catalogue: key tracking, the LFO switches and VCF key tracking. */
  lemma LfoAndFilterSettingRoundTrip(g: GlobalSetting, rest: seq<Byte>)
    requires g.Osc2KeyTrack? || g.LfoBlendMode? || g.LfoKeySync? || g.LfoOneShot? ||
             g.LfoRetrigger? || g.LfoMidiSync? || g.LfoResetOrder? || g.VcfKeyTracking?
    ensures ParseGlobalSetting(SettingBytes(g) + rest) == Some((g, rest))
  {
    var input := SettingBytes(g) + rest;
    assert input[0] == Opcode(g) && input[1..] == [Payload(g)[0]] + rest;
  }

  /** Reconstructed entries carrying a level: the autoglide offsets, the two depths and the modulation source. */
  lemma LevelSettingRoundTrip(g: GlobalSetting, rest: seq<Byte>)
    requires g.Osc1Autoglide? || g.Osc2Autoglide? || g.LfoDepth? || g.VcfModDepth? || g.VcfModSource?
    ensures ParseGlobalSetting(SettingBytes(g) + rest) == Some((g, rest))
  {
    var input := SettingBytes(g) + rest;
    assert input[0] == Opcode(g) && input[1..] == [Payload(g)[0]] + rest;
  }

  /** Reconstructed entries of the options page: channel, switches, key-range reset, output and retrigger. */
  lemma OptionSettingRoundTrip(g: GlobalSetting, rest: seq<Byte>)
    requires g.MidiChannel? || g.DisableMidiDips? || g.PolyChainMode? || g.KeyRangeMute? ||
             g.KeyRangeReset? || g.AssignOut? || g.EnvRetriggerMode?
    ensures ParseGlobalSetting(SettingBytes(g) + rest) == Some((g, rest))
  {
    var input := SettingBytes(g) + rest;
    assert input[0] == Opcode(g) && input[1..] == [Payload(g)[0]] + rest;
    if g.MidiChannel? {
      var r := ParseChannel(input[1..]);
      MidiChannelByteInjective(g.channel, r.value.0);
    }
  }

  /** The two entries with an LFO slot: the slot byte comes first, then the shape or the phase. */
  lemma LfoSlotSettingRoundTrip(g: GlobalSetting, rest: seq<Byte>)
    requires g.LfoShapeOrder? || g.LfoShapePhase?
    ensures ParseGlobalSetting(SettingBytes(g) + rest) == Some((g, rest))
  {
    var input := SettingBytes(g) + rest;
    var payload := Payload(g) + rest;
    assert input[0] == Opcode(g) && input[1..] == payload;
    assert payload == [Payload(g)[0]] + ([Payload(g)[1]] + rest);
  }

  /** No setting's wire form is a prefix of another's: the framing of the catalogue is unambiguous. */
  lemma SettingBytesPrefixFree(g1: GlobalSetting, rest1: seq<Byte>, g2: GlobalSetting, rest2: seq<Byte>)
    requires SettingBytes(g1) + rest1 == SettingBytes(g2) + rest2
    ensures g1 == g2 && rest1 == rest2
  {
    GlobalSettingRoundTrip(g1, rest1);
    GlobalSettingRoundTrip(g2, rest2);
  }

  /** The catalogue decoder dispatches on 30 distinct opcodes, one per setting. */
  lemma OpcodeTable()
    ensures |SettingOpcodes| == 30
    ensures forall i, j :: 0 <= i < j < |SettingOpcodes| ==> SettingOpcodes[i] != SettingOpcodes[j]
  {
  }

  /** Every setting's opcode is one the decoder dispatches on. */
  lemma OpcodeListed(g: GlobalSetting)
    ensures Opcode(g) in SettingOpcodes
  {
  }

  /** The opcodes of the builders that have no catalogue entry are indeed outside the catalogue. */
  lemma OpcodesOutsideCatalogue()
    ensures forall i :: 0 <= i < |SettingOpcodes| ==> SettingOpcodes[i] !in {0x01, 0x03, 0x0C, 0x0D, 0x10, 0x28, 0x32}
  {
  }

  /** An opcode outside the table is rejected whatever follows it. */
  lemma UnknownOpcodeRejected(input: seq<Byte>)
    requires |input| > 0 && input[0] !in SettingOpcodes
    ensures ParseGlobalSetting(input) == None
  {
  }

  /** The two parameterless settings carry a placeholder byte that must be exactly zero. */
  lemma PlaceholderMustBeZero(op: Byte, b: Byte, rest: seq<Byte>)
    requires op == 0x39 || op == 0x06
    ensures ParseGlobalSetting([op, b] + rest).Some? <==> b == 0x00
  {
    var input := [op, b] + rest;
    assert input[0] == op && input[1..] == [b] + rest;
  }

  /** The LFO shape entry is index first, then shape: `38 01 04` puts RisingSaw in the second slot. */
  lemma ShapeOrderFieldOrder(rest: seq<Byte>)
    ensures ParseGlobalSetting([0x38, 0x01, 0x04] + rest) == Some((LfoShapeOrder(Two, RisingSaw), rest))
  {
    GlobalSettingRoundTrip(LfoShapeOrder(Two, RisingSaw), rest);
  }

  // ---------------------------------------------------------------------------
  // Messages
  // ---------------------------------------------------------------------------

  /** A non-empty version without a terminator byte is read up to the terminator. */
  lemma VersionRoundTrip(v: seq<Byte>, rest: seq<Byte>)
    requires |v| > 0 && SysexEox !in v
    ensures ParseVersion(v + [SysexEox] + rest) == Some((v, [SysexEox] + rest))
  {
    var input := v + [SysexEox] + rest;
    var n := NonEoxRun(input);
    assert input[|v|] == SysexEox;
    assert n == |v|;
    assert input[..n] == v && input[n..] == [SysexEox] + rest;
  }

  /** The version-response branch of the addressed body. */
  lemma VersionBodyRoundTrip(setting: seq<Byte> -> Parsed<GlobalSetting>, id: DeviceId, v: seq<Byte>, rest: seq<Byte>)
    requires SoundSettingDecoder(setting) && |v| > 0 && SysexEox !in v
    ensures ParseAddressedBody(setting, [AddressByte(id)] + ([0x74, CommsProtocolV1] + v + ([SysexEox] + rest)))
      == Some((SoftwareVersionResponse(id, v), [SysexEox] + rest))
  {
    var afterId := [0x74, CommsProtocolV1] + v + ([SysexEox] + rest);
    DeviceIdRoundTrip(id, afterId);
    assert afterId[0] == 0x74 && afterId[1] == CommsProtocolV1;
    assert !([0x0A] <= afterId) && !([0x0B] <= afterId) && !([0x73] <= afterId);
    assert [0x74, CommsProtocolV1] <= afterId;
    VersionAfterKind(v, rest);
  }

  /** The version decoder reads the bytes after the response's kind. */
  lemma VersionAfterKind(v: seq<Byte>, rest: seq<Byte>)
    requires |v| > 0 && SysexEox !in v
    ensures ParseVersion(([0x74, CommsProtocolV1] + v + ([SysexEox] + rest))[2..]) == Some((v, [SysexEox] + rest))
  {
    assert ([0x74, CommsProtocolV1] + v + ([SysexEox] + rest))[2..] == v + [SysexEox] + rest;
    VersionRoundTrip(v, rest);
  }

  /** The "set" branch of the addressed body reads back its address and setting. */
  lemma SetBodyRoundTrip(setting: seq<Byte> -> Parsed<GlobalSetting>, id: DeviceId, g: GlobalSetting, tail: seq<Byte>)
    requires SoundSettingDecoder(setting) && setting(SettingBytes(g) + tail) == Some((g, tail))
    ensures ParseAddressedBody(setting, [AddressByte(id)] + ([0x0A] + (SettingBytes(g) + tail)))
      == Some((SetGlobalSetting(id, g), tail))
  {
    var afterId := [0x0A] + (SettingBytes(g) + tail);
    DeviceIdRoundTrip(id, afterId);
    assert [0x0A] <= afterId && afterId[1..] == SettingBytes(g) + tail;
  }

  /** The "update" branch of the addressed body reads back its address and setting. */
  lemma UpdateBodyRoundTrip(setting: seq<Byte> -> Parsed<GlobalSetting>, id: DeviceId, g: GlobalSetting, tail: seq<Byte>)
    requires SoundSettingDecoder(setting) && setting(SettingBytes(g) + tail) == Some((g, tail))
    ensures ParseAddressedBody(setting, [AddressByte(id)] + ([0x5A, CommsProtocolV1] + (SettingBytes(g) + tail)))
      == Some((GlobalSettingUpdate(id, g), tail))
  {
    var afterId := [0x5A, CommsProtocolV1] + (SettingBytes(g) + tail);
    DeviceIdRoundTrip(id, afterId);
    assert afterId[0] == 0x5A && afterId[..2] == [0x5A, CommsProtocolV1];
    assert afterId[2..] == SettingBytes(g) + tail;
  }

  /** The one-byte kinds without a body, restore (`0B`) and version request (`73`), read back their address. */
  lemma BareBodyRoundTrip(setting: seq<Byte> -> Parsed<GlobalSetting>, m: NeutronMessage, tail: seq<Byte>)
    requires SoundSettingDecoder(setting) && (m.RestoreGlobalSetting? || m.SoftwareVersionRequest?)
    ensures ParseAddressedBody(setting, [AddressByte(m.id)] + (KindBytes(m) + tail)) == Some((m, tail))
  {
    var afterId := KindBytes(m) + tail;
    DeviceIdRoundTrip(m.id, afterId);
    assert afterId[0] == KindBytes(m)[0] && afterId[1..] == tail;
  }

  /** After the header: the address, the kind bytes and the body are read back, up to the terminator. */
  lemma AddressedBodyRoundTrip(setting: seq<Byte> -> Parsed<GlobalSetting>, m: NeutronMessage, rest: seq<Byte>)
    requires SoundSettingDecoder(setting) && Decodable(m)
    requires m.SetGlobalSetting? || m.GlobalSettingUpdate? ==>
      setting(SettingBytes(m.setting) + ([SysexEox] + rest)) == Some((m.setting, [SysexEox] + rest))
    ensures ParseAddressedBody(setting, [AddressByte(m.id)] + (KindBytes(m) + Body(m) + ([SysexEox] + rest)))
      == Some((m, [SysexEox] + rest))
  {
    var tail := [SysexEox] + rest;
    var afterId := KindBytes(m) + Body(m) + tail;
    match m {
      case SetGlobalSetting(id, g) =>
        assert afterId == [0x0A] + (SettingBytes(g) + tail);
        SetBodyRoundTrip(setting, id, g, tail);
      case GlobalSettingUpdate(id, g) =>
        assert afterId == [0x5A, CommsProtocolV1] + (SettingBytes(g) + tail);
        UpdateBodyRoundTrip(setting, id, g, tail);
      case SoftwareVersionResponse(id, v) =>
        VersionBodyRoundTrip(setting, id, v, rest);
      case RestoreGlobalSetting(_) =>
        assert afterId == KindBytes(m) + tail;
        BareBodyRoundTrip(setting, m, tail);
      case SoftwareVersionRequest(_) =>
        assert afterId == KindBytes(m) + tail;
        BareBodyRoundTrip(setting, m, tail);
    }
  }

  /**
   * The envelope decoder, given a setting decoder that reads back the message's
   * setting, reads back every decodable message from the frame it expects.
   */
  lemma FrameRoundTrip(setting: seq<Byte> -> Parsed<GlobalSetting>, m: NeutronMessage, rest: seq<Byte>)
    requires SoundSettingDecoder(setting) && Decodable(m)
    requires m.SetGlobalSetting? || m.GlobalSettingUpdate? ==>
      setting(SettingBytes(m.setting) + ([SysexEox] + rest)) == Some((m.setting, [SysexEox] + rest))
    ensures ParseFrame(setting, DecodedFrame(m) + rest) == Some((m, rest))
  {
    var afterHeader := [AddressByte(m.id)] + (KindBytes(m) + Body(m) + ([SysexEox] + rest));
    FrameLayout(m, rest);
    assert Tag(NeutronMessageHeader, DecodedFrame(m) + rest) == Some(afterHeader);
    AddressedBodyRoundTrip(setting, m, rest);
    assert Tag([SysexEox], [SysexEox] + rest) == Some(rest);
  }

  /** A frame followed by more bytes, regrouped as the decoder reads it: header, then everything after it. */
  lemma FrameLayout(m: NeutronMessage, rest: seq<Byte>)
    ensures DecodedFrame(m) + rest
      == NeutronMessageHeader + ([AddressByte(m.id)] + (KindBytes(m) + Body(m) + ([SysexEox] + rest)))
  {
  }

  /** A setting inside a decoded frame is one the setting decoder accepted, right up to the terminator. */
  lemma FrameSettingDecoded(setting: seq<Byte> -> Parsed<GlobalSetting>, input: seq<Byte>)
    requires SoundSettingDecoder(setting) && ParseFrame(setting, input).Some?
    ensures var (m, rest) := ParseFrame(setting, input).value;
      m.SetGlobalSetting? || m.GlobalSettingUpdate? ==>
        setting(SettingBytes(m.setting) + ([SysexEox] + rest)) == Some((m.setting, [SysexEox] + rest))
  {
    var afterHeader := Tag(NeutronMessageHeader, input).value;
    var (m, afterBody) := ParseAddressedBody(setting, afterHeader).value;
    var rest := Tag([SysexEox], afterBody).value;
    assert ParseFrame(setting, input) == Some((m, rest));
    assert afterBody == [SysexEox] + rest;
  }

  /** Every decodable message not addressed to channel Fifteen is read back from its encoding. */
  lemma MessageRoundTrip(m: NeutronMessage, rest: seq<Byte>)
    requires Decodable(m) && m.id != DeviceId.Channel(15)
    ensures ParseNeutronMessage(MessageBytes(m) + rest) == Some((m, rest))
  {
    MessageBytesAreDecodedFrame(m);
    if m.SetGlobalSetting? || m.GlobalSettingUpdate? {
      GlobalSettingRoundTrip(m.setting, [SysexEox] + rest);
    }
    FrameRoundTrip(ParseGlobalSetting, m, rest);
  }

  /** The round trip holds for exactly those messages, in both directions. */
  lemma MessageRoundTripExactly(m: NeutronMessage, rest: seq<Byte>)
    ensures ParseNeutronMessage(MessageBytes(m) + rest) == Some((m, rest)) <==>
      Decodable(m) && m.id != DeviceId.Channel(15)
  {
    if Decodable(m) && m.id != DeviceId.Channel(15) {
      MessageRoundTrip(m, rest);
    } else if Decodable(m) && ParseNeutronMessage(MessageBytes(m) + rest) == Some((m, rest)) {
      assert false;
    }
  }

  /** A message for channel Fifteen goes out with channel Fourteen's byte and comes back addressed to Fourteen. */
  lemma ChannelFifteenReadAsFourteen(m: NeutronMessage, rest: seq<Byte>)
    requires Decodable(m) && m.id == DeviceId.Channel(15)
    ensures ParseNeutronMessage(MessageBytes(m) + rest) == Some((m.(id := DeviceId.Channel(14)), rest))
  {
    var m' := m.(id := DeviceId.Channel(14));
    assert DeviceIdByte(m.id) == DeviceIdByte(m'.id);
    assert KindBytes(m) == KindBytes(m') && Body(m) == Body(m');
    assert MessageBytes(m) == MessageBytes(m');
    MessageRoundTrip(m', rest);
  }

  /** The decoder accepts only encodings: whatever it returns, the input was that message's frame. */
  lemma ParsedIsEncoding(input: seq<Byte>)
    requires ParseNeutronMessage(input).Some?
    ensures var (m, rest) := ParseNeutronMessage(input).value;
      Decodable(m) &&
      (m.id != DeviceId.Channel(15) ==> input == MessageBytes(m) + rest) &&
      (m.id == DeviceId.Channel(15) ==> input == MessageBytes(m)[5 := 0x0E] + rest)
  {
    var (m, rest) := ParseNeutronMessage(input).value;
    if m.id == DeviceId.Channel(15) {
      FifteenFrameDiffersAtAddress(m);
    } else {
      MessageBytesAreDecodedFrame(m);
    }
  }

  /** For channel Fifteen the decoder's frame is the encoder's with the address byte `0D` replaced by `0E`. */
  lemma FifteenFrameDiffersAtAddress(m: NeutronMessage)
    requires m.id == DeviceId.Channel(15)
    ensures DecodedFrame(m) == MessageBytes(m)[5 := 0x0E]
  {
    assert AddressByte(m.id) == 0x0E;
    AddressReplaced(NeutronMessageHeader, DeviceIdByte(m.id), AddressByte(m.id), KindBytes(m), Body(m));
  }

  /** Replacing the byte right after a five-byte header of a frame. */
  lemma AddressReplaced(header: seq<Byte>, a: Byte, b: Byte, kind: seq<Byte>, body: seq<Byte>)
    requires |header| == 5
    ensures (header + [a] + kind + body + [SysexEox])[5 := b] == header + [b] + kind + body + [SysexEox]
  {
  }

  /** A multicast "set" frame whose opcode is outside the catalogue is rejected. */
  lemma UnknownSettingFrameRejected(p: seq<Byte>)
    requires |p| > 0 && p[0] !in SettingOpcodes
    ensures ParseNeutronMessage(Wrapped(p)) == None
  {
    var input := Wrapped(p);
    if ParseNeutronMessage(input).Some? {
      var m := ParseNeutronMessage(input).value.0;
      assert input[6] == 0x0A && input[7] == p[0];
      assert DecodedFrame(m)[6] == KindBytes(m)[0];
      OpcodeListed(if m.SetGlobalSetting? then m.setting else LfoResetOrder);
      assert false;
    }
  }

  /** The calibration command is encoded but no frame decodes to it, and its own frame is rejected. */
  lemma CalibrationNotDecoded(id: DeviceId, rest: seq<Byte>)
    ensures ParseNeutronMessage(MessageBytes(CalibrationModeCommand(id)) + rest) == None
  {
  }

  /** The vendor app's periodic request (kind byte `05`) is not a message this decoder knows. */
  lemma RequestStateNotDecoded(rest: seq<Byte>)
    ensures ParseNeutronMessage(RequestStateFrame + rest) == None
  {
  }

  // ---------------------------------------------------------------------------
  // Concrete frames
  // ---------------------------------------------------------------------------

  /** Paraphonic mode on, multicast. */
  lemma ParaphonicOnFrame()
    ensures ParseNeutronMessage([0xF0, 0x00, 0x20, 0x32, 0x28, 0x7F, 0x0A, 0x0F, 0x01, 0xF7])
      == Some((SetGlobalSetting(Multicast, ParaphonicMode(On)), []))
  {
    var m := SetGlobalSetting(Multicast, ParaphonicMode(On));
    assert MessageBytes(m) + [] == [0xF0, 0x00, 0x20, 0x32, 0x28, 0x7F, 0x0A, 0x0F, 0x01, 0xF7];
    MessageRoundTrip(m, []);
  }

  /** The acknowledgement a device on channel One sends after a setting change. */
  lemma AcknowledgementFrame()
    ensures ParseNeutronMessage([0xF0, 0x00, 0x20, 0x32, 0x28, 0x00, 0x5A, 0x01, 0x0F, 0x01, 0xF7])
      == Some((GlobalSettingUpdate(DeviceId.Channel(1), ParaphonicMode(On)), []))
  {
    var m := GlobalSettingUpdate(DeviceId.Channel(1), ParaphonicMode(On));
    assert MessageBytes(m) + [] == [0xF0, 0x00, 0x20, 0x32, 0x28, 0x00, 0x5A, 0x01, 0x0F, 0x01, 0xF7];
    MessageRoundTrip(m, []);
  }

  /** A version response carrying "1.2.3", followed by the start of another frame. */
  lemma VersionResponseFrame()
    ensures ParseNeutronMessage([0xF0, 0x00, 0x20, 0x32, 0x28, 0x7F, 0x74, 0x01, 0x31, 0x2E, 0x32, 0x2E, 0x33, 0xF7, 0xF0])
      == Some((SoftwareVersionResponse(Multicast, [0x31, 0x2E, 0x32, 0x2E, 0x33]), [0xF0]))
  {
    var m := SoftwareVersionResponse(Multicast, [0x31, 0x2E, 0x32, 0x2E, 0x33]);
    assert MessageBytes(m) + [0xF0] == [0xF0, 0x00, 0x20, 0x32, 0x28, 0x7F, 0x74, 0x01, 0x31, 0x2E, 0x32, 0x2E, 0x33, 0xF7, 0xF0];
    MessageRoundTrip(m, [0xF0]);
  }
}

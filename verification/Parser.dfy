/**
 * Decoders for the Neutron SysEx dialect. Every decoder takes the input bytes and
 * yields the decoded value together with the bytes it did not consume, or fails.
 * All failures of the combinator library (recoverable or committed) are `None`.
 */
module Parser {
  import opened Bytes
  import opened Protocol

  /** A decoded value and the remainder of the input, or a failure. */
  type Parsed<T> = Option<(T, seq<Byte>)>

  /** Applies `f` to a decoded value, keeping the remainder. */
  function MapParsed<A, B>(r: Parsed<A>, f: A -> B): Parsed<B>
  {
    match r
    case None => None
    case Some((a, rest)) => Some((f(a), rest))
  }

  // ---------------------------------------------------------------------------
  // Value decoders: each accepts exactly the bytes of its table and consumes one byte
  // ---------------------------------------------------------------------------

  function ParseToggleOption(input: seq<Byte>): (r: Parsed<ToggleOption>)
    ensures r.Some? <==> |input| > 0 && input[0] <= 0x01
    ensures r.Some? ==> input == [ToggleOptionByte(r.value.0)] + r.value.1
  {
    if |input| == 0 then None
    else match input[0]
      case 0x01 => Some((ToggleOption.On, input[1..]))
      case 0x00 => Some((ToggleOption.Off, input[1..]))
      case _ => None
  }

  /** Any single byte is a percent level; its range is not checked. */
  function ParsePercent(input: seq<Byte>): (r: Parsed<Percent>)
    ensures r.Some? <==> |input| > 0
    ensures r.Some? ==> input == [PercentByte(r.value.0)] + r.value.1
  {
    if |input| == 0 then None else Some((FromByte(input[0]), input[1..]))
  }

  function ParseBlendMode(input: seq<Byte>): (r: Parsed<BlendMode>)
    ensures r.Some? <==> |input| > 0 && input[0] <= 0x01
    ensures r.Some? ==> input == [BlendModeByte(r.value.0)] + r.value.1
  {
    if |input| == 0 then None
    else match input[0]
      case 0x01 => Some((Switch, input[1..]))
      case 0x00 => Some((Blend, input[1..]))
      case _ => None
  }

  function ParseRetriggerMode(input: seq<Byte>): (r: Parsed<RetriggerMode>)
    ensures r.Some? <==> |input| > 0 && input[0] <= 0x01
    ensures r.Some? ==> input == [RetriggerModeByte(r.value.0)] + r.value.1
  {
    if |input| == 0 then None
    else match input[0]
      case 0x01 => Some((Legato, input[1..]))
      case 0x00 => Some((Staccato, input[1..]))
      case _ => None
  }

  function ParseOscRange(input: seq<Byte>): (r: Parsed<OscRange>)
    ensures r.Some? <==> |input| > 0 && input[0] <= 0x03
    ensures r.Some? ==> input == [OscRangeByte(r.value.0)] + r.value.1
  {
    if |input| == 0 then None
    else match input[0]
      case 0x00 => Some((ThirtyTwo, input[1..]))
      case 0x01 => Some((Sixteen, input[1..]))
      case 0x02 => Some((Eight, input[1..]))
      case 0x03 => Some((PlusMinusTen, input[1..]))
      case _ => None
  }

  /** Bytes 0x00 .. 0x18 are the offsets -12 .. +12 in order. */
  function ParseAutoglideSemitones(input: seq<Byte>): (r: Parsed<AutoglideSemitones>)
    ensures r.Some? <==> |input| > 0 && input[0] <= 0x18
    ensures r.Some? ==> input == [AutoglideSemitonesByte(r.value.0)] + r.value.1
  {
    if |input| > 0 && input[0] <= 0x18 then
      var semitones: AutoglideSemitones := input[0] as int - 12;
      Some((semitones, input[1..]))
    else None
  }

  function ParseKeyTrackMode(input: seq<Byte>): (r: Parsed<KeyTrackMode>)
    ensures r.Some? <==> |input| > 0 && input[0] <= 0x01
    ensures r.Some? ==> input == [KeyTrackModeByte(r.value.0)] + r.value.1
  {
    if |input| == 0 then None
    else match input[0]
      case 0x01 => Some((Hold, input[1..]))
      case 0x00 => Some((Track, input[1..]))
      case _ => None
  }

  function ParseLfoIndex(input: seq<Byte>): (r: Parsed<LfoIndex>)
    ensures r.Some? <==> |input| > 0 && input[0] <= 0x04
    ensures r.Some? ==> input == [LfoIndexByte(r.value.0)] + r.value.1
  {
    if |input| == 0 then None
    else match input[0]
      case 0x00 => Some((One, input[1..]))
      case 0x01 => Some((Two, input[1..]))
      case 0x02 => Some((Three, input[1..]))
      case 0x03 => Some((Four, input[1..]))
      case 0x04 => Some((Five, input[1..]))
      case _ => None
  }

  function ParseLfoShape(input: seq<Byte>): (r: Parsed<LfoShape>)
    ensures r.Some? <==> |input| > 0 && input[0] <= 0x04
    ensures r.Some? ==> input == [LfoShapeByte(r.value.0)] + r.value.1
  {
    if |input| == 0 then None
    else match input[0]
      case 0x00 => Some((Sine, input[1..]))
      case 0x01 => Some((Triangle, input[1..]))
      case 0x02 => Some((FallingSaw, input[1..]))
      case 0x03 => Some((Square, input[1..]))
      case 0x04 => Some((RisingSaw, input[1..]))
      case _ => None
  }

  function ParseLfoPhaseOffset(input: seq<Byte>): (r: Parsed<LfoPhaseOffset>)
    ensures r.Some? <==> |input| > 0 && input[0] <= 0x07
    ensures r.Some? ==> input == [LfoPhaseOffsetByte(r.value.0)] + r.value.1
  {
    if |input| == 0 then None
    else match input[0]
      case 0x00 => Some((Zero, input[1..]))
      case 0x01 => Some((FourtyFive, input[1..]))
      case 0x02 => Some((Ninety, input[1..]))
      case 0x03 => Some((HundredThirtyFive, input[1..]))
      case 0x04 => Some((HundredEighty, input[1..]))
      case 0x05 => Some((TwoHundredTwentyFive, input[1..]))
      case 0x06 => Some((TwoHundredSeventy, input[1..]))
      case 0x07 => Some((ThreeHundredFifteen, input[1..]))
      case _ => None
  }

  function ParseModSource(input: seq<Byte>): (r: Parsed<ModSource>)
    ensures r.Some? <==> |input| > 0 && input[0] <= 0x03
    ensures r.Some? ==> input == [ModSourceByte(r.value.0)] + r.value.1
  {
    if |input| == 0 then None
    else match input[0]
      case 0x00 => Some((ModSource.Off, input[1..]))
      case 0x01 => Some((ModSource.AfterTouch, input[1..]))
      case 0x02 => Some((ModSource.ModWheel, input[1..]))
      case 0x03 => Some((ModSource.Velocity, input[1..]))
      case _ => None
  }

  function ParseAssignOutOption(input: seq<Byte>): (r: Parsed<AssignOutOption>)
    ensures r.Some? <==> |input| > 0 && input[0] <= 0x04
    ensures r.Some? ==> input == [AssignOutOptionByte(r.value.0)] + r.value.1
  {
    if |input| == 0 then None
    else match input[0]
      case 0x00 => Some((Osc1, input[1..]))
      case 0x01 => Some((Osc2, input[1..]))
      case 0x02 => Some((AssignOutOption.Velocity, input[1..]))
      case 0x03 => Some((AssignOutOption.ModWheel, input[1..]))
      case 0x04 => Some((AssignOutOption.AfterTouch, input[1..]))
      case _ => None
  }

  /** Bytes 0x00 .. 0x0f are channels One .. Sixteen. */
  function ParseChannel(input: seq<Byte>): (r: Parsed<Channel>)
    ensures r.Some? <==> |input| > 0 && input[0] <= 0x0F
    ensures r.Some? ==> input == [MidiChannelByte(r.value.0)] + r.value.1
  {
    if |input| > 0 && input[0] <= 0x0F then Some((input[0] + 1, input[1..])) else None
  }

  /** `7F` is the multicast address; otherwise the byte must be a channel. */
  function ParseDeviceId(input: seq<Byte>): (r: Parsed<DeviceId>)
    ensures r.Some? <==> |input| > 0 && (input[0] == 0x7F || input[0] <= 0x0F)
    ensures r.Some? ==> r.value.1 == input[1..] && (r.value.0.Multicast? <==> input[0] == 0x7F)
    ensures r.Some? && r.value.0.Channel? ==> MidiChannelByte(r.value.0.ch) == input[0]
  {
    if |input| > 0 && input[0] == 0x7F then Some((Multicast, input[1..]))
    else MapParsed(ParseChannel(input), c => DeviceId.Channel(c))
  }

  // ---------------------------------------------------------------------------
  // Global-setting catalogue
  // ---------------------------------------------------------------------------

  /** The 30 opcodes the catalogue decoder dispatches on, in the decoder's order. */
  const SettingOpcodes: seq<Byte> := [
    0x0F, 0x0E, 0x20, 0x21, 0x22, 0x23, 0x26, 0x27, 0x2A, 0x30, 0x37, 0x31, 0x3B, 0x35, 0x34,
    0x39, 0x11, 0x14, 0x00, 0x0A, 0x08, 0x24, 0x25, 0x0B, 0x06, 0x38, 0x3A, 0x12, 0x04, 0x05]

  /** Decodes one catalogue entry: the opcode selects the variant and its payload decoder. */
  function ParseGlobalSetting(input: seq<Byte>): (r: Parsed<GlobalSetting>)
    ensures r.Some? ==> input == SettingBytes(r.value.0) + r.value.1
  {
    if |input| == 0 then None
    else
      var rest := input[1..];
      match input[0]
      case 0x0F => MapParsed(ParseToggleOption(rest), t => ParaphonicMode(t))
      case 0x0E => MapParsed(ParseToggleOption(rest), t => OscSync(t))
      case 0x20 => MapParsed(ParseBlendMode(rest), m => Osc1BlendMode(m))
      case 0x21 => MapParsed(ParseBlendMode(rest), m => Osc2BlendMode(m))
      case 0x22 => MapParsed(ParseToggleOption(rest), t => Osc1TunePotBypass(t))
      case 0x23 => MapParsed(ParseToggleOption(rest), t => Osc2TunePotBypass(t))
      case 0x26 => MapParsed(ParseOscRange(rest), o => Osc1Range(o))
      case 0x27 => MapParsed(ParseOscRange(rest), o => Osc2Range(o))
      case 0x2A => MapParsed(ParseKeyTrackMode(rest), k => Osc2KeyTrack(k))
      case 0x30 => MapParsed(ParseBlendMode(rest), m => LfoBlendMode(m))
      case 0x37 => MapParsed(ParseToggleOption(rest), t => LfoKeySync(t))
      case 0x31 => MapParsed(ParseToggleOption(rest), t => LfoOneShot(t))
      case 0x3B => MapParsed(ParseToggleOption(rest), t => LfoRetrigger(t))
      case 0x35 => MapParsed(ParseToggleOption(rest), t => LfoMidiSync(t))
      case 0x34 => MapParsed(ParsePercent(rest), p => LfoDepth(p))
      case 0x39 => if [0x00] <= rest then Some((LfoResetOrder, rest[1..])) else None
      case 0x11 => MapParsed(ParseToggleOption(rest), t => VcfKeyTracking(t))
      case 0x14 => MapParsed(ParsePercent(rest), p => VcfModDepth(p))
      case 0x00 => MapParsed(ParseChannel(rest), c => MidiChannel(c))
      case 0x0A => MapParsed(ParseToggleOption(rest), t => DisableMidiDips(t))
      case 0x08 => MapParsed(ParseToggleOption(rest), t => PolyChainMode(t))
      case 0x24 => MapParsed(ParseAutoglideSemitones(rest), s => Osc1Autoglide(s))
      case 0x25 => MapParsed(ParseAutoglideSemitones(rest), s => Osc2Autoglide(s))
      case 0x0B => MapParsed(ParseToggleOption(rest), t => KeyRangeMute(t))
      case 0x06 => if [0x00] <= rest then Some((KeyRangeReset, rest[1..])) else None
      case 0x38 =>
        (match ParseLfoIndex(rest)
         case None => None
         case Some((i, afterIndex)) => MapParsed(ParseLfoShape(afterIndex), s => LfoShapeOrder(i, s)))
      case 0x3A =>
        (match ParseLfoIndex(rest)
         case None => None
         case Some((i, afterIndex)) => MapParsed(ParseLfoPhaseOffset(afterIndex), o => LfoShapePhase(i, o)))
      case 0x12 => MapParsed(ParseModSource(rest), s => VcfModSource(s))
      case 0x04 => MapParsed(ParseAssignOutOption(rest), o => AssignOut(o))
      case 0x05 => MapParsed(ParseRetriggerMode(rest), m => EnvRetriggerMode(m))
      case _ => None
  }

  // ---------------------------------------------------------------------------
  // Message envelope
  // ---------------------------------------------------------------------------

  /** The length of the longest prefix of `input` that holds no terminator byte. */
  function NonEoxRun(input: seq<Byte>): (n: nat)
    ensures n <= |input|
    ensures forall k :: 0 <= k < n ==> input[k] != SysexEox
    ensures n < |input| ==> input[n] == SysexEox
  {
    if input == [] || input[0] == SysexEox then 0 else 1 + NonEoxRun(input[1..])
  }

  /** A version string is a non-empty run of bytes up to (not including) the terminator. */
  function ParseVersion(input: seq<Byte>): (r: Parsed<seq<Byte>>)
    ensures r.Some? <==> |input| > 0 && input[0] != SysexEox
    ensures r.Some? ==> input == r.value.0 + r.value.1 && SysexEox !in r.value.0
    ensures r.Some? ==> r.value.1 == [] || r.value.1[0] == SysexEox
  {
    var n := NonEoxRun(input);
    if n == 0 then None else Some((input[..n], input[n..]))
  }

  /** The address byte the device-id decoder reads back as `id`: channel n is byte n - 1. */
  function AddressByte(id: DeviceId): (b: Byte)
    ensures (b == 0x7F) == id.Multicast?
    ensures id.Channel? ==> b == MidiChannelByte(id.ch)
  {
    match id
    case Channel(c) => MidiChannelByte(c)
    case Multicast => 0x7F
  }

  /** A setting decoder that only accepts the wire form of what it returns. */
  ghost predicate SoundSettingDecoder(setting: seq<Byte> -> Parsed<GlobalSetting>)
  {
    forall s :: setting(s).Some? ==> s == SettingBytes(setting(s).value.0) + setting(s).value.1
  }

  /** The messages a frame can decode to: calibration has no decoder branch, versions are non-empty and unterminated. */
  predicate Decodable(m: NeutronMessage)
  {
    !m.CalibrationModeCommand? &&
    (m.SoftwareVersionResponse? ==> |m.version| > 0 && SysexEox !in m.version)
  }

  /** The frame the decoder reads back as `m`. */
  function DecodedFrame(m: NeutronMessage): seq<Byte>
  {
    NeutronMessageHeader + [AddressByte(m.id)] + KindBytes(m) + Body(m) + [SysexEox]
  }

  /**
   * The device id, the kind bytes and what the kind carries. The combinator
   * version re-reads the device id in each alternative; the device-id decoder is
   * deterministic and the kind bytes of the alternatives exclude each other, so
   * reading it once and dispatching on the kind is the same function.
   */
  function ParseAddressedBody(setting: seq<Byte> -> Parsed<GlobalSetting>, input: seq<Byte>): (r: Parsed<NeutronMessage>)
    requires SoundSettingDecoder(setting)
    ensures r.Some? ==> Decodable(r.value.0)
    ensures r.Some? ==> input == [AddressByte(r.value.0.id)] + KindBytes(r.value.0) + Body(r.value.0) + r.value.1
    ensures r.Some? && (r.value.0.SetGlobalSetting? || r.value.0.GlobalSettingUpdate?) ==>
      setting(SettingBytes(r.value.0.setting) + r.value.1) == Some((r.value.0.setting, r.value.1))
  {
    match ParseDeviceId(input)
    case None => None
    case Some((id, afterId)) =>
      if [0x0A] <= afterId then MapParsed(setting(afterId[1..]), g => SetGlobalSetting(id, g))
      else if [0x0B] <= afterId then Some((RestoreGlobalSetting(id), afterId[1..]))
      else if [0x73] <= afterId then Some((SoftwareVersionRequest(id), afterId[1..]))
      else if [0x74, CommsProtocolV1] <= afterId then
        MapParsed(ParseVersion(afterId[2..]), v => SoftwareVersionResponse(id, v))
      else if [0x5A, CommsProtocolV1] <= afterId then
        MapParsed(setting(afterId[2..]), g => GlobalSettingUpdate(id, g))
      else None
  }

  /** Header, addressed body, terminator; the bytes after the terminator are the remainder. */
  function ParseFrame(setting: seq<Byte> -> Parsed<GlobalSetting>, input: seq<Byte>): (r: Parsed<NeutronMessage>)
    requires SoundSettingDecoder(setting)
    ensures r.Some? ==> Decodable(r.value.0)
    ensures r.Some? ==> input == DecodedFrame(r.value.0) + r.value.1
  {
    match Tag(NeutronMessageHeader, input)
    case None => None
    case Some(afterHeader) =>
      match ParseAddressedBody(setting, afterHeader)
      case None => None
      case Some((m, afterBody)) =>
        match Tag([SysexEox], afterBody)
        case None => None
        case Some(rest) =>
          FrameJoined(m, input, afterHeader, afterBody, rest);
          Some((m, rest))
  }

  /** The pieces the frame decoder takes off, put back together, are the decoded frame. */
  lemma FrameJoined(m: NeutronMessage, input: seq<Byte>, afterHeader: seq<Byte>, afterBody: seq<Byte>, rest: seq<Byte>)
    requires input == NeutronMessageHeader + afterHeader
    requires afterHeader == [AddressByte(m.id)] + KindBytes(m) + Body(m) + afterBody
    requires afterBody == [SysexEox] + rest
    ensures input == DecodedFrame(m) + rest
  {
  }

  /** Decodes one complete message using the full 30-entry catalogue. */
  function ParseNeutronMessage(input: seq<Byte>): (r: Parsed<NeutronMessage>)
    ensures r.Some? ==> Decodable(r.value.0) && input == DecodedFrame(r.value.0) + r.value.1
  {
    ParseFrame(ParseGlobalSetting, input)
  }
}

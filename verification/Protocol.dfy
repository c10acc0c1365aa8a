/**
 * The message types of the Behringer Neutron SysEx dialect and their wire encoding:
 * the framing constants, the byte tables of every value type, the global-setting
 * catalogue, the device address and the message envelope.
 */
module Protocol {
  import opened Bytes
  import Hex

  // ---------------------------------------------------------------------------
  // Framing constants
  // ---------------------------------------------------------------------------

  const SysexMessageStart: Byte := 0xF0
  const SysexEox: Byte := 0xF7
  const BehringerManufacturer: seq<Byte> := [0x00, 0x20, 0x32]
  const NeutronDevice: Byte := 0x28
  const NeutronMessageHeader: seq<Byte> := [SysexMessageStart] + BehringerManufacturer + [NeutronDevice]
  /** Device byte, broadcast address and "set" kind that every fixed command repeats. */
  const MaybeStatic: seq<Byte> := [0x28, 0x7F, 0x0A]
  const CommsProtocolV1: Byte := 0x01

  /** The header is the five bytes `F0 00 20 32 28`, and the protocol version byte is `01`. */
  lemma HeaderLiteral()
    ensures NeutronMessageHeader == [0xF0, 0x00, 0x20, 0x32, 0x28]
    ensures CommsProtocolV1 == 0x01 && MaybeStatic[0] == NeutronDevice
  {
  }

  // ---------------------------------------------------------------------------
  // Value types and their byte tables
  // ---------------------------------------------------------------------------

  datatype ToggleOption = On | Off

  function ToggleOptionByte(t: ToggleOption): (b: Byte)
    ensures b <= 0x01
  {
    match t
    case On => 0x01
    case Off => 0x00
  }

  datatype BlendMode = Switch | Blend

  function BlendModeByte(m: BlendMode): (b: Byte)
    ensures b <= 0x01
  {
    match m
    case Switch => 0x01
    case Blend => 0x00
  }

  /** Oscillator pipe lengths 32', 16', 8' and the +/- 10 octave range. */
  datatype OscRange = ThirtyTwo | Sixteen | Eight | PlusMinusTen

  function OscRangeByte(r: OscRange): (b: Byte)
    ensures b <= 0x03
  {
    match r
    case ThirtyTwo => 0x00
    case Sixteen => 0x01
    case Eight => 0x02
    case PlusMinusTen => 0x03
  }

  datatype KeyTrackMode = Track | Hold

  function KeyTrackModeByte(k: KeyTrackMode): (b: Byte)
    ensures b <= 0x01
  {
    match k
    case Track => 0x00
    case Hold => 0x01
  }

  /** The as-written value tables never send two values as the same byte. */
  lemma ValueTablesInjective(t1: ToggleOption, t2: ToggleOption, m1: BlendMode, m2: BlendMode,
                             r1: OscRange, r2: OscRange, k1: KeyTrackMode, k2: KeyTrackMode)
    ensures ToggleOptionByte(t1) == ToggleOptionByte(t2) ==> t1 == t2
    ensures BlendModeByte(m1) == BlendModeByte(m2) ==> m1 == m2
    ensures OscRangeByte(r1) == OscRangeByte(r2) ==> r1 == r2
    ensures KeyTrackModeByte(k1) == KeyTrackModeByte(k2) ==> k1 == k2
  {
  }

  /** Autoglide offset in semitones, MinusTwelve .. PlusTwelve. */
  type AutoglideSemitones = s: int | -12 <= s <= 12

  /** Reconstructed encoder: the inverse of the decoder's table, MinusTwelve at 0x00 up to PlusTwelve at 0x18. */
  function AutoglideSemitonesByte(s: AutoglideSemitones): (b: Byte)
    ensures b <= 0x18
    ensures s < 0 <==> b < 0x0C
  {
    s + 12
  }

  datatype LfoIndex = One | Two | Three | Four | Five

  function LfoIndexByte(i: LfoIndex): (b: Byte)
    ensures b <= 0x04
  {
    match i
    case One => 0x00
    case Two => 0x01
    case Three => 0x02
    case Four => 0x03
    case Five => 0x04
  }

  datatype LfoShape = Sine | Triangle | FallingSaw | Square | RisingSaw

  function LfoShapeByte(s: LfoShape): (b: Byte)
    ensures b <= 0x04
  {
    match s
    case Sine => 0x00
    case Triangle => 0x01
    case FallingSaw => 0x02
    case Square => 0x03
    case RisingSaw => 0x04
  }

  /** Phase offsets in 45 degree steps. */
  datatype LfoPhaseOffset =
    | Zero | FourtyFive | Ninety | HundredThirtyFive
    | HundredEighty | TwoHundredTwentyFive | TwoHundredSeventy | ThreeHundredFifteen

  function LfoPhaseOffsetByte(o: LfoPhaseOffset): (b: Byte)
    ensures b <= 0x07
  {
    match o
    case Zero => 0x00
    case FourtyFive => 0x01
    case Ninety => 0x02
    case HundredThirtyFive => 0x03
    case HundredEighty => 0x04
    case TwoHundredTwentyFive => 0x05
    case TwoHundredSeventy => 0x06
    case ThreeHundredFifteen => 0x07
  }

  /** The phase offset a byte stands for is 45 degrees times the byte. */
  function PhaseDegrees(o: LfoPhaseOffset): (d: int)
    ensures d == 45 * LfoPhaseOffsetByte(o)
  {
    match o
    case Zero => 0
    case FourtyFive => 45
    case Ninety => 90
    case HundredThirtyFive => 135
    case HundredEighty => 180
    case TwoHundredTwentyFive => 225
    case TwoHundredSeventy => 270
    case ThreeHundredFifteen => 315
  }

  datatype ModSource = Off | AfterTouch | ModWheel | Velocity

  function ModSourceByte(s: ModSource): (b: Byte)
    ensures b <= 0x03
  {
    match s
    case Off => 0x00
    case AfterTouch => 0x01
    case ModWheel => 0x02
    case Velocity => 0x03
  }

  datatype AssignOutOption = Osc1 | Osc2 | Velocity | ModWheel | AfterTouch

  function AssignOutOptionByte(o: AssignOutOption): (b: Byte)
    ensures b <= 0x04
  {
    match o
    case Osc1 => 0x00
    case Osc2 => 0x01
    case Velocity => 0x02
    case ModWheel => 0x03
    case AfterTouch => 0x04
  }

  datatype RetriggerMode = Staccato | Legato

  function RetriggerModeByte(m: RetriggerMode): (b: Byte)
    ensures b <= 0x01
  {
    match m
    case Staccato => 0x00
    case Legato => 0x01
  }

  /** A depth level kept as the raw byte that carries it; the byte is not range-checked. */
  datatype Percent = FromByte(level: Byte)

  function PercentByte(p: Percent): (b: Byte)
    ensures FromByte(b) == p
  {
    p.level
  }

  // ---------------------------------------------------------------------------
  // MIDI channels and device addresses
  // ---------------------------------------------------------------------------

  /** MIDI channel One .. Sixteen, by number. */
  type Channel = n: int | 1 <= n <= 16 witness 1

  /**
   * The channel table as written: channel n is byte n - 1, except that Fifteen
   * is sent as 0x0d, the byte of Fourteen.
   */
  function ChannelByte(c: Channel): (b: Byte)
    ensures b <= 0x0F && b != 0x0E
    ensures c != 15 ==> b + 1 == c
  {
    match c
    case 1 => 0x00
    case 2 => 0x01
    case 3 => 0x02
    case 4 => 0x03
    case 5 => 0x04
    case 6 => 0x05
    case 7 => 0x06
    case 8 => 0x07
    case 9 => 0x08
    case 10 => 0x09
    case 11 => 0x0A
    case 12 => 0x0B
    case 13 => 0x0C
    case 14 => 0x0D
    case 15 => 0x0D
    case 16 => 0x0F
  }

  /** Channels Fourteen and Fifteen share one byte, and no channel is ever sent as 0x0e. */
  lemma ChannelByteCollision(c1: Channel, c2: Channel)
    ensures ChannelByte(c1) == ChannelByte(c2) <==> c1 == c2 || {c1, c2} == {14, 15}
  {
  }

  /**
   * Reconstructed channel encoder of the MidiChannel setting: the inverse of the
   * decoder's channel table, channel n as byte n - 1 for every channel.
   */
  function MidiChannelByte(c: Channel): (b: Byte)
    ensures b <= 0x0F
  {
    c - 1
  }

  /** The reconstructed table gives every channel its own byte. */
  lemma MidiChannelByteInjective(c1: Channel, c2: Channel)
    ensures MidiChannelByte(c1) == MidiChannelByte(c2) <==> c1 == c2
  {
  }

  datatype DeviceId = Channel(ch: Channel) | Multicast

  function DeviceIdByte(id: DeviceId): (b: Byte)
    ensures (b == 0x7F) == id.Multicast?
    ensures id.Channel? ==> b == ChannelByte(id.ch)
  {
    match id
    case Channel(c) => ChannelByte(c)
    case Multicast => 0x7F
  }

  // ---------------------------------------------------------------------------
  // Global-setting catalogue
  // ---------------------------------------------------------------------------

  datatype GlobalSetting =
    | ParaphonicMode(toggle: ToggleOption)
    | OscSync(toggle: ToggleOption)
    | Osc1BlendMode(blend: BlendMode)
    | Osc2BlendMode(blend: BlendMode)
    | Osc1TunePotBypass(toggle: ToggleOption)
    | Osc2TunePotBypass(toggle: ToggleOption)
    | Osc1Range(range: OscRange)
    | Osc2Range(range: OscRange)
    | Osc2KeyTrack(keyTrack: KeyTrackMode)
    | Osc1Autoglide(semitones: AutoglideSemitones)
    | Osc2Autoglide(semitones: AutoglideSemitones)
    | LfoBlendMode(blend: BlendMode)
    | LfoKeySync(toggle: ToggleOption)
    | LfoOneShot(toggle: ToggleOption)
    | LfoRetrigger(toggle: ToggleOption)
    | LfoMidiSync(toggle: ToggleOption)
    | LfoDepth(depth: Percent)
    | LfoShapeOrder(index: LfoIndex, shape: LfoShape)
    | LfoShapePhase(index: LfoIndex, phase: LfoPhaseOffset)
    | LfoResetOrder
    | VcfKeyTracking(toggle: ToggleOption)
    | VcfModDepth(depth: Percent)
    | VcfModSource(source: ModSource)
    | MidiChannel(channel: Channel)
    | DisableMidiDips(toggle: ToggleOption)
    | PolyChainMode(toggle: ToggleOption)
    | KeyRangeMute(toggle: ToggleOption)
    | KeyRangeReset
    | AssignOut(target: AssignOutOption)
    | EnvRetriggerMode(retrigger: RetriggerMode)

  /** The opcode byte that selects a setting on the wire. */
  function Opcode(g: GlobalSetting): (op: Byte)
    ensures op <= 0x3B
  {
    match g
    case ParaphonicMode(_) => 0x0F
    case OscSync(_) => 0x0E
    case Osc1BlendMode(_) => 0x20
    case Osc2BlendMode(_) => 0x21
    case Osc1TunePotBypass(_) => 0x22
    case Osc2TunePotBypass(_) => 0x23
    case Osc1Range(_) => 0x26
    case Osc2Range(_) => 0x27
    case Osc2KeyTrack(_) => 0x2A
    case Osc1Autoglide(_) => 0x24
    case Osc2Autoglide(_) => 0x25
    case LfoBlendMode(_) => 0x30
    case LfoKeySync(_) => 0x37
    case LfoOneShot(_) => 0x31
    case LfoRetrigger(_) => 0x3B
    case LfoMidiSync(_) => 0x35
    case LfoDepth(_) => 0x34
    case LfoShapeOrder(_, _) => 0x38
    case LfoShapePhase(_, _) => 0x3A
    case LfoResetOrder => 0x39
    case VcfKeyTracking(_) => 0x11
    case VcfModDepth(_) => 0x14
    case VcfModSource(_) => 0x12
    case MidiChannel(_) => 0x00
    case DisableMidiDips(_) => 0x0A
    case PolyChainMode(_) => 0x08
    case KeyRangeMute(_) => 0x0B
    case KeyRangeReset => 0x06
    case AssignOut(_) => 0x04
    case EnvRetriggerMode(_) => 0x05
  }

  /** The bytes after the opcode: one value byte, or an index byte then a value byte. */
  function Payload(g: GlobalSetting): (p: seq<Byte>)
    ensures |p| == (if g.LfoShapeOrder? || g.LfoShapePhase? then 2 else 1)
    ensures g.LfoResetOrder? || g.KeyRangeReset? ==> p == [0x00]
  {
    match g
    case ParaphonicMode(t) => [ToggleOptionByte(t)]
    case OscSync(t) => [ToggleOptionByte(t)]
    case Osc1BlendMode(m) => [BlendModeByte(m)]
    case Osc2BlendMode(m) => [BlendModeByte(m)]
    case Osc1TunePotBypass(t) => [ToggleOptionByte(t)]
    case Osc2TunePotBypass(t) => [ToggleOptionByte(t)]
    case Osc1Range(r) => [OscRangeByte(r)]
    case Osc2Range(r) => [OscRangeByte(r)]
    case Osc2KeyTrack(k) => [KeyTrackModeByte(k)]
    case Osc1Autoglide(s) => [AutoglideSemitonesByte(s)]
    case Osc2Autoglide(s) => [AutoglideSemitonesByte(s)]
    case LfoBlendMode(m) => [BlendModeByte(m)]
    case LfoKeySync(t) => [ToggleOptionByte(t)]
    case LfoOneShot(t) => [ToggleOptionByte(t)]
    case LfoRetrigger(t) => [ToggleOptionByte(t)]
    case LfoMidiSync(t) => [ToggleOptionByte(t)]
    case LfoDepth(p) => [PercentByte(p)]
    case LfoShapeOrder(i, s) => [LfoIndexByte(i), LfoShapeByte(s)]
    case LfoShapePhase(i, o) => [LfoIndexByte(i), LfoPhaseOffsetByte(o)]
    case LfoResetOrder => [0x00]
    case VcfKeyTracking(t) => [ToggleOptionByte(t)]
    case VcfModDepth(p) => [PercentByte(p)]
    case VcfModSource(s) => [ModSourceByte(s)]
    case MidiChannel(c) => [MidiChannelByte(c)]
    case DisableMidiDips(t) => [ToggleOptionByte(t)]
    case PolyChainMode(t) => [ToggleOptionByte(t)]
    case KeyRangeMute(t) => [ToggleOptionByte(t)]
    case KeyRangeReset => [0x00]
    case AssignOut(o) => [AssignOutOptionByte(o)]
    case EnvRetriggerMode(m) => [RetriggerModeByte(m)]
  }

  /** The wire form of a setting: its opcode followed by its payload. */
  function SettingBytes(g: GlobalSetting): (r: seq<Byte>)
    ensures |r| == 1 + |Payload(g)| && r[0] == Opcode(g) && r[1..] == Payload(g)
  {
    [Opcode(g)] + Payload(g)
  }

  /** The 16 settings the library's encoder writes out; the older decoder knows exactly these. */
  predicate IsOriginalSetting(g: GlobalSetting)
  {
    g.ParaphonicMode? || g.OscSync? || g.Osc1BlendMode? || g.Osc2BlendMode? ||
    g.Osc1TunePotBypass? || g.Osc2TunePotBypass? || g.Osc1Range? || g.Osc2Range? ||
    g.Osc2KeyTrack? || g.LfoBlendMode? || g.LfoKeySync? || g.LfoOneShot? ||
    g.LfoRetrigger? || g.LfoMidiSync? || g.LfoResetOrder? || g.VcfKeyTracking?
  }

  /** Appends the wire form of `g` to `buffer`, leaving what the buffer already held in place. */
  method AppendTo(g: GlobalSetting, buffer: ByteVec)
    modifies buffer
    ensures buffer.elems == old(buffer.elems) + SettingBytes(g)
  {
    if IsOriginalSetting(g) {
      AppendOriginal(g, buffer);
    } else {
      AppendReconstructed(g, buffer);
    }
  }

  /** The library's own encoder: one opcode push and one value push per setting. */
  method AppendOriginal(g: GlobalSetting, buffer: ByteVec)
    requires IsOriginalSetting(g)
    modifies buffer
    ensures buffer.elems == old(buffer.elems) + SettingBytes(g)
  {
    match g
    case ParaphonicMode(t) => buffer.Push(0x0F); buffer.Push(ToggleOptionByte(t));
    case OscSync(t) => buffer.Push(0x0E); buffer.Push(ToggleOptionByte(t));
    case Osc1BlendMode(m) => buffer.Push(0x20); buffer.Push(BlendModeByte(m));
    case Osc2BlendMode(m) => buffer.Push(0x21); buffer.Push(BlendModeByte(m));
    case Osc1TunePotBypass(t) => buffer.Push(0x22); buffer.Push(ToggleOptionByte(t));
    case Osc2TunePotBypass(t) => buffer.Push(0x23); buffer.Push(ToggleOptionByte(t));
    case Osc1Range(r) => buffer.Push(0x26); buffer.Push(OscRangeByte(r));
    case Osc2Range(r) => buffer.Push(0x27); buffer.Push(OscRangeByte(r));
    case Osc2KeyTrack(k) => buffer.Push(0x2A); buffer.Push(KeyTrackModeByte(k));
    case LfoBlendMode(m) => buffer.Push(0x30); buffer.Push(BlendModeByte(m));
    case LfoKeySync(t) => buffer.Push(0x37); buffer.Push(ToggleOptionByte(t));
    case LfoOneShot(t) => buffer.Push(0x31); buffer.Push(ToggleOptionByte(t));
    case LfoRetrigger(t) => buffer.Push(0x3B); buffer.Push(ToggleOptionByte(t));
    case LfoMidiSync(t) => buffer.Push(0x35); buffer.Push(ToggleOptionByte(t));
    case LfoResetOrder => buffer.Push(0x39); buffer.Push(0x00);
    case VcfKeyTracking(t) => buffer.Push(0x11); buffer.Push(ToggleOptionByte(t));
    case _ => assert false;
  }

  /** Reconstructed encoder for the other 14 settings: the inverse of the decoder's table. */
  method AppendReconstructed(g: GlobalSetting, buffer: ByteVec)
    requires !IsOriginalSetting(g)
    modifies buffer
    ensures buffer.elems == old(buffer.elems) + SettingBytes(g)
  {
    match g
    case Osc1Autoglide(s) => buffer.Push(0x24); buffer.Push(AutoglideSemitonesByte(s));
    case Osc2Autoglide(s) => buffer.Push(0x25); buffer.Push(AutoglideSemitonesByte(s));
    case LfoDepth(p) => buffer.Push(0x34); buffer.Push(PercentByte(p));
    case LfoShapeOrder(i, s) => buffer.Push(0x38); buffer.Push(LfoIndexByte(i)); buffer.Push(LfoShapeByte(s));
    case LfoShapePhase(i, o) => buffer.Push(0x3A); buffer.Push(LfoIndexByte(i)); buffer.Push(LfoPhaseOffsetByte(o));
    case VcfModDepth(p) => buffer.Push(0x14); buffer.Push(PercentByte(p));
    case VcfModSource(s) => buffer.Push(0x12); buffer.Push(ModSourceByte(s));
    case MidiChannel(c) => buffer.Push(0x00); buffer.Push(MidiChannelByte(c));
    case DisableMidiDips(t) => buffer.Push(0x0A); buffer.Push(ToggleOptionByte(t));
    case PolyChainMode(t) => buffer.Push(0x08); buffer.Push(ToggleOptionByte(t));
    case KeyRangeMute(t) => buffer.Push(0x0B); buffer.Push(ToggleOptionByte(t));
    case KeyRangeReset => buffer.Push(0x06); buffer.Push(0x00);
    case AssignOut(o) => buffer.Push(0x04); buffer.Push(AssignOutOptionByte(o));
    case EnvRetriggerMode(m) => buffer.Push(0x05); buffer.Push(RetriggerModeByte(m));
    case _ => assert false;
  }

  // ---------------------------------------------------------------------------
  // Message envelope
  // ---------------------------------------------------------------------------

  /** Version strings are kept as the raw bytes of the string. */
  datatype NeutronMessage =
    | SetGlobalSetting(id: DeviceId, setting: GlobalSetting)
    | RestoreGlobalSetting(id: DeviceId)
    | CalibrationModeCommand(id: DeviceId)
    | SoftwareVersionRequest(id: DeviceId)
    | SoftwareVersionResponse(id: DeviceId, version: seq<Byte>)
    | GlobalSettingUpdate(id: DeviceId, setting: GlobalSetting)

  /** The message-kind bytes that follow the device id; the version-carrying kinds add the protocol byte. */
  function KindBytes(m: NeutronMessage): (k: seq<Byte>)
    ensures 1 <= |k| <= 2
    ensures (|k| == 2) == (m.SoftwareVersionResponse? || m.GlobalSettingUpdate?)
    ensures |k| == 2 ==> k[1] == CommsProtocolV1
  {
    match m
    case SetGlobalSetting(_, _) => [0x0A]
    case RestoreGlobalSetting(_) => [0x0B]
    case CalibrationModeCommand(_) => [0x10]
    case SoftwareVersionRequest(_) => [0x73]
    case SoftwareVersionResponse(_, _) => [0x74, CommsProtocolV1]
    case GlobalSettingUpdate(_, _) => [0x5A, CommsProtocolV1]
  }

  /** Distinct message kinds never share their first kind byte. */
  lemma KindBytesDistinct(m1: NeutronMessage, m2: NeutronMessage)
    ensures KindBytes(m1)[0] == KindBytes(m2)[0] <==> KindBytes(m1) == KindBytes(m2)
    ensures KindBytes(m1) == KindBytes(m2) <==>
      (m1.SetGlobalSetting? == m2.SetGlobalSetting? && m1.RestoreGlobalSetting? == m2.RestoreGlobalSetting? &&
       m1.CalibrationModeCommand? == m2.CalibrationModeCommand? &&
       m1.SoftwareVersionRequest? == m2.SoftwareVersionRequest? &&
       m1.SoftwareVersionResponse? == m2.SoftwareVersionResponse?)
  {
  }

  /** What a message carries after its kind bytes. */
  function Body(m: NeutronMessage): seq<Byte>
  {
    match m
    case SetGlobalSetting(_, g) => SettingBytes(g)
    case SoftwareVersionResponse(_, v) => v
    case GlobalSettingUpdate(_, g) => SettingBytes(g)
    case _ => []
  }

  /** The complete SysEx frame of a message. */
  function MessageBytes(m: NeutronMessage): (r: seq<Byte>)
    ensures |r| == 7 + |KindBytes(m)| + |Body(m)|
    ensures NeutronMessageHeader <= r && r[5] == DeviceIdByte(m.id)
    ensures r[6..6 + |KindBytes(m)|] == KindBytes(m)
    ensures r[6 + |KindBytes(m)|..|r| - 1] == Body(m)
    ensures r[|r| - 1] == SysexEox
  {
    NeutronMessageHeader + [DeviceIdByte(m.id)] + KindBytes(m) + Body(m) + [SysexEox]
  }

  /** Builds the frame of `m` by pushing header, address, kind and payload into a fresh vector. */
  method AsBytes(m: NeutronMessage) returns (bytes: seq<Byte>)
    ensures bytes == MessageBytes(m)
  {
    var buffer := new ByteVec();
    buffer.Push(SysexMessageStart);
    buffer.Extend(BehringerManufacturer);
    buffer.Push(NeutronDevice);
    assert buffer.elems == NeutronMessageHeader;
    var frame := NeutronMessageHeader + [DeviceIdByte(m.id)] + KindBytes(m);
    match m {
      case SetGlobalSetting(id, c) =>
        buffer.Push(DeviceIdByte(id));
        buffer.Push(0x0A);
        assert buffer.elems == frame;
        AppendTo(c, buffer);
      case RestoreGlobalSetting(id) =>
        buffer.Push(DeviceIdByte(id));
        buffer.Push(0x0B);
        assert buffer.elems == frame + Body(m);
      case CalibrationModeCommand(id) =>
        buffer.Push(DeviceIdByte(id));
        buffer.Push(0x10);
        assert buffer.elems == frame + Body(m);
      case SoftwareVersionRequest(id) =>
        buffer.Push(DeviceIdByte(id));
        buffer.Push(0x73);
        assert buffer.elems == frame + Body(m);
      case SoftwareVersionResponse(id, v) =>
        buffer.Push(DeviceIdByte(id));
        buffer.Push(0x74);
        buffer.Push(CommsProtocolV1);
        assert buffer.elems == frame;
        buffer.Extend(v);
      case GlobalSettingUpdate(id, c) =>
        buffer.Push(DeviceIdByte(id));
        buffer.Push(0x5A);
        buffer.Push(CommsProtocolV1);
        assert buffer.elems == frame;
        AppendTo(c, buffer);
    }
    assert buffer.elems == frame + Body(m);
    buffer.Push(SysexEox);
    bytes := buffer.elems;
  }

  // ---------------------------------------------------------------------------
  // Fixed frames
  // ---------------------------------------------------------------------------

  /** A raw payload framed as a multicast "set" command. */
  function Wrapped(message: seq<Byte>): (r: seq<Byte>)
    ensures |r| == |message| + 8
    ensures r[..7] == NeutronMessageHeader + [0x7F, 0x0A]
    ensures r[7..|r| - 1] == message && r[|r| - 1] == SysexEox
  {
    [SysexMessageStart] + BehringerManufacturer + MaybeStatic + message + [SysexEox]
  }

  method WrapMessage(message: seq<Byte>) returns (wrapped: seq<Byte>)
    ensures wrapped == Wrapped(message)
  {
    var buffer := new ByteVec.From([SysexMessageStart, BehringerManufacturer[0], BehringerManufacturer[1],
                                     BehringerManufacturer[2], MaybeStatic[0], MaybeStatic[1], MaybeStatic[2]]);
    buffer.Extend(message);
    buffer.Push(SysexEox);
    wrapped := buffer.elems;
  }

  /** Wrapping a setting's bytes gives exactly the multicast "set" message for that setting. */
  lemma WrappedIsMulticastSet(g: GlobalSetting)
    ensures Wrapped(SettingBytes(g)) == MessageBytes(SetGlobalSetting(Multicast, g))
  {
    assert MaybeStatic == [NeutronDevice] + [DeviceIdByte(Multicast)] + KindBytes(SetGlobalSetting(Multicast, g));
  }

  /** The multicast restore command: the header, `7F`, `0B` and the terminator, with no `0A` byte. */
  method RestoreDefaultSettings() returns (r: seq<Byte>)
    ensures r == MessageBytes(RestoreGlobalSetting(Multicast))
    ensures r == [0xF0, 0x00, 0x20, 0x32, 0x28, 0x7F, 0x0B, 0xF7] && 0x0A !in r
  {
    var buffer := new ByteVec.From([SysexMessageStart, BehringerManufacturer[0], BehringerManufacturer[1],
                                     BehringerManufacturer[2], MaybeStatic[0], MaybeStatic[1]]);
    buffer.Push(0x0B);
    buffer.Push(SysexEox);
    r := buffer.elems;
  }

  /** The frame the vendor's app sends about once a second: kind byte `05`, which has no decoder branch. */
  const RequestStateFrame: seq<Byte> := [0xF0, 0x00, 0x20, 0x32, 0x28, 0x7F, 0x05, 0xF7]

  method MaybeRequestState() returns (r: seq<Byte>)
    ensures r == RequestStateFrame
    ensures NeutronMessageHeader <= r && r[5] == DeviceIdByte(Multicast)
  {
    var buffer := new ByteVec.From([SysexMessageStart, BehringerManufacturer[0], BehringerManufacturer[1],
                                     BehringerManufacturer[2], MaybeStatic[0], MaybeStatic[1]]);
    buffer.Push(0x05);
    buffer.Push(SysexEox);
    r := buffer.elems;
  }

  /** The frame sent once on connecting: exactly the multicast software-version request. */
  method MaybeRequestStateTwo() returns (r: seq<Byte>)
    ensures r == MessageBytes(SoftwareVersionRequest(Multicast))
    ensures r == [0xF0, 0x00, 0x20, 0x32, 0x28, 0x7F, 0x73, 0xF7]
  {
    var buffer := new ByteVec.From([SysexMessageStart, BehringerManufacturer[0], BehringerManufacturer[1],
                                     BehringerManufacturer[2], MaybeStatic[0], MaybeStatic[1]]);
    buffer.Push(0x73);
    buffer.Push(SysexEox);
    r := buffer.elems;
  }

  // ---------------------------------------------------------------------------
  // Display of raw packets
  // ---------------------------------------------------------------------------

  /**
   * `B[ N <hex of the rest> ]` for a Neutron packet, `B[ <device hex> <hex of the rest> ]` otherwise.
   * A packet shorter than five bytes has no device byte; the source panics on it.
   */
  function PacketText(bytes: seq<Byte>): (text: string)
    requires |bytes| >= 5
    ensures |text| == 5 + (if bytes[4] == NeutronDevice then 2 else 3) + 2 * (|bytes| - 5)
    ensures text[..3] == "B[ " && text[|text| - 2..] == " ]"
  {
    if bytes[4] == NeutronDevice then "B[ " + "N " + Hex.Encode(bytes[5..]) + " ]"
    else "B[ " + Hex.Encode([bytes[4]]) + " " + Hex.Encode(bytes[5..]) + " ]"
  }

  /** Formats a packet of at least five bytes (shorter ones panic in the source) for display, building the text piece by piece. */
  method FormatBehringerPacket(bytes: seq<Byte>) returns (text: string)
    requires |bytes| >= 5
    ensures text == PacketText(bytes)
  {
    var device := bytes[4];
    var rest := Hex.Encode(bytes[5..]);
    var buffer := "";
    if device == NeutronDevice {
      buffer := buffer + "N ";
      buffer := buffer + rest;
      assert buffer == "N " + rest;
      Bracketed("N ", rest, "");
    } else {
      var head := Hex.Encode([bytes[4]]);
      buffer := buffer + head;
      buffer := buffer + " ";
      buffer := buffer + rest;
      assert buffer == head + " " + rest;
      Bracketed(head, " ", rest);
    }
    text := "B[ " + buffer + " ]";
  }

  /** Bracketing pieces one after the other is bracketing their concatenation. */
  lemma Bracketed(a: string, b: string, c: string)
    ensures "B[ " + (a + b + c) + " ]" == "B[ " + a + b + c + " ]"
  {
  }

  /** Two texts `p + x + q` that are equal, with pieces of equal lengths, have equal middles. */
  lemma SameMiddle(p: string, x: string, q: string, p': string, x': string, q': string)
    requires p + x + q == p' + x' + q'
    requires |p| == |p'| && |x| == |x'|
    ensures x == x'
  {
    forall k | 0 <= k < |x|
      ensures x[k] == x'[k]
    {
      assert (p + x + q)[|p| + k] == x[k];
      assert (p' + x' + q')[|p'| + k] == x'[k];
    }
  }

  /** The displayed text is lossless from the device byte on: equal texts come from equal packet tails. */
  lemma PacketTextDeterminesTail(a: seq<Byte>, b: seq<Byte>)
    requires |a| >= 5 && |b| >= 5
    requires PacketText(a) == PacketText(b)
    ensures a[4..] == b[4..]
  {
    var ha, hb := Hex.Encode(a[5..]), Hex.Encode(b[5..]);
    var da, db := Hex.Encode([a[4]]), Hex.Encode([b[4]]);
    if a[4] == NeutronDevice && b[4] == NeutronDevice {
      assert "B[ " + "N " == "B[ N ";
      assert PacketText(a) == "B[ N " + ha + " ]" && PacketText(b) == "B[ N " + hb + " ]";
      SameMiddle("B[ N ", ha, " ]", "B[ N ", hb, " ]");
      Hex.EncodeInjective(a[5..], b[5..]);
    } else if a[4] != NeutronDevice && b[4] != NeutronDevice {
      assert PacketText(a) == "B[ " + da + (" " + ha + " ]");
      assert PacketText(b) == "B[ " + db + (" " + hb + " ]");
      SameMiddle("B[ ", da, " " + ha + " ]", "B[ ", db, " " + hb + " ]");
      Hex.EncodeInjective([a[4]], [b[4]]);
      SameMiddle("B[ " + da + " ", ha, " ]", "B[ " + db + " ", hb, " ]");
      Hex.EncodeInjective(a[5..], b[5..]);
    } else {
      // The two texts differ in length by an odd number of characters.
      assert false;
    }
    assert a[4..] == [a[4]] + a[5..] && b[4..] == [b[4]] + b[5..];
  }
}

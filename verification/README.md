# Behringer Neutron SysEx codec in Dafny

This project models the message codec of rustron, a controller for the Behringer Neutron
synthesizer. The codec turns structured messages into MIDI System Exclusive frames and back.
Framing follows the "System Exclusive Messages" section of the MIDI 1.0 Detailed Specification:
a frame starts with `F0`, carries the 3-byte manufacturer ID `00 20 32`, and ends with `F7`.

The codec has three layers:

- **Value codecs.** Small byte tables for:
  - toggles, blend modes, oscillator ranges and key-track modes;
  - autoglide semitones (`00..18` is −12..+12);
  - LFO index, shape and phase offset;
  - modulation source, assignable output and envelope retrigger;
  - MIDI channel and a raw one-byte percent level.
- **Global-setting catalogue.** An opcode byte selects one of 30 settings, followed by one or two payload bytes.
- **Message envelope.** The fields come in this order:
  - the header `F0 00 20 32 28`;
  - a device id: `7F` multicast, `00..0F` channels 1–16;
  - a kind: `0A` set, `0B` restore, `10` calibration, `73` version request, `74 01` version response, `5A 01` update;
  - the payload, then `F7`.

Decoders are functions from a byte sequence to `Option<(value, remainder)>`. Every decoder failure is
`None`. Encoders are functions from a value to bytes. Where the source builds a buffer with
`push`/`extend`, a method does the same on a `ByteVec` object and is proved equal to the encoder
function.

Modules:

- **`Bytes`**: the byte type, `Option`, the `Tag` prefix matcher, and `ByteVec`, a growable buffer (Rust's `Vec<u8>`).
- **`Hex`**: lowercase hexadecimal text, with its inverse.
- **`Protocol`** (`rustron-lib/src/protocol.rs`):
  - constants and value tables;
  - the channel and device-id bytes;
  - the catalogue's wire form and `append_to`;
  - `as_bytes`, `wrap_message`, the fixed frames and `format_behringer_packet`.
- **`Parser`** (`rustron-lib/src/parser.rs`):
  - every value decoder, `device_id`, the 30-entry `global_setting` and `version`;
  - the envelope. It is parameterised by the catalogue decoder, so the older decoder can reuse it.
- **`CodecProperties`**: properties that relate encoder and decoder:
  - round trips and prefix-freedom;
  - rejection of unknown opcodes, the calibration frame and the state request;
  - the channel-Fifteen quirk;
  - the exact frames from the repository's tests.
- **`LegacyParser`** (`src/parser.rs`): the older decoder with a 16-entry catalogue. It is proved to be the full decoder restricted to those 16 settings.
- **`CommandHelpers`** (`src/protocol.rs`):
  - the fixed-byte builders, grouped as the source groups them;
  - each builder's payload is either a catalogue setting's wire form or has an opcode outside the catalogue;
  - what the decoder makes of each builder's frame.
- **`AppState`** (the `state` module of `src/app.rs`):
  - the settings tracker fed with decoded messages;
  - the wrap-around list and tab cursors.

Modelling decisions:

- **Reconstructed encoder.** The library's encoder (`append_to`) covers only the first 16 settings. The encoder for the other 14 is reconstructed as the inverse of the decoder table, which is what the round-trip test at `rustron-lib/src/parser.rs:379-427` asserts.
- **Types defined outside the shown files.** `AutoglideSemitones`, `LfoIndex`, `LfoShape`, `LfoPhaseOffset`, `ModSource`, `AssignOutOption`, `RetriggerMode` and `Percent` are modelled from the decoder tables.
- **Toggle to flag.** `ToggleOption`'s conversion to `bool` is not part of this model's source. The tracker's test fixes it as On → true, Off → false.
- **One decoder per kind.** The decoder reads the device id once and then dispatches on the kind. This matches the source's alternation, because every branch starts with `device_id` and the kind tags are mutually exclusive.
- **Cut failures.** The `cut` around the channel table turns a bad address byte into a hard failure. That is again `None` here.

Behaviour of the code worth noting:

- **Placeholder byte.** The byte after `39` (LFO reset order) and after `06` (key-range reset) must be exactly `00` (rustron-lib/src/parser.rs:175, 186).
- **Trailing bytes.** Bytes after the terminating `F7` are returned as the remainder rather than rejected (rustron-lib/src/parser.rs:236-261).
- **Percent.** The percent byte is not range-checked (rustron-lib/src/parser.rs:37-39).
- **Channel Fifteen.** The device-id byte for channel Fifteen is `0D`, the same as channel Fourteen (rustron-lib/src/protocol.rs:244-245; see Findings).

## Model

| member | source | states |
|---|---|---|
| Bytes.Tag | rustron-lib/src/parser.rs:236-261 | `tag` succeeds exactly when the literal is a prefix, and the remainder is what follows it |
| Bytes.ByteVec.constructor | rustron-lib/src/protocol.rs:284 | a new buffer is empty |
| Bytes.ByteVec.From | rustron-lib/src/protocol.rs:33-41 | a buffer built from a literal holds exactly that literal |
| Bytes.ByteVec.Push | rustron-lib/src/protocol.rs:283-322 | `push` appends exactly one byte and keeps the prefix |
| Bytes.ByteVec.Extend | rustron-lib/src/protocol.rs:42 | `extend` appends exactly the given bytes and keeps the prefix |
| Hex.Encode | rustron-lib/src/protocol.rs:18-30 | hex text has two lowercase hex digits per byte |
| Hex.Decode | rustron-lib/src/protocol.rs:18-30 | reading hex text gives half as many bytes as characters |
| Hex.DecodeEncode | rustron-lib/src/protocol.rs:18-30 | decoding the hex text of any buffer gives the buffer back |
| Hex.EncodeInjective | rustron-lib/src/protocol.rs:18-30 | distinct buffers have distinct hex texts |
| Protocol.HeaderLiteral | rustron-lib/src/protocol.rs:3-16 | the header is `F0 00 20 32 28`, the protocol version byte is `01`, and the "static" triple starts with the device byte |
| Protocol.ToggleOptionByte | rustron-lib/src/protocol.rs:57-64 | a toggle's byte is `00` or `01` |
| Protocol.BlendModeByte | rustron-lib/src/protocol.rs:72-79 | a blend mode's byte is `00` or `01` |
| Protocol.OscRangeByte | rustron-lib/src/protocol.rs:91-100 | an oscillator range's byte is in `00..03` |
| Protocol.KeyTrackModeByte | rustron-lib/src/protocol.rs:108-115 | a key-track mode's byte is `00` or `01` |
| Protocol.ValueTablesInjective | rustron-lib/src/protocol.rs:57-115 | the four `as_byte` tables are injective |
| Protocol.AutoglideSemitonesByte | rustron-lib/src/parser.rs:64-96 | offsets map into `00..18`, and the negative offsets are exactly the bytes below `0C` |
| Protocol.LfoIndexByte | rustron-lib/src/parser.rs:105-113 | LFO slots map into `00..04` |
| Protocol.LfoShapeByte | rustron-lib/src/parser.rs:115-123 | LFO shapes map into `00..04` |
| Protocol.LfoPhaseOffsetByte | rustron-lib/src/parser.rs:125-136 | phase offsets map into `00..07` |
| Protocol.PhaseDegrees | rustron-lib/src/parser.rs:125-136 | each phase-offset step is 45 degrees times its byte |
| Protocol.ModSourceByte | rustron-lib/src/parser.rs:138-145 | modulation sources map into `00..03` |
| Protocol.AssignOutOptionByte | rustron-lib/src/parser.rs:147-155 | assignable-output options map into `00..04` |
| Protocol.RetriggerModeByte | rustron-lib/src/parser.rs:48-53 | retrigger modes map to `00` or `01` |
| Protocol.PercentByte | rustron-lib/src/parser.rs:37-39 | a percent level is carried by its raw byte, which gives the level back |
| Protocol.ChannelByte | rustron-lib/src/protocol.rs:228-249 | the device-id byte of a channel is in `00..0F` and never `0E`; channel n is byte n−1 except channel Fifteen |
| Protocol.ChannelByteCollision | rustron-lib/src/protocol.rs:244-245 | two channels share a byte exactly when they are equal or are Fourteen and Fifteen |
| Protocol.MidiChannelByte | rustron-lib/src/parser.rs:202-221 | the channel byte the decoder reads is in `00..0F` |
| Protocol.MidiChannelByteInjective | rustron-lib/src/parser.rs:202-221 | the decoder's channel table is one-to-one |
| Protocol.DeviceIdByte | rustron-lib/src/protocol.rs:257-264 | the address byte is `7F` exactly for multicast; otherwise it is the channel's byte |
| Protocol.Opcode | rustron-lib/src/parser.rs:157-200 | every setting has an opcode of at most `3B` |
| Protocol.Payload | rustron-lib/src/parser.rs:157-200 | the two LFO slot settings carry two bytes and every other setting carries one; reset order and key-range reset carry `00` |
| Protocol.SettingBytes | rustron-lib/src/protocol.rs:137-206 | a setting's wire form is its opcode followed by its payload |
| Protocol.AppendTo | rustron-lib/src/protocol.rs:137-206 | `append_to` appends exactly the setting's wire form and leaves the buffer's prefix unchanged |
| Protocol.AppendOriginal | rustron-lib/src/protocol.rs:137-206 | each of the library's 16 `append_to` arms appends exactly its setting's wire form |
| Protocol.AppendReconstructed | rustron-lib/src/parser.rs:157-200 | the reconstructed arms for the other 14 settings append exactly the wire form the decoder reads |
| Protocol.KindBytes | rustron-lib/src/protocol.rs:282-323 | kinds take one byte, except the version response and the update, which take two bytes ending in the protocol version |
| Protocol.KindBytesDistinct | rustron-lib/src/protocol.rs:282-323 | the first kind byte determines the kind |
| Protocol.MessageBytes | rustron-lib/src/protocol.rs:282-323 | an encoded message is the header, the address byte, the kind bytes, the body and `F7`, at the stated offsets and length |
| Protocol.AsBytes | rustron-lib/src/protocol.rs:283-322 | the step-by-step buffer building produces exactly the encoded message |
| Protocol.Wrapped | rustron-lib/src/protocol.rs:32-45 | a wrapped payload is `F0 00 20 32 28 7F 0A`, the payload, then `F7`, and is 8 bytes longer |
| Protocol.WrapMessage | rustron-lib/src/protocol.rs:32-45 | `wrap_message` builds exactly the wrapped payload |
| Protocol.WrappedIsMulticastSet | rustron-lib/src/protocol.rs:32-45 | wrapping a setting's wire form is the multicast "set" message for it |
| Protocol.RestoreDefaultSettings | rustron-lib/src/protocol.rs:526-541 | the restore frame is `F0 00 20 32 28 7F 0B F7`, the multicast restore message, with no `0A` byte |
| Protocol.MaybeRequestState | rustron-lib/src/protocol.rs:547-559 | the state request is `F0 00 20 32 28 7F 05 F7`, a multicast-addressed frame |
| Protocol.MaybeRequestStateTwo | rustron-lib/src/protocol.rs:573-586 | the connect-time request is `F0 00 20 32 28 7F 73 F7`, the multicast version request |
| Protocol.PacketText | rustron-lib/src/protocol.rs:18-30 | for a packet of at least five bytes (shorter ones panic on `bytes[4]`), the text is `B[ ` … ` ]`, two characters longer for a non-Neutron device byte, with two hex digits per remaining byte |
| Protocol.FormatBehringerPacket | rustron-lib/src/protocol.rs:18-30 | for a packet of at least five bytes (shorter ones panic on `bytes[4]`), building the text piece by piece gives the packet text |
| Protocol.PacketTextDeterminesTail | rustron-lib/src/protocol.rs:18-30 | equal packet texts come from packets equal from the device byte on |
| Parser.ParseToggleOption | rustron-lib/src/parser.rs:26-31 | succeeds exactly on `00`/`01`, consuming that one byte, which is the toggle's encoding |
| Parser.ParsePercent | rustron-lib/src/parser.rs:33-39 | succeeds on any non-empty input, consuming one byte, which is the level's encoding |
| Parser.ParseBlendMode | rustron-lib/src/parser.rs:41-46 | succeeds exactly on `00`/`01`, consuming the blend mode's encoding |
| Parser.ParseRetriggerMode | rustron-lib/src/parser.rs:48-53 | succeeds exactly on `00`/`01`, consuming the retrigger mode's encoding |
| Parser.ParseOscRange | rustron-lib/src/parser.rs:55-62 | succeeds exactly on `00..03`, consuming the range's encoding |
| Parser.ParseAutoglideSemitones | rustron-lib/src/parser.rs:64-96 | succeeds exactly on `00..18`, consuming the offset's encoding |
| Parser.ParseKeyTrackMode | rustron-lib/src/parser.rs:98-103 | succeeds exactly on `00`/`01`, consuming the mode's encoding |
| Parser.ParseLfoIndex | rustron-lib/src/parser.rs:105-113 | succeeds exactly on `00..04`, consuming the slot's encoding |
| Parser.ParseLfoShape | rustron-lib/src/parser.rs:115-123 | succeeds exactly on `00..04`, consuming the shape's encoding |
| Parser.ParseLfoPhaseOffset | rustron-lib/src/parser.rs:125-136 | succeeds exactly on `00..07`, consuming the offset's encoding |
| Parser.ParseModSource | rustron-lib/src/parser.rs:138-145 | succeeds exactly on `00..03`, consuming the source's encoding |
| Parser.ParseAssignOutOption | rustron-lib/src/parser.rs:147-155 | succeeds exactly on `00..04`, consuming the option's encoding |
| Parser.ParseChannel | rustron-lib/src/parser.rs:202-221 | succeeds exactly on `00..0F`, consuming the channel's byte (n−1) |
| Parser.ParseDeviceId | rustron-lib/src/parser.rs:223-228 | succeeds exactly on `7F` or `00..0F`, consuming one byte; multicast exactly for `7F`, otherwise the channel whose byte was read |
| Parser.ParseGlobalSetting | rustron-lib/src/parser.rs:157-200 | whatever it accepts is the wire form of the setting it returns, followed by the remainder |
| Parser.NonEoxRun | rustron-lib/src/parser.rs:230-234 | the length of the longest prefix without `F7` |
| Parser.ParseVersion | rustron-lib/src/parser.rs:230-234 | succeeds exactly when the input is non-empty and does not start with `F7`; takes the maximal run without `F7` and leaves the rest |
| Parser.AddressByte | rustron-lib/src/parser.rs:223-228 | the byte the decoder reads as an address: `7F` exactly for multicast, the channel's byte n−1 otherwise |
| Parser.ParseAddressedBody | rustron-lib/src/parser.rs:236-261 | what it accepts is the address, the kind bytes and the body of a decodable message, and a setting in it is one the catalogue decoder accepts |
| Parser.ParseFrame | rustron-lib/src/parser.rs:236-261 | what it accepts is the frame of a decodable message followed by the remainder |
| Parser.ParseNeutronMessage | rustron-lib/src/parser.rs:236-261 | the full decoder only accepts frames of decodable messages (never calibration, never an empty version) |
| CodecProperties.DeviceIdRoundTrip | rustron-lib/src/parser.rs:429-444 | every address is read back from its address byte, leaving the rest |
| CodecProperties.AddressBytesAgree | rustron-lib/src/protocol.rs:228-264 | the encoder's address byte equals the decoder's exactly when the address is not channel Fifteen |
| CodecProperties.MessageBytesAreDecodedFrame | rustron-lib/src/protocol.rs:282-323 | the encoded message is the decoder's frame exactly when the address is not channel Fifteen |
| CodecProperties.GlobalSettingRoundTrip | rustron-lib/src/parser.rs:379-427 | every one of the 30 settings is decoded back from its wire form, leaving the rest |
| CodecProperties.OscillatorSettingRoundTrip | rustron-lib/src/parser.rs:160-167 | paraphonic mode, sync and the two oscillators' blend, tune-pot bypass and range are each read back from their wire form, leaving the rest |
| CodecProperties.LfoAndFilterSettingRoundTrip | rustron-lib/src/parser.rs:168-176 | oscillator-2 key tracking, the LFO's blend, key sync, one-shot, retrigger, MIDI sync and reset order, and VCF key tracking are each read back, leaving the rest |
| CodecProperties.LevelSettingRoundTrip | rustron-lib/src/parser.rs:174-195 | the two autoglides, the LFO and VCF modulation depths and the VCF modulation source are each read back, leaving the rest |
| CodecProperties.OptionSettingRoundTrip | rustron-lib/src/parser.rs:178-197 | MIDI channel, MIDI dips, poly chain, key-range mute and reset, assignable output and envelope retrigger are each read back, leaving the rest |
| CodecProperties.LfoSlotSettingRoundTrip | rustron-lib/src/parser.rs:187-194 | the two-byte LFO slot settings (shape order and phase) are read back, slot first, leaving the rest |
| CodecProperties.SettingBytesPrefixFree | rustron-lib/src/parser.rs:157-200 | no setting's wire form is a prefix of another's |
| CodecProperties.OpcodeTable | rustron-lib/src/parser.rs:157-200 | the catalogue dispatches on 30 pairwise-distinct opcodes |
| CodecProperties.OpcodeListed | rustron-lib/src/parser.rs:157-200 | every setting's opcode is in the table |
| CodecProperties.OpcodesOutsideCatalogue | src/protocol.rs:39-58 | the opcodes of key split, note priority, pitch bend, key-range min/max, VCF mode and LFO key tracking are not in the table |
| CodecProperties.UnknownOpcodeRejected | rustron-lib/src/parser.rs:157-200 | an opcode outside the table is rejected whatever follows |
| CodecProperties.PlaceholderMustBeZero | rustron-lib/src/parser.rs:175-186 | after `39` or `06` the decoder accepts exactly the byte `00` |
| CodecProperties.ShapeOrderFieldOrder | rustron-lib/src/parser.rs:187-190 | `38 01 04` is slot Two, shape RisingSaw: index first, then value |
| CodecProperties.VersionRoundTrip | rustron-lib/src/parser.rs:230-234 | a non-empty version without `F7` is read back up to the terminator |
| CodecProperties.VersionBodyRoundTrip | rustron-lib/src/parser.rs:250-253 | the version-response branch reads back its address and version |
| CodecProperties.SetBodyRoundTrip | rustron-lib/src/parser.rs:240-243 | after the address, `0A` and a setting the catalogue decoder reads back give the "set" message for that address and setting |
| CodecProperties.UpdateBodyRoundTrip | rustron-lib/src/parser.rs:254-257 | after the address, `5A 01` and a setting the catalogue decoder reads back give the update message for that address and setting |
| CodecProperties.BareBodyRoundTrip | rustron-lib/src/parser.rs:244-249 | the address followed by `0B` or `73` is read back as the restore or version request for that address |
| CodecProperties.AddressedBodyRoundTrip | rustron-lib/src/parser.rs:236-261 | every decodable message's address, kind and body are read back up to the terminator |
| CodecProperties.FrameRoundTrip | rustron-lib/src/parser.rs:236-261 | every decodable message is read back from its frame, with any trailing bytes as the remainder |
| CodecProperties.FrameSettingDecoded | rustron-lib/src/parser.rs:236-261 | a setting in a decoded frame is what the catalogue decoder reads at that point, up to the terminator |
| CodecProperties.MessageRoundTrip | rustron-lib/src/parser.rs:446-505 | decoding the encoding of any decodable message not on channel Fifteen gives the message and the trailing bytes |
| CodecProperties.MessageRoundTripExactly | rustron-lib/src/parser.rs:446-505 | that round trip holds if and only if the message is decodable and not on channel Fifteen |
| CodecProperties.ChannelFifteenReadAsFourteen | rustron-lib/src/protocol.rs:244-245 | a message for channel Fifteen is decoded as the same message for channel Fourteen |
| CodecProperties.ParsedIsEncoding | rustron-lib/src/parser.rs:236-261 | any decoded input is the message's encoding, except that channel Fifteen's byte is `0E` |
| CodecProperties.FifteenFrameDiffersAtAddress | rustron-lib/src/protocol.rs:244-245 | for channel Fifteen the decoder's frame is the encoder's with the address byte replaced by `0E` |
| CodecProperties.UnknownSettingFrameRejected | rustron-lib/src/parser.rs:157-200 | a wrapped payload with an opcode outside the catalogue is rejected |
| CodecProperties.CalibrationNotDecoded | rustron-lib/src/protocol.rs:298-302 | the encoded calibration command does not decode |
| CodecProperties.RequestStateNotDecoded | rustron-lib/src/protocol.rs:547-559 | the `05` state request does not decode |
| CodecProperties.ParaphonicOnFrame | rustron-lib/src/parser.rs:446-505 | `F0 00 20 32 28 7F 0A 0F 01 F7` is multicast paraphonic On, and it is that message's encoding |
| CodecProperties.AcknowledgementFrame | rustron-lib/src/parser.rs:446-505 | `… 00 5A 01 0F 01 F7` is channel One's update of paraphonic On |
| CodecProperties.VersionResponseFrame | rustron-lib/src/parser.rs:446-505 | `… 7F 74 01 "1.2.3" F7` is the version response "1.2.3", with the following byte as remainder |
| LegacyParser.ParseLegacySetting | src/parser.rs:60-83 | accepts only the wire forms of the 16 older settings |
| LegacyParser.ParseLegacyMessage | src/parser.rs:119-144 | accepts only frames of decodable messages |
| LegacyParser.LegacySettingRoundTrip | src/parser.rs:237-303 | each of the 16 settings is read back from its wire form |
| LegacyParser.LegacySettingIsRestriction | src/parser.rs:60-83 | the older catalogue gives the full catalogue's result on the 16 settings and fails on everything else |
| LegacyParser.LegacyOpcodeTable | src/parser.rs:60-83 | the 16 older opcodes are distinct and all in the full table |
| LegacyParser.LegacyOpcode | src/parser.rs:60-83 | a setting is one of the 16 exactly when its opcode is in the older table |
| LegacyParser.OriginalOpcodeListed | src/parser.rs:60-83 | the opcode of each of the 16 older settings is in the older table |
| LegacyParser.ReconstructedOpcodeUnlisted | src/parser.rs:60-83 | the opcode of every other setting is not in the older table |
| LegacyParser.LegacyMessageIsRestriction | src/parser.rs:119-144 | the older message decoder agrees with the full one on messages with an older setting and fails on the rest |
| LegacyParser.LegacyMessageRoundTrip | src/parser.rs:322-381 | every decodable message with an older setting, not on channel Fifteen, is read back from its encoding |
| LegacyParser.LegacyRejectsNewSettings | src/parser.rs:60-83 | set and update messages with a newer setting are rejected by the older decoder |
| LegacyParser.LegacyRejectsNewSetting | src/parser.rs:60-83 | the same, for one set or update message at a time |
| CommandHelpers.GeneralPayload | src/protocol.rs:21-58 | each builder's payload is two or three bytes |
| CommandHelpers.GeneralPayloadIsSetting | src/protocol.rs:21-37 | the paraphonic and sync builders wrap exactly their setting's wire form |
| CommandHelpers.GeneralOpcodeUnknown | src/protocol.rs:39-58 | the key-split builder is the only one here without a setting, and its opcode is outside the catalogue |
| CommandHelpers.OscOnePayload | src/protocol.rs:60-98 | each builder's payload is two or three bytes |
| CommandHelpers.OscOnePayloadIsSetting | src/protocol.rs:60-98 | every oscillator-1 builder wraps its setting's wire form (`osc_1_range_16` is `26 01`) |
| CommandHelpers.OscOneOpcodeUnknown | src/protocol.rs:60-98 | every oscillator-1 builder has a catalogue setting, and its opcode is in the catalogue |
| CommandHelpers.OscTwoPayload | src/protocol.rs:100-145 | each builder's payload is two or three bytes |
| CommandHelpers.OscTwoPayloadIsSetting | src/protocol.rs:100-145 | every oscillator-2 builder wraps its setting's wire form |
| CommandHelpers.OscTwoOpcodeUnknown | src/protocol.rs:100-145 | every oscillator-2 builder has a catalogue setting, and its opcode is in the catalogue |
| CommandHelpers.LfoPayload | src/protocol.rs:147-244 | each builder's payload is two or three bytes |
| CommandHelpers.LfoPayloadIsSetting | src/protocol.rs:147-244 | the LFO builders with a setting wrap its wire form |
| CommandHelpers.LfoOpcodeUnknown | src/protocol.rs:188-197 | only LFO key tracking has no setting, and its opcode `32` is outside the catalogue |
| CommandHelpers.VcfPayload | src/protocol.rs:246-277 | each builder's payload is two or three bytes |
| CommandHelpers.VcfPayloadIsSetting | src/protocol.rs:246-277 | the VCF builders with a setting wrap its wire form |
| CommandHelpers.VcfOpcodeUnknown | src/protocol.rs:271-277 | only VCF mode has no setting, and its opcode `10` is outside the catalogue |
| CommandHelpers.OptionsPayload | src/protocol.rs:279-365 | each builder's payload is two or three bytes |
| CommandHelpers.OptionsPayloadIsSetting | src/protocol.rs:279-365 | the option builders with a setting wrap its wire form |
| CommandHelpers.OptionsOpcodeUnknown | src/protocol.rs:304-361 | note priority, pitch bend and key-range min/max have no setting, and their opcodes are outside the catalogue |
| CommandHelpers.HelperPayload | src/protocol.rs:21-365 | every builder's payload is two or three bytes |
| CommandHelpers.HelperBytes | src/protocol.rs:6-19 | every builder returns 10 or 11 bytes starting `F0 00 20 32 28 7F 0A` and ending `F7` |
| CommandHelpers.HelperPayloadIsSetting | src/protocol.rs:21-365 | a builder's payload is its setting's wire form, and it has no setting exactly when its opcode is outside the catalogue |
| CommandHelpers.HelperIsSetCommand | src/protocol.rs:62-92 | a builder with a setting returns exactly the multicast "set" message for that setting |
| CommandHelpers.HelperDecodes | src/protocol.rs:21-365 | the decoder reads each builder's frame as its setting's multicast "set", or rejects it when the builder has no setting |
| CommandHelpers.ParaphonicModeFrames | src/protocol.rs:21-27 | paraphonic on is `F0 00 20 32 28 7F 0A 0F 01 F7`, and off ends `0F 00 F7` |
| CommandHelpers.PhaseOffsetSendsShapeOrder | src/protocol.rs:211-244 | the phase-offset builder returns the same bytes as the shape-order builder |
| CommandHelpers.PhaseOffsetReadAsShapeOrder | src/protocol.rs:227-244 | the phase-offset builder's frame decodes as a shape-order setting |
| AppState.IsOn | src/app.rs:52 | a toggle reads as set exactly when its byte is `01` |
| AppState.SettingApplied | src/app.rs:51-84 | paraphonic mode records its flag; every other setting leaves the state as it was; address and sync are never changed |
| AppState.MessageApplied | src/app.rs:86-101 | set and update messages apply their setting, and every other kind leaves the state unchanged |
| AppState.NeutronState.constructor | src/app.rs:46-49 | a new tracker starts with address 0 and both flags clear |
| AppState.NeutronState.GlobalSettingUpdate | src/app.rs:51-84 | the tracker's new state is the setting applied to the old one |
| AppState.NeutronState.Update | src/app.rs:86-101 | the tracker's new state is the message applied to the old one |
| AppState.AllAppliedTracksParaphonic | src/app.rs:51-101 | after any stream of messages the paraphonic flag is the last one carried (or the initial one), and address and sync are unchanged |
| AppState.MessageAppliedIdempotent | src/app.rs:86-101 | applying the same message twice is the same as applying it once |
| AppState.ParaphonicModeIsUpdated | src/app.rs:161-169 | the flag reads false, then true after a sent On, then false after an acknowledged Off |
| AppState.NextIndex | src/app.rs:117-119 | stepping forward stays in range and wraps from the last position to the first |
| AppState.PreviousIndex | src/app.rs:121-127 | stepping back stays in range and wraps from the first position to the last |
| AppState.PreviousUndoesNext | src/app.rs:139-149 | a step back undoes a step forward |
| AppState.NextUndoesPrevious | src/app.rs:139-149 | a step forward undoes a step back |
| AppState.StepsForward | src/app.rs:139-141 | repeated forward steps stay in range |
| AppState.StepsForwardWraps | src/app.rs:139-141 | k ≤ n forward steps move k places, wrapping past the end once, so n steps return to the start |
| AppState.ListState.constructor | src/app.rs:110-115 | a new list selects its first item |
| AppState.ListState.SelectNext | src/app.rs:117-119 | the selection steps forward with wrap-around, the items are unchanged, and the list must not be empty |
| AppState.ListState.SelectPrevious | src/app.rs:121-127 | the selection steps back with wrap-around, and the items are unchanged |
| AppState.TabsState.constructor | src/app.rs:136-138 | new tabs select the first tab |
| AppState.TabsState.Next | src/app.rs:139-141 | the index steps forward with wrap-around, and the titles are unchanged |
| AppState.TabsState.Previous | src/app.rs:143-149 | the index steps back with wrap-around, and the titles are unchanged |

## Findings

| source | as written | input that shows it | evidently intended | confidence | as-written member | corrected member |
|---|---|---|---|---|---|---|
| rustron-lib/src/protocol.rs:244-245 | `Channel::as_byte` maps both Fourteen and Fifteen to `0x0d` | `SetGlobalSetting(Channel(Fifteen), g)` encodes with address byte `0D` and decodes as `Channel(Fourteen)` | Fifteen is `0x0e`, i.e. channel n is byte n−1, as the decoder's table (rustron-lib/src/parser.rs:202-221) reads it | high (from the table alone; not executed) | CodecProperties.ChannelFifteenReadAsFourteen | CodecProperties.DeviceIdRoundTrip |

The as-written table is `Protocol.ChannelByte`. Every frame the encoder builds uses it, as the source does.
`CodecProperties.ChannelFifteenReadAsFourteen` shows what it leads to. `Protocol.ChannelByteCollision` shows that Fourteen and Fifteen share a byte.

The corrected table is `Parser.AddressByte`. It uses `Protocol.MidiChannelByte`, which is channel n as byte n−1, and is proved injective.
`CodecProperties.DeviceIdRoundTrip` proves that every address round-trips through it. `CodecProperties.FrameRoundTrip` uses it for every decodable message.
The reconstructed `MidiChannel` setting payload also uses the corrected table, because the library's test iterates over all 16 channels (rustron-lib/src/parser.rs:379-427).

## Left out

- **I/O and the application around the state module.** MIDI port discovery, USB enumeration, sleeping, threads, channels, logging, terminal key handling, and the `App` struct and GUI front ends are not part of this model.
- **nom's error values.** The difference between a recoverable error and a `cut` failure is not modelled; both are `None`.
- **Version strings.** They are raw bytes. `String::from_utf8_lossy` and `Display`/`Debug` formatting are not modelled.
- **Hex text.** It is this project's own lowercase hex, not the `hex` crate.
- **Percent levels.** `Percent::from_percentage` is not modelled: its definition is not part of this model's source, and it may use floating point. So the test point where 50 percent becomes byte `31` is not stated; a percent level is its raw byte.
- **Unverified builders.** The builders in `src/protocol.rs` whose parameters exist only as comments are modelled as the fixed bytes they return, without those parameters. These are key split, LFO key tracking, VCF mode, note priority, pitch bend range and key-range min/max.
- **Duplicated library builders.** The library's copies of the fixed builders (rustron-lib/src/protocol.rs:327-524) are byte-for-byte the same as those in `src/protocol.rs`. They are modelled once, in `CommandHelpers`.
- **Duplicated older decoder tables.** The older decoder's value, channel, device-id and version decoders (src/parser.rs:30-58 and 85-117) are the same tables as the library's. They are modelled once, in `Parser`. Its `take_till1` version decoder accepts the same inputs as the library's `is_not`.
- AppState.ListState.SelectNext: does not model `usize` overflow of `selection + 1`. The fields are public and `new` accepts an empty list, so this is not an invariant of the type; what is proved is that after `SelectNext` the position is below the length (`NextIndex`) and `SelectPrevious` keeps it there (`PreviousIndex`), so `+ 1` cannot overflow once a method has run on a non-empty list.
- AppState.TabsState.Next: does not model `usize` overflow of `index + 1`; as for the list, `Next` and `Previous` keep the index below the number of titles once they have run on a non-empty tab bar, but the fields are public and nothing else bounds them.
- AppState.NeutronState.GlobalSettingUpdate: `ToggleOption`'s conversion to `bool` is taken as On → true, Off → false, as the tracker's test requires; the conversion itself is not part of this model's source.
- Protocol.PacketText: packets shorter than five bytes panic in the source (`bytes[4]` at rustron-lib/src/protocol.rs:19); the requires of `PacketText` and `FormatBehringerPacket` excludes them instead of modelling the panic.

/**
 * Records and constants of the plugin base class.
 *
 * The enumerations and numeric constants that carla_plugin.h uses but does not
 * declare (plugin types, parameter kinds, custom-data kinds, the reserved
 * parameter indices and the hint bits) live in carla_shared.h, which is not
 * part of this model; the values given here are assumed, and only their
 * being distinct matters.
 */
module CarlaTypes {

  /** uint8_t */
  type Byte = x: int | 0 <= x < 256

  /** int16_t */
  type Int16 = x: int | -0x8000 <= x < 0x8000

  /** Capacity of the external MIDI note buffer (MAX_MIDI_EVENTS). */
  const MAX_MIDI_EVENTS: nat := 512

  /** Capacity of the deferred post-event buffer (MAX_POST_EVENTS). */
  const MAX_POST_EVENTS: nat := 152

  /** Native indices reserved for the global controls of a bridged plugin. */
  const PARAMETER_ACTIVE: int := -1
  const PARAMETER_DRYWET: int := -2
  const PARAMETER_VOLUME: int := -3
  const PARAMETER_BALANCE_LEFT: int := -4
  const PARAMETER_BALANCE_RIGHT: int := -5

  /** Hint bit: this instance fronts an out-of-process bridge. */
  const PLUGIN_IS_BRIDGE: bv32 := 0x01

  predicate IsBridge(hints: bv32)
  {
    hints & PLUGIN_IS_BRIDGE != 0
  }

  datatype PluginType = PluginNone | PluginLadspa | PluginDssi | PluginLv2 | PluginVst | PluginSf2

  /** Kinds of deferred notification (PluginPostEventType). */
  datatype PostEventType =
    | PostEventDebug
    | PostEventParameterChange
    | PostEventProgramChange
    | PostEventMidiProgramChange
    | PostEventNoteOn
    | PostEventNoteOff
    | PostEventCustom

  /** The opaque `cdata` pointer of a post event: null, or some address. */
  datatype Payload = NoPayload | Payload(address: nat)

  /** A PluginPostEvent without its `valid` flag, which the slot carries. */
  datatype PostEvent = PostEvent(kind: PostEventType, index: int, value: real, cdata: Payload)

  /** An ExternalMidiNote without its `valid` flag, which the slot carries. */
  datatype MidiNote = MidiNote(onoff: bool, note: Byte, velo: Byte)

  /** PARAMETER_INPUT, PARAMETER_OUTPUT, or any other kind declared in carla_shared.h. */
  datatype ParameterType = ParameterInput | ParameterOutput | ParameterOther(code: nat)

  /** ParameterData: one row of the parameter table. */
  datatype ParameterData = ParameterData(
    kind: ParameterType,
    index: int,
    rindex: int,
    hints: bv32,
    midiChannel: Byte,
    midiCc: Int16)

  /** ParameterRanges: the value range of one parameter. */
  datatype ParameterRanges = ParameterRanges(
    def: real, min: real, max: real, step: real, stepSmall: real, stepLarge: real)

  /** midi_program_t */
  datatype MidiProgram = MidiProgram(bank: nat, program: nat, name: string)

  /** CUSTOM_DATA_INVALID, CUSTOM_DATA_STRING, or any other kind declared in carla_shared.h. */
  datatype CustomDataType = CustomDataInvalid | CustomDataString | CustomDataOther(code: nat)

  /** CustomData: one persisted key/value record. */
  datatype CustomData = CustomData(kind: CustomDataType, key: string, value: string)

  /** An opaque audio-server port handle (jack_port_t*). */
  datatype Port = Port(handle: nat)

  /** PluginAudioData: a group of audio ports and their native indices. */
  datatype AudioPorts = AudioPorts(count: nat, rindexes: seq<nat>, ports: seq<Port>)

  /** The state `delete_buffers` and the constructor leave an audio group in. */
  const NoAudioPorts := AudioPorts(0, [], [])
}

/**
 * State mirroring, reduced to a log of what the plugin hands to its
 * observers: the host-wide broadcast endpoint, the bridge peer of a bridged
 * instance, and the host callback. The wire encoding and delivery are outside
 * the model; only which message is sent, in which order, with which values.
 */
module Mirror {
  import opened CarlaTypes

  /** The host callback's event kinds used by the base class. */
  datatype CallbackAction =
    | CallbackParameterChanged
    | CallbackProgramChanged
    | CallbackMidiProgramChanged
    | CallbackNoteOn
    | CallbackNoteOff

  /** One outbound message. */
  datatype Sent =
      /** osc_global_send_set_parameter_value */
    | GlobalParameterValue(pluginId: int, index: int, value: real)
      /** osc_send_control to the bridge peer */
    | BridgeControl(index: int, value: real)
      /** osc_global_send_set_program */
    | GlobalProgram(pluginId: int, program: int)
      /** osc_global_send_set_midi_program */
    | GlobalMidiProgram(pluginId: int, program: int)
      /** osc_send_program to the bridge peer */
    | BridgeProgram(program: int)
      /** osc_global_send_set_default_value */
    | GlobalDefaultValue(pluginId: int, index: int, value: real)
      /** osc_global_send_note_on */
    | GlobalNoteOn(pluginId: int, note: Byte, velo: Byte)
      /** osc_global_send_note_off */
    | GlobalNoteOff(pluginId: int, note: Byte)
      /** callback_action */
    | Callback(action: CallbackAction, pluginId: int, value1: int, value2: int, value3: real)

  /**
   * The three-way fan-out of a control change: to the broadcast endpoint and,
   * for a bridged instance, to the bridge peer when `oscSend`; to the host
   * callback when `callbackSend`.
   */
  function ControlSends(pluginId: int, hints: bv32, index: int, value: real, oscSend: bool, callbackSend: bool): (ms: seq<Sent>)
    ensures |ms| == (if oscSend then (if IsBridge(hints) then 2 else 1) else 0) + (if callbackSend then 1 else 0)
    ensures oscSend ==> ms[0] == GlobalParameterValue(pluginId, index, value)
    ensures oscSend && IsBridge(hints) ==> ms[1] == BridgeControl(index, value)
    ensures callbackSend ==> ms[|ms| - 1] == Callback(CallbackParameterChanged, pluginId, index, 0, value)
  {
    (if oscSend then [GlobalParameterValue(pluginId, index, value)] + (if IsBridge(hints) then [BridgeControl(index, value)] else []) else [])
    + (if callbackSend then [Callback(CallbackParameterChanged, pluginId, index, 0, value)] else [])
  }

  /**
   * A control change reaches the broadcast endpoint exactly once when remote
   * propagation is asked for, carrying the stored value, and never otherwise.
   */
  lemma ControlBroadcastOnce(pluginId: int, hints: bv32, index: int, value: real, oscSend: bool, callbackSend: bool)
    ensures var ms := ControlSends(pluginId, hints, index, value, oscSend, callbackSend);
            (oscSend ==> ms[0] == GlobalParameterValue(pluginId, index, value)) &&
            (forall k :: 0 <= k < |ms| && ms[k].GlobalParameterValue? ==> oscSend && k == 0)
  {
  }

  /** The fan-out of a program change (`set_program`). */
  function ProgramSends(pluginId: int, hints: bv32, program: int, oscSend: bool, callbackSend: bool): (ms: seq<Sent>)
    ensures |ms| == (if oscSend then (if IsBridge(hints) then 2 else 1) else 0) + (if callbackSend then 1 else 0)
    ensures oscSend ==> ms[0] == GlobalProgram(pluginId, program)
    ensures oscSend && IsBridge(hints) ==> ms[1] == BridgeProgram(program)
    ensures callbackSend ==> ms[|ms| - 1] == Callback(CallbackProgramChanged, pluginId, program, 0, 0.0)
  {
    (if oscSend then [GlobalProgram(pluginId, program)] + (if IsBridge(hints) then [BridgeProgram(program)] else []) else [])
    + (if callbackSend then [Callback(CallbackProgramChanged, pluginId, program, 0, 0.0)] else [])
  }

  /**
   * The fan-out of a MIDI-program change (`set_midi_program`). The bridge peer
   * is sent a plain program change carrying the MIDI-program index.
   */
  function MidiProgramSends(pluginId: int, hints: bv32, program: int, oscSend: bool, callbackSend: bool): (ms: seq<Sent>)
    ensures |ms| == (if oscSend then (if IsBridge(hints) then 2 else 1) else 0) + (if callbackSend then 1 else 0)
    ensures oscSend ==> ms[0] == GlobalMidiProgram(pluginId, program)
    ensures oscSend && IsBridge(hints) ==> ms[1] == BridgeProgram(program)
    ensures callbackSend ==> ms[|ms| - 1] == Callback(CallbackMidiProgramChanged, pluginId, program, 0, 0.0)
  {
    (if oscSend then [GlobalMidiProgram(pluginId, program)] + (if IsBridge(hints) then [BridgeProgram(program)] else []) else [])
    + (if callbackSend then [Callback(CallbackMidiProgramChanged, pluginId, program, 0, 0.0)] else [])
  }

  /** One default-value broadcast per parameter, in table order. */
  function DefaultSends(pluginId: int, ranges: seq<ParameterRanges>): (ms: seq<Sent>)
    ensures |ms| == |ranges|
    ensures forall i :: 0 <= i < |ranges| ==> ms[i] == GlobalDefaultValue(pluginId, i, ranges[i].def)
  {
    if |ranges| == 0 then []
    else DefaultSends(pluginId, ranges[..|ranges| - 1]) + [GlobalDefaultValue(pluginId, |ranges| - 1, ranges[|ranges| - 1].def)]
  }

  /** The broadcasts for the first `i + 1` parameters extend those for the first `i` by one. */
  lemma DefaultSendsStep(pluginId: int, ranges: seq<ParameterRanges>, i: nat)
    requires i < |ranges|
    ensures DefaultSends(pluginId, ranges[..i + 1]) == DefaultSends(pluginId, ranges[..i]) + [GlobalDefaultValue(pluginId, i, ranges[i].def)]
  {
    assert ranges[..i + 1][..i] == ranges[..i];
  }

  /** The fan-out of an injected note (`send_midi_note`). */
  function NoteSends(pluginId: int, onoff: bool, note: Byte, velo: Byte, oscSend: bool, callbackSend: bool): (ms: seq<Sent>)
    ensures |ms| == (if oscSend then 1 else 0) + (if callbackSend then 1 else 0)
    ensures oscSend && onoff ==> ms[0] == GlobalNoteOn(pluginId, note, velo)
    ensures oscSend && !onoff ==> ms[0] == GlobalNoteOff(pluginId, note)
    ensures callbackSend ==> ms[|ms| - 1] == Callback(if onoff then CallbackNoteOn else CallbackNoteOff, pluginId, note, velo, 0.0)
  {
    (if oscSend then [if onoff then GlobalNoteOn(pluginId, note, velo) else GlobalNoteOff(pluginId, note)] else [])
    + (if callbackSend then [Callback(if onoff then CallbackNoteOn else CallbackNoteOff, pluginId, note, velo, 0.0)] else [])
  }
}

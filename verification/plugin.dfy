/**
 * The in-memory bookkeeping of the plugin base class: the deferred
 * post-event buffer, the external MIDI note buffer, the custom-data store,
 * the parameter and program tables and the four global controls. Messages to
 * the broadcast endpoint, the bridge peer and the host callback are recorded
 * in the ghost log `sent`, in the order the source issues them.
 */
module Plugin {
  import opened Wrappers
  import opened Slots
  import opened CarlaTypes
  import opened Parameters
  import opened CustomStore
  import opened Mirror
  import opened NotesOff

  class CarlaPlugin {
    var pluginType: PluginType
    var id: int
    var hints: bv32

    var active: bool
    var activeBefore: bool

    var name: Option<string>
    var filename: Option<string>

    var cinChannel: int

    var dryWet: real
    var volume: real
    var balanceLeft: real
    var balanceRight: real

    var ain: AudioPorts
    var aout: AudioPorts
    var midiIn: Option<Port>
    var midiOut: Option<Port>

    /** `param.data`, `param.ranges` and the two control ports; `param.count` is `|paramData|`. */
    var paramData: seq<ParameterData>
    var paramRanges: seq<ParameterRanges>
    var paramPortIn: Option<Port>
    var paramPortOut: Option<Port>

    /** `prog.names` and `prog.current`; `prog.count` is `|progNames|`. */
    var progNames: seq<string>
    var progCurrent: int

    /** `midiprog.data` and `midiprog.current`; `midiprog.count` is `|midiProgs|`. */
    var midiProgs: seq<MidiProgram>
    var midiProgCurrent: int

    var custom: seq<CustomData>

    /** `post_events.data` */
    const postEvents: array<Slot<PostEvent>>
    /** `ext_midi_notes` */
    const extMidiNotes: array<Slot<MidiNote>>

    /** Everything handed to observers so far, oldest first. */
    ghost var sent: seq<Sent>

    /** What every operation keeps: the buffer invariant and the field invariant. */
    ghost predicate Valid()
      reads this, postEvents, extMidiNotes
    {
      BuffersValid() && FieldsValid()
    }

    /** Both buffers at their fixed capacity, with their cells in use forming a prefix. */
    ghost predicate BuffersValid()
      reads postEvents, extMidiNotes
    {
      && postEvents.Length == MAX_POST_EVENTS
      && extMidiNotes.Length == MAX_MIDI_EVENTS
      && PrefixValid(postEvents[..])
      && PrefixValid(extMidiNotes[..])
    }

    /**
     * One range per parameter, custom-data keys unique, and the four controls
     * inside the ranges their setters clamp to.
     */
    ghost predicate FieldsValid()
      reads this
    {
      && |paramRanges| == |paramData|
      && UniqueKeys(custom)
      && 0.0 <= dryWet <= 1.0
      && 0.0 <= volume <= 1.27
      && -1.0 <= balanceLeft <= 1.0
      && -1.0 <= balanceRight <= 1.0
    }

    /** The deferred events awaiting delivery, in slot order. */
    ghost function PendingEvents(): seq<PostEvent>
      reads postEvents
    {
      Live(postEvents[..])
    }

    /** The injected notes awaiting the audio thread, in slot order. */
    ghost function PendingNotes(): seq<MidiNote>
      reads extMidiNotes
    {
      Live(extMidiNotes[..])
    }

    /**
     * A plugin with no type, id -1, no ports, tables or programs, both
     * cursors at -1, the controls at their neutral settings (dry/wet 1,
     * volume 1, balance -1 to 1) and both buffers empty.
     */
    constructor ()
      ensures Valid()
      ensures pluginType == PluginNone && id == -1 && hints == 0
      ensures !active && !activeBefore
      ensures name == None && filename == None && cinChannel == 0
      ensures dryWet == 1.0 && volume == 1.0 && balanceLeft == -1.0 && balanceRight == 1.0
      ensures ain == NoAudioPorts && aout == NoAudioPorts && midiIn == None && midiOut == None
      ensures paramData == [] && paramRanges == [] && paramPortIn == None && paramPortOut == None
      ensures progNames == [] && progCurrent == -1
      ensures midiProgs == [] && midiProgCurrent == -1
      ensures custom == []
      ensures PendingEvents() == [] && PendingNotes() == []
      ensures sent == []
      ensures fresh(postEvents) && fresh(extMidiNotes)
    {
      var events := new Slot<PostEvent>[MAX_POST_EVENTS];
      var notes := new Slot<MidiNote>[MAX_MIDI_EVENTS];
      ghost var events0, notes0 := events[..], notes[..];
      ClearAll(events);
      ClearAll(notes);
      ClearedIsEmpty(events0);
      ClearedIsEmpty(notes0);
      postEvents := events;
      extMidiNotes := notes;
      pluginType := PluginNone;
      id := -1;
      hints := 0;
      active := false;
      activeBefore := false;
      name := None;
      filename := None;
      cinChannel := 0;
      dryWet := 1.0;
      volume := 1.0;
      balanceLeft := -1.0;
      balanceRight := 1.0;
      ain := NoAudioPorts;
      aout := NoAudioPorts;
      midiIn := None;
      midiOut := None;
      paramData := [];
      paramRanges := [];
      paramPortIn := None;
      paramPortOut := None;
      progNames := [];
      progCurrent := -1;
      midiProgs := [];
      midiProgCurrent := -1;
      custom := [];
      sent := [];
    }

    /** `set_active`: the flag is stored and broadcast as 1.0 or 0.0. */
    method SetActive(value: bool, oscSend: bool, callbackSend: bool)
      requires Valid()
      modifies this`active, this`sent
      ensures Valid()
      ensures active == value
      ensures sent == old(sent) + ControlSends(id, hints, PARAMETER_ACTIVE, if value then 1.0 else 0.0, oscSend, callbackSend)
    {
      active := value;
      var v := if value then 1.0 else 0.0;
      sent := sent + ControlSends(id, hints, PARAMETER_ACTIVE, v, oscSend, callbackSend);
    }

    /** `set_drywet`: the value clamped into [0, 1] is stored and broadcast. */
    method SetDryWet(value: real, oscSend: bool, callbackSend: bool)
      requires Valid()
      modifies this`dryWet, this`sent
      ensures Valid()
      ensures dryWet == Clamp(value, 0.0, 1.0)
      ensures sent == old(sent) + ControlSends(id, hints, PARAMETER_DRYWET, dryWet, oscSend, callbackSend)
    {
      var v := value;
      if v < 0.0 {
        v := 0.0;
      } else if v > 1.0 {
        v := 1.0;
      }
      dryWet := v;
      sent := sent + ControlSends(id, hints, PARAMETER_DRYWET, v, oscSend, callbackSend);
    }

    /** `set_volume`: the value clamped into [0, 1.27] is stored and broadcast. */
    method SetVolume(value: real, oscSend: bool, callbackSend: bool)
      requires Valid()
      modifies this`volume, this`sent
      ensures Valid()
      ensures volume == Clamp(value, 0.0, 1.27)
      ensures sent == old(sent) + ControlSends(id, hints, PARAMETER_VOLUME, volume, oscSend, callbackSend)
    {
      var v := value;
      if v < 0.0 {
        v := 0.0;
      } else if v > 1.27 {
        v := 1.27;
      }
      volume := v;
      sent := sent + ControlSends(id, hints, PARAMETER_VOLUME, v, oscSend, callbackSend);
    }

    /** `set_balance_left`: the value clamped into [-1, 1] is stored and broadcast. */
    method SetBalanceLeft(value: real, oscSend: bool, callbackSend: bool)
      requires Valid()
      modifies this`balanceLeft, this`sent
      ensures Valid()
      ensures balanceLeft == Clamp(value, -1.0, 1.0)
      ensures sent == old(sent) + ControlSends(id, hints, PARAMETER_BALANCE_LEFT, balanceLeft, oscSend, callbackSend)
    {
      var v := value;
      if v < -1.0 {
        v := -1.0;
      } else if v > 1.0 {
        v := 1.0;
      }
      balanceLeft := v;
      sent := sent + ControlSends(id, hints, PARAMETER_BALANCE_LEFT, v, oscSend, callbackSend);
    }

    /** `set_balance_right`: the value clamped into [-1, 1] is stored and broadcast. */
    method SetBalanceRight(value: real, oscSend: bool, callbackSend: bool)
      requires Valid()
      modifies this`balanceRight, this`sent
      ensures Valid()
      ensures balanceRight == Clamp(value, -1.0, 1.0)
      ensures sent == old(sent) + ControlSends(id, hints, PARAMETER_BALANCE_RIGHT, balanceRight, oscSend, callbackSend)
    {
      var v := value;
      if v < -1.0 {
        v := -1.0;
      } else if v > 1.0 {
        v := 1.0;
      }
      balanceRight := v;
      sent := sent + ControlSends(id, hints, PARAMETER_BALANCE_RIGHT, v, oscSend, callbackSend);
    }

    /**
     * The base `set_parameter_value`: it stores nothing (that is left to each
     * plugin format) and only notifies; the broadcast goes out for input
     * parameters only, the host callback for any parameter.
     */
    method SetParameterValue(paramId: nat, value: real, oscSend: bool, callbackSend: bool)
      requires paramId < |paramData|
      modifies this`sent
      ensures sent == old(sent) + ControlSends(id, hints, paramId, value, oscSend && paramData[paramId].kind == ParameterInput, callbackSend)
    {
      var broadcast := oscSend && paramData[paramId].kind == ParameterInput;
      sent := sent + ControlSends(id, hints, paramId, value, broadcast, callbackSend);
    }

    /**
     * `set_parameter_value_rindex`: the value goes where `RindexRoute` says.
     * Only the control on that route changes; balance-right never does.
     */
    method SetParameterValueRindex(rindex: int, value: real, oscSend: bool, callbackSend: bool)
      requires Valid()
      modifies this`active, this`dryWet, this`volume, this`balanceLeft, this`balanceRight, this`sent
      ensures Valid()
      ensures var route := RindexRoute(IsBridge(hints), paramData, rindex);
              && (route == ToActive ==>
                    active == (value > 0.0) &&
                    sent == old(sent) + ControlSends(id, hints, PARAMETER_ACTIVE, if value > 0.0 then 1.0 else 0.0, oscSend, callbackSend))
              && (route == ToDryWet ==>
                    dryWet == Clamp(value, 0.0, 1.0) &&
                    sent == old(sent) + ControlSends(id, hints, PARAMETER_DRYWET, dryWet, oscSend, callbackSend))
              && (route == ToVolume ==>
                    volume == Clamp(value, 0.0, 1.27) &&
                    sent == old(sent) + ControlSends(id, hints, PARAMETER_VOLUME, volume, oscSend, callbackSend))
              && (route == ToBalanceLeft ==>
                    balanceLeft == Clamp(value, -1.0, 1.0) &&
                    sent == old(sent) + ControlSends(id, hints, PARAMETER_BALANCE_LEFT, balanceLeft, oscSend, callbackSend))
              && (route.ToParameter? ==>
                    sent == old(sent) + ControlSends(id, hints, route.paramId, value,
                                                     oscSend && paramData[route.paramId].kind == ParameterInput, callbackSend))
              && (route == Unrouted ==> sent == old(sent))
              && (route != ToActive ==> active == old(active))
              && (route != ToDryWet ==> dryWet == old(dryWet))
              && (route != ToVolume ==> volume == old(volume))
              && (route != ToBalanceLeft ==> balanceLeft == old(balanceLeft))
      ensures balanceRight == old(balanceRight)
    {
      ghost var route := RindexRoute(IsBridge(hints), paramData, rindex);
      if IsBridge(hints) {
        if rindex == PARAMETER_ACTIVE {
          assert route == ToActive;
          SetActive(value > 0.0, oscSend, callbackSend);
          return;
        } else if rindex == PARAMETER_DRYWET {
          assert route == ToDryWet;
          SetDryWet(value, oscSend, callbackSend);
          return;
        } else if rindex == PARAMETER_VOLUME {
          assert route == ToVolume;
          SetVolume(value, oscSend, callbackSend);
          return;
        } else if rindex == PARAMETER_BALANCE_LEFT {
          assert route == ToBalanceLeft;
          SetBalanceLeft(value, oscSend, callbackSend);
          return;
        } else if rindex == PARAMETER_BALANCE_LEFT {
          // The source calls set_balance_right here, under the same test as
          // the branch above, so this branch is never taken.
          assert false;
        }
      }
      assert route.ToParameter? || route == Unrouted;
      SetFirstParameterWithRindex(rindex, value, oscSend, callbackSend);
    }

    /**
     * The scan at the end of `set_parameter_value_rindex`: the first parameter
     * whose native index matches is set; later duplicates are ignored, and
     * with no match nothing is sent.
     */
    method SetFirstParameterWithRindex(rindex: int, value: real, oscSend: bool, callbackSend: bool)
      modifies this`sent
      ensures match FindByRindex(paramData, rindex)
              case Some(i) =>
                sent == old(sent) + ControlSends(id, hints, i, value, oscSend && paramData[i].kind == ParameterInput, callbackSend)
              case None =>
                sent == old(sent)
    {
      var i := 0;
      while i < |paramData|
        invariant 0 <= i <= |paramData|
        invariant forall j :: 0 <= j < i ==> paramData[j].rindex != rindex
        invariant sent == old(sent)
      {
        if paramData[i].rindex == rindex {
          SetParameterValue(i, value, oscSend, callbackSend);
          return;
        }
        i := i + 1;
      }
    }

    /** `set_parameter_midi_channel`: only that parameter's MIDI channel changes. */
    method SetParameterMidiChannel(index: nat, channel: Byte)
      requires Valid()
      requires index < |paramData|
      modifies this`paramData
      ensures Valid()
      ensures paramData == old(paramData)[index := old(paramData)[index].(midiChannel := channel)]
    {
      paramData := paramData[index := paramData[index].(midiChannel := channel)];
    }

    /** `set_parameter_midi_cc`: only that parameter's MIDI controller number changes. */
    method SetParameterMidiCc(index: nat, midiCc: Int16)
      requires Valid()
      requires index < |paramData|
      modifies this`paramData
      ensures Valid()
      ensures paramData == old(paramData)[index := old(paramData)[index].(midiCc := midiCc)]
    {
      paramData := paramData[index := paramData[index].(midiCc := midiCc)];
    }

    /**
     * `set_custom_data`: the filter, then a scan for the key; a hit has its
     * value replaced, a miss is appended. The store keeps its keys unique.
     */
    method SetCustomData(kind: CustomDataType, key: string, value: string)
      requires Valid()
      modifies this`custom
      ensures Valid()
      ensures custom == Upsert(old(custom), kind, key, value)
    {
      var saveData := true;
      match kind {
        case CustomDataInvalid =>
          saveData := false;
        case CustomDataString =>
          if StartsWith(key, "OSC:") || key == "guiVisible" {
            saveData := false;
          }
        case CustomDataOther(_) =>
      }

      UpsertKeepsKeysUnique(custom, kind, key, value);
      if saveData {
        var alreadyHave := false;
        var i := 0;
        while i < |custom|
          invariant 0 <= i <= |custom|
          invariant forall j :: 0 <= j < i ==> custom[j].key != key
          invariant custom == old(custom) && !alreadyHave
        {
          if custom[i].key == key {
            KeyIndexAt(custom, key, i);
            custom := custom[i := custom[i].(value := value)];
            alreadyHave := true;
            break;
          }
          i := i + 1;
        }

        if !alreadyHave {
          custom := custom + [CustomData(kind, key, value)];
        }
      }
    }

    /**
     * The default-value refresh shared by both program setters: every
     * parameter's default becomes its current value (`current`, standing for
     * `get_parameter_value`), each one broadcast as it is set.
     */
    method ChangeDefaults(oscSend: bool, current: nat -> real)
      requires |paramRanges| == |paramData|
      modifies this`paramRanges, this`sent
      ensures |paramRanges| == |paramData|
      ensures paramRanges == Resnapshot(old(paramRanges), current)
      ensures sent == old(sent) + (if oscSend then DefaultSends(id, paramRanges) else [])
    {
      ghost var target := Resnapshot(paramRanges, current);
      var ranges := paramRanges;
      var i := 0;
      while i < |ranges|
        invariant 0 <= i <= |ranges| == |target|
        invariant forall j :: 0 <= j < i ==> ranges[j] == target[j]
        invariant forall j :: i <= j < |ranges| ==> ranges[j] == old(paramRanges)[j]
        invariant oscSend ==> sent == old(sent) + DefaultSends(id, target[..i])
        invariant !oscSend ==> sent == old(sent)
      {
        ranges := ranges[i := ranges[i].(def := current(i))];
        if oscSend {
          DefaultSendsStep(id, target, i);
          sent := sent + [GlobalDefaultValue(id, i, ranges[i].def)];
        }
        i := i + 1;
      }
      assert ranges == target;
      assert target[..i] == target;
      paramRanges := ranges;
    }

    /**
     * `set_program`: the cursor takes the index unchecked, the change is
     * broadcast, then every default is refreshed from the current values.
     */
    method SetProgram(index: int, oscSend: bool, callbackSend: bool, current: nat -> real)
      requires Valid()
      modifies this`progCurrent, this`paramRanges, this`sent
      ensures Valid()
      ensures progCurrent == index
      ensures paramRanges == Resnapshot(old(paramRanges), current)
      ensures sent == old(sent) + ProgramSends(id, hints, index, oscSend, callbackSend)
                    + (if oscSend then DefaultSends(id, paramRanges) else [])
    {
      progCurrent := index;
      sent := sent + ProgramSends(id, hints, progCurrent, oscSend, callbackSend);
      ChangeDefaults(oscSend, current);
    }

    /**
     * `set_midi_program`: the cursor takes the index unchecked and the change
     * is broadcast; the defaults are refreshed only for a SoundFont plugin.
     */
    method SetMidiProgram(index: int, oscSend: bool, callbackSend: bool, current: nat -> real)
      requires Valid()
      modifies this`midiProgCurrent, this`paramRanges, this`sent
      ensures Valid()
      ensures midiProgCurrent == index
      ensures paramRanges == if pluginType == PluginSf2 then Resnapshot(old(paramRanges), current) else old(paramRanges)
      ensures sent == old(sent) + MidiProgramSends(id, hints, index, oscSend, callbackSend)
                    + (if oscSend && pluginType == PluginSf2 then DefaultSends(id, paramRanges) else [])
    {
      midiProgCurrent := index;
      sent := sent + MidiProgramSends(id, hints, midiProgCurrent, oscSend, callbackSend);

      if pluginType != PluginSf2 {
        return;
      }

      ChangeDefaults(oscSend, current);
    }

    /**
     * `set_midi_program_full`: the first MIDI program with this (bank, program)
     * pair is selected as `SetMidiProgram` would select it; with no such
     * program nothing changes.
     */
    method SetMidiProgramFull(bank: nat, program: nat, oscSend: bool, callbackSend: bool, current: nat -> real)
      requires Valid()
      modifies this`midiProgCurrent, this`paramRanges, this`sent
      ensures Valid()
      ensures match FindMidiProgram(midiProgs, bank, program)
              case None =>
                midiProgCurrent == old(midiProgCurrent) && paramRanges == old(paramRanges) && sent == old(sent)
              case Some(i) =>
                && midiProgCurrent == i
                && paramRanges == (if pluginType == PluginSf2 then Resnapshot(old(paramRanges), current) else old(paramRanges))
                && sent == old(sent) + MidiProgramSends(id, hints, i, oscSend, callbackSend)
                          + (if oscSend && pluginType == PluginSf2 then DefaultSends(id, paramRanges) else [])
    {
      var i := 0;
      while i < |midiProgs|
        invariant 0 <= i <= |midiProgs|
        invariant forall j :: 0 <= j < i ==> !(midiProgs[j].bank == bank && midiProgs[j].program == program)
        invariant midiProgCurrent == old(midiProgCurrent) && paramRanges == old(paramRanges) && sent == old(sent)
      {
        if midiProgs[i].bank == bank && midiProgs[i].program == program {
          SetMidiProgram(i, oscSend, callbackSend, current);
          return;
        }
        i := i + 1;
      }
    }

    /**
     * `get_parameter_count_info`: the table size and the numbers of input and
     * output parameters, which together never exceed the table size.
     */
    method GetParameterCountInfo() returns (total: nat, ins: nat, outs: nat)
      ensures total == |paramData|
      ensures ins == CountOfType(paramData, ParameterInput)
      ensures outs == CountOfType(paramData, ParameterOutput)
      ensures ins + outs <= total
    {
      ins := 0;
      outs := 0;
      total := |paramData|;

      var i := 0;
      while i < |paramData|
        invariant 0 <= i <= |paramData|
        invariant ins == CountOfType(paramData[..i], ParameterInput)
        invariant outs == CountOfType(paramData[..i], ParameterOutput)
      {
        assert paramData[..i + 1][..i] == paramData[..i];
        if paramData[i].kind == ParameterInput {
          ins := ins + 1;
        } else if paramData[i].kind == ParameterOutput {
          outs := outs + 1;
        }
        i := i + 1;
      }
      assert paramData[..i] == paramData;
      InputsAndOutputsBounded(paramData);
    }

    /**
     * `delete_buffers`: the audio groups, MIDI ports, parameter tables and
     * control ports are reset to empty; programs, custom data, the controls
     * and both event buffers are left as they are.
     */
    method DeleteBuffers()
      requires Valid()
      modifies this`ain, this`aout, this`midiIn, this`midiOut
      modifies this`paramData, this`paramRanges, this`paramPortIn, this`paramPortOut
      ensures Valid()
      ensures ain == NoAudioPorts && aout == NoAudioPorts
      ensures midiIn == None && midiOut == None
      ensures paramData == [] && paramRanges == []
      ensures paramPortIn == None && paramPortOut == None
    {
      ain := NoAudioPorts;
      aout := NoAudioPorts;
      midiIn := None;
      midiOut := None;
      paramData := [];
      paramRanges := [];
      paramPortIn := None;
      paramPortOut := None;
    }

    /**
     * `postpone_event`: the event takes the first free slot, so it joins the
     * end of the pending events; with every slot in use it is dropped.
     */
    method PostponeEvent(kind: PostEventType, index: int, value: real, cdata: Payload)
      requires Valid()
      modifies postEvents
      ensures Valid()
      ensures postEvents[..] == Insert(old(postEvents[..]), PostEvent(kind, index, value, cdata))
      ensures PendingEvents() == if Full(old(postEvents[..])) then old(PendingEvents())
                                 else old(PendingEvents()) + [PostEvent(kind, index, value, cdata)]
    {
      InsertAppends(postEvents[..], PostEvent(kind, index, value, cdata));
      FillFirstFree(postEvents, PostEvent(kind, index, value, cdata));
    }

    /**
     * `post_events_copy`: the destination receives all 152 slots as they were,
     * so its pending entries are exactly the ones pending before the call;
     * then every slot is marked free, so nothing is pending afterwards.
     */
    method PostEventsCopy(dst: array<Slot<PostEvent>>)
      requires Valid()
      requires dst.Length == MAX_POST_EVENTS && dst != postEvents
      modifies postEvents, dst
      ensures Valid()
      ensures dst[..] == old(postEvents[..])
      ensures Live(dst[..]) == old(PendingEvents())
      ensures postEvents[..] == Cleared(old(postEvents[..]))
      ensures PendingEvents() == []
    {
      forall j | 0 <= j < MAX_POST_EVENTS {
        dst[j] := postEvents[j];
      }
      assert dst[..] == postEvents[..];
      ClearedIsEmpty(postEvents[..]);
      ClearAll(postEvents);
    }

    /**
     * `send_midi_note`: the note takes the first free slot of the external
     * buffer, so it joins the end of the pending notes; with every slot in use
     * it is dropped. It is then broadcast and reported to the host.
     */
    method SendMidiNote(onoff: bool, note: Byte, velo: Byte, oscSend: bool, callbackSend: bool)
      requires Valid()
      modifies extMidiNotes, this`sent
      ensures Valid()
      ensures extMidiNotes[..] == Insert(old(extMidiNotes[..]), MidiNote(onoff, note, velo))
      ensures PendingNotes() == if Full(old(extMidiNotes[..])) then old(PendingNotes())
                                else old(PendingNotes()) + [MidiNote(onoff, note, velo)]
      ensures sent == old(sent) + NoteSends(id, onoff, note, velo, oscSend, callbackSend)
    {
      InsertAppends(extMidiNotes[..], MidiNote(onoff, note, velo));
      FillFirstFree(extMidiNotes, MidiNote(onoff, note, velo));
      sent := sent + NoteSends(id, onoff, note, velo, oscSend, callbackSend);
    }

    /**
     * `send_midi_all_notes_off`: a scan finds the landing pad (the first free
     * post-event slot, or 0 with none free), then note-offs for notes 0..127
     * overwrite external slots 0..127 and post-event slots pad..pad+127. The
     * source writes past the end of the post-event buffer unless the pad is at
     * most 24; that is required here.
     */
    method SendMidiAllNotesOff()
      requires Valid()
      requires NotesOffPad(postEvents[..]) + NOTES_OFF_BURST <= MAX_POST_EVENTS
      modifies postEvents, extMidiNotes
      ensures Valid()
      ensures postEvents[..] == NotesOffPosted(old(postEvents[..]), NotesOffPad(old(postEvents[..])))
      ensures extMidiNotes[..] == NotesOffInjected(old(extMidiNotes[..]))
      ensures PendingEvents() == if Full(old(postEvents[..])) then PostedOffs(old(postEvents[..]), 0) + old(PendingEvents())[NOTES_OFF_BURST..]
                                 else old(PendingEvents()) + PostedOffs(old(postEvents[..]), Fill(old(postEvents[..])))
      ensures PendingNotes() == AllNoteOffs() + (if |old(PendingNotes())| > NOTES_OFF_BURST then old(PendingNotes())[NOTES_OFF_BURST..] else [])
    {
      ghost var events0, notes0 := postEvents[..], extMidiNotes[..];
      var pad := NotesOffLandingPad();
      WriteNotesOffBurst(pad);
      NotesOffPostedPending(events0);
      NotesOffInjectedPending(notes0);
    }

    /**
     * The burst loop of `send_midi_all_notes_off`: for i in 0..127, external
     * slot i becomes a valid note-off for note i at velocity 0, and post-event
     * slot pad + i becomes a valid note-off event for note i, keeping its payload.
     */
    method WriteNotesOffBurst(pad: nat)
      requires postEvents.Length == MAX_POST_EVENTS && extMidiNotes.Length == MAX_MIDI_EVENTS
      requires pad + NOTES_OFF_BURST <= MAX_POST_EVENTS
      modifies postEvents, extMidiNotes
      ensures postEvents[..] == NotesOffPosted(old(postEvents[..]), pad)
      ensures extMidiNotes[..] == NotesOffInjected(old(extMidiNotes[..]))
    {
      ghost var events0, notes0 := postEvents[..], extMidiNotes[..];
      var k := 0;
      while k < NOTES_OFF_BURST && k < MAX_MIDI_EVENTS && k < MAX_POST_EVENTS
        invariant 0 <= k <= NOTES_OFF_BURST
        invariant forall j :: 0 <= j < MAX_MIDI_EVENTS ==>
                    extMidiNotes[j] == if j < k then Slot(true, MidiNote(false, j, 0)) else notes0[j]
        invariant forall j :: 0 <= j < MAX_POST_EVENTS ==>
                    postEvents[j] == if pad <= j < pad + k then Slot(true, NoteOffEvent(events0[j].item, j - pad)) else events0[j]
      {
        extMidiNotes[k] := Slot(true, MidiNote(false, k, 0));
        postEvents[k + pad] := Slot(true, NoteOffEvent(postEvents[k + pad].item, k));
        k := k + 1;
      }
      PostedByCells(postEvents[..], events0, pad);
      InjectedByCells(extMidiNotes[..], notes0);
    }

    /**
     * The landing-pad scan of `send_midi_all_notes_off`: the first free
     * post-event slot, or 0 when every slot is in use.
     */
    method NotesOffLandingPad() returns (pad: nat)
      requires postEvents.Length == MAX_POST_EVENTS
      ensures pad == NotesOffPad(postEvents[..])
      ensures pad == if Full(postEvents[..]) then 0 else Fill(postEvents[..])
    {
      pad := 0;
      var i := 0;
      while i < MAX_POST_EVENTS
        invariant 0 <= i <= MAX_POST_EVENTS
        invariant forall j :: 0 <= j < i ==> postEvents[j].valid
        invariant pad == 0
      {
        if !postEvents[i].valid {
          pad := i;
          break;
        } else if i + MAX_MIDI_EVENTS == MAX_POST_EVENTS {
          // The source's "buffer full" exit; i + 512 never equals 152.
          assert false;
        }
        i := i + 1;
      }
    }
  }
}

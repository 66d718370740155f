# Carla plugin base class: a Dafny model

This project models the in-memory bookkeeping of `CarlaPlugin`, the base class
every plugin format derives from in Carla's backend
(`src/carla-backend/carla_plugin.h`). The class has these parts:

- **Deferred ("post") event buffer.** 152 slots. The audio thread records parameter, program and note
  changes here, and the host thread later drains them.
- **External MIDI note buffer.** 512 slots. The GUI and the host inject notes here.
- **Custom-data store.** A list of (kind, key, value) records with a filter and an update-or-append rule.
- **Tables and cursors.** The parameter table, the program and MIDI-program cursors, and the
  default-value refresh that a program change triggers.
- **Global controls.** Active, dry/wet, volume and the left and right balance, each clamped on entry.
- **Observer messages.** What the class sends to the host-wide broadcast endpoint, to the
  bridge peer of a bridged instance and to the host callback. These are kept as a ghost log
  (`sent`) of which message went out, in which order, with which values.

## Module layout

| File | Module | What it holds |
|---|---|---|
| `wrappers.dfy` | `Wrappers` | `Option` and the first-match scan the lookups share |
| `types.dfy` | `CarlaTypes` | the records, enums and constants (`MAX_MIDI_EVENTS`, `MAX_POST_EVENTS`, the reserved parameter indices, the bridge hint) |
| `slots.dfy` | `Slots` | the "first free slot wins, drop when full" buffer discipline, stated once over sequences for both buffers, plus the two array loops (fill the first free slot, clear every flag) |
| `parameters.dfy` | `Parameters` | clamping, counting, the first-match lookups, the default re-snapshot and the routing of a native-index write |
| `custom_data.dfy` | `CustomStore` | the custom-data filter and upsert |
| `mirror.dfy` | `Mirror` | the messages each operation hands to observers |
| `notes_off.dfy` | `NotesOff` | the landing-pad scan and the 128-note burst of `send_midi_all_notes_off` |
| `plugin.dfy` | `Plugin` | the class `CarlaPlugin` with its fields, its arrays and every operation |

## How the class is modelled

The class `Plugin.CarlaPlugin` keeps the two buffers as `array`s of slots, each slot a
`valid` flag plus an entry. Its methods scan and write those arrays with the source's loops.
The tables are `seq` fields that the methods reassign.

Every method is specified against functions on sequences:
- `Insert` is a producer's write;
- `Cleared` is a drain;
- `NotesOffPosted` and `NotesOffInjected` are the burst;
- `Upsert` is `set_custom_data`;
- `Resnapshot` is the default refresh;
- `RindexRoute` is the native-index dispatch.

The lemmas about those functions state what the source promises:
- entries are pending in submission order;
- a drain empties the buffer;
- keys stay unique;
- the last writer wins;
- a write leaves other keys alone;
- the first match wins;
- clamps are idempotent;
- inputs plus outputs never exceed the total.

The invariant `Valid()` holds for every object the constructor creates and is kept by every
method. It says:
- both buffers are at their fixed capacities;
- the cells in use form a prefix of each buffer;
- custom-data keys are unique;
- there is one range per parameter;
- each control lies inside the range its setter clamps to.

The observer log follows the host build of the source, where the broadcast and callback sends are compiled in.

Three points where the model follows the code as written:
- **`set_midi_program` (`carla_plugin.h:771-773`).** The comment says SoundFonts never change
  their defaults. The code returns early for every type except SoundFont, so only a SoundFont
  instance re-snapshots its defaults. `SetMidiProgram` does what the code does.
- **`set_parameter_value_rindex` (`carla_plugin.h:632`).** The test for balance-right repeats
  the balance-left test, so the method never reaches balance-right. The class models the method
  as written, and `RindexRoute` proves the balance-right route is never taken. The evidently
  intended routing is `IntendedRindexRoute`. See Findings.
- **`send_midi_all_notes_off` (`carla_plugin.h:884`).** The landing-pad scan's "buffer full"
  exit can never fire. The class keeps the scan as written and requires a pad of at most 24,
  the inputs on which the burst stays inside the buffer. `IntendedNotesOffPad` is the scan
  with the evidently intended test. It is proved to keep the burst in bounds for every buffer,
  and to agree with the scan as written whenever the burst fits after the first free slot.

## Model

| member | source | states |
|---|---|---|
| Slots.FirstFree | src/carla-backend/carla_plugin.h:916-927 | the scan of `postpone_event` finds a free slot with every earlier slot in use, and finds none exactly when every slot is in use |
| Slots.Fill | src/carla-backend/carla_plugin.h:916-927 | the number of leading slots in use: all slots below it are valid, and the slot at it, if any, is free |
| Slots.InsertAll | src/carla-backend/carla_plugin.h:912-930 | repeated `postpone_event` calls keep the buffer's length and never overwrite an entry that is already pending |
| Slots.Cleared | src/carla-backend/carla_plugin.h:938-939 | the clearing pass keeps the length, leaves no slot in use and keeps every slot's contents in place |
| Slots.Insert | src/carla-backend/carla_plugin.h:916-927 | a producer's write leaves a full buffer unchanged and otherwise sets exactly the first free slot to the new valid entry, keeping the length |
| Slots.Live | src/carla-backend/carla_plugin.h:912-942 | the pending entries number at most the capacity, and equal it exactly when the buffer is full |
| Slots.LiveOfFill | src/carla-backend/carla_plugin.h:912-942 | when exactly the first n slots are in use, the pending entries are those n entries in slot order |
| Slots.LiveOfPrefix | src/carla-backend/carla_plugin.h:912-942 | in a buffer whose slots in use form a prefix, a slot is in use iff it lies below `Fill`, and the pending entries are the first `Fill` entries |
| Slots.ClearedIsEmpty | src/carla-backend/carla_plugin.h:937-938 | after every flag is cleared nothing is pending and the prefix shape holds |
| Slots.InsertAppends | src/carla-backend/carla_plugin.h:916-927 | a producer's write keeps the prefix shape, and appends the entry to the pending ones unless the buffer was full, when nothing changes |
| Slots.InsertAllKeepsOrder | src/carla-backend/carla_plugin.h:912-930 | submissions that fit join the pending entries in submission order, and none already pending is overwritten |
| Slots.InsertAllWhenFull | src/carla-backend/carla_plugin.h:916-927 | once every slot is in use, any further submissions are all dropped |
| Slots.SubmissionOrder | src/carla-backend/carla_plugin.h:187-188 | from the all-free buffer, up to capacity, the pending entries are exactly the submitted ones in submission order |
| Slots.FillFirstFree | src/carla-backend/carla_plugin.h:916-927 | the array loop that fills the first free slot computes `Insert` of the old contents |
| Slots.ClearAll | src/carla-backend/carla_plugin.h:937-938 | the loop that clears every flag leaves each entry in place with its flag false |
| Parameters.Clamp | src/carla-backend/carla_plugin.h:497-500 | a clamped value lies in [lo, hi] for a well-formed range; an in-range value is unchanged; below gives lo, above gives hi |
| Parameters.FixParameterValue | src/carla-backend/carla_plugin.h:1280-1287 | the value clamped into the parameter's [min, max]: in range when min <= max, unchanged when already in range, min below, max above |
| Parameters.FixParameterValueIdempotent | src/carla-backend/carla_plugin.h:1280-1287 | for min <= max a second clamp changes nothing |
| Parameters.FixParameterValueInvertedRange | src/carla-backend/carla_plugin.h:1280-1287 | with min > max the clamp is not idempotent: -1 under [1, 0] becomes 1, then 0 |
| Parameters.AbsD | src/carla-backend/carla_plugin.h:1298-1301 | the result is non-negative and equals the value or its negation |
| Parameters.FindByRindex | src/carla-backend/carla_plugin.h:636-643 | the first parameter whose native index matches; no earlier one matches; none found iff no parameter matches |
| Parameters.FindMidiProgram | src/carla-backend/carla_plugin.h:789-793 | the first MIDI program with the given (bank, program); no earlier one matches; none found iff none matches |
| Parameters.CountOfType | src/carla-backend/carla_plugin.h:445-451 | the number of parameters of a kind never exceeds the table size |
| Parameters.InputsAndOutputsBounded | src/carla-backend/carla_plugin.h:439-452 | inputs plus outputs never exceed the total |
| Parameters.CountAllInputs | src/carla-backend/carla_plugin.h:439-452 | a table of inputs only counts every row as an input and none as an output |
| Parameters.Resnapshot | src/carla-backend/carla_plugin.h:739-748 | after a program switch each default equals that parameter's current value, and min, max and the three steps are unchanged |
| Parameters.RindexRoute | src/carla-backend/carla_plugin.h:620-644 | a bridged instance routes the active, dry/wet, volume and balance-left indices to their setters; any other index goes to the first parameter with that native index, or nowhere when none has it; balance-right is never a destination |
| Parameters.BalanceRightDropped | src/carla-backend/carla_plugin.h:630-633 | a bridged instance with no parameter at the balance-right index drops a balance-right write |
| Parameters.IntendedRindexRoute | src/carla-backend/carla_plugin.h:632-633 | the corrected routing sends balance-right to its setter and agrees with the as-written routing on every other input |
| Parameters.IntendedRouteCoversReserved | src/carla-backend/carla_plugin.h:620-633 | under the corrected routing every reserved index of a bridged instance reaches its own setter |
| CustomStore.Persisted | src/carla-backend/carla_plugin.h:672-686 | an invalid kind is never kept; a string is kept unless its key starts with "OSC:" or is "guiVisible"; any other kind is always kept |
| CustomStore.KeyIndex | src/carla-backend/carla_plugin.h:693-702 | the key scan finds the first record with the key, with no earlier one holding it, and finds none iff no record holds it |
| CustomStore.KeyIndexAt | src/carla-backend/carla_plugin.h:693-702 | a record holding the key with none before it is the one the scan finds |
| CustomStore.Upsert | src/carla-backend/carla_plugin.h:668-713 | a filtered-out submission changes nothing; the list grows by at most one; existing records keep their keys and kinds; an appended record is (kind, key, value) |
| CustomStore.UpsertKeepsKeysUnique | src/carla-backend/carla_plugin.h:688-713 | keys stay unique under every submission |
| CustomStore.UpsertLookup | src/carla-backend/carla_plugin.h:688-713 | after a persisted submission the key reads back as the submitted value |
| CustomStore.UpsertLeavesOtherKeys | src/carla-backend/carla_plugin.h:688-713 | a submission under one key leaves what every other key reads back unchanged |
| CustomStore.UpsertGrowsOnlyForNewKeys | src/carla-backend/carla_plugin.h:674-711 | the list grows iff the submission passes the filter and its key is new |
| Mirror.ControlSends | src/carla-backend/carla_plugin.h:479-488 | a control change sends the broadcast first when asked, then the bridge control for a bridged instance, and the parameter-changed callback last when asked; nothing else is sent |
| Mirror.ProgramSends | src/carla-backend/carla_plugin.h:724-733 | a program change sends the program broadcast first when asked, then the bridge program change for a bridged instance, and the program-changed callback last when asked; nothing else is sent |
| Mirror.MidiProgramSends | src/carla-backend/carla_plugin.h:756-765 | a MIDI-program change sends the MIDI-program broadcast first when asked, then a plain program change to a bridged instance's peer, and the MIDI-program-changed callback last when asked; nothing else is sent |
| Mirror.NoteSends | src/carla-backend/carla_plugin.h:845-863 | an injected note is broadcast as note-on or note-off when asked, and reported through the matching callback when asked; the bridge peer gets nothing |
| Mirror.ControlBroadcastOnce | src/carla-backend/carla_plugin.h:599-618 | a control change goes to the broadcast endpoint once, first and with the given value, when remote propagation is asked for, and never otherwise |
| Mirror.DefaultSends | src/carla-backend/carla_plugin.h:739-748 | one default-value broadcast per parameter, in table order, carrying that parameter's default |
| NotesOff.PadScan | src/carla-backend/carla_plugin.h:877-890 | the scan from slot i ends in one of three ways: at the first free slot, with every slot before it in use; at the slot before one where the "full" test holds, with every slot up to that one in use; or at 0 after running off the end with every slot in use |
| NotesOff.PadScanFindsFirstFree | src/carla-backend/carla_plugin.h:876-890 | the landing-pad scan never takes its "buffer full" exit and finds the first free slot, or 0 when none is free |
| NotesOff.NotesOffPad | src/carla-backend/carla_plugin.h:875-890 | the landing pad as written: the first free post-event slot, or 0 when every slot is in use |
| NotesOff.NotesOffOverrun | src/carla-backend/carla_plugin.h:875-906 | a buffer with 25 slots in use gives pad 25, and the burst's last write then lands past the 152-slot buffer |
| NotesOff.IntendedPadScanBounded | src/carla-backend/carla_plugin.h:876-890 | with the "full" test comparing against the burst length, the scan yields a pad that leaves room for the whole burst |
| NotesOff.IntendedNotesOffPad | src/carla-backend/carla_plugin.h:876-890 | the corrected pad keeps all 128 writes inside the buffer, and equals the first free slot whenever the burst fits after it |
| NotesOff.NotesOffPosted | src/carla-backend/carla_plugin.h:902-905 | the burst marks slots pad to pad+127 in use and fills them with the note-offs for notes 0-127, each keeping its slot's old payload; every slot outside that range is unchanged |
| NotesOff.NotesOffInjected | src/carla-backend/carla_plugin.h:896-899 | the burst marks external slots 0-127 in use, holding note-offs for notes 0-127 at velocity 0; every slot from 128 on is unchanged |
| NotesOff.AllNoteOffs | src/carla-backend/carla_plugin.h:892-899 | 128 note-offs, the i-th for note i at velocity 0 |
| NotesOff.NotesOffPostedPending | src/carla-backend/carla_plugin.h:875-906 | after the burst the prefix shape holds: with a free slot the note-offs queue after everything pending; with the buffer full they replace the 128 oldest pending events |
| NotesOff.NotesOffInjectedPending | src/carla-backend/carla_plugin.h:892-899 | after the burst the pending notes are the 128 note-offs followed by whatever was pending beyond slot 127, and the prefix shape holds |
| Plugin.CarlaPlugin.constructor | src/carla-backend/carla_plugin.h:129-192 | a fresh plugin has no type, id -1, no ports, tables or programs, both cursors at -1, dry/wet 1, volume 1, balance -1 to 1, no custom data, nothing pending in either buffer and nothing sent |
| Plugin.CarlaPlugin.SetActive | src/carla-backend/carla_plugin.h:472-493 | the flag is stored and sent as 1.0 or 0.0 to the broadcast endpoint, the bridge peer and the callback as asked |
| Plugin.CarlaPlugin.SetDryWet | src/carla-backend/carla_plugin.h:495-519 | the stored value is the input clamped into [0, 1], and that clamped value is what is sent |
| Plugin.CarlaPlugin.SetVolume | src/carla-backend/carla_plugin.h:521-545 | the stored value is the input clamped into [0, 1.27], and that clamped value is what is sent |
| Plugin.CarlaPlugin.SetBalanceLeft | src/carla-backend/carla_plugin.h:547-571 | the stored value is the input clamped into [-1, 1], and that clamped value is what is sent |
| Plugin.CarlaPlugin.SetBalanceRight | src/carla-backend/carla_plugin.h:573-597 | the stored value is the input clamped into [-1, 1], and that clamped value is what is sent |
| Plugin.CarlaPlugin.SetParameterValue | src/carla-backend/carla_plugin.h:599-618 | the broadcast goes out only for an input parameter; the callback goes out for any parameter; nothing is stored |
| Plugin.CarlaPlugin.SetParameterValueRindex | src/carla-backend/carla_plugin.h:620-644 | only the control on `RindexRoute`'s destination changes, and it gets the setter's clamped value and sends; balance-right never changes; a parameter route notifies the first match; an unrouted write sends nothing |
| Plugin.CarlaPlugin.SetFirstParameterWithRindex | src/carla-backend/carla_plugin.h:636-643 | the first parameter with the native index is notified; later duplicates are ignored; with no match nothing is sent |
| Plugin.CarlaPlugin.SetParameterMidiChannel | src/carla-backend/carla_plugin.h:646-655 | only that parameter's MIDI channel changes |
| Plugin.CarlaPlugin.SetParameterMidiCc | src/carla-backend/carla_plugin.h:657-666 | only that parameter's MIDI controller number changes |
| Plugin.CarlaPlugin.SetCustomData | src/carla-backend/carla_plugin.h:668-713 | the store becomes `Upsert` of the old store, so keys stay unique |
| Plugin.CarlaPlugin.ChangeDefaults | src/carla-backend/carla_plugin.h:739-748 | each default becomes the current value and nothing else in the ranges changes; with remote propagation one default broadcast per parameter goes out, in order |
| Plugin.CarlaPlugin.SetProgram | src/carla-backend/carla_plugin.h:719-749 | the cursor takes the index unchecked; the program change is sent; then the defaults are re-snapshotted and broadcast |
| Plugin.CarlaPlugin.SetMidiProgram | src/carla-backend/carla_plugin.h:751-785 | the cursor takes the index unchecked; the change is sent, as a plain program change to a bridge peer; defaults are re-snapshotted only for a SoundFont instance |
| Plugin.CarlaPlugin.SetMidiProgramFull | src/carla-backend/carla_plugin.h:787-794 | the first MIDI program with the (bank, program) pair is selected as `set_midi_program` selects it; with no match nothing changes |
| Plugin.CarlaPlugin.GetParameterCountInfo | src/carla-backend/carla_plugin.h:439-452 | total is the table size, ins and outs count the input and output parameters, and ins + outs <= total |
| Plugin.CarlaPlugin.DeleteBuffers | src/carla-backend/carla_plugin.h:1143-1183 | audio groups, MIDI ports, parameter tables and control ports are reset to empty, and the invariant still holds |
| Plugin.CarlaPlugin.PostponeEvent | src/carla-backend/carla_plugin.h:912-930 | the event takes the first free slot and nothing else changes; it joins the end of the pending events, or is dropped when every slot is in use |
| Plugin.CarlaPlugin.PostEventsCopy | src/carla-backend/carla_plugin.h:932-942 | the destination receives the 152 slots as they were, so its pending entries are those pending before; afterwards every flag is false and nothing is pending |
| Plugin.CarlaPlugin.SendMidiNote | src/carla-backend/carla_plugin.h:828-868 | the note takes the first free slot of the external buffer and joins the end of the pending notes, or is dropped when the buffer is full; then it is broadcast and reported |
| Plugin.CarlaPlugin.SendMidiAllNotesOff | src/carla-backend/carla_plugin.h:870-910 | external slots 0-127 become note-offs for notes 0-127; post-event slots pad to pad+127 become note-off events; the pending events and notes change as `NotesOffPostedPending` and `NotesOffInjectedPending` state |
| Plugin.CarlaPlugin.WriteNotesOffBurst | src/carla-backend/carla_plugin.h:892-906 | the burst loop leaves the buffers as `NotesOffPosted` and `NotesOffInjected` describe |
| Plugin.CarlaPlugin.NotesOffLandingPad | src/carla-backend/carla_plugin.h:875-890 | the scan loop returns the first free post-event slot, or 0 when every slot is in use, and never reaches its "full" exit |

## Left out

- Delivery of the messages themselves is not modelled: the OSC sends to the broadcast endpoint and the bridge peer, and `callback_action`. The ghost log `sent` records which message each operation issues, in order.
- The bridge build of the source compiles the sends out. Only the host build is modelled.
- The `gui_send` and `block` arguments are not modelled, because the base class ignores them.
- `get_parameter_value` is not modelled as the base class's `0.0`. A plugin format overrides it, so it is the parameter `current` of the program setters.
- A plugin format's storing of a parameter value in `set_parameter_value` is not modelled, because the base class only notifies.
- The audio-server calls are not modelled: `remove_from_jack`, the JACK client and ports, and the destructor's teardown.
- The dynamic-library wrappers (`lib_open`, `lib_close`, `lib_symbol`, `lib_error`) are not modelled, because they wrap the platform loader. Two oddities are noted here only:
  - `lib_close` returns `dlclose() != 0`, which is true on failure, and it never clears the handle;
  - `lib_open` does not close a previously opened library.
- `update_osc_data`, `update_osc_gui` and `osc_global_register_new` are remote-control set-up and timing. They are not modelled, and neither is the retry loop of `update_osc_gui`, which runs 39 times, not 40.
- The locks are not modelled: `carla_midi_lock` and the post-event mutex, including the double lock at the start of `send_midi_all_notes_off`. Each method is one atomic step.
- The virtual hooks with empty or constant bodies are not modelled, nor is the instance-id setter or any accessor other than `get_parameter_count_info`.
- The audio thread's consumption of the external MIDI buffer is not modelled, because it happens in each plugin format.
- Allocation and release (`strdup`, `free`, `delete[]`) are not modelled. Dafny's memory is managed, so only the resets in `delete_buffers` are stated.
- Doubles are `real`. Only comparisons and clamping are involved, so rounding and NaN are not modelled.
- The `float` overload of `fix_parameter_value` is not modelled separately, because it is the same clamp.
- The by-reference write-back of `fix_parameter_value` is not modelled. `FixParameterValue` returns the clamped value, and a caller assigns it.
- Integer widths are not modelled. Bytes and `int16_t` are subset types, and the indices and counts are unbounded. No operation modelled here can overflow its source type.
- The values of the constants `carla_shared.h` declares (plugin and parameter kinds, reserved indices, hint bits) are assumed. carla_shared.h is not part of this model.
- Plugin.CarlaPlugin.SendMidiAllNotesOff: requires that the landing pad is at most 24. The source writes past the end of the post-event buffer otherwise, which has no defined meaning to model.
- Plugin.CarlaPlugin.SendMidiAllNotesOff: the burst overwrites any notes pending in external slots 0-127, and with a full post-event buffer it overwrites the 128 oldest pending events. The note-off post events keep the stale `cdata` of the slot they overwrite. The contract states all three as the source behaves.

## Findings

| source | as written | input that shows it | evidently intended | confidence | as-written member | corrected member |
|---|---|---|---|---|---|---|
| src/carla-backend/carla_plugin.h:884 | the "buffer full" test compares `i + MAX_MIDI_EVENTS` (512) with 152, so it never fires. The pad is then the first free slot, and the burst writes `post_events.data[pad + 127]` out of bounds whenever pad > 24 | 25 pending post events: pad is 25 and the last write lands on slot 152 | compare against the burst length (128), so the pad never exceeds 24 and all writes stay in bounds | not executed | NotesOff.NotesOffOverrun | NotesOff.IntendedNotesOffPad |
| src/carla-backend/carla_plugin.h:632 | the fifth reserved test repeats `PARAMETER_BALANCE_LEFT`, so the `set_balance_right` call is unreachable | a bridged instance, rindex `PARAMETER_BALANCE_RIGHT`, no parameter at that native index: the write is dropped | test `PARAMETER_BALANCE_RIGHT` | not executed | Parameters.BalanceRightDropped | Parameters.IntendedRouteCoversReserved |

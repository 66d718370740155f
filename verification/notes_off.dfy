/**
 * The "all notes off" burst: 128 note-off entries written into both buffers
 * at once, the post-event ones starting at a landing pad found by a scan.
 */
module NotesOff {
  import opened Wrappers
  import opened Slots
  import opened CarlaTypes

  /** Length of the burst: the loop runs while i < 128, i < MAX_MIDI_EVENTS and i < MAX_POST_EVENTS. */
  const NOTES_OFF_BURST: nat := 128

  /**
   * The landing-pad scan, from slot `i` on: the first free slot; or `i - 1`
   * when slot `i` is in use and `i + fullMark` equals MAX_POST_EVENTS; or 0 when
   * the scan runs off the end. The source's `fullMark` is MAX_MIDI_EVENTS.
   */
  function PadScan(s: seq<Slot<PostEvent>>, i: nat, fullMark: nat): (pad: int)
    requires i <= |s|
    ensures || (i <= pad < |s| && !s[pad].valid && forall j :: i <= j < pad ==> s[j].valid)
            || (i <= pad + 1 < |s| && pad + 1 + fullMark == MAX_POST_EVENTS && forall j :: i <= j <= pad + 1 ==> s[j].valid)
            || (pad == 0 && forall j :: i <= j < |s| ==> s[j].valid)
    decreases |s| - i
  {
    if i == |s| then 0
    else if !s[i].valid then i
    else if i + fullMark == MAX_POST_EVENTS then i - 1
    else PadScan(s, i + 1, fullMark)
  }

  /** With the source's mark the "full" test never fires: the scan finds the first free slot, or 0. */
  lemma {:induction false} PadScanFindsFirstFree(s: seq<Slot<PostEvent>>, i: nat)
    requires i <= |s| == MAX_POST_EVENTS
    requires forall j :: 0 <= j < i ==> s[j].valid
    ensures PadScan(s, i, MAX_MIDI_EVENTS) == if Full(s) then 0 else Fill(s)
    decreases |s| - i
  {
    if i < |s| && s[i].valid {
      PadScanFindsFirstFree(s, i + 1);
    }
  }

  /**
   * The landing pad `send_midi_all_notes_off` computes, as written: the first
   * free post-event slot, or 0 when every slot is in use.
   */
  function NotesOffPad(s: seq<Slot<PostEvent>>): (pad: int)
    requires |s| == MAX_POST_EVENTS
    ensures pad == if Full(s) then 0 else Fill(s)
  {
    PadScanFindsFirstFree(s, 0);
    PadScan(s, 0, MAX_MIDI_EVENTS)
  }

  /**
   * The out-of-bounds write: with 25 slots in use the pad is 25 and the burst's
   * last entry lands on slot 152, one past the end of the 152-slot buffer.
   */
  lemma NotesOffOverrun()
    ensures exists s: seq<Slot<PostEvent>> :: |s| == MAX_POST_EVENTS && NotesOffPad(s) + NOTES_OFF_BURST > MAX_POST_EVENTS
  {
    var e := PostEvent(PostEventDebug, 0, 0.0, NoPayload);
    var s := seq(MAX_POST_EVENTS, j => Slot(j < 25, e));
    assert !s[25].valid && forall j :: 0 <= j < 25 ==> s[j].valid;
    assert Fill(s) == 25;
    assert NotesOffPad(s) == 25;
  }

  /** With the mark set to the burst length the scan stops at slot 24 at the latest. */
  lemma {:induction false} IntendedPadScanBounded(s: seq<Slot<PostEvent>>, i: nat)
    requires i <= MAX_POST_EVENTS - NOTES_OFF_BURST
    requires |s| == MAX_POST_EVENTS
    requires forall j :: 0 <= j < i ==> s[j].valid
    ensures var pad := PadScan(s, i, NOTES_OFF_BURST);
            0 <= pad && pad + NOTES_OFF_BURST <= MAX_POST_EVENTS &&
            (Fill(s) + NOTES_OFF_BURST <= MAX_POST_EVENTS ==> pad == Fill(s))
    decreases |s| - i
  {
    if s[i].valid && i + NOTES_OFF_BURST != MAX_POST_EVENTS {
      IntendedPadScanBounded(s, i + 1);
    }
  }

  /**
   * The evident intent of the "full" test (compare with the burst length, not
   * with MAX_MIDI_EVENTS): the pad is the first free slot when the burst fits
   * after it, and otherwise slot 23, so all 128 writes stay inside the buffer.
   */
  function IntendedNotesOffPad(s: seq<Slot<PostEvent>>): (pad: int)
    requires |s| == MAX_POST_EVENTS
    ensures 0 <= pad && pad + NOTES_OFF_BURST <= MAX_POST_EVENTS
    ensures Fill(s) + NOTES_OFF_BURST <= MAX_POST_EVENTS ==> pad == Fill(s)
  {
    IntendedPadScanBounded(s, 0);
    PadScan(s, 0, NOTES_OFF_BURST)
  }

  /** The note-off entry written over a post-event slot; its payload is left as it was. */
  function NoteOffEvent(e: PostEvent, note: nat): (off: PostEvent)
    ensures off.kind == PostEventNoteOff && off.index == note && off.value == 0.0
    ensures off.cdata == e.cdata
  {
    e.(kind := PostEventNoteOff, index := note, value := 0.0)
  }

  /** The post-event buffer after the burst: slots pad..pad+127 hold note-offs 0..127. */
  function NotesOffPosted(s: seq<Slot<PostEvent>>, pad: nat): (r: seq<Slot<PostEvent>>)
    requires pad + NOTES_OFF_BURST <= |s|
    ensures |r| == |s|
    ensures r[..pad] == s[..pad] && r[pad + NOTES_OFF_BURST..] == s[pad + NOTES_OFF_BURST..]
    ensures forall j :: pad <= j < pad + NOTES_OFF_BURST ==> r[j].valid
    ensures Items(r[pad..pad + NOTES_OFF_BURST]) == PostedOffs(s, pad)
  {
    seq(|s|, j requires 0 <= j < |s| =>
      if pad <= j < pad + NOTES_OFF_BURST then Slot(true, NoteOffEvent(s[j].item, j - pad)) else s[j])
  }

  /** The note-off entries the burst leaves pending in the post-event buffer. */
  function PostedOffs(s: seq<Slot<PostEvent>>, pad: nat): (offs: seq<PostEvent>)
    requires pad + NOTES_OFF_BURST <= |s|
  {
    seq(NOTES_OFF_BURST, j requires 0 <= j < NOTES_OFF_BURST => NoteOffEvent(s[pad + j].item, j))
  }

  /** The external MIDI buffer after the burst: slots 0..127 hold valid note-offs for notes 0..127. */
  function NotesOffInjected(m: seq<Slot<MidiNote>>): (r: seq<Slot<MidiNote>>)
    requires NOTES_OFF_BURST <= |m|
    ensures |r| == |m|
    ensures forall j :: 0 <= j < NOTES_OFF_BURST ==> r[j].valid
    ensures Items(r[..NOTES_OFF_BURST]) == AllNoteOffs()
    ensures r[NOTES_OFF_BURST..] == m[NOTES_OFF_BURST..]
  {
    seq(|m|, j requires 0 <= j < |m| => if j < NOTES_OFF_BURST then Slot(true, MidiNote(false, j, 0)) else m[j])
  }

  /** The burst's post-event writes, cell by cell, amount to `NotesOffPosted`. */
  lemma PostedByCells(a: seq<Slot<PostEvent>>, s: seq<Slot<PostEvent>>, pad: nat)
    requires |a| == |s| && pad + NOTES_OFF_BURST <= |s|
    requires forall j :: 0 <= j < |s| ==>
               a[j] == if pad <= j < pad + NOTES_OFF_BURST then Slot(true, NoteOffEvent(s[j].item, j - pad)) else s[j]
    ensures a == NotesOffPosted(s, pad)
  {
  }

  /** The burst's external-buffer writes, cell by cell, amount to `NotesOffInjected`. */
  lemma InjectedByCells(a: seq<Slot<MidiNote>>, m: seq<Slot<MidiNote>>)
    requires |a| == |m| && NOTES_OFF_BURST <= |m|
    requires forall j :: 0 <= j < |m| ==> a[j] == if j < NOTES_OFF_BURST then Slot(true, MidiNote(false, j, 0)) else m[j]
    ensures a == NotesOffInjected(m)
  {
  }

  /** Note-offs for every MIDI note, in note order, velocity 0. */
  function AllNoteOffs(): (r: seq<MidiNote>)
    ensures |r| == NOTES_OFF_BURST
    ensures forall j :: 0 <= j < NOTES_OFF_BURST ==> r[j] == MidiNote(false, j, 0)
  {
    seq(NOTES_OFF_BURST, j requires 0 <= j < NOTES_OFF_BURST => MidiNote(false, j, 0))
  }

  /**
   * What the burst leaves pending in the post-event buffer. With a free slot
   * the note-offs queue after everything pending; with the buffer full they
   * replace the 128 oldest pending events, which are lost. Either way the
   * slots in use still form a prefix.
   */
  lemma NotesOffPostedPending(s: seq<Slot<PostEvent>>)
    requires |s| == MAX_POST_EVENTS && PrefixValid(s)
    requires NotesOffPad(s) + NOTES_OFF_BURST <= MAX_POST_EVENTS
    ensures var r := NotesOffPosted(s, NotesOffPad(s));
            PrefixValid(r) &&
            Live(r) == if Full(s) then PostedOffs(s, 0) + Live(s)[NOTES_OFF_BURST..]
                       else Live(s) + PostedOffs(s, Fill(s))
  {
    if Full(s) {
      PostedWhenFull(s);
    } else {
      PostedWhenFree(s);
    }
  }

  lemma PostedWhenFull(s: seq<Slot<PostEvent>>)
    requires |s| == MAX_POST_EVENTS && Full(s)
    ensures var r := NotesOffPosted(s, 0);
            PrefixValid(r) && Live(r) == PostedOffs(s, 0) + Live(s)[NOTES_OFF_BURST..]
  {
    var r := NotesOffPosted(s, 0);
    assert forall j :: 0 <= j < |r| ==> r[j].valid;
    LiveOfFill(s, |s|);
    LiveOfFill(r, |r|);
    assert r[..|r|] == r && s[..|s|] == s;
    PostedItemsFull(s);
  }

  /** The contents of a full buffer after the burst at 0: the note-offs, then the old entries from slot 128 on. */
  lemma PostedItemsFull(s: seq<Slot<PostEvent>>)
    requires |s| == MAX_POST_EVENTS
    ensures Items(NotesOffPosted(s, 0)) == PostedOffs(s, 0) + Items(s)[NOTES_OFF_BURST..]
  {
    var whole := Items(NotesOffPosted(s, 0));
    assert forall j :: 0 <= j < |whole| ==> whole[j] == (PostedOffs(s, 0) + Items(s)[NOTES_OFF_BURST..])[j];
  }

  lemma PostedWhenFree(s: seq<Slot<PostEvent>>)
    requires |s| == MAX_POST_EVENTS && PrefixValid(s) && !Full(s)
    requires Fill(s) + NOTES_OFF_BURST <= MAX_POST_EVENTS
    ensures var r := NotesOffPosted(s, Fill(s));
            PrefixValid(r) && Live(r) == Live(s) + PostedOffs(s, Fill(s))
  {
    LiveOfPrefix(s);
    var n := Fill(s);
    var r := NotesOffPosted(s, n);
    assert forall j :: 0 <= j < |r| ==> (r[j].valid <==> j < n + NOTES_OFF_BURST);
    LiveOfFill(r, n + NOTES_OFF_BURST);
    PostedItems(s, n);
  }

  /** The contents of the cells in use after the burst at `n`: the old first `n`, then the note-offs. */
  lemma PostedItems(s: seq<Slot<PostEvent>>, n: nat)
    requires n + NOTES_OFF_BURST <= |s|
    ensures Items(NotesOffPosted(s, n)[..n + NOTES_OFF_BURST]) == Items(s[..n]) + PostedOffs(s, n)
  {
    var whole := Items(NotesOffPosted(s, n)[..n + NOTES_OFF_BURST]);
    assert forall j :: 0 <= j < |whole| ==> whole[j] == (Items(s[..n]) + PostedOffs(s, n))[j];
  }

  /**
   * What the burst leaves pending in the external MIDI buffer: note-offs for
   * notes 0..127 first, then whatever was pending beyond slot 127; notes that
   * were pending in slots 0..127 are overwritten. The slots in use still form
   * a prefix.
   */
  lemma NotesOffInjectedPending(m: seq<Slot<MidiNote>>)
    requires |m| == MAX_MIDI_EVENTS && PrefixValid(m)
    ensures var r := NotesOffInjected(m);
            PrefixValid(r) &&
            Live(r) == AllNoteOffs() + (if |Live(m)| > NOTES_OFF_BURST then Live(m)[NOTES_OFF_BURST..] else [])
  {
    LiveOfPrefix(m);
    var n := Fill(m);
    var r := NotesOffInjected(m);
    var k := if n > NOTES_OFF_BURST then n else NOTES_OFF_BURST;
    assert forall j :: 0 <= j < |r| ==> (r[j].valid <==> j < k);
    LiveOfFill(r, k);
    if n > NOTES_OFF_BURST {
      assert Items(r[..k]) == AllNoteOffs() + Items(m[..n])[NOTES_OFF_BURST..];
    } else {
      assert Items(r[..k]) == AllNoteOffs();
    }
  }
}

// The voice table and its allocator (interocitor/notes.h): a fixed-size
// array of `MidiNote` slots, first-fit search for an empty slot, and the
// operations that assign and release a slot in place.

module Notes {
  import opened Util

  /** The pitch value that marks a slot as empty. */
  const EmptyPitch: uint8 := 255

  /** The number of MIDI pitches the period table covers. */
  const PitchCount := 128

  /** `midi_period_us`: total on pitches 0..127 and strictly positive. */
  predicate PeriodTable(periods: seq<uint32>)
  {
    |periods| == PitchCount && forall p :: 0 <= p < |periods| ==> periods[p] > 0
  }

  /** What a zero-initialised global `MidiNote` holds before any slot is cleared. */
  const ZeroNote := MidiNote(0, 0, 0, 0, 0, 0)

  /** The canonical empty record `clear_note` writes. */
  function EmptyNote(periods: seq<uint32>): (n: MidiNote)
    requires PeriodTable(periods)
    ensures n.pitch == EmptyPitch && n.velocity == 0
    ensures n.periodUs == periods[0] && n.phaseUs < n.periodUs
  {
    MidiNote(0, EmptyPitch, 0, 0, periods[0], 0)
  }

  /**
   * The record `set_note` writes: the period comes from the table entry for
   * the pitch, the phase is the microsecond clock modulo that period, and
   * the start time is the millisecond clock.
   */
  function ActiveNote(channel: uint8, pitch: uint8, velocity: uint8, periods: seq<uint32>, micros: uint32, millis: uint32): (n: MidiNote)
    requires PeriodTable(periods) && pitch as int < PitchCount
    ensures n.channel == channel && n.pitch == pitch && n.velocity == velocity
    ensures n.periodUs == periods[pitch] && n.startMs == millis
    ensures n.phaseUs == micros % n.periodUs && n.phaseUs < n.periodUs && n.phaseUs <= micros
  {
    var period := periods[pitch];
    MidiNote(channel, pitch, velocity, micros % period, period, millis)
  }

  /** The table after `set_note(i, …)`. */
  function SetSlot(s: seq<MidiNote>, i: int, channel: uint8, pitch: uint8, velocity: uint8, periods: seq<uint32>, micros: uint32, millis: uint32): seq<MidiNote>
    requires 0 <= i < |s| && PeriodTable(periods) && pitch as int < PitchCount
  {
    s[i := ActiveNote(channel, pitch, velocity, periods, micros, millis)]
  }

  /** The table after `clear_note(i)`. */
  function ClearSlot(s: seq<MidiNote>, i: int, periods: seq<uint32>): seq<MidiNote>
    requires 0 <= i < |s| && PeriodTable(periods)
  {
    s[i := EmptyNote(periods)]
  }

  /**
   * First-fit search: the smallest index whose pitch is the empty sentinel,
   * or -1 when every slot is occupied.
   */
  function FirstEmpty(s: seq<MidiNote>): (r: int)
    ensures -1 <= r < |s|
    ensures r == -1 <==> forall j :: 0 <= j < |s| ==> s[j].pitch != EmptyPitch
    ensures r != -1 ==> s[r].pitch == EmptyPitch && forall j :: 0 <= j < r ==> s[j].pitch != EmptyPitch
  {
    if s == [] then -1
    else if s[0].pitch == EmptyPitch then 0
    else
      var r := FirstEmpty(s[1..]);
      if r == -1 then -1 else r + 1
  }

  /** The sentinel invariant of one slot: empty pitch exactly when silent. */
  predicate Consistent(n: MidiNote)
  {
    n.pitch == EmptyPitch <==> n.velocity == 0
  }

  /** The sentinel invariant of the whole table. */
  predicate SentinelInvariant(s: seq<MidiNote>)
  {
    forall j :: 0 <= j < |s| ==> Consistent(s[j])
  }

  /** Clearing a slot writes exactly the canonical empty record, and clearing twice is clearing once. */
  lemma ClearIdempotent(s: seq<MidiNote>, i: int, periods: seq<uint32>)
    requires 0 <= i < |s| && PeriodTable(periods)
    ensures ClearSlot(ClearSlot(s, i, periods), i, periods) == ClearSlot(s, i, periods)
    ensures ClearSlot(s, i, periods)[i] == MidiNote(0, EmptyPitch, 0, 0, periods[0], 0)
  {
  }

  /** Once a real pitch is set in slot `i`, the search never returns `i`. */
  lemma SetSlotNotFound(s: seq<MidiNote>, i: int, channel: uint8, pitch: uint8, velocity: uint8, periods: seq<uint32>, micros: uint32, millis: uint32)
    requires 0 <= i < |s| && PeriodTable(periods) && pitch as int < PitchCount
    ensures FirstEmpty(SetSlot(s, i, channel, pitch, velocity, periods, micros, millis)) != i
  {
  }

  /** Once slot `i` is cleared, the search succeeds at `i` or at an earlier empty slot. */
  lemma ClearSlotFound(s: seq<MidiNote>, i: int, periods: seq<uint32>)
    requires 0 <= i < |s| && PeriodTable(periods)
    ensures 0 <= FirstEmpty(ClearSlot(s, i, periods)) <= i
    ensures FirstEmpty(ClearSlot(s, i, periods)) == if 0 <= FirstEmpty(s) < i then FirstEmpty(s) else i
  {
    var c := ClearSlot(s, i, periods);
    var f := FirstEmpty(s);
    var expected := if 0 <= f < i then f else i;
    assert c[expected].pitch == EmptyPitch;
    assert forall j :: 0 <= j < expected ==> c[j] == s[j];
  }

  /** Clearing keeps the sentinel invariant. */
  lemma ClearSlotConsistent(s: seq<MidiNote>, i: int, periods: seq<uint32>)
    requires 0 <= i < |s| && PeriodTable(periods) && SentinelInvariant(s)
    ensures SentinelInvariant(ClearSlot(s, i, periods))
  {
  }

  /**
   * Setting a slot keeps the sentinel invariant when the caller passes a real
   * pitch and a nonzero velocity; `set_note` itself checks neither, nor that
   * the slot was empty, so an occupied slot is simply overwritten.
   */
  lemma SetSlotConsistent(s: seq<MidiNote>, i: int, channel: uint8, pitch: uint8, velocity: uint8, periods: seq<uint32>, micros: uint32, millis: uint32)
    requires 0 <= i < |s| && PeriodTable(periods) && pitch as int < PitchCount && SentinelInvariant(s)
    ensures SentinelInvariant(SetSlot(s, i, channel, pitch, velocity, periods, micros, millis)) <==> velocity > 0
  {
    var n := ActiveNote(channel, pitch, velocity, periods, micros, millis);
    assert SetSlot(s, i, channel, pitch, velocity, periods, micros, millis)[i] == n;
  }

  /** Under the sentinel invariant the search agrees with the velocity marker. */
  lemma FirstEmptyBySilence(s: seq<MidiNote>)
    requires SentinelInvariant(s)
    ensures FirstEmpty(s) == -1 <==> forall j :: 0 <= j < |s| ==> s[j].velocity != 0
    ensures FirstEmpty(s) != -1 ==> s[FirstEmpty(s)].velocity == 0
  {
  }

  /**
   * The voice table `active_notes[NOTE_ARRAY_SIZE]` together with the
   * pitch-to-period table it reads.
   */
  class NoteTable {
    const notes: array<MidiNote>
    const midiPeriodUs: seq<uint32>

    /**
     * The table as the C runtime leaves a global array: every field zero, so
     * no slot carries the empty sentinel until it is cleared.
     */
    constructor (size: nat, periods: seq<uint32>)
      requires PeriodTable(periods)
      ensures fresh(notes) && notes.Length == size && midiPeriodUs == periods
      ensures forall j :: 0 <= j < size ==> notes[j] == ZeroNote
    {
      notes := new MidiNote[size](_ => ZeroNote);
      midiPeriodUs := periods;
    }

    /**
     * `set_note`: writes the slot field by field; every other slot is left
     * as it was.
     */
    method SetNote(i: int, channel: uint8, pitch: uint8, velocity: uint8, micros: uint32, millis: uint32)
      requires PeriodTable(midiPeriodUs) && 0 <= i < notes.Length && pitch as int < PitchCount
      modifies notes
      ensures notes[..] == SetSlot(old(notes[..]), i, channel, pitch, velocity, midiPeriodUs, micros, millis)
      ensures notes[i].channel == channel && notes[i].pitch == pitch && notes[i].velocity == velocity
      ensures notes[i].periodUs == midiPeriodUs[pitch] && notes[i].startMs == millis
      ensures notes[i].phaseUs == micros % notes[i].periodUs && notes[i].phaseUs < notes[i].periodUs
      ensures forall j :: 0 <= j < notes.Length && j != i ==> notes[j] == old(notes[j])
    {
      notes[i] := notes[i].(channel := channel);
      notes[i] := notes[i].(pitch := pitch);
      notes[i] := notes[i].(velocity := velocity);
      notes[i] := notes[i].(periodUs := midiPeriodUs[pitch]);
      notes[i] := notes[i].(phaseUs := micros % notes[i].periodUs);
      notes[i] := notes[i].(startMs := millis);
    }

    /**
     * `clear_note`: writes the canonical empty record field by field; every
     * other slot is left as it was.
     */
    method ClearNote(i: int)
      requires PeriodTable(midiPeriodUs) && 0 <= i < notes.Length
      modifies notes
      ensures notes[..] == ClearSlot(old(notes[..]), i, midiPeriodUs)
      ensures notes[i] == MidiNote(0, EmptyPitch, 0, 0, midiPeriodUs[0], 0)
      ensures forall j :: 0 <= j < notes.Length && j != i ==> notes[j] == old(notes[j])
    {
      notes[i] := notes[i].(velocity := 0);
      notes[i] := notes[i].(pitch := EmptyPitch);
      notes[i] := notes[i].(channel := 0);
      notes[i] := notes[i].(periodUs := midiPeriodUs[0]);
      notes[i] := notes[i].(phaseUs := 0);
      notes[i] := notes[i].(startMs := 0);
    }

    /**
     * `find_first_empty_note_index`: a first-fit scan in index order that
     * stops at the first empty slot, or -1 when the table is full.
     */
    method FindFirstEmptyNoteIndex() returns (r: int)
      ensures r == FirstEmpty(notes[..])
      ensures -1 <= r < notes.Length
      ensures r == -1 <==> forall j :: 0 <= j < notes.Length ==> notes[j].pitch != EmptyPitch
      ensures r != -1 ==> notes[r].pitch == EmptyPitch && forall j :: 0 <= j < r ==> notes[j].pitch != EmptyPitch
    {
      var i := 0;
      while i < notes.Length
        invariant 0 <= i <= notes.Length
        invariant forall j :: 0 <= j < i ==> notes[j].pitch != EmptyPitch
      {
        if notes[i].pitch == EmptyPitch {
          return i;
        }
        i := i + 1;
      }
      return -1;
    }
  }

  /**
   * A client of the table: four slots, cleared at setup; two notes are
   * assigned, the next free slot is 2; releasing slot 0 makes it the next
   * free slot again.
   */
  method AllocationScenario(periods: seq<uint32>, micros: uint32, millis: uint32)
    requires PeriodTable(periods)
  {
    var t := new NoteTable(4, periods);
    assert FirstEmpty(t.notes[..]) == -1;
    t.ClearNote(0);
    t.ClearNote(1);
    t.ClearNote(2);
    t.ClearNote(3);
    var k := t.FindFirstEmptyNoteIndex();
    assert k == 0;
    t.SetNote(k, 0, 60, 100, micros, millis);
    k := t.FindFirstEmptyNoteIndex();
    assert k == 1;
    t.SetNote(k, 0, 64, 100, micros, millis);
    k := t.FindFirstEmptyNoteIndex();
    assert k == 2;
    t.ClearNote(0);
    k := t.FindFirstEmptyNoteIndex();
    assert k == 0;
  }
}

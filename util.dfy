// Fixed-width integer types and the voice record of interocitor/util.h.

module Util {

  /** An unsigned 8-bit integer (`uint8_t`, Arduino `byte`). */
  newtype uint8 = x: int | 0 <= x < 0x100

  /** An unsigned 32-bit integer (`uint32_t`, and `unsigned long` on the 32-bit target). */
  newtype uint32 = x: int | 0 <= x < 0x1_0000_0000

  /**
   * One polyphonic voice slot (`struct MidiNote`).  A pitch of 255 marks an
   * empty slot; real MIDI pitches are 0..127.
   */
  datatype MidiNote = MidiNote(
    channel: uint8,
    pitch: uint8,
    velocity: uint8,
    phaseUs: uint32,
    periodUs: uint32,
    startMs: uint32)
}

# Interrupter firmware core: voice table and xorshift entropy

This project models, in Dafny, the scheduling core of the teensy-interruptor
firmware for a Tesla-coil interrupter played as a musical instrument. It
covers three pieces.

- **Voice table and allocator** (`interocitor/notes.h`). The table is a
  fixed-size array `active_notes` of `MidiNote` slots. A pitch of 255 marks a
  slot as empty. `set_note` writes a slot field by field. It takes the
  period from the pitch-to-period table, the phase from the microsecond clock
  modulo that period, and the start time from the millisecond clock.
  `clear_note` writes the canonical empty record.
  `find_first_empty_note_index` is a first-fit scan that returns -1 when the
  table is full.
  In `notes.dfy` this is the class `Notes.NoteTable`. It holds an
  `array<MidiNote>` and the period table. The pure functions `SetSlot`,
  `ClearSlot` and `FirstEmpty` specify its methods, and the lemmas about the
  allocator are stated over those functions.
- **Xorshift entropy source, interocitor variant** (`interocitor/entropy.h`).
  The state is a 32-bit word and a byte-select counter. `random_unit8`
  permutes the state only when the counter is 0. It then advances the
  counter modulo 4 and returns the byte the new counter selects. `init_rng`
  seeds with `75380540 - millis()` and applies 101 permutations. This is the
  class `InterocitorEntropy.Entropy`. The pure functions `Draw` and `Draws`
  specify one draw and a run of draws.
- **Xorshift entropy source, turboencabulator variant**
  (`turboencabulator/entropy.h`). `tiny_prng` returns the whole new state,
  and `init_rng` does 100 warm-up steps. This is the class
  `TurboEntropy.Entropy`.

Both variants share one permutation, `Xorshift.Step`. It applies
x ^= x << 13, then x ^= x >> 17, then x ^= x << 5, on `bv32`. This is the
shift triple of Marsaglia, "Xorshift RNGs" (2003). `EntropyVariants` relates
the two variants' seeded states.

The hardware clocks `micros()` and `millis()` become parameters of the
methods that read them. The lookup table `midi_period_us` becomes a
`seq<uint32>` of 128 strictly positive entries (`Notes.PeriodTable`), held by
the table object. `NOTE_ARRAY_SIZE` is the array length, fixed when the table
object is built. Fixed-width C integers are the newtypes `Util.uint8` and
`Util.uint32`. The generator state is a `bv32`, so the seed subtraction and
the shifts wrap and truncate as 32-bit unsigned arithmetic does.

The model follows the code as written, including these behaviours:

- `set_note` does not check that the slot is empty. An occupied slot is
  overwritten (see `Notes.SetSlotConsistent`).
- `set_note` does not validate velocity. Passing velocity 0 with a real pitch
  breaks the sentinel invariant "pitch 255 exactly when velocity 0". The
  lemma states this as an if-and-only-if.
- `active_notes` is a global array, so C zero-initialises it. Every slot then
  holds pitch 0, which is not the empty sentinel. The scan therefore finds no
  free slot until the caller has cleared a slot (see the
  `Notes.NoteTable` constructor and `Notes.AllocationScenario`). The setup
  code that clears the slots is not part of this model.
- `turboencabulator/entropy.h` lacks the semicolons at lines 1, 14 and 16.
  The model follows the evident intent: a plain assignment, a seeding
  statement and a 100-step loop.

## Model

| member | source | states |
|---|---|---|
| `Xorshift.Step` | interocitor/entropy.h:6-12 | the xorshift32 step (shifts 13, 17, 5 on 32 bits) maps a state to zero exactly when the state is zero: zero is a fixed point and no nonzero state collapses to zero |
| `Xorshift.StepMoves` | interocitor/entropy.h:6-12 | a nonzero state is never a fixed point of the step: the state always changes |
| `Xorshift.IterateMoves` | interocitor/entropy.h:16-17 | from a nonzero seed, every further step gives a state different from the one before it |
| `Xorshift.Iterate` | interocitor/entropy.h:16-17 | any number of steps keeps a zero state at zero and a nonzero state nonzero |
| `Xorshift.IterateAdd` | turboencabulator/entropy.h:15-16 | `a` steps followed by `b` steps equal `a + b` steps |
| `Xorshift.Seed` | interocitor/entropy.h:15 | the seed is the wrapping 32-bit difference `75380540 - millis`: adding `millis` back gives the magic constant |
| `Xorshift.SeedInjective` | interocitor/entropy.h:15 | different `millis` readings give different seeds (not that they give different post-warm-up states) |
| `InterocitorEntropy.Draws` | interocitor/entropy.h:22-28 | `n` draws return exactly `n` bytes, and once at least one draw is made the counter lies in 0..3 |
| `InterocitorEntropy.DrawsAppend` | interocitor/entropy.h:22-28 | the byte stream is a deterministic function of (state, counter): `a + b` draws equal `a` draws followed by `b` draws from the resulting state |
| `InterocitorEntropy.DrawsCounter` | interocitor/entropy.h:21-26 | from a counter in 0..3, after `n` draws the counter is `(counter + n) mod 4`: it cycles 0, 1, 2, 3, 0 |
| `InterocitorEntropy.FourDraws` | interocitor/entropy.h:22-28 | four draws from counter 0 permute exactly once, return bytes 1, 2, 3 and then 0 of that one fresh state, and bring the counter back to 0; from a nonzero state, the state after the four draws differs from the one before |
| `InterocitorEntropy.DrawGroups` | interocitor/entropy.h:22-28 | `4k` draws from counter 0 perform exactly `k` permutations; group `j` of four bytes exposes all four byte positions of the `(j+1)`-fold permuted state |
| `InterocitorEntropy.Entropy.constructor` | interocitor/entropy.h:1-21 | static initialisation: the state is the `millis()` reading and the counter is 0 |
| `InterocitorEntropy.Entropy.PermuteRngState` | interocitor/entropy.h:6-12 | the state becomes its xorshift32 image; the counter is not touched |
| `InterocitorEntropy.Entropy.InitRng` | interocitor/entropy.h:14-18 | the state becomes the 101-fold step of `75380540 - millis` (32-bit wrap), so equal readings give equal states; the counter is not reset |
| `InterocitorEntropy.Entropy.RandomUint8` | interocitor/entropy.h:22-28 | the state is permuted only when the old counter is 0; the counter becomes `(old + 1) mod 4`; the byte returned is `(state >> 8*counter) & 0xFF` with the new counter; together this is one `Draw` |
| `TurboEntropy.ZeroStaysZero` | turboencabulator/entropy.h:4-11 | a zero state stays zero under any number of `tiny_prng` steps |
| `TurboEntropy.Entropy.constructor` | turboencabulator/entropy.h:1 | static initialisation: the state is the `millis()` reading |
| `TurboEntropy.Entropy.TinyPrng` | turboencabulator/entropy.h:4-11 | the state becomes the xorshift32 image of the old state, and the value returned is exactly the value stored |
| `TurboEntropy.Entropy.InitRng` | turboencabulator/entropy.h:13-16 | the state becomes the 100-fold step of `75380540 - millis` (32-bit wrap); the loop invariant says that `i` calls of `tiny_prng` leave the `i`-fold step of the seed |
| `EntropyVariants.OneStepApart` | turboencabulator/entropy.h:13-16 | for the same `millis`, one more step of this variant's post-init state (100 steps) is the interocitor post-init state (101 steps) |
| `EntropyVariants.StepsApart` | turboencabulator/entropy.h:13-16 | the two seeded sequences stay one step apart after any number of further steps |
| `Notes.EmptyNote` | interocitor/notes.h:14-22 | the canonical empty record has pitch 255, velocity 0 and the period of table entry 0, with its phase below that period |
| `Notes.ActiveNote` | interocitor/notes.h:4-11 | an assigned record carries the given channel, pitch and velocity, the table period for the pitch and the millisecond start time; its phase is the microsecond clock modulo the period, so it is below the period and no later than the clock |
| `Notes.FirstEmpty` | interocitor/notes.h:24-35 | first fit: -1 exactly when no slot has pitch 255, otherwise the smallest index whose pitch is 255 |
| `Notes.ClearIdempotent` | interocitor/notes.h:14-22 | clearing slot `i` writes exactly {channel 0, pitch 255, velocity 0, phase 0, period of entry 0, start 0}, and clearing twice equals clearing once |
| `Notes.SetSlotNotFound` | interocitor/notes.h:4-35 | once a real pitch is set in slot `i`, the scan never returns `i` |
| `Notes.ClearSlotFound` | interocitor/notes.h:14-35 | once slot `i` is cleared, the scan returns an earlier empty slot if there is one and `i` otherwise, so it always succeeds with an index at most `i` |
| `Notes.ClearSlotConsistent` | interocitor/notes.h:14-22 | clearing a slot keeps the invariant "pitch 255 exactly when velocity 0" |
| `Notes.SetSlotConsistent` | interocitor/notes.h:4-12 | setting a real pitch keeps that invariant if and only if the velocity is nonzero; the slot's previous contents are not consulted |
| `Notes.FirstEmptyBySilence` | interocitor/notes.h:24-35 | under the sentinel invariant, the scan finds no slot exactly when every slot is sounding, and the slot it finds is silent |
| `Notes.NoteTable.constructor` | interocitor/notes.h:2 | the global table is zero-initialised: every slot holds the all-zero record, which is not the empty sentinel |
| `Notes.NoteTable.SetNote` | interocitor/notes.h:4-12 | slot `i` gets the channel, pitch and velocity, the table period for the pitch, phase = micros mod period (below the period) and start = millis; every other slot is unchanged |
| `Notes.NoteTable.ClearNote` | interocitor/notes.h:14-22 | slot `i` becomes the canonical empty record; every other slot is unchanged |
| `Notes.NoteTable.FindFirstEmptyNoteIndex` | interocitor/notes.h:24-35 | the scan returns -1 exactly when no slot has pitch 255, and otherwise the smallest index with pitch 255 |

## Left out

- The display files (`interocitor/display.h`, `turboencabulator/display.h`) are not modelled. They are LCD output through a foreign library, delays, a 250 ms debounce on `millis()`, and float arithmetic for the Hz readout.
- `micros()`, `millis()`, `midi_period_us`, `NOTE_ARRAY_SIZE` and `TIMER_COUNT` are not defined in the modelled files. The clocks are method parameters. The period table is a parameter that must have 128 positive entries. The table size is the array length.
- `volatile` and the interrupt-driven timing path are not modelled. The model is sequential, so a reader that sees a half-written slot is not represented.
- The pulse-period, bend and clamp policy is not modelled. No code for it appears in the modelled files.
- The `SYS_MODE` and `MUSIC_STATE` enums of `interocitor/util.h` are not declared. No modelled operation uses them.
- `Xorshift.Step` states only that it maps zero to zero and nonzero to nonzero. That the step is a bijection on 32-bit words is known but not proved here.
- `Notes.NoteTable.SetNote` requires a pitch below 128 and an index within the table. The C code does not check either and would read or write out of bounds.
- `Notes.NoteTable.ClearNote` requires an index within the table. The C code does not check it and would write out of bounds.

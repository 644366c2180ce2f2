# Musical keyboard, modelled in Dafny

A model of `MusicalKeyboard` from the `musical_keyboard` crate. The keyboard is a
small state machine. It turns symbolic key presses and releases from a computer
keyboard into optional `NoteOn` and `NoteOff` events. Its state is:

- a base octave, stepped by Z and X within [-2, 12];
- a velocity, stepped by 0.05 by C and V under a guard;
- the currently pressed keys, a map from each held note key to the absolute octave
  stored when it was pressed.

The model has four files:

- `notes.dfy` (module `Notes`) holds the pitch letters, the 22 keys, and the
  `NoteOn`, `NoteOff` and `NoteEvent` values. The constructors `NoteEvent.On` and
  `NoteEvent.Off` play the part of the two `From` conversions. It also holds the
  fixed table that lays two chromatic octaves over 18 keys. `maybe_note` reads
  nothing of the keyboard except its base octave, so `MaybeNote` is a function of
  the key and that octave. Its contract says what the table means: the n-th note
  key in declaration order sounds n semitones above the C of the base octave.
- `keyboard.dfy` (module `Keyboard`) gives each transition as a function on a
  `KeyboardState` value: `PressStep` for `key_pressed`, `NoteOnStep` for
  `maybe_note_on` and `NoteOffStep` for `maybe_note_off`. The function for
  `maybe_note_off` also serves `key_released`, which only delegates to it. The
  module then gives the class `MusicalKeyboard`. Its fields `octave`, `velocity`
  and `currentlyPressedKeys` are updated in place by the methods. Each method is
  proved to move the fields exactly as the matching transition function says.
  Lemmas state the behaviour of each branch.
- `properties.dfy` (module `KeyboardProperties`) applies sequences of events. It
  proves the range invariants, the pairing of a note-off with its note-on, and
  repeat suppression.
- `scenarios.dfy` (module `KeyboardScenarios`) is a client of the class. It shows
  that short press/release sessions can be concluded from the methods' contracts
  alone.

Three points where the code does something a reader might not expect. The model
follows the code in each:

- **Repeated presses.** The doc comment of `maybe_note_on` (`src/lib.rs:151-152`)
  says that a key that is already pressed is ignored. The code (`src/lib.rs:155`)
  inserts into the map first and tests afterwards. So a repeated press emits
  nothing, but it overwrites the stored octave with the current absolute octave. If the octave changed in between, the
  note-off then no longer matches the note-on (`RepeatAfterOctaveChangeMovesNoteOff`).
  The pairing property is therefore proved only for event sequences that do not
  press the held key again (`NoteOffMatchesNoteOn`).
- **Velocity range.** One might expect the velocity to stay within [0, 1]. The
  code only tests before it steps and never clamps, so 0.99 becomes 1.04
  (`VelocityIsNotClamped`). The velocity stays in [0, 1] only when it starts on
  the 0.05 grid, and only in exact arithmetic (`RunPreservesConsistent`).
- **Construction.** `new` does not check its arguments. The constructor accepts any
  octave and velocity, so each range fact is stated as "holds before, holds after".
  Each fact needs only its own starting condition. The map holds only note keys,
  at most 18 of them, whatever octave and velocity the keyboard was built with
  (`NewKeyboardHoldsAtMostEighteen`). The octave stays in range whatever the
  velocity (`RunKeepsOctaveInRange`).

## Model

| member | source | states |
|---|---|---|
| `Notes.MaybeNote` | src/lib.rs:124-147 | Returns a note exactly for the 18 non-modifier keys. The n-th note key sounds letter n mod 12 at base octave + n div 12, so A..J are at offset 0 and K..Quote at offset 1. |
| `Notes.MaybeNoteInjective` | src/lib.rs:125-146 | No two keys map to the same (letter, octave) pair. |
| `Notes.MaybeNoteOffsets` | src/lib.rs:125-146 | Keys A to J sound in the base octave; keys K to Quote sound one octave above it. |
| `Keyboard.MusicalKeyboard.constructor` | src/lib.rs:91-97 | `new` sets the octave and velocity to the given values, unchecked, and starts with an empty pressed map, which holds only note keys. |
| `Keyboard.MusicalKeyboard.Default` | src/lib.rs:70-74 | `default` is octave 2, velocity 1.0, nothing held, and a consistent state. |
| `Keyboard.MusicalKeyboard.KeyPressed` | src/lib.rs:106-115 | The fields and the result are exactly `PressStep` of the old fields. An in-range octave stays in range, a map of only note keys stays so, and a consistent keyboard stays consistent. |
| `Keyboard.MusicalKeyboard.KeyReleased` | src/lib.rs:118-120 | The fields and the result are exactly `NoteOffStep` of the old fields. The octave is unchanged, a map of only note keys stays so, and a consistent keyboard stays consistent. |
| `Keyboard.MusicalKeyboard.MaybeNoteOn` | src/lib.rs:153-164 | Uses the map insert's report of the replaced value. The fields and the result are exactly `NoteOnStep` of the old fields. |
| `Keyboard.MusicalKeyboard.MaybeNoteOff` | src/lib.rs:167-174 | Uses the map remove's report of the removed value. The fields and the result are exactly `NoteOffStep` of the old fields. |
| `Keyboard.OctaveKeys` | src/lib.rs:108-109 | Z lowers the octave by exactly 1 iff it is above -2; X raises it by exactly 1 iff it is below 12. Otherwise the octave is unchanged. Neither key emits a note or touches the velocity or the map. |
| `Keyboard.OctaveStaysInRange` | src/lib.rs:107-114 | If the octave is in [-2, 12] before a press of any key, it is still in range after. A release never changes the octave. |
| `Keyboard.VelocityKeys` | src/lib.rs:110-111 | C subtracts 0.05 iff velocity > 0; V adds 0.05 iff velocity < 1. Neither key emits a note or touches the octave or the map. |
| `Keyboard.VelocityIsNotClamped` | src/lib.rs:110-111 | The guard does not clamp: V takes 0.99 to 1.04, and C takes 0.01 to -0.04. |
| `Keyboard.ModifierPressKeepsHeldKeys` | src/lib.rs:107-114 | A press of Z, X, C or V returns nothing and leaves the pressed map unchanged. |
| `Keyboard.ModifierReleaseChangesNothing` | src/lib.rs:167-168 | A release of Z, X, C or V returns nothing and leaves the whole state unchanged. |
| `Keyboard.FreshPress` | src/lib.rs:153-161 | A press of a note key that is not held does four things. It stores k ↦ offset + octave. It returns a `NoteOn` with that letter, that octave and the current velocity. It leaves the octave and the velocity unchanged. It leaves every other entry unchanged. |
| `Keyboard.RepeatPress` | src/lib.rs:154-156 | A press of a held note key returns nothing. The only state change is that the key's entry is overwritten with the current absolute octave. |
| `Keyboard.ReleaseNote` | src/lib.rs:167-173 | A release of a note key removes it from the map. It returns a `NoteOff` with the stored octave if the key was held, otherwise with the current absolute octave. The octave, the velocity and the other entries are unchanged. |
| `Keyboard.VelocityStaysOnGrid` | src/lib.rs:110-111 | In exact arithmetic, C and V keep a velocity on the 0.05 grid within [0, 1]. |
| `Keyboard.StepsPreserveConsistent` | src/lib.rs:106-174 | A press and a release each keep three things: the octave in [-2, 12], the velocity on the grid, and only note keys in the map. |
| `Keyboard.StepsKeepOnlyNoteKeys` | src/lib.rs:106-174 | Whatever the octave and velocity, a press or a release keeps modifier keys out of the map. |
| `Keyboard.AtMostEighteenHeld` | src/lib.rs:153-164 | A map that holds only note keys holds at most 18 of them, whatever the octave and velocity. |
| `KeyboardProperties.RunPreservesConsistent` | src/lib.rs:106-174 | Any sequence of presses and releases keeps a consistent keyboard consistent. |
| `KeyboardProperties.RunKeepsOnlyNoteKeys` | src/lib.rs:106-174 | From any octave and velocity, any sequence of presses and releases keeps modifier keys out of the map. |
| `KeyboardProperties.RunKeepsOctaveInRange` | src/lib.rs:106-120 | Whatever the velocity, any sequence of events keeps an octave in [-2, 12] within that range. |
| `KeyboardProperties.NewKeyboardHoldsAtMostEighteen` | src/lib.rs:91-97 | For a keyboard built by `new` with any octave and velocity, after any events the map holds only note keys, and at most 18 of them. |
| `KeyboardProperties.DefaultStaysInRange` | src/lib.rs:70-120 | From `default`, after any events: the octave is in [-2, 12]; the velocity is in [0, 1], in exact arithmetic only; only note keys are held, and at most 18 of them. |
| `KeyboardProperties.OtherEventsKeepStoredOctave` | src/lib.rs:153-173 | Events that neither press nor release a held key keep it held, with the same stored octave. |
| `KeyboardProperties.NoteOffMatchesNoteOn` | src/lib.rs:167-173 | Take a fresh press of a note key, then any events that do not involve that key, including octave changes. The next release emits a `NoteOff` with the same letter and octave as the `NoteOn`. |
| `KeyboardProperties.HeldUntilReleased` | src/lib.rs:153-156 | A held key stays held through any events that do not release it, and a further press of it emits nothing. |
| `KeyboardProperties.RepeatedPressesEmitOneNoteOn` | src/lib.rs:149-164 | Pressing a key that is not held n ≥ 1 times in a row gives a `NoteOn` for the first press and nothing for the rest. |
| `KeyboardProperties.HeldPressesEmitNothing` | src/lib.rs:154-156 | Presses of a key that is already held emit nothing. |
| `KeyboardProperties.RepeatAfterOctaveChangeMovesNoteOff` | src/lib.rs:155-156 | Press A, X, A, then release A, starting from `default`. The output is NoteOn C2, nothing, nothing, NoteOff C3, because the repeated press refreshed the stored octave. |
| `KeyboardProperties.SpuriousRelease` | src/lib.rs:169-170 | Releasing F on a fresh default keyboard emits NoteOff F2, at the current octave. |

## Left out

- The `pitch_calc` crate is not part of this model. `Letter` is a local datatype with the twelve letters, and `Octave` is an unbounded `int`.
- The `Octave` type is `i32`, but the model does not wrap `offset + octave` around. With an in-range base octave the sum is at most 13, so wrap-around cannot happen there.
- Velocity is `f32` in the crate and an exact `real` here. Repeated ±0.05 steps in `f32` drift and are not modelled. Claims about `f32` rounding are out of scope.
- RunPreservesConsistent: the velocity part holds in exact arithmetic only. In `f32`, 0.05 is not exact, so stepped velocities leave the 0.05 grid. For example, twenty C presses from 1.0 end slightly below 0 (about -1.6e-7) instead of at 0.
- DefaultStaysInRange: the bound 0 <= velocity <= 1 holds in exact arithmetic only. With the crate's `f32`, twenty C presses from `default` already take the velocity slightly below 0. The octave and held-key bounds do not depend on the velocity and hold as stated.
- `HashMap` hashing and capacity are not modelled. The map is a `map<Key, int>`, with insert (overwrite, report the previous value) and remove (report the removed value).
- The derived `Clone`, `Debug`, `PartialEq` and `Hash` implementations are not modelled; they have no logic.
- The host side is outside the crate and is not modelled. That covers event sources, audio or MIDI output, and putting events from several threads in order.

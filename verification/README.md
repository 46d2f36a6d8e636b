# A virtual piano's note tables and input dispatcher, in Dafny

The piano is one browser script. It plays thirteen chromatic notes, C4 to C5.
Mouse, touch and the computer keyboard all trigger them. This project models
the script's logic:

- `notes.dfy` (module `Notes`) holds the two static tables as `map` constants.
  `NOTE_FREQ` maps each note name to its frequency, in integer hundredths of a
  hertz (A4 is `44000`). `KEYBOARD_MAP` maps each bound lower-case letter to a
  note. The module also has the lookups, the lower-casing of key symbols, and
  the facts about the tables: the binding is a bijection onto the notes, and
  each table has thirteen entries.
- `dispatch.dfy` (module `Dispatch`) holds the dispatcher's state as a value:
  - `downKeys`, the held key symbols;
  - `pressed`, the notes whose on-screen keys are marked pressed;
  - `played`, the trace of notes handed to the tone synthesizer.

  Each listener is a step function. `Run` folds a sequence of events. The
  module's lemmas cover repeat suppression, idempotent release, the held-set
  invariant, case-insensitivity, and how the keyboard differs from
  pointer/touch input.
- `piano.dfy` (module `Piano`) is the imperative form. Class `Dispatcher` has
  the three fields. Its methods `KeyDown`, `KeyUp`, `PointerDown`, `PointerUp`,
  `SetPressed` and `PlayNote` change them in place. Each method is proved to
  move the object's `Model()` exactly as the matching step function does, and
  to keep the invariant `Valid()`.

Playing a note is modelled as appending it to `played`. Marking a note
pressed adds it to the `pressed` set. That set stands in for the CSS class on
every on-screen key that carries the note.

## Model

| member | source | states |
|---|---|---|
| Notes.FrequencyOf | script.js:1-15 | a frequency exists exactly for the 13 table notes; it is the table's value and is positive |
| Notes.NoteForKey | script.js:18-32 | a note exists exactly for bound keys; it is that key's entry in the binding table, a note of the frequency table, and never empty |
| Notes.LowerChar | script.js:95 | ASCII 'A'..'Z' move up by 32 into 'a'..'z'; the Kelvin sign U+212A becomes 'k'; every other character is unchanged |
| Notes.KelvinSignIsK | script.js:95-98 | the Kelvin sign lower-cases to "k", the key bound to C5 |
| Notes.ToLower | script.js:95 | lower-casing keeps the length, lowers each character in place, and leaves no ASCII upper-case letter |
| Notes.ToLowerIdempotent | script.js:107 | lower-casing an already lower-cased symbol changes nothing |
| Notes.ToLowerCaseInsensitive | script.js:95 | an upper-case letter and its lower-case letter normalise to the same one-letter symbol |
| Notes.BoundKeysAreLowerCase | script.js:18-32 | every bound key is its own lower-case form, so bound keys can be reached from the keyboard |
| Notes.KeyOfNoteInverts | script.js:1-32 | each bound key maps to a note, and back to the same key; each note maps to a key, and back to the same note |
| Notes.BindingIsBijection | script.js:1-32 | every bound key lands on a note of the frequency table; no two keys share a note; every note has a key |
| Notes.NoteTableSize | script.js:1-15 | the frequency table has exactly 13 notes |
| Notes.KeyTableSize | script.js:18-32 | the binding table has exactly 13 keys |
| Notes.BoundKeysArePlayable | script.js:43-45 | the note of a bound key always passes the frequency guard in playNote |
| Notes.NoteOrderAscending | script.js:1-15 | the notes, in table order, are the 13 table keys with no repeats and strictly rising frequency |
| Dispatch.PlayStep | script.js:43-45 | a table note is appended once to the trace; any other identifier is a no-op; held keys and marks are untouched |
| Dispatch.SetPressedStep | script.js:65-68 | the note's mark becomes the flag; every other note's mark and the rest of the state are unchanged |
| Dispatch.KeyDownStep | script.js:94-104 | a held symbol changes nothing; an unbound symbol changes nothing; otherwise exactly the key is added to the held set, exactly its note to the marks, and the note once to the trace |
| Dispatch.KeyUpStep | script.js:106-114 | never plays; an unbound symbol changes nothing; a bound one leaves the held set and its note's mark, held or not |
| Dispatch.PointerDownStep | script.js:74-86 | marks the note and plays it if it is in the table; the held keys are untouched |
| Dispatch.PointerUpStep | script.js:79-88 | only clears the note's mark; never plays and never touches held keys |
| Dispatch.Run | script.js:92-114 | handling events keeps the earlier trace as a prefix and adds at most one note per event |
| Dispatch.LookupOrderIrrelevant | script.js:94-101 | under the invariant, testing the held set before the lookup gives the same state as testing it after |
| Dispatch.CaseInsensitive | script.js:94-113 | symbols that lower-case alike, such as "A" and "a", have the same effect on key down and on key up |
| Dispatch.HeldKeySuppressesRepeat | script.js:94-96 | a second key down of the same key, in any case, changes nothing |
| Dispatch.KeyUpIdempotent | script.js:106-113 | releasing a key twice has the same effect as releasing it once |
| Dispatch.PointerDownNotSuppressed | script.js:74-86 | two pointer presses on a note play it twice; pointer input has no repeat suppression |
| Dispatch.PressedIsPerNote | script.js:65-96 | a pointer release clears a note's mark even while its key is held, and repeats of that key do not restore it |
| Dispatch.RunAppend | script.js:92-114 | handling two batches of events one after the other is the same as handling them together |
| Dispatch.StepPreservesInv | script.js:92-114 | every listener keeps held keys bound and lower-case, and keeps the trace made of table notes |
| Dispatch.RunPreservesInv | script.js:92-114 | any sequence of events keeps both invariants |
| Dispatch.ReachableInv | script.js:92 | every state reachable from the empty start satisfies both invariants |
| Dispatch.HeldKeyRunIsNoOp | script.js:94-96 | any number of key downs of an already held key change nothing |
| Dispatch.HeldUntilReleased | script.js:94-114 | a held key stays held through any events other than its own key-up (other keys, pointer input), and its key-downs stay silent throughout |
| Dispatch.UnboundRunIsNoOp | script.js:98-99 | any number of key downs of an unbound symbol change nothing |
| Dispatch.KeyRepeatPlaysOnce | script.js:94-103 | a run of key downs of one key with no key up between acts as the first press alone; a fresh bound key is played exactly once |
| Dispatch.ReleasesNeverPlay | script.js:79-114 | key-up, mouse-up, mouse-leave and touch-end events never add to the trace |
| Dispatch.HoldRepeatRelease | script.js:94-114 | holding "a", repeating it and releasing it plays C4 once, then leaves nothing held and nothing marked |
| Dispatch.KelvinSignPlaysC5 | script.js:94-103 | a key-down reporting the Kelvin sign holds "k", marks C5 and plays it once |
| Dispatch.UnboundKeyHasNoEffect | script.js:94-114 | key down and key up of "z" have no effect at all |
| Dispatch.PointerPlaysGSharp | script.js:1-15 | a mouse press on G#4 marks it and plays it; its frequency is 415.30 Hz |
| Piano.Dispatcher.constructor | script.js:92 | the page starts with nothing held, nothing marked, nothing played |
| Piano.Dispatcher.PlayNote | script.js:43-63 | appends a table note to the trace and ignores any other identifier; nothing else changes |
| Piano.Dispatcher.SetPressed | script.js:65-68 | sets or clears exactly one note's mark in place |
| Piano.Dispatcher.KeyDown | script.js:94-104 | updates the fields in place as KeyDownStep does, and keeps the invariant |
| Piano.Dispatcher.KeyUp | script.js:106-114 | updates the fields in place as KeyUpStep does, and keeps the invariant |
| Piano.Dispatcher.PointerDown | script.js:74-86 | the mousedown and touchstart listeners update the fields as PointerDownStep does |
| Piano.Dispatcher.PointerUp | script.js:79-88 | the mouseup, mouseleave and touchend listeners update the fields as PointerUpStep does |
| Piano.Dispatcher.Handle | script.js:71-114 | each event reaches its listener, and the fields move as Dispatch.Step says, which sends key events to the key handlers, mousedown and touchstart to the pointer-press handler, and mouseup, mouseleave and touchend to the pointer-release handler |

## Left out

- Tone synthesis (script.js:34-41, 47-62) is not modelled. This covers the lazily created shared audio context, the oscillator, the gain envelope and start/stop. These are calls into the browser's audio API with real-valued timing. Playing a note is recorded only as an entry in `played`. The envelope's schedule survives only as the constants `ATTACK_END_MS`, `DECAY_END_MS` and `STOP_MS` (30, 600 and 650 ms).
- Overlapping tones and timing belong to the audio subsystem's own clock, so they are not modelled. A key-up never stops a tone in the source either.
- DOM wiring is not modelled. This covers `querySelectorAll`, `addEventListener`, `classList.toggle`, `preventDefault` and the `passive: false` option. The `pressed` set stands in for the CSS class. The methods of `Dispatcher` stand in for the listeners.
- `ToLower`: lowers ASCII 'A'..'Z' and the Kelvin sign U+212A (which lower-cases to "k", bound to C5) and leaves every other character unchanged. The browser's `toLowerCase` applies full Unicode case mapping. For any other character, Unicode gives a lower-case form that is not an ASCII letter. So the model and the page can differ only on symbols that are unbound both before and after lower-casing, and unbound key events have no effect in either.
- `FrequencyOf` and `NoteForKey` look up only the table's own entries. In JavaScript, a lookup of an inherited property name such as "toString" yields a truthy value. Neither the page's `data-note` attributes nor browser key names produce such names.
- Frequencies are integer hundredths of a hertz rather than floating-point numbers. Every table value has at most two decimals (392.0, 415.3 and 440.0 have fewer). The script's values are the nearest binary doubles, so the two forms agree only up to that rounding. The dispatcher's behaviour uses just one fact about them: every frequency is positive, so `playNote`'s guard passes.

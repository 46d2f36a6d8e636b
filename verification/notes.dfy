/**
 * The two static tables of the piano: the thirteen chromatic notes from C4
 * to C5 with their frequencies, and the thirteen letters of the computer
 * keyboard that are bound to them.  Frequencies are kept as integer
 * hundredths of a hertz (440.0 Hz is 44000), so that no real numbers are
 * needed.  Key symbols are normalised by an ASCII-only lower-casing.
 */
module Notes {

  datatype Option<T> = None | Some(value: T)

  /** Note name to frequency, in hundredths of a hertz. */
  const NOTE_FREQ: map<string, nat> := map[
    "C4" := 26163,
    "C#4" := 27718,
    "D4" := 29366,
    "D#4" := 31113,
    "E4" := 32963,
    "F4" := 34923,
    "F#4" := 36999,
    "G4" := 39200,
    "G#4" := 41530,
    "A4" := 44000,
    "A#4" := 46616,
    "B4" := 49388,
    "C5" := 52325
  ]

  /** Lower-case key symbol to note name. */
  const KEYBOARD_MAP: map<string, string> := map[
    "a" := "C4",
    "w" := "C#4",
    "s" := "D4",
    "e" := "D#4",
    "d" := "E4",
    "f" := "F4",
    "t" := "F#4",
    "g" := "G4",
    "y" := "G#4",
    "h" := "A4",
    "u" := "A#4",
    "j" := "B4",
    "k" := "C5"
  ]

  /** The thirteen notes in ascending pitch, as the note table lists them. */
  const NOTE_ORDER: seq<string> :=
    ["C4", "C#4", "D4", "D#4", "E4", "F4", "F#4", "G4", "G#4", "A4", "A#4", "B4", "C5"]

  /** The tone envelope scheduled for every played note, in milliseconds
    * after the start of the tone: the attack ends, the decay reaches its
    * floor, and the oscillator is stopped.  Documentation only. */
  const ATTACK_END_MS := 30
  const DECAY_END_MS := 600
  const STOP_MS := 650

  /** Frequency lookup: none for an identifier outside the note table. */
  function FrequencyOf(note: string): (r: Option<nat>)
    ensures r.Some? <==> note in NOTE_FREQ
    ensures r.Some? ==> r.value == NOTE_FREQ[note] && r.value > 0
  {
    if note in NOTE_FREQ then Some(NOTE_FREQ[note]) else None
  }

  /** Binding lookup for an already lower-cased key symbol. */
  function NoteForKey(key: string): (r: Option<string>)
    ensures r.Some? <==> key in KEYBOARD_MAP
    ensures r.Some? ==> r.value == KEYBOARD_MAP[key]
    ensures r.Some? ==> r.value in NOTE_FREQ && r.value != ""
  {
    if key in KEYBOARD_MAP then Some(KEYBOARD_MAP[key]) else None
  }

  /** The KELVIN SIGN, U+212A, whose lower-case form is the letter 'k'. */
  const KELVIN_SIGN: char := '\U{212A}'

  /** Lower-casing of one character: 'A'..'Z' become 'a'..'z', and the
    * Kelvin sign becomes 'k'; these are the only characters whose lower-case
    * form is an ASCII letter other than themselves.  Every other character
    * is left as it is. */
  function LowerChar(c: char): (r: char)
    ensures 'A' <= c <= 'Z' ==> 'a' <= r <= 'z' && r as int - c as int == 32
    ensures c == KELVIN_SIGN ==> r == 'k'
    ensures !('A' <= c <= 'Z') && c != KELVIN_SIGN ==> r == c
  {
    if 'A' <= c <= 'Z' then (c as int + 32) as char
    else if c == KELVIN_SIGN then 'k'
    else c
  }

  /** ASCII lower-casing of a key symbol, character by character. */
  function ToLower(s: string): (r: string)
    ensures |r| == |s|
    ensures forall i :: 0 <= i < |s| ==> r[i] == LowerChar(s[i])
    ensures forall i :: 0 <= i < |r| ==> !('A' <= r[i] <= 'Z')
  {
    if s == [] then [] else [LowerChar(s[0])] + ToLower(s[1..])
  }

  /** Lower-casing twice is lower-casing once. */
  lemma ToLowerIdempotent(s: string)
    ensures ToLower(ToLower(s)) == ToLower(s)
  {
    var t := ToLower(s);
    assert forall i :: 0 <= i < |t| ==> ToLower(t)[i] == t[i];
  }

  /** An upper-case letter and its lower-case partner name the same key. */
  lemma ToLowerCaseInsensitive(c: char)
    requires 'a' <= c <= 'z'
    ensures ToLower([(c as int - 32) as char]) == ToLower([c]) == [c]
  {
    assert ToLower([c])[0] == c;
    assert ToLower([(c as int - 32) as char])[0] == c;
  }

  /** The Kelvin sign reaches the key bound to C5. */
  lemma KelvinSignIsK()
    ensures ToLower([KELVIN_SIGN]) == "k"
    ensures NoteForKey(ToLower([KELVIN_SIGN])) == Some("C5")
  {
    assert ToLower([KELVIN_SIGN])[0] == 'k';
  }

  /** Every bound key is already lower-case, so lower-casing it is a no-op. */
  lemma BoundKeysAreLowerCase()
    ensures forall k :: k in KEYBOARD_MAP ==> ToLower(k) == k
  {
    forall k | k in KEYBOARD_MAP ensures ToLower(k) == k {
      assert |k| == 1 && 'a' <= k[0] <= 'z';
      assert ToLower(k)[0] == k[0];
    }
  }

  /** The inverse binding, note to key.  A proof device for injectivity,
    * written out again by hand; KeyOfNoteInverts ties it to KEYBOARD_MAP
    * entry by entry, so a mismatch would fail that lemma. */
  ghost const KEY_OF_NOTE: map<string, string> := map[
    "C4" := "a", "C#4" := "w", "D4" := "s", "D#4" := "e", "E4" := "d",
    "F4" := "f", "F#4" := "t", "G4" := "g", "G#4" := "y", "A4" := "h",
    "A#4" := "u", "B4" := "j", "C5" := "k"
  ]

  lemma KeyOfNoteInverts()
    ensures forall k :: k in KEYBOARD_MAP ==>
      KEYBOARD_MAP[k] in KEY_OF_NOTE && KEY_OF_NOTE[KEYBOARD_MAP[k]] == k
    ensures forall n :: n in NOTE_FREQ ==>
      n in KEY_OF_NOTE && KEY_OF_NOTE[n] in KEYBOARD_MAP && KEYBOARD_MAP[KEY_OF_NOTE[n]] == n
  {
  }

  /** The keyboard binding is a bijection onto the note table: every bound
    * key lands on a playable note, no two keys share a note, and every
    * note has a key. */
  lemma BindingIsBijection()
    ensures forall k :: k in KEYBOARD_MAP ==> KEYBOARD_MAP[k] in NOTE_FREQ
    ensures forall k1, k2 :: k1 in KEYBOARD_MAP && k2 in KEYBOARD_MAP && k1 != k2 ==>
      KEYBOARD_MAP[k1] != KEYBOARD_MAP[k2]
    ensures KEYBOARD_MAP.Values == NOTE_FREQ.Keys
  {
    KeyOfNoteInverts();
  }

  /** A sequence without repetitions has as many distinct elements as it
    * has positions. */
  lemma {:induction false} DistinctCardinality(s: seq<string>)
    requires forall i, j :: 0 <= i < j < |s| ==> s[i] != s[j]
    ensures |set x | x in s| == |s|
  {
    if s != [] {
      DistinctCardinality(s[1..]);
      assert (set x | x in s) == {s[0]} + (set x | x in s[1..]);
    }
  }

  /** The note table has exactly thirteen entries. */
  lemma NoteTableSize()
    ensures |NOTE_FREQ| == 13
  {
    NoteOrderAscending();
    DistinctCardinality(NOTE_ORDER);
    assert NOTE_FREQ.Keys == set x | x in NOTE_ORDER;
  }

  /** The binding table has exactly thirteen entries. */
  lemma KeyTableSize()
    ensures |KEYBOARD_MAP| == 13
  {
    // The bound keys in note order; the first assertion checks each one
    // against KEYBOARD_MAP and NOTE_ORDER.
    var keys := ["a", "w", "s", "e", "d", "f", "t", "g", "y", "h", "u", "j", "k"];
    assert forall i :: 0 <= i < 13 ==> keys[i] in KEYBOARD_MAP && KEYBOARD_MAP[keys[i]] == NOTE_ORDER[i];
    NoteOrderAscending();
    assert forall i, j :: 0 <= i < j < 13 ==> NOTE_ORDER[i] != NOTE_ORDER[j];
    DistinctCardinality(keys);
    assert KEYBOARD_MAP.Keys == set x | x in keys;
  }

  /** A bound key never reaches the frequency guard's early return. */
  lemma BoundKeysArePlayable(key: string)
    requires NoteForKey(key).Some?
    ensures FrequencyOf(NoteForKey(key).value).Some?
  {
  }

  /** The note order is the note table, listed without repetition and in
    * strictly rising pitch. */
  lemma NoteOrderAscending()
    ensures |NOTE_ORDER| == 13
    ensures forall n :: n in NOTE_FREQ <==> n in NOTE_ORDER
    ensures forall i, j :: 0 <= i < j < |NOTE_ORDER| ==>
      NOTE_ORDER[i] in NOTE_FREQ && NOTE_ORDER[j] in NOTE_FREQ &&
      NOTE_FREQ[NOTE_ORDER[i]] < NOTE_FREQ[NOTE_ORDER[j]]
  {
  }
}

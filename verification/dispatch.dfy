/**
 * The input dispatcher's state and its transitions, as values.  The state
 * is the set of held (lower-cased) key symbols, the set of notes whose
 * on-screen keys are marked pressed, and the trace of notes handed to the
 * tone synthesizer.  Each browser event becomes one step function; the
 * class in module Piano updates its fields exactly as these functions say.
 */
module Dispatch {
  import opened Notes

  datatype State = State(downKeys: set<string>, pressed: set<string>, played: seq<string>)

  /** The raw events the page listens to.  Keyboard events carry the
    * symbol as reported (before lower-casing), pointer and touch events the
    * note bound to the on-screen key they hit. */
  datatype Event =
    | KeyDown(key: string)
    | KeyUp(key: string)
    | MouseDown(note: string)
    | MouseUp(note: string)
    | MouseLeave(note: string)
    | TouchStart(note: string)
    | TouchEnd(note: string)

  /** Nothing held, nothing pressed, nothing played. */
  const INITIAL := State({}, {}, [])

  /** Held keys are always bound, lower-case key symbols. */
  ghost predicate Inv(s: State) {
    forall k :: k in s.downKeys ==> k in KEYBOARD_MAP && ToLower(k) == k
  }

  /** Every entry of the trace is a note of the note table. */
  ghost predicate PlayedAreNotes(s: State) {
    forall i :: 0 <= i < |s.played| ==> s.played[i] in NOTE_FREQ
  }

  /** Playing a note: it joins the trace unless the frequency lookup gives
    * nothing (or a zero frequency, which the table never holds). */
  function PlayStep(s: State, note: string): (r: State)
    ensures r.downKeys == s.downKeys && r.pressed == s.pressed
    ensures note in NOTE_FREQ ==> r.played == s.played + [note]
    ensures note !in NOTE_FREQ ==> r == s
  {
    match FrequencyOf(note)
    case None => s
    case Some(freq) => if freq == 0 then s else s.(played := s.played + [note])
  }

  /** Marking or un-marking every on-screen key of a note. */
  function SetPressedStep(s: State, note: string, on: bool): (r: State)
    ensures r.downKeys == s.downKeys && r.played == s.played
    ensures note in r.pressed <==> on
    ensures forall n :: n != note ==> (n in r.pressed <==> n in s.pressed)
  {
    s.(pressed := if on then s.pressed + {note} else s.pressed - {note})
  }

  /** Key down: a held symbol is a repeat and is ignored, an unbound one is
    * ignored, a fresh bound one is recorded, its note marked and played. */
  function KeyDownStep(s: State, rawKey: string): (r: State)
    ensures ToLower(rawKey) in s.downKeys ==> r == s
    ensures ToLower(rawKey) !in KEYBOARD_MAP ==> r == s
    ensures ToLower(rawKey) !in s.downKeys && ToLower(rawKey) in KEYBOARD_MAP ==>
      r.downKeys == s.downKeys + {ToLower(rawKey)} &&
      r.pressed == s.pressed + {KEYBOARD_MAP[ToLower(rawKey)]} &&
      r.played == s.played + [KEYBOARD_MAP[ToLower(rawKey)]]
  {
    var key := ToLower(rawKey);
    if key in s.downKeys then s
    else match NoteForKey(key)
      case None => s
      case Some(note) =>
        if note == "" then s
        else PlayStep(SetPressedStep(s.(downKeys := s.downKeys + {key}), note, true), note)
  }

  /** Key up: an unbound symbol is ignored; a bound one is released and its
    * note un-marked, whether or not it was held.  Nothing is played. */
  function KeyUpStep(s: State, rawKey: string): (r: State)
    ensures r.played == s.played
    ensures ToLower(rawKey) !in KEYBOARD_MAP ==> r == s
    ensures ToLower(rawKey) in KEYBOARD_MAP ==>
      r.downKeys == s.downKeys - {ToLower(rawKey)} &&
      r.pressed == s.pressed - {KEYBOARD_MAP[ToLower(rawKey)]}
  {
    var key := ToLower(rawKey);
    match NoteForKey(key)
    case None => s
    case Some(note) =>
      if note == "" then s
      else SetPressedStep(s.(downKeys := s.downKeys - {key}), note, false)
  }

  /** Mouse down or touch start on a key: mark and play, with no check for
    * repeats. */
  function PointerDownStep(s: State, note: string): (r: State)
    ensures r.downKeys == s.downKeys
    ensures r.pressed == s.pressed + {note}
    ensures r.played == s.played + (if note in NOTE_FREQ then [note] else [])
  {
    PlayStep(SetPressedStep(s, note, true), note)
  }

  /** Mouse up, mouse leave or touch end on a key: un-mark only. */
  function PointerUpStep(s: State, note: string): (r: State)
    ensures r.downKeys == s.downKeys && r.played == s.played
    ensures r.pressed == s.pressed - {note}
  {
    SetPressedStep(s, note, false)
  }

  /** The listener each event reaches. */
  function Step(s: State, e: Event): State {
    match e
    case KeyDown(k) => KeyDownStep(s, k)
    case KeyUp(k) => KeyUpStep(s, k)
    case MouseDown(n) => PointerDownStep(s, n)
    case TouchStart(n) => PointerDownStep(s, n)
    case MouseUp(n) => PointerUpStep(s, n)
    case MouseLeave(n) => PointerUpStep(s, n)
    case TouchEnd(n) => PointerUpStep(s, n)
  }

  /** Events handled one after another, in the order they arrive. */
  function Run(s: State, events: seq<Event>): (r: State)
    ensures |r.played| <= |s.played| + |events|
    ensures s.played <= r.played
    decreases |events|
  {
    if events == [] then s else Run(Step(s, events[0]), events[1..])
  }

  /** The handler with the two checks the other way round: look the key up
    * first, then test whether it is held. */
  function KeyDownLookupFirst(s: State, rawKey: string): State {
    var key := ToLower(rawKey);
    match NoteForKey(key)
    case None => s
    case Some(note) =>
      if note == "" || key in s.downKeys then s
      else PlayStep(SetPressedStep(s.(downKeys := s.downKeys + {key}), note, true), note)
  }

  // ---- Properties of single steps ----

  /** Because held keys are bound, testing the held set before or after the
    * lookup makes no difference. */
  lemma LookupOrderIrrelevant(s: State, rawKey: string)
    requires Inv(s)
    ensures KeyDownStep(s, rawKey) == KeyDownLookupFirst(s, rawKey)
  {
    var key := ToLower(rawKey);
    if key in s.downKeys {
      assert key in KEYBOARD_MAP;
    }
  }

  /** Key handling is case-insensitive: two symbols that lower-case alike
    * have the same effect on press and on release. */
  lemma CaseInsensitive(s: State, k1: string, k2: string)
    requires ToLower(k1) == ToLower(k2)
    ensures KeyDownStep(s, k1) == KeyDownStep(s, k2)
    ensures KeyUpStep(s, k1) == KeyUpStep(s, k2)
  {
  }

  /** Once a key is down, a press of any symbol that lower-cases to the
    * same key (a repeat, or the same letter with shift) changes nothing. */
  lemma HeldKeySuppressesRepeat(s: State, k1: string, k2: string)
    requires ToLower(k1) == ToLower(k2)
    ensures KeyDownStep(KeyDownStep(s, k1), k2) == KeyDownStep(s, k1)
  {
  }

  /** Releasing twice is releasing once. */
  lemma KeyUpIdempotent(s: State, rawKey: string)
    ensures KeyUpStep(KeyUpStep(s, rawKey), rawKey) == KeyUpStep(s, rawKey)
  {
  }

  /** Pointer presses are not de-duplicated: two presses play twice. */
  lemma PointerDownNotSuppressed(s: State, note: string)
    requires note in NOTE_FREQ
    ensures PointerDownStep(PointerDownStep(s, note), note).played == s.played + [note, note]
  {
  }

  /** The pressed mark belongs to the note, not to the input that set it:
    * a pointer release clears the mark of a note whose key is still held,
    * and further repeats of that key do not restore it. */
  lemma PressedIsPerNote(s: State, rawKey: string)
    requires ToLower(rawKey) in s.downKeys && ToLower(rawKey) in KEYBOARD_MAP
    ensures var t := PointerUpStep(s, KEYBOARD_MAP[ToLower(rawKey)]);
      ToLower(rawKey) in t.downKeys &&
      KEYBOARD_MAP[ToLower(rawKey)] !in t.pressed &&
      KeyDownStep(t, rawKey) == t
  {
  }

  // ---- Properties of runs ----

  lemma {:induction false} RunAppend(s: State, a: seq<Event>, b: seq<Event>)
    ensures Run(s, a + b) == Run(Run(s, a), b)
    decreases |a|
  {
    if a == [] {
      assert a + b == b;
    } else {
      assert (a + b)[1..] == a[1..] + b;
      RunAppend(Step(s, a[0]), a[1..], b);
    }
  }

  /** Every step keeps the held set bound and lower-case, and the trace made
    * of notes. */
  lemma StepPreservesInv(s: State, e: Event)
    requires Inv(s) && PlayedAreNotes(s)
    ensures Inv(Step(s, e)) && PlayedAreNotes(Step(s, e))
  {
    BoundKeysAreLowerCase();
  }

  lemma {:induction false} RunPreservesInv(s: State, events: seq<Event>)
    requires Inv(s) && PlayedAreNotes(s)
    ensures Inv(Run(s, events)) && PlayedAreNotes(Run(s, events))
    decreases |events|
  {
    if events != [] {
      StepPreservesInv(s, events[0]);
      RunPreservesInv(Step(s, events[0]), events[1..]);
    }
  }

  /** Every state reachable from start-up keeps the invariants. */
  lemma ReachableInv(events: seq<Event>)
    ensures Inv(Run(INITIAL, events)) && PlayedAreNotes(Run(INITIAL, events))
  {
    RunPreservesInv(INITIAL, events);
  }

  /** Presses of a key already held, however many, change nothing. */
  lemma {:induction false} HeldKeyRunIsNoOp(s: State, key: string, events: seq<Event>)
    requires ToLower(key) in s.downKeys
    requires forall i :: 0 <= i < |events| ==> events[i].KeyDown? && ToLower(events[i].key) == ToLower(key)
    ensures Run(s, events) == s
    decreases |events|
  {
    if events != [] {
      HeldKeyRunIsNoOp(s, key, events[1..]);
    }
  }

  /** Repeat suppression: a run of key-downs for one key, with no key-up in
    * between, acts as the first press alone; if the key is bound and was
    * not held, its note is played exactly once. */
  lemma {:induction false} KeyRepeatPlaysOnce(s: State, key: string, events: seq<Event>)
    requires |events| > 0
    requires forall i :: 0 <= i < |events| ==> events[i].KeyDown? && ToLower(events[i].key) == ToLower(key)
    ensures Run(s, events) == KeyDownStep(s, key)
    ensures ToLower(key) in KEYBOARD_MAP && ToLower(key) !in s.downKeys ==>
      Run(s, events).played == s.played + [KEYBOARD_MAP[ToLower(key)]]
  {
    var first := KeyDownStep(s, events[0].key);
    CaseInsensitive(s, events[0].key, key);
    if ToLower(key) in first.downKeys {
      HeldKeyRunIsNoOp(first, key, events[1..]);
    } else {
      // an unbound key: every press leaves the state alone
      assert first == s;
      UnboundRunIsNoOp(s, key, events[1..]);
    }
  }

  /** A held key stays held, and its presses stay silent, through any
    * events other than its own release: other keys, their repeats, and
    * pointer presses and releases. */
  lemma {:induction false} HeldUntilReleased(s: State, key: string, events: seq<Event>)
    requires ToLower(key) in s.downKeys
    requires forall i :: 0 <= i < |events| ==> !(events[i].KeyUp? && ToLower(events[i].key) == ToLower(key))
    ensures ToLower(key) in Run(s, events).downKeys
    ensures KeyDownStep(Run(s, events), key) == Run(s, events)
    decreases |events|
  {
    if events != [] {
      var e := events[0];
      assert ToLower(key) in Step(s, e).downKeys;
      HeldUntilReleased(Step(s, e), key, events[1..]);
    }
  }

  /** Presses of an unbound key, however many, change nothing. */
  lemma {:induction false} UnboundRunIsNoOp(s: State, key: string, events: seq<Event>)
    requires ToLower(key) !in KEYBOARD_MAP
    requires forall i :: 0 <= i < |events| ==> events[i].KeyDown? && ToLower(events[i].key) == ToLower(key)
    ensures Run(s, events) == s
    decreases |events|
  {
    if events != [] {
      UnboundRunIsNoOp(s, key, events[1..]);
    }
  }

  /** Releases never play: a run of key-up and pointer-release events
    * leaves the trace as it was. */
  lemma {:induction false} ReleasesNeverPlay(s: State, events: seq<Event>)
    requires forall i :: 0 <= i < |events| ==> !events[i].KeyDown? && !events[i].MouseDown? && !events[i].TouchStart?
    ensures Run(s, events).played == s.played
    decreases |events|
  {
    if events != [] {
      ReleasesNeverPlay(Step(s, events[0]), events[1..]);
    }
  }

  // ---- Scenarios ----

  /** Hold "a", repeat it, release it: C4 is played once and ends up
    * un-marked, and nothing is held. */
  lemma HoldRepeatRelease()
    ensures var r := Run(INITIAL, [KeyDown("a"), KeyDown("a"), KeyUp("a")]);
      r.played == ["C4"] && r.pressed == {} && r.downKeys == {}
  {
    var s1 := Step(INITIAL, KeyDown("a"));
    assert ToLower("a") == "a";
    assert s1 == State({"a"}, {"C4"}, ["C4"]);
    var s2 := Step(s1, KeyDown("a"));
    assert s2 == s1;
    RunAppend(INITIAL, [KeyDown("a"), KeyDown("a")], [KeyUp("a")]);
    RunAppend(INITIAL, [KeyDown("a")], [KeyDown("a")]);
  }

  /** A key-down reporting the Kelvin sign acts as the letter "k": from a
    * state where "k" is not held, it holds "k", marks C5 and plays it. */
  lemma KelvinSignPlaysC5(s: State)
    requires "k" !in s.downKeys
    ensures var r := Step(s, KeyDown([KELVIN_SIGN]));
      r.downKeys == s.downKeys + {"k"} && "C5" in r.pressed && r.played == s.played + ["C5"]
  {
    KelvinSignIsK();
  }

  /** Pressing the unbound key "z" has no effect at all. */
  lemma UnboundKeyHasNoEffect(s: State)
    ensures Step(s, KeyDown("z")) == s
    ensures Step(s, KeyUp("z")) == s
  {
    assert ToLower("z") == "z";
  }

  /** A pointer press on the G#4 key marks it and plays G#4, at 415.30 Hz. */
  lemma PointerPlaysGSharp(s: State)
    ensures var r := Step(s, MouseDown("G#4"));
      "G#4" in r.pressed && r.played == s.played + ["G#4"] && FrequencyOf("G#4") == Some(41530)
  {
  }
}

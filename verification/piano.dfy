/**
 * The page's keyboard and pointer listeners as a class over the three
 * pieces of mutable state: the held key symbols, the pressed marks of the
 * on-screen keys, and the trace of notes sent to the tone synthesizer.
 * Every method changes the fields exactly as the matching step function of
 * module Dispatch says, so the lemmas proved there hold of the object.
 */
module Piano {
  import opened Notes
  import opened Dispatch

  class Dispatcher {
    var downKeys: set<string>
    var pressed: set<string>
    var played: seq<string>

    /** The object's state as a value. */
    ghost function Model(): State
      reads this
    {
      State(downKeys, pressed, played)
    }

    ghost predicate Valid()
      reads this
    {
      Inv(Model()) && PlayedAreNotes(Model())
    }

    /** Page load: nothing held, nothing pressed, nothing played. */
    constructor ()
      ensures Valid() && Model() == INITIAL
    {
      downKeys, pressed, played := {}, {}, [];
    }

    /** Plays a note unless the frequency table does not know it. */
    method PlayNote(note: string)
      requires Valid()
      modifies this`played
      ensures Valid()
      ensures Model() == PlayStep(old(Model()), note)
      ensures note in NOTE_FREQ ==> played == old(played) + [note]
      ensures note !in NOTE_FREQ ==> played == old(played)
    {
      var freq := FrequencyOf(note);
      if freq.None? || freq.value == 0 {
        return;
      }
      played := played + [note];
    }

    /** Marks or un-marks every on-screen key of a note. */
    method SetPressed(note: string, on: bool)
      requires Valid()
      modifies this`pressed
      ensures Valid()
      ensures Model() == SetPressedStep(old(Model()), note, on)
      ensures pressed == if on then old(pressed) + {note} else old(pressed) - {note}
    {
      if on {
        pressed := pressed + {note};
      } else {
        pressed := pressed - {note};
      }
    }

    /** The keydown listener. */
    method KeyDown(rawKey: string)
      requires Valid()
      modifies this
      ensures Valid()
      ensures Model() == KeyDownStep(old(Model()), rawKey)
    {
      var key := ToLower(rawKey);
      if key in downKeys {
        return;
      }
      var note := NoteForKey(key);
      if note.None? || note.value == "" {
        return;
      }
      BoundKeysAreLowerCase();
      downKeys := downKeys + {key};
      SetPressed(note.value, true);
      PlayNote(note.value);
    }

    /** The keyup listener. */
    method KeyUp(rawKey: string)
      requires Valid()
      modifies this
      ensures Valid()
      ensures Model() == KeyUpStep(old(Model()), rawKey)
    {
      var key := ToLower(rawKey);
      var note := NoteForKey(key);
      if note.None? || note.value == "" {
        return;
      }
      downKeys := downKeys - {key};
      SetPressed(note.value, false);
    }

    /** The mousedown and touchstart listeners of an on-screen key. */
    method PointerDown(note: string)
      requires Valid()
      modifies this
      ensures Valid()
      ensures Model() == PointerDownStep(old(Model()), note)
    {
      SetPressed(note, true);
      PlayNote(note);
    }

    /** The mouseup, mouseleave and touchend listeners of an on-screen key. */
    method PointerUp(note: string)
      requires Valid()
      modifies this
      ensures Valid()
      ensures Model() == PointerUpStep(old(Model()), note)
    {
      SetPressed(note, false);
    }

    /** Dispatches one event to its listener. */
    method Handle(e: Event)
      requires Valid()
      modifies this
      ensures Valid()
      ensures Model() == Step(old(Model()), e)
    {
      match e
      case KeyDown(k) => KeyDown(k);
      case KeyUp(k) => KeyUp(k);
      case MouseDown(n) => PointerDown(n);
      case TouchStart(n) => PointerDown(n);
      case MouseUp(n) => PointerUp(n);
      case MouseLeave(n) => PointerUp(n);
      case TouchEnd(n) => PointerUp(n);
    }
  }
}

/** The editing modes and the key table that switches between them. */
module Modes {

  /** `enum Mode`. Animation is not a mode of its own: its key selects translation. */
  datatype Mode = Insertion | Translation | Deletion | Color

  /** The keys of `EditorMode` that select each mode. */
  function KeysOf(m: Mode): set<char> {
    match m
    case Insertion => {'i'}
    case Translation => {'o', 'm'}
    case Deletion => {'p'}
    case Color => {'c'}
  }

  predicate IsModeKey(key: char) {
    key == 'i' || key == 'o' || key == 'p' || key == 'c' || key == 'm'
  }

  /** `setCurrentMode`: the mode after `key` is pressed in mode `current`. A mode
      key selects the one mode it is bound to; any other key keeps the mode. */
  function ModeAfterKey(key: char, current: Mode): (m: Mode)
    ensures IsModeKey(key) ==> key in KeysOf(m)
    ensures !IsModeKey(key) ==> m == current
  {
    if key == 'i' then Insertion
    else if key == 'o' then Translation
    else if key == 'p' then Deletion
    else if key == 'c' then Color
    else if key == 'm' then Translation
    else current
  }

  /** The table is unambiguous: no key is bound to two modes, so the contract of
      `ModeAfterKey` determines its result, and the result does not depend on the
      mode the editor was in. */
  lemma {:induction false} ModeKeyDetermines(key: char, c1: Mode, c2: Mode, m: Mode)
    requires IsModeKey(key) && key in KeysOf(m)
    ensures ModeAfterKey(key, c1) == m == ModeAfterKey(key, c2)
  {
    var m1 := ModeAfterKey(key, c1);
    assert key in KeysOf(m1);
    match m
    case Insertion =>
    case Translation =>
    case Deletion =>
    case Color =>
  }

  /** Pressing the same key twice has the effect of pressing it once. */
  lemma ModeAfterKeyIdempotent(key: char, current: Mode)
    ensures ModeAfterKey(key, ModeAfterKey(key, current)) == ModeAfterKey(key, current)
  {
  }
}

/**
 * The command catalogue: every keyboard shortcut of the target application that
 * can be triggered by voice, with its trigger phrases and its key descriptor,
 * and the lookup by id over a catalogue.
 */
module Catalogue {
  import opened Js

  datatype Modifier = Cmd | Shift | Alt | Ctrl

  /**
   * A shortcut descriptor. `sequential` distinguishes "press these keys one
   * after another" from "press one key with the modifiers held"; an absent
   * `sequential` flag is `false` and an absent modifier list is empty.
   */
  datatype Shortcut = Shortcut(
    id: string,
    name: string,
    description: string,
    voiceTriggers: seq<string>,
    keys: seq<string>,
    sequential: bool,
    modifiers: seq<Modifier>)

  /** The descriptor invariant: keys are non-empty, and a non-sequential shortcut has exactly one key. */
  predicate WellFormed(s: Shortcut) {
    |s.keys| > 0 && (!s.sequential ==> |s.keys| == 1)
  }

  type Entry = s: Shortcut | WellFormed(s) witness Shortcut("", "", "", [], [""], false, [])

  /** A shortcut whose keys are pressed one after another, without modifiers. */
  function Sequential(id: string, name: string, description: string, voiceTriggers: seq<string>, keys: seq<string>): (s: Shortcut)
    requires |keys| > 0
    ensures WellFormed(s) && s.sequential && s.modifiers == [] && s.keys == keys
  {
    Shortcut(id, name, description, voiceTriggers, keys, true, [])
  }

  /** A shortcut made of a single key pressed with the given modifiers held. */
  function Chord(id: string, name: string, description: string, voiceTriggers: seq<string>, key: string, modifiers: seq<Modifier>): (s: Shortcut)
    ensures WellFormed(s) && !s.sequential && s.keys == [key] && s.modifiers == modifiers
  {
    Shortcut(id, name, description, voiceTriggers, [key], false, modifiers)
  }

  /** The position of the first descriptor with the given id (`Array.prototype.find`). */
  function FindIndex(catalogue: seq<Entry>, id: string): (r: Option<nat>)
    ensures r.None? <==> forall k :: 0 <= k < |catalogue| ==> catalogue[k].id != id
    ensures r.Some? ==> r.value < |catalogue| && catalogue[r.value].id == id
    ensures r.Some? ==> forall k :: 0 <= k < r.value ==> catalogue[k].id != id
  {
    if |catalogue| == 0 then None
    else if catalogue[0].id == id then Some(0)
    else
      var rest := FindIndex(catalogue[1..], id);
      if rest.None? then None else Some(rest.value + 1)
  }

  /** The first descriptor with the given id, or none (`catalogue.find(s => s.id === id)`). */
  function Find(catalogue: seq<Entry>, id: string): (r: Option<Entry>)
    ensures r.None? <==> forall k :: 0 <= k < |catalogue| ==> catalogue[k].id != id
    ensures r.Some? ==> r.value.id == id
    ensures r.Some? ==> exists k :: 0 <= k < |catalogue| && catalogue[k] == r.value
                                   && forall j :: 0 <= j < k ==> catalogue[j].id != id
  {
    var k := FindIndex(catalogue, id);
    if k.Some? then Some(catalogue[k.value]) else None
  }
}

/**
 * Executing a shortcut descriptor by synthesising keyboard events: the
 * key-to-code table, the modifier flags (with "cmd" meaning the platform's
 * primary modifier), the keydown/keyup pair sent for each key, and the
 * 50 ms pause between the keys of a sequential shortcut.
 *
 * Dispatching is modelled by the trace of steps it produces: each event
 * together with the element it was sent to, and each pause.
 */
module KeyDispatch {
  import opened Js
  import opened Catalogue

  /** Where an event is dispatched: the focused element, or the document body when nothing has focus. */
  datatype Target = Body | Focused(element: nat)

  datatype EventType = KeyDown | KeyUp

  datatype KeyEvent = KeyEvent(
    eventType: EventType,
    key: string,
    code: string,
    shiftKey: bool,
    metaKey: bool,
    ctrlKey: bool,
    altKey: bool)

  datatype Step = Dispatched(target: Target, event: KeyEvent) | Paused(ms: nat)

  /** Keys that are typed with Shift held, so the synthesised event sets `shiftKey` even without a shift modifier. */
  const AutoShiftKeys: seq<string> := ["?", "+", "!", "@", "#", "$", "%", "^", "&", "*", "(", ")", "_"]

  /** The pause between two keys of a sequential shortcut, in milliseconds. */
  const InterKeyDelayMs: nat := 50

  /** Keys whose code is looked up rather than derived. */
  const SpecialKeys: map<string, string> := map[
    "Enter" := "Enter", "Escape" := "Escape", "Backspace" := "Backspace", "Delete" := "Delete", "Tab" := "Tab",
    "\\" := "Backslash", "/" := "Slash", "[" := "BracketLeft", "]" := "BracketRight",
    "." := "Period", "," := "Comma", "?" := "Slash", "+" := "Equal", "-" := "Minus", "=" := "Equal",
    "0" := "Digit0", "1" := "Digit1", "2" := "Digit2", "3" := "Digit3", "4" := "Digit4",
    "5" := "Digit5", "6" := "Digit6", "7" := "Digit7", "8" := "Digit8", "9" := "Digit9"]

  predicate IsAsciiLetter(c: char) {
    'a' <= c <= 'z' || 'A' <= c <= 'Z'
  }

  function UpperChar(c: char): (d: char)
    requires 'a' <= c <= 'z'
    ensures 'A' <= d <= 'Z' && LowerChar(d) == c
  {
    (c as int - 32) as char
  }

  /** `getKeyCode(key)`: the physical key code reported with a key value. */
  function KeyCode(key: string): (code: string)
    ensures key in SpecialKeys ==> code == SpecialKeys[key]
    ensures key !in SpecialKeys && |key| == 1 && IsAsciiLetter(key[0]) ==>
      |code| == 4 && code[..3] == "Key" && 'A' <= code[3] <= 'Z' && LowerChar(code[3]) == LowerChar(key[0])
    ensures key !in SpecialKeys && !(|key| == 1 && IsAsciiLetter(key[0])) ==> code == key
    ensures key != [] ==> code != []
  {
    if key in SpecialKeys then SpecialKeys[key]
    else if |key| == 1 && 'a' <= key[0] <= 'z' then "Key" + [UpperChar(key[0])]
    else if |key| == 1 && 'A' <= key[0] <= 'Z' then "Key" + key
    else key
  }

  /** A single letter maps to `Key` followed by the upper-case letter, whichever case it was given in. */
  lemma KeyCodeOfLetter(c: char)
    requires IsAsciiLetter(c)
    ensures |KeyCode([c])| == 4 && KeyCode([c])[..3] == "Key"
    ensures 'A' <= KeyCode([c])[3] <= 'Z' && LowerChar(KeyCode([c])[3]) == LowerChar(c)
  {
    assert [c] !in SpecialKeys;
  }

  /** Upper and lower case of a letter share one code. */
  lemma KeyCodeCaseInsensitive(c: char)
    requires 'a' <= c <= 'z'
    ensures KeyCode([c]) == KeyCode([UpperChar(c)])
  {
    assert [c] !in SpecialKeys;
    assert [UpperChar(c)] !in SpecialKeys;
  }

  /** A shifted character reports the code of the key it is typed on. */
  lemma KeyCodeShiftedCharacters()
    ensures KeyCode("?") == KeyCode("/") == "Slash"
    ensures KeyCode("+") == KeyCode("=") == "Equal"
  {
  }

  /** A key that is neither in the table nor a single letter is its own code; no key gets an empty code. */
  lemma KeyCodePassThrough(key: string)
    ensures key !in SpecialKeys && !(|key| == 1 && IsAsciiLetter(key[0])) ==> KeyCode(key) == key
    ensures key != [] ==> KeyCode(key) != []
  {
  }

  datatype Flags = Flags(shiftKey: bool, metaKey: bool, ctrlKey: bool, altKey: bool)

  /** The modifier flags of the events synthesised for `key` with `modifiers` held. */
  function ModifierFlags(key: string, modifiers: seq<Modifier>, isMac: bool): (f: Flags)
    ensures f.metaKey <==> Cmd in modifiers && isMac
    ensures f.ctrlKey <==> Ctrl in modifiers || (Cmd in modifiers && !isMac)
    ensures Cmd in modifiers ==> f.metaKey || f.ctrlKey
    ensures f.altKey <==> Alt in modifiers
    ensures f.shiftKey <==> Shift in modifiers || key in AutoShiftKeys
  {
    Flags(
      Shift in modifiers || key in AutoShiftKeys,
      Cmd in modifiers && isMac,
      Ctrl in modifiers || (Cmd in modifiers && !isMac),
      Alt in modifiers)
  }

  /** "cmd" is Meta on Apple platforms and Control elsewhere: exactly one of the two is set. */
  lemma CmdIsPlatformPrimary(key: string, modifiers: seq<Modifier>, isMac: bool)
    requires Cmd in modifiers && Ctrl !in modifiers
    ensures ModifierFlags(key, modifiers, isMac).metaKey <==> isMac
    ensures ModifierFlags(key, modifiers, isMac).ctrlKey <==> !isMac
  {
  }

  /** Without modifiers only Shift can be set, and it is set exactly for the auto-shift keys. */
  lemma NoModifiersOnlyAutoShift(key: string, isMac: bool)
    ensures var f := ModifierFlags(key, [], isMac);
      !f.metaKey && !f.ctrlKey && !f.altKey && (f.shiftKey <==> key in AutoShiftKeys)
  {
  }

  function Event(eventType: EventType, key: string, f: Flags): KeyEvent {
    KeyEvent(eventType, key, KeyCode(key), f.shiftKey, f.metaKey, f.ctrlKey, f.altKey)
  }

  /** `dispatchKey(key, modifiers)`: a keydown followed by a keyup, identical but for their type, sent to one target. */
  function KeyPress(target: Target, key: string, modifiers: seq<Modifier>, isMac: bool): (steps: seq<Step>)
    ensures |steps| == 2 && steps[0].Dispatched? && steps[1].Dispatched?
    ensures steps[0].target == target && steps[1].target == target
    ensures steps[0].event.eventType == KeyDown && steps[1].event.eventType == KeyUp
    ensures steps[0].event.(eventType := KeyUp) == steps[1].event
    ensures steps[0].event.key == key && steps[0].event.code == KeyCode(key)
    ensures var f := ModifierFlags(key, modifiers, isMac);
      && steps[0].event.shiftKey == f.shiftKey && steps[0].event.metaKey == f.metaKey
      && steps[0].event.ctrlKey == f.ctrlKey && steps[0].event.altKey == f.altKey
  {
    var f := ModifierFlags(key, modifiers, isMac);
    [Dispatched(target, Event(KeyDown, key, f)), Dispatched(target, Event(KeyUp, key, f))]
  }

  /**
   * Where each key of a shortcut is sent: `dispatchKey` reads
   * `document.activeElement || document.body` afresh for every key, so
   * `focus(i)` is the element that has focus when the `i`-th key is pressed
   * (a page handler may move the focus between two keys).
   */
  type Focus = nat -> Target

  /**
   * Step `j` of a sequential shortcut over `keys`: every key takes three
   * positions, its keydown, its keyup and then the pause before the next key.
   */
  function SequentialStep(focus: Focus, keys: seq<string>, isMac: bool, j: nat): Step
    requires j < 3 * |keys| - 1
  {
    if j % 3 == 2 then Paused(InterKeyDelayMs) else KeyPress(focus(j / 3), keys[j / 3], [], isMac)[j % 3]
  }

  /** The steps of a sequential shortcut: one press per key, in order, separated by pauses. */
  function SequentialTrace(focus: Focus, keys: seq<string>, isMac: bool): (t: seq<Step>)
    requires |keys| > 0
    ensures |t| == 3 * |keys| - 1
    ensures forall j :: 0 <= j < |t| ==> t[j] == SequentialStep(focus, keys, isMac, j)
  {
    seq(3 * |keys| - 1, j requires 0 <= j < 3 * |keys| - 1 => SequentialStep(focus, keys, isMac, j))
  }

  /** The three steps that belong to key `i`. */
  lemma StepsOfKey(focus: Focus, keys: seq<string>, isMac: bool, i: nat)
    requires i < |keys|
    ensures var press := KeyPress(focus(i), keys[i], [], isMac);
      && SequentialStep(focus, keys, isMac, 3 * i) == press[0]
      && SequentialStep(focus, keys, isMac, 3 * i + 1) == press[1]
      && (i < |keys| - 1 ==> SequentialStep(focus, keys, isMac, 3 * i + 2) == Paused(InterKeyDelayMs))
  {
    assert (3 * i) / 3 == i && (3 * i) % 3 == 0;
    assert (3 * i + 1) / 3 == i && (3 * i + 1) % 3 == 1;
    assert (3 * i + 2) % 3 == 2;
  }

  /**
   * Key `i` of a sequential shortcut is pressed at positions `3i` and `3i + 1`
   * without modifiers, on the element focused at that moment, followed by a
   * 50 ms pause unless it is the last key.
   */
  lemma SequentialTraceAt(focus: Focus, keys: seq<string>, isMac: bool, i: nat)
    requires i < |keys|
    ensures var t := SequentialTrace(focus, keys, isMac);
      var press := KeyPress(focus(i), keys[i], [], isMac);
      && 3 * i + 1 < |t| && t[3 * i] == press[0] && t[3 * i + 1] == press[1]
      && (i < |keys| - 1 ==> t[3 * i + 2] == Paused(InterKeyDelayMs))
  {
    var t := SequentialTrace(focus, keys, isMac);
    StepsOfKey(focus, keys, isMac, i);
    assert t[3 * i] == SequentialStep(focus, keys, isMac, 3 * i);
    assert t[3 * i + 1] == SequentialStep(focus, keys, isMac, 3 * i + 1);
    if i < |keys| - 1 {
      assert t[3 * i + 2] == SequentialStep(focus, keys, isMac, 3 * i + 2);
    }
  }

  /**
   * No event of a sequential shortcut carries Meta, Control or Alt, and Shift
   * is held exactly for the auto-shift keys.
   */
  lemma SequentialTraceUnmodified(focus: Focus, keys: seq<string>, isMac: bool)
    requires |keys| > 0
    ensures forall s :: s in SequentialTrace(focus, keys, isMac) && s.Dispatched? ==>
      && !s.event.metaKey && !s.event.ctrlKey && !s.event.altKey
      && (s.event.shiftKey <==> s.event.key in AutoShiftKeys)
  {
    var t := SequentialTrace(focus, keys, isMac);
    forall j | 0 <= j < |t| && t[j].Dispatched?
      ensures !t[j].event.metaKey && !t[j].event.ctrlKey && !t[j].event.altKey
      ensures t[j].event.shiftKey <==> t[j].event.key in AutoShiftKeys
    {
      var key := keys[j / 3];
      NoModifiersOnlyAutoShift(key, isMac);
      assert t[j] == KeyPress(focus(j / 3), key, [], isMac)[j % 3];
    }
  }

  /** Appending key `i`'s press, and its pause unless it is the last key, extends a trace of the first `i` keys by one key. */
  lemma NextKeyExtendsTrace(focus: Focus, keys: seq<string>, isMac: bool, i: nat, before: seq<Step>)
    requires i < |keys| && |before| == 3 * i
    requires forall j :: 0 <= j < |before| ==> before[j] == SequentialStep(focus, keys, isMac, j)
    ensures var after := before + KeyPress(focus(i), keys[i], [], isMac) + (if i < |keys| - 1 then [Paused(InterKeyDelayMs)] else []);
      forall j :: 0 <= j < |after| ==> after[j] == SequentialStep(focus, keys, isMac, j)
  {
    var press := KeyPress(focus(i), keys[i], [], isMac);
    var pause: seq<Step> := if i < |keys| - 1 then [Paused(InterKeyDelayMs)] else [];
    var after := before + press + pause;
    StepsOfKey(focus, keys, isMac, i);
    forall j | 0 <= j < |after|
      ensures after[j] == SequentialStep(focus, keys, isMac, j)
    {
      if j < |before| {
        assert after[j] == before[j];
      } else if j == 3 * i {
        assert after[j] == press[0];
      } else if j == 3 * i + 1 {
        assert after[j] == press[1];
      } else {
        assert after[j] == pause[0];
      }
    }
  }

  /**
   * `executeShortcut(shortcut)`: the keys of a sequential shortcut are pressed
   * one after another without modifiers, 50 ms apart; any other shortcut
   * presses its first key with its modifiers held. Key `i` goes to `focus(i)`.
   */
  method ExecuteShortcut(shortcut: Entry, focus: Focus, isMac: bool) returns (trace: seq<Step>)
    ensures shortcut.sequential ==> trace == SequentialTrace(focus, shortcut.keys, isMac)
    ensures !shortcut.sequential ==> trace == KeyPress(focus(0), shortcut.keys[0], shortcut.modifiers, isMac)
  {
    if shortcut.sequential {
      var keys := shortcut.keys;
      trace := [];
      var i := 0;
      while i < |keys|
        invariant 0 <= i <= |keys|
        invariant |trace| == if i < |keys| then 3 * i else 3 * i - 1
        invariant forall j :: 0 <= j < |trace| ==> trace[j] == SequentialStep(focus, keys, isMac, j)
      {
        var press := KeyPress(focus(i), keys[i], [], isMac);
        var pause: seq<Step> := if i < |keys| - 1 then [Paused(InterKeyDelayMs)] else [];
        NextKeyExtendsTrace(focus, keys, isMac, i, trace);
        trace := trace + press + pause;
        i := i + 1;
      }
      assert forall j :: 0 <= j < |trace| ==> trace[j] == SequentialTrace(focus, keys, isMac)[j];
    } else {
      trace := KeyPress(focus(0), shortcut.keys[0], shortcut.modifiers, isMac);
    }
  }

  /** On a Mac "cmd+k" is sent as Meta+K; elsewhere as Control+K. */
  lemma CommandKExample()
    ensures KeyPress(Body, "k", [Cmd], true)[0].event == KeyEvent(KeyDown, "k", "KeyK", false, true, false, false)
    ensures KeyPress(Body, "k", [Cmd], false)[0].event == KeyEvent(KeyDown, "k", "KeyK", false, false, true, false)
  {
    assert "k" !in SpecialKeys;
  }

  /** "?" is sent with Shift held and the code of the slash key. */
  lemma QuestionMarkExample(isMac: bool)
    ensures KeyPress(Body, "?", [], isMac)[0].event == KeyEvent(KeyDown, "?", "Slash", true, false, false, false)
  {
  }
}

/**
 * The virtual keyboard: the layout table, the input value edited by key
 * presses, and the current layout mode.
 *
 * Strings are sequences of characters; the input element's `value` is a field.
 */
module Keyboard {

  /** Rows of key labels. */
  type Layout = seq<seq<string>>

  /**
   * The layout table `keys`, by mode name: three layouts, 'default' and
   * 'shift' with rows of 10, 10, 9 and 8 keys, 'special' with rows of 10, 9
   * and 9, each layout's last key being Backspace.
   */
  function Layouts(): (m: map<string, Layout>)
    ensures m.Keys == {"default", "shift", "special"}
    ensures |m["default"]| == 4 && |m["shift"]| == 4 && |m["special"]| == 3
    ensures forall mode :: mode in m && mode != "special" ==>
              |m[mode][0]| == 10 && |m[mode][1]| == 10 && |m[mode][2]| == 9 && |m[mode][3]| == 8
    ensures |m["special"][0]| == 10 && |m["special"][1]| == 9 && |m["special"][2]| == 9
    ensures forall mode :: mode in m ==> m[mode][|m[mode]| - 1][|m[mode][|m[mode]| - 1]| - 1] == "Backspace"
  {
    map[
    "default" := [
      ["1", "2", "3", "4", "5", "6", "7", "8", "9", "0"],
      ["q", "w", "e", "r", "t", "y", "u", "i", "o", "p"],
      ["a", "s", "d", "f", "g", "h", "j", "k", "l"],
      ["z", "x", "c", "v", "b", "n", "m", "Backspace"]
    ],
    "shift" := [
      ["!", "@", "#", "$", "%", "^", "&", "*", "(", ")"],
      ["Q", "W", "E", "R", "T", "Y", "U", "I", "O", "P"],
      ["A", "S", "D", "F", "G", "H", "J", "K", "L"],
      ["Z", "X", "C", "V", "B", "N", "M", "Backspace"]
    ],
    "special" := [
      ["[", "]", "{", "}", "#", "%", "^", "*", "+", "="],
      ["_", "\\", "|", "~", "<", ">", "\U{20AC}", "\U{00A3}", "\U{00A5}"],
      [".", ",", "?", "!", "'", "\"", ":", ";", "Backspace"]
    ]
    ]
  }

  /** Every key label in the table is one character, except the Backspace key. */
  lemma LayoutKeysAreCharactersOrBackspace(mode: string, row: nat, col: nat)
    requires mode in Layouts() && row < |Layouts()[mode]| && col < |Layouts()[mode][row]|
    ensures |Layouts()[mode][row][col]| == 1 || Layouts()[mode][row][col] == "Backspace"
  {
  }

  /** The value of the linked input element and the current layout mode. */
  datatype KeyboardState = KeyboardState(value: string, currentMode: string)

  predicate IsShiftKey(key: string) { key == "Shift" || key == "CapsLock" }

  /** toggleShift: 'default' goes to 'shift'; every other mode goes to 'default'. */
  function ToggledMode(mode: string): (r: string)
    ensures r == "shift" <==> mode == "default"
    ensures r == "default" <==> mode != "default"
    ensures r in Layouts()
  {
    if mode == "default" then "shift" else "default"
  }

  /** Toggling twice from 'default' or 'shift' returns to the start; from any other mode it ends at 'shift'. */
  lemma ToggleShiftTwice(mode: string)
    ensures mode == "default" || mode == "shift" ==> ToggledMode(ToggledMode(mode)) == mode
    ensures mode != "default" && mode != "shift" ==> ToggledMode(ToggledMode(mode)) == "shift"
  {
  }

  /** `value.slice(0, -1)`: everything but the last character; empty stays empty. */
  function DropLast(value: string): (r: string)
    ensures value == [] ==> r == []
    ensures value != [] ==> r + [value[|value| - 1]] == value
  {
    value[..if |value| > 0 then |value| - 1 else 0]
  }

  /**
   * handleKeyPress: Backspace deletes the last character, Shift and CapsLock
   * toggle the mode, and any other key is appended verbatim.
   */
  function AfterKeyPress(s: KeyboardState, key: string): (r: KeyboardState)
    ensures key == "Backspace" ==> r == KeyboardState(DropLast(s.value), s.currentMode)
    ensures IsShiftKey(key) ==> r == KeyboardState(s.value, ToggledMode(s.currentMode))
    ensures key != "Backspace" && !IsShiftKey(key) ==> r == KeyboardState(s.value + key, s.currentMode)
    ensures !IsShiftKey(key) ==> r.currentMode == s.currentMode
  {
    if key == "Backspace" then
      s.(value := DropLast(s.value))
    else if IsShiftKey(key) then
      s.(currentMode := ToggledMode(s.currentMode))
    else
      s.(value := s.value + key)
  }

  /** Backspace undoes typing one character. */
  lemma BackspaceUndoesCharacter(s: KeyboardState, c: char)
    ensures AfterKeyPress(AfterKeyPress(s, [c]), "Backspace") == s
  {
    var typed := AfterKeyPress(s, [c]);
    assert typed.value[..|typed.value| - 1] == s.value;
  }

  /** Pressing any key shown on a layout never changes the mode. */
  lemma LayoutKeysKeepMode(s: KeyboardState, mode: string, row: nat, col: nat)
    requires mode in Layouts() && row < |Layouts()[mode]| && col < |Layouts()[mode][row]|
    ensures AfterKeyPress(s, Layouts()[mode][row][col]).currentMode == s.currentMode
  {
    LayoutKeysAreCharactersOrBackspace(mode, row, col);
  }

  /**
   * handlePhysicalKeyPress: Shift and CapsLock toggle the mode; Enter and Tab
   * do nothing; every other key goes to handleKeyPress.
   */
  function AfterPhysicalKeyPress(s: KeyboardState, key: string): (r: KeyboardState)
    ensures IsShiftKey(key) ==> r.value == s.value && r.currentMode == ToggledMode(s.currentMode)
    ensures key == "Enter" || key == "Tab" ==> r == s
    ensures !IsShiftKey(key) ==> r.currentMode == s.currentMode
    ensures key != "Enter" && key != "Tab" ==> r == AfterKeyPress(s, key)
  {
    if IsShiftKey(key) then
      s.(currentMode := ToggledMode(s.currentMode))
    else if key == "Enter" || key == "Tab" then
      s
    else
      AfterKeyPress(s, key)
  }

  /**
   * Names whose lookup on a plain object literal yields a truthy value
   * inherited from `Object.prototype`, although no layout has that name.
   */
  const InheritedProperties: set<string> := {
    "constructor", "hasOwnProperty", "isPrototypeOf", "propertyIsEnumerable",
    "toLocaleString", "toString", "valueOf", "__proto__",
    "__defineGetter__", "__defineSetter__", "__lookupGetter__", "__lookupSetter__"
  }

  /** Whether `keys[name]` is truthy in the source: an own layout or an inherited member. */
  predicate KeysLookupIsTruthy(name: string) {
    name in Layouts() || name in InheritedProperties
  }

  /** switchMode as written: any name whose lookup is truthy becomes the mode. */
  function SwitchedModeAsWritten(mode: string, name: string): (r: string)
    ensures KeysLookupIsTruthy(name) ==> r == name
    ensures !KeysLookupIsTruthy(name) ==> r == mode
  {
    if KeysLookupIsTruthy(name) then name else mode
  }

  /** As written, switchMode("toString") sets a mode that has no layout. */
  lemma SwitchedModeAsWrittenLeavesLayouts()
    ensures SwitchedModeAsWritten("default", "toString") == "toString"
    ensures "toString" !in Layouts()
  {
    assert "toString" in InheritedProperties;
  }

  /** switchMode as intended: only a name that has a layout becomes the mode. */
  function SwitchedMode(mode: string, name: string): (r: string)
    ensures name in Layouts() ==> r == name
    ensures name !in Layouts() ==> r == mode
    ensures mode in Layouts() ==> r in Layouts()
  {
    if name in Layouts() then name else mode
  }

  /** One input the keyboard receives. */
  datatype KeyboardEvent =
    | VirtualPress(key: string)   // a click or touch on a rendered key
    | PhysicalPress(key: string)  // a keydown on the document
    | Switch(name: string)        // a call to switchMode

  function Step(s: KeyboardState, e: KeyboardEvent): KeyboardState {
    match e
    case VirtualPress(key) => AfterKeyPress(s, key)
    case PhysicalPress(key) => AfterPhysicalKeyPress(s, key)
    case Switch(name) => s.(currentMode := SwitchedMode(s.currentMode, name))
  }

  function Replay(s: KeyboardState, events: seq<KeyboardEvent>): KeyboardState
    decreases |events|
  {
    if events == [] then s else Replay(Step(s, events[0]), events[1..])
  }

  /** The current mode is always a key of the layout table. */
  lemma {:induction false} ModeStaysInLayouts(s: KeyboardState, events: seq<KeyboardEvent>)
    requires s.currentMode in Layouts()
    ensures Replay(s, events).currentMode in Layouts()
    decreases |events|
  {
    if events != [] {
      ModeStaysInLayouts(Step(s, events[0]), events[1..]);
    }
  }

  /** The keys of a sequence of presses, joined. */
  function Typed(events: seq<KeyboardEvent>): string
    requires forall i :: 0 <= i < |events| ==> events[i].VirtualPress?
    decreases |events|
  {
    if events == [] then "" else events[0].key + Typed(events[1..])
  }

  /** Pressing keys other than Backspace, Shift and CapsLock appends them in order and keeps the mode. */
  lemma {:induction false} TypingAppends(s: KeyboardState, events: seq<KeyboardEvent>)
    requires forall i :: 0 <= i < |events| ==> events[i].VirtualPress?
    requires forall i :: 0 <= i < |events| ==> events[i].key != "Backspace" && !IsShiftKey(events[i].key)
    ensures Replay(s, events) == KeyboardState(s.value + Typed(events), s.currentMode)
    decreases |events|
  {
    if events != [] {
      var next := Step(s, events[0]);
      TypingAppends(next, events[1..]);
      assert s.value + events[0].key + Typed(events[1..]) == s.value + Typed(events);
    }
  }

  /** `VirtualKeyboard`: the handlers reassign the mode and the input's value. */
  class VirtualKeyboard {
    var value: string
    var currentMode: string

    ghost predicate Valid()
      reads this
    {
      currentMode in Layouts()
    }

    function State(): KeyboardState
      reads this
    {
      KeyboardState(value, currentMode)
    }

    /** The input starts with the given value; the mode starts at 'default'. */
    constructor (initialValue: string)
      ensures Valid() && State() == KeyboardState(initialValue, "default")
    {
      value := initialValue;
      currentMode := "default";
    }

    method ToggleShift()
      requires Valid()
      modifies this
      ensures Valid() && value == old(value) && currentMode == ToggledMode(old(currentMode))
    {
      currentMode := if currentMode == "default" then "shift" else "default";
    }

    method HandleKeyPress(key: string)
      requires Valid()
      modifies this
      ensures Valid() && State() == AfterKeyPress(old(State()), key)
    {
      if key == "Backspace" {
        value := value[..if |value| > 0 then |value| - 1 else 0];
      } else if key == "Shift" || key == "CapsLock" {
        ToggleShift();
      } else {
        value := value + key;
      }
    }

    method HandlePhysicalKeyPress(key: string)
      requires Valid()
      modifies this
      ensures Valid() && State() == AfterPhysicalKeyPress(old(State()), key)
    {
      if key == "Shift" || key == "CapsLock" {
        ToggleShift();
      } else if key == "Enter" || key == "Tab" {
      } else {
        HandleKeyPress(key);
      }
    }

    /** switchMode, with the layout test as intended (see SwitchedModeAsWritten). */
    method SwitchMode(mode: string)
      requires Valid()
      modifies this
      ensures Valid() && value == old(value) && currentMode == SwitchedMode(old(currentMode), mode)
    {
      if mode in Layouts() {
        currentMode := mode;
      }
    }
  }
}

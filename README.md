# move.gl interaction handlers in Dafny

A model of the stateful logic inside five of the repository's UI classes, with
its properties proved:

- **Gesture** (`dist/ts/Gesture.ts`): `TouchGestureHandler`, a flag-based
  classifier that sorts touch start/move/end events into tap, swipe and pinch.
  It keeps `startTouches`, `isSwiping` and `isPinching`, and the swipe test is
  strictly more than 10 on some axis. Also `AdvancedGestureRecognition`, a
  table from pointer id to the event that started it. Touches are integer
  coordinate pairs. Console output is returned as a `TouchLog` tag, or as the
  displacement a pointer move reports.
- **Draggable** (`src/ts/Draggable.ts`): the clamp that keeps a dragged element
  inside its parent's rectangle, and the `isDragging` flag that gates dragging.
- **Canvas** (`dist/ts/InteractiveCanvas.ts`): the undo/redo history, which is
  an array of snapshots plus the cursor `historyStep`, and the `painting` flag.
  Snapshots (`ImageData`) are an opaque type parameter `S`. The image the
  canvas currently shows is the field `canvas`.
- **Keyboard** (`src/ts/Keyboard.ts`): the layout table, the input value edited
  by Backspace or by appending, and the layout mode changed by Shift/CapsLock
  and `switchMode`.
- **SpatialNavigation** (`dist/ts/SpatialNavigation.ts`): the keydown handler
  that moves an integer position and rotation.

Each class is a Dafny `class` with the source's fields, and its methods update
those fields in place. For `TouchGestureHandler`, `InteractiveCanvas`,
`VirtualKeyboard` and `SpatialNavigationHandler`, each method's postcondition
ties the new state to a pure step function of the old state (`AfterUndo`,
`TouchMove`, ...), and the properties are proved about those functions. The
lemmas about whole event sequences use a `Replay` function that applies the
step functions in order. The methods of `Draggable` and
`AdvancedGestureRecognition` state their effect on the fields directly; the
drag position they write is given by the function `Constrain`.

Two behaviours of the code as written are worth knowing:

- On the canvas, `startPaint` saves the image before the stroke, and nothing
  saves the image after it. So redo does nothing right after a save, and it
  also does nothing after one undo that follows a save
  (`Canvas.RedoAfterSaveDoesNothing`). The newest stroke cannot be redone once
  it has been undone. The model keeps this behaviour.
- In `TouchGestureHandler`, a move with two or more touches while
  `isPinching` is set reads `startTouches[0]` and `startTouches[1]`. If
  `startTouches` is null or holds one touch, that read throws. This happens
  when a swipe and a pinch overlap, because the end then clears only
  `isSwiping`. For example, one finger swipes, two more land, the first lifts,
  and the other two move (`Gesture.PinchSurvivesSwipeEnd`). The model returns
  `MoveFault` and changes no field.

## Model

| member | source | states |
|---|---|---|
| `Gesture.TouchStart` | dist/ts/Gesture.ts:30-39 | one touch records the start touches and leaves `isPinching` as it was; two or more record them and set `isPinching`; no touches changes nothing; `isSwiping` is never changed |
| `Gesture.TouchMove` | dist/ts/Gesture.ts:41-55 | a move never changes the start touches or `isPinching` and never clears `isSwiping`; it sets `isSwiping` exactly when there is one touch, recorded start touches, no pinch and a displacement beyond 10 on some axis, and then logs that displacement of the first touch from the first start touch; it logs the pinch scale exactly for a multi-touch move during a pinch with two recorded start touches; it throws exactly when it reads a start touch that is missing (null or too few start touches); otherwise it logs nothing; a multi-touch move changes no state |
| `Gesture.TouchEnd` | dist/ts/Gesture.ts:57-68 | the end is classified swipe over pinch over tap; afterwards the start touches are null and no swipe is on; `isPinching` survives exactly when both flags were set |
| `Gesture.NoSwipeWithoutStart` | dist/ts/Gesture.ts:41-68 | with no start touches and no swipe, any sequence of moves and ends keeps it that way |
| `Gesture.NoSwipeAfterEnd` | dist/ts/Gesture.ts:42-67 | after an end, no sequence of moves and ends sets `isSwiping` until a new start records touches |
| `Gesture.MovesKeepFlags` | dist/ts/Gesture.ts:41-55 | any sequence of moves keeps the start touches and `isPinching` and never clears `isSwiping` |
| `Gesture.ThresholdIsStrict` | dist/ts/Gesture.ts:45 | a move of at most 10 on both axes after a one-touch start does not swipe |
| `Gesture.PinchSurvivesSwipeEnd` | dist/ts/Gesture.ts:30-68 | start, swipe, multi-touch start, end: `isPinching` is still set while the start touches are null, and the next multi-touch move throws |
| `Gesture.TouchGestureHandler.constructor` | dist/ts/Gesture.ts:15-17 | null start touches, both flags false |
| `Gesture.TouchGestureHandler.HandleTouchStart` | dist/ts/Gesture.ts:30-39 | the fields and the log become `TouchStart` of the old fields |
| `Gesture.TouchGestureHandler.HandleTouchMove` | dist/ts/Gesture.ts:41-55 | the fields and the log become `TouchMove` of the old fields |
| `Gesture.TouchGestureHandler.HandleTouchEnd` | dist/ts/Gesture.ts:57-68 | the fields and the log become `TouchEnd` of the old fields |
| `Gesture.AdvancedGestureRecognition.constructor` | dist/ts/Gesture.ts:98 | the pointer table starts empty |
| `Gesture.AdvancedGestureRecognition.HandleGestureStart` | dist/ts/Gesture.ts:111-114 | pointerdown maps the id to its event, overwriting an existing entry, and keeps every other entry |
| `Gesture.AdvancedGestureRecognition.HandleGestureMove` | dist/ts/Gesture.ts:116-123 | for a tracked id it reports the displacement from that id's start event; an untracked id reports nothing; the table is unchanged |
| `Gesture.AdvancedGestureRecognition.HandleGestureEnd` | dist/ts/Gesture.ts:125-128 | pointerup removes exactly that id and keeps every other entry; removing an absent id changes nothing |
| `Draggable.Clamp` | src/ts/Draggable.ts:57-58 | the result is at least the lower bound; it is at most the upper bound when the interval is non-empty; a value inside is returned unchanged, a value below goes to the lower bound and a value above a non-empty interval to the upper bound; an empty interval yields the lower bound |
| `Draggable.ClampIdempotent` | src/ts/Draggable.ts:57-58 | clamping a clamped value gives the same value |
| `Draggable.Constrain` | src/ts/Draggable.ts:53-58 | x is at least `left`, and at most `right - width` when that is not below `left`; the same holds for y with `top`, `bottom` and the height; an in-bounds coordinate is kept; x left of `left` becomes `left` and x beyond `right - width` becomes `right - width`, and likewise for y; an element wider or taller than the bounds lands on `left`/`top` |
| `Draggable.ConstrainIdempotent` | src/ts/Draggable.ts:57-58 | constraining a constrained position gives the same position |
| `Draggable.Draggable.constructor` | src/ts/Draggable.ts:15-22 | not dragging, and the bounds are the parent's rectangle |
| `Draggable.Draggable.StartDrag` | src/ts/Draggable.ts:37-45 | dragging is on, and the pointer position minus the recorded start equals the element's offsets |
| `Draggable.Draggable.Drag` | src/ts/Draggable.ts:47-62 | while not dragging nothing is written; otherwise it writes the pointer position minus the recorded start, constrained to the bounds |
| `Draggable.Draggable.StopDrag` | src/ts/Draggable.ts:64-68 | dragging is off afterwards, whatever it was |
| `Draggable.DragInPlace` | src/ts/Draggable.ts:41-54 | a press followed by a drag at the same pointer position writes the element's original offsets, constrained |
| `Canvas.Initial` | dist/ts/InteractiveCanvas.ts:18-23 | empty history, cursor 0, not painting, and the cursor invariant holds |
| `Canvas.AfterSave` | dist/ts/InteractiveCanvas.ts:164-168 | keeps the first `historyStep` entries, drops the rest, appends the current snapshot, and leaves the cursor at the new length; keeps the cursor invariant |
| `Canvas.AfterUndo` | dist/ts/InteractiveCanvas.ts:144-149 | at cursor 0 nothing changes; otherwise the cursor drops by one and the canvas shows the entry under it; the history is unchanged |
| `Canvas.AfterRedo` | dist/ts/InteractiveCanvas.ts:154-159 | with the cursor at or past the last entry nothing changes; otherwise the cursor rises by one and the canvas shows the entry under it; the history is unchanged |
| `Canvas.AfterStartPaint` | dist/ts/InteractiveCanvas.ts:72-79 | painting is on and exactly one snapshot, the canvas before the stroke, is saved |
| `Canvas.AfterPaint` | dist/ts/InteractiveCanvas.ts:92-97 | the stroke reaches the canvas only while painting; the history and cursor never change |
| `Canvas.AfterEndPaint` | dist/ts/InteractiveCanvas.ts:84-86 | painting is off; canvas, history and cursor are unchanged |
| `Canvas.AfterClear` | dist/ts/InteractiveCanvas.ts:173-176 | the canvas is blank, and the blank image is what gets saved |
| `Canvas.AfterResize` | dist/ts/InteractiveCanvas.ts:63-66 | the canvas is blank; the history, the cursor and the painting flag are unchanged, so nothing is saved |
| `Canvas.UndoAfterResizeShowsSaved` | dist/ts/InteractiveCanvas.ts:63-66 | after a save, a resize followed by one undo shows the saved image again, with the cursor back where it was before the save |
| `Canvas.ResizeAtStartIsFinal` | dist/ts/InteractiveCanvas.ts:63-66 | with the cursor at 0, undo after a resize still shows the blank image: the image the resize blanked is lost |
| `Canvas.Replay` | dist/ts/InteractiveCanvas.ts:144-168 | the cursor stays between 0 and the history length after any sequence of operations, and each operation adds at most one snapshot |
| `Canvas.UndoRedoKeepHistory` | dist/ts/InteractiveCanvas.ts:144-159 | any sequence of undos and redos leaves the history's contents and length unchanged |
| `Canvas.RedoReversesUndo` | dist/ts/InteractiveCanvas.ts:144-159 | when the canvas shows the entry under the cursor, redo after undo restores the state |
| `Canvas.UndoReversesRedo` | dist/ts/InteractiveCanvas.ts:144-159 | when the canvas shows the entry under the cursor, undo after redo restores the state |
| `Canvas.RedoAfterSaveDoesNothing` | dist/ts/InteractiveCanvas.ts:155-167 | redo right after a save, and redo after one undo that follows a save, change nothing |
| `Canvas.InteractiveCanvas.constructor` | dist/ts/InteractiveCanvas.ts:18-23 | the fields start as `Initial` |
| `Canvas.InteractiveCanvas.SaveState` | dist/ts/InteractiveCanvas.ts:164-168 | splices and pushes in place; the new state is `AfterSave` of the old one |
| `Canvas.InteractiveCanvas.Undo` | dist/ts/InteractiveCanvas.ts:144-149 | the new state is `AfterUndo` of the old one |
| `Canvas.InteractiveCanvas.Redo` | dist/ts/InteractiveCanvas.ts:154-159 | the new state is `AfterRedo` of the old one |
| `Canvas.InteractiveCanvas.StartPaint` | dist/ts/InteractiveCanvas.ts:72-79 | the new state is `AfterStartPaint` of the old one |
| `Canvas.InteractiveCanvas.Paint` | dist/ts/InteractiveCanvas.ts:92-97 | the new state is `AfterPaint` of the old one |
| `Canvas.InteractiveCanvas.EndPaint` | dist/ts/InteractiveCanvas.ts:84-86 | the new state is `AfterEndPaint` of the old one |
| `Canvas.InteractiveCanvas.ResizeCanvas` | dist/ts/InteractiveCanvas.ts:63-66 | the new state is `AfterResize` of the old one |
| `Canvas.InteractiveCanvas.ClearCanvas` | dist/ts/InteractiveCanvas.ts:173-176 | the new state is `AfterClear` of the old one |
| `Keyboard.Layouts` | src/ts/Keyboard.ts:13-31 | the layout table has exactly the modes 'default', 'shift' and 'special'; 'default' and 'shift' have rows of 10, 10, 9 and 8 keys and 'special' rows of 10, 9 and 9; each layout ends with Backspace |
| `Keyboard.LayoutKeysAreCharactersOrBackspace` | src/ts/Keyboard.ts:13-31 | every key label in the layout table is a single character or Backspace |
| `Keyboard.ToggledMode` | src/ts/Keyboard.ts:99-102 | 'default' goes to 'shift' and every other mode goes to 'default'; the result always has a layout |
| `Keyboard.ToggleShiftTwice` | src/ts/Keyboard.ts:100 | toggling twice from 'default' or 'shift' returns to the start; from any other mode it ends at 'shift' |
| `Keyboard.DropLast` | src/ts/Keyboard.ts:87 | removes the last character; the empty value stays empty |
| `Keyboard.AfterKeyPress` | src/ts/Keyboard.ts:85-93 | Backspace drops the last character; Shift/CapsLock toggle the mode; every other key, including multi-character names, is appended verbatim; only Shift/CapsLock change the mode |
| `Keyboard.BackspaceUndoesCharacter` | src/ts/Keyboard.ts:85-93 | typing one character and then Backspace restores the state |
| `Keyboard.LayoutKeysKeepMode` | src/ts/Keyboard.ts:64-93 | pressing any key shown on a layout never changes the mode |
| `Keyboard.AfterPhysicalKeyPress` | src/ts/Keyboard.ts:121-131 | Shift/CapsLock toggle the mode and keep the value; Enter/Tab change nothing; every other key is `handleKeyPress`; only Shift/CapsLock change the mode |
| `Keyboard.SwitchedModeAsWritten` | src/ts/Keyboard.ts:150-155 | as written, any name whose lookup in `keys` is truthy becomes the mode, including names inherited from `Object.prototype`; other names leave the mode unchanged |
| `Keyboard.SwitchedModeAsWrittenLeavesLayouts` | src/ts/Keyboard.ts:151-152 | as written, `switchMode("toString")` sets a mode that has no layout |
| `Keyboard.SwitchedMode` | src/ts/Keyboard.ts:150-155 | only a name present in the layout table becomes the mode; unknown names leave it unchanged; a mode with a layout stays one with a layout |
| `Keyboard.ModeStaysInLayouts` | src/ts/Keyboard.ts:99-155 | after any sequence of virtual presses, physical presses and mode switches, the current mode is a key of the layout table |
| `Keyboard.TypingAppends` | src/ts/Keyboard.ts:85-93 | presses of keys other than Backspace, Shift and CapsLock append their labels in order and keep the mode |
| `Keyboard.VirtualKeyboard.constructor` | src/ts/Keyboard.ts:32 | the mode starts at 'default' |
| `Keyboard.VirtualKeyboard.ToggleShift` | src/ts/Keyboard.ts:99-102 | the mode becomes `ToggledMode` of the old mode; the value is unchanged |
| `Keyboard.VirtualKeyboard.HandleKeyPress` | src/ts/Keyboard.ts:85-93 | the new state is `AfterKeyPress` of the old one |
| `Keyboard.VirtualKeyboard.HandlePhysicalKeyPress` | src/ts/Keyboard.ts:121-131 | the new state is `AfterPhysicalKeyPress` of the old one |
| `Keyboard.VirtualKeyboard.SwitchMode` | src/ts/Keyboard.ts:150-155 | the mode becomes `SwitchedMode` of the old mode, so it stays in the layout table; the value is unchanged |
| `SpatialNavigation.HandleKey` | dist/ts/SpatialNavigation.ts:14-37 | ArrowUp/ArrowDown move y by +1/-1, ArrowLeft/ArrowRight turn yaw by -5/+5, 'w'/'s' move z by +1/-1, and each changes nothing else; any other key, 'W' included, changes nothing; x, pitch and roll never change |
| `SpatialNavigation.OppositeKeysCancel` | dist/ts/SpatialNavigation.ts:16-33 | Up then Down, Left then Right and w then s (and the reverse orders) restore the pose |
| `SpatialNavigation.NetMotion` | dist/ts/SpatialNavigation.ts:14-37 | after any key sequence, y, z and yaw are moved by the key counts alone, and x, pitch and roll are unchanged |
| `SpatialNavigation.UntouchedAxesStayZero` | dist/ts/SpatialNavigation.ts:7-37 | from the initial all-zero pose, x, pitch and roll stay 0 under any key sequence |
| `SpatialNavigation.SpatialNavigationHandler.constructor` | dist/ts/SpatialNavigation.ts:7-8 | position and rotation start at all zeros |
| `SpatialNavigation.SpatialNavigationHandler.HandleKeyInput` | dist/ts/SpatialNavigation.ts:14-37 | updates the fields to `HandleKey` of the old pose and returns the new pose, which is what the handler logs |

## Left out

- Gesture.TouchMove: the pinch branch's log carries no scale. The scale is `Math.sqrt` and a floating-point division, and it divides by zero when the start touches coincide; `getDistance` (dist/ts/Gesture.ts:76-80) is not modelled.
- Console output is returned as tags. The exact text is not modelled, and neither is the `pointerType` that pointerdown logs.
- Touch, pointer and mouse coordinates are integers. The source uses JavaScript numbers, which can be fractional and which round beyond 2^53.
- Event-listener wiring and the module-level instances (dist/ts/Gesture.ts:83, src/ts/Draggable.ts:71, src/ts/Keyboard.ts:159-162) are DOM glue.
- `AdvancedInteractionControls` (dist/ts/Gesture.ts:139-164) is empty stubs that only log.
- Draggable: the choice between a mouse event and `touches[0]` happens before the model; the pointer position, the element's offsets and its size are parameters.
- Draggable.Draggable.StartDrag: on a touch start, `event` has been reassigned to a `Touch`, which has no `preventDefault`, so the call at src/ts/Draggable.ts:44 throws after the fields were written at lines 41-43. The model keeps the field writes and does not model the throw; on a mouse press `preventDefault` only suppresses the browser's default action.
- Draggable: the parent's rectangle is a `DOMRect`, whose edges can be fractional; the model takes them as integers, like the pointer coordinates. The `style.left`/`style.top` write is returned, not stored. `startX`/`startY` are undefined in the source until the first press; the model starts them at 0, and they are only read while dragging.
- Canvas: `getEventPosition`, the drawing calls (`moveTo`, `beginPath`, `lineTo`, `stroke`, `clearRect`) and the internals of `getImageData`/`putImageData` are opaque. A stroke is given as the snapshot it produces. `setupCanvas` (dist/ts/InteractiveCanvas.ts:39-46) and the brush setters (dist/ts/InteractiveCanvas.ts:118-139) set the drawing context's line width, cap, colour and opacity, which are not modelled. `resizeCanvas` (dist/ts/InteractiveCanvas.ts:63-66) is modelled only for its effect on the image: it blanks the bitmap outside the history (`Canvas.AfterResize`). Assigning the canvas size also resets the drawing context's settings, so the settings made at lines 40-43 are lost by the resize at line 45 and after every window resize; the context settings are not modelled.
- Keyboard: `renderKeyboard` (src/ts/Keyboard.ts:61-78) builds DOM elements. `handleTouchStart` (src/ts/Keyboard.ts:137-143) inspects the DOM target and forwards its text to `handleKeyPress`, which is modelled. The value is a sequence of characters. JavaScript's `slice(0, -1)` removes one UTF-16 code unit, so for characters outside the Basic Multilingual Plane it leaves half a surrogate pair; this is not modelled.
- Keyboard.VirtualKeyboard.SwitchMode: it uses the corrected layout test (see Findings). As written, a name inherited from `Object.prototype` becomes the mode, and the render that follows then throws; that path is modelled by `Keyboard.SwitchedModeAsWritten`.
- src/ts/Screensaver.ts, src/ts/VideoOverlay.ts, src/ts/VRExperience.ts, src/ts/InteractiveVideo.ts, dist/ts/ARInteraction.ts, dist/ts/ARContent.ts, dist/ts/ImmersiveAudio.ts, dist/ts/ContentStreaming.ts, dist/ts/RealTimeCollaboration.ts, dist/ts/AdaptiveUI.ts, dist/ts/UserProfile.ts and dist/ts/DynamicEnvironment.ts are not part of this model. They consist of timers, media, WebXR, network I/O, DOM creation or placeholder stubs.

## Findings

| source | as written | input that shows it | evidently intended | confidence | as-written member | corrected member |
|---|---|---|---|---|---|---|
| src/ts/Keyboard.ts:151-152 | `switchMode` accepts any name for which `this.keys[mode]` is truthy, and that includes every member a plain object inherits from `Object.prototype` | `switchMode("toString")` sets `currentMode` to "toString", which has no layout; the render that follows then throws | only the layout names 'default', 'shift' and 'special' are accepted, so the mode always has a layout | not executed; high | `Keyboard.SwitchedModeAsWritten` | `Keyboard.SwitchedMode` |

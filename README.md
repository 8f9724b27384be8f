# FreeGameTools in Dafny: the scene editor and the animation previewer

This project is a Dafny model of the two desktop tools in FreeGameTools. It
leaves out pygame's display, event queue and image decoding. Both tools follow
one pattern, repeated on every tick: poll input, mutate the state, redraw.

- **SceneCreator, the scene editor.** A `Scene` holds a z-ordered list of
  placed sprites, `[spriteName, [x, y]]`. Index 0 is the back-most. The list
  lives inside the parsed scene document, together with `resolution`, `scale`
  and `background`. Those four fields are read through an attribute hook, and a
  missing field reads as its default. The editor session keeps three things: a
  selection (an index or nothing), the grab offset captured at selection time,
  and the quit flag. The model also tracks the mouse cursor, as its stand-in
  for pygame's `mouse.get_pos`/`mouse.set_pos`. Mouse releases, key presses and the per-tick drag change
  the selection and the list.
- **Animator, the previewer.** It keeps a playback speed, a zoom factor, a tick
  counter, and a frame list that is rebuilt from the image directory on every
  refresh. The frame it shows is `anim_count / (speed + 1)` modulo the number
  of frames. It fills the screen with gray when the directory has no frames.

Modules, one file each:

- `wrappers.dfy` (`Wrappers`): Option and Result.
- `graphics.dfy` (`Graphics`): points, image sizes, the zoom rule and pygame's
  half-open `Rect.collidepoint`.
- `input.dfy` (`Input`): the pygame events and keys that the two programs handle.
- `document.dfy` (`Document`): the parsed JSON scene document, its four
  persisted fields and their defaults, the `__getattr__`/`__setattr__`
  routing, and the JSON shape of a scene object.
- `scene.dfy` (`Scenes`): the hit test and the list surgery, as functions plus
  lemmas, and the `Scene` class whose methods rewrite the document's
  `objects` array.
- `editor.dfy` (`Editor`): the editor's state machine as functions (event,
  events of a tick, drag, tick, session), with lemmas about them. It also holds
  the `SceneCreator` class, whose methods are proved against those functions.
- `animator.dfy` (`Animation`): key handling, frame selection and frame-list
  rebuild as functions plus lemmas, and the `Animator` class proved against them.

External inputs become parameters:

- The sprite directory is a map from file name to pixel size. A file outside
  the map does not load.
- The previewer's directory listing is a sequence of names in the order glob
  returns them, plus a map of the files that decode.
- The mouse cursor at the start of a tick is a `cursor` argument. The arrow
  keys move the model's cursor, which stands in for `mouse.set_pos`.
- The shift state that `key.get_mods()` reports is carried on the key event.

### Behaviour of note

The model keeps each of these behaviours of the code.

- `objectAt` scans the list from index 0, which is the back-most object, so
  the lowest index under the point wins. The sprites are drawn over one
  another in index order, so the object picked is the one drawn underneath.
  The test uses only the bounding rectangle, with no check of the pixel's
  transparency. An object whose image fails to load is not skipped: the load
  error escapes `objectAt`, so `HitTest` returns `Failure`, and the editor's
  tick ends there.
- A right-button release deletes the *selected* object, wherever the cursor
  is. With no selection it does nothing.
- The editor can select, move, copy, delete and reorder existing objects.
  It has no operation to add a new object or to write the scene back to a
  file.
- Reading an unset persisted field returns the default. The default is not
  written into the document.
- An unreadable or malformed scene file is not caught: `open`/`json.load`
  raise.
- The program's docstring says frames are loaded in alphabetical order
  (animator.py:12-13, 54). The code does not sort glob's result, so the frame
  order is whatever the directory listing returns. The model keeps that
  order.

## Model

| member | source | states |
|---|---|---|
| `Document.GetAttr` | scenecreator.py:100-105 | A persisted name always reads successfully, from the document or its default. Any other name reads the instance attribute, and a missing one is an error naming it. |
| `Document.SetAttr` | scenecreator.py:107-111 | Assigning a persisted name adds it to the document and leaves the instance attributes alone. Any other name goes to the instance attributes and leaves the document alone. |
| `Document.DefaultsOfEmptyDocument` | scenecreator.py:32-37 | On an empty document, `resolution` reads (800, 600), `scale` reads 1, `objects` reads [] and `background` reads "black". |
| `Document.UnsetFieldReadsDefault` | scenecreator.py:100-103 | A persisted field missing from the document reads as its class-level default. |
| `Document.GetAfterSet` | scenecreator.py:100-111 | After assigning a name, reading that name returns the assigned value, for both kinds of name. |
| `Document.SetLeavesOthers` | scenecreator.py:107-111 | Assigning one name leaves every other name reading as before. |
| `Document.ObjectsRoundTrip` | scenecreator.py:76-98 | An object list written into the document as `[name, [x, y]]` arrays decodes back to the same list. |
| `Document.ObjectListEncodesBack` | scenecreator.py:46-47 | Every well-formed object array in a loaded document is exactly the encoding of the list it decodes to. |
| `Document.TypedViewMatchesGetAttr` | scenecreator.py:100-103 | On a well-formed document, the typed `objects` and `scale` read the same values as the attribute hook, also when those fields are unset. |
| `Document.StoreObjects` | scenecreator.py:76-98 | Writing a new object list keeps the document well formed, makes `objects` read as that list, and leaves `scale` unchanged. |
| `Graphics.Scaled` | animator.py:151-155 | A zoom above 1 multiplies both dimensions by the zoom. A zoom of 1 or less leaves the size as decoded. The result is never smaller than the decoded size. |
| `Scenes.ImageSize` | scenecreator.py:56-61 | Loading succeeds exactly when the file exists, and otherwise fails with that sprite's name. The size is the file's size times `scale` only when `scale > 1`. |
| `Scenes.HitTest` | scenecreator.py:63-70 | A found index n satisfies three things: n is in range, object n's rectangle contains the point, and every object before n loaded and missed. No index means every object loaded and missed. An error names the first object whose image is missing, and all objects before it loaded and missed. |
| `Scenes.Scene.ObjectAt` | scenecreator.py:63-70 | The early-return loop's result equals `HitTest` over the scene's objects at the scene's scale. |
| `Scenes.Scene.DistToObject` | scenecreator.py:72-74 | The returned offset, added to object n's origin, gives the queried point. |
| `Scenes.Moved` | scenecreator.py:76-77 | Moving keeps the list length. |
| `Scenes.Deleted` | scenecreator.py:79-80 | Deleting shortens the list by one. |
| `Scenes.Copied` | scenecreator.py:82-86 | Copying lengthens the list by one. |
| `Scenes.ToBackground` | scenecreator.py:88-92 | Sending to the back keeps the list length. |
| `Scenes.ToForeground` | scenecreator.py:94-98 | Bringing to the front keeps the list length. |
| `Scenes.MovedChangesOnlyThat` | scenecreator.py:76-77 | Only entry n changes: it keeps its sprite and gets the new position. All other entries are unchanged. |
| `Scenes.MoveIdempotent` | scenecreator.py:76-77 | Moving entry n to p twice gives the same list as moving it once. |
| `Scenes.MoveInPlace` | scenecreator.py:76-77 | Moving an entry to its current position leaves the list unchanged. |
| `Scenes.DeletedShifts` | scenecreator.py:79-80 | Entries before n stay where they are. Later entries move down by one. The multiset loses exactly `objects[n]`. |
| `Scenes.CopiedShifts` | scenecreator.py:82-86 | Entries up to n are unchanged. Index n+1 holds a copy of entry n. Later entries move up by one. The multiset gains one more `objects[n]`. |
| `Scenes.ToBackgroundPermutes` | scenecreator.py:88-92 | Entry n moves to index 0. Behind it, the other entries keep their relative order. The multiset is unchanged. |
| `Scenes.ToForegroundPermutes` | scenecreator.py:94-98 | Entry n moves to the last index. Before it, the other entries keep their relative order. The multiset is unchanged. |
| `Scenes.DeleteUndoesCopy` | scenecreator.py:79-86 | Deleting index n+1 right after copying entry n restores the original list. |
| `Scenes.FrontThenBack` | scenecreator.py:88-98 | Bringing entry n to the front, then sending the last entry to the back, equals sending entry n to the back. |
| `Scenes.BackThenFront` | scenecreator.py:88-98 | Sending entry n to the back, then bringing index 0 to the front, equals bringing entry n to the front. |
| `Scenes.Scene.constructor` | scenecreator.py:39-48 | With no scene file, the document is empty, so `objects` is [] and `scale` is 1. With a file, the document is the file's parsed content. |
| `Scenes.Scene.MoveObject` | scenecreator.py:76-77 | The new object list is `Moved(old, n, to)`. Scale and all other document keys are unchanged. |
| `Scenes.Scene.DeleteObject` | scenecreator.py:79-80 | The new object list is `Deleted(old, n)`. Scale and all other document keys are unchanged. |
| `Scenes.Scene.CopyObject` | scenecreator.py:82-86 | The new object list is `Copied(old, n)`. It returns n+1, a valid index that holds the copied entry. |
| `Scenes.Scene.PutToBackground` | scenecreator.py:88-92 | The new object list is `ToBackground(old, n)`. It returns 0, where the moved entry now is. |
| `Scenes.Scene.PutToForeground` | scenecreator.py:94-98 | The new object list is `ToForeground(old, n)`. It returns len−1, where the moved entry now is. |
| `Editor.Nudged` | scenecreator.py:166-189 | An arrow key leaves one axis fixed: y for left and right, x for up and down. The other coordinate changes by `move`, positively for right and down and negatively for left and up. |
| `Editor.OnMouseUp` | scenecreator.py:142-155 | A valid selection stays valid. The quit flag and the cursor are untouched. Only a left release without a selection can fail. |
| `Editor.OnKeyDown` | scenecreator.py:156-189 | A valid selection stays valid. The quit flag and the grab offset are untouched. |
| `Editor.HandleEvent` | scenecreator.py:138-189 | A valid selection stays valid. The quit flag is raised exactly by a quit event. Failure comes only from a left release without a selection. |
| `Editor.HandleEvents` | scenecreator.py:139-189 | Over a whole tick's events, the selection index stays valid for the object list. Without an error, the quit flag is up exactly when it was already up or a quit event occurred. |
| `Editor.Drag` | scenecreator.py:191-194 | With a selection, the selected object is moved to cursor minus grab offset and nothing else changes. Without a selection, nothing changes. |
| `Editor.Tick` | scenecreator.py:138-194 | One call of the event handler keeps the selection valid. |
| `Editor.TickCompleted` | scenecreator.py:138-194 | A call of the event handler that ends without an error raises the quit flag exactly when it was already up or a quit event occurred. If an object is selected, the call ends with that object's origin plus the grab offset at the cursor. |
| `Editor.Session` | scenecreator.py:126-129 | The main loop keeps the selection valid. A session that starts with the quit flag up does nothing. |
| `Editor.LeftReleaseDeselects` | scenecreator.py:143-146 | A left release with a selection only clears the selection. |
| `Editor.LeftReleaseSelects` | scenecreator.py:147-151 | A left release without a selection follows the hit test. An error propagates. No hit leaves the state unchanged. A hit at index n selects n and records offset = point − origin, leaving the objects unchanged. |
| `Editor.RightReleaseDeletesSelection` | scenecreator.py:152-155 | A right release deletes exactly the selected entry and clears the selection. Without a selection it is a no-op. |
| `Editor.ReorderKeysFollowSelection` | scenecreator.py:157-165 | After c, f or b, the selected index holds the entry that was selected. The multiset is unchanged for f and b, and grows by that entry for c. Without a selection these keys change nothing. |
| `Editor.ArrowKeysNudgeCursor` | scenecreator.py:166-189 | An arrow key moves the cursor along one axis by exactly `scale` (10×`scale` with shift), in the key's direction. Nothing else in the state changes. |
| `Editor.IgnoredEvents` | scenecreator.py:138-189 | These events leave the state unchanged: releases of buttons other than 1 and 3, presses of every key other than c, f, b and the four arrows (the q, w, e, r and t keys included), and other event types. |
| `Editor.QuitKeepsHandling` | scenecreator.py:140-141 | A quit event raises the flag, and the events after it in the same tick are still handled. |
| `Editor.GrabDoesNotMove` | scenecreator.py:148-194 | Grabbing an object at p and ending the tick with the cursor still at p selects it and leaves every object where it was. This is the drag round trip. |
| `Editor.DragFollowsCursor` | scenecreator.py:191-194 | A tick with no events keeps the selection and puts the selected object at cursor − grab offset. `Editor.TickCompleted` covers the general case. |
| `Editor.SceneCreator.constructor` | scenecreator.py:113-126 | The session starts with no selection, grab offset (0, 0) and the quit flag down. |
| `Editor.SceneCreator.HandleMouseUp` | scenecreator.py:142-155 | The resulting state equals `OnMouseUp`. On an error, nothing has changed. |
| `Editor.SceneCreator.HandleKey` | scenecreator.py:156-189 | The resulting state equals `OnKeyDown`. |
| `Editor.SceneCreator.Reorder` | scenecreator.py:157-165 | c, f and b apply copy, to-front or to-back to the selection, and the selection follows the returned index. Without a selection nothing changes. |
| `Editor.SceneCreator.HandleOne` | scenecreator.py:139-189 | The resulting state equals `HandleEvent`. On an error, nothing has changed. |
| `Editor.SceneCreator.Events` | scenecreator.py:138-194 | The new state and error equal `Tick` of the old state. The selection stays a valid index. Scale and the non-object document keys are unchanged. |
| `Editor.SceneCreator.Run` | scenecreator.py:126-129 | The final state and error equal `Session` of the initial state. |
| `Animation.OnKey` | animator.py:73-93 | q and w are the only keys that change speed, and e and r the only ones that change zoom. Speed ≥ 0 and zoom ≥ 1 are kept. |
| `Animation.OnEvents` | animator.py:69-93 | Speed ≥ 0 and zoom ≥ 1 are kept over a tick's events. The quit flag ends up exactly when it was already up or a quit event occurred. |
| `Animation.KeyEffects` | animator.py:75-93 | q decrements speed with a floor of 0. w increments speed. e decrements zoom with a floor of 1. r increments zoom. Every other key, t included, changes nothing. |
| `Animation.QuitDropsRest` | animator.py:70-72 | A quit event raises the flag and drops the rest of that tick's events. |
| `Animation.FrameIndex` | animator.py:111 | The index `(count / (speed+1)) mod n` lies in [0, n). |
| `Animation.Shown` | animator.py:110-115 | The gray fill is shown exactly when there are no frames. Otherwise the frame at `FrameIndex`, which is in range. |
| `Animation.FrameHeld` | animator.py:111 | The speed+1 consecutive counts of block k all show frame k mod n. |
| `Animation.FrameAdvancesByOne` | animator.py:107-111 | From count c to c+1, the frame either stays or moves to the next one cyclically. |
| `Animation.Loaded` | animator.py:143-159 | The rebuilt list has at most as many frames as the listing has files. |
| `Animation.LoadedConcat` | animator.py:146-159 | The frames of a concatenated listing are the two frame lists concatenated. |
| `Animation.LoadedSkipsFailure` | animator.py:149-159 | A file that fails to load contributes nothing and does not affect the other files. |
| `Animation.LoadedKeepsSuccess` | animator.py:149-157 | A file that loads contributes its zoomed size, at its place in the listing. |
| `Animation.LoadedAllReadable` | animator.py:147-157 | When every file loads, frame i is file i zoomed by `scale`. |
| `Animation.PreviewTick` | animator.py:67-115 | One pass of the loop keeps the bounds, increments the counter by exactly one, and shows `Shown` of the new frame list. |
| `Animation.PreviewSession` | animator.py:66-95 | The main loop keeps the bounds, and the counter grows by the number of passes made. It stops early only with the quit flag up. |
| `Animation.Animator.constructor` | animator.py:49-55 | The previewer starts with speed 4, anim_count 0, zoom 1, no frames and the quit flag down. |
| `Animation.Animator.HandleEvents` | animator.py:69-93 | The event loop, with its `break` on quit, produces `OnEvents` of the old controls and keeps the bounds. |
| `Animation.Animator.ReloadFiles` | animator.py:143-159 | The images are rebuilt from empty and equal `Loaded(listing, readable, scale)`, whatever they were before. |
| `Animation.Animator.Refresh` | animator.py:103-115 | The frames are reloaded and anim_count grows by exactly one. What is drawn is `Shown` of the new count and frame list. |
| `Animation.Animator.Run` | animator.py:66-95 | The final state and the sequence of displays equal `PreviewSession` of the initial state. |

## Left out

- Display output: `set_mode`, `flip`, `fill`, `blit`, captions, the status bar,
  fonts, `Clock.tick`/`get_fps`, and the editor's `displayOn`/`refresh`.
  These are presentation only. `displayOn` also loads every sprite, so it
  would fail on a missing image too; that is not modelled.
- Image decoding and scaling: images are reduced to their pixel sizes, because
  neither program computes with pixel contents.
- Reading the scene file: `open` and `json.load` are external library calls.
  The `Scene` constructor takes the already-parsed document. The errors they
  raise on a missing or malformed file are not modelled.
- `Scenes.Scene.constructor`, `Editor.SceneCreator.constructor`: these require
  the document's `scale` to be an integer and its `objects` to be an array of
  `[string, [int, int]]`. The code does not check this; it raises later, in a
  comparison or an unpacking. JSON floats are not modelled: numbers are integers.
- `Scenes.Scene.MoveObject`, `Scenes.Scene.DeleteObject`,
  `Scenes.Scene.CopyObject`, `Scenes.Scene.PutToBackground`,
  `Scenes.Scene.PutToForeground`, `Scenes.Scene.DistToObject`: these require
  0 ≤ n < len(objects). With other values, the code raises `IndexError` or
  uses Python's negative indexing. The editor only passes indices that its
  selection invariant guarantees are valid.
- The shared class-level default list is aliased when the document has no
  `objects`: a mutation would land in `Scene.file_data`. The model writes the
  new list into the document instead. This difference can never be observed
  here, because mutations need a non-empty list, and that list always comes
  from the document.
- `__getattr__` is modelled only for the lookups it actually receives:
  persisted names and missing instance attributes. It raises `KeyError` in
  the second case. Python's ordinary lookup of methods and class attributes
  is not modelled. Instance attributes are modelled as JSON-like values.
- The main loops run forever in the code. The model runs them over a finite
  sequence of tick inputs.
- The mouse and the keyboard: `mouse.get_pos` is a `cursor` input at the start
  of each tick, and `mouse.set_pos` updates the model's cursor. Clamping the
  cursor to the window by the platform is not modelled. `key.get_mods` is a
  flag on the key event.
- The directory listing from glob is an input sequence. Nothing about its order
  is assumed.
- `Animation.FrameIndex`: anim_count / (speed + 1) is computed by integer floor
  division over non-negative integers. The code divides in floating point and
  truncates, which drifts only beyond float precision.
- pygame's `Rect` stores 32-bit integers. The model's coordinates and sizes are
  unbounded.
- Refilling the previewer screen with black when zoom decreases (line 88):
  this is display output.
- Command-line and console input (`sys.argv`, `input`), and `print` logging.

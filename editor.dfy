/**
 * The scene editor's interaction state machine: the current selection, the
 * grab offset of a drag, the quit flag and the mouse cursor, driven by the
 * events of one tick and followed by the per-tick drag of the selection.
 */
module Editor {

  import opened Wrappers
  import opened Graphics
  import opened Input
  import opened Document
  import opened Scenes

  /** What one tick of the editor reads and changes. */
  datatype EditorState = EditorState(
    objects: seq<SceneObject>,
    selected: Option<nat>,
    delta: Point,
    quit: bool,
    mouse: Point)

  /** The state reached, and the error that cut the tick short, if any. */
  datatype Outcome = Outcome(state: EditorState, error: Option<SceneError>)

  /** The selection is absent or designates an existing object. */
  predicate SelectionValid(st: EditorState)
  {
    st.selected.Some? ==> st.selected.value < |st.objects|
  }

  /** How far an arrow key moves the cursor: `scale` pixels, ten times that with shift held. */
  function NudgeStep(scale: int, shift: bool): int
  {
    if shift then scale * 10 else scale
  }

  predicate IsArrow(k: Key)
  {
    k == Right || k == Left || k == Up || k == Down
  }

  /**
   * The cursor position after an arrow key moving it by `move`: one axis
   * stays fixed, and the other moves by `move` towards the key's direction
   * (screen y grows downwards).
   */
  function Nudged(p: Point, k: Key, move: int): (r: Point)
    requires IsArrow(k)
    ensures k == Right || k == Left ==> r.y == p.y
    ensures k == Up || k == Down ==> r.x == p.x
    ensures (r.x - p.x) + (r.y - p.y) == if k == Right || k == Down then move else -move
  {
    match k
    case Right => Point(p.x + move, p.y)
    case Left => Point(p.x - move, p.y)
    case Up => Point(p.x, p.y - move)
    case Down => Point(p.x, p.y + move)
  }

  /** A mouse button release at `pos`. Only the hit test of a left release can fail. */
  function OnMouseUp(st: EditorState, button: int, pos: Point, scale: int, files: ImageFiles): (r: Result<EditorState, SceneError>)
    requires SelectionValid(st)
    ensures r.Success? ==> SelectionValid(r.value) && r.value.quit == st.quit && r.value.mouse == st.mouse
    ensures r.Failure? ==> button == 1 && st.selected.None?
  {
    if button == 1 then
      if st.selected.Some? then Success(st.(selected := None))
      else
        match HitTest(st.objects, files, scale, pos, 0)
        case Failure(e) => Failure(e)
        case Success(None) => Success(st)
        case Success(Some(n)) =>
          Success(st.(selected := Some(n), delta := Minus(pos, st.objects[n].pos)))
    else if button == 3 && st.selected.Some? then
      Success(st.(objects := Deleted(st.objects, st.selected.value), selected := None))
    else Success(st)
  }

  /** A key press, with the shift state at the time it is handled. */
  function OnKeyDown(st: EditorState, key: Key, shift: bool, scale: int): (r: EditorState)
    requires SelectionValid(st)
    ensures SelectionValid(r) && r.quit == st.quit && r.delta == st.delta
  {
    if key == C && st.selected.Some? then
      st.(objects := Copied(st.objects, st.selected.value), selected := Some(st.selected.value + 1))
    else if key == F && st.selected.Some? then
      st.(objects := ToForeground(st.objects, st.selected.value), selected := Some(|st.objects| - 1))
    else if key == B && st.selected.Some? then
      st.(objects := ToBackground(st.objects, st.selected.value), selected := Some(0))
    else if IsArrow(key) then
      st.(mouse := Nudged(st.mouse, key, NudgeStep(scale, shift)))
    else st
  }

  /** One event of the tick. */
  function HandleEvent(st: EditorState, ev: Event, scale: int, files: ImageFiles): (r: Result<EditorState, SceneError>)
    requires SelectionValid(st)
    ensures r.Success? ==> SelectionValid(r.value)
    ensures r.Success? ==> r.value.quit == (st.quit || ev == Quit)
    ensures r.Failure? ==> ev.MouseButtonUp? && ev.button == 1 && st.selected.None?
  {
    match ev
    case Quit => Success(st.(quit := true))
    case MouseButtonUp(button, pos) => OnMouseUp(st, button, pos, scale, files)
    case KeyDown(key, shift) => Success(OnKeyDown(st, key, shift, scale))
    case OtherEvent => Success(st)
  }

  /** The events of one tick, in order; an error ends the tick with the state reached before it. */
  function HandleEvents(st: EditorState, evs: seq<Event>, scale: int, files: ImageFiles): (r: Outcome)
    requires SelectionValid(st)
    ensures SelectionValid(r.state)
    ensures st.quit ==> r.state.quit
    ensures r.error.None? ==> r.state.quit == (st.quit || Quit in evs)
    decreases |evs|
  {
    if evs == [] then Outcome(st, None)
    else
      match HandleEvent(st, evs[0], scale, files)
      case Failure(e) => Outcome(st, Some(e))
      case Success(next) => HandleEvents(next, evs[1..], scale, files)
  }

  /** Handling the events from index `i` on is handling event `i`, then the rest. */
  lemma HandleEventsFrom(st: EditorState, evs: seq<Event>, i: nat, scale: int, files: ImageFiles)
    requires SelectionValid(st) && i < |evs|
    ensures HandleEvents(st, evs[i..], scale, files) ==
      match HandleEvent(st, evs[i], scale, files)
      case Failure(e) => Outcome(st, Some(e))
      case Success(next) => HandleEvents(next, evs[i + 1..], scale, files)
  {
    assert evs[i..][0] == evs[i] && evs[i..][1..] == evs[i + 1..];
  }

  /** The end of every tick: the selected object follows the cursor, keeping the grab offset. */
  function Drag(st: EditorState): (r: EditorState)
    requires SelectionValid(st)
    ensures SelectionValid(r)
    ensures st.selected.None? ==> r == st
    ensures st.selected.Some? ==>
      r.objects == Moved(st.objects, st.selected.value, Minus(st.mouse, st.delta)) &&
      r == st.(objects := r.objects)
  {
    if st.selected.Some? then
      st.(objects := Moved(st.objects, st.selected.value, Minus(st.mouse, st.delta)))
    else st
  }

  /** A whole call of the event handler: the tick's events, then the drag unless an error cut it short. */
  function Tick(st: EditorState, evs: seq<Event>, scale: int, files: ImageFiles): (r: Outcome)
    requires SelectionValid(st)
    ensures SelectionValid(r.state)
  {
    var o := HandleEvents(st, evs, scale, files);
    if o.error.None? then Outcome(Drag(o.state), None) else o
  }

  /** What the environment supplies for one pass of the main loop: the queued events and the cursor. */
  datatype TickInput = TickInput(events: seq<Event>, cursor: Point)

  /**
   * The main loop: while the quit flag is down and input remains, one tick
   * per input; an error in a tick ends the session there.
   */
  function Session(st: EditorState, ticks: seq<TickInput>, scale: int, files: ImageFiles): (r: Outcome)
    requires SelectionValid(st)
    ensures SelectionValid(r.state)
    ensures st.quit ==> r == Outcome(st, None)
    decreases |ticks|
  {
    if st.quit || ticks == [] then Outcome(st, None)
    else
      var o := Tick(st.(mouse := ticks[0].cursor), ticks[0].events, scale, files);
      if o.error.Some? then o else Session(o.state, ticks[1..], scale, files)
  }

  // ---------------------------------------------------------------------
  // Properties of the state machine

  /** A left release with a selection clears it and changes nothing else. */
  lemma LeftReleaseDeselects(st: EditorState, pos: Point, scale: int, files: ImageFiles)
    requires SelectionValid(st) && st.selected.Some?
    ensures HandleEvent(st, MouseButtonUp(1, pos), scale, files) == Success(st.(selected := None))
  {
  }

  /**
   * A left release without a selection selects the back-most object under
   * the cursor and records the grab offset; over empty canvas it leaves
   * the state as it was.
   */
  lemma LeftReleaseSelects(st: EditorState, pos: Point, scale: int, files: ImageFiles)
    requires SelectionValid(st) && st.selected.None?
    ensures var r := HandleEvent(st, MouseButtonUp(1, pos), scale, files);
      match HitTest(st.objects, files, scale, pos, 0)
      case Failure(e) => r == Failure(e)
      case Success(None) => r == Success(st)
      case Success(Some(n)) =>
        r.Success? && r.value.selected == Some(n) && r.value.objects == st.objects &&
        Plus(st.objects[n].pos, r.value.delta) == pos
  {
  }

  /** A right release deletes the selected object and clears the selection; without a selection it does nothing. */
  lemma RightReleaseDeletesSelection(st: EditorState, pos: Point, scale: int, files: ImageFiles)
    requires SelectionValid(st)
    ensures var r := HandleEvent(st, MouseButtonUp(3, pos), scale, files);
      if st.selected.Some? then
        r == Success(st.(objects := Deleted(st.objects, st.selected.value), selected := None))
      else r == Success(st)
  {
  }

  /**
   * Copy, bring-to-front and send-to-back keep the selection on the same
   * entry: afterwards the selected index holds the object that was selected.
   * Without a selection the keys do nothing.
   */
  lemma ReorderKeysFollowSelection(st: EditorState, key: Key, shift: bool, scale: int, files: ImageFiles)
    requires SelectionValid(st)
    requires key == C || key == F || key == B
    ensures var r := HandleEvent(st, KeyDown(key, shift), scale, files);
      r.Success? &&
      (st.selected.None? ==> r.value == st) &&
      (st.selected.Some? ==>
        r.value.selected.Some? &&
        r.value.objects[r.value.selected.value] == st.objects[st.selected.value] &&
        multiset(r.value.objects) ==
          if key == C then multiset(st.objects) + multiset{st.objects[st.selected.value]}
          else multiset(st.objects))
  {
    if st.selected.Some? {
      var n := st.selected.value;
      CopiedShifts(st.objects, n);
      ToForegroundPermutes(st.objects, n);
      ToBackgroundPermutes(st.objects, n);
    }
  }

  /** An arrow key moves the cursor by exactly the nudge step along one axis and touches nothing else. */
  lemma ArrowKeysNudgeCursor(st: EditorState, key: Key, shift: bool, scale: int, files: ImageFiles)
    requires SelectionValid(st) && IsArrow(key)
    ensures var r := HandleEvent(st, KeyDown(key, shift), scale, files);
      var move := if shift then 10 * scale else scale;
      r.Success? && r.value == st.(mouse := r.value.mouse) &&
      (r.value.mouse.x - st.mouse.x) + (r.value.mouse.y - st.mouse.y) == (if key == Right || key == Down then move else -move) &&
      (key == Right || key == Left ==> r.value.mouse.y == st.mouse.y) &&
      (key == Up || key == Down ==> r.value.mouse.x == st.mouse.x)
  {
  }

  /** Events of the editor's vocabulary that it does not handle leave the state alone. */
  lemma IgnoredEvents(st: EditorState, ev: Event, scale: int, files: ImageFiles)
    requires SelectionValid(st)
    requires ev.OtherEvent? || (ev.MouseButtonUp? && ev.button != 1 && ev.button != 3) ||
             (ev.KeyDown? && ev.key != C && ev.key != F && ev.key != B && !IsArrow(ev.key))
    ensures HandleEvent(st, ev, scale, files) == Success(st)
  {
  }

  /** Quitting only raises the flag: the events after it in the same tick are still handled. */
  lemma QuitKeepsHandling(st: EditorState, rest: seq<Event>, scale: int, files: ImageFiles)
    requires SelectionValid(st)
    ensures HandleEvents(st, [Quit] + rest, scale, files) == HandleEvents(st.(quit := true), rest, scale, files)
  {
    assert ([Quit] + rest)[1..] == rest;
  }

  /**
   * The drag round trip: grabbing an object with a left release at `pos`
   * and ending the tick with the cursor still at `pos` leaves the object
   * exactly where it was, now selected.
   */
  lemma GrabDoesNotMove(st: EditorState, pos: Point, scale: int, files: ImageFiles)
    requires SelectionValid(st) && st.selected.None? && st.mouse == pos
    requires HitTest(st.objects, files, scale, pos, 0).Success?
    requires HitTest(st.objects, files, scale, pos, 0).value.Some?
    ensures var r := Tick(st, [MouseButtonUp(1, pos)], scale, files);
      r.error.None? && r.state.objects == st.objects &&
      r.state.selected == HitTest(st.objects, files, scale, pos, 0).value
  {
    var n := HitTest(st.objects, files, scale, pos, 0).value.value;
    var s1 := st.(selected := Some(n), delta := Minus(pos, st.objects[n].pos));
    assert HandleEvent(st, MouseButtonUp(1, pos), scale, files) == Success(s1);
    assert [MouseButtonUp(1, pos)][1..] == [];
    assert HandleEvents(st, [MouseButtonUp(1, pos)], scale, files) == Outcome(s1, None);
    assert Minus(s1.mouse, s1.delta) == st.objects[n].pos;
    MoveInPlace(st.objects, n);
  }

  /**
   * A tick with no events keeps the selection and puts the selected object
   * at the cursor minus the grab offset.
   */
  lemma DragFollowsCursor(st: EditorState, scale: int, files: ImageFiles)
    requires SelectionValid(st) && st.selected.Some?
    ensures var r := Tick(st, [], scale, files);
      r.error.None? && r.state.selected == st.selected &&
      Plus(r.state.objects[st.selected.value].pos, st.delta) == st.mouse
  {
  }

  /**
   * A call of the event handler that completes leaves the quit flag up
   * exactly when it was up or a quit event came, and a selected object with
   * its origin plus the grab offset at the cursor.
   */
  lemma TickCompleted(st: EditorState, evs: seq<Event>, scale: int, files: ImageFiles)
    requires SelectionValid(st)
    ensures var r := Tick(st, evs, scale, files);
      r.error.None? ==>
        r.state.quit == (st.quit || Quit in evs) &&
        (r.state.selected.Some? ==> Plus(r.state.objects[r.state.selected.value].pos, r.state.delta) == r.state.mouse)
  {
    var o := HandleEvents(st, evs, scale, files);
    if o.error.None? && o.state.selected.Some? {
      MovedChangesOnlyThat(o.state.objects, o.state.selected.value, Minus(o.state.mouse, o.state.delta));
    }
  }

  // ---------------------------------------------------------------------
  // The SceneCreator class

  /** The editor session over a scene. */
  class SceneCreator {
    const scene: Scene
    var selected: Option<nat>
    var delta: Point
    var quit: bool
    /** Where the mouse cursor is; arrow keys move it. */
    var mouse: Point

    predicate Valid()
      reads this, scene
    {
      scene.Valid() && (selected.Some? ==> selected.value < |scene.Objects()|)
    }

    function State(): (st: EditorState)
      reads this, scene
      requires scene.Valid()
    {
      EditorState(scene.Objects(), selected, delta, quit, mouse)
    }

    constructor (scene: Scene, cursor: Point)
      requires scene.Valid()
      ensures Valid() && this.scene == scene
      ensures selected == None && delta == Point(0, 0) && !quit && mouse == cursor
    {
      this.scene := scene;
      selected := None;
      delta := Point(0, 0);
      quit := false;
      mouse := cursor;
    }

    /** One event; on an error nothing has changed. */
    method HandleOne(ev: Event, scale: int, files: ImageFiles) returns (err: Option<SceneError>)
      requires Valid() && scene.Scale() == scale
      modifies this, scene`doc
      ensures Valid() && scene.Scale() == scale
      ensures scene.doc - {"objects"} == old(scene.doc) - {"objects"}
      ensures err.None? ==> HandleEvent(old(State()), ev, scale, files) == Success(State())
      ensures err.Some? ==> HandleEvent(old(State()), ev, scale, files) == Failure(err.value) && State() == old(State())
    {
      err := None;
      match ev {
        case Quit =>
          quit := true;
        case MouseButtonUp(button, pos) =>
          err := HandleMouseUp(button, pos, files);
        case KeyDown(key, shift) =>
          HandleKey(key, shift, scale);
        case OtherEvent =>
      }
    }

    method HandleMouseUp(button: int, pos: Point, files: ImageFiles) returns (err: Option<SceneError>)
      requires Valid()
      modifies this`selected, this`delta, scene`doc
      ensures Valid() && scene.Scale() == old(scene.Scale())
      ensures scene.doc - {"objects"} == old(scene.doc) - {"objects"}
      ensures err.None? ==> OnMouseUp(old(State()), button, pos, old(scene.Scale()), files) == Success(State())
      ensures err.Some? ==>
        OnMouseUp(old(State()), button, pos, old(scene.Scale()), files) == Failure(err.value) &&
        State() == old(State())
    {
      err := None;
      if button == 1 {
        if selected.Some? {
          selected := None;
        } else {
          var hit := scene.ObjectAt(pos, files);
          if hit.Failure? {
            return Some(hit.error);
          }
          selected := hit.value;
          if selected.Some? {
            delta := scene.DistToObject(selected.value, pos);
          }
        }
      } else if button == 3 {
        if selected.Some? {
          scene.DeleteObject(selected.value);
          selected := None;
        }
      }
    }

    method HandleKey(key: Key, shift: bool, scale: int)
      requires Valid() && scene.Scale() == scale
      modifies this`selected, this`mouse, scene`doc
      ensures Valid() && scene.Scale() == scale
      ensures scene.doc - {"objects"} == old(scene.doc) - {"objects"}
      ensures OnKeyDown(old(State()), key, shift, scale) == State()
    {
      ghost var st0 := State();
      if key == C || key == F || key == B {
        Reorder(key);
        if key == C { assert State() == OnKeyDown(st0, key, shift, scale); }
        else if key == F { assert State() == OnKeyDown(st0, key, shift, scale); }
        else { assert State() == OnKeyDown(st0, key, shift, scale); }
      } else if IsArrow(key) {
        var move := scale;
        if shift {
          move := move * 10;
        }
        mouse := Nudged(mouse, key, move);
      }
    }

    /** The copy, to-front and to-back keys: apply the operation to the selection and follow its result. */
    method Reorder(key: Key)
      requires Valid() && (key == C || key == F || key == B)
      modifies this`selected, scene`doc
      ensures Valid() && scene.Scale() == old(scene.Scale())
      ensures scene.doc - {"objects"} == old(scene.doc) - {"objects"}
      ensures old(selected).None? ==> State() == old(State())
      ensures old(selected).Some? ==>
        var n := old(selected).value;
        selected.Some? &&
        scene.Objects() == (if key == C then Copied(old(scene.Objects()), n)
                            else if key == F then ToForeground(old(scene.Objects()), n)
                            else ToBackground(old(scene.Objects()), n)) &&
        selected.value == (if key == C then n + 1 else if key == F then |scene.Objects()| - 1 else 0)
    {
      if selected.Some? {
        var n: nat;
        if key == C {
          n := scene.CopyObject(selected.value);
        } else if key == F {
          n := scene.PutToForeground(selected.value);
        } else {
          n := scene.PutToBackground(selected.value);
        }
        selected := Some(n);
      }
    }

    /**
     * One call of the event handler: the events of this tick, with the cursor
     * at `cursor` when they are read, then the drag of the selection. A
     * missing sprite image met by the hit test ends the call with an error.
     */
    method Events(evs: seq<Event>, cursor: Point, files: ImageFiles) returns (err: Option<SceneError>)
      requires Valid()
      modifies this, scene`doc
      ensures Valid()
      ensures Outcome(State(), err) == Tick(old(State()).(mouse := cursor), evs, old(scene.Scale()), files)
      ensures scene.Scale() == old(scene.Scale())
      ensures scene.doc - {"objects"} == old(scene.doc) - {"objects"}
    {
      mouse := cursor;
      var scale := scene.Scale();
      ghost var start := State();
      var i := 0;
      while i < |evs|
        invariant 0 <= i <= |evs|
        invariant Valid() && scene.Scale() == scale
        invariant scene.doc - {"objects"} == old(scene.doc) - {"objects"}
        invariant HandleEvents(State(), evs[i..], scale, files) == HandleEvents(start, evs, scale, files)
      {
        HandleEventsFrom(State(), evs, i, scale, files);
        err := HandleOne(evs[i], scale, files);
        if err.Some? {
          return;
        }
        i := i + 1;
      }
      assert evs[i..] == [];
      if selected.Some? {
        scene.MoveObject(selected.value, Minus(mouse, delta));
      }
      err := None;
    }

    /** The main loop of the session, over the inputs of successive ticks. */
    method Run(ticks: seq<TickInput>, files: ImageFiles) returns (err: Option<SceneError>)
      requires Valid()
      modifies this, scene`doc
      ensures Valid()
      ensures Outcome(State(), err) == Session(old(State()), ticks, old(scene.Scale()), files)
      ensures scene.doc - {"objects"} == old(scene.doc) - {"objects"}
    {
      var scale := scene.Scale();
      ghost var start := State();
      var i := 0;
      err := None;
      while !quit && i < |ticks|
        invariant 0 <= i <= |ticks|
        invariant Valid() && scene.Scale() == scale
        invariant scene.doc - {"objects"} == old(scene.doc) - {"objects"}
        invariant err.None?
        invariant Session(State(), ticks[i..], scale, files) == Session(start, ticks, scale, files)
      {
        assert ticks[i..][0] == ticks[i] && ticks[i..][1..] == ticks[i + 1..];
        err := Events(ticks[i].events, ticks[i].cursor, files);
        if err.Some? {
          return;
        }
        i := i + 1;
      }
      assert quit || ticks[i..] == [];
    }
  }
}

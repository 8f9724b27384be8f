/**
 * The pygame input events both programs react to, reduced to what they
 * read from them. The state of the shift modifier, which the editor asks
 * pygame for while it handles a key, travels with the key event.
 */
module Input {

  import opened Graphics

  datatype Key =
    | Q | W | E | R | T         // the previewer's keys
    | C | F | B                 // the editor's copy, to-front and to-back keys
    | Right | Left | Up | Down  // the editor's arrow keys
    | OtherKey(code: int)

  datatype Event =
    | Quit
    | MouseButtonUp(button: int, pos: Point)
    | KeyDown(key: Key, shift: bool)
    | OtherEvent
}

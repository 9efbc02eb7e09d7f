/** The input-simulation library's vocabulary (keys, buttons, directions,
    scroll axes) and the device it drives, seen as the ordered stream of
    input events the operating system receives. */
module Device {
  import opened Base
  import Error

  datatype Key =
    | Control | Alt | Shift | Meta
    | F1 | F2 | F3 | F4 | F5 | F6 | F7 | F8 | F9 | F10 | F11 | F12
    | UpArrow | DownArrow | LeftArrow | RightArrow | Home | End | PageUp | PageDown
    | Return | Tab | Space | Backspace | Delete | Escape | CapsLock
    | Unicode(c: char)

  datatype Button = Left | Right | Middle

  datatype Direction = Press | Release | Click

  datatype Axis = Horizontal | Vertical

  datatype InputEvent =
    | KeyEvent(key: Key, direction: Direction)
    | MoveTo(x: i32, y: i32)
    | ButtonEvent(button: Button, direction: Direction)
    | ScrollEvent(length: i32, axis: Axis)
    | TextEvent(text: string)

  /** The input device. `events` is everything sent to it so far, in
      order; `initFailure` is why opening a connection to it fails on this
      machine, if it does. */
  class Enigo {
    var events: seq<InputEvent>
    const initFailure: Option<string>

    constructor (initFailure: Option<string>)
      ensures events == [] && this.initFailure == initFailure
    {
      events := [];
      this.initFailure := initFailure;
    }

    method Key(key: Key, direction: Direction)
      modifies this
      ensures events == old(events) + [KeyEvent(key, direction)]
    {
      events := events + [KeyEvent(key, direction)];
    }

    method MoveMouse(x: i32, y: i32)
      modifies this
      ensures events == old(events) + [MoveTo(x, y)]
    {
      events := events + [MoveTo(x, y)];
    }

    method Button(button: Button, direction: Direction)
      modifies this
      ensures events == old(events) + [ButtonEvent(button, direction)]
    {
      events := events + [ButtonEvent(button, direction)];
    }

    method Scroll(length: i32, axis: Axis)
      modifies this
      ensures events == old(events) + [ScrollEvent(length, axis)]
    {
      events := events + [ScrollEvent(length, axis)];
    }

    method Text(text: string)
      modifies this
      ensures events == old(events) + [TextEvent(text)]
    {
      events := events + [TextEvent(text)];
    }
  }

  /** `create_enigo`: opening the device fails with an input error when
      the machine refuses it. */
  function CreateEnigo(initFailure: Option<string>): (r: Result<Unit, Error.XenotesterError>)
    ensures r.Failure? <==> initFailure.Some?
    ensures r.Failure? ==> r.error == Error.InputError(initFailure.value)
  {
    match initFailure
    case Some(msg) => Failure(Error.InputError(msg))
    case None => Success(Unit)
  }
}

/** The input commands the user interface invokes: each delegates to the
    mouse or keyboard service and turns a failure into its display text. */
module InputCommands {
  import opened Base
  import opened Device
  import Error
  import Mouse
  import Keyboard

  /** A service outcome as the command returns it: errors become their
      display text. */
  function Reported(r: Result<Unit, Error.XenotesterError>): (s: Result<Unit, string>)
    ensures s.Success? <==> r.Success?
    ensures s.Failure? ==> s.error == Error.Display(r.error)
  {
    match r
    case Success(u) => Success(u)
    case Failure(e) => Failure(Error.ToString(e))
  }

  /** Distinct service errors are reported as distinct texts. */
  lemma ReportedInjective(a: Result<Unit, Error.XenotesterError>, b: Result<Unit, Error.XenotesterError>)
    ensures Reported(a) == Reported(b) ==> a == b
  {
    if a.Failure? && b.Failure? && Reported(a) == Reported(b) {
      Error.DisplayInjective(a.error, b.error);
    }
  }

  /** The scroll direction named by a text, in any case. */
  function ParseScrollDirection(direction: string): (r: Result<Mouse.ScrollDirection, string>)
    ensures r.Failure? ==> r.error == "Invalid scroll direction: " + direction
  {
    match Lower(direction)
    case "up" => Success(Mouse.Up)
    case "down" => Success(Mouse.Down)
    case "left" => Success(Mouse.ScrollDirection.Left)
    case "right" => Success(Mouse.ScrollDirection.Right)
    case _ => Failure("Invalid scroll direction: " + direction)
  }

  /** The four names, in any case, and nothing else name a direction. */
  lemma ScrollDirectionNames(direction: string)
    ensures ParseScrollDirection(direction).Success? <==> Lower(direction) in {"up", "down", "left", "right"}
    ensures ParseScrollDirection(direction) == ParseScrollDirection(Lower(direction))
         || ParseScrollDirection(direction).Failure?
    ensures ParseScrollDirection("up") == Success(Mouse.Up)
    ensures ParseScrollDirection("DOWN") == Success(Mouse.Down)
    ensures ParseScrollDirection("Left") == Success(Mouse.ScrollDirection.Left)
    ensures ParseScrollDirection("right") == Success(Mouse.ScrollDirection.Right)
  {
    LowerIdempotent(direction);
    assert Lower("up") == "up";
    assert Lower("DOWN") == "down";
    assert Lower("Left") == "left";
    assert Lower("right") == "right";
  }

  /** `mouse_move`. */
  method MouseMove(enigo: Enigo, x: i32, y: i32) returns (r: Result<Unit, string>)
    modifies enigo
    ensures r == Reported(CreateEnigo(enigo.initFailure))
    ensures enigo.events == old(enigo.events) + (if r.Success? then [MoveTo(x, y)] else [])
  {
    var outcome := Mouse.MoveMouse(enigo, x, y);
    r := Reported(outcome);
  }

  /** `left_click`: a click of the left button. */
  method LeftClick(enigo: Enigo, x: i32, y: i32) returns (r: Result<Unit, string>)
    modifies enigo
    ensures r == Reported(CreateEnigo(enigo.initFailure))
    ensures enigo.events == old(enigo.events)
      + (if r.Success? then [MoveTo(x, y), ButtonEvent(Button.Left, Direction.Click)] else [])
  {
    var outcome := Mouse.Click(enigo, x, y, Mouse.MouseButton.Left);
    r := Reported(outcome);
  }

  /** `right_click`: a click of the right button. */
  method RightClick(enigo: Enigo, x: i32, y: i32) returns (r: Result<Unit, string>)
    modifies enigo
    ensures r == Reported(CreateEnigo(enigo.initFailure))
    ensures enigo.events == old(enigo.events)
      + (if r.Success? then [MoveTo(x, y), ButtonEvent(Button.Right, Direction.Click)] else [])
  {
    var outcome := Mouse.Click(enigo, x, y, Mouse.MouseButton.Right);
    r := Reported(outcome);
  }

  /** `middle_click`: a click of the middle button. */
  method MiddleClick(enigo: Enigo, x: i32, y: i32) returns (r: Result<Unit, string>)
    modifies enigo
    ensures r == Reported(CreateEnigo(enigo.initFailure))
    ensures enigo.events == old(enigo.events)
      + (if r.Success? then [MoveTo(x, y), ButtonEvent(Button.Middle, Direction.Click)] else [])
  {
    var outcome := Mouse.Click(enigo, x, y, Mouse.MouseButton.Middle);
    r := Reported(outcome);
  }

  /** `double_click`. */
  method DoubleClick(enigo: Enigo, x: i32, y: i32) returns (r: Result<Unit, string>)
    modifies enigo
    ensures r == Reported(CreateEnigo(enigo.initFailure))
    ensures enigo.events == old(enigo.events) + (if r.Success? then [MoveTo(x, y)] + Mouse.LeftClicks(2) else [])
  {
    var outcome := Mouse.DoubleClick(enigo, x, y);
    r := Reported(outcome);
  }

  /** `triple_click`. */
  method TripleClick(enigo: Enigo, x: i32, y: i32) returns (r: Result<Unit, string>)
    modifies enigo
    ensures r == Reported(CreateEnigo(enigo.initFailure))
    ensures enigo.events == old(enigo.events) + (if r.Success? then [MoveTo(x, y)] + Mouse.LeftClicks(3) else [])
  {
    var outcome := Mouse.TripleClick(enigo, x, y);
    r := Reported(outcome);
  }

  /** `left_mouse_down`: always the left button. */
  method LeftMouseDown(enigo: Enigo, x: i32, y: i32) returns (r: Result<Unit, string>)
    modifies enigo
    ensures r == Reported(CreateEnigo(enigo.initFailure))
    ensures enigo.events == old(enigo.events)
      + (if r.Success? then [MoveTo(x, y), ButtonEvent(Button.Left, Press)] else [])
  {
    var outcome := Mouse.MouseDown(enigo, x, y, Mouse.MouseButton.Left);
    r := Reported(outcome);
  }

  /** `left_mouse_up`: always the left button. */
  method LeftMouseUp(enigo: Enigo, x: i32, y: i32) returns (r: Result<Unit, string>)
    modifies enigo
    ensures r == Reported(CreateEnigo(enigo.initFailure))
    ensures enigo.events == old(enigo.events)
      + (if r.Success? then [MoveTo(x, y), ButtonEvent(Button.Left, Release)] else [])
  {
    var outcome := Mouse.MouseUp(enigo, x, y, Mouse.MouseButton.Left);
    r := Reported(outcome);
  }

  /** `left_click_drag`. */
  method LeftClickDrag(enigo: Enigo, startX: i32, startY: i32, endX: i32, endY: i32) returns (r: Result<Unit, string>)
    modifies enigo
    ensures r == Reported(CreateEnigo(enigo.initFailure))
    ensures enigo.events == old(enigo.events)
      + (if r.Success? then Mouse.DragTrace(startX, startY, endX, endY) else [])
  {
    var outcome := Mouse.Drag(enigo, startX, startY, endX, endY);
    r := Reported(outcome);
  }

  /** `scroll`: the direction is checked first, so an invalid one is
      reported, whether or not the device opens, and sends nothing. */
  method Scroll(enigo: Enigo, x: i32, y: i32, direction: string, amount: i32) returns (r: Result<Unit, string>)
    modifies enigo
    ensures ParseScrollDirection(direction).Failure? ==>
      r == Failure("Invalid scroll direction: " + direction) && enigo.events == old(enigo.events)
    ensures ParseScrollDirection(direction).Success? ==>
      && r == Reported(CreateEnigo(enigo.initFailure))
      && enigo.events == old(enigo.events)
           + (if r.Success? then Mouse.ScrollTrace(x, y, Mouse.ScrollDelta(ParseScrollDirection(direction).value, amount)) else [])
  {
    var dir := ParseScrollDirection(direction);
    if dir.Failure? {
      return Failure(dir.error);
    }
    var outcome := Mouse.Scroll(enigo, x, y, dir.value, amount);
    r := Reported(outcome);
  }

  /** `type_text`. */
  method TypeText(enigo: Enigo, text: string) returns (r: Result<Unit, string>)
    modifies enigo
    ensures r == Reported(CreateEnigo(enigo.initFailure))
    ensures enigo.events == old(enigo.events) + (if r.Success? then [TextEvent(text)] else [])
  {
    var outcome := Keyboard.TypeText(enigo, text);
    r := Reported(outcome);
  }

  /** `key`: a key combination; a bad part is reported as its unknown-key
      message and sends nothing. */
  method Key(enigo: Enigo, keys: string) returns (r: Result<Unit, string>)
    modifies enigo
    ensures enigo.initFailure.Some? ==>
      r == Failure(Error.Display(Error.InputError(enigo.initFailure.value))) && enigo.events == old(enigo.events)
    ensures enigo.initFailure.None? && Keyboard.FirstParseError(Keyboard.Combo(keys)).Some? ==>
      r == Failure(Error.Display(Keyboard.FirstParseError(Keyboard.Combo(keys)).value))
      && enigo.events == old(enigo.events)
    ensures enigo.initFailure.None? && Keyboard.FirstParseError(Keyboard.Combo(keys)).None? ==>
      && r == Success(Unit)
      && enigo.events == old(enigo.events)
           + Keyboard.ComboTrace(Keyboard.Modifiers(Keyboard.Combo(keys)), Keyboard.MainKey(Keyboard.Combo(keys)))
  {
    var outcome := Keyboard.KeyCombination(enigo, keys);
    r := Reported(outcome);
  }

  /** `hold_key`: press when `hold` is set, release otherwise. */
  method HoldKey(enigo: Enigo, keyName: string, hold: bool) returns (r: Result<Unit, string>)
    modifies enigo
    ensures enigo.initFailure.Some? ==>
      r == Failure(Error.Display(Error.InputError(enigo.initFailure.value))) && enigo.events == old(enigo.events)
    ensures enigo.initFailure.None? && Keyboard.ParseKey(keyName).Failure? ==>
      r == Failure("Input operation failed: Unknown key: " + keyName) && enigo.events == old(enigo.events)
    ensures enigo.initFailure.None? && Keyboard.ParseKey(keyName).Success? ==>
      r == Success(Unit)
      && enigo.events == old(enigo.events) + [KeyEvent(Keyboard.ParseKey(keyName).value, if hold then Press else Release)]
  {
    var outcome := Keyboard.HoldKey(enigo, keyName, hold);
    r := Reported(outcome);
    if outcome.Failure? && enigo.initFailure.None? {
      Keyboard.UnknownKeyMessage(keyName);
    }
  }
}

/** Mouse operations: moving, clicking (single, double, triple), pressing
    and releasing a button, dragging and scrolling, each as the sequence of
    events it sends to the input device. */
module Mouse {
  import opened Base
  import opened Device
  import Error

  datatype MouseButton = Left | Right | Middle

  datatype ScrollDirection = Up | Down | Left | Right

  /** The device button of the same name. */
  function ToButton(button: MouseButton): (b: Button)
  {
    match button
    case Left => Button.Left
    case Right => Button.Right
    case Middle => Button.Middle
  }

  function FromButton(b: Button): MouseButton
  {
    match b
    case Left => MouseButton.Left
    case Right => MouseButton.Right
    case Middle => MouseButton.Middle
  }

  /** The conversion is one-to-one and onto. */
  lemma ToButtonBijective(m: MouseButton, n: MouseButton, b: Button)
    ensures FromButton(ToButton(m)) == m
    ensures ToButton(FromButton(b)) == b
    ensures ToButton(m) == ToButton(n) ==> m == n
  {
  }

  /** Negation of a 32-bit integer as the release build computes it: the
      two's-complement additive inverse, so that the most negative value is
      its own negation. */
  function WrappingNeg(x: i32): (y: i32)
    ensures (x + y) % 0x1_0000_0000 == 0
    ensures x != I32_MIN ==> y == -x
  {
    if x == I32_MIN then x else -x
  }

  /** The two's-complement inverse is unique among 32-bit integers, so the
      choice made for the most negative value is forced. */
  lemma WrappingNegUnique(x: i32, z: i32)
    requires (x + z) % 0x1_0000_0000 == 0
    ensures z == WrappingNeg(x)
  {
    var q := (x + z) / 0x1_0000_0000;
    assert x + z == q * 0x1_0000_0000;
    assert q == 0 || q == -1;
  }

  /** The horizontal and vertical scroll amounts for a direction. */
  function ScrollDelta(direction: ScrollDirection, amount: i32): (delta: (i32, i32))
  {
    match direction
    case Up => (0, WrappingNeg(amount))
    case Down => (0, amount)
    case Left => (WrappingNeg(amount), 0)
    case Right => (amount, 0)
  }

  /** Up and down scroll vertically, left and right horizontally: the other
      component is zero; down and right scroll by `amount` itself, and for
      every amount but the most negative, up and left by its negation. */
  lemma ScrollDeltaAxes(amount: i32)
    ensures ScrollDelta(Up, amount).0 == 0 && ScrollDelta(Down, amount).0 == 0
    ensures ScrollDelta(ScrollDirection.Left, amount).1 == 0 && ScrollDelta(ScrollDirection.Right, amount).1 == 0
    ensures ScrollDelta(Down, amount).1 == amount && ScrollDelta(ScrollDirection.Right, amount).0 == amount
    ensures amount != I32_MIN ==> ScrollDelta(Up, amount).1 == -amount && ScrollDelta(ScrollDirection.Left, amount).0 == -amount
  {
  }

  /** Opposite directions scroll by opposite amounts, except that the most
      negative amount wraps around and scrolls the same way both times. */
  lemma ScrollOpposites(amount: i32)
    ensures amount != I32_MIN ==> ScrollDelta(Up, amount).1 == -ScrollDelta(Down, amount).1
    ensures amount != I32_MIN ==> ScrollDelta(ScrollDirection.Left, amount).0 == -ScrollDelta(ScrollDirection.Right, amount).0
    ensures amount == I32_MIN ==> ScrollDelta(Up, amount) == ScrollDelta(Down, amount)
  {
  }

  /** `n` clicks of the left button. */
  function LeftClicks(n: nat): (events: seq<InputEvent>)
    ensures |events| == n
    ensures forall i :: 0 <= i < n ==> events[i] == ButtonEvent(Button.Left, Direction.Click)
  {
    seq(n, _ => ButtonEvent(Button.Left, Direction.Click))
  }

  /** `move_mouse`. */
  method MoveMouse(enigo: Enigo, x: i32, y: i32) returns (r: Result<Unit, Error.XenotesterError>)
    modifies enigo
    ensures r == CreateEnigo(enigo.initFailure)
    ensures enigo.events == old(enigo.events) + (if r.Success? then [MoveTo(x, y)] else [])
  {
    var device := CreateEnigo(enigo.initFailure);
    if device.Failure? {
      return Failure(device.error);
    }
    enigo.MoveMouse(x, y);
    return Success(Unit);
  }

  /** `click`: move, then click the button. */
  method Click(enigo: Enigo, x: i32, y: i32, button: MouseButton) returns (r: Result<Unit, Error.XenotesterError>)
    modifies enigo
    ensures r == CreateEnigo(enigo.initFailure)
    ensures enigo.events == old(enigo.events)
      + (if r.Success? then [MoveTo(x, y), ButtonEvent(ToButton(button), Direction.Click)] else [])
  {
    var device := CreateEnigo(enigo.initFailure);
    if device.Failure? {
      return Failure(device.error);
    }
    enigo.MoveMouse(x, y);
    enigo.Button(ToButton(button), Direction.Click);
    return Success(Unit);
  }

  /** `double_click`: move, then two left clicks. */
  method DoubleClick(enigo: Enigo, x: i32, y: i32) returns (r: Result<Unit, Error.XenotesterError>)
    modifies enigo
    ensures r == CreateEnigo(enigo.initFailure)
    ensures enigo.events == old(enigo.events) + (if r.Success? then [MoveTo(x, y)] + LeftClicks(2) else [])
  {
    var device := CreateEnigo(enigo.initFailure);
    if device.Failure? {
      return Failure(device.error);
    }
    enigo.MoveMouse(x, y);
    enigo.Button(Button.Left, Direction.Click);
    enigo.Button(Button.Left, Direction.Click);
    return Success(Unit);
  }

  /** `triple_click`: move, then three left clicks from a loop. */
  method TripleClick(enigo: Enigo, x: i32, y: i32) returns (r: Result<Unit, Error.XenotesterError>)
    modifies enigo
    ensures r == CreateEnigo(enigo.initFailure)
    ensures enigo.events == old(enigo.events) + (if r.Success? then [MoveTo(x, y)] + LeftClicks(3) else [])
  {
    var device := CreateEnigo(enigo.initFailure);
    if device.Failure? {
      return Failure(device.error);
    }
    enigo.MoveMouse(x, y);
    for i := 0 to 3
      invariant enigo.events == old(enigo.events) + [MoveTo(x, y)] + LeftClicks(i)
    {
      assert LeftClicks(i + 1) == LeftClicks(i) + [ButtonEvent(Button.Left, Direction.Click)];
      enigo.Button(Button.Left, Direction.Click);
    }
    return Success(Unit);
  }

  /** `mouse_down`: move, then press the button without releasing it. */
  method MouseDown(enigo: Enigo, x: i32, y: i32, button: MouseButton) returns (r: Result<Unit, Error.XenotesterError>)
    modifies enigo
    ensures r == CreateEnigo(enigo.initFailure)
    ensures enigo.events == old(enigo.events)
      + (if r.Success? then [MoveTo(x, y), ButtonEvent(ToButton(button), Press)] else [])
  {
    var device := CreateEnigo(enigo.initFailure);
    if device.Failure? {
      return Failure(device.error);
    }
    enigo.MoveMouse(x, y);
    enigo.Button(ToButton(button), Press);
    return Success(Unit);
  }

  /** `mouse_up`: move, then release the button. */
  method MouseUp(enigo: Enigo, x: i32, y: i32, button: MouseButton) returns (r: Result<Unit, Error.XenotesterError>)
    modifies enigo
    ensures r == CreateEnigo(enigo.initFailure)
    ensures enigo.events == old(enigo.events)
      + (if r.Success? then [MoveTo(x, y), ButtonEvent(ToButton(button), Release)] else [])
  {
    var device := CreateEnigo(enigo.initFailure);
    if device.Failure? {
      return Failure(device.error);
    }
    enigo.MoveMouse(x, y);
    enigo.Button(ToButton(button), Release);
    return Success(Unit);
  }

  /** `drag`: move to the start, press the left button, move to the end,
      release the left button. */
  method Drag(enigo: Enigo, startX: i32, startY: i32, endX: i32, endY: i32) returns (r: Result<Unit, Error.XenotesterError>)
    modifies enigo
    ensures r == CreateEnigo(enigo.initFailure)
    ensures enigo.events == old(enigo.events)
      + (if r.Success? then DragTrace(startX, startY, endX, endY) else [])
  {
    var device := CreateEnigo(enigo.initFailure);
    if device.Failure? {
      return Failure(device.error);
    }
    enigo.MoveMouse(startX, startY);
    enigo.Button(Button.Left, Press);
    enigo.MoveMouse(endX, endY);
    enigo.Button(Button.Left, Release);
    return Success(Unit);
  }

  function DragTrace(startX: i32, startY: i32, endX: i32, endY: i32): seq<InputEvent>
  {
    [MoveTo(startX, startY), ButtonEvent(Button.Left, Press), MoveTo(endX, endY), ButtonEvent(Button.Left, Release)]
  }

  /** The cursor at the end of a drag is where the drag ends, and the left
      button is held exactly while moving from start to end. */
  lemma DragHoldsWhileMoving(startX: i32, startY: i32, endX: i32, endY: i32)
    ensures LastPosition(DragTrace(startX, startY, endX, endY)) == Some((endX, endY))
    ensures LeftHeld(DragTrace(startX, startY, endX, endY)[..2])
    ensures LeftHeld(DragTrace(startX, startY, endX, endY)[..3])
    ensures !LeftHeld(DragTrace(startX, startY, endX, endY))
  {
    var t := DragTrace(startX, startY, endX, endY);
    assert t[..3][..2] == t[..2];
    assert t[..2][..1] == t[..1];
    assert t[..1][..0] == [];
    assert t[..3] == t[..3][..2] + [t[2]];
    assert t[..|t| - 1] == t[..3];
  }

  /** Where the cursor was last moved to, if anywhere. */
  function LastPosition(events: seq<InputEvent>): Option<(i32, i32)>
  {
    if events == [] then None
    else
      var last := events[|events| - 1];
      if last.MoveTo? then Some((last.x, last.y)) else LastPosition(events[..|events| - 1])
  }

  /** Whether the last left-button press or release in the events was a
      press. */
  predicate LeftHeld(events: seq<InputEvent>)
  {
    if events == [] then false
    else
      var last := events[|events| - 1];
      if last.ButtonEvent? && last.button == Button.Left && last.direction != Direction.Click then last.direction == Press
      else LeftHeld(events[..|events| - 1])
  }

  /** `scroll`: move, then scroll horizontally by dx and vertically by dy;
      both scrolls are always sent, one of them by zero. */
  method Scroll(enigo: Enigo, x: i32, y: i32, direction: ScrollDirection, amount: i32) returns (r: Result<Unit, Error.XenotesterError>)
    modifies enigo
    ensures r == CreateEnigo(enigo.initFailure)
    ensures enigo.events == old(enigo.events)
      + (if r.Success? then ScrollTrace(x, y, ScrollDelta(direction, amount)) else [])
  {
    var device := CreateEnigo(enigo.initFailure);
    if device.Failure? {
      return Failure(device.error);
    }
    enigo.MoveMouse(x, y);
    var (dx, dy) := ScrollDelta(direction, amount);
    enigo.Scroll(dx, Horizontal);
    enigo.Scroll(dy, Vertical);
    return Success(Unit);
  }

  function ScrollTrace(x: i32, y: i32, delta: (i32, i32)): seq<InputEvent>
  {
    [MoveTo(x, y), ScrollEvent(delta.0, Horizontal), ScrollEvent(delta.1, Vertical)]
  }
}

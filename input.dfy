/**
 * The client's input state (public/js/game/Input.js): four direction flags
 * driven by the arrow keys and WASD, a record of every other key, the two
 * mouse-button flags and the mouse position. The handlers take the event's
 * key code, button number or coordinates as parameters.
 */
module Inputs {
  import opened Wrappers

  /** What a key code means to the key handlers. */
  datatype Key = Left | Up | Right | Down | Misc(code: int)

  /**
   * Arrow left and A are Left, arrow up and W are Up, arrow right and D are
   * Right, arrow down and S are Down; every other code stands for itself.
   */
  function KeyOf(code: int): (k: Key)
    ensures k == Left <==> code == 37 || code == 65
    ensures k == Up <==> code == 38 || code == 87
    ensures k == Right <==> code == 39 || code == 68
    ensures k == Down <==> code == 40 || code == 83
    ensures k.Misc? ==> k.code == code
  {
    if code == 37 || code == 65 then Left
    else if code == 38 || code == 87 then Up
    else if code == 39 || code == 68 then Right
    else if code == 40 || code == 83 then Down
    else Misc(code)
  }

  /** The keyboard part of an Input's state. */
  datatype Keys = Keys(left: bool, up: bool, right: bool, down: bool, miscKeys: map<int, bool>)

  /** The entry a key code stands for: a direction flag, or its entry in `miscKeys` if there is one. */
  function Entry(k: Keys, code: int): Option<bool>
  {
    match KeyOf(code)
    case Left => Some(k.left)
    case Up => Some(k.up)
    case Right => Some(k.right)
    case Down => Some(k.down)
    case Misc(c) => if c in k.miscKeys then Some(k.miscKeys[c]) else None
  }

  /**
   * The keyboard state after the key `code` goes down (`pressed`) or up: the
   * entry that code stands for holds `pressed`, and every entry that another
   * key stands for is as it was.
   */
  function WithKey(k: Keys, code: int, pressed: bool): (r: Keys)
    ensures Entry(r, code) == Some(pressed)
    ensures forall c :: KeyOf(c) != KeyOf(code) ==> Entry(r, c) == Entry(k, c)
    ensures KeyOf(code).Misc? ==> r.miscKeys == k.miscKeys[code := pressed]
    ensures !KeyOf(code).Misc? ==> r.miscKeys == k.miscKeys
  {
    match KeyOf(code)
    case Left => k.(left := pressed)
    case Up => k.(up := pressed)
    case Right => k.(right := pressed)
    case Down => k.(down := pressed)
    case Misc(c) => k.(miscKeys := k.miscKeys[c := pressed])
  }

  /** A key going down and then up leaves the same state as the key going up alone. */
  lemma PressThenRelease(k: Keys, code: int)
    ensures WithKey(WithKey(k, code, true), code, false) == WithKey(k, code, false)
    ensures Entry(WithKey(WithKey(k, code, true), code, false), code) == Some(false)
  {
    match KeyOf(code)
    case Misc(c) =>
      assert k.miscKeys[c := true][c := false] == k.miscKeys[c := false];
    case _ =>
  }

  /** The two mouse-button flags. */
  datatype Clicks = Clicks(leftClick: bool, rightClick: bool)

  /** The flags after a button goes down: only the button pressed (1 left, 3 right) is set. */
  function PressedClicks(which: int): (c: Clicks)
    ensures c.leftClick <==> which == 1
    ensures c.rightClick <==> which == 3
    ensures !(c.leftClick && c.rightClick)
  {
    Clicks(which == 1, which == 3)
  }

  /**
   * The flags after a button goes up: every flag except the released
   * button's is set, so at least one flag is always set afterwards.
   */
  function ReleasedClicks(which: int): (c: Clicks)
    ensures !c.leftClick <==> which == 1
    ensures !c.rightClick <==> which == 3
    ensures c.leftClick || c.rightClick
  {
    Clicks(!(which == 1), !(which == 3))
  }

  class Input {
    var leftClick: bool
    var rightClick: bool
    var mouseCoords: seq<real>
    var left: bool
    var up: bool
    var right: bool
    var down: bool
    var miscKeys: map<int, bool>

    ghost function KeyState(): Keys
      reads this
    {
      Keys(left, up, right, down, miscKeys)
    }

    ghost function ClickState(): Clicks
      reads this
    {
      Clicks(leftClick, rightClick)
    }

    /** A new input: nothing held, no key recorded, the mouse at (0, 0). */
    constructor ()
      ensures KeyState() == Keys(false, false, false, false, map[])
      ensures ClickState() == Clicks(false, false)
      ensures mouseCoords == [0.0, 0.0]
    {
      leftClick := false;
      rightClick := false;
      mouseCoords := [0.0, 0.0];
      left := false;
      up := false;
      right := false;
      down := false;
      miscKeys := map[];
    }

    method OnMouseDown(which: int)
      modifies this`leftClick, this`rightClick
      ensures ClickState() == PressedClicks(which)
    {
      leftClick := which == 1;
      rightClick := which == 3;
    }

    method OnMouseUp(which: int)
      modifies this`leftClick, this`rightClick
      ensures ClickState() == ReleasedClicks(which)
    {
      leftClick := !(which == 1);
      rightClick := !(which == 3);
    }

    /** The mouse position relative to the tracked element, whose top-left corner is given. */
    method OnMouseMove(pageX: real, pageY: real, boundsLeft: real, boundsTop: real)
      modifies this`mouseCoords
      ensures mouseCoords == [pageX - boundsLeft, pageY - boundsTop]
    {
      mouseCoords := [pageX - boundsLeft, pageY - boundsTop];
    }

    method OnKeyDown(keyCode: int)
      modifies this`left, this`up, this`right, this`down, this`miscKeys
      ensures KeyState() == WithKey(old(KeyState()), keyCode, true)
    {
      if keyCode == 37 || keyCode == 65 {
        left := true;
      } else if keyCode == 38 || keyCode == 87 {
        up := true;
      } else if keyCode == 39 || keyCode == 68 {
        right := true;
      } else if keyCode == 40 || keyCode == 83 {
        down := true;
      } else {
        miscKeys := miscKeys[keyCode := true];
      }
    }

    method OnKeyUp(keyCode: int)
      modifies this`left, this`up, this`right, this`down, this`miscKeys
      ensures KeyState() == WithKey(old(KeyState()), keyCode, false)
    {
      if keyCode == 37 || keyCode == 65 {
        left := false;
      } else if keyCode == 38 || keyCode == 87 {
        up := false;
      } else if keyCode == 39 || keyCode == 68 {
        right := false;
      } else if keyCode == 40 || keyCode == 83 {
        down := false;
      } else {
        miscKeys := miscKeys[keyCode := false];
      }
    }
  }
}

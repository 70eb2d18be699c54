/** The character's horizontal controller (Main.cpp:292-335): one pixel per
    frame left or right while Space is not held, the aiming angle instead
    while it is, and the jump trigger. */
module Player {
  import opened Scene

  /** The character is 40 units wide (Main.cpp:123). */
  const CharacterWidth: int := 40
  /** The largest x the Right branch lets the character walk to. */
  const MaxX: int := Width - CharacterWidth
  /** Start in the middle of the window (Main.cpp:124). */
  const InitialX: int := Width / 2

  /** The x the character has after one frame's horizontal input. The Right
      branch tests and builds from the live position; the Left branch tests
      the position the Right branch may just have set but builds its result
      from `x`, the position captured at the start of the frame
      (Main.cpp:292, 297-327). */
  function NextX(x: int, k: Keys): (r: int)
    ensures k.space ==> r == x
    ensures !k.space && k.right && !k.left ==> r == if x < MaxX then x + 1 else x
    ensures !k.space && k.left && !k.right ==> r == if x > 0 then x - 1 else x
    ensures !k.space && !k.left && !k.right ==> r == x
    ensures -1 <= x <= MaxX ==> -1 <= r <= MaxX
  {
    var afterRight := if k.right && !k.space && x < MaxX then x + 1 else x;
    if k.left && !k.space && afterRight > 0 then x - 1 else afterRight
  }

  /** With only one arrow held, a character inside [0, MaxX] stays inside. */
  lemma SingleKeyStaysInWindow(x: int, k: Keys)
    requires 0 <= x <= MaxX && !k.space && k.left != k.right
    ensures 0 <= NextX(x, k) <= MaxX
  {
  }

  /** With both arrows held the net move is one step left, from anywhere in
      [0, MaxX]: the Right step is overwritten by the Left branch's stale
      position. From x = 0 this leaves the window, at -1. */
  lemma BothKeysMoveLeft(x: int, k: Keys)
    requires 0 <= x <= MaxX && !k.space && k.left && k.right
    ensures NextX(x, k) == x - 1
  {
  }

  lemma BothKeysLeaveWindowAtZero(k: Keys)
    requires !k.space && k.left && k.right
    ensures NextX(0, k) == -1 && NextX(-1, k) == 0
  {
  }

  /** The aiming angle: with Space held, Right turns by +0.01 and Left by
      -0.01 radians; without Space it does not change. */
  function NextAngle(angle: real, k: Keys): (r: real)
    ensures !k.space ==> r == angle
    ensures k.space && k.right && k.left ==> r == angle
    ensures k.space && !k.left && !k.right ==> r == angle
    ensures k.space && k.right && !k.left ==> r == angle + 0.01
    ensures k.space && k.left && !k.right ==> r == angle - 0.01
  {
    var a := if k.right && k.space then angle + 0.01 else angle;
    if k.left && k.space then a - 0.01 else a
  }

  /** The character's horizontal position, aiming angle and whether a jump
      is under way. The vertical position, driven by the jump clock, is not
      part of this model. */
  class Character {
    var x: int
    var angle: real
    var jumping: bool

    /** Every position the controller can produce from the start lies in
        [-1, MaxX]. */
    ghost predicate Valid()
      reads this
    {
      -1 <= x <= MaxX
    }

    constructor ()
      ensures Valid() && x == InitialX && angle == 0.0 && !jumping
    {
      x, angle, jumping := InitialX, 0.0, false;
    }

    /** One frame's horizontal input, jump trigger and landing
        (Main.cpp:292-345). A jump starts when Up is held, Space is not, and
        no jump is under way. `landed` is the outcome of the landing test of
        Main.cpp:343 (the jump formula's height has gone negative after a
        positive time); when it holds, a jump under way ends. */
    method Step(k: Keys, landed: bool)
      requires Valid()
      modifies this
      ensures Valid()
      ensures x == NextX(old(x), k) && angle == NextAngle(old(angle), k)
      ensures jumping == ((old(jumping) || (!k.space && k.up)) && !landed)
    {
      var curX := x;
      if k.right {
        if !k.space {
          if x < MaxX {
            x := curX + 1;
          }
        } else {
          angle := angle + 0.01;
        }
      }
      if k.left {
        if !k.space {
          if x > 0 {
            x := curX - 1;
          }
        } else {
          angle := angle - 0.01;
        }
      }
      if !k.space {
        if k.up && !jumping {
          jumping := true;
        }
      }
      if jumping && landed {
        jumping := false;
      }
    }
  }
}

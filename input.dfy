/** Keyboard and touch input reduced to the three intents the simulation polls
    each frame: a turn rate, thrust, and the trigger. */
module Input {
  import opened Vectors

  const BUTTON_SIZE: real := 60.0
  const BUTTON_MARGIN: real := 20.0
  const TURN_RATE: real := 5.0

  /** What the simulation reads from the controls at the start of a frame. */
  datatype Intent = Intent(rotation: real, thrust: bool, trigger: bool)

  /** Centres of the four on-screen buttons. */
  datatype Layout = Layout(left: Vec, right: Vec, thrust: Vec, shoot: Vec)

  /** `updateButtonPositions`: movement buttons at the bottom left, action buttons at the
      bottom right, all on the row 50 pixels above the bottom edge. */
  function ButtonLayout(w: real, h: real): (r: Layout)
    ensures r.left.y == h - 50.0 && r.right.y == h - 50.0 && r.thrust.y == h - 50.0 && r.shoot.y == h - 50.0
    ensures r.left.x == 50.0 && r.right.x == 125.0
    ensures r.thrust.x == w - 125.0 && r.shoot.x == w - 50.0
  {
    var row := h - BUTTON_MARGIN - BUTTON_SIZE / 2.0;
    Layout(Vec(BUTTON_MARGIN + BUTTON_SIZE / 2.0, row),
           Vec(BUTTON_MARGIN + BUTTON_SIZE * 1.75, row),
           Vec(w - BUTTON_MARGIN - BUTTON_SIZE * 1.75, row),
           Vec(w - BUTTON_MARGIN - BUTTON_SIZE / 2.0, row))
  }

  /** `checkDistance`: a touch presses a button when it lies strictly inside the button's circle. */
  predicate Within(touch: Vec, centre: Vec): (r: bool)
    ensures touch == centre ==> r
    ensures r ==> -30.0 < touch.x - centre.x < 30.0 && -30.0 < touch.y - centre.y < 30.0
  {
    var inside := DistSq(touch, centre) < (BUTTON_SIZE / 2.0) * (BUTTON_SIZE / 2.0);
    if inside then NearOnAxes(touch, centre, BUTTON_SIZE / 2.0); true else false
  }

  /** Some touch of the list presses the button at `centre`. */
  predicate Pressed(touches: seq<Vec>, centre: Vec)
  {
    exists k :: 0 <= k < |touches| && Within(touches[k], centre)
  }

  lemma PressedSnoc(touches: seq<Vec>, t: Vec, centre: Vec)
    ensures Pressed(touches + [t], centre) <==> Pressed(touches, centre) || Within(t, centre)
  {
    var ts := touches + [t];
    if Pressed(touches, centre) {
      var k :| 0 <= k < |touches| && Within(touches[k], centre);
      assert ts[k] == touches[k];
    }
    if Pressed(ts, centre) {
      var k :| 0 <= k < |ts| && Within(ts[k], centre);
      if k < |touches| { assert ts[k] == touches[k]; }
    }
    assert ts[|touches|] == t;
  }

  /** Buttons on one row 75 pixels apart cannot both be pressed by one touch: one finger never
      presses both arrows, nor both thrust and fire. */
  lemma OneTouchOneButton(t: Vec, w: real, h: real)
    ensures !(Within(t, ButtonLayout(w, h).left) && Within(t, ButtonLayout(w, h).right))
    ensures !(Within(t, ButtonLayout(w, h).thrust) && Within(t, ButtonLayout(w, h).shoot))
  {
    var l := ButtonLayout(w, h);
    assert l.right.x - l.left.x == 75.0 && l.shoot.x - l.thrust.x == 75.0;
  }

  class Controls {
    var keys: map<string, bool>
    var isShooting: bool
    var thrustButton: bool
    var isLeft: bool
    var isRight: bool
    var leftArrowPos: Vec
    var rightArrowPos: Vec
    var thrustPos: Vec
    var shootPos: Vec

    function Buttons(): Layout
      reads this
    {
      Layout(leftArrowPos, rightArrowPos, thrustPos, shootPos)
    }

    /** No key has been seen, no button is pressed, the buttons are laid out for `w` by `h`. */
    constructor (w: real, h: real)
      ensures keys == map[] && !isShooting && !thrustButton && !isLeft && !isRight
      ensures Buttons() == ButtonLayout(w, h)
    {
      keys := map[];
      isShooting := false;
      thrustButton := false;
      isLeft := false;
      isRight := false;
      new;
      UpdateButtonPositions(w, h);
    }

    method UpdateButtonPositions(w: real, h: real)
      modifies this`leftArrowPos, this`rightArrowPos, this`thrustPos, this`shootPos
      ensures Buttons() == ButtonLayout(w, h)
    {
      var row := h - BUTTON_MARGIN - BUTTON_SIZE / 2.0;
      leftArrowPos := Vec(BUTTON_MARGIN + BUTTON_SIZE / 2.0, row);
      rightArrowPos := Vec(BUTTON_MARGIN + BUTTON_SIZE * 1.75, row);
      thrustPos := Vec(w - BUTTON_MARGIN - BUTTON_SIZE * 1.75, row);
      shootPos := Vec(w - BUTTON_MARGIN - BUTTON_SIZE / 2.0, row);
    }

    /** `keys[k]` is true; a key never seen reads as not held. */
    predicate Held(key: string)
      reads this
    {
      key in keys && keys[key]
    }

    predicate LeftActive()
      reads this
    {
      Held("ArrowLeft") || Held("a") || isLeft
    }

    predicate RightActive()
      reads this
    {
      Held("ArrowRight") || Held("d") || isRight
    }

    /** `getRotation`: turn left at 5 rad/s, else right at 5 rad/s, else not at all;
        left wins when both are asked for. */
    function Rotation(): (r: real)
      reads this
      ensures r == -5.0 || r == 0.0 || r == 5.0
      ensures r == -5.0 <==> LeftActive()
      ensures r == 5.0 <==> !LeftActive() && RightActive()
      ensures r == 0.0 <==> !LeftActive() && !RightActive()
    {
      if LeftActive() then -TURN_RATE else if RightActive() then TURN_RATE else 0.0
    }

    /** `isThrusting`: the up arrow or `w` is down, or the thrust button is pressed; a key
        that was never seen counts as up. */
    predicate Thrusting(): (r: bool)
      reads this
      ensures thrustButton ==> r
      ensures r && !thrustButton ==> ("ArrowUp" in keys && keys["ArrowUp"]) || ("w" in keys && keys["w"])
      ensures ("ArrowUp" in keys && keys["ArrowUp"]) || ("w" in keys && keys["w"]) ==> r
    {
      Held("ArrowUp") || Held("w") || thrustButton
    }

    /** `isTriggerPressed`: the space bar is down or the fire button is pressed; a key that
        was never seen counts as up. */
    predicate TriggerPressed(): (r: bool)
      reads this
      ensures r <==> (" " in keys && keys[" "]) || isShooting
    {
      Held(" ") || isShooting
    }

    function CurrentIntent(): Intent
      reads this
    {
      Intent(Rotation(), Thrusting(), TriggerPressed())
    }

    /** keydown handler. */
    method KeyDown(key: string)
      modifies this`keys
      ensures keys == old(keys)[key := true]
      ensures Held(key) && forall k :: k != key ==> (Held(k) <==> old(Held(k)))
      ensures key == " " ==> TriggerPressed()
      ensures key == "ArrowUp" || key == "w" ==> Thrusting()
      ensures key == "ArrowLeft" || key == "a" ==> Rotation() == -5.0
    {
      keys := keys[key := true];
    }

    /** keyup handler. */
    method KeyUp(key: string)
      modifies this`keys
      ensures keys == old(keys)[key := false]
      ensures !Held(key) && forall k :: k != key ==> (Held(k) <==> old(Held(k)))
      ensures key == " " ==> (TriggerPressed() <==> isShooting)
    {
      keys := keys[key := false];
    }

    /** `checkButtonPress`: sets the flag of every button the touch presses, clears none. */
    method CheckButtonPress(touch: Vec)
      modifies this`isLeft, this`isRight, this`thrustButton, this`isShooting
      ensures isLeft == (old(isLeft) || Within(touch, leftArrowPos))
      ensures isRight == (old(isRight) || Within(touch, rightArrowPos))
      ensures thrustButton == (old(thrustButton) || Within(touch, thrustPos))
      ensures isShooting == (old(isShooting) || Within(touch, shootPos))
    {
      if Within(touch, leftArrowPos) {
        isLeft := true;
      }
      if Within(touch, rightArrowPos) {
        isRight := true;
      }
      if Within(touch, thrustPos) {
        thrustButton := true;
      }
      if Within(touch, shootPos) {
        isShooting := true;
      }
    }

    /** `Array.from(e.touches).forEach(checkButtonPress)`. */
    method CheckTouches(touches: seq<Vec>)
      modifies this`isLeft, this`isRight, this`thrustButton, this`isShooting
      ensures isLeft == (old(isLeft) || Pressed(touches, leftArrowPos))
      ensures isRight == (old(isRight) || Pressed(touches, rightArrowPos))
      ensures thrustButton == (old(thrustButton) || Pressed(touches, thrustPos))
      ensures isShooting == (old(isShooting) || Pressed(touches, shootPos))
    {
      var i := 0;
      while i < |touches|
        invariant 0 <= i <= |touches|
        invariant isLeft == (old(isLeft) || Pressed(touches[..i], leftArrowPos))
        invariant isRight == (old(isRight) || Pressed(touches[..i], rightArrowPos))
        invariant thrustButton == (old(thrustButton) || Pressed(touches[..i], thrustPos))
        invariant isShooting == (old(isShooting) || Pressed(touches[..i], shootPos))
      {
        assert touches[..i + 1] == touches[..i] + [touches[i]];
        PressedSnoc(touches[..i], touches[i], leftArrowPos);
        PressedSnoc(touches[..i], touches[i], rightArrowPos);
        PressedSnoc(touches[..i], touches[i], thrustPos);
        PressedSnoc(touches[..i], touches[i], shootPos);
        CheckButtonPress(touches[i]);
        i := i + 1;
      }
      assert touches[..i] == touches;
    }

    /** touchstart handler: only ever sets button flags. */
    method TouchStart(touches: seq<Vec>)
      modifies this`isLeft, this`isRight, this`thrustButton, this`isShooting
      ensures isLeft == (old(isLeft) || Pressed(touches, leftArrowPos))
      ensures isRight == (old(isRight) || Pressed(touches, rightArrowPos))
      ensures thrustButton == (old(thrustButton) || Pressed(touches, thrustPos))
      ensures isShooting == (old(isShooting) || Pressed(touches, shootPos))
    {
      CheckTouches(touches);
    }

    /** touchmove and touchend handlers: every flag is recomputed from the touches still down. */
    method ResetAndCheck(touches: seq<Vec>)
      modifies this`isLeft, this`isRight, this`thrustButton, this`isShooting
      ensures isLeft == Pressed(touches, leftArrowPos)
      ensures isRight == Pressed(touches, rightArrowPos)
      ensures thrustButton == Pressed(touches, thrustPos)
      ensures isShooting == Pressed(touches, shootPos)
    {
      isLeft := false;
      isRight := false;
      thrustButton := false;
      isShooting := false;
      CheckTouches(touches);
    }

    method TouchMove(touches: seq<Vec>)
      modifies this`isLeft, this`isRight, this`thrustButton, this`isShooting
      ensures isLeft == Pressed(touches, leftArrowPos)
      ensures isRight == Pressed(touches, rightArrowPos)
      ensures thrustButton == Pressed(touches, thrustPos)
      ensures isShooting == Pressed(touches, shootPos)
    {
      ResetAndCheck(touches);
    }

    method TouchEnd(touches: seq<Vec>)
      modifies this`isLeft, this`isRight, this`thrustButton, this`isShooting
      ensures isLeft == Pressed(touches, leftArrowPos)
      ensures isRight == Pressed(touches, rightArrowPos)
      ensures thrustButton == Pressed(touches, thrustPos)
      ensures isShooting == Pressed(touches, shootPos)
    {
      ResetAndCheck(touches);
    }
  }
}

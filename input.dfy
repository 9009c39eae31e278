/**
 * Intent aggregation (src/core/InputManager.ts): a map from key codes to
 * held flags, written by key events, and the on-screen controls' analog and
 * button readings, read through four boolean queries. The touch controls
 * and their event wiring are not modelled; only the values they expose are.
 */
module Input {
  import opened Wrappers

  /** The readings of the on-screen controls that the queries use. */
  datatype TouchControls = TouchControls(joystickX: real, mobileJump: bool, mobileInteract: bool)

  /** The joystick counts as a direction beyond this deflection. */
  const JoystickDeadZone: real := 0.3

  /** A key that was never pressed reads as not held. */
  predicate Held(keys: map<string, bool>, code: string) {
    code in keys && keys[code]
  }

  class InputManager {
    var keys: map<string, bool>
    var gameUI: Option<TouchControls>

    constructor ()
      ensures keys == map[] && gameUI == None
    {
      keys := map[];
      gameUI := None;
    }

    method SetGameUI(ui: TouchControls)
      modifies this
      ensures gameUI == Some(ui) && keys == old(keys)
    {
      gameUI := Some(ui);
    }

    method OnKeyDown(code: string)
      modifies this
      ensures keys == old(keys)[code := true] && gameUI == old(gameUI)
    {
      keys := keys[code := true];
    }

    method OnKeyUp(code: string)
      modifies this
      ensures keys == old(keys)[code := false] && gameUI == old(gameUI)
    {
      keys := keys[code := false];
    }

    predicate IsMovingLeft()
      reads this
    {
      if Held(keys, "ArrowLeft") || Held(keys, "KeyA") then true
      else gameUI.Some? && gameUI.value.joystickX < -JoystickDeadZone
    }

    predicate IsMovingRight()
      reads this
    {
      if Held(keys, "ArrowRight") || Held(keys, "KeyD") then true
      else gameUI.Some? && gameUI.value.joystickX > JoystickDeadZone
    }

    predicate IsJumpPressed()
      reads this
    {
      if Held(keys, "Space") then true
      else gameUI.Some? && gameUI.value.mobileJump
    }

    predicate IsInteractPressed()
      reads this
    {
      if Held(keys, "KeyE") || Held(keys, "Enter") then true
      else gameUI.Some? && gameUI.value.mobileInteract
    }
  }

  /** A key event changes the held flag of its own code and of no other. */
  lemma KeyEventsAreLocal(keys: map<string, bool>, code: string, down: bool, other: string)
    requires other != code
    ensures Held(keys[code := down], code) == down
    ensures Held(keys[code := down], other) == Held(keys, other)
  {
  }

  /** No joystick deflection reads as both left and right. */
  lemma JoystickNeverBothWays(im: InputManager)
    requires !Held(im.keys, "ArrowLeft") && !Held(im.keys, "KeyA")
    requires !Held(im.keys, "ArrowRight") && !Held(im.keys, "KeyD")
    ensures !(im.IsMovingLeft() && im.IsMovingRight())
  {
  }

  /** Without the on-screen controls only the key map counts. */
  lemma KeysOnlyWithoutUI(im: InputManager)
    requires im.gameUI.None?
    ensures im.IsMovingLeft() <==> Held(im.keys, "ArrowLeft") || Held(im.keys, "KeyA")
    ensures im.IsMovingRight() <==> Held(im.keys, "ArrowRight") || Held(im.keys, "KeyD")
    ensures im.IsJumpPressed() <==> Held(im.keys, "Space")
    ensures im.IsInteractPressed() <==> Held(im.keys, "KeyE") || Held(im.keys, "Enter")
  {
  }

  /** With the controls attached, each query is the key test or the control test. */
  lemma QueriesWithUI(im: InputManager, ui: TouchControls)
    requires im.gameUI == Some(ui)
    ensures im.IsMovingLeft() <==> Held(im.keys, "ArrowLeft") || Held(im.keys, "KeyA") || ui.joystickX < -0.3
    ensures im.IsMovingRight() <==> Held(im.keys, "ArrowRight") || Held(im.keys, "KeyD") || ui.joystickX > 0.3
    ensures im.IsJumpPressed() <==> Held(im.keys, "Space") || ui.mobileJump
    ensures im.IsInteractPressed() <==> Held(im.keys, "KeyE") || Held(im.keys, "Enter") || ui.mobileInteract
  {
  }
}

/**
 * The two configuration assets: tunable movement values and key bindings.
 * Both are plain records; their defaults are the field initialisers of
 * Assets/Scripts/Config/GameSettings.cs and InputSettings.cs.
 */
module Config {

  import opened Engine

  datatype GameSettings = GameSettings(
    moveSpeed: real,
    jumpForce: real,
    jumpSpeed: real,
    fallSpeed: real,
    coyoteTime: real,
    maxJumpHoldTime: real)

  const DefaultGameSettings := GameSettings(8.0, 9.8, 9.8, 9.8, 0.1, 0.3)

  datatype InputSettings = InputSettings(
    moveLeft: KeyCode,
    moveRight: KeyCode,
    moveLeftAlt: KeyCode,
    moveRightAlt: KeyCode,
    jump: KeyCode,
    jumpAlt: KeyCode,
    interact: KeyCode,
    pause: KeyCode,
    ability1: KeyCode,
    ability2: KeyCode,
    ability3: KeyCode)

  /** The asset's field initialisers: arrow keys primary, A and D alternate. */
  const DefaultInputSettings :=
    InputSettings(LeftArrow, RightArrow, A, D, Space, W, E, Escape, LeftShift, Q, R)
}

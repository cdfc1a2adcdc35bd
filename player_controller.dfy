/**
 * The orchestrator of Assets/Scripts/Player/PlayerController.cs.  It keeps
 * an ordered array of movement modules (the move module, then the jump
 * module), runs an input pass per rendered frame and an execution pass per
 * physics tick, both only while control is enabled, copies the two sensors
 * into `IsGrounded` and `IsCollideWall`, and derives the animation state.
 */
module Controller {

  import opened Wrappers
  import opened Engine
  import opened Config
  import opened Sensor
  import opened Movement

  /** One entry of the module array; the source's entries may be null. */
  datatype ModuleSlot = MoveSlot(move: MoveModule) | JumpSlot(jump: JumpModule) | Empty

  /**
   * `UpdateAnimation`: fall below -0.3, jump above 0.3; inside the closed
   * band `run` is kept and every other state becomes `idle`.
   */
  function NextAnimState(current: AnimState, vy: real): (a: AnimState)
    ensures vy < -RunBand ==> a == fall
    ensures vy > RunBand ==> a == jump
    ensures -RunBand <= vy <= RunBand ==> a == (if current == run then run else idle)
  {
    if vy < -RunBand then fall
    else if vy > RunBand then jump
    else if current != run then idle
    else current
  }

  class PlayerController {
    const gameSettings: Option<GameSettings>
    const groundCheck: CollisionCheck
    const wallCheck: CollisionCheck
    const body: Rigidbody
    const transform: Transform
    const enableDoubleJump: bool
    const movementModules: array<ModuleSlot>
    ghost const moveModule: MoveModule
    ghost const jumpModule: JumpModule

    var IsGrounded: bool
    var IsCollideWall: bool
    var ControlEnabled: bool
    var CurrentAnimState: AnimState

    /**
     * The module array as `InitializeModules` builds it, sharing this body
     * and transform.  It reads only constants and the array's entries, and
     * no method writes the array, so every method keeps it.
     */
    ghost predicate Valid()
      reads this, movementModules
    {
      && movementModules.Length == 2
      && movementModules[0] == MoveSlot(moveModule)
      && movementModules[1] == JumpSlot(jumpModule)
      && moveModule.body == body && moveModule.transform == transform
      && jumpModule.body == body
      && moveModule.gameSettings == gameSettings && jumpModule.gameSettings == gameSettings
    }

    /** `Awake` with the field initialisers: grounded, touching a wall, control on, idle. */
    constructor (gameSettings: Option<GameSettings>, groundCheck: CollisionCheck, wallCheck: CollisionCheck,
                 body: Rigidbody, transform: Transform, enableDoubleJump: bool)
      ensures Valid() && fresh(movementModules) && fresh(moveModule) && fresh(jumpModule)
      ensures this.gameSettings == gameSettings && this.groundCheck == groundCheck && this.wallCheck == wallCheck
      ensures this.body == body && this.transform == transform && this.enableDoubleJump == enableDoubleJump
      ensures IsGrounded && IsCollideWall && ControlEnabled && CurrentAnimState == idle
      ensures moveModule.horizontalInput == 0.0 && moveModule.moveSpeed == 0.0
      ensures jumpModule.State() == JumpState(false, false, 0.0, 0.0)
    {
      this.gameSettings := gameSettings;
      this.groundCheck := groundCheck;
      this.wallCheck := wallCheck;
      this.body := body;
      this.transform := transform;
      this.enableDoubleJump := enableDoubleJump;
      var m := new MoveModule(body, transform, gameSettings);
      var j := new JumpModule(body, gameSettings);
      moveModule := m;
      jumpModule := j;
      movementModules := new ModuleSlot[] [MoveSlot(m), JumpSlot(j)];
      IsGrounded, IsCollideWall, ControlEnabled := true, true, true;
      CurrentAnimState := idle;
    }

    /**
     * `Start`: every module loads its settings, in array order.  With the
     * settings missing, the move module's null-reference error ends the loop
     * at the first entry, so the jump module is never reached; `completed`
     * counts the entries whose call returned normally.
     */
    method LoadGameSettings() returns (completed: nat)
      requires Valid()
      modifies moveModule, jumpModule
      ensures Valid()
      ensures gameSettings.None? ==>
        && completed == 0
        && moveModule.moveSpeed == old(moveModule.moveSpeed)
        && jumpModule.Tuning() == old(jumpModule.Tuning())
      ensures gameSettings.Some? ==>
        && completed == movementModules.Length
        && moveModule.moveSpeed == gameSettings.value.moveSpeed
        && jumpModule.Tuning() == TuningOf(gameSettings.value)
      ensures moveModule.horizontalInput == old(moveModule.horizontalInput)
      ensures jumpModule.State() == old(jumpModule.State())
    {
      var i := 0;
      var failed := false;
      completed := 0;
      while i < movementModules.Length && !failed
        invariant 0 <= i <= movementModules.Length
        invariant failed ==> gameSettings.None? && i == 1 && completed == 0
        invariant !failed ==> completed == i
        invariant gameSettings.None? ==> i == 0 || failed
        invariant gameSettings.None? ==>
          moveModule.moveSpeed == old(moveModule.moveSpeed) && jumpModule.Tuning() == old(jumpModule.Tuning())
        invariant gameSettings.Some? && i >= 1 ==> moveModule.moveSpeed == gameSettings.value.moveSpeed
        invariant gameSettings.Some? && i == 2 ==> jumpModule.Tuning() == TuningOf(gameSettings.value)
        invariant moveModule.horizontalInput == old(moveModule.horizontalInput)
        invariant jumpModule.State() == old(jumpModule.State())
        decreases movementModules.Length - i
      {
        match movementModules[i] {
          case MoveSlot(m) =>
            var ok := m.LoadGameSettings();
            if ok {
              completed := completed + 1;
            } else {
              failed := true;
            }
          case JumpSlot(j) =>
            j.LoadGameSettings();
            completed := completed + 1;
          case Empty =>
            completed := completed + 1;
        }
        i := i + 1;
      }
    }

    /**
     * `Update`: nothing at all while control is disabled; otherwise the
     * input pass, then the sensor snapshot, then the animation rule.  The
     * input pass runs before the snapshot, so the jump press is judged
     * against the grounded flag of the previous frame.
     */
    method Update(keys: KeyFrame, bindings: InputSettings)
      requires Valid()
      ensures Valid()
      modifies this, moveModule, jumpModule, transform, body
      ensures !old(ControlEnabled) ==> unchanged(this, moveModule, jumpModule, transform, body)
      ensures old(ControlEnabled) ==>
        && moveModule.horizontalInput == HorizontalIntent(keys, bindings)
        && transform.scaleX == FacedScaleX(old(transform.scaleX), moveModule.horizontalInput)
        && (var o := InputStep(old(jumpModule.State()), old(IsGrounded), enableDoubleJump,
                               bindings.jump in keys.pressed, bindings.jump in keys.released);
            && jumpModule.State() == o.state
            && body.vy == old(body.vy) + (if o.impulse then jumpModule.jumpForce / body.mass else 0.0))
        && IsGrounded == groundCheck.isColliding
        && IsCollideWall == wallCheck.isColliding
        && CurrentAnimState == NextAnimState(old(CurrentAnimState), body.vy)
      ensures body.vx == old(body.vx) && transform.position == old(transform.position)
      ensures ControlEnabled == old(ControlEnabled)
      ensures moveModule.moveSpeed == old(moveModule.moveSpeed) && jumpModule.Tuning() == old(jumpModule.Tuning())
    {
      if !ControlEnabled {
        return;
      }
      HandleInputs(keys, bindings);
      CheckCollision();
      UpdateAnimation();
    }

    /** `FixedUpdate`: nothing at all while control is disabled; otherwise the execution pass. */
    method FixedUpdate(dt: real)
      requires Valid()
      ensures Valid()
      modifies this, jumpModule, body
      ensures !old(ControlEnabled) ==> unchanged(this, jumpModule, body)
      ensures old(ControlEnabled) ==> ExecutedMovement(dt)
      ensures IsGrounded == old(IsGrounded) && IsCollideWall == old(IsCollideWall)
      ensures ControlEnabled == old(ControlEnabled)
    {
      if !ControlEnabled {
        return;
      }
      ExecuteMovement(dt);
    }

    /**
     * The effect of one execution pass: the move module first (vx and the
     * animation state, unless a wall blocks it), then the jump module, which
     * sees the vy the move module left unchanged.
     */
    twostate predicate ExecutedMovement(dt: real)
      reads this, moveModule, jumpModule, body
    {
      && (IsCollideWall ==> body.vx == old(body.vx) && CurrentAnimState == old(CurrentAnimState))
      && (!IsCollideWall ==>
            && body.vx == moveModule.horizontalInput * moveModule.moveSpeed
            && CurrentAnimState == MoveAnimState(moveModule.horizontalInput, old(body.vy)))
      && (var o := TickStep(old(jumpModule.State()), jumpModule.Tuning(), IsGrounded, old(body.vy), dt);
          jumpModule.State() == o.state && body.vy == o.vy)
      && jumpModule.Tuning() == old(jumpModule.Tuning())
    }

    /** The input pass: each module in array order, skipping empty entries. */
    method HandleInputs(keys: KeyFrame, bindings: InputSettings)
      requires Valid()
      ensures Valid()
      modifies moveModule, jumpModule, transform, body
      ensures moveModule.horizontalInput == HorizontalIntent(keys, bindings)
      ensures transform.scaleX == FacedScaleX(old(transform.scaleX), moveModule.horizontalInput)
      ensures var o := InputStep(old(jumpModule.State()), IsGrounded, enableDoubleJump,
                                 bindings.jump in keys.pressed, bindings.jump in keys.released);
        && jumpModule.State() == o.state
        && body.vy == old(body.vy) + (if o.impulse then jumpModule.jumpForce / body.mass else 0.0)
      ensures body.vx == old(body.vx) && transform.position == old(transform.position)
      ensures moveModule.moveSpeed == old(moveModule.moveSpeed) && jumpModule.Tuning() == old(jumpModule.Tuning())
    {
      var i := 0;
      while i < movementModules.Length
        invariant 0 <= i <= movementModules.Length
        invariant i == 0 ==> moveModule.horizontalInput == old(moveModule.horizontalInput)
                             && transform.scaleX == old(transform.scaleX)
        invariant i >= 1 ==> moveModule.horizontalInput == HorizontalIntent(keys, bindings)
                             && transform.scaleX == FacedScaleX(old(transform.scaleX), moveModule.horizontalInput)
        invariant i < 2 ==> jumpModule.State() == old(jumpModule.State()) && body.vy == old(body.vy)
        invariant i == 2 ==>
          var o := InputStep(old(jumpModule.State()), IsGrounded, enableDoubleJump,
                             bindings.jump in keys.pressed, bindings.jump in keys.released);
          && jumpModule.State() == o.state
          && body.vy == old(body.vy) + (if o.impulse then jumpModule.jumpForce / body.mass else 0.0)
        invariant body.vx == old(body.vx) && transform.position == old(transform.position)
        invariant moveModule.moveSpeed == old(moveModule.moveSpeed)
        invariant jumpModule.Tuning() == old(jumpModule.Tuning())
      {
        match movementModules[i] {
          case MoveSlot(m) => m.HandleInput(keys, bindings);
          case JumpSlot(j) => j.HandleInput(keys, bindings, IsGrounded, enableDoubleJump);
          case Empty =>
        }
        i := i + 1;
      }
    }

    /** The execution pass: each module in array order, skipping empty entries. */
    method ExecuteMovement(dt: real)
      requires Valid()
      ensures Valid()
      modifies this, jumpModule, body
      ensures ExecutedMovement(dt)
      ensures IsGrounded == old(IsGrounded) && IsCollideWall == old(IsCollideWall)
      ensures ControlEnabled == old(ControlEnabled)
    {
      var i := 0;
      while i < movementModules.Length
        invariant 0 <= i <= movementModules.Length
        invariant IsGrounded == old(IsGrounded) && IsCollideWall == old(IsCollideWall)
        invariant ControlEnabled == old(ControlEnabled)
        invariant i == 0 ==> body.vx == old(body.vx) && CurrentAnimState == old(CurrentAnimState)
        invariant i >= 1 && IsCollideWall ==> body.vx == old(body.vx) && CurrentAnimState == old(CurrentAnimState)
        invariant i >= 1 && !IsCollideWall ==>
          && body.vx == moveModule.horizontalInput * moveModule.moveSpeed
          && CurrentAnimState == MoveAnimState(moveModule.horizontalInput, old(body.vy))
        invariant i < 2 ==> jumpModule.State() == old(jumpModule.State()) && body.vy == old(body.vy)
        invariant i == 2 ==>
          var o := TickStep(old(jumpModule.State()), jumpModule.Tuning(), IsGrounded, old(body.vy), dt);
          jumpModule.State() == o.state && body.vy == o.vy
        invariant jumpModule.Tuning() == old(jumpModule.Tuning())
      {
        match movementModules[i] {
          case MoveSlot(m) => CurrentAnimState := m.Execute(IsCollideWall, CurrentAnimState);
          case JumpSlot(j) => j.Execute(IsGrounded, dt);
          case Empty =>
        }
        i := i + 1;
      }
    }

    /** The sensor snapshot, copied exactly. */
    method CheckCollision()
      modifies this
      ensures IsGrounded == groundCheck.isColliding && IsCollideWall == wallCheck.isColliding
      ensures ControlEnabled == old(ControlEnabled) && CurrentAnimState == old(CurrentAnimState)
    {
      IsGrounded := groundCheck.isColliding;
      IsCollideWall := wallCheck.isColliding;
    }

    /**
     * Disabling control zeroes vx and keeps vy; enabling leaves the
     * velocity alone.  A second call with the same argument changes nothing.
     */
    method SetControlEnabled(isEnabled: bool)
      modifies this, body
      ensures ControlEnabled == isEnabled
      ensures !isEnabled ==> body.vx == 0.0 && body.vy == old(body.vy)
      ensures isEnabled ==> body.vx == old(body.vx) && body.vy == old(body.vy)
      ensures IsGrounded == old(IsGrounded) && IsCollideWall == old(IsCollideWall)
      ensures CurrentAnimState == old(CurrentAnimState)
    {
      ControlEnabled := isEnabled;
      if !isEnabled {
        body.vx := 0.0;
      }
    }

    method ToggleControl()
      modifies this, body
      ensures ControlEnabled == !old(ControlEnabled)
      ensures !ControlEnabled ==> body.vx == 0.0 && body.vy == old(body.vy)
      ensures ControlEnabled ==> body.vx == old(body.vx) && body.vy == old(body.vy)
      ensures IsGrounded == old(IsGrounded) && IsCollideWall == old(IsCollideWall)
      ensures CurrentAnimState == old(CurrentAnimState)
    {
      SetControlEnabled(!ControlEnabled);
    }

    method UpdateAnimation()
      modifies this
      ensures CurrentAnimState == NextAnimState(old(CurrentAnimState), body.vy)
      ensures IsGrounded == old(IsGrounded) && IsCollideWall == old(IsCollideWall)
      ensures ControlEnabled == old(ControlEnabled)
    {
      if body.vy < -RunBand {
        CurrentAnimState := fall;
      } else if body.vy > RunBand {
        CurrentAnimState := jump;
      } else if CurrentAnimState != run {
        CurrentAnimState := idle;
      }
    }
  }
}

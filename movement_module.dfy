/**
 * The two movement modules of Assets/Scripts/Player/MovementModule.cs.
 *
 * `MoveModule` turns the two primary horizontal keys into an intent in
 * {-1, 0, +1}, flips the facing, and assigns horizontal velocity.
 * `JumpModule` is the jump state machine: an impulse on key press, a
 * capped hold acceleration, a gravity fallback and a landing reset.
 *
 * What the modules read from the player controller (`IsGrounded`,
 * `IsCollideWall`, `enableDoubleJump`) is passed in as parameters, and the
 * animation state that `MoveModule.Execute` writes back is returned; the
 * rigid body and the transform are shared references, as in the source.
 * `dt` stands for `Time.deltaTime`.
 */
module Movement {

  import opened Wrappers
  import opened Engine
  import opened Config

  /** The controller's animation states, in their declaration order. */
  datatype AnimState = idle | run | jump | fall

  /** |vy| below this counts as ground locomotion when choosing `run`. */
  const RunBand: real := 0.3

  /** A grounded body with vy at or below this counts as landed. */
  const LandingSpeed: real := 0.1

  function Abs(x: real): real
  {
    if x < 0.0 then -x else x
  }

  /** `Mathf.Sign`: 1 for zero and positive arguments, -1 for negative ones. */
  function Sign(x: real): real
  {
    if x >= 0.0 then 1.0 else -1.0
  }

  // ---------------------------------------------------------------------
  // MoveModule

  /**
   * The horizontal intent of one frame.  Only the primary bindings are
   * consulted, never the alternates: -1 when only left is held, +1 when
   * only right is held, 0 when both or neither are.
   */
  function HorizontalIntent(keys: KeyFrame, bindings: InputSettings): (r: real)
    ensures r == -1.0 <==> bindings.moveLeft in keys.held && bindings.moveRight !in keys.held
    ensures r == 1.0 <==> bindings.moveRight in keys.held && bindings.moveLeft !in keys.held
    ensures r == 0.0 <==> (bindings.moveLeft in keys.held <==> bindings.moveRight in keys.held)
  {
    (if bindings.moveLeft in keys.held then -1.0 else 0.0)
      + (if bindings.moveRight in keys.held then 1.0 else 0.0)
  }

  /**
   * The facing flip: a non-zero intent keeps the magnitude of `scale.x`
   * and gives it the intent's sign; a zero intent leaves it alone.
   */
  function FacedScaleX(scaleX: real, intent: real): (r: real)
    ensures intent == 0.0 ==> r == scaleX
    ensures intent != 0.0 ==> Abs(r) == Abs(scaleX)
    ensures intent > 0.0 ==> r >= 0.0
    ensures intent < 0.0 ==> r <= 0.0
  {
    if intent != 0.0 then Abs(scaleX) * Sign(intent) else scaleX
  }

  /** The animation state `MoveModule.Execute` selects when no wall blocks it. */
  function MoveAnimState(intent: real, vy: real): (a: AnimState)
    ensures a == run <==> intent != 0.0 && -RunBand < vy < RunBand
    ensures a != run ==> a == idle
  {
    if intent != 0.0 && Abs(vy) < RunBand then run else idle
  }

  class MoveModule {
    const body: Rigidbody
    const transform: Transform
    const gameSettings: Option<GameSettings>
    var horizontalInput: real
    var moveSpeed: real

    constructor (body: Rigidbody, transform: Transform, gameSettings: Option<GameSettings>)
      ensures this.body == body && this.transform == transform && this.gameSettings == gameSettings
      ensures horizontalInput == 0.0 && moveSpeed == 0.0
    {
      this.body := body;
      this.transform := transform;
      this.gameSettings := gameSettings;
      horizontalInput, moveSpeed := 0.0, 0.0;
    }

    /**
     * Copies the move speed.  The settings are dereferenced without a null
     * check, so missing settings raise a null-reference error before
     * anything is assigned: `loaded` is false and the module is unchanged.
     */
    method LoadGameSettings() returns (loaded: bool)
      modifies this
      ensures loaded <==> gameSettings.Some?
      ensures loaded ==> moveSpeed == gameSettings.value.moveSpeed
      ensures !loaded ==> moveSpeed == old(moveSpeed)
      ensures horizontalInput == old(horizontalInput)
    {
      if gameSettings.None? {
        return false;
      }
      moveSpeed := gameSettings.value.moveSpeed;
      return true;
    }

    method HandleInput(keys: KeyFrame, bindings: InputSettings)
      modifies this, transform
      ensures horizontalInput == HorizontalIntent(keys, bindings)
      ensures transform.scaleX == FacedScaleX(old(transform.scaleX), horizontalInput)
      ensures transform.position == old(transform.position)
      ensures moveSpeed == old(moveSpeed)
    {
      horizontalInput := 0.0;
      if bindings.moveLeft in keys.held {
        horizontalInput := horizontalInput - 1.0;
      }
      if bindings.moveRight in keys.held {
        horizontalInput := horizontalInput + 1.0;
      }
      if horizontalInput != 0.0 {
        transform.scaleX := Abs(transform.scaleX) * Sign(horizontalInput);
      }
    }

    /**
     * Wall contact returns early: neither the velocity nor the animation
     * state changes (the velocity is not zeroed).  Otherwise vx becomes
     * `intent * moveSpeed`, vy is kept, and the animation state is chosen
     * from the intent and vy.
     */
    method Execute(isCollideWall: bool, anim: AnimState) returns (newAnim: AnimState)
      modifies body
      ensures body.vy == old(body.vy)
      ensures isCollideWall ==> body.vx == old(body.vx) && newAnim == anim
      ensures !isCollideWall ==> body.vx == horizontalInput * moveSpeed
      ensures !isCollideWall ==> newAnim == MoveAnimState(horizontalInput, body.vy)
    {
      if isCollideWall {
        return anim;
      }
      var targetSpeed := horizontalInput * moveSpeed;
      body.vx := targetSpeed;
      if horizontalInput != 0.0 && Abs(body.vy) < RunBand {
        newAnim := run;
      } else {
        newAnim := idle;
      }
    }
  }

  // ---------------------------------------------------------------------
  // JumpModule

  /** The jump module's own state. */
  datatype JumpState = JumpState(
    isJumping: bool,
    isDoubleJumping: bool,
    coyoteTimeCounter: real,
    jumpHoldTimeCounter: real)

  /** The values the jump module copies from the game settings. */
  datatype JumpTuning = JumpTuning(
    jumpForce: real,
    jumpSpeed: real,
    fallSpeed: real,
    coyoteTime: real,
    maxJumpHoldTime: real)

  function TuningOf(g: GameSettings): JumpTuning
  {
    JumpTuning(g.jumpForce, g.jumpSpeed, g.fallSpeed, g.coyoteTime, g.maxJumpHoldTime)
  }

  /** The outcome of the input pass: the new state and whether the impulse was applied. */
  datatype InputOutcome = InputOutcome(state: JumpState, impulse: bool)

  /**
   * The outcome of the execution pass: the new state, the new vertical
   * velocity, and whether the hold-acceleration branch was taken.
   */
  datatype TickOutcome = TickOutcome(state: JumpState, vy: real, accelerated: bool)

  /**
   * The input pass.  The eligibility test runs only on a key-down (the
   * `&&` short-circuits): it grants a grounded press and clears the
   * double-jump flag, grants one airborne press when double jump is
   * enabled and the flag is clear (setting it), and refuses otherwise.
   * The coyote counter is never consulted.  A key-up in the same frame
   * leaves `isJumping` false.
   */
  function InputStep(s: JumpState, grounded: bool, enableDoubleJump: bool,
                     jumpDown: bool, jumpUp: bool): (r: InputOutcome)
    ensures r.impulse <==> jumpDown && (grounded || (enableDoubleJump && !s.isDoubleJumping))
    ensures r.state.isJumping <==> !jumpUp && (r.impulse || s.isJumping)
    ensures jumpDown && grounded ==> !r.state.isDoubleJumping
    ensures jumpDown && !grounded && r.impulse ==> r.state.isDoubleJumping
    ensures !(jumpDown && grounded) && !r.impulse ==> r.state.isDoubleJumping == s.isDoubleJumping
    ensures r.state.coyoteTimeCounter == s.coyoteTimeCounter
    ensures r.state.jumpHoldTimeCounter == s.jumpHoldTimeCounter
  {
    var granted := jumpDown && (grounded || (enableDoubleJump && !s.isDoubleJumping));
    var doubleJumping :=
      if !jumpDown then s.isDoubleJumping
      else if grounded then false
      else if granted then true
      else s.isDoubleJumping;
    var jumping := if jumpUp then false else if granted then true else s.isJumping;
    InputOutcome(s.(isJumping := jumping, isDoubleJumping := doubleJumping), granted)
  }

  /**
   * The execution pass.  The coyote counter is refreshed when grounded and
   * otherwise decreases by exactly `dt`, with no floor.  Hold acceleration
   * is taken iff the module is jumping, the refreshed counter is positive
   * and the hold time is below its cap; it adds `jumpSpeed * dt` to vy and
   * `dt` to the hold time.  Otherwise the hold time is reset and vy loses
   * `fallSpeed * dt`.  A grounded body whose new vy is at most 0.1 lands:
   * `isJumping` is cleared and the hold time reset.  The double-jump flag is
   * never touched, so landing does not restore the double jump.
   */
  function TickStep(s: JumpState, t: JumpTuning, grounded: bool, vy: real, dt: real): (r: TickOutcome)
    ensures r.state.coyoteTimeCounter == if grounded then t.coyoteTime else s.coyoteTimeCounter - dt
    ensures r.accelerated <==>
      s.isJumping && r.state.coyoteTimeCounter > 0.0 && s.jumpHoldTimeCounter < t.maxJumpHoldTime
    ensures r.accelerated ==> r.vy == vy + t.jumpSpeed * dt
    ensures !r.accelerated ==> r.vy == vy - t.fallSpeed * dt
    ensures r.state.jumpHoldTimeCounter == 0.0
      || (r.accelerated && r.state.jumpHoldTimeCounter == s.jumpHoldTimeCounter + dt)
    ensures grounded && r.vy <= LandingSpeed ==> !r.state.isJumping && r.state.jumpHoldTimeCounter == 0.0
    ensures !(grounded && r.vy <= LandingSpeed) ==> r.state.isJumping == s.isJumping
    ensures !(grounded && r.vy <= LandingSpeed) && r.accelerated ==>
      r.state.jumpHoldTimeCounter == s.jumpHoldTimeCounter + dt
    ensures r.state.isDoubleJumping == s.isDoubleJumping
  {
    var coyote := if grounded then t.coyoteTime else s.coyoteTimeCounter - dt;
    var accelerate := s.isJumping && coyote > 0.0 && s.jumpHoldTimeCounter < t.maxJumpHoldTime;
    var vy' := if accelerate then vy + t.jumpSpeed * dt else vy - t.fallSpeed * dt;
    var hold := if accelerate then s.jumpHoldTimeCounter + dt else 0.0;
    var landed := grounded && vy' <= LandingSpeed;
    TickOutcome(
      s.(isJumping := if landed then false else s.isJumping,
         coyoteTimeCounter := coyote,
         jumpHoldTimeCounter := if landed then 0.0 else hold),
      vy', accelerate)
  }

  class JumpModule {
    const body: Rigidbody
    const gameSettings: Option<GameSettings>

    var jumpForce: real
    var jumpSpeed: real
    var fallSpeed: real
    var coyoteTime: real
    var maxJumpHoldTime: real

    var coyoteTimeCounter: real
    var jumpHoldTimeCounter: real
    var isJumping: bool
    var isDoubleJumping: bool

    function State(): JumpState
      reads this
    {
      JumpState(isJumping, isDoubleJumping, coyoteTimeCounter, jumpHoldTimeCounter)
    }

    function Tuning(): JumpTuning
      reads this
    {
      JumpTuning(jumpForce, jumpSpeed, fallSpeed, coyoteTime, maxJumpHoldTime)
    }

    constructor (body: Rigidbody, gameSettings: Option<GameSettings>)
      ensures this.body == body && this.gameSettings == gameSettings
      ensures State() == JumpState(false, false, 0.0, 0.0)
      ensures Tuning() == JumpTuning(0.0, 0.0, 0.0, 0.0, 0.0)
    {
      this.body := body;
      this.gameSettings := gameSettings;
      jumpForce, jumpSpeed, fallSpeed, coyoteTime, maxJumpHoldTime := 0.0, 0.0, 0.0, 0.0, 0.0;
      coyoteTimeCounter, jumpHoldTimeCounter := 0.0, 0.0;
      isJumping, isDoubleJumping := false, false;
    }

    /** Copies the jump values; missing settings are reported and nothing is loaded. */
    method LoadGameSettings()
      modifies this
      ensures gameSettings.None? ==> Tuning() == old(Tuning())
      ensures gameSettings.Some? ==> Tuning() == TuningOf(gameSettings.value)
      ensures State() == old(State())
    {
      if gameSettings.None? {
        return;
      }
      var g := gameSettings.value;
      jumpForce := g.jumpForce;
      jumpSpeed := g.jumpSpeed;
      fallSpeed := g.fallSpeed;
      coyoteTime := g.coyoteTime;
      maxJumpHoldTime := g.maxJumpHoldTime;
    }

    /** Reads the primary jump binding only: `jumpAlt` never jumps. */
    method HandleInput(keys: KeyFrame, bindings: InputSettings, grounded: bool, enableDoubleJump: bool)
      modifies this, body
      ensures var o := InputStep(old(State()), grounded, enableDoubleJump,
                                 bindings.jump in keys.pressed, bindings.jump in keys.released);
        && State() == o.state
        && body.vy == old(body.vy) + (if o.impulse then jumpForce / body.mass else 0.0)
      ensures body.vx == old(body.vx)
      ensures Tuning() == old(Tuning())
    {
      var granted := false;
      if bindings.jump in keys.pressed {
        granted := CanJump(grounded, enableDoubleJump);
      }
      if granted {
        isJumping := true;
        body.AddVerticalImpulse(jumpForce);
      }
      if bindings.jump in keys.released {
        isJumping := false;
      }
    }

    /** Jump eligibility, with its side effect on the double-jump flag. */
    method CanJump(grounded: bool, enableDoubleJump: bool) returns (ok: bool)
      modifies this
      ensures ok <==> grounded || (enableDoubleJump && !old(isDoubleJumping))
      ensures grounded ==> !isDoubleJumping
      ensures !grounded && ok ==> isDoubleJumping
      ensures !ok ==> isDoubleJumping == old(isDoubleJumping)
      ensures isJumping == old(isJumping)
      ensures coyoteTimeCounter == old(coyoteTimeCounter)
      ensures jumpHoldTimeCounter == old(jumpHoldTimeCounter)
      ensures Tuning() == old(Tuning())
    {
      if grounded {
        isDoubleJumping := false;
        return true;
      }
      if enableDoubleJump && !isDoubleJumping {
        isDoubleJumping := true;
        return true;
      }
      return false;
    }

    method Execute(grounded: bool, dt: real)
      modifies this, body
      ensures var o := TickStep(old(State()), Tuning(), grounded, old(body.vy), dt);
        State() == o.state && body.vy == o.vy
      ensures body.vx == old(body.vx)
      ensures Tuning() == old(Tuning())
    {
      ghost var o := TickStep(State(), Tuning(), grounded, body.vy, dt);
      HandleCoyoteTime(grounded, dt);
      PerformJump(dt);
      assert body.vy == o.vy && coyoteTimeCounter == o.state.coyoteTimeCounter;
      if grounded && body.vy <= LandingSpeed {
        ResetJumpState();
      }
      assert State() == o.state;
    }

    method HandleCoyoteTime(grounded: bool, dt: real)
      modifies this
      ensures coyoteTimeCounter == if grounded then coyoteTime else old(coyoteTimeCounter) - dt
      ensures isJumping == old(isJumping) && isDoubleJumping == old(isDoubleJumping)
      ensures jumpHoldTimeCounter == old(jumpHoldTimeCounter)
      ensures Tuning() == old(Tuning())
    {
      if grounded {
        coyoteTimeCounter := coyoteTime;
      } else {
        coyoteTimeCounter := coyoteTimeCounter - dt;
      }
    }

    method PerformJump(dt: real)
      modifies this, body
      ensures var accelerate := isJumping && coyoteTimeCounter > 0.0 && old(jumpHoldTimeCounter) < maxJumpHoldTime;
        && (accelerate ==> body.vy == old(body.vy) + jumpSpeed * dt
                           && jumpHoldTimeCounter == old(jumpHoldTimeCounter) + dt)
        && (!accelerate ==> body.vy == old(body.vy) - fallSpeed * dt && jumpHoldTimeCounter == 0.0)
      ensures body.vx == old(body.vx)
      ensures isJumping == old(isJumping) && isDoubleJumping == old(isDoubleJumping)
      ensures coyoteTimeCounter == old(coyoteTimeCounter)
      ensures Tuning() == old(Tuning())
    {
      if isJumping && coyoteTimeCounter > 0.0 && jumpHoldTimeCounter < maxJumpHoldTime {
        body.vy := body.vy + jumpSpeed * dt;
        jumpHoldTimeCounter := jumpHoldTimeCounter + dt;
      } else {
        jumpHoldTimeCounter := 0.0;
        body.vy := body.vy - fallSpeed * dt;
      }
    }

    /** Never touches the double-jump flag or the coyote counter. */
    method ResetJumpState()
      modifies this
      ensures !isJumping && jumpHoldTimeCounter == 0.0
      ensures isDoubleJumping == old(isDoubleJumping)
      ensures coyoteTimeCounter == old(coyoteTimeCounter)
      ensures Tuning() == old(Tuning())
    {
      isJumping := false;
      jumpHoldTimeCounter := 0.0;
    }

    method OnEnter()
      modifies this
      ensures State() == old(State()).(isJumping := false, jumpHoldTimeCounter := 0.0)
      ensures Tuning() == old(Tuning())
    {
      ResetJumpState();
    }

    method OnExit()
      modifies this
      ensures State() == old(State()).(isJumping := false, jumpHoldTimeCounter := 0.0)
      ensures Tuning() == old(Tuning())
    {
      ResetJumpState();
    }
  }
}

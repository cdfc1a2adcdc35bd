/**
 * Properties of the jump module over many frames.  A run interleaves
 * input frames (the `HandleInput` pass, with the controller's grounded
 * flag of that frame and the jump key's down/up edges) and physics ticks
 * (the `Execute` pass, with the grounded flag and `dt`), in any order,
 * as the engine's two callbacks interleave them.
 */
module JumpRuns {

  import opened Movement

  datatype JumpEvent =
    | Frame(grounded: bool, jumpDown: bool, jumpUp: bool)
    | Tick(grounded: bool, dt: real)

  /**
   * The jump module's state and the body's vertical velocity, with two
   * tallies: the number of granted presses and the total time spent in
   * hold acceleration.
   */
  datatype Run = Run(state: JumpState, vy: real, jumps: nat, holdTime: real)

  /** One event; `impulse` is the velocity change of a granted press (`jumpForce / mass`). */
  function Step(r: Run, e: JumpEvent, t: JumpTuning, impulse: real, enableDoubleJump: bool): Run
  {
    match e
    case Frame(grounded, down, up) =>
      var o := InputStep(r.state, grounded, enableDoubleJump, down, up);
      Run(o.state, r.vy + (if o.impulse then impulse else 0.0),
          r.jumps + (if o.impulse then 1 else 0), r.holdTime)
    case Tick(grounded, dt) =>
      var o := TickStep(r.state, t, grounded, r.vy, dt);
      Run(o.state, o.vy, r.jumps, r.holdTime + (if o.accelerated then dt else 0.0))
  }

  function Replay(r: Run, es: seq<JumpEvent>, t: JumpTuning, impulse: real, enableDoubleJump: bool): Run
    decreases |es|
  {
    if es == [] then r else Replay(Step(r, es[0], t, impulse, enableDoubleJump), es[1..], t, impulse, enableDoubleJump)
  }

  predicate Airborne(es: seq<JumpEvent>)
  {
    forall i :: 0 <= i < |es| ==> !es[i].grounded
  }

  /** The total `dt` of the ticks in `es`. */
  function TickTime(es: seq<JumpEvent>): real
    decreases |es|
  {
    if es == [] then 0.0 else (if es[0].Tick? then es[0].dt else 0.0) + TickTime(es[1..])
  }

  predicate NonNegativeTicks(es: seq<JumpEvent>)
  {
    forall i :: 0 <= i < |es| && es[i].Tick? ==> es[i].dt >= 0.0
  }

  function Max0(x: real): real
  {
    if x > 0.0 then x else 0.0
  }

  /** The number of presses still available while airborne. */
  function AirJumpsLeft(s: JumpState, enableDoubleJump: bool): nat
  {
    if enableDoubleJump && !s.isDoubleJumping then 1 else 0
  }

  /**
   * Double jump fires at most once per airborne stretch: while the body is
   * airborne throughout, at most one press is granted, and none when double
   * jump is disabled or already used.  Landing ticks do not renew it.
   */
  lemma {:induction false} AirborneJumpsAtMostOnce(r: Run, es: seq<JumpEvent>, t: JumpTuning,
                                                   impulse: real, enableDoubleJump: bool)
    requires Airborne(es)
    ensures Replay(r, es, t, impulse, enableDoubleJump).jumps <= r.jumps + AirJumpsLeft(r.state, enableDoubleJump)
    decreases |es|
  {
    if es != [] {
      var r' := Step(r, es[0], t, impulse, enableDoubleJump);
      assert r'.jumps + AirJumpsLeft(r'.state, enableDoubleJump) <= r.jumps + AirJumpsLeft(r.state, enableDoubleJump);
      assert Airborne(es[1..]) by {
        forall i | 0 <= i < |es[1..]| ensures !es[1..][i].grounded {
          assert es[1..][i] == es[i + 1];
        }
      }
      AirborneJumpsAtMostOnce(r', es[1..], t, impulse, enableDoubleJump);
    }
  }

  /**
   * While airborne the coyote counter decreases by exactly the elapsed tick
   * time, with no floor: after a long enough fall it is negative.
   */
  lemma {:induction false} AirborneCoyoteDecay(r: Run, es: seq<JumpEvent>, t: JumpTuning,
                                               impulse: real, enableDoubleJump: bool)
    requires Airborne(es)
    ensures Replay(r, es, t, impulse, enableDoubleJump).state.coyoteTimeCounter
            == r.state.coyoteTimeCounter - TickTime(es)
    decreases |es|
  {
    if es != [] {
      var r' := Step(r, es[0], t, impulse, enableDoubleJump);
      assert Airborne(es[1..]) by {
        forall i | 0 <= i < |es[1..]| ensures !es[1..][i].grounded {
          assert es[1..][i] == es[i + 1];
        }
      }
      AirborneCoyoteDecay(r', es[1..], t, impulse, enableDoubleJump);
    }
  }

  /**
   * Because hold acceleration is gated by the coyote counter, the hold time
   * grows over an airborne stretch by at most the counter held when it
   * began, whatever `maxJumpHoldTime` is.  A grounded tick sets that counter
   * to `coyoteTime`, so with the default settings a held jump accelerates
   * for at most 0.1 s after leaving the ground, not 0.3 s.
   */
  lemma {:induction false} AirborneHoldTimeWithinCoyote(r: Run, es: seq<JumpEvent>, t: JumpTuning,
                                                        impulse: real, enableDoubleJump: bool)
    requires Airborne(es) && NonNegativeTicks(es)
    ensures Replay(r, es, t, impulse, enableDoubleJump).holdTime <= r.holdTime + Max0(r.state.coyoteTimeCounter)
    decreases |es|
  {
    if es != [] {
      var r' := Step(r, es[0], t, impulse, enableDoubleJump);
      assert r'.holdTime + Max0(r'.state.coyoteTimeCounter) <= r.holdTime + Max0(r.state.coyoteTimeCounter);
      assert Airborne(es[1..]) && NonNegativeTicks(es[1..]) by {
        forall i | 0 <= i < |es[1..]| ensures es[1..][i] == es[i + 1] { }
      }
      AirborneHoldTimeWithinCoyote(r', es[1..], t, impulse, enableDoubleJump);
    }
  }

  /**
   * The hold timer stays within one tick of its cap: with every tick's `dt`
   * in (0, dtMax], a hold time that starts in [0, maxJumpHoldTime + dtMax]
   * stays there.  It can pass the cap itself by up to one tick (see
   * `HoldCanPassCap`).
   */
  lemma {:induction false} HoldWithinCapPlusTick(r: Run, es: seq<JumpEvent>, t: JumpTuning,
                                                 impulse: real, enableDoubleJump: bool, dtMax: real)
    requires forall i :: 0 <= i < |es| && es[i].Tick? ==> 0.0 < es[i].dt <= dtMax
    requires 0.0 <= r.state.jumpHoldTimeCounter <= t.maxJumpHoldTime + dtMax
    ensures var h := Replay(r, es, t, impulse, enableDoubleJump).state.jumpHoldTimeCounter;
      0.0 <= h <= t.maxJumpHoldTime + dtMax
    decreases |es|
  {
    if es != [] {
      var r' := Step(r, es[0], t, impulse, enableDoubleJump);
      forall i | 0 <= i < |es[1..]| && es[1..][i].Tick?
        ensures 0.0 < es[1..][i].dt <= dtMax
      {
        assert es[1..][i] == es[i + 1];
      }
      HoldWithinCapPlusTick(r', es[1..], t, impulse, enableDoubleJump, dtMax);
    }
  }

  /** A grounded press is granted before the double-jump flag is looked at. */
  predicate HasGroundedPress(es: seq<JumpEvent>)
  {
    exists i :: 0 <= i < |es| && es[i].Frame? && es[i].grounded && es[i].jumpDown
  }

  /**
   * Only a grounded press clears the double-jump flag: a run that ends with
   * the flag clear after starting with it set contains one.  Landing alone
   * does not give the double jump back.
   */
  lemma {:induction false} DoubleJumpClearedOnlyByGroundedPress(r: Run, es: seq<JumpEvent>, t: JumpTuning,
                                                                impulse: real, enableDoubleJump: bool)
    requires r.state.isDoubleJumping
    requires !Replay(r, es, t, impulse, enableDoubleJump).state.isDoubleJumping
    ensures HasGroundedPress(es)
    decreases |es|
  {
    var e := es[0];
    var r' := Step(r, e, t, impulse, enableDoubleJump);
    if e.Frame? && e.grounded && e.jumpDown {
      assert HasGroundedPress(es) by { assert es[0] == e; }
    } else {
      DoubleJumpClearedOnlyByGroundedPress(r', es[1..], t, impulse, enableDoubleJump);
      var i :| 0 <= i < |es[1..]| && es[1..][i].Frame? && es[1..][i].grounded && es[1..][i].jumpDown;
      assert es[i + 1] == es[1..][i];
    }
  }

  /**
   * The hold timer can end above the cap: jumping, grounded, hold 0.28 s,
   * cap 0.3 s and a 0.04 s tick give a hold time of 0.32 s.
   */
  lemma HoldCanPassCap()
    ensures var t := JumpTuning(9.8, 9.8, 9.8, 0.1, 0.3);
      var o := TickStep(JumpState(true, false, 0.1, 0.28), t, true, 5.0, 0.04);
      o.accelerated && o.state.jumpHoldTimeCounter > t.maxJumpHoldTime
  {
  }
}

/**
 * The respawn sequence of Assets/Scripts/Player/PlayerRespawn.cs: a guard
 * against re-entry, then control off and velocity zeroed, then (after the
 * engine's delayed call, which the caller makes here by calling
 * `PerformRespawn`) a teleport, a spell of invulnerability and control back
 * on; the per-frame update counts the invulnerability down.
 */
module Respawn {

  import opened Wrappers
  import opened Engine
  import Controller

  const HazardTag: string := "Hazard"

  /** A level manager reduced to its optional start point (Assets/Scripts/Level/LevelManager.cs). */
  datatype LevelManager = LevelManager(startPoint: Option<Vec3>)

  /** `LevelManager.GetRespawnPosition`: the start point, or the origin when there is none. */
  function LevelRespawnPosition(lm: LevelManager): (p: Vec3)
    ensures lm.startPoint.Some? ==> p == lm.startPoint.value
    ensures lm.startPoint.None? ==> p == Vec3(0.0, 0.0, 0.0)
  {
    match lm.startPoint
    case Some(sp) => sp
    case None => Vec3(0.0, 0.0, 0.0)
  }

  /** The invulnerability flag and timer after one frame of `Update`. */
  datatype Invulnerability = Invulnerability(active: bool, timer: real)

  function InvulnerabilityTick(v: Invulnerability, dt: real): (r: Invulnerability)
    ensures !v.active ==> r == v
    ensures v.active ==> r.timer == v.timer - dt && (r.active <==> r.timer > 0.0)
  {
    if !v.active then v
    else
      var timer := v.timer - dt;
      Invulnerability(timer > 0.0, timer)
  }

  function InvulnerabilityRun(v: Invulnerability, dts: seq<real>): Invulnerability
    decreases |dts|
  {
    if dts == [] then v else InvulnerabilityRun(InvulnerabilityTick(v, dts[0]), dts[1..])
  }

  function Sum(dts: seq<real>): real
    decreases |dts|
  {
    if dts == [] then 0.0 else dts[0] + Sum(dts[1..])
  }

  lemma {:induction false} SumNonNegative(dts: seq<real>)
    requires forall i :: 0 <= i < |dts| ==> dts[i] >= 0.0
    ensures Sum(dts) >= 0.0
    decreases |dts|
  {
    if dts != [] {
      SumNonNegative(dts[1..]);
    }
  }

  lemma {:induction false} InactiveStaysInactive(v: Invulnerability, dts: seq<real>)
    requires !v.active
    ensures InvulnerabilityRun(v, dts) == v
    decreases |dts|
  {
    if dts != [] {
      InactiveStaysInactive(v, dts[1..]);
    }
  }

  /**
   * With non-negative frame times, invulnerability that is active at the
   * start with time left on its timer is still active after a sequence of frames exactly when their
   * total time is below the timer, and then the timer has run down by that
   * total.
   */
  lemma {:induction false} InvulnerabilityLastsItsTime(v: Invulnerability, dts: seq<real>)
    requires v.active && v.timer > 0.0
    requires forall i :: 0 <= i < |dts| ==> dts[i] >= 0.0
    ensures InvulnerabilityRun(v, dts).active <==> Sum(dts) < v.timer
    ensures InvulnerabilityRun(v, dts).active ==> InvulnerabilityRun(v, dts).timer == v.timer - Sum(dts)
    decreases |dts|
  {
    if dts != [] {
      var v' := InvulnerabilityTick(v, dts[0]);
      assert Sum(dts) == dts[0] + Sum(dts[1..]);
      assert InvulnerabilityRun(v, dts) == InvulnerabilityRun(v', dts[1..]);
      if v'.active {
        InvulnerabilityLastsItsTime(v', dts[1..]);
      } else {
        InactiveStaysInactive(v', dts[1..]);
        SumNonNegative(dts[1..]);
      }
    }
  }

  class PlayerRespawn {
    const respawnDelay: real
    const invulnerabilityTime: real
    const rb: Rigidbody?
    const playerController: Controller.PlayerController?
    const transform: Transform

    var isRespawning: bool
    var isInvulnerable: bool
    var invulnerabilityTimer: real

    /** The objects a respawn may change. */
    ghost function Footprint(): set<object>
    {
      {this} + (if rb != null then {rb} else {}) + (if playerController != null then {playerController} else {})
    }

    /**
     * The rigid body and the controller are components of the same object.
     * It reads only constant fields, so no method can falsify it.
     */
    ghost predicate Valid()
    {
      playerController != null ==> rb == playerController.body
    }

    /** `Awake`, with the serialized defaults 0.5 s and 1.5 s unless the scene overrides them. */
    constructor (respawnDelay: real, invulnerabilityTime: real, rb: Rigidbody?,
                 playerController: Controller.PlayerController?, transform: Transform)
      requires playerController != null ==> rb == playerController.body
      ensures Valid()
      ensures this.respawnDelay == respawnDelay && this.invulnerabilityTime == invulnerabilityTime
      ensures this.rb == rb && this.playerController == playerController && this.transform == transform
      ensures !isRespawning && !isInvulnerable && invulnerabilityTimer == 0.0
    {
      this.respawnDelay := respawnDelay;
      this.invulnerabilityTime := invulnerabilityTime;
      this.rb := rb;
      this.playerController := playerController;
      this.transform := transform;
      isRespawning, isInvulnerable, invulnerabilityTimer := false, false, 0.0;
    }

    /** Counts the invulnerability down and ends it once the timer reaches zero. */
    method Update(dt: real)
      modifies this
      ensures Invulnerability(isInvulnerable, invulnerabilityTimer)
              == InvulnerabilityTick(Invulnerability(old(isInvulnerable), old(invulnerabilityTimer)), dt)
      ensures isRespawning == old(isRespawning)
    {
      if isInvulnerable {
        invulnerabilityTimer := invulnerabilityTimer - dt;
        if invulnerabilityTimer <= 0.0 {
          EndInvulnerability();
        }
      }
    }

    /**
     * What `Respawn` does when no respawn is under way: it marks one,
     * turns control off and stops the body (both components), and leaves
     * invulnerability and the controller's other state alone.
     */
    twostate predicate StartedRespawn()
      reads this, rb, playerController
    {
      && isRespawning
      && isInvulnerable == old(isInvulnerable) && invulnerabilityTimer == old(invulnerabilityTimer)
      && (rb != null ==> rb.vx == 0.0 && rb.vy == 0.0)
      && (playerController != null ==>
            && !playerController.ControlEnabled
            && playerController.IsGrounded == old(playerController.IsGrounded)
            && playerController.IsCollideWall == old(playerController.IsCollideWall)
            && playerController.CurrentAnimState == old(playerController.CurrentAnimState))
    }

    /**
     * A no-op while a respawn is under way.  Otherwise the respawn starts;
     * the engine would then call `PerformRespawn` after `respawnDelay`.
     */
    method Respawn()
      requires Valid()
      ensures Valid()
      modifies Footprint()
      ensures old(isRespawning) ==> unchanged(Footprint())
      ensures !old(isRespawning) ==> StartedRespawn()
    {
      if isRespawning {
        return;
      }
      isRespawning := true;
      if playerController != null {
        playerController.SetControlEnabled(false);
      }
      if rb != null {
        rb.vx, rb.vy := 0.0, 0.0;
      }
    }

    /** The level manager's respawn position when there is a level manager, else the current position. */
    function FindRespawnPosition(levelManager: Option<LevelManager>): (p: Vec3)
      reads transform
      ensures levelManager.Some? ==> p == LevelRespawnPosition(levelManager.value)
      ensures levelManager.None? ==> p == transform.position
    {
      match levelManager
      case Some(lm) => LevelRespawnPosition(lm)
      case None => transform.position
    }

    /**
     * The delayed half of the sequence: teleport, start invulnerability for
     * `invulnerabilityTime`, control back on, and the respawn is over.
     */
    method PerformRespawn(levelManager: Option<LevelManager>)
      requires Valid()
      ensures Valid()
      modifies this, transform, playerController, rb
      ensures transform.position == old(FindRespawnPosition(levelManager))
      ensures transform.scaleX == old(transform.scaleX)
      ensures isInvulnerable && invulnerabilityTimer == invulnerabilityTime
      ensures !isRespawning
      ensures playerController != null ==>
        && playerController.ControlEnabled
        && playerController.IsGrounded == old(playerController.IsGrounded)
        && playerController.IsCollideWall == old(playerController.IsCollideWall)
        && playerController.CurrentAnimState == old(playerController.CurrentAnimState)
      ensures rb != null ==> rb.vx == old(rb.vx) && rb.vy == old(rb.vy)
    {
      var respawnPosition := FindRespawnPosition(levelManager);
      transform.position := respawnPosition;
      StartInvulnerability();
      if playerController != null {
        playerController.SetControlEnabled(true);
      }
      isRespawning := false;
    }

    method StartInvulnerability()
      modifies this
      ensures isInvulnerable && invulnerabilityTimer == invulnerabilityTime
      ensures isRespawning == old(isRespawning)
    {
      isInvulnerable := true;
      invulnerabilityTimer := invulnerabilityTime;
    }

    method EndInvulnerability()
      modifies this
      ensures !isInvulnerable
      ensures isRespawning == old(isRespawning) && invulnerabilityTimer == old(invulnerabilityTimer)
    {
      isInvulnerable := false;
    }

    /** A hazard-tagged trigger starts a respawn; invulnerability is not checked here. */
    method OnTriggerEnter2D(otherTag: string)
      requires Valid()
      ensures Valid()
      modifies Footprint()
      ensures otherTag != HazardTag || old(isRespawning) ==> unchanged(Footprint())
      ensures otherTag == HazardTag && !old(isRespawning) ==> StartedRespawn()
    {
      if otherTag == HazardTag {
        Respawn();
      }
    }

    /** A hazard-tagged collision starts a respawn; invulnerability is not checked here. */
    method OnCollisionEnter2D(otherTag: string)
      requires Valid()
      ensures Valid()
      modifies Footprint()
      ensures otherTag != HazardTag || old(isRespawning) ==> unchanged(Footprint())
      ensures otherTag == HazardTag && !old(isRespawning) ==> StartedRespawn()
    {
      if otherTag == HazardTag {
        Respawn();
      }
    }

    /** A placeholder for checkpoints: it changes nothing. */
    method SetRespawnPoint(position: Vec3)
      ensures unchanged(this)
    {
    }
  }
}

/**
 * The contact sensor of Assets/Scripts/Player/CollisionCheck.cs: one
 * boolean, set when a collider tagged "Platform" enters the trigger and
 * cleared when one leaves it.  There is no counting of overlaps.
 */
module Sensor {

  const PlatformTag: string := "Platform"

  /** A trigger notification delivered by the physics engine, with the other collider's tag. */
  datatype Contact = Enter(tag: string) | Exit(tag: string)

  /** The flag after one notification. */
  function SensorStep(colliding: bool, c: Contact): (r: bool)
    ensures c.tag == PlatformTag ==> r == c.Enter?
    ensures c.tag != PlatformTag ==> r == colliding
  {
    match c
    case Enter(tag) => if tag == PlatformTag then true else colliding
    case Exit(tag) => if tag == PlatformTag then false else colliding
  }

  /** The flag after a sequence of notifications, oldest first. */
  function Replay(colliding: bool, cs: seq<Contact>): bool
    decreases |cs|
  {
    if cs == [] then colliding else Replay(SensorStep(colliding, cs[0]), cs[1..])
  }

  /** Whether some notification in `cs` carries the Platform tag. */
  predicate HasPlatformContact(cs: seq<Contact>)
  {
    exists i :: 0 <= i < |cs| && cs[i].tag == PlatformTag
  }

  /** The index of the last Platform-tagged notification in `cs`. */
  function LastPlatformContact(cs: seq<Contact>): (i: nat)
    requires HasPlatformContact(cs)
    ensures i < |cs| && cs[i].tag == PlatformTag
    ensures forall j :: i < j < |cs| ==> cs[j].tag != PlatformTag
  {
    var k := |cs| - 1;
    if cs[k].tag == PlatformTag then k
    else
      assert HasPlatformContact(cs[..k]) by {
        var i :| 0 <= i < |cs| && cs[i].tag == PlatformTag;
        assert i < k && cs[..k][i] == cs[i];
      }
      LastPlatformContact(cs[..k])
  }

  /**
   * A saturating boolean, not a counter: after any sequence of
   * notifications the flag is what the last Platform-tagged notification
   * made it (true for an enter, false for an exit), and the starting value
   * when there was none.  Notifications for other tags never matter.
   */
  lemma {:induction false} ReplayFollowsLastPlatformContact(colliding: bool, cs: seq<Contact>)
    ensures !HasPlatformContact(cs) ==> Replay(colliding, cs) == colliding
    ensures HasPlatformContact(cs) ==> Replay(colliding, cs) == cs[LastPlatformContact(cs)].Enter?
    decreases |cs|
  {
    if cs != [] {
      var rest := cs[1..];
      ReplayFollowsLastPlatformContact(SensorStep(colliding, cs[0]), rest);
      if HasPlatformContact(rest) {
        var i := LastPlatformContact(rest);
        assert cs[i + 1] == rest[i];
        forall k | i + 1 < k < |cs|
          ensures cs[k].tag != PlatformTag
        {
          assert cs[k] == rest[k - 1];
        }
        assert LastPlatformContact(cs) == i + 1;
      } else {
        forall k | 0 < k < |cs|
          ensures cs[k].tag != PlatformTag
        {
          assert cs[k] == rest[k - 1];
        }
        if cs[0].tag == PlatformTag {
          assert LastPlatformContact(cs) == 0;
        }
      }
    }
  }

  /**
   * Two Platform colliders enter and one of them leaves: the flag reads
   * false although one platform still overlaps the trigger.
   */
  lemma ExitClearsDespiteRemainingOverlap()
    ensures Replay(false, [Enter(PlatformTag), Enter(PlatformTag), Exit(PlatformTag)]) == false
  {
    var cs := [Enter(PlatformTag), Enter(PlatformTag), Exit(PlatformTag)];
    calc {
      Replay(false, cs);
      Replay(true, cs[1..]);
      { assert cs[1..][1..] == [Exit(PlatformTag)]; }
      Replay(true, [Exit(PlatformTag)]);
      { assert [Exit(PlatformTag)][1..] == []; }
      Replay(false, []);
    }
  }

  /** The sensor component. */
  class CollisionCheck {
    var isColliding: bool

    constructor ()
      ensures !isColliding
    {
      isColliding := false;
    }

    method OnTriggerEnter2D(tag: string)
      modifies this
      ensures isColliding == SensorStep(old(isColliding), Enter(tag))
    {
      if tag == PlatformTag {
        isColliding := true;
      }
    }

    method OnTriggerExit2D(tag: string)
      modifies this
      ensures isColliding == SensorStep(old(isColliding), Exit(tag))
    {
      if tag == PlatformTag {
        isColliding := false;
      }
    }
  }
}

/**
 * The key-binding table of Assets/Scripts/Core/InputManager.cs: lookups
 * over the bindings record, a case-insensitive remap of seven named
 * actions with a no-op for unknown names, and a reset to fixed defaults.
 */
module Input {

  import Wrappers
  import opened Engine
  import opened Config
  import opened Movement

  /** The bindings `ResetToDefaultKeys` writes: A/D primary and the arrow keys alternate. */
  const ResetBindings :=
    InputSettings(A, D, LeftArrow, RightArrow, Space, W, E, Escape, LeftShift, Q, R)

  /** The action names `RemapKey` and `GetKeyForAction` recognise, in lower case. */
  const ActionNames: set<string> :=
    {"moveleft", "moveright", "jump", "interact", "ability1", "ability2", "ability3"}

  function LowerChar(c: char): char
  {
    if 'A' <= c <= 'Z' then (c as int - 'A' as int + 'a' as int) as char else c
  }

  /** `string.ToLower`, for the ASCII letters. */
  function ToLower(s: string): (r: string)
    ensures |r| == |s|
    ensures forall i :: 0 <= i < |s| ==> r[i] == LowerChar(s[i])
    decreases |s|
  {
    if s == [] then [] else [LowerChar(s[0])] + ToLower(s[1..])
  }

  /** Lower-casing twice is lower-casing once. */
  lemma ToLowerIdempotent(s: string)
    ensures ToLower(ToLower(s)) == ToLower(s)
  {
    var l := ToLower(s);
    assert forall i :: 0 <= i < |l| ==> ToLower(l)[i] == l[i];
  }

  /** Whether `key` is either of the two left bindings. */
  predicate IsMoveLeftKey(s: InputSettings, key: KeyCode)
  {
    key == s.moveLeft || key == s.moveLeftAlt
  }

  /** Whether `key` is either of the two right bindings. */
  predicate IsMoveRightKey(s: InputSettings, key: KeyCode)
  {
    key == s.moveRight || key == s.moveRightAlt
  }

  /** Whether `key` is either of the two jump bindings. */
  predicate IsJumpKey(s: InputSettings, key: KeyCode)
  {
    key == s.jump || key == s.jumpAlt
  }

  /** The seven actions that can be looked up and remapped by name. */
  datatype Action = MoveLeft | MoveRight | Jump | Interact | Ability1 | Ability2 | Ability3

  /** The lower-case name of an action. */
  function ActionName(a: Action): (n: string)
    ensures n in ActionNames
  {
    match a
    case MoveLeft => "moveleft"
    case MoveRight => "moveright"
    case Jump => "jump"
    case Interact => "interact"
    case Ability1 => "ability1"
    case Ability2 => "ability2"
    case Ability3 => "ability3"
  }

  /** The action a lower-cased name selects, if any. */
  function ActionNamed(lowered: string): (r: Wrappers.Option<Action>)
    ensures r.Some? <==> lowered in ActionNames
    ensures r.Some? ==> ActionName(r.value) == lowered
  {
    match lowered
    case "moveleft" => Wrappers.Some(MoveLeft)
    case "moveright" => Wrappers.Some(MoveRight)
    case "jump" => Wrappers.Some(Jump)
    case "interact" => Wrappers.Some(Interact)
    case "ability1" => Wrappers.Some(Ability1)
    case "ability2" => Wrappers.Some(Ability2)
    case "ability3" => Wrappers.Some(Ability3)
    case _ => Wrappers.None
  }

  /** Every action's name selects that action again. */
  lemma NameSelectsAction(a: Action)
    ensures ActionNamed(ActionName(a)) == Wrappers.Some(a)
  {
  }

  /** The binding field of an action. */
  function Binding(s: InputSettings, a: Action): KeyCode
  {
    match a
    case MoveLeft => s.moveLeft
    case MoveRight => s.moveRight
    case Jump => s.jump
    case Interact => s.interact
    case Ability1 => s.ability1
    case Ability2 => s.ability2
    case Ability3 => s.ability3
  }

  /** The bindings with the field of `a` set to `k`. */
  function Rebind(s: InputSettings, a: Action, k: KeyCode): (r: InputSettings)
    ensures Binding(r, a) == k
    ensures forall b :: b != a ==> Binding(r, b) == Binding(s, b)
    ensures r.moveLeftAlt == s.moveLeftAlt && r.moveRightAlt == s.moveRightAlt
    ensures r.jumpAlt == s.jumpAlt && r.pause == s.pause
  {
    match a
    case MoveLeft => s.(moveLeft := k)
    case MoveRight => s.(moveRight := k)
    case Jump => s.(jump := k)
    case Interact => s.(interact := k)
    case Ability1 => s.(ability1 := k)
    case Ability2 => s.(ability2 := k)
    case Ability3 => s.(ability3 := k)
  }

  /**
   * The binding of a named action, matched case-insensitively; `None` for
   * every other name, "pause" and the alternates included.
   */
  function GetKeyForAction(s: InputSettings, actionName: string): (k: KeyCode)
    ensures ToLower(actionName) !in ActionNames ==> k == None
    ensures forall a :: ToLower(actionName) == ActionName(a) ==> k == Binding(s, a)
  {
    match ActionNamed(ToLower(actionName))
    case Some(a) => Binding(s, a)
    case None => KeyCode.None
  }

  /**
   * The bindings after `RemapKey`: the one field the name selects (case
   * insensitively) takes the new key and every other field is kept; an
   * unknown name changes nothing.  The alternates and pause are never
   * selected.
   */
  function Remapped(s: InputSettings, actionName: string, newKey: KeyCode): (r: InputSettings)
    ensures ToLower(actionName) !in ActionNames ==> r == s
    ensures r.moveLeftAlt == s.moveLeftAlt && r.moveRightAlt == s.moveRightAlt
    ensures r.jumpAlt == s.jumpAlt && r.pause == s.pause
    ensures forall a :: Binding(r, a) == if ToLower(actionName) == ActionName(a) then newKey else Binding(s, a)
  {
    match ActionNamed(ToLower(actionName))
    case Some(a) => Rebind(s, a, newKey)
    case None => s
  }

  /** Names that differ only in the case of ASCII letters select the same binding. */
  lemma GetKeyForActionIgnoresCase(s: InputSettings, a: string, b: string)
    requires ToLower(a) == ToLower(b)
    ensures GetKeyForAction(s, a) == GetKeyForAction(s, b)
  {
  }

  /**
   * A remap followed by a lookup of the same name, in the same or in lower
   * case, gives the new key back; a lookup of any other known name gives
   * what it gave before.
   */
  lemma {:induction false} RemapThenLookup(s: InputSettings, actionName: string, newKey: KeyCode, other: string)
    requires ToLower(actionName) in ActionNames
    ensures GetKeyForAction(Remapped(s, actionName, newKey), actionName) == newKey
    ensures GetKeyForAction(Remapped(s, actionName, newKey), ToLower(actionName)) == newKey
    ensures ToLower(other) != ToLower(actionName)
            ==> GetKeyForAction(Remapped(s, actionName, newKey), other) == GetKeyForAction(s, other)
  {
    var a := ActionNamed(ToLower(actionName)).value;
    ToLowerIdempotent(actionName);
    if ToLower(other) in ActionNames {
      var b := ActionNamed(ToLower(other)).value;
      assert ToLower(other) == ActionName(b);
    }
  }

  /**
   * A key remapped under a name that lower-cases to "moveleft", "moveright"
   * or "jump" is recognised by the matching query, and a remap never stops
   * the alternate keys from being recognised.
   */
  lemma RemappedKeysAreRecognised(s: InputSettings, actionName: string, k: KeyCode)
    ensures ToLower(actionName) == "moveleft" ==> IsMoveLeftKey(Remapped(s, actionName, k), k)
    ensures ToLower(actionName) == "moveright" ==> IsMoveRightKey(Remapped(s, actionName, k), k)
    ensures ToLower(actionName) == "jump" ==> IsJumpKey(Remapped(s, actionName, k), k)
    ensures IsMoveLeftKey(Remapped(s, actionName, k), s.moveLeftAlt)
    ensures IsMoveRightKey(Remapped(s, actionName, k), s.moveRightAlt)
    ensures IsJumpKey(Remapped(s, actionName, k), s.jumpAlt)
  {
    assert Binding(Remapped(s, actionName, k), MoveLeft) == Remapped(s, actionName, k).moveLeft;
    assert Binding(Remapped(s, actionName, k), MoveRight) == Remapped(s, actionName, k).moveRight;
    assert Binding(Remapped(s, actionName, k), Jump) == Remapped(s, actionName, k).jump;
  }

  /**
   * The alternate keys are recognised by the queries, yet holding the
   * alternate left key alone moves nothing and pressing the alternate jump
   * key alone never jumps: movement and the jump read the primary bindings.
   */
  lemma AlternateKeysAreIgnoredByMovement(s: InputSettings, st: JumpState, grounded: bool, enableDoubleJump: bool)
    requires s.moveLeftAlt != s.moveLeft && s.moveLeftAlt != s.moveRight
    requires s.moveRightAlt != s.moveLeft && s.moveRightAlt != s.moveRight
    requires s.jumpAlt != s.jump
    ensures IsMoveLeftKey(s, s.moveLeftAlt) && HorizontalIntent(KeyFrame({s.moveLeftAlt}, {}, {}), s) == 0.0
    ensures IsMoveRightKey(s, s.moveRightAlt) && HorizontalIntent(KeyFrame({s.moveRightAlt}, {}, {}), s) == 0.0
    ensures IsJumpKey(s, s.jumpAlt)
    ensures var keys := KeyFrame({s.jumpAlt}, {s.jumpAlt}, {});
      !InputStep(st, grounded, enableDoubleJump, s.jump in keys.pressed, s.jump in keys.released).impulse
  {
  }

  /** The input manager holds its bindings record and updates it in place. */
  class InputManager {
    var inputSettings: InputSettings

    constructor (inputSettings: InputSettings)
      ensures this.inputSettings == inputSettings
    {
      this.inputSettings := inputSettings;
    }

    method RemapKey(actionName: string, newKey: KeyCode)
      modifies this
      ensures inputSettings == Remapped(old(inputSettings), actionName, newKey)
    {
      match ToLower(actionName) {
        case "moveleft" => inputSettings := inputSettings.(moveLeft := newKey);
        case "moveright" => inputSettings := inputSettings.(moveRight := newKey);
        case "jump" => inputSettings := inputSettings.(jump := newKey);
        case "interact" => inputSettings := inputSettings.(interact := newKey);
        case "ability1" => inputSettings := inputSettings.(ability1 := newKey);
        case "ability2" => inputSettings := inputSettings.(ability2 := newKey);
        case "ability3" => inputSettings := inputSettings.(ability3 := newKey);
        case _ =>
      }
    }

    /** Sets all eleven bindings to the reset defaults; a second call changes nothing. */
    method ResetToDefaultKeys()
      modifies this
      ensures inputSettings == ResetBindings
      ensures inputSettings != DefaultInputSettings
    {
      inputSettings := ResetBindings;
    }
  }
}

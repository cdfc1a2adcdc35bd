/**
 * The game-state machine of Assets/Scripts/Core/GameManager.cs.  Unity's
 * global `Time.timeScale`, the `OnStateChanged` listeners and the scene
 * loader are modelled as fields of the manager that record what was set,
 * announced and requested.
 */
module Game {

  import Save

  datatype GameState = MainMenu | Playing | Paused | Dialogue

  /** The time scale after entering `s`: frozen while paused or in dialogue, normal while playing, untouched on the main menu. */
  function TimeScaleAfter(s: GameState, current: real): (r: real)
    ensures s.Playing? ==> r == 1.0
    ensures s.Paused? || s.Dialogue? ==> r == 0.0
    ensures s.MainMenu? ==> r == current
  {
    match s
    case Paused => 0.0
    case Playing => 1.0
    case Dialogue => 0.0
    case MainMenu => current
  }

  /** The time scale after entering each state of `states` in turn. */
  function TimeScaleAfterAll(states: seq<GameState>, current: real): real
    decreases |states|
  {
    if states == [] then current else TimeScaleAfterAll(states[1..], TimeScaleAfter(states[0], current))
  }

  /** Whether `states` enters any state other than the main menu. */
  predicate LeavesMenu(states: seq<GameState>)
  {
    exists i :: 0 <= i < |states| && !states[i].MainMenu?
  }

  /** The position of the last state in `states` that is not the main menu. */
  function LastNonMenu(states: seq<GameState>): (i: nat)
    requires LeavesMenu(states)
    ensures i < |states| && !states[i].MainMenu?
    ensures forall j :: i < j < |states| ==> states[j].MainMenu?
    decreases |states|
  {
    if !states[|states| - 1].MainMenu? then |states| - 1
    else
      var front := states[..|states| - 1];
      assert LeavesMenu(front) by {
        var k :| 0 <= k < |states| && !states[k].MainMenu?;
        assert front[k] == states[k];
      }
      LastNonMenu(front)
  }

  /**
   * Only the last state other than the main menu decides the time scale:
   * 0 if it was Paused or Dialogue, 1 if it was Playing; with none, the
   * time scale is what it was.
   */
  lemma {:induction false} TimeScaleFollowsLastNonMenu(states: seq<GameState>, current: real)
    ensures !LeavesMenu(states) ==> TimeScaleAfterAll(states, current) == current
    ensures LeavesMenu(states) ==> TimeScaleAfterAll(states, current) == TimeScaleAfter(states[LastNonMenu(states)], current)
    decreases |states|
  {
    if states != [] {
      var rest := states[1..];
      var next := TimeScaleAfter(states[0], current);
      TimeScaleFollowsLastNonMenu(rest, next);
      forall k | 0 <= k < |rest| ensures rest[k] == states[k + 1] { }
      if LeavesMenu(rest) {
        var j := LastNonMenu(rest);
        assert !states[j + 1].MainMenu?;
        assert LeavesMenu(states);
        forall m | j + 1 < m < |states| ensures states[m].MainMenu? {
          assert states[m] == rest[m - 1];
        }
        assert LastNonMenu(states) == j + 1;
        assert TimeScaleAfter(rest[j], next) == TimeScaleAfter(rest[j], current);
      } else {
        forall m | 0 < m < |states| ensures states[m].MainMenu? {
          assert states[m] == rest[m - 1];
        }
        if LeavesMenu(states) {
          assert LastNonMenu(states) == 0;
        }
      }
    }
  }

  class GameManager {
    var CurrentState: GameState
    /** Unity's global time scale. */
    var timeScale: real
    /** Every state announced to the `OnStateChanged` listeners, oldest first. */
    var announced: seq<GameState>
    /** Every scene handed to the scene loader, oldest first. */
    var loadedScenes: seq<string>

    /** A freshly started game: the enum's default state and Unity's default time scale. */
    constructor ()
      ensures CurrentState == MainMenu && timeScale == 1.0
      ensures announced == [] && loadedScenes == []
    {
      CurrentState := MainMenu;
      timeScale := 1.0;
      announced := [];
      loadedScenes := [];
    }

    /** Records the new state, adjusts the time scale for it and announces it. */
    method ChangeState(newState: GameState)
      modifies this
      ensures CurrentState == newState
      ensures timeScale == TimeScaleAfter(newState, old(timeScale))
      ensures announced == old(announced) + [newState]
      ensures loadedScenes == old(loadedScenes)
    {
      CurrentState := newState;
      match newState {
        case Paused => timeScale := 0.0;
        case Playing => timeScale := 1.0;
        case Dialogue => timeScale := 0.0;
        case MainMenu =>
      }
      announced := announced + [newState];
    }

    /** Enters Playing (so time runs) and then requests the scene. */
    method LoadLevel(sceneName: string)
      modifies this
      ensures CurrentState == Playing && timeScale == 1.0
      ensures announced == old(announced) + [Playing]
      ensures loadedScenes == old(loadedScenes) + [sceneName]
    {
      ChangeState(Playing);
      loadedScenes := loadedScenes + [sceneName];
    }

    /** Enters MainMenu (leaving the time scale as it was) and requests the menu scene. */
    method ReturnToMainMenu()
      modifies this
      ensures CurrentState == MainMenu && timeScale == old(timeScale)
      ensures announced == old(announced) + [MainMenu]
      ensures loadedScenes == old(loadedScenes) + ["MainMenu"]
    {
      ChangeState(MainMenu);
      loadedScenes := loadedScenes + ["MainMenu"];
    }

    /** Wipes progress back to a fresh record and loads the first level. */
    method StartNewGame(saves: Save.SaveManager)
      modifies this, saves
      ensures fresh(saves.currentSaveData) && saves.IsFreshProgress()
      ensures CurrentState == Playing && timeScale == 1.0
      ensures announced == old(announced) + [Playing]
      ensures loadedScenes == old(loadedScenes) + [Save.FirstLevel]
    {
      saves.ResetProgress();
      LoadLevel(Save.FirstLevel);
    }

    /** Loads the level the progress record names as last played. */
    method ContinueGame(saves: Save.SaveManager)
      modifies this
      ensures CurrentState == Playing && timeScale == 1.0
      ensures announced == old(announced) + [Playing]
      ensures loadedScenes == old(loadedScenes) + [saves.GetLastPlayedLevel()]
    {
      var lastLevel := saves.GetLastPlayedLevel();
      LoadLevel(lastLevel);
    }
  }
}

/**
 * The in-memory progress record of Assets/Scripts/Core/SaveManager.cs:
 * a last-played level name and an array of unlock flags, one per level
 * index, where a level name "Level_<world>_<n>" maps to index n - 1.
 */
module Save {

  import opened Wrappers

  const LevelSlots: nat := 30
  const FirstLevel: string := "Level_1_1"

  const MinInt32: int := -0x8000_0000
  const MaxInt32: int := 0x7fff_ffff

  // ---------------------------------------------------------------------
  // Level names

  /** `string.Split(sep)`: the pieces between separators, empty pieces included. */
  function Split(s: string, sep: char): (parts: seq<string>)
    ensures |parts| >= 1
    ensures forall i :: 0 <= i < |parts| ==> sep !in parts[i]
    decreases |s|
  {
    if s == [] then [""]
    else
      var rest := Split(s[1..], sep);
      if s[0] == sep then [""] + rest else [[s[0]] + rest[0]] + rest[1..]
  }

  lemma {:induction false} SplitWithoutSeparator(a: string, sep: char)
    requires sep !in a
    ensures Split(a, sep) == [a]
    decreases |a|
  {
    if a != [] {
      SplitWithoutSeparator(a[1..], sep);
      assert [a[0]] + a[1..] == a;
    }
  }

  /** Splitting at the first separator peels off the piece before it. */
  lemma {:induction false} SplitAtFirstSeparator(a: string, sep: char, b: string)
    requires sep !in a
    ensures Split(a + [sep] + b, sep) == [a] + Split(b, sep)
    decreases |a|
  {
    var s := a + [sep] + b;
    if a == [] {
      assert s[1..] == b;
    } else {
      assert s[1..] == a[1..] + [sep] + b;
      SplitAtFirstSeparator(a[1..], sep, b);
      assert [a[0]] + a[1..] == a;
    }
  }

  predicate IsDigit(c: char)
  {
    '0' <= c <= '9'
  }

  predicate AllDigits(s: string)
  {
    forall i :: 0 <= i < |s| ==> IsDigit(s[i])
  }

  /** The value of a string of decimal digits, most significant first. */
  function DigitsValue(s: string): nat
    requires AllDigits(s)
    decreases |s|
  {
    if s == [] then 0 else DigitsValue(s[..|s| - 1]) * 10 + (s[|s| - 1] as int - '0' as int)
  }

  /**
   * `int.TryParse`: an optional sign, at least one digit, and a value that
   * fits 32 bits.  Every other string fails: the empty string, a lone sign,
   * a non-digit anywhere after the sign position, and an out-of-range value.
   */
  function TryParseInt32(s: string): (r: Option<int>)
    ensures r.Some? ==> MinInt32 <= r.value <= MaxInt32
    ensures |s| == 0 ==> r.None?
    ensures |s| > 0 && AllDigits(s) ==>
      r == if DigitsValue(s) <= MaxInt32 then Some(DigitsValue(s)) else None
    ensures |s| > 1 && s[0] == '+' && AllDigits(s[1..]) ==>
      r == if DigitsValue(s[1..]) <= MaxInt32 then Some(DigitsValue(s[1..])) else None
    ensures |s| > 1 && s[0] == '-' && AllDigits(s[1..]) ==>
      r == if DigitsValue(s[1..]) <= -MinInt32 then Some(-(DigitsValue(s[1..]) as int)) else None
    ensures |s| == 1 && (s[0] == '+' || s[0] == '-') ==> r.None?
    ensures |s| > 0 && !IsDigit(s[0]) && s[0] != '+' && s[0] != '-' ==> r.None?
    ensures (exists i :: 0 < i < |s| && !IsDigit(s[i])) ==> r.None?
  {
    if |s| > 0 && (s[0] == '-' || s[0] == '+') then
      var digits := s[1..];
      if |digits| > 0 && AllDigits(digits) then
        var v: int := if s[0] == '-' then -(DigitsValue(digits) as int) else DigitsValue(digits);
        if MinInt32 <= v <= MaxInt32 then Some(v) else None
      else None
    else if |s| > 0 && AllDigits(s) && DigitsValue(s) <= MaxInt32 then Some(DigitsValue(s))
    else None
  }

  /** `n - 1` in 32-bit arithmetic without overflow checks: the minimum wraps to the maximum. */
  function Decrement32(n: int): (r: int)
    requires MinInt32 <= n <= MaxInt32
    ensures MinInt32 <= r <= MaxInt32
    ensures n > MinInt32 ==> r == n - 1
    ensures (r - (n - 1)) % 0x1_0000_0000 == 0
    ensures n == MinInt32 ==> r == MaxInt32
  {
    if n == MinInt32 then MaxInt32 else n - 1
  }

  /**
   * The level index of a name: the third '_'-separated piece parsed as an
   * integer, minus one; -1 when there are fewer than three pieces or the
   * third does not parse.  The world piece is ignored.
   */
  function GetLevelIndex(levelName: string): (r: int)
    ensures MinInt32 <= r <= MaxInt32
    ensures |Split(levelName, '_')| < 3 ==> r == -1
    ensures |Split(levelName, '_')| >= 3 && TryParseInt32(Split(levelName, '_')[2]).None? ==> r == -1
    ensures |Split(levelName, '_')| >= 3 && TryParseInt32(Split(levelName, '_')[2]).Some? ==>
      var n := TryParseInt32(Split(levelName, '_')[2]).value; n > MinInt32 ==> r == n - 1
    ensures |Split(levelName, '_')| >= 3 && TryParseInt32(Split(levelName, '_')[2]).Some? ==>
      var n := TryParseInt32(Split(levelName, '_')[2]).value; (r - (n - 1)) % 0x1_0000_0000 == 0
    ensures |Split(levelName, '_')| >= 3 && TryParseInt32(Split(levelName, '_')[2]) == Some(MinInt32) ==>
      r == MaxInt32
  {
    var parts := Split(levelName, '_');
    if |parts| >= 3 then
      match TryParseInt32(parts[2])
      case Some(levelNum) => Decrement32(levelNum)
      case None => -1
    else -1
  }

  /** The decimal numeral of `n`, without sign or leading zeros. */
  function Decimal(n: nat): (s: string)
    ensures |s| > 0 && AllDigits(s)
  {
    if n < 10 then [('0' as int + n) as char] else Decimal(n / 10) + [('0' as int + n % 10) as char]
  }

  lemma {:induction false} DecimalValue(n: nat)
    ensures DigitsValue(Decimal(n)) == n
  {
    var s := Decimal(n);
    if n >= 10 {
      DecimalValue(n / 10);
      assert s[..|s| - 1] == Decimal(n / 10);
    }
  }

  /** A name "Level_<world>_<x>" whose last two pieces hold no '_' splits into exactly those three pieces. */
  lemma SplitLevelName(world: string, x: string)
    requires '_' !in world && '_' !in x
    ensures Split("Level_" + world + "_" + x, '_') == ["Level", world, x]
  {
    assert "Level_" + world + "_" + x == "Level" + ['_'] + (world + ['_'] + x);
    SplitAtFirstSeparator("Level", '_', world + ['_'] + x);
    SplitAtFirstSeparator(world, '_', x);
    SplitWithoutSeparator(x, '_');
  }

  /**
   * Names of the form "Level_<world>_<n>" for a 32-bit n map to index
   * n - 1, whatever the world piece is (as long as it has no '_').  For
   * n = 0 that is -1, the same value a malformed name gives.
   */
  lemma LevelIndexOfName(world: string, n: nat)
    requires '_' !in world && n <= MaxInt32
    ensures GetLevelIndex("Level_" + world + "_" + Decimal(n)) == n - 1
  {
    var d := Decimal(n);
    assert '_' !in d by {
      forall i | 0 <= i < |d| ensures d[i] != '_' { assert IsDigit(d[i]); }
    }
    SplitLevelName(world, d);
    DecimalValue(n);
  }

  /**
   * A negative level piece "-<n>" is decremented without overflow checks:
   * "Level_<world>_-2147483648" wraps around to the largest 32-bit index.
   */
  lemma NegativeLevelIndex(world: string, n: nat)
    requires '_' !in world && 0 < n <= -MinInt32
    ensures GetLevelIndex("Level_" + world + "_" + "-" + Decimal(n)) ==
            if n == -MinInt32 then MaxInt32 else -(n as int) - 1
  {
    var d := Decimal(n);
    var x := "-" + d;
    assert '_' !in x by {
      forall i | 0 <= i < |x| ensures x[i] != '_' {
        if i > 0 { assert x[i] == d[i - 1]; assert IsDigit(d[i - 1]); }
      }
    }
    assert x[1..] == d;
    DecimalValue(n);
    assert "Level_" + world + "_" + "-" + d == "Level_" + world + "_" + x;
    SplitLevelName(world, x);
  }

  /** A name "Level_<world>_<x>" whose third piece does not parse as an integer maps to -1. */
  lemma UnparseableLevelIndex(world: string, x: string)
    requires '_' !in world && '_' !in x && TryParseInt32(x).None?
    ensures GetLevelIndex("Level_" + world + "_" + x) == -1
  {
    SplitLevelName(world, x);
  }

  /** Two names in different worlds share a slot: "Level_2_1" is level index 0, like "Level_1_1". */
  lemma WorldIsIgnored()
    ensures GetLevelIndex("Level_2_1") == GetLevelIndex(FirstLevel) == 0
  {
    var one := Decimal(1);
    assert one == "1";
    LevelIndexOfName("1", 1);
    LevelIndexOfName("2", 1);
    assert "Level_2_1" == "Level_" + "2" + "_" + one;
    assert FirstLevel == "Level_" + "1" + "_" + one;
  }

  lemma SecondLevelIndex()
    ensures GetLevelIndex("Level_1_2") == 1
  {
    var two := Decimal(2);
    assert two == "2";
    LevelIndexOfName("1", 2);
    assert "Level_1_2" == "Level_" + "1" + "_" + two;
  }

  /**
   * The names that do not denote a slot: a non-numeric level piece, an
   * empty one, and level 0 all give -1, as does a name with two pieces.
   */
  lemma MalformedLevelNames()
    ensures GetLevelIndex("Level_1_x") == -1
    ensures GetLevelIndex("Level_1_") == -1
    ensures GetLevelIndex("Level_1_0") == -1
    ensures GetLevelIndex("Level_1") == -1
  {
    assert !IsDigit("x"[0]);
    UnparseableLevelIndex("1", "x");
    assert "Level_1_x" == "Level_" + "1" + "_" + "x";
    UnparseableLevelIndex("1", "");
    assert "Level_1_" == "Level_" + "1" + "_" + "";
    var zero := Decimal(0);
    assert zero == "0";
    LevelIndexOfName("1", 0);
    assert "Level_1_0" == "Level_" + "1" + "_" + zero;
    assert "Level_1" == "Level" + ['_'] + "1";
    SplitAtFirstSeparator("Level", '_', "1");
    SplitWithoutSeparator("1", '_');
  }

  // ---------------------------------------------------------------------
  // Progress record

  class GameSaveData {
    var lastPlayedLevel: string
    var unlockedLevels: array<bool>

    /** The field initialisers: the first level as last played and thirty locked slots. */
    constructor ()
      ensures lastPlayedLevel == FirstLevel
      ensures fresh(unlockedLevels) && unlockedLevels.Length == LevelSlots
      ensures forall i :: 0 <= i < LevelSlots ==> !unlockedLevels[i]
    {
      lastPlayedLevel := FirstLevel;
      unlockedLevels := new bool[LevelSlots](_ => false);
    }
  }

  class SaveManager {
    var currentSaveData: GameSaveData

    /** A fresh progress record: first level last played, slot 0 unlocked, the rest locked. */
    predicate IsFreshProgress()
      reads this, currentSaveData, currentSaveData.unlockedLevels
    {
      && currentSaveData.lastPlayedLevel == FirstLevel
      && currentSaveData.unlockedLevels.Length == LevelSlots
      && currentSaveData.unlockedLevels[0]
      && forall i :: 0 < i < LevelSlots ==> !currentSaveData.unlockedLevels[i]
    }

    /** A first load with nothing stored: the same record `ResetProgress` builds. */
    constructor ()
      ensures fresh(currentSaveData.unlockedLevels)
      ensures IsFreshProgress()
    {
      var data := new GameSaveData();
      data.unlockedLevels[0] := true;
      currentSaveData := data;
    }

    /**
     * Only a name with an in-range index can read as unlocked; on a fresh
     * record exactly the names with index 0 do.
     */
    function IsLevelUnlocked(levelName: string): (r: bool)
      reads this, currentSaveData, currentSaveData.unlockedLevels
      ensures r ==> 0 <= GetLevelIndex(levelName) < currentSaveData.unlockedLevels.Length
      ensures IsFreshProgress() ==> (r <==> GetLevelIndex(levelName) == 0)
    {
      var levelIndex := GetLevelIndex(levelName);
      levelIndex >= 0 && levelIndex < currentSaveData.unlockedLevels.Length
        && currentSaveData.unlockedLevels[levelIndex]
    }

    /**
     * Sets exactly the slot of an in-range index; anything else changes
     * nothing.  Afterwards the level reads as unlocked exactly when its index
     * was in range, and no slot has been cleared.
     */
    method UnlockLevel(levelName: string)
      modifies currentSaveData.unlockedLevels
      ensures var i := GetLevelIndex(levelName);
        currentSaveData.unlockedLevels[..]
        == if 0 <= i < currentSaveData.unlockedLevels.Length
           then old(currentSaveData.unlockedLevels[..])[i := true]
           else old(currentSaveData.unlockedLevels[..])
      ensures IsLevelUnlocked(levelName) <==> 0 <= GetLevelIndex(levelName) < currentSaveData.unlockedLevels.Length
      ensures forall j :: 0 <= j < currentSaveData.unlockedLevels.Length && old(currentSaveData.unlockedLevels[j])
                          ==> currentSaveData.unlockedLevels[j]
    {
      var levelIndex := GetLevelIndex(levelName);
      if levelIndex >= 0 && levelIndex < currentSaveData.unlockedLevels.Length {
        currentSaveData.unlockedLevels[levelIndex] := true;
      }
    }

    method SetLastPlayedLevel(levelName: string)
      modifies currentSaveData
      ensures GetLastPlayedLevel() == levelName
      ensures currentSaveData.unlockedLevels == old(currentSaveData.unlockedLevels)
    {
      currentSaveData.lastPlayedLevel := levelName;
    }

    /** A fresh record names the first level as last played. */
    function GetLastPlayedLevel(): (name: string)
      reads this, currentSaveData, currentSaveData.unlockedLevels
      ensures IsFreshProgress() ==> name == FirstLevel
    {
      currentSaveData.lastPlayedLevel
    }

    /** Replaces the record with a fresh one: first level last played, only slot 0 unlocked. */
    method ResetProgress()
      modifies this
      ensures fresh(currentSaveData) && fresh(currentSaveData.unlockedLevels)
      ensures IsFreshProgress()
      ensures IsLevelUnlocked(FirstLevel) && !IsLevelUnlocked("Level_1_2")
    {
      var data := new GameSaveData();
      data.unlockedLevels[0] := true;
      currentSaveData := data;
      WorldIsIgnored();
      SecondLevelIndex();
    }
  }
}

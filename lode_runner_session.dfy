/**
 * Lode Runner's progression and persistence rules as pure functions: the
 * session record, the stage outcome, the level-entry accumulator, the scan
 * for the next unsolved level, key classification and the action-to-move
 * switch.
 */
module LodeRunnerSession {
  import opened Wrappers
  import opened JavaInt
  import opened DataStream
  import opened Midp
  import opened Text
  import Game

  type LevelCount = n: int | 0 < n < 1000 witness 1
  type ChapterSize = n: int | 0 < n witness 1

  /** Number of levels; defined by the stage, which is not part of this model. */
  const MAX_LEVELS: LevelCount
  /** Levels per chapter ("Lode Runner", then "Championship"); defined by the stage too. */
  const GAME_LEVELS: ChapterSize
  /** Lives given to the player when a game starts. */
  const MAX_LIFES: int := 5
  const STATUS_NOT_DONE: Octet := 0
  const STATUS_DONE: Octet := 1

  const CONGRATULATIONS: string := "Congratulations !"
  const TRY_AGAIN: string := "Try again..."
  const GAME_OVER: string := "Game Over"
  const ALL_LEVELS_DONE: string := "All levels done!"

  /** The message shown when a typed level number is too large. */
  function LevelRangeMessage(): string
  {
    "1 <= level <= " + DecimalString(MAX_LEVELS)
  }

  // ---------------------------------------------------------------------------
  // The session record

  /** The persistent part of a game: level index, lives left, one status byte per level. */
  datatype Session = Session(level: int, lifes: int, statuses: seq<Octet>)

  /** `serializeState`: `writeInt(level)`, `writeInt(lifes)`, then the status bytes. */
  function Serialize(s: Session): (r: seq<Octet>)
    requires IsInt32(s.level) && IsInt32(s.lifes)
    ensures |r| == 8 + |s.statuses|
    ensures ReadInt(r[..4]) == s.level && ReadInt(r[4..8]) == s.lifes && r[8..] == s.statuses
  {
    ReadWriteInt(s.level);
    ReadWriteInt(s.lifes);
    var r := WriteInt(s.level) + WriteInt(s.lifes) + s.statuses;
    assert r[..4] == WriteInt(s.level) && r[4..8] == WriteInt(s.lifes);
    r
  }

  /**
   * What `deserializeState` leaves in the fields: the whole record was read, or
   * the input ran out first (an EOFException) after some fields were already
   * overwritten.
   */
  datatype Loaded = Complete(fields: Session) | EndOfFile(fields: Session)

  /**
   * `deserializeState` over a record, starting from the fields `prior`: each
   * `readInt` overwrites its field only when four bytes are left, and
   * `readFully` fills the existing array from the front, as far as the bytes go.
   */
  function Deserialize(input: seq<Octet>, prior: Session): (r: Loaded)
    requires |prior.statuses| == MAX_LEVELS
    ensures |r.fields.statuses| == MAX_LEVELS
    ensures r.Complete? <==> |input| >= 8 + MAX_LEVELS
    ensures |input| < 4 ==> r.fields == prior
    ensures |input| >= 4 ==> r.fields.level == ReadInt(input[..4])
    ensures |input| < 8 ==> r.fields.lifes == prior.lifes && r.fields.statuses == prior.statuses
    ensures |input| >= 8 ==> r.fields.lifes == ReadInt(input[4..8])
    ensures IsInt32(prior.level) && IsInt32(prior.lifes) ==> IsInt32(r.fields.level) && IsInt32(r.fields.lifes)
  {
    if |input| < 4 then EndOfFile(prior)
    else
      var level := ReadInt(input[..4]);
      if |input| < 8 then EndOfFile(prior.(level := level))
      else
        var lifes := ReadInt(input[4..8]);
        var available := |input| - 8;
        if available < MAX_LEVELS then
          EndOfFile(Session(level, lifes, input[8..] + prior.statuses[available..]))
        else
          Complete(Session(level, lifes, input[8..8 + MAX_LEVELS]))
  }

  /** Reading a record that `serializeState` wrote restores level, lives and every status, whatever the fields held before. */
  lemma SerializeRoundTrip(s: Session, prior: Session)
    requires IsInt32(s.level) && IsInt32(s.lifes) && |s.statuses| == MAX_LEVELS
    requires |prior.statuses| == MAX_LEVELS
    ensures |Serialize(s)| == 8 + MAX_LEVELS
    ensures Deserialize(Serialize(s), prior) == Complete(s)
  {
    var r := Serialize(s);
    assert r[8..8 + MAX_LEVELS] == r[8..];
  }

  /** Bytes after the record are ignored: a longer record still loads, and loads the same session. */
  lemma TrailingBytesIgnored(s: Session, prior: Session, extra: seq<Octet>)
    requires IsInt32(s.level) && IsInt32(s.lifes) && |s.statuses| == MAX_LEVELS
    requires |prior.statuses| == MAX_LEVELS
    ensures Deserialize(Serialize(s) + extra, prior) == Complete(s)
  {
    var r := Serialize(s);
    var input := r + extra;
    assert input[..4] == r[..4] && input[4..8] == r[4..8];
    assert input[8..8 + MAX_LEVELS] == r[8..];
  }

  /** A complete read is undone by writing: the first 8 + MAX_LEVELS bytes are exactly the record of what was read. */
  lemma DeserializeThenSerialize(input: seq<Octet>, prior: Session)
    requires |prior.statuses| == MAX_LEVELS
    requires Deserialize(input, prior).Complete?
    ensures Serialize(Deserialize(input, prior).fields) == input[..8 + MAX_LEVELS]
  {
    var s := Deserialize(input, prior).fields;
    WriteReadInt(input[..4]);
    WriteReadInt(input[4..8]);
    assert input[..8 + MAX_LEVELS] == input[..4] + input[4..8] + input[8..8 + MAX_LEVELS];
  }

  // ---------------------------------------------------------------------------
  // Stage outcome

  /** Level, lives and pause message after a stage ends. */
  datatype Progress = Progress(level: int, lifes: int, message: Option<string>)

  /**
   * The level/lives rule of `stageOver`: a completed stage moves to the next
   * level (the last wraps to the first) with a congratulation except at a
   * chapter boundary; a lost life retries the level, and losing the last one
   * restarts the game from level 0 with all lives.
   */
  function StageOutcome(hasCompleted: bool, level: int, lifes: int): (r: Progress)
    requires IsInt32(level) && IsInt32(lifes)
    ensures IsInt32(r.level) && IsInt32(r.lifes)
    ensures hasCompleted ==> r.lifes == lifes && r.message in {None, Some(CONGRATULATIONS)}
    ensures hasCompleted && 0 <= level < MAX_LEVELS ==>
              && r.level == (level + 1) % MAX_LEVELS
              && (r.message == None <==> r.level % GAME_LEVELS == 0)
    ensures !hasCompleted && lifes > 0 ==> r == Progress(level, lifes - 1, Some(TRY_AGAIN))
    ensures !hasCompleted && INT_MIN < lifes <= 0 ==> r == Progress(0, MAX_LIFES, Some(GAME_OVER))
    ensures 0 <= level < MAX_LEVELS ==> 0 <= r.level < MAX_LEVELS
    ensures 0 <= lifes <= MAX_LIFES ==> 0 <= r.lifes <= MAX_LIFES
  {
    if hasCompleted then
      var next := Wrap(level + 1);
      var level' := if next == MAX_LEVELS then 0 else next;
      NextLevelWraps(level);
      Progress(level', lifes, if Rem(level', GAME_LEVELS) == 0 then None else Some(CONGRATULATIONS))
    else
      var lifes' := Wrap(lifes - 1);
      if lifes' < 0 then Progress(0, MAX_LIFES, Some(GAME_OVER))
      else Progress(level, lifes', Some(TRY_AGAIN))
  }

  /** Completing the last level wraps to the first: within range, `level + 1 == MAX_LEVELS` is the only overflow. */
  lemma NextLevelWraps(level: int)
    ensures 0 <= level < MAX_LEVELS ==>
              (level + 1) % MAX_LEVELS == if level + 1 == MAX_LEVELS then 0 else level + 1
  {
    if level < 0 || MAX_LEVELS <= level {
    } else if level + 1 < MAX_LEVELS {
      assert (level + 1) / MAX_LEVELS == 0;
    } else {
      assert (level + 1) / MAX_LEVELS == 1;
    }
  }

  // ---------------------------------------------------------------------------
  // Level entry while paused

  /** The digit a key stands for in level entry; -1 for any other key. */
  function DigitOf(keyCode: int): (d: int)
    ensures -1 <= d <= 9
    ensures d != -1 <==> KEY_NUM0 <= keyCode <= KEY_NUM9
    ensures d != -1 ==> keyCode == KEY_NUM0 + d
  {
    if keyCode == KEY_NUM0 then 0
    else if keyCode == KEY_NUM1 then 1
    else if keyCode == KEY_NUM2 then 2
    else if keyCode == KEY_NUM3 then 3
    else if keyCode == KEY_NUM4 then 4
    else if keyCode == KEY_NUM5 then 5
    else if keyCode == KEY_NUM6 then 6
    else if keyCode == KEY_NUM7 then 7
    else if keyCode == KEY_NUM8 then 8
    else if keyCode == KEY_NUM9 then 9
    else -1
  }

  /**
   * The level number typed so far, after one more digit:
   * `(newLevel * 10) % 1000 + digit` in `int` arithmetic, 0 read as 1.
   */
  function AccumulateDigit(newLevel: int, d: int): (r: int)
    requires IsInt32(newLevel) && 0 <= d <= 9
    ensures -1000 < r < 1009
    ensures 0 <= newLevel <= 999 ==> 1 <= r <= 999
    ensures 0 <= newLevel <= 999 ==>
              r == if (newLevel * 10 + d) % 1000 == 0 then 1 else (newLevel * 10 + d) % 1000
  {
    var v := Rem(Wrap(newLevel * 10), 1000) + d;
    if 0 <= newLevel <= 999 then
      ShiftDigit(newLevel, d);
      if v == 0 then 1 else v
    else if v == 0 then 1 else v
  }

  lemma ShiftDigit(x: int, d: int)
    requires 0 <= x <= 999 && 0 <= d <= 9
    ensures Rem(x * 10, 1000) == 10 * (x % 100)
    ensures (x * 10 + d) % 1000 == 10 * (x % 100) + d
  {
    assert x * 10 == 1000 * (x / 100) + 10 * (x % 100);
  }

  /** Three digits typed after any seed in 0..999 select the number they spell, provided the first is not 0. */
  lemma ThreeDigitsSelect(seed: int, d1: int, d2: int, d3: int)
    requires 0 <= seed <= 999
    requires 1 <= d1 <= 9 && 0 <= d2 <= 9 && 0 <= d3 <= 9
    ensures AccumulateDigit(AccumulateDigit(AccumulateDigit(seed, d1), d2), d3) == 100 * d1 + 10 * d2 + d3
  {
    var x := seed % 100;
    AppendDigit(seed, d1);
    var a := AccumulateDigit(seed, d1);
    assert a == 10 * x + d1;
    LastDigits(x, d1);
    var y := a % 100;
    assert y == 10 * (x % 10) + d1;
    LastDigits(x % 10, d1);
    assert y % 10 == d1;
    AppendDigit(a, d2);
    var b := AccumulateDigit(a, d2);
    assert b == 10 * y + d2;
    LastDigits(y, d2);
    assert b % 100 == 10 * d1 + d2;
    AppendDigit(b, d3);
  }

  /**
   * A negative seed keeps its sign through Java's truncating `%`: after the
   * seed -5, typing 1, 2, 3 leaves -877, not 123.
   */
  lemma NegativeSeedDigits()
    ensures AccumulateDigit(AccumulateDigit(AccumulateDigit(-5, 1), 2), 3) == -877
  {
    assert AccumulateDigit(-5, 1) == -49;
    assert AccumulateDigit(-49, 2) == -488;
  }

  /** One digit appended to a number whose last two digits and the digit are not both 0. */
  lemma AppendDigit(x: int, d: int)
    requires 0 <= x <= 999 && 0 <= d <= 9 && (x % 100 != 0 || d != 0)
    ensures AccumulateDigit(x, d) == 10 * (x % 100) + d
  {
    ShiftDigit(x, d);
  }

  lemma LastDigits(x: int, d: int)
    requires 0 <= x < 100 && 0 <= d <= 9
    ensures (10 * x + d) % 10 == d
    ensures (10 * x + d) % 100 == 10 * (x % 10) + d
  {
    assert 10 * x == 100 * (x / 10) + 10 * (x % 10);
  }

  /**
   * The 0-as-1 rule leaks into later digits: from a seed that is a multiple
   * of 100, typing 0, 0, 5 selects 105, not 5.
   */
  lemma LeadingZeroAfterRoundSeed()
    ensures AccumulateDigit(AccumulateDigit(AccumulateDigit(100, 0), 0), 5) == 105
    ensures AccumulateDigit(AccumulateDigit(AccumulateDigit(1, 0), 0), 5) == 5
  {
    assert AccumulateDigit(100, 0) == 1;
    assert AccumulateDigit(1, 0) == 10;
  }

  // ---------------------------------------------------------------------------
  // Next level not done

  /** Position of level `j` in the scan that starts just after `level` and wraps around to it. */
  function Rank(level: int, j: int): int
  {
    if j > level then j - level - 1 else j + MAX_LEVELS - level - 1
  }

  predicate AllDone(statuses: seq<Octet>)
  {
    forall i :: 0 <= i < |statuses| ==> statuses[i] != STATUS_NOT_DONE
  }

  /** `i` is the first level not done met by scanning `level + 1 .. MAX_LEVELS - 1`, then `0 .. level`. */
  predicate IsNextNotDone(statuses: seq<Octet>, level: int, i: int)
  {
    && 0 <= i < |statuses|
    && statuses[i] == STATUS_NOT_DONE
    && forall j :: 0 <= j < |statuses| && statuses[j] == STATUS_NOT_DONE ==> Rank(level, i) <= Rank(level, j)
  }

  /**
   * How the two loops of `nextLevelNotDone` end: at a level not done, with
   * every level done, or on an array index outside the status array (a level
   * below -1, a `level + 1` that overflows, or a level past the last one when
   * every flag before it is done).
   */
  datatype Scan = Found(index: int) | NoneLeft | OutOfBounds

  /** For any level, the scan visits every flag once, so at most one level is the next one not done. */
  lemma NextNotDoneUnique(statuses: seq<Octet>, level: int, i: int, k: int)
    requires |statuses| == MAX_LEVELS
    requires IsNextNotDone(statuses, level, i) && IsNextNotDone(statuses, level, k)
    ensures i == k
  {
    assert Rank(level, i) <= Rank(level, k) && Rank(level, k) <= Rank(level, i);
  }

  // ---------------------------------------------------------------------------
  // Keys and actions

  /**
   * `LodeRunnerCanvas.getGameAction`: the canvas's mapping, with the four
   * context actions suppressed while the game is paused.
   */
  function LodeRunnerGameAction(isPaused: bool, platform: PlatformAction, soft1: int, soft2: int, keyCode: int): (r: int)
    ensures var base := Game.GetGameAction(platform, soft1, soft2, keyCode);
            && (!isPaused ==> r == base)
            && (isPaused && base in {GAME_A, GAME_B, GAME_C, GAME_D} ==> r == 0)
            && (isPaused && base !in {GAME_A, GAME_B, GAME_C, GAME_D} ==> r == base)
            && (isPaused ==> r !in {GAME_A, GAME_B, GAME_C, GAME_D})
  {
    var actionCode := Game.GetGameAction(platform, soft1, soft2, keyCode);
    if isPaused && actionCode in {GAME_A, GAME_C, GAME_B, GAME_D} then 0 else actionCode
  }

  /** The moves the hero can be asked to make. */
  datatype Move = ClimbUp | ClimbDown | RunLeft | RunRight | DigLeft | DigRight

  /** The hero as `gameAction` sees it: absent (no loaded stage or no hero) or present and facing a side. */
  datatype HeroView = NoHero | Hero(lookLeft: bool)

  /** `gameAction`: the move requested of the hero for an action code, if any. */
  function GameAction(actionCode: int, hero: HeroView): (m: Option<Move>)
    ensures m.Some? ==> hero.Hero?
    ensures hero.Hero? && actionCode in {UP, DOWN, LEFT, RIGHT, FIRE, GAME_A, GAME_B, GAME_C, GAME_D} ==> m.Some?
    ensures actionCode !in {UP, DOWN, LEFT, RIGHT, FIRE, GAME_A, GAME_B, GAME_C, GAME_D} ==> m == None
    ensures m == Some(ClimbUp) <==> hero.Hero? && actionCode == UP
    ensures m == Some(ClimbDown) <==> hero.Hero? && actionCode == DOWN
    ensures m == Some(RunLeft) <==> hero.Hero? && actionCode == LEFT
    ensures m == Some(RunRight) <==> hero.Hero? && actionCode == RIGHT
    ensures m == Some(DigLeft) <==>
              hero.Hero? && (actionCode in {GAME_A, GAME_C} || (actionCode == FIRE && hero.lookLeft))
    ensures m == Some(DigRight) <==>
              hero.Hero? && (actionCode in {GAME_B, GAME_D} || (actionCode == FIRE && !hero.lookLeft))
  {
    if hero.NoHero? then None
    else if actionCode == UP then Some(ClimbUp)
    else if actionCode == DOWN then Some(ClimbDown)
    else if actionCode == LEFT then Some(RunLeft)
    else if actionCode == RIGHT then Some(RunRight)
    else if actionCode == GAME_A || actionCode == GAME_C then Some(DigLeft)
    else if actionCode == GAME_B || actionCode == GAME_D then Some(DigRight)
    else if actionCode == FIRE then Some(if hero.lookLeft then DigLeft else DigRight)
    else None
  }

  /** Every action the fallback table can produce moves a present hero. */
  lemma FallbackActionsMoveHero(soft1: int, soft2: int, keyCode: int, lookLeft: bool)
    requires Game.GetGameAction(Threw, soft1, soft2, keyCode) != 0
    ensures GameAction(Game.GetGameAction(Threw, soft1, soft2, keyCode), Hero(lookLeft)).Some?
  {
  }

  /** Which branch of `keyPressed` a key takes; `action` is what `getGameAction` gives for it. */
  datatype KeyBranch = MenuKey | Play | NextLevel | Suicide | ClearLevels | Exit | Digit(d: int) | Forward

  /** The `keyPressed` dispatch, in the order its tests are made. */
  function KeyBranchOf(isPaused: bool, keyCode: int, action: int, soft1: int, soft2: int): (b: KeyBranch)
    ensures b == MenuKey <==> !isPaused && keyCode == KEY_NUM0
    ensures b == Forward <==> !isPaused && keyCode != KEY_NUM0
    ensures b == Play <==> isPaused && action == FIRE && keyCode != KEY_NUM5
    ensures isPaused && !(action == FIRE && keyCode != KEY_NUM5) ==>
              && (keyCode == soft1 ==> b == NextLevel)
              && (keyCode != soft1 && keyCode == soft2 ==> b == Suicide)
              && (keyCode !in {soft1, soft2} && keyCode == KEY_STAR ==> b == ClearLevels)
              && (keyCode !in {soft1, soft2, KEY_STAR} && keyCode == KEY_POUND ==> b == Exit)
              && (keyCode !in {soft1, soft2, KEY_STAR, KEY_POUND} ==> b == Digit(DigitOf(keyCode)))
    ensures b.Digit? ==> isPaused && b.d == DigitOf(keyCode)
  {
    if !isPaused && keyCode == KEY_NUM0 then MenuKey
    else if isPaused && action == FIRE && keyCode != KEY_NUM5 then Play
    else if isPaused && keyCode == soft1 then NextLevel
    else if isPaused && keyCode == soft2 then Suicide
    else if isPaused && keyCode == KEY_STAR then ClearLevels
    else if isPaused && keyCode == KEY_POUND then Exit
    else if isPaused then Digit(DigitOf(keyCode))
    else Forward
  }

  /**
   * While paused, key 5 types the digit 5 instead of resuming (unless it is a soft key),
   * and every other digit key is a digit unless the device maps it to FIRE.
   */
  lemma PausedDigitKeys(keyCode: int, action: int, soft1: int, soft2: int)
    requires KEY_NUM0 <= keyCode <= KEY_NUM9 && keyCode != soft1 && keyCode != soft2
    requires keyCode == KEY_NUM5 || action != FIRE
    ensures KeyBranchOf(true, keyCode, action, soft1, soft2) == Digit(keyCode - KEY_NUM0)
  {
  }

  // ---------------------------------------------------------------------------
  // Level display

  /** `format3`: the number as at least three characters, zero-padded on the left. */
  function Format3(n: int): (r: string)
    ensures 0 <= n ==> AllDigits(r) && DigitsValue(r) == n
    ensures n < 100 ==> |r| >= 2 && r[0] == '0'
  {
    var s := DecimalString(n);
    ZeroPadding(s);
    if n < 10 then "00" + s
    else if n < 100 then "0" + s
    else s
  }

  /** One or two zeros in front of a numeral keep it a numeral of the same value. */
  lemma ZeroPadding(s: string)
    ensures AllDigits(s) ==> AllDigits("0" + s) && DigitsValue("0" + s) == DigitsValue(s)
    ensures AllDigits(s) ==> AllDigits("00" + s) && DigitsValue("00" + s) == DigitsValue(s)
  {
    if AllDigits(s) {
      LeadingZero(s);
      LeadingZero("0" + s);
      assert "00" + s == "0" + ("0" + s);
    }
  }

  /** For 0 <= n < 1000, `format3(n)` is exactly three digits denoting n. */
  lemma Format3ThreeDigits(n: int)
    requires 0 <= n < 1000
    ensures |Format3(n)| == 3 && AllDigits(Format3(n)) && DigitsValue(Format3(n)) == n
  {
    var s := NaturalString(n);
    if |s| >= 4 {
      Pow10Monotone(3, |s| - 1);
    }
    assert n < 10 ==> |s| == 1;
    assert 10 <= n < 100 ==> |s| == 2;
    assert 100 <= n ==> |s| == 3;
    if n < 10 {
      LeadingZero(s);
      LeadingZero("0" + s);
      assert "00" + s == "0" + ("0" + s);
    } else if n < 100 {
      LeadingZero(s);
    }
  }

  lemma {:induction false} Pow10Monotone(a: nat, b: nat)
    requires a <= b
    ensures Pow10(a) <= Pow10(b)
  {
    if a < b {
      Pow10Monotone(a, b - 1);
    }
  }
}

/**
 * The Lode Runner canvas: a GameCanvas (held as `canvas`, whose overridden
 * steps this class spells out) plus the session fields it saves, the stage
 * heartbeat that ends stages, and the paused-mode key protocol.
 */
module LodeRunner {
  import opened Wrappers
  import opened JavaInt
  import opened DataStream
  import opened Midp
  import opened Repaint
  import opened Game
  import opened LodeRunnerSession

  const HERO_PERIOD: int := FRAMERATE_MILLISEC
  const VILAINS_PERIOD: int := 2 * FRAMERATE_MILLISEC
  const STAGE_PERIOD: int := 2 * FRAMERATE_MILLISEC

  /** The game-event tasks `resume` puts on a new timer, in order. */
  function HeartbeatTasks(): (r: seq<Scheduled>)
    ensures |r| == 3
    ensures forall i :: 0 <= i < |r| ==> r[i].delay == 0 && r[i].task != KeepLightsOn
    ensures r[0].task == HeroHeartbeat && r[0].period == FRAMERATE_MILLISEC
    ensures r[1].task == VilainsHeartbeat && r[1].period == 2 * FRAMERATE_MILLISEC
    ensures r[2].task == StageHeartbeat && r[2].period == 2 * FRAMERATE_MILLISEC
  {
    [ Scheduled(HeroHeartbeat, 0, HERO_PERIOD),
      Scheduled(VilainsHeartbeat, 0, VILAINS_PERIOD),
      Scheduled(StageHeartbeat, 0, STAGE_PERIOD) ]
  }

  /**
   * What one run of the hero task finds: no playable hero (no stage loaded,
   * or no hero), or the stage's end flags after the hero's heartbeat.
   */
  datatype HeroBeat = NoPlay | Beat(endCompleted: bool, endHeroDied: bool)

  /**
   * What a key press asks of the world outside the canvas fields; IndexError
   * is an array index exception escaping the handler.
   */
  datatype KeyEffect = NoEffect | RequestMove(move: Move) | AskClearDoneLevels | ExitGame | IndexError

  class LodeRunnerCanvas {
    /** The GameCanvas part of this object. */
    const canvas: GameCanvas
    /** One status byte per level, STATUS_DONE or STATUS_NOT_DONE. */
    const levelStatuses: array<Octet>
    var pauseMessage: Option<string>
    var lifes: int
    var level: int
    /** Level number (1-based) being typed while paused. */
    var newLevel: int
    /** The level index current at each `stage.loadFromResource`, oldest first. */
    var stageLoads: seq<int>
    /** Record 1 of the game's record store, if any. */
    var store: Option<seq<Octet>>

    ghost predicate Valid()
      reads this, canvas, canvas.timer, canvas.timerKeepLightsOn
    {
      && canvas.Valid()
      && levelStatuses.Length == MAX_LEVELS
      && IsInt32(level) && IsInt32(lifes)
      && -1000 < newLevel < 1009
      && (canvas.timer != null ==> canvas.timer.tasks == HeartbeatTasks())
    }

    /** The values play keeps in: a level that exists, 0..5 lives, a three-digit entry, flags 0 or 1. */
    predicate InRange()
      reads this, levelStatuses
    {
      && 0 <= level < MAX_LEVELS
      && 0 <= lifes <= MAX_LIFES
      && 0 <= newLevel <= 999
      && forall i :: 0 <= i < levelStatuses.Length ==> levelStatuses[i] in {STATUS_NOT_DONE, STATUS_DONE}
    }

    /** The fields `serializeState` writes. */
    function State(): Session
      reads this, levelStatuses
    {
      Session(level, lifes, levelStatuses[..])
    }

    /**
     * The canvas is built with level 0, all lives and no level done; a stored
     * record, if present, is then read over those fields (a short one
     * overwrites only part of them), and the stage for the resulting level
     * is loaded.
     */
    constructor (soft1: int, soft2: int, saved: Option<seq<Octet>>)
      ensures Valid()
      ensures canvas.KEY_SOFT1 == soft1 && canvas.KEY_SOFT2 == soft2
      ensures !canvas.isPaused && canvas.timer == null && canvas.timerKeepLightsOn == null
      ensures canvas.animationThread == null && canvas.needsRepaint == REPAINT_ALL
      ensures pauseMessage == None && newLevel == 0 && store == saved
      ensures saved.None? ==> State() == Session(0, MAX_LIFES, seq(MAX_LEVELS, _ => STATUS_NOT_DONE))
      ensures saved.Some? ==>
                State() == Deserialize(saved.value, Session(0, MAX_LIFES, seq(MAX_LEVELS, _ => STATUS_NOT_DONE))).fields
      ensures saved.None? ==> InRange()
      ensures stageLoads == [level]
    {
      canvas := new GameCanvas(soft1, soft2);
      levelStatuses := new Octet[MAX_LEVELS](_ => STATUS_NOT_DONE);
      pauseMessage := None;
      lifes := MAX_LIFES;
      level := 0;
      newLevel := 0;
      stageLoads := [];
      store := saved;
      new;
      assert levelStatuses[..] == seq(MAX_LEVELS, _ => STATUS_NOT_DONE);
      if saved.Some? {
        var eof := DeserializeState(saved.value);
      }
      stageLoads := [level];
      canvas.needsRepaint := REPAINT_ALL;
    }

    /**
     * `deserializeState`: level and lives, then the status bytes read into the
     * existing array; `eof` reports the EOFException of a record too short.
     */
    method DeserializeState(input: seq<Octet>) returns (eof: bool)
      requires Valid()
      modifies this, levelStatuses
      ensures Valid()
      ensures var loaded := Deserialize(input, old(State()));
              State() == loaded.fields && eof == loaded.EndOfFile?
      ensures pauseMessage == old(pauseMessage) && newLevel == old(newLevel)
      ensures stageLoads == old(stageLoads) && store == old(store)
    {
      if |input| < 4 {
        return true;
      }
      level := ReadInt(input[..4]);
      if |input| < 8 {
        return true;
      }
      lifes := ReadInt(input[4..8]);
      var n := 0;
      while n < levelStatuses.Length && 8 + n < |input|
        modifies levelStatuses
        invariant 0 <= n <= levelStatuses.Length && 8 + n <= |input|
        invariant levelStatuses[..n] == input[8..8 + n]
        invariant levelStatuses[n..] == old(levelStatuses[n..])
      {
        levelStatuses[n] := input[8 + n];
        n := n + 1;
        assert levelStatuses[..n] == levelStatuses[..n - 1] + [input[8 + n - 1]];
      }
      assert levelStatuses[..] == levelStatuses[..n] + levelStatuses[n..];
      if n < levelStatuses.Length {
        assert input[8..8 + n] == input[8..];
      }
      eof := n < levelStatuses.Length;
    }

    /** `pause`: the canvas pauses, the session is saved, and level entry restarts from the next level's number. */
    method Pause()
      requires Valid()
      modifies this, canvas, canvas.timer
      ensures Valid()
      ensures canvas.isPaused && canvas.timer == null && canvas.needsRepaint == REPAINT_ALL
      ensures old(canvas.timer) != null ==> old(canvas.timer).cancelled
      ensures canvas.timerKeepLightsOn == old(canvas.timerKeepLightsOn)
      ensures canvas.cntFlashesOnPause == old(canvas.cntFlashesOnPause)
      ensures canvas.animationThread == old(canvas.animationThread)
      ensures level == old(level) && lifes == old(lifes) && pauseMessage == old(pauseMessage)
      ensures stageLoads == old(stageLoads)
      ensures store == Some(Serialize(State()))
      ensures newLevel == Rem(level, MAX_LEVELS) + 1
      ensures 0 <= level ==> 1 <= newLevel <= MAX_LEVELS
      ensures 0 <= level < MAX_LEVELS ==> newLevel == level + 1
      ensures old(InRange()) ==> InRange()
    {
      canvas.Pause();
      store := Some(Serialize(State()));
      newLevel := Rem(level, MAX_LEVELS) + 1;
    }

    /** `resume`: the canvas resumes, the message is cleared, and the three heartbeats go on the new timer. */
    method Resume()
      requires Valid()
      modifies this, canvas
      ensures Valid()
      ensures !canvas.isPaused && canvas.needsRepaint == REPAINT_ALL
      ensures canvas.timer != null && fresh(canvas.timer) && canvas.timer.tasks == HeartbeatTasks()
      ensures old(canvas.timerKeepLightsOn) == null ==>
                fresh(canvas.timerKeepLightsOn) && canvas.cntFlashesOnPause == 0
      ensures old(canvas.timerKeepLightsOn) != null ==>
                && canvas.timerKeepLightsOn == old(canvas.timerKeepLightsOn)
                && canvas.cntFlashesOnPause == old(canvas.cntFlashesOnPause)
      ensures canvas.animationThread == old(canvas.animationThread)
      ensures pauseMessage == None
      ensures level == old(level) && lifes == old(lifes) && newLevel == old(newLevel)
      ensures stageLoads == old(stageLoads) && store == old(store)
    {
      canvas.Resume();
      pauseMessage := None;
      canvas.timer.Schedule(HeroHeartbeat, 0, HERO_PERIOD);
      canvas.timer.Schedule(VilainsHeartbeat, 0, VILAINS_PERIOD);
      canvas.timer.Schedule(StageHeartbeat, 0, STAGE_PERIOD);
    }

    /** `start`: the canvas starts (animation thread, then this class's resume), and the game is paused at once. */
    method Start()
      requires Valid()
      modifies this, canvas
      ensures Valid()
      ensures canvas.animationThread != null && fresh(canvas.animationThread)
      ensures canvas.isPaused && canvas.timer == null && canvas.needsRepaint == REPAINT_ALL
      ensures old(canvas.timerKeepLightsOn) == null ==>
                fresh(canvas.timerKeepLightsOn) && canvas.cntFlashesOnPause == 0
      ensures old(canvas.timerKeepLightsOn) != null ==>
                && canvas.timerKeepLightsOn == old(canvas.timerKeepLightsOn)
                && canvas.cntFlashesOnPause == old(canvas.cntFlashesOnPause)
      ensures pauseMessage == None
      ensures level == old(level) && lifes == old(lifes) && stageLoads == old(stageLoads)
      ensures store == Some(Serialize(State())) && newLevel == Rem(level, MAX_LEVELS) + 1
      ensures old(InRange()) ==> InRange()
    {
      canvas.LaunchAnimationThread();
      Resume();
      Pause();
    }

    /** `stop`: the canvas stops (this class's pause, then the thread is released), and the session is saved again. */
    method Stop()
      requires Valid()
      modifies this, canvas, canvas.timer
      ensures Valid()
      ensures canvas.isPaused && canvas.timer == null && canvas.needsRepaint == REPAINT_ALL
      ensures canvas.animationThread == null
      ensures old(canvas.timer) != null ==> old(canvas.timer).cancelled
      ensures canvas.timerKeepLightsOn == old(canvas.timerKeepLightsOn)
      ensures canvas.cntFlashesOnPause == old(canvas.cntFlashesOnPause)
      ensures level == old(level) && lifes == old(lifes) && pauseMessage == old(pauseMessage)
      ensures stageLoads == old(stageLoads)
      ensures store == Some(Serialize(State())) && newLevel == Rem(level, MAX_LEVELS) + 1
      ensures old(InRange()) ==> InRange()
    {
      Pause();
      canvas.ReleaseAnimationThread();
      store := Some(Serialize(State()));
    }

    /** `hideNotify`, inherited: hiding the screen runs this class's pause. */
    method HideNotify()
      requires Valid()
      modifies this, canvas, canvas.timer
      ensures Valid()
      ensures canvas.isPaused && canvas.timer == null && canvas.needsRepaint == REPAINT_ALL
      ensures old(canvas.timer) != null ==> old(canvas.timer).cancelled
      ensures canvas.timerKeepLightsOn == old(canvas.timerKeepLightsOn)
      ensures canvas.cntFlashesOnPause == old(canvas.cntFlashesOnPause)
      ensures canvas.animationThread == old(canvas.animationThread)
      ensures level == old(level) && lifes == old(lifes) && pauseMessage == old(pauseMessage)
      ensures stageLoads == old(stageLoads)
      ensures store == Some(Serialize(State())) && newLevel == Rem(level, MAX_LEVELS) + 1
      ensures old(InRange()) ==> InRange()
    {
      Pause();
    }

    /**
     * `stageOver`: a running game first records the old level's flag and
     * pauses (saving that state); then level, lives and message move on as
     * StageOutcome says, the stage is reloaded and a full repaint requested.
     * `thrown` reports the array index exception of recording the flag of a
     * level outside the array, which happens before anything changes.
     */
    method StageOver(hasCompleted: bool) returns (thrown: bool)
      requires Valid()
      modifies this, canvas, canvas.timer, levelStatuses
      ensures Valid()
      ensures thrown <==> !old(canvas.isPaused) && !(0 <= old(level) < MAX_LEVELS)
      ensures thrown ==>
                && canvas.isPaused == old(canvas.isPaused) && canvas.timer == old(canvas.timer)
                && canvas.needsRepaint == old(canvas.needsRepaint)
                && level == old(level) && lifes == old(lifes) && pauseMessage == old(pauseMessage)
                && levelStatuses[..] == old(levelStatuses[..]) && stageLoads == old(stageLoads)
                && store == old(store) && newLevel == old(newLevel)
      ensures canvas.timerKeepLightsOn == old(canvas.timerKeepLightsOn)
      ensures canvas.cntFlashesOnPause == old(canvas.cntFlashesOnPause)
      ensures canvas.animationThread == old(canvas.animationThread)
      ensures !thrown ==>
                && canvas.isPaused && canvas.timer == null && canvas.needsRepaint == REPAINT_ALL
                && var p := StageOutcome(hasCompleted, old(level), old(lifes));
                && level == p.level && lifes == p.lifes && pauseMessage == p.message
                && stageLoads == old(stageLoads) + [level]
      ensures old(canvas.isPaused) ==>
                && levelStatuses[..] == old(levelStatuses[..])
                && store == old(store) && newLevel == old(newLevel)
      ensures !old(canvas.isPaused) && !thrown ==>
                && (old(canvas.timer) != null ==> old(canvas.timer).cancelled)
                && levelStatuses[..] == old(levelStatuses[..])[old(level) := if hasCompleted then STATUS_DONE else STATUS_NOT_DONE]
                && store == Some(Serialize(Session(old(level), old(lifes), levelStatuses[..])))
                && newLevel == old(level) + 1
      ensures old(InRange()) ==> InRange()
    {
      if !canvas.isPaused {
        if !(0 <= level < levelStatuses.Length) {
          return true;
        }
        MarkLevel(if hasCompleted then STATUS_DONE else STATUS_NOT_DONE);
        Pause();
      }
      MoveOn(hasCompleted);
      return false;
    }

    /** The second half of `stageOver`: lives, level and message move on, the stage is reloaded and repainted. */
    method MoveOn(hasCompleted: bool)
      requires Valid() && canvas.isPaused
      modifies this, canvas`needsRepaint
      ensures Valid() && canvas.needsRepaint == REPAINT_ALL
      ensures var p := StageOutcome(hasCompleted, old(level), old(lifes));
              level == p.level && lifes == p.lifes && pauseMessage == p.message
      ensures stageLoads == old(stageLoads) + [level]
      ensures newLevel == old(newLevel) && store == old(store)
      ensures old(InRange()) ==> InRange()
    {
      var p := StageOutcome(hasCompleted, level, lifes);
      level, lifes, pauseMessage := p.level, p.lifes, p.message;
      stageLoads := stageLoads + [level];
      canvas.needsRepaint := REPAINT_ALL;
    }

    /** The current level's flag becomes `status`. */
    method MarkLevel(status: Octet)
      requires 0 <= level < levelStatuses.Length
      modifies levelStatuses
      ensures levelStatuses[..] == old(levelStatuses[..])[level := status]
      ensures old(InRange()) && status in {STATUS_NOT_DONE, STATUS_DONE} ==> InRange()
    {
      levelStatuses[level] := status;
    }

    /**
     * The two loops of `nextLevelNotDone`: the first level not done after
     * the current one, wrapping round to it, with Java's `int` increment and
     * its array bounds check.
     */
    method ScanNextNotDone() returns (r: Scan)
      requires levelStatuses.Length == MAX_LEVELS && IsInt32(level)
      ensures r == OutOfBounds <==>
                level < -1 || level == INT_MAX || (MAX_LEVELS <= level && AllDone(levelStatuses[..]))
      ensures r == NoneLeft <==> -1 <= level < MAX_LEVELS && AllDone(levelStatuses[..])
      ensures r.Found? ==> IsNextNotDone(levelStatuses[..], level, r.index)
    {
      var i := Wrap(level + 1);
      assert level == INT_MAX ==> i == INT_MIN;
      while i < MAX_LEVELS
        invariant i < 0 ==> i == Wrap(level + 1)
        invariant 0 <= i ==> level + 1 <= i && -1 <= level < INT_MAX
        invariant forall j :: level < j < i && 0 <= j < MAX_LEVELS ==> levelStatuses[j] != STATUS_NOT_DONE
        decreases MAX_LEVELS - i
      {
        if i < 0 {
          return OutOfBounds;
        }
        if levelStatuses[i] == STATUS_NOT_DONE {
          return Found(i);
        }
        i := i + 1;
      }
      i := 0;
      while i <= level
        invariant 0 <= i <= MAX_LEVELS && i <= level + 1
        invariant forall j :: 0 <= j < i ==> levelStatuses[j] != STATUS_NOT_DONE
      {
        if i >= levelStatuses.Length {
          return OutOfBounds;
        }
        if levelStatuses[i] == STATUS_NOT_DONE {
          return Found(i);
        }
        i := i + 1;
      }
      return NoneLeft;
    }

    /**
     * `nextLevelNotDone`: jump to the next level not done, or say that all
     * are done; `thrown` reports the array index exception of the scan,
     * which leaves only the message cleared.
     */
    method NextLevelNotDone() returns (thrown: bool)
      requires Valid()
      modifies this
      ensures Valid()
      ensures thrown <==>
                old(level) < -1 || old(level) == INT_MAX || (MAX_LEVELS <= old(level) && AllDone(levelStatuses[..]))
      ensures thrown ==>
                && level == old(level) && newLevel == old(newLevel)
                && pauseMessage == None && stageLoads == old(stageLoads)
      ensures !thrown && AllDone(levelStatuses[..]) ==>
                && level == old(level) && newLevel == old(newLevel)
                && pauseMessage == Some(ALL_LEVELS_DONE) && stageLoads == old(stageLoads)
      ensures !thrown && !AllDone(levelStatuses[..]) ==>
                && IsNextNotDone(levelStatuses[..], old(level), level)
                && newLevel == level + 1 && pauseMessage == None
                && stageLoads == old(stageLoads) + [level]
      ensures lifes == old(lifes) && store == old(store)
      ensures old(InRange()) ==> InRange()
    {
      pauseMessage := None;
      var next := ScanNextNotDone();
      match next {
        case OutOfBounds =>
          return true;
        case NoneLeft =>
          pauseMessage := Some(ALL_LEVELS_DONE);
        case Found(i) =>
          pauseMessage := None;
          newLevel := i + 1;
          LoadNewLevel();
      }
      return false;
    }

    /** `loadNewLevel`: the typed (1-based) level number becomes the current level and its stage is loaded. */
    method LoadNewLevel()
      requires Valid()
      modifies this
      ensures Valid()
      ensures pauseMessage == None && level == old(newLevel) - 1
      ensures stageLoads == old(stageLoads) + [level]
      ensures lifes == old(lifes) && newLevel == old(newLevel) && store == old(store)
      ensures 1 <= old(newLevel) <= MAX_LEVELS && old(InRange()) ==> InRange()
    {
      pauseMessage := None;
      level := newLevel - 1;
      stageLoads := stageLoads + [level];
    }

    /** "Yes" in the `clearDoneLevels` confirmation: every flag is reset and the session saved. */
    method ConfirmClearDoneLevels()
      requires Valid()
      modifies levelStatuses, this`store
      ensures Valid()
      ensures forall i :: 0 <= i < levelStatuses.Length ==> levelStatuses[i] == STATUS_NOT_DONE
      ensures store == Some(Serialize(State()))
      ensures old(InRange()) ==> InRange()
    {
      for i := 0 to levelStatuses.Length
        modifies levelStatuses
        invariant forall j :: 0 <= j < i ==> levelStatuses[j] == STATUS_NOT_DONE
      {
        levelStatuses[i] := STATUS_NOT_DONE;
      }
      store := Some(Serialize(State()));
    }

    /**
     * `HeroHeartbeatTask.run`: after the hero's heartbeat, a completed stage
     * ends as a success even when the hero also died; then, as every repaint
     * task, it asks for a timer repaint. An exception thrown by `stageOver`
     * leaves the run before that request.
     */
    method HeroHeartbeatRun(beat: HeroBeat) returns (thrown: bool)
      requires Valid()
      modifies this, canvas, canvas.timer, levelStatuses
      ensures Valid()
      ensures thrown <==>
                beat.Beat? && (beat.endCompleted || beat.endHeroDied) &&
                !old(canvas.isPaused) && !(0 <= old(level) < MAX_LEVELS)
      ensures canvas.timerKeepLightsOn == old(canvas.timerKeepLightsOn)
      ensures canvas.cntFlashesOnPause == old(canvas.cntFlashesOnPause)
      ensures canvas.animationThread == old(canvas.animationThread)
      ensures thrown ==>
                && canvas.isPaused == old(canvas.isPaused) && canvas.timer == old(canvas.timer)
                && canvas.needsRepaint == old(canvas.needsRepaint)
                && level == old(level) && lifes == old(lifes) && pauseMessage == old(pauseMessage)
                && levelStatuses[..] == old(levelStatuses[..]) && stageLoads == old(stageLoads)
                && store == old(store) && newLevel == old(newLevel)
      ensures beat.Beat? && (beat.endCompleted || beat.endHeroDied) && !thrown ==>
                && var p := StageOutcome(beat.endCompleted, old(level), old(lifes));
                && level == p.level && lifes == p.lifes && pauseMessage == p.message
                && canvas.isPaused && canvas.timer == null && canvas.needsRepaint == REPAINT_ALL
                && stageLoads == old(stageLoads) + [level]
      ensures beat.Beat? && (beat.endCompleted || beat.endHeroDied) && old(canvas.isPaused) ==>
                && levelStatuses[..] == old(levelStatuses[..])
                && store == old(store) && newLevel == old(newLevel)
      ensures beat.Beat? && (beat.endCompleted || beat.endHeroDied) && !old(canvas.isPaused) && !thrown ==>
                && (old(canvas.timer) != null ==> old(canvas.timer).cancelled)
                && levelStatuses[..] == old(levelStatuses[..])[old(level) := if beat.endCompleted then STATUS_DONE else STATUS_NOT_DONE]
                && store == Some(Serialize(Session(old(level), old(lifes), levelStatuses[..])))
                && newLevel == old(level) + 1
      ensures !(beat.Beat? && (beat.endCompleted || beat.endHeroDied)) ==>
                && canvas.needsRepaint == Raise(old(canvas.needsRepaint), REPAINT_TIMER)
                && canvas.isPaused == old(canvas.isPaused) && canvas.timer == old(canvas.timer)
                && level == old(level) && lifes == old(lifes) && pauseMessage == old(pauseMessage)
                && levelStatuses[..] == old(levelStatuses[..]) && stageLoads == old(stageLoads)
                && store == old(store) && newLevel == old(newLevel)
      ensures old(InRange()) ==> InRange()
    {
      thrown := false;
      if beat.Beat? {
        if beat.endCompleted {
          thrown := StageOver(true);
        } else if beat.endHeroDied {
          thrown := StageOver(false);
        }
      }
      if thrown {
        return;
      }
      canvas.RepaintTaskRun();
      RaiseAbsorbs(REPAINT_ALL, REPAINT_TIMER);
    }

    /** The `keyPressed` branch a key takes in the current state. */
    function Branch(keyCode: int, platform: PlatformAction): (b: KeyBranch)
      reads this, canvas
      ensures b == MenuKey <==> !canvas.isPaused && keyCode == KEY_NUM0
      ensures b == Forward <==> !canvas.isPaused && keyCode != KEY_NUM0
      ensures b == Play <==>
                && canvas.isPaused && keyCode != KEY_NUM5
                && GetGameAction(platform, canvas.KEY_SOFT1, canvas.KEY_SOFT2, keyCode) == FIRE
    {
      var action := LodeRunnerGameAction(canvas.isPaused, platform, canvas.KEY_SOFT1, canvas.KEY_SOFT2, keyCode);
      KeyBranchOf(canvas.isPaused, keyCode, action, canvas.KEY_SOFT1, canvas.KEY_SOFT2)
    }

    /**
     * A digit typed while paused: the entry takes the digit, and a number
     * within 1..MAX_LEVELS loads that level; a larger one shows the range.
     */
    method TypeDigit(d: int)
      requires Valid() && 0 <= d <= 9
      modifies this, canvas`needsRepaint
      ensures Valid()
      ensures canvas.needsRepaint == REPAINT_ALL
      ensures newLevel == AccumulateDigit(old(newLevel), d)
      ensures newLevel <= MAX_LEVELS ==>
                level == newLevel - 1 && pauseMessage == None && stageLoads == old(stageLoads) + [level]
      ensures newLevel > MAX_LEVELS ==>
                level == old(level) && pauseMessage == Some(LevelRangeMessage()) && stageLoads == old(stageLoads)
      ensures lifes == old(lifes) && store == old(store)
      ensures old(InRange()) ==> InRange()
    {
      canvas.needsRepaint := REPAINT_ALL;
      newLevel := AccumulateDigit(newLevel, d);
      if newLevel <= MAX_LEVELS {
        LoadNewLevel();
      } else {
        pauseMessage := Some(LevelRangeMessage());
      }
    }

    /** The keep-lights timer, its counter and the animation thread are as they were. */
    twostate predicate BackgroundKept()
      reads this, canvas
    {
      && canvas.timerKeepLightsOn == old(canvas.timerKeepLightsOn)
      && canvas.cntFlashesOnPause == old(canvas.cntFlashesOnPause)
      && canvas.animationThread == old(canvas.animationThread)
    }

    /** Still paused, with no game-event timer, no new repaint request and the background as it was. */
    twostate predicate StillPaused()
      reads this, canvas
    {
      && canvas.isPaused && canvas.timer == null && canvas.needsRepaint == old(canvas.needsRepaint)
      && BackgroundKept()
    }

    /** Level, lives, message, level entry, flags, stage loads and record are as they were. */
    twostate predicate SessionKept()
      reads this, levelStatuses
    {
      && level == old(level) && lifes == old(lifes) && pauseMessage == old(pauseMessage)
      && newLevel == old(newLevel) && levelStatuses[..] == old(levelStatuses[..])
      && stageLoads == old(stageLoads) && store == old(store)
    }

    /**
     * Fire while paused: the level's flag is reset to not done and the game
     * resumes; a level outside the flags throws before anything changes.
     */
    twostate predicate PlayOutcome(effect: KeyEffect)
      requires old(Valid())
      reads this, canvas, canvas.timer, levelStatuses
    {
      if 0 <= old(level) < MAX_LEVELS then
        && effect == NoEffect
        && levelStatuses[..] == old(levelStatuses[..])[old(level) := STATUS_NOT_DONE]
        && !canvas.isPaused && canvas.timer != null && fresh(canvas.timer)
        && canvas.timer.tasks == HeartbeatTasks()
        && canvas.needsRepaint == REPAINT_ALL && pauseMessage == None
        && (old(canvas.timerKeepLightsOn) == null ==>
              fresh(canvas.timerKeepLightsOn) && canvas.cntFlashesOnPause == 0)
        && (old(canvas.timerKeepLightsOn) != null ==>
              && canvas.timerKeepLightsOn == old(canvas.timerKeepLightsOn)
              && canvas.cntFlashesOnPause == old(canvas.cntFlashesOnPause))
        && canvas.animationThread == old(canvas.animationThread)
        && level == old(level) && lifes == old(lifes) && newLevel == old(newLevel)
        && stageLoads == old(stageLoads) && store == old(store)
      else
        effect == IndexError && StillPaused() && SessionKept()
    }

    /**
     * Left soft key while paused: `nextLevelNotDone`, still paused; an index
     * outside the flags leaves only the message cleared.
     */
    twostate predicate NextLevelOutcome(effect: KeyEffect)
      reads this, canvas, levelStatuses
    {
      && (effect == IndexError <==>
            old(level) < -1 || old(level) == INT_MAX || (MAX_LEVELS <= old(level) && AllDone(levelStatuses[..])))
      && effect in {NoEffect, IndexError}
      && StillPaused()
      && levelStatuses[..] == old(levelStatuses[..]) && lifes == old(lifes) && store == old(store)
      && (effect == IndexError ==>
            && level == old(level) && newLevel == old(newLevel)
            && pauseMessage == None && stageLoads == old(stageLoads))
      && (effect == NoEffect && AllDone(levelStatuses[..]) ==>
            && level == old(level) && newLevel == old(newLevel)
            && pauseMessage == Some(ALL_LEVELS_DONE) && stageLoads == old(stageLoads))
      && (effect == NoEffect && !AllDone(levelStatuses[..]) ==>
            && IsNextNotDone(levelStatuses[..], old(level), level) && pauseMessage == None
            && newLevel == level + 1 && stageLoads == old(stageLoads) + [level])
    }

    /** Right soft key while paused: the stage is lost as StageOutcome says, without touching the flags or the record. */
    twostate predicate SuicideOutcome(effect: KeyEffect)
      requires old(Valid())
      reads this, canvas, levelStatuses
    {
      && effect == NoEffect
      && canvas.isPaused && canvas.timer == null && canvas.needsRepaint == REPAINT_ALL
      && BackgroundKept()
      && var p := StageOutcome(false, old(level), old(lifes));
      && level == p.level && lifes == p.lifes && pauseMessage == p.message
      && levelStatuses[..] == old(levelStatuses[..]) && store == old(store) && newLevel == old(newLevel)
      && stageLoads == old(stageLoads) + [level]
    }

    /** Star while paused: the confirmation is asked for and nothing else changes. */
    twostate predicate ClearLevelsOutcome(effect: KeyEffect)
      reads this, canvas, levelStatuses
    {
      effect == AskClearDoneLevels && StillPaused() && SessionKept()
    }

    /** Pound while paused: the canvas stops (releasing the thread), the session is saved and the game exits. */
    twostate predicate ExitOutcome(effect: KeyEffect)
      requires IsInt32(level) && IsInt32(lifes)
      reads this, canvas, levelStatuses
    {
      && effect == ExitGame
      && canvas.isPaused && canvas.timer == null && canvas.animationThread == null
      && canvas.needsRepaint == REPAINT_ALL
      && canvas.timerKeepLightsOn == old(canvas.timerKeepLightsOn)
      && canvas.cntFlashesOnPause == old(canvas.cntFlashesOnPause)
      && level == old(level) && lifes == old(lifes) && pauseMessage == old(pauseMessage)
      && levelStatuses[..] == old(levelStatuses[..]) && stageLoads == old(stageLoads)
      && store == Some(Serialize(State())) && newLevel == Rem(level, MAX_LEVELS) + 1
    }

    /** Any other key while paused: a digit is typed into the level entry, a non-digit does nothing. */
    twostate predicate DigitOutcome(effect: KeyEffect, d: int)
      requires old(Valid()) && -1 <= d <= 9
      reads this, canvas, levelStatuses
    {
      && effect == NoEffect
      && if d == -1 then StillPaused() && SessionKept()
         else
           && canvas.isPaused && canvas.timer == null && canvas.needsRepaint == REPAINT_ALL
           && BackgroundKept()
           && newLevel == AccumulateDigit(old(newLevel), d)
           && lifes == old(lifes) && levelStatuses[..] == old(levelStatuses[..]) && store == old(store)
           && (newLevel <= MAX_LEVELS ==>
                 level == newLevel - 1 && pauseMessage == None && stageLoads == old(stageLoads) + [level])
           && (newLevel > MAX_LEVELS ==>
                 level == old(level) && pauseMessage == Some(LevelRangeMessage()) && stageLoads == old(stageLoads))
    }

    /**
     * `keyPressed`. While running, 0 pauses and every other key goes to the
     * canvas's handler, whose action becomes a hero move. While paused, the
     * branches are tried in the order of KeyBranchOf.
     */
    method KeyPressed(keyCode: int, platform: PlatformAction, shown: bool, hero: HeroView) returns (effect: KeyEffect)
      requires Valid()
      modifies this, canvas, canvas.timer, levelStatuses
      ensures Valid()
      ensures old(InRange()) ==> InRange()
      ensures old(Branch(keyCode, platform)) == MenuKey ==>
                && effect == NoEffect
                && canvas.isPaused && canvas.timer == null && canvas.needsRepaint == REPAINT_ALL
                && (old(canvas.timer) != null ==> old(canvas.timer).cancelled)
                && BackgroundKept()
                && level == old(level) && lifes == old(lifes) && pauseMessage == old(pauseMessage)
                && levelStatuses[..] == old(levelStatuses[..]) && stageLoads == old(stageLoads)
                && store == Some(Serialize(State())) && newLevel == Rem(level, MAX_LEVELS) + 1
      ensures old(Branch(keyCode, platform)) == Forward ==>
                && var action := GetGameAction(platform, canvas.KEY_SOFT1, canvas.KEY_SOFT2, keyCode);
                && effect == (if action != 0 && GameAction(action, hero).Some? then RequestMove(GameAction(action, hero).value) else NoEffect)
                && canvas.needsRepaint == Raise(old(canvas.needsRepaint), REPAINT_KEY)
                && canvas.isPaused == old(canvas.isPaused) && canvas.timer == old(canvas.timer)
                && BackgroundKept() && SessionKept()
      ensures old(Branch(keyCode, platform)) == Play ==> PlayOutcome(effect)
      ensures old(Branch(keyCode, platform)) == NextLevel ==> NextLevelOutcome(effect)
      ensures old(Branch(keyCode, platform)) == Suicide ==> SuicideOutcome(effect)
      ensures old(Branch(keyCode, platform)) == ClearLevels ==> ClearLevelsOutcome(effect)
      ensures old(Branch(keyCode, platform)) == Exit ==> ExitOutcome(effect)
      ensures old(Branch(keyCode, platform)).Digit? ==> DigitOutcome(effect, old(Branch(keyCode, platform)).d)
    {
      if !canvas.isPaused {
        effect := NoEffect;
        if keyCode == KEY_NUM0 {
          Pause();
        } else {
          var dispatched := canvas.KeyPressed(keyCode, platform, shown);
          if dispatched.Some? {
            var move := GameAction(dispatched.value, hero);
            if move.Some? {
              effect := RequestMove(move.value);
            }
          }
        }
      } else {
        effect := PausedKeyPressed(keyCode, platform);
      }
    }

    /** The paused half of `keyPressed`, branch by branch in the order of KeyBranchOf. */
    method PausedKeyPressed(keyCode: int, platform: PlatformAction) returns (effect: KeyEffect)
      requires Valid() && canvas.isPaused
      modifies this, canvas, canvas.timer, levelStatuses
      ensures Valid()
      ensures old(InRange()) ==> InRange()
      ensures old(Branch(keyCode, platform)) == Play ==> PlayOutcome(effect)
      ensures old(Branch(keyCode, platform)) == NextLevel ==> NextLevelOutcome(effect)
      ensures old(Branch(keyCode, platform)) == Suicide ==> SuicideOutcome(effect)
      ensures old(Branch(keyCode, platform)) == ClearLevels ==> ClearLevelsOutcome(effect)
      ensures old(Branch(keyCode, platform)) == Exit ==> ExitOutcome(effect)
      ensures old(Branch(keyCode, platform)).Digit? ==> DigitOutcome(effect, old(Branch(keyCode, platform)).d)
    {
      var branch := Branch(keyCode, platform);
      effect := NoEffect;
      match branch {
        case Play =>
          if !(0 <= level < levelStatuses.Length) {
            return IndexError;
          }
          MarkLevel(STATUS_NOT_DONE);
          Resume();
        case NextLevel =>
          var thrown := NextLevelNotDone();
          if thrown {
            effect := IndexError;
          }
        case Suicide =>
          var thrown := StageOver(false);
        case ClearLevels =>
          effect := AskClearDoneLevels;
        case Exit =>
          Stop();
          effect := ExitGame;
        case Digit(d) =>
          if d != -1 {
            TypeDigit(d);
          }
        case _ =>
          assert false;
      }
    }
  }

  /**
   * Pausing twice leaves the game as pausing once does: the second pause saves
   * the same record and seeds the same level entry.
   */
  method PauseTwice(c: LodeRunnerCanvas)
    requires c.Valid()
    modifies c, c.canvas, c.canvas.timer
    ensures c.Valid() && c.canvas.isPaused && c.canvas.timer == null && c.canvas.needsRepaint == REPAINT_ALL
    ensures old(c.canvas.timer) != null ==> old(c.canvas.timer).cancelled
    ensures c.canvas.timerKeepLightsOn == old(c.canvas.timerKeepLightsOn)
    ensures c.canvas.cntFlashesOnPause == old(c.canvas.cntFlashesOnPause)
    ensures c.canvas.animationThread == old(c.canvas.animationThread)
    ensures c.store == Some(Serialize(c.State())) && c.newLevel == Rem(c.level, MAX_LEVELS) + 1
    ensures c.level == old(c.level) && c.lifes == old(c.lifes) && c.pauseMessage == old(c.pauseMessage)
    ensures c.stageLoads == old(c.stageLoads)
  {
    c.Pause();
    ghost var once := (c.store, c.newLevel, c.canvas.needsRepaint, c.canvas.timerKeepLightsOn, c.canvas.cntFlashesOnPause);
    c.Pause();
    assert (c.store, c.newLevel, c.canvas.needsRepaint, c.canvas.timerKeepLightsOn, c.canvas.cntFlashesOnPause) == once;
  }
}

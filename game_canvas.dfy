/**
 * The generic game canvas: the pause/resume/start/stop life cycle, the timers
 * that sequence game events, the keep-lights task, the repaint-urgency cell
 * and the translation of device keys into game actions.
 */
module Game {
  import opened Wrappers
  import opened Midp
  import opened Repaint

  /** Rendering period of the animation thread, in milliseconds. */
  const FRAMERATE_MILLISEC: int := 66
  /** Period of the keep-lights task, in milliseconds. */
  const KEEP_LIGHTS_PERIOD: int := 1000
  /** Consecutive paused runs the keep-lights task tolerates before it stops itself. */
  const MAX_FLASHES_ON_PAUSE: int := 16

  /** The periodic tasks of the game; the three heartbeats belong to Lode Runner. */
  datatype GameTask = KeepLightsOn | HeroHeartbeat | VilainsHeartbeat | StageHeartbeat

  /** One `timer.schedule(task, delay, period)` call. */
  datatype Scheduled = Scheduled(task: GameTask, delay: int, period: int)

  /**
   * A `java.util.Timer`, reduced to the tasks scheduled on it and whether it
   * was cancelled; the thread that fires the tasks is not modelled.
   */
  class Timer {
    var tasks: seq<Scheduled>
    var cancelled: bool

    constructor ()
      ensures tasks == [] && !cancelled
    {
      tasks := [];
      cancelled := false;
    }

    /** A cancelled timer refuses new tasks (it throws), so callers schedule only on live ones. */
    method Schedule(task: GameTask, delay: int, period: int)
      requires !cancelled
      modifies this
      ensures tasks == old(tasks) + [Scheduled(task, delay, period)] && !cancelled
    {
      tasks := tasks + [Scheduled(task, delay, period)];
    }

    method Cancel()
      modifies this
      ensures cancelled && tasks == old(tasks)
    {
      cancelled := true;
    }
  }

  /** The rendering thread; only its identity matters here (its loop compares it with the canvas's). */
  class AnimationThread {
    constructor ()
    {
    }
  }

  // ---------------------------------------------------------------------------
  // Key codes to game actions

  /** The code `Canvas.getGameAction` returned, an exception counting as 0 (no action). */
  function BaseCode(platform: PlatformAction): int
  {
    match platform
    case Mapped(c) => c
    case Threw => 0
  }

  /** The fallback mapping for devices that give no game action, in the order its tests are made. */
  function FallbackTable(soft1: int, soft2: int): seq<(int, int)>
  {
    [(soft1, GAME_A), (KEY_NUM1, GAME_A), (soft2, GAME_B), (KEY_NUM3, GAME_B),
     (KEY_NUM2, UP), (KEY_NUM4, LEFT), (KEY_NUM5, FIRE), (KEY_NUM6, RIGHT), (KEY_NUM8, DOWN)]
  }

  /** The action of the first entry of `table` for `key`, 0 if there is none. */
  function Lookup(table: seq<(int, int)>, key: int): (r: int)
    ensures (forall i :: 0 <= i < |table| ==> table[i].0 != key) ==> r == 0
    ensures forall i :: (0 <= i < |table| && table[i].0 == key &&
                         forall j :: 0 <= j < i ==> table[j].0 != key) ==> r == table[i].1
  {
    if table == [] then 0
    else if table[0].0 == key then table[0].1
    else Lookup(table[1..], key)
  }

  /** The if-chain applied when the device maps a key to no game action. */
  function Fallback(soft1: int, soft2: int, keyCode: int): (r: int)
    ensures r in {0, GAME_A, GAME_B, UP, LEFT, FIRE, RIGHT, DOWN}
    ensures r == 0 <==>
              keyCode !in {soft1, soft2, KEY_NUM1, KEY_NUM2, KEY_NUM3, KEY_NUM4, KEY_NUM5, KEY_NUM6, KEY_NUM8}
    ensures r == GAME_A <==> keyCode in {soft1, KEY_NUM1}
    ensures r == GAME_B <==> keyCode !in {soft1, KEY_NUM1} && keyCode in {soft2, KEY_NUM3}
  {
    if keyCode == soft1 || keyCode == KEY_NUM1 then GAME_A
    else if keyCode == soft2 || keyCode == KEY_NUM3 then GAME_B
    else if keyCode == KEY_NUM2 then UP
    else if keyCode == KEY_NUM4 then LEFT
    else if keyCode == KEY_NUM5 then FIRE
    else if keyCode == KEY_NUM6 then RIGHT
    else if keyCode == KEY_NUM8 then DOWN
    else 0
  }

  /** The if-chain is the first-match lookup in the fallback table: earlier tests win. */
  lemma FallbackIsTableLookup(soft1: int, soft2: int, keyCode: int)
    ensures Fallback(soft1, soft2, keyCode) == Lookup(FallbackTable(soft1, soft2), keyCode)
  {
    var t := FallbackTable(soft1, soft2);
    var k := keyCode;
    assert Lookup(t, k) == if k == soft1 then GAME_A else Lookup(t[1..], k);
    assert Lookup(t[1..], k) == if k == KEY_NUM1 then GAME_A else Lookup(t[2..], k);
    assert Lookup(t[2..], k) == if k == soft2 then GAME_B else Lookup(t[3..], k);
    assert Lookup(t[3..], k) == if k == KEY_NUM3 then GAME_B else Lookup(t[4..], k);
    assert Lookup(t[4..], k) == if k == KEY_NUM2 then UP else Lookup(t[5..], k);
    assert Lookup(t[5..], k) == if k == KEY_NUM4 then LEFT else Lookup(t[6..], k);
    assert Lookup(t[6..], k) == if k == KEY_NUM5 then FIRE else Lookup(t[7..], k);
    assert Lookup(t[7..], k) == if k == KEY_NUM6 then RIGHT else Lookup(t[8..], k);
    assert Lookup(t[8..], k) == if k == KEY_NUM8 then DOWN else Lookup(t[9..], k);
    assert t[9..] == [];
  }

  /** `GameCanvas.getGameAction`: the device's action if it has one, the fallback table otherwise. */
  function GetGameAction(platform: PlatformAction, soft1: int, soft2: int, keyCode: int): (r: int)
    ensures BaseCode(platform) != 0 ==> r == BaseCode(platform)
    ensures BaseCode(platform) == 0 ==> r == Lookup(FallbackTable(soft1, soft2), keyCode)
    ensures BaseCode(platform) == 0 ==> r in {0, GAME_A, GAME_B, UP, LEFT, FIRE, RIGHT, DOWN}
  {
    var code := BaseCode(platform);
    if code != 0 then code
    else
      FallbackIsTableLookup(soft1, soft2, keyCode);
      Fallback(soft1, soft2, keyCode)
  }

  // ---------------------------------------------------------------------------
  // The keep-lights counter

  /** The outcome of one run of the keep-lights task: its new counter and whether it stops its timer. */
  datatype LightsStep = LightsStep(count: int, cancels: bool)

  /** One run of the keep-lights task: reset while playing, count while paused, stop after the 17th. */
  function KeepLightsStep(paused: bool, count: int): (r: LightsStep)
    ensures !paused ==> r.count == 0 && !r.cancels
    ensures paused ==> r.count == count + 1
    ensures r.cancels <==> paused && count >= MAX_FLASHES_ON_PAUSE
  {
    if !paused then LightsStep(0, false)
    else LightsStep(count + 1, count + 1 > MAX_FLASHES_ON_PAUSE)
  }

  /**
   * Given whether the game is paused at each run, the index of the run at
   * which a task whose counter is `count` stops itself, if it does.
   */
  function CancelRun(runs: seq<bool>, count: int): (r: Option<nat>)
    ensures r.Some? ==> r.value < |runs| && runs[r.value]
    ensures (forall j :: 0 <= j < |runs| ==> !runs[j]) ==> r == None
  {
    if runs == [] then None
    else
      var s := KeepLightsStep(runs[0], count);
      if s.cancels then Some(0)
      else match CancelRun(runs[1..], s.count)
        case None => None
        case Some(i) => Some(i + 1)
  }

  /** A fresh task whose first 17 runs all find the game paused stops itself on the 17th. */
  lemma SeventeenPausedRunsCancel(runs: seq<bool>)
    requires |runs| > MAX_FLASHES_ON_PAUSE
    requires forall j :: 0 <= j <= MAX_FLASHES_ON_PAUSE ==> runs[j]
    ensures CancelRun(runs, 0) == Some(MAX_FLASHES_ON_PAUSE)
  {
    PausedRunsCancel(runs, 0);
  }

  lemma {:induction false} PausedRunsCancel(runs: seq<bool>, count: int)
    requires 0 <= count <= MAX_FLASHES_ON_PAUSE
    requires |runs| > MAX_FLASHES_ON_PAUSE - count
    requires forall j :: 0 <= j <= MAX_FLASHES_ON_PAUSE - count ==> runs[j]
    ensures CancelRun(runs, count) == Some(MAX_FLASHES_ON_PAUSE - count)
  {
    if count < MAX_FLASHES_ON_PAUSE {
      PausedRunsCancel(runs[1..], count + 1);
    }
  }

  /**
   * A task that stops itself does so only after a streak of 17 paused runs:
   * the run that cancels and the 16 before it all found the game paused.
   */
  lemma CancelOnlyAfterSeventeenPausedRuns(runs: seq<bool>, i: nat)
    requires CancelRun(runs, 0) == Some(i)
    ensures MAX_FLASHES_ON_PAUSE <= i < |runs|
    ensures forall j :: i - MAX_FLASHES_ON_PAUSE <= j <= i ==> runs[j]
  {
    CancelNeedsPausedStreak(runs, 0, i);
  }

  lemma {:induction false} CancelNeedsPausedStreak(runs: seq<bool>, count: int, i: nat)
    requires 0 <= count <= MAX_FLASHES_ON_PAUSE
    requires CancelRun(runs, count) == Some(i)
    ensures i + count >= MAX_FLASHES_ON_PAUSE && i < |runs|
    ensures forall j :: 0 <= j && i - MAX_FLASHES_ON_PAUSE <= j <= i ==> runs[j]
  {
    var s := KeepLightsStep(runs[0], count);
    if !s.cancels {
      var rest := runs[1..];
      CancelNeedsPausedStreak(rest, s.count, i - 1);
      assert !runs[0] ==> s.count == 0 && i > MAX_FLASHES_ON_PAUSE;
      forall j | 0 <= j && i - MAX_FLASHES_ON_PAUSE <= j <= i
        ensures runs[j]
      {
        if j > 0 {
          assert runs[j] == rest[j - 1];
        }
      }
    }
  }

  // ---------------------------------------------------------------------------
  // The canvas

  /** The state that `GameCanvas` keeps for any game built on it. */
  class GameCanvas {
    /** Soft-key codes found by the device probe when the canvas was built. */
    const KEY_SOFT1: int
    const KEY_SOFT2: int
    var isPaused: bool
    /** Sequences the game events; exists only while the game runs. */
    var timer: Timer?
    var timerKeepLightsOn: Timer?
    /** Counter of the one live keep-lights task (a new task starts at 0). */
    var cntFlashesOnPause: int
    var animationThread: AnimationThread?
    var needsRepaint: Urgency

    ghost predicate Valid()
      reads this, timer, timerKeepLightsOn
    {
      && (isPaused ==> timer == null)
      && (timer != null ==> !timer.cancelled)
      && (timerKeepLightsOn != null ==>
            && !timerKeepLightsOn.cancelled
            && timerKeepLightsOn.tasks == [Scheduled(KeepLightsOn, 0, KEEP_LIGHTS_PERIOD)]
            && 0 <= cntFlashesOnPause <= MAX_FLASHES_ON_PAUSE)
      && (timer != null && timerKeepLightsOn != null ==> timer != timerKeepLightsOn)
    }

    constructor (soft1: int, soft2: int)
      ensures Valid()
      ensures KEY_SOFT1 == soft1 && KEY_SOFT2 == soft2
      ensures !isPaused && timer == null && timerKeepLightsOn == null && animationThread == null
      ensures needsRepaint == REPAINT_ALL
    {
      KEY_SOFT1, KEY_SOFT2 := soft1, soft2;
      isPaused := false;
      timer, timerKeepLightsOn := null, null;
      cntFlashesOnPause := 0;
      animationThread := null;
      needsRepaint := REPAINT_ALL;
    }

    /** Pause: the game-event timer is cancelled and dropped, a full repaint is requested. */
    method Pause()
      requires Valid()
      modifies this, timer
      ensures Valid()
      ensures isPaused && timer == null && needsRepaint == REPAINT_ALL
      ensures old(timer) != null ==> old(timer).cancelled && old(timer).tasks == old(timer.tasks)
      ensures timerKeepLightsOn == old(timerKeepLightsOn) && cntFlashesOnPause == old(cntFlashesOnPause)
      ensures animationThread == old(animationThread)
    {
      needsRepaint := REPAINT_ALL;
      isPaused := true;
      if timer != null {
        timer.Cancel();
        timer := null;
      }
    }

    /**
     * Resume: a new, empty game-event timer; the keep-lights timer is created
     * and its task scheduled only if there is none.
     */
    method Resume()
      requires Valid()
      modifies this
      ensures Valid()
      ensures !isPaused && needsRepaint == REPAINT_ALL
      ensures timer != null && fresh(timer) && timer.tasks == []
      ensures old(timerKeepLightsOn) == null ==> fresh(timerKeepLightsOn) && cntFlashesOnPause == 0
      ensures old(timerKeepLightsOn) != null ==>
                timerKeepLightsOn == old(timerKeepLightsOn) && cntFlashesOnPause == old(cntFlashesOnPause)
      ensures animationThread == old(animationThread)
    {
      needsRepaint := REPAINT_ALL;
      isPaused := false;
      timer := new Timer();
      if timerKeepLightsOn == null {
        timerKeepLightsOn := new Timer();
        cntFlashesOnPause := 0;
        timerKeepLightsOn.Schedule(KeepLightsOn, 0, KEEP_LIGHTS_PERIOD);
      }
    }

    /** The first half of `start`: a new animation thread becomes the canvas's. */
    method LaunchAnimationThread()
      modifies this`animationThread
      ensures animationThread != null && fresh(animationThread)
    {
      animationThread := new AnimationThread();
    }

    /** The second half of `stop`: the animation thread loses its identity and ends its loop. */
    method ReleaseAnimationThread()
      modifies this`animationThread
      ensures animationThread == null
    {
      animationThread := null;
    }

    /** Start: register a new animation thread, then resume. */
    method Start()
      requires Valid()
      modifies this
      ensures Valid()
      ensures animationThread != null && fresh(animationThread)
      ensures !isPaused && needsRepaint == REPAINT_ALL
      ensures timer != null && fresh(timer) && timer.tasks == []
      ensures old(timerKeepLightsOn) == null ==> fresh(timerKeepLightsOn) && cntFlashesOnPause == 0
      ensures old(timerKeepLightsOn) != null ==>
                timerKeepLightsOn == old(timerKeepLightsOn) && cntFlashesOnPause == old(cntFlashesOnPause)
    {
      LaunchAnimationThread();
      Resume();
    }

    /** Stop: pause, then release the animation thread. */
    method Stop()
      requires Valid()
      modifies this, timer
      ensures Valid()
      ensures isPaused && timer == null && needsRepaint == REPAINT_ALL && animationThread == null
      ensures old(timer) != null ==> old(timer).cancelled
      ensures timerKeepLightsOn == old(timerKeepLightsOn) && cntFlashesOnPause == old(cntFlashesOnPause)
    {
      Pause();
      ReleaseAnimationThread();
    }

    /** The screen was hidden: the game pauses. */
    method HideNotify()
      requires Valid()
      modifies this, timer
      ensures Valid()
      ensures isPaused && timer == null && needsRepaint == REPAINT_ALL
      ensures old(timer) != null ==> old(timer).cancelled
      ensures timerKeepLightsOn == old(timerKeepLightsOn) && cntFlashesOnPause == old(cntFlashesOnPause)
      ensures animationThread == old(animationThread)
    {
      Pause();
    }

    /** `RepaintTask.run`: a timer event asks for a repaint. */
    method RepaintTaskRun()
      modifies this`needsRepaint
      ensures needsRepaint == Raise(old(needsRepaint), REPAINT_TIMER)
    {
      needsRepaint := Raise(needsRepaint, REPAINT_TIMER);
    }

    /**
     * `KeepLightsOnTask.run`, fired by the keep-lights timer: the counter of
     * consecutive paused runs grows, or restarts at 0 when the game runs; past
     * MAX_FLASHES_ON_PAUSE the task cancels and drops its own timer.
     */
    method KeepLightsOnRun()
      requires Valid() && timerKeepLightsOn != null
      modifies this, timerKeepLightsOn
      ensures Valid()
      ensures cntFlashesOnPause == KeepLightsStep(old(isPaused), old(cntFlashesOnPause)).count
      ensures KeepLightsStep(old(isPaused), old(cntFlashesOnPause)).cancels ==>
                timerKeepLightsOn == null && old(timerKeepLightsOn).cancelled
      ensures !KeepLightsStep(old(isPaused), old(cntFlashesOnPause)).cancels ==>
                timerKeepLightsOn == old(timerKeepLightsOn) && !timerKeepLightsOn.cancelled
      ensures isPaused == old(isPaused) && timer == old(timer) && needsRepaint == old(needsRepaint)
      ensures animationThread == old(animationThread)
    {
      if !isPaused {
        cntFlashesOnPause := 0;
      } else {
        cntFlashesOnPause := cntFlashesOnPause + 1;
        if cntFlashesOnPause > MAX_FLASHES_ON_PAUSE {
          timerKeepLightsOn.Cancel();
          timerKeepLightsOn := null;
        }
      }
    }

    /**
     * One rendering step of the animation thread: when the canvas is shown and
     * a repaint is pending, the cell is reset to REPAINT_NONE and then a
     * repaint is requested (`render`).
     */
    method ConsumeRepaint(shown: bool) returns (render: bool)
      modifies this`needsRepaint
      ensures render == (shown && old(needsRepaint) != REPAINT_NONE)
      ensures needsRepaint == if render then REPAINT_NONE else old(needsRepaint)
    {
      render := false;
      if shown && needsRepaint != REPAINT_NONE {
        needsRepaint := REPAINT_NONE;
        render := true;
      }
    }

    /**
     * A key press: the action is computed first, a paused and shown game
     * resumes, a non-zero action is handed to the game (`dispatched`), and a
     * key repaint is requested in every case.
     */
    method KeyPressed(keyCode: int, platform: PlatformAction, shown: bool) returns (dispatched: Option<int>)
      requires Valid()
      modifies this
      ensures Valid()
      ensures var action := GetGameAction(platform, KEY_SOFT1, KEY_SOFT2, keyCode);
              dispatched == if action != 0 then Some(action) else None
      ensures old(isPaused) && shown ==>
                && !isPaused && timer != null && fresh(timer) && timer.tasks == []
                && needsRepaint == REPAINT_ALL
                && (old(timerKeepLightsOn) == null ==> fresh(timerKeepLightsOn) && cntFlashesOnPause == 0)
                && (old(timerKeepLightsOn) != null ==>
                      timerKeepLightsOn == old(timerKeepLightsOn) && cntFlashesOnPause == old(cntFlashesOnPause))
      ensures !(old(isPaused) && shown) ==>
                && isPaused == old(isPaused) && timer == old(timer)
                && timerKeepLightsOn == old(timerKeepLightsOn) && cntFlashesOnPause == old(cntFlashesOnPause)
                && needsRepaint == Raise(old(needsRepaint), REPAINT_KEY)
      ensures animationThread == old(animationThread)
    {
      var actionCode := GetGameAction(platform, KEY_SOFT1, KEY_SOFT2, keyCode);
      if isPaused && shown {
        Resume();
      }
      dispatched := if actionCode != 0 then Some(actionCode) else None;
      needsRepaint := Raise(needsRepaint, REPAINT_KEY);
      RaiseAbsorbs(REPAINT_ALL, REPAINT_KEY);
    }
  }

  /** Pausing twice leaves the canvas as pausing once does. */
  method PauseTwice(c: GameCanvas)
    requires c.Valid()
    modifies c, c.timer
    ensures c.Valid() && c.isPaused && c.timer == null && c.needsRepaint == REPAINT_ALL
    ensures old(c.timer) != null ==> old(c.timer).cancelled
    ensures c.timerKeepLightsOn == old(c.timerKeepLightsOn) && c.cntFlashesOnPause == old(c.cntFlashesOnPause)
    ensures c.animationThread == old(c.animationThread)
  {
    c.Pause();
    ghost var once := (c.isPaused, c.timer, c.timerKeepLightsOn, c.cntFlashesOnPause, c.animationThread, c.needsRepaint);
    c.Pause();
    assert (c.isPaused, c.timer, c.timerKeepLightsOn, c.cntFlashesOnPause, c.animationThread, c.needsRepaint) == once;
  }
}

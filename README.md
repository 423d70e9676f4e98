# Lode Runner session controller, in Dafny

A verified model of the game-session core of the Lode Runner MIDlet (the
`loderunner-fork` Java ME game). It has two layers:

- **`GameCanvas`** (module `Game`, file `game_canvas.dfy`) is the generic game canvas.
  - The pause/resume/start/stop state machine over `isPaused`, the game-event `timer`, the keep-lights timer and the animation-thread handle.
  - The repaint-urgency cell `needsRepaint` (module `Repaint`), raised by bitwise OR and reset by the rendering step.
  - The key-code fallback table behind `getGameAction`.
  - The generic `keyPressed`.
  - The keep-lights task, which cancels its own timer after 17 consecutive paused runs.
- **`LodeRunnerCanvas`** (module `LodeRunner`, file `lode_runner_canvas.dfy`) is the Lode Runner subclass.
  - The session fields `level`, `lifes`, `newLevel`, `pauseMessage` and the `levelStatuses` byte array, and their persistence.
  - `stageOver`, the hero heartbeat that triggers it, and `nextLevelNotDone`.
  - The paused-mode key protocol, including three-digit level entry.
  - The overrides of `pause`, `resume`, `start`, `stop` and `getGameAction`.

Java inheritance is modelled by composition. A `LodeRunnerCanvas` holds its
`GameCanvas` part as `canvas`. Each overridden step is written out in the
order Java's virtual dispatch runs it. For example, `start` launches the
animation thread, runs the Lode Runner `resume`, then the Lode Runner
`pause`.

The pure rules are in module `LodeRunnerSession` (`lode_runner_session.dfy`):

- the session record and its reader;
- the level/lives rule of a finished stage;
- the level-entry accumulator;
- the "next level not done" scan order;
- the `keyPressed` branch order;
- the action-to-move switch;
- `format3`.

Supporting modules:

- `JavaInt` and `DataStream` (`java_int.dfy`): Java `int` wrap-around, truncating `%`, and `DataOutput.writeInt`/`DataInput.readInt` (4 bytes, big-endian, two's complement).
- `Text` (`text.dfy`): decimal rendering of numbers.
- `Midp` (`midp.dfy`): the MIDP 2.0 `Canvas` key and action constants.
- `Wrappers` (`wrappers.dfy`): `Option`.

Collaborators that are not part of this model become values the model is
given or produces:

- a stage load is recorded in `stageLoads`, as the level it loads;
- the hero's heartbeat is summarised by a `HeroBeat`, i.e. the stage's end flags;
- a hero move request is a `KeyEffect.RequestMove`;
- the record store is the single slot `store`;
- whether the canvas is shown, and what the platform's `Canvas.getGameAction` returns or throws, are parameters.

`MAX_LEVELS` and `GAME_LEVELS` are defined in `LodeRunnerStage`, which is not
part of this model. They are declared as constants with `MAX_LEVELS > 0` and
`GAME_LEVELS > 0`. The model also assumes `MAX_LEVELS < 1000`: three typed
digits must be able to reach every level, and `format3` shows level numbers
in three characters.

## Model

| member | source | states |
|---|---|---|
| Repaint.Raise | trunk/src/org/loderunner/GameCanvas.java:59-61 | OR-ing a reason into the urgency gives the union of their reason sets; the result is never below either operand |
| Repaint.ReasonsInjective | trunk/src/org/loderunner/GameCanvas.java:33-40 | the four urgency levels are exactly the four subsets of {timer, key}, so each level is told apart by its reasons |
| Repaint.TimerThenKeyIsAll | trunk/src/org/loderunner/GameCanvas.java:33-40 | raising TIMER then KEY from any level yields REPAINT_ALL |
| Repaint.RaiseAbsorbs | trunk/src/org/loderunner/GameCanvas.java:33-40 | REPAINT_ALL absorbs every raise, and raising the same reason twice equals raising it once |
| Game.Lookup | trunk/src/org/loderunner/GameCanvas.java:187-203 | first-match lookup in an ordered key table: the action of the earliest matching entry, 0 when no entry matches |
| Game.Fallback | trunk/src/org/loderunner/GameCanvas.java:187-203 | a key maps to 0 exactly when it is none of SOFT1, SOFT2, NUM1-NUM6, NUM8; otherwise to one of GAME_A, GAME_B, UP, LEFT, FIRE, RIGHT, DOWN; GAME_A exactly for SOFT1/NUM1, GAME_B exactly for the remaining SOFT2/NUM3 |
| Game.FallbackIsTableLookup | trunk/src/org/loderunner/GameCanvas.java:187-203 | the if-chain equals first-match lookup in the table SOFT1/NUM1→GAME_A, SOFT2/NUM3→GAME_B, NUM2→UP, NUM4→LEFT, NUM5→FIRE, NUM6→RIGHT, NUM8→DOWN |
| Game.GetGameAction | trunk/src/org/loderunner/GameCanvas.java:180-205 | a non-zero platform code is returned unchanged; a zero code or an exception falls back to the table; the fallback yields only 0 or one of the seven table actions |
| Game.KeepLightsStep | trunk/src/org/loderunner/GameCanvas.java:75-87 | a run while playing resets the counter and never cancels; a run while paused adds one; it cancels exactly when paused with the counter already at 16 or more |
| Game.CancelRun | trunk/src/org/loderunner/GameCanvas.java:75-87 | the run at which the task cancels, if any, is one of the given runs and one that found the game paused; with no paused run it never cancels |
| Game.SeventeenPausedRunsCancel | trunk/src/org/loderunner/GameCanvas.java:75-87 | from a fresh counter, 17 consecutive paused runs cancel the keep-lights timer, on the 17th run |
| Game.PausedRunsCancel | trunk/src/org/loderunner/GameCanvas.java:75-87 | from counter c, 17 - c further paused runs cancel the timer, on the last of them |
| Game.CancelOnlyAfterSeventeenPausedRuns | trunk/src/org/loderunner/GameCanvas.java:75-87 | conversely, a cancel at run i (from a fresh counter) means runs i-16..i were all paused |
| Game.CancelNeedsPausedStreak | trunk/src/org/loderunner/GameCanvas.java:75-87 | from any counter c in 0..16, a cancel at run i needs i + c >= 16, and every run between i-16 and i paused |
| Game.Timer.Schedule | trunk/src/org/loderunner/GameCanvas.java:167 | scheduling appends the task, with its delay and period, to the timer's tasks |
| Game.Timer.Cancel | trunk/src/org/loderunner/GameCanvas.java:155 | a cancelled timer keeps its task list and fires no more |
| Game.GameCanvas.constructor | trunk/src/org/loderunner/GameCanvas.java:91-98 | running, with no timers, no animation thread and REPAINT_ALL pending |
| Game.GameCanvas.Pause | trunk/src/org/loderunner/GameCanvas.java:151-158 | paused, the old timer cancelled, timer null, REPAINT_ALL; the keep-lights timer and thread are untouched |
| Game.PauseTwice | trunk/src/org/loderunner/GameCanvas.java:151-158 | a second pause leaves the state of the first: paused, no timer, REPAINT_ALL, the original timer cancelled, the keep-lights timer, its counter and the thread untouched |
| Game.GameCanvas.Resume | trunk/src/org/loderunner/GameCanvas.java:161-169 | running, a fresh empty timer, REPAINT_ALL; a keep-lights timer (counter 0) only if none existed, else it and its counter are kept |
| Game.GameCanvas.LaunchAnimationThread | trunk/src/org/loderunner/GameCanvas.java:139-140 | a fresh animation thread is registered |
| Game.GameCanvas.ReleaseAnimationThread | trunk/src/org/loderunner/GameCanvas.java:147 | the animation thread handle is cleared |
| Game.GameCanvas.Start | trunk/src/org/loderunner/GameCanvas.java:138-142 | a fresh thread is registered, then the canvas resumes |
| Game.GameCanvas.Stop | trunk/src/org/loderunner/GameCanvas.java:145-148 | the canvas pauses, then the thread handle is cleared |
| Game.GameCanvas.HideNotify | trunk/src/org/loderunner/GameCanvas.java:172-174 | hiding the screen pauses the canvas |
| Game.GameCanvas.RepaintTaskRun | trunk/src/org/loderunner/GameCanvas.java:59-61 | a timer event ORs REPAINT_TIMER into the urgency |
| Game.GameCanvas.KeepLightsOnRun | trunk/src/org/loderunner/GameCanvas.java:75-87 | the counter restarts at 0 while running, and grows while paused; past 16 the timer is cancelled and dropped; nothing else changes |
| Game.GameCanvas.ConsumeRepaint | trunk/src/org/loderunner/GameCanvas.java:116-120 | exactly when shown with a repaint pending, it resets the urgency to NONE and then renders; otherwise nothing changes |
| Game.GameCanvas.KeyPressed | trunk/src/org/loderunner/GameCanvas.java:211-222 | the action is computed before resuming; only a paused and shown canvas resumes, with a fresh empty timer and, if it had none, a fresh keep-lights timer with counter 0 (else both kept); only a non-zero action is dispatched; REPAINT_KEY is raised |
| JavaInt.Wrap | src/org/loderunner/LodeRunnerCanvas.java:603-609 | Java `int` overflow: the result is in int32 range, congruent modulo 2^32, and equal to the input when that is already in range |
| JavaInt.Rem | src/org/loderunner/LodeRunnerCanvas.java:362 | Java `%`: a remainder smaller than the divisor in magnitude, with the sign of the dividend, and `a == b * (a / b) + a % b` for Java's truncating `/`; the dividend itself when it is smaller than the divisor in magnitude |
| DataStream.WriteInt | src/org/loderunner/LodeRunnerCanvas.java:69-70 | writeInt produces four bytes |
| DataStream.ReadInt | src/org/loderunner/LodeRunnerCanvas.java:76-77 | readInt always yields an int32 value |
| DataStream.ReadWriteInt | src/org/loderunner/LodeRunnerCanvas.java:68-77 | readInt undoes writeInt for every int32 value |
| DataStream.WriteReadInt | src/org/loderunner/LodeRunnerCanvas.java:68-77 | writeInt undoes readInt for every 4 bytes |
| Text.NaturalString | src/org/loderunner/LodeRunnerCanvas.java:450 | the decimal digits of n with no leading zero, denoting n |
| Text.DecimalString | src/org/loderunner/LodeRunnerCanvas.java:343 | the decimal form of an int, with "-" for negatives |
| Text.LeadingZero | src/org/loderunner/LodeRunnerCanvas.java:443-451 | a leading "0" does not change the number a digit string denotes |
| LodeRunnerSession.Serialize | src/org/loderunner/LodeRunnerCanvas.java:68-72 | the record is 8 + (number of statuses) bytes: readInt of bytes 0-3 is the level, of bytes 4-7 the lives, then the statuses |
| LodeRunnerSession.Deserialize | src/org/loderunner/LodeRunnerCanvas.java:75-83 | the statuses keep MAX_LEVELS entries; the read is complete iff the record has 8 + MAX_LEVELS bytes or more; under 4 bytes nothing changes, 4-7 bytes set only the level; int32 fields stay int32 |
| LodeRunnerSession.SerializeRoundTrip | src/org/loderunner/LodeRunnerCanvas.java:68-83 | reading a written record restores level, lives and every status, whatever the fields held before, and the record is 8 + MAX_LEVELS bytes |
| LodeRunnerSession.TrailingBytesIgnored | src/org/loderunner/LodeRunnerCanvas.java:75-78 | bytes after a record are ignored |
| LodeRunnerSession.DeserializeThenSerialize | src/org/loderunner/LodeRunnerCanvas.java:68-83 | after a complete read, writing the fields reproduces the first 8 + MAX_LEVELS bytes of the record |
| LodeRunnerSession.StageOutcome | src/org/loderunner/LodeRunnerCanvas.java:602-617 | success: next level (MAX_LEVELS wraps to 0), same lives, no message exactly at a chapter start, else "Congratulations !". Failure: one life less with "Try again...", or from 0 lives level 0, 5 lives, "Game Over". Level and lives ranges are kept |
| LodeRunnerSession.NextLevelWraps | src/org/loderunner/LodeRunnerCanvas.java:603-606 | for a level in range, incrementing then wrapping MAX_LEVELS to 0 is `(level + 1) % MAX_LEVELS` |
| LodeRunnerSession.DigitOf | src/org/loderunner/LodeRunnerCanvas.java:299-333 | a key is a digit iff it is KEY_NUM0..KEY_NUM9, and the digit is its offset from KEY_NUM0; otherwise -1 |
| LodeRunnerSession.AccumulateDigit | src/org/loderunner/LodeRunnerCanvas.java:336-339 | from an entry in 0..999 the new entry is the last three digits of entry·10 + digit, 0 read as 1, so it lies in 1..999; any int32 entry stays within the field's bounds |
| LodeRunnerSession.AppendDigit | src/org/loderunner/LodeRunnerCanvas.java:336-339 | for an entry in 0..999, unless the last two digits and the digit are all 0, the entry becomes 10·(entry mod 100) + digit |
| LodeRunnerSession.ThreeDigitsSelect | src/org/loderunner/LodeRunnerCanvas.java:334-339 | from any seed in 0..999, three typed digits whose first is not 0 leave exactly the number they spell |
| LodeRunnerSession.NegativeSeedDigits | src/org/loderunner/LodeRunnerCanvas.java:336-339 | a negative seed keeps its sign: after -5, the digits 1, 2, 3 leave -877 |
| LodeRunnerSession.LeadingZeroAfterRoundSeed | src/org/loderunner/LodeRunnerCanvas.java:336-339 | the 0-as-1 rule carries into later digits: 0,0,5 from 100 gives 105, from 1 gives 5 |
| LodeRunnerSession.NextNotDoneUnique | src/org/loderunner/LodeRunnerCanvas.java:567-581 | for any level, the scan order (level+1..MAX_LEVELS-1, then 0..level) picks at most one level |
| LodeRunnerSession.LodeRunnerGameAction | src/org/loderunner/LodeRunnerCanvas.java:268-281 | while running, the base action unchanged; while paused, GAME_A..GAME_D become 0 and every other base action is kept |
| LodeRunnerSession.GameAction | src/org/loderunner/LodeRunnerCanvas.java:232-262 | no move without a hero, and none for a code outside the nine handled actions; with a hero: climb up iff UP, climb down iff DOWN, run left iff LEFT, run right iff RIGHT, dig left iff GAME_A/GAME_C or FIRE facing left, dig right iff GAME_B/GAME_D or FIRE facing right |
| LodeRunnerSession.FallbackActionsMoveHero | src/org/loderunner/LodeRunnerCanvas.java:232-262 | every non-zero action of the fallback key table moves a present hero |
| LodeRunnerSession.KeyBranchOf | src/org/loderunner/LodeRunnerCanvas.java:284-298 | the menu branch iff running and key 0, forwarding iff running and any other key; resuming iff paused with FIRE not on key 5; otherwise, while paused, the tests SOFT1 (next level), SOFT2 (lose a life), `*` (clear), `#` (exit) in that order, and the digit branch (carrying DigitOf of the key) for every other key |
| LodeRunnerSession.PausedDigitKeys | src/org/loderunner/LodeRunnerCanvas.java:287-333 | while paused, a digit key that is not a soft key types its digit, including key 5 when it maps to FIRE |
| LodeRunnerSession.Format3 | src/org/loderunner/LodeRunnerCanvas.java:443-451 | for n >= 0 the text is all digits and denotes n; below 100 it starts with "0" |
| LodeRunnerSession.ZeroPadding | src/org/loderunner/LodeRunnerCanvas.java:443-451 | one or two leading zeros keep a digit string's value |
| LodeRunnerSession.Format3ThreeDigits | src/org/loderunner/LodeRunnerCanvas.java:443-451 | for 0 <= n < 1000, format3 gives exactly three digits denoting n |
| LodeRunner.HeartbeatTasks | src/org/loderunner/LodeRunnerCanvas.java:558-562 | three tasks, all starting at once: hero every 66 ms, villains every 132 ms, stage every 132 ms, none of them the keep-lights task |
| LodeRunner.LodeRunnerCanvas.constructor | src/org/loderunner/LodeRunnerCanvas.java:46-65 | level 0, 5 lives, no level done, then a stored record read over them (possibly partially); the stage for that level is loaded; REPAINT_ALL |
| LodeRunner.LodeRunnerCanvas.DeserializeState | src/org/loderunner/LodeRunnerCanvas.java:75-83 | the fields become what Deserialize reads from the record over the old fields, and `eof` reports a record too short; nothing else changes |
| LodeRunner.LodeRunnerCanvas.Pause | src/org/loderunner/LodeRunnerCanvas.java:353-363 | the canvas pauses, the store holds the record of the session, and level entry restarts at `level % MAX_LEVELS + 1` (level + 1 for a level in range) |
| LodeRunner.PauseTwice | src/org/loderunner/LodeRunnerCanvas.java:353-363 | a second pause leaves the state of the first: paused, no timer, REPAINT_ALL, the original timer cancelled, the keep-lights timer, its counter, the thread and the stage loads untouched, the same record saved and the same entry seeded |
| LodeRunner.LodeRunnerCanvas.Resume | src/org/loderunner/LodeRunnerCanvas.java:554-563 | the canvas resumes, the message clears, and the new timer holds exactly hero/66 ms, villains/132 ms, stage/132 ms |
| LodeRunner.LodeRunnerCanvas.Start | src/org/loderunner/LodeRunnerCanvas.java:545-548 | a fresh thread is registered, and the game ends paused with no timer, no message and the session saved |
| LodeRunner.LodeRunnerCanvas.Stop | src/org/loderunner/LodeRunnerCanvas.java:366-372 | the game pauses (saving), the thread handle is cleared, and the store holds the session record |
| LodeRunner.LodeRunnerCanvas.HideNotify | trunk/src/org/loderunner/GameCanvas.java:172-174 | hiding the screen runs the Lode Runner pause: paused, no timer, the old timer cancelled, the keep-lights timer, its counter, the thread and the stage loads kept, the session saved and the entry reseeded |
| LodeRunner.LodeRunnerCanvas.StageOver | src/org/loderunner/LodeRunnerCanvas.java:594-624 | a running game with the level in range records the old level's flag (DONE or NOT_DONE), cancels its timer and saves the old level and lives with it; a paused one writes no flag and saves nothing; level, lives and message follow StageOutcome; the stage reloads; it ends paused with REPAINT_ALL; a running game whose level is outside the flags throws before anything changes |
| LodeRunner.LodeRunnerCanvas.MoveOn | src/org/loderunner/LodeRunnerCanvas.java:602-623 | level, lives and message become StageOutcome's, the stage for the new level loads and REPAINT_ALL is requested; the entry and the record are kept |
| LodeRunner.LodeRunnerCanvas.MarkLevel | src/org/loderunner/LodeRunnerCanvas.java:596 | only the current level's flag changes |
| LodeRunner.LodeRunnerCanvas.ScanNextNotDone | src/org/loderunner/LodeRunnerCanvas.java:567-581 | with Java's `int` increment and bounds check: an index exception iff the level is below -1, is the largest int, or is past the last level with every flag done; "none left" iff the level is in -1..MAX_LEVELS-1 and every flag is done; otherwise the first level not done in the order level+1..MAX_LEVELS-1, 0..level |
| LodeRunner.LodeRunnerCanvas.NextLevelNotDone | src/org/loderunner/LodeRunnerCanvas.java:565-589 | the message clears first; an index exception exactly where the scan throws, leaving everything else as it was; else if every level is done: level kept, "All levels done!"; else that next level becomes current (its stage loaded) with no message |
| LodeRunner.LodeRunnerCanvas.LoadNewLevel | src/org/loderunner/LodeRunnerCanvas.java:380-388 | the level becomes the typed number minus one, the message clears, and its stage loads |
| LodeRunner.LodeRunnerCanvas.ConfirmClearDoneLevels | src/org/loderunner/LodeRunnerCanvas.java:463-473 | every flag becomes NOT_DONE and the store holds the resulting record |
| LodeRunner.LodeRunnerCanvas.HeroHeartbeatRun | src/org/loderunner/LodeRunnerCanvas.java:491-501 | a completed stage is a success even if the hero also died; a death alone is a failure; either ends as StageOver does (flags, record and entry kept when already paused), and an exception from it skips the repaint request; otherwise only REPAINT_TIMER is raised |
| LodeRunner.LodeRunnerCanvas.TypeDigit | src/org/loderunner/LodeRunnerCanvas.java:334-345 | the entry takes the digit; an entry <= MAX_LEVELS becomes the level (minus one), else the range message "1 <= level <= MAX_LEVELS" shows; REPAINT_ALL |
| LodeRunner.LodeRunnerCanvas.Branch | src/org/loderunner/LodeRunnerCanvas.java:285-298 | the menu branch iff running and key 0; forwarding iff running and another key; resuming iff paused, not key 5, and the canvas's action is FIRE |
| LodeRunner.LodeRunnerCanvas.KeyPressed | src/org/loderunner/LodeRunnerCanvas.java:284-351 | per branch: 0 while running pauses; FIRE not on 5 clears the flag and resumes (an index exception for a level outside the flags); SOFT1 jumps to the next level not done; SOFT2 loses a life; `*` asks to clear; `#` stops and exits; a digit feeds the entry; other paused keys do nothing; each paused branch stays paused with no timer except resuming; running keys reach the canvas handler and move the hero |
| LodeRunner.LodeRunnerCanvas.PausedKeyPressed | src/org/loderunner/LodeRunnerCanvas.java:287-346 | the paused branches, each ending as KeyPressed states for it |

Every `LodeRunnerCanvas` method keeps `Valid()`. `InRange()` means level in
0..MAX_LEVELS-1, lives in 0..5, entry in 0..999, flags 0 or 1. The play
methods (`Pause`, `Start`, `Stop`, `HideNotify`, `StageOver`,
`NextLevelNotDone`, `ConfirmClearDoneLevels`, `HeroHeartbeatRun`,
`TypeDigit`, `KeyPressed`) keep it. `LoadNewLevel` keeps it only for an entry
in 1..MAX_LEVELS, and `MarkLevel` only for a flag of 0 or 1. The constructor
establishes it only when there is no stored record. `DeserializeState` does
not keep it: a record can hold any level, lives and flag bytes.

## Left out

- The animation thread's loop is not modelled: wall-clock timing, `wait`/`yield`, the `this == animationThread` exit test, and the automatic pause when a shown canvas is hidden (`GameCanvas.java` lines 104-134). Only its consume step is modelled, as `ConsumeRepaint`. `AnimationThread` is an identity only.
- Timer threads and periodic firing are not modelled. A `Timer` records its scheduled tasks, and the task bodies are methods the environment may call. Races between tasks and rendering are out, as is the `synchronized` locking.
- The villains' and stage's heartbeats run their actors (stage internals), then `RepaintTask.run`. Only the latter is modelled (`RepaintTaskRun`).
- Rendering is not modelled: `paint`, `paintMessage` (including its chapter splash choice), `painTopMessage`, the `paint*` helpers, fonts and colours. The splash-screen sprite loading is out too.
- `RecordStore` is reduced to the optional record `store`, written in full by each save. An open failure or I/O error is swallowed by the source, so every save is modelled as succeeding. A missing store is `None` at construction.
- Soft-key detection (`detectSoftKeys`, `trySoftKeys`) is reflection and device probing. The soft-key codes are constructor parameters.
- The `clearDoneLevels` confirmation dialog is out. Pressing `*` returns `AskClearDoneLevels`; "Yes" is `ConfirmClearDoneLevels`; "No" changes nothing.
- `endGame` is partly modelled. Its `destroyApp` step runs the canvas `stop` and is modelled. `notifyDestroyed` is the returned `ExitGame`.
- `flashBacklight` is a device call and is not modelled.
- `LodeRunnerStage` is not part of this model: loading, the hero, villains and holes, `heartBeat`, `requestMove`. A load is logged in `stageLoads`; a hero beat arrives as a `HeroBeat`; a move request is returned as `RequestMove`. The model assumes the stage object exists: the source would throw `NullPointerException` in `gameAction` if constructing the stage had failed.
- Exceptions: an `ArrayIndexOutOfBoundsException` at `LodeRunnerCanvas.java` lines 288, 569-577 or 596 (a level outside the flags, possible only after reading a bad record) is modelled as a `thrown` result or the `IndexError` effect, with the state as it was when it was thrown. What becomes of the exception afterwards is not: in a timer task it ends the timer's thread, so later heartbeats stop firing.
- ThreeDigitsSelect: holds only for a seed in 0..999. A record with a level in -MAX_LEVELS+1..-1 makes `pause` (line 362) seed an entry of 0 or less, and Java's truncating `%` then keeps the sign, so three digits do not select their number (`NegativeSeedDigits`).
- The guard at `LodeRunnerCanvas.java` lines 79-81 is dead code and is omitted. `readFully` fills the existing array and cannot change its length.
- The `LodeRunnerMIDlet` and `GameMIDlet` lifecycle glue is not modelled. The exception is `destroyApp`, which `endGame` reaches.
- A short record is not replaced by defaults. `deserializeState` (`LodeRunnerCanvas.java` lines 75-78) keeps whatever it read before the end of the record: the level, then the lives, then a prefix of the flags. `Deserialize` returns `EndOfFile` with those fields. Bytes past a full record are ignored.
- While paused, only FIRE (not on key 5) resumes (lines 287-289). Keys that no branch of lines 285-346 recognises do nothing while paused.
- The level entry is not empty when typing starts. `pause` (line 362) seeds it with `level % MAX_LEVELS + 1`, and a seed that is a multiple of 100 lets the 0-as-1 rule of lines 337-339 reach later digits (`LeadingZeroAfterRoundSeed`).

/**
 * Key codes and game actions of `javax.microedition.lcdui.Canvas` (MIDP 2.0,
 * JSR 118), the values the game canvas compares against.
 */
module Midp {

  // Game actions.
  const UP: int := 1
  const LEFT: int := 2
  const RIGHT: int := 5
  const DOWN: int := 6
  const FIRE: int := 8
  const GAME_A: int := 9
  const GAME_B: int := 10
  const GAME_C: int := 11
  const GAME_D: int := 12

  // Key codes of the ITU-T keypad.
  const KEY_POUND: int := 35
  const KEY_STAR: int := 42
  const KEY_NUM0: int := 48
  const KEY_NUM1: int := 49
  const KEY_NUM2: int := 50
  const KEY_NUM3: int := 51
  const KEY_NUM4: int := 52
  const KEY_NUM5: int := 53
  const KEY_NUM6: int := 54
  const KEY_NUM7: int := 55
  const KEY_NUM8: int := 56
  const KEY_NUM9: int := 57

  /** What `Canvas.getGameAction(keyCode)` of the device did for one key: a code, or an exception. */
  datatype PlatformAction = Mapped(code: int) | Threw
}

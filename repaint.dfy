/**
 * The repaint-urgency cell shared by the timer tasks, the key handler and the
 * animation thread: an `int` in 0..3 whose two bits are the two reasons to redraw.
 */
module Repaint {

  /** No repaint is needed, display is up to date. */
  const REPAINT_NONE: int := 0
  /** Repaint requested by a timer event. */
  const REPAINT_TIMER: int := 1
  /** Repaint requested by a key event. */
  const REPAINT_KEY: int := 2
  /** The whole display must be rendered again. */
  const REPAINT_ALL: int := 3

  type Urgency = u: int | REPAINT_NONE <= u <= REPAINT_ALL

  datatype Reason = TimerEvent | KeyEvent

  /** The reasons an urgency value stands for: bit 0 is the timer, bit 1 the key. */
  function Reasons(u: Urgency): (rs: set<Reason>)
    ensures rs == {} <==> u == REPAINT_NONE
    ensures rs == {TimerEvent, KeyEvent} <==> u == REPAINT_ALL
  {
    (if u % 2 == 1 then {TimerEvent} else {}) + (if u >= 2 then {KeyEvent} else {})
  }

  /** `needsRepaint |= reason`: raising urgency adds the reason's bits and never removes one. */
  function Raise(u: Urgency, reason: Urgency): (r: Urgency)
    ensures Reasons(r) == Reasons(u) + Reasons(reason)
    ensures u <= r && reason <= r
  {
    ((u as bv2) | (reason as bv2)) as int
  }

  /** Reasons determine the value: urgency is the set of pending reasons, nothing more. */
  lemma ReasonsInjective(u: Urgency, v: Urgency)
    requires Reasons(u) == Reasons(v)
    ensures u == v
  {
    assert TimerEvent in Reasons(u) <==> TimerEvent in Reasons(v);
    assert KeyEvent in Reasons(u) <==> KeyEvent in Reasons(v);
  }

  /** A timer request followed by a key request leaves the cell at REPAINT_ALL, whatever it held. */
  lemma TimerThenKeyIsAll(u: Urgency)
    ensures Raise(Raise(u, REPAINT_TIMER), REPAINT_KEY) == REPAINT_ALL
  {
    ReasonsInjective(Raise(Raise(u, REPAINT_TIMER), REPAINT_KEY), REPAINT_ALL);
  }

  /** REPAINT_ALL absorbs every raise, and raising twice for the same reason is raising once. */
  lemma RaiseAbsorbs(u: Urgency, reason: Urgency)
    ensures Raise(REPAINT_ALL, reason) == REPAINT_ALL
    ensures Raise(Raise(u, reason), reason) == Raise(u, reason)
  {
    ReasonsInjective(Raise(REPAINT_ALL, reason), REPAINT_ALL);
    ReasonsInjective(Raise(Raise(u, reason), reason), Raise(u, reason));
  }
}

/** What the two press recognisers (the frame card and the long-pressable row) have in common:
    the 10 px movement tolerance, what they report, and the events they receive. */
module PressSignals {
  import G = Gestures

  /** A finger that moves more than this many pixels along either axis is dragging. */
  const MoveTolerance: real := 10.0

  /** The callbacks a press recogniser invokes. */
  datatype Signal = Click | LongPress

  /** The event stream of one recogniser. A timer callback is an event of its own: `orphan`
      says whether it is the timer the component still holds a handle to (`false`) or one
      scheduled by an earlier touchstart whose handle was overwritten (`true`). */
  datatype PressInput =
    | Down(p: G.Point)
    | Moved(p: G.Point)
    | TimerFired(orphan: bool)
    | Up

  /** The finger at `p` is more than the tolerance away from `start` along either axis. */
  predicate Strayed(start: G.Point, p: G.Point) {
    G.Abs(p.x - start.x) > MoveTolerance || G.Abs(p.y - start.y) > MoveTolerance
  }

  predicate NoDown(inputs: seq<PressInput>) {
    forall i :: 0 <= i < |inputs| ==> !inputs[i].Down?
  }

  lemma NoDownTail(inputs: seq<PressInput>)
    requires inputs != [] && NoDown(inputs)
    ensures !inputs[0].Down? && NoDown(inputs[1..])
  {
    forall i | 0 <= i < |inputs[1..]| ensures !inputs[1..][i].Down? {
      assert inputs[1..][i] == inputs[i + 1];
    }
  }
}

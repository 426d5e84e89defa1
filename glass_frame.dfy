/** The frame card's press handling: a touch that is released without dragging is a click, one
    held until the 450 ms timer fires is a long press, and a drag of more than 10 px is neither.
    The timer callback is an explicit event. A touchstart schedules a new timer without cancelling
    the one the component held, so that one becomes an orphan that still fires later. */
module GlassFramePress {
  import G = Gestures
  import opened PressSignals

  /** The component's refs: the start point, whether the timer it holds a handle to is still
      pending, how many overwritten timers are still pending, and the validity flag. */
  datatype Press = Press(start: G.Point, armed: bool, orphans: nat, valid: bool)

  datatype PressOutcome = PressOutcome(state: Press, signals: seq<Signal>)

  const Initial: Press := Press(G.Point(0.0, 0.0), false, 0, true)

  /** startPress: record the start, re-arm validity and schedule a timer. */
  function StartPress(s: Press, p: G.Point): (r: Press)
    ensures r.start == p && r.valid && r.armed
    ensures r.orphans == s.orphans + (if s.armed then 1 else 0)
  {
    Press(p, true, s.orphans + (if s.armed then 1 else 0), true)
  }

  /** handleMove: ignored once the press is invalid; a drag past the tolerance cancels the held
      timer and invalidates the press. */
  function HandleMove(s: Press, p: G.Point): (r: Press)
    ensures r.start == s.start && r.orphans == s.orphans
    ensures r.valid <==> s.valid && !Strayed(s.start, p)
    ensures r.armed <==> s.armed && (!s.valid || !Strayed(s.start, p))
  {
    if !s.valid then s
    else if Strayed(s.start, p) then s.(armed := false, valid := false)
    else s
  }

  /** The timer callback, the same for every timer: with a long-press callback and a still valid
      press it invalidates the press and reports the long press. */
  function Callback(s: Press, hasOnLongPress: bool): (r: PressOutcome)
    ensures r.signals == (if hasOnLongPress && s.valid then [LongPress] else [])
    ensures r.state == s.(valid := s.valid && !hasOnLongPress)
  {
    if hasOnLongPress && s.valid then PressOutcome(s.(valid := false), [LongPress])
    else PressOutcome(s, [])
  }

  /** A pending timer fires; a timer that is not pending fires nothing. */
  function TimerFires(s: Press, orphan: bool, hasOnLongPress: bool): (r: PressOutcome)
    ensures |r.signals| <= 1 && r.state.start == s.start
    ensures r.signals == [LongPress] <==>
              (if orphan then s.orphans > 0 else s.armed) && hasOnLongPress && s.valid
    ensures r.signals != [] ==> !r.state.valid
    ensures r.signals == [] ==> r.state.valid == s.valid
    ensures !orphan && s.armed ==> !r.state.armed && r.state.orphans == s.orphans
    ensures orphan && s.orphans > 0 ==> r.state.orphans == s.orphans - 1 && r.state.armed == s.armed
    ensures !(if orphan then s.orphans > 0 else s.armed) ==> r == PressOutcome(s, [])
  {
    if orphan then
      if s.orphans == 0 then PressOutcome(s, [])
      else Callback(s.(orphans := s.orphans - 1), hasOnLongPress)
    else
      if !s.armed then PressOutcome(s, [])
      else Callback(s.(armed := false), hasOnLongPress)
  }

  /** endPress: cancel the held timer; a still valid press is a click. */
  function EndPress(s: Press, hasOnClick: bool): (r: PressOutcome)
    ensures r.state == s.(armed := false)
    ensures r.signals == [Click] <==> s.valid && hasOnClick
    ensures r.signals == [] <==> !(s.valid && hasOnClick)
  {
    PressOutcome(s.(armed := false), if s.valid && hasOnClick then [Click] else [])
  }

  function Step(s: Press, input: PressInput, hasOnClick: bool, hasOnLongPress: bool): PressOutcome {
    match input
    case Down(p) => PressOutcome(StartPress(s, p), [])
    case Moved(p) => PressOutcome(HandleMove(s, p), [])
    case TimerFired(orphan) => TimerFires(s, orphan, hasOnLongPress)
    case Up => EndPress(s, hasOnClick)
  }

  function Run(s: Press, inputs: seq<PressInput>, hasOnClick: bool, hasOnLongPress: bool): PressOutcome
    decreases |inputs|
  {
    if inputs == [] then PressOutcome(s, [])
    else
      var first := Step(s, inputs[0], hasOnClick, hasOnLongPress);
      var rest := Run(first.state, inputs[1..], hasOnClick, hasOnLongPress);
      PressOutcome(rest.state, first.signals + rest.signals)
  }

  /** Once a press is invalid (dragged, or its long press reported), nothing it receives before
      the next touchstart reports anything. */
  lemma {:induction false} InvalidPressIsSilent(s: Press, inputs: seq<PressInput>, hasOnClick: bool, hasOnLongPress: bool)
    requires !s.valid && NoDown(inputs)
    ensures Run(s, inputs, hasOnClick, hasOnLongPress).signals == []
    ensures !Run(s, inputs, hasOnClick, hasOnLongPress).state.valid
    decreases |inputs|
  {
    if inputs != [] {
      NoDownTail(inputs);
      var first := Step(s, inputs[0], hasOnClick, hasOnLongPress);
      InvalidPressIsSilent(first.state, inputs[1..], hasOnClick, hasOnLongPress);
    }
  }

  /** Between two touchstarts at most one long press is reported, and none once the press is
      invalid. */
  lemma {:induction false} LongPressAtMostOnce(s: Press, inputs: seq<PressInput>, hasOnClick: bool, hasOnLongPress: bool)
    requires NoDown(inputs)
    ensures multiset(Run(s, inputs, hasOnClick, hasOnLongPress).signals)[LongPress] <= (if s.valid then 1 else 0)
    decreases |inputs|
  {
    if inputs != [] {
      NoDownTail(inputs);
      var first := Step(s, inputs[0], hasOnClick, hasOnLongPress);
      if first.signals == [LongPress] {
        InvalidPressIsSilent(first.state, inputs[1..], hasOnClick, hasOnLongPress);
      } else {
        LongPressAtMostOnce(first.state, inputs[1..], hasOnClick, hasOnLongPress);
        assert first.state.valid ==> s.valid;
        assert first.signals == [] || first.signals == [Click];
      }
    }
  }

  /** No click follows a long press. */
  predicate NoClickAfterLongPress(signals: seq<Signal>) {
    forall i, j :: 0 <= i < j < |signals| && signals[i] == LongPress ==> signals[j] != Click
  }

  /** Between two touchstarts a long press is never followed by a click: the press it
      invalidates stays invalid until the next touchstart. */
  lemma {:induction false} ReleaseAfterLongPressDoesNotClick(s: Press, inputs: seq<PressInput>, hasOnClick: bool, hasOnLongPress: bool)
    requires NoDown(inputs)
    ensures NoClickAfterLongPress(Run(s, inputs, hasOnClick, hasOnLongPress).signals)
    decreases |inputs|
  {
    if inputs != [] {
      NoDownTail(inputs);
      var first := Step(s, inputs[0], hasOnClick, hasOnLongPress);
      var rest := Run(first.state, inputs[1..], hasOnClick, hasOnLongPress).signals;
      if first.signals == [LongPress] {
        InvalidPressIsSilent(first.state, inputs[1..], hasOnClick, hasOnLongPress);
        assert first.signals + rest == [LongPress];
      } else {
        ReleaseAfterLongPressDoesNotClick(first.state, inputs[1..], hasOnClick, hasOnLongPress);
        var all := first.signals + rest;
        if first.signals == [] {
          assert all == rest;
        } else {
          assert first.signals == [Click];
          forall i, j | 0 <= i < j < |all| && all[i] == LongPress ensures all[j] != Click {
            assert all[i] == rest[i - 1];
            assert all[j] == rest[j - 1];
          }
        }
      }
    }
  }

  /** A press dragged past the tolerance right after it starts reports neither a click nor a
      long press, whatever happens before the next touchstart. */
  lemma DraggedPressIsSilent(s: Press, p: G.Point, q: G.Point, inputs: seq<PressInput>, hasOnClick: bool, hasOnLongPress: bool)
    requires Strayed(p, q) && NoDown(inputs)
    ensures Run(s, [Down(p), Moved(q)] + inputs, hasOnClick, hasOnLongPress).signals == []
  {
    var dragged := HandleMove(StartPress(s, p), q);
    InvalidPressIsSilent(dragged, inputs, hasOnClick, hasOnLongPress);
    assert ([Down(p), Moved(q)] + inputs)[1..] == [Moved(q)] + inputs;
    assert ([Moved(q)] + inputs)[1..] == inputs;
  }

  /** Without a long-press callback the timer leaves the press valid, so holding and releasing
      is still a click. */
  lemma HeldPressWithoutCallbackClicks(s: Press, p: G.Point)
    ensures Run(s, [Down(p), TimerFired(false), Up], true, false).signals == [Click]
  {
    var s1 := StartPress(s, p);
    var s2 := TimerFires(s1, false, false).state;
    assert [Down(p), TimerFired(false), Up][1..] == [TimerFired(false), Up];
    assert [TimerFired(false), Up][1..] == [Up];
    assert Run(s2, [Up], true, false).signals == [Click];
  }

  /** A second touchstart before the first timer fired leaves that timer pending; the release
      cancels only the newer one, so the orphan reports a long press after the click. */
  lemma OrphanTimerFiresAfterRelease(p: G.Point)
    ensures Run(Initial, [Down(p), Down(p), Up, TimerFired(true)], true, true).signals == [Click, LongPress]
  {
    var s1 := StartPress(Initial, p);
    var s2 := StartPress(s1, p);
    assert s2.orphans == 1;
    var s3 := EndPress(s2, true).state;
    assert [Down(p), Down(p), Up, TimerFired(true)][1..] == [Down(p), Up, TimerFired(true)];
    assert [Down(p), Up, TimerFired(true)][1..] == [Up, TimerFired(true)];
    assert [Up, TimerFired(true)][1..] == [TimerFired(true)];
    assert Run(s3, [TimerFired(true)], true, true).signals == [LongPress];
    assert Run(s2, [Up, TimerFired(true)], true, true).signals == [Click, LongPress];
    assert Run(s1, [Down(p), Up, TimerFired(true)], true, true).signals == [Click, LongPress];
  }

  /** The component: its callbacks are fixed when it is built, its refs change per event. */
  class GlassFrame {
    const hasOnClick: bool
    const hasOnLongPress: bool

    var startPos: G.Point
    var timerArmed: bool
    var orphanTimers: nat
    var isLongPressValid: bool

    function Snapshot(): Press
      reads this
    {
      Press(startPos, timerArmed, orphanTimers, isLongPressValid)
    }

    constructor (hasOnClick: bool, hasOnLongPress: bool)
      ensures this.hasOnClick == hasOnClick && this.hasOnLongPress == hasOnLongPress
      ensures Snapshot() == Initial
    {
      this.hasOnClick := hasOnClick;
      this.hasOnLongPress := hasOnLongPress;
      startPos := G.Point(0.0, 0.0);
      timerArmed, orphanTimers, isLongPressValid := false, 0, true;
    }

    method HandleStartPress(p: G.Point)
      modifies this
      ensures Snapshot() == StartPress(old(Snapshot()), p)
    {
      startPos := p;
      isLongPressValid := true;
      if timerArmed {
        orphanTimers := orphanTimers + 1;
      }
      timerArmed := true;
    }

    method HandleTouchMove(p: G.Point)
      modifies this
      ensures Snapshot() == HandleMove(old(Snapshot()), p)
    {
      if !isLongPressValid {
        return;
      }
      var diffX := G.Abs(p.x - startPos.x);
      var diffY := G.Abs(p.y - startPos.y);
      if diffX > MoveTolerance || diffY > MoveTolerance {
        timerArmed := false;
        isLongPressValid := false;
      }
    }

    method HandleTimer(orphan: bool) returns (signals: seq<Signal>)
      modifies this
      ensures PressOutcome(Snapshot(), signals) == TimerFires(old(Snapshot()), orphan, hasOnLongPress)
    {
      signals := [];
      if orphan {
        if orphanTimers == 0 {
          return;
        }
        orphanTimers := orphanTimers - 1;
      } else {
        if !timerArmed {
          return;
        }
        timerArmed := false;
      }
      if hasOnLongPress && isLongPressValid {
        isLongPressValid := false;
        signals := [LongPress];
      }
    }

    method HandleEndPress() returns (signals: seq<Signal>)
      modifies this
      ensures PressOutcome(Snapshot(), signals) == EndPress(old(Snapshot()), hasOnClick)
    {
      timerArmed := false;
      signals := [];
      if isLongPressValid && hasOnClick {
        signals := [Click];
      }
    }
  }
}

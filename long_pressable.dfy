/** The long-pressable row's press handling. Unlike the frame card, a drag only cancels the
    long-press timer: the release is still a click unless the long press already fired. A
    disabled row ignores every event. The timer callback is an explicit event; a touchstart
    overwrites the held timer handle without cancelling it, so that timer becomes an orphan. */
module LongPressablePress {
  import G = Gestures
  import opened PressSignals

  /** The component's refs: the start point, whether `timerRef` holds a handle (`held`), whether
      that held timer is still pending (`armed`), how many overwritten timers are still pending,
      and whether the long press fired. */
  datatype Row = Row(start: G.Point, held: bool, armed: bool, orphans: nat, isLongPress: bool)

  datatype RowOutcome = RowOutcome(state: Row, signals: seq<Signal>)

  const Initial: Row := Row(G.Point(0.0, 0.0), false, false, 0, false)

  /** The held timer is pending only while a handle is held. */
  predicate Valid(r: Row) { r.armed ==> r.held }

  /** handleTouchStart. */
  function TouchStart(s: Row, p: G.Point, disabled: bool): (r: Row)
    ensures disabled ==> r == s
    ensures !disabled ==> r.start == p && r.held && r.armed && !r.isLongPress
    ensures !disabled ==> r.orphans == s.orphans + (if s.armed then 1 else 0)
  {
    if disabled then s
    else Row(p, true, true, s.orphans + (if s.armed then 1 else 0), false)
  }

  /** handleTouchMove: ignored without a held handle; a drag past the tolerance cancels the held
      timer and drops the handle. The long-press flag is never touched. */
  function TouchMove(s: Row, p: G.Point, disabled: bool): (r: Row)
    ensures disabled || !s.held ==> r == s
    ensures r.start == s.start && r.orphans == s.orphans && r.isLongPress == s.isLongPress
    ensures !disabled && s.held ==> (r.held <==> !Strayed(s.start, p))
    ensures r.armed <==> s.armed && (disabled || !s.held || !Strayed(s.start, p))
  {
    if disabled || !s.held then s
    else if Strayed(s.start, p) then s.(armed := false, held := false)
    else s
  }

  /** A pending timer fires: it marks the long press and reports it. The handle is kept. */
  function TimerFires(s: Row, orphan: bool): (r: RowOutcome)
    ensures |r.signals| <= 1
    ensures r.signals == [LongPress] <==> (if orphan then s.orphans > 0 else s.armed)
    ensures r.signals != [] ==> r.state.isLongPress
    ensures r.signals == [] ==> r.state == s
    ensures r.state.start == s.start && r.state.held == s.held
    ensures !orphan && s.armed ==> !r.state.armed && r.state.orphans == s.orphans
    ensures orphan && s.orphans > 0 ==> r.state.orphans == s.orphans - 1 && r.state.armed == s.armed
  {
    if orphan then
      if s.orphans == 0 then RowOutcome(s, [])
      else RowOutcome(s.(orphans := s.orphans - 1, isLongPress := true), [LongPress])
    else
      if !s.armed then RowOutcome(s, [])
      else RowOutcome(s.(armed := false, isLongPress := true), [LongPress])
  }

  /** handleTouchEnd: cancel and drop the held timer; the release is a click unless the long
      press fired, however far the finger moved. */
  function TouchEnd(s: Row, disabled: bool, hasOnClick: bool): (r: RowOutcome)
    ensures disabled ==> r == RowOutcome(s, [])
    ensures !disabled && s.held ==> r.state == s.(held := false, armed := false)
    ensures !disabled && !s.held ==> r.state == s
    ensures r.signals == [Click] <==> !disabled && !s.isLongPress && hasOnClick
    ensures r.signals == [] <==> !(!disabled && !s.isLongPress && hasOnClick)
  {
    if disabled then RowOutcome(s, [])
    else
      var cleared := if s.held then s.(held := false, armed := false) else s;
      RowOutcome(cleared, if !s.isLongPress && hasOnClick then [Click] else [])
  }

  function Step(s: Row, input: PressInput, disabled: bool, hasOnClick: bool): RowOutcome {
    match input
    case Down(p) => RowOutcome(TouchStart(s, p, disabled), [])
    case Moved(p) => RowOutcome(TouchMove(s, p, disabled), [])
    case TimerFired(orphan) => TimerFires(s, orphan)
    case Up => TouchEnd(s, disabled, hasOnClick)
  }

  function Run(s: Row, inputs: seq<PressInput>, disabled: bool, hasOnClick: bool): RowOutcome
    decreases |inputs|
  {
    if inputs == [] then RowOutcome(s, [])
    else
      var first := Step(s, inputs[0], disabled, hasOnClick);
      var rest := Run(first.state, inputs[1..], disabled, hasOnClick);
      RowOutcome(rest.state, first.signals + rest.signals)
  }

  /** Every step keeps a pending held timer tied to a held handle. */
  lemma StepKeepsValid(s: Row, input: PressInput, disabled: bool, hasOnClick: bool)
    requires Valid(s)
    ensures Valid(Step(s, input, disabled, hasOnClick).state)
  {
  }

  lemma {:induction false} RunKeepsValid(s: Row, inputs: seq<PressInput>, disabled: bool, hasOnClick: bool)
    requires Valid(s)
    ensures Valid(Run(s, inputs, disabled, hasOnClick).state)
    decreases |inputs|
  {
    if inputs != [] {
      StepKeepsValid(s, inputs[0], disabled, hasOnClick);
      RunKeepsValid(Step(s, inputs[0], disabled, hasOnClick).state, inputs[1..], disabled, hasOnClick);
    }
  }

  /** A row with no pending timer: disabled, it reports nothing whatever it receives. */
  predicate Quiet(s: Row) { !s.armed && s.orphans == 0 }

  /** A disabled row with no pending timer changes nothing and reports nothing. */
  lemma {:induction false} DisabledIsInert(s: Row, inputs: seq<PressInput>, hasOnClick: bool)
    requires Quiet(s)
    ensures Run(s, inputs, true, hasOnClick) == RowOutcome(s, [])
    decreases |inputs|
  {
    if inputs != [] {
      DisabledIsInert(s, inputs[1..], hasOnClick);
    }
  }

  /** Once the long press fired, no release reports a click before the next touchstart. */
  lemma {:induction false} NoClickAfterLongPress(s: Row, inputs: seq<PressInput>, disabled: bool, hasOnClick: bool)
    requires s.isLongPress && NoDown(inputs)
    ensures forall i :: 0 <= i < |Run(s, inputs, disabled, hasOnClick).signals| ==>
              Run(s, inputs, disabled, hasOnClick).signals[i] == LongPress
    ensures Run(s, inputs, disabled, hasOnClick).state.isLongPress
    decreases |inputs|
  {
    if inputs != [] {
      NoDownTail(inputs);
      var first := Step(s, inputs[0], disabled, hasOnClick);
      NoClickAfterLongPress(first.state, inputs[1..], disabled, hasOnClick);
      var rest := Run(first.state, inputs[1..], disabled, hasOnClick).signals;
      assert first.signals == [] || first.signals == [LongPress];
      var all := first.signals + rest;
      forall i | 0 <= i < |all| ensures all[i] == LongPress {
        if i >= |first.signals| {
          assert all[i] == rest[i - |first.signals|];
        }
      }
    }
  }

  /** A drag cancels only the long press: a row pressed, dragged past the tolerance and
      released is still a click (the frame card would report nothing). */
  lemma DraggedRowStillClicks(s: Row, p: G.Point, q: G.Point)
    requires Strayed(p, q)
    ensures Run(s, [Down(p), Moved(q), Up], false, true).signals == [Click]
  {
    var s1 := TouchStart(s, p, false);
    var s2 := TouchMove(s1, q, false);
    assert !s2.held && !s2.isLongPress;
    assert [Down(p), Moved(q), Up][1..] == [Moved(q), Up];
    assert [Moved(q), Up][1..] == [Up];
    assert Run(s2, [Up], false, true).signals == [Click];
  }

  /** A second touchstart before the first timer fired leaves that timer pending; after the
      release it still fires and reports a long press, after the click. */
  lemma OrphanTimerFiresAfterRelease(p: G.Point)
    ensures Run(Initial, [Down(p), Down(p), Up, TimerFired(true)], false, true).signals == [Click, LongPress]
  {
    var s1 := TouchStart(Initial, p, false);
    var s2 := TouchStart(s1, p, false);
    assert s2.orphans == 1;
    var s3 := TouchEnd(s2, false, true).state;
    assert [Down(p), Down(p), Up, TimerFired(true)][1..] == [Down(p), Up, TimerFired(true)];
    assert [Down(p), Up, TimerFired(true)][1..] == [Up, TimerFired(true)];
    assert [Up, TimerFired(true)][1..] == [TimerFired(true)];
    assert Run(s3, [TimerFired(true)], false, true).signals == [LongPress];
    assert Run(s2, [Up, TimerFired(true)], false, true).signals == [Click, LongPress];
    assert Run(s1, [Down(p), Up, TimerFired(true)], false, true).signals == [Click, LongPress];
  }

  /** The component: `disabled` and the click callback are fixed when it is built. */
  class LongPressable {
    const disabled: bool
    const hasOnClick: bool

    var startPos: G.Point
    var timerHeld: bool
    var timerArmed: bool
    var orphanTimers: nat
    var isLongPress: bool

    function Snapshot(): Row
      reads this
    {
      Row(startPos, timerHeld, timerArmed, orphanTimers, isLongPress)
    }

    constructor (disabled: bool, hasOnClick: bool)
      ensures this.disabled == disabled && this.hasOnClick == hasOnClick
      ensures Snapshot() == Initial
    {
      this.disabled := disabled;
      this.hasOnClick := hasOnClick;
      startPos := G.Point(0.0, 0.0);
      timerHeld, timerArmed, orphanTimers, isLongPress := false, false, 0, false;
    }

    method HandleTouchStart(p: G.Point)
      modifies this
      ensures Snapshot() == TouchStart(old(Snapshot()), p, disabled)
    {
      if disabled {
        return;
      }
      isLongPress := false;
      startPos := p;
      if timerArmed {
        orphanTimers := orphanTimers + 1;
      }
      timerHeld, timerArmed := true, true;
    }

    method HandleTouchMove(p: G.Point)
      modifies this
      ensures Snapshot() == TouchMove(old(Snapshot()), p, disabled)
    {
      if disabled || !timerHeld {
        return;
      }
      var moveX := G.Abs(p.x - startPos.x);
      var moveY := G.Abs(p.y - startPos.y);
      if moveX > MoveTolerance || moveY > MoveTolerance {
        timerArmed := false;
        timerHeld := false;
      }
    }

    method HandleTimer(orphan: bool) returns (signals: seq<Signal>)
      modifies this
      ensures RowOutcome(Snapshot(), signals) == TimerFires(old(Snapshot()), orphan)
    {
      signals := [];
      if orphan {
        if orphanTimers == 0 {
          return;
        }
        orphanTimers := orphanTimers - 1;
      } else {
        if !timerArmed {
          return;
        }
        timerArmed := false;
      }
      isLongPress := true;
      signals := [LongPress];
    }

    method HandleTouchEnd() returns (signals: seq<Signal>)
      modifies this
      ensures RowOutcome(Snapshot(), signals) == TouchEnd(old(Snapshot()), disabled, hasOnClick)
    {
      signals := [];
      if disabled {
        return;
      }
      if timerHeld {
        timerArmed := false;
        timerHeld := false;
      }
      if !isLongPress && hasOnClick {
        signals := [Click];
      }
    }
  }
}

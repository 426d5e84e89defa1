/** The multi-touch gesture recogniser: one record of per-touch-session state, driven by
    touchstart, touchmove and touchend, that classifies the touch stream into pinch-in,
    pinch-out, two-finger pull-down, horizontal pan (incremental and on release) and
    three-finger tap. Each handler returns the gestures it reports instead of calling back. */
module Gestures {

  /** One touch point in client coordinates. */
  datatype Point = Point(x: real, y: real)

  /** The pan axis of a one-finger drag; `NoAxis` stands for the recogniser's `null` axis. */
  datatype Axis = NoAxis | AxisX | AxisY

  /** A JavaScript number obtained by dividing by a duration that may be zero. */
  datatype Speed = Finite(v: real) | PosInfinity | NegInfinity | NotANumber
  {
    /** `this < k` as JavaScript evaluates it. */
    predicate Below(k: real) {
      match this
      case Finite(v) => v < k
      case NegInfinity => true
      case _ => false
    }

    /** `this > k` as JavaScript evaluates it. */
    predicate Above(k: real) {
      match this
      case Finite(v) => v > k
      case PosInfinity => true
      case _ => false
    }
  }

  /** `(dx / duration) * 1000`, in pixels per second. */
  function Velocity(dx: real, duration: real): (s: Speed)
    ensures duration != 0.0 ==> s.Finite? && s.v * duration == dx * 1000.0
    ensures duration == 0.0 ==> (s == PosInfinity <==> dx > 0.0) && (s == NegInfinity <==> dx < 0.0)
    ensures duration == 0.0 ==> (s == NotANumber <==> dx == 0.0)
  {
    if duration != 0.0 then Finite(dx / duration * 1000.0)
    else if dx > 0.0 then PosInfinity
    else if dx < 0.0 then NegInfinity
    else NotANumber
  }

  /** What the recogniser reports. */
  datatype Gesture =
    | PinchIn
    | PinchOut
    | TwoFingerPullDown
    | ThreeFingerTap
    | Pan(dx: real, dy: real)
    | PanEnd(dx: real, velocity: Speed)
  {
    /** The gestures that set the latch when a move reports them. */
    predicate Latches() { PinchIn? || PinchOut? || TwoFingerPullDown? }
  }

  // Thresholds of the classifier.
  const PinchInScale: real := 0.65
  const PinchOutScale: real := 1.5
  const PullMinSpacing: real := 30.0
  const PullMaxSpacing: real := 240.0
  const PullSpacingTolerance: real := 0.2
  const PullMinDeltaY: real := 110.0
  const PullMaxDeltaX: real := 50.0
  const AxisJitter: real := 5.0
  const TapMinMs: real := 80.0
  const TapMaxMs: real := 300.0

  /** The recogniser's record. `initialSpacingSq` is the SQUARE of the recogniser's
      `initialSpacing` (the distance between the first two touches), so that no square root
      is needed; SquaredFormExact shows every threshold test keeps its meaning. */
  datatype Session = Session(
    touches: nat,
    startTime: real,
    startX: real,
    startY: real,
    lastX: real,
    lastY: real,
    initialSpacingSq: real,
    maxTouches: nat,
    hasTriggered: bool,
    isPanning: bool,
    panAxis: Axis)

  /** The record as it is first created. */
  const Idle: Session := Session(0, 0.0, 0.0, 0.0, 0.0, 0.0, 0.0, 0, false, false, NoAxis)

  /** A new record and the gestures reported while computing it. */
  datatype Outcome = Outcome(state: Session, events: seq<Gesture>)

  function Abs(r: real): real { if r < 0.0 then -r else r }

  function Max(a: nat, b: nat): nat { if a < b then b else a }

  /** Squared distance between two touches. */
  function SpacingSq(a: Point, b: Point): (d: real)
    ensures d >= 0.0
  {
    (a.x - b.x) * (a.x - b.x) + (a.y - b.y) * (a.y - b.y)
  }

  /** `scale < 0.65` with squared spacings. */
  predicate PinchedIn(curSq: real, initSq: real) {
    curSq < PinchInScale * PinchInScale * initSq
  }

  /** `scale > 1.5` with squared spacings. */
  predicate PinchedOut(curSq: real, initSq: real) {
    curSq > PinchOutScale * PinchOutScale * initSq
  }

  /** `30 <= initialSpacing <= 240 && |current - initial| / initial < 0.2` with squared spacings. */
  predicate PullSpacingOk(curSq: real, initSq: real) {
    PullMinSpacing * PullMinSpacing <= initSq <= PullMaxSpacing * PullMaxSpacing &&
    (1.0 - PullSpacingTolerance) * (1.0 - PullSpacingTolerance) * initSq < curSq &&
    curSq < (1.0 + PullSpacingTolerance) * (1.0 + PullSpacingTolerance) * initSq
  }

  lemma MulNonNeg(a: real, b: real)
    requires 0.0 <= a && 0.0 <= b
    ensures 0.0 <= a * b
  {
  }

  lemma MulPos(a: real, b: real)
    requires 0.0 < a && 0.0 < b
    ensures 0.0 < a * b
  {
  }

  /** On non-negative numbers, comparing squares is comparing the numbers. */
  lemma SquareLess(a: real, b: real)
    requires 0.0 <= a && 0.0 <= b
    ensures a < b <==> a * a < b * b
  {
    assert b * b - a * a == (b - a) * (b + a);
    if a < b {
      MulPos(b - a, b + a);
    } else {
      MulNonNeg(a - b, b + a);
      assert a * a - b * b == (a - b) * (b + a);
    }
  }

  /** Multiplying by a positive number keeps the sign. */
  lemma MulSign(a: real, b: real)
    requires b > 0.0
    ensures a * b > 0.0 <==> a > 0.0
    ensures a * b < 0.0 <==> a < 0.0
  {
    if a > 0.0 {
      MulPos(a, b);
    } else if a < 0.0 {
      MulPos(-a, b);
      assert (-a) * b == -(a * b);
    }
  }

  /** Dividing by a positive number keeps comparisons. */
  lemma DivLess(cur: real, init: real, k: real)
    requires init > 0.0
    ensures cur / init < k <==> cur < k * init
    ensures cur / init > k <==> cur > k * init
  {
    var q := cur / init;
    assert q * init == cur;
    assert cur - k * init == (q - k) * init;
    MulSign(q - k, init);
  }

  lemma PinchInExact(cur: real, init: real)
    requires cur >= 0.0 && init > 0.0
    ensures cur / init < PinchInScale <==> PinchedIn(cur * cur, init * init)
  {
    DivLess(cur, init, PinchInScale);
    SquareLess(cur, PinchInScale * init);
    assert (PinchInScale * init) * (PinchInScale * init) == PinchInScale * PinchInScale * (init * init);
  }

  lemma PinchOutExact(cur: real, init: real)
    requires cur >= 0.0 && init > 0.0
    ensures cur / init > PinchOutScale <==> PinchedOut(cur * cur, init * init)
  {
    DivLess(cur, init, PinchOutScale);
    SquareLess(PinchOutScale * init, cur);
    assert (PinchOutScale * init) * (PinchOutScale * init) == PinchOutScale * PinchOutScale * (init * init);
  }

  lemma PullBandExact(cur: real, init: real)
    requires cur >= 0.0 && init > 0.0
    ensures Abs(cur - init) / init < PullSpacingTolerance <==>
            (1.0 - PullSpacingTolerance) * (1.0 - PullSpacingTolerance) * (init * init) < cur * cur &&
            cur * cur < (1.0 + PullSpacingTolerance) * (1.0 + PullSpacingTolerance) * (init * init)
  {
    var lo := (1.0 - PullSpacingTolerance) * init;
    var hi := (1.0 + PullSpacingTolerance) * init;
    DivLess(Abs(cur - init), init, PullSpacingTolerance);
    SquareLess(lo, cur);
    SquareLess(cur, hi);
    assert lo * lo == (1.0 - PullSpacingTolerance) * (1.0 - PullSpacingTolerance) * (init * init);
    assert hi * hi == (1.0 + PullSpacingTolerance) * (1.0 + PullSpacingTolerance) * (init * init);
  }

  /** The squared tests agree with the recogniser's tests on the spacings themselves. */
  lemma SquaredFormExact(cur: real, init: real)
    requires cur >= 0.0 && init >= 0.0
    ensures init > 0.0 <==> init * init > 0.0
    ensures init > 0.0 ==> (cur / init < PinchInScale <==> PinchedIn(cur * cur, init * init))
    ensures init > 0.0 ==> (cur / init > PinchOutScale <==> PinchedOut(cur * cur, init * init))
    ensures (PullMinSpacing <= init && init <= PullMaxSpacing && Abs(cur - init) / init < PullSpacingTolerance)
            <==> PullSpacingOk(cur * cur, init * init)
  {
    SquareLess(0.0, init);
    SquareLess(PullMinSpacing, init);
    SquareLess(init, PullMaxSpacing);
    if init > 0.0 {
      PinchInExact(cur, init);
      PinchOutExact(cur, init);
      PullBandExact(cur, init);
    }
  }

  /** touchstart: every touchstart, a finger added mid-gesture included, opens the latch,
      forgets the pan axis and restarts the clock and the primary point. */
  function StartStep(s: Session, points: seq<Point>, now: real): (r: Session)
    ensures !r.hasTriggered && !r.isPanning && r.panAxis == NoAxis && r.startTime == now
    ensures r.touches == |points|
    ensures r.maxTouches >= s.maxTouches && r.maxTouches >= |points|
    ensures r.maxTouches == s.maxTouches || r.maxTouches == |points|
    ensures |points| >= 1 ==> r.startX == r.lastX == points[0].x && r.startY == r.lastY == points[0].y
    ensures |points| == 0 ==> r.startX == s.startX && r.startY == s.startY && r.lastX == s.lastX && r.lastY == s.lastY
    ensures |points| == 2 ==> r.initialSpacingSq == SpacingSq(points[0], points[1])
    ensures |points| != 2 ==> r.initialSpacingSq == s.initialSpacingSq
  {
    var n := |points|;
    var tracked := s.(touches := n, maxTouches := Max(s.maxTouches, n), startTime := now,
                      hasTriggered := false, isPanning := false, panAxis := NoAxis);
    var primary := if n >= 1
      then tracked.(startX := points[0].x, startY := points[0].y, lastX := points[0].x, lastY := points[0].y)
      else tracked;
    if n == 2 then primary.(initialSpacingSq := SpacingSq(points[0], points[1])) else primary
  }

  /** True when a move with these touches would report a pinch-in. */
  predicate PinchInFires(s: Session, points: seq<Point>, hasPinchIn: bool)
    requires |points| == 2
  {
    s.initialSpacingSq > 0.0 && PinchedIn(SpacingSq(points[0], points[1]), s.initialSpacingSq) && hasPinchIn
  }

  /** True when a move with these touches would report a pinch-out, pinch-in aside. */
  predicate PinchOutFires(s: Session, points: seq<Point>, hasPinchOut: bool)
    requires |points| == 2
  {
    s.initialSpacingSq > 0.0 && PinchedOut(SpacingSq(points[0], points[1]), s.initialSpacingSq) && hasPinchOut
  }

  /** True when a move with these touches would report a pull-down, pinches aside. */
  predicate PullDownFires(s: Session, points: seq<Point>)
    requires |points| == 2
  {
    PullSpacingOk(SpacingSq(points[0], points[1]), s.initialSpacingSq) &&
    points[0].y - s.startY > PullMinDeltaY && Abs(points[0].x - s.startX) < PullMaxDeltaX
  }

  /** The pan axis after a one-finger move by (dx, dy): decided once, past the jitter. */
  function LockAxis(axis: Axis, dx: real, dy: real): (r: Axis)
    ensures axis != NoAxis ==> r == axis
    ensures axis == NoAxis && Abs(dx) <= AxisJitter && Abs(dy) <= AxisJitter ==> r == NoAxis
    ensures axis == NoAxis && (Abs(dx) > AxisJitter || Abs(dy) > AxisJitter) ==>
              (r == AxisX <==> Abs(dx) > Abs(dy)) && (r == AxisY <==> Abs(dx) <= Abs(dy))
  {
    if axis == NoAxis && (Abs(dx) > AxisJitter || Abs(dy) > AxisJitter) then
      (if Abs(dx) > Abs(dy) then AxisX else AxisY)
    else axis
  }

  /** touchmove. A move with no touches reads `touches[0]` of an empty list and throws before
      writing anything, so it changes nothing. */
  function MoveStep(s: Session, points: seq<Point>, hasPinchIn: bool, hasPinchOut: bool): (r: Outcome)
    ensures s.hasTriggered || |points| == 0 ==> r == Outcome(s, [])
    ensures |r.events| <= 1
    ensures r.state.hasTriggered <==> s.hasTriggered || (r.events != [] && r.events[0].Latches())
    ensures r.state.(lastX := s.lastX, lastY := s.lastY, hasTriggered := s.hasTriggered, panAxis := s.panAxis) == s
    ensures s.panAxis != NoAxis ==> r.state.panAxis == s.panAxis
    ensures r.state.panAxis != s.panAxis ==> |points| == 1
    ensures r.events != [] && r.events[0].Latches() ==> |points| == 2 && r.state.lastX == s.lastX && r.state.lastY == s.lastY
    ensures (r.events != [] && r.events[0].Pan?) <==> !s.hasTriggered && |points| == 1 && r.state.panAxis == AxisX
    ensures r.events != [] ==> !r.events[0].ThreeFingerTap? && !r.events[0].PanEnd?
    ensures !s.hasTriggered && |points| == 2 ==>
              (r.events == [PinchIn] <==> PinchInFires(s, points, hasPinchIn)) &&
              (r.events == [PinchOut] <==> !PinchInFires(s, points, hasPinchIn) && PinchOutFires(s, points, hasPinchOut)) &&
              (r.events == [TwoFingerPullDown] <==>
                 !PinchInFires(s, points, hasPinchIn) && !PinchOutFires(s, points, hasPinchOut) &&
                 PullDownFires(s, points))
    ensures !s.hasTriggered && |points| >= 1 && !(r.events != [] && r.events[0].Latches()) ==>
              r.state.lastX == points[0].x && r.state.lastY == points[0].y
    ensures !s.hasTriggered && |points| == 1 ==>
              r.state.panAxis == LockAxis(s.panAxis, points[0].x - s.startX, points[0].y - s.startY)
    ensures r.events != [] && r.events[0].Pan? ==>
              r.events == [Pan(points[0].x - s.startX, points[0].y - s.startY)]
  {
    if s.hasTriggered || |points| == 0 then Outcome(s, [])
    else
      var deltaX := points[0].x - s.startX;
      var deltaY := points[0].y - s.startY;
      var moved := s.(lastX := points[0].x, lastY := points[0].y);
      if |points| == 2 then
        if PinchInFires(s, points, hasPinchIn) then Outcome(s.(hasTriggered := true), [PinchIn])
        else if PinchOutFires(s, points, hasPinchOut) then Outcome(s.(hasTriggered := true), [PinchOut])
        else if PullDownFires(s, points) then Outcome(s.(hasTriggered := true), [TwoFingerPullDown])
        else Outcome(moved, [])
      else if |points| == 1 then
        var axis := LockAxis(s.panAxis, deltaX, deltaY);
        Outcome(moved.(panAxis := axis), if axis == AxisX then [Pan(deltaX, deltaY)] else [])
      else Outcome(moved, [])
  }

  /** True when a release would report the end of a horizontal pan. */
  predicate ReleasesPan(s: Session) {
    !s.hasTriggered && s.maxTouches == 1 && s.panAxis == AxisX
  }

  /** touchend, with `remaining` touches still down and the clock at `now`. The tap and
      pan-end tests run on every release, not only the last; the latch and the initial spacing
      are never cleared here. */
  function EndStep(s: Session, remaining: nat, now: real): (r: Outcome)
    ensures |r.events| <= 1
    ensures s.hasTriggered ==> r.events == []
    ensures r.events == [ThreeFingerTap] <==>
              !s.hasTriggered && s.maxTouches == 3 && TapMinMs <= now - s.startTime <= TapMaxMs
    ensures (r.events != [] && r.events[0].PanEnd?) <==> ReleasesPan(s)
    ensures ReleasesPan(s) ==>
              r.events == [PanEnd(s.lastX - s.startX, Velocity(s.lastX - s.startX, now - s.startTime))]
    ensures r.events != [] ==> r.events[0].ThreeFingerTap? || r.events[0].PanEnd?
    ensures remaining == 0 ==> r.state == s.(maxTouches := 0, touches := 0, panAxis := NoAxis)
    ensures remaining > 0 ==> r.state == s
  {
    var duration := now - s.startTime;
    var events :=
      if s.hasTriggered then []
      else if s.maxTouches == 3 && TapMinMs <= duration <= TapMaxMs then [ThreeFingerTap]
      else if s.maxTouches == 1 && s.panAxis == AxisX then
        [PanEnd(s.lastX - s.startX, Velocity(s.lastX - s.startX, duration))]
      else [];
    var state := if remaining == 0 then s.(maxTouches := 0, touches := 0, panAxis := NoAxis) else s;
    Outcome(state, events)
  }

  /** One event delivered to the recogniser. */
  datatype TouchInput =
    | Start(points: seq<Point>, now: real)
    | Move(points: seq<Point>)
    | End(remaining: nat, now: real)

  function Step(s: Session, input: TouchInput, hasPinchIn: bool, hasPinchOut: bool): Outcome {
    match input
    case Start(points, now) => Outcome(StartStep(s, points, now), [])
    case Move(points) => MoveStep(s, points, hasPinchIn, hasPinchOut)
    case End(remaining, now) => EndStep(s, remaining, now)
  }

  /** The record after a stream of events, and everything reported on the way. */
  function Run(s: Session, inputs: seq<TouchInput>, hasPinchIn: bool, hasPinchOut: bool): Outcome
    decreases |inputs|
  {
    if inputs == [] then Outcome(s, [])
    else
      var first := Step(s, inputs[0], hasPinchIn, hasPinchOut);
      var rest := Run(first.state, inputs[1..], hasPinchIn, hasPinchOut);
      Outcome(rest.state, first.events + rest.events)
  }

  /** How many pinch and pull-down gestures a stream of reports holds. */
  function CountLatching(events: seq<Gesture>): nat
    decreases |events|
  {
    if events == [] then 0
    else (if events[0].Latches() then 1 else 0) + CountLatching(events[1..])
  }

  lemma {:induction false} CountLatchingAppend(a: seq<Gesture>, b: seq<Gesture>)
    ensures CountLatching(a + b) == CountLatching(a) + CountLatching(b)
    decreases |a|
  {
    if a == [] {
      assert a + b == b;
    } else {
      assert (a + b)[1..] == a[1..] + b;
      CountLatchingAppend(a[1..], b);
    }
  }

  predicate NoTouchStart(inputs: seq<TouchInput>) {
    forall i :: 0 <= i < |inputs| ==> !inputs[i].Start?
  }

  /** Between two touchstarts the recogniser reports at most one pinch or pull-down, none once
      latched, and it is latched afterwards exactly when it was before or reported one. */
  lemma {:induction false} LatchAllowsOneGesture(s: Session, inputs: seq<TouchInput>, hasPinchIn: bool, hasPinchOut: bool)
    requires NoTouchStart(inputs)
    ensures CountLatching(Run(s, inputs, hasPinchIn, hasPinchOut).events) <= (if s.hasTriggered then 0 else 1)
    ensures Run(s, inputs, hasPinchIn, hasPinchOut).state.hasTriggered <==>
              s.hasTriggered || CountLatching(Run(s, inputs, hasPinchIn, hasPinchOut).events) == 1
    decreases |inputs|
  {
    if inputs != [] {
      var first := Step(s, inputs[0], hasPinchIn, hasPinchOut);
      assert !inputs[0].Start?;
      assert NoTouchStart(inputs[1..]) by {
        forall i | 0 <= i < |inputs[1..]| ensures !inputs[1..][i].Start? {
          assert inputs[1..][i] == inputs[i + 1];
        }
      }
      LatchAllowsOneGesture(first.state, inputs[1..], hasPinchIn, hasPinchOut);
      var rest := Run(first.state, inputs[1..], hasPinchIn, hasPinchOut);
      CountLatchingAppend(first.events, rest.events);
      assert CountLatching(first.events) == (if first.events != [] && first.events[0].Latches() then 1 else 0) by {
        if first.events != [] {
          assert first.events[1..] == [];
        }
      }
    }
  }

  predicate OnlyMoves(inputs: seq<TouchInput>) {
    forall i :: 0 <= i < |inputs| ==> inputs[i].Move?
  }

  /** Once a one-finger drag has chosen its axis, further moves never re-evaluate it, and a
      vertical drag never reports a pan. */
  lemma {:induction false} AxisDecidedOnce(s: Session, inputs: seq<TouchInput>, hasPinchIn: bool, hasPinchOut: bool)
    requires OnlyMoves(inputs)
    requires s.panAxis != NoAxis
    ensures Run(s, inputs, hasPinchIn, hasPinchOut).state.panAxis == s.panAxis
    ensures s.panAxis == AxisY ==>
              forall i :: 0 <= i < |Run(s, inputs, hasPinchIn, hasPinchOut).events| ==>
                !Run(s, inputs, hasPinchIn, hasPinchOut).events[i].Pan?
    decreases |inputs|
  {
    if inputs != [] {
      var first := Step(s, inputs[0], hasPinchIn, hasPinchOut);
      assert OnlyMoves(inputs[1..]) by {
        forall i | 0 <= i < |inputs[1..]| ensures inputs[1..][i].Move? {
          assert inputs[1..][i] == inputs[i + 1];
        }
      }
      AxisDecidedOnce(first.state, inputs[1..], hasPinchIn, hasPinchOut);
    }
  }

  /** A release of all fingers followed by a touchstart begins from a clean session: the
      latch open, no axis, the high-water mark equal to the new touch count. Only the initial
      spacing survives, unless the new touchstart sees exactly two touches. */
  lemma NewSessionStartsClean(s: Session, releaseAt: real, points: seq<Point>, now: real)
    ensures var r := StartStep(EndStep(s, 0, releaseAt).state, points, now);
            !r.hasTriggered && r.panAxis == NoAxis && r.maxTouches == |points| && r.touches == |points| &&
            r.startTime == now &&
            r.initialSpacingSq == (if |points| == 2 then SpacingSq(points[0], points[1]) else s.initialSpacingSq)
  {
  }

  /** The tap test does not latch and runs on every touchend, so a three-finger tap is reported
      once per lift inside the tap window: twice when one finger lifts and then the other two
      together, three times when the fingers lift one at a time. */
  lemma TapReportedPerLift()
    ensures Run(Idle, [Start([Point(0.0, 0.0), Point(40.0, 0.0), Point(80.0, 0.0)], 1000.0),
                       End(2, 1100.0), End(0, 1150.0)], true, true).events
            == [ThreeFingerTap, ThreeFingerTap]
    ensures Run(Idle, [Start([Point(0.0, 0.0), Point(40.0, 0.0), Point(80.0, 0.0)], 1000.0),
                       End(2, 1100.0), End(1, 1120.0), End(0, 1150.0)], true, true).events
            == [ThreeFingerTap, ThreeFingerTap, ThreeFingerTap]
  {
    var pts := [Point(0.0, 0.0), Point(40.0, 0.0), Point(80.0, 0.0)];
    var s1 := StartStep(Idle, pts, 1000.0);
    assert s1.maxTouches == 3 && !s1.hasTriggered;
    var o2 := EndStep(s1, 2, 1100.0);
    assert o2.events == [ThreeFingerTap] && o2.state == s1;
    var o3 := EndStep(s1, 1, 1120.0);
    assert o3.events == [ThreeFingerTap] && o3.state == s1;
    var o4 := EndStep(s1, 0, 1150.0);
    assert o4.events == [ThreeFingerTap];
    var tail := [End(1, 1120.0), End(0, 1150.0)];
    assert tail[1..] == [End(0, 1150.0)];
    assert Run(s1, [End(0, 1150.0)], true, true).events == [ThreeFingerTap];
    assert Run(s1, tail, true, true).events == [ThreeFingerTap, ThreeFingerTap];
  }

  /** A finger added during a gesture re-opens the latch, so one physical gesture can report
      two pinches: pinch in, add a third finger, lift it, pinch in again. */
  lemma AddedFingerReopensLatch()
    ensures Run(Idle, [Start([Point(0.0, 0.0), Point(100.0, 0.0)], 0.0),
                       Move([Point(0.0, 0.0), Point(50.0, 0.0)]),
                       Start([Point(0.0, 0.0), Point(50.0, 0.0), Point(200.0, 200.0)], 40.0),
                       End(2, 60.0),
                       Move([Point(0.0, 0.0), Point(40.0, 0.0)])], true, true).events
            == [PinchIn, PinchIn]
  {
    var s1 := StartStep(Idle, [Point(0.0, 0.0), Point(100.0, 0.0)], 0.0);
    assert s1.initialSpacingSq == 10000.0;
    var o2 := MoveStep(s1, [Point(0.0, 0.0), Point(50.0, 0.0)], true, true);
    assert SpacingSq(Point(0.0, 0.0), Point(50.0, 0.0)) == 2500.0;
    assert o2.events == [PinchIn];
    var s3 := StartStep(o2.state, [Point(0.0, 0.0), Point(50.0, 0.0), Point(200.0, 200.0)], 40.0);
    assert !s3.hasTriggered && s3.initialSpacingSq == 10000.0 && s3.maxTouches == 3;
    var o4 := EndStep(s3, 2, 60.0);
    assert o4.events == [] && o4.state == s3;
    var o5 := MoveStep(s3, [Point(0.0, 0.0), Point(40.0, 0.0)], true, true);
    assert SpacingSq(Point(0.0, 0.0), Point(40.0, 0.0)) == 1600.0;
    assert o5.events == [PinchIn];
  }

  /** The initial spacing is never cleared, so a session that starts with three fingers and
      drops to two compares against the spacing of an EARLIER session: here a pinch-out that
      the second session's own fingers never set up. */
  lemma StaleSpacingAcrossSessions()
    ensures Run(Idle, [Start([Point(0.0, 0.0), Point(100.0, 0.0)], 0.0),
                       End(0, 500.0),
                       Start([Point(0.0, 0.0), Point(200.0, 0.0), Point(100.0, 300.0)], 1000.0),
                       End(2, 1020.0),
                       Move([Point(0.0, 0.0), Point(200.0, 0.0)])], true, true).events
            == [PinchOut]
  {
    var s1 := StartStep(Idle, [Point(0.0, 0.0), Point(100.0, 0.0)], 0.0);
    assert s1.initialSpacingSq == 10000.0;
    var o2 := EndStep(s1, 0, 500.0);
    assert o2.events == [] && o2.state.initialSpacingSq == 10000.0;
    var s3 := StartStep(o2.state, [Point(0.0, 0.0), Point(200.0, 0.0), Point(100.0, 300.0)], 1000.0);
    assert s3.initialSpacingSq == 10000.0 && s3.maxTouches == 3 && !s3.hasTriggered;
    var o4 := EndStep(s3, 2, 1020.0);
    assert o4.events == [] && o4.state == s3;
    var o5 := MoveStep(s3, [Point(0.0, 0.0), Point(200.0, 0.0)], true, true);
    assert SpacingSq(Point(0.0, 0.0), Point(200.0, 0.0)) == 40000.0;
    assert o5.events == [PinchOut];
  }

  /** A one-finger drag from x = 300 to x = 100 released after 200 ms ends with
      deltaX = -200 and velocity -1000 px/s. */
  lemma PanEndExample()
    ensures Run(Idle, [Start([Point(300.0, 50.0)], 0.0), Move([Point(100.0, 50.0)]), End(0, 200.0)],
                true, true).events
            == [Pan(-200.0, 0.0), PanEnd(-200.0, Finite(-1000.0))]
  {
    var s1 := StartStep(Idle, [Point(300.0, 50.0)], 0.0);
    var o2 := MoveStep(s1, [Point(100.0, 50.0)], true, true);
    assert o2.state.panAxis == AxisX && o2.events == [Pan(-200.0, 0.0)];
    assert o2.state.maxTouches == 1 && o2.state.lastX == 100.0;
    var o3 := EndStep(o2.state, 0, 200.0);
    assert Velocity(-200.0, 200.0) == Finite(-1000.0);
    assert o3.events == [PanEnd(-200.0, Finite(-1000.0))];
  }

  /** Pinch thresholds on a start spacing of 100: 64 pinches in, 66 reports nothing, 151
      pinches out, 149 reports nothing. */
  lemma PinchThresholds()
    ensures var s := StartStep(Idle, [Point(0.0, 0.0), Point(100.0, 0.0)], 0.0);
            MoveStep(s, [Point(0.0, 0.0), Point(64.0, 0.0)], true, true).events == [PinchIn] &&
            MoveStep(s, [Point(0.0, 0.0), Point(66.0, 0.0)], true, true).events == [] &&
            MoveStep(s, [Point(0.0, 0.0), Point(151.0, 0.0)], true, true).events == [PinchOut] &&
            MoveStep(s, [Point(0.0, 0.0), Point(149.0, 0.0)], true, true).events == []
  {
    var s := StartStep(Idle, [Point(0.0, 0.0), Point(100.0, 0.0)], 0.0);
    assert s.initialSpacingSq == 10000.0;
  }

  /** Two fingers 100 apart moved straight down by 120: with the spacing held within 15 the
      move is a pull-down; with the spacing dropping to 50 it is a pinch-in, because pinches are
      tested first. */
  lemma PullDownGating()
    ensures var s := StartStep(Idle, [Point(100.0, 100.0), Point(200.0, 100.0)], 0.0);
            MoveStep(s, [Point(100.0, 220.0), Point(210.0, 220.0)], true, true).events == [TwoFingerPullDown] &&
            MoveStep(s, [Point(100.0, 220.0), Point(150.0, 220.0)], true, true).events == [PinchIn]
  {
    var s := StartStep(Idle, [Point(100.0, 100.0), Point(200.0, 100.0)], 0.0);
    assert s.initialSpacingSq == 10000.0;
    assert SpacingSq(Point(100.0, 220.0), Point(210.0, 220.0)) == 12100.0;
    assert SpacingSq(Point(100.0, 220.0), Point(150.0, 220.0)) == 2500.0;
  }

  /** A drag to (3, 3) chooses no axis and reports nothing; going on to (8, 3) locks the
      horizontal axis and reports a pan; a drag that first reaches (3, 8) locks the vertical
      axis and never reports a pan, however far it then goes sideways. */
  lemma AxisLockExamples()
    ensures var s := StartStep(Idle, [Point(0.0, 0.0)], 0.0);
            var o1 := MoveStep(s, [Point(3.0, 3.0)], true, true);
            var o2 := MoveStep(o1.state, [Point(8.0, 3.0)], true, true);
            var v1 := MoveStep(s, [Point(3.0, 8.0)], true, true);
            var v2 := MoveStep(v1.state, [Point(100.0, 8.0)], true, true);
            o1.events == [] && o1.state.panAxis == NoAxis &&
            o2.events == [Pan(8.0, 3.0)] && o2.state.panAxis == AxisX &&
            v1.events == [] && v1.state.panAxis == AxisY &&
            v2.events == [] && v2.state.panAxis == AxisY
  {
  }

  /** Three fingers held 150 ms report the tap; 400 ms or 50 ms do not. */
  lemma TapWindowExamples()
    ensures var s := StartStep(Idle, [Point(0.0, 0.0), Point(40.0, 0.0), Point(80.0, 0.0)], 1000.0);
            EndStep(s, 0, 1150.0).events == [ThreeFingerTap] &&
            EndStep(s, 0, 1400.0).events == [] &&
            EndStep(s, 0, 1050.0).events == []
  {
  }

  /** The recogniser as the gesture hook holds it: one mutable record and the two optional
      callbacks' presence. */
  class Recognizer {
    const hasPinchIn: bool
    const hasPinchOut: bool

    var touches: nat
    var startTime: real
    var startX: real
    var startY: real
    var lastX: real
    var lastY: real
    var initialSpacingSq: real
    var maxTouches: nat
    var hasTriggered: bool
    var isPanning: bool
    var panAxis: Axis

    function Snapshot(): Session
      reads this
    {
      Session(touches, startTime, startX, startY, lastX, lastY, initialSpacingSq,
              maxTouches, hasTriggered, isPanning, panAxis)
    }

    constructor (hasPinchIn: bool, hasPinchOut: bool)
      ensures this.hasPinchIn == hasPinchIn && this.hasPinchOut == hasPinchOut
      ensures Snapshot() == Idle
    {
      this.hasPinchIn := hasPinchIn;
      this.hasPinchOut := hasPinchOut;
      touches, startTime, startX, startY, lastX, lastY := 0, 0.0, 0.0, 0.0, 0.0, 0.0;
      initialSpacingSq, maxTouches, hasTriggered, isPanning, panAxis := 0.0, 0, false, false, NoAxis;
    }

    method TouchStart(points: seq<Point>, now: real)
      modifies this
      ensures Snapshot() == StartStep(old(Snapshot()), points, now)
    {
      touches := |points|;
      maxTouches := Max(maxTouches, touches);
      startTime := now;
      hasTriggered := false;
      isPanning := false;
      panAxis := NoAxis;
      if |points| >= 1 {
        startX, startY := points[0].x, points[0].y;
        lastX, lastY := points[0].x, points[0].y;
      }
      if touches == 2 {
        initialSpacingSq := SpacingSq(points[0], points[1]);
      }
    }

    method TouchMove(points: seq<Point>) returns (events: seq<Gesture>)
      modifies this
      ensures Outcome(Snapshot(), events) == MoveStep(old(Snapshot()), points, hasPinchIn, hasPinchOut)
    {
      events := [];
      if hasTriggered || |points| == 0 {
        return;
      }
      var currX, currY := points[0].x, points[0].y;
      var deltaX, deltaY := currX - startX, currY - startY;
      if |points| == 2 {
        var currentSq := SpacingSq(points[0], points[1]);
        if initialSpacingSq > 0.0 {
          if PinchedIn(currentSq, initialSpacingSq) && hasPinchIn {
            events := [PinchIn];
            hasTriggered := true;
            return;
          }
          if PinchedOut(currentSq, initialSpacingSq) && hasPinchOut {
            events := [PinchOut];
            hasTriggered := true;
            return;
          }
        }
        if PullSpacingOk(currentSq, initialSpacingSq) {
          if deltaY > PullMinDeltaY && Abs(deltaX) < PullMaxDeltaX {
            events := [TwoFingerPullDown];
            hasTriggered := true;
            return;
          }
        }
      }
      if |points| == 1 && !hasTriggered {
        if panAxis == NoAxis && (Abs(deltaX) > AxisJitter || Abs(deltaY) > AxisJitter) {
          panAxis := if Abs(deltaX) > Abs(deltaY) then AxisX else AxisY;
        }
        if panAxis == AxisX {
          events := [Pan(deltaX, deltaY)];
        }
      }
      lastX := currX;
      lastY := currY;
    }

    method TouchEnd(remaining: nat, now: real) returns (events: seq<Gesture>)
      modifies this
      ensures Outcome(Snapshot(), events) == EndStep(old(Snapshot()), remaining, now)
    {
      var duration := now - startTime;
      events := [];
      if !hasTriggered {
        if maxTouches == 3 && duration >= TapMinMs && duration <= TapMaxMs {
          events := [ThreeFingerTap];
        } else if maxTouches == 1 && panAxis == AxisX {
          var deltaX := lastX - startX;
          events := [PanEnd(deltaX, Velocity(deltaX, duration))];
        }
      }
      if remaining == 0 {
        maxTouches := 0;
        touches := 0;
        panAxis := NoAxis;
      }
    }
  }
}

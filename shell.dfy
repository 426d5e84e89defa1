/** The application shell: the window's touch events go to the gesture recogniser only while
    gestures are enabled (outside the AI editor, keypad hidden), and every gesture it reports is
    handed at once to the navigation callbacks. The application passes both pinch callbacks. */
module Shell {
  import G = Gestures
  import N = Navigation
  import opened DoornaTypes

  /** The recogniser's record together with the application state. */
  datatype World = World(session: G.Session, model: N.Model)

  /** The navigation state after the callbacks for `events`, in order. */
  function ApplyGestures(m: N.Model, events: seq<G.Gesture>, screenWidth: real): N.Model
    decreases |events|
  {
    if events == [] then m else ApplyGestures(N.OnGesture(m, events[0], screenWidth), events[1..], screenWidth)
  }

  lemma {:induction false} ApplyGesturesSnoc(m: N.Model, events: seq<G.Gesture>, g: G.Gesture, screenWidth: real)
    ensures ApplyGestures(m, events + [g], screenWidth) == N.OnGesture(ApplyGestures(m, events, screenWidth), g, screenWidth)
    decreases |events|
  {
    if events == [] {
      assert events + [g] == [g];
    } else {
      assert (events + [g])[1..] == events[1..] + [g];
      ApplyGesturesSnoc(N.OnGesture(m, events[0], screenWidth), events[1..], g, screenWidth);
    }
  }

  /** The reported gestures as navigation events. */
  function AsUiEvents(events: seq<G.Gesture>, screenWidth: real): (ui: seq<N.UiEvent>)
    ensures |ui| == |events|
    ensures forall i :: 0 <= i < |events| ==> ui[i] == N.GestureReported(events[i], screenWidth)
  {
    seq(|events|, i requires 0 <= i < |events| => N.GestureReported(events[i], screenWidth))
  }

  /** Handing gestures to the callbacks is running the navigation machine on them. */
  lemma {:induction false} ApplyGesturesIsRun(m: N.Model, events: seq<G.Gesture>, screenWidth: real)
    ensures ApplyGestures(m, events, screenWidth) == N.Run(m, AsUiEvents(events, screenWidth))
    decreases |events|
  {
    if events != [] {
      assert AsUiEvents(events, screenWidth)[1..] == AsUiEvents(events[1..], screenWidth);
      ApplyGesturesIsRun(N.OnGesture(m, events[0], screenWidth), events[1..], screenWidth);
    }
  }

  /** One touch event delivered to the window. */
  function Deliver(w: World, input: G.TouchInput, screenWidth: real): World {
    if !N.GesturesEnabled(w.model) then w
    else
      var out := G.Step(w.session, input, true, true);
      World(out.state, ApplyGestures(w.model, out.events, screenWidth))
  }

  function DeliverAll(w: World, inputs: seq<G.TouchInput>, screenWidth: real): World
    decreases |inputs|
  {
    if inputs == [] then w else DeliverAll(Deliver(w, inputs[0], screenWidth), inputs[1..], screenWidth)
  }

  /** Touch input keeps the navigation state valid. */
  lemma {:induction false} DeliverAllPreservesValid(w: World, inputs: seq<G.TouchInput>, screenWidth: real)
    requires N.Valid(w.model)
    ensures N.Valid(DeliverAll(w, inputs, screenWidth).model)
    decreases |inputs|
  {
    if inputs != [] {
      if N.GesturesEnabled(w.model) {
        var out := G.Step(w.session, inputs[0], true, true);
        ApplyGesturesIsRun(w.model, out.events, screenWidth);
        N.RunPreservesValid(w.model, AsUiEvents(out.events, screenWidth));
      }
      DeliverAllPreservesValid(Deliver(w, inputs[0], screenWidth), inputs[1..], screenWidth);
    }
  }

  /** While the keypad shows (or the AI editor is open) no touch reaches the recogniser: neither
      its record nor the application state changes, however many touches arrive. */
  lemma {:induction false} DisabledGesturesChangeNothing(w: World, inputs: seq<G.TouchInput>, screenWidth: real)
    requires !N.GesturesEnabled(w.model)
    ensures DeliverAll(w, inputs, screenWidth) == w
    decreases |inputs|
  {
    if inputs != [] {
      DisabledGesturesChangeNothing(Deliver(w, inputs[0], screenWidth), inputs[1..], screenWidth);
    }
  }

  /** Three fingers put down together and lifted 100 ms later on the paged home screen switch it
      to the single-page screen. */
  lemma ThreeFingerTapSwitchesView(m: N.Model, screenWidth: real)
    requires m.currentState == S1_HomePaged && m.viewMode == Paged && !m.showKeypad
    ensures var pts := [G.Point(0.0, 0.0), G.Point(50.0, 0.0), G.Point(100.0, 0.0)];
            var r := DeliverAll(World(G.Idle, m), [G.Start(pts, 1000.0), G.End(0, 1100.0)], screenWidth);
            r.model.currentState == S2_HomeSinglePage && r.model.viewMode == Single
  {
    var pts := [G.Point(0.0, 0.0), G.Point(50.0, 0.0), G.Point(100.0, 0.0)];
    var w1 := Deliver(World(G.Idle, m), G.Start(pts, 1000.0), screenWidth);
    assert w1.session.maxTouches == 3 && !w1.session.hasTriggered && w1.session.startTime == 1000.0;
    assert w1.model == m;
    var out := G.EndStep(w1.session, 0, 1100.0);
    assert out.events == [G.ThreeFingerTap];
    assert G.Step(w1.session, G.End(0, 1100.0), true, true) == out;
    assert [G.ThreeFingerTap][1..] == [];
    assert ApplyGestures(m, [G.ThreeFingerTap], screenWidth) == N.OnGesture(m, G.ThreeFingerTap, screenWidth);
    var w2 := Deliver(w1, G.End(0, 1100.0), screenWidth);
    assert w2.model == N.ToggleViewMode(m);
    assert [G.End(0, 1100.0)][1..] == [];
    assert DeliverAll(w1, [G.End(0, 1100.0)], screenWidth) == w2;
    assert [G.Start(pts, 1000.0), G.End(0, 1100.0)][1..] == [G.End(0, 1100.0)];
  }

  /** The window's listeners: the recogniser and the application it drives. */
  class Shell {
    const recognizer: G.Recognizer
    const app: N.App

    function Snapshot(): World
      reads this, recognizer, app
    {
      World(recognizer.Snapshot(), app.Snapshot())
    }

    constructor (initialItems: seq<DoornaItem>)
      ensures fresh(recognizer) && fresh(app)
      ensures Snapshot() == World(G.Idle, N.Initial(initialItems))
      ensures recognizer.hasPinchIn && recognizer.hasPinchOut
    {
      recognizer := new G.Recognizer(true, true);
      app := new N.App(initialItems);
    }

    /** A touch event: ignored while gestures are disabled, otherwise fed to the recogniser and
        every reported gesture passed to its callback. */
    method OnTouch(input: G.TouchInput, screenWidth: real)
      requires recognizer.hasPinchIn && recognizer.hasPinchOut
      modifies recognizer, app
      ensures Snapshot() == Deliver(old(Snapshot()), input, screenWidth)
    {
      if !N.GesturesEnabled(app.Snapshot()) {
        return;
      }
      var events: seq<G.Gesture>;
      match input {
        case Start(points, now) =>
          recognizer.TouchStart(points, now);
          events := [];
        case Move(points) =>
          events := recognizer.TouchMove(points);
        case End(remaining, now) =>
          events := recognizer.TouchEnd(remaining, now);
      }
      ghost var session := recognizer.Snapshot();
      var i := 0;
      while i < |events|
        invariant 0 <= i <= |events|
        invariant recognizer.Snapshot() == session
        invariant app.Snapshot() == ApplyGestures(old(app.Snapshot()), events[..i], screenWidth)
      {
        ApplyGesturesSnoc(old(app.Snapshot()), events[..i], events[i], screenWidth);
        assert events[..i + 1] == events[..i] + [events[i]];
        app.HandleGesture(events[i], screenWidth);
        i := i + 1;
      }
      assert events[..i] == events;
    }
  }
}

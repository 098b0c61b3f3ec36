/** Properties of the view controller: what `reset()`, the keys, the mouse
    buttons, dragging and the wheel do to the parameters, stated over the
    pure transition `ViewControl.Step` and its iteration `ViewControl.Run`. */
module ViewProperties {
  import opened ViewControl

  /** The event `e`, `k` times in a row. */
  function Repeat(e: Event, k: nat): (r: seq<Event>)
    ensures |r| == k
    ensures forall i :: 0 <= i < k ==> r[i] == e
  {
    if k == 0 then [] else [e] + Repeat(e, k - 1)
  }

  // ---------------------------------------------------------------- reset

  lemma ResetInstallsDefaults(p: Params, win: WindowSize)
    requires win.NonEmpty() && |p.colors| > 0
    ensures var r := Step(p, KeyPressed(R), win);
      r.zoom == 2.0 && r.offsetX == 0.0 && r.offsetY == 0.0
      && r.maxIterations == 100 && r.colorMode == 0 && r.adaptiveIterations
      && r.colorModeBg == p.colorModeBg && r.isDragging == p.isDragging
      && r.lastMouseX == p.lastMouseX && r.lastMouseY == p.lastMouseY
      && r.colors == p.colors && r.colorsBg == p.colorsBg
  {
  }

  lemma ResetIdempotent(p: Params, win: WindowSize)
    requires win.NonEmpty() && |p.colors| > 0
    ensures Run(p, [KeyPressed(R), KeyPressed(R)], win) == Step(p, KeyPressed(R), win)
  {
    assert [KeyPressed(R), KeyPressed(R)][1..] == [KeyPressed(R)];
  }

  // -------------------------------------------------------- palette cycling

  lemma ForegroundCycleInverse(p: Params, win: WindowSize)
    requires win.NonEmpty() && p.Valid()
    ensures Step(Step(p, KeyPressed(C), win), KeyPressed(V), win) == p
    ensures Step(Step(p, KeyPressed(V), win), KeyPressed(C), win) == p
  {
  }

  lemma BackgroundCycleInverse(p: Params, win: WindowSize)
    requires win.NonEmpty() && p.Valid()
    ensures Step(Step(p, KeyPressed(B), win), KeyPressed(N), win) == p
    ensures Step(Step(p, KeyPressed(N), win), KeyPressed(B), win) == p
  {
  }

  /** `k` presses of C add `k` to the foreground index modulo the palette
      size and change nothing else. */
  lemma {:induction false} ForegroundCycleSteps(p: Params, win: WindowSize, k: nat)
    requires win.NonEmpty() && 0 <= p.colorMode < |p.colors|
    ensures Run(p, Repeat(KeyPressed(C), k), win) == p.(colorMode := (p.colorMode + k) % |p.colors|)
    decreases k
  {
    if k == 0 {
      ModOfMultiple(0, p.colorMode, |p.colors|);
    } else {
      var q := Step(p, KeyPressed(C), win);
      assert Repeat(KeyPressed(C), k)[1..] == Repeat(KeyPressed(C), k - 1);
      ForegroundCycleSteps(q, win, k - 1);
      ModSucc(p.colorMode, k - 1, |p.colors|);
    }
  }

  /** As many presses of C as the palette has entries return to the start. */
  lemma ForegroundFullCircle(p: Params, win: WindowSize)
    requires win.NonEmpty() && p.Valid()
    ensures Run(p, Repeat(KeyPressed(C), |p.colors|), win) == p
  {
    var n := |p.colors|;
    assert (p.colorMode + n) % n == p.colorMode by {
      ModOfMultiple(1, p.colorMode, n);
    }
    ForegroundCycleSteps(p, win, n);
  }

  lemma {:induction false} BackgroundCycleSteps(p: Params, win: WindowSize, k: nat)
    requires win.NonEmpty() && |p.colors| > 0 && 0 <= p.colorModeBg < |p.colors|
    ensures Run(p, Repeat(KeyPressed(B), k), win) == p.(colorModeBg := (p.colorModeBg + k) % |p.colors|)
    decreases k
  {
    if k == 0 {
      ModOfMultiple(0, p.colorModeBg, |p.colors|);
    } else {
      var q := Step(p, KeyPressed(B), win);
      assert Repeat(KeyPressed(B), k)[1..] == Repeat(KeyPressed(B), k - 1);
      BackgroundCycleSteps(q, win, k - 1);
      ModSucc(p.colorModeBg, k - 1, |p.colors|);
    }
  }

  /** B is cycled modulo the foreground palette's size, which equals the
      background palette's, so as many presses as `colorsBg` has entries
      return to the start and the index always selects an entry of
      `colorsBg`. */
  lemma BackgroundFullCircle(p: Params, win: WindowSize)
    requires win.NonEmpty() && p.Valid()
    ensures Run(p, Repeat(KeyPressed(B), |p.colorsBg|), win) == p
    ensures 0 <= Step(p, KeyPressed(B), win).colorModeBg < |p.colorsBg|
    ensures 0 <= Step(p, KeyPressed(N), win).colorModeBg < |p.colorsBg|
  {
    BackgroundCycleSteps(p, win, |p.colorsBg|);
    ModOfMultiple(1, p.colorModeBg, |p.colors|);
  }

  // ------------------------------------------------- iterations and adaptive

  /** '+' adds 10 up to the ceiling 1000; '-' subtracts 10 down to the floor
      10, which RAISES a count below 10 (one the command line accepts). */
  lemma IterationKeys(p: Params, win: WindowSize)
    requires win.NonEmpty() && |p.colors| > 0
    ensures var up := Step(p, KeyPressed(Equal), win);
      up == p.(maxIterations := up.maxIterations)
      && up.maxIterations <= 1000
      && (p.maxIterations <= 990 ==> up.maxIterations == p.maxIterations + 10)
      && (p.maxIterations >= 990 ==> up.maxIterations == 1000)
    ensures var down := Step(p, KeyPressed(Hyphen), win);
      down == p.(maxIterations := down.maxIterations)
      && down.maxIterations >= 10
      && (p.maxIterations >= 20 ==> down.maxIterations == p.maxIterations - 10)
      && (p.maxIterations <= 20 ==> down.maxIterations == 10)
      && (p.maxIterations < 10 ==> down.maxIterations > p.maxIterations)
  {
  }

  lemma AdaptiveToggle(p: Params, win: WindowSize)
    requires win.NonEmpty() && |p.colors| > 0
    ensures Step(p, KeyPressed(A), win).adaptiveIterations == !p.adaptiveIterations
    ensures Step(Step(p, KeyPressed(A), win), KeyPressed(A), win) == p
  {
  }

  // --------------------------------------------------------- mouse buttons

  lemma ButtonTransitions(p: Params, b: Button, x: int, y: int, win: WindowSize)
    requires win.NonEmpty() && |p.colors| > 0
    ensures var r := Step(p, MouseButtonPressed(b, x, y), win);
      if b == Left then
        r.isDragging && r.lastMouseX == x as real && r.lastMouseY == y as real
        && r.(isDragging := p.isDragging, lastMouseX := p.lastMouseX, lastMouseY := p.lastMouseY) == p
      else r == p
    ensures var r := Step(p, MouseButtonReleased(b), win);
      if b == Left then !r.isDragging && r.(isDragging := p.isDragging) == p else r == p
  {
  }

  /** The Idle/Dragging state machine on its own: a left press enters
      Dragging, a left release enters Idle, every other event keeps the
      state. */
  function DragStateAfter(dragging: bool, events: seq<Event>): bool
    decreases |events|
  {
    if events == [] then dragging
    else
      var next := match events[0]
        case MouseButtonPressed(Left, _, _) => true
        case MouseButtonReleased(Left) => false
        case _ => dragging;
      DragStateAfter(next, events[1..])
  }

  /** Of all events only left presses and releases move the drag flag. */
  lemma {:induction false} DraggingFollowsLeftButton(p: Params, events: seq<Event>, win: WindowSize)
    requires win.NonEmpty() && |p.colors| > 0
    ensures Run(p, events, win).isDragging == DragStateAfter(p.isDragging, events)
    decreases |events|
  {
    if events != [] {
      DraggingFollowsLeftButton(Step(p, events[0], win), events[1..], win);
    }
  }

  // ------------------------------------------------------------- dragging

  lemma MoveWhileIdle(p: Params, x: int, y: int, win: WindowSize)
    requires win.NonEmpty() && |p.colors| > 0 && !p.isDragging
    ensures Step(p, MouseMoved(x, y), win) == p
  {
  }

  /** A drag step moves the offset against the pointer by `2 * zoom / height`
      per pixel on BOTH axes (the aspect ratio cancels the width), records
      the new position and keeps zoom and drag state. */
  lemma DragPans(p: Params, x: int, y: int, win: WindowSize)
    requires win.NonEmpty() && |p.colors| > 0 && p.isDragging
    ensures var r := Step(p, MouseMoved(x, y), win);
      var h := win.height as real;
      r.offsetX == p.offsetX - 2.0 * p.zoom * (x as real - p.lastMouseX) / h
      && r.offsetY == p.offsetY - 2.0 * p.zoom * (y as real - p.lastMouseY) / h
      && r.lastMouseX == x as real && r.lastMouseY == y as real
      && r.zoom == p.zoom && r.isDragging
      && r.(offsetX := p.offsetX, offsetY := p.offsetY, lastMouseX := p.lastMouseX, lastMouseY := p.lastMouseY) == p
  {
    var w := win.width as real;
    var h := win.height as real;
    var dx := x as real - p.lastMouseX;
    assert (dx / w) * p.zoom * (w / h) * 2.0 == 2.0 * p.zoom * dx / h;
  }

  /** Horizontally, a drag keeps the plane point that was under the last
      recorded position under the new one (by the wheel handler's
      screen-to-plane map). */
  lemma DragKeepsGrabbedColumn(p: Params, x: int, y: int, win: WindowSize)
    requires win.NonEmpty() && |p.colors| > 0 && p.isDragging
    ensures PlaneX(Step(p, MouseMoved(x, y), win), win, x as real) == PlaneX(p, win, p.lastMouseX)
  {
    DragPans(p, x, y, win);
    var w := win.width as real;
    var h := win.height as real;
    assert CursorNormX(win, x as real) - CursorNormX(win, p.lastMouseX) == 2.0 * (x as real - p.lastMouseX) / h;
  }

  /** Vertically the drag runs the other way: the plane point under the new
      position is the one that was under the last position, moved by twice
      the pointer's own displacement. */
  lemma DragVerticalShift(p: Params, x: int, y: int, win: WindowSize)
    requires win.NonEmpty() && |p.colors| > 0 && p.isDragging
    ensures PlaneY(Step(p, MouseMoved(x, y), win), win, y as real)
         == PlaneY(p, win, p.lastMouseY) - 4.0 * p.zoom * (y as real - p.lastMouseY) / win.height as real
  {
    DragPans(p, x, y, win);
    var h := win.height as real;
    assert CursorNormY(win, y as real) - CursorNormY(win, p.lastMouseY) == -2.0 * (y as real - p.lastMouseY) / h;
  }

  // ---------------------------------------------------------------- wheel

  /** A vertical wheel step scales the zoom by 0.85 (forward) or 1.176
      (backward), so a positive zoom stays positive, and touches nothing but
      zoom and offset. */
  lemma WheelZoom(p: Params, delta: real, cx: int, cy: int, win: WindowSize)
    requires win.NonEmpty() && |p.colors| > 0
    ensures var r := Step(p, MouseWheelScrolled(Vertical, delta, cx, cy), win);
      (delta > 0.0 ==> r.zoom == p.zoom * 0.85)
      && (delta <= 0.0 ==> r.zoom == p.zoom * 1.176)
      && (p.zoom > 0.0 ==> r.zoom > 0.0)
      && (p.zoom > 0.0 && delta > 0.0 ==> r.zoom < p.zoom)
      && (p.zoom > 0.0 && delta <= 0.0 ==> r.zoom > p.zoom)
      && r.(zoom := p.zoom, offsetX := p.offsetX, offsetY := p.offsetY) == p
  {
  }

  /** Zoom to cursor: the plane point under the cursor is the same before
      and after a vertical wheel step. */
  lemma WheelKeepsCursorPoint(p: Params, delta: real, cx: int, cy: int, win: WindowSize)
    requires win.NonEmpty() && |p.colors| > 0
    ensures var r := Step(p, MouseWheelScrolled(Vertical, delta, cx, cy), win);
      PlaneX(r, win, cx as real) == PlaneX(p, win, cx as real)
      && PlaneY(r, win, cy as real) == PlaneY(p, win, cy as real)
  {
  }

  /** With the cursor at the exact window centre the offset stays put. */
  lemma WheelAtCentre(p: Params, delta: real, cx: int, cy: int, win: WindowSize)
    requires win.NonEmpty() && |p.colors| > 0
    requires 2 * cx == win.width && 2 * cy == win.height
    ensures var r := Step(p, MouseWheelScrolled(Vertical, delta, cx, cy), win);
      r.offsetX == p.offsetX && r.offsetY == p.offsetY
  {
    CentreIsOrigin(win, cx, cy);
  }

  /** The window centre normalises to the origin on both axes. */
  lemma CentreIsOrigin(win: WindowSize, cx: int, cy: int)
    requires win.NonEmpty() && 2 * cx == win.width && 2 * cy == win.height
    ensures CursorNormX(win, cx as real) == 0.0 && CursorNormY(win, cy as real) == 0.0
  {
    HalfOfWhole(win.width as real);
    HalfOfWhole(win.height as real);
  }

  lemma HalfOfWhole(w: real)
    requires w > 0.0
    ensures (w / 2.0) / w == 0.5
  {
  }

  lemma HorizontalWheelIgnored(p: Params, delta: real, cx: int, cy: int, win: WindowSize)
    requires win.NonEmpty() && |p.colors| > 0
    ensures Step(p, MouseWheelScrolled(Horizontal, delta, cx, cy), win) == p
  {
  }

  /** A forward step followed by a backward step at the same cursor does not
      return to the start: 0.85 * 1.176 = 0.9996, so the zoom shrinks by
      0.04 percent while the cursor's plane point stays fixed. */
  lemma WheelRoundTripDrifts(p: Params, cx: int, cy: int, win: WindowSize)
    requires win.NonEmpty() && |p.colors| > 0 && p.zoom > 0.0
    ensures var r := Run(p, [MouseWheelScrolled(Vertical, 1.0, cx, cy), MouseWheelScrolled(Vertical, -1.0, cx, cy)], win);
      r.zoom == p.zoom * 0.9996 && r.zoom < p.zoom
      && PlaneX(r, win, cx as real) == PlaneX(p, win, cx as real)
      && PlaneY(r, win, cy as real) == PlaneY(p, win, cy as real)
  {
    var e1 := MouseWheelScrolled(Vertical, 1.0, cx, cy);
    var e2 := MouseWheelScrolled(Vertical, -1.0, cx, cy);
    var q1 := Step(p, e1, win);
    var q2 := Step(q1, e2, win);
    assert [e1, e2][1..] == [e2];
    assert Run(q1, [e2], win) == q2;
    assert Run(p, [e1, e2], win) == q2;
    WheelZoom(p, 1.0, cx, cy, win);
    WheelZoom(q1, -1.0, cx, cy, win);
    WheelKeepsCursorPoint(p, 1.0, cx, cy, win);
    WheelKeepsCursorPoint(q1, -1.0, cx, cy, win);
  }

  /** From the reset view, one forward wheel step over the centre of the
      program's 1200 x 800 window gives zoom 1.7 and keeps the origin in the
      centre. */
  lemma ResetThenZoomAtCentre(win: WindowSize)
    requires win == WindowSize(1200, 800)
    ensures var r := Run(Initial(), [KeyPressed(R), MouseWheelScrolled(Vertical, 1.0, 600, 400)], win);
      r.zoom == 1.7 && r.offsetX == 0.0 && r.offsetY == 0.0
  {
    var e := MouseWheelScrolled(Vertical, 1.0, 600, 400);
    assert [KeyPressed(R), e][1..] == [e];
    WheelAtCentre(Step(Initial(), KeyPressed(R), win), 1.0, 600, 400, win);
  }
}

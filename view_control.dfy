/** The CPU-side view controller of the Mandelbrot explorer: the
    `MandelbrotParams` record, its `reset()`, and the event branches of the
    main loop's poll loop, which update the record field by field.

    Zoom and offsets are doubles in the program and `real` here; the mouse
    positions are floats holding integer pixel positions and are `real` here.
    The window size (`window.getSize()`) is a parameter; the program divides
    by both of its components without a guard, so the model requires them
    to be positive. */
module ViewControl {

  /** An RGB triple of a palette entry (sf::Vector3f). */
  datatype Color = Color(r: real, g: real, b: real)

  /** The foreground palette `colors`. */
  const Foreground: seq<Color> := [
    Color(1.0, 1.0, 1.0), Color(1.0, 0.0, 0.0), Color(0.0, 1.0, 0.0),
    Color(0.0, 0.0, 1.0), Color(1.0, 1.0, 0.0), Color(1.0, 0.0, 1.0),
    Color(0.0, 1.0, 1.0)]

  /** The background palette `colorsBg`. */
  const Background: seq<Color> := [
    Color(0.0, 0.0, 0.0), Color(0.5, 0.0, 0.0), Color(0.0, 0.5, 0.0),
    Color(0.0, 0.0, 0.5), Color(0.5, 0.5, 0.0), Color(0.5, 0.0, 0.5),
    Color(0.0, 0.5, 0.5)]

  const IterationStep: int := 10
  const IterationFloor: int := 10
  const IterationCeiling: int := 1000
  const DefaultIterations: int := 100
  const ZoomInFactor: real := 0.85
  const ZoomOutFactor: real := 1.176

  /** A value snapshot of every field of `MandelbrotParams`. */
  datatype Params = Params(
    zoom: real,
    offsetX: real,
    offsetY: real,
    maxIterations: int,
    colorMode: int,
    colorModeBg: int,
    adaptiveIterations: bool,
    isDragging: bool,
    lastMouseX: real,
    lastMouseY: real,
    colors: seq<Color>,
    colorsBg: seq<Color>)
  {
    /** What the program keeps true of its parameters: a positive zoom, the
        iteration count inside the range the command line and the +/- keys
        allow, two palettes of equal non-zero length and both palette
        indices inside them. */
    predicate Valid() {
      zoom > 0.0
      && 0 <= maxIterations <= IterationCeiling
      && |colors| > 0 && |colorsBg| == |colors|
      && 0 <= colorMode < |colors|
      && 0 <= colorModeBg < |colors|
    }
  }

  /** The field initialisers of `MandelbrotParams` (these differ from what
      `reset()` installs). */
  function Initial(): (p: Params)
    ensures p.Valid()
    ensures p.zoom == 1.0 && p.offsetX == 0.3 && p.offsetY == 1.0
    ensures p.maxIterations == DefaultIterations && p.adaptiveIterations && !p.isDragging
  {
    Params(1.0, 0.3, 1.0, DefaultIterations, 0, 0, true, false, 0.0, 0.0, Foreground, Background)
  }

  /** `reset()`: restores the view, the iteration count, the foreground
      colour and the adaptive flag; every other field is kept. */
  function ResetView(p: Params): Params {
    p.(zoom := 2.0, offsetX := 0.0, offsetY := 0.0, maxIterations := DefaultIterations,
       colorMode := 0, adaptiveIterations := true)
  }

  /** The window size in pixels, as `window.getSize()` reports it. */
  datatype WindowSize = WindowSize(width: nat, height: nat) {
    predicate NonEmpty() { width > 0 && height > 0 }
  }

  datatype Key = R | C | V | B | N | Equal | Hyphen | A | Escape | OtherKey

  datatype Button = Left | Right | Middle | Extra1 | Extra2

  datatype Wheel = Vertical | Horizontal

  /** The events the poll loop distinguishes. A wheel event carries the
      cursor position that `Mouse::getPosition` returns while the event is
      handled; `Unhandled` stands for every other SFML event. */
  datatype Event =
    | Closed
    | Resized(newWidth: nat, newHeight: nat)
    | KeyPressed(key: Key)
    | MouseButtonPressed(button: Button, x: int, y: int)
    | MouseButtonReleased(button: Button)
    | MouseMoved(x: int, y: int)
    | MouseWheelScrolled(wheel: Wheel, delta: real, cursorX: int, cursorY: int)
    | Unhandled

  /** The events that set the main loop's `running` flag to false. */
  predicate Quits(e: Event) {
    e.Closed? || e == KeyPressed(Escape)
  }

  /** A non-zero integer multiple of `n` is at least `n` away from zero. */
  lemma MultipleBound(a: int, n: int)
    requires n > 0
    ensures a >= 1 ==> a * n >= n
    ensures a <= -1 ==> a * n <= -n
  {
    if a >= 1 {
      assert (a - 1) * n >= 0;
    }
    if a <= -1 {
      assert (-a - 1) * n >= 0;
    }
  }

  /** Euclidean remainder is unique: `q * n + r` leaves `r` for `0 <= r < n`. */
  lemma ModOfMultiple(q: int, r: int, n: int)
    requires n > 0 && 0 <= r < n
    ensures (q * n + r) % n == r
  {
    var x := q * n + r;
    var d := x / n;
    assert x == d * n + x % n;
    assert (q - d) * n == x % n - r;
    MultipleBound(q - d, n);
  }

  /** Adding `n` does not change a remainder modulo `n`. */
  lemma ModPeriodic(x: int, n: int)
    requires n > 0
    ensures (x + n) % n == x % n
  {
    var d := x / n;
    assert x == d * n + x % n;
    assert x + n == (d + 1) * n + x % n;
    ModOfMultiple(d + 1, x % n, n);
  }

  /** One wrapping step forward followed by `k` more is `k + 1` steps. */
  lemma ModSucc(i: int, k: nat, n: int)
    requires n > 0 && 0 <= i < n
    ensures (CycleForward(i, n) + k) % n == (i + 1 + k) % n
  {
    if i + 1 == n {
      ModPeriodic(k, n);
    }
  }

  /** Palette index one step forward, `(i + 1) % n`: wraps from the last
      entry to the first. */
  function CycleForward(i: int, n: int): (r: int)
    requires n > 0
    ensures 0 <= i < n ==> r == if i + 1 == n then 0 else i + 1
  {
    if 0 <= i && i + 1 == n then ModOfMultiple(1, 0, n); (i + 1) % n
    else if 0 <= i < n then ModOfMultiple(0, i + 1, n); (i + 1) % n
    else (i + 1) % n
  }

  /** Palette index one step back, `(i - 1 + n) % n`: wraps from the first
      entry to the last. The program computes it in `size_t`; for
      `0 <= i < n` the unsigned wrap-around of `i - 1` is undone by `+ n` and
      the value agrees with this one. */
  function CycleBackward(i: int, n: int): (r: int)
    requires n > 0
    ensures 0 <= i < n ==> r == if i == 0 then n - 1 else i - 1
  {
    if i == 0 then ModOfMultiple(0, n - 1, n); (i - 1 + n) % n
    else if 0 < i < n then ModOfMultiple(1, i - 1, n); (i - 1 + n) % n
    else (i - 1 + n) % n
  }

  /** `min(1000, m + 10)`. */
  function MoreIterations(m: int): int {
    if IterationCeiling < m + IterationStep then IterationCeiling else m + IterationStep
  }

  /** `max(10, m - 10)`. */
  function FewerIterations(m: int): int {
    if IterationFloor > m - IterationStep then IterationFloor else m - IterationStep
  }

  /** The key branch of the poll loop. */
  function PressKey(p: Params, k: Key): Params
    requires |p.colors| > 0
  {
    match k
    case R => ResetView(p)
    case C => p.(colorMode := CycleForward(p.colorMode, |p.colors|))
    case V => p.(colorMode := CycleBackward(p.colorMode, |p.colors|))
    // the background index is cycled modulo the size of the FOREGROUND palette
    case B => p.(colorModeBg := CycleForward(p.colorModeBg, |p.colors|))
    case N => p.(colorModeBg := CycleBackward(p.colorModeBg, |p.colors|))
    case Equal => p.(maxIterations := MoreIterations(p.maxIterations))
    case Hyphen => p.(maxIterations := FewerIterations(p.maxIterations))
    case A => p.(adaptiveIterations := !p.adaptiveIterations)
    case Escape => p
    case OtherKey => p
  }

  /** The horizontal screen coordinate `sx` normalised to [-1, 1] around the
      window centre and stretched by the aspect ratio, as the wheel handler
      computes `mouseX`. */
  function CursorNormX(win: WindowSize, sx: real): real
    requires win.NonEmpty()
  {
    (sx / win.width as real - 0.5) * 2.0 * (win.width as real / win.height as real)
  }

  /** The vertical screen coordinate normalised to [-1, 1] with the screen's
      downward axis flipped upward, as the wheel handler computes `mouseY`. */
  function CursorNormY(win: WindowSize, sy: real): real
    requires win.NonEmpty()
  {
    -(sy / win.height as real - 0.5) * 2.0
  }

  /** The complex-plane point (real part) the wheel handler takes to be under
      screen column `sx`: `mouseX * zoom + offsetX`. */
  function PlaneX(p: Params, win: WindowSize, sx: real): real
    requires win.NonEmpty()
  {
    CursorNormX(win, sx) * p.zoom + p.offsetX
  }

  /** The imaginary part under screen row `sy`: `mouseY * zoom + offsetY`. */
  function PlaneY(p: Params, win: WindowSize, sy: real): real
    requires win.NonEmpty()
  {
    CursorNormY(win, sy) * p.zoom + p.offsetY
  }

  /** A mouse move while dragging: shift the offset by the pixel delta since
      the last recorded position, scaled to the plane, and record the new
      position. */
  function Pan(p: Params, win: WindowSize, x: int, y: int): Params
    requires win.NonEmpty()
  {
    var deltaX := x as real - p.lastMouseX;
    var deltaY := y as real - p.lastMouseY;
    var w := win.width as real;
    var h := win.height as real;
    var aspectRatio := w / h;
    p.(offsetX := p.offsetX - (deltaX / w) * p.zoom * aspectRatio * 2.0,
       offsetY := p.offsetY - (deltaY / h) * p.zoom * 2.0,
       lastMouseX := x as real,
       lastMouseY := y as real)
  }

  /** Zoom to the cursor: scale the zoom by `factor` and move the offset so
      that the plane point under the cursor before the zoom is under it
      after the zoom. */
  function ZoomAt(p: Params, win: WindowSize, factor: real, cx: int, cy: int): Params
    requires win.NonEmpty()
  {
    var mouseX := CursorNormX(win, cx as real);
    var mouseY := CursorNormY(win, cy as real);
    var complexX := mouseX * p.zoom + p.offsetX;
    var complexY := mouseY * p.zoom + p.offsetY;
    var zoom := p.zoom * factor;
    p.(zoom := zoom, offsetX := complexX - mouseX * zoom, offsetY := complexY - mouseY * zoom)
  }

  /** The factor a vertical wheel step applies to the zoom. */
  function WheelFactor(delta: real): (f: real)
    ensures f > 0.0
    ensures delta > 0.0 ==> f < 1.0
    ensures delta <= 0.0 ==> f > 1.0
  {
    if delta > 0.0 then ZoomInFactor else ZoomOutFactor
  }

  /** One event of the poll loop applied to the parameters. */
  function Step(p: Params, e: Event, win: WindowSize): (r: Params)
    requires win.NonEmpty() && |p.colors| > 0
    ensures r.colors == p.colors && r.colorsBg == p.colorsBg
    ensures p.Valid() ==> r.Valid()
  {
    match e
    case KeyPressed(k) => PressKey(p, k)
    case MouseButtonPressed(b, x, y) =>
      if b == Left then p.(isDragging := true, lastMouseX := x as real, lastMouseY := y as real) else p
    case MouseButtonReleased(b) =>
      if b == Left then p.(isDragging := false) else p
    case MouseMoved(x, y) =>
      if p.isDragging then Pan(p, win, x, y) else p
    case MouseWheelScrolled(wheel, delta, cx, cy) =>
      if wheel == Vertical then ZoomAt(p, win, WheelFactor(delta), cx, cy) else p
    case Closed => p
    case Resized(_, _) => p
    case Unhandled => p
  }

  /** A queue of events applied in order. */
  function Run(p: Params, events: seq<Event>, win: WindowSize): (r: Params)
    requires win.NonEmpty() && |p.colors| > 0
    ensures r.colors == p.colors && r.colorsBg == p.colorsBg
    ensures p.Valid() ==> r.Valid()
    decreases |events|
  {
    if events == [] then p else Run(Step(p, events[0], win), events[1..], win)
  }

  /** The values the frame hands to the shader after the poll loop: window
      size, zoom, offset, iteration count, the two selected palette entries
      and the adaptive flag as 0 or 1 (the narrowing of zoom and offset to
      float is not modelled). */
  datatype Uniforms = Uniforms(
    resolution: (real, real), zoom: real, offset: (real, real), maxIterations: int,
    color: Color, colorBg: Color, adaptiveIterations: int)

  function FrameUniforms(p: Params, win: WindowSize): (u: Uniforms)
    requires p.Valid()
    ensures u.color in p.colors && u.colorBg in p.colorsBg
    ensures u.zoom > 0.0 && 0 <= u.maxIterations <= IterationCeiling
    ensures u.adaptiveIterations == 0 || u.adaptiveIterations == 1
    ensures u.adaptiveIterations == 1 <==> p.adaptiveIterations
  {
    Uniforms((win.width as real, win.height as real), p.zoom, (p.offsetX, p.offsetY),
             p.maxIterations, p.colors[p.colorMode], p.colorsBg[p.colorModeBg],
             if p.adaptiveIterations then 1 else 0)
  }

  /** The `MandelbrotParams` object the main loop updates in place. */
  class MandelbrotParams {
    var zoom: real
    var offsetX: real
    var offsetY: real
    var maxIterations: int
    var colorMode: int
    var colorModeBg: int
    var adaptiveIterations: bool
    var isDragging: bool
    var lastMouseX: real
    var lastMouseY: real
    var colors: seq<Color>
    var colorsBg: seq<Color>

    /** The current value of every field. */
    function Snapshot(): Params
      reads this
    {
      Params(zoom, offsetX, offsetY, maxIterations, colorMode, colorModeBg,
             adaptiveIterations, isDragging, lastMouseX, lastMouseY, colors, colorsBg)
    }

    predicate Valid()
      reads this
    {
      Snapshot().Valid()
    }

    constructor ()
      ensures Snapshot() == Initial() && Valid()
    {
      zoom, offsetX, offsetY := 1.0, 0.3, 1.0;
      maxIterations := DefaultIterations;
      colorMode, colorModeBg := 0, 0;
      adaptiveIterations := true;
      isDragging := false;
      lastMouseX, lastMouseY := 0.0, 0.0;
      colors, colorsBg := Foreground, Background;
    }

    method Reset()
      modifies this
      ensures Snapshot() == ResetView(old(Snapshot()))
      ensures old(Valid()) ==> Valid()
    {
      zoom := 2.0;
      offsetX := 0.0;
      offsetY := 0.0;
      maxIterations := DefaultIterations;
      colorMode := 0;
      adaptiveIterations := true;
    }

    /** The key branch of the poll loop. */
    method OnKeyPressed(k: Key)
      requires |colors| > 0
      modifies this
      ensures Snapshot() == PressKey(old(Snapshot()), k)
    {
      match k {
        case R => Reset();
        case C => colorMode := (colorMode + 1) % |colors|;
        case V => colorMode := (colorMode - 1 + |colors|) % |colors|;
        case B => colorModeBg := (colorModeBg + 1) % |colors|;
        case N => colorModeBg := (colorModeBg - 1 + |colors|) % |colors|;
        case Equal =>
          maxIterations := if IterationCeiling < maxIterations + IterationStep
            then IterationCeiling else maxIterations + IterationStep;
        case Hyphen =>
          maxIterations := if IterationFloor > maxIterations - IterationStep
            then IterationFloor else maxIterations - IterationStep;
        case A => adaptiveIterations := !adaptiveIterations;
        case Escape =>
        case OtherKey =>
      }
    }

    /** The mouse-move branch: pans only while dragging. */
    method OnMouseMoved(x: int, y: int, win: WindowSize)
      requires win.NonEmpty()
      modifies this
      ensures Snapshot() == if old(isDragging) then Pan(old(Snapshot()), win, x, y) else old(Snapshot())
    {
      if isDragging {
        var deltaX := x as real - lastMouseX;
        var deltaY := y as real - lastMouseY;
        var aspectRatio := win.width as real / win.height as real;
        offsetX := offsetX - (deltaX / win.width as real) * zoom * aspectRatio * 2.0;
        offsetY := offsetY - (deltaY / win.height as real) * zoom * 2.0;
        lastMouseX := x as real;
        lastMouseY := y as real;
      }
    }

    /** The wheel branch: only the vertical wheel zooms, to the cursor. */
    method OnMouseWheelScrolled(wheel: Wheel, delta: real, cx: int, cy: int, win: WindowSize)
      requires win.NonEmpty()
      modifies this
      ensures Snapshot() == if wheel == Vertical then ZoomAt(old(Snapshot()), win, WheelFactor(delta), cx, cy)
                            else old(Snapshot())
    {
      if wheel == Vertical {
        var zoomFactor := if delta > 0.0 then ZoomInFactor else ZoomOutFactor;
        var mouseX := (cx as real / win.width as real - 0.5) * 2.0;
        var mouseY := -(cy as real / win.height as real - 0.5) * 2.0;
        var aspectRatio := win.width as real / win.height as real;
        mouseX := mouseX * aspectRatio;
        var complexX := mouseX * zoom + offsetX;
        var complexY := mouseY * zoom + offsetY;
        zoom := zoom * zoomFactor;
        offsetX := complexX - mouseX * zoom;
        offsetY := complexY - mouseY * zoom;
      }
    }

    /** One turn of the poll loop; the result is false for the events that
        stop the main loop. */
    method HandleEvent(e: Event, win: WindowSize) returns (keepRunning: bool)
      requires win.NonEmpty() && |colors| > 0
      modifies this
      ensures Snapshot() == Step(old(Snapshot()), e, win)
      ensures keepRunning == !Quits(e)
    {
      keepRunning := !Quits(e);
      match e {
        case Closed =>
        case Resized(_, _) =>
        case KeyPressed(k) =>
          OnKeyPressed(k);
        case MouseButtonPressed(button, x, y) =>
          if button == Left {
            isDragging := true;
            lastMouseX := x as real;
            lastMouseY := y as real;
          }
        case MouseButtonReleased(button) =>
          if button == Left {
            isDragging := false;
          }
        case MouseMoved(x, y) =>
          OnMouseMoved(x, y, win);
        case MouseWheelScrolled(wheel, delta, cx, cy) =>
          OnMouseWheelScrolled(wheel, delta, cx, cy, win);
        case Unhandled =>
      }
    }
  }

  /** The inner `while (pollEvent)` loop: every pending event is handled, in
      order, even after one of them has cleared `running`. */
  method PollEvents(params: MandelbrotParams, events: seq<Event>, win: WindowSize) returns (running: bool)
    requires win.NonEmpty() && |params.colors| > 0
    modifies params
    ensures params.Snapshot() == Run(old(params.Snapshot()), events, win)
    ensures running <==> forall i :: 0 <= i < |events| ==> !Quits(events[i])
  {
    running := true;
    var i := 0;
    while i < |events|
      invariant 0 <= i <= |events|
      invariant |params.colors| > 0
      invariant Run(params.Snapshot(), events[i..], win) == Run(old(params.Snapshot()), events, win)
      invariant running <==> forall j :: 0 <= j < i ==> !Quits(events[j])
    {
      var keep := params.HandleEvent(events[i], win);
      assert events[i..][1..] == events[i + 1..];
      if !keep {
        running := false;
      }
      i := i + 1;
    }
  }
}

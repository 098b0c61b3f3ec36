# Mandelbrot explorer: view controller, command line, shader define, Mat4

A Dafny model of the CPU-side logic of an interactive Mandelbrot set viewer written in
C++ with SFML and OpenGL. The fractal itself is computed in GLSL shaders; the C++ program
keeps the view parameters, reacts to keyboard, mouse and wheel events, validates its
command line, prepares the fragment shader source, and carries a small 4x4 matrix type.
The model covers these four parts:

- `view_control.dfy` (module `ViewControl`): the `MandelbrotParams` record and its
  `reset()`, with the poll loop's event branches. It has two layers:
  - a pure transition `Step` over a `Params` value and an `Event` datatype, and its fold
    `Run` over a queue of events;
  - a class `MandelbrotParams` whose methods update the fields in place, as the program
    does. Each method is proved to equal the pure transition. `PollEvents` is the inner
    `while (pollEvent)` loop.

  `FrameUniforms` gives the values the frame hands to the shader.
- `view_properties.dfy` (module `ViewProperties`): the properties of the controller:
  - `reset()` and its idempotence;
  - palette cycling and its period;
  - the saturating iteration keys;
  - the drag state machine;
  - panning;
  - zoom-to-cursor, and the drift of a forward-then-backward wheel step.
- `command_line.dfy` (module `CommandLine`): `getArgType` and the loop over `argv`. It is
  a pure reference `Parse`, and a method `ParseArgs` with the program's index loop, proved
  equal to it. It covers:
  - the accepted ranges;
  - the error cases;
  - the rule that the last occurrence of a flag wins.
- `launch.dfy` (module `Launch`): the hand-off of the parsed `--max-iters` value into the
  view parameters.
- `shader_source.dfy` (module `ShaderSource`): the insertion of
  `#define USE_DOUBLE_PRECISION` after the first line of the fragment shader.
- `matrix.dfy` (module `Matrix`): the `Mat4` identity constructor and `operator*` over a
  16-entry array. It includes the identity laws of the product.

Zoom and offsets are `real` (doubles in the program). Matrix entries are `real` (floats in
the program). Mouse positions are integer pixels.

Behaviour of the code a reader may not expect:

- The parameters start at zoom 1.0 and offset (0.3, 1.0), the field initialisers of
  `MandelbrotParams`. Only `reset()` installs zoom 2.0 and offset (0, 0).
- `reset()` does not touch the background palette index, the drag state or the last mouse
  position.
- `--max-iters` accepts 0..1000. A count below 10 is then raised to 10 by the '-' key
  (`ViewProperties.IterationKeys`).
- A left press records the press position even while already dragging.
- The background index is cycled modulo the size of the foreground palette. Both palettes
  have seven entries, so the lookup stays in range (`ViewProperties.BackgroundFullCircle`).
- No operation rejects a non-positive zoom. Zoom starts positive, and both wheel factors
  are positive, so it stays positive (`ViewControl.Step`, `ViewProperties.WheelZoom`).
- Measured with the wheel handler's own screen-to-plane map, a drag behaves differently on
  each axis:
  - horizontally, it keeps the grabbed point under the pointer
    (`ViewProperties.DragKeepsGrabbedColumn`);
  - vertically, it moves the grabbed point by twice the pointer's displacement
    (`ViewProperties.DragVerticalShift`).

  Which of the two maps the shader agrees with is decided by shader code that is not part
  of this model, so both are stated as they are.

## Model

| member | source | states |
|---|---|---|
| ViewControl.Initial | src/main.cpp:32-63 | the field initialisers form a valid state: zoom 1.0, offset (0.3, 1.0), 100 iterations, adaptive on, not dragging |
| ViewControl.CycleForward | src/main.cpp:596-598 | `(i + 1) % n` on an index in range is the next index, wrapping from the last entry to 0 |
| ViewControl.CycleBackward | src/main.cpp:599-601 | `(i - 1 + n) % n` on an index in range is the previous index, wrapping from 0 to the last entry |
| ViewControl.WheelFactor | src/main.cpp:652 | the wheel's zoom factor is positive; it is below 1 for a forward step and above 1 otherwise |
| ViewControl.Step | src/main.cpp:580-675 | one event never changes the palettes and keeps every state invariant: positive zoom, iterations in 0..1000, both palette indices in range |
| ViewControl.Run | src/main.cpp:580-676 | any queue of events keeps the palettes and the state invariant |
| ViewControl.FrameUniforms | src/main.cpp:685-699 | the colours sent to the shader are entries of the two palettes; the zoom is positive; the iteration count is in range; the adaptive flag is 1 exactly when adaptive mode is on, else 0 |
| ViewControl.ResetView | src/main.cpp:65-72 | no contract of its own; its properties are `ViewProperties.ResetInstallsDefaults`, `ViewProperties.ResetIdempotent` and `ViewControl.MandelbrotParams.Reset` |
| ViewControl.PressKey | src/main.cpp:587-619 | no contract of its own; its properties are the key lemmas `ViewProperties.ResetInstallsDefaults`, `ForegroundCycleInverse`, `BackgroundCycleInverse`, `IterationKeys`, `AdaptiveToggle` and `ViewControl.Step` |
| ViewControl.MoreIterations | src/main.cpp:609 | no contract of its own; its properties are `ViewProperties.IterationKeys` |
| ViewControl.FewerIterations | src/main.cpp:612 | no contract of its own; its properties are `ViewProperties.IterationKeys` |
| ViewControl.Pan | src/main.cpp:633-648 | no contract of its own; its properties are `ViewProperties.DragPans`, `DragKeepsGrabbedColumn` and `DragVerticalShift` |
| ViewControl.ZoomAt | src/main.cpp:649-674 | no contract of its own; its properties are `ViewProperties.WheelZoom`, `WheelKeepsCursorPoint`, `WheelAtCentre` and `WheelRoundTripDrifts` |
| ViewControl.Quits | src/main.cpp:581-591 | no contract of its own; its properties are `ViewControl.MandelbrotParams.HandleEvent` and `ViewControl.PollEvents` |
| ViewControl.CursorNormX | src/main.cpp:658-662 | no contract of its own; its properties are `ViewProperties.CentreIsOrigin` and `DragKeepsGrabbedColumn` |
| ViewControl.CursorNormY | src/main.cpp:659 | no contract of its own; its properties are `ViewProperties.CentreIsOrigin` and `DragVerticalShift` |
| ViewControl.PlaneX | src/main.cpp:665 | no contract of its own; its properties are `ViewProperties.WheelKeepsCursorPoint` and `DragKeepsGrabbedColumn` |
| ViewControl.PlaneY | src/main.cpp:666 | no contract of its own; its properties are `ViewProperties.WheelKeepsCursorPoint` and `DragVerticalShift` |
| ViewControl.MandelbrotParams.constructor | src/main.cpp:32-63 | a new parameter object holds the initial state |
| ViewControl.MandelbrotParams.Reset | src/main.cpp:65-72 | `reset()` installs zoom 2.0, offset (0, 0), 100 iterations, colour 0 and adaptive mode; every other field keeps its value; validity is preserved |
| ViewControl.MandelbrotParams.OnKeyPressed | src/main.cpp:587-619 | the in-place key branch leaves the fields equal to the pure key transition |
| ViewControl.MandelbrotParams.OnMouseMoved | src/main.cpp:633-648 | the in-place move branch pans only while dragging, as the pure transition does |
| ViewControl.MandelbrotParams.OnMouseWheelScrolled | src/main.cpp:649-674 | the in-place wheel branch zooms to the cursor for the vertical wheel only |
| ViewControl.MandelbrotParams.HandleEvent | src/main.cpp:581-675 | one event updates the fields as `Step` does; the result is false exactly for a window close or Escape |
| ViewControl.PollEvents | src/main.cpp:580-676 | draining the queue updates the fields as `Run` does; `running` stays true iff no event in the queue quits |
| ViewProperties.ResetInstallsDefaults | src/main.cpp:65-72 | R installs the reset values; the background index, drag state, last mouse position and palettes are unchanged |
| ViewProperties.ResetIdempotent | src/main.cpp:65-72 | pressing R twice gives the same state as pressing it once |
| ViewProperties.ForegroundCycleInverse | src/main.cpp:596-601 | C then V, and V then C, restore the state exactly |
| ViewProperties.BackgroundCycleInverse | src/main.cpp:602-607 | B then N, and N then B, restore the state exactly |
| ViewProperties.ForegroundCycleSteps | src/main.cpp:596-598 | k presses of C add k to the foreground index modulo the palette size and change nothing else |
| ViewProperties.ForegroundFullCircle | src/main.cpp:46-54 | as many C presses as the palette has entries (seven) return to the start |
| ViewProperties.BackgroundCycleSteps | src/main.cpp:602-604 | k presses of B add k to the background index modulo the foreground palette's size |
| ViewProperties.BackgroundFullCircle | src/main.cpp:602-607 | `colorsBg.size()` presses of B return to the start; after B or N the background index selects an entry of `colorsBg` |
| ViewProperties.IterationKeys | src/main.cpp:608-613 | '+' gives min(1000, m + 10) and '-' gives max(10, m - 10); a count below 10 is raised; no other field changes |
| ViewProperties.AdaptiveToggle | src/main.cpp:614-616 | A negates the adaptive flag, and two presses are the identity |
| ViewProperties.ButtonTransitions | src/main.cpp:621-632 | a left press sets dragging and records the press position, even when already dragging; a left release clears dragging; other buttons change nothing |
| ViewProperties.DraggingFollowsLeftButton | src/main.cpp:621-632 | after any event queue the drag flag equals that of a two-state Idle/Dragging machine driven only by left presses and releases |
| ViewProperties.MoveWhileIdle | src/main.cpp:633-634 | a mouse move while not dragging changes nothing |
| ViewProperties.DragPans | src/main.cpp:633-648 | a drag step shifts the offset against the pointer by 2 * zoom / height per pixel on both axes, records the new position, and changes nothing else |
| ViewProperties.DragKeepsGrabbedColumn | src/main.cpp:633-648 | horizontally, a drag keeps the grabbed plane point under the pointer (by the wheel handler's screen-to-plane map) |
| ViewProperties.DragVerticalShift | src/main.cpp:643 | vertically, the plane point under the pointer after a drag is the grabbed one shifted by -4 * zoom * dy / height |
| ViewProperties.WheelZoom | src/main.cpp:649-669 | a vertical step multiplies the zoom by 0.85 forward or 1.176 backward, so a positive zoom stays positive and moves the right way; nothing but zoom and offset changes |
| ViewProperties.WheelKeepsCursorPoint | src/main.cpp:655-673 | zoom to cursor: the plane point under the cursor is the same before and after a vertical wheel step |
| ViewProperties.WheelAtCentre | src/main.cpp:658-673 | with the cursor at the window centre the offset does not move |
| ViewProperties.CentreIsOrigin | src/main.cpp:658-662 | the exact window centre normalises to (0, 0) on both axes |
| ViewProperties.HorizontalWheelIgnored | src/main.cpp:650 | a horizontal wheel event changes nothing |
| ViewProperties.WheelRoundTripDrifts | src/main.cpp:652 | forward then backward at one cursor keeps the cursor's plane point but leaves zoom * 0.9996, so it does not round-trip |
| ViewProperties.ResetThenZoomAtCentre | src/main.cpp:649-673 | from reset, one forward step over the centre of a 1200 x 800 window gives zoom 1.7 and offset (0, 0) |
| CommandLine.GetArgType | src/main.cpp:84-91 | a recognised kind is returned exactly when the text equals that kind's flag; Unknown exactly when it equals none |
| CommandLine.FlagTextRoundTrip | src/main.cpp:84-91 | each flag's text is classified as that flag |
| CommandLine.Parse | src/main.cpp:383-434 | no contract of its own; its properties are `CommandLine.ParseArgs`, `ParseBounds`, `ParseAppend`, `UnknownArgumentRejected`, `MissingValueRejected`, `BadValueRejected` and `LastOccurrenceWins` |
| CommandLine.ParseCommandLine | src/main.cpp:382-435 | no contract of its own; its properties are `CommandLine.ParseArgs`, `AcceptedCommandLineInRange` and `Launch.AcceptedCommandLineStartsValid` |
| CommandLine.ParseArgs | src/main.cpp:373-435 | the program's index loop, which steps over consumed values, decides the same result as the reference `Parse` of `argv` without its program name |
| CommandLine.ParseBounds | src/main.cpp:381-435 | an accepted argument list leaves anti-aliasing in 0..16 and iterations in 0..1000; depth and stencil are either 24/8 or both 0 |
| CommandLine.AcceptedCommandLineInRange | src/main.cpp:373-435 | every accepted command line yields settings inside the checked ranges |
| CommandLine.ParseAppend | src/main.cpp:382-434 | after an accepted prefix, the rest of the arguments are processed from the settings the prefix produced |
| CommandLine.UnknownArgumentRejected | src/main.cpp:432 | after any accepted prefix, an unknown argument rejects the command line with that argument, whatever follows |
| CommandLine.MissingValueRejected | src/main.cpp:389-422 | after any accepted prefix, `--aa`, `--vsync` or `--max-iters` as the last argument rejects the line as a missing value for that flag |
| CommandLine.BadValueRejected | src/main.cpp:394-428 | after any accepted prefix, each of these rejects the line with its own error, whatever follows: an anti-aliasing level outside 0..16; an iteration count outside 0..1000; a vsync value other than true/false |
| CommandLine.LastOccurrenceWins | src/main.cpp:383-431 | a flag appended to an accepted prefix sets exactly its own fields, so the last occurrence decides |
| Launch.StartParams | src/main.cpp:371-428 | no contract of its own; its properties are `Launch.AcceptedCommandLineStartsValid` |
| Launch.AcceptedCommandLineStartsValid | src/main.cpp:371-435 | an accepted command line, with `--max-iters` stored into `params`, starts the viewer in a valid state that every event queue keeps valid |
| ShaderSource.FirstNewline | src/main.cpp:150 | `find('\n')` returns the index of a newline with none before it, or not-found exactly when the text has no newline |
| ShaderSource.WithPrecisionDefine | src/main.cpp:148-154 | without double precision, or without a newline, the source is unchanged; otherwise the define is spliced in right after the first newline; the length grows by the define's length exactly when it is inserted |
| ShaderSource.FindNewline | src/main.cpp:150 | the scan for the first newline returns what `FirstNewline` specifies |
| ShaderSource.FirstNewlineUnique | src/main.cpp:150 | a newline with none before it is the first newline |
| ShaderSource.PrepareFragmentSource | src/main.cpp:146-154 | the program's in-place insert produces `WithPrecisionDefine` of the source |
| ShaderSource.DefineRoundTrip | src/main.cpp:151-153 | the first line is kept, the define follows it, and removing the define gives back the source |
| Matrix.Identity | include/matrix.h:10-16 | the identity has 1 where row equals column and 0 elsewhere |
| Matrix.Product | include/matrix.h:94-105 | entry `i * 4 + j` of the product is the sum over k < 4 of `a[k * 4 + j] * b[i * 4 + k]` |
| Matrix.Dot | include/matrix.h:98-101 | no contract of its own; its properties are `Matrix.Product`, `Matrix.Mat4.AccumulateEntry`, `IdentityLeft` and `IdentityRight` |
| Matrix.Mat4.constructor | include/matrix.h:10-16 | the default constructor yields a fresh 16-entry identity |
| Matrix.Mat4.AccumulateEntry | include/matrix.h:98-101 | the inner loop sets one result entry to its four-term sum and leaves the other 15 unchanged |
| Matrix.Mat4.Mul | include/matrix.h:94-105 | `operator*` returns a fresh matrix equal to `Product` of the operands and leaves both operands unchanged |
| Matrix.IdentityLeft | include/matrix.h:10-16 | Identity * M == M |
| Matrix.IdentityRight | include/matrix.h:94-105 | M * Identity == M |

## Left out

- Window, OpenGL context and SFML setup, buffer objects, uniform lookup and the draw call: these are foreign graphics calls. Their observable input is summarised by `FrameUniforms`.
- Reading, compiling and linking shaders, and `checkGLError`: I/O and GL calls. Only the string edit at src/main.cpp:148-154 is modelled.
- The GLSL shaders (escape-time loop, colour mapping, adaptive-iteration policy) are not part of this model.
- Frame timing and the FPS counter: they depend on the clock.
- The resize branch only calls `glViewport`, so it is a no-op on the parameters here.
- The window size and the cursor position (`window.getSize()`, `Mouse::getPosition`) are parameters. One window size holds for a whole queue of events. The wheel handler reads the cursor when it handles the event, so the model carries that position inside the wheel event.
- A zero window width or height is required away. The program divides by both without a guard.
- Double and float rounding, and the narrowing of zoom and offset to float for the uniforms: all arithmetic is exact over `real`.
- `stoi` is a given function `parseInt`. The exceptions it throws are not modelled: `invalid_argument` on text that is not a number, and `out_of_range` on a value beyond `int` (src/main.cpp:394, 423).
- The fixed context version 4.1 and the core-profile flag are constants that no branch reads.
- `Mat4::perspective`, `lookAt`, `rotateY` and `rotateX` depend on tan, sqrt, cos and sin.
- Matrix.Product: associativity is not stated.

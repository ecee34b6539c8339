# fMBT Windows connection — a Dafny model

fMBT drives the GUI of a Windows machine through `fmbtwindows.WindowsConnection`.
The connection opens a pythonshare session to the machine and injects the agent code
into the namespace `fmbtwindows-agent`. From then on, every GUI action is one Python
expression evaluated in that namespace: taps, touches, clicks, key presses, typed text
and file reads. Pointer coordinates go through a screen-to-display mapping first. The
mapping is the identity at first. `setScreenshotSize` replaces it with per-axis integer
scales computed from the screenshot size and the agent's mouse input area. A
screenshot is fetched as a compressed buffer and written to `<filename>.ppm` under a
`P6` header. The external `convert` tool then turns it into the requested file, run by
`_run`, which checks the child's exit status.

The model has six modules:

- `Py` (py.dfy): the Python 2 behaviour the code relies on. This covers `None`, raised
  exceptions, floor division `/` with ZeroDivisionError, and the decimal text of an
  integer (`str`, `%s`, `%d`). It also has a reader for that text, with the read-back
  lemma.
- `Coords` (coords.dfy): one direction of the mapping as a `Mapping` value (identity or
  per-axis scale). The two fields `_screenToDisplay` and `_displayToScreen` form a
  `Transform` pair. `Consistent` says both directions come from one resolution pair.
  This module also holds the round-trip bound.
- `Commands` (commands.dfy): the exact expression text of every input operation, and
  readers that recover the arguments from it. Python's `repr` is kept uninterpreted, as
  a pair of function values (`PyRepr`).
- `Screenshot` (screenshot.dfy): how the capture size is chosen and which calls a
  capture makes. Also the `.ppm` file name and the PPM header, with a header reader.
- `Process` (process.dfy): `_run`, with what starting the child did as a parameter.
- `Connection` (connection.dfy): the class `WindowsConnection`. Its fields are
  `_screenshotSize`, the transform pair, and `sent`, the log of everything the agent
  side received, in order. Its methods update these fields in place. `Valid()` says
  the agent code was injected first and exactly once, and every later request is an
  evaluation in the agent namespace. Every method keeps that invariant.

Where the code behaves differently from what a caller might expect, the model follows
the code:

- The key code is placed between double quotes without escaping, although a caller
  might expect every argument to be escaped. `QuoteInKeyCodeBreaksCommand` shows a key
  code that breaks the command.
- The `.ppm` file is removed only after `convert` succeeds; when the conversion fails,
  it stays behind.
- The two mapping setters can each be called alone, so nothing keeps the two
  directions in step. Only `setScreenshotSize` and the constructor are proved to leave
  the pair `Consistent`.
- The round trip screen → display → screen is proved to stay within one unit when the
  screenshot is no larger than the input area on that axis. A larger screenshot can
  lose more: with 3:1, `RoundTripLosesMoreWhenDownscaling` shows two units lost.
- No size check is done on the decompressed buffer, and zero or negative sizes are not
  rejected. A zero size surfaces as ZeroDivisionError at the next pointer event.

## Model

| member | source | states |
|---|---|---|
| `Py.Div` | utils/fmbtwindows.py:236 | integer `/` raises ZeroDivisionError exactly for a zero divisor; otherwise its result is the floor of the quotient, for either sign of divisor |
| `Py.Str` | utils/fmbtwindows.py:310 | the `%s` text of an integer is non-empty, starts with '-' exactly for negatives, and is digits otherwise |
| `Py.ReadIntOfStr` | utils/fmbtwindows.py:310 | the text of any integer reads back as that integer, leaving whatever follows it |
| `Py.ReadItemsOfJoined` | utils/fmbtwindows.py:312 | comma-separated integer arguments read back as the same integers, in order |
| `Coords.Apply` | utils/fmbtwindows.py:228-238 | the identity mapping returns (x, y); a scale raises ZeroDivisionError exactly when a denominator is zero, and otherwise gives the floor of x·num/den on each axis, for either sign of denominator |
| `Coords.Between` | utils/fmbtwindows.py:235-238 | the pair installed for one screenshot size and input area is consistent: display→screen is screen→display inverted |
| `Coords.CornersCorrespond` | utils/fmbtwindows.py:235-238 | for positive sizes, the screenshot corner maps exactly onto the input-area corner and back |
| `Coords.ConsistentIsOneResolutionPair` | utils/fmbtwindows.py:228-238 | a consistent pair is the identity pair or the pair of some single resolution pair |
| `Coords.AxisRoundTrip` | utils/fmbtwindows.py:236-238 | on one axis with 0 < screen ≤ input, scaling v to the display and back gives v or v − 1 |
| `Coords.RoundTripWithinOne` | utils/fmbtwindows.py:235-238 | for every point, display→screen(screen→display(x, y)) is within one unit below (x, y) on each axis when the screenshot is no larger than the input area |
| `Coords.RoundTripLosesMoreWhenDownscaling` | utils/fmbtwindows.py:235-238 | with a screenshot three times the input area, x = 2 comes back as 0 |
| `Commands.PointerCommandReadsBack` | utils/fmbtwindows.py:307-341 | with no button, the command is the touch variant with the two coordinates; with a button, it is the mouse variant with the coordinates and the button |
| `Commands.PointerCommandInjective` | utils/fmbtwindows.py:307-341 | two pointer events with the same command text have the same operation, coordinates and button |
| `Commands.KeyCommandReadsBack` | utils/fmbtwindows.py:283-305 | for a key code of plain characters (no `"`, backslash or line break), a key command reads back as its operation's name, the key code verbatim, and `[]` when modifiers is None or repr(modifiers) otherwise |
| `Commands.QuoteInKeyCodeBreaksCommand` | utils/fmbtwindows.py:285 | the key code `a"b` gives `sendKey("a"b",[])`, which does not read back as a key command |
| `Commands.TypeCommandRoundTrip` | utils/fmbtwindows.py:278-281 | the command is `sendType(` + repr(text) + `)`, so its argument is exactly repr(text); that the agent recovers the text is the assumption that its literal reader undoes repr, not a proved fact |
| `Commands.ReadFileCommandRoundTrip` | utils/fmbtwindows.py:244 | the file read is `file(` + repr(name) + `).read()`, so its argument is exactly repr(name); that the agent recovers the name is the assumption that its literal reader undoes repr, not a proved fact |
| `Screenshot.Effective` | utils/fmbtwindows.py:254-255 | a per-call size other than (None, None) wins; otherwise the connection's size is used |
| `Screenshot.CapturePlan` | utils/fmbtwindows.py:257-263 | with no size, two calls are made, `screenshotZYBGR()` then `zybgrSize()`, and the dimensions come from the second reply; with a size, one call carries that size and the dimensions are that size |
| `Screenshot.CaptureCallReadsBack` | utils/fmbtwindows.py:261-262 | the capture call `screenshotZYBGR((w, h))` reads back as (w, h) |
| `Screenshot.PpmHeaderReadsBack` | utils/fmbtwindows.py:268-272 | the header reads back as `P6`, the width, the height and 255, and the pixel data after it is untouched |
| `Process.Run` | utils/fmbtwindows.py:52-86 | a child that fails to start reports status 127, empty stdout and the error as stderr; a child not waited for has no status yet; otherwise the child's own status and output. With no expected status `_run` returns; with a collection, it raises FMBTWindowsError exactly when the status is not in it; with a single int, a mismatch raises TypeError |
| `Process.ZeroExpectedSucceedsOnlyOnZero` | utils/fmbtwindows.py:274 | with expected [0], `_run` returns exactly when the child started and exited 0; a failed start raises with status 127 |
| `Connection.WindowsConnection.constructor` | utils/fmbtwindows.py:219-229 | the agent code is injected once, first; the size is undetected; both mappings are the identity |
| `Connection.WindowsConnection.SetScreenshotSize` | utils/fmbtwindows.py:231-238 | stores the size, evaluates `_mouse_input_area` once, and installs both directions from that one resolution pair (a consistent pair) |
| `Connection.WindowsConnection.SetScreenToDisplayCoords` | utils/fmbtwindows.py:343-344 | replaces the screen→display direction and nothing else |
| `Connection.WindowsConnection.SetDisplayToScreenCoords` | utils/fmbtwindows.py:346-347 | replaces the display→screen direction and nothing else |
| `Connection.WindowsConnection.EvalPython` | utils/fmbtwindows.py:240-241 | one evaluation of the code; the agent's reply is returned |
| `Connection.WindowsConnection.RecvFile` | utils/fmbtwindows.py:243-249 | one file-read evaluation; True when a non-empty local name is given, the fetched data unchanged otherwise |
| `Connection.WindowsConnection.RecvScreenshot` | utils/fmbtwindows.py:251-276 | evaluates the plan's calls in order; writes `filename.ppm` with the header of the chosen or reported size; returns True exactly when `convert` exits 0, and only then removes the `.ppm` |
| `Connection.WindowsConnection.SendType` | utils/fmbtwindows.py:278-281 | exactly one evaluation, the type command; returns True |
| `Connection.WindowsConnection.SendKey` | utils/fmbtwindows.py:283-305 | exactly one evaluation, the key command; returns True |
| `Connection.WindowsConnection.SendPress` | utils/fmbtwindows.py:283-289 | exactly one `sendKey` evaluation; returns True |
| `Connection.WindowsConnection.SendKeyDown` | utils/fmbtwindows.py:291-297 | exactly one `sendKeyDown` evaluation; returns True |
| `Connection.WindowsConnection.SendKeyUp` | utils/fmbtwindows.py:299-305 | exactly one `sendKeyUp` evaluation; returns True |
| `Connection.WindowsConnection.SendPointer` | utils/fmbtwindows.py:307-341 | coordinates go through screen→display first; if that raises, nothing is sent; otherwise exactly one command is sent at the mapped coordinates and True returned |
| `Connection.WindowsConnection.SendTap` | utils/fmbtwindows.py:307-314 | one `sendTap`/`sendClick` evaluation at the mapped coordinates, or the mapping's exception with nothing sent |
| `Connection.WindowsConnection.SendTouchDown` | utils/fmbtwindows.py:316-323 | one `sendTouchDown`/`sendMouseDown` evaluation at the mapped coordinates, or the mapping's exception with nothing sent |
| `Connection.WindowsConnection.SendTouchMove` | utils/fmbtwindows.py:325-332 | one `sendTouchMove`/`sendMouseMove` evaluation at the mapped coordinates, or the mapping's exception with nothing sent |
| `Connection.WindowsConnection.SendTouchUp` | utils/fmbtwindows.py:334-341 | one `sendTouchUp`/`sendMouseUp` evaluation at the mapped coordinates, or the mapping's exception with nothing sent |
| `Connection.TapOnNewConnection` | utils/fmbtwindows.py:228-229 | on a new connection, `sendTap(50, 50)` is the only evaluation and reads exactly `sendTap(50, 50)` |
| `Connection.TapAfterScreenshotSize` | utils/fmbtwindows.py:231-238 | after size (640, 480) with input area (1280, 800), a tap at (100, 100) is evaluated as `sendTap(200, 166)` |

## Left out

- The pythonshare transport is not modelled: connecting, the password, `exec_in` and
  `eval_in`. The agent is represented only by the requests it receives. Its replies are
  method parameters.
- Remote exceptions are not modelled. A failing evaluation raises in Python after the
  request has been sent; in the model every evaluation returns.
- Reading `fmbtwindows_agent.py` from disk is file I/O. The constructor takes the agent
  code as a parameter.
- Connection.WindowsConnection.RecvScreenshot: does not model the pixel data. The
  `zlib.decompress` call and the `fmbtgti.eye4graphics.wbgr2rgb` conversion are foreign
  code, so the model covers the calls, the file name, the header and the status
  decision, but not the bytes written after the header.
- Writing the `.ppm` file, saving `recvFile`'s data locally, and `os.remove` are file
  I/O. They appear only as the returned `PpmFile`, the `Saved` result and the `removed`
  flag.
- Starting the child process (`subprocess.Popen`) and the `convert` tool are process
  I/O. What happened is the `Spawn` parameter. The `shell` flag passed to `Popen`
  (true for a string command) only affects how the child is started, so it is not
  modelled.
- Process.Run: the text of the FMBTWindowsError message and the `_adapterLog` line are
  not modelled. The exception carries the exit status and the expected statuses.
- Python `repr` is uninterpreted (`PyRepr`). Its escaping rules are not modelled, so
  the recovery of typed text and file names is an assumption about the agent's
  literal reader (that it undoes `repr`), not something proved.
- Connection.WindowsConnection.SetScreenToDisplayCoords: accepts only an identity or
  per-axis scale mapping, not an arbitrary callable.
- Connection.WindowsConnection.SetDisplayToScreenCoords: accepts only an identity or
  per-axis scale mapping, not an arbitrary callable.
- Connection.WindowsConnection.SetScreenshotSize: takes two integers. Passing
  `(None, None)` or a non-integer pair is not modelled.
- Coordinates, sizes and buttons are integers. Float coordinates would use true
  division in Python and are not modelled. A size with exactly one `None` is not
  modelled. Modifiers are a list of strings.
- `Device` is not modelled. It only delegates to the connection and to the
  `fmbtgti.GUITestInterface` base, which is not part of this model. That includes
  `getFile`, `setScreenshotSize`, `shell`, `shellSOE`, and the deprecated
  `launchHTTPD`/`stopHTTPD`.
- `Device.setDisplaySize` (utils/fmbtwindows.py:133-153) is not modelled, because it
  cannot work as written. It never unpacks `size`, and its lambdas use the undefined
  names `width` and `height`.
- `_adapterLog` is logging only.

/** The connection's coordinate mappings between screenshot space and the display
    input area (utils/fmbtwindows.py, WindowsConnection). */
module Coords {
  import opened Py

  /** One direction of the mapping: the identity `lambda x, y: (x, y)`, or the per-axis
      scaling `lambda x, y: (x * numX / denX, y * numY / denY)` in Python 2 integers. */
  datatype Mapping = Identity | Scale(numX: int, denX: int, numY: int, denY: int)

  /** Calls the mapping on (x, y); a zero denominator raises ZeroDivisionError at call time,
      not when the mapping is installed. */
  function Apply(m: Mapping, x: int, y: int): (r: Result<(int, int)>)
    ensures m.Identity? ==> r == Ok((x, y))
    ensures m.Scale? ==> (r.Raise? <==> m.denX == 0 || m.denY == 0)
    ensures r.Raise? ==> r.exc == ZeroDivisionError
    ensures m.Scale? && r.Ok? && m.denX > 0 ==>
      r.value.0 * m.denX <= x * m.numX < r.value.0 * m.denX + m.denX
    ensures m.Scale? && r.Ok? && m.denY > 0 ==>
      r.value.1 * m.denY <= y * m.numY < r.value.1 * m.denY + m.denY
    ensures m.Scale? && r.Ok? && m.denX < 0 ==>
      r.value.0 * m.denX + m.denX < x * m.numX <= r.value.0 * m.denX
    ensures m.Scale? && r.Ok? && m.denY < 0 ==>
      r.value.1 * m.denY + m.denY < y * m.numY <= r.value.1 * m.denY
  {
    match m
    case Identity => Ok((x, y))
    case Scale(nx, dx, ny, dy) =>
      match Div(x * nx, dx)
      case Raise(e) => Raise(e)
      case Ok(x') =>
        match Div(y * ny, dy)
        case Raise(e) => Raise(e)
        case Ok(y') => Ok((x', y'))
  }

  /** The pair of fields `_screenToDisplay` and `_displayToScreen`. */
  datatype Transform = Transform(screenToDisplay: Mapping, displayToScreen: Mapping)

  /** What a new connection installs: events go out in screenshot coordinates. */
  const Unscaled := Transform(Identity, Identity)

  /** Both directions describe one resolution pair: either both are the identity, or the
      display-to-screen scale is the screen-to-display scale turned upside down. */
  predicate Consistent(t: Transform) {
    match t.screenToDisplay
    case Identity => t.displayToScreen == Identity
    case Scale(nx, dx, ny, dy) => t.displayToScreen == Scale(dx, nx, dy, ny)
  }

  /** The pair `setScreenshotSize` installs for screenshot size (screenW, screenH) and the
      agent's mouse input area (inputW, inputH). */
  function Between(screenW: int, screenH: int, inputW: int, inputH: int): (t: Transform)
    ensures Consistent(t)
  {
    Transform(Scale(inputW, screenW, inputH, screenH), Scale(screenW, inputW, screenH, inputH))
  }

  lemma {:induction false} LessAfterScaling(a: int, b: int, i: int)
    requires i > 0 && a * i < b * i
    ensures a < b
  {
  }

  lemma {:induction false} ExactQuotient(s: int, i: int)
    requires s > 0
    ensures (s * i) / s == i
  {
    var q := (s * i) / s;
    assert q * s <= s * i < q * s + s;
    LessAfterScaling(q, i + 1, s) by {
      assert (i + 1) * s == s * i + s;
    }
    LessAfterScaling(i, q + 1, s) by {
      assert (q + 1) * s == q * s + s;
      assert i * s == s * i;
    }
  }

  /** The corner of the screenshot maps to the corner of the input area and back. */
  lemma CornersCorrespond(screenW: int, screenH: int, inputW: int, inputH: int)
    requires screenW > 0 && screenH > 0 && inputW > 0 && inputH > 0
    ensures Apply(Between(screenW, screenH, inputW, inputH).screenToDisplay, screenW, screenH)
      == Ok((inputW, inputH))
    ensures Apply(Between(screenW, screenH, inputW, inputH).displayToScreen, inputW, inputH)
      == Ok((screenW, screenH))
  {
    ExactQuotient(screenW, inputW);
    ExactQuotient(screenH, inputH);
    ExactQuotient(inputW, screenW);
    ExactQuotient(inputH, screenH);
    assert screenW * inputW == inputW * screenW;
    assert screenH * inputH == inputH * screenH;
  }

  /** A consistent pair is the initial identity pair or the pair of one resolution pair. */
  lemma ConsistentIsOneResolutionPair(t: Transform)
    requires Consistent(t)
    ensures t == Unscaled || exists sw, sh, iw, ih :: t == Between(sw, sh, iw, ih)
  {
    if t.screenToDisplay.Scale? {
      var m := t.screenToDisplay;
      assert t == Between(m.denX, m.denY, m.numX, m.numY);
    }
  }

  /** Along one axis: scaling v from the screenshot size s up to the input size i and back
      loses at most one unit. */
  lemma {:induction false} AxisRoundTrip(v: int, s: int, i: int)
    requires 0 < s <= i
    ensures var d := (v * i) / s; v - 1 <= (d * s) / i <= v
  {
    var d := (v * i) / s;
    var b := (d * s) / i;
    assert d * s <= v * i < d * s + s;
    assert b * i <= d * s < b * i + i;
    LessAfterScaling(b, v + 1, i) by {
      assert (v + 1) * i == v * i + i;
    }
    LessAfterScaling(v - 1, b + 1, i) by {
      assert (v - 1) * i == v * i - i;
      assert (b + 1) * i == b * i + i;
    }
  }

  /** With the screenshot no larger than the input area on either axis, mapping a point
      to the display and back lands on it or one unit left of or above it (all integers,
      negative ones too, since division floors). */
  lemma RoundTripWithinOne(screenW: int, screenH: int, inputW: int, inputH: int, x: int, y: int)
    requires 0 < screenW <= inputW && 0 < screenH <= inputH
    ensures
      var t := Between(screenW, screenH, inputW, inputH);
      var there := Apply(t.screenToDisplay, x, y);
      there.Ok? &&
      var back := Apply(t.displayToScreen, there.value.0, there.value.1);
      back.Ok? && x - 1 <= back.value.0 <= x && y - 1 <= back.value.1 <= y
  {
    AxisRoundTrip(x, screenW, inputW);
    AxisRoundTrip(y, screenH, inputH);
  }

  /** A screenshot larger than the input area can lose more than one unit: with a
      screenshot three times the input area, x = 2 goes to display 0, which maps back to 0. */
  lemma RoundTripLosesMoreWhenDownscaling()
    ensures Apply(Between(3, 3, 1, 1).screenToDisplay, 2, 2) == Ok((0, 0))
    ensures Apply(Between(3, 3, 1, 1).displayToScreen, 0, 0) == Ok((0, 0))
  {
  }
}

/** Screenshot size selection, the remote calls a capture makes, and the PPM file the
    capture is written to before conversion (WindowsConnection.recvScreenshot). */
module Screenshot {
  import opened Py

  /** A screenshot size: `(None, None)` (let the agent detect it) or `(width, height)`. */
  datatype Size = Auto | Fixed(width: int, height: int)

  /** Where a capture's width and height come from. */
  datatype Dims = FromSizeReply | Given(width: int, height: int)

  /** The expressions a capture evaluates, in order, and where its dimensions come from. */
  datatype Plan = Plan(calls: seq<string>, dims: Dims)

  /** The per-call size if one is given, else the connection's size. */
  function Effective(perCall: Size, stored: Size): (s: Size)
    ensures perCall.Fixed? ==> s == perCall
    ensures perCall.Auto? ==> s == stored
  {
    if perCall != Auto then perCall else stored
  }

  const AutoCaptureCall := "screenshotZYBGR()"
  const SizeQuery := "zybgrSize()"

  /** `"screenshotZYBGR(%s)" % ((width, height),)`: the tuple is printed with its parentheses. */
  function CaptureCall(width: int, height: int): string {
    "screenshotZYBGR((" + Joined([width, height]) + "))"
  }

  /** Reads the size back out of a capture call. */
  function ReadCaptureCall(s: string): Option<(int, int)> {
    match Unwrap(s, "screenshotZYBGR((", ")")
    case None => None
    case Some(inner) =>
      match ReadItems(inner)
      case Some(items) => if |items| == 2 then Some((items[0], items[1])) else None
      case None => None
  }

  /** Undetected size: two evaluations, the image and then its size, and the size reply
      gives the dimensions. A known size: one evaluation that passes it, and the
      dimensions are that size. */
  function CapturePlan(size: Size): (p: Plan)
    ensures size.Auto? ==> p.calls == [AutoCaptureCall, SizeQuery] && p.dims == FromSizeReply
    ensures size.Fixed? ==> |p.calls| == 1 && ReadCaptureCall(p.calls[0]) == Some((size.width, size.height))
    ensures size.Fixed? ==> p.dims == Given(size.width, size.height)
  {
    match size
    case Auto => Plan([AutoCaptureCall, SizeQuery], FromSizeReply)
    case Fixed(w, h) =>
      CaptureCallReadsBack(w, h);
      Plan([CaptureCall(w, h)], Given(w, h))
  }

  lemma CaptureCallReadsBack(width: int, height: int)
    ensures ReadCaptureCall(CaptureCall(width, height)) == Some((width, height))
  {
    var inner := Joined([width, height]) + ")";
    var s := CaptureCall(width, height);
    assert s == "screenshotZYBGR((" + inner + ")";
    UnwrapWrapped("screenshotZYBGR((", inner, ")");
    ReadItemsOfJoined([width, height]);
  }

  /** The width and height the capture is written with. */
  function Dimensions(d: Dims, sizeReply: (int, int)): (int, int) {
    match d
    case FromSizeReply => sizeReply
    case Given(w, h) => (w, h)
  }

  /** The intermediate file the capture is written to. */
  function PpmFilename(filename: string): string {
    filename + ".ppm"
  }

  /** `"P6\n%d %d\n%d\n" % (width, height, 255)`. */
  function PpmHeader(width: int, height: int): string {
    "P6\n" + Str(width) + " " + Str(height) + "\n" + Str(255) + "\n"
  }

  /** Reads an integer followed by the separator character sep. */
  function ReadField(s: string, sep: char): Option<(int, string)> {
    match ReadInt(s)
    case None => None
    case Some((v, rest)) => if rest == [] || rest[0] != sep then None else Some((v, rest[1..]))
  }

  lemma ReadFieldOf(n: int, sep: char, rest: string)
    requires !IsDigit(sep)
    ensures ReadField(Str(n) + [sep] + rest, sep) == Some((n, rest))
  {
    assert Str(n) + [sep] + rest == Str(n) + ([sep] + rest);
    ReadIntOfStr(n, [sep] + rest);
    assert ([sep] + rest)[1..] == rest;
  }

  /** Reads a PPM header: magic `P6` and a line break, then width, height and maximum
      value, followed by a space, a line break and a line break; returns them with the
      pixel data after the header. */
  function ReadPpmHeader(s: string): Option<(int, int, int, string)> {
    if |s| < 3 || s[..3] != "P6\n" then None
    else
      match ReadField(s[3..], ' ')
      case None => None
      case Some((w, r1)) =>
        match ReadField(r1, '\n')
        case None => None
        case Some((h, r2)) =>
          match ReadField(r2, '\n')
          case None => None
          case Some((maxval, r3)) => Some((w, h, maxval, r3))
  }

  lemma ReadPpmHeaderAfterMagic(t: string)
    ensures ReadPpmHeader("P6\n" + t) ==
      match ReadField(t, ' ')
      case None => None
      case Some((w, r1)) =>
        match ReadField(r1, '\n')
        case None => None
        case Some((h, r2)) =>
          match ReadField(r2, '\n')
          case None => None
          case Some((maxval, r3)) => Some((w, h, maxval, r3))
  {
    var s := "P6\n" + t;
    assert s[..3] == "P6\n" && s[3..] == t;
  }

  /** The header written before the pixel data reads back as the capture's width and
      height, maximum channel value 255, and the pixel data untouched. */
  lemma PpmHeaderReadsBack(width: int, height: int, pixels: string)
    ensures ReadPpmHeader(PpmHeader(width, height) + pixels) == Some((width, height, 255, pixels))
  {
    var r2 := Str(255) + "\n" + pixels;
    var r1 := Str(height) + "\n" + r2;
    var t := Str(width) + " " + r1;
    assert PpmHeader(width, height) + pixels == "P6\n" + t;
    ReadPpmHeaderAfterMagic(t);
    ReadFieldOf(width, ' ', r1);
    ReadFieldOf(height, '\n', r2);
    ReadFieldOf(255, '\n', pixels);
  }
}

/** WindowsConnection (utils/fmbtwindows.py): the connection to the agent running in a
    pythonshare server on the Windows machine. The agent is seen only through what it
    receives, in order; its replies are parameters of the operations that use them. */
module Connection {
  import opened Py
  import opened Coords
  import opened Commands
  import opened Screenshot
  import opened Process

  /** The namespace the agent code is injected into and commands are evaluated in. */
  const AgentNamespace := "fmbtwindows-agent"

  /** The expression `setScreenshotSize` evaluates to learn the input area. */
  const InputAreaQuery := "_mouse_input_area"

  /** What the remote side receives: code executed in a namespace, or an expression
      evaluated there. */
  datatype Request = Exec(ns: string, code: string) | Eval(ns: string, expr: string)

  /** The agent code is injected first and only then; everything after it is an
      evaluation in the agent namespace. */
  ghost predicate Bootstrapped(sent: seq<Request>) {
    |sent| >= 1 && sent[0].Exec? && sent[0].ns == AgentNamespace &&
    forall i :: 1 <= i < |sent| ==> sent[i].Eval? && sent[i].ns == AgentNamespace
  }

  /** The expressions among the requests, in order. */
  function Evaluations(sent: seq<Request>): seq<string> {
    if sent == [] then []
    else
      var last := sent[|sent| - 1];
      Evaluations(sent[..|sent| - 1]) + (if last.Eval? then [last.expr] else [])
  }

  /** The requests that evaluate the given expressions in the agent namespace. */
  function EvalAll(exprs: seq<string>): (rs: seq<Request>)
    ensures |rs| == |exprs|
    ensures forall i :: 0 <= i < |exprs| ==> rs[i] == Eval(AgentNamespace, exprs[i])
  {
    if exprs == [] then [] else [Eval(AgentNamespace, exprs[0])] + EvalAll(exprs[1..])
  }

  /** `recvFile`'s result: True after saving to a local file, or the data itself. */
  datatype Received = Saved | Data(data: string)

  /** The intermediate image file a capture writes: its name and its header. */
  datatype PpmFile = PpmFile(name: string, header: string)

  /** The conversion `recvScreenshot` runs on the intermediate file. */
  function ConvertCommand(filename: string): Command {
    Argv(["convert", PpmFilename(filename), filename])
  }

  class WindowsConnection {
    /** Python's repr, as the connection's code sees it. */
    const repr: PyRepr
    /** `_screenshotSize`. */
    var screenshotSize: Size
    /** `_screenToDisplay` and `_displayToScreen`. */
    var transform: Transform
    /** Everything the agent side has received over this connection, in order. */
    var sent: seq<Request>

    ghost predicate Valid()
      reads this
    {
      Bootstrapped(sent)
    }

    /** Connects, injects the agent code, and installs identity mappings. */
    constructor (agentCode: string, repr: PyRepr)
      ensures Valid()
      ensures this.repr == repr
      ensures screenshotSize == Auto && transform == Unscaled && Consistent(transform)
      ensures sent == [Exec(AgentNamespace, agentCode)]
    {
      this.repr := repr;
      screenshotSize := Auto;
      sent := [Exec(AgentNamespace, agentCode)];
      transform := Unscaled;
    }

    /** Sends one expression to the agent namespace. */
    method Evaluate(expr: string)
      requires Valid()
      modifies this`sent
      ensures Valid()
      ensures sent == old(sent) + [Eval(AgentNamespace, expr)]
    {
      sent := sent + [Eval(AgentNamespace, expr)];
    }

    /** `setScreenshotSize`: stores the size, asks the agent for its mouse input area
        (inputArea is the reply) and installs both mappings from that one pair. */
    method SetScreenshotSize(width: int, height: int, inputArea: (int, int))
      requires Valid()
      modifies this
      ensures Valid()
      ensures screenshotSize == Fixed(width, height)
      ensures transform == Between(width, height, inputArea.0, inputArea.1)
      ensures Consistent(transform)
      ensures sent == old(sent) + [Eval(AgentNamespace, InputAreaQuery)]
    {
      screenshotSize := Fixed(width, height);
      Evaluate(InputAreaQuery);
      var (inputW, inputH) := inputArea;
      SetScreenToDisplayCoords(Scale(inputW, width, inputH, height));
      SetDisplayToScreenCoords(Scale(width, inputW, height, inputH));
    }

    /** `setScreenToDisplayCoords`: replaces that direction alone. */
    method SetScreenToDisplayCoords(m: Mapping)
      requires Valid()
      modifies this`transform
      ensures Valid()
      ensures transform == old(transform).(screenToDisplay := m)
    {
      transform := transform.(screenToDisplay := m);
    }

    /** `setDisplayToScreenCoords`: replaces that direction alone. */
    method SetDisplayToScreenCoords(m: Mapping)
      requires Valid()
      modifies this`transform
      ensures Valid()
      ensures transform == old(transform).(displayToScreen := m)
    {
      transform := transform.(displayToScreen := m);
    }

    /** `evalPython`: evaluates code in the agent namespace and returns the agent's reply. */
    method EvalPython(code: string, reply: string) returns (r: string)
      requires Valid()
      modifies this`sent
      ensures Valid()
      ensures sent == old(sent) + [Eval(AgentNamespace, code)]
      ensures r == reply
    {
      Evaluate(code);
      r := reply;
    }

    /** `recvFile`: reads the remote file (data is the agent's reply); saves it and returns
        True when a non-empty local name is given, returns the data otherwise. */
    method RecvFile(remoteFilename: string, localFilename: Option<string>, data: string)
      returns (r: Received)
      requires Valid()
      modifies this`sent
      ensures Valid()
      ensures sent == old(sent) + [Eval(AgentNamespace, ReadFileCommand(repr, remoteFilename))]
      ensures r == Saved <==> localFilename.Some? && localFilename.value != ""
      ensures r != Saved ==> r == Data(data)
    {
      Evaluate(ReadFileCommand(repr, remoteFilename));
      if localFilename.Some? && localFilename.value != "" {
        r := Saved;
      } else {
        r := Data(data);
      }
    }

    /** `recvScreenshot`: chooses the size, evaluates the capture calls (sizeReply is the
        agent's answer to the size query), writes the intermediate PPM file and runs the
        conversion (convert is what starting it did). The intermediate file is removed
        only when the conversion succeeds. */
    method RecvScreenshot(filename: string, perCall: Size, sizeReply: (int, int), convert: Spawn)
      returns (ppm: PpmFile, removed: bool, r: Result<bool>)
      requires Valid()
      modifies this`sent
      ensures Valid()
      ensures
        var plan := CapturePlan(Effective(perCall, screenshotSize));
        var (w, h) := Dimensions(plan.dims, sizeReply);
        sent == old(sent) + EvalAll(plan.calls) &&
        ppm == PpmFile(PpmFilename(filename), PpmHeader(w, h))
      ensures r == (if Run(ConvertCommand(filename), OneOf([0]), convert).Ok? then Ok(true)
                    else Raise(Run(ConvertCommand(filename), OneOf([0]), convert).exc))
      ensures removed <==> r.Ok?
    {
      var size := Effective(perCall, screenshotSize);
      var plan := CapturePlan(size);
      if size == Auto {
        Evaluate(AutoCaptureCall);
        Evaluate(SizeQuery);
      } else {
        Evaluate(CaptureCall(size.width, size.height));
      }
      var (w, h) := Dimensions(plan.dims, sizeReply);
      ppm := PpmFile(PpmFilename(filename), PpmHeader(w, h));
      var run := Run(ConvertCommand(filename), OneOf([0]), convert);
      if run.Ok? {
        removed, r := true, Ok(true);
      } else {
        removed, r := false, Raise(run.exc);
      }
    }

    /** `sendType`. */
    method SendType(text: string) returns (ok: bool)
      requires Valid()
      modifies this`sent
      ensures Valid()
      ensures sent == old(sent) + [Eval(AgentNamespace, TypeCommand(repr, text))]
      ensures ok
    {
      Evaluate(TypeCommand(repr, text));
      ok := true;
    }

    /** `sendPress`, `sendKeyDown` and `sendKeyUp`. */
    method SendKey(op: KeyOp, keyCode: string, modifiers: Option<seq<string>>) returns (ok: bool)
      requires Valid()
      modifies this`sent
      ensures Valid()
      ensures sent == old(sent) + [Eval(AgentNamespace, KeyCommand(repr, op, keyCode, modifiers))]
      ensures ok
    {
      Evaluate(KeyCommand(repr, op, keyCode, modifiers));
      ok := true;
    }

    method SendPress(keyCode: string, modifiers: Option<seq<string>>) returns (ok: bool)
      requires Valid()
      modifies this`sent
      ensures Valid()
      ensures sent == old(sent) + [Eval(AgentNamespace, KeyCommand(repr, Press, keyCode, modifiers))]
      ensures ok
    {
      ok := SendKey(Press, keyCode, modifiers);
    }

    method SendKeyDown(keyCode: string, modifiers: Option<seq<string>>) returns (ok: bool)
      requires Valid()
      modifies this`sent
      ensures Valid()
      ensures sent == old(sent) + [Eval(AgentNamespace, KeyCommand(repr, KeyDown, keyCode, modifiers))]
      ensures ok
    {
      ok := SendKey(KeyDown, keyCode, modifiers);
    }

    method SendKeyUp(keyCode: string, modifiers: Option<seq<string>>) returns (ok: bool)
      requires Valid()
      modifies this`sent
      ensures Valid()
      ensures sent == old(sent) + [Eval(AgentNamespace, KeyCommand(repr, KeyUp, keyCode, modifiers))]
      ensures ok
    {
      ok := SendKey(KeyUp, keyCode, modifiers);
    }

    /** The pointer operations: map (x, y) to display coordinates first; if the mapping
        raises, nothing is sent; otherwise one command is sent and True returned. */
    method SendPointer(op: PointerOp, x: int, y: int, button: Option<int>) returns (r: Result<bool>)
      requires Valid()
      modifies this`sent
      ensures Valid()
      ensures match Apply(transform.screenToDisplay, x, y)
        case Raise(e) => r == Raise(e) && sent == old(sent)
        case Ok((dx, dy)) =>
          r == Ok(true) && sent == old(sent) + [Eval(AgentNamespace, PointerCommand(op, dx, dy, button))]
    {
      match Apply(transform.screenToDisplay, x, y)
      case Raise(e) =>
        r := Raise(e);
      case Ok((dx, dy)) =>
        Evaluate(PointerCommand(op, dx, dy, button));
        r := Ok(true);
    }

    method SendTap(x: int, y: int, button: Option<int>) returns (r: Result<bool>)
      requires Valid()
      modifies this`sent
      ensures Valid()
      ensures match Apply(transform.screenToDisplay, x, y)
        case Raise(e) => r == Raise(e) && sent == old(sent)
        case Ok((dx, dy)) =>
          r == Ok(true) && sent == old(sent) + [Eval(AgentNamespace, PointerCommand(Tap, dx, dy, button))]
    {
      r := SendPointer(Tap, x, y, button);
    }

    method SendTouchDown(x: int, y: int, button: Option<int>) returns (r: Result<bool>)
      requires Valid()
      modifies this`sent
      ensures Valid()
      ensures match Apply(transform.screenToDisplay, x, y)
        case Raise(e) => r == Raise(e) && sent == old(sent)
        case Ok((dx, dy)) =>
          r == Ok(true) && sent == old(sent) + [Eval(AgentNamespace, PointerCommand(TouchDown, dx, dy, button))]
    {
      r := SendPointer(TouchDown, x, y, button);
    }

    method SendTouchMove(x: int, y: int, button: Option<int>) returns (r: Result<bool>)
      requires Valid()
      modifies this`sent
      ensures Valid()
      ensures match Apply(transform.screenToDisplay, x, y)
        case Raise(e) => r == Raise(e) && sent == old(sent)
        case Ok((dx, dy)) =>
          r == Ok(true) && sent == old(sent) + [Eval(AgentNamespace, PointerCommand(TouchMove, dx, dy, button))]
    {
      r := SendPointer(TouchMove, x, y, button);
    }

    method SendTouchUp(x: int, y: int, button: Option<int>) returns (r: Result<bool>)
      requires Valid()
      modifies this`sent
      ensures Valid()
      ensures match Apply(transform.screenToDisplay, x, y)
        case Raise(e) => r == Raise(e) && sent == old(sent)
        case Ok((dx, dy)) =>
          r == Ok(true) && sent == old(sent) + [Eval(AgentNamespace, PointerCommand(TouchUp, dx, dy, button))]
    {
      r := SendPointer(TouchUp, x, y, button);
    }
  }

  /** A new connection taps in screenshot coordinates: `sendTap(50, 50)` goes out as the
      one evaluation `sendTap(50, 50)`. */
  method TapOnNewConnection(agentCode: string, repr: PyRepr) returns (evaluated: seq<string>)
    ensures evaluated == ["sendTap(50, 50)"]
  {
    var c := new WindowsConnection(agentCode, repr);
    var r := c.SendTap(50, 50, None);
    assert Str(50) == "50" by {
      assert Digits(50) == Digits(5) + [DigitChar(0)];
    }
    assert PointerCommand(Tap, 50, 50, None) == "sendTap(50, 50)";
    var boot := [Exec(AgentNamespace, agentCode)];
    assert c.sent == boot + [Eval(AgentNamespace, "sendTap(50, 50)")];
    assert Evaluations(boot) == [] by {
      assert boot[..0] == [];
    }
    evaluated := Evaluations(c.sent);
  }

  /** With screenshot size (640, 480) and input area (1280, 800), a tap at (100, 100) goes
      out as `sendTap(200, 166)`. */
  method TapAfterScreenshotSize(agentCode: string, repr: PyRepr) returns (evaluated: seq<string>)
    ensures evaluated == ["_mouse_input_area", "sendTap(200, 166)"]
  {
    var c := new WindowsConnection(agentCode, repr);
    c.SetScreenshotSize(640, 480, (1280, 800));
    var r := c.SendTap(100, 100, None);
    assert Apply(c.transform.screenToDisplay, 100, 100) == Ok((200, 166));
    assert Str(200) == "200" by {
      assert Digits(200) == Digits(20) + [DigitChar(0)];
      assert Digits(20) == Digits(2) + [DigitChar(0)];
    }
    assert Str(166) == "166" by {
      assert Digits(166) == Digits(16) + [DigitChar(6)];
      assert Digits(16) == Digits(1) + [DigitChar(6)];
    }
    assert PointerCommand(Tap, 200, 166, None) == "sendTap(200, 166)";
    var boot := [Exec(AgentNamespace, agentCode)];
    var asked := boot + [Eval(AgentNamespace, "_mouse_input_area")];
    assert c.sent == asked + [Eval(AgentNamespace, "sendTap(200, 166)")];
    assert Evaluations(boot) == [] by {
      assert boot[..0] == [];
    }
    assert Evaluations(asked) == ["_mouse_input_area"] by {
      assert asked[..1] == boot;
    }
    evaluated := Evaluations(c.sent);
  }
}

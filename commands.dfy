/** The expressions WindowsConnection sends to the agent namespace, one per input
    operation, and readers that recover the arguments from them. */
module Commands {
  import opened Py

  /** Python's `repr`, kept uninterpreted: on a string (typed text, a remote file name)
      and on a list of modifier names. */
  datatype PyRepr = PyRepr(ofStr: string -> string, ofList: seq<string> -> string)

  /** `name(a, b, ...)` with each integer printed by `%s`. */
  function CallText(name: string, args: seq<int>): string {
    name + "(" + Joined(args) + ")"
  }

  /** The number of leading characters of s that differ from c. */
  function Span(s: string, c: char): (k: nat)
    ensures k <= |s|
    ensures forall i :: 0 <= i < k ==> s[i] != c
    ensures k < |s| ==> s[k] == c
  {
    if s == [] || s[0] == c then 0 else 1 + Span(s[1..], c)
  }

  /** Reads `name(a, b, ...)`: the name up to the first "(", then integer arguments. */
  function ReadCall(s: string): Option<(string, seq<int>)> {
    var n := Span(s, '(');
    if n == |s| then None
    else
      match ReadItems(s[n + 1..])
      case None => None
      case Some(args) => Some((s[..n], args))
  }

  lemma {:induction false} SpanUpTo(a: string, c: char, rest: string)
    requires c !in a
    ensures Span(a + [c] + rest, c) == |a|
  {
    if a != [] {
      assert (a + [c] + rest)[1..] == a[1..] + [c] + rest;
      SpanUpTo(a[1..], c, rest);
    }
  }

  lemma CallTextReadsBack(name: string, args: seq<int>)
    requires '(' !in name && |args| >= 1
    ensures ReadCall(CallText(name, args)) == Some((name, args))
  {
    var s := CallText(name, args);
    assert s == name + ['('] + (Joined(args) + ")");
    SpanUpTo(name, '(', Joined(args) + ")");
    assert s[|name| + 1..] == Joined(args) + ")" && s[..|name|] == name;
    ReadItemsOfJoined(args);
  }

  // ---- Pointer events: sendTap, sendTouchDown, sendTouchMove, sendTouchUp ----

  datatype PointerOp = Tap | TouchDown | TouchMove | TouchUp

  /** The agent function used when no button is given. */
  function TouchName(op: PointerOp): string {
    match op
    case Tap => "sendTap"
    case TouchDown => "sendTouchDown"
    case TouchMove => "sendTouchMove"
    case TouchUp => "sendTouchUp"
  }

  /** The agent function used with a mouse button. */
  function MouseName(op: PointerOp): string {
    match op
    case Tap => "sendClick"
    case TouchDown => "sendMouseDown"
    case TouchMove => "sendMouseMove"
    case TouchUp => "sendMouseUp"
  }

  /** The command for a pointer event at display coordinates (x, y). */
  function PointerCommand(op: PointerOp, x: int, y: int, button: Option<int>): string {
    match button
    case None => CallText(TouchName(op), [x, y])
    case Some(b) => CallText(MouseName(op), [x, y, b])
  }

  /** A pointer command reads back as the touch variant with the two coordinates when no
      button is given, and as the mouse variant with the coordinates and the button otherwise. */
  lemma PointerCommandReadsBack(op: PointerOp, x: int, y: int, button: Option<int>)
    ensures ReadCall(PointerCommand(op, x, y, button)) ==
      match button
      case None => Some((TouchName(op), [x, y]))
      case Some(b) => Some((MouseName(op), [x, y, b]))
  {
    match button
    case None => CallTextReadsBack(TouchName(op), [x, y]);
    case Some(b) => CallTextReadsBack(MouseName(op), [x, y, b]);
  }

  /** Different pointer events never produce the same command. */
  lemma PointerCommandInjective(op: PointerOp, x: int, y: int, button: Option<int>,
                                op': PointerOp, x': int, y': int, button': Option<int>)
    requires PointerCommand(op, x, y, button) == PointerCommand(op', x', y', button')
    ensures op == op' && x == x' && y == y' && button == button'
  {
    PointerCommandReadsBack(op, x, y, button);
    PointerCommandReadsBack(op', x', y', button');
  }

  // ---- Key events: sendKey, sendKeyDown, sendKeyUp ----

  datatype KeyOp = Press | KeyDown | KeyUp

  /** The agent function for each key operation; `sendPress` calls `sendKey`. */
  function KeyName(op: KeyOp): string {
    match op
    case Press => "sendKey"
    case KeyDown => "sendKeyDown"
    case KeyUp => "sendKeyUp"
  }

  /** The modifier argument: `[]` when modifiers is None, `repr(modifiers)` otherwise. */
  function ModifierText(repr: PyRepr, modifiers: Option<seq<string>>): string {
    match modifiers
    case None => "[]"
    case Some(m) => repr.ofList(m)
  }

  /** `NAME("<keyCode>",<modifiers>)`, the key code placed between double quotes as it is. */
  function KeyCommand(repr: PyRepr, op: KeyOp, keyCode: string, modifiers: Option<seq<string>>): string {
    KeyName(op) + "(\"" + keyCode + "\"," + ModifierText(repr, modifiers) + ")"
  }

  /** A character a double-quoted Python literal carries as itself: not the closing quote,
      not the escape character, not a line break. */
  predicate Plain(c: char) {
    c != '"' && c != '\\' && c != '\n' && c != '\r'
  }

  /** The number of leading plain characters of s. */
  function PlainRun(s: string): (k: nat)
    ensures k <= |s|
    ensures forall i :: 0 <= i < k ==> Plain(s[i])
    ensures k < |s| ==> !Plain(s[k])
  {
    if s == [] || !Plain(s[0]) then 0 else 1 + PlainRun(s[1..])
  }

  /** Reads `name("literal",rest)`, as Python reads a double-quoted literal without escapes:
      the name, the literal's characters, and the text of the second argument. */
  function ReadKeyCall(s: string): Option<(string, string, string)> {
    var n := Span(s, '(');
    if n + 2 > |s| || s[n + 1] != '"' then None
    else
      match ReadKeyArgs(s[n + 2..])
      case None => None
      case Some((key, mods)) => Some((s[..n], key, mods))
  }

  /** Reads `literal",rest)`: what follows the opening quote of a key command. */
  function ReadKeyArgs(t: string): Option<(string, string)> {
    var k := PlainRun(t);
    if k + 3 > |t| || t[k] != '"' || t[k + 1] != ',' || t[|t| - 1] != ')' then None
    else Some((t[..k], t[k + 2..|t| - 1]))
  }

  lemma {:induction false} PlainRunUpTo(a: string, rest: string)
    requires forall i :: 0 <= i < |a| ==> Plain(a[i])
    requires rest != [] && !Plain(rest[0])
    ensures PlainRun(a + rest) == |a|
  {
    if a != [] {
      assert (a + rest)[1..] == a[1..] + rest;
      PlainRunUpTo(a[1..], rest);
    }
  }

  lemma ReadKeyArgsOf(keyCode: string, mods: string)
    requires forall i :: 0 <= i < |keyCode| ==> Plain(keyCode[i])
    ensures ReadKeyArgs(keyCode + "\"," + mods + ")") == Some((keyCode, mods))
  {
    var t := keyCode + "\"," + mods + ")";
    var k := |keyCode|;
    assert t == keyCode + ("\"," + mods + ")");
    PlainRunUpTo(keyCode, "\"," + mods + ")");
    assert t[k] == '"' && t[k + 1] == ',' && t[|t| - 1] == ')';
    assert t[..k] == keyCode;
    assert t[k + 2..|t| - 1] == mods;
  }

  lemma ReadKeyCallOf(name: string, keyCode: string, mods: string)
    requires '(' !in name
    requires forall i :: 0 <= i < |keyCode| ==> Plain(keyCode[i])
    ensures ReadKeyCall(name + "(\"" + keyCode + "\"," + mods + ")") == Some((name, keyCode, mods))
  {
    var t := keyCode + "\"," + mods + ")";
    var s := name + ['('] + ("\"" + t);
    assert name + "(\"" + keyCode + "\"," + mods + ")" == s;
    SpanUpTo(name, '(', "\"" + t);
    assert s[..|name|] == name;
    assert s[|name| + 1] == '"';
    assert s[|name| + 2..] == t;
    ReadKeyArgsOf(keyCode, mods);
  }

  /** A key command reads back as the key operation's name, the key code, and `[]` or the
      repr of the modifiers, when the key code consists of plain characters. */
  lemma KeyCommandReadsBack(repr: PyRepr, op: KeyOp, keyCode: string, modifiers: Option<seq<string>>)
    requires forall i :: 0 <= i < |keyCode| ==> Plain(keyCode[i])
    ensures ReadKeyCall(KeyCommand(repr, op, keyCode, modifiers)) ==
      Some((KeyName(op), keyCode, ModifierText(repr, modifiers)))
  {
    ReadKeyCallOf(KeyName(op), keyCode, ModifierText(repr, modifiers));
  }

  /** The key code is not escaped: a key code holding a double quote does not read back
      as a one-literal key command. */
  lemma QuoteInKeyCodeBreaksCommand(repr: PyRepr)
    ensures KeyCommand(repr, Press, "a\"b", None) == "sendKey(\"a\"b\",[])"
    ensures ReadKeyCall(KeyCommand(repr, Press, "a\"b", None)) == None
  {
    var s := KeyCommand(repr, Press, "a\"b", None);
    assert s == "sendKey(\"a\"b\",[])";
    SpanUpTo("sendKey", '(', "\"a\"b\",[])");
    var t := s[9..];
    assert t == "a\"b\",[])";
    PlainRunUpTo("a", "\"b\",[])");
  }

  // ---- Text and files ----

  /** `sendType(<repr(text)>)`. */
  function TypeCommand(repr: PyRepr, text: string): string {
    "sendType(" + repr.ofStr(text) + ")"
  }

  /** When the agent's evaluation of a string literal undoes `repr`, the text typed is the
      text given, whatever quotes, backslashes or control characters it holds. */
  lemma TypeCommandRoundTrip(repr: PyRepr, literal: string -> string, text: string)
    requires forall t :: literal(repr.ofStr(t)) == t
    ensures
      var arg := Unwrap(TypeCommand(repr, text), "sendType(", ")");
      arg == Some(repr.ofStr(text)) && literal(arg.value) == text
  {
    UnwrapWrapped("sendType(", repr.ofStr(text), ")");
  }

  /** `file(<repr(remoteFilename)>).read()`, which the agent evaluates to the file's bytes. */
  function ReadFileCommand(repr: PyRepr, remoteFilename: string): string {
    "file(" + repr.ofStr(remoteFilename) + ").read()"
  }

  lemma ReadFileCommandRoundTrip(repr: PyRepr, literal: string -> string, remoteFilename: string)
    requires forall t :: literal(repr.ofStr(t)) == t
    ensures
      var arg := Unwrap(ReadFileCommand(repr, remoteFilename), "file(", ").read()");
      arg == Some(repr.ofStr(remoteFilename)) && literal(arg.value) == remoteFilename
  {
    UnwrapWrapped("file(", repr.ofStr(remoteFilename), ").read()");
  }
}

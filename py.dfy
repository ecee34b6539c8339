/** Python 2 semantics the Windows connection relies on: a value or `None`, the
    exceptions its code raises, integer division, and the decimal text of an integer
    (what `str`, `%s` and `%d` produce), together with a reader for that text. */
module Py {

  datatype Option<+T> = None | Some(value: T)

  /** The exceptions the modelled code raises itself. */
  datatype Exception =
    | ZeroDivisionError
      // `in` applied to an int: `_run` given a single expected exit status that does not match
    | TypeError
      // `_run`: the child's exit status is not among the expected ones
    | FMBTWindowsError(exitStatus: int, expected: seq<int>)

  /** A returned value, or a raised exception. */
  datatype Result<+T> = Ok(value: T) | Raise(exc: Exception)

  /** Python 2 `a / b` on integers: the floor of the quotient, and ZeroDivisionError
      when the divisor is zero. */
  function Div(a: int, b: int): (r: Result<int>)
    ensures r.Raise? <==> b == 0
    ensures r.Raise? ==> r.exc == ZeroDivisionError
    ensures b > 0 && r.Ok? ==> r.value * b <= a < r.value * b + b
    ensures b < 0 && r.Ok? ==> r.value * b + b < a <= r.value * b
  {
    if b == 0 then Raise(ZeroDivisionError)
    else if b > 0 then Ok(a / b)
    else
      var q := (-a) / (-b);
      assert q * (-b) <= -a < q * (-b) + (-b);
      assert q * (-b) == -(q * b);
      Ok(q)
  }

  predicate IsDigit(c: char) {
    '0' <= c <= '9'
  }

  predicate AllDigits(s: string) {
    forall i :: 0 <= i < |s| ==> IsDigit(s[i])
  }

  function DigitChar(d: nat): (c: char)
    requires d < 10
    ensures IsDigit(c) && c as int - '0' as int == d
  {
    ('0' as int + d) as char
  }

  /** The decimal digits of n, most significant first, with no leading zero. */
  function Digits(n: nat): (s: string)
    ensures |s| >= 1 && AllDigits(s)
    ensures s[0] == '0' ==> n == 0
    decreases n
  {
    if n < 10 then [DigitChar(n)] else Digits(n / 10) + [DigitChar(n % 10)]
  }

  /** `str(n)` for an integer n; `"%s" % n` and `"%d" % n` give the same text. */
  function Str(n: int): (s: string)
    ensures |s| >= 1
    ensures s[0] == '-' <==> n < 0
    ensures n >= 0 ==> AllDigits(s)
    ensures n < 0 ==> AllDigits(s[1..])
  {
    if n < 0 then "-" + Digits(-n) else Digits(n)
  }

  /** The items of a tuple of integers as `%` prints them: `"%s, %s" % (a, b)`. */
  function Joined(items: seq<int>): (s: string)
    ensures |items| >= 1 ==> |s| >= 1
  {
    if |items| == 0 then ""
    else if |items| == 1 then Str(items[0])
    else Str(items[0]) + ", " + Joined(items[1..])
  }

  /** The number of leading characters of s that are digits. */
  function DigitRun(s: string): (k: nat)
    ensures k <= |s| && AllDigits(s[..k])
    ensures k < |s| ==> !IsDigit(s[k])
  {
    if s == [] || !IsDigit(s[0]) then 0
    else
      var k := 1 + DigitRun(s[1..]);
      assert s[..k] == [s[0]] + s[1..][..k - 1];
      k
  }

  /** The number a string of decimal digits denotes. */
  function Value(d: string): nat
    requires AllDigits(d)
  {
    if d == [] then 0 else 10 * Value(d[..|d| - 1]) + (d[|d| - 1] as int - '0' as int)
  }

  /** Reads a decimal integer literal (an optional '-' and the longest run of digits
      after it) from the front of s, and returns it with the text that follows it. */
  function ReadInt(s: string): (r: Option<(int, string)>)
    ensures r.Some? ==> |r.value.1| < |s| && r.value.1 == s[|s| - |r.value.1|..]
  {
    if |s| > 0 && s[0] == '-' then
      var k := DigitRun(s[1..]);
      if k == 0 then None
      else
        assert s[1..][..k] == s[1..k + 1] && s[1..][k..] == s[k + 1..];
        Some((0 - Value(s[1..k + 1]), s[k + 1..]))
    else
      var k := DigitRun(s);
      if k == 0 then None else Some((Value(s[..k]), s[k..]))
  }

  /** Reads `a, b, ..., z)`: integers separated by ", " and closed by ")", up to the end of s. */
  function ReadItems(s: string): Option<seq<int>>
    decreases |s|
  {
    match ReadInt(s)
    case None => None
    case Some((v, rest)) =>
      if rest == ")" then Some([v])
      else if |rest| >= 2 && rest[..2] == ", " then
        match ReadItems(rest[2..])
        case None => None
        case Some(vs) => Some([v] + vs)
      else None
  }

  lemma {:induction false} ValueOfDigits(n: nat)
    ensures Value(Digits(n)) == n
  {
    if n >= 10 {
      var s := Digits(n);
      assert s[..|s| - 1] == Digits(n / 10);
      ValueOfDigits(n / 10);
    }
  }

  lemma {:induction false} DigitRunOfDigits(d: string, rest: string)
    requires AllDigits(d)
    requires rest == [] || !IsDigit(rest[0])
    ensures DigitRun(d + rest) == |d|
  {
    if d != [] {
      assert (d + rest)[1..] == d[1..] + rest;
      DigitRunOfDigits(d[1..], rest);
    }
  }

  lemma {:induction false} ReadIntOfDigits(d: string, rest: string)
    requires |d| >= 1 && AllDigits(d)
    requires rest == [] || !IsDigit(rest[0])
    ensures ReadInt(d + rest) == Some((Value(d), rest))
  {
    var s := d + rest;
    DigitRunOfDigits(d, rest);
    assert s[0] != '-';
    assert s[..|d|] == d && s[|d|..] == rest;
  }

  lemma {:induction false} ReadIntOfNegated(d: string, rest: string)
    requires |d| >= 1 && AllDigits(d)
    requires rest == [] || !IsDigit(rest[0])
    ensures ReadInt("-" + d + rest) == Some((0 - Value(d), rest))
  {
    var s := "-" + d + rest;
    assert s[1..] == d + rest;
    DigitRunOfDigits(d, rest);
    assert s[1..|d| + 1] == d && s[|d| + 1..] == rest;
  }

  /** Reading back the text of an integer gives the integer, when what follows it
      cannot be mistaken for more digits. */
  lemma {:induction false} ReadIntOfStr(n: int, rest: string)
    requires rest == [] || !IsDigit(rest[0])
    ensures ReadInt(Str(n) + rest) == Some((n, rest))
  {
    if n < 0 {
      ReadIntOfNegated(Digits(-n), rest);
      ValueOfDigits(-n);
    } else {
      ReadIntOfDigits(Digits(n), rest);
      ValueOfDigits(n);
    }
  }

  lemma ReadItemsLast(v: int)
    ensures ReadItems(Str(v) + ")") == Some([v])
  {
    ReadIntOfStr(v, ")");
  }

  lemma ReadItemsNext(v: int, more: string)
    ensures ReadItems(Str(v) + ", " + more) ==
      match ReadItems(more) case None => None case Some(vs) => Some([v] + vs)
  {
    var rest := ", " + more;
    assert Str(v) + ", " + more == Str(v) + rest;
    ReadIntOfStr(v, rest);
    assert rest[..2] == ", " && rest[2..] == more && rest != ")";
  }

  /** The items of a tuple, printed and closed by ")", read back as the same items. */
  lemma {:induction false} ReadItemsOfJoined(items: seq<int>)
    requires |items| >= 1
    ensures ReadItems(Joined(items) + ")") == Some(items)
  {
    if |items| == 1 {
      assert Joined(items) == Str(items[0]);
      ReadItemsLast(items[0]);
      assert [items[0]] == items;
    } else {
      var more := Joined(items[1..]) + ")";
      assert Joined(items) + ")" == Str(items[0]) + ", " + more;
      ReadItemsNext(items[0], more);
      ReadItemsOfJoined(items[1..]);
      assert [items[0]] + items[1..] == items;
    }
  }

  /** The text between a known prefix and suffix, if s has both. */
  function Unwrap(s: string, prefix: string, suffix: string): Option<string> {
    if |s| >= |prefix| + |suffix| && s[..|prefix|] == prefix && s[|s| - |suffix|..] == suffix
    then Some(s[|prefix|..|s| - |suffix|])
    else None
  }

  lemma UnwrapWrapped(prefix: string, arg: string, suffix: string)
    ensures Unwrap(prefix + arg + suffix, prefix, suffix) == Some(arg)
  {
    var s := prefix + arg + suffix;
    assert s[..|prefix|] == prefix;
    assert s[|s| - |suffix|..] == suffix;
    assert s[|prefix|..|s| - |suffix|] == arg;
  }
}

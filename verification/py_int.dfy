/**
 * `_to_int` (app/services/brightdata.py) and the part of Python's built-in
 * `int()` it relies on: converting a bool, an int or a str, and raising
 * TypeError or ValueError for everything else, which `_to_int` turns into None.
 */
module PyInt {
  import opened Wrappers
  import opened Json

  /**
   * CPython's default for `sys.get_int_max_str_digits()` (Python 3.11 onwards):
   * `int()` raises ValueError for a decimal string with more digits than this.
   */
  const MaxStrDigits: nat := 4300

  /**
   * The characters `int()` skips at both ends of a str: the six ASCII white
   * space characters (space, tab, line feed, vertical tab, form feed, carriage
   * return) and every non-ASCII character `str.isspace()` accepts. The ASCII
   * separators U+001C to U+001F pass `str.isspace()` but are not skipped by `int()`.
   */
  const SpaceChars: set<char> := {
    '\t', '\n', '\U{0B}', '\U{0C}', '\r', ' ',
    '\U{85}', '\U{A0}', '\U{1680}',
    '\U{2000}', '\U{2001}', '\U{2002}', '\U{2003}', '\U{2004}', '\U{2005}',
    '\U{2006}', '\U{2007}', '\U{2008}', '\U{2009}', '\U{200A}',
    '\U{2028}', '\U{2029}', '\U{202F}', '\U{205F}', '\U{3000}'
  }

  predicate IsSpace(c: char) {
    c in SpaceChars
  }

  predicate AllSpace(s: string) {
    forall i :: 0 <= i < |s| ==> IsSpace(s[i])
  }

  predicate IsDigit(c: char) {
    '0' <= c <= '9'
  }

  function DigitValue(c: char): nat
    requires IsDigit(c)
  {
    c as int - '0' as int
  }

  function DigitChar(d: nat): (c: char)
    requires d < 10
    ensures IsDigit(c) && DigitValue(c) == d
  {
    ('0' as int + d) as char
  }

  /** `s` without its leading white space. */
  function TrimStart(s: string): string {
    if |s| > 0 && IsSpace(s[0]) then TrimStart(s[1..]) else s
  }

  /** `s` without its trailing white space. */
  function TrimEnd(s: string): string {
    if |s| > 0 && IsSpace(s[|s| - 1]) then TrimEnd(s[..|s| - 1]) else s
  }

  /** TrimStart removes a prefix of white space and stops at the first other character. */
  lemma {:induction false} TrimStartShape(s: string)
    ensures |TrimStart(s)| <= |s| && TrimStart(s) == s[|s| - |TrimStart(s)|..]
    ensures AllSpace(s[..|s| - |TrimStart(s)|])
    ensures TrimStart(s) == [] || !IsSpace(TrimStart(s)[0])
    decreases |s|
  {
    if |s| > 0 && IsSpace(s[0]) {
      var t := s[1..];
      var r := TrimStart(t);
      TrimStartShape(t);
      assert TrimStart(s) == r;
      var k := |s| - |r|;
      assert t[|t| - |r|..] == s[k..];
      forall i | 0 <= i < k
        ensures IsSpace(s[..k][i])
      {
        if i > 0 {
          assert s[..k][i] == t[..|t| - |r|][i - 1];
        }
      }
    } else {
      assert s[..0] == [];
    }
  }

  /** TrimEnd removes a suffix of white space and stops at the last other character. */
  lemma {:induction false} TrimEndShape(s: string)
    ensures |TrimEnd(s)| <= |s| && TrimEnd(s) == s[..|TrimEnd(s)|]
    ensures AllSpace(s[|TrimEnd(s)|..])
    ensures TrimEnd(s) == [] || !IsSpace(TrimEnd(s)[|TrimEnd(s)| - 1])
    decreases |s|
  {
    if |s| > 0 && IsSpace(s[|s| - 1]) {
      var r := TrimEnd(s[..|s| - 1]);
      TrimEndShape(s[..|s| - 1]);
      assert s[|r|..] == s[..|s| - 1][|r|..] + [s[|s| - 1]];
    }
  }

  /**
   * What `int()` skips at both ends of a str: `s` without its leading and
   * trailing SpaceChars. This is narrower than `str.strip()`, which also
   * removes U+001C to U+001F.
   */
  function Strip(s: string): string {
    TrimStart(TrimEnd(s))
  }

  /** What `strip()` keeps is the stretch `s[a..b]`, with only white space outside it. */
  lemma StripBounds(s: string) returns (a: nat, b: nat)
    ensures a <= b <= |s| && Strip(s) == s[a..b]
    ensures AllSpace(s[..a]) && AllSpace(s[b..])
    ensures Strip(s) == [] || (!IsSpace(Strip(s)[0]) && !IsSpace(Strip(s)[|Strip(s)| - 1]))
  {
    var e := TrimEnd(s);
    var r := TrimStart(e);
    TrimEndShape(s);
    TrimStartShape(e);
    b := |e|;
    a := |e| - |r|;
    assert e == s[..b];
    assert r == e[a..];
    assert e[..a] == s[..a];
    if r != [] {
      assert r[|r| - 1] == e[|e| - 1];
    }
  }

  /**
   * The digits-and-underscores form `int()` accepts in base 10: at least one
   * digit, and every underscore sits between two digits.
   */
  predicate IsDigitRun(t: string) {
    && |t| > 0
    && (forall i :: 0 <= i < |t| ==> IsDigit(t[i]) || t[i] == '_')
    && (forall i :: 0 <= i < |t| && t[i] == '_' ==> 0 < i < |t| - 1 && IsDigit(t[i - 1]) && IsDigit(t[i + 1]))
  }

  /** The number of digits in `t`, underscores not counted. */
  function DigitCount(t: string): nat {
    if |t| == 0 then 0
    else DigitCount(t[..|t| - 1]) + (if IsDigit(t[|t| - 1]) then 1 else 0)
  }

  /** The value of the digits of `t`, read in base 10 with the underscores skipped. */
  function DecimalValue(t: string): nat {
    if |t| == 0 then 0
    else if IsDigit(t[|t| - 1]) then 10 * DecimalValue(t[..|t| - 1]) + DigitValue(t[|t| - 1])
    else DecimalValue(t[..|t| - 1])
  }

  /** Whether a stripped string starts with a sign character. */
  predicate HasSign(t: string) {
    |t| > 0 && (t[0] == '-' || t[0] == '+')
  }

  /** What follows the optional sign. */
  function Unsigned(t: string): string {
    if HasSign(t) then t[1..] else t
  }

  /** `int()` of a string that has already been stripped. */
  function ParseStripped(t: string): Option<int> {
    if IsDigitRun(Unsigned(t)) && DigitCount(Unsigned(t)) <= MaxStrDigits then
      var magnitude: int := DecimalValue(Unsigned(t));
      Some(if HasSign(t) && t[0] == '-' then -magnitude else magnitude)
    else
      None
  }

  /**
   * `int(s)` for a str `s`, with None where `int()` raises ValueError: after
   * stripping white space, an optional sign followed by a digit run of at most
   * MaxStrDigits digits. Anything else ("", "abc", "42.0", "1__0", "- 5") gives None.
   */
  function ParseInt(s: string): Option<int>
  {
    ParseStripped(Strip(s))
  }

  /**
   * `_to_int(value)`: None stays None; `int()` turns a bool into 0 or 1, keeps
   * an int, and parses a str; a list or a dict makes it raise TypeError, which
   * gives None. It never fails.
   */
  function ToInt(v: Json): (r: Option<int>)
    ensures v.Int? ==> r == Some(v.i)
    ensures r.Some? ==> v.Bool? || v.Int? || v.Str?
  {
    match v
    case Null => None
    case Bool(b) => Some(if b then 1 else 0)
    case Int(i) => Some(i)
    case Str(s) => ParseInt(s)
    case List(_) => None
    case Object(_) => None
  }

  /** Python's `str(n)` for a non-negative int: its decimal digits, without leading zeros. */
  function DecimalString(n: nat): (s: string)
    ensures |s| > 0 && forall i :: 0 <= i < |s| ==> IsDigit(s[i])
  {
    if n < 10 then [DigitChar(n)] else DecimalString(n / 10) + [DigitChar(n % 10)]
  }

  /** Python's `str(n)` for any int. */
  function IntToString(n: int): string {
    if n < 0 then "-" + DecimalString(-n) else DecimalString(n)
  }

  function Abs(n: int): nat {
    if n < 0 then -n else n
  }

  lemma {:induction false} DecimalStringValue(n: nat)
    ensures IsDigitRun(DecimalString(n))
    ensures DecimalValue(DecimalString(n)) == n
    ensures DigitCount(DecimalString(n)) == |DecimalString(n)|
  {
    var s := DecimalString(n);
    if n >= 10 {
      DecimalStringValue(n / 10);
      assert s[..|s| - 1] == DecimalString(n / 10);
    }
  }

  predicate AllDigits(d: string) {
    forall i :: 0 <= i < |d| ==> IsDigit(d[i])
  }

  lemma {:induction false} DigitCountAllDigits(d: string)
    requires AllDigits(d)
    ensures DigitCount(d) == |d|
    decreases |d|
  {
    if |d| > 0 {
      DigitCountAllDigits(d[..|d| - 1]);
    }
  }

  lemma {:induction false} AllDigitsIsRun(d: string)
    requires |d| > 0 && AllDigits(d)
    ensures IsDigitRun(d) && DigitCount(d) == |d|
  {
    DigitCountAllDigits(d);
  }

  lemma SplitSign(sign: string, d: string)
    requires sign == "" || sign == "+" || sign == "-"
    requires |d| > 0 && IsDigit(d[0])
    ensures HasSign(sign + d) == (sign != "")
    ensures Unsigned(sign + d) == d
    ensures HasSign(sign + d) ==> (sign + d)[0] == sign[0]
  {
    if sign == "" {
      assert sign + d == d;
    } else {
      assert (sign + d)[0] == sign[0];
      assert (sign + d)[1..] == d;
    }
  }

  lemma ParseStrippedSignedDigits(sign: string, d: string)
    requires sign == "" || sign == "+" || sign == "-"
    requires |d| > 0 && AllDigits(d) && |d| <= MaxStrDigits
    ensures var v: int := DecimalValue(d);
            ParseStripped(sign + d) == Some(if sign == "-" then -v else v)
  {
    AllDigitsIsRun(d);
    SplitSign(sign, d);
  }

  lemma SignedDigitsUnpadded(sign: string, d: string)
    requires sign == "" || sign == "+" || sign == "-"
    requires |d| > 0 && AllDigits(d)
    ensures Strip(sign + d) == sign + d
  {
    var s := sign + d;
    assert s[|s| - 1] == d[|d| - 1];
    assert s[0] == if sign == "" then d[0] else sign[0];
    DigitOrSignNotSpace(s[|s| - 1]);
    DigitOrSignNotSpace(s[0]);
    StripUnpadded(s);
  }

  /**
   * An optionally signed string of ASCII digits, leading zeros allowed, is read
   * as its decimal value, negated after a "-".
   */
  lemma ParseIntSignedDigits(sign: string, d: string)
    requires sign == "" || sign == "+" || sign == "-"
    requires |d| > 0 && AllDigits(d) && |d| <= MaxStrDigits
    ensures var v: int := DecimalValue(d);
            ParseInt(sign + d) == Some(if sign == "-" then -v else v)
  {
    SignedDigitsUnpadded(sign, d);
    ParseStrippedSignedDigits(sign, d);
  }

  lemma DigitOrSignNotSpace(c: char)
    ensures IsDigit(c) || c == '+' || c == '-' ==> !IsSpace(c)
  {
  }

  /** A string with no white space at either end is its own `strip()`. */
  lemma StripUnpadded(s: string)
    requires s == [] || (!IsSpace(s[0]) && !IsSpace(s[|s| - 1]))
    ensures Strip(s) == s
  {
    assert TrimEnd(s) == s;
    assert TrimStart(s) == s;
  }

  lemma ParseStrippedIntToString(n: int)
    requires |DecimalString(Abs(n))| <= MaxStrDigits
    ensures ParseStripped(IntToString(n)) == Some(n)
  {
    var d := DecimalString(Abs(n));
    DecimalStringValue(Abs(n));
    if n < 0 {
      assert IntToString(n)[1..] == d;
    } else {
      assert Unsigned(IntToString(n)) == d;
    }
  }

  /**
   * Round trip: `int(str(n)) == n` for every int whose decimal form is within
   * the digit limit, so `_to_int` recovers any count the provider sends as a string.
   */
  lemma ParseIntRoundTrip(n: int)
    requires |DecimalString(Abs(n))| <= MaxStrDigits
    ensures ParseInt(IntToString(n)) == Some(n)
    ensures ToInt(Str(IntToString(n))) == Some(n)
  {
    var s := IntToString(n);
    assert !IsSpace(s[0]) && !IsSpace(s[|s| - 1]);
    StripUnpadded(s);
    ParseStrippedIntToString(n);
  }

  lemma {:induction false} TrimStartAfterSpaces(ws: string, x: string)
    requires AllSpace(ws)
    ensures TrimStart(ws + x) == TrimStart(x)
    decreases |ws|
  {
    if |ws| > 0 {
      assert (ws + x)[1..] == ws[1..] + x;
      TrimStartAfterSpaces(ws[1..], x);
    } else {
      assert ws + x == x;
    }
  }

  lemma {:induction false} TrimEndBeforeSpaces(x: string, ws: string)
    requires AllSpace(ws)
    ensures TrimEnd(x + ws) == TrimEnd(x)
    decreases |ws|
  {
    if |ws| > 0 {
      assert (x + ws)[..|x + ws| - 1] == x + ws[..|ws| - 1];
      TrimEndBeforeSpaces(x, ws[..|ws| - 1]);
    } else {
      assert x + ws == x;
    }
  }

  lemma {:induction false} TrimEndAllSpace(ws: string)
    requires AllSpace(ws)
    ensures TrimEnd(ws) == []
    decreases |ws|
  {
    if |ws| > 0 {
      TrimEndAllSpace(ws[..|ws| - 1]);
    }
  }

  /** Trailing white space of `ws + x` lies in `x` when `x` ends in it. */
  lemma TrimEndSpaceLast(ws: string, x: string)
    requires |x| > 0 && IsSpace(x[|x| - 1])
    ensures TrimEnd(ws + x) == TrimEnd(ws + x[..|x| - 1])
    ensures TrimEnd(x) == TrimEnd(x[..|x| - 1])
  {
    var y := ws + x;
    assert y[|y| - 1] == x[|x| - 1];
    assert y[..|y| - 1] == ws + x[..|x| - 1];
  }

  lemma {:induction false} StripAfterSpaces(ws: string, x: string)
    requires AllSpace(ws)
    ensures Strip(ws + x) == Strip(x)
    decreases |x|
  {
    if |x| == 0 {
      assert ws + x == ws;
      TrimEndAllSpace(ws);
    } else if IsSpace(x[|x| - 1]) {
      TrimEndSpaceLast(ws, x);
      StripAfterSpaces(ws, x[..|x| - 1]);
    } else {
      assert (ws + x)[|ws + x| - 1] == x[|x| - 1];
      TrimStartAfterSpaces(ws, x);
    }
  }

  /** White space around a string does not change what `int()` makes of it. */
  lemma ParseIntIgnoresSurroundingSpace(ws: string, s: string, ws': string)
    requires AllSpace(ws) && AllSpace(ws')
    ensures ParseInt(ws + s + ws') == ParseInt(s)
  {
    TrimEndBeforeSpaces(ws + s, ws');
    StripAfterSpaces(ws, s);
  }

  /** A foreign character inside a stripped string makes `int()` raise. */
  lemma ParseStrippedRejectsForeignChar(t: string, j: nat)
    requires j < |t|
    requires !IsDigit(t[j]) && t[j] != '+' && t[j] != '-' && t[j] != '_'
    ensures ParseStripped(t) == None
  {
    var body := Unsigned(t);
    if HasSign(t) {
      assert j > 0 && body[j - 1] == t[j];
    } else {
      assert body[j] == t[j];
    }
  }

  /**
   * A character that is neither white space, a digit, a sign nor an underscore
   * anywhere in the string (the "." of "42.0", any letter) makes `int()` raise
   * ValueError, so `_to_int` gives None.
   */
  lemma ParseIntRejectsForeignChar(s: string, k: nat)
    requires k < |s|
    requires !IsSpace(s[k]) && !IsDigit(s[k]) && s[k] != '+' && s[k] != '-' && s[k] != '_'
    ensures ParseInt(s) == None
    ensures ToInt(Str(s)) == None
  {
    var t := Strip(s);
    var a, b := StripBounds(s);
    if k < a {
      assert false;
    } else if k >= b {
      assert false;
    } else {
      assert t[k - a] == s[k];
      ParseStrippedRejectsForeignChar(t, k - a);
    }
  }

  /** A string without a single digit ("", "abc", "-") is never an int. */
  lemma ParseIntNeedsDigit(s: string)
    requires forall i :: 0 <= i < |s| ==> !IsDigit(s[i])
    ensures ParseInt(s) == None
    ensures ToInt(Str(s)) == None
  {
    var a, b := StripBounds(s);
  }

  /**
   * The converse of ParseIntSignedDigits and ParseIntIgnoresSurroundingSpace:
   * a string `int()` accepts is white space, then an optional sign and a digit
   * run within the digit limit, then white space. A misplaced sign or
   * underscore ("1-2", "+-1", "_1", "1_", "1__0") therefore gives None.
   */
  lemma ParseIntOnlyNumerals(s: string)
    requires ParseInt(s).Some?
    ensures exists a, b :: 0 <= a <= b <= |s| && AllSpace(s[..a]) && AllSpace(s[b..])
              && IsDigitRun(Unsigned(s[a..b])) && DigitCount(Unsigned(s[a..b])) <= MaxStrDigits
              && ParseInt(s) == ParseStripped(s[a..b])
  {
    var a, b := StripBounds(s);
    assert IsDigitRun(Unsigned(s[a..b])) && DigitCount(Unsigned(s[a..b])) <= MaxStrDigits;
  }

  /** Single underscores between digits are accepted: `_to_int("1_000") == 1000`. */
  lemma ToIntUnderscoreExample()
    ensures ToInt(Str("1_000")) == Some(1000)
  {
    var t := "1_000";
    StripUnpadded(t);
    assert Unsigned(t) == t;
    assert IsDigitRun(t);
    assert t[..4] == "1_00" && "1_00"[..3] == "1_0" && "1_0"[..2] == "1_" && "1_"[..1] == "1" && "1"[..0] == "";
    assert DecimalValue("1") == 1 && DigitCount("1") == 1;
    assert DecimalValue("1_") == 1 && DigitCount("1_") == 1;
    assert DecimalValue("1_0") == 10 && DigitCount("1_0") == 2;
    assert DecimalValue("1_00") == 100 && DigitCount("1_00") == 3;
    assert DecimalValue(t) == 1000 && DigitCount(t) == 4;
  }

  /** A doubled underscore is refused: `_to_int("1__0")` is None. */
  lemma ToIntDoubleUnderscoreExample()
    ensures ToInt(Str("1__0")) == None
  {
    var t := "1__0";
    StripUnpadded(t);
    assert Unsigned(t) == t;
    assert t[1] == '_' && !IsDigit(t[2]);
  }

  /**
   * `_to_int("\x1c42")` is None: `str.isspace()` accepts U+001C, but `int()`
   * does not skip it.
   */
  lemma ToIntKeepsAsciiSeparators()
    ensures ToInt(Str("\U{1C}42")) == None
  {
    ParseIntRejectsForeignChar("\U{1C}42", 0);
  }

  /** `_to_int("42") == 42` and `_to_int("100") == 100`. */
  lemma ToIntDecimalExamples()
    ensures ToInt(Str("42")) == Some(42)
    ensures ToInt(Str("100")) == Some(100)
  {
    assert DecimalString(42) == "42";
    ParseIntRoundTrip(42);
    assert DecimalString(100) == "100";
    ParseIntRoundTrip(100);
  }

  /** `_to_int("42.0")` is None: Python's `int()` does not accept a decimal point. */
  lemma ToIntRejectsDecimalPoint()
    ensures ToInt(Str("42.0")) == None
  {
    ParseIntRejectsForeignChar("42.0", 2);
  }

  /** `_to_int("abc")` and `_to_int("")` are None. */
  lemma ToIntRejectsNonNumeric()
    ensures ToInt(Str("abc")) == None
    ensures ToInt(Str("")) == None
  {
    ParseIntNeedsDigit("abc");
    ParseIntNeedsDigit("");
  }

  /** None, a bool and a list. */
  lemma ToIntNonStringExamples()
    ensures ToInt(Null) == None
    ensures ToInt(Bool(true)) == Some(1) && ToInt(Bool(false)) == Some(0)
    ensures ToInt(List([Int(1)])) == None && ToInt(Object(map["n" := Int(1)])) == None
  {
  }
}

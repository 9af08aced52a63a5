/** Decimal text of integers: Python's str() of an int, Python's int() of a
    string (the parse that turns the split token "f12" into 12), and the
    reading of an integer literal in the emitted C++ index expressions. */
module Decimal {
  import opened Wrappers

  predicate IsDigit(c: char) { '0' <= c <= '9' }

  predicate AllDigits(s: string) { forall i :: 0 <= i < |s| ==> IsDigit(s[i]) }

  function DigitValue(c: char): nat
    requires IsDigit(c)
  {
    c as int - '0' as int
  }

  function DigitChar(d: nat): (c: char)
    requires d < 10
    ensures IsDigit(c) && DigitValue(c) == d
  {
    ('0' as int + d) as char
  }

  /** str(n) for a non-negative int: no sign, no leading zeros. */
  function NatToString(n: nat): (s: string)
    ensures |s| > 0 && AllDigits(s)
    ensures s[0] == '0' ==> n == 0
  {
    if n < 10 then [DigitChar(n)] else NatToString(n / 10) + [DigitChar(n % 10)]
  }

  /** str(i) for any int: a minus sign in front of the digits of -i when i < 0. */
  function IntToString(i: int): (s: string)
    ensures |s| > 0 && IsDigit(s[|s| - 1])
    ensures forall k :: 0 <= k < |s| ==> IsDigit(s[k]) || s[k] == '-'
  {
    if i < 0 then "-" + NatToString(-i) else NatToString(i)
  }

  /** The value of a run of decimal digits; underscores are skipped, as
      Python skips the grouping underscores of "1_000". */
  function LiteralValue(s: string): nat
    requires forall i :: 0 <= i < |s| ==> IsDigit(s[i]) || s[i] == '_'
  {
    if s == [] then 0
    else if s[|s| - 1] == '_' then LiteralValue(s[..|s| - 1])
    else 10 * LiteralValue(s[..|s| - 1]) + DigitValue(s[|s| - 1])
  }

  lemma {:induction false} LiteralValueOfNatToString(n: nat)
    ensures LiteralValue(NatToString(n)) == n
  {
    if n >= 10 {
      var s := NatToString(n);
      assert s[..|s| - 1] == NatToString(n / 10);
      LiteralValueOfNatToString(n / 10);
    }
  }

  /** NatToString never prints two numbers the same way. */
  lemma NatToStringInjective(a: nat, b: nat)
    requires NatToString(a) == NatToString(b)
    ensures a == b
  {
    LiteralValueOfNatToString(a);
    LiteralValueOfNatToString(b);
  }

  // ---------------------------------------------------------------------
  // Python's int() applied to a string

  /** The ASCII characters that str.isspace() accepts: tab, line feed,
      vertical tab, form feed, carriage return, the four information
      separators and space. */
  predicate IsSpace(c: char) { 9 <= c as int <= 13 || 28 <= c as int <= 32 }

  function StripLeading(s: string): (t: string)
    ensures |t| > 0 ==> !IsSpace(t[0])
  {
    if |s| > 0 && IsSpace(s[0]) then StripLeading(s[1..]) else s
  }

  function StripTrailing(s: string): (t: string)
    ensures |t| > 0 ==> !IsSpace(t[|t| - 1])
  {
    if |s| > 0 && IsSpace(s[|s| - 1]) then StripTrailing(s[..|s| - 1]) else s
  }

  /** The digits int() accepts after the sign: digits, separated by single
      underscores, beginning and ending with a digit. */
  predicate IsIntegerBody(s: string)
  {
    && |s| > 0 && IsDigit(s[0]) && IsDigit(s[|s| - 1])
    && (forall i :: 0 <= i < |s| ==> IsDigit(s[i]) || s[i] == '_')
    && NoDoubleUnderscore(s)
  }

  predicate NoDoubleUnderscore(s: string)
  {
    |s| < 2 || (!(s[0] == '_' && s[1] == '_') && NoDoubleUnderscore(s[1..]))
  }

  lemma {:induction false} DigitsHaveNoUnderscore(s: string)
    requires AllDigits(s)
    ensures NoDoubleUnderscore(s)
  {
    if |s| >= 2 {
      DigitsHaveNoUnderscore(s[1..]);
    }
  }

  /** The number of digits of s, underscores not counted. */
  function DigitCount(s: string): nat
  {
    if s == [] then 0
    else (if IsDigit(s[|s| - 1]) then 1 else 0) + DigitCount(s[..|s| - 1])
  }

  lemma {:induction false} DigitCountOfDigits(s: string)
    requires AllDigits(s)
    ensures DigitCount(s) == |s|
  {
    if s != [] {
      DigitCountOfDigits(s[..|s| - 1]);
    }
  }

  /** The default of sys.get_int_max_str_digits(): since CPython 3.11 (and
      the security releases 3.7.14, 3.8.14, 3.9.14 and 3.10.7), int() of a
      decimal string with more digits than this raises ValueError. */
  const MaxStrDigits: nat := 4300

  /** int(s): surrounding whitespace, then an optional sign, then the digits,
      at most MaxStrDigits of them; None where Python raises ValueError. */
  function PyInt(s: string): Option<int>
  {
    SignedValue(StripTrailing(StripLeading(s)))
  }

  /** int() of text without surrounding whitespace. */
  function SignedValue(t: string): Option<int>
  {
    if |t| > 0 && t[0] == '-' then
      (match BodyValue(t[1..]) case None => None case Some(n) => Some(-(n as int)))
    else if |t| > 0 && t[0] == '+' then BodyValue(t[1..])
    else BodyValue(t)
  }

  /** The value of the digits after the sign, if int() accepts them. */
  function BodyValue(body: string): Option<nat>
  {
    if !IsIntegerBody(body) || DigitCount(body) > MaxStrDigits then None
    else Some(LiteralValue(body))
  }

  /** A run of digits is an integer body with surrounding whitespace to strip
      and no sign. */
  lemma DigitsAreBody(ds: string)
    requires |ds| > 0 && AllDigits(ds)
    ensures StripTrailing(StripLeading(ds)) == ds
    ensures ds[0] != '-' && ds[0] != '+'
    ensures IsIntegerBody(ds) && DigitCount(ds) == |ds|
  {
    assert IsDigit(ds[0]) && IsDigit(ds[|ds| - 1]);
    assert StripLeading(ds) == ds;
    assert StripTrailing(ds) == ds;
    DigitsHaveNoUnderscore(ds);
    DigitCountOfDigits(ds);
  }

  /** int() of a run of digits is their value, unless there are too many. */
  lemma PyIntOfDigits(ds: string)
    requires |ds| > 0 && AllDigits(ds)
    ensures PyInt(ds) == if |ds| <= MaxStrDigits then Some(LiteralValue(ds)) else None
  {
    DigitsAreBody(ds);
  }

  /** int() of a minus sign and a run of digits is minus their value, unless
      there are too many digits. */
  lemma PyIntOfNegatedDigits(ds: string)
    requires |ds| > 0 && AllDigits(ds)
    ensures PyInt("-" + ds) == if |ds| <= MaxStrDigits then Some(-(LiteralValue(ds) as int)) else None
  {
    DigitsAreBody(ds);
    var s := "-" + ds;
    assert s[0] == '-' && s[1..] == ds;
    assert StripLeading(s) == s;
    assert !IsSpace(s[|s| - 1]) by {
      assert s[|s| - 1] == ds[|ds| - 1];
      assert IsDigit(ds[|ds| - 1]);
    }
    assert StripTrailing(s) == s;
  }

  /** The decimal text of i reads back as i, unless it has more digits than
      int() accepts. */
  lemma PyIntOfIntToString(i: int)
    ensures PyInt(IntToString(i)) == if |NatToString(Abs(i))| <= MaxStrDigits then Some(i) else None
  {
    if i < 0 {
      PyIntOfNegatedDigits(NatToString(-i));
      LiteralValueOfNatToString(-i);
    } else {
      PyIntOfDigits(NatToString(i));
      LiteralValueOfNatToString(i);
    }
  }

  function Abs(i: int): nat
  {
    if i < 0 then -i else i
  }

  /** s[1:] in Python: everything after the first character, and "" for "". */
  function DropFirst(s: string): (t: string)
    ensures |s| > 0 ==> [s[0]] + t == s
    ensures |s| == 0 ==> t == ""
  {
    if |s| == 0 then "" else s[1..]
  }

  /** The feature index of a split token: int(token[1:]). The first
      character is dropped whatever it is; it is not checked to be 'f'. */
  function FeatureIndex(token: string): Option<int>
  {
    PyInt(DropFirst(token))
  }

  /** Any one-character prefix followed by the decimal text of i decodes to i:
      "f12" gives 12, and so do "x12" and "f-3" (which gives -3); a text of
      more than MaxStrDigits digits is refused. */
  lemma FeatureIndexOfToken(prefix: char, i: int)
    ensures FeatureIndex([prefix] + IntToString(i))
         == if |NatToString(Abs(i))| <= MaxStrDigits then Some(i) else None
  {
    assert DropFirst([prefix] + IntToString(i)) == IntToString(i);
    PyIntOfIntToString(i);
  }

  /** A prefix followed by a run of digits decodes to their value exactly
      when there are at most MaxStrDigits of them: "f" followed by 5000 ones
      is refused. */
  lemma FeatureIndexOfDigits(prefix: char, ds: string)
    requires |ds| > 0 && AllDigits(ds)
    ensures FeatureIndex([prefix] + ds) == if |ds| <= MaxStrDigits then Some(LiteralValue(ds)) else None
  {
    assert DropFirst([prefix] + ds) == ds;
    PyIntOfDigits(ds);
  }

  lemma FeatureIndexExamples()
    ensures FeatureIndex("f12") == Some(12)
    ensures FeatureIndex("f0") == Some(0)
  {
    assert NatToString(12) == "12";
    FeatureIndexOfToken('f', 12);
    assert NatToString(0) == "0";
    FeatureIndexOfToken('f', 0);
  }

  /** Grouping underscores are accepted between digits, as int() accepts them. */
  lemma FeatureIndexWithUnderscore()
    ensures FeatureIndex("f1_5") == Some(15)
  {
    var body := "1_5";
    assert DropFirst("f1_5") == body;
    assert StripLeading(body) == body && StripTrailing(body) == body;
    assert IsIntegerBody(body) by {
      assert body[1..] == "_5" && body[1..][1..] == "5";
    }
    assert DigitCount(body) == 2 by {
      assert body[..2] == "1_" && "1_"[..1] == "1" && "1"[..0] == "";
    }
    assert LiteralValue(body) == 15 by {
      assert body[..2] == "1_" && "1_"[..1] == "1" && "1"[..0] == "";
      assert LiteralValue("1") == 1;
      assert LiteralValue("1_") == 1;
      assert LiteralValue(body) == 10 * LiteralValue("1_") + 5;
    }
  }

  /** A token whose tail is empty or not a number has no feature index. */
  lemma FeatureIndexRejects()
    ensures FeatureIndex("f") == None
    ensures FeatureIndex("") == None
    ensures FeatureIndex("fx") == None
  {
    assert DropFirst("f") == "";
    assert DropFirst("") == "";
    assert DropFirst("fx") == "x";
    assert StripLeading("x") == "x" && StripTrailing("x") == "x";
  }

  // ---------------------------------------------------------------------
  // Integer literals as they stand in the emitted C++ text

  /** An optional minus sign followed by one or more digits. */
  function ReadIndex(s: string): Option<int>
  {
    if |s| > 0 && s[0] == '-' then
      (if |s| > 1 && AllDigits(s[1..]) then Some(-(LiteralValue(s[1..]) as int)) else None)
    else if |s| > 0 && AllDigits(s) then Some(LiteralValue(s))
    else None
  }

  lemma ReadIndexOfIntToString(i: int)
    ensures ReadIndex(IntToString(i)) == Some(i)
  {
    if i < 0 {
      assert IntToString(i)[1..] == NatToString(-i);
      LiteralValueOfNatToString(-i);
    } else {
      LiteralValueOfNatToString(i);
    }
  }
}

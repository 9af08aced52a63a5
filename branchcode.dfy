/** The branch code the generator emits for one tree, seen three ways: as a
    small abstract syntax with an interpreter (what the C++ means), as the
    lines of text the generator writes, and as those lines read back by a
    parser. Writing then reading gives back the syntax, so the text means
    what the syntax means. */
module BranchCode {
  import opened Wrappers
  import opened Decimal

  /** Python's str() of a float. Its decimal rendering is not modelled: it is
      a parameter of everything that prints a number. */
  type Formatter = real -> string

  /** The C++ compiler's reading of a floating-point literal. */
  type Reader = string -> Option<real>

  /** No printed number contains a line break. */
  ghost predicate NoNewline(fmt: Formatter)
  {
    forall v :: '\n' !in fmt(v)
  }


  /** `return v;` and `if (x[f] < t) { ... } else { ... }`. */
  datatype Code =
    | Return(value: real)
    | IfLess(feature: int, threshold: real, thenBranch: Code, elseBranch: Code)

  /** The numbers the text of c prints, in order: each returned value and
      each threshold. */
  function Numbers(c: Code): seq<real>
  {
    match c
    case Return(v) => [v]
    case IfLess(_, t, a, b) => [t] + Numbers(a) + Numbers(b)
  }

  /** Every number the text of c prints reads back as the value printed.
      Python prints a double so that reading the text back gives the same
      double, and the numbers of a decoded model are doubles, so this is
      asked only of the numbers that are printed, never of all reals. */
  ghost predicate ReadsBackIn(fmt: Formatter, read: Reader, c: Code)
  {
    forall v :: v in Numbers(c) ==> read(fmt(v)) == Some(v)
  }

  /** The position of the first occurrence of v in ns. */
  function Position(ns: seq<real>, v: real): (k: nat)
    requires v in ns
    ensures k < |ns| && ns[k] == v
  {
    if ns[0] == v then 0 else 1 + Position(ns[1..], v)
  }

  /** For any code, some printer and reader meet the assumptions the parsing
      lemmas make: print each number as its position in Numbers(c), and read
      a position back as the number there. */
  lemma ReadsBackCanHold(c: Code)
    ensures exists fmt: Formatter, read: Reader :: NoNewline(fmt) && ReadsBackIn(fmt, read, c)
  {
    var ns := Numbers(c);
    var fmt: Formatter := v => if v in ns then NatToString(Position(ns, v)) else "0";
    var read: Reader := s =>
      if |s| > 0 && AllDigits(s) && LiteralValue(s) < |ns| then Some(ns[LiteralValue(s)]) else None;
    forall v | v in ns
      ensures read(fmt(v)) == Some(v)
    {
      LiteralValueOfNatToString(Position(ns, v));
    }
    forall v
      ensures '\n' !in fmt(v)
    {
      assert AllDigits(fmt(v));
    }
    assert NoNewline(fmt) && ReadsBackIn(fmt, read, c);
  }

  /** What the code returns for the feature vector x. A read outside x is
      undefined behaviour in C++; it is None here. */
  function Exec(c: Code, x: seq<real>): Option<real>
  {
    match c
    case Return(v) => Some(v)
    case IfLess(f, t, a, b) =>
      if !(0 <= f < |x|) then None
      else if x[f] < t then Exec(a, x)
      else Exec(b, x)
  }

  // ---------------------------------------------------------------------
  // The lines of text

  function ReturnLine(v: real, fmt: Formatter): string
  {
    "return " + fmt(v) + ";\n"
  }

  function IfLine(f: int, t: real, fmt: Formatter): string
  {
    "if (x[" + IntToString(f) + "] < " + fmt(t) + ") {\n"
  }

  const ElseLine: string := "} else {\n"
  const CloseLine: string := "}\n"

  function Lines(c: Code, fmt: Formatter): seq<string>
  {
    match c
    case Return(v) => [ReturnLine(v, fmt)]
    case IfLess(f, t, a, b) =>
      [IfLine(f, t, fmt)] + Lines(a, fmt) + [ElseLine] + Lines(b, fmt) + [CloseLine]
  }

  /** The text written by a sequence of writes. */
  function Concat(ls: seq<string>): string
  {
    if ls == [] then "" else ls[0] + Concat(ls[1..])
  }

  lemma {:induction false} ConcatAppend(a: seq<string>, b: seq<string>)
    ensures Concat(a + b) == Concat(a) + Concat(b)
  {
    if a == [] {
      assert a + b == b;
    } else {
      assert (a + b)[1..] == a[1..] + b;
      ConcatAppend(a[1..], b);
    }
  }

  /** A line: text that ends with its only line break. */
  predicate IsLine(l: string)
  {
    |l| > 0 && l[|l| - 1] == '\n' && '\n' !in l[..|l| - 1]
  }

  lemma ReturnLineIsLine(v: real, fmt: Formatter)
    requires NoNewline(fmt)
    ensures IsLine(ReturnLine(v, fmt))
  {
    var l := ReturnLine(v, fmt);
    assert l[..|l| - 1] == "return " + fmt(v) + ";";
  }

  lemma IfLineIsLine(f: int, t: real, fmt: Formatter)
    requires NoNewline(fmt)
    ensures IsLine(IfLine(f, t, fmt))
  {
    var l := IfLine(f, t, fmt);
    assert l[..|l| - 1] == "if (x[" + IntToString(f) + "] < " + fmt(t) + ") {";
    assert forall k :: 0 <= k < |IntToString(f)| ==> IntToString(f)[k] != '\n';
  }

  lemma {:induction false} LinesAreLines(c: Code, fmt: Formatter)
    requires NoNewline(fmt)
    ensures forall l :: l in Lines(c, fmt) ==> IsLine(l)
  {
    match c
    case Return(v) =>
      ReturnLineIsLine(v, fmt);
    case IfLess(f, t, a, b) =>
      LinesAreLines(a, fmt);
      LinesAreLines(b, fmt);
      IfLineIsLine(f, t, fmt);
      assert IsLine(ElseLine) && IsLine(CloseLine);
  }

  /** Cutting text into lines after each line break; trailing text without a
      line break is a last, unterminated piece. */
  function SplitLines(s: string): (ls: seq<string>)
    ensures Concat(ls) == s
    decreases |s|
  {
    if s == [] then []
    else if s[0] == '\n' then ["\n"] + SplitLines(s[1..])
    else
      var rest := SplitLines(s[1..]);
      if rest == [] then [s] else [[s[0]] + rest[0]] + rest[1..]
  }

  lemma {:induction false} SplitLinesOfLine(l: string, t: string)
    requires IsLine(l)
    ensures SplitLines(l + t) == [l] + SplitLines(t)
    decreases |l|
  {
    var s := l + t;
    if |l| == 1 {
      assert s[1..] == t;
    } else {
      assert l[0] in l[..|l| - 1];
      assert l[1..][..|l| - 2] == l[1..|l| - 1];
      assert IsLine(l[1..]);
      assert s[1..] == l[1..] + t;
      SplitLinesOfLine(l[1..], t);
      assert [s[0]] + l[1..] == l;
    }
  }

  /** Splitting the concatenation of lines gives the lines back. */
  lemma {:induction false} SplitLinesConcat(ls: seq<string>)
    requires forall l :: l in ls ==> IsLine(l)
    ensures SplitLines(Concat(ls)) == ls
  {
    if ls != [] {
      SplitLinesConcat(ls[1..]);
      SplitLinesOfLine(ls[0], Concat(ls[1..]));
    }
  }

  // ---------------------------------------------------------------------
  // Reading the lines back: each line is read on its own into a token,
  // and the statement structure is read from the tokens.

  predicate StartsWith(l: string, p: string)
  {
    |p| <= |l| && l[..|p|] == p
  }

  /** The first position of c in s, or |s| when there is none. */
  function IndexOf(s: string, c: char): (j: nat)
    ensures j <= |s| && c !in s[..j]
    ensures j < |s| ==> s[j] == c
  {
    if s == [] then 0
    else if s[0] == c then 0
    else
      assert forall k :: 0 <= k < IndexOf(s[1..], c) ==> s[1..][..IndexOf(s[1..], c)][k] == s[k + 1];
      1 + IndexOf(s[1..], c)
  }

  lemma IndexOfAfter(a: string, c: char, b: string)
    requires c !in a
    ensures IndexOf(a + [c] + b, c) == |a|
  {
    var s := a + [c] + b;
    assert s[..|a|] == a;
    assert s[|a|] == c;
  }

  datatype Token =
    | ReturnTok(value: real)
    | IfTok(feature: int, threshold: real)
    | ElseTok
    | CloseTok
    | OtherTok

  function ParseReturn(l: string, read: Reader): Option<real>
  {
    if |l| >= 9 && StartsWith(l, "return ") && l[|l| - 2..] == ";\n" then read(l[7..|l| - 2])
    else None
  }

  function ParseIf(l: string, read: Reader): Option<(int, real)>
  {
    if |l| >= 10 && StartsWith(l, "if (x[") && l[|l| - 4..] == ") {\n" then
      var mid := l[6..|l| - 4];
      var j := IndexOf(mid, ']');
      if j + 4 <= |mid| && mid[j..j + 4] == "] < " then
        match ReadIndex(mid[..j])
        case None => None
        case Some(f) =>
          match read(mid[j + 4..])
          case None => None
          case Some(t) => Some((f, t))
      else None
    else None
  }

  function Classify(l: string, read: Reader): Token
  {
    if l == ElseLine then ElseTok
    else if l == CloseLine then CloseTok
    else match ParseReturn(l, read)
      case Some(v) => ReturnTok(v)
      case None =>
        match ParseIf(l, read)
        case Some((f, t)) => IfTok(f, t)
        case None => OtherTok
  }

  function ClassifyAll(ls: seq<string>, read: Reader): (ts: seq<Token>)
    ensures |ts| == |ls|
  {
    if ls == [] then [] else [Classify(ls[0], read)] + ClassifyAll(ls[1..], read)
  }

  lemma {:induction false} ClassifyAllAppend(a: seq<string>, b: seq<string>, read: Reader)
    ensures ClassifyAll(a + b, read) == ClassifyAll(a, read) + ClassifyAll(b, read)
  {
    if a == [] {
      assert a + b == b;
    } else {
      assert (a + b)[1..] == a[1..] + b;
      ClassifyAllAppend(a[1..], b, read);
    }
  }

  /** Reads one statement from the front of ts: the statement and the tokens
      that follow it. */
  function ParseStmt(ts: seq<Token>): (r: Option<(Code, seq<Token>)>)
    ensures r.Some? ==> |r.value.1| < |ts|
    decreases |ts|
  {
    if |ts| == 0 then None
    else match ts[0]
      case ReturnTok(v) => Some((Return(v), ts[1..]))
      case IfTok(f, t) =>
        (match ParseStmt(ts[1..])
         case None => None
         case Some((a, afterThen)) =>
           if afterThen == [] || afterThen[0] != ElseTok then None
           else
             match ParseStmt(afterThen[1..])
             case None => None
             case Some((b, afterElse)) =>
               if afterElse == [] || afterElse[0] != CloseTok then None
               else Some((IfLess(f, t, a, b), afterElse[1..])))
      case _ => None
  }

  /** The statement that a whole text consists of, if it is one. */
  function ParseText(s: string, read: Reader): Option<Code>
  {
    match ParseStmt(ClassifyAll(SplitLines(s), read))
    case Some((c, rest)) => if rest == [] then Some(c) else None
    case None => None
  }

  /** The tokens of the lines of c. */
  function Tokens(c: Code): seq<Token>
  {
    match c
    case Return(v) => [ReturnTok(v)]
    case IfLess(f, t, a, b) => [IfTok(f, t)] + Tokens(a) + [ElseTok] + Tokens(b) + [CloseTok]
  }

  lemma ReadReturnLine(v: real, fmt: Formatter, read: Reader)
    requires read(fmt(v)) == Some(v)
    ensures Classify(ReturnLine(v, fmt), read) == ReturnTok(v)
  {
    var l := ReturnLine(v, fmt);
    assert l[0] != ElseLine[0] && l[0] != CloseLine[0];
    assert l[7..|l| - 2] == fmt(v);
  }

  lemma ReadIfLine(f: int, t: real, fmt: Formatter, read: Reader)
    requires read(fmt(t)) == Some(t)
    ensures Classify(IfLine(f, t, fmt), read) == IfTok(f, t)
  {
    var l := IfLine(f, t, fmt);
    assert l[0] != ElseLine[0] && l[0] != CloseLine[0];
    assert l[0] != 'r';
    ParseIfLine(f, t, fmt, read);
  }

  /** The condition of an `if` line reads back as its feature and threshold. */
  lemma ParseIfLine(f: int, t: real, fmt: Formatter, read: Reader)
    requires read(fmt(t)) == Some(t)
    ensures ParseIf(IfLine(f, t, fmt), read) == Some((f, t))
  {
    var l := IfLine(f, t, fmt);
    var num := IntToString(f);
    assert l[..6] == "if (x[";
    assert l[|l| - 4..] == ") {\n";
    var mid := l[6..|l| - 4];
    assert mid == num + "] < " + fmt(t);
    assert ']' !in num by {
      forall k | 0 <= k < |num| ensures num[k] != ']' { }
    }
    IndexOfAfter(num, ']', " < " + fmt(t));
    assert mid == num + [']'] + (" < " + fmt(t));
    assert mid[..|num|] == num;
    assert mid[|num|..|num| + 4] == "] < ";
    assert mid[|num| + 4..] == fmt(t);
    ReadIndexOfIntToString(f);
  }

  /** The numbers of a split are its threshold and those of its branches. */
  lemma ReadsBackInParts(fmt: Formatter, read: Reader, f: int, t: real, a: Code, b: Code)
    requires ReadsBackIn(fmt, read, IfLess(f, t, a, b))
    ensures read(fmt(t)) == Some(t)
    ensures ReadsBackIn(fmt, read, a) && ReadsBackIn(fmt, read, b)
  {
    var ns := Numbers(IfLess(f, t, a, b));
    assert ns == [t] + Numbers(a) + Numbers(b);
    assert t in ns;
    forall v | v in Numbers(a) ensures v in ns { }
    forall v | v in Numbers(b) ensures v in ns { }
  }

  /** Each line of c reads as the corresponding token. */
  lemma {:induction false} ClassifyLines(c: Code, fmt: Formatter, read: Reader)
    requires ReadsBackIn(fmt, read, c)
    ensures ClassifyAll(Lines(c, fmt), read) == Tokens(c)
  {
    match c
    case Return(v) =>
      ReadReturnLine(v, fmt, read);
    case IfLess(f, t, a, b) =>
      ReadsBackInParts(fmt, read, f, t, a, b);
      ReadIfLine(f, t, fmt, read);
      ClassifyLines(a, fmt, read);
      ClassifyLines(b, fmt, read);
      ClassifySplit(IfLine(f, t, fmt), Lines(a, fmt), Lines(b, fmt), read);
  }

  /** The lines of a split are classified one part at a time. */
  lemma ClassifySplit(l: string, la: seq<string>, lb: seq<string>, read: Reader)
    ensures ClassifyAll([l] + la + [ElseLine] + lb + [CloseLine], read)
         == [Classify(l, read)] + ClassifyAll(la, read) + [ElseTok] + ClassifyAll(lb, read) + [CloseTok]
  {
    ClassifyAllAppend([l] + la + [ElseLine] + lb, [CloseLine], read);
    ClassifyAllAppend([l] + la + [ElseLine], lb, read);
    ClassifyAllAppend([l] + la, [ElseLine], read);
    ClassifyAllAppend([l], la, read);
  }

  /** A split reads back once both of its branches do. */
  lemma ParseSplit(ts: seq<Token>, f: int, t: real, a: Code, afterThen: seq<Token>, b: Code, afterElse: seq<Token>)
    requires |ts| > 0 && ts[0] == IfTok(f, t)
    requires ParseStmt(ts[1..]) == Some((a, afterThen))
    requires |afterThen| > 0 && afterThen[0] == ElseTok
    requires ParseStmt(afterThen[1..]) == Some((b, afterElse))
    requires |afterElse| > 0 && afterElse[0] == CloseTok
    ensures ParseStmt(ts) == Some((IfLess(f, t, a, b), afterElse[1..]))
  {
  }

  /** Reading the tokens of c, followed by anything, gives back c and what
      follows. */
  lemma {:induction false} ParseTokens(c: Code, rest: seq<Token>)
    ensures ParseStmt(Tokens(c) + rest) == Some((c, rest))
  {
    var ts := Tokens(c) + rest;
    match c
    case Return(v) =>
      assert ts[1..] == rest;
    case IfLess(f, t, a, b) =>
      var afterThen := [ElseTok] + Tokens(b) + [CloseTok] + rest;
      var afterElse := [CloseTok] + rest;
      assert ts[1..] == Tokens(a) + afterThen;
      ParseTokens(a, afterThen);
      assert afterThen[1..] == Tokens(b) + afterElse;
      ParseTokens(b, afterElse);
      assert afterElse[1..] == rest;
      ParseSplit(ts, f, t, a, afterThen, b, afterElse);
  }

  /** The text of c reads back as c. */
  lemma ParseRendered(c: Code, fmt: Formatter, read: Reader)
    requires NoNewline(fmt) && ReadsBackIn(fmt, read, c)
    ensures ParseText(Concat(Lines(c, fmt)), read) == Some(c)
  {
    LinesAreLines(c, fmt);
    SplitLinesConcat(Lines(c, fmt));
    ClassifyLines(c, fmt, read);
    ParseTokens(c, []);
    assert Tokens(c) + [] == Tokens(c);
  }

  // ---------------------------------------------------------------------
  // Counting statements

  function CountStarting(ls: seq<string>, p: string): nat
  {
    if ls == [] then 0
    else (if StartsWith(ls[0], p) then 1 else 0) + CountStarting(ls[1..], p)
  }

  lemma {:induction false} CountStartingAppend(a: seq<string>, b: seq<string>, p: string)
    ensures CountStarting(a + b, p) == CountStarting(a, p) + CountStarting(b, p)
  {
    if a == [] {
      assert a + b == b;
    } else {
      assert (a + b)[1..] == a[1..] + b;
      CountStartingAppend(a[1..], b, p);
    }
  }

  function ReturnCount(c: Code): nat
  {
    match c
    case Return(_) => 1
    case IfLess(_, _, a, b) => ReturnCount(a) + ReturnCount(b)
  }

  function BranchCount(c: Code): nat
  {
    match c
    case Return(_) => 0
    case IfLess(_, _, a, b) => 1 + BranchCount(a) + BranchCount(b)
  }

  /** The `return`, `if` and `} else {` lines of the text of c. */
  lemma LineCounts(c: Code, fmt: Formatter)
    ensures CountStarting(Lines(c, fmt), "return ") == ReturnCount(c)
    ensures CountStarting(Lines(c, fmt), "if (") == BranchCount(c)
    ensures CountStarting(Lines(c, fmt), ElseLine) == BranchCount(c)
  {
    CountReturnLines(c, fmt);
    CountIfLines(c, fmt);
    CountElseLines(c, fmt);
  }

  /** One `return` line per Return. */
  lemma {:induction false} CountReturnLines(c: Code, fmt: Formatter)
    ensures CountStarting(Lines(c, fmt), "return ") == ReturnCount(c)
  {
    match c
    case Return(v) =>
      assert StartsWith(ReturnLine(v, fmt), "return ");
    case IfLess(f, t, a, b) =>
      CountReturnLines(a, fmt);
      CountReturnLines(b, fmt);
      CountBranchLines(c, fmt, "return ");
      NotStartsWith(IfLine(f, t, fmt), "return ");
  }

  /** One `if` line per IfLess. */
  lemma {:induction false} CountIfLines(c: Code, fmt: Formatter)
    ensures CountStarting(Lines(c, fmt), "if (") == BranchCount(c)
  {
    match c
    case Return(v) =>
      NotStartsWith(ReturnLine(v, fmt), "if (");
    case IfLess(f, t, a, b) =>
      CountIfLines(a, fmt);
      CountIfLines(b, fmt);
      CountBranchLines(c, fmt, "if (");
      assert StartsWith(IfLine(f, t, fmt), "if (");
  }

  /** One `} else {` line per IfLess. */
  lemma {:induction false} CountElseLines(c: Code, fmt: Formatter)
    ensures CountStarting(Lines(c, fmt), ElseLine) == BranchCount(c)
  {
    match c
    case Return(v) =>
      NotStartsWith(ReturnLine(v, fmt), ElseLine);
    case IfLess(f, t, a, b) =>
      CountElseLines(a, fmt);
      CountElseLines(b, fmt);
      CountBranchLines(c, fmt, ElseLine);
      NotStartsWith(IfLine(f, t, fmt), ElseLine);
  }

  /** How the count of an IfLess's lines splits over its parts. */
  lemma CountBranchLines(c: Code, fmt: Formatter, p: string)
    requires c.IfLess?
    requires p in {"return ", "if (", ElseLine}
    ensures CountStarting(Lines(c, fmt), p)
         == CountStarting([IfLine(c.feature, c.threshold, fmt)], p)
          + CountStarting(Lines(c.thenBranch, fmt), p)
          + (if p == ElseLine then 1 else 0)
          + CountStarting(Lines(c.elseBranch, fmt), p)
  {
    var il, la, lb := [IfLine(c.feature, c.threshold, fmt)], Lines(c.thenBranch, fmt), Lines(c.elseBranch, fmt);
    CountStartingAppend(il + la + [ElseLine] + lb, [CloseLine], p);
    CountStartingAppend(il + la + [ElseLine], lb, p);
    CountStartingAppend(il + la, [ElseLine], p);
    CountStartingAppend(il, la, p);
    if p == ElseLine {
      assert |CloseLine| < |p|;
    } else {
      NotStartsWith(CloseLine, p);
    }
    if p != ElseLine {
      NotStartsWith(ElseLine, p);
    } else {
      assert StartsWith(ElseLine, p);
    }
  }

  /** Lines that differ in their first character from p do not start with p. */
  lemma NotStartsWith(l: string, p: string)
    requires |l| > 0 && |p| > 0 && l[0] != p[0]
    ensures !StartsWith(l, p)
  {
    assert |p| <= |l| ==> l[..|p|][0] == l[0];
  }
}

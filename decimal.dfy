/**
 * Decimal text of integers as Python's str() and format(x, "6d") produce it,
 * and a scanner that reads the signed decimal integers back out of a text.
 * The scanner is the inverse used to show that the generated C source holds
 * exactly the numbers that were written into it.
 */
module Decimal {

  predicate IsDigit(c: char)
  {
    '0' <= c <= '9'
  }

  /** A character that neither starts nor continues a number. */
  predicate IsSeparator(c: char)
  {
    !IsDigit(c) && c != '-'
  }

  predicate AllDigits(s: string)
  {
    forall i :: 0 <= i < |s| ==> IsDigit(s[i])
  }

  predicate AllSeparators(s: string)
  {
    forall i :: 0 <= i < |s| ==> IsSeparator(s[i])
  }

  function DigitChar(d: int): (c: char)
    requires 0 <= d < 10
    ensures IsDigit(c) && c as int - '0' as int == d
  {
    ('0' as int + d) as char
  }

  /** The number a string of decimal digits denotes, most significant first. */
  function DigitsValue(s: string): nat
    requires AllDigits(s)
  {
    if s == [] then 0
    else 10 * DigitsValue(s[..|s| - 1]) + (s[|s| - 1] as int - '0' as int)
  }

  /** str(n) for n >= 0: the shortest decimal text of n, which reads back as n. */
  function NatText(n: nat): (s: string)
    ensures 1 <= |s| && AllDigits(s)
    ensures DigitsValue(s) == n
    ensures |s| > 1 ==> s[0] != '0'
    decreases n
  {
    if n < 10 then [DigitChar(n)]
    else
      var t := NatText(n / 10);
      assert (t + [DigitChar(n % 10)])[..|t|] == t;
      t + [DigitChar(n % 10)]
  }

  /** str(x): a minus sign for negative numbers, then the digits of |x|. */
  function IntText(x: int): (s: string)
    ensures 1 <= |s|
    ensures s[0] == '-' <==> x < 0
    ensures AllDigits(s[1..]) && (x >= 0 ==> AllDigits(s))
  {
    if x < 0 then "-" + NatText(-x) else NatText(x)
  }

  function Spaces(k: nat): (s: string)
    ensures |s| == k && AllSeparators(s)
  {
    seq(k, _ => ' ')
  }

  /** format(x, "6d")-style right alignment: t padded on the left to width w. */
  function PadLeft(t: string, w: nat): (s: string)
    ensures |s| == if |t| < w then w else |t|
    ensures s[|s| - |t|..] == t && AllSeparators(s[..|s| - |t|])
  {
    var pad := Spaces(if |t| < w then w - |t| else 0);
    assert (pad + t)[..|pad|] == pad;
    pad + t
  }

  /** Length of the run of digits at the start of s. */
  function DigitRun(s: string): (n: nat)
    ensures n <= |s| && AllDigits(s[..n])
    ensures n < |s| ==> !IsDigit(s[n])
  {
    if s == [] || !IsDigit(s[0]) then 0
    else
      var m := DigitRun(s[1..]);
      assert s[..1 + m] == [s[0]] + s[1..][..m];
      1 + m
  }

  /**
   * The signed decimal integers in s, in order: a maximal run of digits is a
   * number, a minus sign right before a run negates it, everything else
   * separates.
   */
  function Scan(s: string): (r: seq<int>)
    ensures |r| <= |s|
    decreases |s|
  {
    if s == [] then []
    else if IsDigit(s[0]) then
      var n := DigitRun(s);
      [DigitsValue(s[..n])] + Scan(s[n..])
    else if s[0] == '-' && |s| >= 2 && IsDigit(s[1]) then NegateFirst(Scan(s[1..]))
    else Scan(s[1..])
  }

  /** The numbers with the first one negated. */
  function NegateFirst(r: seq<int>): (q: seq<int>)
    ensures |q| == |r|
    ensures r != [] ==> q[0] == -r[0] && q[1..] == r[1..]
  {
    if r == [] then [] else [-r[0]] + r[1..]
  }

  /** Separators in front of a text add no numbers to it. */
  lemma {:induction false} ScanSkip(p: string, rest: string)
    requires AllSeparators(p)
    ensures Scan(p + rest) == Scan(rest)
  {
    if p != [] {
      var s := p + rest;
      assert s[0] == p[0] && IsSeparator(s[0]);
      assert s[1..] == p[1..] + rest;
      ScanSkip(p[1..], rest);
      assert Scan(s) == Scan(s[1..]);
    } else {
      assert p + rest == rest;
    }
  }

  /** A run of digits followed by a non-digit ends exactly where the digits do. */
  lemma {:induction false} DigitRunOf(t: string, rest: string)
    requires AllDigits(t)
    requires rest == [] || !IsDigit(rest[0])
    ensures DigitRun(t + rest) == |t|
  {
    if t != [] {
      assert (t + rest)[1..] == t[1..] + rest;
      DigitRunOf(t[1..], rest);
    }
  }

  /** One step of Scan at a run of digits. */
  lemma ScanDigits(s: string)
    requires s != [] && IsDigit(s[0])
    ensures Scan(s) == [DigitsValue(s[..DigitRun(s)])] + Scan(s[DigitRun(s)..])
  {
  }

  /** One step of Scan at a minus sign in front of a run of digits. */
  lemma ScanMinus(u: string)
    requires u != [] && IsDigit(u[0])
    ensures Scan(['-'] + u) == NegateFirst(Scan(u))
  {
    var s := ['-'] + u;
    assert s[0] == '-' && s[1..] == u && s[1] == u[0];
  }



  /** A run of digits followed by a non-digit scans to the number it denotes. */
  lemma ScanRun(t: string, rest: string)
    requires t != [] && AllDigits(t)
    requires rest == [] || !IsDigit(rest[0])
    ensures Scan(t + rest) == [DigitsValue(t) as int] + Scan(rest)
  {
    var s := t + rest;
    assert s[0] == t[0];
    assert DigitRun(s) == |t| by {
      DigitRunOf(t, rest);
    }
    assert s[..|t|] == t && s[|t|..] == rest;
    ScanDigits(s);
  }

  /** A minus sign, then a run of digits followed by a non-digit, scans to the negated number. */
  lemma ScanMinusRun(t: string, rest: string)
    requires t != [] && AllDigits(t)
    requires rest == [] || !IsDigit(rest[0])
    ensures Scan(['-'] + (t + rest)) == [-(DigitsValue(t) as int)] + Scan(rest)
  {
    var u := t + rest;
    assert Scan(['-'] + u) == NegateFirst(Scan(u)) by {
      assert u[0] == t[0];
      ScanMinus(u);
    }
    assert Scan(u) == [DigitsValue(t) as int] + Scan(rest) by {
      ScanRun(t, rest);
    }
    NegateFirstCons(DigitsValue(t), Scan(rest));
  }

  lemma NegateFirstCons(v: int, r: seq<int>)
    ensures NegateFirst([v] + r) == [-v] + r
  {
    assert ([v] + r)[1..] == r;
  }



  /** str(n) followed by a non-digit scans back to n. */
  lemma ScanNat(n: nat, rest: string)
    requires rest == [] || !IsDigit(rest[0])
    ensures Scan(NatText(n) + rest) == [n] + Scan(rest)
  {
    ScanRun(NatText(n), rest);
  }

  /** str(x) followed by a non-digit scans back to x. */
  lemma ScanInt(x: int, rest: string)
    requires rest == [] || !IsDigit(rest[0])
    ensures Scan(IntText(x) + rest) == [x] + Scan(rest)
  {
    if x < 0 {
      var t := NatText(-x);
      assert IntText(x) == ['-'] + t;
      AppendAssoc(['-'], t, rest);
      ScanMinusRun(t, rest);
    } else {
      ScanNat(x, rest);
    }
  }

  /** A text of separators holds no number. */
  lemma ScanSeparators(p: string)
    requires AllSeparators(p)
    ensures Scan(p) == []
  {
    ScanSkip(p, []);
    assert p + [] == p;
  }

  /** A minus sign that no digit follows separates like any other character. */
  lemma ScanLoneMinus(rest: string)
    requires rest == [] || !IsDigit(rest[0])
    ensures Scan(['-'] + rest) == Scan(rest)
  {
    var s := ['-'] + rest;
    assert s[1..] == rest;
  }

  /** A run of digits ends at a non-digit that follows it. */
  lemma {:induction false} DigitRunConcat(a: string, b: string)
    requires b == [] || !IsDigit(b[0])
    ensures DigitRun(a + b) == DigitRun(a)
    decreases |a|
  {
    if a == [] {
      assert a + b == b;
    } else if IsDigit(a[0]) {
      assert (a + b)[0] == a[0] && (a + b)[1..] == a[1..] + b;
      DigitRunConcat(a[1..], b);
    } else {
      assert (a + b)[0] == a[0];
    }
  }

  lemma NegateFirstConcat(x: seq<int>, y: seq<int>)
    requires x != []
    ensures NegateFirst(x + y) == NegateFirst(x) + y
  {
    assert (x + y)[0] == x[0] && (x + y)[1..] == x[1..] + y;
    AppendAssoc([-x[0]], x[1..], y);
  }

  /**
   * Texts joined where the second starts with a separator scan to the numbers
   * of the first followed by those of the second: no number spans the joint.
   */
  lemma {:induction false} ScanConcat(a: string, b: string)
    requires b == [] || IsSeparator(b[0])
    ensures Scan(a + b) == Scan(a) + Scan(b)
    decreases |a|
  {
    var s := a + b;
    if a == [] {
      assert s == b;
    } else if IsDigit(a[0]) {
      var n := DigitRun(a);
      assert s[0] == a[0];
      assert DigitRun(s) == n by {
        DigitRunConcat(a, b);
      }
      assert s[..n] == a[..n] && s[n..] == a[n..] + b;
      ScanDigits(s);
      ScanDigits(a);
      ScanConcat(a[n..], b);
      AppendAssoc([DigitsValue(a[..n])], Scan(a[n..]), Scan(b));
    } else if a[0] == '-' && |a| >= 2 && IsDigit(a[1]) {
      assert s[0] == '-' && s[1] == a[1] && s[1..] == a[1..] + b;
      ScanConcat(a[1..], b);
      assert Scan(a[1..]) != [] by {
        ScanDigits(a[1..]);
      }
      NegateFirstConcat(Scan(a[1..]), Scan(b));
    } else {
      assert s[0] == a[0] && s[1..] == a[1..] + b;
      assert |a| >= 2 ==> s[1] == a[1];
      ScanConcat(a[1..], b);
    }
  }

  /** The same where the first text ends with a separator. */
  lemma ScanConcatAfter(a: string, b: string)
    requires a != [] && IsSeparator(a[|a| - 1])
    ensures Scan(a + b) == Scan(a) + Scan(b)
  {
    var init, last := a[..|a| - 1], [a[|a| - 1]];
    assert AllSeparators(last);
    assert a == init + last;
    assert Scan(a) == Scan(init) by {
      ScanConcat(init, last);
      ScanSeparators(last);
    }
    assert Scan(a + b) == Scan(init) + Scan(b) by {
      AppendAssoc(init, last, b);
      ScanConcat(init, last + b);
      ScanSkip(last, b);
    }
  }

  /** Concatenation regrouped; stated once so callers need not rely on extensionality. */
  lemma AppendAssoc<T>(a: seq<T>, b: seq<T>, c: seq<T>)
    ensures a + b + c == a + (b + c)
  {
  }

  /** A padded field followed by a non-digit scans back to its number. */
  lemma ScanPadded(x: int, w: nat, rest: string)
    requires rest == [] || !IsDigit(rest[0])
    ensures Scan(PadLeft(IntText(x), w) + rest) == [x] + Scan(rest)
  {
    var t := IntText(x);
    var pad := Spaces(if |t| < w then w - |t| else 0);
    assert PadLeft(t, w) == pad + t;
    AppendAssoc(pad, t, rest);
    ScanSkip(pad, t + rest);
    ScanInt(x, rest);
  }
}

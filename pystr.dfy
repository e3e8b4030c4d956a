/**
  The few Python `str` operations the core relies on, on code points:
  `split` with an explicit separator, `split(sep, maxsplit=1)`, `rsplit(sep, maxsplit=1)[-1]`,
  `upper`, `strip`, and `int(s)` with CPython's limit on the number of digits, plus the
  decimal form `str(n)` writes.  Case mapping, whitespace and digits are the ASCII ones.
*/
module PyStr {
  import opened Wrappers

  // ---------------------------------------------------------------------------
  // split / join

  /** `sep.join(parts)` */
  function Join(parts: seq<string>, sep: char): string
  {
    if |parts| == 0 then ""
    else if |parts| == 1 then parts[0]
    else parts[0] + [sep] + Join(parts[1..], sep)
  }

  /** A character found in no part and other than the separator is not in the joined string. */
  lemma {:induction false} JoinAvoids(parts: seq<string>, sep: char, c: char)
    requires c != sep
    requires forall i | 0 <= i < |parts| :: c !in parts[i]
    ensures c !in Join(parts, sep)
    decreases |parts|
  {
    if |parts| > 1 {
      JoinAvoids(parts[1..], sep, c);
      assert parts[1..][0] == parts[1];
    }
  }

  /** `s.split(sep)` for a one-character separator: never empty, consecutive separators give empty parts. */
  function Split(s: string, sep: char): (parts: seq<string>)
    ensures |parts| >= 1
    ensures forall i | 0 <= i < |parts| :: sep !in parts[i]
    ensures Join(parts, sep) == s
    decreases |s|
  {
    if s == [] then [""]
    else
      var rest := Split(s[1..], sep);
      if s[0] == sep then
        assert ([""] + rest)[1..] == rest;
        [""] + rest
      else
        var first := [s[0]] + rest[0];
        var parts := [first] + rest[1..];
        assert parts[1..] == rest[1..];
        assert |rest| > 1 ==> Join(rest, sep) == rest[0] + [sep] + Join(rest[1..], sep);
        assert |rest| > 1 ==> Join(parts, sep) == first + [sep] + Join(rest[1..], sep);
        assert s == [s[0]] + s[1..];
        parts
  }

  /** A separator-free string is its own single part. */
  lemma {:induction false} SplitWithoutSeparator(s: string, sep: char)
    requires sep !in s
    ensures Split(s, sep) == [s]
    decreases |s|
  {
    if s != [] {
      SplitWithoutSeparator(s[1..], sep);
    }
  }

  /** Splitting `a + sep + b` with a separator-free `a` yields `a` followed by the parts of `b`. */
  lemma {:induction false} SplitAfterFirstSeparator(a: string, b: string, sep: char)
    requires sep !in a
    ensures Split(a + [sep] + b, sep) == [a] + Split(b, sep)
    decreases |a|
  {
    var s := a + [sep] + b;
    if a == [] {
      assert s[1..] == b;
    } else {
      assert s[1..] == a[1..] + [sep] + b;
      SplitAfterFirstSeparator(a[1..], b, sep);
      assert [a[0]] + a[1..] == a;
    }
  }

  /** `split` inverts `join` on parts that do not contain the separator. */
  lemma {:induction false} SplitJoin(parts: seq<string>, sep: char)
    requires |parts| >= 1
    requires forall i | 0 <= i < |parts| :: sep !in parts[i]
    ensures Split(Join(parts, sep), sep) == parts
    decreases |parts|
  {
    if |parts| == 1 {
      SplitWithoutSeparator(parts[0], sep);
    } else {
      SplitJoin(parts[1..], sep);
      SplitAfterFirstSeparator(parts[0], Join(parts[1..], sep), sep);
      assert [parts[0]] + parts[1..] == parts;
    }
  }

  // ---------------------------------------------------------------------------
  // split(sep, maxsplit=1) and rsplit(sep, maxsplit=1)[-1]

  /** The index of the first occurrence of `c` in `s`. */
  function IndexOf(s: string, c: char): (i: nat)
    requires c in s
    ensures i < |s| && s[i] == c && c !in s[..i]
  {
    if s[0] == c then 0
    else
      var j := IndexOf(s[1..], c);
      assert s[..j + 1] == [s[0]] + s[1..][..j];
      j + 1
  }

  /**
    `s.split(c, maxsplit=1)` unpacked into two names: the text before the first `c` and
    everything after it, or None when the split yields a single piece (the unpacking fails).
  */
  function SplitOnce(s: string, c: char): (r: Option<(string, string)>)
    ensures r.None? <==> c !in s
    ensures r.Some? ==> s == r.value.0 + [c] + r.value.1 && c !in r.value.0
  {
    if c in s then
      var i := IndexOf(s, c);
      assert s == s[..i] + [c] + s[i + 1..];
      Some((s[..i], s[i + 1..]))
    else None
  }

  /** Splitting `a + c + b` once at `c`, with a `c`-free `a`, gives back `a` and `b`. */
  lemma SplitOnceOf(a: string, b: string, c: char)
    requires c !in a
    ensures SplitOnce(a + [c] + b, c) == Some((a, b))
  {
    var s := a + [c] + b;
    assert s[|a|] == c;
    assert s[..|a|] == a && s[|a| + 1..] == b;
  }

  /**
    `s.rsplit(c, maxsplit=1)[-1]`: the suffix after the last `c`, or all of `s` when it holds no `c`.
  */
  function LastSegment(s: string, c: char): (r: string)
    ensures c !in r
    decreases |s|
  {
    if s == [] || s[|s| - 1] == c then ""
    else LastSegment(s[..|s| - 1], c) + [s[|s| - 1]]
  }

  /** The last segment is a suffix of `s`, and it is either all of `s` or preceded by a `c`. */
  lemma {:induction false} LastSegmentIsSuffix(s: string, c: char)
    ensures |LastSegment(s, c)| <= |s|
    ensures LastSegment(s, c) == s[|s| - |LastSegment(s, c)|..]
    ensures |LastSegment(s, c)| < |s| ==> s[|s| - |LastSegment(s, c)| - 1] == c
    decreases |s|
  {
    if s != [] && s[|s| - 1] != c {
      var init := s[..|s| - 1];
      LastSegmentIsSuffix(init, c);
      var r0 := LastSegment(init, c);
      assert LastSegment(s, c) == r0 + [s[|s| - 1]];
      assert s[|init| - |r0|..] == init[|init| - |r0|..] + [s[|s| - 1]];
      if |r0| < |init| {
        assert s[|init| - |r0| - 1] == init[|init| - |r0| - 1];
      }
    }
  }

  /** Whatever precedes a separator does not reach the last segment. */
  lemma {:induction false} LastSegmentAfterSeparator(a: string, b: string, c: char)
    requires |a| > 0 && a[|a| - 1] == c
    ensures LastSegment(a + b, c) == LastSegment(b, c)
    decreases |b|
  {
    var s := a + b;
    if b == [] {
      assert s == a;
    } else {
      var x := b[|b| - 1];
      assert s[|s| - 1] == x;
      if x != c {
        assert s[..|s| - 1] == a + b[..|b| - 1];
        LastSegmentAfterSeparator(a, b[..|b| - 1], c);
      }
    }
  }

  // ---------------------------------------------------------------------------
  // upper

  function UpperChar(ch: char): char
  {
    if 'a' <= ch <= 'z' then (ch as int - 32) as char else ch
  }

  /** `s.upper()`, ASCII letters only. */
  function Upper(s: string): (r: string)
    ensures |r| == |s|
    ensures forall i | 0 <= i < |s| :: r[i] == UpperChar(s[i])
  {
    if s == [] then "" else [UpperChar(s[0])] + Upper(s[1..])
  }

  // ---------------------------------------------------------------------------
  // int(s) and str(n)

  /** The ASCII characters Python treats as whitespace: space, \t \n \v \f \r and \x1c-\x1f. */
  predicate IsSpace(ch: char)
  {
    ch == ' ' || 9 <= ch as int <= 13 || 28 <= ch as int <= 31
  }

  /** `s.lstrip()` */
  function LStrip(s: string): (r: string)
    ensures r == [] || !IsSpace(r[0])
  {
    if s != [] && IsSpace(s[0]) then LStrip(s[1..]) else s
  }

  /** `s.rstrip()` */
  function RStrip(s: string): (r: string)
    ensures r == [] || !IsSpace(r[|r| - 1])
  {
    if s != [] && IsSpace(s[|s| - 1]) then RStrip(s[..|s| - 1]) else s
  }

  /** `s.strip()` */
  function Strip(s: string): string
  {
    RStrip(LStrip(s))
  }

  predicate IsDigit(ch: char)
  {
    '0' <= ch <= '9'
  }

  /**
    The digits of a base-10 `int()` literal: at least one digit, and every underscore
    stands between two digits.
  */
  predicate IsDigitRun(s: string)
    decreases |s|
  {
    && |s| > 0
    && IsDigit(s[0])
    && (|s| == 1 || (if s[1] == '_' then IsDigitRun(s[2..]) else IsDigitRun(s[1..])))
  }

  /** A non-empty string of digits alone is a digit run. */
  lemma {:induction false} DigitsAreDigitRun(s: string)
    requires |s| > 0 && forall i | 0 <= i < |s| :: IsDigit(s[i])
    ensures IsDigitRun(s)
    decreases |s|
  {
    if |s| > 1 {
      DigitsAreDigitRun(s[1..]);
    }
  }

  /** The value of the digits of `s`, read left to right; underscores are skipped. */
  function DigitsValue(s: string): nat
  {
    if s == [] then 0
    else if IsDigit(s[|s| - 1]) then 10 * DigitsValue(s[..|s| - 1]) + (s[|s| - 1] as int - '0' as int)
    else DigitsValue(s[..|s| - 1])
  }

  /** The number of digits in `s`; underscores are not counted. */
  function DigitCount(s: string): nat
  {
    if s == [] then 0
    else DigitCount(s[..|s| - 1]) + (if IsDigit(s[|s| - 1]) then 1 else 0)
  }

  /** A string of digits alone has as many digits as characters. */
  lemma {:induction false} DigitCountOfDigits(s: string)
    requires forall i | 0 <= i < |s| :: IsDigit(s[i])
    ensures DigitCount(s) == |s|
    decreases |s|
  {
    if s != [] {
      DigitCountOfDigits(s[..|s| - 1]);
    }
  }

  /**
    `sys.int_info.default_max_str_digits`: since Python 3.11, `int(s)` of a decimal literal
    with more digits raises ValueError, and so does `str(n)` of an `n` with more digits.
  */
  const MaxStrDigits: nat := 4300

  /**
    `int(s)`: surrounding whitespace is ignored, one optional sign, then a digit run of at
    most `MaxStrDigits` digits; None where Python raises ValueError.
  */
  function ParseInt(s: string): Option<int>
  {
    var t := Strip(s);
    if |t| > 0 && (t[0] == '+' || t[0] == '-') then
      var magnitude: int := DigitsValue(t[1..]);
      if IsDigitRun(t[1..]) && DigitCount(t[1..]) <= MaxStrDigits then Some(if t[0] == '-' then -magnitude else magnitude)
      else None
    else if IsDigitRun(t) && DigitCount(t) <= MaxStrDigits then Some(DigitsValue(t))
    else None
  }

  function DigitChar(d: nat): (ch: char)
    requires d < 10
    ensures IsDigit(ch) && ch as int - '0' as int == d
  {
    ('0' as int + d) as char
  }

  /**
    The decimal digits of a non-negative `n`, no leading zero: what `str(n)` returns when
    there are at most `MaxStrDigits` of them.
  */
  function NatToString(n: nat): (s: string)
    ensures |s| >= 1
    ensures forall i | 0 <= i < |s| :: IsDigit(s[i])
    decreases n
  {
    if n < 10 then [DigitChar(n)] else NatToString(n / 10) + [DigitChar(n % 10)]
  }

  /** The decimal form of `n`, with a minus sign when it is negative. */
  function IntToString(n: int): string
  {
    if n < 0 then "-" + NatToString(-n) else NatToString(n)
  }

  lemma {:induction false} DigitsValueOfNatToString(n: nat)
    ensures DigitsValue(NatToString(n)) == n
    decreases n
  {
    var s := NatToString(n);
    if n >= 10 {
      DigitsValueOfNatToString(n / 10);
      assert s[..|s| - 1] == NatToString(n / 10);
    }
  }

  lemma StripWithoutOuterSpace(t: string)
    requires |t| > 0 && !IsSpace(t[0]) && !IsSpace(t[|t| - 1])
    ensures Strip(t) == t
  {
    assert LStrip(t) == t;
  }

  /** A digit run begins and ends with a digit. */
  lemma {:induction false} DigitRunEnds(s: string)
    requires IsDigitRun(s)
    ensures IsDigit(s[0]) && IsDigit(s[|s| - 1])
    decreases |s|
  {
    if |s| > 1 {
      var rest := if s[1] == '_' then s[2..] else s[1..];
      DigitRunEnds(rest);
      assert rest[|rest| - 1] == s[|s| - 1];
    }
  }

  /** A digit run parses back to the value of its digits, unless it has more than `MaxStrDigits` digits. */
  lemma ParseIntOfDigits(d: string)
    requires IsDigitRun(d)
    ensures ParseInt(d) == if DigitCount(d) <= MaxStrDigits then Some(DigitsValue(d)) else None
  {
    DigitRunEnds(d);
    StripWithoutOuterSpace(d);
  }

  /** A minus sign before a digit run negates the value of the digits, unless it has more than `MaxStrDigits` digits. */
  lemma ParseIntOfNegatedDigits(d: string)
    requires IsDigitRun(d)
    ensures ParseInt("-" + d) == if DigitCount(d) <= MaxStrDigits then Some(-(DigitsValue(d) as int)) else None
  {
    DigitRunEnds(d);
    var t := "-" + d;
    assert t[1..] == d;
    assert t[|t| - 1] == d[|d| - 1];
    StripWithoutOuterSpace(t);
  }

  /** The number of digits of `n`, its sign not counted. */
  function DigitLength(n: int): nat
  {
    |NatToString(if n < 0 then -n else n)|
  }

  /**
    `int(str(n)) == n` for every integer `n` of at most `MaxStrDigits` digits; past that,
    `int()` of its decimal form raises ValueError.
  */
  lemma ParseIntOfIntToString(n: int)
    ensures ParseInt(IntToString(n)) == if DigitLength(n) <= MaxStrDigits then Some(n) else None
  {
    var m: nat := if n < 0 then -n else n;
    var digits := NatToString(m);
    DigitsValueOfNatToString(m);
    DigitsAreDigitRun(digits);
    DigitCountOfDigits(digits);
    if n < 0 {
      ParseIntOfNegatedDigits(digits);
    } else {
      ParseIntOfDigits(digits);
    }
  }
}

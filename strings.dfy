/** The two library string conversions the notifier relies on: the decimal
    form of a long (Long.toString) and joining lines with "\n"
    (StringUtils.join), each with the inverse that recovers its input. */
module Strings {

  predicate IsDigit(c: char)
  {
    '0' <= c <= '9'
  }

  function DigitChar(d: nat): (c: char)
    requires d < 10
    ensures IsDigit(c) && c as int - '0' as int == d
  {
    "0123456789"[d]
  }

  /** The decimal digits of a natural number, most significant first. */
  function NatDigits(n: nat): (s: string)
    ensures |s| >= 1
    ensures forall j :: 0 <= j < |s| ==> IsDigit(s[j])
    ensures |s| == 1 || s[0] != '0'
    ensures n == 0 <==> s == "0"
    decreases n
  {
    if n < 10 then [DigitChar(n)] else NatDigits(n / 10) + [DigitChar(n % 10)]
  }

  /** Long.toString: an optional minus sign and the digits of the magnitude. */
  function DecimalString(n: int): (s: string)
    ensures n < 0 <==> |s| >= 2 && s[0] == '-'
  {
    if n < 0 then "-" + NatDigits(-n) else NatDigits(n)
  }

  /** The value of a string of decimal digits. */
  function DigitsValue(s: string): nat
    decreases |s|
  {
    if |s| == 0 then 0
    else DigitsValue(s[..|s| - 1]) * 10 + (if IsDigit(s[|s| - 1]) then s[|s| - 1] as int - '0' as int else 0)
  }

  /** Long.parseLong on the strings DecimalString produces. */
  function ParseDecimal(s: string): int
  {
    if |s| >= 1 && s[0] == '-' then -(DigitsValue(s[1..]) as int) else DigitsValue(s)
  }

  lemma {:induction false} NatDigitsRoundTrip(n: nat)
    ensures DigitsValue(NatDigits(n)) == n
    decreases n
  {
    if n >= 10 {
      NatDigitsRoundTrip(n / 10);
      var s := NatDigits(n / 10) + [DigitChar(n % 10)];
      assert s[..|s| - 1] == NatDigits(n / 10);
    }
  }

  /** The duration written into the payload reads back as the same number. */
  lemma DecimalRoundTrip(n: int)
    ensures ParseDecimal(DecimalString(n)) == n
  {
    if n < 0 {
      NatDigitsRoundTrip(-n);
      assert DecimalString(n)[1..] == NatDigits(-n);
    } else {
      NatDigitsRoundTrip(n);
    }
  }

  /** StringUtils.join(paths, "\n"): "" for no paths. */
  function JoinLines(paths: seq<string>): string
    decreases |paths|
  {
    if |paths| == 0 then ""
    else if |paths| == 1 then paths[0]
    else paths[0] + "\n" + JoinLines(paths[1..])
  }

  /** Splitting at every "\n", keeping empty pieces. */
  function SplitLines(s: string): (lines: seq<string>)
    ensures |lines| >= 1
    decreases |s|
  {
    if |s| == 0 then [""]
    else
      var rest := SplitLines(s[1..]);
      if s[0] == '\n' then [""] + rest else [[s[0]] + rest[0]] + rest[1..]
  }

  predicate NoNewline(s: string)
  {
    forall j :: 0 <= j < |s| ==> s[j] != '\n'
  }

  lemma {:induction false} SplitAfterLine(a: string, b: string)
    requires NoNewline(a)
    ensures SplitLines(a + b) == [a + SplitLines(b)[0]] + SplitLines(b)[1..]
    decreases |a|
  {
    if |a| == 0 {
      assert a + b == b;
      assert a + SplitLines(b)[0] == SplitLines(b)[0];
      assert [SplitLines(b)[0]] + SplitLines(b)[1..] == SplitLines(b);
    } else {
      assert (a + b)[1..] == a[1..] + b;
      SplitAfterLine(a[1..], b);
      assert [a[0]] + (a[1..] + SplitLines(b)[0]) == a + SplitLines(b)[0];
    }
  }

  /** Joined paths that hold no newline themselves split back into the same
      list; so the joined text has one line per artifact. */
  lemma {:induction false} SplitJoinRoundTrip(paths: seq<string>)
    requires |paths| >= 1
    requires forall k :: 0 <= k < |paths| ==> NoNewline(paths[k])
    ensures SplitLines(JoinLines(paths)) == paths
    decreases |paths|
  {
    if |paths| == 1 {
      SplitAfterLine(paths[0], "");
      assert paths[0] + "" == paths[0];
    } else {
      var rest := JoinLines(paths[1..]);
      SplitJoinRoundTrip(paths[1..]);
      assert paths[0] + "\n" + rest == paths[0] + ("\n" + rest);
      SplitAfterLine(paths[0], "\n" + rest);
      assert ("\n" + rest)[0] == '\n' && ("\n" + rest)[1..] == rest;
      assert SplitLines("\n" + rest) == [""] + SplitLines(rest);
      assert paths[0] + "" == paths[0];
      assert paths == [paths[0]] + paths[1..];
    }
  }
}

/**
 * Strings as the Java code builds them: decimal rendering of `int`s, the
 * single-space join used to assemble a command line, and the single-space
 * split the container library applies when a command is given as one string.
 */
module Text {

  /** JUnit's `StringUtils.isBlank`: `trim()` removes every character up to U+0020. */
  predicate IsBlank(s: string)
  {
    forall i :: 0 <= i < |s| ==> s[i] <= ' '
  }

  /** `String.trim()` from the front: drops every leading character up to U+0020. */
  function TrimStart(s: string): (r: string)
    ensures |r| <= |s| && r == s[|s| - |r|..]
    ensures r != [] ==> r[0] > ' '
    decreases |s|
  {
    if s != [] && s[0] <= ' ' then TrimStart(s[1..]) else s
  }

  /** `String.trim()` from the back: drops every trailing character up to U+0020. */
  function TrimEnd(s: string): (r: string)
    ensures |r| <= |s| && r == s[..|r|]
    ensures r != [] ==> r[|r| - 1] > ' '
    decreases |s|
  {
    if s != [] && s[|s| - 1] <= ' ' then TrimEnd(s[..|s| - 1]) else s
  }

  /** `String.trim()`: both ends. */
  function Trim(s: string): string
  {
    TrimEnd(TrimStart(s))
  }

  /** `isBlank(s)` is `s.trim().isEmpty()`: a string is blank exactly when trimming leaves nothing. */
  lemma {:induction false} IsBlankIffTrimEmpty(s: string)
    ensures IsBlank(s) <==> Trim(s) == []
    decreases |s|
  {
    if s != [] && s[0] <= ' ' {
      IsBlankIffTrimEmpty(s[1..]);
      assert IsBlank(s) <==> IsBlank(s[1..]) by {
        if IsBlank(s[1..]) {
          forall i | 0 <= i < |s|
            ensures s[i] <= ' '
          {
            if i > 0 {
              assert s[i] == s[1..][i - 1];
            }
          }
        }
      }
    } else if s != [] {
      assert !IsBlank(s);
      var t := TrimStart(s);
      assert t == s;
      assert TrimEnd(t) != [] by {
        TrimEndKeepsNonBlankHead(t);
      }
    }
  }

  /** A string whose first character is not blank keeps it through `TrimEnd`. */
  lemma {:induction false} TrimEndKeepsNonBlankHead(s: string)
    requires s != [] && s[0] > ' '
    ensures TrimEnd(s) != []
    decreases |s|
  {
    if s[|s| - 1] <= ' ' {
      assert |s| > 1;
      TrimEndKeepsNonBlankHead(s[..|s| - 1]);
    }
  }

  predicate SpaceFree(s: string)
  {
    ' ' !in s
  }

  predicate AllSpaceFree(ts: seq<string>)
  {
    forall i :: 0 <= i < |ts| ==> SpaceFree(ts[i])
  }

  predicate IsDigit(c: char)
  {
    '0' <= c <= '9'
  }

  function DigitChar(d: nat): (c: char)
    requires d < 10
    ensures IsDigit(c)
    ensures c as int - '0' as int == d
  {
    ('0' as int + d) as char
  }

  /** Decimal digits of `n`, most significant first, without leading zeros. */
  function NatToString(n: nat): (r: string)
    ensures 1 <= |r|
    ensures forall i :: 0 <= i < |r| ==> IsDigit(r[i])
    ensures n < 10 <==> |r| == 1
    decreases n
  {
    if n < 10 then [DigitChar(n)] else NatToString(n / 10) + [DigitChar(n % 10)]
  }

  /** `Integer.toString`: a minus sign before the digits of a negative number. */
  function IntToString(n: int): (r: string)
    ensures SpaceFree(r)
    ensures 1 <= |r|
    ensures n >= 0 ==> forall i :: 0 <= i < |r| ==> IsDigit(r[i])
    ensures n < 0 ==> r[0] == '-'
    ensures forall i :: 0 <= i < |r| ==> IsDigit(r[i]) || r[i] == '-'
  {
    if n < 0 then "-" + NatToString(-n) else NatToString(n)
  }

  /** The number a string of decimal digits stands for, most significant digit first. */
  function DigitsValue(s: string): int
    decreases |s|
  {
    if s == [] then 0 else DigitsValue(s[..|s| - 1]) * 10 + (s[|s| - 1] as int - '0' as int)
  }

  /** The number `Integer.parseInt` reads from a decimal string with an optional leading minus. */
  function DecimalValue(s: string): int
  {
    if s != [] && s[0] == '-' then -DigitsValue(s[1..]) else DigitsValue(s)
  }

  /** The digits of `n` stand for `n`. */
  lemma {:induction false} NatValue(n: nat)
    ensures DigitsValue(NatToString(n)) == n
    decreases n
  {
    if n >= 10 {
      var s := NatToString(n);
      NatValue(n / 10);
      assert s[..|s| - 1] == NatToString(n / 10);
    }
  }

  /** `Integer.toString(n)` reads back as `n`, and a negative number is a minus sign before the digits of its magnitude. */
  lemma IntValue(n: int)
    ensures DecimalValue(IntToString(n)) == n
    ensures n < 0 ==> IntToString(n) == "-" + NatToString(-n)
    ensures n >= 0 ==> IntToString(n) == NatToString(n)
  {
    if n < 0 {
      NatValue(-n);
      assert IntToString(n)[1..] == NatToString(-n);
    } else {
      NatValue(n);
      assert IsDigit(NatToString(n)[0]);
    }
  }

  lemma {:induction false} NatToStringInjective(a: nat, b: nat)
    requires NatToString(a) == NatToString(b)
    ensures a == b
    decreases a
  {
    var s := NatToString(a);
    if a >= 10 {
      assert b >= 10;
      assert s[|s| - 1] == DigitChar(a % 10) == DigitChar(b % 10);
      assert s[..|s| - 1] == NatToString(a / 10);
      assert s[..|s| - 1] == NatToString(b / 10);
      NatToStringInjective(a / 10, b / 10);
    } else {
      assert b < 10;
      assert s[0] == DigitChar(a) == DigitChar(b);
    }
  }

  /** Distinct numbers print differently, so numbered aliases never collide. */
  lemma IntToStringInjective(a: int, b: int)
    requires IntToString(a) == IntToString(b)
    ensures a == b
  {
    var s := IntToString(a);
    if a < 0 {
      assert s[0] == '-';
      assert b < 0;
      assert s[1..] == NatToString(-a) == NatToString(-b);
      NatToStringInjective(-a, -b);
    } else {
      assert IsDigit(s[0]);
      assert b >= 0;
      NatToStringInjective(a, b);
    }
  }

  /** The arguments separated by single spaces (`reduce((a, b) -> a + " " + b)`, `StringJoiner(" ")`). */
  function Join(ts: seq<string>): string
  {
    if |ts| == 0 then ""
    else if |ts| == 1 then ts[0]
    else ts[0] + " " + Join(ts[1..])
  }

  /** Position of the first space, or `|s|` when there is none. */
  function IndexOfSpace(s: string): (k: nat)
    ensures k <= |s|
    ensures forall i :: 0 <= i < k ==> s[i] != ' '
    ensures k < |s| ==> s[k] == ' '
  {
    if |s| == 0 || s[0] == ' ' then 0 else 1 + IndexOfSpace(s[1..])
  }

  /**
   * The pieces of `s` between single spaces, as the container library stores a
   * command given as one string. Every piece is space free and there is always
   * at least one. Java's `String.split(" ")` also drops trailing empty pieces
   * (`"a ".split(" ")` is `["a"]` and `" ".split(" ")` is empty); this split
   * keeps them. The two agree on every string that does not end in a space,
   * which covers every command built here.
   */
  function Split(s: string): (r: seq<string>)
    ensures 1 <= |r|
    ensures AllSpaceFree(r)
    decreases |s|
  {
    var k := IndexOfSpace(s);
    if k == |s| then [s] else [s[..k]] + Split(s[k + 1..])
  }

  lemma FirstSpaceAfterToken(t: string, rest: string)
    requires SpaceFree(t)
    ensures IndexOfSpace(t + " " + rest) == |t|
  {
    var s := t + " " + rest;
    var k := IndexOfSpace(s);
    assert s[|t|] == ' ';
    assert forall i :: 0 <= i < |t| ==> s[i] == t[i];
  }

  /** Splitting a joined command line gives back the arguments it was joined from. */
  lemma {:induction false} SplitJoin(ts: seq<string>)
    requires ts != []
    requires AllSpaceFree(ts)
    ensures Split(Join(ts)) == ts
    decreases |ts|
  {
    if |ts| == 1 {
      var k := IndexOfSpace(ts[0]);
      assert SpaceFree(ts[0]);
      if k < |ts[0]| {
        assert ts[0][k] == ' ';
      }
    } else {
      var s := Join(ts);
      assert SpaceFree(ts[0]);
      FirstSpaceAfterToken(ts[0], Join(ts[1..]));
      var k := |ts[0]|;
      assert s[..k] == ts[0];
      assert s[k + 1..] == Join(ts[1..]);
      SplitJoin(ts[1..]);
      assert Split(s) == [ts[0]] + ts[1..];
    }
  }

  /** Joining the pieces of a split string gives back the string. */
  lemma {:induction false} JoinSplit(s: string)
    ensures Join(Split(s)) == s
    decreases |s|
  {
    var k := IndexOfSpace(s);
    if k < |s| {
      var rest := Split(s[k + 1..]);
      JoinSplit(s[k + 1..]);
      var parts := [s[..k]] + rest;
      assert Split(s) == parts;
      assert |parts| >= 2 && parts[0] == s[..k] && parts[1..] == rest;
      assert Join(parts) == s[..k] + " " + Join(rest);
      AroundSpace(s, k);
    }
  }

  /** A string is the part before a space, the space, and the part after it. */
  lemma AroundSpace(s: string, k: int)
    requires 0 <= k < |s| && s[k] == ' '
    ensures s[..k] + " " + s[k + 1..] == s
  {
    assert s == s[..k] + [s[k]] + s[k + 1..];
  }

  /** Joining two non-empty argument lists is joining their joins. */
  lemma {:induction false} JoinAppend(xs: seq<string>, ys: seq<string>)
    requires xs != [] && ys != []
    ensures Join(xs + ys) == Join(xs) + " " + Join(ys)
    decreases |xs|
  {
    assert (xs + ys)[0] == xs[0];
    if |xs| == 1 {
      assert (xs + ys)[1..] == ys;
    } else {
      assert (xs + ys)[1..] == xs[1..] + ys;
      JoinAppend(xs[1..], ys);
    }
  }

  lemma AllSpaceFreeAppend(xs: seq<string>, ys: seq<string>)
    requires AllSpaceFree(xs) && AllSpaceFree(ys)
    ensures AllSpaceFree(xs + ys)
  {
    forall i | 0 <= i < |xs + ys|
      ensures SpaceFree((xs + ys)[i])
    {
      if i >= |xs| {
        assert (xs + ys)[i] == ys[i - |xs|];
      }
    }
  }
}

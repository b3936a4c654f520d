/**
 * The few pieces of `java.lang.String`, `java.lang.Long` and Apache
 * commons-lang `StringUtils` that the gateways rely on, stated on `seq<char>`.
 */
module JavaText {
  import opened Wrappers

  /** `s.startsWith(prefix)`; every string starts with "". */
  predicate StartsWith(s: string, prefix: string)
  {
    prefix <= s
  }

  /** `s.endsWith(suffix)`. */
  predicate EndsWith(s: string, suffix: string)
  {
    |suffix| <= |s| && s[|s| - |suffix|..] == suffix
  }

  lemma StartsWithConcat(a: string, b: string)
    ensures StartsWith(a + b, a)
  {
    assert (a + b)[..|a|] == a;
  }

  /** Cutting a string no shorter than a prefix keeps the prefix. */
  lemma PrefixSurvivesCut(s: string, p: string, n: nat)
    requires StartsWith(s, p) && |p| <= n <= |s|
    ensures StartsWith(s[..n], p)
  {
    assert s[..n][..|p|] == s[..|p|];
  }

  /** The characters `String.trim()` removes: every code point up to U+0020. */
  predicate Trimmable(c: char)
  {
    c <= ' '
  }

  /** The leading half of `String.trim()`. */
  function TrimStart(s: string): (r: string)
    ensures |r| <= |s| && r == s[|s| - |r|..]
    ensures r == [] || !Trimmable(r[0])
    decreases |s|
  {
    if |s| > 0 && Trimmable(s[0]) then TrimStart(s[1..]) else s
  }

  /** The trailing half of `String.trim()`. */
  function TrimEnd(s: string): (r: string)
    ensures |r| <= |s| && r == s[..|r|]
    ensures r == [] || !Trimmable(r[|r| - 1])
    decreases |s|
  {
    if |s| > 0 && Trimmable(s[|s| - 1]) then TrimEnd(s[..|s| - 1]) else s
  }

  /** The trailing half of `trim()` never cuts into a non-trimmable character. */
  lemma {:induction false} TrimEndKeeps(s: string, k: nat)
    requires k < |s| && !Trimmable(s[k])
    ensures k < |TrimEnd(s)|
    decreases |s|
  {
    if Trimmable(s[|s| - 1]) {
      TrimEndKeeps(s[..|s| - 1], k);
    }
  }

  /** `s.trim()`: the longest infix of `s` that neither starts nor ends with a character up to U+0020. */
  function Trim(s: string): (r: string)
    ensures |r| <= |s|
    ensures r == [] || (!Trimmable(r[0]) && !Trimmable(r[|r| - 1]))
    ensures s == [] || (!Trimmable(s[0]) && !Trimmable(s[|s| - 1])) ==> r == s
  {
    TrimEnd(TrimStart(s))
  }

  /** The leading half of `trim()` removes only characters up to U+0020. */
  lemma {:induction false} TrimStartRemovesBlanks(s: string)
    ensures forall k :: 0 <= k < |s| - |TrimStart(s)| ==> Trimmable(s[k])
    decreases |s|
  {
    if |s| > 0 && Trimmable(s[0]) {
      TrimStartRemovesBlanks(s[1..]);
      forall k | 1 <= k < |s| - |TrimStart(s)|
        ensures Trimmable(s[k])
      {
        assert s[k] == s[1..][k - 1];
      }
    }
  }

  /** The trailing half of `trim()` removes only characters up to U+0020. */
  lemma {:induction false} TrimEndRemovesBlanks(s: string)
    ensures forall k :: |TrimEnd(s)| <= k < |s| ==> Trimmable(s[k])
    decreases |s|
  {
    if |s| > 0 && Trimmable(s[|s| - 1]) {
      TrimEndRemovesBlanks(s[..|s| - 1]);
      forall k | |TrimEnd(s)| <= k < |s| - 1
        ensures Trimmable(s[k])
      {
        assert s[k] == s[..|s| - 1][k];
      }
    }
  }

  /** `trim()` returns the infix of `s` that starts after its leading characters up to U+0020. */
  lemma TrimIsInfix(s: string)
    ensures var i := |s| - |TrimStart(s)|;
      i + |Trim(s)| <= |s| && Trim(s) == s[i..i + |Trim(s)|]
  {
    var t := TrimStart(s);
    var r := Trim(s);
    var i := |s| - |t|;
    assert r == TrimEnd(t);
    assert r == t[..|r|];
    assert t == s[i..];
  }

  /** Everything `trim()` cuts after the result is a character up to U+0020. */
  lemma TrimCutsBlankTail(s: string)
    ensures forall k :: |s| - |TrimStart(s)| + |Trim(s)| <= k < |s| ==> Trimmable(s[k])
  {
    var t := TrimStart(s);
    var i := |s| - |t|;
    assert Trim(s) == TrimEnd(t);
    TrimEndRemovesBlanks(t);
    forall k | i + |Trim(s)| <= k < |s|
      ensures Trimmable(s[k])
    {
      assert s[k] == t[k - i];
    }
  }

  /**
   * `trim()` returns the infix of `s` starting after its leading characters up
   * to U+0020, and everything it cuts from either end is such a character.
   */
  lemma TrimRemovesOnlyBlanks(s: string)
    ensures var i := |s| - |TrimStart(s)|;
      i + |Trim(s)| <= |s| && Trim(s) == s[i..i + |Trim(s)|]
      && (forall k :: 0 <= k < i ==> Trimmable(s[k]))
      && (forall k :: i + |Trim(s)| <= k < |s| ==> Trimmable(s[k]))
  {
    TrimIsInfix(s);
    TrimStartRemovesBlanks(s);
    TrimCutsBlankTail(s);
  }

  /** A prefix that starts and ends with non-trimmable characters survives `trim()`, which then only cuts the tail. */
  lemma TrimKeepsPrefix(s: string, p: string)
    requires p != [] && StartsWith(s, p)
    requires !Trimmable(p[0]) && !Trimmable(p[|p| - 1])
    ensures StartsWith(Trim(s), p)
    ensures Trim(s) == s[..|Trim(s)|]
    ensures Trim(s) == s <==> !Trimmable(s[|s| - 1])
  {
    assert s[0] == p[0];
    assert TrimStart(s) == s;
    assert s[|p| - 1] == p[|p| - 1];
    TrimEndKeeps(s, |p| - 1);
    PrefixSurvivesCut(s, p, |Trim(s)|);
  }

  /**
   * `StringUtils.chop(s)`: drops the last character, or the last two when they
   * are "\r\n"; strings shorter than two characters become "".
   */
  function Chop(s: string): (r: string)
    ensures |r| <= |s| && r == s[..|r|]
    ensures s != [] ==> |r| < |s|
    ensures EndsWith(s, "/") ==> r + "/" == s
  {
    if |s| < 2 then []
    else if s[|s| - 1] == '\n' && s[|s| - 2] == '\r' then s[..|s| - 2]
    else s[..|s| - 1]
  }

  /** `Character.isWhitespace`: the Unicode space separators except the no-break spaces, and the ASCII controls TAB..CR and FS..US. */
  predicate IsWhitespace(c: char)
  {
    var n := c as int;
    (0x09 <= n <= 0x0D) || (0x1C <= n <= 0x20) || n == 0x1680
    || (0x2000 <= n <= 0x2006) || (0x2008 <= n <= 0x200A)
    || n == 0x2028 || n == 0x2029 || n == 0x205F || n == 0x3000
  }

  /** `s.isBlank()`: empty, or whitespace only. */
  predicate IsBlank(s: string)
  {
    forall i :: 0 <= i < |s| ==> IsWhitespace(s[i])
  }

  /**
   * `isBlank()` is not `trim().isEmpty()`: an en quad is whitespace but is not
   * trimmed, and NUL is trimmed but is not whitespace.
   */
  lemma BlankDiffersFromTrimmedEmpty()
    ensures IsBlank(['\U{2000}']) && Trim(['\U{2000}']) != []
    ensures !IsBlank(['\0']) && Trim(['\0']) == []
  {
    EnQuadIsBlankNotTrimmed();
    NulIsTrimmedNotBlank();
  }

  lemma EnQuadIsBlankNotTrimmed()
    ensures IsBlank(['\U{2000}']) && Trim(['\U{2000}']) != []
  {
    var s := ['\U{2000}'];
    assert IsWhitespace(s[0]) && !Trimmable(s[0]);
  }

  lemma NulIsTrimmedNotBlank()
    ensures !IsBlank(['\0']) && Trim(['\0']) == []
  {
    var s := ['\0'];
    assert !IsWhitespace(s[0]) && Trimmable(s[0]);
    assert TrimStart(s) == TrimStart(s[1..]) == [];
  }

  /** Java's `long`. */
  type Long = n: int | -0x8000_0000_0000_0000 <= n < 0x8000_0000_0000_0000

  predicate IsDigit(c: char)
  {
    '0' <= c <= '9'
  }

  function DigitChar(d: nat): (c: char)
    requires d < 10
    ensures IsDigit(c) && c as int - '0' as int == d
  {
    ('0' as int + d) as char
  }

  /** Decimal digits of `n`, most significant first, without leading zeros. */
  function Digits(n: nat): (r: string)
    ensures r != []
    ensures forall i :: 0 <= i < |r| ==> IsDigit(r[i])
    ensures |r| > 1 ==> r[0] != '0'
    decreases n
  {
    if n < 10 then [DigitChar(n)] else Digits(n / 10) + [DigitChar(n % 10)]
  }

  /** `String.valueOf(long)`: an optional minus sign followed by the decimal digits. */
  function LongToString(n: Long): (r: string)
    ensures r != [] && (r[0] == '-' || IsDigit(r[0]))
    ensures IsDigit(r[|r| - 1])
    ensures forall i :: 0 <= i < |r| ==> r[i] != '/' && !Trimmable(r[i])
  {
    if n < 0 then "-" + Digits(-(n as int)) else Digits(n)
  }

  function DigitValue(c: char): (d: nat)
    requires IsDigit(c)
    ensures d < 10
  {
    c as int - '0' as int
  }

  /** The value of a string of decimal digits. */
  function DigitsValue(s: string): nat
    requires forall i :: 0 <= i < |s| ==> IsDigit(s[i])
    decreases |s|
  {
    if s == [] then 0 else DigitsValue(s[..|s| - 1]) * 10 + DigitValue(s[|s| - 1])
  }

  /** A reference reading of ASCII decimal text with an optional `-`. */
  function ParseDecimal(s: string): Option<int>
  {
    if |s| > 1 && s[0] == '-' && forall i :: 1 <= i < |s| ==> IsDigit(s[i]) then
      Some(0 - DigitsValue(s[1..]))
    else if s != [] && forall i :: 0 <= i < |s| ==> IsDigit(s[i]) then
      Some(DigitsValue(s))
    else
      None
  }

  lemma {:induction false} DigitsRoundTrip(n: nat)
    ensures DigitsValue(Digits(n)) == n
    decreases n
  {
    if n >= 10 {
      DigitsRoundTrip(n / 10);
      var s := Digits(n);
      assert s[..|s| - 1] == Digits(n / 10);
    }
  }

  /** The decimal text of a `long` reads back as that `long`, so distinct ids give distinct paths and query values. */
  lemma LongToStringRoundTrip(n: Long)
    ensures ParseDecimal(LongToString(n)) == Some(n)
  {
    if n < 0 {
      DigitsRoundTrip(-(n as int));
      assert LongToString(n)[1..] == Digits(-(n as int));
    } else {
      DigitsRoundTrip(n);
    }
  }
}

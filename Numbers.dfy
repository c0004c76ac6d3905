/** Decimal text of integers: what int.ToString() prints and what int.Parse
    accepts (NumberStyles.Integer: surrounding white space, one leading sign,
    at least one decimal digit, and a value that fits in 32 bits). */
module Numbers {
  import opened Json

  const MinInt32: int := -0x8000_0000
  const MaxInt32: int := 0x7FFF_FFFF

  predicate IsInt32(n: int) { MinInt32 <= n <= MaxInt32 }

  predicate IsDigit(c: char) { '0' <= c <= '9' }

  /** The white space .NET number parsing skips: U+0009 to U+000D and U+0020. */
  predicate IsWhite(c: char) { c == ' ' || '\t' <= c <= '\r' }

  predicate AllDigits(s: string) {
    forall i :: 0 <= i < |s| ==> IsDigit(s[i])
  }

  function DigitChar(d: nat): (c: char)
    requires d < 10
    ensures IsDigit(c)
  {
    "0123456789"[d]
  }

  function DigitValue(c: char): nat
    requires IsDigit(c)
  {
    c as int - '0' as int
  }

  /** The digits of n, most significant first, without leading zeros. */
  function NatToDigits(n: nat): (s: string)
    ensures |s| > 0 && AllDigits(s)
    decreases n
  {
    if n < 10 then [DigitChar(n)] else NatToDigits(n / 10) + [DigitChar(n % 10)]
  }

  /** The value of a string of decimal digits, read left to right. */
  function DigitsValue(s: string): nat
    requires AllDigits(s)
  {
    if s == [] then 0 else DigitsValue(s[..|s| - 1]) * 10 + DigitValue(s[|s| - 1])
  }

  /** int.ToString(): a minus sign for negative numbers, then the digits. */
  function IntToString(n: int): (s: string)
    ensures |s| > 0
    ensures s[0] == '-' <==> n < 0
    ensures n >= 0 ==> AllDigits(s)
    ensures n < 0 ==> AllDigits(s[1..])
  {
    if n < 0 then "-" + NatToDigits(-n) else NatToDigits(n)
  }

  function TrimStart(s: string): (t: string)
    ensures |t| <= |s| && (t == [] || !IsWhite(t[0]))
  {
    if s != [] && IsWhite(s[0]) then TrimStart(s[1..]) else s
  }

  function TrimEnd(s: string): (t: string)
    ensures |t| <= |s| && (t == [] || !IsWhite(t[|t| - 1]))
  {
    if s != [] && IsWhite(s[|s| - 1]) then TrimEnd(s[..|s| - 1]) else s
  }

  /** int.Parse(s): FormatException unless s is an optionally signed run of
      decimal digits between white space, OverflowException when the value
      does not fit in 32 bits. */
  function ParseInt(s: string): (r: Result<int>)
    ensures r.Success? ==> IsInt32(r.value)
  {
    var t := TrimEnd(TrimStart(s));
    var negative := t != [] && t[0] == '-';
    var digits := if t != [] && (t[0] == '-' || t[0] == '+') then t[1..] else t;
    if digits == [] || !AllDigits(digits) then Failure(FormatError)
    else
      var v := if negative then -(DigitsValue(digits) as int) else DigitsValue(digits);
      if IsInt32(v) then Success(v) else Failure(OverflowError)
  }

  lemma {:induction false} DigitsValueOfNatToDigits(n: nat)
    ensures DigitsValue(NatToDigits(n)) == n
    decreases n
  {
    if n >= 10 {
      var s := NatToDigits(n);
      assert s[..|s| - 1] == NatToDigits(n / 10);
      assert s[|s| - 1] == DigitChar(n % 10);
      DigitsValueOfNatToDigits(n / 10);
    }
  }

  /** NatToDigits writes no leading zero: its text starts with '0' only for 0. */
  lemma {:induction false} NatToDigitsNoLeadingZero(n: nat)
    ensures NatToDigits(n)[0] == '0' ==> n == 0
    decreases n
  {
    if n >= 10 {
      NatToDigitsNoLeadingZero(n / 10);
      assert NatToDigits(n)[0] == NatToDigits(n / 10)[0];
    }
  }

  /** int.ToString() prints the canonical text: no leading zero except for 0
      itself, which is "0", and a minus sign only before a non-zero number. */
  lemma IntToStringCanonical(n: int)
    ensures var d := if n < 0 then IntToString(n)[1..] else IntToString(n);
            d != [] && (d[0] == '0' ==> n == 0 && d == "0")
    ensures IntToString(0) == "0"
  {
    var m: nat := if n < 0 then -n else n;
    NatToDigitsNoLeadingZero(m);
    if n < 0 {
      assert IntToString(n)[1..] == NatToDigits(m);
    }
  }

  /** Trimming the start drops a prefix and keeps every character from the
      first one that is not white space. */
  lemma {:induction false} TrimStartKeeps(s: string, i: nat)
    requires i < |s| && !IsWhite(s[i])
    ensures var k := |s| - |TrimStart(s)|; TrimStart(s) == s[k..] && k <= i
  {
    if s != [] && IsWhite(s[0]) {
      TrimStartKeeps(s[1..], i - 1);
    }
  }

  /** Trimming the end drops a suffix and keeps every character up to the
      last one that is not white space. */
  lemma {:induction false} TrimEndKeeps(s: string, i: nat)
    requires i < |s| && !IsWhite(s[i])
    ensures TrimEnd(s) == s[..|TrimEnd(s)|] && i < |TrimEnd(s)|
  {
    if s != [] && IsWhite(s[|s| - 1]) {
      TrimEndKeeps(s[..|s| - 1], i);
    }
  }

  /** int.Parse throws a FormatException on text holding a character that is
      neither a digit, white space nor a sign, wherever it stands. */
  lemma ParseIntRejects(s: string, i: nat)
    requires i < |s| && !IsDigit(s[i]) && !IsWhite(s[i]) && s[i] != '-' && s[i] != '+'
    ensures ParseInt(s) == Failure(FormatError)
  {
    TrimStartKeeps(s, i);
    var u := TrimStart(s);
    var j := i - (|s| - |u|);
    assert u[j] == s[i];
    TrimEndKeeps(u, j);
    var t := TrimEnd(u);
    assert t[j] == s[i];
    var digits := if t != [] && (t[0] == '-' || t[0] == '+') then t[1..] else t;
    if t[0] == '-' || t[0] == '+' {
      assert j > 0 && digits[j - 1] == s[i];
    } else {
      assert digits[j] == s[i];
    }
  }

  /** Text that neither starts nor ends with white space is not trimmed. */
  lemma TrimUntouched(s: string)
    requires s != [] && !IsWhite(s[0]) && !IsWhite(s[|s| - 1])
    ensures TrimEnd(TrimStart(s)) == s
  {
  }

  /** The text int.ToString() prints is parsed back by int.Parse to the same
      number, for every 32-bit integer. */
  lemma {:induction false} ParseIntOfIntToString(n: int)
    requires IsInt32(n)
    ensures ParseInt(IntToString(n)) == Success(n)
  {
    var s := IntToString(n);
    var m: nat := if n < 0 then -n else n;
    var digits := NatToDigits(m);
    assert s == if n < 0 then "-" + digits else digits;
    assert IsDigit(digits[|digits| - 1]);
    assert s[|s| - 1] == digits[|digits| - 1];
    TrimUntouched(s);
    DigitsValueOfNatToDigits(m);
    if n < 0 {
      assert s[1..] == digits;
    }
  }
}

/**
 * The string operations the record managers rely on: Python's `str.lower()`,
 * the substring test `q in s`, and decimal text for integers.
 */
module Text {
  import opened Wrappers

  /** A clock reading as the source formats it ("%Y-%m-%d %H:%M:%S"); never empty. */
  type Stamp = s: string | s != [] witness "0"

  /** The capitals `Lower` maps: ASCII A-Z, the Russian capitals U+0410..U+042F and U+0401 (Ё). */
  predicate IsUpper(c: char) {
    'A' <= c <= 'Z' || '\U{0410}' <= c <= '\U{042F}' || c == '\U{0401}'
  }

  /**
   * Lower-casing of one character: the ASCII capitals A-Z, the Russian capitals
   * U+0410..U+042F and U+0401 (Ё); every other character is left as it is.
   */
  function Lower(c: char): char {
    if 'A' <= c <= 'Z' then (c as int + 32) as char
    else if '\U{0410}' <= c <= '\U{042F}' then (c as int + 32) as char
    else if c == '\U{0401}' then '\U{0451}'
    else c
  }

  /**
   * Upper-casing of one character, the other direction: the ASCII small
   * letters a-z, the Russian small letters U+0430..U+044F and U+0451 (ё).
   */
  function Upper(c: char): char {
    if 'a' <= c <= 'z' then (c as int - 32) as char
    else if '\U{0430}' <= c <= '\U{044F}' then (c as int - 32) as char
    else if c == '\U{0451}' then '\U{0401}'
    else c
  }

  /** `s.upper()`, over the same letters. */
  function UpperStr(s: string): (r: string)
    ensures |r| == |s|
  {
    seq(|s|, i requires 0 <= i < |s| => Upper(s[i]))
  }

  /**
   * `s.lower()`: the same length, no capital left, every capital turned into
   * the small letter whose capital it is, and every other character kept
   * where it was.
   */
  function LowerStr(s: string): (r: string)
    ensures |r| == |s|
    ensures forall i :: 0 <= i < |r| ==> !IsUpper(r[i])
    ensures forall i :: 0 <= i < |s| && IsUpper(s[i]) ==> Upper(r[i]) == s[i]
    ensures forall i :: 0 <= i < |s| && !IsUpper(s[i]) ==> r[i] == s[i]
  {
    seq(|s|, i requires 0 <= i < |s| => Lower(s[i]))
  }

  /** Lower-casing forgets case: an upper-cased string lowers to what the string itself lowers to. */
  lemma LowerOfUpper(s: string)
    ensures LowerStr(UpperStr(s)) == LowerStr(s)
  {
  }

  /** Python's `q in s` on strings, by a scan of the start positions of `s`. */
  predicate Contains(s: string, q: string)
    ensures Contains(s, q) ==> |q| <= |s|
    decreases |s|
  {
    q <= s || (s != [] && Contains(s[1..], q))
  }

  /** `q in s` holds exactly when `q` starts at some position of `s`. */
  lemma {:induction false} ContainsIffOccurs(s: string, q: string)
    ensures Contains(s, q) <==> exists i :: 0 <= i <= |s| && q <= s[i..]
    decreases |s|
  {
    if q <= s {
      assert s[0..] == s;
    } else if s == [] {
      forall i | 0 <= i <= |s| ensures !(q <= s[i..]) {
        assert s[i..] == s;
      }
    } else {
      ContainsIffOccurs(s[1..], q);
      if exists i :: 0 <= i <= |s| && q <= s[i..] {
        var i :| 0 <= i <= |s| && q <= s[i..];
        assert i != 0 by { assert s[0..] == s; }
        assert s[1..][i - 1..] == s[i..];
      }
      if Contains(s[1..], q) {
        var i :| 0 <= i <= |s[1..]| && q <= s[1..][i..];
        assert s[1..][i..] == s[i + 1..];
      }
    }
  }

  /** The empty query occurs in every string. */
  lemma EmptyOccursEverywhere(s: string)
    ensures Contains(s, "")
  {
  }

  predicate IsDigit(c: char) { '0' <= c <= '9' }

  /** The value of a decimal digit character. */
  function DigitValue(c: char): int { c as int - '0' as int }

  predicate AllDigits(s: string) { forall i :: 0 <= i < |s| ==> IsDigit(s[i]) }

  function DigitChar(d: nat): (c: char)
    requires d < 10
    ensures IsDigit(c)
  {
    ('0' as int + d) as char
  }

  /** The number a string of decimal digits denotes. */
  function DigitsValue(s: string): nat
    requires AllDigits(s)
    decreases |s|
  {
    if s == [] then 0
    else 10 * DigitsValue(s[..|s| - 1]) + DigitValue(s[|s| - 1])
  }

  /** `str(n)` for a natural number. */
  function NatText(n: nat): (r: string)
    ensures r != [] && AllDigits(r)
    decreases n
  {
    if n < 10 then [DigitChar(n)] else NatText(n / 10) + [DigitChar(n % 10)]
  }

  /** `str(i)` for a Python int: a minus sign for negatives, then the digits. */
  function IntText(i: int): (r: string)
    ensures r != []
  {
    if i < 0 then "-" + NatText(-i) else NatText(i)
  }

  /**
   * Decimal text with an optional sign, as a number; `None` where the source
   * raises ValueError. Accepted text ends in a digit, and only a leading '-'
   * makes the number negative.
   */
  function ParseInt(s: string): (r: Option<int>)
    ensures r.Some? ==> s != [] && IsDigit(s[|s| - 1])
    ensures r.Some? && r.value < 0 ==> s[0] == '-'
  {
    if s != [] && (s[0] == '-' || s[0] == '+') then
      if |s| > 1 && AllDigits(s[1..]) then
        var magnitude: int := DigitsValue(s[1..]);
        Some(if s[0] == '-' then -magnitude else magnitude)
      else None
    else if s != [] && AllDigits(s) then Some(DigitsValue(s))
    else None
  }

  /**
   * What ParseInt accepts and rejects: a sign and leading zeros are taken;
   * surrounding blanks, `_` separators and a decimal point are not.
   */
  lemma ParseIntCases()
    ensures ParseInt("+5") == Some(5) && ParseInt("-007") == Some(-7)
    ensures ParseInt("") == None && ParseInt("-") == None
    ensures ParseInt(" 5") == None && ParseInt("1_000") == None && ParseInt("5.0") == None
  {
    assert DigitsValue("5") == 5 by { assert "5"[..0] == []; }
    assert DigitsValue("007") == 7 by { assert "007"[..2] == "00"; assert "00"[..1] == "0"; assert "0"[..0] == []; }
    assert !IsDigit(" 5"[0]);
    assert !IsDigit("1_000"[1]);
    assert !IsDigit("5.0"[1]);
  }

  /** Reading back the digits written for `n` gives `n`. */
  lemma {:induction false} DigitsValueOfNatText(n: nat)
    ensures DigitsValue(NatText(n)) == n
    decreases n
  {
    var r := NatText(n);
    if n >= 10 {
      DigitsValueOfNatText(n / 10);
      assert r[..|r| - 1] == NatText(n / 10);
    }
  }

  /** Writing an integer and parsing the text back gives the integer. */
  lemma ParseIntOfIntText(i: int)
    ensures ParseInt(IntText(i)) == Some(i)
  {
    if i < 0 {
      var t := IntText(i);
      assert t[1..] == NatText(-i);
      DigitsValueOfNatText(-i);
    } else {
      DigitsValueOfNatText(i);
    }
  }
}

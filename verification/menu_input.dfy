/**
  `get_menu_choice` in `main.py`: the line the user typed, read by Python's
  `int()`, or -1 when `int()` rejects it.

  `int()` on a string accepts surrounding ASCII whitespace, one optional sign
  and a run of decimal digits in which single underscores may separate digits.
  Python releases with the integer string conversion limit (3.11 and later, and
  the security releases 3.7.14, 3.8.14, 3.9.14 and 3.10.7) also refuse a run of
  more than 4300 digits (the default of `sys.int_max_str_digits`), raising
  `ValueError` like for malformed text.
*/
module MenuInput {
  import opened Wrappers

  /** The choice that stands for input `int()` could not read. */
  const InvalidChoice: int := -1

  /** The default limit on the number of digits `int()` converts from decimal text. */
  const MaxStrDigits: nat := 4300

  /**
    The ASCII whitespace `int()` strips: space, tab, line feed, vertical tab,
    form feed and carriage return. The separators 28-31, which `str.isspace`
    accepts, are not stripped.
  */
  predicate IsSpace(c: char) {
    c == ' ' || 9 <= c as int <= 13
  }

  predicate IsDigit(c: char) {
    '0' <= c <= '9'
  }

  /** `s` without its leading whitespace. */
  function TrimStart(s: string): string
    decreases |s|
  {
    if |s| > 0 && IsSpace(s[0]) then TrimStart(s[1..]) else s
  }

  /** `s` without its trailing whitespace. */
  function TrimEnd(s: string): string
    decreases |s|
  {
    if |s| > 0 && IsSpace(s[|s| - 1]) then TrimEnd(s[..|s| - 1]) else s
  }

  /**
    A digit run as `int()` accepts it: non-empty, starting and ending with a
    digit, made of digits and underscores, with no two underscores in a row.
  */
  predicate IsDigitRun(d: string) {
    && |d| > 0
    && IsDigit(d[0])
    && IsDigit(d[|d| - 1])
    && (forall i :: 0 <= i < |d| ==> IsDigit(d[i]) || d[i] == '_')
    && (forall i :: 0 <= i < |d| - 1 ==> d[i] == '_' ==> d[i + 1] != '_')
  }

  /** The decimal value of the digits of `d`, underscores skipped. */
  function DigitsValue(d: string): nat
    decreases |d|
  {
    if |d| == 0 then 0
    else if IsDigit(d[|d| - 1]) then DigitsValue(d[..|d| - 1]) * 10 + (d[|d| - 1] as int - '0' as int)
    else DigitsValue(d[..|d| - 1])
  }

  /** The number of digits in `d`, underscores not counted. */
  function CountDigits(d: string): nat
    decreases |d|
  {
    if |d| == 0 then 0
    else CountDigits(d[..|d| - 1]) + (if IsDigit(d[|d| - 1]) then 1 else 0)
  }

  /** A digit run `int()` converts: well formed and within the digit limit. */
  predicate Convertible(d: string) {
    IsDigitRun(d) && CountDigits(d) <= MaxStrDigits
  }

  /** Python's `int(line)`: the value, or `None` where `int()` raises `ValueError`. */
  function ParseInt(line: string): Option<int> {
    var t := TrimEnd(TrimStart(line));
    if |t| > 0 && (t[0] == '-' || t[0] == '+') then
      if Convertible(t[1..]) then
        var magnitude: int := DigitsValue(t[1..]);
        Some(if t[0] == '-' then -magnitude else magnitude)
      else None
    else if Convertible(t) then Some(DigitsValue(t))
    else None
  }

  /**
    The menu choice read from `line`; never fails. The menus cannot tell text
    `int()` rejects from a typed -1.
  */
  function MenuChoice(line: string): (r: int)
    ensures r == InvalidChoice <==> ParseInt(line) == None || ParseInt(line) == Some(InvalidChoice)
    ensures r != InvalidChoice ==> ParseInt(line) == Some(r)
  {
    match ParseInt(line)
    case Some(n) => n
    case None => InvalidChoice
  }

  /* ---------------------------------------------------------------------- */
  /* Round trip with the canonical decimal text                             */
  /* ---------------------------------------------------------------------- */

  /** The decimal digits of `n`, without sign, underscores or leading zeros. */
  function NatToText(n: nat): string
    decreases n
  {
    var last := [('0' as int + n % 10) as char];
    if n < 10 then last else NatToText(n / 10) + last
  }

  /** The decimal text of `n`, as `str(n)` writes it. */
  function IntToText(n: int): string {
    if n < 0 then "-" + NatToText(-n) else NatToText(n)
  }

  /** The absolute value of `n`. */
  function Magnitude(n: int): nat {
    if n < 0 then -n else n
  }

  /** The decimal text of `n` is a digit run whose value is `n`, all of whose characters count as digits. */
  lemma {:induction false} NatToTextValue(n: nat)
    ensures IsDigitRun(NatToText(n))
    ensures forall i :: 0 <= i < |NatToText(n)| ==> IsDigit(NatToText(n)[i])
    ensures DigitsValue(NatToText(n)) == n
    ensures CountDigits(NatToText(n)) == |NatToText(n)|
    decreases n
  {
    var last := [('0' as int + n % 10) as char];
    if n >= 10 {
      NatToTextValue(n / 10);
      var d := NatToText(n / 10) + last;
      assert d[..|d| - 1] == NatToText(n / 10);
      assert forall i :: 0 <= i < |d| ==> IsDigit(d[i]) by {
        forall i | 0 <= i < |d|
          ensures IsDigit(d[i])
        {
          if i < |d| - 1 {
            assert d[i] == NatToText(n / 10)[i];
          }
        }
      }
    }
  }

  /** Leading whitespace is dropped up to the first non-space character. */
  lemma {:induction false} TrimStartPadding(pad: string, s: string)
    requires forall i :: 0 <= i < |pad| ==> IsSpace(pad[i])
    requires |s| > 0 && !IsSpace(s[0])
    ensures TrimStart(pad + s) == s
    decreases |pad|
  {
    if |pad| > 0 {
      assert (pad + s)[1..] == pad[1..] + s;
      TrimStartPadding(pad[1..], s);
    } else {
      assert pad + s == s;
    }
  }

  /** Trailing whitespace is dropped back to the last non-space character. */
  lemma {:induction false} TrimEndPadding(s: string, pad: string)
    requires forall i :: 0 <= i < |pad| ==> IsSpace(pad[i])
    requires |s| > 0 && !IsSpace(s[|s| - 1])
    ensures TrimEnd(s + pad) == s
    decreases |pad|
  {
    if |pad| > 0 {
      assert (s + pad)[..|s + pad| - 1] == s + pad[..|pad| - 1];
      TrimEndPadding(s, pad[..|pad| - 1]);
    } else {
      assert s + pad == s;
    }
  }

  /**
    `int()` reads the decimal text of any integer of at most 4300 digits back as
    that integer, and rejects the text of any longer one.
  */
  lemma ParseIntText(n: int)
    ensures ParseInt(IntToText(n)) == if |NatToText(Magnitude(n))| <= MaxStrDigits then Some(n) else None
  {
    var t := IntToText(n);
    if n < 0 {
      NatToTextValue(-n);
      assert t[1..] == NatToText(-n);
      assert IsSpace(t[0]) == false && IsSpace(t[|t| - 1]) == false;
      assert TrimStart(t) == t;
      assert TrimEnd(t) == t;
    } else {
      NatToTextValue(n);
      assert IsDigit(t[0]) && IsDigit(t[|t| - 1]);
      assert TrimStart(t) == t;
      assert TrimEnd(t) == t;
    }
  }

  /**
    Typing the decimal text of any integer of at most 4300 digits, with any
    whitespace around it, selects that integer; a longer one is invalid.
  */
  lemma MenuChoiceRoundTrip(n: int, before: string, after: string)
    requires forall i :: 0 <= i < |before| ==> IsSpace(before[i])
    requires forall i :: 0 <= i < |after| ==> IsSpace(after[i])
    ensures MenuChoice(before + IntToText(n) + after) ==
              if |NatToText(Magnitude(n))| <= MaxStrDigits then n else InvalidChoice
  {
    var t := IntToText(n);
    NatToTextValue(if n < 0 then -n else n);
    assert |t| > 0 && !IsSpace(t[0]) && !IsSpace(t[|t| - 1]);
    TrimEndPadding(t, after);
    TrimStartPadding(before, t + after);
    assert before + t + after == before + (t + after);
    assert TrimEnd(TrimStart(before + t + after)) == TrimEnd(TrimStart(t));
    ParseIntText(n);
  }

  /** A digit run of more than 4300 digits is refused, however well formed. */
  lemma LongDigitRunRejected(d: string)
    requires IsDigitRun(d) && CountDigits(d) > MaxStrDigits
    ensures MenuChoice(d) == InvalidChoice
  {
  }

  /** Text that is not an integer reads as the invalid choice. */
  lemma NonIntegerText()
    ensures MenuChoice("abc") == InvalidChoice
    ensures MenuChoice("") == InvalidChoice
    ensures MenuChoice("1__0") == InvalidChoice
    ensures MenuChoice("- 3") == InvalidChoice
    ensures MenuChoice([28 as char] + "3") == InvalidChoice
    ensures MenuChoice("3" + [31 as char]) == InvalidChoice
  {
    var d := "1__0";
    assert d[1] == '_' && d[2] == '_';
  }

  /** Signs, surrounding whitespace and digit-separating underscores are accepted. */
  lemma AcceptedSpellings()
    ensures MenuChoice(" 3\t") == 3
    ensures MenuChoice("+4") == 4
    ensures MenuChoice("1_0") == 10
    ensures MenuChoice("06") == 6
  {
    var d := "1_0";
    assert TrimEnd(TrimStart(d)) == d;
    assert d[..2] == "1_" && d[..2][..1] == "1" && d[..2][..1][..0] == "";
    assert DigitsValue("1") == 1;
    assert DigitsValue("1_") == 1;
    assert DigitsValue(d) == 10;
  }
}

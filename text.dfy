/**
  String helpers shared by the client and the server model: substring search
  (`String.prototype.includes`, Django's `__contains`), ASCII case folding
  (Django's `__iexact` / `__icontains`), decimal numerals (`String(n)` and
  `Number(s)` on non-negative integers, Python's `int(s)`) and Python's
  `str.strip()`.
*/
module Text {
  import opened Wrappers

  /** `sub` occurs in `s` starting at index `i`. */
  ghost predicate OccursAt(s: string, sub: string, i: int)
  {
    0 <= i && i + |sub| <= |s| && s[i..i + |sub|] == sub
  }

  /** `s.includes(sub)`. */
  function Includes(s: string, sub: string): (r: bool)
    ensures r <==> exists i :: OccursAt(s, sub, i)
    decreases |s|
  {
    if |sub| > |s| then
      assert forall i :: !OccursAt(s, sub, i);
      false
    else if s[..|sub|] == sub then
      assert OccursAt(s, sub, 0);
      true
    else
      var rest := Includes(s[1..], sub);
      assert forall i :: OccursAt(s[1..], sub, i) <==> OccursAt(s, sub, i + 1) by {
        forall i ensures OccursAt(s[1..], sub, i) <==> OccursAt(s, sub, i + 1) {
          if 0 <= i && i + |sub| <= |s| - 1 {
            assert s[1..][i..i + |sub|] == s[i + 1..i + 1 + |sub|];
          }
        }
      }
      assert !OccursAt(s, sub, 0);
      assert forall i :: OccursAt(s, sub, i) ==> i == 0 || OccursAt(s[1..], sub, i - 1);
      rest
  }

  /** A literal occurrence is found by `Includes`. */
  lemma IncludesAt(s: string, sub: string, i: int)
    requires OccursAt(s, sub, i)
    ensures Includes(s, sub)
  {
  }

  /** Upper-case ASCII letters map to lower case; every other character is kept. */
  function LowerChar(c: char): (r: char)
    ensures 'A' <= c <= 'Z' ==> r as int == c as int + 32
    ensures !('A' <= c <= 'Z') ==> r == c
  {
    if 'A' <= c <= 'Z' then (c as int + 32) as char else c
  }

  function Lower(s: string): (r: string)
    ensures |r| == |s|
    ensures forall i :: 0 <= i < |s| ==> r[i] == LowerChar(s[i])
  {
    seq(|s|, i requires 0 <= i < |s| => LowerChar(s[i]))
  }

  /** Django's `__iexact` on ASCII text. */
  predicate EqualsIgnoringCase(a: string, b: string)
  {
    Lower(a) == Lower(b)
  }

  /** Django's `__icontains` on ASCII text. */
  predicate ContainsIgnoringCase(s: string, sub: string)
  {
    Includes(Lower(s), Lower(sub))
  }

  function DigitChar(d: nat): (c: char)
    requires d < 10
  {
    ('0' as int + d) as char
  }

  predicate IsDigit(c: char)
  {
    '0' <= c <= '9'
  }

  /** `String(n)` for a non-negative integer. */
  function NatToString(n: nat): (s: string)
    ensures |s| > 0
    ensures forall i :: 0 <= i < |s| ==> IsDigit(s[i])
    decreases n
  {
    if n < 10 then [DigitChar(n)] else NatToString(n / 10) + [DigitChar(n % 10)]
  }

  /** `String(n)` for any integer. */
  function IntToString(n: int): string
  {
    if n < 0 then "-" + NatToString(-n) else NatToString(n)
  }

  predicate IsDecimal(s: string)
  {
    |s| > 0 && forall i :: 0 <= i < |s| ==> IsDigit(s[i])
  }

  /** The value of a decimal numeral, `Number(s)` when `s` is all digits. */
  function DecimalValue(s: string): nat
    requires IsDecimal(s)
    decreases |s|
  {
    var last := (s[|s| - 1] as int - '0' as int) as nat;
    if |s| == 1 then last else 10 * DecimalValue(s[..|s| - 1]) + last
  }

  /** Reading back a number written with `String(n)` gives `n`. */
  lemma {:induction false} DecimalRoundTrip(n: nat)
    ensures IsDecimal(NatToString(n))
    ensures DecimalValue(NatToString(n)) == n
    decreases n
  {
    var s := NatToString(n);
    if n >= 10 {
      DecimalRoundTrip(n / 10);
      assert s[..|s| - 1] == NatToString(n / 10);
    }
  }
  /** Python's `str.isspace()` on one character, the whitespace `str.strip()` removes: tab to
      carriage return, the separators U+001C to U+001F, space, U+0085, no-break space, and the
      Unicode space and line separators. */
  predicate IsPySpace(c: char)
  {
    var n := c as int;
    || 9 <= n <= 13 || 0x1C <= n <= 0x20 || n == 0x85 || n == 0xA0 || n == 0x1680
    || 0x2000 <= n <= 0x200A || n == 0x2028 || n == 0x2029 || n == 0x202F || n == 0x205F
    || n == 0x3000
  }

  /** The whitespace `int(s)` skips around the digits. CPython turns every non-ASCII whitespace
      character into a space and keeps ASCII characters as they are, then skips only space and
      tab to carriage return; so U+001C to U+001F, which `isspace` accepts, are not skipped. */
  predicate IsIntSpace(c: char)
  {
    IsPySpace(c) && !(0x1C <= c as int <= 0x1F)
  }

  /** `s` without its leading characters that satisfy `skip`. */
  function TrimStart(s: string, skip: char -> bool): (r: string)
    ensures |r| <= |s| && r == s[|s| - |r|..]
    ensures |r| > 0 ==> !skip(r[0])
    ensures forall i :: 0 <= i < |s| - |r| ==> skip(s[i])
    decreases |s|
  {
    if |s| > 0 && skip(s[0]) then TrimStart(s[1..], skip) else s
  }

  /** `s` without its trailing characters that satisfy `skip`. */
  function TrimEnd(s: string, skip: char -> bool): (r: string)
    ensures |r| <= |s| && r == s[..|r|]
    ensures |r| > 0 ==> !skip(r[|r| - 1])
    ensures forall i :: |r| <= i < |s| ==> skip(s[i])
    decreases |s|
  {
    if |s| > 0 && skip(s[|s| - 1]) then TrimEnd(s[..|s| - 1], skip) else s
  }

  /** Python's `s.strip()`. */
  function Strip(s: string): string
  {
    TrimEnd(TrimStart(s, IsPySpace), IsPySpace)
  }

  /** `Strip` leaves no whitespace at either end, strips whitespace-only text to "", and
      stripping twice is stripping once. */
  lemma StripProperties(s: string)
    ensures var r := Strip(s);
      && |r| <= |s|
      && (|r| > 0 ==> !IsPySpace(r[0]) && !IsPySpace(r[|r| - 1]))
      && (r == "" <==> forall i :: 0 <= i < |s| ==> IsPySpace(s[i]))
      && Strip(r) == r
  {
    var t := TrimStart(s, IsPySpace);
    var r := TrimEnd(t, IsPySpace);
    if r != "" {
      assert r[0] == t[0];
      TrimUntouched(r, IsPySpace);
    }
  }

  /** Text with nothing to skip at either end is left as it is. */
  lemma TrimUntouched(s: string, skip: char -> bool)
    requires |s| > 0 && !skip(s[0]) && !skip(s[|s| - 1])
    ensures TrimEnd(TrimStart(s, skip), skip) == s
  {
  }

  /** Digits and signs are not whitespace. */
  lemma NumeralCharsAreNotSpace(c: char)
    requires IsDigit(c) || c == '-' || c == '+'
    ensures !IsIntSpace(c) && !IsPySpace(c)
  {
  }

  /** An optional sign, then decimal digits; `None` for anything else. */
  function SignedDecimal(t: string): Option<int>
  {
    if |t| > 0 && (t[0] == '-' || t[0] == '+') && IsDecimal(t[1..]) then
      var v: int := DecimalValue(t[1..]);
      Some(if t[0] == '-' then -v else v)
    else if IsDecimal(t) then Some(DecimalValue(t) as int)
    else None
  }

  /** Python's `int(s)` on text: surrounding whitespace, an optional sign, then decimal digits;
      `None` where `int` raises `ValueError`. */
  function PyInt(s: string): Option<int>
  {
    SignedDecimal(TrimEnd(TrimStart(s, IsIntSpace), IsIntSpace))
  }

  /** `int(str(n)) == n` for every integer. */
  lemma PyIntRoundTrip(n: int)
    ensures PyInt(IntToString(n)) == Some(n)
  {
    var m: nat := if n < 0 then -n else n;
    DecimalRoundTrip(m);
    var d := NatToString(m);
    var s := IntToString(n);
    assert IsDigit(d[0]) && IsDigit(d[|d| - 1]);
    NumeralCharsAreNotSpace(d[0]);
    NumeralCharsAreNotSpace(d[|d| - 1]);
    NumeralCharsAreNotSpace('-');
    if n < 0 {
      assert s == "-" + d && s[1..] == d && s[|s| - 1] == d[|d| - 1];
      TrimUntouched(s, IsIntSpace);
    } else {
      assert s == d;
      TrimUntouched(s, IsIntSpace);
    }
  }

  /** `int` reads a minus sign. */
  lemma PyIntReadsSign()
    ensures PyInt("-1") == Some(-1)
  {
    PyIntRoundTrip(-1);
    assert IntToString(-1) == "-1";
  }

  /** Trimming the front looks at the first character. */
  lemma TrimStartCons(c: char, s: string, skip: char -> bool)
    ensures TrimStart([c] + s, skip) == if skip(c) then TrimStart(s, skip) else [c] + s
  {
    assert ([c] + s)[1..] == s;
  }

  /** Trimming the back looks at the last character. */
  lemma TrimEndSnoc(s: string, c: char, skip: char -> bool)
    ensures TrimEnd(s + [c], skip) == if skip(c) then TrimEnd(s, skip) else s + [c]
  {
    assert (s + [c])[..|s|] == s;
  }

  /** The whitespace around " +2 " is skipped. */
  lemma TrimPaddedTwo()
    ensures TrimEnd(TrimStart(" +2 ", IsIntSpace), IsIntSpace) == "+2"
  {
    assert IsIntSpace(' ') && !IsIntSpace('+') && !IsIntSpace('2');
    assert " +2 " == [' '] + "+2 " && "+2 " == ['+'] + "2 ";
    TrimStartCons(' ', "+2 ", IsIntSpace);
    TrimStartCons('+', "2 ", IsIntSpace);
    assert "+2 " == "+2" + [' '] && "+2" == "+" + ['2'];
    TrimEndSnoc("+2", ' ', IsIntSpace);
    TrimEndSnoc("+", '2', IsIntSpace);
  }

  /** A plus sign is read. */
  lemma PlusTwoIsTwo()
    ensures SignedDecimal("+2") == Some(2)
  {
    var t := "+2";
    assert t[0] == '+' && t[1..] == "2";
    assert IsDecimal("2") && DecimalValue("2") == 2;
  }

  /** `int` skips surrounding whitespace and reads a plus sign. */
  lemma PyIntReadsPlusAndSpaces()
    ensures PyInt(" +2 ") == Some(2)
  {
    TrimPaddedTwo();
    PlusTwoIsTwo();
  }

  /** `int` skips non-ASCII whitespace such as the no-break space. */
  lemma PyIntSkipsNoBreakSpace()
    ensures PyInt("\U{00A0}5") == Some(5)
  {
    assert IsIntSpace('\U{00A0}') && !IsIntSpace('5');
    assert "\U{00A0}5" == ['\U{00A0}'] + "5" && "5" == [] + ['5'];
    TrimStartCons('\U{00A0}', "5", IsIntSpace);
    TrimStartCons('5', "", IsIntSpace);
    TrimEndSnoc("", '5', IsIntSpace);
    assert IsDecimal("5") && DecimalValue("5") == 5;
    assert SignedDecimal("5") == Some(5);
  }

  /** `int` does not skip the ASCII separator U+001F. */
  lemma PyIntRefusesUnitSeparator()
    ensures PyInt("\U{001F}5") == None
  {
    var u := "\U{001F}5";
    assert !IsIntSpace('\U{001F}') && !IsIntSpace('5');
    assert u == ['\U{001F}'] + "5" && u == "\U{001F}" + ['5'];
    TrimStartCons('\U{001F}', "5", IsIntSpace);
    TrimEndSnoc("\U{001F}", '5', IsIntSpace);
    assert !IsDigit('\U{001F}') && u[0] != '-' && u[0] != '+';
    assert SignedDecimal(u) == None;
  }

  /** `strip()` removes the separator U+001F, which `int` does not skip. */
  lemma StripRemovesUnitSeparator()
    ensures Strip("\U{001F}5") == "5"
  {
    assert IsPySpace('\U{001F}') && !IsPySpace('5');
    assert "\U{001F}5" == ['\U{001F}'] + "5" && "5" == [] + ['5'];
    TrimStartCons('\U{001F}', "5", IsPySpace);
    TrimStartCons('5', "", IsPySpace);
    TrimEndSnoc("", '5', IsPySpace);
  }

  /** Blank text makes `int` raise. */
  lemma PyIntRefusesBlank()
    ensures PyInt(" ") == None
  {
    assert IsIntSpace(' ') && " " == [' '] + "";
    TrimStartCons(' ', "", IsIntSpace);
  }
}

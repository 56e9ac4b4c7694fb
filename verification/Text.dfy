/** The string handling a chip description is read with. */
module Text {
  import opened Basics

  /** The white space a description may contain within a line. */
  predicate IsSpace(c: char) {
    c == ' ' || c == '\t' || c == '\r'
  }

  predicate AllSpace(text: string) {
    forall i :: 0 <= i < |text| ==> IsSpace(text[i])
  }

  function TrimmedFront(text: string): (r: string)
    ensures |r| <= |text|
    ensures r == "" || !IsSpace(r[0])
  {
    if text != "" && IsSpace(text[0]) then TrimmedFront(text[1..]) else text
  }

  function TrimmedBack(text: string): (r: string)
    ensures |r| <= |text| && r == text[..|r|]
    ensures r == "" || !IsSpace(r[|r| - 1])
  {
    if text != "" && IsSpace(text[|text| - 1]) then TrimmedBack(text[..|text| - 1]) else text
  }

  function Trimmed(text: string): (r: string)
    ensures |r| <= |text|
    ensures r == "" || (!IsSpace(r[0]) && !IsSpace(r[|r| - 1]))
    ensures text == "" || !IsSpace(text[0]) || |r| < |text|
  {
    TrimmedBack(TrimmedFront(text))
  }

  method Trim(text: string) returns (r: string)
    ensures r == Trimmed(text)
  {
    r := text;
    while r != "" && IsSpace(r[0])
      invariant TrimmedFront(r) == TrimmedFront(text)
      decreases |r|
    {
      r := r[1..];
    }
    while r != "" && IsSpace(r[|r| - 1])
      invariant TrimmedBack(r) == Trimmed(text)
      decreases |r|
    {
      r := r[..|r| - 1];
    }
  }

  /** The first place in `text` that holds one of `chars`, or its length when none does. */
  function FindFirstOf(text: string, chars: string): (at: nat)
    ensures at <= |text|
    ensures at < |text| ==> text[at] in chars
    ensures forall i :: 0 <= i < at ==> text[i] !in chars
  {
    if text == "" || text[0] in chars then 0 else 1 + FindFirstOf(text[1..], chars)
  }

  /** What comes before the first hash. */
  function StripComment(line: string): string {
    line[..FindFirstOf(line, "#")]
  }

  lemma FoundAt(text: string, chars: string, at: nat)
    requires at <= |text|
    requires forall i :: 0 <= i < at ==> text[i] !in chars
    requires at < |text| ==> text[at] in chars
    ensures FindFirstOf(text, chars) == at
  {
  }

  lemma TrimmedIsFixed(text: string)
    requires text == "" || (!IsSpace(text[0]) && !IsSpace(text[|text| - 1]))
    ensures Trimmed(text) == text
  {
  }

  lemma {:induction false} TrimIgnoresASpaceBehind(text: string, c: char)
    requires IsSpace(c)
    ensures Trimmed(text + [c]) == Trimmed(text)
  {
    if text == "" {
      assert "" + [c] == [c] && [c][1..] == "";
      assert TrimmedFront([c]) == "";
    } else if IsSpace(text[0]) {
      assert (text + [c])[1..] == text[1..] + [c];
      TrimIgnoresASpaceBehind(text[1..], c);
    } else {
      assert (text + [c])[..|text|] == text;
    }
  }

  lemma {:induction false} TrimIgnoresSpacesBehind(text: string, spaces: string)
    requires AllSpace(spaces)
    ensures Trimmed(text + spaces) == Trimmed(text)
    decreases |spaces|
  {
    if spaces == "" {
      assert text + spaces == text;
    } else {
      var n := |spaces| - 1;
      assert text + spaces == (text + spaces[..n]) + [spaces[n]];
      TrimIgnoresASpaceBehind(text + spaces[..n], spaces[n]);
      TrimIgnoresSpacesBehind(text, spaces[..n]);
    }
  }

  lemma {:induction false} TrimIgnoresSpacesInFront(spaces: string, text: string)
    requires AllSpace(spaces)
    ensures Trimmed(spaces + text) == Trimmed(text)
  {
    if spaces == "" {
      assert spaces + text == text;
    } else {
      assert (spaces + text)[1..] == spaces[1..] + text;
      TrimIgnoresSpacesInFront(spaces[1..], text);
    }
  }

  // ---- Lines -----------------------------------------------------------

  function FirstLine(text: string): string {
    text[..FindFirstOf(text, "\n")]
  }

  /** What is left once the first line, and the newline that ends it, are taken off. */
  function AfterFirstLine(text: string): (rest: string)
    ensures text != "" ==> |rest| < |text|
  {
    var newline := FindFirstOf(text, "\n");
    if newline == |text| then "" else text[newline + 1..]
  }

  /** The lines of a text. A newline ends a line, so none follows the last one. */
  function Lines(text: string): (lines: seq<string>)
    ensures text != "" ==> lines != []
  {
    if text == "" then []
    else
      var rest := Lines(text[1..]);
      if text[0] == '\n' then [""] + rest
      else if rest == [] then [text]
      else [[text[0]] + rest[0]] + rest[1..]
  }

  /** Taking a line off the front, which is how a reader goes through them. */
  lemma {:induction false} LinesFromTheFront(text: string)
    requires text != ""
    ensures Lines(text) == [FirstLine(text)] + Lines(AfterFirstLine(text))
  {
    var rest := text[1..];
    if text[0] == '\n' || rest == "" {
      assert FirstLine(text) == if text[0] == '\n' then "" else text;
    } else {
      LinesFromTheFront(rest);
      assert FirstLine(text) == [text[0]] + FirstLine(rest);
      assert AfterFirstLine(text) == AfterFirstLine(rest);
    }
  }

  predicate WholeLines(text: string) {
    text == "" || text[|text| - 1] == '\n'
  }

  lemma {:induction false} LinesFirst(line: string, after: string)
    requires '\n' !in line
    ensures Lines(line + "\n" + after) == [line] + Lines(after)
  {
    var text := line + "\n" + after;
    if line == "" {
      assert text[1..] == after;
    } else {
      assert text[1..] == line[1..] + "\n" + after;
      LinesFirst(line[1..], after);
      assert [line[0]] + line[1..] == line;
    }
  }

  lemma {:induction false} LinesOfJoin(a: string, b: string)
    requires WholeLines(a)
    ensures Lines(a + b) == Lines(a) + Lines(b)
  {
    if a == "" {
      assert a + b == b;
    } else {
      assert (a + b)[1..] == a[1..] + b;
      LinesOfJoin(a[1..], b);
    }
  }

  function Each<T>(f: string -> T, lines: seq<string>): (r: seq<T>)
    ensures |r| == |lines| && forall i :: 0 <= i < |lines| ==> r[i] == f(lines[i])
  {
    seq(|lines|, i requires 0 <= i < |lines| => f(lines[i]))
  }

  lemma EachOfJoin<T>(f: string -> T, a: seq<string>, b: seq<string>)
    ensures Each(f, a + b) == Each(f, a) + Each(f, b)
  {
  }

  /** The same text with every newline made a carriage return and a newline. */
  function WithCrLf(text: string): string {
    if text == "" then ""
    else (if text[0] == '\n' then "\r\n" else [text[0]]) + WithCrLf(text[1..])
  }

  lemma {:induction false} CrLfOfLine(line: string, rest: string)
    requires '\n' !in line
    ensures WithCrLf(line + rest) == line + WithCrLf(rest)
  {
    if line == "" {
      assert line + rest == rest;
    } else {
      assert (line + rest)[1..] == line[1..] + rest;
      CrLfOfLine(line[1..], rest);
    }
  }

  lemma CrLfOfFirstLine(line: string, after: string)
    requires '\n' !in line
    ensures Lines(WithCrLf(line + "\n" + after)) == [line + "\r"] + Lines(WithCrLf(after))
  {
    assert line + "\n" + after == line + ("\n" + after);
    CrLfOfLine(line, "\n" + after);
    assert ("\n" + after)[1..] == after;
    assert WithCrLf(line + "\n" + after) == (line + "\r") + "\n" + WithCrLf(after);
    LinesFirst(line + "\r", WithCrLf(after));
  }

  /** Line by line, the only difference is a carriage return at the end. */
  lemma {:induction false} LinesOfCrLf(text: string)
    ensures var a, b := Lines(text), Lines(WithCrLf(text));
            |a| == |b| && forall i :: 0 <= i < |a| ==> b[i] == a[i] || b[i] == a[i] + "\r"
    decreases |text|
  {
    var line, after := FirstLine(text), AfterFirstLine(text);
    if text != "" {
      if |line| == |text| {
        CrLfOfLine(text, "");
        assert text + "" == text;
      } else {
        assert text == line + "\n" + after;
        CrLfOfFirstLine(line, after);
        LinesFirst(line, after);
        LinesOfCrLf(after);
      }
    }
  }

  // ---- Numbers ---------------------------------------------------------

  function DigitValue(c: char): (v: nat)
    ensures v <= 36
  {
    if '0' <= c <= '9' then (c - '0') as nat
    else if 'a' <= c <= 'z' then 10 + (c - 'a') as nat
    else if 'A' <= c <= 'Z' then 10 + (c - 'A') as nat
    else 36
  }

  /** How many of the first characters are digits in this base. */
  function DigitRun(text: string, base: nat): (n: nat)
    requires base <= 36
    ensures n <= |text|
    ensures forall i :: 0 <= i < n ==> DigitValue(text[i]) < base
    ensures n < |text| ==> DigitValue(text[n]) >= base
  {
    if text == "" || DigitValue(text[0]) >= base then 0 else 1 + DigitRun(text[1..], base)
  }

  function Numeral(text: string, base: nat): nat
    requires base <= 36
  {
    if text == "" then 0
    else Numeral(text[..|text| - 1], base) * base + DigitValue(text[|text| - 1])
  }

  /** The C library's own idea of white space, which is wider than a description's. */
  predicate IsCSpace(c: char) {
    IsSpace(c) || c == '\n' || c as int == 11 || c as int == 12
  }

  function SkipCSpace(text: string): string {
    if text != "" && IsCSpace(text[0]) then SkipCSpace(text[1..]) else text
  }

  const ULLONG_MAX: nat := 0xFFFF_FFFF_FFFF_FFFF

  /** The whole of `text` as digits in this base. */
  function WholeNumeral(text: string, base: nat): (r: Option<nat>)
    requires base <= 36
  {
    if text != "" && DigitRun(text, base) == |text| then Some(Numeral(text, base)) else None
  }

  /** What follows the sign: a prefix says which base, and nothing may follow the digits. */
  function Magnitude(text: string): (r: Option<nat>) {
    if |text| > 2 && text[0] == '0' && (text[1] == 'x' || text[1] == 'X') && DigitValue(text[2]) < 16 then
      WholeNumeral(text[2..], 16)
    else if text != "" && text[0] == '0' then
      WholeNumeral(text, 8)
    else
      WholeNumeral(text, 10)
  }

  /**
   * strtoull with base 0 (section 7.22.1.4 of ISO C11), on the characters
   * before the first NUL: the value, or nothing when the conversion fails,
   * overflows, or leaves anything behind.
   */
  function StrToULL(text: string): (r: Option<nat>)
    ensures r.Some? ==> r.value <= ULLONG_MAX
  {
    var start := SkipCSpace(text[..FindFirstOf(text, "\0")]);
    var negative := start != "" && start[0] == '-';
    var signed := negative || (start != "" && start[0] == '+');
    match Magnitude(if signed then start[1..] else start)
    case None => None
    case Some(m) =>
      if m > ULLONG_MAX then None
      else if negative && m != 0 then Some(ULLONG_MAX + 1 - m)
      else Some(m)
  }

  function ParseNumber(text: string): (r: Option<word>) {
    if text == "" then None
    else
      match StrToULL(text)
      case None => None
      case Some(value) => if value > 0xFFFF_FFFF then None else Some(value)
  }

  function DigitOf(v: nat): (c: char)
    requires v < 16
    ensures DigitValue(c) == v && (c == '0' <==> v == 0)
    ensures '0' <= c <= '9' || 'a' <= c <= 'f'
  {
    if v < 10 then '0' + v as char else 'a' + (v - 10) as char
  }

  predicate Printable(base: nat) {
    base == 10 || base == 16
  }

  function LeadingPart(v: nat, base: nat): (u: nat)
    requires Printable(base)
    ensures v >= base ==> 0 < u < v
  {
    if base == 10 then v / 10 else v / 16
  }

  function LastDigit(v: nat, base: nat): (d: nat)
    requires Printable(base)
    ensures d < base && LeadingPart(v, base) * base + d == v
    ensures v < base ==> d == v
  {
    if base == 10 then v % 10 else v % 16
  }

  /** `v` written out in this base, with no leading zero. */
  function Digits(v: nat, base: nat): (s: string)
    requires Printable(base)
    ensures s != "" && (s[0] == '0' <==> v == 0)
    ensures v == 0 ==> s == "0"
    ensures forall i :: 0 <= i < |s| ==> DigitValue(s[i]) < base && ('0' <= s[i] <= '9' || 'a' <= s[i] <= 'f')
  {
    var last := [DigitOf(LastDigit(v, base))];
    if v < base then last else Digits(LeadingPart(v, base), base) + last
  }

  lemma {:induction false} NumeralOfDigits(v: nat, base: nat)
    requires Printable(base)
    ensures Numeral(Digits(v, base), base) == v
  {
    var s := Digits(v, base);
    var front := s[..|s| - 1];
    if v < base {
      assert front == "";
    } else {
      NumeralOfDigits(LeadingPart(v, base), base);
      assert front == Digits(LeadingPart(v, base), base);
    }
  }

  lemma {:induction false} DigitRunIsAll(text: string, base: nat)
    requires base <= 36
    requires forall i :: 0 <= i < |text| ==> DigitValue(text[i]) < base
    ensures DigitRun(text, base) == |text|
  {
    if text != "" {
      DigitRunIsAll(text[1..], base);
    }
  }

  function Hexadecimal(v: nat): string {
    "0x" + Digits(v, 16)
  }

  function Decimal(v: nat): string {
    Digits(v, 10)
  }

  /** Text with nothing before its digits is read as a magnitude. */
  lemma ParseOfMagnitude(text: string)
    requires text != "" && text[0] != '-' && text[0] != '+' && !IsCSpace(text[0])
    requires forall i :: 0 <= i < |text| ==> text[i] != '\0'
    ensures var m := Magnitude(text);
            ParseNumber(text) == if m.Some? && m.value <= 0xFFFF_FFFF then Some(m.value) else None
  {
    FoundAt(text, "\0", |text|);
    assert text[..|text|] == text;
    assert SkipCSpace(text) == text;
  }

  lemma WholeNumeralOfDigits(v: nat, base: nat)
    requires Printable(base)
    ensures WholeNumeral(Digits(v, base), base) == Some(v)
  {
    DigitRunIsAll(Digits(v, base), base);
    NumeralOfDigits(v, base);
  }

  lemma MagnitudeOfPrefixed(digits: string)
    requires digits != "" && DigitValue(digits[0]) < 16
    ensures Magnitude("0x" + digits) == WholeNumeral(digits, 16)
  {
    assert ("0x" + digits)[2..] == digits;
  }

  lemma HexadecimalReadsBack(v: word)
    ensures ParseNumber(Hexadecimal(v)) == Some(v)
  {
    WholeNumeralOfDigits(v, 16);
    MagnitudeOfPrefixed(Digits(v, 16));
    ParseOfMagnitude(Hexadecimal(v));
  }

  lemma DecimalReadsBack(v: word)
    ensures ParseNumber(Decimal(v)) == Some(v)
  {
    var dec := Decimal(v);
    ParseOfMagnitude(dec);
    if v == 0 {
      assert dec == "0" && dec[..0] == "" && Numeral(dec, 8) == 0;
      DigitRunIsAll(dec, 8);
    } else {
      WholeNumeralOfDigits(v, 10);
    }
  }

  lemma {:induction false} OctalAgainstDecimal(text: string)
    requires forall i :: 0 <= i < |text| ==> DigitValue(text[i]) < 8
    ensures Numeral(text, 8) <= Numeral(text, 10)
    ensures Numeral(text, 8) == Numeral(text, 10) <==> Numeral(text, 10) < 8
  {
    if text != "" {
      OctalAgainstDecimal(text[..|text| - 1]);
    }
  }

  predicate DecimalDigits(text: string) {
    text != "" && forall i :: 0 <= i < |text| ==> '0' <= text[i] <= '9'
  }

  /**
   * The format promises that a number without a prefix is decimal. A leading
   * zero makes it octal instead, so a run of decimal digits means what it
   * says exactly when it has no leading zero or is below eight.
   */
  lemma PlainDigitsAreDecimal(text: string)
    requires DecimalDigits(text)
    ensures ParseNumber(text) == Some(Numeral(text, 10))
       <==> Numeral(text, 10) <= 0xFFFF_FFFF && (text[0] != '0' || Numeral(text, 10) < 8)
  {
    ParseOfMagnitude(text);
    assert |text| > 1 ==> '0' <= text[1] <= '9';
    if text[0] == '0' {
      if DigitRun(text, 8) == |text| {
        OctalAgainstDecimal(text);
      } else {
        NumeralAtLeastEachDigit(text, DigitRun(text, 8));
      }
    } else {
      DigitRunIsAll(text, 10);
    }
  }

  lemma {:induction false} NumeralAtLeastEachDigit(text: string, at: nat)
    requires at < |text|
    ensures Numeral(text, 10) >= DigitValue(text[at])
  {
    if at < |text| - 1 {
      NumeralAtLeastEachDigit(text[..|text| - 1], at);
    }
  }
}

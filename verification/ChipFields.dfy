/** Which names, families, flags and numbers a description may hold, and where each goes. */
module ChipFields {
  import opened Basics
  import opened Text
  import opened ChipDescription
  import opened ChipPrinter

  // ---- Names -----------------------------------------------------------

  const NUMBERS: set<string> := {
    "chip_id", "flash.base", "flash.size_reg", "flash.page_size", "sram.base", "sram.size", "bootrom.base",
    "bootrom.size", "option.base", "option.size", "otp.base", "otp.size"
  }

  const FAMILIES: set<string> := {
    "C0", "C5", "F0_F1_F3", "F1_XL", "F2_F4", "F7", "G0", "G4", "H5", "H7", "L0_L1", "L4", "L5_U5", "WB_WL", "WB0"
  }

  lemma NumbersAreNamed(name: string)
    ensures NumberNamed(name).Some? <==> name in NUMBERS
  {
  }

  lemma FamiliesAreNamed(name: string)
    ensures FamilyOf(name) != Unknown <==> name in FAMILIES
  {
  }

  /** A setting is malformed for what its field takes, and only for that; the number is looked at before the name. */
  lemma SettingIsRefusedExactly(name: string, value: string)
    ensures ReadSetting(name, value).Malformed? <==>
            if name == "name" || name == "reference" then false
            else if name == "family" then value !in FAMILIES
            else if name == "flags" then FlagsFrom(value, NO_FLAGS).None?
            else ParseNumber(value).None? || name !in NUMBERS
  {
    NumbersAreNamed(name);
    FamiliesAreNamed(value);
    hide NumberNamed, FamilyOf, FlagsFrom, ParseNumber;
  }

  /** The chip once a number has been set. */
  function NumberSet(chip: Chip, name: string, value: string): Chip {
    var line := ReadSetting(name, value);
    if line.Setting? then Store(START.(chip := chip), line.field, line.value).chip else chip
  }

  lemma FlashNumbersGoWhereTheyAreNamed(chip: Chip, value: string, n: word)
    requires ParseNumber(value) == Some(n)
    ensures NumberSet(chip, "chip_id", value) == chip.(chipId := n)
    ensures NumberSet(chip, "flash.base", value) == chip.(flash := chip.flash.(base := n))
    ensures NumberSet(chip, "flash.size_reg", value) == chip.(flashSizeReg := n)
    ensures NumberSet(chip, "flash.page_size", value) == chip.(flashPageSize := n)
  {
    hide ReadSetting, ParseNumber;
    NumbersReadBack(ChipId, n, value);
    NumbersReadBack(FlashBase, n, value);
    NumbersReadBack(FlashSizeReg, n, value);
    NumbersReadBack(FlashPageSize, n, value);
  }

  lemma MemoryNumbersGoWhereTheyAreNamed(chip: Chip, value: string, n: word)
    requires ParseNumber(value) == Some(n)
    ensures NumberSet(chip, "sram.base", value) == chip.(sram := chip.sram.(base := n))
    ensures NumberSet(chip, "sram.size", value) == chip.(sram := chip.sram.(size := n))
    ensures NumberSet(chip, "bootrom.base", value) == chip.(bootrom := chip.bootrom.(base := n))
    ensures NumberSet(chip, "bootrom.size", value) == chip.(bootrom := chip.bootrom.(size := n))
  {
    hide ReadSetting, ParseNumber;
    NumbersReadBack(SramBase, n, value);
    NumbersReadBack(SramSize, n, value);
    NumbersReadBack(BootromBase, n, value);
    NumbersReadBack(BootromSize, n, value);
  }

  lemma OtherNumbersGoWhereTheyAreNamed(chip: Chip, value: string, n: word)
    requires ParseNumber(value) == Some(n)
    ensures NumberSet(chip, "option.base", value) == chip.(optionBytes := chip.optionBytes.(base := n))
    ensures NumberSet(chip, "option.size", value) == chip.(optionBytes := chip.optionBytes.(size := n))
    ensures NumberSet(chip, "otp.base", value) == chip.(otp := chip.otp.(base := n))
    ensures NumberSet(chip, "otp.size", value) == chip.(otp := chip.otp.(size := n))
  {
    hide ReadSetting, ParseNumber;
    NumbersReadBack(OptionBase, n, value);
    NumbersReadBack(OptionSize, n, value);
    NumbersReadBack(OtpBase, n, value);
    NumbersReadBack(OtpSize, n, value);
  }

  lemma WordsGoWhereTheyAreNamed(chip: Chip, value: string)
    ensures NumberSet(chip, "name", value) == chip.(name := value)
    ensures NumberSet(chip, "reference", value) == chip.(reference := value)
    ensures value in FAMILIES ==> FamilyName(NumberSet(chip, "family", value).family) == Some(value)
  {
  }

  // ---- Flags -----------------------------------------------------------

  function Spaced(words: seq<string>, gap: string): string
    requires words != []
  {
    if |words| == 1 then words[0] else words[0] + gap + Spaced(words[1..], gap)
  }

  predicate AllClean(words: seq<string>) {
    forall i :: 0 <= i < |words| ==> Clean(words[i])
  }

  lemma {:induction false} SpacedIsWellFormed(words: seq<string>, gap: string)
    requires words != [] && AllClean(words) && Gap(gap)
    ensures WellFormed(Spaced(words, gap))
  {
    if |words| > 1 {
      SpacedIsWellFormed(words[1..], gap);
    }
  }

  predicate AllKnown(words: seq<string>) {
    forall i :: 0 <= i < |words| ==> words[i] == "swo" || words[i] == "dualbank"
  }

  lemma OneFlag(word: string, flags: Flags)
    requires Clean(word)
    ensures FlagsFrom(word, flags) == WithFlag(flags, word)
  {
    FoundAt(word, " \t", |word|);
    assert word[..|word|] == word;
    TrimmedIsFixed(word);
  }

  lemma {:induction false} FlagsAdded(words: seq<string>, gap: string, flags: Flags)
    requires words != [] && AllClean(words) && Gap(gap)
    ensures FlagsFrom(Spaced(words, gap), flags) ==
            if AllKnown(words) then Some(Flags(flags.swo || "swo" in words, flags.dualBank || "dualbank" in words))
            else None
  {
    hide FlagsFrom, Gap;
    var first, rest := words[0], words[1..];
    assert words == [first] + rest;
    assert first != "";
    if |words| == 1 {
      OneFlag(first, flags);
    } else {
      SpacedIsWellFormed(rest, gap);
      FlagThenFlags(first, gap, Spaced(rest, gap), flags);
      var next := WithFlag(flags, first);
      assert AllKnown(words) <==> next.Some? && AllKnown(rest);
      if next.Some? {
        FlagsAdded(rest, gap, next.value);
      }
    }
  }

  /** The value of a flags line is a set of words, of which there are two; any other word makes it malformed. */
  lemma FlagsAreASet(words: seq<string>, gap: string)
    requires words != [] && AllClean(words) && Gap(gap)
    ensures ReadSetting("flags", Spaced(words, gap)) ==
            if AllKnown(words) then Setting(FlagList, Quirks(Flags("swo" in words, "dualbank" in words)))
            else Malformed(NoSuchFlag)
  {
    FlagsAdded(words, gap, NO_FLAGS);
    hide FlagsFrom, AllKnown, AllClean, Spaced;
  }

  // ---- Numbers ---------------------------------------------------------

  predicate IsHex(c: char) {
    '0' <= c <= '9' || 'a' <= c <= 'f' || 'A' <= c <= 'F'
  }

  lemma HexDigits(digits: string)
    ensures DigitRun(digits, 16) == |digits| <==> forall i :: 0 <= i < |digits| ==> IsHex(digits[i])
  {
    if forall i :: 0 <= i < |digits| ==> IsHex(digits[i]) {
      DigitRunIsAll(digits, 16);
    }
  }

  lemma MagnitudeOfHex(digits: string)
    ensures Magnitude("0x" + digits) == WholeNumeral(digits, 16)
  {
    if digits != "" && DigitValue(digits[0]) < 16 {
      MagnitudeOfPrefixed(digits);
    } else {
      var text := "0x" + digits;
      assert text[0] == '0' && text[1] == 'x' && DigitValue(text[1]) >= 8;
      assert DigitRun(text, 8) < |text|;
      assert digits != "" ==> text[2] == digits[0];
    }
  }

  /** A hexadecimal number is read as a whole or not at all: nothing may follow the digits, and they must fit. */
  lemma HexadecimalIsReadWhole(digits: string)
    requires '\0' !in digits
    ensures ParseNumber("0x" + digits) ==
            if digits != "" && (forall i :: 0 <= i < |digits| ==> IsHex(digits[i]))
               && Numeral(digits, 16) <= 0xFFFF_FFFF
            then Some(Numeral(digits, 16)) else None
  {
    hide ParseNumber, Magnitude, Numeral, DigitRun, IsHex;
    assert forall i :: 0 <= i < |"0x" + digits| ==> ("0x" + digits)[i] != '\0';
    ParseOfMagnitude("0x" + digits);
    MagnitudeOfHex(digits);
    HexDigits(digits);
  }

  lemma ThreeDigits(a: char, b: char, c: char, base: nat)
    requires base <= 36
    ensures Numeral([a, b, c], base) == (DigitValue(a) * base + DigitValue(b)) * base + DigitValue(c)
  {
    var three, two, one := [a, b, c], [a, b], [a];
    assert three[..2] == two && two[..1] == one && one[..0] == "";
    assert Numeral("", base) == 0 && Numeral(one, base) == DigitValue(a);
    assert Numeral(two, base) == Numeral(one, base) * base + DigitValue(b);
  }

  lemma PrefixedByExample()
    ensures ParseNumber("0x41F") == Some(0x41f)
    ensures ParseNumber("0x4z0") == None
  {
    hide ParseNumber, Numeral;
    ThreeDigits('4', '1', 'F', 16);
    HexadecimalIsReadWhole("41F");
    assert "0x" + "41F" == "0x41F";
    var junk := "4z0";
    assert junk[1] == 'z';
    HexadecimalIsReadWhole(junk);
    assert "0x" + junk == "0x4z0";
  }

  lemma OctalByExample()
    ensures ParseNumber("010") == Some(8)
  {
    hide ParseNumber, Numeral;
    var octal := "010";
    ThreeDigits('0', '1', '0', 8);
    ParseOfMagnitude(octal);
    DigitRunIsAll(octal, 8);
  }
}

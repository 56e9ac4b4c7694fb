/** Writing a chip description in the documented format, which the parser undoes. */
module ChipPrinter {
  import opened Basics
  import opened Text
  import opened ChipDescription
  import opened ChipInsensitivity

  /** Words a value may be: on one line, no comment sign, and no space at either end. */
  predicate WellFormed(text: string) {
    && text != "" && !IsSpace(text[0]) && !IsSpace(text[|text| - 1])
    && forall i :: 0 <= i < |text| ==> text[i] != '#' && text[i] != '\n'
  }

  predicate Printable(line: Line) {
    && line.Setting? && Fits(line.field, line.value)
    && match line.value
       case Words(text) => WellFormed(text)
       case Kind(_) => true
       case Quirks(flags) => flags != NO_FLAGS
       case Number(_) => true
  }

  predicate AllPrintable(lines: seq<Line>) {
    forall i :: 0 <= i < |lines| ==> Printable(lines[i])
  }

  function FlagNames(flags: Flags): string {
    (if flags.swo then "swo" else "")
    + (if flags.swo && flags.dualBank then " " else "")
    + (if flags.dualBank then "dualbank" else "")
  }

  /** How a value is written; a number in hexadecimal or in decimal, as the writer likes. */
  function PrintedValue(value: Value, hex: bool): string {
    match value
    case Words(text) => text
    case Kind(family) => (match FamilyName(family) case Some(name) => name case None => "")
    case Quirks(flags) => FlagNames(flags)
    case Number(n) => if hex then Hexadecimal(n) else Decimal(n)
  }

  function PrintedLine(line: Line, hex: bool, gap: string): string
    requires line.Setting?
  {
    FieldName(line.field) + gap + PrintedValue(line.value, hex)
  }

  predicate Gap(gap: string) {
    gap != "" && forall i :: 0 <= i < |gap| ==> gap[i] == ' ' || gap[i] == '\t'
  }

  // ---- Each part reads back --------------------------------------------

  predicate Clean(text: string) {
    text != "" && forall i :: 0 <= i < |text| ==> text[i] != '#' && text[i] != '\n' && !IsSpace(text[i])
  }

  lemma IdentityNamesAreClean(field: Field)
    requires field in [Name, Reference, Family, FlagList, ChipId]
    ensures Clean(FieldName(field))
  {
  }

  lemma FlashNamesAreClean(field: Field)
    requires field in [FlashBase, FlashSizeReg, FlashPageSize]
    ensures Clean(FieldName(field))
  {
  }

  lemma MemoryNamesAreClean(field: Field)
    requires field in [SramBase, SramSize, BootromBase, BootromSize]
    ensures Clean(FieldName(field))
  {
  }

  lemma OtherMemoryNamesAreClean(field: Field)
    requires field in [OptionBase, OptionSize, OtpBase, OtpSize]
    ensures Clean(FieldName(field))
  {
  }

  lemma FieldNamesAreClean(field: Field)
    ensures Clean(FieldName(field))
  {
    if field in [Name, Reference, Family, FlagList, ChipId] {
      IdentityNamesAreClean(field);
    } else if field in [FlashBase, FlashSizeReg, FlashPageSize] {
      FlashNamesAreClean(field);
    } else if field in [SramBase, SramSize, BootromBase, BootromSize] {
      MemoryNamesAreClean(field);
    } else {
      OtherMemoryNamesAreClean(field);
    }
  }

  predicate FamilyReadsBack(family: FlashFamily) {
    var name := FamilyName(family);
    name.Some? && Clean(name.value) && FamilyOf(name.value) == family
  }

  lemma FirstFamiliesReadBack(family: FlashFamily)
    requires family in [C0, C5, F0_F1_F3, F1_XL]
    ensures FamilyReadsBack(family)
  {
  }

  lemma SecondFamiliesReadBack(family: FlashFamily)
    requires family in [F2_F4, F7, G0, G4]
    ensures FamilyReadsBack(family)
  {
  }

  lemma ThirdFamiliesReadBack(family: FlashFamily)
    requires family in [H5, H7, L0_L1, L4]
    ensures FamilyReadsBack(family)
  {
  }

  lemma LastFamiliesReadBack(family: FlashFamily)
    requires family in [L5_U5, WB_WL, WB0]
    ensures FamilyReadsBack(family)
  {
  }

  lemma FamilyNamesReadBack(family: FlashFamily)
    requires family != Unknown
    ensures FamilyName(family).Some?
    ensures Clean(FamilyName(family).value) && FamilyOf(FamilyName(family).value) == family
  {
    hide Clean, FamilyName, FamilyOf;
    if family in [C0, C5, F0_F1_F3, F1_XL] {
      FirstFamiliesReadBack(family);
    } else if family in [F2_F4, F7, G0, G4] {
      SecondFamiliesReadBack(family);
    } else if family in [H5, H7, L0_L1, L4] {
      ThirdFamiliesReadBack(family);
    } else {
      LastFamiliesReadBack(family);
    }
  }

  /** Flags may be separated by any white space. */
  lemma FlagThenFlags(word: string, gap: string, rest: string, flags: Flags)
    requires Clean(word) && Gap(gap) && WellFormed(rest)
    ensures FlagsFrom(word + gap + rest, flags) ==
            match WithFlag(flags, word) case None => None case Some(next) => FlagsFrom(rest, next)
  {
    var text := word + gap + rest;
    FoundAt(text, " \t", |word|);
    assert text[..|word|] == word && text[|word|..] == gap + rest;
    TrimmedIsFixed(word);
    TrimIgnoresSpacesInFront(gap, rest);
    TrimmedIsFixed(rest);
  }

  lemma FlagsReadBack(flags: Flags)
    requires flags != NO_FLAGS
    ensures FlagsFrom(FlagNames(flags), NO_FLAGS) == Some(flags)
  {
    var first := if flags.swo then "swo" else "";
    var second := if flags.dualBank then "dualbank" else "";
    if flags.swo && flags.dualBank {
      FlagThenFlags(first, " ", second, NO_FLAGS);
      LastWordOfFlags(second, Flags(true, false));
    } else {
      assert FlagNames(flags) == if flags.swo then first else second;
      LastWordOfFlags(FlagNames(flags), NO_FLAGS);
    }
  }

  lemma FlagNamesAreWellFormed(flags: Flags)
    requires flags != NO_FLAGS
    ensures WellFormed(FlagNames(flags))
  {
  }

  lemma LastWordOfFlags(word: string, flags: Flags)
    requires word == "swo" || word == "dualbank"
    ensures FlagsFrom(word, flags) == WithFlag(flags, word)
  {
    FoundAt(word, " \t", |word|);
    assert word[..|word|] == word;
  }

  lemma NumbersAreWellFormed(n: word, hex: bool)
    ensures WellFormed(if hex then Hexadecimal(n) else Decimal(n))
  {
    var digits := Digits(n, if hex then 16 else 10);
    assert WellFormed(digits);
    assert hex ==> Hexadecimal(n) == "0x" + digits;
  }

  lemma NumbersReadBack(field: Field, n: word, text: string)
    requires IsNumber(field) && ParseNumber(text) == Some(n)
    ensures ReadSetting(FieldName(field), text) == Setting(field, Number(n))
  {
    NumberNamesReadBack(field);
  }

  lemma FamiliesReadBack(family: FlashFamily)
    requires family != Unknown
    ensures WellFormed(PrintedValue(Kind(family), true))
    ensures ReadSetting("family", PrintedValue(Kind(family), true)) == Setting(Family, Kind(family))
  {
    FamilyNamesReadBack(family);
  }

  lemma QuirksReadBack(flags: Flags)
    requires flags != NO_FLAGS
    ensures ReadSetting("flags", FlagNames(flags)) == Setting(FlagList, Quirks(flags))
  {
    FlagsReadBack(flags);
  }

  lemma WordsReadBack(text: string)
    ensures ReadSetting("name", text) == Setting(Name, Words(text))
    ensures ReadSetting("reference", text) == Setting(Reference, Words(text))
  {
  }

  lemma ValuesReadBack(line: Line, hex: bool)
    requires Printable(line)
    ensures WellFormed(PrintedValue(line.value, hex))
    ensures ReadSetting(FieldName(line.field), PrintedValue(line.value, hex)) == line
  {
    hide ReadSetting, ParseNumber, FlagNames, FamilyName, Hexadecimal, Decimal;
    match line.value
    case Words(text) => WordsReadBack(text);
    case Kind(family) => FamiliesReadBack(family);
    case Quirks(flags) =>
      QuirksReadBack(flags);
      FlagNamesAreWellFormed(flags);
    case Number(n) =>
      HexadecimalReadsBack(n);
      DecimalReadsBack(n);
      NumbersAreWellFormed(n, hex);
      NumbersReadBack(line.field, n, PrintedValue(line.value, hex));
  }

  lemma NumberNamesReadBack(field: Field)
    requires IsNumber(field)
    ensures NumberNamed(FieldName(field)) == Some(field)
    ensures FieldName(field) !in ["name", "reference", "family", "flags"]
  {
  }

  lemma LineReadsBack(line: Line, hex: bool, gap: string)
    requires Printable(line) && Gap(gap)
    ensures ReadLine(PrintedLine(line, hex, gap)) == line
    ensures '\n' !in PrintedLine(line, hex, gap)
  {
    var name, value := FieldName(line.field), PrintedValue(line.value, hex);
    FieldNamesAreClean(line.field);
    ValuesReadBack(line, hex);
    SplitReadsBack(name, gap, value);
  }

  /** No comment to strip, and nothing to trim. */
  lemma NothingToTakeOff(name: string, gap: string, value: string)
    requires Clean(name) && Gap(gap) && WellFormed(value)
    ensures Trimmed(StripComment(name + gap + value)) == name + gap + value
  {
    var text := name + gap + value;
    FoundAt(text, "#", |text|);
    assert text[..|text|] == text;
    TrimmedIsFixed(text);
  }

  lemma SplitsAtTheGap(name: string, gap: string, value: string)
    requires Clean(name) && Gap(gap) && WellFormed(value)
    ensures var text := name + gap + value;
            && FindFirstOf(text, " \t") == |name|
            && text[..|name|] == name
            && Trimmed(text[|name|..]) == value
  {
    var text := name + gap + value;
    FoundAt(text, " \t", |name|);
    assert text[|name|..] == gap + value;
    TrimIgnoresSpacesInFront(gap, value);
    TrimmedIsFixed(value);
  }

  lemma SplitReadsBack(name: string, gap: string, value: string)
    requires Clean(name) && Gap(gap) && WellFormed(value)
    ensures ReadLine(name + gap + value) == ReadSetting(name, value)
  {
    NothingToTakeOff(name, gap, value);
    SplitsAtTheGap(name, gap, value);
  }

  function PrintedLines(lines: seq<Line>, hex: Field -> bool, gap: string): (r: seq<string>)
    requires AllPrintable(lines)
    ensures |r| == |lines|
    ensures forall i :: 0 <= i < |lines| ==> r[i] == PrintedLine(lines[i], hex(lines[i].field), gap)
  {
    seq(|lines|, i requires 0 <= i < |lines| => PrintedLine(lines[i], hex(lines[i].field), gap))
  }

  /** Each of these lines with a newline after it. */
  function Joined(lines: seq<string>): string {
    if lines == [] then "" else lines[0] + "\n" + Joined(lines[1..])
  }

  function Printed(lines: seq<Line>, hex: Field -> bool, gap: string): string
    requires AllPrintable(lines)
  {
    Joined(PrintedLines(lines, hex, gap))
  }

  lemma {:induction false} LinesOfJoined(lines: seq<string>)
    requires forall line <- lines :: '\n' !in line
    ensures Lines(Joined(lines)) == lines
  {
    if lines != [] {
      LinesFirst(lines[0], Joined(lines[1..]));
      LinesOfJoined(lines[1..]);
    }
  }

  /** Parsing what was printed gives back every setting, in whatever order they were written. */
  lemma SettingsReadBack(lines: seq<Line>, hex: Field -> bool, gap: string)
    requires AllPrintable(lines) && Gap(gap)
    ensures ReadAll(Printed(lines, hex, gap)) == lines
  {
    var printed := PrintedLines(lines, hex, gap);
    forall i | 0 <= i < |lines| ensures '\n' !in printed[i] && ReadLine(printed[i]) == lines[i] {
      LineReadsBack(lines[i], hex(lines[i].field), gap);
    }
    LinesOfJoined(printed);
  }

  // ---- The whole description -------------------------------------------

  /** What a description says about one field. */
  function ValueIn(chip: Chip, field: Field): (value: Value)
    ensures IsNumber(field) ==> value.Number?
  {
    match field
    case Name => Words(chip.name)
    case Reference => Words(chip.reference)
    case Family => Kind(chip.family)
    case FlagList => Quirks(chip.flags)
    case ChipId => Number(chip.chipId)
    case FlashBase => Number(chip.flash.base)
    case FlashSizeReg => Number(chip.flashSizeReg)
    case FlashPageSize => Number(chip.flashPageSize)
    case SramBase => Number(chip.sram.base)
    case SramSize => Number(chip.sram.size)
    case BootromBase => Number(chip.bootrom.base)
    case BootromSize => Number(chip.bootrom.size)
    case OptionBase => Number(chip.optionBytes.base)
    case OptionSize => Number(chip.optionBytes.size)
    case OtpBase => Number(chip.otp.base)
    case OtpSize => Number(chip.otp.size)
  }

  /** The descriptions a file can hold: the flash size always comes from the chip itself. */
  predicate Describable(chip: Chip) {
    && WellFormed(chip.name)
    && (chip.reference == "" || WellFormed(chip.reference))
    && chip.family != Unknown
    && chip.flash.size == 0
  }

  predicate Required(field: Field) {
    field == Name || field == ChipId || field == Family
  }

  /** Settings that say nothing false of the chip, and leave out nothing but defaults. */
  predicate Describes(lines: seq<Line>, chip: Chip) {
    && (forall line <- lines :: line.Setting? && line.value == ValueIn(chip, line.field))
    && (forall field: Field :: Mentions(lines, field) || MayBeLeftOut(chip, field))
  }

  predicate MayBeLeftOut(chip: Chip, field: Field) {
    !Required(field) && ValueIn(chip, field) == ValueIn(EMPTY_CHIP, field)
  }

  predicate Mentions(lines: seq<Line>, field: Field) {
    exists line <- lines :: line.Setting? && line.field == field
  }

  lemma {:induction false} LastWinsOfTruths(lines: seq<Line>, chip: Chip)
    requires forall line <- lines :: line.Setting? && line.value == ValueIn(chip, line.field)
    ensures forall field :: field in LastWins(lines) <==> Mentions(lines, field)
    ensures forall field :: field in LastWins(lines) ==> LastWins(lines)[field] == ValueIn(chip, field)
  {
    if lines != [] {
      var n := |lines| - 1;
      LastWinsOfTruths(lines[..n], chip);
      assert lines == lines[..n] + [lines[n]];
    }
  }

  /**
   * Any way of writing a description down, numbers in either base, fields in
   * any order, repeated or left at their default, is read back as exactly it.
   */
  lemma ParserUndoesPrinter(chip: Chip, lines: seq<Line>, hex: Field -> bool, gap: string)
    requires Describable(chip) && Describes(lines, chip)
    requires AllPrintable(lines) && Gap(gap)
    ensures Description(Printed(lines, hex, gap)) == Described(chip)
  {
    SettingsReadBack(lines, hex, gap);
    LastWinsOfTruths(lines, chip);
    assert WellKinded(LastWins(lines)) && NothingMalformed(lines);
    assert forall field :: field in LastWins(lines) || MayBeLeftOut(chip, field);
    hide Description, LookUp, LastWins, Printed, Describes, MayBeLeftOut, ReadAll, WellKinded, ValueIn;
    LookUpOfTruths(LastWins(lines), chip);
    WellFormedIsALookUp(Printed(lines, hex, gap));
  }

  lemma EveryFieldIsListed(field: Field)
    ensures field in ALL_FIELDS
  {
    match field {
      case Name => assert ALL_FIELDS[0] == field;
      case Reference => assert ALL_FIELDS[1] == field;
      case ChipId => assert ALL_FIELDS[2] == field;
      case Family => assert ALL_FIELDS[3] == field;
      case FlashBase => assert ALL_FIELDS[4] == field;
      case FlashSizeReg => assert ALL_FIELDS[5] == field;
      case FlashPageSize => assert ALL_FIELDS[6] == field;
      case SramBase => assert ALL_FIELDS[7] == field;
      case SramSize => assert ALL_FIELDS[8] == field;
      case BootromBase => assert ALL_FIELDS[9] == field;
      case BootromSize => assert ALL_FIELDS[10] == field;
      case OptionBase => assert ALL_FIELDS[11] == field;
      case OptionSize => assert ALL_FIELDS[12] == field;
      case OtpBase => assert ALL_FIELDS[13] == field;
      case OtpSize => assert ALL_FIELDS[14] == field;
      case FlagList => assert ALL_FIELDS[15] == field;
    }
  }

  lemma NumberOfTruth(m: Settings, chip: Chip, field: Field)
    requires WellKinded(m) && IsNumber(field)
    requires if field in m then m[field] == ValueIn(chip, field) else MayBeLeftOut(chip, field)
    ensures NumberAt(m, field) == ValueIn(chip, field).n
  {
  }

  lemma NumbersOfTruths(m: Settings, chip: Chip)
    requires WellKinded(m)
    requires forall field <- m :: m[field] == ValueIn(chip, field)
    requires forall field :: field in m || MayBeLeftOut(chip, field)
    ensures forall field :: IsNumber(field) ==> NumberAt(m, field) == ValueIn(chip, field).n
  {
    forall field: Field | IsNumber(field) ensures NumberAt(m, field) == ValueIn(chip, field).n {
      NumberOfTruth(m, chip, field);
    }
  }

  lemma LookUpOfNumbers(m: Settings, chip: Chip)
    requires WellKinded(m)
    requires forall field :: IsNumber(field) ==> NumberAt(m, field) == ValueIn(chip, field).n
    requires chip.flash.size == 0
    ensures var found := LookUp(m).chip;
            found == chip.(name := found.name, reference := found.reference, family := found.family,
                           flags := found.flags)
  {
    assert NumberAt(m, FlashBase) == chip.flash.base;
    assert NumberAt(m, ChipId) == chip.chipId;
    assert NumberAt(m, FlashSizeReg) == chip.flashSizeReg && NumberAt(m, FlashPageSize) == chip.flashPageSize;
    assert NumberAt(m, SramBase) == chip.sram.base && NumberAt(m, SramSize) == chip.sram.size;
    assert NumberAt(m, BootromBase) == chip.bootrom.base && NumberAt(m, BootromSize) == chip.bootrom.size;
    assert NumberAt(m, OptionBase) == chip.optionBytes.base && NumberAt(m, OptionSize) == chip.optionBytes.size;
    assert NumberAt(m, OtpBase) == chip.otp.base && NumberAt(m, OtpSize) == chip.otp.size;
  }

  lemma LookUpOfWords(m: Settings, chip: Chip)
    requires WellKinded(m) && Describable(chip)
    requires forall field <- m :: m[field] == ValueIn(chip, field)
    requires forall field :: field in m || MayBeLeftOut(chip, field)
    ensures var found := LookUp(m).chip;
            && found.name == chip.name && found.reference == chip.reference
            && found.family == chip.family && found.flags == chip.flags
    ensures Name in m && ChipId in m && Family in m
  {
    assert !MayBeLeftOut(chip, Name) && !MayBeLeftOut(chip, ChipId) && !MayBeLeftOut(chip, Family);
    assert FlagList in m || MayBeLeftOut(chip, FlagList);
    assert Reference in m || MayBeLeftOut(chip, Reference);
  }

  lemma LookUpOfTruths(m: Settings, chip: Chip)
    requires WellKinded(m) && Describable(chip)
    requires forall field <- m :: m[field] == ValueIn(chip, field)
    requires forall field :: field in m || MayBeLeftOut(chip, field)
    ensures LookUp(m) == Progress(chip, true, true, true)
    ensures Name in m && ChipId in m && Family in m
  {
    NumbersOfTruths(m, chip);
    LookUpOfNumbers(m, chip);
    LookUpOfWords(m, chip);
  }

  const ALL_FIELDS: seq<Field> := [
    Name, Reference, ChipId, Family, FlashBase, FlashSizeReg, FlashPageSize, SramBase, SramSize,
    BootromBase, BootromSize, OptionBase, OptionSize, OtpBase, OtpSize, FlagList
  ]

  /** The settings worth writing: all of them, bar an absent reference and an empty flags line. */
  function Worth(chip: Chip, fields: seq<Field>): (lines: seq<Line>)
    requires Describable(chip)
    ensures AllPrintable(lines) && forall line <- lines :: line.Setting? && line.value == ValueIn(chip, line.field)
    ensures forall field <- fields :: field in [Reference, FlagList] || Setting(field, ValueIn(chip, field)) in lines
    ensures Reference in fields ==> chip.reference == "" || Setting(Reference, ValueIn(chip, Reference)) in lines
    ensures FlagList in fields ==> chip.flags == NO_FLAGS || Setting(FlagList, ValueIn(chip, FlagList)) in lines
  {
    if fields == [] then []
    else
      var skip := (fields[0] == Reference && chip.reference == "") || (fields[0] == FlagList && chip.flags == NO_FLAGS);
      (if skip then [] else [Setting(fields[0], ValueIn(chip, fields[0]))]) + Worth(chip, fields[1..])
  }

  /** The chip as its own file would have it. */
  function Print(chip: Chip, hex: Field -> bool, gap: string): string
    requires Describable(chip)
  {
    Printed(Worth(chip, ALL_FIELDS), hex, gap)
  }

  lemma PrintReadsBack(chip: Chip, hex: Field -> bool, gap: string)
    requires Describable(chip) && Gap(gap)
    ensures Description(Print(chip, hex, gap)) == Described(chip)
  {
    hide Description, Printed, WellFormed, MayBeLeftOut;
    var lines := Worth(chip, ALL_FIELDS);
    forall field: Field
      ensures Mentions(lines, field) || MayBeLeftOut(chip, field)
    {
      EveryFieldIsListed(field);
      if Setting(field, ValueIn(chip, field)) in lines {
        assert Mentions(lines, field);
      } else {
        DefaultsMayBeLeftOut(chip, field);
      }
    }
    ParserUndoesPrinter(chip, lines, hex, gap);
  }

  lemma DefaultsMayBeLeftOut(chip: Chip, field: Field)
    requires (field == Reference && chip.reference == "") || (field == FlagList && chip.flags == NO_FLAGS)
    ensures MayBeLeftOut(chip, field)
  {
  }
}

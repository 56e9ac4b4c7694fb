/** From the text of a chip file to the chip it describes. */
module ChipDescription {
  import opened Basics
  import opened Text

  datatype FlashFamily =
    | Unknown | C0 | C5 | F0_F1_F3 | F1_XL | F2_F4 | F7 | G0 | G4
    | H5 | H7 | L0_L1 | L4 | L5_U5 | WB_WL | WB0

  /** The table of names, in which Unknown has none. */
  function FamilyName(family: FlashFamily): Option<string> {
    match family
    case Unknown => None
    case C0 => Some("C0")
    case C5 => Some("C5")
    case F0_F1_F3 => Some("F0_F1_F3")
    case F1_XL => Some("F1_XL")
    case F2_F4 => Some("F2_F4")
    case F7 => Some("F7")
    case G0 => Some("G0")
    case G4 => Some("G4")
    case H5 => Some("H5")
    case H7 => Some("H7")
    case L0_L1 => Some("L0_L1")
    case L4 => Some("L4")
    case L5_U5 => Some("L5_U5")
    case WB_WL => Some("WB_WL")
    case WB0 => Some("WB0")
  }

  /** The table of names, backwards; Unknown stands for every name that is not in it. */
  function FamilyOf(name: string): FlashFamily {
    if name == "C0" then C0
    else if name == "C5" then C5
    else if name == "F0_F1_F3" then F0_F1_F3
    else if name == "F1_XL" then F1_XL
    else if name == "F2_F4" then F2_F4
    else if name == "F7" then F7
    else if name == "G0" then G0
    else if name == "G4" then G4
    else if name == "H5" then H5
    else if name == "H7" then H7
    else if name == "L0_L1" then L0_L1
    else if name == "L4" then L4
    else if name == "L5_U5" then L5_U5
    else if name == "WB_WL" then WB_WL
    else if name == "WB0" then WB0
    else Unknown
  }

  datatype Region = Region(base: word, size: word)

  datatype Flags = Flags(swo: bool, dualBank: bool)

  datatype Chip = Chip(
    name: string, reference: string, chipId: word, family: FlashFamily,
    flash: Region, flashSizeReg: word, flashPageSize: word,
    sram: Region, bootrom: Region, optionBytes: Region, otp: Region,
    flags: Flags)

  /** Why a description was turned down. */
  datatype Fault = NoValue | NoSuchFamily | NoSuchFlag | NotANumber | NoSuchField | Incomplete

  datatype Parsed = Described(chip: Chip) | Rejected(fault: Fault)

  // ---- Flags -----------------------------------------------------------

  const NO_FLAGS := Flags(false, false)

  function WithFlag(flags: Flags, word: string): (r: Option<Flags>) {
    if word == "swo" then Some(flags.(swo := true))
    else if word == "dualbank" then Some(flags.(dualBank := true))
    else if word == "" then Some(flags)
    else None
  }

  function FlagsFrom(text: string, flags: Flags): (r: Option<Flags>)
    decreases |text|
  {
    if text == "" then Some(flags)
    else
      var end := FindFirstOf(text, " \t");
      match WithFlag(flags, Trimmed(text[..end]))
      case None => None
      case Some(next) => if end == |text| then Some(next) else FlagsFrom(Trimmed(text[end..]), next)
  }

  method ParseFlags(value: string) returns (r: Option<Flags>)
    ensures r == FlagsFrom(value, NO_FLAGS)
  {
    var text, flags := value, NO_FLAGS;
    while text != ""
      invariant FlagsFrom(text, flags) == FlagsFrom(value, NO_FLAGS)
      decreases |text|
    {
      var end := FindFirstOf(text, " \t");
      var word := Trim(text[..end]);
      if word == "swo" {
        flags := flags.(swo := true);
      } else if word == "dualbank" {
        flags := flags.(dualBank := true);
      } else if word != "" {
        return None;
      }
      if end == |text| {
        break;
      }
      text := Trim(text[end..]);
    }
    r := Some(flags);
  }

  // ---- One line --------------------------------------------------------

  datatype Field =
    | Name | Reference | Family | FlagList | ChipId | FlashBase | FlashSizeReg | FlashPageSize
    | SramBase | SramSize | BootromBase | BootromSize | OptionBase | OptionSize | OtpBase | OtpSize

  function FieldName(field: Field): (name: string) {
    match field
    case Name => "name"
    case Reference => "reference"
    case Family => "family"
    case FlagList => "flags"
    case ChipId => "chip_id"
    case FlashBase => "flash.base"
    case FlashSizeReg => "flash.size_reg"
    case FlashPageSize => "flash.page_size"
    case SramBase => "sram.base"
    case SramSize => "sram.size"
    case BootromBase => "bootrom.base"
    case BootromSize => "bootrom.size"
    case OptionBase => "option.base"
    case OptionSize => "option.size"
    case OtpBase => "otp.base"
    case OtpSize => "otp.size"
  }

  /** The numeric field with this name. */
  function NumberNamed(name: string): (field: Option<Field>)
    ensures field.Some? ==> IsNumber(field.value)
  {
    if name == "chip_id" then Some(ChipId)
    else if name == "flash.base" then Some(FlashBase)
    else if name == "flash.size_reg" then Some(FlashSizeReg)
    else if name == "flash.page_size" then Some(FlashPageSize)
    else if name == "sram.base" then Some(SramBase)
    else if name == "sram.size" then Some(SramSize)
    else if name == "bootrom.base" then Some(BootromBase)
    else if name == "bootrom.size" then Some(BootromSize)
    else if name == "option.base" then Some(OptionBase)
    else if name == "option.size" then Some(OptionSize)
    else if name == "otp.base" then Some(OtpBase)
    else if name == "otp.size" then Some(OtpSize)
    else None
  }

  predicate IsNumber(field: Field) {
    !field.Name? && !field.Reference? && !field.Family? && !field.FlagList?
  }

  datatype Value = Words(text: string) | Kind(family: FlashFamily) | Quirks(flags: Flags) | Number(n: word)

  /** Whether a value is of the kind its field takes. */
  predicate Fits(field: Field, value: Value) {
    match value
    case Words(_) => field == Name || field == Reference
    case Kind(family) => field == Family && family != Unknown
    case Quirks(_) => field == FlagList
    case Number(_) => IsNumber(field)
  }

  datatype Line = Blank | Setting(field: Field, value: Value) | Malformed(fault: Fault)

  function ReadSetting(name: string, value: string): (line: Line)
    ensures line.Setting? ==> Fits(line.field, line.value)
    ensures line != Blank
  {
    if name == "name" then Setting(Name, Words(value))
    else if name == "reference" then Setting(Reference, Words(value))
    else if name == "family" then
      if FamilyOf(value) == Unknown then Malformed(NoSuchFamily) else Setting(Family, Kind(FamilyOf(value)))
    else if name == "flags" then
      match FlagsFrom(value, NO_FLAGS)
      case None => Malformed(NoSuchFlag)
      case Some(flags) => Setting(FlagList, Quirks(flags))
    else
      match ParseNumber(value)
      case None => Malformed(NotANumber)
      case Some(n) =>
        match NumberNamed(name)
        case None => Malformed(NoSuchField)
        case Some(field) => Setting(field, Number(n))
  }

  function ReadContent(line: string): (r: Line)
    ensures r.Setting? ==> Fits(r.field, r.value)
  {
    var split := FindFirstOf(line, " \t");
    if line == "" then Blank
    else if split == |line| then Malformed(NoValue)
    else
      var value := Trimmed(line[split..]);
      if value == "" then Malformed(NoValue) else ReadSetting(line[..split], value)
  }

  function ReadLine(raw: string): (r: Line)
    ensures r.Setting? ==> Fits(r.field, r.value)
  {
    ReadContent(Trimmed(StripComment(raw)))
  }

  // ---- The whole file --------------------------------------------------

  datatype Progress = Progress(chip: Chip, seenName: bool, seenChipId: bool, seenFamily: bool)

  const NOWHERE := Region(0, 0)
  const EMPTY_CHIP := Chip("", "", 0, Unknown, NOWHERE, 0, 0, NOWHERE, NOWHERE, NOWHERE, NOWHERE, NO_FLAGS)
  const START := Progress(EMPTY_CHIP, false, false, false)

  function Store(p: Progress, field: Field, value: Value): Progress
    requires Fits(field, value)
  {
    var chip := p.chip;
    match field
    case Name => p.(chip := chip.(name := value.text), seenName := true)
    case Reference => p.(chip := chip.(reference := value.text))
    case Family => p.(chip := chip.(family := value.family), seenFamily := true)
    case FlagList => p.(chip := chip.(flags := value.flags))
    case ChipId => p.(chip := chip.(chipId := value.n), seenChipId := true)
    case FlashBase => p.(chip := chip.(flash := chip.flash.(base := value.n)))
    case FlashSizeReg => p.(chip := chip.(flashSizeReg := value.n))
    case FlashPageSize => p.(chip := chip.(flashPageSize := value.n))
    case SramBase => p.(chip := chip.(sram := chip.sram.(base := value.n)))
    case SramSize => p.(chip := chip.(sram := chip.sram.(size := value.n)))
    case BootromBase => p.(chip := chip.(bootrom := chip.bootrom.(base := value.n)))
    case BootromSize => p.(chip := chip.(bootrom := chip.bootrom.(size := value.n)))
    case OptionBase => p.(chip := chip.(optionBytes := chip.optionBytes.(base := value.n)))
    case OptionSize => p.(chip := chip.(optionBytes := chip.optionBytes.(size := value.n)))
    case OtpBase => p.(chip := chip.(otp := chip.otp.(base := value.n)))
    case OtpSize => p.(chip := chip.(otp := chip.otp.(size := value.n)))
  }

  function Finish(p: Progress): Parsed {
    if p.seenName && p.seenChipId && p.seenFamily then Described(p.chip) else Rejected(Incomplete)
  }

  predicate AllFit(lines: seq<Line>) {
    forall line <- lines :: line.Setting? ==> Fits(line.field, line.value)
  }

  function Read(lines: seq<string>): (r: seq<Line>)
    ensures |r| == |lines| && forall i :: 0 <= i < |lines| ==> r[i] == ReadLine(lines[i])
    ensures AllFit(r)
  {
    Each(ReadLine, lines)
  }

  /** What the lines of a text say, in order. */
  function ReadAll(text: string): (r: seq<Line>)
    ensures AllFit(r)
  {
    Read(Lines(text))
  }

  function Run(lines: seq<Line>, p: Progress): Parsed
    requires AllFit(lines)
  {
    if lines == [] then Finish(p)
    else
      match lines[0]
      case Blank => Run(lines[1..], p)
      case Malformed(fault) => Rejected(fault)
      case Setting(field, value) => Run(lines[1..], Store(p, field, value))
  }

  /** What a description's text means: its lines, applied one after another. */
  function Description(text: string): Parsed {
    Run(ReadAll(text), START)
  }

  lemma ReadOfJoin(a: seq<string>, b: seq<string>)
    ensures Read(a + b) == Read(a) + Read(b)
  {
    EachOfJoin(ReadLine, a, b);
  }

  lemma ReadFromTheFront(text: string)
    requires text != ""
    ensures ReadAll(text) == [ReadLine(FirstLine(text))] + ReadAll(AfterFirstLine(text))
  {
    LinesFromTheFront(text);
    ReadOfJoin([FirstLine(text)], Lines(AfterFirstLine(text)));
    assert Read([FirstLine(text)]) == [ReadLine(FirstLine(text))];
  }

  /** Applying the first line, then all the others. */
  lemma RunFromTheFront(text: string, p: Progress)
    requires text != ""
    ensures var line, rest := ReadLine(FirstLine(text)), ReadAll(AfterFirstLine(text));
            Run(ReadAll(text), p) == if line.Blank? then Run(rest, p)
                                     else if line.Malformed? then Rejected(line.fault)
                                     else Run(rest, Store(p, line.field, line.value))
  {
    ReadFromTheFront(text);
    RunOfJoin(ReadLine(FirstLine(text)), ReadAll(AfterFirstLine(text)), p);
  }

  lemma RunOfJoin(line: Line, rest: seq<Line>, p: Progress)
    requires AllFit([line] + rest) && AllFit(rest)
    ensures Run([line] + rest, p) == if line.Blank? then Run(rest, p)
                                     else if line.Malformed? then Rejected(line.fault)
                                     else Run(rest, Store(p, line.field, line.value))
  {
    assert ([line] + rest)[1..] == rest;
  }

  method ParseLine(raw: string) returns (r: Line)
    ensures r == ReadLine(raw)
  {
    var line := Trim(StripComment(raw));
    if line == "" {
      return Blank;
    }
    var split := FindFirstOf(line, " \t");
    if split == |line| {
      return Malformed(NoValue);
    }
    var field := line[..split];
    var value := Trim(line[split..]);
    if value == "" {
      return Malformed(NoValue);
    }
    r := ParseSetting(field, value);
  }

  method ParseSetting(name: string, value: string) returns (r: Line)
    ensures r == ReadSetting(name, value)
  {
    if name == "name" {
      return Setting(Name, Words(value));
    }
    if name == "reference" {
      return Setting(Reference, Words(value));
    }
    if name == "family" {
      var family := FamilyOf(value);
      return if family == Unknown then Malformed(NoSuchFamily) else Setting(Family, Kind(family));
    }
    if name == "flags" {
      var flags := ParseFlags(value);
      return if flags.None? then Malformed(NoSuchFlag) else Setting(FlagList, Quirks(flags.value));
    }
    var number := ParseNumber(value);
    if number.None? {
      return Malformed(NotANumber);
    }
    var field := NumberNamed(name);
    r := if field.None? then Malformed(NoSuchField) else Setting(field.value, Number(number.value));
  }

  method ParseChipDescription(file: string) returns (r: Parsed)
    ensures r == Description(file)
  {
    var text, p := file, START;
    while text != ""
      invariant Run(ReadAll(text), p) == Description(file)
      decreases |text|
    {
      RunFromTheFront(text, p);
      var newline := FindFirstOf(text, "\n");
      var raw := text[..newline];
      text := if newline == |text| then "" else text[newline + 1..];
      var line := ParseLine(raw);
      match line {
        case Blank =>
        case Malformed(fault) => return Rejected(fault);
        case Setting(field, value) => p := Store(p, field, value);
      }
    }
    r := Finish(p);
  }
}

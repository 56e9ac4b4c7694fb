/**
 * Every command the three generations are ever sent, as bytes and back.
 *
 * Where a generation has a version of a command to itself, with a number to
 * itself, that is another command here too.
 */
module Requests {
  import opened Basics
  import opened Framing

  const DEBUG: byte := 0xf2
  const ENTER_SWD: byte := 0xa3

  datatype Request =
    // of every generation
    | GetCurrentMode
    | GetTargetVoltage
    | ExitDfu
    | ExitDebug
    | ReadMemory(address: word, length: half, port: byte)
    | WriteWords(address: word, length: half, port: byte)
    | WriteBytes(address: word, length: half, port: byte)
    // of the original command set
    | GetStatus
    | ForceDebug
    | ResetSystemV1
    | ReadAllRegistersV1
    | ReadRegisterV1(index: byte)
    | WriteRegisterV1(index: byte, value: word)
    | RunCore
    | StepCore
    | EnterV1
    | ReadCoreId
    // of the later ones
    | EnterV2
    | ReadIdCodes
    | ResetSystem
    | ReadRegister(index: byte, port: byte)
    | WriteRegister(index: byte, value: word, port: byte)
    | WriteDebugRegister(address: word, value: word)
    | ReadDebugRegister(address: word)
    | ReadAllRegisters(port: byte)
    | GetLastStatus
    | GetLastStatus2
    | DriveReset(level: byte)
    | StartTrace(room: half, hz: word)
    | StopTrace
    | GetTraceCount
    | SetDivisor(divisor: half)
    | InitAccessPort(port: byte)
    | SetFrequency(khz: word)
    | GetFrequencies

  predicate IsDebug(r: Request) {
    !r.GetCurrentMode? && !r.GetTargetVoltage? && !r.ExitDfu?
  }

  function DebugCode(r: Request): byte
    requires IsDebug(r)
  {
    match r
    case ExitDebug => 0x21
    case ReadMemory(_, _, _) => 0x07
    case WriteWords(_, _, _) => 0x08
    case WriteBytes(_, _, _) => 0x0d
    case GetStatus => 0x01
    case ForceDebug => 0x02
    case ResetSystemV1 => 0x03
    case ReadAllRegistersV1 => 0x04
    case ReadRegisterV1(_) => 0x05
    case WriteRegisterV1(_, _) => 0x06
    case RunCore => 0x09
    case StepCore => 0x0a
    case EnterV1 => 0x20
    case ReadCoreId => 0x22
    case EnterV2 => 0x30
    case ReadIdCodes => 0x31
    case ResetSystem => 0x32
    case ReadRegister(_, _) => 0x33
    case WriteRegister(_, _, _) => 0x34
    case WriteDebugRegister(_, _) => 0x35
    case ReadDebugRegister(_) => 0x36
    case ReadAllRegisters(_) => 0x3a
    case GetLastStatus => 0x3b
    case GetLastStatus2 => 0x3e
    case DriveReset(_) => 0x3c
    case StartTrace(_, _) => 0x40
    case StopTrace => 0x41
    case GetTraceCount => 0x42
    case SetDivisor(_) => 0x43
    case InitAccessPort(_) => 0x4b
    case SetFrequency(_) => 0x61
    case GetFrequencies => 0x62
  }

  function Arguments(r: Request): (s: seq<byte>)
    ensures |s| <= 8
  {
    match r
    case ReadMemory(address, length, port) => U32(address) + (U16(length) + [port])
    case WriteWords(address, length, port) => U32(address) + (U16(length) + [port])
    case WriteBytes(address, length, port) => U32(address) + (U16(length) + [port])
    case ReadRegisterV1(index) => [index]
    case WriteRegisterV1(index, value) => [index] + U32(value)
    case EnterV1 => [ENTER_SWD]
    case EnterV2 => [ENTER_SWD]
    case ReadRegister(index, port) => [index, port]
    case WriteRegister(index, value, port) => [index] + (U32(value) + [port])
    case WriteDebugRegister(address, value) => U32(address) + U32(value)
    case ReadDebugRegister(address) => U32(address)
    case ReadAllRegisters(port) => [port]
    case DriveReset(level) => [level]
    case StartTrace(room, hz) => U16(room) + U32(hz)
    case SetDivisor(divisor) => U16(divisor)
    case InitAccessPort(port) => [port]
    case SetFrequency(khz) => [0, 0] + U32(khz)
    case GetFrequencies => [0]
    case _ => []
  }

  /** The bytes the library appends for each, which never fill a block. */
  function Payload(r: Request): (s: seq<byte>)
    ensures 1 <= |s| <= 10
  {
    match r
    case GetCurrentMode => [0xf5]
    case GetTargetVoltage => [0xf7]
    case ExitDfu => [0xf3, 0x07]
    case _ => [DEBUG, DebugCode(r)] + Arguments(r)
  }

  /** The commands of every generation, byte for byte. */
  lemma CommonCommands(address: word, length: half, port: byte)
    ensures Payload(GetCurrentMode) == [0xf5] && Payload(GetTargetVoltage) == [0xf7]
    ensures Payload(ExitDfu) == [0xf3, 0x07] && Payload(ExitDebug) == [0xf2, 0x21]
    ensures Payload(ReadMemory(address, length, port)) == [0xf2, 0x07] + (U32(address) + (U16(length) + [port]))
    ensures Payload(WriteWords(address, length, port)) == [0xf2, 0x08] + (U32(address) + (U16(length) + [port]))
    ensures Payload(WriteBytes(address, length, port)) == [0xf2, 0x0d] + (U32(address) + (U16(length) + [port]))
  {
    hide U32, U16;
  }

  /** Those of the original command set. */
  lemma OriginalCommands(index: byte, value: word)
    ensures Payload(GetStatus) == [0xf2, 0x01] && Payload(ForceDebug) == [0xf2, 0x02]
    ensures Payload(ResetSystemV1) == [0xf2, 0x03] && Payload(ReadAllRegistersV1) == [0xf2, 0x04]
    ensures Payload(ReadRegisterV1(index)) == [0xf2, 0x05] + [index]
    ensures Payload(WriteRegisterV1(index, value)) == [0xf2, 0x06] + ([index] + U32(value))
    ensures Payload(RunCore) == [0xf2, 0x09] && Payload(StepCore) == [0xf2, 0x0a]
    ensures Payload(EnterV1) == [0xf2, 0x20] + [0xa3] && Payload(ReadCoreId) == [0xf2, 0x22]
  {
    hide U32, U16;
  }

  /** And those of the later one. */
  lemma LaterCommands()
    ensures Payload(EnterV2) == [0xf2, 0x30] + [0xa3] && Payload(ReadIdCodes) == [0xf2, 0x31]
    ensures Payload(ResetSystem) == [0xf2, 0x32]
    ensures Payload(GetLastStatus) == [0xf2, 0x3b] && Payload(GetLastStatus2) == [0xf2, 0x3e]
  {
    hide U32, U16;
  }

  lemma PinAndPortCommands(level: byte, port: byte)
    ensures Payload(DriveReset(level)) == [0xf2, 0x3c] + [level]
    ensures Payload(InitAccessPort(port)) == [0xf2, 0x4b] + [port]
  {
    hide U32, U16;
  }

  lemma LaterRegisterReads(index: byte, port: byte)
    ensures Payload(ReadRegister(index, port)) == [0xf2, 0x33] + [index, port]
    ensures Payload(ReadAllRegisters(port)) == [0xf2, 0x3a] + [port]
  {
    hide U32, U16;
  }

  lemma LaterCommandsWithWords(index: byte, port: byte, address: word, value: word)
    ensures Payload(WriteRegister(index, value, port)) == [0xf2, 0x34] + ([index] + (U32(value) + [port]))
    ensures Payload(WriteDebugRegister(address, value)) == [0xf2, 0x35] + (U32(address) + U32(value))
    ensures Payload(ReadDebugRegister(address)) == [0xf2, 0x36] + U32(address)
  {
    hide U32, U16;
  }

  lemma TraceCommands(room: half, hz: word)
    ensures Payload(StartTrace(room, hz)) == [0xf2, 0x40] + (U16(room) + U32(hz))
    ensures Payload(StopTrace) == [0xf2, 0x41] && Payload(GetTraceCount) == [0xf2, 0x42]
  {
    hide U32, U16;
  }

  lemma ClockCommands(divisor: half, khz: word)
    ensures Payload(SetDivisor(divisor)) == [0xf2, 0x43] + U16(divisor)
    ensures Payload(SetFrequency(khz)) == [0xf2, 0x61] + ([0, 0] + U32(khz))
    ensures Payload(GetFrequencies) == [0xf2, 0x62] + [0]
  {
    hide U32, U16;
  }

  /** The block a later programmer sends, in which there is nothing but the command. */
  function PlainBlock(r: Request): (s: seq<byte>)
    ensures |s| == PLAIN_SIZE
  {
    Block(Plain, 0, FromDevice, 0, Payload(r))
  }

  /** What the firmware takes the sixteen bytes of a command to mean. */
  function Decode(s: seq<byte>): Option<Request>
    requires |s| == PLAIN_SIZE
  {
    if s[0] == 0xf5 then Some(GetCurrentMode)
    else if s[0] == 0xf7 then Some(GetTargetVoltage)
    else if s[0] == 0xf3 then if s[1] == 0x07 then Some(ExitDfu) else None
    else if s[0] != DEBUG then None
    else DecodeDebug(s[1], s[2..])
  }

  function DecodeDebug(code: byte, s: seq<byte>): Option<Request>
    requires |s| == 14
  {
    match code
    case 0x21 => Some(ExitDebug)
    case 0x07 => Some(ReadMemory(ReadU32(s), ReadU16(s[4..]), s[6]))
    case 0x08 => Some(WriteWords(ReadU32(s), ReadU16(s[4..]), s[6]))
    case 0x0d => Some(WriteBytes(ReadU32(s), ReadU16(s[4..]), s[6]))
    case 0x01 => Some(GetStatus)
    case 0x02 => Some(ForceDebug)
    case 0x03 => Some(ResetSystemV1)
    case 0x04 => Some(ReadAllRegistersV1)
    case 0x05 => Some(ReadRegisterV1(s[0]))
    case 0x06 => Some(WriteRegisterV1(s[0], ReadU32(s[1..])))
    case 0x09 => Some(RunCore)
    case 0x0a => Some(StepCore)
    case 0x20 => if s[0] == ENTER_SWD then Some(EnterV1) else None
    case 0x22 => Some(ReadCoreId)
    case 0x30 => if s[0] == ENTER_SWD then Some(EnterV2) else None
    case 0x31 => Some(ReadIdCodes)
    case 0x32 => Some(ResetSystem)
    case 0x33 => Some(ReadRegister(s[0], s[1]))
    case 0x34 => Some(WriteRegister(s[0], ReadU32(s[1..]), s[5]))
    case 0x35 => Some(WriteDebugRegister(ReadU32(s), ReadU32(s[4..])))
    case 0x36 => Some(ReadDebugRegister(ReadU32(s)))
    case 0x3a => Some(ReadAllRegisters(s[0]))
    case 0x3b => Some(GetLastStatus)
    case 0x3e => Some(GetLastStatus2)
    case 0x3c => Some(DriveReset(s[0]))
    case 0x40 => Some(StartTrace(ReadU16(s), ReadU32(s[2..])))
    case 0x41 => Some(StopTrace)
    case 0x42 => Some(GetTraceCount)
    case 0x43 => Some(SetDivisor(ReadU16(s)))
    case 0x4b => Some(InitAccessPort(s[0]))
    case 0x61 => if s[0] == 0 && s[1] == 0 then Some(SetFrequency(ReadU32(s[2..]))) else None
    case 0x62 => if s[0] == 0 then Some(GetFrequencies) else None
    case _ => None
  }

  lemma MemoryCommandReadsBack(address: word, length: half, port: byte, rest: seq<byte>)
    ensures var s := U32(address) + (U16(length) + [port]) + rest;
            ReadU32(s) == address && ReadU16(s[4..]) == length && s[6] == port
  {
    var s := U32(address) + (U16(length) + [port]) + rest;
    assert s == U32(address) + (U16(length) + ([port] + rest));
    ReadBackU32(address, U16(length) + ([port] + rest));
    assert s[4..] == U16(length) + ([port] + rest);
    ReadBackU16(length, [port] + rest);
  }

  lemma TwoWordsReadBack(a: word, b: word, rest: seq<byte>)
    ensures var s := U32(a) + U32(b) + rest;
            ReadU32(s) == a && ReadU32(s[4..]) == b
  {
    var s := U32(a) + U32(b) + rest;
    assert s == U32(a) + (U32(b) + rest);
    ReadBackU32(a, U32(b) + rest);
    assert s[4..] == U32(b) + rest;
    ReadBackU32(b, rest);
  }

  lemma HalfAndWordReadBack(a: half, b: word, rest: seq<byte>)
    ensures var s := U16(a) + U32(b) + rest;
            ReadU16(s) == a && ReadU32(s[2..]) == b
  {
    var s := U16(a) + U32(b) + rest;
    assert s == U16(a) + (U32(b) + rest);
    ReadBackU16(a, U32(b) + rest);
    assert s[2..] == U32(b) + rest;
    ReadBackU32(b, rest);
  }

  predicate IsWrite(r: Request) {
    r.WriteWords? || r.WriteBytes?
  }

  predicate AccessesMemory(r: Request) {
    r.ReadMemory? || IsWrite(r)
  }

  predicate CarriesAWord(r: Request) {
    r.WriteRegisterV1? || r.WriteRegister? || r.SetFrequency? || r.ReadDebugRegister?
  }

  predicate CarriesMore(r: Request) {
    r.WriteDebugRegister? || r.StartTrace?
  }

  lemma MemoryRequestsReadBack(r: Request, rest: seq<byte>)
    requires AccessesMemory(r) && |Arguments(r) + rest| == 14
    ensures DecodeDebug(DebugCode(r), Arguments(r) + rest) == Some(r)
  {
    hide U32, ReadU32, U16, ReadU16;
    MemoryCommandReadsBack(r.address, r.length, r.port, rest);
  }

  lemma WordRequestsReadBack(r: Request, rest: seq<byte>)
    requires CarriesAWord(r) && |Arguments(r) + rest| == 14
    ensures DecodeDebug(DebugCode(r), Arguments(r) + rest) == Some(r)
  {
    hide U32, ReadU32, U16, ReadU16;
    var s := Arguments(r) + rest;
    match r {
      case WriteRegisterV1(index, value) =>
        assert s[1..] == U32(value) + rest;
        ReadBackU32(value, rest);
      case WriteRegister(index, value, port) =>
        assert s[1..] == U32(value) + ([port] + rest);
        ReadBackU32(value, [port] + rest);
      case SetFrequency(khz) =>
        assert s[2..] == U32(khz) + rest;
        ReadBackU32(khz, rest);
      case ReadDebugRegister(address) =>
        ReadBackU32(address, rest);
    }
  }

  lemma LongRequestsReadBack(r: Request, rest: seq<byte>)
    requires CarriesMore(r) && |Arguments(r) + rest| == 14
    ensures DecodeDebug(DebugCode(r), Arguments(r) + rest) == Some(r)
  {
    hide U32, ReadU32, U16, ReadU16;
    if r.WriteDebugRegister? {
      TwoWordsReadBack(r.address, r.value, rest);
    } else {
      HalfAndWordReadBack(r.room, r.hz, rest);
    }
  }

  lemma ShortRequestsReadBack(r: Request, rest: seq<byte>)
    requires IsDebug(r) && !AccessesMemory(r) && !CarriesAWord(r) && !CarriesMore(r)
    requires |Arguments(r) + rest| == 14
    ensures DecodeDebug(DebugCode(r), Arguments(r) + rest) == Some(r)
  {
    hide U32, ReadU32, U16, ReadU16;
    if r.SetDivisor? {
      ReadBackU16(r.divisor, rest);
    }
  }

  /** What the firmware reads in a block is exactly what was asked: address, length, port and all. */
  lemma DecodingRecoversTheRequest(r: Request)
    ensures Decode(Padded(Payload(r))) == Some(r)
  {
    hide U32, ReadU32, U16, ReadU16, DecodeDebug, DebugCode;
    var s := Padded(Payload(r));
    if IsDebug(r) {
      hide Arguments;
      var rest := Zeros(PLAIN_SIZE - |Payload(r)|);
      assert s[2..] == Arguments(r) + rest;
      if AccessesMemory(r) {
        MemoryRequestsReadBack(r, rest);
      } else if CarriesAWord(r) {
        WordRequestsReadBack(r, rest);
      } else if CarriesMore(r) {
        LongRequestsReadBack(r, rest);
      } else {
        ShortRequestsReadBack(r, rest);
      }
    }
  }

  /** The original command set names no port after the length, which is what naming port zero looks like. */
  lemma NoPortIsPortZero(code: byte, address: word, length: half)
    ensures Padded([DEBUG, code] + (U32(address) + U16(length))) ==
            Padded([DEBUG, code] + (U32(address) + (U16(length) + [0])))
  {
  }

  // ---- Writing them ----------------------------------------------------

  method AppendMemoryArguments(block: CommandBlock, address: word, length: half, port: byte)
    requires block.Valid() && block.at + 7 <= block.capacity
    modifies block`at, block.into
    ensures block.Valid()
    ensures block.Written() == old(block.Written()) + (U32(address) + (U16(length) + [port]))
  {
    hide Basics.U16, Basics.U32;
    block.U32(address);
    block.U16(length);
    block.U8(port);
  }

  method AppendRegisterArguments(block: CommandBlock, index: byte, value: word)
    requires block.Valid() && block.at + 5 <= block.capacity
    modifies block`at, block.into
    ensures block.Valid() && block.at == old(block.at) + 5
    ensures block.Written() == old(block.Written()) + ([index] + U32(value))
  {
    hide Basics.U16, Basics.U32;
    block.U8(index);
    block.U32(value);
  }

  lemma Regroup(front: seq<byte>, a: seq<byte>, b: seq<byte>)
    ensures front + a + b == front + (a + b)
  {
  }

  method AppendWordArguments(block: CommandBlock, r: Request)
    requires block.Valid() && block.at + 8 <= block.capacity && CarriesAWord(r)
    modifies block`at, block.into
    ensures block.Valid() && block.Written() == old(block.Written()) + Arguments(r)
  {
    hide Basics.U32;
    ghost var before := block.Written();
    match r {
      case WriteRegisterV1(index, value) => AppendRegisterArguments(block, index, value);
      case WriteRegister(index, value, port) =>
        AppendRegisterArguments(block, index, value);
        block.U8(port);
        Regroup(before, [index] + U32(value), [port]);
        Regroup([index], U32(value), [port]);
      case SetFrequency(khz) =>
        block.U8(0);
        block.U8(0);
        assert block.Written() == before + [0, 0];
        block.U32(khz);
        Regroup(before, [0, 0], U32(khz));
      case ReadDebugRegister(address) => block.U32(address);
    }
  }

  method AppendPairArguments(block: CommandBlock, r: Request)
    requires block.Valid() && block.at + 8 <= block.capacity && CarriesMore(r)
    modifies block`at, block.into
    ensures block.Valid() && block.Written() == old(block.Written()) + Arguments(r)
  {
    hide Basics.U16, Basics.U32;
    ghost var before := block.Written();
    match r {
      case WriteDebugRegister(address, value) =>
        block.U32(address);
        block.U32(value);
        Regroup(before, U32(address), U32(value));
      case StartTrace(room, hz) =>
        block.U16(room);
        block.U32(hz);
        Regroup(before, U16(room), U32(hz));
    }
  }

  /** What follows the first two bytes, written a byte, a half or a word at a time. */
  method AppendArguments(block: CommandBlock, r: Request)
    requires block.Valid() && block.at + 8 <= block.capacity
    modifies block`at, block.into
    ensures block.Valid() && block.Written() == old(block.Written()) + Arguments(r)
  {
    hide Basics.U16, Basics.U32;
    if AccessesMemory(r) {
      AppendMemoryArguments(block, r.address, r.length, r.port);
    } else if CarriesAWord(r) {
      AppendWordArguments(block, r);
    } else if CarriesMore(r) {
      AppendPairArguments(block, r);
    } else {
      match r {
        case ReadRegisterV1(index) => block.U8(index);
        case EnterV1 => block.U8(ENTER_SWD);
        case EnterV2 => block.U8(ENTER_SWD);
        case ReadRegister(index, port) =>
          block.U8(index);
          block.U8(port);
        case ReadAllRegisters(port) => block.U8(port);
        case DriveReset(level) => block.U8(level);
        case SetDivisor(divisor) => block.U16(divisor);
        case InitAccessPort(port) => block.U8(port);
        case GetFrequencies => block.U8(0);
        case _ =>
      }
    }
  }

  method Append(block: CommandBlock, r: Request)
    requires block.Valid() && block.at + 10 <= block.capacity
    modifies block`at, block.into
    ensures block.Valid() && block.Written() == old(block.Written()) + Payload(r)
  {
    hide Arguments, DebugCode;
    if r.GetCurrentMode? {
      block.U8(0xf5);
    } else if r.GetTargetVoltage? {
      block.U8(0xf7);
    } else if r.ExitDfu? {
      block.U8(0xf3);
      block.U8(0x07);
    } else {
      ghost var before := block.Written();
      block.U8(DEBUG);
      block.U8(DebugCode(r));
      ghost var head := [DEBUG, DebugCode(r)];
      assert block.Written() == before + head;
      AppendArguments(block, r);
      Regroup(before, head, Arguments(r));
      assert Payload(r) == head + Arguments(r);
    }
  }

  /** A whole command, assembled in the programmer's buffer over whatever was in it. */
  method Assemble(a: Assembler, direction: Direction, replySize: nat, r: Request) returns (block: CommandBlock)
    requires a.Valid()
    modifies a.buffer
    ensures fresh(block) && block.into == a.buffer && block.capacity == BlockSize(a.wrapping)
    ensures a.buffer[..BlockSize(a.wrapping)]
            == Block(a.wrapping, a.tag, direction, replySize % 0x1_0000_0000, Payload(r))
  {
    hide Header, Payload;
    block := a.Begin(direction, replySize);
    Append(block, r);
    WrittenIsTheBlock(block, a.wrapping, a.tag, direction, replySize % 0x1_0000_0000, Payload(r));
  }
}

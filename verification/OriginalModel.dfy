/**
 * The original command set: what its firmware does with what it is sent, and
 * what an operation of the programmer comes to.
 */
module OriginalModel {
  import opened Basics
  import opened Wire
  import opened Command
  import opened Framing
  import opened Requests
  import opened Memory

  // ---- The firmware ----------------------------------------------------

  /**
   * How one command goes. First the target: how many instructions it has run
   * since the last one, if it was running, what those leave in its registers,
   * and where a reset leaves it. Then whether it refuses the access, after how
   * many bytes the reply stops short, and what is in a reply that says
   * something other than it should.
   */
  datatype Mood = Mood(runs: nat, leaves: map<byte, word>, stops: bool, faults: bool, cut: nat, says: nat -> byte)

  /** A write waiting for its data. */
  datatype Pending = Pending(request: Request, tag: word)

  /** The core behind the programmer: `executed` counts from its last reset, of which there have been `resets`. */
  datatype Core = Core(halted: bool, executed: nat, resets: nat, registers: map<byte, word>)

  const MASS_STORAGE: byte := 1
  const DEBUGGING: byte := 2
  const REGISTERS: nat := 21

  /** What does not change: the number the target gives itself, and the two voltages. */
  datatype Board = Board(coreId: word, reference: word, measured: word)

  datatype Firmware = Firmware(
    memory: Bytes,
    core: Core,
    board: Board,
    mode: byte,
    pending: Option<Pending>,
    done: seq<Request>)

  const WRAPPER_SIZE: nat := 13

  /** A Bulk-Only command status wrapper, as in section 5.2: it names the tag of its command. */
  function StatusWrapper(tag: word): (s: seq<byte>)
    ensures |s| == WRAPPER_SIZE
  {
    [0x55, 0x53, 0x42, 0x53] + (U32(tag) + [0, 0, 0, 0, 0])
  }

  function RegisterOf(c: Core, index: byte): word {
    if index in c.registers then c.registers[index] else 0
  }

  function AllRegisters(c: Core, n: nat): (s: seq<byte>)
    requires n <= REGISTERS
    ensures |s| == 4 * n
  {
    if n == 0 then [] else AllRegisters(c, n - 1) + U32(RegisterOf(c, n - 1))
  }

  /** A core that is let be runs on, if it is running at all. */
  function RanOn(mood: Mood, c: Core): Core {
    if c.halted then c else c.(executed := c.executed + mood.runs, registers := c.registers + mood.leaves)
  }

  /** What a command does to the core. Its registers are to be had only while it is halted, and so is a step. */
  function Obeyed(mood: Mood, c: Core, r: Request): Core {
    match r
    case ForceDebug => c.(halted := true)
    case RunCore => c.(halted := false)
    case StepCore =>
      if c.halted then c.(executed := c.executed + 1, registers := c.registers + mood.leaves) else c
    case ResetSystemV1 => Core(mood.stops, 0, c.resets + 1, mood.leaves)
    case WriteRegisterV1(index, value) => if c.halted then c.(registers := c.registers[index := value]) else c
    case _ => c
  }

  function ModeAfter(mode: byte, r: Request): byte {
    match r
    case EnterV1 => DEBUGGING
    case ExitDebug => MASS_STORAGE
    case ExitDfu => MASS_STORAGE
    case _ => mode
  }

  /** What the firmware takes on: words by the word and no more of them than it holds, and fewer bytes. */
  predicate Takes(r: Request) {
    match r
    case ReadMemory(address, length, _) => address % 4 == 0 && length % 4 == 0 && length <= 6144
    case WriteWords(address, length, _) => address % 4 == 0 && length % 4 == 0 && length <= 6144
    case WriteBytes(_, length, _) => length <= 64
    case _ => true
  }

  /** A reply of `size` bytes: these, and zeros behind them if they are too few. */
  function Fitted(s: seq<byte>, size: nat): (t: seq<byte>)
    ensures |t| == size
  {
    if |s| >= size then s[..size] else s + Zeros(size - |s|)
  }

  /** What there is to be said to a command, if anything is. */
  function Told(f: Firmware, r: Request): Option<seq<byte>> {
    match r
    case ReadMemory(address, length, port) => Some(Fetch(f.memory, port, address, length))
    case GetStatus => Some([if f.core.halted then 0x81 else 0x80, 0])
    case ReadRegisterV1(index) => if f.core.halted then Some(U32(RegisterOf(f.core, index))) else None
    case ReadAllRegistersV1 => if f.core.halted then Some(AllRegisters(f.core, REGISTERS)) else None
    case ReadCoreId => Some(U32(f.board.coreId))
    case GetCurrentMode => Some([f.mode, 0])
    case GetTargetVoltage => Some(U32(f.board.reference) + U32(f.board.measured))
    case _ => None
  }

  /** All of a reply, before it is cut short: it says what it should only if the target gave that. */
  function WholeAnswer(mood: Mood, f: Firmware, r: Request, size: nat): (s: seq<byte>)
    ensures |s| == size
  {
    if mood.faults || !Takes(r) || Told(f, r).None? then Filled(mood.says, size) else Fitted(Told(f, r).value, size)
  }

  function Answer(mood: Mood, f: Firmware, r: Request, size: nat): (s: seq<byte>)
    ensures |s| == Min(mood.cut, size)
  {
    WholeAnswer(mood, f, r, size)[..Min(mood.cut, size)]
  }

  function Written(mood: Mood, memory: Bytes, r: Request, data: seq<byte>): Bytes
    requires IsWrite(r)
  {
    if mood.faults || !Takes(r) then memory else Store(memory, r.port, r.address, data)
  }

  /** The firmware by the time a command gets to it. */
  function Meanwhile(moods: nat -> Mood, f: Firmware): Firmware {
    f.(core := RanOn(moods(|f.done|), f.core))
  }

  /** The firmware a command leaves behind. */
  function AfterCommand(moods: nat -> Mood, f: Firmware, r: Request): Firmware {
    var g, mood := Meanwhile(moods, f), moods(|f.done|);
    g.(core := if mood.faults then g.core else Obeyed(mood, g.core, r),
       mode := ModeAfter(f.mode, r), done := f.done + [r])
  }

  /** And the data of a write, as the target takes it. */
  function AfterData(moods: nat -> Mood, f: Firmware, r: Request, data: seq<byte>): Firmware
    requires IsWrite(r)
  {
    var g := Meanwhile(moods, f);
    g.(memory := Written(moods(|f.done|), f.memory, r, data), pending := None, done := f.done + [r])
  }

  /** The data of a write, which is answered by its status wrapper alone. */
  function TakeData(moods: nat -> Mood, f: Firmware, data: seq<byte>): (Firmware, seq<seq<byte>>)
    requires f.pending.Some?
  {
    var p := f.pending.value;
    if !IsWrite(p.request) || |data| != p.request.length then (f, [])
    else (AfterData(moods, f, p.request, data), [StatusWrapper(p.tag)])
  }

  /** A command: a reply if there is to be one, and a status wrapper behind it, unless data is to follow. */
  function TakeCommand(moods: nat -> Mood, f: Firmware, r: Request, tag: word, size: nat): (Firmware, seq<seq<byte>>) {
    if IsWrite(r) then (f.(pending := Some(Pending(r, tag))), [])
    else
      (AfterCommand(moods, f, r),
       if size == 0 then [StatusWrapper(tag)]
       else [Answer(moods(|f.done|), Meanwhile(moods, f), r, size), StatusWrapper(tag)])
  }

  function Respond(moods: nat -> Mood, f: Firmware, bytes: seq<byte>): (Firmware, seq<seq<byte>>) {
    if f.pending.Some? then TakeData(moods, f, bytes)
    else if |bytes| != WRAPPED_SIZE || bytes[..4] != SIGNATURE then (f, [])
    else
      var r := Decode(bytes[COMMAND_AT..]);
      if r.None? then (f, []) else TakeCommand(moods, f, r.value, ReadU32(bytes[4..]), ReadU32(bytes[8..]))
  }

  function Behind(moods: nat -> Mood, weather: nat -> Weather): Env<Firmware> {
    Env((f, bytes) => Respond(moods, f, bytes), weather)
  }

  // ---- The programmer --------------------------------------------------

  datatype Programmer = Programmer(link: Link<Firmware>, tag: word)

  function BlockFor(p: Programmer, direction: Direction, size: nat, r: Request): (s: seq<byte>)
    ensures |s| == WRAPPED_SIZE
  {
    Block(Wrapped, p.tag, direction, size % 0x1_0000_0000, Payload(r))
  }

  /** The wrapper is read and forgotten; only then has the operation happened. */
  function DiscardStatusWrapper(e: Env<Firmware>, p: Programmer): (Programmer, VoidResult) {
    var (link, got) := Receive(e, p.link, WRAPPER_SIZE);
    if got.Err? then (p.(link := link), Err(IO))
    else (Programmer(link, (p.tag + 1) % 0x1_0000_0000), DONE)
  }

  datatype Asked = Asked(p: Programmer, reply: seq<byte>, r: Result<nat>)

  /** A command with a reply: the reply, and then the wrapper. */
  function Ask(e: Env<Firmware>, p: Programmer, r: Request, reply: seq<byte>): (a: Asked)
    ensures |a.reply| == |reply|
  {
    var o := Exchanged(e, p.link, BlockFor(p, FromDevice, |reply|, r), reply, |reply|, Anything, false, 0);
    if o.r.Err? then Asked(p.(link := o.link), o.reply, o.r)
    else
      var (q, discarded) := DiscardStatusWrapper(e, p.(link := o.link));
      Asked(q, o.reply, if discarded.Err? then Err(discarded.code) else o.r)
  }

  /** A command with none: the wrapper at once. */
  function Tell(e: Env<Firmware>, p: Programmer, r: Request): (Programmer, VoidResult) {
    var (link, sent) := SendBlock(e, p.link, BlockFor(p, FromDevice, 0, r));
    if sent.Err? then (p.(link := link), sent) else DiscardStatusWrapper(e, p.(link := link))
  }

  /** A command with data behind it, and one wrapper behind both. */
  function Push(e: Env<Firmware>, p: Programmer, r: Request, data: seq<byte>): (Programmer, VoidResult) {
    var (link, announced) := SendBlock(e, p.link, BlockFor(p, ToDevice, 0, r));
    if announced.Err? then (p.(link := link), announced)
    else
      var (after, written) := Send(e, link, data);
      if written.Err? || written.value != |data| then (p.(link := after), Err(IO))
      else DiscardStatusWrapper(e, p.(link := after))
  }

  // ---- Its operations --------------------------------------------------

  const BYTE_WRITE_LIMIT: nat := 64

  datatype Op =
    | Mode | Voltage | ExitDfuMode | EnterDebug(jtag: bool) | LeaveDebug | SelectAccessPort(port: byte)
    | CoreId | State | Halt | Run(loader: bool) | Step | Reset | ResetPin(asserted: bool)
    | Read(address: word, size: nat, nowhere: bool) | Write(address: word, data: seq<byte>, nowhere: bool)
    | ReadCore(index: byte) | WriteCore(index: byte, value: word) | ReadAllCore
    | SetClock(hz: word) | Trace

  /** What an operation is on the wire, if it gets that far. */
  datatype Plan =
    | Settled(r: VoidResult)
    | Asks(request: Request, size: nat)
    | Tells(request: Request)
    | Pushes(request: Request, data: seq<byte>)

  function PlanOf(op: Op): (plan: Plan)
    ensures plan.Asks? ==> 0 < plan.size <= TRANSFER_LIMIT && !IsWrite(plan.request)
    ensures plan.Tells? ==> !IsWrite(plan.request)
    ensures plan.Pushes? ==> IsWrite(plan.request) && plan.request.length == |plan.data|
  {
    match op
    case Mode => Asks(GetCurrentMode, 2)
    case Voltage => Asks(GetTargetVoltage, 8)
    case ExitDfuMode => Tells(ExitDfu)
    case EnterDebug(jtag) => if jtag then Settled(Err(NotSupported)) else Tells(EnterV1)
    case LeaveDebug => Tells(ExitDebug)
    case SelectAccessPort(_) => Settled(Err(NotSupported))
    case CoreId => Asks(ReadCoreId, 4)
    case State => Asks(GetStatus, 2)
    case Halt => Asks(ForceDebug, 2)
    case Run(_) => Asks(RunCore, 2)
    case Step => Asks(StepCore, 2)
    case Reset => Asks(ResetSystemV1, 2)
    case ResetPin(_) => Settled(Err(NotSupported))
    case Read(address, size, nowhere) =>
      if size == 0 then Settled(DONE)
      else if nowhere || !Aligned(address, size) || size > TRANSFER_LIMIT then Settled(Err(InvalidArgument))
      else Asks(ReadMemory(address, size, 0), size)
    case Write(address, data, nowhere) =>
      var aligned := Aligned(address, |data|);
      if data == [] then Settled(DONE)
      else if nowhere || |data| > (if aligned then TRANSFER_LIMIT else BYTE_WRITE_LIMIT) then
        Settled(Err(InvalidArgument))
      else Pushes(if aligned then WriteWords(address, |data|, 0) else WriteBytes(address, |data|, 0), data)
    case ReadCore(index) => Asks(ReadRegisterV1(index), 4)
    case WriteCore(index, value) => Asks(WriteRegisterV1(index, value), 2)
    case ReadAllCore => Asks(ReadAllRegistersV1, 84)
    case SetClock(_) => Settled(Err(NotSupported))
    case Trace => Settled(Err(NotSupported))
  }

  /** What comes back: what was read, how much of that arrived, and whether it went well. */
  datatype Outcome1 = Outcome1(p: Programmer, reply: seq<byte>, arrived: nat, r: VoidResult)

  /** A read of memory insists on all of it, and nothing else does. */
  function Perform(e: Env<Firmware>, p: Programmer, op: Op): Outcome1 {
    var plan := PlanOf(op);
    match plan
    case Settled(r) => Outcome1(p, [], 0, r)
    case Asks(request, size) =>
      var a := Ask(e, p, request, Zeros(size));
      Outcome1(a.p, a.reply, if a.r.Ok? then a.r.value else 0,
               if a.r.Err? then Err(a.r.code)
               else if request.ReadMemory? && a.r.value != size then Err(Protocol)
               else DONE)
    case Tells(request) => var (q, r) := Tell(e, p, request); Outcome1(q, [], 0, r)
    case Pushes(request, data) => var (q, r) := Push(e, p, request, data); Outcome1(q, [], 0, r)
  }

  function PerformAll(e: Env<Firmware>, p: Programmer, ops: seq<Op>): Programmer
    decreases |ops|
  {
    if ops == [] then p else PerformAll(e, Perform(e, p, ops[0]).p, ops[1..])
  }
}

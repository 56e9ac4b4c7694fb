/**
 * The later command set, which a V2 and a V3 share: what the firmware does
 * with what it is sent, and what the operations that reach the target's memory
 * come to.
 */
module LaterModel {
  import opened Basics
  import opened Wire
  import opened Command
  import opened Framing
  import opened Requests
  import opened Memory

  // ---- The firmware ----------------------------------------------------

  datatype Generation = V2 | V3

  /** Which programmer it is, and whether its revision has the better status command. */
  datatype Kit = Kit(generation: Generation, detailed: bool)

  /** How one transfer is met: the status the target gives the access, and how much of the reply arrives. */
  datatype Mood = Mood(status: byte, cut: nat, says: nat -> byte)

  /**
   * `current` is the access port opened last, `lastStatus` what the last read
   * or write of words came to, `pending` a write waiting for its data, `step` how many
   * transfers there have been, and `done` every command that took effect.
   */
  datatype Firmware = Firmware(
    kit: Kit,
    memory: Bytes,
    current: byte,
    pending: Option<Request>,
    lastStatus: byte,
    step: nat,
    done: seq<Request>)

  const AP_FAULT: byte := 0x11

  /** A memory access names its port, and there is nothing behind one that is not open. */
  function Met(mood: Mood, f: Firmware, port: byte): byte {
    if port == f.current then mood.status else AP_FAULT
  }

  /** What the firmware takes on: words by the word and no more of them than it holds, and fewer bytes. */
  predicate Takes(kit: Kit, r: Request)
    requires AccessesMemory(r)
  {
    if r.WriteBytes? then r.length <= if kit.generation.V2? then 64 else 512
    else r.address % 4 == 0 && r.length % 4 == 0 && r.length <= 6144
  }

  function Granted(mood: Mood, f: Firmware, r: Request): byte
    requires AccessesMemory(r)
  {
    if Takes(f.kit, r) then Met(mood, f, r.port) else AP_FAULT
  }

  function Cut(mood: Mood, whole: seq<byte>): (s: seq<byte>)
    ensures |s| == Min(mood.cut, |whole|)
  {
    whole[..Min(mood.cut, |whole|)]
  }

  /** The commands that are answered with their own status, and take effect only if that is OK. */
  predicate Acknowledged(r: Request) {
    r.InitAccessPort? || r.WriteDebugRegister? || r.ReadDebugRegister?
  }

  function After(f: Firmware, r: Request): Firmware {
    var g := f.(done := f.done + [r]);
    match r
    case InitAccessPort(port) => g.(current := port)
    case WriteDebugRegister(address, value) => g.(memory := Store(f.memory, 0, address, U32(value)))
    case _ => g
  }

  function AcknowledgementSize(r: Request): nat {
    if r.ReadDebugRegister? then 8 else 2
  }

  /** A status, padding, and the register if it was one that was read. The native commands know only port zero. */
  function Acknowledgement(status: byte, memory: Bytes, r: Request): (s: seq<byte>)
    ensures |s| == AcknowledgementSize(r) && s[0] == status
  {
    if r.ReadDebugRegister? then
      [status, 0, 0, 0] + if status == OK then Fetch(memory, 0, r.address, 4) else Zeros(4)
    else [status, 0]
  }

  function TakeCommand(mood: Mood, f: Firmware, r: Request): (Firmware, seq<seq<byte>>) {
    var g := f.(step := f.step + 1);
    if IsWrite(r) then (g.(pending := Some(r)), [])
    else if Acknowledged(r) then
      (if mood.status == OK then After(g, r) else g, [Cut(mood, Acknowledgement(mood.status, f.memory, r))])
    else if r.ReadMemory? then
      (g.(lastStatus := Granted(mood, f, r)),
       [Cut(mood, if Granted(mood, f, r) == OK then Fetch(f.memory, r.port, r.address, r.length)
                  else Filled(mood.says, r.length))])
    else if r.GetLastStatus? then (g, [Cut(mood, [f.lastStatus, 0])])
    else if r.GetLastStatus2? && f.kit.detailed then (g, [Cut(mood, [f.lastStatus] + Zeros(11))])
    else if r.ExitDfu? || r.ExitDebug? then (g, [])
    else (g, [Cut(mood, Filled(mood.says, 2))])
  }

  /** The data of a write, which nothing answers; what becomes of bytes is not remembered either. */
  function TakeData(mood: Mood, f: Firmware, data: seq<byte>): Firmware
    requires f.pending.Some?
  {
    var r := f.pending.value;
    var g := f.(step := f.step + 1);
    if !IsWrite(r) || |data| != r.length then g
    else
      var status := Granted(mood, f, r);
      g.(pending := None, lastStatus := if r.WriteWords? then status else f.lastStatus,
         memory := if status == OK then Store(f.memory, r.port, r.address, data) else f.memory,
         done := if status == OK then f.done + [r] else f.done)
  }

  function Respond(moods: nat -> Mood, f: Firmware, bytes: seq<byte>): (Firmware, seq<seq<byte>>) {
    var mood := moods(f.step);
    if f.pending.Some? then (TakeData(mood, f, bytes), [])
    else if |bytes| != PLAIN_SIZE || Decode(bytes).None? then (f.(step := f.step + 1), [])
    else TakeCommand(mood, f, Decode(bytes).value)
  }

  function Behind(moods: nat -> Mood, weather: nat -> Weather): Env<Firmware> {
    Env((f, bytes) => Respond(moods, f, bytes), weather)
  }

  // ---- The programmer --------------------------------------------------

  function ByteWriteLimit(kit: Kit): nat {
    if kit.generation.V2? then 64 else 512
  }

  const VALUE_AT: nat := 4

  datatype Programmer = Programmer(link: Link<Firmware>, port: byte)

  /** A command and its reply, into a buffer that is zero to begin with. */
  function Ask(e: Env<Firmware>, p: Programmer, r: Request, size: nat, check: Check): (o: Outcome<Firmware>)
    ensures |o.reply| == size
  {
    Exchanged(e, p.link, PlainBlock(r), Zeros(size), size, check, false, 0)
  }

  /** Whether a read is over before it begins, and how. */
  function SettledRead(address: word, size: nat, nowhere: bool): Option<VoidResult> {
    if size == 0 then Some(DONE)
    else if nowhere || !Aligned(address, size) || size > TRANSFER_LIMIT then Some(Err(InvalidArgument))
    else None
  }

  function SettledWrite(kit: Kit, address: word, size: nat, nowhere: bool): Option<VoidResult> {
    if size == 0 then Some(DONE)
    else if nowhere || size > (if Aligned(address, size) then TRANSFER_LIMIT else ByteWriteLimit(kit)) then
      Some(Err(InvalidArgument))
    else None
  }

  datatype ReadOut = ReadOut(p: Programmer, data: seq<byte>, r: VoidResult)

  /** A read of memory into `data`, which insists on all of it and on nothing else. */
  function ReadMemoryInto(e: Env<Firmware>, p: Programmer, address: word, data: seq<byte>): (o: ReadOut)
    requires SettledRead(address, |data|, false).None?
    ensures |o.data| == |data|
  {
    var o := Exchanged(e, p.link, PlainBlock(ReadMemory(address, |data|, p.port)), data, |data|, ReplyLength, false, 0);
    ReadOut(p.(link := o.link), o.reply, if o.r.Err? then Err(o.r.code) else DONE)
  }

  function CheckLastWrite(kit: Kit, e: Env<Firmware>, p: Programmer): (Programmer, VoidResult) {
    var r, size := if kit.detailed then GetLastStatus2 else GetLastStatus, if kit.detailed then 12 else 2;
    var o := Exchanged(e, p.link, PlainBlock(r), Zeros(12), size, Status, false, 0);
    (p.(link := o.link), if o.r.Err? then Err(o.r.code) else DONE)
  }

  function WriteRequest(address: word, size: half, port: byte): (r: Request)
    ensures IsWrite(r)
  {
    if Aligned(address, size) then WriteWords(address, size, port) else WriteBytes(address, size, port)
  }

  /** The command, the data after it, and a question whether it landed if it was words. */
  function WriteMemoryFrom(kit: Kit, e: Env<Firmware>, p: Programmer, address: word, data: seq<byte>)
    : (Programmer, VoidResult)
    requires SettledWrite(kit, address, |data|, false).None?
  {
    var (link, announced) := SendBlock(e, p.link, PlainBlock(WriteRequest(address, |data|, p.port)));
    if announced.Err? then (p.(link := link), announced)
    else
      var (after, written) := Send(e, link, data);
      var q := p.(link := after);
      if written.Err? || written.value != |data| then (q, Err(IO))
      else if !Aligned(address, |data|) then (q, DONE)
      else CheckLastWrite(kit, e, q)
  }

  // ---- Its operations --------------------------------------------------

  datatype Op =
    | SelectAccessPort(port: byte)
    | Read(address: word, size: nat, nowhere: bool)
    | Write(address: word, data: seq<byte>, nowhere: bool)
    | ReadDebug(address: word)
    | WriteDebug(address: word, value: word)

  /** What an operation came to: what it read, if anything, and whether it went well. */
  datatype Done = Done(p: Programmer, data: seq<byte>, r: VoidResult)

  /** The same, as the caller is told of it. */
  datatype Report = Report(data: seq<byte>, r: VoidResult)

  function Selected(e: Env<Firmware>, p: Programmer, port: byte): Done {
    var o := Ask(e, p, InitAccessPort(port), 2, Check.Retry);
    Done(Programmer(o.link, if o.r.Ok? then port else p.port), [], if o.r.Err? then Err(o.r.code) else DONE)
  }

  function ReadOf(e: Env<Firmware>, p: Programmer, address: word, size: nat, nowhere: bool): Done {
    var settled := SettledRead(address, size, nowhere);
    if settled.Some? then Done(p, [], settled.value)
    else var o := ReadMemoryInto(e, p, address, Zeros(size)); Done(o.p, o.data, o.r)
  }

  function WriteOf(kit: Kit, e: Env<Firmware>, p: Programmer, address: word, data: seq<byte>, nowhere: bool): Done {
    var settled := SettledWrite(kit, address, |data|, nowhere);
    if settled.Some? then Done(p, [], settled.value)
    else var (q, r) := WriteMemoryFrom(kit, e, p, address, data); Done(q, [], r)
  }

  /** The native command knows only port zero, so on any other the register is read as memory. */
  function DebugRead(e: Env<Firmware>, p: Programmer, address: word): (d: Done)
    ensures d.r.Ok? ==> |d.data| == 4
  {
    if p.port != 0 then ReadOf(e, p, address, 4, false)
    else
      var o := Ask(e, p, ReadDebugRegister(address), 8, Check.Retry);
      Done(p.(link := o.link), o.reply[VALUE_AT..], if o.r.Err? then Err(o.r.code) else DONE)
  }

  function DebugWritten(kit: Kit, e: Env<Firmware>, p: Programmer, address: word, value: word): Done {
    if p.port != 0 then WriteOf(kit, e, p, address, U32(value), false)
    else
      var o := Ask(e, p, WriteDebugRegister(address, value), 2, Check.Retry);
      Done(p.(link := o.link), [], if o.r.Err? then Err(o.r.code) else DONE)
  }

  function Perform(kit: Kit, e: Env<Firmware>, p: Programmer, op: Op): Done {
    match op
    case SelectAccessPort(port) => Selected(e, p, port)
    case Read(address, size, nowhere) => ReadOf(e, p, address, size, nowhere)
    case Write(address, data, nowhere) => WriteOf(kit, e, p, address, data, nowhere)
    case ReadDebug(address) => DebugRead(e, p, address)
    case WriteDebug(address, value) => DebugWritten(kit, e, p, address, value)
  }

  /** A run: where it ends, and what was reported of each operation. */
  function PerformAll(kit: Kit, e: Env<Firmware>, p: Programmer, ops: seq<Op>): (q: (Programmer, seq<Report>))
    ensures |q.1| == |ops|
    decreases |ops|
  {
    if ops == [] then (p, [])
    else
      var d := Perform(kit, e, p, ops[0]);
      var (q, rest) := PerformAll(kit, e, d.p, ops[1..]);
      (q, [Report(d.data, d.r)] + rest)
  }
}

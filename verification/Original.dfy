/** The original command set's programmer. */
module Original {
  import opened Basics
  import opened Wire
  import opened Command
  import opened Framing
  import opened Memory
  import opened Requests
  import opened OriginalModel
  import opened OriginalProofs
  import opened OriginalMeaning

  datatype ModeName = Dfu | MassStorage | Debug | Unknown

  function ModeOf(b: byte): ModeName {
    match b
    case 0 => Dfu
    case 1 => MassStorage
    case 2 => Debug
    case _ => Unknown
  }

  datatype CoreState = Running | Halted | NotTold

  const CORE_RUNNING: byte := 0x80
  const CORE_HALTED: byte := 0x81

  /** What a status reply says, of which only the first byte counts. */
  function StateOf(reply: seq<byte>, arrived: nat): CoreState {
    if arrived < 1 || reply == [] then NotTold
    else if reply[0] == CORE_RUNNING then Running
    else if reply[0] == CORE_HALTED then Halted
    else NotTold
  }

  function StateTold(o: Outcome1): Result<CoreState> {
    if o.r.Err? then Err(o.r.code) else Ok(StateOf(o.reply, o.arrived))
  }

  function ModeTold(o: Outcome1): Result<ModeName> {
    if o.r.Err? then Err(o.r.code)
    else if o.arrived < 1 || o.reply == [] then Err(Protocol)
    else Ok(ModeOf(o.reply[0]))
  }

  /** Whatever a short reply leaves of the word is zero. */
  function WordTold(o: Outcome1): Result<word> {
    if o.r.Err? then Err(o.r.code) else if |o.reply| < 4 then Ok(0) else Ok(ReadU32(o.reply))
  }

  class ProgrammerV1 {
    const channel: CommandChannel<Firmware>
    const assembler: Assembler

    ghost predicate Valid()
      reads this, assembler
    {
      assembler.Valid() && assembler.wrapping.Wrapped?
    }

    ghost function Now(): Programmer
      reads this, channel, assembler
    {
      Programmer(channel.link, assembler.tag)
    }

    constructor (channel: CommandChannel<Firmware>)
      ensures Valid() && this.channel == channel && fresh(assembler) && fresh(assembler.buffer)
      ensures Now() == Programmer(channel.link, 0)
    {
      this.channel := channel;
      this.assembler := new Assembler(Wrapped);
    }

    method DiscardStatusWrapper() returns (r: VoidResult)
      requires Valid()
      modifies channel, assembler
      ensures Valid() && (Now(), r) == OriginalModel.DiscardStatusWrapper(channel.env, old(Now()))
    {
      var wrapper := new byte[WRAPPER_SIZE](_ => 0);
      var read := channel.TransportReceive(wrapper, WRAPPER_SIZE);
      if read.Err? {
        return Err(IO);
      }
      assembler.tag := (assembler.tag + 1) % 0x1_0000_0000;
      r := DONE;
    }

    /** A command, its reply, and the status wrapper behind it. */
    method Exchange(block: CommandBlock, reply: array<byte>, ghost request: Request) returns (r: Result<nat>)
      requires Valid() && block.into == assembler.buffer && block.capacity == WRAPPED_SIZE
      requires reply != assembler.buffer
      requires assembler.buffer[..WRAPPED_SIZE] == BlockFor(Now(), FromDevice, reply.Length, request)
      modifies channel, assembler, reply
      ensures Valid() && Asked(Now(), reply[..], r) == Ask(channel.env, old(Now()), request, old(reply[..]))
    {
      hide BlockFor, Exchanged, OriginalModel.DiscardStatusWrapper;
      var sent := channel.Exchange(block.into, block.capacity, reply, reply.Length, Anything);
      if sent.Err? {
        return sent;
      }
      var discarded := DiscardStatusWrapper();
      r := if discarded.Err? then Err(discarded.code) else sent;
    }

    /** A command with no reply before its wrapper. */
    method Send(block: CommandBlock, ghost request: Request) returns (r: VoidResult)
      requires Valid() && block.into == assembler.buffer && block.capacity == WRAPPED_SIZE
      requires assembler.buffer[..WRAPPED_SIZE] == BlockFor(Now(), FromDevice, 0, request)
      modifies channel, assembler
      ensures Valid() && (Now(), r) == Tell(channel.env, old(Now()), request)
    {
      hide BlockFor, SendBlock, OriginalModel.DiscardStatusWrapper;
      r := channel.Send(block.into, block.capacity);
      if r.Err? {
        return;
      }
      r := DiscardStatusWrapper();
    }

    // ---- Operations ----------------------------------------------------

    /** Begins a command and appends to it, which every operation starts with. */
    method Begin(direction: Direction, replySize: nat, request: Request) returns (block: CommandBlock)
      requires Valid()
      modifies assembler.buffer
      ensures Valid() && fresh(block) && block.into == assembler.buffer && block.capacity == WRAPPED_SIZE
      ensures assembler.buffer[..WRAPPED_SIZE] == BlockFor(Now(), direction, replySize, request)
    {
      hide Block, Payload;
      block := Assemble(assembler, direction, replySize, request);
    }

    method Mode() returns (r: Result<ModeName>)
      requires Valid()
      modifies channel, assembler, assembler.buffer
      ensures Valid()
      ensures var o := Perform(channel.env, old(Now()), OriginalModel.Mode); Now() == o.p && r == ModeTold(o)
    {
      hide Ask, BlockFor;
      var block := Begin(FromDevice, 2, GetCurrentMode);
      var reply := new byte[2](_ => 0);
      assert reply[..] == Zeros(2);
      var sent := Exchange(block, reply, GetCurrentMode);
      if sent.Err? {
        return Err(sent.code);
      }
      if sent.value < 1 {
        return Err(Protocol);
      }
      r := Ok(ModeOf(reply[..][0]));
    }

    method EnterDebug(jtag: bool) returns (r: VoidResult)
      requires Valid()
      modifies channel, assembler, assembler.buffer
      ensures Valid()
      ensures var o := Perform(channel.env, old(Now()), OriginalModel.EnterDebug(jtag)); Now() == o.p && r == o.r
    {
      hide Tell, BlockFor;
      if jtag {
        return Err(NotSupported);
      }
      var block := Begin(FromDevice, 0, EnterV1);
      r := Send(block, EnterV1);
    }

    method LeaveDebug() returns (r: VoidResult)
      requires Valid()
      modifies channel, assembler, assembler.buffer
      ensures Valid()
      ensures var o := Perform(channel.env, old(Now()), OriginalModel.LeaveDebug); Now() == o.p && r == o.r
    {
      hide Tell, BlockFor;
      var block := Begin(FromDevice, 0, ExitDebug);
      r := Send(block, ExitDebug);
    }

    method SelectAccessPort(port: byte) returns (r: VoidResult)
      requires Valid()
      ensures r == Perform(channel.env, Now(), OriginalModel.SelectAccessPort(port)).r
    {
      r := Err(NotSupported);
    }

    /** Whatever a short reply leaves of the word is zero. */
    method AskForAWord(request: Request) returns (r: Result<word>)
      requires Valid()
      modifies channel, assembler, assembler.buffer
      ensures Valid()
      ensures var a := Ask(channel.env, old(Now()), request, Zeros(4));
              Now() == a.p && r == if a.r.Err? then Err(a.r.code) else Ok(ReadU32(a.reply))
    {
      hide Ask, BlockFor, ReadU32;
      var block := Begin(FromDevice, 4, request);
      var reply := new byte[4](_ => 0);
      assert reply[..] == Zeros(4);
      var sent := Exchange(block, reply, request);
      if sent.Err? {
        return Err(sent.code);
      }
      r := Ok(ReadU32(reply[..]));
    }

    method GetCoreId() returns (r: Result<word>)
      requires Valid()
      modifies channel, assembler, assembler.buffer
      ensures Valid()
      ensures var o := Perform(channel.env, old(Now()), CoreId); Now() == o.p && r == WordTold(o)
    {
      hide Ask, ReadU32;
      r := AskForAWord(ReadCoreId);
    }

    method GetState() returns (r: Result<CoreState>)
      requires Valid()
      modifies channel, assembler, assembler.buffer
      ensures Valid()
      ensures var o := Perform(channel.env, old(Now()), State); Now() == o.p && r == StateTold(o)
    {
      hide Ask, BlockFor;
      var block := Begin(FromDevice, 2, GetStatus);
      var reply := new byte[2](_ => 0);
      assert reply[..] == Zeros(2);
      var sent := Exchange(block, reply, GetStatus);
      if sent.Err? {
        return Err(sent.code);
      }
      r := Ok(StateOf(reply[..], sent.value));
    }

    /** Two bytes come back, and say nothing. */
    method Order(request: Request) returns (r: VoidResult)
      requires Valid()
      modifies channel, assembler, assembler.buffer
      ensures Valid()
      ensures var a := Ask(channel.env, old(Now()), request, Zeros(2));
              Now() == a.p && r == if a.r.Err? then Err(a.r.code) else DONE
    {
      hide Ask, BlockFor;
      var block := Begin(FromDevice, 2, request);
      var reply := new byte[2](_ => 0);
      assert reply[..] == Zeros(2);
      var sent := Exchange(block, reply, request);
      r := if sent.Err? then Err(sent.code) else DONE;
    }

    method Halt() returns (r: VoidResult)
      requires Valid()
      modifies channel, assembler, assembler.buffer
      ensures Valid()
      ensures var o := Perform(channel.env, old(Now()), OriginalModel.Halt); Now() == o.p && r == o.r
    {
      hide Ask;
      r := Order(ForceDebug);
    }

    /** Interrupts cannot be held off here, so a loader is started without that. */
    method Run(loader: bool) returns (r: VoidResult)
      requires Valid()
      modifies channel, assembler, assembler.buffer
      ensures Valid()
      ensures var o := Perform(channel.env, old(Now()), OriginalModel.Run(loader)); Now() == o.p && r == o.r
    {
      hide Ask;
      r := Order(RunCore);
    }

    method Step() returns (r: VoidResult)
      requires Valid()
      modifies channel, assembler, assembler.buffer
      ensures Valid()
      ensures var o := Perform(channel.env, old(Now()), OriginalModel.Step); Now() == o.p && r == o.r
    {
      hide Ask;
      r := Order(StepCore);
    }

    method Reset() returns (r: VoidResult)
      requires Valid()
      modifies channel, assembler, assembler.buffer
      ensures Valid()
      ensures var o := Perform(channel.env, old(Now()), OriginalModel.Reset); Now() == o.p && r == o.r
    {
      hide Ask;
      r := Order(ResetSystemV1);
    }

    method ReadMemory(address: word, data: array?<byte>, size: nat) returns (r: VoidResult)
      requires Valid() && data != assembler.buffer && (data != null ==> data.Length == size)
      modifies channel, assembler, assembler.buffer, data
      ensures Valid()
      ensures var plan := PlanOf(Read(address, size, data == null));
              if plan.Settled? then
                r == plan.r && Now() == old(Now()) && (data != null ==> data[..] == old(data[..]))
              else
                && data != null
                && var a := Ask(channel.env, old(Now()), Requests.ReadMemory(address, size, 0), old(data[..]));
                   && Now() == a.p && data[..] == a.reply
                   && r == if a.r.Err? then Err(a.r.code) else if a.r.value != size then Err(Protocol) else DONE
    {
      hide Ask, BlockFor;
      if size == 0 {
        return DONE;
      }
      if data == null {
        return Err(InvalidArgument);
      }
      if address % 4 != 0 || size % 4 != 0 {
        return Err(InvalidArgument);
      }
      if size > TRANSFER_LIMIT {
        return Err(InvalidArgument);
      }
      var request := Requests.ReadMemory(address, size, 0);
      var block := Begin(FromDevice, size, request);
      var sent := Exchange(block, data, request);
      if sent.Err? {
        return Err(sent.code);
      }
      r := if sent.value != size then Err(Protocol) else DONE;
    }

    method WriteMemory(address: word, data: array?<byte>, size: nat) returns (r: VoidResult)
      requires Valid() && data != assembler.buffer && (data != null ==> data.Length == size)
      modifies channel, assembler, assembler.buffer
      ensures Valid()
      ensures var bytes := if data == null then Zeros(size) else data[..];
              var o := Perform(channel.env, old(Now()), Write(address, bytes, data == null));
              Now() == o.p && r == o.r
    {
      hide BlockFor, SendBlock, Wire.Send, OriginalModel.DiscardStatusWrapper;
      if size == 0 {
        return DONE;
      }
      if data == null {
        return Err(InvalidArgument);
      }
      var aligned := address % 4 == 0 && size % 4 == 0;
      if !aligned && size > BYTE_WRITE_LIMIT {
        return Err(InvalidArgument);
      }
      if aligned && size > TRANSFER_LIMIT {
        return Err(InvalidArgument);
      }
      var request := if aligned then WriteWords(address, size, 0) else WriteBytes(address, size, 0);
      var block := Begin(ToDevice, 0, request);
      var announced := channel.Send(block.into, block.capacity);
      if announced.Err? {
        return announced;
      }
      assert data[..size] == data[..];
      var written := channel.TransportSend(data, size);
      if written.Err? || written.value != size {
        return Err(IO);
      }
      r := DiscardStatusWrapper();
    }

    /** There is no command for this, so it goes as memory. */
    method ReadDebugRegister(address: word) returns (r: Result<word>)
      requires Valid()
      modifies channel, assembler, assembler.buffer
      ensures Valid()
      ensures var o := Perform(channel.env, old(Now()), Read(address, 4, false));
              Now() == o.p && r == if o.r.Err? then Err(IO) else Ok(ReadU32(o.reply))
    {
      hide Ask, ReadU32;
      var bytes := new byte[4](_ => 0);
      assert bytes[..] == Zeros(4);
      var read := ReadMemory(address, bytes, 4);
      if read.Err? {
        return Err(IO);
      }
      r := Ok(ReadU32(bytes[..]));
    }

    method WriteDebugRegister(address: word, value: word) returns (r: VoidResult)
      requires Valid()
      modifies channel, assembler, assembler.buffer
      ensures Valid()
      ensures var o := Perform(channel.env, old(Now()), Write(address, U32(value), false));
              Now() == o.p && r == if o.r.Err? then Err(IO) else DONE
    {
      hide Perform, U32;
      var bytes := U32(value);
      var data := new byte[4](i requires 0 <= i < 4 => bytes[i]);
      assert data[..] == bytes;
      var written := WriteMemory(address, data, 4);
      r := if written.Err? then Err(IO) else DONE;
    }

    method ReadRegister(index: byte) returns (r: Result<word>)
      requires Valid()
      modifies channel, assembler, assembler.buffer
      ensures Valid()
      ensures var o := Perform(channel.env, old(Now()), ReadCore(index)); Now() == o.p && r == WordTold(o)
    {
      hide Ask, ReadU32;
      r := AskForAWord(ReadRegisterV1(index));
    }

    method WriteRegister(index: byte, value: word) returns (r: VoidResult)
      requires Valid()
      modifies channel, assembler, assembler.buffer
      ensures Valid()
      ensures var o := Perform(channel.env, old(Now()), WriteCore(index, value)); Now() == o.p && r == o.r
    {
      hide Ask;
      r := Order(WriteRegisterV1(index, value));
    }
  }

  // ---- What they tell --------------------------------------------------

  /** Asked for the state, a programmer in step tells what the core is, if the target gave it. */
  lemma StateIsTheCores(moods: nat -> Mood, weather: nat -> Weather, p: Programmer)
    requires AlwaysFair(Behind(moods, weather)) && InStep(p)
    ensures var o := Perform(Behind(moods, weather), p, State); var mood := moods(|p.link.device.done|);
            && (mood.cut == 0 ==> StateTold(o) == Ok(NotTold))
            && (mood.cut >= 2 && !mood.faults ==>
                  StateTold(o) == Ok(if p.link.device.core.halted then Halted else Running))
  {
    hide Perform, InStep;
    PerformMeans(moods, weather, p, State);
  }

  /** And asked for its mode, one of the three there are. */
  lemma ModeIsTheProgrammers(moods: nat -> Mood, weather: nat -> Weather, p: Programmer)
    requires AlwaysFair(Behind(moods, weather)) && InStep(p)
    ensures var o := Perform(Behind(moods, weather), p, OriginalModel.Mode); var f := p.link.device;
            var mood := moods(|f.done|);
            && (mood.cut == 0 ==> ModeTold(o) == Err(Protocol))
            && (mood.cut >= 2 && !mood.faults ==>
                  ModeTold(o) == Ok(if f.mode == 0 then Dfu else if f.mode == 1 then MassStorage
                                    else if f.mode == 2 then Debug else ModeName.Unknown))
  {
    hide Perform, InStep;
    PerformMeans(moods, weather, p, OriginalModel.Mode);
  }

  /** And asked for a word, the target's identity or what is in a register of a core that is held. */
  lemma WordIsTheTargets(moods: nat -> Mood, weather: nat -> Weather, p: Programmer, index: byte)
    requires AlwaysFair(Behind(moods, weather)) && InStep(p)
    requires moods(|p.link.device.done|).cut >= 4 && !moods(|p.link.device.done|).faults
    ensures var e := Behind(moods, weather); var f := p.link.device;
            && WordTold(Perform(e, p, CoreId)) == Ok(f.board.coreId)
            && (f.core.halted ==> WordTold(Perform(e, p, ReadCore(index))) == Ok(RegisterOf(f.core, index)))
  {
    hide Perform, InStep, ReadU32, U32;
    PerformMeans(moods, weather, p, CoreId);
    PerformMeans(moods, weather, p, ReadCore(index));
    ReadWordAt(U32(p.link.device.board.coreId), 0, p.link.device.board.coreId);
    ReadWordAt(U32(RegisterOf(p.link.device.core, index)), 0, RegisterOf(p.link.device.core, index));
  }
}

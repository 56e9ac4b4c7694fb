/** The later command set's programmer; a V3 is one with another limit. */
module Later {
  import opened Basics
  import opened Wire
  import opened Command
  import opened Framing
  import opened Memory
  import opened Requests
  import opened LaterModel

  class ProgrammerV2 {
    const kit: Kit
    const channel: CommandChannel<Firmware>
    const assembler: Assembler
    var accessPort: byte

    ghost predicate Valid()
      reads this, assembler
    {
      assembler.Valid() && assembler.wrapping.Plain?
    }

    ghost function Now(): Programmer
      reads this, channel
    {
      Programmer(channel.link, accessPort)
    }

    constructor (kit: Kit, channel: CommandChannel<Firmware>)
      ensures Valid() && this.kit == kit && this.channel == channel && fresh(assembler) && fresh(assembler.buffer)
      ensures Now() == Programmer(channel.link, 0)
    {
      this.kit := kit;
      this.channel := channel;
      this.assembler := new Assembler(Plain);
      this.accessPort := 0;
    }

    /** Begins a command and appends to it; the direction and the reply size go nowhere. */
    method Begin(direction: Direction, replySize: nat, request: Request) returns (block: CommandBlock)
      requires Valid()
      modifies assembler.buffer
      ensures Valid() && fresh(block) && block.into == assembler.buffer && block.capacity == PLAIN_SIZE
      ensures assembler.buffer[..PLAIN_SIZE] == PlainBlock(request)
    {
      hide Padded, Payload;
      block := Assemble(assembler, direction, replySize, request);
    }

    method Exchange(request: Request, reply: array<byte>, replySize: nat, check: Check) returns (r: Result<nat>)
      requires Valid() && reply != assembler.buffer && replySize <= reply.Length
      modifies channel, assembler.buffer, reply
      ensures Valid()
      ensures Outcome(channel.link, reply[..], r) ==
              Exchanged(channel.env, old(channel.link), PlainBlock(request), old(reply[..]), replySize, check, false, 0)
    {
      hide PlainBlock, Exchanged;
      var block := Begin(FromDevice, replySize, request);
      r := channel.Exchange(block.into, block.capacity, reply, replySize, check);
    }

    method SelectAccessPort(port: byte) returns (r: VoidResult)
      requires Valid()
      modifies this`accessPort, channel, assembler.buffer
      ensures Valid()
      ensures var d := Selected(channel.env, old(Now()), port); Now() == d.p && r == d.r
    {
      hide PlainBlock, Exchanged;
      var reply := new byte[2](_ => 0);
      assert reply[..] == Zeros(2);
      var sent := Exchange(InitAccessPort(port), reply, 2, Check.Retry);
      if sent.Err? {
        return Err(sent.code);
      }
      accessPort := port;
      r := DONE;
    }

    method ReadMemory(address: word, data: array?<byte>, size: nat) returns (r: VoidResult)
      requires Valid() && data != assembler.buffer && (data != null ==> data.Length == size)
      modifies channel, assembler.buffer, data
      ensures Valid()
      ensures var settled := SettledRead(address, size, data == null);
              if settled.Some? then
                r == settled.value && Now() == old(Now()) && (data != null ==> data[..] == old(data[..]))
              else
                && data != null
                && ReadOut(Now(), data[..], r) == ReadMemoryInto(channel.env, old(Now()), address, old(data[..]))
    {
      hide PlainBlock, Exchanged;
      if size == 0 {
        return DONE;
      }
      if data == null {
        return Err(InvalidArgument);
      }
      if address % 4 != 0 || size % 4 != 0 {
        return Err(InvalidArgument);
      }
      if size > TRANSFER_LIMIT {
        return Err(InvalidArgument);
      }
      var sent := Exchange(Requests.ReadMemory(address, size, accessPort), data, size, ReplyLength);
      r := if sent.Err? then Err(sent.code) else DONE;
    }

    /** One buffer serves both the short status and the long one. */
    method CheckLastWrite() returns (r: VoidResult)
      requires Valid()
      modifies channel, assembler.buffer
      ensures Valid() && (Now(), r) == LaterModel.CheckLastWrite(kit, channel.env, old(Now()))
    {
      hide PlainBlock, Exchanged;
      var size := if kit.detailed then 12 else 2;
      var reply := new byte[12](_ => 0);
      assert reply[..] == Zeros(12);
      var sent := Exchange(if kit.detailed then GetLastStatus2 else GetLastStatus, reply, size, Status);
      r := if sent.Err? then Err(sent.code) else DONE;
    }

    method WriteMemory(address: word, data: array?<byte>, size: nat) returns (r: VoidResult)
      requires Valid() && data != assembler.buffer && (data != null ==> data.Length == size)
      modifies channel, assembler.buffer
      ensures Valid()
      ensures var bytes := if data == null then Zeros(size) else data[..];
              var d := WriteOf(kit, channel.env, old(Now()), address, bytes, data == null); Now() == d.p && r == d.r
    {
      hide PlainBlock, SendBlock, Wire.Send, LaterModel.CheckLastWrite;
      if size == 0 {
        return DONE;
      }
      if data == null {
        return Err(InvalidArgument);
      }
      var aligned := address % 4 == 0 && size % 4 == 0;
      if !aligned && size > ByteWriteLimit(kit) {
        return Err(InvalidArgument);
      }
      if aligned && size > TRANSFER_LIMIT {
        return Err(InvalidArgument);
      }
      var request := if aligned then WriteWords(address, size, accessPort) else WriteBytes(address, size, accessPort);
      var block := Begin(ToDevice, 0, request);
      var announced := channel.Send(block.into, block.capacity);
      if announced.Err? {
        return announced;
      }
      assert data[..size] == data[..];
      var written := channel.TransportSend(data, size);
      if written.Err? || written.value != size {
        return Err(IO);
      }
      if !aligned {
        return DONE;
      }
      r := CheckLastWrite();
    }

    method ReadDebugRegister(address: word) returns (r: Result<word>)
      requires Valid()
      modifies channel, assembler.buffer
      ensures Valid()
      ensures var d := DebugRead(channel.env, old(Now()), address);
              && Now() == d.p && (d.r.Ok? ==> |d.data| == 4)
              && r == if d.r.Err? then Err(d.r.code) else Ok(ReadU32(d.data))
    {
      hide PlainBlock, Exchanged, ReadU32, ReadMemoryInto;
      if accessPort != 0 {
        var bytes := new byte[4](_ => 0);
        assert bytes[..] == Zeros(4);
        var read := ReadMemory(address, bytes, 4);
        if read.Err? {
          return Err(read.code);
        }
        return Ok(ReadU32(bytes[..]));
      }
      var reply := new byte[8](_ => 0);
      assert reply[..] == Zeros(8);
      var sent := Exchange(Requests.ReadDebugRegister(address), reply, 8, Check.Retry);
      if sent.Err? {
        return Err(sent.code);
      }
      r := Ok(ReadU32(reply[..][VALUE_AT..]));
    }

    method WriteDebugRegister(address: word, value: word) returns (r: VoidResult)
      requires Valid()
      modifies channel, assembler.buffer
      ensures Valid()
      ensures var d := DebugWritten(kit, channel.env, old(Now()), address, value); Now() == d.p && r == d.r
    {
      hide PlainBlock, Exchanged, WriteOf, U32;
      if accessPort != 0 {
        var bytes := U32(value);
        var data := new byte[4](i requires 0 <= i < 4 => bytes[i]);
        assert data[..] == bytes;
        r := WriteMemory(address, data, 4);
        return;
      }
      var reply := new byte[2](_ => 0);
      assert reply[..] == Zeros(2);
      var sent := Exchange(Requests.WriteDebugRegister(address, value), reply, 2, Check.Retry);
      r := if sent.Err? then Err(sent.code) else DONE;
    }
  }
}

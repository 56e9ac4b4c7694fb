/** How a command is laid out on the wire, in the one buffer every command is assembled in. */
module Framing {
  import opened Basics

  datatype Direction = ToDevice | FromDevice

  /** A later programmer takes the command as it is; the original one wants it wrapped. */
  datatype Wrapping = Plain | Wrapped

  const PLAIN_SIZE: nat := 16
  const WRAPPED_SIZE: nat := 31
  const COMMAND_AT: nat := 15
  const BUFFER_SIZE: nat := 32
  const SIGNATURE: seq<byte> := [0x55, 0x53, 0x42, 0x43]
  const FROM_DEVICE: byte := 0x80
  const SCSI_COMMAND_LENGTH: byte := 0x0a

  function BlockSize(wrapping: Wrapping): nat {
    if wrapping.Plain? then PLAIN_SIZE else WRAPPED_SIZE
  }

  /** What precedes the command: a Bulk-Only command block wrapper, as in section 5.1, or nothing. */
  function Header(wrapping: Wrapping, tag: word, direction: Direction, replySize: word): (h: seq<byte>)
    ensures |h| == BlockSize(wrapping) - PLAIN_SIZE
  {
    if wrapping.Plain? then []
    else
      SIGNATURE + (U32(tag) + (U32(replySize)
      + [if direction.FromDevice? then FROM_DEVICE else 0, 0, SCSI_COMMAND_LENGTH]))
  }

  function Padded(payload: seq<byte>): (s: seq<byte>)
    requires |payload| <= PLAIN_SIZE
    ensures |s| == PLAIN_SIZE
  {
    payload + Zeros(PLAIN_SIZE - |payload|)
  }

  /** The whole block: what it says depends on nothing but what is passed here. */
  function Block(wrapping: Wrapping, tag: word, direction: Direction, replySize: word, payload: seq<byte>)
    : (s: seq<byte>)
    requires |payload| <= PLAIN_SIZE
    ensures |s| == BlockSize(wrapping)
  {
    Header(wrapping, tag, direction, replySize) + Padded(payload)
  }

  /** A wrapped command is the plain one behind a wrapper. */
  lemma WrappedIsPlainBehindAHeader(tag: word, direction: Direction, replySize: word, payload: seq<byte>)
    requires |payload| <= PLAIN_SIZE
    ensures Block(Wrapped, tag, direction, replySize, payload)[COMMAND_AT..WRAPPED_SIZE]
            == Block(Plain, tag, direction, replySize, payload)
  {
    hide Padded;
    var plain := Padded(payload);
    assert Header(Plain, tag, direction, replySize) + plain == plain;
    hide Header;
    var header := Header(Wrapped, tag, direction, replySize);
    assert (header + plain)[|header|..] == plain;
  }

  /** And the wrapper says exactly which command, which way and how much. */
  lemma HeaderReadsBack(tag: word, direction: Direction, replySize: word, payload: seq<byte>)
    requires |payload| <= PLAIN_SIZE
    ensures var block := Block(Wrapped, tag, direction, replySize, payload);
            && block[..4] == [0x55, 0x53, 0x42, 0x43]
            && ReadU32(block[4..]) == tag
            && ReadU32(block[8..]) == replySize
            && block[12] == (if direction.FromDevice? then 0x80 else 0)
            && block[13] == 0 && block[14] == 0x0a
  {
    var block := Block(Wrapped, tag, direction, replySize, payload);
    assert block[4..8] == U32(tag);
    ReadWordAt(block, 4, tag);
    assert block[8..12] == U32(replySize);
    ReadWordAt(block, 8, replySize);
  }

  // ---- The buffer ------------------------------------------------------

  /** A command being written: `into` is the programmer's buffer, not one of its own. */
  class CommandBlock {
    const into: array<byte>
    const capacity: nat
    var at: nat

    /** What has not been written is zero. */
    ghost predicate Valid()
      reads this, into
    {
      at <= capacity <= into.Length && forall i :: at <= i < capacity ==> into[i] == 0
    }

    ghost function Written(): seq<byte>
      requires Valid()
      reads this, into
    {
      into[..at]
    }

    constructor (into: array<byte>, capacity: nat, at: nat)
      requires at <= capacity <= into.Length && forall i :: at <= i < capacity ==> into[i] == 0
      ensures this.into == into && this.capacity == capacity && this.at == at
      ensures Valid() && Written() == into[..at]
    {
      this.into, this.capacity, this.at := into, capacity, at;
    }

    method U8(value: byte)
      requires Valid() && at < capacity
      modifies this`at, into
      ensures Valid() && at == old(at) + 1 && Written() == old(Written()) + [value]
    {
      into[at] := value;
      at := at + 1;
    }

    method U16(value: half)
      requires Valid() && at + 2 <= capacity
      modifies this`at, into
      ensures Valid() && at == old(at) + 2 && Written() == old(Written()) + Basics.U16(value)
    {
      U8(value % 0x100);
      U8(value / 0x100);
    }

    method U32(value: word)
      requires Valid() && at + 4 <= capacity
      modifies this`at, into
      ensures Valid() && at == old(at) + 4 && Written() == old(Written()) + Basics.U32(value)
    {
      U16(value % 0x1_0000);
      U16(value / 0x1_0000);
    }
  }

  /** What is sent is always the whole block: the payload written so far, padded. */
  lemma WrittenIsTheBlock(block: CommandBlock, wrapping: Wrapping, tag: word, direction: Direction, replySize: word,
                          payload: seq<byte>)
    requires block.Valid() && block.capacity == BlockSize(wrapping) && |payload| <= PLAIN_SIZE
    requires block.Written() == Header(wrapping, tag, direction, replySize) + payload
    ensures block.into[..block.capacity] == Block(wrapping, tag, direction, replySize, payload)
  {
    var rest := Zeros(PLAIN_SIZE - |payload|);
    assert block.into[..block.capacity] == block.Written() + rest;
  }

  /** The part of a programmer that owns the buffer, and the tag that goes into the wrapper. */
  class Assembler {
    const wrapping: Wrapping
    const buffer: array<byte>
    var tag: word

    ghost predicate Valid()
      reads this
    {
      buffer.Length == BUFFER_SIZE
    }

    constructor (wrapping: Wrapping)
      ensures Valid() && this.wrapping == wrapping && tag == 0 && fresh(buffer)
    {
      this.wrapping := wrapping;
      this.tag := 0;
      buffer := new byte[BUFFER_SIZE](_ => 0);
    }

    /** Writes the wrapper, if there is one; what follows it begins at `at`. */
    method Frame(direction: Direction, replySize: nat) returns (at: nat)
      requires Valid()
      modifies buffer
      ensures at == |Header(wrapping, tag, direction, replySize % 0x1_0000_0000)|
      ensures buffer[..at] == Header(wrapping, tag, direction, replySize % 0x1_0000_0000)
      ensures buffer[at..] == old(buffer[at..])
    {
      if wrapping.Plain? {
        return 0;
      }
      var sizes := Basics.U32(replySize % 0x1_0000_0000);
      var numbers := Basics.U32(tag) + sizes;
      forall i | 0 <= i < 4 {
        buffer[i] := SIGNATURE[i];
      }
      forall i | 0 <= i < 8 {
        buffer[4 + i] := numbers[i];
      }
      buffer[12] := if direction.FromDevice? then FROM_DEVICE else 0;
      buffer[13] := 0;
      buffer[14] := SCSI_COMMAND_LENGTH;
      at := COMMAND_AT;
    }

    /** Starts a command in the buffer, whatever was in it before. */
    method Begin(direction: Direction, replySize: nat) returns (block: CommandBlock)
      requires Valid()
      modifies buffer
      ensures fresh(block) && block.Valid()
      ensures block.into == buffer && block.capacity == BlockSize(wrapping)
      ensures block.Written() == Header(wrapping, tag, direction, replySize % 0x1_0000_0000)
    {
      var size := BlockSize(wrapping);
      forall i | 0 <= i < size {
        buffer[i] := 0;
      }
      label cleared:
      var at := Frame(direction, replySize);
      assert forall i :: at <= i < size ==> buffer[i] == buffer[at..][i - at] == old@cleared(buffer[at..])[i - at];
      block := new CommandBlock(buffer, size, at);
    }
  }
}

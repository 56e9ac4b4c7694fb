/** One exchange with a programmer, repeated while the target is busy. */
module Command {
  import opened Basics
  import opened Wire

  const OK: byte := 0x80
  const AP_WAIT: byte := 0x10
  const DP_WAIT: byte := 0x14

  predicate IsWait(status: byte) {
    status == AP_WAIT || status == DP_WAIT
  }

  /** What has to be true of a reply for it to be accepted. */
  datatype Check = Anything | ReplyLength | Status | Retry

  const WAIT_RETRIES: nat := 3
  const FIRST_WAIT: nat := 1000

  function TwoTo(n: nat): nat {
    if n == 0 then 1 else 2 * TwoTo(n - 1)
  }

  function WaitBefore(retry: nat): nat {
    FIRST_WAIT * TwoTo(retry)
  }

  /** A command the programmer took only some of is left to its reply to decide. */
  function SendBlock<S>(e: Env<S>, l: Link<S>, command: seq<byte>): (Link<S>, VoidResult) {
    var (next, sent) := Send(e, l, command);
    (next, if sent.Ok? then DONE else Err(IO))
  }

  datatype Verdict = Accept | Refuse(code: ErrorCode) | Again

  /** What to make of a reply buffer that `arrived` bytes were just put at the front of. */
  function Judge(check: Check, reply: seq<byte>, room: nat, arrived: nat, retry: nat): Verdict
    requires 0 < room <= |reply|
  {
    if (check.Status? || check.Retry?) && reply[0] != OK then
      if IsWait(reply[0]) && check.Retry? && retry < WAIT_RETRIES then Again else Refuse(TargetRefused)
    else if check.ReplyLength? && arrived != room then Refuse(Protocol)
    else Accept
  }

  datatype Outcome<S> = Outcome(link: Link<S>, reply: seq<byte>, r: Result<nat>)

  /** The command sent once, and whatever comes back put at the front of `reply`. */
  function Attempted<S>(e: Env<S>, l: Link<S>, command: seq<byte>, reply: seq<byte>, room: nat): (o: Outcome<S>)
    requires room <= |reply|
    ensures |o.reply| == |reply|
  {
    var (l1, sent) := SendBlock(e, l, command);
    if sent.Err? then Outcome(l1, reply, Err(sent.code))
    else if room == 0 then Outcome(l1, reply, Ok(0))
    else
      var (l2, received) := Receive(e, l1, room);
      if received.Err? then Outcome(l2, reply, Err(IO))
      else Outcome(l2, Overwrite(reply, received.value), Ok(|received.value|))
  }

  /**
   * A command, its reply, and the command again for as long as the target
   * asks to wait. `aliased` says that the reply goes where the command is.
   */
  function Exchanged<S>(e: Env<S>, l: Link<S>, command: seq<byte>, reply: seq<byte>, room: nat,
                        check: Check, aliased: bool, retry: nat): (o: Outcome<S>)
    requires room <= |reply| && retry <= WAIT_RETRIES
    requires aliased ==> |command| <= |reply|
    ensures |o.reply| == |reply|
    decreases WAIT_RETRIES - retry
  {
    var once := Attempted(e, l, command, reply, room);
    if once.r.Err? || room == 0 then once
    else
      var verdict := Judge(check, once.reply, room, once.r.value, retry);
      if verdict.Again? then
        Exchanged(e, Slept(once.link, WaitBefore(retry)), if aliased then once.reply[..|command|] else command,
                  once.reply, room, check, aliased, retry + 1)
      else if verdict.Refuse? then once.(r := Err(verdict.code))
      else once
  }

  /** What one attempt leaves to do: nothing, or the whole exchange again. */
  lemma OneTurn<S>(e: Env<S>, l: Link<S>, command: seq<byte>, reply: seq<byte>, room: nat,
                   check: Check, aliased: bool, retry: nat, once: Outcome<S>, next: seq<byte>)
    requires room <= |reply| && retry <= WAIT_RETRIES
    requires aliased ==> |command| <= |reply|
    requires once == Attempted(e, l, command, reply, room)
    requires next == if aliased then once.reply[..|command|] else command
    ensures var whole := Exchanged(e, l, command, reply, room, check, aliased, retry);
            if once.r.Err? || room == 0 then whole == once
            else
              var verdict := Judge(check, once.reply, room, once.r.value, retry);
              if verdict.Again? then
                retry < WAIT_RETRIES &&
                whole ==
                Exchanged(e, Slept(once.link, WaitBefore(retry)), next, once.reply, room, check, aliased, retry + 1)
              else whole == once.(r := if verdict.Refuse? then Err(verdict.code) else once.r)
  {
  }

  // ---- The channel -----------------------------------------------------

  class CommandChannel<!S> {
    const env: Env<S>
    var link: Link<S>

    constructor (env: Env<S>, link: Link<S>)
      ensures this.env == env && this.link == link
    {
      this.env := env;
      this.link := link;
    }

    method TransportSend(data: array<byte>, size: nat) returns (sent: Result<nat>)
      requires size <= data.Length
      modifies this
      ensures (link, sent) == Wire.Send(env, old(link), data[..size])
    {
      var (next, answer) := Wire.Send(env, link, data[..size]);
      link, sent := next, answer;
    }

    /** What arrived is put at the front of `data`, and the rest is left as it was. */
    method TransportReceive(data: array<byte>, size: nat) returns (received: Result<nat>)
      requires size <= data.Length
      modifies this, data
      ensures var (next, message) := Wire.Receive(env, old(link), size);
              link == next &&
              if message.Err? then received == Err(message.code) && data[..] == old(data[..])
              else received == Ok(|message.value|) && data[..] == Overwrite(old(data[..]), message.value)
    {
      var (next, message) := Wire.Receive(env, link, size);
      link := next;
      if message.Err? {
        return Err(message.code);
      }
      var was := data[..];
      forall i | 0 <= i < |message.value| {
        data[i] := message.value[i];
      }
      received := Ok(|message.value|);
    }

    method Send(command: array<byte>, size: nat) returns (r: VoidResult)
      requires size <= command.Length
      modifies this
      ensures (link, r) == SendBlock(env, old(link), command[..size])
    {
      var sent := TransportSend(command, size);
      r := if sent.Ok? then DONE else Err(IO);
    }

    method Attempt(command: array<byte>, commandSize: nat, reply: array<byte>, replySize: nat)
      returns (r: Result<nat>)
      requires commandSize <= command.Length && replySize <= reply.Length
      modifies this, reply
      ensures Outcome(link, reply[..], r) ==
              Attempted(env, old(link), old(command[..commandSize]), old(reply[..]), replySize)
    {
      var failed := Send(command, commandSize);
      if failed.Err? {
        return Err(failed.code);
      }
      if replySize == 0 {
        return Ok(0);
      }
      r := TransportReceive(reply, replySize);
    }

    method Exchange(command: array<byte>, commandSize: nat, reply: array<byte>, replySize: nat, check: Check)
      returns (r: Result<nat>)
      requires commandSize <= command.Length && replySize <= reply.Length
      modifies this, reply
      ensures Outcome(link, reply[..], r) ==
              Exchanged(env, old(link), old(command[..commandSize]), old(reply[..]), replySize, check,
                        command == reply, 0)
    {
      hide Attempted, Exchanged;
      var retry := 0;
      ghost var aliased := command == reply;
      ghost var whole := Exchanged(env, link, command[..commandSize], reply[..], replySize, check, aliased, 0);
      while true
        invariant retry <= WAIT_RETRIES
        invariant Exchanged(env, link, command[..commandSize], reply[..], replySize, check, aliased, retry) == whole
        decreases WAIT_RETRIES - retry
      {
        ghost var before, block, was := link, command[..commandSize], reply[..];
        r := Attempt(command, commandSize, reply, replySize);
        ghost var next := command[..commandSize];
        assert next == if aliased then reply[..][..commandSize] else block;
        OneTurn(env, before, block, was, replySize, check, aliased, retry, Outcome(link, reply[..], r), next);
        if r.Err? || replySize == 0 {
          return;
        }
        var verdict := Judge(check, reply[..], replySize, r.value, retry);
        if !verdict.Again? {
          return if verdict.Refuse? then Err(verdict.code) else r;
        }
        link := Slept(link, WaitBefore(retry));
        retry := retry + 1;
        assert command[..commandSize] == next;
      }
    }
  }
}

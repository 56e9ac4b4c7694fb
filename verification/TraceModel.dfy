/** Trace output: a stream the target emits whenever it likes, and reads that must lose none of it. */
module TraceModel {
  import opened Basics
  import opened Wire
  import opened Command
  import opened Requests

  /**
   * What the programmer holds: everything emitted so far, how much of it has
   * been handed over, and how much was announced when it was last asked.
   */
  datatype Tracer = Tracer(emitted: seq<byte>, consumed: nat, announced: nat, step: nat)

  const ANNOUNCED_LIMIT: nat := 0xffff

  predicate Sound(t: Tracer) {
    t.consumed + t.announced <= |t.emitted|
  }

  /** The environment: what the target emits before each thing that happens, and how much a transfer hands over. */
  datatype Target = Target(emits: nat -> seq<byte>, hands: nat -> nat)

  function Emitting(target: Target, t: Tracer): (u: Tracer)
    ensures t.emitted <= u.emitted
    ensures Sound(t) ==> Sound(u)
  {
    t.(emitted := t.emitted + target.emits(t.step), step := t.step + 1)
  }

  function Waiting(t: Tracer): nat {
    if t.consumed <= |t.emitted| then Min(|t.emitted| - t.consumed, ANNOUNCED_LIMIT) else 0
  }

  function Respond(target: Target, t: Tracer, bytes: seq<byte>): (Tracer, seq<seq<byte>>) {
    var u := Emitting(target, t);
    if bytes == PlainBlock(GetTraceCount) then (u.(announced := Waiting(u)), [U16(Waiting(u))])
    else (u, [[OK, 0]])
  }

  function Behind(target: Target, weather: nat -> Weather): Env<Tracer> {
    Env((t, bytes) => Respond(target, t, bytes), weather)
  }

  /** What was announced, as much of it as the transfer hands over; it is not offered again. */
  function HandedOver(target: Target, t: Tracer): (Tracer, seq<byte>)
    requires Sound(t)
  {
    var u := Emitting(target, t);
    (u.(consumed := u.consumed + u.announced, announced := 0),
     u.emitted[u.consumed..u.consumed + Min(target.hands(t.step), u.announced)])
  }

  /** Trace has a channel of its own, and the same rules. */
  function ReceiveTrace(target: Target, e: Env<Tracer>, l: Link<Tracer>, room: nat): (Link<Tracer>, Result<seq<byte>>)
  {
    var next := l.(turn := l.turn + 1);
    if e.weather(l.turn).Fails? || !Sound(l.device) then (next, Err(IO))
    else
      var (u, message) := HandedOver(target, l.device);
      (next.(device := u), if |message| > room then Err(IO) else Ok(message))
  }

  datatype Took = Took(link: Link<Tracer>, data: seq<byte>, r: Result<nat>)

  /** A read: how much is waiting first, and then all of it or none. */
  function TraceRead(target: Target, e: Env<Tracer>, l: Link<Tracer>, able: bool, data: seq<byte>, nowhere: bool): Took
  {
    if !able then Took(l, data, Err(NotSupported))
    else if nowhere && data != [] then Took(l, data, Err(InvalidArgument))
    else
      var o := Exchanged(e, l, PlainBlock(GetTraceCount), Zeros(2), 2, ReplyLength, false, 0);
      if o.r.Err? then Took(o.link, data, o.r)
      else
        var waiting := ReadU16(o.reply);
        if waiting == 0 then Took(o.link, data, Ok(0))
        else if waiting > |data| then Took(o.link, data, Err(InvalidArgument))
        else
          var (k, read) := ReceiveTrace(target, e, o.link, waiting);
          if read.Err? || |read.value| > |data| then Took(k, data, Err(IO))
          else Took(k, Overwrite(data, read.value), Ok(|read.value|))
  }
}

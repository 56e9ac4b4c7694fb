/** Reading trace output from a programmer, and nothing of it lost or read twice. */
module Trace {
  import opened Basics
  import opened Wire
  import opened Command
  import opened Framing
  import opened Requests
  import opened Retry
  import opened TraceModel

  // ---- The calls -------------------------------------------------------

  method TransportReceiveTrace(target: Target, channel: CommandChannel<Tracer>, data: array<byte>, room: nat)
    returns (r: Result<nat>)
    requires room <= data.Length
    modifies channel, data
    ensures var (k, read) := ReceiveTrace(target, channel.env, old(channel.link), room);
            channel.link == k &&
            if read.Err? then r == Err(read.code) && data[..] == old(data[..])
            else r == Ok(|read.value|) && |read.value| <= room && data[..] == Overwrite(old(data[..]), read.value)
  {
    var (k, read) := ReceiveTrace(target, channel.env, channel.link, room);
    channel.link := k;
    if read.Err? {
      return Err(read.code);
    }
    var bytes := read.value;
    forall i | 0 <= i < |bytes| {
      data[i] := bytes[i];
    }
    r := Ok(|bytes|);
  }

  method ReadTrace(target: Target, channel: CommandChannel<Tracer>, a: Assembler, able: bool, data: array?<byte>,
                   size: nat)
    returns (r: Result<nat>)
    requires a.Valid() && a.wrapping.Plain? && data != a.buffer && (data != null ==> data.Length == size)
    modifies channel, a.buffer, data
    ensures var before := if data == null then Zeros(size) else old(data[..]);
            var took := TraceRead(target, channel.env, old(channel.link), able, before, data == null);
            channel.link == took.link && r == took.r && (data != null ==> data[..] == took.data)
  {
    hide Payload, Padded, Exchanged, ReceiveTrace;
    if !able {
      return Err(NotSupported);
    }
    if data == null && size != 0 {
      return Err(InvalidArgument);
    }
    var block := Assemble(a, FromDevice, 2, GetTraceCount);
    var reply := new byte[2](_ => 0);
    assert reply[..] == Zeros(2);
    var sent := channel.Exchange(block.into, block.capacity, reply, 2, ReplyLength);
    if sent.Err? {
      return sent;
    }
    var waiting := ReadU16(reply[..]);
    if waiting == 0 {
      return Ok(0);
    }
    if waiting > size {
      return Err(InvalidArgument);
    }
    r := TransportReceiveTrace(target, channel, data, waiting);
    if r.Err? {
      return Err(IO);
    }
  }

  // ---- One read --------------------------------------------------------

  predicate Quiet(l: Link<Tracer>) {
    l.inbox == [] && Sound(l.device)
  }

  /** What is announced is what is there, up to what the count has room for. */
  lemma CountIsAnnounced(target: Target, weather: nat -> Weather, l: Link<Tracer>)
    requires AlwaysFair(Behind(target, weather)) && Quiet(l)
    ensures var u := Emitting(target, l.device);
            var e := Behind(target, weather);
            var o := Exchanged(e, l, PlainBlock(GetTraceCount), Zeros(2), 2, ReplyLength, false, 0);
            && Quiet(o.link) && o.r == Ok(2) && o.link.device == u.(announced := Waiting(u))
            && ReadU16(o.reply) == Waiting(u)
  {
    hide PlainBlock, U16, ReadU16, Emitting, Attempted;
    var e := Behind(target, weather);
    FairAttempt(e, l, PlainBlock(GetTraceCount), Zeros(2), 2);
    var count := U16(Waiting(Emitting(target, l.device)));
    ReadBackU16(Waiting(Emitting(target, l.device)), []);
    assert count + [] == count;
    assert Overwrite(Zeros(2), count) == count;
  }

  /** What a read took out of the stream, which is nothing if it was refused. */
  function Returned(took: Took): seq<byte>
    requires took.r.Ok? ==> took.r.value <= |took.data|
  {
    if took.r.Ok? then took.data[..took.r.value] else []
  }

  /** A programmer that hands over what it announced. */
  ghost predicate HandsOver(target: Target) {
    forall i :: target.hands(i) >= ANNOUNCED_LIMIT
  }

  /**
   * One read: what comes back is the next of the stream and exactly what has
   * gone from it, and nothing has gone if it was refused for want of room.
   */
  lemma ReadConserves(target: Target, weather: nat -> Weather, l: Link<Tracer>, able: bool, data: seq<byte>,
                      nowhere: bool)
    requires AlwaysFair(Behind(target, weather)) && HandsOver(target) && Quiet(l)
    ensures var took := TraceRead(target, Behind(target, weather), l, able, data, nowhere);
            var t, u := l.device, took.link.device;
            && Quiet(took.link) && t.emitted <= u.emitted && t.consumed <= u.consumed
            && (took.r.Ok? ==> took.r.value <= |took.data|)
            && Returned(took) == u.emitted[t.consumed..u.consumed]
            && (took.r.Err? ==> u.consumed == t.consumed && took.data == data)
  {
    hide Exchanged, PlainBlock, ReadU16, Waiting;
    var e := Behind(target, weather);
    CountIsAnnounced(target, weather, l);
    var o := Exchanged(e, l, PlainBlock(GetTraceCount), Zeros(2), 2, ReplyLength, false, 0);
    assert e.weather(o.link.turn).Fair?;
    assert target.hands(o.link.device.step) >= ANNOUNCED_LIMIT;
    WaitingFits(Emitting(target, l.device));
  }

  lemma WaitingFits(t: Tracer)
    ensures Waiting(t) <= ANNOUNCED_LIMIT
    ensures Sound(t) ==> t.consumed + Waiting(t) <= |t.emitted|
  {
  }

  /** A read with room for all there was when it asked takes all there was. */
  lemma ReadWithRoomTakesEverything(target: Target, weather: nat -> Weather, l: Link<Tracer>, data: seq<byte>)
    requires AlwaysFair(Behind(target, weather)) && HandsOver(target) && Quiet(l)
    requires |Emitting(target, l.device).emitted| - l.device.consumed <= Min(|data|, ANNOUNCED_LIMIT)
    ensures var took := TraceRead(target, Behind(target, weather), l, true, data, false);
            took.r.Ok? && took.link.device.consumed == |Emitting(target, l.device).emitted|
  {
    hide Exchanged, PlainBlock, ReadU16;
    var e := Behind(target, weather);
    CountIsAnnounced(target, weather, l);
    var o := Exchanged(e, l, PlainBlock(GetTraceCount), Zeros(2), 2, ReplyLength, false, 0);
    assert e.weather(o.link.turn).Fair?;
  }

  /** How every read comes out, by what it was given and how much was waiting when it asked. */
  lemma ReadComesOutExactly(target: Target, weather: nat -> Weather, l: Link<Tracer>, able: bool, data: seq<byte>,
                            nowhere: bool)
    requires AlwaysFair(Behind(target, weather)) && HandsOver(target) && Quiet(l)
    ensures var took := TraceRead(target, Behind(target, weather), l, able, data, nowhere);
            var held := |Emitting(target, l.device).emitted| - l.device.consumed;
            var waiting := if held > 0xffff then 0xffff else held;
            && took.r == (if !able then Err(NotSupported)
                          else if (nowhere && data != []) || waiting > |data| then Err(InvalidArgument)
                          else Ok(waiting))
            && (!able || (nowhere && data != []) ==> took.link == l)
  {
    hide Exchanged, PlainBlock, ReadU16;
    var e := Behind(target, weather);
    CountIsAnnounced(target, weather, l);
    var o := Exchanged(e, l, PlainBlock(GetTraceCount), Zeros(2), 2, ReplyLength, false, 0);
    assert e.weather(o.link.turn).Fair?;
    assert target.hands(o.link.device.step) >= ANNOUNCED_LIMIT;
  }

  /** A programmer that hands over less than it announced loses the rest: exactly then is a good read not the stream. */
  lemma ShortHandoverLoses(target: Target, weather: nat -> Weather, l: Link<Tracer>, data: seq<byte>)
    requires AlwaysFair(Behind(target, weather)) && Quiet(l)
    ensures var took := TraceRead(target, Behind(target, weather), l, true, data, false);
            var t, u := l.device, took.link.device;
            took.r.Ok? ==>
              && took.r.value <= |took.data| && t.consumed <= u.consumed <= |u.emitted|
              && (Returned(took) == u.emitted[t.consumed..u.consumed] <==>
                  u.consumed == t.consumed || target.hands(t.step + 1) >= u.consumed - t.consumed)
  {
    hide Exchanged, PlainBlock, ReadU16, Waiting;
    var e := Behind(target, weather);
    CountIsAnnounced(target, weather, l);
    var o := Exchanged(e, l, PlainBlock(GetTraceCount), Zeros(2), 2, ReplyLength, false, 0);
    assert e.weather(o.link.turn).Fair?;
    WaitingFits(Emitting(target, l.device));
  }

  // ---- Runs of reads ---------------------------------------------------

  datatype Asking = Asking(able: bool, data: seq<byte>, nowhere: bool)

  /** Where a run of reads ends, and all it returned, end to end. */
  function ReadAll(target: Target, e: Env<Tracer>, l: Link<Tracer>, asked: seq<Asking>): (Link<Tracer>, seq<byte>)
    decreases |asked|
  {
    if asked == [] then (l, [])
    else
      var took := TraceRead(target, e, l, asked[0].able, asked[0].data, asked[0].nowhere);
      var first := if took.r.Ok? && took.r.value <= |took.data| then took.data[..took.r.value] else [];
      var (k, rest) := ReadAll(target, e, took.link, asked[1..]);
      (k, first + rest)
  }

  lemma Adjacent(s: seq<byte>, a: nat, b: nat, c: nat)
    requires a <= b <= c <= |s|
    ensures s[a..b] + s[b..c] == s[a..c]
  {
  }

  lemma SameOfLonger(s: seq<byte>, t: seq<byte>, a: nat, b: nat)
    requires s <= t && a <= b <= |s|
    ensures s[a..b] == t[a..b]
  {
    assert t[..|s|] == s;
  }

  /**
   * Over any run of reads, with output arriving whenever it likes and any of
   * them refused, what was returned is what has gone from the stream: nothing
   * lost, nothing twice, nothing out of order.
   */
  lemma {:induction false} TraceIsConserved(target: Target, weather: nat -> Weather, l: Link<Tracer>,
                                            asked: seq<Asking>)
    requires AlwaysFair(Behind(target, weather)) && HandsOver(target) && Quiet(l)
    ensures var (k, all) := ReadAll(target, Behind(target, weather), l, asked);
            && Quiet(k) && l.device.emitted <= k.device.emitted && l.device.consumed <= k.device.consumed
            && all == k.device.emitted[l.device.consumed..k.device.consumed]
    decreases |asked|
  {
    hide TraceRead;
    if asked != [] {
      var e := Behind(target, weather);
      ReadConserves(target, weather, l, asked[0].able, asked[0].data, asked[0].nowhere);
      var took := TraceRead(target, e, l, asked[0].able, asked[0].data, asked[0].nowhere);
      TraceIsConserved(target, weather, took.link, asked[1..]);
      var (k, _) := ReadAll(target, e, l, asked);
      var a, b, c := l.device.consumed, took.link.device.consumed, k.device.consumed;
      SameOfLonger(took.link.device.emitted, k.device.emitted, a, b);
      Adjacent(k.device.emitted, a, b, c);
    }
  }

  /** From the beginning, all that was ever returned is a prefix of all that was emitted. */
  lemma ReturnedIsAPrefix(target: Target, weather: nat -> Weather, l: Link<Tracer>, asked: seq<Asking>)
    requires AlwaysFair(Behind(target, weather)) && HandsOver(target) && Quiet(l) && l.device.consumed == 0
    ensures var (k, all) := ReadAll(target, Behind(target, weather), l, asked);
            all <= k.device.emitted && |all| == k.device.consumed
  {
    hide ReadAll;
    TraceIsConserved(target, weather, l, asked);
    var (k, all) := ReadAll(target, Behind(target, weather), l, asked);
    assert all == k.device.emitted[..k.device.consumed];
  }
}

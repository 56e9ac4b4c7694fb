/** Runs of the later command set in which no transfer fails: what is reported is what happened. */
module LaterProofs {
  import opened Basics
  import opened Wire
  import opened Command
  import opened Framing
  import opened Requests
  import opened Memory
  import opened Retry
  import opened LaterModel

  /** Between operations nothing is queued and no data is owed. */
  predicate Idle(l: Link<Firmware>) {
    l.inbox == [] && l.device.pending.None?
  }

  /** Every reply has a first byte at least. */
  ghost predicate Speaks(moods: nat -> Mood) {
    forall i :: moods(i).cut >= 1
  }

  /** No block of either kind begins with what a target says to be given time. */
  lemma NoBlockLooksLikeAWait(wrapping: Wrapping, tag: word, direction: Direction, replySize: word, r: Request)
    ensures !LooksLikeAWait(Block(wrapping, tag, direction, replySize, Payload(r)))
  {
    hide DebugCode, Arguments, U32;
    if wrapping.Wrapped? {
      HeaderReadsBack(tag, direction, replySize, Payload(r));
    }
  }

  lemma BlockIsUnderstood(moods: nat -> Mood, f: Firmware, r: Request)
    requires f.pending.None?
    ensures Respond(moods, f, PlainBlock(r)) == TakeCommand(moods(f.step), f, r)
  {
    hide Padded, Payload, Decode, TakeCommand;
    assert PlainBlock(r) == Padded(Payload(r));
    DecodingRecoversTheRequest(r);
  }

  /** The same firmware, but for how often it has been spoken to. */
  function AtRest(f: Firmware): Firmware {
    f.(step := 0)
  }

  // ---- Commands that answer for themselves -----------------------------

  predicate ZeroPast(s: seq<byte>, n: nat) {
    forall i :: n <= i < |s| ==> s[i] == 0
  }

  /** What one attempt at such a command comes to. */
  lemma OneAcknowledged(moods: nat -> Mood, weather: nat -> Weather, l: Link<Firmware>, r: Request, reply: seq<byte>)
    requires AlwaysFair(Behind(moods, weather)) && Speaks(moods) && Idle(l)
    requires Acknowledged(r) && |reply| == AcknowledgementSize(r)
    ensures var f := l.device; var mood := moods(f.step);
            var answer := Cut(mood, Acknowledgement(mood.status, f.memory, r));
            var o := Attempted(Behind(moods, weather), l, PlainBlock(r), reply, |reply|);
            && Idle(o.link) && o.r == Ok(|answer|) && answer != [] && answer[0] == mood.status
            && o.reply == Overwrite(reply, answer) && o.reply[0] == mood.status
            && (mood.status != OK && ZeroPast(reply, 1) ==> ZeroPast(o.reply, 1))
            && (mood.status == OK && ZeroPast(reply, 1) ==> ZeroPast(o.reply, mood.cut))
            && o.link.device == (if mood.status == OK then After(f, r) else f).(step := f.step + 1)
  {
    hide Acknowledgement, Respond;
    BlockIsUnderstood(moods, l.device, r);
    assert moods(l.device.step).cut >= 1;
    hide PlainBlock, Attempted;
    FairAttempt(Behind(moods, weather), l, PlainBlock(r), reply, |reply|);
    if moods(l.device.step).status != OK {
      RefusalSaysNothing(moods(l.device.step).status, l.device.memory, r);
    }
  }

  lemma RefusalSaysNothing(status: byte, memory: Bytes, r: Request)
    requires Acknowledged(r) && status != OK
    ensures ZeroPast(Acknowledgement(status, memory, r), 1)
  {
  }

  /**
   * However often it had to be sent, a command that answers for itself has
   * taken effect exactly once if it succeeded, and not at all if it failed;
   * and what it then says is the answer of the attempt that took effect.
   */
  lemma {:induction false} EffectExactlyOnSuccess(moods: nat -> Mood, weather: nat -> Weather, l: Link<Firmware>,
                                                  r: Request, reply: seq<byte>, check: Check, retry: nat)
    requires AlwaysFair(Behind(moods, weather)) && Speaks(moods) && Idle(l)
    requires Acknowledged(r) && |reply| == AcknowledgementSize(r) && retry <= WAIT_RETRIES
    requires check.Status? || check.Retry?
    ensures var f := l.device;
            var o := Exchanged(Behind(moods, weather), l, PlainBlock(r), reply, |reply|, check, false, retry);
            var g := o.link.device;
            && Idle(o.link) && g.step > f.step
            && AtRest(g) == AtRest(if o.r.Ok? then After(f, r) else f)
            && (o.r.Ok? ==>
                  var mood := moods(g.step - 1);
                  && mood.status == OK
                  && o.reply[..Min(mood.cut, |reply|)] == Cut(mood, Acknowledgement(OK, f.memory, r))
                  && (ZeroPast(reply, 1) ==> ZeroPast(o.reply, mood.cut)))
    decreases WAIT_RETRIES - retry
  {
    hide Acknowledgement, Respond, PlainBlock, Attempted, After;
    var e := Behind(moods, weather);
    OneAcknowledged(moods, weather, l, r, reply);
    var once := Attempted(e, l, PlainBlock(r), reply, |reply|);
    if Judge(check, once.reply, |reply|, once.r.value, retry).Again? {
      var next := Slept(once.link, WaitBefore(retry));
      EffectExactlyOnSuccess(moods, weather, next, r, once.reply, check, retry + 1);
      AfterIgnoresTheStep(l.device, next.device, r);
    }
  }

  lemma AfterIgnoresTheStep(f: Firmware, g: Firmware, r: Request)
    requires AtRest(f) == AtRest(g)
    ensures AtRest(After(f, r)) == AtRest(After(g, r)) && f.memory == g.memory
  {
  }

  /** Whether a target gives an access within so many times of asking to be given time. */
  ghost predicate GivenInTime(moods: nat -> Mood, from: nat, waits: nat) {
    exists k :: from <= k <= from + waits && moods(k).status == 0x80 &&
                forall i :: from <= i < k ==> AsksToWait(moods(i).status)
  }

  lemma FirstOrLater(moods: nat -> Mood, from: nat, waits: nat)
    ensures GivenInTime(moods, from, waits) <==>
            || moods(from).status == 0x80
            || (waits > 0 && AsksToWait(moods(from).status) && GivenInTime(moods, from + 1, waits - 1))
  {
    if GivenInTime(moods, from, waits) && moods(from).status != 0x80 {
      var k :| from <= k <= from + waits && moods(k).status == 0x80 &&
               forall i :: from <= i < k ==> AsksToWait(moods(i).status);
      assert from + 1 <= k <= from + 1 + (waits - 1);
    }
    if waits > 0 && AsksToWait(moods(from).status) && GivenInTime(moods, from + 1, waits - 1) {
      var k :| from + 1 <= k <= from + 1 + (waits - 1) && moods(k).status == 0x80 &&
               forall i :: from + 1 <= i < k ==> AsksToWait(moods(i).status);
      assert from <= k <= from + waits;
    }
  }

  /** A command that answers for itself and may be sent again succeeds exactly if it is given in four goes. */
  lemma {:induction false} RetriedUntilGiven(moods: nat -> Mood, weather: nat -> Weather, l: Link<Firmware>, r: Request,
                                             reply: seq<byte>, retry: nat)
    requires AlwaysFair(Behind(moods, weather)) && Speaks(moods) && Idle(l)
    requires Acknowledged(r) && |reply| == AcknowledgementSize(r) && retry <= 3
    ensures var o := Exchanged(Behind(moods, weather), l, PlainBlock(r), reply, |reply|, Check.Retry, false, retry);
            && (o.r.Ok? <==> GivenInTime(moods, l.device.step, 3 - retry))
            && (o.r.Err? ==> o.r.code == TargetRefused)
    decreases 3 - retry
  {
    hide Acknowledgement, Respond, PlainBlock, Attempted, After, GivenInTime;
    var e := Behind(moods, weather);
    OneAcknowledged(moods, weather, l, r, reply);
    FirstOrLater(moods, l.device.step, 3 - retry);
    var once := Attempted(e, l, PlainBlock(r), reply, |reply|);
    if Judge(Check.Retry, once.reply, |reply|, once.r.value, retry).Again? {
      RetriedUntilGiven(moods, weather, Slept(once.link, WaitBefore(retry)), r, once.reply, retry + 1);
    }
  }

  /** So opening a port succeeds, and reading or writing a register on port zero, within three waits and not past. */
  lemma GivenInTimeExactly(moods: nat -> Mood, weather: nat -> Weather, kit: Kit, p: Programmer, port: byte,
                           address: word, value: word)
    requires AlwaysFair(Behind(moods, weather)) && Speaks(moods) && Idle(p.link)
    ensures var e := Behind(moods, weather); var given := GivenInTime(moods, p.link.device.step, 3);
            && Selected(e, p, port).r == (if given then DONE else Err(TargetRefused))
            && (p.port == 0 ==>
                  && DebugRead(e, p, address).r == (if given then DONE else Err(TargetRefused))
                  && DebugWritten(kit, e, p, address, value).r == (if given then DONE else Err(TargetRefused)))
  {
    hide Exchanged, PlainBlock, GivenInTime;
    RetriedUntilGiven(moods, weather, p.link, InitAccessPort(port), Zeros(2), 0);
    RetriedUntilGiven(moods, weather, p.link, ReadDebugRegister(address), Zeros(8), 0);
    RetriedUntilGiven(moods, weather, p.link, WriteDebugRegister(address, value), Zeros(2), 0);
  }

  // ---- Memory ----------------------------------------------------------

  /** A read of memory succeeds exactly when the reply is whole, and says what is there if the target gave it. */
  lemma ReadMemoryReads(moods: nat -> Mood, weather: nat -> Weather, p: Programmer, address: word, data: seq<byte>)
    requires AlwaysFair(Behind(moods, weather)) && Idle(p.link)
    requires 0 < |data| <= 6144 && address % 4 == 0 && |data| % 4 == 0
    ensures var f := p.link.device; var mood := moods(f.step); var status := Met(mood, f, p.port);
            var o := ReadMemoryInto(Behind(moods, weather), p, address, data);
            && Idle(o.p.link) && o.p.port == p.port
            && o.p.link.device == f.(lastStatus := status, step := f.step + 1)
            && (o.r.Ok? <==> mood.cut >= |data|) && (o.r.Ok? ==> o.r == DONE)
            && (o.r.Ok? ==> o.data == if status == OK then Fetch(f.memory, p.port, address, |data|)
                                      else Filled(mood.says, |data|))
  {
    hide Respond, PlainBlock, Attempted, Fetch, Filled;
    var e := Behind(moods, weather);
    var r := ReadMemory(address, |data|, p.port);
    BlockIsUnderstood(moods, p.link.device, r);
    FairAttempt(e, p.link, PlainBlock(r), data, |data|);
    var mood := moods(p.link.device.step);
    var status := Met(mood, p.link.device, p.port);
    var whole := if status == OK then Fetch(p.link.device.memory, p.port, address, |data|)
                 else Filled(mood.says, |data|);
    assert e.respond(p.link.device, PlainBlock(r)).1 == [Cut(mood, whole)];
    if mood.cut >= |data| {
      assert Overwrite(data, Cut(mood, whole)) == whole;
    }
  }

  /** The question whether the last write landed is answered with what the target made of it. */
  lemma LastWriteIsChecked(moods: nat -> Mood, weather: nat -> Weather, kit: Kit, p: Programmer)
    requires AlwaysFair(Behind(moods, weather)) && Speaks(moods) && Idle(p.link) && p.link.device.kit == kit
    ensures var f := p.link.device;
            var (q, r) := CheckLastWrite(kit, Behind(moods, weather), p);
            && Idle(q.link) && q.port == p.port && q.link.device == f.(step := f.step + 1)
            && (r.Ok? <==> f.lastStatus == OK) && (r.Ok? ==> r == DONE)
  {
    hide Respond, PlainBlock, Attempted;
    var e := Behind(moods, weather);
    var f := p.link.device;
    var r, size := if kit.detailed then GetLastStatus2 else GetLastStatus, if kit.detailed then 12 else 2;
    BlockIsUnderstood(moods, f, r);
    assert moods(f.step).cut >= 1;
    FairAttempt(e, p.link, PlainBlock(r), Zeros(12), size);
  }

  /** The announcement of a write and the data behind it, up to the question whether it landed. */
  function DataSent(e: Env<Firmware>, p: Programmer, address: word, data: seq<byte>): Programmer
    requires |data| < 0x1_0000
  {
    var announced := SendBlock(e, p.link, PlainBlock(WriteRequest(address, |data|, p.port))).0;
    p.(link := Send(e, announced, data).0)
  }

  /** How many bytes a write carries at most. */
  predicate Carried(kit: Kit, address: word, size: nat) {
    size <= if address % 4 == 0 && size % 4 == 0 then 6144 else if kit.generation.V2? then 64 else 512
  }

  lemma DataIsTaken(moods: nat -> Mood, weather: nat -> Weather, kit: Kit, p: Programmer, address: word,
                    data: seq<byte>)
    requires AlwaysFair(Behind(moods, weather)) && Idle(p.link) && p.link.device.kit == kit
    requires data != [] && Carried(kit, address, |data|)
    ensures var f := p.link.device; var e := Behind(moods, weather);
            var status := Met(moods(f.step + 1), f, p.port);
            var q := DataSent(e, p, address, data);
            && Idle(q.link) && q.port == p.port
            && q.link.device ==
               f.(step := f.step + 2, lastStatus := if Aligned(address, |data|) then status else f.lastStatus,
                  memory := if status == OK then Store(f.memory, p.port, address, data) else f.memory,
                  done := if status == OK then f.done + [WriteRequest(address, |data|, p.port)] else f.done)
            && WriteMemoryFrom(kit, e, p, address, data) ==
               if Aligned(address, |data|) then CheckLastWrite(kit, e, q) else (q, DONE)
  {
    hide Respond, PlainBlock, CheckLastWrite;
    var e := Behind(moods, weather);
    var r := WriteRequest(address, |data|, p.port);
    BlockIsUnderstood(moods, p.link.device, r);
    FairSend(e, p.link, PlainBlock(r));
    var announced := Send(e, p.link, PlainBlock(r)).0;
    assert announced.device == p.link.device.(step := p.link.device.step + 1, pending := Some(r));
    DataTaken(moods, announced.device, data);
    FairSend(e, announced, data);
    hide Send;
  }

  lemma DataTaken(moods: nat -> Mood, f: Firmware, data: seq<byte>)
    requires f.pending.Some?
    ensures Respond(moods, f, data) == (TakeData(moods(f.step), f, data), [])
  {
  }

  /**
   * A word write reports exactly whether it landed. A byte write reports
   * success either way. Nothing but the bytes addressed is ever changed, and
   * what is sent is always a command that the firmware takes on.
   */
  lemma WriteMemoryWrites(moods: nat -> Mood, weather: nat -> Weather, kit: Kit, p: Programmer, address: word,
                          data: seq<byte>)
    requires AlwaysFair(Behind(moods, weather)) && Speaks(moods) && Idle(p.link) && p.link.device.kit == kit
    requires data != [] && Carried(kit, address, |data|)
    ensures var f := p.link.device; var landed := p.port == f.current && moods(f.step + 1).status == OK;
            var (q, r) := WriteMemoryFrom(kit, Behind(moods, weather), p, address, data);
            && Idle(q.link) && q.port == p.port && q.link.device.current == f.current && q.link.device.step > f.step
            && q.link.device.kit == kit
            && q.link.device.memory == (if landed then Store(f.memory, p.port, address, data) else f.memory)
            && q.link.device.done ==
               (if !landed then f.done
                else if address % 4 == 0 && |data| % 4 == 0 then f.done + [WriteWords(address, |data|, p.port)]
                else f.done + [WriteBytes(address, |data|, p.port)])
            && (r.Ok? <==> landed || address % 4 != 0 || |data| % 4 != 0) && (r.Ok? ==> r == DONE)
  {
    hide WriteMemoryFrom, CheckLastWrite, DataSent, Store;
    var e := Behind(moods, weather);
    DataIsTaken(moods, weather, kit, p, address, data);
    LastWriteIsChecked(moods, weather, kit, DataSent(e, p, address, data));
  }

  /** A write whose data is taken only in part has failed, though a command taken in part has not. */
  lemma PartialDataFails(kit: Kit, e: Env<Firmware>, p: Programmer, address: word, data: seq<byte>)
    requires data != [] && Carried(kit, address, |data|) && !e.weather(p.link.turn).Fails?
    requires e.weather(p.link.turn + 1).Fails? || Taken(e.weather(p.link.turn + 1), |data|) < |data|
    ensures WriteMemoryFrom(kit, e, p, address, data).1 == Err(IO)
  {
    hide PlainBlock, CheckLastWrite;
  }

  /** What is refused, or done with, before anything is sent, and as what. */
  lemma SettledExactly(kit: Kit, e: Env<Firmware>, p: Programmer, address: word, data: seq<byte>, nowhere: bool)
    ensures var size := |data|; var fits := address % 4 == 0 && size % 4 == 0 && size <= 6144;
            var read := ReadOf(e, p, address, size, nowhere);
            && (size == 0 ==> read == Done(p, [], DONE))
            && (size > 0 && (nowhere || !fits) ==> read == Done(p, [], Err(InvalidArgument)))
            && (size > 0 && !nowhere && fits ==> |read.p.link.sent| > |p.link.sent|)
    ensures var written := WriteOf(kit, e, p, address, data, nowhere);
            && (data == [] ==> written == Done(p, [], DONE))
            && (data != [] && (nowhere || !Carried(kit, address, |data|)) ==>
                  written == Done(p, [], Err(InvalidArgument)))
            && (data != [] && !nowhere && Carried(kit, address, |data|) ==> |written.p.link.sent| > |p.link.sent|)
  {
    hide Exchanged, PlainBlock, CheckLastWrite;
    var size := |data|;
    if SettledRead(address, size, nowhere).None? {
      FirstSentIsTheBlock(e, p.link, PlainBlock(ReadMemory(address, size, p.port)), Zeros(size), size, ReplyLength,
                          false, 0);
    }
    if SettledWrite(kit, address, size, nowhere).None? {
      StatusAskedFor(kit, e, DataSent(e, p, address, data));
    }
  }

  /** Whether the last write landed is asked by the better command exactly if the revision has it. */
  lemma StatusAskedFor(kit: Kit, e: Env<Firmware>, p: Programmer)
    ensures var k, n := CheckLastWrite(kit, e, p).0.link, |p.link.sent|;
            && |k.sent| > n
            && k.sent[n] == PlainBlock(if kit.detailed then GetLastStatus2 else GetLastStatus)
  {
    hide Exchanged, PlainBlock;
    var r, size := if kit.detailed then GetLastStatus2 else GetLastStatus, if kit.detailed then 12 else 2;
    FirstSentIsTheBlock(e, p.link, PlainBlock(r), Zeros(12), size, Status, false, 0);
  }

  /** A debug register is written by its own command on port zero, and as a word of memory on any other. */
  lemma RegisterWriteTravelsByPort(kit: Kit, e: Env<Firmware>, p: Programmer, address: word, value: word)
    requires address % 4 == 0
    ensures var k, n := DebugWritten(kit, e, p, address, value).p.link, |p.link.sent|;
            && |k.sent| > n
            && k.sent[n] == PlainBlock(if p.port == 0 then WriteDebugRegister(address, value)
                                       else WriteWords(address, 4, p.port))
  {
    hide Exchanged, PlainBlock, CheckLastWrite, U32;
    if p.port == 0 {
      FirstSentIsTheBlock(e, p.link, PlainBlock(WriteDebugRegister(address, value)), Zeros(2), 2, Check.Retry, false,
                          0);
    } else {
      StatusAskedFor(kit, e, DataSent(e, p, address, U32(value)));
      CheckingOnlyAdds(kit, e, DataSent(e, p, address, U32(value)));
    }
  }

  lemma CheckingOnlyAdds(kit: Kit, e: Env<Firmware>, p: Programmer)
    ensures Since(p.link, CheckLastWrite(kit, e, p).0.link)
  {
    hide Exchanged, PlainBlock;
    var r, size := if kit.detailed then GetLastStatus2 else GetLastStatus, if kit.detailed then 12 else 2;
    FirstSentIsTheBlock(e, p.link, PlainBlock(r), Zeros(12), size, Status, false, 0);
  }

  // ---- Any operation ---------------------------------------------------

  /** An operation whose report can be believed: any but a write the firmware only has as single bytes. */
  predicate Confirmed(op: Op) {
    && (op.Write? ==> Aligned(op.address, |op.data|))
    && (op.WriteDebug? ==> op.address % 4 == 0)
  }

  /** The simple memory all this comes to: writes happen if and only if they are reported to have. */
  function Effect(port: byte, memory: Bytes, op: Op, r: VoidResult): Bytes {
    if r.Err? then memory
    else if op.Write? then Store(memory, port, op.address, op.data)
    else if op.WriteDebug? then Store(memory, port, op.address, U32(op.value))
    else memory
  }

  function NextPort(port: byte, op: Op, r: VoidResult): byte {
    if op.SelectAccessPort? && r.Ok? then op.port else port
  }

  /** The port recorded and the one the firmware has open agree. */
  predicate InAgreement(p: Programmer) {
    Idle(p.link) && p.port == p.link.device.current
  }

  ghost predicate AsReported(p: Programmer, op: Op, d: Done) {
    && InAgreement(d.p) && d.p.port == NextPort(p.port, op, d.r)
    && d.p.link.device.memory == Effect(p.port, p.link.device.memory, op, d.r)
    && d.p.link.device.kit == p.link.device.kit
  }

  lemma SelectAsReported(moods: nat -> Mood, weather: nat -> Weather, p: Programmer, port: byte)
    requires AlwaysFair(Behind(moods, weather)) && Speaks(moods) && InAgreement(p)
    ensures AsReported(p, SelectAccessPort(port), Selected(Behind(moods, weather), p, port))
  {
    hide Exchanged, PlainBlock;
    EffectExactlyOnSuccess(moods, weather, p.link, InitAccessPort(port), Zeros(2), Check.Retry, 0);
  }

  lemma ReadAsReported(moods: nat -> Mood, weather: nat -> Weather, p: Programmer, address: word, size: nat,
                       nowhere: bool)
    requires AlwaysFair(Behind(moods, weather)) && InAgreement(p)
    ensures AsReported(p, Read(address, size, nowhere), ReadOf(Behind(moods, weather), p, address, size, nowhere))
  {
    hide ReadMemoryInto;
    if SettledRead(address, size, nowhere).None? {
      ReadMemoryReads(moods, weather, p, address, Zeros(size));
    }
  }

  lemma WriteAsReported(moods: nat -> Mood, weather: nat -> Weather, kit: Kit, p: Programmer, address: word,
                        data: seq<byte>, nowhere: bool)
    requires AlwaysFair(Behind(moods, weather)) && Speaks(moods) && InAgreement(p)
    requires Aligned(address, |data|)
    requires p.link.device.kit == kit
    ensures AsReported(p, Write(address, data, nowhere),
                       WriteOf(kit, Behind(moods, weather), p, address, data, nowhere))
  {
    hide WriteMemoryFrom;
    if SettledWrite(kit, address, |data|, nowhere).None? {
      WriteMemoryWrites(moods, weather, kit, p, address, data);
    }
  }

  /** Writing a debug register: by its own command on port zero, as memory on any other, to the same effect. */
  lemma WriteDebugAsReported(moods: nat -> Mood, weather: nat -> Weather, kit: Kit, p: Programmer, address: word,
                             value: word)
    requires AlwaysFair(Behind(moods, weather)) && Speaks(moods) && InAgreement(p) && address % 4 == 0
    requires p.link.device.kit == kit
    ensures AsReported(p, WriteDebug(address, value), DebugWritten(kit, Behind(moods, weather), p, address, value))
  {
    hide Exchanged, PlainBlock, WriteOf, U32;
    if p.port != 0 {
      WriteAsReported(moods, weather, kit, p, address, U32(value), false);
    } else {
      EffectExactlyOnSuccess(moods, weather, p.link, WriteDebugRegister(address, value), Zeros(2), Check.Retry, 0);
    }
  }

  lemma ReadDebugAsReported(moods: nat -> Mood, weather: nat -> Weather, p: Programmer, address: word)
    requires AlwaysFair(Behind(moods, weather)) && Speaks(moods) && InAgreement(p)
    ensures AsReported(p, ReadDebug(address), DebugRead(Behind(moods, weather), p, address))
  {
    hide Exchanged, PlainBlock, ReadOf;
    if p.port != 0 {
      ReadAsReported(moods, weather, p, address, 4, false);
    } else {
      EffectExactlyOnSuccess(moods, weather, p.link, ReadDebugRegister(address), Zeros(8), Check.Retry, 0);
    }
  }

  lemma PerformAsReported(moods: nat -> Mood, weather: nat -> Weather, kit: Kit, p: Programmer, op: Op)
    requires AlwaysFair(Behind(moods, weather)) && Speaks(moods) && InAgreement(p) && Confirmed(op)
    requires p.link.device.kit == kit
    ensures AsReported(p, op, Perform(kit, Behind(moods, weather), p, op))
  {
    hide AsReported, Selected, ReadOf, WriteOf, DebugRead, DebugWritten;
    match op {
      case SelectAccessPort(port) => SelectAsReported(moods, weather, p, port);
      case Read(address, size, nowhere) => ReadAsReported(moods, weather, p, address, size, nowhere);
      case Write(address, data, nowhere) => WriteAsReported(moods, weather, kit, p, address, data, nowhere);
      case ReadDebug(address) => ReadDebugAsReported(moods, weather, p, address);
      case WriteDebug(address, value) => WriteDebugAsReported(moods, weather, kit, p, address, value);
    }
  }

  // ---- Reading back ----------------------------------------------------

  /** The native register read: what arrives is the register, and what does not arrive is passed off as zeros. */
  lemma NativeReadReads(moods: nat -> Mood, weather: nat -> Weather, p: Programmer, address: word)
    requires AlwaysFair(Behind(moods, weather)) && Speaks(moods) && InAgreement(p) && p.port == 0
    ensures var memory := p.link.device.memory;
            var d := DebugRead(Behind(moods, weather), p, address);
            |d.data| == 4 && d.p.link.device.step > 0 &&
            var arrived := moods(d.p.link.device.step - 1).cut;
            d.r.Ok? ==>
              forall i :: 0 <= i < 4 ==> d.data[i] == if VALUE_AT + i < arrived then At(memory, 0, address + i) else 0
  {
    hide Exchanged, PlainBlock, At;
    var r := ReadDebugRegister(address);
    var memory := p.link.device.memory;
    EffectExactlyOnSuccess(moods, weather, p.link, r, Zeros(8), Check.Retry, 0);
    var o := Ask(Behind(moods, weather), p, r, 8, Check.Retry);
    if o.r.Ok? {
      var mood := moods(o.link.device.step - 1);
      var whole := Acknowledgement(OK, memory, r);
      RegisterIsBehindTheStatus(memory, address);
      var data := o.reply[VALUE_AT..];
      forall i | 0 <= i < 4
        ensures data[i] == if VALUE_AT + i < mood.cut then At(memory, 0, address + i) else 0
      {
        assert data[i] == o.reply[VALUE_AT + i];
        if VALUE_AT + i < mood.cut {
          assert o.reply[..Min(mood.cut, 8)][VALUE_AT + i] == Cut(mood, whole)[VALUE_AT + i] == whole[VALUE_AT + i];
        }
      }
    }
  }

  lemma RegisterIsBehindTheStatus(memory: Bytes, address: word)
    ensures forall i :: VALUE_AT <= i < 8 ==>
              Acknowledgement(OK, memory, ReadDebugRegister(address))[i] == At(memory, 0, address + (i - VALUE_AT))
  {
  }

  /** Replies are as long as they should be. */
  ghost predicate Whole(moods: nat -> Mood) {
    forall i :: moods(i).cut >= 8
  }

  /** Whether a register's reading can be relied on: by its own command always, as memory if the target gave it. */
  predicate Reliable(moods: nat -> Mood, p: Programmer) {
    p.port == 0 || moods(p.link.device.step).status == OK
  }

  /** By either route a register that was read is the same word of the selected port. */
  lemma EitherRouteReadsTheSameWord(moods: nat -> Mood, weather: nat -> Weather, p: Programmer, address: word)
    requires AlwaysFair(Behind(moods, weather)) && Whole(moods) && InAgreement(p) && Reliable(moods, p)
    ensures var d := DebugRead(Behind(moods, weather), p, address);
            d.r.Ok? ==> d.data == Fetch(p.link.device.memory, p.port, address, 4)
  {
    hide Exchanged, PlainBlock, ReadMemoryInto;
    assert Speaks(moods);
    if p.port != 0 {
      if SettledRead(address, 4, false).None? {
        ReadMemoryReads(moods, weather, p, address, Zeros(4));
      }
    } else {
      NativeReadReads(moods, weather, p, address);
      var d := DebugRead(Behind(moods, weather), p, address);
      assert moods(d.p.link.device.step - 1).cut >= 8;
    }
  }

  lemma ReadingReadsMemory(moods: nat -> Mood, weather: nat -> Weather, p: Programmer, address: word, size: nat,
                           nowhere: bool)
    requires AlwaysFair(Behind(moods, weather)) && InAgreement(p)
    requires moods(p.link.device.step).status == OK
    ensures var d := ReadOf(Behind(moods, weather), p, address, size, nowhere);
            d.r.Ok? ==> d.data == Fetch(p.link.device.memory, p.port, address, size)
  {
    hide ReadMemoryInto;
    if SettledRead(address, size, nowhere).None? {
      ReadMemoryReads(moods, weather, p, address, Zeros(size));
    }
  }

  /** A register written is what is read back, as a register and as memory, with everything else untouched. */
  lemma WrittenRegisterReadsBack(moods: nat -> Mood, weather: nat -> Weather, kit: Kit, p: Programmer, address: word,
                                 value: word)
    requires AlwaysFair(Behind(moods, weather)) && Whole(moods) && InAgreement(p) && address % 4 == 0
    requires p.link.device.kit == kit
    ensures var e := Behind(moods, weather);
            var written := DebugWritten(kit, e, p, address, value);
            var q := written.p;
            var asRegister := DebugRead(e, q, address);
            var asMemory := ReadOf(e, q, address, 4, false);
            written.r.Ok? ==>
              && (asRegister.r.Ok? && Reliable(moods, q) ==> asRegister.data == U32(value))
              && (asMemory.r.Ok? && moods(q.link.device.step).status == OK ==> asMemory.data == U32(value))
              && forall port: nat, a: nat, n: nat :: Apart(p.port, address, 4, port, a, n) ==>
                   Fetch(q.link.device.memory, port, a, n) == Fetch(p.link.device.memory, port, a, n)
  {
    hide DebugWritten, DebugRead, ReadOf, U32;
    assert Speaks(moods);
    var e := Behind(moods, weather);
    var memory := p.link.device.memory;
    WriteDebugAsReported(moods, weather, kit, p, address, value);
    var written := DebugWritten(kit, e, p, address, value);
    if written.r.Ok? {
      var q := written.p;
      StoredIsFetched(memory, p.port, address, U32(value));
      if Reliable(moods, q) {
        EitherRouteReadsTheSameWord(moods, weather, q, address);
      }
      if moods(q.link.device.step).status == OK {
        ReadingReadsMemory(moods, weather, q, address, 4, false);
      }
      forall port: nat, a: nat, n: nat | Apart(p.port, address, 4, port, a, n)
        ensures Fetch(q.link.device.memory, port, a, n) == Fetch(memory, port, a, n)
      {
        StoredElsewhereIsNotFetched(memory, p.port, address, U32(value), port, a, n);
      }
    }
  }

  /** Words written to memory are what is read back, on any port. */
  lemma WrittenMemoryReadsBack(moods: nat -> Mood, weather: nat -> Weather, kit: Kit, p: Programmer, address: word,
                               data: seq<byte>)
    requires AlwaysFair(Behind(moods, weather)) && Speaks(moods) && InAgreement(p)
    requires Aligned(address, |data|) && 0 < |data| <= TRANSFER_LIMIT
    requires p.link.device.kit == kit
    ensures var e := Behind(moods, weather);
            var written := WriteOf(kit, e, p, address, data, false);
            var q := written.p;
            var read := ReadOf(e, q, address, |data|, false);
            written.r.Ok? ==>
              && (read.r.Ok? && moods(q.link.device.step).status == OK ==> read.data == data)
              && forall port: nat, a: nat, n: nat :: Apart(p.port, address, |data|, port, a, n) ==>
                   Fetch(q.link.device.memory, port, a, n) == Fetch(p.link.device.memory, port, a, n)
  {
    hide WriteOf, ReadMemoryInto;
    var e := Behind(moods, weather);
    var memory := p.link.device.memory;
    WriteAsReported(moods, weather, kit, p, address, data, false);
    var written := WriteOf(kit, e, p, address, data, false);
    if written.r.Ok? {
      StoredIsFetched(memory, p.port, address, data);
      ReadMemoryReads(moods, weather, written.p, address, Zeros(|data|));
      forall port: nat, a: nat, n: nat | Apart(p.port, address, |data|, port, a, n)
        ensures Fetch(written.p.link.device.memory, port, a, n) == Fetch(memory, port, a, n)
      {
        StoredElsewhereIsNotFetched(memory, p.port, address, data, port, a, n);
      }
    }
  }

  /** Why the ports must agree: through one that is not open no read says anything and no write lands. */
  lemma DisagreementReachesNothing(moods: nat -> Mood, weather: nat -> Weather, kit: Kit, p: Programmer, address: word,
                                   data: seq<byte>)
    requires AlwaysFair(Behind(moods, weather)) && Speaks(moods) && Idle(p.link) && p.port != p.link.device.current
    requires Aligned(address, |data|) && 0 < |data| <= TRANSFER_LIMIT
    requires p.link.device.kit == kit
    ensures var e := Behind(moods, weather); var mood := moods(p.link.device.step);
            var read := ReadMemoryInto(e, p, address, data);
            var (q, written) := WriteMemoryFrom(kit, e, p, address, data);
            && (read.r.Ok? ==> read.data == Filled(mood.says, |data|))
            && written.Err? && q.link.device.memory == p.link.device.memory
  {
    hide ReadMemoryInto, WriteMemoryFrom, Filled, Store, Fetch;
    var f := p.link.device;
    assert Met(moods(f.step), f, p.port) == AP_FAULT && Met(moods(f.step + 1), f, p.port) == AP_FAULT;
    ReadMemoryReads(moods, weather, p, address, data);
    WriteMemoryWrites(moods, weather, kit, p, address, data);
    var (q, written) := WriteMemoryFrom(kit, Behind(moods, weather), p, address, data);
    assert written.Err? && q.link.device.memory == f.memory;
  }

  // ---- Whole runs ------------------------------------------------------

  /** The simple machine: a port, a memory, and reports that are taken at their word. */
  datatype Simple = Simple(port: byte, memory: Bytes)

  function Stepped(s: Simple, op: Op, r: VoidResult): Simple {
    Simple(NextPort(s.port, op, r), Effect(s.port, s.memory, op, r))
  }

  /** Where it is after the first `n` of a run. */
  function Reported(s: Simple, ops: seq<Op>, reports: seq<Report>, n: nat): Simple
    requires n <= |ops| == |reports|
    decreases n
  {
    if n == 0 then s else Reported(Stepped(s, ops[0], reports[0].r), ops[1..], reports[1..], n - 1)
  }

  /** The programmer before operation `n` of a run. */
  function Before(kit: Kit, e: Env<Firmware>, p: Programmer, ops: seq<Op>, n: nat): Programmer
    requires n <= |ops|
    decreases n
  {
    if n == 0 then p else Before(kit, e, Perform(kit, e, p, ops[0]).p, ops[1..], n - 1)
  }

  predicate Reads(op: Op) {
    op.Read? || op.ReadDebug?
  }

  function SizeRead(op: Op): nat
    requires Reads(op)
  {
    if op.Read? then op.size else 4
  }

  /** Whether what is read can be relied on: a register by its own command always, memory if the target gives it. */
  predicate Dependable(moods: nat -> Mood, p: Programmer, op: Op) {
    (op.ReadDebug? && p.port == 0) || moods(p.link.device.step).status == OK
  }

  lemma ReadSaysTheMemory(moods: nat -> Mood, weather: nat -> Weather, kit: Kit, p: Programmer, op: Op)
    requires AlwaysFair(Behind(moods, weather)) && Whole(moods) && InAgreement(p)
    requires Reads(op) && Dependable(moods, p, op)
    ensures var d := Perform(kit, Behind(moods, weather), p, op);
            d.r.Ok? ==> d.data == Fetch(p.link.device.memory, p.port, op.address, SizeRead(op))
  {
    hide ReadOf, DebugRead;
    if op.Read? {
      ReadingReadsMemory(moods, weather, p, op.address, op.size, op.nowhere);
    } else {
      EitherRouteReadsTheSameWord(moods, weather, p, op.address);
    }
  }

  /** What was read at one point of a run is what the simple machine's memory holds there. */
  ghost predicate ReadTruly(moods: nat -> Mood, p: Programmer, s: Simple, op: Op, report: Report) {
    Reads(op) && report.r.Ok? && Dependable(moods, p, op) ==>
      report.data == Fetch(s.memory, s.port, op.address, SizeRead(op))
  }

  function SimpleOf(p: Programmer): Simple {
    Simple(p.port, p.link.device.memory)
  }

  /**
   * Any run of operations whose report can be believed refines the simple
   * machine: through every retry, refusal and fault, on whichever ports, the
   * target's memory and the open port are at every point what the reports
   * alone say, and every good read the target gave returns what is in that
   * memory at that point.
   */
  lemma {:induction false} RunsRefineTheReports(moods: nat -> Mood, weather: nat -> Weather, kit: Kit, p: Programmer,
                                                ops: seq<Op>)
    requires AlwaysFair(Behind(moods, weather)) && Whole(moods) && InAgreement(p)
    requires forall i :: 0 <= i < |ops| ==> Confirmed(ops[i])
    requires p.link.device.kit == kit
    ensures var e := Behind(moods, weather);
            var (q, reports) := PerformAll(kit, e, p, ops);
            && InAgreement(q) && q == Before(kit, e, p, ops, |ops|)
            && (forall i :: 0 <= i <= |ops| ==>
                  SimpleOf(Before(kit, e, p, ops, i)) == Reported(SimpleOf(p), ops, reports, i))
            && (forall i :: 0 <= i < |ops| ==>
                  ReadTruly(moods, Before(kit, e, p, ops, i), Reported(SimpleOf(p), ops, reports, i),
                            ops[i], reports[i]))
    decreases |ops|
  {
    hide Perform, Effect, NextPort, Confirmed, ReadTruly, InAgreement;
    var e := Behind(moods, weather);
    if ops != [] {
      var d := Perform(kit, e, p, ops[0]);
      var (q, reports) := PerformAll(kit, e, p, ops);
      FirstRefines(moods, weather, kit, p, ops[0]);
      RunsRefineTheReports(moods, weather, kit, d.p, ops[1..]);
      forall i | 0 < i <= |ops|
        ensures Before(kit, e, p, ops, i) == Before(kit, e, d.p, ops[1..], i - 1)
        ensures Reported(SimpleOf(p), ops, reports, i) == Reported(SimpleOf(d.p), ops[1..], reports[1..], i - 1)
      {
      }
    }
  }

  lemma FirstRefines(moods: nat -> Mood, weather: nat -> Weather, kit: Kit, p: Programmer, op: Op)
    requires AlwaysFair(Behind(moods, weather)) && Whole(moods) && InAgreement(p) && Confirmed(op)
    requires p.link.device.kit == kit
    ensures var d := Perform(kit, Behind(moods, weather), p, op);
            && InAgreement(d.p) && d.p.link.device.kit == kit && SimpleOf(d.p) == Stepped(SimpleOf(p), op, d.r)
            && ReadTruly(moods, p, SimpleOf(p), op, Report(d.data, d.r))
  {
    hide Perform;
    assert Speaks(moods);
    PerformAsReported(moods, weather, kit, p, op);
    if Reads(op) && Dependable(moods, p, op) {
      ReadSaysTheMemory(moods, weather, kit, p, op);
    }
  }
}

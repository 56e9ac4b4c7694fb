/** Runs of the original command set in which no transfer fails: the stream stays in step, and memory is memory. */
module OriginalProofs {
  import opened Basics
  import opened Wire
  import opened Command
  import opened Framing
  import opened Requests
  import opened Memory
  import opened OriginalModel
  import opened Retry

  const TAGS: nat := 0x1_0000_0000

  /** Between operations nothing is queued, no data is owed, and the tag counts the operations done. */
  predicate InStep(p: Programmer) {
    && p.link.inbox == []
    && p.link.device.pending.None?
    && p.tag == |p.link.device.done| % TAGS
  }

  /** What a command block is to the firmware. */
  lemma BlockIsUnderstood(moods: nat -> Mood, p: Programmer, direction: Direction, size: nat, r: Request)
    requires p.link.device.pending.None?
    ensures Respond(moods, p.link.device, BlockFor(p, direction, size, r)) ==
            TakeCommand(moods, p.link.device, r, p.tag, size % TAGS)
  {
    hide Header, Padded, Payload, Decode, TakeCommand, ReadU32;
    var block := BlockFor(p, direction, size, r);
    HeaderReadsBack(p.tag, direction, size % TAGS, Payload(r));
    assert block[COMMAND_AT..] == Padded(Payload(r));
    DecodingRecoversTheRequest(r);
  }

  /** The wrapper that is waiting is the one that is discarded, and with it the operation is over. */
  lemma WrapperIsTaken(e: Env<Firmware>, p: Programmer, owner: nat, tag: word)
    requires AlwaysFair(e) && p.link.inbox == [Message(owner, StatusWrapper(tag))]
    ensures var (q, r) := DiscardStatusWrapper(e, p);
            && r == DONE
            && q == Programmer(p.link.(inbox := [], turn := p.link.turn + 1,
                                       heard := p.link.heard + [Message(owner, StatusWrapper(tag))]),
                               (p.tag + 1) % TAGS)
  {
    hide StatusWrapper;
    assert e.weather(p.link.turn).Fair?;
    assert p.link.inbox[1..] == [];
  }

  lemma TagMovesOn(n: nat)
    ensures (n % TAGS + 1) % TAGS == (n + 1) % TAGS
  {
  }

  /** The reply is the first thing waiting, and the wrapper is left behind it. */
  lemma ReplyIsTaken(moods: nat -> Mood, weather: nat -> Weather, p: Programmer, r: Request, reply: seq<byte>)
    requires AlwaysFair(Behind(moods, weather)) && InStep(p)
    requires !IsWrite(r) && 0 < |reply| < TAGS
    ensures var f := p.link.device; var n := |p.link.sent|; var block := BlockFor(p, FromDevice, |reply|, r);
            var answer := Answer(moods(|f.done|), Meanwhile(moods, f), r, |reply|);
            Exchanged(Behind(moods, weather), p.link, block, reply, |reply|, Anything, false, 0) ==
            Outcome(p.link.(device := AfterCommand(moods, f, r), inbox := [Message(n, StatusWrapper(p.tag))],
                            turn := p.link.turn + 2, sent := p.link.sent + [block],
                            heard := p.link.heard + [Message(n, answer)]),
                    Overwrite(reply, answer), Ok(|answer|))
  {
    hide Answer, StatusWrapper, Respond, BlockFor, Attempted, Exchanged, Overwrite, AfterCommand;
    var e := Behind(moods, weather);
    var n := |p.link.sent|;
    var block := BlockFor(p, FromDevice, |reply|, r);
    BlockIsUnderstood(moods, p, FromDevice, |reply|, r);
    FairAttempt(e, p.link, block, reply, |reply|);
    UncheckedIsOneAttempt(e, p.link, block, reply, |reply|);
    assert From(n, [StatusWrapper(p.tag)]) == [Message(n, StatusWrapper(p.tag))];
  }

  /** A command with a reply: what comes back is the answer to it, and the wrapper behind it is its own. */
  lemma AskInStep(moods: nat -> Mood, weather: nat -> Weather, p: Programmer, r: Request, reply: seq<byte>)
    requires AlwaysFair(Behind(moods, weather)) && InStep(p)
    requires !IsWrite(r) && 0 < |reply| < TAGS
    ensures var f := p.link.device; var n := |p.link.sent|;
            var answer := Answer(moods(|f.done|), Meanwhile(moods, f), r, |reply|);
            var a := Ask(Behind(moods, weather), p, r, reply);
            && InStep(a.p) && a.p.link.device == AfterCommand(moods, f, r)
            && a.r == Ok(|answer|) && a.reply == Overwrite(reply, answer)
            && a.p.link.sent == p.link.sent + [BlockFor(p, FromDevice, |reply|, r)]
            && a.p.link.heard == p.link.heard + [Message(n, answer)] + [Message(n, StatusWrapper(p.tag))]
  {
    hide Answer, StatusWrapper, BlockFor, Exchanged, DiscardStatusWrapper, Obeyed, RanOn, ModeAfter;
    var e := Behind(moods, weather);
    ReplyIsTaken(moods, weather, p, r, reply);
    var o := Exchanged(e, p.link, BlockFor(p, FromDevice, |reply|, r), reply, |reply|, Anything, false, 0);
    WrapperIsTaken(e, p.(link := o.link), |p.link.sent|, p.tag);
    TagMovesOn(|p.link.device.done|);
  }

  /** A command without one: there is nothing but the wrapper. */
  lemma TellInStep(moods: nat -> Mood, weather: nat -> Weather, p: Programmer, r: Request)
    requires AlwaysFair(Behind(moods, weather)) && InStep(p) && !IsWrite(r)
    ensures var f := p.link.device; var n := |p.link.sent|;
            var (q, done) := Tell(Behind(moods, weather), p, r);
            && InStep(q) && q.link.device == AfterCommand(moods, f, r) && done == DONE
            && q.link.sent == p.link.sent + [BlockFor(p, FromDevice, 0, r)]
            && q.link.heard == p.link.heard + [Message(n, StatusWrapper(p.tag))]
  {
    hide StatusWrapper, Respond, Obeyed, RanOn, ModeAfter;
    var e := Behind(moods, weather);
    var block := BlockFor(p, FromDevice, 0, r);
    BlockIsUnderstood(moods, p, FromDevice, 0, r);
    FairSend(Behind(moods, weather), p.link, block);
    assert From(|p.link.sent|, [StatusWrapper(p.tag)]) == [Message(|p.link.sent|, StatusWrapper(p.tag))];
    hide BlockFor, Send, DiscardStatusWrapper;
    WrapperIsTaken(e, p.(link := SendBlock(e, p.link, block).0), |p.link.sent|, p.tag);
    TagMovesOn(|p.link.device.done|);
  }

  /** A write: nothing comes back before the data has gone, and the wrapper is for the data. */
  lemma PushInStep(moods: nat -> Mood, weather: nat -> Weather, p: Programmer, r: Request, data: seq<byte>)
    requires AlwaysFair(Behind(moods, weather)) && InStep(p)
    requires IsWrite(r) && r.length == |data|
    ensures var f := p.link.device; var n := |p.link.sent|;
            var (q, done) := Push(Behind(moods, weather), p, r, data);
            && InStep(q) && done == DONE
            && q.link.device == AfterData(moods, f, r, data)
            && q.link.sent == p.link.sent + [BlockFor(p, ToDevice, 0, r)] + [data]
            && q.link.heard == p.link.heard + [Message(n + 1, StatusWrapper(p.tag))]
  {
    hide StatusWrapper, Written, BlockFor, Send, SendBlock, DiscardStatusWrapper, Respond, RanOn;
    var e := Behind(moods, weather);
    var n := |p.link.sent|;
    var block := BlockFor(p, ToDevice, 0, r);
    AnnouncementIsTaken(moods, weather, p, r);
    var announced := SendBlock(e, p.link, block).0;
    DataIsTaken(moods, announced.device, data);
    FairSend(Behind(moods, weather), announced, data);
    assert From(n + 1, [StatusWrapper(p.tag)]) == [Message(n + 1, StatusWrapper(p.tag))];
    WrapperIsTaken(e, p.(link := Send(e, announced, data).0), n + 1, p.tag);
    TagMovesOn(|p.link.device.done|);
  }

  lemma DataIsTaken(moods: nat -> Mood, f: Firmware, data: seq<byte>)
    requires f.pending.Some?
    ensures Respond(moods, f, data) == TakeData(moods, f, data)
  {
  }

  lemma AnnouncementIsTaken(moods: nat -> Mood, weather: nat -> Weather, p: Programmer, r: Request)
    requires AlwaysFair(Behind(moods, weather)) && InStep(p) && IsWrite(r)
    ensures var block := BlockFor(p, ToDevice, 0, r);
            SendBlock(Behind(moods, weather), p.link, block) ==
            (p.link.(device := p.link.device.(pending := Some(Pending(r, p.tag))), turn := p.link.turn + 1,
                     sent := p.link.sent + [block]), DONE)
  {
    hide Respond;
    BlockIsUnderstood(moods, p, ToDevice, 0, r);
    FairSend(Behind(moods, weather), p.link, BlockFor(p, ToDevice, 0, r));
    assert From(|p.link.sent|, []) == [];
    hide BlockFor, Send;
  }

  // ---- When a transfer fails -------------------------------------------

  lemma WrapperOrNot(e: Env<Firmware>, p: Programmer)
    ensures var (q, r) := DiscardStatusWrapper(e, p);
            && (r == DONE || r == Err(IO))
            && q.tag == if r == DONE then (p.tag + 1) % TAGS else p.tag
  {
  }

  lemma AskOrNot(e: Env<Firmware>, p: Programmer, r: Request, reply: seq<byte>)
    requires reply != []
    ensures var a := Ask(e, p, r, reply);
            && (a.r.Err? ==> a.r.code == IO)
            && a.p.tag == if a.r.Ok? then (p.tag + 1) % TAGS else p.tag
  {
    hide BlockFor, DiscardStatusWrapper, Attempted, Exchanged;
    var block := BlockFor(p, FromDevice, |reply|, r);
    UncheckedIsOneAttempt(e, p.link, block, reply, |reply|);
    OneAttempt(e, p.link, block, reply, |reply|);
    WrapperOrNot(e, p.(link := Exchanged(e, p.link, block, reply, |reply|, Anything, false, 0).link));
  }

  /**
   * Whatever becomes of the transfers, the tag moves on exactly if none of an
   * operation's failed, its wrapper's last of all.
   */
  lemma TagMovesUnlessATransferFails(e: Env<Firmware>, p: Programmer, op: Op)
    ensures var o := Perform(e, p, op);
            o.p.tag == if IsSent(op) && o.r != Err(IO) then (p.tag + 1) % TAGS else p.tag
  {
    var plan := PlanOf(op);
    SettledExactlyUnsent(op);
    hide PlanOf, IsSent, BlockFor, Ask, DiscardStatusWrapper, SendBlock, Send;
    match plan {
      case Settled(_) =>
      case Asks(request, size) => AskOrNot(e, p, request, Zeros(size));
      case Tells(request) =>
        var link := SendBlock(e, p.link, BlockFor(p, FromDevice, 0, request)).0;
        SendingFailsExactly(e, p.link, BlockFor(p, FromDevice, 0, request));
        WrapperOrNot(e, p.(link := link));
      case Pushes(request, data) =>
        var link := SendBlock(e, p.link, BlockFor(p, ToDevice, 0, request)).0;
        SendingFailsExactly(e, p.link, BlockFor(p, ToDevice, 0, request));
        WrapperOrNot(e, p.(link := Send(e, link, data).0));
    }
  }

  /** A write whose data is taken only in part has failed, though a command taken in part has not. */
  lemma PartialDataFails(e: Env<Firmware>, p: Programmer, r: Request, data: seq<byte>)
    requires !e.weather(p.link.turn).Fails?
    requires e.weather(p.link.turn + 1).Fails? || Taken(e.weather(p.link.turn + 1), |data|) < |data|
    ensures Push(e, p, r, data).1 == Err(IO)
  {
    hide BlockFor;
  }

  // ---- Any operation ---------------------------------------------------

  /** Whether an operation gets as far as the wire, by what the command set has and how much one command carries. */
  predicate IsSent(op: Op) {
    match op
    case EnterDebug(jtag) => !jtag
    case SelectAccessPort(_) => false
    case ResetPin(_) => false
    case SetClock(_) => false
    case Trace => false
    case Read(address, size, nowhere) => size > 0 && !nowhere && address % 4 == 0 && size % 4 == 0 && size <= 6144
    case Write(address, data, nowhere) =>
      data != [] && !nowhere && |data| <= if address % 4 == 0 && |data| % 4 == 0 then 6144 else 64
    case _ => true
  }

  /** What is said of one that does not: having nothing to do is no failure. */
  function Unsent(op: Op): VoidResult {
    if (op.Read? && op.size == 0) || (op.Write? && op.data == []) then DONE
    else if op.Read? || op.Write? then Err(InvalidArgument)
    else Err(NotSupported)
  }

  lemma SettledExactlyUnsent(op: Op)
    ensures PlanOf(op).Settled? <==> !IsSent(op)
    ensures !IsSent(op) ==> PlanOf(op) == Settled(Unsent(op))
  {
  }

  /** How much of a reply an operation asks for. */
  function ReplySize(op: Op): nat {
    match op
    case Mode => 2
    case Voltage => 8
    case CoreId => 4
    case State => 2
    case Halt => 2
    case Run(_) => 2
    case Step => 2
    case Reset => 2
    case Read(_, size, _) => size
    case ReadCore(_) => 4
    case WriteCore(_, _) => 2
    case ReadAllCore => 84
    case _ => 0
  }

  /** The commands a run puts to the firmware: those of the operations that are not settled before that. */
  function Requested(ops: seq<Op>): seq<Request> {
    if ops == [] then []
    else
      var plan := PlanOf(ops[0]);
      (if plan.Settled? then [] else [plan.request]) + Requested(ops[1..])
  }

  /** How many of a run's operations get as far as the wire. */
  function Sent(ops: seq<Op>): nat {
    if ops == [] then 0 else (if IsSent(ops[0]) then 1 else 0) + Sent(ops[1..])
  }

  /** All that was heard between two moments was in answer to something sent between them. */
  predicate OwnAnswers(l: Link<Firmware>, k: Link<Firmware>) {
    && |l.heard| <= |k.heard| && k.heard[..|l.heard|] == l.heard
    && |l.sent| <= |k.sent| && k.sent[..|l.sent|] == l.sent
    && forall i :: |l.heard| <= i < |k.heard| ==> |l.sent| <= k.heard[i].owner < |k.sent|
  }

  /**
   * One operation, whatever it is: settled without a word, or carried out by
   * exactly one command whose tag is the number of operations before it, with
   * every message taken its own and the last of them its own status wrapper.
   */
  lemma PerformInStep(moods: nat -> Mood, weather: nat -> Weather, p: Programmer, op: Op)
    requires AlwaysFair(Behind(moods, weather)) && InStep(p)
    ensures var o := Perform(Behind(moods, weather), p, op);
            && InStep(o.p) && OwnAnswers(p.link, o.p.link)
            && o.p.link.device.done == p.link.device.done + Requested([op])
            && |Requested([op])| == (if IsSent(op) then 1 else 0)
            && (!IsSent(op) ==> o == Outcome1(p, [], 0, Unsent(op)))
            && (IsSent(op) ==>
                  && |o.p.link.sent| > |p.link.sent| && |o.p.link.heard| > |p.link.heard|
                  && o.p.link.heard[|o.p.link.heard| - 1].bytes == StatusWrapper(p.tag)
                  && o.p.link.sent[|p.link.sent|] ==
                     BlockFor(p, if op.Write? then ToDevice else FromDevice, ReplySize(op), Requested([op])[0]))
  {
    var plan := PlanOf(op);
    SettledExactlyUnsent(op);
    PlanFits(op);
    hide PlanOf, BlockFor, StatusWrapper, Ask, Tell, Push, Answer, Written, IsSent, ReplySize, AfterCommand;
    assert Requested([op]) == if plan.Settled? then [] else [plan.request];
    match plan {
      case Settled(_) => assert p.link.device.done + [] == p.link.device.done;
      case Asks(request, size) =>
        AskInStep(moods, weather, p, request, Zeros(size));
        CommandIsDone(moods, p.link.device, request);
      case Tells(request) =>
        TellInStep(moods, weather, p, request);
        CommandIsDone(moods, p.link.device, request);
      case Pushes(request, data) => PushInStep(moods, weather, p, request, data);
    }
  }

  lemma CommandIsDone(moods: nat -> Mood, f: Firmware, r: Request)
    ensures AfterCommand(moods, f, r).done == f.done + [r] && AfterCommand(moods, f, r).memory == f.memory
  {
  }

  lemma PlanFits(op: Op)
    ensures var plan := PlanOf(op);
            && (plan.Asks? ==> plan.size == ReplySize(op))
            && (plan.Tells? || plan.Pushes? ==> ReplySize(op) == 0)
            && (plan.Pushes? <==> op.Write? && IsSent(op))
  {
  }

  lemma RequestedSplits(op: Op, rest: seq<Op>)
    ensures Requested([op] + rest) == Requested([op]) + Requested(rest)
  {
    assert ([op] + rest)[1..] == rest;
    assert [op][1..] == [];
  }

  /**
   * Any run, refusals and short replies included: it ends with nothing queued,
   * having taken nothing but its own answers, with the firmware having done
   * exactly what was asked of it in the order it was asked, and the tag
   * counting it.
   */
  lemma {:induction false} RunsStayInStep(moods: nat -> Mood, weather: nat -> Weather, p: Programmer, ops: seq<Op>)
    requires AlwaysFair(Behind(moods, weather)) && InStep(p)
    ensures var q := PerformAll(Behind(moods, weather), p, ops);
            && InStep(q) && OwnAnswers(p.link, q.link)
            && q.link.device.done == p.link.device.done + Requested(ops) && |Requested(ops)| == Sent(ops)
    decreases |ops|
  {
    hide InStep, Requested, Perform, PlanOf, OwnAnswers, IsSent;
    if ops == [] {
      NothingRequested(p.link);
    } else {
      var next := Perform(Behind(moods, weather), p, ops[0]).p;
      PerformInStep(moods, weather, p, ops[0]);
      RunsStayInStep(moods, weather, next, ops[1..]);
      OwnAnswersOfBoth(p.link, next.link, PerformAll(Behind(moods, weather), next, ops[1..]).link);
      assert [ops[0]] + ops[1..] == ops;
      RequestedSplits(ops[0], ops[1..]);
    }
  }

  lemma NothingRequested(l: Link<Firmware>)
    ensures Requested([]) == [] && OwnAnswers(l, l)
  {
  }

  lemma OwnAnswersOfBoth(l: Link<Firmware>, k: Link<Firmware>, m: Link<Firmware>)
    requires OwnAnswers(l, k) && OwnAnswers(k, m)
    ensures OwnAnswers(l, m)
  {
    forall i | |l.heard| <= i < |m.heard| ensures |l.sent| <= m.heard[i].owner < |m.sent| {
      if i < |k.heard| {
        assert m.heard[i] == m.heard[..|k.heard|][i] == k.heard[i];
      }
    }
  }

  lemma {:induction false} RequestsAreOnPortZero(ops: seq<Op>)
    ensures forall i :: 0 <= i < |Requested(ops)| && AccessesMemory(Requested(ops)[i]) ==> Requested(ops)[i].port == 0
  {
    if ops != [] {
      RequestsAreOnPortZero(ops[1..]);
    }
  }

  /** Whatever is asked in a run, it is asked of port zero: the original command set names no other. */
  lemma EverythingIsOnPortZero(moods: nat -> Mood, weather: nat -> Weather, p: Programmer, ops: seq<Op>)
    requires AlwaysFair(Behind(moods, weather)) && InStep(p)
    ensures var n, done := |p.link.device.done|, PerformAll(Behind(moods, weather), p, ops).link.device.done;
            forall i :: n <= i < |done| && AccessesMemory(done[i]) ==> done[i].port == 0
  {
    hide PerformAll, InStep;
    RunsStayInStep(moods, weather, p, ops);
    RequestsAreOnPortZero(ops);
  }

  /** How many operations a run completes. */
  lemma TagCountsTheOperations(moods: nat -> Mood, weather: nat -> Weather, p: Programmer, ops: seq<Op>)
    requires AlwaysFair(Behind(moods, weather)) && InStep(p) && p.link.device.done == []
    ensures PerformAll(Behind(moods, weather), p, ops).tag == Sent(ops) % TAGS
  {
    RunsStayInStep(moods, weather, p, ops);
  }
}

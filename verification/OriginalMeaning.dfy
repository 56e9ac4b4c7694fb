/** What the operations of the original command set do to the target, and what they say of it. */
module OriginalMeaning {
  import opened Basics
  import opened Wire
  import opened Command
  import opened Framing
  import opened Requests
  import opened Memory
  import opened OriginalModel
  import opened OriginalProofs

  // ---- One operation ---------------------------------------------------

  /** Nothing has happened to the core but the passing of time. */
  predicate KeepsGoing(c: Core, d: Core) {
    if c.halted then d == c else !d.halted && d.executed >= c.executed && d.resets == c.resets
  }

  /** What each operation is for: what a core is after it, if the target gave it. */
  predicate Obeys(c: Core, op: Op, d: Core) {
    match op
    case Halt => d.halted && (if c.halted then d == c else d.executed >= c.executed && d.resets == c.resets)
    case Run(_) => !d.halted && if c.halted then d == c.(halted := false) else KeepsGoing(c, d)
    case Step =>
      if c.halted then d.halted && d.executed == c.executed + 1 && d.resets == c.resets else KeepsGoing(c, d)
    case Reset => d.executed == 0 && d.resets == c.resets + 1
    case WriteCore(index, value) =>
      if c.halted then d == c.(registers := c.registers[index := value]) else KeepsGoing(c, d)
    case _ => KeepsGoing(c, d)
  }

  /** And what it makes of memory. */
  function Effect(memory: Bytes, op: Op): Bytes {
    if op.Write? then Store(memory, 0, op.address, op.data) else memory
  }

  /** And of the mode the programmer is in: firmware update, mass storage, or debugging. */
  function ModeOnceDone(mode: byte, op: Op): byte {
    match op
    case EnterDebug(_) => 2
    case LeaveDebug => 1
    case ExitDfuMode => 1
    case _ => mode
  }

  /** What a reply that is whole says: of a core that is running, no more than that it is. */
  predicate Says(f: Firmware, op: Op, reply: seq<byte>) {
    match op
    case Mode => reply == [f.mode, 0]
    case Voltage => reply == U32(f.board.reference) + U32(f.board.measured)
    case CoreId => reply == U32(f.board.coreId)
    case State => reply == [if f.core.halted then 0x81 else 0x80, 0]
    case Read(address, size, _) => reply == Fetch(f.memory, 0, address, size)
    case ReadCore(index) => f.core.halted ==> reply == U32(RegisterOf(f.core, index))
    case ReadAllCore =>
      f.core.halted ==> |reply| == 84 && forall i :: 0 <= i < 21 ==> RegisterAt(reply, i) == U32(RegisterOf(f.core, i))
    case _ => true
  }

  function RegisterAt(reply: seq<byte>, i: nat): seq<byte>
    requires 4 * i + 4 <= |reply|
  {
    reply[4 * i..4 * i + 4]
  }

  lemma {:induction false} RegistersComeInOrder(c: Core, n: nat)
    requires n <= REGISTERS
    ensures forall i :: 0 <= i < n ==> RegisterAt(AllRegisters(c, n), i) == U32(RegisterOf(c, i))
  {
    hide U32, RegisterOf;
    if n > 0 {
      RegistersComeInOrder(c, n - 1);
      var front, last := AllRegisters(c, n - 1), U32(RegisterOf(c, n - 1));
      forall i | 0 <= i < n - 1 ensures RegisterAt(front + last, i) == RegisterAt(front, i) {
      }
      assert RegisterAt(front + last, n - 1) == last;
    }
  }

  lemma OrdersMean(moods: nat -> Mood, f: Firmware, op: Op)
    requires IsSent(op) && !op.Write?
    ensures var mood := moods(|f.done|); var g := AfterCommand(moods, f, PlanOf(op).request);
            && g.memory == f.memory && g.board == f.board && g.mode == ModeOnceDone(f.mode, op)
            && (if mood.faults then KeepsGoing(f.core, g.core) else Obeys(f.core, op, g.core))
  {
  }

  lemma AnswersMean(mood: Mood, f: Firmware, op: Op)
    requires IsSent(op) && !op.Write? && !mood.faults && PlanOf(op).Asks?
    ensures Says(f, op, WholeAnswer(mood, f, PlanOf(op).request, ReplySize(op)))
  {
    RegistersComeInOrder(f.core, REGISTERS);
    hide U32, RegisterAt, RegisterOf, AllRegisters, Fetch;
    var whole := WholeAnswer(mood, f, PlanOf(op).request, ReplySize(op));
    match op {
      case Read(address, size, _) => assert whole == Fetch(f.memory, 0, address, size);
      case ReadAllCore => assert f.core.halted ==> whole == AllRegisters(f.core, REGISTERS);
      case ReadCore(index) => assert f.core.halted ==> whole == U32(RegisterOf(f.core, index));
      case CoreId => assert whole == U32(f.board.coreId);
      case Voltage => assert whole == U32(f.board.reference) + U32(f.board.measured);
      case _ =>
    }
  }

  /** Everything an operation that reaches the firmware comes to. */
  ghost predicate Means(mood: Mood, f: Firmware, op: Op, o: Outcome1) {
    var g, size := o.p.link.device, ReplySize(op);
    && g.board == f.board && g.mode == ModeOnceDone(f.mode, op)
    && (if mood.faults then KeepsGoing(f.core, g.core) && g.memory == f.memory
        else Obeys(f.core, op, g.core) && g.memory == Effect(f.memory, op))
    && |o.reply| == size && o.arrived == Min(mood.cut, size)
    && (!mood.faults && mood.cut >= size ==> Says(f.(core := g.core), op, o.reply))
    && o.r == if op.Read? && mood.cut < size then Err(Protocol) else DONE
  }

  lemma AskMeans(moods: nat -> Mood, weather: nat -> Weather, p: Programmer, op: Op)
    requires AlwaysFair(Behind(moods, weather)) && InStep(p) && IsSent(op) && PlanOf(op).Asks?
    ensures Means(moods(|p.link.device.done|), p.link.device, op, Perform(Behind(moods, weather), p, op))
  {
    var f, request, size := p.link.device, PlanOf(op).request, ReplySize(op);
    PlanFits(op);
    AskedReadsMemory(op);
    OrdersMean(moods, f, op);
    WholeReplySays(moods, f, op);
    hide PlanOf, IsSent, Obeys, Says, KeepsGoing, ModeOnceDone, ReplySize;
    AskInStep(moods, weather, p, request, Zeros(size));
    hide Ask, AfterCommand, InStep, WholeAnswer, Filled, Meanwhile;
  }

  lemma AskedReadsMemory(op: Op)
    requires PlanOf(op).Asks?
    ensures (PlanOf(op).request.ReadMemory? <==> op.Read?) && !op.Write?
  {
  }

  /** The whole of a reply, whether or not it gets through. */
  lemma WholeReplySays(moods: nat -> Mood, f: Firmware, op: Op)
    requires IsSent(op) && PlanOf(op).Asks?
    ensures var request, size, mood := PlanOf(op).request, ReplySize(op), moods(|f.done|);
            var whole := WholeAnswer(mood, Meanwhile(moods, f), request, size);
            && Overwrite(Zeros(size), whole[..size]) == whole
            && (!mood.faults ==> Says(f.(core := AfterCommand(moods, f, request).core), op, whole))
  {
    if !moods(|f.done|).faults {
      AnswersMean(moods(|f.done|), Meanwhile(moods, f), op);
      hide WholeAnswer;
      SaysOfTheSameCore(moods, f, op, WholeAnswer(moods(|f.done|), Meanwhile(moods, f), PlanOf(op).request,
                                                  ReplySize(op)));
    }
  }

  /** A command with a reply to it leaves the core as the reply found it, so far as the reply tells. */
  lemma SaysOfTheSameCore(moods: nat -> Mood, f: Firmware, op: Op, reply: seq<byte>)
    requires IsSent(op) && PlanOf(op).Asks? && Says(Meanwhile(moods, f), op, reply)
    ensures Says(f.(core := AfterCommand(moods, f, PlanOf(op).request).core), op, reply)
  {
    hide RegisterAt, RegisterOf, U32, Fetch;
  }

  /**
   * One operation by the original command set, whatever the target's mood: if
   * the target gave it, exactly what it is for has been done; if it did not,
   * nothing has. Only a read of memory that came up short is reported.
   */
  lemma PerformMeans(moods: nat -> Mood, weather: nat -> Weather, p: Programmer, op: Op)
    requires AlwaysFair(Behind(moods, weather)) && InStep(p) && IsSent(op)
    ensures Means(moods(|p.link.device.done|), p.link.device, op, Perform(Behind(moods, weather), p, op))
  {
    var f, plan := p.link.device, PlanOf(op);
    PlanFits(op);
    SettledExactlyUnsent(op);
    if plan.Asks? {
      AskMeans(moods, weather, p, op);
    } else if plan.Tells? {
      TellInStep(moods, weather, p, plan.request);
      OrdersMean(moods, f, op);
      hide Tell, Obeys, AfterCommand, KeepsGoing, InStep, ModeOnceDone;
    } else {
      PushInStep(moods, weather, p, plan.request, plan.data);
      PushMeans(moods, f, op);
      hide Push, Obeys, KeepsGoing, InStep, AfterData, Store;
    }
  }

  lemma PushMeans(moods: nat -> Mood, f: Firmware, op: Op)
    requires IsSent(op) && op.Write? && PlanOf(op).Pushes?
    ensures var g := AfterData(moods, f, PlanOf(op).request, op.data); var mood := moods(|f.done|);
            && g.board == f.board && g.mode == f.mode
            && KeepsGoing(f.core, g.core) && Obeys(f.core, op, g.core)
            && g.memory == (if mood.faults then f.memory else Store(f.memory, 0, op.address, op.data))
  {
  }

  // ---- Any run ---------------------------------------------------------

  /** The programmer before operation `n` of a run. */
  function Before(e: Env<Firmware>, p: Programmer, ops: seq<Op>, n: nat): Programmer
    requires n <= |ops|
    decreases n
  {
    if n == 0 then p else Before(e, Perform(e, p, ops[0]).p, ops[1..], n - 1)
  }

  /** What is true of an operation wherever it comes in a run. */
  ghost predicate TurnsOut(moods: nat -> Mood, e: Env<Firmware>, q: Programmer, op: Op) {
    && InStep(q)
    && if IsSent(op) then Means(moods(|q.link.device.done|), q.link.device, op, Perform(e, q, op))
       else Perform(e, q, op) == Outcome1(q, [], 0, Unsent(op))
  }

  lemma OneTurnsOut(moods: nat -> Mood, weather: nat -> Weather, p: Programmer, op: Op)
    requires AlwaysFair(Behind(moods, weather)) && InStep(p)
    ensures TurnsOut(moods, Behind(moods, weather), p, op)
    ensures InStep(Perform(Behind(moods, weather), p, op).p)
  {
    hide Means, IsSent, InStep, Perform, Requested, OwnAnswers;
    PerformInStep(moods, weather, p, op);
    if IsSent(op) {
      PerformMeans(moods, weather, p, op);
    }
  }

  /** Over any run of any operations, each is settled unsent or comes to exactly what it is for. */
  lemma {:induction false} RunsMean(moods: nat -> Mood, weather: nat -> Weather, p: Programmer, ops: seq<Op>)
    requires AlwaysFair(Behind(moods, weather)) && InStep(p)
    ensures var e := Behind(moods, weather);
            && PerformAll(e, p, ops) == Before(e, p, ops, |ops|)
            && forall i :: 0 <= i < |ops| ==> TurnsOut(moods, e, Before(e, p, ops, i), ops[i])
    decreases |ops|
  {
    hide TurnsOut, Perform, InStep;
    if ops != [] {
      var e := Behind(moods, weather);
      OneTurnsOut(moods, weather, p, ops[0]);
      RunsMean(moods, weather, Perform(e, p, ops[0]).p, ops[1..]);
      forall i | 0 < i < |ops|
        ensures TurnsOut(moods, e, Before(e, p, ops, i), ops[i])
      {
        assert Before(e, p, ops, i) == Before(e, Perform(e, p, ops[0]).p, ops[1..], i - 1);
      }
    }
  }

  // ---- The core over a run ---------------------------------------------

  /** From a command on, the target gives every access. */
  ghost predicate Gives(moods: nat -> Mood, from: nat) {
    forall i: nat :: i >= from ==> !moods(i).faults
  }

  /** Whether the core is held after a run: the last order to halt or to run decides. */
  function HeldAfter(ops: seq<Op>, held: bool): bool {
    if ops == [] then held
    else HeldAfter(ops[1..], if ops[0].Halt? then true else if ops[0].Run? then false else held)
  }

  /** How many of a run's steps are of a core that is held. */
  function StepsTaken(ops: seq<Op>, held: bool): nat {
    if ops == [] then 0
    else
      (if ops[0].Step? && held then 1 else 0)
      + StepsTaken(ops[1..], if ops[0].Halt? then true else if ops[0].Run? then false else held)
  }

  /** What a run puts in the registers of a core that is held throughout. */
  function RegistersAfter(registers: map<byte, word>, ops: seq<Op>): map<byte, word>
    decreases |ops|
  {
    if ops == [] then registers
    else
      RegistersAfter(if ops[0].WriteCore? then registers[ops[0].index := ops[0].value] else registers, ops[1..])
  }

  lemma CoreAfterOne(moods: nat -> Mood, weather: nat -> Weather, p: Programmer, op: Op)
    requires AlwaysFair(Behind(moods, weather)) && InStep(p) && Gives(moods, |p.link.device.done|)
    ensures var q := Perform(Behind(moods, weather), p, op).p;
            && InStep(q) && |q.link.device.done| >= |p.link.device.done|
            && (IsSent(op) ==> Obeys(p.link.device.core, op, q.link.device.core))
            && (!IsSent(op) ==> q.link.device.core == p.link.device.core)
            && (IsSent(op) && op.ReadCore? && p.link.device.core.halted && moods(|p.link.device.done|).cut >= 4 ==>
                  Perform(Behind(moods, weather), p, op).reply == U32(RegisterOf(p.link.device.core, op.index)))
  {
    hide IsSent, InStep, Perform, Requested, OwnAnswers, Obeys, U32, RegisterOf;
    PerformInStep(moods, weather, p, op);
    OneTurnsOut(moods, weather, p, op);
    assert !moods(|p.link.device.done|).faults;
    if IsSent(op) && op.ReadCore? && p.link.device.core.halted {
      assert Obeys(p.link.device.core, op, Perform(Behind(moods, weather), p, op).p.link.device.core);
      ReadingKeepsTheCore(p.link.device.core, op, Perform(Behind(moods, weather), p, op).p.link.device.core);
    }
  }

  lemma ReadingKeepsTheCore(c: Core, op: Op, d: Core)
    requires op.ReadCore? && c.halted && Obeys(c, op, d)
    ensures d == c
  {
  }

  /**
   * Over any run to which the target gives its accesses, resets apart: the
   * core is held exactly as the last order to halt or to run left it, and it
   * has never been reset.
   */
  lemma {:induction false} LastOrderDecides(moods: nat -> Mood, weather: nat -> Weather, p: Programmer, ops: seq<Op>)
    requires AlwaysFair(Behind(moods, weather)) && InStep(p) && Gives(moods, |p.link.device.done|)
    requires forall i :: 0 <= i < |ops| ==> !ops[i].Reset?
    ensures var c, d := p.link.device.core, PerformAll(Behind(moods, weather), p, ops).link.device.core;
            d.halted == HeldAfter(ops, c.halted) && d.resets == c.resets
    decreases |ops|
  {
    if ops != [] {
      CoreAfterOne(moods, weather, p, ops[0]);
      hide InStep, Perform;
      LastOrderDecides(moods, weather, Perform(Behind(moods, weather), p, ops[0]).p, ops[1..]);
    }
  }

  /** And a core that is held throughout has executed one instruction for each step, and none besides. */
  lemma {:induction false} SteppingCounts(moods: nat -> Mood, weather: nat -> Weather, p: Programmer, ops: seq<Op>)
    requires AlwaysFair(Behind(moods, weather)) && InStep(p) && Gives(moods, |p.link.device.done|)
    requires p.link.device.core.halted && forall i :: 0 <= i < |ops| ==> !ops[i].Reset? && !ops[i].Run?
    ensures var c, d := p.link.device.core, PerformAll(Behind(moods, weather), p, ops).link.device.core;
            d.halted && d.executed == c.executed + StepsTaken(ops, true)
    decreases |ops|
  {
    if ops != [] {
      CoreAfterOne(moods, weather, p, ops[0]);
      hide InStep, Perform;
      SteppingCounts(moods, weather, Perform(Behind(moods, weather), p, ops[0]).p, ops[1..]);
    }
  }

  predicate LeavesRegisters(op: Op) {
    !op.Reset? && !op.Run? && !op.Step?
  }

  /** One that is not stepped either is, register for register, what was written to it, in order. */
  lemma {:induction false} RegistersAreWhatWasWritten(moods: nat -> Mood, weather: nat -> Weather, p: Programmer,
                                                      ops: seq<Op>)
    requires AlwaysFair(Behind(moods, weather)) && InStep(p) && Gives(moods, |p.link.device.done|)
    requires p.link.device.core.halted && forall i :: 0 <= i < |ops| ==> LeavesRegisters(ops[i])
    ensures var c, q := p.link.device.core, PerformAll(Behind(moods, weather), p, ops);
            && q.link.device.core == c.(registers := RegistersAfter(c.registers, ops))
            && InStep(q) && |q.link.device.done| >= |p.link.device.done|
    decreases |ops|
  {
    if ops != [] {
      CoreAfterOne(moods, weather, p, ops[0]);
      assert LeavesRegisters(ops[0]);
      hide InStep, Perform;
      RegistersAreWhatWasWritten(moods, weather, Perform(Behind(moods, weather), p, ops[0]).p, ops[1..]);
    }
  }

  lemma {:induction false} OthersLeaveIt(registers: map<byte, word>, ops: seq<Op>, index: byte)
    requires index in registers
    requires forall i :: 0 <= i < |ops| && ops[i].WriteCore? ==> ops[i].index != index
    ensures var after := RegistersAfter(registers, ops); index in after && after[index] == registers[index]
    decreases |ops|
  {
    if ops != [] {
      OthersLeaveIt(if ops[0].WriteCore? then registers[ops[0].index := ops[0].value] else registers, ops[1..], index);
    }
  }

  /** A register written is what is read back, whatever is done in between that leaves it alone. */
  lemma WrittenRegisterReadsBack(moods: nat -> Mood, weather: nat -> Weather, p: Programmer, index: byte, value: word,
                                 between: seq<Op>)
    requires AlwaysFair(Behind(moods, weather)) && InStep(p) && Gives(moods, |p.link.device.done|)
    requires forall i :: moods(i).cut >= 4
    requires p.link.device.core.halted && forall i :: 0 <= i < |between| ==> LeavesRegisters(between[i])
    requires forall i :: 0 <= i < |between| && between[i].WriteCore? ==> between[i].index != index
    ensures var e := Behind(moods, weather);
            var q := PerformAll(e, Perform(e, p, WriteCore(index, value)).p, between);
            Perform(e, q, ReadCore(index)).reply == U32(value)
  {
    var e := Behind(moods, weather);
    var written := Perform(e, p, WriteCore(index, value)).p;
    hide InStep, Perform, U32, PerformAll, RegistersAfter;
    CoreAfterOne(moods, weather, p, WriteCore(index, value));
    assert written.link.device.core.registers[index] == value;
    RegistersAreWhatWasWritten(moods, weather, written, between);
    OthersLeaveIt(written.link.device.core.registers, between, index);
    var q := PerformAll(e, written, between);
    assert RegisterOf(q.link.device.core, index) == value;
    CoreAfterOne(moods, weather, q, ReadCore(index));
  }

  // ---- Memory ----------------------------------------------------------

  /** What a run makes of memory, if its first operation is the `n`th to reach the firmware. */
  function EffectOfAll(moods: nat -> Mood, n: nat, memory: Bytes, ops: seq<Op>): Bytes
    decreases |ops|
  {
    if ops == [] then memory
    else if !IsSent(ops[0]) then EffectOfAll(moods, n, memory, ops[1..])
    else EffectOfAll(moods, n + 1, if moods(n).faults then memory else Effect(memory, ops[0]), ops[1..])
  }

  /** The target's memory after any run is what the writes it took make of it, in order. */
  lemma {:induction false} MemoryIsWhatWasWritten(moods: nat -> Mood, weather: nat -> Weather, p: Programmer,
                                                  ops: seq<Op>)
    requires AlwaysFair(Behind(moods, weather)) && InStep(p)
    ensures PerformAll(Behind(moods, weather), p, ops).link.device.memory ==
            EffectOfAll(moods, |p.link.device.done|, p.link.device.memory, ops)
    decreases |ops|
  {
    hide InStep, Requested, Perform, Effect, IsSent, OwnAnswers, Says, Obeys, KeepsGoing;
    if ops != [] {
      OneTurnsOut(moods, weather, p, ops[0]);
      PerformInStep(moods, weather, p, ops[0]);
      MemoryIsWhatWasWritten(moods, weather, Perform(Behind(moods, weather), p, ops[0]).p, ops[1..]);
    }
  }

  /**
   * A read that gets as far as the wire succeeds exactly when the reply is
   * whole; and what it then returns is what is in memory, so long as the
   * target gave the access, which nothing in this command set would say.
   */
  lemma ReadReturnsMemory(moods: nat -> Mood, weather: nat -> Weather, p: Programmer, address: word, size: nat)
    requires AlwaysFair(Behind(moods, weather)) && InStep(p)
    requires 0 < size <= 6144 && address % 4 == 0 && size % 4 == 0
    ensures var o := Perform(Behind(moods, weather), p, Read(address, size, false));
            var f := p.link.device; var mood := moods(|f.done|);
            && (o.r.Ok? <==> mood.cut >= size) && (o.r.Ok? ==> o.r == DONE)
            && (o.r.Ok? && !mood.faults ==> o.reply == Fetch(f.memory, 0, address, size))
            && o.p.link.device.memory == f.memory
  {
    hide Perform, InStep;
    PerformMeans(moods, weather, p, Read(address, size, false));
  }

  /**
   * A write always reports success, whether or not the target took it. What is
   * words goes by the command for words and anything else by the one for
   * bytes, so that it is taken whenever the target gives the access.
   */
  lemma WriteIsNeverConfirmed(moods: nat -> Mood, weather: nat -> Weather, p: Programmer, address: word,
                              data: seq<byte>)
    requires AlwaysFair(Behind(moods, weather)) && InStep(p)
    requires data != [] && |data| <= if address % 4 == 0 && |data| % 4 == 0 then 6144 else 64
    ensures var o := Perform(Behind(moods, weather), p, Write(address, data, false));
            var f := p.link.device;
            && o.r == DONE
            && o.p.link.device.memory ==
               (if moods(|f.done|).faults then f.memory else Store(f.memory, 0, address, data))
            && o.p.link.device.done ==
               f.done + [if address % 4 == 0 && |data| % 4 == 0 then WriteWords(address, |data|, 0)
                         else WriteBytes(address, |data|, 0)]
  {
    var op := Write(address, data, false);
    PerformMeans(moods, weather, p, op);
    PerformInStep(moods, weather, p, op);
    assert [op][1..] == [];
    hide Perform, InStep, OwnAnswers, Store;
  }

  /** Words written and read back are the words written, if the target gave the two accesses and the reply was whole. */
  lemma WrittenIsReadBack(moods: nat -> Mood, weather: nat -> Weather, p: Programmer, address: word, data: seq<byte>)
    requires AlwaysFair(Behind(moods, weather)) && InStep(p)
    requires Aligned(address, |data|) && 0 < |data| <= TRANSFER_LIMIT
    requires var n := |p.link.device.done|;
             !moods(n).faults && !moods(n + 1).faults && moods(n + 1).cut >= |data|
    ensures var e := Behind(moods, weather);
            var written := Perform(e, p, Write(address, data, false));
            var read := Perform(e, written.p, Read(address, |data|, false));
            && written.r == DONE && read.r == DONE && read.reply == data
            && forall port: nat, a: nat, n: nat :: Apart(0, address, |data|, port, a, n) ==>
                 Fetch(read.p.link.device.memory, port, a, n) == Fetch(p.link.device.memory, port, a, n)
  {
    hide Perform, InStep;
    var e := Behind(moods, weather);
    var memory := p.link.device.memory;
    var written := Perform(e, p, Write(address, data, false));
    WriteIsNeverConfirmed(moods, weather, p, address, data);
    PerformInStep(moods, weather, p, Write(address, data, false));
    ReadReturnsMemory(moods, weather, written.p, address, |data|);
    StoredIsFetched(memory, 0, address, data);
    forall port: nat, a: nat, n: nat | Apart(0, address, |data|, port, a, n)
      ensures Fetch(Store(memory, 0, address, data), port, a, n) == Fetch(memory, port, a, n)
    {
      StoredElsewhereIsNotFetched(memory, 0, address, data, port, a, n);
    }
  }
}

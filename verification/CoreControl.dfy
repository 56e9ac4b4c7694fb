/** Halting, running and stepping the core, which are nothing but DHCSR writes in the right order. */
module CoreControl {
  import opened Basics
  import opened DebugUnit
  import opened ConnectModel
  import Connect

  datatype Op = Halt | Run(loader: bool) | Step

  function WriteDhcsrBits(b: Bench, w: World, bits: nat): (World, bool)
    requires bits < 0x1_0000
  {
    WriteDebugRegister(b, w, DHCSR, DHCSR_KEY + bits)
  }

  function RunCore(b: Bench, w: World, loader: bool): (World, bool) {
    WriteDhcsrBits(b, w, DEBUG_ENABLE + if loader then MASK_INTERRUPTS else 0)
  }

  const MASK_BITS: nat := HALT + MASK_INTERRUPTS + DEBUG_ENABLE
  const STEP_BITS: nat := STEP + MASK_INTERRUPTS + DEBUG_ENABLE
  const HALT_BITS: nat := HALT + DEBUG_ENABLE

  function StepCore(b: Bench, w: World): (World, bool) {
    var (w1, masked) := WriteDhcsrBits(b, w, MASK_BITS);
    if !masked then (w1, false)
    else
      var (w2, stepped) := WriteDhcsrBits(b, w1, STEP_BITS);
      if !stepped then (w2, false) else WriteDhcsrBits(b, w2, HALT_BITS)
  }

  function Perform(b: Bench, w: World, op: Op): (World, bool) {
    match op
    case Halt => ConnectModel.Halt(b, w)
    case Run(loader) => RunCore(b, w, loader)
    case Step => StepCore(b, w)
  }

  /** One operation after another, up to the first that fails. */
  function PerformAll(b: Bench, w: World, ops: seq<Op>): (World, bool)
    decreases |ops|
  {
    if ops == [] then (w, true)
    else
      var (next, ok) := Perform(b, w, ops[0]);
      if ok then PerformAll(b, next, ops[1..]) else (next, false)
  }

  // ---- The calls -------------------------------------------------------

  method RunTheCore(p: Connect.Programmer, loader: bool) returns (ok: bool)
    modifies p
    ensures (p.world, ok) == RunCore(p.bench, old(p.world), loader)
  {
    ok := p.WriteDebugRegister(DHCSR, DHCSR_KEY + DEBUG_ENABLE + if loader then MASK_INTERRUPTS else 0);
  }

  method StepTheCore(p: Connect.Programmer) returns (ok: bool)
    modifies p
    ensures (p.world, ok) == StepCore(p.bench, old(p.world))
  {
    ok := p.WriteDebugRegister(DHCSR, DHCSR_KEY + MASK_BITS);
    if !ok {
      return;
    }
    ok := p.WriteDebugRegister(DHCSR, DHCSR_KEY + STEP_BITS);
    if !ok {
      return;
    }
    ok := p.WriteDebugRegister(DHCSR, DHCSR_KEY + HALT_BITS);
  }

  // ---- What each does to the core --------------------------------------

  /** The same place in the same program, `n` instructions on, with no interrupt taken and none lost. */
  predicate Advanced(c: Core, d: Core, n: nat) {
    && d.executed == c.executed + n
    && d.interrupts == c.interrupts
    && d.resets == c.resets
    && (c.pending ==> d.pending)
  }

  /**
   * A core a debugger can control by writing DHCSR, which only the later
   * command set does: on the selected port, and not held in reset.
   */
  predicate Controllable(b: Bench, w: World) {
    b.v2 && Valid(w.core) && !InReset(w.core) && w.recorded == b.cpuPort
  }

  /** What a simple core does: only a run lets go of it, and only a loader's run does so with the mask on. */
  predicate Obeys(c: Core, op: Op, d: Core) {
    match op
    case Halt => d.halted && !d.masked && (c.halted ==> Advanced(c, d, 0))
    case Run(loader) => !d.halted && d.masked == loader && (c.halted ==> Advanced(c, d, 0))
    case Step => d.halted && !d.masked && (c.halted ==> Advanced(c, d, 1))
  }

  /** One DHCSR write that arrives, whatever the core did first. */
  lemma OneWrite(b: Bench, w: World, bits: nat)
    requires Controllable(b, w) && bits < 0x1_0000 && Bit(bits, DEBUG_ENABLE)
    requires Lands(b, w)
    ensures var v := WriteDhcsrBits(b, w, bits).0;
            && Controllable(b, v)
            && v.core.catching == w.core.catching
            && v.core == WriteDhcsr(Now(b, w), DHCSR_KEY + bits)
            && v.core.masked == Bit(bits, MASK_INTERRUPTS)
            && (Bit(bits, HALT) ==> v.core.halted && Advanced(Now(b, w), v.core, 0))
  {
    TimePasses(w.core, b.turns(w.turn).moments);
    assert (DHCSR_KEY + bits) / 0x1_0000 == DHCSR_KEY / 0x1_0000;
    BitsUnderTheKey(bits);
  }

  lemma BitsUnderTheKey(bits: nat)
    requires bits < 0x1_0000
    ensures Bit(DHCSR_KEY + bits, DEBUG_ENABLE) == Bit(bits, DEBUG_ENABLE)
    ensures Bit(DHCSR_KEY + bits, HALT) == Bit(bits, HALT)
    ensures Bit(DHCSR_KEY + bits, STEP) == Bit(bits, STEP)
    ensures Bit(DHCSR_KEY + bits, MASK_INTERRUPTS) == Bit(bits, MASK_INTERRUPTS)
  {
    hide Bit;
    EnableUnderTheKey(bits);
    HaltUnderTheKey(bits);
    StepUnderTheKey(bits);
    MaskUnderTheKey(bits);
  }

  lemma EnableUnderTheKey(bits: nat)
    ensures Bit(DHCSR_KEY + bits, DEBUG_ENABLE) == Bit(bits, DEBUG_ENABLE)
  {
  }

  lemma HaltUnderTheKey(bits: nat)
    ensures Bit(DHCSR_KEY + bits, HALT) == Bit(bits, HALT)
  {
    assert (DHCSR_KEY + bits) / HALT == DHCSR_KEY / HALT + bits / HALT;
  }

  lemma StepUnderTheKey(bits: nat)
    ensures Bit(DHCSR_KEY + bits, STEP) == Bit(bits, STEP)
  {
    assert (DHCSR_KEY + bits) / STEP == DHCSR_KEY / STEP + bits / STEP;
  }

  lemma MaskUnderTheKey(bits: nat)
    ensures Bit(DHCSR_KEY + bits, MASK_INTERRUPTS) == Bit(bits, MASK_INTERRUPTS)
  {
    assert (DHCSR_KEY + bits) / MASK_INTERRUPTS == DHCSR_KEY / MASK_INTERRUPTS + bits / MASK_INTERRUPTS;
  }

  lemma HaltedAndReadable(b: Bench, w: World)
    requires Controllable(b, w) && w.core.halted
    ensures Now(b, w) == w.core.(pending := Now(b, w).pending) && (w.core.pending ==> Now(b, w).pending)
  {
    HaltedStaysPut(w.core, b.turns(w.turn).moments);
    if w.core.pending {
      PendingStays(w.core, b.turns(w.turn).moments);
    }
  }

  lemma {:induction false} PendingStays(c: Core, moments: seq<Moment>)
    requires c.halted && c.pending
    ensures PassingAll(c, moments).pending
    decreases |moments|
  {
    if moments != [] {
      PendingStays(Passing(c, moments[0]), moments[1..]);
    }
  }

  /** The first two writes: halted where it was, and then one instruction on, with interrupts held off. */
  lemma StepBegins(b: Bench, w: World)
    requires Controllable(b, w) && Lands(b, w) && Lands(b, WriteDhcsrBits(b, w, MASK_BITS).0)
    ensures var w1 := WriteDhcsrBits(b, w, MASK_BITS).0; var w2 := WriteDhcsrBits(b, w1, STEP_BITS).0;
            && Controllable(b, w1) && Controllable(b, w2) && w2.core.catching == w.core.catching
            && w2.core.halted && w2.core.masked && Advanced(Now(b, w), w2.core, 1)
  {
    hide PassingAll;
    OneWrite(b, w, MASK_BITS);
    var w1 := WriteDhcsrBits(b, w, MASK_BITS).0;
    HaltedAndReadable(b, w1);
    OneWrite(b, w1, STEP_BITS);
    BitsUnderTheKey(STEP_BITS);
  }

  lemma StepObeys(b: Bench, w: World)
    requires Controllable(b, w) && StepCore(b, w).1
    ensures var v := StepCore(b, w).0;
            && Controllable(b, v) && v.core.catching == w.core.catching
            && v.core.halted && !v.core.masked && Advanced(Now(b, w), v.core, 1)
  {
    hide PassingAll;
    StepBegins(b, w);
    hide WriteDhcsrBits;
    var w2 := WriteDhcsrBits(b, WriteDhcsrBits(b, w, MASK_BITS).0, STEP_BITS).0;
    HaltedAndReadable(b, w2);
    OneWrite(b, w2, HALT_BITS);
  }

  /** The step that fails at its first write: either nothing has happened, or the core is halted and masked. */
  lemma StepFailsAtOnce(b: Bench, w: World)
    requires Controllable(b, w) && !b.turns(w.turn).ok
    ensures var v := StepCore(b, w).0;
            && v.core.masked == (b.turns(w.turn).lands || w.core.masked)
            && (if b.turns(w.turn).lands then v.core.halted && Advanced(Now(b, w), v.core, 0) else v.core == Now(b, w))
  {
    hide PassingAll, WriteDhcsr;
    TimePasses(w.core, b.turns(w.turn).moments);
    if b.turns(w.turn).lands {
      OneWrite(b, w, MASK_BITS);
    }
  }

  lemma StepFailsLater(b: Bench, w: World)
    requires Controllable(b, w) && b.turns(w.turn).ok && !StepCore(b, w).1
    ensures var v := StepCore(b, w).0;
            && v.core.halted
            && (v.core.masked <==> !(b.turns(w.turn + 1).ok && b.turns(w.turn + 2).lands))
  {
    hide PassingAll, WriteDhcsr;
    OneWrite(b, w, MASK_BITS);
    var w1 := WriteDhcsrBits(b, w, MASK_BITS).0;
    HaltedAndReadable(b, w1);
    if Lands(b, w1) {
      StepBegins(b, w);
      var w2 := WriteDhcsrBits(b, w1, STEP_BITS).0;
      HaltedAndReadable(b, w2);
      if b.turns(w1.turn).ok && Lands(b, w2) {
        OneWrite(b, w2, HALT_BITS);
      }
    }
  }

  /**
   * A step that fails leaves interrupts masked exactly in these cases: its
   * first write was reported to fail and got there, or they were masked
   * before; or that write was good, and the last one was not reached or lost.
   */
  lemma FailedStepLeavesTheMaskExactly(b: Bench, w: World)
    requires Controllable(b, w) && !StepCore(b, w).1
    ensures StepCore(b, w).0.core.masked <==>
            if b.turns(w.turn).ok then !(b.turns(w.turn + 1).ok && b.turns(w.turn + 2).lands)
            else b.turns(w.turn).lands || w.core.masked
  {
    hide StepCore, PassingAll;
    if b.turns(w.turn).ok {
      StepFailsLater(b, w);
    } else {
      StepFailsAtOnce(b, w);
    }
  }

  lemma PerformObeys(b: Bench, w: World, op: Op)
    requires Controllable(b, w) && Perform(b, w, op).1
    ensures var v := Perform(b, w, op).0;
            && Controllable(b, v) && v.core.catching == w.core.catching
            && Obeys(w.core, op, v.core)
  {
    hide StepCore, PassingAll;
    if w.core.halted {
      HaltedAndReadable(b, w);
    }
    match op {
      case Halt => OneWrite(b, w, HALT_BITS);
      case Run(loader) =>
        var bits := DEBUG_ENABLE + if loader then MASK_INTERRUPTS else 0;
        OneWrite(b, w, bits);
        BitsUnderTheKey(bits);
      case Step => StepObeys(b, w);
    }
  }

  // ---- Whole runs ------------------------------------------------------

  /** The core as it is between operations. */
  function Between(b: Bench, w: World, ops: seq<Op>): (cores: seq<Core>)
    ensures |cores| == |ops| + 1
    decreases |ops|
  {
    if ops == [] then [w.core] else [w.core] + Between(b, Perform(b, w, ops[0]).0, ops[1..])
  }

  /** Every run of operations that all succeed is a run of the simple core, operation by operation. */
  lemma {:induction false} RunsObey(b: Bench, w: World, ops: seq<Op>)
    requires Controllable(b, w) && PerformAll(b, w, ops).1
    ensures Controllable(b, PerformAll(b, w, ops).0)
    ensures Between(b, w, ops)[0] == w.core && Between(b, w, ops)[|ops|] == PerformAll(b, w, ops).0.core
    ensures forall i :: 0 <= i < |ops| ==> Obeys(Between(b, w, ops)[i], ops[i], Between(b, w, ops)[i + 1])
    decreases |ops|
  {
    if ops != [] {
      PerformObeys(b, w, ops[0]);
      RunsObey(b, Perform(b, w, ops[0]).0, ops[1..]);
    }
  }

  /** After any run it is the last operation alone that decides whether the core is held, and whether masked. */
  lemma LastOperationDecides(b: Bench, w: World, ops: seq<Op>)
    requires Controllable(b, w) && PerformAll(b, w, ops).1 && ops != []
    ensures var v := PerformAll(b, w, ops).0; var last := ops[|ops| - 1];
            && (v.core.halted <==> !last.Run?)
            && (v.core.masked <==> last == Run(true))
  {
    RunsObey(b, w, ops);
    assert Obeys(Between(b, w, ops)[|ops| - 1], ops[|ops| - 1], Between(b, w, ops)[|ops| - 1 + 1]);
  }

  function Steps(ops: seq<Op>): nat {
    if ops == [] then 0 else (if ops[0].Step? then 1 else 0) + Steps(ops[1..])
  }

  /** A core only ever stepped has executed one instruction a step, and nothing else has happened to it. */
  lemma {:induction false} SteppingCounts(b: Bench, w: World, ops: seq<Op>)
    requires Controllable(b, w) && w.core.halted && PerformAll(b, w, ops).1
    requires forall i :: 0 <= i < |ops| ==> !ops[i].Run?
    ensures var v := PerformAll(b, w, ops).0;
            v.core.halted && Advanced(w.core, v.core, Steps(ops))
    decreases |ops|
  {
    if ops != [] {
      PerformObeys(b, w, ops[0]);
      SteppingCounts(b, Perform(b, w, ops[0]).0, ops[1..]);
    }
  }

  // ---- What the architecture leaves undefined --------------------------

  /**
   * Section C1.6.2 defines a change of C_MASKINTS only in a write that sets
   * C_HALT to a core whose C_HALT is set already.
   */
  predicate DefinedWrite(c: Core, bits: nat) {
    Bit(bits, MASK_INTERRUPTS) == c.masked || (c.halted && Bit(bits, HALT))
  }

  predicate DefinedOp(b: Bench, w: World, op: Op) {
    match op
    case Halt => DefinedWrite(Now(b, w), HALT_BITS)
    case Run(loader) => DefinedWrite(Now(b, w), DEBUG_ENABLE + if loader then MASK_INTERRUPTS else 0)
    case Step =>
      var w1 := WriteDhcsrBits(b, w, MASK_BITS).0;
      var w2 := WriteDhcsrBits(b, w1, STEP_BITS).0;
      DefinedWrite(Now(b, w), MASK_BITS) && DefinedWrite(Now(b, w1), STEP_BITS) && DefinedWrite(Now(b, w2), HALT_BITS)
  }

  predicate DefinedRun(b: Bench, w: World, ops: seq<Op>)
    decreases |ops|
  {
    ops == [] || (DefinedOp(b, w, ops[0]) && DefinedRun(b, Perform(b, w, ops[0]).0, ops[1..]))
  }

  /** No loader is run, and a core that was let go of is halted before it is stepped. */
  predicate Disciplined(ops: seq<Op>, held: bool) {
    ops == [] ||
    match ops[0]
    case Halt => Disciplined(ops[1..], true)
    case Run(loader) => !loader && Disciplined(ops[1..], false)
    case Step => held && Disciplined(ops[1..], true)
  }

  lemma DefinedStep(b: Bench, w: World)
    requires Controllable(b, w) && w.core.halted && StepCore(b, w).1
    ensures DefinedOp(b, w, Step)
  {
    hide PassingAll, WriteDebugRegister, Advanced;
    var w1 := WriteDhcsrBits(b, w, MASK_BITS).0;
    var w2 := WriteDhcsrBits(b, w1, STEP_BITS).0;
    assert b.turns(w.turn).ok && w1.turn == w.turn + 1 && b.turns(w1.turn).ok by {
      StepIsReported(b, w);
    }
    HaltedAndReadable(b, w);
    OneWrite(b, w, MASK_BITS);
    StepBegins(b, w);
    HaltedAndReadable(b, w1);
    HaltedAndReadable(b, w2);
    hide WriteDhcsrBits;
  }

  lemma StepIsReported(b: Bench, w: World)
    requires StepCore(b, w).1
    ensures b.turns(w.turn).ok && b.turns(w.turn + 1).ok
    ensures WriteDhcsrBits(b, w, MASK_BITS).0.turn == w.turn + 1
  {
    hide PassingAll, WriteRegister;
  }

  lemma MaskAndHalt(b: Bench, w: World)
    requires Controllable(b, w) && !w.core.masked && !w.core.catching
    ensures !Now(b, w).masked && (w.core.halted <==> Now(b, w).halted)
  {
    TimePasses(w.core, b.turns(w.turn).moments);
    if w.core.halted {
      HaltedAndReadable(b, w);
    } else {
      NeverHaltsItself(w.core, b.turns(w.turn).moments);
    }
  }

  /** One operation on a core whose interrupts are not held off and that nothing will halt by itself. */
  lemma DefinedExactlyWhenAllowed(b: Bench, w: World, op: Op)
    requires Controllable(b, w) && !w.core.masked && !w.core.catching && Perform(b, w, op).1
    ensures DefinedOp(b, w, op) <==> if op.Run? then !op.loader else op.Step? ==> w.core.halted
  {
    MaskAndHalt(b, w);
    hide PassingAll, WriteDhcsrBits, Controllable;
    if op.Step? && w.core.halted {
      hide DefinedOp;
      DefinedStep(b, w);
    } else if op.Step? {
      hide StepCore;
      assert !DefinedWrite(Now(b, w), MASK_BITS);
    }
  }

  /** With no catch armed, a run is made of nothing but defined writes exactly when it is disciplined. */
  lemma {:induction false} DefinedExactlyWhenDisciplined(b: Bench, w: World, ops: seq<Op>)
    requires Controllable(b, w) && !w.core.masked && !w.core.catching && PerformAll(b, w, ops).1
    ensures DefinedRun(b, w, ops) <==> Disciplined(ops, w.core.halted)
    decreases |ops|
  {
    hide DefinedOp, Perform, Controllable;
    if ops != [] {
      DefinedExactlyWhenAllowed(b, w, ops[0]);
      PerformObeys(b, w, ops[0]);
      if ops[0] != Run(true) {
        DefinedExactlyWhenDisciplined(b, Perform(b, w, ops[0]).0, ops[1..]);
      }
    }
  }
}

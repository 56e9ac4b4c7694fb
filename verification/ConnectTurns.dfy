/**
 * Connecting, request by request: which of the turns on the bench decides
 * what, by number and by nothing else.
 */
module ConnectTurns {
  import opened Basics
  import opened DebugUnit
  import opened ConnectModel
  import opened ConnectProofs

  /** Whether the request of that turn takes effect. */
  predicate LandsAt(b: Bench, t: nat) {
    b.turns(t).lands || (b.v2 && b.turns(t).ok)
  }

  predicate OkAt(b: Bench, t: nat) {
    b.turns(t).ok
  }

  // ---- The catch loop --------------------------------------------------

  lemma HaltCounts(b: Bench, w: World)
    ensures var v := Halt(b, w).0;
            && v.turn == w.turn + 1 && v.recorded == w.recorded && v.openPort == w.openPort
            && v.clock == w.clock + b.turns(w.turn).dawdle
            && v.halts == w.halts + if LandsAt(b, w.turn) && w.recorded == b.cpuPort then 1 else 0
  {
    hide PassingAll, WriteRegister;
  }

  /** How many requests of a stretch of turns take effect. */
  function Landings(b: Bench, from: nat, end: nat): nat
    decreases end - from
  {
    if from >= end then 0 else (if LandsAt(b, from) then 1 else 0) + Landings(b, from + 1, end)
  }

  lemma {:induction false} SomeLanding(b: Bench, from: nat, end: nat)
    ensures Landings(b, from, end) > 0 <==> (exists t :: from <= t < end && LandsAt(b, t))
    decreases end - from
  {
    hide LandsAt;
    if from < end {
      SomeLanding(b, from + 1, end);
    }
  }

  lemma {:induction false} EveryTurnAsksToHalt(b: Bench, w: World, until: nat)
    ensures var v := CatchLoop(b, w, until);
            && v.turn >= w.turn && v.recorded == w.recorded && v.openPort == w.openPort
            && v.halts == w.halts + if w.recorded == b.cpuPort then Landings(b, w.turn, v.turn) else 0
    decreases until - w.clock
  {
    hide Halt, LandsAt;
    if w.clock < until {
      HaltCounts(b, w);
      EveryTurnAsksToHalt(b, Slept(Halt(b, w).0, CATCH_INTERVAL), until);
    }
  }

  /**
   * The catch loop runs its window out, taking at least one turn and at most
   * one an interval, and asks for a halt in each: through the port with the
   * CPU every one of them that lands is one.
   */
  lemma CatchWindowIsKept(b: Bench, w: World, until: nat)
    requires w.clock < until
    ensures var v := CatchLoop(b, w, until); var asked := v.turn - w.turn;
            && v.clock >= until && 1 <= asked && 100 * (asked - 1) < until - w.clock
            && v.recorded == w.recorded && v.openPort == w.openPort
            && v.halts == w.halts + (if w.recorded == b.cpuPort then Landings(b, w.turn, v.turn) else 0)
            && (v.halts > w.halts <==> w.recorded == b.cpuPort && exists t :: w.turn <= t < v.turn && LandsAt(b, t))
  {
    hide CatchLoop;
    CatchLoopRunsOut(b, w, until);
    EveryTurnAsksToHalt(b, w, until);
    SomeLanding(b, w.turn, CatchLoop(b, w, until).turn);
  }

  lemma PinTakesATurn(b: Bench, w: World, asserted: bool)
    requires b.v2
    ensures var (v, ok) := ResetPin(b, w, asserted);
            && v.turn == w.turn + 1 && v.clock == w.clock + b.turns(w.turn).dawdle
            && v.recorded == w.recorded && v.openPort == w.openPort
            && v.halts == w.halts && ok == OkAt(b, w.turn)
  {
    hide PassingAll;
  }

  lemma ReadTakesATurn(b: Bench, w: World)
    ensures var v := SawReset(b, w).0;
            && v.turn == w.turn + 1 && v.clock == w.clock + b.turns(w.turn).dawdle
            && v.recorded == w.recorded && v.openPort == w.openPort
            && v.halts == w.halts && (SawReset(b, w).1 ==> OkAt(b, w.turn))
  {
    hide PassingAll;
  }

  lemma CommandTakesATurn(b: Bench, w: World)
    ensures var v := ResetCommand(b, w).0;
            && v.turn == w.turn + 1 && v.clock == w.clock + b.turns(w.turn).dawdle
            && v.recorded == w.recorded && v.openPort == w.openPort
  {
    hide PassingAll;
  }

  lemma WriteTakesATurn(b: Bench, w: World, address: word, value: word)
    ensures var (v, ok) := WriteDebugRegister(b, w, address, value);
            && v.turn == w.turn + 1 && v.clock == w.clock + b.turns(w.turn).dawdle
            && v.recorded == w.recorded && v.openPort == w.openPort
            && ok == OkAt(b, w.turn) && (address != DHCSR ==> v.halts == w.halts)
  {
    hide PassingAll, WriteRegister;
  }

  /** Resetting through AIRCR with the catch: which requests there are, and which failure ends it. */
  lemma SoftwareResetByTurns(b: Bench, w: World, haltOnReset: bool)
    ensures var (v, r) := SoftwareReset(b, w, haltOnReset);
            var t := w.turn; var asked := if haltOnReset then t + 1 else t;
            && v.recorded == w.recorded && v.openPort == w.openPort && v.halts == w.halts
            && r == (if (haltOnReset ==> OkAt(b, t)) && OkAt(b, asked) then DONE else Err(TargetRefused))
            && v.turn == (if haltOnReset && !OkAt(b, t) then t + 1
                          else if !OkAt(b, asked) || !haltOnReset then asked + 1
                          else t + 3)
            && v.clock >= w.clock + if r.Ok? then 10_000 else 0
  {
    hide WriteDebugRegister;
    WriteTakesATurn(b, w, DEMCR, VECTOR_CATCH);
    var w1 := if haltOnReset then WriteDebugRegister(b, w, DEMCR, VECTOR_CATCH).0 else w;
    WriteTakesATurn(b, w1, AIRCR, AIRCR_KEY + SYSTEM_RESET);
    var w2 := Slept(WriteDebugRegister(b, w1, AIRCR, AIRCR_KEY + SYSTEM_RESET).0, RESET_SETTLE);
    WriteTakesATurn(b, w2, DEMCR, 0);
  }

  // ---- Under reset -----------------------------------------------------

  /**
   * Whether a halt that is asked for gets there, of a connection that drives
   * nRST first in turn `first`, halts in the next, lets go in the one after,
   * and then asks again in every turn before `end`.
   */
  predicate SomeHaltLands(b: Bench, first: nat, end: int) {
    LandsAt(b, first + 1) || exists i :: first + 3 <= i < end && LandsAt(b, i)
  }

  /**
   * How connecting under reset comes out, by its turns alone: the first drives
   * nRST, the third lets go of it, and no other failure counts but those of
   * arming the catch and of the reset.
   */
  lemma UnderResetByTurns(b: Bench, w: World)
    ensures var (v, r) := ConnectUnderReset(b, w); var t := w.turn;
            && v.recorded == w.recorded && v.openPort == w.openPort
            && (r == Err(IO) ==> v.turn == if !b.v2 then t else if !OkAt(b, t) then t + 1 else t + 3)
            && (r == Err(IO) <==> !b.v2 || !OkAt(b, t) || !OkAt(b, t + 2))
            && (r == DONE || r == Err(IO) || r == Err(TargetRefused))
            && (r == DONE ==>
                  && t + 8 <= v.turn <= t + 107 && OkAt(b, v.turn - 3) && OkAt(b, v.turn - 2)
                  && v.clock >= w.clock + 20 + 10_000 + 10_000)
            && (r == Err(TargetRefused) ==> t + 6 <= v.turn <= t + 106 && !OkAt(b, v.turn - 1))
            && (r == DONE ==>
                  (v.halts > w.halts <==>
                   w.recorded == b.cpuPort && SomeHaltLands(b, t, v.turn - 4)))
  {
    hide ResetPin, Halt, CatchLoop, SawReset, SoftwareReset, LandsAt;
    if b.v2 {
      PinTakesATurn(b, w, true);
      var (w1, low) := ResetPin(b, w, true);
      if low {
        HaltCounts(b, w1);
        var w2 := Slept(Halt(b, w1).0, RESET_PULSE);
        PinTakesATurn(b, w2, false);
        var (w3, high) := ResetPin(b, w2, false);
        if high {
          var until := w3.clock + CATCH_WINDOW;
          CatchWindowIsKept(b, w3, until);
          var w4 := CatchLoop(b, w3, until);
          ReadTakesATurn(b, w4);
          var w5 := SawReset(b, w4).0;
          SoftwareResetByTurns(b, w5, true);
        }
      }
    } else {
      NoPinToDrive(b, w);
    }
  }

  /**
   * connect_under_reset as its turns decide it: a good one has caught the core
   * exactly if it is on the CPU's port and halting debug was on before, or
   * the halt asked for while nRST was low got there, or one of those asked for
   * after it was let go.
   */
  lemma UnderResetCatchesByTurns(b: Bench, w: World)
    requires Valid(w.core)
    ensures var (v, r) := ConnectUnderReset(b, w); var t := w.turn;
            r == DONE ==>
              && v.turn >= t + 8
              && (CaughtByThis(w.core, v.core) <==>
                  w.recorded == b.cpuPort && (w.core.enabled || SomeHaltLands(b, t, v.turn - 4)))
  {
    UnderResetCatchesTheCoreExactly(b, w);
    UnderResetByTurns(b, w);
    hide ConnectUnderReset, CaughtByThis, LandsAt;
  }

  // ---- Normal ----------------------------------------------------------

  /** The number of the turn in which a normal connection gives the reset command. */
  function CommandTurn(b: Bench, t: nat): nat {
    if !b.v2 then t + 1 else if OkAt(b, t + 1) then t + 3 else t + 2
  }

  lemma PulseAndResetByTurns(b: Bench, w: World)
    ensures var v := PulseAndReset(b, w); var pin := BeforeTheCommand(b, w);
            && v.recorded == w.recorded && v.openPort == w.openPort
            && pin.turn == (if !b.v2 then w.turn else if OkAt(b, w.turn) then w.turn + 2 else w.turn + 1)
            && v.turn == pin.turn + 1
            && v.clock >= w.clock + 10_000 + if b.v2 && OkAt(b, w.turn) then 20 else 0
  {
    hide ResetPin, ResetCommand;
    NoPinToDrive(b, w);
    var (w1, low) := ResetPin(b, w, true);
    if b.v2 {
      PinTakesATurn(b, w, true);
      PinTakesATurn(b, Slept(w1, RESET_PULSE), false);
    }
    CommandTakesATurn(b, BeforeTheCommand(b, w));
  }

  /**
   * How a normal connection comes out, by its turns alone: good if the second
   * read saw a reset, and otherwise as the write to AIRCR was reported. The
   * host reset the target exactly if driving the pin did, or the command got
   * there, or there was a write to AIRCR and it reached the core.
   */
  lemma NormalModeByTurns(b: Bench, w: World)
    ensures var (v, r) := ResetTheTarget(b, w); var t := w.turn; var command := CommandTurn(b, t);
            && v.recorded == w.recorded && v.openPort == w.openPort
            && (v.turn == command + 2 || v.turn == command + 3)
            && r == (if v.turn == command + 2 || OkAt(b, command + 2) then DONE else Err(TargetRefused))
            && (v.turn == command + 2 ==> OkAt(b, command + 1))
            && v.clock >= w.clock + 10_000 + (if b.v2 && OkAt(b, t + 1) then 20 else 0)
                          + (if v.turn == command + 3 && r.Ok? then 10_000 else 0)
            && (ResetByHost(v.core, w.core) <==>
                || (b.v2 && LandsAt(b, t + 1) && w.core.pinWired && !w.core.pinLow)
                || LandsAt(b, command)
                || (v.turn == command + 3 && LandsAt(b, command + 2) && w.recorded == b.cpuPort))
  {
    NormalModeResetsByHostExactly(b, w);
    ReadTakesATurn(b, w);
    var w1 := Cleared(b, w);
    PulseAndResetByTurns(b, w1);
    var w2 := PulseAndReset(b, w1);
    ReadTakesATurn(b, w2);
    var (w3, saw) := SawReset(b, w2);
    SoftwareResetByTurns(b, w3, false);
    ReadingLeavesThePin(b, w);
    hide SawReset, PulseAndReset, SoftwareReset, BeforeTheCommand, ResetByHost;
  }

  lemma ReadingLeavesThePin(b: Bench, w: World)
    ensures var v := SawReset(b, w).0.core; v.pinWired == w.core.pinWired && v.pinLow == w.core.pinLow
  {
    TimePasses(w.core, b.turns(w.turn).moments);
    hide PassingAll;
  }

  /** What a debugger puts in place in the debug unit. */
  predicate SameDebugState(c: Core, d: Core) {
    d.enabled == c.enabled && d.masked == c.masked && d.catching == c.catching
  }

  lemma EachLeavesTheDebugState(b: Bench, w: World, asserted: bool)
    ensures SameDebugState(w.core, SawReset(b, w).0.core)
    ensures SameDebugState(w.core, ResetPin(b, w, asserted).0.core)
    ensures SameDebugState(w.core, ResetCommand(b, w).0.core)
  {
    TimePasses(w.core, b.turns(w.turn).moments);
    hide PassingAll;
  }

  lemma AircrLeavesTheDebugState(b: Bench, w: World)
    ensures SameDebugState(w.core, SoftwareReset(b, w, false).0.core)
  {
    TimePasses(w.core, b.turns(w.turn).moments);
    hide PassingAll, WriteDhcsr, Bit, Keyed, Valid;
  }

  lemma PulseLeavesTheDebugState(b: Bench, w: World)
    ensures SameDebugState(w.core, PulseAndReset(b, w).core)
  {
    hide SawReset, ResetPin, ResetCommand;
    EachLeavesTheDebugState(b, w, true);
    EachLeavesTheDebugState(b, Slept(ResetPin(b, w, true).0, RESET_PULSE), false);
    EachLeavesTheDebugState(b, BeforeTheCommand(b, w), true);
  }

  /** A normal connection changes none of it: least of all does it arm the catch. */
  lemma NormalModeLeavesTheDebugState(b: Bench, w: World)
    ensures SameDebugState(w.core, ResetTheTarget(b, w).0.core)
  {
    hide SawReset, PulseAndReset, SoftwareReset;
    EachLeavesTheDebugState(b, w, true);
    PulseLeavesTheDebugState(b, Cleared(b, w));
    var w2 := PulseAndReset(b, Cleared(b, w));
    EachLeavesTheDebugState(b, w2, true);
    AircrLeavesTheDebugState(b, SawReset(b, w2).0);
  }

  // ---- How long it takes -----------------------------------------------

  /** Every request takes no time of its own. */
  ghost predicate Prompt(b: Bench) {
    forall i :: b.turns(i).dawdle == 0
  }

  lemma {:induction false} CatchLoopOnTime(b: Bench, w: World, left: nat)
    requires Prompt(b)
    ensures var v := CatchLoop(b, w, w.clock + 100 * left);
            v.turn == w.turn + left && v.clock == w.clock + 100 * left
    decreases left
  {
    if left > 0 {
      hide Halt;
      HaltCounts(b, w);
      CatchLoopOnTime(b, Slept(Halt(b, w).0, CATCH_INTERVAL), left - 1);
    }
  }

  lemma SoftwareResetOnTime(b: Bench, w: World, haltOnReset: bool)
    requires Prompt(b)
    ensures var (v, r) := SoftwareReset(b, w, haltOnReset);
            v.clock == w.clock + if r.Ok? then 10_000 else 0
  {
    hide WriteDebugRegister;
    WriteTakesATurn(b, w, DEMCR, VECTOR_CATCH);
    var w1 := if haltOnReset then WriteDebugRegister(b, w, DEMCR, VECTOR_CATCH).0 else w;
    WriteTakesATurn(b, w1, AIRCR, AIRCR_KEY + SYSTEM_RESET);
    var w2 := Slept(WriteDebugRegister(b, w1, AIRCR, AIRCR_KEY + SYSTEM_RESET).0, RESET_SETTLE);
    WriteTakesATurn(b, w2, DEMCR, 0);
  }

  /** With requests that take no time, a good connection under reset is 20 us, 100 times 100 us, and 10 ms. */
  lemma UnderResetOnTime(b: Bench, w: World)
    requires Prompt(b) && ConnectUnderReset(b, w).1 == DONE
    ensures var v := ConnectUnderReset(b, w).0; v.clock == w.clock + 20_020 && v.turn == w.turn + 107
  {
    hide ResetPin, Halt, CatchLoop, SawReset, SoftwareReset;
    NoPinToDrive(b, w);
    if b.v2 {
      PinTakesATurn(b, w, true);
      var w1 := ResetPin(b, w, true).0;
      HaltCounts(b, w1);
      var w2 := Slept(Halt(b, w1).0, RESET_PULSE);
      PinTakesATurn(b, w2, false);
      var w3 := ResetPin(b, w2, false).0;
      CatchLoopOnTime(b, w3, 100);
      var w4 := CatchLoop(b, w3, w3.clock + CATCH_WINDOW);
      ReadTakesATurn(b, w4);
      SoftwareResetByTurns(b, SawReset(b, w4).0, true);
      SoftwareResetOnTime(b, SawReset(b, w4).0, true);
    }
  }

  /** And a good normal one 20 us if nRST is driven, 10 ms, and 10 ms more if AIRCR is fallen back on. */
  lemma NormalModeOnTime(b: Bench, w: World)
    requires Prompt(b) && ResetTheTarget(b, w).1 == DONE
    ensures var v := ResetTheTarget(b, w).0; var command := CommandTurn(b, w.turn);
            v.clock == w.clock + 10_000 + (if b.v2 && OkAt(b, w.turn + 1) then 20 else 0)
                       + if v.turn == command + 2 then 0 else 10_000
  {
    hide SawReset, ResetPin, ResetCommand, SoftwareReset;
    ReadTakesATurn(b, w);
    var w1 := SawReset(b, w).0;
    PulseAndResetByTurns(b, w1);
    PulseOnTime(b, w1);
    hide PulseAndReset;
    var w2 := PulseAndReset(b, w1);
    ReadTakesATurn(b, w2);
    SoftwareResetByTurns(b, SawReset(b, w2).0, false);
    SoftwareResetOnTime(b, SawReset(b, w2).0, false);
  }

  lemma PulseOnTime(b: Bench, w: World)
    requires Prompt(b)
    ensures PulseAndReset(b, w).clock == w.clock + 10_000 + if b.v2 && OkAt(b, w.turn) then 20 else 0
  {
    hide ResetPin, ResetCommand;
    NoPinToDrive(b, w);
    var (w1, low) := ResetPin(b, w, true);
    if b.v2 {
      PinTakesATurn(b, w, true);
      PinTakesATurn(b, Slept(w1, RESET_PULSE), false);
    }
    CommandTakesATurn(b, BeforeTheCommand(b, w));
  }

  // ---- What a read says ------------------------------------------------

  /** A read that reaches the core sees a reset exactly if it is reported good, arrives, and there was one. */
  lemma SawResetExactly(b: Bench, w: World)
    requires ReadReaches(b, w)
    ensures SawReset(b, w).1 <==>
            OkAt(b, w.turn) && (b.turns(w.turn).whole || !b.v2 || w.recorded != 0) && Now(b, w).sticky
  {
    hide PassingAll;
    StickyBitReadsBack(Now(b, w));
    assert !Bit(DhcsrValue(Now(b, w)) % TOP_BYTE, RESET_SINCE);
  }

  // ---- Finding the port ------------------------------------------------

  /** Everything asked for in a stretch of turns was done, said to be done, and answered in full. */
  predicate AllWell(b: Bench, from: nat, to: nat) {
    forall i :: from <= i < to ==> b.turns(i).ok && b.turns(i).lands && b.turns(i).whole
  }

  lemma NamesArmByItsTopByte(cpuid: word)
    ensures NamesArm(cpuid) <==> 0x4100_0000 <= cpuid % 0x8000_0000 < 0x4200_0000
  {
  }

  /** What a CPUID has to be for the core that answers with it to be taken for one of ARM's. */
  predicate Arm(cpuid: word) {
    0x4100_0000 <= cpuid % 0x8000_0000 < 0x4200_0000
  }

  lemma AskingForCpuId(b: Bench, w: World)
    ensures var (v, arm) := ReadCpuId(b, w);
            && v.turn == w.turn + 1 && v.recorded == w.recorded && v.openPort == w.openPort
            && (AllWell(b, w.turn, w.turn + 1) ==> arm == Arm(b.cpuid(w.recorded)))
            && (arm ==> OkAt(b, w.turn))
  {
    hide PassingAll, NamesArm;
    if AllWell(b, w.turn, w.turn + 1) {
      assert b.turns(w.turn).lands;
    }
    var raw := ReadDebugRegister(b, w, CPUID).1;
    if raw.Some? {
      NamesArmByItsTopByte(raw.value);
    }
  }

  lemma OpeningAPort(b: Bench, w: World, ap: nat)
    requires b.v2
    ensures var (v, ok) := SelectAccessPort(b, w, ap);
            && v.turn == w.turn + 1 && ok == OkAt(b, w.turn)
            && v.recorded == (if ok then ap else w.recorded)
            && v.openPort == (if LandsAt(b, w.turn) then ap else w.openPort)
  {
    hide PassingAll;
  }

  /**
   * Probing, by its turns: with the later command set, and every request made
   * answered, the port recorded and the port open are 1 exactly if the core
   * behind port one is ARM's and the one behind port zero is not.
   */
  lemma ProbingFindsTheCpu(b: Bench, w: World)
    requires b.v2 && w.recorded == 0 && w.openPort == 0
    requires AllWell(b, w.turn, ProbeAccessPort(b, w).turn)
    ensures var v := ProbeAccessPort(b, w);
            && v.recorded == v.openPort
            && v.recorded == (if Arm(b.cpuid(1)) && !Arm(b.cpuid(0)) then 1 else 0)
            && v.turn == w.turn + (if Arm(b.cpuid(0)) then 1 else if Arm(b.cpuid(1)) then 3 else 4)
  {
    hide ReadCpuId, SelectAccessPort;
    AskingForCpuId(b, w);
    var (w1, onTheDefault) := ReadCpuId(b, w);
    OpeningAPort(b, w1, 1);
    var (w2, selected) := SelectAccessPort(b, w1, 1);
    AskingForCpuId(b, w2);
    var (w3, onOne) := ReadCpuId(b, w2);
    OpeningAPort(b, w3, 0);
    var v := ProbeAccessPort(b, w);
    assert OkAt(b, w.turn);
    if v.turn > w.turn + 1 {
      assert OkAt(b, w.turn + 1);
    }
    if v.turn > w.turn + 3 {
      assert OkAt(b, w.turn + 3);
    }
  }

  // ---- The whole connection --------------------------------------------

  /** Entering debug is asked for once, and nothing is done after it if it fails, nor at all over JTAG. */
  lemma ConnectingEndsWithoutDebugExactly(b: Bench, w: World, jtag: bool, mode: ResetMode)
    ensures var (v, r) := ConnectToTarget(b, w, jtag, mode);
            && (r == Err(TargetUnknown) <==> jtag || !OkAt(b, w.turn))
            && (r == Err(TargetUnknown) ==>
                  && v.recorded == w.recorded && v.openPort == w.openPort && v.halts == w.halts
                  && (if jtag then v == w
                      else v.turn == w.turn + 1 && v.core == PassingAll(w.core, b.turns(w.turn).moments)))
            && (mode.HotPlug? && r != Err(TargetUnknown) ==> r == DONE)
  {
    var entered := EnterDebug(b, w, jtag).0;
    UnderResetByTurns(b, ProbeAccessPort(b, entered));
    NormalModeByTurns(b, ProbeAccessPort(b, entered));
    hide ConnectUnderReset, ResetTheTarget, ProbeAccessPort, ResetByHost, PassingAll;
  }

  lemma ProbingTakesTurns(b: Bench, w: World)
    requires b.turns(w.turn).ok
    ensures w.turn + 2 <= Probed(b, w).turn <= w.turn + 5
  {
    hide PassingAll;
  }

  /**
   * connect_to_target under reset, as its turns decide it, from the one in
   * which nRST is first driven: on whichever port it ends up on.
   */
  lemma ConnectingUnderResetCatchesByTurns(b: Bench, w: World) returns (first: nat)
    requires Valid(w.core)
    ensures w.turn + 2 <= first <= w.turn + 5
    ensures var (v, r) := ConnectToTarget(b, w, false, UnderReset);
            r == DONE ==>
              && v.turn >= first + 8
              && (CaughtByThis(w.core, v.core) <==>
                  v.recorded == b.cpuPort && (w.core.enabled || SomeHaltLands(b, first, v.turn - 4)))
  {
    first := w.turn + 2;
    ConnectingEndsWithoutDebugExactly(b, w, false, UnderReset);
    if OkAt(b, w.turn) {
      ConnectingIsProbingFirst(b, w);
      ProbingTakesTurns(b, w);
      first := Probed(b, w).turn;
      CatchingFromTheProbed(b, w, Probed(b, w));
      hide ConnectToTarget, ConnectUnderReset, Probed, CaughtByThis, SomeHaltLands;
    }
  }

  lemma CatchingFromTheProbed(b: Bench, w: World, probed: World)
    requires Valid(w.core) && probed == Probed(b, w)
    ensures var (v, r) := ConnectUnderReset(b, probed);
            r == DONE ==>
              && v.turn >= probed.turn + 8
              && (CaughtByThis(w.core, v.core) <==>
                  v.recorded == b.cpuPort && (w.core.enabled || SomeHaltLands(b, probed.turn, v.turn - 4)))
  {
    hide ConnectUnderReset, Probed, CaughtByThis, NotThroughAircr, SomeHaltLands;
    EnteringKeepsDebug(b, w);
    UnderResetCatchesByTurns(b, probed);
    UnderResetByTurns(b, probed);
    UnderResetCatchesTheCoreExactly(b, probed);
    if ConnectUnderReset(b, probed).1 == DONE {
      CaughtByTheWhole(w.core, probed.core, ConnectUnderReset(b, probed).0.core);
    }
  }

  /** The port a CPU is taken to be on, by what each answers CPUID with. */
  function PortFound(b: Bench): nat {
    if Arm(b.cpuid(1)) && !Arm(b.cpuid(0)) then 1 else 0
  }

  lemma ProbedWhereTheCpuIs(b: Bench, w: World)
    requires b.v2 && w.recorded == 0 && w.openPort == 0 && AllWell(b, w.turn, Probed(b, w).turn) && b.turns(w.turn).ok
    ensures Probed(b, w).recorded == Probed(b, w).openPort == PortFound(b)
  {
    hide PassingAll, ProbeAccessPort;
    ProbingFindsTheCpu(b, EnterDebug(b, w, false).0);
  }

  /**
   * When all that is asked for is done, connecting under reset is good, ends
   * up on the port on which a CPU answers, and has caught the core exactly if
   * that is where it is.
   */
  lemma WellConnectedUnderReset(b: Bench, w: World)
    requires Valid(w.core) && b.v2 && w.recorded == 0 && w.openPort == 0
    requires AllWell(b, w.turn, ConnectToTarget(b, w, false, UnderReset).0.turn) && b.turns(w.turn).ok
    ensures var (v, r) := ConnectToTarget(b, w, false, UnderReset);
            && r == DONE && v.recorded == v.openPort == PortFound(b)
            && (CaughtByThis(w.core, v.core) <==> b.cpuPort == PortFound(b))
  {
    ConnectingIsProbingFirst(b, w);
    ProbingTakesTurns(b, w);
    var probed := Probed(b, w);
    UnderResetByTurns(b, probed);
    var v := ConnectUnderReset(b, probed).0;
    hide ConnectToTarget, ConnectUnderReset, Probed, CaughtByThis, NotThroughAircr, PortFound;
    ProbedWhereTheCpuIs(b, w);
    assert v.turn > probed.turn ==> OkAt(b, probed.turn) && OkAt(b, v.turn - 1);
    assert v.turn > probed.turn + 2 ==> OkAt(b, probed.turn + 2) && OkAt(b, probed.turn + 1);
    CatchingFromTheProbed(b, w, probed);
  }

  /** And connecting normally is good too, on that port, and has had the target reset by the host. */
  lemma WellConnectedNormally(b: Bench, w: World)
    requires Valid(w.core) && b.v2 && w.recorded == 0 && w.openPort == 0
    requires AllWell(b, w.turn, ConnectToTarget(b, w, false, Normal).0.turn) && b.turns(w.turn).ok
    ensures var (v, r) := ConnectToTarget(b, w, false, Normal);
            r == DONE && v.recorded == v.openPort == PortFound(b) && ResetByHost(v.core, w.core)
  {
    ConnectingIsProbingFirst(b, w);
    ProbingTakesTurns(b, w);
    var probed := Probed(b, w);
    NormalModeByTurns(b, probed);
    var v := ResetTheTarget(b, probed).0;
    assert OkAt(b, v.turn - 1) && OkAt(b, CommandTurn(b, probed.turn));
    hide ConnectToTarget, ResetTheTarget, Probed, ResetByHost, PortFound;
    ProbedWhereTheCpuIs(b, w);
    EnteringKeepsDebug(b, w);
    SinceLonger(v.core, probed.core, w.core);
  }
}

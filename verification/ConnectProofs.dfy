/** What each way of connecting promises, whatever the target does meanwhile and whichever requests fail. */
module ConnectProofs {
  import opened Basics
  import opened DebugUnit
  import opened ConnectModel

  // ---- Under reset -----------------------------------------------------

  /** Nothing but a halt request that gets through turns halting debug on. */
  predicate DebugOnlyByHalting(w: World, v: World) {
    && v.recorded == w.recorded
    && v.core.pinWired == w.core.pinWired
    && v.halts >= w.halts
    && (v.core.enabled <==> w.core.enabled || v.halts > w.halts)
  }

  lemma HaltTurnsDebugOn(b: Bench, w: World)
    requires Valid(w.core)
    ensures var v := Halt(b, w).0;
            && Valid(v.core) && DebugOnlyByHalting(w, v)
            && v.core.pinLow == w.core.pinLow
            && (v.halts > w.halts ==> w.recorded == b.cpuPort)
  {
    TimePasses(w.core, b.turns(w.turn).moments);
    var v := DHCSR_KEY + HALT + DEBUG_ENABLE;
    assert v / 0x1_0000 == DHCSR_KEY / 0x1_0000 && Bit(v, DEBUG_ENABLE) && Bit(v, HALT);
  }

  lemma PinKeepsDebug(b: Bench, w: World, asserted: bool)
    requires Valid(w.core)
    ensures var (v, ok) := ResetPin(b, w, asserted);
            && Valid(v.core) && DebugOnlyByHalting(w, v) && v.halts == w.halts
            && (ok ==> b.v2 && v.core.pinLow == asserted)
  {
    TimePasses(w.core, b.turns(w.turn).moments);
  }

  lemma {:induction false} CatchLoopTurnsDebugOn(b: Bench, w: World, until: nat)
    requires Valid(w.core)
    ensures var v := CatchLoop(b, w, until);
            && Valid(v.core) && DebugOnlyByHalting(w, v)
            && v.core.pinLow == w.core.pinLow
            && (v.halts > w.halts ==> w.recorded == b.cpuPort)
    decreases until - w.clock
  {
    if w.clock < until {
      HaltTurnsDebugOn(b, w);
      CatchLoopTurnsDebugOn(b, Slept(Halt(b, w).0, CATCH_INTERVAL), until);
    }
  }

  lemma {:induction false} CatchLoopRunsOut(b: Bench, w: World, until: nat)
    requires w.clock < until
    ensures var v := CatchLoop(b, w, until); var asked := v.turn - w.turn;
            v.clock >= until && 1 <= asked && CATCH_INTERVAL * (asked - 1) < until - w.clock
    decreases until - w.clock
  {
    hide PassingAll;
    var next := Slept(Halt(b, w).0, CATCH_INTERVAL);
    if next.clock < until {
      CatchLoopRunsOut(b, next, until);
    }
  }

  lemma ReadingKeepsDebug(b: Bench, w: World)
    requires Valid(w.core)
    ensures var v := SawReset(b, w).0;
            && Valid(v.core) && DebugOnlyByHalting(w, v) && v.halts == w.halts
            && v.core.pinLow == w.core.pinLow
  {
    TimePasses(w.core, b.turns(w.turn).moments);
  }

  /** Stopped at the reset vector with nothing executed, by the reset just asked for. */
  predicate CaughtAtTheVector(c: Core) {
    && c.halted && c.executed == 0
    && c.resets != [] && c.resets[|c.resets| - 1] == SystemRequest
  }

  /** And by a reset of the connection itself, not by one before it. */
  predicate CaughtByThis(before: Core, c: Core) {
    CaughtAtTheVector(c) && ResetSince(c, before)
  }

  /** None of the resets since went through AIRCR. */
  predicate NotThroughAircr(before: Core, c: Core) {
    && Extends(c.resets, before.resets)
    && forall i :: |before.resets| <= i < |c.resets| ==> c.resets[i] != SystemRequest
  }

  lemma NotThroughAircrTwice(c: Core, d: Core, e: Core)
    requires NotThroughAircr(c, d) && NotThroughAircr(d, e)
    ensures NotThroughAircr(c, e)
  {
    forall i | |c.resets| <= i < |e.resets| ensures e.resets[i] != SystemRequest {
      if i < |d.resets| {
        assert e.resets[i] == e.resets[..|d.resets|][i] == d.resets[i];
      }
    }
  }

  /** What time alone keeps, beside the debug state. */
  lemma TimeIsNotAircr(b: Bench, w: World)
    ensures NotThroughAircr(w.core, Now(b, w)) && HeldBy(Now(b, w)) == HeldBy(w.core)
    ensures Valid(w.core) ==> Valid(Now(b, w))
  {
    TimePasses(w.core, b.turns(w.turn).moments);
    PassingAddsOnlyItsOwn(w.core, b.turns(w.turn).moments);
  }

  lemma ArmingArms(b: Bench, w: World)
    requires Valid(w.core)
    ensures var v := WriteDebugRegister(b, w, DEMCR, VECTOR_CATCH).0;
            && Valid(v.core) && v.core.enabled == w.core.enabled && v.recorded == w.recorded && v.halts == w.halts
            && v.turn == w.turn + 1 && InReset(v.core) == InReset(w.core) && NotThroughAircr(w.core, v.core)
            && (v.core.catching <==> w.core.catching || Reaches(b, w))
  {
    TimeIsNotAircr(b, w);
    hide PassingAll;
  }

  /** The reset itself: if it gets there, the core is caught exactly if that was armed and halting debug is on. */
  lemma AskingResets(b: Bench, w: World)
    requires Valid(w.core)
    ensures var v := WriteDebugRegister(b, w, AIRCR, AIRCR_KEY + SYSTEM_RESET).0; var c := v.core;
            && Valid(c) && c.enabled == w.core.enabled && v.recorded == w.recorded && v.halts == w.halts
            && v.turn == w.turn + 1 && InReset(c) == InReset(w.core) && c.catching == w.core.catching
            && Extends(c.resets, w.core.resets)
            && (!Reaches(b, w) ==> NotThroughAircr(w.core, c))
            && (Reaches(b, w) ==>
                  && ResetSince(c, w.core) && c.resets[|c.resets| - 1] == SystemRequest && c.executed == 0
                  && (c.halted <==> c.enabled && c.catching && !InReset(c)))
  {
    TimeIsNotAircr(b, w);
    var v := AIRCR_KEY + SYSTEM_RESET;
    assert v / 0x1_0000 == AIRCR_KEY / 0x1_0000 && Bit(v, SYSTEM_RESET);
    hide PassingAll, Valid;
    RestartingKeepsValid(Now(b, w));
  }

  lemma RestartingKeepsValid(c: Core)
    requires Valid(c)
    ensures Valid(Restarted(c, SystemRequest))
  {
  }

  /** Afterwards, a core that is halted stays put, and one that is not is not halted by this. */
  lemma DisarmingHaltsNothing(b: Bench, w: World)
    requires Valid(w.core)
    ensures var v := WriteDebugRegister(b, w, DEMCR, 0).0;
            && v.core.enabled == w.core.enabled && v.recorded == w.recorded && v.halts == w.halts
            && v.turn == w.turn + 1 && NotThroughAircr(w.core, v.core)
            && (v.core.catching <==> w.core.catching && !Reaches(b, w))
            && (w.core.halted ==>
                  v.core.halted && v.core.executed == w.core.executed && v.core.resets == w.core.resets)
            && (!w.core.halted && !(w.core.enabled && w.core.catching && !InReset(w.core)) ==> !v.core.halted)
  {
    TimeIsNotAircr(b, w);
    if w.core.halted {
      HaltedStaysPut(w.core, b.turns(w.turn).moments);
    } else if !w.core.catching {
      NeverHaltsItself(w.core, b.turns(w.turn).moments);
    }
    hide PassingAll;
  }

  /** Whether the reset is caught: it gets there, it was armed, halting debug is on, and the pin is not holding it. */
  predicate WillBeCaught(b: Bench, w: World) {
    && Reaches(b, w.(turn := w.turn + 1))
    && (w.core.catching || Reaches(b, w))
    && w.core.enabled && !InReset(w.core)
  }

  /**
   * Resetting through AIRCR with the catch armed, on any port, with any
   * command set. On success, exactly when the core is caught by it, and
   * exactly when the catch is still armed; on failure, the latter.
   */
  lemma SoftwareResetCatchesExactly(b: Bench, w: World)
    requires Valid(w.core)
    ensures var (v, r) := SoftwareReset(b, w, true);
            && v.core.enabled == w.core.enabled && v.recorded == w.recorded && v.halts == w.halts
            && Extends(v.core.resets, w.core.resets)
            && (r.Ok? ==>
                  && v.turn == w.turn + 3
                  && (CaughtByThis(w.core, v.core) <==> WillBeCaught(b, w))
                  && (Reaches(b, w.(turn := w.turn + 1)) && (w.core.catching || Reaches(b, w)) ==>
                        (v.core.halted <==> WillBeCaught(b, w)))
                  && (v.core.catching <==>
                      (w.core.catching || Reaches(b, w)) && !Reaches(b, w.(turn := w.turn + 2))))
            && (r.Err? ==> (v.core.catching <==> w.core.catching || Reaches(b, w)))
  {
    hide WriteDebugRegister, Valid, NotThroughAircr, Extends, InReset;
    ArmingArms(b, w);
    var w1 := WriteDebugRegister(b, w, DEMCR, VECTOR_CATCH).0;
    AskingResets(b, w1);
    var w2 := Slept(WriteDebugRegister(b, w1, AIRCR, AIRCR_KEY + SYSTEM_RESET).0, RESET_SETTLE);
    DisarmingHaltsNothing(b, w2);
    var w3 := WriteDebugRegister(b, w2, DEMCR, 0).0;
    NotThroughExtends(w.core, w1.core);
    NotThroughExtends(w2.core, w3.core);
    ExtendsBoth(w.core, w1.core, w2.core);
    ExtendsBoth(w.core, w2.core, w3.core);
    if Reaches(b, w1) {
      ResetsAddUp(w.core, w1.core, w2.core);
    } else {
      NotThroughAircrTwice(w.core, w1.core, w2.core);
      NotThroughAircrTwice(w.core, w2.core, w3.core);
      NotCaughtUnlessThrough(w.core, w3.core);
    }
  }

  lemma NotThroughExtends(c: Core, d: Core)
    requires NotThroughAircr(c, d)
    ensures Extends(d.resets, c.resets)
  {
  }

  lemma ResetsAddUp(c: Core, d: Core, e: Core)
    requires Extends(d.resets, c.resets) && Extends(e.resets, d.resets)
    ensures |c.resets| <= |d.resets| <= |e.resets|
  {
  }

  lemma NotCaughtUnlessThrough(c: Core, d: Core)
    requires NotThroughAircr(c, d)
    ensures !CaughtByThis(c, d)
  {
  }

  /** Up to the final reset, nothing is decided but whether halting debug is on. */
  function BeforeTheCatch(b: Bench, w: World): World {
    var released := ResetPin(b, Slept(Halt(b, ResetPin(b, w, true).0).0, RESET_PULSE), false).0;
    SawReset(b, CatchLoop(b, released, released.clock + CATCH_WINDOW)).0
  }

  lemma BeforeTheCatchKeepsDebug(b: Bench, w: World)
    requires Valid(w.core) && ConnectUnderReset(b, w).1 != Err(IO)
    ensures var v := BeforeTheCatch(b, w);
            && b.v2 && ConnectUnderReset(b, w) == SoftwareReset(b, v, true)
            && Valid(v.core) && !v.core.pinLow && DebugOnlyByHalting(w, v)
            && (v.halts > w.halts ==> w.recorded == b.cpuPort)
  {
    hide ResetPin, Halt, CatchLoop, SawReset, SoftwareReset, Valid;
    PinKeepsDebug(b, w, true);
    var w1 := ResetPin(b, w, true).0;
    HaltTurnsDebugOn(b, w1);
    var w2 := Slept(Halt(b, w1).0, RESET_PULSE);
    PinKeepsDebug(b, w2, false);
    var w3 := ResetPin(b, w2, false).0;
    CatchLoopTurnsDebugOn(b, w3, w3.clock + CATCH_WINDOW);
    ReadingKeepsDebug(b, CatchLoop(b, w3, w3.clock + CATCH_WINDOW));
  }

  /** The catch is as it was, and nothing has gone through AIRCR. */
  predicate BarelyTouched(c: Core, d: Core) {
    d.catching == c.catching && NotThroughAircr(c, d)
  }

  lemma BarelyTouchedTwice(c: Core, d: Core, e: Core)
    requires BarelyTouched(c, d) && BarelyTouched(d, e)
    ensures BarelyTouched(c, e)
  {
    NotThroughAircrTwice(c, d, e);
  }

  lemma OneOtherReset(c: Core, d: Core)
    requires d.catching == c.catching && (d.resets == c.resets || d.resets == c.resets + [Pin])
    ensures BarelyTouched(c, d)
  {
  }

  lemma PinBarelyTouches(b: Bench, w: World, asserted: bool)
    ensures BarelyTouched(w.core, ResetPin(b, w, asserted).0.core)
  {
    TimeIsNotAircr(b, w);
    hide PassingAll, Valid, NotThroughAircr;
    if b.v2 {
      OneOtherReset(Now(b, w), ResetPin(b, w, asserted).0.core);
      BarelyTouchedTwice(w.core, Now(b, w), ResetPin(b, w, asserted).0.core);
    } else {
      OneOtherReset(w.core, w.core);
    }
  }

  lemma HaltBarelyTouches(b: Bench, w: World)
    ensures BarelyTouched(w.core, Halt(b, w).0.core) && Halt(b, w).0.clock >= w.clock
  {
    TimeIsNotAircr(b, w);
    DhcsrKeepsTheRest(Now(b, w), DHCSR_KEY + HALT + DEBUG_ENABLE);
    hide PassingAll, WriteDhcsr, NotThroughAircr;
    OneOtherReset(Now(b, w), Halt(b, w).0.core);
    BarelyTouchedTwice(w.core, Now(b, w), Halt(b, w).0.core);
  }

  lemma ReadBarelyTouches(b: Bench, w: World)
    ensures BarelyTouched(w.core, SawReset(b, w).0.core)
  {
    TimeIsNotAircr(b, w);
    hide PassingAll, NotThroughAircr;
    OneOtherReset(Now(b, w), SawReset(b, w).0.core);
    BarelyTouchedTwice(w.core, Now(b, w), SawReset(b, w).0.core);
  }

  lemma {:induction false} CatchLoopBarelyTouches(b: Bench, w: World, until: nat)
    ensures BarelyTouched(w.core, CatchLoop(b, w, until).core)
    decreases until - w.clock
  {
    hide Halt, BarelyTouched;
    if w.clock < until {
      HaltBarelyTouches(b, w);
      var next := Slept(Halt(b, w).0, CATCH_INTERVAL);
      CatchLoopBarelyTouches(b, next, until);
      BarelyTouchedTwice(w.core, next.core, CatchLoop(b, next, until).core);
    } else {
      OneOtherReset(w.core, w.core);
    }
  }

  lemma BeforeTheCatchBarelyTouches(b: Bench, w: World)
    ensures BarelyTouched(w.core, BeforeTheCatch(b, w).core)
  {
    hide ResetPin, Halt, CatchLoop, SawReset, BarelyTouched;
    PinBarelyTouches(b, w, true);
    var w1 := ResetPin(b, w, true).0;
    HaltBarelyTouches(b, w1);
    var w2 := Slept(Halt(b, w1).0, RESET_PULSE);
    PinBarelyTouches(b, w2, false);
    var w3 := ResetPin(b, w2, false).0;
    CatchLoopBarelyTouches(b, w3, w3.clock + CATCH_WINDOW);
    var w4 := CatchLoop(b, w3, w3.clock + CATCH_WINDOW);
    ReadBarelyTouches(b, w4);
    BarelyTouchedTwice(w.core, w1.core, w2.core);
    BarelyTouchedTwice(w.core, w2.core, w3.core);
    BarelyTouchedTwice(w.core, w3.core, w4.core);
    BarelyTouchedTwice(w.core, w4.core, SawReset(b, w4).0.core);
  }

  /** What was caught by the last reset was caught by the connection, and the other way round. */
  lemma CaughtByTheWhole(u: Core, before: Core, v: Core)
    requires NotThroughAircr(u, before) && Extends(v.resets, before.resets)
    ensures CaughtByThis(u, v) <==> CaughtByThis(before, v)
  {
    var n := |before.resets|;
    assert n > |u.resets| ==> before.resets[n - 1] != SystemRequest;
  }

  /** What it takes: the right port, and halting debug on, since before or by a halt of this connection. */
  predicate CanCatch(b: Bench, w: World, v: World) {
    w.recorded == b.cpuPort && (w.core.enabled || v.halts > w.halts)
  }

  /**
   * Connecting under reset. Whether or not nRST is wired, whatever runs in
   * between, and through whichever port: a connection that worked has caught
   * the core at its reset vector, by a reset of its own, exactly if it went
   * through the port with the CPU and halting debug was on before or some halt
   * request got through. On that port the core is not even halted otherwise.
   */
  lemma UnderResetCatchesTheCoreExactly(b: Bench, w: World)
    requires Valid(w.core)
    ensures var (v, r) := ConnectUnderReset(b, w);
            r.Ok? ==>
              && (CaughtByThis(w.core, v.core) <==> CanCatch(b, w, v))
              && (w.recorded == b.cpuPort ==> (v.core.halted <==> CanCatch(b, w, v)))
              && Extends(v.core.resets, w.core.resets)
  {
    hide ConnectUnderReset, SoftwareReset, BeforeTheCatch, CaughtByThis, NotThroughAircr, Extends;
    var (v, r) := ConnectUnderReset(b, w);
    if r.Ok? {
      BeforeTheCatchKeepsDebug(b, w);
      var before := BeforeTheCatch(b, w);
      BeforeTheCatchBarelyTouches(b, w);
      SoftwareResetCatchesExactly(b, before);
      GoodResetLands(b, before);
      CaughtByTheWhole(w.core, before.core, v.core);
      NotThroughExtends(w.core, before.core);
      ExtendsBoth(w.core, before.core, v.core);
    }
  }

  lemma GoodResetLands(b: Bench, w: World)
    requires b.v2 && SoftwareReset(b, w, true).1.Ok?
    ensures Lands(b, w) && Lands(b, w.(turn := w.turn + 1))
  {
    hide WriteRegister, PassingAll;
  }

  /** The catch it used is disarmed exactly if its very last request gets through; elsewhere it is as it was. */
  lemma UnderResetDisarmsTheCatchExactly(b: Bench, w: World)
    requires Valid(w.core)
    ensures var (v, r) := ConnectUnderReset(b, w);
            r.Ok? ==>
              && v.turn >= 1
              && (v.core.catching <==>
                  if w.recorded == b.cpuPort then !Lands(b, v.(turn := v.turn - 1)) else w.core.catching)
  {
    hide ConnectUnderReset, SoftwareReset, BeforeTheCatch, CaughtByThis, NotThroughAircr, Extends;
    if ConnectUnderReset(b, w).1.Ok? {
      BeforeTheCatchKeepsDebug(b, w);
      var before := BeforeTheCatch(b, w);
      BeforeTheCatchBarelyTouches(b, w);
      SoftwareResetCatchesExactly(b, before);
      GoodResetLands(b, before);
    }
  }

  /**
   * When the reset fails, the catch is left armed exactly if it was armed
   * before or the arming write reached the core, whatever was reported of it.
   */
  lemma FailedResetLeavesTheCatchArmedExactly(b: Bench, w: World)
    requires Valid(w.core) && ConnectUnderReset(b, w).1 == Err(TargetRefused)
    ensures ConnectUnderReset(b, w).0.core.catching <==> w.core.catching || Reaches(b, BeforeTheCatch(b, w))
  {
    hide ConnectUnderReset, SoftwareReset, BeforeTheCatch, CaughtByThis, NotThroughAircr, Extends;
    BeforeTheCatchKeepsDebug(b, w);
    BeforeTheCatchBarelyTouches(b, w);
    SoftwareResetCatchesExactly(b, BeforeTheCatch(b, w));
  }

  /** Once caught it stays caught, however long the host takes over the next thing. */
  lemma CaughtStaysCaught(c: Core, moments: seq<Moment>)
    requires CaughtAtTheVector(c)
    ensures CaughtAtTheVector(PassingAll(c, moments))
  {
    HaltedStaysPut(c, moments);
  }

  // ---- Through the wrong port ------------------------------------------

  /** A core that runs on, out of the reach of a programmer on another port. */
  predicate RunsOn(b: Bench, w: World) {
    w.recorded != b.cpuPort && !w.core.halted && !w.core.catching
  }

  lemma TimeRunsOn(b: Bench, w: World)
    requires RunsOn(b, w)
    ensures !Now(b, w).halted && !Now(b, w).catching
  {
    TimePasses(w.core, b.turns(w.turn).moments);
    NeverHaltsItself(w.core, b.turns(w.turn).moments);
  }

  lemma EachRequestRunsOn(b: Bench, w: World, asserted: bool, address: word, v: word)
    requires RunsOn(b, w)
    ensures RunsOn(b, ResetPin(b, w, asserted).0)
    ensures RunsOn(b, WriteDebugRegister(b, w, address, v).0)
    ensures RunsOn(b, SawReset(b, w).0)
  {
    TimeRunsOn(b, w);
    hide PassingAll, WriteRegister;
  }

  lemma {:induction false} CatchLoopRunsOn(b: Bench, w: World, until: nat)
    requires RunsOn(b, w)
    ensures RunsOn(b, CatchLoop(b, w, until))
    decreases until - w.clock
  {
    if w.clock < until {
      EachRequestRunsOn(b, w, true, DHCSR, DHCSR_KEY + HALT + DEBUG_ENABLE);
      HaltBarelyTouches(b, w);
      hide WriteDebugRegister;
      CatchLoopRunsOn(b, Slept(Halt(b, w).0, CATCH_INTERVAL), until);
    }
  }

  lemma SoftwareResetRunsOn(b: Bench, w: World)
    requires RunsOn(b, w)
    ensures RunsOn(b, SoftwareReset(b, w, true).0)
  {
    EachRequestRunsOn(b, w, true, DEMCR, VECTOR_CATCH);
    var w1 := WriteDebugRegister(b, w, DEMCR, VECTOR_CATCH).0;
    EachRequestRunsOn(b, w1, true, AIRCR, AIRCR_KEY + SYSTEM_RESET);
    var w2 := Slept(WriteDebugRegister(b, w1, AIRCR, AIRCR_KEY + SYSTEM_RESET).0, RESET_SETTLE);
    EachRequestRunsOn(b, w2, true, DEMCR, 0);
    hide WriteDebugRegister;
  }

  lemma UnderResetRunsOn(b: Bench, w: World)
    requires RunsOn(b, w)
    ensures RunsOn(b, ConnectUnderReset(b, w).0)
  {
    hide ResetPin, WriteDebugRegister, CatchLoop, SawReset, SoftwareReset, RunsOn;
    EachRequestRunsOn(b, w, true, AIRCR, 0);
    var (w1, low) := ResetPin(b, w, true);
    if low {
      EachRequestRunsOn(b, w1, true, DHCSR, DHCSR_KEY + HALT + DEBUG_ENABLE);
      var w2 := Slept(Halt(b, w1).0, RESET_PULSE);
      SleepingRunsOn(b, Halt(b, w1).0, RESET_PULSE);
      EachRequestRunsOn(b, w2, false, AIRCR, 0);
      var (w3, high) := ResetPin(b, w2, false);
      if high {
        CatchLoopRunsOn(b, w3, w3.clock + CATCH_WINDOW);
        var w4 := CatchLoop(b, w3, w3.clock + CATCH_WINDOW);
        EachRequestRunsOn(b, w4, true, AIRCR, 0);
        SoftwareResetRunsOn(b, SawReset(b, w4).0);
      }
    }
  }

  lemma SleepingRunsOn(b: Bench, w: World, microseconds: nat)
    requires RunsOn(b, w)
    ensures RunsOn(b, Slept(w, microseconds))
  {
  }

  /** From a turn on, every request is reported good. */
  ghost predicate AllReportedGood(b: Bench, from: nat) {
    forall i: nat :: i >= from ==> b.turns(i).ok
  }

  lemma {:induction false} CatchLoopTakesTurns(b: Bench, w: World, until: nat)
    ensures CatchLoop(b, w, until).turn >= w.turn
    decreases until - w.clock
  {
    if w.clock < until {
      hide PassingAll;
      CatchLoopTakesTurns(b, Slept(Halt(b, w).0, CATCH_INTERVAL), until);
    }
  }

  /** What the later command set reports of a connection under reset is good if each request of it was. */
  lemma GoodRequestsGoodConnection(b: Bench, w: World)
    requires b.v2 && AllReportedGood(b, w.turn)
    ensures ConnectUnderReset(b, w).1 == DONE
  {
    hide PassingAll, WriteRegister;
    var w1 := ResetPin(b, w, true).0;
    assert w1.turn == w.turn + 1 && b.turns(w.turn).ok;
    var w2 := Slept(Halt(b, w1).0, RESET_PULSE);
    assert w2.turn == w.turn + 2 && b.turns(w2.turn).ok;
    var w3 := ResetPin(b, w2, false).0;
    CatchLoopTakesTurns(b, w3, w3.clock + CATCH_WINDOW);
    var w4 := CatchLoop(b, w3, w3.clock + CATCH_WINDOW);
    hide CatchLoop;
    var w5 := SawReset(b, w4).0;
    assert w5.turn == w4.turn + 1 >= w.turn;
    assert b.turns(w5.turn).ok && b.turns(w5.turn + 1).ok;
    assert SoftwareReset(b, w5, true).1 == DONE;
  }

  /**
   * So with everything after probing reported good, a connection that probing
   * left on another port than the CPU's is good, and a core that was running
   * is running still: it was neither reset through AIRCR nor halted.
   */
  lemma GoodConnectionLeavesTheCoreRunning(b: Bench, w: World)
    requires Valid(w.core) && b.v2 && b.turns(w.turn).ok
    requires AllReportedGood(b, Probed(b, w).turn) && RunsOn(b, Probed(b, w))
    ensures var (v, r) := ConnectToTarget(b, w, false, UnderReset);
            r == DONE && !v.core.halted && !CaughtByThis(w.core, v.core)
  {
    ConnectingIsProbingFirst(b, w);
    hide ConnectToTarget, ConnectUnderReset, Probed;
    GoodRequestsGoodConnection(b, Probed(b, w));
    UnderResetRunsOn(b, Probed(b, w));
  }

  const GOOD: Turn := Turn([], true, true, true, 0, 0)

  /** Such a target: its CPU is on AP1, debug is enabled, and the one select of AP1 is lost. */
  lemma QuietFailure() returns (b: Bench, w: World)
    ensures Valid(w.core) && w.core.enabled && b.v2 && b.cpuPort == 1
    ensures forall i: nat :: i != 2 ==> b.turns(i) == GOOD
    ensures var (v, r) := ConnectToTarget(b, w, false, UnderReset);
            r == DONE && !v.core.halted && !CaughtByThis(w.core, v.core)
  {
    var core := Core(true, false, false, true, false, false, false, false, 0, 0, []);
    b := Bench(true, 1, port => if port == 1 then 0x410fc240 else 0, (i: nat) => if i == 2 then LOST else GOOD);
    w := World(core, 0, 0, 0, 0, 0);
    var entered := EnterDebug(b, w, false).0;
    var asked := ReadCpuId(b, entered).0;
    assert entered == w.(turn := 1) && asked == w.(turn := 2) && !ReadCpuId(b, entered).1;
    assert Probed(b, w) == w.(turn := 3);
    GoodConnectionLeavesTheCoreRunning(b, w);
  }

  // ---- Normal ----------------------------------------------------------

  predicate ResetSince(later: Core, earlier: Core) {
    |later.resets| > |earlier.resets|
  }

  /** A reset since that the host asked for: by pin, by command or through AIRCR, and not the target's own. */
  ghost predicate ResetByHost(later: Core, earlier: Core) {
    exists i :: |earlier.resets| <= i < |later.resets| && later.resets[i] != Own
  }

  /** A core whose sticky bit is set has been reset since a moment at which it was clear. */
  predicate Told(w: World, v: World) {
    && Valid(v.core)
    && Extends(v.core.resets, w.core.resets)
    && v.recorded == w.recorded
    && (v.core.sticky ==> w.core.sticky || ResetSince(v.core, w.core))
  }

  lemma PulseTells(b: Bench, w: World, asserted: bool)
    requires Valid(w.core)
    ensures Told(w, ResetPin(b, w, asserted).0)
  {
    TimePasses(w.core, b.turns(w.turn).moments);
  }

  lemma CommandTells(b: Bench, w: World)
    requires Valid(w.core)
    ensures Told(w, ResetCommand(b, w).0)
  {
    TimePasses(w.core, b.turns(w.turn).moments);
  }

  lemma ToldBoth(u: World, v: World, w: World)
    requires Told(u, v) && Told(v, w)
    ensures Told(u, w)
  {
  }

  /** The world in which the debug command is given, the pin having been tried. */
  function BeforeTheCommand(b: Bench, w: World): World {
    var (w1, low) := ResetPin(b, w, true);
    if low then ResetPin(b, Slept(w1, RESET_PULSE), false).0 else w1
  }

  lemma PulseAndResetTells(b: Bench, w: World)
    requires Valid(w.core)
    ensures Told(w, BeforeTheCommand(b, w)) && Told(w, PulseAndReset(b, w))
  {
    hide ResetCommand;
    PulseTells(b, w, true);
    var (w1, low) := ResetPin(b, w, true);
    var w2 := BeforeTheCommand(b, w);
    if low {
      PulseTells(b, Slept(w1, RESET_PULSE), false);
      hide ResetPin, Told;
      ToldBoth(w, Slept(w1, RESET_PULSE), w2);
    }
    hide ResetPin, Told;
    CommandTells(b, w2);
    ToldBoth(w, w2, PulseAndReset(b, w));
  }

  /** What is left after the read that is meant to clear the sticky bit. */
  function Cleared(b: Bench, w: World): World {
    SawReset(b, w).0
  }

  /**
   * The bit is left set, and so proves nothing later, exactly if it was set
   * already and the read did not arrive, or the target is held in reset.
   */
  lemma ClearingLeavesTheBitExactly(b: Bench, w: World)
    requires Valid(w.core)
    ensures Cleared(b, w).core.sticky <==> if ReadReaches(b, w) then InReset(w.core) else Now(b, w).sticky
    ensures Valid(Cleared(b, w).core) && Extends(Cleared(b, w).core.resets, w.core.resets)
    ensures Cleared(b, w).recorded == w.recorded && Cleared(b, w).turn == w.turn + 1
  {
    TimePasses(w.core, b.turns(w.turn).moments);
  }

  /** What the second read says can be relied on, and nothing set before it is left to say it. */
  predicate Believable(b: Bench, w: World) {
    ByItsOwnCommand(b, w) && b.cpuPort == 0 && !Cleared(b, w).core.sticky
  }

  lemma SeeingAResetMeansTheStickyBit(b: Bench, w: World)
    requires ReadReaches(b, w) && SawReset(b, w).1
    ensures Now(b, w).sticky
  {
    hide PassingAll;
    StickyBitReadsBack(Now(b, w));
    assert !Bit(DhcsrValue(Now(b, w)) % TOP_BYTE, RESET_SINCE);
  }

  lemma AircrResets(b: Bench, w: World)
    requires Reaches(b, w) && SoftwareReset(b, w, false).1.Ok?
    ensures SoftwareReset(b, w, false).0.core.resets == Now(b, w).resets + [SystemRequest]
  {
    var v := AIRCR_KEY + SYSTEM_RESET;
    assert v / 0x1_0000 == AIRCR_KEY / 0x1_0000 && Bit(v, SYSTEM_RESET);
  }

  /** Whether what a good connection is believed for was carried out: the second read, or the write to AIRCR. */
  predicate CarriedOut(b: Bench, w: World) {
    var w2 := PulseAndReset(b, Cleared(b, w));
    var (w3, saw) := SawReset(b, w2);
    if saw then ReadReaches(b, w2) else Reaches(b, w3)
  }

  /**
   * With any command set, on whichever port: if the first read left the bit
   * clear and what the connection is believed for was carried out, a good one
   * has seen a reset since the first read.
   */
  lemma NormalModeResetsIfCarriedOut(b: Bench, w: World)
    requires Valid(w.core) && !Cleared(b, w).core.sticky && CarriedOut(b, w) && ResetTheTarget(b, w).1.Ok?
    ensures ResetSince(ResetTheTarget(b, w).0.core, Cleared(b, w).core)
  {
    ClearingLeavesTheBitExactly(b, w);
    var w1 := Cleared(b, w);
    var w2 := PulseAndReset(b, w1);
    PulseAndResetTells(b, w1);
    TimePasses(w2.core, b.turns(w2.turn).moments);
    var (w3, saw) := SawReset(b, w2);
    hide PulseAndReset;
    if saw {
      SeeingAResetMeansTheStickyBit(b, w2);
    } else {
      AircrResets(b, w3);
      TimePasses(w3.core, b.turns(w3.turn).moments);
    }
  }

  /** The later command set through port zero, with the CPU there, answers for both. */
  lemma NormalModeResets(b: Bench, w: World)
    requires Valid(w.core) && Believable(b, w) && ResetTheTarget(b, w).1.Ok?
    ensures CarriedOut(b, w)
    ensures ResetSince(ResetTheTarget(b, w).0.core, Cleared(b, w).core)
  {
    ClearingLeavesTheBitExactly(b, w);
    PulseAndResetTells(b, Cleared(b, w));
    assert CarriedOut(b, w) by {
      hide PulseAndReset, PassingAll;
    }
    NormalModeResetsIfCarriedOut(b, w);
  }

  // ---- Who did the reset -----------------------------------------------

  /** The target leaves itself alone in these. */
  predicate Undisturbed(moments: seq<Moment>) {
    forall i :: 0 <= i < |moments| ==> moments[i] != ResetsItself
  }

  /** From a turn on, the target never resets itself. */
  ghost predicate Calm(b: Bench, from: nat) {
    forall i: nat :: i >= from ==> Undisturbed(b.turns(i).moments)
  }

  lemma {:induction false} UndisturbedIsNotReset(c: Core, moments: seq<Moment>)
    requires Undisturbed(moments)
    ensures PassingAll(c, moments).resets == c.resets
    decreases |moments|
  {
    if moments != [] {
      assert moments[0] != ResetsItself;
      UndisturbedIsNotReset(Passing(c, moments[0]), moments[1..]);
    }
  }

  /** The first reset since, if there has been any, was not the target's own. */
  predicate HostFirst(u: World, w: World) {
    && Extends(w.core.resets, u.core.resets)
    && (w.core.resets == u.core.resets || w.core.resets[|u.core.resets|] != Own)
  }

  /** And the next will not be either: the core is halted, or the target leaves itself alone. */
  ghost predicate Steady(b: Bench, u: World, w: World) {
    && Valid(w.core) && HostFirst(u, w)
    && (w.core.resets == u.core.resets ==> w.core.halted || Calm(b, w.turn))
  }

  lemma SteadyMoments(b: Bench, u: World, w: World)
    requires Steady(b, u, w)
    ensures var c := Now(b, w);
            && Valid(c) && Extends(c.resets, w.core.resets)
            && c.pinLow == w.core.pinLow && c.pinWired == w.core.pinWired
            && (w.core.resets == u.core.resets ==> c.resets == u.core.resets && (w.core.halted ==> c.halted))
            && (Calm(b, w.turn) ==> Calm(b, w.turn + 1))
  {
    var moments := b.turns(w.turn).moments;
    TimePasses(w.core, moments);
    if w.core.resets == u.core.resets {
      if w.core.halted {
        HaltedStaysPut(w.core, moments);
      } else {
        UndisturbedIsNotReset(w.core, moments);
      }
    }
  }

  lemma PinKeepsSteady(b: Bench, u: World, w: World, asserted: bool)
    requires Steady(b, u, w)
    ensures Steady(b, u, ResetPin(b, w, asserted).0)
  {
    SteadyMoments(b, u, w);
    hide PassingAll, Calm;
  }

  lemma CommandKeepsSteady(b: Bench, u: World, w: World)
    requires Steady(b, u, w)
    ensures Steady(b, u, ResetCommand(b, w).0)
  {
    SteadyMoments(b, u, w);
    hide PassingAll, Calm;
  }

  lemma ReadKeepsSteady(b: Bench, u: World, w: World)
    requires Steady(b, u, w)
    ensures Steady(b, u, SawReset(b, w).0)
  {
    SteadyMoments(b, u, w);
    hide PassingAll, Calm;
  }

  lemma PulseAndResetKeepsSteady(b: Bench, u: World, w: World)
    requires Steady(b, u, w)
    ensures Steady(b, u, PulseAndReset(b, w))
  {
    PinKeepsSteady(b, u, w, true);
    var (w1, low) := ResetPin(b, w, true);
    if low {
      PinKeepsSteady(b, u, Slept(w1, RESET_PULSE), false);
    }
    var w2 := BeforeTheCommand(b, w);
    hide ResetPin;
    CommandKeepsSteady(b, u, w2);
    hide ResetCommand;
  }

  /** A good connection whose target cannot reset itself first has been reset by the host since the first read. */
  lemma NormalModeResetsByHost(b: Bench, w: World)
    requires Valid(w.core) && Believable(b, w) && ResetTheTarget(b, w).1.Ok?
    requires Cleared(b, w).core.halted || Calm(b, w.turn + 1)
    ensures ResetByHost(ResetTheTarget(b, w).0.core, Cleared(b, w).core)
  {
    ClearingLeavesTheBitExactly(b, w);
    NormalModeResets(b, w);
    var w1 := Cleared(b, w);
    PulseAndResetKeepsSteady(b, w1, w1);
    var w2 := PulseAndReset(b, w1);
    ReadKeepsSteady(b, w1, w2);
    var (w3, saw) := SawReset(b, w2);
    hide PulseAndReset, Believable;
    var v := ResetTheTarget(b, w).0;
    if !saw {
      assert b.v2 && w3.recorded == b.cpuPort by {
        PulseAndResetTells(b, w1);
        BelievableIsConfirmed(b, w);
      }
      AircrResets(b, w3);
      SteadyMoments(b, w1, w3);
    }
    assert HostFirst(w1, v);
    assert v.core.resets[|w1.core.resets|] != Own;
  }

  lemma BelievableIsConfirmed(b: Bench, w: World)
    requires Believable(b, w)
    ensures b.v2 && w.recorded == b.cpuPort
  {
  }

  // ---- And exactly when ------------------------------------------------

  /** The same bench up to and including the turn numbered `last`. */
  ghost predicate SameUpTo(a: Bench, b: Bench, last: nat) {
    && a.v2 == b.v2 && a.cpuPort == b.cpuPort && a.cpuid == b.cpuid
    && forall i :: 0 <= i <= last ==> a.turns(i) == b.turns(i)
  }

  const LOST: Turn := Turn([], false, false, true, 0, 0)

  /** Reported good and not carried out, with a set bit in the reply. */
  const EMPTY_PROMISE: Turn := Turn([], true, false, true, RESET_SINCE, 0)

  /** What the second read of a normal connection that drove no pin is numbered, if the first was numbered `last`. */
  function SecondRead(b: Bench, last: nat): nat {
    last + if b.v2 then 3 else 2
  }

  /**
   * After which all is lost but the request numbered `kept`, which is an empty
   * promise. The target may reset itself first, and then does nothing.
   */
  function NothingMoreLands(b: Bench, last: nat, own: bool, kept: nat): Bench {
    b.(turns := (i: nat) =>
         if i <= last then b.turns(i)
         else if i == kept then EMPTY_PROMISE
         else if i == last + 1 && own then LOST.(moments := [ResetsItself])
         else LOST)
  }

  lemma {:induction false} PassingAddsOnlyItsOwn(c: Core, moments: seq<Moment>)
    ensures forall i :: |c.resets| <= i < |PassingAll(c, moments).resets| ==> PassingAll(c, moments).resets[i] == Own
    decreases |moments|
  {
    if moments != [] {
      var next := Passing(c, moments[0]);
      OneMomentAddsOnlyItsOwn(c, moments[0]);
      hide Passing;
      PassingAddsOnlyItsOwn(next, moments[1..]);
      TimePasses(next, moments[1..]);
      var later := PassingAll(next, moments[1..]).resets;
      forall i | |c.resets| <= i < |next.resets| ensures later[i] == Own {
        assert later[i] == later[..|next.resets|][i];
      }
    }
  }

  lemma OneMomentAddsOnlyItsOwn(c: Core, m: Moment)
    ensures Passing(c, m).resets in {c.resets, c.resets + [Own]}
  {
  }

  /** The pin and the command both lost: nothing has happened but what the target did itself. */
  lemma LostPulse(b: Bench, w: World, last: nat, own: bool, kept: nat)
    requires w.turn == last + 1 && kept >= SecondRead(b, last)
    ensures var a := NothingMoreLands(b, last, own, kept);
            var v := PulseAndReset(a, w);
            && v.core == (if own then Passing(w.core, ResetsItself) else w.core)
            && v.turn == SecondRead(b, last) && v.recorded == w.recorded
  {
    var a := NothingMoreLands(b, last, own, kept);
    var c := if own then Passing(w.core, ResetsItself) else w.core;
    assert Now(a, w) == c by {
      if own {
        var once := [ResetsItself];
        assert once[1..] == [];
        assert PassingAll(c, []) == c;
      }
    }
    var w1 := ResetPin(a, w, true).0;
    assert b.v2 ==> w1.core == c && w1.turn == last + 2 && Now(a, w1) == c;
    assert !b.v2 ==> w1 == w;
    hide PassingAll;
  }

  /** When the second read says a reset, the connection is good and nothing more is done. */
  lemma SeenIsDone(b: Bench, w: World)
    requires SawReset(b, PulseAndReset(b, Cleared(b, w))).1
    ensures ResetTheTarget(b, w) == (SawReset(b, PulseAndReset(b, Cleared(b, w))).0, DONE)
  {
  }

  /** What the second read says then: a set bit, wherever it comes from. */
  lemma EmptyPromiseIsBelieved(a: Bench, w: World)
    requires a.turns(w.turn) == EMPTY_PROMISE
    requires ByItsOwnCommand(a, w) && w.recorded == a.cpuPort ==> w.core.sticky
    ensures SawReset(a, w).1 && SawReset(a, w).0.core.resets == w.core.resets
  {
    StickyBitReadsBack(w.core);
    assert Bit(RESET_SINCE, RESET_SINCE);
  }

  /**
   * Whenever the second read is not to be relied on, or the target could reset
   * itself first, there is a way on from the first read that is reported as a
   * connection without any reset by the host.
   */
  lemma OtherwiseNothingNeedBeReset(b: Bench, w: World, calm: bool) returns (a: Bench)
    requires Valid(w.core)
    requires !Believable(b, w) || (!calm && !Cleared(b, w).core.halted)
    ensures SameUpTo(a, b, w.turn) && (calm ==> Calm(a, w.turn + 1))
    ensures ResetTheTarget(a, w).1.Ok?
    ensures !ResetByHost(ResetTheTarget(a, w).0.core, w.core)
  {
    var own := Believable(b, w);
    var kept := SecondRead(b, w.turn);
    a := NothingMoreLands(b, w.turn, own, kept);
    var w1 := Cleared(b, w);
    assert Cleared(a, w) == w1;
    ClearingLeavesTheBitExactly(b, w);
    LostPulse(b, w1, w.turn, own, kept);
    var w2 := PulseAndReset(a, w1);
    EmptyPromiseIsBelieved(a, w2);
    SeenIsDone(a, w);
    NoHostSoFar(b, w);
    hide ResetTheTarget, PulseAndReset, NothingMoreLands, Cleared;
  }

  /** Up to the first read nobody has reset the core but itself. */
  lemma NoHostSoFar(b: Bench, w: World)
    ensures Extends(Cleared(b, w).core.resets, w.core.resets)
    ensures forall i :: |w.core.resets| <= i < |Cleared(b, w).core.resets| ==> Cleared(b, w).core.resets[i] == Own
  {
    TimePasses(w.core, b.turns(w.turn).moments);
    PassingAddsOnlyItsOwn(w.core, b.turns(w.turn).moments);
  }

  /** On an original programmer, or on a port without the CPU, so does the reset through AIRCR that the fallback is. */
  lemma UnconfirmedFallbackPassesForAReset(b: Bench, w: World) returns (a: Bench)
    requires Valid(w.core) && (!b.v2 || w.recorded != b.cpuPort)
    ensures SameUpTo(a, b, w.turn) && Calm(a, w.turn + 1)
    ensures !SawReset(a, PulseAndReset(a, Cleared(a, w))).1
    ensures ResetTheTarget(a, w).1.Ok?
    ensures !ResetByHost(ResetTheTarget(a, w).0.core, w.core)
  {
    var kept := SecondRead(b, w.turn) + 1;
    a := NothingMoreLands(b, w.turn, false, kept);
    var w1 := Cleared(b, w);
    assert Cleared(a, w) == w1;
    ClearingLeavesTheBitExactly(b, w);
    LostPulse(b, w1, w.turn, false, kept);
    var w2 := PulseAndReset(a, w1);
    var w3 := SawReset(a, w2).0;
    assert w3.core == w2.core && w3.turn == kept && w3.recorded == w.recorded;
    NoHostSoFar(b, w);
    hide PulseAndReset, Cleared, SawReset;
    assert Now(a, w3) == w3.core;
    assert SoftwareReset(a, w3, false).0.core == w3.core;
  }

  /**
   * Connecting in the normal way resets the target, whatever follows the first
   * read, if and only if the later command set works through port zero, the
   * CPU is there, that read left no sticky bit, and the target cannot reset
   * itself: because it is halted, or, where `calm`, because it never does.
   */
  lemma NormalModeResetsExactly(b: Bench, w: World, calm: bool)
    requires Valid(w.core)
    ensures Believable(b, w) && (calm || Cleared(b, w).core.halted) <==>
              forall a :: SameUpTo(a, b, w.turn) && (calm ==> Calm(a, w.turn + 1)) && ResetTheTarget(a, w).1.Ok? ==>
                ResetByHost(ResetTheTarget(a, w).0.core, w.core)
  {
    hide ResetTheTarget;
    if Believable(b, w) && (calm || Cleared(b, w).core.halted) {
      forall a | SameUpTo(a, b, w.turn) && (calm ==> Calm(a, w.turn + 1)) && ResetTheTarget(a, w).1.Ok?
        ensures ResetByHost(ResetTheTarget(a, w).0.core, w.core)
      {
        assert Cleared(a, w) == Cleared(b, w);
        NormalModeResetsByHost(a, w);
        ClearingLeavesTheBitExactly(a, w);
        SinceLonger(ResetTheTarget(a, w).0.core, Cleared(a, w).core, w.core);
      }
    } else {
      var a := OtherwiseNothingNeedBeReset(b, w, calm);
    }
  }

  lemma SinceLonger(v: Core, u: Core, w: Core)
    requires ResetByHost(v, u) && |w.resets| <= |u.resets|
    ensures ResetByHost(v, w)
  {
    var i :| |u.resets| <= i < |v.resets| && v.resets[i] != Own;
    assert |w.resets| <= i < |v.resets|;
  }

  // ---- Which of them did it --------------------------------------------

  lemma ByHostInEither(u: Core, v: Core, w: Core)
    requires Extends(v.resets, u.resets) && Extends(w.resets, v.resets)
    ensures ResetByHost(w, u) <==> ResetByHost(v, u) || ResetByHost(w, v)
  {
    if ResetByHost(w, u) {
      var i :| |u.resets| <= i < |w.resets| && w.resets[i] != Own;
      if i < |v.resets| {
        assert w.resets[i] == w.resets[..|v.resets|][i] == v.resets[i];
      }
    }
    if ResetByHost(v, u) {
      var i :| |u.resets| <= i < |v.resets| && v.resets[i] != Own;
      assert w.resets[i] == w.resets[..|v.resets|][i] == v.resets[i];
    }
    if ResetByHost(w, v) {
      SinceLonger(w, v, u);
    }
  }

  predicate PinWouldReset(c: Core) {
    c.pinWired && !c.pinLow
  }

  lemma MomentsAreNotTheHost(b: Bench, w: World)
    ensures var c := Now(b, w);
            && Extends(c.resets, w.core.resets) && !ResetByHost(c, w.core)
            && c.pinLow == w.core.pinLow && c.pinWired == w.core.pinWired
  {
    TimePasses(w.core, b.turns(w.turn).moments);
    PassingAddsOnlyItsOwn(w.core, b.turns(w.turn).moments);
  }

  /** After some time, at most one reset more: by the host exactly if there is one. */
  lemma AtMostOneMore(b: Bench, w: World, v: Core, more: bool, cause: Cause)
    requires cause != Own && v.resets == Now(b, w).resets + if more then [cause] else []
    ensures Extends(v.resets, w.core.resets) && (ResetByHost(v, w.core) <==> more)
  {
    MomentsAreNotTheHost(b, w);
    hide PassingAll;
    var c := Now(b, w);
    if more {
      assert v.resets[|c.resets|] == cause;
    }
    ByHostInEither(w.core, c, v);
  }

  lemma PinResetsExactly(b: Bench, w: World, asserted: bool)
    ensures var v := ResetPin(b, w, asserted).0;
            && Extends(v.core.resets, w.core.resets)
            && (ResetByHost(v.core, w.core) <==> b.v2 && asserted && Lands(b, w) && PinWouldReset(w.core))
  {
    if b.v2 {
      MomentsAreNotTheHost(b, w);
      hide PassingAll, ResetByHost;
      AtMostOneMore(b, w, ResetPin(b, w, asserted).0.core, asserted && Lands(b, w) && PinWouldReset(w.core), Pin);
    }
  }

  lemma CommandResetsExactly(b: Bench, w: World)
    ensures var v := ResetCommand(b, w).0;
            && Extends(v.core.resets, w.core.resets)
            && (ResetByHost(v.core, w.core) <==> Lands(b, w))
  {
    hide PassingAll, ResetByHost;
    AtMostOneMore(b, w, ResetCommand(b, w).0.core, Lands(b, w), Command);
  }

  lemma FallbackResetsExactly(b: Bench, w: World)
    ensures var v := SoftwareReset(b, w, false).0;
            && Extends(v.core.resets, w.core.resets)
            && (ResetByHost(v.core, w.core) <==> Reaches(b, w))
  {
    hide PassingAll, ResetByHost;
    var v := AIRCR_KEY + SYSTEM_RESET;
    assert v / 0x1_0000 == AIRCR_KEY / 0x1_0000 && Bit(v, SYSTEM_RESET);
    AtMostOneMore(b, w, SoftwareReset(b, w, false).0.core, Reaches(b, w), SystemRequest);
  }

  lemma ReadingResetsNothing(b: Bench, w: World)
    ensures var v := SawReset(b, w).0;
            Extends(v.core.resets, w.core.resets) && !ResetByHost(v.core, w.core)
  {
    NoHostSoFar(b, w);
  }

  lemma PulseAndResetResetsExactly(b: Bench, w: World)
    ensures var v := PulseAndReset(b, w);
            && Extends(v.core.resets, w.core.resets)
            && (ResetByHost(v.core, w.core) <==>
                (b.v2 && Lands(b, w) && PinWouldReset(w.core)) || Lands(b, BeforeTheCommand(b, w)))
  {
    PinResetsExactly(b, w, true);
    var (w1, low) := ResetPin(b, w, true);
    var w2 := BeforeTheCommand(b, w);
    var v := PulseAndReset(b, w);
    if low {
      PinResetsExactly(b, Slept(w1, RESET_PULSE), false);
    }
    CommandResetsExactly(b, w2);
    hide ResetPin, ResetCommand, ResetByHost, Extends;
    if low {
      ByHostInEither(w.core, w1.core, w2.core);
    }
    ExtendsBoth(w.core, w1.core, w2.core);
    ExtendsBoth(w.core, w2.core, v.core);
    ByHostInEither(w.core, w2.core, v.core);
  }

  lemma ExtendsBoth(u: Core, v: Core, w: Core)
    requires v.resets == w.resets || Extends(w.resets, v.resets)
    requires Extends(v.resets, u.resets)
    ensures Extends(w.resets, u.resets)
  {
  }

  /**
   * Of every single connection, good or not: the host reset the target exactly
   * if driving the pin did, or the debug command got there, or nothing was
   * seen to have happened and the write to AIRCR then reached the core.
   */
  lemma NormalModeResetsByHostExactly(b: Bench, w: World)
    ensures var w1 := Cleared(b, w); var w2 := PulseAndReset(b, w1); var (w3, saw) := SawReset(b, w2);
            ResetByHost(ResetTheTarget(b, w).0.core, w.core) <==>
              || (b.v2 && Lands(b, w1) && PinWouldReset(w1.core))
              || Lands(b, BeforeTheCommand(b, w1))
              || (!saw && Reaches(b, w3))
  {
    ReadingResetsNothing(b, w);
    var w1 := Cleared(b, w);
    PulseAndResetResetsExactly(b, w1);
    var w2 := PulseAndReset(b, w1);
    ReadingResetsNothing(b, w2);
    var (w3, saw) := SawReset(b, w2);
    FallbackResetsExactly(b, w3);
    hide SawReset, PulseAndReset, SoftwareReset, ResetByHost, Extends, BeforeTheCommand;
    ExtendsBoth(w.core, w1.core, w2.core);
    ByHostInEither(w.core, w1.core, w2.core);
    ExtendsBoth(w.core, w2.core, w3.core);
    ByHostInEither(w.core, w2.core, w3.core);
    ByHostInEither(w.core, w3.core, ResetTheTarget(b, w).0.core);
  }

  // ---- The pin ---------------------------------------------------------

  lemma PinIsAsDriven(b: Bench, w: World, asserted: bool)
    requires b.v2
    ensures var (v, ok) := ResetPin(b, w, asserted);
            && v.core.pinLow == (if Lands(b, w) then asserted else w.core.pinLow)
            && v.turn == w.turn + 1 && ok == b.turns(w.turn).ok
  {
    TimePasses(w.core, b.turns(w.turn).moments);
  }

  lemma NothingElseDrivesThePin(b: Bench, w: World)
    ensures SawReset(b, w).0.core.pinLow == w.core.pinLow && SawReset(b, w).0.turn == w.turn + 1
    ensures ResetCommand(b, w).0.core.pinLow == w.core.pinLow
    ensures SoftwareReset(b, w, false).0.core.pinLow == w.core.pinLow
  {
    TimePasses(w.core, b.turns(w.turn).moments);
  }

  /**
   * Letting go of nRST again is not checked, and not tried if driving it was
   * reported to fail: so the target is left held in reset, whatever is
   * reported, exactly when the pin was low or went low and nothing that got
   * through let it go. The original command set leaves it as it was.
   */
  lemma NormalModeLeavesThePinLowExactly(b: Bench, w: World)
    ensures var t := w.turn + 1;
            ResetTheTarget(b, w).0.core.pinLow <==>
              if b.v2 then
                (w.core.pinLow || Lands(b, w.(turn := t))) && !(b.turns(t).ok && Lands(b, w.(turn := t + 1)))
              else w.core.pinLow
  {
    NoPinToDrive(b, Cleared(b, w));
    hide SawReset, ResetPin, ResetCommand, SoftwareReset;
    NothingElseDrivesThePin(b, w);
    var w1 := SawReset(b, w).0;
    var (w2, low) := ResetPin(b, w1, true);
    var w3 := if low then ResetPin(b, Slept(w2, RESET_PULSE), false).0 else w2;
    if b.v2 {
      PinIsAsDriven(b, w1, true);
      PinIsAsDriven(b, Slept(w2, RESET_PULSE), false);
    }
    NothingElseDrivesThePin(b, w3);
    var w4 := Slept(ResetCommand(b, w3).0, RESET_SETTLE);
    NothingElseDrivesThePin(b, w4);
    NothingElseDrivesThePin(b, SawReset(b, w4).0);
  }

  lemma NoPinToDrive(b: Bench, w: World)
    ensures !b.v2 ==> ResetPin(b, w, true) == (w, false)
  {
  }

  lemma WritingLeavesThePin(b: Bench, w: World, address: word, v: word)
    ensures WriteDebugRegister(b, w, address, v).0.core.pinLow == w.core.pinLow
    ensures WriteDebugRegister(b, w, address, v).0.turn == w.turn + 1
  {
    TimePasses(w.core, b.turns(w.turn).moments);
    DhcsrKeepsTheRest(Now(b, w), v);
    hide PassingAll, WriteDhcsr, Bit, Valid, Keyed;
    AircrIsNotThePin(Now(b, w), v);
    hide WriteAircr;
  }

  lemma AircrIsNotThePin(c: Core, v: word)
    ensures WriteAircr(c, v).pinLow == c.pinLow
  {
    hide Bit, Valid, Keyed;
  }

  lemma AskingToHaltLeavesThePin(b: Bench, w: World)
    ensures var v := Halt(b, w).0; v.core.pinLow == w.core.pinLow && v.turn == w.turn + 1
  {
    hide WriteDebugRegister;
    WritingLeavesThePin(b, w, DHCSR, DHCSR_KEY + HALT + DEBUG_ENABLE);
  }

  lemma {:induction false} CatchingLeavesThePin(b: Bench, w: World, until: nat)
    ensures CatchLoop(b, w, until).core.pinLow == w.core.pinLow
    decreases until - w.clock
  {
    if w.clock < until {
      hide Halt;
      AskingToHaltLeavesThePin(b, w);
      CatchingLeavesThePin(b, Slept(Halt(b, w).0, CATCH_INTERVAL), until);
    }
  }

  lemma CatchingTheResetLeavesThePin(b: Bench, w: World)
    ensures SoftwareReset(b, w, true).0.core.pinLow == w.core.pinLow
  {
    var w1 := WriteDebugRegister(b, w, DEMCR, VECTOR_CATCH).0;
    WritingLeavesThePin(b, w, DEMCR, VECTOR_CATCH);
    WritingLeavesThePin(b, w1, AIRCR, AIRCR_KEY + SYSTEM_RESET);
    var w2 := Slept(WriteDebugRegister(b, w1, AIRCR, AIRCR_KEY + SYSTEM_RESET).0, RESET_SETTLE);
    WritingLeavesThePin(b, w2, DEMCR, 0);
    hide WriteDebugRegister;
  }

  /**
   * Connecting under reset, good or not: the target is left held in reset
   * exactly when the pin was low or went low and letting it go was not reached
   * or lost. A connection that was good has let it go.
   */
  lemma UnderResetLeavesThePinLowExactly(b: Bench, w: World)
    ensures var t := w.turn; var (v, r) := ConnectUnderReset(b, w);
            && (v.core.pinLow <==>
                if b.v2 then (w.core.pinLow || Lands(b, w)) && !(b.turns(t).ok && Lands(b, w.(turn := t + 2)))
                else w.core.pinLow)
            && (v.core.pinLow ==> r == Err(IO))
  {
    NoPinToDrive(b, w);
    hide ResetPin, Halt, CatchLoop, SawReset, SoftwareReset;
    var (w1, low) := ResetPin(b, w, true);
    if b.v2 {
      PinIsAsDriven(b, w, true);
    }
    if low {
      AskingToHaltLeavesThePin(b, w1);
      var w2 := Slept(Halt(b, w1).0, RESET_PULSE);
      PinIsAsDriven(b, w2, false);
      var (w3, high) := ResetPin(b, w2, false);
      if high {
        var w4 := CatchLoop(b, w3, w3.clock + CATCH_WINDOW);
        CatchingLeavesThePin(b, w3, w3.clock + CATCH_WINDOW);
        NothingElseDrivesThePin(b, w4);
        CatchingTheResetLeavesThePin(b, SawReset(b, w4).0);
      }
    }
  }

  // ---- Hot plug --------------------------------------------------------

  /** Attaching and nothing else: all that happens to the core is the passing of time. */
  lemma HotPlugDisturbsNothing(b: Bench, w: World, jtag: bool) returns (moments: seq<Moment>)
    ensures var v := ConnectToTarget(b, w, jtag, HotPlug).0;
            v.core == PassingAll(w.core, moments) && v.halts == w.halts
  {
    moments := [];
    if !jtag {
      moments := b.turns(w.turn).moments;
      var w1 := EnterDebug(b, w, jtag).0;
      if b.turns(w.turn).ok {
        var more := ProbingTakesTime(b, w1);
        PassingBoth(w.core, moments, more);
        moments := moments + more;
      }
    }
  }

  lemma ProbingTakesTime(b: Bench, w: World) returns (moments: seq<Moment>)
    ensures var v := ProbeAccessPort(b, w);
            v.core == PassingAll(w.core, moments) && v.halts == w.halts
  {
    moments := b.turns(w.turn).moments;
    var (w1, onTheDefault) := ReadCpuId(b, w);
    if !onTheDefault && b.v2 {
      var second := b.turns(w1.turn).moments;
      PassingBoth(w.core, moments, second);
      moments := moments + second;
      var (w2, selected) := SelectAccessPort(b, w1, 1);
      if selected {
        var third := b.turns(w2.turn).moments;
        PassingBoth(w.core, moments, third);
        moments := moments + third;
        var (w3, onOne) := ReadCpuId(b, w2);
        if !onOne {
          var fourth := b.turns(w3.turn).moments;
          PassingBoth(w.core, moments, fourth);
          moments := moments + fourth;
        }
      }
    }
  }

  // ---- Access ports ----------------------------------------------------

  /**
   * Whatever fails, the port recorded and the port open agree, but for one
   * case: the last thing done was opening a port, and it took effect without
   * being reported.
   */
  lemma RecordedPortIsOpenExactly(b: Bench, w: World)
    requires w.recorded == 0 && w.openPort == 0
    ensures var v := ProbeAccessPort(b, w);
            && v.recorded in {0, 1} && v.turn > w.turn
            && (v.recorded == v.openPort <==>
                !((v.turn == w.turn + 2 || v.turn == w.turn + 4)
                  && !b.turns(v.turn - 1).ok && b.turns(v.turn - 1).lands))
  {
    hide PassingAll, NamesArm;
  }

  /** A programmer with no command for it stays on the port it is on. */
  lemma OriginalCommandSetStaysPut(b: Bench, w: World)
    requires !b.v2
    ensures ProbeAccessPort(b, w).recorded == w.recorded && ProbeAccessPort(b, w).openPort == w.openPort
  {
  }

  /** And it can never connect under reset, having done nothing to the core by finding that out. */
  lemma OriginalCommandSetCannotHoldInReset(b: Bench, w: World, jtag: bool) returns (moments: seq<Moment>)
    requires !b.v2
    ensures var (v, r) := ConnectToTarget(b, w, jtag, UnderReset);
            r.Err? && v.core == PassingAll(w.core, moments) && v.halts == w.halts
  {
    moments := HotPlugDisturbsNothing(b, w, jtag);
  }

  // ---- The whole connection --------------------------------------------

  lemma ProbingKeepsDebug(b: Bench, w: World)
    requires Valid(w.core)
    ensures var v := ProbeAccessPort(b, w);
            && Valid(v.core) && v.halts == w.halts && v.core.enabled == w.core.enabled
            && Extends(v.core.resets, w.core.resets)
  {
    var moments := ProbingTakesTime(b, w);
    TimePasses(w.core, moments);
  }

  /** What had been done by the time the mode was acted on. */
  function Probed(b: Bench, w: World): World {
    ProbeAccessPort(b, EnterDebug(b, w, false).0)
  }

  lemma ConnectingIsProbingFirst(b: Bench, w: World)
    requires b.turns(w.turn).ok
    ensures ConnectToTarget(b, w, false, Normal) == ResetTheTarget(b, Probed(b, w))
    ensures ConnectToTarget(b, w, false, UnderReset) == ConnectUnderReset(b, Probed(b, w))
  {
    hide ProbeAccessPort, ResetTheTarget, ConnectUnderReset;
  }

  lemma EnteringKeepsDebug(b: Bench, w: World)
    requires Valid(w.core)
    ensures var probed := Probed(b, w);
            && Valid(probed.core) && probed.core.enabled == w.core.enabled && probed.halts == w.halts
            && NotThroughAircr(w.core, probed.core)
  {
    var entered := EnterDebug(b, w, false).0;
    TimeIsNotAircr(b, w);
    ProbingKeepsDebug(b, entered);
    var moments := ProbingTakesTime(b, entered);
    PassingAddsOnlyItsOwn(entered.core, moments);
    hide PassingAll;
    NotThroughAircrTwice(w.core, entered.core, Probed(b, w).core);
  }

  /**
   * connect_to_target, end to end: a good connection under reset has caught
   * the core exactly if probing settled on the port with the CPU and halting
   * debug was on before or some halt request got through.
   */
  lemma ConnectingUnderResetCatchesExactly(b: Bench, w: World)
    requires Valid(w.core)
    ensures var (v, r) := ConnectToTarget(b, w, false, UnderReset);
            r.Ok? ==>
              (CaughtByThis(w.core, v.core) <==>
               Probed(b, w).recorded == b.cpuPort && (w.core.enabled || v.halts > w.halts))
  {
    var (v, r) := ConnectToTarget(b, w, false, UnderReset);
    if r.Ok? {
      ConnectingIsProbingFirst(b, w);
      EnteringKeepsDebug(b, w);
      hide ConnectToTarget, ConnectUnderReset, Probed, CaughtByThis, NotThroughAircr;
      var probed := Probed(b, w);
      UnderResetCatchesTheCoreExactly(b, probed);
      CaughtByTheWhole(w.core, probed.core, v.core);
    }
  }


  lemma SameProbing(a: Bench, b: Bench, w: World, last: nat)
    requires SameUpTo(a, b, last) && last >= Probed(b, w).turn
    ensures EnterDebug(a, w, false) == EnterDebug(b, w, false) && Probed(a, w) == Probed(b, w)
  {
    hide PassingAll;
    var entered := EnterDebug(b, w, false).0;
    assert a.turns(w.turn) == b.turns(w.turn);
    assert a.turns(w.turn + 1) == b.turns(w.turn + 1);
    var w1 := ReadCpuId(b, entered).0;
    assert ReadCpuId(a, entered) == ReadCpuId(b, entered);
    if w1.turn < Probed(b, w).turn && b.v2 {
      assert a.turns(w1.turn) == b.turns(w1.turn);
      assert a.turns(w1.turn + 1) == b.turns(w1.turn + 1);
      assert a.turns(w1.turn + 2) == b.turns(w1.turn + 2) || Probed(b, w).turn < w1.turn + 2;
    }
  }

  lemma ProbingIsNotTheHost(b: Bench, w: World)
    requires Valid(w.core)
    ensures var entered := EnterDebug(b, w, false).0.core; var probed := Probed(b, w).core;
            && Valid(probed) && Extends(probed.resets, entered.resets) && !ResetByHost(probed, entered)
  {
    TimePasses(w.core, b.turns(w.turn).moments);
    var entered := EnterDebug(b, w, false).0;
    ProbingKeepsDebug(b, entered);
    var moments := ProbingTakesTime(b, entered);
    PassingAddsOnlyItsOwn(entered.core, moments);
  }

  /**
   * connect_to_target, end to end: once debug is entered and the port chosen,
   * every good connection that can follow the first read has been reset by
   * the host strictly after debug was entered, exactly under the condition
   * NormalModeResetsExactly gives.
   */
  lemma ConnectingNormallyResetsExactly(b: Bench, w: World, calm: bool)
    requires Valid(w.core) && b.turns(w.turn).ok
    ensures var entered := EnterDebug(b, w, false).0; var probed := Probed(b, w);
            Believable(b, probed) && (calm || Cleared(b, probed).core.halted) <==>
              forall a :: SameUpTo(a, b, probed.turn) && (calm ==> Calm(a, probed.turn + 1))
                          && ConnectToTarget(a, w, false, Normal).1.Ok? ==>
                ResetByHost(ConnectToTarget(a, w, false, Normal).0.core, entered.core)
  {
    var entered := EnterDebug(b, w, false).0;
    var probed := Probed(b, w);
    ProbingIsNotTheHost(b, w);
    ProbedComesLater(b, w);
    forall a | SameUpTo(a, b, probed.turn)
      ensures ConnectToTarget(a, w, false, Normal) == ResetTheTarget(a, probed)
      ensures ResetByHost(ResetTheTarget(a, probed).0.core, entered.core) <==>
              ResetByHost(ResetTheTarget(a, probed).0.core, probed.core)
    {
      SameProbing(a, b, w, probed.turn);
      assert a.turns(w.turn) == b.turns(w.turn);
      ConnectingIsProbingFirst(a, w);
      ResettingOnlyAdds(a, probed);
      ByHostInEither(entered.core, probed.core, ResetTheTarget(a, probed).0.core);
    }
    hide ResetTheTarget, ConnectToTarget, Probed, Believable, Cleared, ResetByHost;
    NormalModeResetsExactly(b, probed, calm);
  }

  lemma ProbedComesLater(b: Bench, w: World)
    ensures Probed(b, w).turn > w.turn
  {
    hide PassingAll;
  }

  lemma ResettingOnlyAdds(b: Bench, w: World)
    ensures Extends(ResetTheTarget(b, w).0.core.resets, w.core.resets)
  {
    ReadingResetsNothing(b, w);
    var w1 := Cleared(b, w);
    PulseAndResetResetsExactly(b, w1);
    var w2 := PulseAndReset(b, w1);
    ReadingResetsNothing(b, w2);
    var w3 := SawReset(b, w2).0;
    FallbackResetsExactly(b, w3);
    hide SawReset, PulseAndReset, SoftwareReset, ResetByHost, Extends, BeforeTheCommand;
    ExtendsBoth(w.core, w1.core, w2.core);
    ExtendsBoth(w.core, w2.core, w3.core);
    ExtendsBoth(w.core, w3.core, ResetTheTarget(b, w).0.core);
  }

}

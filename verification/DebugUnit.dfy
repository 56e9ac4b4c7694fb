/**
 * The debug unit of a Cortex-M, and the core behind it, as a step machine.
 *
 * Sections C1.6.2 (DHCSR), C1.6.5 (DEMCR) and B3.2.6 (AIRCR) of the ARMv7-M
 * Architecture Reference Manual, as far as a debugger can see them. Debug
 * state outlives a reset of the core; only the core itself starts over.
 */
module DebugUnit {
  import opened Basics

  const DHCSR: word := 0xe000_edf0
  const DHCSR_KEY: word := 0xa05f_0000
  const DEBUG_ENABLE: word := 0x1
  const HALT: word := 0x2
  const STEP: word := 0x4
  const MASK_INTERRUPTS: word := 0x8
  const RESET_SINCE: word := 0x200_0000

  const AIRCR: word := 0xe000_ed0c
  const AIRCR_KEY: word := 0x05fa_0000
  const SYSTEM_RESET: word := 0x4

  const DEMCR: word := 0xe000_edfc
  const VECTOR_CATCH: word := 0x1

  const CPUID: word := 0xe000_ed00
  const IMPLEMENTER_ARM: byte := 0x41

  predicate NamesArm(cpuid: word) {
    cpuid / 0x100_0000 % 0x80 == IMPLEMENTER_ARM
  }

  /** What reset the core. */
  datatype Cause = Pin | Command | SystemRequest | Own

  datatype Core = Core(
    pinWired: bool,      // whether the probe's nRST reaches the target at all
    pinLow: bool,        // whether the probe is holding nRST low
    sticky: bool,        // S_RESET_ST
    enabled: bool,       // C_DEBUGEN
    halted: bool,        // in Debug state
    masked: bool,        // C_MASKINTS
    catching: bool,      // VC_CORERESET
    pending: bool,       // an interrupt is waiting to be taken
    executed: nat,       // instructions since the last reset
    interrupts: nat,     // interrupts taken since the last reset
    resets: seq<Cause>)  // every reset there has been

  predicate InReset(c: Core) {
    c.pinWired && c.pinLow
  }

  /** Debug state needs halting debug, and a core in reset is doing nothing and says so. */
  predicate Valid(c: Core) {
    && (c.halted ==> c.enabled)
    && (InReset(c) ==> !c.halted && c.executed == 0 && c.sticky)
  }

  /** The core comes out of reset: at its vector, and caught there if that was arranged. */
  function Restarted(c: Core, cause: Cause): (r: Core)
    ensures Valid(c) ==> Valid(r)
  {
    c.(sticky := true, executed := 0, interrupts := 0, pending := false,
       halted := c.enabled && c.catching && !InReset(c), resets := c.resets + [cause])
  }

  function DriveLow(c: Core): (r: Core)
    ensures Valid(c) ==> Valid(r)
  {
    if c.pinLow || !c.pinWired then c.(pinLow := true)
    else Restarted(c.(pinLow := true), Pin)
  }

  function DriveHigh(c: Core): (r: Core)
    ensures Valid(c) ==> Valid(r)
  {
    if InReset(c) then c.(pinLow := false, halted := c.enabled && c.catching)
    else c.(pinLow := false)
  }

  /** Some registers take a write only if its top half is their key. */
  predicate Keyed(v: word, key: word) {
    v / 0x1_0000 == key / 0x1_0000
  }

  /** Halting, stepping and running, where halting debug is on. */
  function Directed(c: Core, v: word): (r: Core)
    ensures Valid(c) && c.enabled ==> Valid(r)
  {
    if InReset(c) then c
    else if Bit(v, HALT) then c.(halted := true)
    else if Bit(v, STEP) && c.halted then Retired(c, 1).(halted := true)
    else c.(halted := false)
  }

  function WriteDhcsr(c: Core, v: word): (r: Core)
    ensures Valid(c) ==> Valid(r)
  {
    if !Keyed(v, DHCSR_KEY) then c
    else if !Bit(v, DEBUG_ENABLE) then c.(enabled := false, halted := false, masked := false)
    else Directed(c.(enabled := true, masked := Bit(v, MASK_INTERRUPTS)), v)
  }

  /** What DHCSR has no say in: the pin, the catch, and which resets there have been. */
  predicate SameBeside(c: Core, d: Core) {
    d.pinLow == c.pinLow && d.pinWired == c.pinWired && d.catching == c.catching && d.resets == c.resets
  }

  lemma DirectingKeepsTheRest(c: Core, v: word)
    ensures SameBeside(c, Directed(c, v))
  {
    hide Valid, InReset;
    if InReset(c) {
    } else if Bit(v, HALT) {
    } else if Bit(v, STEP) && c.halted {
    }
  }

  lemma DhcsrKeepsTheRest(c: Core, v: word)
    ensures SameBeside(c, WriteDhcsr(c, v))
  {
    hide Bit, Valid, Keyed, Directed;
    DirectingKeepsTheRest(c.(enabled := true, masked := Bit(v, MASK_INTERRUPTS)), v);
  }

  function WriteDemcr(c: Core, v: word): Core {
    c.(catching := Bit(v, VECTOR_CATCH))
  }

  function WriteAircr(c: Core, v: word): (r: Core)
    ensures Valid(c) ==> Valid(r)
  {
    if Keyed(v, AIRCR_KEY) && Bit(v, SYSTEM_RESET) then Restarted(c, SystemRequest) else c
  }

  function WriteRegister(c: Core, address: word, v: word): (r: Core)
    ensures Valid(c) ==> Valid(r)
  {
    if address == DHCSR then WriteDhcsr(c, v)
    else if address == DEMCR then WriteDemcr(c, v)
    else if address == AIRCR then WriteAircr(c, v)
    else c
  }

  /** What DHCSR reads as; only the sticky bit is told apart from the rest here. */
  function DhcsrValue(c: Core): word {
    (if c.sticky then RESET_SINCE else 0)
    + (if c.enabled then DEBUG_ENABLE else 0) + (if c.halted then HALT else 0)
    + (if c.masked then MASK_INTERRUPTS else 0)
  }

  /** Reading DHCSR clears the sticky bit, unless the core is in reset still. */
  function AfterReadOfDhcsr(c: Core): Core {
    c.(sticky := InReset(c))
  }

  lemma StickyBitReadsBack(c: Core)
    ensures Bit(DhcsrValue(c), RESET_SINCE) == c.sticky
  {
  }

  /** `n` instructions go by, and a waiting interrupt is taken unless it is masked. */
  function Retired(c: Core, n: nat): Core {
    if n == 0 then c
    else if c.pending && !(c.enabled && c.masked) then
      c.(executed := c.executed + n, interrupts := c.interrupts + 1, pending := false)
    else c.(executed := c.executed + n)
  }

  /** The three registers, by the addresses, keys and bits the architecture gives them. */
  lemma DhcsrIsTheArchitectures(c: Core)
    ensures var d := WriteRegister(c, 0xe000_edf0, 0xa05f_0003); d.enabled && !d.masked && (InReset(c) || d.halted)
    ensures WriteRegister(c, 0xe000_edf0, 0xa05f_0009).masked && !WriteRegister(c, 0xe000_edf0, 0xa05f_0000).enabled
    ensures WriteRegister(c, 0xe000_edf0, 0x0003) == c
  {
    hide Valid, Retired;
  }

  lemma DemcrAndAircrAreTheArchitectures(c: Core)
    ensures WriteRegister(c, 0xe000_edfc, 0x1) == c.(catching := true)
    ensures WriteRegister(c, 0xe000_edfc, 0x0) == c.(catching := false)
    ensures WriteRegister(c, 0xe000_ed0c, 0x05fa_0004).resets == c.resets + [SystemRequest]
    ensures WriteRegister(c, 0xe000_ed0c, 0x0004) == c
  {
    hide Valid, InReset, WriteDhcsr;
  }

  lemma DhcsrReadsAsTheArchitectures(c: Core)
    ensures DhcsrValue(c) / 0x200_0000 % 2 == 1 <==> c.sticky
    ensures DhcsrValue(c) / 2 % 2 == 1 <==> c.halted
    ensures DhcsrValue(c) % 2 == 1 <==> c.enabled
  {
  }

  // ---- The environment -------------------------------------------------

  /** What the target can do by itself between two things the host does. */
  datatype Moment = Executes(n: nat) | Interrupted | ResetsItself

  function Passing(c: Core, m: Moment): (r: Core)
    ensures Valid(c) ==> Valid(r)
  {
    match m
    case Interrupted => c.(pending := true)
    case Executes(n) => if c.halted || InReset(c) then c else Retired(c, n)
    case ResetsItself => if c.halted || InReset(c) then c else Restarted(c, Own)
  }

  function PassingAll(c: Core, moments: seq<Moment>): (r: Core)
    ensures Valid(c) ==> Valid(r)
    decreases |moments|
  {
    if moments == [] then c else PassingAll(Passing(c, moments[0]), moments[1..])
  }

  /** The debug state the host put in place, which nothing the target does can change. */
  datatype Held = Held(pinWired: bool, pinLow: bool, enabled: bool, masked: bool, catching: bool)

  function HeldBy(c: Core): Held {
    Held(c.pinWired, c.pinLow, c.enabled, c.masked, c.catching)
  }

  predicate Extends(longer: seq<Cause>, shorter: seq<Cause>) {
    |shorter| <= |longer| && longer[..|shorter|] == shorter
  }

  /** What holds between a core and the same core later, if the host does nothing. */
  predicate Later(c: Core, d: Core) {
    && HeldBy(d) == HeldBy(c)
    && Extends(d.resets, c.resets)
    && (c.sticky ==> d.sticky)
    && (|d.resets| > |c.resets| ==> d.sticky)
    && (d.resets == c.resets ==> d.sticky == c.sticky && d.executed >= c.executed && d.halted == c.halted)
  }

  lemma LaterStill(c: Core, d: Core, e: Core)
    requires Later(c, d) && Later(d, e)
    ensures Later(c, e)
  {
  }

  lemma OneMoment(c: Core, m: Moment)
    ensures Later(c, Passing(c, m))
  {
  }

  lemma {:induction false} TimePasses(c: Core, moments: seq<Moment>)
    ensures Later(c, PassingAll(c, moments))
    decreases |moments|
  {
    if moments != [] {
      OneMoment(c, moments[0]);
      TimePasses(Passing(c, moments[0]), moments[1..]);
      LaterStill(c, Passing(c, moments[0]), PassingAll(c, moments));
    }
  }

  /** A halted core stays where it is, however long it is left. */
  lemma {:induction false} HaltedStaysPut(c: Core, moments: seq<Moment>)
    requires c.halted
    ensures PassingAll(c, moments) == c.(pending := PassingAll(c, moments).pending)
    decreases |moments|
  {
    if moments != [] {
      hide Restarted, Retired;
      var next := Passing(c, moments[0]);
      match moments[0] {
        case Interrupted => assert next == c.(pending := true);
        case Executes(_) => assert next == c;
        case ResetsItself => assert next == c;
      }
      HaltedStaysPut(next, moments[1..]);
    }
  }

  lemma {:induction false} PassingBoth(c: Core, a: seq<Moment>, b: seq<Moment>)
    ensures PassingAll(PassingAll(c, a), b) == PassingAll(c, a + b)
    decreases |a|
  {
    if a == [] {
      assert a + b == b;
    } else {
      assert (a + b)[1..] == a[1..] + b;
      PassingBoth(Passing(c, a[0]), a[1..], b);
    }
  }

  /** A core that is running stays so, unless a reset of its own is caught. */
  lemma {:induction false} NeverHaltsItself(c: Core, moments: seq<Moment>)
    requires !c.halted && !c.catching
    ensures !PassingAll(c, moments).halted
    decreases |moments|
  {
    if moments != [] {
      NeverHaltsItself(Passing(c, moments[0]), moments[1..]);
    }
  }
}

/**
 * What connecting to a target comes to, against a debug unit
 * that keeps running between any two things the host does.
 */
module ConnectModel {
  import opened Basics
  import opened DebugUnit

  // ---- The programmer, and what stands behind it -----------------------

  /**
   * What becomes of one thing the host asks for: what the target does first,
   * whether success is reported, whether the request takes effect where the
   * report does not settle that, whether all of the reply arrives, what is in
   * a reply that says something else than it should, and how long it took
   * beyond what was asked.
   */
  datatype Turn = Turn(moments: seq<Moment>, ok: bool, lands: bool, whole: bool, noise: word, dawdle: nat)

  /**
   * Everything that does not change: whether this is the later command set,
   * which port the CPU is on, what each port answers CPUID with, and the turns
   * still to come.
   */
  datatype Bench = Bench(v2: bool, cpuPort: nat, cpuid: nat -> word, turns: nat -> Turn)

  /** `recorded` is the port the programmer works through, `openPort` the one its firmware opened last. */
  datatype World = World(core: Core, recorded: nat, openPort: nat, turn: nat, clock: nat, halts: nat)

  function Now(b: Bench, w: World): Core {
    PassingAll(w.core, b.turns(w.turn).moments)
  }

  /** The later command set answers for what was done; the original one only for having been told. */
  predicate Lands(b: Bench, w: World) {
    b.turns(w.turn).lands || (b.v2 && b.turns(w.turn).ok)
  }

  /** Registers read by their own command are answered for. Read as memory, on any port but zero, they are not. */
  predicate ByItsOwnCommand(b: Bench, w: World) {
    b.v2 && w.recorded == 0
  }

  predicate ReadLands(b: Bench, w: World) {
    b.turns(w.turn).lands || (ByItsOwnCommand(b, w) && b.turns(w.turn).ok)
  }

  /** A debug register access gets to the CPU only through the port the CPU is on. */
  predicate Reaches(b: Bench, w: World) {
    Lands(b, w) && w.recorded == b.cpuPort
  }

  predicate ReadReaches(b: Bench, w: World) {
    ReadLands(b, w) && w.recorded == b.cpuPort
  }

  function Took(b: Bench, w: World, core: Core): World {
    w.(core := core, turn := w.turn + 1, clock := w.clock + b.turns(w.turn).dawdle)
  }

  /** A write that asks for a halt, which is what turns halting debug on. */
  predicate AsksToHalt(address: word, v: word) {
    address == DHCSR && v == DHCSR_KEY + HALT + DEBUG_ENABLE
  }

  function WriteDebugRegister(b: Bench, w: World, address: word, v: word): (World, bool) {
    var core := Now(b, w);
    (Took(b, w, if Reaches(b, w) then WriteRegister(core, address, v) else core)
       .(halts := w.halts + if Reaches(b, w) && AsksToHalt(address, v) then 1 else 0),
     b.turns(w.turn).ok)
  }

  /** What is in a register, as far as anybody here looks: any port has a CPUID, and only the CPU's has a DHCSR. */
  function RegisterValue(b: Bench, w: World, address: word): word {
    if address == CPUID then b.cpuid(w.recorded)
    else if address == DHCSR && w.recorded == b.cpuPort then DhcsrValue(Now(b, w))
    else b.turns(w.turn).noise
  }

  const TOP_BYTE: nat := 0x100_0000

  /**
   * A read as memory that the target refused is reported good and says
   * anything. One by the register's own command says what is there, but what
   * did not arrive of it is zero, its top byte first of all.
   */
  function ReadDebugRegister(b: Bench, w: World, address: word): (World, Option<word>) {
    var turn := b.turns(w.turn);
    var value := if ReadLands(b, w) then RegisterValue(b, w, address) else turn.noise;
    var arrived: word := if ByItsOwnCommand(b, w) && !turn.whole then value % TOP_BYTE else value;
    (Took(b, w, if ReadReaches(b, w) && address == DHCSR then AfterReadOfDhcsr(Now(b, w)) else Now(b, w)),
     if turn.ok then Some(arrived) else None)
  }

  /** Whether the core on the current port answers CPUID as one of ARM's. */
  function ReadCpuId(b: Bench, w: World): (World, bool) {
    var (next, raw) := ReadDebugRegister(b, w, CPUID);
    (next, raw.Some? && NamesArm(raw.value))
  }

  function Halt(b: Bench, w: World): (World, bool) {
    WriteDebugRegister(b, w, DHCSR, DHCSR_KEY + HALT + DEBUG_ENABLE)
  }

  /** Driving nRST, for which there is only a later command. */
  function ResetPin(b: Bench, w: World, asserted: bool): (World, bool) {
    if !b.v2 then (w, false)
    else
      var core := Now(b, w);
      (Took(b, w, if !Lands(b, w) then core else if asserted then DriveLow(core) else DriveHigh(core)),
       b.turns(w.turn).ok)
  }

  function ResetCommand(b: Bench, w: World): (World, bool) {
    var core := Now(b, w);
    (Took(b, w, if Lands(b, w) then Restarted(core, Command) else core), b.turns(w.turn).ok)
  }

  /** Opening an access port, which the original command set cannot do either. */
  function SelectAccessPort(b: Bench, w: World, ap: nat): (World, bool) {
    if !b.v2 then (w, false)
    else
      var ok := b.turns(w.turn).ok;
      (Took(b, w, Now(b, w)).(recorded := if ok then ap else w.recorded,
                              openPort := if Lands(b, w) then ap else w.openPort), ok)
  }

  function EnterDebug(b: Bench, w: World, jtag: bool): (World, bool) {
    if jtag then (w, false) else (Took(b, w, Now(b, w)), b.turns(w.turn).ok)
  }

  function Slept(w: World, microseconds: nat): World {
    w.(clock := w.clock + microseconds)
  }

  // ---- The sequences ---------------------------------------------------

  const RESET_PULSE: nat := 20
  const CATCH_WINDOW: nat := 10_000
  const CATCH_INTERVAL: nat := 100
  const RESET_SETTLE: nat := 10_000

  function ProbeAccessPort(b: Bench, w: World): World {
    var (w1, onTheDefault) := ReadCpuId(b, w);
    if onTheDefault then w1
    else
      var (w2, selected) := SelectAccessPort(b, w1, 1);
      if !selected then w2
      else
        var (w3, onOne) := ReadCpuId(b, w2);
        if onOne then w3 else SelectAccessPort(b, w3, 0).0
  }

  function SawReset(b: Bench, w: World): (World, bool) {
    var (next, dhcsr) := ReadDebugRegister(b, w, DHCSR);
    (next, dhcsr.Some? && Bit(dhcsr.value, RESET_SINCE))
  }

  function SoftwareReset(b: Bench, w: World, haltOnReset: bool): (World, VoidResult) {
    var (w1, armed) := if haltOnReset then WriteDebugRegister(b, w, DEMCR, VECTOR_CATCH) else (w, true);
    if !armed then (w1, Err(TargetRefused))
    else
      var (w2, asked) := WriteDebugRegister(b, w1, AIRCR, AIRCR_KEY + SYSTEM_RESET);
      if !asked then (w2, Err(TargetRefused))
      else
        var w3 := Slept(w2, RESET_SETTLE);
        (if haltOnReset then WriteDebugRegister(b, w3, DEMCR, 0).0 else w3, DONE)
  }

  /** Everything up to the point where it is known whether the pin did anything. */
  function PulseAndReset(b: Bench, w: World): World {
    var (w1, low) := ResetPin(b, w, true);
    var w2 := if low then ResetPin(b, Slept(w1, RESET_PULSE), false).0 else w1;
    Slept(ResetCommand(b, w2).0, RESET_SETTLE)
  }

  function ResetTheTarget(b: Bench, w: World): (World, VoidResult) {
    var w1 := SawReset(b, w).0;
    var (w2, wired) := SawReset(b, PulseAndReset(b, w1));
    if wired then (w2, DONE) else SoftwareReset(b, w2, false)
  }

  /** Asking the core to halt until the window closes; each turn takes the interval at least. */
  function CatchLoop(b: Bench, w: World, until: nat): World
    decreases until - w.clock
  {
    if w.clock >= until then w else CatchLoop(b, Slept(Halt(b, w).0, CATCH_INTERVAL), until)
  }

  function ConnectUnderReset(b: Bench, w: World): (World, VoidResult) {
    var (w1, low) := ResetPin(b, w, true);
    if !low then (w1, Err(IO))
    else
      var w2 := Slept(Halt(b, w1).0, RESET_PULSE);
      var (w3, high) := ResetPin(b, w2, false);
      if !high then (w3, Err(IO))
      else
        var w4 := CatchLoop(b, w3, w3.clock + CATCH_WINDOW);
        SoftwareReset(b, SawReset(b, w4).0, true)
  }

  datatype ResetMode = Normal | UnderReset | HotPlug

  function ConnectToTarget(b: Bench, w: World, jtag: bool, mode: ResetMode): (World, VoidResult) {
    var (w1, entered) := EnterDebug(b, w, jtag);
    if !entered then (w1, Err(TargetUnknown))
    else
      var w2 := ProbeAccessPort(b, w1);
      match mode
      case HotPlug => (w2, DONE)
      case UnderReset => ConnectUnderReset(b, w2)
      case Normal => ResetTheTarget(b, w2)
  }
}

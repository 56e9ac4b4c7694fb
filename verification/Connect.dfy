/** Connecting: the calls as they are made, one after another. */
module Connect {
  import opened Basics
  import opened DebugUnit
  import opened ConnectModel

  class Programmer {
    const bench: Bench
    var world: World

    constructor (bench: Bench, world: World)
      ensures this.bench == bench && this.world == world
    {
      this.bench := bench;
      this.world := world;
    }

    method EnterDebug(jtag: bool) returns (ok: bool)
      modifies this
      ensures (world, ok) == ConnectModel.EnterDebug(bench, old(world), jtag)
    {
      var (next, answer) := ConnectModel.EnterDebug(bench, world, jtag);
      world, ok := next, answer;
    }

    method SelectAccessPort(ap: nat) returns (ok: bool)
      modifies this
      ensures (world, ok) == ConnectModel.SelectAccessPort(bench, old(world), ap)
    {
      var (next, answer) := ConnectModel.SelectAccessPort(bench, world, ap);
      world, ok := next, answer;
    }

    method ReadDebugRegister(address: word) returns (value: Option<word>)
      modifies this
      ensures (world, value) == ConnectModel.ReadDebugRegister(bench, old(world), address)
    {
      var (next, answer) := ConnectModel.ReadDebugRegister(bench, world, address);
      world, value := next, answer;
    }

    /** The fields of CPUID, of which it is the implementer that says whether there is a core at all. */
    method ReadCpuId() returns (isArm: bool)
      modifies this
      ensures (world, isArm) == ConnectModel.ReadCpuId(bench, old(world))
    {
      var read := ReadDebugRegister(CPUID);
      if read.None? {
        return false;
      }
      var implementer := read.value / 0x100_0000 % 0x80;
      isArm := implementer == IMPLEMENTER_ARM;
    }

    method WriteDebugRegister(address: word, v: word) returns (ok: bool)
      modifies this
      ensures (world, ok) == ConnectModel.WriteDebugRegister(bench, old(world), address, v)
    {
      var (next, answer) := ConnectModel.WriteDebugRegister(bench, world, address, v);
      world, ok := next, answer;
    }

    method Halt() returns (ok: bool)
      modifies this
      ensures (world, ok) == ConnectModel.Halt(bench, old(world))
    {
      ok := WriteDebugRegister(DHCSR, DHCSR_KEY + HALT + DEBUG_ENABLE);
    }

    method ResetCommand() returns (ok: bool)
      modifies this
      ensures (world, ok) == ConnectModel.ResetCommand(bench, old(world))
    {
      var (next, answer) := ConnectModel.ResetCommand(bench, world);
      world, ok := next, answer;
    }

    method ResetPin(asserted: bool) returns (ok: bool)
      modifies this
      ensures (world, ok) == ConnectModel.ResetPin(bench, old(world), asserted)
    {
      var (next, answer) := ConnectModel.ResetPin(bench, world, asserted);
      world, ok := next, answer;
    }

    method Sleep(microseconds: nat)
      modifies this
      ensures world == Slept(old(world), microseconds)
    {
      world := Slept(world, microseconds);
    }

    method ProbeAccessPort()
      modifies this
      ensures world == ConnectModel.ProbeAccessPort(bench, old(world))
    {
      var answered := ReadCpuId();
      if answered {
        return;
      }
      var selected := SelectAccessPort(1);
      if !selected {
        return;
      }
      answered := ReadCpuId();
      if answered {
        return;
      }
      var _ := SelectAccessPort(0);
    }

    method SawReset() returns (saw: bool)
      modifies this
      ensures (world, saw) == ConnectModel.SawReset(bench, old(world))
    {
      var dhcsr := ReadDebugRegister(DHCSR);
      saw := dhcsr.Some? && Bit(dhcsr.value, RESET_SINCE);
    }

    method SoftwareReset(haltOnReset: bool) returns (r: VoidResult)
      modifies this
      ensures (world, r) == ConnectModel.SoftwareReset(bench, old(world), haltOnReset)
    {
      if haltOnReset {
        var armed := WriteDebugRegister(DEMCR, VECTOR_CATCH);
        if !armed {
          return Err(TargetRefused);
        }
      }
      var asked := WriteDebugRegister(AIRCR, AIRCR_KEY + SYSTEM_RESET);
      if !asked {
        return Err(TargetRefused);
      }
      Sleep(RESET_SETTLE);
      if haltOnReset {
        var _ := WriteDebugRegister(DEMCR, 0);
      }
      r := DONE;
    }

    method ResetTheTarget() returns (r: VoidResult)
      modifies this
      ensures (world, r) == ConnectModel.ResetTheTarget(bench, old(world))
    {
      var _ := SawReset();
      var low := ResetPin(true);
      if low {
        Sleep(RESET_PULSE);
        var _ := ResetPin(false);
      }
      var _ := ResetCommand();
      Sleep(RESET_SETTLE);
      var saw := SawReset();
      if saw {
        return DONE;
      }
      r := SoftwareReset(false);
    }

    /** Asks for a halt over and over, until the time for it is up. */
    method CatchIt()
      modifies this
      ensures world == CatchLoop(bench, old(world), old(world).clock + CATCH_WINDOW)
    {
      var until := world.clock + CATCH_WINDOW;
      while world.clock < until
        invariant CatchLoop(bench, world, until) == CatchLoop(bench, old(world), until)
        decreases until - world.clock
      {
        var _ := Halt();
        Sleep(CATCH_INTERVAL);
      }
    }

    method ConnectUnderReset() returns (r: VoidResult)
      modifies this
      ensures (world, r) == ConnectModel.ConnectUnderReset(bench, old(world))
    {
      hide ConnectModel.ResetPin, ConnectModel.Halt, ConnectModel.SawReset, ConnectModel.SoftwareReset, CatchLoop;
      var low := ResetPin(true);
      if !low {
        return Err(IO);
      }
      var _ := Halt();
      Sleep(RESET_PULSE);
      var high := ResetPin(false);
      if !high {
        return Err(IO);
      }
      CatchIt();
      var _ := SawReset();
      r := SoftwareReset(true);
    }

    method ConnectToTarget(jtag: bool, mode: ResetMode) returns (r: VoidResult)
      modifies this
      ensures (world, r) == ConnectModel.ConnectToTarget(bench, old(world), jtag, mode)
    {
      var entered := EnterDebug(jtag);
      if !entered {
        return Err(TargetUnknown);
      }
      ProbeAccessPort();
      match mode {
        case HotPlug => r := DONE;
        case UnderReset => r := ConnectUnderReset();
        case Normal => r := ResetTheTarget();
      }
    }
  }
}

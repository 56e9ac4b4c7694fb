/** Identifying the core, and then the chip, by a few reads whose order matters. */
module ChipIdentity {
  import opened Basics
  import opened DebugUnit

  const IDCODE_H7: word := 0x5c001000
  const IDCODE_M0: word := 0x40015800
  const IDCODE_L5: word := 0xe0044000
  const IDCODE_H5: word := 0x44024000
  const IDCODE_DEFAULT: word := 0xe0042000
  const JTAG_ID_WB0: word := 0x40000004
  const PORT_SWD: word := 0x6ba02477
  const PORT_JTAG: word := 0x6ba00477
  const PART_M0: nat := 0xc20
  const PART_M0_PLUS: nat := 0xc60
  const PART_M4: nat := 0xc24
  const PART_M7: nat := 0xc27
  const PART_M33: nat := 0xd21
  const F4_AS_REPORTED: word := 0x411
  const F4: word := 0x413

  datatype CpuId = CpuId(implementer: nat, variant: nat, part: nat, revision: nat)

  /** What the debug port says it is, and what each read of a register comes to, by how many came before it. */
  datatype Target = Target(port: Result<word>, peek: (nat, word) -> Result<word>)

  function CpuIdOf(raw: word): CpuId {
    CpuId(raw / 0x100_0000 % 0x80, raw / 0x10_0000 % 0x10, raw / 0x10 % 0x1000, raw % 0x10)
  }

  // ---- What it comes to ------------------------------------------------

  /** A register, how far to shift what is in it, and where to look next if that is nothing. */
  datatype Place = Place(address: word, shiftedBy: word)

  const AS_IT_IS: word := 1
  const TWELVE_BITS: word := 0x1000

  /**
   * Where a chip keeps its identity, by its debug port and its core: each place
   * is looked in only if those before it hold nothing.
   */
  function Places(port: word, part: nat): (places: seq<Place>)
    ensures 1 <= |places| <= 2
  {
    if port in {PORT_SWD, PORT_JTAG} && part == PART_M7 then [Place(IDCODE_H7, AS_IT_IS)]
    else if part in {PART_M0, PART_M0_PLUS} then [Place(IDCODE_M0, AS_IT_IS), Place(JTAG_ID_WB0, TWELVE_BITS)]
    else if part == PART_M33 then [Place(IDCODE_L5, AS_IT_IS), Place(IDCODE_H5, AS_IT_IS)]
    else [Place(IDCODE_DEFAULT, AS_IT_IS)]
  }

  function Peeked(t: Target, log: seq<word>, address: word): Result<word> {
    var value := t.peek(|log|, address);
    if value.Err? then Err(TargetUnknown) else value
  }

  /** The first of the places that holds anything, or zero; a read that fails ends it. */
  function Search(t: Target, log: seq<word>, places: seq<Place>): (seq<word>, Result<word>)
    requires forall i :: 0 <= i < |places| ==> places[i].shiftedBy > 0
    decreases |places|
  {
    if places == [] then (log, Ok(0))
    else
      var here := log + [places[0].address];
      var value := Peeked(t, log, places[0].address);
      if value.Err? then (here, value)
      else
        var raw: word := value.value / places[0].shiftedBy;
        if raw != 0 then (here, Ok(raw)) else Search(t, here, places[1..])
  }

  lemma SearchOfTwo(t: Target, log: seq<word>, a: Place, b: Place)
    requires a.shiftedBy > 0 && b.shiftedBy > 0
    ensures var first := Peeked(t, log, a.address); var here := log + [a.address];
            Search(t, log, [a, b]) ==
            if first.Err? then (here, first)
            else if first.value / a.shiftedBy != 0 then (here, Ok(first.value / a.shiftedBy))
            else
              var second := Peeked(t, here, b.address);
              (here + [b.address], if second.Err? then second else Ok(second.value / b.shiftedBy))
  {
    var here := log + [a.address];
    var places := [a, b];
    assert places[1..] == [b];
    SearchOfOne(t, here, b);
  }

  lemma SearchOfOne(t: Target, log: seq<word>, a: Place)
    requires a.shiftedBy > 0
    ensures var first := Peeked(t, log, a.address);
            Search(t, log, [a]) ==
            (log + [a.address], if first.Err? then first else Ok(first.value / a.shiftedBy))
  {
    var places := [a];
    assert places[1..] == [];
    assert Search(t, log + [a.address], []) == (log + [a.address], Ok(0));
  }

  /** The identifier in what was found, and the one erratum that needs the core to tell. */
  function Identified(raw: word, part: nat): Result<word> {
    if raw == 0 then Err(TargetUnknown)
    else if raw % 0x1000 == F4_AS_REPORTED && part == PART_M4 then Ok(F4)
    else Ok(raw % 0x1000)
  }

  function CpuIdRead(t: Target, log: seq<word>): (seq<word>, Result<CpuId>) {
    var raw := Peeked(t, log, CPUID);
    (log + [CPUID],
     if raw.Err? then Err(raw.code)
     else if CpuIdOf(raw.value).implementer != IMPLEMENTER_ARM then Err(TargetUnknown)
     else Ok(CpuIdOf(raw.value)))
  }

  function ChipIdRead(t: Target, log: seq<word>): (seq<word>, Result<word>) {
    if t.port.Err? then (log, Err(TargetUnknown))
    else
      var (after, cpu) := CpuIdRead(t, log);
      if cpu.Err? then (after, Err(cpu.code))
      else
        var (last, raw) := Search(t, after, Places(t.port.value, cpu.value.part));
        (last, if raw.Err? then raw else Identified(raw.value, cpu.value.part))
  }

  // ---- The calls -------------------------------------------------------

  class Reader {
    const target: Target
    var log: seq<word>

    constructor (target: Target)
      ensures this.target == target && log == []
    {
      this.target := target;
      log := [];
    }

    method ReadAt(address: word) returns (r: Result<word>)
      modifies this
      ensures log == old(log) + [address] && r == Peeked(target, old(log), address)
    {
      var value := target.peek(|log|, address);
      log := log + [address];
      r := if value.Err? then Err(TargetUnknown) else value;
    }

    method ReadCpuId() returns (r: Result<CpuId>)
      modifies this
      ensures (log, r) == CpuIdRead(target, old(log))
    {
      var read := ReadAt(CPUID);
      if read.Err? {
        return Err(read.code);
      }
      var raw := read.value;
      var cpu := CpuId(raw / 0x100_0000 % 0x80, raw / 0x10_0000 % 0x10, raw / 0x10 % 0x1000, raw % 0x10);
      if cpu.implementer != IMPLEMENTER_ARM {
        return Err(TargetUnknown);
      }
      r := Ok(cpu);
    }

    method ReadChipId() returns (r: Result<word>)
      modifies this
      ensures (log, r) == ChipIdRead(target, old(log))
    {
      hide CpuIdRead, Peeked;
      if target.port.Err? {
        return Err(TargetUnknown);
      }
      var port := target.port.value;
      var asked := ReadCpuId();
      if asked.Err? {
        return Err(asked.code);
      }
      var cpu := asked.value;
      ghost var after := log;
      var raw: word := 0;
      if port in {PORT_SWD, PORT_JTAG} && cpu.part == PART_M7 {
        var read := ReadAt(IDCODE_H7);
        if read.Err? {
          return read;
        }
        raw := read.value;
      } else if cpu.part in {PART_M0, PART_M0_PLUS} {
        SearchOfTwo(target, log, Place(IDCODE_M0, AS_IT_IS), Place(JTAG_ID_WB0, TWELVE_BITS));
        var read := ReadAt(IDCODE_M0);
        if read.Err? {
          return read;
        }
        raw := read.value;
        if raw == 0 {
          var jtag := ReadAt(JTAG_ID_WB0);
          if jtag.Err? {
            return jtag;
          }
          raw := jtag.value / TWELVE_BITS;
        }
      } else if cpu.part == PART_M33 {
        SearchOfTwo(target, log, Place(IDCODE_L5, AS_IT_IS), Place(IDCODE_H5, AS_IT_IS));
        var read := ReadAt(IDCODE_L5);
        if read.Err? {
          return read;
        }
        raw := read.value;
        if raw == 0 {
          var h5 := ReadAt(IDCODE_H5);
          if h5.Err? {
            return h5;
          }
          raw := h5.value;
        }
      } else {
        var read := ReadAt(IDCODE_DEFAULT);
        if read.Err? {
          return read;
        }
        raw := read.value;
      }
      assert (log, Ok(raw)) == Search(target, after, Places(port, cpu.part));
      if raw == 0 {
        return Err(TargetUnknown);
      }
      var chipId: word := raw % 0x1000;
      if chipId == F4_AS_REPORTED && cpu.part == PART_M4 {
        chipId := F4;
      }
      r := Ok(chipId);
    }
  }

  // ---- What can be said of it ------------------------------------------

  /** What the register that decided it held, when there was one. */
  function Raw(t: Target, log: seq<word>): Option<word> {
    var (after, cpu) := CpuIdRead(t, log);
    if t.port.Err? || cpu.Err? then None
    else
      var raw := Search(t, after, Places(t.port.value, cpu.value.part)).1;
      if raw.Err? || raw.value == 0 then None else Some(raw.value)
  }

  /**
   * An identifier is twelve bits, and it can be zero after all: exactly when
   * what was found is something, and nothing in its bottom twelve bits.
   */
  lemma ZeroExactlyWhenOnlyTheRevisionIsThere(t: Target, log: seq<word>)
    ensures var r := ChipIdRead(t, log).1; var raw := Raw(t, log);
            && (r.Ok? <==> raw.Some?) && (r.Ok? ==> r.value < 0x1000)
            && (r == Ok(0) <==> raw.Some? && raw.value % 0x1000 == 0)
  {
    hide CpuIdRead, Search, Places;
  }

  /** Such a chip: a Cortex-M4 whose identity register has a revision and no device in it. */
  lemma SuccessCanBeZero() returns (t: Target)
    ensures ChipIdRead(t, []).1 == Ok(0)
  {
    t := Target(Ok(0), (n, address) => if address == CPUID then Ok(0x410fc240) else Ok(0x1000));
    SearchOfOne(t, [CPUID], Place(IDCODE_DEFAULT, AS_IT_IS));
  }

  /** No place is looked in before the ones it comes after turned out empty. */
  lemma {:induction false} SearchReadsInOrder(t: Target, log: seq<word>, places: seq<Place>)
    requires forall i :: 0 <= i < |places| ==> places[i].shiftedBy > 0
    ensures var (last, r) := Search(t, log, places); var n := |last| - |log|;
            && 0 <= n <= |places| && last[..|log|] == log
            && (forall i :: |log| <= i < |log| + n ==> last[i] == places[i - |log|].address)
            && (forall i :: |log| <= i < |log| + n - 1 ==>
                  t.peek(i, last[i]).Ok? && t.peek(i, last[i]).value / places[i - |log|].shiftedBy == 0)
    decreases |places|
  {
    if places != [] {
      var here := log + [places[0].address];
      SearchReadsInOrder(t, here, places[1..]);
      var (last, r) := Search(t, here, places[1..]);
      assert last[|log|] == last[..|here|][|log|] == places[0].address;
      assert last[..|log|] == last[..|here|][..|log|] == log;
    }
  }

  /** The whole sequence of reads: the core first, then at most two places, and never more than three in all. */
  lemma AtMostThreeReads(t: Target, log: seq<word>)
    ensures var last := ChipIdRead(t, log).0;
            && |log| <= |last| <= |log| + 3 && last[..|log|] == log
            && (|last| > |log| ==> last[|log|] == CPUID)
            && (t.port.Err? ==> last == log)
  {
    hide Search, Places, CpuIdOf, Peeked;
    if t.port.Ok? && CpuIdRead(t, log).1.Ok? {
      var (after, cpu) := CpuIdRead(t, log);
      var places := Places(t.port.value, cpu.value.part);
      PlacesShift(t.port.value, cpu.value.part);
      SearchReadsInOrder(t, after, places);
      var last := Search(t, after, places).0;
      assert last[|log|] == last[..|after|][|log|];
      assert last[..|log|] == last[..|after|][..|log|];
    }
  }

  lemma PlacesShift(port: word, part: nat)
    ensures forall i :: 0 <= i < |Places(port, part)| ==> Places(port, part)[i].shiftedBy > 0
  {
  }

  // ---- By the numbers --------------------------------------------------

  /** A CPUID put together from its fields is taken apart into them again, whatever the architecture field holds. */
  lemma CpuIdIsItsFields(c: CpuId, top: nat, architecture: nat)
    requires c.implementer < 0x80 && c.variant < 0x10 && c.part < 0x1000 && c.revision < 0x10
    requires top < 2 && architecture < 0x10
    ensures var raw := top * 0x8000_0000 + c.implementer * 0x100_0000 + c.variant * 0x10_0000 + architecture * 0x1_0000
                       + c.part * 0x10 + c.revision;
            raw < 0x1_0000_0000 && CpuIdOf(raw) == c
  {
    var above := architecture * 0x1000 + c.part;
    var rest := c.variant * 0x10_0000 + above * 0x10 + c.revision;
    var raw := (top * 0x80 + c.implementer) * 0x100_0000 + rest;
    assert rest < 0x100_0000;
    assert raw / 0x100_0000 == top * 0x80 + c.implementer;
    assert raw / 0x10_0000 == (top * 0x80 + c.implementer) * 0x10 + c.variant;
    assert raw / 0x10 == ((top * 0x80 + c.implementer) * 0x10 + c.variant) * 0x1_0000 + above;
  }

  /** What the last register read makes of it: nothing, or twelve bits, of which an F4's first revision has the F2's. */
  function Concluded(taken: seq<word>, held: Result<word>, part: nat): (seq<word>, Result<word>) {
    (taken,
     if held.Err? || held.value == 0 then Err(TargetUnknown)
     else if held.value % 0x1000 == 0x411 && part == 0xc24 then Ok(0x413)
     else Ok(held.value % 0x1000))
  }

  /** The part number in a JTAG identity, above its bottom twelve bits. */
  function PartNumber(held: Result<word>): Result<word> {
    if held.Err? then held else Ok(held.value / 0x1000)
  }

  /**
   * The registers read and the identifier they make, core by core: an H7 has
   * one place, a Cortex-M0 and a Cortex-M33 a second one for when the first
   * is zero, and everything else the usual one.
   */
  lemma IdentityByCore(t: Target, log: seq<word>, cpuid: word, part: nat)
    requires t.port.Ok? && t.peek(|log|, 0xe000_ed00) == Ok(cpuid)
    requires 0x4100_0000 <= cpuid % 0x8000_0000 < 0x4200_0000 && part == cpuid / 0x10 % 0x1000
    ensures var taken, n := log + [0xe000_ed00], |log| + 1;
            ChipIdRead(t, log) ==
            if part == 0xc27 && t.port.value in {0x6ba0_2477, 0x6ba0_0477} then
              Concluded(taken + [0x5c00_1000], t.peek(n, 0x5c00_1000), part)
            else if part == 0xc20 || part == 0xc60 then
              if t.peek(n, 0x4001_5800) == Ok(0) then
                Concluded(taken + [0x4001_5800] + [0x4000_0004], PartNumber(t.peek(n + 1, 0x4000_0004)), part)
              else Concluded(taken + [0x4001_5800], t.peek(n, 0x4001_5800), part)
            else if part == 0xd21 then
              if t.peek(n, 0xe004_4000) == Ok(0) then
                Concluded(taken + [0xe004_4000] + [0x4402_4000], t.peek(n + 1, 0x4402_4000), part)
              else Concluded(taken + [0xe004_4000], t.peek(n, 0xe004_4000), part)
            else Concluded(taken + [0xe004_2000], t.peek(n, 0xe004_2000), part)
  {
    var taken := log + [0xe000_ed00];
    assert CpuIdRead(t, log) == (taken, Ok(CpuIdOf(cpuid)));
    hide CpuIdRead, Search, CpuIdOf;
    SearchOfOne(t, taken, Place(0x5c00_1000, 1));
    SearchOfOne(t, taken, Place(0xe004_2000, 1));
    SearchOfTwo(t, taken, Place(0x4001_5800, 1), Place(0x4000_0004, 0x1000));
    SearchOfTwo(t, taken, Place(0xe004_4000, 1), Place(0x4402_4000, 1));
  }

  /** And nothing more is read of a target whose port does not answer, or whose core is not one of ARM's. */
  lemma NothingReadOfAStranger(t: Target, log: seq<word>)
    requires t.port.Err? || t.peek(|log|, 0xe000_ed00).Err?
             || !(0x4100_0000 <= t.peek(|log|, 0xe000_ed00).value % 0x8000_0000 < 0x4200_0000)
    ensures ChipIdRead(t, log) == (if t.port.Err? then log else log + [0xe000_ed00], Err(TargetUnknown))
  {
    hide Search, Places;
  }
}

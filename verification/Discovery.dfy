/** Finding programmers and the chips behind them, with as much of the filter as possible applied before connecting. */
module Discovery {
  import opened Basics

  datatype ProgrammerKind = UnknownKind | V1 | V2 | V2_1 | V3

  datatype Probe = Probe(vid: nat, pid: nat, serial: string, location: string)

  datatype BasicInfo = BasicInfo(kind: ProgrammerKind, serial: string, vid: nat, pid: nat, location: string)

  datatype ProgrammerInfo = ProgrammerInfo(debugFirmware: byte, swimFirmware: byte, maxTraceFrequency: word)

  datatype ChipInfo = ChipInfo(id: word, name: string)

  datatype DeviceInfo = DeviceInfo(core: BasicInfo, programmer: ProgrammerInfo, chip: ChipInfo)

  datatype Filter = Filter(serial: Option<string>, kind: Option<ProgrammerKind>, chipId: Option<word>)

  const VENDOR_ID := 0x0483

  function KindOf(pid: nat): ProgrammerKind {
    if pid == 0x3744 then V1
    else if pid in {0x3748, 0x374a, 0x374b} then V2
    else if pid == 0x3752 then V2_1
    else if pid in {0x374d, 0x374e, 0x374f, 0x3753, 0x3754, 0x3757} then V3
    else UnknownKind
  }

  predicate IsProgrammer(probe: Probe) {
    probe.vid == VENDOR_ID && KindOf(probe.pid) != UnknownKind
  }

  function BasicFrom(probe: Probe): BasicInfo {
    BasicInfo(KindOf(probe.pid), probe.serial, probe.vid, probe.pid, probe.location)
  }

  predicate AcceptsProbe(filter: Filter, info: BasicInfo) {
    && (filter.serial.Some? ==> filter.serial.value == info.serial)
    && (filter.kind.Some? ==> filter.kind.value == info.kind)
  }

  /**
   * What comes of connecting through a probe in hot plug mode, which no other
   * probe has a say in. A chip that cannot be made out may have been put in
   * debug mode before that was known, and letting a target go again may fail.
   */
  datatype Look =
    | NoProgrammer
    | NoChip(entered: bool)
    | Sees(programmer: ProgrammerInfo, chip: ChipInfo, letsGo: bool)

  /** What was done to the attached hardware, in order, as far as it took effect. */
  datatype Touch = Opened(probe: Probe) | Attached(probe: Probe) | LeftDebug(probe: Probe)

  class Bus {
    const look: Probe -> Look
    var touches: seq<Touch>

    constructor (look: Probe -> Look)
      ensures this.look == look && touches == []
    {
      this.look := look;
      touches := [];
    }

    method Find(attached: seq<Probe>, filter: Filter) returns (found: seq<DeviceInfo>)
      modifies this`touches
      ensures found == Matching(Sheets(look, attached), filter)
      ensures touches == old(touches) + Sweep(look, attached, filter)
    {
      found := [];
      ghost var sheets, swept := [], [];
      var i := 0;
      while i < |attached|
        invariant 0 <= i <= |attached|
        invariant sheets == Sheets(look, attached[..i]) && found == Matching(sheets, filter)
        invariant swept == Sweep(look, attached[..i], filter) && touches == old(touches) + swept
      {
        ghost var visited := Visit(look, attached[i], filter);
        var more := FindOne(attached[i], filter);
        SheetOfNext(look, attached, i, filter);
        Regrouped(old(touches), swept, visited);
        found := found + more;
        sheets := Sheets(look, attached[..i + 1]);
        swept := swept + visited;
        i := i + 1;
      }
      assert attached[..i] == attached;
    }

    /** The body of the sweep, for one of the attached probes. */
    method FindOne(probe: Probe, filter: Filter) returns (found: seq<DeviceInfo>)
      modifies this`touches
      ensures found == Matching(Sheet(look, probe), filter)
      ensures touches == old(touches) + Visit(look, probe, filter)
    {
      found := [];
      if !IsProgrammer(probe) {
        return;
      }
      var basic := BasicFrom(probe);
      if !AcceptsProbe(filter, basic) {
        return;
      }
      touches := touches + [Opened(probe)];
      match look(probe) {
        case NoProgrammer =>
        case NoChip(entered) =>
          if entered {
            touches := touches + [Attached(probe)];
          }
        case Sees(programmer, chip, letsGo) =>
          touches := touches + [Attached(probe)];
          var info := DeviceInfo(basic, programmer, chip);
          if filter.chipId.Some? && filter.chipId.value != info.chip.id {
            return;
          }
          found := [info];
          if letsGo {
            touches := touches + [LeftDebug(probe)];
          }
      }
    }
  }

  // ---- What it comes to ------------------------------------------------

  /** The sheet one probe would give, filter or no filter. */
  function Sheet(look: Probe -> Look, probe: Probe): seq<DeviceInfo> {
    match look(probe)
    case Sees(programmer, chip, _) =>
      if IsProgrammer(probe) then [DeviceInfo(BasicFrom(probe), programmer, chip)] else []
    case _ => []
  }

  /** Connecting to every programmer there is, whatever the caller was asking for. */
  function Sheets(look: Probe -> Look, attached: seq<Probe>): seq<DeviceInfo> {
    if attached == [] then []
    else Sheets(look, attached[..|attached| - 1]) + Sheet(look, attached[|attached| - 1])
  }

  predicate Matches(info: DeviceInfo, filter: Filter) {
    && (filter.serial.Some? ==> filter.serial.value == info.core.serial)
    && (filter.kind.Some? ==> filter.kind.value == info.core.kind)
    && (filter.chipId.Some? ==> filter.chipId.value == info.chip.id)
  }

  /** The sheets a filter lets through, in their order. */
  function Matching(sheets: seq<DeviceInfo>, filter: Filter): seq<DeviceInfo> {
    if sheets == [] then []
    else
      var last := sheets[|sheets| - 1];
      Matching(sheets[..|sheets| - 1], filter) + if Matches(last, filter) then [last] else []
  }

  /** What is done to the hardware behind one probe. */
  function Visit(look: Probe -> Look, probe: Probe, filter: Filter): seq<Touch> {
    if !IsProgrammer(probe) || !AcceptsProbe(filter, BasicFrom(probe)) then []
    else
      match look(probe)
      case Sees(_, chip, letsGo) =>
        [Opened(probe), Attached(probe)] +
        if (filter.chipId.Some? && filter.chipId.value != chip.id) || !letsGo then [] else [LeftDebug(probe)]
      case NoChip(entered) => [Opened(probe)] + if entered then [Attached(probe)] else []
      case NoProgrammer => [Opened(probe)]
  }

  function Sweep(look: Probe -> Look, attached: seq<Probe>, filter: Filter): seq<Touch> {
    if attached == [] then []
    else Sweep(look, attached[..|attached| - 1], filter) + Visit(look, attached[|attached| - 1], filter)
  }

  lemma Regrouped<T>(a: seq<T>, b: seq<T>, c: seq<T>)
    ensures (a + b) + c == a + (b + c)
  {
  }

  lemma SheetOfNext(look: Probe -> Look, attached: seq<Probe>, i: nat, filter: Filter)
    requires i < |attached|
    ensures Sheets(look, attached[..i + 1]) == Sheets(look, attached[..i]) + Sheet(look, attached[i])
    ensures Matching(Sheets(look, attached[..i + 1]), filter)
         == Matching(Sheets(look, attached[..i]), filter) + Matching(Sheet(look, attached[i]), filter)
    ensures Sweep(look, attached[..i + 1], filter) ==
            Sweep(look, attached[..i], filter) + Visit(look, attached[i], filter)
  {
    assert attached[..i + 1][..i] == attached[..i];
    var sheets, sheet := Sheets(look, attached[..i]), Sheet(look, attached[i]);
    if sheet == [] {
      assert sheets + sheet == sheets;
    } else {
      assert (sheets + sheet)[..|sheets|] == sheets;
      assert sheet[..0] == [];
    }
  }

  /** The kinds there are, by the product identifiers the vendor gave them. */
  lemma KindsByProduct(pid: nat)
    ensures KindOf(pid) == V1 <==> pid == 0x3744
    ensures KindOf(pid) == V2 <==> pid == 0x3748 || pid == 0x374a || pid == 0x374b
    ensures KindOf(pid) == V2_1 <==> pid == 0x3752
    ensures KindOf(pid) == V3 <==>
            pid == 0x374d || pid == 0x374e || pid == 0x374f || pid == 0x3753 || pid == 0x3754 || pid == 0x3757
  {
  }

  /** The sheet of one attached programmer, of the vendor's, with a chip that could be made out, as asked for. */
  predicate IsSheetOf(look: Probe -> Look, probe: Probe, filter: Filter, info: DeviceInfo) {
    && probe.vid == 0x0483 && KindOf(probe.pid) != UnknownKind && look(probe).Sees?
    && info.core.kind == KindOf(probe.pid) && info.core.vid == probe.vid && info.core.pid == probe.pid
    && info.core.serial == probe.serial && info.core.location == probe.location
    && info.programmer == look(probe).programmer && info.chip == look(probe).chip
    && (filter.serial.Some? ==> probe.serial == filter.serial.value)
    && (filter.kind.Some? ==> KindOf(probe.pid) == filter.kind.value)
    && (filter.chipId.Some? ==> look(probe).chip.id == filter.chipId.value)
  }

  lemma OneSheet(look: Probe -> Look, probe: Probe, filter: Filter, info: DeviceInfo)
    ensures info in Sheet(look, probe) && Matches(info, filter) <==> IsSheetOf(look, probe, filter, info)
  {
    hide KindOf;
  }

  lemma {:induction false} SheetsAreOfProbes(look: Probe -> Look, attached: seq<Probe>, info: DeviceInfo)
    ensures info in Sheets(look, attached) <==> exists probe <- attached :: info in Sheet(look, probe)
  {
    hide Sheet;
    if attached != [] {
      var front, last := attached[..|attached| - 1], attached[|attached| - 1];
      SheetsAreOfProbes(look, front, info);
      assert attached == front + [last];
    }
  }

  lemma {:induction false} MatchingAreSheets(sheets: seq<DeviceInfo>, filter: Filter, info: DeviceInfo)
    ensures info in Matching(sheets, filter) <==> info in sheets && Matches(info, filter)
  {
    hide Matches;
    if sheets != [] {
      var front, last := sheets[..|sheets| - 1], sheets[|sheets| - 1];
      MatchingAreSheets(front, filter, info);
      assert sheets == front + [last];
    }
  }

  /** What a find returns is the sheet of every programmer asked for, as that programmer and its chip give it. */
  lemma FindReturnsExactly(look: Probe -> Look, attached: seq<Probe>, filter: Filter, info: DeviceInfo)
    ensures info in Matching(Sheets(look, attached), filter) <==>
            exists probe <- attached :: IsSheetOf(look, probe, filter, info)
  {
    hide Matching, Sheets, Sheet, Matches, IsSheetOf;
    MatchingAreSheets(Sheets(look, attached), filter, info);
    SheetsAreOfProbes(look, attached, info);
    forall probe <- attached
      ensures info in Sheet(look, probe) && Matches(info, filter) <==> IsSheetOf(look, probe, filter, info)
    {
      OneSheet(look, probe, filter, info);
    }
  }

  /** Whether a probe's target is left in debug mode: attached to, and never let go of. */
  predicate LeftAttached(touches: seq<Touch>, probe: Probe) {
    Attached(probe) in touches && LeftDebug(probe) !in touches
  }

  lemma {:induction false} SweepTouches(look: Probe -> Look, attached: seq<Probe>, filter: Filter)
    ensures forall touch :: touch in Sweep(look, attached, filter) <==>
                            touch.probe in attached && touch in Visit(look, touch.probe, filter)
  {
    if attached != [] {
      var front, last := attached[..|attached| - 1], attached[|attached| - 1];
      SweepTouches(look, front, filter);
      assert attached == front + [last];
      assert forall touch <- Visit(look, last, filter) :: touch.probe == last;
    }
  }

  /** Only programmers the filter can still accept are ever opened. */
  lemma {:induction false} OpensOnlyWhatItMust(look: Probe -> Look, attached: seq<Probe>, filter: Filter, probe: Probe)
    ensures Opened(probe) in Sweep(look, attached, filter) <==>
            probe in attached && IsProgrammer(probe) && AcceptsProbe(filter, BasicFrom(probe))
  {
    SweepTouches(look, attached, filter);
  }

  /** And of those opened, a target is attached to exactly if debug was entered on it, in the end or for nothing. */
  lemma AttachesExactly(look: Probe -> Look, attached: seq<Probe>, filter: Filter, probe: Probe)
    ensures Attached(probe) in Sweep(look, attached, filter) <==>
            && Opened(probe) in Sweep(look, attached, filter)
            && (look(probe).Sees? || (look(probe).NoChip? && look(probe).entered))
  {
    SweepTouches(look, attached, filter);
  }

  /**
   * A sweep means to leave every target as it found it. It does so for a
   * target it attached to exactly when the chip could be made out, the filter
   * accepted it, and letting it go took effect.
   */
  lemma LeavesTheTargetExactlyWhenLetGo(look: Probe -> Look, attached: seq<Probe>, filter: Filter, probe: Probe)
    requires Attached(probe) in Sweep(look, attached, filter)
    ensures !look(probe).NoProgrammer?
    ensures LeftAttached(Sweep(look, attached, filter), probe) <==>
            || look(probe).NoChip?
            || (filter.chipId.Some? && filter.chipId.value != look(probe).chip.id)
            || !look(probe).letsGo
  {
    SweepTouches(look, attached, filter);
  }
}

/** Finding the access port with the CPU, down to the commands that do it. */
module AccessPorts {
  import opened Basics
  import opened Wire
  import opened Command
  import opened Requests
  import opened Memory
  import opened Retry
  import opened LaterModel
  import opened LaterProofs
  import DebugUnit
  import Later

  const CPUID: word := DebugUnit.CPUID

  /** Whether a read of CPUID was answered, and by one of ARM's cores. */
  predicate AnswersAsArm(d: Done)
    requires d.r.Ok? ==> |d.data| == 4
  {
    d.r.Ok? && DebugUnit.NamesArm(ReadU32(d.data))
  }

  function OnTheDefault(e: Env<Firmware>, p: Programmer): (d: Done)
    ensures d.r.Ok? ==> |d.data| == 4
  {
    DebugRead(e, p, CPUID)
  }

  function OpeningOne(e: Env<Firmware>, p: Programmer): Done {
    Selected(e, OnTheDefault(e, p).p, 1)
  }

  function OnOne(e: Env<Firmware>, p: Programmer): (d: Done)
    ensures d.r.Ok? ==> |d.data| == 4
  {
    DebugRead(e, OpeningOne(e, p).p, CPUID)
  }

  function GoingBack(e: Env<Firmware>, p: Programmer): Done {
    Selected(e, OnOne(e, p).p, 0)
  }

  function Probed(e: Env<Firmware>, p: Programmer): Programmer {
    if AnswersAsArm(OnTheDefault(e, p)) then OnTheDefault(e, p).p
    else if OpeningOne(e, p).r.Err? then OpeningOne(e, p).p
    else if AnswersAsArm(OnOne(e, p)) then OnOne(e, p).p
    else GoingBack(e, p).p
  }

  method ProbeAccessPort(p: Later.ProgrammerV2)
    requires p.Valid()
    modifies p`accessPort, p.channel, p.assembler.buffer
    ensures p.Valid() && p.Now() == Probed(p.channel.env, old(p.Now()))
  {
    hide DebugRead, Selected, ReadU32;
    var raw := p.ReadDebugRegister(CPUID);
    if raw.Ok? && DebugUnit.NamesArm(raw.value) {
      return;
    }
    var selected := p.SelectAccessPort(1);
    if selected.Err? {
      return;
    }
    raw := p.ReadDebugRegister(CPUID);
    if raw.Ok? && DebugUnit.NamesArm(raw.value) {
      return;
    }
    var _ := p.SelectAccessPort(0);
  }

  // ---- How it travels --------------------------------------------------

  /** CPUID is asked for by its own command on port zero, and as memory of the port on any other. */
  lemma CpuidTravelsByPort(e: Env<Firmware>, p: Programmer)
    ensures var k := DebugRead(e, p, CPUID).p.link; var n := |p.link.sent|;
            && |k.sent| > n
            && k.sent[n] == PlainBlock(if p.port == 0 then ReadDebugRegister(CPUID) else ReadMemory(CPUID, 4, p.port))
  {
    hide Exchanged, PlainBlock;
    if p.port == 0 {
      FirstSentIsTheBlock(e, p.link, PlainBlock(ReadDebugRegister(CPUID)), Zeros(8), 8, Check.Retry, false, 0);
    } else {
      var block := PlainBlock(ReadMemory(CPUID, 4, p.port));
      FirstSentIsTheBlock(e, p.link, block, Zeros(4), 4, ReplyLength, false, 0);
    }
  }

  // ---- What it finds ---------------------------------------------------

  /** What CPUID holds behind a port. */
  function CpuidOf(memory: Bytes, port: byte): word {
    ReadU32(Fetch(memory, port, CPUID, 4))
  }

  /** Probing never changes memory, and leaves the recorded port and the open one in agreement, whatever fails. */
  lemma ProbingKeepsAgreement(moods: nat -> Mood, weather: nat -> Weather, p: Programmer)
    requires AlwaysFair(Behind(moods, weather)) && Speaks(moods) && InAgreement(p)
    ensures var q := Probed(Behind(moods, weather), p);
            InAgreement(q) && q.link.device.memory == p.link.device.memory && q.port in {p.port, 0, 1}
    ensures var e := Behind(moods, weather);
            && InAgreement(OnTheDefault(e, p).p) && OnTheDefault(e, p).p.port == p.port
            && InAgreement(OpeningOne(e, p).p) && (OpeningOne(e, p).r.Ok? ==> OpeningOne(e, p).p.port == 1)
            && OpeningOne(e, p).p.link.device.memory == p.link.device.memory
  {
    hide DebugRead, Selected, InAgreement, ReadU32;
    var e := Behind(moods, weather);
    ReadDebugAsReported(moods, weather, p, CPUID);
    SelectAsReported(moods, weather, OnTheDefault(e, p).p, 1);
    ReadDebugAsReported(moods, weather, OpeningOne(e, p).p, CPUID);
    SelectAsReported(moods, weather, OnOne(e, p).p, 0);
  }

  /** Each request that is made is answered, and what is read on port one is given by the target. */
  predicate ProbesWell(moods: nat -> Mood, e: Env<Firmware>, p: Programmer) {
    && OnTheDefault(e, p).r.Ok?
    && (!AnswersAsArm(OnTheDefault(e, p)) ==>
          && OpeningOne(e, p).r.Ok?
          && OnOne(e, p).r.Ok? && moods(OpeningOne(e, p).p.link.device.step).status == OK
          && (!AnswersAsArm(OnOne(e, p)) ==> GoingBack(e, p).r.Ok?))
  }

  /**
   * When the requests succeed, the recorded port, the firmware's open port and
   * the port with the CPU agree: it is 1 exactly when the CPUID behind port one
   * names an ARM core and the one behind port zero does not, and 0 otherwise.
   */
  lemma ProbingFindsTheCpu(moods: nat -> Mood, weather: nat -> Weather, p: Programmer)
    requires AlwaysFair(Behind(moods, weather)) && Whole(moods) && InAgreement(p) && p.port == 0
    requires ProbesWell(moods, Behind(moods, weather), p)
    ensures var q := Probed(Behind(moods, weather), p); var memory := p.link.device.memory;
            && InAgreement(q) && q.link.device.memory == memory
            && q.port == if DebugUnit.NamesArm(CpuidOf(memory, 1)) && !DebugUnit.NamesArm(CpuidOf(memory, 0)) then 1
                         else 0
  {
    hide DebugRead, Selected, InAgreement, ReadU32, DebugUnit.NamesArm;
    var e := Behind(moods, weather);
    assert Speaks(moods);
    ProbingKeepsAgreement(moods, weather, p);
    EitherRouteReadsTheSameWord(moods, weather, p, CPUID);
    assert AnswersAsArm(OnTheDefault(e, p)) <==> DebugUnit.NamesArm(CpuidOf(p.link.device.memory, 0));
    if !AnswersAsArm(OnTheDefault(e, p)) {
      var q := OpeningOne(e, p).p;
      EitherRouteReadsTheSameWord(moods, weather, q, CPUID);
      ReadDebugAsReported(moods, weather, q, CPUID);
      SelectAsReported(moods, weather, OnOne(e, p).p, 0);
    }
  }
}

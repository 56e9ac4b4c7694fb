/** The debug clock: what rates a programmer says it has, and what it is told when one is chosen. */
module Clock {
  import opened Basics
  import opened Wire
  import opened Command
  import opened Framing
  import opened Requests
  import opened Retry

  method Exchange<S>(channel: CommandChannel<S>, a: Assembler, request: Request, reply: array<byte>, check: Check)
    returns (r: Result<nat>)
    requires a.Valid() && a.wrapping.Plain? && reply != a.buffer
    modifies channel, a.buffer, reply
    ensures Outcome(channel.link, reply[..], r) ==
            Exchanged(channel.env, old(channel.link), PlainBlock(request), old(reply[..]), reply.Length, check,
                      false, 0)
  {
    hide Padded, Payload, Exchanged;
    var block := Assemble(a, FromDevice, reply.Length, request);
    r := channel.Exchange(block.into, block.capacity, reply, reply.Length, check);
  }

  // ---- V2: a table in the firmware -------------------------------------

  datatype Rate = Rate(hz: word, divisor: half)

  const RATES_V2: seq<Rate> := [
    Rate(4000000, 0), Rate(1800000, 1), Rate(1200000, 2), Rate(950000, 3), Rate(480000, 7), Rate(240000, 15),
    Rate(125000, 31), Rate(100000, 40), Rate(50000, 79), Rate(25000, 158), Rate(15000, 265), Rate(5000, 798)]

  const SETTABLE_FROM: nat := 22
  const DEFAULT_V2: word := 1800000

  datatype Version = Version(major: byte, jtag: byte)

  predicate Settable(v: Version) {
    v.major == 2 && v.jtag >= SETTABLE_FROM
  }

  function RatesOf(table: seq<Rate>): (s: seq<word>)
    ensures |s| == |table| && forall i :: 0 <= i < |s| ==> s[i] == table[i].hz
  {
    seq<word>(|table|, i requires 0 <= i < |table| => table[i].hz)
  }

  method ClockRatesV2(version: Version) returns (rates: seq<word>)
    ensures rates == if Settable(version) then RatesOf(RATES_V2) else []
  {
    if version.major != 2 || version.jtag < SETTABLE_FROM {
      return [];
    }
    rates := [];
    for i := 0 to |RATES_V2|
      invariant |rates| == i && forall k :: 0 <= k < i ==> rates[k] == RATES_V2[k].hz
    {
      rates := rates + [RATES_V2[i].hz];
    }
  }

  function DivisorFor(table: seq<Rate>, hz: word): Option<half> {
    if table == [] then None
    else if table[0].hz == hz then Some(table[0].divisor)
    else DivisorFor(table[1..], hz)
  }

  /** A rate has a divisor exactly if it is in the table, and then it is one the table gives it. */
  lemma {:induction false} DivisorIsTheTables(table: seq<Rate>, hz: word)
    ensures var d := DivisorFor(table, hz);
            && (d.Some? <==> hz in RatesOf(table))
            && (d.Some? ==> Rate(hz, d.value) in table)
  {
    if table != [] {
      DivisorIsTheTables(table[1..], hz);
      var rates, rest := RatesOf(table), RatesOf(table[1..]);
      assert rates[0] == table[0].hz;
      assert rates[1..] == rest;
      assert rates == [rates[0]] + rest;
    }
  }

  method FindDivisor(hz: word) returns (divisor: Option<half>)
    ensures divisor == DivisorFor(RATES_V2, hz)
  {
    divisor := None;
    for i := 0 to |RATES_V2|
      invariant DivisorFor(RATES_V2, hz) == DivisorFor(RATES_V2[i..], hz)
    {
      if RATES_V2[i].hz == hz {
        divisor := Some(RATES_V2[i].divisor);
        return;
      }
    }
  }

  function Wanted(hz: word, default: word): word {
    if hz != 0 then hz else default
  }

  function ClockSetV2<S>(e: Env<S>, l: Link<S>, version: Version, hz: word): (Link<S>, VoidResult) {
    var divisor := DivisorFor(RATES_V2, Wanted(hz, DEFAULT_V2));
    if !Settable(version) then (l, Err(NotSupported))
    else if divisor.None? then (l, Err(InvalidArgument))
    else
      var o := Exchanged(e, l, PlainBlock(SetDivisor(divisor.value)), Zeros(2), 2, Check.Retry, false, 0);
      (o.link, if o.r.Err? then Err(o.r.code) else DONE)
  }

  method SetClockV2<S>(channel: CommandChannel<S>, a: Assembler, version: Version, hz: word) returns (r: VoidResult)
    requires a.Valid() && a.wrapping.Plain?
    modifies channel, a.buffer
    ensures (channel.link, r) == ClockSetV2(channel.env, old(channel.link), version, hz)
  {
    hide PlainBlock, Exchanged, DivisorFor;
    if version.major != 2 || version.jtag < SETTABLE_FROM {
      return Err(NotSupported);
    }
    var divisor := FindDivisor(if hz != 0 then hz else DEFAULT_V2);
    if divisor.None? {
      return Err(InvalidArgument);
    }
    var reply := new byte[2](_ => 0);
    assert reply[..] == Zeros(2);
    var sent := Exchange(channel, a, SetDivisor(divisor.value), reply, Check.Retry);
    r := if sent.Err? then Err(sent.code) else DONE;
  }

  /** Being told no rate in particular, a V2 is sent the divisor of one; and the table runs from 4 MHz down to 5 kHz. */
  lemma TheTableByItsEnds()
    ensures |RATES_V2| == 12 && RATES_V2[0] == Rate(4000000, 0) && RATES_V2[11] == Rate(5000, 798)
    ensures DivisorFor(RATES_V2, 1800000) == Some(1)
    ensures forall i :: 0 <= i < 11 ==> RATES_V2[i].hz > RATES_V2[i + 1].hz
                                        && RATES_V2[i].divisor < RATES_V2[i + 1].divisor
  {
    assert RATES_V2[0].hz != 1800000 && RATES_V2[1..][0] == Rate(1800000, 1);
    hide DivisorFor;
    assert DivisorFor(RATES_V2, 1800000) == DivisorFor(RATES_V2[1..], 1800000) by {
      NotTheFirst(RATES_V2, 1800000);
    }
    TheFirst(RATES_V2[1..]);
  }

  lemma NotTheFirst(table: seq<Rate>, hz: word)
    requires table != [] && table[0].hz != hz
    ensures DivisorFor(table, hz) == DivisorFor(table[1..], hz)
  {
  }

  lemma TheFirst(table: seq<Rate>)
    requires table != []
    ensures DivisorFor(table, table[0].hz) == Some(table[0].divisor)
  {
  }

  /** Success is the programmer's own word for it, the last it said. */
  predicate AnsweredWell<S>(l: Link<S>, k: Link<S>, r: VoidResult) {
    r.Ok? ==>
      && r == DONE && |k.heard| > |l.heard|
      && var last := k.heard[|k.heard| - 1].bytes; last != [] && last[0] == 0x80
  }

  /** A command that may be sent again has failed for a transfer, or a refusal, or for the fourth time. */
  predicate GaveUp<S>(l: Link<S>, k: Link<S>, code: ErrorCode) {
    code == IO || (code == TargetRefused && |k.heard| > |l.heard| &&
                   var last := k.heard[|k.heard| - 1].bytes;
                   |k.sent| == |l.sent| + 4 || last == [] || !AsksToWait(last[0]))
  }

  /**
   * A rate goes on the wire exactly if it is one that is reported, and then as
   * the divisor that means it. Being asked for none in particular is being
   * asked for 1.8 MHz.
   */
  lemma V2SendsExactlyWhatItReports<S>(e: Env<S>, l: Link<S>, version: Version, hz: word)
    ensures var wanted := if hz == 0 then 1800000 else hz;
            var settable := version.major == 2 && version.jtag >= 22;
            var (k, r) := ClockSetV2(e, l, version, hz);
            && (!settable ==> k == l && r == Err(NotSupported))
            && (settable && wanted !in RatesOf(RATES_V2) ==> k == l && r == Err(InvalidArgument))
            && (settable && wanted in RatesOf(RATES_V2) ==>
                  && |k.sent| > |l.sent| && AnsweredWell(l, k, r) && (r.Err? ==> GaveUp(l, k, r.code))
                  && exists d :: Rate(wanted, d) in RATES_V2 && k.sent[|l.sent|] == PlainBlock(SetDivisor(d)))
  {
    hide PlainBlock, Exchanged, DivisorFor;
    var wanted := Wanted(hz, DEFAULT_V2);
    DivisorIsTheTables(RATES_V2, wanted);
    var d := DivisorFor(RATES_V2, wanted);
    if Settable(version) && d.Some? {
      var block := PlainBlock(SetDivisor(d.value));
      FirstSentIsTheBlock(e, l, block, Zeros(2), 2, Check.Retry, false, 0);
      ZeroedReplySucceedsOnlyOnDelivery(e, l, block, 2, Check.Retry);
      LastReplyDecides(e, l, block, Zeros(2), 2, Check.Retry, false, 0);
      OnceMoreForEachWait(e, l, block, Zeros(2), 2, Check.Retry, false, 0);
    }
  }

  // ---- V3: a list in a reply -------------------------------------------

  const LIST_REPLY: nat := 52
  const COUNT_AT: nat := 8
  const RATES_AT: nat := 12
  const MAX_RATES: nat := 10
  const DEFAULT_V3: word := 1000000

  /** A rate is listed in kilohertz and reported in hertz, in thirty-two bits. */
  function InHertz(khz: word): word {
    khz as int * 1000 % 0x1_0000_0000
  }

  function KhzAt(reply: seq<byte>, i: nat): word
    requires |reply| == LIST_REPLY && i < MAX_RATES
  {
    ReadU32(reply[RATES_AT + i * 4..])
  }

  function CountIn(reply: seq<byte>): (n: nat)
    requires |reply| == LIST_REPLY
    ensures n <= MAX_RATES
  {
    Min(reply[COUNT_AT], MAX_RATES)
  }

  /** The first `n` rates in a reply, padding left out. */
  function Listed(reply: seq<byte>, n: nat): seq<word>
    requires |reply| == LIST_REPLY && n <= MAX_RATES
  {
    if n == 0 then []
    else
      var khz := KhzAt(reply, n - 1);
      Listed(reply, n - 1) + if khz != 0 then [InHertz(khz)] else []
  }

  datatype Rates<S> = Rates(link: Link<S>, r: Result<seq<word>>)

  function RatesAsked<S>(e: Env<S>, l: Link<S>): Rates<S> {
    var o := Exchanged(e, l, PlainBlock(GetFrequencies), Zeros(LIST_REPLY), LIST_REPLY, Status, false, 0);
    Rates(o.link, if o.r.Err? then Err(o.r.code) else Ok(Listed(o.reply, CountIn(o.reply))))
  }

  method ClockRatesV3<S>(channel: CommandChannel<S>, a: Assembler) returns (r: Result<seq<word>>)
    requires a.Valid() && a.wrapping.Plain?
    modifies channel, a.buffer
    ensures Rates(channel.link, r) == RatesAsked(channel.env, old(channel.link))
  {
    hide PlainBlock, Exchanged, ReadU32;
    var listed := new byte[LIST_REPLY](_ => 0);
    assert listed[..] == Zeros(LIST_REPLY);
    var asked := Exchange(channel, a, GetFrequencies, listed, Status);
    if asked.Err? {
      return Err(asked.code);
    }
    var count: nat := listed[COUNT_AT];
    if count > MAX_RATES {
      count := MAX_RATES;
    }
    var rates: seq<word> := [];
    for i := 0 to count
      invariant rates == Listed(listed[..], i)
    {
      var khz := ReadU32(listed[RATES_AT + i * 4..]);
      assert listed[..][RATES_AT + i * 4..] == listed[RATES_AT + i * 4..];
      if khz != 0 {
        rates := rates + [InHertz(khz)];
      }
    }
    r := Ok(rates);
  }

  function ClockSetV3<S>(e: Env<S>, l: Link<S>, hz: word): (Link<S>, VoidResult) {
    var offered := RatesAsked(e, l);
    var wanted := Wanted(hz, DEFAULT_V3);
    if offered.r.Err? then (offered.link, Err(offered.r.code))
    else if offered.r.value == [] then (offered.link, Err(Protocol))
    else if wanted !in offered.r.value then (offered.link, Err(InvalidArgument))
    else
      var o := Exchanged(e, offered.link, PlainBlock(SetFrequency(wanted / 1000)), Zeros(8), 8, Status, false, 0);
      (o.link, if o.r.Err? then Err(o.r.code) else DONE)
  }

  method SetClockV3<S>(channel: CommandChannel<S>, a: Assembler, hz: word) returns (r: VoidResult)
    requires a.Valid() && a.wrapping.Plain?
    modifies channel, a.buffer
    ensures (channel.link, r) == ClockSetV3(channel.env, old(channel.link), hz)
  {
    hide PlainBlock, Exchanged, RatesAsked;
    var offered := ClockRatesV3(channel, a);
    if offered.Err? {
      return Err(offered.code);
    }
    if offered.value == [] {
      return Err(Protocol);
    }
    var wanted := if hz != 0 then hz else DEFAULT_V3;
    if wanted !in offered.value {
      return Err(InvalidArgument);
    }
    var reply := new byte[8](_ => 0);
    assert reply[..] == Zeros(8);
    var told := Exchange(channel, a, SetFrequency(wanted / 1000), reply, Status);
    r := if told.Err? then Err(told.code) else DONE;
  }

  /** A V3 is asked for a rate exactly if it has just listed it, and for 1 MHz if for none in particular. */
  lemma V3SendsExactlyWhatItReports<S>(e: Env<S>, l: Link<S>, hz: word)
    ensures var offered := RatesAsked(e, l); var wanted: word := if hz == 0 then 1000000 else hz;
            var (k, r) := ClockSetV3(e, l, hz);
            if offered.r.Err? then k == offered.link && r == Err(offered.r.code)
            else if offered.r.value == [] then k == offered.link && r == Err(Protocol)
            else if wanted !in offered.r.value then k == offered.link && r == Err(InvalidArgument)
            else
              && |k.sent| == |offered.link.sent| + 1 && AnsweredWell(offered.link, k, r)
              && k.sent[|offered.link.sent|] == PlainBlock(SetFrequency(wanted / 1000))
  {
    hide PlainBlock, Exchanged, RatesAsked;
    var offered := RatesAsked(e, l);
    var wanted := Wanted(hz, DEFAULT_V3);
    if offered.r.Ok? && wanted in offered.r.value {
      var block := PlainBlock(SetFrequency(wanted / 1000));
      FirstSentIsTheBlock(e, offered.link, block, Zeros(8), 8, Status, false, 0);
      SameBlockEveryTime(e, offered.link, block, Zeros(8), 8, Status, 0);
      ZeroedReplySucceedsOnlyOnDelivery(e, offered.link, block, 8, Status);
    }
  }

  /** Asking for the list is one exchange, and it is what the programmer says in its last word. */
  lemma ListIsAskedForOnce<S>(e: Env<S>, l: Link<S>)
    ensures var offered := RatesAsked(e, l); var k := offered.link;
            && k.sent == l.sent + [PlainBlock(GetFrequencies)]
            && AnsweredWell(l, k, if offered.r.Ok? then DONE else Err(IO))
  {
    hide PlainBlock, Exchanged, Listed, CountIn;
    var block := PlainBlock(GetFrequencies);
    SameBlockEveryTime(e, l, block, Zeros(LIST_REPLY), LIST_REPLY, Status, 0);
    ZeroedReplySucceedsOnlyOnDelivery(e, l, block, LIST_REPLY, Status);
  }

  /** Where the list is in its reply: a count, of which no more than ten are believed, and words from byte 12 on. */
  lemma ListIsLaidOut(reply: seq<byte>, i: nat, khz: word)
    requires |reply| == 52 && i < 10 && reply[12 + 4 * i..16 + 4 * i] == U32(khz)
    ensures KhzAt(reply, i) == khz && CountIn(reply) == if reply[8] < 10 then reply[8] as int else 10
  {
    hide U32, ReadU32;
    ReadWordAt(reply, 12 + 4 * i, khz);
  }

  /** Everything reported was listed among the rates counted, and everything counted but padding is reported. */
  lemma {:induction false} ReportedIsListed(reply: seq<byte>, n: nat, hz: word)
    requires |reply| == LIST_REPLY && n <= MAX_RATES
    ensures hz in Listed(reply, n) <==> exists i :: 0 <= i < n && KhzAt(reply, i) != 0 && InHertz(KhzAt(reply, i)) == hz
  {
    hide KhzAt, InHertz;
    if n > 0 {
      ReportedIsListed(reply, n - 1, hz);
      if hz in Listed(reply, n) && hz !in Listed(reply, n - 1) {
        assert KhzAt(reply, n - 1) != 0 && InHertz(KhzAt(reply, n - 1)) == hz;
      }
    }
  }

  const HIGHEST_KHZ: nat := 4294967

  /** What is told to the device is what it listed exactly as far as thirty-two bits of hertz go. */
  lemma KilohertzSurviveExactly(khz: word)
    ensures InHertz(khz) / 1000 == khz <==> khz <= HIGHEST_KHZ
  {
    if khz <= HIGHEST_KHZ {
      assert InHertz(khz) == khz as int * 1000;
    } else {
      assert InHertz(khz) / 1000 <= HIGHEST_KHZ;
    }
  }

  /** Past that a rate a device lists turns into one of no kilohertz at all. */
  lemma FirstRateThatDoesNotSurvive()
    ensures InHertz(HIGHEST_KHZ + 1) / 1000 == 0
  {
    assert InHertz(HIGHEST_KHZ + 1) == 704;
  }

  /** What is reported of rates up to that is a whole number of kilohertz, and one that was listed. */
  lemma ReportedWasListedInKilohertz(reply: seq<byte>, hz: word) returns (i: nat)
    requires |reply| == LIST_REPLY && hz in Listed(reply, CountIn(reply))
    requires forall k :: 0 <= k < CountIn(reply) ==> KhzAt(reply, k) <= HIGHEST_KHZ
    ensures i < CountIn(reply) && KhzAt(reply, i) == hz / 1000 && hz % 1000 == 0
  {
    hide KhzAt, CountIn;
    ReportedIsListed(reply, CountIn(reply), hz);
    var k :| 0 <= k < CountIn(reply) && KhzAt(reply, k) != 0 && InHertz(KhzAt(reply, k)) == hz;
    KilohertzSurviveExactly(KhzAt(reply, k));
    i := k;
  }

  /** The reply the list was in. */
  function ListReply<S>(e: Env<S>, l: Link<S>): Outcome<S> {
    Exchanged(e, l, PlainBlock(GetFrequencies), Zeros(LIST_REPLY), LIST_REPLY, Status, false, 0)
  }

  /**
   * So for any count claimed and any rates up to that, the default included:
   * if setting the clock gets as far as a second command, that command tells
   * the device a rate it listed.
   */
  lemma WhatIsSentWasListed<S>(e: Env<S>, l: Link<S>, hz: word)
    requires var reply := ListReply(e, l).reply;
             forall k :: 0 <= k < CountIn(reply) ==> KhzAt(reply, k) <= HIGHEST_KHZ
    ensures var o := ListReply(e, l); var n := |o.link.sent|; var k := ClockSetV3(e, l, hz).0;
            |k.sent| > n ==>
              exists i :: 0 <= i < CountIn(o.reply) && k.sent[n] == PlainBlock(SetFrequency(KhzAt(o.reply, i)))
  {
    hide PlainBlock, Exchanged, KhzAt, CountIn, Listed;
    var o := ListReply(e, l);
    var offered := RatesAsked(e, l);
    var wanted := Wanted(hz, DEFAULT_V3);
    if offered.r.Ok? && wanted in offered.r.value {
      FirstSentIsTheBlock(e, o.link, PlainBlock(SetFrequency(wanted / 1000)), Zeros(8), 8, Status, false, 0);
      var i := ReportedWasListedInKilohertz(o.reply, wanted);
    }
  }
}

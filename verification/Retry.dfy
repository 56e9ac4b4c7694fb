/** What the retry loop of an exchange promises, whatever the programmer answers and whichever transfers fail. */
module Retry {
  import opened Basics
  import opened Wire
  import opened Command

  /** How often the command was offered to the programmer. */
  function Attempts<S>(l: Link<S>, o: Outcome<S>): int {
    |o.link.sent| - |l.sent|
  }

  /** The two ways a target has of asking to be given time. */
  predicate AsksToWait(status: byte) {
    status == 0x10 || status == 0x14
  }

  predicate SaysWait(m: Message) {
    m.bytes == [] || AsksToWait(m.bytes[0])
  }

  /** What the link has sent and heard only ever grows. */
  predicate Since<S>(l: Link<S>, k: Link<S>) {
    && |l.sent| <= |k.sent| && k.sent[..|l.sent|] == l.sent
    && |l.heard| <= |k.heard| && k.heard[..|l.heard|] == l.heard
  }

  lemma OneAttempt<S>(e: Env<S>, l: Link<S>, command: seq<byte>, reply: seq<byte>, room: nat)
    requires room <= |reply|
    ensures var o := Attempted(e, l, command, reply, room);
            && Since(l, o.link) && o.link.sent == l.sent + [command] && o.link.slept == l.slept
            && (o.r.Err? ==> o.r.code == IO)
            && |o.link.heard| <= |l.heard| + 1
            && (o.r.Ok? && room > 0 ==>
                  && l.heard <= o.link.heard && |o.link.heard| == |l.heard| + 1
                  && var m := o.link.heard[|l.heard|].bytes;
                     |m| <= room && o.r.value == |m| && o.reply == Overwrite(reply, m))
  {
  }

  lemma PowersGrow(a: nat, b: nat)
    requires a <= b
    ensures TwoTo(a) <= TwoTo(b)
  {
    if a < b {
      PowersGrow(a, b - 1);
    }
  }

  /**
   * With the reply somewhere else than the command, the same block goes out
   * one to four times, doubling the pause each time and never pausing for more
   * than seven milliseconds in all.
   */
  lemma {:induction false} SameBlockEveryTime<S>(e: Env<S>, l: Link<S>, command: seq<byte>, reply: seq<byte>,
                                                 room: nat, check: Check, retry: nat)
    requires room <= |reply| && retry <= WAIT_RETRIES
    ensures var o := Exchanged(e, l, command, reply, room, check, false, retry); var n := Attempts(l, o);
            && 1 <= n <= WAIT_RETRIES - retry + 1 && (!check.Retry? ==> n == 1)
            && Since(l, o.link) && o.link.sent == l.sent + seq(n, _ => command)
            && o.link.slept == l.slept + FIRST_WAIT * (TwoTo(retry + n - 1) - TwoTo(retry))
            && o.link.slept <= l.slept + 7000
    decreases WAIT_RETRIES - retry
  {
    hide Attempted;
    var once := Attempted(e, l, command, reply, room);
    OneAttempt(e, l, command, reply, room);
    assert l.sent + [command] == l.sent + seq(1, _ => command);
    if once.r.Ok? && room > 0 && Judge(check, once.reply, room, once.r.value, retry).Again? {
      var next := Slept(once.link, WaitBefore(retry));
      SameBlockEveryTime(e, next, command, once.reply, room, check, retry + 1);
      var o := Exchanged(e, next, command, once.reply, room, check, false, retry + 1);
      var n := Attempts(next, o);
      assert l.sent + [command] + seq(n, _ => command) == l.sent + seq(n + 1, _ => command);
      PowersGrow(retry + n, WAIT_RETRIES);
      PowersGrow(0, retry);
      assert TwoTo(WAIT_RETRIES) == 8;
    }
  }

  /** It goes out once, and once more for each answer that asked to wait; and it stops for a reason. */
  lemma {:induction false} OnceMoreForEachWait<S>(e: Env<S>, l: Link<S>, command: seq<byte>, reply: seq<byte>,
                                                  room: nat, check: Check, aliased: bool, retry: nat)
    requires 0 < room <= |reply| && retry <= WAIT_RETRIES && (aliased ==> |command| <= |reply|)
    ensures var o := Exchanged(e, l, command, reply, room, check, aliased, retry); var n := Attempts(l, o);
            && Since(l, o.link) && n >= 1 && |l.heard| + n - 1 <= |o.link.heard| <= |l.heard| + n
            && (forall i :: |l.heard| <= i < |l.heard| + n - 1 ==> SaysWait(o.link.heard[i]))
            && (o.r.Ok? || o.r.code == IO || n == WAIT_RETRIES - retry + 1 || !check.Retry? || !AsksToWait(o.reply[0]))
    decreases WAIT_RETRIES - retry
  {
    hide Attempted;
    var once := Attempted(e, l, command, reply, room);
    OneAttempt(e, l, command, reply, room);
    if once.r.Ok? && Judge(check, once.reply, room, once.r.value, retry).Again? {
      var next := Slept(once.link, WaitBefore(retry));
      var block := if aliased then once.reply[..|command|] else command;
      OnceMoreForEachWait(e, next, block, once.reply, room, check, aliased, retry + 1);
    }
  }

  lemma SendingFailsExactly<S>(e: Env<S>, l: Link<S>, command: seq<byte>)
    ensures SendBlock(e, l, command).1 == if e.weather(l.turn).Fails? then Err(IO) else DONE
  {
  }

  /** A command that is handed over is sent, however little of it was taken; and with no reply wanted that is all. */
  lemma NoReplyIsWaitedFor<S>(e: Env<S>, l: Link<S>, command: seq<byte>, reply: seq<byte>, check: Check, aliased: bool)
    requires aliased ==> |command| <= |reply|
    ensures var o := Exchanged(e, l, command, reply, 0, check, aliased, 0);
            && o.link.sent == l.sent + [command] && o.link.heard == l.heard && o.reply == reply
            && o.r == if e.weather(l.turn).Fails? then Err(IO) else Ok(0)
  {
  }

  /**
   * What an exchange comes to is a failed transfer, or what its check makes of
   * the last reply: nothing at all, how long it is, or its first byte.
   */
  lemma {:induction false} LastReplyDecides<S>(e: Env<S>, l: Link<S>, command: seq<byte>, reply: seq<byte>,
                                               room: nat, check: Check, aliased: bool, retry: nat)
    requires 0 < room <= |reply| && retry <= WAIT_RETRIES && (aliased ==> |command| <= |reply|)
    ensures var o := Exchanged(e, l, command, reply, room, check, aliased, retry);
            || o.r == Err(IO)
            || (&& |o.link.heard| > |l.heard|
                && var last := o.link.heard[|o.link.heard| - 1].bytes;
                   && |last| <= |o.reply| && o.reply[..|last|] == last
                   && o.r == if check.Anything? then Ok(|last|)
                          else if check.ReplyLength? then if |last| == room then Ok(|last|) else Err(Protocol)
                          else if o.reply[0] == 0x80 then Ok(|last|)
                          else Err(TargetRefused))
    decreases WAIT_RETRIES - retry
  {
    hide Attempted;
    var once := Attempted(e, l, command, reply, room);
    OneAttempt(e, l, command, reply, room);
    if once.r.Ok? && Judge(check, once.reply, room, once.r.value, retry).Again? {
      var next := Slept(once.link, WaitBefore(retry));
      var block := if aliased then once.reply[..|command|] else command;
      LastReplyDecides(e, next, block, once.reply, room, check, aliased, retry + 1);
    }
  }

  /**
   * Success under a status check means the last message delivered it: its own
   * first byte says so and it is what the reply begins with. The one way round
   * that is a buffer that said so before anything was sent, and an empty reply.
   */
  lemma {:induction false} SuccessWasDelivered<S>(e: Env<S>, l: Link<S>, command: seq<byte>, reply: seq<byte>,
                                                  room: nat, check: Check, aliased: bool, retry: nat)
    requires 0 < room <= |reply| && retry <= WAIT_RETRIES && (aliased ==> |command| <= |reply|)
    requires check.Status? || check.Retry?
    ensures var o := Exchanged(e, l, command, reply, room, check, aliased, retry);
            o.r.Ok? ==>
              && Since(l, o.link) && |o.link.heard| > |l.heard|
              && var last := o.link.heard[|o.link.heard| - 1].bytes;
                 && o.r.value == |last| <= |o.reply| && o.reply[..|last|] == last
                 && (last != [] && last[0] == OK <==> !(last == [] && reply[0] == OK))
    decreases WAIT_RETRIES - retry
  {
    hide Attempted;
    var once := Attempted(e, l, command, reply, room);
    OneAttempt(e, l, command, reply, room);
    if once.r.Ok? && Judge(check, once.reply, room, once.r.value, retry).Again? {
      var next := Slept(once.link, WaitBefore(retry));
      var block := if aliased then once.reply[..|command|] else command;
      SuccessWasDelivered(e, next, block, once.reply, room, check, aliased, retry + 1);
    }
  }

  /** What the library always does: the reply buffer is zeroed first, so success is never a byte left over. */
  lemma ZeroedReplySucceedsOnlyOnDelivery<S>(e: Env<S>, l: Link<S>, command: seq<byte>, room: nat, check: Check)
    requires 0 < room && (check.Status? || check.Retry?)
    ensures var o := Exchanged(e, l, command, Zeros(room), room, check, false, 0);
            o.r.Ok? ==>
              && |o.link.heard| > |l.heard|
              && var last := o.link.heard[|o.link.heard| - 1].bytes;
                 last != [] && last[0] == OK && |last| <= room && o.reply[..|last|] == last
  {
    hide Exchanged;
    SuccessWasDelivered(e, l, command, Zeros(room), room, check, false, 0);
  }

  /** All that was sent between two moments was this. */
  predicate SentOnly<S>(l: Link<S>, k: Link<S>, command: seq<byte>) {
    forall i :: |l.sent| <= i < |k.sent| ==> k.sent[i] == command
  }

  /** A command that could be taken for a reply asking to wait, which none of the library's is. */
  predicate LooksLikeAWait(command: seq<byte>) {
    command == [] || AsksToWait(command[0])
  }

  /**
   * With the reply in the command's place, what goes out the second time is
   * the first reply laid over the command, so a run sends the command and
   * nothing else exactly when it sends it once.
   */
  lemma AliasedRunSendsTheCommandExactlyOnce<S>(e: Env<S>, l: Link<S>, command: seq<byte>, reply: seq<byte>, room: nat,
                                                check: Check)
    requires 0 < room <= |reply| && command <= reply && !LooksLikeAWait(command)
    ensures var o := Exchanged(e, l, command, reply, room, check, true, 0);
            SentOnly(l, o.link, command) <==> Attempts(l, o) == 1
  {
    hide Attempted;
    var once := Attempted(e, l, command, reply, room);
    OneAttempt(e, l, command, reply, room);
    var o := Exchanged(e, l, command, reply, room, check, true, 0);
    if once.r.Ok? && Judge(check, once.reply, room, once.r.value, 0).Again? {
      var block := once.reply[..|command|];
      assert AsksToWait(block[0]);
      var next := Slept(once.link, WaitBefore(0));
      FirstSentIsTheBlock(e, next, block, once.reply, room, check, true, 1);
      assert o.link.sent[|l.sent| + 1] == block != command;
    } else {
      assert o.link.sent == l.sent + [command];
    }
  }

  /** A programmer that always asks to wait. */
  function AlwaysBusy<S>(): Env<S> {
    Env((s, _) => (s, [[AP_WAIT]]), (_) => Fair)
  }

  /** Given one of those, an exchange that would try again does, and sends it its own reply. */
  lemma BusyGetsItsOwnReply<S>(l: Link<S>, command: seq<byte>, reply: seq<byte>, room: nat)
    requires 0 < room <= |reply| && command <= reply && !LooksLikeAWait(command) && l.inbox == []
    ensures !SentOnly(l, Exchanged(AlwaysBusy(), l, command, reply, room, Check.Retry, true, 0).link, command)
  {
    var e: Env<S> := AlwaysBusy();
    FairAttempt(e, l, command, reply, room);
    var once := Attempted(e, l, command, reply, room);
    assert once.reply[0] == AP_WAIT && once.r.Ok?;
    hide Attempted;
    AliasedRunSendsTheCommandExactlyOnce(e, l, command, reply, room, Check.Retry);
    FirstSentIsTheBlock(e, Slept(once.link, WaitBefore(0)), once.reply[..|command|], once.reply, room, Check.Retry,
                        true, 1);
    OneAttempt(e, l, command, reply, room);
  }

  /**
   * The whole command goes out again each time, to every programmer at every
   * moment, if and only if the reply goes somewhere else than the command or
   * the exchange does not retry.
   */
  lemma EveryBlockIsTheCommandExactly<S(!new)>(l: Link<S>, command: seq<byte>, reply: seq<byte>, room: nat,
                                               check: Check, aliased: bool)
    requires 0 < room <= |reply| && (aliased ==> command <= reply) && !LooksLikeAWait(command)
    ensures !aliased || !check.Retry? <==>
              forall e: Env<S>, k: Link<S> ::
                SentOnly(k, Exchanged(e, k, command, reply, room, check, aliased, 0).link, command)
  {
    hide Exchanged, SentOnly;
    if !aliased || !check.Retry? {
      forall e: Env<S>, k: Link<S>
        ensures SentOnly(k, Exchanged(e, k, command, reply, room, check, aliased, 0).link, command)
      {
        SendsTheCommand(e, k, command, reply, room, check, aliased);
      }
    } else {
      var k := l.(inbox := []);
      BusyGetsItsOwnReply(k, command, reply, room);
    }
  }

  lemma SendsTheCommand<S>(e: Env<S>, l: Link<S>, command: seq<byte>, reply: seq<byte>, room: nat, check: Check,
                           aliased: bool)
    requires 0 < room <= |reply| && (aliased ==> command <= reply) && !LooksLikeAWait(command)
    requires !aliased || !check.Retry?
    ensures SentOnly(l, Exchanged(e, l, command, reply, room, check, aliased, 0).link, command)
  {
    if aliased {
      hide Attempted;
      OneAttempt(e, l, command, reply, room);
      AliasedRunSendsTheCommandExactlyOnce(e, l, command, reply, room, check);
    } else {
      hide Exchanged;
      SameBlockEveryTime(e, l, command, reply, room, check, 0);
    }
  }

  lemma FirstSentIsTheBlock<S>(e: Env<S>, l: Link<S>, command: seq<byte>, reply: seq<byte>, room: nat,
                               check: Check, aliased: bool, retry: nat)
    requires 0 < room <= |reply| && retry <= WAIT_RETRIES && (aliased ==> |command| <= |reply|)
    ensures var o := Exchanged(e, l, command, reply, room, check, aliased, retry);
            Since(l, o.link) && |o.link.sent| > |l.sent| && o.link.sent[|l.sent|] == command
  {
    hide Attempted;
    var once := Attempted(e, l, command, reply, room);
    OneAttempt(e, l, command, reply, room);
    if once.r.Ok? && Judge(check, once.reply, room, once.r.value, retry).Again? {
      var next := Slept(once.link, WaitBefore(retry));
      var block := if aliased then once.reply[..|command|] else command;
      OnceMoreForEachWait(e, next, block, once.reply, room, check, aliased, retry + 1);
      assert once.link.sent[|l.sent|] == command;
    }
  }

  /** Nothing lost and nothing waiting: whatever the programmer answers is what is waiting then. */
  lemma FairSend<S>(e: Env<S>, l: Link<S>, bytes: seq<byte>)
    requires AlwaysFair(e) && l.inbox == []
    ensures var (device, replies) := e.respond(l.device, bytes);
            Send(e, l, bytes) ==
            (l.(device := device, inbox := From(|l.sent|, replies), turn := l.turn + 1, sent := l.sent + [bytes]),
             Ok(|bytes|))
  {
    hide From;
    assert e.weather(l.turn).Fair?;
    assert bytes[..|bytes|] == bytes;
    var waiting := From(|l.sent|, e.respond(l.device, bytes).1);
    assert l.inbox + waiting == waiting;
  }

  /** And with a reply to be read the first answer is what comes back, and any others are left. */
  lemma FairAttempt<S>(e: Env<S>, l: Link<S>, command: seq<byte>, reply: seq<byte>, room: nat)
    requires AlwaysFair(e) && l.inbox == [] && 0 < room <= |reply|
    requires e.respond(l.device, command).1 != [] && |e.respond(l.device, command).1[0]| <= room
    ensures var (device, messages) := e.respond(l.device, command); var n := |l.sent|;
            Attempted(e, l, command, reply, room) ==
            Outcome(l.(device := device, inbox := From(n, messages[1..]), turn := l.turn + 2,
                       sent := l.sent + [command], heard := l.heard + [Message(n, messages[0])]),
                    Overwrite(reply, messages[0]), Ok(|messages[0]|))
  {
    hide Overwrite, Send;
    FairSend(e, l, command);
    assert e.weather(l.turn + 1).Fair?;
    var n := |l.sent|;
    var (device, messages) := e.respond(l.device, command);
    var k := Send(e, l, command).0;
    assert k.inbox[0] == Message(n, messages[0]) && k.inbox[1..] == From(n, messages[1..]);
  }

  /** A check of nothing never sends a command twice. */
  lemma UncheckedIsOneAttempt<S>(e: Env<S>, l: Link<S>, command: seq<byte>, reply: seq<byte>, room: nat)
    requires room <= |reply|
    ensures Exchanged(e, l, command, reply, room, Anything, false, 0) == Attempted(e, l, command, reply, room)
  {
    hide Attempted;
  }

  /** A programmer that answers this command, each time it comes, with one message that fits. */
  ghost predicate Answers<S(!new)>(e: Env<S>, inv: S -> bool, command: seq<byte>, room: nat) {
    forall s :: inv(s) ==>
      var (t, messages) := e.respond(s, command);
      inv(t) && |messages| == 1 && |messages[0]| <= room
  }

  /** Then an exchange leaves nothing behind, and every reply it took was for the attempt that took it. */
  lemma {:induction false} ExchangeStaysInStep<S(!new)>(
      e: Env<S>, inv: S -> bool, l: Link<S>, command: seq<byte>, reply: seq<byte>, room: nat, check: Check, retry: nat)
    requires AlwaysFair(e) && l.inbox == [] && inv(l.device)
    requires 0 < room <= |reply| && retry <= WAIT_RETRIES && Answers(e, inv, command, room)
    ensures var o := Exchanged(e, l, command, reply, room, check, false, retry); var n := Attempts(l, o);
            && o.link.inbox == [] && inv(o.link.device)
            && Since(l, o.link) && n >= 1 && |o.link.heard| == |l.heard| + n
            && (forall i :: |l.heard| <= i < |l.heard| + n ==> o.link.heard[i].owner == |l.sent| + i - |l.heard|)
            && (o.r.Err? ==> o.r.code in {TargetRefused, Protocol})
    decreases WAIT_RETRIES - retry
  {
    hide Attempted;
    var (device, messages) := e.respond(l.device, command);
    assert messages == [messages[0]];
    var once := Attempted(e, l, command, reply, room);
    FairAttempt(e, l, command, reply, room);
    if Judge(check, once.reply, room, once.r.value, retry).Again? {
      var next := Slept(once.link, WaitBefore(retry));
      ExchangeStaysInStep(e, inv, next, command, once.reply, room, check, retry + 1);
      assert next.heard[|l.heard|].owner == |l.sent|;
    }
  }
}

# libstlink, modelled and proved

libstlink drives an ST-LINK probe and the STM32 behind it. This project models
the parts of it that carry state or protocol, each against an explicit
environment, and proves what they promise. `dafny verify dfyconfig.toml` checks
all of it.

Every part has the same shape. What an operation comes to is a function on
values. The calls, in the order the library makes them, are methods of classes
that update fields and buffers in place, and each method's contract says that
the new state is that function of the old one. The properties are lemmas about
the function, for all inputs, all runs and everything the environment can do.

| part | modules |
|---|---|
| connecting, against a Cortex-M debug unit that keeps running | DebugUnit, ConnectModel, Connect, ConnectProofs, ConnectTurns, CoreControl, ChipIdentity, AccessPorts |
| one connection, the retry loop, the buffer and its two framings | Wire, Command, Retry, Framing, Requests, Memory |
| the original command set, its firmware and its stream | OriginalModel, OriginalProofs, OriginalMeaning, Original |
| the later command set on a V2 and a V3, its firmware, access ports and memory | LaterModel, LaterProofs, Later |
| debug clock, trace | Clock, TraceModel, Trace |
| chip descriptions: parser, printer, database | Text, ChipDescription, ChipInsensitivity, ChipPrinter, ChipFields, ChipDatabase |
| open devices, discovery, signatures | Registry, Discovery, Signature |

## The environment

* The core is a step machine (sections C1.6.2, C1.6.5, B3.2.6 and B3.2.3 of the
  ARMv7-M Architecture Reference Manual). Between any two things the host does
  it may execute, take interrupts and reset itself. Each request may be
  reported to fail, and one that is may still have taken effect. nRST may be
  wired or not. Taken as given: a reset and a single step are over before the
  host's next access, a core held in reset executes nothing and ignores C_HALT
  but keeps C_DEBUGEN, debug state survives a reset, and entering debug does
  not by itself set C_DEBUGEN.
* A connection is a step function from what the programmer is sent to the
  messages it queues, with any transfer free to fail or to be taken in part.
  A receive takes one message, which may be short, and fails if it does not
  fit. The retry properties hold for every such programmer.
* The two firmwares are particular step functions: a memory per access port,
  reached only through the port that is open,
  and a mood per command that says whether the target gives the access, how
  much of the reply arrives and what is in a reply that says something other
  than it should. Neither takes on a command for words that is not aligned or
  a write of more than it carries. Behind the original one there is a core,
  which its commands hold, let go of, step and reset, and whose registers are
  to be had while it is held; a core that is running does as it likes in
  between. Taken as given: a step of a running core and a register access to
  one come to nothing, and whether a reset leaves the core held is its own
  affair. The
  whole-run properties suppose that no transfer fails or is taken in part, and
  nothing about the moods beyond what each states.
* Threads are interleaved at the granularity of the registry's lock. Directory
  contents are a sequence of texts, any of which may be unreadable. Texts hold
  no NUL. Sleeping moves a clock on by at least what was asked.

## Where the code says less than its comments

Each of these is proved, with the exact condition where there is one.

* A good connection under reset can leave the core running. It has caught the core
  exactly if probing settled on the port with the CPU and halting debug was on or a
  halt request got through (`ConnectingUnderResetCatchesExactly`, and by number of
  request `ConnectingUnderResetCatchesByTurns`). One lost request
  to open AP1 is enough for all that follows to be reported good and to reach nothing
  (`GoodConnectionLeavesTheCoreRunning`, `QuietFailure`).
* A normal connection can be reported good with no reset by the host. What follows
  the first read of DHCSR cannot undo the promise if and only if the later command
  set works through AP0, the CPU is there, that read left S_RESET_ST clear, and the
  target does not reset itself or is halted (`NormalModeResetsExactly`). So it can be
  lost on every V1 and on every part whose CPU is on AP1, where reads are memory
  reads that nothing answers for, and wherever probing settled on the wrong port
  (`OtherwiseNothingNeedBeReset`, `UnconfirmedFallbackPassesForAReset`).
* A normal connection can leave the target held in reset
  (`NormalModeLeavesThePinLowExactly`): letting go of nRST is not checked, and
  is not tried when driving it was reported to fail. Connecting under reset can too,
  but then says so (`UnderResetLeavesThePinLowExactly`).
* `software_reset` leaves the vector catch armed when it fails after the arming
  write got there, reported or not (`FailedResetLeavesTheCatchArmedExactly`), and
  when the disarming write is lost (`UnderResetDisarmsTheCatchExactly`).
* A step that fails half way leaves interrupts masked (`FailedStepLeavesTheMaskExactly`),
  and running a flash loader, or stepping a core that was let go of, changes
  C_MASKINTS in a write for which section C1.6.2 leaves the effect undefined
  (`DefinedExactlyWhenDisciplined`).
* The recorded access port and the open one can differ in one case only
  (`RecordedPortIsOpenExactly`).
* `exchange` may be given its command as the place for the reply, but then a
  target that asks to wait is sent its own reply. The whole command is sent again
  each time exactly if the two are apart or nothing is retried
  (`EveryBlockIsTheCommandExactly`).
* A later programmer's byte writes, and all of an original one's writes, report
  success whether or not they landed (`WriteMemoryWrites`, `WriteIsNeverConfirmed`);
  a memory read says nothing of a refused access (`ReadMemoryReads`); and a short
  reply to a register read is filled up with zeros (`NativeReadReads`). An
  original programmer's halt, run, step and reset are reported good even if the
  target did nothing of the kind (`PerformMeans`).
* `read_chip_id` can return zero (`ZeroExactlyWhenOnlyTheRevisionIsThere`).
* A V3 rate above 4294967 kHz wraps in hertz (`KilohertzSurviveExactly`).
* `find` leaves in debug mode a target whose chip the filter turns down, that could
  not be made out, or that did not let go (`LeavesTheTargetExactlyWhenLetGo`).
* A registry key is free again before the transport behind it is closed, and `find`
  takes none at all, so two transports to one programmer can be open
  (`TwoTransportsCanBeOpen`, `FindReachesAnOpenDevice`), though then one of them is
  closing or looking (`TwoTransportsMeansOneIsUnclaimed`).
* A number with a leading zero is octal, so plain digits that fit 32 bits are read
  as the decimal number they look like exactly when they have no leading zero or
  come to less than eight (`PlainDigitsAreDecimal`). The chip description notes list many fields as
  needed; the code needs `name`, `chip_id` and `family` alone (`DescriptionIsALookUp`).

## Model

| member | source | states |
|---|---|---|
| Connect.Programmer.ProbeAccessPort | libstlink/src/connect.cpp:52-73 | AP0 is asked, then AP1 if that will open, then AP0 is reopened if neither answered |
| Connect.Programmer.SawReset | libstlink/src/connect.cpp:76-81 | a failed read of DHCSR counts as no reset seen, and a good one clears what it saw |
| Connect.Programmer.SoftwareReset | libstlink/src/connect.cpp:88-126 | arm, reset, settle, disarm; a failed arming or reset ends it there |
| Connect.Programmer.ResetTheTarget | libstlink/src/connect.cpp:135-166 | pin and command first, AIRCR only if no reset was seen |
| Connect.Programmer.CatchIt | libstlink/src/connect.cpp:200-207 | the timed halt loop, as a function of the clock it reads |
| Connect.Programmer.ConnectUnderReset | libstlink/src/connect.cpp:175-220 | the whole sequence, with its two early failures |
| Connect.Programmer.ConnectToTarget | libstlink/src/connect.cpp:223-247 | entering debug, finding the port, and one of three modes |
| ConnectTurns.CatchWindowIsKept | libstlink/src/connect.cpp:200-207 | the loop ends, not before its window, having taken at least one turn and at most one an interval; it asks for a halt in every one of them, so on the CPU's port as many halts are taken as turns land |
| ConnectProofs.SoftwareResetCatchesExactly | libstlink/src/connect.cpp:88-126 | on any port, with any command set: on success exactly when its reset catches the core, and on success and on failure exactly when the catch is left armed |
| ConnectProofs.UnderResetCatchesTheCoreExactly | libstlink/src/connect.cpp:175-220 | over every interleaving, nRST wired or not, through any port: a good connection has caught the core at its vector, nothing executed since its own AIRCR reset, exactly if it went through the port with the CPU and debug was enabled before or a halt landed |
| ConnectProofs.UnderResetDisarmsTheCatchExactly | libstlink/src/connect.cpp:115-123 | and the catch is then armed exactly if its last request was lost, or, on another port, exactly if it was before |
| ConnectProofs.FailedResetLeavesTheCatchArmedExactly | libstlink/src/connect.cpp:97-111 | when the reset fails, on any port, the catch is left armed exactly if it was before or the arming write reached the core, reported or not |
| ConnectProofs.CaughtStaysCaught | libstlink/src/connect.cpp:214-219 | what was caught stays at its vector however long the host waits |
| ConnectTurns.UnderResetByTurns | libstlink/src/connect.cpp:175-220 | how it comes out, by number of turn: the first drives nRST, the third lets go, and no other failure counts but of arming and resetting; at least 20 ms; and the halts that count are those of the second turn and of the loop |
| ConnectTurns.UnderResetCatchesByTurns | libstlink/src/connect.cpp:175-220 | a good one has caught the core exactly if it is on the CPU's port and debug was on, or the halt asked for with nRST low landed, or one of those asked for after it was let go |
| ConnectTurns.UnderResetOnTime | libstlink/src/connect.cpp:28-39 | with requests that take no time it is 20 us, a hundred times 100 us, and 10 ms, in 107 requests |
| ConnectTurns.NormalModeOnTime | libstlink/src/connect.cpp:28-39 | and a normal one 20 us if nRST is driven, 10 ms, and 10 ms more for the fallback |
| ConnectTurns.NormalModeByTurns | libstlink/src/connect.cpp:135-166 | good if the second read saw a reset, and else as the AIRCR write was reported; the host reset the target exactly if driving the pin did, the command landed, or there was a write to AIRCR and it reached the core |
| ConnectTurns.NormalModeLeavesTheDebugState | libstlink/src/connect.cpp:135-166 | neither the catch nor C_DEBUGEN nor C_MASKINTS is changed by it |
| ConnectTurns.SawResetExactly | libstlink/src/connect.cpp:76-81 | a read that reaches the core sees a reset exactly if it is reported good, arrives, and there was one |
| ConnectProofs.ConnectingUnderResetCatchesExactly | libstlink/src/connect.cpp:223-247 | the same of the whole connection, both ways, from entering debug and whichever port probing settled on |
| ConnectTurns.ConnectingUnderResetCatchesByTurns | libstlink/src/connect.cpp:223-247 | the same by number of turn, on the port that it ends up on |
| ConnectTurns.ConnectingEndsWithoutDebugExactly | libstlink/src/connect.cpp:225-230 | over JTAG, or if entering debug fails, it fails and nothing more is done, and in no other case does it fail with that code |
| ConnectTurns.ProbingFindsTheCpu | libstlink/src/connect.cpp:41-73 | with every request made answered, the port recorded and the port open are 1 exactly if the CPUID behind AP1 names ARM and the one behind AP0 does not |
| ConnectTurns.WellConnectedUnderReset | libstlink/src/connect.cpp:223-247 | with all that is asked done, connecting under reset is good, is on that port, and has caught the core exactly if that is where it is |
| ConnectTurns.WellConnectedNormally | libstlink/src/connect.cpp:223-247 | and connecting normally is good, is on that port, and has had the target reset by the host |
| ConnectProofs.GoodConnectionLeavesTheCoreRunning | libstlink/src/connect.cpp:41-73 | left on another port by probing, with all after it reported good, it is reported good and the core runs on |
| ConnectProofs.QuietFailure | libstlink/src/connect.cpp:59-62 | such a target, on which one lost request is enough |
| ConnectProofs.ClearingLeavesTheBitExactly | libstlink/src/connect.cpp:137 | when the clearing read leaves the sticky bit set, both ways |
| ConnectProofs.NormalModeResetsIfCarriedOut | libstlink/src/connect.cpp:135-166 | on any programmer and port: with the bit cleared, a good connection has seen a reset since, if the one request it is believed for was carried out |
| ConnectProofs.NormalModeResets | libstlink/src/connect.cpp:135-166 | and by the later command set through AP0, with the CPU there, it always was |
| ConnectProofs.NormalModeResetsByHost | libstlink/src/connect.cpp:135-166 | and one by pin, command or AIRCR if the target is halted or leaves itself alone |
| ConnectProofs.OtherwiseNothingNeedBeReset | libstlink/src/connect.cpp:135-161 | otherwise there is a way on that is reported good and in which the host resets nothing: on a V1, on a port read as memory, on a port without the CPU, with the bit still set, or with a target that resets itself |
| ConnectProofs.UnconfirmedFallbackPassesForAReset | libstlink/src/connect.cpp:106-125 | and, on a V1 or a port without the CPU, one in which it is the AIRCR write that is believed |
| ConnectProofs.NormalModeResetsExactly | libstlink/src/connect.cpp:135-166 | so for all continuations, with self-resets and without, a good connection was reset by the host if and only if those conditions hold |
| ConnectProofs.NormalModeResetsByHostExactly | libstlink/src/connect.cpp:135-166 | of each single connection: the host reset the target exactly if the pin did, the command landed, or nothing was seen and the AIRCR write reached the core |
| ConnectProofs.PinResetsExactly | libstlink/src/programmer_v2.cpp:414-432 | driving nRST resets exactly if it gets there, is wired and was high |
| ConnectProofs.CommandResetsExactly | libstlink/src/programmer_v2.cpp:396-412 | the debug command resets exactly if it gets there |
| ConnectProofs.HaltTurnsDebugOn | libstlink/src/programmer_v2.cpp:352-360 | a halt turns halting debug on exactly if it gets there, through the port with the CPU |
| ConnectProofs.ConnectingNormallyResetsExactly | libstlink/src/connect.cpp:223-247 | end to end, the host's reset of a good normal connection is strictly after debug was entered, under exactly that condition |
| ConnectProofs.NormalModeLeavesThePinLowExactly | libstlink/src/connect.cpp:139-146 | when nRST is left low at the end, wherever it was to begin with, both ways |
| ConnectProofs.UnderResetLeavesThePinLowExactly | libstlink/src/connect.cpp:177-194 | the same of connecting under reset, where it is always reported as a failure |
| ConnectProofs.HotPlugDisturbsNothing | libstlink/src/connect.cpp:236-238 | nothing happens to the core but the passing of time |
| AccessPorts.ProbeAccessPort | libstlink/src/connect.cpp:52-73 | the same sequence over the programmer's own calls, down to its buffer |
| AccessPorts.CpuidTravelsByPort | libstlink/src/programmer_v2.cpp:573-610 | CPUID is asked for by its own command on AP0 and as memory of the port on any other |
| AccessPorts.ProbingKeepsAgreement | libstlink/src/connect.cpp:52-73 | whatever the target refuses, probing changes no memory and ends with recorded and open port in agreement |
| AccessPorts.ProbingFindsTheCpu | libstlink/src/connect.cpp:41-73 | when its requests succeed that port is 1 exactly if the CPUID behind AP1 names ARM and the one behind AP0 does not |
| ConnectProofs.RecordedPortIsOpenExactly | libstlink/src/connect.cpp:52-73 | whatever fails, recorded and open port agree unless the last select landed unreported |
| ConnectProofs.OriginalCommandSetStaysPut | libstlink/src/programmer_v1.cpp:275-282 | a V1 stays on the port it is on |
| ConnectProofs.OriginalCommandSetCannotHoldInReset | libstlink/src/programmer_v1.cpp:432-437 | a V1 never connects under reset, and does nothing to the core in trying |
| CoreControl.RunTheCore | libstlink/src/programmer_v2.cpp:362-370 | one DHCSR write, masked for a loader |
| CoreControl.StepTheCore | libstlink/src/programmer_v2.cpp:372-394 | three DHCSR writes, stopping at the first that fails |
| CoreControl.OneWrite | libstlink/src/programmer_v2.cpp:352-355 | a DHCSR write that gets there sets the mask as it says, and halts the core where it is if it says so |
| CoreControl.StepObeys | libstlink/src/programmer_v2.cpp:372-394 | a good step halts the core where it is, retires exactly one instruction, takes no interrupt, loses none, and lifts the mask |
| CoreControl.FailedStepLeavesTheMaskExactly | libstlink/src/programmer_v2.cpp:379-393 | which failing steps leave interrupts masked, both ways |
| CoreControl.PerformObeys | libstlink/src/programmer_v2.cpp:352-394 | halt, run and step each do what a simple core does |
| CoreControl.RunsObey | libstlink/src/programmer_v2.cpp:352-394 | every run of good operations is a run of the simple core, operation by operation |
| CoreControl.LastOperationDecides | libstlink/src/programmer_v2.cpp:352-394 | held exactly unless the last was a run, masked exactly after a loader's run |
| CoreControl.SteppingCounts | libstlink/src/programmer_v2.cpp:372-394 | a core only stepped has executed one instruction a step, uninterrupted |
| CoreControl.DefinedExactlyWhenDisciplined | libstlink/src/programmer_v2.cpp:362-394 | a run makes only writes whose effect is defined if and only if it runs no loader and steps only a held core |
| ChipIdentity.Reader.ReadAt | libstlink/src/chip_identity.cpp:75-86 | one read, its failure renamed |
| ChipIdentity.Reader.ReadCpuId | libstlink/src/chip_identity.cpp:89-124 | the fields of CPUID, refused if they name no ARM core |
| ChipIdentity.Reader.ReadChipId | libstlink/src/chip_identity.cpp:126-248 | the branches are a search of a table of places, the first that holds anything deciding |
| ChipIdentity.ZeroExactlyWhenOnlyTheRevisionIsThere | libstlink/src/chip_identity.cpp:225-230 | success exactly if something was found, and zero exactly if its low twelve bits are |
| ChipIdentity.SuccessCanBeZero | libstlink/include_pv/stlink/chip_identity.h:64 | a chip for which it is |
| ChipIdentity.SearchReadsInOrder | libstlink/src/chip_identity.cpp:150-223 | a place is read only after those before it read as nothing |
| ChipIdentity.AtMostThreeReads | libstlink/src/chip_identity.cpp:126-223 | CPUID first, at most two places after it, and nothing if the debug port does not answer |
| ChipIdentity.IdentityByCore | libstlink/src/chip_identity.cpp:126-248 | core by core, with addresses and part numbers written out: which registers are read, and what identifier they make, the F4 erratum included |
| ChipIdentity.NothingReadOfAStranger | libstlink/src/chip_identity.cpp:89-144 | nothing more is read of a port that does not answer or a core that is not ARM's |
| ChipIdentity.CpuIdIsItsFields | libstlink/src/chip_identity.cpp:89-104 | a CPUID put together from its fields is taken apart into them again |
| Retry.FairSend | libstlink/include_pv/stlink/transport.h:89-95 | what is sent whole is taken whole, and what is waiting then is the programmer's answer to it and to nothing else |
| Command.CommandChannel.TransportReceive | libstlink/include_pv/stlink/transport.h:97-107 | one message at the front of the buffer, the rest untouched, an oversized one an error |
| Command.CommandChannel.Send | libstlink/src/command.cpp:75-99 | a command taken in part is not a failure |
| Command.CommandChannel.Exchange | libstlink/src/command.cpp:101-169 | the retry loop over caller's buffers, which may be one and the same, is the recursive exchange |
| Retry.SameBlockEveryTime | libstlink/src/command.cpp:20-28 | with disjoint buffers the identical block goes out one to four times, pausing 1000*(2^k-1) microseconds and never over 7000 |
| Retry.OnceMoreForEachWait | libstlink/src/command.cpp:131-149 | once, plus once per leading answer that asked to wait; and why it stopped |
| Retry.LastReplyDecides | libstlink/src/command.cpp:128-165 | an exchange comes to a failed transfer, or to what its check makes of the last reply: nothing, its length, or its first byte |
| Retry.NoReplyIsWaitedFor | libstlink/src/command.cpp:113-121 | with no reply wanted a command is sent once and nothing is read |
| Retry.SuccessWasDelivered | libstlink/src/command.cpp:127-156 | success under a status check was in the last message itself, unless the buffer said so before anything was sent |
| Retry.ZeroedReplySucceedsOnlyOnDelivery | libstlink/src/command.cpp:101-169 | so with a zeroed reply it is never a byte left by an earlier attempt |
| Retry.AliasedRunSendsTheCommandExactlyOnce | libstlink/src/command.cpp:106-149 | with the reply in the command's place a run sends the command and nothing else exactly if it sends it once |
| Retry.EveryBlockIsTheCommandExactly | libstlink/include_pv/stlink/command.h:104-114 | the whole command goes out each time, to every programmer, if and only if the reply goes elsewhere or the exchange does not retry |
| LaterProofs.NoBlockLooksLikeAWait | libstlink/include_pv/stlink/protocol.h:30-39 | no block the library sends could be mistaken for a wait, as those two suppose |
| Retry.ExchangeStaysInStep | libstlink/src/command.cpp:101-169 | if each command is answered once, nothing is left queued and every reply was for the attempt that took it |
| Framing.CommandBlock.constructor | libstlink/src/programmer_base.cpp:23-28 | a block begins where the framing ended, in a buffer otherwise zero |
| Framing.CommandBlock.U8 | libstlink/src/programmer_base.cpp:30-37 | one byte more, in place |
| Framing.CommandBlock.U16 | libstlink/src/programmer_base.cpp:39-45 | two, least significant first |
| Framing.CommandBlock.U32 | libstlink/src/programmer_base.cpp:47-53 | four, least significant first |
| Framing.Assembler.Frame | libstlink/src/programmer_v1.cpp:83-96 | the wrapper of section 5.1 of Bulk-Only Transport, or nothing |
| Framing.Assembler.Begin | libstlink/src/programmer_base.cpp:145-156 | whatever the buffer held before, it is the wrapper and zeros |
| Framing.WrittenIsTheBlock | libstlink/src/programmer_base.cpp:75-78 | the whole block is sent, what was not written being zero |
| Framing.WrappedIsPlainBehindAHeader | libstlink/src/programmer_v1.cpp:83-96 | bytes 15 to 30 of a wrapped command are the plain command |
| Framing.HeaderReadsBack | libstlink/src/programmer_v1.cpp:86-93 | tag, reply size and direction are exactly what is in the wrapper |
| Requests.Payload | libstlink/include_pv/stlink/protocol.h:30-105 | every command of every generation fits its block |
| Requests.Append | libstlink/src/programmer_v2.cpp:462-467 | the bytes appended for each command, after whatever was there |
| Requests.Assemble | libstlink/src/programmer_base.cpp:145-156 | over any history of the buffer a block depends on its own command, direction, reply size and tag alone |
| Requests.DecodingRecoversTheRequest | libstlink/include_pv/stlink/protocol.h:49-99 | decoding a block gives back the command, address, length, port and values in it |
| Requests.NoPortIsPortZero | libstlink/src/programmer_v1.cpp:467-471 | naming no port, as a V1 does, is the same block as naming port zero |
| Requests.CommonCommands | libstlink/include_pv/stlink/protocol.h:31-75 | the commands of every generation, byte for byte |
| Requests.OriginalCommands | libstlink/include_pv/stlink/protocol.h:50-76 | those of the original command set |
| Requests.LaterCommandsWithWords | libstlink/include_pv/stlink/protocol.h:76-86 | and those of the later one that carry words |
| Original.ProgrammerV1.DiscardStatusWrapper | libstlink/src/programmer_v1.cpp:98-117 | the tag moves on only once the wrapper was read |
| Original.ProgrammerV1.Exchange | libstlink/src/programmer_v1.cpp:119-144 | reply, then wrapper |
| Original.ProgrammerV1.Send | libstlink/src/programmer_v1.cpp:146-156 | wrapper at once |
| Original.ProgrammerV1.Mode | libstlink/src/programmer_v1.cpp:160-195 | an empty reply is a protocol error, with the wrapper read all the same |
| Original.ProgrammerV1.EnterDebug | libstlink/src/programmer_v1.cpp:247-265 | JTAG is refused before anything is sent |
| Original.ProgrammerV1.LeaveDebug | libstlink/src/programmer_v1.cpp:267-273 | a command with no reply |
| Original.ProgrammerV1.SelectAccessPort | libstlink/src/programmer_v1.cpp:275-282 | refused |
| Original.ProgrammerV1.GetCoreId | libstlink/src/programmer_v1.cpp:284-301 | a word from the front of the reply |
| Original.ProgrammerV1.GetState | libstlink/src/programmer_v1.cpp:305-343 | by the first byte, unknown if there is none |
| Original.ProgrammerV1.Halt | libstlink/src/programmer_v1.cpp:345-362 | the operation that PerformMeans says leaves the core held, its reply not looked at |
| Original.ProgrammerV1.Run | libstlink/src/programmer_v1.cpp:364-392 | the operation that PerformMeans says lets go of it, for a loader as for anything else |
| Original.ProgrammerV1.Step | libstlink/src/programmer_v1.cpp:394-411 | a command, where a later programmer writes DHCSR |
| Original.ProgrammerV1.Reset | libstlink/src/programmer_v1.cpp:413-430 | a reply that is not looked at |
| Original.ProgrammerV1.ReadMemory | libstlink/src/programmer_v1.cpp:441-486 | the refusals in order, then a read that must be whole |
| Original.ProgrammerV1.WriteMemory | libstlink/src/programmer_v1.cpp:488-547 | the refusals in order, then descriptor, data and one wrapper |
| Original.ProgrammerV1.ReadDebugRegister | libstlink/src/programmer_v1.cpp:551-568 | a word of memory |
| Original.ProgrammerV1.WriteDebugRegister | libstlink/src/programmer_v1.cpp:570-585 | a word of memory |
| Original.ProgrammerV1.ReadRegister | libstlink/src/programmer_v1.cpp:589-606 | a word from the front of the reply |
| Original.ProgrammerV1.WriteRegister | libstlink/src/programmer_v1.cpp:608-625 | a reply that is not looked at |
| OriginalProofs.AskInStep | libstlink/src/programmer_v1.cpp:119-144 | the reply consumed answers this command, the wrapper is its own, and nothing is left |
| OriginalProofs.TellInStep | libstlink/src/programmer_v1.cpp:146-156 | the same of a command with no reply |
| OriginalProofs.PushInStep | libstlink/src/programmer_v1.cpp:515-546 | the same of a write, whose wrapper follows the data |
| OriginalProofs.PerformInStep | libstlink/src/programmer_v1.cpp:83-156 | any operation is settled unsent or is one command, tagged with the number of operations before it |
| OriginalProofs.RunsStayInStep | libstlink/src/programmer_v1.cpp:83-156 | over any run, refusals and short replies included, the channel is empty between operations, every message was an answer of the run's own, and the firmware did exactly what was asked in order |
| OriginalProofs.TagCountsTheOperations | libstlink/src/programmer_v1.cpp:109-114 | the tag is the number of operations completed, modulo 2^32 |
| OriginalProofs.EverythingIsOnPortZero | libstlink/src/programmer_v1.cpp:275-282 | a V1 never names any port but the default one |
| OriginalProofs.SettledExactlyUnsent | libstlink/src/programmer_v1.cpp:441-513 | which operations are refused, or done with, before anything is sent, and as what |
| OriginalProofs.TagMovesUnlessATransferFails | libstlink/src/programmer_v1.cpp:98-156 | whatever transfers fail, the tag moves on exactly if none of the operation's did |
| OriginalProofs.PartialDataFails | libstlink/src/programmer_v1.cpp:526-539 | a write whose data is taken only in part has failed |
| OriginalMeaning.PerformMeans | libstlink/src/programmer_v1.cpp:158-672 | each operation by what it is for: if the target gave it, Halt leaves the core held where it was, Run lets go of it, Step is one instruction on, Reset is at the vector, a register or memory holds what was written, and a whole reply says what is there; if it did not, nothing has changed; and only a short read of memory is reported |
| OriginalMeaning.RunsMean | libstlink/src/programmer_v1.cpp:158-672 | and so for every operation of every run, refusals and short replies included |
| OriginalMeaning.LastOrderDecides | libstlink/src/programmer_v1.cpp:345-411 | over any run without a reset the core is held as the last Halt or Run left it, and has not been reset |
| OriginalMeaning.SteppingCounts | libstlink/src/programmer_v1.cpp:394-411 | a core held throughout has executed one instruction a step and none besides |
| OriginalMeaning.RegistersAreWhatWasWritten | libstlink/src/programmer_v1.cpp:589-625 | the registers of one that is not stepped either are what was written to them, in order |
| OriginalMeaning.WrittenRegisterReadsBack | libstlink/src/programmer_v1.cpp:589-625 | a register written reads back, whatever is done in between that leaves it alone |
| OriginalMeaning.MemoryIsWhatWasWritten | libstlink/src/programmer_v1.cpp:488-547 | over any run memory is what the writes the target took make of it |
| OriginalMeaning.ReadReturnsMemory | libstlink/src/programmer_v1.cpp:467-485 | a read is good exactly if its reply was whole, and is then memory if the target gave it |
| OriginalMeaning.WriteIsNeverConfirmed | libstlink/src/programmer_v1.cpp:503-546 | words go by the command for words and anything else by the one for bytes, which the firmware takes whenever the target gives the access; and a write is reported good either way |
| OriginalMeaning.WrittenIsReadBack | libstlink/src/programmer_v1.cpp:441-547 | written words are read back if the target gave those two accesses and the reply was whole, with all other memory unchanged |
| Original.StateIsTheCores | libstlink/src/programmer_v1.cpp:325-342 | asked for its state, the core is told to be held or running as it is |
| Original.ModeIsTheProgrammers | libstlink/src/programmer_v1.cpp:175-194 | the mode told is the programmer's, by its number |
| Original.WordIsTheTargets | libstlink/src/programmer_v1.cpp:284-301 | the identity and the register told are the target's |
| Later.ProgrammerV2.SelectAccessPort | libstlink/src/programmer_v2.cpp:280-299 | the port is recorded only once the firmware agreed |
| Later.ProgrammerV2.ReadMemory | libstlink/src/programmer_v2.cpp:436-478 | the refusals in order, then a read on the selected port |
| Later.ProgrammerV2.CheckLastWrite | libstlink/src/programmer_v2.cpp:547-569 | either status command, in one buffer |
| Later.ProgrammerV2.WriteMemory | libstlink/src/programmer_v2.cpp:480-545 | the write that WriteMemoryWrites is about: words are confirmed and bytes are not, with a limit on bytes of 64 or 512 |
| Later.ProgrammerV2.ReadDebugRegister | libstlink/src/programmer_v2.cpp:573-610 | its own command on AP0, memory elsewhere |
| Later.ProgrammerV2.WriteDebugRegister | libstlink/src/programmer_v2.cpp:612-644 | its own command on AP0, memory elsewhere |
| LaterProofs.EffectExactlyOnSuccess | libstlink/src/command.cpp:106-168 | however often it is resent, a command that answers for itself is carried out once if it is reported good and not at all otherwise |
| LaterProofs.RetriedUntilGiven | libstlink/src/command.cpp:106-168 | one that may be resent succeeds exactly if the target gives it after asking for time at most three times |
| LaterProofs.GivenInTimeExactly | libstlink/src/programmer_v2.cpp:280-644 | so opening a port, and reading or writing a register on AP0, succeed exactly then |
| LaterProofs.ReadMemoryReads | libstlink/src/programmer_v2.cpp:462-477 | good exactly if the reply was whole, and then memory of the selected port if the target gave it |
| LaterProofs.LastWriteIsChecked | libstlink/src/programmer_v2.cpp:547-569 | good exactly if the last access was |
| LaterProofs.WriteMemoryWrites | libstlink/src/programmer_v2.cpp:507-544 | what is words goes by the command for words, anything else by the one for bytes, and the firmware takes either; a word write is reported good exactly if it landed, a byte write always, and only what is addressed changes |
| LaterProofs.SettledExactly | libstlink/src/programmer_v2.cpp:436-505 | which reads and writes are refused, or done with, before anything is sent, and as what |
| LaterProofs.StatusAskedFor | libstlink/src/programmer_v2.cpp:547-557 | whether it landed is asked by the better command exactly if the revision has it |
| LaterProofs.RegisterWriteTravelsByPort | libstlink/src/programmer_v2.cpp:612-644 | a register is written by its own command on AP0 and as a word of memory elsewhere |
| LaterProofs.PartialDataFails | libstlink/src/programmer_v2.cpp:524-534 | a write whose data is taken only in part has failed |
| LaterProofs.SelectAsReported | libstlink/src/programmer_v2.cpp:280-299 | recorded and open port agree before and after |
| LaterProofs.WriteDebugAsReported | libstlink/src/programmer_v2.cpp:612-644 | by either route the same word of the selected port is written exactly if that is reported |
| LaterProofs.ReadDebugAsReported | libstlink/src/programmer_v2.cpp:573-610 | by either route nothing is changed |
| LaterProofs.PerformAsReported | libstlink/src/programmer_v2.cpp:280-644 | any operation but a byte write has happened exactly as reported |
| LaterProofs.RunsRefineTheReports | libstlink/src/programmer_v2.cpp:280-644 | over any run of those, at every point: memory on every port and the open port are what the reports alone say, and each good read returns what is in that memory |
| LaterProofs.DisagreementReachesNothing | libstlink/src/programmer_v2.cpp:295-296 | through a port that is not the open one no read says anything and no word lands |
| LaterProofs.NativeReadReads | libstlink/src/programmer_v2.cpp:594-609 | what arrives is the register, what does not is zero |
| LaterProofs.EitherRouteReadsTheSameWord | libstlink/src/programmer_v2.cpp:573-610 | by either route a register is the same word of the selected port |
| LaterProofs.WrittenRegisterReadsBack | libstlink/src/programmer_v2.cpp:573-644 | a register written is read back as register and as memory, with the rest untouched |
| LaterProofs.WrittenMemoryReadsBack | libstlink/src/programmer_v2.cpp:436-545 | words written are read back on any port, with the rest untouched |
| Clock.ClockRatesV2 | libstlink/src/programmer_v2.cpp:165-182 | the table, or nothing on older firmware |
| Clock.FindDivisor | libstlink/src/programmer_v2.cpp:194-206 | the loop finds the first rate that matches |
| Clock.SetClockV2 | libstlink/src/programmer_v2.cpp:184-229 | refused unless settable and listed, else its divisor is sent |
| Clock.DivisorIsTheTables | libstlink/src/programmer_v2.cpp:197-213 | a rate has a divisor exactly if it is listed, and then the table's |
| Clock.V2SendsExactlyWhatItReports | libstlink/src/programmer_v2.cpp:165-229 | refused unless settable and reported, with which code; else the divisor that means it goes out, 1.8 MHz being meant by none in particular, and success is the programmer's last word |
| Clock.ClockRatesV3 | libstlink/src/programmer_v3.cpp:58-105 | the loop over a clamped count reads no byte past the reply and leaves out the padding |
| Clock.SetClockV3 | libstlink/src/programmer_v3.cpp:107-152 | the list is asked for first, and the rate must be in it |
| Clock.V3SendsExactlyWhatItReports | libstlink/src/programmer_v3.cpp:107-152 | a rate goes on the wire, once, exactly if it was listed, 1 MHz being meant by none in particular; with which code it is refused otherwise |
| Clock.ListIsAskedForOnce | libstlink/src/programmer_v3.cpp:58-79 | the list is asked for by one exchange, and good if the programmer's last word is |
| Clock.ListIsLaidOut | libstlink/src/programmer_v3.cpp:81-100 | where in the reply the count and the rates stand |
| Clock.ReportedIsListed | libstlink/src/programmer_v3.cpp:93-102 | what is reported is what is listed among those counted, both ways |
| Clock.KilohertzSurviveExactly | libstlink/src/programmer_v3.cpp:95-100 | a rate comes back as listed exactly up to 4294967 kHz |
| Clock.FirstRateThatDoesNotSurvive | libstlink/src/programmer_v3.cpp:100 | the next one would be sent as none at all |
| Clock.WhatIsSentWasListed | libstlink/src/programmer_v3.cpp:107-152 | for any count claimed and rates up to that, the command that sets the clock, if it is sent, carries kilohertz the device listed |
| Trace.TransportReceiveTrace | libstlink/include_pv/stlink/transport.h:109-111 | one transfer of trace, by the same rules |
| Trace.ReadTrace | libstlink/src/programmer_v2.cpp:798-858 | the count first, then all of it or none |
| Trace.ReadConserves | libstlink/src/programmer_v2.cpp:812-857 | what comes back is exactly what has gone from the stream, nothing if refused for want of room |
| Trace.ReadWithRoomTakesEverything | libstlink/src/programmer_v2.cpp:826-843 | with room for it, all that was there |
| Trace.ReadComesOutExactly | libstlink/src/programmer_v2.cpp:798-857 | how every read comes out, by what it was given and how much was waiting |
| Trace.ShortHandoverLoses | libstlink/src/programmer_v2.cpp:850-857 | output is lost exactly when less is handed over than was announced |
| Trace.TraceIsConserved | libstlink/src/programmer_v2.cpp:798-858 | over any run of reads, with output arriving at any time: nothing lost, nothing twice, in order |
| Trace.ReturnedIsAPrefix | libstlink/src/programmer_v2.cpp:798-858 | all that was returned is a prefix of all that was emitted |
| Text.Trim | libstlink/src/chip_description.cpp:47-60 | both loops, over a shrinking text |
| Text.HexadecimalReadsBack | libstlink/src/chip_description.cpp:76-103 | every 32-bit number printed in hexadecimal reads back |
| Text.DecimalReadsBack | libstlink/src/chip_description.cpp:76-103 | and printed in decimal |
| Text.PlainDigitsAreDecimal | libstlink/src/chip_description.cpp:88 | exactly when digits are read as the decimal number they look like |
| ChipDescription.ParseFlags | libstlink/src/chip_description.cpp:105-136 | the loop over the words, ending at the first that is no flag |
| ChipDescription.ParseLine | libstlink/src/chip_description.cpp:181-201 | comment, trimming, field and value |
| ChipDescription.ParseSetting | libstlink/src/chip_description.cpp:203-304 | which kind of field it is, and whether the value is one |
| ChipDescription.ParseChipDescription | libstlink/src/chip_description.cpp:165-314 | the whole loop, over a shrinking text, is a fold over the lines |
| ChipInsensitivity.SameContentSameResult | libstlink/src/chip_description.cpp:173-305 | only the lines that say something count |
| ChipInsensitivity.SpacesAndCommentsAreFiller | libstlink/src/chip_description.cpp:181-186 | blank and comment lines say nothing |
| ChipInsensitivity.FillerChangesNothing | libstlink/src/chip_description.cpp:173-186 | and may go in anywhere |
| ChipInsensitivity.TrailingCommentChangesNothing | libstlink/src/chip_description.cpp:63-68 | a comment behind a line changes nothing |
| ChipInsensitivity.CrLfChangesNothing | libstlink/src/chip_description.cpp:42-60 | nor do CRLF endings, in any text |
| ChipInsensitivity.DescriptionIsALookUp | libstlink/src/chip_description.cpp:165-314 | a file is read exactly if no line is malformed and a name, an identifier and a family are among them, and then as the map from field to last value |
| ChipInsensitivity.FirstFaultIsGiven | libstlink/src/chip_description.cpp:173-304 | and what it is turned down for is the first fault in it |
| ChipFields.SettingIsRefusedExactly | libstlink/src/chip_description.cpp:203-304 | a setting is malformed for a family, flag, number or name there is none of, and for nothing else |
| ChipFields.FlashNumbersGoWhereTheyAreNamed | libstlink/src/chip_description.cpp:251-267 | where the identifier and the numbers about flash go, by name |
| ChipFields.MemoryNumbersGoWhereTheyAreNamed | libstlink/src/chip_description.cpp:268-283 | and those about SRAM and the boot ROM |
| ChipFields.OtherNumbersGoWhereTheyAreNamed | libstlink/src/chip_description.cpp:284-299 | and those about option bytes and OTP |
| ChipFields.FlagsAreASet | libstlink/src/chip_description.cpp:105-136 | a flags line is a set of words, of which there are two; any other is malformed |
| ChipFields.HexadecimalIsReadWhole | libstlink/src/chip_description.cpp:76-103 | a hexadecimal number is read as a whole, if it fits, or not at all |
| ChipInsensitivity.OrderChangesNothing | libstlink/src/chip_description.cpp:173-305 | lines with distinct fields may come in any order |
| ChipInsensitivity.LaterLineWins | libstlink/src/chip_description.cpp:203-299 | a repeated field takes its last value |
| ChipPrinter.FlagsReadBack | libstlink/src/chip_description.cpp:105-136 | every set of flags reads back from its names |
| ChipPrinter.FamiliesReadBack | libstlink/src/chip_description.cpp:139-163 | the two table lookups undo each other |
| ChipPrinter.SettingsReadBack | libstlink/src/chip_description.cpp:173-305 | any settings, printed line by line, read back |
| ChipPrinter.ParserUndoesPrinter | libstlink/src/chip_description.cpp:165-314 | for every describable chip, its fields in any order, numbers either way, any gap: exactly that chip |
| ChipPrinter.PrintReadsBack | libstlink/src/chip_description.cpp:165-314 | and so for the printer that leaves out what is worth nothing |
| ChipDatabase.Database.constructor | libstlink/src/chip_database.cpp:19-24 | it begins empty |
| ChipDatabase.Database.Find | libstlink/src/chip_database.cpp:26-37 | the loop finds the first with the identifier |
| ChipDatabase.Database.Add | libstlink/src/chip_database.cpp:39-55 | replaced where it is, or put at the end |
| ChipDatabase.Database.AddDirectory | libstlink/src/chip_database.cpp:57-109 | every file that parses is added in turn, and counted |
| ChipDatabase.Database.ReadFile | libstlink/src/chip_database.cpp:77-96 | a file that cannot be read or does not parse is skipped |
| ChipDatabase.FindIsALookup | libstlink/src/chip_database.cpp:26-37 | with distinct identifiers, find is lookup in the map |
| ChipDatabase.SizeIsTheMapSize | libstlink/src/chip_database.cpp:111-114 | and size the number of identifiers |
| ChipDatabase.AddIsAnUpdate | libstlink/src/chip_database.cpp:39-55 | and add an update |
| ChipDatabase.DatabaseIsAMap | libstlink/src/chip_database.cpp:26-109 | after any sequence of adds and directories identifiers are unique and the last write wins |
| ChipDatabase.DirectoryOrderDoesNotMatter | libstlink/src/chip_database.cpp:70-100 | files with distinct identifiers may be listed in any order |
| ChipDatabase.UnparsableFilesChangeNothing | libstlink/src/chip_database.cpp:80-96 | unreadable and unparsable files change nothing, wherever they come |
| ChipDatabase.ReadableFilesAreAdded | libstlink/src/chip_database.cpp:80-100 | and every other file adds just the chip it describes, in order |
| Registry.OpenDevices.constructor | libstlink/src/device.cpp:445-450 | nothing is open to begin with |
| Registry.OpenDevices.Claim | libstlink/src/device.cpp:452-457 | succeeds exactly if nobody holds the key |
| Registry.OpenDevices.Release | libstlink/src/device.cpp:459-464 | takes that key out and no other |
| Registry.OpenDevices.Create | libstlink/src/device.cpp:727-774 | busy, or claimed and given back if the probe does not open or the chip is not read, each with its code |
| Registry.SameKey | libstlink/src/device.cpp:102-105 | exactly when two devices share a key |
| Registry.OthersKeepTheirs | libstlink/src/device.cpp:459-464 | no step of one thread takes a claim of another's |
| Registry.RegistryExcludes | libstlink/src/device.cpp:452-464 | for any number of threads, interleaved at the lock: the registry is exactly the keys held, and each has one holder |
| Registry.RefusedOnlyWhenHeld | libstlink/src/device.cpp:732-735 | a create is refused exactly if another holds its key |
| Registry.NothingLeaks | libstlink/src/device.cpp:746-762 | when everything is closed or failed the registry is empty |
| Registry.TwoTransportsMeansOneIsUnclaimed | libstlink/src/device.cpp:483-497 | two open transports for one key means one device past its release, or one look, which never claims |
| Registry.ConnectsBesideExactlyTheUnclaimed | libstlink/src/device.cpp:732-744 | a create about to connect finds another transport to its programmer exactly if one is closing or looking |
| Registry.FindReachesAnOpenDevice | libstlink/src/device.cpp:663-683 | and a find can be connected through a programmer that a device has open |
| Registry.TwoTransportsCanBeOpen | libstlink/src/device.cpp:496 | and that can happen |
| Discovery.Bus.Find | libstlink/src/device.cpp:659-725 | pushing the filter down returns, in order, what filtering every full sheet would |
| Discovery.Bus.FindOne | libstlink/src/device.cpp:663-722 | one turn of the loop |
| Discovery.FindReturnsExactly | libstlink/src/device.cpp:659-725 | what comes back is the sheet of every attached programmer of the vendor's that the filter asks for, with that probe's own serial, location, kind and chip |
| Discovery.KindsByProduct | libstlink/src/protocol.cpp:14-80 | the kinds, by product identifier |
| Discovery.AttachesExactly | libstlink/src/device.cpp:675-700 | of the probes opened, those whose target was put in debug mode |
| Discovery.OpensOnlyWhatItMust | libstlink/src/device.cpp:667-673 | a probe is opened exactly if the free part of the filter takes it |
| Discovery.LeavesTheTargetExactlyWhenLetGo | libstlink/src/device.cpp:694-721 | of the targets attached to, those left in debug mode are exactly the ones not made out, turned down by the chip filter, or not let go of when that was tried |
| Signature.Qualified | libstlink/src/log.cpp:91-144 | the two scanning loops |
| Signature.QualifiedFindsTheName | libstlink/src/log.cpp:79-144 | any prefix, any balanced parameters, any tail without a parenthesis of its own: exactly the name |
| Signature.QualifiedIsAPiece | libstlink/src/log.cpp:91-144 | for any input a contiguous piece of it, not empty unless it was |
| Signature.BothSpellings | libstlink/src/log.cpp:79-90 | the two spellings the source gives come out as the name |

## Left out

- USB and operating system calls (`src/libusb`, `src/winusb`, `paths.cpp`): replaced by the connection described above.
- Connect.Programmer: its requests are ones that may be lost, or land unreported, rather than the byte exchanges of Command. What each kind of request answers for is taken from what is proved of those (WriteIsNeverConfirmed, ReadMemoryReads, EffectExactlyOnSuccess), and finding the access port is proved at that level too (AccessPorts), but the reset sequences are not: the firmware there has memory behind its registers and no core.
- Connect.Programmer: Halt is the later command set's. The original one halts by a command of its own, but never comes to that in connecting.
- Original.ProgrammerV1: leaving DFU mode, the target voltage and reading all registers are commands in the runs but get no method; unpacking the registers into a structure is not modelled.
- Later.ProgrammerV2: core registers, mode, voltage, reset and nRST are covered as commands and decoded, but get no method, being one exchange each.
- RunsStayInStep: supposes no transfer fails or is taken in part. The code does not drain the channel after a failure, so nothing is claimed after one.
- RunsRefineTheReports: byte writes are outside it, since the firmware cannot confirm them; WriteMemoryWrites says exactly what they do.
- TraceIsConserved: supposes a programmer that hands over what it announced; ShortHandoverLoses is the other case. What a probe drops from its own buffer before announcing it is outside the model.
- Memory: addresses do not wrap at 2^32, since what a target does there is its own affair. What a core stores while it runs is not modelled, so memory is as a debugger leaves it.
- Text: `strtoull` is modelled for texts without a NUL; locales are not.
- The running flag of ProgrammerTrace, the placeholders for flash and trace that refuse everything, the forwarding methods of a device, text tables and error wrapping texts: one branch each.
- Log sinks, formatting and the threshold: nothing of `log.cpp` but `qualified`.
- Reading flash sizes, parsing versions and choosing a programmer class: easy, and nothing here depends on them.
- Discovery: each probe's outcome does not depend on the others visited.

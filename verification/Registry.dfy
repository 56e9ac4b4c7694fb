/**
 * The open devices of a process, one to a programmer.
 *
 * Any number of threads create and destroy devices, and look at what is
 * attached. Each create call is given a ticket, which the device it returns
 * keeps, and so is each look at one programmer; the steps of different tickets
 * interleave freely. The lock makes a claim or a release one step, and
 * everything between them belongs to one ticket alone. A look claims nothing.
 */
module Registry {
  import opened Basics

  datatype BasicInfo = BasicInfo(serial: string, location: string)

  /** What an open device is known by: its serial, or where it is plugged in if it has none. */
  function KeyOf(info: BasicInfo): string {
    if info.serial == "" then "@" + info.location else info.serial
  }

  /** Two programmers share a key when they are the same one, or when a serial spells out a location. */
  lemma SameKey(a: BasicInfo, b: BasicInfo)
    ensures KeyOf(a) == KeyOf(b) <==>
            || (a.serial == b.serial && (a.serial != "" || a.location == b.location))
            || (a.serial == "" && b.serial == "@" + a.location)
            || (b.serial == "" && a.serial == "@" + b.location)
  {
    if a.serial == "" && b.serial == "" && KeyOf(a) == KeyOf(b) {
      assert KeyOf(a)[1..] == a.location && KeyOf(b)[1..] == b.location;
    }
  }

  // ---- The set and its lock --------------------------------------------

  class OpenDevices {
    var open: set<string>

    constructor ()
      ensures open == {}
    {
      open := {};
    }

    method Claim(key: string) returns (claimed: bool)
      modifies this
      ensures claimed == (key !in old(open)) && open == old(open) + {key}
    {
      claimed := key !in open;
      open := open + {key};
    }

    method Release(key: string)
      modifies this
      ensures open == old(open) - {key}
    {
      open := open - {key};
    }

    /**
     * What one create call does when nothing else runs: whether the probe
     * opens, and what becomes of reading the chip, is the environment's business.
     */
    method Create(info: BasicInfo, probeOpens: bool, chip: VoidResult) returns (r: VoidResult)
      modifies this
      ensures r == if KeyOf(info) in old(open) then Err(Busy) else if !probeOpens then Err(IO) else chip
      ensures open == if r.Ok? then old(open) + {KeyOf(info)} else old(open)
    {
      var key := KeyOf(info);
      var claimed := Claim(key);
      if !claimed {
        return Err(Busy);
      }
      if !probeOpens {
        Release(key);
        return Err(IO);
      }
      if chip.Err? {
        Release(key);
        return Err(chip.code);
      }
      r := chip;
    }
  }

  // ---- Every interleaving ----------------------------------------------

  type Ticket = nat

  /** How far a create call, and then its device, has got; or a look. */
  datatype Stage =
    | Asked       // create() has been called
    | Refused     // the claim found the key taken
    | Claimed     // the claim succeeded, nothing is connected yet
    | Connected   // the programmer is open, the chip is being read
    | Open        // the device has been returned
    | Leaving     // its destructor is letting the target go
    | Closing     // the key is released, the transport is not closed yet
    | Looking     // a find is connected through the programmer, with no claim to it
    | Gone

  datatype Call = Call(key: string, stage: Stage)

  datatype Process = Process(registry: set<string>, calls: map<Ticket, Call>)

  datatype Action =
    | Asks(t: Ticket, info: BasicInfo)
    | Claims(t: Ticket)
    | ProbeFails(t: Ticket)
    | ProbeOpens(t: Ticket)
    | ChipFails(t: Ticket)
    | Returns(t: Ticket)
    | Destroys(t: Ticket)
    | Releases(t: Ticket)
    | Closes(t: Ticket)
    | Looks(t: Ticket, info: BasicInfo)
    | LooksAway(t: Ticket)

  predicate At(p: Process, t: Ticket, stage: Stage) {
    t in p.calls && p.calls[t].stage == stage
  }

  function Moved(p: Process, t: Ticket, stage: Stage): Process
    requires t in p.calls
  {
    p.(calls := p.calls[t := p.calls[t].(stage := stage)])
  }

  /** The step an action takes, which is none at all where its ticket is elsewhere. */
  function Step(p: Process, a: Action): Process {
    match a
    case Asks(t, info) => if t in p.calls then p else p.(calls := p.calls[t := Call(KeyOf(info), Asked)])
    case Claims(t) =>
      if !At(p, t, Asked) then p
      else if p.calls[t].key in p.registry then Moved(p, t, Refused)
      else Moved(p, t, Claimed).(registry := p.registry + {p.calls[t].key})
    case ProbeFails(t) =>
      if !At(p, t, Claimed) then p else Moved(p, t, Gone).(registry := p.registry - {p.calls[t].key})
    case ProbeOpens(t) => if !At(p, t, Claimed) then p else Moved(p, t, Connected)
    case ChipFails(t) =>
      if !At(p, t, Connected) then p else Moved(p, t, Closing).(registry := p.registry - {p.calls[t].key})
    case Returns(t) => if !At(p, t, Connected) then p else Moved(p, t, Open)
    case Destroys(t) => if !At(p, t, Open) then p else Moved(p, t, Leaving)
    case Releases(t) =>
      if !At(p, t, Leaving) then p else Moved(p, t, Closing).(registry := p.registry - {p.calls[t].key})
    case Closes(t) => if !At(p, t, Closing) then p else Moved(p, t, Gone)
    case Looks(t, info) => if t in p.calls then p else p.(calls := p.calls[t := Call(KeyOf(info), Looking)])
    case LooksAway(t) => if !At(p, t, Looking) then p else Moved(p, t, Gone)
  }

  const NOTHING_OPEN := Process({}, map[])

  function After(actions: seq<Action>): Process {
    if actions == [] then NOTHING_OPEN else Step(After(actions[..|actions| - 1]), actions[|actions| - 1])
  }

  predicate PastItsClaim(stage: Stage) {
    stage == Claimed || stage == Connected || stage == Open || stage == Leaving
  }

  predicate TransportOpen(stage: Stage) {
    stage == Connected || stage == Open || stage == Leaving || stage == Closing || stage == Looking
  }

  predicate Holds(p: Process, t: Ticket, key: string) {
    t in p.calls && p.calls[t].key == key && PastItsClaim(p.calls[t].stage)
  }

  /** The registry is exactly the keys held, and each is held once. */
  ghost predicate Consistent(p: Process) {
    && (forall key :: key in p.registry <==> exists t :: Holds(p, t, key))
    && (forall key, t, u :: Holds(p, t, key) && Holds(p, u, key) ==> t == u)
  }

  function TicketOf(a: Action): Ticket {
    a.t
  }

  /** A step of one ticket is nothing to any other: its stage, its key and its claim stay. */
  lemma OthersKeepTheirs(p: Process, a: Action, u: Ticket)
    requires Consistent(p) && u != TicketOf(a)
    ensures u in Step(p, a).calls <==> u in p.calls
    ensures u in p.calls ==> Step(p, a).calls[u] == p.calls[u]
    ensures forall key :: Holds(p, u, key) ==> key in Step(p, a).registry
  {
    forall key | Holds(p, u, key) ensures key in Step(p, a).registry {
      assert key in p.registry;
      assert !Holds(p, TicketOf(a), key);
    }
  }

  lemma StepKeepsConsistency(p: Process, a: Action)
    requires Consistent(p)
    ensures Consistent(Step(p, a))
  {
    var q, t := Step(p, a), TicketOf(a);
    forall u, key | u != t ensures Holds(q, u, key) <==> Holds(p, u, key) {
      OthersKeepTheirs(p, a, u);
    }
    forall key ensures key in q.registry <==> exists u :: Holds(q, u, key) {
      if key in q.registry {
        if Holds(q, t, key) {
        } else {
          assert key in p.registry;
          var u :| Holds(p, u, key);
          assert u != t;
          assert Holds(q, u, key);
        }
      }
      if u :| Holds(q, u, key) {
        if u != t {
          assert Holds(p, u, key);
          OthersKeepTheirs(p, a, u);
        } else if Holds(p, t, key) {
          assert key in p.registry;
        }
      }
    }
    forall key, u, v | Holds(q, u, key) && Holds(q, v, key) ensures u == v {
      var heldByU, heldByV := Holds(p, u, key), Holds(p, v, key);
      assert heldByU || heldByV ==> key in p.registry;
    }
  }

  /** Whatever the threads do, the registry is exactly the keys held and no key has two holders. */
  lemma {:induction false} RegistryExcludes(actions: seq<Action>)
    ensures Consistent(After(actions))
  {
    if actions != [] {
      RegistryExcludes(actions[..|actions| - 1]);
      StepKeepsConsistency(After(actions[..|actions| - 1]), actions[|actions| - 1]);
    }
  }

  /** A create is refused exactly when somebody else holds its key, so never without cause. */
  lemma RefusedOnlyWhenHeld(actions: seq<Action>, t: Ticket)
    requires At(After(actions), t, Asked)
    ensures var p := After(actions);
            At(Step(p, Claims(t)), t, Refused) <==> exists u :: u != t && Holds(p, u, p.calls[t].key)
  {
    RegistryExcludes(actions);
  }

  /** Nothing leaks: once every call has come to its end the registry is empty. */
  lemma NothingLeaks(actions: seq<Action>)
    requires forall t <- After(actions).calls :: !PastItsClaim(After(actions).calls[t].stage)
    ensures After(actions).registry == {}
  {
    RegistryExcludes(actions);
    var p := After(actions);
    forall key ensures key !in p.registry {
      assert forall t :: !Holds(p, t, key);
    }
  }

  /** The transports that are not accounted for by a claim. */
  predicate Unclaimed(stage: Stage) {
    stage == Closing || stage == Looking
  }

  /**
   * Exclusion is over claims and not over connections. Two transports to one
   * programmer are open together only while one of them belongs to a device
   * whose key is already released, or to a look, which never had it.
   */
  lemma TwoTransportsMeansOneIsUnclaimed(actions: seq<Action>, t: Ticket, u: Ticket)
    requires var p := After(actions);
             && t != u && t in p.calls && u in p.calls && p.calls[t].key == p.calls[u].key
             && TransportOpen(p.calls[t].stage) && TransportOpen(p.calls[u].stage)
    ensures var p := After(actions); Unclaimed(p.calls[t].stage) || Unclaimed(p.calls[u].stage)
  {
    RegistryExcludes(actions);
    var p := After(actions);
    assert !(Holds(p, t, p.calls[t].key) && Holds(p, u, p.calls[t].key));
  }

  /** Another ticket for the same programmer. */
  predicate Beside(p: Process, t: Ticket, u: Ticket) {
    u != t && t in p.calls && u in p.calls && p.calls[u].key == p.calls[t].key
  }

  /**
   * And exactly so for a create that is about to connect: there is another
   * transport to its programmer just when another ticket of it is closing or
   * looking.
   */
  lemma ConnectsBesideExactlyTheUnclaimed(actions: seq<Action>, t: Ticket)
    requires At(After(actions), t, Claimed)
    ensures var p := After(actions);
            (exists u :: Beside(p, t, u) && TransportOpen(p.calls[u].stage)) <==>
            (exists u :: Beside(p, t, u) && Unclaimed(p.calls[u].stage))
  {
    RegistryExcludes(actions);
    var p := After(actions);
    assert Holds(p, t, p.calls[t].key);
    forall u | Beside(p, t, u)
      ensures TransportOpen(p.calls[u].stage) <==> Unclaimed(p.calls[u].stage)
    {
      assert !Holds(p, u, p.calls[t].key);
    }
  }

  lemma Then(before: seq<Action>, p: Process, a: Action)
    requires After(before) == p
    ensures After(before + [a]) == Step(p, a)
  {
    assert (before + [a])[..|before|] == before;
  }

  /** A create that goes well. */
  lemma DeviceIsOpened(info: BasicInfo) returns (actions: seq<Action>)
    ensures After(actions) == Process({KeyOf(info)}, map[0 := Call(KeyOf(info), Open)])
  {
    var key := KeyOf(info);
    actions := [];
    Then(actions, NOTHING_OPEN, Asks(0, info));
    actions := actions + [Asks(0, info)];
    Then(actions, Process({}, map[0 := Call(key, Asked)]), Claims(0));
    actions := actions + [Claims(0)];
    Then(actions, Process({key}, map[0 := Call(key, Claimed)]), ProbeOpens(0));
    actions := actions + [ProbeOpens(0)];
    Then(actions, Process({key}, map[0 := Call(key, Connected)]), Returns(0));
    actions := actions + [Returns(0)];
  }

  /** A whole life, up to the moment the destructor has released the key. */
  lemma LifeOfADevice(info: BasicInfo) returns (actions: seq<Action>)
    ensures After(actions) == Process({}, map[0 := Call(KeyOf(info), Closing)])
  {
    var key := KeyOf(info);
    actions := DeviceIsOpened(info);
    Then(actions, Process({key}, map[0 := Call(key, Open)]), Destroys(0));
    actions := actions + [Destroys(0)];
    Then(actions, Process({key}, map[0 := Call(key, Leaving)]), Releases(0));
    actions := actions + [Releases(0)];
  }

  /** A find can connect through a programmer that a device of this process has open. */
  lemma FindReachesAnOpenDevice(info: BasicInfo) returns (actions: seq<Action>)
    ensures var key := KeyOf(info);
            After(actions) == Process({key}, map[0 := Call(key, Open), 1 := Call(key, Looking)])
  {
    var key := KeyOf(info);
    actions := DeviceIsOpened(info);
    Then(actions, Process({key}, map[0 := Call(key, Open)]), Looks(1, info));
    actions := actions + [Looks(1, info)];
  }

  /** And that does happen: a create can overtake a destructor that has not closed its transport. */
  lemma TwoTransportsCanBeOpen(info: BasicInfo) returns (actions: seq<Action>)
    ensures var p, key := After(actions), KeyOf(info);
            p == Process({key}, map[0 := Call(key, Closing), 1 := Call(key, Connected)])
  {
    var key := KeyOf(info);
    actions := LifeOfADevice(info);
    Then(actions, Process({}, map[0 := Call(key, Closing)]), Asks(1, info));
    actions := actions + [Asks(1, info)];
    Then(actions, Process({}, map[0 := Call(key, Closing), 1 := Call(key, Asked)]), Claims(1));
    actions := actions + [Claims(1)];
    Then(actions, Process({key}, map[0 := Call(key, Closing), 1 := Call(key, Claimed)]), ProbeOpens(1));
    actions := actions + [ProbeOpens(1)];
  }
}

/**
 * One programmer, connected. What is behind the wire is a step function from
 * what it is sent to the messages it puts in the queue for the host.
 */
module Wire {
  import opened Basics

  /** What becomes of one transfer. */
  datatype Weather = Fair | Fails | TakesOnly(n: nat)

  /** A message waiting for the host, and which of the host's transfers it is in answer to. */
  datatype Message = Message(owner: nat, bytes: seq<byte>)

  datatype Env<!S> = Env(respond: (S, seq<byte>) -> (S, seq<seq<byte>>), weather: nat -> Weather)

  /** `sent` is everything the host offered, `heard` every message it took out of the queue. */
  datatype Link<S> = Link(
    device: S,
    inbox: seq<Message>,
    turn: nat,
    sent: seq<seq<byte>>,
    heard: seq<Message>,
    slept: nat)

  function From(owner: nat, replies: seq<seq<byte>>): (s: seq<Message>)
    ensures |s| == |replies|
    ensures forall i :: 0 <= i < |s| ==> s[i] == Message(owner, replies[i])
  {
    if replies == [] then [] else [Message(owner, replies[0])] + From(owner, replies[1..])
  }

  function Taken(weather: Weather, size: nat): (n: nat)
    ensures n <= size
  {
    if weather.TakesOnly? then Min(weather.n, size) else size
  }

  /** How much of `bytes` was accepted, which may be less than all of it. */
  function Send<S>(e: Env<S>, l: Link<S>, bytes: seq<byte>): (Link<S>, Result<nat>) {
    var offered := l.(turn := l.turn + 1, sent := l.sent + [bytes]);
    if e.weather(l.turn).Fails? then (offered, Err(IO))
    else
      var taken := Taken(e.weather(l.turn), |bytes|);
      var (device, replies) := e.respond(l.device, bytes[..taken]);
      (offered.(device := device, inbox := l.inbox + From(|l.sent|, replies)), Ok(taken))
  }

  /** One message, if it fits; one that does not fit is an error. */
  function Receive<S>(e: Env<S>, l: Link<S>, room: nat): (Link<S>, Result<seq<byte>>) {
    var next := l.(turn := l.turn + 1);
    if e.weather(l.turn).Fails? || l.inbox == [] then (next, Err(IO))
    else
      var taken := next.(inbox := l.inbox[1..], heard := l.heard + [l.inbox[0]]);
      if |l.inbox[0].bytes| > room then (taken, Err(IO)) else (taken, Ok(l.inbox[0].bytes))
  }

  function Slept<S>(l: Link<S>, microseconds: nat): Link<S> {
    l.(slept := l.slept + microseconds)
  }

  /** Nothing ever goes wrong in transit. */
  ghost predicate AlwaysFair<S>(e: Env<S>) {
    forall i :: e.weather(i).Fair?
  }
}

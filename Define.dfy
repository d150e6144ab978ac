/** The enumerations shared by every component (message kinds and the
    participant-state letters), their printable names, and the hashes that let
    them key unordered containers. The constant name tables are written as
    total functions by cases: a lookup can therefore never miss. */
module Define {
  import opened Results

  /** State letters of a participant; only their names and hash are used. */
  datatype State = Q | W | A | P | C

  /** Printable name of each state: the constant table behind stream output. */
  function StateString(s: State): (name: string)
    ensures |name| == 1
  {
    match s
    case Q => "Q"
    case W => "W"
    case A => "A"
    case P => "P"
    case C => "C"
  }

  /** Reverse lookup: the state whose printable name is `name`, if any. */
  function StateNamed(name: string): (r: Option<State>)
    ensures r.Some? ==> StateString(r.value) == name
    ensures r.None? ==> forall s :: StateString(s) != name
  {
    if name == "Q" then Some(Q)
    else if name == "W" then Some(W)
    else if name == "A" then Some(A)
    else if name == "P" then Some(P)
    else if name == "C" then Some(C)
    else None
  }

  /** No two states share a printable name. */
  lemma StateStringInjective(s: State, t: State)
    ensures StateString(s) == StateString(t) ==> s == t
  {
  }

  /** Decoding the printed name of a state gives the state back. */
  lemma StateNameRoundTrip(s: State)
    ensures StateNamed(StateString(s)) == Some(s)
  {
  }

  /** The hash of a state is the ordinal of its enumerator. */
  function StateHash(s: State): (h: int)
    ensures 0 <= h < 5
  {
    match s
    case Q => 0
    case W => 1
    case A => 2
    case P => 3
    case C => 4
  }

  /** Distinct states hash differently. */
  lemma StateHashInjective(s: State, t: State)
    ensures StateHash(s) == StateHash(t) ==> s == t
  {
  }

  /** The kinds of message that travel between processes. */
  datatype MessageType = PING | PONG | CRASH

  /** Printable name of each message kind: the constant table behind stream output. */
  function MessageTypeString(t: MessageType): (name: string)
    ensures 4 <= |name| <= 5
  {
    match t
    case PING => "PING"
    case PONG => "PONG"
    case CRASH => "CRASH"
  }

  /** Reverse lookup: the message kind whose printable name is `name`, if any. */
  function MessageTypeNamed(name: string): (r: Option<MessageType>)
    ensures r.Some? ==> MessageTypeString(r.value) == name
    ensures r.None? ==> forall t :: MessageTypeString(t) != name
  {
    if name == "PING" then Some(PING)
    else if name == "PONG" then Some(PONG)
    else if name == "CRASH" then Some(CRASH)
    else None
  }

  /** No two message kinds share a printable name. */
  lemma MessageTypeStringInjective(t: MessageType, u: MessageType)
    ensures MessageTypeString(t) == MessageTypeString(u) ==> t == u
  {
  }

  /** Decoding the printed name of a message kind gives the kind back. */
  lemma MessageTypeNameRoundTrip(t: MessageType)
    ensures MessageTypeNamed(MessageTypeString(t)) == Some(t)
  {
  }

  /** The hash of a message kind is the ordinal of its enumerator. */
  function MessageTypeHash(t: MessageType): (h: int)
    ensures 0 <= h < 3
  {
    match t
    case PING => 0
    case PONG => 1
    case CRASH => 2
  }

  /** Distinct message kinds hash differently. */
  lemma MessageTypeHashInjective(t: MessageType, u: MessageType)
    ensures MessageTypeHash(t) == MessageTypeHash(u) ==> t == u
  {
  }
}

/** The state of one ring participant in Misra's ping-pong algorithm and its
    transitions, as values: the three arrival handlers, regeneration,
    incarnation, sending a token and the forward step of the main loop. Each
    transition is one atomic step; the class in module Processes performs them
    in place and is proved to follow these functions. */
module Misra {
  import opened Results

  /** A token value and whether this participant holds it. */
  datatype Token = Token(value: int, isPresent: bool)

  /** The five fields of a participant: both tokens, the last value sent and
      the one-shot flags that drop the next arriving token of a kind. */
  datatype ProcessState = ProcessState(ping: Token, pong: Token, m: int, omitNextPing: bool, omitNextPong: bool)

  /** Which of the two tokens a send refers to. */
  datatype TokenKind = PingToken | PongToken

  /** Sending a token the participant does not hold is a fatal error. */
  datatype SendError = TokenNotPossessed

  /** A message as the participant's handlers see it. */
  datatype Arrival = Crash(message: string) | Ping(value: int) | Pong(value: int)

  function Abs(x: int): int {
    if x < 0 then -x else x
  }

  /** Field initialisers: ping 1 and pong -1, neither held, nothing sent, no omissions. */
  const Initial: ProcessState := ProcessState(Token(1, false), Token(-1, false), 0, false, false)

  function TokenOf(s: ProcessState, kind: TokenKind): Token {
    match kind
    case PingToken => s.ping
    case PongToken => s.pong
  }

  function Other(kind: TokenKind): TokenKind {
    match kind
    case PingToken => PongToken
    case PongToken => PingToken
  }

  /** Prologue of the main loop: process 0 starts out holding both tokens. */
  function Started(s: ProcessState, processId: nat): (t: ProcessState)
    ensures processId == 0 ==> t.ping.isPresent && t.pong.isPresent
    ensures t.ping.value == s.ping.value && t.pong.value == s.pong.value
    ensures processId != 0 ==> t == s
    ensures t.m == s.m && t.omitNextPing == s.omitNextPing && t.omitNextPong == s.omitNextPong
  {
    if processId == 0 then s.(ping := s.ping.(isPresent := true), pong := s.pong.(isPresent := true)) else s
  }

  /** Regeneration: both tokens are held again, ping with the magnitude of
      `value` and pong its mirror; `m` and the flags are untouched. */
  function Regenerated(s: ProcessState, value: int): (t: ProcessState)
    ensures t.ping.isPresent && t.pong.isPresent
    ensures t.ping.value >= 0 && Abs(t.ping.value) == Abs(value) && t.pong.value == -t.ping.value
    ensures t.m == s.m && t.omitNextPing == s.omitNextPing && t.omitNextPong == s.omitNextPong
  {
    var ping := Token(Abs(value), true);
    s.(ping := ping, pong := Token(-ping.value, true))
  }

  /** Incarnation: a new round whose ping magnitude exceeds that of `value` by
      one, pong mirroring it; possession, `m` and the flags are untouched. */
  function Incarnated(s: ProcessState, value: int): (t: ProcessState)
    ensures t.ping.value > 0 && Abs(t.ping.value) == Abs(value) + 1 && t.pong.value == -t.ping.value
    ensures t.ping.isPresent == s.ping.isPresent && t.pong.isPresent == s.pong.isPresent
    ensures t.m == s.m && t.omitNextPing == s.omitNextPing && t.omitNextPong == s.omitNextPong
  {
    var pingValue := Abs(value) + 1;
    s.(ping := s.ping.(value := pingValue), pong := s.pong.(value := -pingValue))
  }

  /** Fault injection: payload "PING" arms the ping flag, "PONG" the pong flag,
      anything else is only logged; tokens and `m` never change. */
  function CrashReceived(s: ProcessState, message: string): (t: ProcessState)
    ensures t.ping == s.ping && t.pong == s.pong && t.m == s.m
    ensures t.omitNextPing == (s.omitNextPing || message == "PING")
    ensures t.omitNextPong == (s.omitNextPong || message == "PONG")
  {
    if message == "PING" then s.(omitNextPing := true)
    else if message == "PONG" then s.(omitNextPong := true)
    else s
  }

  /** An arriving token whose magnitude is below that of the last value sent. */
  predicate Stale(s: ProcessState, value: int) {
    Abs(value) < Abs(s.m)
  }

  /** Arrival of a ping token carrying `v`. */
  function PingReceived(s: ProcessState, v: int): (t: ProcessState)
    ensures t.m == s.m && t.omitNextPong == s.omitNextPong && !t.omitNextPing
    ensures s.omitNextPing ==> t == s.(omitNextPing := false)
    ensures !s.omitNextPing && Stale(s, v) ==> t == s
    ensures !s.omitNextPing && !Stale(s, v) && v == s.m ==>
              t.ping == Token(Abs(v), true) && t.pong == Token(-Abs(v), true)
    ensures !s.omitNextPing && !Stale(s, v) && v != s.m ==>
              t.ping == Token(v, true) && t.pong == s.pong
  {
    if s.omitNextPing then s.(omitNextPing := false)
    else if Stale(s, v) then s
    else
      var s1 := s.(ping := Token(v, true));
      if s1.m == s1.ping.value then Regenerated(s1, s1.ping.value) else s1
  }

  /** Arrival of a pong token carrying `v`: the only place a new round starts. */
  function PongReceived(s: ProcessState, v: int): (t: ProcessState)
    ensures t.m == s.m && t.omitNextPing == s.omitNextPing && !t.omitNextPong
    ensures s.omitNextPong ==> t == s.(omitNextPong := false)
    ensures !s.omitNextPong && Stale(s, v) ==> t == s
    ensures !s.omitNextPong && !Stale(s, v) && v == s.m ==>
              t.ping == Token(Abs(v), true) && t.pong == Token(-Abs(v), true)
    ensures !s.omitNextPong && !Stale(s, v) && v != s.m && s.ping.isPresent ==>
              t.ping == Token(Abs(s.ping.value) + 1, true) && t.pong == Token(-t.ping.value, true)
    ensures !s.omitNextPong && !Stale(s, v) && v != s.m && !s.ping.isPresent ==>
              t.ping == s.ping && t.pong == Token(v, true)
  {
    if s.omitNextPong then s.(omitNextPong := false)
    else if Stale(s, v) then s
    else
      var s1 := s.(pong := Token(v, true));
      if s1.m == s1.pong.value then Regenerated(s1, s1.pong.value)
      else if s1.ping.isPresent && s1.pong.isPresent then Incarnated(s1, s1.ping.value)
      else s1
  }

  /** The handler the dispatcher runs for an arrival. */
  function Received(s: ProcessState, a: Arrival): ProcessState {
    match a
    case Crash(message) => CrashReceived(s, message)
    case Ping(v) => PingReceived(s, v)
    case Pong(v) => PongReceived(s, v)
  }

  /** The handlers run for a series of arrivals, in order. */
  function ReceivedAll(s: ProcessState, arrivals: seq<Arrival>): ProcessState
    decreases |arrivals|
  {
    if arrivals == [] then s else ReceivedAll(Received(s, arrivals[0]), arrivals[1..])
  }

  /** Sending a held token: it is no longer held and `m` records its value.
      Sending a token that is not held fails and changes nothing. */
  function SendToken(s: ProcessState, kind: TokenKind): (r: Result<ProcessState, SendError>)
    ensures r.Failure? <==> !TokenOf(s, kind).isPresent
    ensures r.Success? ==> r.value.m == TokenOf(s, kind).value
    ensures r.Success? ==> TokenOf(r.value, kind) == TokenOf(s, kind).(isPresent := false)
    ensures r.Success? ==> TokenOf(r.value, Other(kind)) == TokenOf(s, Other(kind))
    ensures r.Success? ==> r.value.omitNextPing == s.omitNextPing && r.value.omitNextPong == s.omitNextPong
  {
    var token := TokenOf(s, kind);
    if !token.isPresent then Failure(TokenNotPossessed)
    else
      var sent := token.(isPresent := false);
      match kind
      case PingToken => Success(s.(ping := sent, m := sent.value))
      case PongToken => Success(s.(pong := sent, m := sent.value))
  }

  /** Forward step of the main loop, once ping is held: send ping, then pong if
      held. Returns the new state and the values sent, in order. */
  function Forwarded(s: ProcessState): (r: (ProcessState, seq<int>))
    requires s.ping.isPresent
    ensures !r.0.ping.isPresent && !r.0.pong.isPresent
    ensures r.0.ping.value == s.ping.value && r.0.pong.value == s.pong.value
    ensures r.1 == if s.pong.isPresent then [s.ping.value, s.pong.value] else [s.ping.value]
    ensures r.0.m == r.1[|r.1| - 1]
    ensures r.0.omitNextPing == s.omitNextPing && r.0.omitNextPong == s.omitNextPong
  {
    var afterPing := SendToken(s, PingToken).value;
    if afterPing.pong.isPresent then (SendToken(afterPing, PongToken).value, [s.ping.value, s.pong.value])
    else (afterPing, [s.ping.value])
  }

  /** No arrival handler writes `m`: it changes only when a token is sent. */
  lemma {:induction false} ReceivedAllKeepsLastSent(s: ProcessState, arrivals: seq<Arrival>)
    ensures ReceivedAll(s, arrivals).m == s.m
    decreases |arrivals|
  {
    if arrivals != [] {
      ReceivedAllKeepsLastSent(Received(s, arrivals[0]), arrivals[1..]);
    }
  }

  /** Arrivals never take a token away: only sending clears possession. */
  lemma {:induction false} ReceivedAllKeepsPossession(s: ProcessState, arrivals: seq<Arrival>)
    ensures s.ping.isPresent ==> ReceivedAll(s, arrivals).ping.isPresent
    ensures s.pong.isPresent ==> ReceivedAll(s, arrivals).pong.isPresent
    decreases |arrivals|
  {
    if arrivals != [] {
      ReceivedAllKeepsPossession(Received(s, arrivals[0]), arrivals[1..]);
    }
  }

  /** With no omission armed, any number of stale token arrivals leave the
      participant exactly as it was. */
  lemma {:induction false} StaleArrivalsIdempotent(s: ProcessState, arrivals: seq<Arrival>)
    requires !s.omitNextPing && !s.omitNextPong
    requires forall i :: 0 <= i < |arrivals| ==> !arrivals[i].Crash? && Stale(s, arrivals[i].value)
    ensures ReceivedAll(s, arrivals) == s
    decreases |arrivals|
  {
    if arrivals != [] {
      assert Received(s, arrivals[0]) == s;
      StaleArrivalsIdempotent(s, arrivals[1..]);
    }
  }

  /** Redelivering one stale token `n` times changes nothing. */
  lemma StaleRedeliveryIdempotent(s: ProcessState, a: Arrival, n: nat)
    requires !s.omitNextPing && !s.omitNextPong
    requires !a.Crash? && Stale(s, a.value)
    ensures ReceivedAll(s, seq(n, _ => a)) == s
  {
    StaleArrivalsIdempotent(s, seq(n, _ => a));
  }

  /** Fault injection drops the next ping that ARRIVES, whatever it carries,
      and disarms itself. */
  lemma InjectedPingFaultDropsNextArrival(s: ProcessState, v: int)
    ensures ReceivedAll(s, [Crash("PING"), Ping(v)]) == s.(omitNextPing := false)
  {
    var s1 := CrashReceived(s, "PING");
    assert [Crash("PING"), Ping(v)][1..] == [Ping(v)];
    assert ReceivedAll(s1, [Ping(v)]) == ReceivedAll(PingReceived(s1, v), []);
  }

  /** Fault injection drops the next pong that ARRIVES, whatever it carries,
      and disarms itself. */
  lemma InjectedPongFaultDropsNextArrival(s: ProcessState, v: int)
    ensures ReceivedAll(s, [Crash("PONG"), Pong(v)]) == s.(omitNextPong := false)
  {
    var s1 := CrashReceived(s, "PONG");
    assert [Crash("PONG"), Pong(v)][1..] == [Pong(v)];
    assert ReceivedAll(s1, [Pong(v)]) == ReceivedAll(PongReceived(s1, v), []);
  }

  /** A participant that forwarded ping alone and later receives a ping with the
      value it sent concludes pong was lost, and holds both tokens again. */
  lemma ForwardedPingReturnRegenerates(s: ProcessState)
    requires s.ping.isPresent && !s.pong.isPresent && !s.omitNextPing
    ensures var t := PingReceived(Forwarded(s).0, s.ping.value);
            t.ping == Token(Abs(s.ping.value), true) && t.pong == Token(-Abs(s.ping.value), true)
  {
  }

  /** The ping-then-pong delivery scenario at a participant whose last value
      sent is 5: ping 5 regenerates (ping 5, pong -5); the following pong -5 is
      not stale, does not regenerate again, and starts round 6. */
  lemma PingThenPongScenario(s: ProcessState)
    requires s.m == 5 && !s.omitNextPing && !s.omitNextPong
    ensures var t := ReceivedAll(s, [Ping(5), Pong(-5)]);
            t.ping == Token(6, true) && t.pong == Token(-6, true) && t.m == 5
  {
    assert [Ping(5), Pong(-5)][1..] == [Pong(-5)];
  }
}

/** One ring participant: its five Misra fields updated in place by the
    dispatcher's callbacks and by the main loop. Every method is one atomic
    transition and is proved to perform the matching transition of module
    Misra on the participant's state. */
module Processes {
  import opened Results
  import opened Define
  import opened Decimal
  import opened Communication
  import opened Misra

  /** A token message handed to the transport. */
  datatype Outgoing = Outgoing(messageType: MessageType, message: string, recipient: ProcessId)

  /** The message kind a token travels as. */
  function MessageTypeOf(kind: TokenKind): MessageType {
    match kind
    case PingToken => PING
    case PongToken => PONG
  }

  class Process {
    const monitor: CommunicationManager

    var ping: Token
    var pong: Token
    /** Last token value sent. */
    var m: int
    var omitNextPing: bool
    var omitNextPong: bool

    function State(): ProcessState
      reads this
    {
      ProcessState(ping, pong, m, omitNextPing, omitNextPong)
    }

    /** Next process in the ring. */
    function Next(): ProcessId
      requires monitor.numberOfProcesses > 0
    {
      (monitor.processId + 1) % monitor.numberOfProcesses
    }

    /** Initial field values, and the three subscriptions (fault injection,
        ping arrival, pong arrival) registered with the dispatcher. */
    constructor (monitor: CommunicationManager)
      requires monitor.Valid()
      modifies monitor
      ensures this.monitor == monitor && monitor.Valid()
      ensures State() == Initial
      ensures monitor.subscriptions == WithProcessSubscriptions(old(monitor.subscriptions), old(monitor.subscriptionSeqNo))
      ensures monitor.subscriptionSeqNo == old(monitor.subscriptionSeqNo) + 3
      ensures monitor.listening == old(monitor.listening)
    {
      this.monitor := monitor;
      ping := Token(1, false);
      pong := Token(-1, false);
      m := 0;
      omitNextPing := false;
      omitNextPong := false;
      new;
      var crashSubscription := monitor.Subscribe(CRASH);
      var pingSubscription := monitor.Subscribe(PING);
      var pongSubscription := monitor.Subscribe(PONG);
    }

    /** Callback for a fault-injection message. */
    method OnCrash(message: string)
      modifies this
      ensures State() == CrashReceived(old(State()), message)
    {
      if message == "PING" {
        omitNextPing := true;
      } else if message == "PONG" {
        omitNextPong := true;
      }
    }

    /** Callback for an arriving ping token carrying `v`. */
    method OnPing(v: int)
      modifies this
      ensures State() == PingReceived(old(State()), v)
    {
      if omitNextPing {
        omitNextPing := false;
        return;
      }
      if Abs(v) < Abs(m) {
        return;
      }
      ping := Token(v, true);
      if m == ping.value {
        Regenerate(ping.value);
      }
    }

    /** Callback for an arriving pong token carrying `v`. */
    method OnPong(v: int)
      modifies this
      ensures State() == PongReceived(old(State()), v)
    {
      if omitNextPong {
        omitNextPong := false;
        return;
      }
      if Abs(v) < Abs(m) {
        return;
      }
      pong := Token(v, true);
      if m == pong.value {
        Regenerate(pong.value);
      } else if ping.isPresent && pong.isPresent {
        Incarnate(ping.value);
      }
    }

    method Regenerate(value: int)
      modifies this
      ensures State() == Regenerated(old(State()), value)
    {
      ping := Token(Abs(value), true);
      pong := Token(-ping.value, true);
    }

    method Incarnate(value: int)
      modifies this
      ensures State() == Incarnated(old(State()), value)
    {
      ping := ping.(value := Abs(value) + 1);
      pong := pong.(value := -ping.value);
    }

    /** Sends the token `kind` to the next process: its value as decimal text.
        A token that is not held is an error and nothing changes. */
    method Send(kind: TokenKind) returns (r: Result<Outgoing, SendError>)
      requires monitor.numberOfProcesses > 0
      modifies this
      ensures SendToken(old(State()), kind).Failure? ==>
                r == Failure(TokenNotPossessed) && State() == old(State())
      ensures SendToken(old(State()), kind).Success? ==>
                State() == SendToken(old(State()), kind).value
                && r == Success(Outgoing(MessageTypeOf(kind), IntToString(m), Next()))
    {
      var token := if kind == PingToken then ping else pong;
      if !token.isPresent {
        return Failure(TokenNotPossessed);
      }
      r := Success(Outgoing(MessageTypeOf(kind), IntToString(token.value), Next()));
      token := token.(isPresent := false);
      if kind == PingToken {
        ping := token;
      } else {
        pong := token;
      }
      m := token.value;
    }

    /** Prologue of the main loop: process 0 takes both tokens. */
    method Start()
      modifies this
      ensures State() == Started(old(State()), monitor.processId)
    {
      if monitor.processId == 0 {
        ping := ping.(isPresent := true);
        pong := pong.(isPresent := true);
      }
    }

    /** Forward step of the main loop, taken once ping is held: ping is sent,
        then pong if it is held too. */
    method ForwardTokens() returns (sent: seq<Outgoing>)
      requires ping.isPresent && monitor.numberOfProcesses > 0
      modifies this
      ensures State() == Forwarded(old(State())).0
      ensures |sent| == |Forwarded(old(State())).1|
      ensures sent[0] == Outgoing(PING, IntToString(old(ping.value)), Next())
      ensures old(pong.isPresent) ==> sent[1] == Outgoing(PONG, IntToString(old(pong.value)), Next())
    {
      var r := Send(PingToken);
      sent := [r.value];
      if pong.isPresent {
        r := Send(PongToken);
        sent := sent + [r.value];
      }
    }
  }

  /** The wiring of a process: a fresh dispatcher and the participant's three
      subscriptions. Every packet then reaches exactly one callback: the one
      registered for its kind. */
  method DispatchAfterRegistration(processId: ProcessId, numberOfProcesses: nat, packet: Packet)
    returns (r: Result<seq<SubscriptionId>, DispatchError>)
    requires processId < numberOfProcesses
    ensures r == Success([match packet.messageType case CRASH => 0 case PING => 1 case PONG => 2])
  {
    var manager := new CommunicationManager(processId, numberOfProcesses);
    var process := new Process(manager);
    manager.Listen();
    ProcessSubscriptionsMatchOnce(0, packet.messageType);
    r := manager.Dispatch(packet);
    var k: SubscriptionId := match packet.messageType case CRASH => 0 case PING => 1 case PONG => 2;
    assert |r.value| == 1;
    assert r.value[0] in r.value;
    assert r.value[0] == k;
    assert r.value == [k];
  }
}

/** The subscription dispatcher: a registry of (predicate, callback) pairs keyed
    by a monotonically increasing id, and the per-packet dispatch the receive
    loop performs. Every predicate in the system is a test of the message kind,
    so a subscription is recorded as the kind it accepts; callbacks are abstract
    and dispatch reports which subscriptions it invoked. */
module Communication {
  import opened Results
  import opened Define

  type SubscriptionId = nat
  type ProcessId = nat

  /** An inbound message as the transport delivers it. */
  datatype Packet = Packet(messageType: MessageType, message: string, source: ProcessId, lamportTime: nat)

  /** The fatal condition of the receive loop: no subscription claimed a packet. */
  datatype DispatchError = NoCallbackInvoked(lamportTime: nat, messageType: MessageType, message: string)

  /** The ids of the subscriptions that accept messages of kind `k`. */
  function Matching(subscriptions: map<SubscriptionId, MessageType>, k: MessageType): set<SubscriptionId> {
    set id | id in subscriptions && subscriptions[id] == k
  }

  /** No id occurs twice in `ids`. */
  predicate Distinct(ids: seq<SubscriptionId>) {
    forall i, j :: 0 <= i < j < |ids| ==> ids[i] != ids[j]
  }

  /** The table after a participant registers its three handlers (fault
      injection, ping arrival, pong arrival) on a dispatcher whose next id is `next`. */
  function WithProcessSubscriptions(subscriptions: map<SubscriptionId, MessageType>, next: SubscriptionId): map<SubscriptionId, MessageType> {
    subscriptions[next := CRASH][next + 1 := PING][next + 2 := PONG]
  }

  /** On a dispatcher that held nothing else, each message kind is accepted by
      exactly one of the participant's subscriptions, so dispatch never fails. */
  lemma ProcessSubscriptionsMatchOnce(next: SubscriptionId, k: MessageType)
    ensures Matching(WithProcessSubscriptions(map[], next), k)
         == {next + (match k case CRASH => 0 case PING => 1 case PONG => 2)}
  {
  }

  class CommunicationManager {
    /** Identity and ring size, as the transport reports them. */
    const processId: ProcessId
    const numberOfProcesses: nat

    var subscriptions: map<SubscriptionId, MessageType>
    var subscriptionSeqNo: SubscriptionId
    /** Whether the receiving thread exists. */
    var listening: bool
    /** How many receiving threads were ever started. */
    ghost var receiversStarted: nat

    ghost predicate Valid()
      reads this
    {
      && processId < numberOfProcesses
      && (forall id :: id in subscriptions ==> id < subscriptionSeqNo)
      && receiversStarted == (if listening then 1 else 0)
    }

    constructor (processId: ProcessId, numberOfProcesses: nat)
      requires processId < numberOfProcesses
      ensures Valid()
      ensures this.processId == processId && this.numberOfProcesses == numberOfProcesses
      ensures subscriptions == map[] && subscriptionSeqNo == 0 && !listening
    {
      this.processId := processId;
      this.numberOfProcesses := numberOfProcesses;
      subscriptions := map[];
      subscriptionSeqNo := 0;
      listening := false;
      receiversStarted := 0;
    }

    /** Starts the receiving thread unless one exists: at most one is ever started. */
    method Listen()
      requires Valid()
      modifies this`listening, this`receiversStarted
      ensures Valid() && listening
      ensures receiversStarted == 1
      ensures old(listening) ==> receiversStarted == old(receiversStarted)
    {
      if !listening {
        listening := true;
        receiversStarted := receiversStarted + 1;
      }
    }

    /** Stores the subscription under the current sequence number, returns that
        number and advances it; the id was never handed out before. */
    method Subscribe(accepts: MessageType) returns (id: SubscriptionId)
      requires Valid()
      modifies this`subscriptions, this`subscriptionSeqNo
      ensures Valid()
      ensures id == old(subscriptionSeqNo) && subscriptionSeqNo == old(subscriptionSeqNo) + 1
      ensures id !in old(subscriptions)
      ensures subscriptions == old(subscriptions)[id := accepts]
    {
      subscriptions := subscriptions[subscriptionSeqNo := accepts];
      id := subscriptionSeqNo;
      subscriptionSeqNo := subscriptionSeqNo + 1;
    }

    /** Removes the subscription `id`; an unknown id changes nothing. */
    method Unsubscribe(id: SubscriptionId)
      requires Valid()
      modifies this`subscriptions
      ensures Valid()
      ensures subscriptions == old(subscriptions) - {id}
      ensures id !in old(subscriptions) ==> subscriptions == old(subscriptions)
      ensures subscriptionSeqNo == old(subscriptionSeqNo)
    {
      subscriptions := subscriptions - {id};
    }

    /** One turn of the receive loop for `packet`: every subscription that
        accepts it is invoked exactly once, in the table's (unspecified)
        iteration order, and none other; if none accepts it, dispatch fails. */
    method Dispatch(packet: Packet) returns (r: Result<seq<SubscriptionId>, DispatchError>)
      ensures r.Success? <==> Matching(subscriptions, packet.messageType) != {}
      ensures r.Success? ==> Distinct(r.value) && |r.value| == |Matching(subscriptions, packet.messageType)|
      ensures r.Success? ==> forall id :: id in r.value <==> id in Matching(subscriptions, packet.messageType)
      ensures r.Failure? ==> r.error == NoCallbackInvoked(packet.lamportTime, packet.messageType, packet.message)
    {
      var invoked: seq<SubscriptionId> := [];
      var anyCallbackInvoked := false;
      var remaining := subscriptions.Keys;
      while remaining != {}
        invariant remaining <= subscriptions.Keys
        invariant Distinct(invoked)
        invariant |invoked| == |Matching(subscriptions, packet.messageType) - remaining|
        invariant forall id :: id in invoked <==> id in Matching(subscriptions, packet.messageType) && id !in remaining
        invariant anyCallbackInvoked <==> invoked != []
        decreases remaining
      {
        var id :| id in remaining;
        ghost var done := Matching(subscriptions, packet.messageType) - remaining;
        if subscriptions[id] == packet.messageType {
          assert Matching(subscriptions, packet.messageType) - (remaining - {id}) == done + {id};
          invoked := invoked + [id];
          anyCallbackInvoked := true;
        } else {
          assert Matching(subscriptions, packet.messageType) - (remaining - {id}) == done;
        }
        remaining := remaining - {id};
      }
      if !anyCallbackInvoked {
        return Failure(NoCallbackInvoked(packet.lamportTime, packet.messageType, packet.message));
      }
      assert invoked[0] in Matching(subscriptions, packet.messageType);
      r := Success(invoked);
    }
  }
}

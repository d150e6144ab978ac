# Misra ping-pong ring participant: a verified model

This project models the core of a ring-based mutual-exclusion system that
follows Misra's ping-pong algorithm, which tolerates lost tokens. Each process
holds two tokens, `ping` and `pong`. It also keeps `m`, the last token value it
sent, and two one-shot flags that fault injection arms. Messages reach the
process through a subscription dispatcher.

The model is split into these modules:

- `Define` (Define.dfy): the `MessageType` enumeration (PING, PONG, CRASH) and
  the `State` enumeration (Q, W, A, P, C), their printable-name tables and
  their ordinal hashes.
- `Decimal` (Decimal.dfy): the decimal text that `std::to_string` writes and
  that `std::stoi` reads back. Token values travel in this form, and the
  logger formats numbers with it.
- `Logger` (Logger.dfy): `getFormattedNumber`, which left-pads a number with
  zeros to the width `LOGGER_NUMBER_DIGITS` = 4.
- `Communication` (CommunicationManager.dfy): the `CommunicationManager`
  class. It holds the subscription table (a `map`), the sequence-number
  counter and the "receiver started" flag, with `Subscribe`, `Unsubscribe`,
  `Listen` and the per-packet `Dispatch` loop. Every predicate in the system
  tests the message kind, so a subscription is recorded as the kind it
  accepts. Callbacks are abstract: `Dispatch` returns the ids of the
  subscriptions it invoked. It picks keys in an unspecified order, as an
  `unordered_map` does.
- `Misra` (Misra.dfy): the participant's five fields as a value
  (`ProcessState`) and every transition as a function: the three arrival
  handlers, regeneration, incarnation, sending a token, the start of the main
  loop and its forward step. The lemmas state what these transitions
  guarantee.
- `Processes` (Process.dfy): the `Process` class. The fields `ping`, `pong`,
  `m`, `omitNextPing` and `omitNextPong` are updated in place, one method per
  transition. Each method ensures that the new `State()` equals the matching
  `Misra` function applied to the old one.

Three points where the code differs from the usual account of the algorithm.
The model follows the code in each case:

- Fault injection (a CRASH message with payload "PING" or "PONG") drops the
  next token of that kind that ARRIVES, not the next one sent.
- Only the pong handler starts a new round (incarnation). A fresh ping that
  is not equal to `m` takes the arriving value and leaves pong as it is, even
  when pong is held; the ping handler never starts a new round
  (`Misra.PingReceived`).
- Deliver ping 5 and then pong -5 to a participant whose `m` is 5. The ping
  regenerates both tokens (ping 5, pong -5). The pong is then not stale and
  differs from `m`, so it incarnates round 6 (`Misra.PingThenPongScenario`).

## Model

| member | source | states |
|---|---|---|
| Define.StateString | src/util/Define.h:18-22 | every state has a one-letter name (the table is total) |
| Define.StateNamed | src/util/Define.h:18-22 | reverse lookup of the state table: a name decodes to a state exactly when it is that state's name |
| Define.StateStringInjective | src/util/Define.h:18-22 | no two states share a name |
| Define.StateNameRoundTrip | src/util/Define.h:18-22 | decoding a state's printed name gives the state back |
| Define.StateHash | src/util/Define.h:32-39 | the hash of a state is its ordinal, in 0..4 |
| Define.StateHashInjective | src/util/Define.h:32-39 | distinct states hash differently |
| Define.MessageTypeString | src/util/Define.h:45-47 | every message kind has a name of 4 or 5 characters (the table is total) |
| Define.MessageTypeNamed | src/util/Define.h:45-47 | reverse lookup of the message-kind table: a name decodes to a kind exactly when it is that kind's name |
| Define.MessageTypeStringInjective | src/util/Define.h:45-47 | no two message kinds share a name |
| Define.MessageTypeNameRoundTrip | src/util/Define.h:45-47 | decoding "PING", "PONG" or "CRASH" gives the kind that printed it |
| Define.MessageTypeHash | src/util/Define.h:57-64 | the hash of a message kind is its ordinal, in 0..2 |
| Define.MessageTypeHashInjective | src/util/Define.h:57-64 | distinct message kinds hash differently |
| Decimal.NatToString | src/logging/Logger.cpp:42 | the numeral of an unsigned value has at least one digit, only digits and no leading zero |
| Decimal.ParseNatToString | src/logging/Logger.cpp:42 | reading the numeral of n as decimal gives n |
| Decimal.ParseNatLeadingZeros | src/logging/Logger.cpp:45 | prepending zeros does not change the decimal value of a numeral |
| Decimal.IntToString | src/processes/Process.h:136 | a token value's text starts with '-' exactly when the value is negative, followed by digits only |
| Decimal.IntToStringRoundTrip | src/processes/Process.h:55-59 | the receiver's `stoi` reads back exactly the value the sender wrote with `to_string` |
| Logger.FormattedNumber | src/logging/Logger.cpp:41-48 | the result is the numeral of the number with only '0's before it; its length is max(numeral length, 4) and every character is a digit |
| Logger.FormattedNumberRoundTrip | src/logging/Logger.cpp:41-48 | reading a formatted number as decimal gives the number back |
| Logger.FormattedNumberWide | src/logging/Logger.cpp:43-47 | a numeral of 4 or more digits is returned unchanged |
| Logger.FormattedNumberNarrow | src/logging/Logger.cpp:43-46 | numbers below 10000 come out exactly 4 characters wide |
| Communication.ProcessSubscriptionsMatchOnce | src/processes/Process.h:39-68 | with the participant's three subscriptions (CRASH, PING, PONG) on an otherwise empty dispatcher, each message kind is accepted by exactly one subscription |
| Communication.CommunicationManager.constructor | src/communication/CommunicationManager.h:107-111 | the table starts empty, the sequence number at 0 and no receiver is running |
| Communication.CommunicationManager.Listen | src/communication/CommunicationManager.h:31-35 | the receiver runs afterwards; it is started only when none exists, so exactly one is ever started and repeated calls change nothing |
| Communication.CommunicationManager.Subscribe | src/communication/CommunicationManager.h:37-41 | the new entry is stored under the current sequence number, which is returned and advanced by one; the id was never in use; every other entry is unchanged |
| Communication.CommunicationManager.Unsubscribe | src/communication/CommunicationManager.h:43-46 | removes exactly that entry, is a no-op for an unknown id and leaves the counter alone |
| Communication.CommunicationManager.Dispatch | src/communication/CommunicationManager.h:82-99 | invokes each accepting subscription exactly once and no other one; fails with the packet's details exactly when no subscription accepts it |
| Misra.Started | src/processes/Process.h:89-93 | process 0 holds both tokens afterwards; any other process is unchanged; token values, `m` and flags never change |
| Misra.Regenerated | src/processes/Process.h:116-121 | both tokens held, ping non-negative with the magnitude of the value, pong its negation; `m` and flags untouched |
| Misra.Incarnated | src/processes/Process.h:123-129 | the new ping magnitude is one more than the value's (so strictly larger), pong mirrors it; possession, `m` and flags untouched |
| Misra.CrashReceived | src/processes/Process.h:39-47 | payload "PING" sets only the ping flag, "PONG" only the pong flag; any other payload changes nothing; tokens and `m` never change |
| Misra.PingReceived | src/processes/Process.h:49-66 | an armed flag drops the arrival and clears itself; a stale value changes nothing; otherwise ping is held with the value, and if the value equals `m` both tokens are regenerated, else pong is untouched; `m` never changes |
| Misra.PongReceived | src/processes/Process.h:68-86 | as for ping, but a fresh value different from `m` while ping is held incarnates (ping magnitude + 1, both held); with ping absent only pong changes; `m` never changes |
| Misra.SendToken | src/processes/Process.h:131-139 | sending an absent token fails; otherwise only that token's possession is cleared and `m` becomes its value |
| Misra.Forwarded | src/processes/Process.h:105-112 | ping is sent, then pong only if held; afterwards neither is held and `m` is the last value sent |
| Misra.ReceivedAllKeepsLastSent | src/processes/Process.h:39-86 | no series of arrivals changes `m` |
| Misra.ReceivedAllKeepsPossession | src/processes/Process.h:39-86 | no series of arrivals takes a held token away |
| Misra.StaleArrivalsIdempotent | src/processes/Process.h:55-77 | with no omission armed, any series of stale token arrivals leaves the state unchanged |
| Misra.StaleRedeliveryIdempotent | src/processes/Process.h:55-77 | redelivering one stale token any number of times changes nothing |
| Misra.InjectedPingFaultDropsNextArrival | src/processes/Process.h:39-54 | a CRASH "PING" followed by any ping arrival leaves everything as before except that the flag is clear |
| Misra.InjectedPongFaultDropsNextArrival | src/processes/Process.h:39-73 | a CRASH "PONG" followed by any pong arrival leaves everything as before except that the flag is clear |
| Misra.ForwardedPingReturnRegenerates | src/processes/Process.h:59-63 | a process that forwarded ping alone and gets back a ping with the value it sent holds both tokens again, mirrored |
| Misra.PingThenPongScenario | src/processes/Process.h:49-86 | at m = 5, ping 5 then pong -5 ends with ping 6 and pong -6 both held, and `m` still 5 |
| Processes.Process.constructor | src/processes/Process.h:28-87 | initial fields as declared at lines 152-156 (ping 1 absent, pong -1 absent, m 0, flags clear), and the three subscriptions added to the dispatcher |
| Processes.Process.OnCrash | src/processes/Process.h:39-47 | the state after the callback is `Misra.CrashReceived` of the state before |
| Processes.Process.OnPing | src/processes/Process.h:49-66 | the state after the callback is `Misra.PingReceived` of the state before |
| Processes.Process.OnPong | src/processes/Process.h:68-86 | the state after the callback is `Misra.PongReceived` of the state before |
| Processes.Process.Regenerate | src/processes/Process.h:116-121 | the state after is `Misra.Regenerated` of the state before |
| Processes.Process.Incarnate | src/processes/Process.h:123-129 | the state after is `Misra.Incarnated` of the state before |
| Processes.Process.Send | src/processes/Process.h:131-139 | fails and changes nothing on an absent token; otherwise follows `Misra.SendToken` and hands the transport the token's decimal text addressed to (id + 1) mod n |
| Processes.Process.Start | src/processes/Process.h:89-93 | the state after is `Misra.Started` of the state before, for this process's id |
| Processes.Process.ForwardTokens | src/processes/Process.h:105-112 | follows `Misra.Forwarded`; the messages sent are ping and then, if held, pong, with their values as text, addressed to the next process |
| Processes.DispatchAfterRegistration | src/Main.cpp:11-14 | after a process registers on a fresh dispatcher, every packet is dispatched successfully to exactly one callback: the one registered for its kind (CRASH id 0, PING id 1, PONG id 2) |

## Left out

- Threads, mutexes, condition variables, the atomic `terminate` flag and the join in the destructor: each handler and each forward step is one atomic transition.
- The blocking wait of the main loop is the precondition `ping.isPresent` of `Processes.Process.ForwardTokens`. The infinite loop itself is not modelled, and the random sleeps and the critical-section body are timing only.
- What the callbacks do inside `Dispatch` is abstract. Dispatch reports the invoked subscription ids. The handlers are called directly as methods of `Process`.
- The transport (`ICommunicator`), the `send`/`sendOthers` passthroughs and the id/ring-size/clock getters are outside the model. Process id and ring size are constants given to the `CommunicationManager` constructor. A send is modelled as the message it hands to the transport.
- Logging, colours, `registerThread`, `getCurrentTime`, the state collector, `printPacket` and `Token::toString` are console output only.
- `Processes.Process.Send` selects the token with a `TokenKind` (ping or pong) instead of a `Token&` reference and a separate message type. The source only ever pairs PING with `ping` and PONG with `pong`.
- Misra.Incarnated: token values are unbounded integers. The 32-bit `int` overflow of `abs(INT_MIN)` and of `INT_MAX + 1` is not modelled.
- Misra.PingReceived: the payload is taken as an already parsed `int`. `stoi` failures on malformed text are not modelled.
- Misra.PongReceived: same as above, the payload is an already parsed `int`.
- Decimal.IntToStringRoundTrip: `Decimal.ParseInt` accepts only an optional sign followed by at least one digit. It does not model `stoi`'s leading whitespace, trailing characters or out-of-range exceptions.
- Communication.CommunicationManager.Subscribe: the `size_t` counter is unbounded, so wrap-around after 2^64 subscriptions is not modelled.
- The commented-out modular incarnation, `Main.cpp` beyond the wiring check, and `Logger.h` apart from the width constant are not part of this model.
- The ring as a whole (several processes and tokens in flight) is not modelled, so global safety and recovery from a single loss are not stated.

# A verified model of a store-and-forward publish/subscribe broker

The repository is a broker: UDP clients publish typed messages on topics, TCP subscribers register under an id,
subscribe to topics with or without store-and-forward (SF), and receive the messages as text. A message on a topic
that an absent client holds with SF is queued and replayed when the client comes back. This project models the server
and the subscriber down to the byte buffers, the arrays and the calls to the system, and proves what whole runs
guarantee.

## How it is built

The same behaviour appears at three levels, each proved to follow from the one below.

1. **The code's own form.** `UdpType`, `Utils`, `TcpType`, `TopicMsg`, `PollVectors`, `ClientVectors`, `SubscriberUtils` and
   `ServerUtils` hold the loops, the classes with arrays that grow by doubling and shift on removal, and the buffers
   that are reused without being cleared. The vectors' and the server's methods state their whole new state as a
   function of the old one; what sending and receiving leave to the transport is stated as what may happen.
   `TcpType.Network` is the system's side: which descriptors are open, what each connection has carried, how `send`
   and `recv` cut the streams into pieces, when they fail, which number `accept` hands out. All of that is arbitrary;
   a connection that failed once keeps failing.
2. **State machines on values.** `ClientTable` (the client table, its invariant, and the map from ids to
   subscriptions that it refines), `Broker` (what connecting, disconnecting, requests and publications do) and
   `ServerState` (one turn of the event loop). A `ServerState.Snapshot` is the whole server as a value: poll list,
   open descriptors, receive buffer, broker, the events so far, and `wire`, a picture of the real connections: the whole
   messages each has delivered, those on which a receive or a send has failed, and when each was accepted. The
   server's methods are proved to take this picture from the network, so a turn cannot record what was not received.
3. **What the events mean.** `Trace` says for one client, from the list of events alone and without any table, when it
   is connected, what it holds, what it is owed, what it should have received, what waits and what is missed.
   `Trace.RunIsTrace` proves that the broker realises exactly this. `Guarantees` derives the promises: conservation,
   exactly-once delivery, order, the store-and-forward invariant, survival of subscriptions. `Connections` ties events
   to connections over every run of the server, `Reception` ties the log to the datagrams received, and `EndToEnd`
   joins the levels: typed lines to subscriptions, and publications to screens. A run is legal if nobody is registered
   under the number of a connected client; by `Broker.LegalIff` these are exactly the runs in which no two connected
   clients share a descriptor. `Passes` describes the main loop's rounds,
   `TraceMeaning` the trace without recursion, and `Reading` what a printed message says.

## Main results

- `Trace.RunIsTrace`: over every legal run, whatever sends fail, each client's connection, subscriptions, queue,
  deliveries and losses are those the events determine.
- `Guarantees.ExactlyOnceIff`: sent plus queued is exactly what was due, never more, and never less if and only if no
  send to that client failed.
- `Guarantees.StoredConservedIff`: a stored message is sent once or still queued; keeping the rest of an interrupted
  replay guarantees it on every run, the code only on runs without a failed replay send.
- `ServerUtils.Server.ProcessReadyFds`: the event loop serves exactly the descriptors that were ready at entry, in
  order, once each, although it removes entries under its index and appends others; it terminates; and what it records
  stays true to what the connections carried.
- `Connections.RunFaithful`, `Connections.RunCarried`, `Connections.FailuresAreReal`: over every run, ids and requests
  recorded are those received, sends through a connection are those owed to its client, failures are broken connections.
- `ServerState.RunMatchedIff` and `ServerState.RunApartIff`: exactly when clients and listed descriptors stay in
  one-to-one correspondence, and exactly when no two connected clients ever share a descriptor.
- `ServerUtils.RunServer`: over any rounds of the outside world, the passes are those the rounds call for, and from start
  to teardown each descriptor is closed as often as it was handed out.
- `EndToEnd.TypedLinesApplied`, `EndToEnd.RunShows`, `EndToEnd.ClientScreen`: from lines typed to subscriptions, and
  from publications to the texts sent and to the screen at the other end of a connection, over a server's whole run;
  `EndToEnd.Program` states all of it of one run of the program.
- `Reception.EveryDatagramPublished` and `Reception.LoggedTexts`: the log is exactly what the datagrams received say, and
  what every text in it is, although the receive buffer is never cleared.
- `Reading.RenderReads` and `SubscriberUtils.SubscribeMeans`: what a reader gets back from a printed message, and what a
  typed line asks for, byte by byte.

## Where the code differs from what is written about it

The model follows the code.

- `retransmit_topics_to_client` saves the number of unsent messages after a failed send (src/server_utils.c:581) and
  overwrites it with zero (src/server_utils.c:589), although the comment at src/server_utils.c:546-549 promises that the rest
  waits for another reconnection. `Broker.Policy` names both versions: `DropRest` is the code, `KeepRest` the comment.
  `Guarantees.ReplayLossExample` is a run that loses a message; `Guarantees.StoredConservedIff` is the exact condition.
- An empty datagram closes the UDP socket (src/server_utils.c:638-643), while the repository's README.md:179 says that the
  server then terminates. The number of the closed socket may be handed to the next client, whose messages are then
  taken for datagrams, and whose closing is never noticed: `ServerState.UdpNumberExample`. By `ServerState.RunMatchedIff`
  this is the only way in which the correspondence of clients and descriptors is lost. The broker's guarantees
  survive it, and they survive that number being handed out once more to a peer whose id is in use, which is refused. By
  `ServerState.RunApartIff`, two connected clients come to share a descriptor exactly when a peer with an id not in use is
  registered under the number while the table still holds its client: `ServerState.HeldNumberExample`.
- Queued messages are replayed newest first (src/server_utils.c:571-574).
- The copy of the topic takes in the type byte (src/udp_type.c:100-101), so a name of 50 bytes survives only for INT,
  whose type byte is a NUL: `UdpType.TopicRoundTrip`.
- The receive buffer is not cleared between datagrams (src/server_utils.c:629-636), so a text sent without a NUL may
  be followed by bytes of an earlier datagram: `UdpType.ValueRoundTrip`, `UdpType.StoredText`.
- The subscriber recognises a command by its first bytes (src/subscriber_utils.c:441-443) and sends the whole first
  word; the server compares whole names. So `subscribed x` is sent and then ignored: `SubscriberUtils.IsSubscription`.
- The divisor of a FLOAT is computed in 32 bits; from exponent 10 on it is not a power of ten and from 32 on it is
  zero: `Utils.PowTenIn32Bits`.
- `ready_msgs` holds pointers into an array that `realloc` may move (src/server_utils.c:452-461, 527). The model uses
  positions in the log, which is what they are meant to denote, and they keep denoting it: `Trace.WaitingDenotes`.

## Model

| member | source | states |
|---|---|---|
| Utils.Ipow | src/utils.c:207-221 | the square-and-multiply loop, with its signed 32-bit accumulator, returns base^exp modulo 2^32 |
| Utils.PowTenIn32Bits | src/utils.c:207-221 | the divisor of a FLOAT is exact if and only if the exponent is at most 9, and is zero from 32 on |
| UdpType.ParseUdpIntType | src/udp_type.c:33-41 | the one int congruent modulo 2^32 to the magnitude, or to its negation if the sign byte is not zero |
| UdpType.ParseUdpFloatType | src/udp_type.c:59-67 | sign, mantissa and the 32-bit divisor |
| UdpType.ParseUdpTypeFrom | src/udp_type.c:88-124 | fills one slot in place with the parse of the buffer, leaves the other slots, and fails exactly on an unknown type |
| UdpType.ParsedIsWellTyped | src/udp_type.c:106-121 | a datagram is accepted exactly when its type byte is known, and its payload is then of that type |
| UdpType.NetworkOrder | src/udp_type.c:36-62 | multi-byte numbers are read most significant byte first |
| UdpType.TopicRoundTrip | src/udp_type.c:100-103 | a published topic name is recovered if and only if it leaves room for a NUL or the type is INT |
| UdpType.ValueRoundTrip | src/udp_type.c:88-124 | whatever the buffer held, parsing the encoding returns the published type, and its value if and only if it is in range, has scale at most 9, or its text is followed by a NUL |
| UdpType.TextRoundTrip | src/udp_type.c:75-78 | a stored text begins with the text sent, and equals it exactly when a NUL follows it in the reused buffer |
| UdpType.UntouchedByteIsZero | src/server_utils.c:177-181 | over a run of datagrams, a byte none of them reached is still zero |
| UdpType.StoredText | src/udp_type.c:75-78 | for any payload, the stored text begins with the payload's text, and equals it if and only if the payload holds a NUL or one follows it in the reused buffer |
| UdpType.StoredTextOverRun | src/server_utils.c:629-647 | over every run of datagrams of the format's sizes, with any payloads, a stored text ends within its field and equals the payload's text if that holds a NUL or no earlier datagram was longer |
| TcpType.Network.Send | src/tcp_type.c:54-60 | the transport takes some leading bytes or fails, and fails for good |
| TcpType.Network.Recv | src/tcp_type.c:95-101 | the transport hands over some of the bytes that follow, in order, or fails for good |
| TcpType.Network.Accept | src/server_utils.c:662-666 | hands out a descriptor that is not open, with fresh streams, or fails |
| TcpType.Network.Close | src/poll_vec.c:138 | the descriptor is free again and counted as closed |
| TcpType.Network.RecvFrom | src/server_utils.c:629-636 | a datagram overwrites the head of the buffer and leaves the rest as it was |
| TcpType.SendTcpMsg | src/tcp_type.c:37-66 | OK means the whole message is on the stream; a failure leaves a strict prefix of it and marks the connection, and no other, as failed |
| TcpType.RecvTcpMsg | src/tcp_type.c:78-107 | OK means the buffer holds the next bytes of the stream, whole; a failure marks the connection as failed |
| TcpType.ReceivedWire | src/tcp_type.c:78-107 | a receive adds one whole message to what its connection delivered, or marks it, and touches no other |
| TcpType.Framing | src/tcp_type.c:37-107 | however both sides' streams are cut, the reader gets the writer's messages in order and unaltered, and all of them once it has taken the whole stream |
| TopicMsg.RenderBounded | src/server_utils.c:355-399 | the text of a well-formed message is at most 1588 bytes and holds no NUL, so it always fits |
| TopicMsg.Snprintf | src/server_utils.c:356-363 | what is stored and returned, truncation included |
| TopicMsg.PackTopicToTcpMsg | src/server_utils.c:355-399 | whatever the buffer held, the length is that of the rendered text and the data reads as that text; an unknown type is refused |
| Reading.RenderReads | src/server_utils.c:356-393 | the text of a message is its address, ":", its port, " - ", its topic, " - ", its type's word, " - " and its value, each of which reads back as what was stored |
| Reading.DottedReads | src/server_utils.c:360 | the address text splits at the points into the four numbers of the address, in order |
| Reading.TwoPlacesReads | src/server_utils.c:373-379 | a SHORT_REAL prints as digits, a point and two digits, which together are the number of hundredths |
| Reading.SignedDenotes | src/server_utils.c:366-372 | an INT prints as a minus sign exactly if negative, and the digits of its magnitude |
| Reading.TypeWordsDiffer | src/server_utils.c:365-396 | the type's word tells the four types apart |
| Bytes.DecimalSpelled | src/server_utils.c:356-372 | numbers print most significant digit first |
| PollVectors.ShiftDown | src/poll_vec.c:140-142 | the shifting loop removes one entry and keeps the order of the others |
| PollVectors.PollVec.AddFd | src/poll_vec.c:90-114 | appends an entry that is not ready, and keeps the others when the array doubles |
| PollVectors.PollVec.RemoveFd | src/poll_vec.c:124-147 | closes the descriptor and removes its entry; refuses an index out of bounds without effect |
| PollVectors.PollVec.Poll | src/server_utils.c:339-341 | marks exactly the listed descriptors that the system reports ready; the listed descriptors stay |
| PollVectors.PollVec.Free | src/poll_vec.c:62-79 | closes every listed descriptor once |
| ClientVectors.Grow | src/client_vec.c:122-134 | doubling keeps the entries in use |
| ClientVectors.ClientVec.RegisterNewClient | src/client_vec.c:102-182 | new id appended, absent id reconnected, connected id refused, as the value table's Register says |
| ClientVectors.ClientVec.CloseActiveClient | src/client_vec.c:194-218 | the first record with the descriptor becomes absent; each error case leaves the table |
| ClientVectors.ClientVec.GetClientId | src/client_vec.c:229-235 | the id at an index, or the empty one |
| ClientVectors.ClientVec.SubscribeClientToTopic | src/client_vec.c:248-319 | sets the option of a held topic, else appends topic and option |
| ClientVectors.ClientVec.UnsubscribeClientFromTopic | src/client_vec.c:330-365 | removes the topic and its option together, or reports that it is not held |
| ClientVectors.ClientVec.AddTopicMsgForClient | src/client_vec.c:379-411 | stacks one log position behind the others |
| ClientTable.RegisterRefines | src/client_vec.c:102-182 | on the map from ids, registering refuses a connected id, else connects that entry and leaves all others and its subscriptions and queue |
| ClientTable.CloseRefines | src/client_vec.c:194-218 | closing succeeds exactly when some id is connected through the descriptor, and disconnects that entry alone |
| ClientTable.SubscribeRefines | src/client_vec.c:248-319 | subscribing updates one topic in the map of the entry connected through the descriptor, and nothing else |
| ClientTable.UnsubscribeRefines | src/client_vec.c:330-365 | unsubscribing removes one topic from that map, and succeeds exactly when it is there |
| ClientTable.HasFdMeaning | src/client_vec.c:203-214 | a scan for a descriptor finds exactly the connected clients, as absent ones are marked -1 |
| ClientTable.RegisterKeeps | src/client_vec.c:102-182 | ids stay distinct, absent exactly when marked -1, descriptors distinct |
| ClientTable.CloseKeeps | src/client_vec.c:194-218 | the table's invariant survives closing |
| ClientTable.SubscribeKeeps | src/client_vec.c:248-319 | topics stay distinct and aligned with their options |
| ClientTable.UnsubscribeKeeps | src/client_vec.c:330-365 | the same for the in-place removal |
| Broker.StepKeeps | src/server_utils.c:614-759 | every event keeps the table's invariant; connected clients stay apart unless a peer is registered under the number of one |
| Broker.StepInvIff | src/server_utils.c:687-709 | an event keeps connected clients apart if and only if it does not register a peer under the number of one |
| Broker.LegalIff | src/server_utils.c:614-759 | over every run, no two connected clients ever share a descriptor if and only if nobody is registered under the number of one |
| Broker.LegalRunInv | src/client_vec.c:102-365 | the whole invariant holds after every legal run |
| Broker.RunHasFd | src/server_utils.c:662-690 | only accepted descriptors ever serve clients |
| Broker.DistinctFdsLegal | src/server_utils.c:662-690 | a run is legal in particular when no descriptor is handed out twice |
| Trace.ConnectEvolves | src/server_utils.c:687-709 | connecting, with its replay, is for every client the event of its life that the trace says |
| Trace.DisconnectEvolves | src/server_utils.c:727-735 | likewise for disconnecting |
| Trace.RequestEvolves | src/server_utils.c:410-436 | likewise for requests |
| Trace.PublishEvolves | src/server_utils.c:493-544 | likewise for publications: sent to a connected subscriber, queued for an absent SF one, nothing for others |
| Trace.RunIsTrace | src/server_utils.c:493-597 | over every legal run, under both replay policies and any failures, each client's map entry, deliveries and losses are those the events determine, and the log holds the publications |
| Trace.PublishedGrows | src/server_utils.c:447-481 | publications are never reordered or altered, however many follow |
| Trace.DuePositionStays | src/server_utils.c:522-531 | the position a message is owed under denotes that message for the rest of the run |
| Trace.WaitingDenotes | src/server_utils.c:451-478 | every queued position denotes the message of one publication owed while the client was away, however often the log grew since |
| Trace.LinkHolds | src/client_vec.c:107-119 | a client the events connect through a descriptor is the one that holds it in the table |
| Trace.SubsAreAsked | src/server_utils.c:410-436 | a connected client's subscriptions are those it had, changed in order by the requests made on its connection since |
| Trace.StepSentFrom | src/server_utils.c:493-597 | every event sends only to connected clients, each through its own descriptor |
| Trace.ExpectedSplits | src/server_utils.c:559-597 | all deliveries to a client are those before it was last connected and those since |
| TraceMeaning.LinkIff | src/server_utils.c:687-738 | a client is connected through a descriptor exactly if some event connected it so and no later one hung up on the descriptor |
| TraceMeaning.SubsIff | src/client_vec.c:248-365 | a client holds a topic with an option exactly if its last request about the topic was that subscription |
| TraceMeaning.DueIff | src/server_utils.c:501-541 | a client is owed exactly the messages on topics it holds: live while connected, stored while away with store-and-forward |
| TraceMeaning.NewestAt | src/server_utils.c:571-574 | a replay sends the newest message first, then the next older one each time |
| TraceMeaning.NewsExample | src/server_utils.c:493-597 | a run worked out to the end: a live message, two missed ones newest first at the return, and a live one |
| Guarantees.Conservation | src/server_utils.c:493-597 | each message is delivered, missed or waiting exactly as often as it is due |
| Guarantees.DueIncreasing | src/server_utils.c:493-544 | no message is due twice |
| Guarantees.MissedIff | src/server_utils.c:515-521 | nothing is missed if and only if no live send and, where the rest is dropped, no replay send to the client fails |
| Guarantees.ExactlyOnceIff | src/server_utils.c:493-597 | sent plus queued is exactly what is due if and only if no send to the client failed, and never more than once |
| Guarantees.StoredConservedIff | src/server_utils.c:546-592 | each stored message is sent once or still queued, in order: always if the rest is kept, and for the code exactly when no replay send fails |
| Guarantees.ReplayLossExample | src/server_utils.c:580-589 | a run in which the code loses a stored message |
| Guarantees.WaitingIncreasing | src/server_utils.c:522-531 | queues keep publication order and point into the log |
| Guarantees.DeliveryOrder | src/server_utils.c:559-592 | without failures, the deliveries are the live messages in publication order with each outage's messages, newest first, at the reconnection |
| Guarantees.OnlyReplaysReorder | src/server_utils.c:559-592 | even with failures, only stored messages of one replay are ever out of publication order |
| Guarantees.StoreAndForward | src/server_utils.c:493-592 | a connected client's queue is empty; an absent one's holds increasing positions of messages on topics it holds with SF |
| Guarantees.SubscriptionsSurvive | src/client_vec.c:184-188 | over any stretch of a run without requests of its own, a client's subscriptions do not change |
| ServerState.HandleSound | src/server_utils.c:614-759 | whatever the system delivers, the poll list stays the set of open descriptors, without repetition |
| ServerState.DatagramPublished | src/server_utils.c:644-655 | a turn for a datagram logs and publishes exactly one message, what the buffer holds under its sender, if the type byte is at most 3; otherwise it fails and records nothing |
| ServerState.TurnResult | src/server_utils.c:614-759 | a turn fails exactly on a datagram of unknown type, a failed accept, or a new connection that does not identify itself |
| ServerState.MatchedKeptIff | src/server_utils.c:614-759 | a turn that succeeds keeps clients and listed descriptors in correspondence if and only if it does not register a client under the closed UDP socket's number |
| ServerState.ClientAlwaysFound | src/server_utils.c:716-753 | while they correspond, a client's message always finds its client: not-found and already-absent errors cannot happen |
| ServerState.RunMatchedIff | src/server_utils.c:614-759 | clients and listed descriptors correspond throughout a run if and only if no client is ever registered under the closed UDP socket's number |
| ServerState.TurnRecorded | src/server_utils.c:614-759 | every turn keeps the broker's state that of the recorded events, and keeps these legal exactly if it does not register a peer under the number of a client |
| ServerState.TurnApartIff | src/server_utils.c:656-712 | a turn keeps connected clients apart if and only if it does not register a peer, whose id is not in use, under the number of one |
| ServerState.RunApartIff | src/server_utils.c:614-759 | over every run, no two connected clients ever share a descriptor if and only if no peer is registered under the number of a client; exactly then the events are a legal run of the broker in the server's state |
| ServerState.HeldNumberExample | src/server_utils.c:638-709 | a run that ends with two connected clients, of different ids, behind one descriptor |
| ServerState.MatchedHoldsNumbers | src/server_utils.c:662-671 | while clients and descriptors correspond, no number of a client can be handed out |
| ServerState.UdpNumberExample | src/server_utils.c:638-690 | a run that breaks the correspondence |
| ServerState.EveryDescriptorClosedOnce | src/poll_vec.c:62-79 | over every run and its teardown, each descriptor is closed as often as it was handed out |
| ServerState.TurnsConcat | src/server.c:53-76 | successive passes make one run of turns |
| ServerUtils.Server.PackMessage | src/server_utils.c:497-499 | packing a logged message never fails, and the buffer then shows it |
| ServerUtils.Server.OfferTo | src/server_utils.c:502-541 | one client is sent to, queued for or passed over; a send counts as failed exactly if it marks the client's connection |
| ServerUtils.Server.TransmitTopicToClients | src/server_utils.c:493-544 | every client is offered the last logged message once, in table order, and the failing ones are exactly those whose connections fail |
| ServerUtils.Server.Replay | src/server_utils.c:571-586 | queued messages are sent newest first until none is left or the connection breaks |
| ServerUtils.Server.RetransmitTopicsToClient | src/server_utils.c:559-597 | the replay of the first client with the descriptor, after which its queue is empty in every case |
| ServerUtils.Server.AddServerUdpMsg | src/server_utils.c:447-481 | the log gains exactly the parsed message, also across a doubling, or an unknown type is refused |
| ServerUtils.Server.ProcessServerTcpMsg | src/server_utils.c:410-436 | the decoded request changes the sender's subscriptions, with every error case |
| ServerUtils.Server.HandleDatagram | src/server_utils.c:626-655 | the branch for the datagram socket is a turn of the value server, failed sends included |
| ServerUtils.Server.ReceiveMsg | src/server_utils.c:680-685 | a message counts as received exactly if the connection delivered it whole, and as missing exactly if the receive failed |
| ServerUtils.Server.HandleArrival | src/server_utils.c:656-712 | the branch for the listening socket is a turn of the value server: the id is the first message the connection delivered, none is missing unless the receive failed, and a replay stops early only if a send fails |
| ServerUtils.Server.HandleMessage | src/server_utils.c:713-754 | the branch for a client is a turn of the value server: the next message is received and applied, and a client is hung up on only if the receive failed |
| ServerUtils.Server.Serve | src/server_utils.c:624-756 | the branch that the descriptor selects, with everything the connections carried |
| ServerUtils.Server.ProcessReadyFds | src/server_utils.c:614-759 | serves in order and once each exactly the descriptors ready at entry, stdin apart; after an error, a first part of them; terminates; what it records stays true to what the connections carried |
| Commands.Fgets | src/server_utils.c:783 | the buffer holds the typed line as far as it fits, as a C string |
| Commands.LineExact | src/subscriber_utils.c:440 | the line read is a prefix of what was typed, shorter than the buffer, with a newline at its end at most, and as long as these allow |
| Commands.LineBegins | src/server_utils.c:784 | a short name begins the line read, as a C string, exactly if it begins what was typed, wherever the line is cut |
| ServerUtils.Server.CheckIfExit | src/server_utils.c:768-790 | through the ten-byte buffer and strncmp, the server stops exactly if stdin is ready and what was typed begins with the exit command |
| ServerUtils.Server.OneRound | src/server.c:53-76 | a round stops the server exactly if poll fails or the exit command is typed, and otherwise leads to one pass over the descriptors reported ready |
| ServerUtils.Server.ServeUntil | src/server.c:53-76 | over any rounds, one pass for each, over exactly the descriptors it reports ready, until a round stops the server or a pass fails; the record stays true to what the connections carried |
| Passes.ServesIsRun | src/server.c:53-76 | the passes together are one run of turns |
| Passes.ReadyOfHolds | src/server_utils.c:624-625 | the descriptors a pass serves are exactly those listed from index 1 on and ready |
| Passes.ReadyOfOrder | src/server_utils.c:624-625 | they are served in the order of the list |
| ServerUtils.Server.FreeServer | src/server_utils.c:282-319 | closes every listed descriptor |
| ServerUtils.InitServer | src/server_utils.c:194-272 | a valid server with zeroed buffers, no clients and three listed descriptors |
| ServerUtils.RunServer | src/server.c:34-83 | from start to teardown: the passes that the rounds call for, together one run of turns, true to what the connections carried, with every descriptor closed as often as handed out |
| Commands.WordsApart | src/subscriber_utils.c:334-344 | a blank (32) or a newline (10), wherever it stands, separates the words before it from those behind it |
| Commands.OneWord | src/subscriber_utils.c:334-344 | bytes without a blank and without a newline are one word |
| Commands.WordsExact | src/subscriber_utils.c:334-344 | no word is empty or holds a blank or newline, and the words in order are all the other bytes of the line |
| Commands.NamesSpelled | src/include/subscriber_utils.h:35-42 | the commands' names as they are typed |
| Commands.AtoiDecimal | src/subscriber_utils.c:345 | atoi reads back every int, the smallest included |
| Commands.AtoiReads | src/subscriber_utils.c:345 | atoi skips white space, takes a sign and reads digits up to the first other byte; beyond a long it is cut, beyond an int it keeps the lower 32 bits |
| Commands.AtoiNothing | src/subscriber_utils.c:345 | without a digit where one is needed, atoi returns zero |
| Commands.CarriedStrings | src/server_utils.c:411-412 | two strings written one behind the other are read back, whatever lies behind them |
| SubscriberUtils.StrTok | src/subscriber_utils.c:334-344 | cuts the next word in place and leaves the words of the rest of the line |
| SubscriberUtils.Subscriber.SendId | src/subscriber_utils.c:56-62 | the first message reads as the id |
| SubscriberUtils.Subscriber.GetCmdLine | src/subscriber_utils.c:425-455 | which command the first bytes typed select, and the line left in the buffer |
| SubscriberUtils.Subscriber.ProcessSubscribeCmd | src/subscriber_utils.c:326-366 | with whatever stale buffer, the message decodes to the line's topic and normalised option if the first word is the exact name, and to nothing else; a line without topic sends nothing; everything sent stays the id and the lines taken |
| SubscriberUtils.Subscriber.ProcessUnsubscribeCmd | src/subscriber_utils.c:379-411 | the same for unsubscribing |
| SubscriberUtils.Subscriber.ProcessReadyFds | src/subscriber_utils.c:283-313 | prints exactly the connection's next whole message, and exits exactly when the receive failed |
| SubscriberUtils.EncodesMeant | src/subscriber_utils.c:326-411 | the server decodes a line's message to what the line meant |
| SubscriberUtils.DecodeSubscribe | src/server_utils.c:410-422 | a message of a name, a topic, their NULs and an option byte, with their total length, decodes to that subscription exactly if the name is the command's |
| SubscriberUtils.SubscribeMeans | src/subscriber_utils.c:326-366 | "subscribe TOPIC N" and a newline, whatever is typed after it, asks for the topic with store-and-forward exactly if N is positive |
| SubscriberUtils.ShortLinesMean | src/subscriber_utils.c:326-411 | "subscribe TOPIC" asks for no store-and-forward, "unsubscribe TOPIC" ends the subscription, and a longer first word asks for nothing |
| SubscriberUtils.NoTopicMeans | src/subscriber_utils.c:336-341 | a line of one word asks for nothing |
| SubscriberUtils.Subscriber.OneRound | src/subscriber.c:65-107 | a command typed is sent or refused, otherwise a ready connection's message is printed; failures are broken connections |
| SubscriberUtils.Subscriber.Interact | src/subscriber.c:53-112 | over any rounds, the lines sent are exactly those typed as commands that could be sent, one text is printed for each read that succeeded, and it ends only with the rounds, on the exit command, a failed poll or a failed connection |
| SubscriberUtils.ShowsWhatWasSent | src/subscriber_utils.c:296-309 | a screen shows the texts of the messages sent whole, in order |
| Connections.TurnFaithful | src/server_utils.c:614-759 | whatever the system does, a turn records just the ids and requests received, in order, and a peer that delivered its id is hung up on exactly if its connection failed |
| Connections.RunFaithful | src/server_utils.c:614-759 | so does every run: on each connection the first whole message is the id, the requests recorded are what the later ones say, and it is hung up on exactly if it failed |
| Connections.SubscriptionsAreHeard | src/server_utils.c:410-436 | a connected client's entry in the table is what the messages received on its connection make it |
| Connections.RunCarried | src/server_utils.c:493-597 | over every run in which no number of a client is handed out, however it ends: the messages sent through a connected client's descriptor since it was accepted are, in order, those the events say were sent to it since it was connected |
| Connections.FailuresAreReal | src/server_utils.c:515-521 | a turn that records a failed live or replay send to a client leaves it connected through a connection on which a send failed |
| Connections.RunUnbroken | src/server_utils.c:493-597 | as long as no send on any connection has failed, no failure is recorded for any client |
| Reception.BufferOverRun | src/server_utils.c:629-636 | over every run, the receive buffer is what the datagrams received so far leave in it |
| Reception.EveryDatagramPublished | src/server_utils.c:629-655 | over every run, the log and the publications are exactly what the datagrams say: each one of a known type logged and published once, in order, under its sender, and nothing else |
| Reception.LogOverRun | src/server_utils.c:447-481 | each logged message is the parse of the buffer as the datagrams until then left it, under the sender the system delivered |
| Reception.LoggedTexts | src/server_utils.c:629-654 | over every run with datagrams of the format's sizes, every text in the log bears the sender delivered with it, ends within its field and begins with its datagram's text, and is that text if the payload holds a NUL or no earlier datagram was longer |
| EndToEnd.SubscriptionApplied | src/server_utils.c:414-422 | a subscriber's k-th message, however its stream is cut, updates exactly the sender's entry with (topic, atoi(sf) > 0) of the line typed |
| EndToEnd.UnsubscriptionApplied | src/server_utils.c:423-430 | the same for unsubscribing |
| EndToEnd.HeardIsMeant | src/subscriber_utils.c:326-411 | what a server has read of a subscriber's messages is its id and what its first lines meant |
| EndToEnd.TypedLinesApplied | src/server_utils.c:410-436 | over such a run, a connected client's subscriptions are those it had, changed in order by the lines typed at its subscriber since, as far as read |
| EndToEnd.TextsAreRendered | src/server_utils.c:355-399 | the messages sent whole to a client read as the rendered texts of its deliveries |
| EndToEnd.ThroughShows | src/server_utils.c:493-597 | the stream of a descriptor carries, message by message, what was sent to it |
| EndToEnd.ScreenShows | src/subscriber_utils.c:296-309 | however its connection is cut into pieces, a subscriber shows the rendered texts of the logged messages delivered through it since it was accepted, in order, and all of them once it has read everything |
| EndToEnd.Watch | src/subscriber.c:53-112 | whatever is typed at a subscriber, its screen shows just what was delivered to it, one text for each read, and what it has sent is its id and the lines typed |
| EndToEnd.RunShows | src/server_utils.c:493-759 | over every run in which no peer is registered under the number of a client, the texts sent to a client are those its events determine, and without failures the intended ones |
| EndToEnd.UnbrokenRunShows | src/server_utils.c:493-759 | over such a run, the texts sent to each client are the intended ones as long as no send on any connection has failed |
| EndToEnd.ClientScreen | src/server_utils.c:493-597 | over every run in which no number of a client is handed out, a subscriber's screen shows in order the rendered texts of what its client was sent since it was connected, and all of them once it has read everything |
| EndToEnd.Program | src/server.c:34-83 | one run of the program in any world: its passes, its descriptors, every datagram published, the texts sent, the screens, the subscriptions and the logged texts |

## Left out

- Socket creation, `bind`, `listen`, `connect`, `TCP_NODELAY` and SIGPIPE: only their effect on open descriptors is
  kept; `InitServer` receives the two sockets' numbers.
- Failing allocations, NULL arguments, the order of `free`, `debug_msg`, the error texts, `print_udp_type`, and the lines
  both programs print about themselves.
- ServerUtils.RunServer: the main loop runs over a finite sequence of rounds, since the source's loop need not end.
- TopicMsg.PackTopicToTcpMsg: `%f` is an arbitrary text of at most 18 bytes, and reals are kept as quotients, because
  the rounding of floating-point numbers is not modelled.
- ClientVectors.ClientVec.RegisterNewClient: does not model that an over-long id overruns its fixed field; ids, topics and
  texts without a NUL end where their buffer ends.
- Commands.Decode: a length field that points outside the data reads option 0, where the code reads outside the message.
- UdpType.ParseUdpIntType: negating the smallest int wraps, as compilers make it do, although C leaves it undefined.
- SubscriberUtils.Subscriber.Interact: the main loop runs over a finite sequence of rounds; what poll reports and what is typed is given, the connection is not.
- TcpType.Network.RecvFrom: datagrams are arbitrary, also when the number of the closed datagram socket serves a client;
  that they are then bytes of that client's stream is not modelled.
- The server's log positions stand for the pointers in `ready_msgs`; addresses that go stale in `realloc` do not exist here.

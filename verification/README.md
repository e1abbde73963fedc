# STOMP world cup server and client

This project models a STOMP publish/subscribe service and proves what it promises: a server that
runs in a reactor over an actor pool or with one thread per client, its broker, and a client that
reports game events and summarises those of others. Five parts hang together.

* **The actor pool and the reactor.** `ActorThreadPool` takes submit, complete, pendingRunnablesOf and
  execute apart into their lock operations and proves that every interleaving of any number of threads
  refines the pool of `SerialActors`; the pool as an object is there too. `ReactorRead` puts
  the selector thread, leased buffers, pool tasks and decoders on top and proves when the reactor hands
  over the frames the blocking loop hands over; `ReactorPool` joins the two, and `ReactorBroker` puts the
  broker behind it. `ReactorWrite` is the other direction: sender threads, the task queue with its wake-up,
  write interest and partial writes. Both directions are shown to be able to go on to their end.
  `Handlers` and `Reactor` hold the loops of the handlers and of the selector thread.
* **The codec and the frames.** `Codec` has UTF-8 and the growing decoder, `ConnectionHandler` the client's
  loops over bytes, `Frames` the header grammar, and `Wire` shows that what the server sends arrives whole.
* **The broker.** `Broker` is the broker as a state machine over values, `BrokerInvariant` and
  `BrokerDelivery` say what it keeps and what it sends, and `WorldCupConnections` and `StompProtocol`
  are the objects, proved method by method to do what the machine says. `Logins` follows passwords over
  whole runs, and `BadFrames` has the runs that break the broker's indexes.
* **The event text.** `Reports` prints an event and takes it out of a MESSAGE, `Game`, `ClientStore` and
  `ClientUser` keep the statistics, and `ReportReading`, `SummaryReading` and `EventPipeline` prove that an
  event goes from one client's file into another client's summary, and on which inputs.
* **The session.** `ClientFrames`, `Session` and `ClientProtocol` follow one client's ids and receipts
  over ordered requests, unordered answers and a server that other connections use at the same time.

`Text`, `OrderedMap`, `KeyOrder` and `Wrappers` serve the others. `dafny verify dfyconfig.toml` checks everything.

## Where the code departs from its evident intent

The model does what the code does; each of these is stated as a lemma or shows in a definition.

* After an exception from process the blocking handler's thread ends, while the reactor goes on with the
  connection's next buffer (`ReactorRead.ModesAgreeExactly`, `ReactorGoesOn`, `ReactorBroker.ModesAgreeOnFrames`).
* A text with U+0000 is cut in two on the wire (`Codec.ArriveExactly`, `EventPipeline.NulCutsReport`); `Session`
  therefore takes only joins and reports without it.
* A channel found closed stays in the connection table. A later send on it leaves a task without a usable key,
  which throws on the selector thread and ends it (`ReactorWrite.SelectorSurvivesExactly`, `LateSendKills`).
* `send` keeps its argument in a field that a new thread reads later (`ReactorWrite.SendDeliversExactly`).
  `Session` assumes that each send delivers its own argument.
* A refused DISCONNECT still ends the connection, without taking its user out of the topics
  (`BrokerInvariant.DisconnectAloneKeeps`), and a second CONNECT on a connection overwrites the mapping
  (`LoginKeeps`). These are the only two ways to break the indexes (`AgreementExactly`), and `BadFrames`
  has a run for each.
* The tests of host and version compare with texts that end in a line break, which no header value
  does (`Frames.ValuesAreLines`), so they reject nothing.
* A broadcast carries the sender's subscription id to every recipient, as `EventPipeline.Relayed` has it.
* STOMP 1.2 takes the first of several equal headers; the code takes the last (`Frames.HeadersRoundTrip`).
* An exit always names the first join of its game (`Session.ExitMeansFirstJoin`, `SecondExitIsRefused`).
* A value that contains a later marker is misread (`Reports.MarkersExactly`, `EventPipeline.NameSpoilsTime`),
  and trimming changes some keys and values (`ReportReading.SectionsReadBackExactly`). In a summary a
  statistic that looks like a team's header is taken for it (`SummaryReading.SummaryReadsExactly`).

## Model

| member | source | states |
|---|---|---|
| ActorThreadPool.StepSimulates | server/src/main/java/bgu/spl/net/srv/ActorThreadPool.java:28-76 | every atomic action of any thread in submit, complete, pendingRunnablesOf or execute is nothing or one event of the serial pool, and keeps the correspondence between the tables and that pool |
| ActorThreadPool.RunsAreSound | server/src/main/java/bgu/spl/net/srv/ActorThreadPool.java:28-76 | every state of every interleaving, for any number of threads and actors, corresponds to a serial pool in which nothing is lost |
| ActorThreadPool.OneTaskPerActor | server/src/main/java/bgu/spl/net/srv/ActorThreadPool.java:57-65 | at most one thread runs or completes an actor, and then no other task of it waits in the executor |
| ActorThreadPool.PlayingExactly | server/src/main/java/bgu/spl/net/srv/ActorThreadPool.java:28-37 | an actor is in playingNow exactly when a task of it is with the executor or a thread runs or completes it |
| ActorThreadPool.SerialOrder | server/src/main/java/bgu/spl/net/srv/ActorThreadPool.java:28-37 | finished tasks, the one in flight, the pending queue and the one being submitted make up the submitted sequence, in order |
| ActorThreadPool.PutNeverOverwrites | server/src/main/java/bgu/spl/net/srv/ActorThreadPool.java:43-55 | no put replaces a live queue although the null check and the put are two lock sections, and the queue used is always the one in the table |
| ActorThreadPool.NoDeadlock | server/src/main/java/bgu/spl/net/srv/ActorThreadPool.java:28-76 | unless everything has finished, some thread can move: monitors before the read or write lock, never an upgrade |
| ActorThreadPool.StepDecreases | server/src/main/java/bgu/spl/net/srv/ActorThreadPool.java:57-76 | without further submits every step lowers one measure over pending, queued, running and completing tasks |
| ActorThreadPool.QuietIsComplete | server/src/main/java/bgu/spl/net/srv/ActorThreadPool.java:67-76 | when nothing is left to do every actor has finished exactly what was submitted to it and is not in playingNow |
| ActorThreadPool.EveryScheduleDrains | server/src/main/java/bgu/spl/net/srv/ActorThreadPool.java:57-76 | every schedule is bounded by the measure, and one that cannot be extended has finished every task of every actor and emptied playingNow |
| SerialActors.StepKeepsSerial | server/src/main/java/bgu/spl/net/srv/ActorThreadPool.java:28-76 | submit, hand-over, completion and hand-on of the next task neither lose, duplicate nor reorder tasks |
| ActorThreadPool.ActorThreadPool.Submit | server/src/main/java/bgu/spl/net/srv/ActorThreadPool.java:28-37 | the method on the pool object does the serial pool's Submit and keeps the tables in agreement with it |
| ActorThreadPool.ActorThreadPool.TakeAndRun | server/src/main/java/bgu/spl/net/srv/ActorThreadPool.java:57-65 | a worker runs the oldest task handed over, which is the one its actor's slot holds |
| ActorThreadPool.ActorThreadPool.Complete | server/src/main/java/bgu/spl/net/srv/ActorThreadPool.java:67-76 | and Complete its Complete: the oldest pending task next, or the actor leaves playingNow |
| ActorThreadPool.ActorThreadPool.PendingRunnablesOf | server/src/main/java/bgu/spl/net/srv/ActorThreadPool.java:43-55 | the list returned is the one in the table, made fresh at its first use, and belongs to no other actor |
| ReactorRead.InvKept | server/src/main/java/bgu/spl/net/srv/NonBlockingConnectionHandler.java:43-78 | each action of the selector thread and of the workers, a throwing process included, keeps buffer ownership, the account of every byte sent, the decoders, the record of throws and what each buffer was filled with |
| ReactorRead.ModesAgree | server/src/main/java/bgu/spl/net/srv/BlockingConnectionHandler.java:41-47 | for every interleaving and chunking: until process throws on a connection the frames handed to it are a prefix of those of the blocking loop, and all of them once the connection has drained; the first frame on which process throws is the last of the blocking loop, and up to it both hand over the same |
| ReactorRead.ModesAgreeExactly | server/src/main/java/bgu/spl/net/srv/BlockingConnectionHandler.java:34-51 | the reactor's frames are a prefix of the blocking loop's if and only if no frame is handed over after one on which process threw |
| ReactorRead.ReactorGoesOn | server/src/main/java/bgu/spl/net/srv/NonBlockingConnectionHandler.java:54-69 | a run on which they differ: two empty frames in two reads, of which the blocking loop hands over one and the reactor both |
| ReactorRead.TaskReadsItsOwn | server/src/main/java/bgu/spl/net/srv/NonBlockingConnectionHandler.java:43-69 | what a task has decoded, followed by what its buffer still holds, is what its own read stored, and every byte sent is decoded or dropped, in a buffer, or on its way |
| ReactorRead.EverythingIsRead | server/src/main/java/bgu/spl/net/srv/NonBlockingConnectionHandler.java:43-78 | the selector thread and the workers can always take in all that an open connection has sent, and if process has not thrown on it they then have handed over all that the blocking loop does |
| ReactorPool.RunsAreReads | server/src/main/java/bgu/spl/net/srv/ActorThreadPool.java:28-76 | every run of selector thread, workers and other actions at the granularity of the pool's locks is, for the read side, a run over the serial pool |
| ReactorPool.LockedModesAgree | server/src/main/java/bgu/spl/net/srv/BlockingConnectionHandler.java:41-47 | hence the modes agree in the same way at that granularity |
| ReactorBroker.ModesAgreeOnFrames | server/src/main/java/bgu/spl/net/srv/BlockingConnectionHandler.java:34-51 | with the broker behind the read side, in every run without the two kinds of frame that break its indexes: the modes agree on a connection if and only if each of its frames that was followed by another was readable, met its connection alive and was no DISCONNECT before login |
| ReactorRead.BuffersHaveOneOwner | server/src/main/java/bgu/spl/net/srv/NonBlockingConnectionHandler.java:114-126 | the spare buffers, the one the selector holds and those of tasks are disjoint and free of repeats in every reachable state, and none is ever lost |
| ReactorWrite.NoLostWakeup | server/src/main/java/bgu/spl/net/srv/Reactor.java:89-99 | a selector blocked with no wake-up due has no task left and watches every open connection that has output, also when a sender races the step that drops write interest |
| ReactorWrite.SelectorNeverSticks | server/src/main/java/bgu/spl/net/srv/NonBlockingConnectionHandler.java:92-112 | outside select a selector thread that lives can always take its next action; in particular the buffer it removes is there |
| ReactorWrite.SelectorSurvivesExactly | server/src/main/java/bgu/spl/net/srv/Reactor.java:89-99 | without further sends and closings the selector thread survives every continuation if and only if no task for a closed channel is under way, nor a thread that will leave one |
| ReactorWrite.SafeKeptExactly | server/src/main/java/bgu/spl/net/srv/NonBlockingConnectionHandler.java:70-87 | that safety is lost exactly by a send on a closed channel and by closing a channel with a task under way |
| ReactorWrite.LateSendKills | server/src/main/java/bgu/spl/net/srv/Reactor.java:132-136 | a run from the start on which a channel is closed, a message is sent on it, and the selector thread ends |
| ReactorWrite.WriteKeepsBytes | server/src/main/java/bgu/spl/net/srv/NonBlockingConnectionHandler.java:92-106 | every action of continueWrite conserves the bytes, and the buffer removed is the one just peeked and drained |
| ReactorWrite.RoundWrites | server/src/main/java/bgu/spl/net/srv/NonBlockingConnectionHandler.java:92-112 | a round of the selector thread over a queue writes exactly what the channel takes, up to the first buffer not taken whole, and drops write interest exactly if that empties the queue |
| ReactorWrite.OutputGetsOut | server/src/main/java/bgu/spl/net/srv/Reactor.java:58-77 | with a living selector thread and no fatal task under way, the threads already there can always write the queue of an open channel to its end, and then its bytes are all the messages queued |
| ReactorWrite.EveryMessageGetsOut | server/src/main/java/bgu/spl/net/srv/NonBlockingConnectionHandler.java:129-136 | and also all the messages sent, each once, if each was queued or still waits with its own argument |
| ReactorWrite.BytesConserved | server/src/main/java/bgu/spl/net/srv/NonBlockingConnectionHandler.java:92-106 | bytes taken by the channel followed by what is left in the queue are the encodings in queue order, under any partial writes and enqueues; a client decodes a prefix of the messages |
| ReactorWrite.SendDeliversExactly | server/src/main/java/bgu/spl/net/srv/NonBlockingConnectionHandler.java:129-136 | whatever follows a call of send, each message sent on the connection goes out once or still waits, if and only if at the call no other message waited to be encoded there |
| Handlers.FrameReader.ReadAll | server/src/main/java/bgu/spl/net/srv/BlockingConnectionHandler.java:41-47 | the read loop over the decoder object sees the bytes up to the first frame on which process throws, and says whether it ended so |
| Handlers.ReadInChunks | server/src/main/java/bgu/spl/net/srv/NonBlockingConnectionHandler.java:54-69 | one task for each chunk hands over at least what one loop over all of them does, and exactly that if process throws on no frame |
| Handlers.NonBlockingConnectionHandler.ContinueWrite | server/src/main/java/bgu/spl/net/srv/NonBlockingConnectionHandler.java:92-112 | called for a valid key, the drain loop writes exactly what the channel takes, up to the first buffer not taken whole, and empties the queue if each is; it drops write interest at the reactor exactly if the queue is then empty |
| Handlers.NonBlockingConnectionHandler.Respond | server/src/main/java/bgu/spl/net/srv/NonBlockingConnectionHandler.java:132-135 | the started thread appends the encoding of whatever the response field holds, and leaves the reactor a task for write interest with a wake-up |
| Reactor.Reactor.UpdateInterestedOps | server/src/main/java/bgu/spl/net/srv/Reactor.java:89-99 | the interest asked for takes effect at once on the selector thread, where it throws exactly for a channel without a key, and else after the tasks already left, with a wake-up |
| Reactor.Reactor.RunSelectionThreadTasks | server/src/main/java/bgu/spl/net/srv/Reactor.java:132-136 | the loop throws exactly if some task is about a closed channel, and else empties the queue and applies the tasks in order |
| Reactor.Reactor.HandleAccept | server/src/main/java/bgu/spl/net/srv/Reactor.java:102-114 | a new connection gets an id that no live connection has, and read interest |
| Reactor.AskedIsWatched | server/src/main/java/bgu/spl/net/srv/Reactor.java:132-136 | after the tasks of senders have run through, every channel they asked for is watched for writing |
| Codec.TextRoundTrip | server/src/main/java/bgu/spl/net/impl/stomp/StompMessageEncoderDecoder.java:26 | decoding the UTF-8 encoding (section 3 of RFC 3629) of any text gives the text |
| Codec.ZeroOnlyForNul | server/src/main/java/bgu/spl/net/impl/stomp/StompMessageEncoderDecoder.java:14-18 | only U+0000 produces a zero byte, so comparing single bytes finds frame ends |
| Codec.EncodeShape | server/src/main/java/bgu/spl/net/impl/stomp/StompMessageEncoderDecoder.java:26 | the lengths, first bytes and later bytes of an encoded character are those of section 3 of RFC 3629 |
| Codec.FramesRoundTrip | server/src/main/java/bgu/spl/net/impl/stomp/StompMessageEncoderDecoder.java:13-27 | any list of NUL-free texts survives encoding, transmission and decoding |
| Codec.ArriveExactly | server/src/main/java/bgu/spl/net/impl/stomp/StompMessageEncoderDecoder.java:13-27 | texts sent one after another leave a decoder between two frames, in whatever chunks they come, as exactly these texts if and only if none contains U+0000 |
| Codec.FramesAreNulFree | server/src/main/java/bgu/spl/net/impl/stomp/StompMessageEncoderDecoder.java:13-22 | no frame a decoder releases contains U+0000, whatever the bytes |
| Codec.ChunkingIsInvisible | server/src/main/java/bgu/spl/net/impl/stomp/StompMessageEncoderDecoder.java:13-22 | where the bytes are cut into chunks makes no difference |
| Codec.TasksGoOn | server/src/main/java/bgu/spl/net/srv/NonBlockingConnectionHandler.java:54-69 | tasks that each end with the frame on which process throws hand over at least the frames of one loop that ends there |
| Codec.StompMessageEncoderDecoder.PushByte | server/src/main/java/bgu/spl/net/impl/stomp/StompMessageEncoderDecoder.java:29-35 | the byte is appended; the capacity is 1024 doubled some times, is 1024 or less than twice the longest frame, and growth has copied capacity minus 1024 bytes |
| Codec.StompMessageEncoderDecoder.PopString | server/src/main/java/bgu/spl/net/impl/stomp/StompMessageEncoderDecoder.java:37-41 | the frame is the text of the pending bytes, of which none stay |
| Codec.StompMessageEncoderDecoder.DecodeNextByte | server/src/main/java/bgu/spl/net/impl/stomp/StompMessageEncoderDecoder.java:13-22 | one byte moves the decoder as the frame model says, whatever was released before |
| ConnectionHandler.ConnectionHandler.GetFrame | client/src/ConnectionHandler.cpp:72-99 | the client's loop reads the frame the decoder would release next and leaves what follows, and fails exactly if there is none |
| ConnectionHandler.ConnectionHandler.SendFrameAscii | client/src/ConnectionHandler.cpp:53-67 | whatever the socket takes at each turn, a text leaves as the codec's encoding of it |
| ConnectionHandler.ReadFrames | client/src/StompProtocol.cpp:7-15 | the listener reads exactly the frames the decoder would release |
| Frames.HeadersRoundTrip | server/src/main/java/bgu/spl/net/impl/stomp/StompProtocol.java:267-275 | reading undoes printing of headers with keys free of colon and line break, and leaves the body alone; of a repeated key the last value stays |
| Frames.PrintedIsReceived | server/src/main/java/bgu/spl/net/impl/stomp/StompProtocol.java:27-36 | a printed frame arrives with its type, its headers, its body and whether it asks for a receipt |
| Frames.ParseExactly | server/src/main/java/bgu/spl/net/impl/stomp/StompProtocol.java:27-36 | a text is readable if and only if it is a first line, header lines with a colon each, and a blank line with anything after it |
| Frames.ErrorIsRead | server/src/main/java/bgu/spl/net/impl/stomp/StompProtocol.java:85-93 | a printed ERROR reads as one whose `message` is its kind, with a `receipt-id` exactly if a receipt was asked for, and its body quotes and describes |
| Frames.MessageIsRead | server/src/main/java/bgu/spl/net/impl/stomp/StompProtocol.java:98-102 | a printed MESSAGE reads with its three headers and its body |
| Frames.ReceiptIsRead | server/src/main/java/bgu/spl/net/impl/stomp/StompProtocol.java:94-97 | a printed RECEIPT reads with its `receipt-id` |
| Frames.ConnectedIsRead | server/src/main/java/bgu/spl/net/impl/stomp/StompProtocol.java:103-105 | a printed CONNECTED reads with its version |
| Frames.ValuesAreLines | server/src/main/java/bgu/spl/net/impl/stomp/StompProtocol.java:267-275 | no header value that is read contains a line break |
| BrokerInvariant.SubscribeKeeps | server/src/main/java/bgu/spl/net/impl/stomp/StompProtocol.java:154-166 | the user table, the topic lists and the connection table agree after SUBSCRIBE, repeats included |
| BrokerInvariant.UnsubscribeKeeps | server/src/main/java/bgu/spl/net/impl/stomp/StompProtocol.java:140-152 | and after UNSUBSCRIBE, which never meets a missing list |
| BrokerInvariant.SignOffKeeps | server/src/main/java/bgu/spl/net/impl/stomp/StompProtocol.java:132-138 | the DISCONNECT loop takes every entry of the leaver out of every list, repeats included, and leaves the others and their order alone |
| BrokerInvariant.DisconnectAloneKeeps | server/src/main/java/bgu/spl/net/srv/WorldCupConnections.java:34-38 | a DISCONNECT without that loop keeps the agreement exactly if the user has no subscription |
| BrokerInvariant.LoginKeeps | server/src/main/java/bgu/spl/net/impl/stomp/StompProtocol.java:175-206 | an accepted login keeps connections and users a bijection exactly on a live connection that has no user yet |
| BrokerInvariant.AgreementExactly | server/src/main/java/bgu/spl/net/impl/stomp/StompProtocol.java:24-80 | the indexes agree after a frame if and only if it is not an accepted CONNECT on such a connection nor a refused DISCONNECT of a subscribed user |
| BadFrames.SecondConnectBreaks | server/src/main/java/bgu/spl/net/srv/WorldCupConnections.java:51-54 | a run from a new server: a second CONNECT on the same connection ends the agreement |
| BadFrames.RefusedDisconnectBreaks | server/src/main/java/bgu/spl/net/impl/stomp/StompProtocol.java:74-79 | a run from a new server: a DISCONNECT without receipt header by a subscribed user ends the agreement |
| BrokerInvariant.StartAgrees | server/src/main/java/bgu/spl/net/srv/WorldCupConnections.java:12-18 | the indexes of a new server agree |
| BrokerInvariant.AgreementAlways | server/src/main/java/bgu/spl/net/impl/stomp/StompProtocol.java:24-80 | hence throughout every sequence of frames without those two kinds |
| BrokerDelivery.ExactDelivery | server/src/main/java/bgu/spl/net/impl/stomp/StompProtocol.java:110-130 | an accepted SEND reaches each connection exactly as often as its user has subscription ids on the destination, body unchanged, and never meets a missing connection |
| BrokerDelivery.SendReplies | server/src/main/java/bgu/spl/net/impl/stomp/StompProtocol.java:110-130 | the reply to SEND: a receipt if asked for exactly when the sender is subscribed, else an ERROR |
| BrokerDelivery.UnsubscribeReplies | server/src/main/java/bgu/spl/net/impl/stomp/StompProtocol.java:140-152 | UNSUBSCRIBE is refused exactly for an id not in use |
| BrokerDelivery.ReplyDiscipline | server/src/main/java/bgu/spl/net/impl/stomp/StompProtocol.java:24-80 | a frame is granted exactly if it is logged in or CONNECT, well-formed, and its login, destination or id is right for the tables; a grant echoes the receipt header exactly if there is one, and every other frame gets one ERROR with the same rule and changes nothing |
| BrokerDelivery.RefusedChangesNothing | server/src/main/java/bgu/spl/net/impl/stomp/StompProtocol.java:281-289 | if the answer is an ERROR, any frame but DISCONNECT leaves every index and the counter alone and sends nothing but that ERROR |
| BrokerDelivery.ThrowsExactly | server/src/main/java/bgu/spl/net/impl/stomp/StompProtocol.java:24-80 | while the indexes agree process throws exactly for a text it cannot read, for any text on a connection that is gone, and for a DISCONNECT before login |
| BrokerDelivery.HandleFramed | server/src/main/java/bgu/spl/net/impl/stomp/StompProtocol.java:24-73 | no handler drops a live connection, lowers the counter, or numbers a message otherwise than by it |
| BrokerDelivery.ValidatorsExact | server/src/main/java/bgu/spl/net/impl/stomp/StompProtocol.java:212-265 | size and membership tests together accept exactly the wanted headers, an optional receipt (required for DISCONNECT), and a body exactly for SEND |
| BrokerDelivery.MessageIdsDistinct | server/src/main/java/bgu/spl/net/srv/WorldCupConnections.java:62-66 | messages published by different frames of a run carry different message ids |
| Logins.PasswordDecides | server/src/main/java/bgu/spl/net/impl/stomp/StompProtocol.java:175-206 | the first login of a name is admitted with any passcode, and after any run whatever a later one is admitted if and only if the name is not connected and the passcode is that of the first; else it gets an ERROR about the login |
| BadFrames.ConnectReceived | client/src/StompProtocol.cpp:65-66 | the CONNECT a client prints is well-formed and carries its name and passcode |
| BrokerDelivery.LoginErrorExactly | server/src/main/java/bgu/spl/net/impl/stomp/StompProtocol.java:175-206 | an ERROR is about the login if and only if it answers a CONNECT that has passed its validator |
| BrokerDelivery.ErrorQuotes | server/src/main/java/bgu/spl/net/impl/stomp/StompProtocol.java:281-289 | every ERROR goes to the sender and quotes the message it answers without its last character |
| Wire.ProcessIsWhole | server/src/main/java/bgu/spl/net/impl/stomp/StompProtocol.java:24-80 | handed a text without U+0000, process sends only texts without it, ERRORs included, and keeps the tables free of it |
| Wire.AnswersArrive | server/src/main/java/bgu/spl/net/srv/NonBlockingConnectionHandler.java:129-136 | so in every run of a new server whatever it sends to a connection arrives as exactly the frames sent, in any order and chunks |
| WorldCupConnections.User.Subscribe | server/src/main/java/bgu/spl/net/srv/User.java:36-40 | refused exactly for an id in use; else the id maps to the topic |
| WorldCupConnections.User.GetIDfromTopicName | server/src/main/java/bgu/spl/net/srv/User.java:54-59 | an id that maps to the destination if there is one, whatever the order of the table |
| WorldCupConnections.User.DisconnectUser | server/src/main/java/bgu/spl/net/srv/User.java:27-31 | the user is not connected, has no connection and no subscription |
| WorldCupConnections.RemoveUserNames | server/src/main/java/bgu/spl/net/impl/stomp/StompProtocol.java:145 | removing an object from a list of users removes the first entry of its name |
| WorldCupConnections.WorldCupConnections.SendTo | server/src/main/java/bgu/spl/net/srv/WorldCupConnections.java:20-23 | throws exactly for a connection without handler, else hands the message to it |
| WorldCupConnections.WorldCupConnections.SendChannel | server/src/main/java/bgu/spl/net/srv/WorldCupConnections.java:27-31 | the loop over the subscribers sends the copies the state machine prescribes and stops where it throws |
| WorldCupConnections.WorldCupConnections.Disconnect | server/src/main/java/bgu/spl/net/srv/WorldCupConnections.java:34-38 | throws exactly without a user; else does what the state machine prescribes to users, connections and handlers |
| WorldCupConnections.WorldCupConnections.AttachCIDtoUser | server/src/main/java/bgu/spl/net/srv/WorldCupConnections.java:51-54 | user and connection know each other and nothing else changes |
| WorldCupConnections.WorldCupConnections.GetMsgID | server/src/main/java/bgu/spl/net/srv/WorldCupConnections.java:62-66 | the counter in decimal, and the counter moves on |
| StompProtocol.StompProtocol.Process | server/src/main/java/bgu/spl/net/impl/stomp/StompProtocol.java:24-80 | the object does to the shared tables and sends to the connections exactly what the broker machine says, and throws exactly when it does; a SEND carried out goes under an id that its sender's table maps to the destination; if the clean-up of a DISCONNECT throws, one entry is out of its list for each id done by then and all else is as before |
| StompProtocol.StompProtocol.ReadStompHeaders | server/src/main/java/bgu/spl/net/impl/stomp/StompProtocol.java:267-275 | the loop fills the table as the header grammar says and throws exactly where it has no reading |
| StompProtocol.StompProtocol.TryToLogin | server/src/main/java/bgu/spl/net/impl/stomp/StompProtocol.java:175-206 | login on the objects refines login of the machine, whose passwords `Logins` follows over whole runs |
| StompProtocol.StompProtocol.TryToSubscribeUser | server/src/main/java/bgu/spl/net/impl/stomp/StompProtocol.java:154-166 | likewise SUBSCRIBE |
| StompProtocol.StompProtocol.TryToUnsubscribeUser | server/src/main/java/bgu/spl/net/impl/stomp/StompProtocol.java:140-152 | likewise UNSUBSCRIBE, with the exception for a missing list |
| StompProtocol.StompProtocol.LeaveTopics | server/src/main/java/bgu/spl/net/impl/stomp/StompProtocol.java:134-136 | the loop over the leaver's topics, in any order of the table, removes one entry for each id done, and throws exactly if a list is missing |
| StompProtocol.StompProtocol.BuildMessage | server/src/main/java/bgu/spl/net/impl/stomp/StompProtocol.java:110-130 | SEND on the objects numbers, renders and relays as the machine says |
| StompProtocol.StompProtocol.Finish | server/src/main/java/bgu/spl/net/impl/stomp/StompProtocol.java:74-79 | the reply goes out and a DISCONNECT that got one ends the connection, an ERROR reply included |
| StompProtocol.RenderedTable | server/src/main/java/bgu/spl/net/impl/stomp/StompProtocol.java:82-108 | the printed table of a reply is the printed frame |
| StompProtocol.NeverLosesWay | server/src/main/java/bgu/spl/net/impl/stomp/StompProtocol.java:134-136 | while the indexes agree the clean-up of a DISCONNECT meets no missing list |
| OrderedMap.PutMeans | client/src/Game.cpp:43 | assigning to a key keeps the map in key order and changes that key only |
| OrderedMap.PutAllMeans | client/src/Game.cpp:32-45 | putting entries one after another merges them over the old ones |
| OrderedMap.OneListing | client/src/Game.cpp:81-83 | maps with the same contents are listed alike |
| KeyOrder.KeysAsBytes | client/src/Game.cpp:81-91 | key order is the order of the UTF-8 bytes of the keys, first difference first, as std::string compares them |
| Game.Game.Update | client/src/Game.cpp:14-76 | throws exactly without the second team's marker, with only the report recorded; else the three line loops put the lines of the three sections |
| Game.ReadSection | client/src/Game.cpp:32-45 | the line loop puts key and value of every trimmed line |
| Game.Game.GetSummary | client/src/Game.cpp:78-97 | the loops print the summary text, of which `SummaryReading` shows what a reader finds in it |
| Game.SummaryIsNoAnswer | client/src/User.cpp:81-93 | a summary is never one of the two words that mean "not found" |
| Game.ColonlessLine | client/src/Game.cpp:43 | a line without a colon is put as both its key and its value |
| SummaryReading.SummaryReadsExactly | client/src/Game.cpp:78-97 | the title has the two names; the lines under the general header and under each team's own header read back to exactly that map if and only if no statistic looks like the header that ends its section; and then the reports follow in order of arrival |
| SummaryReading.WithoutColonsApart | client/src/Game.cpp:84-91 | which no statistic does if the names have no colon |
| SummaryReading.NamesOfGame | client/src/User.cpp:57-58 | the two names are what is before and after the first underscore of the game |
| SummaryReading.AnswersExactly | client/src/User.cpp:81-93 | after any MESSAGEs, "gamename" is answered if and only if none was about the game, and "username" if and only if some were and none of them from that reporter |
| Text.TrimMeans | client/src/User.cpp:54-55 | trimming takes off white space at both ends, and all of it |
| ClientStore.RecordIsLocal | client/src/User.cpp:52-79 | a MESSAGE changes what is known of its own game and reporter only, and that as the update says |
| ClientStore.AliveExactly | client/src/Game.cpp:29 | the client outlives a sequence of MESSAGEs exactly if each has the second team's marker |
| ClientStore.StoreIsLogs | client/src/User.cpp:52-79 | what is known of a game and reporter is the fold of that pair's MESSAGEs in arrival order, whatever else arrived between |
| ClientStore.ReplayKeepsDistinct | client/src/User.cpp:64-78 | the reporters of a game stay pairwise distinct |
| ClientStore.KnownIsSound | client/src/Game.cpp:81-91 | whatever has arrived, every map of statistics is in key order, no key has a colon or a line break, and no value a line break |
| ClientStore.LatestWins | client/src/Game.cpp:43 | each statistic has its latest value |
| ClientUser.User.Update | client/src/User.cpp:52-79 | the heap of game objects does what the store does, with no object shared between two places, also where the update throws |
| ClientUser.User.GetSummary | client/src/User.cpp:81-93 | the answer is the summary of exactly that game and reporter, or which of the two is unknown |
| ClientUser.User.GetSubIdFromGameName | client/src/User.cpp:24-32 | the first place of the game in the vector, in decimal; empty if there is none |
| ClientUser.User.ReceiptGenerator | client/src/User.cpp:39-44 | command and action are recorded under the number returned |
| ClientUser.User.AddNewDest | client/src/User.cpp:46-50 | the game is recorded under the id returned |
| Reports.Report | client/src/StompProtocol.cpp:95-120 | one SEND for each event, in order, with the text PrintEvent gives |
| Reports.PrintEvent | client/src/StompProtocol.cpp:99-116 | the stream of pieces and loops is the report's text, line by line, with the decimal notation of the time |
| Reports.IntIsDecimal | client/src/StompProtocol.cpp:103 | what is printed of a number is its decimal notation, which stoi reads back, and no other text is |
| Reports.MarkersExactly | client/src/StompProtocol.cpp:227-241 | in the text of a relayed report each marker is found at its own line if and only if no value printed before it contains it; the description comes last and is never taken for one |
| Reports.ExtractsReport | client/src/StompProtocol.cpp:224-242 | then a client takes out of the relayed report exactly what was put in, its time as the decimal notation of the event's |
| Reports.SomeNoteIsTaken | client/src/StompProtocol.cpp:224-242 | whatever the values are, some note is taken out of a relayed report |
| ReportReading.TeamsExactly | client/src/Game.cpp:18-19 | the teams' markers are found at their own lines if and only if no entry before them contains them |
| ReportReading.SectionsComeApart | client/src/Game.cpp:18-30 | then the three sections come apart as they were put together |
| ReportReading.UpdateReads | client/src/Game.cpp:14-76 | then the line loops put the entries printed, without white space before keys and at the trimmed ends |
| ReportReading.SectionsReadBackExactly | client/src/Game.cpp:32-45 | a map printed and read is itself if and only if keys have no colon, line break or leading white space, values no line break, and the last value of a section that is trimmed no trailing white space |
| ReportReading.UpdateReadsBackExactly | client/src/Game.cpp:14-76 | a first report leaves exactly the event's three maps if and only if all three survive in that sense |
| ReportReading.WithoutColonsAllIsClear | client/src/StompProtocol.cpp:227-241 | a condition a caller can check: names and values without colons and keys of fewer than 11 characters are never misread, and then a report is readable exactly if it has no U+0000, its names are lines and its maps are plain |
| EventPipeline.ReportArrivesExactly | client/src/StompProtocol.cpp:99-117 | a printed report, in whatever chunks its bytes come, is handed to process as exactly the text printed if and only if nothing in it contains U+0000 |
| EventPipeline.RelayArrivesExactly | server/src/main/java/bgu/spl/net/impl/stomp/StompProtocol.java:115-122 | and the MESSAGE that relays it arrives as exactly the text sent under the same condition |
| EventPipeline.NulCutsReport | client/src/event.cpp:80-107 | U+0000 in a description: process is handed a report that ends there and then a text on which it throws |
| EventPipeline.ReportIsRelayed | server/src/main/java/bgu/spl/net/impl/stomp/StompProtocol.java:98-122 | a subscribed user's report without U+0000, its bytes cut anywhere, is handed to process as one frame, and reaches every connection once per subscription of its user, as one MESSAGE with the report's body |
| EventPipeline.ReportIsRead | client/src/User.cpp:52-79 | reading it, its bytes cut anywhere, merges the event's three maps over what was known of that game and reporter, adds one report with its time in decimal notation, its name and its description, and changes no other pair |
| EventPipeline.EndToEnd | client/src/StompProtocol.cpp:95-117 | from one client's event, as bytes in any chunks, through the server, as bytes in any chunks, to any subscriber's statistics, and to the answer it then gives: a summary whose sections read back, without a colon in the game, to the old statistics with the event's laid over them, each team's under its own header |
| EventPipeline.FromFileToSummary | client/src/StompProtocol.cpp:95-117 | the same for a client whose session has gone on in any way and a receiver that has had any MESSAGEs |
| EventPipeline.NameSpoilsTime | client/src/StompProtocol.cpp:234-235 | an event named with the time's marker is taken out with the rest of its name as its time, which is then wrong |
| ClientFrames.SubscribeMeans | client/src/StompProtocol.cpp:77 | the server reads the printed SUBSCRIBE as meant and its validator accepts it |
| ClientFrames.UnsubscribeMeans | client/src/StompProtocol.cpp:87-88 | likewise UNSUBSCRIBE |
| ClientFrames.DisconnectMeans | client/src/StompProtocol.cpp:124 | likewise DISCONNECT |
| ClientFrames.JoinArrivesExactly | client/src/StompProtocol.cpp:77-79 | a join's frame reaches process as it was sent if and only if its game has no U+0000 |
| ClientFrames.ReceiptReadBack | client/src/StompProtocol.cpp:200-202 | a receipt number printed, echoed and parsed is the same number |
| Session.LoginBegins | server/src/main/java/bgu/spl/net/impl/stomp/StompProtocol.java:175-206 | an accepted login on a fresh connection begins a session with no subscription left over, also for a user who was there before |
| Session.OthersLeaveUsAlone | server/src/main/java/bgu/spl/net/impl/stomp/StompProtocol.java:24-80 | what other connections do changes nothing for a logged-in one and never sends it a RECEIPT |
| Session.StepKeepsOk | client/src/StompProtocol.cpp:73-92 | every step of client, channels and server keeps ids, receipts and queues in agreement |
| Session.ReceiptNamesItsRequest | client/src/StompProtocol.cpp:198-222 | in every session each RECEIPT tells the client the command and the game of the request whose handling sent it |
| Session.RequestsArrive | client/src/ConnectionHandler.cpp:101-105 | in every session the bytes on their way to the server are, in any chunks, exactly the frames the client has sent |
| Session.JoinIsAccepted | server/src/main/java/bgu/spl/net/srv/User.java:36-40 | the next SUBSCRIBE always carries a new id and its own game, and the branch for an id in use is never taken; its frame is the next process gets, in whatever chunks the client's bytes come |
| Session.IdsAreDistinct | client/src/User.cpp:46-50 | the id of a join on its way is shared neither with another on its way nor with a subscription in force |
| Session.ExitMeansFirstJoin | client/src/User.cpp:24-32 | an exit carries the first place of the game it was asked for, is granted exactly if that subscription is still in force, and takes away that one only |
| Session.SecondExitIsRefused | client/src/User.cpp:24-32 | join, exit, join, exit from the start of any session: three receipts and an ERROR, and the second subscription stays |
| ClientProtocol.StompProtocol.Join | client/src/StompProtocol.cpp:73-81 | one place more in each vector and the frame that carries both |
| ClientProtocol.StompProtocol.Exit | client/src/StompProtocol.cpp:82-94 | the first id of the game, or nothing at all for a game never joined |
| ClientProtocol.StompProtocol.OnMessage | client/src/StompProtocol.cpp:224-242 | throws exactly for a missing marker or an update that throws; else records the note taken out |
| ClientProtocol.KindIsRead | client/src/StompProtocol.cpp:190-191 | what a client takes an ERROR to be about is the kind the server gave it, unless its receipt contains "message:" |
| ClientProtocol.StompProtocol.StompToAction | client/src/StompProtocol.cpp:176-246 | of every frame the server can send: CONNECTED connects; an ERROR about the login and the RECEIPT of a logout close the channel and start the session over, any other ERROR or RECEIPT changes nothing; a MESSAGE records the note taken out, or throws exactly if there is none or the update throws |

## Left out

- Sockets, channels, selectors and threads as real objects, the accept loop and the server's main: channels are byte sequences, the selector is its phases, interest, tasks and wake-up.
- I/O exceptions on the write side, including the loop that writes again after a failed write and the closing of its channel. A channel is closed where a read finds its end or fails.
- Executor shutdown, interruption of the selector thread, and collection of actors by the weak table.
- The release of a buffer and the return of its task to the pool are one step of `ReactorRead`: no other thread can tell them apart.
- Frames of different connections handled at the same time: the broker handles one frame at a time, so the unsynchronised creation of a topic's list and its unsynchronised entries are not modelled.
- The order of Hashtable iteration: the id found for a destination is any that maps to it, the parameter `pick` of the broker.
- Session.ReceiptNamesItsRequest: covers a session from CONNECTED up to its logout command; commands given between logout and its receipt are not modelled.
- Session.StepKeepsOk: a join or a report with U+0000 in it, whose frame is cut on the wire, is not a step of a session.
- ClientProtocol.StompProtocol.StompToAction: a receipt number that was never given out counts as an exception; the code reads its vectors out of bounds there, which C++ leaves undefined.
- The user's host, logging, timestamps and the text printed to consoles.
- Malformed UTF-8: every byte that starts no character decodes to one replacement character; how many replacements Java emits for one broken sequence is not claimed. The platform's default charset is taken to be UTF-8.
- Overflow of the message counter, of buffer lengths and of text positions stored in int: integers are unbounded.
- The client's parsing of `login` and `summary` commands, the summary file, connecting and closing its socket, and the flag that stops its listener.
- JSON parsing of event files: an event is a record of maps in key order.
- Interfaces and getters, which have no behaviour of their own.

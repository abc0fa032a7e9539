# A verified model of a JSON-RPC stack

This project models the parts of the JSON-RPC library that keep state or cut bytes: the duplex
client, the in-process server connection, the request dispatcher, the codec of the streaming
transports, the pub/sub sessions, the HTTP request machine, two stream combinators, the liveness
slab of WebSocket sessions, two passes of the derive macro, and the Host/Origin/header-list
parsers. Everything is proved for all inputs, all runs or all poll schedules.
`dafny verify dfyconfig.toml` checks the whole project.

How things are modelled:

- What a poll asks from outside (channels, streams, sinks, bodies, the RPC handler's futures) is an
  oracle: a script of answers given to the poll. A run is a sequence of such answers, so a statement
  about all runs covers every schedule and interleaving.
- Objects that the source updates in place are classes. Each method is proved equal to a step
  function on values, and the properties are proved about all runs of those functions. Logs kept
  beside the state (what was accepted, answered, written, ended) are ghost in the classes.
- What a run must do is told a second time from its events alone, without the queues and maps of
  the machine (`DuplexMeaning.Told`, `DuplexPolls.Script`, `Subscribing.AnswerOf`, `Rendezvous.Collected`,
  `Session.LastOn`, `Liveness.SlotOf`, `HttpProofs.Expected`), and the machine is proved to do that.
  Requests, error codes and responses in these accounts are written out as the standard has them.
- A user's RPC method is an arbitrary function of its parameters and of the occasion on which it is
  called, so it may answer differently each time. JSON printing and parsing outside the codec is
  taken to be an inverse pair; only the codec works on bytes.
- Integer widths matter in three places and are written out: the request counter (64 bits, wrapping
  as in a release build), the nesting counter of the codec (32 bits signed, wrapping), and the
  overflow test of the HTTP body length.

Where a promise does not hold in general, the code is kept as it is, a lemma gives an input that
breaks the promise, and another says exactly when it holds:

- `CodecProofs.MessageEnd`: section 2 of RFC 8259 allows any whitespace before a JSON text, but the
  scanner cuts a message off at its end if and only if fewer whitespace bytes stand before it than
  it has other bytes (`CodecProofs.GapCanHoldAMessageBack`: two newlines and `{}`).
  `CodecProofs.StreamIsDecoded` says the same of whole streams.
- `ChunkProofs.ChunkIndependence`: in either mode chunking does not matter if and only if no frame
  that is not UTF-8 has a complete frame behind it (`ChunkProofs.BadLineHidesTheNext`).
- `DuplexProofs.ReuseIff`: a pending request is overwritten if and only if it still waits when the
  counter comes to its id again. While at most 2^64 ids are drawn that cannot be
  (`DuplexProofs.RunsAreSafe`); one more id and it can (`DuplexProofs.OneMoreIdIsReused`).
- `Session.OwnHandlerIff`: every subscription is ended by the handler it was registered with if and
  only if no two method pairs with different handlers share a notification name
  (`Session.ForeignHandler`).
- `PeerQueue.RunsAreSound`: the stream's end is true if and only if the upstream is never pending
  once the end has been told (`PeerQueue.UnfusedUpstream`).
- `Hosts.HostRoundTripIff`, `Hosts.OriginRoundTripIff` and `HeaderList.ListRoundTripIff`: which
  values come back from their printed form (`Hosts.PortInTheName` for one family that does not).

One difference between code and standard: a batch without calls is a request that section 6 of the
JSON-RPC 2.0 specification answers with an error; the code, and the model, give no response.

## Model

| member | source | states |
|---|---|---|
| StreamCodec.Codec.DecodeFrom | server-utils/src/stream_codec.rs:51-104 | the method leaves the report and the buffer that `Decode` gives, in both separator modes |
| StreamCodec.Codec.ScanFrom | server-utils/src/stream_codec.rs:65-103 | the loop over the five counters finds exactly the end `FirstFrame` defines, takes that frame off, and drops it silently when it is not UTF-8 |
| StreamCodec.Codec.EncodeTo | server-utils/src/stream_codec.rs:110-117 | the buffer grows by the message and, in byte mode, the separator |
| StreamCodec.Position | server-utils/src/stream_codec.rs:53 | the index found is the first occurrence, and none is found only when there is none |
| CodecProofs.PassValue | server-utils/src/stream_codec.rs:71-91 | any legal JSON value nested in a message, whatever strings, escapes and brackets it holds, is passed over and leaves depth and string state as they were |
| CodecProofs.MessageEnd | server-utils/src/stream_codec.rs:92-100 | for every legal object or array nested less than 2^32 deep, and whatever follows it, the scanner ends the frame at the message's end if and only if the whitespace before it is shorter than the message without its whitespace; past 2^31 levels the wrapping depth is still right |
| CodecProofs.GapCanHoldAMessageBack | server-utils/src/stream_codec.rs:92 | two newlines keep `{}` back in the buffer |
| CodecProofs.StreamIsDecoded | server-utils/src/stream_codec.rs:65-103 | for any sequence of such messages with any whitespace between them, repeated `decode` returns each with its gap, in order, and nothing from trailing whitespace, if and only if every message is UTF-8 and its gap short enough |
| CodecProofs.LineRoundTrip | server-utils/src/stream_codec.rs:51-117 | messages free of the separator byte survive encoding and decoding in byte mode, and an unfinished line stays in the buffer |
| CodecProofs.IpcRoundTrip | ipc/src/server.rs:96-97 | objects and arrays written with newlines and read by scanning come back in order, equal up to one leading newline |
| CodecProofs.BareRoundTrip | server-utils/src/stream_codec.rs:65-117 | objects and arrays written one behind the other without any separator come back as they are |
| ChunkProofs.ChunkIndependence | server-utils/src/stream_codec.rs:51-104 | in either mode, every split of a byte stream into chunks, drained after each, gives the messages and leftover of the whole if and only if no frame that is not UTF-8 has a complete frame behind it |
| ChunkProofs.BadLineHidesTheNext | server-utils/src/stream_codec.rs:52-64 | a bad line followed by an empty one: cut between them the empty line is read, uncut it is not |
| ChunkProofs.LineChunksNeverMatter | server-utils/src/stream_codec.rs:52-64 | in byte mode a reader that goes on after errors gets the same reports, errors included, and the same leftover for every stream and every split |
| ChunkProofs.DrainShrinks | server-utils/src/stream_codec.rs:93 | each frame taken strictly shrinks the buffer |
| ChunkProofs.DecodeFinds | server-utils/src/stream_codec.rs:51-104 | in either mode a frame is taken off as soon as one is complete; one that is not UTF-8 is an error in byte mode and dropped silently in scanning mode |
| Utf8.ValidIff | server-utils/src/stream_codec.rs:57-60 | the UTF-8 test accepts exactly the encodings of sequences of Unicode scalar values |
| Utf8.ValidUpToIsMost | http/src/handler.rs:256-259 | the offset reported for a body that is not UTF-8 is the length of its longest well-formed beginning |
| ClientMessages.SubscriptionIdValue | pubsub/src/types.rs:65-72 | parsing the value of a subscription id gives the id back |
| ClientMessages.SinkIsReadBack | pubsub/src/typed.rs:99-114 | what the typed sink encodes for any value or error, the client parses back to that item under the same id and name |
| ClientMessages.SubscriptionIdReadIff | pubsub/src/types.rs:50-72 | a value is read as a subscription id if and only if it is that id's value |
| ClientMessages.ReplyIsRead | core-client/transports/src/transports/mod.rs:81-142 | an output is read as its own result or error under its own id |
| ClientMessages.NoticeIsRead | core-client/transports/src/transports/mod.rs:125-164 | a notification is read under no id, with its name, and under the id in its `subscription` member if and only if that is one; what it says is its `result`, else its `error` (-32700 if that is none), else all its params |
| DuplexPolls.PollsGive | core-client/transports/src/transports/duplex.rs:101-313 | every sequence of polls is a run of the small steps whose messages and texts are those the polls were given, all of them, in order |
| DuplexPolls.PollsMean | core-client/transports/src/transports/duplex.rs:101-313 | after any sequence of polls that leaves the future pending, every text given was parsed, received and processed, in order, and every message given was taken while the channel was open |
| DuplexPolls.PollIsThorough | core-client/transports/src/transports/duplex.rs:101-313 | a poll is the run of a script written out from what it was given: all messages and the channel's end, all texts and the stream's end, entries, sink answers, the final test, in that order; if it stays pending it has processed every entry, and either used every answer of the sink or written every request and asked the sink once more |
| DuplexMeaning.RunMeans | core-client/transports/src/transports/duplex.rs:101-313 | for every run, an account kept from the events alone (entries received in order, the request each message becomes, who waits under which id, who is subscribed under which key) agrees with the machine: the entries not yet processed are its queue, and the messages taken, requests queued, answers given and items offered are the account's, in order |
| DuplexMeaning.SubscribersAreServed | core-client/transports/src/transports/duplex.rs:202-266 | over every run a subscriber's channel is sent what the account owes it: the notifications received for its id and name between the reply that granted them and removal or overwrite, and the refusals of its own requests, in order of arrival |
| DuplexMeaning.CompletionMeansAllDone | core-client/transports/src/transports/duplex.rs:293-312 | a future that completes has closed its channel, processed every entry it received and written every request the account holds, and owes no reply and serves no subscriber |
| DuplexTransport.Transport.SingleRequest | core-client/transports/src/transports/mod.rs:32-51 | the request carries the id drawn and the counter moves on by one, wrapping |
| DuplexTransport.Transport.TakeMessage | core-client/transports/src/transports/duplex.rs:120-155 | files the pending request under its id and queues the request, as the `Accept` step does; `DuplexMeaning.RunMeans` says which request that is |
| DuplexTransport.Transport.HandleClient | core-client/transports/src/transports/duplex.rs:104-156 | the loop takes messages until the channel is pending or ended, and not after it ended |
| DuplexTransport.Transport.HandleText | core-client/transports/src/transports/duplex.rs:175-183 | a parsed text goes to the end of the queue, one that does not parse ends the future with its error; `DuplexMeaning.RunMeans` says the order of processing is that of arrival |
| DuplexTransport.Transport.HandleStream | core-client/transports/src/transports/duplex.rs:161-184 | the loop stops at the first error and at the end of the stream |
| DuplexTransport.Transport.HandleEntry | core-client/transports/src/transports/duplex.rs:189-245 | one entry answers its call, establishes or rejects its subscription, or goes to a subscriber |
| DuplexTransport.Transport.Offer | core-client/transports/src/transports/duplex.rs:247-266 | a notification is offered to its subscriber; when that is gone the subscription is removed and one unsubscribe request queued |
| DuplexTransport.Transport.HandleIncoming | core-client/transports/src/transports/duplex.rs:188-270 | the loop processes every queued entry in order, stopping at an error |
| DuplexTransport.Transport.SendNext | core-client/transports/src/transports/duplex.rs:282-288 | the oldest request leaves the queue and reaches the sink unless the sink refuses it |
| DuplexTransport.Transport.HandleOutgoing | core-client/transports/src/transports/duplex.rs:275-291 | the loop writes while the sink is ready and requests are left |
| DuplexTransport.Transport.FinalTest | core-client/transports/src/transports/duplex.rs:293-312 | completes only when the channel is closed, both queues and both maps are empty and the sink has flushed |
| DuplexTransport.Transport.PollOnce | core-client/transports/src/transports/duplex.rs:101-313 | one poll is the five phases in order |
| DuplexProofs.Reachable | core-client/transports/src/transports/duplex.rs:101-313 | every reachable state keeps the six invariants: filed and built right, FIFO, numbered, calls accounted, subscribe requests settled, closed |
| DuplexProofs.RunsAreSafe | core-client/transports/src/transports/duplex.rs:120-153 | in every run both `expect`s hold, each subscription is filed under its own id and notification, and with at most 2^64 ids drawn no pending request is overwritten |
| DuplexProofs.ReuseIff | core-client/transports/src/transports/duplex.rs:124-149 | in every run of any length the counter is the number of ids drawn modulo 2^64, and no pending request is overwritten if and only if none still waits when the counter comes to its id again |
| DuplexProofs.OneMoreIdIsReused | core-client/transports/src/transports/mod.rs:32-36 | with 2^64 + 1 unanswered calls an id is reused: the bound is tight |
| DuplexProofs.NoticeLeavesPending | core-client/transports/src/transports/duplex.rs:193-257 | after any run, processing a notification leaves the pending requests as they are |
| DuplexProofs.CallsAreConserved | core-client/transports/src/transports/duplex.rs:104-156 | in every run accepted calls are the answered, the pending and those whose caller was gone, counted per caller; a caller gone means the future failed |
| DuplexProofs.RequestsAreConserved | core-client/transports/src/transports/duplex.rs:275-291 | in every run that has not failed, requests built are requests written followed by the queue, in order; a call or subscribe message became a version 2.0 call of its own method with its own params under the number of ids drawn before it modulo 2^64, a notify message a notification, and a removal a call of its own unsubscribe method with one param that reads back to its own id |
| DuplexProofs.CompletionIsClean | core-client/transports/src/transports/duplex.rs:299-312 | completion implies every accepted call was answered, every subscribe request granted or refused, and every request written |
| DuplexProofs.SubscribesAreConserved | core-client/transports/src/transports/duplex.rs:202-231 | in every run the subscribe requests taken for a channel are those granted, those refused and those pending |
| LocalRpc.Connection.PollBuffered | core-client/transports/src/transports/local.rs:73-83 | pending only while the handler's future is; otherwise the slot is emptied and its response, if any, queued |
| LocalRpc.Connection.SendResponse | core-client/transports/src/transports/local.rs:85-90 | a response in the slot goes to the end of the queue and the slot is emptied |
| LocalRpc.Connection.Send | core-client/transports/src/transports/local.rs:108-112 | the request is given to the handler and its future put in the slot |
| LocalRpc.Connection.PollNext | core-client/transports/src/transports/local.rs:62-64 | responses come out in the order they were queued |
| EndToEnd.ClientRuns | core-client/transports/src/transports/duplex.rs:101-313 | the client's side of every run of the connected system is a run of the duplex transport |
| EndToEnd.AnswersAreDeserved | core/src/io.rs:263-291 | in every run of client and server, each result sent to a caller is what the method its call named, looked up through one alias at most, returns for that call's params when it is run for the k-th request, k being the place of this very request among those sent (method not found if there is none, the version error if the handler accepts only 1.0), and a caller gets no more results than it made calls |
| InOrder.RepliesComeInOrder | core-client/transports/src/transports/local.rs:62-112 | in every run of client and server, the replies the client has read followed by those waiting in the connection are the replies owed to the requests it sent, one for each call, in the order of the requests, the request in the slot excepted |
| Connected.PollConnected | core-client/transports/src/transports/duplex.rs:101-313 | one poll of the duplex object with the in-process connection as stream and sink leaves both as the phase functions of `Polled` say |
| Connected.PolledIsMoves | core-client/transports/src/transports/duplex.rs:101-313 | every such poll is a run of the connected system |
| Connected.PolledIsThorough | core-client/transports/src/transports/duplex.rs:101-313 | such a poll, too, is a script written out from what it was given; it takes every message while the channel is open, and if it stays pending it has read and processed every response of the connection, asked the sink until it had no more requests or the handler was not done, and emptied the slot if the handler was done at the flush |
| Connected.Drive | core-client/transports/src/transports/local.rs:54-125 | two fresh objects polled any number of times with any answers from outside end as `PolledAll` says, and what callers received is what the handler owes to the very requests their calls became, at most one per call |
| NoOrphans.NoRequestIsLost | core-client/transports/src/transports/local.rs:73-112 | while the system runs every pending request is on its way exactly once, as a request or as its reply |
| NoOrphans.QuietMeansAnswered | core-client/transports/src/transports/local.rs:101-119 | when nothing is queued or in flight every accepted call has been answered |
| Dispatch.NotificationIsRun | core/src/io.rs:292-312 | a notification is never answered and runs, once and with its own params, the one notification handler its name or alias stands for, if its version is accepted |
| Dispatch.CallIsAnswered | core/src/io.rs:271-291 | for every handler a call is answered under its id and version, with what the method its name or alias stands for returns for its params, with -32601 if there is none, and with the -32600 version error exactly when a handler for 1.0 only is given a version or one for 2.0 only is given none |
| Dispatch.InvalidIsAnswered | core/src/io.rs:206-225 | an invalid call is answered with -32600 under its id and an unreadable text with -32700 under null, in the handler's version |
| Dispatch.BatchAnswers | core/src/io.rs:235-259 | the response to a batch is one output per call that is no notification, in order, under its id, each what the call alone would get; it is absent if and only if all calls are notifications |
| Dispatch.RequestEffects | core/src/io.rs:228-312 | single or in a batch, every notification runs its own handler once, in order, and nothing else runs |
| Dispatch.WithoutAliases | core/src/io.rs:275-283 | the alias-free table holds no alias and looks up to what one-level resolution gives |
| Dispatch.AliasesResolve | core/src/io.rs:263-318 | for every table and request, dispatch with aliases is dispatch on the alias-free table |
| Session.ClientSession.AddCallback | pubsub/src/subscription.rs:59-66 | the callback goes to the end of the list |
| Session.ClientSession.AddSubscription | pubsub/src/subscription.rs:69-81 | the subscription is active; one displaced under the same id and name is ended at once |
| Session.ClientSession.Unsubscribe | pubsub/src/subscription.rs:334-350 | for every id, params of exactly that id end (id, name) if it is active and are refused otherwise; params that are not a list of one text or unsigned number are refused; a refusal is -32602 and changes nothing |
| Session.ClientSession.Close | pubsub/src/subscription.rs:92-104 | the drop ends every active subscription in some order, then runs the callbacks in theirs |
| Session.TeardownIsExact | pubsub/src/subscription.rs:59-104 | over every run of registrations, collisions included, unsubscribe calls with any params and the drop, a registration has been ended exactly when it is no longer active, in the end as often as it was made; callbacks run only at the drop, once each, in the order they were added |
| Session.ActiveIsLast | pubsub/src/subscription.rs:69-90 | in every run the subscription active under a key is the one registered last that no unsubscribe call has named since |
| Session.CallbacksComeLast | pubsub/src/subscription.rs:92-104 | in every run the callbacks run after the last subscription has been ended |
| Session.HandlersAreToldTheirIds | pubsub/src/subscription.rs:77-97 | every unsubscribe handler is called after, and with the id of, the registration it ends |
| Session.OwnHandlerIff | pubsub/src/subscription.rs:234-350 | over all runs of a table's subscribe and unsubscribe methods and the drop, each subscription is ended by the handler it was registered with if and only if no two method pairs with different handlers share a notification name |
| Session.ForeignHandler | pubsub/src/subscription.rs:329-350 | for any id and name, two method pairs with different handlers under one notification name: the second's unsubscribe call ends the first's subscription |
| Unsubscribing.RemovedSubscriptionIsEnded | core-client/transports/src/transports/mod.rs:61-63 | in every run the request the client builds when it removes a subscription calls that subscription's unsubscribe method, and its params make the session of any server end exactly that id and name, or refuse if it is not active |
| Rendezvous.Endpoints.SendValue | pubsub/src/oneshot.rs:41-43 | sending succeeds exactly when the receiver exists |
| Rendezvous.Endpoints.SendThenWait | pubsub/src/oneshot.rs:52-60 | the value is sent, and waiting begins unless the receiver is gone |
| Rendezvous.Endpoints.PollReceiving | pubsub/src/oneshot.rs:93-99 | a ready value is returned once and its receipt sent |
| Rendezvous.Endpoints.DropReceiving | pubsub/src/oneshot.rs:85-88 | value and receipt are dropped together |
| Rendezvous.WaitTellsConsumption | pubsub/src/oneshot.rs:45-60 | under every interleaving of uses, told from the uses alone, `send_and_wait` is Ok if and only if the value sent was collected, fails if and only if the receiver went first, and is pending otherwise |
| Rendezvous.RunsTally | pubsub/src/oneshot.rs:41-100 | the channel's value, receipt and sender are what the first use of the sender and the polls and drop of the receiver make them |
| Rendezvous.WaitIsFinal | pubsub/src/oneshot.rs:52-60 | nothing that happens later changes a resolved wait |
| Subscribing.ResponseTellsDecision | pubsub/src/subscription.rs:284-320 | under every interleaving the response is what the handler's first act on the subscriber says (the id, its error, or -32091 for a dropped subscriber) as soon as it is polled for, and the session has registered that id under the notification's name, once, exactly when it is Ok |
| Subscribing.SinkMeansRegistered | pubsub/src/subscription.rs:205-215 | a handler that assigned an id in time and waits gets its sink if and only if the response is that id, and if and only if the session registered the subscription |
| HttpHandler.ReadyLowersRank | http/src/handler.rs:234-313 | each transition after which polling goes on at once strictly lowers the state's rank, so the recursive poll ends |
| HttpHandler.RequestHandler.AccumulateBody | http/src/handler.rs:478-522 | the loop over body chunks stops at the limit, at an error, at the end or when nothing is ready, with the bytes read so far |
| HttpHandler.RequestHandler.ProcessBodyOnce | http/src/handler.rs:468-523 | an empty body with REST enabled, a body that is not UTF-8 and a text are told apart as the source does |
| HttpHandler.RequestHandler.PollOnce | http/src/handler.rs:231-316 | the recursive poll leaves the state, the answer and the dispatches that `Poll` defines |
| HttpProofs.DispatchedAtMostOnce | http/src/handler.rs:338-523 | under every poll schedule at most one request is dispatched, none when a CORS check refused, and the buffer stays within the maximum |
| HttpProofs.BodyIsGathered | http/src/handler.rs:478-491 | for every chunking the result is too large if and only if the sum exceeds the maximum; otherwise it is the concatenation of all chunks so far, finished when the body ends, or an error when it breaks |
| HttpProofs.ScheduleDoesNotMatter | http/src/handler.rs:231-523 | for every head, chunking, failing body and poll schedule the machine has answered at most once, with the verdict decided from head and whole body at one blow, having dispatched exactly what the verdict says and telling the RPC handler's answer with its code (or, if the server was gone when it was to dispatch, with the closing notice, having dispatched nothing), and has answered once the body has ended and the RPC handler is done |
| HttpProofs.RestIsDispatched | http/src/handler.rs:434-466 | under every schedule a REST request to /name/p1/../pn dispatches one call of that method with those n params, in that order |
| SelectWithWeak.Selector.Next | ipc/src/select_with_weak.rs:62-90 | the loop ends and leaves the state and answer that `PollNext` defines |
| SelectWithWeak.CallIsHonest | ipc/src/select_with_weak.rs:62-90 | a call makes at most four inner polls and answers what the last one said; the end only when the strong stream ended, pending only when both were polled and neither had an item when last polled |
| SelectWithWeak.RunMerges | ipc/src/select_with_weak.rs:27-33 | over every run the output is an order-preserving merge of both streams without loss or repetition, and the streams take turns |
| SelectWithWeak.EndIsFinal | ipc/src/select_with_weak.rs:72 | once ended, always ended |
| SelectWithWeak.ReadyStreamsAlternate | ipc/src/select_with_weak.rs:66-88 | streams that always have an item are heard by turns, the weak one first |
| PeerQueue.MessageQueue.Send | tcp/src/dispatch.rs:57-67 | a message is queued exactly while the receiver exists |
| PeerQueue.MessageQueue.PollNext | tcp/src/dispatch.rs:91-118 | for any upstream answer: the upstream comes first, then the queue; soundness survives the poll exactly when the receiver exists or the upstream is not pending |
| PeerQueue.RunsKeep | tcp/src/dispatch.rs:91-118 | whatever the upstream does, accepted messages are delivered or waiting, in order, the receiver goes only with an empty queue after the upstream has ended, and messages are accepted exactly until the stream has told its end |
| PeerQueue.LogTells | tcp/src/dispatch.rs:57-118 | the log of a run tells every push and every upstream answer of the run, in order |
| PeerQueue.RunsAreSound | tcp/src/dispatch.rs:83-118 | the stream ends only at polls where the upstream is closed and no message waits, if and only if the upstream is never pending once the stream has told its end |
| PeerQueue.FusedRunsAreSound | tcp/src/dispatch.rs:83-86 | a fused upstream ensures it |
| PeerQueue.UnfusedUpstream | tcp/src/dispatch.rs:102-106 | an upstream that wakes up again breaks this |
| ParamsCode.GeneratedCodeIsCorrect | derive/src/to_delegate.rs:236-388 | for every list of parameter types and params the generated code passes raw params on unchanged; otherwise it accepts exactly the lists that reach at least to the first of the trailing optional parameters and whose values fit their types, no params counting as none, passes each value in its place and `None` for what is left out, and answers all else with -32602 |
| ParamsCode.MissingIsNull | derive/src/to_delegate.rs:334-388 | leaving trailing arguments out is the same as passing nulls for them |
| Registrations.SameSubscriber | derive/src/rpc_trait.rs:139-153 | the loop accepts exactly the methods whose subscriber types, where there are any, are all equal |
| Registrations.CollectPairs | derive/src/rpc_trait.rs:80-127 | the pairs hold every pubsub method by subscription in order, the registrations every plain method in order; a complaint is about a second unsubscribe |
| Registrations.RegisterSubscription | derive/src/rpc_trait.rs:129-168 | a subscription is registered if and only if it has one unsubscribe, some subscribe and equal subscriber types |
| Registrations.ComputeRegistrations | derive/src/rpc_trait.rs:62-170 | succeeds if and only if every subscription is complete; then the registrations partition the methods, each repeating its annotation, the plain ones in order; complaints are justified |
| Hosts.HostRoundTripIff | server-utils/src/hosts.rs:50-104 | a host comes back from its printed form if and only if its parts hold no separator and are lower case and a port pattern is no number |
| Hosts.ParsePrintParseHost | server-utils/src/hosts.rs:67-104 | parsing what a parsed host prints gives the same host, for every string |
| Hosts.PortInTheName | server-utils/src/hosts.rs:52-64 | a host made from a name with a colon in it does not come back |
| Hosts.AddressIsRead | server-utils/src/hosts.rs:67-104 | an address with any protocol, name, port and path is read as that name in lower case and that port, without the path |
| Hosts.AddressIsNamed | server-utils/src/hosts.rs:52-64 | a new host whose name is an address has that address's name in lower case |
| Hosts.PortReadIff | server-utils/src/hosts.rs:72-78 | a text is a port if and only if it is its decimal digits, behind leading zeros and a plus sign or not |
| Hosts.CaseDoesNotMatter | server-utils/src/hosts.rs:83-94 | texts that differ only in case are the same host and the same origin |
| Hosts.OriginRoundTripIff | server-utils/src/cors.rs:35-88 | an origin comes back from its printed form if and only if its host does and its protocol is lower case, free of the separator and not a known one spelled out |
| Hosts.OriginIsRead | server-utils/src/cors.rs:54-88 | an origin with any protocol, name, port and path is read as that protocol and host in lower case, without the path |
| Hosts.ProtocolDefaults | server-utils/src/cors.rs:54-75 | a text without a protocol is the origin that it is with "http" before it |
| Hosts.ParsePrintParseOrigin | server-utils/src/cors.rs:54-88 | parsing what a parsed origin prints gives the same origin, for every string |
| HeaderList.ListRoundTripIff | http/src/handler.rs:534-544 | joining a list of header names and splitting it as requests are split is the identity if and only if the list is not empty and no name holds a comma |
| Liveness.Session.CreatePoll | ws/src/session.rs:103-125 | a new task occupies a vacant slot with its sender |
| Liveness.Session.DropPoll | ws/src/session.rs:143-148 | a finishing task's slot is occupied and is freed |
| Liveness.Session.Drop | ws/src/session.rs:164-178 | the sweep takes and signals every sender left in the slab |
| Liveness.RunsAreSound | ws/src/session.rs:102-178 | in every run no vacant slot is removed, and running tasks hold exactly the occupied slots, one each |
| Liveness.ResolvesIffClosed | ws/src/session.rs:128-141 | in every run a running task has a slot of its own, and its poll resolves if and only if the session was dropped |
| Liveness.SlotsAreOccupied | ws/src/session.rs:103-148 | in every run a slot is occupied if and only if a task that was created there still runs |

## Left out

- JSON text parsing, serde's choice between untagged variants, and how a wrong value is described in an error message; the model starts from parsed requests, outputs and values.
- The exact texts of invalid-params messages in the generated code; the model keeps their error code.
- Middleware, and changing the method table with `add_*` and `extend_with`: the dispatcher runs on an arbitrary fixed table.
- A subscribe or unsubscribe call without a session, which is refused at once.
- The headers of an HTTP response, its content type included, other than the joined list.
- CodecProofs.MessageEnd: speaks of messages nested less than 2^32 deep, because at 2^32 levels the 32-bit depth comes back to zero inside the message.
- Session.TeardownIsExact: says that an unsubscribe handler is called, not that the future it returns is polled, which a thread pool does.
- Subscribing.ResponseTellsDecision: the two ends of a subscribe call and the session they share are values here, so locks and aliasing are not captured.
- Hosts.HostRoundTripIff: lower case is modelled for ASCII letters only, so the model speaks of ASCII strings.
- Glob matching of hosts and origins, CORS header filtering, and the special arguments (metadata, subscriber) that the derive macro removes before it generates the parameter code.
- The address table of the TCP dispatcher: pushing to an unknown peer is an error without effect.
- Server builders, executors, socket binding, the suspendable stream, the subscription manager and the WebSocket client's buffer.
- Connected.Drive: joins the duplex transport to the connection directly; the sink half that `split` makes holds one request of its own before the connection gets it, which is not modelled.
- Liveness under a real scheduler: only what single polls do, and what holds once events have happened, is proved.
- Panics on overflow of the request counter in a debug build; the model wraps as a release build does.

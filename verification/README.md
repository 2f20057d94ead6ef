# A verified model of Warqueen

Warqueen lets a client and a server exchange messages over a QUIC connection without an async API.
Under that sits a small concurrent protocol of its own: a client that connects lazily and notices
it only when it is called, a buffer for what is sent before that, one task and one stream per
message, one result channel per send, one event queue per receiving side, and a barrier on which a
user and a task meet when a connection is taken down. This project models that protocol and proves
what every run of it keeps. Check it with `dafny verify dfyconfig.toml`.

## How the model is built

| file | what it is |
|---|---|
| `Sending.dfy` | errors and results of a send, and its one-shot result channel |
| `Outbox.dfy` | the sending half of a direction: buffer, send tasks by the operation they await, result channels |
| `Inbox.dfy` | the receiving half: accept loop, readers, event queue |
| `Channel.dfy` | one direction: both halves, the streams between them, and a connection that may end at any point |
| `Fates.dfy` | the abstract channel a user may think of: unordered, at most once, drops only for a cause |
| `Delivery.dfy` | what every run of one direction guarantees |
| `Progress.dfy` | what happens in a direction when nothing goes wrong |
| `Verdicts.dfy` | what it takes for a handle to say `Error`, and what `Error` and `Sent` say of a message |
| `Counterexamples.dfy` | runs in which a handle's answer and a message's fate differ |
| `Session.dfy` | a client, a server's side of the connection and both directions as one state machine |
| `Lifecycle.dfy` | what every run of a session guarantees |
| `Outcomes.dfy` | what a handle answers, told by what became of its call |
| `Answers.dfy` | why handles say `Error`, told by what users, server and network did |
| `Calls.dfy` | what the calls of both users and the handshake come to over a whole session |
| `Passage.dfy` | that messages can get through, from wherever a session stands |
| `Direction.dfy`, `Client.dfy`, `Server.dfy` | the objects and methods of the program, proved to make exactly the steps of the session |
| `Disconnection.dfy` | the disconnection handle and the barrier of one disconnection |
| `Rendezvous.dfy` | all barriers of a process, the workers of its runtime, and the endpoint they share |
| `Refinement.dfy` | that each handle of that process goes through the meeting of `Disconnection` |
| `PortSearch.dfy` | the search for a port |
| `Cloneless.dfy` | messages that borrow what they send, and their wire form |
| `EndToEnd.dfy` | delivery and wire form together |
| `Bags.dfy`, `Options.dfy` | sequences used as bags; a value that may be missing |

The containers stay apart as in the program: a message moves from the buffer to a task, to a
stream, to a reader, to the queue, to the user. That it is always in exactly one of them is proved,
not built in. Fields called histories (`spawned`, `answers`, `enqueued`, `drained`, `abandoned`,
`tally`, `losses`, `polled`, `barriers`, `born`) record what happened and decide nothing. Two more
records do decide something: the length of `sent` numbers the calls, in place of the identity of a
result channel, and `finished` says which streams can be read to their end. The `receiver` of a
direction is which bodies decode to its message type and how long they may be. A client that goes
away without `disconnect` is a step of its own, after which its phase is `Dropped`.
Steps of users, tasks and network interleave in any order; a theorem about a reachable state is
about every such run.

Assumed of what is underneath:

- An awaited operation reports `LocallyClosed` only after this side closed the connection,
  `ApplicationClosed` only after the other side did, and any other connection error only after the
  connection died. It may die at any time.
- Opening and writing do not succeed once this side closed. A stream can be read to its end only if
  it was written and finished. A panicking task drops what it owns. Every await on a connection
  that this side closed can return.
- A write is stopped by the other side only once the stream has no reader and is not waiting for
  one. Errors of closed streams and of 0-RTT do not occur: no stream is used after it was finished,
  and 0-RTT is not used. A send task may panic, while serializing or while finishing its stream.
- A reader panics over its data only if there is too much of it, which can show while it is still
  being written, or if it came to the end of the stream and the data does not decode. That end is
  where the message ends, or earlier if the task dropped the stream before it was written to its
  end; `CutShortIsUnreadable` shows that the data of such a stream does not decode.
- Opening a stream is not held up by a limit on how many may be open.
- A blocked task keeps a worker of the runtime; a runtime has as many workers as it has threads, by
  default one (`src/async_runtime.rs:5-25`). An endpoint is idle when all its connections are gone;
  the tasks that this wakes may reach their barriers in any order. All that can get stuck rests on
  the latter.
- Binding port 0 gives some port that can be bound, if it gives any.
- The codec is self-delimiting, writes unit and `None` as the same nil, and writes `Some` without a
  tag, as MessagePack does. `TaggedSomeLosesEveryCloneless` shows that the last is needed.

## What came out

Where the code differs from what its documentation or its shape suggest, the model follows the code:

- `disconnect` is documented to close the connection (`src/client.rs:517`). It does so exactly if an
  earlier call had noticed the connection; otherwise the connection is dropped unclosed, and the
  server is not told (`DisconnectClosesIffCollected`, `UncollectedDisconnectIsNotTold`).
- A message not sent when the connection is closed is documented not to be received
  (`src/client.rs:394-396`). It can still arrive exactly if it was written to its end, can be read
  and is on the receiver's side, even after its handle said `WeClosed` (`WhatStillArrives`,
  `WeClosedMayStillArrive`, `WeClosedYetDelivered`).
- `Sent` does not mean received (`SentIsNotReceived`, `SentYetDropped`). On a channel without faults
  a message whose handle says `Sent` is dropped exactly if the receiver cannot read it
  (`SentIsDroppedIffUnreadable`); with faults, it can still arrive exactly under the condition above
  (`WhatSentLetsThrough`).
- `FailedToConnect` is told only for a timeout. After any other error the client looks as if it were
  still connecting, forever (`FailureIsToldIffTimedOut`).
- After `disconnect` nothing is polled, except a `FailedToConnect` that was noticed and not told yet
  (`DisconnectSilencesIff`).
- `Error` of a client's handle has five causes and no others: a panic of the send task, a timeout
  noticed while the call was buffered, a client dropped while the call was buffered
  (`src/client.rs:87-104`, `src/sending.rs:25`), a stopped stream, and three ways for a connection to
  break (`ClientErrorHasItsReason`); a server's handle, which is never buffered, has three
  (`ServerErrorHasItsReason`). Without faults of the channel only two are left, a panic of the call's
  own task and a message that is too long (`FaultlessErrorIsOwnMaking`).
- Dropping a client does not close its connection: the accept loop keeps it open, and the server is
  told only if it dies (`DropClosesNothing`).
- A client whose connecting task panicked leaves every handle still being sent for as long as the
  client is neither disconnected nor dropped (`BrokenClientKeepsWaiting`).
- Reset connections are `PeerClosedOrDied` to a sender and a panic to a receiver
  (`ReceiverAndSenderAgree`).
- A program that closes everything before it waits can block forever exactly if at some wait more
  barriers are outstanding than there are workers (`PeakIsTheThreshold`); for disconnecting all
  clients and then waiting for all, exactly if there are more clients than workers
  (`DisconnectAllThenWaitAllIff`). Disconnecting and waiting one by one, as
  `examples/example_server.rs:99-106` does, gets past its first wait without the help of the other
  clients only if there is at most one client (`OneByOneCompletesIff`); over clients that have all
  gone it always completes (`OneByOneOverGoneCompletes`).
- A message comes back from the wire as its owned self exactly if it holds no `Some` of something
  written as nil (`RoundTripIffNotBlurred`), and all messages of a type do exactly if it has no
  option of a nullable type (`RoundTripIffUnambiguous`).

## Model

| member | source | states |
|---|---|---|
| Outboxes.SendMessage | src/sending.rs:116-129 | The send function returns the error of the first of its awaits that fails, that very error, and its result is that of the connection error inside; it says success only if the stream was opened, written and finished and its end was acknowledged. |
| Outboxes.TaskTraceIsSendMessage | src/client.rs:327-336 | The send task cut into steps, run alone, leaves in its call's channel the result of the straight-line function, and changes nothing else. |
| Outboxes.RunKeepsInv | src/client.rs:327-349 | In every run calls are numbered, each unanswered channel has exactly one sender (buffered or in one task), spawned then buffered is the order of calls, answers agree with the channels. |
| Outboxes.RunSettles | src/sending.rs:22-28 | Over any run a result channel takes at most one value and is emptied at most once; a dropped sender can only turn into `Error`. |
| Outboxes.EveryHandleResolvesOnce | src/sending.rs:31-42 | Every handle answers still-being-sent any number of times and then at most one result, which is what its channel held, and nothing after it. |
| Outcomes.AskTellsTheOutcome | src/sending.rs:22-28 | In every run a call has at most one outcome: its refusal, what its task returned, `Error` if the task panicked, or what giving up the buffer meant for it; asking its handle answers still-being-sent and changes nothing before, and answers exactly that outcome, once, after. |
| Outboxes.AbandonSettlesAll | src/client.rs:520-524 | Giving up the buffer before anything was spawned settles every handle there is with the same outcome. |
| Outboxes.TaskRunsAreFinite | src/sending.rs:116-129 | However the send tasks are scheduled they make at most as many steps as they have operations left. |
| Outboxes.NoTaskNoWaiting | src/client.rs:222-236 | With an empty buffer and no task left, no handle is still waiting. |
| Inboxes.ReceiverAndSenderAgree | src/server.rs:237-265 | How one connection error is told to a receiver and to a sender, in both directions, with the one error they disagree on. |
| Inboxes.EveryInboxAgrees | src/client.rs:271-315 | For any interleaving, polled then queued is what was enqueued while the receiver lives; dropping it loses exactly the rest; every accepted stream has a reader that runs or ended in one of three ways; events never exceed streams plus one. |
| Inboxes.WhichEndsAreTold | src/client.rs:239-263 | Once the accept loop ended while the receiver lives, the disconnections enqueued are those of readers and exactly one more if the loop's error was `ApplicationClosed`, `ConnectionClosed` or `TimedOut`, with the timeout told as one, and none for any other error. |
| Inboxes.EnqueuedIsTold | src/client.rs:281-312 | What is enqueued over any run is exactly, in order, the message of every stream read whole and one disconnection for every accept or read that failed with one of three errors, the timeout told as one, until the receiver is dropped. |
| Inboxes.LoopEndsOnce | src/client.rs:305-312 | The accept loop ends with its first error, whatever it is, stays ended by it, and accepts nothing after. |
| Inboxes.NothingNewAfterTheLoopEnds | src/client.rs:305-312 | After the accept loop ended nothing is accepted and each running reader adds at most one event. |
| Inboxes.PollingDrains | src/server.rs:418-420 | Repeated polls hand over the queue in order. |
| Channels.StepAccounts | src/server.rs:276-317 | Every step leaves each message in exactly one place, polled, or lost for one cause. |
| Channels.StepRefines | src/client.rs:361-546 | Every step is, for every message, one step of the abstract at-most-once channel or none; a message becomes delivered exactly when the step hands it to the user. |
| Channels.RunKeepsInv | src/client.rs:265-359 | Conservation, queue agreement, excused results, events and losses hold after every run. |
| Delivery.SenderRuns | src/client.rs:327-349 | The sending side of every run of a channel is a run of an outbox, so that all the above holds of it. |
| Delivery.ReceiverRuns | src/client.rs:274-315 | The receiving side of every run of a channel is a run of an inbox. |
| Delivery.EveryMessageIsAccountedFor | src/client.rs:427-450 | In every reachable state a sent message is in exactly one of buffer, task, stream, reader, queue, polled, lost; no other message exists anywhere. |
| Delivery.PolledWasSentWhole | src/server.rs:276-303 | What is polled was sent by a call, was written to its end, can be read, and is polled once. |
| Delivery.NothingIsLostWithoutCause | src/client.rs:380-386 | A message is dropped only for a panic of its own task or reader or a fault the channel really has. |
| Delivery.LostToPanicIff | src/client.rs:285-300 | A message is lost to a panic if and only if its send task panicked before its stream was open, or its reader panicked, in that run. |
| Delivery.RunRefines | src/server.rs:267-420 | Every run is, for every message, a run of the abstract channel with the faults there were in the end. |
| Verdicts.HealthyChannelDelivers | src/server.rs:267-326 | On a channel without faults, once nothing is on its way, a message was delivered, once, if and only if it was sent, the receiver can read it, and its handle does not say `Error`. |
| Progress.ProgressIsBounded | src/sending.rs:116-129 | Without new calls, exactly as many successful operations and polls are left as the tasks, streams, readers and events on their way need, in any order. |
| Progress.FaultFreeRunsDeliver | src/client.rs:274-303 | Any run without faults that can make no more progress has delivered exactly the sent messages that the receiver can read, once each. |
| Delivery.BlameIsSound | src/sending.rs:79-106 | `WeClosed` only if this user quit, `PeerClosedOrDied` only if the other end closed or died or was never reached, `Sent` only for a stream written to its end. |
| Verdicts.ErrorHasItsReason | src/sending.rs:22-28 | In every run of a direction a call ends in `Error` if and only if its task panicked, it was buffered when the buffer was given up for a timeout or for the end of the client, its stream was stopped, or the connection broke in one of the three ways that are errors; never more than one of these happens to a call; until asked, its channel shows a dropped sender for the first three and a sent `Error` for the others. |
| Answers.ClientErrorHasItsReason | src/client.rs:87-104 | In every run of a session a client's call ends in `Error` if and only if its task panicked, it was buffered when a poll or a send found the timeout in the slot, it was buffered when the client was dropped, its stream was stopped, or the connection broke in one of three ways; never more than one of these happens to a call. |
| Answers.ServerErrorHasItsReason | src/sending.rs:22-28 | A server's call does if and only if its task panicked, its stream was stopped, or the connection broke in one of three ways. |
| Verdicts.FaultlessErrorIsOwnMaking | src/receiving.rs:3-8 | If the channel has no fault, `Error` comes only from a panic of the call's own task, or a stop of a stream whose message is too long for the receiver. |
| Verdicts.ShortMessageIsSentIffNoPanic | src/client.rs:281-288 | In a run without faults of the channel, a settled call whose message is not too long, decodable or not, ended in `Sent` if and only if its own send task did not panic. |
| Verdicts.ReadableArrivesIffNoSendPanic | src/client.rs:281-302 | In a run without faults of the channel, a readable message has been delivered, once nothing is on its way, if and only if its own send task did not panic. |
| Progress.FaultFreeRunsNeverError | src/sending.rs:22-28 | In a run without faults no handle is or ever was answered `Error`. |
| Delivery.NoDisconnectedWithoutTheOtherSide | src/client.rs:239-263 | A disconnection is told only if the other side closed or the connection died, a timeout only if it died. |
| Delivery.SentIsNotReceived | src/sending.rs:127 | While the task awaits the end and the reader runs over a message it cannot read, a run makes the handle say `Sent` and drops the message, without any channel fault. |
| Delivery.WhatStillArrives | src/client.rs:394-396 | Once this side closed, or the call is settled with any result, the message can still be polled if and only if it was written to its end and is polled, queued, or readable and still on the way to a reader. |
| Delivery.WhatSentLetsThrough | src/sending.rs:46-47 | In particular for `Sent`: the stream was written to its end, and that condition decides whether the message can still be polled. |
| Verdicts.SentIsDroppedIffUnreadable | src/client.rs:281-302 | On a channel without faults, once nothing is on its way, a message whose handle says `Sent` was dropped if and only if the receiver cannot read it, and delivered otherwise. |
| Delivery.WeClosedMayStillArrive | src/client.rs:394-396 | Such a message's handle can say `WeClosed` while the message still arrives. |
| Counterexamples.SentYetDropped | src/sending.rs:46-47 | For every receiver and every message it cannot read, a reachable state in which the handle says `Sent`, the message is dropped and the channel has no fault. |
| Counterexamples.WeClosedYetDelivered | src/sending.rs:48-49 | For every message that the receiver can read, a reachable state in which the handle says `WeClosed` and the user has polled it. |
| Delivery.ClosedTasksComeToRest | src/client.rs:528-540 | After a close the send tasks make finitely many steps, and when none can go on every handle has its answer. |
| Delivery.DeathEndsEverything | src/client.rs:289-312 | Once the connection died and nothing moves any more, the accept loop has ended, no reader, stream or send task is left, and with an empty buffer every handle has its answer. |
| Sessions.NoticedIs | src/client.rs:373-390 | Noticing a connection spawns the buffer, noticing a timeout drops it, and nothing else is noticed, nor twice. |
| Sessions.ClientSendsIs | src/client.rs:427-450 | A send is noticing, then one step chosen by the phase that results; it is always possible, and records the message it was given under the next number. |
| Sessions.ClientPollsIs | src/client.rs:502-515 | A poll is noticing, then handing over one event, of a told and connected client the head of the queue, message for message; it is always possible. |
| Sessions.ClientDisconnectsIs | src/client.rs:518-546 | What `disconnect` does in each phase, without noticing first; it is always possible. |
| Sessions.ClientDropsIs | src/client.rs:87-104 | What the end of the client object does in each phase: while connecting it drops the buffer's senders, the slot and the event receiver; while connected it drops the event receiver and closes nothing; it is always possible, once. |
| Sessions.StepKeepsInv | src/client.rs:361-547 | Every step of users, tasks and network keeps what the phase says about buffer, tasks, ends, receiver and polled events. |
| Sessions.RunKeepsInv | src/client.rs:361-547 | So does every run. |
| Lifecycle.DirectionsAreReachable | src/client.rs:361-547 | Both directions of a reachable session are reachable channels, so that all delivery guarantees hold of them. |
| Lifecycle.CallsAreAlwaysPossible | src/client.rs:361-547 | While the client exists, no run leads to a state in which a call of its user, or its end, is impossible. |
| Lifecycle.BufferingIsTransparent | src/client.rs:222-236 | Spawned tasks are the first sends in call order; until disconnected or dropped they and the buffer are all sends; the buffer is used only while connecting. |
| Calls.ClientSendRecords | src/client.rs:427-450 | A send of the client gets the next number and the message it was given, which waits in the buffer, is behind the buffer with a new task, or is refused with the answer of the phase, by the phase that noticing leaves. |
| Calls.ServerSendRecords | src/server.rs:366-374 | A send of the server gets the next number and its message, with a new task. |
| Calls.SentIsWhatWasCalled | src/client.rs:427-450 | Over any run what either side has sent is exactly the messages its send calls were given, numbered in order. |
| Lifecycle.ThePeerIsNeverStored | src/client.rs:144-150 | The phase that records a close by the peer never occurs, nor is it what a dropped client was. |
| Lifecycle.BufferedCallsEndAlike | src/client.rs:380-386 | Calls buffered until a timeout, noticed by a poll or by a send, or until the client is dropped, can only ever be answered `Error`, until a disconnect only `WeClosed`, in every continuation. |
| Lifecycle.RefusedCallsSay | src/client.rs:439-448 | Calls made once disconnected start nothing and are answered `WeClosed` after the own disconnect, `PeerClosedOrDied` after a timeout, in every continuation. |
| Lifecycle.EventGrammar | src/client.rs:502-515 | The polled events are nothing, `FailedToConnect` alone, or `Connected` and then exactly the events taken from the queue in order, messages as messages and disconnections with their details. |
| Calls.PolledIsWhatWasQueued | src/client.rs:350-358 | In every reachable state the k-th event after `Connected` is a message if and only if the k-th event taken from the queue was that message, and a disconnection if and only if it was one with those details; each message was given as often as it counts as polled. |
| Calls.PollTakesTheHead | src/client.rs:356 | A poll of a told client gives the head of the queue and takes just that, or gives nothing and changes nothing. |
| Lifecycle.DisconnectSilencesIff | src/client.rs:541-544 | After `disconnect` some run still gives the user an event if and only if a timeout was noticed and not told. |
| Lifecycle.FailureIsToldIffTimedOut | src/client.rs:198-213 | When connecting fails, some run tells the user so if and only if the error is a timeout. |
| Calls.HandshakeDecides | src/client.rs:198-213 | However the handshake ends, some run gives `Connected` if and only if it succeeded, and some run gives `FailedToConnect` if and only if it timed out. |
| Calls.ConnectingCanSucceed | src/client.rs:199-236 | From every reachable state in which the client still connects, a handshake that succeeds and then a poll are possible; the user has polled exactly `Connected`, the whole buffer is with the send tasks in order, the accept loop listens, and nothing else changed. |
| Calls.ConnectingEndsOnce | src/client.rs:198-213 | In every run the handshake ends at most once, and what the slot, the phase and the polled events show is how it ended. |
| Lifecycle.BrokenClientKeepsWaiting | src/client.rs:206-213 | After any other failure every call made before or after is still being sent, in every run until the client disconnects or is dropped. |
| Lifecycle.AtMostOneBarrier | src/client.rs:528-544 | A client makes at most one barrier in its life, exactly when it closed a connection. |
| Lifecycle.ClientShutdownCompletes | src/client.rs:528-540 | The corollary of `AtMostOneBarrier` and `DisconnectAllThenWaitAllCompletes`: whatever happened, the program that disconnects and waits for every barrier it ever made, of which there is at most one, is bounded and never stuck on any number of workers. |
| Lifecycle.DisconnectClosesIffCollected | src/client.rs:517-546 | `disconnect` closes the connection, then or ever after, if and only if it had been noticed. |
| Lifecycle.UncollectedDisconnectIsNotTold | src/client.rs:518-527 | Otherwise the server is told of a disconnection only if the connection dies. |
| Calls.DisconnectCanBeToldIff | src/client.rs:518-546 | While the server listens and the connection lives, some run tells the server of a client's `disconnect` without the connection dying if and only if the client had noticed its connection. |
| Lifecycle.DropClosesNothing | src/client.rs:106-113 | Dropping the client leaves the connection as closed as it was, then and ever after, polls nothing more, and the server is told of a disconnection only if it had been closed or if it dies. |
| Calls.EndsAreOfTheRun | src/client.rs:528-540 | In every run the connection is lost exactly if it died, closed by the server exactly if that disconnected, closed by the client exactly if that disconnected while connected; the server's end is there from the step that takes it until the one that drops it, and the client's event receiver until it first disconnects or is dropped. |
| Calls.ServerEndsItsSide | src/server.rs:422-433 | A server's disconnect closes and changes nothing else, also the second time; the end of its object closes nothing and loses exactly what is queued. |
| Lifecycle.DisconnectedClientComesToRest | src/client.rs:518-546 | After `disconnect` in any phase, and whatever users, network and server do meanwhile, the send tasks make at most as many steps as they have operations left, and when none can go on every handle ever returned has its answer. |
| Lifecycle.ClientHandlesBlameTheRightEnd | src/client.rs:439-448 | A client's handle says `WeClosed` only after its own disconnect and blames the peer only if the peer closed, the connection died, or it was never established. |
| Lifecycle.ServerHandlesBlameTheRightEnd | src/sending.rs:95-106 | The same for a server's handles. |
| Passages.BufferCanArrive | src/client.rs:222-236 | From every reachable state in which the client still connects and the server listens or has yet to take the connection, if the server can read what was sent, some run gives the client `Connected`, queues for the server exactly the messages of all calls in their order, and leaves `Sent` for every handle. |
| Passages.ClientMessageCanArrive | src/client.rs:327-336 | From every reachable state with a connected client and a listening server, a send of a readable message, the steps of its task, the loop and its reader, and asking its handle are possible; they queue that message, answer `Sent`, and lose and close nothing. |
| Passages.ServerMessageCanArrive | src/server.rs:366-374 | The same from server to client. |
| Directions.Direction.NewCall | src/client.rs:329 | A send call gets the next number and a result channel of its own. |
| Directions.Direction.SpawnSend | src/client.rs:338-349 | A spawned send starts as a task that is about to open its stream. |
| Directions.Direction.TryRecv | src/client.rs:356 | Takes the head of the queue, if any, and changes nothing else. |
| Directions.Direction.AcceptLoop | src/client.rs:274-315 | The loop makes exactly the accept steps of the channel, arrival by arrival, panics exactly on the errors it does not handle, and ends with its error, whatever it is. |
| Directions.Direction.ReadTask | src/server.rs:283-305 | A reader makes exactly one of the three read steps, enqueues the message, the disconnection its error is told as, or nothing, and panics exactly on unreadable data and unhandled errors. |
| Directions.SendingStateHandle.GetState | src/sending.rs:22-28 | Answers still-being-sent and changes no channel while nothing has come, the result that came, or `Error` if the sender is gone, and uses that channel up. |
| Clients.ClientNetworking.constructor | src/client.rs:363-370 | A new client is the end of a new session. |
| Clients.ClientNetworking.Connected | src/client.rs:222-236 | Looks at the slot once; a found connection gets the whole buffer, in order. |
| Clients.ClientNetworking.DropPending | src/client.rs:520-526 | Every buffered call's sender leaves the same outcome and the messages are lost for that cause. |
| Clients.ClientNetworking.ConnectIfPossible | src/client.rs:373-390 | Does to the object what noticing does to the session. |
| Clients.ClientNetworking.SendMessageToServer | src/client.rs:427-450 | Makes the session's send step; the message recorded, and buffered while connecting, is the one given, and the handle is that of this call. |
| Clients.ClientNetworking.PollEventFromServer | src/client.rs:502-515 | Makes the session's poll step and returns its answer, of a told and connected client the head of the queue, a message as that message. |
| Clients.ClientNetworking.Disconnect | src/client.rs:518-546 | Makes the session's disconnect step; the handle has a barrier exactly if the client was connected, which is exactly if this call closed the connection and made one barrier more. |
| Clients.ClientNetworking.Drop | src/client.rs:87-104 | Makes the session's drop step, whatever the phase. |
| Servers.ClientOnServerNetworking.SendMessageToClient | src/server.rs:366-374 | Makes the session's server-send step; the message recorded and given to a new task is the one given, and the handle is that of this call. |
| Servers.ClientOnServerNetworking.PollEventFromClient | src/server.rs:418-420 | Makes the session's server-poll step; what it returns and what is left are the queue there was. |
| Servers.ClientOnServerNetworking.Disconnect | src/server.rs:422-433 | Makes the session's server-disconnect step, closes, and always returns a handle with a new barrier. |
| Disconnection.DisconnectionHandle.ActuallyWaitForProperDisconnection | src/disconnection.rs:65-69 | Waits at the barrier once, if there is one, and remembers it. |
| Disconnection.DisconnectionHandle.Drop | src/disconnection.rs:92-111 | Waits only if not waited before and the feature allows it, and then remembers it; panics exactly under the feature, unwaited, and not already panicking. |
| Disconnection.DisconnectionHandle.Consume | src/disconnection.rs:51-63 | Over a whole life, however it ends, the user's side waits exactly once, or not at all when dropped under the feature. |
| Disconnection.UserAndTaskMeet | src/disconnection.rs:92-111 | In every order in which the code can come to a barrier that lets anyone wait: there is no third wait, neither side returns before both came and the endpoint was idle, and a handle that is gone was waited for, unless the feature let it drop unwaited. |
| Disconnection.WhoMeetsReturns | src/disconnection.rs:65-69 | Once both came, a side still at the barrier can return. |
| Disconnection.ForbiddenDropStrandsTheTask | src/disconnection.rs:94-101 | If the handle is gone unwaited, the task never returns from the barrier. |
| Disconnection.UserMovesAreItsLife | src/disconnection.rs:51-63 | At a barrier where the task waits, each way to end a handle, as moves, comes as often as its methods do and leaves the same meeting: without the feature, a drop is a wait. |
| Refinement.RunRefines | src/disconnection.rs:92-111 | Every run of the process is, for every handle, a run of its meeting, whether the user waits for it or drops it. |
| Refinement.MeetIffTheBarrierLetsThrough | src/disconnection.rs:65-69 | The user of the process gets on from a handle if and only if the meeting lets it make all the moves of that handle's end. |
| Rendezvous.WaitReturnsAfterAllEnded | src/server.rs:425-431 | In every run, when a wait returns, every connection the endpoint had when that handle was made has ended, those of other clients too. |
| Rendezvous.LinkIsGoneIff | src/server.rs:425-431 | In every run a connection is gone if and only if it was, or it drained after this side closed it, or its peer ended it. |
| Rendezvous.TasksAreDisconnects | src/server.rs:425-433 | Every disconnect done made one task, which remembers no fewer connections than there were at any moment before. |
| Rendezvous.ProgramIsDoneInOrder | src/disconnection.rs:65-69 | The user has done its operations in order, one by one, each by one step. |
| Rendezvous.StuckIff | src/server.rs:428-431 | The stuck states are exactly those with all workers blocked by other barriers than the user's, and those where the user waits for connections nobody here closed. |
| Rendezvous.EnoughWorkersComplete | src/disconnection.rs:65-69 | If every connection is closed before the first wait and never more barriers are outstanding at a wait than there are workers, every local run is bounded by a measure and never stuck. |
| Rendezvous.PeakIsTheThreshold | src/disconnection.rs:65-69 | A program that closes every connection before its first wait, for every order of its disconnects and waits, can get stuck if and only if at some wait more barriers are outstanding than there are workers. |
| Rendezvous.StuckReachableIffTooManyBarriers | src/server.rs:422-433 | With an idle endpoint, for every order of waits, a stuck state is reachable if and only if there are more barriers than workers. |
| Rendezvous.DisconnectAllThenWaitAllCompletes | src/server.rs:135-147 | Disconnect all, then wait for all: with enough workers, bounded and never stuck. |
| Rendezvous.DisconnectAllThenWaitAllIff | src/async_runtime.rs:5-25 | That program can get stuck if and only if there are more clients than workers. |
| Rendezvous.OneByOneNeverCompletes | examples/example_server.rs:99-106 | With two clients or more the disconnect-and-wait loop never gets past its first wait by this side's steps. |
| Rendezvous.SecondIterationOnlyAfterAllEnded | examples/example_server.rs:99-106 | Whatever the clients and the network do, that loop is past its first wait only once every connection there was at its start has ended. |
| Rendezvous.OneByOneCompletesIff | examples/example_server.rs:99-106 | This side can finish that loop by itself if and only if there is at most one client. |
| Rendezvous.OneByOneOverGoneCompletes | examples/example_server.rs:99-106 | Once all clients have gone by themselves, that loop is bounded and never stuck, for any number of them, on one worker or more. |
| Rendezvous.UnwaitedHandleBlocksAWorker | src/disconnection.rs:94-101 | A handle nobody waits for keeps a worker blocked in every continuation. |
| PortSearch.SocketAddrsToTry.Next | src/server.rs:94-98 | Gives the next port and wraps after 65535. |
| PortSearch.Bind | src/server.rs:106-110 | Tries candidates in order and stops at the first success, having failed at all before; given 65536 attempts it succeeds if and only if some port can be bound. |
| PortSearch.CandidatesArePermutation | src/server.rs:92-99 | Among the first 65536 candidates every port comes up exactly once, at a known turn. |
| PortSearch.SearchEndsIff | src/server.rs:78-86 | The search ends if and only if some port can be bound. |
| PortSearch.SearchFinds | src/server.rs:45-50 | With a free port and a working wildcard it ends within 65536 - desired + 1 attempts (1 for port 0) with the least free port from the desired one on, or else the wildcard's. |
| PortSearch.FindsLeastFromDesired | src/server.rs:82-86 | What is found first is the least bindable port from the desired one on, if there is one. |
| PortSearch.FindsLeastOfAll | src/server.rs:96 | Without such a port and without a wildcard it is the least bindable port of all, after the wrap. |
| Cloneless.EraseIsInvisible | src/cloneless.rs:48-61 | At any depth, replacing views by owned content is invisible on the wire, whatever the codec. |
| Cloneless.DecodedIsFullyOwned | src/cloneless.rs:63-70 | Whatever tokens arrive, what is decoded has its type and holds no view. |
| Cloneless.IntoOwnedNeverPanicsOnReceived | src/cloneless.rs:39-45 | Taking the content out of a received value never panics and gives a fully owned content. |
| Cloneless.IntoOwnedGivesTheContent | src/cloneless.rs:39-45 | Of what was decoded from any sent value, owned or a view, `into_owned` gives the erased content that was sent if and only if that holds no `Some` of a nil; on the sender's side it gives an owned content as it is and panics exactly on a view. |
| Cloneless.ViewIsSentAsItsContent | src/cloneless.rs:48-61 | A view is written as its content would be, owned, and stands for that content once owned. |
| Cloneless.OwnedMessagesComeBackIff | src/cloneless.rs:21-25 | A message without views comes back as that very message if and only if it holds no `Some` of a nil. |
| Cloneless.DecodeEncode | src/cloneless.rs:48-70 | Exactly what any message of any type comes back as, and that nothing after it is read. |
| Cloneless.RoundTripIffNotBlurred | src/cloneless.rs:21-25 | A message comes back as its owned self if and only if it holds no `Some` of something written as nil. |
| Cloneless.RoundTripIffUnambiguous | src/cloneless.rs:21-25 | All messages of a type do if and only if the type has no option of a nullable type. |
| Cloneless.SameWireIffSameOnceOwned | src/cloneless.rs:13-15 | Two messages look the same on the wire if and only if they are the same once owned. |
| Cloneless.CutShortIsUnreadable | src/receiving.rs:3-8 | What was written of a message, any prefix of it, decodes if and only if it is all of it. |
| Cloneless.TaggedSomeLosesEveryCloneless | src/cloneless.rs:54-68 | From a codec that tags `Some` no such value ever comes back as its owned self, whatever its content. |
| EndToEnd.PolledIsSentErased | src/client.rs:281-288 | What the receiver polls is, in every run, the decoded owned self of a message that a send call sent, once. |
| EndToEnd.ServerPollsWhatTheClientSent | src/server.rs:276-303 | In every run of a session whose client sends messages of an unambiguous type, each message the server's user polls is of one send call of the client, decodes to the owned self of what that call was given, and comes once. |
| EndToEnd.ClientPollsWhatTheServerSent | src/client.rs:281-303 | The same of the events the client's user polls. |
| EndToEnd.WellTypedMessagesArrive | src/receiving.rs:3-8 | In a run without faults, once nothing is on its way, a serialized message of the receiver's type that is not too long has been polled, once, if and only if its own send task did not panic. |

## Left out

- QUIC, TLS, certificates and the certificate verifier: foreign code, seen here only as awaits that succeed or fail.
- The inside of tokio and Quinn, time and timeouts as durations, thread names: what matters of them is assumed above.
- The bytes of MessagePack: a token stream with the same ambiguities stands for them; maps, strings and floats would be further leaf tokens.
- `warqueen_derive`: it emits empty implementations.
- The warnings and the main-thread check of disconnection handles: output only.
- The listener's loop that accepts connections and `poll_client`: handing over finished connections adds nothing to the protocol; a session starts where a server side is handed over.
- `sent()`, `failed_due_to_connection_closed()`, `failed_due_to_error()`, `server_port()`, `client_address()`: one-branch lookups.
- Order of delivery: there is none to prove, since every message has its own task and stream.
- Parts of a message: a stream is written to its end or not. The limit of one gigabyte is a limit on the tokens of a body, of any size; data of the wrong type and data that is too long are bodies that the receiver cannot read.
- What a dropped, never asked `SendingStateHandle` does: nothing.
- Opening without a desired port: a single attempt at port 0, with no search.
- Several threads of one process that wait for handles at once: `Rendezvous` has one user thread.
- Interleaving inside one call: a user's call is one step, and tasks run between calls, not while a flush is still spawning.
- A disconnection handle dropped in the default feature set is, in `Rendezvous`, a wait at that place of the program; `UserMovesAreItsLife` and `RunRefines` show that it is one.
- The end of the process with its runtime and all tasks: to the other end it is a connection that dies.
- Directions.Direction.AcceptLoop: is one uninterrupted run over streams that are open when it starts; its turns, as streams arrive and others work, are the steps `AcceptOk` and `AcceptFails` of `Channels`, about which the theorems are.
- PortSearch.Bind: is cut off after a number of attempts given to it, for every such number, because the original goes on forever when nothing can be bound; when it ends is `SearchEndsIff`.
- Clients.ClientNetworking.SendMessageToServer: takes the serialized message; serialization is in `Cloneless` and the two meet in `EndToEnd`.
- Servers.ClientOnServerNetworking.Disconnect: that the object may be disconnected again, and each time makes a further barrier, is modelled; how many barriers a server then has is a parameter of `Rendezvous`.

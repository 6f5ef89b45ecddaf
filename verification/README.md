# The WebRTC plugin: object lifecycle, task queue and codecs

The plugin puts WebRTC clients in front of a native game server. It keeps three kinds of
reference-counted objects. A **socket** owns a WebSocket server and the list of its sessions. A
**session** owns the WebSocket and the peer connection of one client, *n* data channels and a
system channel. A **channel** owns a data channel. One event loop runs every callback as a task
of one queue; the native server answers on an executor with a queue of its own.

This project models those objects, both queues and the outside world that posts events, as a step
system, and proves what every run of it keeps. It also models the queue between the threads and
the event loop, and the codecs: the growable string buffer, the frames of the WebSocket, the
messages of the system channel and the labels of data channels.

## How it is laid out

* `Model`, `Lifecycle`: the state, and one function for each function of the program. Following a
  NULL or released pointer, or reading past a frame, sets a fault flag.
* `Invariants`: what every state between two steps satisfies, in fifteen layers. `hand` holds
  the references that running code has in hand, `busy` the objects whose closing is under way.
* `Counting`, `Updates`: how the layers survive the change of one record.
* `Dwindling`, `Steadiness`: what dropping references, closing, and any task at all never does.
* `Unref`, `Closing`, `Opening`, `Handshake`, `Taking`, `Connecting`, `Pushing`, `Executing`: the
  invariant through every function, including the release of a channel, its session and its
  socket out of one dropped reference.
* `Steps`, `Theorems`: every step, then every run.
* `Effects`, `Outcomes`: what the tasks, timers and commands bring about, one after the other.
* `Isolation`: what they leave alone, which is everything of the other sessions and sockets.
* `Endings`, `ChannelEndings`: which steps end a session, and which a channel.
* `Drain`, `Strays`: what becomes of a plugin that is shut down, and which steps leave an object or
  a timer behind.
* `Losses`: which native sessions are never destroyed.
* `Counterexamples`: runs into every kind of hazard, and one in which a message gets through.
* `Runtime`: the same program as a class that updates its pools and queues in place and walks
  lists and arrays by loops, each method proved to compute the function of `Lifecycle`.
* `TaskQueue`, `StringBuffers`, `Frames`, `PingPong`, `Octets`, `ChannelLabels`, `Decimal`.

An object is named by its incarnation: a number is never used twice, so a name that is not in its
map is a pointer to an object that went back to its pool.

## What was found

* **Safety is exact.** A run of the modelled steps follows a NULL or stale pointer, or reads past a
  frame, if and only if one of its steps is a `Hazard` (`Theorems.RunFaults`). The hazards are these.
  A native session arrives while a slot of its session is empty or its system channel is released;
  `on_connected` checks neither. An active session whose system channel is released is closed, by
  whatever closes it; an error on the system channel's DC and then its closed event make such a
  session. The native server disconnects a session, sends to it, sets a mode or asks for the
  round-trip time, and by the time its native session is asked for its private data either the native
  session was destroyed or the session released: nothing clears the private pointer, and nothing
  checks it. (The round-trip time may also be asked for too early; the tasks come behind the
  handover. While the session holds its native session it is found, `Theorems.HeldFinds`.) A ping
  timer fires for a released session or system channel. An authenticated peer sends a frame that is
  read past: the opcodes are compared before anything looks at the length, so of the text frames
  these are exactly the ones of less than four characters, a bare `DESC` and a bare `CAND`.
  `Counterexamples` holds a run into each of these five kinds, and says of each that it comes without
  a fault to its last step, and which hazard that is.
* **Writes are exact, too, but apart.** The fault flag does not cover the string buffers. There,
  `StringBuffers.FieldCopied` says when the copy of the first field of a `DESC` or `CAND` frame comes
  out whole, empty, as NULL, or runs over its buffer: the last if and only if there is memory and
  the field is longer than twice the capacity and shorter than the maximum. Hence a frame that can
  be parsed back comes back only if its first field fits (`StringBuffers.ComesBack`).
* **Endings are exact.** In every reachable state a step ends an active session if and only if it is
  one of these: the closed event of its WS or PC, an AUTH frame with a token that is not accepted, a
  data channel under a wrong name, a disconnect by its native session, a creation without result, the
  stop of its native socket, its timeout (`Endings.EndsExactly`). A channel ends with its session,
  unless it is a stray, or when its DC fails (`ChannelEndings.CarriesExactly`). Nothing of another
  session changes meanwhile (`Isolation.TaskAlone`).
* **The system channel hears nothing.** Messages count only on the incoming data channel, and an
  incoming data channel is attached only to a channel in a slot; the system channel has no slot. So
  in every reachable state its messages are dropped: no client's ping is answered, and no pong is
  measured (`Outcomes.SystemChannelDeaf`).
* **Draining is exact.** With every socket closed, each outstanding event, task, command and
  timeout decreases a measure. When nothing is outstanding, every object was released exactly once
  if and only if no step of the run handled the closed event of a data channel that was still
  active: such a channel has left its slot, so that nothing will drop its own reference. And a timer
  is left if and only if the last channel of some session opened, and started its ping, after the
  session was closed: nothing stops that ping.
* **Losses are exact.** A native session made is in exactly one place, and one of these places is
  lost. The lost ones of a run are those that its steps gave up while no native socket was listening
  (`Losses.RunLostIs`); in the end these are the ones still held or on their way when the last native
  socket stopped, and those made since.
* **Arguments can be garbled.** The drain loop gives a task back to the pool before the callback
  reads its arguments; it keeps the callback and the count. Order, completeness and count hold
  regardless; the arguments are the submitted ones if and only if no callback reads one that was
  overwritten with another since its task was popped. A thread that refills the task overwrites as
  many as it brings, so that the callback may get new arguments along with old ones.
* **Buffers grow once.** An append is whole, refused, or past the end, by an exact condition; it is
  past the end only if twice the capacity does not suffice.

Where the notes in `connection-flow.txt` and the code disagree, the code is followed: the peer
connection is created with the session, the channels right after authentication, and the handshake
frame is `READY`.

## Model

| member | source | states |
|---|---|---|
| Theorems.RunFaults | src/session/session.c:671-687 | a run of the modelled steps follows a NULL, released or overread pointer if and only if some step of it is a hazard |
| Theorems.RunInvariant | src/context.c:614-628 | every state of every run that has not faulted satisfies the invariant, in all layers |
| Theorems.References | src/session/session.c:88-198 | each reference count is the number of its named owners: active flag, WSS, WS, PC or DC not closed, live children, pending creations, receives in flight; at most one creation is pending |
| Theorems.NoDanglingParents | src/channel/channel.c:75-102 | the session of a live channel and the socket of a live session are live; an object acquired is live or was released, and released once |
| Theorems.NativesConserved | src/session/session-plugin.c:198-270 | a native session made is in exactly one place: on its way, held, to be destroyed, destroyed, or lost; it has an owner exactly once it was handed over, only that owner holds it, and a released owner has given it up |
| Losses.RunLostIs | src/session/session-plugin.c:256-270 | the native sessions of a run that are never destroyed are those its steps gave up while no native socket was listening |
| Losses.LostAfterLastStop | src/socket/socket-plugin.c:83-109 | once the last native socket has stopped, a run that ends without sessions and tasks has lost exactly those that were held or on their way, and those made since |
| Theorems.UseBeforeDestroy | src/channel/channel.c:176-218 | no command of the executor faults; a receive names a native session that is not destroyed and has no destroy queued before it |
| Theorems.HandshakeGate | src/session/session.c:213-224 | the native session is asked for once if READY was received and every channel has opened, and not at all otherwise; both need authentication; all opened means the n+1 distinct channels of the session |
| Theorems.OpensAtTheGate | src/session/session.c:355-365 | the step that asks for the native session is exactly the step that completes READY and all opened |
| Theorems.OneAuthentication | src/session/session-ws.c:363-382 | at most one authentication result per session; a rejected session is closed and ignores every message; without a result there is no channel |
| Losses.SlotsStayFixed | src/session/session.c:611-655 | after its authentication result no step changes the number of slots of a session |
| Theorems.ReceiveGate | src/channel/channel-dc.c:319-345 | a message takes effect only on a channel in its slot, of an active session that holds its native session |
| Theorems.ClosedIsLast | src/socket/socket-wss.c:157-182 | no event of an object follows its closed event, none is left or can be posted once it was handled, and until then the object it refers to is live |
| Theorems.ClientFindsSocket | src/socket/socket-wss.c:23-41 | a client task finds its socket live, and creates nothing once the socket is closed |
| Theorems.ListedWhileActive | src/socket/socket.c:127-194 | a session is in the list of its socket, once and at the node of its entry, exactly while it is active; a closed socket lists none |
| Theorems.TimerOwnership | src/session/session.c:690-737 | a session has at most one timeout and one ping timer, points to each exactly while it is live, and no timeout outlives its session; for pings see Strays.PingOutlives |
| Strays.PingOutlives | src/session/session.c:387-414 | a closed or released session has a ping timer running if and only if its last channel opened, and started the ping, after it was closed |
| Strays.PromptPings | src/session/session.c:378-384 | in a run without such a late opening a ping belongs to an active session, and is a hazard only if every close of that session is |
| Strays.TimersLeft | src/session/session.c:132-160 | a drained run has a timer left if and only if some channel opened late, and only pings of such sessions |
| Theorems.GatesByEvents | src/session/session.c:671-687 | handing over a native session faults if and only if the closed event of a data channel of the session was handled before, or its system channel was released |
| Endings.EndsExactly | src/session/session.c:163-198 | in every reachable state a session is active after a step if and only if it was before and the step is none of those that end it: its WS or PC closed, a token not accepted, a wrong label, a disconnect, a failed creation, its native socket stopped, its timeout |
| ChannelEndings.CarriesExactly | src/channel/channel.c:90-102 | a channel is active after a step if and only if it was before, its DC did not fail, and its session did not end or it is a stray |
| Isolation.TaskAlone | src/context.c:614-628 | a task about one session leaves all other sessions, their channels, timers, native sessions and list places, all other sockets, and the outside world alone |
| Isolation.TimeoutAlone | src/session/session.c:690-702 | so does a timeout |
| Isolation.StoppedDistant | src/socket/socket-plugin.c:65-80 | a native socket that stops leaves all other sockets alone with all that belongs to them |
| Outcomes.ClosedTask | src/session/session-pc.c:371-376 | the closed event of the WS or PC of an active session that is not stale leaves it closed or released, and its native session, if any, requested for destruction or lost; of a closed one it only drops the reference |
| Outcomes.DisconnectTask | src/session/session-plugin.c:69-83 | a disconnect that is no hazard closes the session that owns the native session, whole, and gives the native session up |
| Outcomes.ArrivedTask | src/session/session-pc.c:150-178 | the channel in the slot of the given index gets its incoming data channel, and nothing else changes; without such a channel nothing does |
| Outcomes.MisnamedTask | src/session/session-pc.c:159-166 | a data channel under a wrong name closes the session whole |
| Outcomes.SystemChannelDeaf | src/channel/channel-dc.c:138-165 | no message to the system channel has any effect, as no incoming data channel is ever attached to it |
| Outcomes.ErrorTask | src/channel/channel-dc.c:110-124 | an error closes the channel, whichever it is, and changes nothing else |
| Outcomes.DcClosedTask | src/channel/channel-dc.c:71-89 | exactly the channel's slot is emptied and one reference to it dropped; its session stays as active as it was |
| Outcomes.ReceivedTask | src/channel/channel.c:176-218 | an answered receive drops one reference to its channel and nothing else |
| Outcomes.ListeningTask | src/socket/socket.c:70-96 | a native socket that listens gets an active socket of its own, with an open WSS, its modes and no session, whatever other sockets there are; without memory nothing changes |
| Outcomes.ClientRefused | src/socket/socket.c:168-194 | a client changes nothing if the WSS is not active, or no session or timer can be had |
| Outcomes.WssClosedTask | src/socket/socket-wss.c:157-182 | the last task of a WSS drops exactly its reference to the socket, and the map forgets a socket that is released |
| Outcomes.StoppedShuts | src/socket/socket.c:127-147 | every session that was active on a socket that is stopped is closed whole |
| Outcomes.FailedTask | src/session/session-plugin.c:225-234 | a failed creation closes the session whole and drops the reference of the request |
| Outcomes.TimeoutTask | src/session/session.c:690-702 | a timeout closes its session whole; of a closed one it is only cleared |
| Outcomes.FrameIgnored | src/session/session-ws.c:421-498 | frames of no kind, descriptions, candidates, and frames to a closed WS change no object |
| Outcomes.ReadyAgain | src/session/session.c:355-365 | a second READY changes nothing |
| Outcomes.Passing | src/session/session-pc.c:27-147 | events that nothing handles, candidates, states, and messages and modes from the native server change no object unless they fault |
| Outcomes.CommandTask | src/session/session-plugin.c:28-66 | the executor answers each creation with a native session never made before, or none, answers each receive, and destroys the named native session, not destroyed before, and no other |
| Outcomes.OutsideStep | src/context.c:364-399 | whatever the outside world does submits exactly one task and changes no object; an object posts nothing after its closed event, and a data channel opens once |
| Effects.ClientTask | src/socket/socket.c:168-194 | a client of an active WSS gets a session that is active with its WS and PC, not authenticated, last in the list, and timed; or one that is closed whole when it cannot be listed |
| Effects.AuthTask | src/session/session.c:279-312 | an AUTH frame with room for a token ends in an authenticated session with n slots filled and a system channel, all new, closed to receiving and without an incoming data channel, and a timeout exactly when the token has one; or in a session closed whole when anything fails |
| Effects.CreateChannelsEffect | src/session/session.c:611-655 | the creation succeeds exactly when n+1 channels can be acquired, and then slot i holds a new channel of index i, closed to receiving and without an incoming data channel, and the n+1 are distinct |
| Effects.ReadyTask | src/session/session.c:355-365 | READY is remembered; if it completes the handshake the timeout is off and the native session asked for, and otherwise it is not; nothing else of the session or its channels changes |
| Effects.OpenTask | src/session/session.c:213-224 | an opening is counted; the last one starts the ping, if there is a timer; if it completes the handshake the timeout is off and the native session asked for, and otherwise it is not; nothing else of the session or its channels changes |
| Effects.CreatedTask | src/session/session.c:671-687 | the session holds the native session that arrives and is its owner, exactly the gates of the channels in its slots and of its system channel have opened, and no other field of these has changed |
| Effects.UncreatedTask | src/session/session-plugin.c:225-234 | a session whose native session could not be made, and that is not stale, is closed or released |
| Effects.MessageTask | src/channel/channel-dc.c:319-345 | a message is passed to the held native session exactly when it has come in on the incoming data channel of an active data channel whose gate is open, while the executor is up, and takes one reference to the channel; otherwise nothing changes. Outcomes.ArrivedTask says when the incoming data channel is attached |
| Effects.StoppedTask | src/socket/socket-plugin.c:65-80 | without a stale session, the socket of a native socket that stops is closed or released, its list is empty, and no session of it is active |
| Effects.TimeoutEffect | src/session/session.c:690-702 | a timeout of a session that is not stale is gone once it fired, and its session closed or released |
| Effects.CloseEffect | src/session/session.c:163-198 | a session that is closed, and is not stale, has its WS, PC, ping and list entry gone, and its native session to be destroyed or lost |
| Effects.ClosedThroughout | src/socket/socket.c:127-147 | an active session has an active socket, and an active channel an active session unless it is a stray |
| Effects.GatesOpen | src/session/session.c:671-687 | exactly the gates of the given channels open, and nothing else of any channel changes |
| Steps.NextKeeps | src/session/session.c:163-198 | a step faults exactly when it is a hazard, and keeps the invariant otherwise |
| Steps.LoopKeeps | src/context.c:614-628 | a task of the event loop faults exactly when it is a hazard, and keeps the invariant otherwise; which tasks end a session is Endings.EndsExactly, and what each does is in Effects and Outcomes |
| Steps.FireKeeps | src/session/session.c:690-702 | a timeout closes its live session and faults exactly when that is stale; a ping faults exactly when its session or system channel is gone |
| Steps.DisconnectKeeps | src/session/session-plugin.c:69-83 | a disconnect faults exactly when its native session is destroyed, or the owner of that released or stale; what it does otherwise is Outcomes.DisconnectTask |
| Steps.DeliverKeeps | src/channel/channel-plugin.c:45-69 | sending to a channel or setting its mode faults exactly when its native session is destroyed or the owner of that released |
| Theorems.HeldFinds | src/session/session-plugin.c:126-149 | while a session holds its native session it is found by it: sending, setting a mode and asking for the round-trip time do not fault, and a disconnect only if the session is stale |
| Steps.AddressedOwned | src/session/session-plugin.c:126-149 | a task that names a native session comes after the one that hands it over |
| Steadiness.RunsSteady | src/context.c:614-628 | no task posts, makes or destroys; it loses a native session only while the executor is down, changes the number of slots only at an authentication result, and enters in the books only what the closed and the open event of a data channel say |
| Executing.ExecuteKeeps | src/session/session-plugin.c:28-66 | the executor's commands keep the invariant and never fault |
| Connecting.CreatedKeeps | src/session/session-plugin.c:13-25 | handing over a native session keeps the invariant if all slots are filled and the system channel is live, and faults if not |
| Connecting.OnConnectedKeeps | src/session/session.c:671-687 | opening the receive gates keeps the invariant when all channels are there |
| Connecting.OnConnectedFaults | src/session/session.c:671-687 | it faults when a slot is empty or the system channel is gone |
| Connecting.HeldUndestroyed | src/session/session-plugin.c:225-270 | a native session that a session holds is neither destroyed nor about to be |
| Connecting.DcMessageKeeps | src/channel/channel-dc.c:319-345 | handling a message keeps the invariant, whatever the gates say |
| Unref.UnrefSocketKeeps | src/socket/socket.c:121-124 | dropping a reference to a socket keeps the invariant; the last one finds no session, and empties the map entry |
| Unref.UnrefSessionKeeps | src/session/session.c:132-160 | dropping a reference to a session keeps the invariant through its release and that of its socket, but never in the middle of its close |
| Unref.UnrefChannelKeeps | src/channel/channel.c:75-87 | the same for a channel, through the release of its session and socket |
| Closing.ChannelCloseKeeps | src/channel/channel.c:90-102 | closing a channel keeps the invariant |
| Closing.SessionCloseKeeps | src/session/session.c:163-198 | closing a session that is not stale keeps the invariant, leaves nothing half closed, and touches no other session |
| Closing.SessionCloseFaults | src/session/session.c:163-198 | closing a stale session follows its released system channel |
| Closing.CloseNodesKeeps | src/socket/socket.c:127-147 | closing the popped sessions, none of them stale, takes exactly them off the list: no close reaches into the list again, or makes another session stale |
| Closing.CloseNodesFaults | src/socket/socket.c:127-147 | if one of them is stale the loop reaches it and faults |
| Closing.SocketCloseKeeps | src/socket/socket.c:127-147 | closing a socket without a stale session keeps the invariant |
| Closing.SocketCloseFaults | src/socket/socket.c:127-147 | closing a socket with a stale session faults |
| Closing.RemoveNodeRemoves | src/socket/socket.c:150-161 | leaving the list removes that node and no other |
| Opening.CreateSessionKeeps | src/socket/socket.c:168-194 | a new session keeps the invariant, also when it cannot be listed |
| Opening.CreateChannelsKeeps | src/session/session.c:611-655 | creating the channels keeps the invariant wherever it stops |
| Opening.WsAuthResultKeeps | src/session/session.c:279-312 | the authentication result keeps the invariant, accepted or rejected |
| Handshaking.RecvReadyKeeps | src/session/session.c:355-365 | READY keeps the invariant, before or after the last opening |
| Handshaking.OnChannelOpenedKeeps | src/session/session.c:213-224 | so does the opening of a channel, first or last |
| Taking.DcClosedKeeps | src/channel/channel-dc.c:71-89 | so does the closed event of a data channel, which leaves its slot first |
| Drain.DrainDecreases | src/socket/socket.c:99-147 | with every socket closed, each step that handles what is outstanding decreases a measure that is never negative, and no socket opens |
| Drain.DrainEnds | src/socket/socket.c:99-147 | no run of such steps is longer than the measure |
| Drain.NothingLeft | src/socket/socket-wss.c:157-182 | when none of them is enabled, no event, task, command or timeout is outstanding |
| Drain.OnlyStraysLeft | src/session/session.c:201-210 | what is then still live is the strays, their sessions and their sockets |
| Drain.QuietSocketGone | src/socket/socket.c:99-112 | a closed socket for whose objects nothing is outstanding is live if and only if one of its channels is a stray, whatever other sockets do |
| Drain.DrainReleasesAll | src/socket/socket.c:99-112 | without strays every object acquired was released once, the socket map is empty, and every native session was destroyed once or lost; with strays something is live |
| Strays.RunStraysAre | src/channel/channel-dc.c:71-89 | the strays of a run are the data channels that were active when the closed event of their DC was handled |
| Strays.RunReleasesAll | src/session/session.c:163-210 | a drained run has released every object it acquired, once each, if and only if no step handled the closed event of an active data channel |
| Counterexamples.GetsThrough | src/channel/channel-dc.c:319-345 | a run in which a client authenticates, gets its native session and opens its data channel, and then, whatever it sends there, a receive is submitted for that native session |
| Counterexamples.LateReceive | src/session/session.c:671-687 | a run whose session closes while its native session is being made; its last step is the first to fault: it hands the native session over past the released system channel |
| Counterexamples.DestroyedLookup | src/channel/channel-plugin.c:45-69 | a run whose last step, the first to fault, sends to a live session by its native session that is destroyed |
| Counterexamples.EarlyRtt | src/session/session-plugin.c:106-123 | a run whose last step, the first to fault, asks for the round-trip time before the handover |
| Counterexamples.ShortFrame | src/session/session-ws.c:465-498 | for every text of less than four characters, a run whose last step, the first to fault, reads past it |
| Counterexamples.EmptySlot | src/session/session.c:671-687 | a run in which a data channel closes meanwhile; its last step is the first to fault, and follows the empty slot, the system channel being live |
| Counterexamples.LateDisconnect | src/session/session-plugin.c:69-83 | a run in which the native server disconnects a session it holds; its last step is the first to fault: the session is released, the native session not yet destroyed |
| Counterexamples.LostDestroy | src/session/session-plugin.c:256-270 | a run in which the destroy of a connected session is lost when its native socket stops |
| Counterexamples.LatePing | src/session/session.c:387-401 | a run whose channels open after the close; its last step is the first to fault: the ping timer of the closed session fires after the system channel was released |
| Counterexamples.BareDescription | src/session/session-ws.c:465-537 | a run whose last step, the first to fault, reads past a bare DESC |
| Counterexamples.SystemError | src/channel/channel-dc.c:110-124 | a run in which the system channel reports an error and closes; its last step is the first to fault: it closes the stale session |
| Counterexamples.SecondClosed | src/channel/channel-dc.c:71-89 | a second closed event releases a channel while it is active |
| Counterexamples.SecondClosedBreaks | src/channel/channel-dc.c:71-89 | in every reachable state a second closed event of a live channel takes a reference of its active flag or of a pending receive, and of a released one it takes none |
| Runtime.Plugin.CloseSlots | src/session/session.c:175-183 | the loop over the slots closes the filled ones, first to last |
| Runtime.Plugin.PopSession | src/socket/socket.c:136-141 | popping the first session and closing it faults exactly if it is stale, and otherwise leaves the rest of the list |
| Runtime.Plugin.CloseSessions | src/socket/socket.c:136-141 | the loop pops until the list is empty, and closes every session that was listed, once and in order, unless one is stale |
| Runtime.Plugin.SocketClose | src/socket/socket.c:127-147 | closes the sessions of the live list, then the WSS, then drops its own reference; faults if a session is stale |
| Runtime.Plugin.AcquireSession | src/session/session.c:88-129 | a new session holds its own reference and those of its WS and PC, takes one on its socket, and has its timeout running |
| Runtime.Plugin.AddChannels | src/session/session.c:633-641 | the loop fills the slots in order until a channel cannot be acquired |
| Runtime.Plugin.EnableSlots | src/session/session.c:677-681 | the loop opens the gate of every slot and follows an empty one |
| Runtime.Plugin.OnStopped | src/socket/socket-plugin.c:65-80 | the socket that the map finds is live, and is closed |
| Runtime.Plugin.Advance | src/context.c:614-628 | the class faults at a step exactly when the step is a hazard, and otherwise makes the step of the model and keeps the invariant |
| TaskQueue.RunInv | src/context.c:364-399 | in every interleaving tasks stay apart, the list is in order, and no wake-up is lost |
| TaskQueue.ExecutedPrefix | src/context.c:614-628 | callbacks run once each, in order of acceptance, with as many arguments as submitted, across a shutdown too; and with these very arguments if and only if no callback reads one that was overwritten with another since its task was popped |
| TaskQueue.ReadsLastWritten | src/context.c:388-392 | the arguments in the task being called are those submitted, but for those that a refill, or a pool that clears, has overwritten since the pop |
| TaskQueue.NothingForgotten | src/context.c:394-398 | when no submission is under way and the loop is idle, everything accepted was executed |
| TaskQueue.NeverStuck | src/context.c:394-398 | while the list is not empty and no thread is about to signal, the loop can go on until it is halted |
| TaskQueue.HaltedForGood | src/context.c:586-611 | however a run goes on after the loop has halted, nothing more is executed |
| TaskQueue.StopsByShutdown | src/context.c:597-611 | the loop stops accepting, and may halt, if and only if there was a shutdown |
| TaskQueue.RefusedAfterShutdown | src/context.c:374-376 | after a shutdown with no submission under way nothing is accepted any more |
| TaskQueue.LastSubmission | src/socket/socket-wss.c:157-182 | what a worker submits once the threads of a WSS are through with their submissions, and start no other, comes behind everything they submitted |
| TaskQueue.GarbledRun | src/context.c:621-627 | a run in which a task of two arguments is refilled with one: the callback gets the new one and the old one, which is garbled exactly if the new one differs |
| TaskQueue.Context.SubmitTask | src/context.c:364-399 | refuses when the loop is not running or there are more than ten arguments, and otherwise appends and signals |
| TaskQueue.Context.AsyncTaskCallback | src/context.c:614-628 | whatever other threads do in the gaps between its actions, the loop stops at an empty list with everything accepted executed |
| Frames.Dispatch | src/session/session-ws.c:421-498 | only an unauthenticated peer can authenticate, and only an authenticated one be heard otherwise; for all frames, Frames.Unauthenticated and Frames.AuthenticatedFields say exactly what comes out |
| Frames.Unauthenticated | src/session/session-ws.c:437-462 | an unauthenticated peer authenticates if and only if the frame starts with AUTH and is long enough for a token, which then is what lies between the byte behind AUTH and the last one; every other frame that is not empty is ignored |
| Frames.AuthenticatedFields | src/session/session-ws.c:465-573 | for all frames of an authenticated peer: a description or a candidate with given fields comes out if and only if the frame holds exactly these behind its opcode, the first up to a separator and the second up to a NUL; READY if and only if the frame starts with it |
| Frames.DescriptionRoundTrip | src/session/session-ws.c:501-537 | a DESC frame is split into its fields again exactly when they hold no NUL and the first no separator |
| Frames.CandidateRoundTrip | src/session/session-ws.c:540-573 | the same for a CAND frame |
| Frames.ReadyExactly | src/session/session-ws.c:494-497 | READY is what starts with READY |
| Frames.AuthRoundTrip | src/session/session-ws.c:441-462 | the token is what follows AUTH and a separator, and an empty one is ignored |
| Frames.FrameOverread | src/session/session-ws.c:465-573 | of all frames of an authenticated peer, exactly those are read past their end that are shorter than the opcode compared next, and the descriptions and candidates that no NUL ends |
| Frames.TextOverread | src/session/session-ws.c:19-20 | of the text frames, exactly those of less than four characters, a bare DESC and a bare CAND of an authenticated peer are read past their end |
| Frames.UnauthenticatedOverread | src/session/session-ws.c:421-462 | before authentication, exactly the empty frame is |
| StringBuffers.CapacityRange | src/utils/string-buffer.c:9-33 | a capacity is 1024 times a power of two up to 262144, and so is its double below that |
| StringBuffers.StringBuffer.EnsureCapacity | src/utils/string-buffer.c:15-49 | grows by doubling once, keeps the contents, and is refused by an exact condition |
| StringBuffers.StringBuffer.AppendBin | src/utils/string-buffer.c:203-226 | the value is appended, or nothing changes; refusal and overrun by exact conditions |
| StringBuffers.StringBuffer.AppendChr | src/utils/string-buffer.c:185-200 | the same for one character, which never overruns |
| StringBuffers.StringBuffer.AppendU64 | src/utils/string-buffer.c:164-172 | appends the decimal text or refuses it, by the exact condition of any append, and never overruns |
| StringBuffers.StringBuffer.AppendI64 | src/utils/string-buffer.c:175-182 | the same for the signed decimal text |
| StringBuffers.StringBuffer.ToString | src/utils/string-buffer.c:93-115 | appends a NUL and returns the length without it |
| StringBuffers.StringBuffer.ToBinary | src/utils/string-buffer.c:118-134 | returns the bytes, and adds their number to what it is given |
| StringBuffers.StringBuffer.BuildFrame | src/session/session-ws.c:198-267 | for all fields: an append overruns, or the whole frame is sent, or something is missing, by the model of the appends |
| StringBuffers.FrameSentWhole | src/session/session-ws.c:198-267 | the whole frame is sent if and only if its head needs at most twice the capacity, the whole at most twice of what it then finds, and neither the maximum; without memory, if and only if the whole needs less than the capacity |
| StringBuffers.SendDescription | src/session/session-ws.c:198-231 | without an overrun, what is sent is split into the same fields if and only if it was sent whole, its fields hold no NUL and the first no separator |
| StringBuffers.SendCandidate | src/session/session-ws.c:234-267 | the same for a candidate |
| StringBuffers.SendAuthSuccess | src/session/session-ws.c:385-418 | for every client and time, with or without memory, the answer is sent whole, and its two fields come apart as these numbers |
| StringBuffers.FramePassedOn | src/session/session-ws.c:465-573 | of all frames of an authenticated peer, which are passed on, with their second field, which are dropped, and which are read or written out of bounds |
| StringBuffers.ReceiveFrame | src/session/session-ws.c:501-573 | what the session passes on of a frame, its first field copied through a string buffer |
| StringBuffers.FieldCopied | src/session/session-ws.c:516-526 | exactly when that field arrives whole, empty, as NULL, or overruns the buffer |
| StringBuffers.ComesBack | src/session/session-ws.c:501-573 | a frame of two fields comes back through parser and buffer if and only if the fields can be told apart and the first one fits |
| StringBuffers.ShortAppends | src/utils/string-buffer.c:15-49 | an append no longer than the capacity never overruns |
| Decimal.WordLength | src/utils/string-buffer.c:164-182 | the text of a 64-bit integer, signed or not, has at most 20 characters |
| Decimal.SignedBack | src/utils/string-buffer.c:175-182 | the sign and the digits of a printed integer give it back |
| ChannelLabels.ParseChannelLabel | src/session/session-pc.c:181-213 | accepts exactly the client prefix and one or more digits, and returns their value modulo 2^64 |
| ChannelLabels.LabelRoundTrip | src/session/session-pc.c:181-213 | undoes printing exactly for the indices below 2^64 |
| ChannelLabels.ServerLabelFits | src/channel/channel-dc.c:236-244 | the label of the server fits its buffer exactly for the indices below 10^11 |
| PingPong.HeaderFields | src/session/session.c:450-492 | the opcode and both widths are read back from a header as they were written |
| PingPong.SendPing | src/session/session.c:433-464 | a ping is built within nine bytes; PingPong.PingReads says what it holds |
| PingPong.SendPong | src/session/session.c:467-514 | a pong is built within seventeen bytes; PingPong.PongReads says what it holds |
| PingPong.PingReads | src/session/session.c:433-464 | a ping is its header, with the low three bits clear, and its sequence in as many bytes as the header says |
| PingPong.PongReads | src/session/session.c:467-514 | a pong is its header, the sequence and then the time, each read back in as many bytes as the header says, and no byte more |
| PingPong.PingComesBack | src/session/session.c:227-260 | every ping passes its gate and is answered with its sequence, and every such answer passes its gate and brings the sequence back |
| PingPong.ProcessedShape | src/session/session.c:534-608 | a message is answered with a sequence, or measured against it, if and only if it has the opcode, the length, and the bytes of that sequence |

## Left out

Assumptions on the environment:

* An rtc object posts at most one closed event, and nothing after it; a data channel opens once;
  the WSS reports no client once it is stopped, which returns when no callback of it runs any more
  (`TaskQueue.LastSubmission` says what follows for the order of the tasks). For a channel this
  means one closed event for its two data channels together (`Counterexamples.SecondClosedBreaks`
  shows that the code needs it).
* The native server names only native sessions that were made, at any time from then on; asking one
  that is destroyed for its private data is a fault.
* A submission to the task queue succeeds, and so does spawning the worker of the WSS. The native
  executor is first in, first out; it accepts commands while a native socket is listening, and runs
  all that it has accepted.
* A failed acquire has no net effect. Lists and arrays fail harmlessly out of range.
* Native sockets come and go in matched pairs of listening and stopped, so that the counter of
  running sockets is the number of those listening.

Not modelled:

* The pools: a name is not given out twice while it is in use. Whether the pool of tasks clears what
  it hands out is left open, and `TaskQueue` holds for either.
* The wrappers of libdatachannel, libuv, threads and timers beyond signal, queue and live timers.
* Buffer references of messages: the early returns of the data channel keep them, and
  rtc_buffer_unref as written adds one.
* What candidates, negotiation and outgoing messages do beyond finding their objects: they leave
  the references alone.
* Contents of SDP and ICE, addresses, base64 and connect tokens: the decoded token is a parameter.
* The packing of 64-bit integers, which is a library's, is a parameter that lives up to
  `PingPong.Lawful`, as the least number of bytes, lowest first, does (`PingPong.LittleEndianLawful`).
* Round-trip statistics, logging, context creation and destruction.
- Runtime.Plugin.Advance: the objects are records of maps and not heap objects, because pools hand out the same memory again; aliasing is captured by names that are never reused.
- Theorems.RunFaults: overruns of string buffers are not part of the runs; StringBuffers says exactly when they happen.
- Frames.DescriptionRoundTrip: speaks of the parser alone; StringBuffers.ComesBack adds the string buffer that the first field is copied through.
- Drain.DrainDecreases: the measure is for a plugin whose sockets are all closed; for one closed socket among running ones only the end is described, by Drain.QuietSocketGone.
- TaskQueue.ExecutedPrefix: a callback is taken to read all of its arguments, in order, one at a time.
- Runtime.Plugin.SocketClose: says nothing about the state behind a fault.

# Verified model of the multi-client chat system

A Dafny 4.11 model of a small chat system written in C: three chat servers (one process per
client, one thread per client, one epoll loop), a discovery server that keeps names and
passwords, and the framed message format they share. The model follows the C code branch by
branch and states what the code guarantees for every input, every way the kernel may cut up
reads and writes, every run and, for the threaded server, every interleaving.

`dafny verify dfyconfig.toml` checks the whole project.

## Structure

| file | subject |
|---|---|
| `Bytes.dfy` | bytes, character arrays, C strings, `strncpy`, `memcpy` |
| `Codec.dfy` | the 76-byte header: packing, unpacking, and what a round trip does to a message |
| `Framing.dfy` | what a byte stream means; the blocking senders and receivers |
| `History.dfy` | log records and the excerpt cut out of a log by `fgets` |
| `Scanf.dfy` | the `sscanf` and `snprintf` formats of the credential strings |
| `ChatSpec.dfy` | the chat service: one request of one slot as a function on table, logs and outputs |
| `ServiceLaws.dfy` | what each request means to every client: who is told what, the list, the logs, over every run |
| `Delivery.dfy` | messages tagged with the step that caused them; order across receivers |
| `Chronicles.dfy` | what a run gives every session: requests, tagged messages, order, one reply each |
| `SlotIo.dfy` | the send queue and buffers of one epoll slot, over arrays; the fate of every message |
| `EpollLoop.dfy` | the epoll server's loop on values: drains, events, one connection among others |
| `EpollServer.dfy` | the epoll server: routing, draining, parsing, events |
| `ThreadRouter.dfy` | the router of the threaded server, run by one thread alone |
| `ThreadProtocol.dfy` | the threaded server as an interleaving of lock operations, looks, updates, saved records and partial writes |
| `ThreadLocks.dfy` | lock ownership and freedom from deadlock |
| `ThreadTable.dfy` | which thread has which slot |
| `ThreadSections.dfy` | sections under `table_lock` as steps of the service; unique names; serialisability |
| `ThreadPlans.dfy` | what a thread sends: its plan, who is reached, and on which connection |
| `ThreadEnds.dfy` | progress of every thread; how a lost connection ends |
| `ThreadAdmission.dfy` | the accepting thread: who is let in, and that nobody is forgotten |
| `ThreadDelivery.dfy` | frame atomicity at every connection |
| `ThreadLetters.dfy` | per-sender order, no duplicates, nothing made up |
| `ThreadReplies.dfy` | one answer per request |
| `ForkServer.dfy` | the fork server: parent router, pipes, and the relay of each child |
| `Discovery.dfy` | the registry array and the finite map it stands for |
| `Credentials.dfy` | a name and password from the client's keyboard to the validation verdict |

## How it is modelled

One function, `ChatSpec.Step`, says what a request of a slot does: the new table, the new logs
and the messages handed to slots, in order. The routers of the three servers are methods over
their own mutable state, each proved to compute that function (`selfOk` is the one difference:
the fork server lets a client log in again under its own current name). What the service
guarantees is then proved once, about the function and its runs. `ServiceLaws` says what a step
means to every client without leaning on how it is computed. `Chronicles` follows a run session
by session: its requests, and the messages it was handed, each tagged with the number of the
event that put it out. The epoll and the fork server carry a record of events, and their
invariants say that table, logs and everything handed to a connection are those of the chronicle
of these events; the table of the threaded server is that of the run through its completed
sections.

The epoll server adds the bytes. `Framing.Decode` is the meaning of a stream; the buffers, the
queue and its in-place compaction are arrays, and the kernel answers each `read` and `write` as
it likes within its contract. The invariant `EpollServer.Valid` is kept by every event: the
state is that of the chronicle, bytes taken and queued are the frames of the accepted messages,
EPOLLOUT is registered exactly while something is queued, and the requests acted on are the
decoding of the bytes received. What the events do to descriptors, waiting bytes and bytes read
is a function on values, `EpollLoop.React`; the methods are proved to follow it. A LOGOUT
destroys the slot inside its own parsing loop and leaves a negative length in the free slot; the
invariant speaks of slots in use only, and `Accept` repairs the rest.

The threaded server is a state machine. A step is one lock operation, one look at one slot, one
update under `table_lock`, one record saved, or one `write` of some bytes; a run is any list of
steps of any threads. A connection has an identity of its own and thread `t` serves connection
`t`. The field `base` remembers the table as it was when `table_lock` was last free, which is
what makes it possible to say that a section behaves like one step of the service. A broadcast
looks at the other slots one by one without the lock: a slot that logs in or out meanwhile may
or may not be reached, every other slot gets exactly what the service's step gives it.

Where the code and its documentation differ the model follows the code: the sender of a
broadcast does not get it back (the README's latency measurement speaks of an echo), and a
full send queue drops whole messages silently.

The verdict of `validate`, the formatted time, the clock and the bytes of an uninitialised
array are inputs. `World` gives each event its own clock reading.

## Model

| member | source | states |
|---|---|---|
| `Bytes.StrNCpy` | src/protocol.c:48-56 | the array after `strncpy`: everything before it kept, then the string cut at its first NUL or at n bytes and padded with NULs, nothing behind touched |
| `Bytes.CStrOfField` | src/protocol.c:48-56 | the C string in a cleared name field is the source string, cut to 31 bytes |
| `Bytes.CleanIffField` | src/protocol.c:48-56 | copying a name field into a cleared field of the same size gives the same bytes exactly when nothing but NULs follows its first NUL and its last byte is NUL |
| `Codec.WriteU64` | src/protocol.c:15-25 | the eight big-endian bytes at the offset, the rest of the buffer unchanged |
| `Codec.U64RoundTrip` | src/protocol.c:15-37 | reading back what was written gives the value, for every 64-bit value, and writing what was read gives the bytes, for every eight bytes |
| `Codec.U64IsNumeral` | src/protocol.c:15-37 | the eight bytes are the value written as a numeral to base 256, most significant byte first, and are read as such |
| `Codec.PackMessage` | src/protocol.c:39-74 | the array holds exactly the frame of the message, its length is returned, nothing past it is touched |
| `Codec.UnpackMessage` | src/protocol.c:76-106 | the message, or the error, that the bytes mean: too short a header, too long an announced payload, too few payload bytes |
| `Codec.PackUnpack` | src/protocol.c:39-106 | for every message, unpacking its frame succeeds and gives its normal form: names cut at their first NUL, payload cut at 1024 and zero-filled, type modulo 256 |
| `Codec.PackNormal` | src/protocol.c:39-106 | a message and its normal form have the same frame |
| `Codec.NormalCanonical` | src/protocol.c:39-106 | normalising is idempotent and leaves exactly the messages alone whose every byte is carried by the frame |
| `Codec.PackInjective` | src/protocol.c:39-106 | two messages have the same frame if and only if they have the same normal form |
| `Codec.RepackFrame` | src/chat_server_fork.c:193-256 | unpacking a frame and packing it again gives the same frame if and only if both of its names are clean, and doing it twice changes nothing more |
| `Codec.PLenOfPack` | src/protocol.c:62-66 | whatever follows a frame, its header announces its payload length, at most 1024 |
| `Codec.PrefixFree` | src/protocol.c:39-74 | no frame is a proper prefix of another: equal concatenations start with equal frames and go on equally |
| `Codec.MadeMessageSurvives` | src/protocol.c:165-185 | what `make_message` builds, with any status, arrives exactly as it was if and only if its type fits in a byte |
| `Codec.PayloadText` | src/protocol.c:179-184 | the payload string is read back from the payload array whenever it fits |
| `Framing.DecodeRest` | src/chat_server_epoll.c:267-278 | what a parser leaves over is never a whole frame, is shorter than one, or starts with a header announcing too much |
| `Framing.DecodeAppend` | src/chat_server_epoll.c:267-278 | parsing may stop anywhere and go on later: the messages of a stream are those of its first part followed by those of the tail left over plus the rest |
| `Framing.DecodeFrames` | src/protocol.c:128-162 | a concatenation of frames decodes to the messages sent, in normal form, with nothing left over |
| `Framing.UniqueDecoding` | src/protocol.c:128-162 | a concatenation of frames can be cut into frames in one way only |
| `Framing.DecodeTruncated` | src/protocol.c:109-125 | cut anywhere, a stream of frames still decodes to a proper prefix of its messages and a piece of the next frame, never to anything else |
| `Framing.UpToLogoutStops` | src/chat_server_thread.c:205-208 | a receive loop acts on everything up to and including the first LOGOUT |
| `Framing.Source.Read` | src/protocol.c:134-139 | the contract of a blocking `read`: some of the bytes ahead, a signal, or the end, and the buffer elsewhere untouched |
| `Framing.ReadFully` | src/protocol.c:133-159 | a read loop that retries on signals returns with exactly the bytes wanted, appended to those before, if and only if that many lie ahead |
| `Framing.RecvMessage` | src/protocol.c:128-162 | succeeds if and only if a complete frame of legal size lies ahead, returns its message and consumes exactly that frame |
| `Framing.PipeRecv` | src/chat_server_fork.c:193-210 | given that the next header is honest it stays inside its buffer, returns the same message and consumes the same bytes as `recv_message`; without signals it succeeds whenever a frame lies ahead |
| `Framing.RecvLoop` | src/chat_server_thread.c:204-208 | acts on exactly the decoded messages of the stream up to and including the first LOGOUT, however `read` cut it up |
| `Framing.Sink.Write` | src/protocol.c:117-122 | the contract of a blocking `write`: a prefix of what was offered, a signal, or a failure that is permanent |
| `Framing.SendMessage` | src/protocol.c:109-125 | the whole frame goes out, or a proper prefix of it and nothing ever again |
| `History.Fgets` | src/chat_server_epoll.c:230-230 | the bytes through the first newline, 255 at most |
| `History.ReadHistory` | src/chat_server_epoll.c:226-233 | the reading loop computes the excerpt of the log |
| `History.SavedGrows` | src/chat_server_epoll.c:124-132 | saving leaves every log as it was or extends it by whole newline-terminated records |
| `History.ChunksAppend` | src/chat_server_epoll.c:229-231 | the `fgets` chunks of a log of whole records only extend when the log grows |
| `History.KeptGreedy` | src/chat_server_epoll.c:229-231 | the excerpt is the longest run of leading chunks whose running total stays below the limit: the first one refused would not have fitted |
| `History.ExcerptMonotone` | src/chat_server_epoll.c:226-233 | as a log grows its excerpt only extends, stands still once a chunk was refused, is a prefix of the log and has at most 1022 bytes |
| `ChatSpec.FindUser` | src/chat_server_epoll.c:72-76 | the scan returns the first active slot of the name, or -1 |
| `ChatSpec.FindFromSpec` | src/chat_server_epoll.c:72-76 | the slot found is active and carries the name, no earlier one does, and -1 means none does |
| `ChatSpec.ListUsers` | src/chat_server_epoll.c:212-219 | the loop with its bounded appends builds the complete list; nothing is ever cut |
| `ChatSpec.UserListFits` | src/chat_server_epoll.c:212-219 | with a well-formed table the list of n slots has at most 44 n bytes, so it always fits |
| `ChatSpec.StepKeeps` | src/chat_server_epoll.c:147-248 | every request keeps active names distinct and well-formed and statuses in range, and extends logs only by whole records |
| `ChatSpec.RunKeeps` | src/chat_server_epoll.c:134-248 | the same over every sequence of requests, lost, cleared and new connections; the runs of the epoll and fork servers and the table of the threaded server are such runs |
| `ChatSpec.RunConcat` | src/chat_server_epoll.c:324-366 | a run of the service can be cut anywhere: its table, logs and outputs are those of the second part started where the first ends |
| `ChatSpec.LogsMonotone` | src/chat_server_epoll.c:124-236 | as logs grow by whole records, the history excerpt of a name only extends, and stands still once a line was refused |
| `ChatSpec.HistoryMonotone` | src/chat_server_epoll.c:124-236 | so it does over every run of the service |
| `ChatSpec.ToOthersReach` | src/chat_server_epoll.c:190-191 | a broadcast reaches every other active slot exactly once, and never its sender |
| `ChatSpec.StepAnswers` | src/chat_server_epoll.c:147-248 | the last message of a step is the answer to its own slot, of the type and status the request calls for; no other message of it is an answer; LOGOUT has none |
| `ChatSpec.StepReplies` | src/chat_server_epoll.c:147-248 | each slot gets exactly one answer per request of its own and none for requests of others |
| `ChatSpec.SelfLoginDiffers` | src/chat_server_fork.c:95-99 | the fork router and the other two give different results if and only if the request logs in under the name its own slot already has |
| `ServiceLaws.LoginLaw` | src/chat_server_epoll.c:154-173 | a login is granted exactly for a readable string, a name nobody else has and a favourable verdict; then the slot shows the user, available, and gets one acknowledgement; otherwise nothing changes and the slot gets one error with the reason; nobody else gets anything |
| `ServiceLaws.LogoutLaw` | src/chat_server_epoll.c:175-180 | every other logged-in slot gets one note, from the server, saying that the name the slot had has left, and nobody else gets anything; the slot is logged out and nameless, nothing else changes |
| `ServiceLaws.LossLaw` | src/chat_server_epoll.c:134-143 | when a connection is lost every other logged-in slot gets one note saying that the name the slot had is disconnected, exactly if the slot was logged in, and nobody gets anything else; the slot is free, nothing else changes |
| `ServiceLaws.QuietLaw` | src/chat_server_epoll.c:347-353 | a new connection or a silent clearing sends nothing to anybody and touches no other slot |
| `ServiceLaws.BroadcastLaw` | src/chat_server_epoll.c:183-193 | a broadcast of a logged-in slot goes unchanged to each other logged-in slot once, and the sender gets one acknowledgement; from any other slot nothing happens but one error to it |
| `ServiceLaws.PrivateLaw` | src/chat_server_epoll.c:195-210 | a private message from a logged-in slot goes unchanged to the one logged-in slot of the receiver's name and to nobody else; the sender then gets one acknowledgement |
| `ServiceLaws.PrivateRefused` | src/chat_server_epoll.c:195-203 | a private message to a name nobody has, or from a slot not logged in, changes nothing; the sender gets one error with the reason, nobody else gets anything |
| `ServiceLaws.StatusLaw` | src/chat_server_epoll.c:238-243 | the status becomes the one the first four bytes of the payload name, "available" if they name none; nothing else changes, and the slot alone gets one acknowledgement |
| `ServiceLaws.UnknownLaw` | src/chat_server_epoll.c:244-247 | a request of no known type changes nothing and gets one error |
| `ServiceLaws.ActivesAre` | src/chat_server_epoll.c:214-218 | the slots listed are the logged-in ones, in slot order, none missing, repeated or added |
| `ServiceLaws.ListLaw` | src/chat_server_epoll.c:212-223 | the answer to LIST_USERS, to the asker alone, is name and status of each logged-in slot joined by commas, never cut |
| `ServiceLaws.StatusOfRun` | src/chat_server_epoll.c:238-243 | in every run the status of a slot is the one its last STATUS_CHANGE asked for, or available if it has logged in, or the slot was given out or lost, since |
| `ServiceLaws.ListOfRun` | src/chat_server_epoll.c:212-223 | in every run the list shows each logged-in user with the status the events call for |
| `ServiceLaws.SavedLine` | src/chat_server_epoll.c:124-132 | saving adds one line, with its time, its receiver if it has one, its text and a newline, to the log of the sender and to no other |
| `ServiceLaws.LogOfRun` | src/chat_server_epoll.c:124-132 | in every run the log of each name is, line by line and in order, the broadcasts and the delivered private messages sent under that name from logged-in slots, and nothing else |
| `ServiceLaws.ChunksArePieces` | src/chat_server_epoll.c:230-230 | `fgets` cuts a log into pieces of at most 255 bytes that end with a newline, after 255 bytes or with the log |
| `ServiceLaws.HistoryOfRun` | src/chat_server_epoll.c:225-236 | in every run the answer to HISTORY_REQ, to the asker alone, is as many whole pieces of the lines of the name it gives as stay below 1023 bytes, or "No history." if that is none |
| `SlotIo.Link.Write` | src/chat_server_epoll.c:36-39 | the contract of a non-blocking `write`: a non-empty prefix, EAGAIN, or a failure that is permanent |
| `SlotIo.Link.Read` | src/chat_server_epoll.c:259-263 | the contract of a non-blocking `read`: some of what is available, then the way it ends |
| `SlotIo.SendBuf.Push` | src/chat_server_epoll.c:24-32 | the bytes join the queue whole or not at all, and are refused exactly when they do not fit behind what is queued, wherever that lies in the buffer |
| `SlotIo.SendBuf.Compact` | src/chat_server_epoll.c:26-28 | moving the queue to the front of the buffer leaves it as it was |
| `SlotIo.SendBuf.Flush` | src/chat_server_epoll.c:34-42 | bytes taken followed by bytes queued never change; the queue is empty exactly when 0 is returned, 1 exactly when the socket has just refused a write, -1 exactly when a write has just failed: a socket that keeps accepting empties the queue in one call |
| `SlotIo.Channel.SendDirect` | src/chat_server_epoll.c:89-96 | the bytes written are a prefix of the frame; the loop ends with all of it written, exactly when the socket refuses a write, or exactly when a write fails, after which the connection is broken |
| `SlotIo.Channel.Transmit` | src/chat_server_epoll.c:83-102 | the frame follows everything queued, is refused whole exactly when the queue is non-empty and it does not fit or when the connection has failed, and EPOLLOUT is registered exactly while something is queued; behind an empty queue bytes are queued exactly when the socket refused a write |
| `SlotIo.Channel.Send` | src/chat_server_epoll.c:83-102 | keeps output integrity and records the fate of the message: dropped exactly when the queue is non-empty and has no room for its frame, or is empty and the connection had failed; the fates recorded so far stay possible ones; an empty queue becomes non-empty exactly when the socket refused a write |
| `SlotIo.Channel.FlushOut` | src/chat_server_epoll.c:281-287 | keeps output integrity and the bytes in order; 0 exactly when the queue is empty, 1 exactly when the socket refused a write, -1 exactly when a write failed |
| `SlotIo.Channel.Fill` | src/chat_server_epoll.c:256-264 | the drain ends in EAGAIN with the buffer holding the leftover and all that was available if and only if they are shorter than the buffer and the socket says so; in every case exactly as many bytes are read as there is room for |
| `SlotIo.Channel.Shift` | src/chat_server_epoll.c:276-277 | exactly the frame is removed from the front; the length may go below zero after LOGOUT |
| `SlotIo.Channel.Clear` | src/chat_server_epoll.c:142-142 | the zeroed slot: free, nothing received, queued or registered |
| `SlotIo.Channel.Open` | src/chat_server_epoll.c:347-353 | a fresh session: nothing sent, received, handed over or queued |
| `Chronicles.PairedAfter` | src/chat_server_epoll.c:147-248 | one answer per request so far stays true across a step of any slot, whatever else the step hands over |
| `Chronicles.ChronicleIsRun` | src/chat_server_epoll.c:324-366 | the chronicle of a run, which adds to the service the sessions and what each was handed, has the table and the logs of the run |
| `Chronicles.LifeIsRun` | src/chat_server_epoll.c:324-366 | in every run the present session of a slot has acted on exactly the requests of its slot, and been handed exactly what the service has put out for its slot, since the last new connection there |
| `Chronicles.FinishedWas` | src/chat_server_epoll.c:134-143 | an ended session is what the present session of its slot was at the moment of its loss |
| `Chronicles.TagIsEvent` | src/chat_server_epoll.c:83-102 | every message handed to a session, present or ended, is one that the event numbered by its tag puts out for the slot of the session |
| `Chronicles.LivesInOrder` | src/chat_server_epoll.c:183-193 | every session, present or ended, was handed its messages in the order of the events |
| `Chronicles.LivesPaired` | src/chat_server_epoll.c:147-248 | in every run, of whichever server, every session has been handed one reply for each of its requests but LOGOUT, in order, and no other |
| `Delivery.HandingOne` | src/chat_server_epoll.c:83-102 | handing one more message to a slot extends that slot's list and no other |
| `Delivery.SameOrder` | src/chat_server_epoll.c:183-193 | if two clients both get something of two steps they get it in the same order, whatever either has missed |
| `EpollServer.Server.SlotSend` | src/chat_server_epoll.c:83-102 | every queue keeps output integrity, the message is recorded as handed to that slot, and it is dropped exactly by the rule; an empty queue becomes non-empty exactly when the socket refused a write; nothing of another slot is dropped |
| `EpollServer.Server.SendOthers` | src/chat_server_epoll.c:190-191 | the message is handed to the other active slots in slot order |
| `EpollServer.Server.ProcessLogin` | src/chat_server_epoll.c:154-173 | refines the service's login |
| `EpollServer.Server.ProcessLogout` | src/chat_server_epoll.c:175-179 | refines the service's logout |
| `EpollServer.Server.ProcessBroadcast` | src/chat_server_epoll.c:183-193 | refines the service's broadcast |
| `EpollServer.Server.ProcessPrivate` | src/chat_server_epoll.c:195-210 | refines the service's private message |
| `EpollServer.Server.ProcessKinds` | src/chat_server_epoll.c:147-248 | the same table, logs and messages to the same slots in the same order as one step of the service |
| `EpollServer.Server.StepRequest` | src/chat_server_epoll.c:147-248 | the request becomes one more event of the run and every invariant is kept: table and logs are those of its step, and every session is handed exactly its share of the step's outputs |
| `EpollServer.Server.ProcessMessage` | src/chat_server_epoll.c:147-248 | the request as one more event of the run, and after LOGOUT the loss of the slot as another: every invariant is kept, so table, logs and what every session has been handed are again those of the run; the slot then is free with an empty buffer and its session has joined the closed ones |
| `EpollServer.Server.DisconnectClient` | src/chat_server_epoll.c:134-143 | the service's loss of a connection, the slot cleared, the ended session recorded as it was, the other slots still in use |
| `EpollServer.Server.Drop` | src/chat_server_epoll.c:134-143 | the loss of a connection as one more event of the run: every invariant is kept, so the others have been handed the note and nothing else, and the session has joined the closed ones exactly as it was; no write of the lost connection is counted as failed |
| `EpollServer.Server.TakeFrame` | src/chat_server_epoll.c:268-277 | the first frame becomes an event of the run and is removed; after LOGOUT the loss follows as another, and the free slot is left with a negative length |
| `EpollServer.Server.Turn` | src/chat_server_epoll.c:267-278 | one round of the parsing loop lowers the length by at least 76 and makes the next message of the stream an event of the run, even when LOGOUT destroys the slot inside it |
| `EpollServer.Server.ParseLoop` | src/chat_server_epoll.c:267-278 | the loop ends with no complete frame left in a live slot, or with the slot dropped, as the meaning of the buffered bytes says; the run has gained exactly the events this amounts to |
| `EpollServer.Server.Receive` | src/chat_server_epoll.c:256-264 | the drain goes on to parsing if and only if leftover and available bytes are shorter than the buffer and end in EAGAIN; the session has received exactly the bytes there was room for |
| `EpollServer.Server.ReadSlot` | src/chat_server_epoll.c:252-279 | the run gains exactly the requests decoded from leftover and new bytes up to the first LOGOUT, and the loss if the drain ends the connection, which lack of room, EOF and an error do before any request; every invariant is kept, so table, logs and what every session has been handed are those of the run; the session has received exactly the bytes there was room for, the undecoded tail remains in the buffer, and if it is over it has joined the closed ones |
| `EpollServer.Server.HandleRead` | src/chat_server_epoll.c:252-279 | the same for the slot that owns the descriptor, the other connections as they were, and nothing at all if no slot does |
| `EpollLoop.OneFrameFits` | src/chat_server_epoll.c:256-264 | a client with at most one frame outstanding is never cut off for lack of room |
| `EpollServer.Server.WriteSlot` | src/chat_server_epoll.c:281-287 | the connection is lost if and only if a write has failed, and then its session has ended with bytes unsent; otherwise the order of the bytes is kept, EPOLLOUT stays registered exactly while something is queued, and the queue is empty unless the socket has just refused a write |
| `EpollServer.Server.HandleWrite` | src/chat_server_epoll.c:281-287 | the same for the slot that owns the descriptor, the other connections as they were, and nothing at all if no slot does |
| `EpollServer.Server.FindByFd` | src/chat_server_epoll.c:67-71 | a used slot with that descriptor, the first one, or -1 exactly when there is none |
| `EpollServer.Server.FindFree` | src/chat_server_epoll.c:77-80 | the first slot not in use, or -1 exactly when all are |
| `EpollServer.Server.Accept` | src/chat_server_epoll.c:336-354 | the first free slot, if there is one, gets the descriptor and a fresh session, as one event of the run, repairing whatever LOGOUT left in it; the other descriptors, buffers and slots stay; -1 exactly when all are in use |
| `EpollServer.Server.HangUp` | src/chat_server_epoll.c:359-362 | the slot of a descriptor in error is lost as the service says, and no other connection changes |
| `EpollServer.Server.Listen` | src/chat_server_epoll.c:332-356 | the first free slot, if there is one and the descriptor is new, gets the descriptor, as one event of the run; otherwise nothing happens |
| `EpollServer.Server.OnWritable` | src/chat_server_epoll.c:365-365 | a flush is nothing to the service and to the connections, or, if and only if a write of it fails, one loss |
| `EpollServer.Server.OnReady` | src/chat_server_epoll.c:364-365 | an event both readable and writable is the drain followed, if the connection is still there, by the flush, exactly as `React` says |
| `EpollLoop.DrainIsRun` | src/chat_server_epoll.c:252-279 | a drain is a run of the service through its events |
| `EpollServer.Server.Dispatch` | src/chat_server_epoll.c:328-365 | every event keeps every invariant, moves descriptors, waiting bytes, bytes read in live and ended sessions and the count of events exactly as the value function `React` says, and extends the run by exactly the events `React` says it stands for; the flag says whether a write failed in `handle_write` |
| `EpollServer.Server.Run` | src/chat_server_epoll.c:324-366 | after every sequence of events every invariant holds, so table, logs and what every session has been handed are those of the run; the run, descriptors, waiting bytes and the bytes read in every live and ended session are exactly those computed from the events and from which flushes failed, and that many failed writes were met; every history excerpt extends the earlier one |
| `EpollLoop.OneReadOrTwo` | src/chat_server_epoll.c:252-279 | what two readiness events in a row deliver to a connection might as well have come with one: the same requests, the same loss, the same bytes left, whatever the cut, while the buffer has room |
| `EpollLoop.TwoDrains` | src/chat_server_epoll.c:252-279 | a drain cut in two serves the same requests, ends the connection or not alike and leaves the same tail |
| `EpollLoop.WhoIsLost` | src/chat_server_epoll.c:252-287 | an event ends a session exactly on an error or hang-up, when the bytes outgrow the buffer, at end of file or a read error, at a LOGOUT, at a header announcing too much, or when a flush meets a failed write; its loss comes last, after the requests decoded; no other connection changes |
| `EpollLoop.ReactReady` | src/chat_server_epoll.c:364-365 | a readiness event is the drain followed by the flush for the same descriptor |
| `EpollLoop.OneConnection` | src/chat_server_epoll.c:252-279 | over any sequence of events, whatever those of other connections lie between, a connection that is still there has acted on exactly the requests that all the bytes of its readiness events together spell out and holds the rest; one that was lost on the way acted on a prefix of them, nothing after a LOGOUT |
| `EpollServer.Server.constructor` | src/chat_server_epoll.c:305-305 | the zeroed table satisfies every invariant |
| `EpollServer.Server.OutputIntegrity` | src/chat_server_epoll.c:83-102 | in every state between events, the messages handed to a live connection are exactly what the run has put out for its slot since the session began, and its requests those of its slot; each message has met a fate the drop rule allows, given how many bytes were accepted before it; bytes taken followed by bytes queued are the frames of those not dropped, or, where a write failed with nothing queued, all those frames but part of the last are out; the peer decodes a prefix of them, and EPOLLOUT is registered if and only if the queue is non-empty |
| `EpollServer.Server.EndedSession` | src/chat_server_epoll.c:134-143 | an ended session acted on exactly the requests, and was handed exactly the messages, that the run gave its slot between its beginning and its loss; the requests are a prefix of those its bytes spell out, nothing after a LOGOUT; bytes sent and still queued are the frames of the messages not dropped by the rule, and what its peer decodes is a prefix of these |
| `EpollServer.Server.ReplyPairing` | src/chat_server_epoll.c:147-248 | in every state between events the answers handed to a live session are one per request of its slot in the run since it began, in order; an ended session had one for each but its LOGOUT |
| `EpollServer.Server.InputAccounted` | src/chat_server_epoll.c:252-279 | the requests acted on and the leftover are the decoding of all bytes received, which are those of the events since `Run` equates them, however they were cut up; the leftover is shorter than one frame |
| `EpollServer.Server.TakenAreOutputs` | src/chat_server_epoll.c:83-102 | what a session, live or ended, has accepted are outputs of the run for its slot, each of the event its tag numbers, in the order of these events |
| `EpollServer.Server.OneOrder` | src/chat_server_epoll.c:183-193 | any two sessions, live or ended, that accepted outputs of the same two events of the run accepted them in the order of these events |
| `ThreadRouter.ThreadServer.Route` | src/chat_server_thread.c:84-195 | run alone, refines the same step with the same messages in the same order, keeps the table well-formed and returns with every lock released |
| `ThreadRouter.ThreadServer.RouteLogin` | src/chat_server_thread.c:90-113 | refines the service's login on every one of its four exits |
| `ThreadRouter.ThreadServer.RouteLogout` | src/chat_server_thread.c:115-122 | refines the service's logout |
| `ThreadRouter.ThreadServer.RouteBroadcast` | src/chat_server_thread.c:124-134 | refines the service's broadcast |
| `ThreadRouter.ThreadServer.RoutePrivate` | src/chat_server_thread.c:136-153 | refines the service's private message |
| `ThreadLocks.LocksKept` | src/chat_server_thread.c:84-226 | every step of every thread leaves every lock held exactly by the thread whose program counter says so |
| `ThreadLocks.AfterLocks` | src/chat_server_thread.c:84-290 | the same in every state reachable by any interleaving |
| `ThreadLocks.OneLockEach` | src/chat_server_thread.c:45-222 | no thread ever holds two locks, and a thread waits for a lock only while it holds none |
| `ThreadLocks.HolderMoves` | src/chat_server_thread.c:45-282 | the holder of a lock is never stuck: each of its steps gives the lock up or lowers a count of steps left, whatever its calls return |
| `ThreadLocks.HolderLetsGo` | src/chat_server_thread.c:45-282 | left to run, the holder of any lock gives it up within a bounded number of steps while the waiting thread goes on waiting |
| `ThreadLocks.NoDeadlock` | src/chat_server_thread.c:45-282 | in every reachable state a lock somebody waits for is free, or held by a thread that waits for nothing and gives it up by itself |
| `ThreadLocks.GrantableTakes` | src/chat_server_thread.c:46-46 | one step of a thread waiting for a free lock takes it |
| `ThreadTable.SeatsKept` | src/chat_server_thread.c:210-289 | a slot's descriptor is that of a connection given this slot, and a thread that has not given its slot back finds its own connection there |
| `ThreadSections.PhaseStep` | src/chat_server_thread.c:33-38 | one more look of a scan, or one more update, under `table_lock` keeps what the thread has found out true of the table as it was when the lock was taken |
| `ThreadSections.EndKeepsTable` | src/chat_server_thread.c:90-217 | every section ends with a well-formed table |
| `ThreadSections.OwnSlotStable` | src/chat_server_thread.c:124-141 | no other thread's section ever touches the slot of a thread that still has it, so its lock-free look at its own slot is sound |
| `ThreadSections.GoodKept` | src/chat_server_thread.c:84-290 | every step keeps locks, seats and sections as described |
| `ThreadSections.NamesStayUnique` | src/chat_server_thread.c:90-217 | in every reachable state active names are distinct and well-formed, even inside a section; whenever `table_lock` is free the table is fully well-formed |
| `ThreadSections.SectionIsStep` | src/chat_server_thread.c:84-195 | releasing `table_lock` completes exactly one step of the service on the table as it was on entry: the same table; with the table as it then is, the same messages planned for the same slots in the same order; and a record to be saved exactly when the step has one, the step's own whatever the logs are when it is saved |
| `ThreadPlans.StartIsStep` | src/chat_server_thread.c:84-193 | a request that needs no section is one step of the service as soon as it is read: the same messages planned, and a record to be saved exactly when the step has one, the step's own whatever the logs are when it is saved |
| `ThreadPlans.SavedLater` | src/chat_server_thread.c:72-80 | a thread about to save adds its record to the logs as it finds them, whatever the other threads have done meanwhile |
| `ThreadPlans.PrivateSaved` | src/chat_server_thread.c:136-149 | saved after `table_lock` is released and after any steps of other threads, the record of a private message makes the logs what the step of the service makes of them as they then are |
| `ThreadPlans.LogOfActs` | src/chat_server_thread.c:72-80 | in every interleaving the log of a name is exactly the lines saved under it, in the order of the saving |
| `ThreadPlans.PlanFollowed` | src/chat_server_thread.c:124-134 | in any interleaving a slot that does not itself log in or out is sent, by a thread on its way through its plan, exactly what the plan holds for it, whatever the rest of the table does |
| `ThreadPlans.LoopReaches` | src/chat_server_thread.c:51-55 | a finished plan that began with a loop over the other slots has sent the loop's message exactly once to each slot active all the while, and never to one inactive all the while or to the sender; beyond that each slot has been sent exactly what the rest of the plan holds for it |
| `ThreadPlans.BroadcastReaches` | src/chat_server_thread.c:124-134 | in any interleaving a finished broadcast has reached every other slot active all the while exactly once, none inactive all the while, and the sender has been sent its acknowledgement and nothing else |
| `ThreadPlans.PlanInOrder` | src/chat_server_thread.c:124-134 | while the whole table stays as it is, the sends begin in the order of the plan, across slots |
| `ThreadPlans.BegunIsHanded` | src/chat_server_thread.c:45-49 | in every reachable state a slot something is sent to has a connection, and beginning the send hands the message to that connection and no other |
| `ThreadPlans.SameConnection` | src/chat_server_thread.c:268-282 | a connection holds its slot for exactly as long as the accepting thread has not given the slot to another |
| `ThreadPlans.ReachesWhoWasFound` | src/chat_server_thread.c:136-153 | the message begun for a slot is handed to the connection that held the slot when the name was looked up if and only if the accepting thread has not given the slot to another in between |
| `ThreadSections.HistoryGrows` | src/chat_server_thread.c:72-80 | in every interleaving logs grow by whole records and history excerpts only extend |
| `ThreadSections.SectionClears` | src/chat_server_thread.c:210-222 | a lost connection clears its slot, and the announcement is planned exactly if it was logged in |
| `ThreadEnds.EveryStepCounts` | src/chat_server_thread.c:45-226 | every step of a thread that is neither in its receive loop nor done brings it nearer to one of the two, but while a lock it asks for is taken or a signal cuts a write short |
| `ThreadEnds.BackInTime` | src/chat_server_thread.c:204-226 | in any interleaving a thread takes at most a bounded number of its own steps before it is back in its receive loop or done |
| `ThreadEnds.LeavesInTime` | src/chat_server_thread.c:204-226 | a thread on its way out acts on no further request, and is done after a bounded number of its own steps |
| `ThreadEnds.ClearsAndTells` | src/chat_server_thread.c:210-224 | from the failed read on: the slot is given back with nobody shown in it, and each other slot that stands still is sent one note naming the user exactly if the user was logged in |
| `ThreadEnds.ConnectionLost` | src/chat_server_thread.c:204-224 | in every reachable state and every interleaving after it, a thread whose read fails acts on no further request and is done after at most a fixed number of its own steps; by then its slot has been given back with nobody shown in it, each other slot that stood still has been sent one note naming the user exactly if the user was logged in, and the connection is closed unless the slot has gone to another |
| `ThreadEnds.FarewellNames` | src/chat_server_thread.c:213-221 | the note comes from the server and begins with the name; it is the name and "disconnected" for names of at most 30 bytes |
| `ThreadEnds.LogoutEnds` | src/chat_server_thread.c:204-224 | after a LOGOUT a thread acts on no further request and is done after a bounded number of its own steps |
| `ThreadEnds.ServedInTime` | src/chat_server_thread.c:84-208 | any other request takes the thread a bounded number of its own steps before it is back at its receive loop |
| `ThreadAdmission.Admission` | src/chat_server_thread.c:268-282 | in every reachable state a new connection is given the first slot not in use, and is told "Server full" only while every slot is in use |
| `ThreadAdmission.MainMovesOn` | src/chat_server_thread.c:260-290 | the accepting thread comes nearer to its next accept with every step, but while the table is locked or a signal cuts its write short |
| `ThreadAdmission.EverybodyServed` | src/chat_server_thread.c:260-290 | whenever the accepting thread waits for the next connection, every connection so far has a slot and a thread or has been closed |
| `ThreadSections.FarewellExact` | src/chat_server_thread.c:213-221 | the announcement is the same whatever the uninitialised array held, and then the one the service makes, if and only if the name has at most 30 bytes |
| `ThreadSections.Serializable` | src/chat_server_thread.c:84-290 | at every moment of every interleaving the table, as last left free, is that of the run of the service through the completed sections, one at a time in that order |
| `ThreadDelivery.WiresKept` | src/chat_server_thread.c:45-49 | every step of every thread keeps each connection's bytes whole frames in the order handed over, plus the beginning of the frame being written |
| `ThreadDelivery.FrameAtomicity` | src/chat_server_thread.c:45-49 | in every reachable state a receiver decodes exactly the first messages handed to its connection, in the order in which the lock was acquired for them, and nothing else; all of them if the connection is whole and nobody is writing |
| `ThreadLetters.LettersKept` | src/chat_server_thread.c:45-195 | every step keeps the order and the truth of what has been handed over |
| `ThreadLetters.SenderOrder` | src/chat_server_thread.c:124-153 | at every connection each client's messages come in the order it sent them, each at most once, and everything handed over is a request of the thread named or made by the server |
| `ThreadReplies.RepliesKept` | src/chat_server_thread.c:84-208 | every step keeps the balance of requests and answers |
| `ThreadReplies.ReplyPairing` | src/chat_server_thread.c:84-208 | in every reachable state the answers handed to a client's own connection, and to no other, are one per request in order, at most the last one missing, none once the thread is back at its receive loop |
| `ForkServer.Server.FindFreeSlot` | src/chat_server_fork.c:44-49 | the first slot neither active nor with a child, or -1 exactly when there is none |
| `ForkServer.Server.PipeSend` | src/chat_server_fork.c:51-55 | the pipe gains exactly the frame of the message, behind those waiting |
| `ForkServer.Server.RouteLogin` | src/chat_server_fork.c:89-109 | refines the service's login, one's own current name let through |
| `ForkServer.Server.RouteLogout` | src/chat_server_fork.c:111-122 | refines the service's logout |
| `ForkServer.Server.RouteBroadcast` | src/chat_server_fork.c:124-134 | refines the service's broadcast |
| `ForkServer.Server.RoutePrivate` | src/chat_server_fork.c:136-151 | refines the service's private message |
| `ForkServer.Server.RouteMessage` | src/chat_server_fork.c:83-189 | the same table, logs and messages to the same slots in the same order as one step of the service, as one more event of the run; every pipe stays a concatenation of frames |
| `ForkServer.Server.TakeFrame` | src/chat_server_fork.c:193-210 | takes the normal form of the first message of a pipe of frames and leaves the frames of the others |
| `ForkServer.Server.ParentStep` | src/chat_server_fork.c:357-369 | one more event of the run: serves the oldest request its child has passed up, in normal form, or, when the child has exited and nothing is left, clears the slot; table, logs and what every slot has been handed stay those of the run |
| `ForkServer.Server.ChildUp` | src/chat_server_fork.c:231-244 | passes up exactly the message `recv_message` reads, or, when the client is gone, a LOGOUT in its name |
| `ForkServer.Server.ChildDown` | src/chat_server_fork.c:247-252 | the client's socket is sent exactly the frame the parent first packed, although it was unpacked and packed again on the way, or takes a prefix of it and nothing ever again |
| `ForkServer.Server.DrainDown` | src/chat_server_fork.c:223-253 | all that waits in the pipe reaches the client in order, or a prefix of it if the connection fails |
| `ForkServer.Server.AcceptClient` | src/chat_server_fork.c:328-351 | the new child gets a slot, fresh pipes and a socket with no past, as one event of the run; none exactly when every slot is active or still has a child; the table stays |
| `ForkServer.RelayTransparent` | src/chat_server_fork.c:214-253 | after any number of hops a message is in normal form and has the frame one hop would give it |
| `ForkServer.StepAlike` | src/chat_server_fork.c:83-189 | requests that agree in type, payload, the C strings of their names and their frame have the same effect on table and logs and put the same frames on the same connections |
| `ForkServer.RoutedAlike` | src/chat_server_fork.c:193-210 | for every message that unpacks from a frame, routing its normal form does to table and logs what routing the message itself does, and puts the same frames on the same connections |
| `ForkServer.RunAlike` | src/chat_server_fork.c:83-189 | the same over whole runs: table and logs agree and every client is sent the same bytes, so that the fork server, which routes normal forms, and the other two serve alike |
| `ForkServer.OutputIntegrity` | src/chat_server_fork.c:214-253 | in every state what a client decodes of the bytes its socket has taken is the first of the messages handed to its slot, in normal form and in order, and all that left the pipe if the socket has not failed; and these are exactly what the run has put out for its slot since the connection was accepted |
| `ForkServer.ReplyPairing` | src/chat_server_fork.c:83-189 | in every state the answers among the messages handed to a slot are one for each of its requests routed since the connection was accepted, LOGOUT apart, in order |
| `ForkServer.BroadcastsInOneOrder` | src/chat_server_fork.c:124-134 | what a client decodes are outputs of the run for its slot, each of the event its tag numbers; any two clients that have decoded messages of the same two events decoded them in the order of these events |
| `ForkServer.HistoryGrows` | src/chat_server_fork.c:71-79 | a history excerpt extends that of any earlier state of the run |
| `Discovery.Registry.FindUser` | src/discovery_server.c:30-35 | the scan returns the first active record of the name, or -1 |
| `Discovery.FindInSpec` | src/discovery_server.c:30-35 | the record found is active and carries the name, no earlier one does, and -1 means none does |
| `Discovery.StandsFind` | src/discovery_server.c:30-35 | looking a name up in the array is looking it up in the map it stands for |
| `Discovery.StandsPut` | src/discovery_server.c:44-47 | overwriting the record of a name, or a free one, is updating the map, and names stay distinct |
| `Discovery.NamesCount` | src/discovery_server.c:41-42 | with distinct names the array is full exactly when it holds as many names as records |
| `Discovery.Registry.RegisterUser` | src/discovery_server.c:37-51 | the map gains or replaces the entry, and is refused exactly for a new name when 128 names exist |
| `Discovery.Registry.Handle` | src/discovery_server.c:57-121 | registry and response are those of the map for REGISTER, DISCOVER, VALIDATE and every other type |
| `Discovery.AfterKeeps` | src/discovery_server.c:74-84 | every request keeps registered names and passwords non-empty and within their arrays |
| `Discovery.HalfParsedIsRefused` | src/discovery_server.c:102-111 | a VALIDATE payload from which both fields cannot be parsed is always refused |
| `Scanf.LoginRoundTrip` | src/chat_client.c:71-72 | a login string is parsed back as printed if and only if the name has 1 to 31 bytes without a colon and the password 1 to 63 without white space |
| `Scanf.RegisterRoundTrip` | src/chat_client.c:54-55 | a registration string is parsed back as printed if and only if the name has 1 to 31 bytes, the password 1 to 63 and neither a colon |
| `Scanf.ScanLoginShape` | src/chat_server_epoll.c:155-156 | whatever the payload, the fields parsed fit their arrays and are non-empty exactly as the count says |
| `Scanf.ScanRegisterShape` | src/discovery_server.c:75-76 | whatever the payload, the fields parsed fit their arrays and are non-empty exactly as the count says |
| `Scanf.ReadPrintedInt` | src/chat_client.c:55-55 | every printed integer is read back |
| `Credentials.RegistrationRead` | src/chat_client.c:51-57 | what the client types arrives at the discovery server as typed |
| `Credentials.LoginRead` | src/chat_client.c:68-74 | what the client types arrives at the chat server, and what that prints at the discovery server, as typed |
| `Credentials.AcceptedIff` | src/chat_server_epoll.c:110-122 | whenever it is asked and answered, validation accepts if and only if the name is registered with that password |
| `Credentials.EntryStays` | src/discovery_server.c:37-51 | a registered entry survives every sequence of requests, from any addresses, that do not register the name again |
| `Credentials.LatestPassword` | src/discovery_server.c:74-84 | after a registration answered with success the registry holds its password until the name is registered again, whatever others do from wherever |
| `Credentials.LatestEntry` | src/discovery_server.c:37-51 | password, address and port of the latest successful registration are what the registry holds until the name is registered again |
| `Credentials.RegisterLaw` | src/discovery_server.c:74-84 | a registration that can be read and has room replaces or adds the entry of its name and no other and is acknowledged; any other changes nothing and is refused with the reason |
| `Credentials.QuestionLaw` | src/discovery_server.c:86-116 | no other request changes the registry; a validation is acknowledged exactly for a registered name with its password |
| `Credentials.DiscoverFinds` | src/discovery_server.c:86-101 | a lookup yields address and port of the name's latest registration, at any later time and after any other requests |
| `Credentials.DiscoverFails` | src/discovery_server.c:86-95 | a lookup of a name nobody has registered is refused |
| `Credentials.LoginDecided` | src/chat_server_epoll.c:154-173 | a well-formed login under a free name is decided by the verdict alone |
| `Credentials.CredentialsSurvive` | src/chat_client.c:51-80 | after a successful registration, at any later time and after any other requests, a login with a typed password takes the slot and is acknowledged if and only if it is that password; every party reads its own clock |

## Left out

- System calls: sockets, `epoll_wait`, `select`, `fork`, `mmap` and thread creation are replaced by nondeterministic results within their contracts; interrupted calls are bounded in number, and a write that has failed for good fails for ever.
- Fork process lifecycle: SIGCHLD clearing a slot in the middle of a step, pipes that are full in both directions, writes to a pipe that fail and descriptor leaks are not modelled, nor are failures of `pipe` and `fork` after a slot was found; pipes are FIFO queues that take every frame, and `FD_ISSET` is the choice of the next step.
- ForkServer.Server.ParentStep: reads of the parent's pipes are not interrupted by signals, because the code then gives up in the middle of a frame and offers no guarantee.
- Descriptor reuse: the threaded server gives its slot back before it closes `clients[s].sockfd`; the model closes whatever connection the slot holds by then, as the code does, but gives every connection its own identity, so a reused descriptor number never stands for two connections at once.
- Server shutdown: the signal handlers and the loops that close everything are not part of the state machines.
- Server full in the epoll and fork servers: the refusal written to a connection that gets no slot is not modelled there (it is in the threaded server).
- Verdicts in the threaded server: what the discovery server will say of a request's credentials is chosen when the request is read, not when it is asked for; every verdict remains possible.
- Clock: a request reads the clock once, and the fork server's LOGOUT loop, which reads it once per receiver, gives every receiver the same time.
- Files: paths, failures of `fopen` and `strftime` are left out; the logs are a map from name to bytes and saving a record or reading a log is one step.
- ThreadProtocol: the bytes of one `strncpy` or `memset` under `table_lock`, and one read of an `int` outside it, are single steps; the accepting thread's four updates of a slot after its descriptor are one step, because other threads look at them only under the lock.
- Codec.UnpackMessage: a payload of exactly 1024 bytes without a NUL is read by `sscanf` and `fprintf` beyond its array; the model's C strings stop at the end of the array.
- Scanf.RegisterRoundTrip: the port must print in at most 11 characters, which every 32-bit integer does; values that `%d` cannot represent are outside the C standard and are not modelled.
- Bit operations: shifts and masks of the header fields are written as division and remainder.
- Client struct: the routing fields of a slot and its descriptor and buffers are two objects, an element of an array and a `Channel`.
- Discovery server: it runs one thread per connection; `Discovery.Registry` serves one request after the other. Every access to the records lies in one critical section of `reg_lock` (src/discovery_server.c:38-48, 89-97 and 105-108), so the order of the requests is the order in which the lock is taken; that order itself is not modelled.
- Client program: the terminal, colours, commands, password entry and the receiving thread of `src/chat_client.c` are left out but for the three payloads it prints.
- Measurement: `src/benchmark.py` and the results are not modelled.
- Sender names: `msg->sender` is taken from the wire and tied to nothing, in the code as in the model.

# A verified model of the reverse tunnel

The reverse tunnel carries many user connections over one control connection
between a client and a server that has dialled it. This project models its
hand-written protocols in Dafny and proves their main properties for every
input, every interleaving and every run.

| file | what it models |
|---|---|
| `Basics.dfy` | options, octets, big-endian numbers |
| `MuxEnd.dfy`, `MuxLink.dfy`, `MuxSystem.dfy`, `MuxWire.dfy` | SOCKS streams over the control connection: one endpoint's goroutines, both ends of a connID, all connIDs together, and all of it over octets |
| `MuxComplete.dfy`, `MuxShutdown.dfy` | what such a system can always do: carry any two streams, and shut down |
| `SocksMux.dfy` | the mux registry as a class |
| `Framing.dfy` | length-prefixed messages and concurrent writers |
| `DropFolder.dfy`, `Receiver.dfy`, `Finalise.dfy`, `Sender.dfy`, `SplitSend.dfy`, `NameGate.dfy` | resumable file transfer |
| `RateLimit.dfy`, `Admission.dfy` | token buckets with idle eviction, the global cap |
| `Sni.dfy`, `Socks5.dfy` | the two byte parsers, against encoders |
| `Rendezvous.dfy`, `RouteIndex.dfy` | pending connections, routing maps |
| `Approval.dfy`, `KnownHosts.dfy`, `TrustGate.dfy` | operator approval and trust on first use |
| `Pool.dfy` | round-robin choice of a server session |

Verify with `dafny verify dfyconfig.toml`.

## How the model is built

**Concurrent code is a state machine.** Each goroutine is cut into atomic steps
at its lock boundaries, channel operations, pipe operations and connection
writes. A run is any sequence of actions; an action that is not enabled changes
nothing, so a theorem about `Run(actions)` for every `actions` is a theorem about
every interleaving. Invariants are stated per thread, per gate or per entry.

The multiplexer is built in four layers. `MuxEnd` has the goroutines of one
connection at one endpoint: the handler, the local reader with its bounded queue,
the mux writer, the receive copy and the part of the dispatch loop about this
connID. `MuxLink` joins two endpoints by a FIFO in each direction and proves what
no endpoint alone can know: registration happens before data on both sides,
because the client allocates before Connect and the server before Ready.
`MuxSystem` has all connIDs, one shared FIFO each way, one dispatch loop per side
that blocks while a pipe write is pending, other traffic and CloseAll; its
`Projection` shows that other connIDs only delay a link, which carries every
result of `MuxLink` over to the whole system. `MuxWire` replaces the messages in
flight by octets: frames go out in pieces under the write lock, writes break off,
and the peer parses. It refines `MuxSystem`, so integrity and graceful close hold of
the octets; and every run of `MuxSystem` whose messages fit is one of `MuxWire`.

Safety alone would also hold of a system that does nothing. So each protocol has the
other half as well: `MuxComplete` and `MuxShutdown` for the multiplexer,
`Sender.SelfHealing` and `Sender.ConflictsThenSent` for transfers,
`RateLimit.GrantedIff`, `TrustGate.OperatorDecides`, `Rendezvous.TokensMeet`,
`Approval.DecisionArrives`, `NameGate.TakesIff` and `Admission.AdmittedIffRoom` say
what must happen, after any run, and speak of replies, tokens and limits themselves.

**Sequential code is imperative.** Methods that update fields are methods of
classes, and loops are loops; each is proved equal to a specification function,
and the lemmas are about that function. The specification functions
(`Receiver.Serve`, `Sender.Turn`, `RateLimit.Touch`, `Socks5.Negotiate`,
`Sni.ParseHello`, `RouteIndex.AddHost`) have no rows of their own below.

**Abstractions.** The gob encoding of a message is its body. SHA-256 is an
injective function, with digests that belong to no file. A UUID is fresh: a
torn-down connID is not allocated again. Tokens of the rate limiter and times are
real numbers. `io.Pipe` is a rendezvous: a write ends when a reader has taken all of
it or the pipe is closed.
What the network, the disk, contexts and timers do is an argument of the step or
request concerned, so it is quantified over.

## Where the code and its documentation disagree

The model follows the code.

- `internal/filetransfer/protocol.go:22` calls the reported X-Offset the bytes held
  after the request. The receiver does not update its idea of the size after
  truncating (`internal/filetransfer/receiver.go:163`, 175 and 193), so after a
  rewind the reported offset is too large. `Receiver.ReportedOffsetIff` says when it
  is right, `Receiver.RewindMisreports` gives a wrong one, `Receiver.RewindHealsIff`
  says when a rewind delivers at once; the sender's loop makes up for it within two
  uploads (`Sender.SelfHealing`).
- `FILE_TRANSFER.md:123` and the comment at `internal/filetransfer/protocol.go:86`
  promise that an arriving file never overwrites one that is there. Two things break
  this. A file delivered under a name that ends in `.part` is itself taken for a
  partial upload of the shorter name: `Receiver.PartNamedDeliveryIsLost`, with the
  exact condition in `Receiver.DeliveryIsSafeIff`. And nothing orders the choice of a
  name and the rename between uploads of different names:
  `Finalise.RaceLosesDelivery`, with the exact condition in
  `Finalise.DeliverySurvivesIff`.
- `internal/control/approval.go:84` says that Decide returns true if the request was
  resolved. The send happens outside the lock, so the waiter may have been superseded,
  and its context may end before it takes the decision:
  `Approval.ReportedApprovalMayBeLost` and `Approval.ReportedApprovalMayExpire`, with
  the exact condition over runs in `Approval.ReportIsTrueIff`.
- `internal/tunnel/ctrl_registry.go:27` says that frames are atomic relative to one
  another. The lock alone does not give that: a write that breaks off inside its frame
  unlocks and lets the next writer in (`Framing.TornWriteMisleads`). It is true exactly
  of connections that take nothing more after such a write (`Framing.AtomicIff`). That
  is so of a connection whose write errors are permanent, as those of TLS are; it
  concerns a plain connection on which a write can fail and a later one succeed, for
  instance after a write deadline. `Framing.ReceivedUpToFirstTorn` holds regardless.
- `internal/client/pool.go:82` promises round-robin order. Across the wrap of the
  64-bit counter that needs a pool size that divides 2^64: `Pool.AlwaysFairIff`.
- The limiter's idle eviction is only invisible when an entry can fill up while idle:
  `RateLimit.EvictionInvisibleIff`.

## Model

| member | source | states |
|---|---|---|
| `MuxEnd.LocalKeeps` | internal/tunnel/relay_mux.go:35-107 | Every step of the handler, goroutine A, the mux writer and goroutine B keeps the endpoint invariant: frames sent obey the grammar, what was sent plus what is still queued or in hand is what was read, what was written locally plus the copy buffer is what left the pipe, and registration, program counter and goroutines agree |
| `MuxEnd.HandleKeeps` | internal/client/handler.go:324-350 | Handling Ready, Data or Close keeps the same invariant, provided data meets an allocated channel and no earlier Close |
| `MuxEnd.CloseIsLast` | internal/tunnel/relay_mux.go:94-101 | In a legal frame sequence nothing follows a Close |
| `MuxEnd.OpeningIsFirst` | internal/socks/client.go:148-162 | Connect from the client and Ready from the server come exactly once and first |
| `MuxEnd.ClientRelaysOnReady` | internal/socks/client.go:162-198 | The client starts relaying only by consuming a successful ready signal |
| `MuxLink.DataFindsChannel` | internal/control/handler.go:346-348 | Causality: whenever a data frame is next to be handled, on either side, its channel has been allocated and no Close came before it |
| `MuxLink.StepKeeps` | internal/tunnel/socks_mux.go:96-161 | Every step of either endpoint, every dispatch and every CloseAll keeps the two-endpoint invariant: endpoint invariants, FIFO order and the causality of Connect and Ready |
| `MuxLink.EndOfFileMeansClose` | internal/tunnel/relay_mux.go:94-103 | A receive copy that met end of file without CloseAll has handled the Close of its peer, everything sent has arrived, and the peer writer is finished |
| `MuxSystem.Projection` | internal/client/handler.go:324-350 | With all connIDs sharing one FIFO and one dispatch loop that blocks on a pipe write, every step of the whole system is, for each connID, one step of its own two-endpoint link or no step |
| `MuxSystem.RunKeeps` | internal/control/handler.go:284-312 | In every run, with any number of connIDs, the link invariant holds for each of them, the dispatch loop is blocked on exactly the pipe with a pending write, and the WaitGroup counts the live channels |
| `MuxSystem.StreamIntegrity` | internal/tunnel/relay_mux.go:49-92 | In every run and in both directions, the bytes written to one end of a connID are a prefix of the bytes read at its other end |
| `MuxSystem.GracefulClose` | internal/tunnel/relay_mux.go:94-103 | A receive copy that ended by end of file, without CloseAll on its side and without a failed data write on the other, has delivered exactly everything the other side read up to its end |
| `MuxSystem.NothingDroppedWhileLinked` | internal/tunnel/socks_mux.go:112-125 | While a channel is registered and no pipe write is pending, every payload dispatched for it went through its pipe |
| `MuxSystem.RegisteredBeforeData` | internal/socks/client.go:138-140 | When the next message on the connection is a data frame, its channel has been allocated and no Close preceded it |
| `MuxSystem.FrameGrammar` | internal/socks/client.go:148-198 | The frames of a connID are Connect, then Data frames and a Close from the client; one Ready, and only after success Data frames and a Close, from the server; and the client sends more than Connect only after Ready arrived |
| `MuxSystem.TeardownOnce` | internal/tunnel/socks_mux.go:96-110 | Each channel is torn down exactly once, after it left the map; the WaitGroup is the number of registered channels plus teardowns under way, so it is never negative |
| `MuxSystem.RemovedForGood` | internal/tunnel/socks_mux.go:70-94 | With connIDs fresh, a channel deleted from the map stays deleted, and for the same reason, over every continuation of the run |
| `MuxComplete.AnyStreamsGetThrough` | internal/tunnel/relay_mux.go:35-107 | Completeness: after any run with nothing in flight, for any two lists of non-empty payloads of at most 32768 octets and a connID not used before, there is a continuation after which both ends have read exactly these, both local connections got exactly what the peer read, both copies ended by end of file after the peer's Close, both handlers have returned, the WaitGroups are as before and no other connection has changed |
| `MuxComplete.RefusalEndsBoth` | internal/control/handler.go:366-377 | After any such run a connection whose target cannot be dialled ends on both sides: each handler has returned, each channel was registered and torn down once, and not a byte was relayed |
| `MuxComplete.RejectionEndsBoth` | internal/control/handler.go:332-341 | The same for a target that the server rejects, for which it registers no channel |
| `MuxComplete.ReceiveTouchesOne` | internal/client/handler.go:324-350 | After any run, handling a message takes it off the FIFO and touches no endpoint but the one it is about, and of that neither what it sent nor what it wrote locally |
| `MuxComplete.ConnectSpawns` | internal/control/handler.go:322-330 | After any run, a Connect that is received starts a handler on the server |
| `MuxComplete.ReadyIsKept` | internal/tunnel/socks_mux.go:129-144 | After any run, a ready signal is kept exactly by a client whose channel is registered and that has none yet |
| `MuxComplete.ReadyDecides` | internal/socks/client.go:162-198 | After any run, a waiting client with a registered channel that receives Ready relays after its next step if the signal says success, and leaves otherwise |
| `MuxComplete.DataIsOffered` | internal/tunnel/socks_mux.go:114-125 | After any run, data for a registered channel is offered to its pipe and blocks the dispatch loop; data for any other is dropped |
| `MuxComplete.CloseUnlinks` | internal/tunnel/socks_mux.go:148-161 | After any run, a Close takes its channel out of the map if it is there and leaves the handler alone |
| `MuxComplete.CloseAllUnlinks` | internal/tunnel/socks_mux.go:185-199 | After any run, CloseAll takes every channel out of the map and does nothing else |
| `MuxComplete.TeardownFollows` | internal/tunnel/socks_mux.go:105-109 | After any run, a channel out of the map can be torn down, which counts it once and lowers the WaitGroup by one |
| `MuxComplete.TeardownReleases` | internal/tunnel/socks_mux.go:107 | A pipe write that is pending when its channel is torn down ends and frees the dispatch loop |
| `MuxComplete.TeardownEndsCopy` | internal/tunnel/relay_mux.go:71-75 | A receive copy with nothing in its buffer ends by end of file once its channel is torn down |
| `MuxComplete.LocalWriteFails` | internal/tunnel/relay_mux.go:71-75 | A failed local write ends the receive copy with what it has written |
| `MuxComplete.QueueTakes` | internal/tunnel/relay_mux.go:46-63 | After any run, a payload that was read joins the queue to the mux writer unless that holds 64, which is as many as it ever does |
| `MuxComplete.OthersPass` | internal/client/handler.go:283-312 | Messages that are not about SOCKS connections take their place in the FIFO and are taken off it without touching any |
| `MuxShutdown.ShutdownEnds` | internal/tunnel/socks_mux.go:171-199 | After any run and CloseAll on one side, steps of the goroutines of that side alone, none of which gets anything written to the control connection, lead to a state in which every handler that was started has returned, every channel is torn down, the WaitGroup is zero and the dispatch loop is free |
| `MuxShutdown.HandlerEnds` | internal/tunnel/relay_mux.go:78-107 | The same for one connection, from each point of its handler, with whatever is in its hands and queues, and without touching the others |
| `MuxWire.Refinement` | internal/tunnel/ctrl_registry.go:27-33 | Every run in which frames go out under the write lock in arbitrary pieces, writes break off, and a dispatch loop takes a message only when ReadMessage can, is a run of the message system: the octets in flight are the frames of its messages in flight |
| `MuxWire.Realisation` | internal/protocol/framing.go:52-96 | The converse: every run of the message system whose messages fit into frames is, step by step, a run over octets, so completeness carries over |
| `MuxWire.TakesOldest` | internal/protocol/framing.go:71-96 | What a dispatch loop takes off the octets is always the oldest message in flight, whole |
| `MuxWire.WireIntegrity` | internal/tunnel/relay_mux.go:49-92 | Stream integrity over octets: however the frames of all connections are cut into writes and reads, what is written to one end of a connID is a prefix of what was read at its other end |
| `MuxWire.WireGracefulClose` | internal/tunnel/relay_mux.go:94-103 | The graceful close, over octets |
| `MuxWire.SimpleIsFaithful` | internal/protocol/framing.go:17-25 | There is a codec whose decoding inverts its encoding on all messages, which is all that is assumed of gob |
| `SocksMux.SOCKSChannel.TearDown` | internal/tunnel/socks_mux.go:105-109 | An open channel ends: done signalled, pipe closed, counted once |
| `SocksMux.SOCKSMux.NewChannel` | internal/tunnel/socks_mux.go:72-94 | Refuses a registered connID and changes nothing; otherwise registers a fresh open channel and raises the WaitGroup by one; every channel ever made is open exactly while registered |
| `SocksMux.SOCKSMux.Remove` | internal/tunnel/socks_mux.go:97-110 | Removes exactly this connID, ends exactly its channel, and is a no-op for an unknown connID (DeliverClose does the same) |
| `SocksMux.SOCKSMux.Deliver` | internal/tunnel/socks_mux.go:114-125 | Appends to the pipe of the one channel named, or fails for an unknown connID; no other channel changes |
| `SocksMux.SOCKSMux.DeliverReady` | internal/tunnel/socks_mux.go:129-144 | Keeps only the first ready signal of the one channel named |
| `SocksMux.SOCKSMux.CloseAll` | internal/tunnel/socks_mux.go:185-199 | Every channel ever registered has been ended exactly once, those that had ended before are untouched, the map is empty and the WaitGroup is zero |
| `Framing.Conn.ReadFull` | internal/protocol/framing.go:84-87 | Returns exactly the next n bytes, or fails at the end of the stream, however the network cuts the stream into reads |
| `Framing.WriteMessage` | internal/protocol/framing.go:52-65 | Succeeds if and only if the network takes all of the prefix and all of the body; then the frame is appended, otherwise the frame up to where the failing write stopped |
| `Framing.ReadMessage` | internal/protocol/framing.go:71-96 | Yields what Parse finds at the front of the stream, and on success leaves exactly what follows the frame |
| `Framing.RoundTripIff` | internal/protocol/framing.go:78-81 | A written message is read back, and leaves exactly what follows it, if and only if its encoding is at most MaxMessageSize |
| `Framing.OversizeFrame` | internal/protocol/framing.go:78-81 | A message is refused by its length exactly if that exceeds 1048576 and fits into the prefix |
| `Framing.FrameOctets` | internal/protocol/framing.go:52-65 | A frame, octet by octet: the length of the body, most significant octet first, and the body |
| `Framing.PartialFrame` | internal/protocol/framing.go:84-87 | No strict prefix of a frame yields a message |
| `Framing.FinishWire` | internal/tunnel/ctrl_registry.go:29-33 | Giving the lock back, after success or failure, keeps the wire equal to what the finished turns put there |
| `Framing.AtomicIff` | internal/tunnel/ctrl_registry.go:27-33 | In every run of writers whose messages fit, whatever breaks off, a reader gets exactly the messages whose whole frames went out, in lock order, if and only if the connection takes nothing more after a write that broke off inside its frame |
| `Framing.DeadInLockOrder` | internal/tunnel/ctrl_registry.go:27-33 | The half of it for connections that die: however writes are cut and wherever they fail, what is received is exactly the whole frames in lock order |
| `Framing.ReaderGetsLockOrder` | internal/tunnel/ctrl_registry.go:29-33 | On any connection, for every interleaving of writers whose prefix and body go out in arbitrary pieces and of failures between frames, the same holds; and the turns of each writer are in its own order |
| `Framing.ReceivedUpToFirstTorn` | internal/tunnel/ctrl_registry.go:29-33 | On any connection, whatever fails, every message whose frame went out before the first write that broke off inside a frame is received, in lock order |
| `Framing.TurnCompletes` | internal/tunnel/ctrl_registry.go:27-33 | After any run in which the lock is free, a writer with a message left can take it and put its whole frame on the wire, unless the connection has died of a torn write |
| `Framing.TornWriteMisleads` | internal/tunnel/ctrl_registry.go:29-33 | A concrete run on a connection that takes octets after a write that broke off behind its prefix: the lock is handed on, and the reader takes the whole next frame for the body of the lost message |
| `DropFolder.SanitizedNames` | internal/filetransfer/protocol.go:58-70 | A name is the result of sanitising some raw name if and only if it is a single path component: not empty, not a dot name, without slash, backslash or NUL |
| `DropFolder.DirectoriesAreDropped` | internal/filetransfer/protocol.go:58-70 | What comes out is the name after the last slash or backslash, whatever directories stand before it; it is refused exactly if it is a dot name or contains NUL |
| `DropFolder.PlainNameStays` | internal/filetransfer/protocol.go:58-70 | A valid name without surrounding space is its own sanitised name |
| `DropFolder.SpacesAreNoName` | internal/filetransfer/protocol.go:58-62 | Nothing but white space is refused |
| `DropFolder.CandidatesDistinct` | internal/filetransfer/protocol.go:93-96 | Different counters give different candidate names |
| `DropFolder.CandidateIs` | internal/filetransfer/protocol.go:93-96 | The form of a candidate: the counter in parentheses, before the last dot and what follows it, or at the end of a name without a dot |
| `DropFolder.CandidatesBounded` | internal/filetransfer/protocol.go:95-100 | If the first k candidates all exist, the directory holds at least k files; so the search ends |
| `DropFolder.FirstFree` | internal/filetransfer/protocol.go:95-100 | The name found is free, is a candidate, and every earlier candidate is taken |
| `DropFolder.UniquePath` | internal/filetransfer/protocol.go:89-101 | The loop ends, with a name that no file has: the name itself if free, else the first free candidate |
| `DropFolder.FinalNameIs` | internal/filetransfer/protocol.go:89-101 | A free name is kept, and a taken one gives way to the candidate with the smallest counter, from one up, that is free |
| `DropFolder.FinalNameNotPart` | internal/filetransfer/protocol.go:93-99 | A name without the suffix .part is never stored under a name that has it |
| `DropFolder.PartNameInjective` | internal/filetransfer/receiver.go:106 | Different names have different .part files |
| `Receiver.Receiver.Append` | internal/filetransfer/receiver.go:188-189 | Appends to .part the bytes of the body up to the room left, and none if the room is not positive |
| `Receiver.Receiver.StoreBody` | internal/filetransfer/receiver.go:164-193 | Truncates to the requested offset on a rewind, then appends at most total minus the size before the truncation; the file-system failures leave what the code leaves |
| `Receiver.Receiver.HandlePut` | internal/filetransfer/receiver.go:138-231 | The request is answered and the directory changed exactly as Serve says, in every branch including the failures |
| `Receiver.RefusalsIff` | internal/filetransfer/receiver.go:138-160 | An upload is answered as too large exactly if a limit is set and the announced total exceeds it, and as malformed exactly if its total, digest or offset is missing or negative; neither changes a file or delivers |
| `Receiver.ConflictIff` | internal/filetransfer/receiver.go:162-169 | Any other upload meets a conflict exactly if it starts beyond what is held; the reply has the held size and nothing changes |
| `Receiver.StoredOutcome` | internal/filetransfer/receiver.go:194-230 | Without failures of the file system, a stored upload is in progress exactly if the held size and the body do not reach the total; else a wrong digest removes .part and a right one delivers it |
| `Receiver.FaultsAreErrors` | internal/filetransfer/receiver.go:170-187 | A failure to truncate or to open is an internal error that delivers nothing and leaves what the code leaves |
| `Receiver.LateFaultsKeepPart` | internal/filetransfer/receiver.go:208-224 | A failure to hash or to rename a complete upload is an internal error that keeps .part complete |
| `Receiver.UnmetFaults` | internal/filetransfer/receiver.go:170-224 | A failure of a step that the upload does not come to makes no difference |
| `Receiver.NothingOverLimit` | internal/filetransfer/receiver.go:144-147 | With a positive limit, and from a directory within it, no sequence of uploads of any names ever makes a .part or a delivered file longer than the limit |
| `Receiver.OnlyOwnPart` | internal/filetransfer/receiver.go:162-224 | A PUT changes or removes no file but its own .part |
| `Receiver.DeliveredMatchesDigest` | internal/filetransfer/receiver.go:206-230 | A delivered file is new, hashes to the digest of its request, and its .part is gone |
| `Receiver.FilesStay` | internal/filetransfer/receiver.go:162-224 | No sequence of PUTs of names whose .part is not the file changes or removes it |
| `Receiver.DeliveriesAccumulate` | internal/filetransfer/receiver.go:206-224 | After any later PUTs of names whose .part is not the delivered file, that file is still there and still hashes to the digest of its request |
| `Receiver.DeliveryIsSafeIff` | internal/filetransfer/receiver.go:206-224 | A delivery is safe from all later uploads of valid names if and only if it was not stored as the .part of a valid name |
| `Receiver.DamagedIffPart` | internal/filetransfer/receiver.go:106 | An upload of some valid name can damage a file if and only if that file is the .part of a valid name |
| `Receiver.PartNamedDeliveryIsLost` | internal/filetransfer/receiver.go:206-217 | A concrete pair of uploads in which a delivered file, named with the suffix .part, is removed by the second |
| `Receiver.ReportedOffsetIff` | internal/filetransfer/receiver.go:189-204 | A partial PUT reports the size that .part has afterwards if and only if it did not rewind |
| `Receiver.RewindMisreports` | internal/filetransfer/receiver.go:189-204 | A concrete PUT that starts over with one octet while three are held reports four |
| `Receiver.ConflictResyncs` | internal/filetransfer/receiver.go:165-169 | A conflict changes nothing and reports the held size, smaller than the offset asked for; a PUT from that offset meets no conflict and only extends what is held |
| `Receiver.ResumeEqualsOneShot` | internal/filetransfer/receiver.go:182-230 | An upload that is cut after k bytes and resumed gives the same directory, reply and stored name as one that was never cut |
| `Receiver.RewindHealsIff` | internal/filetransfer/receiver.go:170-204 | A full PUT that rewinds delivers within the same request if and only if nothing is left to send and what is kept is the source |
| `Receiver.OtherPutKeepsIff` | internal/filetransfer/receiver.go:162-224 | A PUT of another name leaves .part a prefix of the source if and only if it does not deliver something else as that very .part |
| `Receiver.HonestKeeps` | internal/filetransfer/receiver.go:162-224 | With one source per name, any PUT, cut, rewinding, conflicting or failing, of this name or one that spares its .part, keeps .part a prefix of the source, and a file it delivers under this name is the source |
| `Receiver.PlainNamesSpare` | internal/filetransfer/receiver.go:106 | A PUT of a name without the suffix .part spares the .part of every other name |
| `Finalise.DeliverySurvivesIff` | internal/filetransfer/receiver.go:220-224 | With uploads in steps, from taking the gate to the rename, interleaved between names, a delivery survives whatever follows if and only if, when it is renamed into place, no other upload has chosen the same name and waits with other content |
| `Finalise.StaysIff` | internal/filetransfer/receiver.go:220-224 | A file keeps its content in every continuation if and only if nobody has chosen its name and holds other content |
| `Finalise.RaceLosesDelivery` | internal/filetransfer/receiver.go:220-224 | From any directory that holds a file but not its first alternative, an interleaving of two uploads with different content, of the taken name and of the alternative: both choose the alternative, and the second rename replaces the file that the first delivered |
| `Finalise.SerialIsServe` | internal/filetransfer/receiver.go:206-230 | Undisturbed, the steps of a delivering upload amount to the single step of the receiver |
| `Finalise.NotDeliveringIsStore` | internal/filetransfer/receiver.go:162-218 | A PUT that does not deliver does to the directory what one change of its .part does |
| `SplitSend.SplitDelivery` | internal/filetransfer/sender.go:65-110 | SafeDelivery with uploads in steps: for every interleaving of the gates, stores, choices and renames of all handlers with those of this upload, and every cut, lost request and reply and failure, as long as whoever uploads under the name uploads the source and no rename under it has a rival, .part stays a prefix of the source, every delivery under the name is the source and stays whatever follows, and success means that there was one |
| `SplitSend.TurnSafe` | internal/filetransfer/sender.go:79-110 | Each round of the loop keeps this and only adds to the deliveries |
| `SplitSend.AloneIsTurn` | internal/filetransfer/sender.go:79-110 | A round in which nobody else acts is the round of the one-step session, so its bound and its self-healing carry over |
| `Sender.LoopBound` | internal/filetransfer/sender.go:62-111 | Whatever the server answers, the loop runs at most 3*(MaxRetries+1)+4 rounds |
| `Sender.BoundIsTight` | internal/filetransfer/sender.go:62-111 | For every retry budget some sequence of answers makes the loop run exactly that many rounds |
| `Sender.ReplyCosts` | internal/filetransfer/sender.go:66-110 | Which round costs what, by the reply itself: a conflict keeps the attempts and counts one conflict, up to 2*(MaxRetries+1)+4 of them; a complete upload succeeds; everything else, a lost query, upload or reply, an error, a partial upload, spends one attempt; a cancellation stops |
| `Sender.ConflictsThenSent` | internal/filetransfer/sender.go:99-104 | With any retry budget, any number of rounds up to the bound that are answered by a conflict, followed by an undisturbed round over a .part that is a prefix, end in success |
| `Sender.RewoundConflicts` | internal/filetransfer/sender.go:99-104 | Such rounds exist: a round between whose query and upload another sender starts over meets a conflict |
| `Sender.DefaultRetries` | internal/filetransfer/sender.go:34-36 | Without options the loop survives five failures and not six; any other number of retries is taken as it is |
| `Sender.SafeDelivery` | internal/filetransfer/sender.go:65-110 | From any .part that is a prefix of the source, for every sequence of cuts, lost requests and replies, failures and other PUTs that announce the same source under this name or, under another, neither deliver as its .part nor take one of its deliveries for theirs: .part stays a prefix, every delivery under the name is the source and stays in place, and success means that there was one |
| `Sender.PlainWeatherIsAllowed` | internal/filetransfer/sender.go:65-110 | If nobody uploads under a name that ends in .part, the condition of SafeDelivery on other PUTs holds in every round |
| `Sender.FirstTurn` | internal/filetransfer/sender.go:79-98 | One undisturbed round from any .part whatsoever: it succeeds exactly when what is held is a prefix of the source or the source is empty, and otherwise removes .part and spends one attempt |
| `Sender.OneUploadIff` | internal/filetransfer/sender.go:79-98 | In a fault-free channel one upload is enough if and only if what is held is a prefix of the source or the source is empty |
| `Sender.SelfHealing` | internal/filetransfer/sender.go:59-111 | From any .part, with at least one retry, a sole sender in a fault-free channel succeeds within two uploads and the source is in the directory |
| `Sender.SessionBudgets` | internal/filetransfer/sender.go:62-110 | Against the modelled receiver the loop spends one unit of one of its two budgets per round |
| `Sender.Attempt` | internal/filetransfer/sender.go:114-181 | One round, query then upload then classification, changes the directory as Turn says and yields the outcome that Turn advances by |
| `Sender.Retry` | internal/filetransfer/sender.go:62-111 | The loop ends within the bound, and directory and verdict are those after as many rounds |
| `Sender.SendFile` | internal/filetransfer/sender.go:30-112 | The session ends within the bound in the directory and with the verdict that After describes |
| `NameGate.RunKeeps` | internal/filetransfer/receiver.go:72-96 | In every interleaving of acquire and release the gate count is the number of handlers between them, and each of those uses the gate in the map |
| `NameGate.OneHolderPerName` | internal/filetransfer/receiver.go:72-96 | Two handlers of one name use the same gate and never both hold it, pruning included |
| `NameGate.EntriesArePruned` | internal/filetransfer/receiver.go:88-96 | A name has a map entry exactly while some handler is between acquire and release, and the count is the number of those |
| `NameGate.EnterCounts` | internal/filetransfer/receiver.go:72-86 | After any run an idle handler gets as far as waiting for the lock of its name |
| `NameGate.TakesIff` | internal/filetransfer/receiver.go:84 | After any run a waiting handler gets the lock exactly if no handler of the same name holds it |
| `NameGate.HandsOn` | internal/filetransfer/receiver.go:88-96 | After any run a holder can pass its name on to any handler waiting for it, and can go away |
| `RateLimit.IpLimiter.Allow` | internal/tunnel/ratelimit.go:20-37 | Answers and updates the bucket as refill, cap, grant and spend prescribe |
| `RateLimit.Limiter.Allow` | internal/tunnel/ratelimit.go:101-123 | Answers and updates the table as the table specification prescribes; new entries are fresh and start with one token spent |
| `RateLimit.Limiter.Cleanup` | internal/tunnel/ratelimit.go:82-93 | Removes exactly the entries last seen before the cutoff |
| `RateLimit.RunsMatch` | internal/tunnel/ratelimit.go:71-97 | In every ordered run the evicting table is the non-evicting one without some entries that are full again, and the answers are equal |
| `RateLimit.EvictionInvisible` | internal/tunnel/ratelimit.go:71-97 | When rate*ttl reaches the burst, or limiting is off, a limiter that evicts answers every call of every run like one that never does |
| `RateLimit.EvictionInvisibleIff` | internal/tunnel/ratelimit.go:71-97 | Eviction is invisible in every ordered run if and only if limiting is off or rate*ttl is at least the burst |
| `RateLimit.WindowBound` | internal/tunnel/ratelimit.go:20-37 | In any window one IP is granted at most burst plus rate times the length of the window, without eviction, and with it once eviction is invisible |
| `RateLimit.GrantedIff` | internal/tunnel/ratelimit.go:20-37 | The converse too: after any ordered run a request is granted if and only if, with it, no window up to now has more grants than the burst plus the rate times its length; with eviction once that is invisible |
| `RateLimit.GrantedIfFits` | internal/tunnel/ratelimit.go:101-123 | With eviction and without, whatever the parameters, a request that fits into every window is granted |
| `RateLimit.FirstBurstPasses` | internal/tunnel/ratelimit.go:108-122 | In every ordered run the first requests of an IP, as many as the burst, are all granted |
| `RateLimit.RestedPasses` | internal/tunnel/ratelimit.go:20-37 | In every ordered run a request is granted that comes at least 1/rate after every earlier one of its IP |
| `RateLimit.UnlimitedPasses` | internal/tunnel/ratelimit.go:102-104 | With a rate that is not positive every request of every run is granted |
| `RateLimit.TickExpires` | internal/tunnel/ratelimit.go:82-93 | After any run a cleanup forgets exactly the IPs last seen longer ago than the idle time |
| `Admission.CapHolds` | internal/tunnel/ratelimit.go:128-147 | In every interleaving of loads, swaps and releases the counter is the number of admitted callers and never exceeds a positive cap |
| `Admission.AdmittedIffRoom` | internal/tunnel/ratelimit.go:128-142 | After any run a caller that loads and swaps with nobody in between is admitted exactly if the cap is not positive or fewer callers than that are admitted |
| `Admission.ReleaseMakesRoom` | internal/tunnel/ratelimit.go:145-147 | After any run a release makes room for one more caller |
| `Sni.WalkList` | internal/tunnel/https_proxy.go:356-369 | The position loop over the name list terminates and computes the name walk |
| `Sni.WalkBlock` | internal/tunnel/https_proxy.go:323-339 | The position loop over the extensions terminates and computes the extension walk |
| `Sni.ParseClientHello` | internal/tunnel/https_proxy.go:252-340 | Total on every byte string, without an index out of bounds, and equal to the parsing function that the round trip is about |
| `Sni.HelloRoundTrip` | internal/tunnel/https_proxy.go:252-370 | For every well-formed ClientHello the parser returns the lower-cased first host_name of the first server_name extension, or the empty string if there is none |
| `Sni.PeekSni` | internal/tunnel/https_proxy.go:215-247 | On success the peeked bytes followed by what is still unread are the original stream, so that the replay is transparent |
| `Sni.PeekRoundTrip` | internal/tunnel/https_proxy.go:215-247 | A ClientHello in one record is peeked whole with its name whatever follows, and refused if the record is longer than 16384 bytes |
| `Sni.PlainRecordPeeks` | internal/tunnel/https_proxy.go:215-247 | A record of type 22 with a ClientHello that holds any one server name is peeked whole, with the name in lower case, exactly if it has at most 16384 octets |
| `Sni.PlainHelloIs` | internal/tunnel/https_proxy.go:252-370 | That ClientHello, octet by octet |
| `Sni.PlainHelloParses` | internal/tunnel/https_proxy.go:345-370 | The name is found in these octets, whatever it is |
| `Sni.Lowered` | internal/tunnel/https_proxy.go:364 | Lower-casing changes exactly the ASCII capitals |
| `Sni.OtherStreams` | internal/tunnel/https_proxy.go:221-227 | A stream that does not start with octet 22 hands on its first five octets, without a name |
| `Socks5.Client.ReadGreeting` | internal/socks/proto.go:28-66 | The method loop selects the required method exactly if the client offers it, and every error branch writes what the specification writes |
| `Socks5.Client.NegotiateSOCKS5` | internal/socks/proto.go:23-170 | The routine returns what the negotiation function returns and leaves the connection in its state, for every input, chunking and number of writes that succeed |
| `Socks5.Conversation` | internal/socks/proto.go:23-170 | For every encodable client the server writes exactly the answers the two RFCs require, and it returns the target with precisely the trailing bytes unread if and only if the method is offered, the credentials match, the command is CONNECT, the target is valid and the answers could be written |
| `Socks5.OnTheWire` | internal/socks/proto.go:23-150 | What a client sends, octet by octet |
| `Socks5.AnswersOnTheWire` | internal/socks/proto.go:40-169 | What the server answers, octet by octet: methods 0, 2 and 255, the status of the credentials, replies 7 and 1 |
| `Socks5.BadGreeting` | internal/socks/proto.go:28-42 | A greeting of another version is not answered; one that offers no method gets 255 |
| `Socks5.BadCredentialsVersion` | internal/socks/proto.go:72-82 | Credentials of another version get status 1 |
| `Socks5.BadRequest` | internal/socks/proto.go:113-156 | A request of another version gets reply 1 and one with an unknown address type reply 8 |
| `Socks5.PlainIpv4` | internal/socks/proto.go:23-170 | A client without credentials that asks for any IPv4 address and non-zero port is granted it, octet by octet |
| `Socks5.OnlyGranted` | internal/socks/proto.go:97-169 | A negotiation that succeeds has read exactly the encoding of a client that was to be granted that target; with authentication configured its credentials matched |
| `Socks5.RequestOf` | internal/socks/proto.go:113-169 | The request phase on an encoded request: the target, or the error reply that its first defect calls for |
| `Socks5.CredentialsOf` | internal/socks/proto.go:72-107 | The sub-negotiation on encoded credentials succeeds exactly when both match, and answers 1,0 or 1,1 |
| `Socks5.JoinLabels` | internal/protocol/validation.go:26 | Joining the labels of a name with dots gives the name back, and no label contains a dot |
| `Socks5.LabelsJoin` | internal/protocol/validation.go:26 | Labels joined with dots are found again by the split |
| `Socks5.ValidDomainIff` | internal/protocol/validation.go:10-60 | An ASCII name that is no IP literal is valid exactly if it has at most 253 octets and consists of labels of 1 to 63 letters, digits and inner hyphens, joined by dots |
| `Socks5.OtherTargets` | internal/protocol/validation.go:10-65 | An IP literal is valid, a name with non-ASCII octets exactly if the library lets it through, and the empty name and port zero are not |
| `Rendezvous.NextKeeps` | internal/tunnel/manager.go:130-195 | Every step, including those between the unlock and the close of the ready channel, keeps the invariant: one taker per registration, and data, once flag and closes follow the stage of that call |
| `Rendezvous.OneTaker` | internal/tunnel/manager.go:160-195 | At most one fulfilment or cancellation ever gets hold of a registration, and its ready channel is closed at most once |
| `Rendezvous.WaiterGetsWinner` | internal/tunnel/manager.go:176-201 | A waiter gets the connection of the one fulfilment that won, whose token was that of the registration and not empty, or nothing exactly when a cancellation won |
| `Rendezvous.FulfilTakesIff` | internal/tunnel/manager.go:176-192 | After any run a fulfilment takes the registration of its id exactly if its token is the registered one and not empty, and otherwise is refused and touches nothing |
| `Rendezvous.CancelTakesIff` | internal/tunnel/manager.go:163-172 | After any run a cancellation takes the registration of its id exactly if there is one |
| `Rendezvous.WaiterIsServed` | internal/tunnel/manager.go:189-201 | After any run, a call that has taken a registration can end, and a waiter then gets the connection of the fulfilment, or nothing after a cancellation |
| `Rendezvous.TokensMeet` | internal/tunnel/manager.go:130-201 | After any run an external connection registered under a token gets the data connection that brings this token |
| `Rendezvous.ReleasedIffReturned` | internal/tunnel/manager.go:189-201 | The waiters of a registration are released if and only if the call that took it has run to its end |
| `Rendezvous.StrandsIff` | internal/tunnel/manager.go:132-142 | A step puts a registration out of reach of every call if and only if it registers a connID that is still in the map |
| `Rendezvous.StrandedForever` | internal/tunnel/manager.go:132-142 | A registration out of reach stays so, and its waiters are never released |
| `RouteIndex.Manager.AddTunnel` | internal/tunnel/manager.go:88-104 | Adds the route and appends to the list of the client; the index stays valid if and only if the tunnel id was new |
| `RouteIndex.Manager.Register` | internal/tunnel/manager.go:221-239 | Refused, with nothing changed, exactly when another client owns the hostname; otherwise the route is replaced and the list extended only if the hostname is not in it; agreement is kept |
| `RouteIndex.Manager.AddHTTPTunnel` | internal/tunnel/manager.go:212-240 | The HTTP index changes as Register says and the entry is returned unless refused |
| `RouteIndex.Manager.AddHTTPSTunnel` | internal/tunnel/manager.go:246-274 | The same for the HTTPS index |
| `RouteIndex.Manager.RemoveTunnelsForClient` | internal/tunnel/manager.go:115-128 | Exactly the TCP routes of the client and its list are gone, every other route is as it was, and exactly its listeners were closed |
| `RouteIndex.Manager.RemoveHTTPTunnelsForClient` | internal/tunnel/manager.go:319-332 | Exactly the hostnames of the client and its lists are gone from both indices, every other lookup is as it was |
| `RouteIndex.AddTcpAgreesIff` | internal/tunnel/manager.go:98-101 | A TCP registration keeps routes and lists in agreement if and only if its id is new |
| `RouteIndex.RunAgrees` | internal/tunnel/manager.go:212-332 | After any sequence of registrations, refused and repeated ones included, and removals, with fresh tunnel ids, the list of each client is duplicate-free and lists exactly the keys whose route it owns |
| `RouteIndex.RemovalFreesHostnames` | internal/tunnel/manager.go:319-332 | After any history a removed client routes nothing, other routes are unchanged, and anybody may take over its hostnames |
| `RouteIndex.OwnerKeeps` | internal/tunnel/manager.go:221-225 | The owner of a hostname keeps it over any further registrations and removals of other clients |
| `RouteIndex.HostnameTakenIffFree` | internal/tunnel/manager.go:212-240 | After any history a hostname is registered, routed to the new entry and on the list of the client once, exactly if no other client holds it; otherwise nothing changes |
| `RouteIndex.TunnelIsRouted` | internal/tunnel/manager.go:88-104 | After any history a TCP tunnel with a new id is routed and listed, and nothing else changes |
| `Approval.NextKeeps` | internal/control/approval.go:46-103 | Every step of Submit and Decide, with the gap between lookup and send, keeps the invariant |
| `Approval.ApprovedByOperator` | internal/control/approval.go:76-102 | Submit returns approved only for a request that an approve of an operator reached |
| `Approval.SupersededIsReleased` | internal/control/approval.go:55-64 | A superseded waiter has returned or has a decision in its channel |
| `Approval.CleanupSparesOthers` | internal/control/approval.go:66-74 | The requests shown are exactly those neither superseded nor cleaned up, and a cleanup removes no other registration, in particular not that of its successor |
| `Approval.SentDecisionIsFinal` | internal/control/approval.go:97-102 | A decision reported as made for a request still waiting is the one it gets, whatever follows, unless its context ends |
| `Approval.DecisionArrives` | internal/control/approval.go:40-103 | From any state, a new request that is decided, undisturbed, returns that decision, whichever it is, and is no longer shown |
| `Approval.DecideReaches` | internal/control/approval.go:86-103 | After any run, Decide finds the registered request of its name and stores and reports its decision exactly if there is none in the channel |
| `Approval.DecideMisses` | internal/control/approval.go:86-92 | Without a registered request of its name Decide changes nothing |
| `Approval.SubmitRegisters` | internal/control/approval.go:55-64 | After any run, Submit registers a new undecided request; a waiter that it replaces gets a rejection unless it has a decision; nobody else is touched |
| `Approval.ReportIsTrueIff` | internal/control/approval.go:76-103 | When Decide reports a decision as made and the waiter eventually returns, it returns that decision if and only if it was still waiting at the send and either the decision is a rejection or its select takes the decision before the end of its context, or it had already returned the same |
| `Approval.ReportedApprovalMayBeLost` | internal/control/approval.go:84-103 | A concrete run in which Decide reports an approval of a request that had been superseded and rejected |
| `Approval.ReportedApprovalMayExpire` | internal/control/approval.go:76-103 | A concrete run in which Decide reports an approval to a waiting request whose context then ends first |
| `KnownHosts.Store.constructor` | internal/control/knownhosts.go:44-65 | The store holds what loading the file gives: later entries win, entries with an empty name or fingerprint are skipped |
| `KnownHosts.Store.Add` | internal/control/knownhosts.go:76-82 | The in-memory entry is set whatever the disk does; the file lists exactly the store if it could be rewritten, and is unchanged otherwise |
| `KnownHosts.Store.Remove` | internal/control/knownhosts.go:85-91 | The same for a removal |
| `KnownHosts.LastEntryWins` | internal/control/knownhosts.go:44-65 | What loading a file stores for a name is its last entry with a name and a fingerprint, and nothing if there is none |
| `KnownHosts.Entries` | internal/control/knownhosts.go:110-113 | Every entry of the store is listed exactly once |
| `KnownHosts.ReloadIff` | internal/control/knownhosts.go:44-65 | A store that is written and loaded again is the same if and only if no name or fingerprint in it is empty |
| `TrustGate.NextKeeps` | cmd/server/main.go:388-455 | Every step of any number of tofuCheck calls, operators and removals keeps the invariant about stored and accepted fingerprints |
| `TrustGate.StoredIsVouched` | cmd/server/main.go:427-451 | Every stored fingerprint, in memory and on file, was loaded, auto-approved, or carried by a request that an operator approved |
| `TrustGate.AcceptedIsVouched` | cmd/server/main.go:411-454 | A TLS client that is let in showed a fingerprint that is vouched for under its name: the stored one if there was one, else, unless approval is automatic, one that an operator approved |
| `TrustGate.KnownAcceptedIff` | cmd/server/main.go:411-425 | In every run, once a client is looked up whose name is stored, its check ends, and whatever happens afterwards it was let in if and only if it showed the stored fingerprint, which is vouched for; it never fails and never reaches an operator |
| `TrustGate.AutoApprovedIsLetIn` | cmd/server/main.go:427-433 | In every run, an unknown client whose server approves automatically is let in once its fingerprint has been added, whatever follows, if and only if no file is configured or it could be rewritten; memory, and the file then, hold the fingerprint |
| `TrustGate.ApprovedIsLetIn` | cmd/server/main.go:442-450 | The same for a client whose request came back approved |
| `TrustGate.RejectedStoresNothing` | cmd/server/main.go:452-454 | In every run, a client whose request came back rejected is rejected for good, and memory and file are as they were |
| `TrustGate.OperatorDecides` | cmd/server/main.go:436-454 | In every run, when an unknown client is asked about and the operator decides, it is let in and stored exactly as this decision and the disk say |
| `TrustGate.UnknownCanBeLetIn` | cmd/server/main.go:427-454 | In every run, a client looked up in vain has a way in, by configuration or by an operator, that stores it in memory and on file |
| `TrustGate.UnknownWaits` | cmd/server/main.go:397-411 | In every run, a TLS client with a certificate and a name that is not stored waits for a decision, and nothing is stored before |
| `TrustGate.UncheckedArrivals` | cmd/server/main.go:397-408 | In every run, a connection without TLS is let in unchecked and one without a certificate fails, whatever follows |
| `TrustGate.ForgottenIsUnknown` | internal/control/knownhosts.go:85-91 | In every run, a name that an operator forgets is unknown at once, and no other entry or check is touched |
| `TrustGate.FailedSaveStillTrusts` | cmd/server/main.go:427-447 | In every run in which the file cannot be rewritten after an approval, automatic or by an operator, the client is turned away and the file unchanged; yet, if no check with another certificate is just under way, every later check of the name lets in that same certificate and no other, until an operator forgets the name |
| `TrustGate.AutoSaveCanFail` | cmd/server/main.go:427-434 | A run from any loaded file that meets this failure on the automatic path |
| `TrustGate.OperatorSaveCanFail` | cmd/server/main.go:443-447 | A run from any loaded file that meets this failure after the approval of an operator |
| `Pool.ServerPool.Add` | internal/client/pool.go:63-67 | Appends the session, growing the backing array when it is full |
| `Pool.ServerPool.Remove` | internal/client/pool.go:70-80 | The in-place filter leaves exactly the other sessions, in order |
| `Pool.ServerPool.Pick` | internal/client/pool.go:83-92 | Nothing for an empty pool, else the session in the slot that the 64-bit counter designates, and the counter advances by one with wrap-around |
| `Pool.WithoutKeepsOrder` | internal/client/pool.go:70-80 | What a removal keeps is a subsequence of what was there |
| `Pool.WithoutKeepsOthers` | internal/client/pool.go:70-80 | A removal keeps every other session as often as it was there and the removed one not at all |
| `Pool.PicksAreFair` | internal/client/pool.go:83-92 | Over any k consecutive picks with unchanged membership and no wrap, or with a pool size that divides the range of the counter, each session is chosen floor(k/n) or ceil(k/n) times |
| `Pool.WrapIsUnfair` | internal/client/pool.go:83-92 | Otherwise the picks around the wrap return the first session twice within n picks |
| `Pool.AlwaysFairIff` | internal/client/pool.go:83-92 | Every run of picks, wraps included, is fair if and only if the pool size divides the range of the counter |
| `Pool.ResidueIs` | internal/client/pool.go:86-91 | The repeated subtraction used in the proofs is the remainder and the quotient |

## Left out

- Liveness of the multiplexer: when the local write fails, the copy goroutine leaves the pipe unread, and a delivery can then block the dispatch loop. That streams can get through and that a side can always shut down is proved; that they must, under some fairness of the scheduler, is not claimed.
- MuxSystem.GracefulClose: speaks of what was read and relayed; the SOCKS replies that the client writes to the local connection before the relay starts are not part of the stream.
- RelayBiDirectional, the data connections of TCP, HTTP and HTTPS tunnels, HTTP CONNECT and port forwarding: the first two give no delivery guarantee, the others repeat the relay of the SOCKS client.
- Client-side handshake writes and the shutdown broadcast, which bypass the serialising writer: Framing.ReaderGetsLockOrder is about writes through CtrlConnWriter.
- Gob encoding and decoding, and with it the messages whose decoding fails.
- MuxComplete.AnyStreamsGetThrough: starts from a state with nothing in flight; the exchange it gives is one schedule, the streams of all others are MuxSystem.StreamIntegrity and MuxSystem.GracefulClose.
- MuxSystem.RemovedForGood: rests on fresh connIDs; NewChannel would register a removed connID again.
- MuxWire.WireIntegrity: is about connections that take no further octet after a write that broke off inside a frame, and so are MuxWire.Refinement and MuxWire.WireGracefulClose; by Framing.AtomicIff frames are atomic on those connections and on no others. Messages whose encoding exceeds the size limit are not written; the payloads of the relay are at most 32 KiB.
- SocksMux.SOCKSMux.Deliver: runs to completion here; the write that blocks until readers have taken it, or that ends with an error when the pipe is closed under it, is in MuxEnd (PipeRead, PipeAbort).
- Receiver.HandlePut: one step per request; Finalise.dfy splits its end.
- Finalise.DeliverySurvivesIff: about names that do not end in `.part`; what a handler does to its `.part` up to the digest check is any sequence of changes.
- Receiver.StoreBody: an error while writing or closing `.part` is modelled only as a body that breaks off.
- Sender.SafeDelivery: assumes that everyone who uploads under the name uploads the same source, and takes each PUT as one step; SplitSend.SplitDelivery takes them in steps.
- SplitSend.SplitDelivery: is about names that do not end in `.part`; the rival it excludes is the one of Finalise.DeliverySurvivesIff, without which the property is false, see Finalise.RaceLosesDelivery.
- Waiting times, contexts and HTTP status parsing of the sender beyond their outcome: a round is cancelled, fails, is confirmed, conflicts or is incomplete.
- The upload token check, the completion callback and sanitising of names longer than the file system allows.
- RateLimit.WindowBound: takes each Allow as atomic; in the code the creation of an entry and its first spending are two steps. Float rounding is not modelled.
- RateLimit.Limiter.Cleanup: one pass at one moment; entries touched while the pass runs are not interleaved with it.
- Admission.CapHolds: bounds callers between Acquire and Release; the handlers release before their relay ends, so it is no cap on open connections.
- Sni.HelloRoundTrip: lower-cases ASCII letters only, as server names are ASCII.
- Socks5.Conversation: hosts stay octets; the textual form of IP addresses, and which names are IP literals, are library functions given as a parameter, and so is the treatment of names with non-ASCII octets, which the code truncates rune by rune.
- Socks5.Client.Write: a failing write writes nothing; a write that fails half-way is not modelled.
- Rendezvous.OneTaker: counts per registration, as a connID may be registered again; newDataToken is a parameter, the empty token standing for a failed random source.
- Delivery of socket closes, listener errors and the legacy pending-SOCKS table of the manager.
- RouteIndex.RunAgrees: assumes fresh tunnel ids for TCP, without which it is false, see RouteIndex.AddTcpAgreesIff.
- RouteIndex.Manager.Register: the HTTP and HTTPS copies of the registration loop are one method here. Whether the tunnel handler heeds the refusal is outside the manager.
- KnownHosts.Store.WriteLocked: the order of the entries on file is free, since loading does not depend on it; YAML and the temporary file are not modelled.
- TrustGate.StoredIsVouched: covers one process, from the file it loaded; what it leaves on file is what the next one loads. Events and logging are left out.
- Approval.NextKeeps: List, timestamps and addresses of requests are left out.
- Heartbeats, backoff, statistics, the event bus, configuration, the admin API, the dashboard, the GUI programs and the legacy proxies.

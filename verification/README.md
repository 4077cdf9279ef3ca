# Verified model of the proxy's stateful cores

A Dafny 4.11 model of the four parts of the proxy that keep state, with proofs. `dafny verify dfyconfig.toml` checks it all.

* **Persistent connections** (`Pool`, `BodySignal`, `Locks`, `ConnectMethods`, `Protocol`, `ProtocolInvariant`, `ProtocolTheorems`, `ProtocolWaiting`, `ProtocolEnding`, `ProtocolOutcomes`, `ProtocolLinks`, `RendezvousWindow`, `ProtocolWitness`). The pool of idle connections as the source keeps it, on objects. The protocol between round trips, read loops and response bodies as a step system over any number of each, with one step for each critical section, channel operation or network call. The invariant assigns each connection one place. `ProtocolTheorems` draws from it what holds in every reachable state, in terms of the state alone. `ProtocolWaiting` says exactly which round trips can still return and `ProtocolEnding` which read loops out of use can still end. `ProtocolOutcomes` says what comes of errors, of connections offered to the pool and of round trips that are over, and that no outcome is ruled out. `RendezvousWindow` splits the rendezvous and says exactly when callbacks run once and who can return then, and `ProtocolLinks` says how the steps agree with the models of the body wrapper and the mutexes.
* **Replay buffer** (`Regretable`, `Image`). A reader that can be rewound to a mark, over a reader that delivers any number of bytes at a time, and the image handler that relies on it.
* **Counter-mode generator** (`Bytes`, `CounterEncryptor`). A block cipher is the table of an arbitrary function on blocks.
* **Chunked bodies** (`Chunked`). The writer, the tail of a response that completes the message, and a decoder for section 7.1 of RFC 9112 written as the specification.

`Options` holds the optional value that these share.

## How the code is read

* A step of the protocol that ends in a pool operation is one step, because the pool's lock is held throughout. Connections may be closed between two checks of `getIdleConn`; `Pool.Transport.GetIdleConn` shows that the outcome is as if all were made when the last one is. `CloseIdleConnections` is one step for each connection it closes and one for the new map.
* In `Protocol` the rendezvous at transport.go:635 and the clearing of the callback behind it are one step. The code holds no lock there; `RendezvousWindow` has the clearing as a step of its own.
* The server sends one final response for each request, in order. Every response read is the answer to the first request written that has not been answered. Any read may fail instead.
* One client goroutine uses a body, and does so after its round trip has returned.
* A panic of the source is a Boolean result or a state in which no step is possible. The panic for `mutateHeaderFunc` is outside the model, which has no proxy credentials.
* Slices given to `Read` are an array with two bounds in `CounterEncryptor` and a whole array in `Regretable`.

## What the code does otherwise than it says

* The table at transport.go:468-473 shows a key without a target for plain HTTP through a proxy, and keys that begin with two separators. `String` always joins proxy, scheme and target, so connections to a proxy are not shared between targets. `ConnectMethods.Key` follows the code.
* `Close` of the body wrapper runs the callback after a successful close of the body whether or not EOF was seen (transport.go:730-732 speaks of EOF). `BodySignal.Apply` follows the code.
* `chunkedWriter.Close` is said to mark the end of the stream. It writes the last chunk only; the CRLF that ends the message comes from https.go:346.
* Where image.go:51-71 reports that the original is returned after an encoder failed, the body handed on lacks exactly the bytes that the decoder took (`Image.HandleImage`, `Image.EncoderFailureLosesBytes`). A content type with parameters passes the check in front and panics in the switch behind it.
* A read loop may end between the hand-over of its connection and the increment at transport.go:673-675; since the failed `Flush` at 687 is ignored, the round trip then waits for ever. `ProtocolWitness.WaitsForEverAfterALostRace` is such a run. `ProtocolWaiting.ReturnsUnlessTheLoopEnded` says exactly which round trips can return with the rendezvous as one step, `RendezvousWindow.FineReturnsUnlessTheLoopEnded` with the window open, from states that were reached without a race.
* A write error leaves the count up (transport.go:683-686), so the read loop waits for ever for a request, unless it had ended: `ProtocolEnding.WriteErrorStrandsTheLoop`. `ProtocolEnding.RetiredLoopsEnd` says exactly which loops of connections out of use can end.
* The comment at transport.go:730-732 promises that the callback runs at most once. With the window of the rendezvous it can run twice: `RendezvousWindow.RaceFiresTwice` is such a run, `RendezvousWindow.CallbackRunsOnceExactlyWithoutRace` the exact condition.
* Keys do not name routes without exception. `ConnectMethods.SeparatorsCollide` has two routes with one key; no proxy and a proxy with an empty URL, as `url.Parse` makes of an empty string, have one key too (`ConnectMethods.EmptyProxyCollides`), and `ProtocolWitness.EmptyProxyGetsDirectConnection` is a run in which the second is given a connection of the first. `ConnectMethods.SharedKeysExactly` says which routes share theirs.
* `Forget` right after `Regret` loses the bytes that were taken back. `Regretable.ReaderSeesTheStream` says for which runs nothing is lost.

## Model

| member | source | states |
|---|---|---|
| `ProtocolTheorems.EachConnectionIsInOnePlace` | goproxy/transport/transport.go:262-310 | In every reachable state a connection is held by one round trip, queued, being answered, with one body, pooled or retired, and in exactly one of these; no two round trips own it; it has at most one request queued and one unanswered. |
| `ProtocolTheorems.RetiredForGood` | goproxy/transport/transport.go:550-638 | A connection that has left all other places is never used again, whatever happens. |
| `ProtocolTheorems.ResponsesMatchRequests` | goproxy/transport/transport.go:577-696 | With a server that answers in order, every response sent on a reply channel answers the request of the round trip that owns the channel, each channel gets at most one reply, and a reply without a response is an error. |
| `ProtocolOutcomes.ReadErrorsAreReported` | goproxy/transport/transport.go:577-580 | A failed read leaves an error to report, and a body that is no gzip although it says so leaves one beside its response. |
| `ProtocolOutcomes.ResponsesAreHandedOn` | goproxy/transport/transport.go:577-628 | A response head is handed on to the round trip that asked, without an error; its body holds the connection exactly if there is one and the connection is to be kept. |
| `ProtocolOutcomes.AnsweredIsKeptOrClosed` | goproxy/transport/transport.go:614-628 | A connection answered without a body is pooled, and its read loop goes on, exactly if the pool keeps connections, it is not broken and there is room; otherwise it is broken and the loop is told to end. |
| `ProtocolOutcomes.ReadToTheEndIsKeptOrClosed` | goproxy/transport/transport.go:608-613 | The same for a connection whose body meets EOF. |
| `ProtocolOutcomes.ClosedBodyIsKeptOrClosed` | goproxy/transport/transport.go:751-762 | The same for one whose body is closed without an error. |
| `ProtocolOutcomes.FailedCloseOffersNothing` | goproxy/transport/transport.go:751-762 | A Close that fails, or a second one, changes no connection and not the pool. |
| `ProtocolOutcomes.IdleConnectionsAreClosed` | goproxy/transport/transport.go:206-218 | Exactly the pooled connections are closed by CloseIdleConnections, and the new map comes when all are. |
| `ProtocolOutcomes.OverIsOver` | goproxy/transport/transport.go:336-358 | A round trip ends with an error of the dial or of the write, or with its reply, and that is final. |
| `ProtocolOutcomes.CallersCanGoOn` | goproxy/transport/transport.go:673-696 | In every reached state a round trip can take its next step with each of its outcomes, but for waiting for its reply. |
| `ProtocolOutcomes.ClientsCanGoOn` | goproxy/transport/transport.go:739-762 | A client can read its body to the end and close it, unless it is in its callback. |
| `ProtocolOutcomes.LoopsCanGoOn` | goproxy/transport/transport.go:550-638 | A read loop waits only for a request, for its body or for the network, where every outcome is possible. |
| `ProtocolOutcomes.SendsWouldBlock` | goproxy/transport/transport.go:355-355 | A request waits exactly while fifty are queued, and a reply exactly while one is not received. |
| `ProtocolOutcomes.PoolWouldPanic` | goproxy/transport/transport.go:262-310 | The pool panics exactly where it would write to a map that was not made or index an empty list. |
| `ProtocolOutcomes.LoopWouldWaitForItself` | goproxy/transport/transport.go:571-613 | A read loop waits for itself exactly if its Close runs a callback that is still to run. |
| `ProtocolTheorems.EarlierBodiesAreClosed` | goproxy/transport/transport.go:571-577 | When a response head is read, every earlier body read from the connection has been closed. |
| `ProtocolWaiting.WaitingDependsOnTheLoop` | goproxy/transport/transport.go:554-638 | With the rendezvous as one step: a round trip without its reply has its request in the channel or with the read loop; that loop has a step to take exactly if it has not ended; if it has, the connection is broken and the request lies in the channel. |
| `ProtocolWaiting.ReturnsUnlessTheLoopEnded` | goproxy/transport/transport.go:557-696 | With the rendezvous as one step: a waiting round trip can return exactly if it was sent its reply or its read loop has not ended; otherwise it waits in every continuation. |
| `RendezvousWindow.FineReturnsUnlessTheLoopEnded` | goproxy/transport/transport.go:557-762 | With the window open, in every state reached without a race: a waiting round trip can return, in a continuation with or without races, exactly if it was sent its reply or its read loop has not ended. |
| `ProtocolWaiting.LoopInUseEndsAtZero` | goproxy/transport/transport.go:557-567 | The read loop of a connection in use ends only where it finds the count at zero, and then its user is not counted yet or it is pooled. |
| `ProtocolWitness.WaitsForEverAfterALostRace` | goproxy/transport/transport.go:557-691 | A run in which a request is queued behind a read loop that has ended, and its round trip can never return. |
| `ProtocolTheorems.SendsNeverBlock` | goproxy/transport/transport.go:573-690 | Queueing a request and sending a reply find room in every reachable state; with the rendezvous as one step the read loop never runs a body's callback against itself. |
| `RendezvousWindow.LoopsWaitForThemselvesExactlyAfterRaces` | goproxy/transport/transport.go:571-638 | With the window open, no read loop ever waits for itself exactly if there is no race. |
| `ProtocolTheorems.UnreadBodyHoldsTheLoop` | goproxy/transport/transport.go:630-637 | While a body's callback is there, the read loop waits for it or is about to send the reply with it: it does not touch the reader. |
| `ProtocolEnding.RetiredLoopsEnd` | goproxy/transport/transport.go:554-567 | The read loop of a connection out of use can end exactly if it has ended, or it neither waits for a request nor is to go on with a count that a write error left up. |
| `ProtocolEnding.WriteErrorStrandsTheLoop` | goproxy/transport/transport.go:683-686 | After a write error the read loop can end exactly if it had ended before. |
| `ProtocolTheorems.PoolStaysWellFormed` | goproxy/transport/transport.go:262-310 | No run writes to the unmade map or indexes an empty list; lists are neither empty nor too long, hold nothing twice, and hold entries of their own key only. |
| `ProtocolTheorems.CountIsExact` | goproxy/transport/transport.go:524-694 | The expected-response count is the number of round trips between increment and decrement plus those abandoned on a write error; where it is zero no request is queued, so the unsolicited-response branch discards none. |
| `ProtocolTheorems.ReuseKeepsTheRoute` | goproxy/transport/transport.go:337-353 | In every run a round trip only uses a connection dialled for its own key; hence for its own proxy string, scheme and target, unless separators meet or, for http and https, proxy or target holds a whole scheme. Without empty proxy URLs that is its own route, at the address that it would dial if a proxy's text names its scheme and host. |
| `ProtocolWitness.EmptyProxyGetsDirectConnection` | goproxy/transport/transport.go:337-353 | A run in which a round trip with an empty proxy URL holds a connection to the target itself. |
| `ProtocolTheorems.ClosedIdleIsNeverHandedOut` | goproxy/transport/transport.go:206-218 | A connection closed while pooled is never held by a round trip again. |
| `ProtocolTheorems.HandedOutWithReadLoop` | goproxy/transport/transport.go:285-310 | A connection taken from the pool is not broken and its read loop is there to answer. |
| `ProtocolTheorems.OnlyBadConnectionsAreDropped` | goproxy/transport/transport.go:550-709 | A connection out of use, or whose read loop ended, is broken or is not to be kept alive; one in use still has its loop; a round trip that got an error left its connection broken. |
| `ProtocolTheorems.EndsRetire` | goproxy/transport/transport.go:577-686 | After a response that asks to close, a failed read or a failed write the connection is out of use. |
| `ProtocolTheorems.BrokenStays` | goproxy/transport/transport.go:699-709 | No step mends a connection, forgets one or changes its key. |
| `ProtocolTheorems.CallbackRunsAtMostOnce` | goproxy/transport/transport.go:730-762 | With rendezvous and clearing in one step, a body's callback runs at most once over all interleavings, the read loop's own Close included. |
| `RendezvousWindow.CallbackRunsOnceExactlyWithoutRace` | goproxy/transport/transport.go:634-762 | With the clearing as a step of its own, callbacks run at most once exactly if the read loop never closes a body that nobody closed before its client has cleared the callback. |
| `RendezvousWindow.RaceFreeIsRun` | goproxy/transport/transport.go:634-762 | A run without such a race takes the steps of a run of the protocol, so all that holds of those holds of it. |
| `RendezvousWindow.RunsAreRaceFree` | goproxy/transport/transport.go:634-762 | Every run of the protocol is such a run. |
| `RendezvousWindow.RaceFiresTwice` | goproxy/transport/transport.go:571-613 | A run with a race: the callback runs twice, the connection is in the pool with a request unanswered, its read loop waits for itself, and the second round trip can never return. |
| `RendezvousWindow.ClosingPreventsRaces` | goproxy/transport/transport.go:739-762 | There is no race as long as callbacks run in Close only, that is if bodies are closed before they are read to the end. |
| `ProtocolLinks.StepsAreBodyUses` | goproxy/transport/transport.go:571-576 | In every run each step uses a body as the model of the wrapper says, or leaves it alone. |
| `ProtocolLinks.ChangesAreGuarded` | goproxy/transport/transport.go:206-310 | Every step that changes the pool takes the transport lock, and every step that changes a broken mark or a count takes that connection's lock. |
| `ProtocolLinks.CheckedAreTaken` | goproxy/transport/transport.go:285-310 | The connections that are checked under their locks are exactly those taken from the pool. |
| `ProtocolWitness.ReusedBeforeTheReply` | goproxy/transport/transport.go:614-630 | A run exists in which a connection answered without a body is in use by a second round trip before the first has its reply. |
| `ProtocolInvariant.StepKeeps` | goproxy/transport/transport.go:550-697 | Every step keeps the invariant, keeps retired connections retired, and takes no broken connection from the pool. |
| `ProtocolInvariant.RunKeeps` | goproxy/transport/transport.go:550-697 | So does every run, of any length. |
| `ProtocolInvariant.TakeIdleKeeps` | goproxy/transport/transport.go:285-310 | Taking from the pool moves the connection to the caller and retires the broken ones above it. |
| `ProtocolInvariant.RepoolKeeps` | goproxy/transport/transport.go:614-628 | Pooling a connection answered without a body moves it to the pool or retires it, and stops the loop in the second case. |
| `ProtocolInvariant.ReadResponseKeeps` | goproxy/transport/transport.go:577-628 | A response head moves the connection to the body, towards the pool, or out of use, and answers the request at hand. |
| `ProtocolInvariant.CloseLastBodyKeeps` | goproxy/transport/transport.go:571-576 | Closing the previous body, successfully or not, keeps the invariant. |
| `ProtocolInvariant.LastBodyIsSpent` | goproxy/transport/transport.go:571-576 | When the read loop closes the previous body its callback has already run. |
| `ProtocolInvariant.SendReplyKeeps` | goproxy/transport/transport.go:630-637 | Sending the reply keeps the invariant, the matching of replies included. |
| `ProtocolInvariant.RendezvousKeeps` | goproxy/transport/transport.go:634-636 | The body-consumed rendezvous keeps the invariant and lets the loop go on only if the connection was kept. |
| `ProtocolInvariant.FireKeeps` | goproxy/transport/transport.go:608-613 | The callback gives the connection from the body to the pool or retires it. |
| `ProtocolInvariant.WriteFailsKeeps` | goproxy/transport/transport.go:678-686 | A write error closes and retires the connection and leaves it counted. |
| `ProtocolInvariant.CheckExpectedKeeps` | goproxy/transport/transport.go:557-567 | The check for an unsolicited response keeps the invariant in both branches. |
| `Pool.PutIsStackPush` | goproxy/transport/transport.go:262-283 | Returning a connection keeps the table's shape and puts it on top of its own list exactly if connections are kept, it is not broken and there is room; otherwise the table stays and the connection is closed exactly if it was not broken or no connections are kept. |
| `Pool.KeepsUpToTheLimit` | goproxy/transport/transport.go:262-283 | What the configuration means for that: none is kept with keep-alives disabled or a negative limit, up to two where no limit is set, and up to the limit. |
| `Pool.TakeIsStackPop` | goproxy/transport/transport.go:285-310 | Taking one gives the topmost that is not broken, drops exactly the broken ones above it, and leaves everything below and every other key. |
| `Pool.TakeUndoesPut` | goproxy/transport/transport.go:262-310 | Taking what was just put gives it back and restores the table. |
| `Pool.DroppedAreBroken` | goproxy/transport/transport.go:285-310 | Down to the topmost live entry everything dropped is broken, and the table keeps its shape. |
| `Pool.Transport.PutIdleConn` | goproxy/transport/transport.go:262-283 | The method changes table, result and connection as `Put` says, keeps the pool's shape for a connection that is not in it, and panics exactly where it would write to a map that was not made. |
| `Pool.Transport.PopTop` | goproxy/transport/transport.go:297-305 | One turn of the loop takes the last entry, and the key with its only entry. |
| `Pool.Transport.GetIdleConn` | goproxy/transport/transport.go:285-310 | The popping loop ends and does what `Take` says of the connections broken at the last check, whichever others are closed between the checks. |
| `Pool.Transport.GetConn` | goproxy/transport/transport.go:336-358 | The connection obtained has the wanted key, is not broken, is in the pool no more, and comes from that key's list unless all in it are broken; what else left the list is broken. Otherwise it is new, or there is none where dialling fails. |
| `Pool.Transport.CloseIdleConnections` | goproxy/transport/transport.go:206-218 | Every pooled connection is closed, no other is touched, and the pool is empty. |
| `Pool.PersistConn.Close` | goproxy/transport/transport.go:699-709 | Marks the connection broken and closes it. |
| `BodySignal.CallbackRunsOnceAtTheEnd` | goproxy/transport/transport.go:739-762 | Over any sequence of Reads and Closes the callback runs exactly once if a Read meets EOF or the first Close succeeds, and otherwise not at all. |
| `BodySignal.CallbackRunsAtMostOnce` | goproxy/transport/transport.go:739-762 | Also when a Read after Close panics. |
| `BodySignal.PanicsExactlyOnDataAfterClose` | goproxy/transport/transport.go:739-743 | A use of a body panics exactly if data is read from it after a Close, successful or not. |
| `BodySignal.BodyEOFSignal.RunCallback` | goproxy/transport/transport.go:608-613 | Offers the connection to the pool, stops the loop if it is not kept, signals once. |
| `BodySignal.BodyEOFSignal.Read` | goproxy/transport/transport.go:739-749 | The method does what the value model says; with the callback, and only then, pool, read loop and connection change as offering the connection says. |
| `BodySignal.BodyEOFSignal.Close` | goproxy/transport/transport.go:751-762 | The same for Close. |
| `ConnectMethods.KeyDeterminesRoute` | goproxy/transport/transport.go:482-488 | With schemes free of the separator, two routes have the same key exactly if they agree in all three parts, unless the separator is in the proxy of one and the target of the other. |
| `ConnectMethods.SharedKeysExactly` | goproxy/transport/transport.go:482-488 | A route that the package builds shares its key with a different one exactly if its proxy string holds a whole scheme between separators, its target does with an address behind it, or its proxy string is empty. |
| `ConnectMethods.ProperlySharedKeysExactly` | goproxy/transport/transport.go:482-488 | Among routes without empty proxy URLs the last of these falls away. |
| `ConnectMethods.EmptyProxyCollides` | goproxy/transport/transport.go:482-495 | No proxy and a proxy with an empty URL have one key and are dialled at different addresses. |
| `ConnectMethods.BuildableIsWithPort` | goproxy/transport/transport.go:231-243 | The routes that the package builds are those to http or https with a target that has a port. |
| `ConnectMethods.SeparatorsCollide` | goproxy/transport/transport.go:482-488 | Two routes that the package builds with one key. |
| `ConnectMethods.SeparatorAloneIsHarmless` | goproxy/transport/transport.go:482-488 | A route with a separator in its target that shares its key with no other that has a proper proxy or none. |
| `ConnectMethods.CanonicalAddrHasPort` | goproxy/transport/transport.go:716-723 | A canonical address always has a port, and canonicalising again changes nothing. |
| `ConnectMethods.PortOfScheme` | goproxy/transport/transport.go:711-723 | The port that is added is 80 for http and 443 for https; an address with a port stays as it is. |
| `ConnectMethods.ProxyIsDialled` | goproxy/transport/transport.go:490-495 | What is dialled is the proxy's address if there is a proxy, and else the target. |
| `ConnectMethods.BothSchemesAreBuilt` | goproxy/transport/transport.go:144-160 | Routes are built for http and https, and for no other scheme. |
| `ConnectMethods.TlsHostUndoesDefaultPort` | goproxy/transport/transport.go:500-506 | The TLS host is the URL's host without its port, bracketed IPv6 literals included. |
| `ConnectMethods.LastIndex` | goproxy/transport/util.go:15-15 | The last position of a character, or -1. |
| `Locks.OperationsAreOrdered` | goproxy/transport/transport.go:206-310 | Every operation takes the transport lock before a connection lock and one connection lock at a time. |
| `Locks.LocksAreTaken` | goproxy/transport/transport.go:206-310 | Operations on the pool take the transport lock once, others not at all, and a connection's lock once for each check, close or count. |
| `Locks.NoMutexDeadlock` | goproxy/transport/transport.go:532-703 | In every interleaving of any number of threads, chains of waits for mutexes have at most two links and never close into a cycle. |
| `Locks.SomeThreadCanAct` | goproxy/transport/transport.go:532-703 | As long as a thread is inside an operation, some thread can take its next lock action. |
| `Regretable.RegretableReader.Read` | goproxy/regretable/regretreader.go:83-99 | Delivers the contiguous bytes from the logical position, short and overflowing reads included; asks the underlying reader exactly when nothing is left to replay, once and for as much, and hands on what it reports; the overflow flag is set exactly when more was pulled since the mark than the buffer holds. |
| `Regretable.RegretableReader.Regret` | goproxy/regretable/regretreader.go:48-53 | Returns exactly to the mark, or panics if and only if the buffer overflowed. |
| `Regretable.RegretableReader.Forget` | goproxy/regretable/regretreader.go:64-70 | Moves mark and position to everything pulled so far, or panics if and only if the buffer overflowed. |
| `Regretable.RegretableReader.WithSize` | goproxy/regretable/regretreader.go:73-75 | A new reader stands at its mark with an empty buffer of the given size. |
| `Regretable.ReaderSeesTheStream` | goproxy/regretable/regretreader.go:48-99 | Over any interleaving, what was read since the mark is the data from the mark to the position; all that was read is the data up to the position exactly if no Forget dropped regretted bytes. |
| `Regretable.ForgetAfterRegretLoses` | goproxy/regretable/regretreader.go:64-70 | A run in which two bytes are lost. |
| `Regretable.RewindsWhatFits` | goproxy/regretable/regretreader.go:48-70 | After Reads of any sizes, Regret and Forget work exactly if the bytes read since the mark fit in the buffer. |
| `Regretable.PullKeepsConsistent` | goproxy/regretable/regretreader.go:92-98 | Copying what fits behind the buffered bytes keeps the buffer equal to the data since the mark, and the flag exact. |
| `Image.HandleImage` | goproxy/ext/image/image.go:25-79 | A body that does not decode is handed on byte for byte, and the handler panics exactly if the decoder pulled more than 16 KiB; an image becomes the encoding that its type calls for; after an encoder failure exactly the bytes that the decoder took are missing. |
| `Image.EncoderFailureLosesBytes` | goproxy/ext/image/image.go:51-71 | For every body and every part of it that a decoder takes: that part is not handed on after an encoder failure, and nothing is where the decoder reads to the end; Regret would have brought it back. |
| `Image.LargeHeaderPanics` | goproxy/ext/image/image.go:36-45 | Reads of 16 KiB and a byte after which Regret panics. |
| `Image.ParametersPass` | goproxy/ext/image/image.go:19-78 | A content type that is handled and that the switch does not know. |
| `Image.TypesHandled` | goproxy/ext/image/image.go:19-34 | The five types that are handled, with status 200 only. |
| `Image.LongerNameIsNot` | goproxy/ext/image/image.go:19-23 | A type that starts like one of them is not handled. |
| `CounterEncryptor.CounterEncryptorRand.Refill` | goproxy/counterecryptor.go:53-61 | Encrypts the counter into the buffer and adds one to the counter's little-endian value modulo 256^n. |
| `CounterEncryptor.CarryInto` | goproxy/counterecryptor.go:55-59 | The in-place carry loop computes the increment. |
| `CounterEncryptor.IncrementIsPlusOne` | goproxy/counterecryptor.go:55-59 | The increment adds one to the little-endian value modulo 256^n. |
| `CounterEncryptor.PlusIsSum` | goproxy/counterecryptor.go:53-61 | After j refills the counter's value has grown by j modulo 256^n. |
| `CounterEncryptor.CounterEncryptorRand.Read` | goproxy/counterecryptor.go:63-73 | Delivers what is left of the block, or a new one, into the slice and nothing beside it; a non-empty Read makes progress. |
| `CounterEncryptor.CounterEncryptorRand.ReadFull` | goproxy/counterecryptor_test.go:50-50 | A loop of Reads ends with exactly the next bytes of the stream. |
| `CounterEncryptor.ReadOnceIsNext` | goproxy/counterecryptor.go:63-73 | One Read returns the next bytes of the stream, as many as are asked for and left of the block or of a new one, and leaves exactly the rest. |
| `CounterEncryptor.ReadAllIsStream` | goproxy/counterecryptor.go:53-73 | Reads of any sizes, zero included, deliver the stream without gap or repeat. |
| `CounterEncryptor.ReadSizesDoNotMatter` | goproxy/counterecryptor_test.go:41-65 | Two histories of Reads deliver prefixes of one another. |
| `CounterEncryptor.NewGeneratorDeliversKeystream` | goproxy/counterecryptor.go:41-73 | A new generator delivers E(c), E(c+1), E(c+2) and so on. |
| `CounterEncryptor.KeyByteIsBlockByte` | goproxy/counterecryptor.go:53-73 | Byte i of the keystream is byte i mod n of the encryption of c plus i / n. |
| `CounterEncryptor.BlocksRepeatExactlyWithThePeriod` | goproxy/counterecryptor.go:53-61 | With an injective cipher, blocks i and j are equal exactly if i and j agree modulo 256^n. |
| `CounterEncryptor.CounterEncryptorRand.Seed` | goproxy/counterecryptor.go:46-51 | Replaces the counter alone, or panics exactly on a wrong size. |
| `CounterEncryptor.SeedTakesEffectAtTheNextBlock` | goproxy/counterecryptor.go:46-73 | Reads of any sizes after a Seed deliver the unread rest of the old block first, then the encryptions of the new counter and its successors. |
| `Chunked.RoundTrip` | goproxy/chunked.go:32-59 | Decoding what the writer emits for any pieces, empty ones included, then the end and arbitrary following bytes gives the data and exactly the following bytes. |
| `Chunked.PiecesDoNotMatter` | goproxy/chunked.go:32-54 | Two bodies decode alike exactly if their data is the same, however it was cut. |
| `Chunked.HexRoundTrip` | goproxy/chunked.go:39-39 | Parsing a printed size gives it back, and a size that is not zero does not start with the digit zero. |
| `Chunked.HexIsCanonical` | goproxy/chunked.go:39-39 | Printing a parsed lower-case size without leading zeros gives it back. |
| `Chunked.DecodeIsStable` | goproxy/https.go:337-349 | A verdict of the decoder stands whatever follows. |
| `Chunked.TruncationIsDetectable` | goproxy/https.go:337-349 | Every proper prefix of an emitted message decodes as incomplete. |
| `Chunked.ChunkedWriter.Write` | goproxy/chunked.go:32-54 | It succeeds exactly if the wire reports no error and takes all the data; then the whole chunk is on the wire, and otherwise the start of it; the count is of data bytes sent; a short write without an error is reported. |
| `Chunked.ChunkedWriter.Close` | goproxy/chunked.go:56-59 | The last chunk without the final CRLF; it succeeds exactly if the wire reports no error. |
| `Chunked.CopyBody` | goproxy/https.go:338-341 | The copy succeeds exactly if the wire reports no error; it stops at the first failing Write, with a proper prefix of the message on the wire. |
| `Chunked.WriteBody` | goproxy/https.go:334-350 | It succeeds exactly if neither body nor wire reports an error, and then the message is complete, nothing for HEAD; any failure leaves a message that decodes as incomplete, unless the error came with the very last byte. |

## Left out

- ReturnsUnlessTheLoopEnded: says that a round trip can return, not that it does; a peer that is silent for ever keeps it waiting.
- RendezvousKeeps: takes the receive and the clearing of the callback as one step; `RendezvousWindow` says what the steps between the two can do.
- CallbackRunsAtMostOnce: is about the protocol with that one step, as are all lemmas of `ProtocolTheorems`, `ProtocolWaiting` and `ProtocolEnding`; `RaceFreeIsRun` carries them over to the runs without a race.
- EarlierBodiesAreClosed: a body whose own Close fails counts as closed; that the wrapped body drains on Close is an assumption on the HTTP library.
- NoMutexDeadlock: covers mutexes only; waits on channels are in the protocol model.
- FineReturnsUnlessTheLoopEnded: is about states reached without a race; of the states behind one only the run of `RaceFiresTwice` is followed.
- WriteBody: the wire reports an error whenever it takes less than it is given, as io.Writer demands; for a writer that does not, only what it is given on success and the writer's own result are stated.
- HandleImage: the decoder, the callback and the encoders are given by what they read and return; `Close` of the replaced body is not modelled.
- Dialling, the CONNECT exchange, TLS handshakes and HTTP parsing: one outcome each, success or failure.
- Sharing of one generator's arrays by copies of its struct, and the derivation of key and seed in the constructor of the generator.
- The status line and header of a response, and the loop over requests, in `handleHttps`.
- Proxy credentials, the alternative protocols behind `RegisterProtocol` except their use of the lock, and `ProxyFromEnvironment`.
- `goproxy/h2.go`, `goproxy/dispatcher.go`, `goproxy/signer.go`, `goproxy/certs.go`, `goproxy/websocket.go` and the extensions other than images: they pass data between libraries and the handlers that a user registers.
- `goproxy/uagen`: all of its code is commented out.

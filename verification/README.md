# Verification of rpyc_async

A Dafny model of the core of rpyc_async and proofs about it. Two processes call each other's objects over one byte
stream. Values travel serialized, everything else travels as a reference, and each end counts the references the
other holds. The project models, and proves correct for all inputs, all interleavings or all reachable states:

* the serializer and the wire: `Brine`, `BrineStreams` (the serializer on its list of chunks and its cursor),
  `Framing`, `Wire` (streams, channel and the in-memory framer over partial I/O), `SendQueue`;
* the lifetime of netrefs: `Registry`, `Boxing`, `RefMachine`, `RefSteps` and `Lifetime` (the two ends as one
  transition system: machine, step lemmas, results), `Proxies` (its netrefs and their cache), `Netrefs` (one end as it updates its tables), `StableIds`, `Identity` (the allocator's ids as names for boxing);
* the concurrency inside one connection: `Wakeup` (the cleanup task), `ServeMachine`, `ServeSteps` and
  `ServeBound` (the receiving baton), `Requests`
  (outstanding requests and their results), `Gate` (inbound backpressure), `CloseNotice` (teardown and close
  callbacks);
* two smaller cores: `ThreadPool` and `Buffiter`; `Core` holds bytes, results and finite sums.

`dafny verify dfyconfig.toml` checks everything.

Code that updates fields is a class whose methods are proved against functions of the old state. Code whose point is
interleaving is a step machine: `Enabled` and `Next` say what one atomic step of one thread, task or callback does,
`Run` and `Reachable` are all finite interleavings, and the theorems speak of every reachable state. Locks, atomic
list operations and the order of bytes on the stream are taken as Python and the operating system give them. What a step
or an undisturbed run of one thread does is stated beside what all interleavings keep.

Some of what the code or its documentation says does not hold, and is stated as it is:

* Counts are not always returned. A deletion skipped because its id pack has a proxy again or never sent, a request
  dropped by the gate, an unboxing that raises and a message that cannot be sent abandon theirs; `AbandonsIff` says
  exactly when, `QuiescenceReleases` what stays registered, and `ResurrectionLeaks` gives a run.
* A reference sent back to its owner resolves when its package is unboxed on arrival, as far as no reference ahead of
  it waits for a class (`BackReferenceResolves`). A package left to a task or to another thread, passed over by a
  nested read of the socket, or suspended in a class fetch is unboxed later, and a deletion behind it may be applied
  first. `MissIff` says exactly when such a reference misses its object, `LateUnboxingCanMiss` and
  `SuspendedArrivalCanMiss` give runs, and `HeldReferencesNeverMiss` is the caller's remedy.
* The incremental framer loses frames it has carved out when a later frame in the same call does not decompress.
  `IndependentIff` says for which streams the chunking matters.
* In `_serve_bound` a message shorter than its two thread ids, an executor that refuses a message, and a connection
  that raises when it is closed at the end of the stream leave the receiving flag set, which nobody clears: no message
  is read any more. `OneReceiver` and `JamsIff` have the equivalences, `JammedForGood` the consequence, and
  `ClosingCanJam` a run.
* Putting the baton of `_serve_bound` down can wake a thread that does not take it up, because its wait had timed out
  and it is still in the pool, or because it has messages of its own, while another sleeps. `StallsIff` says exactly
  when; `TimeoutCanStall` and `FailureCanStall` give runs.
* The inbound counter can exceed its limit by a burst (`Bounded`, `BoundIsReached`).
* A callback can be registered and never run: `LostIff` says exactly which steps lose one that could still run, and
  `RunsIff` which can. `LateCallbackIsLost` and `RaisingCallbackLosesTheNext` give runs with no cancellation: in one
  `add_callback` races with the reply, in the other a callback raises and takes those behind it along.
* The documentation of `add_close_callback` promises exactly one call. It is at most one: a reply that cannot be sent
  marks the connection closed without teardown, and `close` returns at once on a closed connection; and a teardown on
  a thread of the connection's own executor raises at its shutdown. `FiresIff` says exactly when the callbacks can still
  be called without the peer; `ClosedWithoutNotice` and `WorkerTeardownNotifiesNobody` show when they are not.
* `on_disconnect` can be called twice; `SecondCallIff` says exactly by which step, and `TwoTeardownsTellTwice` and
  `RaisingTellsTwice` give runs.
* The worker loop of the thread-pool server tests a descriptor by truth and loses descriptor zero (`ZeroIsLost`). A
  connection that closes itself while it is served frees its number before the table forgets it; `OneTokenIff` says that
  exactly this lets two connections get into each other's way, and `ReuseDropsTheNew` gives a run.
* `buffiter` documents only a condition on the factor; `ReadsAllIff` is the condition on all three integers, sizes above
  the largest index included.
* `dumpable` accepts strings that have no UTF-8 encoding, and the dump raises on them (`DumpableIffDumps`).
* The allocator of stable ids gives every class id zero, so process ids keep only instances apart, and an object that
  can be referred to weakly but not hashed uses up a number on every call.

## Model

| member | source | states |
|---|---|---|
| Brine.LoadDump | rpyc_async/core/brine.py:190-340 | Loading the dump of any nested value that dumps gives the value back and leaves exactly the bytes that follow it |
| Brine.LoadManyDumpAll | rpyc_async/core/brine.py:166-183 | The items of a container come back one after another, in order, with nothing of what follows consumed |
| Brine.LoadDumpTuple | rpyc_async/core/brine.py:282-312 | A tuple of any length, under a short or a long tag, comes back with its items and leaves what follows |
| Brine.LoadDumpInt | rpyc_async/core/brine.py:117-127 | An int of any size and sign comes back, as an immediate byte or as decimal text; no immediate byte is a tag |
| Brine.ParseIntOfDecimal | rpyc_async/core/brine.py:121-127 | Parsing the decimal text printed for an int gives the int, for every int |
| Brine.LoadDumpBytes | rpyc_async/core/brine.py:140-156 | Bytes of any length come back under each of the length tags |
| Brine.LoadDumpFloats | rpyc_async/core/brine.py:130-137 | The packed bytes of a float or complex come back |
| Brine.LoadSliceBytes | rpyc_async/core/brine.py:105-108 | A slice comes back from the dump of its triple, and leaves what follows |
| Brine.PrefixFree | rpyc_async/core/brine.py:190-195 | No dump is a proper prefix of another and no two values share one, so encodings are injective |
| Brine.DumpableIffDumps | rpyc_async/core/brine.py:373-385 | The dump raises nothing exactly when dumpable holds, every length fits and every string can be encoded; when only the first fails it raises a type error |
| Brine.DocumentedExample | rpyc_async/core/brine.py:9-20 | The immediates, texts and numbers of the documented hex string are the bytes of the documented value |
| Brine.DocumentedContainers | rpyc_async/core/brine.py:9-20 | The slice and the frozenset of the documented value have the documented bytes |
| Brine.IntLayout | rpyc_async/core/brine.py:117-127 | An int from -48 to 159 is one byte, any other its decimal text behind a length of one byte or four |
| Brine.BytesLayout | rpyc_async/core/brine.py:140-156 | Up to four bytes stand behind a tag of their own, more behind a length of one byte or four |
| Brine.TupleLayout | rpyc_async/core/brine.py:166-183 | The count of a tuple stands in a tag of its own up to four, otherwise in one byte or four, in front of the items |
| BrineStreams.DumpStream.DumpValue | rpyc_async/core/brine.py:190-191 | Appends exactly the dump of the value to the list of chunks, or raises what the dump raises |
| BrineStreams.DumpStream.DumpTriple | rpyc_async/core/brine.py:105-108 | Appends the dump of the three parts of a slice as a triple, in order |
| BrineStreams.DumpStream.DumpTupleItems | rpyc_async/core/brine.py:166-183 | Appends the count under its tag and then every item in order; the first exception wins |
| BrineStreams.DumpStream.DumpItems | rpyc_async/core/brine.py:166-183 | The loop over the items appends their dumps in order, up to the first that raises |
| BrineStreams.DumpStream.AppendResult | rpyc_async/core/brine.py:117-156 | Appends the chunk of a leaf value, or raises and appends nothing |
| BrineStreams.BytesIO.Read | rpyc_async/core/brine.py:359-367 | Reads at most the given number of bytes and moves the cursor just past them |
| BrineStreams.BytesIO.ReadLength | rpyc_async/core/brine.py:263-272 | Reads a one- or four-byte length, and raises when the data ends before it |
| BrineStreams.BytesIO.LoadValue | rpyc_async/core/brine.py:336-340 | Returns what the specification loads from the rest of the data and leaves the cursor just after it, errors included |
| BrineStreams.BytesIO.LoadTupleValue | rpyc_async/core/brine.py:223-312 | Reads the announced number of items, for each of the tuple tags |
| BrineStreams.BytesIO.LoadItems | rpyc_async/core/brine.py:281-312 | The loop reads that many values in order, up to the first error |
| BrineStreams.BytesIO.LoadLeafValue | rpyc_async/core/brine.py:197-271 | Each leaf loader returns the specified value, and the specified error on truncated or malformed data |
| BrineStreams.DumpThenLoad | rpyc_async/core/brine.py:347-370 | dump and then load on the streams gives back every dumpable value within the limits whose strings can be encoded, and a type error for every other within them |
| Framing.FrameLayout | rpyc_async/core/channel.py:68-84 | Length of the payload, flag, payload, newline; a message is compressed exactly when the sender compresses and it is longer than 3000 bytes |
| Framing.ParseAnyFrame | rpyc_async/core/protocol.py:1014-1026 | Any bytes laid out as a frame are taken off the front, decompressed when the flag is not zero, and undecodable exactly when that fails |
| Framing.ParsePartOfFrame | rpyc_async/core/protocol.py:1014-1021 | With one byte less, or more, no frame is taken |
| Framing.ParseOfFrame | rpyc_async/core/channel.py:49-75 | The frame sent for a message parses back to the message whatever follows it, compressed or not |
| Framing.ParseExtends | rpyc_async/core/protocol.py:1014-1024 | A complete frame is read the same way whatever bytes arrive after it |
| Framing.DrainOfFrames | rpyc_async/core/protocol.py:1009-1026 | The framer run over whole frames and an incomplete tail delivers exactly the messages sent and keeps the tail |
| Framing.DrainSplit | rpyc_async/core/protocol.py:1009-1026 | Framing a stream in two calls delivers what one call delivers and ends with the same buffer |
| Framing.ChunkingIndependent | rpyc_async/core/protocol.py:1009-1026 | For every cutting of a decodable stream the delivered frames are those of the one-shot parser, and the buffer holds exactly the incomplete suffix |
| Framing.IndependentIff | rpyc_async/core/protocol.py:1014-1026 | With undecodable frames too: delivery is the same for every chunking if and only if the stream has no undecodable frame or no decodable one |
| Framing.FrameByFrameDelivers | rpyc_async/core/protocol.py:1014-1026 | The chunking at frame ends delivers every decodable frame, whatever undecodable ones are between them |
| Framing.NothingToDeliver | rpyc_async/core/protocol.py:1014-1026 | A stream without a decodable frame delivers nothing under any chunking |
| Wire.SocketStream.Read | rpyc_async/core/stream.py:290-309 | Over any partial and interrupted receives, exactly the requested bytes in order, or end of file and a closed stream; it fails only when closed, faulty or short |
| Wire.SocketStream.Write | rpyc_async/core/stream.py:350-359 | Over any partial sends, all of the data in order once; a failure closes the stream and leaves a prefix of the data sent |
| Wire.SocketStream.RecvAvailable | rpyc_async/core/stream.py:311-348 | One receive: available bytes, nothing now, or end of stream; a hard error closes the stream and raises |
| Wire.Channel.Send | rpyc_async/core/channel.py:62-84 | Puts exactly the frame of the message on the socket, in one write or three; a length beyond four bytes raises before anything is written |
| Wire.Channel.Recv | rpyc_async/core/channel.py:49-60 | Returns the message of the frame at the front of the incoming bytes and leaves what follows, and raises exactly as the frame parser says |
| Wire.FrameReader.ExtractFrames | rpyc_async/core/protocol.py:1006-1026 | The buffer loop returns the frames of the one-shot parser and keeps its rest; an undecodable frame raises after leaving the buffer |
| Wire.Transfer | rpyc_async/core/channel.py:49-84 | Any list of sendable messages sent through one channel and received through another is the same list, for any partial I/O and compression settings |
| Wire.SendAll | rpyc_async/core/channel.py:62-84 | Sending a list one by one puts the concatenation of its frames on the socket |
| Wire.RecvAll | rpyc_async/core/channel.py:49-60 | Receiving until the bytes are used up gives the sent list, whatever the sender compressed |
| Wire.FramesSnoc | rpyc_async/core/channel.py:62-84 | Sending one more message appends its frame to the stream |
| SendQueue.OrderKept | rpyc_async/core/protocol.py:1923-1941 | With any number of threads, what was sent, the message in hand and the queue together are what was appended, in append order |
| SendQueue.OneSender | rpyc_async/core/protocol.py:1926-1941 | No two threads are inside the channel send |
| SendQueue.NothingStranded | rpyc_async/core/protocol.py:1923-1941 | Once no thread is in the loop the queue is empty, and the peer framer gets exactly the appended messages in order |
| SendQueue.EverythingGetsSent | rpyc_async/core/protocol.py:1924-1941 | Whatever the threads do, the loop ends within a number of steps known beforehand unless more is appended, and then the peer framer gets everything appended in order |
| SendQueue.RunsAreShort | rpyc_async/core/protocol.py:1924-1941 | Without a new message each step brings the threads closer to leaving the loop |
| SendQueue.PeerSeesPrefix | rpyc_async/core/protocol.py:1923-1941 | At every moment, inside a partial write too, the peer can read a prefix of what was appended |
| SendQueue.LockStep | rpyc_async/core/protocol.py:1926-1941 | Every step keeps the lock with exactly the thread between acquiring and releasing it |
| SendQueue.AttendedStep | rpyc_async/core/protocol.py:1924-1936 | Every step keeps somebody who will look at a non-empty queue again, a failed try-lock included |
| SendQueue.OrderStep | rpyc_async/core/protocol.py:1923-1939 | Every step keeps sent, in hand and queued together equal to appended |
| SendQueue.WireStep | rpyc_async/core/protocol.py:1923-1941 | Every step keeps the bytes on the wire equal to the frames sent and the written part of the one in hand |
| SendQueue.PartialFrame | rpyc_async/core/protocol.py:1014-1021 | A frame that is only partly on the wire is not read |
| SendQueue.Sender.Send | rpyc_async/core/protocol.py:1903-1941 | On its own: everything queued goes out in order with this message last, or the message is only queued when the lock is taken; an exception keeps the unsent rest and frees the lock |
| SendQueue.Sender.Flush | rpyc_async/core/protocol.py:1925-1941 | The loop empties the queue onto the socket in order, or stops at a taken lock or an exception |
| SendQueue.Sender.SendNext | rpyc_async/core/protocol.py:1926-1941 | Takes one message off the queue, sends its frame, and releases the lock whatever happens |
| Registry.RefCountingColl.Add | rpyc_async/lib/colls.py:99-145 | A new key gets its object with count one, a known key keeps its object and counts one more |
| Registry.RefCountingColl.Decref | rpyc_async/lib/colls.py:151-221 | Takes the count off, removes the entry when nothing is left, reports a missing key, and returns true exactly when it removed |
| Registry.AddThenDecRef | rpyc_async/lib/colls.py:99-221 | Taking back one reference undoes adding one |
| Boxing.RoundTrip | rpyc_async/core/protocol.py:1943-2239 | For ids that name the living objects apart: box at the owner, unbox at the peer, box back while the proxies live, unbox at the owner: the identical value and objects; each object counted at both ends once per occurrence, async flags kept, and no table changed on the way back |
| Boxing.BoxCounts | rpyc_async/core/protocol.py:2097-2120 | Boxing raises each object count by its number of occurrences and changes no other count and no proxy |
| Boxing.UnboxMirrors | rpyc_async/core/protocol.py:2126-2239 | Unboxing yields the value with proxies in place of the objects; each proxy counts its occurrences and has its object async flag |
| Boxing.MirrorReturns | rpyc_async/core/protocol.py:2061-2068 | Sending the proxies back yields the original objects at the owner and changes nothing on either side |
| Boxing.MirrorDumpable | rpyc_async/core/protocol.py:1948-1951 | A value goes back by value exactly when it came by value |
| Boxing.ReferenceResolves | rpyc_async/core/protocol.py:2155-2211 | A reference is the own object of its id pack, or the netref of the id pack, which counts one more or is new and counts one, with the flag of the reference; one to a missing own object is an error |
| Boxing.NetrefBoxed | rpyc_async/core/protocol.py:2061-2095 | A netref goes out with its flag while it is among the proxies, as an own object if it is registered here, and otherwise as a plain reference |
| Boxing.UnboxRef | rpyc_async/core/protocol.py:2155-2167 | The three- and the four-element form of a reference are read alike, the flag apart |
| Boxing.BoxedIsDumpable | rpyc_async/core/protocol.py:1948-2120 | Every package that boxing returns is dumpable |
| Boxing.BoxedMessageTravels | rpyc_async/core/protocol.py:1903-1904 | Within the length limits and with strings that can be encoded, dumping a boxed request or reply succeeds and the peer loads the same body |
| Boxing.Connection.BoxValue | rpyc_async/core/protocol.py:1943-2120 | The package and the new tables are those of the boxing function |
| Boxing.Connection.BoxItems | rpyc_async/core/protocol.py:1950-1951 | The items of a tuple are boxed in order, each seeing the tables the one before left |
| Boxing.Connection.UnboxPackage | rpyc_async/core/protocol.py:2122-2240 | The value or the error and the new tables are those of the unboxing function |
| Boxing.Connection.UnboxItems | rpyc_async/core/protocol.py:2129-2130 | The items are unboxed in order; the first error keeps what was counted before it |
| Lifetime.CountsAreConserved | rpyc_async/core/protocol.py:1574-1624 | In every reachable state, no late unboxing having missed, the owner count of every id pack is references in flight plus live proxy counts plus queued, batched and travelling deletions plus what was abandoned |
| Lifetime.LiveProxyKeepsObject | rpyc_async/core/netref.py:212-245 | An object with a live proxy at the peer is registered under its own id pack, with at least the proxy count |
| Lifetime.DeletionIsExact | rpyc_async/core/protocol.py:3522-3538 | A deletion never meets a missing key and never goes below zero; it removes the entry exactly when nothing else stands for the object |
| Lifetime.BackReferenceResolves | rpyc_async/core/protocol.py:2128-2251 | A package unboxed on arrival never misses: its back references ahead of the first reference whose class must be fetched resolve to the live objects of their owner, whatever deletions follow; those behind it are parked, and none is the one fetched |
| Lifetime.BackReferenceRegistered | rpyc_async/core/protocol.py:2180-2204 | A reference that is back at the head of the stream of its owner names a registered object |
| Lifetime.QuiescenceReleases | rpyc_async/core/protocol.py:1574-1624 | At rest the registries hold exactly what was abandoned: the entry is gone if and only if nothing was |
| Lifetime.BoxedAgain | rpyc_async/core/protocol.py:2097-2098 | Boxing an object again after its entry was removed starts its count afresh at one |
| Lifetime.AbandonsIff | rpyc_async/core/protocol.py:1598-1624 | Counts are abandoned exactly by skipping a batched deletion as resurrected, by not sending one as that raises or its task is cancelled, by the gate dropping a package, by an unboxing that raises or is cancelled before a reference of the sender, and by a boxed message that could not be sent |
| Lifetime.MissIff | rpyc_async/core/protocol.py:2242-2257 | A reference that came back and was parked, in a task, another thread, the reader list of frames or behind a class fetch, misses exactly when since it was at the head of the stream a deletion as large as the count was applied and the object was not boxed again |
| Lifetime.OnlyParkedMisses | rpyc_async/core/protocol.py:2376-2380 | Only the next reference of a parked package can miss |
| Lifetime.ArrivalNeverMisses | rpyc_async/core/protocol.py:2861-2864 | Unboxing on arrival, up to the first class to be fetched, never misses |
| Lifetime.HeldReferencesNeverMiss | rpyc_async/core/protocol.py:2376-2380 | If senders keep their proxies until a parked reference is unboxed, no run misses and the whole invariant holds at its end |
| Lifetime.StepKeepsInv | rpyc_async/core/protocol.py:1574-1624 | Every step keeps conservation, ownership of keys and safety of back references |
| Lifetime.StepConserves | rpyc_async/core/protocol.py:2097-2211 | Every step of either peer keeps the ledger of every id pack balanced |
| Lifetime.BoxConserves | rpyc_async/core/protocol.py:2097-2098 | Boxing raises the count by the references put in the package |
| Lifetime.ArriveConserves | rpyc_async/core/protocol.py:2206-2211 | Unboxing on arrival moves references from the stream to proxies, repeated references included, and the rest to what is parked |
| Lifetime.UnboxNextConserves | rpyc_async/core/protocol.py:2128-2251 | Unboxing the next reference of a parked package moves it to a proxy, or leaves it waiting for its class |
| Lifetime.GiveUpConserves | rpyc_async/core/protocol.py:2242-2252 | An unboxing that raises or is cancelled moves the references of the sender that are left to what is abandoned |
| Lifetime.SendFailsConserves | rpyc_async/core/protocol.py:3328-3336 | A message that cannot be sent moves the references of its own objects to what is abandoned |
| Lifetime.ReceiveConserves | rpyc_async/core/protocol.py:1152-1156 | A deletion received and not yet applied still counts as going back |
| Lifetime.ParkConserves | rpyc_async/core/protocol.py:2825-2838 | A package handed to a task or thread keeps its references in flight |
| Lifetime.DropConserves | rpyc_async/core/protocol.py:2818-2823 | Dropping a request moves the references of its sender to what is abandoned |
| Lifetime.BuiltConserves | rpyc_async/core/protocol.py:2242-2257 | A netref whose class was fetched counts one, even if another took its place in the cache meanwhile |
| Lifetime.DieConserves | rpyc_async/core/netref.py:224-245 | A dying proxy moves its whole count to the deletion queue |
| Lifetime.CollectConserves | rpyc_async/core/protocol.py:1574-1591 | Grouping the queue by id pack keeps every count |
| Lifetime.SendDelConserves | rpyc_async/core/protocol.py:1620-1625 | Sending a batched deletion moves its count to the stream |
| Lifetime.SkipConserves | rpyc_async/core/protocol.py:1598-1607 | Skipping a batched deletion moves its count to what is abandoned |
| Lifetime.DelFailsConserves | rpyc_async/core/protocol.py:1619-1733 | A batched deletion that is not sent, because sending raises or the task is cancelled, moves its count to what is abandoned |
| Lifetime.HandleDelConserves | rpyc_async/core/protocol.py:3524-3525 | Applying a deletion takes exactly its count off the owner |
| Lifetime.GroupedSum | rpyc_async/core/protocol.py:1588-1591 | Grouping adds up to the same total for every id pack |
| Lifetime.GroupedKeys | rpyc_async/core/protocol.py:1588-1591 | Grouping keeps the id packs, each once |
| Lifetime.ProxyCovers | rpyc_async/core/protocol.py:2061-2068 | While a proxy lives the owner count exceeds all deletions on the stream |
| Proxies.CachedAtMostOnce | rpyc_async/core/protocol.py:2206-2211 | In every reachable state the cache of either side points to at most one netref of an id pack |
| Proxies.NextReferenceCounts | rpyc_async/core/protocol.py:2206-2211 | The next reference of a parked package: a cached netref of its id pack counts one more and nothing else changes; an own object changes none; otherwise one netref that counts one is added, or the package waits for its class |
| Proxies.ArrivalCounts | rpyc_async/core/protocol.py:2206-2211 | After unboxing on arrival every netref is where it was, each cached one counts all references with its id pack, and each id pack without one has exactly one new netref, which counts them all |
| Proxies.BuiltReplaces | rpyc_async/core/protocol.py:2210-2211 | A netref whose class was fetched is added and takes the cache entry of one made meanwhile, which keeps its count |
| Proxies.StepKeepsOnce | rpyc_async/core/protocol.py:2206-2211 | Every step keeps at most one cached netref for each id pack |
| Proxies.StreamsAreFifo | rpyc_async/core/protocol.py:1923-1939 | A step of one side appends at most one message to the other stream and takes at most the first off its own; packages are appended by sending only |
| Proxies.TravelsWhole | rpyc_async/core/protocol.py:1903-1941 | What is boxed is sent and parked as it is and unboxed from its first reference on; a deletion is received as it was sent |
| Netrefs.GroupDeletions | rpyc_async/core/protocol.py:1588-1591 | The loop over the batch yields, in first-seen order, each id pack once with its total |
| Netrefs.Connection.UnboxRef | rpyc_async/core/protocol.py:2180-2221 | An own object leaves the proxies alone; with a cached proxy of the id pack exactly that one counts one more; otherwise one proxy with count one is added and cached; the unboxing of the machine |
| Netrefs.Connection.FindCached | rpyc_async/lib/colls.py:34-44 | Finds the cached proxy of an id pack, if there is one |
| Netrefs.Connection.Collected | rpyc_async/core/netref.py:224-245 | The dying step of the machine: for every id pack the references counted by live proxies and queued together stay the same, with one proxy fewer |
| Netrefs.Connection.HandleDel | rpyc_async/core/protocol.py:3522-3538 | The registry gives the count back, and the reply says whether the object was removed |
| Netrefs.Connection.ProcessPendingDeletions | rpyc_async/core/protocol.py:1574-1625 | Empties the queue and sends one deletion per id pack with its total, except for id packs with a cached proxy |
| Netrefs.Connection.SendDeletions | rpyc_async/core/protocol.py:1593-1625 | Sends the grouped deletions in order, skipping the resurrected |
| Netrefs.GroupedInOrder | rpyc_async/core/protocol.py:1588-1591 | Grouping keeps the order in which the id packs were first queued |
| Netrefs.DrainIsSteps | rpyc_async/core/protocol.py:1593-1625 | Working a batch off step by step ends in the state of the undisturbed drain: its deletions on the stream in order, the skipped counts abandoned, all else as before |
| Netrefs.LateUnboxingCanMiss | rpyc_async/core/protocol.py:2376-2380 | A reachable run in which a deletion overtakes the late unboxing of a reference, which becomes a proxy of nothing |
| Netrefs.SuspendedArrivalCanMiss | rpyc_async/core/protocol.py:2242-2251 | A reachable run in which a package unboxed on arrival waits for a class, serves the deletion behind it, and then misses |
| Netrefs.ResurrectionLeaks | rpyc_async/core/protocol.py:1598-1607 | A reachable run that comes to rest with an object registered for good, because its deletion was skipped |
| Wakeup.FreshIsAttended | rpyc_async/core/protocol.py:1256-1297 | A deletion put while the task runs and still queued: the event is set, a callback is scheduled or firing, the task is collecting, or an enqueuer has not finished; with and without debounce |
| Wakeup.IdleMeansDrained | rpyc_async/core/protocol.py:1371-1404 | When nothing but a new deletion can happen, the task waits and no fresh deletion is queued |
| Wakeup.EventuallyDrained | rpyc_async/core/protocol.py:1371-1404 | From every reachable state every continuation without new deletions ends within a number of steps known beforehand, and where it ends no fresh deletion is queued |
| Wakeup.RunsAreShort | rpyc_async/core/protocol.py:1574-1581 | Without new deletions each step brings the task closer to rest |
| Wakeup.SignalsAreCounted | rpyc_async/core/protocol.py:1265-1284 | Over every run each callback handed to the loop is run once; with the debounce it arms a timer, and each timer sets the event once; without, no timer is ever armed and the callbacks set it |
| Wakeup.PutsAreCounted | rpyc_async/core/protocol.py:1290-1297 | Over every run each deletion put is still queued or was taken by the task once, and is fresh exactly if the task ran |
| Wakeup.EnqueuesAlone | rpyc_async/core/protocol.py:1256-1288 | An enqueuer on its own hands a callback to the loop exactly if a task runs and no signal is pending, so signals coalesce |
| Wakeup.DrainsAlone | rpyc_async/core/protocol.py:1388-1391 | A waiting task whose event is set clears it and empties the queue before the first acknowledgment |
| Wakeup.StepKeepsFlag | rpyc_async/core/protocol.py:1260-1284 | The pending flag is set only while a callback is scheduled or an enqueuer is about to schedule one |
| Wakeup.StepKeepsWakeUp | rpyc_async/core/protocol.py:1256-1297 | Every step of enqueuers, callbacks and task keeps the wake-up of a fresh deletion |
| ServeBound.OneReceiver | rpyc_async/core/protocol.py:2938-3082 | With any number of threads at most one is in the receive loop, and the flag is set exactly while one is, if and only if no message was too short for its thread ids or refused by a shut-down executor, and closing the connection never raised |
| ServeBound.JamsIff | rpyc_async/core/protocol.py:3007-3056 | Exactly three steps leave the flag set with nobody in the loop: a message too short, an executor that refuses one, and closing at the end of the stream that raises |
| ServeBound.JammedForGood | rpyc_async/core/protocol.py:2960-2992 | With the flag set and nobody in the loop, no run ever reads a message again |
| ServeBound.ClosingCanJam | rpyc_async/core/protocol.py:3010-3018 | A reachable run in which closing raises while another thread waits, after which no run reads a message |
| ServeBound.ReadOnce | rpyc_async/core/protocol.py:2938-3097 | Every message read is in exactly one place: given to one thread, in the receiver hands, with one temporary thread, or dropped for being short or refused |
| ServeBound.BoundArrives | rpyc_async/core/protocol.py:3062-3067 | From the moment it is read, in every run, a message that names a thread is in the receiver hands on its way there or was given to that thread; no other thread gets it, nor the executor, and it is not lost |
| ServeBound.RoutingReaches | rpyc_async/core/protocol.py:3036-3082 | A message for another thread is appended to the deque of that thread, which is signalled; one for itself, or for anybody while it is not occupied, the receiver dispatches; any other goes to a free thread of the pool, or to the executor exactly if there is none |
| ServeBound.EnteringDoes | rpyc_async/core/protocol.py:2951-2970 | A thread that enters with a message pending dispatches the first; otherwise it waits while somebody receives, and receives if nobody does |
| ServeBound.WokenDoes | rpyc_async/core/protocol.py:2972-3003 | A thread not signalled in time goes and stays in the pool; a signalled one leaves it to dispatch its first message or to receive, or waits on while another receives |
| ServeBound.DispatchedInOrder | rpyc_async/core/protocol.py:2957-2975 | A thread dispatches all it is given in the order given, and is signalled for what is in its deque |
| ServeBound.NeverStalled | rpyc_async/core/protocol.py:2938-3082 | While no wait timed out and the channel did not raise, nobody sleeps with the baton down and nobody woken to take it |
| ServeBound.StallsIff | rpyc_async/core/protocol.py:3004-3080 | A step leaves a thread asleep with the baton down and nobody on the way to it exactly when it puts the baton down, some thread sleeps, none is on the way, and the thread it wakes is not asleep |
| ServeBound.TimeoutCanStall | rpyc_async/core/protocol.py:2997-2998 | A reachable run in which a timed-out thread, left in the pool, is handed the baton while another sleeps |
| ServeBound.FailureCanStall | rpyc_async/core/protocol.py:3011-3018 | A reachable run without time-outs in which an exception of the channel wakes a thread that has messages of its own while another sleeps |
| ServeBound.PuttingDownStalls | rpyc_async/core/protocol.py:3004-3080 | The stall condition for each way of putting the baton down: time-out, exception, and keeping a message |
| ServeBound.StepKeepsBaton | rpyc_async/core/protocol.py:2938-3082 | Every step keeps the flag and the threads in the loop in balance |
| ServeBound.StepKeepsThreads | rpyc_async/core/protocol.py:2938-3097 | Every step keeps each thread order and signal, and nothing pending for the receiver |
| ServeBound.StepKeepsMessage | rpyc_async/core/protocol.py:2938-3097 | Every step keeps each message in one place |
| ServeBound.StepKeepsPool | rpyc_async/core/protocol.py:2964-2995 | Waiting threads are in the pool; until a wait times out the pool holds nobody else, and nobody twice |
| ServeMachine.FirstUnset | rpyc_async/core/protocol.py:3023-3032 | The hand-over goes to a pool member whose event is not set, if there is one |
| ServeMachine.FirstFree | rpyc_async/core/protocol.py:3041-3056 | An unbound message goes to a pool member that is free and has nothing pending, if there is one |
| Requests.SetOnceByOwnReply | rpyc_async/core/protocol.py:2676-2682 | In every interleaving a result is set at most once, by the reply with its own number, and callbacks run only after that; no two results share a number |
| Requests.RegisteredOnce | rpyc_async/core/async_.py:116-127 | Every registered callback is in one place: about to be appended, waiting, run, or dropped |
| Requests.RunsAtMostOnce | rpyc_async/core/async_.py:89-97 | Each callback runs at most once, and with one result only |
| Requests.OthersKeepTheirSlots | rpyc_async/core/async_.py:264-283 | A failed send, a cancellation and a collection take away no slot but that of their own result |
| Requests.GoneForGood | rpyc_async/core/protocol.py:3320-3336 | A number that has lost its slot never gets one again, and a reply with it changes nothing |
| Requests.SlotReleased | rpyc_async/core/async_.py:264-283 | A failed send, a cancellation and a collection free the slot of their own result, whatever happens afterwards |
| Requests.SecondReplyIgnored | rpyc_async/core/protocol.py:2676-2682 | After a reply, whatever happens, a second one with the same number changes nothing |
| Requests.RunsIff | rpyc_async/core/async_.py:89-97 | A callback that has not run can still run exactly when it waits with a result that is still going to go through its list, or is left of a list being gone through |
| Requests.LostIff | rpyc_async/core/async_.py:89-127 | A callback that could still run is lost exactly by the loss of its slot before the reply, a reply that finds the result expired, an awaiter ending before its list is gone through or before it joins the list, another callback of the result that raises, or a loop ending while it is about to join |
| Requests.LostForGood | rpyc_async/core/async_.py:89-127 | A callback that can no longer run never does, in any run |
| Requests.HopefulRuns | rpyc_async/core/async_.py:89-127 | From every state in which the condition holds some run calls the callback |
| Requests.LateCallbackIsLost | rpyc_async/core/async_.py:116-127 | A reachable run without cancellation in which a callback added during the delivery is appended after the loop and never runs |
| Requests.RaisingCallbackLosesTheNext | rpyc_async/core/async_.py:95-97 | A reachable run without cancellation in which a callback raises and the one behind it, still in the list, is never called in any run |
| Requests.AddedIsCalled | rpyc_async/core/async_.py:116-127 | A callback added to a ready result is called at once; one added to a result not ready is about to join its list, and can be called exactly when the result is going to be delivered |
| Requests.RequestWaits | rpyc_async/core/protocol.py:3320-3328 | A request gets a number and a slot of its own and a result that is going to be delivered |
| Requests.ReplySetsAndCalls | rpyc_async/core/protocol.py:2676-2682 | The first reply with the number of a waiting request frees the slot, sets the result and, undisturbed, calls every callback in its list in order |
| Requests.StampedReleases | rpyc_async/core/async_.py:264-283 | Once a result was told its number, an awaiter that ends and a collection free its slot for good, whatever happens before and after |
| Requests.StepKeepsSlots | rpyc_async/core/protocol.py:3320-3336 | Every step keeps each slot with the pending result that was given its number |
| Requests.StepKeepsCallback | rpyc_async/core/async_.py:64-127 | Every step keeps each registration in one place |
| Requests.Outcome.Call | rpyc_async/core/async_.py:89-97 | Sets the result and runs the callbacks in order, then forgets them, as a run of the machine that nobody disturbs; up to the one that raises, if one does, and then the list is kept whole; an expired result stays as it is |
| Requests.Outcome.AddCallback | rpyc_async/core/async_.py:116-127 | Calls the callback at once when the result is ready, and otherwise appends it to the list; the adding step of the machine, followed by the append |
| Gate.AcceptedAreAccountedFor | rpyc_async/core/protocol.py:2825-2838 | Accepted minus finished is the counter plus the scheduled not yet started; each accepted request is in one of the three places |
| Gate.AcceptedIff | rpyc_async/core/protocol.py:2583-2592 | With an event loop a request for a coroutine is accepted exactly when nothing was dropped before and there is no limit or fewer tasks run than it allows; otherwise it is dropped and the connection quarantined |
| Gate.OtherVerdicts | rpyc_async/core/protocol.py:2836-2857 | A plain request is served; without an event loop a late coroutine is refused and an asynchronous request raises; nothing else changes |
| Gate.UnlimitedNeverDrops | rpyc_async/core/protocol.py:2820-2823 | With limit zero, or without an event loop, nothing is ever dropped and the connection is never quarantined |
| Gate.PeakIsAttained | rpyc_async/core/protocol.py:2825-2838 | The peak in the bound is a number of requests that did wait at once |
| Gate.Bounded | rpyc_async/core/protocol.py:2818-2830 | The counter plus the scheduled never exceeds the limit less one plus the most ever scheduled at once |
| Gate.BoundIsReached | rpyc_async/core/protocol.py:2827-2830 | For every limit and every burst size the bound is reached by running tasks alone |
| Gate.QuarantineIsForGood | rpyc_async/core/protocol.py:2818-2823 | Once a request was dropped no later one is accepted |
| Gate.QuarantinedServesPlain | rpyc_async/core/protocol.py:2836-2857 | In quarantine, whatever happens, plain requests are served, and others dropped, or without an event loop answered with an error or raised |
| Gate.StepKeepsCounts | rpyc_async/core/protocol.py:2818-2838 | Every step keeps the counter at the number of running tasks and the bound |
| Gate.InboundGate.Dispatch | rpyc_async/core/protocol.py:2580-2643 | Accepts, behind those scheduled, exactly outside quarantine and below the limit or without one; drops the rest and enters quarantine, which clears the outstanding requests; serves, refuses and raises as its kind says; a step of the machine |
| Gate.InboundGate.Begin | rpyc_async/core/protocol.py:2827-2830 | The scheduled callback that runs first raises the counter |
| Gate.InboundGate.OnDone | rpyc_async/core/protocol.py:2832-2834 | A task that is done lowers the counter |
| CloseNotice.CalledAtMostOnce | rpyc_async/core/protocol.py:819-873 | Every registered callback is in one place: listed, about to be called, or called; so it is called at most once |
| CloseNotice.CalledIff | rpyc_async/core/protocol.py:819-873 | With nobody calling, a callback has been called, once, exactly when it was registered on a closed connection or a teardown has taken the list |
| CloseNotice.FiresIff | rpyc_async/core/protocol.py:697-786 | A list not taken can be taken without the peer exactly when the connection is open, or some activation is on its way to it, or one can detach the service before another tests it; on a thread of the executor the shutdown ends the way |
| CloseNotice.PeerCloseTearsDown | rpyc_async/core/protocol.py:3461-3462 | After the peer close request its activation, left to itself, closes the connection, tells an attached service once and detaches it; it calls the listed callbacks once each in order exactly unless it runs on a thread of the executor and found the service attached |
| CloseNotice.OwnCloseTearsDown | rpyc_async/core/protocol.py:758-786 | The same for a close on this side of an open connection |
| CloseNotice.ClosedWithoutNotice | rpyc_async/core/protocol.py:2345-2362 | After a reply that cannot be sent, with no close or teardown under way, no callback registered by then is ever called in any run without a close request of the peer |
| CloseNotice.AnyNumberUncalled | rpyc_async/core/protocol.py:771-772 | A reachable closed connection with any number of callbacks that no run without the peer calls |
| CloseNotice.WorkerTeardownNotifiesNobody | rpyc_async/core/protocol.py:741-742 | A reachable run in which the teardown, on a thread of the executor, ends at the shutdown: the connection is closed and taken apart, and no run without the peer calls the callback listed |
| CloseNotice.RunStaysDead | rpyc_async/core/protocol.py:771-772 | A closed connection with nobody on the way to the list stays so, new closes included |
| CloseNotice.WayToFire | rpyc_async/core/protocol.py:697-756 | An undisturbed activation on its way gets to taking the list |
| CloseNotice.OvertakenFires | rpyc_async/core/protocol.py:706-742 | An activation on a thread of the executor gets to taking the list when another detaches the service before it tests it |
| CloseNotice.SecondCallIff | rpyc_async/core/protocol.py:697-713 | A step is the second call of on_disconnect exactly when it calls the service while attached, after a call raised or while another teardown is between its call and detaching; one that finds the service detached raises and calls nothing |
| CloseNotice.ToldOnceIff | rpyc_async/core/protocol.py:697-713 | A service told at most once so far is told at most once in a run exactly when the run has no such step |
| CloseNotice.TwoTeardownsTellTwice | rpyc_async/core/protocol.py:706-713 | Two overlapping teardowns call on_disconnect twice |
| CloseNotice.RaisingTellsTwice | rpyc_async/core/protocol.py:706-713 | A service that raises is told again by the next teardown |
| CloseNotice.StepKeepsCallback | rpyc_async/core/protocol.py:819-873 | Every step keeps each registration in one place |
| CloseNotice.StepKeepsTold | rpyc_async/core/protocol.py:697-737 | While the service is attached every call made has raised or is about to detach it, and only a teardown that calls while it is attached adds a call |
| CloseNotice.Notifier.AddCloseCallback | rpyc_async/core/protocol.py:807-829 | The registering step of the machine, followed on a closed connection by its call |
| CloseNotice.Notifier.FireCloseNotifications | rpyc_async/core/protocol.py:858-873 | Calls the listed callbacks in order and forgets them, as a run of the machine |
| ThreadPool.OneTokenPerConnection | rpyc_async/utils/server.py:373-460 | With any number of workers, and until a number is given again while the table has it, the descriptor of a connection, zero apart, is in exactly one of polling object, queue and hands until dropped, and then nowhere |
| ThreadPool.OneTokenIff | rpyc_async/utils/server.py:373-498 | Exactly the step that gives its number to a new connection while the table has it breaks this for a connection |
| ThreadPool.ReuseDropsTheNew | rpyc_async/utils/server.py:428-437 | A reachable run in which a connection closes itself while served, a new one gets its number, and the worker drops the new one from the table: it is polled and nobody has its connection |
| ThreadPool.ServedByOne | rpyc_async/utils/server.py:448-460 | No two workers serve one connection, and the one served is in the table |
| ThreadPool.ZeroIsLost | rpyc_async/utils/server.py:456-460 | A worker lets go of descriptor zero: a reachable state with its connection in the table and its descriptor nowhere |
| ThreadPool.LostForGood | rpyc_async/utils/server.py:448-460 | A connection whose descriptor is nowhere is never served or dropped again while its number is not given to another |
| ThreadPool.ServePlaces | rpyc_async/utils/server.py:428-446 | Every end of a turn moves the descriptor to one place, or takes it away together with its connection |
| ThreadPool.StepKeepsPlace | rpyc_async/utils/server.py:373-498 | Every step of accepting, polling and serving keeps each descriptor in one place |
| ThreadPool.StepKeepsReady | rpyc_async/utils/server.py:394-409 | What is left of a poll result is still registered, so unregistering finds it |
| ThreadPool.Server.HandlePollResult | rpyc_async/utils/server.py:394-409 | Unregisters the reported descriptors, queues those with data in order and drops the others, up to the first whose closing raises; those behind it stay registered; a run of the machine |
| ThreadPool.Server.ServeRequests | rpyc_async/utils/server.py:428-446 | The turn ends with the descriptor inactive, queued or dropped, as the first outcome that is not a served request says; dropped stays dropped when closing raises; a run of the machine |
| ThreadPool.TurnAsSteps | rpyc_async/utils/server.py:428-446 | For every batch size and every sequence of outcomes an undisturbed turn is a run of single steps to the state the turn promises |
| ThreadPool.TurnFromQueue | rpyc_async/utils/server.py:456-460 | A worker takes the descriptor longest in the queue and serves it up to a batch, in steps of the machine, to the end its outcomes say |
| Buffiter.Islice | rpyc_async/core/protocol.py:3630-3631 | The owner answers with the next items, as many as asked for or left, and refuses exactly the counts that are negative or above the largest index |
| Buffiter.Iterate | rpyc_async/utils/helpers.py:38-48 | For all integer arguments: yields the items the chunk sizes give, in order, and ends without error or with the value error the code raises |
| Buffiter.ReadsAllIff | rpyc_async/utils/helpers.py:40-48 | For all chunk and limit values and any factor from one: everything is read without error if and only if the chunk is a count the owner takes and there is nothing to read, or the chunk is positive and the limit zero with one chunk enough, or positive with no request too large before the end |
| Buffiter.SmallLimitReadsAll | rpyc_async/utils/helpers.py:40-48 | With a chunk and a limit from one to the largest index everything is read without error |
| Buffiter.RequestSizes | rpyc_async/utils/helpers.py:41-44 | Request zero asks for the chunk, request j for the chunk times the factor to the j, up to the limit |
| Buffiter.FewRequests | rpyc_async/utils/helpers.py:41-46 | If k multiplications reach the limit there are at most k plus the ceiling of n over the limit plus one requests |
| Buffiter.ChunksIsCeiling | rpyc_async/utils/helpers.py:41-46 | The number of chunks used in that bound is the ceiling of the quotient |
| Identity.PacksApart | rpyc_async/core/protocol.py:1835-1873 | Two living objects that were given ids have different id packs, instances and classes alike |
| Identity.AllocatedIdsAreInjective | rpyc_async/core/protocol.py:1835-1873 | The ids of every run of the allocator name the living objects apart, which is what the round trip of boxing requires |
| StableIds.NeverShared | rpyc_async/core/protocol.py:1763-1833 | No id but zero is ever given to two objects, dead or alive, over any run; zero is for classes only |
| StableIds.FreshIsAbove | rpyc_async/core/protocol.py:1812-1832 | An object not in the tables gets an id above every one issued before |
| StableIds.KeepsId | rpyc_async/core/protocol.py:1795-1828 | A tabled object keeps its id while it lives and the id is not released; in the weak table even then |
| StableIds.AskedIsTabled | rpyc_async/core/protocol.py:1795-1832 | Asking for the id of an instance puts it in the tables with the id given, in the weak one exactly if it can be referred to weakly and hashed |
| StableIds.WeakOnesCanDie | rpyc_async/core/protocol.py:1795-1832 | The tables never keep alive an object that can be referred to weakly and hashed, nor a class |
| StableIds.ReleasesOnlyIts | rpyc_async/core/protocol.py:1890-1901 | Forgetting takes away exactly the one entry by address with the id |
| StableIds.PidOfNth | rpyc_async/core/protocol.py:446 | The n-th number carries the process id in its upper half if and only if n is below 2^32 |
| StableIds.PidsKeepApart | rpyc_async/core/protocol.py:446 | Two processes that each drew at most 2^32 - 1 numbers issued no common id to instances |
| StableIds.AllocFresh | rpyc_async/core/protocol.py:1791-1833 | The allocator returns the tabled id, or one at or above the counter, which never falls |
| StableIds.Allocator.AllocStableObjId | rpyc_async/core/protocol.py:1763-1833 | The id and the new tables are those of the allocation function, the used-up number of unhashable objects included |
| StableIds.Allocator.ForgetStableObjId | rpyc_async/core/protocol.py:1875-1901 | The scan that stops at the first match leaves the tables of the forgetting function |

## Left out

- Real sockets, SSL, pipes, polling and process spawning are operating-system calls; a socket here accepts and yields any positive part of the data, is interrupted a bounded number of times between progress, and may fail when declared faulty.
- zlib is a pair of functions of which only `decompress(compress(d)) == d` is assumed, and only where stated; struct is big-endian arithmetic; floats are their eight packed bytes and strings their encoded bytes (section 3 of RFC 3629 is not modelled, so loading a string does not check that its bytes are well formed; a string without an encoding is one value, `Surrogates`).
- A frozenset is the sequence of its items in iteration order; that equal items collapse is not modelled.
- Brine.Load: a slice or frozenset tag followed by a string, which Python iterates by character, is a type error here; the decimal text of an int is read as an optional sign and digits, without the blanks and underscores that `int` also accepts.
- Brine.DumpableIffDumps: the interpreter's own limits, on the number of digits of a printed or parsed int and on the depth of recursion, are not modelled.
- Boxing.RoundTrip: the class fetch of `_netref_factory` (a nested request) is left to `Lifetime`, where unboxing waits for it; the id of every object is given as a function that names the living objects apart, which `Identity` proves of the allocator's ids. An id pack whose name is not a string is an error here, where Python converts it.
- Boxing.NetrefBoxed: a netref and the proxy of its id pack are one here, so the flag of a netref that is not in the cache any more, which the code reads off the netref itself, is taken as unset.
- Boxing.Connection.UnboxPackage: a package that no boxing produces, where Python would unpack bytes, strings or sets of two items or raise a type error instead, is a value error here.
- Lifetime.CountsAreConserved: of runs in which no late unboxing has missed its object; `MissIff` says exactly when one does, and `HeldReferencesNeverMiss` under which condition none does. Objects are compared by identity and ids are those of one connection; chained connections bring foreign id packs into the key space and are left out. A proxy dies in one step.
- Lifetime.AbandonsIff: the id packs of the two ends are assumed distinct. Classes have id zero and built-in classes can share addresses across processes, so a class reference of the peer whose id pack is registered here too resolves to the class here, and its sender's count is never given back; the key of the model carries its owner, which excludes this. Closing a connection, which clears both tables and drops what is queued, is left out.
- Lifetime.UnboxNextConserves: a parked package is unboxed one reference at a time, with any steps in between; which classes are cached is not modelled, so any netref to be made may wait for its class.
- Lifetime.SendDelConserves: the stream loses nothing while the connection is open; the acknowledgment of a deletion only ends a wait, and a failed one is reported and not sent again.
- SendQueue.NothingStranded: for channels that do not raise; what one call leaves behind after an exception is in `Sender.Send`.
- ServeBound.StallsIff: how a stall ends (a thread enters, or a message or time-out wakes the sleeper) is not stated. Thread records exist for all ids from the start, and an empty message counts as none, as in the code.
- ServeBound.StepKeepsThreads: the occupation count of a thread changes arbitrarily while it is outside; how requests and replies change it is not modelled.
- Requests.LostIff: `set_expiry` and the clock appear only as the choice whether a delivery finds the result expired. Adding a callback takes the list and appends to it in one step.
- Requests.RunsIff: a reply whose values cannot be unboxed raises before it reaches the table and is no step, so its slot stays; since a reply may carry any number at any time here, the callbacks of that slot count as able to run, though the peer of the code does not answer twice.
- Gate.QuarantineIsForGood: that entering quarantine cancels running tasks is not claimed; the tasks of late coroutines are not found by it. Tasks finish, by cancellation or otherwise, at any time; the event loop takes what is scheduled on it.
- CloseNotice.CalledAtMostOnce: the futures of `wait_closed` are kept in a second list treated like the callbacks and are not modelled. The teardown that a failed `async_connect` runs by itself is left out, and the executor's shutdown ends unless the thread would wait for itself.
- ThreadPool.OneTokenPerConnection: registering a descriptor with the polling object is taken to succeed, and the end markers queued at shutdown are left out.
- Buffiter.Iterate: integer arguments; the code also takes a fractional factor.
- StableIds.KeepsId: the weak table is keyed by equality in the code; objects whose equality is identity are assumed. Modules and netrefs take their id packs elsewhere.
- StableIds.Allocator.ForgetStableObjId: requires that no two entries have the same id, which `ReleasesOnlyIts` proves of every reachable table; an id pack of fewer than three items, which the code ignores, is not modelled.
- Wakeup.EventuallyDrained: the connection stays open and the event loop stays up; the drain at close is left out.
- Attribute permission checks, exception transport, pickling, `restricted`, registry servers, factories, zerodeploy and the command line: dynamic Python behaviour or plumbing, with easy properties.
- Exceptions that are not ordinary ones, such as a keyboard interrupt, are raised nowhere.
- asyncio and garbage collection: events, scheduled callbacks and tasks are steps, and a collection is a step that may happen at any time.

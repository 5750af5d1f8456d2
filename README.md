# rust-ghostcore-zmq core, modelled in Dafny

This project models two parts of a client for a node's ZMQ notification feed.

The first part is the notification frame codec (`src/message.rs`), module `Codec` in `codec.dfy`:
- The `Message` sum type has six variants: block hash, transaction id, wallet transaction id with wallet label, block, transaction and mempool sequence message. Each variant carries a 32-bit sequence number.
- Encoding turns a message into three frames: topic, data and the 4-byte little-endian sequence.
- Decoding checks a frame group in a fixed order: frame count, sequence length, topic dispatch, payload.

The second part is the poll-driven streams of `src/subscribe/stream.rs`, in two modules:
- Module `Stream` in `stream.dfy`:
  - the message stream over the subscription socket;
  - the merged stream, in which the monitor socket's connection events take priority over data;
  - the finite stream, which closes for good on the first `Disconnected` event;
  - the handshake wait, which counts handshakes and disconnections until every endpoint is connected;
  - the mapping of the handshake/timer race to an `Option`.
- Module `Timer` in `timer.dfy`: the three-state sleep cell behind the timeout.

Module `Wrappers` in `wrappers.dfy` holds the `Option` type the three modules share.

Modelling choices:
- Panics are values. A function that can panic returns `Panicking<T>`: either `Returns(value)` or `Panics(cause)`.
- Socket input is a script. Each inner stream (subscription socket, monitor socket) is the sequence of outcomes its successive polls give: `Pending`, `Ready(item)` or `End`. A poll takes the head of the script, and a used-up script keeps answering `Pending`.
- The streams are classes. Their fields are the scripts they have not yet consumed, and each method is proved against a function on those values (`MessagePoll`, `SocketPoll`, `FinitePoll`, `HandshakeLoop`, `PollSleep`, `FireSleep`).
- Some codecs are parameters. The block and transaction consensus codecs, the sequence-message codec and lossy UTF-8 decoding come in as the function values of an `Externals` record. The monitor's event decoder and the data socket's frame decoder come in as a `Decoders` record.
- Blocks, transactions and sequence messages are abstract types.
- `Error` and the socket events are declared from their uses, because `src/error.rs` and `src/event.rs` are not part of this model.
- `InvalidTopicData` renders an `InvalidTopic` error the way the unit tests read it back.
- Two helpers have no row of their own. `FromLeBytes` (`u32::from_le_bytes`, src/message.rs:139) is covered by the rows of `ToLeBytes` and `LeBytesRoundTrip`. `LiftMessage` (the `.map(SocketMessage::Message)` at src/subscribe/stream.rs:101) is covered by the row of `SocketPoll`.

Three behaviours of the code are easy to misread. The model follows the code in each:
- Decoding `hashwtx` data shorter than 32 bytes panics when it slices `data[..32]`. It does not return `Invalid256BitHashLength`, so that error arm is dead code.
- Decoding `hashwtx` keeps the 32 txid bytes in wire order. `hashblock` and `hashtx` reverse them, and encoding reverses every hash.
- Encoding `HashWTx` always panics:
  - when the wallet label is longer than 32 bytes, because the label is copied into a 32-byte buffer;
  - otherwise, because the 64-byte concatenation does not convert into the 32-byte array the other arms fix.
  
  So `HashWTx` has no round trip.

## Model

| member | source | states |
|---|---|---|
| Codec.Message.TopicStr | src/message.rs:35-47 | the topic of every variant is at most `TOPIC_MAX_LEN` (9) characters |
| Codec.Message.Topic | src/message.rs:29-31 | the topic bytes are at most 9 bytes and are one of the six known topics |
| Codec.TopicIdentifiesVariant | src/message.rs:35-47 | two messages with the same topic are the same variant, so the topic determines the variant |
| Codec.TopicsDistinct | src/message.rs:141-156 | the six topics are pairwise distinct, so the decoder's dispatch on them is unambiguous |
| Codec.Reverse | src/message.rs:80 | reversing keeps the length; its contents are stated by `ReverseAt` |
| Codec.ReverseAt | src/message.rs:80 | byte `i` of a reversed buffer is byte `len - 1 - i` of the original |
| Codec.ReverseInvolutive | src/message.rs:146 | reversing twice gives the bytes back, so decode's reversal and encode's reversal cancel |
| Codec.ToLeBytes | src/message.rs:95 | the four bytes produced read back, little-endian, as the number encoded |
| Codec.LeBytesRoundTrip | src/message.rs:139 | every 4-byte sequence frame is the encoding of its own little-endian value, so the sequence frame round-trips |
| Codec.Message.SequenceNumber | src/message.rs:102-111 | every variant's sequence number is the one it carries |
| Codec.SerializeDataToVec | src/message.rs:52-87 | hash variants encode without panicking to exactly 32 bytes; every variant but `HashWTx` encodes without panicking; `HashWTx` always panics, with a slice-range panic if and only if its label is over 32 bytes (otherwise the 64 bytes do not fit `[u8; 32]`) |
| Codec.SerializeToVecs | src/message.rs:91-97 | encoding panics exactly when the data frame panics; otherwise frame 0 is the message's topic, frame 1 the data frame of `SerializeDataToVec` and frame 2 the little-endian encoding of its sequence number |
| Codec.HashWTxEncodePanics | src/message.rs:58-79 | encoding any `HashWTx` panics |
| Codec.TopicSnapshot | src/message.rs:170-177 | the snapshot is 9 bytes: the first min(9, len) bytes of the topic, then zeros |
| Codec.FromParts | src/message.rs:138-179 | a decoded message has exactly the topic it was dispatched on and the little-endian value of the sequence frame as its sequence number |
| Codec.FromFixedSizeMultipart | src/message.rs:123-135 | a sequence frame whose length is not 4 gives `InvalidSequenceLength(len)` before the topic is looked at |
| Codec.FromMultipart | src/message.rs:115-120 | a group of n ≠ 3 frames gives `InvalidMutlipartLength(n)` |
| Codec.MultipartLengthChecked | src/message.rs:262-277 | for n ≠ 3 the result depends only on n, not on the frames' contents, and is `InvalidMutlipartLength(n)` |
| Codec.SequenceLengthChecked | src/message.rs:130-132 | a 3-frame group with a sequence frame that is not 4 bytes gives `InvalidSequenceLength(len)` whatever the topic and data |
| Codec.HashLengthChecked | src/message.rs:142-145 | for `hashblock`/`hashtx`, the result is `Invalid256BitHashLength(len)` if and only if the data is not 32 bytes |
| Codec.HashDecodeReverses | src/message.rs:142-151 | 32 bytes of `hashblock`/`hashtx` decode to the matching variant, with the stored hash the wire bytes reversed and the sequence the little-endian value |
| Codec.HashFramesRoundTrip | src/message.rs:288-298 | re-encoding a decoded `hashblock`/`hashtx` group gives back exactly the original three frames |
| Codec.RawFramesRoundTrip | src/message.rs:252-260 | a `rawblock`/`rawtx`/`sequence` group whose payload decodes, and re-encodes to the same bytes, decodes to the matching variant with the decoded payload and the little-endian sequence, and re-encoding it gives back exactly the three frames |
| Codec.EncodeDecodeRoundTrip | src/message.rs:91-97 | for every variant but `HashWTx`, when the payload codec round-trips, decoding the encoded frames gives the message back |
| Codec.HashWTxDecode | src/message.rs:156-168 | `hashwtx` data panics if and only if it is shorter than 32 bytes; otherwise the txid is the first 32 bytes unreversed and the wallet the lossy UTF-8 of the rest |
| Codec.DecodePanicsOnlyOnShortHashWTx | src/message.rs:157 | decoding panics if and only if a 3-frame group with a 4-byte sequence has topic `hashwtx` and less than 32 data bytes |
| Codec.UnknownTopic | src/message.rs:170-177 | a well-sized group whose topic is not one of the six gives `InvalidTopic(len, snapshot)`, whatever the data and the payload codecs |
| Codec.KnownTopicAccepted | src/message.rs:141-169 | a known topic never gives `InvalidTopic` when the payload codecs do not produce it |
| Codec.PayloadErrorsPropagate | src/message.rs:153-155 | a failing block, transaction or sequence-message payload codec's error comes out of the decoder unchanged |
| Codec.InvalidTopicExamples | src/message.rs:329-360 | the unit test's topics `""`, `"abc"`, `"hashblock!"` and a 26-byte topic give the snapshots and lengths the test expects |
| Codec.ElementLengthExamples | src/message.rs:364-378 | the unit test's groups give `InvalidSequenceLength(11)`, `Invalid256BitHashLength(0)` and `Invalid256BitHashLength(20)` |
| Stream.MessagePoll | src/subscribe/stream.rs:48-55 | the message stream is pending or ended exactly when the socket is; socket frames go through the frame decoder; transport errors become `Err` items, not the end |
| Stream.MessageStream.constructor | src/subscribe/stream.rs:28-33 | a new message stream over the given socket and decoder |
| Stream.MessageStream.PollNext | src/subscribe/stream.rs:48-55 | the poll gives `MessagePoll` of the socket's next outcome and consumes exactly that outcome |
| Stream.MessageStream.IsTerminated | src/subscribe/stream.rs:58-62 | the message stream never reports termination |
| Stream.SocketPoll | src/subscribe/stream.rs:88-102 | the monitor is polled first; a ready event or error is returned and the data socket is left untouched; otherwise the data stream's outcome is returned, its messages wrapped; pending if and only if both are pending, ended if and only if the monitor is pending and the data stream ended |
| Stream.SocketMessageStream.constructor | src/subscribe/stream.rs:80-82 | a new merged stream over the given message stream and monitor |
| Stream.SocketMessageStream.PollNext | src/subscribe/stream.rs:88-102 | the poll's item and the new state of both sockets are those of `SocketPoll` |
| Stream.SocketMessageStream.IsTerminated | src/subscribe/stream.rs:105-109 | the merged stream never reports termination |
| Stream.FinitePoll | src/subscribe/stream.rs:125-143 | an open finite stream's poll keeps both sources free of an end, so the unwrap never panics |
| Stream.FinitePollConsumes | src/subscribe/stream.rs:127-143 | a poll closes the stream if and only if it reports the end; it consumes a prefix of the monitor's outcomes; when it closes, the last outcome consumed is a `Disconnected` event and the data socket is untouched |
| Stream.FiniteSkipsQuietEvents | src/subscribe/stream.rs:136-138 | events other than `Disconnected` ahead of the monitor are consumed without changing what the poll yields |
| Stream.FiniteClosesOnDisconnect | src/subscribe/stream.rs:132-135 | after any other events, a `Disconnected` event closes the stream and the data socket is not polled |
| Stream.FiniteForwardsData | src/subscribe/stream.rs:130 | after any quiet events, with the monitor pending, a message from the data socket is returned unchanged, the stream stays open and the monitor's later outcomes stay queued |
| Stream.FinitePending | src/subscribe/stream.rs:141 | after any quiet events, with both sockets pending, the poll is pending, the stream stays open and each socket's pending poll is consumed |
| Stream.FiniteMonitorErrorForwarded | src/subscribe/stream.rs:129 | after any quiet events, an error from the monitor is returned as an `Err` item, the stream stays open and the data socket is untouched |
| Stream.FiniteTransportErrorForwarded | src/subscribe/stream.rs:129 | after any quiet events, with the monitor pending, an error from the data socket is returned as an `Err` item, the stream stays open and the monitor's later outcomes stay queued |
| Stream.FiniteMessageStream.constructor | src/subscribe/stream.rs:117-119 | a new finite stream is open over the given merged stream |
| Stream.FiniteMessageStream.PollNext | src/subscribe/stream.rs:125-147 | open: the item and the new socket state are `FinitePoll`'s, and the stream closes exactly when that poll closes; closed: the end, and it stays closed |
| Stream.FiniteMessageStream.IsTerminated | src/subscribe/stream.rs:150-154 | the finite stream reports termination if and only if it is closed |
| Stream.Delta | src/subscribe/stream.rs:285-293 | one event changes the connecting counter by at most one |
| Stream.HandshakeLoop | src/subscribe/stream.rs:282-298 | the wait consumes part of the monitor, and it stays waiting only when the monitor runs out, with at least one endpoint still connecting |
| Stream.LoopLeavesSuffix | src/subscribe/stream.rs:284-296 | what the wait leaves of the monitor, and the finite stream inherits on success, is exactly the rest after the outcomes it consumed |
| Stream.WaitHandshake | src/subscribe/stream.rs:276-280 | with zero endpoints the wait succeeds at once and the monitor is not consulted |
| Stream.HandshakeStep | src/subscribe/stream.rs:284-297 | one step on an outcome that is not an error: the wait completes if that outcome brings the counter to zero, and otherwise continues with the updated counter |
| Stream.ConnectingStep | src/subscribe/stream.rs:285-293 | the counter and the absence of errors over a prefix, unfolded by one outcome |
| Stream.ConnectedAtFirstZero | src/subscribe/stream.rs:282-298 | a successful wait stops at the first event that brings the counter to zero: the consumed outcomes hold no error and every earlier counter is at least one, so the decrement never underflows |
| Stream.ZeroConnects | src/subscribe/stream.rs:282-298 | conversely, an error-free prefix of the monitor that brings the counter to zero makes the wait succeed |
| Stream.ErrorFailsWait | src/subscribe/stream.rs:284 | the first monitor error before the counter reaches zero fails the wait with that error and consumes exactly up to it |
| Stream.FailedOnlyOnError | src/subscribe/stream.rs:284 | conversely, a failed wait failed on a monitor error: the last outcome it consumed is that error, none before it is an error, and the counter stayed at one or more up to it |
| Stream.SubscribeWaitHandshake | src/subscribe/stream.rs:274-299 | the outcome and the monitor left over are `WaitHandshake`'s; a finite stream over the socket is returned if and only if the wait succeeded, and its footprint is itself, the socket stream and its message stream |
| Stream.TimeoutOutcome | src/subscribe/stream.rs:309-312 | if the handshake wins the race its result is returned as `Some`; if the timer wins, `None` |
| Timer.PollSleep | src/subscribe/stream.rs:345-353 | a poll is ready if and only if the timer is done; otherwise the caller's waker is stored |
| Timer.FireSleep | src/subscribe/stream.rs:319-327 | firing makes the timer done and wakes a waker if and only if one was stored, namely that one |
| Timer.DoneAbsorbing | src/subscribe/stream.rs:345-349 | a done timer stays done whatever polls and firings follow; every later poll is ready and every later firing wakes no one |
| Timer.PollsThenFire | src/subscribe/stream.rs:316-353 | before the timer fires, every poll is pending; the firing wakes the latest poller, or none if there was no poll; the timer is then done |
| Timer.Sleep.constructor | src/subscribe/stream.rs:316 | a new timer starts pending and unpolled |
| Timer.Sleep.Poll | src/subscribe/stream.rs:345-353 | the poll's answer and the new state are `PollSleep`'s |
| Timer.Sleep.Fire | src/subscribe/stream.rs:319-327 | the woken waker and the new state are `FireSleep`'s |

## Left out

- Socket creation, subscription and monitor wiring (`subscribe_async`, `subscribe_async_monitor`, `new_socket_internal`, the zmq calls) are transport I/O. `SubscribeWaitHandshake` starts from a made socket, and a socket error from that setup is not modelled.
- The timer thread's `thread::sleep` and the `Arc<Mutex<…>>` sharing are concurrency. `Sleep.Poll` and `Sleep.Fire` are atomic sequential steps on the cell.
- The `select` future combinator and the async executor are not modelled. Only the mapping of the race's outcome to an `Option` is.
- Consensus `serialize`/`deserialize` for blocks and transactions, `SequenceMessage`'s codec and `String::from_utf8_lossy` are not modelled. They are the uninterpreted functions of `Externals`.
- `recv_internal` and `EventMessage::parse_from` are not part of this model. They are the uninterpreted functions of `Decoders`.
- The `data_cache` buffer of the message stream and `DATA_MAX_LEN` are not modelled. Only `recv_internal` uses them.
- `fmt::Display` for `Message` and the `TryFrom`/`From` conversions are not modelled. They only format a message or delegate to the modelled functions.
- The deprecated `MultiMessageStream`, `subscribe_multi_async` and `subscribe_single_async` are not modelled. They pass through to other streams, and commented-out code is skipped.
- `as_zmq_socket` is not modelled. It only exposes the socket.
- FiniteMessageStream.PollNext: the source panics (`unwrap`) when the merged stream ends. The model makes this a precondition that neither script holds `End`. `SocketMessageStream.PollNext` likewise requires that the monitor does not end.
- SubscribeWaitHandshake: the source panics when the monitor ends. The model makes this a precondition that the monitor's script holds no `End`.
- SubscribeWaitHandshake: a `Pending` poll of the monitor only suspends the wait and is consumed. When the script runs out, the wait is left `Waiting`, where the source would stay suspended.
- Stream.FinitePoll: its own contract states only that both sources stay free of an end. What the poll yields, consumes and when it closes is stated in `FinitePollConsumes`, `FiniteSkipsQuietEvents`, `FiniteClosesOnDisconnect`, `FiniteForwardsData`, `FinitePending`, `FiniteMonitorErrorForwarded` and `FiniteTransportErrorForwarded`.
- The `debug_assert!` on the topic length is not modelled as a check. It is stated as `Message.TopicStr`'s postcondition instead.
- Integer widths: the sequence number is a `u32` newtype, and the frame lengths and the connecting counter are unbounded naturals. The counter is at least one before every decrement (`ConnectedAtFirstZero`), so `usize` cannot underflow. An increment past `usize::MAX` is not modelled.

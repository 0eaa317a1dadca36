# arf: a verified model of the RPC stack

arf is an RPC system in three layers: a framed, multiplexed stream protocol (`wire/`), a
self-describing binary codec (`proto/`), and RPC messages with a streaming call context (`rpc/`,
`context.go`). This project models the three layers in Dafny, proves each against an independent
description of what it is for, and joins them: in one run of server, link and client, values sent by
the server's `Send` come out of the client's `Recv`, in order and in normal form, however the
server's calls, the deliveries and the client's calls interleave. `dafny verify dfyconfig.toml` checks everything.

## How it is laid out

| module | what it holds |
|---|---|
| `Base`, `Sorting` | bytes, machine integers, big-endian numbers, concatenation; sorting of struct fields by index |
| `Readers` | an input made of blocks, single reads, full reads, nested limits |
| `Varint`, `Scalars` | LEB128 and the integer encoding |
| `Formats` | every format of the three layers byte for byte, in numbers: what is written, and what each header byte, flag bit and length read means |
| `Values`, `Decoder`, `Codec`, `Loops` | values and their normal form, the decoder, the round-trip proofs, the loops of the source proved against them |
| `Blocks`, `Locks` | the block reader: as an atomic queue, and again between its lock operations |
| `Streams`, `Pair`, `PairLaws`, `Resets` | one stream endpoint; two of them joined by queues of packets; what every run of the two keeps; what calls and deliveries answer in each state, and the code a reset leaves behind |
| `Frames` | the byte format of frames, the typed frames, the frame reader with its scratch buffer |
| `Connections`, `Handshake`, `Farewells`, `Duties`, `Transport`, `Clients` | the server's side of a connection as two goroutines, a write queue and a pool of outbound objects; what every run of it keeps, how it goes down, what it owes its peer, and what it puts on the wire; the client's stream ids |
| `Inbound` | what a connection does with the frames it is sent, told by the frames alone |
| `Messages`, `MessageLoops` | the seven RPC messages and metadata |
| `Contexts`, `Streaming` | `ReadResponse`, `Recv`, `Send`, `EndSend`, `SendResponse`; what they write, and what they make of what is read |
| `Sessions` | a whole streaming call in one run, and the end-to-end theorems |
| `Replies` | the other ways a call ends: the unary response, the stream that fails, the message out of place; what failing in one direction does to the other |
| `Growth` | what the arrival of more blocks can change of what was decoded, and of a call's answer |

Code that updates state in place is a class or a method with loops (`Blocks.BlockReader`,
`Streams.Stream`, `Frames.FrameReader`, `Connections.Connection`, `Clients.Client`,
`Contexts.Context`, `Loops`, `MessageLoops`); each is proved equal to a function of the old state,
and the laws are proved about those functions, over all runs of them.

A decoder's position is a number into an input that never changes, so "leaves exactly the suffix"
is an equation about positions. A stack of `io.LimitReader`s is one absolute end position.

## What the code does that its reader might not expect

These are results: the law that one would like is false of the code, and what is proved is exactly
when it holds.

- A string or bytes body is read with a single `Read` whose count is ignored. A block boundary
  strictly inside a body gives zeros for the rest of it, without an error; `Codec.BodyCut` shows
  that the body survives if and only if there is none.
- The fields of a struct end wherever reading an index meets EOF, so one cut off inside an index is taken
  without that field, while one cut off behind an index is an error (`Formats.FieldsEnd`).
- The minimum of `int8`, `int16` and `int32` does not survive, the minimum of `int64` does
  (`Scalars.ScalarRoundTrip`).
- Every segment of a long write that ends the stream carries END_STREAM, so the peer accepts the
  first 65535 bytes and refuses the rest (`PairLaws.EndingWriteDelivers`).
- Counts of parameters and metadata pairs, and the length of a frame, are cast to 16 bits:
  messages and frames come back if and only if those fit (`Messages.MessageRoundTrip`,
  `Frames.FrameRoundTrip`).
- An `EndSend` without a `Send` before it never writes the start of the stream, and the peer's
  `Recv` then fails for good (`Streaming.EmptyServe`, `Streaming.EmptyStreamFails`).
- `Enqueue` holds `closedMu` while it waits for room in a full channel, and `Read` needs that lock
  before it can make room: both are then stuck for ever. `Locks.StuckExactly` shows that there is
  no other deadlock, `Locks.JamHappens` that this one is reachable, `Locks.JamIsForever` that
  nothing ends it. For a whole streaming call: it can be finished from exactly the states in which no
  delivery waits so (`Sessions.StreamCompletes`), a conversation of at most 128 messages never gets
  there (`Sessions.ShortNeverJams`), and every longer one can (`Sessions.LongCanJam`).
- `Read` looks for a block first and at the state afterwards. If the last frame arrives in between it
  reports the stream closed with bytes unread; `PairLaws.SplitRead` shows that it does so in no other
  case, `PairLaws.SplitReadLoses` that it happens.
- The writer compares `out.frame` with `terminateAfter` after it has answered the `Write` that queued
  `out`, and that `Write` gives `out` back to a pool that all connections and clients share. If `out` is
  taken again before the comparison, the connection does not end although its farewell is written
  (`Farewells.FarewellForgotten`: DATA follows the GOAWAY), or ends before it is
  (`Farewells.FarewellUnsent`). The comparison after a farewell ends the connection if and only if
  nobody has taken its object since (`Farewells.ComparisonExactly`); what is said below of the last
  frame on the wire is said of runs in which no object is taken between the writing of its frame and
  the comparison.
- The writer answers the goroutine that queued a farewell GOAWAY before it terminates the
  connection, so further frames may still be dispatched in between - and a second violation there
  moves the point of termination to the second farewell (`Farewells.SecondFarewell` is such a run).
  The last frame on the wire is a PROTOCOL_ERROR GOAWAY nevertheless, and without further violations
  the writer gets there in every interleaving (`Farewells.EveryInterleavingEnds`).
- After `terminate` a `Write` on the connection is a send on a closed channel, which panics. In every
  reachable state a step panics if and only if it queues a frame on a connection that is down
  (`Farewells.PanicsExactly`); two bad frames in a row can do it (`Farewells.PanicHappens`).
- A HELLO that asks for compression is acknowledged with a frame that is already compressed, and no
  reader decompresses. What a connection writes is readable by its peer if the HELLO it accepted did
  not ask for compression (`Transport.PeerReadsTheWire`); if it did, the acknowledgement itself is
  compressed, and rejected for its length whatever the compression, short of an output of no or four
  bytes (`Transport.AckIsCompressed`, `Transport.GzipHappens`).
- A client's stream ids wrap to 0 at the 2^32nd stream (`Clients.FreshIds`).

## Model

| member | source | states |
|---|---|---|
| `Varint.EncodeUint64` | proto/scalar.go:15-22 | The shift-and-append loop writes the LEB128 digits of the value, continuation bit set on all but the last. |
| `Varint.EncodeUintMeaning` | proto/scalar.go:15-22 | What is written is terminated, and the sum of its seven-bit digits times powers of 128 is the value. |
| `Varint.EncodeUintShortest` | proto/scalar.go:15-22 | No terminated string whose digit sum is the value modulo 2^64 is shorter, and ten bytes always suffice. |
| `Scalars.DecodeUint64` | proto/scalar.go:24-39 | The shift-and-or loop, its 64-bit overflow included, computes the recursive reading for every input, limit and error. |
| `Scalars.DecodeUintDigits` | proto/scalar.go:24-39 | Any terminated string, of any length, decodes to its digit sum modulo 2^64 and is consumed exactly. |
| `Scalars.DecodeUintInverts` | proto/scalar.go:15-39 | Decoding inverts encoding for every uint64. |
| `Scalars.EncodeScalar` | proto/scalar.go:41-80 | The type byte's flags and the wrapped negation, for all eight widths; the bytes that makes are `Formats.IntFormat`. |
| `Scalars.ScalarRoundTrip` | proto/scalar.go:41-91 | Signedness, sign and consumption always survive; the magnitude does if and only if the value is not the minimum of int8, int16 or int32, which comes back as 2^64 - 2^(w-1). |
| `Formats.IntFormat` | proto/scalar.go:11-80 | The bytes of every integer of the eight widths, in numbers: 1, plus 16 if signed, 64 if negative, then the LEB128 of the magnitude; zero is the header alone with 32; the three stuck minima are written as 2^64 - 2^(w-1). |
| `Formats.ScalarHeader` | proto/scalar.go:82-91 | Signedness, sign and zero are bits 4, 6 and 5 of the header, whoever wrote it. |
| `Formats.VarintFormat` | proto/scalar.go:24-39 | On any input: decodeUint64 succeeds if and only if a byte below 128 comes within input and limit, and then returns the digit sum modulo 2^64 of the bytes up to it. |
| `Readers.ReadFull` | wire/frame_reader.go:35-38 | However a source is cut into blocks, a full read succeeds if and only if the bytes are there, and returns exactly them. |
| `Decoder.ReadType` | proto/type_identifiers.go:36-49 | One header byte; it succeeds if and only if there is a byte within the limit whose low four bits name one of the nine types. |
| `Decoder.DecodeBody` | proto/string.go:27-43 | Stays inside the input and the limit whatever length is claimed; a success has the claimed length and starts with the bytes consumed. |
| `Decoder.DecodeAny` | proto/decode.go:7-37 | Total on every byte string by a measure of remaining bytes; stays within input and limit; each success consumes at least one byte. |
| `Decoder.DecodeMany` | proto/array.go:42-47 | A claimed count of any size terminates, and success means exactly that many values. |
| `Decoder.DecodeFields` | proto/struct.go:146-160 | The read-until-EOF loop over the limited reader ends on every input. |
| `Decoder.StructStaysWithinLimit` | proto/struct.go:142-160 | A nested struct reads beyond neither its own announced length nor any length around it; a length beyond the int64 range makes it empty. |
| `Loops.Encode` | proto/encode.go:8-66 | For every value of Go's types the dispatch yields the encoding, or an error exactly when something inside is not supported. |
| `Loops.EncodeArray` | proto/array.go:11-30 | The append loop yields header, count and the items' encodings in order, or the first item's error. |
| `Loops.EncodeMap` | proto/map.go:17-48 | The two buffers filled in one loop come out as byte count, pair count, all keys, all values. |
| `Loops.EncodeStruct` | proto/struct.go:88-122 | Fields sorted by index, each as index and value, behind the identifier and their true byte length. |
| `Loops.DecodeValue` | proto/decode.go:7-37 | The switch computes the recursive decoder; its panic branch is unreachable. |
| `Loops.DecodeArrayValue` | proto/array.go:32-50 | The index-filling loop computes the recursive decoder. |
| `Loops.DecodeMapValue` | proto/map.go:50-82 | Both filling loops compute the recursive decoder: parallel keys and values, the byte count ignored. |
| `Loops.DecodeStructValue` | proto/struct.go:129-166 | The loop until EOF computes the recursive decoder up to the pair of identifier and fields. |
| `Values.NormFieldsMaps` | proto/struct.go:146-165 | With distinct indices, the decoded field map holds exactly the fields, each under its index, whatever their order. |
| `Codec.RoundTrip` | proto/encode.go:8-66 | Every valid value with registered structs, at any place, under any limit it fits and any block structure without a cut inside a body, decodes to its normal form and leaves the reader exactly behind it. |
| `Codec.ContiguousRoundTrip` | proto/decode.go:7-37 | The same from one buffer, whatever suffix follows. |
| `Codec.ManyRoundTrip` | proto/array.go:11-50 | A list of values laid out back to back decodes as the list of their normal forms. |
| `Codec.PrefixFree` | proto/encode.go:8-66 | No encoding is a proper prefix of another, and equal encodings have equal normal forms. |
| `Codec.MapCountIsTrue` | proto/map.go:39-47 | Skipping a map by its byte count lands where decodeMap, which ignores the count, stops. |
| `Codec.MapOrderKeepsLength` | proto/map.go:22-47 | The counts in front of a map and its size are the same under every order of its keys. |
| `Codec.StructLengthIsTrue` | proto/struct.go:104-121 | Skipping a struct by its announced length lands where decodeStruct, limited by it, stops. |
| `Codec.FieldOrderIrrelevant` | proto/struct.go:25-56 | The bytes of a struct do not depend on the order of declaration of its fields. |
| `Codec.BodyCut` | proto/string.go:27-43 | What a string or bytes body decodes to at any block structure; it survives if and only if no block ends strictly inside it. |
| `Formats.SmallFormat` | proto/float.go:10-40 | The bytes of nil, booleans and floats of both widths, zero of either sign being a header alone. |
| `Formats.StringFormat` | proto/string.go:10-25 | Type 4 or 5, LEB128 length, contents; empty is one byte with bit 4 set. |
| `Formats.ArrayFormat` | proto/array.go:11-30 | 6, the count, and the items' encodings; 22 when empty. |
| `Formats.MapFormat` | proto/map.go:17-48 | 7, a byte count that covers the pair count and all contents, the pair count, all keys, all values; 23 when empty. |
| `Formats.StructFormat` | proto/struct.go:88-122 | 8, the identifier as a string, the byte length of the fields, and the fields by ascending index, each as index and value. |
| `Formats.HeaderFormat` | proto/decode.go:7-37 | What DecodeAny makes of each of the 256 header bytes at any place of any input; types above 8 are refused. |
| `Formats.FieldsEnd` | proto/struct.go:146-160 | A struct's fields end where the limit does, or a source that says EOF, in front of a field or inside its index; never between an index and its value, which is an error. |
| `Formats.StructKnown` | proto/struct.go:168-173 | Only registered identifiers decode. |
| `Blocks.BlockReader.Enqueue` | wire/block_reader.go:32-43 | Appends the block, unless it is empty or the reader is closed. |
| `Blocks.BlockReader.TryRead` | wire/block_reader.go:56-88 | Copies at most one block's bytes into the caller's slice and touches nothing behind them; waits, fails or succeeds as the queue says. |
| `Blocks.TakeConserves` | wire/block_reader.go:90-118 | A read hands over the front of what is held and loses nothing; it waits if and only if nothing is held and the reader is open, and fails if and only if it is closed with an empty buffer. |
| `Blocks.QueueIsInput` | wire/block_reader.go:90-118 | Reading the queue and reading the corresponding input agree byte for byte and step for step. |
| `Blocks.SplitIndependence` | proto/decode.go:7-37 | For every split of an encoding and its suffix into non-empty blocks, none cutting a body, decoding from the blocks gives the value and leaves the bytes that one buffer does. |
| `Locks.SafeAndConserving` | wire/block_reader.go:22-118 | In every interleaving at the lock of any number of Enqueues and closes with a reader, no send on and no second close of a closed channel; returned, buffered and queued bytes are the accepted ones, in order. |
| `Locks.WorkTakesEffectOnce` | wire/block_reader.go:22-43 | Every Enqueue and close acts on the queue in one move under the lock, and that move is the whole atomic call. |
| `Locks.ReadsAreAtomicSomewhere` | wire/block_reader.go:56-118 | A locked read, although it tests the flag and receives in separate moves, returns - the bytes handed over included - what an atomic read returns at some moment between its first move and its last, whatever comes in between. |
| `Locks.StuckExactly` | wire/block_reader.go:32-43 | With an Enqueue and a read under way, no goroutine can move if and only if an Enqueue holds closedMu before a full channel of 128 and the reader, its buffer empty, waits for that lock. |
| `Locks.JamIsForever` | wire/block_reader.go:22-118 | No later call, close or read gets out of that situation, and no byte is returned again. |
| `Locks.JamHappens` | wire/block_reader.go:90-118 | A run with one enqueuer and one read that reaches it. |
| `Streams.DataFramesFromBuffer` | wire/data.go:3-41 | The cutting loop yields the segments of the buffer. |
| `Streams.SegmentsCarry` | wire/data.go:3-41 | The segments carry the buffer in order, at most 65535 bytes each, END_DATA on the last only, the end-of-stream flag on all. |
| `Streams.Stream.Write` | wire/stream.go:79-97 | State, packets handed over and error, for every state. |
| `Streams.Stream.CloseLocal` | wire/stream.go:134-148 | An empty DATA ending the stream, and the half-close, or the guard's error and no change. |
| `Streams.Stream.Reset` | wire/stream.go:108-116 | Closes stream and reader and sends one RESET_STREAM, or the guard's error and no change. |
| `Streams.Stream.HandleResetStream` | wire/stream.go:44-59 | Closes with the peer's code (`Resets.DeliveryAnswers`, `Resets.ErrorIsTheFirstReset`), or answers a closed stream's frame with RESET_STREAM. |
| `Streams.Stream.HandleDataFrame` | wire/stream.go:61-71 | Enqueues and half-closes, or answers with RESET_STREAM. |
| `Streams.Stream.ReadFirst` | wire/stream.go:119-125 | The first move of Read: the reset error, or bytes of the current or next block, or nothing settled. |
| `Streams.Stream.ReadRest` | wire/stream.go:127-131 | The rest of Read, in whatever state the stream is by then: the closed error, or bytes, or waiting. |
| `Streams.Stream.Read` | wire/stream.go:118-132 | The two moves with nothing in between: the reset error first, then buffered bytes, then the closed error, and only then waiting; the bytes are copied and counted. |
| `Streams.ReadIsRead` | wire/stream.go:118-132 | In every state - open, ended, closed, reset - a Read of the stream does what a read of the corresponding input does and leaves that input as it is, so the decoder's laws hold of streams. |
| `Resets.CallsAnswer` | wire/stream.go:73-144 | For every state: what Write, CloseLocal and Reset answer, that a refused call changes nothing and sends nothing, and the state, reader and packets of a granted one. |
| `Resets.DeliveryAnswers` | wire/stream.go:44-71 | For every state and packet, what a delivery does to the endpoint and when it is answered by RESET_STREAM with STREAM_CLOSED. |
| `Pair.RunKeeps` | wire/stream.go:44-148 | Every run of two endpoints keeps the invariant of both directions: accepted bytes are a prefix of the bytes due, with equality as long as no reset intervenes or once the end of stream arrived. |
| `PairLaws.PrefixSafety` | wire/stream.go:44-132 | In every interleaving, what Read returned at one end is a prefix of what Write accepted at the other, across resets and over-long final writes. |
| `PairLaws.NothingLost` | wire/data.go:3-41 | Without resets and with final writes of at most 65535 bytes: read, pending and in-flight bytes together are the written ones, in every reachable state and both directions. |
| `PairLaws.ReadToTheEnd` | wire/stream.go:118-132 | Once the end of the stream has been delivered a Read never waits: it returns more of what was written, and fails as closed if and only if all was read. |
| `PairLaws.SplitRead` | wire/stream.go:118-132 | A Read whose two moves have any steps in between reports the stream closed with bytes unread if and only if the first found nothing and the end, with bytes before it, arrived before the second. |
| `PairLaws.SplitReadLoses` | wire/stream.go:122-129 | A run in which that happens. |
| `PairLaws.ReadsDrain` | wire/stream.go:118-132 | As many Reads as bytes are pending read everything that was written. |
| `PairLaws.EndingWriteDelivers` | wire/data.go:20-31 | A write that ends the stream, of any length, delivers at most its first 65535 bytes, and exactly those once its end is accepted. |
| `PairLaws.Lifecycle` | wire/stream_state.go:36-118 | Over every run the state only moves forward, a reset error once set never changes, and a locally shut stream sends no further DATA. |
| `PairLaws.ResetAtMostOnce` | wire/stream.go:108-116 | In every reachable state Reset was granted at most once, and a reset error implies a closed state and a closed reader. |
| `Resets.ErrorIsTheFirstReset` | wire/stream.go:44-59 | In every run an end's error, if it has one, is StreamReset with the code of the first RESET_STREAM that the other end ever sent. |
| `Resets.ResetCodeArrives` | wire/stream.go:99-116 | After a granted Reset with no RESET_STREAM sent before it, the other end's error can only be that Reset's code, whatever came before and comes after. |
| `Resets.ErrorIsFinal` | wire/stream.go:79-144 | From then on, in every continuation, Read, Write, CloseLocal and Reset at that end return that error and send nothing. |
| `PairLaws.ClosedAct` | wire/stream.go:44-71 | Between closed ends each delivery is answered by exactly one RESET_STREAM and no call sends anything. |
| `PairLaws.ClosedConserves` | wire/stream.go:99-116 | The number of packets in flight between closed ends never changes again. |
| `Frames.FrameRoundTrip` | wire/frame.go:33-44 | However the bytes arrive, Read gives back the frame that Bytes wrote and stops at its end, if and only if the payload fits 16 bits; a longer one comes back cut. |
| `Frames.StreamRoundTrip` | wire/frame_reader.go:49-79 | The concatenated bytes of any list of frames of known kinds are read as that list. |
| `Frames.TornFrame` | wire/frame_reader.go:49-79 | A frame whose bytes stop anywhere short of its end is never returned. |
| `Frames.TypedRoundTrip` | wire/frame.go:83-302 | For all six typed frames FromFrame undoes IntoFrame if and only if the frame is proper, and accepts nothing else. |
| `Frames.AcceptedReframes` | wire/frame.go:105-128 | No frame that the reader hands over makes FromFrame index past its payload, and what FromFrame accepts it accepts unchanged when framed anew. |
| `Formats.FrameFormat` | wire/frame.go:30-44 | The eleven header bytes of any frame in numbers - "arf", id, kind, flags, length - and the payload. |
| `Formats.TypedFormat` | wire/frame.go:83-289 | Id, kind, flag bits and payload of each of the six typed frames. |
| `Formats.AcceptFormat` | wire/frame.go:46-302 | A frame of measured length is accepted if and only if kind, association and length are what its kind demands, each in numbers; and the objection otherwise. |
| `Formats.FlagsFormat` | wire/frame.go:109-302 | What is read from an accepted frame: each flag by its bit, whatever other bits are set, and each field by its bytes. |
| `Formats.ReaderFormat` | wire/frame_reader.go:49-79 | At any place of any input: a frame is returned if and only if the magic, a known kind and the announced payload are there; its bytes are exactly those read; otherwise which fault. |
| `Frames.WriteCrossesTheWire` | wire/stream.go:73-97 | The frames of a Write, put on the wire and read back, are accepted as the very packets the stream made. |
| `Frames.FrameReader.Fill` | wire/frame_reader.go:36-38 | Repeated reads into the scratch buffer compute the full read, errors included. |
| `Frames.FrameReader.ReadSize` | wire/frame_reader.go:30-41 | The requested bytes at the front of the scratch buffer, which is kept or replaced by a new one. |
| `Frames.FrameReader.Read` | wire/frame_reader.go:49-79 | The frame, or the fault, that the byte format says; the payload is a copy that shares nothing with the scratch buffer. |
| `Frames.FrameReader.ReadMany` | wire/conn.go:102-112 | After any number of further reads every frame returned earlier still shows what it showed. |
| `Connections.Connection.DispatchFrame` | wire/conn.go:114-168 | The switch and its handlers compute the step function, for every frame and state; what that does is `Inbound.DispatchAnswers` and `Inbound.FramesReachTheirStreams`. |
| `Connections.Connection.HandleHello` | wire/conn.go:170-192 | Sets compression as asked, configures and acknowledges once; a second HELLO makes the connection go away. |
| `Connections.Connection.HandleMakeStream` | wire/conn.go:258-278 | Registers and services a new id, goes away for an id in use. |
| `Connections.Connection.GoAwayNow` | wire/conn.go:321-337 | Marks the farewell as the frame to terminate after, then queues it. |
| `Connections.Connection.CancelNext` | wire/conn.go:227-239 | One iteration of cancelStreams: that stream's Reset and its frame. |
| `Connections.Connection.ServiceWrite` | wire/conn.go:81-94 | One frame written, compressed or not as the connection is at that moment, or refused on a failed connection; its sender is answered, and its pooled object with that free to be taken; a failed PING also sets the error. |
| `Connections.Connection.GetSlot` | wire/conn.go:312-316 | An object from the pool now shows the frame to be queued. |
| `Connections.Connection.QueueNext` | wire/stream.go:73-97 | The next packet of a stream's calls queued, in order, or a panic on a connection that is down. |
| `Connections.Connection.CompareWritten` | wire/conn.go:96-98 | Terminates if and only if what the pooled object shows by then is the marked frame. |
| `Inbound.DispatchAnswers` | wire/conn.go:114-337 | How every frame is answered in every state, by kind and flag bits: the farewell and its mark for a violation, HELLO and PING by their echoes (on whose writing the connection depends), a frame for a stream that is not there by RESET_STREAM for that id with PROTOCOL_ERROR, one that the stream refuses by STREAM_CLOSED, GOAWAY by cancelling every stream with its code, the others by nothing. |
| `Inbound.FramesReachTheirStreams` | wire/conn.go:258-309 | In every run, for every id: it is registered if and only if it was made; what its reader has accepted is, unless its own side reset it, exactly the payloads of its DATA frames, in order, up to the one with END_STREAM or the first RESET_STREAM, and never anything else; it takes DATA if and only if neither has come; its error is that reset's code. |
| `Inbound.GoodbyeIsLast` | wire/conn.go:215-225 | Once a GOAWAY has made the reader cancel its streams, it dispatches no frame any more. |
| `Inbound.StoppedIsDown` | wire/conn.go:102-112 | In every run a reader that has stopped leaves the connection down. |
| `Inbound.SilentForGood` | wire/conn.go:81-94 | In every run, once the connection is down or has failed nothing is added to the wire, whatever is still queued. |
| `Inbound.UnwrittenEnds` | wire/conn.go:185-213 | A failed write ends the connection if and only if the reader depends on it: the HELLO and PING answers. |
| `Handshake.DispatchVerdict` | wire/conn.go:114-309 | What dispatch does, from the frame and the ledger alone: when the connection goes away, which id it registers, when it answers with HELLO or GOAWAY, and that nothing else changes. |
| `Handshake.HandshakeHolds` | wire/conn.go:67-192 | In every run: no stream before HELLO, at most one HELLO ever answered, every id serviced at most once, GOAWAY only after a violation; and if no pooled object was taken before its comparison, then after a violation, once the connection is down and the socket was sound, a PROTOCOL_ERROR GOAWAY is the last frame on the wire. |
| `Handshake.ExactlyTheRules` | wire/conn.go:114-278 | The connection goes away if and only if the frames dispatched break the rules - well formed, one HELLO and that first, no id made twice - and otherwise has serviced exactly the ids asked for, in order. |
| `Farewells.EveryViolationEnds` | wire/conn.go:81-100 | From every state after a violation, whatever is queued, if the run spared the pooled objects: the connection's own goroutines bring it down with the farewell as its last frame. |
| `Farewells.EveryInterleavingEnds` | wire/conn.go:81-100 | Once the farewell is queued, every run in which the writer makes a given number of steps, no further violation comes in and no pooled object is taken before its comparison, ends with the connection down and the farewell last, whatever the owners and the reader do. |
| `Farewells.ComparisonExactly` | wire/conn.go:88-98 | In every run, the comparison that follows the writing of the farewell ends the connection if and only if no step in between took its pooled object. |
| `Farewells.FarewellForgotten` | wire/conn.go:311-319 | A run in which a stream's Write takes the farewell's object: the connection runs on with DATA behind the GOAWAY, and goes down with DATA as its last frame. |
| `Farewells.FarewellUnsent` | wire/conn.go:311-319 | A run in which the object of an earlier frame is taken for the farewell: the connection goes down without a GOAWAY. |
| `Farewells.SecondFarewell` | wire/conn.go:88-98 | A run in which a second violation moves the point of termination: two farewells on the wire. |
| `Farewells.PanicsExactly` | wire/conn.go:311-319 | In every reachable state a step panics if and only if it queues a frame once the connection is down; in particular no dispatch does, so FromFrame never indexes past a payload. |
| `Farewells.PanicHappens` | wire/conn.go:67-79 | A run that panics. |
| `Handshake.NeverRunsAgain` | wire/conn.go:67-79 | Once down the connection stays down and its wire never changes, whatever is still dispatched or queued. |
| `Duties.PingsEchoed` | wire/conn.go:194-213 | In every run the PINGs given to the wire are, in order and payload for payload, answers to the first PINGs dispatched after HELLO; while the connection can write, the others are on their way. |
| `Duties.GoodbyeCancelsAll` | wire/conn.go:215-239 | After the peer's GOAWAY the connection can always cancel the next stream, and when it is done no registered stream can send - whatever their owners call meanwhile. |
| `Duties.CancelOneCancels` | wire/conn.go:227-239 | Cancelling one stream mutes it, changes no other, and sends RESET_STREAM with the peer's code if and only if it could still send. |
| `Transport.PeerReadsTheWire` | wire/conn.go:81-100 | Unless the accepted HELLO asked for compression: whatever a connection has put on the wire in any run, the peer's frame reader reads as that list of frames, however the bytes arrive, and FromFrame accepts each as what was meant. |
| `Transport.PingsOnTheWire` | wire/conn.go:194-213 | Unless compression was asked for, the PING frames on the wire carry, in order, the payloads of the first PINGs dispatched after HELLO. |
| `Transport.AckIsCompressed` | wire/conn.go:176-188 | In every run a HELLO on the wire, and every frame behind it, is compressed if and only if compression was asked for; compressed, the HELLO is rejected for its length unless that comes out as zero or four. |
| `Transport.GzipHappens` | wire/conn.go:170-192 | A run that puts a compressed acknowledgement on the wire. |
| `Transport.StreamsKeepTheirOrder` | wire/stream.go:73-97 | In every run the DATA frames of a stream on the wire are, in order, the first of the segments its calls made; while the connection can write, queued and still to be queued are the others: nothing lost, nothing overtaken. |
| `Clients.Client.NewStream` | wire/client.go:96-117 | Takes the next id in uint32 arithmetic, spends it even if the write fails, registers it only if the write succeeds. |
| `Clients.FreshIds` | wire/client.go:101-104 | The ids are 1, 2, 3, ...; they are distinct and non-zero if and only if there are fewer than 2^32. |
| `Clients.FreshAcrossPeers` | wire/conn.go:258-278 | In every run in which a server was sent a client's HELLO and the frames of fewer than 2^32 streams, it has no objection and has registered exactly the allocated ids. |
| `Clients.AnyOrder` | wire/client.go:96-117 | The same for any subset of the ids in any order, as racing callers may produce. |
| `Clients.FreshRunExists` | wire/conn.go:102-112 | Feeding the frames in order is a run that dispatches them all. |
| `Messages.MetadataRoundTrip` | rpc/metadata.go:101-154 | Keys then values come back as the pairs, in order, when their number fits 16 bits; otherwise the number read is the number modulo 2^16. |
| `Messages.MessageRoundTrip` | rpc/structs.go:19-61 | Each of the seven kinds comes back in normal form, and the reader ends exactly behind it, if and only if its counts fit 16 bits. |
| `Messages.MessagesRoundTrip` | rpc/structs.go:19-61 | Any list of messages sent back to back, over any blocks that cut no body, is read as the same list, nothing left over. |
| `Messages.ContiguousMessages` | rpc/structs.go:19-61 | The same over one buffer. |
| `Formats.MessageFormat` | rpc/structs.go:55-320 | The bytes of every message of the seven kinds, in numbers: kind, status, flags, metadata, parameter count, parameters. |
| `Formats.KindFormat` | rpc/structs.go:19-53 | A byte that is no kind is refused as invalid, a message of another kind than expected as a mismatch, after one byte. |
| `MessageLoops.EncodeMetadata` | rpc/metadata.go:101-117 | The filling loop yields count, keys, values. |
| `MessageLoops.EncodeParams` | rpc/structs.go:79-85 | The loop yields the parameters' encodings in order, or an error exactly when one is not supported. |
| `MessageLoops.WrapMessage` | rpc/structs.go:55-61 | The kind byte and the encoding of any of the seven messages. |
| `MessageLoops.MetadataFromReader` | rpc/metadata.go:119-154 | Both filling loops compute the recursive reading, errors included. |
| `Contexts.Context.ReadTo` | context.go:36-87 | Reads of the stream that the context holds, as many as it takes, end where the decoder stopped and have returned exactly the bytes up to there. |
| `Contexts.Context.ReadResponse` | context.go:153-168 | Result, context and position of the stream, for every state of the stream and whatever it holds; waits if the message has not all arrived. |
| `Contexts.Context.RecvNext` | context.go:36-87 | The same of Recv, reading the context's own stream: any message, error, reset or earlier failure; over whole streams, `Replies.RecvsExactly`. |
| `Contexts.Context.RecvLoop` | context.go:63-86 | The loop over metadata messages ends at the next item, end, error or unexpected kind, each answered as `Replies.RecvsExactly` says. |
| `Contexts.Context.SendNext` | context.go:89-127 | The start of the stream once, then the item; which errors are kept and where. |
| `Contexts.Context.EndSending` | context.go:129-151 | The end message in a write that ends the stream. |
| `Contexts.Context.Respond` | context.go:170-188 | The response, ending the stream unless streaming (`Replies.UnaryEnds`), and the context reset for sending. |
| `Contexts.Context.EmitFailure` | server.go:266-300 | The report of a handler's failure: what is written, and the reset that is tried when it cannot be. |
| `Replies.UnaryEnds` | context.go:170-188 | A response that does not stream is written in packets that carry exactly it and all end the stream, after which the server's end cannot send. |
| `Replies.UnaryCall` | context.go:153-188 | In every run without resets: ReadResponse waits until the unary response is delivered and then returns it in normal form; Recv has no stream; and once the response has been read, in reads of any sizes, the next Read finds the stream closed. |
| `Replies.UnaryRuns` | context.go:170-188 | Writing the response and delivering it is such a run. |
| `Replies.ResponseRefused` | context.go:170-188 | SendResponse fails exactly for parameters that cannot be encoded or a stream that cannot send, and then leaves no trace on the stream. |
| `Replies.RecvsExactly` | context.go:63-86 | For any items and metadata and any message that ends them: the calls return the items in normal form, in order, then for good what the last message means - end of stream, the peer's error with status and metadata, or unexpected; the metadata noted is the last that came. |
| `Replies.FailureSays` | server.go:266-300 | On a stream that can send, the failure is a StreamError if the stream of items has started and otherwise a response that does not stream; it ends the stream. |
| `Replies.FailureUnsaid` | server.go:288-299 | On one that cannot, neither the write nor the reset that follows has any effect. |
| `Replies.FailingStream` | context.go:36-188 | A handler that fails after its Sends: what the server has written is read as the response, every value sent, and then from every later call the peer's error with its status and metadata. |
| `Replies.RecvFailsForGood` | context.go:36-87 | A Recv that failed fails the same way ever after, whatever there is to read. |
| `Replies.SendFailsForGood` | context.go:89-151 | The same of Send and EndSend, which then write nothing. |
| `Replies.SendThenRecv` | context.go:89-127 | After a Send, Recv fails for it if and only if that Send failed to write; a value that cannot be encoded ends only the sending. |
| `Replies.RecvThenSend` | context.go:36-87 | After a Recv, Send and EndSend fail for it if and only if the stream broke or a message was out of place; the peer's end or error ends only the receiving. |
| `Replies.ResponseFails` | context.go:153-168 | A ReadResponse that failed has failed for good, and with it Recv and Send. |
| `Streaming.ServerSends` | context.go:89-188 | SendResponse, Sends and EndSend write the response, one start, the items and the end, a frame each, without error. |
| `Streaming.ReadsOfTheWhole` | wire/stream.go:118-132 | In every run without resets, each Read returns what a read of all blocks ever sent, past and future, returns at that place. |
| `Growth.AnyGrows` | proto/decode.go:7-37 | Decoding what has arrived, at any place and limit of any input whatever, either waits or has the result and position that it has over any continuation. |
| `Growth.MessageGrows` | rpc/structs.go:19-53 | The same of a message of any kind. |
| `Growth.RecvGrows` | context.go:36-87 | A Recv that answers from what has arrived answers what it would over any continuation; one that waits can go on from the context and place it has reached as if it had only begun then. |
| `Growth.NoCallTooEarly` | context.go:36-168 | In every run without resets, whatever was written and in whatever pieces: Recv and ReadResponse answer at any moment what they would at every later one, or wait without prejudice. |
| `Streaming.ClientReceives` | context.go:36-87 | Read from the conversation, over any blocks that cut no body: the response, then every value in normal form, in order, then StreamEndError from every later call. |
| `Streaming.ConversationRuns` | context.go:89-188 | Writing the conversation message by message is a run without resets, and sends all that SendResponse, the Sends and EndSend write. |
| `Streaming.EmptyServe` | context.go:129-188 | A stream ended without a Send is the response and the end: the start is never written. |
| `Streaming.EmptyStreamFails` | context.go:47-60 | Read from what that server sends: the response, and then every Recv fails, the first because the end is not a start and the others for good. |
| `Sessions.StreamingEndToEnd` | context.go:36-188 | In one run of the server's calls, the exchange of packets and the client's calls, in every interleaving without resets: ReadResponse returned the response, and the results of Recv are the beginning of all sent values in normal form, in order, followed for good by the end of the stream. |
| `Sessions.RecvsAfterTheEnd` | context.go:63-86 | Once the end of the stream is delivered no Recv waits, and the calls up to number n + k have returned exactly the n values and then k times the end. |
| `Sessions.StreamCompletes` | context.go:36-188 | A reachable state of the session, whatever is written, in flight or half consumed, has moves to the response, every value and the end if and only if no delivery waits before the client's full channel. |
| `Sessions.ShortNeverJams` | wire/block_reader.go:16-43 | With at most 125 values no run has a delivery wait so. |
| `Sessions.LongCanJam` | wire/block_reader.go:32-43 | With more, some run has. |

## Left out

- Reflection into Go structs (`proto/struct.go:168-393`): decoding stops at the identifier and the index-to-value map; the result of the reflective step depends on map iteration order.
- Pointers, named types and the reflection panics of `proto/encode.go`: a value is one of the datatype's constructors, or unsupported.
- IEEE arithmetic and float32-to-float64 widening: floats are bit patterns tagged with their width, with zero in canonical form.
- Compression itself: an arbitrary function of the payload. No read loop decompresses, so what a peer makes of compressed frames is stated for the acknowledgement only; `Clients` is about connections without compression, which is what `Dial` asks for.
- Memory for claimed lengths, and a negative length given to `make`: allocation always succeeds.
- Capacity growth of the scratch buffer: `slices.Grow` may allocate more than the model's new array; nothing depends on it.
- Locking inside a stream: the calls of `Streams.Stream` are atomic steps, save that `PairLaws.SplitRead` takes Read apart, and a packet handed to the connection is never refused. `Streams.Stream.Read` reports where the source would block.
- Atomicity in `Connections`: `terminate` and the writing of one frame are single steps, so two goroutines that terminate at the same instant, and a frame half written when the socket closes, are not modelled. The owners of streams do not wait for a packet to be written before they queue the next, which covers more runs than there are. Streams in a connection are values, not shared objects.
- Handshake.HandshakeHolds: the claim about the last frame is for runs that spare the pooled objects, since it is false of others (`Farewells.FarewellForgotten`, `Farewells.FarewellUnsent`), and for sockets that take every write; a broken one is a step of the model after which nothing is claimed of the wire. `Server.Shutdown` (`wire/server.go:63-71`), which sends a GOAWAY of its own with no error, is not a step of the model.
- Farewells.EveryInterleavingEnds: counts the writer's steps, since nothing in the code makes the scheduler fair; a peer that keeps violating the protocol at the right moment can put off the end, as `Farewells.SecondFarewell` shows for one round.
- PairLaws.NothingLost: for runs without Reset and with final writes of at most 65535 bytes; for all others the prefix law and `PairLaws.EndingWriteDelivers` hold.
- Sessions.StreamingEndToEnd: server to client only, every Read a single move (what else can come of it is `PairLaws.SplitRead`), at least one Send, a frame for each message; in the other direction the client writes the start of the stream twice and `Recv` rejects the second. A client's call takes a message when it has all arrived, with reads of any sizes; that it might have consumed part of a message before waiting for the rest is not visible to anyone, and with a frame for each message does not occur.
- A stream-metadata message received by a server, which has no response to note it in, is not modelled as the nil dereference it is.
- The service and method lookup, request handling and interception of `server.go`: only the report of a failed handler (`server.go:266-300`) is modelled, with its status and metadata given.
- The client's service loops, dispatch, reset and termination (`wire/client.go:134-345`) and the connection table of `wire/server.go`.
- Bytes that are no frame, or a frame of a kind above 5: the frame reader refuses them (`Frames.ReadFrame`), and to a connection that is a failed read, which ends it without a GOAWAY.
- Sockets, TLS, listeners, logging, request ids, the service registry, interceptors, streamer wrappers, status texts and error strings.
- The metadata accessors (`rpc/metadata.go:12-99`): linear searches and appends over the pair list, on which no other result depends.

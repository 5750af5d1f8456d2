/**
 * The notification frame codec: a notification is carried as a group of three
 * byte frames (topic, data, 4-byte little-endian sequence number).
 *
 * Block, transaction and sequence-message payloads go through codecs this
 * model does not see; they are abstract types and the codecs are function
 * values collected in `Externals`. Rust panics are values of `Panicking`.
 */
module Codec {
  import opened Wrappers

  newtype Byte = x: int | 0 <= x < 0x100
  newtype U32 = x: int | 0 <= x < 0x1_0000_0000
  type Bytes = seq<Byte>

  /** A 256-bit hash (BlockHash, Txid) as its 32 bytes. */
  type Hash256 = s: Bytes | |s| == 32 witness seq(32, _ => 0)

  /** The payload of a sequence frame, `[u8; 4]`. */
  type SequenceBytes = s: Bytes | |s| == 4 witness [0, 0, 0, 0]

  /** A fixed-size frame group, `[Vec<u8>; 3]`. */
  type Frames3 = s: seq<Bytes> | |s| == 3 witness [[], [], []]

  /** Payload types decoded by collaborators. */
  type BitcoinBlock(==)
  type Transaction(==)
  type SequenceMessage(==)

  const TopicMaxLen: nat := 9
  const SequenceLen: nat := 4
  const HashLen: nat := 32

  /** The error kinds the codec returns (the crate's `Error`). */
  datatype Error =
    | InvalidMutlipartLength(count: nat)
    | InvalidSequenceLength(length: nat)
    | InvalidTopic(topicLength: nat, snapshot: Bytes)
    | Invalid256BitHashLength(length: nat)
    | InvalidSequenceMessageLength(length: nat)
    | Deserialize(detail: nat)  // failure of the consensus codec
    | Zmq(errno: int)           // failure of the messaging transport

  datatype Result<+T> = Ok(value: T) | Err(error: Error)

  /** Why a Rust operation panicked. */
  datatype Panic =
    | SliceIndexOutOfRange(index: nat, length: nat)
    | ArrayLengthMismatch(expected: nat, found: nat)

  /** The outcome of a Rust call that may panic instead of returning. */
  datatype Panicking<+T> = Returns(value: T) | Panics(cause: Panic)

  /** The collaborators of the codec, each an opaque total function. */
  datatype Externals = Externals(
    deserializeBlock: Bytes -> Result<BitcoinBlock>,
    serializeBlock: BitcoinBlock -> Bytes,
    deserializeTx: Bytes -> Result<Transaction>,
    serializeTx: Transaction -> Bytes,
    sequenceFromBytes: Bytes -> Result<SequenceMessage>,
    sequenceToBytes: SequenceMessage -> Bytes,
    utf8Lossy: Bytes -> Bytes)

  /** A notification; a String (the wallet label) is kept as its UTF-8 bytes. */
  datatype Message =
    | HashBlock(blockHash: Hash256, sequence: U32)
    | HashTx(txid: Hash256, sequence: U32)
    | HashWTx(txid: Hash256, wallet: Bytes, sequence: U32)
    | Block(block: BitcoinBlock, sequence: U32)
    | Tx(tx: Transaction, sequence: U32)
    | Sequence(message: SequenceMessage, sequence: U32)
  {
    function TopicStr(): (t: string)
      ensures |t| <= TopicMaxLen
    {
      match this
      case HashBlock(_, _) => "hashblock"
      case HashTx(_, _) => "hashtx"
      case HashWTx(_, _, _) => "hashwtx"
      case Block(_, _) => "rawblock"
      case Tx(_, _) => "rawtx"
      case Sequence(_, _) => "sequence"
    }

    function Topic(): (t: Bytes)
      ensures |t| <= TopicMaxLen && IsKnownTopic(t)
    {
      Ascii(TopicStr())
    }

    /** `Message::sequence`: the number every variant carries. */
    function SequenceNumber(): (n: U32)
      ensures n == this.sequence
    {
      match this
      case HashBlock(_, s) => s
      case HashTx(_, s) => s
      case HashWTx(_, _, s) => s
      case Block(_, s) => s
      case Tx(_, s) => s
      case Sequence(_, s) => s
    }
  }

  // ---------------------------------------------------------------------
  // Bytes

  /** `str::as_bytes` for a string made of ASCII characters. */
  function Ascii(s: string): (b: Bytes)
    requires forall i :: 0 <= i < |s| ==> s[i] < 128 as char
    ensures |b| == |s|
    ensures forall i :: 0 <= i < |s| ==> b[i] as int == s[i] as int
  {
    seq(|s|, i requires 0 <= i < |s| => s[i] as int as Byte)
  }

  const HashBlockTopic: Bytes := Ascii("hashblock")
  const HashTxTopic: Bytes := Ascii("hashtx")
  const HashWTxTopic: Bytes := Ascii("hashwtx")
  const RawBlockTopic: Bytes := Ascii("rawblock")
  const RawTxTopic: Bytes := Ascii("rawtx")
  const SequenceTopic: Bytes := Ascii("sequence")

  predicate IsKnownTopic(t: Bytes) {
    t == HashBlockTopic || t == HashTxTopic || t == HashWTxTopic ||
    t == RawBlockTopic || t == RawTxTopic || t == SequenceTopic
  }

  /** The six topics are pairwise distinct, so dispatching on them is unambiguous. */
  lemma TopicsDistinct()
    ensures HashBlockTopic != HashTxTopic && HashBlockTopic != HashWTxTopic
    ensures HashBlockTopic != RawBlockTopic && HashBlockTopic != RawTxTopic
    ensures HashBlockTopic != SequenceTopic
    ensures HashTxTopic != HashWTxTopic && HashTxTopic != RawBlockTopic
    ensures HashTxTopic != RawTxTopic && HashTxTopic != SequenceTopic
    ensures HashWTxTopic != RawBlockTopic && HashWTxTopic != RawTxTopic
    ensures HashWTxTopic != SequenceTopic
    ensures RawBlockTopic != RawTxTopic && RawBlockTopic != SequenceTopic
    ensures RawTxTopic != SequenceTopic
  {
    assert RawBlockTopic[0] != SequenceTopic[0];
  }

  /** `<[u8]>::reverse`, as a function of the bytes. */
  function Reverse(s: Bytes): (r: Bytes)
    ensures |r| == |s|
  {
    if s == [] then [] else Reverse(s[1..]) + [s[0]]
  }

  lemma {:induction false} ReverseAt(s: Bytes, i: nat)
    requires i < |s|
    ensures Reverse(s)[i] == s[|s| - 1 - i]
  {
    if i < |s| - 1 {
      ReverseAt(s[1..], i);
    }
  }

  lemma ReverseInvolutive(s: Bytes)
    ensures Reverse(Reverse(s)) == s
  {
    forall i | 0 <= i < |s|
      ensures Reverse(Reverse(s))[i] == s[i]
    {
      ReverseAt(Reverse(s), i);
      ReverseAt(s, |s| - 1 - i);
    }
  }

  /** `u32::from_le_bytes`. */
  function FromLeBytes(b: SequenceBytes): U32 {
    (b[0] as int + 0x100 * (b[1] as int + 0x100 * (b[2] as int + 0x100 * b[3] as int))) as U32
  }

  /** `u32::to_le_bytes`: the four bytes whose little-endian value is `n`. */
  function ToLeBytes(n: U32): (b: SequenceBytes)
    ensures FromLeBytes(b) == n
  {
    var q1 := n as int / 0x100;
    var q2 := q1 / 0x100;
    var q3 := q2 / 0x100;
    [(n as int % 0x100) as Byte, (q1 % 0x100) as Byte, (q2 % 0x100) as Byte, q3 as Byte]
  }

  lemma LeBytesRoundTrip(b: SequenceBytes)
    ensures ToLeBytes(FromLeBytes(b)) == b
  {
    var k2 := b[2] as int + 0x100 * b[3] as int;
    var k1 := b[1] as int + 0x100 * k2;
    var n := b[0] as int + 0x100 * k1;
    assert FromLeBytes(b) as int == n;
    assert n / 0x100 == k1 && n % 0x100 == b[0] as int;
    assert k1 / 0x100 == k2 && k1 % 0x100 == b[1] as int;
    assert k2 / 0x100 == b[3] as int && k2 % 0x100 == b[2] as int;
  }

  // ---------------------------------------------------------------------
  // Encoding

  /** `Message::serialize_data_to_vec`: the middle frame. */
  function SerializeDataToVec(x: Externals, m: Message): (r: Panicking<Bytes>)
    ensures (m.HashBlock? || m.HashTx?) ==> r.Returns? && |r.value| == HashLen
    ensures m.HashWTx? ==> r.Panics?
    ensures m.HashWTx? ==> (r.cause.SliceIndexOutOfRange? <==> |m.wallet| > HashLen)
    ensures !m.HashWTx? ==> r.Returns?
  {
    match m
    case HashBlock(h, _) => Returns(Reverse(h))
    case HashTx(h, _) => Returns(Reverse(h))
    case HashWTx(_, wallet, _) =>
      // the label is copied into a zeroed [u8; 32], which panics when it is longer
      if |wallet| > HashLen then Panics(SliceIndexOutOfRange(|wallet|, HashLen))
      // hash and padded label make 64 bytes, which do not convert into [u8; 32]
      else Panics(ArrayLengthMismatch(HashLen, 2 * HashLen))
    case Block(b, _) => Returns(x.serializeBlock(b))
    case Tx(t, _) => Returns(x.serializeTx(t))
    case Sequence(s, _) => Returns(x.sequenceToBytes(s))
  }

  /** `Message::serialize_to_vecs`: topic, data and little-endian sequence. */
  function SerializeToVecs(x: Externals, m: Message): (r: Panicking<Frames3>)
    ensures r.Returns? <==> SerializeDataToVec(x, m).Returns?
    ensures r.Returns? ==> r.value[0] == m.Topic() && r.value[2] == ToLeBytes(m.SequenceNumber())
    ensures r.Returns? ==> r.value[1] == SerializeDataToVec(x, m).value
  {
    match SerializeDataToVec(x, m)
    case Panics(p) => Panics(p)
    case Returns(data) => Returns([m.Topic(), data, ToLeBytes(m.SequenceNumber())])
  }

  // ---------------------------------------------------------------------
  // Decoding

  function Min(a: nat, b: nat): nat {
    if a <= b then a else b
  }

  /** The `[u8; 9]` kept by `InvalidTopic`: the topic's first bytes, zero-filled. */
  function TopicSnapshot(topic: Bytes): (buf: Bytes)
    ensures |buf| == TopicMaxLen
    ensures forall i :: 0 <= i < Min(TopicMaxLen, |topic|) ==> buf[i] == topic[i]
    ensures forall i :: Min(TopicMaxLen, |topic|) <= i < TopicMaxLen ==> buf[i] == 0
  {
    var k := Min(TopicMaxLen, |topic|);
    topic[..k] + seq(TopicMaxLen - k, _ => 0)
  }

  /** `Error::invalid_topic_data`: the snapshot cut to the topic's length, and that length. */
  function InvalidTopicData(e: Error): (r: Option<(Bytes, nat)>)
    ensures r.Some? <==> e.InvalidTopic?
  {
    match e
    case InvalidTopic(len, buf) => Some((buf[..Min(Min(TopicMaxLen, len), |buf|)], len))
    case _ => None
  }

  /** `Message::from_parts`: dispatch on the topic; the sequence is already 4 bytes. */
  function FromParts(x: Externals, topic: Bytes, data: Bytes, seqBytes: SequenceBytes): (r: Panicking<Result<Message>>)
    ensures r.Returns? && r.value.Ok? ==> r.value.value.Topic() == topic
    ensures r.Returns? && r.value.Ok? ==> r.value.value.SequenceNumber() == FromLeBytes(seqBytes)
  {
    var sequence := FromLeBytes(seqBytes);
    if topic == HashBlockTopic || topic == HashTxTopic then
      if |data| != HashLen then Returns(Err(Invalid256BitHashLength(|data|)))
      else if topic == HashBlockTopic then Returns(Ok(HashBlock(Reverse(data), sequence)))
      else Returns(Ok(HashTx(Reverse(data), sequence)))
    else if topic == RawBlockTopic then
      match x.deserializeBlock(data)
      case Err(e) => Returns(Err(e))
      case Ok(b) => Returns(Ok(Block(b, sequence)))
    else if topic == RawTxTopic then
      match x.deserializeTx(data)
      case Err(e) => Returns(Err(e))
      case Ok(t) => Returns(Ok(Tx(t, sequence)))
    else if topic == SequenceTopic then
      match x.sequenceFromBytes(data)
      case Err(e) => Returns(Err(e))
      case Ok(s) => Returns(Ok(Sequence(s, sequence)))
    else if topic == HashWTxTopic then
      // `data[..32]` panics before its conversion could report a length error;
      // the txid is not reversed
      if |data| < HashLen then Panics(SliceIndexOutOfRange(HashLen, |data|))
      else Returns(Ok(HashWTx(data[..HashLen], x.utf8Lossy(data[HashLen..]), sequence)))
    else
      Returns(Err(InvalidTopic(|topic|, TopicSnapshot(topic))))
  }

  /** `Message::from_fixed_size_multipart`: the sequence frame must be 4 bytes. */
  function FromFixedSizeMultipart(x: Externals, mp: Frames3): (r: Panicking<Result<Message>>)
    ensures |mp[2]| != SequenceLen ==> r == Returns(Err(InvalidSequenceLength(|mp[2]|)))
  {
    if |mp[2]| != SequenceLen then Returns(Err(InvalidSequenceLength(|mp[2]|)))
    else FromParts(x, mp[0], mp[1], mp[2])
  }

  /** `Message::from_multipart`: the group must hold exactly three frames. */
  function FromMultipart(x: Externals, mp: seq<Bytes>): (r: Panicking<Result<Message>>)
    ensures |mp| != 3 ==> r == Returns(Err(InvalidMutlipartLength(|mp|)))
  {
    if |mp| != 3 then Returns(Err(InvalidMutlipartLength(|mp|)))
    else FromFixedSizeMultipart(x, mp)
  }

  // ---------------------------------------------------------------------
  // Laws of the codec

  /** A group of any size other than three is refused before any frame is read. */
  lemma MultipartLengthChecked(x: Externals, mp: seq<Bytes>, mp': seq<Bytes>)
    requires |mp| == |mp'| && |mp| != 3
    ensures FromMultipart(x, mp) == FromMultipart(x, mp')
    ensures FromMultipart(x, mp) == Returns(Err(InvalidMutlipartLength(|mp|)))
  {
  }

  /** A sequence frame that is not 4 bytes is refused whatever the topic and data. */
  lemma SequenceLengthChecked(x: Externals, topic: Bytes, data: Bytes, seqFrame: Bytes)
    requires |seqFrame| != SequenceLen
    ensures FromMultipart(x, [topic, data, seqFrame]) == Returns(Err(InvalidSequenceLength(|seqFrame|)))
  {
  }

  /** `hashblock` and `hashtx` need exactly 32 data bytes. */
  lemma HashLengthChecked(x: Externals, topic: Bytes, data: Bytes, seqBytes: SequenceBytes)
    requires topic == HashBlockTopic || topic == HashTxTopic
    ensures |data| != HashLen <==>
      FromMultipart(x, [topic, data, seqBytes]) == Returns(Err(Invalid256BitHashLength(|data|)))
  {
  }

  /** A 32-byte hash is stored as the wire bytes reversed, with the topic's variant. */
  lemma {:induction false} HashDecodeReverses(x: Externals, topic: Bytes, data: Bytes, seqBytes: SequenceBytes)
    requires topic == HashBlockTopic || topic == HashTxTopic
    requires |data| == HashLen
    ensures var r := FromMultipart(x, [topic, data, seqBytes]);
      && r.Returns? && r.value.Ok?
      && (topic == HashBlockTopic <==> r.value.value.HashBlock?)
      && (topic == HashTxTopic <==> r.value.value.HashTx?)
      && r.value.value.SequenceNumber() == FromLeBytes(seqBytes)
      && (r.value.value.HashBlock? ==>
            forall i :: 0 <= i < HashLen ==> r.value.value.blockHash[i] == data[HashLen - 1 - i])
      && (r.value.value.HashTx? ==>
            forall i :: 0 <= i < HashLen ==> r.value.value.txid[i] == data[HashLen - 1 - i])
  {
    TopicsDistinct();
    forall i | 0 <= i < HashLen
      ensures Reverse(data)[i] == data[HashLen - 1 - i]
    {
      ReverseAt(data, i);
    }
  }

  /** Re-encoding a decoded `hashblock` / `hashtx` group gives back the same frames. */
  lemma {:induction false} HashFramesRoundTrip(x: Externals, mp: seq<Bytes>)
    requires |mp| == 3 && (mp[0] == HashBlockTopic || mp[0] == HashTxTopic)
    requires |mp[1]| == HashLen && |mp[2]| == SequenceLen
    ensures var r := FromMultipart(x, mp);
      r.Returns? && r.value.Ok? && SerializeToVecs(x, r.value.value) == Returns(mp)
  {
    TopicsDistinct();
    var m := FromMultipart(x, mp).value.value;
    assert m.Topic() == mp[0];
    ReverseInvolutive(mp[1]);
    assert SerializeDataToVec(x, m) == Returns(mp[1]);
    LeBytesRoundTrip(mp[2]);
    assert [mp[0], mp[1], mp[2]] == mp;
  }

  /**
   * A `rawblock`, `rawtx` or `sequence` group whose payload decodes, and whose
   * payload codec re-encodes the decoded value to the same bytes, decodes to
   * the matching variant, and re-encoding that message gives back the frames.
   */
  lemma {:induction false} RawFramesRoundTrip(x: Externals, topic: Bytes, data: Bytes, s: SequenceBytes)
    requires topic == RawBlockTopic || topic == RawTxTopic || topic == SequenceTopic
    requires topic == RawBlockTopic ==>
      x.deserializeBlock(data).Ok? && x.serializeBlock(x.deserializeBlock(data).value) == data
    requires topic == RawTxTopic ==>
      x.deserializeTx(data).Ok? && x.serializeTx(x.deserializeTx(data).value) == data
    requires topic == SequenceTopic ==>
      x.sequenceFromBytes(data).Ok? && x.sequenceToBytes(x.sequenceFromBytes(data).value) == data
    ensures var r := FromMultipart(x, [topic, data, s]);
      && r.Returns? && r.value.Ok?
      && (topic == RawBlockTopic ==> r.value.value == Block(x.deserializeBlock(data).value, FromLeBytes(s)))
      && (topic == RawTxTopic ==> r.value.value == Tx(x.deserializeTx(data).value, FromLeBytes(s)))
      && (topic == SequenceTopic ==> r.value.value == Sequence(x.sequenceFromBytes(data).value, FromLeBytes(s)))
      && SerializeToVecs(x, r.value.value) == Returns([topic, data, s])
  {
    TopicsDistinct();
    LeBytesRoundTrip(s);
  }

  /** The payload codecs invert each other on the payload this message carries. */
  predicate PayloadRoundTrips(x: Externals, m: Message) {
    match m
    case Block(b, _) => x.deserializeBlock(x.serializeBlock(b)) == Ok(b)
    case Tx(t, _) => x.deserializeTx(x.serializeTx(t)) == Ok(t)
    case Sequence(s, _) => x.sequenceFromBytes(x.sequenceToBytes(s)) == Ok(s)
    case _ => true
  }

  /** Decoding the encoding gives the message back, for every variant but HashWTx. */
  lemma {:induction false} EncodeDecodeRoundTrip(x: Externals, m: Message)
    requires !m.HashWTx? && PayloadRoundTrips(x, m)
    ensures var f := SerializeToVecs(x, m);
      f.Returns? && FromMultipart(x, f.value) == Returns(Ok(m))
  {
    TopicsDistinct();
    LeBytesRoundTrip(ToLeBytes(m.sequence));
    match m
    case HashBlock(h, s) => ReverseInvolutive(h);
    case HashTx(h, s) => ReverseInvolutive(h);
    case Block(_, _) =>
    case Tx(_, _) =>
    case Sequence(_, _) =>
  }

  /** Encoding a HashWTx always panics, so it has no round trip. */
  lemma HashWTxEncodePanics(x: Externals, m: Message)
    requires m.HashWTx?
    ensures SerializeToVecs(x, m).Panics?
  {
  }

  /**
   * `hashwtx` data of at least 32 bytes decodes to the unreversed first 32 bytes
   * and the lossy UTF-8 of the rest; shorter data panics.
   */
  lemma {:induction false} HashWTxDecode(x: Externals, data: Bytes, seqBytes: SequenceBytes)
    ensures var r := FromMultipart(x, [HashWTxTopic, data, seqBytes]);
      && (|data| < HashLen <==> r.Panics?)
      && (|data| >= HashLen ==>
            r == Returns(Ok(HashWTx(data[..HashLen], x.utf8Lossy(data[HashLen..]), FromLeBytes(seqBytes)))))
  {
    TopicsDistinct();
  }

  /** Decoding panics exactly on a well-sized `hashwtx` group whose data is short. */
  lemma {:induction false} DecodePanicsOnlyOnShortHashWTx(x: Externals, mp: seq<Bytes>)
    ensures FromMultipart(x, mp).Panics? <==>
      |mp| == 3 && |mp[2]| == SequenceLen && mp[0] == HashWTxTopic && |mp[1]| < HashLen
  {
    TopicsDistinct();
  }

  /** The payload decoders never report an unknown topic themselves. */
  ghost predicate NoTopicErrors(x: Externals) {
    && (forall b :: x.deserializeBlock(b).Err? ==> !x.deserializeBlock(b).error.InvalidTopic?)
    && (forall b :: x.deserializeTx(b).Err? ==> !x.deserializeTx(b).error.InvalidTopic?)
    && (forall b :: x.sequenceFromBytes(b).Err? ==> !x.sequenceFromBytes(b).error.InvalidTopic?)
  }

  /** A well-sized group with a topic that is not one of the six is refused with its length and 9-byte snapshot. */
  lemma {:induction false} UnknownTopic(x: Externals, topic: Bytes, data: Bytes, seqBytes: SequenceBytes)
    requires !IsKnownTopic(topic)
    ensures FromMultipart(x, [topic, data, seqBytes]) == Returns(Err(InvalidTopic(|topic|, TopicSnapshot(topic))))
  {
  }

  /** A known topic is never refused as `InvalidTopic`, as long as the payload codecs do not report one. */
  lemma {:induction false} KnownTopicAccepted(x: Externals, topic: Bytes, data: Bytes, seqBytes: SequenceBytes)
    requires NoTopicErrors(x) && IsKnownTopic(topic)
    ensures var r := FromMultipart(x, [topic, data, seqBytes]);
      !(r.Returns? && r.value.Err? && r.value.error.InvalidTopic?)
  {
    var r := FromMultipart(x, [topic, data, seqBytes]);
    if topic == RawBlockTopic {
      TopicsDistinct();
      assert r == FromParts(x, topic, data, seqBytes);
      if x.deserializeBlock(data).Err? {
        assert !x.deserializeBlock(data).error.InvalidTopic?;
      }
    } else if topic == RawTxTopic {
      TopicsDistinct();
      if x.deserializeTx(data).Err? {
        assert !x.deserializeTx(data).error.InvalidTopic?;
      }
    } else if topic == SequenceTopic {
      TopicsDistinct();
      if x.sequenceFromBytes(data).Err? {
        assert !x.sequenceFromBytes(data).error.InvalidTopic?;
      }
    }
  }

  /** Errors of the payload codecs come out of the decoder unchanged. */
  lemma {:induction false} PayloadErrorsPropagate(x: Externals, topic: Bytes, data: Bytes, seqBytes: SequenceBytes)
    requires topic == RawBlockTopic || topic == RawTxTopic || topic == SequenceTopic
    ensures var r := FromMultipart(x, [topic, data, seqBytes]);
      && (topic == RawBlockTopic && x.deserializeBlock(data).Err? ==>
            r == Returns(Err(x.deserializeBlock(data).error)))
      && (topic == RawTxTopic && x.deserializeTx(data).Err? ==>
            r == Returns(Err(x.deserializeTx(data).error)))
      && (topic == SequenceTopic && x.sequenceFromBytes(data).Err? ==>
            r == Returns(Err(x.sequenceFromBytes(data).error)))
  {
    TopicsDistinct();
  }

  /** Two messages with the same topic are the same variant. */
  lemma {:induction false} TopicIdentifiesVariant(m: Message, m': Message)
    requires m.Topic() == m'.Topic()
    ensures m.HashBlock? == m'.HashBlock? && m.HashTx? == m'.HashTx?
    ensures m.HashWTx? == m'.HashWTx? && m.Block? == m'.Block?
    ensures m.Tx? == m'.Tx? && m.Sequence? == m'.Sequence?
  {
    TopicsDistinct();
  }

  // ---------------------------------------------------------------------
  // The unit tests' inputs

  lemma InvalidTopicExamples(x: Externals)
    ensures var r := FromMultipart(x, [[], [], [6, 0, 0, 0]]);
      r.Returns? && r.value.Err? && InvalidTopicData(r.value.error) == Some(([], 0))
    ensures var r := FromMultipart(x, [Ascii("abc"), [], [7, 0, 0, 0]]);
      r.Returns? && r.value.Err? && InvalidTopicData(r.value.error) == Some((Ascii("abc"), 3))
    ensures var r := FromMultipart(x, [Ascii("hashblock!"), [], [8, 0, 0, 0]]);
      r.Returns? && r.value.Err? && InvalidTopicData(r.value.error) == Some((Ascii("hashblock"), 10))
    ensures var r := FromMultipart(x, [Ascii("too long so gets truncated"), [], [9, 0, 0, 0]]);
      r.Returns? && r.value.Err? && InvalidTopicData(r.value.error) == Some((Ascii("too long "), 26))
  {
    var a := Ascii("abc");
    assert TopicSnapshot(a)[..3] == a;
    var t := Ascii("hashblock!");
    assert t[..9] == Ascii("hashblock");
    assert t != HashBlockTopic;
    var u := Ascii("too long so gets truncated");
    assert u[..9] == Ascii("too long ");
  }

  lemma ElementLengthExamples(x: Externals)
    ensures FromMultipart(x, [Ascii("something"), [], Ascii("not 4 bytes")])
      == Returns(Err(InvalidSequenceLength(11)))
    ensures FromMultipart(x, [HashTxTopic, [], [10, 0, 0, 0]])
      == Returns(Err(Invalid256BitHashLength(0)))
    ensures FromMultipart(x, [HashBlockTopic, seq(20, _ => 0), [11, 0, 0, 0]])
      == Returns(Err(Invalid256BitHashLength(20)))
  {
  }
}

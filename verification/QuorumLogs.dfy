/** Provider log responses in a canonical form: equal forms exactly for equal sets of logs. */
module QuorumLogs {
  import opened Prelude

  const MAX_LOGS_PER_RESPONSE: nat := 20_000
  const MAX_TOPICS_PER_LOG: nat := 4
  const MAX_LOG_DATA_BYTES: nat := 0x10_0000

  type Byte = b: int | 0 <= b < 256

  // 32-byte digests and 20-byte addresses by their big-endian value.
  type Word256 = Wei
  type Word160 = n: int | 0 <= n < 0x1_0000_0000_0000_0000_0000_0000_0000_0000_0000_0000

  datatype Log = Log(
    address: Word160, topics: seq<Word256>, data: seq<Byte>, number: Uint64, txHash: Word256, txIndex: Uint64,
    blockHash: Word256, timestamp: Uint64, index: Uint64, removed: bool)

  datatype Identity = Identity(blockHash: Word256, txHash: Word256, index: Uint64)

  function IdentityOf(log: Log): Identity { Identity(log.blockHash, log.txHash, log.index) }

  datatype Anchor = ByHash(hash: Word256) | ByRange(from: Uint64, to: Uint64)

  datatype Error = Malformed | Mismatch

  // validateLog
  predicate ValidLog(log: Log, anchor: Anchor) {
    && !log.removed && log.blockHash != 0 && log.txHash != 0
    && |log.topics| <= MAX_TOPICS_PER_LOG && |log.data| <= MAX_LOG_DATA_BYTES
    && match anchor
       case ByHash(hash) => log.blockHash == hash
       case ByRange(from, to) => from <= log.number <= to
  }

  // ---------- Encoding ----------

  function BigEndian(n: nat, width: nat): (s: seq<Byte>)
    ensures |s| == width
    decreases width, n
  {
    if width == 0 then [] else BigEndian(n / 256, width - 1) + [n % 256]
  }

  function Power(width: nat): nat { if width == 0 then 1 else 256 * Power(width - 1) }

  lemma {:induction false} BigEndianInjective(a: nat, b: nat, width: nat)
    requires a < Power(width) && b < Power(width) && BigEndian(a, width) == BigEndian(b, width)
    ensures a == b
    decreases width
  {
    if width > 0 {
      var x, y := BigEndian(a / 256, width - 1), BigEndian(b / 256, width - 1);
      assert (x + [a % 256])[..width - 1] == x && (y + [b % 256])[..width - 1] == y;
      assert (x + [a % 256])[width - 1] == a % 256 && (y + [b % 256])[width - 1] == b % 256;
      BigEndianInjective(a / 256, b / 256, width - 1);
    }
  }

  function U64(n: Uint64): (s: seq<Byte>)
    ensures |s| == 8
  {
    BigEndian(n, 8)
  }

  lemma U64Injective(a: Uint64, b: Uint64)
    requires U64(a) == U64(b)
    ensures a == b
  {
    assert Power(8) == 0x1_0000_0000_0000_0000;
    BigEndianInjective(a, b, 8);
  }

  function U256(n: Word256): (s: seq<Byte>)
    ensures |s| == 32
  {
    BigEndian(n, 32)
  }

  lemma Power16()
    ensures Power(16) == 0x1_0000_0000_0000_0000_0000_0000_0000_0000
  {
    PowerSplit(8, 8);
    assert Power(8) == 0x1_0000_0000_0000_0000;
  }

  lemma Power32()
    ensures Power(32) == MAX_UINT256 + 1
  {
    PowerSplit(16, 16);
    Power16();
  }

  lemma U256Injective(a: Word256, b: Word256)
    requires U256(a) == U256(b)
    ensures a == b
  {
    Power32();
    BigEndianInjective(a, b, 32);
  }

  function U160(n: Word160): (s: seq<Byte>)
    ensures |s| == 20
  {
    BigEndian(n, 20)
  }

  lemma U160Injective(a: Word160, b: Word160)
    requires U160(a) == U160(b)
    ensures a == b
  {
    PowerSplit(8, 12);
    PowerSplit(4, 8);
    assert Power(4) == 0x1_0000_0000 && Power(8) == 0x1_0000_0000_0000_0000;
    BigEndianInjective(a, b, 20);
  }

  lemma {:induction false} PowerSplit(a: nat, b: nat)
    ensures Power(a + b) == Power(a) * Power(b)
    decreases a
  {
    if a > 0 {
      PowerSplit(a - 1, b);
    }
  }

  function Flatten(topics: seq<Word256>): (s: seq<Byte>)
    ensures |s| == 32 * |topics|
  {
    if topics == [] then [] else U256(topics[0]) + Flatten(topics[1..])
  }

  lemma Split(a: seq<Byte>, x: seq<Byte>, b: seq<Byte>, y: seq<Byte>)
    requires a + x == b + y && |a| == |b|
    ensures a == b && x == y
  {
    assert a == (a + x)[..|a|] && b == (b + y)[..|b|];
    assert x == (a + x)[|a|..] && y == (b + y)[|b|..];
  }

  lemma {:induction false} FlattenInjective(s: seq<Word256>, t: seq<Word256>)
    requires |s| == |t| && Flatten(s) == Flatten(t)
    ensures s == t
    decreases |s|
  {
    if s != [] {
      Split(U256(s[0]), Flatten(s[1..]), U256(t[0]), Flatten(t[1..]));
      U256Injective(s[0], t[0]);
      FlattenInjective(s[1..], t[1..]);
      assert s == [s[0]] + s[1..] && t == [t[0]] + t[1..];
    }
  }

  // What validateLog leaves of a log: bounded, and not withdrawn.
  predicate Sized(log: Log) {
    |log.topics| <= MAX_TOPICS_PER_LOG && |log.data| <= MAX_LOG_DATA_BYTES && !log.removed
  }

  // encodeLog, in three parts: what a log says, where it is, and its place in the block.
  function EncodePlace(log: Log): seq<Byte> {
    U64(log.txIndex) + (U256(log.blockHash) + (U64(log.timestamp) + (U64(log.index) + [0])))
  }

  function EncodeSource(log: Log): seq<Byte> {
    U64(log.number) + (U256(log.txHash) + EncodePlace(log))
  }

  function Encode(log: Log): seq<Byte>
    requires Sized(log)
  {
    U160(log.address) + (U64(|log.topics|) + (Flatten(log.topics) + (U64(|log.data|) + (log.data + EncodeSource(log)))))
  }

  lemma PlaceInjective(a: Log, b: Log)
    requires EncodePlace(a) == EncodePlace(b)
    ensures a.txIndex == b.txIndex && a.blockHash == b.blockHash && a.timestamp == b.timestamp && a.index == b.index
  {
    Split(U64(a.txIndex), U256(a.blockHash) + (U64(a.timestamp) + (U64(a.index) + [0])),
          U64(b.txIndex), U256(b.blockHash) + (U64(b.timestamp) + (U64(b.index) + [0])));
    Split(U256(a.blockHash), U64(a.timestamp) + (U64(a.index) + [0]), U256(b.blockHash), U64(b.timestamp) + (U64(b.index) + [0]));
    Split(U64(a.timestamp), U64(a.index) + [0], U64(b.timestamp), U64(b.index) + [0]);
    Split(U64(a.index), [0], U64(b.index), [0]);
    U64Injective(a.txIndex, b.txIndex);
    U256Injective(a.blockHash, b.blockHash);
    U64Injective(a.timestamp, b.timestamp);
    U64Injective(a.index, b.index);
  }

  lemma SourceInjective(a: Log, b: Log)
    requires EncodeSource(a) == EncodeSource(b)
    ensures a.number == b.number && a.txHash == b.txHash && EncodePlace(a) == EncodePlace(b)
  {
    Split(U64(a.number), U256(a.txHash) + EncodePlace(a), U64(b.number), U256(b.txHash) + EncodePlace(b));
    Split(U256(a.txHash), EncodePlace(a), U256(b.txHash), EncodePlace(b));
    U64Injective(a.number, b.number);
    U256Injective(a.txHash, b.txHash);
  }

  lemma ContentInjective(a: Log, b: Log)
    requires Sized(a) && Sized(b) && Encode(a) == Encode(b)
    ensures a.address == b.address && a.topics == b.topics && a.data == b.data && EncodeSource(a) == EncodeSource(b)
  {
    Split(U160(a.address), U64(|a.topics|) + (Flatten(a.topics) + (U64(|a.data|) + (a.data + EncodeSource(a)))),
          U160(b.address), U64(|b.topics|) + (Flatten(b.topics) + (U64(|b.data|) + (b.data + EncodeSource(b)))));
    U160Injective(a.address, b.address);
    Split(U64(|a.topics|), Flatten(a.topics) + (U64(|a.data|) + (a.data + EncodeSource(a))),
          U64(|b.topics|), Flatten(b.topics) + (U64(|b.data|) + (b.data + EncodeSource(b))));
    U64Injective(|a.topics|, |b.topics|);
    Split(Flatten(a.topics), U64(|a.data|) + (a.data + EncodeSource(a)), Flatten(b.topics), U64(|b.data|) + (b.data + EncodeSource(b)));
    FlattenInjective(a.topics, b.topics);
    Split(U64(|a.data|), a.data + EncodeSource(a), U64(|b.data|), b.data + EncodeSource(b));
    U64Injective(|a.data|, |b.data|);
    Split(a.data, EncodeSource(a), b.data, EncodeSource(b));
  }

  // Every byte string is the encoding of at most one log.
  lemma EncodeInjective(a: Log, b: Log)
    requires Sized(a) && Sized(b) && Encode(a) == Encode(b)
    ensures a == b
  {
    ContentInjective(a, b);
    SourceInjective(a, b);
    PlaceInjective(a, b);
  }
}

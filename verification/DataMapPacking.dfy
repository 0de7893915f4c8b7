/** Packing a data map that may be too large for one chunk, and the two clients that follow it back. */
module DataMapPacking {
  import opened Sequences
  import opened Wrappers

  type Byte = b: int | 0 <= b < 256
  type Bytes = seq<Byte>
  type Name = n: Bytes | |n| == 32 witness seq(32, _ => 0)

  /** The address of an encrypted chunk and the hash of its source, from which its key is derived. */
  datatype ChunkInfo = ChunkInfo(dstHash: Name, srcHash: Name)
  type DataMap = seq<ChunkInfo>

  datatype DataMapLevel = First(dataMap: DataMap) | Additional(dataMap: DataMap)

  // ---- MessagePack ----

  const ONE_ENTRY_MAP: Byte := 0x81
  const FIRST_TAG: Bytes := [0x81, 0xA5, 0x46, 0x69, 0x72, 0x73, 0x74] // {"First": ..}
  const ADDITIONAL_TAG: Bytes := [0x81, 0xAA, 0x41, 0x64, 0x64, 0x69, 0x74, 0x69, 0x6F, 0x6E, 0x61, 0x6C]

  /** How data maps are encoded: any way that can be undone and takes a bounded number of bytes for each chunk, after
      at most five for their number. */
  datatype MapCodec = MapCodec(encode: DataMap -> Bytes, decode: Bytes -> Option<DataMap>, infoSize: nat) {
    ghost predicate Valid()
    {
      forall m {:trigger Encodes(m)} :: Encodes(m)
    }

    ghost predicate Encodes(m: DataMap)
    {
      decode(encode(m)) == Some(m) && |encode(m)| <= 5 + infoSize * |m|
    }
  }

  function EncodeLevel(codec: MapCodec, level: DataMapLevel): Bytes
  {
    (if level.First? then FIRST_TAG else ADDITIONAL_TAG) + codec.encode(level.dataMap)
  }

  function DecodeLevel(codec: MapCodec, b: Bytes): Option<DataMapLevel>
  {
    if FIRST_TAG <= b then
      var m := codec.decode(b[|FIRST_TAG|..]);
      if m.None? then None else Some(First(m.value))
    else if ADDITIONAL_TAG <= b then
      var m := codec.decode(b[|ADDITIONAL_TAG|..]);
      if m.None? then None else Some(Additional(m.value))
    else None
  }

  function Digits(n: nat, count: nat): (d: Bytes)
    ensures |d| == count
  {
    if count == 0 then [] else Digits(n / 256, count - 1) + [n % 256]
  }

  function Number(digits: Bytes): nat
  {
    if digits == [] then 0 else Number(digits[..|digits| - 1]) * 256 + digits[|digits| - 1] as int
  }

  function LengthSize(n: nat): nat
  {
    if n < 0x100 then 1 else if n < 0x1_0000 then 2 else 4
  }

  function BinMarker(lengthSize: nat): Byte
  {
    if lengthSize == 1 then 0xC4 else if lengthSize == 2 then 0xC5 else 0xC6
  }

  /** A chunk is serialised as its value alone: a byte string after its marker and big-endian length. */
  function SerializeChunk(value: Bytes): Bytes
  {
    var k := LengthSize(|value|);
    [BinMarker(k)] + Digits(|value|, k) + value
  }

  function DeserializeChunk(b: Bytes): Option<Bytes>
  {
    if b == [] || b[0] < 0xC4 || b[0] > 0xC6 then None
    else
      var k := if b[0] == 0xC4 then 1 else if b[0] == 0xC5 then 2 else 4;
      if |b| < 1 + k || |b| != 1 + k + Number(b[1..1 + k]) then None else Some(b[1 + k..])
  }

  function Power(k: nat): nat
  {
    if k == 0 then 1 else 256 * Power(k - 1)
  }

  lemma {:induction false} DigitsRoundTrip(n: nat, count: nat)
    requires n < Power(count)
    ensures Number(Digits(n, count)) == n
  {
    if count != 0 {
      DigitsRoundTrip(n / 256, count - 1);
      assert Digits(n, count)[..count - 1] == Digits(n / 256, count - 1);
    }
  }

  lemma LevelRoundTrip(codec: MapCodec, level: DataMapLevel)
    requires codec.Valid()
    ensures DecodeLevel(codec, EncodeLevel(codec, level)) == Some(level)
  {
    var m := codec.encode(level.dataMap);
    assert codec.Encodes(level.dataMap);
    assert (FIRST_TAG + m)[|FIRST_TAG|..] == m;
    assert (ADDITIONAL_TAG + m)[|ADDITIONAL_TAG|..] == m;
    assert (ADDITIONAL_TAG + m)[1] != FIRST_TAG[1];
  }

  /** The length prefix is a 32-bit number at most. */
  predicate Serializable(value: Bytes)
  {
    |value| < 0x1_0000_0000
  }

  lemma ChunkRoundTrip(value: Bytes)
    requires Serializable(value)
    ensures DeserializeChunk(SerializeChunk(value)) == Some(value)
  {
    var b, k := SerializeChunk(value), LengthSize(|value|);
    assert Power(1) == 0x100 && Power(2) == 0x1_0000;
    assert Power(4) == 256 * (256 * Power(2));
    DigitsRoundTrip(|value|, k);
    assert b[1..1 + k] == Digits(|value|, k) && b[1 + k..] == value;
  }

  /** The serialised form of a chunk is never the encoding of a data map level. */
  lemma ChunkIsNoLevel(codec: MapCodec, value: Bytes)
    ensures DecodeLevel(codec, SerializeChunk(value)) == None
  {
    assert SerializeChunk(value)[0] != ONE_ENTRY_MAP;
    assert FIRST_TAG[0] == ONE_ENTRY_MAP && ADDITIONAL_TAG[0] == ONE_ENTRY_MAP;
  }

  // ---- self-encryption, as its users see it ----

  datatype Piece = Piece(srcHash: Name, content: Bytes)

  const MIN_ENCRYPTABLE: nat := 3

  /** The largest chunk, the encoding of data maps, the address of a content, and the encryption of a content into
      pieces and back. */
  datatype SelfEncryption = SelfEncryption(max: nat, codec: MapCodec, hash: Bytes -> Name,
                                           encrypt: Bytes -> seq<Piece>, decrypt: seq<Piece> -> Option<Bytes>)
  {
    /** Encryption is undone by decryption and makes three pieces, or as many as it takes at the chunk size. */
    ghost predicate Valid()
    {
      && codec.Valid() && max >= 17 + 3 * codec.infoSize // an additional level of three pieces fits
      && forall d {:trigger Encrypts(d)} :: |d| >= MIN_ENCRYPTABLE ==> Encrypts(d)
    }

    ghost predicate Encrypts(d: Bytes)
    {
      decrypt(encrypt(d)) == Some(d) && FewPieces(|encrypt(d)|, |d|)
    }

    predicate FewPieces(n: nat, size: nat)
    {
      n <= 3 || (n - 1) * max < size
    }

    function MapOf(pieces: seq<Piece>): DataMap
    {
      seq(|pieces|, i requires 0 <= i < |pieces| => ChunkInfo(hash(pieces[i].content), pieces[i].srcHash))
    }

    predicate Fits(content: Bytes) { |content| <= max }

    /** The content of the next level's chunk, for one that does not fit. */
    function NextLevel(content: Bytes): Bytes
    {
      EncodeLevel(codec, Additional(MapOf(encrypt(SerializeChunk(content)))))
    }
  }

  function Contents(pieces: seq<Piece>): seq<Bytes>
  {
    seq(|pieces|, i requires 0 <= i < |pieces| => pieces[i].content)
  }

  // such an encryption exists: cut small data in three and larger data at the chunk size

  function Chop(d: Bytes, max: nat): seq<Bytes>
    requires max > 0
  {
    if |d| <= max then [d] else [d[..max]] + Chop(d[max..], max)
  }

  function Cut(d: Bytes, max: nat): seq<Bytes>
    requires max > 0
  {
    var third := |d| / 3;
    if |d| < 3 * max then [d[..third], d[third..2 * third], d[2 * third..]] else Chop(d, max)
  }

  function Concat(parts: seq<Bytes>): Bytes
  {
    if parts == [] then [] else parts[0] + Concat(parts[1..])
  }

  function PiecesOf(hash: Bytes -> Name, parts: seq<Bytes>): seq<Piece>
  {
    seq(|parts|, i requires 0 <= i < |parts| => Piece(hash(parts[i]), parts[i]))
  }

  // and such an encoding: the two hashes of each chunk in turn

  const INFO_SIZE: nat := 64

  function EncodeMap(m: DataMap): Bytes
  {
    if m == [] then [] else m[0].dstHash + m[0].srcHash + EncodeMap(m[1..])
  }

  function DecodeMap(b: Bytes): Option<DataMap>
  {
    if b == [] then Some([])
    else if |b| < INFO_SIZE then None
    else
      var rest := DecodeMap(b[INFO_SIZE..]);
      if rest.None? then None else Some([ChunkInfo(b[..32], b[32..INFO_SIZE])] + rest.value)
  }

  lemma {:induction false} MapRoundTrip(m: DataMap)
    ensures |EncodeMap(m)| == INFO_SIZE * |m| && DecodeMap(EncodeMap(m)) == Some(m)
  {
    if m != [] {
      MapRoundTrip(m[1..]);
      var b := EncodeMap(m);
      assert b[..32] == m[0].dstHash && b[32..INFO_SIZE] == m[0].srcHash && b[INFO_SIZE..] == EncodeMap(m[1..]);
      assert m == [m[0]] + m[1..];
    }
  }

  function Cutting(max: nat, hash: Bytes -> Name): SelfEncryption
    requires max > 0
  {
    SelfEncryption(max, MapCodec(EncodeMap, DecodeMap, INFO_SIZE), hash,
                   (d: Bytes) => PiecesOf(hash, Cut(d, max)), (p: seq<Piece>) => Some(Concat(Contents(p))))
  }

  lemma OneMore(n: nat, max: nat, size: int)
    requires n >= 1 && (n - 1) * max < size
    ensures n * max < size + max
  {
    assert n * max == (n - 1) * max + max;
  }

  lemma {:induction false} ChopJoins(d: Bytes, max: nat)
    requires max > 0
    ensures Concat(Chop(d, max)) == d
    decreases |d|
  {
    if |d| <= max {
      assert Concat([d][1..]) == [];
    } else {
      ChopJoins(d[max..], max);
      assert Chop(d, max)[1..] == Chop(d[max..], max);
    }
  }

  lemma {:induction false} ChopCounts(d: Bytes, max: nat)
    requires max > 0 && d != []
    ensures |Chop(d, max)| >= 1 && (|Chop(d, max)| - 1) * max < |d|
    decreases |d|
  {
    if |d| > max {
      ChopCounts(d[max..], max);
      OneMore(|Chop(d[max..], max)|, max, |d| - max);
    }
  }

  lemma ThirdsAre(d: Bytes)
    ensures var third := |d| / 3; Concat([d[..third], d[third..2 * third], d[2 * third..]]) == d
  {
    var third := |d| / 3;
    var a, b, c := d[..third], d[third..2 * third], d[2 * third..];
    var last: seq<Bytes> := [c];
    assert [a, b, c][1..] == [b, c] && [b, c][1..] == last && last[1..] == [];
    assert Concat([c]) == c && Concat([b, c]) == b + c;
    assert a + (b + c) == d;
  }

  lemma CuttingIsValid(max: nat, hash: Bytes -> Name)
    requires max >= 17 + 3 * INFO_SIZE
    ensures Cutting(max, hash).Valid()
  {
    var se := Cutting(max, hash);
    forall m ensures se.codec.Encodes(m) {
      MapRoundTrip(m);
    }
    forall d: Bytes | |d| >= MIN_ENCRYPTABLE ensures se.Encrypts(d) {
      var parts := Cut(d, max);
      assert Contents(PiecesOf(hash, parts)) == parts;
      ThirdsAre(d);
      ChopJoins(d, max);
      ChopCounts(d, max);
    }
  }

  // ---- packing ----

  lemma SerializedSize(value: Bytes)
    ensures |value| + 2 <= |SerializeChunk(value)| <= |value| + 5
  {
  }

  lemma EncodedSize(codec: MapCodec, level: DataMapLevel)
    requires codec.Valid()
    ensures |EncodeLevel(codec, level)| <= 17 + codec.infoSize * |level.dataMap|
  {
    assert codec.Encodes(level.dataMap);
  }

  lemma Scale(n: nat, a: nat, b: nat)
    requires a <= b
    ensures n * a <= n * b
  {
  }

  lemma FewInfosAreSmall(max: nat, info: nat, n: nat, size: nat)
    requires max >= 17 + 3 * info && size > max && (n <= 3 || (n - 1) * max < size + 5)
    ensures 17 + info * n < size
  {
    if n <= 3 {
      Scale(info, n, 3);
    } else {
      Scale(n - 1, 17 + 3 * info, max);
      assert (n - 1) * (17 + 3 * info) == 17 * (n - 1) + info * (3 * (n - 1));
      Scale(info, n, 3 * (n - 1));
    }
  }

  /** Every level is smaller than the one it replaces. */
  lemma LevelsShrink(se: SelfEncryption, content: Bytes)
    requires se.Valid() && !se.Fits(content)
    ensures |se.NextLevel(content)| < |content|
  {
    var serialized := SerializeChunk(content);
    SerializedSize(content);
    var m := se.MapOf(se.encrypt(serialized));
    EncodedSize(se.codec, Additional(m));
    assert se.Encrypts(serialized);
    FewInfosAreSmall(se.max, se.codec.infoSize, |m|, |content|);
  }

  /** The chunk to publish, and the chunks of the levels in between in the order they are returned. */
  datatype Packed = Packed(chunk: Bytes, additional: seq<Bytes>)

  ghost function Pack(se: SelfEncryption, content: Bytes): Packed
    requires se.Valid()
    decreases |content|
  {
    if se.Fits(content) then Packed(content, [])
    else
      LevelsShrink(se, content);
      var rest := Pack(se, se.NextLevel(content));
      Packed(rest.chunk, Reversed(Contents(se.encrypt(SerializeChunk(content)))) + rest.additional)
  }

  ghost function Levels(se: SelfEncryption, content: Bytes): nat
    requires se.Valid()
    decreases |content|
  {
    if se.Fits(content) then 0 else LevelsShrink(se, content); 1 + Levels(se, se.NextLevel(content))
  }

  lemma PackOneLevel(se: SelfEncryption, content: Bytes)
    requires se.Valid() && !se.Fits(content)
    ensures var pieces, next := Contents(se.encrypt(SerializeChunk(content))), se.NextLevel(content);
            && |next| < |content|
            && Pack(se, content).chunk == Pack(se, next).chunk
            && Pack(se, content).additional == Reversed(pieces) + Pack(se, next).additional
            && Levels(se, content) == 1 + Levels(se, next)
  {
    LevelsShrink(se, content);
  }

  lemma ReversedInFront<T>(chunks: seq<T>, pieces: seq<T>, rest: seq<T>)
    ensures Reversed(chunks) + (Reversed(pieces) + rest) == Reversed(pieces + chunks) + rest
  {
    ReversedConcat(pieces, chunks);
  }

  /** The loop that packs ends, whatever the size of the data map, with a chunk that fits. */
  method PackDataMap(se: SelfEncryption, dataMap: DataMap) returns (chunk: Bytes, additional: seq<Bytes>)
    requires se.Valid()
    ensures |chunk| <= se.max
    ensures Packed(chunk, additional) == Pack(se, EncodeLevel(se.codec, First(dataMap)))
  {
    var chunks: seq<Bytes> := [];
    var content := EncodeLevel(se.codec, First(dataMap));
    ghost var whole := Pack(se, content);
    while |content| > se.max
      invariant whole.chunk == Pack(se, content).chunk
      invariant whole.additional == Reversed(chunks) + Pack(se, content).additional
      decreases |content|
    {
      PackOneLevel(se, content);
      var pieces := se.encrypt(SerializeChunk(content));
      ReversedInFront(chunks, Contents(pieces), Pack(se, se.NextLevel(content)).additional);
      chunks := Contents(pieces) + chunks;
      content := EncodeLevel(se.codec, Additional(se.MapOf(pieces)));
    }
    additional := Reverse(chunks);
    chunk := content;
  }

  method Reverse<T>(s: seq<T>) returns (r: seq<T>)
    ensures r == Reversed(s)
  {
    r := [];
    for i := 0 to |s|
      invariant r == Reversed(s[..i])
    {
      ReversedConcat(s[..i], [s[i]]);
      assert s[..i + 1] == s[..i] + [s[i]];
      r := [s[i]] + r;
    }
    assert s[..|s|] == s;
  }

  // ---- following a data map ----

  type Store = map<Name, Bytes>

  datatype Error = Missing | Undecryptable | InvalidDataMap | NoEnd
  datatype Outcome<T> = Ok(value: T) | Err(error: Error)

  function FetchPieces(store: Store, m: DataMap): Option<seq<Piece>>
  {
    if m == [] then Some([])
    else
      var rest := FetchPieces(store, m[..|m| - 1]);
      var info := m[|m| - 1];
      if rest.None? || info.dstHash !in store then None
      else Some(rest.value + [Piece(info.srcHash, store[info.dstHash])])
  }

  /** Fetch every chunk of a data map and decrypt them together. */
  function ReadMap(se: SelfEncryption, store: Store, m: DataMap): Outcome<Bytes>
  {
    var pieces := FetchPieces(store, m);
    if pieces.None? then Err(Missing)
    else
      var data := se.decrypt(pieces.value);
      if data.None? then Err(Undecryptable) else Ok(data.value)
  }

  method FetchFromDataMap(se: SelfEncryption, store: Store, m: DataMap) returns (r: Outcome<Bytes>)
    ensures r == ReadMap(se, store, m)
  {
    var pieces := [];
    for i := 0 to |m|
      invariant FetchPieces(store, m[..i]) == Some(pieces)
    {
      assert m[..i + 1][..i] == m[..i];
      if m[i].dstHash !in store {
        FetchStops(store, m, i);
        return Err(Missing);
      }
      pieces := pieces + [Piece(m[i].srcHash, store[m[i].dstHash])];
    }
    assert m[..|m|] == m;
    var data := se.decrypt(pieces);
    r := if data.None? then Err(Undecryptable) else Ok(data.value);
  }

  lemma {:induction false} FetchStops(store: Store, m: DataMap, i: nat)
    requires i < |m| && m[i].dstHash !in store
    ensures FetchPieces(store, m) == None
    decreases |m|
  {
    if i < |m| - 1 {
      FetchStops(store, m[..|m| - 1], i);
    }
  }

  /** The client that unwraps a chunk at every level. `rounds` bounds the loop. */
  function Unpack(se: SelfEncryption, store: Store, chunk: Bytes, rounds: nat): Outcome<DataMap>
    decreases rounds
  {
    if rounds == 0 then Err(NoEnd)
    else
      match DecodeLevel(se.codec, chunk)
      case None => Err(InvalidDataMap)
      case Some(First(m)) => Ok(m)
      case Some(Additional(m)) =>
        var data := ReadMap(se, store, m);
        if data.Err? then Err(data.error)
        else
          var next := DeserializeChunk(data.value);
          if next.None? then Err(InvalidDataMap) else Unpack(se, store, next.value, rounds - 1)
  }

  method UnpackChunk(se: SelfEncryption, store: Store, chunk: Bytes, rounds: nat) returns (r: Outcome<DataMap>)
    ensures r == Unpack(se, store, chunk, rounds)
  {
    var current, left := chunk, rounds;
    while left > 0
      invariant Unpack(se, store, chunk, rounds) == Unpack(se, store, current, left)
    {
      match DecodeLevel(se.codec, current) {
        case None => return Err(InvalidDataMap);
        case Some(First(m)) => return Ok(m);
        case Some(Additional(m)) =>
          var data := FetchFromDataMap(se, store, m);
          if data.Err? {
            return Err(data.error);
          }
          var next := DeserializeChunk(data.value);
          if next.None? {
            return Err(InvalidDataMap);
          }
          current, left := next.value, left - 1;
      }
    }
    r := Err(NoEnd);
  }

  /** The client that takes what a level maps to for the next level itself. */
  function Get(se: SelfEncryption, store: Store, bytes: Bytes, rounds: nat): Outcome<Bytes>
    decreases rounds
  {
    if rounds == 0 then Err(NoEnd)
    else
      match DecodeLevel(se.codec, bytes)
      case None => Err(InvalidDataMap)
      case Some(level) =>
        var data := ReadMap(se, store, level.dataMap);
        if data.Err? || level.First? then data else Get(se, store, data.value, rounds - 1)
  }

  method FetchFromDataMapChunk(se: SelfEncryption, store: Store, bytes: Bytes, rounds: nat) returns (r: Outcome<Bytes>)
    ensures r == Get(se, store, bytes, rounds)
  {
    var level := DecodeLevel(se.codec, bytes);
    var left := rounds;
    ghost var current := bytes;
    while left > 0
      invariant Get(se, store, bytes, rounds) == Get(se, store, current, left)
      invariant level == DecodeLevel(se.codec, current)
    {
      if level.None? {
        return Err(InvalidDataMap);
      }
      r := FetchFromDataMap(se, store, level.value.dataMap);
      if r.Err? || level.value.First? {
        return;
      }
      level, left := DecodeLevel(se.codec, r.value), left - 1;
      current := r.value;
    }
    r := Err(NoEnd);
  }

  // ---- what comes back ----

  /** The network returns each of the contents by its address. */
  ghost predicate Stores(se: SelfEncryption, store: Store, contents: seq<Bytes>)
  {
    forall c | c in contents :: se.hash(c) in store && store[se.hash(c)] == c
  }

  lemma {:induction false} PiecesComeBack(se: SelfEncryption, store: Store, pieces: seq<Piece>)
    requires Stores(se, store, Contents(pieces))
    ensures FetchPieces(store, se.MapOf(pieces)) == Some(pieces)
    decreases |pieces|
  {
    if pieces != [] {
      var n := |pieces| - 1;
      assert Contents(pieces) == Contents(pieces[..n]) + [pieces[n].content];
      PiecesComeBack(se, store, pieces[..n]);
      assert se.MapOf(pieces)[..n] == se.MapOf(pieces[..n]);
      assert Contents(pieces)[n] == pieces[n].content;
      assert pieces[..n] + [pieces[n]] == pieces;
    }
  }

  lemma DataComesBack(se: SelfEncryption, store: Store, data: Bytes)
    requires se.Valid() && |data| >= MIN_ENCRYPTABLE && Stores(se, store, Contents(se.encrypt(data)))
    ensures ReadMap(se, store, se.MapOf(se.encrypt(data))) == Ok(data)
  {
    assert se.Encrypts(data);
    PiecesComeBack(se, store, se.encrypt(data));
  }

  lemma StoresParts(se: SelfEncryption, store: Store, a: seq<Bytes>, b: seq<Bytes>)
    requires Stores(se, store, Reversed(a) + b)
    ensures Stores(se, store, a) && Stores(se, store, b)
  {
    forall c | c in a ensures se.hash(c) in store && store[se.hash(c)] == c {
      ReversedMembers(a, c);
      assert c in Reversed(a) + b;
    }
  }

  lemma LevelIsRead(se: SelfEncryption, store: Store, content: Bytes)
    requires se.Valid() && content != [] && Stores(se, store, Contents(se.encrypt(SerializeChunk(content))))
    ensures DecodeLevel(se.codec, se.NextLevel(content))
         == Some(Additional(se.MapOf(se.encrypt(SerializeChunk(content)))))
    ensures ReadMap(se, store, se.MapOf(se.encrypt(SerializeChunk(content)))) == Ok(SerializeChunk(content))
  {
    LevelRoundTrip(se.codec, Additional(se.MapOf(se.encrypt(SerializeChunk(content)))));
    SerializedSize(content);
    DataComesBack(se, store, SerializeChunk(content));
  }

  lemma OneLevelBack(se: SelfEncryption, store: Store, content: Bytes, rounds: nat)
    requires se.Valid() && Serializable(content) && content != []
    requires Stores(se, store, Contents(se.encrypt(SerializeChunk(content))))
    ensures Unpack(se, store, se.NextLevel(content), rounds + 1) == Unpack(se, store, content, rounds)
  {
    LevelIsRead(se, store, content);
    ChunkRoundTrip(content);
  }

  lemma LevelsStored(se: SelfEncryption, store: Store, content: Bytes)
    requires se.Valid() && !se.Fits(content) && Stores(se, store, Pack(se, content).additional)
    ensures |se.NextLevel(content)| < |content|
    ensures Stores(se, store, Contents(se.encrypt(SerializeChunk(content))))
    ensures Stores(se, store, Pack(se, se.NextLevel(content)).additional)
  {
    PackOneLevel(se, content);
    StoresParts(se, store, Contents(se.encrypt(SerializeChunk(content))), Pack(se, se.NextLevel(content)).additional);
  }

  /** Following a packed chunk leads back to the level that was packed. */
  lemma {:induction false} UnpackUndoesPack(se: SelfEncryption, store: Store, content: Bytes, rounds: nat)
    requires se.Valid() && Serializable(content) && Stores(se, store, Pack(se, content).additional)
    requires rounds >= Levels(se, content)
    ensures Unpack(se, store, Pack(se, content).chunk, rounds)
            == Unpack(se, store, content, rounds - Levels(se, content))
    decreases |content|
  {
    if !se.Fits(content) {
      var next := se.NextLevel(content);
      var left := rounds - Levels(se, content);
      PackOneLevel(se, content);
      assert Unpack(se, store, Pack(se, next).chunk, rounds) == Unpack(se, store, next, left + 1) by {
        LevelsStored(se, store, content);
        UnpackUndoesPack(se, store, next, rounds);
      }
      assert Unpack(se, store, next, left + 1) == Unpack(se, store, content, left) by {
        LevelsStored(se, store, content);
        OneLevelBack(se, store, content, left);
      }
    }
  }

  /** However many levels it took, the client that unwraps chunks finds the original data map. */
  lemma DataMapIsRecovered(se: SelfEncryption, store: Store, m: DataMap, rounds: nat)
    requires se.Valid() && Serializable(EncodeLevel(se.codec, First(m)))
    requires Stores(se, store, Pack(se, EncodeLevel(se.codec, First(m))).additional)
    requires rounds > Levels(se, EncodeLevel(se.codec, First(m)))
    ensures Unpack(se, store, Pack(se, EncodeLevel(se.codec, First(m))).chunk, rounds) == Ok(m)
  {
    var content := EncodeLevel(se.codec, First(m));
    LevelRoundTrip(se.codec, First(m));
    UnpackUndoesPack(se, store, content, rounds);
  }

  /** The published chunk of a map that did not fit is an additional level over some serialised chunk. */
  lemma {:induction false} LastLevel(se: SelfEncryption, store: Store, content: Bytes) returns (inner: Bytes)
    requires se.Valid() && !se.Fits(content) && Stores(se, store, Pack(se, content).additional)
    ensures inner != [] && Pack(se, content).chunk == se.NextLevel(inner)
    ensures Stores(se, store, Contents(se.encrypt(SerializeChunk(inner))))
    decreases |content|
  {
    var next := se.NextLevel(content);
    LevelsStored(se, store, content);
    if se.Fits(next) {
      inner := content;
    } else {
      inner := LastLevel(se, store, next);
    }
  }

  lemma GetOneLevel(se: SelfEncryption, store: Store, data: Bytes, rounds: nat)
    requires se.Valid() && |data| >= MIN_ENCRYPTABLE && rounds >= 1 && Stores(se, store, Contents(se.encrypt(data)))
    ensures Get(se, store, EncodeLevel(se.codec, First(se.MapOf(se.encrypt(data)))), rounds) == Ok(data)
  {
    LevelRoundTrip(se.codec, First(se.MapOf(se.encrypt(data))));
    DataComesBack(se, store, data);
  }

  lemma GetMoreLevels(se: SelfEncryption, store: Store, content: Bytes, rounds: nat)
    requires se.Valid() && !se.Fits(content) && rounds >= 2 && Stores(se, store, Pack(se, content).additional)
    ensures Get(se, store, Pack(se, content).chunk, rounds) == Err(InvalidDataMap)
  {
    var inner := LastLevel(se, store, content);
    LevelIsRead(se, store, inner);
    ChunkIsNoLevel(se.codec, inner);
  }

  /** The other client returns the data exactly when the data map fitted in one chunk; otherwise it stops at the
      first serialised chunk, which it takes for a level. */
  lemma GetSucceedsIff(se: SelfEncryption, store: Store, data: Bytes, rounds: nat)
    requires se.Valid() && |data| >= MIN_ENCRYPTABLE && rounds >= 2
    requires var m := se.MapOf(se.encrypt(data));
             Stores(se, store, Contents(se.encrypt(data)) + Pack(se, EncodeLevel(se.codec, First(m))).additional)
    ensures var content := EncodeLevel(se.codec, First(se.MapOf(se.encrypt(data))));
            Get(se, store, Pack(se, content).chunk, rounds)
            == if se.Fits(content) then Ok(data) else Err(InvalidDataMap)
  {
    var content := EncodeLevel(se.codec, First(se.MapOf(se.encrypt(data))));
    if se.Fits(content) {
      GetOneLevel(se, store, data, rounds);
    } else {
      GetMoreLevels(se, store, content, rounds);
    }
  }

  // ---- a whole file ----

  /** All chunks of a file but the published one. */
  ghost function FileChunks(se: SelfEncryption, data: Bytes): seq<Bytes>
    requires se.Valid()
  {
    Contents(se.encrypt(data)) + Pack(se, EncodeLevel(se.codec, First(se.MapOf(se.encrypt(data))))).additional
  }

  method Encrypt(se: SelfEncryption, data: Bytes) returns (r: Option<(Bytes, seq<Bytes>)>)
    requires se.Valid()
    ensures r.None? <==> |data| < MIN_ENCRYPTABLE
    ensures r.Some? ==> && r.value.0 == Pack(se, EncodeLevel(se.codec, First(se.MapOf(se.encrypt(data))))).chunk
                        && r.value.1 == FileChunks(se, data)
  {
    if |data| < MIN_ENCRYPTABLE {
      return None;
    }
    var pieces := se.encrypt(data);
    var chunk, additional := PackDataMap(se, se.MapOf(pieces));
    r := Some((chunk, Contents(pieces) + additional));
  }

  function Uploaded(hash: Bytes -> Name, contents: seq<Bytes>): Store
  {
    if contents == [] then map[]
    else Uploaded(hash, contents[1..])[hash(contents[0]) := contents[0]]
  }

  /** Different contents of the file have different addresses. */
  ghost predicate CollisionFree(hash: Bytes -> Name, contents: seq<Bytes>)
  {
    forall a, b | a in contents && b in contents && hash(a) == hash(b) :: a == b
  }

  lemma {:induction false} UploadedIsStored(se: SelfEncryption, contents: seq<Bytes>)
    requires CollisionFree(se.hash, contents)
    ensures Stores(se, Uploaded(se.hash, contents), contents)
    ensures forall n | n in Uploaded(se.hash, contents) :: Uploaded(se.hash, contents)[n] in contents
    decreases |contents|
  {
    if contents != [] {
      UploadedIsStored(se, contents[1..]);
    }
  }

  /** Encrypt, upload every chunk, follow the published chunk back: the same bytes, for data of any size. */
  lemma FileComesBack(se: SelfEncryption, data: Bytes, rounds: nat)
    requires se.Valid() && |data| >= MIN_ENCRYPTABLE && CollisionFree(se.hash, FileChunks(se, data))
    requires var content := EncodeLevel(se.codec, First(se.MapOf(se.encrypt(data))));
             Serializable(content) && rounds > Levels(se, content)
    ensures var store := Uploaded(se.hash, FileChunks(se, data));
            var m := se.MapOf(se.encrypt(data));
            && Unpack(se, store, Pack(se, EncodeLevel(se.codec, First(m))).chunk, rounds) == Ok(m)
            && ReadMap(se, store, m) == Ok(data)
  {
    var store := Uploaded(se.hash, FileChunks(se, data));
    UploadedIsStored(se, FileChunks(se, data));
    DataMapIsRecovered(se, store, se.MapOf(se.encrypt(data)), rounds);
    DataComesBack(se, store, data);
  }

  /** The data map of four pieces of 209 bytes does not fit in a chunk of 209 bytes. */
  lemma FourPiecesDoNotFit(hash: Bytes -> Name, data: Bytes)
    requires |data| == 836
    ensures var se := Cutting(209, hash);
            se.Valid() && !se.Fits(EncodeLevel(se.codec, First(se.MapOf(se.encrypt(data)))))
  {
    var se := Cutting(209, hash);
    CuttingIsValid(209, hash);
    assert |Chop(data[209..][209..][209..], 209)| == 1 && |Chop(data[209..][209..], 209)| == 2;
    assert |Chop(data, 209)| == 4 == |se.MapOf(se.encrypt(data))|;
    MapRoundTrip(se.MapOf(se.encrypt(data)));
  }

  /** So data can be stored whole and yet not be read back by the other client. */
  lemma LargeDataIsNotRead(se: SelfEncryption, data: Bytes, rounds: nat)
    requires se == Cutting(209, se.hash) && se.Valid() && |data| == 836 && rounds >= 2
    requires CollisionFree(se.hash, FileChunks(se, data))
    ensures var content := EncodeLevel(se.codec, First(se.MapOf(se.encrypt(data))));
            Get(se, Uploaded(se.hash, FileChunks(se, data)), Pack(se, content).chunk, rounds) == Err(InvalidDataMap)
  {
    FourPiecesDoNotFit(se.hash, data);
    UploadedIsStored(se, FileChunks(se, data));
    GetSucceedsIff(se, Uploaded(se.hash, FileChunks(se, data)), data, rounds);
  }
}

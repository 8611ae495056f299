/** The database: prefixed byte keys and hand-laid big-endian records, and the storage methods that read and
    write them. Every method is proved to do to the bytes what its typed counterpart does to the ledger. */
module Storage {
  import opened Common
  import opened BigEndian
  import opened Ledger

  // ---- Keys ----

  function EncodeKey(k: Key): (b: bytes)
    ensures b != []
  {
    match k
    case BalanceKey(owner, asset) => [0x0] + IdBytes(owner) + IdBytes(asset)
    case AssetKey(id) => [0x1] + IdBytes(id)
    case OrderKey(order) => [0x2] + IdBytes(order)
    case LoanKey(asset, destination) => [0x3] + IdBytes(asset) + IdBytes(destination)
    case HeightKey => [0x4]
    case IncomingWarpKey(source, message) => [0x5] + IdBytes(source) + IdBytes(message)
    case OutgoingWarpKey(txId) => [0x6] + IdBytes(txId)
  }

  lemma OneIdKey(prefix: byte, a: Id, b: Id)
    requires [prefix] + IdBytes(a) == [prefix] + IdBytes(b)
    ensures a == b
  {
    assert ([prefix] + IdBytes(a))[1..] == IdBytes(a);
    assert ([prefix] + IdBytes(b))[1..] == IdBytes(b);
    IdRoundTrip(a);
    IdRoundTrip(b);
  }

  lemma TwoIdKey(prefix: byte, a: Id, b: Id, c: Id, d: Id)
    requires [prefix] + IdBytes(a) + IdBytes(b) == [prefix] + IdBytes(c) + IdBytes(d)
    ensures a == c && b == d
  {
    var j, k := [prefix] + IdBytes(a) + IdBytes(b), [prefix] + IdBytes(c) + IdBytes(d);
    assert j[1..33] == IdBytes(a) && j[33..] == IdBytes(b);
    assert k[1..33] == IdBytes(c) && k[33..] == IdBytes(d);
    IdRoundTrip(a);
    IdRoundTrip(b);
    IdRoundTrip(c);
    IdRoundTrip(d);
  }

  /** No two keys, of the same kind or not, share their bytes. */
  lemma KeysNeverCollide(j: Key, k: Key)
    ensures EncodeKey(j) == EncodeKey(k) <==> j == k
  {
    if EncodeKey(j) == EncodeKey(k) {
      assert EncodeKey(j)[0] == EncodeKey(k)[0];
      match j
      case BalanceKey(a, b) => TwoIdKey(0x0, a, b, k.owner, k.asset);
      case AssetKey(a) => OneIdKey(0x1, a, k.id);
      case OrderKey(a) => OneIdKey(0x2, a, k.order);
      case LoanKey(a, b) => TwoIdKey(0x3, a, b, k.loaned, k.destination);
      case HeightKey =>
      case IncomingWarpKey(a, b) => TwoIdKey(0x5, a, b, k.source, k.message);
      case OutgoingWarpKey(a) => OneIdKey(0x6, a, k.txId);
    }
  }

  /** Where a key has its kind and its identifiers. */
  lemma KeyLayout(k: Key)
    ensures var b := EncodeKey(k);
      match k
      case BalanceKey(owner, asset) => |b| == 65 && b[0] == 0 && b[1..33] == IdBytes(owner) && b[33..] == IdBytes(asset)
      case AssetKey(id) => |b| == 33 && b[0] == 1 && b[1..] == IdBytes(id)
      case OrderKey(order) => |b| == 33 && b[0] == 2 && b[1..] == IdBytes(order)
      case LoanKey(asset, to) => |b| == 65 && b[0] == 3 && b[1..33] == IdBytes(asset) && b[33..] == IdBytes(to)
      case HeightKey => b == [4]
      case IncomingWarpKey(source, message) =>
        |b| == 65 && b[0] == 5 && b[1..33] == IdBytes(source) && b[33..] == IdBytes(message)
      case OutgoingWarpKey(txId) => |b| == 33 && b[0] == 6 && b[1..] == IdBytes(txId)
  {
    hide IdBytes;
  }

  // ---- Records ----

  function EncodeAsset(r: AssetRecord): bytes {
    Encode(2, |r.metadata| % 0x1_0000) + r.metadata + Uint64Bytes(r.supply) + IdBytes(r.owner)
    + [if r.warp then 0x1 else 0x0]
  }

  /** A public key copied out of a slice that may be too short; missing bytes stay zero. */
  function CopiedKey(b: bytes): PublicKey {
    BytesId(if |b| >= 32 then b[..32] else b + seq(32 - |b|, _ => 0))
  }

  /** Offsets are sums of uint16 numbers, which wrap; a slice out of range panics, here `None`. */
  function DecodeAsset(v: bytes): Option<AssetRecord> {
    if |v| < 2 then None else
    var n := Decode(v[..2]);
    var supplyAt, ownerAt, warpAt := (2 + n) % 0x1_0000, (2 + n + 8) % 0x1_0000, (2 + n + 8 + 32) % 0x1_0000;
    if supplyAt < 2 || |v| < supplyAt + 8 || |v| < ownerAt || |v| <= warpAt then None
    else Some(AssetRecord(v[2..supplyAt], BytesUint64(v[supplyAt..supplyAt + 8]), CopiedKey(v[ownerAt..]),
                          v[warpAt] == 0x1))
  }

  function EncodeOrder(o: OrderRecord): (b: bytes)
    ensures |b| == 120
  {
    IdBytes(o.inAsset) + Uint64Bytes(o.inTick) + IdBytes(o.outAsset) + Uint64Bytes(o.outTick)
    + Uint64Bytes(o.remaining) + IdBytes(o.owner)
  }

  function DecodeOrder(v: bytes): OrderRecord
    requires |v| == 120
  {
    OrderRecord(BytesId(v[..32]), BytesUint64(v[32..40]), BytesId(v[40..72]), BytesUint64(v[72..80]),
                BytesUint64(v[80..88]), BytesId(v[88..]))
  }

  lemma OrderLayout(o: OrderRecord)
    ensures var v := EncodeOrder(o);
      && v[..32] == IdBytes(o.inAsset) && v[32..40] == Uint64Bytes(o.inTick)
      && v[40..72] == IdBytes(o.outAsset) && v[72..80] == Uint64Bytes(o.outTick)
      && v[80..88] == Uint64Bytes(o.remaining) && v[88..] == IdBytes(o.owner)
  {
    hide IdBytes, Uint64Bytes;
  }

  lemma OrderRoundTrip(o: OrderRecord)
    ensures DecodeOrder(EncodeOrder(o)) == o
  {
    OrderLayout(o);
    IdRoundTrip(o.inAsset);
    IdRoundTrip(o.outAsset);
    IdRoundTrip(o.owner);
    Uint64RoundTrip(o.inTick);
    Uint64RoundTrip(o.outTick);
    Uint64RoundTrip(o.remaining);
  }

  lemma AssetLayout(r: AssetRecord)
    requires |r.metadata| <= MAX_READABLE_METADATA
    ensures var v, n := EncodeAsset(r), |r.metadata|;
      && |v| == n + 43 && v[..2] == Encode(2, n) && v[2..2 + n] == r.metadata
      && v[2 + n..2 + n + 8] == Uint64Bytes(r.supply) && v[2 + n + 8..][..32] == IdBytes(r.owner)
      && v[n + 42] == (if r.warp then 0x1 else 0x0)
  {
    var v, n := EncodeAsset(r), |r.metadata|;
    hide Encode;
    assert v[..2] == Encode(2, n) && v[2..2 + n] == r.metadata;
    assert v[2 + n..2 + n + 8] == Uint64Bytes(r.supply);
    assert v[2 + n + 8..][..32] == IdBytes(r.owner);
  }

  /** No offset of a readable record wraps. */
  lemma ReadableOffsets(v: bytes, n: nat)
    requires n <= MAX_READABLE_METADATA && |v| == n + 43 && Decode(v[..2]) == n
    ensures DecodeAsset(v)
         == Some(AssetRecord(v[2..2 + n], BytesUint64(v[2 + n..2 + n + 8]), BytesId(v[2 + n + 8..][..32]),
                             v[n + 42] == 0x1))
  {
  }

  /** A record whose metadata keeps every offset within a uint16 reads back as written. */
  lemma AssetRoundTrip(r: AssetRecord)
    requires |r.metadata| <= MAX_READABLE_METADATA
    ensures DecodeAsset(EncodeAsset(r)) == Some(r)
  {
    var n := |r.metadata|;
    Widths();
    DecodeEncode(2, n);
    AssetLayout(r);
    Uint64RoundTrip(r.supply);
    IdRoundTrip(r.owner);
    hide EncodeAsset, DecodeAsset, Encode, Decode, IdBytes, BytesId, Uint64Bytes, BytesUint64, Pow256;
    ReadableOffsets(EncodeAsset(r), n);
  }

  /** A wrapped asset with `n` zero bytes of metadata. */
  function Witness(n: nat): AssetRecord { AssetRecord(seq(n, _ => 0), 0, EMPTY_PUBLIC_KEY, true) }

  lemma DecodedLength(v: bytes)
    ensures DecodeAsset(v).Some? ==> |DecodeAsset(v).value.metadata| < 0x1_0000
  {
  }

  /** Between the limit and 65535 the flag is read from the start of the record. */
  lemma FlagWraps(v: bytes, n: nat)
    requires MAX_READABLE_METADATA < n < 0x1_0000 && |v| == n + 43 && Decode(v[..2]) == n && v[n - 65494] != 0x1
    ensures DecodeAsset(v).Some? ==> !DecodeAsset(v).value.warp
  {
    assert (2 + n + 8 + 32) % 0x1_0000 == n - 65494;
    hide Decode, BytesUint64, CopiedKey;
  }

  lemma TwoBytes(n: nat)
    requires n < 0x1_0000
    ensures Encode(2, n) == [n / 256, n % 256]
  {
    assert Encode(2, n) == Encode(1, n / 256) + [n % 256];
    assert Encode(1, n / 256) == [n / 256];
  }

  lemma WitnessBytes(n: nat)
    requires MAX_READABLE_METADATA < n < 0x1_0000
    ensures var v := EncodeAsset(Witness(n)); |v| == n + 43 && v[..2] == Encode(2, n) && v[n - 65494] != 0x1
  {
    TwoBytes(n);
    hide Encode, IdBytes, Uint64Bytes;
    var v, zeros, k := EncodeAsset(Witness(n)), Witness(n).metadata, n - 65494;
    var rest := Uint64Bytes(0) + IdBytes(EMPTY_PUBLIC_KEY) + [0x1];
    assert v == [n / 256, n % 256] + (zeros + rest);
    if k >= 2 { assert v[k] == zeros[k - 2]; }
  }

  /** Past the limit a wrapped asset reads back as native, or the length itself has wrapped. */
  lemma LongMetadataMisreads(n: nat)
    requires MAX_READABLE_METADATA < n
    ensures DecodeAsset(EncodeAsset(Witness(n))) != Some(Witness(n))
  {
    hide EncodeAsset, DecodeAsset, Encode;
    DecodedLength(EncodeAsset(Witness(n)));
    if n < 0x1_0000 {
      WitnessBytes(n);
      Widths();
      DecodeEncode(2, n);
      FlagWraps(EncodeAsset(Witness(n)), n);
    }
  }

  /** Every record with metadata of a given length reads back exactly when no offset can wrap. */
  lemma ReadableIff(n: nat)
    ensures (forall r: AssetRecord :: |r.metadata| == n ==> DecodeAsset(EncodeAsset(r)) == Some(r))
       <==> n <= MAX_READABLE_METADATA
  {
    if n <= MAX_READABLE_METADATA {
      forall r: AssetRecord | |r.metadata| == n { AssetRoundTrip(r); }
    } else {
      LongMetadataMisreads(n);
      assert |Witness(n).metadata| == n;
    }
  }

  function EncodeValue(v: Value): bytes {
    match v
    case Amount(n) => Uint64Bytes(n)
    case Asset(r) => EncodeAsset(r)
    case Order(o) => EncodeOrder(o)
    case Raw(b) => b
  }

  lemma ValuesNeverCollide(k: Key, v: Value, w: Value)
    requires WellTyped(k, v) && WellTyped(k, w) && EncodeValue(v) == EncodeValue(w)
    ensures v == w
  {
    match v
    case Amount(n) => Uint64RoundTrip(n); Uint64RoundTrip(w.n);
    case Asset(r) => AssetRoundTrip(r); AssetRoundTrip(w.asset);
    case Order(o) => OrderRoundTrip(o); OrderRoundTrip(w.order);
    case Raw(_) =>
  }

  // ---- The relation between bytes and ledger ----

  ghost predicate Holds(data: map<bytes, bytes>, s: Store, k: Key)
    requires k in s
  {
    EncodeKey(k) in data && data[EncodeKey(k)] == EncodeValue(s[k])
  }

  ghost predicate Represents(data: map<bytes, bytes>, s: Store) {
    && (forall k :: k in s ==> Holds(data, s, k))
    && (forall b :: b in data ==> exists k :: k in s && EncodeKey(k) == b)
  }

  lemma Lookup(data: map<bytes, bytes>, s: Store, k: Key)
    requires Represents(data, s)
    ensures EncodeKey(k) in data <==> k in s
    ensures k in s ==> data[EncodeKey(k)] == EncodeValue(s[k])
  {
    assert k in s ==> Holds(data, s, k);
    if EncodeKey(k) in data {
      var j :| j in s && EncodeKey(j) == EncodeKey(k);
      KeysNeverCollide(j, k);
    }
  }

  lemma PutRepresents(data: map<bytes, bytes>, s: Store, k: Key, v: Value)
    requires Represents(data, s) && WellTyped(k, v)
    ensures Represents(data[EncodeKey(k) := EncodeValue(v)], s[k := v])
  {
    var d, t: Store := data[EncodeKey(k) := EncodeValue(v)], s[k := v];
    forall j | j in t ensures Holds(d, t, j) {
      KeysNeverCollide(j, k);
      assert j != k ==> Holds(data, s, j);
    }
    forall b | b in d ensures exists j :: j in t && EncodeKey(j) == b {
      if b == EncodeKey(k) {
        assert k in t;
      } else {
        var j :| j in s && EncodeKey(j) == b;
        assert j in t;
      }
    }
  }

  lemma RemoveRepresents(data: map<bytes, bytes>, s: Store, k: Key)
    requires Represents(data, s)
    ensures Represents(data - {EncodeKey(k)}, s - {k})
  {
    var d, t: Store := data - {EncodeKey(k)}, s - {k};
    forall j | j in t ensures Holds(d, t, j) {
      KeysNeverCollide(j, k);
      assert Holds(data, s, j);
    }
    forall b | b in d ensures exists j :: j in t && EncodeKey(j) == b {
      var j :| j in s && EncodeKey(j) == b;
      assert j in t;
    }
  }

  lemma SameLedgerBytes(data: map<bytes, bytes>, d: map<bytes, bytes>, s: Store, b: bytes)
    requires Represents(data, s) && Represents(d, s) && b in data
    ensures b in d && d[b] == data[b]
  {
  }

  /** Bytes and ledger determine each other. */
  lemma RepresentationIsUnique(data: map<bytes, bytes>, s: Store, d: map<bytes, bytes>, t: Store)
    requires Represents(data, s) && Represents(d, t)
    ensures data == d <==> s == t
  {
    if data == d {
      forall k: Key ensures (k in s <==> k in t) && (k in s ==> s[k] == t[k]) {
        Lookup(data, s, k);
        Lookup(d, t, k);
        if k in s { ValuesNeverCollide(k, s[k], t[k]); }
      }
    }
    if s == t {
      forall b | b in data { SameLedgerBytes(data, d, s, b); }
      forall b | b in d { SameLedgerBytes(d, data, s, b); }
    }
  }

  // ---- Buffers ----

  /** Overwrites part of a buffer. */
  method Copy(dst: array<byte>, at: nat, src: bytes)
    requires at + |src| <= dst.Length
    modifies dst
    ensures dst[..] == old(dst[..at]) + src + old(dst[at + |src|..])
  {
    for i := 0 to |src|
      invariant dst[..] == old(dst[..at]) + src[..i] + old(dst[at + i..])
    {
      dst[at + i] := src[i];
    }
  }

  method PutUint64(dst: array<byte>, at: nat, n: uint64)
    requires at + 8 <= dst.Length
    modifies dst
    ensures dst[..] == old(dst[..at]) + Uint64Bytes(n) + old(dst[at + 8..])
  {
    var rest := n;
    for i := 0 to 8
      invariant 0 <= rest
      invariant dst[..] == old(dst[..at + 8 - i]) + Encode(8, n)[8 - i..] + old(dst[at + 8..])
      invariant Encode(8, n) == Encode(8 - i, rest) + Encode(8, n)[8 - i..]
    {
      dst[at + 7 - i] := rest % 256;
      rest := rest / 256;
    }
  }
}

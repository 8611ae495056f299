/** Warp transfers: the payload one chain signs for another, and the ids of imported assets. */
module Warp {
  import opened Common
  import opened BigEndian

  datatype WarpTransfer = WarpTransfer(
    to: PublicKey,
    asset: Id,
    value: uint64,
    isReturn: bool,
    reward: uint64,
    swapIn: uint64,
    assetOut: Id,
    swapOut: uint64,
    swapExpiry: int64,
    txId: Id)

  predicate ValidSwapParams(value: uint64, swapIn: uint64, assetOut: Id, swapOut: uint64, swapExpiry: int64) {
    if swapExpiry < 0 then false
    else if swapIn > value then false
    else if swapIn > 0 then swapOut != 0
    else if assetOut != EMPTY_ID then false
    else if swapOut != 0 then false
    else swapExpiry == 0
  }

  predicate ValidSwap(w: WarpTransfer) {
    ValidSwapParams(w.value, w.swapIn, w.assetOut, w.swapOut, w.swapExpiry)
  }

  /** Either no swap is asked for and every field of it is empty, or part of the value is offered for something;
      the expiry is never negative. */
  lemma ValidSwapIff(w: WarpTransfer)
    ensures ValidSwap(w) <==>
      || (w.swapIn == 0 && w.assetOut == EMPTY_ID && w.swapOut == 0 && w.swapExpiry == 0)
      || (0 < w.swapIn <= w.value && 0 < w.swapOut && 0 <= w.swapExpiry)
  {
  }

  // ---- Imported asset ids ----

  /** The 32-byte hash of a byte string; only its collisions on the ids of a run ever matter. */
  type Hash = bytes -> Id

  function ImportedAssetMetadata(asset: Id, source: Id): (b: bytes)
    ensures |b| == 2 * ID_LEN && b[..ID_LEN] == IdBytes(asset) && b[ID_LEN..] == IdBytes(source)
  {
    IdBytes(asset) + IdBytes(source)
  }

  function ImportedAssetId(toId: Hash, asset: Id, source: Id): Id {
    toId(ImportedAssetMetadata(asset, source))
  }

  lemma MetadataDecodes(asset: Id, source: Id)
    ensures BytesId(ImportedAssetMetadata(asset, source)[..ID_LEN]) == asset
    ensures BytesId(ImportedAssetMetadata(asset, source)[ID_LEN..]) == source
  {
    IdRoundTrip(asset);
    IdRoundTrip(source);
    assert ImportedAssetMetadata(asset, source)[..ID_LEN] == IdBytes(asset);
    assert ImportedAssetMetadata(asset, source)[ID_LEN..] == IdBytes(source);
  }

  /** Every 64-byte metadata is that of exactly one imported asset. */
  lemma MetadataIsImported(md: bytes)
    requires |md| == 2 * ID_LEN
    ensures md == ImportedAssetMetadata(BytesId(md[..ID_LEN]), BytesId(md[ID_LEN..]))
  {
    BytesIdRoundTrip(md[..ID_LEN]);
    BytesIdRoundTrip(md[ID_LEN..]);
    assert md == md[..ID_LEN] + md[ID_LEN..];
  }

  // ---- The packer, as a stream of typed fields ----

  datatype Field =
    | IdField(id: Id)
    | Uint64Field(n: uint64)
    | Int64Field(i: int64)
    | BoolField(b: bool)
    | PresenceBits(bits: seq<bool>)

  /** A reader holds what is left of the stream and whether every read so far succeeded. */
  datatype Reader = Reader(rest: seq<Field>, ok: bool) {
    function Fail(): Reader { Reader(rest, false) }
    function Next(): Reader
      requires rest != []
    {
      Reader(rest[1..], ok)
    }
    predicate Empty() { rest == [] }
  }

  function UnpackId(r: Reader, required: bool): (Id, Reader) {
    if r.ok && r.rest != [] && r.rest[0].IdField? && !(required && r.rest[0].id == EMPTY_ID)
    then (r.rest[0].id, r.Next())
    else (EMPTY_ID, r.Fail())
  }

  function UnpackUint64(r: Reader, required: bool): (uint64, Reader) {
    if r.ok && r.rest != [] && r.rest[0].Uint64Field? && !(required && r.rest[0].n == 0)
    then (r.rest[0].n, r.Next())
    else (0, r.Fail())
  }

  function UnpackInt64(r: Reader, required: bool): (int64, Reader) {
    if r.ok && r.rest != [] && r.rest[0].Int64Field? && !(required && r.rest[0].i == 0)
    then (r.rest[0].i, r.Next())
    else (0, r.Fail())
  }

  function UnpackBool(r: Reader): (bool, Reader) {
    if r.ok && r.rest != [] && r.rest[0].BoolField?
    then (r.rest[0].b, r.Next())
    else (false, r.Fail())
  }

  function UnpackBits(r: Reader): (p: (seq<bool>, Reader))
    ensures |p.0| == 5
  {
    if r.ok && r.rest != [] && r.rest[0].PresenceBits? && |r.rest[0].bits| == 5
    then (r.rest[0].bits, r.Next())
    else ([false, false, false, false, false], r.Fail())
  }

  // ---- Optional fields: absent from the stream exactly when they are zero ----

  datatype Swap = Swap(reward: uint64, swapIn: uint64, assetOut: Id, swapOut: uint64, swapExpiry: int64)

  function OptUint64(n: uint64): seq<Field> { if n == 0 then [] else [Uint64Field(n)] }
  function OptId(id: Id): seq<Field> { if id == EMPTY_ID then [] else [IdField(id)] }
  function OptInt64(i: int64): seq<Field> { if i == 0 then [] else [Int64Field(i)] }

  /** The presence bits and the fields that are present, in front of what follows them. */
  function PackOptional(o: Swap, tail: seq<Field>): seq<Field> {
    [PresenceBits([o.reward != 0, o.swapIn != 0, o.assetOut != EMPTY_ID, o.swapOut != 0, o.swapExpiry != 0])]
    + (OptUint64(o.reward) + (OptUint64(o.swapIn) + (OptId(o.assetOut)
    + (OptUint64(o.swapOut) + (OptInt64(o.swapExpiry) + tail)))))
  }

  function OptionalUint64(present: bool, r: Reader): (uint64, Reader) {
    if present then UnpackUint64(r, true) else (0, r)
  }

  function OptionalId(present: bool, r: Reader): (Id, Reader) {
    if present then UnpackId(r, true) else (EMPTY_ID, r)
  }

  function OptionalInt64(present: bool, r: Reader): (int64, Reader) {
    if present then UnpackInt64(r, true) else (0, r)
  }

  /** What follows the presence bits. */
  function UnpackFields(bits: seq<bool>, r: Reader): (Swap, Reader)
    requires |bits| == 5
  {
    var (reward, r1) := OptionalUint64(bits[0], r);
    var (swapIn, r2) := OptionalUint64(bits[1], r1);
    var (assetOut, r3) := OptionalId(bits[2], r2);
    var (swapOut, r4) := OptionalUint64(bits[3], r3);
    var (expiry, r5) := OptionalInt64(bits[4], r4);
    (Swap(reward, swapIn, assetOut, swapOut, expiry), r5)
  }

  function UnpackOptional(r: Reader): (Swap, Reader) {
    var (bits, r1) := UnpackBits(r);
    UnpackFields(bits, r1)
  }

  lemma OptionalUint64RoundTrip(n: uint64, tail: seq<Field>)
    ensures OptionalUint64(n != 0, Reader(OptUint64(n) + tail, true)) == (n, Reader(tail, true))
  {
    if n == 0 {
      assert OptUint64(n) + tail == tail;
    } else {
      assert (OptUint64(n) + tail)[1..] == tail;
    }
  }

  lemma OptionalIdRoundTrip(id: Id, tail: seq<Field>)
    ensures OptionalId(id != EMPTY_ID, Reader(OptId(id) + tail, true)) == (id, Reader(tail, true))
  {
    if id == EMPTY_ID {
      assert OptId(id) + tail == tail;
    } else {
      assert (OptId(id) + tail)[1..] == tail;
    }
  }

  lemma OptionalInt64RoundTrip(i: int64, tail: seq<Field>)
    ensures OptionalInt64(i != 0, Reader(OptInt64(i) + tail, true)) == (i, Reader(tail, true))
  {
    if i == 0 {
      assert OptInt64(i) + tail == tail;
    } else {
      assert (OptInt64(i) + tail)[1..] == tail;
    }
  }

  lemma OptionalRoundTrip(o: Swap, tail: seq<Field>)
    ensures UnpackOptional(Reader(PackOptional(o, tail), true)) == (o, Reader(tail, true))
  {
    var t4 := OptInt64(o.swapExpiry) + tail;
    var t3 := OptUint64(o.swapOut) + t4;
    var t2 := OptId(o.assetOut) + t3;
    var t1 := OptUint64(o.swapIn) + t2;
    var t0 := OptUint64(o.reward) + t1;
    var stream := PackOptional(o, tail);
    assert stream[1..] == t0;
    hide OptionalUint64, OptionalId, OptionalInt64, OptUint64, OptId, OptInt64;
    OptionalUint64RoundTrip(o.reward, t1);
    OptionalUint64RoundTrip(o.swapIn, t2);
    OptionalIdRoundTrip(o.assetOut, t3);
    OptionalUint64RoundTrip(o.swapOut, t4);
    OptionalInt64RoundTrip(o.swapExpiry, tail);
  }

  // ---- The layout shared by warp transfers and export actions ----

  /** A header, the optional swap, and a final identifier (transaction id or destination). */
  datatype Layout = Layout(to: PublicKey, asset: Id, value: uint64, isReturn: bool, swap: Swap, last: Id)

  datatype Header = Header(to: PublicKey, asset: Id, value: uint64, isReturn: bool)

  function PackHeader(h: Header): seq<Field> {
    [IdField(h.to), IdField(h.asset), Uint64Field(h.value), BoolField(h.isReturn)]
  }

  function Pack(l: Layout): seq<Field> {
    PackHeader(Header(l.to, l.asset, l.value, l.isReturn)) + PackOptional(l.swap, [IdField(l.last)])
  }

  function UnpackHeader(r: Reader): (Header, Reader) {
    var (to, r1) := UnpackId(r, false);
    var (asset, r2) := UnpackId(r1, false);
    var (value, r3) := UnpackUint64(r2, true);
    var (isReturn, r4) := UnpackBool(r3);
    (Header(to, asset, value, isReturn), r4)
  }

  function Unpack(stream: seq<Field>): (Layout, Reader) {
    var (h, r1) := UnpackHeader(Reader(stream, true));
    var (swap, r2) := UnpackOptional(r1);
    var (last, r3) := UnpackId(r2, true);
    (Layout(h.to, h.asset, h.value, h.isReturn, swap, last), r3)
  }

  lemma HeaderRoundTrip(h: Header, tail: seq<Field>)
    requires h.value != 0
    ensures UnpackHeader(Reader(PackHeader(h) + tail, true)) == (h, Reader(tail, true))
  {
  }

  lemma OptionalTail(o: Swap, tail: seq<Field>, rest: seq<Field>)
    ensures PackOptional(o, tail + rest) == PackOptional(o, tail) + rest
  {
    hide OptUint64, OptId, OptInt64;
  }

  lemma PackTail(l: Layout, tail: seq<Field>)
    ensures Pack(l) + tail
         == PackHeader(Header(l.to, l.asset, l.value, l.isReturn)) + PackOptional(l.swap, [IdField(l.last)] + tail)
  {
    OptionalTail(l.swap, [IdField(l.last)], tail);
    hide PackOptional;
  }

  /** A packed layout is read back, whatever follows it. */
  lemma PackedPrefix(l: Layout, tail: seq<Field>)
    requires l.value != 0 && l.last != EMPTY_ID
    ensures Unpack(Pack(l) + tail) == (l, Reader(tail, true))
  {
    var end := [IdField(l.last)] + tail;
    PackTail(l, tail);
    hide UnpackHeader, UnpackOptional, PackOptional, PackHeader, Pack;
    OptionalRoundTrip(l.swap, end);
    HeaderRoundTrip(Header(l.to, l.asset, l.value, l.isReturn), PackOptional(l.swap, end));
    assert end[1..] == tail;
  }

  lemma PackRoundTrip(l: Layout)
    requires l.value != 0 && l.last != EMPTY_ID
    ensures Unpack(Pack(l)) == (l, Reader([], true))
  {
    hide Unpack, Pack;
    PackedPrefix(l, []);
    assert Pack(l) + [] == Pack(l);
  }

  /** A failed read is sticky: every later read of the same stream fails too. */
  lemma UnpackSticky(stream: seq<Field>)
    ensures Unpack(stream).1.ok ==> Unpack(stream).0.value != 0 && Unpack(stream).0.last != EMPTY_ID
  {
  }

  function LayoutOf(w: WarpTransfer): Layout {
    Layout(w.to, w.asset, w.value, w.isReturn, Swap(w.reward, w.swapIn, w.assetOut, w.swapOut, w.swapExpiry), w.txId)
  }

  function Marshal(w: WarpTransfer): seq<Field> {
    Pack(LayoutOf(w))
  }

  function Unmarshal(stream: seq<Field>): Option<WarpTransfer> {
    var (l, r) := Unpack(stream);
    if !r.ok then None
    else if !r.Empty() then None
    else
      var w := WarpTransfer(l.to, l.asset, l.value, l.isReturn, l.swap.reward, l.swap.swapIn,
                            l.swap.assetOut, l.swap.swapOut, l.swap.swapExpiry, l.last);
      if ValidSwap(w) then Some(w) else None
  }

  /** A transfer survives the trip through a payload exactly when its required fields are set and its
      swap is valid; otherwise the payload is rejected. Zero-valued optional fields come back as zero. */
  lemma PayloadRoundTrip(w: WarpTransfer)
    ensures w.value != 0 && w.txId != EMPTY_ID && ValidSwap(w) ==> Unmarshal(Marshal(w)) == Some(w)
    ensures !(w.value != 0 && w.txId != EMPTY_ID && ValidSwap(w)) ==> Unmarshal(Marshal(w)) == None
  {
    if w.value != 0 && w.txId != EMPTY_ID {
      PackRoundTrip(LayoutOf(w));
    } else if Unpack(Marshal(w)).1.ok {
      UnpackSticky(Marshal(w));
      UnpackPacked(LayoutOf(w));
    }
  }

  // ---- Every accepted stream is the one that packing gives ----

  lemma OptionalUint64Reads(present: bool, r: Reader)
    requires OptionalUint64(present, r).1.ok
    ensures r.ok && r.rest == OptUint64(OptionalUint64(present, r).0) + OptionalUint64(present, r).1.rest
    ensures present <==> OptionalUint64(present, r).0 != 0
  {
  }

  lemma OptionalIdReads(present: bool, r: Reader)
    requires OptionalId(present, r).1.ok
    ensures r.ok && r.rest == OptId(OptionalId(present, r).0) + OptionalId(present, r).1.rest
    ensures present <==> OptionalId(present, r).0 != EMPTY_ID
  {
  }

  lemma OptionalInt64Reads(present: bool, r: Reader)
    requires OptionalInt64(present, r).1.ok
    ensures r.ok && r.rest == OptInt64(OptionalInt64(present, r).0) + OptionalInt64(present, r).1.rest
    ensures present <==> OptionalInt64(present, r).0 != 0
  {
  }

  lemma FieldsRead(bits: seq<bool>, r: Reader)
    requires |bits| == 5 && UnpackFields(bits, r).1.ok
    ensures r.ok && [PresenceBits(bits)] + r.rest == PackOptional(UnpackFields(bits, r).0, UnpackFields(bits, r).1.rest)
  {
    var r1 := OptionalUint64(bits[0], r).1;
    var r2 := OptionalUint64(bits[1], r1).1;
    var r3 := OptionalId(bits[2], r2).1;
    var r4 := OptionalUint64(bits[3], r3).1;
    var o, rest := UnpackFields(bits, r).0, UnpackFields(bits, r).1;
    hide OptionalUint64, OptionalId, OptionalInt64, OptUint64, OptId, OptInt64;
    OptionalInt64Reads(bits[4], r4);
    OptionalUint64Reads(bits[3], r3);
    OptionalIdReads(bits[2], r2);
    OptionalUint64Reads(bits[1], r1);
    OptionalUint64Reads(bits[0], r);
    hide UnpackFields;
    assert r4.rest == OptInt64(o.swapExpiry) + rest.rest;
    assert bits == [o.reward != 0, o.swapIn != 0, o.assetOut != EMPTY_ID, o.swapOut != 0, o.swapExpiry != 0];
  }

  lemma OptionalReads(r0: Reader)
    requires UnpackOptional(r0).1.ok
    ensures var (o, rest) := UnpackOptional(r0); r0.ok && r0.rest == PackOptional(o, rest.rest)
  {
    var (bits, r) := UnpackBits(r0);
    hide PackOptional, OptionalUint64, OptionalId, OptionalInt64;
    FieldsRead(bits, r);
    assert r0.ok && r0.rest == [PresenceBits(bits)] + r.rest;
  }

  lemma HeaderReads(r: Reader)
    requires UnpackHeader(r).1.ok
    ensures var (h, rest) := UnpackHeader(r);
      r.ok && h.value != 0 && r.rest == PackHeader(h) + rest.rest
  {
  }

  /** What is read from any stream is what packing writes, and no optional field is ever present and zero. */
  lemma UnpackReads(stream: seq<Field>)
    requires Unpack(stream).1.ok
    ensures var (l, r) := Unpack(stream); l.value != 0 && l.last != EMPTY_ID && stream == Pack(l) + r.rest
  {
    var (h, r1) := UnpackHeader(Reader(stream, true));
    var (swap, r2) := UnpackOptional(r1);
    var (last, r3) := UnpackId(r2, true);
    assert r2.rest == [IdField(last)] + r3.rest;
    PackTail(Unpack(stream).0, r3.rest);
    hide UnpackHeader, UnpackOptional, PackOptional, PackHeader, Pack;
    OptionalReads(r1);
    HeaderReads(Reader(stream, true));
  }

  /** A payload is accepted exactly when it is what marshalling a valid transfer gives: there is one way to write
      each transfer, and nothing may follow it. */
  lemma UnmarshalAcceptsIff(stream: seq<Field>, w: WarpTransfer)
    ensures Unmarshal(stream) == Some(w) <==>
      stream == Marshal(w) && w.value != 0 && w.txId != EMPTY_ID && ValidSwap(w)
  {
    hide Unpack, Pack, ValidSwap;
    PayloadRoundTrip(w);
    if Unmarshal(stream) == Some(w) { UnpackReads(stream); }
  }

  /** Whatever a successful read of a packed layout returns is that layout. */
  lemma UnpackPacked(l: Layout)
    requires Unpack(Pack(l)).1.ok
    ensures Unpack(Pack(l)).0 == l
  {
    var s := Pack(l);
    assert s[0] == IdField(l.to) && s[1] == IdField(l.asset) && s[2] == Uint64Field(l.value);
    assert s[1..][0] == s[1] && s[1..][1..][0] == s[2];
    assert s[1..][1..][1..][1..] == PackOptional(l.swap, [IdField(l.last)]);
    OptionalRoundTrip(l.swap, [IdField(l.last)]);
  }
}

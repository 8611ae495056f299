/** From an export transaction to the import on the other side: what deserialization lets through, and what
    survives the trip. */
module Payloads {
  import opened Common
  import opened Warp
  import opened Ledger
  import opened Actions

  function ExportLayout(a: Action): Layout
    requires a.ExportAsset?
  {
    Layout(a.to, a.asset, a.value, a.isReturn,
           Swap(a.reward, a.swapIn, a.assetOut, a.swapOut, a.swapExpiry), a.destination)
  }

  function MarshalExport(a: Action): seq<Field>
    requires a.ExportAsset?
  {
    Pack(ExportLayout(a))
  }

  function UnmarshalExport(stream: seq<Field>): Option<Action> {
    var (l, r) := Unpack(stream);
    if !r.ok || !ValidSwapParams(l.value, l.swap.swapIn, l.swap.assetOut, l.swap.swapOut, l.swap.swapExpiry) then None
    else Some(ExportAsset(l.to, l.asset, l.value, l.isReturn, l.swap.reward, l.swap.swapIn, l.swap.assetOut,
                          l.swap.swapOut, l.swap.swapExpiry, l.last))
  }

  /** An import carries a fill flag; its transfer is the payload of the signed message, and only a transfer
      that asks for a swap can be filled. */
  function UnmarshalImport(fill: bool, payload: seq<Field>, source: Id): Option<Action> {
    match Unmarshal(payload)
    case None => None
    case Some(w) => if fill && w.swapIn == 0 then None else Some(ImportAsset(fill, w, source))
  }

  /** What every deserialized action satisfies. */
  predicate WellFormed(a: Action) {
    match a
    case ImportAsset(fill, w, _) => w.value != 0 && ValidSwap(w) && (fill ==> w.swapIn != 0)
    case ExportAsset(_, _, value, _, _, swapIn, assetOut, swapOut, swapExpiry, destination) =>
      value != 0 && destination != EMPTY_ID && ValidSwapParams(value, swapIn, assetOut, swapOut, swapExpiry)
    case _ => true
  }

  lemma DeserializedIsWellFormed(stream: seq<Field>, fill: bool, source: Id)
    ensures UnmarshalExport(stream).Some? ==> WellFormed(UnmarshalExport(stream).value)
    ensures UnmarshalImport(fill, stream, source).Some? ==> WellFormed(UnmarshalImport(fill, stream, source).value)
  {
  }

  /** An export transaction decodes to itself exactly when its value and destination are set and its swap
      is valid; otherwise it is rejected. */
  lemma ExportRoundTrip(a: Action)
    requires a.ExportAsset?
    ensures WellFormed(a) ==> UnmarshalExport(MarshalExport(a)) == Some(a)
    ensures !WellFormed(a) ==> UnmarshalExport(MarshalExport(a)) == None
  {
    if Unpack(MarshalExport(a)).1.ok {
      UnpackSticky(MarshalExport(a));
      UnpackPacked(ExportLayout(a));
    } else if a.value != 0 && a.destination != EMPTY_ID {
      PackRoundTrip(ExportLayout(a));
    }
    hide Unpack, Pack;
  }

  /** An export transaction is accepted exactly when it is the layout of a well-formed export with anything at all
      behind it: what follows is not looked at. */
  lemma ExportAcceptsIff(stream: seq<Field>, a: Action)
    requires a.ExportAsset?
    ensures UnmarshalExport(stream) == Some(a) <==> WellFormed(a) && MarshalExport(a) <= stream
  {
    hide Unpack, Pack;
    if UnmarshalExport(stream) == Some(a) {
      UnpackReads(stream);
    }
    if WellFormed(a) && MarshalExport(a) <= stream {
      PackedPrefix(ExportLayout(a), stream[|MarshalExport(a)|..]);
      assert stream == MarshalExport(a) + stream[|MarshalExport(a)|..];
    }
  }

  /** A transfer carries what the exporter asked for, to whom the exporter said, under this transaction's id. */
  predicate Conveys(c: Context, a: Action, w: WarpTransfer)
    requires a.ExportAsset?
  {
    && w.to == a.to && w.value == a.value && w.reward == a.reward && w.isReturn == a.isReturn
    && w.swapIn == a.swapIn && w.assetOut == a.assetOut && w.swapOut == a.swapOut && w.swapExpiry == a.swapExpiry
    && w.txId == c.txId
  }

  lemma ExportMessage(c: Context, a: Action, s: Store)
    requires a.ExportAsset? && ExportAssetSpec(c, a, s).Ok?
    ensures var m := ExportAssetSpec(c, a, s).message;
      m.Some? && m.value.destination == a.destination && Conveys(c, a, m.value.transfer)
  {
  }

  /** Whatever export was accepted and executed, its payload is accepted on the other side and conveys what was
      asked for, with and without optional fields: it can be imported without fill, and with fill whenever it
      asks for a swap. */
  lemma ExportedPayloadIsImportable(stream: seq<Field>, a: Action, c: Context, s: Store, fill: bool, source: Id)
    requires UnmarshalExport(stream) == Some(a) && ExportAssetSpec(c, a, s).Ok? && c.txId != EMPTY_ID
    ensures var m := ExportAssetSpec(c, a, s).message;
      m.Some? && m.value.destination == a.destination && Conveys(c, a, m.value.transfer)
      && Unmarshal(Marshal(m.value.transfer)) == Some(m.value.transfer)
      && UnmarshalImport(fill, Marshal(m.value.transfer), source)
           == if fill && a.swapIn == 0 then None else Some(ImportAsset(fill, m.value.transfer, source))
  {
    DeserializedIsWellFormed(stream, fill, source);
    ExportMessage(c, a, s);
    hide ExportAssetSpec, Marshal, Unmarshal;
    PayloadRoundTrip(ExportAssetSpec(c, a, s).message.value.transfer);
  }

  // ---- Positions on the wire ----

  /** The four fields of the header come first, in this order, then one presence bit for each optional field,
      and the identifier last. */
  predicate LaidOut(stream: seq<Field>, l: Layout) {
    && 6 <= |stream|
    && stream[0] == IdField(l.to) && stream[1] == IdField(l.asset)
    && stream[2] == Uint64Field(l.value) && stream[3] == BoolField(l.isReturn)
    && stream[4] == PresenceBits([l.swap.reward != 0, l.swap.swapIn != 0, l.swap.assetOut != EMPTY_ID,
                                  l.swap.swapOut != 0, l.swap.swapExpiry != 0])
    && stream[|stream| - 1] == IdField(l.last)
  }

  /** The optional fields that are present, in the order of their bits. */
  function Optionals(o: Swap): seq<Field> {
    OptUint64(o.reward) + OptUint64(o.swapIn) + OptId(o.assetOut) + OptUint64(o.swapOut) + OptInt64(o.swapExpiry)
  }

  lemma OptionalLaidOut(o: Swap, tail: seq<Field>)
    ensures PackOptional(o, tail)
         == [PresenceBits([o.reward != 0, o.swapIn != 0, o.assetOut != EMPTY_ID, o.swapOut != 0, o.swapExpiry != 0])]
          + (Optionals(o) + tail)
  {
    hide OptUint64, OptId, OptInt64;
    assert PackOptional(o, tail)[1..] == Optionals(o) + tail;
  }

  lemma PackLaidOut(l: Layout)
    ensures LaidOut(Pack(l), l) && Pack(l)[5..|Pack(l)| - 1] == Optionals(l.swap)
  {
    OptionalLaidOut(l.swap, [IdField(l.last)]);
    hide Optionals, PackOptional;
  }

  /** Where every field of a transfer and of an export is on the wire. */
  lemma PayloadLayout(w: WarpTransfer, a: Action)
    requires a.ExportAsset?
    ensures LaidOut(Marshal(w), Layout(w.to, w.asset, w.value, w.isReturn,
                                       Swap(w.reward, w.swapIn, w.assetOut, w.swapOut, w.swapExpiry), w.txId))
    ensures LaidOut(MarshalExport(a), Layout(a.to, a.asset, a.value, a.isReturn,
                                             Swap(a.reward, a.swapIn, a.assetOut, a.swapOut, a.swapExpiry),
                                             a.destination))
    ensures Marshal(w)[5..|Marshal(w)| - 1] == Optionals(Swap(w.reward, w.swapIn, w.assetOut, w.swapOut, w.swapExpiry))
    ensures MarshalExport(a)[5..|MarshalExport(a)| - 1]
         == Optionals(Swap(a.reward, a.swapIn, a.assetOut, a.swapOut, a.swapExpiry))
  {
    PackLaidOut(LayoutOf(w));
    PackLaidOut(ExportLayout(a));
    hide Pack, Optionals, LaidOut;
  }
}

/** The ten actions of the virtual machine, as functions from a store to an outcome. */
module Actions {
  import opened Common
  import opened BigEndian
  import opened Warp
  import opened Ledger

  datatype Action =
    | Transfer(to: PublicKey, asset: Id, value: uint64)
    | CreateAsset(metadata: bytes)
    | MintAsset(to: PublicKey, asset: Id, value: uint64)
    | BurnAsset(asset: Id, value: uint64)
    | ModifyAsset(asset: Id, owner: PublicKey, metadata: bytes)
    | CreateOrder(inAsset: Id, inTick: uint64, outAsset: Id, outTick: uint64, supply: uint64)
    | FillOrder(order: Id, owner: PublicKey, inAsset: Id, outAsset: Id, value: uint64)
    | CloseOrder(order: Id, outAsset: Id)
    | ImportAsset(fill: bool, transfer: WarpTransfer, source: Id)
    | ExportAsset(
        to: PublicKey,
        asset: Id,
        value: uint64,
        isReturn: bool,
        reward: uint64,
        swapIn: uint64,
        assetOut: Id,
        swapOut: uint64,
        swapExpiry: int64,
        destination: Id)

  /** What an action is given besides the database: the signer, the transaction id, the block time,
      whether the warp message it carries was verified, and the hash behind imported asset ids. */
  datatype Context = Context(actor: PublicKey, txId: Id, time: int64, warpVerified: bool, toId: Hash)

  // ---- Transfers and assets ----

  /** What a check over a stored record decides: go on with a value, refuse, or panic. */
  datatype Checked<+T> = Accept(value: T) | Refuse(failure: Failure) | Abort

  function TransferSpec(c: Context, a: Action, s: Store): Outcome
    requires a.Transfer?
  {
    if a.value == 0 then Err(s, ValueZero) else
    var s1 :- SubBalance(s, c.actor, a.asset, a.value);
    AddBalance(s1, a.to, a.asset, a.value)
  }

  function CreateAssetSpec(c: Context, a: Action, s: Store): Outcome
    requires a.CreateAsset?
  {
    if |a.metadata| > MAX_METADATA_SIZE then Err(s, MetadataTooLarge)
    else Done(SetAsset(s, c.txId, AssetRecord(a.metadata, 0, c.actor, false)))
  }

  function CheckMint(c: Context, a: Action, existing: Option<AssetRecord>): (r: Checked<AssetRecord>)
    requires a.MintAsset?
    requires existing.Some? ==> |existing.value.metadata| <= MAX_READABLE_METADATA
    ensures !r.Abort? && (r.Accept? ==> |r.value.metadata| <= MAX_READABLE_METADATA)
  {
    if a.asset == EMPTY_ID then Refuse(AssetIsNative)
    else if a.value == 0 then Refuse(ValueZero)
    else match existing
      case None => Refuse(AssetMissing)
      case Some(r) =>
        if r.warp then Refuse(WarpAsset)
        else if r.owner != c.actor then Refuse(WrongOwner)
        else if r.supply + a.value > MAX_UINT64 then Refuse(Overflow)
        else Accept(r.(supply := r.supply + a.value))
  }

  function MintAssetSpec(c: Context, a: Action, s: Store): Outcome
    requires a.MintAsset?
  {
    match CheckMint(c, a, GetAsset(s, a.asset))
    case Refuse(failure) => Err(s, failure)
    case Accept(r) => AddBalance(SetAsset(s, a.asset, r), a.to, a.asset, a.value)
  }

  function CheckBurn(a: Action, existing: Option<AssetRecord>): (r: Checked<AssetRecord>)
    requires a.BurnAsset?
    requires existing.Some? ==> |existing.value.metadata| <= MAX_READABLE_METADATA
    ensures !r.Abort? && (r.Accept? ==> |r.value.metadata| <= MAX_READABLE_METADATA)
  {
    match existing
    case None => Refuse(AssetMissing)
    case Some(r) => if r.supply < a.value then Refuse(Underflow) else Accept(r.(supply := r.supply - a.value))
  }

  function BurnAssetSpec(c: Context, a: Action, s: Store): Outcome
    requires a.BurnAsset?
  {
    if a.value == 0 then Err(s, ValueZero) else
    var s1 :- SubBalance(s, c.actor, a.asset, a.value);
    match CheckBurn(a, GetAsset(s1, a.asset))
    case Refuse(failure) => Err(s1, failure)
    case Accept(r) => Done(SetAsset(s1, a.asset, r))
  }

  function CheckModify(c: Context, a: Action, existing: Option<AssetRecord>): (r: Checked<AssetRecord>)
    requires a.ModifyAsset?
    ensures !r.Abort? && (r.Accept? ==> |r.value.metadata| <= MAX_METADATA_SIZE)
  {
    if a.asset == EMPTY_ID then Refuse(AssetIsNative)
    else if |a.metadata| > MAX_METADATA_SIZE then Refuse(MetadataTooLarge)
    else match existing
      case None => Refuse(AssetMissing)
      case Some(r) =>
        if r.warp then Refuse(WarpAsset)
        else if r.owner != c.actor then Refuse(WrongOwner)
        else Accept(r.(metadata := a.metadata, owner := a.owner))
  }

  function ModifyAssetSpec(c: Context, a: Action, s: Store): Outcome
    requires a.ModifyAsset?
  {
    match CheckModify(c, a, GetAsset(s, a.asset))
    case Refuse(failure) => Err(s, failure)
    case Accept(r) => Done(SetAsset(s, a.asset, r))
  }

  // ---- Orders ----

  function CreateOrderSpec(c: Context, a: Action, s: Store): Outcome
    requires a.CreateOrder?
  {
    if a.inAsset == a.outAsset then Err(s, SameInOut)
    else if a.inTick == 0 then Err(s, InTickZero)
    else if a.outTick == 0 then Err(s, OutTickZero)
    else if a.supply == 0 then Err(s, SupplyZero)
    else if a.supply % a.outTick != 0 then Err(s, SupplyMisaligned)
    else
      var s1 :- SubBalance(s, c.actor, a.outAsset, a.supply);
      Done(SetOrder(s1, c.txId, OrderRecord(a.inAsset, a.inTick, a.outAsset, a.outTick, a.supply, c.actor)))
  }

  /** The result of a successful fill: what was paid, what was received, what is left. */
  datatype OrderResult = OrderResult(paid: uint64, received: uint64, remaining: uint64)

  function MarshalOrderResult(r: OrderResult): bytes {
    Uint64Bytes(r.paid) + Uint64Bytes(r.received) + Uint64Bytes(r.remaining)
  }

  /** Amounts paid and received must be present; a zero remaining amount means the order is gone. */
  function UnmarshalOrderResult(b: bytes): Option<OrderResult> {
    if |b| < 24 then None
    else
      var r := OrderResult(BytesUint64(b[..8]), BytesUint64(b[8..16]), BytesUint64(b[16..24]));
      if r.paid == 0 || r.received == 0 then None else Some(r)
  }

  /** The input that pays for `over` units of output, in whole ticks. */
  function InputOver(o: OrderRecord, over: uint64): uint64
    requires o.outTick != 0
  {
    var blocksOver := over / o.outTick;
    Wrap64(blocksOver * o.inTick)
  }

  /** The amounts of a fill. Only the multiplication is checked; the clipping of an oversized fill uses
      plain uint64 operators, which wrap. */
  function FillAmounts(o: OrderRecord, value: uint64, output: uint64): OrderResult
    requires o.outTick != 0
  {
    if output > o.remaining then
      OrderResult(Wrap64(value - InputOver(o, output - o.remaining)), o.remaining, 0)
    else if output == o.remaining then OrderResult(value, output, 0)
    else OrderResult(value, output, o.remaining - output)
  }

  /** The checks of a fill against the order it names, and the amounts it would trade. */
  function Quote(a: Action, o: OrderRecord): (r: Checked<OrderResult>)
    requires a.FillOrder?
    ensures r.Accept? ==> a.owner == o.owner && a.inAsset == o.inAsset && a.outAsset == o.outAsset && a.value != 0
  {
    if o.owner != a.owner then Refuse(WrongOwner)
    else if o.inAsset != a.inAsset then Refuse(WrongIn)
    else if o.outAsset != a.outAsset then Refuse(WrongOut)
    else if a.value == 0 then Refuse(ValueZero)
    else if o.inTick == 0 then Abort // integer division by zero
    else if a.value % o.inTick != 0 then Refuse(ValueMisaligned)
    else if o.outTick * (a.value / o.inTick) > MAX_UINT64 then Refuse(Overflow)
    else if o.outTick * (a.value / o.inTick) == 0 then Refuse(InsufficientOutput)
    else
      var r := FillAmounts(o, a.value, o.outTick * (a.value / o.inTick));
      if r.paid == 0 then Refuse(InsufficientInput) else Accept(r)
  }

  function FillOrderSpec(c: Context, a: Action, s: Store): Outcome
    requires a.FillOrder?
  {
    match GetOrder(s, a.order)
    case None => Err(s, OrderMissing)
    case Some(o) =>
      match Quote(a, o)
      case Refuse(failure) => Err(s, failure)
      case Abort => Panic(s)
      case Accept(r) => Settle(c.actor, a.order, o, r, s)
  }

  /** The payments of a fill: the filler pays the owner and receives from the order. */
  function SettleBalances(actor: PublicKey, o: OrderRecord, r: OrderResult, s: Store): Outcome {
    var s1 :- SubBalance(s, actor, o.inAsset, r.paid);
    var s2 :- AddBalance(s1, o.owner, o.inAsset, r.paid);
    AddBalance(s2, actor, o.outAsset, r.received)
  }

  /** The database writes of a fill once its amounts are known. */
  function Settle(actor: PublicKey, order: Id, o: OrderRecord, r: OrderResult, s: Store): Outcome {
    var s1 :- SettleBalances(actor, o, r, s);
    var s2 := if r.remaining == 0 then DeleteOrder(s1, order)
              else SetOrder(s1, order, o.(remaining := r.remaining));
    Ok(s2, MarshalOrderResult(r), None)
  }

  function CloseOrderSpec(c: Context, a: Action, s: Store): Outcome
    requires a.CloseOrder?
  {
    match GetOrder(s, a.order)
    case None => Err(s, OrderMissing)
    case Some(o) =>
      if o.owner != c.actor then Err(s, Unauthorized)
      else if o.outAsset != a.outAsset then Err(s, WrongOut)
      else AddBalance(DeleteOrder(s, a.order), c.actor, a.outAsset, o.remaining)
  }

  // ---- Imports ----

  /** The local id of the asset an import credits. */
  function AssetIn(toId: Hash, w: WarpTransfer, source: Id): Id {
    if w.isReturn then w.asset else ImportedAssetId(toId, w.asset, source)
  }

  /** The recipient gets the value and, when there is one, the importer gets the reward. */
  function Pay(s: Store, actor: PublicKey, w: WarpTransfer, asset: Id): Outcome {
    var s1 :- AddBalance(s, w.to, asset, w.value);
    if w.reward > 0 then AddBalance(s1, actor, asset, w.reward) else Done(s1)
  }

  /** The record of a wrapped asset after an import: the first one creates it from the origin. */
  function MintRecord(w: WarpTransfer, source: Id, existing: Option<AssetRecord>): (r: Checked<AssetRecord>)
    requires existing.Some? ==> |existing.value.metadata| <= MAX_READABLE_METADATA
    ensures !r.Abort? && (r.Accept? ==> |r.value.metadata| <= MAX_READABLE_METADATA)
  {
    if existing.Some? && !existing.value.warp then Refuse(ConflictingAsset) else
    var metadata := if existing.Some? then existing.value.metadata else ImportedAssetMetadata(w.asset, source);
    var supply := (if existing.Some? then existing.value.supply else 0) + w.value + w.reward;
    if supply > MAX_UINT64 then Refuse(Overflow) else
    Accept(AssetRecord(metadata, supply, EMPTY_PUBLIC_KEY, true))
  }

  function ExecuteMint(c: Context, w: WarpTransfer, source: Id, s: Store): Outcome {
    var asset := ImportedAssetId(c.toId, w.asset, source);
    match MintRecord(w, source, GetAsset(s, asset))
    case Refuse(failure) => Err(s, failure)
    case Accept(r) => Pay(SetAsset(s, asset, r), c.actor, w, asset)
  }

  function ImportReturn(c: Context, w: WarpTransfer, source: Id, s: Store): Outcome {
    var s1 :- SubLoan(s, w.asset, source, w.value);
    var s2 :- AddBalance(s1, w.to, w.asset, w.value);
    if w.reward == 0 then Done(s2) else
    var s3 :- SubLoan(s2, w.asset, source, w.reward);
    AddBalance(s3, c.actor, w.asset, w.reward)
  }

  /** The mint or loan release at the heart of an import, before any swap. */
  function Credit(c: Context, w: WarpTransfer, source: Id, s: Store): Outcome {
    if w.isReturn then ImportReturn(c, w, source, s) else ExecuteMint(c, w, source, s)
  }

  function SwapAssets(c: Context, w: WarpTransfer, assetIn: Id, s: Store): Outcome {
    var s1 :- SubBalance(s, w.to, assetIn, w.swapIn);
    var s2 :- AddBalance(s1, c.actor, assetIn, w.swapIn);
    var s3 :- SubBalance(s2, c.actor, w.assetOut, w.swapOut);
    AddBalance(s3, w.to, w.assetOut, w.swapOut)
  }

  /** What an import does once the asset is credited: nothing, wait for the expiry, or swap. */
  function AfterCredit(c: Context, a: Action, s: Store): Outcome
    requires a.ImportAsset?
  {
    if a.transfer.swapIn == 0 then Done(s)
    else if !a.fill then
      if a.transfer.swapExpiry > c.time then Err(s, MustFill) else Done(s)
    else SwapAssets(c, a.transfer, AssetIn(c.toId, a.transfer, a.source), s)
  }

  function ImportAssetSpec(c: Context, a: Action, s: Store): Outcome
    requires a.ImportAsset?
  {
    if !c.warpVerified then Err(s, WarpVerificationFailed)
    else if a.transfer.value == 0 then Err(s, ValueZero)
    else
      var s1 :- Credit(c, a.transfer, a.source, s);
      AfterCredit(c, a, s1)
  }

  // ---- Exports ----

  /** The transfer an export announces, for the asset as the destination knows it. */
  function ExportedTransfer(c: Context, a: Action, asset: Id): WarpTransfer
    requires a.ExportAsset?
  {
    WarpTransfer(a.to, asset, a.value, a.isReturn, a.reward, a.swapIn, a.assetOut, a.swapOut, a.swapExpiry, c.txId)
  }

  /** A wrapped asset with no supply left loses its record. */
  function WriteSupply(s: Store, id: Id, metadata: bytes, supply: uint64): Store
    requires |metadata| <= MAX_READABLE_METADATA
  {
    if supply > 0 then SetAsset(s, id, AssetRecord(metadata, supply, EMPTY_PUBLIC_KEY, true)) else DeleteAsset(s, id)
  }

  /** The exporter pays the value and, when there is one, the reward. */
  function Debit(s: Store, owner: PublicKey, asset: Id, value: uint64, reward: uint64): Outcome {
    var s1 :- SubBalance(s, owner, asset, value);
    if reward > 0 then SubBalance(s1, owner, asset, reward) else Done(s1)
  }

  /** The checks of a return export against the record of the wrapped asset. */
  function CheckReturn(a: Action, r: AssetRecord): (v: Checked<()>)
    requires a.ExportAsset?
    ensures v.Accept? ==> |r.metadata| == 2 * ID_LEN && a.value + a.reward <= r.supply
  {
    if !r.warp then Refuse(NotWarpAsset)
    else if |r.metadata| < ID_LEN then Abort // slice out of range
    else if |r.metadata| - ID_LEN != ID_LEN then Refuse(InvalidIdLength)
    else if BytesId(r.metadata[ID_LEN..]) != a.destination then Refuse(WrongDestination)
    else if r.supply < a.value then Refuse(Underflow)
    else if r.supply - a.value < a.reward then Refuse(Underflow)
    else Accept(())
  }

  /** The writes and the message of a return export that passed its checks. */
  function Withdraw(c: Context, a: Action, r: AssetRecord, s: Store): Outcome
    requires a.ExportAsset? && a.value + a.reward <= r.supply && |r.metadata| == 2 * ID_LEN
  {
    var s1 := WriteSupply(s, a.asset, r.metadata, r.supply - a.value - a.reward);
    var s2 :- Debit(s1, c.actor, a.asset, a.value, a.reward);
    Ok(s2, [], Some(OutgoingMessage(a.destination, ExportedTransfer(c, a, BytesId(r.metadata[..ID_LEN])))))
  }

  function ExecuteReturn(c: Context, a: Action, s: Store): Outcome
    requires a.ExportAsset?
  {
    match GetAsset(s, a.asset)
    case None => Err(s, AssetMissing)
    case Some(r) =>
      match CheckReturn(a, r)
      case Refuse(failure) => Err(s, failure)
      case Abort => Panic(s)
      case Accept(_) => Withdraw(c, a, r, s)
  }

  /** One amount moves from a balance into the loan to a destination. */
  function Lend(s: Store, owner: PublicKey, asset: Id, destination: Id, amount: uint64): Outcome {
    var s1 :- AddLoan(s, asset, destination, amount);
    SubBalance(s1, owner, asset, amount)
  }

  /** The exporter lends the value and, when there is one, the reward. */
  function LendBoth(s: Store, owner: PublicKey, asset: Id, destination: Id, value: uint64, reward: uint64): Outcome {
    var s1 :- Lend(s, owner, asset, destination, value);
    if reward > 0 then Lend(s1, owner, asset, destination, reward) else Done(s1)
  }

  function ExecuteLoan(c: Context, a: Action, s: Store): Outcome
    requires a.ExportAsset?
  {
    match GetAsset(s, a.asset)
    case None => Err(s, AssetMissing)
    case Some(r) =>
      if r.warp then Err(s, WarpAsset)
      else
        var s1 :- LendBoth(s, c.actor, a.asset, a.destination, a.value, a.reward);
        Ok(s1, [], Some(OutgoingMessage(a.destination, ExportedTransfer(c, a, a.asset))))
  }

  function ExportAssetSpec(c: Context, a: Action, s: Store): Outcome
    requires a.ExportAsset?
  {
    if a.value == 0 then Err(s, ValueZero)
    else if a.destination == EMPTY_ID then Err(s, Anycast)
    else if a.isReturn then ExecuteReturn(c, a, s)
    else ExecuteLoan(c, a, s)
  }

  // ---- Dispatch ----

  function Execute(c: Context, a: Action, s: Store): Outcome {
    match a
    case Transfer(_, _, _) => TransferSpec(c, a, s)
    case CreateAsset(_) => CreateAssetSpec(c, a, s)
    case MintAsset(_, _, _) => MintAssetSpec(c, a, s)
    case BurnAsset(_, _) => BurnAssetSpec(c, a, s)
    case ModifyAsset(_, _, _) => ModifyAssetSpec(c, a, s)
    case CreateOrder(_, _, _, _, _) => CreateOrderSpec(c, a, s)
    case FillOrder(_, _, _, _, _) => FillOrderSpec(c, a, s)
    case CloseOrder(_, _) => CloseOrderSpec(c, a, s)
    case ImportAsset(_, _, _) => ImportAssetSpec(c, a, s)
    case ExportAsset(_, _, _, _, _, _, _, _, _, _) => ExportAssetSpec(c, a, s)
  }
}

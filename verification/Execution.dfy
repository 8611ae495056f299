/** The actions as they run: step by step on the database. Each method leaves the ledger and returns the
    result that the corresponding function of module Actions describes. */
module Execution {
  import opened Common
  import opened BigEndian
  import opened Warp
  import opened Ledger
  import opened Actions
  import opened Storage
  import opened StateDatabase
  import opened Transactions

  datatype Result = Success(output: bytes, message: Option<OutgoingMessage>) | Failed(failure: Failure) | Panicked

  function ResultOf(o: Outcome): Result {
    match o
    case Ok(_, output, message) => Success(output, message)
    case Err(_, failure) => Failed(failure)
    case Panic(_) => Panicked
  }

  /** A run that ends with store `s` and result `r` is the outcome `o`. */
  ghost predicate Gives(s: Store, r: Result, o: Outcome) {
    s == o.store && r == ResultOf(o)
  }

  function Plain(): Result { Success([], None) }

  // ---- Transfers and assets ----

  method TransferExecute(c: Context, a: Action, db: Database) returns (r: Result)
    requires a.Transfer? && db.Valid()
    modifies db
    ensures db.Valid() && Gives(db.store, r, TransferSpec(c, a, old(db.store)))
  {
    hide AddBalance, SubBalance, Represents;
    if a.value == 0 {
      return Failed(ValueZero);
    }
    var e := db.SubBalance(c.actor, a.asset, a.value);
    if e.Some? {
      return Failed(e.value);
    }
    e := db.AddBalance(a.to, a.asset, a.value);
    if e.Some? {
      return Failed(e.value);
    }
    r := Plain();
  }

  method CreateAssetExecute(c: Context, a: Action, db: Database) returns (r: Result)
    requires a.CreateAsset? && db.Valid()
    modifies db
    ensures db.Valid() && Gives(db.store, r, CreateAssetSpec(c, a, old(db.store)))
  {
    if |a.metadata| > MAX_METADATA_SIZE {
      return Failed(MetadataTooLarge);
    }
    db.SetAsset(c.txId, a.metadata, 0, c.actor, false);
    r := Plain();
  }

  method MintAssetExecute(c: Context, a: Action, db: Database) returns (r: Result)
    requires a.MintAsset? && db.Valid()
    modifies db
    ensures db.Valid() && Gives(db.store, r, MintAssetSpec(c, a, old(db.store)))
  {
    hide AddBalance, Represents;
    if a.asset == EMPTY_ID {
      return Failed(AssetIsNative);
    }
    if a.value == 0 {
      return Failed(ValueZero);
    }
    var existing := db.GetAsset(a.asset);
    if existing.None? {
      return Failed(AssetMissing);
    }
    var AssetRecord(metadata, supply, owner, isWarp) := existing.value;
    if isWarp {
      return Failed(WarpAsset);
    }
    if owner != c.actor {
      return Failed(WrongOwner);
    }
    var newSupply := Add64(supply, a.value);
    if newSupply.None? {
      return Failed(Overflow);
    }
    db.SetAsset(a.asset, metadata, newSupply.value, c.actor, isWarp);
    var e := db.AddBalance(a.to, a.asset, a.value);
    if e.Some? {
      return Failed(e.value);
    }
    r := Plain();
  }

  method BurnAssetExecute(c: Context, a: Action, db: Database) returns (r: Result)
    requires a.BurnAsset? && db.Valid()
    modifies db
    ensures db.Valid() && Gives(db.store, r, BurnAssetSpec(c, a, old(db.store)))
  {
    hide SubBalance, Represents;
    if a.value == 0 {
      return Failed(ValueZero);
    }
    var e := db.SubBalance(c.actor, a.asset, a.value);
    if e.Some? {
      return Failed(e.value);
    }
    var existing := db.GetAsset(a.asset);
    if existing.None? {
      return Failed(AssetMissing);
    }
    var AssetRecord(metadata, supply, owner, isWarp) := existing.value;
    var newSupply := Sub64(supply, a.value);
    if newSupply.None? {
      return Failed(Underflow);
    }
    db.SetAsset(a.asset, metadata, newSupply.value, owner, isWarp);
    r := Plain();
  }

  method ModifyAssetExecute(c: Context, a: Action, db: Database) returns (r: Result)
    requires a.ModifyAsset? && db.Valid()
    modifies db
    ensures db.Valid() && Gives(db.store, r, ModifyAssetSpec(c, a, old(db.store)))
  {
    if a.asset == EMPTY_ID {
      return Failed(AssetIsNative);
    }
    if |a.metadata| > MAX_METADATA_SIZE {
      return Failed(MetadataTooLarge);
    }
    var existing := db.GetAsset(a.asset);
    if existing.None? {
      return Failed(AssetMissing);
    }
    var AssetRecord(_, supply, owner, isWarp) := existing.value;
    if isWarp {
      return Failed(WarpAsset);
    }
    if owner != c.actor {
      return Failed(WrongOwner);
    }
    db.SetAsset(a.asset, a.metadata, supply, a.owner, isWarp);
    r := Plain();
  }

  // ---- Orders ----

  method CreateOrderExecute(c: Context, a: Action, db: Database) returns (r: Result)
    requires a.CreateOrder? && db.Valid()
    modifies db
    ensures db.Valid() && Gives(db.store, r, CreateOrderSpec(c, a, old(db.store)))
  {
    hide SubBalance, Represents;
    if a.inAsset == a.outAsset {
      return Failed(SameInOut);
    }
    if a.inTick == 0 {
      return Failed(InTickZero);
    }
    if a.outTick == 0 {
      return Failed(OutTickZero);
    }
    if a.supply == 0 {
      return Failed(SupplyZero);
    }
    if a.supply % a.outTick != 0 {
      return Failed(SupplyMisaligned);
    }
    var e := db.SubBalance(c.actor, a.outAsset, a.supply);
    if e.Some? {
      return Failed(e.value);
    }
    db.SetOrder(c.txId, OrderRecord(a.inAsset, a.inTick, a.outAsset, a.outTick, a.supply, c.actor));
    r := Plain();
  }

  /** The amounts of a fill, computed with plain uint64 operators. */
  method ComputeFill(o: OrderRecord, value: uint64, output: uint64) returns (r: OrderResult, shouldDelete: bool)
    requires o.outTick != 0
    ensures r == FillAmounts(o, value, output) && (shouldDelete <==> r.remaining == 0)
  {
    var inputAmount, outputAmount, orderRemaining := value, output, 0;
    shouldDelete := false;
    if outputAmount > o.remaining {
      var blocksOver := (outputAmount - o.remaining) / o.outTick;
      inputAmount := Wrap64(inputAmount - Wrap64(blocksOver * o.inTick));
      outputAmount := o.remaining;
      shouldDelete := true;
    } else if outputAmount == o.remaining {
      shouldDelete := true;
    } else {
      orderRemaining := o.remaining - outputAmount;
    }
    r := OrderResult(inputAmount, outputAmount, orderRemaining);
  }

  method FillOrderExecute(c: Context, a: Action, db: Database) returns (r: Result)
    requires a.FillOrder? && db.Valid()
    modifies db
    ensures db.Valid() && Gives(db.store, r, FillOrderSpec(c, a, old(db.store)))
  {
    hide AddBalance, SubBalance, Represents, FillAmounts;
    var existing := db.GetOrder(a.order);
    if existing.None? {
      return Failed(OrderMissing);
    }
    var o := existing.value;
    if o.owner != a.owner {
      return Failed(WrongOwner);
    }
    if o.inAsset != a.inAsset {
      return Failed(WrongIn);
    }
    if o.outAsset != a.outAsset {
      return Failed(WrongOut);
    }
    if a.value == 0 {
      return Failed(ValueZero);
    }
    if o.inTick == 0 {
      return Panicked;
    }
    if a.value % o.inTick != 0 {
      return Failed(ValueMisaligned);
    }
    var output := Mul64(o.outTick, a.value / o.inTick);
    if output.None? {
      return Failed(Overflow);
    }
    if output.value == 0 {
      return Failed(InsufficientOutput);
    }
    var amounts, shouldDelete := ComputeFill(o, a.value, output.value);
    if amounts.paid == 0 {
      return Failed(InsufficientInput);
    }
    assert Quote(a, o) == Accept(amounts);
    var e := db.SubBalance(c.actor, a.inAsset, amounts.paid);
    if e.Some? {
      return Failed(e.value);
    }
    e := db.AddBalance(a.owner, a.inAsset, amounts.paid);
    if e.Some? {
      return Failed(e.value);
    }
    e := db.AddBalance(c.actor, a.outAsset, amounts.received);
    if e.Some? {
      return Failed(e.value);
    }
    if shouldDelete {
      db.DeleteOrder(a.order);
    } else {
      db.SetOrder(a.order, o.(remaining := amounts.remaining));
    }
    r := Success(MarshalOrderResult(amounts), None);
  }

  method CloseOrderExecute(c: Context, a: Action, db: Database) returns (r: Result)
    requires a.CloseOrder? && db.Valid()
    modifies db
    ensures db.Valid() && Gives(db.store, r, CloseOrderSpec(c, a, old(db.store)))
  {
    hide AddBalance, Represents;
    var existing := db.GetOrder(a.order);
    if existing.None? {
      return Failed(OrderMissing);
    }
    if existing.value.owner != c.actor {
      return Failed(Unauthorized);
    }
    if existing.value.outAsset != a.outAsset {
      return Failed(WrongOut);
    }
    db.DeleteOrder(a.order);
    var e := db.AddBalance(c.actor, a.outAsset, existing.value.remaining);
    if e.Some? {
      return Failed(e.value);
    }
    r := Plain();
  }

  // ---- Imports ----

  method ExecuteMintOn(c: Context, w: WarpTransfer, source: Id, db: Database) returns (e: Option<Failure>)
    requires db.Valid()
    modifies db
    ensures db.Valid() && Ends(db.store, e, ExecuteMint(c, w, source, old(db.store)))
  {
    hide AddBalance, Represents;
    var asset := ImportedAssetId(c.toId, w.asset, source);
    var existing := db.GetAsset(asset);
    if existing.Some? && !existing.value.warp {
      return Some(ConflictingAsset);
    }
    var metadata, supply := ImportedAssetMetadata(w.asset, source), 0;
    if existing.Some? {
      metadata, supply := existing.value.metadata, existing.value.supply;
    }
    var newSupply := Add64(supply, w.value);
    if newSupply.None? {
      return Some(Overflow);
    }
    newSupply := Add64(newSupply.value, w.reward);
    if newSupply.None? {
      return Some(Overflow);
    }
    db.SetAsset(asset, metadata, newSupply.value, EMPTY_PUBLIC_KEY, true);
    e := db.AddBalance(w.to, asset, w.value);
    if e.Some? {
      return;
    }
    if w.reward > 0 {
      e := db.AddBalance(c.actor, asset, w.reward);
    }
  }

  method ExecuteReturnOn(c: Context, w: WarpTransfer, source: Id, db: Database) returns (e: Option<Failure>)
    requires db.Valid()
    modifies db
    ensures db.Valid() && Ends(db.store, e, ImportReturn(c, w, source, old(db.store)))
  {
    hide AddBalance, SubLoan, Represents;
    e := db.SubLoan(w.asset, source, w.value);
    if e.Some? {
      return;
    }
    e := db.AddBalance(w.to, w.asset, w.value);
    if e.Some? {
      return;
    }
    if w.reward > 0 {
      e := db.SubLoan(w.asset, source, w.reward);
      if e.Some? {
        return;
      }
      e := db.AddBalance(c.actor, w.asset, w.reward);
    }
  }

  method SwapOn(c: Context, w: WarpTransfer, assetIn: Id, db: Database) returns (r: Result)
    requires db.Valid()
    modifies db
    ensures db.Valid() && Gives(db.store, r, SwapAssets(c, w, assetIn, old(db.store)))
  {
    hide AddBalance, SubBalance, Represents;
    var e := db.SubBalance(w.to, assetIn, w.swapIn);
    if e.Some? {
      return Failed(e.value);
    }
    e := db.AddBalance(c.actor, assetIn, w.swapIn);
    if e.Some? {
      return Failed(e.value);
    }
    e := db.SubBalance(c.actor, w.assetOut, w.swapOut);
    if e.Some? {
      return Failed(e.value);
    }
    e := db.AddBalance(w.to, w.assetOut, w.swapOut);
    if e.Some? {
      return Failed(e.value);
    }
    r := Plain();
  }

  method ImportAssetExecute(c: Context, a: Action, db: Database) returns (r: Result)
    requires a.ImportAsset? && db.Valid()
    modifies db
    ensures db.Valid() && Gives(db.store, r, ImportAssetSpec(c, a, old(db.store)))
  {
    if !c.warpVerified {
      return Failed(WarpVerificationFailed);
    }
    var w := a.transfer;
    if w.value == 0 {
      return Failed(ValueZero);
    }
    var e;
    if w.isReturn {
      e := ExecuteReturnOn(c, w, a.source, db);
    } else {
      e := ExecuteMintOn(c, w, a.source, db);
    }
    if e.Some? {
      return Failed(e.value);
    }
    if w.swapIn == 0 {
      return Plain();
    }
    if !a.fill {
      if w.swapExpiry > c.time {
        return Failed(MustFill);
      }
      return Plain();
    }
    var assetIn := w.asset;
    if !w.isReturn {
      assetIn := ImportedAssetId(c.toId, w.asset, a.source);
    }
    r := SwapOn(c, w, assetIn, db);
  }

  // ---- Exports ----

  method ExportReturnOn(c: Context, a: Action, db: Database) returns (r: Result)
    requires a.ExportAsset? && db.Valid()
    modifies db
    ensures db.Valid() && Gives(db.store, r, ExecuteReturn(c, a, old(db.store)))
  {
    hide SubBalance, Represents;
    var existing := db.GetAsset(a.asset);
    if existing.None? {
      return Failed(AssetMissing);
    }
    var AssetRecord(metadata, supply, _, isWarp) := existing.value;
    if !isWarp {
      return Failed(NotWarpAsset);
    }
    if |metadata| < ID_LEN {
      return Panicked;
    }
    if |metadata[ID_LEN..]| != ID_LEN {
      return Failed(InvalidIdLength);
    }
    if BytesId(metadata[ID_LEN..]) != a.destination {
      return Failed(WrongDestination);
    }
    var newSupply := Sub64(supply, a.value);
    if newSupply.None? {
      return Failed(Underflow);
    }
    newSupply := Sub64(newSupply.value, a.reward);
    if newSupply.None? {
      return Failed(Underflow);
    }
    if newSupply.value > 0 {
      db.SetAsset(a.asset, metadata, newSupply.value, EMPTY_PUBLIC_KEY, true);
    } else {
      db.DeleteAsset(a.asset);
    }
    var e := db.SubBalance(c.actor, a.asset, a.value);
    if e.Some? {
      return Failed(e.value);
    }
    if a.reward > 0 {
      e := db.SubBalance(c.actor, a.asset, a.reward);
      if e.Some? {
        return Failed(e.value);
      }
    }
    var originalAsset := BytesId(metadata[..ID_LEN]);
    r := Success([], Some(OutgoingMessage(a.destination, ExportedTransfer(c, a, originalAsset))));
  }

  method ExportLoanOn(c: Context, a: Action, db: Database) returns (r: Result)
    requires a.ExportAsset? && db.Valid()
    modifies db
    ensures db.Valid() && Gives(db.store, r, ExecuteLoan(c, a, old(db.store)))
  {
    hide AddLoan, SubBalance, Represents;
    var existing := db.GetAsset(a.asset);
    if existing.None? {
      return Failed(AssetMissing);
    }
    if existing.value.warp {
      return Failed(WarpAsset);
    }
    var e := db.AddLoan(a.asset, a.destination, a.value);
    if e.Some? {
      return Failed(e.value);
    }
    e := db.SubBalance(c.actor, a.asset, a.value);
    if e.Some? {
      return Failed(e.value);
    }
    if a.reward > 0 {
      e := db.AddLoan(a.asset, a.destination, a.reward);
      if e.Some? {
        return Failed(e.value);
      }
      e := db.SubBalance(c.actor, a.asset, a.reward);
      if e.Some? {
        return Failed(e.value);
      }
    }
    r := Success([], Some(OutgoingMessage(a.destination, ExportedTransfer(c, a, a.asset))));
  }

  method ExportAssetExecute(c: Context, a: Action, db: Database) returns (r: Result)
    requires a.ExportAsset? && db.Valid()
    modifies db
    ensures db.Valid() && Gives(db.store, r, ExportAssetSpec(c, a, old(db.store)))
  {
    if a.value == 0 {
      return Failed(ValueZero);
    }
    if a.destination == EMPTY_ID {
      return Failed(Anycast);
    }
    if a.isReturn {
      r := ExportReturnOn(c, a, db);
    } else {
      r := ExportLoanOn(c, a, db);
    }
  }

  // ---- Transactions ----

  method ExecuteAction(c: Context, a: Action, db: Database) returns (r: Result)
    requires db.Valid()
    modifies db
    ensures db.Valid() && Gives(db.store, r, Execute(c, a, old(db.store)))
  {
    match a {
      case Transfer(_, _, _) => r := TransferExecute(c, a, db);
      case CreateAsset(_) => r := CreateAssetExecute(c, a, db);
      case MintAsset(_, _, _) => r := MintAssetExecute(c, a, db);
      case BurnAsset(_, _) => r := BurnAssetExecute(c, a, db);
      case ModifyAsset(_, _, _) => r := ModifyAssetExecute(c, a, db);
      case CreateOrder(_, _, _, _, _) => r := CreateOrderExecute(c, a, db);
      case FillOrder(_, _, _, _, _) => r := FillOrderExecute(c, a, db);
      case CloseOrder(_, _) => r := CloseOrderExecute(c, a, db);
      case ImportAsset(_, _, _) => r := ImportAssetExecute(c, a, db);
      case ExportAsset(_, _, _, _, _, _, _, _, _, _) => r := ExportAssetExecute(c, a, db);
    }
  }

  /** How a transaction ends: it is no part of a block, it stops the node, or its action has a result. */
  datatype TxEnd = Refused | Stopped | Finished(result: Result)

  function EndOf(receipt: Receipt): TxEnd {
    match receipt
    case Rejected => Refused
    case Crashed => Stopped
    case Applied(_, outcome) => Finished(ResultOf(outcome))
  }

  /** A whole transaction: deduct, snapshot, execute, restore the snapshot on failure, refund. */
  method ExecuteTx(e: Env, tx: Tx, db: Database) returns (end: TxEnd)
    requires db.Valid()
    modifies db
    ensures db.Valid() && end == EndOf(ApplyTx(e, tx, old(db.store)))
    ensures end.Finished? ==> db.store == ApplyTx(e, tx, old(db.store)).store
  {
    hide Execute, Represents;
    var failure := db.SubBalance(tx.signer, EMPTY_ID, tx.maxFee);
    if failure.Some? {
      return Refused;
    }
    var snapshot := db.data;
    ghost var before := db.store;
    var r := ExecuteAction(ContextOf(e, tx), tx.action, db);
    if r.Panicked? {
      return Stopped;
    }
    if !r.Success? {
      db.data := snapshot;
      db.store := before;
    }
    failure := db.AddBalance(tx.signer, EMPTY_ID, tx.refund);
    end := if failure.Some? then Refused else Finished(r);
  }
}

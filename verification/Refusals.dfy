/** Why an action fails: on a reachable ledger, the first of its guards that does not hold, and nothing else. */
module Refusals {
  import opened Common
  import opened BigEndian
  import opened Warp
  import opened Ledger
  import opened Actions
  import opened Orders
  import opened Soundness
  import opened Transactions
  import opened Payloads
  import opened Imports
  import opened Effects

  /** The refusal of a change to a record by someone who may not make it. */
  function OwnerRefusal(c: Context, asset: Id, s: Store): Option<Failure> {
    match GetAsset(s, asset)
    case None => Some(AssetMissing)
    case Some(r) => if r.warp then Some(WarpAsset) else if r.owner != c.actor then Some(WrongOwner) else None
  }

  function FillRefusal(c: Context, a: Action, s: Store): Option<Failure>
    requires a.FillOrder?
  {
    match GetOrder(s, a.order)
    case None => Some(OrderMissing)
    case Some(o) =>
      if a.owner != o.owner then Some(WrongOwner)
      else if a.inAsset != o.inAsset then Some(WrongIn)
      else if a.outAsset != o.outAsset then Some(WrongOut)
      else if a.value == 0 then Some(ValueZero)
      else if o.inTick == 0 || o.outTick == 0 then None // not on a reachable ledger
      else if a.value % o.inTick != 0 then Some(ValueMisaligned)
      else if a.value / o.inTick * o.outTick > MAX_UINT64 then Some(Overflow)
      else if GetBalance(s, c.actor, o.inAsset) < Ticks(o, a.value) * o.inTick then Some(InvalidBalance)
      else None
  }

  function CreditRefusal(c: Context, w: WarpTransfer, source: Id, s: Store): Option<Failure> {
    var id := ImportedAssetId(c.toId, w.asset, source);
    if w.isReturn then if GetLoan(s, w.asset, source) < w.value + w.reward then Some(InvalidBalance) else None
    else if AssetKey(id) in s && !s[AssetKey(id)].asset.warp then Some(ConflictingAsset)
    else if Supply(s, id) + w.value + w.reward > MAX_UINT64 then Some(Overflow)
    else None
  }

  function ImportRefusal(c: Context, a: Action, s: Store): Option<Failure>
    requires a.ImportAsset?
  {
    if !c.warpVerified then Some(WarpVerificationFailed)
    else if a.transfer.value == 0 then Some(ValueZero)
    else if CreditRefusal(c, a.transfer, a.source, s).Some? then CreditRefusal(c, a.transfer, a.source, s)
    else if SwapReady(c, a.fill, a.transfer, a.source, s) then None
    else if a.fill then Some(InvalidBalance)
    else Some(MustFill)
  }

  function ExportRefusal(c: Context, a: Action, s: Store): Option<Failure>
    requires a.ExportAsset?
  {
    if a.value == 0 then Some(ValueZero)
    else if a.destination == EMPTY_ID then Some(Anycast)
    else match GetAsset(s, a.asset)
      case None => Some(AssetMissing)
      case Some(r) =>
        if !a.isReturn && r.warp then Some(WarpAsset)
        else if a.isReturn && !r.warp then Some(NotWarpAsset)
        else if a.isReturn && (|r.metadata| != 64 || BytesId(r.metadata[32..]) != a.destination)
        then Some(WrongDestination)
        else if a.isReturn && r.supply < a.value + a.reward then Some(Underflow)
        else if GetBalance(s, c.actor, a.asset) < a.value + a.reward then Some(InvalidBalance)
        else None
  }

  /** The first guard of an action that does not hold. */
  function Refusal(c: Context, a: Action, s: Store): Option<Failure> {
    match a
    case Transfer(_, asset, value) =>
      if value == 0 then Some(ValueZero)
      else if GetBalance(s, c.actor, asset) < value then Some(InvalidBalance)
      else None
    case CreateAsset(metadata) => if |metadata| > 256 then Some(MetadataTooLarge) else None
    case MintAsset(_, asset, value) =>
      if asset == EMPTY_ID then Some(AssetIsNative)
      else if value == 0 then Some(ValueZero)
      else if OwnerRefusal(c, asset, s).Some? then OwnerRefusal(c, asset, s)
      else if Supply(s, asset) + value > MAX_UINT64 then Some(Overflow)
      else None
    case BurnAsset(asset, value) =>
      if value == 0 then Some(ValueZero)
      else if GetBalance(s, c.actor, asset) < value then Some(InvalidBalance)
      else None
    case ModifyAsset(asset, _, metadata) =>
      if asset == EMPTY_ID then Some(AssetIsNative)
      else if |metadata| > 256 then Some(MetadataTooLarge)
      else OwnerRefusal(c, asset, s)
    case CreateOrder(inAsset, inTick, outAsset, outTick, supply) =>
      if inAsset == outAsset then Some(SameInOut)
      else if inTick == 0 then Some(InTickZero)
      else if outTick == 0 then Some(OutTickZero)
      else if supply == 0 then Some(SupplyZero)
      else if supply % outTick != 0 then Some(SupplyMisaligned)
      else if GetBalance(s, c.actor, outAsset) < supply then Some(InvalidBalance)
      else None
    case FillOrder(_, _, _, _, _) => FillRefusal(c, a, s)
    case CloseOrder(order, outAsset) =>
      (match GetOrder(s, order)
       case None => Some(OrderMissing)
       case Some(o) =>
         if o.owner != c.actor then Some(Unauthorized) else if o.outAsset != outAsset then Some(WrongOut) else None)
    case ImportAsset(_, _, _) => ImportRefusal(c, a, s)
    case ExportAsset(_, _, _, _, _, _, _, _, _, _) => ExportRefusal(c, a, s)
  }

  /** The outcome is refused for the given reason, or not at all. */
  predicate RefusedBy(o: Outcome, f: Option<Failure>) {
    !o.Panic? && (o.Ok? <==> f == None) && (o.Err? ==> f == Some(o.failure))
  }

  lemma FillRefused(c: Context, a: Action, s: Store, fees: nat)
    requires a.FillOrder? && LedgerInv(c.toId, s, fees)
    ensures RefusedBy(FillOrderSpec(c, a, s), FillRefusal(c, a, s))
  {
    if OrderKey(a.order) in s {
      var o := s[OrderKey(a.order)].order;
      assert EntrySound(c.toId, s, OrderKey(a.order));
      hide Sound, Balanced;
      FillSucceedsIff(c, a, s, o, fees);
      QuoteNeverFree(a, o);
      if Quote(a, o).Accept? { SettleFailures(c.actor, a.order, o, Quote(a, o).value, s); }
      hide Settle, FillAmounts, Ticks;
    }
  }

  lemma CreditRefused(c: Context, w: WarpTransfer, source: Id, s: Store, fees: nat)
    requires Balanced(s, fees)
    ensures RefusedBy(Credit(c, w, source, s), CreditRefusal(c, w, source, s))
  {
    CreditableIff(c, w, source, s, fees);
    hide Balanced;
  }

  lemma SwapRefused(c: Context, w: WarpTransfer, assetIn: Id, s: Store)
    ensures SwapAssets(c, w, assetIn, s).Ok? || RefusedBy(SwapAssets(c, w, assetIn, s), Some(InvalidBalance))
  {
  }

  lemma ImportRefused(c: Context, a: Action, s: Store, fees: nat)
    requires a.ImportAsset? && WellFormed(a) && Balanced(s, fees)
    ensures RefusedBy(ImportAssetSpec(c, a, s), ImportRefusal(c, a, s))
  {
    CreditRefused(c, a.transfer, a.source, s, fees);
    ImportAdmissibleIff(c, a, s, fees);
    CreditableIff(c, a.transfer, a.source, s, fees);
    SwapRefused(c, a.transfer, AssetIn(c.toId, a.transfer, a.source), Credit(c, a.transfer, a.source, s).store);
    hide Credit, Creditable, Balanced, SwapAssets, CreditRefusal, ValidSwap, Credited, AssetIn;
  }

  lemma ExportRefused(c: Context, a: Action, s: Store, fees: nat)
    requires a.ExportAsset? && LedgerInv(c.toId, s, fees)
    ensures RefusedBy(ExportAssetSpec(c, a, s), ExportRefusal(c, a, s))
  {
    assert AssetKey(a.asset) in s ==> EntrySound(c.toId, s, AssetKey(a.asset));
    ExportAdmissibleIff(c, a, s, fees);
    hide LedgerInv;
    if !a.isReturn { LoanRefused(c, a, s); }
    else if GetAsset(s, a.asset).Some? && CheckReturn(a, GetAsset(s, a.asset).value).Accept? { DebitRefused(c, a, s); }
    hide Debit, LendBoth, WriteSupply;
  }

  lemma DebitRefused(c: Context, a: Action, s: Store)
    requires a.ExportAsset? && GetAsset(s, a.asset).Some? && CheckReturn(a, GetAsset(s, a.asset).value).Accept?
    ensures var o := Withdraw(c, a, GetAsset(s, a.asset).value, s); o.Ok? || RefusedBy(o, Some(InvalidBalance))
  {
  }

  lemma LoanRefused(c: Context, a: Action, s: Store)
    requires a.ExportAsset?
    ensures var o := LendBoth(s, c.actor, a.asset, a.destination, a.value, a.reward);
      o.Ok? || RefusedBy(o, Some(InvalidBalance))
  {
  }

  /** On a reachable ledger a deserialized action is refused for the first guard that does not hold, and succeeds
      when all of them do. */
  lemma ExecuteRefused(c: Context, a: Action, s: Store, fees: nat)
    requires WellFormed(a) && LedgerInv(c.toId, s, fees)
    ensures RefusedBy(Execute(c, a, s), Refusal(c, a, s))
  {
    ExecuteSucceedsIff(c, a, s, fees);
    hide LedgerInv, FillOrderSpec, ImportAssetSpec, ExportAssetSpec, FillRefusal, ImportRefusal, ExportRefusal;
    match a
    case FillOrder(_, _, _, _, _) => FillRefused(c, a, s, fees);
    case ImportAsset(_, _, _) => ImportBalanced(c, a, s, fees);
    case ExportAsset(_, _, _, _, _, _, _, _, _, _) => ExportRefused(c, a, s, fees);
    case _ =>
  }

  lemma ImportBalanced(c: Context, a: Action, s: Store, fees: nat)
    requires a.ImportAsset? && WellFormed(a) && LedgerInv(c.toId, s, fees)
    ensures RefusedBy(ImportAssetSpec(c, a, s), ImportRefusal(c, a, s))
  {
    hide Sound, Balanced;
    ImportRefused(c, a, s, fees);
  }

  /** The outcome of an applied transaction: what its action is refused for once the fee has been paid, if anything. */
  lemma TxRefused(e: Env, tx: Tx, s: Store, fees: nat)
    requires WellFormed(tx.action) && LedgerInv(e.toId, s, fees) && ApplyTx(e, tx, s).Applied?
    ensures var paid := SubBalance(s, tx.signer, EMPTY_ID, tx.maxFee);
      paid.Ok? && RefusedBy(ApplyTx(e, tx, s).outcome, Refusal(ContextOf(e, tx), tx.action, paid.store))
  {
    hide LedgerInv, WellFormed, Execute, Refusal, RefusedBy, SubBalance, AddBalance;
    DeductKeepsLedger(e.toId, s, tx.signer, tx.maxFee, fees);
    var paid := SubBalance(s, tx.signer, EMPTY_ID, tx.maxFee).store;
    ExecuteRefused(ContextOf(e, tx), tx.action, paid, fees + tx.maxFee);
  }
}

/** Conservation: no action changes the difference between an asset's recorded supply and what the
    store holds of it in balances, open orders and loans. */
module Conservation {
  import opened Common
  import opened Warp
  import opened Ledger
  import opened Actions
  import opened MapSums

  /** How much of `asset` one entry of the store holds. */
  ghost function Weight(asset: Id): (Key, Value) -> nat {
    (k: Key, v: Value) =>
      match k
      case BalanceKey(_, a) => if a == asset && v.Amount? then v.n else 0
      case OrderKey(_) => if v.Order? && v.order.outAsset == asset then v.order.remaining else 0
      case LoanKey(a, _) => if a == asset && v.Amount? then v.n else 0
      case _ => 0
  }

  /** All of `asset` in balances, open orders paying it out, and loans. */
  ghost function Holdings(s: Store, asset: Id): nat {
    Sum(s, Weight(asset))
  }

  /** Recorded supply minus holdings; zero, or the fees collected for the native asset. */
  ghost function Gap(s: Store, asset: Id): int {
    Supply(s, asset) - Holdings(s, asset)
  }

  ghost predicate GapMoves(s: Store, t: Store, asset: Id, delta: int) {
    forall a: Id :: Gap(t, a) == Gap(s, a) + (if a == asset then delta else 0)
  }

  ghost predicate SameGap(s: Store, t: Store) {
    forall a: Id :: Gap(t, a) == Gap(s, a)
  }

  // ---- One entry at a time ----

  lemma PutGap(s: Store, k: Key, v: Value, a: Id)
    requires WellTyped(k, v)
    ensures Holdings(s[k := v], a) == Holdings(s, a) - At(s, Weight(a), k) + Weight(a)(k, v)
  {
    SumPut(s, Weight(a), k, v);
  }

  lemma RemoveGap(s: Store, k: Key, a: Id)
    ensures Holdings(s - {k}, a) == Holdings(s, a) - At(s, Weight(a), k)
  {
    SumRemove(s, Weight(a), k);
  }

  lemma AddBalanceGap(s: Store, owner: PublicKey, asset: Id, amount: uint64)
    requires AddBalance(s, owner, asset, amount).Ok?
    ensures GapMoves(s, AddBalance(s, owner, asset, amount).store, asset, 0 - amount)
  {
    var k := BalanceKey(owner, asset);
    forall a: Id { PutGap(s, k, Amount(GetBalance(s, owner, asset) + amount), a); }
  }

  lemma SubBalanceGap(s: Store, owner: PublicKey, asset: Id, amount: uint64)
    requires SubBalance(s, owner, asset, amount).Ok?
    ensures GapMoves(s, SubBalance(s, owner, asset, amount).store, asset, amount)
  {
    var k := BalanceKey(owner, asset);
    var left := GetBalance(s, owner, asset) - amount;
    var t := SubBalance(s, owner, asset, amount).store;
    forall a: Id ensures Gap(t, a) == Gap(s, a) + (if a == asset then amount else 0) {
      if left == 0 { RemoveGap(s, k, a); } else { PutGap(s, k, Amount(left), a); }
    }
  }

  lemma AddLoanGap(s: Store, asset: Id, destination: Id, amount: uint64)
    requires AddLoan(s, asset, destination, amount).Ok?
    ensures GapMoves(s, AddLoan(s, asset, destination, amount).store, asset, 0 - amount)
  {
    var k := LoanKey(asset, destination);
    forall a: Id { PutGap(s, k, Amount(GetLoan(s, asset, destination) + amount), a); }
  }

  lemma SubLoanGap(s: Store, asset: Id, destination: Id, amount: uint64)
    requires SubLoan(s, asset, destination, amount).Ok?
    ensures GapMoves(s, SubLoan(s, asset, destination, amount).store, asset, amount)
  {
    var k := LoanKey(asset, destination);
    var left := GetLoan(s, asset, destination) - amount;
    var t := SubLoan(s, asset, destination, amount).store;
    forall a: Id ensures Gap(t, a) == Gap(s, a) + (if a == asset then amount else 0) {
      if left == 0 { RemoveGap(s, k, a); } else { PutGap(s, k, Amount(left), a); }
    }
  }

  lemma SetAssetGap(s: Store, id: Id, r: AssetRecord)
    requires |r.metadata| <= MAX_READABLE_METADATA
    ensures GapMoves(s, SetAsset(s, id, r), id, r.supply - Supply(s, id))
  {
    forall a: Id { PutGap(s, AssetKey(id), Asset(r), a); }
  }

  lemma DeleteAssetGap(s: Store, id: Id)
    ensures GapMoves(s, DeleteAsset(s, id), id, 0 - Supply(s, id))
  {
    forall a: Id { RemoveGap(s, AssetKey(id), a); }
  }

  function Locked(s: Store, order: Id): uint64 {
    if OrderKey(order) in s then s[OrderKey(order)].order.remaining else 0
  }

  lemma SetOrderGap(s: Store, order: Id, r: OrderRecord)
    requires OrderKey(order) in s ==> s[OrderKey(order)].order.outAsset == r.outAsset
    ensures GapMoves(s, SetOrder(s, order, r), r.outAsset, Locked(s, order) - r.remaining)
  {
    forall a: Id { PutGap(s, OrderKey(order), Order(r), a); }
  }

  lemma DeleteOrderGap(s: Store, order: Id)
    requires OrderKey(order) in s
    ensures GapMoves(s, DeleteOrder(s, order), s[OrderKey(order)].order.outAsset, Locked(s, order))
  {
    forall a: Id { RemoveGap(s, OrderKey(order), a); }
  }

  // ---- One action at a time ----

  /** The transaction id names no asset and no order yet. */
  predicate FreshId(s: Store, txId: Id) {
    AssetKey(txId) !in s && OrderKey(txId) !in s
  }

  lemma TransferGap(c: Context, a: Action, s: Store)
    requires a.Transfer? && TransferSpec(c, a, s).Ok?
    ensures SameGap(s, TransferSpec(c, a, s).store)
  {
    var s1 := SubBalance(s, c.actor, a.asset, a.value).store;
    SubBalanceGap(s, c.actor, a.asset, a.value);
    AddBalanceGap(s1, a.to, a.asset, a.value);
  }

  lemma MintAssetGap(c: Context, a: Action, s: Store)
    requires a.MintAsset? && MintAssetSpec(c, a, s).Ok?
    ensures SameGap(s, MintAssetSpec(c, a, s).store)
  {
    var r := CheckMint(c, a, GetAsset(s, a.asset)).value;
    SetAssetGap(s, a.asset, r);
    AddBalanceGap(SetAsset(s, a.asset, r), a.to, a.asset, a.value);
  }

  lemma BurnAssetGap(c: Context, a: Action, s: Store)
    requires a.BurnAsset? && BurnAssetSpec(c, a, s).Ok?
    ensures SameGap(s, BurnAssetSpec(c, a, s).store)
  {
    var s1 := SubBalance(s, c.actor, a.asset, a.value).store;
    SubBalanceGap(s, c.actor, a.asset, a.value);
    SetAssetGap(s1, a.asset, CheckBurn(a, GetAsset(s1, a.asset)).value);
  }

  lemma RecordGap(c: Context, a: Action, s: Store)
    requires a.CreateAsset? || a.ModifyAsset?
    requires FreshId(s, c.txId) && Execute(c, a, s).Ok?
    ensures SameGap(s, Execute(c, a, s).store)
  {
    match a
    case CreateAsset(metadata) =>
      SetAssetGap(s, c.txId, AssetRecord(metadata, 0, c.actor, false));
    case ModifyAsset(asset, _, _) =>
      SetAssetGap(s, asset, CheckModify(c, a, GetAsset(s, asset)).value);
  }

  lemma CreateOrderGap(c: Context, a: Action, s: Store)
    requires a.CreateOrder? && FreshId(s, c.txId) && CreateOrderSpec(c, a, s).Ok?
    ensures SameGap(s, CreateOrderSpec(c, a, s).store)
  {
    var s1 := SubBalance(s, c.actor, a.outAsset, a.supply).store;
    SubBalanceGap(s, c.actor, a.outAsset, a.supply);
    SetOrderGap(s1, c.txId, OrderRecord(a.inAsset, a.inTick, a.outAsset, a.outTick, a.supply, c.actor));
  }

  lemma SettleBalancesGap(actor: PublicKey, o: OrderRecord, r: OrderResult, s: Store)
    requires SettleBalances(actor, o, r, s).Ok?
    ensures GapMoves(s, SettleBalances(actor, o, r, s).store, o.outAsset, 0 - r.received)
  {
    var s1 := SubBalance(s, actor, o.inAsset, r.paid).store;
    SubBalanceGap(s, actor, o.inAsset, r.paid);
    var s2 := AddBalance(s1, o.owner, o.inAsset, r.paid).store;
    AddBalanceGap(s1, o.owner, o.inAsset, r.paid);
    AddBalanceGap(s2, actor, o.outAsset, r.received);
  }

  lemma SettleGap(actor: PublicKey, order: Id, o: OrderRecord, r: OrderResult, s: Store)
    requires GetOrder(s, order) == Some(o) && o.remaining == r.received + r.remaining
    requires Settle(actor, order, o, r, s).Ok?
    ensures SameGap(s, Settle(actor, order, o, r, s).store)
  {
    SettleBalancesGap(actor, o, r, s);
    var s1 := SettleBalances(actor, o, r, s).store;
    if r.remaining == 0 {
      DeleteOrderGap(s1, order);
    } else {
      SetOrderGap(s1, order, o.(remaining := r.remaining));
    }
  }

  lemma FillOrderGap(c: Context, a: Action, s: Store)
    requires a.FillOrder? && FillOrderSpec(c, a, s).Ok?
    ensures SameGap(s, FillOrderSpec(c, a, s).store)
  {
    var o := GetOrder(s, a.order).value;
    SettleGap(c.actor, a.order, o, Quote(a, o).value, s);
  }

  lemma CloseOrderGap(c: Context, a: Action, s: Store)
    requires a.CloseOrder? && CloseOrderSpec(c, a, s).Ok?
    ensures SameGap(s, CloseOrderSpec(c, a, s).store)
  {
    DeleteOrderGap(s, a.order);
    AddBalanceGap(DeleteOrder(s, a.order), c.actor, a.outAsset, GetOrder(s, a.order).value.remaining);
  }

  lemma PayGap(s: Store, actor: PublicKey, w: WarpTransfer, asset: Id)
    requires Pay(s, actor, w, asset).Ok?
    ensures GapMoves(s, Pay(s, actor, w, asset).store, asset, 0 - w.value - w.reward)
  {
    AddBalanceGap(s, w.to, asset, w.value);
    if w.reward > 0 {
      AddBalanceGap(AddBalance(s, w.to, asset, w.value).store, actor, asset, w.reward);
    }
  }

  lemma ExecuteMintGap(c: Context, w: WarpTransfer, source: Id, s: Store)
    requires ExecuteMint(c, w, source, s).Ok?
    ensures SameGap(s, ExecuteMint(c, w, source, s).store)
  {
    var asset := ImportedAssetId(c.toId, w.asset, source);
    var r := MintRecord(w, source, GetAsset(s, asset)).value;
    SetAssetGap(s, asset, r);
    PayGap(SetAsset(s, asset, r), c.actor, w, asset);
  }

  lemma ImportReturnGap(c: Context, w: WarpTransfer, source: Id, s: Store)
    requires ImportReturn(c, w, source, s).Ok?
    ensures SameGap(s, ImportReturn(c, w, source, s).store)
  {
    SubLoanGap(s, w.asset, source, w.value);
    var s1 := SubLoan(s, w.asset, source, w.value).store;
    AddBalanceGap(s1, w.to, w.asset, w.value);
    var s2 := AddBalance(s1, w.to, w.asset, w.value).store;
    if w.reward > 0 {
      SubLoanGap(s2, w.asset, source, w.reward);
      AddBalanceGap(SubLoan(s2, w.asset, source, w.reward).store, c.actor, w.asset, w.reward);
    }
  }

  lemma SwapGap(c: Context, w: WarpTransfer, assetIn: Id, s: Store)
    requires SwapAssets(c, w, assetIn, s).Ok?
    ensures SameGap(s, SwapAssets(c, w, assetIn, s).store)
  {
    SubBalanceGap(s, w.to, assetIn, w.swapIn);
    var s1 := SubBalance(s, w.to, assetIn, w.swapIn).store;
    AddBalanceGap(s1, c.actor, assetIn, w.swapIn);
    var s2 := AddBalance(s1, c.actor, assetIn, w.swapIn).store;
    SubBalanceGap(s2, c.actor, w.assetOut, w.swapOut);
    AddBalanceGap(SubBalance(s2, c.actor, w.assetOut, w.swapOut).store, w.to, w.assetOut, w.swapOut);
  }

  lemma CreditGap(c: Context, w: WarpTransfer, source: Id, s: Store)
    requires Credit(c, w, source, s).Ok?
    ensures SameGap(s, Credit(c, w, source, s).store)
  {
    if w.isReturn { ImportReturnGap(c, w, source, s); } else { ExecuteMintGap(c, w, source, s); }
  }

  lemma ImportAssetGap(c: Context, a: Action, s: Store)
    requires a.ImportAsset? && ImportAssetSpec(c, a, s).Ok?
    ensures SameGap(s, ImportAssetSpec(c, a, s).store)
  {
    CreditGap(c, a.transfer, a.source, s);
    var s1 := Credit(c, a.transfer, a.source, s).store;
    if a.transfer.swapIn != 0 && a.fill {
      SwapGap(c, a.transfer, AssetIn(c.toId, a.transfer, a.source), s1);
    }
  }

  lemma WriteSupplyGap(s: Store, id: Id, metadata: bytes, supply: uint64)
    requires |metadata| <= MAX_READABLE_METADATA
    ensures GapMoves(s, WriteSupply(s, id, metadata, supply), id, supply - Supply(s, id))
  {
    if supply > 0 {
      SetAssetGap(s, id, AssetRecord(metadata, supply, EMPTY_PUBLIC_KEY, true));
    } else {
      DeleteAssetGap(s, id);
    }
  }

  lemma DebitGap(s: Store, owner: PublicKey, asset: Id, value: uint64, reward: uint64)
    requires Debit(s, owner, asset, value, reward).Ok?
    ensures GapMoves(s, Debit(s, owner, asset, value, reward).store, asset, value + reward)
  {
    SubBalanceGap(s, owner, asset, value);
    if reward > 0 {
      SubBalanceGap(SubBalance(s, owner, asset, value).store, owner, asset, reward);
    }
  }

  lemma WithdrawGap(c: Context, a: Action, r: AssetRecord, s: Store)
    requires a.ExportAsset? && a.value + a.reward <= r.supply && r.supply == Supply(s, a.asset)
    requires |r.metadata| == 2 * ID_LEN && Withdraw(c, a, r, s).Ok?
    ensures SameGap(s, Withdraw(c, a, r, s).store)
  {
    var left := r.supply - a.value - a.reward;
    hide Gap, WriteSupply, Debit, Supply;
    WriteSupplyGap(s, a.asset, r.metadata, left);
    DebitGap(WriteSupply(s, a.asset, r.metadata, left), c.actor, a.asset, a.value, a.reward);
  }

  lemma LendGap(s: Store, owner: PublicKey, asset: Id, destination: Id, amount: uint64)
    requires Lend(s, owner, asset, destination, amount).Ok?
    ensures SameGap(s, Lend(s, owner, asset, destination, amount).store)
  {
    AddLoanGap(s, asset, destination, amount);
    SubBalanceGap(AddLoan(s, asset, destination, amount).store, owner, asset, amount);
  }

  lemma ExecuteLoanGap(c: Context, a: Action, s: Store)
    requires a.ExportAsset? && ExecuteLoan(c, a, s).Ok?
    ensures SameGap(s, ExecuteLoan(c, a, s).store)
  {
    LendGap(s, c.actor, a.asset, a.destination, a.value);
    if a.reward > 0 {
      LendGap(Lend(s, c.actor, a.asset, a.destination, a.value).store, c.actor, a.asset, a.destination, a.reward);
    }
  }

  /** Every successful action, on any store, leaves supply minus holdings unchanged for every asset. */
  lemma ExecuteConserves(c: Context, a: Action, s: Store)
    requires FreshId(s, c.txId) && Execute(c, a, s).Ok?
    ensures SameGap(s, Execute(c, a, s).store)
  {
    match a
    case Transfer(_, _, _) => TransferGap(c, a, s);
    case CreateAsset(_) => RecordGap(c, a, s);
    case MintAsset(_, _, _) => MintAssetGap(c, a, s);
    case BurnAsset(_, _) => BurnAssetGap(c, a, s);
    case ModifyAsset(_, _, _) => RecordGap(c, a, s);
    case CreateOrder(_, _, _, _, _) => CreateOrderGap(c, a, s);
    case FillOrder(_, _, _, _, _) => FillOrderGap(c, a, s);
    case CloseOrder(_, _) => CloseOrderGap(c, a, s);
    case ImportAsset(_, _, _) => ImportAssetGap(c, a, s);
    case ExportAsset(_, _, _, _, _, _, _, _, _, _) =>
      if a.isReturn { WithdrawGap(c, a, GetAsset(s, a.asset).value, s); } else { ExecuteLoanGap(c, a, s); }
  }

  // ---- What the holdings bound ----

  lemma HoldingsBoundEntries(s: Store, asset: Id, j: Key, k: Key)
    requires j != k
    ensures At(s, Weight(asset), j) + At(s, Weight(asset), k) <= Holdings(s, asset)
  {
    SumBoundsPair(s, Weight(asset), j, k);
  }

  lemma HoldingsBoundEntry(s: Store, asset: Id, k: Key)
    ensures At(s, Weight(asset), k) <= Holdings(s, asset)
  {
    SumSplit(s, Weight(asset), k);
  }
}

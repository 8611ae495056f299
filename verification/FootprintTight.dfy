/** Declared footprints are tight: every key an action declares matters to every success of it. */
module FootprintTight {
  import opened Common
  import opened Warp
  import opened Ledger
  import opened Actions
  import opened Imports
  import opened Payloads
  import opened Footprint

  /** The outcome turns on what is under a key: the action fails, or changes the entry there. */
  predicate Touches(o: Outcome, s: Store, k: Key) {
    !o.Ok? || (k in o.store) != (k in s) || (k in s && o.store[k] != s[k])
  }

  /** Another entry under one key: one too many to be credited, one that is in the way, or none at all. */
  function Variation(c: Context, a: Action, s: Store, k: Key): Store {
    if a.ImportAsset? && k.AssetKey? then s[k := Asset(AssetRecord([], 0, EMPTY_PUBLIC_KEY, false))]
    else if a.ImportAsset? && k.BalanceKey?
            && (k != BalanceKey(c.actor, a.transfer.assetOut)
                || a.transfer.assetOut == AssetIn(c.toId, a.transfer, a.source)) then s[k := Amount(MAX_UINT64)]
    else if a.ExportAsset? && k.LoanKey? then s[k := Amount(MAX_UINT64)]
    else s - {k}
  }

  lemma AssetKeysMatter(c: Context, a: Action, s: Store, k: Key)
    requires a.Transfer? || a.CreateAsset? || a.MintAsset? || a.BurnAsset? || a.ModifyAsset?
    requires Execute(c, a, s).Ok? && k in StateKeys(c, a)
    ensures Touches(Execute(c, a, s - {k}), s - {k}, k)
  {
  }

  lemma OrderKeysMatter(c: Context, a: Action, s: Store, k: Key)
    requires a.CreateOrder? || a.CloseOrder?
    requires Execute(c, a, s).Ok? && k in StateKeys(c, a)
    ensures Touches(Execute(c, a, s - {k}), s - {k}, k)
  {
  }

  lemma PaymentsMatter(actor: PublicKey, o: OrderRecord, r: OrderResult, s: Store, k: Key)
    requires SettleBalances(actor, o, r, s).Ok? && r.paid > 0
    requires k in {BalanceKey(o.owner, o.inAsset), BalanceKey(actor, o.inAsset), BalanceKey(actor, o.outAsset)}
    ensures Touches(SettleBalances(actor, o, r, s - {k}), s - {k}, k)
  {
  }

  lemma PaymentKeysMatter(c: Context, a: Action, s: Store, o: OrderRecord, k: Key)
    requires a.FillOrder? && FillOrderSpec(c, a, s).Ok? && GetOrder(s, a.order) == Some(o)
    requires k in {BalanceKey(o.owner, o.inAsset), BalanceKey(c.actor, o.inAsset), BalanceKey(c.actor, o.outAsset)}
    ensures Touches(FillOrderSpec(c, a, s - {k}), s - {k}, k)
  {
    assert GetOrder(s - {k}, a.order) == Some(o);
    hide Quote, MarshalOrderResult, SettleBalances, Touches, GetOrder;
    PaysSomething(a, o);
    PaymentsMatter(c.actor, o, Quote(a, o).value, s, k);
    SettlementTouches(c.actor, a.order, o, Quote(a, o).value, s - {k}, k);
  }

  lemma FillKeysMatter(c: Context, a: Action, s: Store, k: Key)
    requires a.FillOrder? && FillOrderSpec(c, a, s).Ok? && k in StateKeys(c, a)
    ensures Touches(FillOrderSpec(c, a, s - {k}), s - {k}, k)
  {
    hide Settle, Touches;
    if k == OrderKey(a.order) {
      MissingOrder(c, a, s - {k});
    } else {
      PaymentKeysMatter(c, a, s, GetOrder(s, a.order).value, k);
    }
  }

  lemma MissingOrder(c: Context, a: Action, s: Store)
    requires a.FillOrder? && OrderKey(a.order) !in s
    ensures Touches(FillOrderSpec(c, a, s), s, OrderKey(a.order))
  {
  }

  lemma SettlementTouches(actor: PublicKey, order: Id, o: OrderRecord, r: OrderResult, s: Store, k: Key)
    requires k.BalanceKey? && Touches(SettleBalances(actor, o, r, s), s, k)
    ensures Touches(Settle(actor, order, o, r, s), s, k)
  {
  }

  lemma PaysSomething(a: Action, o: OrderRecord)
    requires a.FillOrder? && Quote(a, o).Accept?
    ensures Quote(a, o).value.paid > 0
  {
  }

  /** Without the record, or the balance, or room for the loan, an export fails. */
  lemma LoanExportFails(c: Context, a: Action, s: Store)
    requires a.ExportAsset? && a.value != 0
    requires AssetKey(a.asset) !in s || BalanceKey(c.actor, a.asset) !in s
          || GetLoan(s, a.asset, a.destination) == MAX_UINT64
    ensures !ExecuteLoan(c, a, s).Ok?
  {
  }

  lemma ReturnExportFails(c: Context, a: Action, s: Store)
    requires a.ExportAsset? && a.value != 0
    requires AssetKey(a.asset) !in s || BalanceKey(c.actor, a.asset) !in s
    ensures !ExecuteReturn(c, a, s).Ok?
  {
    hide CheckReturn;
  }

  lemma ExportKeysMatter(c: Context, a: Action, s: Store, k: Key)
    requires a.ExportAsset? && a.value != 0 && k in StateKeys(c, a)
    ensures !ExportAssetSpec(c, a, Variation(c, a, s, k)).Ok?
  {
    hide ExecuteReturn, ExecuteLoan;
    if a.isReturn {
      ReturnExportFails(c, a, Variation(c, a, s, k));
    } else {
      LoanExportFails(c, a, Variation(c, a, s, k));
    }
  }

  lemma FullBalanceMatters(c: Context, w: WarpTransfer, source: Id, s: Store, p: PublicKey)
    requires (p == w.to && w.value > 0) || (p == c.actor && w.reward > 0)
    ensures !Credit(c, w, source, s[BalanceKey(p, AssetIn(c.toId, w, source)) := Amount(MAX_UINT64)]).Ok?
  {
  }

  lemma LoanMatters(c: Context, w: WarpTransfer, source: Id, s: Store)
    requires w.isReturn && w.value > 0
    ensures !Credit(c, w, source, s - {LoanKey(w.asset, source)}).Ok?
  {
  }

  lemma RecordMatters(c: Context, w: WarpTransfer, source: Id, s: Store)
    requires !w.isReturn
    ensures var native := Asset(AssetRecord([], 0, EMPTY_PUBLIC_KEY, false));
      !Credit(c, w, source, s[AssetKey(AssetIn(c.toId, w, source)) := native]).Ok?
  {
  }

  /** A credit only adds to balances. */
  lemma CreditAdds(c: Context, w: WarpTransfer, source: Id, s: Store, p: PublicKey, b: Id)
    requires Credit(c, w, source, s).Ok?
    ensures var u := Credit(c, w, source, s).store;
      GetBalance(u, p, b) >= GetBalance(s, p, b)
      && (b != AssetIn(c.toId, w, source) ==> GetBalance(u, p, b) == GetBalance(s, p, b))
  {
    CreditBalances(c, w, source, s, p, b);
  }

  lemma SwapKeysMatter(c: Context, w: WarpTransfer, assetIn: Id, s: Store, k: Key)
    requires w.swapIn > 0 && w.swapOut > 0
    ensures w.assetOut != assetIn && GetBalance(s, c.actor, w.assetOut) == 0 ==> !SwapAssets(c, w, assetIn, s).Ok?
    ensures c.actor != w.to && GetBalance(s, c.actor, assetIn) == MAX_UINT64 ==> !SwapAssets(c, w, assetIn, s).Ok?
    ensures c.actor != w.to && w.assetOut != assetIn && GetBalance(s, w.to, w.assetOut) == MAX_UINT64 ==>
      !SwapAssets(c, w, assetIn, s).Ok?
  {
  }

  lemma SwapVariation(c: Context, a: Action, s: Store, k: Key)
    requires a.ImportAsset? && WellFormed(a) && a.fill && ImportAssetSpec(c, a, s).Ok? && k.BalanceKey?
    requires k in {BalanceKey(c.actor, a.transfer.assetOut), BalanceKey(a.transfer.to, a.transfer.assetOut),
                   BalanceKey(c.actor, AssetIn(c.toId, a.transfer, a.source))}
    requires Credit(c, a.transfer, a.source, Variation(c, a, s, k)).Ok?
    requires k != BalanceKey(a.transfer.to, AssetIn(c.toId, a.transfer, a.source))
    ensures var s1 := Credit(c, a.transfer, a.source, Variation(c, a, s, k)).store;
      !SwapAssets(c, a.transfer, AssetIn(c.toId, a.transfer, a.source), s1).Ok?
  {
    var t, w, assetIn := Variation(c, a, s, k), a.transfer, AssetIn(c.toId, a.transfer, a.source);
    CreditAdds(c, w, a.source, t, k.owner, k.asset);
    hide Credit, ImportAssetSpec, AssetIn, SwapAssets;
    SwapKeysMatter(c, w, assetIn, Credit(c, w, a.source, t).store, k);
  }

  lemma ImportFails(c: Context, a: Action, s: Store)
    requires a.ImportAsset?
    requires !Credit(c, a.transfer, a.source, s).Ok?
          || (a.fill && a.transfer.swapIn > 0
              && !SwapAssets(c, a.transfer, AssetIn(c.toId, a.transfer, a.source),
                             Credit(c, a.transfer, a.source, s).store).Ok?)
    ensures !ImportAssetSpec(c, a, s).Ok?
  {
  }

  /** The declared keys: those of the credit, and those of the swap. */
  lemma ImportKeyKinds(c: Context, a: Action, k: Key)
    requires a.ImportAsset? && WellFormed(a) && k in StateKeys(c, a)
    ensures var w, assetIn := a.transfer, AssetIn(c.toId, a.transfer, a.source);
      || (w.isReturn && k == LoanKey(w.asset, a.source)) || (!w.isReturn && k == AssetKey(assetIn))
      || k == BalanceKey(w.to, assetIn)
      || (w.reward > 0 && k == BalanceKey(c.actor, assetIn))
      || (a.fill && k in {BalanceKey(c.actor, w.assetOut), BalanceKey(w.to, w.assetOut), BalanceKey(c.actor, assetIn)})
  {
  }

  lemma CreditVariation(c: Context, a: Action, s: Store, k: Key)
    requires a.ImportAsset? && WellFormed(a) && Credit(c, a.transfer, a.source, s).Ok?
    requires k.LoanKey? ==> a.transfer.isReturn && k == LoanKey(a.transfer.asset, a.source)
    requires k.AssetKey? ==> !a.transfer.isReturn && k == AssetKey(AssetIn(c.toId, a.transfer, a.source))
    requires k.LoanKey? || k.AssetKey? || k == BalanceKey(a.transfer.to, AssetIn(c.toId, a.transfer, a.source))
          || (a.transfer.reward > 0 && k == BalanceKey(c.actor, AssetIn(c.toId, a.transfer, a.source)))
    requires k != BalanceKey(c.actor, a.transfer.assetOut)
          || a.transfer.assetOut == AssetIn(c.toId, a.transfer, a.source)
    ensures !Credit(c, a.transfer, a.source, Variation(c, a, s, k)).Ok?
  {
    hide Credit, AssetIn, ValidSwap;
    if k.LoanKey? {
      LoanMatters(c, a.transfer, a.source, s);
    } else if k.AssetKey? {
      RecordMatters(c, a.transfer, a.source, s);
    } else {
      FullBalanceMatters(c, a.transfer, a.source, s, k.owner);
    }
  }

  lemma ImportKeysMatter(c: Context, a: Action, s: Store, k: Key)
    requires a.ImportAsset? && WellFormed(a) && ImportAssetSpec(c, a, s).Ok? && k in StateKeys(c, a)
    ensures !ImportAssetSpec(c, a, Variation(c, a, s, k)).Ok?
  {
    var t, w, assetIn := Variation(c, a, s, k), a.transfer, AssetIn(c.toId, a.transfer, a.source);
    assert Credit(c, w, a.source, s).Ok? && (a.fill ==> w.swapIn > 0);
    ImportKeyKinds(c, a, k);
    hide StateKeys, Variation, Credit, SwapAssets, AssetIn, ImportAssetSpec, ValidSwap;
    if Credit(c, w, a.source, t).Ok? {
      if !(k.BalanceKey? && k != BalanceKey(w.to, assetIn) && a.fill) {
        CreditVariation(c, a, s, k);
      } else {
        SwapVariation(c, a, s, k);
      }
    }
    ImportFails(c, a, t);
  }

  lemma FailureTouches(o: Outcome, s: Store, k: Key)
    requires !o.Ok?
    ensures Touches(o, s, k)
  {
  }

  /** For every success of a deserialized action and every key it declares there is another entry, or none, under
      that key alone on which the action fails or changes the entry: no declared key could be left out. */
  lemma EveryKeyMatters(c: Context, a: Action, s: Store, k: Key)
    requires WellFormed(a) && Execute(c, a, s).Ok? && k in StateKeys(c, a)
    ensures Variation(c, a, s, k) - {k} == s - {k}
    ensures Touches(Execute(c, a, Variation(c, a, s, k)), Variation(c, a, s, k), k)
  {
    hide Touches, StateKeys, FillOrderSpec, ImportAssetSpec, ExportAssetSpec;
    match a
    case FillOrder(_, _, _, _, _) => FillKeysMatter(c, a, s, k);
    case CreateOrder(_, _, _, _, _) => OrderKeysMatter(c, a, s, k);
    case CloseOrder(_, _) => OrderKeysMatter(c, a, s, k);
    case ImportAsset(_, _, _) =>
      ImportKeysMatter(c, a, s, k);
      FailureTouches(Execute(c, a, Variation(c, a, s, k)), Variation(c, a, s, k), k);
    case ExportAsset(_, _, _, _, _, _, _, _, _, _) =>
      ExportKeysMatter(c, a, s, k);
      FailureTouches(Execute(c, a, Variation(c, a, s, k)), Variation(c, a, s, k), k);
    case _ => AssetKeysMatter(c, a, s, k);
  }
}

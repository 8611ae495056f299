/** Entry by entry: what every successful action leaves of each record and order, what it publishes, and that it
    touches nothing else. */
module Entries {
  import opened Common
  import opened BigEndian
  import opened Warp
  import opened Ledger
  import opened Actions
  import opened Conservation
  import opened Orders
  import opened Soundness
  import opened Transactions
  import opened Footprint
  import opened Flows
  import opened Effects

  // ---- Records ----

  function Supplied(r: AssetRecord, supply: int): AssetRecord {
    r.(supply := if 0 <= supply <= MAX_UINT64 then supply else 0)
  }

  /** The record of any asset after a successful action, from the records before it. */
  function RecordAfter(c: Context, a: Action, s: Store, id: Id): Option<AssetRecord> {
    var was := GetAsset(s, id);
    match a
    case CreateAsset(metadata) => if id == c.txId then Some(AssetRecord(metadata, 0, c.actor, false)) else was
    case MintAsset(_, asset, value) =>
      if id == asset && was.Some? then Some(Supplied(was.value, was.value.supply + value)) else was
    case BurnAsset(asset, value) =>
      if id == asset && was.Some? then Some(Supplied(was.value, was.value.supply - value)) else was
    case ModifyAsset(asset, owner, metadata) =>
      if id == asset && was.Some? then Some(was.value.(owner := owner, metadata := metadata)) else was
    case ImportAsset(_, w, source) =>
      if w.isReturn || id != ImportedAssetId(c.toId, w.asset, source) then was
      else if was.None? then
        Some(Supplied(AssetRecord(IdBytes(w.asset) + IdBytes(source), 0, EMPTY_PUBLIC_KEY, true), w.value + w.reward))
      else Some(Supplied(was.value, was.value.supply + w.value + w.reward).(owner := EMPTY_PUBLIC_KEY))
    case ExportAsset(_, asset, value, isReturn, reward, _, _, _, _, _) =>
      if !isReturn || id != asset || was.None? then was
      else if was.value.supply <= value + reward then None
      else Some(Supplied(was.value, was.value.supply - value - reward).(owner := EMPTY_PUBLIC_KEY))
    case _ => was
  }

  lemma KeptRecord(s: Store, t: Store, id: Id)
    requires OnlyBalances(s, t)
    ensures GetAsset(s, id) == GetAsset(t, id)
  {
  }

  lemma MintAssetRecord(c: Context, a: Action, s: Store, id: Id)
    requires a.MintAsset? && MintAssetSpec(c, a, s).Ok?
    ensures GetAsset(MintAssetSpec(c, a, s).store, id) == RecordAfter(c, a, s, id)
  {
  }

  lemma BurnAssetRecord(c: Context, a: Action, s: Store, id: Id)
    requires a.BurnAsset? && BurnAssetSpec(c, a, s).Ok?
    ensures GetAsset(BurnAssetSpec(c, a, s).store, id) == RecordAfter(c, a, s, id)
  {
  }

  /** After the credit, an import moves balances only. */
  lemma AfterCreditOnly(c: Context, a: Action, s: Store)
    requires a.ImportAsset? && AfterCredit(c, a, s).Ok?
    ensures OnlyBalances(s, AfterCredit(c, a, s).store)
  {
  }

  lemma MintRecordAfter(c: Context, a: Action, s: Store, id: Id, r: AssetRecord)
    requires a.ImportAsset? && !a.transfer.isReturn
    requires var wrapped := ImportedAssetId(c.toId, a.transfer.asset, a.source);
      MintRecord(a.transfer, a.source, GetAsset(s, wrapped)) == Accept(r)
    ensures var wrapped := ImportedAssetId(c.toId, a.transfer.asset, a.source);
      GetAsset(SetAsset(s, wrapped, r), id) == RecordAfter(c, a, s, id)
  {
  }

  lemma CreditRecord(c: Context, a: Action, s: Store, id: Id)
    requires a.ImportAsset? && Credit(c, a.transfer, a.source, s).Ok?
    ensures GetAsset(Credit(c, a.transfer, a.source, s).store, id) == RecordAfter(c, a, s, id)
  {
    var w := a.transfer;
    if !w.isReturn {
      hide GetAsset, SetAsset, RecordAfter, OnlyBalances, Pay;
      var asset := ImportedAssetId(c.toId, w.asset, a.source);
      var r := MintRecord(w, a.source, GetAsset(s, asset)).value;
      MintRecordAfter(c, a, s, id, r);
      PayOnly(SetAsset(s, asset, r), c.actor, w, asset);
      KeptRecord(SetAsset(s, asset, r), Pay(SetAsset(s, asset, r), c.actor, w, asset).store, id);
    }
  }

  lemma ImportRecord(c: Context, a: Action, s: Store, id: Id)
    requires a.ImportAsset? && ImportAssetSpec(c, a, s).Ok?
    ensures GetAsset(ImportAssetSpec(c, a, s).store, id) == RecordAfter(c, a, s, id)
  {
    hide Credit, AfterCredit, OnlyBalances, GetAsset, RecordAfter;
    var t := Credit(c, a.transfer, a.source, s).store;
    CreditRecord(c, a, s, id);
    AfterCreditOnly(c, a, t);
    KeptRecord(t, AfterCredit(c, a, t).store, id);
  }

  lemma WrittenRecord(c: Context, a: Action, s: Store, id: Id, r: AssetRecord)
    requires a.ExportAsset? && a.isReturn && GetAsset(s, a.asset) == Some(r) && r.warp && a.value + a.reward <= r.supply
    requires |r.metadata| <= MAX_READABLE_METADATA
    ensures GetAsset(WriteSupply(s, a.asset, r.metadata, r.supply - a.value - a.reward), id) == RecordAfter(c, a, s, id)
  {
  }

  lemma ReturnRecord(c: Context, a: Action, s: Store, id: Id)
    requires a.ExportAsset? && a.isReturn && ExecuteReturn(c, a, s).Ok?
    ensures GetAsset(ExecuteReturn(c, a, s).store, id) == RecordAfter(c, a, s, id)
  {
    hide ExecuteReturn, Debit, OnlyBalances, WriteSupply, GetAsset, RecordAfter;
    var r := WithdrawSteps(c, a, s);
    var s1 := WriteSupply(s, a.asset, r.metadata, r.supply - a.value - a.reward);
    WrittenRecord(c, a, s, id, r);
    DebitOnly(s1, c.actor, a.asset, a.value, a.reward);
    KeptRecord(s1, Debit(s1, c.actor, a.asset, a.value, a.reward).store, id);
  }

  lemma LoanRecord(c: Context, a: Action, s: Store, id: Id)
    requires a.ExportAsset? && ExecuteLoan(c, a, s).Ok?
    ensures GetAsset(ExecuteLoan(c, a, s).store, id) == GetAsset(s, id)
  {
  }

  /** No action without a declared record touches one. */
  lemma UndeclaredRecord(c: Context, a: Action, s: Store, id: Id)
    requires a.Transfer? || a.CreateOrder? || a.FillOrder? || a.CloseOrder?
    ensures GetAsset(Execute(c, a, s).store, id) == GetAsset(s, id)
  {
    assert AssetKey(id) !in StateKeys(c, a);
    hide Execute, StateKeys;
    ExecuteWrites(StateKeys(c, a), c, a, s);
  }

  /** Every successful action leaves exactly the described record under every id. */
  lemma ExecuteRecords(c: Context, a: Action, s: Store, id: Id)
    requires Execute(c, a, s).Ok?
    ensures GetAsset(Execute(c, a, s).store, id) == RecordAfter(c, a, s, id)
  {
    match a
    case CreateAsset(_) =>
    case MintAsset(_, _, _) => MintAssetRecord(c, a, s, id);
    case BurnAsset(_, _) => BurnAssetRecord(c, a, s, id);
    case ModifyAsset(_, _, _) =>
    case ImportAsset(_, _, _) => ImportRecord(c, a, s, id);
    case ExportAsset(_, _, _, _, _, _, _, _, _, _) =>
      if a.isReturn { ReturnRecord(c, a, s, id); } else { LoanRecord(c, a, s, id); }
    case _ => UndeclaredRecord(c, a, s, id);
  }

  // ---- Orders ----

  /** Any order after a successful action, from the orders before it. */
  function OrderAfter(c: Context, a: Action, s: Store, id: Id): Option<OrderRecord> {
    var was := GetOrder(s, id);
    match a
    case CreateOrder(inAsset, inTick, outAsset, outTick, supply) =>
      if id == c.txId then Some(OrderRecord(inAsset, inTick, outAsset, outTick, supply, c.actor)) else was
    case FillOrder(order, _, _, _, value) =>
      if id != order || was.None? || was.value.inTick == 0 || was.value.outTick == 0 then was
      else
        var left := was.value.remaining - was.value.outTick * Ticks(was.value, value);
        if left <= 0 then None else Some(was.value.(remaining := left))
    case CloseOrder(order, _) => if id == order then None else was
    case _ => was
  }

  lemma UnnamedOrder(c: Context, a: Action, s: Store, id: Id)
    requires OrderKey(id) !in StateKeys(c, a)
    ensures GetOrder(Execute(c, a, s).store, id) == OrderAfter(c, a, s, id)
  {
    assert OrderAfter(c, a, s, id) == GetOrder(s, id);
    hide Execute, StateKeys, OrderAfter;
    ExecuteWrites(StateKeys(c, a), c, a, s);
  }

  lemma FilledOrderAfter(c: Context, a: Action, s: Store)
    requires a.FillOrder? && FillOrderSpec(c, a, s).Ok?
    requires OrderKey(a.order) in s && ValidOrder(s[OrderKey(a.order)].order)
    ensures GetOrder(FillOrderSpec(c, a, s).store, a.order) == OrderAfter(c, a, s, a.order)
  {
    var o := s[OrderKey(a.order)].order;
    QuoteAmounts(a, o);
    FillInTicks(o, a.value);
    hide Quote, SettleBalances, Ticks, MarshalOrderResult;
  }

  lemma FilledOrderNamed(c: Context, a: Action, s: Store, id: Id)
    requires a.FillOrder? && Execute(c, a, s).Ok? && OrderKey(id) in StateKeys(c, a)
    requires OrderKey(id) in s ==> EntrySound(c.toId, s, OrderKey(id))
    ensures GetOrder(Execute(c, a, s).store, id) == OrderAfter(c, a, s, id)
  {
    hide Quote, Settle, OrderAfter;
    FilledOrderAfter(c, a, s);
  }

  lemma NamedOrderAfter(c: Context, a: Action, s: Store, id: Id)
    requires !a.FillOrder? && Execute(c, a, s).Ok? && OrderKey(id) in StateKeys(c, a)
    ensures GetOrder(Execute(c, a, s).store, id) == OrderAfter(c, a, s, id)
  {
    hide ImportAssetSpec, ExportAssetSpec, SubBalance, AddBalance;
    if a.CreateOrder? {
      BalanceOnly(s, c.actor, a.outAsset, a.supply);
    } else if a.CloseOrder? {
      BalanceOnly(DeleteOrder(s, a.order), c.actor, a.outAsset, GetOrder(s, a.order).value.remaining);
    }
  }

  /** Every successful action leaves exactly the described order under every id. */
  lemma ExecuteOrders(c: Context, a: Action, s: Store, id: Id)
    requires Sound(c.toId, s) && Execute(c, a, s).Ok?
    ensures GetOrder(Execute(c, a, s).store, id) == OrderAfter(c, a, s, id)
  {
    assert OrderKey(id) in s ==> EntrySound(c.toId, s, OrderKey(id));
    hide Sound, EntrySound, Execute, StateKeys, OrderAfter;
    if OrderKey(id) !in StateKeys(c, a) {
      UnnamedOrder(c, a, s, id);
    } else if a.FillOrder? {
      FilledOrderNamed(c, a, s, id);
    } else {
      NamedOrderAfter(c, a, s, id);
    }
  }

  // ---- Everything else ----

  /** Heights and warp markers belong to hypersdk: no action touches them. */
  lemma ExecuteLeavesRest(c: Context, a: Action, s: Store, k: Key)
    requires k.HeightKey? || k.IncomingWarpKey? || k.OutgoingWarpKey?
    ensures var t := Execute(c, a, s).store; (k in t <==> k in s) && (k in s ==> t[k] == s[k])
  {
    assert k !in StateKeys(c, a);
    hide Execute, StateKeys;
    ExecuteWrites(StateKeys(c, a), c, a, s);
  }

  lemma PlainOutput(c: Context, a: Action, s: Store)
    requires !a.FillOrder? && Execute(c, a, s).Ok?
    ensures Execute(c, a, s).output == []
  {
  }

  /** What a successful action publishes: the amounts of a fill, 24 bytes of them, and nothing else. */
  lemma ExecuteOutput(c: Context, a: Action, s: Store)
    requires Sound(c.toId, s) && Execute(c, a, s).Ok?
    ensures Execute(c, a, s).output == if !a.FillOrder? then [] else
      var r := Filling(a, s); Uint64Bytes(r.paid) + Uint64Bytes(r.received) + Uint64Bytes(r.remaining)
  {
    if a.FillOrder? {
      QuoteAmounts(a, GetOrder(s, a.order).value);
      hide Quote, SettleBalances;
    } else {
      PlainOutput(c, a, s);
    }
  }

  // ---- What follows for the life of an asset ----

  /** The created asset reads back as asked, under the transaction id, owned by the signer. */
  lemma CreatedAssetIsSigners(c: Context, a: Action, s: Store)
    requires a.CreateAsset? && Execute(c, a, s).Ok?
    ensures GetAsset(Execute(c, a, s).store, c.txId) == Some(AssetRecord(a.metadata, 0, c.actor, false))
  {
  }

  /** On a reachable ledger, exactly the signer of its creation can go on to mint or modify an asset. */
  lemma OnlyCreatorControls(c: Context, a: Action, s: Store, fees: nat, d: Context, b: Action)
    requires a.CreateAsset? && Execute(c, a, s).Ok? && LedgerInv(c.toId, s, fees) && FreshId(s, c.txId)
    requires c.txId != EMPTY_ID && d.toId == c.toId
    requires (b.MintAsset? && b.value != 0) || (b.ModifyAsset? && |b.metadata| <= 256)
    requires b.asset == c.txId
    ensures Execute(d, b, Execute(c, a, s).store).Ok? <==> d.actor == c.actor
    ensures d.actor != c.actor ==> Execute(d, b, Execute(c, a, s).store) == Err(Execute(c, a, s).store, WrongOwner)
  {
    var t := Execute(c, a, s).store;
    CreatedAssetIsSigners(c, a, s);
    ExecuteConserves(c, a, s);
    ExecuteKeepsSound(c, a, s);
    ExecuteSucceedsIff(d, b, t, fees);
  }

  /** A return export keeps the record exactly when it leaves supply, under the old metadata and the lowered
      supply. */
  lemma ReturnKeepsRecordIff(c: Context, a: Action, s: Store)
    requires a.ExportAsset? && a.isReturn && Execute(c, a, s).Ok?
    ensures var t := Execute(c, a, s).store;
      && AssetKey(a.asset) in s
      && (AssetKey(a.asset) in t <==> a.value + a.reward < Supply(s, a.asset))
      && (AssetKey(a.asset) in t ==>
           var was, now := s[AssetKey(a.asset)].asset, t[AssetKey(a.asset)].asset;
           now.metadata == was.metadata && now.warp == was.warp && now.supply == was.supply - a.value - a.reward)
  {
  }

  /** A return export of the whole supply leaves no record, balance, order or loan of the asset behind. */
  lemma EmptiedAssetIsGone(c: Context, a: Action, s: Store, fees: nat)
    requires a.ExportAsset? && a.isReturn && LedgerInv(c.toId, s, fees) && FreshId(s, c.txId) && Execute(c, a, s).Ok?
    requires a.value + a.reward == Supply(s, a.asset)
    ensures var t := Execute(c, a, s).store;
      && AssetKey(a.asset) !in t
      && (forall p: PublicKey :: GetBalance(t, p, a.asset) == 0)
      && (forall o: Id :: OrderKey(o) in t ==> t[OrderKey(o)].order.outAsset != a.asset)
      && (forall d: Id :: LoanKey(a.asset, d) !in t)
  {
    var t := Execute(c, a, s).store;
    ReturnKeepsRecordIff(c, a, s);
    hide Execute;
    ExecuteConserves(c, a, s);
    ExecuteKeepsSound(c, a, s);
    assert LedgerInv(c.toId, t, fees);
    hide LedgerInv;
    MissingAssetIsNowhere(c.toId, t, fees, a.asset);
  }

  // ---- Whole transactions ----

  /** What an action does to entries depends on records and orders, not on balances. */
  lemma SameEntries(c: Context, a: Action, s: Store, t: Store, id: Id)
    requires OnlyBalances(s, t)
    ensures GetAsset(s, id) == GetAsset(t, id) && GetOrder(s, id) == GetOrder(t, id)
    ensures RecordAfter(c, a, s, id) == RecordAfter(c, a, t, id)
    ensures OrderAfter(c, a, s, id) == OrderAfter(c, a, t, id)
  {
  }

  /** An applied transaction leaves the records and orders its action describes if that succeeded, and the ones
      there were if it failed. */
  lemma TxEntries(e: Env, tx: Tx, s: Store, id: Id)
    requires Sound(e.toId, s) && ApplyTx(e, tx, s).Applied?
    ensures var c, r := ContextOf(e, tx), ApplyTx(e, tx, s);
      && GetAsset(r.store, id) == (if r.outcome.Ok? then RecordAfter(c, tx.action, s, id) else GetAsset(s, id))
      && GetOrder(r.store, id) == (if r.outcome.Ok? then OrderAfter(c, tx.action, s, id) else GetOrder(s, id))
  {
    var c, paid := ContextOf(e, tx), SubBalance(s, tx.signer, EMPTY_ID, tx.maxFee).store;
    var t := Committed(paid, Execute(c, tx.action, paid));
    ThenBalances(e.toId, s, s, paid);
    BalanceOnly(s, tx.signer, EMPTY_ID, tx.maxFee);
    BalanceOnly(t, tx.signer, EMPTY_ID, tx.refund);
    hide Sound, Execute, SubBalance, AddBalance, GetAsset, GetOrder, RecordAfter, OrderAfter, OnlyBalances;
    SameEntries(c, tx.action, s, paid, id);
    SameEntries(c, tx.action, t, ApplyTx(e, tx, s).store, id);
    if Execute(c, tx.action, paid).Ok? {
      ExecuteRecords(c, tx.action, paid, id);
      ExecuteOrders(c, tx.action, paid, id);
    }
  }

  function Share(b: bool, n: nat): nat { if b then n else 0 }

  /** What an action gains and costs depends on orders, not on balances. */
  lemma SameTerms(c: Context, a: Action, s: Store, t: Store, p: PublicKey, b: Id)
    requires OnlyBalances(s, t)
    ensures Gain(c, a, s, p, b) == Gain(c, a, t, p, b) && Cost(c, a, s, p, b) == Cost(c, a, t, p, b)
  {
  }

  /** Every applied transaction changes every balance by its action's gain and cost, if that succeeded, and the
      signer's native balance by the fee and the refund. */
  lemma TxMoves(e: Env, tx: Tx, s: Store, p: PublicKey, b: Id)
    requires Sound(e.toId, s) && ApplyTx(e, tx, s).Applied?
    ensures var c, r := ContextOf(e, tx), ApplyTx(e, tx, s);
      GetBalance(r.store, p, b) + Where(p, b, tx.signer, EMPTY_ID, tx.maxFee)
        + Share(r.outcome.Ok?, Cost(c, tx.action, s, p, b))
      == GetBalance(s, p, b) + Where(p, b, tx.signer, EMPTY_ID, tx.refund)
        + Share(r.outcome.Ok?, Gain(c, tx.action, s, p, b))
  {
    var c, paid := ContextOf(e, tx), SubBalance(s, tx.signer, EMPTY_ID, tx.maxFee).store;
    var o := Execute(c, tx.action, paid);
    ThenBalances(e.toId, s, s, paid);
    SameTerms(c, tx.action, s, paid, p, b);
    hide Sound, Execute, Cost, Gain;
    if o.Ok? { ExecuteMoves(c, tx.action, paid, p, b); }
  }
}

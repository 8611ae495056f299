/** What one action moves between a chain and the rest of the world: wrapped supply minted, burned and
    withdrawn, loans granted and released, the message it emits, and the ids it starts to use. */
module Flows {
  import opened Common
  import opened BigEndian
  import opened Warp
  import opened Ledger
  import opened Actions
  import opened Conservation
  import opened Soundness
  import opened Transactions
  import opened Payloads

  /** Supply an import adds to a wrapped asset. */
  function Minted(c: Context, a: Action, id: Id): nat {
    if a.ImportAsset? && !a.transfer.isReturn && id == ImportedAssetId(c.toId, a.transfer.asset, a.source)
    then a.transfer.value + a.transfer.reward else 0
  }

  function Burned(a: Action, id: Id): nat {
    if a.BurnAsset? && id == a.asset then a.value else 0
  }

  /** Supply a return export takes from a wrapped asset. */
  function Withdrawn(a: Action, id: Id): nat {
    if a.ExportAsset? && a.isReturn && id == a.asset then a.value + a.reward else 0
  }

  function Lent(a: Action, b: Id, d: Id): nat {
    if a.ExportAsset? && !a.isReturn && b == a.asset && d == a.destination then a.value + a.reward else 0
  }

  function Released(a: Action, b: Id, d: Id): nat {
    if a.ImportAsset? && a.transfer.isReturn && b == a.transfer.asset && d == a.source
    then a.transfer.value + a.transfer.reward else 0
  }

  /** No record other than a wrapped one sits at this id. */
  predicate Wrappable(s: Store, id: Id) {
    AssetKey(id) in s ==> s[AssetKey(id)].asset.warp
  }

  ghost predicate LoansMove(a: Action, s: Store, t: Store) {
    forall b: Id, d: Id :: GetLoan(t, b, d) + Released(a, b, d) == GetLoan(s, b, d) + Lent(a, b, d)
  }

  ghost predicate SupplyMoves(c: Context, a: Action, s: Store, t: Store) {
    forall id: Id | id != c.txId && Wrappable(s, id) ::
      Supply(t, id) + Burned(a, id) + Withdrawn(a, id) == Supply(s, id) + Minted(c, a, id)
  }

  /** A record in the new store was there before with the same origin, is named by the transaction id, or
      is that of the wrapped asset an import created. */
  predicate RecordExplained(c: Context, a: Action, s: Store, t: Store, id: Id)
    requires AssetKey(id) in t
  {
    var r := t[AssetKey(id)].asset;
    || (AssetKey(id) in s
        && var was := s[AssetKey(id)].asset; r.warp == was.warp && (r.warp ==> r.metadata == was.metadata))
    || (id == c.txId && !r.warp)
    || (a.ImportAsset? && r.warp && r.metadata == ImportedAssetMetadata(a.transfer.asset, a.source))
  }

  ghost predicate IdsExplained(c: Context, a: Action, s: Store, t: Store) {
    && (forall id: Id | AssetKey(id) in t :: RecordExplained(c, a, s, t, id))
    && (forall id: Id | OrderKey(id) in t :: OrderKey(id) in s || id == c.txId)
  }

  ghost predicate Flow(c: Context, a: Action, s: Store, t: Store) {
    LoansMove(a, s, t) && SupplyMoves(c, a, s, t) && IdsExplained(c, a, s, t)
  }

  // ---- Changes of balances carry no flow ----

  lemma BalancesCarryNoFlow(c: Context, a: Action, s: Store, t: Store, u: Store)
    requires Flow(c, a, s, t) && OnlyBalances(t, u)
    ensures Flow(c, a, s, u)
  {
  }

  lemma BalancesBeforeFlow(c: Context, a: Action, r: Store, s: Store, t: Store)
    requires OnlyBalances(r, s) && Flow(c, a, s, t)
    ensures Flow(c, a, r, t)
  {
  }

  // ---- One action at a time ----

  lemma RecordFlow(c: Context, a: Action, s: Store, id: Id, r: AssetRecord)
    requires |r.metadata| <= MAX_READABLE_METADATA && !a.ImportAsset? && !a.ExportAsset?
    requires AssetKey(id) in s ==>
      var was := s[AssetKey(id)].asset; r.warp == was.warp && (r.warp ==> r.metadata == was.metadata)
    requires AssetKey(id) !in s ==> id == c.txId && !r.warp
    requires id != c.txId && Wrappable(s, id) ==> r.supply + Burned(a, id) == Supply(s, id)
    requires forall b: Id | b != id :: Burned(a, b) == 0
    ensures Flow(c, a, s, SetAsset(s, id, r))
  {
  }

  lemma OnlyBalancesFlow(c: Context, a: Action, s: Store, t: Store)
    requires a.Transfer? || a.CreateOrder? || a.FillOrder? || a.CloseOrder?
    requires OnlyBalances(s, t)
    ensures Flow(c, a, s, t)
  {
  }

  lemma BalanceOnly(s: Store, owner: PublicKey, asset: Id, amount: uint64)
    ensures OnlyBalances(s, AddBalance(s, owner, asset, amount).store)
    ensures OnlyBalances(s, SubBalance(s, owner, asset, amount).store)
  {
  }

  lemma AssetActionFlow(c: Context, a: Action, s: Store)
    requires a.Transfer? || a.CreateAsset? || a.MintAsset? || a.BurnAsset? || a.ModifyAsset?
    requires Execute(c, a, s).Ok?
    requires FreshId(s, c.txId)
    ensures Flow(c, a, s, Execute(c, a, s).store)
  {
    hide Flow;
    match a
    case Transfer(to, asset, value) =>
      OnlyBalancesFlow(c, a, s, Execute(c, a, s).store);
    case CreateAsset(metadata) =>
      RecordFlow(c, a, s, c.txId, AssetRecord(metadata, 0, c.actor, false));
    case MintAsset(to, asset, value) =>
      var r := CheckMint(c, a, GetAsset(s, asset)).value;
      RecordFlow(c, a, s, asset, r);
      BalanceOnly(SetAsset(s, asset, r), to, asset, value);
      BalancesCarryNoFlow(c, a, s, SetAsset(s, asset, r), Execute(c, a, s).store);
    case BurnAsset(asset, value) =>
      var s1 := SubBalance(s, c.actor, asset, value).store;
      BalanceOnly(s, c.actor, asset, value);
      RecordFlow(c, a, s1, asset, CheckBurn(a, GetAsset(s1, asset)).value);
      BalancesBeforeFlow(c, a, s, s1, Execute(c, a, s).store);
    case ModifyAsset(asset, _, _) =>
      RecordFlow(c, a, s, asset, CheckModify(c, a, GetAsset(s, asset)).value);
  }

  /** An order written or deleted after some balances changed. */
  lemma OrderFlow(c: Context, a: Action, s: Store, s1: Store, order: Id, o: OrderRecord)
    requires a.CreateOrder? || a.FillOrder? || a.CloseOrder?
    requires OnlyBalances(s, s1) && (OrderKey(order) in s || order == c.txId)
    ensures Flow(c, a, s, SetOrder(s1, order, o))
    ensures Flow(c, a, s, DeleteOrder(s1, order))
  {
    OnlyBalancesFlow(c, a, s, s1);
    OrderWritten(c, a, s, s1, order, o);
  }

  lemma OrderWritten(c: Context, a: Action, s: Store, t: Store, order: Id, o: OrderRecord)
    requires Flow(c, a, s, t) && (OrderKey(order) in s || order == c.txId)
    ensures Flow(c, a, s, SetOrder(t, order, o))
    ensures Flow(c, a, s, DeleteOrder(t, order))
  {
    var u, v := SetOrder(t, order, o), DeleteOrder(t, order);
    OrdersCarryNoFlow(c, a, s, t, u);
    OrdersCarryNoFlow(c, a, s, t, v);
  }

  lemma OrdersCarryNoFlow(c: Context, a: Action, s: Store, t: Store, u: Store)
    requires Flow(c, a, s, t)
    requires forall k: Key | k.AssetKey? || k.LoanKey? :: (k in t <==> k in u) && (k in t ==> t[k] == u[k])
    requires forall id: Id | OrderKey(id) in u :: OrderKey(id) in s || id == c.txId
    ensures Flow(c, a, s, u)
  {
    forall id: Id ensures Supply(u, id) == Supply(t, id) { assert AssetKey(id) in u <==> AssetKey(id) in t; }
    forall b: Id, d: Id ensures GetLoan(u, b, d) == GetLoan(t, b, d) {
      assert LoanKey(b, d) in u <==> LoanKey(b, d) in t;
    }
    forall id: Id | AssetKey(id) in u ensures RecordExplained(c, a, s, u, id) {
      assert AssetKey(id) in t && RecordExplained(c, a, s, t, id);
    }
  }

  lemma SettleBalancesOnly(actor: PublicKey, o: OrderRecord, r: OrderResult, s: Store)
    ensures OnlyBalances(s, SettleBalances(actor, o, r, s).store)
  {
  }

  lemma FillFlow(c: Context, a: Action, s: Store)
    requires a.FillOrder? && FillOrderSpec(c, a, s).Ok?
    ensures Flow(c, a, s, FillOrderSpec(c, a, s).store)
  {
    var o := GetOrder(s, a.order).value;
    hide Flow, OnlyBalances, SettleBalances, Quote;
    var r := Quote(a, o).value;
    var s1 := SettleBalances(c.actor, o, r, s).store;
    SettleBalancesOnly(c.actor, o, r, s);
    OrderFlow(c, a, s, s1, a.order, o.(remaining := r.remaining));
  }

  lemma OrderActionFlow(c: Context, a: Action, s: Store)
    requires a.CreateOrder? || a.FillOrder? || a.CloseOrder?
    requires Execute(c, a, s).Ok?
    ensures Flow(c, a, s, Execute(c, a, s).store)
  {
    hide Flow, OnlyBalances, AddBalance, SubBalance, FillOrderSpec;
    match a
    case CreateOrder(inAsset, inTick, outAsset, outTick, supply) =>
      var s1 := SubBalance(s, c.actor, outAsset, supply).store;
      BalanceOnly(s, c.actor, outAsset, supply);
      OrderFlow(c, a, s, s1, c.txId, OrderRecord(inAsset, inTick, outAsset, outTick, supply, c.actor));
    case FillOrder(_, _, _, _, _) => FillFlow(c, a, s);
    case CloseOrder(order, outAsset) =>
      var o := GetOrder(s, order).value;
      NoBalances(s);
      OrderFlow(c, a, s, s, order, o);
      BalanceOnly(DeleteOrder(s, order), c.actor, outAsset, o.remaining);
      BalancesCarryNoFlow(c, a, s, DeleteOrder(s, order), Execute(c, a, s).store);
  }

  lemma NoBalances(s: Store)
    ensures OnlyBalances(s, s)
  {
  }

  lemma MintRecordFlow(c: Context, a: Action, s: Store, r: AssetRecord)
    requires a.ImportAsset? && !a.transfer.isReturn
    requires var id := ImportedAssetId(c.toId, a.transfer.asset, a.source);
      MintRecord(a.transfer, a.source, GetAsset(s, id)) == Accept(r)
    ensures Flow(c, a, s, SetAsset(s, ImportedAssetId(c.toId, a.transfer.asset, a.source), r))
  {
  }

  lemma PayOnly(s: Store, actor: PublicKey, w: WarpTransfer, asset: Id)
    ensures OnlyBalances(s, Pay(s, actor, w, asset).store)
  {
  }

  lemma MintFlow(c: Context, a: Action, s: Store)
    requires a.ImportAsset? && !a.transfer.isReturn && ExecuteMint(c, a.transfer, a.source, s).Ok?
    ensures Flow(c, a, s, ExecuteMint(c, a.transfer, a.source, s).store)
  {
    hide Flow, OnlyBalances, Pay, GetAsset;
    var w := a.transfer;
    var id := ImportedAssetId(c.toId, w.asset, a.source);
    var r := MintRecord(w, a.source, GetAsset(s, id)).value;
    MintRecordFlow(c, a, s, r);
    PayOnly(SetAsset(s, id, r), c.actor, w, id);
    BalancesCarryNoFlow(c, a, s, SetAsset(s, id, r), Pay(SetAsset(s, id, r), c.actor, w, id).store);
  }

  lemma ReleaseFlow(c: Context, a: Action, s: Store)
    requires a.ImportAsset? && a.transfer.isReturn && ImportReturn(c, a.transfer, a.source, s).Ok?
    ensures Flow(c, a, s, ImportReturn(c, a.transfer, a.source, s).store)
  {
    var t, w := ImportReturn(c, a.transfer, a.source, s).store, a.transfer;
    assert OnlyLoan(s, t, w.asset, a.source);
    assert GetLoan(t, w.asset, a.source) == GetLoan(s, w.asset, a.source) - w.value - w.reward;
    LoanOnlyFlow(c, a, s, t, w.asset, a.source);
  }

  /** Stores that differ in balances and one loan. */
  ghost predicate OnlyLoan(s: Store, t: Store, b: Id, d: Id) {
    forall k: Key | !k.BalanceKey? && k != LoanKey(b, d) :: (k in s <==> k in t) && (k in s ==> s[k] == t[k])
  }

  lemma LoanOnlyFlow(c: Context, a: Action, s: Store, t: Store, b: Id, d: Id)
    requires OnlyLoan(s, t, b, d) && GetLoan(t, b, d) + Released(a, b, d) == GetLoan(s, b, d) + Lent(a, b, d)
    requires (a.ImportAsset? && a.transfer.isReturn && b == a.transfer.asset && d == a.source)
          || (a.ExportAsset? && !a.isReturn && b == a.asset && d == a.destination)
    ensures Flow(c, a, s, t)
  {
  }

  lemma ImportFlow(c: Context, a: Action, s: Store)
    requires a.ImportAsset? && ImportAssetSpec(c, a, s).Ok?
    ensures Flow(c, a, s, ImportAssetSpec(c, a, s).store)
  {
    var t := Credit(c, a.transfer, a.source, s).store;
    if a.transfer.isReturn { ReleaseFlow(c, a, s); } else { MintFlow(c, a, s); }
    SwapOnlyBalances(c, a.transfer, AssetIn(c.toId, a.transfer, a.source), t);
    BalancesCarryNoFlow(c, a, s, t, ImportAssetSpec(c, a, s).store);
  }

  lemma WriteSupplyFlow(c: Context, a: Action, s: Store, r: AssetRecord)
    requires a.ExportAsset? && a.isReturn && GetAsset(s, a.asset) == Some(r) && r.warp && a.value + a.reward <= r.supply
    requires |r.metadata| <= MAX_READABLE_METADATA
    ensures Flow(c, a, s, WriteSupply(s, a.asset, r.metadata, r.supply - a.value - a.reward))
  {
  }

  lemma WithdrawFlow(c: Context, a: Action, s: Store)
    requires a.ExportAsset? && a.isReturn && ExecuteReturn(c, a, s).Ok?
    ensures Flow(c, a, s, ExecuteReturn(c, a, s).store)
  {
    hide Flow, OnlyBalances, WriteSupply, Debit, ExecuteReturn, GetAsset;
    var r := WithdrawSteps(c, a, s);
    WriteSupplyFlow(c, a, s, r);
    var s1 := WriteSupply(s, a.asset, r.metadata, r.supply - a.value - a.reward);
    DebitOnly(s1, c.actor, a.asset, a.value, a.reward);
    BalancesCarryNoFlow(c, a, s, s1, ExecuteReturn(c, a, s).store);
  }

  lemma LendOnly(s: Store, owner: PublicKey, asset: Id, destination: Id, amount: uint64)
    ensures OnlyLoan(s, Lend(s, owner, asset, destination, amount).store, asset, destination)
    ensures Lend(s, owner, asset, destination, amount).Ok? ==>
      GetLoan(Lend(s, owner, asset, destination, amount).store, asset, destination)
        == GetLoan(s, asset, destination) + amount
  {
  }

  lemma LendBothOnly(s: Store, owner: PublicKey, asset: Id, destination: Id, value: uint64, reward: uint64)
    ensures OnlyLoan(s, LendBoth(s, owner, asset, destination, value, reward).store, asset, destination)
    ensures LendBoth(s, owner, asset, destination, value, reward).Ok? ==>
      GetLoan(LendBoth(s, owner, asset, destination, value, reward).store, asset, destination)
        == GetLoan(s, asset, destination) + value + reward
  {
    hide Lend;
    LendOnly(s, owner, asset, destination, value);
    LendOnly(Lend(s, owner, asset, destination, value).store, owner, asset, destination, reward);
  }

  lemma LendFlow(c: Context, a: Action, s: Store)
    requires a.ExportAsset? && !a.isReturn && ExecuteLoan(c, a, s).Ok?
    ensures Flow(c, a, s, ExecuteLoan(c, a, s).store)
  {
    hide LendBoth, Flow, OnlyLoan, ExportedTransfer, GetLoan;
    LendBothOnly(s, c.actor, a.asset, a.destination, a.value, a.reward);
    LoanOnlyFlow(c, a, s, ExecuteLoan(c, a, s).store, a.asset, a.destination);
  }

  lemma ExecuteFlow(c: Context, a: Action, s: Store)
    requires FreshId(s, c.txId) && Execute(c, a, s).Ok?
    ensures Flow(c, a, s, Execute(c, a, s).store)
  {
    hide Flow;
    match a
    case ImportAsset(_, _, _) => ImportFlow(c, a, s);
    case ExportAsset(_, _, _, _, _, _, _, _, _, _) =>
      if a.isReturn { WithdrawFlow(c, a, s); } else { LendFlow(c, a, s); }
    case CreateOrder(_, _, _, _, _) => OrderActionFlow(c, a, s);
    case FillOrder(_, _, _, _, _) => OrderActionFlow(c, a, s);
    case CloseOrder(_, _) => OrderActionFlow(c, a, s);
    case _ => AssetActionFlow(c, a, s);
  }

  // ---- Messages ----

  /** The message of an export: a loan announces the asset itself, which is not wrapped; a return
      announces the asset its wrapped asset was made from, to the chain it was made on. */
  predicate Announces(c: Context, a: Action, s: Store, m: OutgoingMessage)
    requires a.ExportAsset?
  {
    && a.value != 0
    && m.destination == a.destination
    && Conveys(c, a, m.transfer)
    && AssetKey(a.asset) in s
    && (if a.isReturn then s[AssetKey(a.asset)].asset.warp
             && s[AssetKey(a.asset)].asset.metadata == ImportedAssetMetadata(m.transfer.asset, a.destination)
        else m.transfer.asset == a.asset && !s[AssetKey(a.asset)].asset.warp)
  }

  lemma ReturnAnnounces(c: Context, a: Action, s: Store)
    requires a.ExportAsset? && a.isReturn && ExportAssetSpec(c, a, s).Ok?
    ensures ExportAssetSpec(c, a, s).message.Some? && Announces(c, a, s, ExportAssetSpec(c, a, s).message.value)
  {
    hide Debit, WriteSupply;
    MetadataIsImported(GetAsset(s, a.asset).value.metadata);
    MetadataDecodes(BytesId(GetAsset(s, a.asset).value.metadata[..ID_LEN]), a.destination);
  }

  lemma LoanAnnounces(c: Context, a: Action, s: Store)
    requires a.ExportAsset? && !a.isReturn && ExportAssetSpec(c, a, s).Ok?
    ensures ExportAssetSpec(c, a, s).message.Some? && Announces(c, a, s, ExportAssetSpec(c, a, s).message.value)
  {
  }

  lemma NoExportNoMessage(c: Context, a: Action, s: Store)
    requires !a.ExportAsset? && Execute(c, a, s).Ok?
    ensures Execute(c, a, s).message == None
  {
    hide SubBalance, Credit, SettleBalances;
  }

  /** Exactly the successful exports send a message. */
  lemma ExecuteAnnounces(c: Context, a: Action, s: Store)
    requires Execute(c, a, s).Ok?
    ensures Execute(c, a, s).message.Some? <==> a.ExportAsset?
    ensures a.ExportAsset? ==> Announces(c, a, s, Execute(c, a, s).message.value)
  {
    hide Announces, ExportAssetSpec;
    if !a.ExportAsset? {
      NoExportNoMessage(c, a, s);
    } else if a.isReturn {
      ReturnAnnounces(c, a, s);
    } else {
      LoanAnnounces(c, a, s);
    }
  }

  // ---- Whole transactions ----

  /** The flow and the message of a transaction are those of its action when it succeeds; a failed
      transaction moves balances only. */
  lemma TxFlow(e: Env, tx: Tx, s: Store)
    requires FreshId(s, tx.id) && ApplyTx(e, tx, s).Applied?
    ensures var c, r := ContextOf(e, tx), ApplyTx(e, tx, s);
      if r.outcome.Ok? then
        && Flow(c, tx.action, s, r.store)
        && (r.outcome.message.Some? <==> tx.action.ExportAsset?)
        && (tx.action.ExportAsset? ==> Announces(c, tx.action, s, r.outcome.message.value))
        && (tx.action.ImportAsset? ==> e.warpVerified)
      else OnlyBalances(s, r.store)
  {
    var c := ContextOf(e, tx);
    var s1 := SubBalance(s, tx.signer, EMPTY_ID, tx.maxFee).store;
    var o := Execute(c, tx.action, s1);
    var s2 := Committed(s1, o);
    BalanceOnly(s, tx.signer, EMPTY_ID, tx.maxFee);
    BalanceOnly(s2, tx.signer, EMPTY_ID, tx.refund);
    hide Flow, Execute;
    if o.Ok? {
      ExecuteFlow(c, tx.action, s1);
      ExecuteAnnounces(c, tx.action, s1);
      BalancesBeforeFlow(c, tx.action, s, s1, s2);
      BalancesCarryNoFlow(c, tx.action, s, s2, ApplyTx(e, tx, s).store);
      ImportIsVerified(c, tx.action, s1);
    }
  }

  lemma ImportIsVerified(c: Context, a: Action, s: Store)
    requires Execute(c, a, s).Ok?
    ensures a.ImportAsset? ==> c.warpVerified
  {
  }
}

/** Who may change what: only the signer of a transaction can end up with less, only its owner changes an
    asset, and only its owner takes an order back. */
module Authority {
  import opened Common
  import opened Warp
  import opened Ledger
  import opened Actions
  import opened Conservation
  import opened Orders
  import opened Soundness
  import opened Payloads
  import opened Effects
  import opened Entries

  // ---- Balances ----

  /** Nobody but the signer ends any successful, deserialized action with a smaller balance: the recipient of
      an import gives up no more than the import brought. */
  lemma OnlySignerPays(c: Context, a: Action, s: Store, p: PublicKey, b: Id)
    requires WellFormed(a) && Sound(c.toId, s) && Execute(c, a, s).Ok? && p != c.actor
    ensures GetBalance(s, p, b) <= GetBalance(Execute(c, a, s).store, p, b)
  {
    hide Execute, Sound;
    ExecuteMoves(c, a, s, p, b);
    CostIsCovered(c, a, s, p, b);
  }

  lemma CostIsCovered(c: Context, a: Action, s: Store, p: PublicKey, b: Id)
    requires WellFormed(a) && p != c.actor
    ensures Cost(c, a, s, p, b) <= Gain(c, a, s, p, b)
  {
  }

  // ---- Records ----

  lemma OwnerActs(c: Context, a: Action, s: Store)
    requires a.MintAsset? || a.ModifyAsset?
    requires Execute(c, a, s).Ok?
    ensures AssetKey(a.asset) in s && c.actor == s[AssetKey(a.asset)].asset.owner && !s[AssetKey(a.asset)].asset.warp
  {
  }

  lemma WrappedOnly(c: Context, a: Action, s: Store)
    requires Execute(c, a, s).Ok?
    ensures a.ImportAsset? && !a.transfer.isReturn ==>
      var k := AssetKey(ImportedAssetId(c.toId, a.transfer.asset, a.source)); k in s ==> s[k].asset.warp
    ensures a.ExportAsset? && a.isReturn ==> AssetKey(a.asset) in s && s[AssetKey(a.asset)].asset.warp
  {
  }

  /** The record of an asset that is not wrapped stays, and changes by minting, burning and modifying only,
      exactly as asked; minting and modifying are its owner's alone. */
  lemma OnlyOwnerChanges(c: Context, a: Action, s: Store, id: Id)
    requires FreshId(s, c.txId) && Execute(c, a, s).Ok? && AssetKey(id) in s && !s[AssetKey(id)].asset.warp
    ensures GetAsset(Execute(c, a, s).store, id) == RecordAfter(c, a, s, id) != None
    ensures GetAsset(Execute(c, a, s).store, id) != GetAsset(s, id) ==>
      (a.MintAsset? || a.BurnAsset? || a.ModifyAsset?) && a.asset == id
      && (!a.BurnAsset? ==> c.actor == s[AssetKey(id)].asset.owner)
  {
    ExecuteRecords(c, a, s, id);
    WrappedOnly(c, a, s);
    if a.MintAsset? || a.ModifyAsset? { OwnerActs(c, a, s); }
    hide Execute;
  }

  // ---- Orders ----

  /** An open order changes only by a fill that pays its owner, or by its owner closing it. */
  lemma OnlyOwnerCloses(c: Context, a: Action, s: Store, order: Id)
    requires Sound(c.toId, s) && order != c.txId && OrderKey(order) in s && Execute(c, a, s).Ok?
    requires GetOrder(Execute(c, a, s).store, order) != GetOrder(s, order)
    ensures a.FillOrder? || a.CloseOrder?
    ensures a.order == order
    ensures a.CloseOrder? ==> c.actor == s[OrderKey(order)].order.owner
    ensures a.FillOrder? && c.actor != a.owner ==>
      a.owner == s[OrderKey(order)].order.owner
      && GetBalance(s, a.owner, a.inAsset) < GetBalance(Execute(c, a, s).store, a.owner, a.inAsset)
  {
    ExecuteOrders(c, a, s, order);
    if a.FillOrder? { FillPaysOwner(c, a, s); }
  }

  lemma FillPaysOwner(c: Context, a: Action, s: Store)
    requires a.FillOrder? && Sound(c.toId, s) && FillOrderSpec(c, a, s).Ok?
    ensures OrderKey(a.order) in s && a.owner == s[OrderKey(a.order)].order.owner
    ensures c.actor != a.owner ==>
      GetBalance(s, a.owner, a.inAsset) < GetBalance(FillOrderSpec(c, a, s).store, a.owner, a.inAsset)
  {
    assert OrderKey(a.order) in s && EntrySound(c.toId, s, OrderKey(a.order));
    FillAtExactPrice(c, a, s, GetOrder(s, a.order).value);
    FillMoves(c, a, s, a.owner, a.inAsset);
  }
}

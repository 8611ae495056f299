/** The shape every reachable store has, entry by entry, and its preservation by every action. */
module Soundness {
  import opened Common
  import opened BigEndian
  import opened Warp
  import opened Ledger
  import opened Actions
  import opened Conservation
  import opened Orders

  /** A wrapped asset records its origin, sits at the id derived from that origin, and has no owner;
      every other record is readable and no larger than allowed. */
  predicate RecordSound(toId: Hash, id: Id, r: AssetRecord) {
    && |r.metadata| <= MAX_METADATA_SIZE
    && (r.warp ==> |r.metadata| == 2 * ID_LEN && toId(r.metadata) == id && r.owner == EMPTY_PUBLIC_KEY)
  }

  predicate EntrySound(toId: Hash, s: Store, k: Key)
    requires k in s
  {
    match k
    case AssetKey(id) => RecordSound(toId, id, s[k].asset)
    case OrderKey(_) => ValidOrder(s[k].order)
    case LoanKey(a, _) => 0 < s[k].n && AssetKey(a) in s && !s[AssetKey(a)].asset.warp
    case _ => true
  }

  ghost predicate Sound(toId: Hash, s: Store) {
    && AssetKey(EMPTY_ID) in s && !s[AssetKey(EMPTY_ID)].asset.warp
    && forall k :: k in s ==> EntrySound(toId, s, k)
  }

  /** An asset is of one kind for as long as its record exists; only wrapped assets lose their record. */
  ghost predicate KindsKept(s: Store, t: Store) {
    forall id: Id :: AssetKey(id) in s ==>
      if AssetKey(id) in t then t[AssetKey(id)].asset.warp == s[AssetKey(id)].asset.warp
      else s[AssetKey(id)].asset.warp
  }

  ghost predicate KeepsSound(toId: Hash, s: Store, t: Store) {
    Sound(toId, t) && KindsKept(s, t)
  }

  // ---- One operation at a time, after any operations that kept the store sound ----

  /** The two stores differ in balances only. */
  ghost predicate OnlyBalances(s: Store, t: Store) {
    forall k: Key | !k.BalanceKey? :: (k in s <==> k in t) && (k in s ==> s[k] == t[k])
  }

  lemma ThenBalances(toId: Hash, s0: Store, s: Store, t: Store)
    requires KeepsSound(toId, s0, s) && OnlyBalances(s, t)
    ensures KeepsSound(toId, s0, t)
  {
  }

  lemma ThenSubLoan(toId: Hash, s0: Store, s: Store, asset: Id, destination: Id, amount: uint64)
    requires KeepsSound(toId, s0, s)
    ensures KeepsSound(toId, s0, SubLoan(s, asset, destination, amount).store)
  {
  }

  lemma SetAssetSound(toId: Hash, s: Store, id: Id, r: AssetRecord)
    requires Sound(toId, s) && RecordSound(toId, id, r)
    requires AssetKey(id) in s ==> s[AssetKey(id)].asset.warp == r.warp
    ensures KeepsSound(toId, s, SetAsset(s, id, r))
  {
  }

  lemma DeleteAssetSound(toId: Hash, s: Store, id: Id)
    requires Sound(toId, s) && AssetKey(id) in s && s[AssetKey(id)].asset.warp
    ensures KeepsSound(toId, s, DeleteAsset(s, id))
  {
  }

  lemma ThenDeleteOrder(toId: Hash, s0: Store, s: Store, order: Id)
    requires KeepsSound(toId, s0, s)
    ensures KeepsSound(toId, s0, DeleteOrder(s, order))
  {
  }

  lemma ThenSetOrder(toId: Hash, s0: Store, s: Store, order: Id, r: OrderRecord)
    requires KeepsSound(toId, s0, s) && ValidOrder(r)
    ensures KeepsSound(toId, s0, SetOrder(s, order, r))
  {
  }

  // ---- One action at a time ----

  lemma MintAssetSound(c: Context, a: Action, s: Store)
    requires a.MintAsset? && Sound(c.toId, s) && MintAssetSpec(c, a, s).Ok?
    ensures KeepsSound(c.toId, s, MintAssetSpec(c, a, s).store)
  {
  }

  lemma BurnAssetSound(c: Context, a: Action, s: Store)
    requires a.BurnAsset? && Sound(c.toId, s) && BurnAssetSpec(c, a, s).Ok?
    ensures KeepsSound(c.toId, s, BurnAssetSpec(c, a, s).store)
  {
  }

  lemma AssetActionSound(c: Context, a: Action, s: Store)
    requires a.Transfer? || a.CreateAsset? || a.MintAsset? || a.BurnAsset? || a.ModifyAsset?
    requires Sound(c.toId, s) && FreshId(s, c.txId) && Execute(c, a, s).Ok?
    ensures KeepsSound(c.toId, s, Execute(c, a, s).store)
  {
    hide MintAssetSpec, BurnAssetSpec;
    match a
    case Transfer(_, _, _) =>
      ThenBalances(c.toId, s, s, Execute(c, a, s).store);
    case CreateAsset(metadata) =>
      SetAssetSound(c.toId, s, c.txId, AssetRecord(metadata, 0, c.actor, false));
    case MintAsset(_, _, _) => MintAssetSound(c, a, s);
    case BurnAsset(_, _) => BurnAssetSound(c, a, s);
    case ModifyAsset(asset, _, _) =>
      SetAssetSound(c.toId, s, asset, CheckModify(c, a, GetAsset(s, asset)).value);
  }

  lemma CreateOrderSound(c: Context, a: Action, s: Store)
    requires a.CreateOrder? && Sound(c.toId, s) && CreateOrderSpec(c, a, s).Ok?
    ensures KeepsSound(c.toId, s, CreateOrderSpec(c, a, s).store)
  {
  }

  lemma SettleSound(toId: Hash, actor: PublicKey, order: Id, o: OrderRecord, r: OrderResult, s: Store)
    requires Sound(toId, s) && Settle(actor, order, o, r, s).Ok?
    requires r.remaining != 0 ==> ValidOrder(o.(remaining := r.remaining))
    ensures KeepsSound(toId, s, Settle(actor, order, o, r, s).store)
  {
    var s1 := SettleBalances(actor, o, r, s).store;
    ThenBalances(toId, s, s, s1);
    if r.remaining == 0 {
      ThenDeleteOrder(toId, s, s1, order);
    } else {
      ThenSetOrder(toId, s, s1, order, o.(remaining := r.remaining));
    }
  }

  lemma FillOrderSound(c: Context, a: Action, s: Store)
    requires a.FillOrder? && Sound(c.toId, s) && FillOrderSpec(c, a, s).Ok?
    ensures KeepsSound(c.toId, s, FillOrderSpec(c, a, s).store)
  {
    assert OrderKey(a.order) in s;
    var o := GetOrder(s, a.order).value;
    QuoteAmounts(a, o);
    AmountsAtPrice(o, a.value);
    SettleSound(c.toId, c.actor, a.order, o, Quote(a, o).value, s);
  }

  lemma CloseOrderSound(c: Context, a: Action, s: Store)
    requires a.CloseOrder? && Sound(c.toId, s) && CloseOrderSpec(c, a, s).Ok?
    ensures KeepsSound(c.toId, s, CloseOrderSpec(c, a, s).store)
  {
  }

  lemma ExecuteMintSound(c: Context, w: WarpTransfer, source: Id, s: Store)
    requires Sound(c.toId, s) && ExecuteMint(c, w, source, s).Ok?
    ensures KeepsSound(c.toId, s, ExecuteMint(c, w, source, s).store)
  {
    var asset := ImportedAssetId(c.toId, w.asset, source);
    assert AssetKey(asset) in s ==> EntrySound(c.toId, s, AssetKey(asset));
    var r := MintRecord(w, source, GetAsset(s, asset)).value;
    SetAssetSound(c.toId, s, asset, r);
    ThenBalances(c.toId, s, SetAsset(s, asset, r), ExecuteMint(c, w, source, s).store);
  }

  lemma ImportReturnSound(c: Context, w: WarpTransfer, source: Id, s: Store)
    requires Sound(c.toId, s) && ImportReturn(c, w, source, s).Ok?
    ensures KeepsSound(c.toId, s, ImportReturn(c, w, source, s).store)
  {
    var s1 := SubLoan(s, w.asset, source, w.value).store;
    ThenSubLoan(c.toId, s, s, w.asset, source, w.value);
    var s2 := AddBalance(s1, w.to, w.asset, w.value).store;
    ThenBalances(c.toId, s, s1, s2);
    if w.reward > 0 {
      ThenSubLoan(c.toId, s, s2, w.asset, source, w.reward);
      var s3 := SubLoan(s2, w.asset, source, w.reward).store;
      ThenBalances(c.toId, s, s3, AddBalance(s3, c.actor, w.asset, w.reward).store);
    }
  }

  lemma SwapOnlyBalances(c: Context, w: WarpTransfer, assetIn: Id, s: Store)
    ensures OnlyBalances(s, SwapAssets(c, w, assetIn, s).store)
  {
  }

  lemma CreditSound(c: Context, w: WarpTransfer, source: Id, s: Store)
    requires Sound(c.toId, s) && Credit(c, w, source, s).Ok?
    ensures KeepsSound(c.toId, s, Credit(c, w, source, s).store)
  {
    if w.isReturn { ImportReturnSound(c, w, source, s); } else { ExecuteMintSound(c, w, source, s); }
  }

  lemma AfterCreditSound(c: Context, a: Action, s0: Store, s: Store)
    requires a.ImportAsset? && KeepsSound(c.toId, s0, s) && AfterCredit(c, a, s).Ok?
    ensures KeepsSound(c.toId, s0, AfterCredit(c, a, s).store)
  {
    SwapOnlyBalances(c, a.transfer, AssetIn(c.toId, a.transfer, a.source), s);
    ThenBalances(c.toId, s0, s, AfterCredit(c, a, s).store);
  }

  lemma ImportAssetSound(c: Context, a: Action, s: Store)
    requires a.ImportAsset? && Sound(c.toId, s) && ImportAssetSpec(c, a, s).Ok?
    ensures KeepsSound(c.toId, s, ImportAssetSpec(c, a, s).store)
  {
    var o := Credit(c, a.transfer, a.source, s);
    assert o.Ok?;
    CreditSound(c, a.transfer, a.source, s);
    AfterCreditSound(c, a, s, o.store);
  }

  lemma DebitOnly(s: Store, owner: PublicKey, asset: Id, value: uint64, reward: uint64)
    ensures OnlyBalances(s, Debit(s, owner, asset, value, reward).store)
  {
  }

  lemma WithdrawSteps(c: Context, a: Action, s: Store) returns (r: AssetRecord)
    requires a.ExportAsset? && a.isReturn && ExecuteReturn(c, a, s).Ok?
    ensures GetAsset(s, a.asset) == Some(r) && r.warp && a.value + a.reward <= r.supply
    ensures |r.metadata| <= MAX_READABLE_METADATA
    ensures var s1 := WriteSupply(s, a.asset, r.metadata, r.supply - a.value - a.reward);
      var debited := Debit(s1, c.actor, a.asset, a.value, a.reward);
      debited.Ok? && ExecuteReturn(c, a, s).store == debited.store
  {
    hide WriteSupply, Debit, BytesId, ExportedTransfer;
    r := GetAsset(s, a.asset).value;
  }

  lemma ExecuteReturnSound(c: Context, a: Action, s: Store)
    requires a.ExportAsset? && Sound(c.toId, s) && a.isReturn && ExecuteReturn(c, a, s).Ok?
    ensures KeepsSound(c.toId, s, ExecuteReturn(c, a, s).store)
  {
    hide ExecuteReturn, Debit, OnlyBalances;
    var r := WithdrawSteps(c, a, s);
    assert AssetKey(a.asset) in s && EntrySound(c.toId, s, AssetKey(a.asset));
    var supply := r.supply - a.value - a.reward;
    var s1 := WriteSupply(s, a.asset, r.metadata, supply);
    if supply > 0 {
      SetAssetSound(c.toId, s, a.asset, AssetRecord(r.metadata, supply, EMPTY_PUBLIC_KEY, true));
    } else {
      DeleteAssetSound(c.toId, s, a.asset);
    }
    hide Sound, KeepsSound;
    DebitOnly(s1, c.actor, a.asset, a.value, a.reward);
    ThenBalances(c.toId, s, s1, ExecuteReturn(c, a, s).store);
  }

  lemma ThenLend(toId: Hash, s0: Store, s: Store, owner: PublicKey, asset: Id, destination: Id, amount: uint64)
    requires KeepsSound(toId, s0, s) && 0 < amount && AssetKey(asset) in s && !s[AssetKey(asset)].asset.warp
    requires Lend(s, owner, asset, destination, amount).Ok?
    ensures KeepsSound(toId, s0, Lend(s, owner, asset, destination, amount).store)
  {
  }

  lemma ExecuteLoanSound(c: Context, a: Action, s: Store)
    requires a.ExportAsset? && a.value != 0 && Sound(c.toId, s) && ExecuteLoan(c, a, s).Ok?
    ensures KeepsSound(c.toId, s, ExecuteLoan(c, a, s).store)
  {
    ThenLend(c.toId, s, s, c.actor, a.asset, a.destination, a.value);
    if a.reward > 0 {
      ThenLend(c.toId, s, Lend(s, c.actor, a.asset, a.destination, a.value).store,
               c.actor, a.asset, a.destination, a.reward);
    }
  }

  /** Every successful action keeps the store sound, never turns a wrapped asset into a native one or
      back, and deletes no record but that of a wrapped asset. */
  lemma ExecuteKeepsSound(c: Context, a: Action, s: Store)
    requires Sound(c.toId, s) && FreshId(s, c.txId) && Execute(c, a, s).Ok?
    ensures KeepsSound(c.toId, s, Execute(c, a, s).store)
  {
    match a
    case CreateOrder(_, _, _, _, _) => CreateOrderSound(c, a, s);
    case FillOrder(_, _, _, _, _) => FillOrderSound(c, a, s);
    case CloseOrder(_, _) => CloseOrderSound(c, a, s);
    case ImportAsset(_, _, _) => ImportAssetSound(c, a, s);
    case ExportAsset(_, _, _, _, _, _, _, _, _, _) =>
      if a.isReturn { ExecuteReturnSound(c, a, s); } else { ExecuteLoanSound(c, a, s); }
    case _ => AssetActionSound(c, a, s);
  }

  lemma ReturnNeverPanics(c: Context, a: Action, s: Store)
    requires a.ExportAsset? && Sound(c.toId, s)
    ensures !ExecuteReturn(c, a, s).Panic?
  {
  }

  lemma ImportNeverPanics(c: Context, a: Action, s: Store)
    requires a.ImportAsset?
    ensures !ImportAssetSpec(c, a, s).Panic?
  {
  }

  /** No action panics on a sound store: no division by a zero tick, no slice out of range. */
  lemma ExecuteNeverPanics(c: Context, a: Action, s: Store)
    requires Sound(c.toId, s)
    ensures !Execute(c, a, s).Panic?
  {
    match a
    case FillOrder(_, _, _, _, _) => FillNeverFree(c, a, s);
    case ImportAsset(_, _, _) => ImportNeverPanics(c, a, s);
    case ExportAsset(_, _, _, _, _, _, _, _, _, _) => ReturnNeverPanics(c, a, s);
    case _ =>
  }

  /** A return export names the asset and the chain its wrapped asset came from. */
  lemma ReturnGoesHome(c: Context, a: Action, s: Store)
    requires a.ExportAsset? && Sound(c.toId, s) && ExecuteReturn(c, a, s).Ok?
    ensures var m := ExecuteReturn(c, a, s).message;
      m.Some? && m.value.destination == a.destination
      && a.asset == ImportedAssetId(c.toId, m.value.transfer.asset, a.destination)
      && m.value.transfer.isReturn == a.isReturn
  {
    assert AssetKey(a.asset) in s;
    var r := GetAsset(s, a.asset).value;
    MetadataIsImported(r.metadata);
  }
}

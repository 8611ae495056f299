/** Who pays and who receives: the exact change of every balance by every action, and exactly when the
    actions that move supply, loans and orders go through. */
module Effects {
  import opened Common
  import opened BigEndian
  import opened Warp
  import opened Ledger
  import opened Actions
  import opened Conservation
  import opened Orders
  import opened Soundness
  import opened Transactions
  import opened Imports
  import opened OrderLife
  import opened Payloads

  function Where(p: PublicKey, b: Id, owner: PublicKey, asset: Id, n: nat): nat {
    if p == owner && b == asset then n else 0
  }

  /** What an action adds to the balance of `p` in `b` when it succeeds. */
  function Gain(c: Context, a: Action, s: Store, p: PublicKey, b: Id): nat {
    match a
    case Transfer(to, asset, value) => Where(p, b, to, asset, value)
    case MintAsset(to, asset, value) => Where(p, b, to, asset, value)
    case FillOrder(order, owner, inAsset, outAsset, _) =>
      var r := Filling(a, s);
      Where(p, b, owner, inAsset, r.paid) + Where(p, b, c.actor, outAsset, r.received)
    case CloseOrder(order, outAsset) => Where(p, b, c.actor, outAsset, Locked(s, order))
    case ImportAsset(fill, w, source) =>
      var assetIn := AssetIn(c.toId, w, source);
      Credited(c, w, source, p, b)
      + (if fill && w.swapIn != 0
         then Where(p, b, c.actor, assetIn, w.swapIn) + Where(p, b, w.to, w.assetOut, w.swapOut) else 0)
    case _ => 0
  }

  /** What it takes from it. */
  function Cost(c: Context, a: Action, s: Store, p: PublicKey, b: Id): nat {
    match a
    case Transfer(_, asset, value) => Where(p, b, c.actor, asset, value)
    case BurnAsset(asset, value) => Where(p, b, c.actor, asset, value)
    case CreateOrder(_, _, outAsset, _, supply) => Where(p, b, c.actor, outAsset, supply)
    case FillOrder(_, _, inAsset, _, _) => Where(p, b, c.actor, inAsset, Filling(a, s).paid)
    case ImportAsset(fill, w, source) =>
      if fill && w.swapIn != 0
      then Where(p, b, w.to, AssetIn(c.toId, w, source), w.swapIn) + Where(p, b, c.actor, w.assetOut, w.swapOut) else 0
    case ExportAsset(_, asset, value, _, reward, _, _, _, _, _) => Where(p, b, c.actor, asset, value + reward)
    case _ => 0
  }

  /** The amounts of a fill, quoted from the order as it stands before. */
  function Filling(a: Action, s: Store): OrderResult
    requires a.FillOrder?
  {
    var o := GetOrder(s, a.order);
    if o.Some? && Fits(o.value, a.value) then Amounts(o.value, a.value) else OrderResult(0, 0, 0)
  }

  ghost predicate Moves(c: Context, a: Action, s: Store, t: Store, p: PublicKey, b: Id) {
    GetBalance(t, p, b) + Cost(c, a, s, p, b) == GetBalance(s, p, b) + Gain(c, a, s, p, b)
  }

  lemma AssetActionMoves(c: Context, a: Action, s: Store, p: PublicKey, b: Id)
    requires a.Transfer? || a.CreateAsset? || a.MintAsset? || a.BurnAsset? || a.ModifyAsset?
    requires Execute(c, a, s).Ok?
    ensures Moves(c, a, s, Execute(c, a, s).store, p, b)
  {
  }

  lemma FillMoves(c: Context, a: Action, s: Store, p: PublicKey, b: Id)
    requires a.FillOrder? && FillOrderSpec(c, a, s).Ok?
    requires OrderKey(a.order) in s && ValidOrder(s[OrderKey(a.order)].order)
    ensures Moves(c, a, s, FillOrderSpec(c, a, s).store, p, b)
    ensures UnmarshalOrderResult(FillOrderSpec(c, a, s).output) == Some(Filling(a, s))
  {
    var o := GetOrder(s, a.order).value;
    var r := Quote(a, o).value;
    QuoteAmounts(a, o);
    AmountsAtPrice(o, a.value);
    OrderResultRoundTrip(r);
    assert Filling(a, s) == r;
    hide SettleBalances, UnmarshalOrderResult, MarshalOrderResult, Quote, Filling, Amounts;
    SettledBalances(c.actor, o, r, s, p, b);
  }

  lemma OrderActionMoves(c: Context, a: Action, s: Store, p: PublicKey, b: Id)
    requires (a.CreateOrder? || a.CloseOrder?) && Execute(c, a, s).Ok?
    ensures Moves(c, a, s, Execute(c, a, s).store, p, b)
  {
  }

  lemma SwapMoves(c: Context, w: WarpTransfer, assetIn: Id, s: Store, p: PublicKey, b: Id)
    requires SwapAssets(c, w, assetIn, s).Ok?
    ensures GetBalance(SwapAssets(c, w, assetIn, s).store, p, b)
              + Where(p, b, w.to, assetIn, w.swapIn) + Where(p, b, c.actor, w.assetOut, w.swapOut)
         == GetBalance(s, p, b) + Where(p, b, c.actor, assetIn, w.swapIn) + Where(p, b, w.to, w.assetOut, w.swapOut)
  {
    hide AddBalance, SubBalance;
    BalanceEntries(s, w.to, assetIn, w.swapIn, p, b);
    var s1 := SubBalance(s, w.to, assetIn, w.swapIn).store;
    BalanceEntries(s1, c.actor, assetIn, w.swapIn, p, b);
    var s2 := AddBalance(s1, c.actor, assetIn, w.swapIn).store;
    BalanceEntries(s2, c.actor, w.assetOut, w.swapOut, p, b);
    BalanceEntries(SubBalance(s2, c.actor, w.assetOut, w.swapOut).store, w.to, w.assetOut, w.swapOut, p, b);
  }

  lemma ImportMovesBalances(c: Context, a: Action, s: Store, p: PublicKey, b: Id)
    requires a.ImportAsset? && ImportAssetSpec(c, a, s).Ok?
    ensures Moves(c, a, s, ImportAssetSpec(c, a, s).store, p, b)
  {
    hide Credit, Credited, SwapAssets;
    CreditBalances(c, a.transfer, a.source, s, p, b);
    if a.fill && a.transfer.swapIn != 0 {
      SwapMoves(c, a.transfer, AssetIn(c.toId, a.transfer, a.source), Credit(c, a.transfer, a.source, s).store, p, b);
    }
  }

  lemma LendMoves(s: Store, owner: PublicKey, asset: Id, destination: Id, amount: uint64, p: PublicKey, b: Id)
    requires Lend(s, owner, asset, destination, amount).Ok?
    ensures GetBalance(Lend(s, owner, asset, destination, amount).store, p, b)
         == GetBalance(s, p, b) - Where(p, b, owner, asset, amount)
  {
  }

  lemma DebitMoves(s: Store, owner: PublicKey, asset: Id, value: uint64, reward: uint64, p: PublicKey, b: Id)
    requires Debit(s, owner, asset, value, reward).Ok?
    ensures GetBalance(Debit(s, owner, asset, value, reward).store, p, b)
         == GetBalance(s, p, b) - Where(p, b, owner, asset, value + reward)
  {
  }

  lemma LendBothMoves(s: Store, owner: PublicKey, asset: Id, destination: Id, value: uint64, reward: uint64,
                      p: PublicKey, b: Id)
    requires LendBoth(s, owner, asset, destination, value, reward).Ok?
    ensures GetBalance(LendBoth(s, owner, asset, destination, value, reward).store, p, b)
         == GetBalance(s, p, b) - Where(p, b, owner, asset, value + reward)
  {
  }

  lemma ReturnMoves(c: Context, a: Action, s: Store, p: PublicKey, b: Id)
    requires a.ExportAsset? && a.isReturn && ExecuteReturn(c, a, s).Ok?
    ensures GetBalance(ExecuteReturn(c, a, s).store, p, b)
         == GetBalance(s, p, b) - Where(p, b, c.actor, a.asset, a.value + a.reward)
  {
    hide Debit, ExecuteReturn, GetAsset, WriteSupply, GetBalance;
    var r := WithdrawSteps(c, a, s);
    var left := r.supply - a.value - a.reward;
    WriteSupplyMovesNothing(s, a.asset, r.metadata, left, p, b);
    DebitMoves(WriteSupply(s, a.asset, r.metadata, left), c.actor, a.asset, a.value, a.reward, p, b);
  }

  lemma ExportMoves(c: Context, a: Action, s: Store, p: PublicKey, b: Id)
    requires a.ExportAsset? && ExportAssetSpec(c, a, s).Ok?
    ensures Moves(c, a, s, ExportAssetSpec(c, a, s).store, p, b)
  {
    hide ExecuteReturn, LendBoth, ExportedTransfer, GetBalance, GetAsset, Filling, Credited;
    if a.isReturn {
      ReturnMoves(c, a, s, p, b);
    } else {
      LendBothMoves(s, c.actor, a.asset, a.destination, a.value, a.reward, p, b);
    }
  }

  lemma WriteSupplyMovesNothing(s: Store, id: Id, metadata: bytes, supply: uint64, p: PublicKey, b: Id)
    requires |metadata| <= MAX_READABLE_METADATA
    ensures GetBalance(WriteSupply(s, id, metadata, supply), p, b) == GetBalance(s, p, b)
  {
  }

  /** Every successful action changes every balance by exactly its gain less its cost. */
  lemma ExecuteMoves(c: Context, a: Action, s: Store, p: PublicKey, b: Id)
    requires Sound(c.toId, s) && Execute(c, a, s).Ok?
    ensures Moves(c, a, s, Execute(c, a, s).store, p, b)
  {
    hide Moves;
    match a
    case CreateOrder(_, _, _, _, _) => OrderActionMoves(c, a, s, p, b);
    case CloseOrder(_, _) => OrderActionMoves(c, a, s, p, b);
    case FillOrder(order, _, _, _, _) =>
      assert OrderKey(order) in s && EntrySound(c.toId, s, OrderKey(order));
      FillMoves(c, a, s, p, b);
    case ImportAsset(_, _, _) => ImportMovesBalances(c, a, s, p, b);
    case ExportAsset(_, _, _, _, _, _, _, _, _, _) => ExportMoves(c, a, s, p, b);
    case _ => AssetActionMoves(c, a, s, p, b);
  }

  // ---- Exactly when an action succeeds on a balanced store ----

  /** Minting fails for a stranger, a wrapped or native asset, or a supply that would overflow, and for no
      other reason: the credit always fits. */
  lemma MintAssetSucceedsIff(c: Context, a: Action, s: Store, fees: nat)
    requires a.MintAsset? && Balanced(s, fees)
    ensures MintAssetSpec(c, a, s).Ok? <==>
      && a.asset != EMPTY_ID && a.value != 0 && AssetKey(a.asset) in s
      && var r := s[AssetKey(a.asset)].asset; !r.warp && r.owner == c.actor && r.supply + a.value <= MAX_UINT64
  {
    var r := CheckMint(c, a, GetAsset(s, a.asset));
    if r.Accept? {
      SetAssetGap(s, a.asset, r.value);
      assert Gap(SetAsset(s, a.asset, r.value), a.asset) >= a.value;
      CreditFits(SetAsset(s, a.asset, r.value), a.to, a.asset, a.value);
    }
  }

  lemma SettleFits(actor: PublicKey, order: Id, o: OrderRecord, r: OrderResult, s: Store, fees: nat)
    requires Balanced(s, fees) && GetOrder(s, order) == Some(o) && r.received <= o.remaining && o.inAsset != o.outAsset
    ensures Settle(actor, order, o, r, s).Ok? <==> r.paid <= GetBalance(s, actor, o.inAsset)
  {
    if r.paid <= GetBalance(s, actor, o.inAsset) {
      SubBalanceGap(s, actor, o.inAsset, r.paid);
      var s1 := SubBalance(s, actor, o.inAsset, r.paid).store;
      assert Gap(s1, o.inAsset) >= r.paid && Gap(s1, o.outAsset) >= 0;
      CreditFits(s1, o.owner, o.inAsset, r.paid);
      AddBalanceGap(s1, o.owner, o.inAsset, r.paid);
      var s2 := AddBalance(s1, o.owner, o.inAsset, r.paid).store;
      assert Gap(s2, o.outAsset) >= 0;
      assert OrderKey(order) in s2 && s2[OrderKey(order)].order == o;
      HoldingsBoundEntries(s2, o.outAsset, OrderKey(order), BalanceKey(actor, o.outAsset));
    }
  }

  /** A fill that names the order right and passes its arithmetic succeeds exactly when the filler holds
      what the clipped fill costs: neither credit can overflow. */
  lemma FillSucceedsIff(c: Context, a: Action, s: Store, o: OrderRecord, fees: nat)
    requires a.FillOrder? && Balanced(s, fees) && GetOrder(s, a.order) == Some(o) && ValidOrder(o)
    ensures FillOrderSpec(c, a, s).Ok? <==>
      && a.owner == o.owner && a.inAsset == o.inAsset && a.outAsset == o.outAsset && Fits(o, a.value)
      && o.inTick * Ticks(o, a.value) <= GetBalance(s, c.actor, o.inAsset)
  {
    QuoteNeverFree(a, o);
    if Fits(o, a.value) {
      FillInTicks(o, a.value);
      SettleFits(c.actor, a.order, o, Amounts(o, a.value), s, fees);
    }
    hide Settle;
  }

  /** After a first fill the filler has paid for it, unless the payment went back to the filler. */
  lemma SecondFillAffordable(c: Context, order: Id, o: OrderRecord, v1: uint64, v2: uint64, v: uint64, s: Store,
                             t: Store)
    requires GetOrder(s, order) == Some(o) && ValidOrder(o) && v == v1 + v2 && Fits(o, v)
    requires FillOrderSpec(c, FillBy(order, o, v1), s).Ok? && t == FillOrderSpec(c, FillBy(order, o, v1), s).store
    requires FillOrderSpec(c, FillBy(order, o, v2), t).Ok?
    ensures c.actor != o.owner ==> o.inTick * Ticks(o, v) <= GetBalance(s, c.actor, o.inAsset)
  {
    var r1 := FillIsSettle(c, order, o, v1, s);
    var rest := o.(remaining := r1.remaining);
    var r2 := SecondFill(c, order, o, rest, v2, t);
    hide FillOrderSpec, Amounts, FillBy, Settle;
    SettleAffordable(c.actor, order, o, r1, s, c.actor, o.inAsset);
    SettleAffordable(c.actor, order, rest, r2, t, c.actor, o.inAsset);
    SettledBalances(c.actor, o, r1, s, c.actor, o.inAsset);
    hide SettleBalances;
    AmountsAddUp(o, v1, v2, v, r1, r2, Amounts(o, v));
    FillInTicks(o, v);
  }

  lemma SettleAffordable(actor: PublicKey, order: Id, o: OrderRecord, r: OrderResult, s: Store, p: PublicKey, b: Id)
    requires Settle(actor, order, o, r, s).Ok?
    ensures SettleBalances(actor, o, r, s).Ok? && r.paid <= GetBalance(s, actor, o.inAsset)
    ensures GetBalance(Settle(actor, order, o, r, s).store, p, b)
         == GetBalance(SettleBalances(actor, o, r, s).store, p, b)
  {
  }

  /** When `v1` and then `v2` can be filled, their sum can exactly if it passes the arithmetic checks and, for
      an owner filling an own order, the whole cost is held at once; it then leaves the same store. */
  lemma FillsAddUpIff(c: Context, order: Id, o: OrderRecord, v1: uint64, v2: uint64, v: uint64, s: Store, t: Store,
                      fees: nat)
    requires Balanced(s, fees) && GetOrder(s, order) == Some(o) && ValidOrder(o) && v == v1 + v2
    requires FillOrderSpec(c, FillBy(order, o, v1), s).Ok? && t == FillOrderSpec(c, FillBy(order, o, v1), s).store
    requires FillOrderSpec(c, FillBy(order, o, v2), t).Ok?
    ensures FillOrderSpec(c, FillBy(order, o, v), s).Ok? <==>
      Fits(o, v) && (c.actor == o.owner ==> o.inTick * Ticks(o, v) <= GetBalance(s, c.actor, o.inAsset))
    ensures FillOrderSpec(c, FillBy(order, o, v), s).Ok? ==>
      FillOrderSpec(c, FillBy(order, o, v2), t).store == FillOrderSpec(c, FillBy(order, o, v), s).store
  {
    FillSucceedsIff(c, FillBy(order, o, v), s, o, fees);
    hide FillOrderSpec;
    if Fits(o, v) { SecondFillAffordable(c, order, o, v1, v2, v, s, t); }
    if FillOrderSpec(c, FillBy(order, o, v), s).Ok? { FillsAddUp(c, order, o, v1, v2, v, s, t); }
  }

  /** Lending never overflows a loan: what an owner holds and what is lent are both within the supply. */
  lemma LendFits(s: Store, owner: PublicKey, asset: Id, destination: Id, amount: uint64, fees: nat)
    requires Balanced(s, fees)
    ensures Lend(s, owner, asset, destination, amount).Ok? <==> amount <= GetBalance(s, owner, asset)
    ensures Lend(s, owner, asset, destination, amount).Ok? ==>
      Balanced(Lend(s, owner, asset, destination, amount).store, fees)
  {
    assert Gap(s, asset) >= 0;
    HoldingsBoundEntries(s, asset, LoanKey(asset, destination), BalanceKey(owner, asset));
    if Lend(s, owner, asset, destination, amount).Ok? { LendGap(s, owner, asset, destination, amount); }
  }

  /** A loan export goes through exactly when the asset is native to the chain and its owner holds value
      and reward. */
  lemma LoanExportSucceedsIff(c: Context, a: Action, s: Store, fees: nat)
    requires a.ExportAsset? && !a.isReturn && Balanced(s, fees)
    ensures ExportAssetSpec(c, a, s).Ok? <==>
      && a.value != 0 && a.destination != EMPTY_ID && AssetKey(a.asset) in s && !s[AssetKey(a.asset)].asset.warp
      && a.value + a.reward <= GetBalance(s, c.actor, a.asset)
  {
    hide Lend, Balanced;
    LendFits(s, c.actor, a.asset, a.destination, a.value, fees);
    var s1 := Lend(s, c.actor, a.asset, a.destination, a.value);
    if s1.Ok? {
      LendMoves(s, c.actor, a.asset, a.destination, a.value, c.actor, a.asset);
      LendFits(s1.store, c.actor, a.asset, a.destination, a.reward, fees);
    }
  }

  /** A return export goes through exactly when the asset is wrapped, goes back to its origin, and its owner
      holds value and reward: its supply always covers them. */
  lemma ReturnExportSucceedsIff(c: Context, a: Action, s: Store, fees: nat)
    requires a.ExportAsset? && a.isReturn && LedgerInv(c.toId, s, fees)
    ensures ExportAssetSpec(c, a, s).Ok? <==>
      && a.value != 0 && a.destination != EMPTY_ID && AssetKey(a.asset) in s
      && (var r := s[AssetKey(a.asset)].asset; r.warp && BytesId(r.metadata[ID_LEN..]) == a.destination)
      && a.value + a.reward <= GetBalance(s, c.actor, a.asset)
  {
    if AssetKey(a.asset) in s && s[AssetKey(a.asset)].asset.warp {
      assert EntrySound(c.toId, s, AssetKey(a.asset));
      BalanceWithinSupply(s, fees, c.actor, a.asset);
      hide Sound, Balanced;
      DebitOkIff(WriteSupply(s, a.asset, [], 0), c.actor, a.asset, a.value, a.reward);
    }
  }

  lemma DebitOkIff(s: Store, owner: PublicKey, asset: Id, value: uint64, reward: uint64)
    ensures Debit(s, owner, asset, value, reward).Ok? <==> value + reward <= GetBalance(s, owner, asset)
  {
  }

  // ---- All actions ----

  /** The loan or the wrapped asset can take what a transfer brings. */
  predicate Creditable(c: Context, w: WarpTransfer, source: Id, s: Store) {
    if w.isReturn then w.value + w.reward <= GetLoan(s, w.asset, source)
    else
      var id := ImportedAssetId(c.toId, w.asset, source);
      (AssetKey(id) in s ==> s[AssetKey(id)].asset.warp) && Supply(s, id) + w.value + w.reward <= MAX_UINT64
  }

  /** The importer needs no swap, may wait it out, or can pay for it. */
  predicate SwapReady(c: Context, fill: bool, w: WarpTransfer, source: Id, s: Store) {
    var assetIn := AssetIn(c.toId, w, source);
    if w.swapIn == 0 then true
    else if !fill then w.swapExpiry <= c.time
    else w.swapOut <= GetBalance(s, c.actor, w.assetOut) + Credited(c, w, source, c.actor, w.assetOut)
                      + (if w.assetOut == assetIn && w.to != c.actor then w.swapIn else 0)
  }

  /** What can be checked before an action: its arguments against the records, orders, loans and balances
      it names. */
  predicate Admissible(c: Context, a: Action, s: Store) {
    match a
    case Transfer(_, asset, value) => 0 < value <= GetBalance(s, c.actor, asset)
    case CreateAsset(metadata) => |metadata| <= 256
    case MintAsset(_, asset, value) =>
      asset != EMPTY_ID && value != 0 && AssetKey(asset) in s
      && (var r := s[AssetKey(asset)].asset; !r.warp && r.owner == c.actor && r.supply + value <= MAX_UINT64)
    case BurnAsset(asset, value) => 0 < value <= GetBalance(s, c.actor, asset)
    case ModifyAsset(asset, _, metadata) =>
      asset != EMPTY_ID && |metadata| <= 256 && AssetKey(asset) in s
      && (var r := s[AssetKey(asset)].asset; !r.warp && r.owner == c.actor)
    case CreateOrder(inAsset, inTick, outAsset, outTick, supply) =>
      inAsset != outAsset && 0 < inTick && 0 < outTick && 0 < supply && supply % outTick == 0
      && supply <= GetBalance(s, c.actor, outAsset)
    case FillOrder(order, owner, inAsset, outAsset, value) =>
      OrderKey(order) in s
      && (var o := s[OrderKey(order)].order;
          owner == o.owner && inAsset == o.inAsset && outAsset == o.outAsset && Fits(o, value)
          && o.inTick * Ticks(o, value) <= GetBalance(s, c.actor, inAsset))
    case CloseOrder(order, outAsset) =>
      OrderKey(order) in s && s[OrderKey(order)].order.owner == c.actor && s[OrderKey(order)].order.outAsset == outAsset
    case ImportAsset(fill, w, source) =>
      c.warpVerified && w.value != 0 && Creditable(c, w, source, s) && SwapReady(c, fill, w, source, s)
    case ExportAsset(_, asset, value, isReturn, reward, _, _, _, _, destination) =>
      value != 0 && destination != EMPTY_ID && AssetKey(asset) in s
      && (var r := s[AssetKey(asset)].asset;
          if isReturn then r.warp && |r.metadata| == 2 * ID_LEN && BytesId(r.metadata[ID_LEN..]) == destination
          else !r.warp)
      && value + reward <= GetBalance(s, c.actor, asset)
  }

  lemma CreditableIff(c: Context, w: WarpTransfer, source: Id, s: Store, fees: nat)
    requires Balanced(s, fees)
    ensures Credit(c, w, source, s).Ok? <==> Creditable(c, w, source, s)
  {
    hide ExecuteMint, ImportReturn, Balanced;
    MintSucceedsIff(c, w, source, s, fees);
    ReturnSucceedsIff(c, w, source, s, fees);
  }

  lemma ImportAdmissibleIff(c: Context, a: Action, s: Store, fees: nat)
    requires a.ImportAsset? && WellFormed(a) && Balanced(s, fees)
    ensures ImportAssetSpec(c, a, s).Ok? <==> Admissible(c, a, s)
  {
    CreditableIff(c, a.transfer, a.source, s, fees);
    hide Credit, Creditable, Balanced, AfterCredit, Credited, ValidSwap;
    if c.warpVerified && Credit(c, a.transfer, a.source, s).Ok? {
      ImportSucceedsIff(c, a, s, fees);
    }
  }

  lemma FillAdmissibleIff(c: Context, a: Action, s: Store, fees: nat)
    requires a.FillOrder? && LedgerInv(c.toId, s, fees)
    ensures FillOrderSpec(c, a, s).Ok? <==> Admissible(c, a, s)
  {
    assert OrderKey(a.order) in s ==> EntrySound(c.toId, s, OrderKey(a.order));
    hide Sound, Balanced, Settle, Quote, ValidOrder, Fits, Ticks;
    if OrderKey(a.order) in s { FillSucceedsIff(c, a, s, s[OrderKey(a.order)].order, fees); }
  }

  lemma ExportAdmissibleIff(c: Context, a: Action, s: Store, fees: nat)
    requires a.ExportAsset? && LedgerInv(c.toId, s, fees)
    ensures ExportAssetSpec(c, a, s).Ok? <==> Admissible(c, a, s)
  {
    assert AssetKey(a.asset) in s ==> EntrySound(c.toId, s, AssetKey(a.asset));
    hide ExportAssetSpec;
    if a.isReturn { ReturnExportSucceedsIff(c, a, s, fees); } else { LoanExportSucceedsIff(c, a, s, fees); }
  }

  /** On a reachable store every deserialized action succeeds exactly when it is admissible: no credit
      overflows and no debit fails behind the guards. */
  lemma ExecuteSucceedsIff(c: Context, a: Action, s: Store, fees: nat)
    requires WellFormed(a) && LedgerInv(c.toId, s, fees)
    ensures Execute(c, a, s).Ok? <==> Admissible(c, a, s)
  {
    match a
    case Transfer(_, _, _) => TransferSucceedsIff(c, a, s, fees);
    case MintAsset(_, _, _) => MintAssetSucceedsIff(c, a, s, fees);
    case BurnAsset(_, _) => BurnSucceedsIff(c, a, s, fees);
    case FillOrder(_, _, _, _, _) => FillAdmissibleIff(c, a, s, fees);
    case CloseOrder(_, _) => CloseSucceedsIff(c, a, s, fees);
    case ImportAsset(_, _, _) => ImportAdmissibleIff(c, a, s, fees);
    case ExportAsset(_, _, _, _, _, _, _, _, _, _) => ExportAdmissibleIff(c, a, s, fees);
    case _ =>
  }
}

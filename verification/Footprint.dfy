/** Declared footprints: an action reads and writes only the keys it announces, so transactions with
    disjoint keys can run in either order. */
module Footprint {
  import opened Common
  import opened Warp
  import opened Ledger
  import opened Actions
  import opened Transactions

  function StateKeys(c: Context, a: Action): set<Key> {
    match a
    case Transfer(to, asset, _) => {BalanceKey(c.actor, asset), BalanceKey(to, asset)}
    case CreateAsset(_) => {AssetKey(c.txId)}
    case MintAsset(to, asset, _) => {AssetKey(asset), BalanceKey(to, asset)}
    case BurnAsset(asset, _) => {AssetKey(asset), BalanceKey(c.actor, asset)}
    case ModifyAsset(asset, _, _) => {AssetKey(asset)}
    case CreateOrder(_, _, outAsset, _, _) => {BalanceKey(c.actor, outAsset), OrderKey(c.txId)}
    case FillOrder(order, owner, inAsset, outAsset, _) =>
      {OrderKey(order), BalanceKey(owner, inAsset), BalanceKey(c.actor, inAsset), BalanceKey(c.actor, outAsset)}
    case CloseOrder(order, outAsset) => {OrderKey(order), BalanceKey(c.actor, outAsset)}
    case ImportAsset(fill, w, source) => ImportKeys(c, fill, w, source)
    case ExportAsset(_, asset, _, isReturn, _, _, _, _, _, destination) =>
      if isReturn then {AssetKey(asset), BalanceKey(c.actor, asset)}
      else {AssetKey(asset), LoanKey(asset, destination), BalanceKey(c.actor, asset)}
  }

  function ImportKeys(c: Context, fill: bool, w: WarpTransfer, source: Id): set<Key> {
    var assetIn := AssetIn(c.toId, w, source);
    (if w.isReturn then {LoanKey(w.asset, source)} else {AssetKey(assetIn)})
    + {BalanceKey(w.to, assetIn)}
    + (if w.reward > 0 then {BalanceKey(c.actor, assetIn)} else {})
    + (if fill && w.swapIn > 0
       then {BalanceKey(c.actor, w.assetOut), BalanceKey(c.actor, assetIn), BalanceKey(w.to, w.assetOut)}
       else {})
  }

  // ---- Reads: stores that agree on the footprint give outcomes that agree on it ----

  ghost predicate Agree(K: set<Key>, s: Store, t: Store) {
    forall k :: k in K ==> (k in s <==> k in t) && (k in s ==> s[k] == t[k])
  }

  /** The same end, output and message, and stores that agree on `K`. */
  ghost predicate SameEnd(K: set<Key>, o: Outcome, p: Outcome) {
    && (o.Ok? <==> p.Ok?) && (o.Err? <==> p.Err?)
    && (o.Ok? ==> o.output == p.output && o.message == p.message)
    && (o.Err? ==> o.failure == p.failure)
    && Agree(K, o.store, p.store)
  }

  lemma BalanceReads(K: set<Key>, s: Store, t: Store, owner: PublicKey, asset: Id, amount: uint64)
    requires Agree(K, s, t) && BalanceKey(owner, asset) in K
    ensures SameEnd(K, AddBalance(s, owner, asset, amount), AddBalance(t, owner, asset, amount))
    ensures SameEnd(K, SubBalance(s, owner, asset, amount), SubBalance(t, owner, asset, amount))
  {
  }

  lemma LoanReads(K: set<Key>, s: Store, t: Store, asset: Id, destination: Id, amount: uint64)
    requires Agree(K, s, t) && LoanKey(asset, destination) in K
    ensures SameEnd(K, AddLoan(s, asset, destination, amount), AddLoan(t, asset, destination, amount))
    ensures SameEnd(K, SubLoan(s, asset, destination, amount), SubLoan(t, asset, destination, amount))
  {
  }

  lemma TransferReads(K: set<Key>, c: Context, a: Action, s: Store, t: Store)
    requires a.Transfer? && Agree(K, s, t) && StateKeys(c, a) <= K
    ensures SameEnd(K, TransferSpec(c, a, s), TransferSpec(c, a, t))
  {
    BalanceReads(K, s, t, c.actor, a.asset, a.value);
    BalanceReads(K, SubBalance(s, c.actor, a.asset, a.value).store, SubBalance(t, c.actor, a.asset, a.value).store,
                 a.to, a.asset, a.value);
  }

  lemma MintAssetReads(K: set<Key>, c: Context, a: Action, s: Store, t: Store)
    requires a.MintAsset? && Agree(K, s, t) && StateKeys(c, a) <= K
    ensures SameEnd(K, MintAssetSpec(c, a, s), MintAssetSpec(c, a, t))
  {
  }

  lemma BurnAssetReads(K: set<Key>, c: Context, a: Action, s: Store, t: Store)
    requires a.BurnAsset? && Agree(K, s, t) && StateKeys(c, a) <= K
    ensures SameEnd(K, BurnAssetSpec(c, a, s), BurnAssetSpec(c, a, t))
  {
  }

  lemma RecordReads(K: set<Key>, c: Context, a: Action, s: Store, t: Store)
    requires (a.CreateAsset? || a.ModifyAsset?) && Agree(K, s, t) && StateKeys(c, a) <= K
    ensures SameEnd(K, Execute(c, a, s), Execute(c, a, t))
  {
  }

  lemma CreateOrderReads(K: set<Key>, c: Context, a: Action, s: Store, t: Store)
    requires a.CreateOrder? && Agree(K, s, t) && StateKeys(c, a) <= K
    ensures SameEnd(K, CreateOrderSpec(c, a, s), CreateOrderSpec(c, a, t))
  {
  }

  lemma SettleBalancesReads(K: set<Key>, actor: PublicKey, o: OrderRecord, r: OrderResult, s: Store, t: Store)
    requires Agree(K, s, t)
    requires BalanceKey(actor, o.inAsset) in K && BalanceKey(o.owner, o.inAsset) in K
      && BalanceKey(actor, o.outAsset) in K
    ensures SameEnd(K, SettleBalances(actor, o, r, s), SettleBalances(actor, o, r, t))
  {
    BalanceReads(K, s, t, actor, o.inAsset, r.paid);
    var s1, t1 := SubBalance(s, actor, o.inAsset, r.paid).store, SubBalance(t, actor, o.inAsset, r.paid).store;
    BalanceReads(K, s1, t1, o.owner, o.inAsset, r.paid);
    var s2, t2 := AddBalance(s1, o.owner, o.inAsset, r.paid).store, AddBalance(t1, o.owner, o.inAsset, r.paid).store;
    BalanceReads(K, s2, t2, actor, o.outAsset, r.received);
  }

  lemma SettleReads(K: set<Key>, actor: PublicKey, order: Id, o: OrderRecord, r: OrderResult, s: Store, t: Store)
    requires Agree(K, s, t) && OrderKey(order) in K
    requires BalanceKey(actor, o.inAsset) in K && BalanceKey(o.owner, o.inAsset) in K
      && BalanceKey(actor, o.outAsset) in K
    ensures SameEnd(K, Settle(actor, order, o, r, s), Settle(actor, order, o, r, t))
  {
    SettleBalancesReads(K, actor, o, r, s, t);
  }

  lemma FillOrderReads(K: set<Key>, c: Context, a: Action, s: Store, t: Store)
    requires a.FillOrder? && Agree(K, s, t) && StateKeys(c, a) <= K
    ensures SameEnd(K, FillOrderSpec(c, a, s), FillOrderSpec(c, a, t))
  {
    assert OrderKey(a.order) in K;
    var o := GetOrder(s, a.order);
    assert o == GetOrder(t, a.order);
    if o.Some? && Quote(a, o.value).Accept? {
      SettleReads(K, c.actor, a.order, o.value, Quote(a, o.value).value, s, t);
    }
  }

  lemma CloseOrderReads(K: set<Key>, c: Context, a: Action, s: Store, t: Store)
    requires a.CloseOrder? && Agree(K, s, t) && StateKeys(c, a) <= K
    ensures SameEnd(K, CloseOrderSpec(c, a, s), CloseOrderSpec(c, a, t))
  {
  }

  lemma PayReads(K: set<Key>, s: Store, t: Store, actor: PublicKey, w: WarpTransfer, asset: Id)
    requires Agree(K, s, t) && BalanceKey(w.to, asset) in K && (w.reward > 0 ==> BalanceKey(actor, asset) in K)
    ensures SameEnd(K, Pay(s, actor, w, asset), Pay(t, actor, w, asset))
  {
    BalanceReads(K, s, t, w.to, asset, w.value);
    if w.reward > 0 {
      BalanceReads(K, AddBalance(s, w.to, asset, w.value).store, AddBalance(t, w.to, asset, w.value).store,
                   actor, asset, w.reward);
    }
  }

  lemma MintReads(K: set<Key>, c: Context, w: WarpTransfer, source: Id, s: Store, t: Store)
    requires !w.isReturn && Agree(K, s, t) && ImportKeys(c, false, w, source) <= K
    ensures SameEnd(K, ExecuteMint(c, w, source, s), ExecuteMint(c, w, source, t))
  {
    var asset := ImportedAssetId(c.toId, w.asset, source);
    assert AssetKey(asset) in K;
    var r := MintRecord(w, source, GetAsset(s, asset));
    if r.Accept? {
      PayReads(K, SetAsset(s, asset, r.value), SetAsset(t, asset, r.value), c.actor, w, asset);
    }
  }

  lemma ImportReturnReads(K: set<Key>, c: Context, w: WarpTransfer, source: Id, s: Store, t: Store)
    requires w.isReturn && Agree(K, s, t) && ImportKeys(c, false, w, source) <= K
    ensures SameEnd(K, ImportReturn(c, w, source, s), ImportReturn(c, w, source, t))
  {
    assert LoanKey(w.asset, source) in K && BalanceKey(w.to, w.asset) in K;
    assert w.reward > 0 ==> BalanceKey(c.actor, w.asset) in K;
    hide Agree, SubLoan, AddBalance, ImportKeys, AssetIn;
    LoanReads(K, s, t, w.asset, source, w.value);
    var s1, t1 := SubLoan(s, w.asset, source, w.value).store, SubLoan(t, w.asset, source, w.value).store;
    BalanceReads(K, s1, t1, w.to, w.asset, w.value);
    if w.reward > 0 {
      var s2, t2 := AddBalance(s1, w.to, w.asset, w.value).store, AddBalance(t1, w.to, w.asset, w.value).store;
      LoanReads(K, s2, t2, w.asset, source, w.reward);
      BalanceReads(K, SubLoan(s2, w.asset, source, w.reward).store, SubLoan(t2, w.asset, source, w.reward).store,
                   c.actor, w.asset, w.reward);
    }
  }

  lemma CreditReads(K: set<Key>, c: Context, w: WarpTransfer, source: Id, s: Store, t: Store)
    requires Agree(K, s, t) && ImportKeys(c, false, w, source) <= K
    ensures SameEnd(K, Credit(c, w, source, s), Credit(c, w, source, t))
  {
    if w.isReturn { ImportReturnReads(K, c, w, source, s, t); } else { MintReads(K, c, w, source, s, t); }
  }

  lemma SwapReads(K: set<Key>, c: Context, w: WarpTransfer, assetIn: Id, s: Store, t: Store)
    requires Agree(K, s, t) && BalanceKey(w.to, assetIn) in K && BalanceKey(c.actor, assetIn) in K
    requires BalanceKey(c.actor, w.assetOut) in K && BalanceKey(w.to, w.assetOut) in K
    ensures SameEnd(K, SwapAssets(c, w, assetIn, s), SwapAssets(c, w, assetIn, t))
  {
    BalanceReads(K, s, t, w.to, assetIn, w.swapIn);
    var s1, t1 := SubBalance(s, w.to, assetIn, w.swapIn).store, SubBalance(t, w.to, assetIn, w.swapIn).store;
    BalanceReads(K, s1, t1, c.actor, assetIn, w.swapIn);
    var s2, t2 := AddBalance(s1, c.actor, assetIn, w.swapIn).store, AddBalance(t1, c.actor, assetIn, w.swapIn).store;
    BalanceReads(K, s2, t2, c.actor, w.assetOut, w.swapOut);
    BalanceReads(K, SubBalance(s2, c.actor, w.assetOut, w.swapOut).store,
                 SubBalance(t2, c.actor, w.assetOut, w.swapOut).store,
                 w.to, w.assetOut, w.swapOut);
  }

  lemma AfterCreditReads(K: set<Key>, c: Context, a: Action, s: Store, t: Store)
    requires a.ImportAsset? && Agree(K, s, t) && StateKeys(c, a) <= K
    ensures SameEnd(K, AfterCredit(c, a, s), AfterCredit(c, a, t))
  {
    if a.fill && a.transfer.swapIn > 0 {
      SwapReads(K, c, a.transfer, AssetIn(c.toId, a.transfer, a.source), s, t);
    }
  }

  lemma ImportAssetReads(K: set<Key>, c: Context, a: Action, s: Store, t: Store)
    requires a.ImportAsset? && Agree(K, s, t) && StateKeys(c, a) <= K
    ensures SameEnd(K, ImportAssetSpec(c, a, s), ImportAssetSpec(c, a, t))
  {
    hide Agree, Credit, AfterCredit;
    CreditReads(K, c, a.transfer, a.source, s, t);
    var o, p := Credit(c, a.transfer, a.source, s), Credit(c, a.transfer, a.source, t);
    AfterCreditReads(K, c, a, o.store, p.store);
  }

  lemma DebitReads(K: set<Key>, s: Store, t: Store, owner: PublicKey, asset: Id, value: uint64, reward: uint64)
    requires Agree(K, s, t) && BalanceKey(owner, asset) in K
    ensures SameEnd(K, Debit(s, owner, asset, value, reward), Debit(t, owner, asset, value, reward))
  {
  }

  lemma WithdrawReads(K: set<Key>, c: Context, a: Action, r: AssetRecord, s: Store, t: Store)
    requires a.ExportAsset? && a.value + a.reward <= r.supply && |r.metadata| == 2 * ID_LEN
    requires Agree(K, s, t) && AssetKey(a.asset) in K && BalanceKey(c.actor, a.asset) in K
    ensures SameEnd(K, Withdraw(c, a, r, s), Withdraw(c, a, r, t))
  {
    var left := r.supply - a.value - a.reward;
    var s1, t1 := WriteSupply(s, a.asset, r.metadata, left), WriteSupply(t, a.asset, r.metadata, left);
    assert Agree(K, s1, t1);
    DebitReads(K, s1, t1, c.actor, a.asset, a.value, a.reward);
  }

  lemma ReturnReads(K: set<Key>, c: Context, a: Action, s: Store, t: Store)
    requires a.ExportAsset? && Agree(K, s, t) && AssetKey(a.asset) in K && BalanceKey(c.actor, a.asset) in K
    ensures SameEnd(K, ExecuteReturn(c, a, s), ExecuteReturn(c, a, t))
  {
    var r := GetAsset(s, a.asset);
    if r.Some? && CheckReturn(a, r.value).Accept? {
      WithdrawReads(K, c, a, r.value, s, t);
    }
  }

  lemma LendReads(K: set<Key>, s: Store, t: Store, owner: PublicKey, asset: Id, destination: Id, amount: uint64)
    requires Agree(K, s, t) && LoanKey(asset, destination) in K && BalanceKey(owner, asset) in K
    ensures SameEnd(K, Lend(s, owner, asset, destination, amount), Lend(t, owner, asset, destination, amount))
  {
    LoanReads(K, s, t, asset, destination, amount);
    BalanceReads(K, AddLoan(s, asset, destination, amount).store, AddLoan(t, asset, destination, amount).store,
                 owner, asset, amount);
  }

  lemma LendBothReads(K: set<Key>, s: Store, t: Store, owner: PublicKey, asset: Id, destination: Id, value: uint64,
                      reward: uint64)
    requires Agree(K, s, t) && LoanKey(asset, destination) in K && BalanceKey(owner, asset) in K
    ensures SameEnd(K, LendBoth(s, owner, asset, destination, value, reward),
                    LendBoth(t, owner, asset, destination, value, reward))
  {
    hide Agree, Lend;
    LendReads(K, s, t, owner, asset, destination, value);
    LendReads(K, Lend(s, owner, asset, destination, value).store, Lend(t, owner, asset, destination, value).store,
              owner, asset, destination, reward);
  }

  lemma LoanExportReads(K: set<Key>, c: Context, a: Action, s: Store, t: Store)
    requires a.ExportAsset? && Agree(K, s, t) && AssetKey(a.asset) in K && BalanceKey(c.actor, a.asset) in K
    requires LoanKey(a.asset, a.destination) in K
    ensures SameEnd(K, ExecuteLoan(c, a, s), ExecuteLoan(c, a, t))
  {
    assert GetAsset(s, a.asset) == GetAsset(t, a.asset);
    hide Agree, LendBoth, ExportedTransfer, GetAsset;
    LendBothReads(K, s, t, c.actor, a.asset, a.destination, a.value, a.reward);
  }

  /** What an action does depends on nothing outside its declared keys, on any branch. */
  lemma ExecuteReads(K: set<Key>, c: Context, a: Action, s: Store, t: Store)
    requires Agree(K, s, t) && StateKeys(c, a) <= K
    ensures SameEnd(K, Execute(c, a, s), Execute(c, a, t))
  {
    match a
    case CreateOrder(_, _, _, _, _) => CreateOrderReads(K, c, a, s, t);
    case FillOrder(_, _, _, _, _) => FillOrderReads(K, c, a, s, t);
    case CloseOrder(_, _) => CloseOrderReads(K, c, a, s, t);
    case ImportAsset(_, _, _) => ImportAssetReads(K, c, a, s, t);
    case ExportAsset(_, _, _, _, _, _, _, _, _, _) =>
      if a.isReturn { ReturnReads(K, c, a, s, t); } else { LoanExportReads(K, c, a, s, t); }
    case Transfer(_, _, _) => TransferReads(K, c, a, s, t);
    case MintAsset(_, _, _) => MintAssetReads(K, c, a, s, t);
    case BurnAsset(_, _) => BurnAssetReads(K, c, a, s, t);
    case _ => RecordReads(K, c, a, s, t);
  }

  // ---- Writes: nothing outside the footprint changes, even when the action fails ----

  ghost predicate OnlyIn(K: set<Key>, s: Store, t: Store) {
    forall k :: k !in K ==> (k in s <==> k in t) && (k in s ==> s[k] == t[k])
  }

  lemma BalanceWrites(K: set<Key>, s0: Store, s: Store, owner: PublicKey, asset: Id, amount: uint64)
    requires OnlyIn(K, s0, s) && BalanceKey(owner, asset) in K
    ensures OnlyIn(K, s0, AddBalance(s, owner, asset, amount).store)
    ensures OnlyIn(K, s0, SubBalance(s, owner, asset, amount).store)
  {
  }

  lemma LoanWrites(K: set<Key>, s0: Store, s: Store, asset: Id, destination: Id, amount: uint64)
    requires OnlyIn(K, s0, s) && LoanKey(asset, destination) in K
    ensures OnlyIn(K, s0, AddLoan(s, asset, destination, amount).store)
    ensures OnlyIn(K, s0, SubLoan(s, asset, destination, amount).store)
  {
  }

  lemma MintWrites(K: set<Key>, c: Context, w: WarpTransfer, source: Id, s: Store)
    requires !w.isReturn && ImportKeys(c, false, w, source) <= K
    ensures OnlyIn(K, s, ExecuteMint(c, w, source, s).store)
  {
  }

  lemma ImportReturnWrites(K: set<Key>, c: Context, w: WarpTransfer, source: Id, s: Store)
    requires w.isReturn && ImportKeys(c, false, w, source) <= K
    ensures OnlyIn(K, s, ImportReturn(c, w, source, s).store)
  {
    LoanWrites(K, s, s, w.asset, source, w.value);
    var s1 := SubLoan(s, w.asset, source, w.value).store;
    BalanceWrites(K, s, s1, w.to, w.asset, w.value);
    if w.reward > 0 {
      var s2 := AddBalance(s1, w.to, w.asset, w.value).store;
      LoanWrites(K, s, s2, w.asset, source, w.reward);
      BalanceWrites(K, s, SubLoan(s2, w.asset, source, w.reward).store, c.actor, w.asset, w.reward);
    }
  }

  lemma SwapWrites(K: set<Key>, c: Context, w: WarpTransfer, assetIn: Id, s0: Store, s: Store)
    requires OnlyIn(K, s0, s) && BalanceKey(w.to, assetIn) in K && BalanceKey(c.actor, assetIn) in K
    requires BalanceKey(c.actor, w.assetOut) in K && BalanceKey(w.to, w.assetOut) in K
    ensures OnlyIn(K, s0, SwapAssets(c, w, assetIn, s).store)
  {
  }

  lemma ImportAssetWrites(K: set<Key>, c: Context, a: Action, s: Store)
    requires a.ImportAsset? && StateKeys(c, a) <= K
    ensures OnlyIn(K, s, ImportAssetSpec(c, a, s).store)
  {
    assert OnlyIn(K, s, s);
    hide OnlyIn, ExecuteMint, ImportReturn, SwapAssets;
    var o := Credit(c, a.transfer, a.source, s);
    if a.transfer.isReturn {
      ImportReturnWrites(K, c, a.transfer, a.source, s);
    } else {
      MintWrites(K, c, a.transfer, a.source, s);
    }
    if a.fill && a.transfer.swapIn > 0 {
      SwapWrites(K, c, a.transfer, AssetIn(c.toId, a.transfer, a.source), s, o.store);
    }
  }

  lemma SettleWrites(K: set<Key>, actor: PublicKey, order: Id, o: OrderRecord, r: OrderResult, s: Store)
    requires OrderKey(order) in K
    requires BalanceKey(actor, o.inAsset) in K && BalanceKey(o.owner, o.inAsset) in K
      && BalanceKey(actor, o.outAsset) in K
    ensures OnlyIn(K, s, Settle(actor, order, o, r, s).store)
  {
  }

  lemma DebitWrites(K: set<Key>, s0: Store, s: Store, owner: PublicKey, asset: Id, value: uint64, reward: uint64)
    requires OnlyIn(K, s0, s) && BalanceKey(owner, asset) in K
    ensures OnlyIn(K, s0, Debit(s, owner, asset, value, reward).store)
  {
  }

  lemma ReturnWrites(K: set<Key>, c: Context, a: Action, s: Store)
    requires a.ExportAsset? && AssetKey(a.asset) in K && BalanceKey(c.actor, a.asset) in K
    ensures OnlyIn(K, s, ExecuteReturn(c, a, s).store)
  {
    hide Debit;
    var r := GetAsset(s, a.asset);
    if r.Some? && CheckReturn(a, r.value).Accept? {
      var s1 := WriteSupply(s, a.asset, r.value.metadata, r.value.supply - a.value - a.reward);
      DebitWrites(K, s, s1, c.actor, a.asset, a.value, a.reward);
    }
  }

  lemma LendWrites(K: set<Key>, s0: Store, s: Store, owner: PublicKey, asset: Id, destination: Id, amount: uint64)
    requires OnlyIn(K, s0, s) && LoanKey(asset, destination) in K && BalanceKey(owner, asset) in K
    ensures OnlyIn(K, s0, Lend(s, owner, asset, destination, amount).store)
  {
  }

  lemma ExportAssetWrites(K: set<Key>, c: Context, a: Action, s: Store)
    requires a.ExportAsset? && StateKeys(c, a) <= K
    ensures OnlyIn(K, s, ExportAssetSpec(c, a, s).store)
  {
    if a.isReturn {
      ReturnWrites(K, c, a, s);
    } else {
      LendWrites(K, s, s, c.actor, a.asset, a.destination, a.value);
      LendWrites(K, s, Lend(s, c.actor, a.asset, a.destination, a.value).store, c.actor, a.asset, a.destination,
                 a.reward);
    }
  }

  lemma AssetActionWrites(K: set<Key>, c: Context, a: Action, s: Store)
    requires a.Transfer? || a.CreateAsset? || a.MintAsset? || a.BurnAsset? || a.ModifyAsset?
    requires StateKeys(c, a) <= K
    ensures OnlyIn(K, s, Execute(c, a, s).store)
  {
  }

  /** What an action has written, on any branch and even when it fails, is within its declared keys. */
  lemma ExecuteWrites(K: set<Key>, c: Context, a: Action, s: Store)
    requires StateKeys(c, a) <= K
    ensures OnlyIn(K, s, Execute(c, a, s).store)
  {
    match a
    case CreateOrder(_, _, outAsset, _, supply) => BalanceWrites(K, s, s, c.actor, outAsset, supply);
    case FillOrder(order, _, _, _, _) =>
      var o := GetOrder(s, order);
      if o.Some? && Quote(a, o.value).Accept? { SettleWrites(K, c.actor, order, o.value, Quote(a, o.value).value, s); }
    case CloseOrder(order, outAsset) =>
      var o := GetOrder(s, order);
      if o.Some? { BalanceWrites(K, s, DeleteOrder(s, order), c.actor, outAsset, o.value.remaining); }
    case ImportAsset(_, _, _) => ImportAssetWrites(K, c, a, s);
    case ExportAsset(_, _, _, _, _, _, _, _, _, _) => ExportAssetWrites(K, c, a, s);
    case _ => AssetActionWrites(K, c, a, s);
  }

  // ---- Whole transactions ----

  /** The keys of a transaction: those of its action, and the balance its fee is paid from. */
  function TxKeys(e: Env, tx: Tx): set<Key> {
    StateKeys(ContextOf(e, tx), tx.action) + {BalanceKey(tx.signer, EMPTY_ID)}
  }

  function After(e: Env, tx: Tx, s: Store): Store {
    if ApplyTx(e, tx, s).Applied? then ApplyTx(e, tx, s).store else s
  }

  ghost predicate SameReceipt(K: set<Key>, p: Receipt, q: Receipt) {
    && (p.Rejected? <==> q.Rejected?) && (p.Crashed? <==> q.Crashed?)
    && (p.Applied? && q.Applied? ==> SameEnd(K, p.outcome, q.outcome) && Agree(K, p.store, q.store))
  }

  lemma TxReads(K: set<Key>, e: Env, tx: Tx, s: Store, t: Store)
    requires Agree(K, s, t) && TxKeys(e, tx) <= K
    ensures SameReceipt(K, ApplyTx(e, tx, s), ApplyTx(e, tx, t))
    ensures Agree(K, After(e, tx, s), After(e, tx, t))
  {
    assert BalanceKey(tx.signer, EMPTY_ID) in TxKeys(e, tx);
    BalanceReads(K, s, t, tx.signer, EMPTY_ID, tx.maxFee);
    var s1 := SubBalance(s, tx.signer, EMPTY_ID, tx.maxFee).store;
    var t1 := SubBalance(t, tx.signer, EMPTY_ID, tx.maxFee).store;
    var c := ContextOf(e, tx);
    assert StateKeys(c, tx.action) <= TxKeys(e, tx);
    ExecuteReads(K, c, tx.action, s1, t1);
    BalanceReads(K, Committed(s1, Execute(c, tx.action, s1)), Committed(t1, Execute(c, tx.action, t1)),
                 tx.signer, EMPTY_ID, tx.refund);
  }

  lemma TxWrites(K: set<Key>, e: Env, tx: Tx, s: Store)
    requires TxKeys(e, tx) <= K
    ensures OnlyIn(K, s, After(e, tx, s))
  {
    assert BalanceKey(tx.signer, EMPTY_ID) in TxKeys(e, tx);
    BalanceWrites(K, s, s, tx.signer, EMPTY_ID, tx.maxFee);
    var s1 := SubBalance(s, tx.signer, EMPTY_ID, tx.maxFee).store;
    var c := ContextOf(e, tx);
    assert StateKeys(c, tx.action) <= TxKeys(e, tx);
    ExecuteWrites(K, c, tx.action, s1);
    var s2 := Committed(s1, Execute(c, tx.action, s1));
    assert OnlyIn(K, s, s2);
    BalanceWrites(K, s, s2, tx.signer, EMPTY_ID, tx.refund);
  }

  /** A transaction sees the same store before and after another one with disjoint keys. */
  lemma Undisturbed(e1: Env, tx1: Tx, e2: Env, tx2: Tx, s: Store)
    requires TxKeys(e1, tx1) !! TxKeys(e2, tx2)
    ensures SameReceipt(TxKeys(e1, tx1), ApplyTx(e1, tx1, s), ApplyTx(e1, tx1, After(e2, tx2, s)))
    ensures Agree(TxKeys(e1, tx1), After(e1, tx1, s), After(e1, tx1, After(e2, tx2, s)))
  {
    TxWrites(TxKeys(e2, tx2), e2, tx2, s);
    assert Agree(TxKeys(e1, tx1), s, After(e2, tx2, s));
    TxReads(TxKeys(e1, tx1), e1, tx1, s, After(e2, tx2, s));
  }

  lemma OrderIrrelevantAt(e1: Env, tx1: Tx, e2: Env, tx2: Tx, s: Store, k: Key)
    requires TxKeys(e1, tx1) !! TxKeys(e2, tx2)
    ensures k !in TxKeys(e2, tx2) ==>
      var a, b := After(e2, tx2, After(e1, tx1, s)), After(e1, tx1, After(e2, tx2, s));
      (k in a <==> k in b) && (k in a ==> a[k] == b[k])
  {
    Undisturbed(e1, tx1, e2, tx2, s);
    TxWrites(TxKeys(e2, tx2), e2, tx2, After(e1, tx1, s));
    TxWrites(TxKeys(e1, tx1), e1, tx1, After(e2, tx2, s));
    TxWrites(TxKeys(e1, tx1), e1, tx1, s);
    TxWrites(TxKeys(e2, tx2), e2, tx2, s);
  }

  /** Transactions with disjoint keys commute: both orders give each of them the same receipt and
      leave the same store. */
  lemma DisjointTxsCommute(e1: Env, tx1: Tx, e2: Env, tx2: Tx, s: Store)
    requires TxKeys(e1, tx1) !! TxKeys(e2, tx2)
    ensures SameReceipt(TxKeys(e1, tx1), ApplyTx(e1, tx1, s), ApplyTx(e1, tx1, After(e2, tx2, s)))
    ensures SameReceipt(TxKeys(e2, tx2), ApplyTx(e2, tx2, s), ApplyTx(e2, tx2, After(e1, tx1, s)))
    ensures After(e2, tx2, After(e1, tx1, s)) == After(e1, tx1, After(e2, tx2, s))
  {
    Undisturbed(e1, tx1, e2, tx2, s);
    Undisturbed(e2, tx2, e1, tx1, s);
    var a, b := After(e2, tx2, After(e1, tx1, s)), After(e1, tx1, After(e2, tx2, s));
    forall k: Key ensures (k in a <==> k in b) && (k in a ==> a[k] == b[k]) {
      if k in TxKeys(e2, tx2) {
        OrderIrrelevantAt(e2, tx2, e1, tx1, s, k);
      } else {
        OrderIrrelevantAt(e1, tx1, e2, tx2, s, k);
      }
    }
  }
}

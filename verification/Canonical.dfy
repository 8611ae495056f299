/** Canonical storage: no zero is ever stored, so what a ledger says determines what the database holds. */
module Canonical {
  import opened Common
  import opened Warp
  import opened Ledger
  import opened Actions
  import opened Conservation
  import opened Orders
  import opened Soundness
  import opened Transactions
  import opened Payloads
  import opened Effects

  predicate NonZero(k: Key, v: Value)
    requires WellTyped(k, v)
  {
    match k
    case BalanceKey(_, _) => v.n != 0
    case LoanKey(_, _) => v.n != 0
    case OrderKey(_) => v.order.remaining != 0
    case _ => true
  }

  ghost predicate CanonicalStore(s: Store) {
    forall k :: k in s ==> NonZero(k, s[k])
  }

  // ---- One operation at a time ----

  lemma AddBalanceCanonical(s: Store, owner: PublicKey, asset: Id, amount: uint64)
    requires CanonicalStore(s) && (amount != 0 || GetBalance(s, owner, asset) != 0)
    ensures CanonicalStore(AddBalance(s, owner, asset, amount).store)
  {
  }

  lemma SubBalanceCanonical(s: Store, owner: PublicKey, asset: Id, amount: uint64)
    requires CanonicalStore(s)
    ensures CanonicalStore(SubBalance(s, owner, asset, amount).store)
  {
  }

  lemma LoanCanonical(s: Store, asset: Id, destination: Id, amount: uint64)
    requires CanonicalStore(s)
    ensures amount != 0 ==> CanonicalStore(AddLoan(s, asset, destination, amount).store)
    ensures CanonicalStore(SubLoan(s, asset, destination, amount).store)
  {
  }

  lemma RecordCanonical(s: Store, id: Id, r: AssetRecord)
    requires CanonicalStore(s) && |r.metadata| <= MAX_READABLE_METADATA
    ensures CanonicalStore(SetAsset(s, id, r)) && CanonicalStore(DeleteAsset(s, id))
  {
  }

  lemma OrderCanonical(s: Store, order: Id, o: OrderRecord)
    requires CanonicalStore(s)
    ensures o.remaining != 0 ==> CanonicalStore(SetOrder(s, order, o))
    ensures CanonicalStore(DeleteOrder(s, order))
  {
  }

  // ---- One action at a time ----

  lemma AssetActionCanonical(c: Context, a: Action, s: Store)
    requires a.Transfer? || a.CreateAsset? || a.MintAsset? || a.BurnAsset? || a.ModifyAsset?
    requires CanonicalStore(s) && Execute(c, a, s).Ok?
    ensures CanonicalStore(Execute(c, a, s).store)
  {
  }

  lemma SettleCanonical(actor: PublicKey, order: Id, o: OrderRecord, r: OrderResult, s: Store)
    requires CanonicalStore(s) && r.paid != 0 && r.received != 0 && Settle(actor, order, o, r, s).Ok?
    ensures CanonicalStore(Settle(actor, order, o, r, s).store)
  {
    hide CanonicalStore, AddBalance, SubBalance;
    var s1 := SubBalance(s, actor, o.inAsset, r.paid).store;
    SubBalanceCanonical(s, actor, o.inAsset, r.paid);
    var s2 := AddBalance(s1, o.owner, o.inAsset, r.paid).store;
    AddBalanceCanonical(s1, o.owner, o.inAsset, r.paid);
    var s3 := AddBalance(s2, actor, o.outAsset, r.received).store;
    AddBalanceCanonical(s2, actor, o.outAsset, r.received);
    OrderCanonical(s3, order, o.(remaining := r.remaining));
  }

  lemma FillCanonical(c: Context, a: Action, s: Store)
    requires a.FillOrder? && CanonicalStore(s) && FillOrderSpec(c, a, s).Ok?
    requires OrderKey(a.order) in s && ValidOrder(s[OrderKey(a.order)].order)
    ensures CanonicalStore(FillOrderSpec(c, a, s).store)
  {
    hide CanonicalStore, Settle;
    var o := GetOrder(s, a.order).value;
    QuoteAmounts(a, o);
    AmountsAtPrice(o, a.value);
    hide Quote;
    SettleCanonical(c.actor, a.order, o, Quote(a, o).value, s);
  }

  lemma CreateOrderCanonical(c: Context, a: Action, s: Store)
    requires a.CreateOrder? && CanonicalStore(s) && CreateOrderSpec(c, a, s).Ok?
    ensures CanonicalStore(CreateOrderSpec(c, a, s).store)
  {
    hide CanonicalStore, SubBalance, SetOrder;
    SubBalanceCanonical(s, c.actor, a.outAsset, a.supply);
    OrderCanonical(SubBalance(s, c.actor, a.outAsset, a.supply).store, c.txId,
                   OrderRecord(a.inAsset, a.inTick, a.outAsset, a.outTick, a.supply, c.actor));
  }

  lemma CloseOrderCanonical(c: Context, a: Action, s: Store)
    requires a.CloseOrder? && CanonicalStore(s) && CloseOrderSpec(c, a, s).Ok?
    requires OrderKey(a.order) in s && ValidOrder(s[OrderKey(a.order)].order)
    ensures CanonicalStore(CloseOrderSpec(c, a, s).store)
  {
    hide CanonicalStore, AddBalance, DeleteOrder;
    var o := GetOrder(s, a.order).value;
    OrderCanonical(s, a.order, o);
    AddBalanceCanonical(DeleteOrder(s, a.order), c.actor, a.outAsset, o.remaining);
  }

  lemma OrderActionCanonical(toId: Hash, c: Context, a: Action, s: Store)
    requires a.CreateOrder? || a.FillOrder? || a.CloseOrder?
    requires CanonicalStore(s) && Sound(toId, s) && Execute(c, a, s).Ok?
    ensures CanonicalStore(Execute(c, a, s).store)
  {
    assert !a.CreateOrder? ==> OrderKey(a.order) in s && EntrySound(toId, s, OrderKey(a.order));
    hide CanonicalStore, Sound, CreateOrderSpec, FillOrderSpec, CloseOrderSpec;
    match a
    case CreateOrder(_, _, _, _, _) => CreateOrderCanonical(c, a, s);
    case FillOrder(_, _, _, _, _) => FillCanonical(c, a, s);
    case CloseOrder(_, _) => CloseOrderCanonical(c, a, s);
  }

  lemma MintCanonical(c: Context, w: WarpTransfer, source: Id, s: Store)
    requires CanonicalStore(s) && w.value != 0 && ExecuteMint(c, w, source, s).Ok?
    ensures CanonicalStore(ExecuteMint(c, w, source, s).store)
  {
  }

  lemma ReleaseCanonical(c: Context, w: WarpTransfer, source: Id, s: Store)
    requires CanonicalStore(s) && w.value != 0 && ImportReturn(c, w, source, s).Ok?
    ensures CanonicalStore(ImportReturn(c, w, source, s).store)
  {
    hide CanonicalStore, AddBalance, SubLoan;
    LoanCanonical(s, w.asset, source, w.value);
    var s1 := SubLoan(s, w.asset, source, w.value).store;
    AddBalanceCanonical(s1, w.to, w.asset, w.value);
    if w.reward > 0 {
      var s2 := AddBalance(s1, w.to, w.asset, w.value).store;
      LoanCanonical(s2, w.asset, source, w.reward);
      AddBalanceCanonical(SubLoan(s2, w.asset, source, w.reward).store, c.actor, w.asset, w.reward);
    }
  }

  lemma SwapCanonical(c: Context, w: WarpTransfer, assetIn: Id, s: Store)
    requires CanonicalStore(s) && w.swapIn != 0 && w.swapOut != 0 && SwapAssets(c, w, assetIn, s).Ok?
    ensures CanonicalStore(SwapAssets(c, w, assetIn, s).store)
  {
    hide CanonicalStore, AddBalance, SubBalance;
    SubBalanceCanonical(s, w.to, assetIn, w.swapIn);
    var s1 := SubBalance(s, w.to, assetIn, w.swapIn).store;
    AddBalanceCanonical(s1, c.actor, assetIn, w.swapIn);
    var s2 := AddBalance(s1, c.actor, assetIn, w.swapIn).store;
    SubBalanceCanonical(s2, c.actor, w.assetOut, w.swapOut);
    AddBalanceCanonical(SubBalance(s2, c.actor, w.assetOut, w.swapOut).store, w.to, w.assetOut, w.swapOut);
  }

  lemma ImportCanonical(c: Context, a: Action, s: Store)
    requires a.ImportAsset? && ValidSwap(a.transfer) && CanonicalStore(s) && ImportAssetSpec(c, a, s).Ok?
    ensures CanonicalStore(ImportAssetSpec(c, a, s).store)
  {
    hide CanonicalStore, ExecuteMint, ImportReturn, SwapAssets;
    if a.transfer.isReturn {
      ReleaseCanonical(c, a.transfer, a.source, s);
    } else {
      MintCanonical(c, a.transfer, a.source, s);
    }
    if a.transfer.swapIn != 0 && a.fill {
      SwapCanonical(c, a.transfer, AssetIn(c.toId, a.transfer, a.source), Credit(c, a.transfer, a.source, s).store);
    }
  }

  lemma LendCanonical(s: Store, owner: PublicKey, asset: Id, destination: Id, amount: uint64)
    requires CanonicalStore(s) && amount != 0 && Lend(s, owner, asset, destination, amount).Ok?
    ensures CanonicalStore(Lend(s, owner, asset, destination, amount).store)
  {
  }

  lemma WithdrawCanonical(c: Context, a: Action, s: Store)
    requires a.ExportAsset? && CanonicalStore(s) && ExecuteReturn(c, a, s).Ok?
    ensures CanonicalStore(ExecuteReturn(c, a, s).store)
  {
    hide CanonicalStore, SubBalance;
    var r := GetAsset(s, a.asset).value;
    var left := r.supply - a.value - a.reward;
    RecordCanonical(s, a.asset, AssetRecord(r.metadata, left, EMPTY_PUBLIC_KEY, true));
    var s1 := WriteSupply(s, a.asset, r.metadata, left);
    SubBalanceCanonical(s1, c.actor, a.asset, a.value);
    SubBalanceCanonical(SubBalance(s1, c.actor, a.asset, a.value).store, c.actor, a.asset, a.reward);
  }

  lemma ExportCanonical(c: Context, a: Action, s: Store)
    requires a.ExportAsset? && CanonicalStore(s) && ExportAssetSpec(c, a, s).Ok?
    ensures CanonicalStore(ExportAssetSpec(c, a, s).store)
  {
    hide CanonicalStore, Lend, ExecuteReturn;
    if a.isReturn {
      WithdrawCanonical(c, a, s);
    } else {
      LendCanonical(s, c.actor, a.asset, a.destination, a.value);
      if a.reward > 0 {
        LendCanonical(Lend(s, c.actor, a.asset, a.destination, a.value).store, c.actor, a.asset, a.destination,
                      a.reward);
      }
    }
  }

  /** Every successful deserialized action writes no zero. */
  lemma ExecuteCanonical(c: Context, a: Action, s: Store)
    requires WellFormed(a) && Sound(c.toId, s) && CanonicalStore(s) && Execute(c, a, s).Ok?
    ensures CanonicalStore(Execute(c, a, s).store)
  {
    hide CanonicalStore, Sound;
    match a
    case CreateOrder(_, _, _, _, _) => OrderActionCanonical(c.toId, c, a, s);
    case FillOrder(_, _, _, _, _) => OrderActionCanonical(c.toId, c, a, s);
    case CloseOrder(_, _) => OrderActionCanonical(c.toId, c, a, s);
    case ImportAsset(_, _, _) => ImportCanonical(c, a, s);
    case ExportAsset(_, _, _, _, _, _, _, _, _, _) => ExportCanonical(c, a, s);
    case _ => AssetActionCanonical(c, a, s);
  }

  // ---- Transactions ----

  /** What the deduction leaves of a store. */
  function PaidStore(tx: Tx, s: Store): Store {
    SubBalance(s, tx.signer, EMPTY_ID, tx.maxFee).store
  }

  /** What can be checked before a transaction: it is refunded something, or the signer's native balance and
      what the action brings exceed the fee and what the action costs. */
  predicate KeepsChange(e: Env, tx: Tx, s: Store) {
    var c, paid := ContextOf(e, tx), PaidStore(tx, s);
    var runs := Admissible(c, tx.action, paid);
    || tx.refund != 0
    || tx.maxFee + (if runs then Cost(c, tx.action, paid, tx.signer, EMPTY_ID) else 0)
       < GetBalance(s, tx.signer, EMPTY_ID) + (if runs then Gain(c, tx.action, paid, tx.signer, EMPTY_ID) else 0)
  }

  /** The refund always writes the signer's balance: a zero is stored exactly when that balance is zero. */
  lemma RefundCanonicalIff(s: Store, signer: PublicKey, refund: uint64)
    requires CanonicalStore(s) && AddBalance(s, signer, EMPTY_ID, refund).Ok?
    ensures CanonicalStore(AddBalance(s, signer, EMPTY_ID, refund).store)
       <==> GetBalance(s, signer, EMPTY_ID) + refund != 0
  {
    var t := AddBalance(s, signer, EMPTY_ID, refund).store;
    assert BalanceKey(signer, EMPTY_ID) in t;
  }

  lemma CommittedCanonical(e: Env, tx: Tx, s: Store)
    requires WellFormed(tx.action) && Sound(e.toId, s) && CanonicalStore(s)
    ensures CanonicalStore(Committed(s, Execute(ContextOf(e, tx), tx.action, s)))
  {
    if Execute(ContextOf(e, tx), tx.action, s).Ok? { ExecuteCanonical(ContextOf(e, tx), tx.action, s); }
    hide Execute, Sound, WellFormed, CanonicalStore;
  }

  /** What a transaction, before its refund, leaves of its signer's native balance. */
  lemma ChangeLeft(e: Env, tx: Tx, s: Store, fees: nat)
    requires WellFormed(tx.action) && LedgerInv(e.toId, s, fees) && tx.maxFee <= GetBalance(s, tx.signer, EMPTY_ID)
    ensures var c, paid := ContextOf(e, tx), PaidStore(tx, s);
      var runs := Admissible(c, tx.action, paid);
      GetBalance(Committed(paid, Execute(c, tx.action, paid)), tx.signer, EMPTY_ID)
        + tx.maxFee + (if runs then Cost(c, tx.action, paid, tx.signer, EMPTY_ID) else 0)
      == GetBalance(s, tx.signer, EMPTY_ID) + (if runs then Gain(c, tx.action, paid, tx.signer, EMPTY_ID) else 0)
  {
    var c, paid := ContextOf(e, tx), PaidStore(tx, s);
    DeductKeepsLedger(e.toId, s, tx.signer, tx.maxFee, fees);
    hide Execute, Admissible, Gain, Cost, WellFormed, Sound, Balanced;
    ExecuteSucceedsIff(c, tx.action, paid, fees + tx.maxFee);
    if Execute(c, tx.action, paid).Ok? { ExecuteMoves(c, tx.action, paid, tx.signer, EMPTY_ID); }
  }

  /** A payable transaction on a canonical ledger leaves it canonical exactly when it keeps change. */
  lemma TxCanonicalIff(e: Env, tx: Tx, s: Store, fees: nat)
    requires WellFormed(tx.action) && FeesValid(tx) && FreshId(s, tx.id)
      && tx.maxFee <= GetBalance(s, tx.signer, EMPTY_ID)
    requires LedgerInv(e.toId, s, fees) && CanonicalStore(s)
    ensures ApplyTx(e, tx, s).Applied?
    ensures CanonicalStore(ApplyTx(e, tx, s).store) <==> KeepsChange(e, tx, s)
  {
    var paid := PaidStore(tx, s);
    var o := Execute(ContextOf(e, tx), tx.action, paid);
    TxKeepsLedger(e, tx, s, fees);
    SubBalanceCanonical(s, tx.signer, EMPTY_ID, tx.maxFee);
    DeductKeepsLedger(e.toId, s, tx.signer, tx.maxFee, fees);
    hide Execute, Sound, Balanced, WellFormed, CanonicalStore, Admissible, Gain, Cost, FreshId;
    CommittedCanonical(e, tx, paid);
    ChangeLeft(e, tx, s, fees);
    RefundCanonicalIff(Committed(paid, o), tx.signer, tx.refund);
  }

  /** A transaction that is part of a block keeps change. */
  predicate StepKeepsChange(toId: Hash, ch: Chain, x: Entry) {
    FeesValid(x.tx) && x.tx.maxFee <= GetBalance(ch.store, x.tx.signer, EMPTY_ID) ==>
      KeepsChange(EnvOf(toId, x), x.tx, ch.store)
  }

  lemma StepCanonicalIff(toId: Hash, ch: Chain, x: Entry)
    requires WellFormed(x.tx.action) && LedgerInv(toId, ch.store, ch.fees) && FreshId(ch.store, x.tx.id)
    requires CanonicalStore(ch.store)
    ensures CanonicalStore(Step(toId, ch, x).store) <==> StepKeepsChange(toId, ch, x)
  {
    hide ApplyTx, CanonicalStore, KeepsChange, LedgerInv, WellFormed, FreshId;
    if FeesValid(x.tx) {
      TxKeepsLedger(EnvOf(toId, x), x.tx, ch.store, ch.fees);
      if x.tx.maxFee <= GetBalance(ch.store, x.tx.signer, EMPTY_ID) {
        TxCanonicalIff(EnvOf(toId, x), x.tx, ch.store, ch.fees);
      }
    }
  }

  /** Every store of a run, the first and the last included, is canonical. */
  ghost predicate CanonicalAlong(toId: Hash, ch: Chain, xs: seq<Entry>) {
    CanonicalStore(Run(toId, ch, xs).store) && (xs == [] || CanonicalAlong(toId, ch, xs[..|xs| - 1]))
  }

  /** Every transaction of a run keeps change where it runs. */
  predicate KeepsChangeAlong(toId: Hash, ch: Chain, xs: seq<Entry>) {
    xs == []
    || (KeepsChangeAlong(toId, ch, xs[..|xs| - 1])
        && StepKeepsChange(toId, Run(toId, ch, xs[..|xs| - 1]), xs[|xs| - 1]))
  }

  /** A run of deserialized transactions never stores a zero exactly when every one of them keeps change. */
  lemma {:induction false} RunCanonicalIff(toId: Hash, ch: Chain, xs: seq<Entry>)
    requires LedgerInv(toId, ch.store, ch.fees) && CanonicalStore(ch.store) && FreshRun(toId, ch, xs)
    requires forall x :: x in xs ==> WellFormed(x.tx.action)
    ensures CanonicalAlong(toId, ch, xs) <==> KeepsChangeAlong(toId, ch, xs)
  {
    hide CanonicalStore, LedgerInv, WellFormed, Step, StepKeepsChange, FreshId;
    if xs != [] {
      var n := |xs| - 1;
      FreshPrefix(toId, ch, xs);
      RunCanonicalIff(toId, ch, xs[..n]);
      RunKeepsLedger(toId, ch, xs[..n]);
      if CanonicalAlong(toId, ch, xs[..n]) {
        StepCanonicalIff(toId, Run(toId, ch, xs[..n]), xs[n]);
      }
    }
  }

  // ---- What canonical stores are for ----

  /** The two ledgers answer every query alike. */
  ghost predicate SameLedger(s: Store, t: Store) {
    && (forall p: PublicKey, b: Id :: GetBalance(s, p, b) == GetBalance(t, p, b))
    && (forall id: Id :: GetAsset(s, id) == GetAsset(t, id) && GetOrder(s, id) == GetOrder(t, id))
    && (forall b: Id, d: Id :: GetLoan(s, b, d) == GetLoan(t, b, d))
    && (forall k: Key | k.HeightKey? || k.IncomingWarpKey? || k.OutgoingWarpKey? ::
          (k in s <==> k in t) && (k in s ==> s[k] == t[k]))
  }

  /** Canonical stores of the same ledger are equal, entry by entry. */
  lemma SameLedgerSameStore(s: Store, t: Store)
    requires CanonicalStore(s) && CanonicalStore(t) && SameLedger(s, t)
    ensures s == t
  {
    forall k: Key ensures (k in s <==> k in t) && (k in s ==> s[k] == t[k]) {
      assert k in s ==> NonZero(k, s[k]);
      assert k in t ==> NonZero(k, t[k]);
      match k
      case BalanceKey(p, b) => assert GetBalance(s, p, b) == GetBalance(t, p, b);
      case AssetKey(id) => assert GetAsset(s, id) == GetAsset(t, id);
      case OrderKey(id) => assert GetOrder(s, id) == GetOrder(t, id);
      case LoanKey(b, d) => assert GetLoan(s, b, d) == GetLoan(t, b, d);
      case _ =>
    }
  }
}

/** Transactions: the fee is deducted, the action runs, a failed action is rolled back, and the unused
    part of the fee is refunded. The ledger invariant holds over every run of transactions. */
module Transactions {
  import opened Common
  import opened Warp
  import opened Ledger
  import opened Actions
  import opened Conservation
  import opened Soundness

  datatype Tx = Tx(id: Id, signer: PublicKey, action: Action, maxFee: uint64, refund: uint64)

  /** What the block and the virtual machine add to a transaction. */
  datatype Env = Env(time: int64, warpVerified: bool, toId: Hash)

  /** A transaction its signer cannot pay for is not part of any block. */
  datatype Receipt =
    | Rejected
    | Crashed
    | Applied(store: Store, outcome: Outcome)

  function ContextOf(e: Env, tx: Tx): Context {
    Context(tx.signer, tx.id, e.time, e.warpVerified, e.toId)
  }

  /** The state the refund is paid into: the action's own, or the one before it when it failed. */
  function Committed(before: Store, o: Outcome): Store {
    if o.Ok? then o.store else before
  }

  function ApplyTx(e: Env, tx: Tx, s: Store): Receipt {
    var paid := SubBalance(s, tx.signer, EMPTY_ID, tx.maxFee);
    if !paid.Ok? then Rejected else
    var o := Execute(ContextOf(e, tx), tx.action, paid.store);
    if o.Panic? then Crashed else
    var refunded := AddBalance(Committed(paid.store, o), tx.signer, EMPTY_ID, tx.refund);
    if !refunded.Ok? then Rejected else Applied(refunded.store, o)
  }

  // ---- The ledger invariant ----

  /** Every unit of recorded supply is in a balance, an open order or a loan; of the native asset, the
      fees collected so far are missing. */
  ghost predicate Balanced(s: Store, fees: nat) {
    forall a: Id :: Gap(s, a) == if a == EMPTY_ID then fees else 0
  }

  ghost predicate LedgerInv(toId: Hash, s: Store, fees: nat) {
    Sound(toId, s) && Balanced(s, fees)
  }

  predicate FeesValid(tx: Tx) { tx.refund <= tx.maxFee }

  lemma DeductKeepsLedger(toId: Hash, s: Store, signer: PublicKey, fee: uint64, fees: nat)
    requires LedgerInv(toId, s, fees) && SubBalance(s, signer, EMPTY_ID, fee).Ok?
    ensures LedgerInv(toId, SubBalance(s, signer, EMPTY_ID, fee).store, fees + fee)
  {
    SubBalanceGap(s, signer, EMPTY_ID, fee);
    ThenBalances(toId, s, s, SubBalance(s, signer, EMPTY_ID, fee).store);
  }

  lemma RefundKeepsLedger(toId: Hash, s: Store, signer: PublicKey, refund: uint64, fees: nat)
    requires LedgerInv(toId, s, fees) && refund <= fees && AddBalance(s, signer, EMPTY_ID, refund).Ok?
    ensures LedgerInv(toId, AddBalance(s, signer, EMPTY_ID, refund).store, fees - refund)
  {
    AddBalanceGap(s, signer, EMPTY_ID, refund);
    ThenBalances(toId, s, s, AddBalance(s, signer, EMPTY_ID, refund).store);
  }

  /** A credit that the supply of the asset covers cannot overflow. */
  lemma CreditFits(s: Store, owner: PublicKey, asset: Id, amount: uint64)
    requires Holdings(s, asset) + amount <= MAX_UINT64
    ensures AddBalance(s, owner, asset, amount).Ok?
  {
    HoldingsBoundEntry(s, asset, BalanceKey(owner, asset));
  }

  lemma CommittedKeepsLedger(e: Env, tx: Tx, s: Store, fees: nat)
    requires LedgerInv(e.toId, s, fees) && FreshId(s, tx.id)
    ensures LedgerInv(e.toId, Committed(s, Execute(ContextOf(e, tx), tx.action, s)), fees)
  {
    var c := ContextOf(e, tx);
    if Execute(c, tx.action, s).Ok? {
      ExecuteConserves(c, tx.action, s);
      ExecuteKeepsSound(c, tx.action, s);
    }
  }

  /** One transaction, successful or rolled back, keeps the ledger invariant and never stops the node;
      it is rejected exactly when its signer cannot pay the maximum fee. */
  lemma TxKeepsLedger(e: Env, tx: Tx, s: Store, fees: nat)
    requires LedgerInv(e.toId, s, fees) && FreshId(s, tx.id) && FeesValid(tx)
    ensures !ApplyTx(e, tx, s).Crashed?
    ensures ApplyTx(e, tx, s).Rejected? <==> GetBalance(s, tx.signer, EMPTY_ID) < tx.maxFee
    ensures ApplyTx(e, tx, s).Applied?
        ==> LedgerInv(e.toId, ApplyTx(e, tx, s).store, fees + tx.maxFee - tx.refund)
  {
    var paid := SubBalance(s, tx.signer, EMPTY_ID, tx.maxFee);
    if paid.Ok? {
      DeductKeepsLedger(e.toId, s, tx.signer, tx.maxFee, fees);
      var o := Execute(ContextOf(e, tx), tx.action, paid.store);
      ExecuteNeverPanics(ContextOf(e, tx), tx.action, paid.store);
      CommittedKeepsLedger(e, tx, paid.store, fees + tx.maxFee);
      var t := Committed(paid.store, o);
      assert Gap(t, EMPTY_ID) == fees + tx.maxFee;
      CreditFits(t, tx.signer, EMPTY_ID, tx.refund);
      RefundKeepsLedger(e.toId, t, tx.signer, tx.refund, fees + tx.maxFee);
    }
  }

  /** A failed transaction costs its signer the fee and changes nothing else, whatever the action had
      written before it failed. */
  lemma FailedTxOnlyPays(e: Env, tx: Tx, s: Store, k: Key)
    requires ApplyTx(e, tx, s).Applied? && !ApplyTx(e, tx, s).outcome.Ok? && FeesValid(tx)
    ensures k != BalanceKey(tx.signer, EMPTY_ID) ==>
      var t := ApplyTx(e, tx, s).store; (k in t <==> k in s) && (k in s ==> t[k] == s[k])
    ensures GetBalance(ApplyTx(e, tx, s).store, tx.signer, EMPTY_ID)
         == GetBalance(s, tx.signer, EMPTY_ID) - tx.maxFee + tx.refund
  {
  }

  // ---- Runs ----

  datatype Entry = Entry(tx: Tx, time: int64, warpVerified: bool)

  function EnvOf(toId: Hash, x: Entry): Env { Env(x.time, x.warpVerified, toId) }

  /** A chain: its store, and the fees its transactions have paid so far. */
  datatype Chain = Chain(store: Store, fees: nat)

  function Step(toId: Hash, ch: Chain, x: Entry): Chain {
    var r := ApplyTx(EnvOf(toId, x), x.tx, ch.store);
    if r.Applied? && FeesValid(x.tx) then Chain(r.store, ch.fees + x.tx.maxFee - x.tx.refund) else ch
  }

  function Run(toId: Hash, ch: Chain, xs: seq<Entry>): Chain {
    if xs == [] then ch else Step(toId, Run(toId, ch, xs[..|xs| - 1]), xs[|xs| - 1])
  }

  /** Transaction ids are hashes: each is new to the store it is applied to. */
  ghost predicate FreshRun(toId: Hash, ch: Chain, xs: seq<Entry>) {
    forall i :: 0 <= i < |xs| ==> FreshId(Run(toId, ch, xs[..i]).store, xs[i].tx.id)
  }

  lemma FreshPrefix(toId: Hash, ch: Chain, xs: seq<Entry>)
    requires xs != [] && FreshRun(toId, ch, xs)
    ensures FreshRun(toId, ch, xs[..|xs| - 1])
    ensures FreshId(Run(toId, ch, xs[..|xs| - 1]).store, xs[|xs| - 1].tx.id)
  {
    var ys := xs[..|xs| - 1];
    forall i | 0 <= i < |ys| ensures FreshId(Run(toId, ch, ys[..i]).store, ys[i].tx.id) {
      assert ys[..i] == xs[..i];
    }
  }

  lemma StepKeepsLedger(toId: Hash, ch: Chain, x: Entry)
    requires LedgerInv(toId, ch.store, ch.fees) && FreshId(ch.store, x.tx.id)
    ensures LedgerInv(toId, Step(toId, ch, x).store, Step(toId, ch, x).fees)
  {
    if FeesValid(x.tx) {
      TxKeepsLedger(EnvOf(toId, x), x.tx, ch.store, ch.fees);
    }
  }

  /** Conservation and soundness over every run. */
  lemma {:induction false} RunKeepsLedger(toId: Hash, ch: Chain, xs: seq<Entry>)
    requires LedgerInv(toId, ch.store, ch.fees) && FreshRun(toId, ch, xs)
    ensures LedgerInv(toId, Run(toId, ch, xs).store, Run(toId, ch, xs).fees)
  {
    if xs != [] {
      var n := |xs| - 1;
      FreshPrefix(toId, ch, xs);
      RunKeepsLedger(toId, ch, xs[..n]);
      StepKeepsLedger(toId, Run(toId, ch, xs[..n]), xs[n]);
    }
  }

  /** An asset made on this chain keeps its record, and stays one, through any transaction. */
  lemma TxKeepsNative(e: Env, tx: Tx, s: Store, fees: nat, id: Id)
    requires LedgerInv(e.toId, s, fees) && FreshId(s, tx.id) && ApplyTx(e, tx, s).Applied?
    requires AssetKey(id) in s && !s[AssetKey(id)].asset.warp
    ensures AssetKey(id) in ApplyTx(e, tx, s).store && !ApplyTx(e, tx, s).store[AssetKey(id)].asset.warp
  {
    var c, paid := ContextOf(e, tx), SubBalance(s, tx.signer, EMPTY_ID, tx.maxFee).store;
    ThenBalances(e.toId, s, s, paid);
    if Execute(c, tx.action, paid).Ok? { ExecuteKeepsSound(c, tx.action, paid); }
    hide Execute, Sound;
  }

  lemma {:induction false} RunKeepsNative(toId: Hash, ch: Chain, xs: seq<Entry>, id: Id)
    requires LedgerInv(toId, ch.store, ch.fees) && FreshRun(toId, ch, xs)
    requires AssetKey(id) in ch.store && !ch.store[AssetKey(id)].asset.warp
    ensures AssetKey(id) in Run(toId, ch, xs).store && !Run(toId, ch, xs).store[AssetKey(id)].asset.warp
  {
    hide ApplyTx, LedgerInv, FreshId;
    if xs != [] {
      var n := |xs| - 1;
      var mid := Run(toId, ch, xs[..n]);
      FreshPrefix(toId, ch, xs);
      RunKeepsNative(toId, ch, xs[..n], id);
      RunKeepsLedger(toId, ch, xs[..n]);
      if ApplyTx(EnvOf(toId, xs[n]), xs[n].tx, mid.store).Applied? {
        TxKeepsNative(EnvOf(toId, xs[n]), xs[n].tx, mid.store, mid.fees, id);
      }
    }
  }

  // ---- What the invariant rules out ----

  /** An asset without a record has no holder, no order paying it out and no loan. */
  lemma MissingAssetIsNowhere(toId: Hash, s: Store, fees: nat, asset: Id)
    requires LedgerInv(toId, s, fees) && AssetKey(asset) !in s
    ensures forall owner: PublicKey :: GetBalance(s, owner, asset) == 0
    ensures forall o: Id :: OrderKey(o) in s ==> s[OrderKey(o)].order.outAsset != asset
    ensures forall d: Id :: LoanKey(asset, d) !in s
  {
    assert Gap(s, asset) == 0;
    forall owner: PublicKey ensures GetBalance(s, owner, asset) == 0 {
      HoldingsBoundEntry(s, asset, BalanceKey(owner, asset));
    }
    forall o: Id | OrderKey(o) in s ensures s[OrderKey(o)].order.outAsset != asset {
      assert EntrySound(toId, s, OrderKey(o));
      HoldingsBoundEntry(s, asset, OrderKey(o));
    }
    forall d: Id ensures LoanKey(asset, d) !in s {
      assert LoanKey(asset, d) in s ==> EntrySound(toId, s, LoanKey(asset, d));
    }
  }

  lemma BalanceWithinSupply(s: Store, fees: nat, owner: PublicKey, asset: Id)
    requires Balanced(s, fees)
    ensures GetBalance(s, owner, asset) <= Supply(s, asset)
  {
    assert Gap(s, asset) >= 0;
    HoldingsBoundEntry(s, asset, BalanceKey(owner, asset));
  }

  /** Burning fails only for a zero value or a missing balance: the record is there and covers it. */
  lemma BurnSucceedsIff(c: Context, a: Action, s: Store, fees: nat)
    requires a.BurnAsset? && Balanced(s, fees)
    ensures BurnAssetSpec(c, a, s).Ok? <==> 0 < a.value <= GetBalance(s, c.actor, a.asset)
    ensures BurnAssetSpec(c, a, s).Err? ==> BurnAssetSpec(c, a, s).failure in {ValueZero, InvalidBalance}
  {
    BalanceWithinSupply(s, fees, c.actor, a.asset);
  }

  /** A transfer the sender can cover always goes through: the credit cannot overflow. */
  lemma TransferSucceedsIff(c: Context, a: Action, s: Store, fees: nat)
    requires a.Transfer? && Balanced(s, fees)
    ensures TransferSpec(c, a, s).Ok? <==> 0 < a.value <= GetBalance(s, c.actor, a.asset)
  {
    var s1 := SubBalance(s, c.actor, a.asset, a.value);
    if s1.Ok? {
      SubBalanceGap(s, c.actor, a.asset, a.value);
      assert Gap(s1.store, a.asset) >= a.value;
      CreditFits(s1.store, a.to, a.asset, a.value);
    }
  }

  /** The owner of an open order can always close it and gets back all that is locked. */
  lemma CloseSucceedsIff(c: Context, a: Action, s: Store, fees: nat)
    requires a.CloseOrder? && Balanced(s, fees)
    ensures CloseOrderSpec(c, a, s).Ok? <==>
      OrderKey(a.order) in s && s[OrderKey(a.order)].order.owner == c.actor
      && s[OrderKey(a.order)].order.outAsset == a.outAsset
    ensures CloseOrderSpec(c, a, s).Ok? ==>
      GetBalance(CloseOrderSpec(c, a, s).store, c.actor, a.outAsset)
        == GetBalance(s, c.actor, a.outAsset) + Locked(s, a.order)
  {
    if OrderKey(a.order) in s && s[OrderKey(a.order)].order.outAsset == a.outAsset {
      DeleteOrderGap(s, a.order);
      var s1 := DeleteOrder(s, a.order);
      assert Gap(s1, a.outAsset) >= Locked(s, a.order);
      CreditFits(s1, c.actor, a.outAsset, Locked(s, a.order));
    }
  }
}

/** Imports: when the credit goes through, what the swap needs, and what moves. */
module Imports {
  import opened Common
  import opened Warp
  import opened Ledger
  import opened Actions
  import opened Conservation
  import opened Soundness
  import opened Transactions

  // ---- Crediting an import ----

  lemma PayFits(s: Store, actor: PublicKey, w: WarpTransfer, asset: Id)
    requires Holdings(s, asset) + w.value + w.reward <= MAX_UINT64
    ensures Pay(s, actor, w, asset).Ok?
  {
    CreditFits(s, w.to, asset, w.value);
    AddBalanceGap(s, w.to, asset, w.value);
    var s1 := AddBalance(s, w.to, asset, w.value).store;
    assert Gap(s1, asset) == Gap(s, asset) - w.value;
    CreditFits(s1, actor, asset, w.reward);
  }

  /** A mint goes through exactly when no other asset sits at its id and its supply does not overflow. */
  lemma MintSucceedsIff(c: Context, w: WarpTransfer, source: Id, s: Store, fees: nat)
    requires Balanced(s, fees)
    ensures var id := ImportedAssetId(c.toId, w.asset, source);
      ExecuteMint(c, w, source, s).Ok? <==>
        (AssetKey(id) in s ==> s[AssetKey(id)].asset.warp) && Supply(s, id) + w.value + w.reward <= MAX_UINT64
  {
    var id := ImportedAssetId(c.toId, w.asset, source);
    var r := MintRecord(w, source, GetAsset(s, id));
    if r.Accept? {
      SetAssetGap(s, id, r.value);
      assert Gap(SetAsset(s, id, r.value), id) >= w.value + w.reward;
      PayFits(SetAsset(s, id, r.value), c.actor, w, id);
    }
  }

  lemma ReleaseFits(s: Store, fees: nat, owner: PublicKey, asset: Id, source: Id, amount: uint64)
    requires Balanced(s, fees) && amount <= GetLoan(s, asset, source)
    ensures SubLoan(s, asset, source, amount).Ok?
    ensures var t := AddBalance(SubLoan(s, asset, source, amount).store, owner, asset, amount);
      t.Ok? && Balanced(t.store, fees) && GetLoan(t.store, asset, source) == GetLoan(s, asset, source) - amount
  {
    SubLoanGap(s, asset, source, amount);
    var s1 := SubLoan(s, asset, source, amount).store;
    assert Gap(s1, asset) >= amount;
    CreditFits(s1, owner, asset, amount);
    AddBalanceGap(s1, owner, asset, amount);
  }

  /** A return goes through exactly when the loan to the source covers it. */
  lemma ReturnSucceedsIff(c: Context, w: WarpTransfer, source: Id, s: Store, fees: nat)
    requires Balanced(s, fees)
    ensures ImportReturn(c, w, source, s).Ok? <==> w.value + w.reward <= GetLoan(s, w.asset, source)
  {
    if w.value <= GetLoan(s, w.asset, source) {
      ReleaseFits(s, fees, w.to, w.asset, source, w.value);
      var s2 := AddBalance(SubLoan(s, w.asset, source, w.value).store, w.to, w.asset, w.value).store;
      if w.value + w.reward <= GetLoan(s, w.asset, source) {
        ReleaseFits(s2, fees, c.actor, w.asset, source, w.reward);
      }
    }
  }

  // ---- Swaps ----

  /** What a credit adds to a balance. */
  function Credited(c: Context, w: WarpTransfer, source: Id, p: PublicKey, asset: Id): nat {
    if asset != AssetIn(c.toId, w, source) then 0
    else (if p == w.to then w.value else 0) + (if p == c.actor then w.reward else 0)
  }

  lemma PayBalances(s: Store, actor: PublicKey, w: WarpTransfer, asset: Id, p: PublicKey, b: Id)
    requires Pay(s, actor, w, asset).Ok?
    ensures GetBalance(Pay(s, actor, w, asset).store, p, b)
         == GetBalance(s, p, b)
          + (if b != asset then 0 else (if p == w.to then w.value else 0) + (if p == actor then w.reward else 0))
  {
  }

  lemma CreditBalances(c: Context, w: WarpTransfer, source: Id, s: Store, p: PublicKey, b: Id)
    requires Credit(c, w, source, s).Ok?
    ensures GetBalance(Credit(c, w, source, s).store, p, b) == GetBalance(s, p, b) + Credited(c, w, source, p, b)
  {
    if w.isReturn {
      hide SubLoan;
    } else {
      hide Pay;
      var id := ImportedAssetId(c.toId, w.asset, source);
      var r := MintRecord(w, source, GetAsset(s, id)).value;
      PayBalances(SetAsset(s, id, r), c.actor, w, id, p, b);
    }
  }

  lemma CreditKeepsBalanced(c: Context, w: WarpTransfer, source: Id, s: Store, fees: nat)
    requires Balanced(s, fees) && Credit(c, w, source, s).Ok?
    ensures Balanced(Credit(c, w, source, s).store, fees)
  {
    CreditGap(c, w, source, s);
  }

  /** On a balanced store whose recipient holds the input, a swap succeeds exactly when the actor, after
      receiving the input, holds the output: neither credit can overflow. */
  lemma SwapSucceedsIff(c: Context, w: WarpTransfer, assetIn: Id, s: Store, fees: nat)
    requires Balanced(s, fees) && w.swapIn <= GetBalance(s, w.to, assetIn)
    ensures SwapAssets(c, w, assetIn, s).Ok? <==>
      w.swapOut <= GetBalance(s, c.actor, w.assetOut)
                 + (if w.assetOut == assetIn && w.to != c.actor then w.swapIn else 0)
  {
    hide Holdings;
    SubBalanceGap(s, w.to, assetIn, w.swapIn);
    var s1 := SubBalance(s, w.to, assetIn, w.swapIn).store;
    assert Gap(s1, assetIn) >= w.swapIn;
    CreditFits(s1, c.actor, assetIn, w.swapIn);
    AddBalanceGap(s1, c.actor, assetIn, w.swapIn);
    var s2 := AddBalance(s1, c.actor, assetIn, w.swapIn).store;
    if w.swapOut <= GetBalance(s2, c.actor, w.assetOut) {
      SubBalanceGap(s2, c.actor, w.assetOut, w.swapOut);
      var s3 := SubBalance(s2, c.actor, w.assetOut, w.swapOut).store;
      assert Gap(s3, w.assetOut) >= w.swapOut;
      CreditFits(s3, w.to, w.assetOut, w.swapOut);
    }
  }

  /** For a valid message whose credit goes through: the recipient can always give the input; a filling
      import succeeds exactly when the actor ends up holding the output; a swap that is not filled must
      wait for its expiry. */
  lemma ImportSucceedsIff(c: Context, a: Action, s: Store, fees: nat)
    requires a.ImportAsset? && Balanced(s, fees) && ValidSwap(a.transfer)
    requires c.warpVerified && a.transfer.value != 0 && Credit(c, a.transfer, a.source, s).Ok?
    ensures var w, assetIn := a.transfer, AssetIn(c.toId, a.transfer, a.source);
      && w.swapIn <= GetBalance(Credit(c, w, a.source, s).store, w.to, assetIn)
      && (ImportAssetSpec(c, a, s).Ok? <==>
           if w.swapIn == 0 then true
           else if !a.fill then w.swapExpiry <= c.time
           else w.swapOut <= GetBalance(s, c.actor, w.assetOut) + Credited(c, w, a.source, c.actor, w.assetOut)
                             + (if w.assetOut == assetIn && w.to != c.actor then w.swapIn else 0))
  {
    var w, assetIn := a.transfer, AssetIn(c.toId, a.transfer, a.source);
    var s1 := Credit(c, w, a.source, s).store;
    CreditKeepsBalanced(c, w, a.source, s, fees);
    CreditBalances(c, w, a.source, s, w.to, assetIn);
    CreditBalances(c, w, a.source, s, c.actor, w.assetOut);
    SwapSucceedsIff(c, w, assetIn, s1, fees);
  }

  // ---- What an import moves ----

  /** A successful import changes the record of one asset, by the minted amount, and one loan, by the
      released amount; with conservation, every other total stands. */
  lemma ImportMoves(c: Context, a: Action, s: Store)
    requires a.ImportAsset? && ImportAssetSpec(c, a, s).Ok?
    ensures var t, w, assetIn := ImportAssetSpec(c, a, s).store, a.transfer, AssetIn(c.toId, a.transfer, a.source);
      && (forall b: Id :: Supply(t, b) == Supply(s, b) + if b == assetIn && !w.isReturn then w.value + w.reward else 0)
      && (forall b: Id, d: Id :: GetLoan(t, b, d)
            == GetLoan(s, b, d) - if w.isReturn && b == w.asset && d == a.source then w.value + w.reward else 0)
      && (forall b: Id :: Holdings(t, b)
            == Holdings(s, b) + if b == assetIn && !w.isReturn then w.value + w.reward else 0)
  {
    var t, w := ImportAssetSpec(c, a, s).store, a.transfer;
    var s1 := Credit(c, w, a.source, s).store;
    CreditMoves(c, w, a.source, s);
    SwapOnlyBalances(c, w, AssetIn(c.toId, w, a.source), s1);
    assert OnlyBalances(s1, t);
    ImportAssetGap(c, a, s);
    forall b: Id ensures Supply(t, b) == Supply(s1, b) {
      assert AssetKey(b) in t <==> AssetKey(b) in s1;
    }
    forall b: Id, d: Id ensures GetLoan(t, b, d) == GetLoan(s1, b, d) {
      assert LoanKey(b, d) in t <==> LoanKey(b, d) in s1;
    }
    forall b: Id ensures Holdings(t, b) == Holdings(s, b) + Supply(t, b) - Supply(s, b) {
      assert Gap(t, b) == Gap(s, b);
    }
  }

  /** The two stores agree on records, orders and loans, except for one loan that moves by `n`. */
  ghost predicate LoanMoves(s: Store, t: Store, asset: Id, destination: Id, n: int) {
    && (forall b: Id :: Supply(t, b) == Supply(s, b))
    && (forall b: Id, d: Id :: GetLoan(t, b, d) == GetLoan(s, b, d) + if b == asset && d == destination then n else 0)
  }

  lemma ReleaseMoves(s: Store, owner: PublicKey, asset: Id, source: Id, amount: uint64)
    requires SubLoan(s, asset, source, amount).Ok?
    ensures LoanMoves(s, AddBalance(SubLoan(s, asset, source, amount).store, owner, asset, amount).store,
                      asset, source, 0 - amount)
  {
  }

  lemma MintMoves(c: Context, w: WarpTransfer, source: Id, s: Store)
    requires ExecuteMint(c, w, source, s).Ok?
    ensures var t, id := ExecuteMint(c, w, source, s).store, ImportedAssetId(c.toId, w.asset, source);
      && (forall b: Id :: Supply(t, b) == Supply(s, b) + if b == id then w.value + w.reward else 0)
      && (forall b: Id, d: Id :: GetLoan(t, b, d) == GetLoan(s, b, d))
  {
  }

  lemma CreditMoves(c: Context, w: WarpTransfer, source: Id, s: Store)
    requires Credit(c, w, source, s).Ok?
    ensures var t, assetIn := Credit(c, w, source, s).store, AssetIn(c.toId, w, source);
      && (forall b: Id :: Supply(t, b) == Supply(s, b) + if b == assetIn && !w.isReturn then w.value + w.reward else 0)
      && (forall b: Id, d: Id :: GetLoan(t, b, d)
            == GetLoan(s, b, d) - if w.isReturn && b == w.asset && d == source then w.value + w.reward else 0)
  {
    hide AddBalance, SubLoan, ExecuteMint;
    if w.isReturn {
      ReleaseMoves(s, w.to, w.asset, source, w.value);
      var s2 := AddBalance(SubLoan(s, w.asset, source, w.value).store, w.to, w.asset, w.value).store;
      if w.reward > 0 { ReleaseMoves(s2, c.actor, w.asset, source, w.reward); }
    } else {
      MintMoves(c, w, source, s);
    }
  }
}

/** The initial state: what loading the allocations leaves in the database, exactly when it balances, and
    the invariants every run starts from. */
module Genesis {
  import opened Common
  import opened Warp
  import opened Ledger
  import opened Conservation
  import opened Soundness
  import opened Transactions
  import opened Storage
  import opened StateDatabase
  import opened Canonical
  import opened Actions
  import opened CrossChain

  /** An allocation whose address parses to a public key, or does not. */
  datatype Allocation = Allocation(address: Option<PublicKey>, balance: uint64)

  const SYMBOL: bytes := [84, 75, 78, 86, 77] // "TKNVM"

  function Total(allocs: seq<Allocation>): nat {
    if allocs == [] then 0 else Total(allocs[..|allocs| - 1]) + allocs[|allocs| - 1].balance
  }

  predicate Parsed(allocs: seq<Allocation>) {
    forall x :: x in allocs ==> x.address.Some?
  }

  /** Balances are set, not added: a repeated address keeps the last allocation only. */
  function Funded(s: Store, allocs: seq<Allocation>): Store
    requires Parsed(allocs)
  {
    if allocs == [] then s
    else
      var x := allocs[|allocs| - 1];
      Funded(s, allocs[..|allocs| - 1])[BalanceKey(x.address.value, EMPTY_ID) := Amount(x.balance)]
  }

  function NativeRecord(supply: uint64): AssetRecord { AssetRecord(SYMBOL, supply, EMPTY_PUBLIC_KEY, false) }

  function Loaded(s: Store, allocs: seq<Allocation>): Store
    requires Parsed(allocs) && Total(allocs) <= MAX_UINT64
  {
    SetAsset(Funded(s, allocs), EMPTY_ID, NativeRecord(Total(allocs)))
  }

  lemma {:induction false} TotalGrows(allocs: seq<Allocation>, n: nat)
    requires n <= |allocs|
    ensures Total(allocs[..n]) <= Total(allocs)
  {
    if n < |allocs| {
      TotalGrows(allocs[..|allocs| - 1], n);
      assert allocs[..|allocs| - 1][..n] == allocs[..n];
    } else {
      assert allocs[..n] == allocs;
    }
  }

  lemma NoAllocations(s: Store)
    ensures Parsed([]) && Total([]) == 0 && Funded(s, []) == s
  {
  }

  /** One more allocation. */
  lemma OneMore(s: Store, allocs: seq<Allocation>, i: nat)
    requires i < |allocs| && Parsed(allocs[..i])
    ensures Total(allocs[..i + 1]) == Total(allocs[..i]) + allocs[i].balance <= Total(allocs)
    ensures Parsed(allocs[..i + 1]) <==> allocs[i].address.Some?
    ensures Parsed(allocs) ==> allocs[i].address.Some?
    ensures allocs[i].address.Some? ==>
      Funded(s, allocs[..i + 1])
        == Funded(s, allocs[..i])[BalanceKey(allocs[i].address.value, EMPTY_ID) := Amount(allocs[i].balance)]
  {
    var next := allocs[..i + 1];
    assert next[..i] == allocs[..i] && next[i] == allocs[i];
    TotalGrows(allocs, i + 1);
    assert forall x :: x in next ==> x in allocs[..i] || x == allocs[i];
  }

  /** Loading succeeds exactly when every address parses and the total does not overflow. */
  method Load(allocs: seq<Allocation>, db: Database) returns (ok: bool)
    requires db.Valid()
    modifies db
    ensures db.Valid()
    ensures ok <==> Parsed(allocs) && Total(allocs) <= MAX_UINT64
    ensures ok ==> db.store == Loaded(old(db.store), allocs)
  {
    hide Parsed, Total, Funded, Represents;
    var supply: uint64 := 0;
    assert Parsed([]) && Total([]) == 0 && Funded(db.store, []) == db.store by { NoAllocations(db.store); }
    for i := 0 to |allocs|
      invariant db.Valid()
      invariant Parsed(allocs[..i]) && supply == Total(allocs[..i]) && db.store == Funded(old(db.store), allocs[..i])
    {
      OneMore(old(db.store), allocs, i);
      var alloc := allocs[i];
      if alloc.address.None? {
        return false;
      }
      var sum := Add64(supply, alloc.balance);
      if sum.None? {
        return false;
      }
      supply := sum.value;
      db.SetBalance(alloc.address.value, EMPTY_ID, alloc.balance);
    }
    assert allocs[..|allocs|] == allocs;
    db.SetAsset(EMPTY_ID, SYMBOL, supply, EMPTY_PUBLIC_KEY, false);
    ok := true;
  }

  // ---- What the genesis holds ----

  lemma {:induction false} LastAllocation(allocs: seq<Allocation>, p: PublicKey, i: nat)
    requires Parsed(allocs) && i < |allocs| && allocs[i].address == Some(p)
    requires forall j :: i < j < |allocs| ==> allocs[j].address != Some(p)
    ensures GetBalance(Funded(map[], allocs), p, EMPTY_ID) == allocs[i].balance
  {
    var n := |allocs| - 1;
    assert Funded(map[], allocs)
        == Funded(map[], allocs[..n])[BalanceKey(allocs[n].address.value, EMPTY_ID) := Amount(allocs[n].balance)];
    if i < n {
      LastAllocation(allocs[..n], p, i);
      assert allocs[n].address != Some(p);
    }
    hide Funded;
  }

  lemma {:induction false} NoAllocation(allocs: seq<Allocation>, p: PublicKey)
    requires Parsed(allocs) && forall j :: 0 <= j < |allocs| ==> allocs[j].address != Some(p)
    ensures GetBalance(Funded(map[], allocs), p, EMPTY_ID) == 0
  {
    if allocs != [] {
      var n := |allocs| - 1;
      NoAllocation(allocs[..n], p);
      assert allocs[n].address != Some(p);
    }
  }

  lemma LoadedReads(allocs: seq<Allocation>, p: PublicKey, k: Key)
    requires Parsed(allocs) && Total(allocs) <= MAX_UINT64
    ensures var s := Loaded(map[], allocs);
      && GetAsset(s, EMPTY_ID) == Some(AssetRecord([84, 75, 78, 86, 77], Total(allocs), EMPTY_PUBLIC_KEY, false))
      && GetBalance(s, p, EMPTY_ID) == GetBalance(Funded(map[], allocs), p, EMPTY_ID)
      && (k in s ==> k == AssetKey(EMPTY_ID) || (k.BalanceKey? && k.asset == EMPTY_ID))
  {
  }

  /** A loaded genesis holds the native record, owned by nobody and not wrapped, and the last allocation of every
      address; there is nothing else in it. */
  lemma GenesisHolds(allocs: seq<Allocation>, p: PublicKey, k: Key)
    requires Parsed(allocs) && Total(allocs) <= MAX_UINT64
    ensures var s := Loaded(map[], allocs);
      && GetAsset(s, EMPTY_ID) == Some(AssetRecord([84, 75, 78, 86, 77], Total(allocs), EMPTY_PUBLIC_KEY, false))
      && (forall i | 0 <= i < |allocs| && allocs[i].address == Some(p)
                     && (forall j :: i < j < |allocs| ==> allocs[j].address != Some(p)) ::
            GetBalance(s, p, EMPTY_ID) == allocs[i].balance)
      && ((forall i :: 0 <= i < |allocs| ==> allocs[i].address != Some(p)) ==> GetBalance(s, p, EMPTY_ID) == 0)
      && (k in s ==> k == AssetKey(EMPTY_ID) || (k.BalanceKey? && k.asset == EMPTY_ID))
  {
    forall i | 0 <= i < |allocs| && allocs[i].address == Some(p)
               && (forall j :: i < j < |allocs| ==> allocs[j].address != Some(p))
      ensures GetBalance(Funded(map[], allocs), p, EMPTY_ID) == allocs[i].balance
    {
      LastAllocation(allocs, p, i);
    }
    if forall i :: 0 <= i < |allocs| ==> allocs[i].address != Some(p) { NoAllocation(allocs, p); }
    hide Funded, GetBalance, Parsed;
    LoadedReads(allocs, p, k);
  }

  // ---- Exactly when the genesis balances ----

  /** No allocation with a positive balance is overwritten by a later one to the same address; distinct
      addresses are enough. */
  predicate NothingOverwritten(allocs: seq<Allocation>) {
    forall i, j :: 0 <= i < j < |allocs| && allocs[i].address == allocs[j].address ==> allocs[i].balance == 0
  }

  /** What overwriting has made disappear: counted in the supply, held by nobody. */
  ghost function Shadowed(allocs: seq<Allocation>): nat
    requires Parsed(allocs)
  {
    if allocs == [] then 0
    else
      var n := |allocs| - 1;
      Shadowed(allocs[..n]) + GetBalance(Funded(map[], allocs[..n]), allocs[n].address.value, EMPTY_ID)
  }

  lemma {:induction false} FundedHoldings(allocs: seq<Allocation>, b: Id)
    requires Parsed(allocs)
    ensures Holdings(Funded(map[], allocs), b) + (if b == EMPTY_ID then Shadowed(allocs) else 0)
         == if b == EMPTY_ID then Total(allocs) else 0
  {
    if allocs != [] {
      var n := |allocs| - 1;
      FundedHoldings(allocs[..n], b);
      PutGap(Funded(map[], allocs[..n]), BalanceKey(allocs[n].address.value, EMPTY_ID), Amount(allocs[n].balance), b);
    }
  }

  /** Only native balances are set, each to the last allocation of its address. */
  lemma {:induction false} FundedEntries(allocs: seq<Allocation>, k: Key)
    requires Parsed(allocs)
    ensures k in Funded(map[], allocs) ==> k.BalanceKey? && k.asset == EMPTY_ID
    ensures k in Funded(map[], allocs) ==>
      exists i :: 0 <= i < |allocs| && allocs[i].address == Some(k.owner)
                  && Funded(map[], allocs)[k] == Amount(allocs[i].balance)
  {
    if allocs != [] {
      var n := |allocs| - 1;
      FundedEntries(allocs[..n], k);
      if k in Funded(map[], allocs) {
        if k == BalanceKey(allocs[n].address.value, EMPTY_ID) {
          assert allocs[n].address == Some(k.owner);
        } else {
          var i :| 0 <= i < n && allocs[..n][i].address == Some(k.owner)
                && Funded(map[], allocs[..n])[k] == Amount(allocs[..n][i].balance);
          assert allocs[i] == allocs[..n][i];
        }
      }
    }
  }

  /** As long as nothing is overwritten, an address without balance had no positive allocation. */
  lemma {:induction false} NoBalanceNoAllocation(allocs: seq<Allocation>, p: PublicKey)
    requires Parsed(allocs) && NothingOverwritten(allocs)
    ensures GetBalance(Funded(map[], allocs), p, EMPTY_ID) == 0
       <==> forall i :: 0 <= i < |allocs| && allocs[i].address == Some(p) ==> allocs[i].balance == 0
  {
    if allocs != [] {
      var n := |allocs| - 1;
      NoBalanceNoAllocation(allocs[..n], p);
      assert forall i :: 0 <= i < n ==> allocs[..n][i] == allocs[i];
      if allocs[n].address != Some(p) {
        assert GetBalance(Funded(map[], allocs), p, EMPTY_ID) == GetBalance(Funded(map[], allocs[..n]), p, EMPTY_ID);
      }
    }
  }

  lemma {:induction false} ShadowedIff(allocs: seq<Allocation>)
    requires Parsed(allocs)
    ensures Shadowed(allocs) == 0 <==> NothingOverwritten(allocs)
  {
    hide Funded, GetBalance;
    if allocs != [] {
      var n := |allocs| - 1;
      ShadowedIff(allocs[..n]);
      assert forall i :: 0 <= i < n ==> allocs[..n][i] == allocs[i];
      if NothingOverwritten(allocs[..n]) {
        NoBalanceNoAllocation(allocs[..n], allocs[n].address.value);
      }
    }
  }

  /** Genesis establishes the ledger invariant exactly when no positive allocation is overwritten. */
  lemma GenesisBalancesIff(toId: Hash, allocs: seq<Allocation>)
    requires Parsed(allocs) && Total(allocs) <= MAX_UINT64
    ensures LedgerInv(toId, Loaded(map[], allocs), 0) <==> NothingOverwritten(allocs)
  {
    var s, t := Funded(map[], allocs), Loaded(map[], allocs);
    forall k: Key { FundedEntries(allocs, k); }
    assert Sound(toId, t);
    SetAssetGap(s, EMPTY_ID, NativeRecord(Total(allocs)));
    assert forall b: Id :: Supply(s, b) == 0;
    forall b: Id ensures Gap(t, b) == if b == EMPTY_ID then Shadowed(allocs) else 0 {
      FundedHoldings(allocs, b);
    }
    assert Balanced(t, 0) ==> Gap(t, EMPTY_ID) == 0;
    ShadowedIff(allocs);
  }

  /** Positive allocations leave no zero in the database. */
  lemma GenesisCanonical(allocs: seq<Allocation>)
    requires Parsed(allocs) && Total(allocs) <= MAX_UINT64 && forall x :: x in allocs ==> x.balance != 0
    ensures CanonicalStore(Loaded(map[], allocs))
  {
  }

  // ---- Where it fails ----

  /** Two allocations to one address: the first is counted in the supply and held by nobody. */
  lemma RepeatedAddressUnbalanced(toId: Hash, a: PublicKey)
    ensures var allocs := [Allocation(Some(a), 3), Allocation(Some(a), 4)];
      Parsed(allocs) && Total(allocs) == 7 && !LedgerInv(toId, Loaded(map[], allocs), 0)
  {
    var allocs := [Allocation(Some(a), 3), Allocation(Some(a), 4)];
    TwoAllocations(allocs);
    assert allocs[0].address == allocs[1].address && allocs[0].balance != 0;
    GenesisBalancesIff(toId, allocs);
  }

  lemma TwoAllocations(allocs: seq<Allocation>)
    requires |allocs| == 2
    ensures Total(allocs) == allocs[0].balance + allocs[1].balance
  {
    var one := allocs[..1];
    assert one[..0] == [] && one[0] == allocs[0];
    assert Total(one) == Total(one[..0]) + one[0].balance;
  }

  /** From genesis, a signer who spends the whole balance on a fee and is refunded nothing leaves a stored
      zero behind. */
  lemma ZeroRefundStoresZero(toId: Hash, a: PublicKey, to: PublicKey, txId: Id)
    requires txId != EMPTY_ID
    ensures var allocs := [Allocation(Some(a), 5)];
      && Parsed(allocs) && Total(allocs) == 5
      && var s := Loaded(map[], allocs);
         var r := ApplyTx(Env(0, false, toId), Tx(txId, a, Transfer(to, EMPTY_ID, 1), 5, 0), s);
         && LedgerInv(toId, s, 0) && CanonicalStore(s) && FreshId(s, txId)
         && r.Applied? && !CanonicalStore(r.store)
  {
    var allocs := [Allocation(Some(a), 5)];
    assert allocs[..0] == [];
    assert Parsed(allocs) && Total(allocs) == 5;
    var s := Loaded(map[], allocs);
    GenesisBalancesIff(toId, allocs);
    GenesisCanonical(allocs);
    LoadedFacts(allocs, txId, txId);
    var tx := Tx(txId, a, Transfer(to, EMPTY_ID, 1), 5, 0);
    assert GetBalance(s, a, EMPTY_ID) == 5;
    TxCanonicalIff(Env(0, false, toId), tx, s, 0);
    assert GetBalance(PaidStore(tx, s), a, EMPTY_ID) == 0;
  }

  // ---- The world every cross-chain run starts from ----

  /** Chains freshly loaded, nothing burned, nothing in flight, no transaction yet. */
  ghost predicate FreshWorld(u: Universe, w: World) {
    && w.chains.Keys <= u.ids && w.burned == map[] && w.inflight == map[] && w.used == {}
    && forall x | x in w.chains :: w.chains[x].fees == 0
         && exists allocs :: Parsed(allocs) && Total(allocs) <= MAX_UINT64 && NothingOverwritten(allocs)
                             && w.chains[x].store == Loaded(map[], allocs)
  }

  lemma LoadedFacts(allocs: seq<Allocation>, id: Id, d: Id)
    requires Parsed(allocs) && Total(allocs) <= MAX_UINT64
    ensures AssetKey(id) in Loaded(map[], allocs) ==> id == EMPTY_ID && !Loaded(map[], allocs)[AssetKey(id)].asset.warp
    ensures OrderKey(id) !in Loaded(map[], allocs) && LoanKey(id, d) !in Loaded(map[], allocs)
  {
  }

  lemma FreshChain(u: Universe, ch: Chain, allocs: seq<Allocation>)
    requires Parsed(allocs) && Total(allocs) <= MAX_UINT64 && NothingOverwritten(allocs)
    requires ch == Chain(Loaded(map[], allocs), 0)
    ensures ChainInv(u, {}, ch)
    ensures forall id: Id :: id != EMPTY_ID ==> Supply(ch.store, id) == 0
    ensures forall b: Id, d: Id :: GetLoan(ch.store, b, d) == 0
  {
    GenesisBalancesIff(u.toId, allocs);
    hide Loaded, LedgerInv;
    forall id: Id
      ensures AssetKey(id) in ch.store ==> id == EMPTY_ID && !ch.store[AssetKey(id)].asset.warp
      ensures OrderKey(id) !in ch.store
    {
      LoadedFacts(allocs, id, EMPTY_ID);
    }
    forall b: Id, d: Id ensures LoanKey(b, d) !in ch.store { LoadedFacts(allocs, b, d); }
  }

  lemma FreshChainOf(u: Universe, w: World, x: Id)
    requires FreshWorld(u, w) && x in w.chains
    ensures ChainInv(u, {}, w.chains[x])
    ensures forall id: Id :: id != EMPTY_ID ==> Supply(w.chains[x].store, id) == 0
    ensures forall b: Id, d: Id :: GetLoan(w.chains[x].store, b, d) == 0
  {
    hide ChainInv, Loaded;
    var allocs :| Parsed(allocs) && Total(allocs) <= MAX_UINT64 && NothingOverwritten(allocs)
               && w.chains[x].store == Loaded(map[], allocs);
    FreshChain(u, w.chains[x], allocs);
  }

  /** A fresh world satisfies the cross-chain invariant, so every run from it does. */
  lemma FreshWorldInv(u: Universe, w: World)
    requires CollisionFree(u) && FreshWorld(u, w)
    ensures WorldInv(u, w)
  {
    forall x | x in w.chains { FreshChainOf(u, w, x); }
    hide ChainInv;
  }

  lemma EveryRunIsBacked(u: Universe, w: World, es: seq<Event>)
    requires CollisionFree(u) && FreshWorld(u, w) && ValidHistory(u, w, es)
    ensures WorldInv(u, History(u.toId, w, es))
  {
    FreshWorldInv(u, w);
    HistoryKeepsInv(u, w, es);
  }
}

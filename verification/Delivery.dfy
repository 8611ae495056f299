/** Messages over a run of the chains: what an export puts in flight stays there unchanged until an import at its
    destination takes it out, and that import pays whom the exporter named. */
module Delivery {
  import opened Common
  import opened Warp
  import opened Ledger
  import opened Actions
  import opened Soundness
  import opened Transactions
  import opened Flows
  import opened Effects
  import opened Entries
  import opened CrossChain

  function Applying(u: Universe, w: World, x: Id, tx: Tx, time: int64): Receipt
    requires x in w.chains
  {
    ApplyTx(EnvAt(u.toId, w, x, tx, time), tx, w.chains[x].store)
  }

  /** A transaction of one of the chains that is applied and whose action succeeds. */
  predicate Succeeds(u: Universe, w: World, e: Event) {
    && e.Submit? && e.chain in w.chains && FeesValid(e.tx)
    && var r := Applying(u, w, e.chain, e.tx, e.time);
       r.Applied? && r.outcome.Ok?
  }

  // ---- Departure ----

  /** The message of an export: what was asked for, addressed as asked, about the asset as its home knows it. */
  predicate Departs(u: Universe, x: Id, tx: Tx, m: OutgoingMessage)
    requires tx.action.ExportAsset?
  {
    var a, t := tx.action, m.transfer;
    && m.destination == a.destination && t.txId == tx.id
    && t.to == a.to && t.value == a.value && t.reward == a.reward && t.isReturn == a.isReturn
    && t.swapIn == a.swapIn && t.assetOut == a.assetOut && t.swapOut == a.swapOut && t.swapExpiry == a.swapExpiry
    && (if a.isReturn then a.asset == ImportedAssetId(u.toId, t.asset, a.destination) else t.asset == a.asset)
  }

  /** A successful export puts its message in flight and disturbs no other. */
  lemma ExportDeparts(u: Universe, w: World, x: Id, tx: Tx, time: int64)
    requires CollisionFree(u) && WorldInv(u, w) && ValidEvent(u, w, Submit(x, tx, time))
    requires Succeeds(u, w, Submit(x, tx, time)) && tx.action.ExportAsset?
    ensures var v, k := Next(u.toId, w, Submit(x, tx, time)), MessageKey(x, tx.id);
      k in v.inflight && Departs(u, x, tx, v.inflight[k]) && v.inflight == w.inflight[k := v.inflight[k]]
  {
    var r, s := Applying(u, w, x, tx, time), w.chains[x].store;
    hide ApplyTx, Flow, Backed, Balanced;
    LandedFacts(u, w, x, tx, time, r);
    assert ChainInv(u, w.used, w.chains[x]);
    if tx.action.isReturn {
      ReturnOrigin(u, w.used, s, tx.action.asset, r.outcome.message.value.transfer.asset, tx.action.destination);
    }
  }

  // ---- In flight ----

  /** An import of this very message at its destination. */
  predicate Collects(u: Universe, w: World, e: Event, k: MessageKey)
    requires k in w.inflight
  {
    && Succeeds(u, w, e) && e.chain == w.inflight[k].destination
    && e.tx.action.ImportAsset? && e.tx.action.source == k.source && e.tx.action.transfer == w.inflight[k].transfer
  }

  /** A message of one of the chains leaves flight exactly when it is collected, and is unchanged until then. */
  lemma StaysInFlight(u: Universe, w: World, e: Event, k: MessageKey)
    requires CollisionFree(u) && WorldInv(u, w) && ValidEvent(u, w, e) && k in w.inflight && k.source in w.chains
    ensures var v := Next(u.toId, w, e);
      (k in v.inflight <==> !Collects(u, w, e, k)) && (k in v.inflight ==> v.inflight[k] == w.inflight[k])
  {
    hide ApplyTx, ChainInv, Backed, CollisionFree;
    assert KnownMessage(u, w.chains.Keys, w.used, k, w.inflight[k]);
    if Succeeds(u, w, e) {
      SuccessFacts(u, w, e.chain, e.tx, e.time);
    }
  }

  lemma SuccessFacts(u: Universe, w: World, x: Id, tx: Tx, time: int64)
    requires CollisionFree(u) && WorldInv(u, w) && ValidEvent(u, w, Submit(x, tx, time))
    requires Succeeds(u, w, Submit(x, tx, time))
    ensures Facts(u, w, x, tx, time, Applying(u, w, x, tx, time))
  {
    hide WorldInv, CollisionFree, ApplyTx;
    LandedFacts(u, w, x, tx, time, Applying(u, w, x, tx, time));
  }

  lemma ChainsStay(toId: Hash, w: World, e: Event)
    ensures Next(toId, w, e).chains.Keys == w.chains.Keys
  {
  }

  /** A message that was collected never comes back: its transaction id is used. */
  lemma NeverAgain(u: Universe, w: World, e: Event, k: MessageKey)
    requires CollisionFree(u) && WorldInv(u, w) && ValidEvent(u, w, e)
    requires k !in w.inflight && k.source in w.chains && k.txId in w.used
    ensures k !in Next(u.toId, w, e).inflight
  {
    hide ApplyTx, WorldInv, CollisionFree;
  }

  lemma UsedStay(toId: Hash, w: World, e: Event)
    ensures w.used <= Next(toId, w, e).used
  {
  }

  ghost predicate CollectedAt(u: Universe, w: World, es: seq<Event>, k: MessageKey, i: nat)
    requires i < |es|
  {
    k in History(u.toId, w, es[..i]).inflight && Collects(u, History(u.toId, w, es[..i]), es[i], k)
  }

  ghost predicate Collected(u: Universe, w: World, es: seq<Event>, k: MessageKey) {
    exists i :: 0 <= i < |es| && CollectedAt(u, w, es, k, i)
  }

  lemma CollectedStep(u: Universe, w: World, es: seq<Event>, k: MessageKey)
    requires es != []
    ensures var n := |es| - 1;
      Collected(u, w, es, k) <==> Collected(u, w, es[..n], k) || CollectedAt(u, w, es, k, n)
  {
    var n := |es| - 1;
    hide CollectedAt;
    forall i | 0 <= i < n ensures CollectedAt(u, w, es[..n], k, i) == CollectedAt(u, w, es, k, i) {
      CollectedPrefix(u, w, es, k, i);
    }
  }

  lemma CollectedPrefix(u: Universe, w: World, es: seq<Event>, k: MessageKey, i: nat)
    requires i < |es| - 1
    ensures CollectedAt(u, w, es[..|es| - 1], k, i) == CollectedAt(u, w, es, k, i)
  {
    hide History, Collects;
    assert es[..|es| - 1][..i] == es[..i];
  }

  lemma ValidPrefix(u: Universe, w: World, es: seq<Event>)
    requires ValidHistory(u, w, es) && es != []
    ensures ValidHistory(u, w, es[..|es| - 1])
    ensures ValidEvent(u, History(u.toId, w, es[..|es| - 1]), es[|es| - 1])
  {
    hide ValidEvent, History;
    var n := |es| - 1;
    forall i | 0 <= i < n ensures ValidEvent(u, History(u.toId, w, es[..n][..i]), es[..n][i]) {
      assert es[..n][..i] == es[..i];
    }
  }

  /** Over every run a message is in flight, unchanged, exactly until it is collected. */
  lemma {:induction false} InFlightUntilCollected(u: Universe, w: World, es: seq<Event>, k: MessageKey)
    requires CollisionFree(u) && WorldInv(u, w) && ValidHistory(u, w, es) && k in w.inflight && k.source in w.chains
    ensures var v := History(u.toId, w, es);
      v.chains.Keys == w.chains.Keys && k.txId in v.used
      && (k in v.inflight <==> !Collected(u, w, es, k))
      && (k in v.inflight ==> v.inflight[k] == w.inflight[k])
  {
    if es == [] {
      hide Backed, ChainInv;
      assert KnownMessage(u, w.chains.Keys, w.used, k, w.inflight[k]);
    } else {
      var n := |es| - 1;
      var v := History(u.toId, w, es[..n]);
      hide WorldInv, CollisionFree, Next, ValidEvent, Collects, Collected, ValidHistory;
      ValidPrefix(u, w, es);
      InFlightUntilCollected(u, w, es[..n], k);
      HistoryKeepsInv(u, w, es[..n]);
      ChainsStay(u.toId, v, es[n]);
      UsedStay(u.toId, v, es[n]);
      CollectedStep(u, w, es, k);
      if k in v.inflight { StaysInFlight(u, v, es[n], k); } else { NeverAgain(u, v, es[n], k); }
    }
  }

  // ---- Arrival ----

  /** What a collected message does to a balance at its destination, the fee of the importer aside. */
  function Delivered(u: Universe, k: MessageKey, m: WarpTransfer, filled: bool, importer: PublicKey, p: PublicKey,
                     b: Id): int
  {
    var asset := if m.isReturn then m.asset else ImportedAssetId(u.toId, m.asset, k.source);
    Where(p, b, m.to, asset, m.value) + Where(p, b, importer, asset, m.reward)
    + if !filled || m.swapIn == 0 then 0 else
        Where(p, b, importer, asset, m.swapIn) - Where(p, b, m.to, asset, m.swapIn)
        + Where(p, b, m.to, m.assetOut, m.swapOut) - Where(p, b, importer, m.assetOut, m.swapOut)
  }

  function NetFee(tx: Tx, p: PublicKey, b: Id): int {
    Where(p, b, tx.signer, EMPTY_ID, tx.maxFee) - Where(p, b, tx.signer, EMPTY_ID, tx.refund)
  }

  /** The moves of a successful import are those its message describes. */
  lemma ImportDelivers(u: Universe, c: Context, a: Action, s: Store, p: PublicKey, b: Id)
    requires a.ImportAsset? && c.toId == u.toId
    ensures Gain(c, a, s, p, b) - Cost(c, a, s, p, b)
         == Delivered(u, MessageKey(a.source, a.transfer.txId), a.transfer, a.fill, c.actor, p, b)
  {
  }

  lemma LandsAt(u: Universe, w: World, e: Event)
    requires Succeeds(u, w, e)
    ensures Next(u.toId, w, e).chains
         == w.chains[e.chain := Chain(Applying(u, w, e.chain, e.tx, e.time).store,
                                      w.chains[e.chain].fees + e.tx.maxFee - e.tx.refund)]
  {
    hide ApplyTx;
  }

  /** However a message is collected, every balance at its destination moves as it says, and no other chain
      moves. */
  lemma CollectingPays(u: Universe, w: World, e: Event, k: MessageKey, p: PublicKey, b: Id)
    requires CollisionFree(u) && WorldInv(u, w) && ValidEvent(u, w, e)
    requires k in w.inflight && Collects(u, w, e, k)
    ensures var v, m, tx := Next(u.toId, w, e), w.inflight[k].transfer, e.tx;
      && v.chains.Keys == w.chains.Keys && (forall y | y in w.chains && y != e.chain :: v.chains[y] == w.chains[y])
      && GetBalance(v.chains[e.chain].store, p, b)
         == GetBalance(w.chains[e.chain].store, p, b)
          + Delivered(u, k, m, tx.action.fill, tx.signer, p, b) - NetFee(tx, p, b)
  {
    var x, tx := e.chain, e.tx;
    assert ChainInv(u, w.used, w.chains[x]);
    hide ApplyTx, WorldInv, CollisionFree, ValidEvent, Sound, Balanced, IdsKnown, Next, GetBalance;
    hide Gain, Cost, Delivered, EnvAt;
    LandsAt(u, w, e);
    var c := ContextAt(u, w, x, tx, e.time);
    TxMoves(EnvAt(u.toId, w, x, tx, e.time), tx, w.chains[x].store, p, b);
    ImportDelivers(u, c, tx.action, w.chains[x].store, p, b);
  }

  /** Collecting without fill a message that needs no swap, or whose swap has expired, cannot fail. */
  lemma ArrivalPays(u: Universe, w: World, k: MessageKey, tx: Tx, time: int64, p: PublicKey, b: Id)
    requires CollisionFree(u) && WorldInv(u, w) && Redeems(w, k, tx, time)
    requires ValidEvent(u, w, Submit(w.inflight[k].destination, tx, time))
    ensures var x, m := w.inflight[k].destination, w.inflight[k].transfer;
      var v := Next(u.toId, w, Submit(x, tx, time));
      && k !in v.inflight && x in v.chains
      && GetBalance(v.chains[x].store, p, b)
         == GetBalance(w.chains[x].store, p, b) + Delivered(u, k, m, false, tx.signer, p, b) - NetFee(tx, p, b)
  {
    var e := Submit(w.inflight[k].destination, tx, time);
    NoStuckFunds(u, w, k, tx, time);
    hide WorldInv, CollisionFree, ValidEvent, Delivered, NetFee, Next, GetBalance;
    StaysInFlight(u, w, e, k);
    CollectingPays(u, w, e, k, p, b);
  }

  /** After a successful export and any run of the chains, its message is in flight, as it was sent, exactly unless
      it was collected. */
  lemma ExportStaysInFlight(u: Universe, w: World, x: Id, tx: Tx, time: int64, es: seq<Event>)
    requires CollisionFree(u) && WorldInv(u, w) && ValidEvent(u, w, Submit(x, tx, time))
    requires Succeeds(u, w, Submit(x, tx, time)) && tx.action.ExportAsset?
    requires ValidHistory(u, Next(u.toId, w, Submit(x, tx, time)), es)
    ensures var v, k := Next(u.toId, w, Submit(x, tx, time)), MessageKey(x, tx.id);
      var z := History(u.toId, v, es);
      && WorldInv(u, z) && z.chains.Keys == w.chains.Keys
      && (k in z.inflight <==> !Collected(u, v, es, k))
      && (k in z.inflight ==> Departs(u, x, tx, z.inflight[k]))
  {
    var v, k := Next(u.toId, w, Submit(x, tx, time)), MessageKey(x, tx.id);
    ExportDeparts(u, w, x, tx, time);
    NextKeepsInv(u, w, Submit(x, tx, time));
    ChainsStay(u.toId, w, Submit(x, tx, time));
    hide WorldInv, CollisionFree, ValidEvent, Next, Collected, ValidHistory, Departs, Applying;
    InFlightUntilCollected(u, v, es, k);
    HistoryKeepsInv(u, v, es);
  }

  /** From end to end: after an export and any run that has not collected its message yet, anyone who pays the fee
      can collect it once it needs no swap, and the recipient the exporter named gains the value the exporter gave
      up, in the asset as the destination knows it, and the importer the reward. */
  lemma ExportReachesRecipient(u: Universe, w: World, x: Id, tx: Tx, time: int64, es: seq<Event>, redeem: Tx,
                               later: int64, p: PublicKey, b: Id)
    requires CollisionFree(u) && WorldInv(u, w) && ValidEvent(u, w, Submit(x, tx, time))
    requires Succeeds(u, w, Submit(x, tx, time)) && tx.action.ExportAsset?
    requires var a, v, k := tx.action, Next(u.toId, w, Submit(x, tx, time)), MessageKey(x, tx.id);
      var z := History(u.toId, v, es);
      && ValidHistory(u, v, es) && !Collected(u, v, es, k) && k in z.inflight
      && ValidEvent(u, z, Submit(a.destination, redeem, later)) && a.destination in z.chains
      && redeem.action == ImportAsset(false, z.inflight[k].transfer, x)
      && (a.swapIn == 0 || a.swapExpiry <= later)
      && FeesValid(redeem) && redeem.maxFee <= GetBalance(z.chains[a.destination].store, redeem.signer, EMPTY_ID)
    ensures var a, z := tx.action, History(u.toId, Next(u.toId, w, Submit(x, tx, time)), es);
      var d, home := a.destination, redeem.action.transfer.asset;
      var y := Next(u.toId, z, Submit(d, redeem, later));
      && MessageKey(x, tx.id) !in y.inflight && d in y.chains
      && (if a.isReturn then a.asset == ImportedAssetId(u.toId, home, d) else a.asset == home)
      && var asset := if a.isReturn then home else ImportedAssetId(u.toId, a.asset, x);
         GetBalance(y.chains[d].store, p, b) == GetBalance(z.chains[d].store, p, b)
           + Where(p, b, a.to, asset, a.value) + Where(p, b, redeem.signer, asset, a.reward) - NetFee(redeem, p, b)
  {
    var k, z := MessageKey(x, tx.id), History(u.toId, Next(u.toId, w, Submit(x, tx, time)), es);
    hide WorldInv, CollisionFree, ValidEvent, Next, History, Collected, ValidHistory, ApplyTx, NetFee, GetBalance;
    ExportStaysInFlight(u, w, x, tx, time, es);
    ArrivalPays(u, z, k, redeem, later, p, b);
  }
}

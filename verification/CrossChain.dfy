/** Any number of chains exchanging warp messages: wrapped supply is always backed by loans, and no
    message between them can get stuck. */
module CrossChain {
  import opened Common
  import opened Warp
  import opened Ledger
  import opened Actions
  import opened MapSums
  import opened Conservation
  import opened Soundness
  import opened Transactions
  import opened Imports
  import opened Flows
  import opened Payloads

  datatype MessageKey = MessageKey(source: Id, txId: Id)

  /** The chains that run the virtual machine, what was burned of each asset on each of them, the signed
      messages not yet imported, and the transaction ids used so far. */
  datatype World = World(
    chains: map<Id, Chain>,
    burned: map<(Id, Id), nat>,
    inflight: map<MessageKey, OutgoingMessage>,
    used: set<Id>)

  /** A transaction is submitted to one of the chains, or a chain that runs something else signs a message. */
  datatype Event =
    | Submit(chain: Id, tx: Tx, time: int64)
    | Foreign(key: MessageKey, message: OutgoingMessage)

  /** A message with the empty destination is addressed to every chain. */
  predicate Anycast(m: OutgoingMessage) { m.destination == EMPTY_ID }

  /** A message is verified where it is addressed, until it is imported there. */
  predicate Verified(w: World, x: Id, a: Action) {
    a.ImportAsset? && MessageKey(a.source, a.transfer.txId) in w.inflight
    && var m := w.inflight[MessageKey(a.source, a.transfer.txId)];
       m.transfer == a.transfer && (m.destination == x || Anycast(m))
  }

  /** The messages left once one of them was imported; one addressed to every chain stays importable. */
  function Consumed(inflight: map<MessageKey, OutgoingMessage>, k: MessageKey): map<MessageKey, OutgoingMessage> {
    if k in inflight && Anycast(inflight[k]) then inflight else inflight - {k}
  }

  function EnvAt(toId: Hash, w: World, x: Id, tx: Tx, time: int64): Env {
    Env(time, Verified(w, x, tx.action), toId)
  }

  function BurnedOn(w: World, x: Id, asset: Id): nat {
    if (x, asset) in w.burned then w.burned[(x, asset)] else 0
  }

  /** The effects of a successful action outside its chain. */
  function Publish(w: World, x: Id, tx: Tx, o: Outcome): World {
    match tx.action
    case BurnAsset(asset, value) => w.(burned := w.burned[(x, asset) := BurnedOn(w, x, asset) + value])
    case ImportAsset(_, transfer, source) => w.(inflight := Consumed(w.inflight, MessageKey(source, transfer.txId)))
    case ExportAsset(_, _, _, _, _, _, _, _, _, _) =>
      if o.Ok? && o.message.Some? then w.(inflight := w.inflight[MessageKey(x, tx.id) := o.message.value]) else w
    case _ => w
  }

  function Land(w: World, x: Id, tx: Tx, r: Receipt): World
    requires r.Applied? && x in w.chains && FeesValid(tx)
  {
    var w1 := if r.outcome.Ok? then Publish(w, x, tx, r.outcome) else w;
    w1.(chains := w.chains[x := Chain(r.store, w.chains[x].fees + tx.maxFee - tx.refund)], used := w.used + {tx.id})
  }

  function Next(toId: Hash, w: World, e: Event): World {
    match e
    case Submit(x, tx, time) =>
      if x !in w.chains || !FeesValid(tx) then w else
      var r := ApplyTx(EnvAt(toId, w, x, tx, time), tx, w.chains[x].store);
      if r.Applied? then Land(w, x, tx, r) else w
    case Foreign(key, message) => w.(inflight := w.inflight[key := message])
  }

  // ---- Assumptions: identifiers, hashes, and what deserialization lets through ----

  /** The identifiers of a run, those of its transactions among them, and the hash behind imported ids. */
  datatype Universe = Universe(toId: Hash, ids: set<Id>, txIds: set<Id>)

  ghost predicate CollisionFree(u: Universe) {
    && EMPTY_ID in u.ids && EMPTY_ID !in u.txIds && u.txIds <= u.ids
    && (forall a, s | a in u.ids && s in u.ids ::
          ImportedAssetId(u.toId, a, s) != EMPTY_ID && ImportedAssetId(u.toId, a, s) !in u.txIds)
    && (forall a, s, b, t | a in u.ids && s in u.ids && b in u.ids && t in u.ids
                         && ImportedAssetId(u.toId, a, s) == ImportedAssetId(u.toId, b, t) :: a == b && s == t)
  }

  predicate ValidMessage(u: Universe, key: MessageKey, m: OutgoingMessage) {
    && key.source in u.ids && m.transfer.asset in u.ids
    && m.transfer.txId == key.txId && key.txId != EMPTY_ID
    && m.transfer.value != 0 && ValidSwap(m.transfer)
  }

  predicate ValidEvent(u: Universe, w: World, e: Event) {
    match e
    case Submit(x, tx, _) => tx.id in u.txIds && tx.id !in w.used && WellFormed(tx.action)
    case Foreign(key, message) => key.source !in w.chains && ValidMessage(u, key, message)
  }

  // ---- The invariant ----

  /** How much of an asset a message carries between its home chain and a destination: minted on the
      destination or released at home once it is imported. */
  function Carried(home: Id, dest: Id, asset: Id, k: MessageKey, m: OutgoingMessage): nat {
    if m.transfer.asset == asset
       && (if m.transfer.isReturn then k.source == dest && m.destination == home
           else k.source == home && m.destination == dest)
    then m.transfer.value + m.transfer.reward else 0
  }

  ghost function Pending(home: Id, dest: Id, asset: Id): (MessageKey, OutgoingMessage) -> nat {
    (k: MessageKey, m: OutgoingMessage) => Carried(home, dest, asset, k, m)
  }

  /** The loan on the home chain is the wrapped supply, plus what is in flight, plus what was burned. */
  ghost predicate Backed(u: Universe, w: World, home: Id, dest: Id, asset: Id)
    requires home in w.chains && dest in w.chains
  {
    var wrapped := ImportedAssetId(u.toId, asset, home);
    GetLoan(w.chains[home].store, asset, dest)
      == Supply(w.chains[dest].store, wrapped) + BurnedOn(w, dest, wrapped)
       + Sum(w.inflight, Pending(home, dest, asset))
  }

  /** Records and orders sit at known ids: an asset made here at the id of its transaction, a wrapped one at
      the id of an origin in the universe. */
  ghost predicate IdsKnown(u: Universe, used: set<Id>, s: Store) {
    && (forall id: Id | AssetKey(id) in s ::
          var r := s[AssetKey(id)].asset;
          if r.warp then exists a, x :: a in u.ids && x in u.ids && r.metadata == ImportedAssetMetadata(a, x)
          else id in used || id == EMPTY_ID)
    && (forall id: Id | OrderKey(id) in s :: id in used)
  }

  ghost predicate ChainInv(u: Universe, used: set<Id>, ch: Chain) {
    LedgerInv(u.toId, ch.store, ch.fees) && IdsKnown(u, used, ch.store)
  }

  /** A message is valid; one of the chains sent it in a transaction of its own, and never to every chain. */
  predicate KnownMessage(u: Universe, chains: set<Id>, used: set<Id>, k: MessageKey, m: OutgoingMessage) {
    ValidMessage(u, k, m) && (k.source in chains ==> k.txId in used && !Anycast(m))
  }

  ghost predicate WorldInv(u: Universe, w: World) {
    && w.chains.Keys <= u.ids && w.used <= u.txIds
    && (forall x | x in w.chains :: ChainInv(u, w.used, w.chains[x]))
    && (forall k | k in w.inflight :: KnownMessage(u, w.chains.Keys, w.used, k, w.inflight[k]))
    && (forall home, dest, asset | home in w.chains && dest in w.chains && asset in u.ids ::
          Backed(u, w, home, dest, asset))
  }

  // ---- One transaction ----

  lemma RecordIdKnown(u: Universe, used: set<Id>, s: Store, id: Id)
    requires Sound(u.toId, s) && IdsKnown(u, used, s) && AssetKey(id) in s
    ensures id in used || id == EMPTY_ID
         || exists a, x :: a in u.ids && x in u.ids && id == ImportedAssetId(u.toId, a, x)
  {
    assert EntrySound(u.toId, s, AssetKey(id));
  }

  /** A transaction id is new to every store: it is unused, and no wrapped asset sits at it. */
  lemma UnusedIsFresh(u: Universe, used: set<Id>, s: Store, txId: Id)
    requires CollisionFree(u) && Sound(u.toId, s) && IdsKnown(u, used, s) && txId in u.txIds && txId !in used
    ensures FreshId(s, txId)
  {
    forall id: Id | AssetKey(id) in s { RecordIdKnown(u, used, s, id); }
    hide Sound;
  }

  /** No other asset sits at the id of a wrapped one. */
  lemma WrappedIdFree(u: Universe, used: set<Id>, s: Store, asset: Id, home: Id)
    requires CollisionFree(u) && IdsKnown(u, used, s) && used <= u.txIds && asset in u.ids && home in u.ids
    ensures Wrappable(s, ImportedAssetId(u.toId, asset, home))
  {
  }

  ghost predicate Landed(u: Universe, w: World, x: Id, tx: Tx, time: int64, r: Receipt) {
    && CollisionFree(u) && WorldInv(u, w) && x in w.chains && FeesValid(tx)
    && tx.id in u.txIds && tx.id !in w.used && WellFormed(tx.action)
    && r == ApplyTx(EnvAt(u.toId, w, x, tx, time), tx, w.chains[x].store) && r.Applied?
  }

  /** The context in which a transaction of a chain runs. */
  function ContextAt(u: Universe, w: World, x: Id, tx: Tx, time: int64): Context {
    ContextOf(EnvAt(u.toId, w, x, tx, time), tx)
  }

  ghost predicate Facts(u: Universe, w: World, x: Id, tx: Tx, time: int64, r: Receipt)
    requires x in w.chains && r.Applied?
  {
    var c, s := ContextAt(u, w, x, tx, time), w.chains[x].store;
    if r.outcome.Ok? then
      && Flow(c, tx.action, s, r.store)
      && (r.outcome.message.Some? <==> tx.action.ExportAsset?)
      && (tx.action.ExportAsset? ==> Announces(c, tx.action, s, r.outcome.message.value))
      && (tx.action.ImportAsset? ==> Verified(w, x, tx.action))
    else OnlyBalances(s, r.store)
  }

  lemma LandedFresh(u: Universe, w: World, x: Id, tx: Tx, time: int64, r: Receipt)
    requires Landed(u, w, x, tx, time, r)
    ensures x in w.chains && LedgerInv(u.toId, w.chains[x].store, w.chains[x].fees) && FreshId(w.chains[x].store, tx.id)
  {
    hide ApplyTx, IdsKnown, Backed, Sound, Balanced;
    assert ChainInv(u, w.used, w.chains[x]);
    UnusedIsFresh(u, w.used, w.chains[x].store, tx.id);
  }

  lemma LandedFacts(u: Universe, w: World, x: Id, tx: Tx, time: int64, r: Receipt)
    requires Landed(u, w, x, tx, time, r)
    ensures Facts(u, w, x, tx, time, r) && FreshId(w.chains[x].store, tx.id)
    ensures LedgerInv(u.toId, r.store, w.chains[x].fees + tx.maxFee - tx.refund)
  {
    hide ApplyTx, Flow, OnlyBalances, Announces, LedgerInv, FreshId, WorldInv, CollisionFree, WellFormed;
    var s := w.chains[x].store;
    LandedFresh(u, w, x, tx, time, r);
    TxKeepsLedger(EnvAt(u.toId, w, x, tx, time), tx, s, w.chains[x].fees);
    TxFlow(EnvAt(u.toId, w, x, tx, time), tx, s);
  }

  // ---- The three sides of the backing equation ----

  function If(b: bool, n: nat): nat { if b then n else 0 }

  lemma LoanSide(u: Universe, w: World, x: Id, tx: Tx, time: int64, r: Receipt, home: Id, dest: Id, asset: Id)
    requires home in w.chains && x in w.chains && r.Applied? && FeesValid(tx)
    requires Facts(u, w, x, tx, time, r)
    ensures GetLoan(Land(w, x, tx, r).chains[home].store, asset, dest)
          + If(x == home && r.outcome.Ok?, Released(tx.action, asset, dest))
         == GetLoan(w.chains[home].store, asset, dest) + If(x == home && r.outcome.Ok?, Lent(tx.action, asset, dest))
  {
  }

  lemma SupplySide(u: Universe, w: World, x: Id, tx: Tx, time: int64, r: Receipt, dest: Id, id: Id)
    requires dest in w.chains && x in w.chains && r.Applied? && FeesValid(tx)
    requires Facts(u, w, x, tx, time, r) && id != tx.id && Wrappable(w.chains[dest].store, id)
    ensures var c, a := ContextAt(u, w, x, tx, time), tx.action;
      Supply(Land(w, x, tx, r).chains[dest].store, id) + BurnedOn(Land(w, x, tx, r), dest, id)
        + If(x == dest && r.outcome.Ok?, Withdrawn(a, id))
      == Supply(w.chains[dest].store, id) + BurnedOn(w, dest, id) + If(x == dest && r.outcome.Ok?, Minted(c, a, id))
  {
  }

  /** Each message carries exactly what its export lent or withdrew. */
  lemma SentCarries(u: Universe, w: World, x: Id, tx: Tx, time: int64, m: OutgoingMessage, home: Id, dest: Id,
                    asset: Id)
    requires CollisionFree(u) && home in u.ids && asset in u.ids && x in w.chains && w.used <= u.txIds
    requires IdsKnown(u, w.used, w.chains[x].store) && Sound(u.toId, w.chains[x].store)
    requires tx.action.ExportAsset? && Announces(ContextAt(u, w, x, tx, time), tx.action, w.chains[x].store, m)
    ensures Carried(home, dest, asset, MessageKey(x, tx.id), m)
         == If(x == home, Lent(tx.action, asset, dest))
          + If(x == dest, Withdrawn(tx.action, ImportedAssetId(u.toId, asset, home)))
  {
    if tx.action.isReturn {
      ReturnOrigin(u, w.used, w.chains[x].store, tx.action.asset, m.transfer.asset, tx.action.destination);
    }
  }

  /** A wrapped asset sits at the id of its origin, and its origin is in the universe. */
  lemma ReturnOrigin(u: Universe, used: set<Id>, s: Store, id: Id, origin: Id, source: Id)
    requires Sound(u.toId, s) && IdsKnown(u, used, s)
    requires AssetKey(id) in s && s[AssetKey(id)].asset.warp
    requires s[AssetKey(id)].asset.metadata == ImportedAssetMetadata(origin, source)
    ensures origin in u.ids && source in u.ids && id == ImportedAssetId(u.toId, origin, source)
  {
    assert EntrySound(u.toId, s, AssetKey(id));
    var a, x :| a in u.ids && x in u.ids && s[AssetKey(id)].asset.metadata == ImportedAssetMetadata(a, x);
    MetadataDecodes(a, x);
    MetadataDecodes(origin, source);
  }

  /** Each import mints or releases exactly what its message carries. */
  lemma ReceivedCarries(u: Universe, c: Context, a: Action, x: Id, home: Id, dest: Id, asset: Id)
    requires CollisionFree(u) && home in u.ids && asset in u.ids && c.toId == u.toId
    requires a.ImportAsset? && a.source in u.ids && a.transfer.asset in u.ids
    ensures Carried(home, dest, asset, MessageKey(a.source, a.transfer.txId), OutgoingMessage(x, a.transfer))
         == If(x == dest, Minted(c, a, ImportedAssetId(u.toId, asset, home)))
          + If(x == home, Released(a, asset, dest))
  {
  }

  lemma SentSide(u: Universe, w: World, x: Id, tx: Tx, time: int64, r: Receipt, home: Id, dest: Id, asset: Id)
    requires Landed(u, w, x, tx, time, r) && Facts(u, w, x, tx, time, r)
    requires home in w.chains && asset in u.ids && r.outcome.Ok? && tx.action.ExportAsset?
    ensures Sum(Land(w, x, tx, r).inflight, Pending(home, dest, asset))
         == Sum(w.inflight, Pending(home, dest, asset))
          + If(x == home, Lent(tx.action, asset, dest))
          + If(x == dest, Withdrawn(tx.action, ImportedAssetId(u.toId, asset, home)))
  {
    hide ApplyTx, Flow, Backed, IdsKnown, Sound, Balanced, Announces;
    assert ChainInv(u, w.used, w.chains[x]);
    var m := r.outcome.message.value;
    SentCarries(u, w, x, tx, time, m, home, dest, asset);
    assert MessageKey(x, tx.id) in w.inflight ==>
      KnownMessage(u, w.chains.Keys, w.used, MessageKey(x, tx.id), w.inflight[MessageKey(x, tx.id)]);
    assert MessageKey(x, tx.id) !in w.inflight;
    SumPut(w.inflight, Pending(home, dest, asset), MessageKey(x, tx.id), m);
  }

  lemma ReceivedSide(u: Universe, w: World, x: Id, tx: Tx, time: int64, r: Receipt, home: Id, dest: Id, asset: Id)
    requires Landed(u, w, x, tx, time, r) && Facts(u, w, x, tx, time, r)
    requires home in w.chains && dest in w.chains && asset in u.ids && r.outcome.Ok? && tx.action.ImportAsset?
    ensures var c, a := ContextAt(u, w, x, tx, time), tx.action;
      Sum(Land(w, x, tx, r).inflight, Pending(home, dest, asset))
        + If(x == dest, Minted(c, a, ImportedAssetId(u.toId, asset, home))) + If(x == home, Released(a, asset, dest))
      == Sum(w.inflight, Pending(home, dest, asset))
  {
    hide ApplyTx, Flow, Backed, ChainInv;
    var k := MessageKey(tx.action.source, tx.action.transfer.txId);
    assert KnownMessage(u, w.chains.Keys, w.used, k, w.inflight[k]);
    ReceivedCarries(u, ContextAt(u, w, x, tx, time), tx.action, x, home, dest, asset);
    SumRemove(w.inflight, Pending(home, dest, asset), k);
  }

  lemma FlightSide(u: Universe, w: World, x: Id, tx: Tx, time: int64, r: Receipt, home: Id, dest: Id, asset: Id)
    requires Landed(u, w, x, tx, time, r) && Facts(u, w, x, tx, time, r)
    requires home in w.chains && dest in w.chains && asset in u.ids
    ensures var c, a, id := ContextAt(u, w, x, tx, time), tx.action, ImportedAssetId(u.toId, asset, home);
      Sum(Land(w, x, tx, r).inflight, Pending(home, dest, asset))
        + If(x == dest && r.outcome.Ok?, Minted(c, a, id)) + If(x == home && r.outcome.Ok?, Released(a, asset, dest))
      == Sum(w.inflight, Pending(home, dest, asset))
        + If(x == home && r.outcome.Ok?, Lent(a, asset, dest)) + If(x == dest && r.outcome.Ok?, Withdrawn(a, id))
  {
    hide ApplyTx, WorldInv, CollisionFree, Facts, WellFormed;
    if r.outcome.Ok? && tx.action.ExportAsset? {
      SentSide(u, w, x, tx, time, r, home, dest, asset);
    } else if r.outcome.Ok? && tx.action.ImportAsset? {
      ReceivedSide(u, w, x, tx, time, r, home, dest, asset);
    }
  }

  // ---- The invariant is kept ----

  lemma LandKeepsBacked(u: Universe, w: World, x: Id, tx: Tx, time: int64, r: Receipt, home: Id, dest: Id, asset: Id)
    requires Landed(u, w, x, tx, time, r) && Facts(u, w, x, tx, time, r)
    requires home in w.chains && dest in w.chains && asset in u.ids
    ensures Backed(u, Land(w, x, tx, r), home, dest, asset)
  {
    var id := ImportedAssetId(u.toId, asset, home);
    assert Backed(u, w, home, dest, asset);
    assert ChainInv(u, w.used, w.chains[dest]);
    WrappedIdFree(u, w.used, w.chains[dest].store, asset, home);
    hide Landed, Facts, Land, WorldInv, CollisionFree, Wrappable;
    LandSides(u, w, x, tx, time, r, home, dest, asset);
  }

  lemma LandSides(u: Universe, w: World, x: Id, tx: Tx, time: int64, r: Receipt, home: Id, dest: Id, asset: Id)
    requires Landed(u, w, x, tx, time, r) && Facts(u, w, x, tx, time, r)
    requires home in w.chains && dest in w.chains && asset in u.ids && Backed(u, w, home, dest, asset)
    requires Wrappable(w.chains[dest].store, ImportedAssetId(u.toId, asset, home))
    ensures home in Land(w, x, tx, r).chains && dest in Land(w, x, tx, r).chains
    ensures Backed(u, Land(w, x, tx, r), home, dest, asset)
  {
    var id := ImportedAssetId(u.toId, asset, home);
    hide ApplyTx, Facts, ChainInv, Wrappable, Burned, Withdrawn, Minted, Lent, Released, Sum, GetLoan, Supply;
    assert id != tx.id;
    LoanSide(u, w, x, tx, time, r, home, dest, asset);
    SupplySide(u, w, x, tx, time, r, dest, id);
    FlightSide(u, w, x, tx, time, r, home, dest, asset);
  }

  lemma LandKeepsIds(u: Universe, w: World, x: Id, tx: Tx, time: int64, r: Receipt)
    requires Landed(u, w, x, tx, time, r) && Facts(u, w, x, tx, time, r)
    ensures IdsKnown(u, w.used + {tx.id}, r.store)
  {
    hide ApplyTx, LedgerInv, Backed, LoansMove, SupplyMoves;
    var s, t, used := w.chains[x].store, r.store, w.used + {tx.id};
    assert ChainInv(u, w.used, w.chains[x]);
    forall id: Id | AssetKey(id) in t
      ensures var d := t[AssetKey(id)].asset;
        if d.warp then exists a, y :: a in u.ids && y in u.ids && d.metadata == ImportedAssetMetadata(a, y)
        else id in used || id == EMPTY_ID
    {
      if !r.outcome.Ok? {
        assert AssetKey(id) in s;
      } else {
        assert RecordExplained(ContextAt(u, w, x, tx, time), tx.action, s, t, id);
        if tx.action.ImportAsset? {
          var k := MessageKey(tx.action.source, tx.action.transfer.txId);
          assert KnownMessage(u, w.chains.Keys, w.used, k, w.inflight[k]);
        }
      }
    }
    forall id: Id | OrderKey(id) in t ensures id in used {
      assert OrderKey(id) in s || id == tx.id;
    }
  }

  lemma LandKeepsMessages(u: Universe, w: World, x: Id, tx: Tx, time: int64, r: Receipt, k: MessageKey)
    requires Landed(u, w, x, tx, time, r) && Facts(u, w, x, tx, time, r) && k in Land(w, x, tx, r).inflight
    ensures KnownMessage(u, w.chains.Keys, w.used + {tx.id}, k, Land(w, x, tx, r).inflight[k])
  {
    hide ApplyTx, Sound, Balanced, Backed, Flow;
    assert ChainInv(u, w.used, w.chains[x]);
    if k !in w.inflight {
      assert k == MessageKey(x, tx.id) && tx.action.ExportAsset?;
      var s, m := w.chains[x].store, r.outcome.message.value;
      if tx.action.isReturn { ReturnOrigin(u, w.used, s, tx.action.asset, m.transfer.asset, tx.action.destination); }
    } else {
      assert KnownMessage(u, w.chains.Keys, w.used, k, w.inflight[k]);
      assert k != MessageKey(x, tx.id);
    }
  }

  lemma MoreIds(u: Universe, used: set<Id>, more: set<Id>, s: Store)
    requires IdsKnown(u, used, s) && used <= more
    ensures IdsKnown(u, more, s)
  {
  }

  lemma LandKeepsChain(u: Universe, w: World, x: Id, tx: Tx, time: int64, r: Receipt, y: Id)
    requires Landed(u, w, x, tx, time, r) && Facts(u, w, x, tx, time, r) && y in w.chains
    requires LedgerInv(u.toId, r.store, w.chains[x].fees + tx.maxFee - tx.refund)
    ensures ChainInv(u, Land(w, x, tx, r).used, Land(w, x, tx, r).chains[y])
  {
    hide ApplyTx, LedgerInv, Backed, IdsKnown, Facts, ValidMessage;
    LandKeepsIds(u, w, x, tx, time, r);
    assert ChainInv(u, w.used, w.chains[y]);
    hide WorldInv, CollisionFree, WellFormed;
    MoreIds(u, w.used, w.used + {tx.id}, w.chains[y].store);
  }

  lemma LandedWorld(u: Universe, w: World, x: Id, tx: Tx, time: int64, r: Receipt)
    requires Landed(u, w, x, tx, time, r)
    ensures x in w.chains && r.Applied? && FeesValid(tx)
    ensures Land(w, x, tx, r).chains.Keys == w.chains.Keys && Land(w, x, tx, r).chains.Keys <= u.ids
    ensures Land(w, x, tx, r).used == w.used + {tx.id} <= u.txIds
  {
    hide ApplyTx, LedgerInv, Backed, IdsKnown;
  }

  lemma LandKeepsInv(u: Universe, w: World, x: Id, tx: Tx, time: int64, r: Receipt)
    requires Landed(u, w, x, tx, time, r)
    ensures x in w.chains && r.Applied? && FeesValid(tx) && WorldInv(u, Land(w, x, tx, r))
  {
    hide Landed, LedgerInv, Backed, ChainInv, Facts, ValidMessage, Land, ApplyTx;
    LandedWorld(u, w, x, tx, time, r);
    LandedFacts(u, w, x, tx, time, r);
    var v := Land(w, x, tx, r);
    forall y | y in v.chains ensures ChainInv(u, v.used, v.chains[y]) {
      LandKeepsChain(u, w, x, tx, time, r, y);
    }
    forall k | k in v.inflight ensures KnownMessage(u, v.chains.Keys, v.used, k, v.inflight[k]) {
      LandKeepsMessages(u, w, x, tx, time, r, k);
    }
    forall home, dest, asset | home in v.chains && dest in v.chains && asset in u.ids
      ensures Backed(u, v, home, dest, asset)
    {
      LandKeepsBacked(u, w, x, tx, time, r, home, dest, asset);
    }
  }

  /** A message signed elsewhere, even to every chain, backs nothing here, and cannot pass for a message of one
      of the chains. */
  lemma ForeignKeepsInv(u: Universe, w: World, k: MessageKey, m: OutgoingMessage)
    requires WorldInv(u, w) && k.source !in w.chains && ValidMessage(u, k, m)
    ensures WorldInv(u, w.(inflight := w.inflight[k := m]))
  {
    var v := w.(inflight := w.inflight[k := m]);
    forall j | j in v.inflight ensures KnownMessage(u, v.chains.Keys, v.used, j, v.inflight[j]) {
      assert j != k ==> KnownMessage(u, w.chains.Keys, w.used, j, w.inflight[j]);
    }
    forall home, dest, asset | home in w.chains && dest in w.chains && asset in u.ids
      ensures Backed(u, v, home, dest, asset)
    {
      assert Backed(u, w, home, dest, asset);
      assert k in w.inflight ==> KnownMessage(u, w.chains.Keys, w.used, k, w.inflight[k]);
      assert k in w.inflight ==> Carried(home, dest, asset, k, w.inflight[k]) == 0;
      SumPut(w.inflight, Pending(home, dest, asset), k, m);
    }
  }

  lemma NextKeepsInv(u: Universe, w: World, e: Event)
    requires CollisionFree(u) && WorldInv(u, w) && ValidEvent(u, w, e)
    ensures WorldInv(u, Next(u.toId, w, e))
  {
    hide WorldInv, CollisionFree, ApplyTx;
    match e
    case Foreign(key, message) => ForeignKeepsInv(u, w, key, message);
    case Submit(x, tx, time) =>
      if x in w.chains && FeesValid(tx) {
        var r := ApplyTx(EnvAt(u.toId, w, x, tx, time), tx, w.chains[x].store);
        if r.Applied? { LandKeepsInv(u, w, x, tx, time, r); }
      }
  }

  // ---- Runs ----

  function History(toId: Hash, w: World, es: seq<Event>): World {
    if es == [] then w else Next(toId, History(toId, w, es[..|es| - 1]), es[|es| - 1])
  }

  ghost predicate ValidHistory(u: Universe, w: World, es: seq<Event>) {
    forall i :: 0 <= i < |es| ==> ValidEvent(u, History(u.toId, w, es[..i]), es[i])
  }

  /** Over every run of every number of chains, whatever foreign chains sign. */
  lemma {:induction false} HistoryKeepsInv(u: Universe, w: World, es: seq<Event>)
    requires CollisionFree(u) && WorldInv(u, w) && ValidHistory(u, w, es)
    ensures WorldInv(u, History(u.toId, w, es))
  {
    hide WorldInv, CollisionFree, Next, ValidEvent;
    if es != [] {
      var n := |es| - 1;
      forall i | 0 <= i < n ensures ValidEvent(u, History(u.toId, w, es[..n][..i]), es[..n][i]) {
        assert es[..n][..i] == es[..i];
      }
      HistoryKeepsInv(u, w, es[..n]);
      NextKeepsInv(u, History(u.toId, w, es[..n]), es[n]);
    }
  }

  // ---- What the invariant promises ----

  /** A wrapped asset never has more supply than its home chain has lent. */
  lemma WrappedNeverExceedsLoan(u: Universe, w: World, home: Id, dest: Id, asset: Id)
    requires WorldInv(u, w) && home in w.chains && dest in w.chains && asset in u.ids
    ensures Supply(w.chains[dest].store, ImportedAssetId(u.toId, asset, home))
         <= GetLoan(w.chains[home].store, asset, dest)
  {
  }

  /** What a destination, and the messages between it and the home chain, lay claim to at home. */
  ghost function Claim(u: Universe, w: World, home: Id, dest: Id, asset: Id): nat
    requires dest in w.chains
  {
    var wrapped := ImportedAssetId(u.toId, asset, home);
    Supply(w.chains[dest].store, wrapped) + BurnedOn(w, dest, wrapped) + Sum(w.inflight, Pending(home, dest, asset))
  }

  ghost function Claims(u: Universe, w: World, home: Id, dests: seq<Id>, asset: Id): nat
    requires forall d :: d in dests ==> d in w.chains
  {
    if dests == [] then 0
    else Claims(u, w, home, dests[..|dests| - 1], asset) + Claim(u, w, home, dests[|dests| - 1], asset)
  }

  predicate Distinct(dests: seq<Id>) {
    forall i, j :: 0 <= i < j < |dests| ==> dests[i] != dests[j]
  }

  function Loans(s: Store, asset: Id, dests: seq<Id>): nat {
    if dests == [] then 0
    else Loans(s, asset, dests[..|dests| - 1]) + GetLoan(s, asset, dests[|dests| - 1])
  }

  lemma {:induction false} LoansDepend(s: Store, t: Store, asset: Id, dests: seq<Id>)
    requires forall d :: d in dests ==> GetLoan(s, asset, d) == GetLoan(t, asset, d)
    ensures Loans(s, asset, dests) == Loans(t, asset, dests)
  {
    if dests != [] { LoansDepend(s, t, asset, dests[..|dests| - 1]); }
  }

  /** Loans to different destinations are different entries of the store. */
  lemma {:induction false} LoansWithinHoldings(s: Store, asset: Id, dests: seq<Id>)
    requires Distinct(dests)
    ensures Loans(s, asset, dests) <= Holdings(s, asset)
  {
    if dests != [] {
      var rest, d := dests[..|dests| - 1], dests[|dests| - 1];
      var t: Store := s - {LoanKey(asset, d)};
      LoansWithinHoldings(t, asset, rest);
      LoansDepend(s, t, asset, rest);
      SumSplit(s, Weight(asset), LoanKey(asset, d));
    }
  }

  lemma {:induction false} ClaimsAreLoans(u: Universe, w: World, home: Id, dests: seq<Id>, asset: Id)
    requires WorldInv(u, w) && home in w.chains && asset in u.ids && forall d :: d in dests ==> d in w.chains
    ensures Claims(u, w, home, dests, asset) == Loans(w.chains[home].store, asset, dests)
  {
    if dests != [] {
      var d := dests[|dests| - 1];
      hide WorldInv, Claim;
      ClaimIsLoan(u, w, home, d, asset);
      ClaimsAreLoans(u, w, home, dests[..|dests| - 1], asset);
    }
  }

  lemma ClaimIsLoan(u: Universe, w: World, home: Id, dest: Id, asset: Id)
    requires WorldInv(u, w) && home in w.chains && dest in w.chains && asset in u.ids
    ensures Claim(u, w, home, dest, asset) == GetLoan(w.chains[home].store, asset, dest)
  {
    assert Backed(u, w, home, dest, asset);
  }

  /** Over any destinations together, wrapped supply, messages in flight and burns stay within the supply of
      the asset at home. */
  lemma ClaimsWithinSupply(u: Universe, w: World, home: Id, dests: seq<Id>, asset: Id)
    requires WorldInv(u, w) && home in w.chains && asset in u.ids && Distinct(dests)
    requires forall d :: d in dests ==> d in w.chains
    ensures Claims(u, w, home, dests, asset) <= Supply(w.chains[home].store, asset)
  {
    var s := w.chains[home].store;
    assert ChainInv(u, w.used, w.chains[home]);
    assert Gap(s, asset) >= 0;
    ClaimsAreLoans(u, w, home, dests, asset);
    LoansWithinHoldings(s, asset, dests);
  }

  lemma ReturnIsCovered(u: Universe, w: World, k: MessageKey)
    requires WorldInv(u, w) && k in w.inflight && k.source in w.chains && w.inflight[k].destination in w.chains
    requires w.inflight[k].transfer.isReturn
    ensures var m := w.inflight[k].transfer;
      m.value + m.reward <= GetLoan(w.chains[w.inflight[k].destination].store, m.asset, k.source)
  {
    hide ChainInv;
    var m := w.inflight[k];
    assert ValidMessage(u, k, m);
    assert Backed(u, w, m.destination, k.source, m.transfer.asset);
    SumSplit(w.inflight, Pending(m.destination, k.source, m.transfer.asset), k);
  }

  lemma MintFits(u: Universe, w: World, k: MessageKey)
    requires CollisionFree(u) && WorldInv(u, w)
    requires k in w.inflight && k.source in w.chains && w.inflight[k].destination in w.chains
    requires !w.inflight[k].transfer.isReturn
    ensures var m, s := w.inflight[k].transfer, w.chains[w.inflight[k].destination].store;
      var id := ImportedAssetId(u.toId, m.asset, k.source);
      Wrappable(s, id) && Supply(s, id) + m.value + m.reward <= MAX_UINT64
  {
    hide LedgerInv, IdsKnown;
    var m := w.inflight[k];
    assert ValidMessage(u, k, m);
    assert Backed(u, w, k.source, m.destination, m.transfer.asset);
    SumSplit(w.inflight, Pending(k.source, m.destination, m.transfer.asset), k);
    assert ChainInv(u, w.used, w.chains[m.destination]);
    WrappedIdFree(u, w.used, w.chains[m.destination].store, m.transfer.asset, k.source);
  }

  /** The credit of a message between two of the chains always goes through. */
  lemma InFlightCredits(u: Universe, w: World, k: MessageKey, c: Context, s: Store, fees: nat)
    requires CollisionFree(u) && WorldInv(u, w)
    requires k in w.inflight && k.source in w.chains && w.inflight[k].destination in w.chains
    requires c.toId == u.toId && OnlyBalances(w.chains[w.inflight[k].destination].store, s) && Balanced(s, fees)
    ensures Credit(c, w.inflight[k].transfer, k.source, s).Ok?
  {
    var m, was := w.inflight[k].transfer, w.chains[w.inflight[k].destination].store;
    hide WorldInv, CollisionFree, ExecuteMint, ImportReturn, Balanced;
    if m.isReturn {
      ReturnIsCovered(u, w, k);
      assert LoanKey(m.asset, k.source) in s <==> LoanKey(m.asset, k.source) in was;
      ReturnSucceedsIff(c, m, k.source, s, fees);
    } else {
      MintFits(u, w, k);
      var id := ImportedAssetId(u.toId, m.asset, k.source);
      assert AssetKey(id) in s <==> AssetKey(id) in was;
      MintSucceedsIff(c, m, k.source, s, fees);
    }
  }

  /** An import of a message between two of the chains that needs no swap, or whose swap has expired. */
  predicate Redeems(w: World, k: MessageKey, tx: Tx, time: int64) {
    && k in w.inflight && k.source in w.chains && w.inflight[k].destination in w.chains
    && tx.action == ImportAsset(false, w.inflight[k].transfer, k.source)
    && (w.inflight[k].transfer.swapIn == 0 || w.inflight[k].transfer.swapExpiry <= time)
    && FeesValid(tx) && tx.maxFee <= GetBalance(w.chains[w.inflight[k].destination].store, tx.signer, EMPTY_ID)
  }

  lemma RedeemPaid(u: Universe, w: World, k: MessageKey, tx: Tx, time: int64, paid: Store)
    requires WorldInv(u, w) && Redeems(w, k, tx, time)
    requires paid == SubBalance(w.chains[w.inflight[k].destination].store, tx.signer, EMPTY_ID, tx.maxFee).store
    ensures ValidMessage(u, k, w.inflight[k]) && OnlyBalances(w.chains[w.inflight[k].destination].store, paid)
    ensures Balanced(paid, w.chains[w.inflight[k].destination].fees + tx.maxFee)
  {
    var ch := w.chains[w.inflight[k].destination];
    assert ChainInv(u, w.used, ch);
    hide Backed, IdsKnown, Balanced, Sound;
    DeductKeepsLedger(u.toId, ch.store, tx.signer, tx.maxFee, ch.fees);
    BalanceOnly(ch.store, tx.signer, EMPTY_ID, tx.maxFee);
  }

  /** A valid import without fill whose credit goes through, and which needs no swap, is just its credit. */
  lemma CreditIsImport(c: Context, a: Action, s: Store)
    requires a.ImportAsset? && !a.fill && c.warpVerified && a.transfer.value != 0
    requires a.transfer.swapIn == 0 || a.transfer.swapExpiry <= c.time
    requires Credit(c, a.transfer, a.source, s).Ok?
    ensures Execute(c, a, s).Ok? && Execute(c, a, s).store == Credit(c, a.transfer, a.source, s).store
  {
  }

  lemma RedeemExecutes(u: Universe, w: World, k: MessageKey, tx: Tx, time: int64, paid: Store)
    requires CollisionFree(u) && WorldInv(u, w) && Redeems(w, k, tx, time)
    requires paid == SubBalance(w.chains[w.inflight[k].destination].store, tx.signer, EMPTY_ID, tx.maxFee).store
    ensures var c, m := ContextAt(u, w, w.inflight[k].destination, tx, time), w.inflight[k].transfer;
      var o := Execute(c, tx.action, paid);
      o.Ok? && forall p: PublicKey, b: Id ::
        GetBalance(o.store, p, b) == GetBalance(paid, p, b) + Credited(c, m, k.source, p, b)
  {
    var x, m := w.inflight[k].destination, w.inflight[k].transfer;
    var c, fees := ContextAt(u, w, x, tx, time), w.chains[x].fees + tx.maxFee;
    hide WorldInv, CollisionFree, Balanced, Credit, Credited, Execute, ValidSwap, OnlyBalances;
    RedeemPaid(u, w, k, tx, time, paid);
    InFlightCredits(u, w, k, c, paid, fees);
    CreditIsImport(c, tx.action, paid);
    forall p: PublicKey, b: Id { CreditBalances(c, m, k.source, paid, p, b); }
  }

  /** The whole transaction around an action that succeeds. */
  lemma TxBalances(e: Env, tx: Tx, s: Store, p: PublicKey, b: Id)
    requires ApplyTx(e, tx, s).Applied? && FeesValid(tx)
    requires var paid := SubBalance(s, tx.signer, EMPTY_ID, tx.maxFee).store;
      Execute(ContextOf(e, tx), tx.action, paid).Ok?
    ensures var paid := SubBalance(s, tx.signer, EMPTY_ID, tx.maxFee).store;
      var o := Execute(ContextOf(e, tx), tx.action, paid);
      && ApplyTx(e, tx, s).outcome == o
      && GetBalance(ApplyTx(e, tx, s).store, p, b) - GetBalance(o.store, p, b)
         == (if p == tx.signer && b == EMPTY_ID then tx.refund else 0)
      && GetBalance(paid, p, b) == GetBalance(s, p, b) - (if p == tx.signer && b == EMPTY_ID then tx.maxFee else 0)
  {
  }

  lemma RedeemApplies(u: Universe, w: World, k: MessageKey, tx: Tx, time: int64)
    requires CollisionFree(u) && WorldInv(u, w) && Redeems(w, k, tx, time)
    requires ValidEvent(u, w, Submit(w.inflight[k].destination, tx, time))
    ensures var x := w.inflight[k].destination;
      ApplyTx(EnvAt(u.toId, w, x, tx, time), tx, w.chains[x].store).Applied?
  {
    var x := w.inflight[k].destination;
    assert ChainInv(u, w.used, w.chains[x]);
    hide WorldInv, CollisionFree, IdsKnown, Sound, Balanced, ApplyTx;
    UnusedIsFresh(u, w.used, w.chains[x].store, tx.id);
    TxKeepsLedger(EnvAt(u.toId, w, x, tx, time), tx, w.chains[x].store, w.chains[x].fees);
  }

  /** No stuck funds: whoever can pay the fee redeems any message between two of the chains, once it needs
      no swap; the recipient receives the value and the importer the reward. */
  lemma NoStuckFunds(u: Universe, w: World, k: MessageKey, tx: Tx, time: int64)
    requires CollisionFree(u) && WorldInv(u, w) && Redeems(w, k, tx, time)
    requires ValidEvent(u, w, Submit(w.inflight[k].destination, tx, time))
    ensures var x, m := w.inflight[k].destination, w.inflight[k].transfer;
      var v := Next(u.toId, w, Submit(x, tx, time));
      && v.inflight == w.inflight - {k} && x in v.chains
      && Unmarshal(Marshal(m)) == Some(m)
      && forall p: PublicKey, b: Id ::
           GetBalance(v.chains[x].store, p, b)
             == GetBalance(w.chains[x].store, p, b) + Credited(ContextAt(u, w, x, tx, time), m, k.source, p, b)
              - (if p == tx.signer && b == EMPTY_ID then tx.maxFee - tx.refund else 0)
  {
    var x, m := w.inflight[k].destination, w.inflight[k].transfer;
    var s := w.chains[x].store;
    assert k.txId == m.txId;
    var paid := SubBalance(s, tx.signer, EMPTY_ID, tx.maxFee).store;
    assert KnownMessage(u, w.chains.Keys, w.used, k, w.inflight[k]);
    PayloadRoundTrip(m);
    RedeemApplies(u, w, k, tx, time);
    hide WorldInv, CollisionFree, Execute, Credited, ApplyTx, Marshal, Unmarshal;
    hide GetBalance, WellFormed, ValidSwap, ValidMessage, SubBalance;
    RedeemExecutes(u, w, k, tx, time, paid);
    var r := ApplyTx(EnvAt(u.toId, w, x, tx, time), tx, s);
    forall p: PublicKey, b: Id { TxBalances(EnvAt(u.toId, w, x, tx, time), tx, s, p, b); }
    RedeemLands(w, k, tx, r);
  }

  lemma RedeemLands(w: World, k: MessageKey, tx: Tx, r: Receipt)
    requires k in w.inflight && w.inflight[k].destination in w.chains && !Anycast(w.inflight[k]) && FeesValid(tx)
    requires tx.action == ImportAsset(false, w.inflight[k].transfer, k.source) && k.txId == w.inflight[k].transfer.txId
    requires r.Applied? && r.outcome.Ok?
    ensures var x := w.inflight[k].destination; var v := Land(w, x, tx, r);
      v.inflight == w.inflight - {k} && x in v.chains && v.chains[x].store == r.store
  {
  }
}

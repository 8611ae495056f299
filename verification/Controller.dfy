/** The controller: every accepted block is replayed, result by result, into the order book, which thereby
    keeps agreeing with the orders on the chain. */
module Controller {
  import opened Common
  import opened Warp
  import opened Ledger
  import opened Actions
  import opened Conservation
  import opened Orders
  import opened Soundness
  import opened Transactions
  import opened Footprint
  import opened OrderLife
  import opened OrderBooks
  import opened Genesis
  import opened Execution

  // ---- What a result changes ----

  datatype Change =
    | Keep
    | Open(order: Id, record: OrderRecord)
    | Shrink(order: Id, remaining: uint64)
    | Drop(order: Id)
    | Undecodable

  /** What the controller reads out of a transaction and its result. */
  function ChangeOf(tx: Tx, r: Result): Change {
    if !r.Success? then Keep else
    match tx.action
    case CreateOrder(inAsset, inTick, outAsset, outTick, supply) =>
      Open(tx.id, OrderRecord(inAsset, inTick, outAsset, outTick, supply, tx.signer))
    case FillOrder(order, _, _, _, _) =>
      (match UnmarshalOrderResult(r.output)
       case None => Undecodable
       case Some(or) => if or.remaining == 0 then Drop(order) else Shrink(order, or.remaining))
    case CloseOrder(order, _) => Drop(order)
    case _ => Keep
  }

  // ---- The book as a value ----

  function PairOfOrder(o: OrderRecord): Pair { PairOf(o.inAsset, o.outAsset) }

  function ListingOf(id: Id, o: OrderRecord): Listing {
    Listing(PairOfOrder(o), BookOrder(id, o.owner, o.inTick, o.outTick, o.remaining))
  }

  /** A book: what it lists, the pairs it tracks, and whether every result so far could be read. */
  datatype Book = Book(listings: map<Id, Listing>, trackAll: bool, pairs: set<Pair>, ok: bool) {
    predicate Tracks(pair: Pair) { trackAll || pair in pairs }

    function Update(c: Change): Book {
      if !ok then this else
      match c
      case Keep => this
      case Open(id, o) =>
        if Tracks(PairOfOrder(o))
        then this.(listings := listings[id := ListingOf(id, o)],
                   pairs := if trackAll then pairs + {PairOfOrder(o)} else pairs)
        else this
      case Shrink(id, remaining) =>
        if id in listings
        then this.(listings := listings[id := listings[id].(order := listings[id].order.(remaining := remaining))])
        else this
      case Drop(id) => this.(listings := listings - {id})
      case Undecodable => this.(ok := false)
    }
  }

  function Replay(b: Book, xs: seq<Entry>, results: seq<Result>): Book
    requires |results| == |xs|
  {
    if xs == [] then b
    else
      var n := |xs| - 1;
      Replay(b, xs[..n], results[..n]).Update(ChangeOf(xs[n].tx, results[n]))
  }

  /** No order is opened under an id the book already lists. */
  ghost predicate OpensFresh(b: Book, xs: seq<Entry>, results: seq<Result>)
    requires |results| == |xs|
  {
    forall i :: 0 <= i < |xs| && ChangeOf(xs[i].tx, results[i]).Open? ==>
      xs[i].tx.id !in Replay(b, xs[..i], results[..i]).listings
  }

  lemma {:induction false} UndecodableStays(b: Book, xs: seq<Entry>, results: seq<Result>, i: nat)
    requires |results| == |xs| && i <= |xs| && !Replay(b, xs[..i], results[..i]).ok
    ensures Replay(b, xs, results) == Replay(b, xs[..i], results[..i])
  {
    if i < |xs| {
      var n := |xs| - 1;
      assert xs[..n][..i] == xs[..i] && results[..n][..i] == results[..i];
      UndecodableStays(b, xs[..n], results[..n], i);
    } else {
      assert xs[..i] == xs && results[..i] == results;
    }
  }

  ghost function BookOf(book: OrderBook): Book
    reads book
    requires book.Valid()
  {
    Book(book.Listings(), book.trackAll, book.orders.Keys, true)
  }

  /** The body of the loop below, for one transaction and its result. */
  method AcceptedTx(book: OrderBook, tx: Tx, result: Result) returns (ok: bool)
    requires book.Valid() && (ChangeOf(tx, result).Open? ==> tx.id !in book.Listings())
    modifies book
    ensures book.Valid()
    ensures BookOf(book).(ok := ok) == old(BookOf(book)).Update(ChangeOf(tx, result))
  {
    hide InSync, Index, UnmarshalOrderResult;
    if result.Success? {
      match tx.action {
        case CreateOrder(inAsset, inTick, outAsset, outTick, supply) =>
          assert ChangeOf(tx, result).Open?;
          book.Add(tx.id, tx.signer, inAsset, inTick, outAsset, outTick, supply);
        case FillOrder(order, _, _, _, _) =>
          var orderResult := UnmarshalOrderResult(result.output);
          if orderResult.None? {
            return false;
          }
          if orderResult.value.remaining == 0 {
            book.Remove(order);
          } else {
            book.UpdateRemaining(order, orderResult.value.remaining);
          }
        case CloseOrder(order, _) =>
          book.Remove(order);
        case _ =>
      }
    }
    ok := true;
  }

  /** The loop over the transactions of an accepted block. It stops with an error at a result that cannot
      be read. */
  method Accepted(book: OrderBook, xs: seq<Entry>, results: seq<Result>) returns (ok: bool)
    requires book.Valid() && |results| == |xs| && OpensFresh(BookOf(book), xs, results)
    modifies book
    ensures book.Valid()
    ensures BookOf(book).(ok := ok) == Replay(old(BookOf(book)), xs, results)
  {
    ghost var b := BookOf(book);
    for i := 0 to |xs|
      invariant book.Valid() && BookOf(book) == Replay(b, xs[..i], results[..i])
    {
      assert xs[..i + 1][..i] == xs[..i] && results[..i + 1][..i] == results[..i];
      ok := AcceptedTx(book, xs[i].tx, results[i]);
      if !ok {
        UndecodableStays(b, xs, results, i + 1);
        return;
      }
    }
    assert xs[..|xs|] == xs && results[..|xs|] == results;
    ok := true;
  }

  // ---- The book follows the chain ----

  /** A listing shows an order: under its own pair and id, with its owner, both ticks and what remains of it. */
  predicate Shows(l: Listing, id: Id, o: OrderRecord) {
    && l.pair == PairOf(o.inAsset, o.outAsset) && l.order.id == id && l.order.owner == o.owner
    && l.order.inTick == o.inTick && l.order.outTick == o.outTick && l.order.remaining == o.remaining
  }

  /** The book lists exactly the open orders of the pairs it tracks, as they are on the chain. */
  ghost predicate Agrees(b: Book, s: Store) {
    b.ok && forall id: Id ::
      && (id in b.listings <==>
            OrderKey(id) in s && var o := s[OrderKey(id)].order; b.Tracks(PairOf(o.inAsset, o.outAsset)))
      && (id in b.listings ==> Shows(b.listings[id], id, s[OrderKey(id)].order))
  }

  /** What a change does to an order on the chain. */
  function NextOrder(o: Option<OrderRecord>, c: Change, order: Id): Option<OrderRecord> {
    match c
    case Open(id, record) => if id == order then Some(record) else o
    case Shrink(id, remaining) => if id == order && o.Some? then Some(o.value.(remaining := remaining)) else o
    case Drop(id) => if id == order then None else o
    case _ => o
  }

  lemma UpdateAgrees(b: Book, s: Store, t: Store, c: Change)
    requires Agrees(b, s) && c != Undecodable && (c.Open? ==> OrderKey(c.order) !in s)
    requires forall id: Id :: GetOrder(t, id) == NextOrder(GetOrder(s, id), c, id)
    ensures Agrees(b.Update(c), t)
  {
    var b' := b.Update(c);
    forall id: Id
      ensures id in b'.listings <==>
        OrderKey(id) in t && var o := t[OrderKey(id)].order; b'.Tracks(PairOf(o.inAsset, o.outAsset))
      ensures id in b'.listings ==> Shows(b'.listings[id], id, t[OrderKey(id)].order)
    {
      assert GetOrder(t, id) == NextOrder(GetOrder(s, id), c, id);
    }
  }

  /** What the receipt of an applied transaction says it did to each order is what it did. */
  ghost predicate Reported(toId: Hash, ch: Chain, x: Entry) {
    var r := ApplyTx(EnvOf(toId, x), x.tx, ch.store);
    r.Applied? && FeesValid(x.tx)
  }

  function ReportedChange(toId: Hash, ch: Chain, x: Entry): Change
    requires Reported(toId, ch, x)
  {
    ChangeOf(x.tx, ResultOf(ApplyTx(EnvOf(toId, x), x.tx, ch.store).outcome))
  }

  lemma OthersStand(toId: Hash, ch: Chain, x: Entry, order: Id)
    requires OrderKey(order) !in TxKeys(EnvOf(toId, x), x.tx)
    ensures GetOrder(Step(toId, ch, x).store, order) == GetOrder(ch.store, order)
  {
    TxWrites(TxKeys(EnvOf(toId, x), x.tx), EnvOf(toId, x), x.tx, ch.store);
  }

  lemma FailureReported(toId: Hash, ch: Chain, x: Entry, order: Id)
    requires Reported(toId, ch, x) && !Succeeds(toId, ch, x)
    ensures ReportedChange(toId, ch, x) == Keep && GetOrder(Step(toId, ch, x).store, order) == GetOrder(ch.store, order)
  {
  }

  predicate ChangesOrder(c: Change, order: Id) {
    (c.Drop? && c.order == order) || (c.Shrink? && c.order == order)
  }

  /** The result of a fill says whether its order is gone or how much of it is left. */
  lemma FillChange(c: Context, tx: Tx, s: Store, o: OrderRecord)
    requires tx.action.FillOrder? && GetOrder(s, tx.action.order) == Some(o) && ValidOrder(o)
    requires FillOrderSpec(c, tx.action, s).Ok?
    ensures var f := FillOrderSpec(c, tx.action, s); var d := ChangeOf(tx, ResultOf(f));
      ChangesOrder(d, tx.action.order) && GetOrder(f.store, tx.action.order) == NextOrder(Some(o), d, tx.action.order)
  {
    hide FillOrderSpec, UnmarshalOrderResult;
    FillAtExactPrice(c, tx.action, s, o);
  }

  lemma FillReported(toId: Hash, ch: Chain, x: Entry)
    requires Sound(toId, ch.store) && Reported(toId, ch, x) && Succeeds(toId, ch, x) && x.tx.action.FillOrder?
    ensures var d, id := ReportedChange(toId, ch, x), x.tx.action.order;
      ChangesOrder(d, id) && GetOrder(Step(toId, ch, x).store, id) == NextOrder(GetOrder(ch.store, id), d, id)
  {
    var id := x.tx.action.order;
    var s := SuccessIsExecute(toId, ch, x, id);
    assert OrderKey(id) in ch.store && EntrySound(toId, ch.store, OrderKey(id));
    hide ApplyTx, Step, Sound, FillOrderSpec, ChangeOf, NextOrder, ValidOrder;
    FillChange(ContextOf(EnvOf(toId, x), x.tx), x.tx, s, GetOrder(s, id).value);
  }

  lemma CreateReported(toId: Hash, ch: Chain, x: Entry)
    requires Reported(toId, ch, x) && Succeeds(toId, ch, x) && x.tx.action.CreateOrder?
    ensures var c := ReportedChange(toId, ch, x);
      && c.Open? && c.order == x.tx.id && GetOrder(Step(toId, ch, x).store, x.tx.id) == Some(c.record)
  {
  }

  lemma CloseReported(toId: Hash, ch: Chain, x: Entry)
    requires Reported(toId, ch, x) && Succeeds(toId, ch, x) && x.tx.action.CloseOrder?
    ensures ReportedChange(toId, ch, x) == Drop(x.tx.action.order)
    ensures GetOrder(Step(toId, ch, x).store, x.tx.action.order) == None
  {
  }

  /** The order a transaction names, if any. */
  function Named(tx: Tx): Option<Id> {
    match tx.action
    case CreateOrder(_, _, _, _, _) => Some(tx.id)
    case FillOrder(order, _, _, _, _) => Some(order)
    case CloseOrder(order, _) => Some(order)
    case _ => None
  }

  lemma OnlyNamedTouched(e: Env, tx: Tx, order: Id)
    ensures OrderKey(order) in TxKeys(e, tx) ==> Named(tx) == Some(order)
  {
  }

  lemma NoOrderReported(toId: Hash, ch: Chain, x: Entry)
    requires Reported(toId, ch, x) && Named(x.tx) == None
    ensures ReportedChange(toId, ch, x) == Keep
  {
  }

  /** Every result can be read, and says exactly what its transaction did to every order. */
  lemma ResultsAreFaithful(toId: Hash, ch: Chain, x: Entry, order: Id)
    requires Sound(toId, ch.store) && Reported(toId, ch, x)
    ensures ReportedChange(toId, ch, x) != Undecodable
    ensures ReportedChange(toId, ch, x).Open? ==> ReportedChange(toId, ch, x).order == x.tx.id
    ensures GetOrder(Step(toId, ch, x).store, order)
         == NextOrder(GetOrder(ch.store, order), ReportedChange(toId, ch, x), order)
  {
    hide Sound, Step, GetOrder, TxKeys, Reported, ReportedChange, Succeeds;
    OnlyNamedTouched(EnvOf(toId, x), x.tx, order);
    if !Succeeds(toId, ch, x) {
      FailureReported(toId, ch, x, order);
    } else {
      match x.tx.action {
        case FillOrder(_, _, _, _, _) => FillReported(toId, ch, x);
        case CreateOrder(_, _, _, _, _) => CreateReported(toId, ch, x);
        case CloseOrder(_, _) => CloseReported(toId, ch, x);
        case _ => NoOrderReported(toId, ch, x);
      }
      if Named(x.tx) != Some(order) { OthersStand(toId, ch, x, order); }
    }
  }

  /** The results of a block, each the receipt of its transaction where it ran. */
  ghost predicate BlockResults(toId: Hash, ch: Chain, xs: seq<Entry>, results: seq<Result>) {
    |results| == |xs| && forall i :: 0 <= i < |xs| ==>
      && Reported(toId, Run(toId, ch, xs[..i]), xs[i])
      && results[i] == ResultOf(ApplyTx(EnvOf(toId, xs[i]), xs[i].tx, Run(toId, ch, xs[..i]).store).outcome)
  }

  lemma BlockPrefix(toId: Hash, ch: Chain, xs: seq<Entry>, results: seq<Result>, n: nat)
    requires BlockResults(toId, ch, xs, results) && FreshRun(toId, ch, xs) && n <= |xs|
    ensures BlockResults(toId, ch, xs[..n], results[..n]) && FreshRun(toId, ch, xs[..n])
  {
    hide Reported, ApplyTx, FreshId;
    forall i | 0 <= i < n ensures xs[..n][..i] == xs[..i] && results[..n][..i] == results[..i] {
    }
  }

  /** A book that agrees with the chain before a block agrees with it after: the result of every
      transaction can be read, and every order is opened under a new id. */
  lemma {:induction false} BookFollowsChain(toId: Hash, ch: Chain, b: Book, xs: seq<Entry>, results: seq<Result>)
    requires LedgerInv(toId, ch.store, ch.fees) && FreshRun(toId, ch, xs) && BlockResults(toId, ch, xs, results)
    requires Agrees(b, ch.store)
    ensures Agrees(Replay(b, xs, results), Run(toId, ch, xs).store)
  {
    hide Agrees, Step, Reported, FreshId, LedgerInv;
    if xs != [] {
      var n := |xs| - 1;
      var mid := Run(toId, ch, xs[..n]);
      BlockPrefix(toId, ch, xs, results, n);
      BookFollowsChain(toId, ch, b, xs[..n], results[..n]);
      RunKeepsLedger(toId, ch, xs[..n]);
      FollowsOne(toId, mid, Replay(b, xs[..n], results[..n]), xs[n]);
    }
  }

  lemma FollowsOne(toId: Hash, ch: Chain, b: Book, x: Entry)
    requires LedgerInv(toId, ch.store, ch.fees) && FreshId(ch.store, x.tx.id) && Reported(toId, ch, x)
      && Agrees(b, ch.store)
    ensures Agrees(b.Update(ReportedChange(toId, ch, x)), Step(toId, ch, x).store)
  {
    hide Agrees, Step, Sound, Reported;
    forall id: Id
      ensures GetOrder(Step(toId, ch, x).store, id)
           == NextOrder(GetOrder(ch.store, id), ReportedChange(toId, ch, x), id)
    {
      ResultsAreFaithful(toId, ch, x, id);
    }
    ResultsAreFaithful(toId, ch, x, x.tx.id);
    UpdateAgrees(b, ch.store, Step(toId, ch, x).store, ReportedChange(toId, ch, x));
  }

  /** So the precondition of the controller's loop holds at every block. */
  lemma BlockOpensFresh(toId: Hash, ch: Chain, b: Book, xs: seq<Entry>, results: seq<Result>)
    requires LedgerInv(toId, ch.store, ch.fees) && FreshRun(toId, ch, xs) && BlockResults(toId, ch, xs, results)
    requires Agrees(b, ch.store)
    ensures OpensFresh(b, xs, results)
  {
    forall i | 0 <= i < |xs| ensures xs[i].tx.id !in Replay(b, xs[..i], results[..i]).listings {
      BlockPrefix(toId, ch, xs, results, i);
      BookFollowsChain(toId, ch, b, xs[..i], results[..i]);
    }
  }

  /** A block accepted by a book that agrees with the chain: no result is unreadable, the book agrees with
      the chain after the block, and the chain is ready for the next one. */
  method AcceptBlock(book: OrderBook, xs: seq<Entry>, results: seq<Result>, ghost toId: Hash, ghost ch: Chain)
    returns (ok: bool)
    requires book.Valid() && Agrees(BookOf(book), ch.store)
    requires LedgerInv(toId, ch.store, ch.fees) && FreshRun(toId, ch, xs) && BlockResults(toId, ch, xs, results)
    modifies book
    ensures book.Valid() && ok && Agrees(BookOf(book), Run(toId, ch, xs).store)
    ensures !book.trackAll ==> book.orders.Keys == old(book.orders.Keys)
    ensures LedgerInv(toId, Run(toId, ch, xs).store, Run(toId, ch, xs).fees)
  {
    ghost var b := BookOf(book);
    BlockOpensFresh(toId, ch, b, xs, results);
    BookFollowsChain(toId, ch, b, xs, results);
    RunKeepsLedger(toId, ch, xs);
    ReplayKeepsPairs(b, xs, results);
    ok := Accepted(book, xs, results);
  }

  /** A configured list of pairs is never changed. */
  lemma {:induction false} ReplayKeepsPairs(b: Book, xs: seq<Entry>, results: seq<Result>)
    requires |results| == |xs|
    ensures Replay(b, xs, results).trackAll == b.trackAll && (!b.trackAll ==> Replay(b, xs, results).pairs == b.pairs)
  {
    if xs != [] { ReplayKeepsPairs(b, xs[..|xs| - 1], results[..|xs| - 1]); }
  }

  lemma GenesisAgrees(toId: Hash, allocs: seq<Allocation>, b: Book)
    requires Parsed(allocs) && Total(allocs) <= MAX_UINT64 && NothingOverwritten(allocs) && b.ok && b.listings == map[]
    ensures Agrees(b, Loaded(map[], allocs)) && LedgerInv(toId, Loaded(map[], allocs), 0)
  {
    GenesisBalancesIff(toId, allocs);
    forall id: Id ensures OrderKey(id) !in Loaded(map[], allocs) { LoadedFacts(allocs, id, id); }
  }

  /** A new book, fed the blocks since genesis, lists exactly the open orders of the pairs it tracks. */
  method BookFromGenesis(trackedPairs: seq<Pair>, xs: seq<Entry>, results: seq<Result>,
                         ghost toId: Hash, ghost allocs: seq<Allocation>)
    returns (book: OrderBook)
    requires Parsed(allocs) && Total(allocs) <= MAX_UINT64 && NothingOverwritten(allocs)
    requires var ch := Chain(Loaded(map[], allocs), 0); FreshRun(toId, ch, xs) && BlockResults(toId, ch, xs, results)
    ensures fresh(book) && book.Valid() && (book.trackAll <==> trackedPairs == [ALL_PAIRS])
    ensures !book.trackAll ==> book.orders.Keys == set p | p in trackedPairs
    ensures Agrees(BookOf(book), Run(toId, Chain(Loaded(map[], allocs), 0), xs).store)
  {
    book := new OrderBook(trackedPairs);
    GenesisAgrees(toId, allocs, BookOf(book));
    var ok := AcceptBlock(book, xs, results, toId, Chain(Loaded(map[], allocs), 0));
  }
}

/** Orders over time: what one fill changes, why splitting a fill is harmless, and where every unit an
    order locked ends up. */
module OrderLife {
  import opened Common
  import opened Warp
  import opened Ledger
  import opened Actions
  import opened Conservation
  import opened Orders
  import opened Soundness
  import opened Transactions
  import opened Footprint

  function Stored(s: Store, k: Key): Option<Value> {
    if k in s then Some(s[k]) else None
  }

  lemma BalanceEntries(s: Store, owner: PublicKey, asset: Id, n: uint64, p: PublicKey, b: Id)
    ensures AddBalance(s, owner, asset, n).Ok? ==> var t := AddBalance(s, owner, asset, n).store;
      && GetBalance(t, p, b) == GetBalance(s, p, b) + (if p == owner && b == asset then n else 0)
      && (BalanceKey(p, b) in t <==> (p == owner && b == asset) || BalanceKey(p, b) in s)
    ensures SubBalance(s, owner, asset, n).Ok? ==> var t := SubBalance(s, owner, asset, n).store;
      && GetBalance(t, p, b) == GetBalance(s, p, b) - (if p == owner && b == asset then n else 0)
      && (BalanceKey(p, b) in t <==>
           if p == owner && b == asset then GetBalance(s, p, b) != n else BalanceKey(p, b) in s)
  {
  }

  /** What a fill does to a balance: the filler is debited the input and credited the output, the owner
      of the order is credited the input. */
  function Filled(actor: PublicKey, o: OrderRecord, r: OrderResult, s: Store, p: PublicKey, b: Id): int
  {
    GetBalance(s, p, b)
    - (if p == actor && b == o.inAsset then r.paid else 0)
    + (if p == o.owner && b == o.inAsset then r.paid else 0)
    + (if p == actor && b == o.outAsset then r.received else 0)
  }

  lemma SettledBalances(actor: PublicKey, o: OrderRecord, r: OrderResult, s: Store, p: PublicKey, b: Id)
    requires o.inAsset != o.outAsset && SettleBalances(actor, o, r, s).Ok?
    ensures var t := SettleBalances(actor, o, r, s).store;
      && GetBalance(t, p, b) == Filled(actor, o, r, s, p, b)
      && (BalanceKey(p, b) in t <==>
           if (p == o.owner && b == o.inAsset) || (p == actor && b == o.outAsset) then true
           else if p == actor && b == o.inAsset then GetBalance(s, p, b) != r.paid
           else BalanceKey(p, b) in s)
  {
  }

  lemma SettleKeepsOthers(actor: PublicKey, order: Id, o: OrderRecord, r: OrderResult, s: Store, k: Key)
    requires Settle(actor, order, o, r, s).Ok?
    ensures var t := Settle(actor, order, o, r, s).store;
      Stored(t, k) ==
        if k == OrderKey(order) then (if r.remaining == 0 then None else Some(Order(o.(remaining := r.remaining))))
        else if k.BalanceKey? then Stored(SettleBalances(actor, o, r, s).store, k)
        else Stored(s, k)
  {
  }

  ghost predicate SameBalance(s: Store, t: Store, p: PublicKey, b: Id) {
    GetBalance(s, p, b) == GetBalance(t, p, b) && (BalanceKey(p, b) in s <==> BalanceKey(p, b) in t)
  }

  lemma SettleTwiceBalances(actor: PublicKey, o: OrderRecord, r: OrderResult, r1: OrderResult, r2: OrderResult,
                            s: Store, t: Store, p: PublicKey, b: Id)
    requires o.inAsset != o.outAsset
    requires r.paid == r1.paid + r2.paid && r.received == r1.received + r2.received
    requires SettleBalances(actor, o, r, s).Ok? && SettleBalances(actor, o, r1, s).Ok?
    requires SameBalance(t, SettleBalances(actor, o, r1, s).store, p, b)
    requires SettleBalances(actor, o, r2, t).Ok?
    ensures SameBalance(SettleBalances(actor, o, r2, t).store, SettleBalances(actor, o, r, s).store, p, b)
  {
    SettledBalances(actor, o, r, s, p, b);
    SettledBalances(actor, o, r1, s, p, b);
    SettledBalances(actor, o, r2, t, p, b);
  }

  /** Two settlements in a row leave the same store as one settlement of the summed amounts. */
  lemma SettleTwice(actor: PublicKey, order: Id, o: OrderRecord, r: OrderResult, r1: OrderResult, r2: OrderResult,
                    s: Store, t: Store)
    requires o.inAsset != o.outAsset
    requires r.paid == r1.paid + r2.paid && r.received == r1.received + r2.received && r.remaining == r2.remaining
    requires Settle(actor, order, o, r, s).Ok? && Settle(actor, order, o, r1, s).Ok?
      && t == Settle(actor, order, o, r1, s).store
    requires Settle(actor, order, o.(remaining := r1.remaining), r2, t).Ok?
    ensures Settle(actor, order, o.(remaining := r1.remaining), r2, t).store == Settle(actor, order, o, r, s).store
  {
    var o1 := o.(remaining := r1.remaining);
    var u, v := Settle(actor, order, o1, r2, t).store, Settle(actor, order, o, r, s).store;
    forall k: Key ensures Stored(u, k) == Stored(v, k) {
      SettleKeepsOthers(actor, order, o, r1, s, k);
      SettleKeepsOthers(actor, order, o1, r2, t, k);
      SettleKeepsOthers(actor, order, o, r, s, k);
      if k.BalanceKey? {
        SettleTwiceBalances(actor, o, r, r1, r2, s, t, k.owner, k.asset);
      }
    }
    SameEntries(u, v);
  }

  lemma SameEntries(s: Store, t: Store)
    requires forall k: Key :: Stored(s, k) == Stored(t, k)
    ensures s == t
  {
    forall k: Key ensures (k in s <==> k in t) && (k in s ==> s[k] == t[k]) {
      assert Stored(s, k) == Stored(t, k);
    }
  }

  // ---- Path independence ----

  lemma Distribute(d: nat, m: nat, n: nat)
    ensures d * m + d * n == d * (m + n)
  {
  }

  /** Ticks add up: what two fills take together is what one fill of the sum takes. */
  lemma TicksAdd(o: OrderRecord, v1: uint64, v2: uint64, rest: OrderRecord)
    requires ValidOrder(o) && ValidOrder(rest) && Fits(o, v1) && Fits(rest, v2) && v1 + v2 <= MAX_UINT64
    requires rest == o.(remaining := rest.remaining)
    requires rest.remaining / o.outTick == o.remaining / o.outTick - Ticks(o, v1)
    ensures Ticks(o, v1 + v2) == Ticks(o, v1) + Ticks(rest, v2)
  {
    ExactQuotient(v1, o.inTick);
    ExactQuotient(v2, o.inTick);
    Distribute(o.inTick, v1 / o.inTick, v2 / o.inTick);
    DivideMultiple(v1 + v2, v1 / o.inTick + v2 / o.inTick, o.inTick);
    if rest.remaining / o.outTick == 0 { ExactQuotient(rest.remaining, o.outTick); }
  }

  /** The amounts an order trades for `value`. */
  predicate Trades(o: OrderRecord, value: uint64, r: OrderResult) {
    Fits(o, value) && r == Amounts(o, value)
  }

  /** The amounts of two consecutive fills are those of one fill of the sum. */
  lemma AmountsAddUp(o: OrderRecord, v1: uint64, v2: uint64, v: uint64, r1: OrderResult, r2: OrderResult,
                     r: OrderResult)
    requires ValidOrder(o) && v == v1 + v2 && r1.remaining != 0
    requires Trades(o, v1, r1) && Trades(o.(remaining := r1.remaining), v2, r2) && Trades(o, v, r)
    ensures r.paid == r1.paid + r2.paid && r.received == r1.received + r2.received && r.remaining == r2.remaining
  {
    var rest := o.(remaining := r1.remaining);
    RemainingInTicks(o, v1);
    TicksAdd(o, v1, v2, rest);
    FillInTicks(o, v);
    FillInTicks(o, v1);
    FillInTicks(rest, v2);
    Distribute(o.inTick, Ticks(o, v1), Ticks(rest, v2));
    Distribute(o.outTick, Ticks(o, v1), Ticks(rest, v2));
  }

  /** A fill of the order as stored. */
  function FillBy(order: Id, o: OrderRecord, value: uint64): Action {
    FillOrder(order, o.owner, o.inAsset, o.outAsset, value)
  }

  lemma FillIsSettle(c: Context, order: Id, o: OrderRecord, value: uint64, s: Store) returns (r: OrderResult)
    requires GetOrder(s, order) == Some(o) && FillOrderSpec(c, FillBy(order, o, value), s).Ok?
    ensures Trades(o, value, r)
    ensures FillOrderSpec(c, FillBy(order, o, value), s) == Settle(c.actor, order, o, r, s)
    ensures GetOrder(Settle(c.actor, order, o, r, s).store, order)
         == if r.remaining == 0 then None else Some(o.(remaining := r.remaining))
  {
    QuoteAmounts(FillBy(order, o, value), o);
    r := Quote(FillBy(order, o, value), o).value;
    SettleKeepsOthers(c.actor, order, o, r, s, OrderKey(order));
  }

  /** Filling `v1` and then `v2` leaves exactly the store that filling their sum leaves. */
  lemma FillsAddUp(c: Context, order: Id, o: OrderRecord, v1: uint64, v2: uint64, v: uint64, s: Store, t: Store)
    requires GetOrder(s, order) == Some(o) && ValidOrder(o) && v == v1 + v2
    requires FillOrderSpec(c, FillBy(order, o, v1), s).Ok? && t == FillOrderSpec(c, FillBy(order, o, v1), s).store
    requires FillOrderSpec(c, FillBy(order, o, v2), t).Ok?
    requires FillOrderSpec(c, FillBy(order, o, v), s).Ok?
    ensures FillOrderSpec(c, FillBy(order, o, v2), t).store == FillOrderSpec(c, FillBy(order, o, v), s).store
  {
    var r := FillIsSettle(c, order, o, v, s);
    var r1 := FillIsSettle(c, order, o, v1, s);
    var r2 := SecondFill(c, order, o, o.(remaining := r1.remaining), v2, t);
    AmountsAddUp(o, v1, v2, v, r1, r2, r);
    SettleTwice(c.actor, order, o, r, r1, r2, s, t);
  }

  lemma SecondFill(c: Context, order: Id, o: OrderRecord, rest: OrderRecord, value: uint64, t: Store)
    returns (r: OrderResult)
    requires rest == o.(remaining := rest.remaining) && FillOrderSpec(c, FillBy(order, o, value), t).Ok?
    requires GetOrder(t, order) == if rest.remaining == 0 then None else Some(rest)
    ensures rest.remaining != 0 && Trades(rest, value, r)
    ensures FillOrderSpec(c, FillBy(order, o, value), t) == Settle(c.actor, order, rest, r, t)
  {
    r := FillIsSettle(c, order, rest, value, t);
  }

  // ---- The life of an order over a run ----

  predicate Succeeds(toId: Hash, ch: Chain, x: Entry) {
    var r := ApplyTx(EnvOf(toId, x), x.tx, ch.store);
    r.Applied? && FeesValid(x.tx) && r.outcome.Ok?
  }

  /** What one transaction trades on an order, as published in its result. */
  function TradedBy(toId: Hash, ch: Chain, x: Entry, order: Id): OrderResult {
    if Succeeds(toId, ch, x) && x.tx.action.FillOrder? && x.tx.action.order == order then
      var r := UnmarshalOrderResult(ApplyTx(EnvOf(toId, x), x.tx, ch.store).outcome.output);
      if r.Some? then r.value else OrderResult(0, 0, 0)
    else OrderResult(0, 0, 0)
  }

  /** What one transaction gives back to the owner of an order by closing it. */
  function ReturnedBy(toId: Hash, ch: Chain, x: Entry, order: Id): nat {
    if Succeeds(toId, ch, x) && x.tx.action.CloseOrder? && x.tx.action.order == order
    then Locked(ch.store, order) else 0
  }

  predicate SameOrder(s: Store, t: Store, order: Id) {
    OrderKey(order) in t ==>
      OrderKey(order) in s && t[OrderKey(order)].order == s[OrderKey(order)].order.(remaining := Locked(t, order))
  }

  /** The account of one transaction: what it took out of the order it traded or returned, at the
      order's price; nothing else touches the order. */
  ghost predicate Accounted(toId: Hash, ch: Chain, x: Entry, order: Id) {
    var t := Step(toId, ch, x).store;
    var r := TradedBy(toId, ch, x, order);
    && Locked(ch.store, order) == r.received + ReturnedBy(toId, ch, x, order) + Locked(t, order)
    && SameOrder(ch.store, t, order)
    && (if OrderKey(order) in ch.store then
         var o := ch.store[OrderKey(order)].order; r.paid * o.outTick == r.received * o.inTick
       else r.paid == 0)
  }

  lemma UntouchedOrder(toId: Hash, ch: Chain, x: Entry, order: Id)
    requires OrderKey(order) !in TxKeys(EnvOf(toId, x), x.tx)
    ensures Accounted(toId, ch, x, order)
  {
    TxWrites(TxKeys(EnvOf(toId, x), x.tx), EnvOf(toId, x), x.tx, ch.store);
  }

  lemma FailedOnOrder(toId: Hash, ch: Chain, x: Entry, order: Id)
    requires !Succeeds(toId, ch, x)
    ensures Accounted(toId, ch, x, order)
  {
  }

  /** Between the fee steps, a successful transaction is its action. */
  lemma SuccessIsExecute(toId: Hash, ch: Chain, x: Entry, order: Id) returns (s: Store)
    requires Succeeds(toId, ch, x)
    ensures var o := Execute(ContextOf(EnvOf(toId, x), x.tx), x.tx.action, s);
      && o.Ok? && ApplyTx(EnvOf(toId, x), x.tx, ch.store).outcome == o
      && GetOrder(s, order) == GetOrder(ch.store, order)
      && GetOrder(Step(toId, ch, x).store, order) == GetOrder(o.store, order)
  {
    s := SubBalance(ch.store, x.tx.signer, EMPTY_ID, x.tx.maxFee).store;
  }

  lemma FilledOrder(toId: Hash, ch: Chain, x: Entry, order: Id)
    requires Sound(toId, ch.store) && Succeeds(toId, ch, x) && x.tx.action.FillOrder? && x.tx.action.order == order
    ensures Accounted(toId, ch, x, order)
  {
    var s := SuccessIsExecute(toId, ch, x, order);
    assert OrderKey(order) in ch.store && EntrySound(toId, ch.store, OrderKey(order));
    var o := GetOrder(s, order).value;
    FillAtExactPrice(ContextOf(EnvOf(toId, x), x.tx), x.tx.action, s, o);
  }

  lemma ClosedOrder(toId: Hash, ch: Chain, x: Entry, order: Id)
    requires Succeeds(toId, ch, x) && x.tx.action.CloseOrder? && x.tx.action.order == order
    ensures Accounted(toId, ch, x, order)
  {
  }

  lemma StepAccounted(toId: Hash, ch: Chain, x: Entry, order: Id)
    requires Sound(toId, ch.store) && x.tx.id != order
    ensures Accounted(toId, ch, x, order)
  {
    hide Accounted, Succeeds;
    if !Succeeds(toId, ch, x) {
      FailedOnOrder(toId, ch, x, order);
    } else if x.tx.action.FillOrder? && x.tx.action.order == order {
      FilledOrder(toId, ch, x, order);
    } else if x.tx.action.CloseOrder? && x.tx.action.order == order {
      ClosedOrder(toId, ch, x, order);
    } else {
      UntouchedOrder(toId, ch, x, order);
    }
  }

  datatype Account = Account(paid: nat, received: nat, returned: nat)

  /** Everything traded on and returned from an order over a run. */
  function RunAccount(toId: Hash, ch: Chain, xs: seq<Entry>, order: Id): Account {
    if xs == [] then Account(0, 0, 0)
    else
      var n := |xs| - 1;
      var before := RunAccount(toId, ch, xs[..n], order);
      var r := TradedBy(toId, Run(toId, ch, xs[..n]), xs[n], order);
      Account(before.paid + r.paid, before.received + r.received,
              before.returned + ReturnedBy(toId, Run(toId, ch, xs[..n]), xs[n], order))
  }

  lemma SamePrice(o: OrderRecord, paid: nat, received: nat, paid': nat, received': nat)
    requires paid * o.outTick == received * o.inTick && paid' * o.outTick == received' * o.inTick
    ensures (paid + paid') * o.outTick == (received + received') * o.inTick
  {
  }

  /** What an order held at the start was received by fillers at exactly its price, returned to its
      owner, or is still locked in it, under unchanged terms. */
  ghost predicate FullyAccounted(o: OrderRecord, acc: Account, t: Store, order: Id) {
    && o.remaining == acc.received + acc.returned + Locked(t, order)
    && acc.paid * o.outTick == acc.received * o.inTick
    && (OrderKey(order) in t ==> GetOrder(t, order) == Some(o.(remaining := Locked(t, order))))
  }

  lemma AccountGrows(toId: Hash, ch: Chain, x: Entry, order: Id, o: OrderRecord, before: Account)
    requires FullyAccounted(o, before, ch.store, order) && Accounted(toId, ch, x, order)
    ensures var r := TradedBy(toId, ch, x, order);
      FullyAccounted(o, Account(before.paid + r.paid, before.received + r.received,
                                before.returned + ReturnedBy(toId, ch, x, order)),
                     Step(toId, ch, x).store, order)
  {
    hide Step, TradedBy, ReturnedBy;
    var r := TradedBy(toId, ch, x, order);
    assert r.paid * o.outTick == r.received * o.inTick;
    SamePrice(o, before.paid, before.received, r.paid, r.received);
  }

  /** Every order is fully accounted for, over every run. */
  lemma {:induction false} OrderLifetime(toId: Hash, ch: Chain, xs: seq<Entry>, order: Id, o: OrderRecord)
    requires LedgerInv(toId, ch.store, ch.fees) && FreshRun(toId, ch, xs)
    requires GetOrder(ch.store, order) == Some(o)
    requires forall i :: 0 <= i < |xs| ==> xs[i].tx.id != order
    ensures FullyAccounted(o, RunAccount(toId, ch, xs, order), Run(toId, ch, xs).store, order)
  {
    hide Step, TradedBy, ReturnedBy;
    if xs != [] {
      var n := |xs| - 1;
      var mid := Run(toId, ch, xs[..n]);
      FreshPrefix(toId, ch, xs);
      OrderLifetime(toId, ch, xs[..n], order, o);
      RunKeepsLedger(toId, ch, xs[..n]);
      StepAccounted(toId, mid, xs[n], order);
      AccountGrows(toId, mid, xs[n], order, o, RunAccount(toId, ch, xs[..n], order));
    }
  }
}
